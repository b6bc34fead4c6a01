/** Tap rate attempts over whole runs: each recordable attempt that ended is
    queued, saved once or dropped by the cap, in end order. */
module TapQueue {
  import opened Options
  import opened Counters
  import opened TapRate
  import opened Daemon
  import opened Telemetry
  import opened Runtime

  // ---- What an event ends and saves ------------------------------------------------

  /** The events that end the attempt being played. */
  predicate Ends(c: Ctl, e: Event) {
    match e
    case TosuTelemetry(f) =>
      if f.isPlaying then NewAttempt(c, f) || (f.failed && !c.tap.lastFailed) else c.state.mode == Playing
    case TosuConnectionChanged(connected) => !connected
    case _ => false
  }

  /** The attempt an event adds to the history's queue. */
  function Finished(c: Ctl, e: Event): seq<Attempt> {
    if Ends(c, e) && c.tap.attempt.Some? && Recordable(c.tap.attempt.value) then [c.tap.attempt.value] else []
  }

  function Saves(actions: seq<Action>): seq<seq<Attempt>>
    decreases |actions|
  {
    if actions == [] then []
    else
      var last := actions[|actions| - 1];
      Saves(actions[..|actions| - 1]) + (if last.SaveTapStats? then [last.attempts] else [])
  }

  predicate NoSaves(actions: seq<Action>) { forall a :: a in actions ==> !a.SaveTapStats? }

  lemma {:induction false} SavesNone(actions: seq<Action>)
    requires NoSaves(actions)
    ensures Saves(actions) == []
    decreases |actions|
  {
    if actions != [] {
      assert actions[|actions| - 1] in actions;
      SavesNone(actions[..|actions| - 1]);
    }
  }

  lemma {:induction false} SavesAppend(a: seq<Action>, b: seq<Action>)
    ensures Saves(a + b) == Saves(a) + Saves(b)
    decreases |b|
  {
    if b == [] {
      assert a + b == a;
    } else {
      var n := |b| - 1;
      assert (a + b)[..|a| + n] == a + b[..n];
      SavesAppend(a, b[..n]);
    }
  }

  /** What one event does to the queue: it may end one attempt, or hand the whole
      queue over to be saved. */
  ghost predicate QueueStep(c: Ctl, e: Event, o: Out) {
    || (Saves(o.actions) == []
        && o.c.tap.unsaved == (if Finished(c, e) == [] then c.tap.unsaved
                               else CapUnsaved(c.tap.unsaved + Finished(c, e))))
    || (Finished(c, e) == [] && Saves(o.actions) == [c.tap.unsaved] && o.c.tap.unsaved == [])
  }

  predicate Untouched(c: Ctl, o: Out) { o.c.tap.unsaved == c.tap.unsaved && NoSaves(o.actions) }

  lemma FinishQueues(env: Env, p: Play)
    ensures FinishAttempt(env, p).tap.unsaved
         == if p.tap.attempt.Some? && Recordable(p.tap.attempt.value)
            then CapUnsaved(p.tap.unsaved + [p.tap.attempt.value]) else p.tap.unsaved
  {}

  lemma AttemptFrameQueues(env: Env, p: Play, f: Frame, starts: bool, now: int)
    ensures AttemptFrame(env, p, f, starts, now).tap.unsaved
         == if (starts || (f.failed && !p.tap.lastFailed)) && p.tap.attempt.Some? && Recordable(p.tap.attempt.value)
            then CapUnsaved(p.tap.unsaved + [p.tap.attempt.value]) else p.tap.unsaved
  {
    hide Recordable, CapUnsaved, Ingested, TosuInputs;
  }

  lemma EnterUntouched(c: Ctl)
    ensures Untouched(c, EnterPlay(c))
  {}

  lemma AnnounceUntouched(c: Ctl, now: int)
    ensures Untouched(c, Announce(c, now))
  {}

  lemma PlayingQueues(env: Env, c: Ctl, f: Frame, now: int)
    ensures var o := PlayingFrame(env, c, f, now);
            && NoSaves(o.actions)
            && o.c.tap.unsaved == AttemptFrame(env, PlayOf(c), f, NewAttempt(c, f), now).tap.unsaved
  {
    hide AttemptFrame, EnterPlay, Announce;
    var b := Attempted(env, c, f, now);
    EnterUntouched(b);
    AnnounceUntouched(EnterPlay(b).c, now);
  }

  lemma EndQueues(env: Env, c: Ctl, now: int)
    ensures var o := EndPlay(env, c, now);
            NoSaves(o.actions) && o.c.tap.unsaved == FinishAttempt(env, PlayOf(c)).tap.unsaved
  {
    hide FinishAttempt;
  }

  lemma FrameQueues(env: Env, c: Ctl, f: Frame, now: int)
    ensures var p := FrameFirst(env, c, f, now);
            && NoSaves(p.actions)
            && p.c.tap.unsaved == (if Finished(c, TosuTelemetry(f)) == [] then c.tap.unsaved
                                   else CapUnsaved(c.tap.unsaved + Finished(c, TosuTelemetry(f))))
  {
    hide Recordable, CapUnsaved, AttemptFrame, FinishAttempt, PlayingFrame, EndPlay;
    var i := TakenIn(c, f);
    if f.isPlaying {
      PlayingQueues(env, i, f, now);
      AttemptFrameQueues(env, PlayOf(i), f, NewAttempt(i, f), now);
    } else if c.state.mode == Playing {
      EndQueues(env, i, now);
      FinishQueues(env, PlayOf(i));
    }
  }

  lemma TelemetryQueues(env: Env, c: Ctl, f: Frame, now: int)
    ensures QueueStep(c, TosuTelemetry(f), OnTelemetry(env, c, f, now))
  {
    hide Recordable, CapUnsaved, FrameFirst;
    FrameQueues(env, c, f, now);
    var p := FrameFirst(env, c, f, now);
    SavesNone(p.actions + ResultsAnimation(env, p.c, f));
  }

  lemma TosuGoneQueues(env: Env, c: Ctl, now: int)
    ensures var o := TosuGone(env, c, now);
            && NoSaves(o.actions)
            && o.c.tap.unsaved == FinishAttempt(env, PlayOf(c)).tap.unsaved
  {
    hide FinishAttempt;
  }

  lemma TosuConnectionQueues(env: Env, c: Ctl, connected: bool, now: int)
    ensures QueueStep(c, TosuConnectionChanged(connected), OnTosuConnection(env, c, connected, now))
  {
    hide TosuGone, FinishAttempt, Recordable, CapUnsaved;
    var t := c.(state := c.state.(tosuConnected := connected));
    TosuGoneQueues(env, t, now);
    FinishQueues(env, PlayOf(t));
    SavesNone(OnTosuConnection(env, c, connected, now).actions);
  }

  // ---- The tick ---------------------------------------------------------------------

  lemma EarlyTickUntouched(env: Env, c: Ctl, at: int)
    ensures var cool := TickCooldown(c, at);
            var status := TickStatus(cool.c, at);
            var data := TickData(env, status.c, at);
            var periodic := TickPeriodic(data.c, at);
            Untouched(c, Out(periodic.c, cool.actions + status.actions + data.actions + periodic.actions))
  {
    hide TickCooldown, TickStatus, TickData, TickPeriodic;
    var cool := TickCooldown(c, at);
    var status := TickStatus(cool.c, at);
    var data := TickData(env, status.c, at);
    CooldownUntouched(c, at);
    StatusUntouched(cool.c, at);
    DataUntouched(env, status.c, at);
    PeriodicUntouched(data.c, at);
  }

  lemma CooldownUntouched(c: Ctl, at: int)
    ensures Untouched(c, TickCooldown(c, at))
  {}

  lemma StatusUntouched(c: Ctl, at: int)
    ensures Untouched(c, TickStatus(c, at))
  {}

  lemma DataUntouched(env: Env, c: Ctl, at: int)
    ensures Untouched(c, TickData(env, c, at))
  {
    hide Ingested;
  }

  lemma PeriodicUntouched(c: Ctl, at: int)
    ensures Untouched(c, TickPeriodic(c, at))
  {}

  lemma TickQueues(env: Env, c: Ctl, at: int)
    ensures QueueStep(c, Tick(at), OnTick(env, c, at))
  {
    hide TickCooldown, TickStatus, TickData, TickPeriodic, TickTapStats;
    var cool := TickCooldown(c, at);
    var status := TickStatus(cool.c, at);
    var data := TickData(env, status.c, at);
    var periodic := TickPeriodic(data.c, at);
    var stats := TickTapStats(periodic.c, at);
    var backup := TickBackup(stats.c, at);
    var before := cool.actions + status.actions + data.actions + periodic.actions;
    EarlyTickUntouched(env, c, at);
    StatsSave(periodic.c, at);
    SavesNone(before);
    SavesNone(backup.actions);
    SavesAppend(before, stats.actions);
    SavesAppend(before + stats.actions, backup.actions);
  }

  lemma StatsSave(c: Ctl, at: int)
    ensures var o := TickTapStats(c, at);
            || (Saves(o.actions) == [] && o.c.tap.unsaved == c.tap.unsaved)
            || (Saves(o.actions) == [c.tap.unsaved] && o.c.tap.unsaved == [])
  {
    var o := TickTapStats(c, at);
    if |o.actions| == 1 { assert o.actions[..0] == []; }
  }

  // ---- The other events ---------------------------------------------------------------

  lemma AdoptUntouched(env: Env, c: Ctl, config: Option<DeviceConfig>)
    ensures Untouched(c, AdoptConfig(env, c, config))
  {}

  lemma JudgeUntouched(c: Ctl, info: DeviceInfo)
    ensures Untouched(c, JudgeOwner(c, info))
  {}

  lemma RegisterUntouched(env: Env, c: Ctl, info: DeviceInfo)
    ensures Untouched(c, Register(env, c, info))
  {}

  lemma GreetUntouched(c: Ctl, sendConfig: bool, now: int)
    ensures Untouched(c, Greet(c, sendConfig, now))
  {
    assert forall a :: a in Layouts(c.state.customLayouts) ==> a.SendLayout?;
  }

  lemma ConnectedUntouched(env: Env, c: Ctl, info: DeviceInfo, config: Option<DeviceConfig>, now: int)
    ensures Untouched(c, OnConnected(env, c, info, config, now))
  {
    hide AdoptConfig, JudgeOwner, Register, Greet, NvsWiped;
    if info.protocolVersion == DEVICE_PROTOCOL_VERSION {
      var s := StagesOf(env, c, info, config, now);
      AdoptUntouched(env, s.accepted, config);
      JudgeUntouched(s.identified, info);
      RegisterUntouched(env, s.judged.c, info);
      GreetUntouched(s.registered.c, config.None? || s.wiped, now);
    }
  }

  lemma {:induction false} LogBatchUntouched(c: Ctl, ids: seq<nat>)
    ensures Untouched(c, OnLogBatch(c, ids))
    decreases |ids|
  {
    if ids != [] { LogBatchUntouched(c, ids[..|ids| - 1]); }
  }

  lemma SyncUntouched(c: Ctl, e: Event, now: int)
    requires e.SyncCompleted?
    ensures Untouched(c, OnSyncCompleted(c, e, now))
  {}

  lemma KeysUntouched(env: Env, p: Play, playing: bool, padTimes: bool, k1: nat, k2: nat, at: int)
    ensures OnTosuKeys(env, p, playing, padTimes, k1, k2, at).tap.unsaved == p.tap.unsaved
  {
    hide Ingested, TosuInputs;
  }

  lemma PadUntouched(env: Env, p: Play, playing: bool, nowUs: nat, presses: seq<(nat, nat)>, received: int)
    ensures OnPadPresses(env, p, playing, nowUs, presses, received).tap.unsaved == p.tap.unsaved
  {
    hide Ingested, PadFeeds;
  }

  lemma UntouchedIsStep(c: Ctl, e: Event, o: Out)
    requires Untouched(c, o) && Finished(c, e) == []
    ensures QueueStep(c, e, o)
  {
    SavesNone(o.actions);
  }

  lemma EventQueues(env: Env, c: Ctl, e: Event, now: int)
    ensures QueueStep(c, e, OnEvent(env, c, e, now))
  {
    hide OnConnected, OnLogBatch, OnTelemetry, OnTosuConnection, OnTick, OnSyncCompleted, OnTosuKeys, OnPadPresses,
        QueueStep;
    match e
    case TosuTelemetry(f) => TelemetryQueues(env, c, f, now);
    case TosuConnectionChanged(connected) => TosuConnectionQueues(env, c, connected, now);
    case Tick(at) => TickQueues(env, c, at);
    case _ =>
      QuietEvents(env, c, e, now);
      UntouchedIsStep(c, e, OnEvent(env, c, e, now));
  }

  lemma QuietEvents(env: Env, c: Ctl, e: Event, now: int)
    requires !e.TosuTelemetry? && !e.TosuConnectionChanged? && !e.Tick?
    ensures Untouched(c, OnEvent(env, c, e, now))
  {
    hide OnConnected, OnLogBatch, OnSyncCompleted, OnTosuKeys, OnPadPresses;
    match e
    case DeviceConnected(info, config) => ConnectedUntouched(env, c, info, config, now);
    case DeviceLogBatch(ids) => LogBatchUntouched(c, ids);
    case SyncCompleted(_, _, _, _) => SyncUntouched(c, e, now);
    case TosuKeys(k1, k2, at) =>
      KeysUntouched(env, PlayOf(c), c.state.mode == Playing, PadTimesPresses(c), k1, k2, at);
    case PadPresses(nowUs, presses, received) =>
      PadUntouched(env, PlayOf(c), c.state.mode == Playing, nowUs, presses, received);
    case _ =>
  }

  // ---- What is worth queueing -----------------------------------------------------------

  /** An attempt that ends is queued, as the newest, exactly when it was the player's own,
      had ten presses or more, and two of them in a row within a second. */
  lemma EndedIsQueuedExactly(env: Env, c: Ctl, e: Event, now: int)
    requires Ends(c, e) && c.tap.attempt.Some? && |c.tap.unsaved| <= MAX_UNSAVED_ATTEMPTS
    ensures var a := c.tap.attempt.value;
            var before, after := c.tap.unsaved, OnEvent(env, c, e, now).c.tap.unsaved;
            var presses := Moments(a, a.log);
            var keep := !a.replay && |presses| >= 10 && Taps(presses);
            && (!keep ==> after == before)
            && (keep ==> after == (if |before| < 500 then before else before[1..]) + [a])
            && forall x :: x in OnEvent(env, c, e, now).actions ==> !x.SaveTapStats?
  {
    hide OnEvent, Recordable, Moments, Taps;
    RecordableExactly(c.tap.attempt.value);
    EndsSaveNothing(env, c, e, now);
    EventQueues(env, c, e, now);
  }

  lemma EndsSaveNothing(env: Env, c: Ctl, e: Event, now: int)
    requires Ends(c, e)
    ensures NoSaves(OnEvent(env, c, e, now).actions) && Saves(OnEvent(env, c, e, now).actions) == []
  {
    hide FrameFirst, TosuGone;
    if e.TosuTelemetry? {
      FrameQueues(env, c, e.frame, now);
    } else {
      TosuGoneQueues(env, c.(state := c.state.(tosuConnected := e.connected)), now);
    }
    SavesNone(OnEvent(env, c, e, now).actions);
  }

  // ---- Runs ---------------------------------------------------------------------------

  /** One turn: what others left in the shared state, the event, and whether the
      database takes a save, which it does whole or not at all. */
  datatype SaveTurn = SaveTurn(shared: DaemonState, event: Event, now: int, saves: bool)

  /** Beside the controller: every recordable attempt that ended, in order; those
      that left the queue, oldest first, with whether they were saved; and the
      database's table. */
  datatype Record = Record(c: Ctl, ended: seq<Attempt>, gone: seq<(Attempt, bool)>, table: seq<Attempt>)

  function Mark(attempts: seq<Attempt>, saved: bool): seq<(Attempt, bool)> {
    seq(|attempts|, i requires 0 <= i < |attempts| => (attempts[i], saved))
  }

  function Firsts(gone: seq<(Attempt, bool)>): seq<Attempt> {
    seq(|gone|, i requires 0 <= i < |gone| => gone[i].0)
  }

  function SavedOf(gone: seq<(Attempt, bool)>): seq<Attempt>
    decreases |gone|
  {
    if gone == [] then []
    else
      var n := |gone| - 1;
      if gone[n].1 then SavedOf(gone[..n]) + [gone[n].0] else SavedOf(gone[..n])
  }

  /** What the cap takes off the front. */
  function Dropped(before: seq<Attempt>): seq<Attempt> {
    before[..|before| - |CapUnsaved(before)|]
  }

  /** The loop's handling of a save: into the table, or back in the queue ahead of
      anything that ended since. */
  function Handled(r: Record, batch: seq<Attempt>, saves: bool): Record {
    if saves then r.(gone := r.gone + Mark(batch, true), table := r.table + batch)
    else
      r.(c := r.c.(tap := Requeued(r.c.tap, batch)),
         gone := r.gone + Mark(Dropped(batch + r.c.tap.unsaved), false))
  }

  /** The record once the controller is `c` and the attempts `done` have ended. */
  function Ended(r: Record, c: Ctl, done: seq<Attempt>): Record {
    if done == [] then r.(c := c)
    else Record(c, r.ended + done, r.gone + Mark(Dropped(r.c.tap.unsaved + done), false), r.table)
  }

  function Step(env: Env, r: Record, t: SaveTurn): Record {
    var o := Apply(env, r.c, t.shared, t.event, t.now);
    var r' := Ended(r, o.c, Finished(Remember(r.c.(state := t.shared)), t.event));
    var batches := Saves(o.actions);
    if batches == [] then r' else Handled(r', batches[0], t.saves)
  }

  function Run(env: Env, r: Record, turns: seq<SaveTurn>): Record
    decreases |turns|
  {
    if turns == [] then r else Step(env, Run(env, r, turns[..|turns| - 1]), turns[|turns| - 1])
  }

  /** Each attempt that ended is gone or queued, in end order; the queue is
      bounded, and the table is what was saved. */
  predicate Conserved(r: Record) {
    && r.ended == Firsts(r.gone) + r.c.tap.unsaved
    && |r.c.tap.unsaved| <= MAX_UNSAVED_ATTEMPTS
    && r.table == SavedOf(r.gone)
  }

  /** Attempts that could not be saved go back in front of those that ended since, and the
      queue keeps the newest five hundred. */
  lemma RefusedGoInFront(t: Tap, refused: seq<Attempt>)
    ensures var all, q := refused + t.unsaved, Requeued(t, refused).unsaved;
            && |q| == (if |all| <= 500 then |all| else 500)
            && forall k :: 0 <= k < |q| ==> q[k] == all[|all| - |q| + k]
    ensures Requeued(t, refused) == t.(unsaved := Requeued(t, refused).unsaved)
  {
    NewestStay(refused + t.unsaved);
    hide CapUnsaved;
    assert Requeued(t, refused).unsaved == CapUnsaved(refused + t.unsaved);
  }

  lemma NewestStay(all: seq<Attempt>)
    ensures var q := CapUnsaved(all);
            && |q| == (if |all| <= 500 then |all| else 500)
            && forall k :: 0 <= k < |q| ==> q[k] == all[|all| - |q| + k]
  {}

  lemma CapSplits(before: seq<Attempt>)
    ensures before == Dropped(before) + CapUnsaved(before) && |CapUnsaved(before)| <= MAX_UNSAVED_ATTEMPTS
    ensures |before| <= MAX_UNSAVED_ATTEMPTS ==> Dropped(before) == [] && CapUnsaved(before) == before
  {}

  lemma FirstsAppend(gone: seq<(Attempt, bool)>, attempts: seq<Attempt>, saved: bool)
    ensures Firsts(gone + Mark(attempts, saved)) == Firsts(gone) + attempts
  {}

  lemma {:induction false} SavedAppend(gone: seq<(Attempt, bool)>, attempts: seq<Attempt>, saved: bool)
    ensures SavedOf(gone + Mark(attempts, saved)) == if saved then SavedOf(gone) + attempts else SavedOf(gone)
    decreases |attempts|
  {
    if attempts == [] {
      assert gone + Mark(attempts, saved) == gone;
    } else {
      var n := |attempts| - 1;
      SavedAppend(gone, attempts[..n], saved);
      assert (gone + Mark(attempts, saved))[..|gone| + n] == gone + Mark(attempts[..n], saved);
      assert attempts == attempts[..n] + [attempts[n]];
    }
  }

  lemma ApplyQueues(env: Env, c: Ctl, t: SaveTurn)
    ensures var before := Remember(c.(state := t.shared));
            var o := Apply(env, c, t.shared, t.event, t.now);
            before.tap == c.tap && QueueStep(before, t.event, o)
  {
    hide OnEvent, QueueStep;
    var before := Remember(c.(state := t.shared));
    EventQueues(env, before, t.event, t.now);
    SettledQueues(before, t.event, OnEvent(env, before, t.event, t.now));
  }

  lemma SettledQueues(c: Ctl, e: Event, o: Out)
    requires QueueStep(c, e, o)
    ensures QueueStep(c, e, Out(Settled(o.c), o.actions))
  {}

  lemma Reassociated<T>(gone: seq<T>, queue: seq<T>, done: seq<T>, lost: seq<T>, kept: seq<T>)
    requires queue + done == lost + kept
    ensures gone + queue + done == gone + lost + kept
  {
    assert gone + queue + done == gone + (queue + done);
    assert gone + (lost + kept) == gone + lost + kept;
  }

  lemma EndedConserves(r: Record, c: Ctl, done: seq<Attempt>)
    requires Conserved(r)
    requires c.tap.unsaved == if done == [] then r.c.tap.unsaved else CapUnsaved(r.c.tap.unsaved + done)
    ensures Conserved(Ended(r, c, done))
  {
    hide CapUnsaved, Dropped, Firsts, SavedOf, Mark;
    if done != [] {
      var queue := r.c.tap.unsaved;
      var lost := Dropped(queue + done);
      FirstsAppend(r.gone, lost, false);
      SavedAppend(r.gone, lost, false);
      CapSplits(queue + done);
      Reassociated(Firsts(r.gone), queue, done, lost, CapUnsaved(queue + done));
    }
  }

  lemma StepConserves(env: Env, r: Record, t: SaveTurn)
    requires Conserved(r)
    ensures Conserved(Step(env, r, t))
  {
    hide Apply, Remember, CapUnsaved, Finished, Saves, Handled, Firsts, SavedOf;
    var o := Apply(env, r.c, t.shared, t.event, t.now);
    var done := Finished(Remember(r.c.(state := t.shared)), t.event);
    ApplyQueues(env, r.c, t);
    if Saves(o.actions) == [] {
      EndedConserves(r, o.c, done);
    } else {
      HandledConserves(r.(c := o.c), r.c.tap.unsaved, t.saves);
    }
  }

  lemma HandledConserves(r: Record, batch: seq<Attempt>, saves: bool)
    requires r.ended == Firsts(r.gone) + batch && r.c.tap.unsaved == [] && |batch| <= MAX_UNSAVED_ATTEMPTS
    requires r.table == SavedOf(r.gone)
    ensures Conserved(Handled(r, batch, saves))
  {
    hide Firsts, SavedOf, Mark;
    FirstsAppend(r.gone, batch, true);
    SavedAppend(r.gone, batch, true);
    FirstsAppend(r.gone, [], false);
    SavedAppend(r.gone, [], false);
    CapSplits(batch + []);
    assert batch + [] == batch;
    assert Firsts(r.gone) + [] == Firsts(r.gone);
    assert Firsts(r.gone) + batch + [] == Firsts(r.gone) + batch;
  }

  /** Tap attempts are conserved. In any run of ends, idle ticks and saves that
      succeed or fail, every recordable attempt that ended is exactly one of
      saved, dropped or queued; the queue is the newest of them, never more than
      500; what leaves it is always the oldest; and the table holds the saved
      ones, each once, in end order. */
  lemma {:induction false} AttemptsAreConserved(env: Env, r: Record, turns: seq<SaveTurn>)
    requires Conserved(r)
    ensures var r' := Run(env, r, turns);
            && r'.ended == Firsts(r'.gone) + r'.c.tap.unsaved
            && |r'.c.tap.unsaved| <= MAX_UNSAVED_ATTEMPTS
            && r'.table == SavedOf(r'.gone)
            && r.ended <= r'.ended && r.gone <= r'.gone
    decreases |turns|
  {
    hide Step;
    if turns != [] {
      var before := Run(env, r, turns[..|turns| - 1]);
      AttemptsAreConserved(env, r, turns[..|turns| - 1]);
      StepConserves(env, before, turns[|turns| - 1]);
      StepGrows(env, before, turns[|turns| - 1]);
    }
  }

  lemma StepGrows(env: Env, r: Record, t: SaveTurn)
    ensures r.ended <= Step(env, r, t).ended && r.gone <= Step(env, r, t).gone
  {
    hide Apply, Remember, CapUnsaved, Dropped, Mark, Finished, Saves;
  }

  // ---- Only the player's own ------------------------------------------------------------

  predicate Own(attempts: seq<Attempt>) { forall a :: a in attempts ==> !a.replay }

  predicate OwnOnly(r: Record) { Own(r.ended) && Own(r.c.tap.unsaved) && Own(r.table) }

  lemma FinishedIsOwn(c: Ctl, e: Event)
    ensures Own(Finished(c, e))
  {
    hide Tally;
  }

  lemma StepOwnOnly(env: Env, r: Record, t: SaveTurn)
    requires OwnOnly(r)
    ensures OwnOnly(Step(env, r, t))
    ensures forall batch :: batch in Saves(Apply(env, r.c, t.shared, t.event, t.now).actions) ==> Own(batch)
  {
    hide Apply, Remember, Finished, Saves, Mark;
    var before := Remember(r.c.(state := t.shared));
    FinishedIsOwn(before, t.event);
    ApplyQueues(env, r.c, t);
  }

  /** What an event hands over to be saved, over a whole run. */
  function HandedOver(env: Env, r: Record, turns: seq<SaveTurn>): seq<seq<Attempt>>
    decreases |turns|
  {
    if turns == [] then []
    else
      var n := |turns| - 1;
      var t := turns[n];
      HandedOver(env, r, turns[..n]) + Saves(Apply(env, Run(env, r, turns[..n]).c, t.shared, t.event, t.now).actions)
  }

  /** No replay is ever kept as the player's own: in every run none is queued, handed over
      to be saved, or in the table. */
  lemma {:induction false} NoReplayIsKept(env: Env, r: Record, turns: seq<SaveTurn>)
    requires OwnOnly(r)
    ensures OwnOnly(Run(env, r, turns))
    ensures forall batch :: batch in HandedOver(env, r, turns) ==> Own(batch)
    decreases |turns|
  {
    hide Step, OwnOnly, Own, Saves, Apply;
    if turns != [] {
      var n := |turns| - 1;
      NoReplayIsKept(env, r, turns[..n]);
      StepOwnOnly(env, Run(env, r, turns[..n]), turns[n]);
    }
  }
}
