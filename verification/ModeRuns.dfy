/** What every run of the runtime keeps in step with its mode: the deadlines, the
    attempt, the storage guard and the sync that ends SYNC. */
module ModeRuns {
  import opened Options
  import opened Counters
  import opened TapRate
  import opened Daemon
  import opened Telemetry
  import opened Runtime

  /** Between two events anyone holding the shared state may change anything in
      it but the mode, and may only take the pad's connection away. */
  predicate OutsideWrite(before: DaemonState, after: DaemonState) {
    after.mode == before.mode && (after.deviceConnected ==> before.deviceConnected)
  }

  predicate Coherent(c: Ctl) {
    && (c.clock.cooldownDeadline.Some? <==> c.state.mode == Cooldown)
    && (c.show.lastLiveMs.Some? <==> c.state.mode == Playing)
    && (c.clock.backupAfterSync <==> c.state.mode == Sync)
    && (c.clock.backupDeadline.Some? ==> c.state.mode == Idle)
    && (c.tap.attempt.Some? ==> c.state.mode == Playing)
  }

  // ---- Actions that matter here ---------------------------------------------------

  predicate Guards(a: Action) { a.SetStorageWritesAllowed? }

  predicate NoGuards(actions: seq<Action>) { forall a :: a in actions ==> !Guards(a) }

  /** The storage guard after a list of actions. */
  function GuardAfter(guard: bool, actions: seq<Action>): bool {
    if actions == [] then guard
    else
      var last := actions[|actions| - 1];
      if Guards(last) then last.allowed else GuardAfter(guard, actions[..|actions| - 1])
  }

  /** The guard is set once, first, to `v`. */
  predicate Sets(actions: seq<Action>, v: bool) {
    actions != [] && actions[0] == SetStorageWritesAllowed(v) && NoGuards(actions[1..])
  }

  lemma {:induction false} GuardKept(guard: bool, actions: seq<Action>)
    requires NoGuards(actions)
    ensures GuardAfter(guard, actions) == guard
    decreases |actions|
  {
    if actions != [] {
      assert actions[|actions| - 1] in actions;
      GuardKept(guard, actions[..|actions| - 1]);
    }
  }

  lemma {:induction false} GuardSet(guard: bool, actions: seq<Action>, v: bool)
    requires Sets(actions, v)
    ensures GuardAfter(guard, actions) == v
    decreases |actions|
  {
    if |actions| > 1 {
      var n := |actions| - 1;
      assert actions[n] in actions[1..];
      assert forall a :: a in actions[..n][1..] ==> a in actions[1..];
      GuardSet(guard, actions[..n], v);
    }
  }

  lemma NoGuardsAppend(a: seq<Action>, b: seq<Action>)
    requires NoGuards(a) && NoGuards(b)
    ensures NoGuards(a + b)
  {}

  lemma SetsAppend(a: seq<Action>, b: seq<Action>, v: bool)
    requires Sets(a, v) && NoGuards(b)
    ensures Sets(a + b, v)
  {
    assert (a + b)[1..] == a[1..] + b;
  }

  function Triggers(actions: seq<Action>): nat
    decreases |actions|
  {
    if actions == [] then 0
    else Triggers(actions[..|actions| - 1]) + (if actions[|actions| - 1] == TriggerSync then 1 else 0)
  }

  lemma {:induction false} TriggersKept(a: seq<Action>, b: seq<Action>)
    requires TriggerSync !in b
    ensures Triggers(a + b) == Triggers(a)
    decreases |b|
  {
    if b == [] {
      assert a + b == a;
    } else {
      var n := |b| - 1;
      assert (a + b)[..|a| + n] == a + b[..n];
      TriggersKept(a, b[..n]);
    }
  }

  lemma {:induction false} TriggersIn(actions: seq<Action>)
    ensures TriggerSync in actions <==> Triggers(actions) > 0
    decreases |actions|
  {
    if actions != [] {
      var n := |actions| - 1;
      TriggersIn(actions[..n]);
      assert actions == actions[..n] + [actions[n]];
    }
  }

  // ---- One event --------------------------------------------------------------------

  predicate WritesAllowedIn(mode: Mode) { mode == Idle || mode == Sync }

  /** The guard actions that take one mode to another. */
  predicate Moves(from: Mode, to: Mode, actions: seq<Action>) {
    Sets(actions, WritesAllowedIn(to)) || (NoGuards(actions) && WritesAllowedIn(to) == WritesAllowedIn(from))
  }

  lemma MovesAppend(from: Mode, to: Mode, a: seq<Action>, b: seq<Action>)
    requires Moves(from, to, a) && NoGuards(b)
    ensures Moves(from, to, a + b)
  {
    if Sets(a, WritesAllowedIn(to)) { SetsAppend(a, b, WritesAllowedIn(to)); } else { NoGuardsAppend(a, b); }
  }

  /** What one event does to the mode: how the guard is set, and that a sync is
      triggered in IDLE or, exactly once, on the way into SYNC. */
  ghost predicate ModeStep(c: Ctl, o: Out) {
    && Coherent(o.c)
    && Moves(c.state.mode, o.c.state.mode, o.actions)
    && (o.c.state.mode == Sync && c.state.mode != Sync ==> Triggers(o.actions) == 1)
    && (TriggerSync in o.actions ==> o.c.state.mode == Idle || (o.c.state.mode == Sync && c.state.mode != Sync))
  }

  lemma AnnounceGuard(c: Ctl, now: int)
    ensures NoGuards(Announce(c, now).actions) && TriggerSync !in Announce(c, now).actions
  {}

  lemma EnterMoves(c: Ctl)
    ensures var o := EnterPlay(c);
            && o.c.state.mode == Playing && Moves(c.state.mode, Playing, o.actions) && TriggerSync !in o.actions
  {}

  lemma AttemptedKeepsMode(env: Env, c: Ctl, f: Frame, now: int)
    ensures Attempted(env, c, f, now).state.mode == c.state.mode
  {
    hide AttemptFrame;
  }

  lemma AnnounceKeepsMode(c: Ctl, now: int)
    ensures Announce(c, now).c.state == c.state
  {}

  lemma PlayingStep(env: Env, c: Ctl, f: Frame, now: int)
    requires Coherent(c)
    ensures var o := PlayingFrame(env, c, f, now);
            o.c.state.mode == Playing && Moves(c.state.mode, Playing, o.actions) && TriggerSync !in o.actions
  {
    hide Attempted, Announce, EnterPlay, Moves;
    var b := Attempted(env, c, f, now);
    var p := EnterPlay(b);
    var starts := NewAttempt(c, f);
    AttemptedKeepsMode(env, c, f, now);
    EnterMoves(b);
    AnnounceKeepsMode(p.c, now);
    if starts && p.c.state.deviceConnected {
      AnnounceGuard(p.c, now);
      MovesAppend(c.state.mode, Playing, p.actions, Announce(p.c, now).actions);
    }
  }

  lemma EndStep(env: Env, c: Ctl, now: int)
    requires Coherent(c) && c.state.mode == Playing
    ensures var o := EndPlay(env, c, now);
            && Coherent(o.c) && o.c.state.mode == Cooldown
            && Moves(Playing, Cooldown, o.actions) && TriggerSync !in o.actions
  {}

  lemma TelemetryStep(env: Env, c: Ctl, f: Frame, now: int)
    requires Coherent(c)
    ensures ModeStep(c, OnTelemetry(env, c, f, now))
  {
    hide AttemptFrame, FinishAttempt, Announce;
    var i := TakenIn(c, f);
    if f.isPlaying { PlayingStep(env, i, f, now); }
    else if c.state.mode == Playing { EndStep(env, i, now); }
    var p := FrameFirst(env, c, f, now);
    MovesAppend(c.state.mode, p.c.state.mode, p.actions, ResultsAnimation(env, p.c, f));
    TelemetryCoherent(env, c, f, now);
  }

  lemma TelemetryCoherent(env: Env, c: Ctl, f: Frame, now: int)
    requires Coherent(c)
    ensures Coherent(OnTelemetry(env, c, f, now).c)
  {}

  // ---- The tick ---------------------------------------------------------------------

  /** The tick's first part moves the mode; the rest only reads it. */
  lemma CooldownStep(c: Ctl, at: int)
    requires Coherent(c)
    ensures var o := TickCooldown(c, at);
            ModeStep(c, o) && o.c.state.mode in {c.state.mode, Idle, Sync}
  {}

  predicate Quiet(c: Ctl, o: Out) {
    && o.c.state.mode == c.state.mode && NoGuards(o.actions) && (Coherent(c) ==> Coherent(o.c))
    && (c.state.mode != Idle ==> TriggerSync !in o.actions)
  }

  lemma StatusQuiet(c: Ctl, at: int)
    ensures Quiet(c, TickStatus(c, at))
  {}

  lemma DataQuiet(env: Env, c: Ctl, at: int)
    ensures Quiet(c, TickData(env, c, at))
  {}

  lemma PeriodicQuiet(c: Ctl, at: int)
    ensures Quiet(c, TickPeriodic(c, at))
  {}

  lemma StatsQuiet(c: Ctl, at: int)
    ensures Quiet(c, TickTapStats(c, at))
  {}

  lemma BackupQuiet(c: Ctl, at: int)
    ensures Quiet(c, TickBackup(c, at))
  {}

  lemma TickStep(env: Env, c: Ctl, at: int)
    requires Coherent(c)
    ensures ModeStep(c, OnTick(env, c, at))
  {
    hide TickCooldown, TickStatus, TickData, TickPeriodic, TickTapStats, TickBackup, Coherent;
    var cool := TickCooldown(c, at);
    var status := TickStatus(cool.c, at);
    var data := TickData(env, status.c, at);
    var periodic := TickPeriodic(data.c, at);
    var stats := TickTapStats(periodic.c, at);
    var backup := TickBackup(stats.c, at);
    CooldownStep(c, at);
    StatusQuiet(cool.c, at);
    DataQuiet(env, status.c, at);
    PeriodicQuiet(data.c, at);
    StatsQuiet(periodic.c, at);
    BackupQuiet(stats.c, at);
    var to := cool.c.state.mode;
    var rest := status.actions + data.actions + periodic.actions + stats.actions + backup.actions;
    assert cool.actions + status.actions + data.actions + periodic.actions + stats.actions + backup.actions
        == cool.actions + rest;
    if to != Idle { TriggersKept(cool.actions, rest); }
    MovesAppend(c.state.mode, to, cool.actions, status.actions);
    MovesAppend(c.state.mode, to, cool.actions + status.actions, data.actions);
    MovesAppend(c.state.mode, to, cool.actions + status.actions + data.actions, periodic.actions);
    MovesAppend(c.state.mode, to, cool.actions + status.actions + data.actions + periodic.actions, stats.actions);
    MovesAppend(c.state.mode, to, cool.actions + status.actions + data.actions + periodic.actions + stats.actions,
                backup.actions);
  }

  // ---- The pad connects, tosu goes, the rest ------------------------------------------

  lemma AdoptQuiet(env: Env, c: Ctl, config: Option<DeviceConfig>)
    ensures Quiet(c, AdoptConfig(env, c, config))
  {}

  lemma JudgeQuiet(c: Ctl, info: DeviceInfo)
    ensures Quiet(c, JudgeOwner(c, info))
  {}

  lemma RegisterQuiet(env: Env, c: Ctl, info: DeviceInfo)
    ensures Quiet(c, Register(env, c, info))
  {}

  lemma GreetQuiet(c: Ctl, sendConfig: bool, now: int)
    ensures Quiet(c, Greet(c, sendConfig, now))
  {
    assert forall a :: a in Layouts(c.state.customLayouts) ==> a.SendLayout?;
  }

  lemma ConnectedQuiet(env: Env, c: Ctl, info: DeviceInfo, config: Option<DeviceConfig>, now: int)
    ensures Quiet(c, OnConnected(env, c, info, config, now))
  {
    hide AdoptConfig, JudgeOwner, Register, Greet, NvsWiped;
    if info.protocolVersion == DEVICE_PROTOCOL_VERSION {
      var s := StagesOf(env, c, info, config, now);
      AdoptQuiet(env, s.accepted, config);
      JudgeQuiet(s.identified, info);
      RegisterQuiet(env, s.judged.c, info);
      GreetQuiet(s.registered.c, config.None? || s.wiped, now);
    }
  }

  lemma {:induction false} LogBatchQuiet(c: Ctl, ids: seq<nat>)
    ensures Quiet(c, OnLogBatch(c, ids))
    decreases |ids|
  {
    if ids != [] { LogBatchQuiet(c, ids[..|ids| - 1]); }
  }

  lemma TosuConnectionStep(env: Env, c: Ctl, connected: bool, now: int)
    requires Coherent(c)
    ensures ModeStep(c, OnTosuConnection(env, c, connected, now))
  {
    TosuGoneCoherent(env, c, connected, now);
  }

  lemma TosuGoneCoherent(env: Env, c: Ctl, connected: bool, now: int)
    requires Coherent(c)
    ensures Coherent(OnTosuConnection(env, c, connected, now).c)
  {}

  lemma KeysQuiet(env: Env, p: Play, playing: bool, padTimes: bool, k1: nat, k2: nat, at: int)
    ensures OnTosuKeys(env, p, playing, padTimes, k1, k2, at).tap.attempt.Some? <==> p.tap.attempt.Some?
  {}

  lemma PadQuiet(env: Env, p: Play, playing: bool, nowUs: nat, presses: seq<(nat, nat)>, received: int)
    ensures OnPadPresses(env, p, playing, nowUs, presses, received).tap.attempt.Some? <==> p.tap.attempt.Some?
  {}

  lemma SyncStep(c: Ctl, e: Event, now: int)
    requires Coherent(c) && e.SyncCompleted?
    ensures ModeStep(c, OnSyncCompleted(c, e, now)) && OnSyncCompleted(c, e, now).c.state.mode != Sync
  {}

  lemma StatusReportQuiet(c: Ctl, latency: Latency, calibration: Option<HeCalibration>)
    ensures Quiet(c, OnStatus(c, latency, calibration))
  {}

  lemma ProgressQuiet(c: Ctl, progress: HeProgress)
    ensures Quiet(c, OnHeProgress(c, progress))
  {}

  lemma OsuActiveQuiet(c: Ctl, active: bool, now: int)
    ensures Quiet(c, OnOsuActive(c, active, now))
  {}

  lemma QuietIsStep(c: Ctl, o: Out)
    requires Coherent(c) && Quiet(c, o)
    ensures ModeStep(c, o)
  {}

  /** The events that leave the mode alone. */
  lemma OtherEventsQuiet(env: Env, c: Ctl, e: Event, now: int)
    requires !e.TosuTelemetry? && !e.TosuConnectionChanged? && !e.Tick? && !e.SyncCompleted?
    ensures Quiet(c, OnEvent(env, c, e, now))
  {
    hide OnConnected, OnLogBatch, OnTosuKeys, OnPadPresses, OnStatus, OnHeProgress, OnOsuActive;
    match e
    case DeviceStatus(latency, calibration) => StatusReportQuiet(c, latency, calibration);
    case DeviceHeProgress(progress) => ProgressQuiet(c, progress);
    case OsuActiveChanged(active) => OsuActiveQuiet(c, active, now);
    case DeviceConnected(info, config) => ConnectedQuiet(env, c, info, config, now);
    case DeviceLogBatch(ids) => LogBatchQuiet(c, ids);
    case TosuKeys(k1, k2, at) =>
      KeysQuiet(env, PlayOf(c), c.state.mode == Playing, PadTimesPresses(c), k1, k2, at);
    case PadPresses(nowUs, presses, received) =>
      PadQuiet(env, PlayOf(c), c.state.mode == Playing, nowUs, presses, received);
    case _ =>
  }

  lemma EventStep(env: Env, c: Ctl, e: Event, now: int)
    requires Coherent(c)
    ensures ModeStep(c, OnEvent(env, c, e, now))
    ensures e.SyncCompleted? ==> OnEvent(env, c, e, now).c.state.mode != Sync
  {
    hide OnConnected, OnLogBatch, OnTelemetry, OnTosuConnection, OnTick, OnSyncCompleted, OnTosuKeys, OnPadPresses,
      ModeStep, Quiet;
    match e
    case TosuTelemetry(f) => TelemetryStep(env, c, f, now);
    case TosuConnectionChanged(connected) => TosuConnectionStep(env, c, connected, now);
    case Tick(at) => TickStep(env, c, at);
    case SyncCompleted(_, _, _, _) => SyncStep(c, e, now);
    case _ =>
      OtherEventsQuiet(env, c, e, now);
      QuietIsStep(c, OnEvent(env, c, e, now));
  }

  // ---- Runs ------------------------------------------------------------------------------

  /** One turn of the loop: the shared state as others left it, the event, and
      which unanswered sync a completion answers. */
  datatype SyncTurn = SyncTurn(shared: DaemonState, event: Event, now: int, answers: nat)

  /** The controller beside what the loop did with its actions: how the storage
      guard stands, which triggered syncs are unanswered, the one SYNC was
      entered with, and those already unanswered then. */
  datatype World = World(c: Ctl, guard: bool, unanswered: set<nat>, next: nat, own: nat, older: set<nat>)

  predicate Legal(w: World, t: SyncTurn) {
    OutsideWrite(w.c.state, t.shared) && (t.event.SyncCompleted? ==> t.answers in w.unanswered)
  }

  function Ids(from: nat, count: nat): (ids: set<nat>)
    ensures forall i :: i in ids <==> from <= i < from + count
  {
    if count == 0 then {} else Ids(from, count - 1) + {from + count - 1}
  }

  function Step(env: Env, w: World, t: SyncTurn): World {
    var o := Apply(env, w.c, t.shared, t.event, t.now);
    var left := if t.event.SyncCompleted? then w.unanswered - {t.answers} else w.unanswered;
    var k := Triggers(o.actions);
    var enters := o.c.state.mode == Sync && w.c.state.mode != Sync;
    World(o.c, GuardAfter(w.guard, o.actions), left + Ids(w.next, k), w.next + k,
          if enters then w.next else w.own, if enters then left else w.older)
  }

  function Run(env: Env, w: World, turns: seq<SyncTurn>): World
    decreases |turns|
  {
    if turns == [] then w else Step(env, Run(env, w, turns[..|turns| - 1]), turns[|turns| - 1])
  }

  ghost predicate LegalRun(env: Env, w: World, turns: seq<SyncTurn>)
    decreases |turns|
  {
    turns == []
    || (LegalRun(env, w, turns[..|turns| - 1]) && Legal(Run(env, w, turns[..|turns| - 1]), turns[|turns| - 1]))
  }

  ghost predicate Inv(w: World) {
    && Coherent(w.c)
    && w.guard == WritesAllowedIn(w.c.state.mode)
    && (forall i :: i in w.unanswered ==> i < w.next)
    && (w.c.state.mode == Sync ==> w.unanswered == w.older + {w.own} && w.own !in w.older)
  }

  lemma NoTriggers(actions: seq<Action>)
    requires TriggerSync !in actions
    ensures Triggers(actions) == 0
  {
    TriggersIn(actions);
  }

  /** An event seen through the shared state: what others wrote and what the
      controller settles afterwards do not touch its mode fields. */
  lemma ApplyStep(env: Env, w: World, t: SyncTurn)
    requires Coherent(w.c) && OutsideWrite(w.c.state, t.shared)
    ensures ModeStep(w.c, Apply(env, w.c, t.shared, t.event, t.now))
    ensures t.event.SyncCompleted? ==> Apply(env, w.c, t.shared, t.event, t.now).c.state.mode != Sync
  {
    hide OnEvent;
    EventStep(env, Remember(w.c.(state := t.shared)), t.event, t.now);
  }

  lemma StepKeepsInv(env: Env, w: World, t: SyncTurn)
    requires Inv(w) && Legal(w, t)
    ensures Inv(Step(env, w, t))
  {
    hide Apply, Coherent;
    var o := Apply(env, w.c, t.shared, t.event, t.now);
    ApplyStep(env, w, t);
    if Sets(o.actions, WritesAllowedIn(o.c.state.mode)) {
      GuardSet(w.guard, o.actions, WritesAllowedIn(o.c.state.mode));
    } else {
      GuardKept(w.guard, o.actions);
    }
    if w.c.state.mode == Sync && o.c.state.mode == Sync { NoTriggers(o.actions); }
  }

  /** Mode coherence over all runs: the cooldown deadline is set exactly in
      COOLDOWN, the song position exactly in PLAYING, the arming flag exactly in
      SYNC, a backup deadline only in IDLE, an attempt only in PLAYING, storage
      writes are allowed exactly in IDLE and SYNC, and in SYNC a triggered sync is
      unanswered. */
  lemma {:induction false} RunsAreCoherent(env: Env, w: World, turns: seq<SyncTurn>)
    requires Inv(w) && LegalRun(env, w, turns)
    ensures var r := Run(env, w, turns);
            && Coherent(r.c) && r.guard == WritesAllowedIn(r.c.state.mode)
            && (r.c.state.mode == Sync ==> r.own in r.unanswered)
    ensures Inv(Run(env, w, turns))
    decreases |turns|
  {
    if turns != [] {
      RunsAreCoherent(env, w, turns[..|turns| - 1]);
      StepKeepsInv(env, Run(env, w, turns[..|turns| - 1]), turns[|turns| - 1]);
    }
  }

  /** So SYNC cannot get stuck: whatever sync answers next, it ends. */
  lemma AnyAnswerEndsSync(env: Env, w: World, t: SyncTurn)
    requires Inv(w) && Legal(w, t) && w.c.state.mode == Sync && t.event.SyncCompleted?
    ensures Step(env, w, t).c.state.mode == Idle
    ensures Step(env, w, t).c.clock.backupDeadline == Some(t.now + AUTO_BACKUP_DELAY)
  {}

  /** The sync that ends SYNC is the one it was entered with, whatever comes, exactly when
      no earlier sync was still running then. Otherwise some completion ends SYNC, and
      arms the backup, while the post-play sync is still unanswered. */
  lemma EndsWithItsOwnExactly(env: Env, w: World)
    requires Inv(w) && w.c.state.mode == Sync
    ensures w.older == {} <==>
              forall t: SyncTurn :: Legal(w, t) && t.event.SyncCompleted? ==> w.own !in Step(env, w, t).unanswered
  {
    hide Apply, Coherent;
    forall t: SyncTurn | Legal(w, t) && t.event.SyncCompleted?
      ensures w.own in Step(env, w, t).unanswered <==> t.answers != w.own
    {
      StepKeepsInv(env, w, t);
    }
    if w.older != {} {
      var a :| a in w.older;
      var t := SyncTurn(w.c.state, SyncCompleted(false, w.c.state.counters, None, None), 0, a);
      assert Legal(w, t) && w.own in Step(env, w, t).unanswered;
    }
  }

  /** The way into SYNC: a tick past the deadline, with whatever was unanswered. */
  lemma CooldownLeadsToSync(env: Env, w: World, t: SyncTurn)
    requires Inv(w) && Legal(w, t) && w.c.state.mode == Cooldown && t.shared.MayTouchPad()
    requires w.c.clock.cooldownDeadline.Some? && t.event.Tick? && t.event.at >= w.c.clock.cooldownDeadline.value
    ensures Step(env, w, t).c.state.mode == Sync && Step(env, w, t).older == w.unanswered
  {
    hide OnTick, Coherent;
    var c := Remember(w.c.(state := t.shared));
    assert TickCooldown(c, t.event.at).c.state.mode == Sync;
    TickStepMode(env, c, t.event.at);
  }

  lemma TickStepMode(env: Env, c: Ctl, at: int)
    ensures OnTick(env, c, at).c.state.mode == TickCooldown(c, at).c.state.mode
  {
    hide TickCooldown, TickStatus, TickData, TickPeriodic, TickTapStats, TickBackup, Coherent;
    var cool := TickCooldown(c, at);
    var status := TickStatus(cool.c, at);
    var data := TickData(env, status.c, at);
    var periodic := TickPeriodic(data.c, at);
    StatusQuiet(cool.c, at);
    DataQuiet(env, status.c, at);
    PeriodicQuiet(data.c, at);
    StatsQuiet(periodic.c, at);
    BackupQuiet(TickTapStats(periodic.c, at).c, at);
  }
}
