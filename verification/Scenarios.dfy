/** Runs from the daemon's start that reach the cases the invariants leave open: what is
    said not to hold elsewhere does happen. */
module Scenarios {
  import opened Options
  import opened Counters
  import opened TapRate
  import opened Daemon
  import opened Telemetry
  import opened Runtime
  import opened PadData
  import opened Connecting
  import DataSteps
  import ForeignPads
  import ModeRuns
  import Replication
  import Startup

  // ---- A sync that outlives a short play ------------------------------------------------

  /** A frame leaves who may write to the pad as it was. */
  lemma FrameKeepsGuard(env: Env, c: Ctl, f: Frame, now: int)
    ensures OnTelemetry(env, c, f, now).c.state.PadGuard() == c.state.PadGuard()
  {
    hide PlayingFrame, EndPlay, ResultsAnimation, ArmResults;
    var i := TakenIn(c, f);
    PlayingKeepsGuard(env, i, f, now);
    EndKeepsGuard(env, i, now);
  }

  lemma PlayingKeepsGuard(env: Env, c: Ctl, f: Frame, now: int)
    ensures PlayingFrame(env, c, f, now).c.state.PadGuard() == c.state.PadGuard()
    ensures PlayingFrame(env, c, f, now).c.state.mode == Playing
  {
    hide AttemptFrame, Changes, Flushed;
  }

  lemma EndKeepsGuard(env: Env, c: Ctl, now: int)
    ensures var o := EndPlay(env, c, now).c;
            && o.state.PadGuard() == c.state.PadGuard()
            && o.state.mode == Cooldown && o.clock.cooldownDeadline == Some(now + COOLDOWN_DURATION)
  {
    hide FinishAttempt;
  }

  lemma FrameMoves(env: Env, c: Ctl, f: Frame, now: int)
    ensures var o := OnTelemetry(env, c, f, now).c;
            && (f.isPlaying ==> o.state.mode == Playing)
            && (!f.isPlaying && c.state.mode == Playing ==>
                  o.state.mode == Cooldown && o.clock.cooldownDeadline == Some(now + COOLDOWN_DURATION))
  {
    hide PlayingFrame, EndPlay, ResultsAnimation, ArmResults;
    var i := TakenIn(c, f);
    PlayingKeepsGuard(env, i, f, now);
    EndKeepsGuard(env, i, now);
  }

  /** A pad known here connects to an idle daemon that holds nothing against it. */
  lemma KnownPadSyncs(env: Env, c: Ctl, info: DeviceInfo, config: Option<DeviceConfig>, now: int)
    requires info.protocolVersion == DEVICE_PROTOCOL_VERSION && !ForeignPads.JudgedSomeone(c)
    requires c.state.mode == Idle && c.state.storageError.None? && c.state.pendingReplacement.None?
    requires info.deviceId in c.pairing.known
    ensures var o := OnConnected(env, c, info, config, now);
            TriggerSync in o.actions && o.c.state.mode == Idle && o.c.state.MayTouchPad()
  {
    hide AdoptConfig, JudgeOwner, Register, Greeting, NvsWiped;
    OwnPadIsGivenOurs(env, c, info, config, now, TriggerSync);
    var s := StagesOf(env, c, info, config, now);
    AdoptKeepsGuard(env, s.accepted, config);
    JudgeKeepsRest(s.identified, info);
    Registers(env, s.judged.c, info);
  }

  lemma AdoptKeepsGuard(env: Env, c: Ctl, config: Option<DeviceConfig>)
    ensures var o := AdoptConfig(env, c, config).c;
            && o.state.mode == c.state.mode && o.state.storageError == c.state.storageError
            && o.state.pendingReplacement == c.state.pendingReplacement && o.pairing == c.pairing
  {
    hide Adopted;
  }

  lemma JudgeKeepsRest(c: Ctl, info: DeviceInfo)
    ensures var o := JudgeOwner(c, info).c;
            && o.state.mode == c.state.mode && o.state.storageError == c.state.storageError
            && o.state.pendingReplacement == c.state.pendingReplacement && o.pairing.known == c.pairing.known
  {
    hide OwnershipOf;
  }

  function Undisturbed(w: ModeRuns.World, e: Event, now: int, answers: nat): ModeRuns.SyncTurn {
    ModeRuns.SyncTurn(w.c.state, e, now, answers)
  }

  /** A known pad connects, a play begins and ends within the time its sync takes, and the
      cooldown runs out: SYNC is entered with sync 0 still running, and sync 0's answer
      ends it and arms the backup while the play's own sync is unanswered. */
  lemma OlderSyncEndsSync(env: Env, s: DaemonState, existing: set<string>, playId: nat, info: DeviceInfo,
                          config: Option<DeviceConfig>, playing: Frame, ended: Frame, done: Event, now: int, later: int)
    returns (turns: seq<ModeRuns.SyncTurn>)
    requires Startup.FreshState(s) && s.storageError.None? && s.pendingReplacement.None?
    requires info.protocolVersion == DEVICE_PROTOCOL_VERSION && info.deviceId in existing
    requires playing.isPlaying && !ended.isPlaying && done.SyncCompleted? && later >= now + COOLDOWN_DURATION
    ensures var start := ModeRuns.World(StartOf(s, existing, playId, now), true, {}, 0, 0, {});
            var w := ModeRuns.Run(env, start, turns);
            && ModeRuns.LegalRun(env, start, turns) && |turns| == 5 && turns[4].event == done && turns[4].answers == 0
            && w.c.state.mode == Idle && w.c.clock.backupDeadline == Some(later + AUTO_BACKUP_DELAY)
            && w.own in w.unanswered && w.own != 0
  {
    hide OnEvent, ModeRuns.Step;
    var w0 := ModeRuns.World(StartOf(s, existing, playId, now), true, {}, 0, 0, {});
    var t0 := Undisturbed(w0, DeviceConnected(info, config), now, 0);
    var w1 := ModeRuns.Step(env, w0, t0);
    Connects(env, w0, t0);
    var t1 := Undisturbed(w1, TosuTelemetry(playing), now, 0);
    var w2 := ModeRuns.Step(env, w1, t1);
    Plays(env, w1, t1);
    var t2 := Undisturbed(w2, TosuTelemetry(ended), now, 0);
    var w3 := ModeRuns.Step(env, w2, t2);
    Ends(env, w2, t2);
    var t3 := Undisturbed(w3, Tick(later), later, 0);
    var w4 := ModeRuns.Step(env, w3, t3);
    Cools(env, w3, t3);
    var t4 := Undisturbed(w4, done, later, 0);
    Settles(env, w4, t4);
    turns := [];
    OneMore(env, w0, turns, t0);
    OneMore(env, w0, turns + [t0], t1);
    OneMore(env, w0, turns + [t0] + [t1], t2);
    OneMore(env, w0, turns + [t0] + [t1] + [t2], t3);
    OneMore(env, w0, turns + [t0] + [t1] + [t2] + [t3], t4);
    turns := turns + [t0] + [t1] + [t2] + [t3] + [t4];
  }

  /** Sync 0 was triggered and is still running. */
  ghost predicate Running(w: ModeRuns.World, mode: Mode) {
    ModeRuns.Inv(w) && w.c.state.mode == mode && w.c.state.MayTouchPad() && 0 in w.unanswered
  }

  lemma Connects(env: Env, w: ModeRuns.World, t: ModeRuns.SyncTurn)
    requires ModeRuns.Inv(w) && w.next == 0 && t.shared == w.c.state && t.event.DeviceConnected?
    requires t.event.info.protocolVersion == DEVICE_PROTOCOL_VERSION && t.event.info.deviceId in w.c.pairing.known
    requires w.c.state.mode == Idle && w.c.state.storageError.None? && w.c.state.pendingReplacement.None?
    requires w.c.pairing.reportedOwner.None? && !w.c.pairing.replacementWasPending
    ensures Running(ModeRuns.Step(env, w, t), Idle)
  {
    hide OnConnected, ModeRuns.Inv, ModeRuns.GuardAfter;
    ModeRuns.StepKeepsInv(env, w, t);
    KnownPadSyncs(env, w.c, t.event.info, t.event.config, t.now);
    ModeRuns.TriggersIn(OnConnected(env, w.c, t.event.info, t.event.config, t.now).actions);
  }

  lemma Plays(env: Env, w: ModeRuns.World, t: ModeRuns.SyncTurn)
    requires Running(w, Idle) && t.shared == w.c.state && t.event.TosuTelemetry? && t.event.frame.isPlaying
    ensures Running(ModeRuns.Step(env, w, t), Playing)
  {
    hide OnTelemetry, ModeRuns.Inv, ModeRuns.GuardAfter;
    ModeRuns.StepKeepsInv(env, w, t);
    FrameKeepsGuard(env, Remember(w.c), t.event.frame, t.now);
    FrameMoves(env, Remember(w.c), t.event.frame, t.now);
  }

  lemma Ends(env: Env, w: ModeRuns.World, t: ModeRuns.SyncTurn)
    requires Running(w, Playing) && t.shared == w.c.state && t.event.TosuTelemetry? && !t.event.frame.isPlaying
    ensures var n := ModeRuns.Step(env, w, t);
            Running(n, Cooldown) && n.c.clock.cooldownDeadline == Some(t.now + COOLDOWN_DURATION)
  {
    hide OnTelemetry, ModeRuns.Inv, ModeRuns.GuardAfter;
    ModeRuns.StepKeepsInv(env, w, t);
    FrameKeepsGuard(env, Remember(w.c), t.event.frame, t.now);
    FrameMoves(env, Remember(w.c), t.event.frame, t.now);
  }

  lemma Cools(env: Env, w: ModeRuns.World, t: ModeRuns.SyncTurn)
    requires Running(w, Cooldown) && t.shared == w.c.state && w.c.clock.cooldownDeadline.Some?
    requires t.event.Tick? && t.event.at >= w.c.clock.cooldownDeadline.value
    ensures var n := ModeRuns.Step(env, w, t);
            ModeRuns.Inv(n) && n.c.state.mode == Sync && 0 in n.older
  {
    hide ModeRuns.Step, ModeRuns.Inv;
    ModeRuns.StepKeepsInv(env, w, t);
    ModeRuns.CooldownLeadsToSync(env, w, t);
  }

  lemma Settles(env: Env, w: ModeRuns.World, t: ModeRuns.SyncTurn)
    requires ModeRuns.Inv(w) && w.c.state.mode == Sync && 0 in w.older
    requires t.shared == w.c.state && t.event.SyncCompleted? && t.answers == 0
    ensures var n := ModeRuns.Step(env, w, t);
            && n.c.state.mode == Idle && n.c.clock.backupDeadline == Some(t.now + AUTO_BACKUP_DELAY)
            && n.own in n.unanswered && n.own != 0
  {
    hide Apply;
    ModeRuns.AnyAnswerEndsSync(env, w, t);
  }

  /** A run and one more turn. */
  lemma OneMore(env: Env, w: ModeRuns.World, turns: seq<ModeRuns.SyncTurn>, t: ModeRuns.SyncTurn)
    ensures ModeRuns.Run(env, w, turns + [t]) == ModeRuns.Step(env, ModeRuns.Run(env, w, turns), t)
    ensures ModeRuns.LegalRun(env, w, turns + [t])
            <==> ModeRuns.LegalRun(env, w, turns) && ModeRuns.Legal(ModeRuns.Run(env, w, turns), t)
  {
    hide ModeRuns.Step, ModeRuns.Legal;
    assert (turns + [t])[..|turns|] == turns;
  }

  // ---- A value that comes while tosu is away -----------------------------------------------

  /** A pad of ours is connected and idle, tosu is marked away, and nothing asks for a
      repair. */
  predicate Waiting(w: Replication.World) {
    && w.c.state.deviceConnected && !w.c.state.foreignPad && !w.c.state.tosuConnected && w.c.state.mode != Playing
    && w.c.tap.attempt.None? && w.up && w.greets == 0 && !w.resend && !w.lost
  }

  function Next(w: Replication.World, e: Event, now: int): Replication.Step {
    Replication.Take(Turn(w.c.state, e, now))
  }

  lemma PadComes(env: Env, w: Replication.World, info: DeviceInfo, config: Option<DeviceConfig>, now: int)
    requires info.protocolVersion == DEVICE_PROTOCOL_VERSION && !ForeignPads.JudgedSomeone(w.c)
    requires w.up && w.greets == 1 && !w.resend && !w.lost
    requires !w.c.state.tosuConnected && w.c.state.mode == Idle && w.c.tap.attempt.None?
    ensures var s := Next(w, DeviceConnected(info, config), now);
            && Replication.Enabled(w, s)
            && var n := Replication.Next(env, w, s);
               Waiting(n) && n.c.data == NothingSent(w.c.data)
  {
    hide OnConnected, Replication.BrokenAfter;
    var c := Replication.Prepared(w, Turn(w.c.state, DeviceConnected(info, config), now));
    DataSteps.ConnectedData(env, c, info, config, now);
    OwnPadIsGivenOurs(env, c, info, config, now, TriggerSync);
    ModeRuns.ConnectedQuiet(env, c, info, config, now);
  }

  lemma FrameComes(env: Env, w: Replication.World, f: Frame, now: int)
    requires Waiting(w) && !f.isPlaying
    ensures var s := Next(w, TosuTelemetry(f), now);
            && Replication.Enabled(w, s)
            && var n := Replication.Next(env, w, s);
               && Waiting(n) && n.c.data == Ingested(w.c.data, f.values)
  {
    hide Replication.BrokenAfter, ResultsAnimation;
  }

  lemma {:induction false} HistoryLeavesTosus(env: Env, m: Values, u: Update, k: Source)
    requires Host(k) && forall p :: p in u ==> !Host(p.0)
    ensures k in Merge(m, u) <==> k in m
    ensures k in m ==> Merge(m, u)[k] == m[k]
    decreases |u|
  {
    if u != [] {
      assert u[0] in u;
      HistoryLeavesTosus(env, m[u[0].0 := u[0].1], u[1..], k);
    }
  }

  /** With no attempt, a tick brings in nothing but the history. */
  lemma TickLeavesTosus(env: Env, p: Play, at: int, k: Source)
    requires DataSteps.ShowsWell(env) && p.tap.attempt.None? && Host(k) && k in p.data.latest
    ensures var q := TickPlay(env, p, at);
            k in q.data.latest && q.data.latest[k] == p.data.latest[k] && q.tap.attempt.None?
  {
    HistoryLeavesTosus(env, p.data.latest, env.history(p.shown.history), k);
  }

  lemma TickComes(env: Env, w: Replication.World, at: int, k: Source)
    requires DataSteps.ShowsWell(env) && Replication.Inv(w) && Waiting(w) && Host(k) && k in w.c.data.latest
    ensures var s := Next(w, Tick(at), at);
            && Replication.Enabled(w, s)
            && var n := Replication.Next(env, w, s);
               && Waiting(n) && k in n.c.data.latest && n.c.data.latest[k] == w.c.data.latest[k]
               && (w.c.data.lastFlush.None? ==> n.c.data.sent == n.c.data.latest)
  {
    hide OnTick, TickPlay, Replication.BrokenAfter, Replication.Inv, DataSteps.Diffed, DataSteps.ShowsWell, Changes;
    var s := Next(w, Tick(at), at);
    var c := Replication.Prepared(w, s.turn);
    DataSteps.TickEventData(env, c, at);
    TickLeavesTosus(env, PlayOf(c), at, k);
    TickKeepsMode(env, c, at);
    if w.c.data.lastFlush.None? { Replication.TickMarksAll(env, w, s); }
  }

  lemma TickKeepsMode(env: Env, c: Ctl, at: int)
    requires c.state.mode != Playing
    ensures OnTick(env, c, at).c.state.mode != Playing
  {
    hide OnTick;
    ModeRuns.TickStepMode(env, c, at);
  }

  /** The heartbeat wipes it. */
  lemma HeartbeatWipes(env: Env, w: Replication.World, at: int, k: Source, v: Value)
    requires DataSteps.ShowsWell(env) && Replication.Inv(w) && Waiting(w) && Host(k) && v != Clear
    requires k in w.c.data.latest && w.c.data.latest[k] == v && w.c.data.sent == w.c.data.latest
    requires at - w.c.clock.lastHostStatus >= HOST_STATUS_INTERVAL
    ensures var n := Replication.Next(env, w, Next(w, Tick(at), at));
            && k in n.c.data.sent && n.c.data.sent[k] == v
            && Shown(AppliedAll(n.pad, n.Pipe()), k) == Clear
  {
    hide Replication.Inv, Replication.Next, TickPlay, AppliedAll;
    var t := Turn(w.c.state, Tick(at), at);
    var c := Replication.Prepared(w, t);
    TickLeavesTosus(env, PlayOf(c), at, k);
    Replication.OvertakenIsWiped(env, w, t, k);
  }

  /** Two ticks: the first flushes what is known of tosu's, the second's heartbeat has the
      pad clear it. When everything has arrived the pad shows nothing there, the cache
      believes it shows the value, and no repair is due. */
  lemma WipedInTwoTicks(env: Env, w: Replication.World, at: int, k: Source, v: Value)
    returns (steps: seq<Replication.Step>)
    requires DataSteps.ShowsWell(env) && Replication.Inv(w) && Waiting(w) && w.c.data.lastFlush.None?
    requires Host(k) && v != Clear && k in w.c.data.latest && w.c.data.latest[k] == v
    ensures Replication.Possible(env, w, steps) && TwoTicks(steps) && Lacks(Replication.Run(env, w, steps), k, v)
  {
    hide Replication.Next, Replication.Inv, AppliedAll, Waiting, Replication.Enabled;
    TickComes(env, w, at, k);
    var s0 := Next(w, Tick(at), at);
    var w1 := Replication.Next(env, w, s0);
    Replication.StepKeeps(env, w, s0);
    var later := w1.c.clock.lastHostStatus + HOST_STATUS_INTERVAL;
    TickComes(env, w1, later, k);
    HeartbeatWipes(env, w1, later, k, v);
    var s1 := Next(w1, Tick(later), later);
    var w2 := Replication.Next(env, w1, s1);
    var drain := DrainsQuietly(env, w2);
    Then(env, w1, s1, drain);
    Then(env, w, s0, [s1] + drain);
    steps := [s0] + ([s1] + drain);
    forall i | 2 <= i < |steps| ensures Replication.IsDrain(steps[i]) { assert steps[i] == drain[i - 2]; }
  }

  predicate TwoTicks(steps: seq<Replication.Step>) {
    && |steps| >= 2 && steps[0].Take? && steps[0].turn.event.Tick? && steps[1].Take? && steps[1].turn.event.Tick?
    && forall i | 2 <= i < |steps| :: Replication.IsDrain(steps[i])
  }

  /** The pad shows nothing where the cache is sure it shows `v`. */
  predicate Lacks(w: Replication.World, k: Source, v: Value) {
    && !Replication.RepairDue(w) && w.queue == [] && w.wire == []
    && k in w.c.data.sent && w.c.data.sent[k] == v && Shown(w.pad, k) == Clear
  }

  /** From the daemon's start: a pad of ours connects, a frame of tosu's comes while tosu is
      still marked away, and two ticks later its value is gone. */
  lemma LateValueIsWiped(env: Env, s: DaemonState, existing: set<string>, playId: nat, info: DeviceInfo,
                         config: Option<DeviceConfig>, f: Frame, shows: Values, k: Source, v: Value, now: int)
    returns (steps: seq<Replication.Step>)
    requires DataSteps.ShowsWell(env) && Startup.FreshState(s) && info.protocolVersion == DEVICE_PROTOCOL_VERSION
    requires !f.isPlaying && Host(k) && v != Clear && k in Merge(map[], f.values) && Merge(map[], f.values)[k] == v
    ensures var c := StartOf(s, existing, playId, now);
            var start := Replication.World(c, [], [], map[], false, false, false, 0, {});
            Replication.Possible(env, start, steps) && Lacks(Replication.Run(env, start, steps), k, v)
    ensures |steps| >= 3 && steps[0] == Replication.LinkBack(shows) && TwoTicks(steps[3..])
    ensures steps[1].Take? && steps[1].turn.event == DeviceConnected(info, config)
    ensures steps[2].Take? && steps[2].turn.event == TosuTelemetry(f)
  {
    hide Replication.Next, Replication.Inv, AppliedAll, Merge, Waiting, Replication.Enabled, Lacks, TwoTicks;
    var w0 := Replication.World(StartOf(s, existing, playId, now), [], [], map[], false, false, false, 0, {});
    Startup.RunsStartCoherent(s, existing, playId, now);
    var w1 := LinkComes(env, w0, shows);
    PadComes(env, w1, info, config, now);
    var s1 := Next(w1, DeviceConnected(info, config), now);
    var w2 := Replication.Next(env, w1, s1);
    Replication.StepKeeps(env, w1, s1);
    FrameComes(env, w2, f, now);
    var s2 := Next(w2, TosuTelemetry(f), now);
    var w3 := Replication.Next(env, w2, s2);
    Replication.StepKeeps(env, w2, s2);
    var ticks := WipedInTwoTicks(env, w3, now, k, v);
    Then(env, w2, s2, ticks);
    Then(env, w1, s1, [s2] + ticks);
    Then(env, w0, Replication.LinkBack(shows), [s1] + ([s2] + ticks));
    steps := [Replication.LinkBack(shows)] + ([s1] + ([s2] + ticks));
    assert steps[3..] == ticks;
  }

  lemma LinkComes(env: Env, w: Replication.World, shows: Values) returns (n: Replication.World)
    requires Replication.Inv(w) && !w.up && !w.resend && !w.lost && w.greets == 0
    ensures Replication.Enabled(w, Replication.LinkBack(shows))
    ensures n == Replication.Next(env, w, Replication.LinkBack(shows))
    ensures n == w.(pad := shows, up := true, greets := 1) && Replication.Inv(n)
  {
    n := Replication.Next(env, w, Replication.LinkBack(shows));
  }

  lemma DrainsQuietly(env: Env, w: Replication.World) returns (drain: seq<Replication.Step>)
    requires Waiting(w)
    ensures Replication.Drains(env, w, drain)
    ensures !Replication.RepairDue(Replication.Drained(w))
  {
    drain := Replication.PipeDrains(env, w);
  }

  lemma Then(env: Env, w: Replication.World, s: Replication.Step, rest: seq<Replication.Step>)
    requires Replication.Enabled(w, s) && Replication.Possible(env, Replication.Next(env, w, s), rest)
    ensures Replication.Possible(env, w, [s] + rest)
    ensures Replication.Run(env, w, [s] + rest) == Replication.Run(env, Replication.Next(env, w, s), rest)
  {
    hide Replication.Next, Replication.Enabled;
    assert ([s] + rest)[1..] == rest;
  }
}
