/** Automatic backups over whole runs: one per settled play session, written in
    IDLE, 20 s after the sync that settled it, with no play in between; and the
    storage writes that only IDLE may make. */
module Backups {
  import opened Options
  import opened Counters
  import opened TapRate
  import opened Daemon
  import opened Telemetry
  import opened Runtime
  import opened ModeRuns

  /** Storage writes the runtime itself holds back until IDLE. */
  predicate IdleOnly(a: Action) {
    a.WriteAutoBackup? || a.SaveTapStats? || a.SaveInitialDeviceState? || a.TouchDeviceLastSeen?
  }

  predicate NoIdleWrites(actions: seq<Action>) { forall a :: a in actions ==> !IdleOnly(a) }

  function Writes(actions: seq<Action>): nat
    decreases |actions|
  {
    if actions == [] then 0
    else Writes(actions[..|actions| - 1]) + (if actions[|actions| - 1] == WriteAutoBackup then 1 else 0)
  }

  lemma {:induction false} NoWrites(actions: seq<Action>)
    requires WriteAutoBackup !in actions
    ensures Writes(actions) == 0
    decreases |actions|
  {
    if actions != [] {
      assert actions[|actions| - 1] in actions;
      NoWrites(actions[..|actions| - 1]);
    }
  }

  /** No backup is armed, disarmed or written, and other writes only in IDLE. */
  predicate KeepsArms(c: Ctl, o: Out) {
    && o.c.state.mode == c.state.mode
    && o.c.clock.backupDeadline == c.clock.backupDeadline && o.c.clock.backupAfterSync == c.clock.backupAfterSync
    && WriteAutoBackup !in o.actions
    && (c.state.mode != Idle ==> NoIdleWrites(o.actions))
  }

  // ---- Connecting ------------------------------------------------------------------

  lemma AdoptKeeps(env: Env, c: Ctl, config: Option<DeviceConfig>)
    ensures KeepsArms(c, AdoptConfig(env, c, config))
  {}

  lemma JudgeKeeps(c: Ctl, info: DeviceInfo)
    ensures KeepsArms(c, JudgeOwner(c, info))
  {}

  lemma RegisterKeeps(env: Env, c: Ctl, info: DeviceInfo)
    ensures KeepsArms(c, Register(env, c, info))
  {}

  lemma GreetKeeps(c: Ctl, sendConfig: bool, now: int)
    ensures KeepsArms(c, Greet(c, sendConfig, now))
  {
    assert forall a :: a in Layouts(c.state.customLayouts) ==> a.SendLayout?;
  }

  lemma ConnectedKeeps(env: Env, c: Ctl, info: DeviceInfo, config: Option<DeviceConfig>, now: int)
    ensures KeepsArms(c, OnConnected(env, c, info, config, now))
  {
    hide AdoptConfig, JudgeOwner, Register, Greet, NvsWiped;
    if info.protocolVersion == DEVICE_PROTOCOL_VERSION {
      var s := StagesOf(env, c, info, config, now);
      AdoptKeeps(env, s.accepted, config);
      JudgeKeeps(s.identified, info);
      RegisterKeeps(env, s.judged.c, info);
      GreetKeeps(s.registered.c, config.None? || s.wiped, now);
    }
  }

  lemma {:induction false} LogBatchKeeps(c: Ctl, ids: seq<nat>)
    ensures KeepsArms(c, OnLogBatch(c, ids))
    decreases |ids|
  {
    if ids != [] { LogBatchKeeps(c, ids[..|ids| - 1]); }
  }

  // ---- One event -------------------------------------------------------------------

  /** What an event does to the arming. The deadline is set by the completion of a
      flagged sync and otherwise only kept, in IDLE; the flag is set on the way
      from COOLDOWN to SYNC and otherwise only kept; a write is a tick past the
      deadline, in IDLE, and clears it. */
  ghost predicate ArmStep(c: Ctl, e: Event, now: int, o: Out) {
    && Writes(o.actions) <= 1
    && (Writes(o.actions) == 1 ==>
          && e.Tick? && c.clock.backupDeadline.Some? && e.at >= c.clock.backupDeadline.value
          && o.c.clock.backupDeadline.None? && c.state.mode == Idle && o.c.state.mode == Idle)
    && (o.c.clock.backupDeadline.Some? ==>
          || (o.c.clock.backupDeadline == c.clock.backupDeadline && c.state.mode == Idle)
          || (e.SyncCompleted? && c.clock.backupAfterSync && !o.c.clock.backupAfterSync && c.state.mode == Sync
              && o.c.clock.backupDeadline == Some(now + AUTO_BACKUP_DELAY)))
    && (o.c.clock.backupAfterSync ==> c.clock.backupAfterSync || c.state.mode == Cooldown)
    && (o.c.state.mode != Idle ==> NoIdleWrites(o.actions))
  }

  lemma KeptIsStep(c: Ctl, e: Event, now: int, o: Out)
    requires Coherent(c) && KeepsArms(c, o)
    ensures ArmStep(c, e, now, o)
  {
    NoWrites(o.actions);
  }

  lemma TelemetryArms(env: Env, c: Ctl, f: Frame, now: int)
    requires Coherent(c)
    ensures ArmStep(c, TosuTelemetry(f), now, OnTelemetry(env, c, f, now))
  {
    hide AttemptFrame, FinishAttempt, Coherent;
    FrameArms(env, c, f, now);
    var p := FrameFirst(env, c, f, now);
    NoWrites(p.actions + ResultsAnimation(env, p.c, f));
  }

  lemma FrameArms(env: Env, c: Ctl, f: Frame, now: int)
    requires Coherent(c)
    ensures var p := FrameFirst(env, c, f, now);
            && NoIdleWrites(p.actions) && WriteAutoBackup !in p.actions
            && (p.c.clock.backupDeadline.Some? ==>
                  p.c.clock.backupDeadline == c.clock.backupDeadline && c.state.mode == Idle)
            && (p.c.clock.backupAfterSync ==> c.clock.backupAfterSync)
  {
    hide AttemptFrame, FinishAttempt;
  }

  lemma TosuConnectionArms(env: Env, c: Ctl, connected: bool, now: int)
    requires Coherent(c)
    ensures ArmStep(c, TosuConnectionChanged(connected), now, OnTosuConnection(env, c, connected, now))
  {
    hide TosuGone, OnTosuConnection, ArmStep;
    if connected {
      TosuBackKeeps(env, c, now);
      KeptIsStep(c, TosuConnectionChanged(true), now, OnTosuConnection(env, c, true, now));
    } else {
      TosuLostArms(env, c, now);
    }
  }

  lemma TosuBackKeeps(env: Env, c: Ctl, now: int)
    ensures KeepsArms(c, OnTosuConnection(env, c, true, now))
  {}

  lemma TosuLostArms(env: Env, c: Ctl, now: int)
    requires Coherent(c)
    ensures ArmStep(c, TosuConnectionChanged(false), now, OnTosuConnection(env, c, false, now))
  {
    hide TosuGone;
    TosuGoneArms(env, c.(state := c.state.(tosuConnected := false)), now);
    NoWrites(OnTosuConnection(env, c, false, now).actions);
  }

  lemma TosuGoneArms(env: Env, c: Ctl, now: int)
    requires Coherent(c)
    ensures var o := TosuGone(env, c, now);
            && NoIdleWrites(o.actions)
            && o.c.clock.backupDeadline == c.clock.backupDeadline
            && o.c.clock.backupAfterSync == c.clock.backupAfterSync
            && (c.state.mode != Playing ==> o.c.state.mode == c.state.mode)
  {
    hide TosuGonePlay;
  }

  lemma SyncArms(c: Ctl, e: Event, now: int)
    requires Coherent(c) && e.SyncCompleted?
    ensures ArmStep(c, e, now, OnSyncCompleted(c, e, now))
  {
    NoWrites(OnSyncCompleted(c, e, now).actions);
  }

  // ---- The tick --------------------------------------------------------------------

  lemma CooldownArms(c: Ctl, at: int)
    requires Coherent(c)
    ensures var o := TickCooldown(c, at);
            && o.c.clock.backupDeadline == c.clock.backupDeadline
            && (o.c.clock.backupAfterSync ==> c.clock.backupAfterSync || c.state.mode == Cooldown)
            && NoIdleWrites(o.actions)
            && (c.state.mode == Idle ==> o == Out(c, []))
            && (o.c.state.mode == Idle ==> c.state.mode == Idle || c.state.mode == Cooldown)
  {}

  lemma StatusKeeps(c: Ctl, at: int)
    ensures KeepsArms(c, TickStatus(c, at))
  {}

  lemma DataKeeps(env: Env, c: Ctl, at: int)
    ensures KeepsArms(c, TickData(env, c, at))
  {}

  lemma PeriodicKeeps(c: Ctl, at: int)
    ensures KeepsArms(c, TickPeriodic(c, at))
  {}

  lemma StatsKeeps(c: Ctl, at: int)
    ensures KeepsArms(c, TickTapStats(c, at))
  {}

  /** Everything between the cooldown and the backup part of a tick. */
  lemma MiddleKeeps(env: Env, c: Ctl, at: int)
    ensures var status := TickStatus(c, at);
            var data := TickData(env, status.c, at);
            var periodic := TickPeriodic(data.c, at);
            var stats := TickTapStats(periodic.c, at);
            KeepsArms(c, Out(stats.c, status.actions + data.actions + periodic.actions + stats.actions))
  {
    hide TickStatus, TickData, TickPeriodic, TickTapStats;
    var status := TickStatus(c, at);
    var data := TickData(env, status.c, at);
    var periodic := TickPeriodic(data.c, at);
    StatusKeeps(c, at);
    DataKeeps(env, status.c, at);
    PeriodicKeeps(data.c, at);
    StatsKeeps(periodic.c, at);
  }

  lemma TickArms(env: Env, c: Ctl, at: int, now: int)
    requires Coherent(c)
    ensures ArmStep(c, Tick(at), now, OnTick(env, c, at))
  {
    hide TickCooldown, TickStatus, TickData, TickPeriodic, TickTapStats;
    var cool := TickCooldown(c, at);
    var status := TickStatus(cool.c, at);
    var data := TickData(env, status.c, at);
    var periodic := TickPeriodic(data.c, at);
    var stats := TickTapStats(periodic.c, at);
    var backup := TickBackup(stats.c, at);
    CooldownArms(c, at);
    MiddleKeeps(env, cool.c, at);
    var before := cool.actions + (status.actions + data.actions + periodic.actions + stats.actions);
    assert OnTick(env, c, at).actions == before + backup.actions;
    NoWrites(before);
    if backup.actions == [] {
      assert before + [] == before;
    } else {
      assert (before + [WriteAutoBackup])[..|before|] == before;
    }
  }

  lemma ReportsKeep(c: Ctl, latency: Latency, calibration: Option<HeCalibration>, progress: HeProgress)
    ensures KeepsArms(c, OnStatus(c, latency, calibration)) && KeepsArms(c, OnHeProgress(c, progress))
  {}

  lemma OsuActiveKeeps(c: Ctl, active: bool, now: int)
    ensures KeepsArms(c, OnOsuActive(c, active, now))
  {}

  lemma OtherEventsKeep(env: Env, c: Ctl, e: Event, now: int)
    requires !e.TosuTelemetry? && !e.TosuConnectionChanged? && !e.Tick? && !e.SyncCompleted?
    ensures KeepsArms(c, OnEvent(env, c, e, now))
  {
    hide OnConnected, OnLogBatch, OnTosuKeys, OnPadPresses, OnStatus, OnHeProgress, OnOsuActive;
    match e
    case DeviceStatus(latency, calibration) => ReportsKeep(c, latency, calibration, HeProgress(true, []));
    case DeviceHeProgress(progress) => ReportsKeep(c, [], None, progress);
    case OsuActiveChanged(active) => OsuActiveKeeps(c, active, now);
    case DeviceConnected(info, config) => ConnectedKeeps(env, c, info, config, now);
    case DeviceLogBatch(ids) => LogBatchKeeps(c, ids);
    case _ =>
  }

  lemma EventArms(env: Env, c: Ctl, e: Event, now: int)
    requires Coherent(c)
    ensures ArmStep(c, e, now, OnEvent(env, c, e, now))
  {
    hide OnConnected, OnLogBatch, OnTelemetry, OnTosuConnection, OnTick, OnSyncCompleted, OnTosuKeys, OnPadPresses,
      ArmStep, KeepsArms;
    match e
    case TosuTelemetry(f) => TelemetryArms(env, c, f, now);
    case TosuConnectionChanged(connected) => TosuConnectionArms(env, c, connected, now);
    case Tick(at) => TickArms(env, c, at, now);
    case SyncCompleted(_, _, _, _) => SyncArms(c, e, now);
    case _ =>
      OtherEventsKeep(env, c, e, now);
      KeptIsStep(c, e, now, OnEvent(env, c, e, now));
  }

  // ---- Runs ------------------------------------------------------------------------

  /** Beside the controller: how often COOLDOWN became SYNC, how many backups were
      written, and, while IDLE lasts, when the sync that ended SYNC completed. */
  datatype Ledger = Ledger(c: Ctl, sessions: nat, written: nat, settled: Option<int>)

  function Book(env: Env, l: Ledger, t: Turn): Ledger {
    var o := Apply(env, l.c, t.shared, t.event, t.now);
    Ledger(o.c,
           l.sessions + (if l.c.state.mode == Cooldown && o.c.state.mode == Sync then 1 else 0),
           l.written + Writes(o.actions),
           if o.c.state.mode != Idle then None
           else if l.c.state.mode == Sync && t.event.SyncCompleted? then Some(t.now)
           else if l.c.state.mode == Idle then l.settled
           else None)
  }

  function BookAll(env: Env, l: Ledger, turns: seq<Turn>): Ledger
    decreases |turns|
  {
    if turns == [] then l else Book(env, BookAll(env, l, turns[..|turns| - 1]), turns[|turns| - 1])
  }

  /** Every turn leaves the mode as the runtime had it. */
  ghost predicate Undisturbed(env: Env, l: Ledger, turns: seq<Turn>)
    decreases |turns|
  {
    turns == []
    || (var before := turns[..|turns| - 1];
        Undisturbed(env, l, before) && OutsideWrite(BookAll(env, l, before).c.state, turns[|turns| - 1].shared))
  }

  function One(b: bool): nat { if b then 1 else 0 }

  ghost predicate Balanced(l: Ledger) {
    && Coherent(l.c)
    && l.written + One(l.c.clock.backupDeadline.Some?) + One(l.c.clock.backupAfterSync) <= l.sessions
    && (l.c.clock.backupDeadline.Some? ==> l.settled == Some(l.c.clock.backupDeadline.value - AUTO_BACKUP_DELAY))
  }

  lemma ApplyArms(env: Env, c: Ctl, t: Turn)
    requires Coherent(c) && OutsideWrite(c.state, t.shared)
    ensures ArmStep(c, t.event, t.now, Apply(env, c, t.shared, t.event, t.now))
    ensures ModeStep(c, Apply(env, c, t.shared, t.event, t.now))
  {
    hide OnEvent;
    EventArms(env, Remember(c.(state := t.shared)), t.event, t.now);
    EventStep(env, Remember(c.(state := t.shared)), t.event, t.now);
  }

  lemma BookBalanced(env: Env, l: Ledger, t: Turn)
    requires Balanced(l) && OutsideWrite(l.c.state, t.shared)
    ensures Balanced(Book(env, l, t))
  {
    hide Apply;
    ApplyArms(env, l.c, t);
  }

  /** Backups are accounted for: written, armed and about to be armed never exceed
      the play sessions that reached SYNC, and an armed one was armed by the sync
      that ended SYNC, with nothing but IDLE since. */
  lemma {:induction false} BackupsAreAccountedFor(env: Env, l: Ledger, turns: seq<Turn>)
    requires Balanced(l) && Undisturbed(env, l, turns)
    ensures Balanced(BookAll(env, l, turns))
    decreases |turns|
  {
    if turns != [] {
      BackupsAreAccountedFor(env, l, turns[..|turns| - 1]);
      BookBalanced(env, BookAll(env, l, turns[..|turns| - 1]), turns[|turns| - 1]);
    }
  }

  /** A backup is written by a tick, in IDLE, at least 20 s after the sync that
      settled the session, with no play in between, and never two at once. */
  lemma WrittenOnlyWhenSettled(env: Env, l: Ledger, t: Turn)
    requires Balanced(l) && OutsideWrite(l.c.state, t.shared)
    ensures var l' := Book(env, l, t);
            && l'.written <= l.written + 1
            && (l'.written > l.written ==>
                  && l.c.state.mode == Idle && l'.c.state.mode == Idle && t.event.Tick?
                  && l.settled.Some? && t.event.at >= l.settled.value + AUTO_BACKUP_DELAY
                  && l'.c.clock.backupDeadline.None?)
  {
    hide Apply, Coherent;
    ApplyArms(env, l.c, t);
  }

  /** No storage write that IDLE gates is emitted by an event that leaves any
      other mode: none during play, cooldown or a sync. */
  lemma WritesOnlyInIdle(env: Env, c: Ctl, t: Turn)
    requires Coherent(c) && OutsideWrite(c.state, t.shared)
    ensures var o := Apply(env, c, t.shared, t.event, t.now);
            o.c.state.mode != Idle ==> forall a :: a in o.actions ==> !IdleOnly(a)
  {
    hide Apply, Coherent;
    ApplyArms(env, c, t);
  }
}
