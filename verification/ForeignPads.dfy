/** A pad that belongs to another install is left alone, over whole runs. */
module ForeignPads {
  import opened Options
  import opened Counters
  import opened TapRate
  import opened Daemon
  import opened Telemetry
  import opened Runtime

  /** What must not reach such a pad, nor be read off it. */
  predicate Intrudes(a: Action) {
    a.SendConfig? || a.SendLayout? || a.SendDataUpdate? || a.PlayAnimation? || a.TriggerSync? || a.ClaimOwnership?
  }

  predicate LeavesAlone(actions: seq<Action>) { forall a :: a in actions ==> !Intrudes(a) }

  predicate JudgedSomeone(c: Ctl) {
    var owner := if c.pairing.reportedOwner.Some? then c.pairing.reportedOwner.value else [];
    OwnershipOf(c.state.installId, owner) == Someone
  }

  /** Everything but losing the pad, or a pad connecting that is not someone else's. */
  predicate StaysForeign(c: Ctl, e: Event) {
    match e
    case DeviceDisconnected => false
    case DeviceConnected(info, _) => info.protocolVersion != DEVICE_PROTOCOL_VERSION || JudgedSomeone(c)
    case _ => true
  }

  predicate LeftAlone(o: Out) { o.c.state.foreignPad && LeavesAlone(o.actions) }

  // ---- Connecting ------------------------------------------------------------------

  lemma AdoptLeaves(env: Env, c: Ctl, config: Option<DeviceConfig>)
    ensures LeavesAlone(AdoptConfig(env, c, config).actions)
    ensures AdoptConfig(env, c, config).c.state.installId == c.state.installId
    ensures AdoptConfig(env, c, config).c.pairing == c.pairing
  {}

  lemma JudgeLeaves(c: Ctl, info: DeviceInfo)
    requires JudgedSomeone(c)
    ensures LeftAlone(JudgeOwner(c, info)) && JudgeOwner(c, info).c.state.pendingTakeover.Some?
  {}

  lemma RegisterLeaves(env: Env, c: Ctl, info: DeviceInfo)
    ensures LeavesAlone(Register(env, c, info).actions)
    ensures Register(env, c, info).c.state.foreignPad == c.state.foreignPad
    ensures Register(env, c, info).c.state.pendingTakeover == c.state.pendingTakeover
  {}

  lemma GreetLeaves(c: Ctl, sendConfig: bool, now: int)
    requires c.state.foreignPad
    ensures LeftAlone(Greet(c, sendConfig, now))
    ensures Greet(c, sendConfig, now).c.state == c.state
  {}

  /** A pad judged someone else's is left alone from the very event that finds out. */
  lemma ConnectedLeaves(env: Env, c: Ctl, info: DeviceInfo, config: Option<DeviceConfig>, now: int)
    requires info.protocolVersion == DEVICE_PROTOCOL_VERSION && JudgedSomeone(c)
    ensures LeftAlone(OnConnected(env, c, info, config, now))
    ensures OnConnected(env, c, info, config, now).c.state.pendingTakeover.Some?
  {
    hide AdoptConfig, JudgeOwner, Register, Greet, NvsWiped;
    var s := StagesOf(env, c, info, config, now);
    AdoptLeaves(env, s.accepted, config);
    JudgeLeaves(s.identified, info);
    RegisterLeaves(env, s.judged.c, info);
    GreetLeaves(s.registered.c, config.None? || s.wiped, now);
  }

  lemma AdoptSameCounters(env: Env, c: Ctl, config: Option<DeviceConfig>)
    ensures var s := AdoptConfig(env, c, config).c.state;
            s.counters == c.state.counters && s.pcCounters == c.state.pcCounters
  {
    hide Adopted;
  }

  /** A foreign pad can raise the replacement prompt as well: both are open when it
      is new here, nearly blank, and this PC has more presses. */
  lemma ForeignPadMayAskForReplacement(env: Env, c: Ctl, info: DeviceInfo, config: Option<DeviceConfig>, now: int)
    requires info.protocolVersion == DEVICE_PROTOCOL_VERSION && JudgedSomeone(c)
    requires info.deviceId !in c.pairing.known && (c.pairing.known != {} || c.pairing.hasInitialDbEntry)
    requires c.state.counters.generation <= 1 && c.state.counters.key1 < 1000 && c.state.counters.key2 < 1000
    requires PcIsAhead(c.state.pcCounters, c.state.counters)
    ensures var s := OnConnected(env, c, info, config, now).c.state;
            s.foreignPad && s.pendingTakeover.Some? && s.pendingReplacement.Some?
  {
    hide AdoptConfig, Greeting, NvsWiped;
    var s := StagesOf(env, c, info, config, now);
    AdoptLeaves(env, s.accepted, config);
    AdoptSameCounters(env, s.accepted, config);
    ConnectedLeaves(env, c, info, config, now);
  }

  // ---- The other events -------------------------------------------------------------

  lemma {:induction false} LogBatchLeaves(c: Ctl, ids: seq<nat>)
    requires c.state.foreignPad
    ensures LeftAlone(OnLogBatch(c, ids))
    decreases |ids|
  {
    if ids != [] { LogBatchLeaves(c, ids[..|ids| - 1]); }
  }

  lemma PlayingLeaves(env: Env, c: Ctl, f: Frame, now: int)
    requires c.state.foreignPad
    ensures LeftAlone(PlayingFrame(env, c, f, now))
  {
    hide AttemptFrame;
  }

  lemma EndLeaves(env: Env, c: Ctl, now: int)
    requires c.state.foreignPad
    ensures LeftAlone(EndPlay(env, c, now))
  {
    hide FinishAttempt;
  }

  lemma TelemetryLeaves(env: Env, c: Ctl, f: Frame, now: int)
    requires c.state.foreignPad
    ensures LeftAlone(OnTelemetry(env, c, f, now))
  {
    hide PlayingFrame, EndPlay;
    var i := TakenIn(c, f);
    PlayingLeaves(env, i, f, now);
    EndLeaves(env, i, now);
  }

  lemma TosuConnectionLeaves(env: Env, c: Ctl, connected: bool, now: int)
    requires c.state.foreignPad
    ensures LeftAlone(OnTosuConnection(env, c, connected, now))
  {
    hide TosuGonePlay;
  }

  lemma CooldownLeaves(c: Ctl, at: int)
    requires c.state.foreignPad
    ensures LeftAlone(TickCooldown(c, at))
  {}

  lemma StatusLeaves(c: Ctl, at: int)
    requires c.state.foreignPad
    ensures LeftAlone(TickStatus(c, at))
  {}

  lemma DataLeaves(env: Env, c: Ctl, at: int)
    requires c.state.foreignPad
    ensures LeftAlone(TickData(env, c, at))
  {
    hide TickPlay;
  }

  lemma LateTickLeaves(c: Ctl, at: int)
    requires c.state.foreignPad
    ensures LeftAlone(TickPeriodic(c, at)) && LeftAlone(TickTapStats(c, at)) && LeftAlone(TickBackup(c, at))
  {}

  lemma TickLeaves(env: Env, c: Ctl, at: int)
    requires c.state.foreignPad
    ensures LeftAlone(OnTick(env, c, at))
  {
    hide TickCooldown, TickStatus, TickData, TickPeriodic, TickTapStats, TickBackup;
    var cool := TickCooldown(c, at);
    var status := TickStatus(cool.c, at);
    var data := TickData(env, status.c, at);
    var periodic := TickPeriodic(data.c, at);
    var stats := TickTapStats(periodic.c, at);
    CooldownLeaves(c, at);
    StatusLeaves(cool.c, at);
    DataLeaves(env, status.c, at);
    LateTickLeaves(data.c, at);
    LateTickLeaves(periodic.c, at);
    LateTickLeaves(stats.c, at);
  }

  lemma SyncLeaves(c: Ctl, e: Event, now: int)
    requires c.state.foreignPad && e.SyncCompleted?
    ensures LeftAlone(OnSyncCompleted(c, e, now))
  {}

  lemma ReportsLeave(c: Ctl, latency: Latency, calibration: Option<HeCalibration>, progress: HeProgress)
    requires c.state.foreignPad
    ensures LeftAlone(OnStatus(c, latency, calibration)) && LeftAlone(OnHeProgress(c, progress))
  {}

  lemma OsuActiveLeaves(c: Ctl, active: bool, now: int)
    requires c.state.foreignPad
    ensures LeftAlone(OnOsuActive(c, active, now))
  {}

  lemma EventLeaves(env: Env, c: Ctl, e: Event, now: int)
    requires c.state.foreignPad && StaysForeign(c, e)
    ensures LeftAlone(OnEvent(env, c, e, now))
  {
    hide OnConnected, OnLogBatch, OnTelemetry, OnTosuConnection, OnTick, OnSyncCompleted, OnTosuKeys, OnPadPresses,
      OnStatus, OnHeProgress, OnOsuActive;
    match e
    case DeviceStatus(latency, calibration) => ReportsLeave(c, latency, calibration, HeProgress(true, []));
    case DeviceHeProgress(progress) => ReportsLeave(c, [], None, progress);
    case OsuActiveChanged(active) => OsuActiveLeaves(c, active, now);
    case DeviceConnected(info, config) =>
      if info.protocolVersion == DEVICE_PROTOCOL_VERSION {
        ConnectedLeaves(env, c, info, config, now);
      } else {
        IncompatibleLeaves(env, c, info, config, now);
      }
    case DeviceLogBatch(ids) => LogBatchLeaves(c, ids);
    case TosuTelemetry(f) => TelemetryLeaves(env, c, f, now);
    case TosuConnectionChanged(connected) => TosuConnectionLeaves(env, c, connected, now);
    case Tick(at) => TickLeaves(env, c, at);
    case SyncCompleted(_, _, _, _) => SyncLeaves(c, e, now);
    case _ =>
  }

  lemma IncompatibleLeaves(env: Env, c: Ctl, info: DeviceInfo, config: Option<DeviceConfig>, now: int)
    requires c.state.foreignPad && info.protocolVersion != DEVICE_PROTOCOL_VERSION
    ensures LeftAlone(OnConnected(env, c, info, config, now))
  {}

  // ---- Runs ---------------------------------------------------------------------------

  function Run(env: Env, c: Ctl, turns: seq<Turn>): Out
    decreases |turns|
  {
    if turns == [] then Out(c, [])
    else
      var before := Run(env, c, turns[..|turns| - 1]);
      var t := turns[|turns| - 1];
      var o := Apply(env, before.c, t.shared, t.event, t.now);
      Out(o.c, before.actions + o.actions)
  }

  /** No takeover between events, and no event that ends the episode. Others may
      write anything else, the prompt's answer "leave it alone" included. */
  ghost predicate Episode(env: Env, c: Ctl, turns: seq<Turn>)
    decreases |turns|
  {
    turns == []
    || (var before := Run(env, c, turns[..|turns| - 1]);
        var t := turns[|turns| - 1];
        Episode(env, c, turns[..|turns| - 1]) && t.shared.foreignPad
        && StaysForeign(Remember(before.c.(state := t.shared)), t.event))
  }

  lemma ApplyLeaves(env: Env, c: Ctl, t: Turn)
    requires t.shared.foreignPad && StaysForeign(Remember(c.(state := t.shared)), t.event)
    ensures LeftAlone(Apply(env, c, t.shared, t.event, t.now))
  {
    hide OnEvent, StaysForeign;
    EventLeaves(env, Remember(c.(state := t.shared)), t.event, t.now);
  }

  /** From the connect that judges the pad someone else's until it is taken over
      or lost, no sequence of events sends it a config, a layout, a value, an
      animation or an ownership claim, or triggers a sync; and it is guarded
      throughout, with or without the prompt. */
  lemma {:induction false} ForeignPadIsLeftAlone(env: Env, c: Ctl, turns: seq<Turn>)
    requires c.state.foreignPad && Episode(env, c, turns)
    ensures LeavesAlone(Run(env, c, turns).actions)
    ensures Run(env, c, turns).c.state.foreignPad && Run(env, c, turns).c.state.PadGuard().Some?
    decreases |turns|
  {
    hide Apply, StaysForeign;
    if turns != [] {
      ForeignPadIsLeftAlone(env, c, turns[..|turns| - 1]);
      ApplyLeaves(env, Run(env, c, turns[..|turns| - 1]).c, turns[|turns| - 1]);
    }
  }
}
