/** More of what the runtime's steps and runs do: play numbers, attempts, syncs, the
    calibration page and layouts. */
module RuntimeFacts {
  import opened Options
  import opened Counters
  import opened TapRate
  import opened Daemon
  import opened Telemetry
  import opened Runtime
  import HostStatuses

  // ---- Play numbers and attempts ---------------------------------------------------------

  /** The pad's play number moves by one, modulo 2^32, exactly with a frame that
      starts an attempt: one played from outside PLAYING, or a rewind past two seconds. */
  lemma PlayNumberMovesExactly(env: Env, c: Ctl, f: Frame, now: int)
    ensures var s := OnTelemetry(env, c, f, now).c.show;
            s.playId == if f.isPlaying && NewAttempt(c, f) then (c.show.playId + 1) % U32 else c.show.playId
    ensures NewAttempt(c, f)
            <==> || c.state.mode != Playing
                 || (c.show.lastLiveMs.Some? && c.show.lastLiveMs.value - f.liveMs > RETRY_REWIND_MS)
  {
    hide AttemptFrame, FinishAttempt, ResultsAnimation;
  }

  /** The frames that start an attempt. */
  predicate Starts(c: Ctl, e: Event) { e.TosuTelemetry? && e.frame.isPlaying && NewAttempt(c, e.frame) }

  lemma EventMovesPlay(env: Env, c: Ctl, e: Event, now: int)
    ensures OnEvent(env, c, e, now).c.show.playId
         == if Starts(c, e) then (c.show.playId + 1) % U32 else c.show.playId
  {
    hide OnConnected, OnLogBatch, OnTelemetry, OnTosuConnection, OnTick, OnTosuKeys, OnPadPresses, NewAttempt;
    match e
    case DeviceConnected(info, config) => HostStatuses.ConnectedSameShow(env, c, info, config, now);
    case DeviceLogBatch(ids) => HostStatuses.LogBatchSameShow(c, ids);
    case TosuTelemetry(f) => PlayNumberMovesExactly(env, c, f, now);
    case TosuConnectionChanged(connected) => TosuConnectionKeepsPlay(env, c, connected, now);
    case Tick(at) => HostStatuses.TickSameShow(env, c, at);
    case _ =>
  }

  lemma TosuConnectionKeepsPlay(env: Env, c: Ctl, connected: bool, now: int)
    ensures OnTosuConnection(env, c, connected, now).c.show.playId == c.show.playId
  {
    hide TosuGonePlay;
  }

  /** The controller beside the number of attempts started. */
  datatype Started = Started(c: Ctl, attempts: nat)

  function Step(env: Env, s: Started, t: Turn): Started {
    var starts := Starts(Remember(s.c.(state := t.shared)), t.event);
    Started(Apply(env, s.c, t.shared, t.event, t.now).c, s.attempts + (if starts then 1 else 0))
  }

  function Run(env: Env, s: Started, turns: seq<Turn>): Started
    decreases |turns|
  {
    if turns == [] then s else Step(env, Run(env, s, turns[..|turns| - 1]), turns[|turns| - 1])
  }

  /** Over every run, whatever others write in between: the pad's play number counts the
      attempts started, modulo 2^32, and nothing else moves it. */
  lemma {:induction false} PlayNumberCountsAttempts(env: Env, s: Started, turns: seq<Turn>)
    requires s.c.show.playId < U32
    ensures var r := Run(env, s, turns);
            && s.attempts <= r.attempts
            && r.c.show.playId == (s.c.show.playId + (r.attempts - s.attempts)) % U32
    decreases |turns|
  {
    hide OnEvent, Starts;
    if turns != [] {
      var n := |turns| - 1;
      var before := Run(env, s, turns[..n]);
      PlayNumberCountsAttempts(env, s, turns[..n]);
      EventMovesPlay(env, Remember(before.c.(state := turns[n].shared)), turns[n].event, turns[n].now);
      OneMore(s.c.show.playId + (before.attempts - s.attempts));
    }
  }

  lemma OneMore(n: nat)
    ensures (n % U32 + 1) % U32 == (n + 1) % U32
  {}

  // ---- Syncs and counters ---------------------------------------------------------------------

  /** What a sync's end means to the runtime. One that succeeded makes the three copies one,
      the pad known and what it reported as blank restored, and starts the periodic waits
      over; one that failed touches no counter and says why. SYNC ends either way, a backup
      is armed if the sync was waited for with one and nothing is played, and storage may be
      written exactly if that leaves IDLE. */
  lemma SyncEnds(env: Env, c: Ctl, success: bool, n: CounterState, time: Option<int>, error: Option<string>, now: int)
    ensures var o := OnEvent(env, c, SyncCompleted(success, n, time, error), now);
            var s := o.c.state;
            var idle := c.state.mode == Idle || c.state.mode == Sync;
            var here := if c.state.deviceInfo.Some? then {c.state.deviceInfo.value.deviceId} else {};
            && s.mode == (if idle then Idle else c.state.mode)
            && o.actions == (if idle then [SetStorageWritesAllowed(true)] else [])
            && !o.c.clock.backupAfterSync
            && o.c.clock.backupDeadline
               == (if c.clock.backupAfterSync && idle then Some(now + 20_000_000) else c.clock.backupDeadline)
            && (success ==>
                  && s.counters == n && s.pcCounters == s.espCounters == Some(n)
                  && s.lastSyncTime == time && s.lastSyncError.None? && !s.nvsRestorePending
                  && o.c.clock.lastPeriodicSync == o.c.clock.lastPeriodicTimeSync == now
                  && o.c.pairing.lastSyncedCounters == Some(n)
                  && o.c.pairing.known == c.pairing.known + here)
            && (!success ==>
                  && s == c.state.(mode := s.mode, lastSyncError := error) && o.c.pairing == c.pairing
                  && o.c.clock == c.clock.(backupAfterSync := false, backupDeadline := o.c.clock.backupDeadline))
  {}

  // ---- The pad's own reports ------------------------------------------------------------------

  /** A lost pad leaves nothing of what only it knew, no guard and no prompt about its owner;
      what this PC keeps of it stays. */
  lemma LostPadLeaves(env: Env, c: Ctl, now: int)
    ensures var o := OnEvent(env, c, DeviceDisconnected, now);
            var s := o.c.state;
            && o.actions == [] && !s.deviceConnected && s.countersSource == FromPc && s.espCounters.None?
            && s.incompatible.None? && s.heCalibration.None? && s.latestHeProgress.None?
            && !s.foreignPad && s.pendingTakeover.None?
            && !o.c.tap.padPressTimes && o.c.tap.padEpoch.None?
            && o.c.pairing.reportedOwner.None? && o.c.pairing.preHelloCounters.None? && !o.c.pairing.calGuiLaunched
            && s.counters == c.state.counters && s.pcCounters == c.state.pcCounters && s.config == c.state.config
            && s.deviceInfo == c.state.deviceInfo && s.pendingReplacement == c.state.pendingReplacement
            && s.mode == c.state.mode && s.nvsRestorePending == c.state.nvsRestorePending
            && o.c.pairing.known == c.pairing.known && o.c.tap.attempt == c.tap.attempt && o.c.data == c.data
  {}

  /** A status shows the pad's latency, and how its keys stand if it said that it can
      calibrate. */
  lemma PadIsShown(env: Env, c: Ctl, latency: Latency, calibration: Option<HeCalibration>, now: int)
    ensures var can := c.state.deviceInfo.Some? && c.state.deviceInfo.value.heCalibration;
            var shown := if can then calibration else None;
            OnEvent(env, c, DeviceStatus(latency, calibration), now).c.state
            == c.state.(latency := Some(latency), heCalibration := shown)
  {
    var can := c.state.deviceInfo.Some? && c.state.deviceInfo.value.heCalibration;
    var shown := if can then calibration else None;
    var s := c.(state := c.state.(latency := Some(latency), heCalibration := shown));
    assert OnStatus(c, latency, calibration).c.state == s.state;
  }

  /** Calibration progress is shown of a connected pad that can calibrate, and a success asks
      for its status. */
  lemma ProgressIsShown(env: Env, c: Ctl, progress: HeProgress, now: int)
    ensures var o := OnEvent(env, c, DeviceHeProgress(progress), now);
            var can := c.state.deviceInfo.Some? && c.state.deviceInfo.value.heCalibration;
            if c.state.deviceConnected && can then
              && o.c == c.(state := c.state.(latestHeProgress := Some(progress)))
              && o.actions == (if progress.success then [RequestDeviceStatus] else [])
            else o == Out(c, [])
  {}

  /** The ids of the pad's log lines among the actions, in order. */
  function Pushed(actions: seq<Action>): seq<nat>
    decreases |actions|
  {
    if actions == [] then []
    else
      var last := actions[|actions| - 1];
      Pushed(actions[..|actions| - 1]) + (if last.PushEspLog? then [last.id] else [])
  }

  function Syncs(actions: seq<Action>): nat
    decreases |actions|
  {
    if actions == [] then 0
    else Syncs(actions[..|actions| - 1]) + (if actions[|actions| - 1].TriggerSync? then 1 else 0)
  }

  lemma PushedSnoc(actions: seq<Action>, a: Action)
    ensures Pushed(actions + [a]) == Pushed(actions) + (if a.PushEspLog? then [a.id] else [])
    ensures Syncs(actions + [a]) == Syncs(actions) + (if a.TriggerSync? then 1 else 0)
  {
    assert (actions + [a])[..|actions|] == actions;
  }

  /** One line of the pad's log behind others. */
  lemma LineGoesOn(c: Ctl, id: nat, before: seq<Action>)
    ensures var o := LogLine(c, id);
            var asks := id == 8 && c.state.deviceConnected && !c.state.foreignPad && !c.state.nvsRestorePending;
            && o.c == c.(state := c.state.(nvsRestorePending := c.state.nvsRestorePending || asks))
            && Pushed(before + o.actions) == Pushed(before) + [id]
            && Syncs(before + o.actions)
               == Syncs(before) + (if asks && c.state.mode == Idle && c.state.PadGuard().None? then 1 else 0)
  {
    hide Pushed, Syncs;
    PushedSnoc(before, TriggerSync);
    PushedSnoc(before + [TriggerSync], PushEspLog(id));
    PushedSnoc(before, PushEspLog(id));
    assert before + [TriggerSync] + [PushEspLog(id)] == before + ([TriggerSync] + [PushEspLog(id)]);
    assert [] + [PushEspLog(id)] == [PushEspLog(id)];
  }

  /** A batch of the pad's log: every line goes on, in order; the first that reports erased
      storage on a connected pad of ours asks once for what it lost, with a sync if one may
      run, until that is done. */
  lemma PadLogGoesOn(env: Env, c: Ctl, ids: seq<nat>, now: int)
    ensures var o := OnEvent(env, c, DeviceLogBatch(ids), now);
            var asks := 8 in ids && c.state.deviceConnected && !c.state.foreignPad && !c.state.nvsRestorePending;
            && o.c == c.(state := c.state.(nvsRestorePending := c.state.nvsRestorePending || asks))
            && Pushed(o.actions) == ids
            && Syncs(o.actions) == (if asks && c.state.mode == Idle && c.state.PadGuard().None? then 1 else 0)
  {
    LinesGoOn(c, ids);
  }

  lemma {:induction false} LinesGoOn(c: Ctl, ids: seq<nat>)
    ensures var o := OnLogBatch(c, ids);
            var asks := 8 in ids && c.state.deviceConnected && !c.state.foreignPad && !c.state.nvsRestorePending;
            && o.c == c.(state := c.state.(nvsRestorePending := c.state.nvsRestorePending || asks))
            && Pushed(o.actions) == ids
            && Syncs(o.actions) == (if asks && c.state.mode == Idle && c.state.PadGuard().None? then 1 else 0)
    decreases |ids|
  {
    hide LogLine;
    if ids != [] {
      hide Pushed, Syncs;
      var n := |ids| - 1;
      LinesGoOn(c, ids[..n]);
      var before := OnLogBatch(c, ids[..n]);
      LineGoesOn(before.c, ids[n], before.actions);
      assert ids == ids[..n] + [ids[n]];
    }
  }

  // ---- The database and osu! --------------------------------------------------------------------

  /** A database that fails is complained about; one that is back is not any more, and brings
      its configuration and this pad's counters when it has them, and asks for the history. */
  lemma StorageComesAndGoes(env: Env, c: Ctl, message: string, config: Option<DeviceConfig>,
                            layouts: seq<(Screen, Layout)>, stored: Option<CounterState>, now: int)
    ensures OnEvent(env, c, SqliteError(message), now)
         == Out(c.(state := c.state.(storageError := Some(message))), [])
    ensures var o := OnEvent(env, c, SqliteReconnected(config, layouts, stored), now);
            var s := o.c.state;
            && o.c == c.(state := s) && o.actions == [RefreshTapHistory] && s.storageError.None?
            && (config.Some? ==> s.config == config.value) && (config.None? ==> s.config == c.state.config)
            && (stored.Some? ==> s.pcCounters == stored) && (stored.None? ==> s.pcCounters == c.state.pcCounters)
            && s.counters == c.state.counters && s.espCounters == c.state.espCounters && s.mode == c.state.mode
            && s.customLayouts == InsertLayouts(c.state.customLayouts, layouts)
  {}

  /** Whether osu! is active is kept and told a connected pad at once, with the rest. */
  lemma OsuIsTold(env: Env, c: Ctl, active: bool, now: int)
    ensures var o := OnEvent(env, c, OsuActiveChanged(active), now);
            var s := c.state.(osuActive := active);
            && o.c.state == s
            && (if s.deviceConnected then
                  && o.c.clock.lastHostStatus == now
                  && o.actions == [SendHostStatus(s.tosuConnected, s.mode == Playing, c.show.playId, active)]
                else o.c.clock == c.clock && o.actions == [])
  {}

  /** The owner a pad names is kept for its connect, with the counters as they were. */
  lemma OwnerIsKept(env: Env, c: Ctl, owner: OwnerId, now: int)
    ensures OnEvent(env, c, DeviceOwnership(owner), now)
         == Out(c.(pairing := c.pairing.(reportedOwner := Some(owner),
                                         preHelloCounters := Some(c.state.counters))), [])
  {}

  /** What a report of the pad's brings, and no more: its presses always; with an identity
      that and its generation, without one the map counts. The copy of the pad's counters is
      what is shown. */
  lemma ReportsAreTaken(env: Env, c: Ctl, n: CounterState, now: int)
    ensures var o := OnEvent(env, c, DeviceCounters(n), now);
            var before, shown := c.state.counters, o.c.state.counters;
            && shown.key1 == n.key1 && shown.key2 == n.key2
            && (n.deviceId != "" ==>
                  && shown.deviceId == n.deviceId && shown.generation == n.generation
                  && shown.map1 == before.map1 && shown.map2 == before.map2)
            && (n.deviceId == "" ==>
                  && shown.deviceId == before.deviceId && shown.generation == before.generation
                  && shown.map1 == n.map1 && shown.map2 == n.map2)
            && o.c == c.(state := c.state.(counters := shown, espCounters := Some(shown))) && o.actions == []
  {}

  // ---- The calibration page -------------------------------------------------------------------

  function Launches(actions: seq<Action>): nat
    decreases |actions|
  {
    if actions == [] then 0
    else Launches(actions[..|actions| - 1]) + (if actions[|actions| - 1].LaunchGuiCalibration? then 1 else 0)
  }

  /** The step opens nothing and remembers what was opened. */
  predicate OpensNothing(c: Ctl, o: Out) {
    (forall a :: a in o.actions ==> !a.LaunchGuiCalibration?) && o.c.pairing.calGuiLaunched == c.pairing.calGuiLaunched
  }

  lemma {:induction false} NoLaunches(actions: seq<Action>)
    requires forall a :: a in actions ==> !a.LaunchGuiCalibration?
    ensures Launches(actions) == 0
    decreases |actions|
  {
    if actions != [] {
      assert actions[|actions| - 1] in actions;
      NoLaunches(actions[..|actions| - 1]);
    }
  }

  lemma ConnectOpensNothing(env: Env, c: Ctl, info: DeviceInfo, config: Option<DeviceConfig>, now: int)
    ensures OpensNothing(c, OnConnected(env, c, info, config, now))
  {
    hide AdoptConfig, JudgeOwner, Register, Greet, NvsWiped, OpensNothing;
    if info.protocolVersion == DEVICE_PROTOCOL_VERSION {
      var s := StagesOf(env, c, info, config, now);
      StagesOpenNothing(env, s.accepted, info, config, false, now);
      StagesOpenNothing(env, s.identified, info, config, false, now);
      StagesOpenNothing(env, s.judged.c, info, config, false, now);
      StagesOpenNothing(env, s.registered.c, info, config, config.None? || s.wiped, now);
      ChainOpensNothing(c, s);
    } else {
      IncompatibleOpensNothing(env, c, info, config, now);
    }
  }

  lemma StagesOpenNothing(env: Env, c: Ctl, info: DeviceInfo, config: Option<DeviceConfig>, sends: bool, now: int)
    ensures OpensNothing(c, AdoptConfig(env, c, config)) && OpensNothing(c, JudgeOwner(c, info))
    ensures OpensNothing(c, Register(env, c, info)) && OpensNothing(c, Greet(c, sends, now))
  {
    hide Adopted, OwnershipOf, SyncsOnConnect;
  }

  lemma ChainOpensNothing(c: Ctl, s: Stages)
    requires s.accepted.pairing.calGuiLaunched == c.pairing.calGuiLaunched && OpensNothing(s.accepted, s.adopted)
    requires s.identified.pairing == s.adopted.c.pairing && OpensNothing(s.identified, s.judged)
    requires OpensNothing(s.judged.c, s.registered) && OpensNothing(s.registered.c, s.greeted)
    ensures OpensNothing(c, Out(s.greeted.c, s.adopted.actions + s.judged.actions + s.registered.actions
                                             + s.greeted.actions))
  {}

  lemma IncompatibleOpensNothing(env: Env, c: Ctl, info: DeviceInfo, config: Option<DeviceConfig>, now: int)
    requires info.protocolVersion != DEVICE_PROTOCOL_VERSION
    ensures OpensNothing(c, OnConnected(env, c, info, config, now))
  {}

  lemma {:induction false} LogBatchOpensNothing(c: Ctl, ids: seq<nat>)
    ensures OpensNothing(c, OnLogBatch(c, ids))
    decreases |ids|
  {
    if ids != [] { LogBatchOpensNothing(c, ids[..|ids| - 1]); }
  }

  lemma FrameOpensNothing(env: Env, c: Ctl, f: Frame, now: int)
    ensures OpensNothing(c, OnTelemetry(env, c, f, now))
  {
    hide PlayingFrame, EndPlay;
    var i := TakenIn(c, f);
    PlayingOpensNothing(env, i, f, now);
    EndOpensNothing(env, i, now);
  }

  lemma PlayingOpensNothing(env: Env, c: Ctl, f: Frame, now: int)
    ensures OpensNothing(c, PlayingFrame(env, c, f, now))
  {
    hide Attempted, Changes, Flushed;
    AttemptedSamePairing(env, c, f, now);
  }

  lemma EndOpensNothing(env: Env, c: Ctl, now: int)
    ensures OpensNothing(c, EndPlay(env, c, now))
  {
    hide FinishAttempt;
  }

  lemma AttemptedSamePairing(env: Env, c: Ctl, f: Frame, now: int)
    ensures Attempted(env, c, f, now).pairing == c.pairing
  {
    hide AttemptFrame;
  }

  lemma TosuConnectionOpensNothing(env: Env, c: Ctl, connected: bool, now: int)
    ensures OpensNothing(c, OnTosuConnection(env, c, connected, now))
  {
    hide TosuGonePlay;
  }

  lemma TickPartsOpenNothing(env: Env, c: Ctl, at: int)
    ensures OpensNothing(c, TickCooldown(c, at)) && OpensNothing(c, TickStatus(c, at))
    ensures OpensNothing(c, TickData(env, c, at)) && OpensNothing(c, TickPeriodic(c, at))
    ensures OpensNothing(c, TickTapStats(c, at)) && OpensNothing(c, TickBackup(c, at))
  {
    hide TickPlay, Changes, Flushed;
  }

  lemma TickOpensNothing(env: Env, c: Ctl, at: int)
    ensures OpensNothing(c, OnTick(env, c, at))
  {
    hide TickCooldown, TickStatus, TickData, TickPeriodic, TickTapStats, TickBackup;
    var cool := TickCooldown(c, at);
    var status := TickStatus(cool.c, at);
    var data := TickData(env, status.c, at);
    var periodic := TickPeriodic(data.c, at);
    var stats := TickTapStats(periodic.c, at);
    TickPartsOpenNothing(env, c, at);
    TickPartsOpenNothing(env, cool.c, at);
    TickPartsOpenNothing(env, status.c, at);
    TickPartsOpenNothing(env, data.c, at);
    TickPartsOpenNothing(env, periodic.c, at);
    TickPartsOpenNothing(env, stats.c, at);
  }

  lemma OthersOpenNothing(env: Env, c: Ctl, e: Event, now: int)
    requires !e.DeviceStatus? && !e.DeviceDisconnected?
    ensures OpensNothing(c, OnEvent(env, c, e, now))
  {
    hide OnConnected, OnLogBatch, OnTelemetry, OnTosuConnection, OnTick, OnTosuKeys, OnPadPresses;
    match e
    case DeviceConnected(info, config) => ConnectOpensNothing(env, c, info, config, now);
    case DeviceLogBatch(ids) => LogBatchOpensNothing(c, ids);
    case TosuTelemetry(f) => FrameOpensNothing(env, c, f, now);
    case TosuConnectionChanged(connected) => TosuConnectionOpensNothing(env, c, connected, now);
    case Tick(at) => TickOpensNothing(env, c, at);
    case _ =>
  }

  /** How often the page was opened since the pad was last lost. */
  datatype Opened = Opened(c: Ctl, times: nat)

  function Open(env: Env, w: Opened, t: Turn): Opened {
    var o := Apply(env, w.c, t.shared, t.event, t.now);
    Opened(o.c, if t.event.DeviceDisconnected? then 0 else w.times + Launches(o.actions))
  }

  function OpenAll(env: Env, w: Opened, turns: seq<Turn>): Opened
    decreases |turns|
  {
    if turns == [] then w else Open(env, OpenAll(env, w, turns[..|turns| - 1]), turns[|turns| - 1])
  }

  predicate OnceEach(w: Opened) { w.times == if w.c.pairing.calGuiLaunched then 1 else 0 }

  lemma OpenKeeps(env: Env, w: Opened, t: Turn)
    requires OnceEach(w)
    ensures OnceEach(Open(env, w, t))
    ensures !t.event.DeviceDisconnected? && Open(env, w, t).times > w.times ==>
              && t.event.DeviceStatus? && t.shared.CanCalibrate()
              && t.event.heCalibration.Some? && t.event.heCalibration.value.Uncalibrated()
  {
    hide OnEvent;
    var c := Remember(w.c.(state := t.shared));
    if t.event.DeviceStatus? {
      StatusOpens(env, c, t.event, t.now);
    } else if t.event.DeviceDisconnected? {
      Forgets(env, c, t.now);
    } else {
      OthersOpenNothing(env, c, t.event, t.now);
      NoLaunches(OnEvent(env, c, t.event, t.now).actions);
    }
  }

  lemma StatusOpens(env: Env, c: Ctl, e: Event, now: int)
    requires e.DeviceStatus?
    ensures var o := OnEvent(env, c, e, now);
            var opens := && c.state.CanCalibrate() && !c.pairing.calGuiLaunched
                         && e.heCalibration.Some? && e.heCalibration.value.Uncalibrated();
            && Launches(o.actions) == (if opens then 1 else 0)
            && o.c.pairing.calGuiLaunched == (c.pairing.calGuiLaunched || opens)
  {
    assert [LaunchGuiCalibration][..0] == [];
  }

  lemma Forgets(env: Env, c: Ctl, now: int)
    ensures !OnEvent(env, c, DeviceDisconnected, now).c.pairing.calGuiLaunched
  {}

  /** Over every run, the calibration page is opened at most once between two losses of the
      pad, and only by the report of a pad that said it can calibrate and is not calibrated. */
  lemma {:induction false} CalibrationOpensOnce(env: Env, w: Opened, turns: seq<Turn>)
    requires OnceEach(w)
    ensures OpenAll(env, w, turns).times <= 1 && OnceEach(OpenAll(env, w, turns))
    decreases |turns|
  {
    hide Open;
    if turns != [] {
      CalibrationOpensOnce(env, w, turns[..|turns| - 1]);
      OpenKeeps(env, OpenAll(env, w, turns[..|turns| - 1]), turns[|turns| - 1]);
    }
  }

  // ---- Layouts ----------------------------------------------------------------------------------

  predicate Mentions(layouts: seq<(Screen, Layout)>, screen: Screen) { exists p :: p in layouts && p.0 == screen }

  /** The reopened database's layouts replace those of their screens and no others. */
  lemma {:induction false} ReopenedLayouts(layouts: seq<(Screen, Layout)>, more: seq<(Screen, Layout)>, screen: Screen)
    ensures !Mentions(more, screen) ==> LayoutOf(InsertLayouts(layouts, more), screen) == LayoutOf(layouts, screen)
    ensures Mentions(more, screen) ==>
              var l := LayoutOf(InsertLayouts(layouts, more), screen);
              l.Some? && (screen, l.value) in more
    decreases |more|
  {
    if more != [] {
      var n := |more| - 1;
      ReopenedLayouts(layouts, more[..n], screen);
      InsertedLayout(InsertLayouts(layouts, more[..n]), more[n], screen);
      assert more == more[..n] + [more[n]];
      if more[n].0 == screen { assert more[n] == (screen, more[n].1); }
    }
  }
}
