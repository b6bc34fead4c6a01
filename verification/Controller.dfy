/** The runtime controller in its own form (desktop/daemon/src/runtime.rs): an
    object whose methods update its fields and return the actions in order. Each
    method is tied to the function of Runtime.dfy that says what it does. */
module Controller {
  import opened Options
  import opened Counters
  import opened TapRate
  import opened Daemon
  import opened Telemetry
  import opened Runtime

  /** The state shared with the IPC handlers, under its lock. */
  class SharedState {
    var state: DaemonState

    constructor (s: DaemonState)
      ensures state == s
    {
      state := s;
    }
  }

  class RuntimeController {
    const env: Env
    const data: DataSync
    /** The copy worked on during an event; between events nothing reads it. */
    var state: DaemonState
    var clock: Clock
    var tap: Tap
    var show: Show
    var pairing: Pairing

    function PlayNow(): Play
      reads this, data
    {
      Play(tap, data.View(), state.tap)
    }

    function View(): Ctl
      reads this, data
    {
      Ctl(state, clock, tap, data.View(), show, pairing)
    }

    constructor (env: Env, initial: DaemonState, existing: set<string>, playId: nat, now: int)
      ensures this.env == env && fresh(data) && View() == StartOf(initial, existing, playId, now)
    {
      this.env := env;
      data := new DataSync();
      state := initial;
      clock := Clock(None, None, false, now - HOST_STATUS_INTERVAL, now, now, now);
      tap := Tap(None, None, false, [], None, now, false, None, Undecided, []);
      show := Show(playId, None, false, false);
      pairing := WithKnown(Pairing(None, existing, existing != {} || initial.deviceInfo.Some?, None, None, false,
                                   None, false),
                           initial.deviceInfo);
    }

    // ---- The attempt ---------------------------------------------------------------

    method PublishTapAttempt()
      modifies this`state, data
      ensures PlayNow() == PublishAttempt(env, old(PlayNow()))
      ensures state == old(state).(tap := state.tap)
    {
      data.Ingest(env.live(tap.attempt));
      state := state.(tap := state.tap.(current := tap.attempt));
    }

    method PublishTapHistory(force: bool)
      modifies this`tap, data
      ensures PlayNow() == PublishHistory(env, old(PlayNow()), force)
    {
      var history := state.tap.history;
      if force || history != tap.published {
        data.Ingest(env.history(history));
        tap := tap.(published := history);
      }
    }

    method CapUnsavedAttempts()
      modifies this`tap
      ensures tap == old(tap).(unsaved := CapUnsaved(old(tap.unsaved)))
    {
      var excess := Max(|tap.unsaved| - MAX_UNSAVED_ATTEMPTS, 0);
      if excess > 0 { tap := tap.(unsaved := tap.unsaved[excess..]); }
    }

    /** Attempts that could not be saved, ahead of anything that ended since. */
    method RequeueTapAttempts(attempts: seq<Attempt>)
      modifies this`tap
      ensures tap == Requeued(old(tap), attempts)
    {
      tap := tap.(unsaved := attempts + tap.unsaved);
      CapUnsavedAttempts();
    }

    method FinishTapAttempt()
      modifies this`tap, this`state, data
      ensures PlayNow() == FinishAttempt(env, old(PlayNow()))
      ensures state == old(state).(tap := state.tap)
    {
      if tap.attempt.None? { return; }
      var stats := tap.attempt.value;
      tap := tap.(attempt := None);
      data.Ingest(env.ended(stats));
      if Recordable(stats) {
        tap := tap.(unsaved := tap.unsaved + [stats]);
        CapUnsavedAttempts();
      }
      state := state.(tap := state.tap.(current := None, last := Some(stats), unsavedAttempts := |tap.unsaved|));
    }

    method StartTapAttempt(beatmap: string, now: int)
      modifies this`tap, this`state, data
      ensures PlayNow() == StartAttempt(env, old(PlayNow()), beatmap, now)
      ensures state == old(state).(tap := state.tap)
    {
      FinishTapAttempt();
      tap := tap.(source := Undecided, pending := []);
      tap := tap.(attempt := Some(Attempt(now, beatmap, [], false)));
      PublishTapAttempt();
    }

    method FeedTap(inputs: seq<TapInput>)
      modifies this`tap
      ensures tap == Feed(old(tap), inputs)
    {
      if tap.attempt.Some? { tap := tap.(attempt := Some(tap.attempt.value.Fed(inputs))); }
    }

    /** The held presses, one by one, in the order tosu counted them. */
    method FeedPending()
      modifies this`tap
      ensures tap == Feed(old(tap), TosuInputs(old(tap.pending)))
    {
      var held := tap.pending;
      ghost var before := tap;
      FeedNothing(before);
      for i := 0 to |held|
        invariant tap == Feed(before, TosuInputs(held[..i]))
      {
        var (d1, d2, at) := held[i];
        FeedTap([Press(false, d1, d2, at)]);
        FeedStep(before, held, i);
      }
      assert held[..|held|] == held;
    }

    method WatchAnotherPlay()
      modifies this`tap, this`state, data
      ensures PlayNow() == WatchReplay(env, old(PlayNow()))
      ensures state == old(state).(tap := state.tap)
    {
      hide PublishAttempt;
      if tap.attempt.None? || tap.attempt.value.replay { return; }
      tap := tap.(attempt := Some(tap.attempt.value.(replay := true)));
      if tap.source != Tosu {
        ghost var marked := tap;
        FeedTap([CoarseTiming]);
        FeedPending();
        FeedTwice(marked, [CoarseTiming], TosuInputs(marked.pending));
        tap := tap.(source := Tosu, pending := []);
      }
      PublishTapAttempt();
    }

    /** tosu counts presses the pad does not: shown from tosu, not kept as ours. */
    method TakePendingAsReplay()
      modifies this`tap, this`state, data
      ensures PlayNow() == PublishAttempt(env, old(PlayNow()).(tap := FromPending(old(tap))))
      ensures state == old(state).(tap := state.tap)
    {
      hide PublishAttempt;
      ghost var held := tap;
      tap := tap.(source := Tosu);
      if tap.attempt.Some? {
        FeedTap([CoarseTiming]);
        FeedPending();
        FeedTwice(held.(source := Tosu), [CoarseTiming], TosuInputs(held.pending));
        tap := tap.(attempt := Some(tap.attempt.value.(replay := true)));
        tap := tap.(pending := []);
      }
      PublishTapAttempt();
    }

    method CountTosuPresses(d1: nat, d2: nat, at: int)
      modifies this`tap, this`state, data
      ensures PlayNow() == TosuPresses(env, old(PlayNow()), PadTimesPresses(old(View())), d1, d2, at)
      ensures state == old(state).(tap := state.tap)
    {
      hide PublishAttempt, FromPending;
      if tap.source == Pad { return; }
      if tap.source == Undecided && tap.padPressTimes && state.deviceConnected && !state.foreignPad {
        tap := tap.(pending := tap.pending + [(d1, d2, at)]);
        if Seen(tap.pending) >= TOSU_ONLY_PRESSES { TakePendingAsReplay(); }
        return;
      }
      StandIn(d1, d2, at);
      if tap.attempt.Some? { PublishTapAttempt(); }
    }

    /** tosu's counters where the pad does not time its presses. */
    method StandIn(d1: nat, d2: nat, at: int)
      requires tap.source != Pad
      modifies this`tap
      ensures tap == TosuPressed(old(tap), false, d1, d2, at)
    {
      hide FromPending;
      if tap.source == Undecided {
        ghost var before := tap;
        tap := tap.(source := Tosu);
        FeedTap([CoarseTiming]);
        FeedTwice(before.(source := Tosu), [CoarseTiming], [Press(false, d1, d2, at)]);
        assert [CoarseTiming] + [Press(false, d1, d2, at)] == [CoarseTiming, Press(false, d1, d2, at)];
      }
      FeedTap([Press(false, d1, d2, at)]);
    }

    method FeedPadPresses(epoch: int, origin: int, presses: seq<(nat, nat)>) returns (fed: bool)
      modifies this`tap
      ensures tap == Feed(old(tap), PadInputs(epoch, origin, presses))
      ensures fed <==> PadInputs(epoch, origin, presses) != []
    {
      ghost var before := tap;
      fed := false;
      FeedNothing(before);
      for i := 0 to |presses|
        invariant tap == Feed(before, PadInputs(epoch, origin, presses[..i]))
        invariant fed <==> PadInputs(epoch, origin, presses[..i]) != []
      {
        var (key, us) := presses[i];
        var at := epoch + us;
        PadInputsStep(before, epoch, origin, presses, i);
        if at >= origin {
          if key == 1 { FeedTap([Press(true, 1, 0, at)]); } else { FeedTap([Press(true, 0, 1, at)]); }
          fed := true;
        }
      }
      assert presses[..|presses|] == presses;
    }

    method PadPressesFrom(epoch: int, presses: seq<(nat, nat)>)
      modifies this`tap, this`state, data
      ensures PlayNow() == PadFed(env, old(PlayNow()), PadFeeds(old(tap), old(state.mode) == Playing, epoch, presses))
      ensures state == old(state).(tap := state.tap)
    {
      hide PublishAttempt, PadInputs;
      if state.mode != Playing || tap.source == Tosu || tap.attempt.None? { return; }
      ghost var before := tap;
      FeedNothing(before);
      var fed := FeedPadPresses(epoch, tap.attempt.value.origin, presses);
      if fed {
        tap := tap.(source := Pad, pending := []);
        PublishTapAttempt();
      }
    }

    method PadPressBatch(nowUs: nat, presses: seq<(nat, nat)>, received: int)
      modifies this`tap, this`state, data
      ensures PlayNow() == OnPadPresses(env, old(PlayNow()), old(state.mode) == Playing, nowUs, presses, received)
      ensures state == old(state).(tap := state.tap)
    {
      hide PadFed, PadFeeds;
      var zero := received - nowUs;
      if zero < env.earliest { return; }
      var epoch := if tap.padEpoch.Some? then tap.padEpoch.value else zero;
      if zero < epoch { epoch := zero; }
      tap := tap.(padEpoch := Some(epoch));
      PadPressesFrom(epoch, presses);
    }

    method KeyCounts(k1: nat, k2: nat, at: int)
      modifies this`tap, this`state, data
      ensures PlayNow() == OnTosuKeys(env, old(PlayNow()), old(state.mode) == Playing,
          PadTimesPresses(old(View())), k1, k2, at)
      ensures state == old(state).(tap := state.tap)
    {
      hide TosuPresses;
      var prev := tap.lastKeys;
      tap := tap.(lastKeys := Some((k1, k2)));
      if state.mode == Playing && tap.attempt.Some? && prev.Some? {
        var d1 := Delta(k1, prev.value.0);
        var d2 := Delta(k2, prev.value.1);
        if d1 > 0 || d2 > 0 { CountTosuPresses(d1, d2, at); }
      }
    }

    // ---- tosu's frames ---------------------------------------------------------------

    method ResultsScreen(f: Frame) returns (actions: seq<Action>)
      modifies this`show
      ensures show == ArmResults(old(show), f)
      ensures actions == ResultsAnimation(env, old(View()), f)
    {
      actions := [];
      if f.isPlaying {
        show := show.(resultsArmed := !f.otherPlayer && !f.failed, onResultsScreen := false);
        return;
      }
      if f.grade.None? {
        show := show.(resultsArmed := false, onResultsScreen := false);
        return;
      }
      var seen := show.onResultsScreen;
      show := show.(onResultsScreen := true);
      if seen { return; }
      var armed := show.resultsArmed;
      show := show.(resultsArmed := false);
      if !armed { return; }
      var trigger := env.trigger(f.grade.value);
      if trigger.None? { return; }
      var animation := state.config.animations.Get(trigger.value);
      if animation != NO_ANIMATION && state.deviceConnected && !state.foreignPad {
        actions := [PlayAnimation(animation, f.grade.value)];
      }
    }

    method MoveAttempt(f: Frame, newAttempt: bool, now: int)
      modifies this`tap, this`state, data
      ensures PlayNow() == AttemptMoves(env, old(PlayNow()), f, newAttempt, now)
      ensures state == old(state).(tap := state.tap)
    {
      hide StartAttempt, FinishAttempt, Feed;
      if newAttempt {
        tap := tap.(lastFailed := f.failed);
        StartTapAttempt(f.beatmap, now);
      } else if f.failed && !tap.lastFailed {
        tap := tap.(lastFailed := true);
        FinishTapAttempt();
      } else {
        FeedTap([BeatmapIs(f.beatmap)]);
      }
    }

    method AttemptAfterFrame(f: Frame, newAttempt: bool, now: int)
      modifies this`tap, this`state, data
      ensures PlayNow() == AttemptFrame(env, old(PlayNow()), f, newAttempt, now)
      ensures state == old(state).(tap := state.tap)
    {
      hide AttemptMoves, WatchReplay, Feed;
      MoveAttempt(f, newAttempt, now);
      if f.clock.Some? { FeedTap([SongMoved(f.clock.value, now)]); }
      if f.otherPlayer { WatchAnotherPlay(); }
    }

    method AnnounceAttempt(now: int) returns (actions: seq<Action>)
      modifies this`clock, data
      ensures Out(View(), actions) == Announce(old(View()), now)
    {
      hide Changes, Flushed;
      actions := [SendHostStatus(true, true, show.playId, state.osuActive)];
      clock := clock.(lastHostStatus := now);
      var changes := data.TakeChanges(true, state.config.gameplayDisplayHz, true, now);
      if changes != [] && !state.foreignPad { actions := actions + [SendDataUpdate(changes)]; }
    }

    method PlayingTelemetry(f: Frame, now: int) returns (actions: seq<Action>)
      modifies this, data
      ensures Out(View(), actions) == PlayingFrame(env, old(View()), f, now)
    {
      hide AttemptFrame, Announce;
      actions := [];
      var newAttempt := state.mode != Playing || (show.lastLiveMs.Some?
          && f.liveMs < show.lastLiveMs.value - RETRY_REWIND_MS);
      show := show.(lastLiveMs := Some(f.liveMs));
      if newAttempt { show := show.(playId := (show.playId + 1) % U32); }
      AttemptAfterFrame(f, newAttempt, now);
      if state.mode != Playing {
        state := state.(mode := Playing);
        clock := clock.(cooldownDeadline := None, backupDeadline := None, backupAfterSync := false);
        actions := [SetStorageWritesAllowed(false)];
      }
      if newAttempt && state.deviceConnected {
        var told := AnnounceAttempt(now);
        actions := actions + told;
      }
    }

    method EndOfPlay(now: int) returns (actions: seq<Action>)
      modifies this, data
      ensures Out(View(), actions) == EndPlay(env, old(View()), now)
    {
      hide FinishAttempt;
      FinishTapAttempt();
      show := show.(lastLiveMs := None);
      state := state.(mode := Cooldown);
      clock := clock.(cooldownDeadline := Some(now + COOLDOWN_DURATION));
      actions := [SetStorageWritesAllowed(false)];
      if state.deviceConnected {
        actions := actions + [SendHostStatus(true, false, show.playId, state.osuActive)];
      }
    }

    method Telemetry(f: Frame, now: int) returns (actions: seq<Action>)
      modifies this, data
      ensures Out(View(), actions) == OnTelemetry(env, old(View()), f, now)
    {
      hide PlayingFrame, EndPlay, ResultsAnimation, ArmResults;
      var mode := state.mode;
      data.Ingest(f.values);
      state := state.(uiValues := f.values);
      actions := [];
      if f.isPlaying {
        actions := PlayingTelemetry(f, now);
      } else if mode == Playing {
        actions := EndOfPlay(now);
      }
      var animation := ResultsScreen(f);
      actions := actions + animation;
    }

    method TosuLost(now: int) returns (actions: seq<Action>)
      modifies this, data
      ensures Out(View(), actions) == TosuGone(env, old(View()), now)
    {
      hide FinishAttempt, PublishHistory;
      var wasPlaying := state.mode == Playing;
      actions := [];
      FinishTapAttempt();
      tap := tap.(lastKeys := None);
      if wasPlaying {
        state := state.(mode := Cooldown);
        clock := clock.(cooldownDeadline := Some(now + COOLDOWN_DURATION));
        actions := [SetStorageWritesAllowed(false)];
        show := show.(lastLiveMs := None);
      }
      data.Clear();
      data.Ingest(env.live(None));
      PublishTapHistory(true);
    }

    method TosuConnection(connected: bool, now: int) returns (actions: seq<Action>)
      modifies this, data
      ensures Out(View(), actions) == OnTosuConnection(env, old(View()), connected, now)
    {
      hide TosuGone;
      state := state.(tosuConnected := connected);
      actions := [];
      if !connected { actions := TosuLost(now); }
      if state.deviceConnected {
        actions := actions + [SendHostStatus(connected, false, show.playId, state.osuActive)];
      }
      clock := clock.(lastHostStatus := now);
    }

    method OsuActive(active: bool, now: int) returns (actions: seq<Action>)
      modifies this`state, this`clock
      ensures Out(View(), actions) == OnOsuActive(old(View()), active, now)
    {
      actions := [];
      state := state.(osuActive := active);
      if state.deviceConnected {
        actions := [SendHostStatus(state.tosuConnected, state.mode == Playing, show.playId, active)];
        clock := clock.(lastHostStatus := now);
      }
    }

    // ---- The pad ---------------------------------------------------------------------

    method AdoptPadConfig(config: Option<DeviceConfig>) returns (actions: seq<Action>)
      modifies this`state
      ensures Out(View(), actions) == AdoptConfig(env, old(View()), config)
    {
      hide Adopted;
      actions := [];
      if config.Some? && !state.nvsRestorePending {
        var adopted := Adopted(env, config.value, state.config);
        state := state.(config := adopted);
        actions := [SaveDeviceConfig(adopted)];
      }
    }

    method JudgePadOwner(info: DeviceInfo) returns (actions: seq<Action>)
      modifies this`state, this`pairing
      ensures Out(View(), actions) == JudgeOwner(old(View()), info)
    {
      hide OwnershipOf;
      actions := [];
      var owner := if pairing.reportedOwner.Some? then pairing.reportedOwner.value else [];
      pairing := pairing.(reportedOwner := None);
      match OwnershipOf(state.installId, owner) {
        case NoIdentity => state := state.(pendingTakeover := None, foreignPad := false);
        case Ours => state := state.(pendingTakeover := None, foreignPad := false);
        case Unclaimed =>
          state := state.(pendingTakeover := None, foreignPad := false);
          actions := [ClaimOwnership];
        case Someone =>
          state := state.(pendingTakeover := Some(PendingTakeover(info.deviceId, state.counters.key1,
              state.counters.key2)),
                          foreignPad := true);
          actions := [TakeOverIfPadIsAhead];
      }
    }

    method EnterPad(info: DeviceInfo) returns (actions: seq<Action>)
      modifies this`pairing
      ensures Out(View(), actions) == Enter(old(View()), info)
    {
      actions := [];
      pairing := pairing.(known := pairing.known + {info.deviceId});
      if state.mode == Idle {
        actions := [SaveInitialDeviceState(info, state.counters), TouchDeviceLastSeen(info.deviceId)];
      } else {
        pairing := pairing.(pendingLastSeen := Some(info.deviceId));
      }
    }

    method RegisterPad(info: DeviceInfo) returns (actions: seq<Action>)
      modifies this`state, this`pairing
      ensures Out(View(), actions) == Register(env, old(View()), info)
    {
      hide Enter;
      actions := [];
      if info.deviceId !in pairing.known {
        if pairing.known == {} && !pairing.hasInitialDbEntry {
          pairing := pairing.(hasInitialDbEntry := true);
          actions := EnterPad(info);
        } else if state.counters.generation <= 1 && state.counters.key1 < 1000 && state.counters.key2 < 1000
                  && PcIsAhead(state.pcCounters, state.counters) {
          state := state.(pendingReplacement := Some(if pairing.known == {} then "previous"
              else env.firstKnown(pairing.known)));
        } else {
          actions := EnterPad(info);
        }
      } else if state.mode == Idle {
        actions := [TouchDeviceLastSeen(info.deviceId)];
      } else {
        pairing := pairing.(pendingLastSeen := Some(info.deviceId));
      }
    }

    method SendLayouts() returns (actions: seq<Action>)
      ensures actions == Layouts(state.customLayouts)
    {
      actions := [];
      for i := 0 to |state.customLayouts|
        invariant actions == Layouts(state.customLayouts[..i])
      {
        var (screen, layout) := state.customLayouts[i];
        actions := actions + [SendLayout(screen, layout)];
      }
      assert state.customLayouts[..|state.customLayouts|] == state.customLayouts;
    }

    method GreetPad(sendConfig: bool, now: int) returns (actions: seq<Action>)
      modifies this`clock, this`pairing, data
      ensures Out(View(), actions) == Greet(old(View()), sendConfig, now)
    {
      hide Layouts, SyncsOnConnect;
      actions := [SendTimeSync, RequestDeviceStatus];
      if sendConfig && !state.foreignPad { actions := actions + [SendConfig(state.config)]; }
      actions := actions + [SendHostStatus(state.tosuConnected, state.mode == Playing, show.playId, state.osuActive)];
      data.ResetSent();
      if !state.foreignPad {
        var layouts := SendLayouts();
        actions := actions + layouts;
      }
      if SyncsOnConnect(state) { actions := actions + [TriggerSync]; }
      clock := clock.(lastPeriodicSync := now, lastPeriodicTimeSync := now);
      pairing := pairing.(lastSyncedCounters := Some(state.counters));
    }

    method IncompatiblePad(info: DeviceInfo)
      modifies this`state, this`pairing
      ensures View() == Incompatible(old(View()), info)
    {
      var before := pairing.preHelloCounters;
      pairing := pairing.(preHelloCounters := None);
      state := state.(incompatible := Some(info.protocolVersion), deviceConnected := false,
                      countersSource := FromPc, espCounters := None);
      if before.Some? { state := state.(counters := before.value); }
      pairing := pairing.(reportedOwner := None);
    }

    method OwnershipReported(owner: OwnerId)
      modifies this`pairing
      ensures View() == OnOwnership(old(View()), owner)
    {
      pairing := pairing.(reportedOwner := Some(owner), preHelloCounters := Some(state.counters));
    }

    method Connected(info: DeviceInfo, config: Option<DeviceConfig>, now: int) returns (actions: seq<Action>)
      modifies this, data
      ensures Out(View(), actions) == OnConnected(env, old(View()), info, config, now)
    {
      hide AdoptConfig, JudgeOwner, Register, Greet, NvsWiped, Incompatible;
      if info.protocolVersion != DEVICE_PROTOCOL_VERSION {
        IncompatiblePad(info);
        return [];
      }
      var wiped := NvsWiped(View(), info);
      pairing := pairing.(preHelloCounters := None);
      state := state.(incompatible := None, deviceConnected := true, countersSource := FromDevice,
                      nvsRestorePending := wiped);
      var adopted := AdoptPadConfig(config);
      state := state.(deviceInfo := Some(info), espCounters := Some(state.counters));
      var judged := JudgePadOwner(info);
      var registered := RegisterPad(info);
      var greeted := GreetPad(config.None? || wiped, now);
      actions := adopted + judged + registered + greeted;
    }

    method Disconnected()
      modifies this
      ensures View() == OnDisconnected(old(View()))
    {
      state := state.(deviceConnected := false, countersSource := FromPc, espCounters := None,
                      incompatible := None, pendingTakeover := None, foreignPad := false,
                      heCalibration := None, latestHeProgress := None);
      tap := tap.(padPressTimes := false, padEpoch := None);
      pairing := pairing.(reportedOwner := None, preHelloCounters := None, calGuiLaunched := false);
    }

    method CountersReported(n: CounterState)
      modifies this`state
      ensures View() == OnCounters(old(View()), n)
    {
      var counters := state.counters.(key1 := n.key1, key2 := n.key2);
      if n.deviceId != "" {
        counters := counters.(deviceId := n.deviceId, generation := n.generation);
      } else {
        counters := counters.(map1 := n.map1, map2 := n.map2);
      }
      state := state.(counters := counters, espCounters := Some(counters));
    }

    method StatusReported(latency: Latency, calibration: Option<HeCalibration>) returns (actions: seq<Action>)
      modifies this`state, this`pairing
      ensures Out(View(), actions) == OnStatus(old(View()), latency, calibration)
    {
      actions := [];
      state := state.(latency := Some(latency));
      if !state.CanCalibrate() {
        state := state.(heCalibration := None);
        return;
      }
      var uncalibrated := calibration.Some? && calibration.value.Uncalibrated();
      state := state.(heCalibration := calibration);
      if uncalibrated && !pairing.calGuiLaunched {
        pairing := pairing.(calGuiLaunched := true);
        actions := [LaunchGuiCalibration];
      }
    }

    method CalibrationProgressed(progress: HeProgress) returns (actions: seq<Action>)
      modifies this`state
      ensures Out(View(), actions) == OnHeProgress(old(View()), progress)
    {
      actions := [];
      if !state.deviceConnected || !state.CanCalibrate() { return; }
      state := state.(latestHeProgress := Some(progress));
      if progress.success { actions := [RequestDeviceStatus]; }
    }

    method LogBatch(ids: seq<nat>) returns (actions: seq<Action>)
      modifies this`state
      ensures Out(View(), actions) == OnLogBatch(old(View()), ids)
    {
      actions := [];
      ghost var before := View();
      for i := 0 to |ids|
        invariant Out(View(), actions) == OnLogBatch(before, ids[..i])
      {
        assert ids[..i + 1][..i] == ids[..i];
        if ReportsErasure(state, ids[i]) {
          state := state.(nvsRestorePending := true);
          if state.mode == Idle && state.MayTouchPad() { actions := actions + [TriggerSync]; }
        }
        actions := actions + [PushEspLog(ids[i])];
      }
      assert ids[..|ids|] == ids;
    }

    // ---- The tick --------------------------------------------------------------------

    method CooldownTick(at: int) returns (actions: seq<Action>)
      modifies this`state, this`clock
      ensures Out(View(), actions) == TickCooldown(old(View()), at)
    {
      actions := [];
      if state.mode == Cooldown && clock.cooldownDeadline.Some? && at >= clock.cooldownDeadline.value {
        if !state.MayTouchPad() {
          state := state.(mode := Idle);
          clock := clock.(cooldownDeadline := None);
          actions := [SetStorageWritesAllowed(true)];
        } else {
          state := state.(mode := Sync);
          clock := clock.(cooldownDeadline := None);
          clock := clock.(backupAfterSync := true);
          actions := [SetStorageWritesAllowed(true), TriggerSync];
        }
      }
    }

    method StatusTick(at: int) returns (actions: seq<Action>)
      modifies this`clock
      ensures Out(View(), actions) == TickStatus(old(View()), at)
    {
      actions := [];
      if Elapsed(at, clock.lastStatusPoll) >= STATUS_POLL_INTERVAL {
        clock := clock.(lastStatusPoll := at);
        if state.deviceConnected { actions := [RequestDeviceStatus]; }
      }
      if state.deviceConnected && Elapsed(at, clock.lastHostStatus) >= HOST_STATUS_INTERVAL {
        clock := clock.(lastHostStatus := at);
        actions := actions + [SendHostStatus(state.tosuConnected, state.mode == Playing, show.playId, state.osuActive)];
      }
    }

    method RatesTick(at: int)
      modifies this`tap, this`state, data
      ensures PlayNow() == TickPlay(env, old(PlayNow()), at)
      ensures state == old(state).(tap := state.tap)
    {
      hide PublishAttempt, PublishHistory;
      if tap.attempt.Some? {
        FeedTap([Advanced(at)]);
        PublishTapAttempt();
      }
      PublishTapHistory(false);
      state := state.(tap := state.tap.(unsavedAttempts := |tap.unsaved|));
    }

    method DataTick(at: int) returns (actions: seq<Action>)
      modifies this`tap, this`state, data
      ensures Out(View(), actions) == TickData(env, old(View()), at)
    {
      hide TickPlay, Changes, Flushed;
      actions := [];
      RatesTick(at);
      if state.deviceConnected && !state.foreignPad {
        var changes := data.TakeChanges(state.mode == Playing, state.config.gameplayDisplayHz, false, at);
        if changes != [] { actions := [SendDataUpdate(changes)]; }
      }
    }

    method PeriodicTick(at: int) returns (actions: seq<Action>)
      modifies this`clock
      ensures Out(View(), actions) == TickPeriodic(old(View()), at)
    {
      actions := [];
      if state.deviceConnected && !state.foreignPad && state.mode == Idle {
        if Elapsed(at, clock.lastPeriodicTimeSync) >= PERIODIC_TIME_SYNC {
          clock := clock.(lastPeriodicTimeSync := at);
          actions := [SendTimeSync, RequestDeviceStatus];
        }
        if Elapsed(at, clock.lastPeriodicSync) >= PERIODIC_SYNC {
          clock := clock.(lastPeriodicSync := at);
          if CountersMoved(View()) && state.storageError.None? && state.MayTouchPad() {
            actions := actions + [TriggerSync];
          }
        }
      }
    }

    method TapStatsTick(at: int) returns (actions: seq<Action>)
      modifies this`tap, this`state
      ensures Out(View(), actions) == TickTapStats(old(View()), at)
    {
      actions := [];
      if state.mode == Idle && state.storageError.None? {
        var period := if state.tap.periodUnsaved then Some(state.tap.periodDays) else None;
        if tap.unsaved != [] || period.Some? {
          actions := [SaveTapStats(tap.unsaved, period)];
          tap := tap.(unsaved := []);
          tap := tap.(lastRefresh := at);
          state := state.(tap := state.tap.(periodUnsaved := false, unsavedAttempts := 0));
        } else if Elapsed(at, tap.lastRefresh) >= TAP_HISTORY_REFRESH {
          tap := tap.(lastRefresh := at);
          actions := [RefreshTapHistory];
        }
      }
    }

    method BackupTick(at: int) returns (actions: seq<Action>)
      modifies this`clock
      ensures Out(View(), actions) == TickBackup(old(View()), at)
    {
      actions := [];
      if clock.backupDeadline.Some? {
        if state.mode != Idle {
          clock := clock.(backupDeadline := None);
        } else if at >= clock.backupDeadline.value {
          clock := clock.(backupDeadline := None);
          actions := [WriteAutoBackup];
        }
      }
    }

    method TickEvent(at: int) returns (actions: seq<Action>)
      modifies this, data
      ensures Out(View(), actions) == OnTick(env, old(View()), at)
    {
      hide TickCooldown, TickStatus, TickData, TickPeriodic, TickTapStats, TickBackup;
      var cool := CooldownTick(at);
      var status := StatusTick(at);
      var update := DataTick(at);
      var periodic := PeriodicTick(at);
      var stats := TapStatsTick(at);
      var backup := BackupTick(at);
      actions := cool + status + update + periodic + stats + backup;
    }

    // ---- Syncs and storage --------------------------------------------------------------

    method AdoptSynced(counters: CounterState, time: Option<int>, now: int)
      modifies this
      ensures View() == Synced(old(View()), counters, time, now)
    {
      state := state.(counters := counters, pcCounters := Some(counters), espCounters := Some(counters),
                      lastSyncTime := time, lastSyncError := None, nvsRestorePending := false);
      clock := clock.(lastPeriodicSync := now, lastPeriodicTimeSync := now);
      pairing := pairing.(lastSyncedCounters := Some(counters));
      if state.deviceInfo.Some? { pairing := pairing.(known := pairing.known + {state.deviceInfo.value.deviceId}); }
    }

    method SyncDone(e: Event, now: int) returns (actions: seq<Action>)
      requires e.SyncCompleted?
      modifies this
      ensures Out(View(), actions) == OnSyncCompleted(old(View()), e, now)
    {
      hide Synced;
      actions := [];
      if e.success { AdoptSynced(e.counters, e.time, now); } else { state := state.(lastSyncError := e.error); }
      if state.mode == Sync { state := state.(mode := Idle); }
      if state.mode == Idle { actions := [SetStorageWritesAllowed(true)]; }
      var armed := clock.backupAfterSync;
      clock := clock.(backupAfterSync := false);
      if armed && state.mode == Idle { clock := clock.(backupDeadline := Some(now + AUTO_BACKUP_DELAY)); }
    }

    method StorageBack(e: Event) returns (actions: seq<Action>)
      requires e.SqliteReconnected?
      modifies this`state
      ensures Out(View(), actions) == OnSqliteReconnected(old(View()), e)
    {
      actions := [RefreshTapHistory];
      var layouts := state.customLayouts;
      ghost var before := layouts;
      for i := 0 to |e.layouts|
        invariant layouts == InsertLayouts(before, e.layouts[..i])
        invariant state == old(state)
      {
        assert e.layouts[..i + 1][..i] == e.layouts[..i];
        layouts := InsertLayout(layouts, e.layouts[i]);
      }
      assert e.layouts[..|e.layouts|] == e.layouts;
      state := state.(storageError := None, customLayouts := layouts);
      if e.config.Some? { state := state.(config := e.config.value); }
      if e.stored.Some? { state := state.(pcCounters := e.stored); }
    }

    // ---- One event --------------------------------------------------------------------

    method HandleEvent(e: Event, now: int) returns (actions: seq<Action>)
      modifies this, data
      ensures Out(View(), actions) == OnEvent(env, old(View()), e, now)
    {
      hide OnConnected, OnOwnership, OnDisconnected, OnCounters, OnStatus, OnHeProgress, OnLogBatch, OnTelemetry,
        OnTosuKeys, OnPadPresses, OnTosuConnection, OnOsuActive, OnTick, OnSyncCompleted, OnSqliteReconnected;
      actions := [];
      match e {
        case DeviceConnected(info, config) => actions := Connected(info, config, now);
        case DeviceOwnership(owner) => OwnershipReported(owner);
        case DeviceDisconnected => Disconnected();
        case DeviceCounters(n) => CountersReported(n);
        case DeviceStatus(latency, calibration) => actions := StatusReported(latency, calibration);
        case DeviceHeProgress(progress) => actions := CalibrationProgressed(progress);
        case DeviceLayoutAck =>
        case DeviceLogBatch(ids) => actions := LogBatch(ids);
        case TosuTelemetry(f) => actions := Telemetry(f, now);
        case TosuKeys(k1, k2, at) => KeyCounts(k1, k2, at);
        case PadPressTimes(on) => tap := tap.(padPressTimes := on, padEpoch := None);
        case PadPresses(nowUs, presses, received) => PadPressBatch(nowUs, presses, received);
        case TosuConnectionChanged(connected) => actions := TosuConnection(connected, now);
        case OsuActiveChanged(active) => actions := OsuActive(active, now);
        case Tick(at) => actions := TickEvent(at);
        case SyncCompleted(_, _, _, _) => actions := SyncDone(e, now);
        case SqliteReconnected(_, _, _) => actions := StorageBack(e);
        case SqliteError(message) => state := state.(storageError := Some(message));
      }
    }

    /** One event against the shared state: swapped in, worked on, swapped out, all
        under its lock. `deferred` goes to the shared queue. */
    method ApplyEvent(shared: SharedState, e: Event, now: int) returns (actions: seq<Action>, deferred: Option<string>)
      modifies this, data, shared
      ensures var o := Apply(env, old(View()), old(shared.state), e, now);
              actions == o.actions && View().(state := shared.state) == o.c
      ensures var c := Remember(old(View()).(state := old(shared.state)));
              deferred == OnEvent(env, c, e, now).c.pairing.pendingLastSeen
      ensures state == old(state)
    {
      hide OnEvent, Remember, Settled;
      state, shared.state := shared.state, state;
      ghost var before := View();
      RememberAnswered();
      actions := HandleEvent(e, now);
      deferred := Settle();
      state, shared.state := shared.state, state;
      assert before == old(View()).(state := old(shared.state));
    }

    method RememberAnswered()
      modifies this`pairing
      ensures View() == Remember(old(View()))
    {
      if pairing.replacementWasPending && state.pendingReplacement.None? && state.deviceInfo.Some? {
        pairing := pairing.(known := pairing.known + {state.deviceInfo.value.deviceId});
      }
    }

    method Settle() returns (deferred: Option<string>)
      modifies this`pairing
      ensures View() == Settled(old(View())) && deferred == old(pairing.pendingLastSeen)
    {
      deferred := pairing.pendingLastSeen;
      pairing := pairing.(replacementWasPending := state.pendingReplacement.Some?, pendingLastSeen := None);
    }
  }

  // ---- Feeding in steps --------------------------------------------------------------

  lemma FeedNothing(t: Tap)
    ensures Feed(t, []) == t && TosuInputs([]) == []
  {
    if t.attempt.Some? { assert t.attempt.value.log + [] == t.attempt.value.log; }
  }

  lemma FeedTwice(t: Tap, a: seq<TapInput>, b: seq<TapInput>)
    ensures Feed(Feed(t, a), b) == Feed(t, a + b)
  {
    if t.attempt.Some? {
      assert t.attempt.value.log + a + b == t.attempt.value.log + (a + b);
    }
  }

  lemma FeedStep(t: Tap, pending: seq<(nat, nat, int)>, i: nat)
    requires i < |pending|
    ensures Feed(Feed(t, TosuInputs(pending[..i])), [Press(false, pending[i].0, pending[i].1, pending[i].2)])
         == Feed(t, TosuInputs(pending[..i + 1]))
  {
    FeedTwice(t, TosuInputs(pending[..i]), [Press(false, pending[i].0, pending[i].1, pending[i].2)]);
    assert TosuInputs(pending[..i]) + [Press(false, pending[i].0, pending[i].1,
        pending[i].2)] == TosuInputs(pending[..i + 1]);
  }

  lemma PadInputsStep(t: Tap, epoch: int, origin: int, presses: seq<(nat, nat)>, i: nat)
    requires i < |presses|
    ensures var before := PadInputs(epoch, origin, presses[..i]);
            var at := epoch + presses[i].1;
            var input := if presses[i].0 == 1 then Press(true, 1, 0, at) else Press(true, 0, 1, at);
            && PadInputs(epoch, origin, presses[..i + 1]) == (if at < origin then before else before + [input])
            && Feed(Feed(t, before), [input]) == Feed(t, before + [input])
  {
    assert presses[..i + 1][..i] == presses[..i];
    var at := epoch + presses[i].1;
    var input := if presses[i].0 == 1 then Press(true, 1, 0, at) else Press(true, 0, 1, at);
    FeedTwice(t, PadInputs(epoch, origin, presses[..i]), [input]);
  }
}
