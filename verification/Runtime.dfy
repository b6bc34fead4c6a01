/** The runtime controller (desktop/daemon/src/runtime.rs) as a function from one
    event to the next state and the ordered actions. Times are microseconds on
    the daemon's monotonic clock. Controller.dfy holds the imperative form and ties
    it to this one. */
module Runtime {
  import opened Options
  import opened Counters
  import opened TapRate
  import opened Daemon
  import opened Telemetry

  const SECOND := 1_000_000
  const COOLDOWN_DURATION := 5 * SECOND
  const HOST_STATUS_INTERVAL := SECOND
  const STATUS_POLL_INTERVAL := SECOND
  const RETRY_REWIND_MS := 2000.0
  const AUTO_BACKUP_DELAY := 20 * SECOND
  const TAP_HISTORY_REFRESH := 3600 * SECOND
  const PERIODIC_TIME_SYNC := 600 * SECOND
  const PERIODIC_SYNC := 300 * SECOND
  const MAX_UNSAVED_ATTEMPTS := 500
  const TOSU_ONLY_PRESSES := 8
  const DIAG_EVENT_NVS_ERASED := 8
  const U32 := 0x1_0000_0000

  datatype PressSource = Undecided | Pad | Tosu

  /** What the controller calls and the model does not look into: the values a
      play attempt or the history shows, the grade names, and the two places
      where a hash table's order decides. */
  datatype Env = Env(
    live: Option<Attempt> -> Update,
    ended: Attempt -> Update,
    history: Option<TapHistory> -> Update,
    trigger: string -> Option<Trigger>,
    blank: string -> bool,
    firstKnown: set<string> -> string,
    earliest: int)

  datatype Frame = Frame(
    isPlaying: bool, liveMs: real, values: Update, beatmap: string, failed: bool,
    clock: Option<SongClock>, otherPlayer: bool, grade: Option<string>)

  datatype Event =
    | DeviceConnected(info: DeviceInfo, config: Option<DeviceConfig>)
    | DeviceOwnership(owner: OwnerId)
    | DeviceDisconnected
    | DeviceCounters(counters: CounterState)
    | DeviceStatus(latency: Latency, heCalibration: Option<HeCalibration>)
    | DeviceHeProgress(progress: HeProgress)
    | DeviceLayoutAck
    | DeviceLogBatch(ids: seq<nat>)
    | TosuTelemetry(frame: Frame)
    | TosuKeys(k1: nat, k2: nat, pressedAt: int)
    | PadPressTimes(on: bool)
    | PadPresses(nowUs: nat, presses: seq<(nat, nat)>, received: int)
    | TosuConnectionChanged(connected: bool)
    | OsuActiveChanged(active: bool)
    | Tick(at: int)
    | SyncCompleted(success: bool, counters: CounterState, time: Option<int>, error: Option<string>)
    | SqliteReconnected(config: Option<DeviceConfig>, layouts: seq<(Screen, Layout)>, stored: Option<CounterState>)
    | SqliteError(message: string)

  datatype Action =
    | TakeOverIfPadIsAhead
    | SendTimeSync
    | SendConfig(config: DeviceConfig)
    | SaveDeviceConfig(config: DeviceConfig)
    | SendHostStatus(tosuConnected: bool, isPlaying: bool, playId: nat, osuActive: bool)
    | SendDataUpdate(changes: Update)
    | PlayAnimation(animation: nat, grade: string)
    | SendLayout(screen: Screen, layout: Layout)
    | TriggerSync
    | ClaimOwnership
    | RequestDeviceStatus
    | SetStorageWritesAllowed(allowed: bool)
    | SaveInitialDeviceState(info: DeviceInfo, counters: CounterState)
    | TouchDeviceLastSeen(deviceId: string)
    | PushEspLog(id: nat)
    | WriteAutoBackup
    | SaveTapStats(attempts: seq<Attempt>, period: Option<nat>)
    | RefreshTapHistory
    | LaunchGuiCalibration

  /** The deadlines and the last time each periodic thing was done. */
  datatype Clock = Clock(
    cooldownDeadline: Option<int>,
    backupDeadline: Option<int>,
    backupAfterSync: bool,
    lastHostStatus: int,
    lastStatusPoll: int,
    lastPeriodicSync: int,
    lastPeriodicTimeSync: int)

  /** The tap rate side of the controller. */
  datatype Tap = Tap(
    attempt: Option<Attempt>,
    lastKeys: Option<(nat, nat)>,
    lastFailed: bool,
    unsaved: seq<Attempt>,
    published: Option<TapHistory>,
    lastRefresh: int,
    padPressTimes: bool,
    padEpoch: Option<int>,
    source: PressSource,
    pending: seq<(nat, nat, int)>)

  /** What the results screen and the pad's play number depend on. */
  datatype Show = Show(playId: nat, lastLiveMs: Option<real>, resultsArmed: bool, onResultsScreen: bool)

  /** The pads seen so far and the one connecting now. */
  datatype Pairing = Pairing(
    lastSyncedCounters: Option<CounterState>,
    known: set<string>,
    hasInitialDbEntry: bool,
    reportedOwner: Option<OwnerId>,
    preHelloCounters: Option<CounterState>,
    replacementWasPending: bool,
    pendingLastSeen: Option<string>,
    calGuiLaunched: bool)

  datatype Ctl = Ctl(state: DaemonState, clock: Clock, tap: Tap, data: Data, show: Show, pairing: Pairing)

  /** The controller at startup: idle, nothing played, no pad. */
  function StartOf(initial: DaemonState, existing: set<string>, playId: nat, now: int): Ctl {
    Ctl(initial,
        Clock(None, None, false, now - HOST_STATUS_INTERVAL, now, now, now),
        Tap(None, None, false, [], None, now, false, None, Undecided, []),
        EMPTY,
        Show(playId, None, false, false),
        WithKnown(Pairing(None, existing, existing != {} || initial.deviceInfo.Some?, None, None, false,
                          None, false),
                  initial.deviceInfo))
  }

  function WithKnown(p: Pairing, info: Option<DeviceInfo>): Pairing {
    if info.Some? then p.(known := p.known + {info.value.deviceId}) else p
  }

  datatype Out = Out(c: Ctl, actions: seq<Action>)

  function HostStatus(c: Ctl, tosu: bool, playing: bool): Action {
    SendHostStatus(tosu, playing, c.show.playId, c.state.osuActive)
  }

  // ---- The attempt being played ---------------------------------------------------

  /** The attempt, what it puts on the pad and what the app shows of it. */
  datatype Play = Play(tap: Tap, data: Data, shown: TapState)

  function PlayOf(c: Ctl): Play { Play(c.tap, c.data, c.state.tap) }

  function WithPlay(c: Ctl, p: Play): Ctl { c.(tap := p.tap, data := p.data, state := c.state.(tap := p.shown)) }

  function CapUnsaved(unsaved: seq<Attempt>): seq<Attempt> {
    if |unsaved| > MAX_UNSAVED_ATTEMPTS then unsaved[|unsaved| - MAX_UNSAVED_ATTEMPTS..] else unsaved
  }

  function PublishAttempt(env: Env, p: Play): Play {
    p.(data := Ingested(p.data, env.live(p.tap.attempt)), shown := p.shown.(current := p.tap.attempt))
  }

  function PublishHistory(env: Env, p: Play, force: bool): Play {
    if force || p.shown.history != p.tap.published
    then p.(data := Ingested(p.data, env.history(p.shown.history)), tap := p.tap.(published := p.shown.history))
    else p
  }

  function FinishAttempt(env: Env, p: Play): Play {
    if p.tap.attempt.None? then p
    else
      var a := p.tap.attempt.value;
      var unsaved := if Recordable(a) then CapUnsaved(p.tap.unsaved + [a]) else p.tap.unsaved;
      Play(p.tap.(attempt := None, unsaved := unsaved),
           Ingested(p.data, env.ended(a)),
           p.shown.(current := None, last := Some(a), unsavedAttempts := |unsaved|))
  }

  function StartAttempt(env: Env, p: Play, beatmap: string, now: int): Play {
    var f := FinishAttempt(env, p);
    PublishAttempt(env, f.(tap := f.tap.(
      source := Undecided, pending := [], attempt := Some(Attempt(now, beatmap, [], false)))))
  }

  /** Feeds the attempt being played, if any. */
  function Feed(t: Tap, inputs: seq<TapInput>): Tap {
    if t.attempt.None? then t else t.(attempt := Some(t.attempt.value.Fed(inputs)))
  }

  function MarkReplay(t: Tap): Tap {
    if t.attempt.None? then t else t.(attempt := Some(t.attempt.value.(replay := true)))
  }

  function TosuInputs(pending: seq<(nat, nat, int)>): seq<TapInput> {
    seq(|pending|, i requires 0 <= i < |pending| => Press(false, pending[i].0, pending[i].1, pending[i].2))
  }

  /** Someone else's play is measured from tosu, whatever it was measured from before. */
  function Watched(t: Tap): Tap {
    if t.source == Tosu then MarkReplay(t)
    else Feed(MarkReplay(t), [CoarseTiming] + TosuInputs(t.pending)).(source := Tosu, pending := [])
  }

  function WatchReplay(env: Env, p: Play): Play {
    if p.tap.attempt.None? || p.tap.attempt.value.replay then p
    else PublishAttempt(env, p.(tap := Watched(p.tap)))
  }

  function Seen(pending: seq<(nat, nat, int)>): nat {
    if pending == [] then 0 else Seen(pending[..|pending| - 1]) + pending[|pending| - 1].0 + pending[|pending| - 1].1
  }

  /** Enough of tosu's presses before any of the pad's: shown from tosu, not kept
      as the player's own. */
  function FromPending(t: Tap): Tap {
    var fed := MarkReplay(Feed(t, [CoarseTiming] + TosuInputs(t.pending)));
    fed.(source := Tosu, pending := if t.attempt.Some? then [] else t.pending)
  }

  /** tosu's new presses, when the pad times its own (`padTimes`) or not. */
  function TosuPressed(t: Tap, padTimes: bool, d1: nat, d2: nat, at: int): Tap {
    match t.source
    case Pad => t
    case Tosu => Feed(t, [Press(false, d1, d2, at)])
    case Undecided =>
      if !padTimes then Feed(t, [CoarseTiming, Press(false, d1, d2, at)]).(source := Tosu)
      else
        var pending := t.pending + [(d1, d2, at)];
        if Seen(pending) < TOSU_ONLY_PRESSES then t.(pending := pending) else FromPending(t.(pending := pending))
  }

  /** Whether those presses change what is shown. */
  predicate TosuShows(t: Tap, padTimes: bool, d1: nat, d2: nat, at: int) {
    match t.source
    case Pad => false
    case Tosu => t.attempt.Some?
    case Undecided =>
      if padTimes then Seen(t.pending + [(d1, d2, at)]) >= TOSU_ONLY_PRESSES else t.attempt.Some?
  }

  function TosuPresses(env: Env, p: Play, padTimes: bool, d1: nat, d2: nat, at: int): Play {
    var q := p.(tap := TosuPressed(p.tap, padTimes, d1, d2, at));
    if TosuShows(p.tap, padTimes, d1, d2, at) then PublishAttempt(env, q) else q
  }

  /** The presses of a pad batch that fall within the attempt, stamped. */
  function PadInputs(epoch: int, origin: int, presses: seq<(nat, nat)>): seq<TapInput>
    decreases |presses|
  {
    if presses == [] then []
    else
      var n := |presses| - 1;
      var at := epoch + presses[n].1;
      var before := PadInputs(epoch, origin, presses[..n]);
      if at < origin then before
      else if presses[n].0 == 1 then before + [Press(true, 1, 0, at)]
      else before + [Press(true, 0, 1, at)]
  }

  function EpochAfter(epoch: Option<int>, zero: int): int {
    if epoch.Some? then Min(epoch.value, zero) else zero
  }

  /** What a pad batch feeds: nothing outside play, to another source's attempt,
      or from before the attempt. */
  function PadFeeds(t: Tap, playing: bool, epoch: int, presses: seq<(nat, nat)>): seq<TapInput> {
    if !playing || t.source == Tosu || t.attempt.None? then []
    else PadInputs(epoch, t.attempt.value.origin, presses)
  }

  function PadFed(env: Env, p: Play, inputs: seq<TapInput>): Play {
    if inputs == [] then p
    else PublishAttempt(env, p.(tap := Feed(p.tap, inputs).(source := Pad, pending := [])))
  }

  function OnPadPresses(env: Env, p: Play, playing: bool, nowUs: nat, presses: seq<(nat, nat)>, received: int): Play {
    var zero := received - nowUs;
    if zero < env.earliest then p
    else
      var epoch := EpochAfter(p.tap.padEpoch, zero);
      var t := p.tap.(padEpoch := Some(epoch));
      PadFed(env, p.(tap := t), PadFeeds(t, playing, epoch, presses))
  }

  function Delta(count: nat, before: nat): nat { if count >= before then count - before else count }

  function OnTosuKeys(env: Env, p: Play, playing: bool, padTimes: bool, k1: nat, k2: nat, at: int): Play {
    var prev := p.tap.lastKeys;
    var n := p.(tap := p.tap.(lastKeys := Some((k1, k2))));
    if playing && n.tap.attempt.Some? && prev.Some? then
      var d1 := Delta(k1, prev.value.0);
      var d2 := Delta(k2, prev.value.1);
      if d1 > 0 || d2 > 0 then TosuPresses(env, n, padTimes, d1, d2, at) else n
    else n
  }

  /** A playing frame starts an attempt, ends one that just failed, or says more
      about the one being played. */
  function AttemptMoves(env: Env, p: Play, f: Frame, starts: bool, now: int): Play {
    if starts then StartAttempt(env, p.(tap := p.tap.(lastFailed := f.failed)), f.beatmap, now)
    else if f.failed && !p.tap.lastFailed then FinishAttempt(env, p.(tap := p.tap.(lastFailed := true)))
    else p.(tap := Feed(p.tap, [BeatmapIs(f.beatmap)]))
  }

  function AttemptFrame(env: Env, p: Play, f: Frame, starts: bool, now: int): Play {
    var a := AttemptMoves(env, p, f, starts, now);
    var m := if f.clock.Some? then a.(tap := Feed(a.tap, [SongMoved(f.clock.value, now)])) else a;
    if f.otherPlayer then WatchReplay(env, m) else m
  }

  predicate PadTimesPresses(c: Ctl) {
    c.tap.padPressTimes && c.state.deviceConnected && !c.state.foreignPad
  }

  // ---- tosu's frames -----------------------------------------------------------------

  function ArmResults(s: Show, f: Frame): Show {
    if f.isPlaying then s.(resultsArmed := !f.otherPlayer && !f.failed, onResultsScreen := false)
    else if f.grade.None? then s.(resultsArmed := false, onResultsScreen := false)
    else if s.onResultsScreen then s
    else s.(resultsArmed := false, onResultsScreen := true)
  }

  /** Decided once per visit of the results screen, on its first frame. */
  function ResultsAnimation(env: Env, c: Ctl, f: Frame): seq<Action> {
    if f.isPlaying || f.grade.None? || c.show.onResultsScreen || !c.show.resultsArmed then []
    else
      var trigger := env.trigger(f.grade.value);
      if trigger.None? then []
      else
        var animation := c.state.config.animations.Get(trigger.value);
        if animation != NO_ANIMATION && c.state.deviceConnected && !c.state.foreignPad
        then [PlayAnimation(animation, f.grade.value)]
        else []
  }

  predicate NewAttempt(c: Ctl, f: Frame) {
    c.state.mode != Playing || (c.show.lastLiveMs.Some? && f.liveMs < c.show.lastLiveMs.value - RETRY_REWIND_MS)
  }

  function EnterPlay(c: Ctl): Out {
    if c.state.mode == Playing then Out(c, [])
    else Out(c.(state := c.state.(mode := Playing),
                clock := c.clock.(cooldownDeadline := None, backupDeadline := None, backupAfterSync := false)),
             [SetStorageWritesAllowed(false)])
  }

  /** The start of an attempt is told to the pad at once, with all that changed. */
  function Announce(c: Ctl, now: int): Out {
    var hz := c.state.config.gameplayDisplayHz;
    var changes := Changes(c.data, true, hz, true, now);
    Out(c.(clock := c.clock.(lastHostStatus := now), data := Flushed(c.data, true, hz, true, now)),
        [HostStatus(c, true, true)]
        + (if changes != [] && !c.state.foreignPad then [SendDataUpdate(changes)] else []))
  }

  /** The attempt after a playing frame, before the mode moves. */
  function Attempted(env: Env, c: Ctl, f: Frame, now: int): Ctl {
    var starts := NewAttempt(c, f);
    var a := WithPlay(c, AttemptFrame(env, PlayOf(c), f, starts, now));
    var playId := if starts then (c.show.playId + 1) % U32 else c.show.playId;
    a.(show := a.show.(lastLiveMs := Some(f.liveMs), playId := playId))
  }

  function PlayingFrame(env: Env, c: Ctl, f: Frame, now: int): Out {
    var starts := NewAttempt(c, f);
    var p := EnterPlay(Attempted(env, c, f, now));
    if starts && p.c.state.deviceConnected then
      var told := Announce(p.c, now);
      Out(told.c, p.actions + told.actions)
    else p
  }

  function EndPlay(env: Env, c: Ctl, now: int): Out {
    var e := WithPlay(c, FinishAttempt(env, PlayOf(c)));
    Out(e.(show := e.show.(lastLiveMs := None), state := e.state.(mode := Cooldown),
           clock := e.clock.(cooldownDeadline := Some(now + COOLDOWN_DURATION))),
        [SetStorageWritesAllowed(false)]
        + (if e.state.deviceConnected then [HostStatus(e, true, false)] else []))
  }

  /** A frame's values are taken in before anything else. */
  function TakenIn(c: Ctl, f: Frame): Ctl {
    c.(data := Ingested(c.data, f.values), state := c.state.(uiValues := f.values))
  }

  function FrameFirst(env: Env, c: Ctl, f: Frame, now: int): Out {
    var i := TakenIn(c, f);
    if f.isPlaying then PlayingFrame(env, i, f, now)
    else if c.state.mode == Playing then EndPlay(env, i, now)
    else Out(i, [])
  }

  function OnTelemetry(env: Env, c: Ctl, f: Frame, now: int): Out {
    var p := FrameFirst(env, c, f, now);
    Out(p.c.(show := ArmResults(p.c.show, f)), p.actions + ResultsAnimation(env, p.c, f))
  }

  /** tosu gone: its values and the attempt's go, the history stays. */
  function TosuGonePlay(env: Env, p: Play): Play {
    var f := FinishAttempt(env, p);
    PublishHistory(env, f.(tap := f.tap.(lastKeys := None), data := Ingested(Cleared(f.data), env.live(None))), true)
  }

  function TosuGone(env: Env, c: Ctl, now: int): Out {
    var f := WithPlay(c, TosuGonePlay(env, PlayOf(c)));
    if c.state.mode == Playing
    then Out(f.(state := f.state.(mode := Cooldown), show := f.show.(lastLiveMs := None),
                clock := f.clock.(cooldownDeadline := Some(now + COOLDOWN_DURATION))),
             [SetStorageWritesAllowed(false)])
    else Out(f, [])
  }

  function OnTosuConnection(env: Env, c: Ctl, connected: bool, now: int): Out {
    var t := c.(state := c.state.(tosuConnected := connected));
    var g := if connected then Out(t, []) else TosuGone(env, t, now);
    Out(g.c.(clock := g.c.clock.(lastHostStatus := now)),
        g.actions + (if g.c.state.deviceConnected then [HostStatus(g.c, connected, false)] else []))
  }

  function OnOsuActive(c: Ctl, active: bool, now: int): Out {
    var a := c.(state := c.state.(osuActive := active));
    if a.state.deviceConnected
    then Out(a.(clock := a.clock.(lastHostStatus := now)),
             [HostStatus(a, a.state.tosuConnected, a.state.mode == Playing)])
    else Out(a, [])
  }

  // ---- The pad connects -----------------------------------------------------------------

  /** A pad that speaks another protocol leaves no trace. */
  function Incompatible(c: Ctl, info: DeviceInfo): Ctl {
    var before := c.pairing.preHelloCounters;
    var counters := if before.Some? then before.value else c.state.counters;
    c.(pairing := c.pairing.(preHelloCounters := None, reportedOwner := None),
       state := c.state.(incompatible := Some(info.protocolVersion), deviceConnected := false,
                         countersSource := FromPc, espCounters := None, counters := counters))
  }

  predicate NvsWiped(c: Ctl, info: DeviceInfo) {
    && info.deviceId in c.pairing.known
    && c.state.counters.generation <= 1 && c.state.counters.key1 == 0 && c.state.counters.key2 == 0
    && c.state.pcCounters.Some? && c.state.pcCounters.value.deviceId == info.deviceId
    && (c.state.pcCounters.value.key1 > 0 || c.state.pcCounters.value.key2 > 0)
  }

  function Adopted(env: Env, theirs: DeviceConfig, ours: DeviceConfig): DeviceConfig {
    var endpoint := if !env.blank(theirs.tosuEndpoint) then theirs.tosuEndpoint
                    else if env.blank(ours.tosuEndpoint) then DEFAULT_ENDPOINT
                    else ours.tosuEndpoint;
    theirs.(tosuEndpoint := endpoint, animations := ours.animations)
  }

  function AdoptConfig(env: Env, c: Ctl, config: Option<DeviceConfig>): Out {
    if config.None? || c.state.nvsRestorePending then Out(c, [])
    else
      var adopted := Adopted(env, config.value, c.state.config);
      Out(c.(state := c.state.(config := adopted)), [SaveDeviceConfig(adopted)])
  }

  function JudgeOwner(c: Ctl, info: DeviceInfo): Out {
    var owner := if c.pairing.reportedOwner.Some? then c.pairing.reportedOwner.value else [];
    var t := c.(pairing := c.pairing.(reportedOwner := None));
    match OwnershipOf(c.state.installId, owner)
    case NoIdentity => Out(t.(state := t.state.(pendingTakeover := None, foreignPad := false)), [])
    case Ours => Out(t.(state := t.state.(pendingTakeover := None, foreignPad := false)), [])
    case Unclaimed =>
      Out(t.(state := t.state.(pendingTakeover := None, foreignPad := false)), [ClaimOwnership])
    case Someone =>
      var pending := PendingTakeover(info.deviceId, c.state.counters.key1, c.state.counters.key2);
      Out(t.(state := t.state.(pendingTakeover := Some(pending), foreignPad := true)), [TakeOverIfPadIsAhead])
  }

  /** A pad not seen before goes into the database, now or once idle. */
  function Enter(c: Ctl, info: DeviceInfo): Out {
    var k := c.(pairing := c.pairing.(known := c.pairing.known + {info.deviceId}));
    if c.state.mode == Idle
    then Out(k, [SaveInitialDeviceState(info, c.state.counters), TouchDeviceLastSeen(info.deviceId)])
    else Out(k.(pairing := k.pairing.(pendingLastSeen := Some(info.deviceId))), [])
  }

  function Register(env: Env, c: Ctl, info: DeviceInfo): Out {
    var known := c.pairing.known;
    if info.deviceId in known then
      if c.state.mode == Idle then Out(c, [TouchDeviceLastSeen(info.deviceId)])
      else Out(c.(pairing := c.pairing.(pendingLastSeen := Some(info.deviceId))), [])
    else if known == {} && !c.pairing.hasInitialDbEntry then
      Enter(c.(pairing := c.pairing.(hasInitialDbEntry := true)), info)
    else if c.state.counters.generation <= 1 && c.state.counters.key1 < 1000 && c.state.counters.key2 < 1000
            && PcIsAhead(c.state.pcCounters, c.state.counters) then
      var previous := if known == {} then "previous" else env.firstKnown(known);
      Out(c.(state := c.state.(pendingReplacement := Some(previous))), [])
    else Enter(c, info)
  }

  function Layouts(layouts: seq<(Screen, Layout)>): seq<Action> {
    seq(|layouts|, i requires 0 <= i < |layouts| => SendLayout(layouts[i].0, layouts[i].1))
  }

  predicate SyncsOnConnect(s: DaemonState) {
    s.storageError.None? && s.MayTouchPad() && s.mode == Idle
  }

  /** What a connected pad is sent: nothing of ours when it is another install's. */
  function Greeting(c: Ctl, sendConfig: bool): seq<Action> {
    var s := c.state;
    [SendTimeSync, RequestDeviceStatus]
    + (if sendConfig && !s.foreignPad then [SendConfig(s.config)] else [])
    + [HostStatus(c, s.tosuConnected, s.mode == Playing)]
    + (if !s.foreignPad then Layouts(s.customLayouts) else [])
    + (if SyncsOnConnect(s) then [TriggerSync] else [])
  }

  function Greet(c: Ctl, sendConfig: bool, now: int): Out {
    Out(c.(data := NothingSent(c.data),
           clock := c.clock.(lastPeriodicSync := now, lastPeriodicTimeSync := now),
           pairing := c.pairing.(lastSyncedCounters := Some(c.state.counters))),
        Greeting(c, sendConfig))
  }

  /** The compatible pad is connected, before anything of its is taken over. */
  function Accepted(c: Ctl, wiped: bool): Ctl {
    c.(pairing := c.pairing.(preHelloCounters := None),
       state := c.state.(incompatible := None, deviceConnected := true, countersSource := FromDevice,
                         nvsRestorePending := wiped))
  }

  function Identified(c: Ctl, info: DeviceInfo): Ctl {
    c.(state := c.state.(deviceInfo := Some(info), espCounters := Some(c.state.counters)))
  }

  /** The steps of a compatible connect. */
  datatype Stages = Stages(
    wiped: bool, accepted: Ctl, adopted: Out, identified: Ctl, judged: Out, registered: Out, greeted: Out)

  function StagesOf(env: Env, c: Ctl, info: DeviceInfo, config: Option<DeviceConfig>, now: int): Stages {
    var wiped := NvsWiped(c, info);
    var accepted := Accepted(c, wiped);
    var adopted := AdoptConfig(env, accepted, config);
    var identified := Identified(adopted.c, info);
    var judged := JudgeOwner(identified, info);
    var registered := Register(env, judged.c, info);
    Stages(wiped, accepted, adopted, identified, judged, registered, Greet(registered.c, config.None? || wiped, now))
  }

  function OnConnected(env: Env, c: Ctl, info: DeviceInfo, config: Option<DeviceConfig>, now: int): Out {
    if info.protocolVersion != DEVICE_PROTOCOL_VERSION then Out(Incompatible(c, info), [])
    else
      var s := StagesOf(env, c, info, config, now);
      Out(s.greeted.c, s.adopted.actions + s.judged.actions + s.registered.actions + s.greeted.actions)
  }

  function OnOwnership(c: Ctl, owner: OwnerId): Ctl {
    c.(pairing := c.pairing.(reportedOwner := Some(owner), preHelloCounters := Some(c.state.counters)))
  }

  function OnDisconnected(c: Ctl): Ctl {
    c.(state := c.state.(deviceConnected := false, countersSource := FromPc, espCounters := None,
                         incompatible := None, pendingTakeover := None, foreignPad := false,
                         heCalibration := None, latestHeProgress := None),
       tap := c.tap.(padPressTimes := false, padEpoch := None),
       pairing := c.pairing.(reportedOwner := None, preHelloCounters := None, calGuiLaunched := false))
  }

  function OnCounters(c: Ctl, n: CounterState): Ctl {
    var keys := c.state.counters.(key1 := n.key1, key2 := n.key2);
    var counters := if n.deviceId != "" then keys.(deviceId := n.deviceId, generation := n.generation)
                    else keys.(map1 := n.map1, map2 := n.map2);
    c.(state := c.state.(counters := counters, espCounters := Some(counters)))
  }

  /** Only the HelloAck says that a pad can calibrate; the app is opened once per
      connection for one that is not calibrated. */
  function OnStatus(c: Ctl, latency: Latency, calibration: Option<HeCalibration>): Out {
    var shown := if c.state.CanCalibrate() then calibration else None;
    var s := c.(state := c.state.(latency := Some(latency), heCalibration := shown));
    if shown.Some? && shown.value.Uncalibrated() && !c.pairing.calGuiLaunched
    then Out(s.(pairing := s.pairing.(calGuiLaunched := true)), [LaunchGuiCalibration])
    else Out(s, [])
  }

  function OnHeProgress(c: Ctl, progress: HeProgress): Out {
    if !c.state.deviceConnected || !c.state.CanCalibrate() then Out(c, [])
    else
      Out(c.(state := c.state.(latestHeProgress := Some(progress))),
          if progress.success then [RequestDeviceStatus] else [])
  }

  predicate ReportsErasure(s: DaemonState, id: nat) {
    id == DIAG_EVENT_NVS_ERASED && s.deviceConnected && !s.foreignPad && !s.nvsRestorePending
  }

  function LogLine(c: Ctl, id: nat): Out {
    if ReportsErasure(c.state, id) then
      Out(c.(state := c.state.(nvsRestorePending := true)),
          (if c.state.mode == Idle && c.state.MayTouchPad() then [TriggerSync] else []) + [PushEspLog(id)])
    else Out(c, [PushEspLog(id)])
  }

  function OnLogBatch(c: Ctl, ids: seq<nat>): Out
    decreases |ids|
  {
    if ids == [] then Out(c, [])
    else
      var before := OnLogBatch(c, ids[..|ids| - 1]);
      var line := LogLine(before.c, ids[|ids| - 1]);
      Out(line.c, before.actions + line.actions)
  }

  // ---- The tick ---------------------------------------------------------------------------

  function Elapsed(now: int, last: int): int { Max(now - last, 0) }

  function TickCooldown(c: Ctl, at: int): Out {
    if c.state.mode != Cooldown || c.clock.cooldownDeadline.None? || at < c.clock.cooldownDeadline.value then Out(c, [])
    else if !c.state.MayTouchPad() then
      Out(c.(state := c.state.(mode := Idle), clock := c.clock.(cooldownDeadline := None)),
          [SetStorageWritesAllowed(true)])
    else
      Out(c.(state := c.state.(mode := Sync), clock := c.clock.(cooldownDeadline := None, backupAfterSync := true)),
          [SetStorageWritesAllowed(true), TriggerSync])
  }

  predicate BeatDue(c: Ctl, at: int) {
    c.state.deviceConnected && Elapsed(at, c.clock.lastHostStatus) >= HOST_STATUS_INTERVAL
  }

  function TickStatus(c: Ctl, at: int): Out {
    var poll := Elapsed(at, c.clock.lastStatusPoll) >= STATUS_POLL_INTERVAL;
    var beat := BeatDue(c, at);
    Out(c.(clock := c.clock.(lastStatusPoll := if poll then at else c.clock.lastStatusPoll,
                             lastHostStatus := if beat then at else c.clock.lastHostStatus)),
        (if poll && c.state.deviceConnected then [RequestDeviceStatus] else [])
        + (if beat then [HostStatus(c, c.state.tosuConnected, c.state.mode == Playing)] else []))
  }

  /** The rates brought up to date. */
  function TickPlay(env: Env, p: Play, at: int): Play {
    var a := if p.tap.attempt.Some? then PublishAttempt(env, p.(tap := Feed(p.tap, [Advanced(at)]))) else p;
    var h := PublishHistory(env, a, false);
    h.(shown := h.shown.(unsavedAttempts := |h.tap.unsaved|))
  }

  /** Then what changed goes out, if it is time. */
  function TickData(env: Env, c: Ctl, at: int): Out {
    var u := WithPlay(c, TickPlay(env, PlayOf(c), at));
    if u.state.deviceConnected && !u.state.foreignPad then
      var playing := u.state.mode == Playing;
      var hz := u.state.config.gameplayDisplayHz;
      var changes := Changes(u.data, playing, hz, false, at);
      Out(u.(data := Flushed(u.data, playing, hz, false, at)),
          if changes != [] then [SendDataUpdate(changes)] else [])
    else Out(u, [])
  }

  predicate CountersMoved(c: Ctl) {
    c.pairing.lastSyncedCounters.None? || !SameKeys(c.pairing.lastSyncedCounters.value, c.state.counters)
  }

  function TickPeriodic(c: Ctl, at: int): Out {
    if !c.state.deviceConnected || c.state.foreignPad || c.state.mode != Idle then Out(c, [])
    else
      var timeDue := Elapsed(at, c.clock.lastPeriodicTimeSync) >= PERIODIC_TIME_SYNC;
      var syncDue := Elapsed(at, c.clock.lastPeriodicSync) >= PERIODIC_SYNC;
      Out(c.(clock := c.clock.(lastPeriodicTimeSync := if timeDue then at else c.clock.lastPeriodicTimeSync,
                               lastPeriodicSync := if syncDue then at else c.clock.lastPeriodicSync)),
          (if timeDue then [SendTimeSync, RequestDeviceStatus] else [])
          + (if syncDue && CountersMoved(c) && c.state.storageError.None? && c.state.MayTouchPad()
             then [TriggerSync] else []))
  }

  function TickTapStats(c: Ctl, at: int): Out {
    if c.state.mode != Idle || c.state.storageError.Some? then Out(c, [])
    else
      var period := if c.state.tap.periodUnsaved then Some(c.state.tap.periodDays) else None;
      if c.tap.unsaved != [] || period.Some? then
        Out(c.(tap := c.tap.(unsaved := [], lastRefresh := at),
               state := c.state.(tap := c.state.tap.(periodUnsaved := false, unsavedAttempts := 0))),
            [SaveTapStats(c.tap.unsaved, period)])
      else if Elapsed(at, c.tap.lastRefresh) >= TAP_HISTORY_REFRESH then
        Out(c.(tap := c.tap.(lastRefresh := at)), [RefreshTapHistory])
      else Out(c, [])
  }

  function TickBackup(c: Ctl, at: int): Out {
    if c.clock.backupDeadline.None? then Out(c, [])
    else if c.state.mode != Idle then Out(c.(clock := c.clock.(backupDeadline := None)), [])
    else if at >= c.clock.backupDeadline.value then
      Out(c.(clock := c.clock.(backupDeadline := None)), [WriteAutoBackup])
    else Out(c, [])
  }

  function OnTick(env: Env, c: Ctl, at: int): Out {
    var cool := TickCooldown(c, at);
    var status := TickStatus(cool.c, at);
    var data := TickData(env, status.c, at);
    var periodic := TickPeriodic(data.c, at);
    var stats := TickTapStats(periodic.c, at);
    var backup := TickBackup(stats.c, at);
    Out(backup.c,
        cool.actions + status.actions + data.actions + periodic.actions + stats.actions + backup.actions)
  }

  // ---- Syncs and storage ----------------------------------------------------------------------

  function Synced(c: Ctl, counters: CounterState, time: Option<int>, now: int): Ctl {
    c.(state := c.state.(counters := counters, pcCounters := Some(counters), espCounters := Some(counters),
                         lastSyncTime := time, lastSyncError := None, nvsRestorePending := false),
       clock := c.clock.(lastPeriodicSync := now, lastPeriodicTimeSync := now),
       pairing := WithKnown(c.pairing.(lastSyncedCounters := Some(counters)), c.state.deviceInfo))
  }

  function OnSyncCompleted(c: Ctl, e: Event, now: int): Out
    requires e.SyncCompleted?
  {
    var s := if e.success then Synced(c, e.counters, e.time, now)
             else c.(state := c.state.(lastSyncError := e.error));
    var mode := if s.state.mode == Sync then Idle else s.state.mode;
    var arm := s.clock.backupAfterSync && mode == Idle;
    Out(s.(state := s.state.(mode := mode),
           clock := s.clock.(backupAfterSync := false,
                             backupDeadline := if arm then Some(now + AUTO_BACKUP_DELAY) else s.clock.backupDeadline)),
        if mode == Idle then [SetStorageWritesAllowed(true)] else [])
  }

  function OnSqliteReconnected(c: Ctl, e: Event): Out
    requires e.SqliteReconnected?
  {
    Out(c.(state := c.state.(
             storageError := None,
             config := if e.config.Some? then e.config.value else c.state.config,
             customLayouts := InsertLayouts(c.state.customLayouts, e.layouts),
             pcCounters := if e.stored.Some? then e.stored else c.state.pcCounters)),
        [RefreshTapHistory])
  }

  // ---- One event ------------------------------------------------------------------------------

  function OnEvent(env: Env, c: Ctl, e: Event, now: int): Out {
    match e
    case DeviceConnected(info, config) => OnConnected(env, c, info, config, now)
    case DeviceOwnership(owner) => Out(OnOwnership(c, owner), [])
    case DeviceDisconnected => Out(OnDisconnected(c), [])
    case DeviceCounters(n) => Out(OnCounters(c, n), [])
    case DeviceStatus(latency, calibration) => OnStatus(c, latency, calibration)
    case DeviceHeProgress(progress) => OnHeProgress(c, progress)
    case DeviceLayoutAck => Out(c, [])
    case DeviceLogBatch(ids) => OnLogBatch(c, ids)
    case TosuTelemetry(f) => OnTelemetry(env, c, f, now)
    case TosuKeys(k1, k2, at) =>
      Out(WithPlay(c, OnTosuKeys(env, PlayOf(c), c.state.mode == Playing, PadTimesPresses(c), k1, k2, at)), [])
    case PadPressTimes(on) => Out(c.(tap := c.tap.(padPressTimes := on, padEpoch := None)), [])
    case PadPresses(nowUs, presses, received) =>
      Out(WithPlay(c, OnPadPresses(env, PlayOf(c), c.state.mode == Playing, nowUs, presses, received)), [])
    case TosuConnectionChanged(connected) => OnTosuConnection(env, c, connected, now)
    case OsuActiveChanged(active) => OnOsuActive(c, active, now)
    case Tick(at) => OnTick(env, c, at)
    case SyncCompleted(_, _, _, _) => OnSyncCompleted(c, e, now)
    case SqliteReconnected(_, _, _) => OnSqliteReconnected(c, e)
    case SqliteError(message) => Out(c.(state := c.state.(storageError := Some(message))), [])
  }

  /** A replacement prompt answered over IPC since the last event: the pad is
      remembered, so it is not asked about again. */
  function Remember(c: Ctl): Ctl {
    if c.pairing.replacementWasPending && c.state.pendingReplacement.None?
    then c.(pairing := WithKnown(c.pairing, c.state.deviceInfo))
    else c
  }

  /** What the controller keeps after an event: what it deferred has gone to the
      shared queue. */
  function Settled(c: Ctl): Ctl {
    c.(pairing := c.pairing.(replacementWasPending := c.state.pendingReplacement.Some?, pendingLastSeen := None))
  }

  /** One turn of the loop: the shared state as others left it, and the event. */
  datatype Turn = Turn(shared: DaemonState, event: Event, now: int)

  /** One event against the shared state, which the controller holds for its length. */
  function Apply(env: Env, c: Ctl, shared: DaemonState, e: Event, now: int): Out {
    var o := OnEvent(env, Remember(c.(state := shared)), e, now);
    Out(Settled(o.c), o.actions)
  }

  function Requeued(t: Tap, attempts: seq<Attempt>): Tap {
    t.(unsaved := CapUnsaved(attempts + t.unsaved))
  }
}
