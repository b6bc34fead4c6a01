/** What the pad is told about play, over whole runs, and when it animates. */
module HostStatuses {
  import opened Options
  import opened Counters
  import opened TapRate
  import opened Daemon
  import opened Telemetry
  import opened Runtime
  import opened ModeRuns

  /** What the last host status said about play. */
  function Told(told: Option<bool>, actions: seq<Action>): Option<bool>
    decreases |actions|
  {
    if actions == [] then told
    else
      var last := actions[|actions| - 1];
      if last.SendHostStatus? then Some(last.isPlaying) else Told(told, actions[..|actions| - 1])
  }

  /** Nothing about play is said to the pad, by status or by animation. */
  predicate Silent(actions: seq<Action>) { forall a :: a in actions ==> !a.SendHostStatus? && !a.PlayAnimation? }

  /** The pad is told, and only told `playing`. */
  predicate Says(actions: seq<Action>, playing: bool) {
    && (exists a :: a in actions && a.SendHostStatus?)
    && (forall a :: a in actions && a.SendHostStatus? ==> a.isPlaying == playing)
    && (forall a :: a in actions ==> !a.PlayAnimation?)
  }

  lemma {:induction false} ToldNothing(told: Option<bool>, actions: seq<Action>)
    requires Silent(actions)
    ensures Told(told, actions) == told
    decreases |actions|
  {
    if actions != [] {
      assert actions[|actions| - 1] in actions;
      ToldNothing(told, actions[..|actions| - 1]);
    }
  }

  lemma {:induction false} ToldThat(told: Option<bool>, actions: seq<Action>, playing: bool)
    requires Says(actions, playing)
    ensures Told(told, actions) == Some(playing)
    decreases |actions|
  {
    var n := |actions| - 1;
    assert actions == actions[..n] + [actions[n]];
    assert actions[n] in actions;
    if !actions[n].SendHostStatus? { ToldThat(told, actions[..n], playing); }
  }

  lemma SaysAppend(a: seq<Action>, b: seq<Action>, playing: bool)
    ensures Says(a, playing) && Silent(b) ==> Says(a + b, playing)
    ensures Silent(a) && Says(b, playing) ==> Says(a + b, playing)
    ensures Silent(a) && Silent(b) ==> Silent(a + b)
  {
    if Says(a, playing) {
      var s :| s in a && s.SendHostStatus?;
      assert s in a + b;
    }
    if Says(b, playing) {
      var s :| s in b && s.SendHostStatus?;
      assert s in a + b;
    }
  }

  predicate IsPlaying(c: Ctl) { c.state.mode == Playing }

  /** The one event that tells a pad in play that no map is on: tosu coming back. */
  predicate TosuBack(e: Event) { e.TosuConnectionChanged? && e.connected }

  /** An event either tells the pad what the mode now is, or changes nothing the
      pad should hear about; or it is tosu coming back. */
  predicate StatusStep(c: Ctl, e: Event, o: Out) {
    if TosuBack(e) then
      && o.c.state.mode == c.state.mode && o.c.state.deviceConnected == c.state.deviceConnected
      && (if c.state.deviceConnected then Says(o.actions, false) else Silent(o.actions))
    else
      || Says(o.actions, IsPlaying(o.c))
      || (Silent(o.actions)
          && (o.c.state.deviceConnected ==> c.state.deviceConnected && IsPlaying(o.c) == IsPlaying(c)))
  }

  /** Nothing said and nothing to say. */
  predicate Mute(c: Ctl, o: Out) {
    && Silent(o.actions) && o.c.state.mode == c.state.mode
    && o.c.state.deviceConnected == c.state.deviceConnected
  }

  // ---- Connecting ------------------------------------------------------------------

  lemma AdoptMute(env: Env, c: Ctl, config: Option<DeviceConfig>)
    ensures Mute(c, AdoptConfig(env, c, config))
  {}

  lemma JudgeMute(c: Ctl, info: DeviceInfo)
    ensures Mute(c, JudgeOwner(c, info))
  {}

  lemma RegisterMute(env: Env, c: Ctl, info: DeviceInfo)
    ensures Mute(c, Register(env, c, info))
  {}

  lemma GreetSays(c: Ctl, sendConfig: bool, now: int)
    ensures Says(Greet(c, sendConfig, now).actions, IsPlaying(c))
    ensures Greet(c, sendConfig, now).c.state.mode == c.state.mode
  {
    hide Says;
    var s := c.state;
    StatusSays(c, s.tosuConnected, s.mode == Playing);
    var before := [SendTimeSync, RequestDeviceStatus] + (if sendConfig && !s.foreignPad
        then [SendConfig(s.config)] else []);
    var status := [HostStatus(c, s.tosuConnected, s.mode == Playing)];
    var layouts := if !s.foreignPad then Layouts(s.customLayouts) else [];
    var sync := if SyncsOnConnect(s) then [TriggerSync] else [];
    SaysAppend(before, status, IsPlaying(c));
    SaysAppend(before + status, layouts, IsPlaying(c));
    SaysAppend(before + status + layouts, sync, IsPlaying(c));
  }

  /** A pad that connects is told at once whether a map is on. */
  lemma ConnectedSays(env: Env, c: Ctl, info: DeviceInfo, config: Option<DeviceConfig>, now: int)
    ensures StatusStep(c, DeviceConnected(info, config), OnConnected(env, c, info, config, now))
  {
    hide AdoptConfig, JudgeOwner, Register, Greet, NvsWiped, Says;
    if info.protocolVersion == DEVICE_PROTOCOL_VERSION {
      var s := StagesOf(env, c, info, config, now);
      AdoptMute(env, s.accepted, config);
      JudgeMute(s.identified, info);
      RegisterMute(env, s.judged.c, info);
      GreetSays(s.registered.c, config.None? || s.wiped, now);
      SaysAppend(s.adopted.actions + s.judged.actions + s.registered.actions, s.greeted.actions, IsPlaying(c));
    }
  }

  // ---- Playing ---------------------------------------------------------------------

  lemma AnnounceSays(c: Ctl, now: int)
    ensures Says(Announce(c, now).actions, true)
  {
    assert Announce(c, now).actions[0] == HostStatus(c, true, true);
  }

  lemma PlayingSays(env: Env, c: Ctl, f: Frame, now: int)
    ensures StatusStep(c, TosuTelemetry(f), PlayingFrame(env, c, f, now))
    ensures PlayingFrame(env, c, f, now).c.state.mode == Playing
  {
    hide AttemptFrame, Announce, Says;
    var p := EnterPlay(Attempted(env, c, f, now));
    AnnounceSays(p.c, now);
    SaysAppend(p.actions, Announce(p.c, now).actions, true);
    AnnounceSame(p.c, now);
  }

  lemma AnnounceSame(c: Ctl, now: int)
    ensures Announce(c, now).c.state == c.state
  {}

  lemma EndSays(env: Env, c: Ctl, now: int)
    ensures var o := EndPlay(env, c, now);
            && o.c.state.mode == Cooldown
            && o.c.state.deviceConnected == c.state.deviceConnected
            && (if c.state.deviceConnected then Says(o.actions, false) else Silent(o.actions))
  {
    hide FinishAttempt;
    var o := EndPlay(env, c, now);
    if c.state.deviceConnected { assert o.actions[1].SendHostStatus?; }
  }

  lemma FrameSays(env: Env, c: Ctl, f: Frame, now: int)
    ensures StatusStep(c, TosuTelemetry(f), FrameFirst(env, c, f, now))
  {
    hide PlayingFrame, EndPlay, Says;
    var i := TakenIn(c, f);
    if f.isPlaying { PlayingSays(env, i, f, now); } else if c.state.mode == Playing { EndSays(env, i, now); }
  }

  lemma TosuGoneSame(env: Env, c: Ctl, now: int)
    ensures var o := TosuGone(env, c, now);
            && Silent(o.actions) && !IsPlaying(o.c) && o.c.state.deviceConnected == c.state.deviceConnected
  {
    hide TosuGonePlay;
  }

  lemma TosuConnectionSays(env: Env, c: Ctl, connected: bool, now: int)
    ensures StatusStep(c, TosuConnectionChanged(connected), OnTosuConnection(env, c, connected, now))
  {
    hide TosuGone, Says;
    var t := c.(state := c.state.(tosuConnected := connected));
    var g := if connected then Out(t, []) else TosuGone(env, t, now);
    TosuGoneSame(env, t, now);
    StatusSays(g.c, connected, false);
    SaysAppend(g.actions, [HostStatus(g.c, connected, false)], false);
  }

  lemma StatusSays(c: Ctl, tosu: bool, playing: bool)
    ensures Says([HostStatus(c, tosu, playing)], playing)
  {
    assert [HostStatus(c, tosu, playing)][0].SendHostStatus?;
  }

  lemma OsuActiveSays(c: Ctl, active: bool, now: int)
    ensures StatusStep(c, OsuActiveChanged(active), OnOsuActive(c, active, now))
  {
    var a := c.(state := c.state.(osuActive := active));
    StatusSays(a, a.state.tosuConnected, a.state.mode == Playing);
  }

  // ---- The tick --------------------------------------------------------------------

  lemma CooldownMute(c: Ctl, at: int)
    ensures var o := TickCooldown(c, at);
            Silent(o.actions) && IsPlaying(o.c) == IsPlaying(c) && o.c.state.deviceConnected == c.state.deviceConnected
  {}

  lemma StatusBeats(c: Ctl, at: int)
    ensures var o := TickStatus(c, at);
            && o.c.state == c.state
            && (if BeatDue(c, at) then Says(o.actions, IsPlaying(c)) else Silent(o.actions))
  {
    var status := HostStatus(c, c.state.tosuConnected, c.state.mode == Playing);
    StatusSays(c, c.state.tosuConnected, c.state.mode == Playing);
    var poll := if Elapsed(at, c.clock.lastStatusPoll) >= STATUS_POLL_INTERVAL && c.state.deviceConnected
                then [RequestDeviceStatus] else [];
    SaysAppend(poll, [status], IsPlaying(c));
    assert poll + [] == poll;
  }

  lemma DataMute(env: Env, c: Ctl, at: int)
    ensures Mute(c, TickData(env, c, at))
  {
    hide TickPlay;
  }

  lemma PeriodicMute(c: Ctl, at: int)
    ensures Mute(c, TickPeriodic(c, at))
  {}

  lemma StatsMute(c: Ctl, at: int)
    ensures Mute(c, TickTapStats(c, at)) && Mute(c, TickBackup(c, at))
  {}

  /** A tick tells the pad the mode when a second has passed, and else nothing. */
  lemma TickBeats(env: Env, c: Ctl, at: int)
    ensures var o := OnTick(env, c, at);
            && IsPlaying(o.c) == IsPlaying(c) && o.c.state.deviceConnected == c.state.deviceConnected
            && (if BeatDue(c, at) then Says(o.actions, IsPlaying(o.c)) else Silent(o.actions))
  {
    hide TickCooldown, TickStatus, TickData, TickPeriodic, TickTapStats, TickBackup, Says;
    var cool := TickCooldown(c, at);
    var status := TickStatus(cool.c, at);
    var data := TickData(env, status.c, at);
    var periodic := TickPeriodic(data.c, at);
    var stats := TickTapStats(periodic.c, at);
    CooldownMute(c, at);
    CooldownKeepsBeat(c, at);
    StatusBeats(cool.c, at);
    DataMute(env, status.c, at);
    PeriodicMute(data.c, at);
    StatsMute(periodic.c, at);
    StatsMute(stats.c, at);
    var rest := data.actions + periodic.actions + stats.actions + TickBackup(stats.c, at).actions;
    assert OnTick(env, c, at).actions == cool.actions + status.actions + rest;
    SaysAppend(cool.actions, status.actions, IsPlaying(c));
    SaysAppend(cool.actions + status.actions, rest, IsPlaying(c));
  }

  lemma CooldownKeepsBeat(c: Ctl, at: int)
    ensures TickCooldown(c, at).c.clock.lastHostStatus == c.clock.lastHostStatus
  {}

  // ---- Every event --------------------------------------------------------------------

  lemma {:induction false} LogBatchMute(c: Ctl, ids: seq<nat>)
    ensures Mute(c, OnLogBatch(c, ids))
    decreases |ids|
  {
    if ids != [] { LogBatchMute(c, ids[..|ids| - 1]); }
  }

  lemma SyncMute(c: Ctl, e: Event, now: int)
    requires e.SyncCompleted?
    ensures var o := OnSyncCompleted(c, e, now);
            Silent(o.actions) && IsPlaying(o.c) == IsPlaying(c) && o.c.state.deviceConnected == c.state.deviceConnected
  {}

  lemma ReportsMute(c: Ctl, latency: Latency, calibration: Option<HeCalibration>, progress: HeProgress)
    ensures Mute(c, OnStatus(c, latency, calibration)) && Mute(c, OnHeProgress(c, progress))
  {}

  /** What an event emits before its animation, and the animation. */
  function Spoken(env: Env, c: Ctl, e: Event, now: int): seq<Action> {
    if e.TosuTelemetry? then FrameFirst(env, c, e.frame, now).actions else OnEvent(env, c, e, now).actions
  }

  function Animated(env: Env, c: Ctl, e: Event, now: int): seq<Action> {
    if e.TosuTelemetry? then ResultsAnimation(env, FrameFirst(env, c, e.frame, now).c, e.frame) else []
  }

  lemma EventSays(env: Env, c: Ctl, e: Event, now: int)
    ensures var o := OnEvent(env, c, e, now);
            && o.actions == Spoken(env, c, e, now) + Animated(env, c, e, now)
            && StatusStep(c, e, Out(o.c, Spoken(env, c, e, now)))
  {
    hide OnConnected, OnLogBatch, FrameFirst, OnTosuConnection, OnOsuActive, OnTick, OnSyncCompleted, OnTosuKeys,
      OnPadPresses, OnStatus, OnHeProgress, Says;
    match e
    case DeviceStatus(latency, calibration) => ReportsMute(c, latency, calibration, HeProgress(true, []));
    case DeviceHeProgress(progress) => ReportsMute(c, [], None, progress);
    case DeviceConnected(info, config) => ConnectedSays(env, c, info, config, now);
    case DeviceLogBatch(ids) => LogBatchMute(c, ids);
    case TosuTelemetry(f) => FrameSays(env, c, f, now);
    case TosuConnectionChanged(connected) => TosuConnectionSays(env, c, connected, now);
    case OsuActiveChanged(active) => OsuActiveSays(c, active, now);
    case Tick(at) => TickBeats(env, c, at);
    case SyncCompleted(_, _, _, _) => SyncMute(c, e, now);
    case _ =>
  }

  // ---- The results screen ---------------------------------------------------------------

  predicate OwnPlay(f: Frame) { f.isPlaying && !f.failed && !f.otherPlayer }

  predicate OnResults(f: Frame) { !f.isPlaying && f.grade.Some? }

  /** What the results flags mean: the last frame was the player's own unfailed
      play, or a results screen. */
  predicate ShowIs(s: Show, last: Option<Frame>) {
    && (s.resultsArmed <==> last.Some? && OwnPlay(last.value))
    && (s.onResultsScreen <==> last.Some? && OnResults(last.value))
  }

  predicate SameShow(a: Show, b: Show) {
    a.resultsArmed == b.resultsArmed && a.onResultsScreen == b.onResultsScreen
  }

  lemma FrameSameShow(env: Env, c: Ctl, f: Frame, now: int)
    ensures SameShow(FrameFirst(env, c, f, now).c.show, c.show)
  {
    hide AttemptFrame, FinishAttempt;
  }

  lemma {:induction false} LogBatchSameShow(c: Ctl, ids: seq<nat>)
    ensures OnLogBatch(c, ids).c.show == c.show
    decreases |ids|
  {
    if ids != [] { LogBatchSameShow(c, ids[..|ids| - 1]); }
  }

  lemma TickSameShow(env: Env, c: Ctl, at: int)
    ensures OnTick(env, c, at).c.show == c.show
  {
    hide TickCooldown, TickStatus, TickData, TickPeriodic, TickTapStats, TickBackup;
    var cool := TickCooldown(c, at);
    var status := TickStatus(cool.c, at);
    var data := TickData(env, status.c, at);
    PartSameShow(env, c, at);
    PartSameShow(env, cool.c, at);
    PartSameShow(env, status.c, at);
    PartSameShow(env, data.c, at);
    PartSameShow(env, TickPeriodic(data.c, at).c, at);
    PartSameShow(env, TickTapStats(TickPeriodic(data.c, at).c, at).c, at);
  }

  lemma PartSameShow(env: Env, c: Ctl, at: int)
    ensures TickCooldown(c, at).c.show == c.show
    ensures TickStatus(c, at).c.show == c.show
    ensures TickData(env, c, at).c.show == c.show
    ensures TickPeriodic(c, at).c.show == c.show
    ensures TickTapStats(c, at).c.show == c.show
    ensures TickBackup(c, at).c.show == c.show
  {
    hide TickPlay;
  }

  lemma ConnectedSameShow(env: Env, c: Ctl, info: DeviceInfo, config: Option<DeviceConfig>, now: int)
    ensures OnConnected(env, c, info, config, now).c.show == c.show
  {
    hide Greeting, NvsWiped, Adopted;
  }

  lemma TosuConnectionSameShow(env: Env, c: Ctl, connected: bool, now: int)
    ensures SameShow(OnTosuConnection(env, c, connected, now).c.show, c.show)
  {
    hide TosuGonePlay;
  }

  function LastFrame(last: Option<Frame>, e: Event): Option<Frame> {
    if e.TosuTelemetry? then Some(e.frame) else last
  }

  lemma EventShows(env: Env, c: Ctl, e: Event, now: int, last: Option<Frame>)
    requires ShowIs(c.show, last)
    ensures ShowIs(OnEvent(env, c, e, now).c.show, LastFrame(last, e))
  {
    hide OnConnected, OnLogBatch, FrameFirst, OnTosuConnection, OnTick, OnTosuKeys, OnPadPresses;
    match e
    case DeviceConnected(info, config) => ConnectedSameShow(env, c, info, config, now);
    case DeviceLogBatch(ids) => LogBatchSameShow(c, ids);
    case TosuTelemetry(f) => FrameSameShow(env, c, f, now);
    case TosuConnectionChanged(connected) => TosuConnectionSameShow(env, c, connected, now);
    case Tick(at) => TickSameShow(env, c, at);
    case _ =>
  }

  // ---- Runs -------------------------------------------------------------------------------

  /** Beside the controller: what the pad was last told about play, and tosu's
      last frame. */
  datatype Heard = Heard(c: Ctl, told: Option<bool>, last: Option<Frame>)

  function Step(env: Env, h: Heard, t: Turn): Heard {
    var o := Apply(env, h.c, t.shared, t.event, t.now);
    Heard(o.c, Told(h.told, o.actions), LastFrame(h.last, t.event))
  }

  function Run(env: Env, h: Heard, turns: seq<Turn>): Heard
    decreases |turns|
  {
    if turns == [] then h else Step(env, Run(env, h, turns[..|turns| - 1]), turns[|turns| - 1])
  }

  /** Every turn's shared state is one others may have left. */
  ghost predicate LegalRun(env: Env, h: Heard, turns: seq<Turn>)
    decreases |turns|
  {
    turns == []
    || (LegalRun(env, h, turns[..|turns| - 1])
        && OutsideWrite(Run(env, h, turns[..|turns| - 1]).c.state, turns[|turns| - 1].shared))
  }

  /** A connected pad has been told, and told that a map is on only if one is. */
  predicate NeverMisled(h: Heard) {
    && (h.c.state.deviceConnected ==> h.told.Some? && (h.told.value ==> IsPlaying(h.c)))
    && ShowIs(h.c.show, h.last)
  }

  /** The pad in play believes no map is on. */
  predicate Missing(h: Heard) { h.c.state.deviceConnected && IsPlaying(h.c) && h.told == Some(false) }

  function Before(h: Heard, t: Turn): Ctl { Remember(h.c.(state := t.shared)) }

  lemma ToldIs(told: Option<bool>, spoken: seq<Action>, animated: seq<Action>)
    requires forall a :: a in animated ==> !a.SendHostStatus?
    ensures Told(told, spoken + animated) == Told(told, spoken)
    decreases |animated|
  {
    if animated == [] {
      assert spoken + animated == spoken;
    } else {
      var n := |animated| - 1;
      assert animated[n] in animated;
      assert (spoken + animated)[..|spoken| + n] == spoken + animated[..n];
      ToldIs(told, spoken, animated[..n]);
    }
  }

  /** What the pad has been told after a turn, by what it said. */
  lemma StepTells(env: Env, h: Heard, t: Turn)
    requires OutsideWrite(h.c.state, t.shared)
    ensures var spoken := Spoken(env, Before(h, t), t.event, t.now);
            var h' := Step(env, h, t);
            && h'.told == Told(h.told, spoken)
            && StatusStep(Before(h, t), t.event, Out(h'.c, spoken))
            && (forall v :: Says(spoken, v) ==> h'.told == Some(v))
            && (Silent(spoken) ==> h'.told == h.told)
  {
    hide OnEvent, Spoken, Animated, Says;
    var c := Before(h, t);
    var spoken := Spoken(env, c, t.event, t.now);
    EventSays(env, c, t.event, t.now);
    AnimatedIsNoStatus(env, c, t.event, t.now);
    ToldIs(h.told, spoken, Animated(env, c, t.event, t.now));
    forall v | Says(spoken, v) ensures Told(h.told, spoken) == Some(v) { ToldThat(h.told, spoken, v); }
    if Silent(spoken) { ToldNothing(h.told, spoken); }
  }

  lemma AnimatedIsNoStatus(env: Env, c: Ctl, e: Event, now: int)
    ensures forall a :: a in Animated(env, c, e, now) ==> !a.SendHostStatus?
  {
    hide FrameFirst;
  }

  lemma StepNeverMisleads(env: Env, h: Heard, t: Turn)
    requires NeverMisled(h) && OutsideWrite(h.c.state, t.shared)
    ensures NeverMisled(Step(env, h, t))
  {
    hide OnEvent, Spoken, Says, ShowIs;
    StepTells(env, h, t);
    EventShows(env, Before(h, t), t.event, t.now, h.last);
  }

  /** In every run the pad is never left believing a map is on: while it is
      connected, the last status it was sent says so only in PLAYING. */
  lemma {:induction false} PadIsNeverMisled(env: Env, h: Heard, turns: seq<Turn>)
    requires NeverMisled(h) && LegalRun(env, h, turns)
    ensures NeverMisled(Run(env, h, turns))
    decreases |turns|
  {
    hide Step, NeverMisled;
    if turns != [] {
      PadIsNeverMisled(env, h, turns[..|turns| - 1]);
      StepNeverMisleads(env, Run(env, h, turns[..|turns| - 1]), turns[|turns| - 1]);
    }
  }

  /** The other direction fails in exactly one way: a pad in play starts to
      believe that no map is on when, and only when, tosu comes back mid-play. */
  lemma MissesExactlyWhenTosuIsBack(env: Env, h: Heard, t: Turn)
    requires NeverMisled(h) && OutsideWrite(h.c.state, t.shared) && !Missing(h)
    ensures Missing(Step(env, h, t))
            <==> TosuBack(t.event) && h.c.state.mode == Playing && t.shared.deviceConnected
  {
    hide OnEvent, Spoken, Says, ShowIs;
    StepTells(env, h, t);
  }

  /** The next heartbeat puts that right. */
  lemma HeartbeatHeals(env: Env, h: Heard, t: Turn)
    requires NeverMisled(h) && OutsideWrite(h.c.state, t.shared)
    requires t.event.Tick? && BeatDue(Before(h, t), t.event.at)
    ensures !Missing(Step(env, h, t)) && Step(env, h, t).told == Some(IsPlaying(Step(env, h, t).c))
  {
    hide OnTick, Says, ShowIs;
    StepTells(env, h, t);
    TickBeats(env, Before(h, t), t.event.at);
  }

  // ---- Animations ---------------------------------------------------------------------------

  /** An animation is played only by the first results frame right after the
      player's own unfailed play, so at most once a visit; it is the last thing
      the frame sends, to a connected pad that is ours; and by then the pad has
      been told that no map is on. */
  lemma AnimationsFollowOwnPlay(env: Env, h: Heard, t: Turn, a: Action)
    requires NeverMisled(h) && OutsideWrite(h.c.state, t.shared) && a.PlayAnimation?
    ensures var actions := Apply(env, h.c, t.shared, t.event, t.now).actions;
            a in actions ==>
              && t.event.TosuTelemetry? && OnResults(t.event.frame)
              && h.last.Some? && OwnPlay(h.last.value)
              && t.shared.deviceConnected && !t.shared.foreignPad
              && actions == actions[..|actions| - 1] + [a] && a !in actions[..|actions| - 1]
              && Told(h.told, actions[..|actions| - 1]) == Some(false)
  {
    hide OnEvent, Says, FrameFirst, ResultsAnimation;
    var c := Before(h, t);
    EventSays(env, c, t.event, t.now);
    var spoken := Spoken(env, c, t.event, t.now);
    var animated := Animated(env, c, t.event, t.now);
    if a in spoken + animated {
      SpokenIsNoAnimation(c, t.event, Out(OnEvent(env, c, t.event, t.now).c, spoken), a);
      AnimationIs(env, c, t.event.frame, t.now, a, h.last);
      ResultsTold(env, c, t.event.frame, t.now, h.told);
      assert (spoken + animated)[..|spoken + animated| - 1] == spoken;
    }
  }

  lemma SpokenIsNoAnimation(c: Ctl, e: Event, o: Out, a: Action)
    requires StatusStep(c, e, o) && a.PlayAnimation?
    ensures a !in o.actions
  {}

  lemma AnimationIs(env: Env, c: Ctl, f: Frame, now: int, a: Action, last: Option<Frame>)
    requires ShowIs(c.show, last) && a in ResultsAnimation(env, FrameFirst(env, c, f, now).c, f)
    ensures ResultsAnimation(env, FrameFirst(env, c, f, now).c, f) == [a]
    ensures OnResults(f) && last.Some? && OwnPlay(last.value)
    ensures c.state.deviceConnected && !c.state.foreignPad
  {
    hide FrameFirst;
    FrameSameShow(env, c, f, now);
    if !f.isPlaying { FrameSamePad(env, c, f, now); }
  }

  lemma FrameSamePad(env: Env, c: Ctl, f: Frame, now: int)
    requires !f.isPlaying
    ensures var s := FrameFirst(env, c, f, now).c.state;
            s.deviceConnected == c.state.deviceConnected && s.foreignPad == c.state.foreignPad
  {
    hide PlayingFrame, FinishAttempt;
  }

  lemma ResultsTold(env: Env, c: Ctl, f: Frame, now: int, told: Option<bool>)
    requires OnResults(f) && c.state.deviceConnected && told.Some? && (told.value ==> IsPlaying(c))
    ensures Told(told, FrameFirst(env, c, f, now).actions) == Some(false)
  {
    hide EndPlay;
    var i := TakenIn(c, f);
    if c.state.mode == Playing {
      EndSays(env, i, now);
      ToldThat(told, EndPlay(env, i, now).actions, false);
    }
  }

  /** Which animation a grade plays: the one picked for it, and none for a grade that has no
      trigger or none picked. */
  lemma GradePlaysItsOwn(env: Env, c: Ctl, f: Frame, now: int, a: Action)
    requires a in OnEvent(env, c, TosuTelemetry(f), now).actions && a.PlayAnimation?
    ensures f.grade == Some(a.grade) && env.trigger(a.grade).Some? && a.animation != 0
    ensures var picked := c.state.config.animations;
            a.animation == match env.trigger(a.grade).value
              case SS => picked.ss
              case S => picked.s
              case A => picked.a
              case B => picked.b
              case C => picked.c
              case D => picked.d
  {
    hide FrameFirst;
    FrameKeepsConfig(env, c, f, now);
  }

  lemma FrameKeepsConfig(env: Env, c: Ctl, f: Frame, now: int)
    ensures var o := FrameFirst(env, c, f, now);
            o.c.state.config == c.state.config && forall a :: a in o.actions ==> !a.PlayAnimation?
  {
    hide PlayingFrame, EndPlay;
    PlayingKeepsConfig(env, TakenIn(c, f), f, now);
    EndKeepsConfig(env, TakenIn(c, f), now);
  }

  lemma PlayingKeepsConfig(env: Env, c: Ctl, f: Frame, now: int)
    ensures var o := PlayingFrame(env, c, f, now);
            o.c.state.config == c.state.config && forall a :: a in o.actions ==> !a.PlayAnimation?
  {
    hide AttemptFrame, Changes, Flushed;
  }

  lemma EndKeepsConfig(env: Env, c: Ctl, now: int)
    ensures var o := EndPlay(env, c, now);
            o.c.state.config == c.state.config && forall a :: a in o.actions ==> !a.PlayAnimation?
  {
    hide FinishAttempt;
  }
}
