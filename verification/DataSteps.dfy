/** What each event does to the diff cache and to the messages that change the
    pad's values: the runtime seen as the sending side of the replication. */
module DataSteps {
  import opened Options
  import opened Counters
  import opened TapRate
  import opened Daemon
  import opened Telemetry
  import opened PadData
  import opened Runtime

  // ---- Messages in an action list ----------------------------------------------------

  function Msgs(actions: seq<Action>): seq<Msg>
    decreases |actions|
  {
    if actions == [] then []
    else
      var n := |actions| - 1;
      var before := Msgs(actions[..n]);
      match actions[n]
      case SendDataUpdate(u) => before + [DataMsg(u)]
      case SendHostStatus(tosu, _, _, _) => before + [StatusMsg(tosu)]
      case _ => before
  }

  predicate NoMsgs(actions: seq<Action>) { forall a :: a in actions ==> !a.SendDataUpdate? && !a.SendHostStatus? }

  lemma {:induction false} MsgsNone(actions: seq<Action>)
    requires NoMsgs(actions)
    ensures Msgs(actions) == []
    decreases |actions|
  {
    if actions != [] {
      assert actions[|actions| - 1] in actions;
      MsgsNone(actions[..|actions| - 1]);
    }
  }

  lemma {:induction false} MsgsAppend(a: seq<Action>, b: seq<Action>)
    ensures Msgs(a + b) == Msgs(a) + Msgs(b)
    decreases |b|
  {
    if b == [] {
      assert a + b == a;
    } else {
      var n := |b| - 1;
      assert (a + b)[..|a| + n] == a + b[..n];
      MsgsAppend(a, b[..n]);
    }
  }

  lemma MsgsOne(a: Action)
    ensures Msgs([a]) == match a
                         case SendDataUpdate(u) => [DataMsg(u)]
                         case SendHostStatus(tosu, _, _, _) => [StatusMsg(tosu)]
                         case _ => []
  {
    assert [a][..0] == [];
  }

  // ---- The shape of a turn -------------------------------------------------------------

  /** Values are known to be, or only, more up to date. */
  predicate OnlyLatest(a: Data, b: Data) { b == a.(latest := b.latest) && a.latest.Keys <= b.latest.Keys }

  datatype Flush = NoFlush | FlushAt(playing: bool, hz: nat, force: bool, now: int)

  function AfterFlush(d: Data, f: Flush): Data {
    match f
    case NoFlush => d
    case FlushAt(playing, hz, force, now) => Flushed(d, playing, hz, force, now)
  }

  function Diffed(d: Data, f: Flush): Update {
    match f
    case NoFlush => []
    case FlushAt(playing, hz, force, now) => Changes(d, playing, hz, force, now)
  }

  /** What a turn does to the sending side: what it knows of the values afterwards, the
      host statuses it sends, and then perhaps a flush. */
  datatype Shape = Shape(latest: Values, statuses: seq<Msg>, flush: Flush)

  function Status(sends: bool, tosu: bool): seq<Msg> { if sends then [StatusMsg(tosu)] else [] }

  /** The start of an attempt is told, and everything flushed, at once. */
  function PlayingShape(env: Env, c: Ctl, f: Frame, now: int): Shape {
    var tells := NewAttempt(c, f) && c.state.deviceConnected;
    Shape(AttemptFrame(env, PlayOf(c), f, NewAttempt(c, f), now).data.latest, Status(tells, true),
          if tells then FlushAt(true, c.state.config.gameplayDisplayHz, true, now) else NoFlush)
  }

  function EndShape(env: Env, c: Ctl): Shape {
    Shape(FinishAttempt(env, PlayOf(c)).data.latest, Status(c.state.deviceConnected, true), NoFlush)
  }

  function FrameShape(env: Env, c: Ctl, f: Frame, now: int): Shape {
    var i := TakenIn(c, f);
    if f.isPlaying then PlayingShape(env, i, f, now)
    else if c.state.mode == Playing then EndShape(env, i)
    else Shape(i.data.latest, [], NoFlush)
  }

  predicate TickFlushes(c: Ctl) { c.state.deviceConnected && !c.state.foreignPad }

  /** A tick: the rates brought up to date, the heartbeat, and then the flush. */
  function TickShape(env: Env, c: Ctl, at: int): Shape {
    Shape(TickPlay(env, PlayOf(c), at).data.latest, Status(BeatDue(c, at), c.state.tosuConnected),
          if TickFlushes(c) then FlushAt(c.state.mode == Playing, c.state.config.gameplayDisplayHz, false, at)
          else NoFlush)
  }

  function ShapeOf(env: Env, c: Ctl, e: Event, now: int): Shape {
    match e
    case TosuTelemetry(f) => FrameShape(env, c, f, now)
    case Tick(at) => TickShape(env, c, at)
    case OsuActiveChanged(_) =>
      Shape(c.data.latest, Status(c.state.deviceConnected, c.state.tosuConnected), NoFlush)
    case TosuKeys(_, _, _) => Shape(OnEvent(env, c, e, now).c.data.latest, [], NoFlush)
    case PadPresses(_, _, _) => Shape(OnEvent(env, c, e, now).c.data.latest, [], NoFlush)
    case _ => Shape(c.data.latest, [], NoFlush)
  }

  predicate SamePad(a: Ctl, b: Ctl) {
    && b.state.tosuConnected == a.state.tosuConnected
    && b.state.foreignPad == a.state.foreignPad
    && b.state.deviceConnected == a.state.deviceConnected
  }

  /** The turn has that shape. The diff of its flush is kept from a foreign pad. */
  predicate Ordinary(c: Ctl, o: Out, s: Shape) {
    var d := c.data.(latest := s.latest);
    && OnlyLatest(c.data, d)
    && o.c.data == AfterFlush(d, s.flush)
    && Msgs(o.actions)
       == s.statuses + (if Diffed(d, s.flush) != [] && !c.state.foreignPad then [DataMsg(Diffed(d, s.flush))] else [])
    && SamePad(c, o.c)
  }

  // ---- Tosu away -----------------------------------------------------------------------

  predicate HostClear(m: Values) { forall k :: k in m && Host(k) ==> m[k] == Clear }

  /** With tosu away, nothing of tosu's or the attempt's is known or being played. */
  predicate AwayIsQuiet(c: Ctl) {
    !c.state.tosuConnected ==> HostClear(c.data.latest) && HostClear(c.data.sent) && c.tap.attempt.None?
  }

  /** What the model needs to know of the values the runtime shows: with no attempt
      there is nothing, and the history is not tosu's. */
  ghost predicate ShowsWell(env: Env) {
    && (forall p :: p in env.live(None) ==> p.1 == Clear)
    && (forall h, p | p in env.history(h) :: !Host(p.0))
  }

  // ---- The attempt's functions -----------------------------------------------------------

  lemma IngestGrows(d: Data, u: Update)
    ensures OnlyLatest(d, Ingested(d, u))
  {
    MergeKeys(d.latest, u);
  }

  lemma {:induction false} IngestStaysClear(m: Values, u: Update)
    requires HostClear(m) && forall p :: p in u ==> p.1 == Clear || !Host(p.0)
    ensures HostClear(Merge(m, u))
    decreases |u|
  {
    if u != [] {
      assert u[0] in u;
      IngestStaysClear(m[u[0].0 := u[0].1], u[1..]);
    }
  }

  lemma PublishGrows(env: Env, p: Play)
    ensures OnlyLatest(p.data, PublishAttempt(env, p).data) && PublishAttempt(env, p).tap == p.tap
  {
    IngestGrows(p.data, env.live(p.tap.attempt));
  }

  lemma FinishGrows(env: Env, p: Play)
    ensures OnlyLatest(p.data, FinishAttempt(env, p).data) && FinishAttempt(env, p).tap.attempt.None?
  {
    if p.tap.attempt.Some? { IngestGrows(p.data, env.ended(p.tap.attempt.value)); }
  }

  lemma StartGrows(env: Env, p: Play, beatmap: string, now: int)
    ensures OnlyLatest(p.data, StartAttempt(env, p, beatmap, now).data)
  {
    hide FinishAttempt, PublishAttempt;
    var f := FinishAttempt(env, p);
    FinishGrows(env, p);
    PublishGrows(env, f.(tap := f.tap.(
      source := Undecided, pending := [], attempt := Some(Attempt(now, beatmap, [], false)))));
  }

  lemma WatchGrows(env: Env, p: Play)
    ensures OnlyLatest(p.data, WatchReplay(env, p).data)
  {
    hide PublishAttempt, Watched;
    PublishGrows(env, p.(tap := Watched(p.tap)));
  }

  lemma AttemptFrameGrows(env: Env, p: Play, f: Frame, starts: bool, now: int)
    ensures OnlyLatest(p.data, AttemptFrame(env, p, f, starts, now).data)
  {
    hide StartAttempt, FinishAttempt, WatchReplay, Feed;
    var a := AttemptMoves(env, p, f, starts, now);
    if starts { StartGrows(env, p.(tap := p.tap.(lastFailed := f.failed)), f.beatmap, now); }
    else if f.failed && !p.tap.lastFailed { FinishGrows(env, p.(tap := p.tap.(lastFailed := true))); }
    var m := if f.clock.Some? then a.(tap := Feed(a.tap, [SongMoved(f.clock.value, now)])) else a;
    WatchGrows(env, m);
  }

  lemma KeysGrow(env: Env, p: Play, playing: bool, padTimes: bool, k1: nat, k2: nat, at: int)
    ensures var q := OnTosuKeys(env, p, playing, padTimes, k1, k2, at);
            && OnlyLatest(p.data, q.data)
            && (p.tap.attempt.None? ==> q.data == p.data && q.tap.attempt.None?)
  {
    hide TosuPressed, TosuShows, PublishAttempt;
    var n := p.(tap := p.tap.(lastKeys := Some((k1, k2))));
    if playing && n.tap.attempt.Some? && p.tap.lastKeys.Some? {
      var d1, d2 := Delta(k1, p.tap.lastKeys.value.0), Delta(k2, p.tap.lastKeys.value.1);
      PublishGrows(env, n.(tap := TosuPressed(n.tap, padTimes, d1, d2, at)));
    }
  }

  lemma PadGrows(env: Env, p: Play, playing: bool, nowUs: nat, presses: seq<(nat, nat)>, received: int)
    ensures var q := OnPadPresses(env, p, playing, nowUs, presses, received);
            && OnlyLatest(p.data, q.data)
            && (p.tap.attempt.None? ==> q.data == p.data && q.tap.attempt.None?)
  {
    hide PadInputs, PublishAttempt;
    var zero := received - nowUs;
    var t := p.tap.(padEpoch := Some(EpochAfter(p.tap.padEpoch, zero)));
    var inputs := PadFeeds(t, playing, EpochAfter(p.tap.padEpoch, zero), presses);
    PublishGrows(env, p.(tap := Feed(t, inputs).(source := Pad, pending := [])));
  }

  lemma HistoryGrows(env: Env, p: Play, force: bool)
    ensures var q := PublishHistory(env, p, force);
            && OnlyLatest(p.data, q.data) && q.tap.attempt == p.tap.attempt
            && (ShowsWell(env) && HostClear(p.data.latest) ==> HostClear(q.data.latest))
  {
    var history := p.shown.history;
    IngestGrows(p.data, env.history(history));
    if ShowsWell(env) && HostClear(p.data.latest) { IngestStaysClear(p.data.latest, env.history(history)); }
  }

  lemma TickPlayGrows(env: Env, p: Play, at: int)
    ensures var q := TickPlay(env, p, at);
            && OnlyLatest(p.data, q.data)
            && (p.tap.attempt.None? ==> q.tap.attempt.None?)
            && (ShowsWell(env) && p.tap.attempt.None? && HostClear(p.data.latest) ==> HostClear(q.data.latest))
  {
    hide PublishAttempt, PublishHistory, Feed;
    var a := if p.tap.attempt.Some? then PublishAttempt(env, p.(tap := Feed(p.tap, [Advanced(at)]))) else p;
    PublishGrows(env, p.(tap := Feed(p.tap, [Advanced(at)])));
    HistoryGrows(env, a, false);
  }

  // ---- tosu's frames -----------------------------------------------------------------------

  lemma OnlyLatestIs(a: Data, b: Data)
    requires OnlyLatest(a, b)
    ensures b == a.(latest := b.latest) && OnlyLatest(a, a.(latest := b.latest))
  {}

  lemma EnterSays(c: Ctl)
    ensures var o := EnterPlay(c);
            && Msgs(o.actions) == [] && o.c.data == c.data && SamePad(c, o.c) && o.c.state.config == c.state.config
  {
    MsgsNone(EnterPlay(c).actions);
  }

  lemma AnnounceData(c: Ctl, now: int)
    ensures Ordinary(c, Announce(c, now), Shape(c.data.latest, [StatusMsg(true)],
                                                FlushAt(true, c.state.config.gameplayDisplayHz, true, now)))
  {
    var status := [HostStatus(c, true, true)];
    var changes := Changes(c.data, true, c.state.config.gameplayDisplayHz, true, now);
    MsgsOne(status[0]);
    MsgsOne(SendDataUpdate(changes));
    MsgsAppend(status, [SendDataUpdate(changes)]);
    assert status + [] == status;
    assert [StatusMsg(true)] + [] == [StatusMsg(true)];
  }

  lemma PlayingData(env: Env, c: Ctl, f: Frame, now: int)
    ensures Ordinary(c, PlayingFrame(env, c, f, now), PlayingShape(env, c, f, now))
  {
    hide AttemptFrame, Announce, OnlyLatest, EnterPlay, AfterFlush, Diffed;
    var starts := NewAttempt(c, f);
    var play := AttemptFrame(env, PlayOf(c), f, starts, now);
    AttemptFrameGrows(env, PlayOf(c), f, starts, now);
    OnlyLatestIs(c.data, play.data);
    var b := Attempted(env, c, f, now);
    var p := EnterPlay(b);
    EnterSays(b);
    if starts && p.c.state.deviceConnected {
      AnnounceData(p.c, now);
      MsgsAppend(p.actions, Announce(p.c, now).actions);
      assert [] + Msgs(Announce(p.c, now).actions) == Msgs(Announce(p.c, now).actions);
    } else {
      NothingFlushed(play.data);
    }
  }

  lemma NothingFlushed(d: Data)
    ensures AfterFlush(d, NoFlush) == d && Diffed(d, NoFlush) == []
  {}

  lemma EndData(env: Env, c: Ctl, now: int)
    ensures Ordinary(c, EndPlay(env, c, now), EndShape(env, c))
  {
    hide FinishAttempt, OnlyLatest;
    var play := FinishAttempt(env, PlayOf(c));
    FinishGrows(env, PlayOf(c));
    OnlyLatestIs(c.data, play.data);
    var e := WithPlay(c, play);
    var statuses := Status(e.state.deviceConnected, true);
    var guard := [SetStorageWritesAllowed(false)];
    MsgsOne(guard[0]);
    MsgsOne(HostStatus(e, true, false));
    MsgsAppend(guard, [HostStatus(e, true, false)]);
    assert guard + [] == guard;
    assert Msgs(EndPlay(env, c, now).actions) == statuses;
    assert statuses + [] == statuses;
  }

  lemma ResultsSayNothing(env: Env, c: Ctl, f: Frame)
    ensures NoMsgs(ResultsAnimation(env, c, f))
  {}

  lemma StillOrdinary(c: Ctl)
    ensures Ordinary(c, Out(c, []), Shape(c.data.latest, [], NoFlush))
  {
    var none: seq<Msg> := [];
    assert none + none == none;
  }

  /** Growing first and then being ordinary is being ordinary. */
  lemma GrownOrdinary(c: Ctl, i: Ctl, o: Out, s: Shape)
    requires OnlyLatest(c.data, i.data) && SamePad(c, i) && Ordinary(i, o, s)
    ensures Ordinary(c, o, s)
  {
    assert i.data.(latest := s.latest) == c.data.(latest := s.latest);
  }

  lemma WithAnimation(env: Env, c: Ctl, p: Out, f: Frame, s: Shape)
    requires Ordinary(c, p, s)
    ensures Ordinary(c, Out(p.c.(show := ArmResults(p.c.show, f)), p.actions + ResultsAnimation(env, p.c, f)), s)
  {
    hide ResultsAnimation, ArmResults, OnlyLatest, AfterFlush, Diffed;
    ResultsSayNothing(env, p.c, f);
    MsgsNone(ResultsAnimation(env, p.c, f));
    MsgsAppend(p.actions, ResultsAnimation(env, p.c, f));
    assert Msgs(p.actions) + [] == Msgs(p.actions);
  }

  lemma TelemetryData(env: Env, c: Ctl, f: Frame, now: int)
    ensures Ordinary(c, OnTelemetry(env, c, f, now), FrameShape(env, c, f, now))
  {
    hide PlayingFrame, EndPlay, ResultsAnimation, Ordinary, OnlyLatest, PlayingShape, EndShape;
    var i := TakenIn(c, f);
    IngestGrows(c.data, f.values);
    var p := FrameFirst(env, c, f, now);
    if f.isPlaying { PlayingData(env, i, f, now); }
    else if c.state.mode == Playing { EndData(env, i, now); }
    else { StillOrdinary(i); }
    GrownOrdinary(c, i, p, FrameShape(env, c, f, now));
    WithAnimation(env, c, p, f, FrameShape(env, c, f, now));
  }

  // ---- The tick ------------------------------------------------------------------------------

  lemma CooldownData(c: Ctl, at: int)
    ensures var o := TickCooldown(c, at);
            && NoMsgs(o.actions) && o.c.data == c.data && o.c.tap == c.tap && SamePad(c, o.c)
            && o.c.state.config == c.state.config && o.c.state.tap == c.state.tap
            && (o.c.state.mode == Playing <==> c.state.mode == Playing)
            && o.c.clock.lastHostStatus == c.clock.lastHostStatus
  {}

  lemma StatusData(c: Ctl, at: int)
    ensures var o := TickStatus(c, at);
            && o.c.data == c.data && o.c.tap == c.tap && o.c.state == c.state
            && Msgs(o.actions) == Status(BeatDue(c, at), c.state.tosuConnected)
  {
    var status := HostStatus(c, c.state.tosuConnected, c.state.mode == Playing);
    var poll := if Elapsed(at, c.clock.lastStatusPoll) >= STATUS_POLL_INTERVAL && c.state.deviceConnected
                then [RequestDeviceStatus] else [];
    MsgsNone(poll);
    MsgsOne(status);
    MsgsAppend(poll, [status]);
    assert poll + [] == poll;
  }

  predicate LeavesData(c: Ctl, o: Out) {
    NoMsgs(o.actions) && o.c.data == c.data && SamePad(c, o.c) && o.c.tap.attempt == c.tap.attempt
  }

  lemma LateTickData(c: Ctl, at: int)
    ensures LeavesData(c, TickPeriodic(c, at)) && LeavesData(c, TickTapStats(c, at)) && LeavesData(c, TickBackup(c, at))
  {}

  lemma DataData(env: Env, c: Ctl, at: int)
    ensures var u := TickPlay(env, PlayOf(c), at);
            var flush := TickShape(env, c, at).flush;
            var o := TickData(env, c, at);
            && o.c.data == AfterFlush(u.data, flush) && o.c.tap == u.tap && SamePad(c, o.c)
            && Msgs(o.actions)
               == (if Diffed(u.data, flush) != [] && !c.state.foreignPad then [DataMsg(Diffed(u.data, flush))] else [])
  {
    hide TickPlay;
    var u := TickPlay(env, PlayOf(c), at);
    MsgsOne(SendDataUpdate(Changes(u.data, c.state.mode == Playing, c.state.config.gameplayDisplayHz, false, at)));
  }

  lemma TickEventData(env: Env, c: Ctl, at: int)
    ensures Ordinary(c, OnTick(env, c, at), TickShape(env, c, at))
    ensures OnTick(env, c, at).c.tap.attempt == TickPlay(env, PlayOf(c), at).tap.attempt
  {
    hide TickCooldown, TickStatus, TickData, TickPeriodic, TickTapStats, TickBackup, TickPlay, AfterFlush, Diffed,
      OnlyLatest;
    var cool := TickCooldown(c, at);
    var status := TickStatus(cool.c, at);
    var data := TickData(env, status.c, at);
    var periodic := TickPeriodic(data.c, at);
    var stats := TickTapStats(periodic.c, at);
    var backup := TickBackup(stats.c, at);
    CooldownData(c, at);
    StatusData(cool.c, at);
    DataData(env, status.c, at);
    LateTickData(data.c, at);
    LateTickData(periodic.c, at);
    LateTickData(stats.c, at);
    TickPlayGrows(env, PlayOf(c), at);
    OnlyLatestIs(c.data, TickPlay(env, PlayOf(c), at).data);
    TickMsgs(cool.actions, status.actions, data.actions, periodic.actions, stats.actions, backup.actions);
  }

  lemma TickMsgs(cool: seq<Action>, status: seq<Action>, data: seq<Action>, periodic: seq<Action>,
                 stats: seq<Action>, backup: seq<Action>)
    requires NoMsgs(cool) && NoMsgs(periodic) && NoMsgs(stats) && NoMsgs(backup)
    ensures Msgs(cool + status + data + periodic + stats + backup) == Msgs(status) + Msgs(data)
  {
    hide Msgs, NoMsgs;
    MsgsNone(cool);
    MsgsNone(periodic);
    MsgsNone(stats);
    MsgsNone(backup);
    MsgsAppend(cool, status);
    MsgsAppend(cool + status, data);
    MsgsAppend(cool + status + data, periodic);
    MsgsAppend(cool + status + data + periodic, stats);
    MsgsAppend(cool + status + data + periodic + stats, backup);
  }

  // ---- The other events --------------------------------------------------------------------------

  lemma NothingOrdinary(c: Ctl, o: Out, latest: Values)
    requires o.c.data == c.data.(latest := latest) && OnlyLatest(c.data, o.c.data)
    requires Msgs(o.actions) == [] && SamePad(c, o.c)
    ensures Ordinary(c, o, Shape(latest, [], NoFlush))
  {
    var none: seq<Msg> := [];
    assert none + none == none;
  }

  lemma OsuActiveData(c: Ctl, active: bool, now: int)
    ensures Ordinary(c, OnOsuActive(c, active, now),
                     Shape(c.data.latest, Status(c.state.deviceConnected, c.state.tosuConnected), NoFlush))
  {
    var a := c.(state := c.state.(osuActive := active));
    MsgsOne(HostStatus(a, a.state.tosuConnected, a.state.mode == Playing));
    var statuses := Status(c.state.deviceConnected, c.state.tosuConnected);
    assert Msgs(OnOsuActive(c, active, now).actions) == statuses;
    assert statuses + [] == statuses;
  }

  lemma {:induction false} LogBatchData(c: Ctl, ids: seq<nat>)
    ensures var o := OnLogBatch(c, ids);
            NoMsgs(o.actions) && o.c.data == c.data && o.c.tap == c.tap && SamePad(c, o.c)
    decreases |ids|
  {
    if ids != [] { LogBatchData(c, ids[..|ids| - 1]); }
  }

  lemma SyncData(c: Ctl, e: Event, now: int)
    requires e.SyncCompleted?
    ensures var o := OnSyncCompleted(c, e, now);
            NoMsgs(o.actions) && o.c.data == c.data && o.c.tap == c.tap && SamePad(c, o.c)
  {}

  predicate SpeaksOfNothing(e: Event) {
    || e.DeviceOwnership? || e.DeviceCounters? || e.DeviceStatus? || e.DeviceHeProgress? || e.DeviceLayoutAck?
    || e.DeviceLogBatch? || e.PadPressTimes? || e.SyncCompleted? || e.SqliteReconnected? || e.SqliteError?
  }

  lemma SilentEvents(env: Env, c: Ctl, e: Event, now: int)
    requires SpeaksOfNothing(e)
    ensures var o := OnEvent(env, c, e, now);
            NoMsgs(o.actions) && o.c.data == c.data && SamePad(c, o.c) && o.c.tap.attempt == c.tap.attempt
  {
    hide OnLogBatch, OnSyncCompleted;
    if e.DeviceLogBatch? { LogBatchData(c, e.ids); }
    if e.SyncCompleted? { SyncData(c, e, now); }
  }

  /** The events that do not make or end a connection, of the pad or of tosu. */
  predicate IsOrdinary(e: Event) { !e.DeviceConnected? && !e.DeviceDisconnected? && !e.TosuConnectionChanged? }

  lemma OrdinaryEvent(env: Env, c: Ctl, e: Event, now: int)
    requires IsOrdinary(e)
    ensures Ordinary(c, OnEvent(env, c, e, now), ShapeOf(env, c, e, now))
  {
    hide OnLogBatch, OnTelemetry, OnOsuActive, OnTick, OnSyncCompleted, OnTosuKeys, OnPadPresses, Ordinary,
      FrameShape, TickShape, OnlyLatest;
    var o := OnEvent(env, c, e, now);
    match e
    case TosuTelemetry(f) => TelemetryData(env, c, f, now);
    case Tick(at) => TickEventData(env, c, at);
    case OsuActiveChanged(active) => OsuActiveData(c, active, now);
    case TosuKeys(k1, k2, at) =>
      KeysGrow(env, PlayOf(c), c.state.mode == Playing, PadTimesPresses(c), k1, k2, at);
      GrownSilently(c, o);
    case PadPresses(nowUs, presses, received) =>
      PadGrows(env, PlayOf(c), c.state.mode == Playing, nowUs, presses, received);
      GrownSilently(c, o);
    case _ =>
      SilentEvents(env, c, e, now);
      MsgsNone(o.actions);
      GrownSilently(c, o);
  }

  lemma GrownSilently(c: Ctl, o: Out)
    requires OnlyLatest(c.data, o.c.data) || o.c.data == c.data
    requires Msgs(o.actions) == [] && SamePad(c, o.c)
    ensures Ordinary(c, o, Shape(o.c.data.latest, [], NoFlush))
  {
    NothingOrdinary(c, o, o.c.data.latest);
  }

  /** With tosu away and nothing of its known, only its own frames bring any. */
  lemma OrdinaryIsQuiet(env: Env, c: Ctl, e: Event, now: int)
    requires ShowsWell(env) && IsOrdinary(e) && !e.TosuTelemetry?
    requires c.tap.attempt.None? && HostClear(c.data.latest)
    ensures HostClear(ShapeOf(env, c, e, now).latest) && OnEvent(env, c, e, now).c.tap.attempt.None?
  {
    hide OnLogBatch, OnOsuActive, OnTick, OnSyncCompleted, OnTosuKeys, OnPadPresses, HostClear, TickPlay;
    match e
    case Tick(at) =>
      TickEventData(env, c, at);
      TickPlayGrows(env, PlayOf(c), at);
    case OsuActiveChanged(active) => OsuActiveQuiet(c, active, now);
    case TosuKeys(k1, k2, at) =>
      KeysGrow(env, PlayOf(c), c.state.mode == Playing, PadTimesPresses(c), k1, k2, at);
    case PadPresses(nowUs, presses, received) =>
      PadGrows(env, PlayOf(c), c.state.mode == Playing, nowUs, presses, received);
    case _ => SilentEvents(env, c, e, now);
  }

  lemma OsuActiveQuiet(c: Ctl, active: bool, now: int)
    ensures OnOsuActive(c, active, now).c.tap == c.tap
  {}

  // ---- tosu and the pad come and go -------------------------------------------------------

  /** tosu comes back: nothing is sent again, nothing is forgotten. */
  predicate TosuBackStep(c: Ctl, o: Out) {
    && o.c.data == c.data && Msgs(o.actions) == Status(c.state.deviceConnected, true) && o.c.state.tosuConnected
    && o.c.state.deviceConnected == c.state.deviceConnected && o.c.state.foreignPad == c.state.foreignPad
  }

  /** tosu goes: nothing of its is known or sent any more. */
  predicate TosuGoneStep(c: Ctl, o: Out) {
    && o.c.data.sent == map[] && AwayIsQuiet(o.c) && !o.c.state.tosuConnected
    && (forall m :: m in Msgs(o.actions) ==> m.StatusMsg?)
    && o.c.state.deviceConnected == c.state.deviceConnected && o.c.state.foreignPad == c.state.foreignPad
  }

  lemma TosuBackData(env: Env, c: Ctl, now: int)
    ensures TosuBackStep(c, OnTosuConnection(env, c, true, now))
  {
    var t := c.(state := c.state.(tosuConnected := true));
    var none: seq<Action> := [];
    MsgsOne(HostStatus(t, true, false));
    assert none + [HostStatus(t, true, false)] == [HostStatus(t, true, false)];
    assert none + none == none;
  }

  lemma TosuGonePlayIs(env: Env, p: Play)
    requires ShowsWell(env)
    ensures var q := TosuGonePlay(env, p);
            q.data.sent == map[] && HostClear(q.data.latest) && q.tap.attempt.None?
  {
    hide FinishAttempt, PublishHistory;
    var f := FinishAttempt(env, p);
    FinishGrows(env, p);
    var d := Ingested(Cleared(f.data), env.live(None));
    IngestStaysClear(map[], env.live(None));
    HistoryGrows(env, f.(tap := f.tap.(lastKeys := None), data := d), true);
  }

  lemma TosuGoneData(env: Env, c: Ctl, now: int)
    requires ShowsWell(env)
    ensures TosuGoneStep(c, OnTosuConnection(env, c, false, now))
  {
    hide TosuGonePlay;
    var t := c.(state := c.state.(tosuConnected := false));
    var g := TosuGone(env, t, now);
    TosuGonePlayIs(env, PlayOf(t));
    var status := HostStatus(g.c, false, false);
    MsgsNone(g.actions);
    MsgsOne(status);
    MsgsAppend(g.actions, [status]);
    assert g.actions + [] == g.actions;
  }

  /** A pad connects: everything will be sent again. */
  predicate GreetStep(c: Ctl, o: Out) {
    && o.c.data == NothingSent(c.data) && o.c.tap == c.tap && o.c.state.deviceConnected
    && o.c.state.tosuConnected == c.state.tosuConnected
    && forall m :: m in Msgs(o.actions) ==> m.StatusMsg?
  }

  lemma GreetData(c: Ctl, sendConfig: bool, now: int)
    ensures var o := Greet(c, sendConfig, now);
            && o.c.data == NothingSent(c.data) && o.c.tap == c.tap && o.c.state == c.state
            && (forall m :: m in Msgs(o.actions) ==> m.StatusMsg?)
  {
    MsgsAreStatuses(Greet(c, sendConfig, now).actions);
  }

  lemma {:induction false} MsgsAreStatuses(actions: seq<Action>)
    requires forall a :: a in actions ==> !a.SendDataUpdate?
    ensures forall m :: m in Msgs(actions) ==> m.StatusMsg?
    decreases |actions|
  {
    if actions != [] {
      assert actions[|actions| - 1] in actions;
      MsgsAreStatuses(actions[..|actions| - 1]);
    }
  }

  predicate Speechless(c: Ctl, o: Out) {
    && NoMsgs(o.actions) && o.c.data == c.data && o.c.tap == c.tap
    && o.c.state.deviceConnected == c.state.deviceConnected && o.c.state.tosuConnected == c.state.tosuConnected
  }

  lemma AdoptSpeechless(env: Env, c: Ctl, config: Option<DeviceConfig>)
    ensures Speechless(c, AdoptConfig(env, c, config))
  {}

  lemma JudgeSpeechless(c: Ctl, info: DeviceInfo)
    ensures Speechless(c, JudgeOwner(c, info))
  {}

  lemma RegisterSpeechless(env: Env, c: Ctl, info: DeviceInfo)
    ensures Speechless(c, Register(env, c, info))
  {}

  lemma ConnectedData(env: Env, c: Ctl, info: DeviceInfo, config: Option<DeviceConfig>, now: int)
    requires info.protocolVersion == DEVICE_PROTOCOL_VERSION
    ensures GreetStep(c, OnConnected(env, c, info, config, now))
  {
    hide AdoptConfig, JudgeOwner, Register, Greet, NvsWiped;
    var s := StagesOf(env, c, info, config, now);
    AdoptSpeechless(env, s.accepted, config);
    JudgeSpeechless(s.identified, info);
    RegisterSpeechless(env, s.judged.c, info);
    GreetData(s.registered.c, config.None? || s.wiped, now);
    MsgsNone(s.adopted.actions + s.judged.actions + s.registered.actions);
    MsgsAppend(s.adopted.actions + s.judged.actions + s.registered.actions, s.greeted.actions);
    assert [] + Msgs(s.greeted.actions) == Msgs(s.greeted.actions);
  }

  /** The pad is gone, or not one we speak to. */
  predicate LostStep(c: Ctl, o: Out) {
    && o.c.data == c.data && o.c.tap.attempt == c.tap.attempt && Msgs(o.actions) == [] && !o.c.state.deviceConnected
    && o.c.state.tosuConnected == c.state.tosuConnected
  }

  lemma DisconnectedData(c: Ctl)
    ensures LostStep(c, Out(OnDisconnected(c), []))
  {
    var none: seq<Action> := [];
    MsgsNone(none);
  }

  lemma IncompatibleData(env: Env, c: Ctl, info: DeviceInfo, config: Option<DeviceConfig>, now: int)
    requires info.protocolVersion != DEVICE_PROTOCOL_VERSION
    ensures LostStep(c, OnConnected(env, c, info, config, now))
  {}

  // ---- Every event ----------------------------------------------------------------------------------

  ghost predicate DataStep(env: Env, c: Ctl, e: Event, now: int, o: Out) {
    match e
    case DeviceConnected(info, _) =>
      if info.protocolVersion == DEVICE_PROTOCOL_VERSION then GreetStep(c, o) else LostStep(c, o)
    case DeviceDisconnected => LostStep(c, o)
    case TosuConnectionChanged(connected) => if connected then TosuBackStep(c, o) else TosuGoneStep(c, o)
    case _ => Ordinary(c, o, ShapeOf(env, c, e, now))
  }

  lemma EventData(env: Env, c: Ctl, e: Event, now: int)
    requires ShowsWell(env)
    ensures DataStep(env, c, e, now, OnEvent(env, c, e, now))
  {
    hide OnConnected, OnTosuConnection, GreetStep, TosuBackStep, TosuGoneStep, Ordinary, ShapeOf;
    match e
    case DeviceConnected(info, config) =>
      if info.protocolVersion == DEVICE_PROTOCOL_VERSION { ConnectedData(env, c, info, config, now); }
      else { IncompatibleData(env, c, info, config, now); }
    case DeviceDisconnected => DisconnectedData(c);
    case TosuConnectionChanged(connected) =>
      if connected { TosuBackData(env, c, now); } else { TosuGoneData(env, c, now); }
    case _ => OrdinaryEvent(env, c, e, now);
  }
}
