/** One press source per attempt, and the pad's clock, over whole runs. */
module PressSources {
  import opened Options
  import opened Counters
  import opened TapRate
  import opened Daemon
  import opened Telemetry
  import opened Runtime

  predicate AllFrom(log: seq<TapInput>, pad: bool) {
    forall i :: i in log && i.Press? ==> i.fromPad == pad
  }

  predicate NoPresses(log: seq<TapInput>) { forall i :: i in log ==> !i.Press? }

  /** An attempt not marked replay has been fed by its source alone; a replay's
      source is tosu, and so are its timings marked coarse. */
  predicate OneSource(t: Tap) {
    t.attempt.Some? ==>
      var a := t.attempt.value;
      && (a.replay ==> t.source == Tosu)
      && (!a.replay && t.source == Undecided ==> NoPresses(a.log))
      && (!a.replay && t.source != Undecided ==> AllFrom(a.log, t.source == Pad))
      && (t.source == Tosu ==> CoarseTiming in a.log)
  }

  /** The pad's clock is untouched. */
  predicate SameEpoch(a: Tap, b: Tap) { a.padEpoch == b.padEpoch }

  /** What all tap rate functions but the pad's own keep. */
  predicate Keeps(a: Tap, b: Tap) { SameEpoch(a, b) && (OneSource(a) ==> OneSource(b)) }

  lemma FeedKeeps(t: Tap, inputs: seq<TapInput>)
    requires NoPresses(inputs)
    ensures Keeps(t, Feed(t, inputs))
  {}

  lemma WatchedKeeps(t: Tap)
    ensures Keeps(t, Watched(t))
  {
    if t.attempt.Some? && t.source != Tosu {
      assert ([CoarseTiming] + TosuInputs(t.pending))[0] == CoarseTiming;
      assert CoarseTiming in t.attempt.value.log + ([CoarseTiming] + TosuInputs(t.pending));
    }
  }

  lemma FirstFromTosu(t: Tap, d1: nat, d2: nat, at: int)
    ensures t.source == Undecided ==> Keeps(t, Feed(t, [CoarseTiming, Press(false, d1, d2, at)]).(source := Tosu))
  {
    if t.attempt.Some? {
      var more := [CoarseTiming, Press(false, d1, d2, at)];
      assert more[0] == CoarseTiming;
      assert CoarseTiming in t.attempt.value.log + more;
    }
  }

  lemma PendingFromTosu(t: Tap)
    ensures t.source == Undecided ==> Keeps(t, FromPending(t))
  {
    if t.attempt.Some? {
      var more := [CoarseTiming] + TosuInputs(t.pending);
      assert more[0] == CoarseTiming;
      assert CoarseTiming in t.attempt.value.log + more;
    }
  }

  lemma TosuPressedKeeps(t: Tap, padTimes: bool, d1: nat, d2: nat, at: int)
    ensures Keeps(t, TosuPressed(t, padTimes, d1, d2, at))
  {
    FirstFromTosu(t, d1, d2, at);
    PendingFromTosu(t.(pending := t.pending + [(d1, d2, at)]));
  }

  lemma {:induction false} PadInputsStamped(epoch: int, origin: int, presses: seq<(nat, nat)>, limit: int)
    requires forall p :: p in presses ==> epoch + p.1 <= limit
    ensures forall i :: i in PadInputs(epoch, origin, presses) ==>
              i.Press? && i.fromPad && origin <= i.at <= limit && i.k1 + i.k2 == 1
    decreases |presses|
  {
    if presses != [] {
      assert presses[|presses| - 1] in presses;
      PadInputsStamped(epoch, origin, presses[..|presses| - 1], limit);
    }
  }

  lemma {:induction false} PadInputsArePads(epoch: int, origin: int, presses: seq<(nat, nat)>)
    ensures AllFrom(PadInputs(epoch, origin, presses), true)
    decreases |presses|
  {
    if presses != [] { PadInputsArePads(epoch, origin, presses[..|presses| - 1]); }
  }

  /** No pad press is stamped after its batch arrived, nor before its attempt. */
  lemma PadPressesAreNotLate(t: Tap, playing: bool, nowUs: nat, presses: seq<(nat, nat)>, received: int)
    requires forall p :: p in presses ==> p.1 <= nowUs
    ensures forall i :: i in PadFeeds(t, playing, EpochAfter(t.padEpoch, received - nowUs), presses) ==>
              i.Press? && i.fromPad && t.attempt.Some? && t.attempt.value.origin <= i.at <= received
  {
    var epoch := EpochAfter(t.padEpoch, received - nowUs);
    assert epoch <= received - nowUs;
    if playing && t.source != Tosu && t.attempt.Some? {
      PadInputsStamped(epoch, t.attempt.value.origin, presses, received);
      assert PadFeeds(t, playing, epoch, presses) == PadInputs(epoch, t.attempt.value.origin, presses);
    } else {
      assert PadFeeds(t, playing, epoch, presses) == [];
    }
  }

  lemma PadPressesKeep(env: Env, p: Play, playing: bool, nowUs: nat, presses: seq<(nat, nat)>, received: int)
    requires OneSource(p.tap)
    ensures OneSource(OnPadPresses(env, p, playing, nowUs, presses, received).tap)
    ensures OnPadPresses(env, p, playing, nowUs, presses, received).tap.padEpoch
         == if received - nowUs < env.earliest then p.tap.padEpoch
            else Some(EpochAfter(p.tap.padEpoch, received - nowUs))
  {
    var epoch := EpochAfter(p.tap.padEpoch, received - nowUs);
    if playing && p.tap.source != Tosu && p.tap.attempt.Some? {
      PadInputsArePads(epoch, p.tap.attempt.value.origin, presses);
    }
  }

  // ---- Every event -------------------------------------------------------------------

  lemma FinishKeeps(env: Env, p: Play)
    ensures Keeps(p.tap, FinishAttempt(env, p).tap)
  {
    hide Recordable, CapUnsaved, Ingested;
  }

  lemma StartKeeps(env: Env, p: Play, beatmap: string, now: int)
    ensures Keeps(p.tap, StartAttempt(env, p, beatmap, now).tap)
  {
    hide FinishAttempt, Ingested;
    FinishKeeps(env, p);
  }

  lemma WatchReplayKeeps(env: Env, p: Play)
    ensures Keeps(p.tap, WatchReplay(env, p).tap)
  {
    hide Watched, Ingested;
    WatchedKeeps(p.tap);
  }

  lemma AttemptFrameKeeps(env: Env, p: Play, f: Frame, starts: bool, now: int)
    ensures Keeps(p.tap, AttemptFrame(env, p, f, starts, now).tap)
  {
    hide StartAttempt, FinishAttempt, WatchReplay, Feed;
    var a :=
      if starts then StartAttempt(env, p.(tap := p.tap.(lastFailed := f.failed)), f.beatmap, now)
      else if f.failed && !p.tap.lastFailed then FinishAttempt(env, p.(tap := p.tap.(lastFailed := true)))
      else p.(tap := Feed(p.tap, [BeatmapIs(f.beatmap)]));
    if starts { StartKeeps(env, p.(tap := p.tap.(lastFailed := f.failed)), f.beatmap, now); }
    else if f.failed && !p.tap.lastFailed { FinishKeeps(env, p.(tap := p.tap.(lastFailed := true))); }
    else { FeedKeeps(p.tap, [BeatmapIs(f.beatmap)]); }
    assert Keeps(p.tap, a.tap);
    var m := if f.clock.Some? then a.(tap := Feed(a.tap, [SongMoved(f.clock.value, now)])) else a;
    if f.clock.Some? { FeedKeeps(a.tap, [SongMoved(f.clock.value, now)]); }
    WatchReplayKeeps(env, m);
  }

  lemma PlayingKeeps(env: Env, c: Ctl, f: Frame, now: int)
    ensures Keeps(c.tap, PlayingFrame(env, c, f, now).c.tap)
  {
    hide AttemptFrame, OneSource;
    AttemptFrameKeeps(env, PlayOf(c), f, NewAttempt(c, f), now);
  }

  lemma TelemetryKeeps(env: Env, c: Ctl, f: Frame, now: int)
    ensures Keeps(c.tap, OnTelemetry(env, c, f, now).c.tap)
  {
    hide PlayingFrame, FinishAttempt, OneSource;
    var i := TakenIn(c, f);
    if f.isPlaying { PlayingKeeps(env, i, f, now); } else { FinishKeeps(env, PlayOf(i)); }
  }

  lemma KeysKeep(env: Env, p: Play, playing: bool, padTimes: bool, k1: nat, k2: nat, at: int)
    ensures Keeps(p.tap, OnTosuKeys(env, p, playing, padTimes, k1, k2, at).tap)
  {
    hide TosuPressed, TosuShows, Ingested;
    var n := p.tap.(lastKeys := Some((k1, k2)));
    if p.tap.lastKeys.Some? {
      TosuPressedKeeps(n, padTimes, Delta(k1, p.tap.lastKeys.value.0), Delta(k2, p.tap.lastKeys.value.1), at);
    }
  }

  lemma TosuConnectionKeeps(env: Env, c: Ctl, connected: bool, now: int)
    ensures Keeps(c.tap, OnTosuConnection(env, c, connected, now).c.tap)
  {
    hide TosuGone, OneSource;
    TosuGoneKeeps(env, c.(state := c.state.(tosuConnected := connected)), now);
  }

  lemma TosuGoneKeeps(env: Env, c: Ctl, now: int)
    ensures Keeps(c.tap, TosuGone(env, c, now).c.tap)
  {
    hide FinishAttempt, Ingested;
    FinishKeeps(env, PlayOf(c));
  }

  lemma TickPlayKeeps(env: Env, p: Play, at: int)
    ensures Keeps(p.tap, TickPlay(env, p, at).tap)
  {
    hide Feed, Ingested;
    FeedKeeps(p.tap, [Advanced(at)]);
  }

  lemma TickDataKeeps(env: Env, c: Ctl, at: int)
    ensures Keeps(c.tap, TickData(env, c, at).c.tap)
  {
    hide TickPlay, OneSource;
    TickPlayKeeps(env, PlayOf(c), at);
  }

  /** The tick's other parts leave the tap rate alone, but for what is unsaved. */
  lemma TickSameTap(c: Ctl, at: int)
    ensures TickCooldown(c, at).c.tap == c.tap
    ensures TickStatus(c, at).c.tap == c.tap
    ensures TickPeriodic(c, at).c.tap == c.tap
    ensures TickBackup(c, at).c.tap == c.tap
  {}

  lemma TickStatsKeeps(c: Ctl, at: int)
    ensures Keeps(c.tap, TickTapStats(c, at).c.tap)
  {}

  lemma TickKeeps(env: Env, c: Ctl, at: int)
    ensures Keeps(c.tap, OnTick(env, c, at).c.tap)
  {
    hide TickCooldown, TickStatus, TickData, TickPeriodic, TickTapStats, TickBackup, OneSource;
    var cool := TickCooldown(c, at);
    var status := TickStatus(cool.c, at);
    var data := TickData(env, status.c, at);
    var periodic := TickPeriodic(data.c, at);
    var stats := TickTapStats(periodic.c, at);
    TickSameTap(c, at);
    TickSameTap(cool.c, at);
    TickDataKeeps(env, status.c, at);
    TickSameTap(data.c, at);
    TickStatsKeeps(periodic.c, at);
    TickSameTap(stats.c, at);
  }

  lemma {:induction false} LogBatchSameTap(c: Ctl, ids: seq<nat>)
    ensures OnLogBatch(c, ids).c.tap == c.tap
    decreases |ids|
  {
    if ids != [] { LogBatchSameTap(c, ids[..|ids| - 1]); }
  }

  lemma ConnectedSameTap(env: Env, c: Ctl, info: DeviceInfo, config: Option<DeviceConfig>, now: int)
    ensures OnConnected(env, c, info, config, now).c.tap == c.tap
  {
    hide Greeting, NvsWiped, Adopted;
  }

  // ---- Runs ---------------------------------------------------------------------------

  /** The arrival of a batch on the pad's clock zero, unless it cannot be told. */
  function ZerosAfter(env: Env, zeros: seq<int>, e: Event): seq<int> {
    match e
    case PadPressTimes(_) => []
    case DeviceDisconnected => []
    case PadPresses(nowUs, _, received) =>
      if received - nowUs < env.earliest then zeros else zeros + [received - nowUs]
    case _ => zeros
  }

  /** The epoch is the earliest of the connection's batches. */
  predicate EpochIs(epoch: Option<int>, zeros: seq<int>) {
    (epoch.None? <==> zeros == [])
    && (epoch.Some? ==> epoch.value in zeros && forall z :: z in zeros ==> epoch.value <= z)
  }

  lemma EventSources(env: Env, c: Ctl, e: Event, now: int, zeros: seq<int>)
    requires OneSource(c.tap) && EpochIs(c.tap.padEpoch, zeros)
    ensures OneSource(OnEvent(env, c, e, now).c.tap)
    ensures EpochIs(OnEvent(env, c, e, now).c.tap.padEpoch, ZerosAfter(env, zeros, e))
  {
    hide OnConnected, OnLogBatch, OnTelemetry, OnTosuConnection, OnTick, OnTosuKeys, OnPadPresses, OneSource, EpochIs;
    match e
    case DeviceConnected(info, config) => ConnectedSameTap(env, c, info, config, now);
    case DeviceDisconnected => Restarted(c.tap, c.tap.(padPressTimes := false, padEpoch := None));
    case DeviceLogBatch(ids) => LogBatchSameTap(c, ids);
    case TosuTelemetry(f) => TelemetryKeeps(env, c, f, now);
    case TosuKeys(k1, k2, at) =>
      KeysKeep(env, PlayOf(c), c.state.mode == Playing, PadTimesPresses(c), k1, k2, at);
    case PadPressTimes(on) => Restarted(c.tap, c.tap.(padPressTimes := on, padEpoch := None));
    case PadPresses(nowUs, presses, received) =>
      PadPressesKeep(env, PlayOf(c), c.state.mode == Playing, nowUs, presses, received);
      EpochGrows(c.tap.padEpoch, zeros, received - nowUs);
    case TosuConnectionChanged(connected) => TosuConnectionKeeps(env, c, connected, now);
    case Tick(at) => TickKeeps(env, c, at);
    case _ =>
  }

  lemma Restarted(a: Tap, b: Tap)
    requires OneSource(a) && b.attempt == a.attempt && b.source == a.source && b.padEpoch.None?
    ensures OneSource(b) && EpochIs(b.padEpoch, [])
  {}

  lemma EpochGrows(epoch: Option<int>, zeros: seq<int>, zero: int)
    requires EpochIs(epoch, zeros)
    ensures EpochIs(Some(EpochAfter(epoch, zero)), zeros + [zero])
  {
    assert zero in zeros + [zero];
    if epoch.Some? { assert epoch.value in zeros + [zero]; }
  }

  datatype Clocked = Clocked(c: Ctl, zeros: seq<int>)

  function Step(env: Env, w: Clocked, t: Turn): Clocked {
    Clocked(Apply(env, w.c, t.shared, t.event, t.now).c, ZerosAfter(env, w.zeros, t.event))
  }

  function Run(env: Env, w: Clocked, turns: seq<Turn>): Clocked
    decreases |turns|
  {
    if turns == [] then w else Step(env, Run(env, w, turns[..|turns| - 1]), turns[|turns| - 1])
  }

  lemma ApplySources(env: Env, w: Clocked, t: Turn)
    requires OneSource(w.c.tap) && EpochIs(w.c.tap.padEpoch, w.zeros)
    ensures OneSource(Step(env, w, t).c.tap) && EpochIs(Step(env, w, t).c.tap.padEpoch, Step(env, w, t).zeros)
  {
    hide OnEvent, OneSource, EpochIs, ZerosAfter;
    EventSources(env, Remember(w.c.(state := t.shared)), t.event, t.now, w.zeros);
  }

  /** In every run, whatever others write to the shared state in between: an
      attempt that is not a replay has been fed only pad presses or only tosu
      presses, a replay's source is tosu, and the pad's epoch is the earliest
      batch of its connection. */
  lemma {:induction false} OneSourcePerAttempt(env: Env, w: Clocked, turns: seq<Turn>)
    requires OneSource(w.c.tap) && EpochIs(w.c.tap.padEpoch, w.zeros)
    ensures var r := Run(env, w, turns);
            OneSource(r.c.tap) && EpochIs(r.c.tap.padEpoch, r.zeros)
    decreases |turns|
  {
    hide Step, OneSource, EpochIs;
    if turns != [] {
      OneSourcePerAttempt(env, w, turns[..|turns| - 1]);
      ApplySources(env, Run(env, w, turns[..|turns| - 1]), turns[|turns| - 1]);
    }
  }
}
