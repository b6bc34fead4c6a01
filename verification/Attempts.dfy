/** What every event makes of the attempt being played (desktop/daemon/src/runtime.rs):
    when it begins and ends, what it is fed, and what the app is shown of it. */
module Attempts {
  import opened Options
  import opened Counters
  import opened TapRate
  import opened Daemon
  import opened Telemetry
  import opened Runtime

  // ---- tosu's frames -------------------------------------------------------------------

  function Song(f: Frame, now: int): seq<TapInput> {
    if f.clock.Some? then [SongMoved(f.clock.value, now)] else []
  }

  /** The presses of tosu's that were held back, one after the other. */
  predicate AreHeld(inputs: seq<TapInput>, held: seq<(nat, nat, int)>) {
    |inputs| == |held|
    && forall i :: 0 <= i < |held| ==> inputs[i] == Press(false, held[i].0, held[i].1, held[i].2)
  }

  /** A frame that starts an attempt: the one before it is the last one shown, and the new
      one starts now, on the frame's beatmap, with nothing decided but that someone else's
      play is measured from tosu and marked. */
  lemma FrameBegins(env: Env, c: Ctl, f: Frame, now: int)
    requires f.isPlaying && NewAttempt(c, f)
    ensures var o := OnEvent(env, c, TosuTelemetry(f), now).c;
            && o.tap.attempt == Some(Attempt(now, f.beatmap,
                                             Song(f, now) + (if f.otherPlayer then [CoarseTiming] else []),
                                             f.otherPlayer))
            && o.tap.source == (if f.otherPlayer then Tosu else Undecided) && o.tap.pending == []
            && o.tap.lastFailed == f.failed && o.show.lastLiveMs == Some(f.liveMs) && o.state.mode == Playing
            && o.state.tap.current.Some? && o.state.tap.current.value.origin == now
            && o.state.tap.last == (if c.tap.attempt.Some? then c.tap.attempt else c.state.tap.last)
  {
    hide AttemptFrame, EnterPlay, Announce, Ingested;
    var i := TakenIn(c, f);
    var b := Attempted(env, i, f, now);
    SamePlay(b, now);
    SamePlay(EnterPlay(b).c, now);
    Starts(env, PlayOf(i), f, now);
  }

  /** A connected pad is told at once that a map is on, under the new play number. */
  lemma BeginningIsTold(env: Env, c: Ctl, f: Frame, now: int)
    requires f.isPlaying && NewAttempt(c, f) && c.state.deviceConnected
    ensures var o := OnEvent(env, c, TosuTelemetry(f), now);
            && o.c.clock.lastHostStatus == now
            && SendHostStatus(true, true, o.c.show.playId, c.state.osuActive) in o.actions
  {
    hide AttemptFrame, EnterPlay, Changes, Flushed;
    var b := Attempted(env, TakenIn(c, f), f, now);
    EntersOnly(b);
  }

  lemma EntersOnly(c: Ctl)
    ensures var e := EnterPlay(c).c;
            && e.state == c.state.(mode := Playing) && e.show == c.show && e.data == c.data && e.tap == c.tap
            && e.clock == (if c.state.mode == Playing then c.clock
                           else c.clock.(cooldownDeadline := None, backupDeadline := None, backupAfterSync := false))
            && EnterPlay(c).actions == (if c.state.mode == Playing then [] else [SetStorageWritesAllowed(false)])
  {}

  /** Entering play and telling the pad leave the attempt alone. */
  lemma SamePlay(c: Ctl, now: int)
    ensures var e := EnterPlay(c).c;
            e.tap == c.tap && e.state.tap == c.state.tap && e.show == c.show && e.state.mode == Playing
    ensures var a := Announce(c, now).c;
            a.tap == c.tap && a.state == c.state && a.show == c.show && a.clock.lastHostStatus == now
  {
    hide Flushed, Changes;
  }

  lemma Starts(env: Env, p: Play, f: Frame, now: int)
    ensures var q := AttemptFrame(env, p, f, true, now);
            && q.tap.attempt == Some(Attempt(now, f.beatmap,
                                             Song(f, now) + (if f.otherPlayer then [CoarseTiming] else []),
                                             f.otherPlayer))
            && q.tap.source == (if f.otherPlayer then Tosu else Undecided) && q.tap.pending == []
            && q.tap.lastFailed == f.failed
            && q.shown.current.Some? && q.shown.current.value.origin == now
            && q.shown.last == (if p.tap.attempt.Some? then p.tap.attempt else p.shown.last)
  {
    hide Ingested, Recordable, CapUnsaved;
    assert [CoarseTiming] + TosuInputs([]) == [CoarseTiming];
    assert [] + Song(f, now) == Song(f, now) && [] + [CoarseTiming] == [CoarseTiming];
    assert Song(f, now) + [] == Song(f, now);
  }

  /** A frame of the attempt being played: it says the beatmap, where the song is, and
      perhaps that the play is someone else's, which is then measured from tosu. */
  lemma FrameGoesOn(env: Env, c: Ctl, f: Frame, now: int)
    requires f.isPlaying && !NewAttempt(c, f) && c.tap.attempt.Some? && (f.failed ==> c.tap.lastFailed)
    ensures var o := OnEvent(env, c, TosuTelemetry(f), now).c;
            var was := c.tap.attempt.value;
            var moves := f.otherPlayer && !was.replay && c.tap.source != Tosu;
            && o.tap.attempt.Some? && o.tap.lastFailed == c.tap.lastFailed && o.show.lastLiveMs == Some(f.liveMs)
            && var a := o.tap.attempt.value;
               && a.origin == was.origin && a.beatmap == was.beatmap && a.replay == (was.replay || f.otherPlayer)
               && (!moves ==>
                     && a.log == was.log + [BeatmapIs(f.beatmap)] + Song(f, now)
                     && o.tap.source == c.tap.source && o.tap.pending == c.tap.pending)
               && (moves ==>
                     var told := was.log + [BeatmapIs(f.beatmap)] + Song(f, now) + [CoarseTiming];
                     && told <= a.log && AreHeld(a.log[|told|..], c.tap.pending)
                     && o.tap.source == Tosu && o.tap.pending == [])
  {
    hide AttemptFrame, EnterPlay, Announce;
    var i := TakenIn(c, f);
    var b := Attempted(env, i, f, now);
    SamePlay(b, now);
    GoesOn(env, PlayOf(i), f, now);
  }

  lemma GoesOn(env: Env, p: Play, f: Frame, now: int)
    requires p.tap.attempt.Some? && (f.failed ==> p.tap.lastFailed)
    ensures var t := AttemptFrame(env, p, f, false, now).tap;
            var was := p.tap.attempt.value;
            var moves := f.otherPlayer && !was.replay && p.tap.source != Tosu;
            && t.attempt.Some? && t.lastFailed == p.tap.lastFailed
            && var a := t.attempt.value;
               && a.origin == was.origin && a.beatmap == was.beatmap && a.replay == (was.replay || f.otherPlayer)
               && (!moves ==>
                     && a.log == was.log + [BeatmapIs(f.beatmap)] + Song(f, now)
                     && t.source == p.tap.source && t.pending == p.tap.pending)
               && (moves ==>
                     var told := was.log + [BeatmapIs(f.beatmap)] + Song(f, now) + [CoarseTiming];
                     && told <= a.log && AreHeld(a.log[|told|..], p.tap.pending)
                     && t.source == Tosu && t.pending == [])
  {
    hide Ingested;
    var was := p.tap.attempt.value;
    var told := was.log + [BeatmapIs(f.beatmap)] + Song(f, now);
    assert was.log + [BeatmapIs(f.beatmap)] + [] == told || f.clock.Some?;
    assert told + ([CoarseTiming] + TosuInputs(p.tap.pending)) == told + [CoarseTiming] + TosuInputs(p.tap.pending);
  }

  /** An event that ends the attempt and starts none: a play that has just failed, one that
      is over, tosu gone. It is the last one shown, and no current one is. */
  predicate OnlyEnds(c: Ctl, e: Event) {
    match e
    case TosuTelemetry(f) =>
      if f.isPlaying then !NewAttempt(c, f) && f.failed && !c.tap.lastFailed else c.state.mode == Playing
    case TosuConnectionChanged(connected) => !connected
    case _ => false
  }

  lemma AttemptEnds(env: Env, c: Ctl, e: Event, now: int)
    requires OnlyEnds(c, e) && c.tap.attempt.Some?
    ensures var o := OnEvent(env, c, e, now).c;
            && o.tap.attempt.None? && o.state.tap.current.None? && o.state.tap.last == c.tap.attempt
            && o.state.tap.unsavedAttempts == |o.tap.unsaved|
            && (e.TosuTelemetry? && e.frame.isPlaying ==> o.tap.lastFailed && o.state.mode == Playing)
            && (e.TosuTelemetry? && !e.frame.isPlaying ==> o.show.lastLiveMs.None? && o.state.mode == Cooldown)
  {
    hide AttemptFrame, EnterPlay, Announce, FinishAttempt;
    if e.TosuTelemetry? && e.frame.isPlaying {
      var i := TakenIn(c, e.frame);
      SamePlay(Attempted(env, i, e.frame, now), now);
      Fails(env, PlayOf(i), e.frame, now);
    } else if e.TosuTelemetry? {
      Finishes(env, PlayOf(TakenIn(c, e.frame)));
    } else {
      Finishes(env, PlayOf(c));
    }
  }

  lemma Finishes(env: Env, p: Play)
    requires p.tap.attempt.Some?
    ensures var q := FinishAttempt(env, p);
            && q.tap.attempt.None? && q.shown.current.None? && q.shown.last == p.tap.attempt
            && q.shown.unsavedAttempts == |q.tap.unsaved| && q.tap.lastFailed == p.tap.lastFailed
  {
    hide Ingested, Recordable, CapUnsaved;
  }

  lemma Fails(env: Env, p: Play, f: Frame, now: int)
    requires p.tap.attempt.Some? && f.failed && !p.tap.lastFailed
    ensures var q := AttemptFrame(env, p, f, false, now);
            && q.tap.attempt.None? && q.shown.current.None? && q.shown.last == p.tap.attempt
            && q.shown.unsavedAttempts == |q.tap.unsaved| && q.tap.lastFailed
  {
    hide FinishAttempt, Ingested;
    Finishes(env, p.(tap := p.tap.(lastFailed := true)));
  }

  /** tosu gone: of the values known only what the last attempt and the history show is
      left, nothing counts as sent, and tosu's key counts start over. */
  lemma TosuGoneForgets(env: Env, c: Ctl, now: int)
    ensures var o := OnEvent(env, c, TosuConnectionChanged(false), now).c;
            && o.data.latest == Merge(Merge(map[], env.live(None)), env.history(c.state.tap.history))
            && o.data.sent == map[] && o.tap.lastKeys.None? && o.tap.published == c.state.tap.history
            && !o.state.tosuConnected && o.clock.lastHostStatus == now
  {
    hide Merge, Recordable, CapUnsaved;
  }

  // ---- Presses ---------------------------------------------------------------------------

  /** How far a counter of tosu's moved: one that shrank started over. */
  function Moved(count: nat, before: nat): nat { if count < before then count else count - before }

  /** The pad in use times its own presses. */
  predicate PadTimes(c: Ctl) { c.state.deviceConnected && c.tap.padPressTimes && !c.state.foreignPad }

  function Held(pending: seq<(nat, nat, int)>): nat {
    if pending == [] then 0 else pending[0].0 + pending[0].1 + Held(pending[1..])
  }

  lemma {:induction false} HeldSnoc(pending: seq<(nat, nat, int)>, p: (nat, nat, int))
    ensures Held(pending + [p]) == Held(pending) + p.0 + p.1
  {
    if pending == [] {
      assert [p][1..] == [];
    } else {
      HeldSnoc(pending[1..], p);
      assert (pending + [p])[1..] == pending[1..] + [p];
    }
  }

  lemma {:induction false} SeenIsHeld(pending: seq<(nat, nat, int)>)
    ensures Seen(pending) == Held(pending)
    decreases |pending|
  {
    if pending != [] {
      var n := |pending| - 1;
      SeenIsHeld(pending[..n]);
      HeldSnoc(pending[..n], pending[n]);
      assert pending[..n] + [pending[n]] == pending;
    }
  }

  /** Whether a count of tosu's brings presses to an attempt. */
  predicate Brought(c: Ctl, k1: nat, k2: nat) {
    && c.state.mode == Playing && c.tap.attempt.Some? && c.tap.lastKeys.Some?
    && Moved(k1, c.tap.lastKeys.value.0) + Moved(k2, c.tap.lastKeys.value.1) > 0
  }

  /** tosu's key counts during an attempt. An attempt the pad is timed by takes none of
      them; one that tosu is, all; an undecided one is decided for tosu at once when the pad
      in use does not time its presses, and otherwise once eight of tosu's have come before
      any of the pad's: those count as shown, not as the player's own. */
  lemma TosuKeysCount(env: Env, c: Ctl, k1: nat, k2: nat, at: int, now: int)
    requires Brought(c, k1, k2)
    ensures var t, o := c.tap, OnEvent(env, c, TosuKeys(k1, k2, at), now).c;
            var a := t.attempt.value;
            var d1, d2 := Moved(k1, t.lastKeys.value.0), Moved(k2, t.lastKeys.value.1);
            var held := t.pending + [(d1, d2, at)];
            && o.tap.lastKeys == Some((k1, k2)) && o.tap.attempt.Some?
            && (t.source == Pad ==> o.tap == t.(lastKeys := Some((k1, k2))) && o.state == c.state)
            && (t.source == Tosu ==>
                  && o.tap == t.(lastKeys := Some((k1, k2)), attempt := Some(a.Fed([Press(false, d1, d2, at)])))
                  && o.state.tap.current == o.tap.attempt)
            && (t.source == Undecided && !PadTimes(c) ==>
                  && o.tap == t.(lastKeys := Some((k1, k2)), source := Tosu,
                                 attempt := Some(a.Fed([CoarseTiming, Press(false, d1, d2, at)])))
                  && o.state.tap.current == o.tap.attempt)
            && (t.source == Undecided && PadTimes(c) && Held(held) < 8 ==>
                  o.tap == t.(lastKeys := Some((k1, k2)), pending := held) && o.state == c.state)
            && (t.source == Undecided && PadTimes(c) && Held(held) >= 8 ==>
                  && o.tap.source == Tosu && o.tap.pending == [] && o.tap.attempt.value.replay
                  && a.log + [CoarseTiming] <= o.tap.attempt.value.log
                  && AreHeld(o.tap.attempt.value.log[|a.log| + 1..], held)
                  && o.state.tap.current == o.tap.attempt)
  {
    hide Ingested, Seen;
    SeenIsHeld(c.tap.pending + [(Moved(k1, c.tap.lastKeys.value.0), Moved(k2, c.tap.lastKeys.value.1), at)]);
    var held := c.tap.pending + [(Moved(k1, c.tap.lastKeys.value.0), Moved(k2, c.tap.lastKeys.value.1), at)];
    var log := c.tap.attempt.value.log;
    assert log + ([CoarseTiming] + TosuInputs(held)) == log + [CoarseTiming] + TosuInputs(held);
  }

  /** Counts that bring none are remembered, and nothing else. */
  lemma TosuKeysAreRemembered(env: Env, c: Ctl, k1: nat, k2: nat, at: int, now: int)
    requires !Brought(c, k1, k2)
    ensures OnEvent(env, c, TosuKeys(k1, k2, at), now) == Out(c.(tap := c.tap.(lastKeys := Some((k1, k2)))), [])
  {}

  /** The presses of a pad batch at or after a moment, in order, on this PC's clock. */
  function TimedFrom(epoch: int, from: int, presses: seq<(nat, nat)>): seq<TapInput> {
    if presses == [] then []
    else
      var at := epoch + presses[0].1;
      (if at >= from then [if presses[0].0 == 1 then Press(true, 1, 0, at) else Press(true, 0, 1, at)] else [])
      + TimedFrom(epoch, from, presses[1..])
  }

  lemma {:induction false} TimedSnoc(epoch: int, from: int, presses: seq<(nat, nat)>, p: (nat, nat))
    ensures TimedFrom(epoch, from, presses + [p]) == TimedFrom(epoch, from, presses) + TimedFrom(epoch, from, [p])
  {
    if presses == [] {
      assert [] + [p] == [p];
    } else {
      TimedSnoc(epoch, from, presses[1..], p);
      assert (presses + [p])[1..] == presses[1..] + [p];
    }
  }

  lemma {:induction false} InputsAreTimed(epoch: int, from: int, presses: seq<(nat, nat)>)
    ensures PadInputs(epoch, from, presses) == TimedFrom(epoch, from, presses)
    decreases |presses|
  {
    if presses != [] {
      var n := |presses| - 1;
      InputsAreTimed(epoch, from, presses[..n]);
      TimedSnoc(epoch, from, presses[..n], presses[n]);
      assert presses[..n] + [presses[n]] == presses;
      assert TimedFrom(epoch, from, [presses[n]][1..]) == [];
    }
  }

  /** A batch of the pad's own presses: its clock's zero is the earliest any batch of the
      connection implies, one that cannot be told on this PC's clock counts for nothing, and
      an attempt that tosu does not time takes the presses since it began and is the pad's. */
  lemma PadPressesCount(env: Env, c: Ctl, nowUs: nat, presses: seq<(nat, nat)>, received: int, now: int)
    ensures var t, o := c.tap, OnEvent(env, c, PadPresses(nowUs, presses, received), now).c;
            var zero := received - nowUs;
            var epoch := if t.padEpoch.Some? && t.padEpoch.value < zero then t.padEpoch.value else zero;
            var timed := if t.attempt.Some? then TimedFrom(epoch, t.attempt.value.origin, presses) else [];
            && (zero < env.earliest ==> o == c)
            && (zero >= env.earliest && (c.state.mode != Playing || t.source == Tosu || timed == []) ==>
                  o == c.(tap := t.(padEpoch := Some(epoch))))
            && (zero >= env.earliest && c.state.mode == Playing && t.source != Tosu && timed != [] ==>
                  && o.tap == t.(padEpoch := Some(epoch), source := Pad, pending := [],
                                 attempt := Some(t.attempt.value.Fed(timed)))
                  && o.state.tap.current == o.tap.attempt)
  {
    hide Ingested, PadInputs;
    var t := c.tap;
    var zero := received - nowUs;
    var epoch := if t.padEpoch.Some? && t.padEpoch.value < zero then t.padEpoch.value else zero;
    if t.attempt.Some? { InputsAreTimed(epoch, t.attempt.value.origin, presses); }
  }
}
