/** The key view's display filter (desktop/gui/src/keys.rs): a One Euro filter
    over the raw readings, a dead zone around its output, and a glide of the
    drawn stem. Readings are counts and times are seconds, as reals. */
module KeyView {
  import opened Options

  const DRAW_TAU_S: real := 0.025
  const HOLD_COUNTS: real := 6.0
  const MIN_CUTOFF: real := 0.5
  const BETA: real := 0.004
  const SPEED_CUTOFF: real := 0.7
  const MIN_DT: real := 0.001
  const PI: real := 3.141592653589793

  function Abs(x: real): real { if x < 0.0 then -x else x }

  lemma ShareOf(t: real, x: real, p: real)
    requires 0.0 <= t <= 1.0 && p == t * x
    ensures x >= 0.0 ==> 0.0 <= p <= x
    ensures x <= 0.0 ==> x <= p <= 0.0
  {
    if x >= 0.0 {
      ProductNotNegative(t, x);
      ProductNotNegative(1.0 - t, x);
      assert (1.0 - t) * x == x - t * x;
    } else {
      ProductNotNegative(t, -x);
      ProductNotNegative(1.0 - t, -x);
      assert t * -x == -(t * x) && (1.0 - t) * -x == -x + t * x;
    }
  }

  lemma ProductNotNegative(a: real, b: real)
    requires a >= 0.0 && b >= 0.0
    ensures a * b >= 0.0
  {}

  /** The point a share `t` of the way from `a` to `b`: never past either. */
  function Toward(a: real, b: real, t: real): (r: real)
    ensures 0.0 <= t <= 1.0 && a <= b ==> a <= r <= b
    ensures 0.0 <= t <= 1.0 && b <= a ==> b <= r <= a
    ensures t == 0.0 || a == b ==> r == a
  {
    var x := b - a;
    var p := t * x;
    if 0.0 <= t <= 1.0 then ShareOf(t, x, p); a + p else a + p
  }

  /** What `alpha` answers: the weight of a new reading after `dt` seconds. */
  function Alpha(cutoff: real, dt: real): (a: real)
    requires cutoff > 0.0 && dt > 0.0
    ensures 0.0 < a < 1.0
  {
    var tau := 1.0 / (2.0 * PI * cutoff);
    WeightBetween(tau / dt);
    1.0 / (1.0 + tau / dt)
  }

  lemma WeightBetween(q: real)
    requires q > 0.0
    ensures 0.0 < 1.0 / (1.0 + q) < 1.0
  {}

  datatype OneEuro = OneEuro(value: Option<real>, speed: real, at: Option<real>)

  const FRESH: OneEuro := OneEuro(None, 0.0, None)

  function SettledAt(x: real, now: real): OneEuro { OneEuro(Some(x), 0.0, Some(now)) }

  /** Seconds since the last reading, never less than a millisecond. */
  function Elapsed(at: real, now: real): (dt: real)
    ensures dt >= MIN_DT
  {
    if now - at < MIN_DT then MIN_DT else now - at
  }

  function NextSpeed(speed: real, prev: real, x: real, dt: real): real
    requires dt > 0.0
  {
    speed + Alpha(SPEED_CUTOFF, dt) * ((x - prev) / dt - speed)
  }

  /** The cutoff opens with speed, so the weight of a reading does too. */
  function Weight(speed: real, dt: real): (a: real)
    requires dt > 0.0
    ensures 0.0 < a < 1.0
  {
    Alpha(MIN_CUTOFF + BETA * Abs(speed), dt)
  }

  function Filter(f: OneEuro, x: real, now: real): (f': OneEuro)
    ensures f'.value.Some? && f'.at == Some(now)
  {
    if f.value.None? || f.at.None? then f.(value := Some(x), at := Some(now))
    else
      var prev := f.value.value;
      var dt := Elapsed(f.at.value, now);
      var speed := NextSpeed(f.speed, prev, x, dt);
      OneEuro(Some(Toward(prev, x, Weight(speed, dt))), speed, Some(now))
  }

  /** The dead zone: the held value stays put while the reading is within
      HOLD_COUNTS of it, and otherwise moves no further than it must. */
  function Hold(held: real, value: real): (r: real)
    ensures Abs(value - r) <= HOLD_COUNTS
    ensures r == held <==> Abs(value - held) <= HOLD_COUNTS
    ensures Abs(value - held) > HOLD_COUNTS ==> Abs(r - held) == Abs(value - held) - HOLD_COUNTS
  {
    if value > held + HOLD_COUNTS then value - HOLD_COUNTS
    else if value < held - HOLD_COUNTS then value + HOLD_COUNTS
    else held
  }

  /** One key's place in the chain. */
  datatype Stem = Stem(smooth: OneEuro, held: Option<real>, drawn: Option<real>)

  const BLANK: Stem := Stem(FRESH, None, None)

  /** One drawn frame; `follow` is the share of the way the stem glides. */
  function AdvanceStem(s: Stem, follow: real): Stem {
    var held := match (s.held, s.smooth.value)
      case (Some(h), Some(v)) => Some(Hold(h, v))
      case (_, v) => v;
    var drawn := match (s.drawn, held)
      case (Some(d), Some(t)) => Some(Toward(d, t, follow))
      case (_, t) => t;
    s.(held := held, drawn := drawn)
  }

  /** A reading; `changed` when the pad just pressed or released the key. */
  function SampleStem(s: Stem, raw: nat, changed: bool, now: real): Stem {
    if raw == 0 then s.(smooth := FRESH)
    else if changed then Stem(SettledAt(raw as real, now), Some(raw as real), Some(raw as real))
    else s.(smooth := Filter(s.smooth, raw as real, now))
  }

  datatype Sample = Sample(raw: seq<nat>, down: seq<bool>) {
    predicate Valid() { |raw| == 2 && |down| == 2 }
  }

  /** e^-x as the glide needs it: 1 at 0, and between 0 and 1 after. */
  ghost predicate IsDecay(decay: real -> real) {
    decay(0.0) == 1.0 && forall x: real :: x >= 0.0 ==> 0.0 <= decay(x) <= 1.0
  }

  // ---- What one key's chain sees over time ----------------------------------

  datatype Step =
    | Reading(raw: nat, changed: bool, now: real)
    | NoSample
    | Draw(follow: real)

  function StepStem(s: Stem, e: Step): Stem {
    match e
    case Reading(raw, changed, now) => SampleStem(s, raw, changed, now)
    case NoSample => s.(smooth := FRESH)
    case Draw(follow) => AdvanceStem(s, follow)
  }

  function Run(s: Stem, es: seq<Step>): Stem
    decreases |es|
  {
    if es == [] then s else StepStem(Run(s, es[..|es| - 1]), es[|es| - 1])
  }

  ghost predicate Within(v: Option<real>, lo: real, hi: real) {
    v.Some? ==> lo <= v.value <= hi
  }

  ghost predicate StemWithin(s: Stem, lo: real, hi: real) {
    Within(s.smooth.value, lo, hi) && Within(s.held, lo, hi) && Within(s.drawn, lo, hi)
  }

  /** Every non-zero reading lies in [lo, hi], and the glide never leaves [0, 1]. */
  ghost predicate StepWithin(e: Step, lo: real, hi: real) {
    match e
    case Reading(raw, _, _) => raw != 0 ==> lo <= raw as real <= hi
    case NoSample => true
    case Draw(follow) => 0.0 <= follow <= 1.0
  }

  lemma FilterWithin(f: OneEuro, x: real, now: real, lo: real, hi: real)
    requires Within(f.value, lo, hi) && lo <= x <= hi
    ensures Within(Filter(f, x, now).value, lo, hi)
  {
    if f.value.Some? && f.at.Some? {
      var dt := Elapsed(f.at.value, now);
      var w := Weight(NextSpeed(f.speed, f.value.value, x, dt), dt);
      assert Filter(f, x, now).value == Some(Toward(f.value.value, x, w));
    }
  }

  lemma AdvanceWithin(s: Stem, follow: real, lo: real, hi: real)
    requires StemWithin(s, lo, hi) && 0.0 <= follow <= 1.0
    ensures StemWithin(AdvanceStem(s, follow), lo, hi)
  {
    var s' := AdvanceStem(s, follow);
    assert Within(s'.held, lo, hi);
    if s.drawn.Some? && s'.held.Some? {
      assert s'.drawn == Some(Toward(s.drawn.value, s'.held.value, follow));
    }
  }

  /** The drawn stem never overshoots: in every run since the view was cleared,
      the filtered, held and drawn values stay inside any interval that holds
      all the non-zero readings, so inside the readings' own range. */
  lemma {:induction false} NeverOvershoots(es: seq<Step>, lo: real, hi: real)
    requires forall i :: 0 <= i < |es| ==> StepWithin(es[i], lo, hi)
    ensures StemWithin(Run(BLANK, es), lo, hi)
    decreases |es|
  {
    if es != [] {
      var front, e := es[..|es| - 1], es[|es| - 1];
      NeverOvershoots(front, lo, hi);
      var s := Run(BLANK, front);
      match e
      case Reading(raw, changed, now) =>
        if raw != 0 && !changed { FilterWithin(s.smooth, raw as real, now, lo, hi); }
      case NoSample =>
      case Draw(follow) => AdvanceWithin(s, follow, lo, hi);
    }
  }

  /** A press or release shows at once: filtered, held and drawn are the reading itself, and
      the frames that follow leave them there until the next reading. */
  lemma PressShowsAtOnce(s: Stem, raw: nat, now: real, follow: real)
    requires raw > 0
    ensures var p := StepStem(s, Reading(raw, true, now));
            && p.smooth.value == p.held == p.drawn == Some(raw as real) && p.smooth.speed == 0.0
            && StepStem(p, Draw(follow)) == p
  {}

  /** A reading without one only moves the filter, part of the way from where it was; a
      lost one makes it start over; what is held and drawn waits for the frame. */
  lemma ReadingsMoveTheFilter(s: Stem, raw: nat, now: real)
    ensures var p := StepStem(s, Reading(raw, false, now));
            && p.held == s.held && p.drawn == s.drawn
            && (raw == 0 ==> p.smooth == FRESH && StepStem(s, NoSample) == p)
            && (raw > 0 && s.smooth.value.None? ==> p.smooth.value == Some(raw as real))
            && (raw > 0 && s.smooth.value.Some? && s.smooth.at.Some? && s.smooth.value.value < raw as real ==>
                  s.smooth.value.value < p.smooth.value.value < raw as real)
            && (raw > 0 && s.smooth.value.Some? && s.smooth.at.Some? && s.smooth.value.value > raw as real ==>
                  raw as real < p.smooth.value.value < s.smooth.value.value)
  {
    if raw > 0 && s.smooth.value.Some? && s.smooth.at.Some? {
      var x, v := raw as real, s.smooth.value.value;
      var dt := Elapsed(s.smooth.at.value, now);
      var w := Weight(NextSpeed(s.smooth.speed, v, x, dt), dt);
      StrictlyBetween(v, x, w);
    }
  }

  lemma StrictlyBetween(a: real, b: real, t: real)
    requires 0.0 < t < 1.0
    ensures a < b ==> a < Toward(a, b, t) < b
    ensures b < a ==> b < Toward(a, b, t) < a
  {
    var x := b - a;
    assert Toward(a, b, t) == a + t * x && b - Toward(a, b, t) == (1.0 - t) * x;
    if a < b {
      ProductPositive(t, x);
      ProductPositive(1.0 - t, x);
    } else if b < a {
      ProductPositive(t, -x);
      ProductPositive(1.0 - t, -x);
      assert t * -x == -(t * x) && (1.0 - t) * -x == -((1.0 - t) * x);
    }
  }

  lemma ProductPositive(a: real, b: real)
    requires a > 0.0 && b > 0.0
    ensures a * b > 0.0
  {}

  /** The share a low-pass filter of cutoff `f` hertz goes in `dt` seconds. */
  function Share(f: real, dt: real): real
    requires f > 0.0 && dt > 0.0
  {
    LoopPositive(f, dt);
    2.0 * PI * f * dt / (1.0 + 2.0 * PI * f * dt)
  }

  lemma LoopPositive(f: real, dt: real)
    requires f > 0.0 && dt > 0.0
    ensures 2.0 * PI * f > 0.0 && 2.0 * PI * f * dt > 0.0
  {
    ProductPositive(2.0 * PI, f);
    ProductPositive(2.0 * PI * f, dt);
  }

  lemma AlphaIsShare(f: real, dt: real)
    requires f > 0.0 && dt > 0.0
    ensures Alpha(f, dt) == Share(f, dt)
  {
    LoopPositive(f, dt);
    var w := 2.0 * PI * f;
    Quotients(w, dt);
  }

  lemma Quotients(w: real, dt: real)
    requires w > 0.0 && dt > 0.0 && w * dt > 0.0
    ensures 1.0 / (1.0 + 1.0 / w / dt) == w * dt / (1.0 + w * dt)
  {
    var q := 1.0 / w / dt;
    assert q * dt == 1.0 / w;
    assert (q * dt) * w == 1.0;
    assert q * (w * dt) == 1.0;
    assert q > 0.0;
    assert (1.0 + q) * (w * dt) == 1.0 + w * dt;
    var r := w * dt / (1.0 + w * dt);
    assert r * (1.0 + w * dt) == w * dt;
    assert r * (1.0 + q) * (w * dt) == w * dt;
    assert r * (1.0 + q) == 1.0;
  }

  /** The One Euro filter: the speed follows the reading's change through a low-pass of
      0.7 Hz, the value the reading through one that opens from 0.5 Hz by 0.004 Hz for every
      count a second; times under a millisecond count as one. */
  lemma FilterIs(f: OneEuro, v: real, at: real, x: real, now: real, dt: real, speed: real, share: real)
    requires f.value == Some(v) && f.at == Some(at) && dt == (if now > at + 0.001 then now - at else 0.001)
    requires speed == f.speed + Share(0.7, dt) * ((x - v) / dt - f.speed)
    requires share == Share(0.5 + 0.004 * Abs(speed), dt)
    ensures Filter(f, x, now) == OneEuro(Some(v + share * (x - v)), speed, Some(now))
  {
    hide Share, Alpha;
    AlphaIsShare(0.7, dt);
    SameFactor(Alpha(0.7, dt), Share(0.7, dt), (x - v) / dt - f.speed);
    assert NextSpeed(f.speed, v, x, dt) == speed;
    AlphaIsShare(0.5 + 0.004 * Abs(speed), dt);
    var w := Weight(speed, dt);
    assert Elapsed(at, now) == dt && w == share;
    TowardIs(v, x, share);
    assert Filter(f, x, now) == OneEuro(Some(Toward(v, x, share)), speed, Some(now));
  }

  lemma SameFactor(a: real, b: real, c: real)
    requires a == b
    ensures a * c == b * c
  {}

  lemma TowardIs(a: real, b: real, t: real)
    ensures Toward(a, b, t) == a + t * (b - a)
  {}

  /** A drawn frame: the stem glides its share of the way to the held value. */
  lemma DrawnGlides(s: Stem, follow: real, d: real, v: real, h: real)
    requires s.drawn == Some(d) && s.smooth.value == Some(v)
    requires h == (if s.held.Some? then Hold(s.held.value, v) else v)
    ensures var p := StepStem(s, Draw(follow));
            p.held == Some(h) && p.drawn == Some(d + follow * (h - d))
  {
    TowardIs(d, h, follow);
  }

  /** After every drawn frame the held value is within the dead zone of the
      filtered one, and both are there or neither is. */
  lemma DrawnFrameHolds(s: Stem, follow: real)
    ensures var s' := AdvanceStem(s, follow);
            && s'.smooth == s.smooth
            && (s'.held.Some? <==> s'.smooth.value.Some?)
            && (s'.drawn.Some? <==> s'.held.Some?)
            && (s'.held.Some? ==> Abs(s'.smooth.value.value - s'.held.value) <= HOLD_COUNTS)
  {}

  ghost predicate InDeadZone(s: Stem, h: real) {
    s.smooth.value.Some? && Abs(s.smooth.value.value - h) <= HOLD_COUNTS
  }

  lemma StillStep(s: Stem, e: Step, h: real)
    requires s.held == s.drawn == Some(h) && InDeadZone(s, h)
    requires e.Reading? ==> !e.changed
    ensures StepStem(s, e).held == StepStem(s, e).drawn == Some(h)
  {
    if e.Draw? { assert AdvanceStem(s, e.follow).held == Some(Hold(h, s.smooth.value.value)); }
  }

  /** A still key is drawn still: once the stem stands at the held value,
      nothing moves while the filtered reading stays in the dead zone. */
  lemma {:induction false} StillKeyStaysStill(s: Stem, es: seq<Step>, h: real)
    requires s.held == s.drawn == Some(h)
    requires forall i :: 0 <= i < |es| ==> (es[i].Reading? ==> !es[i].changed)
    requires forall n {:trigger es[..n]} :: 0 <= n < |es| ==> InDeadZone(Run(s, es[..n]), h)
    ensures Run(s, es).held == Run(s, es).drawn == Some(h)
    decreases |es|
  {
    if es != [] {
      var front := es[..|es| - 1];
      forall n {:trigger front[..n]} | 0 <= n < |front| ensures InDeadZone(Run(s, front[..n]), h) {
        assert es[..n] == front[..n];
      }
      StillKeyStaysStill(s, front, h);
      assert InDeadZone(Run(s, front), h);
      StillStep(Run(s, front), es[|es| - 1], h);
    }
  }

  // ---- The view itself ------------------------------------------------------

  class KeysState {
    var live: Option<Sample>
    var stems: seq<Stem>
    var lastFrame: Option<real>
    const decay: real -> real

    ghost predicate Valid()
      reads this
    {
      && |stems| == 2
      && (live.Some? ==> live.value.Valid())
      && IsDecay(decay)
    }

    constructor (decay: real -> real)
      requires IsDecay(decay)
      ensures Valid() && stems == [BLANK, BLANK] && live == None && lastFrame == None
    {
      live, stems, lastFrame := None, [BLANK, BLANK], None;
      this.decay := decay;
    }

    /** Leaving the page or losing the pad. */
    method StopLive()
      requires Valid()
      modifies this
      ensures Valid() && stems == [BLANK, BLANK] && live == None && lastFrame == None
    {
      live := None;
      stems := [BLANK, BLANK];
      lastFrame := None;
    }

    /** How far the stems glide in a frame drawn at `now`. */
    function Follow(now: real): (f: real)
      requires Valid()
      reads this
      ensures 0.0 <= f <= 1.0
      ensures lastFrame == None ==> f == 0.0
    {
      var gone := if lastFrame.Some? && now > lastFrame.value then now - lastFrame.value else 0.0;
      1.0 - decay(gone / DRAW_TAU_S)
    }

    method Advance(now: real)
      requires Valid()
      modifies this
      ensures Valid() && live == old(live) && lastFrame == Some(now)
      ensures forall k :: 0 <= k < 2 ==> stems[k] == StepStem(old(stems[k]), Draw(old(Follow(now))))
    {
      var follow := Follow(now);
      lastFrame := Some(now);
      for k := 0 to 2
        invariant Valid() && live == old(live) && lastFrame == Some(now)
        invariant forall j :: 0 <= j < k ==> stems[j] == AdvanceStem(old(stems[j]), follow)
        invariant forall j :: k <= j < 2 ==> stems[j] == old(stems[j])
      {
        var s := stems[k];
        var held := s.smooth.value;
        if s.held.Some? && held.Some? { held := Some(Hold(s.held.value, held.value)); }
        var drawn := held;
        if s.drawn.Some? && held.Some? {
          drawn := Some(Toward(s.drawn.value, held.value, follow));
        }
        assert stems[k] == old(stems[k]);
        stems := stems[k := s.(held := held, drawn := drawn)];
      }
    }

    method TakeSample(sample: Option<Sample>, now: real)
      requires Valid() && (sample.Some? ==> sample.value.Valid())
      modifies this
      ensures Valid() && live == sample && lastFrame == old(lastFrame)
      ensures sample.None? ==> forall k :: 0 <= k < 2 ==> stems[k] == StepStem(old(stems[k]), NoSample)
      ensures sample.Some? ==> forall k :: 0 <= k < 2 ==>
                var changed := old(live).Some? && old(live).value.down[k] != sample.value.down[k];
                stems[k] == StepStem(old(stems[k]), Reading(sample.value.raw[k], changed, now))
    {
      var was := live;
      live := sample;
      if sample.None? {
        stems := [stems[0].(smooth := FRESH), stems[1].(smooth := FRESH)];
        return;
      }
      var s := sample.value;
      for k := 0 to 2
        invariant Valid() && live == sample && lastFrame == old(lastFrame)
        invariant forall j :: 0 <= j < k ==>
                    var changed := was.Some? && was.value.down[j] != s.down[j];
                    stems[j] == SampleStem(old(stems[j]), s.raw[j], changed, now)
        invariant forall j :: k <= j < 2 ==> stems[j] == old(stems[j])
      {
        var raw, stem := s.raw[k], stems[k];
        if raw == 0 {
          stems := stems[k := stem.(smooth := FRESH)];
        } else if was.Some? && was.value.down[k] != s.down[k] {
          stems := stems[k := Stem(SettledAt(raw as real, now), Some(raw as real), Some(raw as real))];
        } else {
          stems := stems[k := stem.(smooth := Filter(stem.smooth, raw as real, now))];
        }
      }
    }
  }
}
