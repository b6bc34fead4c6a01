/** One play attempt as the runtime feeds it (desktop/crates/opad-model/src/tap_rate.rs):
    a record of everything it was fed, of which the shown rates are functions,
    and the test for keeping it. Times are microseconds. */
module TapRate {
  import opened Options

  const SEQUENCE_BREAK := 1_000_000
  const MIN_RECORDED_PRESSES := 10
  const PRESSES_PER_SAMPLE := 64

  datatype SongClock = SongClock(live: real, first: real, last: real, rate: real)

  datatype TapInput =
    | Press(fromPad: bool, k1: nat, k2: nat, at: int)
    | SongMoved(clock: SongClock, received: int)
    | Advanced(now: int)
    | BeatmapIs(beatmap: string)
    | CoarseTiming

  datatype Attempt = Attempt(origin: int, beatmap: string, log: seq<TapInput>, replay: bool) {
    function Fed(inputs: seq<TapInput>): Attempt { this.(log := log + inputs) }
  }

  /** The combined channel's counts: presses, intervals that belong to a tapping
      sequence, and the time of the last press since the attempt began. */
  datatype Counts = Counts(presses: nat, intervals: nat, last: Option<int>)

  function Pressed(c: Counts, n: nat, at: int): Counts {
    if n == 0 then c
    else
      var joins := c.last.Some? && Max(at - c.last.value, 0) <= SEQUENCE_BREAK;
      Counts(c.presses + n, c.intervals + n - 1 + (if joins then 1 else 0), Some(at))
  }

  function Tally(a: Attempt, upTo: nat): Counts
    requires upTo <= |a.log|
  {
    if upTo == 0 then Counts(0, 0, None)
    else
      var before := Tally(a, upTo - 1);
      var input := a.log[upTo - 1];
      if input.Press?
      then Pressed(before, Min(input.k1, PRESSES_PER_SAMPLE) + Min(input.k2, PRESSES_PER_SAMPLE),
                   Max(input.at - a.origin, 0))
      else before
  }

  /** The player's own presses, and enough of them to say anything. */
  predicate Recordable(a: Attempt) {
    var c := Tally(a, |a.log|);
    !a.replay && c.presses >= MIN_RECORDED_PRESSES && c.intervals > 0
  }

  // ---- What that means of the log --------------------------------------------------

  /** How many presses one input brings: at most 64 of each key. */
  function Brings(input: TapInput): nat {
    if !input.Press? then 0
    else (if input.k1 > 64 then 64 else input.k1) + (if input.k2 > 64 then 64 else input.k2)
  }

  /** When an input's presses count from the beginning. */
  function MomentOf(a: Attempt, input: TapInput): nat {
    if input.Press? && input.at > a.origin then input.at - a.origin else 0
  }

  /** The moment of every single press, in the order they came, counted from the attempt's
      beginning. */
  function Moments(a: Attempt, log: seq<TapInput>): seq<nat> {
    if log == [] then []
    else
      var input := log[|log| - 1];
      Moments(a, log[..|log| - 1])
      + seq(Brings(input), i => MomentOf(a, input))
  }

  /** Two presses in a row, the second within a second of the first. */
  predicate InARow(m: seq<nat>, i: nat) { i + 1 < |m| && m[i + 1] <= m[i] + 1_000_000 }

  ghost predicate Taps(m: seq<nat>) { exists i: nat :: InARow(m, i) }

  lemma TapsMore(m: seq<nat>, at: nat, n: nat)
    ensures var more := m + seq(n, i => at);
            Taps(more) <==> Taps(m) || n > 1 || (n == 1 && m != [] && at <= m[|m| - 1] + 1_000_000)
  {
    var more := m + seq(n, i => at);
    if Taps(m) {
      var i: nat :| InARow(m, i);
      assert InARow(more, i);
    }
    if n > 1 { assert InARow(more, |m|); }
    if n == 1 && m != [] && at <= m[|m| - 1] + 1_000_000 { assert InARow(more, |m| - 1); }
    if Taps(more) {
      var i: nat :| InARow(more, i);
      if i + 1 < |m| { assert InARow(m, i); }
    }
  }

  lemma TallyStep(a: Attempt, n: nat)
    requires 0 < n <= |a.log|
    ensures var input := a.log[n - 1];
            && Tally(a, n) == Pressed(Tally(a, n - 1), Brings(input), MomentOf(a, input))
            && Moments(a, a.log[..n]) == Moments(a, a.log[..n - 1]) + seq(Brings(input), i => MomentOf(a, input))
  {
    hide Pressed;
    assert a.log[..n][..n - 1] == a.log[..n - 1];
    NonePressed(Tally(a, n - 1));
  }

  lemma NonePressed(c: Counts)
    ensures Pressed(c, 0, 0) == c
  {}

  lemma {:induction false} TallyIs(a: Attempt, n: nat)
    requires n <= |a.log|
    ensures var c, m := Tally(a, n), Moments(a, a.log[..n]);
            && c.presses == |m| && (c.intervals > 0 <==> Taps(m))
            && c.last == (if m == [] then None else Some(m[|m| - 1]))
    decreases n
  {
    if n == 0 {
      NoTaps();
    } else {
      hide Taps, Tally, Pressed, Brings, MomentOf, Moments;
      TallyIs(a, n - 1);
      TallyStep(a, n);
      var m, input := Moments(a, a.log[..n - 1]), a.log[n - 1];
      TapsMore(m, MomentOf(a, input), Brings(input));
      PressedMore(Tally(a, n - 1), m, Brings(input), MomentOf(a, input));
    }
  }

  lemma NoTaps()
    ensures !Taps([])
  {}

  lemma PressedMore(c: Counts, m: seq<nat>, n: nat, at: nat)
    requires c.presses == |m| && c.last == (if m == [] then None else Some(m[|m| - 1]))
    ensures Pressed(c, n, at).presses == |m| + n
    ensures Pressed(c, n, at).last == (if n == 0 then c.last else Some(at))
    ensures Pressed(c, n, at).intervals > 0
            <==> c.intervals > 0 || n > 1 || (n == 1 && m != [] && at <= m[|m| - 1] + 1_000_000)
  {}

  /** An attempt is kept exactly when it is the player's own, with ten presses or more, two
      of them in a row within a second. */
  lemma RecordableExactly(a: Attempt)
    ensures Recordable(a) <==> !a.replay && |Moments(a, a.log)| >= 10 && Taps(Moments(a, a.log))
  {
    assert a.log[..|a.log|] == a.log;
    TallyIs(a, |a.log|);
  }

  predicate InTime(m: seq<nat>) { forall i, j :: 0 <= i < j < |m| ==> m[i] <= m[j] }

  /** When the presses came in time, being in a row does not matter. */
  lemma TapsAnywhere(m: seq<nat>, i: nat, j: nat)
    requires InTime(m) && i < j < |m| && m[j] <= m[i] + 1_000_000
    ensures Taps(m)
  {
    assert m[i + 1] <= m[j];
    assert InARow(m, i);
  }
}
