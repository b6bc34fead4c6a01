/** The one-pass spread statistics of the trace analyser
    (firmware/tools/he_replay.c, `analyse`, `window_pp`, `avg_round`), proved
    against their quadratic definitions. */
module Retrace {
  import opened Options

  /** Greatest of v[a..b]. */
  function HiIn(v: seq<int>, a: nat, b: nat): int
    requires a < b <= |v|
  {
    if b == a + 1 then v[a] else Max(HiIn(v, a, b - 1), v[b - 1])
  }

  /** Least of v[a..b]. */
  function LoIn(v: seq<int>, a: nat, b: nat): int
    requires a < b <= |v|
  {
    if b == a + 1 then v[a] else Min(LoIn(v, a, b - 1), v[b - 1])
  }

  /** The largest drop below the running maximum over the first n readings. */
  function Fall(v: seq<int>, n: nat): int
    requires 0 < n <= |v|
  {
    if n == 1 then 0 else Max(Fall(v, n - 1), HiIn(v, 0, n) - v[n - 1])
  }

  /** The largest climb above the running minimum over the first n readings. */
  function Rise(v: seq<int>, n: nat): int
    requires 0 < n <= |v|
  {
    if n == 1 then 0 else Max(Rise(v, n - 1), v[n - 1] - LoIn(v, 0, n))
  }

  /** The worst spread of the full windows that end by `a`, which starts one. */
  function Worst(v: seq<int>, win: nat, a: nat): int
    requires win > 0 && a <= |v|
  {
    if a < win then 0
    else Max(Worst(v, win, a - win), HiIn(v, a - win, a) - LoIn(v, a - win, a))
  }

  /** `a` is a window start: a whole number of windows from the first reading. */
  predicate Aligned(a: nat, win: nat)
    requires win > 0
  {
    a == 0 || (a >= win && Aligned(a - win, win))
  }

  method Analyse(v: seq<int>) returns (lo: int, hi: int, fall: int, rise: int)
    requires |v| > 0
    ensures lo == LoIn(v, 0, |v|) && hi == HiIn(v, 0, |v|)
    ensures fall == Fall(v, |v|) && rise == Rise(v, |v|)
  {
    lo, hi := v[0], v[0];
    var runMax, runMin := v[0], v[0];
    fall, rise := 0, 0;
    for i := 0 to |v|
      invariant i == 0 ==> lo == hi == v[0] && fall == rise == 0
      invariant i > 0 ==> lo == LoIn(v, 0, i) && hi == HiIn(v, 0, i)
      invariant runMax == hi && runMin == lo
      invariant i > 0 ==> fall == Fall(v, i) && rise == Rise(v, i)
    {
      var x := v[i];
      lo := if x < lo then x else lo;
      hi := if x > hi then x else hi;
      runMax := if x > runMax then x else runMax;
      runMin := if x < runMin then x else runMin;
      fall := if runMax - x > fall then runMax - x else fall;
      rise := if x - runMin > rise then x - runMin else rise;
    }
  }

  method WindowPp(v: seq<int>, win: nat) returns (worst: int)
    requires win > 0
    ensures exists a :: 0 <= a <= |v| < a + win && Aligned(a, win) && worst == Worst(v, win, a)
  {
    worst := 0;
    var a := 0;
    while a + win <= |v|
      invariant 0 <= a <= |v| && Aligned(a, win)
      invariant worst == Worst(v, win, a)
      decreases |v| - a
    {
      var lo, hi := v[a], v[a];
      for i := a to a + win
        invariant i == a ==> lo == hi == v[a]
        invariant i > a ==> lo == LoIn(v, a, i) && hi == HiIn(v, a, i)
      {
        lo := if v[i] < lo then v[i] else lo;
        hi := if v[i] > hi then v[i] else hi;
      }
      worst := if hi - lo > worst then hi - lo else worst;
      a := a + win;
    }
  }

  lemma {:induction false} HiAbove(v: seq<int>, a: nat, b: nat, k: nat)
    requires a <= k < b <= |v|
    ensures v[k] <= HiIn(v, a, b)
  {
    if k < b - 1 { HiAbove(v, a, b - 1, k); }
  }

  lemma {:induction false} LoBelow(v: seq<int>, a: nat, b: nat, k: nat)
    requires a <= k < b <= |v|
    ensures LoIn(v, a, b) <= v[k]
  {
    if k < b - 1 { LoBelow(v, a, b - 1, k); }
  }

  lemma {:induction false} HiAttained(v: seq<int>, a: nat, b: nat) returns (k: nat)
    requires a < b <= |v|
    ensures a <= k < b && v[k] == HiIn(v, a, b)
  {
    k := b - 1;
    if b > a + 1 && HiIn(v, a, b) != v[b - 1] { k := HiAttained(v, a, b - 1); }
  }

  lemma {:induction false} LoAttained(v: seq<int>, a: nat, b: nat) returns (k: nat)
    requires a < b <= |v|
    ensures a <= k < b && v[k] == LoIn(v, a, b)
  {
    k := b - 1;
    if b > a + 1 && LoIn(v, a, b) != v[b - 1] { k := LoAttained(v, a, b - 1); }
  }

  /** The one-pass fall bounds v[i] - v[j] for every i no later than j... */
  lemma {:induction false} FallBounds(v: seq<int>, n: nat, i: nat, j: nat)
    requires i <= j < n <= |v|
    ensures v[i] - v[j] <= Fall(v, n)
  {
    if j == n - 1 {
      HiAbove(v, 0, n, i);
    } else {
      FallBounds(v, n - 1, i, j);
    }
  }

  /** ...and is one of those differences, so it is their maximum. */
  lemma {:induction false} FallAttained(v: seq<int>, n: nat) returns (i: nat, j: nat)
    requires 0 < n <= |v|
    ensures i <= j < n && v[i] - v[j] == Fall(v, n)
  {
    if n > 1 && Fall(v, n) == Fall(v, n - 1) {
      i, j := FallAttained(v, n - 1);
    } else {
      i := HiAttained(v, 0, n);
      j := n - 1;
    }
  }

  lemma {:induction false} RiseBounds(v: seq<int>, n: nat, i: nat, j: nat)
    requires i <= j < n <= |v|
    ensures v[j] - v[i] <= Rise(v, n)
  {
    if j == n - 1 {
      LoBelow(v, 0, n, i);
    } else {
      RiseBounds(v, n - 1, i, j);
    }
  }

  lemma {:induction false} RiseAttained(v: seq<int>, n: nat) returns (i: nat, j: nat)
    requires 0 < n <= |v|
    ensures i <= j < n && v[j] - v[i] == Rise(v, n)
  {
    if n > 1 && Rise(v, n) == Rise(v, n - 1) {
      i, j := RiseAttained(v, n - 1);
    } else {
      i := LoAttained(v, 0, n);
      j := n - 1;
    }
  }

  /** A still key's worst retrace is its whole spread: whichever of the lowest
      and the highest reading came first, one of the two passes crosses it. */
  lemma RetraceCoversTheSpread(v: seq<int>, n: nat)
    requires 0 < n <= |v|
    ensures Max(Fall(v, n), Rise(v, n)) == HiIn(v, 0, n) - LoIn(v, 0, n)
    ensures Fall(v, n) >= 0 && Rise(v, n) >= 0
  {
    var h := HiAttained(v, 0, n);
    var l := LoAttained(v, 0, n);
    var fi, fj := FallAttained(v, n);
    var ri, rj := RiseAttained(v, n);
    HiAbove(v, 0, n, fi);
    LoBelow(v, 0, n, fj);
    HiAbove(v, 0, n, rj);
    LoBelow(v, 0, n, ri);
    FallBounds(v, n, 0, 0);
    RiseBounds(v, n, 0, 0);
    if h <= l { FallBounds(v, n, h, l); } else { RiseBounds(v, n, l, h); }
  }

  /** Every full aligned window counts towards the worst spread. */
  lemma {:induction false} WorstBounds(v: seq<int>, win: nat, a: nat, b: nat)
    requires win > 0 && b + win <= a <= |v| && Aligned(a, win) && Aligned(b, win)
    ensures HiIn(v, b, b + win) - LoIn(v, b, b + win) <= Worst(v, win, a)
  {
    if b + win < a {
      AlignedGap(a, b + win, win);
      WorstBounds(v, win, a - win, b);
    }
  }

  /** Two different window starts are at least one window apart. */
  lemma {:induction false} AlignedGap(a: nat, b: nat, win: nat)
    requires win > 0 && Aligned(a, win) && Aligned(b, win) && b < a
    ensures b + win <= a
  {
    if b > 0 { AlignedGap(a - win, b - win, win); }
  }

  /** The worst window spread is one window's, and no more than the series'. */
  lemma {:induction false} WorstAttained(v: seq<int>, win: nat, a: nat) returns (b: nat)
    requires win > 0 && win <= a <= |v| && Aligned(a, win)
    ensures b + win <= a && Aligned(b, win)
    ensures Worst(v, win, a) == HiIn(v, b, b + win) - LoIn(v, b, b + win)
    ensures Worst(v, win, a) <= HiIn(v, 0, |v|) - LoIn(v, 0, |v|)
  {
    b := a - win;
    if a > win && Worst(v, win, a) == Worst(v, win, a - win) {
      AlignedGap(a, win, win);
      b := WorstAttained(v, win, a - win);
    } else {
      if a == win { LoAtMostHi(v, 0, win); }
      var h := HiAttained(v, b, a);
      var l := LoAttained(v, b, a);
      HiAbove(v, 0, |v|, h);
      LoBelow(v, 0, |v|, l);
    }
  }

  lemma LoAtMostHi(v: seq<int>, a: nat, b: nat)
    requires a < b <= |v|
    ensures LoIn(v, a, b) <= HiIn(v, a, b)
  {
    HiAbove(v, a, b, a);
    LoBelow(v, a, b, a);
  }

  function Sum(v: seq<int>): int {
    if v == [] then 0 else v[0] + Sum(v[1..])
  }

  /** C's truncating division; the operands of `avg_round` are not negative. */
  function AvgRound(sum: int, n: int): int
    requires n > 0 && sum >= 0
  {
    (sum + n / 2) / n
  }

  /** The mean rounded to the nearest whole number, up when two are as near. */
  lemma AvgRoundIsNearest(sum: int, n: int)
    requires n > 0 && sum >= 0
    ensures var off := 2 * (sum - AvgRound(sum, n) * n); -n <= off <= n && (n % 2 == 0 ==> off < n)
  {
    var a, up := AvgRound(sum, n), sum + n / 2;
    assert a * n <= up < a * n + n;
  }

  lemma {:induction false} SumBetween(v: seq<int>, lo: int, hi: int)
    requires forall i :: 0 <= i < |v| ==> lo <= v[i] <= hi
    ensures |v| * lo <= Sum(v) <= |v| * hi
  {
    if v != [] {
      SumBetween(v[1..], lo, hi);
      assert |v| * lo == lo + (|v| - 1) * lo && |v| * hi == hi + (|v| - 1) * hi;
    }
  }

  lemma {:induction false} SumNotNegative(v: seq<int>)
    requires forall i :: 0 <= i < |v| ==> 0 <= v[i]
    ensures Sum(v) >= 0
  {
    if v != [] { SumNotNegative(v[1..]); }
  }

  /** n*q + r is the dividend, so the quotient is bounded by the multiples
      either side of it. */
  lemma QuotientBetween(s: int, n: int, lo: int, hi: int)
    requires n > 0 && n * lo <= s < n * hi + n
    ensures lo <= s / n <= hi
  {
    var q := s / n;
    assert n * q <= s < n * q + n;
    if q > hi { MulOrder(n, hi + 1, q); }
    if q < lo { MulOrder(n, q + 1, lo); }
  }

  lemma MulOrder(n: int, a: int, b: int)
    requires n > 0 && a <= b
    ensures n * a <= n * b
  {}

  /** The rounded mean of non-negative readings stays between their least and
      their greatest. */
  lemma AvgRoundBetween(v: seq<int>, lo: int, hi: int)
    requires |v| > 0 && 0 <= lo
    requires forall i :: 0 <= i < |v| ==> lo <= v[i] <= hi
    ensures Sum(v) >= 0
    ensures lo <= AvgRound(Sum(v), |v|) <= hi
  {
    SumBetween(v, lo, hi);
    MulOrder(|v|, 0, lo);
    QuotientBetween(Sum(v) + |v| / 2, |v|, lo, hi);
  }
}
