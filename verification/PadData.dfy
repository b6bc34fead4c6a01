/** What the pad shows, and what the messages still on their way will make of it. */
module PadData {
  import opened Options
  import opened Daemon
  import opened Telemetry

  const CHUNK := 32

  /** The messages that change the values shown. */
  datatype Msg = DataMsg(update: Update) | StatusMsg(tosu: bool)

  /** The sources the pad clears by itself when it hears that tosu is gone: tosu's
      and the attempt's (firmware/main/ui/core/ui_data.c). */
  predicate Host(k: Source) { 1 <= k <= 59 || k == 84 || k == 86 }

  function Shown(pad: Values, k: Source): Value { if k in pad then pad[k] else Clear }

  function HostCleared(pad: Values): Values { map k | k in pad && !Host(k) :: pad[k] }

  function Applied(pad: Values, m: Msg): Values {
    match m
    case DataMsg(u) => Merge(pad, u)
    case StatusMsg(tosu) => if tosu then pad else HostCleared(pad)
  }

  function AppliedAll(pad: Values, pipe: seq<Msg>): Values
    decreases |pipe|
  {
    if pipe == [] then pad else AppliedAll(Applied(pad, pipe[0]), pipe[1..])
  }

  // ---- One update -------------------------------------------------------------------

  predicate Sets(u: Update, k: Source) { exists i :: 0 <= i < |u| && u[i].0 == k }

  /** Every pair for `k` sets it to `v`. */
  predicate SetsOnly(u: Update, k: Source, v: Value) { forall i :: 0 <= i < |u| && u[i].0 == k ==> u[i].1 == v }

  lemma {:induction false} MergeSets(m: Values, u: Update, k: Source, v: Value)
    requires SetsOnly(u, k, v)
    ensures Sets(u, k) ==> Shown(Merge(m, u), k) == v
    ensures !Sets(u, k) ==> Shown(Merge(m, u), k) == Shown(m, k)
    ensures k in m && m[k] == v ==> Shown(Merge(m, u), k) == v
    decreases |u|
  {
    if u != [] {
      var rest := u[1..];
      assert forall i :: 0 <= i < |rest| ==> rest[i] == u[i + 1];
      MergeSets(m[u[0].0 := u[0].1], rest, k, v);
      if Sets(rest, k) {
        var i :| 0 <= i < |rest| && rest[i].0 == k;
        assert u[i + 1].0 == k;
      } else if Sets(u, k) {
        assert u[0].0 == k;
      }
    }
  }

  lemma SetsAppend(a: Update, b: Update, k: Source, v: Value)
    ensures Sets(a + b, k) <==> Sets(a, k) || Sets(b, k)
    ensures SetsOnly(a + b, k, v) <==> SetsOnly(a, k, v) && SetsOnly(b, k, v)
  {
    var ab := a + b;
    if Sets(a, k) { var i :| 0 <= i < |a| && a[i].0 == k; assert ab[i].0 == k; }
    if Sets(b, k) { var i :| 0 <= i < |b| && b[i].0 == k; assert ab[|a| + i].0 == k; }
    if SetsOnly(ab, k, v) {
      forall i | 0 <= i < |b| && b[i].0 == k ensures b[i].1 == v { assert ab[|a| + i] == b[i]; }
      forall i | 0 <= i < |a| && a[i].0 == k ensures a[i].1 == v { assert ab[i] == a[i]; }
    }
  }

  // ---- What is on its way ---------------------------------------------------------------

  /** Once everything in the pipe has arrived, or only the data of it, source `k`
      shows `v`. A host status may be dropped, so nothing may depend on one. */
  predicate Holds(pad: Values, pipe: seq<Msg>, k: Source, v: Value)
    decreases |pipe|
  {
    if pipe == [] then Shown(pad, k) == v
    else
      var n := |pipe| - 1;
      match pipe[n]
      case DataMsg(u) => if Sets(u, k) then SetsOnly(u, k, v) else Holds(pad, pipe[..n], k, v)
      case StatusMsg(tosu) => (!tosu && Host(k) ==> v == Clear) && Holds(pad, pipe[..n], k, v)
  }

  lemma PipeTail(m: Msg, rest: seq<Msg>)
    requires rest != []
    ensures ([m] + rest)[|rest|] == rest[|rest| - 1] && ([m] + rest)[..|rest|] == [m] + rest[..|rest| - 1]
  {}

  /** The first message arrives. */
  lemma {:induction false} HoldsArrives(pad: Values, m: Msg, rest: seq<Msg>, k: Source, v: Value)
    requires Holds(pad, [m] + rest, k, v)
    ensures Holds(Applied(pad, m), rest, k, v)
    decreases |rest|
  {
    if rest == [] {
      assert [m] + rest == [m] && [m][..0] == [];
      if m.DataMsg? {
        if Sets(m.update, k) { MergeSets(pad, m.update, k, v); } else { MergeSets(pad, m.update, k, v); }
      }
    } else {
      PipeTail(m, rest);
      var n := |rest| - 1;
      if rest[n].StatusMsg? || !Sets(rest[n].update, k) { HoldsArrives(pad, m, rest[..n], k, v); }
    }
  }

  /** What `Holds` promises: the value after everything has arrived. */
  lemma {:induction false} HoldsIsShown(pad: Values, pipe: seq<Msg>, k: Source, v: Value)
    requires Holds(pad, pipe, k, v)
    ensures Shown(AppliedAll(pad, pipe), k) == v
    decreases |pipe|
  {
    if pipe != [] {
      assert pipe == [pipe[0]] + pipe[1..];
      HoldsArrives(pad, pipe[0], pipe[1..], k, v);
      HoldsIsShown(Applied(pad, pipe[0]), pipe[1..], k, v);
    }
  }

  lemma PipeSplit(a: seq<Msg>, b: seq<Msg>)
    requires b != []
    ensures (a + b)[|a + b| - 1] == b[|b| - 1] && (a + b)[..|a + b| - 1] == a + b[..|b| - 1]
  {}

  /** A host status in the middle is dropped. */
  lemma {:induction false} HoldsWithoutStatus(pad: Values, a: seq<Msg>, tosu: bool, b: seq<Msg>, k: Source, v: Value)
    requires Holds(pad, a + [StatusMsg(tosu)] + b, k, v)
    ensures Holds(pad, a + b, k, v)
    decreases |b|
  {
    if b == [] {
      assert a + [StatusMsg(tosu)] + b == a + [StatusMsg(tosu)] && a + b == a;
      assert (a + [StatusMsg(tosu)])[..|a|] == a;
    } else {
      PipeSplit(a + [StatusMsg(tosu)], b);
      PipeSplit(a, b);
      var n := |b| - 1;
      if b[n].StatusMsg? || !Sets(b[n].update, k) { HoldsWithoutStatus(pad, a, tosu, b[..n], k, v); }
    }
  }

  /** A diff in the middle goes out in two parts. */
  lemma {:induction false} HoldsInParts(pad: Values, a: seq<Msg>, x: Update, y: Update, b: seq<Msg>, k: Source,
      v: Value)
    requires Holds(pad, a + [DataMsg(x + y)] + b, k, v)
    ensures Holds(pad, a + [DataMsg(x), DataMsg(y)] + b, k, v)
    decreases |b|
  {
    SetsAppend(x, y, k, v);
    if b == [] {
      assert a + [DataMsg(x + y)] + b == a + [DataMsg(x + y)];
      assert a + [DataMsg(x), DataMsg(y)] + b == a + [DataMsg(x)] + [DataMsg(y)];
      PipeSplit(a, [DataMsg(x + y)]);
      PipeSplit(a + [DataMsg(x)], [DataMsg(y)]);
      PipeSplit(a, [DataMsg(x)]);
    } else {
      PipeSplit(a + [DataMsg(x + y)], b);
      PipeSplit(a + [DataMsg(x), DataMsg(y)], b);
      var n := |b| - 1;
      if b[n].StatusMsg? || !Sets(b[n].update, k) { HoldsInParts(pad, a, x, y, b[..n], k, v); }
    }
  }

  /** The messages of one update, at most 32 pairs each. */
  function Chunks(u: Update): seq<Msg>
    decreases |u|
  {
    if |u| <= CHUNK then [DataMsg(u)] else [DataMsg(u[..CHUNK])] + Chunks(u[CHUNK..])
  }

  /** No message carries more than 32 pairs, and no more of them are made than that takes. */
  lemma {:induction false} ChunksAreFull(u: Update)
    ensures forall i :: 0 <= i < |Chunks(u)| ==> Chunks(u)[i].DataMsg? && |Chunks(u)[i].update| <= 32
    ensures forall i :: 0 <= i < |Chunks(u)| - 1 ==> |Chunks(u)[i].update| == 32
    ensures u != [] ==> Chunks(u)[|Chunks(u)| - 1].update != []
    decreases |u|
  {
    if |u| > CHUNK { ChunksAreFull(u[CHUNK..]); }
  }

  lemma {:induction false} HoldsInChunks(pad: Values, a: seq<Msg>, u: Update, b: seq<Msg>, k: Source, v: Value)
    requires Holds(pad, a + [DataMsg(u)] + b, k, v)
    ensures Holds(pad, a + Chunks(u) + b, k, v)
    decreases |u|
  {
    if |u| > CHUNK {
      var x, y := u[..CHUNK], u[CHUNK..];
      assert x + y == u;
      HoldsInParts(pad, a, x, y, b, k, v);
      assert a + [DataMsg(x), DataMsg(y)] + b == a + [DataMsg(x)] + [DataMsg(y)] + b;
      HoldsInChunks(pad, a + [DataMsg(x)], y, b, k, v);
      assert a + [DataMsg(x)] + Chunks(y) + b == a + ([DataMsg(x)] + Chunks(y)) + b;
    }
  }

  /** More is queued behind: host statuses, which a value stands unless it is tosu's and
      one says that tosu is away, and a diff. */
  lemma {:induction false} HoldsPastStatuses(pad: Values, pipe: seq<Msg>, statuses: seq<Msg>, k: Source, v: Value)
    requires forall m :: m in statuses ==> m.StatusMsg?
    ensures Holds(pad, pipe + statuses, k, v)
            <==> Holds(pad, pipe, k, v) && (StatusMsg(false) in statuses && Host(k) ==> v == Clear)
    decreases |statuses|
  {
    if statuses == [] {
      assert pipe + statuses == pipe;
    } else {
      PipeSplit(pipe, statuses);
      var n := |statuses| - 1;
      assert statuses[n] in statuses;
      assert StatusMsg(false) in statuses <==> StatusMsg(false) in statuses[..n] || statuses[n] == StatusMsg(false) by {
        assert statuses == statuses[..n] + [statuses[n]];
      }
      HoldsPastStatuses(pad, pipe, statuses[..n], k, v);
    }
  }

  lemma HoldsPastData(pad: Values, pipe: seq<Msg>, u: Update, k: Source, v: Value)
    ensures Holds(pad, pipe + [DataMsg(u)], k, v)
            <==> if Sets(u, k) then SetsOnly(u, k, v) else Holds(pad, pipe, k, v)
  {
    PipeSplit(pipe, [DataMsg(u)]);
  }

  // ---- Messages in sequence --------------------------------------------------------------

  lemma {:induction false} AppliedAppend(pad: Values, a: seq<Msg>, b: seq<Msg>)
    ensures AppliedAll(pad, a + b) == AppliedAll(AppliedAll(pad, a), b)
    decreases |a|
  {
    if a == [] {
      assert a + b == b;
    } else {
      assert (a + b)[1..] == a[1..] + b;
      AppliedAppend(Applied(pad, a[0]), a[1..], b);
    }
  }

  lemma {:induction false} MergeAppend(m: Values, x: Update, y: Update)
    ensures Merge(m, x + y) == Merge(Merge(m, x), y)
    decreases |x|
  {
    if x == [] {
      assert x + y == y;
    } else {
      assert (x + y)[1..] == x[1..] + y;
      MergeAppend(m[x[0].0 := x[0].1], x[1..], y);
    }
  }

  /** An update arrives in its messages as it would in one. */
  lemma {:induction false} AppliedChunks(pad: Values, u: Update)
    ensures AppliedAll(pad, Chunks(u)) == Merge(pad, u)
    decreases |u|
  {
    if |u| <= CHUNK {
      assert [DataMsg(u)][1..] == [];
    } else {
      var x, y := u[..CHUNK], u[CHUNK..];
      assert x + y == u;
      MergeAppend(pad, x, y);
      assert ([DataMsg(x)] + Chunks(y))[1..] == Chunks(y);
      AppliedChunks(Merge(pad, x), y);
    }
  }
}
