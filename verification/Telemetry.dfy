/** The diff cache between tosu's frames and the pad (desktop/daemon/src/telemetry.rs).
    Times are microseconds. */
module Telemetry {
  import opened Options
  import opened Daemon

  const MS := 1000
  const FLUSH_INTERVAL_IDLE := 500 * MS

  function FlushIntervalPlaying(hz: nat): int { 1000 / Max(1, Min(hz, 30)) * MS }

  lemma QuotientFalls(n: nat, a: nat, b: nat)
    requires 0 < a <= b
    ensures n / b <= n / a
  {
    var p, q := n / a, n / b;
    assert q * b <= n < (p + 1) * a;
    TimesMono(a, b, q);
    if p + 1 <= q { TimesMono(p + 1, q, a); }
  }

  lemma TimesMono(x: nat, y: nat, k: nat)
    requires x <= y
    ensures x * k <= y * k && k * x <= k * y
  {}

  /** Never under 33 ms or over a second, and no faster for a lower rate. */
  lemma FlushIntervalBounds(hz: nat, other: nat)
    ensures 33 * MS <= FlushIntervalPlaying(hz) <= 1000 * MS
    ensures hz <= other ==> FlushIntervalPlaying(other) <= FlushIntervalPlaying(hz)
  {
    QuotientFalls(1000, Max(1, Min(hz, 30)), 30);
    QuotientFalls(1000, 1, Max(1, Min(hz, 30)));
    if hz <= other { QuotientFalls(1000, Max(1, Min(hz, 30)), Max(1, Min(other, 30))); }
  }

  /** As many updates a second as the rate says, to the millisecond, from one to thirty; a
      rate of none counts as one. */
  lemma FlushIntervalIsTheRate(hz: nat)
    ensures FlushIntervalPlaying(hz) % 1000 == 0
    ensures 1 <= hz <= 30 ==> hz * FlushIntervalPlaying(hz) <= 1_000_000 < hz * (FlushIntervalPlaying(hz) + 1000)
    ensures hz > 30 ==> FlushIntervalPlaying(hz) == FlushIntervalPlaying(30)
    ensures hz == 0 ==> FlushIntervalPlaying(hz) == 1_000_000
  {
    if 1 <= hz <= 30 {
      var q := 1000 / hz;
      assert q * hz <= 1000 < (q + 1) * hz;
      assert hz * (q * MS) == q * hz * 1000 && hz * (q * MS + 1000) == (q + 1) * hz * 1000;
    }
  }

  datatype Data = Data(latest: Values, sent: Values, lastFlush: Option<int>)

  const EMPTY := Data(map[], map[], None)

  /** The values an update leaves, its pairs applied in order. */
  function Merge(m: Values, u: Update): Values
    decreases |u|
  {
    if u == [] then m else Merge(m[u[0].0 := u[0].1], u[1..])
  }

  function Ingested(d: Data, u: Update): Data { d.(latest := Merge(d.latest, u)) }

  function NothingSent(d: Data): Data { d.(sent := map[]) }

  function Cleared(d: Data): Data { d.(latest := map[], sent := map[]) }

  /** What the pad does not have yet. */
  function Diff(d: Data): Values {
    map k | k in d.latest && !(k in d.sent && d.sent[k] == d.latest[k]) :: d.latest[k]
  }

  predicate Ascending(u: Update) {
    forall i, j | 0 <= i < j < |u| :: u[i].0 < u[j].0
  }

  /** The pairs of `m` from source `from` on, by ascending source. */
  function Listing(m: Values, from: nat): (u: Update)
    requires from <= 256
    decreases 256 - from
  {
    if from == 256 then []
    else if from in m then [(from, m[from])] + Listing(m, from + 1)
    else Listing(m, from + 1)
  }

  predicate FlushDue(d: Data, playing: bool, hz: nat, force: bool, now: int) {
    var interval := if playing then FlushIntervalPlaying(hz) else FLUSH_INTERVAL_IDLE;
    force || d.lastFlush.None? || now - d.lastFlush.value >= interval
  }

  function Changes(d: Data, playing: bool, hz: nat, force: bool, now: int): Update {
    if FlushDue(d, playing, hz, force, now) then Listing(Diff(d), 0) else []
  }

  function Flushed(d: Data, playing: bool, hz: nat, force: bool, now: int): Data {
    if FlushDue(d, playing, hz, force, now)
    then d.(sent := Merge(d.sent, Listing(Diff(d), 0)), lastFlush := Some(now))
    else d
  }

  // ---- Updates as maps ----------------------------------------------------------

  lemma {:induction false} ListingIs(m: Values, from: nat)
    requires from <= 256
    ensures forall k, v :: (k, v) in Listing(m, from) <==> from <= k && k in m && m[k] == v
    ensures Ascending(Listing(m, from))
    decreases 256 - from
  {
    if from < 256 {
      ListingIs(m, from + 1);
      var rest := Listing(m, from + 1);
      forall i | 0 <= i < |rest| ensures from < rest[i].0 {
        assert (rest[i].0, rest[i].1) in rest;
      }
    }
  }

  /** An update in ascending order sets each of its sources once: the order in
      which its pairs arrive does not matter. */
  lemma {:induction false} MergeIs(m: Values, u: Update, k: Source)
    requires Ascending(u)
    ensures forall v :: (k, v) in u ==> k in Merge(m, u) && Merge(m, u)[k] == v
    ensures (forall v :: (k, v) !in u) ==> (k in Merge(m, u) <==> k in m) && (k in m ==> Merge(m, u)[k] == m[k])
    decreases |u|
  {
    if u != [] {
      MergeIs(m[u[0].0 := u[0].1], u[1..], k);
      assert u == [u[0]] + u[1..];
      forall v | (k, v) in u[1..] ensures u[0].0 < k {}
    }
  }

  lemma HeadIn(u: Update)
    ensures u != [] ==> u[0] in u
  {}

  /** Two ascending updates with the same pairs are the same update. */
  lemma {:induction false} AscendingUnique(a: Update, b: Update)
    requires Ascending(a) && Ascending(b) && forall p :: p in a <==> p in b
    ensures a == b
    decreases |a|
  {
    if a == [] {
      assert forall p :: p !in b;
      HeadIn(b);
    } else {
      assert a[0] in b;
      assert b[0] in a;
      assert a[0] == b[0];
      forall p ensures p in a[1..] <==> p in b[1..] {
        if p in a[1..] { assert p in b && p.0 > a[0].0; }
        if p in b[1..] { assert p in a && p.0 > b[0].0; }
      }
      AscendingUnique(a[1..], b[1..]);
    }
  }

  // ---- What a flush does ---------------------------------------------------------

  ghost predicate SentWithinLatest(d: Data) { d.sent.Keys <= d.latest.Keys }

  lemma {:induction false} MergeKeys(m: Values, u: Update)
    ensures Merge(m, u).Keys == m.Keys + set p | p in u :: p.0
    decreases |u|
  {
    if u != [] {
      MergeKeys(m[u[0].0 := u[0].1], u[1..]);
      assert u == [u[0]] + u[1..];
    }
  }

  /** A flush that is due leaves nothing owed: what was sent is what is latest,
      so the next one sends only what changed since. */
  lemma FlushSendsAll(d: Data, playing: bool, hz: nat, force: bool, now: int)
    requires SentWithinLatest(d) && FlushDue(d, playing, hz, force, now)
    ensures Flushed(d, playing, hz, force, now).sent == d.latest
    ensures Diff(Flushed(d, playing, hz, force, now)) == map[]
  {
    var u := Listing(Diff(d), 0);
    var sent := Merge(d.sent, u);
    ListingIs(Diff(d), 0);
    forall k: Source ensures (k in sent <==> k in d.latest) && (k in d.latest ==> sent[k] == d.latest[k]) {
      MergeIs(d.sent, u, k);
      if k in Diff(d) { assert (k, Diff(d)[k]) in u; }
    }
    assert sent == d.latest;
  }

  /** The diff is enough: applied to any copy that agrees with what was sent, it
      gives a copy that agrees with what is now marked sent, and it touches no
      source it does not have to. */
  lemma DiffIsEnough(d: Data, playing: bool, hz: nat, force: bool, now: int, pad: Values, k: Source)
    requires k in d.sent ==> k in pad && pad[k] == d.sent[k]
    ensures var d' := Flushed(d, playing, hz, force, now);
            var pad' := Merge(pad, Changes(d, playing, hz, force, now));
            k in d'.sent ==> k in pad' && pad'[k] == d'.sent[k]
    ensures (forall v :: (k, v) !in Changes(d, playing, hz, force, now))
            || (k in d.latest && !(k in d.sent && d.sent[k] == d.latest[k]))
  {
    if FlushDue(d, playing, hz, force, now) {
      var u := Listing(Diff(d), 0);
      ListingIs(Diff(d), 0);
      MergeIs(d.sent, u, k);
      MergeIs(pad, u, k);
    }
  }

  /** Every operation keeps what was sent within what is known. */
  lemma SentStaysWithin(d: Data, u: Update, playing: bool, hz: nat, force: bool, now: int)
    requires SentWithinLatest(d)
    ensures SentWithinLatest(Ingested(d, u)) && SentWithinLatest(NothingSent(d)) && SentWithinLatest(Cleared(d))
    ensures SentWithinLatest(Flushed(d, playing, hz, force, now))
  {
    MergeKeys(d.latest, u);
    if FlushDue(d, playing, hz, force, now) { FlushSendsAll(d, playing, hz, force, now); }
  }

  // ---- The cache itself ------------------------------------------------------------

  /** Puts a pair where its source belongs. */
  function Placed(u: Update, p: (Source, Value)): Update {
    if u == [] || p.0 < u[0].0 then [p] + u else [u[0]] + Placed(u[1..], p)
  }

  lemma {:induction false} PlacedIs(u: Update, p: (Source, Value))
    requires Ascending(u) && forall q :: q in u ==> q.0 != p.0
    ensures Ascending(Placed(u, p)) && forall q :: q in Placed(u, p) <==> q in u || q == p
    decreases |u|
  {
    if u != [] && u[0].0 < p.0 {
      PlacedIs(u[1..], p);
      assert u == [u[0]] + u[1..];
      var rest := Placed(u[1..], p);
      forall i | 0 <= i < |rest| ensures u[0].0 < rest[i].0 { assert rest[i] in rest; }
    } else if u != [] {
      assert u[0] in u;
    }
  }

  class DataSync {
    var latest: Values
    var sent: Values
    var lastFlush: Option<int>

    function View(): Data
      reads this
    {
      Data(latest, sent, lastFlush)
    }

    constructor ()
      ensures View() == EMPTY
    {
      latest, sent, lastFlush := map[], map[], None;
    }

    method Ingest(values: Update)
      modifies this`latest
      ensures View() == Ingested(old(View()), values)
    {
      ghost var before := latest;
      for i := 0 to |values|
        invariant Merge(latest, values[i..]) == Merge(before, values)
      {
        assert values[i..][0] == values[i] && values[i..][1..] == values[i + 1..];
        latest := latest[values[i].0 := values[i].1];
      }
    }

    method TakeChanges(playing: bool, hz: nat, force: bool, now: int) returns (changes: Update)
      modifies this`sent, this`lastFlush
      ensures changes == Changes(old(View()), playing, hz, force, now)
      ensures View() == Flushed(old(View()), playing, hz, force, now)
    {
      var interval := if playing then FlushIntervalPlaying(hz) else FLUSH_INTERVAL_IDLE;
      if !force && lastFlush.Some? && now - lastFlush.value < interval {
        return [];
      }
      lastFlush := Some(now);
      changes := Collect();
      for i := 0 to |changes|
        invariant latest == old(latest) && lastFlush == Some(now)
        invariant changes == Listing(Diff(old(View())), 0)
        invariant Merge(sent, changes[i..]) == Merge(old(sent), changes)
      {
        assert changes[i..][0] == changes[i] && changes[i..][1..] == changes[i + 1..];
        sent := sent[changes[i].0 := changes[i].1];
      }
    }

    /** The changed pairs, met in no particular order, sorted by source. */
    method Collect() returns (changes: Update)
      ensures changes == Listing(Diff(View()), 0)
    {
      changes := [];
      var keys := latest.Keys;
      ghost var diff := Diff(View());
      while keys != {}
        invariant keys <= latest.Keys && Ascending(changes)
        invariant forall k, v :: (k, v) in changes <==> k in diff && k !in keys && diff[k] == v
        decreases |keys|
      {
        var k :| k in keys;
        keys := keys - {k};
        if !(k in sent && sent[k] == latest[k]) {
          PlacedIs(changes, (k, latest[k]));
          changes := Placed(changes, (k, latest[k]));
        }
      }
      ListingIs(diff, 0);
      forall p: (Source, Value) ensures p in changes <==> p in Listing(diff, 0) {
        assert p == (p.0, p.1);
      }
      AscendingUnique(changes, Listing(diff, 0));
    }

    method ResetSent()
      modifies this`sent
      ensures View() == NothingSent(old(View()))
    {
      sent := map[];
    }

    method Clear()
      modifies this`latest, this`sent
      ensures View() == Cleared(old(View()))
    {
      latest, sent := map[], map[];
    }
  }
}
