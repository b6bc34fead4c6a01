/** The daemon's log hub (desktop/daemon/src/log_hub.rs): a bounded ring with
    age eviction and filtered paging. Times are seconds; the wall clock may jump
    either way, so an entry's stamp need not follow its number. */
module Logs {
  import opened Options

  const CAPACITY := 2000
  const DAY_S := 86400
  const U64 := 0x1_0000_0000_0000_0000

  datatype Level = Debug | Info | Warn | Error {
    function Rank(): nat {
      match this
      case Debug => 0
      case Info => 1
      case Warn => 2
      case Error => 3
    }
  }

  datatype Source = Host | Esp | Program | Tosu

  datatype Entry = Entry(number: nat, ts: int, source: Source, level: Level)

  /** Which entries a request asks for: a level floor and a source. */
  datatype Query = Query(level: Option<Level>, source: Option<Source>) {
    predicate Matches(e: Entry) {
      (level.Some? ==> e.level.Rank() >= level.value.Rank()) && (source.Some? ==> e.source == source.value)
    }
  }

  datatype Hub = Hub(entries: seq<Entry>, nextSeq: nat)

  function Filter(es: seq<Entry>, p: Entry -> bool): (r: seq<Entry>)
    ensures |r| <= |es|
  {
    if es == [] then []
    else (if p(es[0]) then [es[0]] else []) + Filter(es[1..], p)
  }

  /** The sequence number that comes after `n`: a wrapping 64-bit increment. */
  function NextSeq(n: nat): nat { (n + 1) % U64 }

  function Recent(cutoff: int): Entry -> bool { (e: Entry) => e.ts >= cutoff }

  function After(n: nat, q: Query): Entry -> bool { (e: Entry) => e.number > n && q.Matches(e) }

  function Matching(q: Query): Entry -> bool { (e: Entry) => q.Matches(e) }

  /** A new entry stamped `ts`, pushed at `now`: one entry makes room when the
      ring is full, then everything over a day old goes. */
  function Pushed(h: Hub, now: int, ts: int, source: Source, level: Level): Hub {
    var roomy := if |h.entries| >= CAPACITY then h.entries[1..] else h.entries;
    var recent := Filter(roomy, Recent(now - DAY_S));
    Hub(recent + [Entry(h.nextSeq, ts, source, level)], NextSeq(h.nextSeq))
  }

  function LatestSeq(h: Hub): nat { if h.nextSeq == 0 then 0 else h.nextSeq - 1 }

  /** The matching entries after a cursor, oldest first and at most `limit`; or,
      without a cursor, the newest `limit`. */
  function Reply(h: Hub, since: Option<nat>, limit: nat, q: Query): seq<Entry> {
    match since
    case Some(c) =>
      var after := Filter(h.entries, After(c, q));
      after[..Min(limit, |after|)]
    case None =>
      var matching := Filter(h.entries, Matching(q));
      matching[|matching| - Min(limit, |matching|)..]
  }

  ghost predicate Ordered(es: seq<Entry>) {
    forall i, j :: 0 <= i < j < |es| ==> es[i].number < es[j].number
  }

  /** Numbers rise through the ring and stay below the next one to be given out. */
  ghost predicate ValidHub(h: Hub) {
    Ordered(h.entries) && forall e :: e in h.entries ==> e.number < h.nextSeq
  }

  lemma {:induction false} FilterKeeps(es: seq<Entry>, p: Entry -> bool, e: Entry)
    ensures e in Filter(es, p) <==> e in es && p(e)
  {
    if es != [] {
      FilterKeeps(es[1..], p, e);
      assert es == [es[0]] + es[1..];
    }
  }

  lemma {:induction false} FilterOrdered(es: seq<Entry>, p: Entry -> bool)
    requires Ordered(es)
    ensures Ordered(Filter(es, p))
  {
    if es != [] {
      FilterOrdered(es[1..], p);
      var rest := Filter(es[1..], p);
      forall e | e in rest ensures es[0].number < e.number {
        FilterKeeps(es[1..], p, e);
      }
    }
  }

  lemma PushedValid(h: Hub, now: int, ts: int, source: Source, level: Level)
    requires ValidHub(h) && h.nextSeq + 1 < U64
    ensures var h' := Pushed(h, now, ts, source, level);
            && ValidHub(h') && h'.nextSeq == h.nextSeq + 1
            && (|h.entries| <= CAPACITY ==> |h'.entries| <= CAPACITY)
            && h'.entries != [] && h'.entries[|h'.entries| - 1] == Entry(h.nextSeq, ts, source, level)
            && forall e :: e in h'.entries && e.number != h.nextSeq ==> e in h.entries
  {
    var roomy := if |h.entries| >= CAPACITY then h.entries[1..] else h.entries;
    var p := Recent(now - DAY_S);
    FilterOrdered(roomy, p);
    forall e | e in Filter(roomy, p) ensures e in h.entries { FilterKeeps(roomy, p, e); }
  }

  /** Of the ring before, exactly what is no more than a day old is kept, but that a full one
      gives up its oldest. */
  lemma PushKeepsExactly(h: Hub, now: int, ts: int, source: Source, level: Level, e: Entry)
    requires ValidHub(h) && h.nextSeq + 1 < U64
    ensures e in Pushed(h, now, ts, source, level).entries <==>
              || e == Entry(h.nextSeq, ts, source, level)
              || (e in h.entries && e.ts >= now - 86400 && (|h.entries| >= 2000 ==> e != h.entries[0]))
  {
    var roomy := if |h.entries| >= CAPACITY then h.entries[1..] else h.entries;
    FilterKeeps(roomy, Recent(now - DAY_S), e);
    if |h.entries| >= CAPACITY {
      assert h.entries == [h.entries[0]] + h.entries[1..];
      if e in h.entries[1..] {
        var i :| 0 <= i < |h.entries[1..]| && h.entries[1..][i] == e;
        assert h.entries[i + 1] == e && h.entries[0].number < h.entries[i + 1].number;
      }
    }
  }

  lemma FilterFrom(es: seq<Entry>, i: nat, p: Entry -> bool)
    requires i < |es|
    ensures Filter(es[i..], p) == if p(es[i]) then [es[i]] + Filter(es[i + 1..], p) else Filter(es[i + 1..], p)
  {
    assert es[i..][1..] == es[i + 1..];
    if !p(es[i]) { assert [] + Filter(es[i + 1..], p) == Filter(es[i + 1..], p); }
  }

  method Retain(es: seq<Entry>, cutoff: int) returns (kept: seq<Entry>)
    ensures kept == Filter(es, Recent(cutoff))
  {
    kept := [];
    for i := 0 to |es|
      invariant Filter(es, Recent(cutoff)) == kept + Filter(es[i..], Recent(cutoff))
    {
      FilterFrom(es, i, Recent(cutoff));
      if es[i].ts >= cutoff { kept := kept + [es[i]]; }
    }
    assert kept + [] == kept;
  }

  lemma HeadOf(all: seq<Entry>, n: nat)
    requires Ordered(all) && n <= |all|
    ensures Ordered(all[..n])
    ensures forall e :: e in all[..n] ==> e in all
    ensures n > 0 ==> forall e :: e in all ==> (e in all[..n] <==> e.number <= all[n - 1].number)
  {
    forall e | n > 0 && e in all ensures e in all[..n] <==> e.number <= all[n - 1].number {
      var i :| 0 <= i < |all| && all[i] == e;
      if i < n { assert all[..n][i] == e; }
    }
  }

  lemma TailOf(all: seq<Entry>, n: nat)
    requires Ordered(all) && n <= |all|
    ensures Ordered(all[n..])
    ensures forall e :: e in all[n..] ==> e in all
    ensures n < |all| ==> forall e :: e in all ==> (e in all[n..] <==> e.number >= all[n].number)
  {
    forall e | n < |all| && e in all ensures e in all[n..] <==> e.number >= all[n].number {
      var i :| 0 <= i < |all| && all[i] == e;
      if i >= n { assert all[n..][i - n] == e; }
    }
  }

  lemma FilterIs(es: seq<Entry>, p: Entry -> bool)
    requires Ordered(es)
    ensures Ordered(Filter(es, p))
    ensures forall e :: e in Filter(es, p) <==> e in es && p(e)
  {
    FilterOrdered(es, p);
    forall e ensures e in Filter(es, p) <==> e in es && p(e) { FilterKeeps(es, p, e); }
  }

  /** What a level floor and a source let through. */
  lemma FloorAdmitsExactly(q: Query, e: Entry)
    ensures q.Matches(e) <==>
              && (q.source.None? || e.source == q.source.value)
              && match q.level
                 case None => true
                 case Some(Debug) => true
                 case Some(Info) => e.level in {Info, Warn, Error}
                 case Some(Warn) => e.level in {Warn, Error}
                 case Some(Error) => e.level == Error
  {}

  /** A reply after a cursor: in order, all of it past the cursor and matching,
      and nothing skipped below its last entry. */
  lemma ReplyAfter(h: Hub, n: nat, limit: nat, q: Query)
    requires ValidHub(h)
    ensures var r := Reply(h, Some(n), limit, q);
            && Ordered(r) && |r| <= limit
            && (forall e :: e in r ==> e in h.entries && e.number > n && q.Matches(e))
            && (r != [] ==> forall e :: e in h.entries && e.number > n && q.Matches(e) ==>
                  (e in r <==> e.number <= r[|r| - 1].number))
            && (r == [] && limit > 0 ==> forall e :: e in h.entries && e.number > n ==> !q.Matches(e))
  {
    var all := Filter(h.entries, After(n, q));
    FilterIs(h.entries, After(n, q));
    HeadOf(all, Min(limit, |all|));
  }

  /** A reply without a cursor: the newest matching entries, none skipped above
      its first. */
  lemma ReplyNewest(h: Hub, limit: nat, q: Query)
    requires ValidHub(h)
    ensures var r := Reply(h, None, limit, q);
            && Ordered(r) && |r| <= limit
            && (forall e :: e in r ==> e in h.entries && q.Matches(e))
            && (r != [] ==> forall e :: e in h.entries && q.Matches(e) ==> (e in r <==> e.number >= r[0].number))
            && (r == [] && limit > 0 ==> forall e :: e in h.entries ==> !q.Matches(e))
  {
    var all := Filter(h.entries, Matching(q));
    FilterIs(h.entries, Matching(q));
    TailOf(all, |all| - Min(limit, |all|));
  }

  /** The ring, updated in place under its lock. */
  class LogHub {
    var entries: seq<Entry>
    var nextSeq: nat

    function View(): Hub
      reads this
    {
      Hub(entries, nextSeq)
    }

    constructor ()
      ensures View() == Hub([], 1)
    {
      entries, nextSeq := [], 1;
    }

    method Push(now: int, ts: int, source: Source, level: Level)
      modifies this
      ensures View() == Pushed(old(View()), now, ts, source, level)
    {
      var number := nextSeq;
      nextSeq := NextSeq(nextSeq);
      if |entries| >= CAPACITY {
        entries := entries[1..];
      }
      var kept := Retain(entries, now - DAY_S);
      entries := kept + [Entry(number, ts, source, level)];
    }

    method GetMatchingEntries(since: Option<nat>, limit: nat, q: Query) returns (reply: seq<Entry>, latest: nat)
      ensures reply == Reply(View(), since, limit, q)
      ensures latest == LatestSeq(View())
    {
      latest := if nextSeq == 0 then 0 else nextSeq - 1;
      match since {
        case Some(c) =>
          var after := Filter(entries, After(c, q));
          reply := after[..Min(limit, |after|)];
        case None =>
          var matching := Filter(entries, Matching(q));
          reply := matching[|matching| - Min(limit, |matching|)..];
      }
    }
  }
}
