/** Following the daemon's log with a cursor (desktop/cli/src/main.rs, `monitor` and
    `next_since_seq`; desktop/gui/src/main.rs, `next_log_cursor`): exactly-once, in-order
    delivery to a client that awaits each poll, as the CLI does, under any interleaving of
    pushes, evictions and polls. The GUI's page, which does not, is `GuiFollow`. */
module LogFollow {
  import opened Options
  import opened Logs

  /** What a client asks for, and whether an empty reply moves its cursor to the
      daemon's latest number (the GUI) or leaves it (the CLI). */
  datatype Client = Client(limit: nat, q: Query, adopts: bool)

  const GUI_CLIENT := Client(200, Query(None, None), true)

  function NextSinceSeq(since: Option<nat>, reply: seq<Entry>): Option<nat> {
    if reply == [] then since else Some(reply[|reply| - 1].number)
  }

  function NextLogCursor(cursor: nat, reply: seq<Entry>, latest: nat): nat {
    if reply != [] then reply[|reply| - 1].number
    else if latest > 0 then latest
    else cursor
  }

  /** The last number received, or, with nothing newer, the daemon's latest if it has one. */
  lemma CursorMoves(cursor: nat, reply: seq<Entry>, latest: nat)
    ensures reply != [] ==> NextLogCursor(cursor, reply, latest) == reply[|reply| - 1].number
    ensures reply == [] && latest > 0 ==> NextLogCursor(cursor, reply, latest) == latest
    ensures reply == [] && latest == 0 ==> NextLogCursor(cursor, reply, latest) == cursor
  {}

  /** The GUI keeps 0 where the CLI keeps no cursor. */
  function Cursor(n: nat): Option<nat> { if n > 0 then Some(n) else None }

  function NextCursor(c: Client, since: Option<nat>, reply: seq<Entry>, latest: nat): Option<nat> {
    if c.adopts
    then Cursor(NextLogCursor(if since.Some? then since.value else 0, reply, latest))
    else NextSinceSeq(since, reply)
  }

  // ---- One follower beside a running hub ------------------------------------

  /** `pushed` is every entry of this daemon life; `missed` the numbers evicted
      before the cursor reached them; `delivered` all replies, concatenated;
      `start` the first number the follower answers for. */
  datatype World = World(
    hub: Hub, pushed: seq<Entry>, missed: set<nat>,
    since: Option<nat>, start: nat, delivered: seq<Entry>)

  datatype Step =
    | PushEntry(now: int, ts: int, source: Source, level: Level)
    | Poll

  function Ahead(since: Option<nat>, n: nat): bool { since.None? || n > since.value }

  function Apply(w: World, c: Client, step: Step): World {
    match step
    case PushEntry(now, ts, source, level) =>
      var hub := Pushed(w.hub, now, ts, source, level);
      var gone := set e | e in w.hub.entries && e !in hub.entries && Ahead(w.since, e.number) :: e.number;
      w.(hub := hub, pushed := w.pushed + [Entry(w.hub.nextSeq, ts, source, level)], missed := w.missed + gone)
    case Poll =>
      var reply := Reply(w.hub, w.since, c.limit, c.q);
      var since := NextCursor(c, w.since, reply, LatestSeq(w.hub));
      var start := if w.since.Some? || since.None? then w.start
                   else if reply != [] then reply[0].number else since.value + 1;
      w.(since := since, start := start, delivered := w.delivered + reply)
  }

  function Run(w: World, c: Client, steps: seq<Step>): World
    decreases |steps|
  {
    if steps == [] then w else Run(Apply(w, c, steps[0]), c, steps[1..])
  }

  const FIRST := World(Hub([], 1), [], {}, None, 0, [])

  /** Exactly what the follower owes: the matching entries in its range that
      were not evicted first. */
  predicate Owed(w: World, c: Client, e: Entry) {
    && w.since.Some? && w.start <= e.number <= w.since.value
    && e in w.pushed && c.q.Matches(e) && e.number !in w.missed
  }

  ghost predicate Accounted(w: World) {
    && ValidHub(w.hub) && Ordered(w.pushed) && 0 < w.hub.nextSeq
    && (forall e :: e in w.pushed ==> 0 < e.number < w.hub.nextSeq)
    && (forall e :: e in w.hub.entries ==> e in w.pushed && e.number !in w.missed)
    && (forall n :: n in w.missed ==> n < w.hub.nextSeq)
    && (forall e :: e in w.pushed && Ahead(w.since, e.number) ==> e in w.hub.entries || e.number in w.missed)
    && (w.since.Some? ==> 0 < w.since.value < w.hub.nextSeq && w.start <= w.since.value + 1)
  }

  ghost predicate Exact(w: World, c: Client) {
    && Ordered(w.delivered)
    && (forall e :: e in w.delivered <==> Owed(w, c, e))
  }

  ghost predicate Inv(w: World, c: Client) {
    Accounted(w) && Exact(w, c)
  }

  /** Two entries of one ring with the same number are the same entry. */
  lemma SameNumber(es: seq<Entry>, a: Entry, b: Entry)
    requires Ordered(es) && a in es && b in es && a.number == b.number
    ensures a == b
  {
    var i :| 0 <= i < |es| && es[i] == a;
    var j :| 0 <= j < |es| && es[j] == b;
  }

  lemma PushKeepsInv(w: World, c: Client, now: int, ts: int, source: Source, level: Level)
    requires Inv(w, c) && w.hub.nextSeq + 1 < U64
    ensures Inv(Apply(w, c, PushEntry(now, ts, source, level)), c)
  {
    PushedValid(w.hub, now, ts, source, level);
    var w' := Apply(w, c, PushEntry(now, ts, source, level));
    var e0 := Entry(w.hub.nextSeq, ts, source, level);
    forall e | e in w'.hub.entries ensures e in w'.pushed && e.number !in w'.missed {
      if e != e0 && e in w.hub.entries {
        if e.number in w'.missed {
          var g :| g in w.hub.entries && g !in w'.hub.entries && g.number == e.number;
          SameNumber(w.hub.entries, e, g);
        }
      } else {
        assert e == e0;
      }
    }
    forall e | e in w'.pushed && Ahead(w'.since, e.number) ensures e in w'.hub.entries || e.number in w'.missed {
    }
    forall e ensures e in w'.delivered <==> Owed(w', c, e) {
      assert e in w.delivered <==> Owed(w, c, e);
    }
  }

  lemma LastIsGreatest(r: seq<Entry>)
    requires Ordered(r) && r != []
    ensures forall e :: e in r ==> r[0].number <= e.number <= r[|r| - 1].number
  {}

  lemma OrderedAppend(a: seq<Entry>, b: seq<Entry>)
    requires Ordered(a) && Ordered(b)
    requires forall d, e :: d in a && e in b ==> d.number < e.number
    ensures Ordered(a + b)
  {}

  /** A poll that already has a cursor reads every matching entry the cursor
      passes, and no other. */
  lemma PollReads(w: World, c: Client)
    requires Accounted(w) && (c.adopts ==> c.limit >= 1) && w.since.Some?
    ensures var r := Reply(w.hub, w.since, c.limit, c.q);
            var since := Apply(w, c, Poll).since;
            && Ordered(r)
            && since.Some? && w.since.value <= since.value < w.hub.nextSeq
            && (forall e :: e in r ==> e in w.hub.entries && c.q.Matches(e) && w.since.value < e.number <= since.value)
            && (forall e :: e in w.hub.entries && c.q.Matches(e) && w.since.value < e.number <= since.value ==> e in r)
  {
    var r := Reply(w.hub, w.since, c.limit, c.q);
    ReplyAfter(w.hub, w.since.value, c.limit, c.q);
    if r != [] {
      LastIsGreatest(r);
      assert r[|r| - 1] in w.hub.entries;
    }
  }

  lemma LaterPoll(w: World, c: Client)
    requires Inv(w, c) && (c.adopts ==> c.limit >= 1) && w.since.Some?
    ensures Inv(Apply(w, c, Poll), c)
  {
    var w' := Apply(w, c, Poll);
    var r := Reply(w.hub, w.since, c.limit, c.q);
    PollReads(w, c);
    assert Ordered(w'.delivered) by {
      forall d, e | d in w.delivered && e in r ensures d.number < e.number { assert Owed(w, c, d); }
      OrderedAppend(w.delivered, r);
    }
    forall e ensures e in w'.delivered <==> Owed(w', c, e) {
      assert e in w.delivered <==> Owed(w, c, e);
    }
  }

  predicate Between(c: Client, w: World, e: Entry)
    requires w.since.Some?
  {
    c.q.Matches(e) && w.start <= e.number <= w.since.value
  }

  /** The poll that sets the cursor, or leaves it unset on an empty hub. */
  lemma PollStarts(w: World, c: Client)
    requires Accounted(w) && (c.adopts ==> c.limit >= 1) && w.since.None?
    ensures var r := Reply(w.hub, None, c.limit, c.q);
            var w' := Apply(w, c, Poll);
            && Ordered(r) && w'.delivered == w.delivered + r
            && (w'.since.None? ==> r == [])
            && (w'.since.Some? ==>
                  && 0 < w'.since.value < w.hub.nextSeq && w'.start <= w'.since.value + 1
                  && (forall e :: e in r ==> e in w.hub.entries && Between(c, w', e))
                  && (forall e :: e in w.hub.entries && Between(c, w', e) ==> e in r))
  {
    var r := Reply(w.hub, None, c.limit, c.q);
    ReplyNewest(w.hub, c.limit, c.q);
    if r != [] {
      LastIsGreatest(r);
      assert r[|r| - 1] in w.hub.entries && r[0] in w.hub.entries;
    }
  }

  lemma HeadIn<T>(s: seq<T>)
    ensures s != [] ==> s[0] in s
  {}

  lemma NothingYet(w: World, c: Client)
    requires Exact(w, c) && w.since.None?
    ensures w.delivered == []
  {
    assert forall e :: e !in w.delivered;
    HeadIn(w.delivered);
  }

  lemma FirstPoll(w: World, c: Client)
    requires Inv(w, c) && (c.adopts ==> c.limit >= 1) && w.since.None?
    ensures Inv(Apply(w, c, Poll), c)
  {
    NothingYet(w, c);
    PollStarts(w, c);
    FirstPollExact(w, c);
  }

  lemma FirstPollExact(w: World, c: Client)
    requires Accounted(w) && (c.adopts ==> c.limit >= 1) && w.since.None? && w.delivered == []
    ensures Exact(Apply(w, c, Poll), c)
  {
    PollStarts(w, c);
    assert [] + Reply(w.hub, None, c.limit, c.q) == Reply(w.hub, None, c.limit, c.q);
    forall e ensures e in Apply(w, c, Poll).delivered <==> Owed(Apply(w, c, Poll), c, e) {
      FirstPollOwes(w, c, e);
    }
  }

  lemma FirstPollOwes(w: World, c: Client, e: Entry)
    requires Accounted(w) && (c.adopts ==> c.limit >= 1) && w.since.None? && w.delivered == []
    ensures e in Apply(w, c, Poll).delivered <==> Owed(Apply(w, c, Poll), c, e)
  {
    PollStarts(w, c);
    var r := Reply(w.hub, None, c.limit, c.q);
    assert e in Apply(w, c, Poll).delivered <==> e in r;
    assert e in w.pushed && e.number !in w.missed <==> e in w.hub.entries;
  }

  lemma StepKeepsInv(w: World, c: Client, step: Step)
    requires Inv(w, c) && (c.adopts ==> c.limit >= 1) && (step.PushEntry? ==> w.hub.nextSeq + 1 < U64)
    ensures Inv(Apply(w, c, step), c)
    ensures Apply(w, c, step).hub.nextSeq == w.hub.nextSeq + (if step.PushEntry? then 1 else 0)
  {
    match step
    case PushEntry(now, ts, source, level) =>
      PushKeepsInv(w, c, now, ts, source, level);
      PushedValid(w.hub, now, ts, source, level);
    case Poll => if w.since.Some? { LaterPoll(w, c); } else { FirstPoll(w, c); }
  }

  /** Follow is exactly-once and in order for a client that asks again only when
      it has its reply. In any interleaving of pushes (with capacity and age
      eviction) and such polls, short of a 64-bit wrap, what was delivered is
      strictly increasing in number and is exactly the matching entries of the
      follower's range that were not evicted unseen; in particular every one
      still in the ring. Holds for the filtered CLI cursor and for one that
      adopts the latest number on an empty reply. */
  lemma {:induction false} FollowIsExactlyOnce(w: World, c: Client, steps: seq<Step>)
    requires Inv(w, c) && (c.adopts ==> c.limit >= 1) && w.hub.nextSeq + |steps| < U64
    ensures var w' := Run(w, c, steps);
            && Ordered(w'.delivered)
            && (forall e :: e in w'.delivered <==> Owed(w', c, e))
            && (w'.since.Some? ==>
                  forall e | e in w'.hub.entries && c.q.Matches(e) && w'.start <= e.number <= w'.since.value ::
                    e in w'.delivered)
    ensures Inv(Run(w, c, steps), c)
    decreases |steps|
  {
    if steps != [] {
      StepKeepsInv(w, c, steps[0]);
      FollowIsExactlyOnce(Apply(w, c, steps[0]), c, steps[1..]);
    }
  }

  // ---- Quiet polls catch up -------------------------------------------------

  /** What is still to be delivered from the ring. */
  function Pending(w: World, c: Client): seq<Entry>
    requires w.since.Some?
  {
    Filter(w.hub.entries, After(w.since.value, c.q))
  }

  lemma {:induction false} FilterAfterSplit(es: seq<Entry>, n: nat, m: nat, q: Query)
    requires Ordered(es) && n <= m
    ensures Filter(Filter(es, After(n, q)), After(m, q)) == Filter(es, After(m, q))
  {
    if es != [] {
      FilterAfterSplit(es[1..], n, m, q);
      var rest := Filter(es[1..], After(n, q));
      var head := if After(n, q)(es[0]) then [es[0]] else [];
      assert Filter(es, After(n, q)) == head + rest;
      if head != [] { assert (head + rest)[1..] == rest; } else { assert head + rest == rest; }
    }
  }

  lemma {:induction false} FilterAll(es: seq<Entry>, p: Entry -> bool)
    requires forall e :: e in es ==> p(e)
    ensures Filter(es, p) == es
  {
    if es != [] { FilterAll(es[1..], p); }
  }

  lemma {:induction false} FilterDrop(all: seq<Entry>, k: nat, q: Query)
    requires Ordered(all) && 0 < k <= |all| && forall e :: e in all ==> q.Matches(e)
    ensures Filter(all, After(all[k - 1].number, q)) == all[k..]
    decreases k
  {
    var p := After(all[k - 1].number, q);
    if k == 1 {
      FilterAll(all[1..], p) by {
        forall e | e in all[1..] ensures p(e) { assert all[0].number < e.number; }
      }
    } else {
      FilterDrop(all[1..], k - 1, q);
      assert all[1..][k - 2] == all[k - 1];
      assert all[1..][k - 1..] == all[k..];
    }
  }

  lemma QuietPollMoves(w: World, c: Client)
    requires Accounted(w) && w.since.Some? && c.limit >= 1 && Pending(w, c) != []
    ensures var p := Pending(w, c);
            var n := Min(c.limit, |p|);
            Apply(w, c, Poll).since == Some(p[n - 1].number) && w.since.value <= p[n - 1].number
  {
    var p := Pending(w, c);
    var n := Min(c.limit, |p|);
    FilterIs(w.hub.entries, After(w.since.value, c.q));
    assert p[n - 1] in p;
    assert p[..n][n - 1] == p[n - 1];
  }

  lemma QuietPollLeaves(w: World, c: Client)
    requires Accounted(w) && w.since.Some? && c.limit >= 1 && Pending(w, c) != []
    ensures var p := Pending(w, c);
            var w' := Apply(w, c, Poll);
            w'.since.Some? && Pending(w', c) == p[Min(c.limit, |p|)..]
  {
    var p := Pending(w, c);
    var n := Min(c.limit, |p|);
    FilterIs(w.hub.entries, After(w.since.value, c.q));
    QuietPollMoves(w, c);
    FilterDrop(p, n, c.q);
    FilterAfterSplit(w.hub.entries, w.since.value, p[n - 1].number, c.q);
  }

  lemma {:induction false} FilterNone(es: seq<Entry>, p: Entry -> bool)
    requires forall e :: e in es ==> !p(e)
    ensures Filter(es, p) == []
  {
    if es != [] { FilterNone(es[1..], p); }
  }

  lemma QuietPollIdles(w: World, c: Client)
    requires Accounted(w) && w.since.Some? && c.limit >= 1 && Pending(w, c) == []
    ensures Apply(w, c, Poll).since.Some? && Pending(Apply(w, c, Poll), c) == []
  {
    PollReads(w, c);
    FilterIs(w.hub.entries, After(w.since.value, c.q));
    var since := Apply(w, c, Poll).since.value;
    forall e | e in w.hub.entries ensures !After(since, c.q)(e) {
      assert !After(w.since.value, c.q)(e);
    }
    FilterNone(w.hub.entries, After(since, c.q));
  }

  /** A poll with nothing pushed in between delivers exactly the next `limit`
      pending entries, so polling until the reply is empty delivers them all. */
  lemma QuietPollAdvances(w: World, c: Client)
    requires Inv(w, c) && c.limit >= 1 && w.since.Some?
    ensures var p := Pending(w, c);
            var n := Min(c.limit, |p|);
            var w' := Apply(w, c, Poll);
            && w'.since.Some?
            && w'.delivered == w.delivered + p[..n]
            && Pending(w', c) == p[n..]
  {
    if Pending(w, c) != [] {
      QuietPollMoves(w, c);
      QuietPollLeaves(w, c);
    } else {
      QuietPollIdles(w, c);
    }
  }

  function Polls(w: World, c: Client, n: nat): World
    decreases n
  {
    if n == 0 then w else Polls(Apply(w, c, Poll), c, n - 1)
  }

  lemma OneLess(n: nat, limit: nat, size: nat)
    requires n > 0 && n * limit >= size
    ensures (n - 1) * limit >= size - Min(limit, size)
  {
    assert n * limit == (n - 1) * limit + limit;
  }

  /** Enough quiet polls deliver everything that was waiting, in order. */
  lemma {:induction false} QuietPollsCatchUp(w: World, c: Client, n: nat)
    requires Inv(w, c) && c.limit >= 1 && w.since.Some?
    requires n * c.limit >= |Pending(w, c)|
    ensures Polls(w, c, n).delivered == w.delivered + Pending(w, c)
    decreases n
  {
    var p := Pending(w, c);
    if n == 0 {
      assert w.delivered + [] == w.delivered;
    } else {
      var k := Min(c.limit, |p|);
      OneLess(n, c.limit, |p|);
      QuietPollAdvances(w, c);
      LaterPoll(w, c);
      QuietPollsCatchUp(Apply(w, c, Poll), c, n - 1);
      SplitAppend(w.delivered, p, k);
    }
  }

  lemma SplitAppend<T>(a: seq<T>, p: seq<T>, k: nat)
    requires k <= |p|
    ensures a + p[..k] + p[k..] == a + p
  {
    assert p[..k] + p[k..] == p;
    assert a + p[..k] + p[k..] == a + (p[..k] + p[k..]);
  }

  // ---- A restarted daemon ---------------------------------------------------

  /** A client that still holds cursor `n` from an earlier daemon life, before
      its first poll of this one; every entry pushed so far is in the ring. */
  ghost predicate Restarted(w: World, n: nat) {
    && n > 0 && ValidHub(w.hub) && 0 < w.hub.nextSeq
    && (forall e :: e in w.hub.entries ==> 0 < e.number)
    && w.pushed == w.hub.entries && w.missed == {} && w.delivered == []
    && w.since == Some(n) && w.start == n + 1
  }

  /** The client as it is after that first poll: from here on it answers for the
      entries above `n`, or, when the new daemon has not come that far, for
      those pushed later. */
  function AfterRestart(w: World, c: Client, n: nat): World {
    var w' := Apply(w, c, Poll);
    if n < w.hub.nextSeq then w' else w'.(start := w.hub.nextSeq)
  }

  lemma RestartInv(w: World, c: Client, n: nat)
    requires Restarted(w, n) && c.limit >= 1 && c.adopts && w.hub.nextSeq > 1
    ensures Inv(AfterRestart(w, c, n), c) && AfterRestart(w, c, n).since.Some?
  {
    if n < w.hub.nextSeq {
      PollReads(w, c);
      LaterPoll(w, c);
    } else {
      ReplyAfter(w.hub, n, c.limit, c.q);
      HeadIn(Reply(w.hub, w.since, c.limit, c.q));
    }
  }

  /** What a client that adopts the latest number sees of a restarted daemon.
      Of the entries already in the ring at its first poll, exactly those
      numbered above the old cursor are delivered or still ahead; the others
      never arrive in any continuation of the run. */
  lemma RestartSeesExactly(w: World, c: Client, n: nat, e: Entry, steps: seq<Step>)
    requires Restarted(w, n) && c.limit >= 1 && c.adopts && w.hub.nextSeq + |steps| < U64
    requires e in w.hub.entries && c.q.Matches(e)
    ensures var w' := AfterRestart(w, c, n);
            e in w'.delivered || Ahead(w'.since, e.number) <==> e.number > n
    ensures e.number <= n ==> e !in Run(AfterRestart(w, c, n), c, steps).delivered
  {
    RestartInv(w, c, n);
    var w' := AfterRestart(w, c, n);
    assert e in w'.delivered <==> Owed(w', c, e);
    if n < w.hub.nextSeq { PollReads(w, c); }
    RunKeepsStart(w', c, steps);
    FollowIsExactlyOnce(w', c, steps);
  }

  /** The GUI's cursor at 900, and a new daemon that has logged one line: the
      line never comes, although the cursor is said to follow a restart. */
  lemma RestartLosesALine(steps: seq<Step>)
    requires |steps| < 1000
    ensures var e := Entry(1, 0, Program, Info);
            var w := World(Hub([e], 2), [e], {}, Some(900), 901, []);
            e !in Run(AfterRestart(w, GUI_CLIENT, 900), GUI_CLIENT, steps).delivered
  {
    var e := Entry(1, 0, Program, Info);
    var w := World(Hub([e], 2), [e], {}, Some(900), 901, []);
    RestartSeesExactly(w, GUI_CLIENT, 900, e, steps);
  }

  lemma {:induction false} RunKeepsStart(w: World, c: Client, steps: seq<Step>)
    requires Inv(w, c) && w.since.Some? && (c.adopts ==> c.limit >= 1) && w.hub.nextSeq + |steps| < U64
    ensures Run(w, c, steps).start == w.start
    decreases |steps|
  {
    if steps != [] {
      StepKeepsInv(w, c, steps[0]);
      if steps[0].Poll? { PollReads(w, c); }
      RunKeepsStart(Apply(w, c, steps[0]), c, steps[1..]);
    }
  }
}
