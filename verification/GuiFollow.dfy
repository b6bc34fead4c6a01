/** The GUI's log page (desktop/gui/src/main.rs and ipc.rs): requests on connections of
    their own, any number of them in flight, whose replies come in any order or not at
    all, merged into one list beside the GUI's own lines. */
module GuiFollow {
  import opened Options
  import opened Logs
  import opened LogFollow

  // ---- The GUI's list -------------------------------------------------------

  const KEPT := 5000

  predicate Known(logs: seq<Entry>, e: Entry) {
    exists l :: l in logs && l.source == e.source && l.number == e.number
  }

  function AddNew(logs: seq<Entry>, reply: seq<Entry>): seq<Entry>
    decreases |reply|
  {
    if reply == [] then logs
    else AddNew(if Known(logs, reply[0]) then logs else logs + [reply[0]], reply[1..])
  }

  function LastOf(logs: seq<Entry>, n: nat): seq<Entry> { logs[|logs| - Min(n, |logs|)..] }

  function Pruned(logs: seq<Entry>, now: int): seq<Entry> {
    LastOf(Filter(logs, Recent(now - DAY_S)), KEPT)
  }

  lemma {:induction false} AddNewSplit(logs: seq<Entry>, reply: seq<Entry>, k: nat)
    requires k < |reply|
    ensures var l := AddNew(logs, reply[..k]);
            AddNew(logs, reply[..k + 1]) == (if Known(l, reply[k]) then l else l + [reply[k]])
    decreases k
  {
    if k > 0 {
      AddNewSplit(if Known(logs, reply[0]) then logs else logs + [reply[0]], reply[1..], k - 1);
      assert reply[..k][1..] == reply[1..][..k - 1];
      assert reply[..k + 1][1..] == reply[1..][..k];
    } else {
      assert reply[..1][1..] == [];
    }
  }

  /** A reply wholly above everything listed is listed in full. */
  lemma {:induction false} DuplicateCheckDropsNothing(logs: seq<Entry>, reply: seq<Entry>, cursor: nat)
    requires Ordered(reply) && forall e :: e in reply ==> e.number > cursor && e.source != Program
    requires forall l :: l in logs && l.source != Program ==> l.number <= cursor
    ensures AddNew(logs, reply) == logs + reply
    decreases |reply|
  {
    if reply != [] {
      var e := reply[0];
      assert !Known(logs, e);
      DuplicateCheckDropsNothing(logs + [e], reply[1..], e.number);
      assert logs + [e] + reply[1..] == logs + reply;
    } else {
      assert logs + [] == logs;
    }
  }

  /** Otherwise it drops: an in-order reply is listed in full exactly when
      none of its entries shares source and number with one listed before. */
  lemma {:induction false} ListedInFullExactly(logs: seq<Entry>, reply: seq<Entry>)
    requires Ordered(reply)
    ensures |AddNew(logs, reply)| <= |logs| + |reply|
    ensures AddNew(logs, reply) == logs + reply <==> forall e :: e in reply ==> !Known(logs, e)
    decreases |reply|
  {
    if reply == [] {
      assert logs + [] == logs;
    } else {
      var e := reply[0];
      assert e in reply;
      if Known(logs, e) {
        ListedInFullExactly(logs, reply[1..]);
      } else {
        ListedInFullExactly(logs + [e], reply[1..]);
        assert logs + [e] + reply[1..] == logs + reply;
        forall d | d in reply[1..] ensures Known(logs + [e], d) <==> Known(logs, d) {
          assert e.number < d.number;
          if Known(logs, d) {
            var l :| l in logs && l.source == d.source && l.number == d.number;
            assert l in logs + [e];
          }
        }
        assert forall d :: d in reply <==> d == e || d in reply[1..];
      }
    }
  }

  predicate Same(a: Entry, b: Entry) { a.source == b.source && a.number == b.number }

  /** Nothing is listed twice. */
  ghost predicate Distinct(logs: seq<Entry>) {
    forall i, j :: 0 <= i < j < |logs| ==> !Same(logs[i], logs[j])
  }

  /** `a` may stand before `b`: the daemon's lines go by number. */
  predicate Before(a: Entry, b: Entry) { a.source == Program || b.source == Program || a.number < b.number }

  /** The daemon's lines, whatever of the GUI's own stands between, are by number. */
  ghost predicate InOrder(logs: seq<Entry>) {
    forall i, j :: 0 <= i < j < |logs| ==> Before(logs[i], logs[j])
  }

  lemma ConsDistinct(a: Entry, rest: seq<Entry>)
    ensures Distinct([a] + rest) <==> Distinct(rest) && forall e :: e in rest ==> !Same(a, e)
  {
    var all := [a] + rest;
    if Distinct(all) {
      forall i, j | 0 <= i < j < |rest| ensures !Same(rest[i], rest[j]) { assert !Same(all[i + 1], all[j + 1]); }
      forall e | e in rest ensures !Same(a, e) {
        var j :| 0 <= j < |rest| && rest[j] == e;
        assert !Same(all[0], all[j + 1]);
      }
    }
  }

  lemma ConsInOrder(a: Entry, rest: seq<Entry>)
    ensures InOrder([a] + rest) <==> InOrder(rest) && forall e :: e in rest ==> Before(a, e)
  {
    var all := [a] + rest;
    if InOrder(all) {
      forall i, j | 0 <= i < j < |rest| ensures Before(rest[i], rest[j]) { assert Before(all[i + 1], all[j + 1]); }
      forall e | e in rest ensures Before(a, e) {
        var j :| 0 <= j < |rest| && rest[j] == e;
        assert Before(all[0], all[j + 1]);
      }
    }
  }

  lemma SnocIs(logs: seq<Entry>, e: Entry)
    ensures Distinct(logs + [e]) <==> Distinct(logs) && !Known(logs, e)
    ensures InOrder(logs + [e]) <==> InOrder(logs) && forall l :: l in logs ==> Before(l, e)
  {
    var all := logs + [e];
    if Distinct(all) && Known(logs, e) {
      var l :| l in logs && l.source == e.source && l.number == e.number;
      var i :| 0 <= i < |logs| && logs[i] == l;
      assert Same(all[i], all[|logs|]);
    }
    if InOrder(all) {
      forall l | l in logs ensures Before(l, e) {
        var i :| 0 <= i < |logs| && logs[i] == l;
        assert Before(all[i], all[|logs|]);
      }
      forall i, j | 0 <= i < j < |logs| ensures Before(logs[i], logs[j]) { assert Before(all[i], all[j]); }
    }
    if Distinct(all) {
      forall i, j | 0 <= i < j < |logs| ensures !Same(logs[i], logs[j]) { assert !Same(all[i], all[j]); }
    }
  }

  /** What is known of a list is known of a longer one. */
  lemma KnownIn(logs: seq<Entry>, more: seq<Entry>, e: Entry)
    requires logs <= more
    ensures Known(logs, e) ==> Known(more, e)
  {
    if Known(logs, e) {
      var l :| l in logs && l.source == e.source && l.number == e.number;
      assert l in more;
    }
  }

  lemma Listed(logs: seq<Entry>, e: Entry)
    ensures Known(logs + [e], e)
  {
    assert (logs + [e])[|logs|] == e;
  }

  lemma {:induction false} AddNewIs(logs: seq<Entry>, reply: seq<Entry>)
    ensures logs <= AddNew(logs, reply)
    ensures forall e :: e in AddNew(logs, reply) ==> e in logs || (e in reply && !Known(logs, e))
    ensures forall e :: e in reply ==> Known(AddNew(logs, reply), e)
    ensures Distinct(logs) ==> Distinct(AddNew(logs, reply))
    decreases |reply|
  {
    hide Distinct, Known;
    if reply != [] {
      var e := reply[0];
      var more := if Known(logs, e) then logs else logs + [e];
      SnocIs(logs, e);
      AddNewIs(more, reply[1..]);
      var all := AddNew(logs, reply);
      Listed(logs, e);
      KnownIn(more, all, e);
      forall d | d in all ensures d in logs || (d in reply && !Known(logs, d)) { KnownIn(logs, more, d); }
      forall d | d in reply ensures Known(all, d) { assert d == e || d in reply[1..]; }
    }
  }

  /** Lists that only lost lines keep what they had of both. */
  lemma {:induction false} FilterSub(logs: seq<Entry>, p: Entry -> bool)
    ensures forall e :: e in Filter(logs, p) ==> e in logs
    ensures Distinct(logs) ==> Distinct(Filter(logs, p))
    ensures InOrder(logs) ==> InOrder(Filter(logs, p))
  {
    hide Distinct, InOrder;
    if logs != [] {
      FilterSub(logs[1..], p);
      assert logs == [logs[0]] + logs[1..];
      ConsDistinct(logs[0], logs[1..]);
      ConsInOrder(logs[0], logs[1..]);
      ConsDistinct(logs[0], Filter(logs[1..], p));
      ConsInOrder(logs[0], Filter(logs[1..], p));
      assert [] + Filter(logs[1..], p) == Filter(logs[1..], p);
    }
  }

  lemma PrunedSub(logs: seq<Entry>, now: int)
    ensures forall e :: e in Pruned(logs, now) ==> e in logs
    ensures Distinct(logs) ==> Distinct(Pruned(logs, now))
    ensures InOrder(logs) ==> InOrder(Pruned(logs, now))
  {
    FilterSub(logs, Recent(now - DAY_S));
  }

  /** What pruning leaves: lines of the last day only, no more than 5000, and of those the
      newest in the list. */
  lemma PrunedExactly(logs: seq<Entry>, now: int)
    ensures var kept, recent := Pruned(logs, now), Filter(logs, Recent(now - 86400));
            && |kept| <= 5000 && (forall e :: e in kept ==> e in logs && e.ts >= now - 86400)
            && (forall e :: e in logs && e.ts >= now - 86400 ==> e in recent)
            && (|recent| <= 5000 ==> kept == recent)
            && (|recent| > 5000 ==> |kept| == 5000 && kept == recent[|recent| - 5000..])
  {
    forall e | e in logs || e in Filter(logs, Recent(now - DAY_S))
      ensures e in Filter(logs, Recent(now - DAY_S)) <==> e in logs && e.ts >= now - 86400
    {
      FilterKeeps(logs, Recent(now - DAY_S), e);
    }
  }

  class GuiLogs {
    var logs: seq<Entry>
    var latestLogSeq: nat

    constructor ()
      ensures logs == [] && latestLogSeq == 0
    {
      logs, latestLogSeq := [], 0;
    }

    /** One reply of the log page's poll. */
    method Received(reply: seq<Entry>, latest: nat, now: int)
      modifies this
      ensures latestLogSeq == NextLogCursor(old(latestLogSeq), reply, latest)
      ensures logs == Pruned(AddNew(old(logs), reply), now)
    {
      latestLogSeq := NextLogCursor(latestLogSeq, reply, latest);
      ghost var before := logs;
      for i := 0 to |reply|
        invariant logs == AddNew(before, reply[..i])
        invariant latestLogSeq == NextLogCursor(old(latestLogSeq), reply, latest)
      {
        AddNewSplit(before, reply, i);
        if !(exists l :: l in logs && l.source == reply[i].source && l.number == reply[i].number) {
          logs := logs + [reply[i]];
        }
      }
      assert reply[..|reply|] == reply;
      Prune(now);
    }

    method Prune(now: int)
      modifies this`logs
      ensures logs == Pruned(old(logs), now)
    {
      var kept := Retain(logs, now - DAY_S);
      if |kept| > KEPT {
        var excess := |kept| - KEPT;
        kept := kept[excess..];
      }
      logs := kept;
    }
  }

  // ---- The requests in flight -------------------------------------------------------------

  /** A request as it was asked, and as the daemon has answered it, as its `at`-th answer.
      `base` is the first number the cursor it was asked from answers for. */
  datatype Request =
    | Asked(since: Option<nat>, base: nat)
    | Answered(since: Option<nat>, base: nat, reply: seq<Entry>, latest: nat, at: nat)

  /** Where an answer moves the cursor, if anywhere. */
  function EndOf(f: Request): Option<nat>
    requires f.Answered?
  {
    if f.reply != [] then Some(f.reply[|f.reply| - 1].number) else if f.latest > 0 then Some(f.latest) else None
  }

  /** The first number the moved cursor answers for: an answer to a request without a
      cursor starts anew. */
  function BaseOf(f: Request): nat
    requires f.Answered?
  {
    if f.since.Some? then f.base else if f.reply != [] then f.reply[0].number else f.latest + 1
  }

  /** The daemon's hub, every entry it ever took and the answers it has given; the requests
      in flight; the page's cursor and list; how many lines of its own the GUI has written.
      Kept for the statements: the numbers that left the ring before the list or an answer
      on its way held them (`missed`), those pruned from the list, and which answer each
      listed line came with. */
  datatype Page = Page(
    hub: Hub, pushed: seq<Entry>, answers: nat, flight: map<nat, Request>,
    cursor: nat, base: nat, logs: seq<Entry>, own: nat,
    missed: set<nat>, pruned: set<nat>, came: map<nat, nat>)

  const FRESH := Page(Hub([], 1), [], 0, map[], 0, 0, [], 0, {}, {}, map[])

  datatype Step =
    | PushEntry(now: int, ts: int, source: Source, level: Level)
    | Ask(id: nat)
    | Answer(id: nat)
    | Arrive(id: nat, now: int)
    | Lose(id: nat)
    | OwnLine(now: int, ts: int, level: Level)

  /** The daemon writes no line as the GUI does. */
  predicate Enabled(g: Page, s: Step) {
    match s
    case PushEntry(_, _, source, _) => source != Program
    case Ask(id) => id !in g.flight
    case Answer(id) => id in g.flight && g.flight[id].Asked?
    case Arrive(id, _) => id in g.flight && g.flight[id].Answered?
    case Lose(id) => id in g.flight
    case OwnLine(_, _, _) => true
  }

  ghost predicate Underway(flight: map<nat, Request>, e: Entry) {
    exists id :: id in flight && flight[id].Answered? && e in flight[id].reply
  }

  /** The page lists the line, or did until it was pruned. */
  predicate Had(g: Page, e: Entry) { e in g.logs || e.number in g.pruned }

  /** Or has it on its way. */
  ghost predicate Held(g: Page, e: Entry) { Had(g, e) || Underway(g.flight, e) }

  function Dropped(before: seq<Entry>, after: seq<Entry>): set<nat> {
    set e | e in before && e.source != Program && e !in after :: e.number
  }

  /** The list with `added`, pruned. */
  function Listing(g: Page, added: seq<Entry>, now: int): Page {
    var logs := Pruned(added, now);
    g.(logs := logs, pruned := g.pruned + Dropped(added, logs))
  }

  ghost function Next(g: Page, s: Step): Page
    requires Enabled(g, s)
  {
    match s
    case PushEntry(now, ts, source, level) =>
      var hub := Pushed(g.hub, now, ts, source, level);
      var gone := set e | e in g.hub.entries && e !in hub.entries && !Held(g, e) :: e.number;
      g.(hub := hub, pushed := g.pushed + [Entry(g.hub.nextSeq, ts, source, level)], missed := g.missed + gone)
    case Ask(id) => g.(flight := g.flight[id := Asked(Cursor(g.cursor), g.base)])
    case Answer(id) =>
      var f := g.flight[id];
      var reply := Reply(g.hub, f.since, GUI_CLIENT.limit, GUI_CLIENT.q);
      g.(flight := g.flight[id := Answered(f.since, f.base, reply, LatestSeq(g.hub), g.answers)],
         answers := g.answers + 1)
    case Arrive(id, now) =>
      var f := g.flight[id];
      var unseen := set e | e in f.reply && !Known(g.logs, e) :: e.number;
      Listing(g, AddNew(g.logs, f.reply), now).(
        flight := g.flight - {id}, cursor := NextLogCursor(g.cursor, f.reply, f.latest),
        base := if EndOf(f).Some? then BaseOf(f) else g.base,
        came := g.came + map n | n in unseen :: f.at)
    case Lose(id) =>
      var f := g.flight[id];
      var h := g.(flight := g.flight - {id});
      var lost := if f.Asked? then {} else set e | e in f.reply && e !in g.hub.entries && !Held(h, e) :: e.number;
      h.(missed := g.missed + lost)
    case OwnLine(now, ts, level) =>
      Listing(g, g.logs + [Entry(g.own + 1, ts, Program, level)], now).(own := g.own + 1)
  }

  // ---- The invariant ------------------------------------------------------------------------

  /** No line of the ring from `from` to `to` is one the page has not had. */
  ghost predicate Covered(g: Page, from: nat, to: nat) {
    forall e :: e in g.hub.entries && from <= e.number <= to ==> Had(g, e)
  }

  ghost predicate FlightOk(g: Page, f: Request) {
    && (f.since.Some? ==>
          && 0 < f.since.value < g.hub.nextSeq && f.base <= f.since.value + 1
          && Covered(g, f.base, f.since.value))
    && (f.Answered? ==> AnswerOk(g, f))
  }

  /** What an answer brings, and that it skips no line of the ring on the way to where it
      moves the cursor but one the page has had. */
  ghost predicate AnswerOk(g: Page, f: Request)
    requires f.Answered?
  {
    && Ordered(f.reply) && f.at < g.answers && f.latest < g.hub.nextSeq
    && (forall e :: e in f.reply ==> e in g.pushed && (f.since.Some? ==> e.number > f.since.value))
    && (EndOf(f).Some? ==>
          && BaseOf(f) <= EndOf(f).value + 1
          && forall e :: e in g.hub.entries && BaseOf(f) <= e.number <= EndOf(f).value ==>
               e in f.reply || Had(g, e))
  }

  ghost predicate HubOk(hub: Hub, pushed: seq<Entry>) {
    && ValidHub(hub) && Ordered(pushed) && 0 < hub.nextSeq
    && (forall e :: e in pushed ==> 0 < e.number < hub.nextSeq && e.source != Program)
    && (forall e :: e in hub.entries ==> e in pushed)
  }

  ghost predicate ListOk(g: Page) {
    && Distinct(g.logs)
    && (forall l :: l in g.logs ==> if l.source == Program then l.number <= g.own else l in g.pushed)
    && (forall n :: n in g.pruned || n in g.missed ==> n < g.hub.nextSeq)
  }

  /** Every entry is in the ring, held, or missed, and a missed one is neither. */
  ghost predicate AllThere(g: Page) {
    forall e :: e in g.pushed ==> (e.number in g.missed <==> e !in g.hub.entries && !Held(g, e))
  }

  ghost predicate Inv(g: Page) {
    && HubOk(g.hub, g.pushed) && ListOk(g) && AllThere(g)
    && (forall id :: id in g.flight ==> FlightOk(g, g.flight[id]))
    && (g.cursor > 0 ==> g.cursor < g.hub.nextSeq && g.base <= g.cursor + 1 && Covered(g, g.base, g.cursor))
  }

  // ---- Every step keeps it ----------------------------------------------------------------------

  lemma PushedNew(g: Page, s: Step)
    requires HubOk(g.hub, g.pushed) && s.PushEntry? && Enabled(g, s) && g.hub.nextSeq + 1 < U64
    ensures var h := Next(g, s);
            var e0 := Entry(g.hub.nextSeq, s.ts, s.source, s.level);
            && HubOk(h.hub, h.pushed) && h.hub.nextSeq == g.hub.nextSeq + 1
            && h.pushed == g.pushed + [e0] && e0 in h.hub.entries
            && forall e :: e in h.hub.entries ==> e == e0 || e in g.hub.entries
  {
    hide Pushed, Held;
    PushedValid(g.hub, s.now, s.ts, s.source, s.level);
    var h := Next(g, s);
    var e0 := Entry(g.hub.nextSeq, s.ts, s.source, s.level);
    assert e0 in h.hub.entries;
    forall e | e in h.hub.entries ensures e == e0 || e in g.hub.entries {
      if e.number == e0.number { SameNumber(h.hub.entries, e, e0); }
    }
  }

  lemma PushMisses(g: Page, s: Step, e: Entry)
    requires Inv(g) && s.PushEntry? && Enabled(g, s) && g.hub.nextSeq + 1 < U64 && e in Next(g, s).pushed
    ensures var h := Next(g, s); e.number in h.missed <==> e !in h.hub.entries && !Held(h, e)
  {
    hide Pushed, HubOk, Distinct, FlightOk;
    PushedNew(g, s);
    var h := Next(g, s);
    Numbers(g);
    assert Held(h, e) == Held(g, e);
    if e in g.pushed {
      if e.number in h.missed && e.number !in g.missed {
        var x :| x in g.hub.entries && x !in h.hub.entries && !Held(g, x) && x.number == e.number;
        SameNumber(g.pushed, x, e);
      }
    } else {
      assert e == Entry(g.hub.nextSeq, s.ts, s.source, s.level);
    }
  }

  lemma PushKeeps(g: Page, s: Step)
    requires Inv(g) && s.PushEntry? && Enabled(g, s) && g.hub.nextSeq + 1 < U64
    ensures Inv(Next(g, s))
  {
    hide Pushed, HubOk, Distinct, Held;
    PushedNew(g, s);
    var h := Next(g, s);
    Numbers(g);
    forall e | e in h.pushed ensures e.number in h.missed <==> e !in h.hub.entries && !Held(h, e) {
      PushMisses(g, s, e);
    }
    forall id | id in h.flight ensures FlightOk(h, h.flight[id]) { assert FlightOk(g, g.flight[id]); }
  }

  /** What the ring is made of, without looking further into it. */
  lemma Numbers(g: Page)
    requires HubOk(g.hub, g.pushed)
    ensures Ordered(g.pushed) && 0 < g.hub.nextSeq
    ensures forall e :: e in g.pushed ==> 0 < e.number < g.hub.nextSeq && e.source != Program
    ensures forall e :: e in g.hub.entries ==> e in g.pushed
  {}

  lemma AskKeeps(g: Page, id: nat)
    requires Inv(g) && id !in g.flight
    ensures Inv(Next(g, Ask(id)))
  {
    hide HubOk, Distinct, AnswerOk;
    var h := Next(g, Ask(id));
    Numbers(g);
    forall e | e in g.pushed ensures Held(h, e) == Held(g, e) {
      forall k | k in g.flight && g.flight[k].Answered? ensures h.flight[k] == g.flight[k] {}
    }
    forall k | k in h.flight ensures FlightOk(h, h.flight[k]) {
      if k != id { assert FlightOk(g, g.flight[k]); AnswerStays(g, h, g.flight[k]); }
    }
  }

  /** An answer is as good as it was while the ring gets no older lines and the page
      forgets nothing. */
  lemma AnswerStays(g: Page, h: Page, f: Request)
    requires FlightOk(g, f) && h.hub == g.hub && h.pushed == g.pushed && h.answers >= g.answers
    requires forall e :: e in g.pushed && Had(g, e) ==> Had(h, e)
    requires forall e :: e in g.hub.entries ==> e in g.pushed
    ensures FlightOk(h, f)
  {
    hide Had;
  }

  /** A new answer skips no line of the ring but those the page has had. */
  lemma AnswerIsOk(g: Page, id: nat)
    requires Inv(g) && Enabled(g, Answer(id))
    ensures var h := Next(g, Answer(id));
            AnswerOk(h, h.flight[id]) && forall e :: e in h.flight[id].reply ==> e in g.hub.entries
  {
    hide Reply, Distinct, AllThere;
    var f := g.flight[id];
    var h := Next(g, Answer(id));
    var a := h.flight[id];
    assert FlightOk(g, f);
    if f.since.Some? {
      ReplyAfter(g.hub, f.since.value, GUI_CLIENT.limit, GUI_CLIENT.q);
    } else {
      ReplyNewest(g.hub, GUI_CLIENT.limit, GUI_CLIENT.q);
    }
    if a.reply != [] { LastIsGreatest(a.reply); assert a.reply[|a.reply| - 1] in a.reply; }
  }

  lemma AnswerKeeps(g: Page, id: nat)
    requires Inv(g) && Enabled(g, Answer(id))
    ensures Inv(Next(g, Answer(id)))
  {
    hide HubOk, Distinct, AnswerOk, Reply;
    var h := Next(g, Answer(id));
    AnswerIsOk(g, id);
    Numbers(g);
    forall e | e in g.pushed ensures e.number in h.missed <==> e !in h.hub.entries && !Held(h, e) {
      if Held(g, e) && !Had(g, e) {
        var k :| k in g.flight && g.flight[k].Answered? && e in g.flight[k].reply;
        assert h.flight[k] == g.flight[k];
      }
      if Held(h, e) && !Held(g, e) {
        var k :| k in h.flight && h.flight[k].Answered? && e in h.flight[k].reply;
        assert k == id;
      }
    }
    forall k | k in h.flight ensures FlightOk(h, h.flight[k]) {
      assert FlightOk(g, g.flight[k]);
      if k != id { AnswerStays(g, h, g.flight[k]); }
    }
  }

  /** What a merged and pruned list has: all it had, and all of the reply. */
  lemma ListingHas(g: Page, added: seq<Entry>, now: int)
    requires g.logs <= added
    ensures var h := Listing(g, added, now);
            && h == g.(logs := h.logs, pruned := h.pruned)
            && (forall e: Entry :: e.source != Program && (Had(g, e) || e in added) ==> Had(h, e))
            && (forall l :: l in h.logs ==> l in added)
            && (Distinct(added) ==> Distinct(h.logs)) && (InOrder(added) ==> InOrder(h.logs))
            && (forall n :: n in h.pruned ==>
                  n in g.pruned || exists x :: x in added && x.source != Program && x.number == n)
  {
    hide Distinct, InOrder, Pruned;
    PrunedSub(added, now);
    forall e | e in g.logs ensures e in added {}
  }

  /** Every line of a reply is in the merged list itself. */
  lemma MergedHas(g: Page, f: Request)
    requires HubOk(g.hub, g.pushed) && ListOk(g) && f.Answered? && AnswerOk(g, f)
    ensures var added := AddNew(g.logs, f.reply);
            && g.logs <= added && Distinct(added)
            && (forall l :: l in added ==> l in g.logs || l in f.reply)
            && (forall e :: e in f.reply ==> e in added)
            && (forall l :: l in added ==> if l.source == Program then l.number <= g.own else l in g.pushed)
  {
    hide Distinct;
    AddNewIs(g.logs, f.reply);
    var added := AddNew(g.logs, f.reply);
    forall e | e in f.reply ensures e in added {
      var l :| l in added && l.source == e.source && l.number == e.number;
      SameNumber(g.pushed, l, e);
    }
  }

  lemma UnderwayWithout(flight: map<nat, Request>, id: nat, e: Entry)
    requires id in flight && flight[id].Answered?
    ensures Underway(flight, e) <==> Underway(flight - {id}, e) || e in flight[id].reply
  {
    if Underway(flight, e) {
      var k :| k in flight && flight[k].Answered? && e in flight[k].reply;
      if k != id { StillThere(flight, id, k); }
    }
    if Underway(flight - {id}, e) {
      var k :| k in flight - {id} && (flight - {id})[k].Answered? && e in (flight - {id})[k].reply;
      assert flight[k] == (flight - {id})[k];
    }
  }

  /** What the list has of the daemon's lines once a reply is merged. */
  lemma ArriveHad(g: Page, s: Step, e: Entry)
    requires Inv(g) && s.Arrive? && Enabled(g, s) && e in g.pushed
    ensures Had(Next(g, s), e) <==> Had(g, e) || e in g.flight[s.id].reply
  {
    hide Distinct, InOrder, Listing, AllThere, Known;
    var f := g.flight[s.id];
    assert FlightOk(g, f);
    var added := AddNew(g.logs, f.reply);
    MergedHas(g, f);
    ListingHas(g, added, s.now);
    Numbers(g);
    forall x | x in added && x.source != Program && x.number == e.number ensures x == e {
      SameNumber(g.pushed, x, e);
    }
  }

  lemma ArriveHeld(g: Page, s: Step, e: Entry)
    requires Inv(g) && s.Arrive? && Enabled(g, s) && e in g.pushed
    ensures var h := Next(g, s);
            && (Held(h, e) <==> Held(g, e))
            && (Had(g, e) || e in g.flight[s.id].reply ==> Had(h, e))
  {
    hide Inv, Listing, Had, Underway;
    ArriveHad(g, s, e);
    UnderwayWithout(g.flight, s.id, e);
  }

  lemma ArriveKeeps(g: Page, s: Step)
    requires Inv(g) && s.Arrive? && Enabled(g, s)
    ensures Inv(Next(g, s))
  {
    hide Distinct, InOrder, Listing, Held, Had;
    var f := g.flight[s.id];
    assert FlightOk(g, f);
    var added := AddNew(g.logs, f.reply);
    var h := Next(g, s);
    MergedHas(g, f);
    ListingHas(g, added, s.now);
    forall e | e in g.pushed
      ensures (Held(h, e) <==> Held(g, e)) && (Had(g, e) || e in f.reply ==> Had(h, e))
    {
      ArriveHeld(g, s, e);
    }
    forall k | k in h.flight ensures FlightOk(h, h.flight[k]) {
      assert FlightOk(g, g.flight[k]);
      AnswerStays(g, h, g.flight[k]);
    }
  }

  lemma LoseKeeps(g: Page, id: nat)
    requires Inv(g) && id in g.flight
    ensures Inv(Next(g, Lose(id)))
  {
    hide HubOk, Distinct, AnswerOk;
    var h := Next(g, Lose(id));
    var f := g.flight[id];
    Numbers(g);
    assert FlightOk(g, f);
    forall e | e in g.pushed ensures e.number in h.missed <==> e !in h.hub.entries && !Held(h, e) {
      LoseMisses(g, id, e);
    }
    if f.Answered? { assert forall e :: e in f.reply ==> e in g.pushed by { ReplyPushed(g, f); } }
    forall k | k in h.flight ensures FlightOk(h, h.flight[k]) {
      assert FlightOk(g, g.flight[k]);
      AnswerStays(g, h, g.flight[k]);
    }
  }

  lemma ReplyPushed(g: Page, f: Request)
    requires FlightOk(g, f) && f.Answered?
    ensures forall e :: e in f.reply ==> e in g.pushed
  {}

  lemma StillThere(flight: map<nat, Request>, id: nat, k: nat)
    requires k in flight && k != id
    ensures k in flight - {id} && (flight - {id})[k] == flight[k]
  {}

  lemma LoseMisses(g: Page, id: nat, e: Entry)
    requires Inv(g) && id in g.flight && e in g.pushed
    ensures var h := Next(g, Lose(id)); e.number in h.missed <==> e !in h.hub.entries && !Held(h, e)
  {
    hide Distinct, AnswerOk;
    var h := Next(g, Lose(id));
    var f := g.flight[id];
    var without := g.(flight := g.flight - {id});
    assert FlightOk(g, f);
    if f.Answered? { ReplyPushed(g, f); }
    assert Held(h, e) == Held(without, e);
    if Underway(g.flight, e) && !Underway(h.flight, e) {
      var k :| k in g.flight && g.flight[k].Answered? && e in g.flight[k].reply;
      if k != id { StillThere(g.flight, id, k); }
    }
    if Underway(h.flight, e) {
      var k :| k in h.flight && h.flight[k].Answered? && e in h.flight[k].reply;
      assert g.flight[k] == h.flight[k];
    }
    if e.number in h.missed && e.number !in g.missed {
      var x :| x in f.reply && x !in g.hub.entries && !Held(without, x) && x.number == e.number;
      SameNumber(g.pushed, x, e);
    }
  }

  lemma OwnKeeps(g: Page, s: Step)
    requires Inv(g) && s.OwnLine?
    ensures Inv(Next(g, s))
  {
    hide Distinct, InOrder, Listing, AnswerOk;
    var own := Entry(g.own + 1, s.ts, Program, s.level);
    var added := g.logs + [own];
    var h := Next(g, s);
    Numbers(g);
    SnocIs(g.logs, own);
    ListingHas(g, added, s.now);
    forall e | e in g.pushed ensures Had(h, e) == Had(g, e) {
      OwnHad(g, s, e);
    }
    forall k | k in h.flight ensures FlightOk(h, h.flight[k]) {
      assert FlightOk(g, g.flight[k]);
      AnswerStays(g, h, g.flight[k]);
    }
  }

  lemma OwnHad(g: Page, s: Step, e: Entry)
    requires Inv(g) && s.OwnLine? && e in g.pushed
    ensures Had(Next(g, s), e) == Had(g, e)
  {
    hide Distinct, InOrder, Listing, AnswerOk;
    var own := Entry(g.own + 1, s.ts, Program, s.level);
    var added := g.logs + [own];
    var h := Next(g, s);
    Numbers(g);
    ListingHas(g, added, s.now);
    forall x | x in added && x.source != Program && x.number == e.number ensures x == e {
      SameNumber(g.pushed, x, e);
    }
  }

  lemma StepKeeps(g: Page, s: Step)
    requires Inv(g) && Enabled(g, s) && (s.PushEntry? ==> g.hub.nextSeq + 1 < U64)
    ensures Inv(Next(g, s))
    ensures Next(g, s).hub.nextSeq == g.hub.nextSeq + (if s.PushEntry? then 1 else 0)
  {
    hide Inv, Pruned, Pushed;
    match s
    case PushEntry(_, _, _, _) =>
      PushKeeps(g, s);
      PushCounts(g, s);
    case Ask(id) => AskKeeps(g, id);
    case Answer(id) => AnswerKeeps(g, id);
    case Arrive(_, _) => ArriveKeeps(g, s);
    case Lose(id) => LoseKeeps(g, id);
    case OwnLine(_, _, _) => OwnKeeps(g, s);
  }

  lemma PushCounts(g: Page, s: Step)
    requires Inv(g) && s.PushEntry? && Enabled(g, s) && g.hub.nextSeq + 1 < U64
    ensures Next(g, s).hub.nextSeq == g.hub.nextSeq + 1
  {
    hide AllThere, FlightOk, Held, ListOk;
    PushedNew(g, s);
  }

  // ---- Runs -------------------------------------------------------------------------------------

  ghost function Run(g: Page, steps: seq<Step>): Page
    requires Possible(g, steps)
    decreases |steps|
  {
    if steps == [] then g else Run(Next(g, steps[0]), steps[1..])
  }

  ghost predicate Possible(g: Page, steps: seq<Step>)
    decreases |steps|
  {
    steps == [] || (Enabled(g, steps[0]) && Possible(Next(g, steps[0]), steps[1..]))
  }

  /** The page holds each line once. In every interleaving of pushes, of any number of
      requests in flight asked, answered, arriving in any order or lost, of the GUI's own
      lines and of pruning, short of a 64-bit wrap: no line is listed twice, every listed
      line of the daemon's is one it wrote, and of the lines the cursor answers for, those
      not pruned and not on their way are listed exactly when they did not leave the ring
      before the list or an answer on its way held them. */
  lemma {:induction false} EachLineOnce(g: Page, steps: seq<Step>)
    requires Inv(g) && Possible(g, steps) && g.hub.nextSeq + |steps| < U64
    ensures var r := Run(g, steps);
            && Distinct(r.logs)
            && (forall l :: l in r.logs && l.source != Program ==> l in r.pushed)
            && (r.cursor > 0 ==>
                  forall e | e in r.pushed && r.base <= e.number <= r.cursor && e.number !in r.pruned ::
                    !Underway(r.flight, e) ==> (e in r.logs <==> e.number !in r.missed))
    ensures Inv(Run(g, steps))
    decreases |steps|
  {
    hide Next, Distinct, FlightOk;
    if steps != [] {
      StepKeeps(g, steps[0]);
      EachLineOnce(Next(g, steps[0]), steps[1..]);
    }
  }

  // ---- The order of the list ----------------------------------------------------------------------

  /** The reply holds a line not listed that is older than one that is. */
  ghost predicate Late(logs: seq<Entry>, reply: seq<Entry>) {
    exists e, l :: e in reply && l in logs && Lags(logs, e, l)
  }

  predicate Lags(logs: seq<Entry>, e: Entry, l: Entry) { !Known(logs, e) && !Before(l, e) }

  lemma {:induction false} ExtendsInOrder(a: seq<Entry>, b: seq<Entry>)
    requires a <= b && InOrder(b)
    ensures InOrder(a)
  {}

  /** Merging a reply leaves the list in order exactly when it does not come late. */
  lemma {:induction false} MergeInOrderExactly(logs: seq<Entry>, reply: seq<Entry>)
    requires InOrder(logs) && Ordered(reply) && forall e :: e in reply ==> e.source != Program
    ensures InOrder(AddNew(logs, reply)) <==> !Late(logs, reply)
    decreases |reply|
  {
    hide InOrder, Known, Before;
    if reply != [] {
      var e, rest := reply[0], reply[1..];
      assert reply == [e] + rest;
      if Known(logs, e) {
        MergeInOrderExactly(logs, rest);
        LateRest(logs, e, rest);
      } else if forall l :: l in logs ==> Before(l, e) {
        SnocIs(logs, e);
        MergeInOrderExactly(logs + [e], rest);
        LateSnoc(logs, e, rest);
      } else {
        var l :| l in logs && !Before(l, e);
        assert Lags(logs, e, l);
        SnocIs(logs, e);
        AddNewIs(logs + [e], rest);
        if InOrder(AddNew(logs + [e], rest)) { ExtendsInOrder(logs + [e], AddNew(logs + [e], rest)); }
      }
    }
  }

  lemma LateRest(logs: seq<Entry>, e: Entry, rest: seq<Entry>)
    requires Known(logs, e)
    ensures Late(logs, [e] + rest) <==> Late(logs, rest)
  {
    hide Known, Before;
    if Late(logs, [e] + rest) {
      var d, l :| d in [e] + rest && l in logs && Lags(logs, d, l);
      assert d in rest;
    }
    if Late(logs, rest) {
      var d, l :| d in rest && l in logs && Lags(logs, d, l);
      assert d in [e] + rest;
    }
  }

  /** What comes in order behind a list does not come late. */
  lemma LateSnoc(logs: seq<Entry>, e: Entry, rest: seq<Entry>)
    requires Ordered([e] + rest) && forall l :: l in logs ==> Before(l, e)
    requires forall d :: d in [e] + rest ==> d.source != Program
    ensures !Late(logs + [e], rest) && !Late(logs, [e] + rest)
  {
    forall d | d in rest ensures e.number < d.number && d.source != Program {
      var i :| 0 <= i < |rest| && rest[i] == d;
      var all := [e] + rest;
      assert all[0].number < all[i + 1].number && all[i + 1] == d;
    }
    assert forall d :: d in [e] + rest ==> d == e || d in rest;
    assert e in [e] + rest;
  }

  /** The list as the step leaves it, before it is pruned. */
  ghost function Merged(g: Page, s: Step): seq<Entry>
    requires Enabled(g, s)
  {
    match s
    case Arrive(id, _) => AddNew(g.logs, g.flight[id].reply)
    case OwnLine(_, ts, level) => g.logs + [Entry(g.own + 1, ts, Program, level)]
    case _ => g.logs
  }

  ghost predicate LateStep(g: Page, s: Step)
    requires Enabled(g, s)
  {
    s.Arrive? && Late(g.logs, g.flight[s.id].reply)
  }

  ghost predicate AlwaysInOrder(g: Page, steps: seq<Step>)
    requires Possible(g, steps)
    decreases |steps|
  {
    steps == [] || (InOrder(Merged(g, steps[0])) && AlwaysInOrder(Next(g, steps[0]), steps[1..]))
  }

  ghost predicate NoneLate(g: Page, steps: seq<Step>)
    requires Possible(g, steps)
    decreases |steps|
  {
    steps == [] || (!LateStep(g, steps[0]) && NoneLate(Next(g, steps[0]), steps[1..]))
  }

  lemma StepInOrderExactly(g: Page, s: Step)
    requires Inv(g) && Enabled(g, s) && InOrder(g.logs)
    ensures InOrder(Merged(g, s)) <==> !LateStep(g, s)
    ensures InOrder(Merged(g, s)) ==> InOrder(Next(g, s).logs)
  {
    hide InOrder, Distinct, Late, Pruned, AllThere, Pushed;
    match s
    case Arrive(id, now) =>
      var f := g.flight[id];
      assert FlightOk(g, f);
      ReplyPushed(g, f);
      MergeInOrderExactly(g.logs, f.reply);
      PrunedSub(AddNew(g.logs, f.reply), now);
    case OwnLine(now, ts, level) =>
      SnocIs(g.logs, Entry(g.own + 1, ts, Program, level));
      PrunedSub(Merged(g, s), now);
    case _ =>
  }

  /** The list is by number at every point of a run exactly when no reply of it comes late:
      with a line not listed that is older than one that is. */
  lemma {:induction false} InOrderExactly(g: Page, steps: seq<Step>)
    requires Inv(g) && Possible(g, steps) && g.hub.nextSeq + |steps| < U64 && InOrder(g.logs)
    ensures AlwaysInOrder(g, steps) <==> NoneLate(g, steps)
    decreases |steps|
  {
    hide Next, Inv, InOrder, Merged, LateStep, Enabled;
    if steps != [] {
      StepKeeps(g, steps[0]);
      StepInOrderExactly(g, steps[0]);
      if InOrder(Merged(g, steps[0])) { InOrderExactly(Next(g, steps[0]), steps[1..]); }
    }
  }

  // ---- What makes a reply late --------------------------------------------------------------------

  /** An answer to a request without a cursor arrives when there is one already. */
  predicate StartsAnew(g: Page, s: Step)
    requires Enabled(g, s)
  {
    s.Arrive? && g.flight[s.id].since.None? && EndOf(g.flight[s.id]).Some? && g.cursor > 0
  }

  /** Before there is a cursor nothing is listed and nothing asked from one. */
  ghost predicate Unstarted(g: Page) {
    g.cursor == 0 ==>
      && g.pruned == {} && (forall l :: l in g.logs ==> l.source == Program)
      && (forall id :: id in g.flight ==> g.flight[id].since.None?)
  }

  /** All cursors answer for the same lines, and a line of the ring the page has not had is
      newer than all it lists. */
  ghost predicate Upwards(g: Page) {
    && (forall id :: id in g.flight && g.flight[id].since.Some? ==> g.flight[id].base == g.base)
    && (g.cursor > 0 ==>
          forall e, l | e in g.hub.entries && l in g.logs ::
            g.base <= e.number && !Had(g, e) && l.source != Program ==> l.number < e.number)
  }

  predicate IsLater(f: Request) { f.Answered? && f.since.Some? }

  /** Of two answers on their way the earlier lacks no line of the later but those newer
      than all of its own. */
  ghost predicate Nested(g: Page) {
    forall i, j | i in g.flight && j in g.flight :: IsLater(g.flight[i]) && IsLater(g.flight[j]) && i != j ==>
      g.flight[i].at != g.flight[j].at && (g.flight[i].at < g.flight[j].at ==> Covers(g, g.flight[i], g.flight[j]))
  }

  ghost predicate Covers(g: Page, a: Request, f: Request)
    requires a.Answered? && f.Answered?
  {
    forall l, e | l in a.reply && e in f.reply :: e.number < l.number ==> e in a.reply || Had(g, e)
  }

  /** A listed line newer than one still on its way came with an answer computed later. */
  ghost predicate CameLater(g: Page, f: Request)
    requires f.Answered?
  {
    forall e, l | e in f.reply && l in g.logs ::
      !Had(g, e) && l.source != Program && e.number < l.number ==> l.number in g.came && g.came[l.number] > f.at
  }

  ghost predicate OneStart(g: Page) {
    && Unstarted(g) && Upwards(g) && Nested(g)
    && (forall id :: id in g.flight && IsLater(g.flight[id]) ==> CameLater(g, g.flight[id]))
  }

  /** The arriving reply was overtaken: a line of it left the ring, newer lines came with an
      answer computed later, and that one is listed; or it brings back a line that was
      pruned. */
  ghost predicate Overtaken(g: Page, f: Request)
    requires f.Answered?
  {
    exists e, l :: e in f.reply && l in g.logs && Lags(g.logs, e, l) && (e.number in g.pruned || LeftBehind(g, f, e, l))
  }

  predicate LeftBehind(g: Page, f: Request, e: Entry, l: Entry)
    requires f.Answered?
  {
    e !in g.hub.entries && l.number in g.came && g.came[l.number] > f.at
  }

  /** While the page has started once, a reply puts the list out of order exactly when it
      was overtaken. */
  lemma OutOfOrderExactly(g: Page, s: Step)
    requires Inv(g) && OneStart(g) && s.Arrive? && Enabled(g, s) && !StartsAnew(g, s) && InOrder(g.logs)
    ensures InOrder(AddNew(g.logs, g.flight[s.id].reply)) <==> !Overtaken(g, g.flight[s.id])
  {
    hide InOrder, Distinct, AllThere, Nested, Known;
    var f := g.flight[s.id];
    assert FlightOk(g, f);
    ReplyPushed(g, f);
    Numbers(g);
    MergeInOrderExactly(g.logs, f.reply);
    if Late(g.logs, f.reply) {
      var e, l :| e in f.reply && l in g.logs && Lags(g.logs, e, l);
      assert l in g.pushed;
      if e in g.logs { ListedIsKnown(g.logs, e); }
      LagsByNumber(g, e, l);
      if e.number !in g.pruned { assert !Had(g, e) && IsLater(f) && CameLater(g, f); }
      assert Overtaken(g, f);
    }
  }

  lemma ListedIsKnown(logs: seq<Entry>, e: Entry)
    requires e in logs
    ensures Known(logs, e)
  {}

  lemma LagsByNumber(g: Page, e: Entry, l: Entry)
    requires HubOk(g.hub, g.pushed) && e in g.pushed && l in g.pushed && l in g.logs && Lags(g.logs, e, l)
    ensures e.number < l.number
  {
    if e.number == l.number { SameNumber(g.pushed, e, l); }
  }

  /** One start is kept by a step that leaves the list, or lets it only lose lines of the
      daemon's to pruning, and adds no answer. */
  lemma QuietStarts(g: Page, h: Page)
    requires Inv(g) && OneStart(g)
    requires h.cursor == g.cursor && h.base == g.base && h.came == g.came
    requires forall e :: e in h.hub.entries ==> e in g.hub.entries || forall l :: l in g.pushed ==> l.number < e.number
    requires forall e :: e in g.pushed ==> (Had(h, e) <==> Had(g, e))
    requires forall l :: l in h.logs && l.source != Program ==> l in g.logs
    requires g.cursor == 0 ==> h.pruned == {}
    requires forall k :: k in h.flight ==>
               if k in g.flight then h.flight[k] == g.flight[k]
               else h.flight[k] == Asked(Cursor(g.cursor), g.base)
    ensures OneStart(h)
  {
    hide Distinct, AllThere, Had, HubOk;
    Numbers(g);
    forall k | k in g.flight && g.flight[k].Answered? ensures forall e :: e in g.flight[k].reply ==> e in g.pushed {
      assert FlightOk(g, g.flight[k]);
      ReplyPushed(g, g.flight[k]);
    }
    forall k | k in h.flight && IsLater(h.flight[k]) ensures CameLater(h, h.flight[k]) {
      assert k in g.flight && CameLater(g, g.flight[k]);
    }
    forall i, j | i in h.flight && j in h.flight && IsLater(h.flight[i]) && IsLater(h.flight[j]) && i != j
      && h.flight[i].at < h.flight[j].at
      ensures Covers(h, h.flight[i], h.flight[j])
    {
      assert Covers(g, g.flight[i], g.flight[j]);
    }
  }

  lemma PushStarts(g: Page, s: Step)
    requires Inv(g) && OneStart(g) && s.PushEntry? && Enabled(g, s) && g.hub.nextSeq + 1 < U64
    ensures OneStart(Next(g, s))
  {
    hide Pushed, AllThere, Distinct, OneStart;
    PushedNew(g, s);
    Numbers(g);
    UnstartedPruned(g);
    QuietStarts(g, Next(g, s));
  }

  lemma UnstartedPruned(g: Page)
    requires OneStart(g)
    ensures g.cursor == 0 ==> g.pruned == {}
  {}

  lemma AskStarts(g: Page, id: nat)
    requires Inv(g) && OneStart(g) && id !in g.flight
    ensures OneStart(Next(g, Ask(id)))
  {
    hide Inv, OneStart;
    UnstartedPruned(g);
    QuietStarts(g, Next(g, Ask(id)));
  }

  lemma LoseStarts(g: Page, id: nat)
    requires Inv(g) && OneStart(g) && id in g.flight
    ensures OneStart(Next(g, Lose(id)))
  {
    hide Inv, OneStart, Held;
    UnstartedPruned(g);
    QuietStarts(g, Next(g, Lose(id)));
  }

  lemma OwnStarts(g: Page, s: Step)
    requires Inv(g) && OneStart(g) && s.OwnLine?
    ensures OneStart(Next(g, s))
  {
    hide AllThere, FlightOk, Distinct, InOrder, Pruned;
    var own := Entry(g.own + 1, s.ts, Program, s.level);
    var h := Next(g, s);
    forall e | e in g.pushed ensures Had(h, e) <==> Had(g, e) { OwnHad(g, s, e); }
    ListingHas(g, g.logs + [own], s.now);
    Numbers(g);
    QuietStarts(g, h);
  }

  /** What an answer brings that the page has not had is newer than all it lists. */
  lemma NewestYet(g: Page, id: nat)
    requires Inv(g) && OneStart(g) && Enabled(g, Answer(id)) && g.flight[id].since.Some?
    ensures var f := Next(g, Answer(id)).flight[id];
            forall e, l | e in f.reply && l in g.logs :: !Had(g, e) && l.source != Program ==> l.number < e.number
  {
    hide Distinct, AllThere, Reply, Nested, HubOk;
    AnswerIsOk(g, id);
    assert FlightOk(g, g.flight[id]);
  }

  lemma AnswerNests(g: Page, i: nat, id: nat)
    requires Inv(g) && OneStart(g) && Enabled(g, Answer(id)) && g.flight[id].since.Some?
    requires i in g.flight && i != id && IsLater(g.flight[i])
    ensures Covers(g, g.flight[i], Next(g, Answer(id)).flight[id])
  {
    hide Distinct, AllThere, Reply, Nested, HubOk, CameLater;
    var a, f := g.flight[i], Next(g, Answer(id)).flight[id];
    AnswerIsOk(g, id);
    assert FlightOk(g, a) && FlightOk(g, g.flight[id]);
    forall l, e | l in a.reply && e in f.reply && e.number < l.number ensures e in a.reply || Had(g, e) {
      LastIsGreatest(a.reply);
      assert e in g.hub.entries && a.base <= e.number <= EndOf(a).value;
    }
  }

  /** What was answered stays as it is when another is. */
  lemma OthersStay(g: Page, id: nat, k: nat)
    requires Enabled(g, Answer(id)) && k != id
    ensures var h := Next(g, Answer(id));
            && (k in h.flight <==> k in g.flight)
            && (k in g.flight ==> h.flight[k] == g.flight[k])
  {}

  lemma AnswersAt(g: Page, k: nat)
    requires Inv(g) && k in g.flight && g.flight[k].Answered?
    ensures g.flight[k].at < g.answers
  {
    hide Distinct, AllThere, HubOk, Covered;
    assert FlightOk(g, g.flight[k]);
  }

  lemma AnswerNested(g: Page, id: nat)
    requires Inv(g) && OneStart(g) && Enabled(g, Answer(id))
    ensures Nested(Next(g, Answer(id)))
  {
    hide Inv, Next, Covers, Unstarted, Upwards, CameLater;
    var h := Next(g, Answer(id));
    AnswerAt(g, id);
    forall i, j | i in h.flight && j in h.flight && IsLater(h.flight[i]) && IsLater(h.flight[j]) && i != j
      ensures h.flight[i].at != h.flight[j].at
      ensures h.flight[i].at < h.flight[j].at ==> Covers(h, h.flight[i], h.flight[j])
    {
      if i != id { OthersStay(g, id, i); AnswersAt(g, i); }
      if j != id { OthersStay(g, id, j); AnswersAt(g, j); }
      if h.flight[i].at < h.flight[j].at {
        if j == id { AnswerNests(g, i, id); } else { assert i != id && Covers(g, g.flight[i], g.flight[j]); }
        CoversStays(g, id, h.flight[i], h.flight[j]);
      }
    }
  }

  lemma AnswerAt(g: Page, id: nat)
    requires Enabled(g, Answer(id))
    ensures var h := Next(g, Answer(id));
            && h.flight.Keys == g.flight.Keys && h.flight[id].Answered? && h.flight[id].at == g.answers
            && h.flight[id].since == g.flight[id].since && h.flight[id].base == g.flight[id].base
            && h == g.(flight := h.flight, answers := h.answers)
  {}

  lemma CoversStays(g: Page, id: nat, a: Request, f: Request)
    requires Enabled(g, Answer(id)) && a.Answered? && f.Answered? && Covers(g, a, f)
    ensures Covers(Next(g, Answer(id)), a, f)
  {}

  lemma AnswerCame(g: Page, id: nat, k: nat)
    requires Inv(g) && OneStart(g) && Enabled(g, Answer(id)) && k in g.flight && IsLater(Next(g, Answer(id)).flight[k])
    ensures CameLater(Next(g, Answer(id)), Next(g, Answer(id)).flight[k])
  {
    hide Inv, Next, Unstarted, Upwards, Nested;
    AnswerAt(g, id);
    if k == id { NewestYet(g, id); } else { OthersStay(g, id, k); assert CameLater(g, g.flight[k]); }
  }

  lemma AnswerStarts(g: Page, id: nat)
    requires Inv(g) && OneStart(g) && Enabled(g, Answer(id))
    ensures OneStart(Next(g, Answer(id)))
  {
    hide Inv, Next, Nested, CameLater;
    var h := Next(g, Answer(id));
    AnswerAt(g, id);
    AnswerNested(g, id);
    forall k | k in h.flight && IsLater(h.flight[k]) ensures CameLater(h, h.flight[k]) { AnswerCame(g, id, k); }
    forall k | k in h.flight ensures h.flight[k].since == g.flight[k].since && h.flight[k].base == g.flight[k].base {
      if k != id { OthersStay(g, id, k); }
    }
  }

  /** What stands and what moves when a reply arrives. */
  lemma ArriveFrame(g: Page, s: Step)
    requires Inv(g) && s.Arrive? && Enabled(g, s)
    ensures var f := g.flight[s.id];
            var h := Next(g, s);
            && h.hub == g.hub && h.pushed == g.pushed && h.answers == g.answers
            && h.flight == g.flight - {s.id}
            && h.cursor == NextLogCursor(g.cursor, f.reply, f.latest)
            && h.base == (if EndOf(f).Some? then BaseOf(f) else g.base)
            && (forall l :: l in h.logs && l.source != Program ==> l in g.logs || (l in f.reply && !Known(g.logs, l)))
            && (forall e :: e in g.pushed && Had(g, e) ==> Had(h, e))
            && (forall e :: e in f.reply ==> e in g.pushed && Had(h, e))
            && (EndOf(f).Some? ==> 0 < EndOf(f).value && h.cursor == EndOf(f).value)
  {
    hide Distinct, InOrder, AllThere, Known, HubOk, Covered, Had;
    var f := g.flight[s.id];
    assert FlightOk(g, f);
    ReplyPushed(g, f);
    Numbers(g);
    AddNewIs(g.logs, f.reply);
    PrunedSub(AddNew(g.logs, f.reply), s.now);
    forall e | e in g.pushed && (Had(g, e) || e in f.reply) ensures Had(Next(g, s), e) { ArriveHad(g, s, e); }
    if f.reply != [] { assert f.reply[|f.reply| - 1] in f.reply; }
  }

  /** Where the lines listed came from. */
  lemma ArriveCame(g: Page, s: Step, l: Entry)
    requires Inv(g) && s.Arrive? && Enabled(g, s) && l in g.pushed
    ensures var h := Next(g, s);
            && (l in g.logs && l.number in g.came ==> l.number in h.came && h.came[l.number] == g.came[l.number])
            && (l in g.flight[s.id].reply && !Known(g.logs, l) ==>
                  l.number in h.came && h.came[l.number] == g.flight[s.id].at)
  {
    hide Distinct, InOrder, AllThere, HubOk, Listing;
    var f := g.flight[s.id];
    assert FlightOk(g, f);
    ReplyPushed(g, f);
    Numbers(g);
    forall x | x in f.reply && x.number == l.number ensures x == l { SameNumber(g.pushed, x, l); }
    var unseen := set e | e in f.reply && !Known(g.logs, e) :: e.number;
    if l in g.logs {
      assert Known(g.logs, l);
      assert l.number !in unseen;
    } else if l in f.reply && !Known(g.logs, l) {
      assert l.number in unseen;
    }
  }

  lemma ArriveUpwards(g: Page, s: Step)
    requires Inv(g) && OneStart(g) && s.Arrive? && Enabled(g, s) && !StartsAnew(g, s)
    requires g.flight[s.id].since.Some? || EndOf(g.flight[s.id]).Some?
    ensures Unstarted(Next(g, s)) && Upwards(Next(g, s))
  {
    hide Distinct, AllThere, HubOk, Nested, CameLater, Next, Had, Known, Covered;
    var f := g.flight[s.id];
    var h := Next(g, s);
    assert FlightOk(g, f);
    ArriveFrame(g, s);
    Numbers(g);
    forall e, l | e in h.hub.entries && l in h.logs && h.base <= e.number && !Had(h, e) && l.source != Program
      ensures l.number < e.number
    {
      if l !in g.logs { LastIsGreatest(f.reply); }
    }
  }

  lemma ArriveNested(g: Page, s: Step)
    requires Inv(g) && Nested(g) && s.Arrive? && Enabled(g, s)
    ensures Nested(Next(g, s))
  {
    hide Inv, Next, Had, Known;
    var h := Next(g, s);
    ArriveFrame(g, s);
    forall i, j | i in h.flight && j in h.flight && IsLater(h.flight[i]) && IsLater(h.flight[j]) && i != j
      && h.flight[i].at < h.flight[j].at
      ensures Covers(h, h.flight[i], h.flight[j])
    {
      assert Covers(g, g.flight[i], g.flight[j]);
      FlightPushed(g, j);
    }
  }

  lemma FlightPushed(g: Page, k: nat)
    requires Inv(g) && k in g.flight && g.flight[k].Answered?
    ensures forall e :: e in g.flight[k].reply ==> e in g.pushed
  {
    assert FlightOk(g, g.flight[k]);
    ReplyPushed(g, g.flight[k]);
  }

  lemma ListPushed(g: Page)
    requires Inv(g)
    ensures forall l :: l in g.logs && l.source != Program ==> l in g.pushed
  {}

  lemma ArriveLater(g: Page, s: Step, k: nat)
    requires Inv(g) && Nested(g) && s.Arrive? && Enabled(g, s) && IsLater(g.flight[s.id])
    requires k in g.flight && k != s.id && IsLater(g.flight[k]) && CameLater(g, g.flight[k])
    ensures CameLater(Next(g, s), g.flight[k])
  {
    hide Inv, Next, Had, Known;
    var f, a := g.flight[s.id], g.flight[k];
    var h := Next(g, s);
    ArriveFrame(g, s);
    FlightPushed(g, k);
    ListPushed(g);
    assert f.at != a.at && (f.at < a.at ==> Covers(g, f, a));
    forall e, l | e in a.reply && l in h.logs && !Had(h, e) && l.source != Program && e.number < l.number
      ensures l.number in h.came && h.came[l.number] > a.at
    {
      ArriveCame(g, s, l);
    }
  }

  lemma ArriveStarts(g: Page, s: Step)
    requires Inv(g) && OneStart(g) && s.Arrive? && Enabled(g, s) && !StartsAnew(g, s)
    ensures OneStart(Next(g, s))
  {
    hide Inv, Next, Upwards, Nested, CameLater;
    var f := g.flight[s.id];
    var h := Next(g, s);
    ArriveFrame(g, s);
    if f.since.None? && EndOf(f).None? {
      NothingArrives(g, s);
    } else {
      ArriveUpwards(g, s);
      ArriveNested(g, s);
      forall k | k in h.flight && IsLater(h.flight[k]) ensures CameLater(h, h.flight[k]) { ArriveLater(g, s, k); }
    }
  }

  /** The answer of a hub that has taken nothing yet. */
  lemma NothingArrives(g: Page, s: Step)
    requires Inv(g) && OneStart(g) && s.Arrive? && Enabled(g, s)
    requires g.flight[s.id].since.None? && EndOf(g.flight[s.id]).None?
    ensures OneStart(Next(g, s))
  {
    hide Inv, OneStart, Had, Pruned, Known;
    var f := g.flight[s.id];
    var h := Next(g, s);
    ArriveFrame(g, s);
    forall e | e in g.pushed ensures Had(h, e) <==> Had(g, e) { ArriveHad(g, s, e); }
    assert h.came == g.came;
    if g.cursor == 0 { UnstartedDrops(g, s.now); }
    QuietStarts(g, h);
  }

  lemma UnstartedDrops(g: Page, now: int)
    requires OneStart(g) && g.cursor == 0
    ensures Listing(g, g.logs, now).pruned == {}
  {
    hide Upwards, Nested, CameLater, Pruned;
  }

  lemma OneStartStep(g: Page, s: Step)
    requires Inv(g) && OneStart(g) && Enabled(g, s) && !StartsAnew(g, s) && (s.PushEntry? ==> g.hub.nextSeq + 1 < U64)
    ensures OneStart(Next(g, s))
  {
    hide Inv, OneStart, Next;
    match s
    case PushEntry(_, _, _, _) => PushStarts(g, s);
    case Ask(id) => AskStarts(g, id);
    case Answer(id) => AnswerStarts(g, id);
    case Arrive(_, _) => ArriveStarts(g, s);
    case Lose(id) => LoseStarts(g, id);
    case OwnLine(_, _, _) => OwnStarts(g, s);
  }

  /** No reply to a request without a cursor arrives once there is one. */
  ghost predicate StartsOnce(g: Page, steps: seq<Step>)
    requires Possible(g, steps)
    decreases |steps|
  {
    steps == [] || (!StartsAnew(g, steps[0]) && StartsOnce(Next(g, steps[0]), steps[1..]))
  }

  ghost predicate OvertakenStep(g: Page, s: Step)
    requires Enabled(g, s)
  {
    s.Arrive? && Overtaken(g, g.flight[s.id])
  }

  ghost predicate NoneOvertaken(g: Page, steps: seq<Step>)
    requires Possible(g, steps)
    decreases |steps|
  {
    steps == [] || (!OvertakenStep(g, steps[0]) && NoneOvertaken(Next(g, steps[0]), steps[1..]))
  }

  lemma StepOrderExactly(g: Page, s: Step)
    requires Inv(g) && OneStart(g) && Enabled(g, s) && !StartsAnew(g, s) && InOrder(g.logs)
    ensures InOrder(Merged(g, s)) <==> !OvertakenStep(g, s)
  {
    hide Inv, OneStart, InOrder, Overtaken;
    StepInOrderExactly(g, s);
    if s.Arrive? { OutOfOrderExactly(g, s); }
  }

  /** In a run that starts once, whatever is in flight together: the list is by number at
      every point exactly when no reply is overtaken. A reply that arrives after a later
      one is still merged in order if the ring has all its lines yet, for the later one
      then brought them too. */
  lemma {:induction false} OvertakenExactly(g: Page, steps: seq<Step>)
    requires Inv(g) && OneStart(g) && InOrder(g.logs)
    requires Possible(g, steps) && StartsOnce(g, steps) && g.hub.nextSeq + |steps| < U64
    ensures AlwaysInOrder(g, steps) <==> NoneOvertaken(g, steps)
    ensures OneStart(Run(g, steps))
    decreases |steps|
  {
    hide Next, Inv, InOrder, Merged, OneStart, OvertakenStep, Enabled, StartsAnew;
    if steps != [] {
      StepKeeps(g, steps[0]);
      OneStartStep(g, steps[0]);
      StepOrderExactly(g, steps[0]);
      StepInOrderExactly(g, steps[0]);
      if InOrder(Merged(g, steps[0])) {
        OvertakenExactly(Next(g, steps[0]), steps[1..]);
      } else {
        KeepsOneStart(Next(g, steps[0]), steps[1..]);
      }
    }
  }

  lemma {:induction false} KeepsOneStart(g: Page, steps: seq<Step>)
    requires Inv(g) && OneStart(g) && Possible(g, steps) && StartsOnce(g, steps) && g.hub.nextSeq + |steps| < U64
    ensures OneStart(Run(g, steps))
    decreases |steps|
  {
    hide Next, Inv, OneStart, Enabled, StartsAnew;
    if steps != [] {
      StepKeeps(g, steps[0]);
      OneStartStep(g, steps[0]);
      KeepsOneStart(Next(g, steps[0]), steps[1..]);
    }
  }

  /** An open page meets all of it. */
  lemma FreshStarts()
    ensures Inv(FRESH) && OneStart(FRESH) && InOrder(FRESH.logs) && Single(FRESH)
  {}

  // ---- One request at a time ----------------------------------------------------------------------

  /** No request is made while another is in flight. */
  ghost predicate OneAtATime(g: Page, steps: seq<Step>)
    requires Possible(g, steps)
    decreases |steps|
  {
    steps == [] || ((steps[0].Ask? ==> g.flight == map[]) && OneAtATime(Next(g, steps[0]), steps[1..]))
  }

  /** The request in flight was asked from the page's cursor, and everything listed is
      below what it brings. */
  ghost predicate Single(g: Page) {
    && (forall i, j :: i in g.flight && j in g.flight ==> i == j)
    && (forall l :: l in g.logs && l.source != Program ==> l.number <= g.cursor)
    && (forall i :: i in g.flight ==>
          g.flight[i].since == Cursor(g.cursor) && (g.flight[i].Answered? ==> g.flight[i].latest >= g.cursor))
    && InOrder(g.logs)
  }

  lemma SingleArrives(g: Page, s: Step)
    requires Inv(g) && Single(g) && s.Arrive? && Enabled(g, s)
    ensures var f := g.flight[s.id];
            && AddNew(g.logs, f.reply) == g.logs + f.reply
            && InOrder(AddNew(g.logs, f.reply))
            && g.cursor <= Next(g, s).cursor
            && forall e :: e in f.reply ==> e.number <= Next(g, s).cursor
  {
    hide Distinct, InOrder, AllThere, HubOk, Known, Pruned;
    var f := g.flight[s.id];
    assert FlightOk(g, f);
    ReplyPushed(g, f);
    Numbers(g);
    DuplicateCheckDropsNothing(g.logs, f.reply, g.cursor);
    MergeInOrderExactly(g.logs, f.reply);
    if f.reply != [] {
      LastIsGreatest(f.reply);
      assert f.reply[|f.reply| - 1] in f.reply;
    }
  }

  lemma SingleStep(g: Page, s: Step)
    requires Inv(g) && Single(g) && Enabled(g, s) && (s.Ask? ==> g.flight == map[])
    ensures Single(Next(g, s))
  {
    hide Distinct, AllThere, FlightOk, Pushed, Pruned, Covered, InOrder, Held;
    match s
    case Arrive(id, now) =>
      SingleArrives(g, s);
      ArriveFrame(g, s);
      PrunedSub(AddNew(g.logs, g.flight[id].reply), now);
    case OwnLine(now, ts, level) =>
      var own := Entry(g.own + 1, ts, Program, level);
      SnocIs(g.logs, own);
      PrunedSub(g.logs + [own], now);
    case _ =>
  }

  /** Every arriving reply is listed in full. */
  ghost predicate AllInFull(g: Page, steps: seq<Step>)
    requires Possible(g, steps)
    decreases |steps|
  {
    steps == [] || (
      && (steps[0].Arrive? ==>
            AddNew(g.logs, g.flight[steps[0].id].reply) == g.logs + g.flight[steps[0].id].reply)
      && AllInFull(Next(g, steps[0]), steps[1..]))
  }

  /** With one request at a time the duplicate check drops nothing and the list stays by
      number, in every such run. */
  lemma {:induction false} OneAtATimeIsPlain(g: Page, steps: seq<Step>)
    requires Inv(g) && Single(g) && Possible(g, steps) && OneAtATime(g, steps) && g.hub.nextSeq + |steps| < U64
    ensures AllInFull(g, steps) && InOrder(Run(g, steps).logs)
    decreases |steps|
  {
    hide Next, Inv, InOrder, Enabled;
    if steps != [] {
      StepKeeps(g, steps[0]);
      SingleStep(g, steps[0]);
      if steps[0].Arrive? { SingleArrives(g, steps[0]); }
      OneAtATimeIsPlain(Next(g, steps[0]), steps[1..]);
    }
  }

  // ---- Lines the page never shows -----------------------------------------------------------------

  /** The page is past number `n`: its cursor is, and so is every request in flight. */
  ghost predicate Past(g: Page, n: nat) {
    0 < n < g.hub.nextSeq && n <= g.cursor && forall id :: id in g.flight ==> PastIn(g.flight[id], n)
  }

  ghost predicate PastIn(f: Request, n: nat) {
    && f.since.Some? && f.since.value >= n
    && (f.Answered? ==> f.latest >= n && forall e :: e in f.reply ==> e.number > n)
  }

  lemma AnswerPast(g: Page, id: nat, n: nat)
    requires Past(g, n) && Enabled(g, Answer(id))
    ensures PastIn(Next(g, Answer(id)).flight[id], n)
  {
    var c := g.flight[id].since.value;
    forall e | e in Reply(g.hub, Some(c), GUI_CLIENT.limit, GUI_CLIENT.q) ensures e.number > n {
      FilterKeeps(g.hub.entries, After(c, GUI_CLIENT.q), e);
    }
  }

  lemma PastStep(g: Page, s: Step, n: nat)
    requires Past(g, n) && Enabled(g, s) && g.hub.nextSeq + 1 < U64
    ensures Past(Next(g, s), n)
    ensures Next(g, s).hub.nextSeq == g.hub.nextSeq + (if s.PushEntry? then 1 else 0)
    ensures forall l :: l in Next(g, s).logs && l.source != Program && l.number <= n ==> l in g.logs
  {
    hide Pruned, Reply, Held;
    match s
    case Answer(id) => AnswerPast(g, id, n);
    case Arrive(id, now) =>
      var f := g.flight[id];
      AddNewIs(g.logs, f.reply);
      PrunedSub(AddNew(g.logs, f.reply), now);
      if f.reply != [] { assert f.reply[|f.reply| - 1] in f.reply; }
    case OwnLine(now, ts, level) => PrunedSub(g.logs + [Entry(g.own + 1, ts, Program, level)], now);
    case _ =>
  }

  /** What a page is past it never lists: in every continuation the lines numbered up to
      `n` are of those it lists already. */
  lemma {:induction false} PastIsPast(g: Page, n: nat, steps: seq<Step>)
    requires Past(g, n) && Possible(g, steps) && g.hub.nextSeq + |steps| < U64
    ensures forall l :: l in Run(g, steps).logs && l.source != Program && l.number <= n ==> l in g.logs
    decreases |steps|
  {
    hide Next, Enabled, Past;
    if steps != [] {
      PastStep(g, steps[0], n);
      PastIsPast(Next(g, steps[0]), n, steps[1..]);
    }
  }

  /** A page with a cursor and nothing in flight meets a restarted daemon: the lines that one
      has numbered up to the cursor are never listed, in any run. */
  lemma RestartHides(g: Page, e: Entry, steps: seq<Step>)
    requires g.cursor > 0 && g.flight == map[] && Possible(g, steps) && g.hub.nextSeq + |steps| < U64
    requires 0 < e.number < g.hub.nextSeq && e.number <= g.cursor && e.source != Program && e !in g.logs
    ensures e !in Run(g, steps).logs
  {
    PastIsPast(g, e.number, steps);
  }

  // ---- Runs in which it shows ---------------------------------------------------------------------

  /** Some run of the open page gets there. */
  ghost predicate Reached(g: Page) {
    exists steps :: Possible(FRESH, steps) && Run(FRESH, steps) == g
  }

  lemma {:induction false} OneMore(g: Page, steps: seq<Step>, s: Step)
    requires Possible(g, steps) && Enabled(Run(g, steps), s)
    ensures Possible(g, steps + [s]) && Run(g, steps + [s]) == Next(Run(g, steps), s)
    decreases |steps|
  {
    hide Next, Enabled;
    if steps == [] {
      assert steps + [s] == [s] && [s][1..] == [];
    } else {
      OneMore(Next(g, steps[0]), steps[1..], s);
      assert (steps + [s])[1..] == steps[1..] + [s];
    }
  }

  lemma ReachedNext(g: Page, s: Step)
    requires Reached(g) && Enabled(g, s)
    ensures Reached(Next(g, s))
  {
    hide Next, Enabled;
    var steps :| Possible(FRESH, steps) && Run(FRESH, steps) == g;
    OneMore(FRESH, steps, s);
  }

  lemma ReachedFresh()
    ensures Reached(FRESH)
  {
    assert Possible(FRESH, []) && Run(FRESH, []) == FRESH;
  }

  function Line(n: nat): Entry { Entry(n, 0, Host, Info) }

  function Lines(from: nat, to: nat): (r: seq<Entry>)
    requires from <= to
    ensures |r| == to - from && forall i :: 0 <= i < |r| ==> r[i] == Line(from + i)
  {
    seq(to - from, i requires 0 <= i < to - from => Line(from + i))
  }

  const LOG := Step.PushEntry(0, 0, Host, Info)

  /** The page with this ring, this cursor, this list, of which nothing was pruned, and
      these requests. */
  ghost predicate Stands(g: Page, from: nat, to: nat, cursor: nat, logs: seq<Entry>, flight: map<nat, Request>) {
    && from <= to && g.hub == Hub(Lines(from, to), to) && g.cursor == cursor && g.logs == logs && g.flight == flight
    && g.pruned == {}
  }

  lemma AllRecent(from: nat, to: nat)
    requires from <= to
    ensures Filter(Lines(from, to), Recent(0 - DAY_S)) == Lines(from, to)
  {
    FilterAll(Lines(from, to), Recent(0 - DAY_S));
  }

  lemma LineTaken(from: nat, to: nat)
    requires from <= to && to - from <= CAPACITY && to + 1 < U64
    ensures Pushed(Hub(Lines(from, to), to), 0, 0, Host, Info) ==
            Hub(Lines(if to - from == CAPACITY then from + 1 else from, to + 1), to + 1)
  {
    var first := if to - from == CAPACITY then from + 1 else from;
    assert to - from == CAPACITY ==> Lines(from, to)[1..] == Lines(from + 1, to);
    AllRecent(first, to);
    assert Lines(first, to) + [Line(to)] == Lines(first, to + 1);
  }

  lemma PushLine(g: Page, from: nat, to: nat, cursor: nat, logs: seq<Entry>, flight: map<nat, Request>)
    requires Reached(g) && Stands(g, from, to, cursor, logs, flight) && to - from <= CAPACITY && to + 1 < U64
    ensures var h := Next(g, LOG);
            && Reached(h) && h.base == g.base && h.answers == g.answers
            && Stands(h, if to - from == CAPACITY then from + 1 else from, to + 1, cursor, logs, flight)
  {
    hide Pushed, Held, Lines, Reached;
    ReachedNext(g, LOG);
    LineTaken(from, to);
  }

  function First(from: nat, to: nat): nat { if to > CAPACITY + from then to - CAPACITY else from }

  lemma {:induction false} PushLines(g: Page, from: nat, to: nat, cursor: nat, logs: seq<Entry>,
                                     flight: map<nat, Request>, k: nat)
    returns (h: Page)
    requires Reached(g) && Stands(g, from, to, cursor, logs, flight) && to - from <= CAPACITY && to + k < U64
    ensures Reached(h) && Stands(h, First(from, to + k), to + k, cursor, logs, flight)
    ensures h.base == g.base && h.answers == g.answers
    decreases k
  {
    hide Reached, Lines, Next, Pushed;
    if k == 0 {
      h := g;
    } else {
      var before := PushLines(g, from, to, cursor, logs, flight, k - 1);
      PushLine(before, First(from, to + k - 1), to + k - 1, cursor, logs, flight);
      h := Next(before, LOG);
    }
  }

  /** What the daemon answers from such a ring. */
  lemma Answers(from: nat, to: nat, cursor: nat)
    requires 0 < from <= to
    ensures var r := Reply(Hub(Lines(from, to), to), Cursor(cursor), GUI_CLIENT.limit, GUI_CLIENT.q);
            && (cursor == 0 ==> r == Lines(if to - from > 200 then to - 200 else from, to))
            && (0 < cursor < from ==> r == Lines(from, if to - from > 200 then from + 200 else to))
            && (from <= cursor < to ==> r == Lines(cursor + 1, if to - cursor > 201 then cursor + 201 else to))
  {
    hide Filter;
    var all := Lines(from, to);
    if cursor == 0 {
      FilterAll(all, Matching(GUI_CLIENT.q));
    } else if cursor < from {
      FilterAll(all, After(cursor, GUI_CLIENT.q));
    } else if cursor < to {
      FilterDrop(all, cursor + 1 - from, GUI_CLIENT.q);
      assert all[cursor + 1 - from..] == Lines(cursor + 1, to);
    }
  }

  lemma Asks(g: Page, from: nat, to: nat, cursor: nat, logs: seq<Entry>, flight: map<nat, Request>, id: nat)
    returns (h: Page)
    requires Reached(g) && Stands(g, from, to, cursor, logs, flight) && id !in flight
    ensures Reached(h) && Stands(h, from, to, cursor, logs, flight[id := Asked(Cursor(cursor), g.base)])
    ensures h.base == g.base && h.answers == g.answers
  {
    ReachedNext(g, Ask(id));
    h := Next(g, Ask(id));
  }

  lemma AnswersIt(g: Page, from: nat, to: nat, cursor: nat, logs: seq<Entry>, flight: map<nat, Request>, id: nat)
    returns (h: Page)
    requires Reached(g) && Stands(g, from, to, cursor, logs, flight) && id in flight && flight[id].Asked?
    ensures Reached(h)
    ensures var f := flight[id];
            Stands(h, from, to, cursor, logs,
                   flight[id := Answered(f.since, f.base, Reply(g.hub, f.since, GUI_CLIENT.limit, GUI_CLIENT.q),
                                         LatestSeq(g.hub), g.answers)])
    ensures h.base == g.base && h.answers == g.answers + 1
  {
    ReachedNext(g, Answer(id));
    h := Next(g, Answer(id));
  }

  /** A short and recent list is not pruned. */
  lemma NotPruned(logs: seq<Entry>)
    requires |logs| <= KEPT && forall l :: l in logs ==> l.ts >= 0
    ensures Pruned(logs, 0) == logs
  {
    FilterAll(logs, Recent(0 - DAY_S));
  }

  lemma Arrives(g: Page, from: nat, to: nat, cursor: nat, logs: seq<Entry>, flight: map<nat, Request>, id: nat,
                more: seq<Entry>)
    returns (h: Page)
    requires Reached(g) && Stands(g, from, to, cursor, logs, flight) && id in flight && flight[id].Answered?
    requires AddNew(logs, flight[id].reply) == more && |more| <= KEPT && forall l :: l in more ==> l.ts >= 0
    ensures Reached(h)
    ensures Stands(h, from, to, NextLogCursor(cursor, flight[id].reply, flight[id].latest), more, flight - {id})
    ensures h.answers == g.answers
  {
    ReachedNext(g, Arrive(id, 0));
    NotPruned(more);
    h := Next(g, Arrive(id, 0));
  }

  /** Two requests, one line: both replies bring it, and the duplicate check drops the
      second. */
  lemma TheCheckDrops() returns (g: Page, s: Step)
    ensures Reached(g) && s.Arrive? && Enabled(g, s) && g.flight[s.id].reply == [Line(1)]
    ensures AddNew(g.logs, g.flight[s.id].reply) == g.logs == [Line(1)]
  {
    hide Reached, Next, Reply;
    ReachedFresh();
    Answers(1, 2, 0);
    assert Lines(1, 2) == [Line(1)];
    var h := PushLines(FRESH, 1, 1, 0, [], map[], 1);
    h := Asks(h, 1, 2, 0, [], map[], 0);
    h := Asks(h, 1, 2, 0, [], h.flight, 1);
    h := AnswersIt(h, 1, 2, 0, [], h.flight, 0);
    h := AnswersIt(h, 1, 2, 0, [], h.flight, 1);
    assert AddNew([], [Line(1)]) == [Line(1)];
    g := Arrives(h, 1, 2, 0, [], h.flight, 0, [Line(1)]);
    s := Arrive(1, 0);
    assert Known([Line(1)], Line(1));
  }

  lemma ListsAll(logs: seq<Entry>, from: nat, to: nat)
    requires 0 < from <= to && forall l :: l in logs ==> l.number < from
    ensures AddNew(logs, Lines(from, to)) == logs + Lines(from, to)
  {
    DuplicateCheckDropsNothing(logs, Lines(from, to), from - 1);
  }

  /** A line behind newer ones. */
  lemma ListsBehind(from: nat, to: nat, n: nat)
    requires 1 < n < from < to
    ensures var logs := [Line(1)] + Lines(from, to);
            && InOrder(logs) && AddNew(logs, [Line(n)]) == logs + [Line(n)] && !InOrder(logs + [Line(n)])
  {
    var logs := [Line(1)] + Lines(from, to);
    assert !Known(logs, Line(n));
    assert AddNew(logs + [Line(n)], []) == logs + [Line(n)];
    SnocIs(logs, Line(n));
    assert logs[1] == Line(from) && !Before(Line(from), Line(n));
  }

  /** A reply overtaken: the page asks after line 1 and line 2 is answered; line 2 leaves
      the ring before the next request is answered, whose reply is there first. Line 2 then
      stands behind line 3. */
  lemma OvertakenReply() returns (g: Page, s: Step)
    ensures Reached(g) && s.Arrive? && Enabled(g, s) && InOrder(g.logs)
    ensures AddNew(g.logs, g.flight[s.id].reply) == [Line(1)] + Lines(3, 203) + [Line(2)]
    ensures !InOrder(AddNew(g.logs, g.flight[s.id].reply))
  {
    hide Reached, Next, Reply, AddNew, InOrder;
    ReachedFresh();
    var h := PushLines(FRESH, 1, 1, 0, [], map[], 1);
    h := Asks(h, 1, 2, 0, [], map[], 0);
    Answers(1, 2, 0);
    h := AnswersIt(h, 1, 2, 0, [], h.flight, 0);
    ListsAll([], 1, 2);
    h := Arrives(h, 1, 2, 0, [], h.flight, 0, [Line(1)]);
    h := PushLines(h, 1, 2, 1, [Line(1)], h.flight, 1);
    h := Asks(h, 1, 3, 1, [Line(1)], h.flight, 1);
    Answers(1, 3, 1);
    h := AnswersIt(h, 1, 3, 1, [Line(1)], h.flight, 1);
    h := PushLines(h, 1, 3, 1, [Line(1)], h.flight, 2000);
    h := Asks(h, 3, 2003, 1, [Line(1)], h.flight, 2);
    Answers(3, 2003, 1);
    h := AnswersIt(h, 3, 2003, 1, [Line(1)], h.flight, 2);
    ListsAll([Line(1)], 3, 203);
    g := Arrives(h, 3, 2003, 1, [Line(1)], h.flight, 2, [Line(1)] + Lines(3, 203));
    s := Arrive(1, 0);
    assert Lines(2, 3) == [Line(2)];
    ListsBehind(3, 203, 2);
  }

  lemma TwoFirstAnswers() returns (g: Page)
    ensures Reached(g)
    ensures Stands(g, 1, 203, 0, [], map[0 := Answered(None, 0, Lines(1, 2), 1, 0),
                                         1 := Answered(None, 0, Lines(3, 203), 202, 1)])
  {
    hide Reached, Next, Reply;
    ReachedFresh();
    var h := Asks(FRESH, 1, 1, 0, [], map[], 0);
    h := Asks(h, 1, 1, 0, [], h.flight, 1);
    h := PushLines(h, 1, 1, 0, [], h.flight, 1);
    Answers(1, 2, 0);
    h := AnswersIt(h, 1, 2, 0, [], h.flight, 0);
    h := PushLines(h, 1, 2, 0, [], h.flight, 201);
    Answers(1, 203, 0);
    g := AnswersIt(h, 1, 203, 0, [], h.flight, 1);
  }

  /** A second start: two requests before there is a cursor, and 201 lines between their
      answers. Line 2 is in the ring, was not pruned, and is never shown. */
  lemma SecondStartSkips(more: seq<Step>) returns (g: Page)
    ensures Reached(g) && Line(2) in g.hub.entries && 2 !in g.pruned && g.cursor == 202 && g.flight == map[]
    ensures Possible(g, more) && |more| < 1000 ==> Line(2) !in Run(g, more).logs
  {
    hide Reached, Next, Reply, AddNew, Run, Possible;
    var h := TwoFirstAnswers();
    ListsAll([], 1, 2);
    h := Arrives(h, 1, 203, 0, [], h.flight, 0, Lines(1, 2));
    ListsAll(Lines(1, 2), 3, 203);
    g := Arrives(h, 1, 203, 1, Lines(1, 2), h.flight, 1, Lines(1, 2) + Lines(3, 203));
    assert g.hub.entries[1] == Line(2);
    if Possible(g, more) && |more| < 1000 { PastIsPast(g, 2, more); }
  }

  lemma ListsOlder(from: nat, to: nat, n: nat)
    requires 0 < n < from < to
    ensures var logs := Lines(from, to);
            && InOrder(logs) && AddNew(logs, [Line(n)]) == logs + [Line(n)] && !InOrder(logs + [Line(n)])
  {
    var logs := Lines(from, to);
    assert !Known(logs, Line(n));
    assert AddNew(logs + [Line(n)], []) == logs + [Line(n)];
    SnocIs(logs, Line(n));
    assert logs[0] == Line(from) && !Before(Line(from), Line(n));
  }

  /** The same two answers the other way round: the older line is listed behind. */
  lemma SecondStartReorders() returns (g: Page, s: Step)
    ensures Reached(g) && s.Arrive? && Enabled(g, s) && StartsAnew(g, s) && InOrder(g.logs)
    ensures AddNew(g.logs, g.flight[s.id].reply) == Lines(3, 203) + [Line(1)]
    ensures !InOrder(AddNew(g.logs, g.flight[s.id].reply))
  {
    hide Reached, Next, Reply, AddNew, InOrder;
    var h := TwoFirstAnswers();
    ListsAll([], 3, 203);
    assert [] + Lines(3, 203) == Lines(3, 203);
    g := Arrives(h, 1, 203, 0, [], h.flight, 1, Lines(3, 203));
    s := Arrive(0, 0);
    assert Lines(1, 2) == [Line(1)];
    ListsOlder(3, 203, 1);
  }
}
