/** The record parser of the trace analyser (firmware/tools/he_replay.c, `main`):
    a stream of 38-byte frame records and 42-byte statistics records, resynchronised
    byte by byte, with lost frames counted from 16-bit sequence numbers. */
module TraceParser {
  import opened Options
  import Retrace

  type Byte = x: int | 0 <= x < 0x100
  type Word = x: int | 0 <= x < 0x1_0000
  type Long = x: int | 0 <= x < 0x1_0000_0000

  const CONVS := 16
  const REC_BYTES := 6 + CONVS * 2
  const STATS_BYTES := 2 + 10 * 4

  /** What the parser makes of the bytes at one position. */
  datatype Item =
    | Frame(sequence: Word, dropped: Word, convs: seq<Word>)
    | Stats(counters: seq<Long>)
    | Skip(b: Byte)
  {
    /** A record as the pad writes it: sixteen conversions, ten counters. */
    predicate WellFormed() {
      match this
      case Frame(_, _, convs) => |convs| == CONVS
      case Stats(counters) => |counters| == 10
      case Skip(_) => true
    }

    function Size(): nat {
      match this
      case Frame(_, _, _) => REC_BYTES
      case Stats(_) => STATS_BYTES
      case Skip(_) => 1
    }
  }

  // ---- Little-endian fields -------------------------------------------------

  function Rd16(p: seq<Byte>, i: nat): Word
    requires i + 2 <= |p|
  {
    var lo: int, hi: int := p[i], p[i + 1];
    lo + hi * 0x100
  }

  function Rd32(p: seq<Byte>, i: nat): Long
    requires i + 4 <= |p|
  {
    var lo: int, hi: int := Rd16(p, i), Rd16(p, i + 2);
    lo + hi * 0x1_0000
  }

  function Wr16(w: Word): seq<Byte> {
    [w % 0x100, w / 0x100]
  }

  function Wr32(l: Long): seq<Byte> {
    Wr16(l % 0x1_0000) + Wr16(l / 0x1_0000)
  }

  function Words(p: seq<Byte>, i: nat, n: nat): (ws: seq<Word>)
    requires i + 2 * n <= |p|
    ensures |ws| == n
    ensures forall k :: 0 <= k < n ==> ws[k] == Rd16(p, i + 2 * k)
  {
    seq(n, k requires 0 <= k < n => Rd16(p, i + 2 * k))
  }

  function Longs(p: seq<Byte>, i: nat, n: nat): (ls: seq<Long>)
    requires i + 4 * n <= |p|
    ensures |ls| == n
    ensures forall k :: 0 <= k < n ==> ls[k] == Rd32(p, i + 4 * k)
  {
    seq(n, k requires 0 <= k < n => Rd32(p, i + 4 * k))
  }

  lemma WordsCons(p: seq<Byte>, i: nat, n: nat)
    requires 0 < n && i + 2 * n <= |p|
    ensures Words(p, i, n) == [Rd16(p, i)] + Words(p, i + 2, n - 1)
  {}

  function PutWords(ws: seq<Word>): (p: seq<Byte>)
    ensures |p| == 2 * |ws|
  {
    if ws == [] then [] else Wr16(ws[0]) + PutWords(ws[1..])
  }

  lemma LongsCons(p: seq<Byte>, i: nat, n: nat)
    requires 0 < n && i + 4 * n <= |p|
    ensures Longs(p, i, n) == [Rd32(p, i)] + Longs(p, i + 4, n - 1)
  {}

  function PutLongs(ls: seq<Long>): (p: seq<Byte>)
    ensures |p| == 4 * |ls|
  {
    if ls == [] then [] else Wr32(ls[0]) + PutLongs(ls[1..])
  }

  // ---- Records --------------------------------------------------------------

  predicate IsFrameAt(buf: seq<Byte>, i: nat) {
    i + REC_BYTES <= |buf| && buf[i] == 0xA5 && buf[i + 1] == 0x5A
  }

  predicate IsStatsAt(buf: seq<Byte>, i: nat) {
    i + STATS_BYTES <= |buf| && buf[i] == 0xA5 && buf[i + 1] == 0x5B
  }

  /** The item the parser reads at `i`, in the order its branches test. */
  function ItemAt(buf: seq<Byte>, i: nat): (it: Item)
    requires i + 1 < |buf|
    ensures it.WellFormed() && i + it.Size() <= |buf|
  {
    if IsFrameAt(buf, i) then Frame(Rd16(buf, i + 2), Rd16(buf, i + 4), Words(buf, i + 6, CONVS))
    else if IsStatsAt(buf, i) then Stats(Longs(buf, i + 2, 10))
    else Skip(buf[i])
  }

  function ParseFrom(buf: seq<Byte>, i: nat): (items: seq<Item>)
    requires i <= |buf|
    decreases |buf| - i
  {
    if i + 1 >= |buf| then []
    else [ItemAt(buf, i)] + ParseFrom(buf, i + ItemAt(buf, i).Size())
  }

  function Encode(it: Item): (p: seq<Byte>)
    ensures it.WellFormed() ==> |p| == it.Size()
  {
    match it
    case Frame(s, d, convs) => [0xA5, 0x5A] + Wr16(s) + Wr16(d) + PutWords(convs)
    case Stats(counters) => [0xA5, 0x5B] + PutLongs(counters)
    case Skip(b) => [b]
  }

  function EncodeAll(items: seq<Item>): seq<Byte> {
    if items == [] then [] else Encode(items[0]) + EncodeAll(items[1..])
  }

  // ---- Encoding is the parser's inverse -------------------------------------

  lemma {:induction false} WordsBack(p: seq<Byte>, i: nat, n: nat)
    requires i + 2 * n <= |p|
    ensures PutWords(Words(p, i, n)) == p[i..i + 2 * n]
    decreases n
  {
    if n > 0 {
      WordsBack(p, i + 2, n - 1);
      WordsCons(p, i, n);
      assert Words(p, i, n)[1..] == Words(p, i + 2, n - 1);
      assert Wr16(Rd16(p, i)) == p[i..i + 2];
      assert p[i..i + 2 * n] == p[i..i + 2] + p[i + 2..i + 2 * n];
    }
  }

  lemma Wr32Back(p: seq<Byte>, i: nat)
    requires i + 4 <= |p|
    ensures Wr32(Rd32(p, i)) == p[i..i + 4]
  {
    assert Rd32(p, i) % 0x1_0000 == Rd16(p, i) && Rd32(p, i) / 0x1_0000 == Rd16(p, i + 2);
    assert Wr16(Rd16(p, i)) == p[i..i + 2];
    assert Wr16(Rd16(p, i + 2)) == p[i + 2..i + 4];
  }

  lemma {:induction false} LongsBack(p: seq<Byte>, i: nat, n: nat)
    requires i + 4 * n <= |p|
    ensures PutLongs(Longs(p, i, n)) == p[i..i + 4 * n]
    decreases n
  {
    if n > 0 {
      LongsBack(p, i + 4, n - 1);
      LongsCons(p, i, n);
      assert Longs(p, i, n)[1..] == Longs(p, i + 4, n - 1);
      Wr32Back(p, i);
      assert p[i..i + 4 * n] == p[i..i + 4] + p[i + 4..i + 4 * n];
    }
  }

  lemma FrameBack(buf: seq<Byte>, i: nat)
    requires IsFrameAt(buf, i)
    ensures Encode(ItemAt(buf, i)) == buf[i..i + REC_BYTES]
  {
    WordsBack(buf, i + 6, CONVS);
    assert Wr16(Rd16(buf, i + 2)) == buf[i + 2..i + 4];
    assert Wr16(Rd16(buf, i + 4)) == buf[i + 4..i + 6];
    assert buf[i..i + REC_BYTES] ==
           [0xA5, 0x5A] + buf[i + 2..i + 4] + buf[i + 4..i + 6] + buf[i + 6..i + REC_BYTES];
  }

  lemma StatsBack(buf: seq<Byte>, i: nat)
    requires IsStatsAt(buf, i)
    ensures Encode(ItemAt(buf, i)) == buf[i..i + STATS_BYTES]
  {
    LongsBack(buf, i + 2, 10);
    assert buf[i..i + STATS_BYTES] == [0xA5, 0x5B] + buf[i + 2..i + STATS_BYTES];
  }

  /** Writing back what was read gives the bytes that were read. */
  lemma ItemBack(buf: seq<Byte>, i: nat)
    requires i + 1 < |buf|
    ensures Encode(ItemAt(buf, i)) == buf[i..i + ItemAt(buf, i).Size()]
  {
    if IsFrameAt(buf, i) { FrameBack(buf, i); } else if IsStatsAt(buf, i) { StatsBack(buf, i); }
  }

  lemma PartitionStep(buf: seq<Byte>, i: nat, next: nat, it: Item, rest: seq<Item>, end: nat)
    requires i < next <= end <= |buf|
    requires Encode(it) == buf[i..next] && EncodeAll(rest) == buf[next..end]
    ensures EncodeAll([it] + rest) == buf[i..end]
  {
    hide Encode;
    assert ([it] + rest)[0] == it && ([it] + rest)[1..] == rest;
    assert buf[i..end] == buf[i..next] + buf[next..end];
  }

  /** Where parsing from `i` stops: at the end, or one byte before it. */
  function ReadTo(buf: seq<Byte>, i: nat): (end: nat)
    requires i <= |buf|
    ensures i <= end && |buf| - 1 <= end <= |buf|
    decreases |buf| - i
  {
    if i + 1 >= |buf| then i else ReadTo(buf, i + ItemAt(buf, i).Size())
  }

  /** No byte is lost or read twice: the parsed items, written back, are the
      whole buffer, or all of it but one final byte. */
  lemma {:induction false} ParseIsAPartition(buf: seq<Byte>, i: nat)
    requires i <= |buf|
    ensures EncodeAll(ParseFrom(buf, i)) == buf[i..ReadTo(buf, i)]
    decreases |buf| - i
  {
    if i + 1 < |buf| {
      var it := ItemAt(buf, i);
      var next := i + it.Size();
      ItemBack(buf, i);
      ParseIsAPartition(buf, next);
      PartitionStep(buf, i, next, it, ParseFrom(buf, next), ReadTo(buf, next));
    }
  }

  function Frames(items: seq<Item>): nat {
    if items == [] then 0 else (if items[0].Frame? then 1 else 0) + Frames(items[1..])
  }

  function StatsRecords(items: seq<Item>): nat {
    if items == [] then 0 else (if items[0].Stats? then 1 else 0) + StatsRecords(items[1..])
  }

  function Skipped(items: seq<Item>): nat {
    if items == [] then 0 else (if items[0].Skip? then 1 else 0) + Skipped(items[1..])
  }

  /** Byte accounting: what the counters add up to is the buffer's size, or one
      less when a single last byte is left unread. */
  lemma {:induction false} ByteAccounting(buf: seq<Byte>, i: nat)
    requires i <= |buf|
    ensures var items := ParseFrom(buf, i);
            var read := REC_BYTES * Frames(items) + STATS_BYTES * StatsRecords(items) + Skipped(items);
            read == |buf| - i || (read == |buf| - i - 1 && i < |buf|)
    decreases |buf| - i
  {
    if i + 1 < |buf| {
      var next := i + ItemAt(buf, i).Size();
      ByteAccounting(buf, next);
      assert ParseFrom(buf, i)[1..] == ParseFrom(buf, next);
    }
  }

  /** Two pieces that stand together at `i` stand there one after the other. */
  lemma SplitSlice<T>(p: seq<T>, i: nat, a: seq<T>, b: seq<T>)
    requires i + |a| + |b| <= |p| && p[i..i + |a| + |b|] == a + b
    ensures p[i..i + |a|] == a && p[i + |a|..i + |a| + |b|] == b
  {
    var q := p[i..i + |a| + |b|];
    assert q[..|a|] == a && q[|a|..] == b;
  }

  lemma {:induction false} WordsOf(p: seq<Byte>, i: nat, ws: seq<Word>)
    requires i + 2 * |ws| <= |p| && p[i..i + 2 * |ws|] == PutWords(ws)
    ensures Words(p, i, |ws|) == ws
    decreases |ws|
  {
    if ws != [] {
      SplitSlice(p, i, Wr16(ws[0]), PutWords(ws[1..]));
      Rd16Of(p, i, ws[0]);
      WordsOf(p, i + 2, ws[1..]);
      WordsCons(p, i, |ws|);
    }
  }

  lemma Rd16Of(p: seq<Byte>, i: nat, w: Word)
    requires i + 2 <= |p| && p[i..i + 2] == Wr16(w)
    ensures Rd16(p, i) == w
  {
    var q := p[i..i + 2];
    assert q[0] == p[i] && q[1] == p[i + 1];
  }

  lemma Rd32Of(p: seq<Byte>, i: nat, l: Long)
    requires i + 4 <= |p| && p[i..i + 4] == Wr32(l)
    ensures Rd32(p, i) == l
  {
    SplitSlice(p, i, Wr16(l % 0x1_0000), Wr16(l / 0x1_0000));
    Rd16Of(p, i, l % 0x1_0000);
    Rd16Of(p, i + 2, l / 0x1_0000);
  }

  lemma {:induction false} LongsOf(p: seq<Byte>, i: nat, ls: seq<Long>)
    requires i + 4 * |ls| <= |p| && p[i..i + 4 * |ls|] == PutLongs(ls)
    ensures Longs(p, i, |ls|) == ls
    decreases |ls|
  {
    if ls != [] {
      SplitSlice(p, i, Wr32(ls[0]), PutLongs(ls[1..]));
      Rd32Of(p, i, ls[0]);
      LongsOf(p, i + 4, ls[1..]);
      LongsCons(p, i, |ls|);
    }
  }

  /** The bytes of one record stand at `i`. */
  ghost predicate WrittenAt(buf: seq<Byte>, i: nat, it: Item) {
    i + |Encode(it)| <= |buf| && buf[i..i + |Encode(it)|] == Encode(it)
  }

  lemma FrameReadBack(buf: seq<Byte>, i: nat, it: Item)
    requires it.WellFormed() && it.Frame? && WrittenAt(buf, i, it)
    ensures ItemAt(buf, i) == it
  {
    var head := [0xA5, 0x5A] + Wr16(it.sequence) + Wr16(it.dropped);
    SplitSlice(buf, i, head, PutWords(it.convs));
    SplitSlice(buf, i, [0xA5, 0x5A] + Wr16(it.sequence), Wr16(it.dropped));
    SplitSlice(buf, i, [0xA5, 0x5A], Wr16(it.sequence));
    Rd16Of(buf, i + 2, it.sequence);
    Rd16Of(buf, i + 4, it.dropped);
    WordsOf(buf, i + 6, it.convs);
    assert buf[i..i + 2][0] == buf[i] && buf[i..i + 2][1] == buf[i + 1];
  }

  lemma StatsReadBack(buf: seq<Byte>, i: nat, it: Item)
    requires it.WellFormed() && it.Stats? && WrittenAt(buf, i, it)
    ensures ItemAt(buf, i) == it
  {
    SplitSlice(buf, i, [0xA5, 0x5B], PutLongs(it.counters));
    LongsOf(buf, i + 2, it.counters);
    assert buf[i..i + 2][0] == buf[i] && buf[i..i + 2][1] == buf[i + 1];
  }

  /** A record written anywhere in a buffer is read there as itself. */
  lemma RecordReadBack(buf: seq<Byte>, i: nat, it: Item)
    requires it.WellFormed() && !it.Skip? && WrittenAt(buf, i, it)
    ensures ItemAt(buf, i) == it
  {
    if it.Frame? { FrameReadBack(buf, i, it); } else { StatsReadBack(buf, i, it); }
  }

  ghost predicate AllRecords(records: seq<Item>) {
    forall k :: 0 <= k < |records| ==> records[k].WellFormed() && !records[k].Skip?
  }

  lemma ParseStep(buf: seq<Byte>, i: nat, it: Item, rest: seq<Item>)
    requires i + 1 < |buf| && ItemAt(buf, i) == it && ParseFrom(buf, i + it.Size()) == rest
    ensures ParseFrom(buf, i) == [it] + rest
  {}

  lemma SplitFirst(buf: seq<Byte>, i: nat, records: seq<Item>)
    requires AllRecords(records) && records != []
    requires i <= |buf| && buf[i..] == EncodeAll(records)
    ensures var next := i + records[0].Size();
            && WrittenAt(buf, i, records[0])
            && i + 1 < next <= |buf| && buf[next..] == EncodeAll(records[1..])
    ensures records[0].WellFormed() && !records[0].Skip? && AllRecords(records[1..])
  {
    assert |buf[i..]| == |buf| - i && buf[i..] == buf[i..|buf|];
    assert |Encode(records[0])| == records[0].Size();
    SplitSlice(buf, i, Encode(records[0]), EncodeAll(records[1..]));
  }

  /** Round trip: any records, written one after another from `i` to the end of
      the buffer, are read back as exactly those records with nothing skipped. */
  lemma {:induction false} RecordsRoundTrip(buf: seq<Byte>, i: nat, records: seq<Item>)
    requires AllRecords(records)
    requires i <= |buf| && buf[i..] == EncodeAll(records)
    ensures ParseFrom(buf, i) == records
    decreases |records|
  {
    hide Encode, EncodeAll, ItemAt, ParseFrom, WrittenAt, AllRecords;
    if records == [] {
      NothingToRead(buf, i);
    } else {
      var it, rest := records[0], records[1..];
      SplitFirst(buf, i, records);
      RecordReadBack(buf, i, it);
      RecordsRoundTrip(buf, i + it.Size(), rest);
      ParseStep(buf, i, it, rest);
      assert records == [it] + rest;
    }
  }

  lemma NothingToRead(buf: seq<Byte>, i: nat)
    requires i <= |buf| && buf[i..] == EncodeAll([])
    ensures ParseFrom(buf, i) == []
  {
    assert |buf[i..]| == |buf| - i;
  }

  function Skips(noise: seq<Byte>): seq<Item> {
    if noise == [] then [] else [Skip(noise[0])] + Skips(noise[1..])
  }

  /** Leading noise without the 0xA5 marker is skipped byte by byte and costs
      no record that follows. */
  lemma {:induction false} NoiseThenRecords(buf: seq<Byte>, i: nat, noise: seq<Byte>, records: seq<Item>)
    requires AllRecords(records) && records != []
    requires forall k :: 0 <= k < |noise| ==> noise[k] != 0xA5
    requires i <= |buf| && buf[i..] == noise + EncodeAll(records)
    ensures ParseFrom(buf, i) == Skips(noise) + records
    decreases |noise|
  {
    hide Encode, EncodeAll, ItemAt, ParseFrom, Skips;
    var after := EncodeAll(records);
    if noise == [] {
      assert noise + after == after;
      RecordsRoundTrip(buf, i, records);
      SkipsFrom([], records);
    } else {
      EncodedIsLong(records);
      NoiseSkipped(buf, i, noise, after);
      NoiseThenRecords(buf, i + 1, noise[1..], records);
      ParseStep(buf, i, Skip(noise[0]), Skips(noise[1..]) + records);
      SkipsFrom(noise, records);
    }
  }

  lemma SkipsFrom(noise: seq<Byte>, items: seq<Item>)
    ensures noise == [] ==> Skips(noise) + items == items
    ensures noise != [] ==> Skips(noise) + items == [Skip(noise[0])] + (Skips(noise[1..]) + items)
  {}

  lemma EncodedIsLong(records: seq<Item>)
    requires AllRecords(records) && records != []
    ensures |EncodeAll(records)| >= 2
  {
    assert |Encode(records[0])| == records[0].Size();
  }

  lemma NoiseSkipped(buf: seq<Byte>, i: nat, noise: seq<Byte>, after: seq<Byte>)
    requires i <= |buf| && buf[i..] == noise + after && noise != [] && noise[0] != 0xA5
    ensures i + 1 + |after| <= |buf| && buf[i + 1..] == noise[1..] + after
    ensures |after| > 0 ==> ItemAt(buf, i) == Skip(noise[0])
  {
    var left := buf[i..];
    assert |left| == |buf| - i && left[0] == buf[i] && left[1..] == buf[i + 1..];
  }

  // ---- Lost frames ----------------------------------------------------------

  /** The sequence numbers of the frames, in order. */
  function Seqs(items: seq<Item>): seq<int> {
    if items == [] then []
    else (if items[0].Frame? then [items[0].sequence] else []) + Seqs(items[1..])
  }

  /** What `lost` adds for two neighbouring frames: the 16-bit gap between them. */
  function Gap(prev: int, next: int): nat {
    (next - prev - 1) % 0x1_0000
  }

  function Lost(seqs: seq<int>): nat {
    if |seqs| < 2 then 0 else Lost(seqs[..|seqs| - 1]) + Gap(seqs[|seqs| - 2], seqs[|seqs| - 1])
  }

  /** Modulo 2^16, the frames lost and the frames seen add up to the distance
      from the first sequence number to the last. */
  lemma {:induction false} LostCongruence(seqs: seq<int>)
    requires |seqs| > 0
    ensures (Lost(seqs) + |seqs| - 1) % 0x1_0000 == (seqs[|seqs| - 1] - seqs[0]) % 0x1_0000
  {
    if |seqs| > 1 {
      var front := seqs[..|seqs| - 1];
      LostCongruence(front);
      var a, b := front[|front| - 1], seqs[|seqs| - 1];
      assert a == seqs[|seqs| - 2];
      GapCongruence(Lost(front) + |front| - 1, front[0], a, b);
    }
  }

  lemma GapCongruence(n: int, first: int, a: int, b: int)
    requires n % 0x1_0000 == (a - first) % 0x1_0000
    ensures (n + Gap(a, b) + 1) % 0x1_0000 == (b - first) % 0x1_0000
  {
    assert (n + Gap(a, b) + 1) % 0x1_0000 == (a - first + (b - a - 1) + 1) % 0x1_0000;
  }

  /** The pad numbers its frames 0, 1, 2, ...; `at` are the numbers of the frames
      that arrived. */
  ghost predicate Arrivals(at: seq<int>) {
    (forall k :: 0 <= k < |at| ==> 0 <= at[k]) && forall k :: 0 < k < |at| ==> at[k - 1] < at[k]
  }

  function Truncated(at: seq<int>): (s: seq<int>)
    ensures |s| == |at|
    ensures forall k :: 0 <= k < |at| ==> s[k] == at[k] % 0x1_0000
  {
    seq(|at|, k requires 0 <= k < |at| => at[k] % 0x1_0000)
  }

  ghost predicate NoLongGap(at: seq<int>) {
    forall k :: 0 < k < |at| ==> at[k] - at[k - 1] <= 0x1_0000
  }

  lemma GapIsExact(a: int, b: int)
    requires 0 <= a < b
    ensures Gap(a % 0x1_0000, b % 0x1_0000) <= b - a - 1
    ensures Gap(a % 0x1_0000, b % 0x1_0000) == b - a - 1 <==> b - a <= 0x1_0000
  {
    assert Gap(a % 0x1_0000, b % 0x1_0000) == (b - a - 1) % 0x1_0000;
  }

  lemma NoLongGapStep(at: seq<int>)
    requires |at| > 1
    ensures NoLongGap(at) <==> NoLongGap(at[..|at| - 1]) && at[|at| - 1] - at[|at| - 2] <= 0x1_0000
  {
    var front := at[..|at| - 1];
    if NoLongGap(front) && at[|at| - 1] - at[|at| - 2] <= 0x1_0000 {
      forall k | 0 < k < |at| ensures at[k] - at[k - 1] <= 0x1_0000 {
        if k < |front| { assert front[k] - front[k - 1] <= 0x1_0000; }
      }
    }
    if NoLongGap(at) {
      forall k | 0 < k < |front| ensures front[k] - front[k - 1] <= 0x1_0000 {
        assert at[k] - at[k - 1] <= 0x1_0000;
      }
    }
  }

  /** The 16-bit count never overstates the loss, and is the number of frames
      truly lost exactly when no two neighbours are more than 2^16 frames apart. */
  lemma {:induction false} LostIsExact(at: seq<int>)
    requires |at| > 0 && Arrivals(at)
    ensures Lost(Truncated(at)) <= at[|at| - 1] - at[0] - (|at| - 1)
    ensures Lost(Truncated(at)) == at[|at| - 1] - at[0] - (|at| - 1) <==> NoLongGap(at)
  {
    if |at| > 1 {
      var n := |at| - 1;
      LostIsExact(at[..n]);
      assert Truncated(at)[..n] == Truncated(at[..n]);
      GapIsExact(at[n - 1], at[n]);
      NoLongGapStep(at);
    }
  }

  // ---- Readings and their estimates -----------------------------------------

  predicate BadConv(v: Word) { v / 0x4000 % 2 == 1 }

  function KeyOf(v: Word): nat { v / 0x8000 }

  /** One key's readings in a frame: its valid conversions, at most eight. */
  function Readings(convs: seq<Word>, key: nat): (r: seq<int>)
    ensures |r| <= CONVS / 2
    ensures forall k :: 0 <= k < |r| ==> 0 <= r[k] < 0x1000
  {
    if convs == [] then []
    else
      var front := Readings(convs[..|convs| - 1], key);
      var v := convs[|convs| - 1];
      if !BadConv(v) && KeyOf(v) == key && |front| < CONVS / 2 then front + [v % 0x1000] else front
  }

  function BadConvs(convs: seq<Word>): nat {
    if convs == [] then 0
    else BadConvs(convs[..|convs| - 1]) + (if BadConv(convs[|convs| - 1]) then 1 else 0)
  }

  /** The reading a conversion holds for a key: bit 14 marks one that is not valid, bit 15 is
      the key, and twelve bits are the reading. */
  function Reads(v: Word, key: nat): seq<int> {
    if v % 0x8000 < 0x4000 && (v >= 0x8000 <==> key == 1) then [v % 0x1000] else []
  }

  /** Every valid conversion of a key in a frame, in order. */
  function Valid(convs: seq<Word>, key: nat): seq<int> {
    if convs == [] then [] else Reads(convs[0], key) + Valid(convs[1..], key)
  }

  lemma {:induction false} ValidSnoc(convs: seq<Word>, v: Word, key: nat)
    ensures Valid(convs + [v], key) == Valid(convs, key) + Reads(v, key)
  {
    hide Reads;
    if convs == [] {
      assert [] + [v] == [v];
      assert Valid([v][1..], key) == [];
    } else {
      ValidSnoc(convs[1..], v, key);
      assert (convs + [v])[1..] == convs[1..] + [v];
    }
  }

  lemma BitsOf(v: Word)
    ensures !BadConv(v) <==> v % 0x8000 < 0x4000
    ensures KeyOf(v) == if v >= 0x8000 then 1 else 0
  {}

  /** A key's readings are its first eight valid conversions. */
  lemma {:induction false} ReadingsAre(convs: seq<Word>, key: nat)
    requires key <= 1
    ensures Readings(convs, key) == Valid(convs, key)[..Min(|Valid(convs, key)|, 8)]
    decreases |convs|
  {
    if convs != [] {
      hide Valid;
      var n := |convs| - 1;
      var v, front := convs[n], Valid(convs[..n], key);
      ReadingsAre(convs[..n], key);
      ValidSnoc(convs[..n], v, key);
      assert convs[..n] + [v] == convs;
      assert Reads(v, key) == (if !BadConv(v) && KeyOf(v) == key then [v % 0x1000] else []) by { BitsOf(v); }
      assert (front + Reads(v, key))[..Min(|front|, 8)] == front[..Min(|front|, 8)];
    }
  }

  /** Every conversion is a valid one of either key, or bad. */
  lemma {:induction false} BadAreTheRest(convs: seq<Word>)
    ensures BadConvs(convs) + |Valid(convs, 0)| + |Valid(convs, 1)| == |convs|
    decreases |convs|
  {
    if convs != [] {
      var n := |convs| - 1;
      BadAreTheRest(convs[..n]);
      ValidSnoc(convs[..n], convs[n], 0);
      ValidSnoc(convs[..n], convs[n], 1);
      BitsOf(convs[n]);
      assert convs[..n] + [convs[n]] == convs;
    }
  }

  /** The three estimators: newest conversion, mean of the newest two, mean of all. */
  datatype Estimate = Estimate(newest: int, avg2: int, avg8: int)

  function EstimateOf(r: seq<int>): Estimate
    requires |r| > 0 && forall k :: 0 <= k < |r| ==> 0 <= r[k]
  {
    Retrace.SumNotNegative(r);
    var last := r[|r| - 1];
    Estimate(last,
             if |r| >= 2 then Retrace.AvgRound(last + r[|r| - 2], 2) else last,
             Retrace.AvgRound(Retrace.Sum(r), |r|))
  }

  /** Every estimate lies between the frame's least and greatest reading. */
  lemma EstimatesBetweenReadings(r: seq<int>)
    requires |r| > 0 && forall k :: 0 <= k < |r| ==> 0 <= r[k]
    ensures var lo, hi := Retrace.LoIn(r, 0, |r|), Retrace.HiIn(r, 0, |r|);
            var e := EstimateOf(r);
            lo <= e.newest <= hi && lo <= e.avg2 <= hi && lo <= e.avg8 <= hi
  {
    var lo, hi := Retrace.LoIn(r, 0, |r|), Retrace.HiIn(r, 0, |r|);
    var l := Retrace.LoAttained(r, 0, |r|);
    forall k | 0 <= k < |r| ensures lo <= r[k] <= hi {
      Retrace.HiAbove(r, 0, |r|, k);
      Retrace.LoBelow(r, 0, |r|, k);
    }
    Retrace.AvgRoundBetween(r, lo, hi);
    assert lo <= r[|r| - 1] <= hi;
    if |r| >= 2 { assert lo <= r[|r| - 2] <= hi; }
  }

  /** Which readings they are: the newest, the mean of the two newest and that of all, each
      rounded to the nearest. */
  lemma EstimatesAre(r: seq<int>)
    requires |r| > 0 && forall k :: 0 <= k < |r| ==> 0 <= r[k]
    ensures var e := EstimateOf(r);
            var n := |r|;
            && e.newest == r[n - 1]
            && (n == 1 ==> e.avg2 == r[0])
            && (n >= 2 ==> e.avg2 * 2 in {r[n - 1] + r[n - 2], r[n - 1] + r[n - 2] + 1})
            && -n <= 2 * (Retrace.Sum(r) - e.avg8 * n) <= n
  {
    Retrace.SumNotNegative(r);
    Retrace.AvgRoundIsNearest(Retrace.Sum(r), |r|);
    if |r| >= 2 { Retrace.AvgRoundIsNearest(r[|r| - 1] + r[|r| - 2], 2); }
  }

  // ---- The parse loop -------------------------------------------------------

  datatype Totals = Totals(
    frames: nat, lost: nat, skipped: nat, badConvs: nat, dropped: Word,
    stats: Option<seq<Long>>, est0: seq<Estimate>, est1: seq<Estimate>)

  function Fold(items: seq<Item>): Totals {
    if items == [] then Totals(0, 0, 0, 0, 0, None, [], [])
    else var n := |items| - 1; Add(Fold(items[..n]), Seqs(items[..n]), items[n])
  }

  /** One more item on top of the totals; `seqs` are the frames' numbers so far. */
  function Add(t: Totals, seqs: seq<int>, it: Item): Totals {
    match it
    case Frame(s, d, convs) =>
      var lost := if seqs == [] then t.lost else t.lost + Gap(seqs[|seqs| - 1], s);
      Totals(t.frames + 1, lost, t.skipped, t.badConvs + BadConvs(convs), d, t.stats,
             t.est0 + Estimates(convs, 0), t.est1 + Estimates(convs, 1))
    case Stats(counters) => t.(stats := Some(counters))
    case Skip(_) => t.(skipped := t.skipped + 1)
  }

  function Estimates(convs: seq<Word>, key: nat): seq<Estimate> {
    var r := Readings(convs, key);
    if r == [] then [] else [EstimateOf(r)]
  }

  lemma {:induction false} SeqsAppend(items: seq<Item>, it: Item)
    ensures Seqs(items + [it]) == Seqs(items) + (if it.Frame? then [it.sequence] else [])
  {
    if items == [] {
      assert items + [it] == [it];
    } else {
      SeqsAppend(items[1..], it);
      assert (items + [it])[1..] == items[1..] + [it];
    }
  }

  lemma LostAppend(seqs: seq<int>, s: int)
    ensures Lost(seqs + [s]) == if seqs == [] then 0 else Lost(seqs) + Gap(seqs[|seqs| - 1], s)
  {
    assert (seqs + [s])[..|seqs|] == seqs;
  }

  lemma AddCounts(t: Totals, seqs: seq<int>, it: Item)
    requires t.lost == Lost(seqs) && t.frames == |seqs|
    ensures var seqs' := if it.Frame? then seqs + [it.sequence] else seqs;
            Add(t, seqs, it).lost == Lost(seqs') && Add(t, seqs, it).frames == |seqs'|
  {
    if it.Frame? { LostAppend(seqs, it.sequence); }
  }

  lemma FoldAppend(items: seq<Item>, it: Item)
    ensures Fold(items + [it]) == Add(Fold(items), Seqs(items), it)
  {
    assert (items + [it])[..|items|] == items;
  }

  lemma CountsStep(front: seq<Item>, it: Item)
    requires Fold(front).lost == Lost(Seqs(front)) && Fold(front).frames == |Seqs(front)|
    ensures Fold(front + [it]).lost == Lost(Seqs(front + [it]))
    ensures Fold(front + [it]).frames == |Seqs(front + [it])|
  {
    FoldAppend(front, it);
    SeqsAppend(front, it);
    AddCounts(Fold(front), Seqs(front), it);
    assert Seqs(front) + [] == Seqs(front);
  }

  /** The running totals are the counts over all items read: the frames, and
      the 16-bit gaps between neighbouring frames. */
  lemma {:induction false} FoldCounts(items: seq<Item>)
    ensures Fold(items).lost == Lost(Seqs(items))
    ensures Fold(items).frames == |Seqs(items)|
  {
    if items != [] {
      FoldCounts(items[..|items| - 1]);
      CountsStep(items[..|items| - 1], items[|items| - 1]);
      assert items == items[..|items| - 1] + [items[|items| - 1]];
    }
  }

  lemma {:induction false} SkippedAppend(items: seq<Item>, it: Item)
    ensures Skipped(items + [it]) == Skipped(items) + (if it.Skip? then 1 else 0)
  {
    if items == [] {
      assert items + [it] == [it];
    } else {
      SkippedAppend(items[1..], it);
      assert (items + [it])[1..] == items[1..] + [it];
    }
  }

  lemma {:induction false} FoldSkips(items: seq<Item>)
    ensures Fold(items).skipped == Skipped(items)
  {
    if items != [] {
      var front, it := items[..|items| - 1], items[|items| - 1];
      FoldSkips(front);
      SkippedAppend(front, it);
      FoldAppend(front, it);
      assert items == front + [it];
    }
  }

  lemma {:induction false} SeqsCountFrames(items: seq<Item>)
    ensures |Seqs(items)| == Frames(items)
  {
    if items != [] { SeqsCountFrames(items[1..]); }
  }

  /** What the printed totals mean for any byte buffer: they account for every
      byte but at most the last, and lost plus seen frames span the sequence
      numbers modulo 2^16. */
  lemma TotalsAccountForTheTrace(buf: seq<Byte>)
    ensures var items := ParseFrom(buf, 0);
            var t := Fold(items);
            var read := REC_BYTES * t.frames + STATS_BYTES * StatsRecords(items) + t.skipped;
            && (read == |buf| || read == |buf| - 1)
            && (t.frames > 0 ==>
                  var s := Seqs(items);
                  |s| == t.frames && (t.lost + t.frames - 1) % 0x1_0000 == (s[t.frames - 1] - s[0]) % 0x1_0000)
  {
    var items := ParseFrom(buf, 0);
    FoldCounts(items);
    FoldSkips(items);
    SeqsCountFrames(items);
    ByteAccounting(buf, 0);
    if Fold(items).frames > 0 { LostCongruence(Seqs(items)); }
  }

  /** What the frames of a trace come to, from the first on. */
  function Bads(items: seq<Item>): nat {
    if items == [] then 0
    else (if items[0].Frame? then BadConvs(items[0].convs) else 0) + Bads(items[1..])
  }

  function AllEstimates(items: seq<Item>, key: nat): seq<Estimate> {
    if items == [] then []
    else (if items[0].Frame? then Estimates(items[0].convs, key) else []) + AllEstimates(items[1..], key)
  }

  lemma {:induction false} SumsSnoc(items: seq<Item>, it: Item)
    ensures Bads(items + [it]) == Bads(items) + (if it.Frame? then BadConvs(it.convs) else 0)
    ensures forall key: nat ::
              AllEstimates(items + [it], key)
              == AllEstimates(items, key) + (if it.Frame? then Estimates(it.convs, key) else [])
  {
    hide Estimates, BadConvs;
    if items == [] {
      assert [] + [it] == [it] && [it][1..] == [];
      forall key: nat ensures AllEstimates([it], key) == if it.Frame? then Estimates(it.convs, key) else [] {
        assert AllEstimates([it][1..], key) == [];
      }
    } else {
      SumsSnoc(items[1..], it);
      assert (items + [it])[1..] == items[1..] + [it];
      forall key: nat ensures AllEstimates(items + [it], key)
        == AllEstimates(items, key) + (if it.Frame? then Estimates(it.convs, key) else [])
      {
        assert AllEstimates(items[1..] + [it], key)
            == AllEstimates(items[1..], key) + (if it.Frame? then Estimates(it.convs, key) else []);
      }
    }
  }

  /** The other totals: every bad conversion, each key's estimates frame by frame, the drop
      count of the last frame and the last counters record. */
  lemma {:induction false} TotalsAre(items: seq<Item>)
    ensures var t := Fold(items);
            && t.badConvs == Bads(items)
            && t.est0 == AllEstimates(items, 0) && t.est1 == AllEstimates(items, 1)
    ensures forall i :: 0 <= i < |items| && items[i].Frame? && (forall j :: i < j < |items| ==> !items[j].Frame?) ==>
              Fold(items).dropped == items[i].dropped
    ensures forall i :: 0 <= i < |items| && items[i].Stats? && (forall j :: i < j < |items| ==> !items[j].Stats?) ==>
              Fold(items).stats == Some(items[i].counters)
    decreases |items|
  {
    hide Estimates, BadConvs, Gap, Seqs;
    if items != [] {
      var n := |items| - 1;
      var front := items[..n];
      TotalsAre(front);
      SumsSnoc(front, items[n]);
      assert front + [items[n]] == items;
      forall i | 0 <= i < n && items[i].Frame? && (forall j :: i < j < |items| ==> !items[j].Frame?)
        ensures Fold(items).dropped == items[i].dropped
      {
        assert front[i] == items[i] && !items[n].Frame?;
        assert forall j :: i < j < n ==> front[j] == items[j];
      }
      forall i | 0 <= i < n && items[i].Stats? && (forall j :: i < j < |items| ==> !items[j].Stats?)
        ensures Fold(items).stats == Some(items[i].counters)
      {
        assert front[i] == items[i] && !items[n].Stats?;
        assert forall j :: i < j < n ==> front[j] == items[j];
      }
    }
  }

  /** One pass over a frame's conversions: each key's readings, and how many
      conversions were no valid key reading. */
  method ReadFrame(convs: seq<Word>) returns (bad: nat, vals0: seq<int>, vals1: seq<int>)
    ensures bad == BadConvs(convs)
    ensures vals0 == Readings(convs, 0) && vals1 == Readings(convs, 1)
  {
    bad, vals0, vals1 := 0, [], [];
    for c := 0 to |convs|
      invariant bad == BadConvs(convs[..c])
      invariant vals0 == Readings(convs[..c], 0) && vals1 == Readings(convs[..c], 1)
    {
      assert convs[..c + 1][..c] == convs[..c];
      var v := convs[c];
      if BadConv(v) {
        bad := bad + 1;
      } else if KeyOf(v) == 1 {
        if |vals1| < CONVS / 2 { vals1 := vals1 + [v % 0x1000]; }
      } else {
        if |vals0| < CONVS / 2 { vals0 := vals0 + [v % 0x1000]; }
      }
    }
    assert convs[..|convs|] == convs;
  }

  /** One frame's estimates for each key, none for a key it did not read. */
  method ReadEstimates(convs: seq<Word>) returns (bad: nat, e0: seq<Estimate>, e1: seq<Estimate>)
    ensures bad == BadConvs(convs)
    ensures e0 == Estimates(convs, 0) && e1 == Estimates(convs, 1)
  {
    var vals0, vals1;
    bad, vals0, vals1 := ReadFrame(convs);
    e0 := if vals0 == [] then [] else [EstimateOf(vals0)];
    e1 := if vals1 == [] then [] else [EstimateOf(vals1)];
  }

  /** What one frame record adds to the running totals. */
  method TakeFrame(t: Totals, it: Item, haveSeq: bool, lastSeq: int, ghost seqs: seq<int>)
    returns (t': Totals)
    requires it.Frame?
    requires haveSeq <==> seqs != []
    requires haveSeq ==> lastSeq == seqs[|seqs| - 1]
    ensures t' == Add(t, seqs, it)
  {
    var bad, e0, e1 := ReadEstimates(it.convs);
    var next: int := it.sequence;
    var lost := if haveSeq then t.lost + (next - lastSeq - 1) % 0x1_0000 else t.lost;
    t' := Totals(t.frames + 1, lost, t.skipped, t.badConvs + bad, it.dropped,
                 t.stats, t.est0 + e0, t.est1 + e1);
  }

  lemma ParseAdvance(buf: seq<Byte>, items: seq<Item>, i: nat)
    requires i + 1 < |buf| && ParseFrom(buf, 0) == items + ParseFrom(buf, i)
    ensures var it := ItemAt(buf, i); ParseFrom(buf, 0) == (items + [it]) + ParseFrom(buf, i + it.Size())
  {
    hide ItemAt, ParseFrom;
    var it := ItemAt(buf, i);
    ParseStep(buf, i, it, ParseFrom(buf, i + it.Size()));
    Regroup(items, it, ParseFrom(buf, i + it.Size()));
  }

  lemma Regroup<T>(a: seq<T>, x: T, b: seq<T>)
    ensures a + ([x] + b) == (a + [x]) + b
  {}

  /** The parse loop: an index over the buffer and running totals. */
  method Parse(buf: seq<Byte>) returns (t: Totals)
    ensures t == Fold(ParseFrom(buf, 0))
  {
    hide ParseFrom, Words, Longs, Rd16;
    t := Totals(0, 0, 0, 0, 0, None, [], []);
    ghost var items := [];
    assert items + ParseFrom(buf, 0) == ParseFrom(buf, 0);
    var i, haveSeq, lastSeq := 0, false, 0;
    while i + 1 < |buf|
      invariant 0 <= i <= |buf|
      invariant ParseFrom(buf, 0) == items + ParseFrom(buf, i)
      invariant t == Fold(items)
      invariant haveSeq <==> Seqs(items) != []
      invariant haveSeq ==> lastSeq == Seqs(items)[|Seqs(items)| - 1]
      decreases |buf| - i
    {
      var it := ItemAt(buf, i);
      ParseAdvance(buf, items, i);
      SeqsAppend(items, it);
      FoldAppend(items, it);
      if IsFrameAt(buf, i) {
        t := TakeFrame(t, it, haveSeq, lastSeq, Seqs(items));
        haveSeq, lastSeq := true, it.sequence;
        i := i + REC_BYTES;
      } else if IsStatsAt(buf, i) {
        t := t.(stats := Some(it.counters));
        i := i + STATS_BYTES;
      } else {
        t := t.(skipped := t.skipped + 1);
        i := i + 1;
      }
      items := items + [it];
    }
    assert ParseFrom(buf, i) == [] by { ParseEnds(buf, i); }
    assert items + [] == items;
  }

  lemma ParseEnds(buf: seq<Byte>, i: nat)
    requires i <= |buf| <= i + 1
    ensures ParseFrom(buf, i) == []
  {}
}
