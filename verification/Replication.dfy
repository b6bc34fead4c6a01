/** The pad's copy of the shown values, against everything between it and the
    daemon: the diff cache, the ordered queue of the device task, the queue of the
    serial worker, a link that refuses, loses and drops, and the repairs
    (desktop/daemon/src/telemetry.rs, device_actor.rs, main.rs, runtime.rs and
    desktop/crates/opad-device/src/lib.rs). */
module Replication {
  import opened Options
  import opened Counters
  import opened TapRate
  import opened Daemon
  import opened Telemetry
  import opened PadData
  import opened Runtime
  import opened DataSteps
  import DeviceActor

  /** The controller; the messages queued for the device task and for the serial
      worker; what the pad shows; the two flags that ask for a full resend; whether
      the link is up; and how many greetings (a pad that answered Hello) the daemon
      has yet to process. `broken` is kept for the statements alone: the sources that
      a turn broke, by `Overtaken` or `Withheld`, and no turn has sent since. */
  datatype World = World(
    c: Ctl, queue: seq<Msg>, wire: seq<Msg>, pad: Values,
    resend: bool, lost: bool, up: bool, greets: nat, broken: set<Source>) {

    /** Everything on its way, in order of arrival. */
    function Pipe(): seq<Msg> { wire + queue }
  }

  datatype Step =
    | Take(turn: Turn)
    | Send(answers: nat -> DeviceActor.Answer, partly: nat)
    | Arrive
    | WriteFails
    | OtherWriteFails
    | LinkLost(shows: Values)
    | LinkBack(shows: Values)
    | Reopened(shows: Values)
    | Lagged(hellos: nat)

  /** What others may do to the shared state between two events: anything but change
      the mode or tosu's presence, reconnect the pad, or make it foreign. */
  predicate OutsideWrite(before: DaemonState, after: DaemonState) {
    && after.mode == before.mode && after.tosuConnected == before.tosuConnected
    && (after.deviceConnected ==> before.deviceConnected) && (after.foreignPad ==> before.foreignPad)
  }

  predicate IsGreeting(e: Event) { e.DeviceConnected? && e.info.protocolVersion == DEVICE_PROTOCOL_VERSION }

  ghost predicate Enabled(w: World, s: Step) {
    match s
    case Take(t) => OutsideWrite(w.c.state, t.shared) && (t.event.DeviceConnected? ==> w.greets > 0)
    case Send(answers, _) =>
      w.queue != [] && (w.up ==> forall i :: answers(i) == DeviceActor.Sent || answers(i) == DeviceActor.Busy)
    case Arrive => w.wire != [] && w.up
    case WriteFails => w.wire != []
    case _ => true
  }

  /** The controller an event starts from: a tick first gives up what was marked sent
      when a resend is asked for or a message was lost. */
  function Prepared(w: World, t: Turn): Ctl {
    var c := Remember(w.c.(state := t.shared));
    if t.event.Tick? && (w.resend || w.lost) then c.(data := NothingSent(c.data)) else c
  }

  predicate Resets(w: World, e: Event) { (e.Tick? && (w.resend || w.lost)) || IsGreeting(e) }

  // ---- How a turn breaks a source ----------------------------------------------------------

  /** The pad is told that tosu is away, and will clear tosu's values and the attempt's. */
  predicate SaysAway(c: Ctl, e: Event) {
    !c.state.tosuConnected && c.state.deviceConnected && (e.OsuActiveChanged? || (e.Tick? && BeatDue(c, e.at)))
  }

  /** The tick's own flush, behind that status, sends a source because it changed. */
  predicate Resends(env: Env, c: Ctl, e: Event, k: Source) {
    && e.Tick? && TickFlushes(c)
    && FlushDue(c.data, c.state.mode == Playing, c.state.config.gameplayDisplayHz, false, e.at)
    && var latest := TickPlay(env, PlayOf(c), e.at).data.latest;
       k in latest && !(k in c.data.sent && c.data.sent[k] == latest[k])
  }

  /** A value marked sent will be cleared by a status queued behind it. */
  predicate Overtaken(env: Env, c: Ctl, e: Event, k: Source) {
    SaysAway(c, e) && Host(k) && k in c.data.sent && c.data.sent[k] != Clear && !Resends(env, c, e, k)
  }

  /** The frame starts an attempt with a pad connected, so that everything is flushed. */
  predicate StartsAttempt(c: Ctl, e: Event) {
    e.TosuTelemetry? && e.frame.isPlaying && NewAttempt(c, e.frame) && c.state.deviceConnected
  }

  /** What is known once such a frame has been worked through. */
  function KnownAtStart(env: Env, c: Ctl, f: Frame, now: int): Values {
    AttemptFrame(env, PlayOf(TakenIn(c, f)), f, true, now).data.latest
  }

  /** That flush is kept from a foreign pad, which neither shows the value nor has it on
      its way, while the cache marks it sent. */
  predicate Withheld(env: Env, pad: Values, pipe: seq<Msg>, c: Ctl, e: Event, now: int, k: Source) {
    && StartsAttempt(c, e) && c.state.foreignPad
    && var latest := KnownAtStart(env, c, e.frame, now);
       k in latest && !Holds(pad, pipe, k, latest[k])
  }

  predicate Breaks(env: Env, w: World, c: Ctl, t: Turn, k: Source) {
    Overtaken(env, c, t.event, k) || Withheld(env, w.pad, w.Pipe(), c, t.event, t.now, k)
  }

  predicate SentAgain(actions: seq<Action>, k: Source) {
    exists m :: m in Msgs(actions) && m.DataMsg? && Sets(m.update, k)
  }

  /** The broken sources after a turn: a repair, or tosu's loss, ends them all, a diff
      those it sends, and the turn may add some. */
  function BrokenAfter(env: Env, w: World, c: Ctl, t: Turn, o: Out): set<Source> {
    (if Resets(w, t.event) || t.event == TosuConnectionChanged(false) then {}
     else set k | k in w.broken && !SentAgain(o.actions, k))
    + (set k | k in o.c.data.sent && Breaks(env, w, c, t, k))
  }

  function Turned(env: Env, w: World, c: Ctl, t: Turn, o: Out): World {
    var tick := t.event.Tick?;
    w.(c := Settled(o.c), queue := w.queue + Msgs(o.actions),
       resend := !tick && w.resend, lost := !tick && w.lost,
       greets := if t.event.DeviceConnected? && w.greets > 0 then w.greets - 1 else w.greets,
       broken := BrokenAfter(env, w, c, t, o))
  }

  function Sent(w: World, answers: nat -> DeviceActor.Answer, partly: nat): World
    requires w.queue != []
  {
    var m := w.queue[0];
    var rest := w.queue[1..];
    var outcome := DeviceActor.Execution(m.DataMsg?, answers, 0);
    var parts := if m.DataMsg? then Chunks(m.update) else [m];
    if outcome.delivered then w.(queue := rest, wire := w.wire + parts)
    else w.(queue := rest, resend := w.resend || outcome.resend,
            wire := w.wire + (if m.DataMsg? then parts[..Min(partly, |parts|)] else []))
  }

  function Next(env: Env, w: World, s: Step): World
    requires Enabled(w, s)
  {
    match s
    case Take(t) =>
      var c := Prepared(w, t);
      Turned(env, w, c, t, OnEvent(env, c, t.event, t.now))
    case Send(answers, partly) => Sent(w, answers, partly)
    case Arrive => w.(wire := w.wire[1..], pad := Applied(w.pad, w.wire[0]))
    case WriteFails => w.(wire := w.wire[1..], lost := true)
    case OtherWriteFails => w.(lost := true)
    case LinkLost(shows) => w.(wire := [], pad := shows, up := false)
    case LinkBack(shows) => w.(pad := shows, up := true, greets := w.greets + 1)
    case Reopened(shows) => w.(pad := shows, greets := w.greets + 1)
    case Lagged(hellos) => w.(greets := hellos + 1)
  }

  // ---- The invariant -----------------------------------------------------------------------

  /** A reset of what was sent is sure to come before anything relies on it. */
  predicate RepairDue(w: World) {
    w.resend || w.lost || !w.up || w.greets > 0 || !w.c.state.deviceConnected
  }

  /** Source `k` is not marked sent, or its value is on the pad, or on its way and not
      overtaken. */
  predicate Agrees(sent: Values, pad: Values, pipe: seq<Msg>, k: Source) {
    k in sent ==> Holds(pad, pipe, k, sent[k])
  }

  ghost predicate Inv(w: World) {
    && SentWithinLatest(w.c.data)
    && (RepairDue(w) || forall k: Source :: k !in w.broken ==> Agrees(w.c.data.sent, w.pad, w.Pipe(), k))
  }

  // ---- The link's steps -----------------------------------------------------------------------

  lemma SendKeeps(w: World, answers: nat -> DeviceActor.Answer, partly: nat)
    requires Inv(w) && Enabled(w, Send(answers, partly))
    ensures Inv(Sent(w, answers, partly))
  {
    var w' := Sent(w, answers, partly);
    var m, rest := w.queue[0], w.queue[1..];
    DeviceActor.ExecutionIs(m.DataMsg?, answers, 0);
    if !RepairDue(w') {
      assert w.Pipe() == w.wire + [m] + rest;
      forall k: Source | k !in w.broken && k in w.c.data.sent
        ensures Holds(w.pad, w'.Pipe(), k, w.c.data.sent[k])
      {
        if m.DataMsg? {
          HoldsInChunks(w.pad, w.wire, m.update, rest, k, w.c.data.sent[k]);
        } else if DeviceActor.Execution(false, answers, 0).delivered {
          assert w'.Pipe() == w.wire + [m] + rest;
        } else {
          HoldsWithoutStatus(w.pad, w.wire, m.tosu, rest, k, w.c.data.sent[k]);
          assert w'.wire == w.wire;
        }
      }
    }
  }

  lemma ArriveKeeps(w: World)
    requires Inv(w) && w.wire != []
    ensures Inv(w.(wire := w.wire[1..], pad := Applied(w.pad, w.wire[0])))
  {
    if !RepairDue(w) {
      assert w.Pipe() == [w.wire[0]] + (w.wire[1..] + w.queue);
      forall k: Source | k !in w.broken && k in w.c.data.sent
        ensures Holds(Applied(w.pad, w.wire[0]), w.wire[1..] + w.queue, k, w.c.data.sent[k])
      {
        HoldsArrives(w.pad, w.wire[0], w.wire[1..] + w.queue, k, w.c.data.sent[k]);
      }
    }
  }

  // ---- One source through an ordinary turn --------------------------------------------------------

  /** What a flush does to one source: its diff sets it to what is marked sent, or it
      was marked so before. */
  lemma FlushSource(d: Data, f: Flush, k: Source)
    ensures var u := Diffed(d, f);
            var sent := AfterFlush(d, f).sent;
            k in sent ==>
              && SetsOnly(u, k, sent[k])
              && (!Sets(u, k) ==> k in d.sent && d.sent[k] == sent[k])
  {
    var u := Diffed(d, f);
    if f.FlushAt? && FlushDue(d, f.playing, f.hz, f.force, f.now) {
      ListingIs(Diff(d), 0);
      MergeIs(d.sent, u, k);
      if !Sets(u, k) {
        assert forall v :: (k, v) !in u;
      } else {
        var i :| 0 <= i < |u| && u[i].0 == k;
        assert (k, u[i].1) in u;
      }
      forall i | 0 <= i < |u| && u[i].0 == k ensures u[i].1 == AfterFlush(d, f).sent[k] { assert (k, u[i].1) in u; }
    }
  }

  lemma ShapeStatuses(env: Env, c: Ctl, e: Event, now: int)
    requires IsOrdinary(e)
    ensures var statuses := ShapeOf(env, c, e, now).statuses;
            && (forall m :: m in statuses ==> m.StatusMsg?)
            && (StatusMsg(false) in statuses <==> SaysAway(c, e))
            && (SaysAway(c, e) ==> statuses == [StatusMsg(false)])
  {
    hide AttemptFrame, FinishAttempt, TickPlay, OnEvent;
  }

  /** Whether the turn's diff sets a source. */
  lemma SentAgainIs(c: Ctl, o: Out, s: Shape, k: Source)
    requires Ordinary(c, o, s) && forall m :: m in s.statuses ==> m.StatusMsg?
    ensures SentAgain(o.actions, k) <==> !c.state.foreignPad && Sets(Diffed(c.data.(latest := s.latest), s.flush), k)
  {
    hide OnlyLatest, AfterFlush, Diffed;
    var u := Diffed(c.data.(latest := s.latest), s.flush);
    if Sets(u, k) && !c.state.foreignPad { assert DataMsg(u) in Msgs(o.actions); }
  }

  /** Exactly when a source's value will be there after the turn, given what was there
      and on its way before. */
  lemma HoldsAfterTurn(env: Env, c: Ctl, e: Event, now: int, o: Out, pad: Values, pipe: seq<Msg>, k: Source)
    requires IsOrdinary(e) && Ordinary(c, o, ShapeOf(env, c, e, now)) && k in o.c.data.sent
    ensures var v := o.c.data.sent[k];
            && (Holds(pad, pipe + Msgs(o.actions), k, v) <==>
                  SentAgain(o.actions, k) || (Holds(pad, pipe, k, v) && !(SaysAway(c, e) && Host(k) && v != Clear)))
            && (!SentAgain(o.actions, k) && !c.state.foreignPad ==> k in c.data.sent && c.data.sent[k] == v)
  {
    hide Holds, OnlyLatest, ShapeOf, SentAgain, SaysAway;
    var s := ShapeOf(env, c, e, now);
    var d := c.data.(latest := s.latest);
    var u := Diffed(d, s.flush);
    var v := o.c.data.sent[k];
    FlushSource(d, s.flush, k);
    ShapeStatuses(env, c, e, now);
    SentAgainIs(c, o, s, k);
    HoldsPastStatuses(pad, pipe, s.statuses, k, v);
    if u != [] && !c.state.foreignPad {
      assert pipe + (s.statuses + [DataMsg(u)]) == pipe + s.statuses + [DataMsg(u)];
      HoldsPastData(pad, pipe + s.statuses, u, k, v);
    } else {
      assert pipe + (s.statuses + []) == pipe + s.statuses;
    }
  }

  /** A tick sends a source again exactly when `Resends` says so. */
  lemma ResendsExactly(env: Env, c: Ctl, e: Event, now: int, o: Out, k: Source)
    requires e.Tick? && Ordinary(c, o, ShapeOf(env, c, e, now))
    ensures SentAgain(o.actions, k) <==> Resends(env, c, e, k)
  {
    hide SentAgain, TickPlay;
    var s := TickShape(env, c, e.at);
    var d := c.data.(latest := s.latest);
    ShapeStatuses(env, c, e, now);
    SentAgainIs(c, o, s, k);
    ListingIs(Diff(d), 0);
    var u := Diffed(d, s.flush);
    if Sets(u, k) {
      var i :| 0 <= i < |u| && u[i].0 == k;
      assert (k, u[i].1) in u;
    }
    if Resends(env, c, e, k) { PairSets(u, k, Diff(d)[k]); }
  }

  lemma PairSets(u: Update, k: Source, v: Value)
    requires (k, v) in u
    ensures Sets(u, k)
  {}

  /** The flush at the start of an attempt marks all of it sent. */
  lemma StartMarksAll(env: Env, c: Ctl, e: Event, now: int, o: Out)
    requires StartsAttempt(c, e) && Ordinary(c, o, ShapeOf(env, c, e, now)) && SentWithinLatest(c.data)
    ensures o.c.data.sent == KnownAtStart(env, c, e.frame, now)
  {
    hide AttemptFrame;
    var s := ShapeOf(env, c, e, now);
    FlushSendsAll(c.data.(latest := s.latest), true, c.state.config.gameplayDisplayHz, true, now);
  }

  /** With a foreign pad nothing else is marked sent. */
  lemma ForeignMarksNothing(env: Env, c: Ctl, e: Event, now: int, o: Out)
    requires IsOrdinary(e) && Ordinary(c, o, ShapeOf(env, c, e, now)) && c.state.foreignPad && !StartsAttempt(c, e)
    ensures o.c.data.sent == c.data.sent
  {
    hide AttemptFrame, TickPlay, FinishAttempt, OnEvent;
  }

  /** What breaks a source, exactly: from one that agreed with what was marked sent, the
      turn leaves one that agrees unless a status overtakes it or its new value is
      withheld; and what the turn sends agrees whatever was there. */
  lemma SourceBreaksExactly(env: Env, c: Ctl, e: Event, now: int, o: Out, pad: Values, pipe: seq<Msg>, k: Source)
    requires IsOrdinary(e) && Ordinary(c, o, ShapeOf(env, c, e, now)) && SentWithinLatest(c.data)
    requires k in o.c.data.sent
    ensures SentAgain(o.actions, k) ==> Holds(pad, pipe + Msgs(o.actions), k, o.c.data.sent[k])
    ensures Agrees(c.data.sent, pad, pipe, k) ==>
              (Holds(pad, pipe + Msgs(o.actions), k, o.c.data.sent[k])
               <==> !Overtaken(env, c, e, k) && !Withheld(env, pad, pipe, c, e, now, k))
  {
    hide Holds, ShapeOf, Ordinary, SentAgain, Resends, KnownAtStart;
    HoldsAfterTurn(env, c, e, now, o, pad, pipe, k);
    ShapeStatuses(env, c, e, now);
    if c.state.foreignPad {
      NothingToForeign(env, c, e, now, o, k);
      if StartsAttempt(c, e) {
        StartMarksAll(env, c, e, now, o);
      } else {
        ForeignMarksNothing(env, c, e, now, o);
      }
    }
    if e.Tick? {
      ResendsExactly(env, c, e, now, o, k);
    } else if SaysAway(c, e) {
      OnlyTicksResend(env, c, e, now, o, k);
    }
  }

  lemma NothingToForeign(env: Env, c: Ctl, e: Event, now: int, o: Out, k: Source)
    requires IsOrdinary(e) && Ordinary(c, o, ShapeOf(env, c, e, now)) && c.state.foreignPad
    ensures !SentAgain(o.actions, k)
  {
    hide ShapeOf, SentAgain, Ordinary;
    ShapeStatuses(env, c, e, now);
    SentAgainIs(c, o, ShapeOf(env, c, e, now), k);
  }

  lemma OnlyTicksResend(env: Env, c: Ctl, e: Event, now: int, o: Out, k: Source)
    requires SaysAway(c, e) && !e.Tick? && Ordinary(c, o, ShapeOf(env, c, e, now))
    ensures !SentAgain(o.actions, k) && !Resends(env, c, e, k)
  {
    hide SentAgain;
    SentAgainIs(c, o, ShapeOf(env, c, e, now), k);
  }

  lemma OrdinaryWithin(c: Ctl, o: Out, s: Shape)
    requires Ordinary(c, o, s) && SentWithinLatest(c.data)
    ensures SentWithinLatest(o.c.data)
    ensures HostClear(s.latest) && HostClear(c.data.sent) ==> HostClear(o.c.data.latest) && HostClear(o.c.data.sent)
  {
    var d := c.data.(latest := s.latest);
    var f := s.flush;
    assert SentWithinLatest(d);
    if f.FlushAt? && FlushDue(d, f.playing, f.hz, f.force, f.now) { FlushSendsAll(d, f.playing, f.hz, f.force, f.now); }
  }

  // ---- Every turn -----------------------------------------------------------------------------

  /** What a turn starts from: what was sent is as before, or given up for a repair. */
  lemma PreparedIs(w: World, t: Turn)
    requires Inv(w) && Enabled(w, Take(t))
    ensures var c := Prepared(w, t);
            && SentWithinLatest(c.data) && c.tap == w.c.tap && c.state == t.shared && c.data.latest == w.c.data.latest
            && c.data.lastFlush == w.c.data.lastFlush
            && c.data.sent == if t.event.Tick? && (w.resend || w.lost) then map[] else w.c.data.sent
  {}

  lemma OrdinaryKeeps(env: Env, w: World, t: Turn)
    requires Inv(w) && Enabled(w, Take(t)) && IsOrdinary(t.event)
    ensures Inv(Next(env, w, Take(t)))
  {
    hide OnEvent, Holds, ShapeOf, Ordinary, Resets, SentAgain, Breaks, Prepared, OutsideWrite;
    var c := Prepared(w, t);
    var o := OnEvent(env, c, t.event, t.now);
    var w' := Next(env, w, Take(t));
    PreparedIs(w, t);
    OrdinaryEvent(env, c, t.event, t.now);
    OrdinaryWithin(c, o, ShapeOf(env, c, t.event, t.now));
    if !RepairDue(w') {
      StillDue(env, w, t);
      forall k: Source | k !in w'.broken && k in o.c.data.sent ensures Holds(w.pad, w'.Pipe(), k, o.c.data.sent[k]) {
        OrdinaryKeepsSource(env, w, t, k);
      }
    }
  }

  lemma OrdinaryKeepsSource(env: Env, w: World, t: Turn, k: Source)
    requires Inv(w) && Enabled(w, Take(t)) && IsOrdinary(t.event)
    requires !RepairDue(w) || (t.event.Tick? && (w.resend || w.lost))
    requires var w' := Next(env, w, Take(t)); k !in w'.broken && k in w'.c.data.sent
    ensures var w' := Next(env, w, Take(t)); Holds(w.pad, w'.Pipe(), k, w'.c.data.sent[k])
  {
    hide OnEvent, Holds, ShapeOf, Ordinary, SentAgain, Overtaken, Withheld, Prepared, OutsideWrite;
    var c := Prepared(w, t);
    var o := OnEvent(env, c, t.event, t.now);
    PreparedIs(w, t);
    OrdinaryEvent(env, c, t.event, t.now);
    assert w.wire + (w.queue + Msgs(o.actions)) == w.Pipe() + Msgs(o.actions);
    SourceBreaksExactly(env, c, t.event, t.now, o, w.pad, w.Pipe(), k);
  }

  /** A repair that was due is still due, or has just been made. */
  lemma StillDue(env: Env, w: World, t: Turn)
    requires Inv(w) && Enabled(w, Take(t)) && (IsOrdinary(t.event) || t.event.TosuConnectionChanged?)
    requires ShowsWell(env) || IsOrdinary(t.event)
    requires !RepairDue(Next(env, w, Take(t)))
    ensures !RepairDue(w) || (t.event.Tick? && (w.resend || w.lost))
  {
    hide OnEvent, Holds, HostClear, OnlyLatest, ShapeOf, BrokenAfter;
    var c := Prepared(w, t);
    if IsOrdinary(t.event) { OrdinaryEvent(env, c, t.event, t.now); } else { EventData(env, c, t.event, t.now); }
  }

  /** The pad or tosu comes or goes. */
  lemma ComingAndGoingKeeps(env: Env, w: World, t: Turn)
    requires ShowsWell(env) && Inv(w) && Enabled(w, Take(t)) && !IsOrdinary(t.event)
    ensures Inv(Next(env, w, Take(t)))
  {
    hide OnEvent, Holds, HostClear, SentAgain, Prepared, OutsideWrite;
    var c := Prepared(w, t);
    var o := OnEvent(env, c, t.event, t.now);
    var w' := Next(env, w, Take(t));
    PreparedIs(w, t);
    EventData(env, c, t.event, t.now);
    if t.event == TosuConnectionChanged(true) && !RepairDue(w') {
      StillDue(env, w, t);
      assert w.wire + (w.queue + Msgs(o.actions)) == w.Pipe() + Msgs(o.actions);
      forall k: Source | k !in w'.broken && k in o.c.data.sent ensures Holds(w.pad, w'.Pipe(), k, o.c.data.sent[k]) {
        HoldsPastStatuses(w.pad, w.Pipe(), Msgs(o.actions), k, o.c.data.sent[k]);
        OnlyStatuses(o.actions, k);
      }
    }
  }

  lemma OnlyStatuses(actions: seq<Action>, k: Source)
    requires forall m :: m in Msgs(actions) ==> m.StatusMsg?
    ensures !SentAgain(actions, k)
  {}

  lemma StepKeeps(env: Env, w: World, s: Step)
    requires ShowsWell(env) && Inv(w) && Enabled(w, s)
    ensures Inv(Next(env, w, s))
  {
    match s
    case Take(t) => if IsOrdinary(t.event) { OrdinaryKeeps(env, w, t); } else { ComingAndGoingKeeps(env, w, t); }
    case Send(answers, partly) => SendKeeps(w, answers, partly);
    case Arrive => ArriveKeeps(w);
    case _ =>
  }

  function Run(env: Env, w: World, steps: seq<Step>): World
    requires Possible(env, w, steps)
    decreases |steps|
  {
    if steps == [] then w else Run(env, Next(env, w, steps[0]), steps[1..])
  }

  ghost predicate Possible(env: Env, w: World, steps: seq<Step>)
    decreases |steps|
  {
    steps == [] || (Enabled(w, steps[0]) && Possible(env, Next(env, w, steps[0]), steps[1..]))
  }

  /** Replication safety. In every run of turns, sends that meet a full queue in the
      middle of a diff, deliveries, failed writes, lost and recovered links, port
      reopenings and dropped greetings: unless a repair is due, what is still on its way,
      applied in order to what the pad shows, gives what is marked sent, on every source
      but those broken since they were last sent; and nothing is marked sent that is not
      known. */
  lemma {:induction false} PadAgreesWithSent(env: Env, w: World, steps: seq<Step>)
    requires ShowsWell(env) && Inv(w) && Possible(env, w, steps)
    ensures var r := Run(env, w, steps);
            && r.c.data.sent.Keys <= r.c.data.latest.Keys
            && (!RepairDue(r) ==>
                  forall k: Source :: k in r.c.data.sent && k !in r.broken ==>
                    Shown(AppliedAll(r.pad, r.Pipe()), k) == r.c.data.sent[k])
    ensures Inv(Run(env, w, steps))
    decreases |steps|
  {
    hide Next, Holds, AppliedAll, RepairDue;
    if steps == [] {
      if !RepairDue(w) {
        forall k: Source | k in w.c.data.sent && k !in w.broken
          ensures Shown(AppliedAll(w.pad, w.Pipe()), k) == w.c.data.sent[k]
        {
          HoldsIsShown(w.pad, w.Pipe(), k, w.c.data.sent[k]);
        }
      }
    } else {
      StepKeeps(env, w, steps[0]);
      PadAgreesWithSent(env, Next(env, w, steps[0]), steps[1..]);
    }
  }

  // ---- Where agreement is lost -------------------------------------------------------------------

  /** A value overtaken by the status is not merely in doubt: once everything has arrived
      the pad shows nothing there, while the cache believes it shows the value. */
  lemma OvertakenIsWiped(env: Env, w: World, t: Turn, k: Source)
    requires Inv(w) && Enabled(w, Take(t)) && Overtaken(env, Prepared(w, t), t.event, k)
    ensures var w' := Next(env, w, Take(t));
            && k in w'.c.data.sent && w'.c.data.sent[k] == Prepared(w, t).data.sent[k] != Clear && k in w'.broken
            && Shown(AppliedAll(w'.pad, w'.Pipe()), k) == Clear
  {
    hide OnEvent, ShapeOf, Prepared, OutsideWrite, Resends, Resets, TickPlay;
    var c := Prepared(w, t);
    var o := OnEvent(env, c, t.event, t.now);
    var s := ShapeOf(env, c, t.event, t.now);
    PreparedIs(w, t);
    OrdinaryEvent(env, c, t.event, t.now);
    ShapeStatuses(env, c, t.event, t.now);
    NotSentAgain(env, c, t.event, t.now, o, k);
    SentAgainIs(c, o, s, k);
    if c.state.foreignPad { ForeignMarksNothing(env, c, t.event, t.now, o); } else { KeepsSent(c, o, s, k); }
    var u := Diffed(c.data.(latest := s.latest), s.flush);
    var rest := if u != [] && !c.state.foreignPad then [DataMsg(u)] else [];
    assert w.wire + (w.queue + Msgs(o.actions)) == w.Pipe() + [StatusMsg(false)] + rest;
    WipedBehind(w.pad, w.Pipe(), rest, k);
  }

  lemma NotSentAgain(env: Env, c: Ctl, e: Event, now: int, o: Out, k: Source)
    requires Overtaken(env, c, e, k) && Ordinary(c, o, ShapeOf(env, c, e, now))
    ensures !SentAgain(o.actions, k)
  {
    hide SentAgain, Resends, Ordinary, ShapeOf;
    if e.Tick? { ResendsExactly(env, c, e, now, o, k); } else { OnlyTicksResend(env, c, e, now, o, k); }
  }

  /** What a flush does not set stays marked as it was. */
  lemma KeepsSent(c: Ctl, o: Out, s: Shape, k: Source)
    requires Ordinary(c, o, s) && k in c.data.sent && !Sets(Diffed(c.data.(latest := s.latest), s.flush), k)
    ensures k in o.c.data.sent && o.c.data.sent[k] == c.data.sent[k]
  {
    var d := c.data.(latest := s.latest);
    ListingIs(Diff(d), 0);
    var u := Diffed(d, s.flush);
    if s.flush.FlushAt? { MergeIs(d.sent, u, k); }
  }

  lemma WipedBehind(pad: Values, pipe: seq<Msg>, rest: seq<Msg>, k: Source)
    requires Host(k) && (rest == [] || (|rest| == 1 && rest[0].DataMsg? && !Sets(rest[0].update, k)))
    ensures Shown(AppliedAll(pad, pipe + [StatusMsg(false)] + rest), k) == Clear
  {
    AppliedAppend(pad, pipe + [StatusMsg(false)], rest);
    AppliedAppend(pad, pipe, [StatusMsg(false)]);
    var before := AppliedAll(pad, pipe);
    assert [StatusMsg(false)][1..] == [];
    assert AppliedAll(before, [StatusMsg(false)]) == HostCleared(before);
    if rest != [] {
      assert rest[1..] == [];
      MergeSets(HostCleared(before), rest[0].update, k, Clear);
    }
  }

  lemma BrokenIsSent(env: Env, w: World, t: Turn, k: Source)
    requires Inv(w) && Enabled(w, Take(t)) && Breaks(env, w, Prepared(w, t), t, k)
    ensures k in Next(env, w, Take(t)).c.data.sent
  {
    hide OnEvent, ShapeOf, Prepared, Overtaken, KnownAtStart, Holds, Ordinary, BrokenAfter;
    var c := Prepared(w, t);
    PreparedIs(w, t);
    if Overtaken(env, c, t.event, k) {
      OvertakenIsWiped(env, w, t, k);
    } else {
      OrdinaryEvent(env, c, t.event, t.now);
      StartMarksAll(env, c, t.event, t.now, OnEvent(env, c, t.event, t.now));
    }
  }

  /** Agreement, per source, is lost by exactly two turns: one that tells the pad that
      tosu is away while a value of tosu's is marked sent, and the start of an attempt with
      a foreign pad that lacks the value. Whatever else a turn does keeps it. */
  lemma AgreementIsLostExactly(env: Env, w: World, t: Turn, k: Source)
    requires ShowsWell(env) && Inv(w) && Enabled(w, Take(t))
    requires Agrees(Prepared(w, t).data.sent, w.pad, w.Pipe(), k)
    ensures var w' := Next(env, w, Take(t));
            Agrees(w'.c.data.sent, w'.pad, w'.Pipe(), k)
            <==> !Breaks(env, w, Prepared(w, t), t, k)
  {
    hide OnEvent, Holds, ShapeOf, Ordinary, Overtaken, Withheld, Prepared, OutsideWrite, BrokenAfter;
    var c := Prepared(w, t);
    var o := OnEvent(env, c, t.event, t.now);
    PreparedIs(w, t);
    if IsOrdinary(t.event) {
      OrdinaryEvent(env, c, t.event, t.now);
      assert w.wire + (w.queue + Msgs(o.actions)) == w.Pipe() + Msgs(o.actions);
      if k in o.c.data.sent {
        SourceBreaksExactly(env, c, t.event, t.now, o, w.pad, w.Pipe(), k);
      } else if Breaks(env, w, c, t, k) {
        BrokenIsSent(env, w, t, k);
      }
    } else {
      ComingAndGoingBreaksNothing(env, w, t, k);
    }
  }

  lemma ComingAndGoingBreaksNothing(env: Env, w: World, t: Turn, k: Source)
    requires ShowsWell(env) && Inv(w) && Enabled(w, Take(t)) && !IsOrdinary(t.event)
    requires Agrees(w.c.data.sent, w.pad, w.Pipe(), k)
    ensures var w' := Next(env, w, Take(t));
            Agrees(w'.c.data.sent, w'.pad, w'.Pipe(), k) && !Breaks(env, w, Prepared(w, t), t, k)
  {
    hide OnEvent, Holds, KnownAtStart, Resends, Prepared, OutsideWrite, BrokenAfter, AwayIsQuiet;
    var c := Prepared(w, t);
    var o := OnEvent(env, c, t.event, t.now);
    PreparedIs(w, t);
    EventData(env, c, t.event, t.now);
    assert w.wire + (w.queue + Msgs(o.actions)) == w.Pipe() + Msgs(o.actions);
    if k in o.c.data.sent {
      HoldsPastStatuses(w.pad, w.Pipe(), Msgs(o.actions), k, o.c.data.sent[k]);
    }
  }

  /** Nothing of tosu's comes in while it is away, and no attempt starts with a foreign pad. */
  predicate Tidy(s: Step) {
    s.Take? && s.turn.event.TosuTelemetry? ==>
      s.turn.shared.tosuConnected && !(s.turn.shared.foreignPad && s.turn.shared.deviceConnected)
  }

  ghost predicate Sound(w: World) { Inv(w) && AwayIsQuiet(w.c) && w.broken == {} }

  lemma TidyKeepsQuiet(env: Env, w: World, t: Turn)
    requires ShowsWell(env) && Sound(w) && Enabled(w, Take(t)) && Tidy(Take(t))
    ensures AwayIsQuiet(Next(env, w, Take(t)).c)
  {
    hide OnEvent, ShapeOf, HostClear, BrokenAfter, Prepared;
    var c := Prepared(w, t);
    var o := OnEvent(env, c, t.event, t.now);
    PreparedIs(w, t);
    EmptyIsClear();
    EventData(env, c, t.event, t.now);
    if IsOrdinary(t.event) && !c.state.tosuConnected {
      OrdinaryIsQuiet(env, c, t.event, t.now);
      OrdinaryWithin(c, o, ShapeOf(env, c, t.event, t.now));
    }
  }

  lemma EmptyIsClear()
    ensures HostClear(map[])
  {}

  lemma TidyBreaksNothing(env: Env, w: World, t: Turn)
    requires ShowsWell(env) && Sound(w) && Enabled(w, Take(t)) && Tidy(Take(t))
    ensures Next(env, w, Take(t)).broken == {}
  {
    hide OnEvent, KnownAtStart, Resends, Holds;
    var c := Prepared(w, t);
    PreparedIs(w, t);
    forall k ensures !Breaks(env, w, c, t, k) {}
  }

  /** So in a run without either, everything marked sent is shown or on its way whenever
      no repair is due, with no exception at all. */
  lemma {:induction false} TidyRunsAgree(env: Env, w: World, steps: seq<Step>)
    requires ShowsWell(env) && Sound(w) && Possible(env, w, steps) && forall s :: s in steps ==> Tidy(s)
    ensures Sound(Run(env, w, steps))
    ensures var r := Run(env, w, steps);
            !RepairDue(r) ==> forall k: Source :: k in r.c.data.sent ==>
              Shown(AppliedAll(r.pad, r.Pipe()), k) == r.c.data.sent[k]
    decreases |steps|
  {
    hide Next, Inv, AwayIsQuiet, Holds, AppliedAll, RepairDue, Tidy;
    if steps == [] {
      PadAgreesWithSent(env, w, steps);
    } else {
      StepStaysSound(env, w, steps[0]);
      TidyRunsAgree(env, Next(env, w, steps[0]), steps[1..]);
    }
  }

  lemma StepStaysSound(env: Env, w: World, s: Step)
    requires ShowsWell(env) && Sound(w) && Enabled(w, s) && Tidy(s)
    ensures Sound(Next(env, w, s))
  {
    hide OnEvent, Prepared, BrokenAfter, Inv;
    StepKeeps(env, w, s);
    if s.Take? {
      TidyKeepsQuiet(env, w, s.turn);
      TidyBreaksNothing(env, w, s.turn);
    }
  }

  // ---- Convergence ---------------------------------------------------------------------------

  /** A tick at which the cache may flush to a pad that is there and ours. */
  predicate FlushingTick(w: World, s: Step) {
    && s.Take? && s.turn.event.Tick?
    && s.turn.shared.deviceConnected && !s.turn.shared.foreignPad
    && (w.c.data.lastFlush.None? || s.turn.event.at - w.c.data.lastFlush.value >= 1000 * MS)
  }

  /** A flush that is due marks everything sent. */
  lemma FlushMarksAll(c: Ctl, o: Out, s: Shape)
    requires Ordinary(c, o, s) && SentWithinLatest(c.data)
    requires s.flush.FlushAt? && (c.data.lastFlush.None? || s.flush.now - c.data.lastFlush.value >= 1000 * MS)
    ensures o.c.data.sent == o.c.data.latest
  {
    var f := s.flush;
    FlushIntervalBounds(f.hz, f.hz);
    FlushSendsAll(c.data.(latest := s.latest), f.playing, f.hz, f.force, f.now);
  }

  /** Once the tick has flushed, what is known is what is marked sent. */
  lemma TickMarksAll(env: Env, w: World, s: Step)
    requires Inv(w) && Enabled(w, s) && FlushingTick(w, s)
    ensures var w' := Next(env, w, s);
            && w'.c.data.sent == w'.c.data.latest && !w'.resend && !w'.lost
            && w'.up == w.up && w'.greets == w.greets && w'.c.state.deviceConnected
  {
    hide OnTick, Holds, OnlyLatest, AfterFlush, Diffed, SentWithinLatest, Prepared, BrokenAfter, TickPlay;
    var c := Prepared(w, s.turn);
    PreparedIs(w, s.turn);
    TickEventData(env, c, s.turn.event.at);
    FlushMarksAll(c, OnTick(env, c, s.turn.event.at), TickShape(env, c, s.turn.event.at));
  }

  /** With a repair asked for, the tick breaks nothing and leaves nothing broken. */
  lemma RepairMendsAll(env: Env, w: World, t: Turn)
    requires Inv(w) && Enabled(w, Take(t)) && t.event.Tick? && (w.resend || w.lost)
    ensures Next(env, w, Take(t)).broken == {}
  {
    hide OnEvent, Resends, Holds;
    var c := Prepared(w, t);
    PreparedIs(w, t);
    forall k ensures !Breaks(env, w, c, t, k) {}
  }

  /** Replication convergence. From any reachable state, whatever was dropped, overtaken or
      withheld before, one tick past the flush interval and then a drained pipe leave the
      pad showing what is known: on every source when a repair was asked for, and
      otherwise, with no greeting outstanding, on all but those broken since they were
      last sent. */
  lemma PadConverges(env: Env, w: World, s: Step) returns (drain: seq<Step>)
    requires ShowsWell(env) && Inv(w) && Enabled(w, s) && FlushingTick(w, s)
    requires w.up && (w.resend || w.lost || w.greets == 0)
    ensures (forall d :: d in drain ==> IsDrain(d)) && Possible(env, Next(env, w, s), drain)
    ensures var r := Run(env, Next(env, w, s), drain);
            && r.queue == [] && r.wire == []
            && (forall k: Source :: k in r.c.data.latest && k !in r.broken ==> Shown(r.pad, k) == r.c.data.latest[k])
            && r.broken == Next(env, w, s).broken
            && (w.resend || w.lost || Sound(w) ==> r.broken == {})
  {
    hide Next, Holds, AppliedAll, AwayIsQuiet, OutsideWrite;
    var w' := Next(env, w, s);
    TickMarksAll(env, w, s);
    if w.resend || w.lost { RepairMendsAll(env, w, s.turn); }
    else if Sound(w) { TidyBreaksNothing(env, w, s.turn); }
    assert !RepairDue(w) || w.resend || w.lost by { StaysConnected(w, s); }
    forall k: Source | k in w'.c.data.latest && k !in w'.broken
      ensures Shown(AppliedAll(w'.pad, w'.Pipe()), k) == w'.c.data.latest[k]
    {
      OrdinaryKeepsSource(env, w, s.turn, k);
      SamePadAfterTurn(env, w, s.turn);
      HoldsIsShown(w'.pad, w'.Pipe(), k, w'.c.data.sent[k]);
    }
    drain := PipeDrains(env, w');
  }

  lemma StaysConnected(w: World, s: Step)
    requires Enabled(w, s) && FlushingTick(w, s)
    ensures w.c.state.deviceConnected
  {}

  lemma SamePadAfterTurn(env: Env, w: World, t: Turn)
    requires Enabled(w, Take(t))
    ensures Next(env, w, Take(t)).pad == w.pad
  {}

  /** The steps by which the link empties the pipe. */
  predicate IsDrain(s: Step) { s.Send? || s.Arrive? }

  /** Everything has arrived, and nothing else has changed. */
  function Drained(w: World): World { w.(queue := [], wire := [], pad := AppliedAll(w.pad, w.Pipe())) }

  /** The link takes everything, in order. */
  ghost predicate Drains(env: Env, w: World, steps: seq<Step>) {
    && (forall s :: s in steps ==> IsDrain(s)) && Possible(env, w, steps)
    && Run(env, w, steps) == Drained(w)
  }

  lemma DrainFirst(env: Env, w: World, s: Step, steps: seq<Step>)
    requires IsDrain(s) && Enabled(w, s) && Drains(env, Next(env, w, s), steps)
    requires Drained(Next(env, w, s)) == Drained(w)
    ensures Drains(env, w, [s] + steps)
  {
    hide Next, Drained, Enabled;
    assert ([s] + steps)[1..] == steps;
  }

  function TakesAll(i: nat): DeviceActor.Answer { DeviceActor.Sent }

  lemma SendStep(env: Env, w: World)
    requires w.queue != []
    ensures Enabled(w, Send(TakesAll, 0))
    ensures var n := Next(env, w, Send(TakesAll, 0));
            n.queue == w.queue[1..] && n.up == w.up && Drained(n) == Drained(w)
  {
    hide Chunks, AppliedAll;
    var m, rest := w.queue[0], w.queue[1..];
    assert w.Pipe() == w.wire + [m] + rest;
    SameEffect(w.pad, w.wire, m, rest);
  }

  lemma SameEffect(pad: Values, wire: seq<Msg>, m: Msg, rest: seq<Msg>)
    ensures var parts := if m.DataMsg? then Chunks(m.update) else [m];
            AppliedAll(pad, wire + parts + rest) == AppliedAll(pad, wire + [m] + rest)
  {
    hide Chunks;
    var parts := if m.DataMsg? then Chunks(m.update) else [m];
    AppliedAppend(pad, wire + parts, rest);
    AppliedAppend(pad, wire + [m], rest);
    AppliedAppend(pad, wire, parts);
    AppliedAppend(pad, wire, [m]);
    assert [m][1..] == [];
    if m.DataMsg? { AppliedChunks(AppliedAll(pad, wire), m.update); }
  }

  /** Draining is what it sounds like: while the link is up there are sends and
      deliveries that empty the pipe and leave the pad as `AppliedAll` says. */
  lemma {:induction false} PipeDrains(env: Env, w: World) returns (steps: seq<Step>)
    requires w.up
    ensures Drains(env, w, steps)
    decreases |w.queue|, |w.wire|
  {
    hide Next, AppliedAll, Drained;
    if w.queue != [] {
      SendStep(env, w);
      var more := PipeDrains(env, Next(env, w, Send(TakesAll, 0)));
      DrainFirst(env, w, Send(TakesAll, 0), more);
      steps := [Send(TakesAll, 0)] + more;
    } else if w.wire != [] {
      ArriveStep(env, w);
      var more := PipeDrains(env, Next(env, w, Arrive));
      DrainFirst(env, w, Arrive, more);
      steps := [Arrive] + more;
    } else {
      steps := [];
      EmptyPipe(env, w);
    }
  }

  lemma ArriveStep(env: Env, w: World)
    requires w.up && w.queue == [] && w.wire != []
    ensures var n := Next(env, w, Arrive);
            n.queue == [] && n.wire == w.wire[1..] && n.up && Drained(n) == Drained(w)
  {
    assert w.Pipe() == w.wire && w.wire[1..] + w.queue == w.wire[1..];
  }

  lemma EmptyPipe(env: Env, w: World)
    requires w.queue == [] && w.wire == []
    ensures Drains(env, w, [])
  {
    assert w.Pipe() == [];
  }

  // ---- The withheld flush --------------------------------------------------------------------

  /** The start of an attempt with a foreign pad: all of it is marked sent, none of it
      goes out, and until a value changes no flush, forced or not, sends it: taking the
      pad over afterwards leaves it without. */
  lemma ForcedFlushIsSwallowed(c: Ctl, now: int, playing: bool, hz: nat, force: bool, later: int)
    requires c.state.foreignPad && SentWithinLatest(c.data)
    ensures var o := Announce(c, now);
            && (forall a :: a in o.actions ==> !a.SendDataUpdate?)
            && o.c.data.sent == o.c.data.latest == c.data.latest
            && Changes(o.c.data, playing, hz, force, later) == []
  {
    FlushSendsAll(c.data, true, c.state.config.gameplayDisplayHz, true, now);
    var d := Announce(c, now).c.data;
    assert Diff(d) == map[];
    ListingIs(Diff(d), 0);
    HeadIn(Listing(Diff(d), 0));
    assert forall p: (Source, Value) :: p == (p.0, p.1);
  }

  /** It owes the pad something exactly when a value had changed. */
  lemma OwesExactly(c: Ctl, now: int)
    requires c.state.foreignPad && SentWithinLatest(c.data)
    ensures Announce(c, now).c.data.sent != c.data.sent <==> c.data.sent != c.data.latest
  {
    FlushSendsAll(c.data, true, c.state.config.gameplayDisplayHz, true, now);
  }
}
