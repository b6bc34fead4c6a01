/** The flash pause and the handshake gate of the IPC connections (desktop/daemon/
    src/ipc_handlers.rs), for any number of connections interleaving in any way. */
module FlashPause {
  import opened Options

  datatype Request =
    | Handshake(matches: bool)
    | PrepareFlash
    | FinishFlash
    | ResumeDevice
    | InstallFirmwareUpdate
    | ResetLatencyStats
    | OtherRequest

  datatype Response = HandshakeAck | HandshakeRejected | ReadyForFlash | Refused | OtherResponse

  /** What a request does to a flash pause the connection holds. */
  datatype FlashStep = Prepare | Release | Neither

  function FlashStepOf(r: Request): FlashStep {
    match r
    case PrepareFlash => Prepare
    case FinishFlash => Release
    case ResumeDevice => Release
    case _ => Neither
  }

  function HoldsFlashPause(held: bool, step: FlashStep, response: Response): bool {
    match step
    case Prepare => held || response.ReadyForFlash?
    case Release => false
    case Neither => held
  }

  function RefuseBeforeHandshake(handshaken: bool, r: Request): Option<Response> {
    if !handshaken && !r.Handshake? then Some(Refused) else None
  }

  // ---- One connection -------------------------------------------------------------------

  /** A request as it went: the handler's answer and whether it could be sent. */
  datatype Exchange = Exchange(request: Request, response: Response, delivered: bool)

  datatype Serving = Serving(handshaken: bool, flashPause: bool, handled: seq<Request>, open: bool)

  const FRESH := Serving(false, false, [], true)

  function Serve(s: Serving, x: Exchange): Serving {
    if !s.open then s
    else if RefuseBeforeHandshake(s.handshaken, x.request).Some? then s.(open := false)
    else
      Serving(s.handshaken || x.response.HandshakeAck?,
              HoldsFlashPause(s.flashPause, FlashStepOf(x.request), x.response),
              s.handled + [x.request],
              x.delivered && !x.response.HandshakeRejected?)
  }

  function Served(xs: seq<Exchange>): Serving {
    if xs == [] then FRESH else Serve(Served(xs[..|xs| - 1]), xs[|xs| - 1])
  }

  lemma {:induction false} ClosedStays(xs: seq<Exchange>, n: nat)
    requires n <= |xs| && !Served(xs[..n]).open
    ensures Served(xs) == Served(xs[..n])
    decreases |xs| - n
  {
    if n == |xs| {
      assert xs[..n] == xs;
    } else {
      assert xs[..|xs| - 1][..n] == xs[..n];
      ClosedStays(xs[..|xs| - 1], n);
    }
  }

  /** Serves a connection until the client leaves, is refused or cannot be
      answered; a pause it still holds is then undone. */
  method ServeConnection(xs: seq<Exchange>) returns (handled: seq<Request>, resumes: bool)
    ensures handled == Served(xs).handled && resumes == Served(xs).flashPause
  {
    var handshaken, flashPause := false, false;
    handled := [];
    var i := 0;
    while i < |xs|
      invariant 0 <= i <= |xs|
      invariant Served(xs[..i]) == Serving(handshaken, flashPause, handled, true)
    {
      var x := xs[i];
      assert xs[..i + 1][..i] == xs[..i];
      var refused := RefuseBeforeHandshake(handshaken, x.request);
      if refused.Some? {
        ClosedStays(xs, i + 1);
        break;
      }
      var step := FlashStepOf(x.request);
      handled := handled + [x.request];
      flashPause := HoldsFlashPause(flashPause, step, x.response);
      handshaken := handshaken || x.response.HandshakeAck?;
      if !x.delivered || x.response.HandshakeRejected? {
        ClosedStays(xs, i + 1);
        break;
      }
      i := i + 1;
    }
    if i == |xs| { assert xs[..i] == xs; }
    resumes := flashPause;
  }

  /** Which answers a handler can give. */
  predicate Answers(x: Exchange) {
    && (x.response.HandshakeAck? ==> x.request == Handshake(true) || x.request.ResetLatencyStats?)
    && (x.response.ReadyForFlash? ==> x.request.PrepareFlash?)
  }

  /** Nothing but a Handshake is handled before one succeeds: some latency reset
      answers with the same message, but only once a handshake has opened the way. */
  lemma {:induction false} HandshakeComesFirst(xs: seq<Exchange>, i: nat)
    requires forall x :: x in xs ==> Answers(x)
    requires i < |Served(xs).handled| && !Served(xs).handled[i].Handshake?
    ensures exists j :: 0 <= j < i && Served(xs).handled[j] == Handshake(true)
    decreases |xs|
  {
    var n := |xs| - 1;
    var before := Served(xs[..n]);
    if i < |before.handled| {
      HandshakeComesFirst(xs[..n], i);
      var j :| 0 <= j < i && before.handled[j] == Handshake(true);
      assert Served(xs).handled[j] == Handshake(true);
    } else {
      HandshakenBy(xs[..n]);
      var j :| 0 <= j < |before.handled| && before.handled[j] == Handshake(true);
      assert Served(xs).handled[j] == Handshake(true);
    }
  }

  lemma {:induction false} HandshakenBy(xs: seq<Exchange>)
    requires (forall x :: x in xs ==> Answers(x)) && Served(xs).handshaken
    ensures exists j :: 0 <= j < |Served(xs).handled| && Served(xs).handled[j] == Handshake(true)
    decreases |xs|
  {
    var n := |xs| - 1;
    var before := Served(xs[..n]);
    var after := Served(xs);
    assert xs[n] in xs && Answers(xs[n]);
    if before.handshaken {
      HandshakenBy(xs[..n]);
      var j :| 0 <= j < |before.handled| && before.handled[j] == Handshake(true);
      assert after.handled[j] == Handshake(true);
    } else {
      assert after.handled == before.handled + [xs[n].request];
      assert after.handled[|before.handled|] == Handshake(true);
    }
  }

  /** A refused handshake, a request before one, or an answer that could not be sent is the
      last of a connection. */
  lemma {:induction false} NothingAfterTheEnd(xs: seq<Exchange>, i: nat)
    requires i < |xs|
    requires || !xs[i].delivered || xs[i].response.HandshakeRejected?
             || (!Served(xs[..i]).handshaken && !xs[i].request.Handshake?)
    ensures |Served(xs).handled| <= i + 1 && !Served(xs).open
    decreases |xs|
  {
    var n := |xs| - 1;
    HandledBound(xs[..i]);
    assert xs[..i + 1][..i] == xs[..i];
    if i == n { assert xs[..i + 1] == xs; }
    ClosedStays(xs, i + 1);
  }

  lemma {:induction false} HandledBound(xs: seq<Exchange>)
    ensures |Served(xs).handled| <= |xs|
    decreases |xs|
  {
    if xs != [] { HandledBound(xs[..|xs| - 1]); }
  }

  /** Every exchange reached its handler. */
  predicate AllHandled(xs: seq<Exchange>) {
    forall n | 0 <= n < |xs| ::
      Served(xs[..n]).open && RefuseBeforeHandshake(Served(xs[..n]).handshaken, xs[n].request).None?
  }

  predicate HandsBack(r: Request) { r.FinishFlash? || r.ResumeDevice? }

  /** Exchange `i` got the pad ready, and nothing since handed it back. */
  predicate ReadySince(xs: seq<Exchange>, i: nat) {
    && i < |xs| && xs[i].request.PrepareFlash? && xs[i].response.ReadyForFlash?
    && forall k | i < k < |xs| :: !HandsBack(xs[k].request)
  }

  /** What holding means: this connection got the pad ready and has not handed it
      back since. */
  lemma {:induction false} HoldsExactly(xs: seq<Exchange>)
    requires AllHandled(xs)
    ensures Served(xs).flashPause <==> exists i: nat :: ReadySince(xs, i)
    decreases |xs|
  {
    if xs != [] {
      hide Served, ReadySince, AllHandled;
      var n := |xs| - 1;
      var before := xs[..n];
      PauseStep(xs);
      HoldsExactly(before);
      if Served(xs).flashPause {
        if xs[n].request.PrepareFlash? && xs[n].response.ReadyForFlash? {
          ReadyStep(xs, n);
        } else {
          var i: nat :| ReadySince(before, i);
          ReadyStep(xs, i);
        }
      }
      if i: nat :| ReadySince(xs, i) { ReadyStep(xs, i); }
    }
  }

  /** One more exchange that reached its handler. */
  lemma PauseStep(xs: seq<Exchange>)
    requires AllHandled(xs) && xs != []
    ensures var n := |xs| - 1;
            && AllHandled(xs[..n])
            && (Served(xs).flashPause <==>
                  || (xs[n].request.PrepareFlash? && xs[n].response.ReadyForFlash?)
                  || (Served(xs[..n]).flashPause && !HandsBack(xs[n].request)))
  {
    var n := |xs| - 1;
    PauseServed(Served(xs[..n]), xs[n]);
    hide Serve;
    var before := xs[..n];
    forall m | 0 <= m < n
      ensures Served(before[..m]).open && RefuseBeforeHandshake(Served(before[..m]).handshaken, before[m].request).None?
    {
      assert before[..m] == xs[..m];
    }
  }

  lemma PauseServed(s: Serving, x: Exchange)
    requires s.open && RefuseBeforeHandshake(s.handshaken, x.request).None?
    ensures Serve(s, x).flashPause <==>
              || (x.request.PrepareFlash? && x.response.ReadyForFlash?)
              || (s.flashPause && !HandsBack(x.request))
  {}

  lemma ReadyStep(xs: seq<Exchange>, i: nat)
    requires xs != []
    ensures var n := |xs| - 1;
            ReadySince(xs, i) <==>
              (i == n && xs[n].request.PrepareFlash? && xs[n].response.ReadyForFlash?)
              || (ReadySince(xs[..n], i) && !HandsBack(xs[n].request))
  {
    var n := |xs| - 1;
    if i < n { assert forall k | i < k < n :: xs[..n][k] == xs[k]; }
  }

  // ---- All connections at once ------------------------------------------------------------

  /** Where a connection is: between requests, or inside a handler that waits. */
  datatype Phase = Idle | Preparing | Installing | Verifying | Finishing

  datatype Conn = Conn(handshaken: bool, holds: bool, phase: Phase) {
    /** The pad may be paused on this connection's account. */
    predicate Claims() { (holds && phase != Finishing) || phase == Preparing || phase == Installing }
  }

  /** The open connections and whether the pad is paused. */
  datatype World = World(conns: map<nat, Conn>, paused: bool)

  /** One atomic step: a client connects, a request reaches its handler, a wait
      inside one ends, or a client is found gone. `delivered` is whether the answer
      could be sent; `refused` whether the request's own checks turn it down. */
  datatype Step =
    | Connect(id: nat)
    | Ask(id: nat, request: Request, refused: bool, delivered: bool)
    | PortReleased(id: nat, inTime: bool, delivered: bool)
    | ImageWritten(id: nat)
    | WaitEnded(id: nat, delivered: bool)
    | Leave(id: nat)

  /** The connection's end: a pause it holds is undone. */
  function Close(w: World, id: nat): World
    requires id in w.conns
  {
    World(w.conns - {id}, w.paused && !w.conns[id].holds)
  }

  /** The answer goes out, or the connection ends. */
  function Answer(w: World, id: nat, c: Conn, delivered: bool): World {
    var answered := w.(conns := w.conns[id := c.(phase := Idle)]);
    if delivered then answered else Close(answered, id)
  }

  function Waits(w: World, id: nat, phase: Phase, paused: bool): World
    requires id in w.conns
  {
    World(w.conns[id := w.conns[id].(phase := phase)], paused)
  }

  function Asked(w: World, id: nat, r: Request, refused: bool, delivered: bool): World
    requires id in w.conns
  {
    var c := w.conns[id];
    if RefuseBeforeHandshake(c.handshaken, r).Some? then Close(w, id)
    else
      match r
      case Handshake(matches) =>
        if matches then Answer(w, id, c.(handshaken := true), delivered) else Close(w, id)
      case PrepareFlash => if refused then Answer(w, id, c, delivered) else Waits(w, id, Preparing, true)
      case FinishFlash => Waits(w, id, Finishing, false)
      case ResumeDevice => Answer(w.(paused := false), id, c.(holds := false), delivered)
      case InstallFirmwareUpdate => if refused then Answer(w, id, c, delivered) else Waits(w, id, Installing, true)
      case ResetLatencyStats => Answer(w, id, c, delivered)
      case OtherRequest => Answer(w, id, c, delivered)
  }

  predicate Enabled(w: World, s: Step) {
    match s
    case Connect(id) => id !in w.conns
    case Ask(id, _, _, _) => id in w.conns && w.conns[id].phase == Idle
    case PortReleased(id, _, _) => id in w.conns && w.conns[id].phase == Preparing
    case ImageWritten(id) => id in w.conns && w.conns[id].phase == Installing
    case WaitEnded(id, _) => id in w.conns && (w.conns[id].phase == Finishing || w.conns[id].phase == Verifying)
    case Leave(id) => id in w.conns && w.conns[id].phase == Idle
  }

  /** Waiting for the pad to come back ends a FinishFlash, which gives the pause up,
      or an install, which never held one. */
  function Next(w: World, s: Step): World
    requires Enabled(w, s)
  {
    match s
    case Connect(id) => w.(conns := w.conns[id := Conn(false, false, Idle)])
    case Ask(id, r, refused, delivered) => Asked(w, id, r, refused, delivered)
    case PortReleased(id, inTime, delivered) =>
      var c := w.conns[id];
      if inTime then Answer(w, id, c.(holds := true), delivered)
      else Answer(w.(paused := false), id, c, delivered)
    case ImageWritten(id) => Waits(w, id, Verifying, false)
    case WaitEnded(id, delivered) =>
      var c := w.conns[id];
      Answer(w, id, if c.phase == Finishing then c.(holds := false) else c, delivered)
    case Leave(id) => Close(w, id)
  }

  predicate Claimed(w: World) { exists id :: id in w.conns && w.conns[id].Claims() }

  /** A paused pad is paused on some open connection's account. */
  predicate NotAbandoned(w: World) { w.paused ==> Claimed(w) }

  lemma AnswerKeeps(w: World, id: nat, c: Conn, delivered: bool)
    requires NotAbandoned(w) && id in w.conns && (w.paused && w.conns[id].Claims() ==> c.holds)
    ensures NotAbandoned(Answer(w, id, c, delivered))
  {
    if w.paused {
      var k :| k in w.conns && w.conns[k].Claims();
      var answered := w.(conns := w.conns[id := c.(phase := Idle)]);
      assert k in answered.conns && answered.conns[k].Claims();
      if !delivered { CloseKeeps(answered, id); }
    }
  }

  lemma CloseKeeps(w: World, id: nat)
    requires NotAbandoned(w) && id in w.conns && w.conns[id].phase == Idle
    ensures NotAbandoned(Close(w, id))
  {
    if Close(w, id).paused {
      var k :| k in w.conns && w.conns[k].Claims();
      assert k in Close(w, id).conns && Close(w, id).conns[k].Claims();
    }
  }

  lemma WaitsKeep(w: World, id: nat, phase: Phase, paused: bool)
    requires id in w.conns && (paused ==> phase == Preparing || phase == Installing)
    ensures NotAbandoned(Waits(w, id, phase, paused))
  {
    assert id in Waits(w, id, phase, paused).conns;
    assert paused ==> Waits(w, id, phase, paused).conns[id].Claims();
  }

  lemma StepKeeps(w: World, s: Step)
    requires NotAbandoned(w) && Enabled(w, s)
    ensures NotAbandoned(Next(w, s))
  {
    hide Answer, Close, Waits;
    match s
    case Connect(id) =>
      if w.paused {
        var k :| k in w.conns && w.conns[k].Claims();
        assert k in Next(w, s).conns && Next(w, s).conns[k].Claims();
      }
    case Ask(id, r, refused, delivered) =>
      var c := w.conns[id];
      if RefuseBeforeHandshake(c.handshaken, r).Some? || r == Handshake(false) {
        CloseKeeps(w, id);
      } else {
        match r
        case Handshake(_) => AnswerKeeps(w, id, c.(handshaken := true), delivered);
        case PrepareFlash =>
          if refused { AnswerKeeps(w, id, c, delivered); } else { WaitsKeep(w, id, Preparing, true); }
        case FinishFlash => WaitsKeep(w, id, Finishing, false);
        case ResumeDevice => AnswerKeeps(w.(paused := false), id, c.(holds := false), delivered);
        case InstallFirmwareUpdate =>
          if refused { AnswerKeeps(w, id, c, delivered); } else { WaitsKeep(w, id, Installing, true); }
        case ResetLatencyStats => AnswerKeeps(w, id, c, delivered);
        case OtherRequest => AnswerKeeps(w, id, c, delivered);
      }
    case PortReleased(id, inTime, delivered) =>
      if inTime { AnswerKeeps(w, id, w.conns[id].(holds := true), delivered); }
      else { AnswerKeeps(w.(paused := false), id, w.conns[id], delivered); }
    case ImageWritten(id) => WaitsKeep(w, id, Verifying, false);
    case WaitEnded(id, delivered) =>
      var c := w.conns[id];
      AnswerKeeps(w, id, if c.phase == Finishing then c.(holds := false) else c, delivered);
    case Leave(id) => CloseKeeps(w, id);
  }

  function Run(w: World, steps: seq<Step>): World
    requires Possible(w, steps)
    decreases |steps|
  {
    if steps == [] then w else Run(Next(w, steps[0]), steps[1..])
  }

  predicate Possible(w: World, steps: seq<Step>)
    decreases |steps|
  {
    steps == [] || (Enabled(w, steps[0]) && Possible(Next(w, steps[0]), steps[1..]))
  }

  const START := World(map[], false)

  /** No abandoned pause. In any interleaving of any number of connections sending
      any requests and leaving at any point, an answer lost on the way included, a
      paused pad is paused on some open connection's account; so with none open it
      is not paused. */
  lemma {:induction false} NoAbandonedPause(w: World, steps: seq<Step>)
    requires NotAbandoned(w) && Possible(w, steps)
    ensures NotAbandoned(Run(w, steps))
    ensures Run(w, steps).conns == map[] ==> !Run(w, steps).paused
    decreases |steps|
  {
    if steps != [] {
      StepKeeps(w, steps[0]);
      NoAbandonedPause(Next(w, steps[0]), steps[1..]);
    }
  }

  // ---- A claim without a pause --------------------------------------------------------------

  /** The connection a step is about. */
  function Who(s: Step): nat { s.id }

  /** The steps that switch a pause off: handing the pad back, a port that was not
      released in time or was for a client no longer there, an image written, and the
      end of a connection that holds. */
  predicate Releases(w: World, s: Step)
    requires Enabled(w, s)
  {
    match s
    case Connect(_) => false
    case Ask(id, r, refused, delivered) =>
      var c := w.conns[id];
      if RefuseBeforeHandshake(c.handshaken, r).Some? then c.holds
      else
        (match r
         case Handshake(matches) => c.holds && (!matches || !delivered)
         case PrepareFlash => c.holds && refused && !delivered
         case InstallFirmwareUpdate => c.holds && refused && !delivered
         case FinishFlash => true
         case ResumeDevice => true
         case _ => c.holds && !delivered)
    case PortReleased(_, inTime, delivered) => !inTime || !delivered
    case ImageWritten(_) => true
    case WaitEnded(id, delivered) => w.conns[id].phase == Verifying && w.conns[id].holds && !delivered
    case Leave(id) => w.conns[id].holds
  }

  /** A connection that holds goes on holding through its own release: one whose second
      PrepareFlash did not get the port in time, or that installs an image. */
  predicate KeepsOwn(w: World, s: Step)
    requires Enabled(w, s)
  {
    match s
    case PortReleased(id, inTime, delivered) => !inTime && delivered && w.conns[id].holds
    case ImageWritten(id) => w.conns[id].holds
    case _ => false
  }

  predicate OtherClaims(w: World, id: nat) { exists k :: k in w.conns && k != id && w.conns[k].Claims() }

  /** The step switches the pause off while someone goes on relying on it. */
  predicate Undermines(w: World, s: Step)
    requires Enabled(w, s)
  {
    w.paused && Releases(w, s) && (KeepsOwn(w, s) || OtherClaims(w, Who(s)))
  }

  predicate InStep(w: World) { w.paused <==> Claimed(w) }

  lemma SomeoneClaims(w: World, id: nat)
    requires id in w.conns && w.conns[id].Claims()
    ensures Claimed(w)
  {}

  /** Who else claims is not the step's business. */
  lemma OthersStay(w: World, s: Step, k: nat)
    requires Enabled(w, s) && k != Who(s)
    ensures k in Next(w, s).conns <==> k in w.conns
    ensures k in w.conns ==> Next(w, s).conns[k] == w.conns[k]
  {}

  /** A release ends the pause, and nothing else does. */
  lemma ReleasesExactly(w: World, s: Step)
    requires Enabled(w, s) && w.paused
    ensures Releases(w, s) <==> !Next(w, s).paused
  {}

  lemma OwnClaimAfter(w: World, s: Step)
    requires Enabled(w, s)
    ensures var n := Next(w, s);
            var own := Who(s) in n.conns && n.conns[Who(s)].Claims();
            && (own && !n.paused ==>
                  if w.paused then Releases(w, s) && KeepsOwn(w, s)
                  else Who(s) in w.conns && w.conns[Who(s)].Claims())
            && (KeepsOwn(w, s) ==> own)
  {}

  /** The other direction of `NotAbandoned` is not kept: the pause is one flag and not a
      count. From a pad paused exactly when someone claims it, a step leaves it so
      exactly when it does not release the pause while the releasing connection goes on
      holding or another one has a claim. */
  lemma ClaimIsLostExactly(w: World, s: Step)
    requires Enabled(w, s) && InStep(w)
    ensures InStep(Next(w, s)) <==> !Undermines(w, s)
  {
    hide Next, Releases, KeepsOwn;
    StepKeeps(w, s);
    OwnClaimAfter(w, s);
    var n := Next(w, s);
    if w.paused { ReleasesExactly(w, s); }
    if Undermines(w, s) {
      if KeepsOwn(w, s) {
        SomeoneClaims(n, Who(s));
      } else {
        var k :| k in w.conns && k != Who(s) && w.conns[k].Claims();
        OthersStay(w, s, k);
        SomeoneClaims(n, k);
      }
    } else if Claimed(n) && !n.paused {
      var k :| k in n.conns && n.conns[k].Claims();
      if k != Who(s) {
        OthersStay(w, s, k);
        SomeoneClaims(w, k);
      } else if !w.paused {
        SomeoneClaims(w, k);
      }
    }
  }

  predicate NoneUndermines(w: World, steps: seq<Step>)
    requires Possible(w, steps)
    decreases |steps|
  {
    steps == [] || (!Undermines(w, steps[0]) && NoneUndermines(Next(w, steps[0]), steps[1..]))
  }

  predicate InStepThroughout(w: World, steps: seq<Step>)
    requires Possible(w, steps)
    decreases |steps|
  {
    InStep(w) && (steps == [] || InStepThroughout(Next(w, steps[0]), steps[1..]))
  }

  /** Over whole runs: the pad is paused exactly on someone's account, at every point,
      exactly in the runs in which no step undermines a claim. */
  lemma {:induction false} PausedExactlyWhenClaimed(w: World, steps: seq<Step>)
    requires Possible(w, steps) && InStep(w)
    ensures InStepThroughout(w, steps) <==> NoneUndermines(w, steps)
    decreases |steps|
  {
    hide Next, Undermines, InStep, Enabled;
    if steps != [] {
      ClaimIsLostExactly(w, steps[0]);
      if InStep(Next(w, steps[0])) {
        PausedExactlyWhenClaimed(Next(w, steps[0]), steps[1..]);
      } else if |steps| > 1 {
        assert !InStepThroughout(Next(w, steps[0]), steps[1..]);
      }
    }
  }

  /** One client gets the pad ready to flash; another, merely asking to resume,
      resumes it under the first. */
  lemma AnotherClientResumes()
    ensures var steps := [Connect(1), Ask(1, Handshake(true), false, true), Ask(1, PrepareFlash, false, true),
                          PortReleased(1, true, true), Connect(2), Ask(2, Handshake(true), false, true),
                          Ask(2, ResumeDevice, false, true)];
            Possible(START, steps) && Claimed(Run(START, steps)) && !Run(START, steps).paused
  {
    var a := Next(START, Connect(1));
    var b := Next(a, Ask(1, Handshake(true), false, true));
    var c := Next(b, Ask(1, PrepareFlash, false, true));
    var d := Next(c, PortReleased(1, true, true));
    var e := Next(d, Connect(2));
    var f := Next(e, Ask(2, Handshake(true), false, true));
    var g := Next(f, Ask(2, ResumeDevice, false, true));
    assert 1 in g.conns && g.conns[1].Claims() && !g.paused;
    OneStep(f, [Ask(2, ResumeDevice, false, true)]);
    OneStep(e, [Ask(2, Handshake(true), false, true), Ask(2, ResumeDevice, false, true)]);
    var s4 := [Connect(2), Ask(2, Handshake(true), false, true), Ask(2, ResumeDevice, false, true)];
    OneStep(d, s4);
    OneStep(c, [PortReleased(1, true, true)] + s4);
    OneStep(b, [Ask(1, PrepareFlash, false, true), PortReleased(1, true, true)] + s4);
    OneStep(a, [Ask(1, Handshake(true), false, true), Ask(1, PrepareFlash, false, true), PortReleased(1, true,
        true)] + s4);
  }

  lemma OneStep(w: World, steps: seq<Step>)
    requires steps != []
    ensures Possible(w, steps) <==> Enabled(w, steps[0]) && Possible(Next(w, steps[0]), steps[1..])
    ensures Possible(w, steps) ==> Run(w, steps) == Run(Next(w, steps[0]), steps[1..])
  {}
}
