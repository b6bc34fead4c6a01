/** Single-instance claim over one socket path (desktop/gui/src/single_instance.rs,
    Unix `claim_at`): any number of launches race through bind, connect and
    unlink steps, interleaved in any order. */
module SingleInstance {

  /** What is at the socket path. `Bound` is a socket whose owner has bound it
      but not yet called listen; `Stale` is a crashed instance's leftover. */
  datatype Socket =
    | Absent
    | Bound(owner: nat)
    | Live(owner: nat)
    | Stale

  datatype Claim =
    | Primary(listening: bool)
    | Secondary

  /** Where one launch stands in `claim_at`'s two-attempt loop. */
  datatype Launch =
    | Bind(attempt: nat)
    | Listen
    | Connect(attempt: nat)
    | Unlink
    | Done(claim: Claim)

  datatype World = World(socket: Socket, launches: seq<Launch>)

  /** The next step of launch `p`. With `split`, binding and listening are two
      steps, as the operating system performs them; without, they are one. */
  function Step(w: World, p: nat, split: bool): World {
    if p >= |w.launches| then w
    else
      match w.launches[p]
      case Bind(attempt) =>
        if !w.socket.Absent? then w.(launches := w.launches[p := Connect(attempt)])
        else if split then World(Bound(p), w.launches[p := Listen])
        else World(Live(p), w.launches[p := Done(Primary(true))])
      case Listen =>
        // Listens on the socket it bound, whether or not the file is still that one
        World(if w.socket == Bound(p) then Live(p) else w.socket, w.launches[p := Done(Primary(true))])
      case Connect(attempt) =>
        if w.socket.Live? then w.(launches := w.launches[p := Done(Secondary)])
        else if w.socket.Absent? || attempt > 0 then w.(launches := w.launches[p := Done(Primary(false))])
        else w.(launches := w.launches[p := Unlink])
      case Unlink => World(Absent, w.launches[p := Bind(1)])
      case Done(_) => w
  }

  function Run(w: World, schedule: seq<nat>, split: bool): World
    decreases |schedule|
  {
    if schedule == [] then w else Run(Step(w, schedule[0], split), schedule[1..], split)
  }

  function Start(n: nat, stale: bool): World {
    World(if stale then Stale else Absent, seq(n, _ => Bind(0)))
  }

  predicate IsPrimary(l: Launch) { l.Done? && l.claim.Primary? }

  /** At most one launch has become the instance. */
  ghost predicate AtMostOnePrimary(w: World) {
    forall p, q | 0 <= p < |w.launches| && 0 <= q < |w.launches| ::
      IsPrimary(w.launches[p]) && IsPrimary(w.launches[q]) ==> p == q
  }

  ghost predicate AllDone(w: World) {
    forall p :: 0 <= p < |w.launches| ==> w.launches[p].Done?
  }

  // ---- No leftover file, bind and listen as one step ------------------------

  /** Nobody is about to unlink; the socket is absent until its one owner binds
      it, and live from then on. */
  ghost predicate Clean(w: World) {
    && (w.socket.Absent? || w.socket.Live?)
    && (w.socket.Live? ==> w.socket.owner < |w.launches| && w.launches[w.socket.owner] == Done(Primary(true)))
    && forall p :: 0 <= p < |w.launches| ==>
         match w.launches[p]
         case Bind(a) => a == 0
         case Connect(_) => w.socket.Live?
         case Done(Primary(l)) => l && w.socket == Live(p)
         case Done(Secondary) => w.socket.Live?
         case _ => false
  }

  lemma CleanStep(w: World, p: nat)
    requires Clean(w)
    ensures Clean(Step(w, p, false)) && |Step(w, p, false).launches| == |w.launches|
    ensures w.socket.Live? ==> Step(w, p, false).socket == w.socket
  {}

  lemma {:induction false} CleanRun(w: World, schedule: seq<nat>)
    requires Clean(w)
    ensures Clean(Run(w, schedule, false)) && |Run(w, schedule, false).launches| == |w.launches|
    ensures w.socket.Live? ==> Run(w, schedule, false).socket == w.socket
    decreases |schedule|
  {
    if schedule != [] {
      CleanStep(w, schedule[0]);
      CleanRun(Step(w, schedule[0], false), schedule[1..]);
    }
  }

  /** From a path with no leftover file, under every interleaving: at most one
      launch becomes the instance, it holds the listener, and a live socket is
      never unlinked or replaced by any later steps. */
  lemma OnePrimary(n: nat, schedule: seq<nat>, later: seq<nat>)
    ensures var w := Run(Start(n, false), schedule, false);
            && |w.launches| == n
            && AtMostOnePrimary(w)
            && (forall p :: 0 <= p < n && IsPrimary(w.launches[p]) ==> w.launches[p].claim.listening)
            && (w.socket.Live? ==> Run(w, later, false).socket == w.socket)
  {
    CleanRun(Start(n, false), schedule);
    CleanRun(Run(Start(n, false), schedule, false), later);
  }

  /** ...and once every launch has returned, exactly one is the instance and
      every other handed off to it. */
  lemma ExactlyOnePrimary(n: nat, schedule: seq<nat>) returns (p: nat)
    requires n > 0 && AllDone(Run(Start(n, false), schedule, false))
    ensures var w := Run(Start(n, false), schedule, false);
            && p < n == |w.launches|
            && w.launches[p] == Done(Primary(true))
            && forall q :: 0 <= q < n && q != p ==> w.launches[q] == Done(Secondary)
  {
    CleanRun(Start(n, false), schedule);
    var w := Run(Start(n, false), schedule, false);
    assert w.launches[0].Done?;
    p := w.socket.owner;
  }

  /** How far a launch is from returning, in its own steps. */
  function Remaining(l: Launch): nat {
    match l
    case Bind(a) => if a == 0 then 6 else 3
    case Connect(a) => if a == 0 then 5 else 2
    case Unlink => 4
    case Listen => 1
    case Done(_) => 0
  }

  /** Every launch returns within six of its own steps, whatever it finds and
      whoever runs in between. */
  lemma EveryStepProgresses(w: World, p: nat, split: bool)
    requires p < |w.launches|
    ensures var w' := Step(w, p, split);
            && |w'.launches| == |w.launches|
            && (!w.launches[p].Done? ==> Remaining(w'.launches[p]) < Remaining(w.launches[p]))
            && forall q :: 0 <= q < |w.launches| && q != p ==> w'.launches[q] == w.launches[q]
  {}

  // ---- Exactly when it holds ------------------------------------------------

  lemma {:induction false} LengthKept(w: World, schedule: seq<nat>, split: bool)
    ensures |Run(w, schedule, split).launches| == |w.launches|
    decreases |schedule|
  {
    if schedule != [] { LengthKept(Step(w, schedule[0], split), schedule[1..], split); }
  }

  /** One step of a schedule, then the rest. */
  lemma RunStep(w: World, p: nat, w': World, rest: seq<nat>, split: bool, end: World)
    requires w' == Step(w, p, split) && Run(w', rest, split) == end
    ensures Run(w, [p] + rest, split) == end
  {
    assert ([p] + rest)[1..] == rest;
  }

  /** Both launches saw the leftover file: the second unlinks the first's fresh
      socket and becomes a second instance. */
  lemma StaleStartMakesTwo(n: nat) returns (schedule: seq<nat>)
    requires n >= 2
    ensures !AtMostOnePrimary(Run(Start(n, true), schedule, false))
  {
    var w0 := Start(n, true);
    var w1 := Step(w0, 0, false);
    var w2 := Step(w1, 1, false);
    var w3 := Step(w2, 0, false);
    var w4 := Step(w3, 1, false);
    assert w4.launches[0] == w4.launches[1] == Unlink;
    var w5 := Step(w4, 0, false);
    var w6 := Step(w5, 0, false);
    assert w6.socket == Live(0) && w6.launches[0] == Done(Primary(true));
    var w7 := Step(w6, 1, false);
    var w8 := Step(w7, 1, false);
    assert IsPrimary(w8.launches[0]) && IsPrimary(w8.launches[1]);
    schedule := [];
    RunStep(w7, 1, w8, schedule, false, w8); schedule := [1] + schedule;
    RunStep(w6, 1, w7, schedule, false, w8); schedule := [1] + schedule;
    RunStep(w5, 0, w6, schedule, false, w8); schedule := [0] + schedule;
    RunStep(w4, 0, w5, schedule, false, w8); schedule := [0] + schedule;
    RunStep(w3, 1, w4, schedule, false, w8); schedule := [1] + schedule;
    RunStep(w2, 0, w3, schedule, false, w8); schedule := [0] + schedule;
    RunStep(w1, 1, w2, schedule, false, w8); schedule := [1] + schedule;
    RunStep(w0, 0, w1, schedule, false, w8); schedule := [0] + schedule;
  }

  /** With a gap between bind and listen, a second launch is refused by a socket
      that is about to go live, unlinks it, and becomes a second instance. */
  lemma SplitListenMakesTwo(n: nat) returns (schedule: seq<nat>)
    requires n >= 2
    ensures !AtMostOnePrimary(Run(Start(n, false), schedule, true))
  {
    var w0 := Start(n, false);
    var w1 := Step(w0, 0, true);
    var w2 := Step(w1, 1, true);
    var w3 := Step(w2, 1, true);
    var w4 := Step(w3, 1, true);
    var w5 := Step(w4, 1, true);
    var w6 := Step(w5, 1, true);
    assert w6.socket == Live(1) && w6.launches[0] == Listen;
    var w7 := Step(w6, 0, true);
    assert IsPrimary(w7.launches[0]) && IsPrimary(w7.launches[1]);
    schedule := [];
    RunStep(w6, 0, w7, schedule, true, w7); schedule := [0] + schedule;
    RunStep(w5, 1, w6, schedule, true, w7); schedule := [1] + schedule;
    RunStep(w4, 1, w5, schedule, true, w7); schedule := [1] + schedule;
    RunStep(w3, 1, w4, schedule, true, w7); schedule := [1] + schedule;
    RunStep(w2, 1, w3, schedule, true, w7); schedule := [1] + schedule;
    RunStep(w1, 1, w2, schedule, true, w7); schedule := [1] + schedule;
    RunStep(w0, 0, w1, schedule, true, w7); schedule := [0] + schedule;
  }

  /** A leftover file breaks it with split bind and listen as well. */
  lemma StaleSplitMakesTwo(n: nat) returns (schedule: seq<nat>)
    requires n >= 2
    ensures !AtMostOnePrimary(Run(Start(n, true), schedule, true))
  {
    var w0 := Start(n, true);
    var w1 := Step(w0, 0, true);
    var w2 := Step(w1, 1, true);
    var w3 := Step(w2, 0, true);
    var w4 := Step(w3, 1, true);
    assert w4.launches[0] == w4.launches[1] == Unlink;
    var w5 := Step(w4, 0, true);
    var w6 := Step(w5, 0, true);
    var w7 := Step(w6, 0, true);
    assert w7.socket == Live(0) && w7.launches[0] == Done(Primary(true));
    var w8 := Step(w7, 1, true);
    var w9 := Step(w8, 1, true);
    var w10 := Step(w9, 1, true);
    assert IsPrimary(w10.launches[0]) && IsPrimary(w10.launches[1]);
    schedule := [];
    RunStep(w9, 1, w10, schedule, true, w10); schedule := [1] + schedule;
    RunStep(w8, 1, w9, schedule, true, w10); schedule := [1] + schedule;
    RunStep(w7, 1, w8, schedule, true, w10); schedule := [1] + schedule;
    RunStep(w6, 0, w7, schedule, true, w10); schedule := [0] + schedule;
    RunStep(w5, 0, w6, schedule, true, w10); schedule := [0] + schedule;
    RunStep(w4, 0, w5, schedule, true, w10); schedule := [0] + schedule;
    RunStep(w3, 1, w4, schedule, true, w10); schedule := [1] + schedule;
    RunStep(w2, 0, w3, schedule, true, w10); schedule := [0] + schedule;
    RunStep(w1, 1, w2, schedule, true, w10); schedule := [1] + schedule;
    RunStep(w0, 0, w1, schedule, true, w10); schedule := [0] + schedule;
  }

  /** No schedule makes two instances exactly when there is only one launch, or
      no leftover file and no gap between bind and listen. */
  lemma SingleInstanceExactly(n: nat, stale: bool, split: bool)
    ensures (forall schedule :: AtMostOnePrimary(Run(Start(n, stale), schedule, split)))
       <==> n <= 1 || (!stale && !split)
  {
    if n <= 1 {
      forall schedule ensures AtMostOnePrimary(Run(Start(n, stale), schedule, split)) {
        LengthKept(Start(n, stale), schedule, split);
      }
    } else if !stale && !split {
      forall schedule ensures AtMostOnePrimary(Run(Start(n, stale), schedule, split)) {
        OnePrimary(n, schedule, []);
      }
    } else {
      var schedule;
      if !split { schedule := StaleStartMakesTwo(n); }
      else if !stale { schedule := SplitListenMakesTwo(n); }
      else { schedule := StaleSplitMakesTwo(n); }
      assert !AtMostOnePrimary(Run(Start(n, stale), schedule, split));
    }
  }

  // ---- One launch on its own ------------------------------------------------

  /** The socket path as one launch sees it when nobody else runs. */
  class SocketPath {
    var socket: Socket

    constructor (socket: Socket)
      ensures this.socket == socket
    {
      this.socket := socket;
    }

    /** Binds when nothing is in the way; on a refused connection removes the
        leftover once and tries again. */
    method ClaimAt(p: nat) returns (claim: Claim)
      requires !socket.Bound?
      modifies this
      ensures old(socket).Live? ==> claim == Secondary && socket == old(socket)
      ensures !old(socket).Live? ==> claim == Primary(true) && socket == Live(p)
    {
      var attempt := 0;
      while attempt < 2
        invariant 0 <= attempt <= 2
        invariant attempt == 0 ==> socket == old(socket)
        invariant attempt >= 1 ==> old(socket).Stale? && socket.Absent?
        invariant attempt < 2
      {
        if socket.Absent? {
          socket := Live(p);
          return Primary(true);
        }
        if socket.Live? {
          return Secondary;
        }
        if attempt == 0 {
          socket := Absent;
        } else {
          return Primary(false);
        }
        attempt := attempt + 1;
      }
      claim := Primary(false);
    }
  }

  /** A launch on its own runs the steps above to the same answer: what the
      loop of `ClaimAt` promises is what the step machine does. */
  lemma AloneMatchesTheSteps(socket: Socket)
    requires !socket.Bound?
    ensures var w := Run(World(socket, [Bind(0)]), [0, 0, 0, 0], false);
            if socket.Live? then w == World(socket, [Done(Secondary)])
            else w == World(Live(0), [Done(Primary(true))])
  {
    var w0 := World(socket, [Bind(0)]);
    var w1 := Step(w0, 0, false);
    var w2 := Step(w1, 0, false);
    var w3 := Step(w2, 0, false);
    var w4 := Step(w3, 0, false);
    RunStep(w3, 0, w4, [], false, w4);
    RunStep(w2, 0, w3, [0], false, w4);
    RunStep(w1, 0, w2, [0, 0], false, w4);
    RunStep(w0, 0, w1, [0, 0, 0], false, w4);
  }
}
