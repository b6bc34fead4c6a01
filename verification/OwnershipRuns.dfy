/** A pad that belongs to another install, against everything that can write to it at
    once: the runtime's turns, the IPC requests, the takeover the runtime starts by
    itself, and syncs (desktop/daemon/src/runtime.rs, ipc_handlers.rs, sync.rs and
    main.rs). Requests, takeovers and syncs are split at their waits, so any number of
    them, begun at any time, may be under way when the pad connects. */
module OwnershipRuns {
  import opened Options
  import opened Counters
  import opened Daemon
  import opened Runtime
  import opened Desks
  import opened IpcHandlers
  import ForeignPads
  import CounterSync

  /** What a job was begun by, and on what desk: a request, the runtime's wish to take a
      pad over without asking, or a sync that passed its checks. */
  datatype Origin =
    | ByRequest(before: Desk, request: Request)
    | ByOffer(before: Desk)
    | BySync

  /** A request or sync under way: with messages to send one after the other; waiting for a
      pad's answer to its claim; with the claim taken, the counters to send first and then
      what is shown by then; or a sync between its checks and its end. */
  datatype Job =
    | Sending(origin: Origin, left: seq<ToPad>)
    | Claiming(origin: Origin, pending: PendingTakeover, target: CounterState)
    | TakingOver(origin: Origin, target: CounterState, left: seq<ToPad>, told: bool)
    | Syncing

  /** What was done, in order: an action of the runtime's, a message of a job's, a claim
      the pad took, and the end of a takeover, which clears the guard. */
  datatype Entry =
    | Emitted(action: Action)
    | Sent(job: nat, origin: Origin, message: ToPad)
    | Stuck(job: nat)
    | Freed(job: nat)

  /** The controller, whose state is the shared one between turns; the database and the
      queue; the jobs under way and the number of the next; how many silent takeovers were
      asked for and have not run; and what was done. */
  datatype World = World(
    c: Ctl, base: Option<Database>, queue: PendingOperations, jobs: map<nat, Job>, next: nat, offers: nat,
    log: seq<Entry>) {
    function AsDesk(): Desk { Desk(c.state, base, queue) }

    function Left(d: Desk): World { this.(c := c.(state := d.state), base := d.base, queue := d.queue) }

    function Begun(t: Job): World { this.(jobs := jobs[next := t], next := next + 1) }

    function Logged(x: Entry): World { this.(log := log + [x]) }
  }

  /** `Asks` is any request but the answer to the ownership prompt, which `Resolves` gives,
      and `ForceSync`, which begins a sync. What a job writes on its way is `Writes`. */
  datatype Step =
    | Handles(event: Event, now: int)
    | Asks(request: Request, luck: Luck)
    | Resolves(takeOver: bool, keep: bool)
    | Offers
    | Sticks(id: nat, luck: Luck)
    | Fails(id: nat)
    | Sends(id: nat)
    | SyncBegins
    | SyncSends(id: nat, message: ToPad)
    | Writes(id: nat, desk: Desk)
    | Ends(id: nat)
    | Others(after: DaemonState)

  /** What a job has to send as things are. */
  function Outgoing(s: DaemonState, t: Job): seq<ToPad> {
    match t
    case Sending(_, left) => left
    case TakingOver(_, _, left, told) =>
      if left == [] && !told then [ConfigTo(s.config)] + LayoutsTo(s.customLayouts) else left
    case _ => []
  }

  /** The job with its next message sent. */
  function Onward(s: DaemonState, t: Job): Job
    requires Outgoing(s, t) != []
  {
    match t
    case Sending(origin, left) => Sending(origin, left[1..])
    case TakingOver(origin, target, left, told) =>
      TakingOver(origin, target, Outgoing(s, t)[1..], told || left == [])
  }

  predicate Over(t: Job) {
    match t
    case Sending(_, left) => left == []
    case TakingOver(_, _, left, told) => told && left == []
    case Claiming(_, _, _) => false
    case Syncing => true
  }

  ghost predicate Enabled(w: World, s: Step) {
    match s
    case Asks(r, _) => !r.ResolveTakeover? && !r.ForceSync?
    case Offers => w.offers > 0
    case Sticks(id, _) => id in w.jobs && w.jobs[id].Claiming?
    case Fails(id) => id in w.jobs && w.jobs[id].Claiming?
    case Sends(id) => id in w.jobs && Outgoing(w.c.state, w.jobs[id]) != []
    case SyncBegins => CounterSync.Reaches(w.AsDesk()) && forall id :: id in w.jobs ==> !w.jobs[id].Syncing?
    case SyncSends(id, m) => id in w.jobs && w.jobs[id].Syncing? && !m.Claim?
    case Writes(id, desk) => id in w.jobs && desk.state.foreignPad == w.c.state.foreignPad
    case Ends(id) => id in w.jobs && Over(w.jobs[id])
    case Others(after) => after.foreignPad == w.c.state.foreignPad
    case _ => true
  }

  function Entries(actions: seq<Action>): seq<Entry> {
    seq(|actions|, i requires 0 <= i < |actions| => Emitted(actions[i]))
  }

  /** Whether the runtime asks for the silent takeover. */
  function OffersIn(actions: seq<Action>): nat { if TakeOverIfPadIsAhead in actions then 1 else 0 }

  /** What the turn deferred goes to the queue. */
  function Deferring(q: PendingOperations, lastSeen: Option<string>): PendingOperations {
    if lastSeen.Some? then q.(lastSeen := lastSeen) else q
  }

  /** The ownership prompt answered: the prompt is taken away, and, if the pad is to be and
      can be taken over, the claim goes out. */
  function Resolved(w: World, origin: Origin, takeOver: bool, keep: bool): World {
    var d := w.AsDesk();
    if InPlay(d.state) || d.state.pendingTakeover.None? then w
    else
      var open := d.(state := d.state.(pendingTakeover := None));
      if d.state.deviceInfo.None? || !takeOver then w.Left(open)
      else if d.base.None? || d.state.installId.None? then w
      else
        var target := TakeoverTarget(open, d.state.deviceInfo.value.deviceId, keep);
        w.Left(open).Begun(Claiming(origin, d.state.pendingTakeover.value, target))
         .Logged(Sent(w.next, origin, Claim(d.state.installId.value)))
  }

  function Next(env: Env, w: World, s: Step): World
    requires Enabled(w, s)
  {
    match s
    case Handles(e, now) =>
      var o := OnEvent(env, Remember(w.c), e, now);
      w.(c := Settled(o.c), queue := Deferring(w.queue, o.c.pairing.pendingLastSeen),
         offers := w.offers + OffersIn(o.actions), log := w.log + Entries(o.actions))
    case Asks(r, luck) => w.Begun(Sending(ByRequest(w.AsDesk(), r), Handle(w.AsDesk(), r, luck).sent))
    case Resolves(takeOver, keep) =>
      Resolved(w, ByRequest(w.AsDesk(), ResolveTakeover(takeOver, keep)), takeOver, keep)
    case Offers =>
      var d := w.AsDesk();
      var p := d.state.pendingTakeover;
      var rest := w.(offers := w.offers - 1);
      if p.None? || PcIsAhead(PcFor(d, p.value), OfferedCounters(p.value)) then rest
      else Resolved(rest, ByOffer(d), true, true)
    case Sticks(id, luck) =>
      var t := w.jobs[id];
      var d := w.AsDesk().SaveRow(t.target.deviceId, t.target, luck.now, luck.rowTaken)
                .Touch(t.target.deviceId, luck.now, luck.seenTaken);
      w.Left(d).(jobs := w.jobs[id := TakingOver(t.origin, t.target, [CountersTo(t.target, true)], false)])
       .Logged(Stuck(id))
    case Fails(id) =>
      var d := w.AsDesk();
      w.Left(d.(state := d.state.(pendingTakeover := Some(w.jobs[id].pending)))).(jobs := w.jobs - {id})
    case Sends(id) =>
      var t := w.jobs[id];
      w.(jobs := w.jobs[id := Onward(w.c.state, t)]).Logged(Sent(id, t.origin, Outgoing(w.c.state, t)[0]))
    case SyncBegins => w.Begun(Syncing)
    case SyncSends(id, m) => w.Logged(Sent(id, BySync, m))
    case Writes(_, desk) => w.Left(desk)
    case Ends(id) =>
      var t := w.jobs[id];
      var rest := w.(jobs := w.jobs - {id});
      if t.TakingOver? then
        rest.(c := w.c.(state := WithCounters(w.c.state.(foreignPad := false), t.target))).Logged(Freed(id))
      else rest
    case Others(after) => w.(c := w.c.(state := after))
  }

  // ---- What may reach such a pad ----------------------------------------------------------

  /** The entry is something that reached the pad. */
  predicate ReachesPad(x: Entry) { (x.Emitted? && ForeignPads.Intrudes(x.action)) || x.Sent? }

  /** A claim is made out of play, on the prompt, with the database open and an identity to
      claim with; on the user's yes, or without asking, and then only with no presses of
      this PC's to lose. */
  predicate ProperClaim(x: Entry) {
    x.Sent? && x.message.Claim? ==>
      && !x.origin.BySync?
      && var d := x.origin.before;
         && !InPlay(d.state) && d.state.pendingTakeover.Some? && d.base.Some?
         && d.state.installId.Some? && x.message == Claim(d.state.installId.value)
         && (x.origin.ByRequest? ==> x.origin.request.ResolveTakeover? && x.origin.request.takeOver)
         && (x.origin.ByOffer? ==>
               var p := d.state.pendingTakeover.value; !PcIsAhead(PcFor(d, p), OfferedCounters(p)))
  }

  /** What can reach it all the same: the restore its replacement prompt was answered with,
      the one request that asks nobody. */
  predicate Unasked(origin: Origin, m: ToPad) {
    && origin.ByRequest?
    && ((Restores(origin.before, origin.request) && m.CountersTo? && m.force)
        || (origin.request.TriggerEasterEgg? && m == ValuesTo(EASTER_EGG)))
  }

  /** And the claims, and the messages of what was begun before `mark`. */
  predicate Excepted(x: Entry, mark: nat) {
    x.Sent? && (x.job < mark || x.message.Claim? || Unasked(x.origin, x.message))
  }

  /** The pad took a claim made since, or a takeover of the pad before it ended. */
  predicate Releases(x: Entry, mark: nat) { (x.Stuck? && x.job >= mark) || x.Freed? }

  predicate Released(log: seq<Entry>, upTo: nat, mark: nat) {
    exists j :: 0 <= j < |log| && j < upTo && Releases(log[j], mark)
  }

  predicate ClaimMade(log: seq<Entry>, upTo: nat, id: nat) {
    exists j :: 0 <= j < |log| && j < upTo && log[j].Sent? && log[j].job == id && log[j].message.Claim?
  }

  /** An entry that may follow `log`. */
  predicate Allowed(log: seq<Entry>, x: Entry, mark: nat) {
    && ProperClaim(x)
    && (ReachesPad(x) ==> Released(log, |log|, mark) || Excepted(x, mark))
    && (x.Stuck? && x.job >= mark ==> ClaimMade(log, |log|, x.job))
  }

  predicate Respected(log: seq<Entry>, mark: nat) {
    forall i :: 0 <= i < |log| ==> Allowed(log[..i], log[i], mark)
  }

  // ---- The invariant ------------------------------------------------------------------------

  /** A job begun with the pad guarded has nothing to send to it but what asks nobody. */
  predicate Harmless(t: Job) {
    match t
    case Sending(origin, left) => forall m :: m in left ==> Unasked(origin, m)
    case Claiming(_, _, _) => true
    case TakingOver(_, _, _, _) => false
    case Syncing => false
  }

  /** No job left with a claim to send. */
  predicate Claimless(t: Job) {
    (t.Sending? || t.TakingOver?) ==> forall m :: m in t.left ==> !m.Claim?
  }

  ghost predicate Inv(w: World, mark: nat) {
    && mark <= w.next && (forall id :: id in w.jobs ==> id < w.next && Claimless(w.jobs[id]))
    && Respected(w.log, mark)
    && (forall id :: id in w.jobs && id >= mark && w.jobs[id].Claiming? ==> ClaimMade(w.log, |w.log|, id))
    && (Released(w.log, |w.log|, mark)
        || (w.c.state.foreignPad && forall id :: id in w.jobs && id >= mark ==> Harmless(w.jobs[id])))
  }

  /** Until it is released, the pad is neither lost nor replaced by one that is not
      someone's. */
  ghost predicate Episode(env: Env, w: World, mark: nat, steps: seq<Step>)
    decreases |steps|
  {
    steps == []
    || (Enabled(w, steps[0]) && Stays(w, mark, steps[0]) && Episode(env, Next(env, w, steps[0]), mark, steps[1..]))
  }

  ghost predicate Stays(w: World, mark: nat, s: Step) {
    s.Handles? && !Released(w.log, |w.log|, mark) ==> ForeignPads.StaysForeign(Remember(w.c), s.event)
  }

  function Run(env: Env, w: World, mark: nat, steps: seq<Step>): World
    requires Episode(env, w, mark, steps)
    decreases |steps|
  {
    if steps == [] then w else Run(env, Next(env, w, steps[0]), mark, steps[1..])
  }

  // ---- The log ----------------------------------------------------------------------------------

  lemma ReleasedLater(log: seq<Entry>, x: Entry, mark: nat)
    ensures Released(log + [x], |log| + 1, mark) <==> Released(log, |log|, mark) || Releases(x, mark)
  {
    var all := log + [x];
    if Released(log, |log|, mark) {
      var j :| 0 <= j < |log| && Releases(log[j], mark);
      assert Releases(all[j], mark);
    }
    if Releases(x, mark) { assert Releases(all[|log|], mark); }
  }

  lemma ClaimMadeLater(log: seq<Entry>, x: Entry, id: nat)
    ensures ClaimMade(log, |log|, id) ==> ClaimMade(log + [x], |log| + 1, id)
    ensures x.Sent? && x.job == id && x.message.Claim? ==> ClaimMade(log + [x], |log| + 1, id)
  {
    var all := log + [x];
    if ClaimMade(log, |log|, id) {
      var j :| 0 <= j < |log| && log[j].Sent? && log[j].job == id && log[j].message.Claim?;
      assert all[j] == log[j];
    }
    assert all[|log|] == x;
  }

  lemma RespectedSnoc(log: seq<Entry>, x: Entry, mark: nat)
    requires Respected(log, mark) && Allowed(log, x, mark)
    ensures Respected(log + [x], mark)
  {
    hide Allowed;
    var all := log + [x];
    forall i | 0 <= i < |all| ensures Allowed(all[..i], all[i], mark) {
      assert all[..i] == log[..i];
      if i == |log| { assert log[..i] == log; }
    }
  }

  /** Actions of the runtime's behind a log in order. */
  lemma {:induction false} RespectedEmits(log: seq<Entry>, actions: seq<Action>, mark: nat)
    requires Respected(log, mark)
    requires Released(log, |log|, mark) || forall a :: a in actions ==> !ForeignPads.Intrudes(a)
    ensures var all := log + Entries(actions);
            && Respected(all, mark)
            && (Released(all, |all|, mark) <==> Released(log, |log|, mark))
            && forall id: nat :: ClaimMade(log, |log|, id) ==> ClaimMade(all, |all|, id)
    decreases |actions|
  {
    hide Respected, Released, ClaimMade;
    if actions == [] {
      assert log + Entries(actions) == log;
    } else {
      var n := |actions| - 1;
      var x := Emitted(actions[n]);
      RespectedEmits(log, actions[..n], mark);
      var before := log + Entries(actions[..n]);
      RespectedSnoc(before, x, mark);
      ReleasedLater(before, x, mark);
      forall id: nat ensures ClaimMade(before, |before|, id) ==> ClaimMade(before + [x], |before| + 1, id) {
        ClaimMadeLater(before, x, id);
      }
      assert before + [x] == log + Entries(actions);
    }
  }

  // ---- One step -----------------------------------------------------------------------------

  /** A request made while the pad is guarded has nothing for it but what asks nobody. */
  lemma RequestIsHarmless(d: Desk, r: Request, luck: Luck)
    requires d.state.foreignPad && !r.ResolveTakeover?
    ensures Harmless(Sending(ByRequest(d, r), Handle(d, r, luck).sent))
  {
    hide Handle;
    GuardedPadIsTouchedExactly(d, r, luck);
    if r.TriggerEasterEgg? { EggIs(d, luck); }
  }

  lemma EggIs(d: Desk, luck: Luck)
    ensures Handle(d, TriggerEasterEgg, luck) == Done(d, [ValuesTo(EASTER_EGG)], EasterEggTriggered)
  {}

  lemma RequestIsClaimless(d: Desk, r: Request, luck: Luck)
    requires !r.ResolveTakeover? && !r.ForceSync?
    ensures forall m :: m in Handle(d, r, luck).sent ==> !m.Claim?
  {
    hide Imposed, LayoutSet;
    match r
    case SetLayout(screen, layout) =>
      LayoutSends(d.(state := d.state.(customLayouts := InsertLayout(d.state.customLayouts, (screen, layout)))),
                  screen, Some(layout), luck);
    case ResetLayout(screen) =>
      LayoutSends(d.(state := d.state.(customLayouts := RemoveLayout(d.state.customLayouts, screen))),
                  screen, None, luck);
    case RestoreDeviceFromPc(_) => ImposedSends();
    case ImportPcFromDevice(_) => ImposedSends();
    case _ =>
  }

  lemma ImposedSends()
    ensures forall d, id, target, luck :: Imposed(d, id, target, luck).sent == [CountersTo(target, true)]
  {}

  lemma LayoutSends(d: Desk, screen: Screen, layout: Option<Layout>, luck: Luck)
    ensures forall m :: m in LayoutSet(d, screen, layout, luck).sent ==> !m.Claim?
  {}

  lemma TurnKeeps(env: Env, w: World, e: Event, now: int, mark: nat)
    requires Inv(w, mark) && Stays(w, mark, Handles(e, now))
    ensures Inv(Next(env, w, Handles(e, now)), mark)
  {
    hide OnEvent, Respected, Released, ClaimMade, Harmless, Claimless, ForeignPads.StaysForeign, ForeignPads.Intrudes;
    var o := OnEvent(env, Remember(w.c), e, now);
    if !Released(w.log, |w.log|, mark) { ForeignPads.EventLeaves(env, Remember(w.c), e, now); }
    RespectedEmits(w.log, o.actions, mark);
  }

  lemma AskKeeps(env: Env, w: World, s: Step, mark: nat)
    requires Inv(w, mark) && s.Asks? && Enabled(w, s)
    ensures Inv(Next(env, w, s), mark)
  {
    hide Handle, Respected, Released, ClaimMade, Harmless;
    RequestIsClaimless(w.AsDesk(), s.request, s.luck);
    if w.c.state.foreignPad { RequestIsHarmless(w.AsDesk(), s.request, s.luck); }
  }

  /** The prompt answered, by whomever it may be. */
  lemma ResolvedKeeps(w: World, origin: Origin, takeOver: bool, keep: bool, mark: nat)
    requires Inv(w, mark) && !origin.BySync? && origin.before.state == w.c.state && origin.before.base == w.base
    requires origin.ByRequest? ==> origin.request == ResolveTakeover(takeOver, keep)
    requires origin.ByOffer? && w.c.state.pendingTakeover.Some? ==>
               var p := w.c.state.pendingTakeover.value; !PcIsAhead(PcFor(origin.before, p), OfferedCounters(p))
    ensures Inv(Resolved(w, origin, takeOver, keep), mark)
  {
    hide Respected, Released, ClaimMade, TakeoverTarget, PcIsAhead, PcFor, OfferedCounters;
    var r := Resolved(w, origin, takeOver, keep);
    if r.log != w.log {
      var x := Sent(w.next, origin, Claim(w.c.state.installId.value));
      RespectedSnoc(w.log, x, mark);
      ReleasedLater(w.log, x, mark);
      forall id | id in r.jobs && id >= mark && r.jobs[id].Claiming? ensures ClaimMade(r.log, |r.log|, id) {
        ClaimMadeLater(w.log, x, id);
      }
    }
  }

  lemma OfferKeeps(env: Env, w: World, mark: nat)
    requires Inv(w, mark) && w.offers > 0
    ensures Inv(Next(env, w, Offers), mark)
  {
    hide Resolved, Respected, Released, ClaimMade, PcIsAhead, PcFor, OfferedCounters, Harmless, Claimless;
    var d := w.AsDesk();
    var p := d.state.pendingTakeover;
    var rest := w.(offers := w.offers - 1);
    assert Inv(rest, mark);
    if p.Some? && !PcIsAhead(PcFor(d, p.value), OfferedCounters(p.value)) {
      ResolvedKeeps(rest, ByOffer(d), true, true, mark);
    }
  }

  lemma StickKeeps(env: Env, w: World, s: Step, mark: nat)
    requires Inv(w, mark) && s.Sticks? && Enabled(w, s)
    ensures Inv(Next(env, w, s), mark)
  {
    hide Respected, Released, ClaimMade, Desk.SaveRow, Desk.Touch;
    var n := Next(env, w, s);
    var x := Stuck(s.id);
    RespectedSnoc(w.log, x, mark);
    ReleasedLater(w.log, x, mark);
    forall id | id in n.jobs && id >= mark && n.jobs[id].Claiming? ensures ClaimMade(n.log, |n.log|, id) {
      ClaimMadeLater(w.log, x, id);
    }
  }

  lemma SendKeeps(env: Env, w: World, s: Step, mark: nat)
    requires Inv(w, mark) && s.Sends? && Enabled(w, s)
    ensures Inv(Next(env, w, s), mark)
  {
    hide Respected, Released, ClaimMade;
    var n := Next(env, w, s);
    var t := w.jobs[s.id];
    var x := Sent(s.id, t.origin, Outgoing(w.c.state, t)[0]);
    assert Claimless(t);
    assert forall m :: m in Outgoing(w.c.state, t) ==> !m.Claim?;
    assert Allowed(w.log, x, mark);
    RespectedSnoc(w.log, x, mark);
    ReleasedLater(w.log, x, mark);
    forall id | id in n.jobs && id >= mark && n.jobs[id].Claiming? ensures ClaimMade(n.log, |n.log|, id) {
      ClaimMadeLater(w.log, x, id);
    }
  }

  lemma SyncKeeps(env: Env, w: World, s: Step, mark: nat)
    requires Inv(w, mark) && Enabled(w, s) && (s.SyncBegins? || s.SyncSends?)
    ensures Inv(Next(env, w, s), mark)
  {
    hide Respected, Released, ClaimMade;
    if s.SyncSends? {
      var x := Sent(s.id, BySync, s.message);
      assert !Harmless(w.jobs[s.id]);
      RespectedSnoc(w.log, x, mark);
      ReleasedLater(w.log, x, mark);
      forall id | id in w.jobs && id >= mark && w.jobs[id].Claiming?
        ensures ClaimMade(w.log + [x], |w.log| + 1, id)
      {
        ClaimMadeLater(w.log, x, id);
      }
    }
  }

  lemma EndKeeps(env: Env, w: World, s: Step, mark: nat)
    requires Inv(w, mark) && s.Ends? && Enabled(w, s)
    ensures Inv(Next(env, w, s), mark)
  {
    hide Respected, Released, ClaimMade;
    var n := Next(env, w, s);
    if w.jobs[s.id].TakingOver? {
      var x := Freed(s.id);
      RespectedSnoc(w.log, x, mark);
      ReleasedLater(w.log, x, mark);
      forall id | id in n.jobs && id >= mark && n.jobs[id].Claiming? ensures ClaimMade(n.log, |n.log|, id) {
        ClaimMadeLater(w.log, x, id);
      }
    }
  }

  lemma RestKeeps(env: Env, w: World, s: Step, mark: nat)
    requires Inv(w, mark) && Enabled(w, s) && (s.Fails? || s.Writes? || s.Others?)
    ensures Inv(Next(env, w, s), mark)
  {
    hide Respected, Released, ClaimMade, Harmless, Claimless;
  }

  lemma StepKeeps(env: Env, w: World, s: Step, mark: nat)
    requires Inv(w, mark) && Enabled(w, s) && Stays(w, mark, s)
    ensures Inv(Next(env, w, s), mark)
  {
    hide Inv, Stays, Resolved, Released, OnEvent;
    match s
    case Handles(e, now) => TurnKeeps(env, w, e, now, mark);
    case Asks(_, _) => AskKeeps(env, w, s, mark);
    case Resolves(takeOver, keep) =>
      ResolvedKeeps(w, ByRequest(w.AsDesk(), ResolveTakeover(takeOver, keep)), takeOver, keep, mark);
    case Offers => OfferKeeps(env, w, mark);
    case Sticks(_, _) => StickKeeps(env, w, s, mark);
    case Sends(_) => SendKeeps(env, w, s, mark);
    case SyncBegins => SyncKeeps(env, w, s, mark);
    case SyncSends(_, _) => SyncKeeps(env, w, s, mark);
    case Ends(_) => EndKeeps(env, w, s, mark);
    case _ => RestKeeps(env, w, s, mark);
  }

  lemma {:induction false} RunKeeps(env: Env, w: World, steps: seq<Step>, mark: nat)
    requires Inv(w, mark) && Episode(env, w, mark, steps)
    ensures Inv(Run(env, w, mark, steps), mark)
    decreases |steps|
  {
    hide Next, Inv, Enabled, Stays;
    if steps != [] {
      StepKeeps(env, w, steps[0], mark);
      RunKeeps(env, Next(env, w, steps[0]), steps[1..], mark);
    }
  }

  // ---- Whole episodes ---------------------------------------------------------------------------

  lemma Prefix(log: seq<Entry>, i: nat, mark: nat)
    requires i <= |log|
    ensures Released(log[..i], |log[..i]|, mark) ==> Released(log, i, mark)
    ensures forall id: nat :: ClaimMade(log[..i], |log[..i]|, id) ==> ClaimMade(log, i, id)
  {
    var some := log[..i];
    if Released(some, |some|, mark) {
      var j :| 0 <= j < |some| && Releases(some[j], mark);
      assert Releases(log[j], mark);
    }
    forall id: nat | ClaimMade(some, |some|, id) ensures ClaimMade(log, i, id) {
      var j :| 0 <= j < |some| && some[j].Sent? && some[j].job == id && some[j].message.Claim?;
      assert log[j] == some[j];
    }
  }

  /** Where an episode begins: with whatever was begun before, none of it with a claim
      still to send. */
  ghost predicate Any(w: World) {
    w.log == [] && forall id :: id in w.jobs ==> id < w.next && Claimless(w.jobs[id])
  }

  lemma Connects(env: Env, w: World, info: DeviceInfo, config: Option<DeviceConfig>, now: int)
    requires info.protocolVersion == DEVICE_PROTOCOL_VERSION && ForeignPads.JudgedSomeone(Remember(w.c)) && Any(w)
    ensures Inv(Next(env, w, Handles(DeviceConnected(info, config), now)), w.next)
    ensures Next(env, w, Handles(DeviceConnected(info, config), now)).c.state.foreignPad
  {
    hide OnConnected, ClaimMade, Harmless, Claimless, ForeignPads.Intrudes, ForeignPads.JudgedSomeone;
    var o := OnConnected(env, Remember(w.c), info, config, now);
    ForeignPads.ConnectedLeaves(env, Remember(w.c), info, config, now);
    RespectedEmits([], o.actions, w.next);
    assert w.log + Entries(o.actions) == Entries(o.actions) == [] + Entries(o.actions);
  }

  /** From the very event that judges a connecting pad someone else's, in every
      interleaving of events, requests, silent takeovers, syncs, each split at its waits,
      and other writes, until the pad is lost. Until the pad takes a claim made since, or a
      takeover begun before ends, nothing reaches it but claims, the restore a replacement
      prompt was answered with, the one value of the request that asks nobody, and the
      messages of what was begun before the pad connected; and it stays guarded. Every
      claim is a proper one, and a pad takes none that was not made. */
  lemma NothingReachesAForeignPad(env: Env, w: World, info: DeviceInfo, config: Option<DeviceConfig>, now: int,
                                  steps: seq<Step>)
    requires info.protocolVersion == DEVICE_PROTOCOL_VERSION && ForeignPads.JudgedSomeone(Remember(w.c)) && Any(w)
    requires Episode(env, Next(env, w, Handles(DeviceConnected(info, config), now)), w.next, steps)
    ensures var r := Run(env, Next(env, w, Handles(DeviceConnected(info, config), now)), w.next, steps);
            && (forall i :: 0 <= i < |r.log| && ReachesPad(r.log[i]) ==>
                  Excepted(r.log[i], w.next) || Released(r.log, i, w.next))
            && (forall i :: 0 <= i < |r.log| ==> ProperClaim(r.log[i]))
            && (forall i :: 0 <= i < |r.log| && r.log[i].Stuck? && r.log[i].job >= w.next ==>
                  ClaimMade(r.log, i, r.log[i].job))
            && (!Released(r.log, |r.log|, w.next) ==>
                  r.c.state.foreignPad && r.c.state.PadGuard() == Some(AnotherInstall))
  {
    hide Next, ReachesPad, Excepted, ProperClaim, Released, ClaimMade, Harmless, Claimless, Any;
    hide ForeignPads.JudgedSomeone;
    var n := Next(env, w, Handles(DeviceConnected(info, config), now));
    Connects(env, w, info, config, now);
    RunKeeps(env, n, steps, w.next);
    var r := Run(env, n, w.next, steps);
    forall i | 0 <= i < |r.log|
      ensures ReachesPad(r.log[i]) ==> Excepted(r.log[i], w.next) || Released(r.log, i, w.next)
      ensures ProperClaim(r.log[i])
      ensures r.log[i].Stuck? && r.log[i].job >= w.next ==> ClaimMade(r.log, i, r.log[i].job)
    {
      assert Allowed(r.log[..i], r.log[i], w.next);
      Prefix(r.log, i, w.next);
    }
  }

  /** The guard falls with nothing but the end of a takeover, whichever pad that was
      begun for. */
  lemma GuardFallsExactly(env: Env, w: World, s: Step)
    requires w.c.state.foreignPad && Enabled(w, s)
    requires s.Handles? ==> ForeignPads.StaysForeign(Remember(w.c), s.event)
    ensures !Next(env, w, s).c.state.foreignPad <==> s.Ends? && w.jobs[s.id].TakingOver?
  {
    hide OnEvent, Handle, TakeoverTarget, Desk.SaveRow, Desk.Touch, ForeignPads.StaysForeign;
    if s.Handles? { ForeignPads.EventLeaves(env, Remember(w.c), s.event, s.now); }
  }

  // ---- A takeover on its own --------------------------------------------------------------------

  /** These steps lead from the one world to the other. */
  ghost predicate Leads(env: Env, w: World, steps: seq<Step>, r: World)
    decreases |steps|
  {
    if steps == [] then r == w else Enabled(w, steps[0]) && Leads(env, Next(env, w, steps[0]), steps[1..], r)
  }

  lemma Before(env: Env, w: World, s: Step, steps: seq<Step>, r: World)
    requires Enabled(w, s) && Leads(env, Next(env, w, s), steps, r)
    ensures Leads(env, w, [s] + steps, r)
  {
    hide Next, Enabled;
    assert ([s] + steps)[1..] == steps;
  }

  function Messages(log: seq<Entry>): seq<ToPad> {
    if log == [] then []
    else
      var last := log[|log| - 1];
      Messages(log[..|log| - 1]) + (if last.Sent? then [last.message] else [])
  }

  lemma MessagesSnoc(log: seq<Entry>, x: Entry)
    ensures Messages(log + [x]) == Messages(log) + (if x.Sent? then [x.message] else [])
  {
    assert (log + [x])[..|log|] == log;
  }

  lemma SendIs(env: Env, w: World, id: nat)
    requires id in w.jobs && Outgoing(w.c.state, w.jobs[id]) != []
    ensures Enabled(w, Sends(id))
    ensures var t := w.jobs[id];
            var m := Outgoing(w.c.state, t)[0];
            var n := Next(env, w, Sends(id));
            && n == w.(jobs := n.jobs, log := n.log) && n.jobs == w.jobs[id := Onward(w.c.state, t)]
            && n.jobs - {id} == w.jobs - {id} && Messages(n.log) == Messages(w.log) + [m]
  {
    hide Messages, Onward;
    MessagesSnoc(w.log, Sent(id, w.jobs[id].origin, Outgoing(w.c.state, w.jobs[id])[0]));
  }

  lemma EndIs(env: Env, w: World, id: nat)
    requires id in w.jobs && w.jobs[id].TakingOver? && Over(w.jobs[id])
    ensures Enabled(w, Ends(id))
    ensures var n := Next(env, w, Ends(id));
            && n == w.(c := n.c, jobs := w.jobs - {id}, log := n.log) && Messages(n.log) == Messages(w.log)
            && n.c == w.c.(state := WithCounters(w.c.state.(foreignPad := false), w.jobs[id].target))
  {
    hide Messages;
    MessagesSnoc(w.log, Freed(id));
  }

  /** A takeover past its claim sends the rest and ends. */
  lemma {:induction false} Finishes(env: Env, w: World, id: nat) returns (steps: seq<Step>, r: World)
    requires id in w.jobs && w.jobs[id].TakingOver? && w.jobs[id].told
    ensures Leads(env, w, steps, r) && forall s :: s in steps ==> s == Sends(id) || s == Ends(id)
    ensures r == w.(c := r.c, jobs := w.jobs - {id}, log := r.log)
    ensures r.c == w.c.(state := WithCounters(w.c.state.(foreignPad := false), w.jobs[id].target))
    ensures Messages(r.log) == Messages(w.log) + w.jobs[id].left
    decreases |w.jobs[id].left|
  {
    hide Messages, Next, Enabled;
    var t := w.jobs[id];
    if t.left == [] {
      EndIs(env, w, id);
      r := Next(env, w, Ends(id));
      steps := [Ends(id)];
      assert Leads(env, r, [], r);
      Before(env, w, Ends(id), [], r);
      assert [Ends(id)] + [] == steps;
    } else {
      SendIs(env, w, id);
      var rest;
      rest, r := Finishes(env, Next(env, w, Sends(id)), id);
      steps := [Sends(id)] + rest;
      Before(env, w, Sends(id), rest, r);
      assert t.left == [t.left[0]] + t.left[1..];
    }
  }

  /** From the claim taken to the end, whatever pad is there. */
  lemma TakesItAll(env: Env, w: World, id: nat) returns (steps: seq<Step>, r: World)
    requires id in w.jobs && w.jobs[id].TakingOver? && !w.jobs[id].told
    requires w.jobs[id].left == [CountersTo(w.jobs[id].target, true)]
    ensures Leads(env, w, steps, r) && forall s :: s in steps ==> s == Sends(id) || s == Ends(id)
    ensures r == w.(c := r.c, jobs := w.jobs - {id}, log := r.log)
    ensures r.c == w.c.(state := WithCounters(w.c.state.(foreignPad := false), w.jobs[id].target))
    ensures Messages(r.log) == Messages(w.log) + [CountersTo(w.jobs[id].target, true), ConfigTo(w.c.state.config)]
                               + LayoutsTo(w.c.state.customLayouts)
  {
    hide Messages, LayoutsTo, Next, Enabled, Leads;
    var t := w.jobs[id];
    SendIs(env, w, id);
    var counted := Next(env, w, Sends(id));
    SendIs(env, counted, id);
    var told := Next(env, counted, Sends(id));
    assert told.jobs[id].left == LayoutsTo(w.c.state.customLayouts);
    var rest;
    rest, r := Finishes(env, told, id);
    Before(env, counted, Sends(id), rest, r);
    Before(env, w, Sends(id), [Sends(id)] + rest, r);
    steps := [Sends(id)] + ([Sends(id)] + rest);
  }

  /** The question answered with yes and the claim out. */
  lemma AskedIs(env: Env, w: World, keep: bool, luck: Luck)
    requires TakesOver(w.AsDesk(), ResolveTakeover(true, keep), luck) && w.next !in w.jobs
    ensures Enabled(w, Resolves(true, keep))
    ensures var n := Next(env, w, Resolves(true, keep));
            var d := w.AsDesk().(state := w.c.state.(pendingTakeover := None));
            && n == w.Left(d).(jobs := n.jobs, next := n.next, log := n.log)
            && n.jobs == w.jobs[w.next := n.jobs[w.next]] && n.jobs - {w.next} == w.jobs
            && n.jobs[w.next].Claiming? && n.jobs[w.next].pending == w.c.state.pendingTakeover.value
            && n.jobs[w.next].target == TakeoverTarget(d, w.c.state.deviceInfo.value.deviceId, keep)
            && n.jobs[w.next].target.deviceId == w.c.state.deviceInfo.value.deviceId
            && Messages(n.log) == Messages(w.log) + [Claim(w.c.state.installId.value)]
  {
    hide Messages;
    var origin := ByRequest(w.AsDesk(), ResolveTakeover(true, keep));
    MessagesSnoc(w.log, Sent(w.next, origin, Claim(w.c.state.installId.value)));
  }

  lemma StuckIs(env: Env, w: World, id: nat, luck: Luck)
    requires id in w.jobs && w.jobs[id].Claiming?
    ensures Enabled(w, Sticks(id, luck))
    ensures var n := Next(env, w, Sticks(id, luck));
            var target := w.jobs[id].target;
            var d := w.AsDesk().SaveRow(target.deviceId, target, luck.now, luck.rowTaken)
                      .Touch(target.deviceId, luck.now, luck.seenTaken);
            && n == w.Left(d).(jobs := n.jobs, log := n.log) && n.jobs - {id} == w.jobs - {id} && id in n.jobs
            && n.jobs[id] == TakingOver(w.jobs[id].origin, target, [CountersTo(target, true)], false)
            && Messages(n.log) == Messages(w.log)
  {
    hide Messages, Desk.SaveRow, Desk.Touch;
    MessagesSnoc(w.log, Stuck(id));
  }

  lemma FailedIs(env: Env, w: World, id: nat)
    requires id in w.jobs && w.jobs[id].Claiming?
    ensures Enabled(w, Fails(id))
    ensures var n := Next(env, w, Fails(id));
            && n.AsDesk() == w.AsDesk().(state := w.c.state.(pendingTakeover := Some(w.jobs[id].pending)))
            && n.jobs == w.jobs - {id}
  {}

  /** With nothing in between, the split takeover is the whole one: the same desk and the
      same messages in the same order, and with its claim refused it leaves all as it was. */
  lemma TakeoverAlone(env: Env, w: World, keep: bool, luck: Luck) returns (steps: seq<Step>, r: World)
    requires TakesOver(w.AsDesk(), ResolveTakeover(true, keep), luck) && w.next !in w.jobs
    ensures Leads(env, w, steps, r) && r.jobs == w.jobs
    ensures r.AsDesk() == OnTakeover(w.AsDesk(), true, keep, luck).desk
    ensures Messages(r.log) == Messages(w.log) + OnTakeover(w.AsDesk(), true, keep, luck).sent
    ensures var asked := Next(env, w, Resolves(true, keep));
            && Enabled(asked, Fails(w.next))
            && Next(env, asked, Fails(w.next)).AsDesk() == w.AsDesk()
            && Next(env, asked, Fails(w.next)).jobs == w.jobs
  {
    hide Messages, LayoutsTo, TakeoverTarget, Desk.SaveRow, Desk.Touch, Next, Enabled, Leads;
    AskedIs(env, w, keep, luck);
    var asked := Next(env, w, Resolves(true, keep));
    var id := w.next;
    FailedIs(env, asked, id);
    StuckIs(env, asked, id, luck);
    var stuck := Next(env, asked, Sticks(id, luck));
    var rest;
    rest, r := TakesItAll(env, stuck, id);
    Before(env, asked, Sticks(id, luck), rest, r);
    Before(env, w, Resolves(true, keep), [Sticks(id, luck)] + rest, r);
    steps := [Resolves(true, keep)] + ([Sticks(id, luck)] + rest);
  }

  // ---- What outlives the pad it was begun for ---------------------------------------------------

  /** Another pad, of another install, in the place of the one that was connected. */
  function Swapped(env: Env, w: World, owner: OwnerId, info: DeviceInfo, config: Option<DeviceConfig>, now: int)
    : World
  {
    var gone := Next(env, w, Handles(DeviceDisconnected, now));
    var told := Next(env, gone, Handles(DeviceOwnership(owner), now));
    Next(env, told, Handles(DeviceConnected(info, config), now))
  }

  lemma SwappedIsForeign(env: Env, w: World, owner: OwnerId, info: DeviceInfo, config: Option<DeviceConfig>, now: int)
    requires info.protocolVersion == DEVICE_PROTOCOL_VERSION && OwnershipOf(w.c.state.installId, owner) == Someone
    ensures var n := Swapped(env, w, owner, info, config, now);
            n.c.state.foreignPad && n.jobs == w.jobs && n.next == w.next
  {
    hide OnConnected;
    var gone := Next(env, w, Handles(DeviceDisconnected, now));
    var told := Next(env, gone, Handles(DeviceOwnership(owner), now));
    ForeignPads.ConnectedLeaves(env, Remember(told.c), info, config, now);
  }

  /** The exception for what was begun before is real: a sync that passed its checks with a
      pad of ours is still sending when another pad, of another install, has taken its
      place. */
  lemma SyncOutlivesThePad(env: Env, w: World, owner: OwnerId, info: DeviceInfo, config: Option<DeviceConfig>,
                           message: ToPad, now: int) returns (n: World)
    requires Enabled(w, SyncBegins) && !message.Claim?
    requires info.protocolVersion == DEVICE_PROTOCOL_VERSION && OwnershipOf(w.c.state.installId, owner) == Someone
    ensures n == Swapped(env, Next(env, w, SyncBegins), owner, info, config, now)
    ensures n.c.state.foreignPad && Enabled(n, SyncSends(w.next, message))
    ensures Messages(Next(env, n, SyncSends(w.next, message)).log) == Messages(n.log) + [message]
  {
    hide Swapped, Messages;
    var begun := Next(env, w, SyncBegins);
    SwappedIsForeign(env, begun, owner, info, config, now);
    n := Swapped(env, begun, owner, info, config, now);
    MessagesSnoc(n.log, Sent(w.next, BySync, message));
  }

  /** So is the other way out: a takeover whose claim one pad took, and another pad of
      another install connects before the rest is sent. The first pad's counters, forced,
      and this PC's configuration and layouts go to the second, and the end of the takeover
      clears the second one's guard, which was never claimed. */
  lemma TakeoverOutlivesThePad(env: Env, w: World, keep: bool, luck: Luck, owner: OwnerId, info: DeviceInfo,
                               config: Option<DeviceConfig>, now: int)
    returns (n: World, steps: seq<Step>, r: World)
    requires TakesOver(w.AsDesk(), ResolveTakeover(true, keep), luck) && w.next !in w.jobs
    requires info.protocolVersion == DEVICE_PROTOCOL_VERSION && OwnershipOf(w.c.state.installId, owner) == Someone
    ensures var asked := Next(env, w, Resolves(true, keep));
            Enabled(asked, Sticks(w.next, luck))
            && n == Swapped(env, Next(env, asked, Sticks(w.next, luck)), owner, info, config, now)
    ensures n.c.state.foreignPad && Leads(env, n, steps, r)
    ensures forall s :: s in steps ==> s == Sends(w.next) || s == Ends(w.next)
    ensures var target := TakeoverTarget(w.AsDesk().(state := w.c.state.(pendingTakeover := None)),
                                         w.c.state.deviceInfo.value.deviceId, keep);
            Messages(r.log) == Messages(n.log) + [CountersTo(target, true), ConfigTo(n.c.state.config)]
                               + LayoutsTo(n.c.state.customLayouts)
    ensures !r.c.state.foreignPad
  {
    hide Swapped, Messages, LayoutsTo, TakeoverTarget, Desk.SaveRow, Desk.Touch, Next, Enabled, Leads;
    AskedIs(env, w, keep, luck);
    var asked := Next(env, w, Resolves(true, keep));
    StuckIs(env, asked, w.next, luck);
    var stuck := Next(env, asked, Sticks(w.next, luck));
    SwappedIsForeign(env, stuck, owner, info, config, now);
    n := Swapped(env, stuck, owner, info, config, now);
    steps, r := TakesItAll(env, n, w.next);
  }
}
