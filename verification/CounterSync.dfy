/** The counter sync (desktop/daemon/src/sync.rs): reconcile, up to three
    attempts against a pad that may refuse and report newer counters, and the
    draining of what waited for it; with whatever the rest of the daemon does
    while it waits. */
module CounterSync {
  import opened Options
  import opened Counters
  import opened Daemon
  import opened Desks

  const ATTEMPTS := 3

  /** How one attempt went: not sent, not answered in time, accepted, or refused
      with the counters the pad holds, when it says. */
  datatype Reply =
    | SendFailed(error: string)
    | NoAnswer(error: string)
    | Accepted
    | Rejected(message: string, now: Option<CounterState>)
  {
    function Error(): string {
      match this
      case SendFailed(e) => e
      case NoAnswer(e) => e
      case Accepted => ""
      case Rejected(m, _) => m
    }
  }

  /** Counters sent again after an attempt that failed: reconciled with what the
      pad said it holds. */
  function Refreshed(c: CounterState, reply: Reply): CounterState {
    if reply.Rejected? && reply.now.Some? then Reconcile(c, reply.now.value) else c
  }

  /** The counters of each attempt, up to the first that is accepted. */
  function Sent(c: CounterState, replies: seq<Reply>): seq<CounterState>
    decreases |replies|
  {
    if replies == [] then []
    else if replies[0].Accepted? then [c]
    else [c] + Sent(Refreshed(c, replies[0]), replies[1..])
  }

  predicate Succeeds(replies: seq<Reply>) { exists i :: 0 <= i < |replies| && replies[i].Accepted? }

  /** The counters held when the attempts end. */
  function Final(c: CounterState, replies: seq<Reply>): CounterState
    decreases |replies|
  {
    if replies == [] || replies[0].Accepted? then c else Final(Refreshed(c, replies[0]), replies[1..])
  }

  function LastError(replies: seq<Reply>): string
    requires replies != []
  {
    replies[|replies| - 1].Error()
  }

  // ---- What is sent first -----------------------------------------------------------

  /** Zeroed counters no generation of the pad's or of the PC's outranks. */
  function CounterReset(deviceId: string, reconciled: CounterState, device: CounterState): CounterState {
    Zeroed(deviceId, NewerGeneration(reconciled.generation, NextGeneration(device.generation)))
  }

  function Stored(row: Option<CounterState>, deviceId: string, memory: CounterState): CounterState {
    if row.Some? then row.value else Zeroed(deviceId, memory.generation)
  }

  function First(row: Option<CounterState>, deviceId: string, memory: CounterState, reset: bool): CounterState {
    var reconciled := Reconcile(Stored(row, deviceId, memory), memory);
    if reset then CounterReset(deviceId, reconciled, memory) else reconciled
  }

  function ResetFor(queue: PendingOperations, deviceId: string): Option<PendingCounterReset> {
    if queue.devicePush.Some? && queue.devicePush.value.AppliesTo(deviceId) then queue.devicePush else None
  }

  // ---- One sync -----------------------------------------------------------------------

  const NO_STORAGE := "Sync skipped: persistent storage unavailable"
  const NOT_IDLE := "Device not in IDLE state within 3s timeout"
  const SYNC_FAILED := "Counter sync failed: "
  const GUARDED := "the pad must be left alone"

  datatype Failure = Failure(message: string)

  /** What a sync meets: how often it asks again whether the pad is idle, and whether it was
      in time; how each attempt would go; which writes the database takes; what everyone
      else does to the desk at each of its waits; and the time. */
  datatype Going = Going(
    again: nat, idle: bool, replies: seq<Reply>, taken: nat -> bool, during: nat -> Desk -> Desk, now: int)

  // The waits: for IDLE, for the answer of attempt 1 to 3, after the attempts (for the
  // pad's clock to be set, or the pause of the last failure), for the pad to take the
  // configuration that waited, and each layout.
  const IDLE_WAIT := 0
  const CLOCK_WAIT := ATTEMPTS + 1
  const CONFIG_WAIT := ATTEMPTS + 2
  const LAYOUT_WAITS := ATTEMPTS + 3

  // The writes: the first row, one a refusal, and then these.
  const LAST_ROW := ATTEMPTS + 1
  const SEEN_WRITE := ATTEMPTS + 2
  const CONFIG_WRITE := ATTEMPTS + 3
  const QUEUED_SEEN_WRITE := ATTEMPTS + 4
  const LAYOUT_WRITES := ATTEMPTS + 5

  /** How it ended: the desk, what went to the pad, in order, and the result. */
  datatype Outcome = Outcome(desk: Desk, sent: seq<ToPad>, result: Result<CounterState, Failure>)

  predicate Reaches(d: Desk) {
    d.base.Some? && d.state.PadGuard().None? && d.state.deviceInfo.Some? && d.state.deviceConnected
  }

  function Complain(d: Desk, message: string): Desk {
    d.(state := d.state.(lastSyncError := Some(message)))
  }

  function Sync(d: Desk, g: Going): Outcome {
    if d.base.None? then Outcome(Complain(d, NO_STORAGE), [], Err(Failure(NO_STORAGE)))
    else if d.state.PadGuard().Some? then Outcome(d, [], Err(Failure(GUARDED)))
    else if d.state.deviceInfo.None? || !d.state.deviceConnected then Outcome(d, [], Ok(d.state.counters))
    else
      var w := g.during(IDLE_WAIT)(d);
      if !g.idle then Outcome(Complain(w, NOT_IDLE), Asking(g), Err(Failure(NOT_IDLE)))
      else
        var o := Talk(w, d.state.deviceInfo.value.deviceId, d.state.counters, g);
        o.(sent := Asking(g) + o.sent)
  }

  /** The status requests until the pad said it was idle, or too late. */
  function Asking(g: Going): seq<ToPad> { seq(g.again + 1, i => StatusAsked) }

  /** The part that talks to the pad: the row and the queue are read now, the counters of
      the pad's report and the pad itself were read before the wait. */
  function Talk(d: Desk, id: string, memory: CounterState, g: Going): Outcome {
    var reset := ResetFor(d.queue, id);
    var first := First(d.Row(id), id, memory, reset.Some?);
    var after := Exchanged(d.SaveRow(id, first, g.now, g.taken(0)), id, first, g.replies, g, 0);
    var sent := Counted(Sent(first, g.replies), reset.Some?);
    if g.replies == [] || !Succeeds(g.replies) then
      var message := if g.replies == [] then "" else LastError(g.replies);
      Outcome(Complain(g.during(CLOCK_WAIT)(after), SYNC_FAILED + message), sent, Err(Failure(message)))
    else
      Settled(g.during(CLOCK_WAIT)(after), id, Final(first, g.replies), reset, sent, g)
  }

  function Counted(sent: seq<CounterState>, force: bool): seq<ToPad> {
    seq(|sent|, i requires 0 <= i < |sent| => CountersTo(sent[i], force))
  }

  /** The desk after the attempts: others work on it at each, and a refusal that taught
      something is written down. */
  function Exchanged(d: Desk, id: string, c: CounterState, replies: seq<Reply>, g: Going, i: nat): Desk
    decreases |replies|
  {
    if replies == [] then d
    else
      var w := g.during(i + 1)(d);
      if replies[0].Accepted? then w
      else
        var refreshed := Refreshed(c, replies[0]);
        Exchanged(if refreshed != c then w.SaveRow(id, refreshed, g.now, g.taken(i + 1)) else w,
                  id, refreshed, replies[1..], g, i + 1)
  }

  /** What waited for a sync is done with; a reset queued meanwhile is not, unless it is
      the very one just delivered. */
  function Drained(queue: PendingOperations, delivered: Option<PendingCounterReset>): PendingOperations {
    var kept := if delivered.Some? && queue.devicePush == delivered then None else queue.devicePush;
    PendingOperations(None, [], kept, None)
  }

  /** The layouts written down and sent, one after the other. */
  function SavedLayouts(d: Desk, layouts: seq<(Screen, Option<Layout>)>, g: Going): Desk
    decreases |layouts|
  {
    if layouts == [] then d
    else
      var n := |layouts| - 1;
      g.during(LAYOUT_WAITS + n)(WrittenLayout(SavedLayouts(d, layouts[..n], g), layouts[n], n, g))
  }

  /** The `n`-th of them written down. */
  function WrittenLayout(d: Desk, p: (Screen, Option<Layout>), n: nat, g: Going): Desk {
    d.SaveLayout(p.0, p.1, g.taken(LAYOUT_WRITES + n))
  }

  function LayoutMessage(p: (Screen, Option<Layout>)): ToPad {
    if p.1.Some? then LayoutTo(p.0, p.1.value) else LayoutResetTo(p.0)
  }

  function LayoutMessages(layouts: seq<(Screen, Option<Layout>)>): seq<ToPad> {
    seq(|layouts|, i requires 0 <= i < |layouts| => LayoutMessage(layouts[i]))
  }

  /** The copies of a sync that went through. */
  function Agreed(s: DaemonState, c: CounterState, time: int): DaemonState {
    s.(counters := c, pcCounters := Some(c), espCounters := Some(c), lastSyncTime := Some(time), lastSyncError := None)
  }

  /** The pad took the counters: they are written down, what waited is taken off the queue
      and carried out, and the copies are made one. */
  function Settled(d: Desk, id: string, c: CounterState, reset: Option<PendingCounterReset>, sent: seq<ToPad>, g: Going)
    : Outcome
  {
    var s := WrittenDown(d, id, c, g);
    var e := CarriedOut(s.(queue := Drained(s.queue, reset)), s.queue, g);
    Outcome(e.(state := Agreed(e.state, c, g.now)),
            sent + [TimeTo] + (if s.queue.config.Some? then [ConfigTo(s.queue.config.value)] else [])
            + LayoutMessages(s.queue.layouts),
            Ok(c))
  }

  function WrittenDown(d: Desk, id: string, c: CounterState, g: Going): (s: Desk)
    ensures s.state == d.state && s.queue == d.queue && (s.base.Some? <==> d.base.Some?)
  {
    d.SaveRow(id, c, g.now, g.taken(LAST_ROW)).Touch(id, g.now, g.taken(SEEN_WRITE))
  }

  function CarriedOut(d: Desk, q: PendingOperations, g: Going): Desk {
    var l := SavedLayouts(Configured(d, q, g), q.layouts, g);
    if q.lastSeen.Some? then l.Touch(q.lastSeen.value, g.now, g.taken(QUEUED_SEEN_WRITE)) else l
  }

  /** The configuration that waited is shown once the pad has been sent it. */
  function Configured(d: Desk, q: PendingOperations, g: Going): Desk {
    if q.config.None? then d
    else
      var w := g.during(CONFIG_WAIT)(d.SaveConfig(q.config.value, g.taken(CONFIG_WRITE)));
      w.(state := w.state.(config := q.config.value))
  }

  // ---- The sync itself ------------------------------------------------------------------

  /** The attempts: at most three, each with what the last refusal taught. */
  method Exchange(shared: Shared, id: string, first: CounterState, g: Going)
    returns (counters: CounterState, success: bool, error: string, sent: seq<CounterState>)
    requires |g.replies| == ATTEMPTS
    modifies shared
    ensures sent == Sent(first, g.replies) && 0 < |sent| <= ATTEMPTS
    ensures success <==> Succeeds(g.replies)
    ensures counters == Final(first, g.replies)
    ensures !success ==> error == LastError(g.replies)
    ensures shared.View() == Exchanged(old(shared.View()), id, first, g.replies, g, 0)
  {
    hide Sent, Final, Reconcile, Exchanged;
    counters, success, error, sent := first, false, "", [];
    var replies := g.replies;
    var attempt := 0;
    ghost var before := shared.View();
    assert replies[0..] == replies && sent + Sent(counters, replies) == Sent(counters, replies);
    while attempt < ATTEMPTS && !success
      invariant 0 <= attempt <= ATTEMPTS && |sent| == attempt && (success ==> attempt > 0)
      invariant success <==> exists i :: 0 <= i < attempt && replies[i].Accepted?
      invariant Sent(first, replies) == if success then sent else sent + Sent(counters, replies[attempt..])
      invariant Final(first, replies) == if success then counters else Final(counters, replies[attempt..])
      invariant Exchanged(before, id, first, replies, g, 0)
             == if success then shared.View()
                else Exchanged(shared.View(), id, counters, replies[attempt..], g, attempt)
      invariant !success && attempt > 0 ==> error == replies[attempt - 1].Error()
    {
      var reply := replies[attempt];
      AttemptStep(counters, replies, attempt, sent);
      ExchangeStep(shared.View(), id, counters, replies, g, attempt);
      sent := sent + [counters];
      shared.Others(g.during(attempt + 1));
      if reply.Accepted? {
        success := true;
      } else {
        error := reply.Error();
        if reply.Rejected? && reply.now.Some? {
          var refreshed := Reconcile(counters, reply.now.value);
          if refreshed != counters {
            shared.SaveRow(id, refreshed, g.now, g.taken(attempt + 1));
            counters := refreshed;
          }
        }
      }
      attempt := attempt + 1;
    }
    if !success {
      NothingLeft(counters, replies, sent);
      ExchangeOver(shared.View(), id, counters, replies, g);
    }
  }

  lemma NothingLeft(c: CounterState, replies: seq<Reply>, sent: seq<CounterState>)
    ensures var rest := replies[|replies|..];
            rest == [] && sent + Sent(c, rest) == sent && Final(c, rest) == c
  {}

  lemma ExchangeOver(d: Desk, id: string, c: CounterState, replies: seq<Reply>, g: Going)
    ensures Exchanged(d, id, c, replies[|replies|..], g, |replies|) == d
  {}

  lemma ExchangeStep(d: Desk, id: string, c: CounterState, replies: seq<Reply>, g: Going, i: nat)
    requires i < |replies|
    ensures var w := g.during(i + 1)(d);
            var refreshed := Refreshed(c, replies[i]);
            Exchanged(d, id, c, replies[i..], g, i)
            == if replies[i].Accepted? then w
               else Exchanged(if refreshed != c then w.SaveRow(id, refreshed, g.now, g.taken(i + 1)) else w,
                              id, refreshed, replies[i + 1..], g, i + 1)
  {
    assert replies[i..][0] == replies[i] && replies[i..][1..] == replies[i + 1..];
  }

  lemma AttemptStep(c: CounterState, replies: seq<Reply>, i: nat, sent: seq<CounterState>)
    requires i < |replies|
    ensures var rest := replies[i + 1..];
            && sent + Sent(c, replies[i..])
               == (if replies[i].Accepted? then sent + [c] else sent + [c] + Sent(Refreshed(c, replies[i]), rest))
            && Final(c, replies[i..]) == (if replies[i].Accepted? then c else Final(Refreshed(c, replies[i]), rest))
  {
    assert replies[i..][0] == replies[i] && replies[i..][1..] == replies[i + 1..];
    if !replies[i].Accepted? {
      var more := Sent(Refreshed(c, replies[i]), replies[i + 1..]);
      assert sent + ([c] + more) == sent + [c] + more;
    }
  }

  /** One sync with whatever pad is connected. */
  method PerformSync(shared: Shared, g: Going) returns (result: Result<CounterState, Failure>, sent: seq<ToPad>)
    requires |g.replies| == ATTEMPTS
    modifies shared
    ensures Outcome(shared.View(), sent, result) == Sync(old(shared.View()), g)
  {
    hide Talk;
    if shared.base.None? {
      shared.state := shared.state.(lastSyncError := Some(NO_STORAGE));
      return Err(Failure(NO_STORAGE)), [];
    }
    var info, memory, connected, guard :=
      shared.state.deviceInfo, shared.state.counters, shared.state.deviceConnected, shared.state.PadGuard();
    if guard.Some? { return Err(Failure(GUARDED)), []; }
    if info.None? || !connected { return Ok(memory), []; }
    var asked := AskStatus(g);
    shared.Others(g.during(IDLE_WAIT));
    if !g.idle {
      shared.state := shared.state.(lastSyncError := Some(NOT_IDLE));
      return Err(Failure(NOT_IDLE)), asked;
    }
    result, sent := SyncWithPad(shared, info.value.deviceId, memory, g);
    sent := asked + sent;
  }

  method AskStatus(g: Going) returns (sent: seq<ToPad>)
    ensures sent == Asking(g)
  {
    sent := [StatusAsked];
    for i := 0 to g.again
      invariant sent == seq(i + 1, j => StatusAsked)
    {
      sent := sent + [StatusAsked];
    }
  }

  method SyncWithPad(shared: Shared, id: string, memory: CounterState, g: Going)
    returns (result: Result<CounterState, Failure>, sent: seq<ToPad>)
    requires |g.replies| == ATTEMPTS
    modifies shared
    ensures Outcome(shared.View(), sent, result) == Talk(old(shared.View()), id, memory, g)
  {
    hide Sent, Final, First, Exchanged, Succeeds, ResetFor, LastError, Settled;
    var reset := ResetFor(shared.queue, id);
    var first := First(shared.View().Row(id), id, memory, reset.Some?);
    shared.SaveRow(id, first, g.now, g.taken(0));
    var counters, success, error, counts := Exchange(shared, id, first, g);
    sent := Counted(counts, reset.Some?);
    shared.Others(g.during(CLOCK_WAIT));
    if !success {
      shared.state := shared.state.(lastSyncError := Some(SYNC_FAILED + error));
      return Err(Failure(error)), sent;
    }
    sent := Settle(shared, id, counters, reset, sent, g);
    result := Ok(counters);
  }

  method Settle(shared: Shared, id: string, c: CounterState, reset: Option<PendingCounterReset>, before: seq<ToPad>,
                g: Going)
    returns (sent: seq<ToPad>)
    modifies shared
    ensures Outcome(shared.View(), sent, Ok(c)) == Settled(old(shared.View()), id, c, reset, before, g)
  {
    hide CarriedOut, Drained, LayoutMessages;
    shared.SaveRow(id, c, g.now, g.taken(LAST_ROW));
    shared.Touch(id, g.now, g.taken(SEEN_WRITE));
    var waited := shared.queue;
    shared.queue := Drained(waited, reset);
    var carried := CarryOut(shared, waited, g);
    shared.state := Agreed(shared.state, c, g.now);
    sent := before + [TimeTo] + carried;
    var configs := if waited.config.Some? then [ConfigTo(waited.config.value)] else [];
    assert before + [TimeTo] + (configs + LayoutMessages(waited.layouts))
        == before + [TimeTo] + configs + LayoutMessages(waited.layouts);
  }

  /** What waited, in order: the configuration, the layouts, the last-seen touch. */
  method CarryOut(shared: Shared, q: PendingOperations, g: Going) returns (sent: seq<ToPad>)
    modifies shared
    ensures shared.View() == CarriedOut(old(shared.View()), q, g)
    ensures sent == (if q.config.Some? then [ConfigTo(q.config.value)] else []) + LayoutMessages(q.layouts)
  {
    hide SavedLayouts;
    sent := [];
    if q.config.Some? {
      shared.SaveConfig(q.config.value, g.taken(CONFIG_WRITE));
      sent := [ConfigTo(q.config.value)];
      shared.Others(g.during(CONFIG_WAIT));
      shared.state := shared.state.(config := q.config.value);
    }
    var layouts := CarryOutLayouts(shared, q.layouts, g);
    sent := sent + layouts;
    if q.lastSeen.Some? { shared.Touch(q.lastSeen.value, g.now, g.taken(QUEUED_SEEN_WRITE)); }
  }

  method CarryOutLayouts(shared: Shared, layouts: seq<(Screen, Option<Layout>)>, g: Going) returns (sent: seq<ToPad>)
    modifies shared
    ensures shared.View() == SavedLayouts(old(shared.View()), layouts, g)
    ensures sent == LayoutMessages(layouts)
  {
    sent := [];
    ghost var before := shared.View();
    for i := 0 to |layouts|
      invariant shared.View() == SavedLayouts(before, layouts[..i], g)
      invariant sent == LayoutMessages(layouts[..i])
    {
      assert layouts[..i + 1][..i] == layouts[..i];
      var (screen, layout) := layouts[i];
      shared.SaveLayout(screen, layout, g.taken(LAYOUT_WRITES + i));
      sent := sent + [LayoutMessage(layouts[i])];
      shared.Others(g.during(LAYOUT_WAITS + i));
      assert sent == LayoutMessages(layouts[..i + 1]);
    }
    assert layouts[..|layouts|] == layouts;
  }

  // ---- What a sync comes to ---------------------------------------------------------------

  /** A sync asks a pad's status exactly when it found one of ours as it began, and sends
      anything else, counters first, exactly when that pad also reached IDLE: the guard is
      asked once, so a pad that becomes someone else's while it waits is written to. */
  lemma SendsExactly(d: Desk, g: Going)
    requires |g.replies| == ATTEMPTS
    ensures var sent := Sync(d, g).sent;
            && (sent != [] <==> Reaches(d))
            && (Reaches(d) ==> |sent| > g.again && forall i :: 0 <= i <= g.again ==> sent[i].StatusAsked?)
            && (|sent| > g.again + 1 <==> Reaches(d) && g.idle)
            && (Reaches(d) && g.idle ==> sent[g.again + 1].CountersTo?)
  {
    hide Sent, Exchanged, Final, First;
    if Reaches(d) && g.idle {
      var w := g.during(IDLE_WAIT)(d);
      var id := d.state.deviceInfo.value.deviceId;
      SentBounds(First(w.Row(id), id, d.state.counters, ResetFor(w.queue, id).Some?), g.replies);
    }
  }

  /** No sync touches who owns the pad. */
  lemma NeverClaims(d: Desk, g: Going)
    ensures forall m :: m in Sync(d, g).sent ==> !m.Claim?
  {
    hide Sent, Exchanged, Final, First, CarriedOut;
  }

  /** Whatever others did meanwhile, a sync that succeeds returns the counters the pad
      took, leaves this PC's three copies at them, writes them to the pad's row if the
      database takes that write, and leaves queued nothing but a reset that is not the one
      it delivered. */
  lemma SuccessAgrees(d: Desk, g: Going)
    requires |g.replies| == ATTEMPTS && Reaches(d) && g.idle && Succeeds(g.replies)
    ensures var o := Sync(d, g);
            var w := g.during(IDLE_WAIT)(d);
            var id := d.state.deviceInfo.value.deviceId;
            var reset := ResetFor(w.queue, id);
            var c := Final(First(w.Row(id), id, d.state.counters, reset.Some?), g.replies);
            var before := BeforeDrain(d, g);
            && o.result == Ok(c)
            && o.desk.state.counters == c && o.desk.state.pcCounters == o.desk.state.espCounters == Some(c)
            && o.desk.state.lastSyncError.None? && o.desk.state.lastSyncTime == Some(g.now)
            && o.desk == Settled(before, id, c, reset, [], g).desk
  {
    hide Sent, Exchanged, Final, First;
  }

  /** When every attempt sends `c`, so does the sync, and no other counters. */
  lemma CountsAre(d: Desk, g: Going, c: CounterState)
    requires |g.replies| == ATTEMPTS && Reaches(d) && g.idle && Succeeds(g.replies)
    requires var w := g.during(IDLE_WAIT)(d);
             var id := d.state.deviceInfo.value.deviceId;
             var first := First(w.Row(id), id, d.state.counters, ResetFor(w.queue, id).Some?);
             forall i :: 0 <= i < |Sent(first, g.replies)| ==> Sent(first, g.replies)[i] == c
    ensures var w := g.during(IDLE_WAIT)(d);
            var m := CountersTo(c, ResetFor(w.queue, d.state.deviceInfo.value.deviceId).Some?);
            m in Sync(d, g).sent && forall x :: x in Sync(d, g).sent && x.CountersTo? ==> x == m
  {
    hide Sent, Exchanged, Final, First, CarriedOut;
    var w := g.during(IDLE_WAIT)(d);
    var id := d.state.deviceInfo.value.deviceId;
    var first := First(w.Row(id), id, d.state.counters, ResetFor(w.queue, id).Some?);
    SentBounds(first, g.replies);
    var counted := Counted(Sent(first, g.replies), ResetFor(w.queue, id).Some?);
    assert counted[0] in counted;
    assert Sync(d, g).sent[|Asking(g)|] == counted[0];
  }

  /** The desk as others left it when the pad's clock was being set: the last moment at
      which they can change what the sync will take off the queue. */
  function BeforeDrain(d: Desk, g: Going): Desk
    requires d.state.deviceInfo.Some?
  {
    var w := g.during(IDLE_WAIT)(d);
    var id := d.state.deviceInfo.value.deviceId;
    var first := First(w.Row(id), id, d.state.counters, ResetFor(w.queue, id).Some?);
    g.during(CLOCK_WAIT)(Exchanged(w.SaveRow(id, first, g.now, g.taken(0)), id, first, g.replies, g, 0))
  }

  /** And as it is when that is off the queue, with the counters written down. */
  function AfterDrain(d: Desk, g: Going): Desk
    requires d.state.deviceInfo.Some?
  {
    var w := g.during(IDLE_WAIT)(d);
    var id := d.state.deviceInfo.value.deviceId;
    var reset := ResetFor(w.queue, id);
    var first := First(w.Row(id), id, d.state.counters, reset.Some?);
    var s := WrittenDown(BeforeDrain(d, g), id, Final(first, g.replies), g);
    s.(queue := Drained(s.queue, reset))
  }

  /** What a sync takes off the queue goes out last, as it was queued: everything that was
      there when the pad's clock had been set. */
  lemma DrainedGoesOut(d: Desk, g: Going)
    requires |g.replies| == ATTEMPTS && Reaches(d) && g.idle && Succeeds(g.replies)
    ensures var q := BeforeDrain(d, g).queue;
            var sent := Sync(d, g).sent;
            var last := [TimeTo] + (if q.config.Some? then [ConfigTo(q.config.value)] else [])
                        + LayoutMessages(q.layouts);
            && |last| <= |sent| && sent[|sent| - |last|..] == last
            && Sync(d, g).desk.queue == CarriedOut(AfterDrain(d, g), q, g).queue
            && Sync(d, g).desk.base == CarriedOut(AfterDrain(d, g), q, g).base
            && Sync(d, g).desk.state.config == CarriedOut(AfterDrain(d, g), q, g).state.config
  {
    hide Sent, Exchanged, Final, First, CarriedOut, WrittenDown, LayoutMessages;
    var w := g.during(IDLE_WAIT)(d);
    var id := d.state.deviceInfo.value.deviceId;
    var reset := ResetFor(w.queue, id);
    var first := First(w.Row(id), id, d.state.counters, reset.Some?);
    var q := BeforeDrain(d, g).queue;
    var counted := Counted(Sent(first, g.replies), reset.Some?);
    var last := [TimeTo] + (if q.config.Some? then [ConfigTo(q.config.value)] else []) + LayoutMessages(q.layouts);
    assert Sync(d, g).sent == Asking(g) + counted + last;
  }

  /** The row and what is queued for the pad, after the drain, are left by a sync that
      nobody comes between any more. */
  lemma {:induction false} LayoutsKeepRows(d: Desk, layouts: seq<(Screen, Option<Layout>)>, g: Going, id: string)
    requires forall n: nat, x: Desk :: n >= LAYOUT_WAITS ==> g.during(n)(x) == x
    ensures var s := SavedLayouts(d, layouts, g);
            s.Row(id) == d.Row(id) && s.queue == d.queue && s.state == d.state
    decreases |layouts|
  {
    if layouts != [] { LayoutsKeepRows(d, layouts[..|layouts| - 1], g, id); }
  }

  lemma CarryingOutKeepsRows(d: Desk, q: PendingOperations, g: Going, id: string)
    requires forall n: nat, x: Desk :: n >= CONFIG_WAIT ==> g.during(n)(x) == x
    ensures CarriedOut(d, q, g).Row(id) == d.Row(id) && CarriedOut(d, q, g).queue == d.queue
  {
    hide SavedLayouts;
    LayoutsKeepRows(Configured(d, q, g), q.layouts, g, id);
  }

  lemma QuietDrain(d: Desk, g: Going, id: string)
    requires |g.replies| == ATTEMPTS && Reaches(d) && g.idle && Succeeds(g.replies)
    requires forall n: nat, x: Desk :: n >= CONFIG_WAIT ==> g.during(n)(x) == x
    ensures Sync(d, g).desk.queue == AfterDrain(d, g).queue && Sync(d, g).desk.Row(id) == AfterDrain(d, g).Row(id)
  {
    hide Sync, AfterDrain, CarriedOut;
    DrainedGoesOut(d, g);
    CarryingOutKeepsRows(AfterDrain(d, g), BeforeDrain(d, g).queue, g, id);
  }

  /** The row and the queue a success leaves at once: the counters the pad took, and
      nothing queued but a reset that is not the one delivered. */
  lemma SettledRowAndQueue(d: Desk, g: Going)
    requires |g.replies| == ATTEMPTS && Reaches(d) && g.idle && Succeeds(g.replies)
    ensures var id := d.state.deviceInfo.value.deviceId;
            var before := BeforeDrain(d, g);
            var after := AfterDrain(d, g);
            var c := Sync(d, g).desk.state.counters;
            && after.Row(id) == (if g.taken(LAST_ROW) && before.base.Some? then Some(c) else before.Row(id))
            && after.queue.config.None? && after.queue.layouts == [] && after.queue.lastSeen.None?
            && (after.queue.devicePush.None? <==>
                  || before.queue.devicePush.None?
                  || before.queue.devicePush == ResetFor(g.during(IDLE_WAIT)(d).queue, id))
            && (after.queue.devicePush.Some? ==> after.queue.devicePush == before.queue.devicePush)
  {
    hide Sync, BeforeDrain, First, Final;
    SuccessAgrees(d, g);
  }

  /** What the first attempt sends: without a row or a reset the counters in memory, as that
      pad's; with a row that reconciled with them; with a reset zeroes. */
  lemma FirstIs(row: Option<CounterState>, id: string, memory: CounterState, reset: bool)
    requires id != ""
    ensures row.None? && !reset ==> First(row, id, memory, reset) == memory.(deviceId := id)
    ensures row.Some? && !reset ==> First(row, id, memory, reset) == Reconcile(row.value, memory)
    ensures reset ==> Zero(First(row, id, memory, reset)) && First(row, id, memory, reset).deviceId == id
  {}

  /** A queued reset is for a pad exactly when it names none or that one. */
  lemma ResetForExactly(q: PendingOperations, id: string)
    ensures ResetFor(q, id).Some?
            <==> q.devicePush.Some? && (q.devicePush.value.deviceId.None? || q.devicePush.value.deviceId.value == id)
    ensures ResetFor(q, id).Some? ==> ResetFor(q, id) == q.devicePush
  {}

  /** The syncs that do not come to talk to the pad, and what each leaves: without a database
      or an idle pad a complaint, with a guarded pad or none nothing. */
  lemma SyncsThatDoNot(d: Desk, g: Going)
    requires !Reaches(d) || !g.idle
    ensures var o := Sync(d, g);
            var guarded := d.state.foreignPad || d.state.pendingTakeover.Some? || d.state.pendingReplacement.Some?;
            && (d.base.None? ==>
                  && o.desk == d.(state := d.state.(lastSyncError :=
                       Some("Sync skipped: persistent storage unavailable")))
                  && o.sent == [] && o.result.Err?)
            && (d.base.Some? && guarded ==> o.desk == d && o.sent == [] && o.result.Err?)
            && (d.base.Some? && !guarded && (d.state.deviceInfo.None? || !d.state.deviceConnected) ==>
                  o == Outcome(d, [], Ok(d.state.counters)))
            && (d.base.Some? && !guarded && d.state.deviceInfo.Some? && d.state.deviceConnected ==>
                  var w := g.during(IDLE_WAIT)(d);
                  && o.desk == w.(state := w.state.(lastSyncError :=
                       Some("Device not in IDLE state within 3s timeout")))
                  && o.result.Err? && forall m :: m in o.sent ==> m.StatusAsked?)
  {}

  // ---- What a sync leaves in the database -----------------------------------------------

  /** Between the attempts and what waited it writes the pad's row, and no other table but
      when it was seen. */
  lemma DrainWrites(d: Desk, g: Going)
    requires |g.replies| == ATTEMPTS && Reaches(d) && g.idle && Succeeds(g.replies)
    ensures var before, after := BeforeDrain(d, g), AfterDrain(d, g);
            && after.state == before.state && (after.base.Some? <==> before.base.Some?)
            && (before.base.Some? ==>
                  && after.base.value.config == before.base.value.config
                  && after.base.value.layouts == before.base.value.layouts
                  && (g.taken(LAST_ROW) && g.taken(SEEN_WRITE) ==>
                        Seen(after, d.state.deviceInfo.value.deviceId) == Some(g.now))
                  && forall other: string :: other != d.state.deviceInfo.value.deviceId ==>
                       after.Row(other) == before.Row(other))
  {
    hide BeforeDrain, First, Final;
  }

  /** The last time a pad was seen. */
  function Seen(d: Desk, id: string): Option<int> {
    if d.base.Some? && id in d.base.value.seen then Some(d.base.value.seen[id]) else None
  }

  /** Nobody else changes the configuration, or closes the database, after the drain. */
  ghost predicate LeavesConfig(g: Going) {
    forall n: nat, x: Desk :: n >= CONFIG_WAIT ==>
      var y := g.during(n)(x);
      && y.state.config == x.state.config && (y.base.Some? <==> x.base.Some?)
      && (x.base.Some? ==> y.base.value.config == x.base.value.config)
  }

  /** Nor the layout of that screen. */
  ghost predicate LeavesLayout(g: Going, screen: Screen) {
    forall n: nat, x: Desk :: n >= CONFIG_WAIT ==>
      var y := g.during(n)(x);
      && (y.base.Some? <==> x.base.Some?)
      && (x.base.Some? ==> LayoutIn(y, screen) == LayoutIn(x, screen))
  }

  function LayoutIn(d: Desk, screen: Screen): Option<Layout> {
    if d.base.Some? && screen in d.base.value.layouts then Some(d.base.value.layouts[screen]) else None
  }

  lemma {:induction false} LayoutsKeepConfig(d: Desk, layouts: seq<(Screen, Option<Layout>)>, g: Going)
    requires LeavesConfig(g)
    ensures var s := SavedLayouts(d, layouts, g);
            && s.state.config == d.state.config && (s.base.Some? <==> d.base.Some?)
            && (d.base.Some? ==> s.base.value.config == d.base.value.config)
    decreases |layouts|
  {
    if layouts != [] { LayoutsKeepConfig(d, layouts[..|layouts| - 1], g); }
  }

  /** A configuration queued when a sync takes what waited off the queue is in the database
      and is what is shown when the sync ends, unless others change it meanwhile; with none
      queued both stay. */
  lemma QueuedConfigIsSaved(d: Desk, g: Going)
    requires |g.replies| == ATTEMPTS && Reaches(d) && g.idle && Succeeds(g.replies)
    requires g.taken(CONFIG_WRITE) && LeavesConfig(g) && BeforeDrain(d, g).base.Some?
    ensures var before, after := BeforeDrain(d, g), Sync(d, g).desk;
            && after.base.Some?
            && (before.queue.config.Some? ==>
                  after.base.value.config == after.state.config == before.queue.config.value)
            && (before.queue.config.None? ==>
                  && after.base.value.config == before.base.value.config
                  && after.state.config == before.state.config)
  {
    hide Sync, BeforeDrain, AfterDrain, SavedLayouts;
    DrainedGoesOut(d, g);
    DrainWrites(d, g);
    var q := BeforeDrain(d, g).queue;
    LayoutsKeepConfig(Configured(AfterDrain(d, g), q, g), q.layouts, g);
  }

  /** The same going, but for what others would do on finding another configuration in the
      database while the pad is sent the queued one. */
  ghost predicate AlikeOn(g: Going, h: Going, config: DeviceConfig) {
    && h == g.(during := h.during)
    && forall n: nat, x: Desk :: n != CONFIG_WAIT || (x.base.Some? && x.base.value.config == config) ==>
         h.during(n)(x) == g.during(n)(x)
  }

  lemma AlikeAt(g: Going, h: Going, config: DeviceConfig, n: nat, x: Desk)
    requires AlikeOn(g, h, config) && (n != CONFIG_WAIT || (x.base.Some? && x.base.value.config == config))
    ensures h.during(n)(x) == g.during(n)(x)
    ensures h.taken == g.taken && h.now == g.now && h.again == g.again && h.idle == g.idle && h.replies == g.replies
  {}

  lemma {:induction false} ExchangedAlike(d: Desk, id: string, c: CounterState, replies: seq<Reply>, g: Going,
                                          h: Going, config: DeviceConfig, i: nat)
    requires AlikeOn(g, h, config) && i + |replies| < CLOCK_WAIT
    ensures Exchanged(d, id, c, replies, g, i) == Exchanged(d, id, c, replies, h, i)
    decreases |replies|
  {
    hide AlikeOn, Refreshed;
    if replies != [] { AlikeAt(g, h, config, i + 1, d); }
    if replies != [] && !replies[0].Accepted? {
      var w := g.during(i + 1)(d);
      var refreshed := Refreshed(c, replies[0]);
      ExchangedAlike(if refreshed != c then w.SaveRow(id, refreshed, g.now, g.taken(i + 1)) else w,
                     id, refreshed, replies[1..], g, h, config, i + 1);
    }
  }

  lemma {:induction false} LayoutsAlike(d: Desk, layouts: seq<(Screen, Option<Layout>)>, g: Going, h: Going,
                                        config: DeviceConfig)
    requires AlikeOn(g, h, config)
    ensures SavedLayouts(d, layouts, g) == SavedLayouts(d, layouts, h)
    decreases |layouts|
  {
    if layouts != [] { LayoutsAlike(d, layouts[..|layouts| - 1], g, h, config); }
  }

  /** It is there before the pad is sent it: what others would do on finding another one
      makes no difference to the sync. */
  lemma ConfigIsWrittenBeforeSent(d: Desk, g: Going, h: Going, config: DeviceConfig)
    requires |g.replies| == ATTEMPTS && Reaches(d) && g.idle && Succeeds(g.replies) && g.taken(CONFIG_WRITE)
    requires BeforeDrain(d, g).queue.config == Some(config) && BeforeDrain(d, g).base.Some?
    requires AlikeOn(g, h, config)
    ensures Sync(d, h) == Sync(d, g)
  {
    hide Sync, BeforeDrain, AfterDrain, SavedLayouts, Configured, AlikeOn;
    BeforeAlike(d, g, h, config);
    ConfiguredAlike(d, g, h, config);
    var q := BeforeDrain(d, g).queue;
    LayoutsAlike(Configured(AfterDrain(d, g), q, g), q.layouts, g, h, config);
    SyncIs(d, g);
    SyncIs(d, h);
  }

  /** A success, in terms of what it takes off the queue. */
  lemma SyncIs(d: Desk, g: Going)
    requires |g.replies| == ATTEMPTS && Reaches(d) && g.idle && Succeeds(g.replies)
    ensures var w := g.during(IDLE_WAIT)(d);
            var id := d.state.deviceInfo.value.deviceId;
            var reset := ResetFor(w.queue, id);
            var first := First(w.Row(id), id, d.state.counters, reset.Some?);
            var q := BeforeDrain(d, g).queue;
            var l := SavedLayouts(Configured(AfterDrain(d, g), q, g), q.layouts, g);
            var e := if q.lastSeen.Some? then l.Touch(q.lastSeen.value, g.now, g.taken(QUEUED_SEEN_WRITE)) else l;
            var c := Final(first, g.replies);
            Sync(d, g) == Outcome(e.(state := Agreed(e.state, c, g.now)),
                                  Asking(g) + (Counted(Sent(first, g.replies), reset.Some?) + [TimeTo]
                                  + (if q.config.Some? then [ConfigTo(q.config.value)] else [])
                                  + LayoutMessages(q.layouts)), Ok(c))
  {
    hide Sent, Exchanged, Final, First, SavedLayouts, LayoutMessages, Counted, Configured, WrittenDown;
  }

  lemma BeforeAlike(d: Desk, g: Going, h: Going, config: DeviceConfig)
    requires |g.replies| == ATTEMPTS && d.state.deviceInfo.Some? && AlikeOn(g, h, config)
    ensures h.during(IDLE_WAIT)(d) == g.during(IDLE_WAIT)(d)
    ensures BeforeDrain(d, h) == BeforeDrain(d, g) && AfterDrain(d, h) == AfterDrain(d, g)
    ensures h.taken == g.taken && h.now == g.now && h.again == g.again && h.idle == g.idle && h.replies == g.replies
  {
    hide AlikeOn, First, Final, Exchanged, ResetFor;
    AlikeAt(g, h, config, IDLE_WAIT, d);
    var w := g.during(IDLE_WAIT)(d);
    var id := d.state.deviceInfo.value.deviceId;
    var first := First(w.Row(id), id, d.state.counters, ResetFor(w.queue, id).Some?);
    var x := w.SaveRow(id, first, g.now, g.taken(0));
    ExchangedAlike(x, id, first, g.replies, g, h, config, 0);
    AlikeAt(g, h, config, CLOCK_WAIT, Exchanged(x, id, first, g.replies, g, 0));
  }

  lemma ConfiguredAlike(d: Desk, g: Going, h: Going, config: DeviceConfig)
    requires d.state.deviceInfo.Some? && g.taken(CONFIG_WRITE) && AlikeOn(g, h, config)
    requires BeforeDrain(d, g).queue.config == Some(config) && BeforeDrain(d, g).base.Some?
    ensures var q := BeforeDrain(d, g).queue; Configured(AfterDrain(d, g), q, h) == Configured(AfterDrain(d, g), q, g)
  {
    hide BeforeDrain, First, Final;
    var x := AfterDrain(d, g).SaveConfig(config, true);
    AlikeAt(g, h, config, CONFIG_WAIT, x);
  }

  /** The last that is queued for a screen, if anything is. */
  function LastQueued(layouts: seq<(Screen, Option<Layout>)>, screen: Screen): Option<Option<Layout>>
    decreases |layouts|
  {
    if layouts == [] then None
    else
      var last := layouts[|layouts| - 1];
      if last.0 == screen then Some(last.1) else LastQueued(layouts[..|layouts| - 1], screen)
  }

  lemma {:induction false} LayoutsSaved(d: Desk, layouts: seq<(Screen, Option<Layout>)>, g: Going, screen: Screen)
    requires LeavesLayout(g, screen) && d.base.Some? && forall n :: n >= LAYOUT_WRITES ==> g.taken(n)
    ensures var s := SavedLayouts(d, layouts, g);
            && s.base.Some?
            && LayoutIn(s, screen)
               == (if LastQueued(layouts, screen).Some? then LastQueued(layouts, screen).value else LayoutIn(d, screen))
    decreases |layouts|
  {
    if layouts != [] { LayoutsSaved(d, layouts[..|layouts| - 1], g, screen); }
  }

  /** So is each layout queued, the last for its screen, and a screen that was reset has
      none. */
  lemma QueuedLayoutsAreSaved(d: Desk, g: Going, screen: Screen)
    requires |g.replies| == ATTEMPTS && Reaches(d) && g.idle && Succeeds(g.replies)
    requires forall n :: n >= LAYOUT_WRITES ==> g.taken(n)
    requires LeavesLayout(g, screen) && BeforeDrain(d, g).base.Some?
    ensures var before, after := BeforeDrain(d, g), Sync(d, g).desk;
            var queued := LastQueued(before.queue.layouts, screen);
            && after.base.Some?
            && LayoutIn(after, screen) == (if queued.Some? then queued.value else LayoutIn(before, screen))
  {
    hide Sync, BeforeDrain, AfterDrain, SavedLayouts;
    DrainedGoesOut(d, g);
    DrainWrites(d, g);
    var q := BeforeDrain(d, g).queue;
    LayoutsSaved(Configured(AfterDrain(d, g), q, g), q.layouts, g, screen);
  }

  lemma {:induction false} LayoutsKeepSeen(d: Desk, layouts: seq<(Screen, Option<Layout>)>, g: Going, id: string)
    requires forall n: nat, x: Desk :: n >= LAYOUT_WAITS ==> g.during(n)(x) == x
    ensures Seen(SavedLayouts(d, layouts, g), id) == Seen(d, id)
    ensures SavedLayouts(d, layouts, g).Row(id) == d.Row(id)
    ensures SavedLayouts(d, layouts, g).base.Some? <==> d.base.Some?
    decreases |layouts|
  {
    if layouts != [] { LayoutsKeepSeen(d, layouts[..|layouts| - 1], g, id); }
  }

  /** With nobody in between, the pad was last seen when the sync ran, and so was the one
      whose sighting waited, if it has a row. */
  lemma SyncedPadWasSeen(d: Desk, g: Going)
    requires |g.replies| == ATTEMPTS && Reaches(d) && g.idle && Succeeds(g.replies)
    requires (forall n :: g.taken(n)) && BeforeDrain(d, g).base.Some?
    requires forall n: nat, x: Desk :: n >= CONFIG_WAIT ==> g.during(n)(x) == x
    ensures var before, after := BeforeDrain(d, g), Sync(d, g).desk;
            && Seen(after, d.state.deviceInfo.value.deviceId) == Some(g.now)
            && (before.queue.lastSeen.Some? && before.Row(before.queue.lastSeen.value).Some? ==>
                  Seen(after, before.queue.lastSeen.value) == Some(g.now))
  {
    hide Sync, BeforeDrain, AfterDrain, SavedLayouts;
    DrainedGoesOut(d, g);
    DrainWrites(d, g);
    var q := BeforeDrain(d, g).queue;
    var f := Configured(AfterDrain(d, g), q, g);
    LayoutsKeepSeen(f, q.layouts, g, d.state.deviceInfo.value.deviceId);
    if q.lastSeen.Some? { LayoutsKeepSeen(f, q.layouts, g, q.lastSeen.value); }
  }

  lemma {:induction false} ExchangedRow(d: Desk, id: string, c: CounterState, replies: seq<Reply>, g: Going, i: nat)
    requires d.base.Some? && d.Row(id) == Some(c) && forall n :: g.taken(n)
    requires forall n: nat, x: Desk :: g.during(n)(x) == x
    ensures var e := Exchanged(d, id, c, replies, g, i);
            e.Row(id) == Some(Final(c, replies)) && e.state == d.state && e.queue == d.queue && e.base.Some?
    decreases |replies|
  {
    if replies != [] && !replies[0].Accepted? {
      var refreshed := Refreshed(c, replies[0]);
      ExchangedRow(if refreshed != c then d.SaveRow(id, refreshed, g.now, g.taken(i + 1)) else d,
                   id, refreshed, replies[1..], g, i + 1);
    }
  }

  /** A sync that is refused to the end keeps what it learned in the pad's row, leaves the
      counters shown as they were and everything queued, and says why. */
  lemma FailedSyncKeepsTheRow(d: Desk, g: Going)
    requires |g.replies| == ATTEMPTS && Reaches(d) && g.idle && !Succeeds(g.replies)
    requires (forall n :: g.taken(n)) && forall n: nat, x: Desk :: g.during(n)(x) == x
    ensures var id := d.state.deviceInfo.value.deviceId;
            var o := Sync(d, g);
            var last := Final(First(d.Row(id), id, d.state.counters, ResetFor(d.queue, id).Some?), g.replies);
            && o.desk.Row(id) == Some(last) && o.desk.queue == d.queue
            && o.desk.state == d.state.(lastSyncError := Some("Counter sync failed: " + g.replies[2].Error()))
            && o.result == Err(Failure(g.replies[2].Error()))
  {
    hide First, Final, Exchanged, Sent;
    var id := d.state.deviceInfo.value.deviceId;
    var first := First(d.Row(id), id, d.state.counters, ResetFor(d.queue, id).Some?);
    ExchangedRow(d.SaveRow(id, first, g.now, g.taken(0)), id, first, g.replies, g, 0);
  }

  /** A reset queued during the `k`-th wait, whatever else happens at it and at the others
      that leave it queued, is queued when the sync takes its own off. */
  lemma {:induction false} QueuedStays(d: Desk, id: string, c: CounterState, replies: seq<Reply>, g: Going, i: nat,
                                       k: nat, r: PendingCounterReset)
    requires i < k <= i + |Sent(c, replies)| && |Sent(c, replies)| <= |replies|
    requires forall x: Desk :: g.during(k)(x).queue.devicePush == Some(r)
    requires forall n: nat, x: Desk :: k < n <= CLOCK_WAIT && x.queue.devicePush == Some(r) ==>
               g.during(n)(x).queue.devicePush == Some(r)
    requires i + |replies| < CLOCK_WAIT
    ensures Exchanged(d, id, c, replies, g, i).queue.devicePush == Some(r)
    decreases |replies|
  {
    var w := g.during(i + 1)(d);
    if !replies[0].Accepted? {
      var refreshed := Refreshed(c, replies[0]);
      var next := if refreshed != c then w.SaveRow(id, refreshed, g.now, g.taken(i + 1)) else w;
      SentBounds(refreshed, replies[1..]);
      if k == i + 1 {
        StillQueued(next, id, refreshed, replies[1..], g, i + 1, r);
      } else {
        QueuedStays(next, id, refreshed, replies[1..], g, i + 1, k, r);
      }
    }
  }

  lemma {:induction false} StillQueued(d: Desk, id: string, c: CounterState, replies: seq<Reply>, g: Going, i: nat,
                                       r: PendingCounterReset)
    requires d.queue.devicePush == Some(r) && i + |replies| < CLOCK_WAIT
    requires forall n: nat, x: Desk :: i < n <= CLOCK_WAIT && x.queue.devicePush == Some(r) ==>
               g.during(n)(x).queue.devicePush == Some(r)
    ensures Exchanged(d, id, c, replies, g, i).queue.devicePush == Some(r)
    decreases |replies|
  {
    if replies != [] && !replies[0].Accepted? {
      var w := g.during(i + 1)(d);
      var refreshed := Refreshed(c, replies[0]);
      StillQueued(if refreshed != c then w.SaveRow(id, refreshed, g.now, g.taken(i + 1)) else w,
                  id, refreshed, replies[1..], g, i + 1, r);
    }
  }

  // ---- Against a pad that follows its own rule ----------------------------------------

  predicate SameCounters(a: CounterState, b: CounterState) { a.generation == b.generation && SameKeys(a, b) }

  /** An honest answer to `sent` from a pad holding `pad`: it accepts only what its
      rule allows, and a refusal tells what it holds. */
  predicate Honest(sent: CounterState, pad: CounterState, force: bool, reply: Reply) {
    && (reply.Accepted? ==> Accepts(pad, sent, force))
    && (reply.Rejected? && reply.now.Some? ==> SameCounters(reply.now.value, pad))
  }

  /** Every attempt made is answered honestly by the pad as it was then. */
  predicate HonestPad(c: CounterState, replies: seq<Reply>, pads: seq<CounterState>, force: bool)
    requires |pads| == |replies|
  {
    forall i :: 0 <= i < |Sent(c, replies)| && i < |replies| ==> Honest(Sent(c, replies)[i], pads[i], force, replies[i])
  }

  lemma {:induction false} SentBounds(c: CounterState, replies: seq<Reply>)
    ensures |Sent(c, replies)| <= |replies|
    ensures replies != [] ==> |Sent(c, replies)| > 0 && Sent(c, replies)[0] == c
    ensures Succeeds(replies) ==>
              var n := |Sent(c, replies)| - 1;
              n >= 0 && replies[n].Accepted? && Sent(c, replies)[n] == Final(c, replies)
    ensures forall i :: 0 <= i < |Sent(c, replies)| - 1 ==> !replies[i].Accepted?
    decreases |replies|
  {
    if replies != [] && !replies[0].Accepted? {
      SentBounds(Refreshed(c, replies[0]), replies[1..]);
      if Succeeds(replies) {
        var i :| 0 <= i < |replies| && replies[i].Accepted?;
        assert replies[1..][i - 1].Accepted?;
      }
    }
  }

  /** Sync agreement: what a successful sync returns, and makes the PC's and the
      pad's copies, is what the pad accepted on the last attempt. */
  lemma ReturnedIsAccepted(c: CounterState, replies: seq<Reply>, pads: seq<CounterState>, force: bool)
    requires |pads| == |replies| && HonestPad(c, replies, pads, force) && Succeeds(replies)
    ensures var n := |Sent(c, replies)| - 1;
            && 0 <= n < |replies| && replies[n].Accepted?
            && Sent(c, replies)[n] == Final(c, replies)
            && Accepts(pads[n], Final(c, replies), force)
  {
    SentBounds(c, replies);
  }

  /** Sending again after a refusal is sending something that pad would accept. */
  lemma {:induction false} ResendIsAcceptable(c: CounterState, replies: seq<Reply>, i: nat, force: bool)
    requires i + 1 < |Sent(c, replies)| && |Sent(c, replies)| <= |replies|
    requires replies[i].Rejected? && replies[i].now.Some?
    ensures Accepts(replies[i].now.value, Sent(c, replies)[i + 1], force)
    decreases i
  {
    var next := Refreshed(c, replies[0]);
    SentBounds(next, replies[1..]);
    if i > 0 { ResendIsAcceptable(next, replies[1..], i - 1, force); }
  }

  /** `a` outranks `b`, or holds at least its presses in the same generation. */
  predicate Covers(a: CounterState, b: CounterState) {
    a.generation > b.generation || (a.generation == b.generation && AtLeast(a, b))
  }

  lemma {:induction false} FinalCovers(c: CounterState, replies: seq<Reply>, i: nat)
    ensures Covers(Final(c, replies), c)
    ensures i < |Sent(c, replies)| <= |replies| && replies[i].Rejected? && replies[i].now.Some? ==>
              Covers(Final(c, replies), replies[i].now.value)
    decreases |replies|
  {
    if replies != [] && !replies[0].Accepted? {
      FinalCovers(Refreshed(c, replies[0]), replies[1..], if i > 0 then i - 1 else 0);
    }
  }

  /** An ordinary sync loses nothing: what it settles on covers this PC's row, the
      counters in memory and everything the pad reported on the way. */
  lemma NothingIsLost(row: Option<CounterState>, id: string, memory: CounterState, replies: seq<Reply>, i: nat)
    ensures var first := First(row, id, memory, false);
            var final := Final(first, replies);
            && Covers(final, memory) && (row.Some? ==> Covers(final, row.value))
            && (i < |Sent(first, replies)| <= |replies| && replies[i].Rejected? && replies[i].now.Some? ==>
                  Covers(final, replies[i].now.value))
  {
    var first := First(row, id, memory, false);
    FinalCovers(first, replies, i);
    ReconciledIsAccepted(Stored(row, id, memory), memory, false);
  }

  // ---- The sticky reset ----------------------------------------------------------------

  predicate Zero(c: CounterState) { c.key1 == 0 && c.key2 == 0 }

  /** A reset made offline outranks the pad's report exactly while there is a
      generation left above it. */
  lemma ResetOutranksExactly(row: Option<CounterState>, id: string, memory: CounterState)
    ensures var first := First(row, id, memory, true);
            && Zero(first) && first.deviceId == id
            && (first.generation > memory.generation <==> memory.generation < U32_MAX)
            && (row.Some? ==> first.generation >= row.value.generation)
  {}

  /** It stays a reset through a refusal exactly when the pad did not report presses
      in its generation or a newer one. */
  lemma ResetSurvivesExactly(c: CounterState, reply: Reply)
    requires Zero(c)
    ensures Zero(Refreshed(c, reply))
            <==> !(&& reply.Rejected? && reply.now.Some?
                   && reply.now.value.generation >= c.generation && !Zero(reply.now.value))
  {}

  /** So while the pad's generation does not reach the reset's, every attempt sends
      the same zeroed counters, and they are what a success returns. */
  lemma {:induction false} ResetIsSticky(c: CounterState, replies: seq<Reply>)
    requires forall i :: 0 <= i < |replies| && replies[i].Rejected? && replies[i].now.Some? ==>
               replies[i].now.value.generation < c.generation
    ensures forall i :: 0 <= i < |Sent(c, replies)| ==> Sent(c, replies)[i] == c
    ensures Final(c, replies) == c
    decreases |replies|
  {
    if replies != [] && !replies[0].Accepted? {
      assert Refreshed(c, replies[0]) == c;
      ResetIsSticky(c, replies[1..]);
    }
  }

  /** The sticky reset, delivered: an offline reset whose sync succeeds, with the pad
      never moving past the generation it reported on connect, ends with this PC's
      three copies zeroed in a generation above the pad's report. */
  lemma OfflineResetWins(row: Option<CounterState>, id: string, memory: CounterState, replies: seq<Reply>)
    requires memory.generation < U32_MAX
    requires forall i :: 0 <= i < |replies| && replies[i].Rejected? && replies[i].now.Some? ==>
               replies[i].now.value.generation <= memory.generation
    ensures var first := First(row, id, memory, true);
            && Final(first, replies) == first && Zero(first) && first.generation > memory.generation
            && (forall i :: 0 <= i < |Sent(first, replies)| ==> Sent(first, replies)[i] == first)
  {
    var first := First(row, id, memory, true);
    ResetOutranksExactly(row, id, memory);
    ResetIsSticky(first, replies);
  }
}
