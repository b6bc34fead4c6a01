/** The one task that sends to the pad (desktop/daemon/src/device_actor.rs): what
    becomes of each command, and that they go out in the order they were queued. */
module DeviceActor {
  import opened Options

  const BUSY_RETRIES := 5

  /** How one attempt to send ends. */
  datatype Answer = Sent | Busy | NotConnected | Broken

  /** How a command ends: the attempts made, whether it went out, and whether a full
      resend is asked for. */
  datatype Outcome = Outcome(attempts: nat, delivered: bool, resend: bool)

  function Execution(telemetry: bool, answers: nat -> Answer, attempt: nat): Outcome
    decreases BUSY_RETRIES - attempt
  {
    match answers(attempt)
    case Sent => Outcome(attempt + 1, true, false)
    case Busy =>
      if telemetry then Outcome(attempt + 1, false, true)
      else if attempt < BUSY_RETRIES then Execution(telemetry, answers, attempt + 1)
      else Outcome(attempt + 1, false, false)
    case NotConnected => Outcome(attempt + 1, false, false)
    case Broken => Outcome(attempt + 1, false, false)
  }

  /** Telemetry is tried once, and a full queue asks for a resend; anything else is
      tried until something but a full queue answers, six times at most, and never
      asks. */
  lemma {:induction false} ExecutionIs(telemetry: bool, answers: nat -> Answer, attempt: nat)
    requires attempt <= BUSY_RETRIES
    ensures var o := Execution(telemetry, answers, attempt);
            && attempt < o.attempts <= 6
            && (forall i: nat :: attempt <= i < o.attempts - 1 ==> answers(i) == Busy)
            && (o.delivered <==> answers(o.attempts - 1) == Sent)
            && (o.resend <==> telemetry && answers(attempt) == Busy)
            && (telemetry ==> o.attempts == attempt + 1)
            && (answers(o.attempts - 1) == Busy ==> telemetry || o.attempts == 6)
    decreases BUSY_RETRIES - attempt
  {
    if answers(attempt) == Busy && !telemetry && attempt < BUSY_RETRIES {
      ExecutionIs(telemetry, answers, attempt + 1);
    }
  }

  /** A command with whether it is telemetry and how its attempts would go. */
  datatype Queued<T> = Queued(command: T, telemetry: bool, answers: nat -> Answer)

  function Delivered<T>(queue: seq<Queued<T>>): seq<T>
    decreases |queue|
  {
    if queue == [] then []
    else
      var last := queue[|queue| - 1];
      Delivered(queue[..|queue| - 1])
      + (if Execution(last.telemetry, last.answers, 0).delivered then [last.command] else [])
  }

  class Actor<T> {
    var resendData: bool
    var sent: seq<T>

    constructor ()
      ensures !resendData && sent == []
    {
      resendData, sent := false, [];
    }

    /** One command, as often as its answers ask for. */
    method Execute(q: Queued<T>) returns (attempts: nat)
      modifies this
      ensures var o := Execution(q.telemetry, q.answers, 0);
              && attempts == o.attempts
              && resendData == (old(resendData) || o.resend)
              && sent == old(sent) + (if o.delivered then [q.command] else [])
    {
      var attempt := 0;
      while true
        invariant 0 <= attempt <= BUSY_RETRIES
        invariant Execution(q.telemetry, q.answers, 0) == Execution(q.telemetry, q.answers, attempt)
        invariant resendData == old(resendData) && sent == old(sent)
        decreases BUSY_RETRIES - attempt
      {
        var answer := q.answers(attempt);
        if answer == Sent {
          sent := sent + [q.command];
          return attempt + 1;
        } else if answer == Busy && q.telemetry {
          resendData := true;
          return attempt + 1;
        } else if answer == Busy && attempt < BUSY_RETRIES {
          attempt := attempt + 1;
        } else {
          return attempt + 1;
        }
      }
    }

    /** The queue, one command awaited before the next: what goes out is what was
        delivered, in the order it was queued, and one refused diff is enough to ask
        for everything again. */
    method Drain(queue: seq<Queued<T>>)
      modifies this
      ensures sent == old(sent) + Delivered(queue)
      ensures resendData
              <==> old(resendData) || exists i :: 0 <= i < |queue| && queue[i].telemetry && queue[i].answers(0) == Busy
    {
      for i := 0 to |queue|
        invariant sent == old(sent) + Delivered(queue[..i])
        invariant resendData
               <==> old(resendData) || exists k :: 0 <= k < i && queue[k].telemetry && queue[k].answers(0) == Busy
      {
        var _ := Execute(queue[i]);
        ExecutionIs(queue[i].telemetry, queue[i].answers, 0);
        assert queue[..i + 1][..i] == queue[..i];
      }
      assert queue[..|queue|] == queue;
    }
  }
}
