/** Press counters, their reconciliation on the PC, and the rule by which the
    pad accepts what it is sent. */
module Counters {
  import opened Options

  const U32_MAX := 0xFFFF_FFFF

  type Generation = g: nat | g <= U32_MAX

  datatype CounterState = CounterState(
    deviceId: string, generation: Generation, key1: nat, key2: nat, map1: nat, map2: nat)

  function Zeroed(deviceId: string, generation: Generation): CounterState {
    CounterState(deviceId, generation, 0, 0, 0, 0)
  }

  function NextGeneration(g: Generation): Generation { if g == U32_MAX then g else g + 1 }

  function NewerGeneration(a: Generation, b: Generation): Generation { if a < b then b else a }

  predicate SameKeys(a: CounterState, b: CounterState) { a.key1 == b.key1 && a.key2 == b.key2 }

  predicate AtLeast(a: CounterState, b: CounterState) { a.key1 >= b.key1 && a.key2 >= b.key2 }

  /** The counters kept of a PC row and what the pad reports: the newer
      generation whole, or the greater of each key within one generation. */
  function Reconcile(pc: CounterState, esp: CounterState): CounterState {
    if pc.generation > esp.generation then pc
    else if esp.generation > pc.generation then esp
    else CounterState(if pc.deviceId != "" then pc.deviceId else esp.deviceId,
                      pc.generation, Max(pc.key1, esp.key1), Max(pc.key2, esp.key2), esp.map1, esp.map2)
  }

  /** The firmware's rule for a counter sync. */
  predicate Accepts(pad: CounterState, host: CounterState, force: bool) {
    force
    || host.generation > pad.generation
    || (host.generation == pad.generation && host.key1 >= pad.key1 && host.key2 >= pad.key2)
  }

  /** This PC holds presses the pad does not. */
  predicate PcIsAhead(pc: Option<CounterState>, pad: CounterState) {
    pc.Some? && (pc.value.key1 > pad.key1 || pc.value.key2 > pad.key2)
  }

  /** What reconciliation is for: the pad accepts the result unforced, nothing
      of the newer generation is lost, and within one generation no press of
      either side is. */
  lemma ReconciledIsAccepted(pc: CounterState, pad: CounterState, force: bool)
    ensures var r := Reconcile(pc, pad);
            && Accepts(pad, r, force)
            && r.generation == NewerGeneration(pc.generation, pad.generation)
            && (pc.generation >= pad.generation ==> AtLeast(r, pc))
            && (pad.generation >= pc.generation ==> AtLeast(r, pad))
            && (pc.generation == pad.generation ==> r.key1 in {pc.key1, pad.key1} && r.key2 in {pc.key2, pad.key2})
            && (pc.generation > pad.generation ==> r == pc) && (pad.generation > pc.generation ==> r == pad)
            && (pc.generation == pad.generation ==>
                  && r.map1 == pad.map1 && r.map2 == pad.map2
                  && r.deviceId == (if pc.deviceId == "" then pad.deviceId else pc.deviceId))
  {}

  /** A second reconciliation with the same pad changes nothing, so a resend
      after an unchanged reply is the same message. */
  lemma ReconcileSettles(pc: CounterState, pad: CounterState)
    ensures var r := Reconcile(pc, pad);
            && (r.deviceId != "" ==> Reconcile(r, pad) == r)
            && SameKeys(Reconcile(r, pad), r) && Reconcile(r, pad).generation == r.generation
  {}

  /** A sync is acceptable unforced exactly when reconciling it against the
      pad's counters would not move it. */
  lemma AcceptedExactly(host: CounterState, pad: CounterState)
    ensures Accepts(pad, host, false)
            <==> Reconcile(host, pad).generation == host.generation && SameKeys(Reconcile(host, pad), host)
  {}
}
