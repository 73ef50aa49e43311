/** Why the other calls of a run are rivals in the sense of the timing proof: while a sender holds the row,
    no other call presents its owner and fence. */
module GatewayRivals {
  import opened Common
  import opened DeliveryModel
  import opened DeliverySql
  import opened GatewaySystem
  import opened GatewaySafety
  import opened SenderTiming

  /** A call that holds a grant and has not given it up. */
  predicate Sending(s: System, id: nat, fence: nat) {
    id in s.senders && s.senders[id].pc == InFlight(fence)
    && s.row.Some? && HeldBy(s.row.value, s.senders[id].config.owner, fence)
  }

  /** In every reachable state with a sender in flight under the row's lease, whatever any other call
      does next to the row is the call of a rival, even if it is made through the same repository object. */
  lemma OthersAreRivals(events: seq<Event>, id: nat, fence: nat, other: nat, key: Key, input: Input)
    requires Sending(Run(START, events), id, fence) && other in Run(START, events).senders && other != id
    ensures
      var s := Run(START, events);
      var call := NextCall(key, s.row, s.senders[other].config, s.senders[other].pc, input);
      call.Some? ==> Rival(call.value, s.senders[id].config.owner, fence)
  {
    RunKeepsInv(START, events);
    var s := Run(START, events);
    assert PcInv(s, id, s.senders[id].pc) && PcInv(s, other, s.senders[other].pc);
  }
}
