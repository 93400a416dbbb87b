/** Packets and the events of the datacenter model. */
module NetworkEvents {
  import opened Events

  datatype Packet = Packet(src: nat, dst: nat, seqNum: nat, sizeByte: nat, isAck: bool, flowId: nat, sentNs: nat)

  datatype NetworkEvent =
    | Flow(src: nat, dst: nat, sizeByte: nat)
    | PacketArrival(packet: Packet)
    | Timeout

  type ModelEvent = Event<NetworkEvent>

  /** What an actor tells its worker. */
  datatype ActorState = Continue(time: nat) | Done(count: nat)

  /** Bits on the wire per packet, rounded down to whole time units. */
  function TxTime(sizeByte: nat, bandwidthGbps: nat): nat
    requires bandwidthGbps > 0
  {
    8 * sizeByte / bandwidthGbps
  }
}
