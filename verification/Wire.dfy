/** Times on a link, written out: what every packet takes, and what a sequence of packets takes together. */
module Wire {
  import opened Events
  import opened NetworkEvents

  /** How long packets of these sizes occupy a link, each time rounded down. */
  ghost function OnWire(sizes: seq<nat>, bandwidth: nat): nat
    requires bandwidth > 0
  {
    if sizes == [] then 0 else 8 * sizes[0] / bandwidth + OnWire(sizes[1..], bandwidth)
  }

  lemma {:induction false} OneMoreOnWire(sizes: seq<nat>, size: nat, bandwidth: nat)
    requires bandwidth > 0
    ensures OnWire(sizes + [size], bandwidth) == OnWire(sizes, bandwidth) + 8 * size / bandwidth
  {
    if sizes == [] {
      assert OnWire([size], bandwidth) == 8 * size / bandwidth + OnWire([], bandwidth);
      assert sizes + [size] == [size];
    } else {
      OneMoreOnWire(sizes[1..], size, bandwidth);
      assert (sizes + [size])[1..] == sizes[1..] + [size];
    }
  }

  lemma {:induction false} SameSizes(sizes: seq<nat>, size: nat, bandwidth: nat)
    requires bandwidth > 0 && forall k :: 0 <= k < |sizes| ==> sizes[k] == size
    ensures OnWire(sizes, bandwidth) == |sizes| * (8 * size / bandwidth)
  {
    if sizes != [] {
      SameSizes(sizes[1..], size, bandwidth);
      var w := 8 * size / bandwidth;
      assert w + (|sizes| - 1) * w == |sizes| * w;
    }
  }

  /** The sizes of the packets that the events carry. */
  ghost function Sizes(es: seq<ModelEvent>): (sizes: seq<nat>)
    ensures |sizes| == |es|
    ensures forall k :: 0 <= k < |es| ==> sizes[k] == SizeOf(es[k])
  {
    seq(|es|, k requires 0 <= k < |es| => SizeOf(es[k]))
  }

  ghost function SizeOf(e: ModelEvent): nat {
    if e.eventType.ModelEvent? && e.eventType.model.PacketArrival? then e.eventType.model.packet.sizeByte else 0
  }

  /** The packets among `es` arrive one after the other over a link that is free from `start` on. */
  ghost predicate BackToBack(es: seq<ModelEvent>, start: nat, bandwidth: nat, latency: nat)
    requires bandwidth > 0
  {
    forall k :: 0 <= k < |es| ==>
      && es[k].eventType.ModelEvent? && es[k].eventType.model.PacketArrival?
      && es[k].time == start + OnWire(Sizes(es[..k + 1]), bandwidth) + latency
  }

  lemma OneMoreBackToBack(es: seq<ModelEvent>, e: ModelEvent, start: nat, bandwidth: nat, latency: nat)
    requires bandwidth > 0 && BackToBack(es, start, bandwidth, latency)
    requires e.eventType.ModelEvent? && e.eventType.model.PacketArrival?
    requires e.time
             == start + OnWire(Sizes(es), bandwidth) + 8 * e.eventType.model.packet.sizeByte / bandwidth + latency
    ensures BackToBack(es + [e], start, bandwidth, latency)
    ensures OnWire(Sizes(es + [e]), bandwidth)
            == OnWire(Sizes(es), bandwidth) + 8 * e.eventType.model.packet.sizeByte / bandwidth
  {
    hide OnWire;
    assert Sizes(es + [e]) == Sizes(es) + [e.eventType.model.packet.sizeByte];
    OneMoreOnWire(Sizes(es), e.eventType.model.packet.sizeByte, bandwidth);
    forall k | 0 <= k < |es + [e]|
      ensures (es + [e])[k].time == start + OnWire(Sizes((es + [e])[..k + 1]), bandwidth) + latency
    {
      if k < |es| {
        assert (es + [e])[..k + 1] == es[..k + 1];
      } else {
        assert (es + [e])[..k + 1] == es + [e];
      }
    }
  }
}
