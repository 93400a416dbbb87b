/** Routers: forwarding packets, promising nulls and passing on Close. */
module Router {
  import opened Events
  import opened NetworkEvents
  import opened MergerSpec
  import opened Merger
  import Protocol
  import opened Links
  import opened EventLoops

  const MTU_BITS := 8 * 1500

  /** What a router is built with. */
  datatype Config = Config(id: nat, latency: nat, bandwidth: nat, route: seq<seq<nat>>)

  /** Its outgoing side: what was sent on each link, and the link's clock. */
  datatype Out = Out(queues: seq<seq<ModelEvent>>, times: seq<nat>) {
    ghost predicate Matches(o: Out) {
      |queues| == |times| == |o.queues| == |o.times|
    }
  }

  /** Close at `t` goes to every neighbour. */
  ghost predicate Closed(cfg: Config, t: nat, o: Out, o': Out) {
    && o.Matches(o') && o'.times == o.times
    && forall d :: 0 <= d < |o.queues| ==> o'.queues[d] == o.queues[d] + [Event(t + cfg.latency, cfg.id, Close)]
  }

  /** Stalled at `t`: every neighbour that has not been promised that much gets a null. */
  ghost predicate Promised(cfg: Config, t: nat, o: Out, o': Out) {
    && o.Matches(o')
    && (forall d :: 0 <= d < |o.queues| ==>
          o'.queues[d] == o.queues[d] + Protocol.Promise(cfg.id, o.times[d], t, cfg.latency))
    && (forall d :: 0 <= d < |o.queues| ==> o'.times[d] == if o.times[d] < t then t else o.times[d])
  }

  /**
   A packet arriving at `t` is sent on link `d` when both packet and link are ready, and takes its time
   there; it is dropped when the link's backlog exceeds the limit.
   */
  ghost predicate Relayed(cfg: Config, t: nat, packet: Packet, d: nat, o: Out, o': Out)
    requires cfg.bandwidth > 0
  {
    && o.Matches(o') && d < |o.queues|
    && (forall c :: 0 <= c < |o.queues| && c != d ==> o'.queues[c] == o.queues[c] && o'.times[c] == o.times[c])
    && if t + 1000 * MTU_BITS * cfg.bandwidth < o.times[d] then o'.queues[d] == o.queues[d] && o'.times[d] == o.times[d]
       else
         && o'.times[d] == (if t < o.times[d] then o.times[d] else t) + TxTime(packet.sizeByte, cfg.bandwidth)
         && o'.queues[d] == o.queues[d] + [Event(o'.times[d] + cfg.latency, cfg.id, ModelEvent(PacketArrival(packet)))]
  }

  /**
   Passing on Close right away can overtake a packet still in transmission: at 1 gbps and 500 ns, a packet
   of 1500 bytes received at 12500 arrives at 25000, the Close received right after it is stamped 13001.
   */
  lemma CloseCanOvertake(cfg: Config, packet: Packet, d: nat, o: Out, o': Out, o'': Out)
    requires cfg.bandwidth == 1 && cfg.latency == 500 && packet.sizeByte == 1500
    requires d < |o.queues| == |o.times| && o.queues[d] == [Event(500, cfg.id, Null)] && o.times[d] <= 12500
    requires Relayed(cfg, 12500, packet, d, o, o') && Closed(cfg, 12501, o', o'')
    ensures |o''.queues| == |o.queues| && !Sorted(o''.queues[d])
  {
    assert o''.queues[d][1].time == 25000 && o''.queues[d][2].time == 13001;
  }

  ghost predicate RelayedSomewhere(cfg: Config, t: nat, packet: Packet, o: Out, o': Out)
    requires cfg.bandwidth > 0
  {
    packet.dst < |cfg.route| && exists d :: d in cfg.route[packet.dst] && Relayed(cfg, t, packet, d, o, o')
  }

  /** How a router answers an event. */
  ghost predicate Answered(cfg: Config, e: ModelEvent, o: Out, o': Out)
    requires cfg.bandwidth > 0
  {
    match e.eventType
    case Close => Closed(cfg, e.time, o, o')
    case Stalled => Promised(cfg, e.time, o, o')
    case Null => false
    case ModelEvent(m) => m.PacketArrival? && RelayedSomewhere(cfg, e.time, m.packet, o, o')
  }

  /** A turn of a router: nothing is put back into its merger. */
  ghost predicate RouterTurn(cfg: Config, turn: Turn<Out>) {
    && cfg.bandwidth > 0
    && turn.call != [] && turn.left == turn.call[|turn.call| - 1]
    && Answered(cfg, turn.event, turn.before, turn.after)
  }

  ghost function Answers(cfg: Config): Turn<Out> -> bool {
    (turn: Turn<Out>) => RouterTurn(cfg, turn)
  }

  lemma RelayedTo(cfg: Config, t: nat, packet: Packet, d: nat, o: Out, o': Out)
    requires cfg.bandwidth > 0 && packet.dst < |cfg.route| && d in cfg.route[packet.dst]
    requires Relayed(cfg, t, packet, d, o, o')
    ensures RelayedSomewhere(cfg, t, packet, o, o')
  {
  }

  lemma ClosedLast(cfg: Config, t: nat, o: Out, o': Out, d: nat)
    requires Closed(cfg, t, o, o') && d < |o.queues| && LinkClock(o.queues[d], o.times[d], cfg.latency)
    ensures ClosedDown(o'.queues[d], o'.times[d], cfg.latency)
  {
    var q := o'.queues[d];
    assert q[..|q| - 1] == o.queues[d];
  }

  /** Routers are sent packets they have a route for; flows and timeouts never reach them. */
  ghost predicate Routed(route: seq<seq<nat>>, e: EventType<NetworkEvent>) {
    e.ModelEvent? ==> e.model.PacketArrival? && e.model.packet.dst < |route| && route[e.model.packet.dst] != []
  }

  ghost function RoutedBy(route: seq<seq<nat>>): EventType<NetworkEvent> -> bool {
    (e: EventType<NetworkEvent>) => Routed(route, e)
  }

  /** What a call of `Advance` asks of a router, of its merger's contents and of its links. */
  ghost predicate Ready(cfg: Config, m: MState<NetworkEvent>, o: Out) {
    && cfg.bandwidth > 0 && |o.queues| == |o.times|
    && (forall dst :: 0 <= dst < |cfg.route| ==> forall d :: d in cfg.route[dst] ==> d < |o.queues|)
    && AllWaiting(m, RoutedBy(cfg.route))
    && forall d :: 0 <= d < |o.queues| ==> LinkClock(o.queues[d], o.times[d], cfg.latency)
  }

  class Router {
    const id: nat
    const latencyNs: nat
    const bandwidthGbps: nat
    const merger: Merger<NetworkEvent>
    const route: seq<seq<nat>>
    var outQueues: seq<seq<ModelEvent>>
    var outTimes: seq<nat>
    var count: nat

    ghost predicate Valid()
      reads this, merger, merger.loserE
    {
      && merger.Valid()
      && bandwidthGbps > 0
      && |outTimes| == |outQueues|
      && (forall dst :: 0 <= dst < |route| ==> forall d :: d in route[dst] ==> d < |outQueues|)
      && AllWaiting(merger.State(), RoutedBy(route))
    }

    /** While the router runs, every link keeps its clock. */
    ghost predicate Clocked()
      reads this
    {
      |outTimes| == |outQueues| && forall d :: 0 <= d < |outQueues| ==> LinkClock(outQueues[d], outTimes[d], latencyNs)
    }

    ghost function Configured(): Config {
      Config(id, latencyNs, bandwidthGbps, route)
    }

    ghost function Outgoing(): Out
      reads this
    {
      Out(outQueues, outTimes)
    }

    /** Apart from the shape of its merger, a router that can be called is a ready one. */
    lemma ReadyIff()
      requires merger.Valid()
      ensures Valid() && Clocked() <==> Ready(Configured(), merger.State(), Outgoing())
    {
    }

    /** A new router promises every neighbour nothing before one latency. */
    constructor (id: nat, latency: nat, bandwidth: nat, inQueues: seq<seq<ModelEvent>>, nLinks: nat,
                 route: seq<seq<nat>>)
      requires |inQueues| >= 2 && bandwidth > 0
      requires forall dst :: 0 <= dst < |route| ==> forall d :: d in route[dst] ==> d < nLinks
      requires forall q, k :: 0 <= q < |inQueues| && 0 <= k < |inQueues[q]| ==> Routed(route, inQueues[q][k].eventType)
      ensures Valid() && Clocked() && fresh(merger) && fresh(merger.loserE)
      ensures Configured() == Config(id, latency, bandwidth, route) && |outQueues| == nLinks && count == 0
      ensures merger.inQueues == inQueues && merger.winnerQ == 0 && |merger.curr| == |inQueues|
      ensures forall q :: 0 <= q < |inQueues| ==> merger.curr[q] == Event(0, q, Null)
      ensures forall d :: 0 <= d < nLinks ==> outTimes[d] == 0 && outQueues[d] == [Event(latency, id, Null)]
    {
      this.id, this.latencyNs, this.bandwidthGbps, this.route := id, latency, bandwidth, route;
      merger := new Merger(inQueues);
      var queues: seq<seq<ModelEvent>>, times: seq<nat> := [], [];
      for d := 0 to nLinks
        invariant |queues| == |times| == d
        invariant forall c :: 0 <= c < d ==> times[c] == 0 && queues[c] == [Event(latency, id, Null)]
      {
        queues := queues + [[Event(latency, id, Null)]];
        times := times + [0];
      }
      outQueues, outTimes, count := queues, times, 0;
    }

    /** Close at `t` goes to every neighbour. */
    method SendClose(t: nat)
      requires |outTimes| == |outQueues|
      modifies this`outQueues
      ensures |outTimes| == |outQueues| == |old(outQueues)| && Closed(Configured(), t, old(Outgoing()), Outgoing())
    {
      for d := 0 to |outQueues|
        invariant |outQueues| == |old(outQueues)|
        invariant forall c :: 0 <= c < |outQueues| ==>
          outQueues[c] == if c < d then old(outQueues)[c] + [Event(t + latencyNs, id, Close)] else old(outQueues)[c]
      {
        outQueues := outQueues[d := outQueues[d] + [Event(t + latencyNs, id, Close)]];
      }
    }

    /** Stalled at `t`: every neighbour that has not been promised that much gets a null. */
    method SendNulls(t: nat)
      requires |outTimes| == |outQueues|
      modifies this`outQueues, this`outTimes
      ensures |outTimes| == |outQueues| == |old(outQueues)| && Promised(Configured(), t, old(Outgoing()), Outgoing())
      ensures old(Clocked()) ==> Clocked()
      ensures forall d :: 0 <= d < |outTimes| ==> t <= outTimes[d]
    {
      for d := 0 to |outTimes|
        invariant |outTimes| == |outQueues| == |old(outQueues)|
        invariant forall c :: 0 <= c < |outQueues| ==>
          outQueues[c] == old(outQueues)[c] + if c < d then Protocol.Promise(id, old(outTimes)[c], t, latencyNs) else []
        invariant forall c :: 0 <= c < |outQueues| ==>
          outTimes[c] == if c < d && old(outTimes)[c] < t then t else old(outTimes)[c]
      {
        if outTimes[d] < t {
          outQueues := outQueues[d := outQueues[d] + [Event(t + latencyNs, id, Null)]];
          outTimes := outTimes[d := t];
        }
      }
      if old(Clocked()) {
        forall d | 0 <= d < |outQueues|
          ensures LinkClock(outQueues[d], outTimes[d], latencyNs)
        {
          PromiseKeepsClock(old(outQueues)[d], old(outTimes)[d], t, latencyNs, id);
        }
      }
    }

    /**
     Forwards a packet arriving at `t` over any of its next hops `d`. It is dropped when the link's
     backlog exceeds the limit; otherwise transmission starts when both packet and link are ready.
     */
    method Forward(t: nat, packet: Packet) returns (d: nat)
      requires |outTimes| == |outQueues| && bandwidthGbps > 0
      requires packet.dst < |route| && route[packet.dst] != []
      requires forall x :: x in route[packet.dst] ==> x < |outQueues|
      modifies this`outQueues, this`outTimes
      ensures |outTimes| == |outQueues| == |old(outQueues)| && d in route[packet.dst]
      ensures Relayed(Configured(), t, packet, d, old(Outgoing()), Outgoing())
      ensures forall c :: 0 <= c < |outQueues| ==>
                && old(outQueues)[c] <= outQueues[c]
                && Protocol.Burst(outQueues[c][|old(outQueues)[c]|..], old(outTimes)[c], outTimes[c], latencyNs)
      ensures old(Clocked()) ==> Clocked()
    {
      assert route[packet.dst][0] in route[packet.dst];
      d :| d in route[packet.dst];
      if t + 1000 * 8 * 1500 * bandwidthGbps < outTimes[d] {
        return;
      }
      var curTime := if t < outTimes[d] then outTimes[d] else t;
      var txEnd := curTime + TxTime(packet.sizeByte, bandwidthGbps);
      var rxEnd := txEnd + latencyNs;
      ghost var sent := [Event(rxEnd, id, ModelEvent(PacketArrival(packet)))];
      if LinkClock(outQueues[d], outTimes[d], latencyNs) {
        LinkClockAppend(outQueues[d], sent, outTimes[d], txEnd, latencyNs);
      }
      outQueues := outQueues[d := outQueues[d] + [Event(rxEnd, id, ModelEvent(PacketArrival(packet)))]];
      outTimes := outTimes[d := txEnd];
      assert outQueues[d][|old(outQueues)[d]|..] == sent;
    }

    /**
     Takes turns until the merger stalls or the simulation closes. On a stall every link is clocked and
     promised the stall time; at the end every link carries Close last.
     */
    method Advance() returns (r: ActorState, ghost turns: seq<Turn<Out>>)
      requires Valid() && Clocked()
      modifies this, merger, merger.loserE
      ensures Valid() && turns != []
      ensures Turns(Answers(Configured()), turns, old(merger.State()), merger.State(), old(Outgoing()), Outgoing())
      ensures forall k :: 0 <= k < |turns| - 1 ==> turns[k].event.eventType.ModelEvent?
      ensures count == old(count) + |turns| - 1
      ensures var last := turns[|turns| - 1].event;
        if last.eventType.Close? then r == Done(count) else last.eventType.Stalled? && r == Continue(last.time)
      ensures r.Continue? ==> Clocked() && forall d :: 0 <= d < |outTimes| ==> r.time <= outTimes[d]
      ensures r.Done? ==> forall d :: 0 <= d < |outQueues| ==> ClosedDown(outQueues[d], outTimes[d], latencyNs)
    {
      hide Turns, Chose, Call, Pending, LinkClock, Closed, Promised, Relayed, RelayedSomewhere, ClosedDown,
           Protocol.Burst;
      turns := [];
      ghost var cfg, m, o := Configured(), merger.State(), Outgoing();
      NoTurns(Answers(cfg), m, o);
      while true
        invariant Valid() && Clocked() && count == old(count) + |turns|
        invariant Turns(Answers(cfg), turns, m, merger.State(), o, Outgoing())
        invariant forall k :: 0 <= k < |turns| ==> turns[k].event.eventType.ModelEvent?
        decreases Pending(merger.State())
      {
        ghost var before := Outgoing();
        var event, call := NextEvent();
        match event.eventType {
          case Close =>
            SendClose(event.time);
          case Stalled =>
            SendNulls(event.time);
          case Null =>
          case ModelEvent(model) =>
            count := count + 1;
            var d := Forward(event.time, model.packet);
            RelayedTo(cfg, event.time, model.packet, d, before, Outgoing());
        }
        ghost var turn := Turn(call, event, before, Outgoing(), merger.State());
        Choose(turn);
        TurnsGoOn(Answers(cfg), turns, turn, m, o);
        turns := turns + [turn];
        if event.eventType.Close? {
          forall d | 0 <= d < |outQueues|
            ensures ClosedDown(outQueues[d], outTimes[d], latencyNs)
          {
            ClosedLast(cfg, event.time, before, Outgoing(), d);
          }
          return Done(count), turns;
        } else if event.eventType.Stalled? {
          return Continue(event.time), turns;
        }
      }
    }

    /** The next event, which the router knows how to answer. */
    method NextEvent() returns (e: ModelEvent, ghost call: seq<MState<NetworkEvent>>)
      requires Valid()
      modifies merger, merger.loserE
      ensures Valid() && !e.eventType.Null? && Routed(route, e.eventType)
      ensures Call(call) && call[0] == old(merger.State()) && call[|call| - 1] == merger.State()
      ensures merger.winnerQ < |merger.curr| && e == merger.curr[merger.winnerQ]
      ensures Pending(merger.State()) + (if Visible(e) then 1 else 0) <= old(Pending(merger.State()))
    {
      hide Pending, Round, LeastIn;
      ghost var trees;
      e, call, trees := merger.Next();
      CallPending(call, |call| - 1);
      CallKeeps(call, |call| - 1, RoutedBy(route));
      assert Visible(e) ==> Routed(route, e.eventType);
    }
  }
}
