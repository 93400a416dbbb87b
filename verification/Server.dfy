/** Servers: flows, acknowledgements, and retransmission timers driven by a Timeout the server sends itself. */
module Server {
  import opened Events
  import opened NetworkEvents
  import opened Tcp
  import opened Timers
  import opened Links
  import Protocol

  /** The end of transmission of a train of packets that starts when the link is free at `torTime`. */
  function TxEnd(packets: seq<Packet>, torTime: nat, bandwidth: nat): (t: nat)
    requires bandwidth > 0
    ensures torTime <= t
    decreases |packets|
  {
    if packets == [] then torTime
    else TxEnd(packets[..|packets| - 1], torTime, bandwidth) + TxTime(packets[|packets| - 1].sizeByte, bandwidth)
  }

  /** The train as the neighbour receives it. */
  function Train(id: nat, packets: seq<Packet>, torTime: nat, bandwidth: nat, latency: nat): (es: seq<ModelEvent>)
    requires bandwidth > 0
    ensures |es| == |packets|
    decreases |packets|
  {
    if packets == [] then []
    else
      Train(id, packets[..|packets| - 1], torTime, bandwidth, latency)
      + [Event(TxEnd(packets, torTime, bandwidth) + latency, id, ModelEvent(PacketArrival(packets[|packets| - 1])))]
  }

  lemma {:induction false} TrainIsBurst(id: nat, packets: seq<Packet>, torTime: nat, bandwidth: nat, latency: nat)
    requires bandwidth > 0
    ensures Protocol.Burst(Train(id, packets, torTime, bandwidth, latency), torTime,
                           TxEnd(packets, torTime, bandwidth), latency)
    decreases |packets|
  {
    if packets != [] {
      TrainIsBurst(id, packets[..|packets| - 1], torTime, bandwidth, latency);
    }
  }

  lemma EmptyTrain(id: nat, torTime: nat, bandwidth: nat, latency: nat)
    requires bandwidth > 0
    ensures Train(id, [], torTime, bandwidth, latency) == [] && TxEnd([], torTime, bandwidth) == torTime
  {
  }

  lemma {:induction false} FirstOfTrain(id: nat, packets: seq<Packet>, torTime: nat, bandwidth: nat, latency: nat)
    requires bandwidth > 0 && packets != []
    ensures Train(id, packets, torTime, bandwidth, latency)[0].time
            == torTime + TxTime(packets[0].sizeByte, bandwidth) + latency
    decreases |packets|
  {
    if |packets| > 1 {
      FirstOfTrain(id, packets[..|packets| - 1], torTime, bandwidth, latency);
    } else {
      EmptyTrain(id, torTime, bandwidth, latency);
      assert packets[..|packets| - 1] == [];
    }
  }

  /** A train leaves no earlier than `t` exactly when its first packet does. */
  lemma TrainDepartsIff(id: nat, packets: seq<Packet>, torTime: nat, bandwidth: nat, latency: nat, t: nat)
    requires bandwidth > 0
    ensures var train := Train(id, packets, torTime, bandwidth, latency);
            var late := forall k :: 0 <= k < |train| ==> t + latency <= train[k].time;
            late <==> packets == [] || t <= torTime + TxTime(packets[0].sizeByte, bandwidth)
  {
    if packets != [] {
      TrainIsBurst(id, packets, torTime, bandwidth, latency);
      FirstOfTrain(id, packets, torTime, bandwidth, latency);
    }
  }

  ghost function Views(flows: seq<Flow>): (vs: seq<FlowState>)
    reads flows
    ensures |vs| == |flows|
    ensures forall i :: 0 <= i < |flows| ==> vs[i] == flows[i].View()
  {
    seq(|flows|, i requires 0 <= i < |flows| reads flows => flows[i].View())
  }

  /** What serving the heap at a Timeout at `t` yields: the least timer if it was set for `t`, else nothing. */
  ghost predicate Served(t: nat, heap: multiset<Timer>, views: seq<FlowState>, packets: seq<Packet>,
                         requests: seq<TimeoutRequest>,
                         rest: multiset<Timer>, served: Option<Timer>) {
    match served
    case None => (forall x :: x in heap ==> t < x.time) && rest == heap && packets == [] && requests == []
    case Some(x) =>
      && Due(t, heap, x) && x.time == t && rest == heap - multiset{x}
      && x.flowId < |views| && x.seqNum < |views[x.flowId].acked|
      && var sent := TimeoutSends(views[x.flowId], x.seqNum);
         packets == PacketsOf(views[x.flowId], sent) && requests == Requests(x.flowId, sent)
  }

  /** At `t` the packets `sent` of flow `f` go out back to back, each with its timer. */
  ghost predicate SendsFor(t: nat, id: nat, heap: multiset<Timer>, f: FlowState, sent: seq<nat>, torTime: nat,
                           bandwidth: nat,
                           latency: nat, train: seq<ModelEvent>, txEnd: nat, heap': multiset<Timer>)
    requires bandwidth > 0
  {
    && heap' == heap + multiset(TimersFor(t, f.flowId, sent))
    && train == Train(id, PacketsOf(f, sent), torTime, bandwidth, latency)
    && txEnd == TxEnd(PacketsOf(f, sent), torTime, bandwidth)
  }

  /**
   A Timeout at `t`: when a timer was set for `t` it is used up, and its packet goes out and is timed
   again unless it was acknowledged meanwhile. Otherwise nothing is sent and no timer changes.
   */
  ghost predicate TimeoutOutcome(t: nat, id: nat, heap: multiset<Timer>, views: seq<FlowState>, torTime: nat,
                                 bandwidth: nat,
                                 latency: nat, train: seq<ModelEvent>, txEnd: nat, heap': multiset<Timer>,
                                 served: Option<Timer>)
    requires bandwidth > 0
  {
    match served
    case None => (forall x :: x in heap ==> t < x.time) && heap' == heap && train == [] && txEnd == torTime
    case Some(x) =>
      && Due(t, heap, x) && x.time == t
      && x.flowId < |views| && x.seqNum < |views[x.flowId].acked|
      && var sent := TimeoutSends(views[x.flowId], x.seqNum);
         && heap' == heap - multiset{x} + multiset(TimersFor(t, x.flowId, sent))
         && train == Train(id, PacketsOf(views[x.flowId], sent), torTime, bandwidth, latency)
         && txEnd == TxEnd(PacketsOf(views[x.flowId], sent), torTime, bandwidth)
  }

  /** The timers set for `t` or earlier. */
  ghost function DueBy(t: nat, heap: multiset<Timer>): set<Timer> {
    set x | x in heap && x.time <= t
  }

  /** Flows are only added, and what a flow has sent stays sent. */
  ghost predicate Grown(before: seq<FlowState>, after: seq<FlowState>) {
    && |before| <= |after|
    && forall i :: 0 <= i < |before| ==> |before[i].acked| <= |after[i].acked|
  }

  lemma GrownBy(views: seq<FlowState>, added: seq<FlowState>)
    ensures Grown(views, views + added)
    ensures added == [] ==> Grown(views, views)
  {
  }

  lemma GrownByAck(views: seq<FlowState>, f: nat, s: nat, t: nat)
    requires f < |views| && s < |views[f].acked| && views[f].start <= t
    requires (!views[f].acked[s] ==> views[f].outstanding > 0)
    ensures Grown(views, views[f := AfterAck(views[f], s, t)])
  {
  }

  /** The flows of a server: distinct objects, numbered by position, each between two calls. */
  ghost predicate Separate(flows: seq<Flow>)
    reads flows
  {
    && (forall i, j :: 0 <= i < j < |flows| ==> flows[i] != flows[j])
    && (forall i :: 0 <= i < |flows| ==> flows[i].Valid() && flows[i].flowId == i)
  }

  /** What a server is built with. */
  datatype Config = Config(id: nat, latency: nat, bandwidth: nat)

  /** A server between two events. */
  datatype Snapshot = Snapshot(torQueue: seq<ModelEvent>, torTime: nat, selfQueue: seq<ModelEvent>,
                               timeouts: multiset<Timer>,
                               flows: seq<FlowState>, count: nat, pending: nat)

  /** At `t` the packets `sent` of flow `f` go to the rack, each with its timer. */
  ghost predicate Launched(cfg: Config, t: nat, f: FlowState, sent: seq<nat>, s: Snapshot, s': Snapshot)
    requires cfg.bandwidth > 0
  {
    && s.torQueue <= s'.torQueue
    && SendsFor(t, cfg.id, s.timeouts, f, sent, s.torTime, cfg.bandwidth, cfg.latency,
                s'.torQueue[|s.torQueue|..], s'.torTime, s'.timeouts)
    && s'.selfQueue == s.selfQueue && s'.pending == s.pending && s'.count == s.count + 1
  }

  /** The pending Timeout at `t`: the due timer is served, and the next Timeout sent for the earliest timer. */
  ghost predicate TimedOut(cfg: Config, t: nat, s: Snapshot, s': Snapshot, served: Option<Timer>)
    requires cfg.bandwidth > 0
  {
    && s.torQueue <= s'.torQueue
    && TimeoutOutcome(t, cfg.id, s.timeouts, s.flows, s.torTime, cfg.bandwidth, cfg.latency,
                      s'.torQueue[|s.torQueue|..], s'.torTime, s'.timeouts, served)
    && NextPending(t, s'.timeouts, s'.pending)
    && s'.selfQueue == s.selfQueue + [Event(s'.pending, cfg.id, ModelEvent(Timeout))]
    && s'.flows == s.flows && s'.count == s.count + 1
  }

  /** How a server reacts to an event. */
  ghost predicate Reacted(cfg: Config, e: ModelEvent, s: Snapshot, s': Snapshot)
    requires cfg.bandwidth > 0
  {
    match e.eventType
    case Close =>
      var close := Event(e.time + cfg.latency, cfg.id, Close);
      s' == s.(torQueue := s.torQueue + [close], selfQueue := s.selfQueue + [close])
    case Stalled =>
      s' == s.(torQueue := s.torQueue + Protocol.Promise(cfg.id, s.torTime, e.time, cfg.latency),
               torTime := if s.torTime < e.time then e.time else s.torTime)
    case Null => false
    case ModelEvent(m) =>
      match m
      case Timeout => exists served :: TimedOut(cfg, e.time, s, s', served)
      case Flow(src, dst, sizeByte) =>
        var f := AfterStart(FreshFlow(|s.flows|, src, dst, sizeByte), e.time);
        s'.flows == s.flows + [f] && Launched(cfg, e.time, f, Consecutive(0, f.nextSeq), s, s')
      case PacketArrival(p) =>
        if p.isAck then
          && AckPossible(s.flows, p, e.time)
          && var f := s.flows[p.flowId];
             s'.flows == s.flows[p.flowId := AfterAck(f, p.seqNum, e.time)]
             && Launched(cfg, e.time, f, AckSends(f, p.seqNum), s, s')
        else
          var ack := [p.(src := cfg.id, dst := p.src, isAck := true, sizeByte := 10)];
          s' == s.(torQueue := s.torQueue + Train(cfg.id, ack, s.torTime, cfg.bandwidth, cfg.latency),
                   torTime := TxEnd(ack, s.torTime, cfg.bandwidth), count := s.count + 1)
  }

  /** The size of the first packet an event makes a server send. */
  function FirstSize(e: NetworkEvent): nat {
    if e.PacketArrival? && !e.packet.isAck then 10 else BYTES_PER_PACKET
  }

  /** What a model event makes a server send is a train from the time the link is free. */
  lemma ReactionIsTrain(cfg: Config, e: ModelEvent, s: Snapshot, s': Snapshot) returns (packets: seq<Packet>)
    requires cfg.bandwidth > 0 && Reacted(cfg, e, s, s') && e.eventType.ModelEvent?
    ensures s.torQueue <= s'.torQueue && s'.torTime == TxEnd(packets, s.torTime, cfg.bandwidth)
    ensures s'.torQueue[|s.torQueue|..] == Train(cfg.id, packets, s.torTime, cfg.bandwidth, cfg.latency)
    ensures packets != [] ==> packets[0].sizeByte == FirstSize(e.eventType.model)
  {
    hide Train, TxEnd, NextPending, Due, AfterAck, AfterStart;
    EmptyTrain(cfg.id, s.torTime, cfg.bandwidth, cfg.latency);
    match e.eventType.model {
      case Timeout =>
        var served :| TimedOut(cfg, e.time, s, s', served);
        packets := if served.None? then [] else
                     PacketsOf(s.flows[served.value.flowId],
                               TimeoutSends(s.flows[served.value.flowId], served.value.seqNum));
      case Flow(src, dst, sizeByte) =>
        var f := AfterStart(FreshFlow(|s.flows|, src, dst, sizeByte), e.time);
        packets := PacketsOf(f, Consecutive(0, f.nextSeq));
      case PacketArrival(p) =>
        packets := if p.isAck then PacketsOf(s.flows[p.flowId], AckSends(s.flows[p.flowId], p.seqNum))
                   else [p.(src := cfg.id, dst := p.src, isAck := true, sizeByte := 10)];
    }
  }

  /**
   A model event at `t` makes a server in state `s` send nothing: a Timeout whose due timer, if there is one, is
   of a packet acknowledged meanwhile, an empty flow, or an acknowledgement that is repeated or finds nothing
   left to send.
   */
  ghost predicate SendsNothing(e: NetworkEvent, t: nat, s: Snapshot) {
    match e
    case Timeout => forall x :: Due(t, s.timeouts, x) ==> Acknowledged(s.flows, x.flowId, x.seqNum)
    case Flow(_, _, sizeByte) => sizeByte == 0
    case PacketArrival(p) =>
      p.isAck && (Acknowledged(s.flows, p.flowId, p.seqNum) || NothingLeft(s.flows, p.flowId))
  }

  ghost predicate Acknowledged(flows: seq<FlowState>, f: nat, s: nat) {
    f < |flows| && s < |flows[f].acked| && flows[f].acked[s]
  }

  ghost predicate NothingLeft(flows: seq<FlowState>, f: nat) {
    f < |flows| && Segments(flows[f].sizeByte) <= flows[f].nextSeq
  }

  lemma OneLeast(heap: multiset<Timer>, x: Timer, y: Timer)
    requires IsMin(x, heap) && IsMin(y, heap)
    ensures x == y
  {
  }

  /** Whether a reaction sends anything can be told beforehand. */
  lemma SendsNothingIff(cfg: Config, e: ModelEvent, s: Snapshot, s': Snapshot)
    requires cfg.bandwidth > 0 && Reacted(cfg, e, s, s') && e.eventType.ModelEvent?
    ensures s.torQueue <= s'.torQueue
    ensures s'.torQueue[|s.torQueue|..] == [] <==> SendsNothing(e.eventType.model, e.time, s)
  {
    hide TxEnd, NextPending, IsMin;
    match e.eventType.model {
      case Timeout =>
        var served :| TimedOut(cfg, e.time, s, s', served);
        if served.Some? {
          forall x | Due(e.time, s.timeouts, x)
            ensures x == served.value
          {
            OneLeast(s.timeouts, x, served.value);
          }
        } else {
          forall x
            ensures !Due(e.time, s.timeouts, x)
          {
            LeastIsIn(s.timeouts, x);
          }
        }
      case Flow(src, dst, sizeByte) =>
      case PacketArrival(p) =>
    }
  }

  lemma LeastIsIn(heap: multiset<Timer>, x: Timer)
    ensures IsMin(x, heap) ==> x in heap
  {
  }

  /**
   A server does not wait for the event it reacts to. What it sends lies a latency after the event or later
   exactly when the event is a stall or a Close, makes it send nothing, or finds the link busy long enough.
   */
  lemma DepartsAfterIff(cfg: Config, e: ModelEvent, s: Snapshot, s': Snapshot)
    requires cfg.bandwidth > 0 && Reacted(cfg, e, s, s')
    ensures s.torQueue <= s'.torQueue
    ensures var sent := s'.torQueue[|s.torQueue|..];
            var late := forall k :: 0 <= k < |sent| ==> e.time + cfg.latency <= sent[k].time;
            late <==> !e.eventType.ModelEvent? || SendsNothing(e.eventType.model, e.time, s)
                      || e.time <= s.torTime + TxTime(FirstSize(e.eventType.model), cfg.bandwidth)
  {
    if e.eventType.ModelEvent? {
      var packets := ReactionIsTrain(cfg, e, s, s');
      SendsNothingIff(cfg, e, s, s');
      hide Reacted, Train, TxEnd, SendsNothing;
      TrainDepartsIff(cfg.id, packets, s.torTime, cfg.bandwidth, cfg.latency, e.time);
    }
  }

  /**
   At 10 gbps and 500 ns, data that reaches at 3400 a server whose link has been free since 2000 is answered by an
   event stamped 2508.
   */
  lemma AnswerBeforeData(id: nat, packet: Packet, src: nat, s: Snapshot, s': Snapshot)
    requires !packet.isAck && s.torTime == 2000
    requires Reacted(Config(id, 500, 10), Event(3400, src, ModelEvent(PacketArrival(packet))), s, s')
    ensures |s'.torQueue| == |s.torQueue| + 1 && s'.torQueue[|s.torQueue|].time == 2508
  {
    var ack := [packet.(src := id, dst := packet.src, isAck := true, sizeByte := 10)];
    FirstOfTrain(id, ack, 2000, 10, 500);
  }

  /** Every model event is counted once. */
  lemma CountsOnce(cfg: Config, e: ModelEvent, s: Snapshot, s': Snapshot)
    requires cfg.bandwidth > 0 && Reacted(cfg, e, s, s')
    ensures s'.count == s.count + if e.eventType.ModelEvent? then 1 else 0
  {
    hide Train, TxEnd, AfterAck, AfterStart, SendsFor, TimeoutOutcome, NextPending;
  }

  /** What a reaction leaves on the queues. */
  lemma ReactionSends(cfg: Config, e: ModelEvent, s: Snapshot, s': Snapshot)
    requires cfg.bandwidth > 0 && Reacted(cfg, e, s, s')
    ensures s.torQueue <= s'.torQueue && s.selfQueue <= s'.selfQueue
    ensures e.eventType.ModelEvent? && e.eventType.model.Timeout? ==>
              s'.selfQueue == s.selfQueue + [Event(s'.pending, cfg.id, ModelEvent(Timeout))]
    ensures !e.eventType.Close? && !(e.eventType.ModelEvent? && e.eventType.model.Timeout?) ==>
              s'.selfQueue == s.selfQueue && s'.pending == s.pending
    ensures e.eventType.Stalled? ==> s'.timeouts == s.timeouts && e.time <= s'.torTime
    ensures e.eventType.Close? && LinkClock(s.torQueue, s.torTime, cfg.latency) ==>
        ClosedDown(s'.torQueue, s'.torTime, cfg.latency)
  {
    hide LinkClock, SendsFor, TimeoutOutcome, NextPending, Train, TxEnd;
    if e.eventType.Close? {
      assert s'.torQueue[..|s'.torQueue| - 1] == s.torQueue;
    }
  }

  lemma SendsSo(t: nat, id: nat, heap: multiset<Timer>, f: FlowState, sent: seq<nat>, torTime: nat, bandwidth: nat,
                latency: nat,
                requests: seq<TimeoutRequest>)
    requires bandwidth > 0 && TimersOf(t, requests) == TimersFor(t, f.flowId, sent)
    ensures SendsFor(t, id, heap, f, sent, torTime, bandwidth, latency,
                     Train(id, PacketsOf(f, sent), torTime, bandwidth, latency),
                     TxEnd(PacketsOf(f, sent), torTime, bandwidth), heap + multiset(TimersOf(t, requests)))
  {
  }

  /** Flow `i` takes an acknowledgement; the others are left alone. */
  method Acknowledge(flows: seq<Flow>, i: nat, t: nat, packet: Packet)
      returns (packets: seq<Packet>, requests: seq<TimeoutRequest>)
    requires Separate(flows) && i < |flows| && packet.seqNum < |flows[i].acked| && flows[i].start <= t
    modifies flows
    ensures Separate(flows)
    ensures old(Views(flows))[i].flowId == i
    ensures !old(Views(flows))[i].acked[packet.seqNum] ==> old(Views(flows))[i].outstanding > 0
    ensures Views(flows) == old(Views(flows))[i := AfterAck(old(Views(flows))[i], packet.seqNum, t)]
    ensures var f := old(Views(flows))[i];
      packets == PacketsOf(f, AckSends(f, packet.seqNum)) && requests == Requests(i, AckSends(f, packet.seqNum))
  {
    hide FlowInv, AfterAck, AckSends;
    ghost var views := Views(flows);
    packets, requests := flows[i].SrcReceive(t, packet);
    assert forall j :: 0 <= j < |flows| && j != i ==> flows[j].View() == views[j] && flows[j].Valid();
    assert Views(flows) == views[i := AfterAck(views[i], packet.seqNum, t)];
  }

  lemma FreshFlowIs(i: nat, src: nat, dst: nat, sizeByte: nat)
    ensures var f := FreshFlow(i, src, dst, sizeByte);
            f.flowId == i && f.src == src && f.dst == dst && f.sizeByte == sizeByte
  {
  }

  /** Flow number `i` is created and started. */
  method Launch(i: nat, src: nat, dst: nat, sizeByte: nat, t: nat)
      returns (flow: Flow, packets: seq<Packet>, requests: seq<TimeoutRequest>)
    ensures fresh(flow) && flow.Valid() && flow.flowId == i
    ensures flow.View() == AfterStart(FreshFlow(i, src, dst, sizeByte), t)
    ensures var sent := Consecutive(0, flow.nextSeq);
            packets == PacketsOf(flow.View(), sent) && requests == Requests(i, sent)
  {
    hide FlowInv, AfterStart, Consecutive;
    flow := new Flow(i, src, dst, sizeByte);
    packets, requests := flow.Start(t);
  }

  /** A timer of flow `i` fires; no flow changes. */
  method Expire(flows: seq<Flow>, i: nat, s: nat) returns (packets: seq<Packet>, requests: seq<TimeoutRequest>)
    requires Separate(flows) && i < |flows| && s < |flows[i].acked|
    modifies flows
    ensures Separate(flows) && Views(flows) == old(Views(flows))
    ensures var f := Views(flows)[i];
      s < |f.acked| && packets == PacketsOf(f, TimeoutSends(f, s)) && requests == Requests(i, TimeoutSends(f, s))
  {
    hide FlowInv, TimeoutSends;
    ghost var views := Views(flows);
    packets, requests := flows[i].Timeout(s);
    assert forall j :: 0 <= j < |flows| ==> flows[j].View() == views[j] && flows[j].Valid();
    assert Views(flows) == views;
  }

  class Server {
    const id: nat
    const latencyNs: nat
    const bandwidthGbps: nat
    var selfQueue: seq<ModelEvent>  // what was sent to itself
    var torQueue: seq<ModelEvent>   // what was sent to the rack switch
    var torTime: nat
    var timeouts: multiset<Timer>
    var flows: seq<Flow>
    var count: nat

    ghost var now: nat      // the time of the last event
    ghost var pending: nat  // the time of the Timeout in flight

    ghost predicate Shaped()
      reads this, flows
    {
      && bandwidthGbps > 0
      && Separate(flows)
      && LinkClock(torQueue, torTime, latencyNs)
    }

    ghost predicate Valid()
      reads this, flows
    {
      && Shaped()
      && TimersInv(now, pending, timeouts, Views(flows))
      && selfQueue != [] && selfQueue[|selfQueue| - 1] == Event(pending, id, ModelEvent(Timeout))
    }

    ghost function Configured(): Config {
      Config(id, latencyNs, bandwidthGbps)
    }

    ghost function Now(): Snapshot
      reads this, flows
    {
      Snapshot(torQueue, torTime, selfQueue, timeouts, Views(flows), count, pending)
    }

    /** A new server promises the rack nothing before one latency and sends itself a first Timeout. */
    constructor (id: nat, latency: nat, bandwidth: nat)
      requires bandwidth > 0
      ensures Valid() && flows == [] && now == 0 && pending == MIN_RTO && torTime == 0 && count == 0
      ensures timeouts == multiset{}
      ensures Configured() == Config(id, latency, bandwidth)
      ensures torQueue == [Event(latency, id, Null)] && selfQueue == [Event(MIN_RTO, id, ModelEvent(Timeout))]
    {
      this.id, latencyNs, bandwidthGbps := id, latency, bandwidth;
      torQueue := [Event(latency, id, Null)];
      selfQueue := [Event(MIN_RTO, id, ModelEvent(Timeout))];
      torTime, timeouts, flows, count, now, pending := 0, multiset{}, [], 0, 0, MIN_RTO;
    }

    /** The events of a train of packets sent back to back, and when the link is free again. */
    method Transmit(packets: seq<Packet>, start: nat) returns (train: seq<ModelEvent>, txEnd: nat)
      requires bandwidthGbps > 0
      ensures train == Train(id, packets, start, bandwidthGbps, latencyNs)
      ensures txEnd == TxEnd(packets, start, bandwidthGbps)
    {
      txEnd, train := start, [];
      for i := 0 to |packets|
        invariant txEnd == TxEnd(packets[..i], start, bandwidthGbps)
        invariant train == Train(id, packets[..i], start, bandwidthGbps, latencyNs)
      {
        assert packets[..i + 1][..i] == packets[..i];
        txEnd := txEnd + TxTime(packets[i].sizeByte, bandwidthGbps);
        train := train + [Event(txEnd + latencyNs, id, ModelEvent(PacketArrival(packets[i])))];
      }
      assert packets[..|packets|] == packets;
    }

    lemma TrainKeepsClock(queue: seq<ModelEvent>, packets: seq<Packet>)
      requires bandwidthGbps > 0 && LinkClock(queue, torTime, latencyNs)
      ensures LinkClock(queue + Train(id, packets, torTime, bandwidthGbps, latencyNs),
                        TxEnd(packets, torTime, bandwidthGbps), latencyNs)
      ensures Protocol.Burst(Train(id, packets, torTime, bandwidthGbps, latencyNs), torTime,
                             TxEnd(packets, torTime, bandwidthGbps), latencyNs)
    {
      TrainIsBurst(id, packets, torTime, bandwidthGbps, latencyNs);
      LinkClockAppend(queue, Train(id, packets, torTime, bandwidthGbps, latencyNs), torTime,
                      TxEnd(packets, torTime, bandwidthGbps), latencyNs);
    }

    /** Sends what a reaction at `t` leads to, and sets its timers. */
    method Record(t: nat, train: seq<ModelEvent>, txEnd: nat, heap: multiset<Timer>, back: seq<ModelEvent>,
                  ghost next: nat)
      requires bandwidthGbps > 0 && Separate(flows) && LinkClock(torQueue + train, txEnd, latencyNs)
      requires TimersInv(t, next, heap, Views(flows))
      requires selfQueue + back != []
      requires (selfQueue + back)[|selfQueue + back| - 1] == Event(next, id, ModelEvent(Timeout))
      modifies this`count, this`timeouts, this`selfQueue, this`torQueue, this`torTime, this`now, this`pending
      ensures Valid() && now == t && pending == next && count == old(count) + 1
      ensures selfQueue == old(selfQueue) + back && torQueue == old(torQueue) + train && torTime == txEnd
      ensures timeouts == heap
      ensures old(torQueue) <= torQueue && torQueue[|old(torQueue)|..] == train
    {
      hide TimersInv, LinkClock, Separate, Views;
      count := count + 1;
      timeouts := heap;
      selfQueue := selfQueue + back;
      torQueue := torQueue + train;
      torTime := txEnd;
      now, pending := t, next;
    }

    /** The timers a reaction at `t` asked for. */
    method NewTimers(t: nat, requests: seq<TimeoutRequest>) returns (timers: multiset<Timer>)
      ensures timers == multiset(TimersOf(t, requests))
    {
      timers := multiset{};
      for i := 0 to |requests|
        invariant timers == multiset(TimersOf(t, requests)[..i])
      {
        var (delay, flowId, seqNum) := requests[i];
        assert TimersOf(t, requests)[..i + 1] == TimersOf(t, requests)[..i] + [TimersOf(t, requests)[i]];
        timers := timers + multiset{Timer(t + delay, flowId, seqNum)};
      }
      assert TimersOf(t, requests)[..|requests|] == TimersOf(t, requests);
    }

    /** The least timer of a non-empty heap. */
    static method Peek(heap: multiset<Timer>) returns (t: Timer)
      requires |heap| > 0
      ensures IsMin(t, heap) && forall x :: x in heap ==> t.time <= x.time
    {
      ghost var m := MinExists(heap);
      t :| t in heap && forall x :: x in heap ==> TimerLe(t, x);
    }

    /** When to send itself the next Timeout: for the earliest timer, `MIN_RTO` from `t` at the latest. */
    static method NextTimeout(t: nat, heap: multiset<Timer>) returns (next: nat)
      requires forall x :: x in heap ==> t <= x.time
      ensures NextPending(t, heap, next)
    {
      next := t + MIN_RTO;
      if |heap| > 0 {
        var x := Peek(heap);
        if x.time < next {
          next := x.time;
        }
      }
    }

    /** Serves the least timer if it is due by `t`; `rest` is the heap without it. */
    method ServeDue(t: nat)
        returns (packets: seq<Packet>, requests: seq<TimeoutRequest>, rest: multiset<Timer>,
                 ghost served: Option<Timer>)
      requires Valid() && t == pending
      modifies flows
      ensures Separate(flows) && Views(flows) == old(Views(flows))
      ensures forall x :: x in rest ==> t <= x.time
      ensures Served(t, timeouts, Views(flows), packets, requests, rest, served)
    {
      hide TimersInv, FlowInv, IsMin, TimerLe, LinkClock, TimeoutSends;
      packets, requests, rest, served := [], [], timeouts, None;
      ghost var views := Views(flows);
      TimersAhead(now, pending, timeouts, views);
      if |timeouts| > 0 {
        var x := Peek(timeouts);
        if x.time <= t {
          ServedOnTime(now, pending, timeouts, views, x);
          packets, requests := Expire(flows, x.flowId, x.seqNum);
          rest := timeouts - multiset{x};
          served := Some(x);
        }
      }
    }

    /** Everything a Timeout at `t` leads to, before it is recorded. */
    method PlanTimeout(t: nat)
        returns (train: seq<ModelEvent>, txEnd: nat, heap: multiset<Timer>, next: nat, ghost served: Option<Timer>)
      requires Valid() && t == pending
      modifies flows
      ensures Separate(flows) && Views(flows) == old(Views(flows))
      ensures Protocol.Burst(train, torTime, txEnd, latencyNs)
      ensures LinkClock(torQueue + train, txEnd, latencyNs) && t <= next && TimersInv(t, next, heap, Views(flows))
      ensures TimeoutOutcome(t, id, timeouts, Views(flows), torTime, bandwidthGbps, latencyNs,
                             train, txEnd, heap, served)
      ensures NextPending(t, heap, next) && (t < next || DueBy(t, heap) < DueBy(t, timeouts))
    {
      hide TimersInv, FlowInv, LinkClock, Train, TxEnd, TimeoutSends, NextPending, Due, TimersOf, TimersFor,
           Separate, Views,
           PacketsOf, Requests, DueBy, Served, TimeoutOutcome;
      ghost var views := Views(flows);
      var packets, requests, rest;
      packets, requests, rest, served := ServeDue(t);
      next := NextTimeout(t, rest);
      train, txEnd := Transmit(packets, torTime);
      var timers := NewTimers(t, requests);
      AfterTimeout(now, pending, timeouts, views, packets, requests, rest, served, next);
      OutcomeOf(Configured(), now, pending, timeouts, views, packets, requests, rest, served, torTime);
      TrainKeepsClock(torQueue, packets);
      heap := rest + timers;
    }

    /**
     The pending Timeout arrives at `t`. A timer is served exactly when one was set for `t`; its packet
     is sent again and timed anew unless it was acknowledged meanwhile. The next Timeout is sent.
     */
    method OnTimeout(t: nat) returns (ghost served: Option<Timer>)
      requires Valid() && t == pending
      modifies this, flows
      ensures Valid() && now == t <= pending && flows == old(flows) && Views(flows) == old(Views(flows))
      ensures count == old(count) + 1
      ensures NextPending(t, timeouts, pending) && (t < pending || DueBy(t, timeouts) < DueBy(t, old(timeouts)))
      ensures selfQueue == old(selfQueue) + [Event(pending, id, ModelEvent(Timeout))]
      ensures old(torQueue) <= torQueue && Protocol.Burst(torQueue[|old(torQueue)|..], old(torTime), torTime, latencyNs)
      ensures TimeoutOutcome(t, id, old(timeouts), Views(flows), old(torTime), bandwidthGbps, latencyNs,
                             torQueue[|old(torQueue)|..], torTime, timeouts, served)
    {
      hide TimeoutOutcome, TimersInv, LinkClock, Separate, Views, Protocol.Burst, DueBy, NextPending;
      var train, txEnd, heap, next;
      train, txEnd, heap, next, served := PlanTimeout(t);
      Record(t, train, txEnd, heap, [Event(next, id, ModelEvent(Timeout))], next);
    }

    /** Everything a new flow at `t` leads to, before it is recorded. */
    method PlanFlow(t: nat, src: nat, dst: nat, sizeByte: nat)
        returns (flow: Flow, train: seq<ModelEvent>, txEnd: nat, heap: multiset<Timer>)
      requires Valid() && now <= t <= pending
      ensures fresh(flow) && Separate(flows + [flow]) && Views(flows + [flow]) == Views(flows) + [flow.View()]
      ensures flow.View() == AfterStart(FreshFlow(|flows|, src, dst, sizeByte), t)
      ensures SendsFor(t, id, timeouts, flow.View(), Consecutive(0, flow.View().nextSeq), torTime, bandwidthGbps,
                       latencyNs, train, txEnd, heap)
      ensures Protocol.Burst(train, torTime, txEnd, latencyNs)
      ensures LinkClock(torQueue + train, txEnd, latencyNs) && TimersInv(t, pending, heap, Views(flows + [flow]))
    {
      hide TimersInv, FlowInv, LinkClock, Train, TxEnd, Separate, Views, AfterStart, Consecutive, SendsFor,
           Protocol.Burst, PacketsOf,
           FreshFlow;
      var packets, requests;
      flow, packets, requests := Launch(|flows|, src, dst, sizeByte, t);
      ghost var start, sent := FreshFlow(|flows|, src, dst, sizeByte), Consecutive(0, flow.nextSeq);
      assert TimersOf(t, requests) == TimersFor(t, |flows|, sent);
      var timers := NewTimers(t, requests);
      train, txEnd := Transmit(packets, torTime);
      TrainKeepsClock(torQueue, packets);
      FreshFlowIs(|flows|, src, dst, sizeByte);
      FlowTimers(now, t, pending, timeouts, Views(flows), start);
      SendsSo(t, id, timeouts, flow.View(), sent, torTime, bandwidthGbps, latencyNs, requests);
      heap := timeouts + timers;
      SeparateSnoc(flows, flow);
    }

    /** The world starts a flow at `t`: its first burst goes out, every packet with its timer. */
    method OnFlow(t: nat, src: nat, dst: nat, sizeByte: nat)
      requires Valid() && now <= t <= pending
      modifies this
      ensures Valid() && now == t && pending == old(pending) && selfQueue == old(selfQueue) && count == old(count) + 1
      ensures |flows| == |old(flows)| + 1 && flows[..|old(flows)|] == old(flows) && fresh(flows[|old(flows)|])
      ensures old(torQueue) <= torQueue && Protocol.Burst(torQueue[|old(torQueue)|..], old(torTime), torTime, latencyNs)
      ensures var g := AfterStart(FreshFlow(|old(flows)|, src, dst, sizeByte), t);
        && Views(flows) == old(Views(flows)) + [g]
        && SendsFor(t, id, old(timeouts), g, Consecutive(0, g.nextSeq), old(torTime), bandwidthGbps, latencyNs,
                    torQueue[|old(torQueue)|..], torTime, timeouts)
    {
      hide TimersInv, LinkClock, SendsFor, Separate, Views, AfterStart, Consecutive, FreshFlow, Protocol.Burst;
      var flow, train, txEnd, heap := PlanFlow(t, src, dst, sizeByte);
      flows := flows + [flow];
      Record(t, train, txEnd, heap, [], pending);
    }

    /** Everything an acknowledgement at `t` leads to, before it is recorded. */
    method PlanAck(t: nat, packet: Packet) returns (train: seq<ModelEvent>, txEnd: nat, heap: multiset<Timer>)
      requires Valid() && now <= t <= pending
      requires packet.flowId < |flows| && packet.seqNum < |flows[packet.flowId].acked|
      modifies flows
      ensures Separate(flows) && old(AckPossible(Views(flows), packet, t))
      ensures Views(flows) == old(Views(flows))
                              [packet.flowId := AfterAck(old(Views(flows))[packet.flowId], packet.seqNum, t)]
      ensures var f := old(Views(flows))[packet.flowId];
        SendsFor(t, id, timeouts, f, AckSends(f, packet.seqNum), torTime, bandwidthGbps, latencyNs, train, txEnd, heap)
      ensures Protocol.Burst(train, torTime, txEnd, latencyNs)
      ensures LinkClock(torQueue + train, txEnd, latencyNs) && TimersInv(t, pending, heap, Views(flows))
    {
      hide TimersInv, FlowInv, LinkClock, Train, TxEnd, AfterAck, AckSends, Separate, PacketsOf, SendsFor,
           Protocol.Burst;
      ghost var views := Views(flows);
      AckTimers(now, t, pending, timeouts, views, packet.flowId, packet.seqNum);
      ghost var f := views[packet.flowId];
      ghost var sent := AckSends(f, packet.seqNum);
      var packets, requests := Acknowledge(flows, packet.flowId, t, packet);
      assert TimersOf(t, requests) == TimersFor(t, packet.flowId, sent);
      var timers := NewTimers(t, requests);
      train, txEnd := Transmit(packets, torTime);
      TrainKeepsClock(torQueue, packets);
      SendsSo(t, id, timeouts, f, sent, torTime, bandwidthGbps, latencyNs, requests);
      heap := timeouts + timers;
    }

    /** An acknowledgement arrives at `t`. */
    method OnAck(t: nat, packet: Packet)
      requires Valid() && now <= t <= pending
      requires packet.flowId < |flows| && packet.seqNum < |flows[packet.flowId].acked|
      modifies this, flows
      ensures Valid() && now == t && pending == old(pending) && selfQueue == old(selfQueue) && count == old(count) + 1
      ensures flows == old(flows) && old(AckPossible(Views(flows), packet, t))
      ensures old(torQueue) <= torQueue && Protocol.Burst(torQueue[|old(torQueue)|..], old(torTime), torTime, latencyNs)
      ensures Views(flows) == old(Views(flows))
                              [packet.flowId := AfterAck(old(Views(flows))[packet.flowId], packet.seqNum, t)]
      ensures var f := old(Views(flows))[packet.flowId];
        SendsFor(t, id, old(timeouts), f, AckSends(f, packet.seqNum), old(torTime), bandwidthGbps, latencyNs,
                 torQueue[|old(torQueue)|..], torTime, timeouts)
    {
      hide TimersInv, LinkClock, SendsFor, Separate, Views, AfterAck, AckSends, AckPossible, Protocol.Burst;
      var train, txEnd, heap := PlanAck(t, packet);
      Record(t, train, txEnd, heap, [], pending);
    }

    /** Data arrives at `t`: a short acknowledgement goes back at once, and no timer is set for it. */
    method OnData(t: nat, packet: Packet)
      requires Valid() && now <= t <= pending
      modifies this
      ensures Valid() && now == t && pending == old(pending) && selfQueue == old(selfQueue) && count == old(count) + 1
      ensures flows == old(flows) && timeouts == old(timeouts)
      ensures old(torQueue) <= torQueue && Protocol.Burst(torQueue[|old(torQueue)|..], old(torTime), torTime, latencyNs)
      ensures var ack := packet.(src := id, dst := packet.src, isAck := true, sizeByte := 10);
        && torQueue == old(torQueue) + Train(id, [ack], old(torTime), bandwidthGbps, latencyNs)
        && torTime == TxEnd([ack], old(torTime), bandwidthGbps)
    {
      hide TimersInv, LinkClock, Separate, Views, Train, TxEnd, Protocol.Burst;
      var ack := packet.(src := id, dst := packet.src, isAck := true, sizeByte := 10);
      var train, txEnd := Transmit([ack], torTime);
      TrainKeepsClock(torQueue, [ack]);
      Wait(now, t, pending, timeouts, Views(flows));
      Record(t, train, txEnd, timeouts, [], pending);
    }

    /** Stalled at `t`: the rack is promised nothing before `t` plus a latency, unless it has been already. */
    method OnStalled(t: nat)
      requires Valid() && now <= t <= pending
      modifies this
      ensures Valid() && now == t && pending == old(pending) && selfQueue == old(selfQueue) && count == old(count)
      ensures flows == old(flows) && timeouts == old(timeouts)
      ensures torQueue == old(torQueue) + Protocol.Promise(id, old(torTime), t, latencyNs)
      ensures torTime == if old(torTime) < t then t else old(torTime)
    {
      hide TimersInv, LinkClock, Separate, Views;
      PromiseKeepsClock(torQueue, torTime, t, latencyNs, id);
      Wait(now, t, pending, timeouts, Views(flows));
      if torTime < t {
        torQueue, torTime := torQueue + [Event(t + latencyNs, id, Null)], t;
      }
      now := t;
    }

    /** Close at `t` goes to the rack and to the server's own queue. */
    method OnClose(t: nat)
      modifies this`selfQueue, this`torQueue
      ensures selfQueue == old(selfQueue) + [Event(t + latencyNs, id, Close)]
      ensures torQueue == old(torQueue) + [Event(t + latencyNs, id, Close)]
    {
      selfQueue := selfQueue + [Event(t + latencyNs, id, Close)];
      torQueue := torQueue + [Event(t + latencyNs, id, Close)];
    }

    /**
     What the merger may hand over: nothing earlier than before or past the pending Timeout, acks only for packets
     sent.
     */
    ghost predicate Deliverable(e: ModelEvent)
      reads this, flows
    {
      && now <= e.time <= pending && !e.eventType.Null?
      && (e.eventType.ModelEvent? && e.eventType.model.Timeout? ==> e.time == pending)
      && (e.eventType.ModelEvent? && e.eventType.model.PacketArrival? && e.eventType.model.packet.isAck ==>
            var p := e.eventType.model.packet; p.flowId < |flows| && p.seqNum < |flows[p.flowId].acked|)
    }

    /** One turn of the event loop; `None` means the next event is taken. */
    method React(event: ModelEvent) returns (r: Option<ActorState>)
      requires Valid() && (!event.eventType.Close? ==> Deliverable(event))
      modifies this, flows
      ensures Reacted(Configured(), event, old(Now()), Now())
      ensures r == match event.eventType
                   case Close => Some(Done(count))
                   case Stalled => Some(Continue(event.time))
                   case _ => None
      ensures !event.eventType.Close? ==> Valid() && now == event.time
      ensures event.eventType.ModelEvent? ==>
        old(torQueue) <= torQueue && Protocol.Burst(torQueue[|old(torQueue)|..], old(torTime), torTime, latencyNs)
      ensures event.eventType.ModelEvent? && event.eventType.model.Timeout? ==>
        && event.time <= pending
        && (event.time < pending || DueBy(event.time, timeouts) < DueBy(event.time, old(timeouts)))
      ensures |old(flows)| <= |flows| && flows[..|old(flows)|] == old(flows)
      ensures forall i :: |old(flows)| <= i < |flows| ==> fresh(flows[i])
      ensures Grown(old(Views(flows)), Views(flows))
    {
      hide TimersInv, LinkClock, Separate, Views, SendsFor, TimeoutOutcome, Train, TxEnd, Protocol.Burst, DueBy,
           Grown, AfterAck, AfterStart;
      r := None;
      ghost var cfg, before := Configured(), Now();
      ghost var views := Views(flows);
      GrownBy(views, []);
      match event.eventType {
        case Close =>
          OnClose(event.time);
          assert Reacted(cfg, event, before, Now());
          r := Some(Done(count));
        case Stalled =>
          OnStalled(event.time);
          assert Reacted(cfg, event, before, Now());
          r := Some(Continue(event.time));
        case Null =>
        case ModelEvent(m) =>
          match m {
            case Timeout =>
              ghost var served := OnTimeout(event.time);
              assert TimedOut(cfg, event.time, before, Now(), served);
            case Flow(src, dst, sizeByte) =>
              OnFlow(event.time, src, dst, sizeByte);
              ghost var f := AfterStart(FreshFlow(|views|, src, dst, sizeByte), event.time);
              GrownBy(views, [f]);
              assert Launched(cfg, event.time, f, Consecutive(0, f.nextSeq), before, Now());
            case PacketArrival(packet) =>
              if packet.isAck {
                OnAck(event.time, packet);
                GrownByAck(views, packet.flowId, packet.seqNum, event.time);
                ghost var f := views[packet.flowId];
                assert Launched(cfg, event.time, f, AckSends(f, packet.seqNum), before, Now());
              } else {
                OnData(event.time, packet);
                assert Reacted(cfg, event, before, Now());
              }
          }
      }
    }
  }

  lemma SeparateSnoc(flows: seq<Flow>, flow: Flow)
    requires Separate(flows) && flow !in flows && flow.Valid() && flow.flowId == |flows|
    ensures Separate(flows + [flow]) && Views(flows + [flow]) == Views(flows) + [flow.View()]
  {
  }

  ghost predicate AckPossible(views: seq<FlowState>, packet: Packet, t: nat) {
    && packet.flowId < |views| && packet.seqNum < |views[packet.flowId].acked| && views[packet.flowId].start <= t
    && (!views[packet.flowId].acked[packet.seqNum] ==> views[packet.flowId].outstanding > 0)
  }

  lemma ServedDue(now: nat, pending: nat, heap: multiset<Timer>, views: seq<FlowState>, x: Timer, sent: seq<nat>)
    requires TimersInv(now, pending, heap, views) && x in heap && x.time == pending
    ensures DueBy(pending, heap - multiset{x} + multiset(TimersFor(pending, x.flowId, sent))) < DueBy(pending, heap)
  {
    var ts := TimersFor(pending, x.flowId, sent);
    var heap' := heap - multiset{x} + multiset(ts);
    assert heap[x] == 1;
    forall y | y in DueBy(pending, heap')
      ensures y in DueBy(pending, heap) && y != x
    {
      assert y !in ts;
    }
    assert x in DueBy(pending, heap);
  }

  /** The timers after a Timeout, given what was served and what was asked for. */
  lemma AfterTimeout(now: nat, pending: nat, heap: multiset<Timer>, views: seq<FlowState>, packets: seq<Packet>,
                     requests: seq<TimeoutRequest>, rest: multiset<Timer>, served: Option<Timer>, next: nat)
    requires TimersInv(now, pending, heap, views) && NextPending(pending, rest, next)
    requires Served(pending, heap, views, packets, requests, rest, served)
    ensures TimersInv(pending, next, rest + multiset(TimersOf(pending, requests)), views) && pending <= next
    ensures NextPending(pending, rest + multiset(TimersOf(pending, requests)), next)
    ensures pending < next || DueBy(pending, rest + multiset(TimersOf(pending, requests))) < DueBy(pending, heap)
  {
    if served.Some? {
      var x := served.value;
      TimeoutServes(now, pending, heap, views, x, next);
      assert TimersOf(pending, requests) == TimersFor(pending, x.flowId, TimeoutSends(views[x.flowId], x.seqNum));
      ServedDue(now, pending, heap, views, x, TimeoutSends(views[x.flowId], x.seqNum));
    } else {
      TimeoutIdle(now, pending, heap, views, next);
      assert rest + multiset(TimersOf(pending, requests)) == heap;
    }
  }

  lemma OutcomeOf(cfg: Config, now: nat, pending: nat, heap: multiset<Timer>, views: seq<FlowState>,
                  packets: seq<Packet>,
                  requests: seq<TimeoutRequest>, rest: multiset<Timer>, served: Option<Timer>, torTime: nat)
    requires cfg.bandwidth > 0 && TimersInv(now, pending, heap, views)
    requires Served(pending, heap, views, packets, requests, rest, served)
    ensures TimeoutOutcome(pending, cfg.id, heap, views, torTime, cfg.bandwidth, cfg.latency,
                           Train(cfg.id, packets, torTime, cfg.bandwidth, cfg.latency),
                           TxEnd(packets, torTime, cfg.bandwidth),
                           rest + multiset(TimersOf(pending, requests)), served)
  {
    hide TimersInv, Due;
    EmptyTrain(cfg.id, torTime, cfg.bandwidth, cfg.latency);
    if served.Some? {
      var x := served.value;
      assert TimersOf(pending, requests) == TimersFor(pending, x.flowId, TimeoutSends(views[x.flowId], x.seqNum));
    } else {
      assert rest + multiset(TimersOf(pending, requests)) == heap;
    }
  }
}
