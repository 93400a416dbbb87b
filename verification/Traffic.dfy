/** Packets in a whole network: what reaches a server is addressed to it, and acknowledges only what it has sent. */
module Traffic {
  import opened Events
  import opened NetworkEvents
  import opened Graphs
  import opened Tcp
  import opened Timers
  import opened Forwarding
  import Server
  import ServerLoop
  import Router

  /** A packet on its way to node `at`. */
  datatype Flight = Flight(at: nat, packet: Packet)

  /** `servers[h - 1]` are the flows of host `h`. */
  datatype State = State(servers: seq<seq<FlowState>>, flights: set<Flight>)

  /** A network over which the switches forward. */
  ghost predicate Switched(net: Network, hosts: nat, switches: seq<Switch>) {
    && Fabric(net, hosts)
    && hosts <= |net| == hosts + |switches|
    && forall i :: 0 <= i < |switches| ==> Built(net, hosts + 1 + i, switches[i])
  }

  // Steps. Flights may disappear at any time, and arrive in any order.

  /** A server is handed flows to start as its own, and packets that have arrived at it. */
  ghost predicate Handed(hosts: nat, s: State, h: nat, e: EventType<NetworkEvent>) {
    e.ModelEvent? ==>
      match e.model
      case Flow(src, dst, _) => src == h && 1 <= dst <= hosts
      case PacketArrival(p) => Flight(h, p) in s.flights
      case Timeout => true
  }

  /** One of the events added to `q` in `q'` carries `p`. */
  ghost predicate Carries(q: seq<ModelEvent>, q': seq<ModelEvent>, p: Packet) {
    exists k :: |q| <= k < |q'| && q'[k].eventType == ModelEvent(PacketArrival(p))
  }

  ghost predicate ServerStep(net: Network, hosts: nat, s: State, s': State, h: nat, e: ModelEvent,
                             x: Server.Snapshot, x': Server.Snapshot,
                             cfg: Server.Config) {
    && 1 <= h <= hosts == |s.servers| && cfg.id == h && cfg.bandwidth > 0
    && h in net && net[h] != []
    && x.flows == s.servers[h - 1] && Handed(hosts, s, h, e.eventType) && Server.Reacted(cfg, e, x, x')
    && s'.servers == s.servers[h - 1 := x'.flows]
    && forall f :: f in s'.flights ==>
         f in s.flights || (f.at == net[h][0] && Carries(x.torQueue, x'.torQueue, f.packet))
  }

  ghost predicate SwitchStep(hosts: nat, switches: seq<Switch>, s: State, s': State, i: nat, t: nat, p: Packet, d: nat,
                             o: Router.Out, o': Router.Out, cfg: Router.Config) {
    && i < |switches| && cfg.bandwidth > 0 && cfg.route == switches[i].route
    && Flight(hosts + 1 + i, p) in s.flights
    && p.dst < |cfg.route| && d in cfg.route[p.dst] && d < |switches[i].ixToId| && Router.Relayed(cfg, t, p, d, o, o')
    && s'.servers == s.servers
    && forall f :: f in s'.flights ==>
         f in s.flights || (f.at == switches[i].ixToId[d] && Carries(o.queues[d], o'.queues[d], f.packet))
  }

  ghost predicate Step(net: Network, hosts: nat, switches: seq<Switch>, s: State, s': State) {
    || (exists h, e, x, x', cfg :: ServerStep(net, hosts, s, s', h, e, x, x', cfg))
    || (exists i, t, p, d, o, o', cfg :: SwitchStep(hosts, switches, s, s', i, t, p, d, o, o', cfg))
  }

  ghost predicate Run(net: Network, hosts: nat, switches: seq<Switch>, ss: seq<State>) {
    && ss != [] && ss[0] == State(seq(hosts, _ => []), {})
    && forall k :: 0 <= k < |ss| - 1 ==> Step(net, hosts, switches, ss[k], ss[k + 1])
  }

  // Invariant

  ghost predicate OwnFlow(h: nat, hosts: nat, i: nat, f: FlowState) {
    FlowInv(f) && f.flowId == i && f.src == h && 1 <= f.dst <= hosts
  }

  ghost predicate OwnFlows(h: nat, hosts: nat, flows: seq<FlowState>) {
    forall i :: 0 <= i < |flows| ==> OwnFlow(h, hosts, i, flows[i])
  }

  /** `p` belongs to one of the flows, which has sent its sequence number. */
  ghost predicate Known(p: Packet, flows: seq<FlowState>) {
    p.flowId < |flows| && p.seqNum < |flows[p.flowId].acked|
  }

  /** Data is known to its source, an acknowledgement to its destination. */
  ghost predicate Genuine(hosts: nat, servers: seq<seq<FlowState>>, p: Packet) {
    && |servers| == hosts && 1 <= p.src <= hosts && 1 <= p.dst <= hosts
    && Known(p, servers[(if p.isAck then p.dst else p.src) - 1])
  }

  ghost predicate OnItsWay(net: Network, hosts: nat, servers: seq<seq<FlowState>>, f: Flight) {
    Genuine(hosts, servers, f.packet) && (f.at == f.packet.dst || (f.at in net && f.at > hosts))
  }

  ghost predicate Inv(net: Network, hosts: nat, s: State) {
    && |s.servers| == hosts
    && (forall i :: 0 <= i < hosts ==> OwnFlows(i + 1, hosts, s.servers[i]))
    && (forall f :: f in s.flights ==> OnItsWay(net, hosts, s.servers, f))
  }

  // What a server sends

  ghost predicate SentBy(h: nat, hosts: nat, e: NetworkEvent, flows: seq<FlowState>, p: Packet) {
    if p.isAck then e.PacketArrival? && !e.packet.isAck
                   && p == e.packet.(src := h, dst := e.packet.src, isAck := true, sizeByte := 10)
    else p.src == h && 1 <= p.dst <= hosts && Known(p, flows)
  }

  /** A packet of a flow's that carries a sequence number it has sent. */
  lemma FlowPacket(h: nat, hosts: nat, flows: seq<FlowState>, f: FlowState, i: nat, sent: seq<nat>, k: nat)
    requires i < |flows| && OwnFlow(h, hosts, i, flows[i]) && k < |sent| && sent[k] < |flows[i].acked|
    requires f.flowId == i && f.src == h && f.dst == flows[i].dst
    ensures var p := PacketsOf(f, sent)[k]; !p.isAck && p.src == h && 1 <= p.dst <= hosts && Known(p, flows)
  {
  }

  lemma {:induction false} TrainCarries(id: nat, packets: seq<Packet>, torTime: nat, bandwidth: nat, latency: nat,
                                        k: nat)
    requires bandwidth > 0 && k < |packets|
    ensures Server.Train(id, packets, torTime, bandwidth, latency)[k].eventType == ModelEvent(PacketArrival(packets[k]))
    decreases |packets|
  {
    if k < |packets| - 1 {
      TrainCarries(id, packets[..|packets| - 1], torTime, bandwidth, latency, k);
    }
  }

  lemma ReactionKeepsOwn(cfg: Server.Config, hosts: nat, e: ModelEvent, x: Server.Snapshot, x': Server.Snapshot)
    requires cfg.bandwidth > 0 && Server.Reacted(cfg, e, x, x') && OwnFlows(cfg.id, hosts, x.flows)
    requires e.eventType.ModelEvent? && e.eventType.model.Flow? ==>
               e.eventType.model.src == cfg.id && 1 <= e.eventType.model.dst <= hosts
    ensures OwnFlows(cfg.id, hosts, x'.flows) && Server.Grown(x.flows, x'.flows)
  {
    hide Server.SendsFor, Server.TimeoutOutcome, Server.Train, Server.TxEnd, NextPending, FlowInv;
    if e.eventType.ModelEvent? {
      match e.eventType.model {
        case Timeout =>
        case Flow(src, dst, sizeByte) =>
          StartKeepsInv(FreshFlow(|x.flows|, src, dst, sizeByte), e.time);
        case PacketArrival(p) =>
          if p.isAck {
            assert OwnFlow(cfg.id, hosts, p.flowId, x.flows[p.flowId]);
            AckKeepsInv(x.flows[p.flowId], p.seqNum, e.time);
          }
      }
    }
  }

  /** The packets a reaction sends, flow and sequence numbers. */
  lemma TailCarries(q: seq<ModelEvent>, q': seq<ModelEvent>, p: Packet, id: nat, packets: seq<Packet>, torTime: nat,
                    bandwidth: nat, latency: nat)
      returns (k: nat)
    requires q <= q' && Carries(q, q', p) && bandwidth > 0
    requires q'[|q|..] == Server.Train(id, packets, torTime, bandwidth, latency)
    ensures k < |packets| && packets[k] == p
  {
    var j :| |q| <= j < |q'| && q'[j].eventType == ModelEvent(PacketArrival(p));
    k := j - |q|;
    assert q'[|q|..][k] == q'[j];
    TrainCarries(id, packets, torTime, bandwidth, latency, k);
  }

  lemma TimeoutSent(cfg: Server.Config, hosts: nat, e: ModelEvent, x: Server.Snapshot, x': Server.Snapshot, p: Packet)
    requires cfg.bandwidth > 0 && Server.Reacted(cfg, e, x, x') && OwnFlows(cfg.id, hosts, x.flows)
    requires e.eventType.ModelEvent? && e.eventType.model.Timeout? && Carries(x.torQueue, x'.torQueue, p)
    ensures SentBy(cfg.id, hosts, e.eventType.model, x'.flows, p)
  {
    hide Server.Train, Server.TxEnd, NextPending, FlowInv, Carries;
    var served :| Server.TimedOut(cfg, e.time, x, x', served);
    NothingCarried(x.torQueue, x'.torQueue, p);
    var t := served.value;
    var f, sent := x.flows[t.flowId], TimeoutSends(x.flows[t.flowId], t.seqNum);
    var k := TailCarries(x.torQueue, x'.torQueue, p, cfg.id, PacketsOf(f, sent), x.torTime, cfg.bandwidth, cfg.latency);
    assert OwnFlow(cfg.id, hosts, t.flowId, f);
    FlowPacket(cfg.id, hosts, x'.flows, f, t.flowId, sent, k);
  }

  lemma NothingCarried(q: seq<ModelEvent>, q': seq<ModelEvent>, p: Packet)
    ensures q <= q' && q'[|q|..] == [] ==> !Carries(q, q', p)
  {
  }

  lemma FlowSent(cfg: Server.Config, hosts: nat, e: ModelEvent, x: Server.Snapshot, x': Server.Snapshot, p: Packet)
    requires cfg.bandwidth > 0 && Server.Reacted(cfg, e, x, x') && OwnFlows(cfg.id, hosts, x'.flows)
    requires e.eventType.ModelEvent? && e.eventType.model.Flow? && Carries(x.torQueue, x'.torQueue, p)
    ensures SentBy(cfg.id, hosts, e.eventType.model, x'.flows, p)
  {
    hide Server.Train, Server.TxEnd, FlowInv, Carries, AfterStart;
    var i := |x.flows|;
    var f := x'.flows[i];
    var sent := Consecutive(0, f.nextSeq);
    assert OwnFlow(cfg.id, hosts, i, f);
    FirstBurst(f, e.time, e.eventType.model);
    var k := TailCarries(x.torQueue, x'.torQueue, p, cfg.id, PacketsOf(f, sent), x.torTime, cfg.bandwidth, cfg.latency);
    FlowPacket(cfg.id, hosts, x'.flows, f, i, sent, k);
  }

  lemma FirstBurst(f: FlowState, t: nat, e: NetworkEvent)
    requires FlowInv(f)
    ensures |f.acked| == f.nextSeq && forall k :: 0 <= k < f.nextSeq ==> Consecutive(0, f.nextSeq)[k] < |f.acked|
  {
  }

  lemma AckSent(cfg: Server.Config, hosts: nat, e: ModelEvent, x: Server.Snapshot, x': Server.Snapshot, p: Packet)
    requires cfg.bandwidth > 0 && Server.Reacted(cfg, e, x, x') && OwnFlows(cfg.id, hosts, x.flows)
    requires OwnFlows(cfg.id, hosts, x'.flows)
    requires e.eventType.ModelEvent? && e.eventType.model.PacketArrival? && e.eventType.model.packet.isAck
    requires Carries(x.torQueue, x'.torQueue, p)
    ensures SentBy(cfg.id, hosts, e.eventType.model, x'.flows, p)
  {
    hide Server.Train, Server.TxEnd, Carries;
    var ack := e.eventType.model.packet;
    var f := x.flows[ack.flowId];
    var sent := AckSends(f, ack.seqNum);
    assert OwnFlow(cfg.id, hosts, ack.flowId, f) && OwnFlow(cfg.id, hosts, ack.flowId, x'.flows[ack.flowId]);
    var k := TailCarries(x.torQueue, x'.torQueue, p, cfg.id, PacketsOf(f, sent), x.torTime, cfg.bandwidth, cfg.latency);
    hide FlowInv;
    FlowPacket(cfg.id, hosts, x'.flows, f, ack.flowId, sent, k);
  }

  lemma DataAnswered(cfg: Server.Config, hosts: nat, e: ModelEvent, x: Server.Snapshot, x': Server.Snapshot, p: Packet)
    requires cfg.bandwidth > 0 && Server.Reacted(cfg, e, x, x')
    requires e.eventType.ModelEvent? && e.eventType.model.PacketArrival? && !e.eventType.model.packet.isAck
    requires Carries(x.torQueue, x'.torQueue, p)
    ensures SentBy(cfg.id, hosts, e.eventType.model, x'.flows, p)
  {
    hide Server.Train, Server.TxEnd, Carries;
    var data := e.eventType.model.packet;
    var ack := data.(src := cfg.id, dst := data.src, isAck := true, sizeByte := 10);
    var k := TailCarries(x.torQueue, x'.torQueue, p, cfg.id, [ack], x.torTime, cfg.bandwidth, cfg.latency);
  }

  /** Stalls and Close send no packets. */
  lemma OnlyEventsSend(cfg: Server.Config, e: ModelEvent, x: Server.Snapshot, x': Server.Snapshot, p: Packet)
    requires cfg.bandwidth > 0 && Server.Reacted(cfg, e, x, x') && Carries(x.torQueue, x'.torQueue, p)
    ensures e.eventType.ModelEvent?
  {
  }

  /** Whatever a server sends is data of its own flows, sent before, or the answer to the data it received. */
  lemma ReactionSent(cfg: Server.Config, hosts: nat, e: ModelEvent, x: Server.Snapshot, x': Server.Snapshot, p: Packet)
    requires cfg.bandwidth > 0 && Server.Reacted(cfg, e, x, x') && OwnFlows(cfg.id, hosts, x.flows)
    requires OwnFlows(cfg.id, hosts, x'.flows)
    requires Carries(x.torQueue, x'.torQueue, p)
    ensures e.eventType.ModelEvent? && SentBy(cfg.id, hosts, e.eventType.model, x'.flows, p)
  {
    OnlyEventsSend(cfg, e, x, x', p);
    hide Server.Reacted, Carries, SentBy, OwnFlows;
    match e.eventType.model {
      case Timeout => TimeoutSent(cfg, hosts, e, x, x', p);
      case Flow(_, _, _) => FlowSent(cfg, hosts, e, x, x', p);
      case PacketArrival(packet) =>
        if packet.isAck {
          AckSent(cfg, hosts, e, x, x', p);
        } else {
          DataAnswered(cfg, hosts, e, x, x', p);
        }
    }
  }

  // The steps keep the invariant

  lemma StillOnItsWay(net: Network, hosts: nat, servers: seq<seq<FlowState>>, i: nat, flows: seq<FlowState>, f: Flight)
    requires i < |servers| && Server.Grown(servers[i], flows) && OnItsWay(net, hosts, servers, f)
    ensures OnItsWay(net, hosts, servers[i := flows], f)
  {
  }

  lemma SentIsGenuine(hosts: nat, servers: seq<seq<FlowState>>, h: nat, e: NetworkEvent, p: Packet)
    requires 1 <= h <= hosts == |servers| && SentBy(h, hosts, e, servers[h - 1], p)
    requires e.PacketArrival? ==> Genuine(hosts, servers, e.packet)
    ensures Genuine(hosts, servers, p)
  {
  }

  lemma InvParts(net: Network, hosts: nat, s: State)
    requires Inv(net, hosts, s)
    ensures |s.servers| == hosts && forall i :: 0 <= i < hosts ==> OwnFlows(i + 1, hosts, s.servers[i])
    ensures forall f :: f in s.flights ==> OnItsWay(net, hosts, s.servers, f)
  {
  }

  /** A flight that a server's reaction sends, or leaves alone. */
  lemma ServerFlight(net: Network, hosts: nat, s: State, s': State, h: nat, e: ModelEvent, x: Server.Snapshot,
                     x': Server.Snapshot,
                     cfg: Server.Config, f: Flight)
    requires ServerStep(net, hosts, s, s', h, e, x, x', cfg) && f in s'.flights
    requires net[h][0] in net && net[h][0] > hosts
    requires forall g :: g in s.flights ==> OnItsWay(net, hosts, s.servers, g)
    requires OwnFlows(h, hosts, x.flows) && OwnFlows(h, hosts, x'.flows) && Server.Grown(x.flows, x'.flows)
    ensures OnItsWay(net, hosts, s'.servers, f)
  {
    hide Server.Reacted, Carries, OwnFlows, Genuine, Server.Grown, SentBy;
    if f in s.flights {
      StillOnItsWay(net, hosts, s.servers, h - 1, x'.flows, f);
    } else {
      ReactionSent(cfg, hosts, e, x, x', f.packet);
      if e.eventType.model.PacketArrival? {
        StillOnItsWay(net, hosts, s.servers, h - 1, x'.flows, Flight(h, e.eventType.model.packet));
      }
      SentIsGenuine(hosts, s'.servers, h, e.eventType.model, f.packet);
    }
  }

  lemma ServerStepInv(net: Network, hosts: nat, switches: seq<Switch>, s: State, s': State, h: nat, e: ModelEvent,
                      x: Server.Snapshot, x': Server.Snapshot, cfg: Server.Config)
    requires Switched(net, hosts, switches) && Inv(net, hosts, s) && ServerStep(net, hosts, s, s', h, e, x, x', cfg)
    ensures Inv(net, hosts, s')
  {
    InvParts(net, hosts, s);
    assert OwnFlows((h - 1) + 1, hosts, s.servers[h - 1]);
    RackIsSwitch(net, hosts, switches, h);
    hide Inv, Server.Reacted, Carries, OwnFlows, OnItsWay, Server.Grown, Switched;
    ReactionKeepsOwn(cfg, hosts, e, x, x');
    forall f | f in s'.flights
      ensures OnItsWay(net, hosts, s'.servers, f)
    {
      ServerFlight(net, hosts, s, s', h, e, x, x', cfg, f);
    }
    InvFrom(net, hosts, s, s', h, x'.flows);
  }

  lemma InvFrom(net: Network, hosts: nat, s: State, s': State, h: nat, flows: seq<FlowState>)
    requires Inv(net, hosts, s) && 1 <= h <= hosts && s'.servers == s.servers[h - 1 := flows]
    requires OwnFlows(h, hosts, flows)
    requires forall f :: f in s'.flights ==> OnItsWay(net, hosts, s'.servers, f)
    ensures Inv(net, hosts, s')
  {
    hide OwnFlows, OnItsWay;
  }

  lemma RackIsSwitch(net: Network, hosts: nat, switches: seq<Switch>, h: nat)
    requires Switched(net, hosts, switches) && h in net && h <= hosts
    ensures net[h] != [] && net[h][0] in net && net[h][0] > hosts
  {
    assert net[h][0] in net[h];
  }

  /** A flight that a switch sends on, or leaves alone. */
  lemma SwitchFlight(net: Network, hosts: nat, switches: seq<Switch>, s: State, s': State, i: nat, t: nat, p: Packet,
                     d: nat,
                     o: Router.Out, o': Router.Out, cfg: Router.Config, f: Flight)
    requires SwitchStep(hosts, switches, s, s', i, t, p, d, o, o', cfg) && f in s'.flights
    requires switches[i].ixToId[d] == p.dst || (switches[i].ixToId[d] in net && switches[i].ixToId[d] > hosts)
    requires forall g :: g in s.flights ==> OnItsWay(net, hosts, s.servers, g)
    ensures OnItsWay(net, hosts, s.servers, f)
  {
    hide Genuine, Carries, Router.Relayed;
    if f !in s.flights {
      SameRelayed(cfg, t, p, d, o, o', f.packet);
      assert OnItsWay(net, hosts, s.servers, Flight(hosts + 1 + i, p));
    }
  }

  lemma SwitchStepInv(net: Network, hosts: nat, switches: seq<Switch>, s: State, s': State, i: nat, t: nat,
                      p: Packet, d: nat,
                      o: Router.Out, o': Router.Out, cfg: Router.Config)
    requires Switched(net, hosts, switches) && Inv(net, hosts, s)
    requires SwitchStep(hosts, switches, s, s', i, t, p, d, o, o', cfg)
    ensures Inv(net, hosts, s')
  {
    hide *;
    InvParts(net, hosts, s);
    NextHop(net, hosts, switches, s, s', i, t, p, d, o, o', cfg);
    forall f | f in s'.flights
      ensures OnItsWay(net, hosts, s.servers, f)
    {
      SwitchFlight(net, hosts, switches, s, s', i, t, p, d, o, o', cfg, f);
    }
    SameServersInv(net, hosts, s, s');
  }

  lemma NextHop(net: Network, hosts: nat, switches: seq<Switch>, s: State, s': State, i: nat, t: nat, p: Packet, d: nat,
                o: Router.Out, o': Router.Out, cfg: Router.Config)
    requires Switched(net, hosts, switches) && Inv(net, hosts, s)
    requires SwitchStep(hosts, switches, s, s', i, t, p, d, o, o', cfg)
    ensures i < |switches| && d < |switches[i].ixToId| && s'.servers == s.servers
    ensures switches[i].ixToId[d] == p.dst || (switches[i].ixToId[d] in net && switches[i].ixToId[d] > hosts)
  {
    hide *;
    SwitchStepFacts(hosts, switches, s, s', i, t, p, d, o, o', cfg);
    SwitchAt(net, hosts, switches, i);
    FlightHosts(net, hosts, s, Flight(hosts + 1 + i, p));
    NextIsOnTheWay(net, hosts, hosts + 1 + i, switches[i], p.dst, d);
  }

  lemma SwitchStepFacts(hosts: nat, switches: seq<Switch>, s: State, s': State, i: nat, t: nat, p: Packet, d: nat,
                        o: Router.Out, o': Router.Out, cfg: Router.Config)
    requires SwitchStep(hosts, switches, s, s', i, t, p, d, o, o', cfg)
    ensures i < |switches| && Flight(hosts + 1 + i, p) in s.flights && s'.servers == s.servers
    ensures p.dst < |switches[i].route| && d in switches[i].route[p.dst] && d < |switches[i].ixToId|
  {
    hide Router.Relayed, Carries;
  }

  lemma FlightHosts(net: Network, hosts: nat, s: State, f: Flight)
    requires Inv(net, hosts, s) && f in s.flights
    ensures OnItsWay(net, hosts, s.servers, f) && 1 <= f.packet.dst <= hosts
  {
    hide OwnFlows, Known;
  }

  lemma SameServersInv(net: Network, hosts: nat, s: State, s': State)
    requires Inv(net, hosts, s) && s'.servers == s.servers
    requires forall f :: f in s'.flights ==> OnItsWay(net, hosts, s'.servers, f)
    ensures Inv(net, hosts, s')
  {
    hide OwnFlows, OnItsWay;
  }

  lemma SwitchAt(net: Network, hosts: nat, switches: seq<Switch>, i: nat)
    requires Switched(net, hosts, switches) && i < |switches|
    ensures Fabric(net, hosts) && Built(net, hosts + 1 + i, switches[i])
  {
  }

  lemma SameRelayed(cfg: Router.Config, t: nat, p: Packet, d: nat, o: Router.Out, o': Router.Out, p': Packet)
    requires cfg.bandwidth > 0 && Router.Relayed(cfg, t, p, d, o, o') && Carries(o.queues[d], o'.queues[d], p')
    ensures p' == p
  {
  }

  /** Where an installed index leads: to the destination, or to another switch. */
  lemma NextIsOnTheWay(net: Network, hosts: nat, r: nat, sw: Switch, dst: nat, d: nat)
    requires Fabric(net, hosts) && Built(net, r, sw) && 1 <= dst <= hosts < r && dst < |sw.route| && d in sw.route[dst]
    ensures d < |sw.ixToId| && (sw.ixToId[d] == dst || (sw.ixToId[d] in net && sw.ixToId[d] > hosts))
  {
    IndexLeadsToHop(net, hosts, r, sw, dst);
    assert Forwards(sw, dst, sw.ixToId[d]);
    assert Reachable(net, r, dst);
    var j: nat :| Walk(net, r, dst, j);
    var k := ShortestWalk(net, r, dst, j);
    ForwardStep(net, hosts, r, sw, dst, sw.ixToId[d], k);
  }

  lemma StepInv(net: Network, hosts: nat, switches: seq<Switch>, s: State, s': State)
    requires Switched(net, hosts, switches) && Inv(net, hosts, s) && Step(net, hosts, switches, s, s')
    ensures Inv(net, hosts, s')
  {
    hide Switched, Inv;
    if h, e, x, x', cfg :| ServerStep(net, hosts, s, s', h, e, x, x', cfg) {
      ServerStepInv(net, hosts, switches, s, s', h, e, x, x', cfg);
    } else {
      var i, t, p, d, o, o', cfg :| SwitchStep(hosts, switches, s, s', i, t, p, d, o, o', cfg);
      SwitchStepInv(net, hosts, switches, s, s', i, t, p, d, o, o', cfg);
    }
  }

  lemma {:induction false} RunInv(net: Network, hosts: nat, switches: seq<Switch>, ss: seq<State>, k: nat)
    requires Switched(net, hosts, switches) && Run(net, hosts, switches, ss) && k < |ss|
    ensures Inv(net, hosts, ss[k])
    decreases k
  {
    hide Step, Switched;
    if k > 0 {
      RunInv(net, hosts, switches, ss, k - 1);
      assert Step(net, hosts, switches, ss[k - 1], ss[k]);
      StepInv(net, hosts, switches, ss[k - 1], ss[k]);
    }
  }

  /**
   In every run, whatever reaches a server is addressed to it, and an acknowledgement that reaches it is for a
   packet it has sent: it may be handed to the server's event loop.
   */
  lemma ArrivalsFit(net: Network, hosts: nat, switches: seq<Switch>, ss: seq<State>, k: nat, f: Flight)
    requires Switched(net, hosts, switches) && Run(net, hosts, switches, ss) && k < |ss| && f in ss[k].flights
    requires 1 <= f.at <= hosts
    ensures |ss[k].servers| == hosts && f.packet.dst == f.at
    ensures ServerLoop.Fits(ModelEvent(PacketArrival(f.packet)), ss[k].servers[f.at - 1])
  {
    RunInv(net, hosts, switches, ss, k);
    hide Switched, Run;
    HostFlightFits(net, hosts, ss[k], f);
  }

  lemma HostFlightFits(net: Network, hosts: nat, s: State, f: Flight)
    requires Inv(net, hosts, s) && f in s.flights && 1 <= f.at <= hosts
    ensures |s.servers| == hosts && f.packet.dst == f.at
    ensures ServerLoop.Fits(ModelEvent(PacketArrival(f.packet)), s.servers[f.at - 1])
  {
    hide OwnFlows;
    FlightHosts(net, hosts, s, f);
  }
}
