/** What the event loops send, packet by packet: all of it is genuine and on its way to its destination. */
module Deliveries {
  import opened Events
  import opened NetworkEvents
  import opened Graphs
  import opened Tcp
  import opened Timers
  import opened Forwarding
  import opened EventLoops
  import opened Traffic
  import Router
  import Server
  import ServerLoop
  import MergerSpec

  /** The network, its hosts, and the flows of each. */
  datatype Field = Field(net: Network, hosts: nat, servers: seq<seq<FlowState>>)

  /** An event that may be on a link to node `at`: any packet is genuine and on its way. */
  ghost predicate Carried(f: Field, at: nat, e: EventType<NetworkEvent>) {
    && !e.Stalled?
    && (e.ModelEvent? ==> e.model.PacketArrival? && OnItsWay(f.net, f.hosts, f.servers, Flight(at, e.model.packet)))
  }

  ghost predicate AllCarried(f: Field, at: nat, q: seq<ModelEvent>) {
    forall k :: 0 <= k < |q| ==> Carried(f, at, q[k].eventType)
  }

  lemma CarriedOn(f: Field, at: nat, q: seq<ModelEvent>, sent: seq<ModelEvent>)
    requires AllCarried(f, at, q) && AllCarried(f, at, sent)
    ensures AllCarried(f, at, q + sent)
  {
  }

  // Routers

  /** What a router may find in its merger. */
  ghost predicate ForRouter(f: Field, e: EventType<NetworkEvent>) {
    e.ModelEvent? ==> e.model.PacketArrival? && Genuine(f.hosts, f.servers, e.model.packet)
  }

  ghost function ForRouters(f: Field): EventType<NetworkEvent> -> bool {
    (e: EventType<NetworkEvent>) => ForRouter(f, e)
  }

  /** Switch `sw`, node `r`, is the router built as `cfg`. */
  ghost predicate Switches(f: Field, r: nat, sw: Switch, cfg: Router.Config) {
    Fabric(f.net, f.hosts) && Built(f.net, r, sw) && f.hosts < r && cfg.route == sw.route && cfg.bandwidth > 0
  }

  /** Everything a router has sent on each of its links. */
  ghost predicate LinksCarry(f: Field, sw: Switch, o: Router.Out) {
    |o.queues| == |sw.ixToId| && forall d :: 0 <= d < |o.queues| ==> AllCarried(f, sw.ixToId[d], o.queues[d])
  }

  lemma RelayCarries(f: Field, r: nat, sw: Switch, cfg: Router.Config, t: nat, packet: Packet, d: nat, o: Router.Out,
                     o': Router.Out)
    requires Switches(f, r, sw, cfg) && Genuine(f.hosts, f.servers, packet) && LinksCarry(f, sw, o)
    requires packet.dst < |cfg.route| && d in cfg.route[packet.dst] && Router.Relayed(cfg, t, packet, d, o, o')
    ensures LinksCarry(f, sw, o')
  {
    PacketCarried(f, r, sw, cfg, packet, d);
    hide Switches, Carried, Genuine;
    forall c | 0 <= c < |o'.queues|
      ensures AllCarried(f, sw.ixToId[c], o'.queues[c])
    {
      assert AllCarried(f, sw.ixToId[c], o.queues[c]);
    }
  }

  lemma PacketCarried(f: Field, r: nat, sw: Switch, cfg: Router.Config, packet: Packet, d: nat)
    requires Switches(f, r, sw, cfg) && Genuine(f.hosts, f.servers, packet)
    requires packet.dst < |cfg.route| && d in cfg.route[packet.dst]
    ensures d < |sw.ixToId| && Carried(f, sw.ixToId[d], ModelEvent(PacketArrival(packet)))
  {
    assert 1 <= packet.dst <= f.hosts;
    hide Fabric, Built, Known;
    NextIsOnTheWay(f.net, f.hosts, r, sw, packet.dst, d);
  }

  lemma AnswerCarries(f: Field, r: nat, sw: Switch, cfg: Router.Config, e: ModelEvent, o: Router.Out, o': Router.Out)
    requires Switches(f, r, sw, cfg) && ForRouter(f, e.eventType) && LinksCarry(f, sw, o)
    requires Router.Answered(cfg, e, o, o')
    ensures LinksCarry(f, sw, o')
  {
    hide Fabric, Built, Genuine;
    if e.eventType.ModelEvent? {
      var packet := e.eventType.model.packet;
      var d :| d in cfg.route[packet.dst] && Router.Relayed(cfg, e.time, packet, d, o, o');
      RelayCarries(f, r, sw, cfg, e.time, packet, d, o, o');
    } else {
      forall c | 0 <= c < |o'.queues|
        ensures AllCarried(f, sw.ixToId[c], o'.queues[c])
      {
        assert AllCarried(f, sw.ixToId[c], o.queues[c]);
      }
    }
  }

  /** An event that a turn's call returns was waiting when it began. */
  lemma ChosenWaited<S>(turn: Turn<S>, ok: EventType<NetworkEvent> -> bool)
    requires Chose(turn) && turn.call != [] && MergerSpec.AllWaiting(turn.call[0], ok)
    ensures MergerSpec.AllWaiting(turn.call[|turn.call| - 1], ok)
    ensures Visible(turn.event) ==> ok(turn.event.eventType)
  {
    MergerSpec.CallKeeps(turn.call, |turn.call| - 1, ok);
  }

  /** Over all the turns of a call a router sends only what is on its way. */
  lemma {:induction false} RouterCarries(f: Field, r: nat, sw: Switch, cfg: Router.Config, turns: seq<Turn<Router.Out>>,
                                         m: MergerSpec.MState<NetworkEvent>, m': MergerSpec.MState<NetworkEvent>,
                                         o: Router.Out, o': Router.Out)
    requires Switches(f, r, sw, cfg) && LinksCarry(f, sw, o) && MergerSpec.AllWaiting(m, ForRouters(f))
    requires Turns(Router.Answers(cfg), turns, m, m', o, o')
    ensures LinksCarry(f, sw, o') && MergerSpec.AllWaiting(m', ForRouters(f))
    decreases |turns|
  {
    hide Switches, LinksCarry, MergerSpec.AllWaiting, Chose, ForRouter;
    if turns != [] {
      var last := turns[|turns| - 1];
      RouterCarries(f, r, sw, cfg, turns[..|turns| - 1], m, last.call[0], o, last.before);
      ChosenWaited(last, ForRouters(f));
      NoEventNoPacket(f, last.event);
      hide Router.Answered;
      AnswerCarries(f, r, sw, cfg, last.event, last.before, last.after);
    }
  }

  lemma NoEventNoPacket(f: Field, e: ModelEvent)
    ensures !Visible(e) ==> ForRouter(f, e.eventType)
  {
  }

  // Servers

  /** What server `h` may find in its merger. */
  ghost predicate ForServer(f: Field, h: nat, e: EventType<NetworkEvent>) {
    e.ModelEvent? ==>
      match e.model
      case Timeout => true
      case Flow(src, dst, _) => src == h && 1 <= dst <= f.hosts
      case PacketArrival(p) => p.dst == h && Genuine(f.hosts, f.servers, p)
  }

  ghost function ForServers(f: Field, h: nat): EventType<NetworkEvent> -> bool {
    (e: EventType<NetworkEvent>) => ForServer(f, h, e)
  }

  /** The field after server `h` has come to have `flows`. */
  ghost function Now(f: Field, h: nat, flows: seq<FlowState>): Field
    requires 1 <= h <= |f.servers|
  {
    f.(servers := f.servers[h - 1 := flows])
  }

  /** The same network, each host with all the flows it had, and possibly more sent. */
  ghost predicate Grows(f: Field, f': Field) {
    && f'.net == f.net && f'.hosts == f.hosts && |f'.servers| == |f.servers|
    && forall h :: 0 <= h < |f.servers| ==> Server.Grown(f.servers[h], f'.servers[h])
  }

  lemma GenuineStill(f: Field, f': Field, p: Packet)
    requires Grows(f, f') && Genuine(f.hosts, f.servers, p)
    ensures Genuine(f'.hosts, f'.servers, p)
  {
    var h := (if p.isAck then p.dst else p.src) - 1;
    assert Server.Grown(f.servers[h], f'.servers[h]);
  }

  lemma CarriedStill(f: Field, f': Field, at: nat, e: EventType<NetworkEvent>)
    requires Grows(f, f') && Carried(f, at, e)
    ensures Carried(f', at, e)
  {
    hide Genuine, Server.Grown;
    if e.ModelEvent? {
      GenuineStill(f, f', e.model.packet);
    }
  }

  lemma AllCarriedStill(f: Field, f': Field, at: nat, q: seq<ModelEvent>)
    requires Grows(f, f') && AllCarried(f, at, q)
    ensures AllCarried(f', at, q)
  {
    hide Carried, Grows;
    forall k | 0 <= k < |q|
      ensures Carried(f', at, q[k].eventType)
    {
      CarriedStill(f, f', at, q[k].eventType);
    }
  }

  lemma NowGrows(f: Field, h: nat, flows: seq<FlowState>)
    requires 1 <= h <= |f.servers| && Server.Grown(f.servers[h - 1], flows)
    ensures Grows(f, Now(f, h, flows))
  {
  }

  /** Server `h`, whose flows have grown since `f` to those of `x`, has sent only what is on its way. */
  ghost predicate RackCarries(f: Field, h: nat, x: Server.Snapshot) {
    && 1 <= h <= f.hosts == |f.servers| && h in f.net && f.net[h] != []
    && f.net[h][0] in f.net && f.net[h][0] > f.hosts
    && OwnFlows(h, f.hosts, x.flows) && Server.Grown(f.servers[h - 1], x.flows)
    && AllCarried(Now(f, h, x.flows), f.net[h][0], x.torQueue)
  }

  lemma ReactionCarries(f: Field, h: nat, cfg: Server.Config, e: ModelEvent, x: Server.Snapshot, x': Server.Snapshot)
    requires RackCarries(f, h, x) && cfg.id == h && cfg.bandwidth > 0 && Server.Reacted(cfg, e, x, x')
    requires ForServer(f, h, e.eventType)
    ensures RackCarries(f, h, x')
  {
    ReactionKeepsOwn(cfg, f.hosts, e, x, x');
    GrownTrans(f.servers[h - 1], x.flows, x'.flows);
    Server.ReactionSends(cfg, e, x, x');
    NowGrows(Now(f, h, x.flows), h, x'.flows);
    hide Server.Reacted, OwnFlows, Server.Grown, Carried, ForServer, Grows;
    var g := Now(f, h, x'.flows);
    assert Now(Now(f, h, x.flows), h, x'.flows) == g;
    forall k | 0 <= k < |x'.torQueue|
      ensures Carried(g, f.net[h][0], x'.torQueue[k].eventType)
    {
      if k < |x.torQueue| {
        assert Carried(Now(f, h, x.flows), f.net[h][0], x.torQueue[k].eventType);
        CarriedStill(Now(f, h, x.flows), g, f.net[h][0], x.torQueue[k].eventType);
      } else {
        SentCarried(f, h, cfg, e, x, x', k);
      }
    }
  }

  lemma GrownTrans(a: seq<FlowState>, b: seq<FlowState>, c: seq<FlowState>)
    requires Server.Grown(a, b) && Server.Grown(b, c)
    ensures Server.Grown(a, c)
  {
  }

  lemma SentCarried(f: Field, h: nat, cfg: Server.Config, e: ModelEvent, x: Server.Snapshot, x': Server.Snapshot,
                    k: nat)
    requires RackCarries(f, h, x) && cfg.id == h && cfg.bandwidth > 0 && Server.Reacted(cfg, e, x, x')
    requires ForServer(f, h, e.eventType)
    requires OwnFlows(h, f.hosts, x'.flows) && Server.Grown(f.servers[h - 1], x'.flows)
    requires |x.torQueue| <= k < |x'.torQueue|
    ensures Carried(Now(f, h, x'.flows), f.net[h][0], x'.torQueue[k].eventType)
  {
    SentKinds(cfg, e, x, x', k);
    if x'.torQueue[k].eventType.ModelEvent? {
      var p := x'.torQueue[k].eventType.model.packet;
      assert Carries(x.torQueue, x'.torQueue, p);
      NowGrows(f, h, x'.flows);
      hide Server.Reacted, OwnFlows, Server.Grown, Carries, SentBy, AllCarried, Grows;
      ReactionSent(cfg, f.hosts, e, x, x', p);
      var g := Now(f, h, x'.flows);
      if e.eventType.model.PacketArrival? {
        GenuineStill(f, g, e.eventType.model.packet);
      }
      hide Genuine;
      SentIsGenuine(f.hosts, g.servers, h, e.eventType.model, p);
    }
  }

  /** A reaction puts packets, nulls and Close on the link. */
  lemma SentKinds(cfg: Server.Config, e: ModelEvent, x: Server.Snapshot, x': Server.Snapshot, k: nat)
    requires cfg.bandwidth > 0 && Server.Reacted(cfg, e, x, x') && |x.torQueue| <= k < |x'.torQueue|
    ensures var t := x'.torQueue[k].eventType; !t.Stalled? && (t.ModelEvent? ==> t.model.PacketArrival?)
  {
    if e.eventType.ModelEvent? {
      var packets := Server.ReactionIsTrain(cfg, e, x, x');
      hide Server.Reacted;
      var j := k - |x.torQueue|;
      assert x'.torQueue[|x.torQueue|..][j] == x'.torQueue[k];
      TrainCarries(cfg.id, packets, x.torTime, cfg.bandwidth, cfg.latency, j);
    }
  }

  lemma SelfSent(f: Field, h: nat, cfg: Server.Config, e: ModelEvent, x: Server.Snapshot, x': Server.Snapshot,
                 m: MergerSpec.MState<NetworkEvent>)
    requires cfg.bandwidth > 0 && Server.Reacted(cfg, e, x, x') && MergerSpec.AllWaiting(m, ForServers(f, h))
    ensures |x.selfQueue| <= |x'.selfQueue|
    ensures MergerSpec.AllWaiting(ServerLoop.Fed(m, x'.selfQueue[|x.selfQueue|..]), ForServers(f, h))
  {
    Server.ReactionSends(cfg, e, x, x');
    var sent := x'.selfQueue[|x.selfQueue|..];
    SelfKinds(cfg, e, x, x');
    var fed := ServerLoop.Fed(m, sent);
    hide Server.Reacted;
    forall q, k | 0 <= q < |fed.queues| && 0 <= k < |fed.queues[q]|
      ensures ForServer(f, h, fed.queues[q][k].eventType)
    {
      if q == 0 && k >= |m.queues[0]| {
        assert fed.queues[0][k] == sent[k - |m.queues[0]|];
      } else {
        assert ForServers(f, h)(m.queues[q][k].eventType);
      }
    }
  }

  /** To itself a server sends timeouts and Close. */
  lemma SelfKinds(cfg: Server.Config, e: ModelEvent, x: Server.Snapshot, x': Server.Snapshot)
    requires cfg.bandwidth > 0 && Server.Reacted(cfg, e, x, x')
    ensures x.selfQueue <= x'.selfQueue
    ensures forall k :: |x.selfQueue| <= k < |x'.selfQueue| ==>
              var t := x'.selfQueue[k].eventType; t.Close? || (t.ModelEvent? && t.model.Timeout?)
  {
    Server.ReactionSends(cfg, e, x, x');
  }

  /** Over all the turns of a call a server sends only what is on its way. */
  lemma {:induction false} ServerCarries(f: Field, h: nat, cfg: Server.Config, turns: seq<Turn<Server.Snapshot>>,
                                         m: MergerSpec.MState<NetworkEvent>, m': MergerSpec.MState<NetworkEvent>,
                                         x: Server.Snapshot, x': Server.Snapshot)
    requires RackCarries(f, h, x) && cfg.id == h && MergerSpec.AllWaiting(m, ForServers(f, h))
    requires Turns(ServerLoop.Answers(cfg), turns, m, m', x, x')
    ensures RackCarries(f, h, x') && MergerSpec.AllWaiting(m', ForServers(f, h))
    decreases |turns|
  {
    hide RackCarries, MergerSpec.AllWaiting, Chose, ForServer, Server.Reacted, ServerLoop.Fed;
    if turns != [] {
      var last := turns[|turns| - 1];
      ServerCarries(f, h, cfg, turns[..|turns| - 1], m, last.call[0], x, last.before);
      ChosenWaited(last, ForServers(f, h));
      NoEventNoArrival(f, h, last.event);
      ReactionCarries(f, h, cfg, last.event, last.before, last.after);
      SelfSent(f, h, cfg, last.event, last.before, last.after, last.call[|last.call| - 1]);
    }
  }

  lemma NoEventNoArrival(f: Field, h: nat, e: ModelEvent)
    ensures !Visible(e) ==> ForServer(f, h, e.eventType)
  {
  }
}
