/**
 A whole simulation: servers and routers of one network, taking turns to be called. A call does what `Advance`
 promises of a router or server that is ready; that every actor is ready whenever it is called is proved here.
 */
module Simulation {
  import opened Events
  import opened NetworkEvents
  import opened Forwarding
  import opened Protocol
  import opened LocalRounds
  import opened Reactions
  import opened EventLoops
  import opened Deliveries
  import Tcp
  import Traffic
  import Graphs
  import Router
  import Server
  import ServerLoop
  import RouterSteps
  import ServerSteps
  import MergerSpec

  /** How an actor is built, and which channels lead to it and from it. */
  datatype Part =
    | RouterPart(router: Router.Config, ports: seq<nat>, outs: seq<nat>)
    | ServerPart(server: Server.Config, ports: seq<nat>, tor: nat)

  /** The network, the switches built for it, and the actors: actor `i` is node `i + 1`. */
  datatype Plan = Plan(net: Net, topology: Graphs.Network, hosts: nat, switches: seq<Switch>, parts: seq<Part>)

  ghost predicate RouterPlanned(p: Plan, i: nat)
    requires p.hosts <= i < |p.parts| && i - p.hosts < |p.switches| && p.parts[i].RouterPart?
  {
    var RouterPart(cfg, ports, outs) := p.parts[i];
    var sw := p.switches[i - p.hosts];
    && cfg.id == i + 1 && cfg.latency == p.net.latency && cfg.bandwidth > 0 && cfg.route == sw.route
    && Ports(p.net, i, ports) && |ports| >= 2 && RouterSteps.Feeds(p.net, i, outs)
    && (forall c :: 0 <= c < |p.net.channels| ==> p.net.channels[c].origin != Self(i))
    && |outs| == |sw.ixToId|
    && (forall d :: 0 <= d < |outs| ==> p.net.channels[outs[d]].dst + 1 == sw.ixToId[d])
    && (forall dst, d :: 0 <= dst < |cfg.route| && d in cfg.route[dst] ==> d < |outs|)
  }

  ghost predicate ServerPlanned(p: Plan, i: nat)
    requires i < |p.parts| && p.parts[i].ServerPart?
  {
    var ServerPart(cfg, ports, tor) := p.parts[i];
    && cfg.id == i + 1 && cfg.latency == p.net.latency && cfg.bandwidth > 0
    && Ports(p.net, i, ports) && |ports| >= 2 && ServerSteps.Sends(p.net, i, ports, tor)
    && i + 1 in p.topology && p.topology[i + 1] != []
    && p.net.channels[tor].dst + 1 == p.topology[i + 1][0]
  }

  /** The actors fit the network: hosts are servers, all other nodes are routers holding their switch's table. */
  ghost predicate Planned(p: Plan) {
    && NetOk(p.net) && Traffic.Switched(p.topology, p.hosts, p.switches)
    && p.net.actors == |p.parts| == |p.topology|
    && (forall i :: 0 <= i < |p.parts| ==> IdOf(p.net, i) == i + 1)
    && (forall i :: 0 <= i < p.hosts ==> p.parts[i].ServerPart? && ServerPlanned(p, i))
    && (forall i :: p.hosts <= i < |p.parts| ==> p.parts[i].RouterPart? && RouterPlanned(p, i))
  }

  /** An actor's own state: the queue that won last, and what it has sent. */
  datatype Actor =
    | RouterAt(w: nat, o: Router.Out)
    | ServerAt(w: nat, x: Server.Snapshot, now: nat)

  datatype Sim = Sim(g: Global<NetworkEvent>, actors: seq<Actor>)

  ghost function MergerOf(p: Plan, g: Global<NetworkEvent>, i: nat, w: nat): MergerSpec.MState<NetworkEvent>
    requires i < |p.parts|
  {
    if Sized(p.net, g) && Ports(p.net, i, p.parts[i].ports) then Local(p.net, g, i, p.parts[i].ports, w)
    else MergerSpec.MState([], [], w)
  }

  ghost predicate Placed(p: Plan, g: Global<NetworkEvent>, i: nat, a: Actor)
    requires i < |p.parts|
  {
    match p.parts[i]
    case RouterPart(cfg, ports, outs) =>
      a.RouterAt? && RouterSteps.Plays(p.net, g, i, cfg, ports, outs, MergerOf(p, g, i, a.w), a.o)
    case ServerPart(cfg, ports, tor) =>
      a.ServerAt? && ServerSteps.Plays(p.net, g, i, cfg, ports, tor, MergerOf(p, g, i, a.w), a.x)
  }

  /** The actor meets what its `Advance` asks for. */
  ghost predicate ReadyAt(p: Plan, g: Global<NetworkEvent>, i: nat, a: Actor)
    requires i < |p.parts|
  {
    match p.parts[i]
    case RouterPart(cfg, _, _) => a.RouterAt? && Router.Ready(cfg, MergerOf(p, g, i, a.w), a.o)
    case ServerPart(cfg, _, _) => a.ServerAt? && ServerLoop.Ready(cfg, MergerOf(p, g, i, a.w), a.x, a.now)
  }

  /** Servers have flows of their own, and whatever has been sent is on its way. */
  ghost predicate Sent(p: Plan, f: Field, i: nat, a: Actor)
    requires i < |p.parts|
  {
    if a.ServerAt? then
      && i < p.hosts == |f.servers| && f.servers[i] == a.x.flows && Traffic.OwnFlows(i + 1, p.hosts, a.x.flows)
      && i + 1 in p.topology && p.topology[i + 1] != []
      && AllCarried(f, p.topology[i + 1][0], a.x.torQueue)
    else
      && p.hosts <= i && i - p.hosts < |p.switches| && LinksCarry(f, p.switches[i - p.hosts], a.o)
  }

  ghost predicate ActorOk(p: Plan, s: Sim, f: Field, i: nat)
    requires i < |p.parts| && i < |s.actors|
  {
    Placed(p, s.g, i, s.actors[i]) && i < |s.g.phase| && s.g.phase[i] != Deciding && Sent(p, f, i, s.actors[i])
  }

  /** What the world schedules: flows for the host they start at, and nothing but Close for routers. */
  ghost predicate Scheduled(p: Plan, dst: nat, e: EventType<NetworkEvent>) {
    && !e.Stalled?
    && (e.ModelEvent? ==> dst < p.hosts && e.model.Flow? && e.model.src == dst + 1 && 1 <= e.model.dst <= p.hosts)
  }

  /** The event that represents a channel in its receiver's merger, and for the world what is still to come. */
  ghost predicate Heard(p: Plan, g: Global<NetworkEvent>, f: Field, c: nat)
    requires c < |p.net.channels| && c < |g.curr| && c < |g.queue|
  {
    var dst := p.net.channels[c].dst;
    match p.net.channels[c].origin
    case Link(_) => Visible(g.curr[c]) ==> Carried(f, dst + 1, g.curr[c].eventType)
    case World =>
      && (Visible(g.curr[c]) ==> Scheduled(p, dst, g.curr[c].eventType))
      && (forall k :: 0 <= k < |g.queue[c]| ==> Scheduled(p, dst, g.queue[c][k].eventType))
    case Self(_) => true
  }

  /** The flows of all hosts. */
  ghost function FlowsOf(p: Plan, s: Sim): (flows: seq<seq<Tcp.FlowState>>)
    requires p.hosts <= |s.actors|
    ensures |flows| == p.hosts
    ensures forall i :: 0 <= i < p.hosts ==> flows[i] == if s.actors[i].ServerAt? then s.actors[i].x.flows else []
  {
    seq(p.hosts, i requires 0 <= i < p.hosts => if s.actors[i].ServerAt? then s.actors[i].x.flows else [])
  }

  ghost function FieldOf(p: Plan, s: Sim): Field
    requires p.hosts <= |s.actors|
  {
    Field(p.topology, p.hosts, FlowsOf(p, s))
  }

  /** Where everybody is, and what is in the channels. */
  ghost predicate Core(p: Plan, s: Sim) {
    && Planned(p) && Protocol.Inv(p.net, s.g) && |s.actors| == |p.parts| && p.hosts <= |s.actors|
    && (forall i :: 0 <= i < |s.actors| ==> ActorOk(p, s, FieldOf(p, s), i))
    && (forall c :: 0 <= c < |p.net.channels| ==> Heard(p, s.g, FieldOf(p, s), c))
  }

  ghost predicate Inv(p: Plan, s: Sim) {
    && Core(p, s)
    && forall i :: 0 <= i < |s.actors| && i < |s.g.phase| && s.g.phase[i] == Phase.Ready ==>
         ReadyAt(p, s.g, i, s.actors[i])
  }

  // Calls

  /** The end of a call: with a stall or with Close, after nothing but model events. */
  ghost predicate Ended<S>(turns: seq<Turn<S>>) {
    && turns != []
    && (forall k :: 0 <= k < |turns| - 1 ==> turns[k].event.eventType.ModelEvent?)
    && (turns[|turns| - 1].event.eventType.Close? || turns[|turns| - 1].event.eventType.Stalled?)
  }

  /** What `Router.Advance` promises, seen in the protocol; `ss` is the path it takes there. */
  ghost predicate RouterCall(p: Plan, s: Sim, s': Sim, i: nat, turns: seq<Turn<Router.Out>>,
                             ss: seq<Global<NetworkEvent>>)
    requires i < |p.parts| && p.parts[i].RouterPart? && i < |s.actors| && i < |s'.actors|
  {
    var RouterPart(cfg, ports, outs) := p.parts[i];
    var a, a' := s.actors[i], s'.actors[i];
    && a.RouterAt? && a'.RouterAt? && Ended(turns)
    && var m, m' := MergerOf(p, s.g, i, a.w), MergerOf(p, s'.g, i, a'.w);
       && Turns(Router.Answers(cfg), turns, m, m', a.o, a'.o)
       && Leads(p.net, s.g, ss, i, RouterSteps.Part(p.net, i, cfg, ports, outs), m', a'.o,
                EndOf(turns[|turns| - 1].event))
       && ss != [] && s'.g == ss[|ss| - 1]
       && (turns[|turns| - 1].event.eventType.Stalled? ==> Router.Ready(cfg, m', a'.o))
  }

  /** What `ServerLoop.Advance` promises. */
  ghost predicate ServerCall(p: Plan, s: Sim, s': Sim, i: nat, turns: seq<Turn<Server.Snapshot>>,
                             ss: seq<Global<NetworkEvent>>)
    requires i < |p.parts| && p.parts[i].ServerPart? && i < |s.actors| && i < |s'.actors|
  {
    var ServerPart(cfg, ports, tor) := p.parts[i];
    var a, a' := s.actors[i], s'.actors[i];
    && a.ServerAt? && a'.ServerAt? && Ended(turns)
    && var m, m' := MergerOf(p, s.g, i, a.w), MergerOf(p, s'.g, i, a'.w);
       && Turns(ServerLoop.Answers(cfg), turns, m, m', a.x, a'.x)
       && Leads(p.net, s.g, ss, i, ServerSteps.Part(p.net, i, cfg, ports, tor), m', a'.x,
                EndOf(turns[|turns| - 1].event))
       && ss != [] && s'.g == ss[|ss| - 1]
       && (turns[|turns| - 1].event.eventType.Stalled? ==> ServerLoop.Ready(cfg, m', a'.x, a'.now))
  }

  /** Actor `i`, which is not done, is called; `ss` is the path the protocol takes. */
  ghost predicate Called(p: Plan, s: Sim, s': Sim, i: nat, ss: seq<Global<NetworkEvent>>) {
    && i < |p.parts| == |s.actors| == |s'.actors|
    && i < |s.g.phase| && s.g.phase[i] == Phase.Ready
    && s'.actors == s.actors[i := s'.actors[i]]
    && match p.parts[i]
       case RouterPart(_, _, _) => exists turns :: RouterCall(p, s, s', i, turns, ss)
       case ServerPart(_, _, _) => exists turns :: ServerCall(p, s, s', i, turns, ss)
  }

  // Start

  /** As the constructors leave it: nothing done, a null on every link, and for a server its first timeout. */
  ghost predicate StartsAt(p: Plan, g: Global<NetworkEvent>, i: nat, a: Actor)
    requires i < |p.parts|
  {
    match p.parts[i]
    case RouterPart(cfg, ports, outs) =>
      && a.RouterAt? && a.w == 0 && ports != [] && i < |g.winner| && g.winner[i] == ports[0]
      && |outs| == |a.o.queues| == |a.o.times|
      && forall d :: 0 <= d < |outs| ==>
           a.o.times[d] == 0 && outs[d] < |g.queue|
           && a.o.queues[d] == g.queue[outs[d]] == [Event(cfg.latency, cfg.id, Null)]
    case ServerPart(cfg, ports, tor) =>
      && a.ServerAt? && a.w == 0 && a.now == 0 && ports != [] && i < |g.winner| && g.winner[i] == ports[0]
      && a.x == Server.Snapshot([Event(cfg.latency, cfg.id, Null)], 0,
                                [Event(Tcp.MIN_RTO, cfg.id, ModelEvent(Timeout))],
                                multiset{}, [], 0, Tcp.MIN_RTO)
      && tor < |g.queue| && g.queue[tor] == a.x.torQueue && ports[0] < |g.queue| && g.queue[ports[0]] == a.x.selfQueue
  }

  ghost predicate Started(p: Plan, s: Sim) {
    && Planned(p) && Start(p.net, s.g) && |s.actors| == |p.parts|
    && (forall i :: 0 <= i < |s.actors| ==> StartsAt(p, s.g, i, s.actors[i]))
    && (forall c :: 0 <= c < |p.net.channels| && p.net.channels[c].origin.World? ==>
          forall k :: 0 <= k < |s.g.queue[c]| ==> Scheduled(p, p.net.channels[c].dst, s.g.queue[c][k].eventType))
  }
}
