/** Calling `Advance`: whoever is not done may be called, and the call takes the simulation on. */
module SimulationCalls {
  import opened Events
  import opened NetworkEvents
  import opened Protocol
  import opened LocalRounds
  import opened Reactions
  import opened EventLoops
  import opened Simulation
  import opened SimulationSteps
  import opened SimulationStart
  import opened Merger
  import Tcp
  import Router
  import Server
  import ServerLoop
  import RouterSteps
  import ServerSteps
  import MergerSpec

  /** Whatever a router's `Advance` does is a call. */
  lemma RouterCalls(p: Plan, s: Sim, i: nat, turns: seq<Turn<Router.Out>>, m': MergerSpec.MState<NetworkEvent>,
                    o': Router.Out)
      returns (s': Sim, ss: seq<Global<NetworkEvent>>)
    requires Simulation.Inv(p, s) && p.hosts <= i < |p.parts| && i < |s.g.phase| && s.g.phase[i] == Phase.Ready
    requires Ended(turns)
    requires p.parts[i].RouterPart? && i < |s.actors| && s.actors[i].RouterAt?
    requires Turns(Router.Answers(p.parts[i].router), turns, MergerOf(p, s.g, i, s.actors[i].w), m', s.actors[i].o, o')
    requires turns[|turns| - 1].event.eventType.Stalled? ==> Router.Ready(p.parts[i].router, m', o')
    ensures Called(p, s, s', i, ss) && Simulation.Inv(p, s') && s'.actors[i] == RouterAt(m'.winner, o')
    ensures MergerOf(p, s'.g, i, m'.winner) == m' && i < |s'.g.phase| && i < |s'.actors|
    ensures s'.g.phase[i] == if turns[|turns| - 1].event.eventType.Close? then Phase.Done else Phase.Ready
  {
    hide Core, Placed, ReadyAt, Turns, MergerOf, Router.Ready, Path, Stall, RouterSteps.Plays, Holds, Sent;
    var RouterPart(cfg, ports, outs) := p.parts[i];
    var a := s.actors[i];
    CoreActor(p, s, i);
    RouterPlays(p, s, i);
    ss := RouterSteps.AdvanceIsPath(p.net, s.g, i, cfg, ports, outs, turns, MergerOf(p, s.g, i, a.w), m', a.o, o');
    LeadsTo(p.net, s.g, ss, i, RouterSteps.Part(p.net, i, cfg, ports, outs), m', o', EndOf(turns[|turns| - 1].event));
    s' := Sim(ss[|ss| - 1], s.actors[i := RouterAt(m'.winner, o')]);
    RouterHolds(p, s'.g, i, m', o');
    MergerAgain(p, s'.g, i, m');
    assert RouterCall(p, s, s', i, turns, ss);
    CallInv(p, s, s', i, ss);
  }

  /** Whatever a server's `Advance` does is a call. */
  lemma ServerCalls(p: Plan, s: Sim, i: nat, turns: seq<Turn<Server.Snapshot>>, m': MergerSpec.MState<NetworkEvent>,
                    x': Server.Snapshot, now': nat) returns (s': Sim, ss: seq<Global<NetworkEvent>>)
    requires Simulation.Inv(p, s) && i < p.hosts && i < |p.parts| && i < |s.g.phase| && s.g.phase[i] == Phase.Ready
    requires Ended(turns)
    requires p.parts[i].ServerPart? && i < |s.actors| && s.actors[i].ServerAt?
    requires Turns(ServerLoop.Answers(p.parts[i].server), turns, MergerOf(p, s.g, i, s.actors[i].w), m',
                   s.actors[i].x, x')
    requires turns[|turns| - 1].event.eventType.Stalled? ==> ServerLoop.Ready(p.parts[i].server, m', x', now')
    ensures Called(p, s, s', i, ss) && Simulation.Inv(p, s') && s'.actors[i] == ServerAt(m'.winner, x', now')
    ensures MergerOf(p, s'.g, i, m'.winner) == m' && i < |s'.g.phase| && i < |s'.actors|
    ensures s'.g.phase[i] == if turns[|turns| - 1].event.eventType.Close? then Phase.Done else Phase.Ready
  {
    hide Core, Placed, ReadyAt, Turns, MergerOf, ServerLoop.Ready, Path, Stall, ServerSteps.Plays, Holds, Sent;
    var ServerPart(cfg, ports, tor) := p.parts[i];
    var a := s.actors[i];
    CoreActor(p, s, i);
    ServerPlays(p, s, i);
    ss := ServerSteps.AdvanceIsPath(p.net, s.g, i, cfg, ports, tor, turns, MergerOf(p, s.g, i, a.w), m', a.x, x');
    LeadsTo(p.net, s.g, ss, i, ServerSteps.Part(p.net, i, cfg, ports, tor), m', x', EndOf(turns[|turns| - 1].event));
    s' := Sim(ss[|ss| - 1], s.actors[i := ServerAt(m'.winner, x', now')]);
    ServerHolds(p, s'.g, i, m', x');
    MergerAgain(p, s'.g, i, m');
    assert ServerCall(p, s, s', i, turns, ss);
    CallInv(p, s, s', i, ss);
  }

  lemma RouterPlays(p: Plan, s: Sim, i: nat)
    requires i < |p.parts| && p.parts[i].RouterPart? && i < |s.actors| && Placed(p, s.g, i, s.actors[i])
    ensures s.actors[i].RouterAt?
    ensures RouterSteps.Plays(p.net, s.g, i, p.parts[i].router, p.parts[i].ports, p.parts[i].outs,
                              MergerOf(p, s.g, i, s.actors[i].w), s.actors[i].o)
  {
  }

  lemma RouterHolds(p: Plan, g: Global<NetworkEvent>, i: nat, m: MergerSpec.MState<NetworkEvent>, o: Router.Out)
    requires i < |p.parts| && p.parts[i].RouterPart?
    requires RouterSteps.Plays(p.net, g, i, p.parts[i].router, p.parts[i].ports, p.parts[i].outs, m, o)
    ensures Holds(p.net, g, i, p.parts[i].ports, m)
  {
    hide Holds;
  }

  lemma ServerHolds(p: Plan, g: Global<NetworkEvent>, i: nat, m: MergerSpec.MState<NetworkEvent>, x: Server.Snapshot)
    requires i < |p.parts| && p.parts[i].ServerPart?
    requires ServerSteps.Plays(p.net, g, i, p.parts[i].server, p.parts[i].ports, p.parts[i].tor, m, x)
    ensures Holds(p.net, g, i, p.parts[i].ports, m)
  {
    hide Holds;
  }

  lemma MergerAgain(p: Plan, g: Global<NetworkEvent>, i: nat, m: MergerSpec.MState<NetworkEvent>)
    requires i < |p.parts| && Holds(p.net, g, i, p.parts[i].ports, m)
    ensures MergerOf(p, g, i, m.winner) == m
  {
  }

  lemma ServerPlays(p: Plan, s: Sim, i: nat)
    requires i < |p.parts| && p.parts[i].ServerPart? && i < |s.actors| && Placed(p, s.g, i, s.actors[i])
    ensures s.actors[i].ServerAt?
    ensures ServerSteps.Plays(p.net, s.g, i, p.parts[i].server, p.parts[i].ports, p.parts[i].tor,
                              MergerOf(p, s.g, i, s.actors[i].w), s.actors[i].x)
  {
  }

  // The objects themselves

  /** `router` is the simulation's actor `i`, with what has arrived in its merger. */
  ghost predicate IsRouter(p: Plan, s: Sim, i: nat, router: Router.Router)
    reads router, router.merger, router.merger.loserE
  {
    && i < |p.parts| && i < |s.actors| && i < |s.g.phase| && p.parts[i].RouterPart? && s.actors[i].RouterAt?
    && router.merger.Valid() && router.Configured() == p.parts[i].router
    && router.merger.State() == MergerOf(p, s.g, i, s.actors[i].w) && router.Outgoing() == s.actors[i].o
  }

  ghost predicate IsServer(p: Plan, s: Sim, i: nat, server: Server.Server, merger: Merger<NetworkEvent>)
    reads server, server.flows, merger, merger.loserE
  {
    && i < |p.parts| && i < |s.actors| && i < |s.g.phase| && p.parts[i].ServerPart? && s.actors[i].ServerAt?
    && Server.Separate(server.flows) && merger.Valid() && server.Configured() == p.parts[i].server
    && merger.State() == MergerOf(p, s.g, i, s.actors[i].w)
    && server.Now() == s.actors[i].x && server.now == s.actors[i].now
  }

  /** A router built over its queues is the actor the simulation starts with. */
  method StartRouter(ghost p: Plan, ghost s: Sim, ghost i: nat, cfg: Router.Config, inQueues: seq<seq<ModelEvent>>,
                     nLinks: nat) returns (router: Router.Router)
    requires Started(p, s) && i < |p.parts| && p.parts[i].RouterPart? && p.hosts <= i
    requires cfg == p.parts[i].router && nLinks == |p.parts[i].outs| && inQueues == MergerOf(p, s.g, i, 0).queues
    ensures fresh(router) && fresh(router.merger) && fresh(router.merger.loserE) && IsRouter(p, s, i, router)
  {
    hide *;
    NewRouterFits(p, s, i);
    router := new Router.Router(cfg.id, cfg.latency, cfg.bandwidth, inQueues, nLinks, cfg.route);
    NewRouterIs(p, s, i, router);
  }

  lemma NewRouterFits(p: Plan, s: Sim, i: nat)
    requires Started(p, s) && i < |p.parts| && p.parts[i].RouterPart? && p.hosts <= i
    ensures var cfg, m := p.parts[i].router, MergerOf(p, s.g, i, 0);
            && |m.queues| >= 2 && cfg.bandwidth > 0
            && (forall dst :: 0 <= dst < |cfg.route| ==> forall d :: d in cfg.route[dst] ==> d < |p.parts[i].outs|)
            && forall q, k :: 0 <= q < |m.queues| && 0 <= k < |m.queues[q]| ==>
                 Router.Routed(cfg.route, m.queues[q][k].eventType)
  {
    StartAt(p, s, i);
    StartedInv(p, s);
    ReadyActor(p, s, i);
    PlanFacts(p, i);
    hide Started, Simulation.Inv, Planned, MergerOf, Start, Ports, RouterSteps.Feeds, Router.Routed;
    NewMerger(p, s.g, i);
  }

  lemma NewRouterIs(p: Plan, s: Sim, i: nat, router: Router.Router)
    requires Started(p, s) && i < |p.parts| && p.parts[i].RouterPart? && p.hosts <= i
    requires router.merger.Valid() && router.Configured() == p.parts[i].router
    requires router.merger.inQueues == MergerOf(p, s.g, i, 0).queues && router.merger.winnerQ == 0
    requires |router.merger.curr| == |router.merger.inQueues|
    requires forall q :: 0 <= q < |router.merger.curr| ==> router.merger.curr[q] == Event(0, q, Null)
    requires |router.outQueues| == |router.outTimes| == |p.parts[i].outs|
    requires forall d :: 0 <= d < |router.outQueues| ==>
      router.outTimes[d] == 0 && router.outQueues[d] == [Event(p.parts[i].router.latency, p.parts[i].router.id, Null)]
    ensures IsRouter(p, s, i, router)
  {
    StartAt(p, s, i);
    PlanFacts(p, i);
    hide Started, Planned, MergerOf, Start, Ports, RouterSteps.Feeds, Merger.Valid;
    NewMerger(p, s.g, i);
    var m, a := MergerOf(p, s.g, i, 0), s.actors[i];
    assert router.merger.curr == m.curr;
    assert router.outQueues == a.o.queues && router.outTimes == a.o.times;
  }

  /** So is a server, over its queues from the rack and from the world. */
  method StartServer(ghost p: Plan, ghost s: Sim, ghost i: nat, cfg: Server.Config, neighbours: seq<seq<ModelEvent>>)
      returns (server: Server.Server, merger: Merger<NetworkEvent>)
    requires Started(p, s) && i < |p.parts| && p.parts[i].ServerPart? && i < p.hosts
    requires cfg == p.parts[i].server && |MergerOf(p, s.g, i, 0).queues| == 1 + |neighbours|
    requires neighbours == MergerOf(p, s.g, i, 0).queues[1..]
    ensures fresh(server) && fresh(merger) && fresh(merger.loserE) && IsServer(p, s, i, server, merger)
  {
    hide *;
    NewServerFits(p, s, i);
    server, merger := ServerLoop.Build(cfg.id, cfg.latency, cfg.bandwidth, neighbours);
    NewServerIs(p, s, i, server, merger);
  }

  lemma NewServerFits(p: Plan, s: Sim, i: nat)
    requires Started(p, s) && i < |p.parts| && p.parts[i].ServerPart? && i < p.hosts
    ensures var cfg, m := p.parts[i].server, MergerOf(p, s.g, i, 0);
            && |m.queues| >= 2 && cfg.bandwidth > 0
            && (forall c :: 1 <= c < |m.queues| ==> ServerLoop.InTime(m.queues[c]))
            && forall c, a :: 1 <= c < |m.queues| && 0 <= a < |m.queues[c]| ==>
                 ServerLoop.Fits(m.queues[c][a].eventType, [])
  {
    StartAt(p, s, i);
    StartedInv(p, s);
    ReadyActor(p, s, i);
    PlanFacts(p, i);
    hide Started, Simulation.Inv, Planned, MergerOf, Start, Ports, ServerSteps.Sends, ServerLoop.Fits;
    NewMerger(p, s.g, i);
    var m := MergerOf(p, s.g, i, 0);
    forall c | 1 <= c < |m.queues|
      ensures ServerLoop.InTime(m.queues[c])
      ensures forall a :: 0 <= a < |m.queues[c]| ==> ServerLoop.Fits(m.queues[c][a].eventType, [])
    {
      assert ServerLoop.NeighbourFeed(m.curr[c], m.queues[c], []);
      TailInTime(m.curr[c], m.queues[c]);
    }
  }

  lemma TailInTime(e: ModelEvent, q: seq<ModelEvent>)
    requires ServerLoop.InTime([e] + q)
    ensures ServerLoop.InTime(q)
  {
    forall a, b | 0 <= a < b < |q| && !q[b].eventType.Close?
      ensures q[a].time <= q[b].time
    {
      assert ([e] + q)[a + 1] == q[a] && ([e] + q)[b + 1] == q[b];
    }
  }

  lemma NewServerIs(p: Plan, s: Sim, i: nat, server: Server.Server, merger: Merger<NetworkEvent>)
    requires Started(p, s) && i < |p.parts| && p.parts[i].ServerPart? && i < p.hosts
    requires server.Configured() == p.parts[i].server && ServerLoop.Awaits(server, merger)
    requires server.flows == [] && server.now == 0 && server.pending == Tcp.MIN_RTO && server.torTime == 0
    requires server.timeouts == multiset{} && server.count == 0
    requires server.selfQueue == [Event(Tcp.MIN_RTO, p.parts[i].server.id, ModelEvent(Timeout))]
    requires server.torQueue == [Event(p.parts[i].server.latency, p.parts[i].server.id, Null)]
    requires |MergerOf(p, s.g, i, 0).queues| >= 1 && merger.winnerQ == 0
    requires merger.inQueues == [server.selfQueue] + MergerOf(p, s.g, i, 0).queues[1..]
    requires |merger.curr| == |merger.inQueues|
    requires forall q :: 0 <= q < |merger.curr| ==> merger.curr[q] == Event(0, q, Null)
    ensures IsServer(p, s, i, server, merger)
  {
    StartAt(p, s, i);
    PlanFacts(p, i);
    AwaitsMeans(server, merger);
    hide Started, Planned, MergerOf, Start, Ports, ServerSteps.Sends, Merger.Valid, ServerLoop.Awaits, ServerLoop.Ready;
    NewMerger(p, s.g, i);
    var m, a := MergerOf(p, s.g, i, 0), s.actors[i];
    assert merger.curr == m.curr;
    assert merger.inQueues == m.queues;
    assert Server.Views(server.flows) == [];
  }

  lemma ReadyActor(p: Plan, s: Sim, i: nat)
    requires Simulation.Inv(p, s) && i < |p.parts| && i < |s.g.phase| && s.g.phase[i] == Phase.Ready
    ensures i < |s.actors| && ReadyAt(p, s.g, i, s.actors[i]) && p.hosts <= |p.parts|
    ensures if i < p.hosts then p.parts[i].ServerPart? else p.parts[i].RouterPart?
  {
    CoreActor(p, s, i);
    PlanFacts(p, i);
    hide Core, ReadyAt, Planned;
  }

  /** A router that is not done may be called at any time, and the call takes the simulation on. */
  method CallRouter(ghost p: Plan, ghost s: Sim, ghost i: nat, router: Router.Router)
      returns (r: ActorState, ghost s': Sim, ghost ss: seq<Global<NetworkEvent>>)
    requires Simulation.Inv(p, s) && IsRouter(p, s, i, router) && s.g.phase[i] == Phase.Ready
    modifies router, router.merger, router.merger.loserE
    ensures Called(p, s, s', i, ss) && Simulation.Inv(p, s') && IsRouter(p, s', i, router)
    ensures r.Done? <==> s'.g.phase[i] == Phase.Done
  {
    hide Simulation.Inv, ReadyAt, Turns, MergerOf, Called, Router.Ready, Merger.Valid, Router.Router.Clocked;
    ReadyActor(p, s, i);
    RouterMayBeCalled(p, s, i, router);
    ghost var turns;
    r, turns := router.Advance();
    router.ReadyIff();
    s', ss := RouterCalls(p, s, i, turns, router.merger.State(), router.Outgoing());
  }

  lemma RouterMayBeCalled(p: Plan, s: Sim, i: nat, router: Router.Router)
    requires IsRouter(p, s, i, router) && ReadyAt(p, s.g, i, s.actors[i])
    ensures router.Valid() && router.Clocked()
    ensures i < |p.parts| && i < |s.actors| && p.parts[i].RouterPart? && s.actors[i].RouterAt?
    ensures router.Configured() == p.parts[i].router
    ensures router.merger.State() == MergerOf(p, s.g, i, s.actors[i].w) && router.Outgoing() == s.actors[i].o
  {
    router.ReadyIff();
    hide Router.Ready, MergerOf;
  }

  /** So may a server. */
  method CallServer(ghost p: Plan, ghost s: Sim, ghost i: nat, server: Server.Server, merger: Merger<NetworkEvent>)
      returns (r: ActorState, ghost s': Sim, ghost ss: seq<Global<NetworkEvent>>)
    requires Simulation.Inv(p, s) && IsServer(p, s, i, server, merger) && s.g.phase[i] == Phase.Ready
    modifies server, server.flows, merger, merger.loserE
    ensures Called(p, s, s', i, ss) && Simulation.Inv(p, s') && i < |s'.g.phase| && i < |s'.actors|
    ensures r.Continue? ==> IsServer(p, s', i, server, merger)
    ensures r.Done? <==> s'.g.phase[i] == Phase.Done
  {
    hide Simulation.Inv, ReadyAt, Turns, MergerOf, Called, ServerLoop.Ready, ServerLoop.Awaits;
    ReadyActor(p, s, i);
    ServerMayBeCalled(p, s, i, server, merger);
    ghost var turns;
    r, turns := ServerLoop.Advance(server, merger);
    if r.Continue? {
      AwaitsMeans(server, merger);
    }
    s', ss := ServerCalls(p, s, i, turns, merger.State(), server.Now(), server.now);
  }

  lemma AwaitsMeans(server: Server.Server, merger: Merger<NetworkEvent>)
    requires ServerLoop.Awaits(server, merger)
    ensures Server.Separate(server.flows) && merger.Valid()
    ensures ServerLoop.Ready(server.Configured(), merger.State(), server.Now(), server.now)
  {
    ServerLoop.ReadyIff(server, merger);
  }

  lemma ServerMayBeCalled(p: Plan, s: Sim, i: nat, server: Server.Server, merger: Merger<NetworkEvent>)
    requires IsServer(p, s, i, server, merger) && ReadyAt(p, s.g, i, s.actors[i])
    ensures ServerLoop.Awaits(server, merger)
  {
    ServerLoop.ReadyIff(server, merger);
    hide ServerLoop.Ready, ServerLoop.Awaits, MergerOf;
  }
}
