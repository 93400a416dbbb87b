/** A newly built simulation: everybody is in place and ready for the first call. */
module SimulationStart {
  import opened Events
  import opened NetworkEvents
  import opened Protocol
  import opened LocalRounds
  import opened Deliveries
  import opened Simulation
  import opened SimulationSteps
  import Tcp
  import Traffic
  import Router
  import ServerLoop
  import RouterSteps
  import ServerSteps
  import MergerSpec

  /** The placeholders of a new merger. */
  lemma NewMerger(p: Plan, g: Global<NetworkEvent>, i: nat)
    requires i < |p.parts| && Start(p.net, g) && Ports(p.net, i, p.parts[i].ports)
    ensures var ports, m := p.parts[i].ports, MergerOf(p, g, i, 0);
            && |m.queues| == |m.curr| == |ports| && m.winner == 0
            && forall k :: 0 <= k < |ports| ==> m.queues[k] == g.queue[ports[k]] && m.curr[k] == Event(0, k, Null)
  {
    hide StartQueue;
  }

  lemma RouterPlaced(p: Plan, g: Global<NetworkEvent>, i: nat, a: Actor)
    requires p.hosts <= i < |p.parts| && i - p.hosts < |p.switches| && p.parts[i].RouterPart? && RouterPlanned(p, i)
    requires Start(p.net, g) && StartsAt(p, g, i, a) && i < p.net.actors && IdOf(p.net, i) == i + 1
    ensures Placed(p, g, i, a)
  {
    NewMerger(p, g, i);
    var RouterPart(cfg, ports, outs) := p.parts[i];
    hide MergerOf, Start, Ports, RouterSteps.Feeds;
    RouterSteps.BuiltPlays(p.net, g, i, cfg, ports, outs, MergerOf(p, g, i, 0), a.o);
  }

  lemma ServerPlaced(p: Plan, g: Global<NetworkEvent>, i: nat, a: Actor)
    requires i < |p.parts| && p.parts[i].ServerPart? && ServerPlanned(p, i)
    requires Start(p.net, g) && StartsAt(p, g, i, a) && i < p.net.actors && IdOf(p.net, i) == i + 1
    ensures Placed(p, g, i, a)
  {
    NewMerger(p, g, i);
    var ServerPart(cfg, ports, tor) := p.parts[i];
    hide MergerOf, Start, Ports, ServerSteps.Sends;
    ServerSteps.BuiltPlays(p.net, g, i, cfg, ports, tor, MergerOf(p, g, i, 0), a.x);
  }

  lemma StartSent(p: Plan, f: Field, g: Global<NetworkEvent>, i: nat, a: Actor)
    requires Planned(p) && i < |p.parts| && StartsAt(p, g, i, a)
    requires i < p.hosts ==> |f.servers| == p.hosts && a.ServerAt? && f.servers[i] == a.x.flows
    ensures Sent(p, f, i, a)
  {
    PlanFacts(p, i);
    hide Planned, Ports, RouterSteps.Feeds, ServerSteps.Sends;
  }

  lemma StartOk(p: Plan, s: Sim, i: nat)
    requires Started(p, s) && i < |p.parts| && p.hosts <= |s.actors|
    ensures ActorOk(p, s, FieldOf(p, s), i)
  {
    StartAt(p, s, i);
    PlanFacts(p, i);
    hide Started, Planned, Start, RouterPlanned, ServerPlanned, StartsAt, Placed, Sent;
    if i < p.hosts {
      ServerPlaced(p, s.g, i, s.actors[i]);
    } else {
      RouterPlaced(p, s.g, i, s.actors[i]);
    }
    StartKind(p, s.g, i, s.actors[i]);
    StartSent(p, FieldOf(p, s), s.g, i, s.actors[i]);
  }

  lemma StartKind(p: Plan, g: Global<NetworkEvent>, i: nat, a: Actor)
    requires i < |p.parts| && StartsAt(p, g, i, a)
    ensures if p.parts[i].ServerPart? then a.ServerAt? else a.RouterAt?
  {
  }

  lemma StartAt(p: Plan, s: Sim, i: nat)
    requires Started(p, s) && i < |p.parts|
    ensures Planned(p) && Start(p.net, s.g) && |s.actors| == |p.parts| && StartsAt(p, s.g, i, s.actors[i])
    ensures i < p.net.actors && IdOf(p.net, i) == i + 1 && i < |s.g.phase| && s.g.phase[i] == Phase.Ready
  {
    hide RouterPlanned, ServerPlanned, StartsAt, Traffic.Switched, NetOk, Scheduled;
  }

  lemma StartHeard(p: Plan, s: Sim, c: nat)
    requires Started(p, s) && c < |p.net.channels| && p.hosts <= |s.actors|
    ensures c < |s.g.curr| && c < |s.g.queue| && Heard(p, s.g, FieldOf(p, s), c)
  {
    hide Planned, StartsAt, Scheduled, FieldOf, StartQueue, Carried;
  }

  lemma StartCore(p: Plan, s: Sim)
    requires Started(p, s)
    ensures Core(p, s)
  {
    StartPlan(p, s);
    StartInv(p.net, s.g);
    hide Started, Planned, Protocol.Inv, ActorOk, Heard, FieldOf, NetOk, Start;
    forall i | 0 <= i < |s.actors|
      ensures ActorOk(p, s, FieldOf(p, s), i)
    {
      StartOk(p, s, i);
    }
    forall c | 0 <= c < |p.net.channels|
      ensures c < |s.g.curr| && c < |s.g.queue| && Heard(p, s.g, FieldOf(p, s), c)
    {
      StartHeard(p, s, c);
    }
    CoreSo(p, s);
  }

  lemma StartPlan(p: Plan, s: Sim)
    requires Started(p, s)
    ensures Planned(p) && NetOk(p.net) && Start(p.net, s.g) && p.hosts <= |p.parts| == |s.actors|
  {
    PlanSwitched(p);
    hide RouterPlanned, ServerPlanned, StartsAt, NetOk, Scheduled, Start;
  }

  lemma RouterStartReady(p: Plan, s: Sim, i: nat)
    requires Core(p, s) && p.hosts <= i < |p.parts| && i < |s.actors| && StartsAt(p, s.g, i, s.actors[i])
    ensures ReadyAt(p, s.g, i, s.actors[i])
  {
    hide Core, Planned, MergerOf, Router.Ready, RouterPlanned;
    RouterRouted(p, s, i);
    PlanOf(p, s);
    PlanFacts(p, i);
    var RouterPart(cfg, ports, outs) := p.parts[i];
    NewRouter(p, i, s.g, s.actors[i], MergerOf(p, s.g, i, 0));
  }

  lemma NewRouter(p: Plan, i: nat, g: Global<NetworkEvent>, a: Actor, m: MergerSpec.MState<NetworkEvent>)
    requires p.hosts <= i < |p.parts| && i - p.hosts < |p.switches| && p.parts[i].RouterPart? && RouterPlanned(p, i)
    requires StartsAt(p, g, i, a) && MergerSpec.AllWaiting(m, Router.RoutedBy(p.parts[i].router.route))
    ensures Router.Ready(p.parts[i].router, m, a.o)
  {
    hide MergerSpec.AllWaiting, Ports, RouterSteps.Feeds;
  }

  lemma NewFeed(m: MergerSpec.MState<NetworkEvent>, pending: nat, flows: seq<Tcp.FlowState>)
    requires |m.queues| == |m.curr| >= 2 && m.winner == 0
    requires forall k :: 0 <= k < |m.curr| ==> m.curr[k] == Event(0, k, Null)
    requires |m.queues[0]| == 1 && ServerLoop.IsTimeout(m.queues[0][0].eventType) && m.queues[0][0].time == pending
    requires forall k :: 1 <= k < |m.curr| ==> ServerLoop.NeighbourFeed(m.curr[k], m.queues[k], flows)
    ensures ServerLoop.Feed(m, pending, flows, true) && MergerSpec.Reached(m) == 0
  {
    hide ServerLoop.NeighbourFeed;
  }

  lemma ServerStartReady(p: Plan, s: Sim, i: nat)
    requires Core(p, s) && i < p.hosts && i < |p.parts| && i < |s.actors| && Start(p.net, s.g)
    requires StartsAt(p, s.g, i, s.actors[i])
    ensures ReadyAt(p, s.g, i, s.actors[i])
  {
    hide Core, Planned, ActorOk, MergerOf, Start, Ports, ServerLoop.NeighbourFeed, Sized, ServerLoop.Feed,
         MergerSpec.Reached;
    PlanOf(p, s);
    PlanFacts(p, i);
    PortsOf(p, i);
    CorePlan(p, s);
    CoreActor(p, s, i);
    NewMerger(p, s.g, i);
    var a, ports := s.actors[i], p.parts[i].ports;
    var m := MergerOf(p, s.g, i, 0);
    forall k | 1 <= k < |m.curr|
      ensures ServerLoop.NeighbourFeed(m.curr[k], m.queues[k], a.x.flows)
    {
      NeighbourReady(p, s, i, ports, k);
    }
    NewFeed(m, a.x.pending, a.x.flows);
  }

  /** A new simulation is ready to go. */
  lemma StartedInv(p: Plan, s: Sim)
    requires Started(p, s)
    ensures Simulation.Inv(p, s)
  {
    StartCore(p, s);
    StartPlan(p, s);
    hide Started, Core, Planned, Start, StartsAt, ReadyAt;
    forall i | 0 <= i < |s.actors|
      ensures ReadyAt(p, s.g, i, s.actors[i])
    {
      StartAt(p, s, i);
      if i < p.hosts {
        ServerStartReady(p, s, i);
      } else {
        RouterStartReady(p, s, i);
      }
    }
  }
}
