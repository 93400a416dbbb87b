/** What a call keeps: everybody's place, packets on their way, and the readiness of all who are not done. */
module SimulationSteps {
  import opened Events
  import opened NetworkEvents
  import opened Forwarding
  import opened Protocol
  import opened LocalRounds
  import opened Reactions
  import opened EventLoops
  import opened Deliveries
  import opened Simulation
  import Tcp
  import Traffic
  import Timers
  import Links
  import Router
  import Server
  import ServerLoop
  import RouterSteps
  import ServerSteps
  import MergerSpec

  // What is in the channels

  lemma TailCarried(f: Field, at: nat, whole: seq<ModelEvent>, rest: seq<ModelEvent>)
    requires AllCarried(f, at, whole) && EndsWith(whole, rest)
    ensures AllCarried(f, at, rest)
  {
    hide Carried;
    forall k | 0 <= k < |rest|
      ensures Carried(f, at, rest[k].eventType)
    {
      assert rest[k] == whole[|whole| - |rest|..][k] == whole[|whole| - |rest| + k];
    }
  }

  lemma PlanFacts(p: Plan, i: nat)
    requires Planned(p) && i < |p.parts|
    ensures p.net.actors == |p.parts| && p.hosts <= |p.parts| && |p.switches| == |p.parts| - p.hosts
    ensures if i < p.hosts then p.parts[i].ServerPart? && ServerPlanned(p, i)
            else p.parts[i].RouterPart? && RouterPlanned(p, i)
  {
    hide RouterPlanned, ServerPlanned, NetOk;
  }

  lemma CoreActor(p: Plan, s: Sim, i: nat)
    requires Core(p, s) && i < |p.parts|
    ensures Planned(p) && Sized(p.net, s.g) && p.hosts <= |s.actors| == |p.parts| == p.net.actors
    ensures ActorOk(p, s, FieldOf(p, s), i)
  {
    hide ActorOk, FieldOf, Heard;
    PlanFacts(p, i);
  }

  lemma CoreChannel(p: Plan, s: Sim, c: nat)
    requires Core(p, s) && c < |p.net.channels|
    ensures Sized(p.net, s.g) && p.hosts <= |s.actors| && ChannelOk(p.net, p.net.channels[c])
    ensures Heard(p, s.g, FieldOf(p, s), c)
  {
    hide ActorOk, FieldOf, Heard;
  }

  /** The link a router feeds, and where its switch's table sends it. */
  lemma OutOfRouter(p: Plan, j: nat, c: nat) returns (d: nat)
    requires p.hosts <= j < |p.parts| && j - p.hosts < |p.switches| && p.parts[j].RouterPart? && RouterPlanned(p, j)
    requires c < |p.net.channels| && p.net.channels[c].origin == Link(j)
    ensures d < |p.parts[j].outs| == |p.switches[j - p.hosts].ixToId| && p.parts[j].outs[d] == c
    ensures p.switches[j - p.hosts].ixToId[d] == p.net.channels[c].dst + 1
  {
    hide Ports;
    var outs := p.parts[j].outs;
    assert c in outs;
    d :| 0 <= d < |outs| && outs[d] == c;
  }

  lemma RouterSent(p: Plan, s: Sim, f: Field, j: nat, d: nat)
    requires j < |p.parts| && j < |s.actors| && p.hosts <= j && p.parts[j].RouterPart? && ActorOk(p, s, f, j)
    requires d < |p.parts[j].outs| && j - p.hosts < |p.switches| && d < |p.switches[j - p.hosts].ixToId|
    ensures s.actors[j].RouterAt? && d < |s.actors[j].o.queues| && p.parts[j].outs[d] < |s.g.queue|
    ensures AllCarried(f, p.switches[j - p.hosts].ixToId[d], s.actors[j].o.queues[d])
    ensures EndsWith(s.actors[j].o.queues[d], s.g.queue[p.parts[j].outs[d]])
  {
    hide AllCarried, EndsWith, Local, Ports;
  }

  lemma RouterLink(p: Plan, s: Sim, f: Field, c: nat, j: nat)
    requires Planned(p) && Sized(p.net, s.g) && |s.actors| == |p.parts|
    requires p.hosts <= j < |p.parts| && ActorOk(p, s, f, j) && c < |p.net.channels|
    requires p.net.channels[c].origin == Link(j)
    ensures AllCarried(f, p.net.channels[c].dst + 1, s.g.queue[c])
  {
    PlanFacts(p, j);
    hide *;
    var d := OutOfRouter(p, j, c);
    RouterSent(p, s, f, j, d);
    TailCarried(f, p.switches[j - p.hosts].ixToId[d], s.actors[j].o.queues[d], s.g.queue[c]);
  }

  lemma ServerLink(p: Plan, s: Sim, f: Field, c: nat, j: nat)
    requires Planned(p) && Sized(p.net, s.g) && |s.actors| == |p.parts|
    requires j < p.hosts && j < |p.parts| && ActorOk(p, s, f, j) && c < |p.net.channels|
    requires p.net.channels[c].origin == Link(j)
    ensures AllCarried(f, p.net.channels[c].dst + 1, s.g.queue[c])
  {
    PlanFacts(p, j);
    hide Planned, AllCarried, EndsWith, Holds, Ports, Traffic.OwnFlows;
    TailCarried(f, p.topology[j + 1][0], s.actors[j].x.torQueue, s.g.queue[c]);
  }

  /** Every link holds only what is on its way. */
  lemma LinkCarries(p: Plan, s: Sim, c: nat, j: nat)
    requires Core(p, s) && c < |p.net.channels| && p.net.channels[c].origin == Link(j)
    ensures Sized(p.net, s.g) && p.hosts <= |s.actors|
    ensures AllCarried(FieldOf(p, s), p.net.channels[c].dst + 1, s.g.queue[c])
  {
    CoreChannel(p, s, c);
    CoreNet(p, s);
    hide Core, ActorOk, AllCarried, FieldOf, Heard, Planned, Sized;
    CoreActor(p, s, j);
    if j < p.hosts {
      ServerLink(p, s, FieldOf(p, s), c, j);
    } else {
      RouterLink(p, s, FieldOf(p, s), c, j);
    }
  }

  lemma CoreNet(p: Plan, s: Sim)
    requires Core(p, s)
    ensures p.net.actors == |p.parts|
  {
    hide ActorOk, FieldOf, Heard;
  }

  // What an actor finds in its merger

  /** What a channel may bring to actor `i`. */
  ghost predicate Brings(p: Plan, f: Field, i: nat, origin: Origin, e: EventType<NetworkEvent>) {
    match origin
    case Link(_) => Carried(f, i + 1, e)
    case World => Scheduled(p, i, e)
    case Self(_) => e.ModelEvent? ==> e.model.Timeout?
  }

  lemma BroughtToRouter(p: Plan, f: Field, i: nat, origin: Origin, e: EventType<NetworkEvent>)
    requires p.hosts <= i && !origin.Self? && Brings(p, f, i, origin, e)
    ensures ForRouter(f, e)
  {
  }

  lemma BroughtToServer(p: Plan, f: Field, i: nat, origin: Origin, e: EventType<NetworkEvent>)
    requires i < p.hosts == f.hosts && Brings(p, f, i, origin, e)
    ensures ForServer(f, i + 1, e)
  {
  }

  /** All that is in channel `c`, queued or current, may be brought. */
  ghost predicate ChannelBrings(p: Plan, g: Global<NetworkEvent>, f: Field, i: nat, c: nat)
    requires c < |p.net.channels| && c < |g.queue| && c < |g.curr|
  {
    && (forall k :: 0 <= k < |g.queue[c]| ==> Brings(p, f, i, p.net.channels[c].origin, g.queue[c][k].eventType))
    && (Visible(g.curr[c]) ==> Brings(p, f, i, p.net.channels[c].origin, g.curr[c].eventType))
  }

  /** What comes to an actor from others and from the world. */
  lemma OthersBring(p: Plan, s: Sim, c: nat)
    requires Core(p, s) && c < |p.net.channels| && !p.net.channels[c].origin.Self?
    ensures Sized(p.net, s.g) && p.hosts <= |s.actors|
    ensures ChannelBrings(p, s.g, FieldOf(p, s), p.net.channels[c].dst, c)
  {
    CoreChannel(p, s, c);
    hide Core, Carried, FieldOf, Scheduled;
    if p.net.channels[c].origin.Link? {
      LinkCarries(p, s, c, p.net.channels[c].origin.sender);
    }
  }

  /** Whatever comes to actor `i`, over any channel, is `ok`. */
  ghost predicate Admits(p: Plan, f: Field, i: nat, ok: EventType<NetworkEvent> -> bool) {
    forall c, e :: 0 <= c < |p.net.channels| && p.net.channels[c].dst == i ==>
      Brings(p, f, i, p.net.channels[c].origin, e) ==> ok(e)
  }

  /** All channels to actor `i` bring what they may. */
  ghost predicate AllBring(p: Plan, g: Global<NetworkEvent>, f: Field, i: nat)
    requires Sized(p.net, g)
  {
    forall c :: 0 <= c < |p.net.channels| && p.net.channels[c].dst == i ==> ChannelBrings(p, g, f, i, c)
  }

  lemma InboxIs(p: Plan, g: Global<NetworkEvent>, f: Field, i: nat, w: nat, ok: EventType<NetworkEvent> -> bool)
    requires i < |p.parts| && Sized(p.net, g) && Ports(p.net, i, p.parts[i].ports)
    requires AllBring(p, g, f, i) && Admits(p, f, i, ok)
    ensures MergerSpec.AllWaiting(MergerOf(p, g, i, w), ok)
  {
    hide Brings;
    var ports := p.parts[i].ports;
    var m := MergerOf(p, g, i, w);
    forall k | 0 <= k < |ports|
      ensures forall j :: 0 <= j < |m.queues[k]| ==> ok(m.queues[k][j].eventType)
      ensures Visible(m.curr[k]) ==> ok(m.curr[k].eventType)
    {
      assert ChannelBrings(p, g, f, i, ports[k]);
    }
  }

  /** A router finds packets it has to forward, nulls and Close. */
  lemma RouterInbox(p: Plan, s: Sim, i: nat)
    requires Core(p, s) && p.hosts <= i < |p.parts|
    ensures p.hosts <= |s.actors| && i < |s.actors|
    ensures MergerSpec.AllWaiting(MergerOf(p, s.g, i, s.actors[i].w), ForRouters(FieldOf(p, s)))
  {
    var f := FieldOf(p, s);
    CoreActor(p, s, i);
    PlanFacts(p, i);
    hide Core, ActorOk, Planned, Brings, ForRouter, FieldOf, ChannelBrings;
    forall c | 0 <= c < |p.net.channels| && p.net.channels[c].dst == i
      ensures ChannelBrings(p, s.g, f, i, c)
    {
      NotItself(p, s, i, c);
      OthersBring(p, s, c);
    }
    forall c, e | 0 <= c < |p.net.channels| && p.net.channels[c].dst == i
                  && Brings(p, f, i, p.net.channels[c].origin, e)
      ensures ForRouters(f)(e)
    {
      NotItself(p, s, i, c);
      BroughtToRouter(p, f, i, p.net.channels[c].origin, e);
    }
    InboxIs(p, s.g, f, i, s.actors[i].w, ForRouters(f));
  }

  /** Routers send nothing to themselves. */
  lemma NotItself(p: Plan, s: Sim, i: nat, c: nat)
    requires Core(p, s) && p.hosts <= i < |p.parts| && c < |p.net.channels| && p.net.channels[c].dst == i
    ensures !p.net.channels[c].origin.Self?
  {
    CoreChannel(p, s, c);
    PlanFacts(p, i);
    hide Core, Planned;
  }

  /** To itself a server that is ready has sent timeouts only. */
  lemma SelfBrings(p: Plan, g: Global<NetworkEvent>, f: Field, i: nat, a: Actor)
    requires i < |p.parts| && p.parts[i].ServerPart? && ServerPlanned(p, i) && Sized(p.net, g) && ReadyAt(p, g, i, a)
    ensures ChannelBrings(p, g, f, i, p.parts[i].ports[0])
  {
    hide Timers.TimersInv, Links.LinkClock, ServerLoop.NeighbourFeed, MergerSpec.LeastIn;
  }

  lemma ServerInbox(p: Plan, s: Sim, i: nat)
    requires Core(p, s) && i < p.hosts && i < |p.parts| && i < |s.actors| && ReadyAt(p, s.g, i, s.actors[i])
    ensures MergerSpec.AllWaiting(MergerOf(p, s.g, i, s.actors[i].w), ForServers(FieldOf(p, s), i + 1))
  {
    var f := FieldOf(p, s);
    CoreActor(p, s, i);
    PlanFacts(p, i);
    SelfBrings(p, s.g, f, i, s.actors[i]);
    hide Core, ActorOk, Planned, Brings, ForServer, FlowsOf, ChannelBrings, ReadyAt;
    forall c | 0 <= c < |p.net.channels| && p.net.channels[c].dst == i
      ensures ChannelBrings(p, s.g, f, i, c)
    {
      CoreChannel(p, s, c);
      if !p.net.channels[c].origin.Self? {
        OthersBring(p, s, c);
      }
    }
    forall c, e | 0 <= c < |p.net.channels| && p.net.channels[c].dst == i
                  && Brings(p, f, i, p.net.channels[c].origin, e)
      ensures ForServers(f, i + 1)(e)
    {
      BroughtToServer(p, f, i, p.net.channels[c].origin, e);
    }
    InboxIs(p, s.g, f, i, s.actors[i].w, ForServers(f, i + 1));
  }

  // What a call sends

  /** The flows after actor `i` has been called. */
  lemma FieldNow(p: Plan, s: Sim, s': Sim, i: nat)
    requires p.hosts <= |s.actors| == |s'.actors| && i < |s.actors| && s'.actors == s.actors[i := s'.actors[i]]
    ensures i < p.hosts && s'.actors[i].ServerAt? ==> FieldOf(p, s') == Now(FieldOf(p, s), i + 1, s'.actors[i].x.flows)
    ensures p.hosts <= i ==> FieldOf(p, s') == FieldOf(p, s)
  {
    var flows, flows' := FlowsOf(p, s), FlowsOf(p, s');
    if p.hosts <= i {
      assert flows' == flows;
    } else if s'.actors[i].ServerAt? {
      assert flows' == flows[i := s'.actors[i].x.flows];
    }
  }

  /** A router that has been called has sent only what is on its way. */
  lemma RouterCallSends(p: Plan, s: Sim, s': Sim, i: nat, turns: seq<Turn<Router.Out>>, ss: seq<Global<NetworkEvent>>)
    requires Core(p, s) && p.hosts <= i < |p.parts| && p.parts[i].RouterPart? && |s'.actors| == |s.actors| == |p.parts|
    requires s'.actors == s.actors[i := s'.actors[i]] && RouterCall(p, s, s', i, turns, ss)
    ensures FieldOf(p, s') == FieldOf(p, s) && Sent(p, FieldOf(p, s'), i, s'.actors[i])
  {
    var f := FieldOf(p, s);
    CoreActor(p, s, i);
    RouterInbox(p, s, i);
    FieldNow(p, s, s', i);
    PlanFacts(p, i);
    SwitchOf(p, f, i);
    RouterSends(p, s, f, i);
    RouterTurns(p, s, s', i, turns, ss);
    hide *;
    var a, a' := s.actors[i], s'.actors[i];
    var sw := p.switches[i - p.hosts];
    RouterCarries(f, i + 1, sw, p.parts[i].router, turns, MergerOf(p, s.g, i, a.w), MergerOf(p, s'.g, i, a'.w), a.o,
                  a'.o);
    SentByRouter(p, f, i, a');
  }

  lemma RouterTurns(p: Plan, s: Sim, s': Sim, i: nat, turns: seq<Turn<Router.Out>>, ss: seq<Global<NetworkEvent>>)
    requires i < |p.parts| && p.parts[i].RouterPart? && i < |s.actors| && i < |s'.actors|
    requires RouterCall(p, s, s', i, turns, ss)
    ensures s.actors[i].RouterAt? && s'.actors[i].RouterAt?
    ensures Turns(Router.Answers(p.parts[i].router), turns, MergerOf(p, s.g, i, s.actors[i].w),
                  MergerOf(p, s'.g, i, s'.actors[i].w),
                  s.actors[i].o, s'.actors[i].o)
  {
    hide Turns, Leads, Ended, MergerOf, Router.Ready;
  }

  lemma RouterSends(p: Plan, s: Sim, f: Field, i: nat)
    requires p.hosts <= i < |p.parts| && i < |s.actors| && ActorOk(p, s, f, i) && s.actors[i].RouterAt?
    ensures i - p.hosts < |p.switches| && LinksCarry(f, p.switches[i - p.hosts], s.actors[i].o)
  {
    hide Placed, LinksCarry;
  }

  lemma SentByRouter(p: Plan, f: Field, i: nat, a: Actor)
    requires p.hosts <= i < |p.parts| && a.RouterAt? && i - p.hosts < |p.switches|
    requires LinksCarry(f, p.switches[i - p.hosts], a.o)
    ensures Sent(p, f, i, a)
  {
    hide LinksCarry;
  }

  lemma SwitchOf(p: Plan, f: Field, i: nat)
    requires Planned(p) && p.hosts <= i < |p.parts| && f.net == p.topology && f.hosts == p.hosts
    ensures i - p.hosts < |p.switches| && p.parts[i].RouterPart?
    ensures Switches(f, i + 1, p.switches[i - p.hosts], p.parts[i].router)
  {
    hide *;
    PlanFacts(p, i);
    PlanSwitched(p);
    RouterBuiltFor(p, i);
    Traffic.SwitchAt(p.topology, p.hosts, p.switches, i - p.hosts);
    Switching(f, i + 1, p.switches[i - p.hosts], p.parts[i].router);
  }

  lemma Switching(f: Field, r: nat, sw: Switch, cfg: Router.Config)
    requires Fabric(f.net, f.hosts) && Built(f.net, r, sw) && f.hosts < r && cfg.route == sw.route && cfg.bandwidth > 0
    ensures Switches(f, r, sw, cfg)
  {
    hide Fabric, Built;
  }

  lemma RouterBuiltFor(p: Plan, i: nat)
    requires p.hosts <= i < |p.parts| && i - p.hosts < |p.switches| && p.parts[i].RouterPart? && RouterPlanned(p, i)
    ensures var cfg := p.parts[i].router;
            cfg.bandwidth > 0 && cfg.route == p.switches[i - p.hosts].route && cfg.id == i + 1
  {
    hide Ports, RouterSteps.Feeds;
  }

  lemma PlanSwitched(p: Plan)
    requires Planned(p)
    ensures Traffic.Switched(p.topology, p.hosts, p.switches)
  {
    hide RouterPlanned, ServerPlanned, NetOk, Traffic.Switched;
  }

  /** A server that has been called has sent only what is on its way. */
  lemma ServerCallSends(p: Plan, s: Sim, s': Sim, i: nat, turns: seq<Turn<Server.Snapshot>>,
                        ss: seq<Global<NetworkEvent>>)
    requires Core(p, s) && i < p.hosts && i < |p.parts| && p.parts[i].ServerPart?
    requires |s'.actors| == |s.actors| == |p.parts|
    requires ReadyAt(p, s.g, i, s.actors[i])
    requires s'.actors == s.actors[i := s'.actors[i]] && ServerCall(p, s, s', i, turns, ss)
    ensures Grows(FieldOf(p, s), FieldOf(p, s')) && Sent(p, FieldOf(p, s'), i, s'.actors[i])
  {
    var f := FieldOf(p, s);
    CoreActor(p, s, i);
    ServerInbox(p, s, i);
    FieldNow(p, s, s', i);
    PlanFacts(p, i);
    RackOf(p, s, i);
    hide Core, Planned, Placed, FlowsOf, MergerSpec.AllWaiting, Turns, Ended, Leads, Server.Grown, AllCarried,
         ServerLoop.Ready,
         Traffic.OwnFlows, ReadyAt;
    var ServerPart(cfg, ports, tor) := p.parts[i];
    var a, a' := s.actors[i], s'.actors[i];
    ServerCarries(f, i + 1, cfg, turns, MergerOf(p, s.g, i, a.w), MergerOf(p, s'.g, i, a'.w), a.x, a'.x);
    NowGrows(f, i + 1, a'.x.flows);
  }

  lemma RackOf(p: Plan, s: Sim, i: nat)
    requires Core(p, s) && i < p.hosts && i < |p.parts| && i < |s.actors| && s.actors[i].ServerAt?
    ensures RackCarries(FieldOf(p, s), i + 1, s.actors[i].x)
  {
    CoreActor(p, s, i);
    PlanFacts(p, i);
    Traffic.RackIsSwitch(p.topology, p.hosts, p.switches, i + 1);
    var flows := s.actors[i].x.flows;
    assert Server.Grown(flows, flows);
    var f := FieldOf(p, s);
    assert f.servers[i := flows] == f.servers;
    hide Core, Planned, Placed, AllCarried, Traffic.OwnFlows, Server.Grown, FlowsOf;
  }

  // What a call does

  /** Actor `i` has gone its way to where it is in its place again, ready for the next call unless it is done. */
  ghost predicate CallDoes(p: Plan, s: Sim, s': Sim, i: nat, ss: seq<Global<NetworkEvent>>)
    requires p.hosts <= |s.actors| == |s'.actors| == |p.parts| && i < |p.parts|
  {
    && ss != [] && Path(p.net, ss, i) && ss[0] == s.g && ss[|ss| - 1] == s'.g
    && i < |s.g.phase| == |s'.g.phase| && s'.g.phase == s.g.phase[i := s'.g.phase[i]] && s'.g.phase[i] != Deciding
    && Placed(p, s'.g, i, s'.actors[i])
    && Grows(FieldOf(p, s), FieldOf(p, s')) && Sent(p, FieldOf(p, s'), i, s'.actors[i])
    && (s'.g.phase[i] == Phase.Ready ==> ReadyAt(p, s'.g, i, s'.actors[i]))
  }

  lemma RouterCallDoes(p: Plan, s: Sim, s': Sim, i: nat, turns: seq<Turn<Router.Out>>, ss: seq<Global<NetworkEvent>>)
    requires Core(p, s) && p.hosts <= i < |p.parts| && p.parts[i].RouterPart? && |s'.actors| == |s.actors| == |p.parts|
    requires s'.actors == s.actors[i := s'.actors[i]] && RouterCall(p, s, s', i, turns, ss)
    ensures CallDoes(p, s, s', i, ss)
  {
    RouterCallSends(p, s, s', i, turns, ss);
    FieldSame(FieldOf(p, s));
    RouterCallLeads(p, s, s', i, turns, ss);
    hide Core, RouterCall, Placed, Sent, ReadyAt, Grows, FieldOf, Path;
  }

  lemma FieldSame(f: Field)
    ensures Grows(f, f)
  {
  }

  lemma RouterCallLeads(p: Plan, s: Sim, s': Sim, i: nat, turns: seq<Turn<Router.Out>>, ss: seq<Global<NetworkEvent>>)
    requires i < |p.parts| && p.parts[i].RouterPart? && i < |s.actors| && i < |s'.actors|
    requires RouterCall(p, s, s', i, turns, ss)
    ensures ss != [] && Path(p.net, ss, i) && ss[0] == s.g && ss[|ss| - 1] == s'.g
    ensures i < |s.g.phase| == |s'.g.phase| && s'.g.phase == s.g.phase[i := s'.g.phase[i]] && s'.g.phase[i] != Deciding
    ensures Placed(p, s'.g, i, s'.actors[i]) && (s'.g.phase[i] == Phase.Ready ==> ReadyAt(p, s'.g, i, s'.actors[i]))
  {
    hide Turns, MergerOf, Router.Ready, Path, RouterSteps.Plays, Stall;
  }

  lemma ServerCallDoes(p: Plan, s: Sim, s': Sim, i: nat, turns: seq<Turn<Server.Snapshot>>,
                       ss: seq<Global<NetworkEvent>>)
    requires Core(p, s) && i < p.hosts && i < |p.parts| && p.parts[i].ServerPart?
    requires |s'.actors| == |s.actors| == |p.parts|
    requires ReadyAt(p, s.g, i, s.actors[i])
    requires s'.actors == s.actors[i := s'.actors[i]] && ServerCall(p, s, s', i, turns, ss)
    ensures CallDoes(p, s, s', i, ss)
  {
    ServerCallSends(p, s, s', i, turns, ss);
    ServerCallLeads(p, s, s', i, turns, ss);
    hide Core, ServerCall, Placed, Sent, ReadyAt, Grows, FieldOf, Path;
  }

  lemma ServerCallLeads(p: Plan, s: Sim, s': Sim, i: nat, turns: seq<Turn<Server.Snapshot>>,
                        ss: seq<Global<NetworkEvent>>)
    requires i < |p.parts| && p.parts[i].ServerPart? && i < |s.actors| && i < |s'.actors|
    requires ServerCall(p, s, s', i, turns, ss)
    ensures ss != [] && Path(p.net, ss, i) && ss[0] == s.g && ss[|ss| - 1] == s'.g
    ensures i < |s.g.phase| == |s'.g.phase| && s'.g.phase == s.g.phase[i := s'.g.phase[i]] && s'.g.phase[i] != Deciding
    ensures Placed(p, s'.g, i, s'.actors[i]) && (s'.g.phase[i] == Phase.Ready ==> ReadyAt(p, s'.g, i, s'.actors[i]))
  {
    hide Turns, MergerOf, ServerLoop.Ready, Path, ServerSteps.Plays, Stall;
  }

  lemma CalledDoes(p: Plan, s: Sim, s': Sim, i: nat, ss: seq<Global<NetworkEvent>>)
    requires Simulation.Inv(p, s) && Called(p, s, s', i, ss)
    ensures Core(p, s) && p.hosts <= |s.actors| == |s'.actors| == |p.parts| && i < |p.parts|
    ensures CallDoes(p, s, s', i, ss)
  {
    CoreActor(p, s, i);
    PlanFacts(p, i);
    hide Core, ReadyAt, RouterCall, ServerCall, CallDoes, Placed, Sent;
    if i < p.hosts {
      var turns :| ServerCall(p, s, s', i, turns, ss);
      ServerCallDoes(p, s, s', i, turns, ss);
    } else {
      var turns :| RouterCall(p, s, s', i, turns, ss);
      RouterCallDoes(p, s, s', i, turns, ss);
    }
  }

  // What the others have meanwhile

  lemma SparedPlace(p: Plan, g: Global<NetworkEvent>, g': Global<NetworkEvent>, j: nat, a: Actor)
    requires j < |p.parts| && Placed(p, g, j, a) && Spared(p.net, g, g', j)
    ensures Placed(p, g', j, a) && j < |g.phase| && j < |g'.phase| && g'.phase[j] == g.phase[j]
  {
    match p.parts[j] {
      case RouterPart(cfg, ports, outs) =>
        RouterSteps.OthersKeepPlace(p.net, g, g', j, cfg, ports, outs, MergerOf(p, g, j, a.w), a.o);
      case ServerPart(cfg, ports, tor) =>
        ServerSteps.OthersKeepPlace(p.net, g, g', j, cfg, ports, tor, MergerOf(p, g, j, a.w), a.x);
    }
  }

  lemma SentStill(p: Plan, f: Field, f': Field, j: nat, a: Actor)
    requires j < |p.parts| && Sent(p, f, j, a) && Grows(f, f')
    requires a.ServerAt? && j < |f'.servers| ==> f'.servers[j] == a.x.flows
    ensures Sent(p, f', j, a)
  {
    hide AllCarried, Server.Grown;
    if a.ServerAt? {
      AllCarriedStill(f, f', p.topology[j + 1][0], a.x.torQueue);
    } else {
      var sw := p.switches[j - p.hosts];
      forall d | 0 <= d < |a.o.queues|
        ensures AllCarried(f', sw.ixToId[d], a.o.queues[d])
      {
        AllCarriedStill(f, f', sw.ixToId[d], a.o.queues[d]);
      }
    }
  }

  /** What a link's receiver hears is carried still: if anything is new, the link held it. */
  lemma LinkHeard(f: Field, f': Field, at: nat, q: seq<ModelEvent>, e: ModelEvent, q': seq<ModelEvent>, e': ModelEvent)
    requires AllCarried(f, at, q) && (Visible(e) ==> Carried(f, at, e.eventType)) && Grows(f, f') && Taken(q, e, q', e')
    ensures Visible(e') ==> Carried(f', at, e'.eventType)
  {
    if Visible(e') {
      hide Carried, Grows, EndsWith;
      assert Carried(f, at, e'.eventType);
      CarriedStill(f, f', at, e'.eventType);
    }
  }

  /** What the world has scheduled is taken in turn. */
  lemma WorldHeard(p: Plan, dst: nat, q: seq<ModelEvent>, e: ModelEvent, q': seq<ModelEvent>, e': ModelEvent)
    requires Taken(q, e, q', e') && (Visible(e) ==> Scheduled(p, dst, e.eventType))
    requires forall k :: 0 <= k < |q| ==> Scheduled(p, dst, q[k].eventType)
    ensures Visible(e') ==> Scheduled(p, dst, e'.eventType)
    ensures forall k :: 0 <= k < |q'| ==> Scheduled(p, dst, q'[k].eventType)
  {
    hide Scheduled;
    forall k | 0 <= k < |q'|
      ensures Scheduled(p, dst, q'[k].eventType)
    {
      assert q'[k] == q[|q| - |q'|..][k] == q[|q| - |q'| + k];
    }
  }

  /** No link leads back to the actor that feeds it. */
  lemma LinkLeadsAway(p: Plan, s: Sim, i: nat, c: nat)
    requires Core(p, s) && i < |p.parts| && c < |p.net.channels| && p.net.channels[c].origin == Link(i)
    ensures p.net.channels[c].dst != i
  {
    PlanFacts(p, i);
    hide Core, Planned;
    CoreActor(p, s, i);
    hide ActorOk;
  }

  lemma CurrKept(net: Net, g: Global<NetworkEvent>, g': Global<NetworkEvent>, i: nat, c: nat)
    requires Spared(net, g, g', i) && c < |net.channels| && net.channels[c].dst == i
    ensures g'.curr[c] == g.curr[c]
  {
  }

  /** After a call every actor hears only what may come. */
  lemma HeardStill(p: Plan, s: Sim, s': Sim, i: nat, ss: seq<Global<NetworkEvent>>, c: nat)
    requires Core(p, s) && p.hosts <= |s.actors| == |s'.actors| == |p.parts| && i < |p.parts|
    requires CallDoes(p, s, s', i, ss)
    requires c < |p.net.channels| && Sized(p.net, s'.g)
    ensures Heard(p, s'.g, FieldOf(p, s'), c)
  {
    hide Core, Placed, Sent, ReadyAt, FieldOf, Grows, Path, Taken, Carried, Scheduled, AllCarried, Sized;
    CoreChannel(p, s, c);
    CorePlan(p, s);
    Sizes(p, s'.g);
    if p.net.channels[c].origin == Link(i) {
      OwnHeard(p, s, s', i, ss, c);
    } else if !p.net.channels[c].origin.Self? {
      var f, f', dst := FieldOf(p, s), FieldOf(p, s'), p.net.channels[c].dst;
      PathTakes(p.net, ss, i, c);
      if p.net.channels[c].origin.World? {
        WorldHeard(p, dst, s.g.queue[c], s.g.curr[c], s'.g.queue[c], s'.g.curr[c]);
      } else {
        LinkCarries(p, s, c, p.net.channels[c].origin.sender);
        LinkHeard(f, f', dst + 1, s.g.queue[c], s.g.curr[c], s'.g.queue[c], s'.g.curr[c]);
      }
    }
  }

  /** What the receiver of its links has heard is not touched by the actor itself. */
  lemma OwnHeard(p: Plan, s: Sim, s': Sim, i: nat, ss: seq<Global<NetworkEvent>>, c: nat)
    requires Core(p, s) && p.hosts <= |s.actors| == |s'.actors| == |p.parts| && i < |p.parts|
    requires CallDoes(p, s, s', i, ss)
    requires c < |p.net.channels| && Sized(p.net, s'.g) && p.net.channels[c].origin == Link(i)
    ensures Heard(p, s'.g, FieldOf(p, s'), c)
  {
    hide Core, Placed, Sent, ReadyAt, FieldOf, Grows, Path, Carried, Sized;
    CoreChannel(p, s, c);
    CorePlan(p, s);
    CoreNet(p, s);
    Sizes(p, s'.g);
    var dst := p.net.channels[c].dst;
    LinkLeadsAway(p, s, i, c);
    PathSpares(p.net, ss, i, dst);
    CurrKept(p.net, s.g, s'.g, dst, c);
    if Visible(s'.g.curr[c]) {
      CarriedStill(FieldOf(p, s), FieldOf(p, s'), dst + 1, s'.g.curr[c].eventType);
    }
  }

  lemma CorePlan(p: Plan, s: Sim)
    requires Core(p, s)
    ensures Protocol.Inv(p.net, s.g) && Sized(p.net, s.g) && |s.g.queue| == |s.g.curr| == |p.net.channels|
    ensures forall c :: 0 <= c < |p.net.channels| ==> ChannelOk(p.net, p.net.channels[c])
  {
    hide ActorOk, FieldOf, Heard;
    InvChannels(p.net, s.g);
  }

  /** The actor that was called is in its place again. */
  lemma CalledOk(p: Plan, s: Sim, s': Sim, i: nat, ss: seq<Global<NetworkEvent>>)
    requires p.hosts <= |s.actors| == |s'.actors| == |p.parts| && i < |p.parts| && CallDoes(p, s, s', i, ss)
    ensures ActorOk(p, s', FieldOf(p, s'), i)
  {
    hide Placed, Sent, ReadyAt, Grows, FieldOf, Path;
  }

  /** So is every other. */
  lemma OtherOk(p: Plan, s: Sim, s': Sim, i: nat, ss: seq<Global<NetworkEvent>>, j: nat)
    requires Core(p, s) && p.hosts <= |s.actors| == |s'.actors| == |p.parts| && i < |p.parts|
    requires CallDoes(p, s, s', i, ss)
    requires j < |p.parts| && j != i && s'.actors[j] == s.actors[j]
    ensures ActorOk(p, s', FieldOf(p, s'), j) && s'.g.phase[j] == s.g.phase[j] && Spared(p.net, s.g, s'.g, j)
  {
    CoreActor(p, s, j);
    CorePlan(p, s);
    hide Core, Placed, Sent, ReadyAt, Grows, Path, Sized, Spared, Planned;
    PathSpares(p.net, ss, i, j);
    SparedPlace(p, s.g, s'.g, j, s.actors[j]);
    SentStill(p, FieldOf(p, s), FieldOf(p, s'), j, s.actors[j]);
  }

  /** A call leaves everybody in place, and whatever is in the channels on its way. */
  lemma CallCore(p: Plan, s: Sim, s': Sim, i: nat, ss: seq<Global<NetworkEvent>>)
    requires Core(p, s) && p.hosts <= |s.actors| == |s'.actors| == |p.parts| && i < |p.parts|
    requires CallDoes(p, s, s', i, ss)
    requires s'.actors == s.actors[i := s'.actors[i]]
    ensures Core(p, s')
  {
    CorePlan(p, s);
    PathEnds(p, s, s', i, ss);
    PlanOf(p, s);
    hide Core, ActorOk, CallDoes, Heard, FieldOf, Planned, Protocol.Inv, Sized;
    forall j | 0 <= j < |s'.actors|
      ensures ActorOk(p, s', FieldOf(p, s'), j)
    {
      if j == i {
        CalledOk(p, s, s', i, ss);
      } else {
        OtherOk(p, s, s', i, ss, j);
      }
    }
    forall c | 0 <= c < |p.net.channels|
      ensures c < |s'.g.curr| && c < |s'.g.queue| && Heard(p, s'.g, FieldOf(p, s'), c)
    {
      HeardStill(p, s, s', i, ss, c);
    }
    CoreSo(p, s');
  }

  lemma CoreSo(p: Plan, s: Sim)
    requires Planned(p) && Protocol.Inv(p.net, s.g) && |s.actors| == |p.parts| && p.hosts <= |s.actors|
    requires forall i :: 0 <= i < |s.actors| ==> ActorOk(p, s, FieldOf(p, s), i)
    requires forall c :: 0 <= c < |p.net.channels| ==>
        c < |s.g.curr| && c < |s.g.queue| && Heard(p, s.g, FieldOf(p, s), c)
    ensures Core(p, s)
  {
    hide ActorOk, FieldOf, Heard, Planned;
  }

  lemma PlanOf(p: Plan, s: Sim)
    requires Core(p, s)
    ensures Planned(p)
  {
    hide ActorOk, FieldOf, Heard, Planned, Protocol.Inv;
  }

  lemma PathEnds(p: Plan, s: Sim, s': Sim, i: nat, ss: seq<Global<NetworkEvent>>)
    requires Core(p, s) && p.hosts <= |s.actors| == |s'.actors| == |p.parts| && i < |p.parts|
    requires CallDoes(p, s, s', i, ss)
    ensures Protocol.Inv(p.net, s'.g) && Sized(p.net, s'.g) && |s'.g.queue| == |s'.g.curr| == |p.net.channels|
  {
    CorePlan(p, s);
    hide Core, Placed, Sent, ReadyAt, FieldOf, Grows, Path, Protocol.Inv, Sized;
    PathInv(p.net, ss, i);
    InvChannels(p.net, s'.g);
    Sizes(p, s'.g);
  }

  lemma Sizes(p: Plan, g: Global<NetworkEvent>)
    requires Sized(p.net, g)
    ensures |g.queue| == |g.curr| == |p.net.channels|
  {
  }

  // Ready for the next call

  lemma RoutedStill(f: Field, r: nat, sw: Switch, cfg: Router.Config, e: EventType<NetworkEvent>)
    requires Switches(f, r, sw, cfg) && ForRouter(f, e)
    ensures Router.Routed(cfg.route, e)
  {
    hide Fabric, Built, Traffic.Known;
    if e.ModelEvent? {
      ForwardingGoesOn(f.net, f.hosts, r, sw, e.model.packet.dst);
    }
  }

  lemma AllRouted(f: Field, r: nat, sw: Switch, cfg: Router.Config, m: MergerSpec.MState<NetworkEvent>)
    requires Switches(f, r, sw, cfg) && MergerSpec.AllWaiting(m, ForRouters(f))
    ensures MergerSpec.AllWaiting(m, Router.RoutedBy(cfg.route))
  {
    forall e | ForRouter(f, e)
      ensures Router.Routed(cfg.route, e)
    {
      RoutedStill(f, r, sw, cfg, e);
    }
    hide Switches, ForRouter, Router.Routed;
  }

  /** A router's merger holds nothing it has no route for. */
  lemma RouterRouted(p: Plan, s: Sim, j: nat)
    requires Core(p, s) && p.hosts <= j < |p.parts|
    ensures p.parts[j].RouterPart? && j < |s.actors|
    ensures MergerSpec.AllWaiting(MergerOf(p, s.g, j, s.actors[j].w), Router.RoutedBy(p.parts[j].router.route))
  {
    hide Core, MergerOf, MergerSpec.AllWaiting, Planned, RouterPlanned, Switches, ActorOk;
    RouterInbox(p, s, j);
    PlanOf(p, s);
    PlanFacts(p, j);
    CoreActor(p, s, j);
    SwitchOf(p, FieldOf(p, s), j);
    AllRouted(FieldOf(p, s), j + 1, p.switches[j - p.hosts], p.parts[j].router, MergerOf(p, s.g, j, s.actors[j].w));
  }

  /** A router can be called whatever has come in. */
  lemma RouterReady(p: Plan, s: Sim, g: Global<NetworkEvent>, j: nat)
    requires Core(p, s) && p.hosts <= j < |p.parts| && j < |s.actors| && ReadyAt(p, g, j, s.actors[j])
    ensures ReadyAt(p, s.g, j, s.actors[j])
  {
    RouterRouted(p, s, j);
    hide Core, MergerOf, MergerSpec.AllWaiting, Links.LinkClock;
  }

  /** Links and the world keep what they bring in order, but for Close. */
  lemma ChannelInTime(net: Net, g: Global<NetworkEvent>, c: nat, k: nat)
    requires Protocol.Inv(net, g) && c < |net.channels| && !net.channels[c].origin.Self?
    ensures c < |g.curr| && c < |g.queue| && ServerLoop.InTime([g.curr[c].(src := k)] + g.queue[c])
  {
    assert ChannelInv(net, g, c);
    var st, st' := Stream(g, c), [g.curr[c].(src := k)] + g.queue[c];
    hide Protocol.Inv;
    forall a, b | 0 <= a < b < |st'| && !st'[b].eventType.Close?
      ensures st'[a].time <= st'[b].time
    {
      assert st'[a].time == st[a].time && st'[b] == st[b];
      if b < |st| - 1 {
        assert st[a] == st[..|st| - 1][a] && st[b] == st[..|st| - 1][b];
      }
    }
  }

  lemma BroughtFits(p: Plan, f: Field, j: nat, origin: Origin, e: EventType<NetworkEvent>)
    requires j < p.hosts == f.hosts && !origin.Self? && Brings(p, f, j, origin, e)
    ensures j < |f.servers| ==> ServerLoop.Fits(e, f.servers[j])
  {
  }

  /** What waits in a server's merger from the rack or the world, on queue `k`. */
  lemma NeighbourReady(p: Plan, s: Sim, j: nat, ports: seq<nat>, k: nat)
    requires Core(p, s) && j < p.hosts && j < |p.parts| && p.parts[j].ServerPart? && p.parts[j].ports == ports
    requires p.hosts <= |s.actors| && s.actors[j].ServerAt? && Sized(p.net, s.g) && Ports(p.net, j, ports)
    requires k < |ports|
    requires ports[k] < |p.net.channels| && !p.net.channels[ports[k]].origin.Self?
    ensures var m := MergerOf(p, s.g, j, s.actors[j].w);
            ServerLoop.NeighbourFeed(m.curr[k], m.queues[k], s.actors[j].x.flows)
  {
    var f, m, c := FieldOf(p, s), MergerOf(p, s.g, j, s.actors[j].w), ports[k];
    CorePlan(p, s);
    OthersBring(p, s, c);
    ChannelInTime(p.net, s.g, c, k);
    var origin := p.net.channels[c].origin;
    assert p.net.channels[c].dst == j && f.servers[j] == s.actors[j].x.flows;
    hide Core, Brings, FieldOf, ServerLoop.Fits, Ports, Sized, ServerLoop.InTime;
    if Visible(m.curr[k]) {
      BroughtFits(p, f, j, origin, m.curr[k].eventType);
    }
    forall a | 0 <= a < |m.queues[k]|
      ensures ServerLoop.Fits(m.queues[k][a].eventType, s.actors[j].x.flows)
    {
      BroughtFits(p, f, j, origin, s.g.queue[c][a].eventType);
    }
  }

  /** Of what a server has in its merger, others change only what waits on the queues of its neighbours. */
  lemma MergerSpared(p: Plan, g: Global<NetworkEvent>, g': Global<NetworkEvent>, j: nat, w: nat)
    requires j < |p.parts| && p.parts[j].ServerPart? && ServerPlanned(p, j) && Spared(p.net, g, g', j)
    ensures var m, m' := MergerOf(p, g, j, w), MergerOf(p, g', j, w);
            && m'.curr == m.curr && m'.winner == m.winner && |m'.queues| == |m.queues| == |m.curr| >= 2
            && m'.queues[0] == m.queues[0]
  {
  }

  lemma FeedSo(m: MergerSpec.MState<NetworkEvent>, m': MergerSpec.MState<NetworkEvent>, pending: nat,
               flows: seq<Tcp.FlowState>)
    requires ServerLoop.Feed(m, pending, flows, true) && m'.curr == m.curr && m'.winner == m.winner
    requires |m'.queues| == |m.queues| && m'.queues[0] == m.queues[0]
    requires forall c :: 1 <= c < |m'.curr| ==> ServerLoop.NeighbourFeed(m'.curr[c], m'.queues[c], flows)
    ensures ServerLoop.Feed(m', pending, flows, true) && MergerSpec.Reached(m') == MergerSpec.Reached(m)
  {
    hide ServerLoop.NeighbourFeed;
  }

  /** So can a server. */
  lemma ServerReady(p: Plan, s: Sim, g: Global<NetworkEvent>, j: nat)
    requires Core(p, s) && j < p.hosts && j < |p.parts| && j < |s.actors| && ReadyAt(p, g, j, s.actors[j])
    requires Spared(p.net, g, s.g, j)
    ensures ReadyAt(p, s.g, j, s.actors[j])
  {
    PlanOf(p, s);
    PlanFacts(p, j);
    CorePlan(p, s);
    CoreActor(p, s, j);
    var a := s.actors[j];
    MergerSpared(p, g, s.g, j, a.w);
    var m, m' := MergerOf(p, g, j, a.w), MergerOf(p, s.g, j, a.w);
    var ports := p.parts[j].ports;
    PortsOf(p, j);
    hide Core, Planned, ServerPlanned, MergerOf, ServerLoop.NeighbourFeed, ServerLoop.Feed, Sized, Spared, Ports,
         ActorOk, Timers.TimersInv,
         Links.LinkClock, MergerSpec.Reached;
    forall c | 1 <= c < |m'.curr|
      ensures ServerLoop.NeighbourFeed(m'.curr[c], m'.queues[c], a.x.flows)
    {
      MergerSize(p, s.g, j, a.w);
      NeighbourReady(p, s, j, ports, c);
    }
    FeedSo(m, m', a.x.pending, a.x.flows);
  }

  lemma PortsOf(p: Plan, j: nat)
    requires j < |p.parts| && p.parts[j].ServerPart? && ServerPlanned(p, j)
    ensures var ports := p.parts[j].ports;
            && Ports(p.net, j, ports)
            && forall k :: 1 <= k < |ports| ==>
                 ports[k] < |p.net.channels| && p.net.channels[ports[k]].dst == j && ports[k] != ports[0]
  {
  }

  lemma MergerSize(p: Plan, g: Global<NetworkEvent>, j: nat, w: nat)
    requires j < |p.parts|
    ensures |MergerOf(p, g, j, w).curr| <= |p.parts[j].ports|
  {
  }

  /** A call leaves everybody who is not done ready to be called. */
  lemma CallInv(p: Plan, s: Sim, s': Sim, i: nat, ss: seq<Global<NetworkEvent>>)
    requires Simulation.Inv(p, s) && Called(p, s, s', i, ss)
    ensures Simulation.Inv(p, s')
    ensures ss != [] && Path(p.net, ss, i) && ss[0] == s.g && ss[|ss| - 1] == s'.g
  {
    hide Core, ReadyAt, Path, RouterCall, ServerCall, CallDoes;
    CalledDoes(p, s, s', i, ss);
    CallCore(p, s, s', i, ss);
    CallFacts(p, s, s', i, ss);
    forall j | 0 <= j < |s'.actors| && j < |s'.g.phase| && s'.g.phase[j] == Phase.Ready
      ensures ReadyAt(p, s'.g, j, s'.actors[j])
    {
      if j != i {
        OtherReady(p, s, s', i, ss, j);
      }
    }
  }

  lemma CallFacts(p: Plan, s: Sim, s': Sim, i: nat, ss: seq<Global<NetworkEvent>>)
    requires p.hosts <= |s.actors| == |s'.actors| == |p.parts| && i < |p.parts| && CallDoes(p, s, s', i, ss)
    ensures ss != [] && Path(p.net, ss, i) && ss[0] == s.g && ss[|ss| - 1] == s'.g
    ensures i < |s.g.phase| == |s'.g.phase| && (s'.g.phase[i] == Phase.Ready ==> ReadyAt(p, s'.g, i, s'.actors[i]))
  {
    hide Path, Placed, ReadyAt, Grows, Sent;
  }

  lemma OtherReady(p: Plan, s: Sim, s': Sim, i: nat, ss: seq<Global<NetworkEvent>>, j: nat)
    requires Simulation.Inv(p, s) && Core(p, s') && p.hosts <= |s.actors| == |s'.actors| == |p.parts| && i < |p.parts|
    requires CallDoes(p, s, s', i, ss) && s'.actors == s.actors[i := s'.actors[i]]
    requires j < |p.parts| && j != i && j < |s.g.phase| == |s'.g.phase| && s'.g.phase[j] == Phase.Ready
    ensures ReadyAt(p, s'.g, j, s'.actors[j])
  {
    hide Core, ReadyAt, CallDoes, ActorOk, Spared;
    OtherOk(p, s, s', i, ss, j);
    if j < p.hosts {
      ServerReady(p, s', s.g, j);
    } else {
      RouterReady(p, s', s.g, j);
    }
  }
}
