/** Laying out a simulation: a channel for every link, for every timer and from the world to every actor. */
module Layout {
  import opened Events
  import opened NetworkEvents
  import opened Forwarding
  import opened Graphs
  import opened Protocol
  import opened LocalRounds
  import opened Simulation
  import opened SimulationSteps
  import Tcp
  import Traffic
  import Router
  import Server
  import RouterSteps

  /** The links of actors `0 .. k - 1`, one after the other; `nb[i]` are the ids of actor `i`'s neighbours. */
  ghost function Links(nb: seq<seq<nat>>, k: nat): (links: seq<Channel>)
    requires k <= |nb|
  {
    if k == 0 then [] else Links(nb, k - 1) + LinksOf(nb, k - 1)
  }

  ghost function LinksOf(nb: seq<seq<nat>>, i: nat): (links: seq<Channel>)
    requires i < |nb|
    ensures |links| == |nb[i]| && forall d :: 0 <= d < |nb[i]| ==> links[d] == Channel(Link(i), ActorAt(nb[i][d]))
  {
    seq(|nb[i]|, d requires 0 <= d < |nb[i]| => Channel(Link(i), ActorAt(nb[i][d])))
  }

  /** The actor that is node `id`. */
  ghost function ActorAt(id: nat): nat {
    if id == 0 then 0 else id - 1
  }

  lemma {:induction false} LinkAt(nb: seq<seq<nat>>, k: nat, i: nat, d: nat)
    requires i < k <= |nb| && d < |nb[i]|
    ensures |Links(nb, i)| + d < |Links(nb, k)|
    ensures Links(nb, k)[|Links(nb, i)| + d] == Channel(Link(i), ActorAt(nb[i][d]))
    decreases k
  {
    if i < k - 1 {
      LinkAt(nb, k - 1, i, d);
    }
  }

  lemma {:induction false} LinkIs(nb: seq<seq<nat>>, k: nat, c: nat) returns (i: nat, d: nat)
    requires k <= |nb| && c < |Links(nb, k)|
    ensures i < k && d < |nb[i]| && c == |Links(nb, i)| + d && Links(nb, k)[c] == Channel(Link(i), ActorAt(nb[i][d]))
    decreases k
  {
    if c < |Links(nb, k - 1)| {
      i, d := LinkIs(nb, k - 1, c);
    } else {
      i, d := k - 1, c - |Links(nb, k - 1)|;
    }
  }

  /** The channels into actor `j` among the first `n`. */
  ghost function Into(channels: seq<Channel>, j: nat, n: nat): (ports: seq<nat>)
    requires n <= |channels|
    ensures forall k :: 0 <= k < |ports| ==> ports[k] < n && channels[ports[k]].dst == j
    ensures forall k, l :: 0 <= k < l < |ports| ==> ports[k] < ports[l]
    ensures forall c :: 0 <= c < n && channels[c].dst == j ==> c in ports
  {
    if n == 0 then [] else Into(channels, j, n - 1) + if channels[n - 1].dst == j then [n - 1] else []
  }

  /** First the servers' own channels, then the links, then those from the world. */
  ghost function Channels(hosts: nat, nb: seq<seq<nat>>): (channels: seq<Channel>)
    ensures var l := |Links(nb, |nb|)|;
            && |channels| == hosts + l + |nb|
            && (forall c :: 0 <= c < hosts ==> channels[c] == Channel(Self(c), c))
            && (forall c :: hosts <= c < hosts + l ==> channels[c] == Links(nb, |nb|)[c - hosts])
            && (forall c :: hosts + l <= c < |channels| ==> channels[c] == Channel(World, c - hosts - l))
  {
    seq(hosts, c requires 0 <= c < hosts => Channel(Self(c), c)) + Links(nb, |nb|)
    + seq(|nb|, c requires 0 <= c < |nb| => Channel(World, c))
  }

  /** A channel is one of the three kinds. */
  lemma ChannelIs(hosts: nat, nb: seq<seq<nat>>, c: nat) returns (i: nat, d: nat)
    requires c < |Channels(hosts, nb)|
    ensures var channel := Channels(hosts, nb)[c];
            match channel.origin
            case Self(a) => a == c < hosts && channel.dst == c
            case World => channel.dst < |nb|
            case Link(a) => a == i < |nb| && d < |nb[i]| && c == hosts + |Links(nb, i)| + d
                            && channel.dst == ActorAt(nb[i][d])
  {
    if hosts <= c < hosts + |Links(nb, |nb|)| {
      i, d := LinkIs(nb, |nb|, c - hosts);
    } else {
      i, d := 0, 0;
    }
  }

  lemma ChannelOfLink(hosts: nat, nb: seq<seq<nat>>, i: nat, d: nat)
    requires i < |nb| && d < |nb[i]|
    ensures var c := hosts + |Links(nb, i)| + d;
            c < |Channels(hosts, nb)| && Channels(hosts, nb)[c] == Channel(Link(i), ActorAt(nb[i][d]))
  {
    LinkAt(nb, |nb|, i, d);
  }

  /** The neighbours every actor sends to: a host's rack, and a switch's as its queues are indexed. */
  ghost function Neighbours(net: Network, hosts: nat, switches: seq<Switch>): (nb: seq<seq<nat>>)
    ensures |nb| == hosts + |switches|
    ensures forall i :: 0 <= i < hosts ==> nb[i] == if i + 1 in net then net[i + 1] else []
    ensures forall i :: hosts <= i < |nb| ==> nb[i] == switches[i - hosts].ixToId
  {
    seq(hosts + |switches|, i requires 0 <= i < hosts + |switches| =>
      if i >= hosts then switches[i - hosts].ixToId else if i + 1 in net then net[i + 1] else [])
  }

  ghost function PartOf(hosts: nat, switches: seq<Switch>, nb: seq<seq<nat>>, latency: nat, bandwidth: nat, i: nat)
      : Part
    requires i < |nb| && hosts + |switches| == |nb|
  {
    var channels := Channels(hosts, nb);
    var ports := Into(channels, i, |channels|);
    if i < hosts then ServerPart(Server.Config(i + 1, latency, bandwidth), ports, hosts + |Links(nb, i)|)
    else RouterPart(Router.Config(i + 1, latency, bandwidth, switches[i - hosts].route), ports,
                    seq(|nb[i]|, d => hosts + |Links(nb, i)| + d))
  }

  /** The plan of a network whose switches have been built. */
  ghost function PlanFor(net: Network, hosts: nat, switches: seq<Switch>, latency: nat, bandwidth: nat): (p: Plan)
  {
    var nb := Neighbours(net, hosts, switches);
    Plan(Net(|nb|, seq(|nb|, i => i + 1), Channels(hosts, nb), latency), net, hosts, switches,
         seq(|nb|, i requires 0 <= i < |nb| => PartOf(hosts, switches, nb, latency, bandwidth, i)))
  }

  lemma PartIs(net: Network, hosts: nat, switches: seq<Switch>, latency: nat, bandwidth: nat, i: nat)
    requires i < hosts + |switches|
    ensures var p, nb := PlanFor(net, hosts, switches, latency, bandwidth), Neighbours(net, hosts, switches);
            && |p.parts| == |nb| == p.net.actors && p.parts[i] == PartOf(hosts, switches, nb, latency, bandwidth, i)
            && p.net.channels == Channels(hosts, nb) && IdOf(p.net, i) == i + 1
            && p.net.latency == latency && p.topology == net && p.hosts == hosts && p.switches == switches
  {
  }

  /** A neighbour is another actor. */
  lemma NeighbourOk(net: Network, hosts: nat, switches: seq<Switch>, i: nat, d: nat)
    requires Traffic.Switched(net, hosts, switches) && i < hosts + |switches|
    ensures var nb := Neighbours(net, hosts, switches); i < |nb| == |net| && (i < hosts ==> |nb[i]| == 1)
    ensures var nb := Neighbours(net, hosts, switches); d < |nb[i]| ==>
      nb[i][d] in net && 1 <= nb[i][d] <= |net| && nb[i][d] != i + 1 && nb[i][d] in net[i + 1]
  {
    var nb := Neighbours(net, hosts, switches);
    assert i + 1 in net;
    if i < hosts {
      assert net[i + 1][0] in net[i + 1];
    } else {
      Traffic.SwitchAt(net, hosts, switches, i - hosts);
      assert d < |nb[i]| ==> nb[i][d] in switches[i - hosts].idToIx;
    }
  }

  lemma PlanIs(net: Network, hosts: nat, switches: seq<Switch>, latency: nat, bandwidth: nat)
    ensures var p, nb := PlanFor(net, hosts, switches, latency, bandwidth), Neighbours(net, hosts, switches);
            && p.net.actors == |nb| == |p.parts| && p.net.channels == Channels(hosts, nb) && p.net.latency == latency
            && p.topology == net && p.hosts == hosts && p.switches == switches
  {
  }

  lemma ChannelLaidOut(net: Network, hosts: nat, switches: seq<Switch>, latency: nat, bandwidth: nat, c: nat)
    requires Traffic.Switched(net, hosts, switches)
    ensures var p := PlanFor(net, hosts, switches, latency, bandwidth);
            c < |p.net.channels| ==> ChannelOk(p.net, p.net.channels[c])
  {
    hide Traffic.Switched, Links, ActorAt, PlanFor, Neighbours, Channels;
    PlanIs(net, hosts, switches, latency, bandwidth);
    var nb := Neighbours(net, hosts, switches);
    if c < |Channels(hosts, nb)| {
      var i, d := ChannelIs(hosts, nb, c);
      if Channels(hosts, nb)[c].origin.Link? {
        NeighbourOk(net, hosts, switches, i, d);
        ActorAtIs(nb[i][d]);
      }
    }
  }

  lemma LaidOut(net: Network, hosts: nat, switches: seq<Switch>, latency: nat, bandwidth: nat)
    requires Traffic.Switched(net, hosts, switches) && latency > 0
    ensures NetOk(PlanFor(net, hosts, switches, latency, bandwidth).net)
  {
    hide Traffic.Switched, Links, PlanFor, Neighbours, Channels, ChannelOk;
    PlanIs(net, hosts, switches, latency, bandwidth);
    var nb := Neighbours(net, hosts, switches);
    var p := PlanFor(net, hosts, switches, latency, bandwidth);
    forall c | 0 <= c < |p.net.channels|
      ensures ChannelOk(p.net, p.net.channels[c])
    {
      ChannelLaidOut(net, hosts, switches, latency, bandwidth, c);
    }
    forall i | 0 <= i < p.net.actors
      ensures HearsWorld(p.net, i)
    {
      assert p.net.channels[hosts + |Links(nb, |nb|)| + i] == Channel(World, i);
    }
  }

  lemma PortsOk(net: Net, i: nat)
    ensures Ports(net, i, Into(net.channels, i, |net.channels|))
  {
  }

  lemma TwoPorts(channels: seq<Channel>, i: nat, c: nat, d: nat)
    requires c < |channels| && d < |channels| && c != d && channels[c].dst == channels[d].dst == i
    ensures |Into(channels, i, |channels|)| >= 2
  {
    var ports := Into(channels, i, |channels|);
    assert c in ports && d in ports;
  }

  /** The timers' channel is the first of a server's. */
  lemma OwnFirst(hosts: nat, nb: seq<seq<nat>>, i: nat)
    requires i < hosts
    ensures var channels := Channels(hosts, nb);
            var ports := Into(channels, i, |channels|); ports != [] && ports[0] == i
  {
    var channels := Channels(hosts, nb);
    var ports := Into(channels, i, |channels|);
    assert i in ports;
    assert channels[ports[0]].dst == i;
  }

  lemma RackLaidOut(net: Network, hosts: nat, switches: seq<Switch>, i: nat)
    requires Traffic.Switched(net, hosts, switches) && i < hosts
    ensures var nb := Neighbours(net, hosts, switches);
            var tor := hosts + |Links(nb, i)|;
            && i < |nb| && |nb[i]| == 1 && tor < |Channels(hosts, nb)|
            && Channels(hosts, nb)[tor] == Channel(Link(i), ActorAt(nb[i][0]))
            && ActorAt(nb[i][0]) + 1 == nb[i][0] != i + 1
            && i + 1 in net && nb[i] == net[i + 1]
  {
    hide Links, ActorAt, Channels, Neighbours;
    NeighbourOk(net, hosts, switches, i, 0);
    ChannelOfLink(hosts, Neighbours(net, hosts, switches), i, 0);
    ActorAtIs(net[i + 1][0]);
  }

  lemma ServerLaidOut(net: Network, hosts: nat, switches: seq<Switch>, latency: nat, bandwidth: nat, i: nat)
    requires Traffic.Switched(net, hosts, switches) && bandwidth > 0 && i < hosts
    ensures var p := PlanFor(net, hosts, switches, latency, bandwidth);
            i < |p.parts| && p.parts[i].ServerPart? && ServerPlanned(p, i)
  {
    hide Traffic.Switched, Links, ActorAt, PlanFor, Neighbours, Into, Ports, Channels;
    var p := PlanFor(net, hosts, switches, latency, bandwidth);
    var nb := Neighbours(net, hosts, switches);
    PartIs(net, hosts, switches, latency, bandwidth, i);
    RackLaidOut(net, hosts, switches, i);
    PortsOk(p.net, i);
    OwnFirst(hosts, nb, i);
    TwoPorts(Channels(hosts, nb), i, i, hosts + |Links(nb, |nb|)| + i);
    forall c | 0 <= c < |p.net.channels|
      ensures p.net.channels[c].origin == Self(i) <==> c == i
      ensures p.net.channels[c].origin == Link(i) <==> c == hosts + |Links(nb, i)|
    {
      var j, d := ChannelIs(hosts, nb, c);
    }
  }

  lemma ActorAtIs(id: nat)
    requires id >= 1
    ensures ActorAt(id) + 1 == id
  {
  }

  lemma NearNode(net: Network, hosts: nat, x: nat) returns (h: nat)
    requires Fabric(net, hosts) && |net| >= 2 && x in net
    ensures h in net && h != x && x in net[h]
  {
    var y := if x == 1 then 2 else 1;
    assert y in net && Reachable(net, x, y);
    var j: nat :| Walk(net, x, y, j);
    var k := ShortestWalk(net, x, y, j);
    hide Reachable;
    AtDestination(net, x, y, k);
    h := HopExists(net, x, y, k);
    HopIsNeighbour(net, x, y, h, k);
  }

  lemma SwitchKnows(net: Network, r: nat, sw: Switch, h: nat)
    requires Built(net, r, sw) && h in net[r] && h != r
    ensures h in sw.idToIx && sw.idToIx[h] < |sw.ixToId| && sw.ixToId[sw.idToIx[h]] == h
  {
    hide Installed;
  }

  lemma HostKnows(net: Network, hosts: nat, h: nat, x: nat)
    requires Fabric(net, hosts) && h in net && h <= hosts && x in net[h]
    ensures net[h] == [x]
  {
    assert |net[h]| == 1;
  }

  /** Everybody has a neighbour, which sends to it. */
  lemma HasNeighbour(net: Network, hosts: nat, switches: seq<Switch>, i: nat) returns (h: nat, d: nat)
    requires Traffic.Switched(net, hosts, switches) && |net| >= 2 && i < hosts + |switches|
    ensures var nb := Neighbours(net, hosts, switches); h < |nb| && d < |nb[h]| && ActorAt(nb[h][d]) == i
  {
    hide *;
    var x := i + 1;
    Nodes(net, hosts, switches, x);
    var g := NearNode(net, hosts, x);
    Nodes(net, hosts, switches, g);
    h := g - 1;
    if g <= hosts {
      HostKnows(net, hosts, g, x);
      d := 0;
    } else {
      Traffic.SwitchAt(net, hosts, switches, h - hosts);
      SwitchKnows(net, g, switches[h - hosts], x);
      d := switches[h - hosts].idToIx[x];
    }
    ActorAtIs(x);
  }

  lemma Nodes(net: Network, hosts: nat, switches: seq<Switch>, x: nat)
    requires Traffic.Switched(net, hosts, switches)
    ensures Fabric(net, hosts) && |net| == hosts + |switches| && (x in net <==> 1 <= x <= |net|)
  {
  }

  /** The indices installed are indices of queues. */
  lemma IndicesInRange(net: Network, hosts: nat, r: nat, sw: Switch, dst: nat, ix: nat)
    requires Fabric(net, hosts) && Built(net, r, sw) && dst < |sw.route| && ix in sw.route[dst]
    ensures ix < |sw.ixToId|
  {
    var p := DestinationAt(r, dst);
    assert Translated(sw.idToIx, sw.routes[p], sw.route[dst]);
    hide Fabric, Built;
  }

  /** A router's links, in the order of its queues. */
  lemma LinkLaidOut(net: Network, hosts: nat, switches: seq<Switch>, i: nat, d: nat)
    requires Traffic.Switched(net, hosts, switches) && i < hosts + |switches|
    ensures var nb := Neighbours(net, hosts, switches);
            var c := hosts + |Links(nb, i)| + d;
            d < |nb[i]| ==> c < |Channels(hosts, nb)| && Channels(hosts, nb)[c].origin == Link(i)
                            && Channels(hosts, nb)[c].dst + 1 == nb[i][d] != i + 1
  {
    hide Links, Traffic.Switched, ActorAt, Channels, Neighbours;
    var nb := Neighbours(net, hosts, switches);
    if d < |nb[i]| {
      NeighbourOk(net, hosts, switches, i, d);
      ChannelOfLink(hosts, nb, i, d);
      ActorAtIs(nb[i][d]);
    }
  }

  lemma OnlyLinks(net: Network, hosts: nat, switches: seq<Switch>, i: nat, c: nat)
    requires hosts <= i < hosts + |switches| && c < |Channels(hosts, Neighbours(net, hosts, switches))|
    ensures var nb := Neighbours(net, hosts, switches);
            && Channels(hosts, nb)[c].origin != Self(i)
            && (Channels(hosts, nb)[c].origin == Link(i) ==> 0 <= c - hosts - |Links(nb, i)| < |nb[i]|)
  {
    hide Links, Channels, Neighbours;
    var j, d := ChannelIs(hosts, Neighbours(net, hosts, switches), c);
  }

  /** A router's links, in the order of its queues. */
  lemma LinksLaidOut(net: Network, hosts: nat, switches: seq<Switch>, latency: nat, bandwidth: nat, i: nat)
    requires Traffic.Switched(net, hosts, switches) && hosts <= i < hosts + |switches|
    ensures var p := PlanFor(net, hosts, switches, latency, bandwidth);
            && i < |p.parts| && p.parts[i].RouterPart? && RouterSteps.Feeds(p.net, i, p.parts[i].outs)
            && (forall c :: 0 <= c < |p.net.channels| ==> p.net.channels[c].origin != Self(i))
            && |p.parts[i].outs| == |switches[i - hosts].ixToId|
            && forall d :: 0 <= d < |p.parts[i].outs| ==>
                 p.parts[i].outs[d] < |p.net.channels|
                 && p.net.channels[p.parts[i].outs[d]].dst + 1 == switches[i - hosts].ixToId[d]
  {
    hide Traffic.Switched, Links, ActorAt, Into, PlanFor, Neighbours, Channels;
    var p := PlanFor(net, hosts, switches, latency, bandwidth);
    PartIs(net, hosts, switches, latency, bandwidth, i);
    var outs, channels := p.parts[i].outs, p.net.channels;
    forall d | 0 <= d < |outs|
      ensures outs[d] < |channels| && channels[outs[d]].origin == Link(i)
      ensures channels[outs[d]].dst + 1 == switches[i - hosts].ixToId[d] != i + 1
    {
      LinkLaidOut(net, hosts, switches, i, d);
    }
    forall c | 0 <= c < |channels|
      ensures channels[c].origin != Self(i) && (channels[c].origin == Link(i) ==> c in outs)
    {
      OnlyLinks(net, hosts, switches, i, c);
      if channels[c].origin == Link(i) {
        assert outs[c - hosts - |Links(Neighbours(net, hosts, switches), i)|] == c;
      }
    }
  }

  /** The world and a neighbour send to every router. */
  lemma PortsLaidOut(net: Network, hosts: nat, switches: seq<Switch>, i: nat)
    requires Traffic.Switched(net, hosts, switches) && |net| >= 2 && i < hosts + |switches|
    ensures var channels := Channels(hosts, Neighbours(net, hosts, switches)); |Into(channels, i, |channels|)| >= 2
  {
    hide Traffic.Switched, Links, ActorAt, Into, Neighbours, Channels;
    var nb := Neighbours(net, hosts, switches);
    var h, e := HasNeighbour(net, hosts, switches, i);
    ChannelOfLink(hosts, nb, h, e);
    TwoPorts(Channels(hosts, nb), i, hosts + |Links(nb, h)| + e, hosts + |Links(nb, |nb|)| + i);
  }

  lemma RouterLaidOut(net: Network, hosts: nat, switches: seq<Switch>, latency: nat, bandwidth: nat, i: nat)
    requires Traffic.Switched(net, hosts, switches) && |net| >= 2 && bandwidth > 0 && hosts <= i < hosts + |switches|
    ensures var p := PlanFor(net, hosts, switches, latency, bandwidth);
            i < |p.parts| && p.parts[i].RouterPart? && RouterPlanned(p, i)
  {
    hide Traffic.Switched, Fabric, Built, PlanFor, Into, Ports, RouterSteps.Feeds, Links, Neighbours, Channels;
    var p := PlanFor(net, hosts, switches, latency, bandwidth);
    var sw := switches[i - hosts];
    PartIs(net, hosts, switches, latency, bandwidth, i);
    LinksLaidOut(net, hosts, switches, latency, bandwidth, i);
    PortsOk(p.net, i);
    PortsLaidOut(net, hosts, switches, i);
    Traffic.SwitchAt(net, hosts, switches, i - hosts);
    forall dst, d | 0 <= dst < |sw.route| && d in sw.route[dst]
      ensures d < |sw.ixToId|
    {
      IndicesInRange(net, hosts, i + 1, sw, dst, d);
    }
  }

  lemma SwitchCount(net: Network, hosts: nat, switches: seq<Switch>)
    requires Traffic.Switched(net, hosts, switches)
    ensures |net| == hosts + |switches|
  {
    hide Fabric, Built;
  }

  /** Every network with its switches built can be simulated. */
  lemma PlanExists(net: Network, hosts: nat, switches: seq<Switch>, latency: nat, bandwidth: nat)
    requires Traffic.Switched(net, hosts, switches) && |net| >= 2 && latency > 0 && bandwidth > 0
    ensures Planned(PlanFor(net, hosts, switches, latency, bandwidth))
  {
    hide Traffic.Switched, NetOk, RouterPlanned, ServerPlanned, PlanFor, PartOf, Neighbours, Channels;
    var p := PlanFor(net, hosts, switches, latency, bandwidth);
    LaidOut(net, hosts, switches, latency, bandwidth);
    PlanIs(net, hosts, switches, latency, bandwidth);
    SwitchCount(net, hosts, switches);
    forall i | 0 <= i < |p.parts|
      ensures IdOf(p.net, i) == i + 1
      ensures i < hosts ==> p.parts[i].ServerPart? && ServerPlanned(p, i)
      ensures hosts <= i ==> p.parts[i].RouterPart? && RouterPlanned(p, i)
    {
      PartIs(net, hosts, switches, latency, bandwidth, i);
      if i < hosts {
        ServerLaidOut(net, hosts, switches, latency, bandwidth, i);
      } else {
        RouterLaidOut(net, hosts, switches, latency, bandwidth, i);
      }
    }
  }

  // The first state

  /** What the world has in store for every actor: flows to start and, last, Close. */
  ghost predicate Timetable(p: Plan, schedule: seq<seq<ModelEvent>>) {
    && |schedule| == |p.parts|
    && forall j :: 0 <= j < |schedule| ==>
         Closing(schedule[j]) && Sorted(schedule[j]) && forall k :: 0 <= k < |schedule[j]| ==>
           Scheduled(p, j, schedule[j][k].eventType)
  }

  ghost function FirstQueue(p: Plan, schedule: seq<seq<ModelEvent>>, channel: Channel): seq<ModelEvent> {
    match channel.origin
    case Link(i) => [Event(p.net.latency, i + 1, Null)]
    case Self(i) => [Event(Tcp.MIN_RTO, i + 1, ModelEvent(Timeout))]
    case World => if channel.dst < |schedule| then schedule[channel.dst] else []
  }

  ghost function FirstPort(part: Part): nat {
    if part.ports != [] then part.ports[0] else 0
  }

  ghost function FirstActor(p: Plan, part: Part): Actor {
    match part
    case RouterPart(cfg, _, outs) =>
      RouterAt(0, Router.Out(seq(|outs|, _ => [Event(cfg.latency, cfg.id, Null)]), seq(|outs|, _ => 0)))
    case ServerPart(cfg, _, _) =>
      ServerAt(0, Server.Snapshot([Event(cfg.latency, cfg.id, Null)], 0,
                                  [Event(Tcp.MIN_RTO, cfg.id, ModelEvent(Timeout))],
                                  multiset{}, [], 0, Tcp.MIN_RTO), 0)
  }

  ghost function First(p: Plan, schedule: seq<seq<ModelEvent>>): (s: Sim)
    ensures |s.g.queue| == |s.g.curr| == |s.g.clock| == |p.net.channels|
    ensures |s.g.winner| == |s.g.phase| == |s.actors| == |p.parts|
    ensures forall c :: 0 <= c < |p.net.channels| ==>
      s.g.queue[c] == FirstQueue(p, schedule, p.net.channels[c])
      && s.g.curr[c] == Event(0, 0, Null) && s.g.clock[c] == 0
    ensures forall i :: 0 <= i < |p.parts| ==>
      s.g.winner[i] == FirstPort(p.parts[i]) && s.g.phase[i] == Phase.Ready && s.actors[i] == FirstActor(p, p.parts[i])
  {
    var n := |p.net.channels|;
    Sim(Global(seq(n, c requires 0 <= c < n => FirstQueue(p, schedule, p.net.channels[c])),
               seq(n, _ => Event(0, 0, Null)),
               seq(n, _ => 0), seq(|p.parts|, i requires 0 <= i < |p.parts| => FirstPort(p.parts[i])),
               seq(|p.parts|, _ => Phase.Ready)),
        seq(|p.parts|, i requires 0 <= i < |p.parts| => FirstActor(p, p.parts[i])))
  }

  lemma FirstPortOk(p: Plan, i: nat)
    requires Planned(p) && i < |p.parts|
    ensures p.parts[i].ports != [] && FirstPort(p.parts[i]) < |p.net.channels|
    ensures p.net.channels[FirstPort(p.parts[i])].dst == i
  {
    PlanFacts(p, i);
    hide Planned, RouterSteps.Feeds;
  }

  lemma FirstStarts(p: Plan, schedule: seq<seq<ModelEvent>>)
    requires Planned(p) && Timetable(p, schedule)
    ensures Start(p.net, First(p, schedule).g)
  {
    var s := First(p, schedule);
    PlanNet(p);
    forall i | 0 <= i < |p.parts|
      ensures s.g.winner[i] < |p.net.channels| && p.net.channels[s.g.winner[i]].dst == i
    {
      FirstPortOk(p, i);
    }
    hide Planned, Scheduled, First, FirstPort;
  }

  lemma PlanNet(p: Plan)
    requires Planned(p)
    ensures p.net.actors == |p.parts| && forall c :: 0 <= c < |p.net.channels| ==> ChannelOk(p.net, p.net.channels[c])
  {
    hide RouterPlanned, ServerPlanned, Traffic.Switched;
  }

  lemma FirstRouter(p: Plan, schedule: seq<seq<ModelEvent>>, i: nat)
    requires p.hosts <= i < |p.parts| && i - p.hosts < |p.switches| && p.parts[i].RouterPart? && RouterPlanned(p, i)
    ensures var s := First(p, schedule); StartsAt(p, s.g, i, s.actors[i])
  {
    hide First, Ports;
    var s, outs := First(p, schedule), p.parts[i].outs;
    forall d | 0 <= d < |outs|
      ensures outs[d] < |s.g.queue|
      ensures s.g.queue[outs[d]] == [Event(p.parts[i].router.latency, p.parts[i].router.id, Null)]
    {
      assert p.net.channels[outs[d]].origin == Link(i);
    }
  }

  lemma FirstServer(p: Plan, schedule: seq<seq<ModelEvent>>, i: nat)
    requires i < |p.parts| && p.parts[i].ServerPart? && ServerPlanned(p, i)
    ensures var s := First(p, schedule); StartsAt(p, s.g, i, s.actors[i])
  {
    hide First, Ports;
    var ServerPart(cfg, ports, tor) := p.parts[i];
    assert p.net.channels[tor].origin == Link(i) && p.net.channels[ports[0]].origin == Self(i);
  }

  lemma FirstAt(p: Plan, schedule: seq<seq<ModelEvent>>, i: nat)
    requires Planned(p) && i < |p.parts|
    ensures var s := First(p, schedule); StartsAt(p, s.g, i, s.actors[i])
  {
    hide *;
    PlanFacts(p, i);
    if i < p.hosts {
      FirstServer(p, schedule, i);
    } else {
      FirstRouter(p, schedule, i);
    }
  }

  /** A planned simulation can be started with any timetable. */
  lemma StartExists(p: Plan, schedule: seq<seq<ModelEvent>>)
    requires Planned(p) && Timetable(p, schedule)
    ensures Started(p, First(p, schedule))
  {
    var s := First(p, schedule);
    FirstStarts(p, schedule);
    PlanNet(p);
    hide Planned, First, Start, StartsAt, FirstActor, FirstPort;
    forall i | 0 <= i < |p.parts|
      ensures StartsAt(p, s.g, i, s.actors[i])
    {
      FirstAt(p, schedule, i);
    }
    forall c | 0 <= c < |p.net.channels| && p.net.channels[c].origin.World?
      ensures forall k :: 0 <= k < |s.g.queue[c]| ==> Scheduled(p, p.net.channels[c].dst, s.g.queue[c][k].eventType)
    {
      assert ChannelOk(p.net, p.net.channels[c]);
    }
  }
}
