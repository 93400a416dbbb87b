/** Installing routes in a router, and where the installed routes take a packet. */
module Forwarding {
  import opened Graphs
  import opened Routing

  /** Next-hop ids as indices into the router's outgoing queues. */
  ghost predicate Translated(idToIx: map<nat, nat>, hops: seq<nat>, ixs: seq<nat>) {
    |ixs| == |hops| && forall i :: 0 <= i < |hops| ==> hops[i] in idToIx && ixs[i] == idToIx[hops[i]]
  }

  /** What installing a table takes: destinations are exactly `1 .. |routes|`, and every next hop is a neighbour. */
  ghost predicate Installable(id: nat, idToIx: map<nat, nat>, routes: map<nat, seq<nat>>) {
    && id >= 1
    && (forall d: nat :: d in routes <==> 1 <= d <= |routes|)
    && (forall d: nat :: d in routes && d != id ==> forall h :: h in routes[d] ==> h in idToIx)
  }

  /** The destination whose hops end up at position `p`: the router's own id is skipped without leaving a gap. */
  function DestinationAt(id: nat, p: nat): nat {
    if p < id then p else p + 1
  }

  /**
   The installed table: from 1 on, position `p` holds the hops towards `DestinationAt(id, p)`, up to the last
   destination.
   */
  ghost predicate Installed(id: nat, idToIx: map<nat, nat>, routes: map<nat, seq<nat>>, route: seq<seq<nat>>) {
    && |route| == 1 + |routes| - (if id in routes then 1 else 0)
    && route != [] && route[0] == []
    && forall p :: 1 <= p < |route| ==>
         var d := DestinationAt(id, p);
         d in routes && d != id && Translated(idToIx, routes[d], route[p])
  }

  /** Ids and indices of the neighbours translate back and forth. */
  ghost predicate Inverse(idToIx: map<nat, nat>, ixToId: seq<nat>) {
    && (forall x :: x in idToIx ==> idToIx[x] < |ixToId| && ixToId[idToIx[x]] == x)
    && (forall i :: 0 <= i < |ixToId| ==> ixToId[i] in idToIx)
  }

  class RouterBuilder {
    const id: nat
    var idToIx: map<nat, nat>
    var ixToId: seq<nat>
    var nextIx: nat
    var route: seq<seq<nat>>

    ghost predicate Valid()
      reads this
    {
      nextIx == |ixToId| && Inverse(idToIx, ixToId)
    }

    constructor (id: nat)
      ensures Valid() && this.id == id && idToIx == map[] && ixToId == [] && route == []
    {
      this.id := id;
      idToIx, ixToId, nextIx, route := map[], [], 0, [];
    }

    /** Adds a neighbour on the next index. */
    method Connect(other: nat)
      requires Valid()
      modifies this
      ensures Valid() && ixToId == old(ixToId) + [other] && idToIx.Keys == old(idToIx.Keys) + {other}
      ensures route == old(route)
    {
      idToIx := idToIx[other := nextIx];
      ixToId := ixToId + [other];
      nextIx := nextIx + 1;
    }

    /** Installs a routing table. */
    method InstallRoutes(routes: map<nat, seq<nat>>)
      requires Installable(id, idToIx, routes)
      modifies this`route
      ensures Installed(id, idToIx, routes, route)
    {
      route := [[]];
      for dst := 1 to |routes| + 1
        invariant |route| == (if id < dst then dst - 1 else dst) && route != [] && route[0] == []
        invariant forall p :: 1 <= p < |route| ==>
          var d := DestinationAt(id, p);
          d in routes && d != id && d < dst && Translated(idToIx, routes[d], route[p])
      {
        if dst == id {
          continue;
        }
        var ixs := [];
        for i := 0 to |routes[dst]|
          invariant |ixs| == i
          invariant forall j :: 0 <= j < i ==> routes[dst][j] in idToIx && ixs[j] == idToIx[routes[dst][j]]
        {
          assert routes[dst][i] in routes[dst];
          ixs := ixs + [idToIx[routes[dst][i]]];
        }
        route := route + [ixs];
      }
    }
  }

  lemma TranslatedBack(idToIx: map<nat, nat>, ixToId: seq<nat>, a: seq<nat>, b: seq<nat>, ixs: seq<nat>)
    requires Inverse(idToIx, ixToId) && Translated(idToIx, a, ixs) && Translated(idToIx, b, ixs)
    ensures a == b
  {
    forall i | 0 <= i < |a|
      ensures a[i] == b[i]
    {
      assert ixToId[ixs[i]] == a[i] && ixToId[ixs[i]] == b[i];
    }
  }

  /**
   Looking up a destination finds the hops computed for it exactly when the destination's id is below
   the router's own, or the next id has the same hops.
   */
  lemma LookupAlignedIff(id: nat, idToIx: map<nat, nat>, ixToId: seq<nat>, routes: map<nat, seq<nat>>,
                         route: seq<seq<nat>>, dst: nat)
    requires Installable(id, idToIx, routes) && Installed(id, idToIx, routes, route) && Inverse(idToIx, ixToId)
    requires id in routes && dst in routes && dst != id
    ensures dst < |route| && Translated(idToIx, routes[dst], route[dst])
       <==> dst < id || (dst + 1 in routes && routes[dst + 1] == routes[dst])
  {
    hide Translated, Inverse;
    if dst < |route| && Translated(idToIx, routes[dst], route[dst]) {
      TranslatedBack(idToIx, ixToId, routes[dst], routes[DestinationAt(id, dst)], route[dst]);
    }
  }

  // A star around router 2

  ghost function Star(): Network {
    map[1 := [2], 2 := [1, 3, 4], 3 := [2], 4 := [2]]
  }

  lemma StarRoutes(routes: map<nat, seq<nat>>)
    requires RouteTable(Star(), 2, routes)
    ensures 3 in routes && 4 in routes && routes[3] == [3] && routes[4] == [4]
  {
    forall x: nat | x == 3 || x == 4
      ensures x in routes && routes[x] == [x]
    {
      StarHops(x);
      assert Reachable(Star(), 2, x);
      IntervalLength(routes[x], x, 1);
      assert x in routes[x];
    }
  }

  lemma StarHops(x: nat)
    requires x == 3 || x == 4
    ensures Dist(Star(), 2, x, 1)
    ensures forall h: nat :: Hop(Star(), 2, x, h, 1) <==> h == x
  {
    assert 2 in Star() && x in Star()[2];
    assert Walk(Star(), 2, 2, 0) && Walk(Star(), 2, x, 1);
    assert !Walk(Star(), 2, x, 0);
    forall h: nat
      ensures Hop(Star(), 2, x, h, 1) <==> h == x
    {
      assert Walk(Star(), h, x, 0) <==> h == x;
    }
  }

  /** In the star, whatever the indices of the neighbours, router 2 does not find its way to node 3 under 3. */
  lemma LookupMisaligned(idToIx: map<nat, nat>, ixToId: seq<nat>, routes: map<nat, seq<nat>>, route: seq<seq<nat>>)
    requires RouteTable(Star(), 2, routes) && Installed(2, idToIx, routes, route) && Inverse(idToIx, ixToId)
    requires Installable(2, idToIx, routes)
    ensures 3 in routes && 3 < |route| && !Translated(idToIx, routes[3], route[3])
  {
    StarRoutes(routes);
    assert Reachable(Star(), 2, 2) by { assert Walk(Star(), 2, 2, 0); }
    LookupAlignedIff(2, idToIx, ixToId, routes, route, 3);
  }

  // Forwarding over a network

  /**
   Links go both ways and join everything, ids run from 1 on, hosts `1 .. hosts` hang off a single switch,
   and the switches have the higher ids.
   */
  ghost predicate Fabric(net: Network, hosts: nat) {
    && Closed(net) && Symmetric(net) && Connected(net)
    && (forall x: nat :: x in net <==> 1 <= x <= |net|)
    && (forall x :: x in net && x <= hosts ==> |net[x]| == 1 && net[x][0] > hosts)
  }

  /** What a router knows when it has been built. */
  datatype Switch = Switch(idToIx: map<nat, nat>, ixToId: seq<nat>, routes: map<nat, seq<nat>>, route: seq<seq<nat>>)

  /** Switch `x` is wired to its neighbours, and what `RouteAll` computes for it has been installed. */
  ghost predicate Built(net: Network, x: nat, sw: Switch) {
    && x in net && RouteTable(net, x, sw.routes)
    && (forall h: nat :: h in sw.idToIx <==> h in net[x] && h != x)
    && Inverse(sw.idToIx, sw.ixToId)
    && Installed(x, sw.idToIx, sw.routes, sw.route)
  }

  lemma HopIsNeighbour(net: Network, x: nat, dst: nat, h: nat, k: nat)
    requires Closed(net) && x in net && x != dst && Hop(net, x, dst, h, k)
    ensures h in net[x] && h != x
  {
    HopIsNearer(net, x, dst, h, k);
  }

  /**
   On a fabric the routes computed for a switch can be installed: its table covers all ids and names neighbours only.
   */
  lemma TableInstallable(net: Network, hosts: nat, x: nat, idToIx: map<nat, nat>, routes: map<nat, seq<nat>>)
    requires Fabric(net, hosts) && x in net && RouteTable(net, x, routes)
    requires forall h: nat :: h in net[x] && h != x ==> h in idToIx
    ensures Installable(x, idToIx, routes) && routes.Keys == net.Keys
  {
    forall d: nat
      ensures d in routes <==> d in net
    {
      if d in routes {
        var k: nat :| Walk(net, x, d, k);
        WalkIn(net, x, d, k);
      }
    }
    assert |routes.Keys| == |routes| && |net.Keys| == |net| && routes.Keys == net.Keys;
    forall d: nat, h: nat | d in routes && d != x && h in routes[d]
      ensures h in idToIx
    {
      var k: nat :| Walk(net, x, d, k);
      var j := ShortestWalk(net, x, d, k);
      HopIsNeighbour(net, x, d, h, j);
    }
  }

  /** Towards a host, the indices installed are exactly the queues of the next hops computed for it. */
  lemma IndexLeadsToHop(net: Network, hosts: nat, x: nat, sw: Switch, dst: nat)
    requires Fabric(net, hosts) && Built(net, x, sw) && 1 <= dst <= hosts < x
    ensures dst in sw.routes && dst < |sw.route|
    ensures forall ix :: ix in sw.route[dst] ==> ix < |sw.ixToId| && sw.ixToId[ix] in sw.routes[dst]
    ensures forall h :: h in sw.routes[dst] ==>
        h in sw.idToIx && sw.ixToId[sw.idToIx[h]] == h && sw.idToIx[h] in sw.route[dst]
  {
    TableInstallable(net, hosts, x, sw.idToIx, sw.routes);
    assert dst in net && x in sw.routes;
    assert Translated(sw.idToIx, sw.routes[dst], sw.route[dst]);
    forall h | h in sw.routes[dst]
      ensures sw.idToIx[h] in sw.route[dst]
    {
      var i :| 0 <= i < |sw.routes[dst]| && sw.routes[dst][i] == h;
      assert sw.route[dst][i] == sw.idToIx[h];
    }
  }

  /** Any next hop computed is one step nearer, and is a switch unless it is the destination. */
  lemma HopGetsNearer(net: Network, hosts: nat, x: nat, paths: map<nat, seq<nat>>, dst: nat, h: nat, k: nat)
    requires Fabric(net, hosts) && x in net && RouteTable(net, x, paths)
    requires k >= 1 && Dist(net, x, dst, k) && x != dst && dst in paths && h in paths[dst]
    ensures Dist(net, h, dst, k - 1) && h in net[x]
    ensures h == dst || h > hosts
  {
    HopIsNearer(net, x, dst, h, k);
    if h <= hosts && k >= 2 {
      LeafLeadsBack(net, x, h, dst, k - 1);
    }
  }

  /** From a node with a single neighbour every walk starts over that neighbour. */
  lemma LeafLeadsBack(net: Network, x: nat, h: nat, dst: nat, j: nat)
    requires Closed(net) && h in net && |net[h]| == 1 && x in net[h] && j >= 1 && Dist(net, h, dst, j)
    ensures Walk(net, x, dst, j - 1)
  {
    var g := HopExists(net, h, dst, j);
  }

  /**
   Switch `x` may send a packet to `h`: over an index installed for the destination, on the queue that leads to `h`.
   */
  ghost predicate Forwards(sw: Switch, dst: nat, h: nat) {
    dst < |sw.route| && exists ix :: ix in sw.route[dst] && ix < |sw.ixToId| && sw.ixToId[ix] == h
  }

  /** A packet's way over the switches `hosts + 1 ..`: at each any installed index may be chosen. */
  ghost predicate Forwarded(net: Network, hosts: nat, switches: seq<Switch>, dst: nat, path: seq<nat>) {
    && path != []
    && |switches| == |net| - hosts
    && (forall i :: 0 <= i < |switches| ==> Built(net, hosts + 1 + i, switches[i]))
    && forall i :: 0 <= i < |path| - 1 ==>
         hosts < path[i] <= |net| && Forwards(switches[path[i] - hosts - 1], dst, path[i + 1])
  }

  lemma AtDestination(net: Network, x: nat, dst: nat, k: nat)
    requires Closed(net) && Dist(net, x, dst, k)
    ensures x == dst <==> k == 0
  {
    WalkIn(net, x, dst, k);
    if x == dst {
      DistSelf(net, x);
      DistUnique(net, x, dst, k, 0);
    }
  }

  /** Whichever installed index is chosen leads one step nearer. */
  lemma ForwardStep(net: Network, hosts: nat, x: nat, sw: Switch, dst: nat, h: nat, k: nat)
    requires Fabric(net, hosts) && Built(net, x, sw) && 1 <= dst <= hosts < x && Dist(net, x, dst, k)
    requires Forwards(sw, dst, h)
    ensures k >= 1 && Dist(net, h, dst, k - 1) && h in net[x] && (h == dst || h > hosts)
  {
    AtDestination(net, x, dst, k);
    IndexLeadsToHop(net, hosts, x, sw, dst);
    HopGetsNearer(net, hosts, x, sw.routes, dst, h, k);
  }

  /**
   Whatever indices are chosen, after `i` hops a packet is exactly `i` steps nearer its destination, and
   still at a switch unless it has arrived. So it never loops and arrives after exactly `k` hops.
   */
  lemma {:induction false} ForwardingIsLoopFree(net: Network, hosts: nat, switches: seq<Switch>, dst: nat,
                                                path: seq<nat>,
                                                k: nat, i: nat)
    requires Fabric(net, hosts) && Forwarded(net, hosts, switches, dst, path) && 1 <= dst <= hosts
    requires path[0] in net && path[0] > hosts && Dist(net, path[0], dst, k) && i < |path|
    ensures i <= k && Dist(net, path[i], dst, k - i)
    ensures path[i] == dst <==> i == k
    ensures path[i] == dst || path[i] > hosts
    decreases i
  {
    hide Fabric, Built, Dist, Forwards;
    if i > 0 {
      ForwardingIsLoopFree(net, hosts, switches, dst, path, k, i - 1);
      ForwardStep(net, hosts, path[i - 1], switches[path[i - 1] - hosts - 1], dst, path[i], k - (i - 1));
    }
    FabricIsClosed(net, hosts);
    AtDestination(net, path[i], dst, k - i);
  }

  lemma FabricIsClosed(net: Network, hosts: nat)
    requires Fabric(net, hosts)
    ensures Closed(net)
  {
  }

  /** A lookup at a switch never fails: it finds at least one index, and only indices of queues the switch has. */
  lemma ForwardingGoesOn(net: Network, hosts: nat, x: nat, sw: Switch, dst: nat)
    requires Fabric(net, hosts) && Built(net, x, sw) && 1 <= dst <= hosts < x
    ensures dst < |sw.route| && sw.route[dst] != [] && forall ix :: ix in sw.route[dst] ==> ix < |sw.ixToId|
  {
    IndexLeadsToHop(net, hosts, x, sw, dst);
    assert Reachable(net, x, dst);
    var j: nat :| Walk(net, x, dst, j);
    var k := ShortestWalk(net, x, dst, j);
    AtDestination(net, x, dst, k);
    var h := HopExists(net, x, dst, k);
    assert h in sw.routes[dst];
  }
}
