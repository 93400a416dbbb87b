/** Building the routers of a network: wiring them to their neighbours and installing their routes. */
module World {
  import opened Graphs
  import opened Routing
  import opened Forwarding

  /**
   While the routers up to `id` are being wired, router `r` knows its neighbours below `id`, and `id` itself
   once `id` has come past it in the list `done`.
   */
  ghost predicate Wired(net: Network, r: nat, idToIx: map<nat, nat>, id: nat, done: seq<nat>) {
    r in net && forall h: nat :: h in idToIx <==> (h in net[r] && h < id && h != r) || (h == id && r in done)
  }

  ghost predicate AllWired(net: Network, nHosts: nat, builders: seq<RouterBuilder>, id: nat, done: seq<nat>)
    reads builders
  {
    && (forall i, j :: 0 <= i < j < |builders| ==> builders[i] != builders[j])
    && (forall i :: 0 <= i < |builders| ==>
          builders[i].id == nHosts + 1 + i && builders[i].Valid()
          && Wired(net, builders[i].id, builders[i].idToIx, id, done))
  }

  /** The router being wired knows the neighbours below it that have been gone through. */
  ghost predicate Wiring(idToIx: map<nat, nat>, id: nat, done: seq<nat>) {
    forall h: nat :: h in idToIx <==> h in done && h < id
  }

  /** Router `r` after `n` has been gone through: if that was itself, it knows `id` now. */
  lemma WiredOn(net: Network, r: nat, known: map<nat, nat>, known': map<nat, nat>, id: nat, done: seq<nat>, n: nat)
    requires Wired(net, r, known, id, done)
    requires known'.Keys == if n == r then known.Keys + {id} else known.Keys
    ensures Wired(net, r, known', id, done + [n])
  {
  }

  lemma WiringOn(known: map<nat, nat>, known': map<nat, nat>, id: nat, done: seq<nat>, n: nat)
    requires Wiring(known, id, done) && known'.Keys == if n < id then known.Keys + {n} else known.Keys
    ensures Wiring(known', id, done + [n])
  {
  }

  lemma WiringDone(net: Network, r: nat, known: map<nat, nat>, id: nat)
    requires id in net && r < id && r in net && (r in net[id] <==> id in net[r]) && Wired(net, r, known, id, net[id])
    ensures Wired(net, r, known, id + 1, [])
  {
  }

  lemma NewlyWired(net: Network, known: map<nat, nat>, id: nat)
    requires id in net && Wiring(known, id, net[id])
    ensures Wired(net, id, known, id + 1, [])
  {
  }

  /** Links the router being wired to its lower neighbour `n`; a host keeps its own end. */
  method Join(net: Network, nHosts: nat, builders: seq<RouterBuilder>, rb: RouterBuilder, id: nat, n: nat,
              ghost done: seq<nat>)
    requires rb.id == id && |builders| == id - nHosts - 1 && rb !in builders
    requires rb.Valid() && Wiring(rb.idToIx, id, done) && AllWired(net, nHosts, builders, id, done)
    modifies builders, rb
    ensures rb.Valid() && Wiring(rb.idToIx, id, done + [n]) && AllWired(net, nHosts, builders, id, done + [n])
  {
    hide Wired, Wiring, Inverse;
    ghost var known, mine := seq(|builders|, i requires 0 <= i < |builders| reads builders => builders[i].idToIx),
          rb.idToIx;
    if n < id {
      if n > nHosts {
        builders[n - nHosts - 1].Connect(id);
      }
      rb.Connect(n);
    }
    WiringOn(mine, rb.idToIx, id, done, n);
    forall i | 0 <= i < |builders|
      ensures Wired(net, builders[i].id, builders[i].idToIx, id, done + [n]) && builders[i].Valid()
    {
      WiredOn(net, builders[i].id, known[i], builders[i].idToIx, id, done, n);
    }
  }

  /** Connects all routers to their neighbours, each link when its higher end is created. */
  method WireRouters(net: Network, nHosts: nat) returns (builders: seq<RouterBuilder>)
    requires Fabric(net, nHosts) && nHosts <= |net|
    ensures |builders| == |net| - nHosts && AllWired(net, nHosts, builders, |net| + 1, [])
    ensures fresh(builders)
  {
    hide Wired, Wiring, Inverse, Connected, Closed;
    builders := [];
    for id: nat := nHosts + 1 to |net| + 1
      invariant |builders| == id - nHosts - 1 && fresh(builders) && AllWired(net, nHosts, builders, id, [])
    {
      var rb := new RouterBuilder(id);
      NothingKnown(rb.idToIx, id);
      for j := 0 to |net[id]|
        invariant fresh(rb) && rb.id == id && rb.Valid() && rb !in builders && Wiring(rb.idToIx, id, net[id][..j])
        invariant fresh(builders) && AllWired(net, nHosts, builders, id, net[id][..j])
      {
        assert net[id][..j + 1] == net[id][..j] + [net[id][j]];
        Join(net, nHosts, builders, rb, id, net[id][j], net[id][..j]);
      }
      assert net[id][..|net[id]|] == net[id];
      AllWiringDone(net, nHosts, builders, rb, id);
      builders := builders + [rb];
    }
  }

  lemma NothingKnown(known: map<nat, nat>, id: nat)
    requires known == map[]
    ensures Wiring(known, id, [])
  {
  }

  lemma AllWiringDone(net: Network, nHosts: nat, builders: seq<RouterBuilder>, rb: RouterBuilder, id: nat)
    requires Fabric(net, nHosts) && id in net && |builders| == id - nHosts - 1
    requires AllWired(net, nHosts, builders, id, net[id])
    requires rb.id == id && rb.Valid() && rb !in builders && Wiring(rb.idToIx, id, net[id])
    ensures AllWired(net, nHosts, builders + [rb], id + 1, [])
  {
    hide Wired, Wiring, Inverse, Connected, Closed;
    NewlyWired(net, rb.idToIx, id);
    forall i | 0 <= i < |builders|
      ensures Wired(net, builders[i].id, builders[i].idToIx, id + 1, [])
    {
      WiringDone(net, builders[i].id, builders[i].idToIx, id);
    }
  }

  lemma FullyWired(net: Network, nHosts: nat, x: nat, known: map<nat, nat>)
    requires Fabric(net, nHosts) && Wired(net, x, known, |net| + 1, [])
    ensures forall h: nat :: h in known <==> h in net[x] && h != x
  {
  }

  lemma TableFits(net: Network, nHosts: nat, x: nat, known: map<nat, nat>, routes: map<nat, seq<nat>>)
    requires Fabric(net, nHosts) && Wired(net, x, known, |net| + 1, []) && RouteTable(net, x, routes)
    ensures Installable(x, known, routes)
  {
    FullyWired(net, nHosts, x, known);
    hide RouteTable, Wired;
    TableInstallable(net, nHosts, x, known, routes);
  }

  lemma SwitchBuilt(net: Network, nHosts: nat, x: nat, sw: Switch)
    requires Fabric(net, nHosts) && Wired(net, x, sw.idToIx, |net| + 1, []) && RouteTable(net, x, sw.routes)
    requires Inverse(sw.idToIx, sw.ixToId) && Installed(x, sw.idToIx, sw.routes, sw.route)
    ensures Built(net, x, sw)
  {
    FullyWired(net, nHosts, x, sw.idToIx);
  }

  /** Routes for one router, installed. */
  method Route(net: Network, nHosts: nat, b: RouterBuilder) returns (ghost sw: Switch)
    requires Fabric(net, nHosts) && b.id in net && b.Valid() && Wired(net, b.id, b.idToIx, |net| + 1, [])
    modifies b`route
    ensures Built(net, b.id, sw) && sw.idToIx == b.idToIx && sw.ixToId == b.ixToId && sw.route == b.route
  {
    hide Wired, Inverse, RouteTable, Installed, Installable, Connected, Built;
    var routes := RouteAll(net, b.id);
    TableFits(net, nHosts, b.id, b.idToIx, routes);
    b.InstallRoutes(routes);
    sw := Switch(b.idToIx, b.ixToId, routes, b.route);
    SwitchBuilt(net, nHosts, b.id, sw);
  }

  /** The builder at position `i` has become switch `sw`. */
  ghost predicate Finished(net: Network, nHosts: nat, b: RouterBuilder, i: nat, sw: Switch)
    reads b
  {
    b.id == nHosts + 1 + i && Built(net, b.id, sw) && sw.ixToId == b.ixToId && sw.route == b.route
  }

  /** Builds all routers of a network: every one of them is wired to its neighbours and has its routes installed. */
  method BuildRouters(net: Network, nHosts: nat) returns (builders: seq<RouterBuilder>, ghost switches: seq<Switch>)
    requires Fabric(net, nHosts) && nHosts <= |net|
    ensures |switches| == |builders| == |net| - nHosts && fresh(builders)
    ensures forall i :: 0 <= i < |builders| ==> Finished(net, nHosts, builders[i], i, switches[i])
  {
    hide Wired, Inverse, Connected, Built;
    builders := WireRouters(net, nHosts);
    switches := [];
    for i := 0 to |builders|
      invariant AllWired(net, nHosts, builders, |net| + 1, []) && fresh(builders) && |switches| == i
      invariant forall k :: 0 <= k < i ==> Finished(net, nHosts, builders[k], k, switches[k])
    {
      ghost var sw := Route(net, nHosts, builders[i]);
      switches := switches + [sw];
    }
  }
}
