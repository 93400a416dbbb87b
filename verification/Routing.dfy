/** Breadth-first search for all equal-cost next hops. */
module Routing {
  import opened Graphs
  import opened Sets

  /** A candidate: `id` can be reached over first hop `hop` in `cost` steps. */
  datatype Entry = Entry(id: nat, hop: nat, cost: nat)

  // The search, layer by layer

  ghost predicate EntryOk(net: Network, s: nat, e: Entry) {
    e.cost >= 1 && s in net && e.hop in net[s] && Walk(net, e.hop, e.id, e.cost - 1)
  }

  /** First-in first-out order keeps the queue in at most two layers: what is left of `c`, then `c + 1`. */
  ghost predicate Layered(net: Network, s: nat, queue: seq<Entry>, c: nat) {
    && (forall i :: 0 <= i < |queue| ==> EntryOk(net, s, queue[i]) && c <= queue[i].cost <= c + 1)
    && (forall i, j :: 0 <= i < j < |queue| ==> queue[i].cost <= queue[j].cost)
  }

  ghost predicate Costs(net: Network, s: nat, cost: map<nat, nat>, c: nat) {
    && s in cost && cost[s] == 0
    && (forall x :: x in cost ==> x in net && cost[x] <= c && Dist(net, s, x, cost[x]))
  }

  /** `done` holds the (node, first hop) pairs accepted so far; each is a shortest one. */
  ghost predicate DoneOk(net: Network, s: nat, cost: map<nat, nat>, done: set<(nat, nat)>) {
    forall x: nat, h: nat :: (x, h) in done ==> x in cost && x != s && Hop(net, s, x, h, cost[x])
  }

  ghost predicate Expanded(net: Network, queue: seq<Entry>, x: nat, h: nat, c: nat) {
    x in net && forall y :: y in net[x] ==> Entry(y, h, c + 1) in queue
  }

  /** All layers below `c` are complete. */
  ghost predicate Complete(net: Network, s: nat, done: set<(nat, nat)>, c: nat) {
    forall x: nat, h: nat, k: nat :: 1 <= k < c && Hop(net, s, x, h, k) ==> (x, h) in done
  }

  /** In layer `c` every shortest pair is still queued, or accepted with its neighbours queued. */
  ghost predicate Advancing(net: Network, s: nat, done: set<(nat, nat)>, queue: seq<Entry>, c: nat) {
    forall x: nat, h: nat :: Hop(net, s, x, h, c) ==>
      Entry(x, h, c) in queue || ((x, h) in done && Expanded(net, queue, x, h, c))
  }

  /** Each layer passed has contributed a node. */
  ghost predicate Counted(cost: map<nat, nat>, queue: seq<Entry>, c: nat) {
    && c <= |cost|
    && (forall x :: x in cost && cost[x] == c ==> c + 1 <= |cost|)
    && (forall e :: e in queue && e.cost == c + 1 ==> c + 1 <= |cost|)
  }

  ghost predicate Search(net: Network, s: nat, cost: map<nat, nat>, done: set<(nat, nat)>, queue: seq<Entry>, c: nat) {
    && Closed(net) && s in net && c >= 1
    && Layered(net, s, queue, c)
    && Costs(net, s, cost, c)
    && DoneOk(net, s, cost, done)
    && Complete(net, s, done, c)
    && Advancing(net, s, done, queue, c)
    && Counted(cost, queue, c)
  }

  function FirstEntries(ns: seq<nat>): (q: seq<Entry>)
    ensures |q| == |ns| && forall i :: 0 <= i < |ns| ==> q[i] == Entry(ns[i], ns[i], 1)
  {
    seq(|ns|, i requires 0 <= i < |ns| => Entry(ns[i], ns[i], 1))
  }

  function NextEntries(ns: seq<nat>, hop: nat, cost: nat): (q: seq<Entry>)
    ensures |q| == |ns| && forall i :: 0 <= i < |ns| ==> q[i] == Entry(ns[i], hop, cost)
  {
    seq(|ns|, i requires 0 <= i < |ns| => Entry(ns[i], hop, cost))
  }

  lemma SearchStarts(net: Network, s: nat)
    requires Closed(net) && s in net
    ensures Search(net, s, map[s := 0], {}, FirstEntries(net[s]), 1)
  {
    DistSelf(net, s);
    var queue := FirstEntries(net[s]);
    forall i | 0 <= i < |queue|
      ensures EntryOk(net, s, queue[i])
    {
      assert queue[i].id in net[s];
    }
    forall x: nat, h: nat | Hop(net, s, x, h, 1)
      ensures Entry(x, h, 1) in queue
    {
      assert Walk(net, h, x, 0);
      var i :| 0 <= i < |net[s]| && net[s][i] == h;
      assert queue[i] == Entry(x, h, 1);
    }
  }

  /** With only entries of the next layer left, the current layer is complete. */
  lemma NextLayer(net: Network, s: nat, cost: map<nat, nat>, done: set<(nat, nat)>, queue: seq<Entry>, c: nat)
    requires Search(net, s, cost, done, queue, c)
    requires queue != [] && queue[0].cost == c + 1
    ensures Search(net, s, cost, done, queue, c + 1) && c + 1 <= |cost|
  {
    assert forall i :: 0 <= i < |queue| ==> queue[i].cost == c + 1;
    LayerDone(net, s, cost, done, queue, c);
    assert queue[0] in queue;
    var next := c + 1;
    forall y: nat, h: nat | Hop(net, s, y, h, next)
      ensures Entry(y, h, next) in queue
    {
      var m := HopBack(net, s, y, h, c);
      assert Expanded(net, queue, m, h, c);
    }
  }

  lemma LayerDone(net: Network, s: nat, cost: map<nat, nat>, done: set<(nat, nat)>, queue: seq<Entry>, c: nat)
    requires Search(net, s, cost, done, queue, c)
    requires forall i :: 0 <= i < |queue| ==> queue[i].cost == c + 1
    ensures Complete(net, s, done, c + 1)
    ensures forall x: nat, h: nat :: Hop(net, s, x, h, c) ==> Expanded(net, queue, x, h, c)
  {
    forall x: nat, h: nat | Hop(net, s, x, h, c)
      ensures (x, h) in done && Expanded(net, queue, x, h, c)
    {
      assert Entry(x, h, c) !in queue;
    }
  }

  lemma RestLayered(net: Network, s: nat, queue: seq<Entry>, c: nat)
    requires Layered(net, s, queue, c) && queue != []
    ensures Layered(net, s, queue[1..], c)
  {
    hide EntryOk;
  }

  /** Dropping the head leaves the layer advancing, if the head was no shortest pair. */
  lemma RestAdvances(net: Network, s: nat, done: set<(nat, nat)>, queue: seq<Entry>, c: nat)
    requires Advancing(net, s, done, queue, c) && queue != [] && queue[0].cost == c
    requires forall h: nat :: !Hop(net, s, queue[0].id, h, c)
    ensures Advancing(net, s, done, queue[1..], c)
  {
    hide Hop;
    var rest := queue[1..];
    assert queue == [queue[0]] + rest;
    forall x: nat, h: nat | Hop(net, s, x, h, c)
      ensures Entry(x, h, c) in rest || ((x, h) in done && Expanded(net, rest, x, h, c))
    {
      if Expanded(net, queue, x, h, c) {
        assert forall y :: y in net[x] ==> Entry(y, h, c + 1) in rest;
      }
    }
  }

  /** A node already reached in fewer steps is skipped. */
  lemma SkipEntry(net: Network, s: nat, cost: map<nat, nat>, done: set<(nat, nat)>, queue: seq<Entry>, c: nat)
    requires Search(net, s, cost, done, queue, c) && queue != [] && queue[0].cost == c
    requires queue[0].id in cost && cost[queue[0].id] < c
    ensures Search(net, s, cost, done, queue[1..], c)
  {
    NoLaterHop(net, s, cost, queue[0].id, c);
    assert forall e :: e in queue[1..] ==> e in queue;
    hide Layered, Advancing, Costs, Complete, DoneOk, Hop;
    RestLayered(net, s, queue, c);
    RestAdvances(net, s, done, queue, c);
  }

  lemma NoLaterHop(net: Network, s: nat, cost: map<nat, nat>, x: nat, c: nat)
    requires Costs(net, s, cost, c) && x in cost && cost[x] < c
    ensures forall h: nat :: !Hop(net, s, x, h, c)
  {
  }

  /** An entry that is not skipped is a shortest pair; in particular no cheaper one is ever found later. */
  lemma AcceptedIsShortest(net: Network, s: nat, cost: map<nat, nat>, done: set<(nat, nat)>, queue: seq<Entry>, c: nat)
    requires Search(net, s, cost, done, queue, c) && queue != [] && queue[0].cost == c
    requires queue[0].id in cost ==> cost[queue[0].id] >= c
    ensures Hop(net, s, queue[0].id, queue[0].hop, c) && queue[0].id != s && queue[0].id in net
    ensures queue[0].id in cost ==> cost[queue[0].id] == c
  {
    var e := queue[0];
    assert EntryOk(net, s, e);
    WalkFront(net, s, e.hop, e.id, c - 1);
    WalkIn(net, s, e.id, c);
    if e.id !in cost {
      var d := ShortestWalk(net, s, e.id, c);
      if 1 <= d < c {
        var h := HopExists(net, s, e.id, d);
      }
    }
  }

  /** Accepting the head of the queue and queueing its neighbours. */
  lemma AcceptEntry(net: Network, s: nat, cost: map<nat, nat>, done: set<(nat, nat)>, queue: seq<Entry>, c: nat)
    requires Search(net, s, cost, done, queue, c) && queue != [] && queue[0].cost == c
    requires queue[0].id in cost ==> cost[queue[0].id] >= c
    ensures queue[0].id in net && queue[0].id != s
    ensures var e := queue[0];
            Search(net, s, cost[e.id := c], done + {(e.id, e.hop)},
                   queue[1..] + NextEntries(net[e.id], e.hop, c + 1), c)
  {
    AcceptedIsShortest(net, s, cost, done, queue, c);
    AcceptLayered(net, s, cost, done, queue, c);
    AcceptAdvances(net, s, cost, done, queue, c);
    AcceptCounts(net, s, cost, done, queue, c);
    hide Layered, Advancing, Counted, Hop, Dist;
  }

  lemma AcceptLayered(net: Network, s: nat, cost: map<nat, nat>, done: set<(nat, nat)>, queue: seq<Entry>, c: nat)
    requires Search(net, s, cost, done, queue, c) && queue != [] && queue[0].cost == c && queue[0].id in net
    ensures var e := queue[0]; Layered(net, s, queue[1..] + NextEntries(net[e.id], e.hop, c + 1), c)
  {
    var e := queue[0];
    var added := NextEntries(net[e.id], e.hop, c + 1);
    forall i | 0 <= i < |added|
      ensures EntryOk(net, s, added[i])
    {
      assert EntryOk(net, s, e);
      assert added[i].id in net[e.id];
      assert Walk(net, e.hop, added[i].id, c);
    }
  }

  lemma AcceptAdvances(net: Network, s: nat, cost: map<nat, nat>, done: set<(nat, nat)>, queue: seq<Entry>, c: nat)
    requires Search(net, s, cost, done, queue, c) && queue != [] && queue[0].cost == c && queue[0].id in net
    ensures var e := queue[0];
            Advancing(net, s, done + {(e.id, e.hop)}, queue[1..] + NextEntries(net[e.id], e.hop, c + 1), c)
  {
    var e, rest := queue[0], queue[1..];
    var queue', done' := rest + NextEntries(net[e.id], e.hop, c + 1), done + {(e.id, e.hop)};
    assert queue == [e] + rest;
    assert Advancing(net, s, done, queue, c);
    hide Hop, Search;
    HeadExpanded(net, e, rest, c);
    forall x: nat, h: nat | Hop(net, s, x, h, c)
      ensures Entry(x, h, c) in queue' || ((x, h) in done' && Expanded(net, queue', x, h, c))
    {
      if Entry(x, h, c) in queue {
        assert Entry(x, h, c) == e || Entry(x, h, c) in rest;
      } else {
        assert forall y :: y in net[x] ==> Entry(y, h, c + 1) in rest;
      }
    }
  }

  lemma HeadExpanded(net: Network, e: Entry, rest: seq<Entry>, c: nat)
    requires e.id in net
    ensures Expanded(net, rest + NextEntries(net[e.id], e.hop, c + 1), e.id, e.hop, c)
  {
    var added := NextEntries(net[e.id], e.hop, c + 1);
    forall y | y in net[e.id]
      ensures Entry(y, e.hop, c + 1) in rest + added
    {
      var i :| 0 <= i < |net[e.id]| && net[e.id][i] == y;
      assert added[i] in rest + added;
    }
  }

  lemma AcceptCounts(net: Network, s: nat, cost: map<nat, nat>, done: set<(nat, nat)>, queue: seq<Entry>, c: nat)
    requires Search(net, s, cost, done, queue, c) && queue != [] && queue[0].cost == c && queue[0].id in net
    requires queue[0].id in cost ==> cost[queue[0].id] == c
    ensures var e := queue[0];
            Counted(cost[e.id := c], queue[1..] + NextEntries(net[e.id], e.hop, c + 1), c)
  {
    var e := queue[0];
    var cost' := cost[e.id := c];
    if e.id in cost {
      assert cost'.Keys == cost.Keys;
    } else {
      assert cost'.Keys == cost.Keys + {e.id};
    }
    assert |cost'.Keys| == |cost'| && |cost.Keys| == |cost|;
  }

  lemma KeysBounded(net: Network, s: nat, cost: map<nat, nat>, c: nat)
    requires Costs(net, s, cost, c)
    ensures |cost| <= |net|
  {
    assert cost.Keys <= net.Keys;
    SubsetSize(cost.Keys, net.Keys);
  }

  /** The exhausted search has found every shortest pair, and every reachable node. */
  lemma SearchEnds(net: Network, s: nat, cost: map<nat, nat>, done: set<(nat, nat)>, c: nat)
    requires Search(net, s, cost, done, [], c)
    ensures forall x: nat, h: nat, k: nat :: Hop(net, s, x, h, k) ==> (x, h) in done
    ensures forall x :: x in cost <==> Reachable(net, s, x)
  {
    LayerDone(net, s, cost, done, [], c);
    forall x: nat, h: nat, k: nat | Hop(net, s, x, h, k)
      ensures (x, h) in done
    {
      if k > c {
        var z := NearerExists(net, s, x, k, c + 1);
        var g := HopExists(net, s, z, c + 1);
        var m := HopBack(net, s, z, g, c);
      }
    }
    forall x | Reachable(net, s, x)
      ensures x in cost
    {
      var k: nat :| Walk(net, s, x, k);
      var d := ShortestWalk(net, s, x, k);
      if d >= 1 {
        var h := HopExists(net, s, x, d);
        assert (x, h) in done;
      }
    }
    forall x | x in cost
      ensures Reachable(net, s, x)
    {
      assert Walk(net, s, x, cost[x]);
    }
  }

  // Termination: entries of the current layer are used up

  ghost function InLayer(queue: seq<Entry>, c: nat): nat {
    if queue == [] then 0 else (if queue[0].cost == c then 1 else 0) + InLayer(queue[1..], c)
  }

  lemma {:induction false} InLayerAppend(queue: seq<Entry>, added: seq<Entry>, c: nat)
    requires forall i :: 0 <= i < |added| ==> added[i].cost != c
    ensures InLayer(queue + added, c) == InLayer(queue, c)
    decreases |queue| + |added|
  {
    if queue != [] {
      InLayerAppend(queue[1..], added, c);
      assert (queue + added)[1..] == queue[1..] + added;
    } else if added != [] {
      InLayerAppend([], added[1..], c);
      assert queue + added == added && [] + added[1..] == added[1..];
    } else {
      assert queue + added == queue;
    }
  }

  // The searches

  ghost predicate Distinct(hops: seq<nat>) {
    forall i, j :: 0 <= i < j < |hops| ==> hops[i] != hops[j]
  }

  lemma {:induction false} IntervalLength(hops: seq<nat>, lo: nat, n: nat)
    requires Distinct(hops) && forall h: nat :: h in hops <==> lo <= h < lo + n
    ensures |hops| == n
    decreases n
  {
    if n > 0 {
      var last := lo + n - 1;
      assert last in hops;
      var i :| 0 <= i < |hops| && hops[i] == last;
      var rest := hops[..i] + hops[i + 1..];
      forall h: nat
        ensures h in rest <==> lo <= h < lo + (n - 1)
      {
        if h in hops && h != last {
          var j :| 0 <= j < |hops| && hops[j] == h;
          assert rest[if j < i then j else j - 1] == h;
        }
        assert h in rest ==> h in hops;
      }
      IntervalLength(rest, lo, n - 1);
    } else {
      FirstIn(hops);
    }
  }

  lemma FirstIn(hops: seq<nat>)
    ensures hops == [] || hops[0] in hops
  {
  }

  /** The costs recorded so far. */
  ghost function CostsOf<R>(rc: map<nat, (R, nat)>): map<nat, nat> {
    map x | x in rc :: rc[x].1
  }

  /** The hop lists hold exactly the accepted pairs, each once. */
  ghost predicate Lists(s: nat, rc: map<nat, (seq<nat>, nat)>, done: set<(nat, nat)>) {
    forall x :: x in rc && x != s ==> Distinct(rc[x].0) && forall h: nat :: h in rc[x].0 <==> (x, h) in done
  }

  lemma CostsOfUpdate<R>(rc: map<nat, (R, nat)>, x: nat, r: R, c: nat)
    ensures CostsOf(rc[x := (r, c)]) == CostsOf(rc)[x := c]
    ensures x in rc <==> x in CostsOf(rc)
    ensures x in rc ==> CostsOf(rc)[x] == rc[x].1
  {
  }

  lemma CostsOfFirst<R>(s: nat, r: R)
    ensures CostsOf(map[s := (r, 0)]) == map[s := 0]
  {
  }

  lemma ListsStart(s: nat)
    ensures Lists(s, map[s := ([s], 0)], {})
  {
  }

  lemma ListsAccept(s: nat, rc: map<nat, (seq<nat>, nat)>, done: set<(nat, nat)>, x: nat, h: nat, hops: seq<nat>,
                    c: nat)
    requires Lists(s, rc, done) && x != s
    requires x in rc && h in rc[x].0 ==> hops == rc[x].0
    requires x in rc && h !in rc[x].0 ==> hops == rc[x].0 + [h]
    requires x !in rc ==> hops == [h] && forall g: nat :: (x, g) !in done
    ensures Lists(s, rc[x := (hops, c)], done + {(x, h)})
  {
  }

  lemma LayerShrinks(queue: seq<Entry>, added: seq<Entry>, c: nat)
    requires queue != [] && queue[0].cost == c && forall i :: 0 <= i < |added| ==> added[i].cost != c
    ensures InLayer(queue[1..] + added, c) < InLayer(queue, c)
    ensures InLayer(queue[1..], c) < InLayer(queue, c)
  {
    InLayerAppend(queue[1..], added, c);
  }

  method EnqueueFirst(ns: seq<nat>) returns (queue: seq<Entry>)
    ensures queue == FirstEntries(ns)
  {
    queue := [];
    for i := 0 to |ns|
      invariant queue == FirstEntries(ns[..i])
    {
      queue := queue + [Entry(ns[i], ns[i], 1)];
    }
    assert ns[..|ns|] == ns;
  }

  /** Queues the neighbours `ns`, reached over `hop` in `cost` steps. */
  method Enqueue(queue: seq<Entry>, ns: seq<nat>, hop: nat, cost: nat) returns (queue': seq<Entry>)
    ensures queue' == queue + NextEntries(ns, hop, cost)
  {
    queue' := queue;
    for i := 0 to |ns|
      invariant queue' == queue + NextEntries(ns[..i], hop, cost)
    {
      queue' := queue' + [Entry(ns[i], hop, cost)];
    }
    assert ns[..|ns|] == ns;
  }

  /** One entry: moves to its layer, skips it, or accepts it and queues its neighbours. */
  lemma HeadLayer(net: Network, s: nat, cost: map<nat, nat>, done: set<(nat, nat)>, queue: seq<Entry>, c: nat)
      returns (d: nat)
    requires Search(net, s, cost, done, queue, c) && queue != []
    ensures d == queue[0].cost && Search(net, s, cost, done, queue, d)
    ensures d == c || (d == c + 1 && d <= |net|)
  {
    assert queue[0].cost == c || queue[0].cost == c + 1;
    d := queue[0].cost;
    if d == c + 1 {
      NextLayer(net, s, cost, done, queue, c);
      KeysBounded(net, s, cost, c);
    }
  }

  lemma NewNode(net: Network, s: nat, cost: map<nat, nat>, done: set<(nat, nat)>, queue: seq<Entry>, c: nat, x: nat)
    requires Search(net, s, cost, done, queue, c) && x !in cost
    ensures forall g: nat :: (x, g) !in done
  {
  }

  /** All equal-cost routes from `source`: every reachable node has a list of exactly its first hops, each once. */
  ghost predicate RouteTable(net: Network, source: nat, paths: map<nat, seq<nat>>) {
    && (forall x: nat :: x in paths <==> Reachable(net, source, x))
    && (forall x: nat, k: nat :: x in paths && x != source && Dist(net, source, x, k) ==>
          Distinct(paths[x]) && forall h: nat :: h in paths[x] <==> Hop(net, source, x, h, k))
  }

  /**
   All equal-cost routes: the keys are the nodes reachable from the source, and for every other node
   the list holds, without repetition, exactly the neighbours that start a shortest walk to it.
   */
  method RouteAll(network: Network, source: nat) returns (paths: map<nat, seq<nat>>)
    requires Closed(network) && source in network
    ensures RouteTable(network, source, paths)
  {
    hide *;
    var routeCost: map<nat, (seq<nat>, nat)> := map[source := ([source], 0)];
    var queue := EnqueueFirst(network[source]);
    ghost var done: set<(nat, nat)> := {};
    ghost var c := 1;
    SearchStarts(network, source);
    CostsOfFirst<seq<nat>>(source, [source]);
    ListsStart(source);

    while queue != []
      invariant Search(network, source, CostsOf(routeCost), done, queue, c)
      invariant Lists(source, routeCost, done)
      decreases |network| + 1 - c, InLayer(queue, c)
    {
      c := HeadLayer(network, source, CostsOf(routeCost), done, queue, c);
      var Entry(id, hop, cost) := queue[0];
      var rest := queue[1..];
      CostsOfUpdate(routeCost, id, [], cost);
      if id in routeCost && routeCost[id].1 < cost {
        SkipEntry(network, source, CostsOf(routeCost), done, queue, c);
        LayerShrinks(queue, [], c);
        queue := rest;
        continue;
      }
      AcceptedIsShortest(network, source, CostsOf(routeCost), done, queue, c);
      AcceptEntry(network, source, CostsOf(routeCost), done, queue, c);
      LayerShrinks(queue, NextEntries(network[id], hop, c + 1), c);
      var routes := [hop];
      if id in routeCost {
        var (known, curCost) := routeCost[id];
        if curCost == cost {
          routes := if hop in known then known else known + [hop];
        } else {
          assert false;  // a cheaper path is never found later
        }
      } else {
        NewNode(network, source, CostsOf(routeCost), done, queue, c, id);
      }
      CostsOfUpdate(routeCost, id, routes, cost);
      ListsAccept(source, routeCost, done, id, hop, routes, cost);
      routeCost := routeCost[id := (routes, cost)];
      done := done + {(id, hop)};
      queue := Enqueue(rest, network[id], hop, cost + 1);
    }

    SearchEnds(network, source, CostsOf(routeCost), done, c);
    paths := map x | x in routeCost :: routeCost[x].0;
    ListsAreHops(network, source, routeCost, done, c, paths);
  }

  lemma ListsAreHops(net: Network, s: nat, rc: map<nat, (seq<nat>, nat)>, done: set<(nat, nat)>, c: nat,
                     paths: map<nat, seq<nat>>)
    requires Search(net, s, CostsOf(rc), done, [], c) && Lists(s, rc, done)
    requires paths.Keys == rc.Keys && forall x :: x in rc ==> paths[x] == rc[x].0
    ensures RouteTable(net, s, paths)
  {
    SearchEnds(net, s, CostsOf(rc), done, c);
    forall x: nat, k: nat | x in rc && x != s && Dist(net, s, x, k)
      ensures Distinct(rc[x].0) && forall h: nat :: h in rc[x].0 <==> Hop(net, s, x, h, k)
    {
      DistUnique(net, s, x, k, CostsOf(rc)[x]);
    }
  }

  /** One route: the search keeps a single first hop per node, the last one found at the least cost. */
  method RouteId(network: Network, source: nat) returns (route: map<nat, nat>)
    requires Closed(network) && source in network
    ensures forall x: nat :: x in route <==> Reachable(network, source, x)
    ensures forall x: nat, k: nat :: x in route && x != source && Dist(network, source, x, k) ==>
              Hop(network, source, x, route[x], k)
  {
    hide *;
    var routeCost: map<nat, (nat, nat)> := map[source := (source, 0)];
    var queue := EnqueueFirst(network[source]);
    ghost var done: set<(nat, nat)> := {};
    ghost var c := 1;
    SearchStarts(network, source);
    CostsOfFirst<nat>(source, source);

    while queue != []
      invariant Search(network, source, CostsOf(routeCost), done, queue, c)
      invariant forall x: nat :: x in routeCost && x != source ==> (x, routeCost[x].0) in done
      decreases |network| + 1 - c, InLayer(queue, c)
    {
      c := HeadLayer(network, source, CostsOf(routeCost), done, queue, c);
      var Entry(id, hop, cost) := queue[0];
      var rest := queue[1..];
      CostsOfUpdate(routeCost, id, hop, cost);
      if id in routeCost && routeCost[id].1 < cost {
        SkipEntry(network, source, CostsOf(routeCost), done, queue, c);
        LayerShrinks(queue, [], c);
        queue := rest;
        continue;
      }
      AcceptEntry(network, source, CostsOf(routeCost), done, queue, c);
      LayerShrinks(queue, NextEntries(network[id], hop, c + 1), c);
      routeCost := routeCost[id := (hop, cost)];
      done := done + {(id, hop)};
      queue := Enqueue(rest, network[id], hop, cost + 1);
    }

    SearchEnds(network, source, CostsOf(routeCost), done, c);
    route := map x | x in routeCost :: routeCost[x].0;
    DoneAreHops(network, source, routeCost, done, c);
  }

  lemma DoneAreHops(net: Network, s: nat, rc: map<nat, (nat, nat)>, done: set<(nat, nat)>, c: nat)
    requires Search(net, s, CostsOf(rc), done, [], c)
    requires forall x: nat :: x in rc && x != s ==> (x, rc[x].0) in done
    ensures forall x: nat, k: nat :: x in rc && x != s && Dist(net, s, x, k) ==> Hop(net, s, x, rc[x].0, k)
    ensures forall x: nat :: x in rc <==> Reachable(net, s, x)
  {
    SearchEnds(net, s, CostsOf(rc), done, c);
    forall x: nat, k: nat | x in rc && x != s && Dist(net, s, x, k)
      ensures Hop(net, s, x, rc[x].0, k)
    {
      DistUnique(net, s, x, k, CostsOf(rc)[x]);
    }
  }
}
