/** Networks as adjacency lists, walks and distances in them. */
module Graphs {

  type Network = map<nat, seq<nat>>

  /** Every neighbour is itself a node of the network. */
  ghost predicate Closed(net: Network) {
    forall x :: x in net ==> forall y :: y in net[x] ==> y in net
  }

  /** There is a walk of `k` edges from `a` to `b`. */
  ghost predicate Walk(net: Network, a: nat, b: nat, k: nat)
    decreases k
  {
    if k == 0 then a == b && a in net
    else exists m :: m in net && Walk(net, a, m, k - 1) && b in net[m]
  }

  /** The shortest walk from `a` to `b` has `k` edges. */
  ghost predicate Dist(net: Network, a: nat, b: nat, k: nat) {
    Walk(net, a, b, k) && forall j: nat :: j < k ==> !Walk(net, a, b, j)
  }

  /** `h` starts a shortest walk, of `k` edges, from `s` to `x`. */
  ghost predicate Hop(net: Network, s: nat, x: nat, h: nat, k: nat) {
    k >= 1 && s in net && h in net[s] && Dist(net, s, x, k) && Walk(net, h, x, k - 1)
  }

  lemma {:induction false} WalkIn(net: Network, a: nat, b: nat, k: nat)
    requires Closed(net) && Walk(net, a, b, k)
    ensures a in net && b in net
    decreases k
  {
    if k > 0 {
      var m :| m in net && Walk(net, a, m, k - 1) && b in net[m];
      WalkIn(net, a, m, k - 1);
    }
  }

  lemma {:induction false} WalkFront(net: Network, a: nat, h: nat, b: nat, k: nat)
    requires Closed(net) && a in net && h in net[a] && Walk(net, h, b, k)
    ensures Walk(net, a, b, k + 1)
    decreases k
  {
    if k == 0 {
      assert Walk(net, a, a, 0);
    } else {
      var m :| m in net && Walk(net, h, m, k - 1) && b in net[m];
      WalkFront(net, a, h, m, k - 1);
    }
  }

  lemma {:induction false} WalkUnfront(net: Network, a: nat, b: nat, k: nat) returns (h: nat)
    requires Closed(net) && Walk(net, a, b, k + 1)
    ensures a in net && h in net[a] && Walk(net, h, b, k)
    decreases k
  {
    WalkIn(net, a, b, k + 1);
    var m :| m in net && Walk(net, a, m, k) && b in net[m];
    if k == 0 {
      h := b;
    } else {
      h := WalkUnfront(net, a, m, k - 1);
    }
  }

  lemma {:induction false} ShortestWalk(net: Network, a: nat, b: nat, k: nat) returns (d: nat)
    requires Walk(net, a, b, k)
    ensures d <= k && Dist(net, a, b, d)
    decreases k
  {
    if forall j: nat :: j < k ==> !Walk(net, a, b, j) {
      d := k;
    } else {
      var j: nat :| j < k && Walk(net, a, b, j);
      d := ShortestWalk(net, a, b, j);
    }
  }

  lemma DistUnique(net: Network, a: nat, b: nat, j: nat, k: nat)
    requires Dist(net, a, b, j) && Dist(net, a, b, k)
    ensures j == k
  {
  }

  lemma DistSelf(net: Network, a: nat)
    requires a in net
    ensures Dist(net, a, a, 0)
  {
  }

  /** Every node at distance `k >= 1` has a first hop. */
  lemma HopExists(net: Network, s: nat, x: nat, k: nat) returns (h: nat)
    requires Closed(net) && k >= 1 && Dist(net, s, x, k)
    ensures Hop(net, s, x, h, k)
  {
    h := WalkUnfront(net, s, x, k - 1);
  }

  /** First hops are exactly the neighbours one step nearer. */
  lemma HopIsNearer(net: Network, s: nat, x: nat, h: nat, k: nat)
    requires Closed(net) && k >= 1 && Dist(net, s, x, k) && s in net
    ensures Hop(net, s, x, h, k) <==> h in net[s] && Dist(net, h, x, k - 1)
  {
    if Hop(net, s, x, h, k) {
      forall j: nat | j < k - 1
        ensures !Walk(net, h, x, j)
      {
        if Walk(net, h, x, j) {
          WalkFront(net, s, h, x, j);
        }
      }
    }
  }

  /** A shortest walk's last edge leaves a node one step nearer to the start, over the same first hop. */
  lemma HopBack(net: Network, s: nat, y: nat, h: nat, k: nat) returns (m: nat)
    requires Closed(net) && k >= 1 && Hop(net, s, y, h, k + 1)
    ensures m in net && y in net[m] && Hop(net, s, m, h, k)
  {
    m :| m in net && Walk(net, h, m, k - 1) && y in net[m];
    WalkFront(net, s, h, m, k - 1);
    forall j: nat | j < k
      ensures !Walk(net, s, m, j)
    {
      if Walk(net, s, m, j) {
        assert Walk(net, s, y, j + 1);
      }
    }
  }

  /** Some node lies at every distance up to that of `x`. */
  lemma {:induction false} NearerExists(net: Network, s: nat, x: nat, k: nat, j: nat) returns (z: nat)
    requires Closed(net) && Dist(net, s, x, k) && j <= k
    ensures Dist(net, s, z, j)
    decreases k
  {
    z := x;
    if j < k {
      var m :| m in net && Walk(net, s, m, k - 1) && x in net[m];
      forall i: nat | i < k - 1
        ensures !Walk(net, s, m, i)
      {
        if Walk(net, s, m, i) {
          assert Walk(net, s, x, i + 1);
        }
      }
      z := NearerExists(net, s, m, k - 1, j);
    }
  }

  // Networks whose links go both ways

  ghost predicate Symmetric(net: Network) {
    forall x, y :: x in net && y in net[x] ==> y in net && x in net[y]
  }

  ghost predicate Reachable(net: Network, s: nat, x: nat) {
    exists k: nat :: Walk(net, s, x, k)
  }

  ghost predicate Connected(net: Network) {
    forall x, y {:trigger Reachable(net, x, y)} :: x in net && y in net ==> Reachable(net, x, y)
  }

  lemma {:induction false} WalkBack(net: Network, a: nat, b: nat, k: nat)
    requires Closed(net) && Symmetric(net) && Walk(net, a, b, k)
    ensures Walk(net, b, a, k)
    decreases k
  {
    if k > 0 {
      WalkIn(net, a, b, k);
      var m :| m in net && Walk(net, a, m, k - 1) && b in net[m];
      WalkBack(net, a, m, k - 1);
      WalkFront(net, b, m, a, k - 1);
    }
  }

  lemma {:induction false} WalkOn(net: Network, a: nat, b: nat, c: nat, j: nat, k: nat)
    requires Closed(net) && Walk(net, a, b, j) && Walk(net, b, c, k)
    ensures Walk(net, a, c, j + k)
    decreases k
  {
    if k > 0 {
      var m :| m in net && Walk(net, b, m, k - 1) && c in net[m];
      WalkOn(net, a, b, m, j, k - 1);
    }
  }

  /** A network is connected when everything in it reaches one node. */
  lemma ConnectedThrough(net: Network, hub: nat)
    requires Closed(net) && Symmetric(net) && forall x :: x in net ==> Reachable(net, x, hub)
    ensures Connected(net)
  {
    forall x, y | x in net && y in net
      ensures Reachable(net, x, y)
    {
      var j: nat :| Walk(net, x, hub, j);
      var k: nat :| Walk(net, y, hub, k);
      WalkBack(net, y, hub, k);
      WalkOn(net, x, hub, y, j, k);
    }
  }
}
