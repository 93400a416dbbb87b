/** Building the folded Clos network link by link. */
module ClosBuilder {
  import opened Graphs
  import opened Routing
  import opened Clos
  import Forwarding

  /** `net'` is `net` with `a` and `b` listed at each other's end, and nothing else changed. */
  ghost predicate Joins(net: Network, net': Network, a: nat, b: nat) {
    && net'.Keys == net.Keys
    && forall x :: x in net ==> net'[x] == net[x] + (if x == a then [b] else []) + (if x == b then [a] else [])
  }

  /** Links `src` and `dst`. A network whose links all go both ways and stay inside it remains one. */
  method Connect(net: Network, src: nat, dst: nat) returns (net': Network)
    requires src in net && dst in net
    ensures Joins(net, net', src, dst)
    ensures Closed(net) ==> Closed(net')
    ensures Symmetric(net) ==> Symmetric(net')
    ensures dst in net'[src] && src in net'[dst]
  {
    net' := net[src := net[src] + [dst]];
    net' := net'[dst := net'[dst] + [src]];
    JoinsInBothDirections(net, net', src, dst);
  }

  lemma JoinsInBothDirections(net: Network, net': Network, a: nat, b: nat)
    requires a in net && b in net && Joins(net, net', a, b)
    ensures forall x, y :: x in net ==> (y in net'[x] <==> y in net[x] || (x == a && y == b) || (x == b && y == a))
    ensures Closed(net) ==> Closed(net')
    ensures Symmetric(net) ==> Symmetric(net')
  {
  }

  /**
   How far the three loops have come: hosts, racks (and uplinks of the next), upper switches (and cores of the next).
   */
  datatype Stage = Stage(hosts: nat, racks: nat, uplinks: nat, uppers: nat, cores: nat)

  /** The link from `x` up to `y` has been made. */
  ghost predicate Made(p: Params, st: Stage, x: Device, y: Device)
    requires p.Ok()
  {
    && Up(p, x, y)
    && match x
       case Host(i) => i < st.hosts
       case Rack(r) => r < st.racks || (r == st.racks && y.Upper? && PlaneOfUpper(p, y.i) < st.uplinks)
       case Upper(w) => w < st.uppers || (w == st.uppers && y.Core? && y.i % p.Half() < st.cores)
       case Core(_) => false
  }

  ghost predicate Edge(p: Params, st: Stage, a: nat, b: nat)
    requires p.Ok()
  {
    && 1 <= a <= p.Devices() && 1 <= b <= p.Devices()
    && (Made(p, st, DeviceOf(p, a), DeviceOf(p, b)) || Made(p, st, DeviceOf(p, b), DeviceOf(p, a)))
  }

  /** The adjacency lists hold exactly the links made so far, each once. */
  ghost predicate Partial(p: Params, net: Network, st: Stage) {
    && p.Ok()
    && (forall a: nat :: a in net <==> 1 <= a <= p.Devices())
    && (forall a: nat :: a in net ==> Distinct(net[a]))
    && (forall a: nat, b: nat :: a in net ==> (b in net[a] <==> Edge(p, st, a, b)))
  }

  /** A stage that adds exactly the link from `x` up to `y`. */
  ghost predicate Adds(p: Params, st: Stage, st': Stage, x: Device, y: Device)
    requires p.Ok()
  {
    && Exists(p, x) && Exists(p, y) && !Made(p, st, x, y) && Up(p, x, y)
    && forall a, b :: Exists(p, a) && Exists(p, b) ==> (Made(p, st', a, b) <==> Made(p, st, a, b) || (a == x && b == y))
  }

  lemma UpAntisymmetric(p: Params, x: Device, y: Device)
    requires p.Ok() && Up(p, x, y)
    ensures x != y && !Up(p, y, x)
  {
  }

  lemma EdgeAfter(p: Params, st: Stage, st': Stage, x: Device, y: Device, a: nat, b: nat)
    requires p.Ok() && Adds(p, st, st', x, y)
    ensures Edge(p, st', a, b) <==>
        Edge(p, st, a, b) || (a == Id(p, x) && b == Id(p, y)) || (a == Id(p, y) && b == Id(p, x))
  {
    IdRange(p, x);
    IdRange(p, y);
    hide Made, Up, DeviceOf, Id, Exists;
    if 1 <= a <= p.Devices() && 1 <= b <= p.Devices() {
      OneDevice(p, x, a);
      OneDevice(p, x, b);
      OneDevice(p, y, a);
      OneDevice(p, y, b);
      assert Exists(p, DeviceOf(p, a)) && Exists(p, DeviceOf(p, b));
    }
  }

  lemma EdgeNew(p: Params, st: Stage, st': Stage, x: Device, y: Device)
    requires p.Ok() && Adds(p, st, st', x, y)
    ensures Id(p, x) != Id(p, y) && !Edge(p, st, Id(p, x), Id(p, y)) && !Edge(p, st, Id(p, y), Id(p, x))
  {
    IdRange(p, x);
    IdRange(p, y);
    UpAntisymmetric(p, x, y);
  }

  /** Connecting the two ends of the next link moves the network to the next stage. */
  lemma ConnectStep(p: Params, net: Network, net': Network, st: Stage, st': Stage, x: Device, y: Device)
    requires Partial(p, net, st) && Adds(p, st, st', x, y) && Joins(net, net', Id(p, x), Id(p, y))
    ensures Partial(p, net', st')
  {
    var i, j := Id(p, x), Id(p, y);
    IdRange(p, x);
    IdRange(p, y);
    EdgeNew(p, st, st', x, y);
    hide Edge, Adds, Id;
    assert net'[i] == net[i] + [j] && net'[j] == net[j] + [i];
    forall a: nat, b: nat | a in net'
      ensures b in net'[a] <==> Edge(p, st', a, b)
    {
      EdgeAfter(p, st, st', x, y, a, b);
    }
  }

  lemma EndsPresent(p: Params, net: Network, st: Stage, st': Stage, x: Device, y: Device)
    requires Partial(p, net, st) && Adds(p, st, st', x, y)
    ensures Id(p, x) in net && Id(p, y) in net
  {
    IdRange(p, x);
    IdRange(p, y);
  }

  lemma HostStage(p: Params, i: nat)
    requires p.Ok() && i < p.Hosts()
    ensures Id(p, Host(i)) == 1 + i && Id(p, Rack(RackOf(p, i))) == 1 + p.Hosts() + i / p.d
    ensures Adds(p, Stage(i, 0, 0, 0, 0), Stage(i + 1, 0, 0, 0, 0), Host(i), Rack(RackOf(p, i)))
  {
    Place(p, i);
    hide RackOf;
  }

  lemma RackStage(p: Params, r: nat, o: nat)
    requires p.Ok() && r < p.Racks() && o < p.u
    ensures PodOfRack(p, r) < p.Pods() && Id(p, Rack(r)) == 1 + p.Hosts() + r
    ensures Id(p, Upper(UpperAt(p, PodOfRack(p, r), o))) == 1 + p.Hosts() + p.Racks() + (r / p.Half() * p.u + o)
    ensures Adds(p, Stage(p.Hosts(), r, o, 0, 0), Stage(p.Hosts(), r, o + 1, 0, 0),
                 Rack(r), Upper(UpperAt(p, PodOfRack(p, r), o)))
  {
    PlaceRack(p, r);
    var w := UpperAt(p, PodOfRack(p, r), o);
    hide PodOfUpper, PlaneOfUpper, PodOfRack, RackOf, UpperAt;
    forall y: Device | y.Upper? && PodOfUpper(p, y.i) == PodOfRack(p, r) && PlaneOfUpper(p, y.i) == o
      ensures y == Upper(w)
    {
      UpperUnique(p, w, y);
    }
  }

  lemma CoreUnique(p: Params, c: nat, y: Device)
    requires p.Ok() && y.Core? && PlaneOfCore(p, y.i) == PlaneOfCore(p, c) && y.i % p.Half() == c % p.Half()
    ensures y.i == c
  {
    assert y.i == y.i / p.Half() * p.Half() + y.i % p.Half();
    assert c == c / p.Half() * p.Half() + c % p.Half();
  }

  lemma UpperStage(p: Params, w: nat, o: nat)
    requires p.Ok() && w < p.Uppers() && o < p.Half()
    ensures PlaneOfUpper(p, w) < p.u && Id(p, Upper(w)) == 1 + p.Hosts() + p.Racks() + w
    ensures Id(p, Core(CoreAt(p, PlaneOfUpper(p, w), o)))
          == 1 + p.Hosts() + p.Racks() + p.Uppers() + (p.Half() * (w % p.u) + o)
    ensures Adds(p, Stage(p.Hosts(), p.Racks(), 0, w, o), Stage(p.Hosts(), p.Racks(), 0, w, o + 1), Upper(w),
                 Core(CoreAt(p, PlaneOfUpper(p, w), o)))
  {
    PlaceUpper(p, w);
    var c := CoreAt(p, PlaneOfUpper(p, w), o);
    assert c == p.Half() * (w % p.u) + o;
    hide PodOfUpper, PlaneOfUpper, PlaneOfCore, PodOfRack, RackOf, CoreAt;
    forall y: Device | y.Core? && PlaneOfCore(p, y.i) == PlaneOfUpper(p, w) && y.i % p.Half() == o
      ensures y == Core(c)
    {
      CoreUnique(p, c, y);
    }
  }

  /** Two stages at which the same links have been made. */
  lemma SameLinks(p: Params, net: Network, st: Stage, st': Stage)
    requires Partial(p, net, st)
    requires forall x, y :: Exists(p, x) && Exists(p, y) ==> (Made(p, st, x, y) <==> Made(p, st', x, y))
    ensures Partial(p, net, st')
  {
    hide Made, Exists;
    forall a: nat, b: nat
      ensures Edge(p, st, a, b) <==> Edge(p, st', a, b)
    {
      if 1 <= a <= p.Devices() && 1 <= b <= p.Devices() {
        assert Exists(p, DeviceOf(p, a)) && Exists(p, DeviceOf(p, b));
      }
    }
  }

  lemma RackFinished(p: Params, net: Network, r: nat)
    requires Partial(p, net, Stage(p.Hosts(), r, p.u, 0, 0))
    ensures Partial(p, net, Stage(p.Hosts(), r + 1, 0, 0, 0))
  {
    hide PodOfUpper, PodOfRack, RackOf;
    SameLinks(p, net, Stage(p.Hosts(), r, p.u, 0, 0), Stage(p.Hosts(), r + 1, 0, 0, 0));
  }

  lemma UpperFinished(p: Params, net: Network, w: nat)
    requires Partial(p, net, Stage(p.Hosts(), p.Racks(), 0, w, p.Half()))
    ensures Partial(p, net, Stage(p.Hosts(), p.Racks(), 0, w + 1, 0))
  {
    hide PodOfUpper, PodOfRack, RackOf, PlaneOfUpper, PlaneOfCore;
    SameLinks(p, net, Stage(p.Hosts(), p.Racks(), 0, w, p.Half()), Stage(p.Hosts(), p.Racks(), 0, w + 1, 0));
  }

  lemma AllMade(p: Params, net: Network)
    requires Partial(p, net, Stage(p.Hosts(), p.Racks(), 0, p.Uppers(), 0))
    ensures IsClos(p, net)
  {
    hide PodOfUpper, PodOfRack, RackOf, PlaneOfUpper, PlaneOfCore;
    var st := Stage(p.Hosts(), p.Racks(), 0, p.Uppers(), 0);
    forall id: nat, h: nat | id in net
      ensures h in net[id] <==> h in net && Linked(p, DeviceOf(p, id), DeviceOf(p, h))
    {
      assert h in net[id] <==> Edge(p, st, id, h);
    }
  }

  lemma NothingMade(p: Params, net: Network)
    requires p.Ok()
    requires forall a: nat :: a in net <==> 1 <= a <= p.Devices()
    requires forall a: nat :: a in net ==> net[a] == []
    ensures Partial(p, net, Stage(0, 0, 0, 0, 0))
  {
  }

  /** The sizes as the builder computes them. */
  lemma Sizes(u: nat, d: nat)
    requires Params(u, d).Ok()
    ensures var p := Params(u, d);
            var k := u + d;
            && p.Half() == k / 2 && p.Racks() == k * (k / 2) && p.Uppers() == k * u && p.Cores() == u * k / 2
            && p.Hosts() == p.Racks() * d && p.Devices() == p.Hosts() + p.Racks() + p.Uppers() + p.Cores()
  {
    var half := (u + d) / 2;
    assert u * (u + d) == 2 * (u * half) by {
      assert u + d == 2 * half;
    }
  }

  method Unconnected(nDevices: nat) returns (net: Network)
    ensures forall a: nat :: a in net <==> 1 <= a <= nDevices
    ensures forall a: nat :: a in net ==> net[a] == []
  {
    net := map[];
    for id := 1 to nDevices + 1
      invariant forall a: nat :: a in net <==> 1 <= a < id
      invariant forall a: nat :: a in net ==> net[a] == []
    {
      net := net[id := []];
    }
  }

  /** Builds the folded Clos network with `u` uplinks and `d` downlinks; hosts have the lowest ids. */
  method BuildClos(u: nat, d: nat) returns (net: Network, nHosts: nat)
    requires Params(u, d).Ok()
    ensures IsClos(Params(u, d), net) && nHosts == Params(u, d).Hosts()
  {
    hide *;
    ghost var p := Params(u, d);
    Sizes(u, d);
    var k := u + d;
    var racksPerPod := k / 2;
    var nUpperPods, nRacks, nCores := k * u, k * racksPerPod, u * k / 2;
    nHosts := nRacks * d;
    var racks := 1 + nHosts;
    var upperPods := racks + nRacks;
    var cores := upperPods + nUpperPods;
    net := Unconnected(nHosts + nRacks + nUpperPods + nCores);
    NothingMade(p, net);

    for host := 0 to nHosts
      invariant Partial(p, net, Stage(host, 0, 0, 0, 0))
    {
      HostStage(p, host);
      EndsPresent(p, net, Stage(host, 0, 0, 0, 0), Stage(host + 1, 0, 0, 0, 0), Host(host), Rack(RackOf(p, host)));
      var next := Connect(net, 1 + host, racks + host / d);
      ConnectStep(p, net, next, Stage(host, 0, 0, 0, 0), Stage(host + 1, 0, 0, 0, 0), Host(host),
                  Rack(RackOf(p, host)));
      net := next;
    }

    for rack := 0 to nRacks
      invariant Partial(p, net, Stage(nHosts, rack, 0, 0, 0))
    {
      var podId := rack / racksPerPod;
      for offset := 0 to u
        invariant Partial(p, net, Stage(nHosts, rack, offset, 0, 0))
      {
        RackStage(p, rack, offset);
        ghost var up := Upper(UpperAt(p, PodOfRack(p, rack), offset));
        EndsPresent(p, net, Stage(nHosts, rack, offset, 0, 0), Stage(nHosts, rack, offset + 1, 0, 0), Rack(rack), up);
        var next := Connect(net, racks + rack, upperPods + (podId * u + offset));
        ConnectStep(p, net, next, Stage(nHosts, rack, offset, 0, 0), Stage(nHosts, rack, offset + 1, 0, 0),
                    Rack(rack), up);
        net := next;
      }
      RackFinished(p, net, rack);
    }

    for upper := 0 to nUpperPods
      invariant Partial(p, net, Stage(nHosts, nRacks, 0, upper, 0))
    {
      var coreOffset := k / 2 * (upper % u);
      for core := 0 to k / 2
        invariant Partial(p, net, Stage(nHosts, nRacks, 0, upper, core))
      {
        UpperStage(p, upper, core);
        ghost var up := Core(CoreAt(p, PlaneOfUpper(p, upper), core));
        EndsPresent(p, net, Stage(nHosts, nRacks, 0, upper, core), Stage(nHosts, nRacks, 0, upper, core + 1),
                    Upper(upper), up);
        var next := Connect(net, upperPods + upper, cores + (coreOffset + core));
        ConnectStep(p, net, next, Stage(nHosts, nRacks, 0, upper, core), Stage(nHosts, nRacks, 0, upper, core + 1),
                    Upper(upper), up);
        net := next;
      }
      UpperFinished(p, net, upper);
    }
    AllMade(p, net);
  }

  /** The only link of host `i` is to its rack. */
  lemma HostLinks(p: Params, net: Network, i: nat, h: nat)
    requires IsClos(p, net) && i < p.Hosts()
    ensures RackOf(p, i) < p.Racks() && 1 + i in net && Id(p, Rack(RackOf(p, i))) > p.Hosts()
    ensures h in net[1 + i] <==> h == Id(p, Rack(RackOf(p, i)))
  {
    Place(p, i);
    var rack := Rack(RackOf(p, i));
    IdRange(p, rack);
    assert DeviceOf(p, 1 + i) == Host(i);
    if 1 <= h <= p.Devices() {
      OneDevice(p, rack, h);
      hide RackOf, PodOfRack, Id, DeviceOf;
    }
  }

  lemma HostDegree(p: Params, net: Network, x: nat)
    requires IsClos(p, net) && 1 <= x <= p.Hosts() && x in net
    ensures Distinct(net[x]) && |net[x]| == 1 && net[x][0] > p.Hosts()
  {
    assert Distinct(net[x]);
    assert p.Ok();
    hide IsClos, RackOf, Id, Distinct;
    var rack := Id(p, Rack(RackOf(p, x - 1)));
    forall h: nat
      ensures h in net[x] <==> rack <= h < rack + 1
    {
      HostLinks(p, net, x - 1, h);
    }
    HostLinks(p, net, x - 1, rack);
    IntervalLength(net[x], rack, 1);
    assert net[x][0] in net[x];
  }

  lemma {:induction false} IdCount(ids: set<nat>, n: nat)
    requires forall id: nat :: id in ids <==> 1 <= id <= n
    ensures |ids| == n
  {
    if n == 0 {
      assert ids == {};
    } else {
      IdCount(ids - {n}, n - 1);
    }
  }

  lemma HasHost(p: Params)
    requires p.Ok()
    ensures p.Hosts() >= 1
  {
    assert p.Half() >= 1 && p.Pods() >= 1;
    assert p.Racks() >= 1;
  }

  /** Everything reaches the first host. */
  lemma AllReachHost(p: Params, net: Network, x: nat)
    requires IsClos(p, net) && x in net
    ensures p.Hosts() >= 1 && Reachable(net, x, Id(p, Host(0)))
  {
    HasHost(p);
    var y := DeviceOf(p, x);
    if y == Host(0) {
      assert Walk(net, x, x, 0);
    } else {
      ClosHops(p, net, 0, y, 1);
    }
  }

  lemma LinksGoBothWays(p: Params, net: Network)
    requires IsClos(p, net)
    ensures Closed(net) && Symmetric(net)
  {
    hide Linked, DeviceOf;
    LinkedSymmetric(p);
  }

  /** The Clos network is a fabric: all of it is connected, and every host hangs off one switch. */
  lemma ClosIsFabric(p: Params, net: Network)
    requires IsClos(p, net)
    ensures Forwarding.Fabric(net, p.Hosts())
  {
    hide *;
    LinksGoBothWays(p, net);
    forall x | x in net
      ensures Reachable(net, x, Id(p, Host(0)))
    {
      AllReachHost(p, net, x);
    }
    ConnectedThrough(net, Id(p, Host(0)));
    forall x | x in net && x <= p.Hosts()
      ensures |net[x]| == 1 && net[x][0] > p.Hosts()
    {
      ClosIds(p, net);
      HostDegree(p, net, x);
    }
    ClosIds(p, net);
    MakesFabric(net, p.Hosts());
  }

  lemma ClosIds(p: Params, net: Network)
    requires IsClos(p, net)
    ensures forall x: nat :: x in net <==> 1 <= x <= |net|
  {
    IdCount(net.Keys, p.Devices());
    assert |net.Keys| == |net|;
  }

  lemma MakesFabric(net: Network, hosts: nat)
    requires Closed(net) && Symmetric(net) && Connected(net) && forall x: nat :: x in net <==> 1 <= x <= |net|
    requires forall x :: x in net && x <= hosts ==> |net[x]| == 1 && net[x][0] > hosts
    ensures Forwarding.Fabric(net, hosts)
  {
  }

  lemma LinkedSymmetric(p: Params)
    requires p.Ok()
    ensures forall x, y :: Linked(p, x, y) ==> Linked(p, y, x)
  {
  }

  /** What `RouteAll` computes on the Clos network are routes to every host. */
  lemma TableRoutes(p: Params, net: Network, x: Device, t: nat, paths: map<nat, seq<nat>>)
    requires IsClos(p, net) && t < p.Hosts() && Exists(p, x) && x != Host(t)
    requires RouteTable(net, Id(p, x), paths)
    ensures Id(p, Host(t)) in paths && RoutesTo(p, net, x, t, paths[Id(p, Host(t))])
  {
    ClosHops(p, net, t, x, 1);
    assert Id(p, x) != Id(p, Host(t)) by {
      IdRange(p, Host(t));
      IdRange(p, x);
    }
    assert Reachable(net, Id(p, x), Id(p, Host(t)));
  }

  /**
   In every folded Clos a packet forwarded over installed indices, whichever of them are chosen, goes from a
   switch to a host in exactly the number of steps between them, which is at most five.
   */
  lemma ClosForwarding(p: Params, net: Network, switches: seq<Forwarding.Switch>, x: Device, t: nat, path: seq<nat>,
                       i: nat)
    requires IsClos(p, net) && t < p.Hosts() && Exists(p, x) && !x.Host?
    requires Forwarding.Forwarded(net, p.Hosts(), switches, Id(p, Host(t)), path) && path[0] == Id(p, x) && i < |path|
    ensures i <= Steps(p, t, x) <= 5 && (path[i] == Id(p, Host(t)) <==> i == Steps(p, t, x))
  {
    assert Id(p, x) > p.Hosts() && 1 <= Id(p, Host(t)) <= p.Hosts();
    assert Steps(p, t, x) <= 5;
    hide Steps, DeviceOf, Forwarding.Forwarded, IsClos, RackOf, Id;
    ClosIsFabric(p, net);
    ClosHops(p, net, t, x, 1);
    WalkIn(net, Id(p, x), Id(p, Host(t)), Steps(p, t, x));
    Forwarding.ForwardingIsLoopFree(net, p.Hosts(), switches, Id(p, Host(t)), path, Steps(p, t, x), i);
  }
}
