/** The folded Clos network and its equal-cost routes, for every number of up- and downlinks. */
module Clos {
  import opened DivMod
  import opened Graphs
  import opened Routing

  /** `u` uplinks and `d` downlinks per rack switch; their sum has to be even. */
  datatype Params = Params(u: nat, d: nat) {
    ghost predicate Ok() {
      u >= 1 && d >= 1 && (u + d) % 2 == 0
    }

    function Pods(): nat { u + d }

    /** Racks per pod, and cores per upper switch. */
    function Half(): nat { (u + d) / 2 }

    function Racks(): nat { Pods() * Half() }
    function Uppers(): nat { Pods() * u }
    function Cores(): nat { u * Half() }
    function Hosts(): nat { Racks() * d }
    function Devices(): nat { Hosts() + Racks() + Uppers() + Cores() }
  }

  /** A device by its kind and its index among its kind. */
  datatype Device = Host(i: nat) | Rack(i: nat) | Upper(i: nat) | Core(i: nat)

  ghost predicate Exists(p: Params, x: Device) {
    match x
    case Host(i) => i < p.Hosts()
    case Rack(i) => i < p.Racks()
    case Upper(i) => i < p.Uppers()
    case Core(i) => i < p.Cores()
  }

  /** Ids are handed out from 1: hosts, racks, upper switches, cores. */
  ghost function Id(p: Params, x: Device): nat {
    match x
    case Host(i) => 1 + i
    case Rack(i) => 1 + p.Hosts() + i
    case Upper(i) => 1 + p.Hosts() + p.Racks() + i
    case Core(i) => 1 + p.Hosts() + p.Racks() + p.Uppers() + i
  }

  ghost function DeviceOf(p: Params, id: nat): (x: Device)
    requires 1 <= id <= p.Devices()
    ensures Exists(p, x) && Id(p, x) == id
  {
    if id <= p.Hosts() then Host(id - 1)
    else if id <= p.Hosts() + p.Racks() then Rack(id - 1 - p.Hosts())
    else if id <= p.Hosts() + p.Racks() + p.Uppers() then Upper(id - 1 - p.Hosts() - p.Racks())
    else Core(id - 1 - p.Hosts() - p.Racks() - p.Uppers())
  }

  lemma IdInjective(p: Params, x: Device, y: Device)
    requires Exists(p, x) && Exists(p, y) && Id(p, x) == Id(p, y)
    ensures x == y
  {
  }

  // Who shares a rack, a pod or a plane (the cores a position within a pod is linked to)

  ghost function RackOf(p: Params, host: nat): nat requires p.Ok() { Quotient(host, p.d) }
  ghost function PodOfRack(p: Params, rack: nat): nat requires p.Ok() { Quotient(rack, p.Half()) }
  ghost function PodOfUpper(p: Params, upper: nat): nat requires p.Ok() { Quotient(upper, p.u) }
  ghost function PlaneOfUpper(p: Params, upper: nat): nat requires p.Ok() { Remainder(upper, p.u) }
  ghost function PlaneOfCore(p: Params, core: nat): nat requires p.Ok() { Quotient(core, p.Half()) }

  ghost function PodOf(p: Params, host: nat): nat
    requires p.Ok()
  {
    PodOfRack(p, RackOf(p, host))
  }

  /**
   `x` is linked upwards to `y`: hosts to their rack, racks to the upper switches of their pod, those to their cores.
   */
  ghost predicate Up(p: Params, x: Device, y: Device)
    requires p.Ok()
  {
    match (x, y)
    case (Host(i), Rack(r)) => r == RackOf(p, i)
    case (Rack(r), Upper(w)) => PodOfUpper(p, w) == PodOfRack(p, r)
    case (Upper(w), Core(c)) => PlaneOfCore(p, c) == PlaneOfUpper(p, w)
    case _ => false
  }

  ghost predicate Linked(p: Params, x: Device, y: Device)
    requires p.Ok()
  {
    Up(p, x, y) || Up(p, y, x)
  }

  /** The network whose links are exactly those of the folded Clos. */
  ghost predicate IsClos(p: Params, net: Network) {
    && p.Ok()
    && (forall id: nat :: id in net <==> 1 <= id <= p.Devices())
    && (forall id: nat :: id in net ==> Distinct(net[id]))
    && (forall id: nat, h: nat :: id in net ==>
          (h in net[id] <==> h in net && Linked(p, DeviceOf(p, id), DeviceOf(p, h))))
  }

  // Distances by a potential

  /** Some link from `x` leads down by one. */
  ghost predicate Drops(net: Network, phi: nat -> nat, x: nat)
    requires x in net
  {
    phi(x) > 0 && exists y :: y in net[x] && phi(y) + 1 == phi(x)
  }

  /** `phi` drops along some link from every other node, and never by more than one. */
  ghost predicate Potential(net: Network, dst: nat, phi: nat -> nat) {
    && dst in net && phi(dst) == 0
    && (forall x {:trigger Drops(net, phi, x)} :: x in net && x != dst ==> Drops(net, phi, x))
    && (forall x, y :: x in net && y in net[x] ==> phi(x) <= phi(y) + 1)
  }

  lemma PhiFacts(net: Network, dst: nat, phi: nat -> nat, x: nat)
    requires Potential(net, dst, phi) && x in net
    ensures phi(x) == 0 <==> x == dst
    ensures forall y :: y in net[x] ==> phi(x) <= phi(y) + 1
  {
    assert x != dst ==> Drops(net, phi, x);
  }

  lemma PhiDrops(net: Network, dst: nat, phi: nat -> nat, x: nat) returns (y: nat)
    requires Potential(net, dst, phi) && x in net && x != dst
    ensures y in net[x] && phi(y) + 1 == phi(x)
  {
    assert Drops(net, phi, x);
    y :| y in net[x] && phi(y) + 1 == phi(x);
  }

  lemma WalkZero(net: Network, a: nat, b: nat)
    requires a in net
    ensures Walk(net, a, b, 0) <==> a == b
  {
  }

  lemma {:induction false} WalkDown(net: Network, dst: nat, phi: nat -> nat, x: nat)
    requires Closed(net) && Potential(net, dst, phi) && x in net
    ensures Walk(net, x, dst, phi(x))
    decreases phi(x)
  {
    hide Potential, Walk;
    PhiFacts(net, dst, phi, x);
    WalkZero(net, x, dst);
    if x != dst {
      var y := PhiDrops(net, dst, phi, x);
      WalkDown(net, dst, phi, y);
      WalkFront(net, x, y, dst, phi(y));
    }
  }

  lemma {:induction false} NoShorterWalk(net: Network, dst: nat, phi: nat -> nat, x: nat, j: nat)
    requires Closed(net) && Potential(net, dst, phi) && Walk(net, x, dst, j)
    ensures x in net && phi(x) <= j
    decreases j
  {
    hide Potential, Walk;
    WalkIn(net, x, dst, j);
    PhiFacts(net, dst, phi, x);
    if j > 0 {
      var h := WalkUnfront(net, x, dst, j - 1);
      NoShorterWalk(net, dst, phi, h, j - 1);
    } else {
      WalkZero(net, x, dst);
    }
  }

  lemma PhiIsDist(net: Network, dst: nat, phi: nat -> nat, x: nat)
    requires Closed(net) && Potential(net, dst, phi) && x in net
    ensures Dist(net, x, dst, phi(x))
  {
    hide Potential, Walk;
    WalkDown(net, dst, phi, x);
    forall j: nat | j < phi(x)
      ensures !Walk(net, x, dst, j)
    {
      if Walk(net, x, dst, j) {
        NoShorterWalk(net, dst, phi, x, j);
      }
    }
  }

  /** A potential is the distance, so the first hops are the neighbours where it drops. */
  lemma PotentialIsDistance(net: Network, dst: nat, phi: nat -> nat, x: nat, h: nat)
    requires Closed(net) && Potential(net, dst, phi) && x in net
    ensures Dist(net, x, dst, phi(x))
    ensures x != dst ==> (Hop(net, x, dst, h, phi(x)) <==> h in net[x] && phi(h) + 1 == phi(x))
  {
    hide Potential, Walk, Dist, Hop;
    PhiIsDist(net, dst, phi, x);
    PhiFacts(net, dst, phi, x);
    if x != dst {
      HopIsNearer(net, x, dst, h, phi(x));
      if h in net[x] {
        PhiIsDist(net, dst, phi, h);
        if Dist(net, h, dst, phi(x) - 1) {
          DistUnique(net, h, dst, phi(x) - 1, phi(h));
        }
      }
    }
  }

  // Distances in the Clos

  /** Steps from `x` to host `t`. */
  ghost function Steps(p: Params, t: nat, x: Device): nat
    requires p.Ok()
  {
    match x
    case Host(i) => if i == t then 0 else if RackOf(p, i) == RackOf(p, t) then 2
                  else if PodOf(p, i) == PodOf(p, t) then 4 else 6
    case Rack(r) => if r == RackOf(p, t) then 1 else if PodOfRack(p, r) == PodOf(p, t) then 3 else 5
    case Upper(w) => if PodOfUpper(p, w) == PodOf(p, t) then 2 else 4
    case Core(_) => 3
  }

  lemma LinkIsOneStep(p: Params, t: nat, x: Device, y: Device)
    requires p.Ok() && Linked(p, x, y)
    ensures Steps(p, t, x) + 1 == Steps(p, t, y) || Steps(p, t, y) + 1 == Steps(p, t, x)
  {
    hide RackOf, PodOfRack, PodOfUpper, PlaneOfUpper, PlaneOfCore;
  }

  lemma DivBelow(a: nat, q: nat, d: nat)
    requires a < q * d
    ensures d > 0 && a / d < q
  {
    if a / d >= q {
      if a / d > q {
        MulMonotone(q, a / d, d);
      }
    }
  }

  /** Position `o` of group `g` among groups of `size`. */
  lemma Grouped(g: nat, groups: nat, o: nat, size: nat)
    requires g < groups && o < size
    ensures g * size + o < groups * size
    ensures (g * size + o) / size == g && (g * size + o) % size == o
  {
    MulMonotone(g, groups, size);
    DivModUnique(g * size + o, size, g, o);
  }

  lemma Place(p: Params, t: nat)
    requires p.Ok() && t < p.Hosts()
    ensures RackOf(p, t) < p.Racks() && PodOf(p, t) < p.Pods()
  {
    DivBelow(t, p.Racks(), p.d);
    DivBelow(RackOf(p, t), p.Pods(), p.Half());
  }

  lemma PlaceRack(p: Params, r: nat)
    requires p.Ok() && r < p.Racks()
    ensures PodOfRack(p, r) < p.Pods()
  {
    DivBelow(r, p.Pods(), p.Half());
  }

  lemma PlaceUpper(p: Params, w: nat)
    requires p.Ok() && w < p.Uppers()
    ensures PodOfUpper(p, w) < p.Pods() && PlaneOfUpper(p, w) < p.u
  {
    DivBelow(w, p.Pods(), p.u);
  }

  lemma PlaceCore(p: Params, c: nat)
    requires p.Ok() && c < p.Cores()
    ensures PlaneOfCore(p, c) < p.u
  {
    DivBelow(c, p.u, p.Half());
  }

  /** The upper switch of a pod in a plane. */
  ghost function UpperAt(p: Params, pod: nat, plane: nat): (w: nat)
    requires p.Ok() && pod < p.Pods() && plane < p.u
    ensures w < p.Uppers() && PodOfUpper(p, w) == pod && PlaneOfUpper(p, w) == plane
  {
    Grouped(pod, p.Pods(), plane, p.u);
    pod * p.u + plane
  }

  /** The `o`-th core of a plane. */
  ghost function CoreAt(p: Params, plane: nat, o: nat): (c: nat)
    requires p.Ok() && plane < p.u && o < p.Half()
    ensures c < p.Cores() && PlaneOfCore(p, c) == plane && c % p.Half() == o
  {
    Grouped(plane, p.u, o, p.Half());
    plane * p.Half() + o
  }

  /** From everywhere but host `t` itself some link leads nearer to it. */
  lemma StepDown(p: Params, t: nat, x: Device) returns (y: Device)
    requires p.Ok() && t < p.Hosts() && Exists(p, x) && x != Host(t)
    ensures Exists(p, y) && Linked(p, x, y) && Steps(p, t, y) + 1 == Steps(p, t, x)
  {
    hide RackOf, PodOfRack, PodOfUpper, PlaneOfUpper, PlaneOfCore, UpperAt, CoreAt;
    Place(p, t);
    match x {
      case Host(i) =>
        Place(p, i);
        y := Rack(RackOf(p, i));
      case Rack(r) =>
        if r == RackOf(p, t) {
          y := Host(t);
        } else {
          PlaceRack(p, r);
          y := Upper(UpperAt(p, PodOfRack(p, r), 0));
        }
      case Upper(w) =>
        if PodOfUpper(p, w) == PodOf(p, t) {
          y := Rack(RackOf(p, t));
        } else {
          PlaceUpper(p, w);
          y := Core(CoreAt(p, PlaneOfUpper(p, w), 0));
        }
      case Core(c) =>
        PlaceCore(p, c);
        y := Upper(UpperAt(p, PodOf(p, t), PlaneOfCore(p, c)));
    }
  }

  ghost function Phi(p: Params, t: nat): nat -> nat
    requires p.Ok()
  {
    id => if 1 <= id <= p.Devices() then Steps(p, t, DeviceOf(p, id)) else 0
  }

  lemma IdRange(p: Params, x: Device)
    requires Exists(p, x)
    ensures 1 <= Id(p, x) <= p.Devices() && DeviceOf(p, Id(p, x)) == x
  {
    IdInjective(p, x, DeviceOf(p, Id(p, x)));
  }

  lemma ClosPotential(p: Params, net: Network, t: nat)
    requires IsClos(p, net) && t < p.Hosts()
    ensures Closed(net) && Potential(net, Id(p, Host(t)), Phi(p, t))
  {
    var dst, phi := Id(p, Host(t)), Phi(p, t);
    IdRange(p, Host(t));
    assert phi(dst) == 0;
    assert Closed(net);
    hide DeviceOf, Steps, Linked;
    forall x | x in net && x != dst
      ensures Drops(net, phi, x)
    {
      var y := StepDown(p, t, DeviceOf(p, x));
      IdRange(p, y);
      assert Id(p, y) in net[x] && phi(Id(p, y)) + 1 == phi(x);
    }
    forall x, y | x in net && y in net[x]
      ensures phi(x) <= phi(y) + 1
    {
      LinkIsOneStep(p, t, DeviceOf(p, x), DeviceOf(p, y));
    }
  }

  // Main results

  /** Next hops towards host `t`, by kind of device. */
  lemma ClosHops(p: Params, net: Network, t: nat, x: Device, h: nat)
    requires IsClos(p, net) && t < p.Hosts() && Exists(p, x) && x != Host(t)
    ensures 1 <= Id(p, x) <= p.Devices() && Dist(net, Id(p, x), Id(p, Host(t)), Steps(p, t, x))
    ensures Hop(net, Id(p, x), Id(p, Host(t)), h, Steps(p, t, x))
       <==> 1 <= h <= p.Devices() && Linked(p, x, DeviceOf(p, h)) && Steps(p, t, DeviceOf(p, h)) + 1 == Steps(p, t, x)
  {
    IdRange(p, x);
    IdRange(p, Host(t));
    ClosPotential(p, net, t);
    assert Id(p, x) != Id(p, Host(t));
    hide Potential, Dist, Hop, Walk, Steps, Linked;
    PotentialIsDistance(net, Id(p, Host(t)), Phi(p, t), Id(p, x), h);
  }

  lemma InGroup(y: nat, g: nat, size: nat)
    requires size > 0
    ensures y / size == g <==> g * size <= y < g * size + size
  {
    if g * size <= y < g * size + size {
      DivModUnique(y, size, g, y - g * size);
    }
  }

  /** The routes a device holds towards host `t`, as computed by `RouteAll`. */
  ghost predicate RoutesTo(p: Params, net: Network, x: Device, t: nat, hops: seq<nat>)
    requires p.Ok()
  {
    Distinct(hops) && forall h: nat :: h in hops <==> Hop(net, Id(p, x), Id(p, Host(t)), h, Steps(p, t, x))
  }

  /** Exactly the ids `first .. first + n`. */
  ghost predicate Consists(hops: seq<nat>, first: nat, n: nat) {
    |hops| == n && forall h: nat :: h in hops <==> first <= h < first + n
  }

  /** `y` is a neighbour of `x` one step nearer to host `t`. */
  ghost predicate Nearer(p: Params, t: nat, x: Device, y: Device)
    requires p.Ok()
  {
    Linked(p, x, y) && Steps(p, t, y) + 1 == Steps(p, t, x)
  }

  /** Routes that lead to the devices with ids `first .. first + n` are just those ids. */
  lemma RoutesConsist(p: Params, net: Network, t: nat, x: Device, hops: seq<nat>, first: nat, n: nat)
    requires IsClos(p, net) && t < p.Hosts() && Exists(p, x) && x != Host(t) && RoutesTo(p, net, x, t, hops)
    requires 1 <= first && first + n <= p.Devices() + 1
    requires forall h: nat :: 1 <= h <= p.Devices() ==> (Nearer(p, t, x, DeviceOf(p, h)) <==> first <= h < first + n)
    ensures Consists(hops, first, n)
  {
    assert p.Ok();
    hide Hop, IsClos, Steps, Linked, Exists;
    forall h: nat
      ensures h in hops <==> first <= h < first + n
    {
      ClosHops(p, net, t, x, h);
      if 1 <= h <= p.Devices() {
        assert Nearer(p, t, x, DeviceOf(p, h)) <==> first <= h < first + n;
      }
    }
    IntervalLength(hops, first, n);
  }

  /** Which neighbours are nearer, by kind of device. */
  lemma NearerDevices(p: Params, t: nat, x: Device, y: Device)
    requires p.Ok()
    ensures x.Rack? && x.i == RackOf(p, t) ==> (Nearer(p, t, x, y) <==> y == Host(t))
    ensures x.Rack? && x.i != RackOf(p, t) ==> (Nearer(p, t, x, y) <==>
        y.Upper? && PodOfUpper(p, y.i) == PodOfRack(p, x.i))
    ensures x.Upper? && PodOfUpper(p, x.i) == PodOf(p, t) ==> (Nearer(p, t, x, y) <==> y == Rack(RackOf(p, t)))
    ensures x.Upper? && PodOfUpper(p, x.i) != PodOf(p, t) ==> (Nearer(p, t, x, y) <==>
        y.Core? && PlaneOfCore(p, y.i) == PlaneOfUpper(p, x.i))
    ensures x.Core? ==> (Nearer(p, t, x, y) <==>
        y.Upper? && PodOfUpper(p, y.i) == PodOf(p, t) && PlaneOfUpper(p, y.i) == PlaneOfCore(p, x.i))
  {
    hide RackOf, PodOfRack, PodOfUpper, PlaneOfUpper, PlaneOfCore;
  }

  lemma OneDevice(p: Params, x: Device, h: nat)
    requires Exists(p, x) && 1 <= h <= p.Devices()
    ensures 1 <= Id(p, x) <= p.Devices() && (DeviceOf(p, h) == x <==> h == Id(p, x))
  {
    IdRange(p, x);
  }

  /** Ids of a pod's upper switches. */
  lemma UppersOfPod(p: Params, pod: nat, h: nat)
    requires p.Ok() && pod < p.Pods() && 1 <= h <= p.Devices()
    ensures var first := Id(p, Upper(UpperAt(p, pod, 0))); 1 <= first && first + p.u <= p.Devices() + 1
    ensures var first := Id(p, Upper(UpperAt(p, pod, 0)));
            DeviceOf(p, h).Upper? && PodOfUpper(p, DeviceOf(p, h).i) == pod <==> first <= h < first + p.u
  {
    var base := 1 + p.Hosts() + p.Racks();
    var last := UpperAt(p, pod, p.u - 1);
    assert UpperAt(p, pod, 0) + p.u - 1 == last;
    var y := DeviceOf(p, h);
    assert y.Upper? ==> h == base + y.i;
    if y.Upper? {
      InGroup(y.i, pod, p.u);
    }
    assert p.Hosts() + p.Racks() + p.Uppers() <= p.Devices();
    assert base <= h < base + p.Uppers() ==> y.Upper?;
  }

  /** Ids of a plane's cores. */
  lemma CoresOfPlane(p: Params, plane: nat, h: nat)
    requires p.Ok() && plane < p.u && 1 <= h <= p.Devices()
    ensures p.Half() >= 1
    ensures var first := Id(p, Core(CoreAt(p, plane, 0))); 1 <= first && first + p.Half() <= p.Devices() + 1
    ensures var first := Id(p, Core(CoreAt(p, plane, 0)));
            DeviceOf(p, h).Core? && PlaneOfCore(p, DeviceOf(p, h).i) == plane <==> first <= h < first + p.Half()
  {
    var base := 1 + p.Hosts() + p.Racks() + p.Uppers();
    var last := CoreAt(p, plane, p.Half() - 1);
    assert CoreAt(p, plane, 0) + p.Half() - 1 == last;
    var y := DeviceOf(p, h);
    assert y.Core? ==> h == base + y.i;
    if y.Core? {
      InGroup(y.i, plane, p.Half());
    }
    assert base <= h ==> y.Core?;
  }

  /** A rack switch reaches its own hosts directly and spreads everything else over all its `u` uplinks. */
  lemma RackRoutes(p: Params, net: Network, r: nat, t: nat, hops: seq<nat>)
    requires IsClos(p, net) && r < p.Racks() && t < p.Hosts() && RoutesTo(p, net, Rack(r), t, hops)
    ensures RackOf(p, t) == r ==> Consists(hops, Id(p, Host(t)), 1)
    ensures PodOfRack(p, r) < p.Pods()
    ensures RackOf(p, t) != r ==> Consists(hops, Id(p, Upper(UpperAt(p, PodOfRack(p, r), 0))), p.u)
  {
    assert p.Ok();
    hide Params.Ok, Params.Devices, Params.Hosts, Params.Racks, Params.Uppers, Params.Cores, Params.Half;
    hide IsClos, RoutesTo, Nearer, Consists, DeviceOf, Id, PodOfRack, PodOfUpper, UpperAt, RackOf;
    PlaceRack(p, r);
    Place(p, t);
    var pod := PodOfRack(p, r);
    forall h: nat | 1 <= h <= p.Devices()
      ensures RackOf(p, t) == r ==> (Nearer(p, t, Rack(r), DeviceOf(p, h)) <==> h == Id(p, Host(t)))
      ensures RackOf(p, t) != r ==> (Nearer(p, t, Rack(r), DeviceOf(p, h)) <==>
                Id(p, Upper(UpperAt(p, pod, 0))) <= h < Id(p, Upper(UpperAt(p, pod, 0))) + p.u)
    {
      NearerDevices(p, t, Rack(r), DeviceOf(p, h));
      OneDevice(p, Host(t), h);
      UppersOfPod(p, pod, h);
    }
    OneDevice(p, Host(t), 1);
    UppersOfPod(p, pod, 1);
    if RackOf(p, t) == r {
      RoutesConsist(p, net, t, Rack(r), hops, Id(p, Host(t)), 1);
    } else {
      RoutesConsist(p, net, t, Rack(r), hops, Id(p, Upper(UpperAt(p, pod, 0))), p.u);
    }
  }

  /** An upper switch goes down to the one rack of a host in its pod, and up over all its cores otherwise. */
  lemma UpperRoutes(p: Params, net: Network, w: nat, t: nat, hops: seq<nat>)
    requires IsClos(p, net) && w < p.Uppers() && t < p.Hosts() && RoutesTo(p, net, Upper(w), t, hops)
    ensures PodOf(p, t) == PodOfUpper(p, w) ==> Consists(hops, Id(p, Rack(RackOf(p, t))), 1)
    ensures PlaneOfUpper(p, w) < p.u && p.Half() >= 1
    ensures PodOf(p, t) != PodOfUpper(p, w) ==> Consists(hops, Id(p, Core(CoreAt(p, PlaneOfUpper(p, w), 0))), p.Half())
  {
    assert p.Ok();
    hide Params.Ok, Params.Devices, Params.Hosts, Params.Racks, Params.Uppers, Params.Cores, Params.Half;
    hide IsClos, RoutesTo, Nearer, Consists, DeviceOf, Id, PodOfRack, PodOfUpper, PlaneOfUpper, PlaneOfCore, CoreAt,
         RackOf, PodOf;
    PlaceUpper(p, w);
    Place(p, t);
    var plane := PlaneOfUpper(p, w);
    CoresOfPlane(p, plane, 1);
    forall h: nat | 1 <= h <= p.Devices()
      ensures PodOf(p, t) == PodOfUpper(p, w) ==> (Nearer(p, t, Upper(w), DeviceOf(p, h)) <==>
          h == Id(p, Rack(RackOf(p, t))))
      ensures PodOf(p, t) != PodOfUpper(p, w) ==> (Nearer(p, t, Upper(w), DeviceOf(p, h)) <==>
                Id(p, Core(CoreAt(p, plane, 0))) <= h < Id(p, Core(CoreAt(p, plane, 0))) + p.Half())
    {
      NearerDevices(p, t, Upper(w), DeviceOf(p, h));
      OneDevice(p, Rack(RackOf(p, t)), h);
      CoresOfPlane(p, plane, h);
    }
    OneDevice(p, Rack(RackOf(p, t)), 1);
    if PodOf(p, t) == PodOfUpper(p, w) {
      RoutesConsist(p, net, t, Upper(w), hops, Id(p, Rack(RackOf(p, t))), 1);
    } else {
      RoutesConsist(p, net, t, Upper(w), hops, Id(p, Core(CoreAt(p, plane, 0))), p.Half());
    }
  }

  /** A core has exactly one way to every host: the upper switch of that host's pod it is linked to. */
  lemma CoreRoutes(p: Params, net: Network, c: nat, t: nat, hops: seq<nat>)
    requires IsClos(p, net) && c < p.Cores() && t < p.Hosts() && RoutesTo(p, net, Core(c), t, hops)
    ensures PodOf(p, t) < p.Pods() && PlaneOfCore(p, c) < p.u
    ensures Consists(hops, Id(p, Upper(UpperAt(p, PodOf(p, t), PlaneOfCore(p, c)))), 1)
  {
    assert p.Ok();
    hide Params.Ok, Params.Devices, Params.Hosts, Params.Racks, Params.Uppers, Params.Cores, Params.Half;
    hide IsClos, RoutesTo, Nearer, Consists, DeviceOf, Id, PodOfRack, PodOfUpper, PlaneOfUpper, PlaneOfCore, UpperAt,
         RackOf, PodOf;
    PlaceCore(p, c);
    Place(p, t);
    var w := UpperAt(p, PodOf(p, t), PlaneOfCore(p, c));
    forall h: nat | 1 <= h <= p.Devices()
      ensures Nearer(p, t, Core(c), DeviceOf(p, h)) <==> h == Id(p, Upper(w))
    {
      NearerDevices(p, t, Core(c), DeviceOf(p, h));
      OneDevice(p, Upper(w), h);
      var y := DeviceOf(p, h);
      if y.Upper? && PodOfUpper(p, y.i) == PodOfUpper(p, w) && PlaneOfUpper(p, y.i) == PlaneOfUpper(p, w) {
        UpperUnique(p, w, y);
      }
    }
    OneDevice(p, Upper(w), 1);
    RoutesConsist(p, net, t, Core(c), hops, Id(p, Upper(w)), 1);
  }

  /** Pod and plane determine an upper switch. */
  lemma UpperUnique(p: Params, w: nat, y: Device)
    requires p.Ok() && y.Upper? && PodOfUpper(p, y.i) == PodOfUpper(p, w) && PlaneOfUpper(p, y.i) == PlaneOfUpper(p, w)
    ensures y.i == w
  {
    assert y.i == y.i / p.u * p.u + y.i % p.u;
    assert w == w / p.u * p.u + w % p.u;
  }
}
