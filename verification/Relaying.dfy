/** What becomes of packets that a router has to forward, over one turn and over many. */
module Relaying {
  import opened Events
  import opened NetworkEvents
  import opened EventLoops
  import opened Router
  import opened Wire
  import MergerSpec

  /** The turn's event is packet `p`. */
  ghost predicate Gets(turn: Turn<Out>, p: Packet) {
    turn.event.eventType == ModelEvent(PacketArrival(p))
  }

  /**
   A packet goes to one of its next hops `d`, and is lost if and only if the link there is booked for more than
   12_000_000 times the bandwidth beyond its arrival. If not, it waits for the link as long as that is busy.
   */
  lemma LostIff(cfg: Config, turn: Turn<Out>, p: Packet) returns (d: nat)
    requires RouterTurn(cfg, turn) && Gets(turn, p)
    ensures p.dst < |cfg.route| && d in cfg.route[p.dst]
    ensures d < |turn.before.queues| == |turn.before.times| == |turn.after.queues| == |turn.after.times|
    ensures var t, clock := turn.event.time, turn.before.times[d];
            if t + 12_000_000 * cfg.bandwidth < clock then turn.after == turn.before
            else
              var end := (if clock <= t then t else clock) + 8 * p.sizeByte / cfg.bandwidth;
              && turn.after.times == turn.before.times[d := end]
              && turn.after.queues == turn.before.queues[d := turn.before.queues[d]
                   + [Event(end + cfg.latency, cfg.id, ModelEvent(PacketArrival(p)))]]
  {
    var t, o, o' := turn.event.time, turn.before, turn.after;
    d :| d in cfg.route[p.dst] && Relayed(cfg, t, p, d, o, o');
    SameLimit(t, cfg.bandwidth);
    if t + 12_000_000 * cfg.bandwidth < o.times[d] {
      assert o'.queues == o.queues && o'.times == o.times;
    }
  }

  lemma SameLimit(t: nat, bandwidth: nat)
    ensures t + 1000 * MTU_BITS * bandwidth == t + 12_000_000 * bandwidth
  {
  }

  /** Every turn gets a packet for link `d`. */
  ghost predicate AllFor(cfg: Config, turns: seq<Turn<Out>>, d: nat) {
    forall k :: 0 <= k < |turns| ==> IsFor(cfg, turns[k], d)
  }

  ghost predicate IsFor(cfg: Config, turn: Turn<Out>, d: nat) {
    && turn.event.eventType.ModelEvent? && turn.event.eventType.model.PacketArrival?
    && var p := turn.event.eventType.model.packet;
       p.dst < |cfg.route| && forall x :: x in cfg.route[p.dst] ==> x == d
  }

  ghost function EventsOf(turns: seq<Turn<Out>>): (es: seq<ModelEvent>)
    ensures |es| == |turns| && forall k :: 0 <= k < |turns| ==> es[k] == turns[k].event
  {
    seq(|turns|, k requires 0 <= k < |turns| => turns[k].event)
  }

  /** Packets of a busy period from `start` on: each is received before the link is through with those before it. */
  ghost predicate Busy(es: seq<ModelEvent>, start: nat, bandwidth: nat)
    requires bandwidth > 0
  {
    forall k :: 0 <= k < |es| ==> start <= es[k].time <= start + OnWire(Sizes(es[..k]), bandwidth)
  }

  /** When each is received the backlog is within the limit. */
  ghost predicate WithinLimit(es: seq<ModelEvent>, start: nat, bandwidth: nat)
    requires bandwidth > 0
  {
    forall k :: 0 <= k < |es| ==>
      start + OnWire(Sizes(es[..k]), bandwidth) <= es[k].time + 12_000_000 * bandwidth
  }

  /** The same packets. */
  ghost predicate SamePackets(es: seq<ModelEvent>, fs: seq<ModelEvent>) {
    |es| == |fs| && forall k :: 0 <= k < |es| ==> es[k].eventType == fs[k].eventType
  }

  /**
   Queueing: over a busy period of a link none of its packets is lost, they leave in the order received and back to
   back, from the moment the first was received.
   */
  lemma {:induction false} BusyPeriod(cfg: Config, turns: seq<Turn<Out>>, m: MergerSpec.MState<NetworkEvent>,
                                      m': MergerSpec.MState<NetworkEvent>, o: Out, o': Out, d: nat, start: nat)
      returns (sent: seq<ModelEvent>)
    requires Turns(Answers(cfg), turns, m, m', o, o') && AllFor(cfg, turns, d) && cfg.bandwidth > 0
    requires d < |o.queues| == |o.times| && o.times[d] <= start
    requires Busy(EventsOf(turns), start, cfg.bandwidth) && WithinLimit(EventsOf(turns), start, cfg.bandwidth)
    ensures |o'.queues| == |o'.times| == |o.queues| && o'.queues[d] == o.queues[d] + sent
    ensures SamePackets(EventsOf(turns), sent) && BackToBack(sent, start, cfg.bandwidth, cfg.latency)
    ensures if turns == [] then o'.times[d] <= start
            else o'.times[d] == start + OnWire(Sizes(sent), cfg.bandwidth)
    decreases |turns|
  {
    hide RouterTurn, OnWire, Chose, Turns, BackToBack, Busy, WithinLimit, AllFor;
    sent := [];
    LastTurn(Answers(cfg), turns, m, m', o, o');
    if turns == [] {
      NothingSent(start, cfg.bandwidth, cfg.latency);
      assert o.queues[d] + [] == o.queues[d];
    } else {
      var n := |turns| - 1;
      Shorter(cfg, turns, d, start);
      var before := BusyPeriod(cfg, turns[..n], m, turns[n].call[0], o, turns[n].before, d, start);
      var e := NextInPeriod(cfg, turns, o, d, start, before);
      sent := before + [e];
      assert (o.queues[d] + before) + [e] == o.queues[d] + sent;
    }
  }

  /** The last packet of a busy period leaves right after those before it. */
  lemma NextInPeriod(cfg: Config, turns: seq<Turn<Out>>, o: Out, d: nat, start: nat, before: seq<ModelEvent>)
      returns (e: ModelEvent)
    requires turns != [] && AllFor(cfg, turns, d) && RouterTurn(cfg, turns[|turns| - 1]) && cfg.bandwidth > 0
    requires Busy(EventsOf(turns), start, cfg.bandwidth) && WithinLimit(EventsOf(turns), start, cfg.bandwidth)
    requires SamePackets(EventsOf(turns[..|turns| - 1]), before)
    requires BackToBack(before, start, cfg.bandwidth, cfg.latency)
    requires var x := turns[|turns| - 1].before;
             && d < |x.queues| == |x.times|
             && if before == [] then x.times[d] <= start
                else x.times[d] == start + OnWire(Sizes(before), cfg.bandwidth)
    ensures var x, x' := turns[|turns| - 1].before, turns[|turns| - 1].after;
            && |x'.queues| == |x'.times| == |x.queues| && x'.queues[d] == x.queues[d] + [e]
            && x'.times[d] == start + OnWire(Sizes(before + [e]), cfg.bandwidth)
    ensures SamePackets(EventsOf(turns), before + [e])
    ensures BackToBack(before + [e], start, cfg.bandwidth, cfg.latency)
  {
    hide RouterTurn, OnWire, BackToBack;
    var n := |turns| - 1;
    var es, fs := EventsOf(turns), EventsOf(turns[..n]);
    assert fs == es[..n] && IsFor(cfg, turns[n], d) && Sizes(before) == Sizes(fs);
    var p := turns[n].event.eventType.model.packet;
    var x := LostIff(cfg, turns[n], p);
    NothingSent(start, cfg.bandwidth, cfg.latency);
    assert es[n] == turns[n].event;
    var end := start + OnWire(Sizes(before), cfg.bandwidth) + 8 * p.sizeByte / cfg.bandwidth;
    e := Event(end + cfg.latency, cfg.id, ModelEvent(PacketArrival(p)));
    OneMoreBackToBack(before, e, start, cfg.bandwidth, cfg.latency);
  }

  lemma NothingSent(start: nat, bandwidth: nat, latency: nat)
    requires bandwidth > 0
    ensures OnWire(Sizes([]), bandwidth) == 0 && BackToBack([], start, bandwidth, latency)
    ensures EventsOf([]) == [] && SamePackets([], [])
  {
  }

  lemma Shorter(cfg: Config, turns: seq<Turn<Out>>, d: nat, start: nat)
    requires turns != [] && AllFor(cfg, turns, d) && cfg.bandwidth > 0
    requires Busy(EventsOf(turns), start, cfg.bandwidth) && WithinLimit(EventsOf(turns), start, cfg.bandwidth)
    ensures var fs := EventsOf(turns[..|turns| - 1]);
            && AllFor(cfg, turns[..|turns| - 1], d)
            && Busy(fs, start, cfg.bandwidth) && WithinLimit(fs, start, cfg.bandwidth)
  {
    hide OnWire, IsFor;
    var n := |turns| - 1;
    var es, fs := EventsOf(turns), EventsOf(turns[..n]);
    forall k | 0 <= k < n
      ensures fs[..k] == es[..k] && fs[k] == es[k]
    {
    }
  }

  lemma AllSame(es: seq<ModelEvent>, size: nat, bandwidth: nat)
    requires bandwidth > 0 && forall k :: 0 <= k < |es| ==> SizeOf(es[k]) == size
    ensures OnWire(Sizes(es), bandwidth) == |es| * (8 * size / bandwidth)
  {
    SameSizes(Sizes(es), size, bandwidth);
  }

  lemma MulUpTo(k: nat, n: nat, w: nat)
    requires k <= n
    ensures k * w <= n * w
  {
  }

  /** A volley: packets of one size, all received at `t`, few enough for the limit. */
  ghost predicate Volley(es: seq<ModelEvent>, t: nat, size: nat, bandwidth: nat)
    requires bandwidth > 0
  {
    && (forall k :: 0 <= k < |es| ==> es[k].time == t && SizeOf(es[k]) == size)
    && (|es| - 1) * (8 * size / bandwidth) <= 12_000_000 * bandwidth
  }

  lemma VolleyIsBusy(es: seq<ModelEvent>, t: nat, size: nat, bandwidth: nat)
    requires bandwidth > 0 && Volley(es, t, size, bandwidth)
    ensures Busy(es, t, bandwidth) && WithinLimit(es, t, bandwidth)
  {
    hide OnWire, SizeOf;
    var w := 8 * size / bandwidth;
    forall k | 0 <= k < |es|
      ensures es[k].time == t && OnWire(Sizes(es[..k]), bandwidth) == k * w && k * w <= (|es| - 1) * w
    {
      AllSame(es[..k], size, bandwidth);
      MulUpTo(k, |es| - 1, w);
    }
  }

  /** `n` packets of one size, all received at `t` for a free link: the k-th arrives after k times on the wire. */
  lemma VolleyArrives(cfg: Config, turns: seq<Turn<Out>>, m: MergerSpec.MState<NetworkEvent>,
                      m': MergerSpec.MState<NetworkEvent>, o: Out, o': Out, d: nat, t: nat, size: nat)
    requires Turns(Answers(cfg), turns, m, m', o, o') && AllFor(cfg, turns, d) && cfg.bandwidth > 0
    requires d < |o.queues| == |o.times| && o.times[d] <= t && Volley(EventsOf(turns), t, size, cfg.bandwidth)
    ensures |o'.queues| == |o.queues| && |o'.queues[d]| == |o.queues[d]| + |turns|
    ensures forall k :: 0 <= k < |turns| ==>
              var e := o'.queues[d][|o.queues[d]| + k];
              && e.eventType == turns[k].event.eventType
              && e.time == t + (k + 1) * (8 * size / cfg.bandwidth) + cfg.latency
  {
    hide RouterTurn, OnWire, Chose, Turns, AllFor, Busy, WithinLimit;
    VolleyIsBusy(EventsOf(turns), t, size, cfg.bandwidth);
    var sent := BusyPeriod(cfg, turns, m, m', o, o', d, t);
    forall k | 0 <= k < |turns|
      ensures sent[k].eventType == turns[k].event.eventType
      ensures sent[k].time == t + (k + 1) * (8 * size / cfg.bandwidth) + cfg.latency
    {
      assert sent[k].eventType == EventsOf(turns)[k].eventType;
      VolleyTimes(EventsOf(turns), sent, t, size, cfg.bandwidth, cfg.latency, k);
    }
  }

  lemma VolleyTimes(es: seq<ModelEvent>, sent: seq<ModelEvent>, t: nat, size: nat, bandwidth: nat, latency: nat, k: nat)
    requires bandwidth > 0 && Volley(es, t, size, bandwidth) && SamePackets(es, sent) && k < |sent|
    requires BackToBack(sent, t, bandwidth, latency)
    ensures sent[k].time == t + (k + 1) * (8 * size / bandwidth) + latency
  {
    hide OnWire;
    var head := sent[..k + 1];
    forall j | 0 <= j < |head|
      ensures SizeOf(head[j]) == size
    {
      assert head[j].eventType == es[j].eventType;
    }
    AllSame(head, size, bandwidth);
  }
}
