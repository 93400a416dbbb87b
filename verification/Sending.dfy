/** What a server's reactions put on its link, and when, and which timers they set and use up. */
module Sending {
  import opened Events
  import opened NetworkEvents
  import opened Tcp
  import opened Timers
  import opened Server
  import opened Wire

  // The wire

  /** A train is on the wire back to back, and the link is free again after its last packet. */
  lemma {:induction false} TrainOnWire(id: nat, packets: seq<Packet>, torTime: nat, bandwidth: nat, latency: nat)
    requires bandwidth > 0
    ensures var train := Train(id, packets, torTime, bandwidth, latency);
            && BackToBack(train, torTime, bandwidth, latency)
            && (forall k :: 0 <= k < |packets| ==>
                  train[k].src == id && train[k].eventType == ModelEvent(PacketArrival(packets[k])))
            && TxEnd(packets, torTime, bandwidth) == torTime + OnWire(Sizes(train), bandwidth)
    decreases |packets|
  {
    hide OnWire;
    if packets == [] {
      EmptyTrain(id, torTime, bandwidth, latency);
      NoneOnWire(bandwidth);
    } else {
      var n := |packets| - 1;
      TrainOnWire(id, packets[..n], torTime, bandwidth, latency);
      var train := Train(id, packets, torTime, bandwidth, latency);
      var e := train[n];
      assert train == Train(id, packets[..n], torTime, bandwidth, latency) + [e];
      OneMoreBackToBack(Train(id, packets[..n], torTime, bandwidth, latency), e, torTime, bandwidth, latency);
    }
  }

  lemma NoneOnWire(bandwidth: nat)
    requires bandwidth > 0
    ensures OnWire(Sizes([]), bandwidth) == 0
  {
  }

  /**
   Whatever a server sends in one reaction goes out back to back from the moment its link is free, and the link is
   free again when the last packet has been transmitted.
   */
  lemma ReactionOnWire(cfg: Config, e: ModelEvent, s: Snapshot, s': Snapshot)
    requires cfg.bandwidth > 0 && Reacted(cfg, e, s, s') && e.eventType.ModelEvent?
    ensures s.torQueue <= s'.torQueue
    ensures var sent := s'.torQueue[|s.torQueue|..];
            && BackToBack(sent, s.torTime, cfg.bandwidth, cfg.latency)
            && s'.torTime == s.torTime + OnWire(Sizes(sent), cfg.bandwidth)
  {
    hide Reacted, BackToBack;
    var packets := ReactionIsTrain(cfg, e, s, s');
    TrainOnWire(cfg.id, packets, s.torTime, cfg.bandwidth, cfg.latency);
  }

  /** Data packets of flow `f`, one 1500-byte packet each `12000 / bandwidth`. */
  ghost predicate DataOnWire(cfg: Config, f: FlowState, seqNums: seq<nat>, start: nat, es: seq<ModelEvent>)
    requires cfg.bandwidth > 0
  {
    && |es| == |seqNums|
    && forall k :: 0 <= k < |es| ==>
         && es[k].time == start + (k + 1) * (12000 / cfg.bandwidth) + cfg.latency && es[k].src == cfg.id
         && es[k].eventType == ModelEvent(PacketArrival(Packet(f.src, f.dst, seqNums[k], 1500, false, f.flowId, 0)))
  }

  lemma BurstOnWire(cfg: Config, f: FlowState, seqNums: seq<nat>, start: nat)
    requires cfg.bandwidth > 0
    ensures DataOnWire(cfg, f, seqNums, start, Train(cfg.id, PacketsOf(f, seqNums), start, cfg.bandwidth, cfg.latency))
    ensures TxEnd(PacketsOf(f, seqNums), start, cfg.bandwidth) == start + |seqNums| * (12000 / cfg.bandwidth)
  {
    var packets := PacketsOf(f, seqNums);
    var es := Train(cfg.id, packets, start, cfg.bandwidth, cfg.latency);
    TrainOnWire(cfg.id, packets, start, cfg.bandwidth, cfg.latency);
    hide OnWire, Train, TxEnd;
    assert forall k :: 0 <= k < |es| ==> SizeOf(es[k]) == 1500;
    SameSizes(Sizes(es), 1500, cfg.bandwidth);
    forall k | 0 <= k < |es|
      ensures es[k].time == start + (k + 1) * (12000 / cfg.bandwidth) + cfg.latency
    {
      SameSizes(Sizes(es[..k + 1]), 1500, cfg.bandwidth);
    }
  }

  // Each kind of event

  /** `n` is the number of packets of a new flow's first burst: all there are, but no more than 30. */
  ghost predicate FirstWindow(n: nat, sizeByte: nat) {
    && n <= 30 && (n < 30 ==> sizeByte <= 1500 * n) && (n > 0 ==> 1500 * (n - 1) < sizeByte)
  }

  lemma WindowIs(f: FlowState, time: nat)
    requires f == FreshFlow(f.flowId, f.src, f.dst, f.sizeByte)
    ensures FirstWindow(AfterStart(f, time).nextSeq, f.sizeByte)
  {
  }

  /** Timers for the packets `seqNums` of flow `f`, 2_000_000 from `t`. */
  ghost predicate Timed(before: multiset<Timer>, after: multiset<Timer>, t: nat, f: nat, seqNums: seq<nat>) {
    forall x: Timer :: after[x] == before[x] +
      if x.time == t + 2_000_000 && x.flowId == f && x.seqNum in seqNums then 1 else 0
  }

  lemma TimersSet(before: multiset<Timer>, t: nat, f: nat, seqNums: seq<nat>)
    requires forall i, j :: 0 <= i < j < |seqNums| ==> seqNums[i] != seqNums[j]
    ensures Timed(before, before + multiset(TimersFor(t, f, seqNums)), t, f, seqNums)
  {
    forall x: Timer
      ensures multiset(TimersFor(t, f, seqNums))[x]
              == if x.time == t + 2_000_000 && x.flowId == f && x.seqNum in seqNums then 1 else 0
    {
      DistinctOnce(t, f, seqNums, x);
    }
  }

  /** Packets sent for one flow: on the wire, and timed. */
  lemma LaunchedSends(cfg: Config, t: nat, f: FlowState, seqNums: seq<nat>, s: Snapshot, s': Snapshot)
    requires cfg.bandwidth > 0 && Launched(cfg, t, f, seqNums, s, s')
    requires forall i, j :: 0 <= i < j < |seqNums| ==> seqNums[i] != seqNums[j]
    ensures s.torQueue <= s'.torQueue && DataOnWire(cfg, f, seqNums, s.torTime, s'.torQueue[|s.torQueue|..])
    ensures s'.torTime == s.torTime + |seqNums| * (12000 / cfg.bandwidth)
    ensures Timed(s.timeouts, s'.timeouts, t, f.flowId, seqNums)
  {
    BurstOnWire(cfg, f, seqNums, s.torTime);
    TimersSet(s.timeouts, t, f.flowId, seqNums);
    hide Train, TxEnd, DataOnWire, Timed, PacketsOf, TimersFor;
  }

  /** A new flow sends its first window in order, from the moment the link is free, each packet with its timer. */
  lemma FlowSends(cfg: Config, e: ModelEvent, s: Snapshot, s': Snapshot, src: nat, dst: nat, sizeByte: nat)
      returns (n: nat, f: FlowState)
    requires cfg.bandwidth > 0 && Reacted(cfg, e, s, s')
    requires e.eventType == ModelEvent(NetworkEvent.Flow(src, dst, sizeByte))
    ensures FirstWindow(n, sizeByte) && s.torQueue <= s'.torQueue && s'.flows == s.flows + [f]
    ensures f.src == src && f.dst == dst && f.sizeByte == sizeByte && f.flowId == |s.flows| && |f.acked| == n
    ensures f.start == e.time && f.reports == [] && forall k :: 0 <= k < n ==> !f.acked[k]
    ensures DataOnWire(cfg, f, Consecutive(0, n), s.torTime, s'.torQueue[|s.torQueue|..])
    ensures s'.torTime == s.torTime + n * (12000 / cfg.bandwidth)
    ensures Timed(s.timeouts, s'.timeouts, e.time, |s.flows|, Consecutive(0, n))
  {
    f := AfterStart(FreshFlow(|s.flows|, src, dst, sizeByte), e.time);
    n := f.nextSeq;
    WindowIs(FreshFlow(|s.flows|, src, dst, sizeByte), e.time);
    hide Launched;
    LaunchedSends(cfg, e.time, f, Consecutive(0, n), s, s');
  }

  /** A first acknowledgement lets exactly the next packet go, if there is one left; a repeated one none. */
  lemma AckSendsNext(cfg: Config, e: ModelEvent, s: Snapshot, s': Snapshot, p: Packet)
    requires cfg.bandwidth > 0 && Reacted(cfg, e, s, s') && e.eventType == ModelEvent(PacketArrival(p)) && p.isAck
    ensures p.flowId < |s.flows| && p.seqNum < |s.flows[p.flowId].acked| && s.torQueue <= s'.torQueue
    ensures var f := s.flows[p.flowId];
            var next := if !f.acked[p.seqNum] && 1500 * f.nextSeq < f.sizeByte then [f.nextSeq] else [];
            && DataOnWire(cfg, f, next, s.torTime, s'.torQueue[|s.torQueue|..])
            && s'.torTime == s.torTime + |next| * (12000 / cfg.bandwidth)
            && Timed(s.timeouts, s'.timeouts, e.time, f.flowId, next)
  {
    var f := s.flows[p.flowId];
    EnoughPackets(f.nextSeq, f.sizeByte);
    hide Launched, AfterAck;
    LaunchedSends(cfg, e.time, f, AckSends(f, p.seqNum), s, s');
  }

  lemma OneAck(cfg: Config, ack: Packet, start: nat)
    requires cfg.bandwidth > 0 && ack.sizeByte == 10
    ensures Train(cfg.id, [ack], start, cfg.bandwidth, cfg.latency)
            == [Event(start + 80 / cfg.bandwidth + cfg.latency, cfg.id, ModelEvent(PacketArrival(ack)))]
    ensures TxEnd([ack], start, cfg.bandwidth) == start + 80 / cfg.bandwidth
  {
    TrainOnWire(cfg.id, [ack], start, cfg.bandwidth, cfg.latency);
    var train := Train(cfg.id, [ack], start, cfg.bandwidth, cfg.latency);
    hide Train, TxEnd, OnWire;
    assert train == [train[0]] && train[..0 + 1] == train;
    SameSizes(Sizes(train), 10, cfg.bandwidth);
  }

  /** Data is answered by ten bytes that carry its flow and sequence numbers back to where it came from. */
  lemma DataAnswered(cfg: Config, e: ModelEvent, s: Snapshot, s': Snapshot, p: Packet)
    requires cfg.bandwidth > 0 && Reacted(cfg, e, s, s') && e.eventType == ModelEvent(PacketArrival(p)) && !p.isAck
    ensures s'.torQueue == s.torQueue + [Event(s.torTime + 80 / cfg.bandwidth + cfg.latency, cfg.id,
              ModelEvent(PacketArrival(Packet(cfg.id, p.src, p.seqNum, 10, true, p.flowId, p.sentNs))))]
    ensures s'.torTime == s.torTime + 80 / cfg.bandwidth && s'.timeouts == s.timeouts && s'.flows == s.flows
  {
    hide Train, TxEnd;
    OneAck(cfg, p.(src := cfg.id, dst := p.src, isAck := true, sizeByte := 10), s.torTime);
  }

  // Timeouts

  /** Timer `x` comes before timer `y`: by flow, then by sequence number. */
  ghost predicate Before(x: Timer, y: Timer) {
    x.flowId < y.flowId || (x.flowId == y.flowId && x.seqNum < y.seqNum)
  }

  /** Of the timers due at `t`, `x` is the first. */
  ghost predicate FirstDue(t: nat, heap: multiset<Timer>, x: Timer) {
    x in heap && x.time <= t && forall y :: y in heap && y.time <= t ==> y == x || Before(x, y)
  }

  /**
   A Timeout uses up the first of the timers that are due, in the order of flows and sequence numbers, and no other.
   Unless its packet has been acknowledged, it goes out again, with a new timer. Without a timer due nothing happens.
   */
  lemma TimeoutSendsFirst(cfg: Config, e: ModelEvent, s: Snapshot, s': Snapshot) returns (x: Option<Timer>)
    requires cfg.bandwidth > 0 && Reacted(cfg, e, s, s') && e.eventType == ModelEvent(Timeout)
    ensures s.torQueue <= s'.torQueue && s'.flows == s.flows
    ensures x.None? ==> (forall y :: y in s.timeouts ==> e.time < y.time) && s'.timeouts == s.timeouts
                        && s'.torQueue == s.torQueue && s'.torTime == s.torTime
    ensures x.Some? ==>
              && FirstDue(e.time, s.timeouts, x.value) && x.value.time == e.time
              && x.value.flowId < |s.flows| && x.value.seqNum < |s.flows[x.value.flowId].acked|
              && var f := s.flows[x.value.flowId];
                 var again := if f.acked[x.value.seqNum] then [] else [x.value.seqNum];
                 && DataOnWire(cfg, f, again, s.torTime, s'.torQueue[|s.torQueue|..])
                 && s'.torTime == s.torTime + |again| * (12000 / cfg.bandwidth)
                 && Timed(s.timeouts - multiset{x.value}, s'.timeouts, e.time, x.value.flowId, again)
  {
    hide TimeoutOutcome, DataOnWire, Timed, NextPending, FirstDue;
    x :| TimedOut(cfg, e.time, s, s', x);
    var sent := s'.torQueue[|s.torQueue|..];
    if x.Some? {
      Resent(cfg, e.time, s.timeouts, s.flows, s.torTime, sent, s'.torTime, s'.timeouts, x.value);
    } else {
      NotDue(cfg, e.time, s.timeouts, s.flows, s.torTime, sent, s'.torTime, s'.timeouts);
      assert s'.torQueue == s.torQueue + sent;
    }
  }

  lemma NotDue(cfg: Config, t: nat, heap: multiset<Timer>, flows: seq<FlowState>, start: nat, sent: seq<ModelEvent>,
               end: nat, heap': multiset<Timer>)
    requires cfg.bandwidth > 0
    requires TimeoutOutcome(t, cfg.id, heap, flows, start, cfg.bandwidth, cfg.latency, sent, end, heap', None)
    ensures (forall y :: y in heap ==> t < y.time) && heap' == heap && sent == [] && end == start
  {
  }

  lemma Resent(cfg: Config, t: nat, heap: multiset<Timer>, flows: seq<FlowState>, start: nat, sent: seq<ModelEvent>,
               end: nat, heap': multiset<Timer>, x: Timer)
    requires cfg.bandwidth > 0
    requires TimeoutOutcome(t, cfg.id, heap, flows, start, cfg.bandwidth, cfg.latency, sent, end, heap', Some(x))
    ensures FirstDue(t, heap, x) && x.time == t && x.flowId < |flows| && x.seqNum < |flows[x.flowId].acked|
    ensures var f := flows[x.flowId];
            var again := if f.acked[x.seqNum] then [] else [x.seqNum];
            && DataOnWire(cfg, f, again, start, sent) && end == start + |again| * (12000 / cfg.bandwidth)
            && Timed(heap - multiset{x}, heap', t, x.flowId, again)
  {
    DueIsFirst(t, heap, x);
    hide DataOnWire, Timed, Train, TxEnd, PacketsOf, TimersFor, FirstDue, Due;
    var again := TimeoutSends(flows[x.flowId], x.seqNum);
    BurstOnWire(cfg, flows[x.flowId], again, start);
    TimersSet(heap - multiset{x}, t, x.flowId, again);
  }

  lemma DueIsFirst(t: nat, heap: multiset<Timer>, x: Timer)
    requires x.time == t
    ensures Due(t, heap, x) ==> FirstDue(t, heap, x)
  {
  }

  /** The next Timeout is sent for the earliest timer there is then, or for 2_000_000 later, whichever is first. */
  lemma NextTimeoutIs(cfg: Config, e: ModelEvent, s: Snapshot, s': Snapshot)
    requires cfg.bandwidth > 0 && Reacted(cfg, e, s, s') && e.eventType == ModelEvent(Timeout)
    ensures s'.selfQueue == s.selfQueue + [Event(s'.pending, cfg.id, ModelEvent(Timeout))]
    ensures s'.pending <= e.time + 2_000_000 && forall x :: x in s'.timeouts ==> s'.pending <= x.time
    ensures s'.pending == e.time + 2_000_000 || exists x :: x in s'.timeouts && x.time == s'.pending
  {
  }
}
