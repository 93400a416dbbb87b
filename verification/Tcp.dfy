/** Flows: a fixed window of packets, acknowledgements, and retransmission on timeout. */
module Tcp {
  import opened NetworkEvents

  const BYTES_PER_PACKET := 1500
  const MIN_RTO := 2_000_000
  const INITIAL_CWND := 30

  datatype Option<+T> = None | Some(value: T)

  /** The completion line a flow prints. */
  datatype Report = Report(src: nat, dst: nat, start: nat, end: nat, sizeByte: nat, fct: nat)

  /** Delay, flow and sequence number. */
  type TimeoutRequest = (nat, nat, nat)

  /** A flow between two calls, when no retransmission is queued. */
  datatype FlowState = FlowState(flowId: nat, src: nat, dst: nat, sizeByte: nat, start: nat, cwnd: nat,
                                 outstanding: nat, nAcked: nat, nextSeq: nat, acked: seq<bool>, reports: seq<Report>)

  /** How many packets the flow consists of. */
  function Segments(sizeByte: nat): nat {
    (sizeByte + BYTES_PER_PACKET - 1) / BYTES_PER_PACKET
  }

  lemma EnoughPackets(n: nat, sizeByte: nat)
    ensures n * BYTES_PER_PACKET >= sizeByte <==> Segments(sizeByte) <= n
  {
  }

  function Count(acked: seq<bool>): (n: nat)
    ensures n <= |acked|
  {
    if acked == [] then 0 else (if acked[0] then 1 else 0) + Count(acked[1..])
  }

  lemma {:induction false} CountAck(acked: seq<bool>, s: nat)
    requires s < |acked| && !acked[s]
    ensures Count(acked[s := true]) == Count(acked) + 1
  {
    if s > 0 {
      CountAck(acked[1..], s - 1);
      assert acked[s := true][1..] == acked[1..][s - 1 := true];
    } else {
      assert acked[s := true][1..] == acked[1..];
    }
  }

  lemma {:induction false} CountGrow(acked: seq<bool>)
    ensures Count(acked + [false]) == Count(acked)
  {
    if acked != [] {
      CountGrow(acked[1..]);
      assert (acked + [false])[1..] == acked[1..] + [false];
    }
  }

  lemma {:induction false} CountAll(acked: seq<bool>)
    ensures Count(acked) == |acked| <==> forall s :: 0 <= s < |acked| ==> acked[s]
  {
    if acked != [] {
      CountAll(acked[1..]);
      if forall s :: 0 <= s < |acked| ==> acked[s] {
        assert forall s :: 0 <= s < |acked[1..]| ==> acked[1..][s] == acked[s + 1];
      } else {
        var s :| 0 <= s < |acked| && !acked[s];
        if s > 0 {
          assert !acked[1..][s - 1];
        }
      }
    }
  }

  function Consecutive(first: nat, k: nat): (r: seq<nat>)
    ensures |r| == k
  {
    seq(k, i requires 0 <= i => first + i)
  }

  function Unacked(k: nat): (r: seq<bool>)
    ensures |r| == k && forall i :: 0 <= i < k ==> !r[i]
  {
    seq(k, _ => false)
  }

  lemma FewPackets(first: nat)
    ensures Consecutive(first, 0) == [] && Consecutive(first, 1) == [first]
    ensures Unacked(0) == [] && Unacked(1) == [false]
  {
  }

  lemma OneMorePacket(first: nat, k: nat)
    ensures Consecutive(first, k + 1) == Consecutive(first, k) + [first + k]
    ensures Unacked(k + 1) == Unacked(k) + [false]
  {
  }

  // The specification

  /**
   The window is as full as the data left allows, and every packet sent is outstanding until it is
   acknowledged. The flow has reported exactly when all its packets (at least one) are acknowledged.
   */
  ghost predicate FlowInv(f: FlowState) {
    && f.cwnd >= 1
    && |f.acked| == f.nextSeq <= Segments(f.sizeByte)
    && f.nAcked == Count(f.acked)
    && f.outstanding == f.nextSeq - f.nAcked
    && f.outstanding == (if f.cwnd < Segments(f.sizeByte) - f.nAcked then f.cwnd else Segments(f.sizeByte) - f.nAcked)
    && |f.reports| == if Segments(f.sizeByte) > 0 && f.nAcked == Segments(f.sizeByte) then 1 else 0
  }

  /** Packets of flow `f` with the sequence numbers `sent`. */
  function PacketsOf(f: FlowState, sent: seq<nat>): (ps: seq<Packet>)
    ensures |ps| == |sent|
    ensures forall i :: 0 <= i < |sent| ==> ps[i] == Packet(f.src, f.dst, sent[i], BYTES_PER_PACKET, false, f.flowId, 0)
  {
    seq(|sent|, i requires 0 <= i < |sent| => Packet(f.src, f.dst, sent[i], BYTES_PER_PACKET, false, f.flowId, 0))
  }

  /** A timer for each of them. */
  function Requests(flowId: nat, sent: seq<nat>): (rs: seq<TimeoutRequest>)
    ensures |rs| == |sent| && forall i :: 0 <= i < |rs| ==> rs[i] == (MIN_RTO, flowId, sent[i])
  {
    seq(|sent|, i requires 0 <= i < |sent| => (MIN_RTO, flowId, sent[i]))
  }

  lemma MorePackets(f: FlowState, sent: seq<nat>, seqNum: nat)
    ensures PacketsOf(f, sent + [seqNum]) ==
            PacketsOf(f, sent) + [Packet(f.src, f.dst, seqNum, BYTES_PER_PACKET, false, f.flowId, 0)]
    ensures Requests(f.flowId, sent + [seqNum]) == Requests(f.flowId, sent) + [(MIN_RTO, f.flowId, seqNum)]
  {
  }

  /** What a flow has sent meanwhile does not show in its packets. */
  lemma SamePackets(f: FlowState, g: FlowState, sent: seq<nat>)
    requires f.flowId == g.flowId && f.src == g.src && f.dst == g.dst
    ensures PacketsOf(f, sent) == PacketsOf(g, sent)
  {
  }

  ghost function FreshFlow(flowId: nat, src: nat, dst: nat, sizeByte: nat): FlowState {
    FlowState(flowId, src, dst, sizeByte, 0, INITIAL_CWND, 0, 0, 0, [], [])
  }

  ghost function AfterStart(f: FlowState, time: nat): FlowState {
    var n := if f.cwnd < Segments(f.sizeByte) then f.cwnd else Segments(f.sizeByte);
    f.(start := time, outstanding := n, nextSeq := n, acked := Unacked(n))
  }

  /** A first acknowledgement counts, and the one that completes the flow is reported; a repeated one does nothing. */
  ghost function Marked(f: FlowState, s: nat, time: nat): FlowState
    requires s < |f.acked| && f.start <= time && (!f.acked[s] ==> f.outstanding > 0)
  {
    if f.acked[s] then f
    else f.(acked := f.acked[s := true], nAcked := f.nAcked + 1, outstanding := f.outstanding - 1,
            reports := if f.nAcked + 1 < Segments(f.sizeByte) then f.reports
                       else f.reports + [Report(f.src, f.dst, f.start, time, f.sizeByte, time - f.start)])
  }

  /** After a first acknowledgement the next unsent packet goes out, if there is one. */
  ghost function AfterAck(f: FlowState, s: nat, time: nat): FlowState
    requires s < |f.acked| && f.start <= time && (!f.acked[s] ==> f.outstanding > 0)
  {
    var g := Marked(f, s, time);
    if !f.acked[s] && f.nextSeq < Segments(f.sizeByte)
    then g.(acked := g.acked + [false], nextSeq := f.nextSeq + 1, outstanding := f.outstanding)
    else g
  }

  ghost function AckSends(f: FlowState, s: nat): seq<nat>
    requires s < |f.acked|
  {
    if !f.acked[s] && f.nextSeq < Segments(f.sizeByte) then [f.nextSeq] else []
  }

  /** A timeout resends exactly the packet it was set for, unless that was acknowledged, and changes nothing else. */
  ghost function TimeoutSends(f: FlowState, s: nat): seq<nat>
    requires s < |f.acked|
  {
    if f.acked[s] then [] else [s]
  }

  lemma StartKeepsInv(f: FlowState, time: nat)
    requires f == FreshFlow(f.flowId, f.src, f.dst, f.sizeByte)
    ensures FlowInv(AfterStart(f, time))
  {
    var g := AfterStart(f, time);
    CountNone(g.acked);
  }

  lemma {:induction false} CountNone(acked: seq<bool>)
    requires forall s :: 0 <= s < |acked| ==> !acked[s]
    ensures Count(acked) == 0
  {
    if acked != [] {
      CountNone(acked[1..]);
    }
  }

  /** An unacknowledged packet is outstanding. */
  lemma UnackedIsOutstanding(f: FlowState, s: nat)
    requires FlowInv(f) && s < |f.acked| && !f.acked[s]
    ensures f.outstanding > 0 && f.nAcked < Segments(f.sizeByte)
  {
    CountAll(f.acked);
  }

  lemma AckKeepsInv(f: FlowState, s: nat, time: nat)
    requires FlowInv(f) && s < |f.acked| && f.start <= time
    ensures !f.acked[s] ==> f.outstanding > 0
    ensures FlowInv(AfterAck(f, s, time))
  {
    if !f.acked[s] {
      UnackedIsOutstanding(f, s);
      CountAck(f.acked, s);
      CountGrow(f.acked[s := true]);
    }
  }

  /** The room an acknowledgement makes is used up by what it lets go. */
  lemma RoomAfterAck(f: FlowState, s: nat, time: nat)
    requires FlowInv(f) && s < |f.acked| && f.start <= time
    ensures !f.acked[s] ==> f.outstanding > 0 && f.nAcked < Segments(f.sizeByte)
    ensures f.outstanding <= f.cwnd && |f.acked| == f.nextSeq <= Segments(f.sizeByte)
    ensures var room := f.cwnd - f.outstanding + (if f.acked[s] then 0 else 1);
            |AckSends(f, s)| ==
              if room < Segments(f.sizeByte) - f.nextSeq then room else Segments(f.sizeByte) - f.nextSeq
  {
    if !f.acked[s] {
      UnackedIsOutstanding(f, s);
    }
  }

  /** Topping up a marked flow with `k` packets, as many as the window has room for, is the reaction to the ack. */
  lemma ToppedUp(f: FlowState, s: nat, time: nat, k: nat)
    requires FlowInv(f) && s < |f.acked| && f.start <= time
    requires k == |AckSends(f, s)|
    ensures !f.acked[s] ==> f.outstanding > 0
    ensures var g := Marked(f, s, time);
            AfterAck(f, s, time) ==
              g.(nextSeq := g.nextSeq + k, acked := g.acked + Unacked(k), outstanding := g.outstanding + k)
    ensures [] + Consecutive(f.nextSeq, k) == AckSends(f, s)
  {
    RoomAfterAck(f, s, time);
    FewPackets(f.nextSeq);
    assert Marked(f, s, time).acked + [] == Marked(f, s, time).acked;
  }

  /** Marking an acknowledgement and then filling the window is the reaction to it. */
  lemma AckPlan(f: FlowState, s: nat, time: nat)
    requires FlowInv(f) && s < |f.acked| && f.start <= time
    ensures !f.acked[s] ==> f.outstanding > 0
    ensures FlowInv(AfterAck(f, s, time))
    ensures var g := Marked(f, s, time);
            && |g.acked| == g.nextSeq == f.nextSeq <= Segments(f.sizeByte) && g.outstanding <= g.cwnd
            && var room := g.cwnd - g.outstanding;
               var k := if room < Segments(f.sizeByte) - g.nextSeq then room else Segments(f.sizeByte) - g.nextSeq;
               && AfterAck(f, s, time) ==
                 g.(nextSeq := g.nextSeq + k, acked := g.acked + Unacked(k), outstanding := g.outstanding + k)
               && [] + Consecutive(g.nextSeq, k) == AckSends(f, s)
  {
    AckKeepsInv(f, s, time);
    RoomAfterAck(f, s, time);
    ToppedUp(f, s, time, |AckSends(f, s)|);
    hide FlowInv, Count, Segments, Consecutive, Unacked, AfterAck, AckSends;
  }

  // What is sent next

  function SeqNum(p: Option<Packet>): Option<nat> {
    if p.Some? then Some(p.value.seqNum) else None
  }

  /**
   The choice among `queue`, the retransmissions queued, and what has not been sent yet: the first queued packet
   that is still unacknowledged, else the next new one, else none.
   */
  ghost predicate Picks(queue: seq<nat>, acked: seq<bool>, segments: nat, s: Option<nat>, queue': seq<nat>,
                        acked': seq<bool>)
    requires forall i :: 0 <= i < |queue| ==> queue[i] < |acked|
  {
    if forall i :: 0 <= i < |queue| ==> acked[queue[i]] then
      && queue' == []
      && if |acked| < segments then s == Some(|acked|) && acked' == acked + [false] else s == None && acked' == acked
    else
      && acked' == acked
      && exists i :: 0 <= i < |queue| && s == Some(queue[i]) && queue' == queue[i + 1..]
                && FirstUnacked(queue, acked, i)
  }

  ghost predicate FirstUnacked(queue: seq<nat>, acked: seq<bool>, i: nat)
    requires i < |queue| && forall j :: 0 <= j < |queue| ==> queue[j] < |acked|
  {
    !acked[queue[i]] && forall j :: 0 <= j < i ==> acked[queue[j]]
  }

  /** The choice when at most one retransmission is queued, and that not acknowledged. */
  lemma PicksOne(queue: seq<nat>, acked: seq<bool>, segments: nat, s: Option<nat>, queue': seq<nat>, acked': seq<bool>)
    requires |queue| <= 1 && forall i :: 0 <= i < |queue| ==> queue[i] < |acked| && !acked[queue[i]]
    requires Picks(queue, acked, segments, s, queue', acked')
    ensures queue' == []
    ensures if queue != [] then s == Some(queue[0]) && acked' == acked
            else if |acked| < segments then s == Some(|acked|) && acked' == acked + [false]
            else s == None && acked' == acked
  {
  }

  /**
   After `k` choices `sent` has gone out: the packet in `queue`, if there was one, and then the next new ones.
   `rtx` and `acked` are what `queue` and `before` have become.
   */
  ghost predicate Filling(queue: seq<nat>, before: seq<bool>, k: nat, sent: seq<nat>, rtx: seq<nat>, acked: seq<bool>) {
    && |sent| == k
    && if k == 0 then rtx == queue && acked == before
       else
         && rtx == [] && k >= |queue|
         && sent == queue + Consecutive(|before|, k - |queue|) && acked == before + Unacked(k - |queue|)
  }

  lemma FillNone(queue: seq<nat>, before: seq<bool>)
    ensures Filling(queue, before, 0, [], queue, before)
  {
  }

  lemma FillMore(queue: seq<nat>, before: seq<bool>, segments: nat, k: nat, sent: seq<nat>, rtx: seq<nat>,
                 acked: seq<bool>,
                 s: Option<nat>, rtx': seq<nat>, acked': seq<bool>)
    requires |queue| <= 1 && forall i :: 0 <= i < |queue| ==> queue[i] < |before| && !before[queue[i]]
    requires Filling(queue, before, k, sent, rtx, acked) && |acked| <= segments
    requires (forall i :: 0 <= i < |rtx| ==> rtx[i] < |acked|) && Picks(rtx, acked, segments, s, rtx', acked')
    ensures s.Some? ==> Filling(queue, before, k + 1, sent + [s.value], rtx', acked') && |acked'| <= segments
    ensures s.None? ==> Filling(queue, before, k, sent, rtx', acked') && |acked'| == segments && (k == 0 ==>
        queue == [])
    ensures rtx' == []
  {
    PicksOne(rtx, acked, segments, s, rtx', acked');
    FewPackets(|before|);
    if k >= |queue| {
      OneMorePacket(|before|, k - |queue|);
    }
    assert queue + [] == queue && before + [] == before;
  }

  lemma FillEnd(queue: seq<nat>, before: seq<bool>, k: nat, sent: seq<nat>, rtx: seq<nat>, acked: seq<bool>)
    requires Filling(queue, before, k, sent, rtx, acked) && (k == 0 ==> queue == [])
    ensures rtx == [] && |before| <= |acked| && |acked| - |before| == k - |queue|
    ensures sent == queue + Consecutive(|before|, |acked| - |before|) && acked == before + Unacked(|acked| - |before|)
  {
    FewPackets(|before|);
    assert before + [] == before;
  }

  // Whole flows over a network that loses, delays, reorders and repeats

  datatype Arrival = Ack(seqNum: nat, time: nat) | Expiry(seqNum: nat)

  /** The network only returns what was sent, and time does not run backwards past the start. */
  ghost predicate Possible(f: FlowState, a: Arrival) {
    a.seqNum < |f.acked| && (a.Ack? ==> f.start <= a.time)
  }

  ghost function After(f: FlowState, a: Arrival): (g: FlowState)
    requires FlowInv(f) && Possible(f, a)
    ensures FlowInv(g) && g.sizeByte == f.sizeByte
  {
    if a.Ack? then
      AckKeepsInv(f, a.seqNum, a.time);
      AfterAck(f, a.seqNum, a.time)
    else f
  }

  ghost predicate PossibleRun(f: FlowState, arrivals: seq<Arrival>)
    requires FlowInv(f)
    decreases |arrivals|
  {
    arrivals != [] ==> Possible(f, arrivals[0]) && PossibleRun(After(f, arrivals[0]), arrivals[1..])
  }

  ghost function RunFlow(f: FlowState, arrivals: seq<Arrival>): (g: FlowState)
    requires FlowInv(f) && PossibleRun(f, arrivals)
    ensures FlowInv(g) && g.sizeByte == f.sizeByte
    decreases |arrivals|
  {
    if arrivals == [] then f else RunFlow(After(f, arrivals[0]), arrivals[1..])
  }

  /**
   Whatever the network does, a flow reports at most once, and has reported exactly when it has at
   least one packet, all of them were sent and all were acknowledged. An empty flow never reports.
   */
  lemma ReportsExactlyOnce(f: FlowState, time: nat, arrivals: seq<Arrival>)
    requires f == FreshFlow(f.flowId, f.src, f.dst, f.sizeByte) && FlowInv(AfterStart(f, time))
    requires PossibleRun(AfterStart(f, time), arrivals)
    ensures var g := RunFlow(AfterStart(f, time), arrivals);
            var done := f.sizeByte > 0 && |g.acked| == Segments(f.sizeByte) && (forall s :: 0 <= s < |g.acked| ==>
              g.acked[s]);
            |g.reports| == if done then 1 else 0
  {
    CountAll(RunFlow(AfterStart(f, time), arrivals).acked);
  }

  /** Packet `s` has been acknowledged by one of the arrivals. */
  ghost predicate AckedIn(arrivals: seq<Arrival>, s: nat) {
    exists j :: 0 <= j < |arrivals| && arrivals[j].Ack? && arrivals[j].seqNum == s
  }

  /** Every 1500 bytes, and what is left, have been acknowledged. */
  ghost predicate Complete(sizeByte: nat, arrivals: seq<Arrival>) {
    forall s: nat :: 1500 * s < sizeByte ==> AckedIn(arrivals, s)
  }

  /** One arrival, as the flags and the record see it. */
  lemma OneArrival(f: FlowState, a: Arrival)
    requires FlowInv(f) && Possible(f, a)
    ensures var g := After(f, a);
            && |f.acked| <= |g.acked| && g.src == f.src && g.dst == f.dst && g.start == f.start
            && (forall s :: 0 <= s < |f.acked| ==> (g.acked[s] <==> f.acked[s] || (a.Ack? && a.seqNum == s)))
            && (forall s :: |f.acked| <= s < |g.acked| ==> !g.acked[s])
            && if |g.reports| == |f.reports| then g.reports == f.reports
               else
                 a.Ack?
                 && g.reports == f.reports + [Report(f.src, f.dst, f.start, a.time, f.sizeByte, a.time - f.start)]
  {
    hide Count, Segments;
  }

  /** All arrivals but the last, then the last. */
  lemma {:induction false} RunSnoc(f: FlowState, arrivals: seq<Arrival>)
    requires FlowInv(f) && PossibleRun(f, arrivals) && arrivals != []
    ensures var n := |arrivals| - 1;
            && PossibleRun(f, arrivals[..n]) && Possible(RunFlow(f, arrivals[..n]), arrivals[n])
            && RunFlow(f, arrivals) == After(RunFlow(f, arrivals[..n]), arrivals[n])
    decreases |arrivals|
  {
    var n := |arrivals| - 1;
    hide FlowInv, After;
    if n > 0 {
      RunSnoc(After(f, arrivals[0]), arrivals[1..]);
      assert arrivals[1..][..n - 1] == arrivals[..n][1..];
      assert arrivals[1..][n - 1] == arrivals[n];
    } else {
      assert arrivals[..0] == [] && arrivals[1..] == [];
    }
  }

  /** A packet sent is marked exactly when its own acknowledgement has arrived. */
  lemma {:induction false} MarksExactly(f: FlowState, time: nat, arrivals: seq<Arrival>)
    requires f == FreshFlow(f.flowId, f.src, f.dst, f.sizeByte) && FlowInv(AfterStart(f, time))
    requires PossibleRun(AfterStart(f, time), arrivals)
    ensures var g := RunFlow(AfterStart(f, time), arrivals);
            && g.src == f.src && g.dst == f.dst && g.start == time
            && (forall s: nat :: s < |g.acked| ==> (g.acked[s] <==> AckedIn(arrivals, s)))
            && (forall s: nat :: AckedIn(arrivals, s) ==> s < |g.acked|)
    decreases |arrivals|
  {
    hide Possible, FlowInv, PossibleRun, RunFlow;
    if arrivals == [] {
      RunNone(AfterStart(f, time));
    } else {
      var n := |arrivals| - 1;
      RunSnoc(AfterStart(f, time), arrivals);
      MarksExactly(f, time, arrivals[..n]);
      var h := RunFlow(AfterStart(f, time), arrivals[..n]);
      OneArrival(h, arrivals[n]);
      hide After;
      KnownSeqNum(h, arrivals[n]);
      forall s: nat
        ensures AckedIn(arrivals, s) <==> AckedIn(arrivals[..n], s) || (arrivals[n].Ack? && arrivals[n].seqNum == s)
      {
        OneMoreAcked(arrivals, s);
      }
    }
  }

  lemma RunNone(f: FlowState)
    requires FlowInv(f)
    ensures PossibleRun(f, []) && RunFlow(f, []) == f
  {
  }

  lemma KnownSeqNum(f: FlowState, a: Arrival)
    requires Possible(f, a)
    ensures a.seqNum < |f.acked|
  {
  }

  lemma OneMoreAcked(arrivals: seq<Arrival>, s: nat)
    requires arrivals != []
    ensures var n := |arrivals| - 1;
            AckedIn(arrivals, s) <==> AckedIn(arrivals[..n], s) || (arrivals[n].Ack? && arrivals[n].seqNum == s)
  {
    var n := |arrivals| - 1;
    if j :| 0 <= j < |arrivals[..n]| && arrivals[..n][j].Ack? && arrivals[..n][j].seqNum == s {
      assert arrivals[j].Ack? && arrivals[j].seqNum == s;
    }
    if j :| 0 <= j < |arrivals| && arrivals[j].Ack? && arrivals[j].seqNum == s {
      if j < n {
        assert arrivals[..n][j] == arrivals[j];
      }
    }
  }

  /** A non-empty flow has reported exactly when it is complete. */
  lemma ReportedIff(f: FlowState, time: nat, arrivals: seq<Arrival>)
    requires f == FreshFlow(f.flowId, f.src, f.dst, f.sizeByte) && FlowInv(AfterStart(f, time))
    requires PossibleRun(AfterStart(f, time), arrivals)
    ensures var g := RunFlow(AfterStart(f, time), arrivals);
            |g.reports| == if f.sizeByte > 0 && Complete(f.sizeByte, arrivals) then 1 else 0
  {
    var g := RunFlow(AfterStart(f, time), arrivals);
    ReportsExactlyOnce(f, time, arrivals);
    MarksExactly(f, time, arrivals);
    hide RunFlow, PossibleRun, AckedIn;
    forall s: nat
      ensures 1500 * s < f.sizeByte <==> s < Segments(f.sizeByte)
    {
    }
    assert |g.acked| <= Segments(f.sizeByte);
    if Complete(f.sizeByte, arrivals) && f.sizeByte > 0 {
      assert AckedIn(arrivals, Segments(f.sizeByte) - 1);
    }
  }

  /**
   The line a flow prints is right: it appears with the first acknowledgement after which every packet has been
   acknowledged, and states the time from the start of the flow to that moment. Until then there is none, and
   afterwards it stays the only one.
   */
  lemma {:induction false} ReportIsRight(f: FlowState, time: nat, arrivals: seq<Arrival>, j: nat)
    requires f == FreshFlow(f.flowId, f.src, f.dst, f.sizeByte) && FlowInv(AfterStart(f, time))
    requires PossibleRun(AfterStart(f, time), arrivals) && f.sizeByte > 0
    requires j < |arrivals| && Complete(f.sizeByte, arrivals[..j + 1]) && !Complete(f.sizeByte, arrivals[..j])
    ensures arrivals[j].Ack? && time <= arrivals[j].time
    ensures RunFlow(AfterStart(f, time), arrivals).reports
            == [Report(f.src, f.dst, time, arrivals[j].time, f.sizeByte, arrivals[j].time - time)]
    decreases |arrivals|
  {
    hide FlowInv, Complete, After, RunFlow, PossibleRun, Possible;
    var n := |arrivals| - 1;
    var start := AfterStart(f, time);
    RunSnoc(start, arrivals);
    var h := RunFlow(start, arrivals[..n]);
    OneArrival(h, arrivals[n]);
    MarksExactly(f, time, arrivals[..n]);
    ReportedIff(f, time, arrivals);
    ReportedIff(f, time, arrivals[..n]);
    if j < n {
      assert arrivals[..n][..j] == arrivals[..j] && arrivals[..n][..j + 1] == arrivals[..j + 1];
      ReportIsRight(f, time, arrivals[..n], j);
      assert |h.reports| == 1;
      CompleteStays(f.sizeByte, arrivals, j + 1);
    } else {
      assert arrivals[..j + 1] == arrivals;
      LateEnough(h, arrivals[n]);
    }
  }

  lemma LateEnough(f: FlowState, a: Arrival)
    requires Possible(f, a)
    ensures a.Ack? ==> f.start <= a.time
  {
  }

  lemma CompleteStays(sizeByte: nat, arrivals: seq<Arrival>, n: nat)
    requires n <= |arrivals| && Complete(sizeByte, arrivals[..n])
    ensures Complete(sizeByte, arrivals)
  {
    forall s: nat | 1500 * s < sizeByte
      ensures AckedIn(arrivals, s)
    {
      assert AckedIn(arrivals[..n], s);
      var j :| 0 <= j < |arrivals[..n]| && arrivals[..n][j].Ack? && arrivals[..n][j].seqNum == s;
      assert arrivals[j] == arrivals[..n][j];
    }
  }

  // The implementation

  class Flow {
    const flowId: nat
    const src: nat
    const dst: nat
    const sizeByte: nat
    var start: nat
    const cwnd: nat := INITIAL_CWND
    var outstanding: nat
    var nAcked: nat
    var nextSeq: nat
    var acked: seq<bool>
    var rtxQueue: seq<nat>
    var reports: seq<Report>

    ghost function View(): FlowState
      reads this
    {
      FlowState(flowId, src, dst, sizeByte, start, cwnd, outstanding, nAcked, nextSeq, acked, reports)
    }

    ghost predicate Valid()
      reads this
    {
      rtxQueue == [] && FlowInv(View())
    }

    constructor (flowId: nat, src: nat, dst: nat, sizeByte: nat)
      ensures View() == FreshFlow(flowId, src, dst, sizeByte) && rtxQueue == []
    {
      this.flowId, this.src, this.dst, this.sizeByte := flowId, src, dst, sizeByte;
      start, outstanding, nAcked, nextSeq := 0, 0, 0, 0;
      acked, rtxQueue, reports := [], [], [];
    }

    function Rto(): nat {
      MIN_RTO
    }

    function GenPacket(seqNum: nat): Packet {
      Packet(src, dst, seqNum, BYTES_PER_PACKET, false, flowId, 0)
    }

    /** The next packet to send. */
    method Next() returns (p: Option<Packet>)
      requires |acked| == nextSeq && forall i :: 0 <= i < |rtxQueue| ==> rtxQueue[i] < |acked|
      modifies this`rtxQueue, this`nextSeq, this`acked
      ensures Picks(old(rtxQueue), old(acked), Segments(sizeByte), SeqNum(p), rtxQueue, acked)
      ensures |acked| == nextSeq && (p.Some? ==> p.value == GenPacket(p.value.seqNum))
    {
      ghost var i := 0;
      while rtxQueue != []
        invariant 0 <= i <= |old(rtxQueue)| && rtxQueue == old(rtxQueue)[i..]
        invariant unchanged(`nextSeq, `acked)
        invariant forall j :: 0 <= j < i ==> acked[old(rtxQueue)[j]]
        decreases |rtxQueue|
      {
        var seqNum := rtxQueue[0];
        rtxQueue := rtxQueue[1..];
        i := i + 1;
        if acked[seqNum] {
          continue;
        }
        return Some(GenPacket(seqNum));
      }
      EnoughPackets(nextSeq, sizeByte);
      if nextSeq * BYTES_PER_PACKET < sizeByte {
        p := Some(GenPacket(nextSeq));
        nextSeq := nextSeq + 1;
        acked := acked + [false];
      } else {
        p := None;
      }
    }

    /** Sends the initial burst: the window's worth of packets, or all there are. */
    method Start(time: nat) returns (packets: seq<Packet>, timeouts: seq<TimeoutRequest>)
      requires View() == FreshFlow(flowId, src, dst, sizeByte) && rtxQueue == []
      modifies this
      ensures Valid() && View() == AfterStart(old(View()), time)
      ensures var sent := Consecutive(0, nextSeq);
        packets == PacketsOf(View(), sent) && timeouts == Requests(flowId, sent)
    {
      hide FlowInv, Count, Consecutive, Unacked, PacketsOf, Requests, Picks;
      packets, timeouts := [], [];
      ghost var f := View();
      ghost var sent: seq<nat> := [];
      FewPackets(0);
      for i := 0 to cwnd
        invariant rtxQueue == [] && |acked| == nextSeq == i <= Segments(sizeByte)
        invariant acked == Unacked(i) && sent == Consecutive(0, i)
        invariant packets == PacketsOf(f, sent) && timeouts == Requests(flowId, sent)
        invariant unchanged(`start, `outstanding, `nAcked, `reports)
      {
        OneMorePacket(0, i);
        MorePackets(f, sent, i);
        ghost var before := acked;
        var next := Next();
        PicksOne([], before, Segments(sizeByte), SeqNum(next), rtxQueue, acked);
        if next.None? {
          break;
        }
        timeouts := timeouts + [(Rto(), flowId, next.value.seqNum)];
        packets := packets + [next.value];
        sent := sent + [i];
      }
      outstanding := |packets|;
      start := time;
      StartKeepsInv(old(View()), time);
      SamePackets(f, View(), sent);
    }

    /** Fills the window: first the queued retransmission, if there is one, then packets not sent yet. */
    method Refill() returns (packets: seq<Packet>, timeouts: seq<TimeoutRequest>)
      requires |acked| == nextSeq <= Segments(sizeByte)
      requires rtxQueue == [] || (|rtxQueue| == 1 && rtxQueue[0] < |acked| && !acked[rtxQueue[0]])
      requires outstanding + |rtxQueue| <= cwnd
      modifies this`rtxQueue, this`nextSeq, this`acked
      ensures rtxQueue == [] && old(nextSeq) <= nextSeq
      ensures var room := cwnd - outstanding - |old(rtxQueue)|;
        nextSeq - old(nextSeq) ==
          if room < Segments(sizeByte) - old(nextSeq) then room else Segments(sizeByte) - old(nextSeq)
      ensures var sent := old(rtxQueue) + Consecutive(old(nextSeq), nextSeq - old(nextSeq));
        packets == PacketsOf(old(View()), sent) && timeouts == Requests(flowId, sent)
      ensures acked == old(acked) + Unacked(nextSeq - old(nextSeq))
    {
      hide FlowInv, Count, Segments, Consecutive, Unacked, PacketsOf, Requests, Picks, Filling;
      packets, timeouts := [], [];
      ghost var f, queue, before := View(), rtxQueue, acked;
      ghost var sent: seq<nat> := [];
      ghost var k := 0;
      FillNone(queue, before);
      for i := outstanding to cwnd
        invariant |acked| == nextSeq <= Segments(sizeByte) && forall j :: 0 <= j < |rtxQueue| ==> rtxQueue[j] < |acked|
        invariant k == i - outstanding && Filling(queue, before, k, sent, rtxQueue, acked)
        invariant packets == PacketsOf(f, sent) && timeouts == Requests(flowId, sent)
      {
        ghost var rtx, now := rtxQueue, acked;
        var next := Next();
        FillMore(queue, before, Segments(sizeByte), k, sent, rtx, now, SeqNum(next), rtxQueue, acked);
        if next.None? {
          break;
        }
        timeouts := timeouts + [(Rto(), flowId, next.value.seqNum)];
        packets := packets + [next.value];
        MorePackets(f, sent, next.value.seqNum);
        sent := sent + [next.value.seqNum];
        k := k + 1;
      }
      FillEnd(queue, before, k, sent, rtxQueue, acked);
    }

    /** Notes an acknowledgement received at `time`. */
    method Mark(time: nat, s: nat)
      requires Valid() && s < |acked| && start <= time
      modifies this`outstanding, this`nAcked, this`acked, this`reports
      ensures !old(acked)[s] ==> old(outstanding) > 0
      ensures View() == Marked(old(View()), s, time)
    {
      if !acked[s] {
        UnackedIsOutstanding(View(), s);
        outstanding := outstanding - 1;
        nAcked := nAcked + 1;
        EnoughPackets(nAcked, sizeByte);
        if nAcked * BYTES_PER_PACKET >= sizeByte {
          reports := reports + [Report(src, dst, start, time, sizeByte, time - start)];
        }
      }
      acked := acked[s := true];
    }

    /** Takes an acknowledgement; at most one new packet goes out for it. */
    method SrcReceive(time: nat, packet: Packet) returns (packets: seq<Packet>, timeouts: seq<TimeoutRequest>)
      requires Valid() && packet.seqNum < |acked| && start <= time
      modifies this
      ensures Valid()
      ensures !old(acked)[packet.seqNum] ==> old(outstanding) > 0
      ensures View() == AfterAck(old(View()), packet.seqNum, time)
      ensures var sent := AckSends(old(View()), packet.seqNum);
        packets == PacketsOf(old(View()), sent) && timeouts == Requests(flowId, sent)
    {
      hide FlowInv, Count, Segments, Consecutive, Unacked, PacketsOf, Requests, Marked, AfterAck, AckSends;
      ghost var f, s := View(), packet.seqNum;
      AckPlan(f, s, time);
      Mark(time, packet.seqNum);
      SamePackets(f, View(), AckSends(f, s));
      packets, timeouts := Refill();
      outstanding := outstanding + |packets|;
    }

    /** A timer of packet `seqNum` fires: the packet is sent again unless it was acknowledged. */
    method Timeout(seqNum: nat) returns (packets: seq<Packet>, timeouts: seq<TimeoutRequest>)
      requires Valid() && seqNum < |acked|
      modifies this
      ensures Valid() && View() == old(View())
      ensures !acked[seqNum] ==> outstanding > 0
      ensures var sent := TimeoutSends(old(View()), seqNum);
        packets == PacketsOf(old(View()), sent) && timeouts == Requests(flowId, sent)
    {
      ghost var f := View();
      if !acked[seqNum] {
        UnackedIsOutstanding(f, seqNum);
        outstanding := outstanding - 1;
        rtxQueue := rtxQueue + [seqNum];
        SamePackets(f, View(), [seqNum]);
        packets, timeouts := Refill();
        outstanding := outstanding + |packets|;
        FewPackets(nextSeq);
        assert f.acked + [] == f.acked;
        assert View() == f;
      } else {
        packets, timeouts := [], [];
      }
    }
  }
}
