/**
 A server's retransmission timers, on values: the heap, the time of the one pending self Timeout, and
 the flows the timers belong to.
 */
module Timers {
  import opened Tcp

  datatype Timer = Timer(time: nat, flowId: nat, seqNum: nat)

  /** The order of the heap: by time, then flow, then sequence number. */
  predicate TimerLe(a: Timer, b: Timer) {
    || a.time < b.time
    || (a.time == b.time && (a.flowId < b.flowId || (a.flowId == b.flowId && a.seqNum <= b.seqNum)))
  }

  ghost predicate IsMin(t: Timer, heap: multiset<Timer>) {
    t in heap && forall x :: x in heap ==> TimerLe(t, x)
  }

  lemma {:induction false} MinExists(heap: multiset<Timer>) returns (t: Timer)
    requires |heap| > 0
    ensures IsMin(t, heap)
    decreases |heap|
  {
    t :| t in heap;
    var rest := heap - multiset{t};
    assert forall x :: x in heap ==> x == t || x in rest;
    if |rest| > 0 {
      var m := MinExists(rest);
      if TimerLe(m, t) {
        t := m;
      }
    } else {
      assert rest == multiset{};
    }
  }

  ghost predicate HasTimer(heap: multiset<Timer>, f: nat, s: nat) {
    exists x :: x in heap && x.flowId == f && x.seqNum == s
  }

  ghost predicate TimerOk(x: Timer, now: nat, pending: nat, flows: seq<FlowState>) {
    && pending <= x.time <= now + MIN_RTO
    && x.flowId < |flows| && x.seqNum < |flows[x.flowId].acked|
  }

  ghost predicate FlowOk(f: nat, now: nat, heap: multiset<Timer>, flows: seq<FlowState>)
    requires f < |flows|
  {
    && FlowInv(flows[f]) && flows[f].flowId == f && flows[f].start <= now
    && forall s :: 0 <= s < |flows[f].acked| && !flows[f].acked[s] ==> HasTimer(heap, f, s)
  }

  /**
   The pending Timeout comes no later than any timer and at most `MIN_RTO` from now; no packet has two
   timers, and every packet sent and not acknowledged has one.
   */
  ghost predicate TimersInv(now: nat, pending: nat, heap: multiset<Timer>, flows: seq<FlowState>) {
    && now <= pending <= now + MIN_RTO
    && (forall x :: x in heap ==> heap[x] == 1 && TimerOk(x, now, pending, flows))
    && (forall x, y :: x in heap && y in heap && x.flowId == y.flowId && x.seqNum == y.seqNum ==> x == y)
    && (forall f :: 0 <= f < |flows| ==> FlowOk(f, now, heap, flows))
  }

  /** The timers asked for at `t`. */
  function TimersOf(t: nat, requests: seq<TimeoutRequest>): (ts: seq<Timer>)
    ensures |ts| == |requests|
    ensures forall i :: 0 <= i < |ts| ==> ts[i] == Timer(t + requests[i].0, requests[i].1, requests[i].2)
  {
    seq(|requests|, i requires 0 <= i < |requests| => Timer(t + requests[i].0, requests[i].1, requests[i].2))
  }

  /** Timers set at `now` for the packets `sent` of flow `f`. */
  function TimersFor(now: nat, f: nat, sent: seq<nat>): (ts: seq<Timer>)
    ensures |ts| == |sent|
    ensures forall i :: 0 <= i < |sent| ==> ts[i] == Timer(now + MIN_RTO, f, sent[i])
  {
    TimersOf(now, Requests(f, sent))
  }

  lemma {:induction false} OnceEach(ts: seq<Timer>, x: Timer)
    requires forall i, j :: 0 <= i < j < |ts| ==> ts[i] != ts[j]
    ensures multiset(ts)[x] == if x in ts then 1 else 0
    decreases |ts|
  {
    if ts != [] {
      OnceEach(ts[1..], x);
      assert ts == [ts[0]] + ts[1..];
    }
  }

  lemma DistinctOnce(now: nat, f: nat, sent: seq<nat>, x: Timer)
    requires forall i, j :: 0 <= i < j < |sent| ==> sent[i] != sent[j]
    ensures multiset(TimersFor(now, f, sent))[x] ==
            if x.time == now + MIN_RTO && x.flowId == f && x.seqNum in sent then 1 else 0
  {
    var ts := TimersFor(now, f, sent);
    OnceEach(ts, x);
    if x.time == now + MIN_RTO && x.flowId == f && x.seqNum in sent {
      var i :| 0 <= i < |sent| && sent[i] == x.seqNum;
      assert ts[i] == x;
    }
  }

  /** Setting timers for packets that have none. */
  lemma AddTimers(now: nat, pending: nat, heap: multiset<Timer>, flows: seq<FlowState>, f: nat, sent: seq<nat>)
    requires now <= pending <= now + MIN_RTO
    requires forall x :: x in heap ==> heap[x] == 1 && TimerOk(x, now, pending, flows)
    requires forall x, y :: x in heap && y in heap && x.flowId == y.flowId && x.seqNum == y.seqNum ==> x == y
    requires forall g :: 0 <= g < |flows| ==> FlowInv(flows[g]) && flows[g].flowId == g && flows[g].start <= now
    requires forall i, j :: 0 <= i < j < |sent| ==> sent[i] != sent[j]
    requires f < |flows| && forall i :: 0 <= i < |sent| ==> sent[i] < |flows[f].acked|
    requires forall x :: x in heap && x.flowId == f ==> x.seqNum !in sent
    requires forall g, s :: 0 <= g < |flows| && 0 <= s < |flows[g].acked| && !flows[g].acked[s] ==>
               (g == f && s in sent) || HasTimer(heap, g, s)
    ensures TimersInv(now, pending, heap + multiset(TimersFor(now, f, sent)), flows)
  {
    hide TimersFor, TimersOf, FlowInv;
    var ts := TimersFor(now, f, sent);
    var heap' := heap + multiset(ts);
    forall x | x in heap'
      ensures heap'[x] == 1 && TimerOk(x, now, pending, flows)
      ensures x !in heap ==> x.time == now + MIN_RTO && x.flowId == f && x.seqNum in sent
    {
      DistinctOnce(now, f, sent, x);
    }
    forall g | 0 <= g < |flows|
      ensures FlowOk(g, now, heap', flows)
    {
      forall s | 0 <= s < |flows[g].acked| && !flows[g].acked[s]
        ensures HasTimer(heap', g, s)
      {
        if HasTimer(heap, g, s) {
          var x :| x in heap && x.flowId == g && x.seqNum == s;
          assert x in heap';
        } else {
          var i :| 0 <= i < |sent| && sent[i] == s;
          assert ts[i] in heap';
        }
      }
    }
  }

  // What each reaction does to the timers

  /** The timer a Timeout at `now` serves: the least one, when it is due. */
  ghost predicate Due(now: nat, heap: multiset<Timer>, t: Timer) {
    IsMin(t, heap) && t.time <= now
  }

  /** Timers are served exactly on time: a timer due at the pending Timeout was set for that very moment. */
  lemma ServedOnTime(now: nat, pending: nat, heap: multiset<Timer>, flows: seq<FlowState>, t: Timer)
    requires TimersInv(now, pending, heap, flows)
    ensures Due(pending, heap, t) ==> t.time == pending
    ensures t in heap && t.time <= pending ==> exists u :: Due(pending, heap, u) && u.time == t.time == pending
  {
    if t in heap {
      assert |heap| > 0;
      var u := MinExists(heap);
      assert TimerOk(u, now, pending, flows) && TimerOk(t, now, pending, flows);
      assert TimerLe(u, t);
    }
  }

  lemma TimersAhead(now: nat, pending: nat, heap: multiset<Timer>, flows: seq<FlowState>)
    requires TimersInv(now, pending, heap, flows)
    ensures forall x :: x in heap ==> pending <= x.time && x.flowId < |flows| && x.seqNum < |flows[x.flowId].acked|
  {
    assert forall x :: x in heap ==> TimerOk(x, now, pending, flows);
  }

  /** When the next Timeout is due: at the earliest timer, and within `MIN_RTO`. */
  ghost predicate NextPending(now: nat, heap: multiset<Timer>, pending: nat) {
    && now <= pending <= now + MIN_RTO
    && (forall x :: x in heap ==> pending <= x.time)
    && (pending < now + MIN_RTO ==> exists x :: x in heap && x.time == pending)
  }

  /** A Timeout that serves timer `t`: the timer is used up, and set anew when its packet is sent again. */
  lemma TimeoutServes(now: nat, pending: nat, heap: multiset<Timer>, flows: seq<FlowState>, t: Timer, pending': nat)
    requires TimersInv(now, pending, heap, flows) && Due(pending, heap, t)
    requires NextPending(pending, heap - multiset{t}, pending')
    ensures t.flowId < |flows| && t.seqNum < |flows[t.flowId].acked|
    ensures TimersInv(pending, pending',
              heap - multiset{t} + multiset(TimersFor(pending, t.flowId, TimeoutSends(flows[t.flowId], t.seqNum))),
               flows)
  {
    assert TimerOk(t, now, pending, flows);
    hide FlowInv, HasTimer;
    var rest := heap - multiset{t};
    WithoutTimer(now, pending, heap, flows, t);
    forall g | 0 <= g < |flows|
      ensures FlowInv(flows[g]) && flows[g].flowId == g && flows[g].start <= pending
    {
      assert FlowOk(g, now, heap, flows);
    }
    AddTimers(pending, pending', rest, flows, t.flowId, TimeoutSends(flows[t.flowId], t.seqNum));
  }

  /** Without timer `t` only its own packet may be left without a timer. */
  lemma WithoutTimer(now: nat, pending: nat, heap: multiset<Timer>, flows: seq<FlowState>, t: Timer)
    requires TimersInv(now, pending, heap, flows) && t in heap
    ensures forall x :: x in heap - multiset{t} ==> x in heap && x != t && (heap - multiset{t})[x] == 1
    ensures forall g, s :: 0 <= g < |flows| && 0 <= s < |flows[g].acked| && !flows[g].acked[s] ==>
              (g == t.flowId && s == t.seqNum) || HasTimer(heap - multiset{t}, g, s)
  {
    hide FlowInv;
    var rest := heap - multiset{t};
    forall x | x in rest
      ensures x in heap && x != t && rest[x] == 1
    {
      assert heap[x] == 1;
    }
    forall g, s | 0 <= g < |flows| && 0 <= s < |flows[g].acked| && !flows[g].acked[s]
      ensures (g == t.flowId && s == t.seqNum) || HasTimer(rest, g, s)
    {
      assert FlowOk(g, now, heap, flows);
      var x :| x in heap && x.flowId == g && x.seqNum == s;
      assert x != t ==> x in rest;
    }
  }

  /** A Timeout that finds no timer due only moves the pending Timeout on. */
  lemma TimeoutIdle(now: nat, pending: nat, heap: multiset<Timer>, flows: seq<FlowState>, pending': nat)
    requires TimersInv(now, pending, heap, flows) && NextPending(pending, heap, pending')
    ensures TimersInv(pending, pending', heap, flows)
  {
    forall g | 0 <= g < |flows|
      ensures FlowOk(g, pending, heap, flows)
    {
      assert FlowOk(g, now, heap, flows);
    }
  }

  /** Time passes without touching the timers. */
  lemma Wait(now: nat, t: nat, pending: nat, heap: multiset<Timer>, flows: seq<FlowState>)
    requires TimersInv(now, pending, heap, flows) && now <= t <= pending
    ensures TimersInv(t, pending, heap, flows)
  {
    forall g | 0 <= g < |flows|
      ensures FlowOk(g, t, heap, flows)
    {
      assert FlowOk(g, now, heap, flows);
    }
  }

  /** An acknowledgement at `t`: the packet it lets go gets its timer. */
  lemma AckTimers(now: nat, t: nat, pending: nat, heap: multiset<Timer>, flows: seq<FlowState>, f: nat, s: nat)
    requires TimersInv(now, pending, heap, flows) && now <= t <= pending
    requires f < |flows| && s < |flows[f].acked|
    ensures flows[f].start <= t && (!flows[f].acked[s] ==> flows[f].outstanding > 0)
    ensures TimersInv(t, pending, heap + multiset(TimersFor(t, f, AckSends(flows[f], s))),
                      flows[f := AfterAck(flows[f], s, t)])
  {
    Wait(now, t, pending, heap, flows);
    assert FlowOk(f, t, heap, flows);
    AckKeepsInv(flows[f], s, t);
    var flows' := flows[f := AfterAck(flows[f], s, t)];
    var sent := AckSends(flows[f], s);
    AckedMore(flows[f], s, t);
    hide FlowInv, AfterAck, AckSends, HasTimer;
    forall x | x in heap
      ensures heap[x] == 1 && TimerOk(x, t, pending, flows') && (x.flowId == f ==> x.seqNum !in sent)
    {
      assert TimerOk(x, t, pending, flows);
    }
    forall g | 0 <= g < |flows'|
      ensures FlowInv(flows'[g]) && flows'[g].flowId == g && flows'[g].start <= t
    {
      assert FlowOk(g, t, heap, flows);
    }
    forall g, r | 0 <= g < |flows'| && 0 <= r < |flows'[g].acked| && !flows'[g].acked[r]
      ensures (g == f && r in sent) || HasTimer(heap, g, r)
    {
      assert FlowOk(g, t, heap, flows);
    }
    AddTimers(t, pending, heap, flows', f, sent);
  }

  /** After an acknowledgement what is unacknowledged was so before, or has just been sent. */
  lemma AckedMore(f: FlowState, s: nat, t: nat)
    requires FlowInv(f) && s < |f.acked| && f.start <= t && (!f.acked[s] ==> f.outstanding > 0)
    ensures var g, sent := AfterAck(f, s, t), AckSends(f, s);
      && g.flowId == f.flowId && g.start == f.start && |f.acked| <= |g.acked|
      && (forall i, j :: 0 <= i < j < |sent| ==> sent[i] != sent[j])
      && (forall r :: r in sent ==> |f.acked| <= r < |g.acked|)
      && (forall r :: 0 <= r < |g.acked| && !g.acked[r] ==> r in sent || (r < |f.acked| && !f.acked[r]))
  {
  }

  /** A new flow at `t`: every packet of its first burst gets a timer. */
  lemma FlowTimers(now: nat, t: nat, pending: nat, heap: multiset<Timer>, flows: seq<FlowState>, flow: FlowState)
    requires TimersInv(now, pending, heap, flows) && now <= t <= pending
    requires flow == FreshFlow(|flows|, flow.src, flow.dst, flow.sizeByte)
    ensures TimersInv(t, pending, heap + multiset(TimersFor(t, |flows|, Consecutive(0, AfterStart(flow, t).nextSeq))),
                      flows + [AfterStart(flow, t)])
  {
    Wait(now, t, pending, heap, flows);
    StartKeepsInv(flow, t);
    var g := AfterStart(flow, t);
    var flows' := flows + [g];
    var sent := Consecutive(0, g.nextSeq);
    forall x | x in heap
      ensures heap[x] == 1 && TimerOk(x, t, pending, flows') && x.flowId != |flows|
    {
      assert TimerOk(x, t, pending, flows);
    }
    forall h | 0 <= h < |flows'|
      ensures FlowInv(flows'[h]) && flows'[h].flowId == h && flows'[h].start <= t
    {
      if h < |flows| {
        assert FlowOk(h, t, heap, flows);
      }
    }
    forall h, s | 0 <= h < |flows'| && 0 <= s < |flows'[h].acked| && !flows'[h].acked[s]
      ensures (h == |flows| && s in sent) || HasTimer(heap, h, s)
    {
      if h < |flows| {
        assert FlowOk(h, t, heap, flows);
      } else {
        assert sent[s] == s;
      }
    }
    AddTimers(t, pending, heap, flows', |flows|, sent);
  }

  /** What the invariant says of one packet: sent and not acknowledged, it has exactly one live timer. */
  lemma ExactlyOneTimer(now: nat, pending: nat, heap: multiset<Timer>, flows: seq<FlowState>, f: nat, s: nat)
      returns (x: Timer)
    requires TimersInv(now, pending, heap, flows)
    requires f < |flows| && s < |flows[f].acked| && !flows[f].acked[s]
    ensures x.flowId == f && x.seqNum == s && heap[x] == 1 && pending <= x.time
    ensures forall y :: y in heap && y.flowId == f && y.seqNum == s ==> y == x
  {
    assert FlowOk(f, now, heap, flows);
    x :| x in heap && x.flowId == f && x.seqNum == s;
  }
}
