/** A server over many events: in which order timers are served, and what becomes of a flow. */
module ServerRuns {
  import opened Events
  import opened NetworkEvents
  import opened Tcp
  import opened Timers
  import opened Server
  import opened Sending

  /** From state `xs[k]` the server reacts to `es[k]`, which takes it to `xs[k + 1]`. */
  ghost predicate Reactions(cfg: Config, es: seq<ModelEvent>, xs: seq<Snapshot>) {
    && cfg.bandwidth > 0 && |xs| == |es| + 1
    && forall k :: 0 <= k < |es| ==> Reacted(cfg, es[k], xs[k], xs[k + 1])
  }

  lemma Earlier(cfg: Config, es: seq<ModelEvent>, xs: seq<Snapshot>)
    requires Reactions(cfg, es, xs) && es != []
    ensures var n := |es| - 1; Reactions(cfg, es[..n], xs[..n + 1]) && Reacted(cfg, es[n], xs[n], xs[n + 1])
  {
    hide Reacted;
  }

  // Timeouts at one moment

  ghost predicate AllTimeouts(es: seq<ModelEvent>, t: nat) {
    forall k :: 0 <= k < |es| ==> es[k].time == t && es[k].eventType == ModelEvent(Timeout)
  }

  /** No timer is set for earlier than `t`, none twice for `t`, and each for a known flow. */
  ghost predicate Clean(t: nat, x: Snapshot) {
    && (forall y :: y in x.timeouts ==> t <= y.time && y.flowId < |x.flows| && (y.time == t ==> x.timeouts[y] == 1))
    && forall f :: 0 <= f < |x.flows| ==> x.flows[f].flowId == f
  }

  lemma CleanFrom(now: nat, t: nat, x: Snapshot)
    requires TimersInv(now, t, x.timeouts, x.flows)
    ensures Clean(t, x)
  {
    hide FlowInv, HasTimer;
    forall f | 0 <= f < |x.flows|
      ensures x.flows[f].flowId == f
    {
      assert FlowOk(f, now, x.timeouts, x.flows);
    }
  }

  /**
   `es` carry data packets whose timers were due at `t` and unacknowledged, in strict order of flows and sequence
   numbers.
   */
  ghost predicate InOrder(t: nat, x: Snapshot, es: seq<ModelEvent>) {
    && (forall k :: 0 <= k < |es| ==> Again(t, x, es[k]))
    && forall a, b :: 0 <= a < b < |es| ==> Before(TimerOf(t, es[a]), TimerOf(t, es[b]))
  }

  /** The timer that was set for `t` for the packet `e` carries. */
  ghost function TimerOf(t: nat, e: ModelEvent): Timer {
    if e.eventType.ModelEvent? && e.eventType.model.PacketArrival?
    then Timer(t, e.eventType.model.packet.flowId, e.eventType.model.packet.seqNum) else Timer(0, 0, 0)
  }

  /** `e` carries a lost packet of `x`, whose timer was set for `t`. */
  ghost predicate Again(t: nat, x: Snapshot, e: ModelEvent) {
    && e.eventType.ModelEvent? && e.eventType.model.PacketArrival?
    && TimerOf(t, e) in x.timeouts && Lost(x, TimerOf(t, e))
    && var y := TimerOf(t, e);
       e.eventType.model.packet
       == Packet(x.flows[y.flowId].src, x.flows[y.flowId].dst, y.seqNum, 1500, false, y.flowId, 0)
  }

  ghost predicate Lost(x: Snapshot, y: Timer) {
    y.flowId < |x.flows| && y.seqNum < |x.flows[y.flowId].acked| && !x.flows[y.flowId].acked[y.seqNum]
  }

  /**
   What stands after some Timeouts at `t`: of the timers due those that are left come after all that went out again,
   and a lost packet has gone out again or still has its timer.
   */
  ghost predicate ServedSoFar(t: nat, x: Snapshot, x': Snapshot, sent: seq<ModelEvent>) {
    && x'.flows == x.flows && InOrder(t, x, sent) && Clean(t, x')
    && (forall y :: y in x'.timeouts && y.time == t ==>
          y in x.timeouts && forall k :: 0 <= k < |sent| ==> Before(TimerOf(t, sent[k]), y))
    && forall y :: y in x.timeouts && y.time == t && Lost(x, y) ==>
         y in x'.timeouts || exists k :: 0 <= k < |sent| && TimerOf(t, sent[k]) == y
  }

  lemma ServedNone(t: nat, x: Snapshot)
    requires Clean(t, x)
    ensures ServedSoFar(t, x, x, [])
  {
  }

  lemma ServedOne(cfg: Config, t: nat, x: Snapshot, m: Snapshot, x': Snapshot, sent: seq<ModelEvent>, e: ModelEvent)
      returns (more: seq<ModelEvent>)
    requires cfg.bandwidth > 0 && ServedSoFar(t, x, m, sent) && Reacted(cfg, e, m, x')
    requires e.time == t && e.eventType == ModelEvent(Timeout)
    ensures x'.torQueue == m.torQueue + more && ServedSoFar(t, x, x', sent + more)
  {
    hide Reacted;
    var y := TimeoutSendsFirst(cfg, e, m, x');
    more := x'.torQueue[|m.torQueue|..];
    assert x'.torQueue == m.torQueue + more;
    if y.Some? {
      TimersLeft(cfg, t, m, x', y.value);
      if m.flows[y.value.flowId].acked[y.value.seqNum] {
        assert more == [] && sent + more == sent;
      } else {
        assert more == [more[0]] && TimerOf(t, more[0]) == y.value;
        assert Again(t, x, more[0]);
      }
      ServedSo(t, x, m, x', sent, more, y.value);
    } else {
      assert sent + more == sent;
    }
  }

  lemma TimersLeft(cfg: Config, t: nat, m: Snapshot, x': Snapshot, y: Timer)
    requires Clean(t, m) && FirstDue(t, m.timeouts, y) && y.time == t && x'.flows == m.flows && y.flowId < |m.flows|
    requires Timed(m.timeouts - multiset{y}, x'.timeouts, t, y.flowId,
                   if y.seqNum < |m.flows[y.flowId].acked| && m.flows[y.flowId].acked[y.seqNum] then [] else [y.seqNum])
    ensures forall z: Timer :: z.time == t ==> (z in x'.timeouts <==> z in m.timeouts && z != y)
    ensures forall z :: z in m.timeouts && z.time == t && z != y ==> Before(y, z)
    ensures Clean(t, x')
  {
  }

  lemma ServedSo(t: nat, x: Snapshot, m: Snapshot, x': Snapshot, sent: seq<ModelEvent>, more: seq<ModelEvent>, y: Timer)
    requires ServedSoFar(t, x, m, sent) && y in m.timeouts && y.time == t && x'.flows == m.flows && Clean(t, x')
    requires forall z: Timer :: z.time == t ==> (z in x'.timeouts <==> z in m.timeouts && z != y)
    requires forall z :: z in m.timeouts && z.time == t && z != y ==> Before(y, z)
    requires if Lost(x, y) then |more| == 1 && TimerOf(t, more[0]) == y && Again(t, x, more[0]) else more == []
    ensures ServedSoFar(t, x, x', sent + more)
  {
    hide Clean, Lost, Again, Before, TimerOf;
    forall z | z in x.timeouts && z.time == t && Lost(x, z)
      ensures z in x'.timeouts || exists k :: 0 <= k < |sent + more| && TimerOf(t, (sent + more)[k]) == z
    {
      if z == y {
        assert TimerOf(t, (sent + more)[|sent|]) == z;
      } else if z !in x'.timeouts {
        var k :| 0 <= k < |sent| && TimerOf(t, sent[k]) == z;
        assert TimerOf(t, (sent + more)[k]) == z;
      }
    }
  }

  /**
   Timeouts at one moment serve the timers set for it in the order of flows and sequence numbers: what they send again
   is in that order, each packet unacknowledged. Once no timer set for that moment is left, every such packet has
   gone out again.
   */
  lemma {:induction false} ResentInOrder(cfg: Config, es: seq<ModelEvent>, xs: seq<Snapshot>, t: nat)
      returns (sent: seq<ModelEvent>)
    requires Reactions(cfg, es, xs) && AllTimeouts(es, t) && Clean(t, xs[0])
    ensures xs[|es|].torQueue == xs[0].torQueue + sent && ServedSoFar(t, xs[0], xs[|es|], sent)
    decreases |es|
  {
    hide Reacted, ServedSoFar, Clean;
    var n := |es|;
    if n == 0 {
      sent := [];
      ServedNone(t, xs[0]);
    } else {
      Earlier(cfg, es, xs);
      var before := ResentInOrder(cfg, es[..n - 1], xs[..n], t);
      var more := ServedOne(cfg, t, xs[0], xs[n - 1], xs[n], before, es[n - 1]);
      sent := before + more;
    }
  }

  // A burst that is lost

  lemma Slice(cfg: Config, es: seq<ModelEvent>, xs: seq<Snapshot>, a: nat, b: nat)
    requires Reactions(cfg, es, xs) && a <= b <= |es|
    ensures Reactions(cfg, es[a..b], xs[a..b + 1])
  {
    hide Reacted;
    forall k | 0 <= k < b - a
      ensures Reacted(cfg, es[a..b][k], xs[a..b + 1][k], xs[a..b + 1][k + 1])
    {
      assert Reacted(cfg, es[a + k], xs[a + k], xs[a + k + 1]);
    }
  }

  /** Nothing happens before `t` but stalls and Timeouts. */
  ghost predicate Quiet(es: seq<ModelEvent>, t: nat) {
    forall k :: 0 <= k < |es| ==>
      es[k].eventType.Stalled? || (es[k].eventType == ModelEvent(Timeout) && es[k].time < t)
  }

  lemma QuietOne(cfg: Config, e: ModelEvent, x: Snapshot, x': Snapshot, t: nat)
    requires cfg.bandwidth > 0 && Reacted(cfg, e, x, x')
    requires e.eventType.Stalled? || (e.eventType == ModelEvent(Timeout) && e.time < t)
    requires forall y :: y in x.timeouts ==> t <= y.time
    ensures x'.timeouts == x.timeouts && x'.flows == x.flows
  {
    if e.eventType.ModelEvent? {
      hide Reacted;
      var y := TimeoutSendsFirst(cfg, e, x, x');
    }
  }

  lemma {:induction false} QuietKeeps(cfg: Config, es: seq<ModelEvent>, xs: seq<Snapshot>, t: nat)
    requires Reactions(cfg, es, xs) && Quiet(es, t) && forall y :: y in xs[0].timeouts ==> t <= y.time
    ensures xs[|es|].timeouts == xs[0].timeouts && xs[|es|].flows == xs[0].flows
    decreases |es|
  {
    hide Reacted;
    if es != [] {
      var n := |es| - 1;
      Earlier(cfg, es, xs);
      QuietKeeps(cfg, es[..n], xs[..n + 1], t);
      QuietOne(cfg, es[n], xs[n], xs[n + 1], t);
    }
  }

  lemma AscendingLast(s: seq<nat>, a: nat)
    requires a < |s| && forall i, j :: 0 <= i < j < |s| ==> s[i] < s[j]
    ensures s[a] <= s[|s| - 1]
  {
  }

  /** Strictly ascending, below `n`, and all of them. */
  lemma {:induction false} AscendingIsAll(s: seq<nat>, n: nat)
    requires forall a, b :: 0 <= a < b < |s| ==> s[a] < s[b]
    requires forall a :: 0 <= a < |s| ==> s[a] < n
    requires forall k: nat :: k < n ==> k in s
    ensures s == Consecutive(0, n)
  {
    if n == 0 {
      assert s == [];
    } else {
      assert n - 1 in s;
      var last := |s| - 1;
      var a :| 0 <= a < |s| && s[a] == n - 1;
      AscendingLast(s, a);
      forall k: nat | k < n - 1
        ensures k in s[..last]
      {
        assert k in s;
        var b :| 0 <= b < |s| && s[b] == k;
        assert s[..last][b] == k;
      }
      AscendingIsAll(s[..last], n - 1);
      assert s == s[..last] + [n - 1];
    }
  }

  ghost function SeqNums(t: nat, es: seq<ModelEvent>): (s: seq<nat>)
    ensures |s| == |es| && forall k :: 0 <= k < |es| ==> s[k] == TimerOf(t, es[k]).seqNum
  {
    seq(|es|, k requires 0 <= k < |es| => TimerOf(t, es[k]).seqNum)
  }

  /** The timers are those of packets `0 .. n - 1` of flow `f`, none of which has been acknowledged. */
  ghost predicate BurstOut(t: nat, x: Snapshot, f: nat, n: nat) {
    && f < |x.flows| && n <= |x.flows[f].acked| && (forall k :: 0 <= k < n ==> !x.flows[f].acked[k])
    && forall y: Timer :: x.timeouts[y] == if y.time == t && y.flowId == f && y.seqNum < n then 1 else 0
  }

  lemma BurstInOrder(t: nat, x: Snapshot, x': Snapshot, f: nat, n: nat, sent: seq<ModelEvent>)
    requires BurstOut(t, x, f, n) && ServedSoFar(t, x, x', sent) && forall y :: y in x'.timeouts ==> y.time != t
    ensures |sent| == n
    ensures forall k :: 0 <= k < n ==>
              sent[k].eventType
              == ModelEvent(PacketArrival(Packet(x.flows[f].src, x.flows[f].dst, k, 1500, false, f, 0)))
  {
    var s := SeqNums(t, sent);
    forall k | 0 <= k < |sent|
      ensures TimerOf(t, sent[k]).flowId == f && s[k] < n
    {
      assert Again(t, x, sent[k]);
    }
    forall k: nat | k < n
      ensures k in s
    {
      assert Timer(t, f, k) in x.timeouts && Lost(x, Timer(t, f, k));
      var j :| 0 <= j < |sent| && TimerOf(t, sent[j]) == Timer(t, f, k);
      assert s[j] == k;
    }
    AscendingIsAll(s, n);
    forall k | 0 <= k < n
      ensures sent[k].eventType ==
                ModelEvent(PacketArrival(Packet(x.flows[f].src, x.flows[f].dst, k, 1500, false, f, 0)))
    {
      assert Again(t, x, sent[k]) && s[k] == k;
    }
  }

  /**
   A server without timers starts a flow, hears nothing of it, and gets the Timeouts of 2_000_000 later. Once they have
   used up the timers, exactly the first window has gone out again, in order.
   */
  lemma BurstResent(cfg: Config, es: seq<ModelEvent>, xs: seq<Snapshot>, a: nat, src: nat, dst: nat, sizeByte: nat)
      returns (n: nat, sent: seq<ModelEvent>)
    requires Reactions(cfg, es, xs) && 1 <= a <= |es|
    requires es[0].eventType == ModelEvent(NetworkEvent.Flow(src, dst, sizeByte))
    requires xs[0].timeouts == multiset{} && forall f :: 0 <= f < |xs[0].flows| ==> xs[0].flows[f].flowId == f
    requires Quiet(es[1..a], es[0].time + 2_000_000) && AllTimeouts(es[a..], es[0].time + 2_000_000)
    requires forall y :: y in xs[|es|].timeouts ==> y.time != es[0].time + 2_000_000
    ensures FirstWindow(n, sizeByte) && xs[|es|].torQueue == xs[a].torQueue + sent && |sent| == n
    ensures forall k :: 0 <= k < n ==>
              sent[k].eventType == ModelEvent(PacketArrival(Packet(src, dst, k, 1500, false, |xs[0].flows|, 0)))
  {
    hide Reacted, ServedSoFar, FirstWindow, DataOnWire;
    var t, i := es[0].time + 2_000_000, |xs[0].flows|;
    var f;
    assert Reacted(cfg, es[0], xs[0], xs[1]);
    n, f := FlowSends(cfg, es[0], xs[0], xs[1], src, dst, sizeByte);
    AfterFlow(es[0].time, xs[0], xs[1], n, f);
    Slice(cfg, es, xs, 1, a);
    QuietKeeps(cfg, es[1..a], xs[1..a + 1], t);
    assert es[a..|es|] == es[a..];
    Slice(cfg, es, xs, a, |es|);
    sent := ResentInOrder(cfg, es[a..], xs[a..|es| + 1], t);
    BurstInOrder(t, xs[a], xs[|es|], i, n, sent);
  }

  lemma AfterFlow(t0: nat, x: Snapshot, x': Snapshot, n: nat, f: FlowState)
    requires x.timeouts == multiset{} && x'.flows == x.flows + [f] && |f.acked| == n && f.flowId == |x.flows|
    requires (forall k :: 0 <= k < n ==> !f.acked[k]) && forall g :: 0 <= g < |x.flows| ==> x.flows[g].flowId == g
    requires Timed(x.timeouts, x'.timeouts, t0, |x.flows|, Consecutive(0, n))
    ensures BurstOut(t0 + 2_000_000, x', |x.flows|, n) && Clean(t0 + 2_000_000, x')
  {
    forall s: nat
      ensures s in Consecutive(0, n) <==> s < n
    {
      assert s < n ==> Consecutive(0, n)[s] == s;
    }
  }

  // What becomes of a flow

  /** `e` acknowledges packet `s` of flow `i`. */
  ghost predicate Acks(e: ModelEvent, i: nat, s: nat) {
    && e.eventType.ModelEvent? && e.eventType.model.PacketArrival?
    && var p := e.eventType.model.packet; p.isAck && p.flowId == i && p.seqNum == s
  }

  ghost predicate AcksFlow(e: ModelEvent, i: nat) {
    && e.eventType.ModelEvent? && e.eventType.model.PacketArrival?
    && e.eventType.model.packet.isAck && e.eventType.model.packet.flowId == i
  }

  /** The acknowledgements of flow `i` among `es`. */
  ghost function AcksIn(es: seq<ModelEvent>, i: nat): seq<Arrival> {
    if es == [] then []
    else
      var e := es[|es| - 1];
      AcksIn(es[..|es| - 1], i) + if AcksFlow(e, i) then [Ack(e.eventType.model.packet.seqNum, e.time)] else []
  }

  /** What one event means for flow `i`. */
  lemma FlowAfter(cfg: Config, e: ModelEvent, x: Snapshot, x': Snapshot, i: nat)
    requires cfg.bandwidth > 0 && Reacted(cfg, e, x, x') && i < |x.flows| && FlowInv(x.flows[i])
    ensures i < |x'.flows|
    ensures if AcksFlow(e, i) then
              var a := Ack(e.eventType.model.packet.seqNum, e.time);
              Possible(x.flows[i], a) && x'.flows[i] == After(x.flows[i], a)
            else x'.flows[i] == x.flows[i]
  {
    hide Train, TxEnd, AfterAck, FlowInv, AfterStart, FreshFlow, SendsFor, TimeoutOutcome, NextPending;
  }

  lemma {:induction false} RunOn(f: FlowState, arrivals: seq<Arrival>, a: Arrival)
    requires FlowInv(f) && PossibleRun(f, arrivals) && Possible(RunFlow(f, arrivals), a)
    ensures PossibleRun(f, arrivals + [a]) && RunFlow(f, arrivals + [a]) == After(RunFlow(f, arrivals), a)
    decreases |arrivals|
  {
    hide FlowInv, After;
    if arrivals == [] {
      assert [a][1..] == [] && [] + [a] == [a];
      RunNone(After(f, a));
    } else {
      RunOn(After(f, arrivals[0]), arrivals[1..], a);
      assert (arrivals + [a])[1..] == arrivals[1..] + [a];
    }
  }

  /** A flow has come to where the acknowledgements its server has received since its start take it. */
  lemma {:induction false} FlowIsRun(cfg: Config, es: seq<ModelEvent>, xs: seq<Snapshot>, f: FlowState, i: nat)
    requires Reactions(cfg, es, xs) && i < |xs[0].flows| && xs[0].flows[i] == f && FlowInv(f)
    ensures i < |xs[|es|].flows| && PossibleRun(f, AcksIn(es, i)) && xs[|es|].flows[i] == RunFlow(f, AcksIn(es, i))
    decreases |es|
  {
    hide Reacted, FlowInv, After, RunFlow, PossibleRun, Possible;
    if es == [] {
      RunNone(f);
    } else {
      var n := |es| - 1;
      Earlier(cfg, es, xs);
      FlowIsRun(cfg, es[..n], xs[..n + 1], f, i);
      FlowAfter(cfg, es[n], xs[n], xs[n + 1], i);
      if AcksFlow(es[n], i) {
        RunOn(f, AcksIn(es[..n], i), Ack(es[n].eventType.model.packet.seqNum, es[n].time));
      } else {
        assert AcksIn(es, i) == AcksIn(es[..n], i);
      }
    }
  }

  /** Packet `s` of flow `i` is acknowledged by one of the events. */
  ghost predicate AckAmong(es: seq<ModelEvent>, i: nat, s: nat) {
    exists k :: 0 <= k < |es| && Acks(es[k], i, s)
  }

  /** Every 1500 bytes of flow `i`, and what is left, have been acknowledged by the events. */
  ghost predicate AllAcked(es: seq<ModelEvent>, i: nat, sizeByte: nat) {
    forall s: nat :: 1500 * s < sizeByte ==> AckAmong(es, i, s)
  }

  lemma {:induction false} AckedInIs(es: seq<ModelEvent>, i: nat, s: nat)
    ensures AckedIn(AcksIn(es, i), s) <==> AckAmong(es, i, s)
    decreases |es|
  {
    if es != [] {
      var n := |es| - 1;
      AckedInIs(es[..n], i, s);
      AmongMore(es, i, s);
      if AcksFlow(es[n], i) {
        var all := AcksIn(es, i);
        OneMoreAcked(all, s);
        assert all[..|all| - 1] == AcksIn(es[..n], i);
      } else {
        assert AcksIn(es, i) == AcksIn(es[..n], i);
      }
    }
  }

  lemma AmongMore(es: seq<ModelEvent>, i: nat, s: nat)
    requires es != []
    ensures AckAmong(es, i, s) <==> AckAmong(es[..|es| - 1], i, s) || Acks(es[|es| - 1], i, s)
  {
    var n := |es| - 1;
    hide Acks;
    if k :| 0 <= k < n && Acks(es[..n][k], i, s) {
      assert Acks(es[k], i, s);
    }
    if k :| 0 <= k < |es| && Acks(es[k], i, s) {
      assert k < n ==> es[..n][k] == es[k];
    }
  }

  lemma CompleteIs(es: seq<ModelEvent>, i: nat, sizeByte: nat)
    ensures Complete(sizeByte, AcksIn(es, i)) <==> AllAcked(es, i, sizeByte)
  {
    hide AckedIn, AckAmong;
    forall s: nat
      ensures AckedIn(AcksIn(es, i), s) <==> AckAmong(es, i, s)
    {
      AckedInIs(es, i, s);
    }
  }

  lemma {:induction false} AcksOfPrefix(es: seq<ModelEvent>, i: nat, n: nat)
    requires n <= |es|
    ensures AcksIn(es[..n], i) <= AcksIn(es, i)
    decreases |es|
  {
    if n < |es| {
      AcksOfPrefix(es[..|es| - 1], i, n);
      assert es[..|es| - 1][..n] == es[..n];
    } else {
      assert es[..n] == es;
    }
  }

  lemma OneMoreAck(es: seq<ModelEvent>, i: nat, c: nat)
    requires 1 <= c < |es|
    ensures if AcksFlow(es[c], i) then
              AcksIn(es[1..c + 1], i) == AcksIn(es[1..c], i) + [Ack(es[c].eventType.model.packet.seqNum, es[c].time)]
            else AcksIn(es[1..c + 1], i) == AcksIn(es[1..c], i)
  {
    assert es[1..c + 1][..c - 1] == es[1..c] && es[1..c + 1][c - 1] == es[c];
  }

  /** The flow that the first event starts. */
  lemma StartedFlow(cfg: Config, es: seq<ModelEvent>, xs: seq<Snapshot>, src: nat, dst: nat, sizeByte: nat)
      returns (start: FlowState)
    requires Reactions(cfg, es, xs) && es != [] && es[0].eventType == ModelEvent(NetworkEvent.Flow(src, dst, sizeByte))
    ensures var i := |xs[0].flows|;
            && start == FreshFlow(i, src, dst, sizeByte) && FlowInv(AfterStart(start, es[0].time))
            && i < |xs[|es|].flows| && PossibleRun(AfterStart(start, es[0].time), AcksIn(es[1..], i))
            && xs[|es|].flows[i] == RunFlow(AfterStart(start, es[0].time), AcksIn(es[1..], i))
  {
    var i := |xs[0].flows|;
    start := FreshFlow(i, src, dst, sizeByte);
    StartKeepsInv(start, es[0].time);
    assert Reacted(cfg, es[0], xs[0], xs[1]);
    FlowStarted(cfg, es[0], xs[0], xs[1], src, dst, sizeByte);
    hide Reacted, FlowInv, AfterStart, FreshFlow, RunFlow, PossibleRun;
    assert es[1..|es|] == es[1..];
    Slice(cfg, es, xs, 1, |es|);
    FlowIsRun(cfg, es[1..], xs[1..|es| + 1], AfterStart(start, es[0].time), i);
  }

  lemma FlowStarted(cfg: Config, e: ModelEvent, x: Snapshot, x': Snapshot, src: nat, dst: nat, sizeByte: nat)
    requires cfg.bandwidth > 0 && Reacted(cfg, e, x, x')
    requires e.eventType == ModelEvent(NetworkEvent.Flow(src, dst, sizeByte))
    ensures x'.flows == x.flows + [AfterStart(FreshFlow(|x.flows|, src, dst, sizeByte), e.time)]
  {
    hide Launched, AfterStart, FreshFlow;
  }

  /**
   A flow has marked exactly those of its packets of which an acknowledgement has reached its server since it started.
   */
  lemma FlowMarks(cfg: Config, es: seq<ModelEvent>, xs: seq<Snapshot>, src: nat, dst: nat, sizeByte: nat, s: nat)
    requires Reactions(cfg, es, xs) && es != [] && es[0].eventType == ModelEvent(NetworkEvent.Flow(src, dst, sizeByte))
    ensures var i := |xs[0].flows|;
            && i < |xs[|es|].flows|
            && var f := xs[|es|].flows[i];
               && (s < |f.acked| ==> (f.acked[s] <==> AckAmong(es[1..], i, s)))
               && (AckAmong(es[1..], i, s) ==> s < |f.acked|)
  {
    var start := StartedFlow(cfg, es, xs, src, dst, sizeByte);
    hide Reactions, RunFlow, PossibleRun, AckedIn, AckAmong, AfterStart;
    MarksExactly(start, es[0].time, AcksIn(es[1..], |xs[0].flows|));
    AckedInIs(es[1..], |xs[0].flows|, s);
  }

  /**
   A non-empty flow prints one line, with the acknowledgement `es[c]` after which all its packets have been
   acknowledged: who sent to whom, when the flow started, when that acknowledgement arrived, and the time between.
   */
  lemma FlowReports(cfg: Config, es: seq<ModelEvent>, xs: seq<Snapshot>, src: nat, dst: nat, sizeByte: nat, c: nat)
    requires Reactions(cfg, es, xs) && es != [] && es[0].eventType == ModelEvent(NetworkEvent.Flow(src, dst, sizeByte))
    requires 1 <= c < |es| && sizeByte > 0
    requires AllAcked(es[1..c + 1], |xs[0].flows|, sizeByte) && !AllAcked(es[1..c], |xs[0].flows|, sizeByte)
    ensures var i, t0, t := |xs[0].flows|, es[0].time, es[c].time;
            i < |xs[|es|].flows| && t0 <= t && xs[|es|].flows[i].reports == [Report(src, dst, t0, t, sizeByte, t - t0)]
  {
    var i := |xs[0].flows|;
    var start := StartedFlow(cfg, es, xs, src, dst, sizeByte);
    hide Reactions, RunFlow, PossibleRun, AllAcked, AfterStart, Complete;
    var arrivals, j := AcksIn(es[1..], i), |AcksIn(es[1..c], i)|;
    CompleteIs(es[1..c + 1], i, sizeByte);
    CompleteIs(es[1..c], i, sizeByte);
    assert es[1..][..c] == es[1..c + 1];
    AcksOfPrefix(es[1..], i, c);
    OneMoreAck(es, i, c);
    assert arrivals[..j + 1] == AcksIn(es[1..c + 1], i) && arrivals[..j] == AcksIn(es[1..c], i);
    ReportIsRight(start, es[0].time, arrivals, j);
  }

  /** Until then it has printed none; and an empty flow never does. */
  lemma NoReportBefore(cfg: Config, es: seq<ModelEvent>, xs: seq<Snapshot>, src: nat, dst: nat, sizeByte: nat)
    requires Reactions(cfg, es, xs) && es != [] && es[0].eventType == ModelEvent(NetworkEvent.Flow(src, dst, sizeByte))
    ensures var i := |xs[0].flows|;
            && i < |xs[|es|].flows|
            && (xs[|es|].flows[i].reports == [] <==> sizeByte == 0 || !AllAcked(es[1..], i, sizeByte))
  {
    var i := |xs[0].flows|;
    var start := StartedFlow(cfg, es, xs, src, dst, sizeByte);
    hide Reactions, RunFlow, PossibleRun, AllAcked, AfterStart, Complete;
    ReportedIff(start, es[0].time, AcksIn(es[1..], i));
    CompleteIs(es[1..], i, sizeByte);
  }
}
