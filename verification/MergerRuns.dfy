/**
 Whole runs of one merger: neighbours push onto the input queues at any moment, also between the
 rounds of a call.
 */
module MergerRuns {
  import opened Events
  import opened MergerSpec

  /** `arrived` and `popped` list, per queue, what was pushed and what was popped; `outputs` is what `next` returned. */
  datatype Run<U> = Run(m: MState<U>, deciding: bool, arrived: seq<seq<Event<U>>>, popped: seq<seq<Event<U>>>,
                        outputs: seq<Event<U>>)

  ghost predicate Start<U>(r: Run<U>) {
    && |r.m.queues| == |r.m.curr| == |r.arrived| == |r.popped|
    && r.m.winner < |r.m.curr| && !r.deciding && r.outputs == []
    && forall q :: 0 <= q < |r.m.curr| ==>
         r.m.curr[q] == Event(0, q, Null) && r.m.queues[q] == [] && r.arrived[q] == [] && r.popped[q] == []
  }

  /** A neighbour pushes onto queue `q`, never going back in time. */
  ghost predicate Arrive<U>(r: Run<U>, r': Run<U>, q: nat, e: Event<U>) {
    && q < |r.arrived| && q < |r.m.queues|
    && !e.eventType.Stalled?
    && (r.arrived[q] != [] ==> r.arrived[q][|r.arrived[q]| - 1].time <= e.time)
    && r' == r.(arrived := r.arrived[q := r.arrived[q] + [e]],
                m := r.m.(queues := r.m.queues[q := r.m.queues[q] + [e]]))
  }

  ghost predicate PlayRound<U>(r: Run<U>, r': Run<U>) {
    && !r.deciding && r'.deciding && Round(r.m, r'.m) && r.m.winner < |r.popped|
    && r'.arrived == r.arrived && r'.outputs == r.outputs
    && var w := r.m.winner;
       r'.popped == if r.m.queues[w] == [] then r.popped else r.popped[w := r.popped[w] + [r.m.queues[w][0]]]
  }

  ghost predicate Decide<U>(r: Run<U>, r': Run<U>) {
    && r.deciding && r.m.winner < |r.m.queues| && r.m.winner < |r.m.curr|
    && r' == r.(deciding := false, outputs := if Retry(r.m) then r.outputs else r.outputs + [r.m.curr[r.m.winner]])
  }

  ghost predicate Step<U(!new)>(r: Run<U>, r': Run<U>) {
    PlayRound(r, r') || Decide(r, r') || exists q, e :: Arrive(r, r', q, e)
  }

  ghost predicate Steps<U(!new)>(rs: seq<Run<U>>) {
    rs != [] && forall k :: 0 <= k < |rs| - 1 ==> Step(rs[k], rs[k + 1])
  }

  // What an actor may still expect of a queue

  /** The events of a queue the actor has to see, carrying the queue's index. */
  ghost function Deliverable<U>(es: seq<Event<U>>, q: nat): seq<Event<U>> {
    if es == [] then []
    else
      var e := es[|es| - 1];
      Deliverable(es[..|es| - 1], q) + (if e.eventType.Null? then [] else [e.(src := q)])
  }

  /** What the actor has seen of queue `q`. */
  ghost function Delivered<U>(outputs: seq<Event<U>>, q: nat): seq<Event<U>> {
    if outputs == [] then []
    else
      var e := outputs[|outputs| - 1];
      Delivered(outputs[..|outputs| - 1], q) + (if e.src == q && Visible(e) then [e] else [])
  }

  /** The event of queue `q` waiting in the tree, if there is one the actor has not seen. */
  ghost function Held<U>(r: Run<U>, q: nat): seq<Event<U>>
    requires q < |r.m.curr|
  {
    if Visible(r.m.curr[q]) && (q != r.m.winner || r.deciding) then [r.m.curr[q]] else []
  }

  ghost predicate QueueInv<U>(r: Run<U>, q: nat)
    requires q < |r.m.curr| && q < |r.m.queues| && q < |r.arrived| && q < |r.popped|
  {
    && Sorted(r.arrived[q])
    && (forall k :: 0 <= k < |r.arrived[q]| ==> !r.arrived[q][k].eventType.Stalled?)
    && r.arrived[q] == r.popped[q] + r.m.queues[q]
    && Represents(r.m.curr[q], r.popped[q], q)
    && Deliverable(r.popped[q], q) == Delivered(r.outputs, q) + Held(r, q)
  }

  /** A queue is represented by its last event, or by a stall or placeholder at the time of that event. */
  ghost predicate Represents<U>(e: Event<U>, popped: seq<Event<U>>, q: nat) {
    && (if popped == [] then e.time == 0 else e.time == popped[|popped| - 1].time)
    && (Visible(e) ==> popped != [] && e == popped[|popped| - 1].(src := q))
  }

  ghost predicate Inv<U>(r: Run<U>) {
    && WellFormed(r.m) && LeastIn(r.m.winner, r.m.curr)
    && |r.arrived| == |r.popped| == |r.m.curr|
    && (forall q :: 0 <= q < |r.m.curr| ==> QueueInv(r, q))
    && Sorted(r.outputs)
    && (r.outputs != [] ==> r.outputs[|r.outputs| - 1].time <= r.m.curr[r.m.winner].time)
  }

  lemma DeliverableSnoc<U>(es: seq<Event<U>>, e: Event<U>, q: nat)
    ensures Deliverable(es + [e], q) == Deliverable(es, q) + (if e.eventType.Null? then [] else [e.(src := q)])
  {
    assert (es + [e])[..|es|] == es;
  }

  lemma DeliveredSnoc<U>(es: seq<Event<U>>, e: Event<U>, q: nat)
    ensures Delivered(es + [e], q) == Delivered(es, q) + (if e.src == q && Visible(e) then [e] else [])
  {
    assert (es + [e])[..|es|] == es;
  }

  lemma StartInv<U>(r: Run<U>)
    requires Start(r)
    ensures Inv(r)
  {
  }

  lemma ArriveInv<U>(r: Run<U>, r': Run<U>, q: nat, e: Event<U>)
    requires Inv(r) && Arrive(r, r', q, e)
    ensures Inv(r')
  {
    assert QueueInv(r, q);
    assert Held(r', q) == Held(r, q);
    assert QueueInv(r', q);
    hide Deliverable, Delivered, Sorted;
    forall p | 0 <= p < |r'.m.curr|
      ensures QueueInv(r', p)
    {
      assert QueueInv(r, p);
    }
  }

  /** Rounds never go back in time. */
  lemma RoundAdvances<U>(r: Run<U>, r': Run<U>)
    requires Inv(r) && PlayRound(r, r')
    ensures r.m.curr[r.m.winner].time <= r'.m.curr[r'.m.winner].time
  {
    var w := r.m.winner;
    assert QueueInv(r, w);
    if r.m.queues[w] != [] && r.popped[w] != [] {
      var k := |r.popped[w]|;
      assert r.arrived[w][k - 1].time <= r.arrived[w][k].time;
    }
  }

  lemma MoveHead<T>(whole: seq<T>, front: seq<T>, back: seq<T>)
    requires whole == front + back && back != []
    ensures whole == (front + [back[0]]) + back[1..]
    ensures back[0] == whole[|front|]
  {
  }

  /** The winner's queue is empty: a stall takes the place of what was seen already. */
  lemma StallQueue<U>(r: Run<U>, r': Run<U>)
    requires Inv(r) && PlayRound(r, r') && r.m.queues[r.m.winner] == []
    ensures QueueInv(r', r.m.winner)
  {
    var w := r.m.winner;
    assert QueueInv(r, w);
    hide Deliverable, Delivered, Sorted, LeastIn, Inv;
    assert r'.m.queues[w] == [] && Held(r', w) == [] && Held(r, w) == [];
  }

  /** The winner's queue gives up its head. */
  lemma PopQueue<U>(r: Run<U>, r': Run<U>)
    requires Inv(r) && PlayRound(r, r') && r.m.queues[r.m.winner] != []
    ensures QueueInv(r', r.m.winner)
  {
    var w := r.m.winner;
    assert QueueInv(r, w);
    hide Deliverable, Delivered, Sorted, LeastIn, Inv;
    assert Held(r, w) == [];
    MoveHead(r.arrived[w], r.popped[w], r.m.queues[w]);
    var e := r.m.queues[w][0];
    assert r'.popped[w] == r.popped[w] + [e] && r'.m.queues[w] == r.m.queues[w][1..];
    DeliverableSnoc(r.popped[w], e, w);
    assert r'.m.curr[w] == e.(src := w);
    assert Held(r', w) == if e.eventType.Null? then [] else [e.(src := w)];
  }

  lemma RoundWinnerQueue<U>(r: Run<U>, r': Run<U>)
    requires Inv(r) && PlayRound(r, r')
    ensures QueueInv(r', r.m.winner)
  {
    hide QueueInv;
    if r.m.queues[r.m.winner] == [] {
      StallQueue(r, r');
    } else {
      PopQueue(r, r');
    }
  }

  lemma RoundInv<U>(r: Run<U>, r': Run<U>)
    requires Inv(r) && PlayRound(r, r')
    ensures Inv(r')
  {
    RoundAdvances(r, r');
    RoundWinnerQueue(r, r');
    hide Deliverable, Delivered, Sorted;
    forall q | 0 <= q < |r'.m.curr| && q != r.m.winner
      ensures QueueInv(r', q)
    {
      assert QueueInv(r, q);
    }
  }

  lemma DecideQueue<U>(r: Run<U>, r': Run<U>, q: nat)
    requires Inv(r) && Decide(r, r') && q < |r.m.curr|
    ensures QueueInv(r', q)
  {
    hide Deliverable, Delivered, Sorted, LeastIn;
    assert QueueInv(r, q);
    if Retry(r.m) {
      assert Held(r', q) == Held(r, q);
    } else {
      DeliveredSnoc(r.outputs, r.m.curr[r.m.winner], q);
    }
  }

  lemma DecideInv<U>(r: Run<U>, r': Run<U>)
    requires Inv(r) && Decide(r, r')
    ensures Inv(r')
  {
    hide QueueInv;
    forall q | 0 <= q < |r'.m.curr|
      ensures QueueInv(r', q)
    {
      DecideQueue(r, r', q);
    }
  }

  lemma {:induction false} StepsInv<U(!new)>(rs: seq<Run<U>>, k: nat)
    requires Steps(rs) && Start(rs[0]) && k < |rs|
    ensures Inv(rs[k])
    decreases k
  {
    if k == 0 {
      StartInv(rs[0]);
    } else {
      StepsInv(rs, k - 1);
      assert Step(rs[k - 1], rs[k]);
      if PlayRound(rs[k - 1], rs[k]) {
        RoundInv(rs[k - 1], rs[k]);
      } else if Decide(rs[k - 1], rs[k]) {
        DecideInv(rs[k - 1], rs[k]);
      } else {
        var q, e :| Arrive(rs[k - 1], rs[k], q, e);
        ArriveInv(rs[k - 1], rs[k], q, e);
      }
    }
  }

  // Main results

  /** In every run the events returned, stalls included, never go back in time. */
  lemma OutputsInOrder<U(!new)>(rs: seq<Run<U>>, i: nat, j: nat)
    requires Steps(rs) && Start(rs[0])
    requires i < j < |rs[|rs| - 1].outputs|
    ensures rs[|rs| - 1].outputs[i].time <= rs[|rs| - 1].outputs[j].time
  {
    StepsInv(rs, |rs| - 1);
  }

  lemma {:induction false} DeliverableSplit<U>(a: seq<Event<U>>, b: seq<Event<U>>, q: nat)
    ensures Deliverable(a + b, q) == Deliverable(a, q) + Deliverable(b, q)
    decreases b
  {
    if b == [] {
      assert a + b == a;
    } else {
      assert (a + b)[..|a + b| - 1] == a + b[..|b| - 1];
      DeliverableSplit(a, b[..|b| - 1], q);
    }
  }

  /** In every run each queue's events are returned once and in order; what is missing is held or queued. */
  lemma NothingLost<U(!new)>(rs: seq<Run<U>>, q: nat)
    requires Steps(rs) && Start(rs[0])
    requires q < |rs[|rs| - 1].arrived|
    ensures var r := rs[|rs| - 1];
            q < |r.m.queues| && q < |r.m.curr| &&
            Deliverable(r.arrived[q], q) == Delivered(r.outputs, q) + Held(r, q) + Deliverable(r.m.queues[q], q)
  {
    var r := rs[|rs| - 1];
    StepsInv(rs, |rs| - 1);
    assert QueueInv(r, q);
    DeliverableSplit(r.popped[q], r.m.queues[q], q);
  }

  /**
   Whatever is returned at time `t`, nothing the actor still has to see lies before `t`; after a stall
   at `t` everything held lies strictly after `t`.
   */
  lemma NothingEarlierRemains<U(!new)>(rs: seq<Run<U>>, q: nat)
    requires Steps(rs) && Start(rs[0])
    requires var r := rs[|rs| - 1]; r.deciding && q < |r.m.curr| && r.m.winner < |r.m.curr|
    ensures var r := rs[|rs| - 1];
            var e := r.m.curr[r.m.winner];
            && q < |r.m.queues|
            && (forall k :: 0 <= k < |r.m.queues[q]| ==> e.time <= r.m.queues[q][k].time)
            && (forall h :: h in Held(r, q) ==> e.time <= h.time && (e.eventType.Stalled? ==> e.time < h.time))
  {
    var r := rs[|rs| - 1];
    StepsInv(rs, |rs| - 1);
    assert QueueInv(r, q);
    var n := |r.popped[q]|;
    forall k | 0 <= k < |r.m.queues[q]|
      ensures r.m.curr[r.m.winner].time <= r.m.queues[q][k].time
    {
      assert r.m.queues[q][k] == r.arrived[q][n + k];
      if n > 0 {
        assert r.arrived[q][n - 1].time <= r.arrived[q][n + k].time;
      }
    }
  }

  /** A call of `next` is such a run: its rounds, each followed by the decision to retry or return. */
  lemma {:induction false} CallIsRun<U(!new)>(r: Run<U>, trace: seq<MState<U>>) returns (rs: seq<Run<U>>)
    requires |trace| >= 2 && r.m == trace[0] && !r.deciding && |r.popped| == |r.m.curr|
    requires Call(trace)
    ensures Steps(rs) && rs[0] == r
    ensures var last := rs[|rs| - 1];
            && last.m == trace[|trace| - 1] && !last.deciding && last.m.winner < |last.m.curr|
            && last.outputs == r.outputs + [last.m.curr[last.m.winner]] && last.arrived == r.arrived
    decreases |trace|
  {
    var w := r.m.winner;
    assert Round(trace[0], trace[1]);
    var played := r.(m := trace[1], deciding := true,
                     popped := if r.m.queues[w] == [] then r.popped
                                else r.popped[w := r.popped[w] + [r.m.queues[w][0]]]);
    assert WellFormed(trace[1]);
    if |trace| == 2 {
      var decided := played.(deciding := false, outputs := r.outputs + [played.m.curr[played.m.winner]]);
      assert PlayRound(r, played) && Decide(played, decided);
      rs := [r, played, decided];
    } else {
      var decided := played.(deciding := false);
      assert PlayRound(r, played) && Decide(played, decided);
      var rest := CallIsRun(decided, trace[1..]);
      rs := [r, played] + rest;
      forall k | 0 <= k < |rs| - 1
        ensures Step(rs[k], rs[k + 1])
      {
        if k >= 2 {
          assert Step(rest[k - 2], rest[k - 1]);
        }
      }
    }
  }
}
