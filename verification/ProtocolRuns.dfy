/** What the null-message protocol guarantees over whole runs: no deadlock, causality, and progress of stalls. */
module ProtocolRuns {
  import opened Events
  import opened Protocol

  ghost predicate Running<U>(net: Net, s: Global<U>, i: nat)
    requires Sized(net, s)
  {
    i < net.actors && s.phase[i] != Done
  }

  /** Actor `i` stands at a stall on an empty queue. */
  ghost predicate AtStall<U>(net: Net, s: Global<U>, i: nat)
    requires Sized(net, s) && i < net.actors
  {
    Chosen(net, s, i).eventType.Stalled? && s.queue[s.winner[i]] == []
  }

  /** Actor `i` stands at a stall, and its neighbours already have its promise for that time. */
  ghost predicate Blocked<U>(net: Net, s: Global<U>, i: nat)
    requires Sized(net, s) && i < net.actors
  {
    && AtStall(net, s, i)
    && forall c :: 0 <= c < |net.channels| && net.channels[c].origin == Link(i) ==> Chosen(net, s, i).time <= s.clock[c]
  }

  /** A stall is always owed to a neighbour that is still running, and lies one latency after that neighbour's clock. */
  lemma StallNamesSender<U>(net: Net, s: Global<U>, i: nat) returns (sender: nat)
    requires Inv(net, s) && Running(net, s, i) && AtStall(net, s, i)
    ensures net.channels[s.winner[i]].origin == Link(sender) && Running(net, s, sender)
    ensures Chosen(net, s, i).time == s.clock[s.winner[i]] + net.latency
  {
    var c := s.winner[i];
    assert ChannelInv(net, s, c);
    assert Stream(s, c)[0] == s.curr[c];
    sender := net.channels[c].origin.sender;
  }

  /**
   No deadlock: while some actor runs, some running actor is not blocked. The chain from a blocked
   actor to the neighbour it waits for strictly descends in time.
   */
  lemma {:induction false} NoDeadlock<U>(net: Net, s: Global<U>, i: nat) returns (j: nat)
    requires Inv(net, s) && Running(net, s, i)
    ensures Running(net, s, j) && !Blocked(net, s, j)
    decreases Chosen(net, s, i).time
  {
    j := i;
    if Blocked(net, s, i) {
      var sender := StallNamesSender(net, s, i);
      j := sender;
      if Blocked(net, s, sender) {
        j := NoDeadlock(net, s, sender);
      }
    }
  }

  /** A merger round never takes an actor back in time, unless it makes it see a Close. */
  lemma PopAdvances<U>(net: Net, s: Global<U>, s': Global<U>, i: nat)
    requires Inv(net, s) && Pop(net, s, s', i)
    ensures Chosen(net, s', i).eventType.Close? || Chosen(net, s, i).time <= Chosen(net, s', i).time
  {
    var w := s.winner[i];
    assert ActorInv(net, s, i) && ChannelInv(net, s, w);
    PopStream(s, s', w);
    if s.queue[w] != [] && !s.queue[w][0].eventType.Close? {
      assert Stream(s, w)[0] == s.curr[w] && Stream(s, w)[1] == s.queue[w][0];
      assert Stream(s, w)[..|Stream(s, w)| - 1][0] == s.curr[w];
      if |s.queue[w]| > 1 {
        assert Stream(s, w)[..|Stream(s, w)| - 1][1] == s.queue[w][0];
      }
    }
  }

  ghost predicate Behavior<U>(net: Net, ss: seq<Global<U>>) {
    && NetOk(net) && ss != [] && Start(net, ss[0])
    && forall k :: 0 <= k < |ss| - 1 ==> Moves(net, ss[k], ss[k + 1])
  }

  ghost predicate Moves<U>(net: Net, s: Global<U>, s': Global<U>) {
    exists i: nat :: Step(net, s, s', i)
  }

  lemma {:induction false} BehaviorInv<U>(net: Net, ss: seq<Global<U>>, k: nat)
    requires Behavior(net, ss) && k < |ss|
    ensures Inv(net, ss[k])
    decreases k
  {
    if k == 0 {
      StartInv(net, ss[0]);
    } else {
      BehaviorInv(net, ss, k - 1);
      assert Moves(net, ss[k - 1], ss[k]);
      var i: nat :| Step(net, ss[k - 1], ss[k], i);
      StepInv(net, ss[k - 1], ss[k], i);
    }
  }

  /** In every run, at every moment with an actor still running, some running actor is not blocked. */
  lemma DeadlockFree<U>(net: Net, ss: seq<Global<U>>, k: nat, i: nat)
    requires Behavior(net, ss) && k < |ss| && Sized(net, ss[k]) && Running(net, ss[k], i)
    ensures exists j: nat :: Running(net, ss[k], j) && !Blocked(net, ss[k], j)
  {
    BehaviorInv(net, ss, k);
    var j := NoDeadlock(net, ss[k], i);
  }

  /** For actor `i`, `s'` is no earlier than `s`; nobody's promises are taken back. */
  ghost predicate Later<U>(net: Net, s: Global<U>, s': Global<U>, i: nat) {
    && Sized(net, s) && Sized(net, s') && i < net.actors
    && (Chosen(net, s', i).eventType.Close? || Chosen(net, s, i).time <= Chosen(net, s', i).time)
    && (Chosen(net, s, i).eventType.Close? ==> Chosen(net, s', i) == Chosen(net, s, i))
    && (s.phase[i] == Done ==> s'.phase[i] == Done)
    && forall c :: 0 <= c < |net.channels| ==> s.clock[c] <= s'.clock[c]
  }

  lemma LaterTrans<U>(net: Net, s: Global<U>, t: Global<U>, u: Global<U>, i: nat)
    requires Later(net, s, t, i) && Later(net, t, u, i)
    ensures Later(net, s, u, i)
  {
  }

  /** One step as any actor `i` sees it. */
  lemma StepAdvances<U>(net: Net, s: Global<U>, s': Global<U>, mover: nat, i: nat)
    requires Inv(net, s) && Step(net, s, s', mover) && i < net.actors
    ensures Inv(net, s')
    ensures Later(net, s, s', i)
  {
    StepInv(net, s, s', mover);
    assert ActorInv(net, s, i);
    if Pop(net, s, s', mover) {
      assert ActorInv(net, s, mover);
      if mover == i {
        PopAdvances(net, s, s', i);
      }
    } else {
      StepClocks(net, s, s', mover);
    }
  }

  lemma StepClocks<U>(net: Net, s: Global<U>, s': Global<U>, i: nat)
    requires Inv(net, s) && Step(net, s, s', i)
    ensures |s'.clock| == |s.clock| && forall c :: 0 <= c < |net.channels| ==> s.clock[c] <= s'.clock[c]
  {
    forall c | 0 <= c < |net.channels|
      ensures |s'.clock| == |s.clock| && s.clock[c] <= s'.clock[c]
    {
      if Stall(net, s, s', i) {
        assert StallPush(net, s, s', i, c);
      } else if CloseDown(net, s, s', i) {
        assert ClosePush(net, s, s', i, c);
      } else if Model(net, s, s', i) {
        assert ModelPush(net, s, s', i, c);
        var sent := s'.queue[c][|s.queue[c]|..];
        if net.channels[c].origin == Link(i) && sent != [] {
          assert sent[0].time <= sent[|sent| - 1].time;
        }
      }
    }
  }

  lemma LaterRefl<U>(net: Net, s: Global<U>, i: nat)
    requires Inv(net, s) && i < net.actors
    ensures Later(net, s, s, i)
  {
  }

  lemma MoverAt<U>(net: Net, ss: seq<Global<U>>, k: nat) returns (mover: nat)
    requires Behavior(net, ss) && k + 1 < |ss|
    ensures Step(net, ss[k], ss[k + 1], mover)
  {
    hide Step, Start, NetOk;
    assert Moves(net, ss[k], ss[k + 1]);
    mover :| Step(net, ss[k], ss[k + 1], mover);
  }

  /** What holds between two moments of a run, for every actor and channel. */
  lemma {:induction false} RunAdvances<U>(net: Net, ss: seq<Global<U>>, a: nat, b: nat, i: nat)
    requires Behavior(net, ss) && a <= b < |ss| && i < net.actors
    ensures Inv(net, ss[a]) && Inv(net, ss[b])
    ensures Later(net, ss[a], ss[b], i)
    decreases b - a
  {
    hide *;
    BehaviorInv(net, ss, a);
    if a < b {
      RunAdvances(net, ss, a, b - 1, i);
      var mover := MoverAt(net, ss, b - 1);
      StepAdvances(net, ss[b - 1], ss[b], mover, i);
      LaterTrans(net, ss[a], ss[b - 1], ss[b], i);
    } else {
      LaterRefl(net, ss[a], i);
    }
  }

  /**
   Causality: whatever actor `i` sees after having been at some event is never earlier, except for the
   Close that ends it, which may come early.
   */
  lemma Causality<U>(net: Net, ss: seq<Global<U>>, a: nat, b: nat, i: nat)
    requires Behavior(net, ss) && a <= b < |ss| && i < net.actors && Sized(net, ss[a]) && Sized(net, ss[b])
    requires !Chosen(net, ss[b], i).eventType.Close?
    ensures Chosen(net, ss[a], i).time <= Chosen(net, ss[b], i).time
  {
    RunAdvances(net, ss, a, b, i);
  }

  // Progress of stalls

  /** Every neighbour still running has promised at least `floor`. */
  ghost predicate Floor<U>(net: Net, s: Global<U>, floor: nat)
    requires Sized(net, s)
  {
    forall c :: 0 <= c < |net.channels| && net.channels[c].origin.Link?
                && Running(net, s, net.channels[c].origin.sender)
      ==> floor <= s.clock[c]
  }

  ghost predicate StallsAt<U>(net: Net, ss: seq<Global<U>>, k: nat, i: nat) {
    k + 1 < |ss| && Sized(net, ss[k]) && i < net.actors && Stall(net, ss[k], ss[k + 1], i)
  }

  /**
   A stalled actor sends a null exactly on the links on which nothing has been sent yet for one latency after the stall
   or later. The null is for that time: news to the neighbour, and as much as can be promised.
   */
  lemma PromisesAreNews<U>(net: Net, s: Global<U>, s': Global<U>, i: nat, c: nat)
    requires Inv(net, s) && Stall(net, s, s', i) && c < |net.channels| && net.channels[c].origin == Link(i)
    ensures var safe := Chosen(net, s, i).time + net.latency;
            s'.queue[c] == s.queue[c] + if Latest(s, c).time < safe then [Event(safe, IdOf(net, i), Null)] else []
  {
    assert ChannelInv(net, s, c) && StallPush(net, s, s', i, c);
  }

  /** Once all promises reach `floor`, every later stall is at least one latency beyond it. */
  lemma StallAboveFloor<U>(net: Net, ss: seq<Global<U>>, a: nat, k: nat, i: nat, floor: nat)
    requires Behavior(net, ss) && a <= k && StallsAt(net, ss, k, i)
    requires Sized(net, ss[a]) && Floor(net, ss[a], floor)
    ensures floor + net.latency <= Chosen(net, ss[k], i).time
  {
    BehaviorInv(net, ss, k);
    var sender := StallNamesSender(net, ss[k], i);
    RunAdvances(net, ss, a, k, sender);
  }

  /** Between `a` and `b` every actor has stalled at least once, or is done by `b`. */
  ghost predicate FullRound<U>(net: Net, ss: seq<Global<U>>, a: nat, b: nat) {
    && a <= b < |ss| && Sized(net, ss[b])
    && forall i :: 0 <= i < net.actors ==>
         !Running(net, ss[b], i) || exists k: nat :: a <= k < b && StallsAt(net, ss, k, i)
  }

  lemma StallPromises<U>(net: Net, s: Global<U>, s': Global<U>, i: nat, c: nat)
    requires Stall(net, s, s', i) && c < |net.channels| && net.channels[c].origin == Link(i)
    ensures Chosen(net, s, i).time <= s'.clock[c]
  {
    assert StallPush(net, s, s', i, c);
  }

  lemma FullRoundRaisesFloor<U>(net: Net, ss: seq<Global<U>>, a: nat, b: nat, floor: nat)
    requires Behavior(net, ss) && FullRound(net, ss, a, b)
    requires Sized(net, ss[a]) && Floor(net, ss[a], floor)
    ensures Floor(net, ss[b], floor + net.latency)
  {
    hide Behavior, Stall, Inv, Chosen;
    forall c | 0 <= c < |net.channels| && net.channels[c].origin.Link?
               && Running(net, ss[b], net.channels[c].origin.sender)
      ensures floor + net.latency <= ss[b].clock[c]
    {
      var i := net.channels[c].origin.sender;
      var k: nat :| a <= k < b && StallsAt(net, ss, k, i);
      StallAboveFloor(net, ss, a, k, i, floor);
      StallPromises(net, ss[k], ss[k + 1], i, c);
      RunAdvances(net, ss, k + 1, b, i);
    }
  }

  ghost predicate FullRounds<U>(net: Net, ss: seq<Global<U>>, bounds: seq<nat>) {
    && bounds != [] && bounds[0] < |ss|
    && forall r :: 0 <= r < |bounds| - 1 ==> FullRound(net, ss, bounds[r], bounds[r + 1])
  }

  lemma {:induction false} RoundsRaiseFloor<U>(net: Net, ss: seq<Global<U>>, bounds: seq<nat>)
    requires Behavior(net, ss) && FullRounds(net, ss, bounds)
    ensures bounds[|bounds| - 1] < |ss| && Sized(net, ss[bounds[|bounds| - 1]])
    ensures Floor(net, ss[bounds[|bounds| - 1]], (|bounds| - 1) * net.latency)
    decreases bounds
  {
    var last := |bounds| - 1;
    if last == 0 {
      BehaviorInv(net, ss, bounds[0]);
    } else {
      RoundsRaiseFloor(net, ss, bounds[..last]);
      assert FullRound(net, ss, bounds[last - 1], bounds[last]);
      hide FullRound, Floor, Behavior;
      FullRoundRaisesFloor(net, ss, bounds[last - 1], bounds[last], (last - 1) * net.latency);
      assert (last - 1) * net.latency + net.latency == last * net.latency;
    }
  }

  /** After `r` full rounds every stall lies at `(r + 1) * latency` or later. */
  lemma StallTimesGrow<U>(net: Net, ss: seq<Global<U>>, bounds: seq<nat>, k: nat, i: nat)
    requires Behavior(net, ss) && FullRounds(net, ss, bounds)
    requires bounds[|bounds| - 1] <= k && StallsAt(net, ss, k, i)
    ensures |bounds| * net.latency <= Chosen(net, ss[k], i).time
  {
    RoundsRaiseFloor(net, ss, bounds);
    hide *;
    StallAboveFloor(net, ss, bounds[|bounds| - 1], k, i, (|bounds| - 1) * net.latency);
    assert (|bounds| - 1) * net.latency + net.latency == |bounds| * net.latency;
  }

  /** The time of the Close the world has scheduled on channel `c` does not change. */
  lemma {:induction false} CloseTimeFixed<U>(net: Net, ss: seq<Global<U>>, k: nat, c: nat)
    requires Behavior(net, ss) && k < |ss| && c < |net.channels| && net.channels[c].origin.World?
    ensures Inv(net, ss[0]) && Inv(net, ss[k]) && Latest(ss[k], c).time == Latest(ss[0], c).time
    decreases k
  {
    BehaviorInv(net, ss, 0);
    BehaviorInv(net, ss, k);
    if k > 0 {
      CloseTimeFixed(net, ss, k - 1, c);
      assert Moves(net, ss[k - 1], ss[k]);
      var i: nat :| Step(net, ss[k - 1], ss[k], i);
      WorldUntouched(net, ss[k - 1], ss[k], i, c);
    }
  }

  lemma WorldUntouched<U>(net: Net, s: Global<U>, s': Global<U>, i: nat, c: nat)
    requires Inv(net, s) && Inv(net, s') && Step(net, s, s', i) && c < |net.channels| && net.channels[c].origin.World?
    ensures Latest(s', c).time == Latest(s, c).time
  {
    if Stall(net, s, s', i) {
      assert StallPush(net, s, s', i, c);
    } else if CloseDown(net, s, s', i) {
      assert ClosePush(net, s, s', i, c);
    } else if Model(net, s, s', i) {
      assert ModelPush(net, s, s', i, c);
    }
  }

  /** An actor stalls only strictly before the Close the world scheduled for it. */
  lemma StallBeforeClose<U>(net: Net, ss: seq<Global<U>>, k: nat, i: nat, c: nat)
    requires Behavior(net, ss) && StallsAt(net, ss, k, i)
    requires c < |net.channels| && net.channels[c] == Channel(World, i) && Sized(net, ss[0])
    ensures Chosen(net, ss[k], i).time < Latest(ss[0], c).time
  {
    CloseTimeFixed(net, ss, k, c);
    var s := ss[k];
    assert ActorInv(net, s, i) && ChannelInv(net, s, c);
    assert Leq(Chosen(net, s, i), s.curr[c]);
    assert Stream(s, c)[0] == s.curr[c] && Stream(s, c)[|Stream(s, c)| - 1] == Latest(s, c);
  }

  /** Stalls run out: after as many full rounds as there are latencies before its Close, an actor never stalls again. */
  lemma StallsRunOut<U>(net: Net, ss: seq<Global<U>>, bounds: seq<nat>, k: nat, i: nat, c: nat)
    requires Behavior(net, ss) && FullRounds(net, ss, bounds) && bounds[|bounds| - 1] <= k
    requires c < |net.channels| && net.channels[c] == Channel(World, i) && Sized(net, ss[0])
    requires Latest(ss[0], c).time <= |bounds| * net.latency
    ensures !StallsAt(net, ss, k, i)
  {
    if StallsAt(net, ss, k, i) {
      StallTimesGrow(net, ss, bounds, k, i);
      StallBeforeClose(net, ss, k, i, c);
    }
  }

  /** The end: after as many full rounds as there are latencies before the last Close every actor is done. */
  lemma EveryoneDone<U>(net: Net, ss: seq<Global<U>>, bounds: seq<nat>, b: nat, i: nat)
    requires Behavior(net, ss) && bounds != [] && FullRounds(net, ss, bounds + [b]) && Sized(net, ss[0])
    requires forall c :: 0 <= c < |net.channels| && net.channels[c].origin.World? ==>
               Latest(ss[0], c).time <= |bounds| * net.latency
    requires i < net.actors
    ensures b < |ss| && Sized(net, ss[b]) && ss[b].phase[i] == Done
  {
    var last := |bounds| - 1;
    assert FullRounds(net, ss, bounds) && FullRound(net, ss, bounds[last], b) by {
      EarlierRounds(net, ss, bounds, b);
    }
    assert HearsWorld(net, i);
    var c :| 0 <= c < |net.channels| && net.channels[c] == Channel(World, i);
    hide FullRounds, Behavior, Latest, Stall;
    if Running(net, ss[b], i) {
      var k: nat :| bounds[last] <= k < b && StallsAt(net, ss, k, i);
      StallsRunOut(net, ss, bounds, k, i, c);
    }
  }

  lemma EarlierRounds<U>(net: Net, ss: seq<Global<U>>, bounds: seq<nat>, b: nat)
    requires bounds != [] && FullRounds(net, ss, bounds + [b])
    ensures FullRounds(net, ss, bounds) && FullRound(net, ss, bounds[|bounds| - 1], b)
  {
    hide FullRound;
    var all := bounds + [b];
    assert all[|bounds| - 1] == bounds[|bounds| - 1] && all[|bounds|] == b;
    forall r | 0 <= r < |bounds| - 1
      ensures FullRound(net, ss, bounds[r], bounds[r + 1])
    {
      assert all[r] == bounds[r] && all[r + 1] == bounds[r + 1];
    }
  }

  // Timers

  ghost function PendingTimeout<U>(s: Global<U>, c: nat): nat
    requires c < |s.queue| && c < |s.curr|
  {
    if s.queue[c] == [] then s.curr[c].time else s.queue[c][0].time
  }

  /** A running actor is never taken past its pending timeout. */
  lemma TimeoutNotMissed<U>(net: Net, ss: seq<Global<U>>, k: nat, i: nat, c: nat)
    requires Behavior(net, ss) && k < |ss| && Sized(net, ss[k]) && Running(net, ss[k], i)
    requires c < |net.channels| && net.channels[c] == Channel(Self(i), i)
    ensures Chosen(net, ss[k], i).time <= PendingTimeout(ss[k], c)
    ensures |ss[k].queue[c]| <= 1
  {
    BehaviorInv(net, ss, k);
    var s := ss[k];
    assert ActorInv(net, s, i) && ChannelInv(net, s, c);
    assert Leq(Chosen(net, s, i), s.curr[c]);
    assert Stream(s, c)[0] == s.curr[c];
    if s.queue[c] != [] {
      assert Stream(s, c)[1] == s.queue[c][0];
    }
  }

  /**
   Timeouts alone may go on for ever: nothing in the protocol keeps an actor from answering a timeout by one
   at the same time, after which it is where it was.
   */
  lemma TimeoutMayRepeat<U>(net: Net, s: Global<U>, i: nat, c: nat, e: Event<U>) returns (s': Global<U>)
    requires Sized(net, s) && i < net.actors && s.phase[i] == Ready && s.winner[i] == c && LeastAmong(net, s, i)
    requires net.channels[c] == Channel(Self(i), i)
    requires e.eventType.ModelEvent? && s.queue[c] == [e] && s.curr[c] == e.(src := c)
    ensures Pop(net, s, s', i) && Model(net, s', s, i)
  {
    s' := s.(queue := s.queue[c := []], phase := s.phase[i := Deciding]);
    assert s'.curr == s.curr[c := e.(src := c)];
    assert [e][1..] == [];
    forall d | 0 <= d < |net.channels|
      ensures Reacts(net, s', s, i) && ModelPush(net, s', s, i, d)
    {
    }
    assert s.phase == s'.phase[i := Ready];
  }
}
