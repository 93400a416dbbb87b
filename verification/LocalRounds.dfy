/** An actor's merger inside the protocol: its rounds are the protocol's steps on the actor's own channels. */
module LocalRounds {
  import opened Events
  import opened Protocol
  import opened ProtocolRuns
  import MergerSpec

  /** `ports` lists the channels into actor `i`, in the order of its merger's queues. */
  ghost predicate Ports(net: Net, i: nat, ports: seq<nat>) {
    && (forall k :: 0 <= k < |ports| ==> ports[k] < |net.channels| && net.channels[ports[k]].dst == i)
    && (forall k, l :: 0 <= k < l < |ports| ==> ports[k] != ports[l])
    && (forall c :: 0 <= c < |net.channels| && net.channels[c].dst == i ==> c in ports)
  }

  /** What the merger at the end of `ports` holds, last won by its queue `w`. */
  ghost function Local<U>(net: Net, s: Global<U>, i: nat, ports: seq<nat>, w: nat): (m: MergerSpec.MState<U>)
    requires Sized(net, s) && Ports(net, i, ports)
    ensures |m.queues| == |m.curr| == |ports| && m.winner == w
    ensures forall k :: 0 <= k < |ports| ==>
        m.queues[k] == s.queue[ports[k]] && m.curr[k] == s.curr[ports[k]].(src := k)
  {
    MergerSpec.MState(seq(|ports|, k requires 0 <= k < |ports| => s.queue[ports[k]]),
                      seq(|ports|, k requires 0 <= k < |ports| => s.curr[ports[k]].(src := k)), w)
  }

  lemma PoppedLocally<U>(net: Net, s: Global<U>, s': Global<U>, i: nat, ports: seq<nat>, w: nat, w': nat)
    requires Sized(net, s) && Sized(net, s') && Ports(net, i, ports) && w < |ports| && Popped(s, s', ports[w])
    ensures var m, m' := Local(net, s, i, ports, w), Local(net, s', i, ports, w');
            && m'.queues == m.queues[w := if m.queues[w] == [] then [] else m.queues[w][1..]]
            && m'.curr == m.curr[w := MergerSpec.Candidate(m)]
  {
  }

  lemma LeastLocally<U>(net: Net, s: Global<U>, i: nat, ports: seq<nat>, w: nat)
    requires Sized(net, s) && Ports(net, i, ports) && i < net.actors && w < |ports| && s.winner[i] == ports[w]
    ensures MergerSpec.LeastIn(w, Local(net, s, i, ports, w).curr) <==> LeastAmong(net, s, i)
  {
    var m := Local(net, s, i, ports, w);
    if MergerSpec.LeastIn(w, m.curr) {
      forall c | 0 <= c < |net.channels| && net.channels[c].dst == i
        ensures Leq(Chosen(net, s, i), s.curr[c])
      {
        var k :| 0 <= k < |ports| && ports[k] == c;
        assert Leq(m.curr[w], m.curr[k]);
      }
    }
  }

  /** The global state in which channel `c` has been popped and channel `next` wins. */
  ghost function AfterRound<U>(net: Net, s: Global<U>, i: nat, c: nat, next: nat): (s': Global<U>)
    requires Sized(net, s) && i < net.actors && c < |net.channels| && next < |net.channels|
    requires net.channels[next].dst == i
    ensures Sized(net, s') && Popped(s, s', c)
  {
    var q := s.queue[c];
    s.(queue := if q == [] then s.queue else s.queue[c := q[1..]],
       curr := s.curr[c := if q == [] then Event(s.curr[c].time, c, Stalled) else q[0].(src := c)],
       winner := s.winner[i := next], phase := s.phase[i := Deciding])
  }

  /** Every round the merger plays is a step of the protocol. */
  lemma RoundIsPop<U>(net: Net, s: Global<U>, i: nat, ports: seq<nat>, w: nat, m: MergerSpec.MState<U>)
      returns (s': Global<U>)
    requires Sized(net, s) && Ports(net, i, ports) && i < net.actors && s.phase[i] == Ready
    requires w < |ports| && s.winner[i] == ports[w]
    requires MergerSpec.Round(Local(net, s, i, ports, w), m)
    ensures Pop(net, s, s', i) && s'.winner[i] == ports[m.winner] && Local(net, s', i, ports, m.winner) == m
  {
    s' := AfterRound(net, s, i, ports[w], ports[m.winner]);
    hide Local, LeastAmong, MergerSpec.LeastIn, Popped, MergerSpec.Candidate;
    PoppedLocally(net, s, s', i, ports, w, m.winner);
    LeastLocally(net, s', i, ports, m.winner);
  }

  /** Every such step of the protocol is a round of the merger. */
  lemma PopIsRound<U>(net: Net, s: Global<U>, s': Global<U>, i: nat, ports: seq<nat>, w: nat, w': nat)
    requires Pop(net, s, s', i) && Ports(net, i, ports)
    requires w < |ports| && s.winner[i] == ports[w] && w' < |ports| && s'.winner[i] == ports[w']
    ensures MergerSpec.Round(Local(net, s, i, ports, w), Local(net, s', i, ports, w'))
  {
    hide Local, LeastAmong, MergerSpec.LeastIn, Popped, MergerSpec.Candidate;
    PoppedLocally(net, s, s', i, ports, w, w');
    LeastLocally(net, s', i, ports, w');
  }

  /** The protocol retries when the merger does. */
  lemma RetryIsRetry<U>(net: Net, s: Global<U>, i: nat, ports: seq<nat>, w: nat)
    requires Sized(net, s) && Ports(net, i, ports) && i < net.actors && s.phase[i] == Deciding
    requires w < |ports| && s.winner[i] == ports[w]
    ensures MergerSpec.Retry(Local(net, s, i, ports, w)) <==> Retry(net, s, s.(phase := s.phase[i := Ready]), i)
  {
  }

  /** Actor `i`'s merger, between the channels `ports`, holds `m`. */
  ghost predicate Holds<U>(net: Net, s: Global<U>, i: nat, ports: seq<nat>, m: MergerSpec.MState<U>) {
    && Sized(net, s) && Ports(net, i, ports) && i < net.actors
    && m.winner < |ports| && s.winner[i] == ports[m.winner]
    && Local(net, s, i, ports, m.winner) == m
  }

  /** What is left of a queue once some of it has been taken from the front. */
  ghost predicate EndsWith<U>(whole: seq<Event<U>>, rest: seq<Event<U>>) {
    |rest| <= |whole| && whole[|whole| - |rest|..] == rest
  }

  /** What rounds of actor `i` leave alone: all clocks, and the queues of other actors; its own are only taken from. */
  ghost predicate Elsewhere<U>(net: Net, s: Global<U>, s': Global<U>, i: nat) {
    && Sized(net, s) && Sized(net, s') && s'.clock == s.clock
    && (forall c :: 0 <= c < |net.channels| ==> EndsWith(s.queue[c], s'.queue[c]))
    && (forall c :: 0 <= c < |net.channels| && net.channels[c].dst != i ==> s'.queue[c] == s.queue[c])
  }

  lemma EndsWithTrans<U>(a: seq<Event<U>>, b: seq<Event<U>>, c: seq<Event<U>>)
    requires EndsWith(a, b) && EndsWith(b, c)
    ensures EndsWith(a, c)
  {
  }

  lemma ElsewhereTrans<U>(net: Net, s: Global<U>, s1: Global<U>, s2: Global<U>, i: nat)
    requires Elsewhere(net, s, s1, i) && Elsewhere(net, s1, s2, i)
    ensures Elsewhere(net, s, s2, i)
  {
    hide EndsWith;
    forall c | 0 <= c < |net.channels|
      ensures EndsWith(s.queue[c], s2.queue[c])
    {
      EndsWithTrans(s.queue[c], s1.queue[c], s2.queue[c]);
    }
  }

  /** Actor `i` alone takes the steps from each state to the next. */
  ghost predicate Path<U>(net: Net, ss: seq<Global<U>>, i: nat) {
    ss != [] && forall k :: 0 <= k < |ss| - 1 ==> Step(net, ss[k], ss[k + 1], i)
  }

  lemma PathOn<U>(net: Net, ss: seq<Global<U>>, s: Global<U>, i: nat)
    requires Path(net, ss, i) && Step(net, ss[|ss| - 1], s, i)
    ensures Path(net, ss + [s], i)
  {
    hide Step;
  }

  lemma RoundStep<U>(net: Net, s: Global<U>, i: nat, ports: seq<nat>, m: MergerSpec.MState<U>, m': MergerSpec.MState<U>)
      returns (s': Global<U>)
    requires Holds(net, s, i, ports, m) && s.phase[i] == Ready && MergerSpec.Round(m, m') && MergerSpec.WellFormed(m')
    ensures Step(net, s, s', i) && Holds(net, s', i, ports, m') && s'.phase == s.phase[i := Deciding]
    ensures Elsewhere(net, s, s', i)
  {
    s' := RoundIsPop(net, s, i, ports, m.winner, m');
    assert Sized(net, s');
    hide Local, LeastAmong, MergerSpec.LeastIn;
  }

  lemma RetryStep<U>(net: Net, s: Global<U>, i: nat, ports: seq<nat>, m: MergerSpec.MState<U>) returns (s': Global<U>)
    requires Holds(net, s, i, ports, m) && s.phase[i] == Deciding && MergerSpec.Retry(m)
    ensures Step(net, s, s', i) && Holds(net, s', i, ports, m) && s'.phase == s.phase[i := Ready]
    ensures Elsewhere(net, s, s', i)
  {
    s' := s.(phase := s.phase[i := Ready]);
    RetryIsRetry(net, s, i, ports, m.winner);
    assert Local(net, s', i, ports, m.winner).queues == m.queues && Local(net, s', i, ports, m.winner).curr == m.curr;
  }

  /** A call of the merger, up to its `k`-th state, is a path of protocol steps. */
  lemma {:induction false} CallIsPath<U>(net: Net, s: Global<U>, i: nat, ports: seq<nat>,
                                         call: seq<MergerSpec.MState<U>>, k: nat)
      returns (ss: seq<Global<U>>)
    requires MergerSpec.Call(call) && Holds(net, s, i, ports, call[0]) && s.phase[i] == Ready && 1 <= k < |call|
    ensures ss != [] && Path(net, ss, i) && ss[0] == s
    ensures var s' := ss[|ss| - 1];
            Holds(net, s', i, ports, call[k]) && s'.phase == s.phase[i := Deciding] && Elsewhere(net, s, s', i)
    decreases k
  {
    hide *;
    var at := s;
    ss := [s];
    CallRounds(call, k);
    HoldsIndex(net, s, i, ports, call[0]);
    if k == 1 {
      PathBegins(net, s, i, ports, call[0]);
    } else {
      var before := CallIsPath(net, s, i, ports, call, k - 1);
      HoldsIndex(net, before[|before| - 1], i, ports, call[k - 1]);
      at := RetryStep(net, before[|before| - 1], i, ports, call[k - 1]);
      PathOn(net, before, at, i);
      ElsewhereTrans(net, s, before[|before| - 1], at, i);
      ss := before + [at];
    }
    HoldsIndex(net, at, i, ports, call[k - 1]);
    var next := RoundStep(net, at, i, ports, call[k - 1], call[k]);
    PathOn(net, ss, next, i);
    ElsewhereTrans(net, s, at, next, i);
    ss := ss + [next];
  }

  lemma CallRounds<U>(call: seq<MergerSpec.MState<U>>, k: nat)
    requires MergerSpec.Call(call) && 1 <= k < |call|
    ensures MergerSpec.Round(call[k - 1], call[k]) && MergerSpec.WellFormed(call[k])
    ensures k > 1 ==>
        call[k - 1].winner < |call[k - 1].queues| && call[k - 1].winner < |call[k - 1].curr|
        && MergerSpec.Retry(call[k - 1])
  {
    hide MergerSpec.Round, MergerSpec.Retry;
    assert MergerSpec.WellFormed(call[k - 1]);
  }

  lemma PathBegins<U>(net: Net, s: Global<U>, i: nat, ports: seq<nat>, m: MergerSpec.MState<U>)
    requires Holds(net, s, i, ports, m)
    ensures Path(net, [s], i) && Elsewhere(net, s, s, i)
  {
  }

  lemma HoldsIndex<U>(net: Net, s: Global<U>, i: nat, ports: seq<nat>, m: MergerSpec.MState<U>)
    requires Holds(net, s, i, ports, m)
    ensures Sized(net, s) && i < |s.phase|
  {
  }

  /** One path, then another. */
  lemma PathThen<U>(net: Net, ss: seq<Global<U>>, more: seq<Global<U>>, i: nat)
    requires Path(net, ss, i) && Path(net, more, i) && more[0] == ss[|ss| - 1]
    ensures Path(net, ss + more[1..], i) && (ss + more[1..])[|ss + more[1..]| - 1] == more[|more| - 1]
  {
    hide Step;
    var all := ss + more[1..];
    forall k | 0 <= k < |all| - 1
      ensures Step(net, all[k], all[k + 1], i)
    {
      if k >= |ss| - 1 {
        assert all[k] == more[k - (|ss| - 1)] && all[k + 1] == more[k - (|ss| - 1) + 1];
      }
    }
  }

  /** What an actor does after a run belongs to a longer run. */
  lemma PathExtendsRun<U>(net: Net, run: seq<Global<U>>, ss: seq<Global<U>>, i: nat)
    requires Behavior(net, run) && Path(net, ss, i) && ss[0] == run[|run| - 1]
    ensures Behavior(net, run + ss[1..])
  {
    hide Step, Start;
    var all := run + ss[1..];
    forall k | 0 <= k < |all| - 1
      ensures Moves(net, all[k], all[k + 1])
    {
      if k >= |run| - 1 {
        assert all[k] == ss[k - (|run| - 1)] && all[k + 1] == ss[k - (|run| - 1) + 1];
        assert Step(net, all[k], all[k + 1], i);
      }
    }
  }

  // What the others do meanwhile

  /** Nothing happens to actor `i` but that events arrive in its merger's queues and are taken from its links. */
  ghost predicate Spared<U>(net: Net, s: Global<U>, s': Global<U>, i: nat) {
    && Sized(net, s) && Sized(net, s') && i < net.actors
    && s'.winner[i] == s.winner[i] && s'.phase[i] == s.phase[i]
    && (forall c :: 0 <= c < |net.channels| && net.channels[c].dst == i ==>
          s'.curr[c] == s.curr[c] && s.queue[c] <= s'.queue[c])
    && (forall c :: 0 <= c < |net.channels| && net.channels[c].origin == Link(i) ==>
          s'.clock[c] == s.clock[c] && EndsWith(s.queue[c], s'.queue[c]))
    && (forall c :: 0 <= c < |net.channels| && net.channels[c].origin == Self(i) ==> s'.queue[c] == s.queue[c])
  }

  lemma PopSpares<U>(net: Net, s: Global<U>, s': Global<U>, i: nat, j: nat)
    requires Pop(net, s, s', j) && i < net.actors && i != j
    requires forall c :: 0 <= c < |net.channels| ==> ChannelOk(net, net.channels[c])
    ensures Spared(net, s, s', i)
  {
    hide LeastAmong;
  }

  lemma PushSpares<U>(net: Net, s: Global<U>, s': Global<U>, i: nat, j: nat, c: nat)
    requires Reacts(net, s, s', j) && i < net.actors && i != j && c < |net.channels|
    requires StallPush(net, s, s', j, c) || ClosePush(net, s, s', j, c) || ModelPush(net, s, s', j, c)
    ensures s.queue[c] <= s'.queue[c]
    ensures net.channels[c].origin == Link(i) || net.channels[c].origin == Self(i) ==>
        s'.queue[c] == s.queue[c] && s'.clock[c] == s.clock[c]
  {
    hide Burst;
  }

  /** Steps of others spare an actor: between two of its turns its place is kept. */
  lemma OthersSpare<U>(net: Net, s: Global<U>, s': Global<U>, i: nat, j: nat)
    requires Step(net, s, s', j) && i < net.actors && i != j
    requires forall c :: 0 <= c < |net.channels| ==> ChannelOk(net, net.channels[c])
    ensures Spared(net, s, s', i)
  {
    if Pop(net, s, s', j) {
      PopSpares(net, s, s', i, j);
    } else if !Retry(net, s, s', j) {
      assert Reacts(net, s, s', j);
      forall c | 0 <= c < |net.channels|
        ensures s.queue[c] <= s'.queue[c]
        ensures net.channels[c].origin == Link(i) || net.channels[c].origin == Self(i) ==>
            s'.queue[c] == s.queue[c] && s'.clock[c] == s.clock[c]
      {
        assert StallPush(net, s, s', j, c) || ClosePush(net, s, s', j, c) || ModelPush(net, s, s', j, c);
        PushSpares(net, s, s', i, j, c);
      }
    }
  }

  lemma SparedHolds<U>(net: Net, s: Global<U>, s': Global<U>, i: nat, ports: seq<nat>, m: MergerSpec.MState<U>)
    requires Spared(net, s, s', i) && Holds(net, s, i, ports, m)
    ensures Holds(net, s', i, ports, Local(net, s', i, ports, m.winner))
  {
  }

  // Along a path

  lemma SparedTrans<U>(net: Net, s: Global<U>, s1: Global<U>, s2: Global<U>, i: nat)
    requires Spared(net, s, s1, i) && Spared(net, s1, s2, i)
    ensures Spared(net, s, s2, i)
  {
    hide EndsWith;
    forall c | 0 <= c < |net.channels| && net.channels[c].origin == Link(i)
      ensures EndsWith(s.queue[c], s2.queue[c])
    {
      EndsWithTrans(s.queue[c], s1.queue[c], s2.queue[c]);
    }
  }

  lemma SparedSame<U>(net: Net, s: Global<U>, i: nat)
    requires Sized(net, s) && i < net.actors
    ensures Spared(net, s, s, i)
  {
  }

  /**
   A channel's queue and current event after some rounds of the receiver: taken from the queue, or a stall instead.
   */
  ghost predicate Taken<U>(q: seq<Event<U>>, e: Event<U>, q': seq<Event<U>>, e': Event<U>) {
    && EndsWith(q, q')
    && (Visible(e') ==> e'.eventType == e.eventType || exists k :: 0 <= k < |q| && q[k].eventType == e'.eventType)
  }

  lemma TakenTrans<U>(q: seq<Event<U>>, e: Event<U>, q1: seq<Event<U>>, e1: Event<U>, q2: seq<Event<U>>, e2: Event<U>)
    requires Taken(q, e, q1, e1) && Taken(q1, e1, q2, e2)
    ensures Taken(q, e, q2, e2)
  {
    EndsWithTrans(q, q1, q2);
    if Visible(e2) && e2.eventType != e1.eventType {
      var k :| 0 <= k < |q1| && q1[k].eventType == e2.eventType;
      assert q[|q| - |q1|..][k] == q[|q| - |q1| + k];
    }
  }

  /** A channel that actor `i` does not feed, after a step of `i`. */
  lemma StepTakes<U>(net: Net, s: Global<U>, s': Global<U>, i: nat, c: nat)
    requires Step(net, s, s', i) && c < |net.channels|
    requires net.channels[c].origin != Link(i) && net.channels[c].origin != Self(i)
    ensures Sized(net, s) && Sized(net, s') && Taken(s.queue[c], s.curr[c], s'.queue[c], s'.curr[c])
  {
    if Stall(net, s, s', i) {
      assert StallPush(net, s, s', i, c);
    } else if CloseDown(net, s, s', i) {
      assert ClosePush(net, s, s', i, c);
    } else if Model(net, s, s', i) {
      assert ModelPush(net, s, s', i, c);
    }
  }

  lemma LastStep<U>(net: Net, ss: seq<Global<U>>, i: nat)
    requires Path(net, ss, i) && |ss| > 1
    ensures Path(net, ss[..|ss| - 1], i) && Step(net, ss[|ss| - 2], ss[|ss| - 1], i)
  {
    hide Step;
  }

  lemma {:induction false} PathInv<U>(net: Net, ss: seq<Global<U>>, i: nat)
    requires ss != [] && Path(net, ss, i) && Protocol.Inv(net, ss[0])
    ensures Protocol.Inv(net, ss[|ss| - 1])
    decreases |ss|
  {
    hide *;
    if |ss| > 1 {
      LastStep(net, ss, i);
      PathInv(net, ss[..|ss| - 1], i);
      StepInv(net, ss[|ss| - 2], ss[|ss| - 1], i);
    }
  }

  /** A path of one actor spares the others. */
  lemma {:induction false} PathSpares<U>(net: Net, ss: seq<Global<U>>, i: nat, j: nat)
    requires ss != [] && Path(net, ss, i) && Sized(net, ss[0]) && j < net.actors && j != i
    requires forall c :: 0 <= c < |net.channels| ==> ChannelOk(net, net.channels[c])
    ensures Spared(net, ss[0], ss[|ss| - 1], j)
    decreases |ss|
  {
    hide *;
    if |ss| > 1 {
      LastStep(net, ss, i);
      PathSpares(net, ss[..|ss| - 1], i, j);
      OthersSpare(net, ss[|ss| - 2], ss[|ss| - 1], j, i);
      SparedTrans(net, ss[0], ss[|ss| - 2], ss[|ss| - 1], j);
    } else {
      SparedSame(net, ss[0], j);
    }
  }

  /** From a channel it does not feed, an actor only takes. */
  lemma {:induction false} PathTakes<U>(net: Net, ss: seq<Global<U>>, i: nat, c: nat)
    requires ss != [] && Path(net, ss, i) && Sized(net, ss[0]) && c < |net.channels|
    requires net.channels[c].origin != Link(i) && net.channels[c].origin != Self(i)
    ensures var s, s' := ss[0], ss[|ss| - 1];
            Sized(net, s') && Taken(s.queue[c], s.curr[c], s'.queue[c], s'.curr[c])
    decreases |ss|
  {
    hide Step, Path, Taken;
    if |ss| > 1 {
      var n := |ss| - 1;
      LastStep(net, ss, i);
      PathTakes(net, ss[..n], i, c);
      StepTakes(net, ss[n - 1], ss[n], i, c);
      TakenTrans(ss[0].queue[c], ss[0].curr[c], ss[n - 1].queue[c], ss[n - 1].curr[c], ss[n].queue[c], ss[n].curr[c]);
    } else {
      TakenSame(ss[0].queue[c], ss[0].curr[c]);
    }
  }

  lemma TakenSame<U>(q: seq<Event<U>>, e: Event<U>)
    ensures Taken(q, e, q, e)
  {
  }

  lemma InvChannels<U>(net: Net, s: Global<U>)
    requires Protocol.Inv(net, s)
    ensures Sized(net, s) && forall c :: 0 <= c < |net.channels| ==> ChannelOk(net, net.channels[c])
  {
  }
}
