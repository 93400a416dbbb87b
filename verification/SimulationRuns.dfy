/** Whole simulations, call by call: nobody is ever called unready, packets arrive where they should, and it ends. */
module SimulationRuns {
  import opened Events
  import opened NetworkEvents
  import opened Protocol
  import opened ProtocolRuns
  import opened LocalRounds
  import opened Reactions
  import opened EventLoops
  import opened Deliveries
  import opened Simulation
  import opened SimulationSteps
  import opened SimulationStart
  import RouterSteps
  import ServerSteps
  import Router
  import ServerLoop
  import MergerSpec

  ghost predicate CallOf(p: Plan, s: Sim, s': Sim, i: nat) {
    exists ss :: Called(p, s, s', i, ss)
  }

  /** From the start, actor `calls[k]` is called `k`-th, which takes `run[k]` to `run[k + 1]`. */
  ghost predicate Run(p: Plan, run: seq<Sim>, calls: seq<nat>) {
    && |run| == |calls| + 1 && Started(p, run[0])
    && forall k :: 0 <= k < |calls| ==> CallOf(p, run[k], run[k + 1], calls[k])
  }

  lemma {:induction false} RunInv(p: Plan, run: seq<Sim>, calls: seq<nat>, k: nat)
    requires Run(p, run, calls) && k < |run|
    ensures Simulation.Inv(p, run[k])
    decreases k
  {
    hide Started, Simulation.Inv, Called;
    if k == 0 {
      StartedInv(p, run[0]);
    } else {
      RunInv(p, run, calls, k - 1);
      assert CallOf(p, run[k - 1], run[k], calls[k - 1]);
      var ss :| Called(p, run[k - 1], run[k], calls[k - 1], ss);
      CallInv(p, run[k - 1], run[k], calls[k - 1], ss);
    }
  }

  /** Between calls every actor is done, or meets all that its `Advance` asks for. */
  lemma AlwaysReady(p: Plan, run: seq<Sim>, calls: seq<nat>, k: nat, i: nat)
    requires Run(p, run, calls) && k < |run| && i < |p.parts|
    ensures i < |run[k].actors| && i < |run[k].g.phase|
    ensures run[k].g.phase[i] == Phase.Done
            || (run[k].g.phase[i] == Phase.Ready && ReadyAt(p, run[k].g, i, run[k].actors[i]))
  {
    hide *;
    RunInv(p, run, calls, k);
    InvReady(p, run[k], i);
  }

  lemma InvReady(p: Plan, s: Sim, i: nat)
    requires Simulation.Inv(p, s) && i < |p.parts|
    ensures i < |s.actors| && i < |s.g.phase|
    ensures (s.g.phase[i] == Phase.Done || (s.g.phase[i] == Phase.Ready && ReadyAt(p, s.g, i, s.actors[i])))
  {
    CoreActor(p, s, i);
    hide Core, ReadyAt, Placed, Sent;
  }

  /** What waits for a running server is addressed to it, and acknowledges only what it has sent. */
  lemma PacketsArrive(p: Plan, run: seq<Sim>, calls: seq<nat>, k: nat, i: nat)
    requires Run(p, run, calls) && k < |run| && i < p.hosts && i < |p.parts|
    ensures i < |run[k].actors| && i < |run[k].g.phase| && p.hosts <= |run[k].actors| && p.hosts <= |p.parts|
    ensures run[k].g.phase[i] == Phase.Ready ==>
              MergerSpec.AllWaiting(MergerOf(p, run[k].g, i, run[k].actors[i].w), ForServers(FieldOf(p, run[k]), i + 1))
  {
    RunInv(p, run, calls, k);
    AlwaysReady(p, run, calls, k, i);
    hide Run, ReadyAt, Core, ForServer, FieldOf, MergerSpec.AllWaiting;
    CoreActor(p, run[k], i);
    if run[k].g.phase[i] == Phase.Ready {
      ServerInbox(p, run[k], i);
    }
  }

  // A run of the simulation is a run of the protocol

  /** `ss` passes through the states of `run` at the moments `at`; a call that goes on ends with a stall there. */
  ghost predicate Embeds(p: Plan, run: seq<Sim>, calls: seq<nat>, ss: seq<Global<NetworkEvent>>, at: seq<nat>)
    requires |run| == |calls| + 1
  {
    && |at| == |run| && (forall k :: 0 <= k < |run| ==> at[k] < |ss| && ss[at[k]] == run[k].g)
    && (forall k, l :: 0 <= k <= l < |run| ==> at[k] <= at[l]) && at[0] == 0 && at[|run| - 1] == |ss| - 1
    && forall k :: 0 <= k < |calls| ==> StallsIn(p, run, calls, ss, at, k)
  }

  ghost predicate StallsIn(p: Plan, run: seq<Sim>, calls: seq<nat>, ss: seq<Global<NetworkEvent>>, at: seq<nat>, k: nat)
    requires |at| == |run| == |calls| + 1 && k < |calls|
  {
    calls[k] < |run[k + 1].g.phase| && run[k + 1].g.phase[calls[k]] == Phase.Ready ==>
      exists n: nat :: at[k] <= n < at[k + 1] && StallsAt(p.net, ss, n, calls[k])
  }

  /** A call is a path, which ends with a stall unless the actor is done. */
  lemma CallPath(p: Plan, s: Sim, s': Sim, i: nat, ss: seq<Global<NetworkEvent>>)
    requires Simulation.Inv(p, s) && Called(p, s, s', i, ss)
    ensures ss != [] && Path(p.net, ss, i) && ss[0] == s.g && ss[|ss| - 1] == s'.g
    ensures i < |s'.g.phase| && s'.g.phase[i] == Phase.Ready ==>
              |ss| >= 2 && Sized(p.net, ss[|ss| - 2]) && i < p.net.actors && Stall(p.net, ss[|ss| - 2], ss[|ss| - 1], i)
  {
    hide Simulation.Inv, Path, Stall, Turns, MergerOf, ReadyAt, ServerLoop.Ready, Router.Ready, RouterSteps.Plays,
         ServerSteps.Plays;
    CallInv(p, s, s', i, ss);
    StallActor(p.net, ss, i);
  }

  lemma StallActor(net: Net, ss: seq<Global<NetworkEvent>>, i: nat)
    ensures |ss| >= 2 && Stall(net, ss[|ss| - 2], ss[|ss| - 1], i) ==> Sized(net, ss[|ss| - 2]) && i < net.actors
  {
  }

  lemma LastCall(p: Plan, run: seq<Sim>, calls: seq<nat>) returns (path: seq<Global<NetworkEvent>>)
    requires Run(p, run, calls) && calls != []
    ensures var n := |calls| - 1; Run(p, run[..n + 1], calls[..n]) && Called(p, run[n], run[n + 1], calls[n], path)
  {
    hide Started, Called;
    var n := |calls| - 1;
    assert CallOf(p, run[n], run[n + 1], calls[n]);
    path :| Called(p, run[n], run[n + 1], calls[n], path);
    forall k | 0 <= k < n
      ensures CallOf(p, run[..n + 1][k], run[..n + 1][k + 1], calls[..n][k])
    {
      assert CallOf(p, run[k], run[k + 1], calls[k]);
    }
  }

  lemma EmbedsMore(p: Plan, run: seq<Sim>, calls: seq<nat>, ss: seq<Global<NetworkEvent>>, at: seq<nat>,
                   path: seq<Global<NetworkEvent>>)
    requires |run| == |calls| + 1 && calls != [] && ss != [] && path != []
    requires var n := |calls| - 1;
             && Embeds(p, run[..n + 1], calls[..n], ss, at) && path[0] == run[n].g && path[|path| - 1] == run[n + 1].g
             && (calls[n] < |run[n + 1].g.phase| && run[n + 1].g.phase[calls[n]] == Phase.Ready ==>
                   |path| >= 2 && Sized(p.net, path[|path| - 2]) && calls[n] < p.net.actors
                   && Stall(p.net, path[|path| - 2], path[|path| - 1], calls[n]))
    ensures Embeds(p, run, calls, ss + path[1..], at + [|ss + path[1..]| - 1])
  {
    var n := |calls| - 1;
    var ss', at' := ss + path[1..], at + [|ss + path[1..]| - 1];
    assert ss'[|ss'| - 1] == path[|path| - 1];
    hide Stall, Sized;
    forall k | 0 <= k < |run|
      ensures at'[k] < |ss'| && ss'[at'[k]] == run[k].g
    {
      assert k < |run| - 1 ==> run[..n + 1][k] == run[k];
    }
    forall k | 0 <= k < |calls|
      ensures StallsIn(p, run, calls, ss', at', k)
    {
      if k < n {
        assert StallsIn(p, run[..n + 1], calls[..n], ss, at, k);
        assert at'[k] == at[k] && at'[k + 1] == at[k + 1];
        StallsStill(p, run, calls, ss, at, ss', at', k);
      } else if calls[n] < |run[n + 1].g.phase| && run[n + 1].g.phase[calls[n]] == Phase.Ready {
        assert ss'[|ss'| - 2] == path[|path| - 2];
        assert StallsAt(p.net, ss', |ss'| - 2, calls[n]);
      }
    }
  }

  lemma StallsStill(p: Plan, run: seq<Sim>, calls: seq<nat>, ss: seq<Global<NetworkEvent>>, at: seq<nat>,
                    ss': seq<Global<NetworkEvent>>, at': seq<nat>, k: nat)
    requires |run| == |calls| + 1 && |at'| == |run| && |at| == |run| - 1 && k < |calls| - 1
    requires StallsIn(p, run[..|run| - 1], calls[..|calls| - 1], ss, at, k) && ss <= ss' && at'[k] == at[k]
    requires at'[k + 1] == at[k + 1]
    ensures StallsIn(p, run, calls, ss', at', k)
  {
    hide Stall, Sized;
    if calls[k] < |run[k + 1].g.phase| && run[k + 1].g.phase[calls[k]] == Phase.Ready {
      assert run[..|run| - 1][k + 1] == run[k + 1];
      var n: nat :| at[k] <= n < at[k + 1] && StallsAt(p.net, ss, n, calls[k]);
      assert StallsAt(p.net, ss', n, calls[k]);
    }
  }

  /** A run of the simulation is a run of the protocol. */
  lemma {:induction false} RunIsBehavior(p: Plan, run: seq<Sim>, calls: seq<nat>)
      returns (ss: seq<Global<NetworkEvent>>, at: seq<nat>)
    requires Run(p, run, calls)
    ensures Behavior(p.net, ss) && Embeds(p, run, calls, ss, at)
    decreases |calls|
  {
    hide *;
    RunStarts(p, run, calls);
    if calls == [] {
      ss, at := [run[0].g], [0];
      FirstEmbeds(p, run, calls);
    } else {
      var n := |calls| - 1;
      var path := LastCall(p, run, calls);
      var before, moments := RunIsBehavior(p, run[..n + 1], calls[..n]);
      RunInv(p, run[..n + 1], calls[..n], n);
      CallPath(p, run[n], run[n + 1], calls[n], path);
      EmbedsEnd(p, run[..n + 1], calls[..n], before, moments);
      PathExtendsRun(p.net, before, path, calls[n]);
      EmbedsMore(p, run, calls, before, moments, path);
      ss := before + path[1..];
      at := moments + [|ss| - 1];
    }
  }

  lemma RunStarts(p: Plan, run: seq<Sim>, calls: seq<nat>)
    requires Run(p, run, calls)
    ensures |run| == |calls| + 1 && Started(p, run[0])
  {
    hide Started;
  }

  lemma FirstEmbeds(p: Plan, run: seq<Sim>, calls: seq<nat>)
    requires Run(p, run, calls) && calls == []
    ensures Behavior(p.net, [run[0].g]) && Embeds(p, run, calls, [run[0].g], [0])
  {
    StartPlan(p, run[0]);
    hide Started, Planned, NetOk, Start;
  }

  lemma EmbedsEnd(p: Plan, run: seq<Sim>, calls: seq<nat>, ss: seq<Global<NetworkEvent>>, at: seq<nat>)
    requires |run| == |calls| + 1 && Embeds(p, run, calls, ss, at)
    ensures ss != [] && ss[|ss| - 1] == run[|run| - 1].g
  {
    hide StallsIn;
  }

  // What follows

  /** As long as somebody is not done, a running actor is not blocked. */
  lemma SomebodyGoesOn(p: Plan, run: seq<Sim>, calls: seq<nat>, k: nat, i: nat)
    requires Run(p, run, calls) && k < |run| && Sized(p.net, run[k].g) && Running(p.net, run[k].g, i)
    ensures exists j: nat :: Running(p.net, run[k].g, j) && !Blocked(p.net, run[k].g, j)
  {
    var ss, at := RunIsBehavior(p, run, calls);
    hide Run, Behavior, StallsIn, Blocked, Running, Sized;
    DeadlockFree(p.net, ss, at[k], i);
  }

  /** Between the moments `rounds[r]` and `rounds[r + 1]` every actor that is not done is called at least once. */
  ghost predicate InRounds(p: Plan, run: seq<Sim>, calls: seq<nat>, rounds: seq<nat>) {
    && rounds != [] && rounds[0] < |run|
    && forall r :: 0 <= r < |rounds| - 1 ==> EachCalled(p, run, calls, rounds[r], rounds[r + 1])
  }

  ghost predicate EachCalled(p: Plan, run: seq<Sim>, calls: seq<nat>, a: nat, b: nat) {
    a <= b < |run| &&
    forall i :: 0 <= i < |p.parts| ==>
      || (i < |run[b].g.phase| && run[b].g.phase[i] == Phase.Done)
      || exists k: nat :: a <= k < b && k < |calls| && calls[k] == i
  }

  /** A round of calls is a full round of the protocol. */
  lemma RoundIsFull(p: Plan, run: seq<Sim>, calls: seq<nat>, ss: seq<Global<NetworkEvent>>, at: seq<nat>, a: nat,
                    b: nat)
    requires Run(p, run, calls) && Behavior(p.net, ss) && |run| == |calls| + 1 && Embeds(p, run, calls, ss, at)
    requires EachCalled(p, run, calls, a, b)
    ensures |at| == |run| && b < |run| && FullRound(p.net, ss, at[a], at[b])
  {
    assert a <= b < |run|;
    hide Run, Behavior, Stall, Simulation.Inv, EachCalled, Embeds, Sized;
    RunInv(p, run, calls, b);
    CoreNetOf(p, run[b]);
    EmbedsAt(p, run, calls, ss, at, a, b);
    forall i: nat | i < p.net.actors && Running(p.net, ss[at[b]], i)
      ensures exists n: nat :: at[a] <= n < at[b] && StallsAt(p.net, ss, n, i)
    {
      var k := CalledWhen(p, run, calls, a, b, i);
      var n := CallStalls(p, run, calls, ss, at, k, b);
      EmbedsAt(p, run, calls, ss, at, a, k);
      EmbedsAt(p, run, calls, ss, at, k + 1, b);
    }
  }

  lemma CoreNetOf(p: Plan, s: Sim)
    requires Simulation.Inv(p, s)
    ensures p.net.actors == |p.parts| && Sized(p.net, s.g)
  {
    CoreNet(p, s);
    CorePlan(p, s);
  }

  lemma EmbedsAt(p: Plan, run: seq<Sim>, calls: seq<nat>, ss: seq<Global<NetworkEvent>>, at: seq<nat>, k: nat, l: nat)
    requires |run| == |calls| + 1 && Embeds(p, run, calls, ss, at) && k <= l < |run|
    ensures |at| == |run| && at[k] <= at[l] < |ss| && ss[at[k]] == run[k].g && ss[at[l]] == run[l].g && at[0] == 0
  {
    hide StallsIn;
  }

  lemma CalledWhen(p: Plan, run: seq<Sim>, calls: seq<nat>, a: nat, b: nat, i: nat) returns (k: nat)
    requires EachCalled(p, run, calls, a, b) && i < |p.parts|
    requires Sized(p.net, run[b].g) && Running(p.net, run[b].g, i)
    ensures a <= k < b && k < |calls| && calls[k] == i
  {
    k :| a <= k < b && k < |calls| && calls[k] == i;
  }

  /** The call of an actor that is still running later on ended with a stall. */
  lemma CallStalls(p: Plan, run: seq<Sim>, calls: seq<nat>, ss: seq<Global<NetworkEvent>>, at: seq<nat>, k: nat,
                   b: nat) returns (n: nat)
    requires Run(p, run, calls) && Behavior(p.net, ss) && |run| == |calls| + 1 && Embeds(p, run, calls, ss, at)
    requires k < b < |run| && calls[k] < |p.parts| == p.net.actors && Sized(p.net, run[b].g)
    requires Running(p.net, run[b].g, calls[k])
    ensures |at| == |run| && at[k] <= n < at[k + 1] && StallsAt(p.net, ss, n, calls[k])
  {
    hide Run, Behavior, Stall, Sized, ReadyAt;
    AlwaysReady(p, run, calls, k + 1, calls[k]);
    EmbedsAt(p, run, calls, ss, at, k + 1, b);
    RunAdvances(p.net, ss, at[k + 1], at[b], calls[k]);
    assert StallsIn(p, run, calls, ss, at, k);
    n :| at[k] <= n < at[k + 1] && StallsAt(p.net, ss, n, calls[k]);
  }

  lemma RoundAt(p: Plan, run: seq<Sim>, calls: seq<nat>, rounds: seq<nat>, r: nat)
    requires InRounds(p, run, calls, rounds) && r < |rounds|
    ensures rounds[r] < |run|
  {
    assert r > 0 ==> EachCalled(p, run, calls, rounds[r - 1], rounds[r - 1 + 1]);
  }

  lemma RoundsAreFull(p: Plan, run: seq<Sim>, calls: seq<nat>, ss: seq<Global<NetworkEvent>>, at: seq<nat>,
                      rounds: seq<nat>)
      returns (bounds: seq<nat>)
    requires Run(p, run, calls) && Behavior(p.net, ss) && |run| == |calls| + 1 && Embeds(p, run, calls, ss, at)
    requires InRounds(p, run, calls, rounds)
    ensures |bounds| == |rounds| && FullRounds(p.net, ss, bounds) && |at| == |run|
    ensures var last := |rounds| - 1; rounds[last] < |run| && bounds[last] == at[rounds[last]]
  {
    RoundAt(p, run, calls, rounds, |rounds| - 1);
    hide Run, Behavior, FullRound, StallsIn, EachCalled;
    bounds := seq(|rounds|, r requires 0 <= r < |rounds| => if rounds[r] < |at| then at[rounds[r]] else 0);
    forall r | 0 <= r < |rounds| - 1
      ensures FullRound(p.net, ss, bounds[r], bounds[r + 1])
    {
      RoundAt(p, run, calls, rounds, r);
      RoundAt(p, run, calls, rounds, r + 1);
      RoundIsFull(p, run, calls, ss, at, rounds[r], rounds[r + 1]);
    }
  }

  /**
   Called round by round, all actors are done after as many rounds as there are latencies before the last Close.
   */
  lemma SimulationEnds(p: Plan, run: seq<Sim>, calls: seq<nat>, rounds: seq<nat>, i: nat)
    requires Run(p, run, calls) && InRounds(p, run, calls, rounds) && |rounds| >= 2 && Sized(p.net, run[0].g)
    requires forall c :: 0 <= c < |p.net.channels| && p.net.channels[c].origin.World? ==>
               Latest(run[0].g, c).time <= (|rounds| - 1) * p.net.latency
    requires i < |p.parts|
    ensures var last := rounds[|rounds| - 1];
            last < |run| && i < |run[last].g.phase| && run[last].g.phase[i] == Phase.Done
  {
    hide *;
    RunStarts(p, run, calls);
    var ss, at := RunIsBehavior(p, run, calls);
    var bounds := RoundsAreFull(p, run, calls, ss, at, rounds);
    var last := rounds[|rounds| - 1];
    RunInv(p, run, calls, last);
    CoreNetOf(p, run[last]);
    EmbedsAt(p, run, calls, ss, at, 0, last);
    var b := bounds[|bounds| - 1];
    assert bounds[..|bounds| - 1] + [b] == bounds;
    EveryoneDone(p.net, ss, bounds[..|bounds| - 1], b, i);
    AlwaysReady(p, run, calls, last, i);
  }
}
