/** The merger as a linear scan: what one round of `next` may do, whatever the tree looks like. */
module MergerSpec {
  import opened Events
  import opened LoserTree
  import opened Sets

  /** `curr[q]` stands for queue `q`; the last round was won by `winner`. */
  datatype MState<U> = MState(queues: seq<seq<Event<U>>>, curr: seq<Event<U>>, winner: nat)

  ghost predicate WellFormed<U>(s: MState<U>) {
    && |s.queues| == |s.curr|
    && s.winner < |s.curr|
    && forall q :: 0 <= q < |s.curr| ==> s.curr[q].src == q
  }

  /** The time the merger has got to. */
  ghost function Reached<U>(s: MState<U>): nat {
    if s.winner < |s.curr| then s.curr[s.winner].time else 0
  }

  /** What the winning queue enters next: its head, or a stall at the time it has reached. */
  function Candidate<U>(s: MState<U>): (e: Event<U>)
    requires s.winner < |s.queues| && s.winner < |s.curr|
  {
    var q := s.queues[s.winner];
    if q == [] then Event(s.curr[s.winner].time, s.winner, Stalled) else q[0].(src := s.winner)
  }

  ghost predicate LeastIn<U>(w: nat, curr: seq<Event<U>>) {
    w < |curr| && forall q :: 0 <= q < |curr| ==> Leq(curr[w], curr[q])
  }

  /** One round: the winner's queue is popped and the least event over all queues wins. */
  ghost predicate Round<U>(s: MState<U>, t: MState<U>) {
    && WellFormed(s)
    && t.queues == s.queues[s.winner := if s.queues[s.winner] == [] then [] else s.queues[s.winner][1..]]
    && t.curr == s.curr[s.winner := Candidate(s)]
    && LeastIn(t.winner, t.curr)
  }

  /** The round yields nothing to the actor: a null, or a stall on a queue that is no longer empty. */
  predicate Retry<U>(s: MState<U>)
    requires s.winner < |s.queues| && s.winner < |s.curr|
  {
    || s.curr[s.winner].eventType.Null?
    || (s.curr[s.winner].eventType.Stalled? && s.queues[s.winner] != [])
  }

  /** The rounds of one call: all but the last are retried. */
  ghost predicate Call<U>(trace: seq<MState<U>>) {
    && |trace| >= 2
    && (forall k :: 0 <= k < |trace| - 1 ==> Round(trace[k], trace[k + 1]))
    && (forall k :: 0 <= k < |trace| ==> WellFormed(trace[k]))
    && (forall k :: 1 <= k < |trace| - 1 ==> Retry(trace[k]))
    && !Retry(trace[|trace| - 1])
  }

  /** The rounds of a call that has not returned: all of them are retried. */
  ghost predicate Unfinished<U>(trace: seq<MState<U>>) {
    && trace != []
    && (forall k :: 0 <= k < |trace| - 1 ==> Round(trace[k], trace[k + 1]))
    && (forall k :: 0 <= k < |trace| ==> WellFormed(trace[k]))
    && (forall k :: 1 <= k < |trace| ==> Retry(trace[k]))
  }

  lemma CallGoesOn<U>(trace: seq<MState<U>>, s: MState<U>)
    requires Unfinished(trace) && Round(trace[|trace| - 1], s) && WellFormed(s)
    ensures if Retry(s) then Unfinished(trace + [s]) else Call(trace + [s])
    ensures LeastIn(s.winner, s.curr)
  {
    assert LeastIn(s.winner, s.curr);
    hide Round, Retry, WellFormed, LeastIn;
  }

  /** The trees a call goes through, in which the winners of `trace` win. */
  ghost predicate Along<U>(n: nat, trees: seq<Tree<U>>, trace: seq<MState<U>>) {
    && TreeRounds(n, trees)
    && |trees| == |trace|
    && forall k :: 0 <= k < |trees| ==> trees[k].curr == trace[k].curr && trees[k].win[1] == trace[k].winner
  }

  lemma CallBegins<U>(n: nat, t: Tree<U>, s: MState<U>)
    requires Finished(n, t) && t.curr == s.curr && t.win[1] == s.winner && |s.queues| == n
    ensures Along(n, [t], [s]) && Unfinished([s])
  {
  }

  lemma AlongGoesOn<U>(n: nat, trees: seq<Tree<U>>, trace: seq<MState<U>>, t: Tree<U>, s: MState<U>)
    requires Along(n, trees, trace) && TreeRound(n, trees[|trees| - 1], t) && t.curr == s.curr && t.win[1] == s.winner
    ensures Along(n, trees + [t], trace + [s])
  {
    hide ReplayedTo, Tournament;
    var longer := trees + [t];
    assert Finished(n, t);
    forall k | 0 <= k < |longer|
      ensures Finished(n, longer[k])
    {
    }
    forall k | 0 <= k < |longer| - 1
      ensures TreeRound(n, longer[k], longer[k + 1])
    {
    }
  }

  // Termination of one call

  function TotalQueued<U>(queues: seq<seq<Event<U>>>): nat {
    if queues == [] then 0 else |queues[0]| + TotalQueued(queues[1..])
  }

  ghost function NullsHeld<U>(s: MState<U>): set<nat> {
    set q: nat | q < |s.curr| && q != s.winner && s.curr[q].eventType.Null?
  }

  function WinnerWaits<U>(s: MState<U>): nat {
    if s.winner < |s.queues| && s.queues[s.winner] == [] then 1 else 0
  }

  lemma {:induction false} TotalQueuedUpdate<U>(queues: seq<seq<Event<U>>>, q: nat, es: seq<Event<U>>)
    requires q < |queues|
    ensures TotalQueued(queues[q := es]) == TotalQueued(queues) - |queues[q]| + |es|
  {
    if q > 0 {
      TotalQueuedUpdate(queues[1..], q - 1, es);
      assert queues[q := es][1..] == queues[1..][q - 1 := es];
    } else {
      assert queues[q := es][1..] == queues[1..];
    }
  }

  /** A retried round has popped an event, used up a held null, or moved to a queue with something in it. */
  lemma RetryProgress<U>(s: MState<U>, t: MState<U>)
    requires Round(s, t) && Retry(t)
    ensures TotalQueued(t.queues) <= TotalQueued(s.queues)
    ensures TotalQueued(t.queues) == TotalQueued(s.queues) ==> NullsHeld(t) <= NullsHeld(s)
    ensures TotalQueued(t.queues) < TotalQueued(s.queues) || NullsHeld(t) < NullsHeld(s)
         || (NullsHeld(t) == NullsHeld(s) && WinnerWaits(t) < WinnerWaits(s))
  {
    var w := s.winner;
    TotalQueuedUpdate(s.queues, w, t.queues[w]);
    if s.queues[w] == [] {
      assert t.queues == s.queues;
      assert t.curr[w].eventType.Stalled?;
      if t.curr[t.winner].eventType.Null? {
        assert t.winner in NullsHeld(s) && t.winner !in NullsHeld(t);
      }
    }
  }

  // What a call leaves for later calls

  /** Queues whose visible event waits in the tree. */
  ghost function VisibleHeld<U>(s: MState<U>): set<nat> {
    set q: nat | q < |s.curr| && q != s.winner && Visible(s.curr[q])
  }

  /** Everything not returned yet. */
  ghost function Pending<U>(s: MState<U>): nat {
    TotalQueued(s.queues) + |VisibleHeld(s)|
  }

  lemma SetSizes(a: set<nat>, b: set<nat>, add: nat, drop: nat, added: bool, dropped: bool)
    requires b <= (if added then a + {add} else a) - (if dropped then {drop} else {})
    requires dropped ==> drop in a || (added && drop == add)
    ensures |b| + (if dropped then 1 else 0) <= |a| + (if added then 1 else 0)
  {
    var c := if added then a + {add} else a;
    var d := c - (if dropped then {drop} else {});
    assert |c| <= |a| + (if added then 1 else 0);
    SubsetSize(b, d);
  }

  lemma RoundPending<U>(s: MState<U>, t: MState<U>)
    requires Round(s, t)
    ensures Pending(t) + (if Visible(t.curr[t.winner]) then 1 else 0) <= Pending(s)
  {
    var w := s.winner;
    TotalQueuedUpdate(s.queues, w, t.queues[w]);
    if s.queues[w] == [] {
      assert t.queues == s.queues;
    }
    var added := s.queues[w] != [];
    SetSizes(VisibleHeld(s), VisibleHeld(t), w, t.winner, added, Visible(t.curr[t.winner]));
  }

  /** A call never adds work, and a visible event it returns is work done. */
  lemma {:induction false} CallPending<U>(trace: seq<MState<U>>, k: nat)
    requires Call(trace) && k < |trace|
    ensures Pending(trace[k]) <= Pending(trace[0])
    ensures k > 0 && Visible(trace[k].curr[trace[k].winner]) ==> Pending(trace[k]) < Pending(trace[0])
    decreases k
  {
    if k > 0 {
      CallPending(trace, k - 1);
      RoundPending(trace[k - 1], trace[k]);
    }
  }

  /** Every event waiting in the merger satisfies `ok`. */
  ghost predicate AllWaiting<U>(s: MState<U>, ok: EventType<U> -> bool) {
    && (forall q, k :: 0 <= q < |s.queues| && 0 <= k < |s.queues[q]| ==> ok(s.queues[q][k].eventType))
    && (forall q :: 0 <= q < |s.curr| && Visible(s.curr[q]) ==> ok(s.curr[q].eventType))
  }

  lemma {:induction false} CallKeeps<U>(trace: seq<MState<U>>, k: nat, ok: EventType<U> -> bool)
    requires Call(trace) && k < |trace| && AllWaiting(trace[0], ok)
    ensures AllWaiting(trace[k], ok)
    decreases k
  {
    if k > 0 {
      CallKeeps(trace, k - 1, ok);
      assert Round(trace[k - 1], trace[k]);
    }
  }
}

/** The merger: a loser tree over the input queues, replayed in place. */
module Merger {
  import opened Events
  import opened TreeGeometry
  import opened LoserTree
  import opened MergerSpec

  class Merger<U> {
    var inQueues: seq<seq<Event<U>>>
    var paths: seq<nat>
    var winnerQ: nat
    var safeTime: nat
    const loserE: array<Event<U>>

    ghost var curr: seq<Event<U>>  // the event each queue is represented by
    ghost var win: seq<nat>        // the winner of each subtree

    ghost function State(): MState<U>
      reads this
    {
      MState(inQueues, curr, winnerQ)
    }

    ghost function Standing(): Tree<U>
      reads this, loserE
    {
      Tree(win, loserE[..], curr)
    }

    ghost predicate Valid()
      reads this, loserE
    {
      var n := |inQueues|;
      && n >= 2
      && Tournament(n, win, loserE[..], curr)
      && |paths| == n
      && (forall q :: 0 <= q < n ==> paths[q] == LeafOf(q, n) / 2)
      && winnerQ == win[1]
      && safeTime == curr[winnerQ].time
    }

    /** Every queue starts with a null placeholder at time zero, arranged as a finished tournament. */
    constructor (queues: seq<seq<Event<U>>>)
      requires |queues| >= 2
      ensures Valid() && fresh(loserE)
      ensures inQueues == queues && winnerQ == 0
      ensures |curr| == |queues| && forall q :: 0 <= q < |queues| ==> curr[q] == Placeholder(q)
    {
      var n := |queues|;
      inQueues := queues;
      winnerQ := 0;
      safeTime := 0;
      loserE := new Event<U>[n](i requires 0 <= i => Placeholder(i));
      curr := seq(n, q requires 0 <= q => Placeholder(q));
      win := LeftmostWinners(n);
      paths := [];
      new;
      var walk := LtrWalk(n);
      WalkIsPermutation(n);
      for i := 0 to |walk|
        invariant winnerQ == 0 && safeTime == 0 && inQueues == queues && win == LeftmostWinners(n)
        invariant |curr| == n && forall q :: 0 <= q < n ==> curr[q] == Placeholder(q)
        invariant forall j :: 0 <= j < i ==> walk[j] < n && loserE[walk[j]] == Placeholder(j + 1)
      {
        assert walk[i] in walk;
        loserE[walk[i]] := Placeholder(i + 1);
      }
      FirstTournament(n, loserE[..], curr);
      LeafNumbers(n);
      paths := MergerPaths(n);
    }

    /** Queue `w`, the last winner, enters `e`: the matches on its path are replayed in place. */
    method Replay(w: nat, e: Event<U>) returns (candidate: Event<U>)
      requires Tournament(|curr|, win, loserE[..], curr) && w == win[1] && e.src == w
      requires w < |curr| && w < |paths| && |curr| >= 2 && paths[w] == LeafOf(w, |curr|) / 2
      modifies this`curr, this`win, loserE
      ensures curr == old(curr)[w := e] && Tournament(|curr|, win, loserE[..], curr)
      ensures ReplayedTo(1, LeafOf(w, |curr|), |curr|, old(win), win, curr)
      ensures candidate.src == win[1] < |curr| && candidate == curr[win[1]]
    {
      hide LeafOf, ReplayedTo;
      candidate := e;
      ghost var n := |curr|;
      ReplayBegins(w, candidate, n, win, loserE[..], curr);
      curr := curr[w := candidate];
      ghost var leaf, before := LeafOf(w, n), win;
      ghost var at := leaf;
      ReplayedNothing(leaf, n, win, curr);
      var index := paths[w];
      while index != 0
        invariant index == at / 2 && curr == old(curr)[w := e]
        invariant Replaying(at, candidate, n, win, loserE[..], curr)
        invariant Under(at, leaf) && ReplayedTo(at, leaf, n, before, win, curr)
        decreases index
      {
        MatchPlayed(at, leaf, candidate, n, before, win, loserE[..], curr);
        assert Awaiting(at, n, win, loserE[..], curr);
        ghost var held, incoming := loserE[..], candidate;
        var stored := loserE[index];
        if stored.time < candidate.time || (stored.time == candidate.time && candidate.eventType.Stalled?) {
          loserE[index] := candidate;
          candidate := stored;
        }
        assert loserE[..] == held[at / 2 := loserE[index]];
        ReplayStep(at, incoming, loserE[index], candidate, n, win, held, curr);
        win := win[at / 2 := candidate.src];
        at := at / 2;
        index := index / 2;
      }
    }

    /** One round: pops the winner's queue and replays the matches on its path. */
    method PlayRound() returns (candidate: Event<U>)
      requires Valid()
      modifies this, loserE
      ensures Valid() && WellFormed(old(State())) && |inQueues| == |old(inQueues)|
      ensures Round(old(State()), State()) && WellFormed(State())
      ensures TreeRound(|inQueues|, old(Standing()), Standing())
      ensures candidate == curr[winnerQ]
    {
      hide LeafOf, ReplayedTo, Played;
      var w := winnerQ;
      if inQueues[w] == [] {
        candidate := Event(safeTime, w, Stalled);
      } else {
        candidate := inQueues[w][0];
        inQueues := inQueues[w := inQueues[w][1..]];
      }
      candidate := candidate.(src := w);
      candidate := Replay(w, candidate);
      winnerQ := candidate.src;
      safeTime := candidate.time;
      WinnerIsLeast(|curr|, win, loserE[..], curr);
    }

    /**
     The next event for the actor. The rounds played are those of the linear scan, and the event is
     least among all queues.
     */
    method Next() returns (e: Event<U>, ghost trace: seq<MState<U>>, ghost trees: seq<Tree<U>>)
      requires Valid()
      modifies this, loserE
      ensures Valid()
      ensures Call(trace) && trace[0] == old(State()) && trace[|trace| - 1] == State()
      ensures Along(|inQueues|, trees, trace)
      ensures trees[0] == old(Standing()) && trees[|trees| - 1] == Standing()
      ensures winnerQ < |curr| && e == curr[winnerQ] && LeastIn(winnerQ, curr)
      ensures !e.eventType.Null? && (e.eventType.Stalled? ==> inQueues[winnerQ] == [])
    {
      hide LeafOf, Tournament, TreeRound, Along, Unfinished, Call, Round, TotalQueued, NullsHeld, WinnerWaits;
      var n := |inQueues|;
      trace := [State()];
      trees := [Standing()];
      CallBegins(n, Standing(), State());
      while true
        invariant Valid() && |inQueues| == n && Unfinished(trace) && Along(n, trees, trace) && |trees| == |trace| >= 1
        invariant trace[0] == old(State()) && trace[|trace| - 1] == State()
        invariant trees[0] == old(Standing()) && trees[|trees| - 1] == Standing()
        decreases TotalQueued(inQueues), NullsHeld(State()), WinnerWaits(State())
      {
        ghost var s := State();
        e := PlayRound();
        AlongGoesOn(n, trees, trace, Standing(), State());
        CallGoesOn(trace, State());
        trace := trace + [State()];
        trees := trees + [Standing()];
        if e.eventType.Null? {
          RetryProgress(s, State());
          continue;
        }
        if e.eventType.Stalled? && inQueues[e.src] != [] {
          RetryProgress(s, State());
          continue;
        }
        return;
      }
    }
  }
}
