/**
 Rotation among stalls. While the merger only stalls at one time, a match between two queues stalled at
 that time is won by each side in turn, so every such queue gets to win and is polled again.
 */
module Rotation {
  import opened Events
  import opened Powers
  import opened TreeGeometry
  import opened LoserTree
  import opened MergerSpec

  ghost predicate StalledAt<U>(e: Event<U>, t: nat) {
    e.time == t && e.eventType.Stalled?
  }

  ghost predicate WonByStall<U>(n: nat, s: Tree<U>, t: nat)
    requires Finished(n, s)
  {
    StalledAt(s.curr[s.win[1]], t)
  }

  /** Consecutive rounds, all won at time `t`, the first by a stall. */
  ghost predicate Series<U>(n: nat, ts: seq<Tree<U>>, t: nat) {
    && TreeRounds(n, ts)
    && (forall k :: 0 <= k < |ts| ==> ts[k].curr[ts[k].win[1]].time == t)
    && WonByStall(n, ts[0], t)
  }

  /** How often a stall won. */
  ghost function Stalls<U>(n: nat, ts: seq<Tree<U>>, t: nat): nat
    requires forall k :: 0 <= k < |ts| ==> Finished(n, ts[k])
  {
    if ts == [] then 0
    else Stalls(n, ts[..|ts| - 1], t) + (if WonByStall(n, ts[|ts| - 1], t) then 1 else 0)
  }

  /** The winner's path passes through `v`. */
  ghost predicate Through<U>(n: nat, s: Tree<U>, v: nat)
    requires Finished(n, s) && v >= 1
  {
    Under(v, LeafOf(s.win[1], n))
  }

  /** How many of the first `k` rounds replayed `v` and brought up a stall. */
  ghost function Turns<U>(n: nat, ts: seq<Tree<U>>, t: nat, v: nat, k: nat): nat
    requires TreeRounds(n, ts) && k < |ts| && v >= 1
  {
    if k == 0 then 0
    else Turns(n, ts, t, v, k - 1) + (if WonByStall(n, ts[k], t) && Through(n, ts[k - 1], v) then 1 else 0)
  }

  // Every queue but the winner is stalled at `t` or later than `t`

  ghost predicate Tied<U>(n: nat, s: Tree<U>, t: nat)
    requires Finished(n, s)
  {
    forall q :: 0 <= q < n && q != s.win[1] ==> StalledAt(s.curr[q], t) || s.curr[q].time > t
  }

  lemma TiedByStall<U>(n: nat, s: Tree<U>, t: nat)
    requires Finished(n, s) && WonByStall(n, s, t)
    ensures Tied(n, s, t)
  {
    WinnerIsLeast(n, s.win, s.loser, s.curr);
  }

  /** If no stall wins after a stall, the queue just popped wins again and no other match has changed. */
  lemma SameWinners<U>(n: nat, s: Tree<U>, s': Tree<U>, t: nat, v: nat)
    requires Finished(n, s) && TreeRound(n, s, s') && Tied(n, s, t) && s'.curr[s'.win[1]].time == t
    requires !WonByStall(n, s', t) && 1 <= v < 2 * n
    ensures Tied(n, s', t) && s'.win[v] == s.win[v]
  {
    var w := s.win[1];
    assert s'.win[1] == w;
    var leaf := LeafOf(w, n);
    hide LeafOf;
    if Between(1, v, leaf) {
      WinnerOnPath(1, v, w, n, s.win, s.loser, s.curr);
      WinnerOnPath(1, v, w, n, s'.win, s'.loser, s'.curr);
    }
  }

  lemma {:induction false} SeriesTied<U>(n: nat, ts: seq<Tree<U>>, t: nat, k: nat)
    requires Series(n, ts, t) && k < |ts|
    ensures Tied(n, ts[k], t)
    decreases k
  {
    assert Finished(n, ts[k]);
    hide Tied, WonByStall, TreeRound, Finished;
    if k > 0 && !WonByStall(n, ts[k], t) {
      SeriesTied(n, ts, t, k - 1);
      assert TreeRound(n, ts[k - 1], ts[k]);
      SameWinners(n, ts[k - 1], ts[k], t, 1);
    } else {
      TiedByStall(n, ts[k], t);
    }
  }

  /** Queue `q` was stalled at `t` at the outset and has not won since. */
  ghost predicate Waits<U>(n: nat, ts: seq<Tree<U>>, t: nat, q: nat, k: nat)
    requires TreeRounds(n, ts) && k < |ts|
  {
    && q < n && StalledAt(ts[0].curr[q], t)
    && forall j :: 0 <= j <= k ==> ts[j].win[1] != q
  }

  lemma {:induction false} WaitingKeepsEvent<U>(n: nat, ts: seq<Tree<U>>, t: nat, q: nat, k: nat)
    requires TreeRounds(n, ts) && k < |ts| && Waits(n, ts, t, q, k)
    ensures StalledAt(ts[k].curr[q], t)
    decreases k
  {
    if k > 0 {
      WaitingKeepsEvent(n, ts, t, q, k - 1);
      assert TreeRound(n, ts[k - 1], ts[k]);
    }
  }

  // Taking turns

  /**
   A round through the other side of a match on `q`'s path, bringing up a stall, leaves the match won on
   `q`'s side.
   */
  lemma OtherSideYields<U>(n: nat, s: Tree<U>, s': Tree<U>, t: nat, q: nat, y: nat)
    requires Finished(n, s) && TreeRound(n, s, s') && WonByStall(n, s', t)
    requires q < n && StalledAt(s.curr[q], t) && q != s.win[1]
    requires 2 <= y < 2 * n && Under(y, LeafOf(q, n)) && Through(n, s, Sibling(y))
    ensures s'.win[y / 2] == s.win[y] == s'.win[y]
  {
    var w, z := s.win[1], Sibling(y);
    var leaf := LeafOf(w, n);
    SiblingApart(y, leaf);
    WinnerIsLeast(n, s'.win, s'.loser, s'.curr);
    LeastBelow(y, q, n, s.win, s.loser, s.curr);
    WinnerBelow(y, n, s.win, s.loser, s.curr);
    hide LeafOf, Tournament;
    assert Between(1, z, leaf) by { RootAbove(z); }
    assert s'.win[z / 2] == MatchWinner(z, n, s.win, s'.win, s'.curr);
  }

  lemma SiblingApart(y: nat, leaf: nat)
    requires y >= 2 && Under(Sibling(y), leaf)
    ensures !Under(y, leaf) && Sibling(Sibling(y)) == y && Sibling(y) / 2 == y / 2 && Sibling(y) >= 2
    ensures Under(y / 2, leaf)
  {
    OneSide(Sibling(y), leaf);
    UnderParent(Sibling(y), leaf);
  }

  lemma OneMoreTurn<U>(n: nat, ts: seq<Tree<U>>, t: nat, v: nat, k: nat)
    requires TreeRounds(n, ts) && 0 < k < |ts| && v >= 1
    ensures Turns(n, ts, t, v, k)
         == Turns(n, ts, t, v, k - 1) + (if WonByStall(n, ts[k], t) && Through(n, ts[k - 1], v) then 1 else 0)
  {
  }

  /** Every round through the match `v` goes through one of its sides `y` and `z`. */
  lemma {:induction false} TurnsSplit<U>(n: nat, ts: seq<Tree<U>>, t: nat, v: nat, y: nat, z: nat, k: nat)
    requires TreeRounds(n, ts) && k < |ts| && 2 <= y < 2 * n && v == y / 2 >= 1 && z == Sibling(y) >= 2
    ensures Turns(n, ts, t, v, k) == Turns(n, ts, t, y, k) + Turns(n, ts, t, z, k)
    decreases k
  {
    hide *;
    if k > 0 {
      RoundsFinished(n, ts, k - 1);
      TurnsSplit(n, ts, t, v, y, z, k - 1);
      ThroughOne(n, ts[k - 1], y);
      OneMoreTurn(n, ts, t, y, k);
      OneMoreTurn(n, ts, t, z, k);
      OneMoreTurn(n, ts, t, v, k);
    } else {
      NoTurnYet(n, ts, t, y);
      NoTurnYet(n, ts, t, z);
      NoTurnYet(n, ts, t, v);
    }
  }

  lemma RoundsFinished<U>(n: nat, ts: seq<Tree<U>>, k: nat)
    requires TreeRounds(n, ts) && k < |ts|
    ensures Finished(n, ts[k])
  {
  }

  lemma NoTurnYet<U>(n: nat, ts: seq<Tree<U>>, t: nat, v: nat)
    requires TreeRounds(n, ts) && v >= 1
    ensures Turns(n, ts, t, v, 0) == 0
  {
  }

  lemma ThroughOne<U>(n: nat, s: Tree<U>, y: nat)
    requires Finished(n, s) && 2 <= y < 2 * n
    ensures Through(n, s, y / 2) <==> Through(n, s, y) || Through(n, s, Sibling(y))
    ensures !(Through(n, s, y) && Through(n, s, Sibling(y)))
  {
    var leaf := LeafOf(s.win[1], n);
    hide LeafOf;
    if Under(y, leaf) {
      UnderParent(y, leaf);
    }
    if Under(Sibling(y), leaf) {
      SiblingApart(y, leaf);
    }
    if Under(y / 2, leaf) {
      UnderChild(y / 2, leaf);
    }
  }

  /** One round seen from the match above `y` on the path of a waiting queue. */
  lemma SideTurn<U>(n: nat, s: Tree<U>, s': Tree<U>, t: nat, q: nat, y: nat)
    requires Finished(n, s) && TreeRound(n, s, s') && Tied(n, s, t) && s'.curr[s'.win[1]].time == t
    requires q < n && StalledAt(s.curr[q], t) && q != s.win[1] && 2 <= y < 2 * n && Under(y, LeafOf(q, n))
    ensures WonByStall(n, s', t) && Through(n, s, Sibling(y)) ==> s'.win[y / 2] == s'.win[y] && s.win[y / 2] != s.win[y]
    ensures !WonByStall(n, s', t) || !Through(n, s, y / 2) ==> s'.win[y / 2] == s.win[y / 2] && s'.win[y] == s.win[y]
  {
    ThroughOne(n, s, y);
    if !WonByStall(n, s', t) {
      SameWinners(n, s, s', t, y);
      SameWinners(n, s, s', t, y / 2);
    } else if Through(n, s, Sibling(y)) {
      OtherSideYields(n, s, s', t, q, y);
      WinnerBelow(y, n, s.win, s.loser, s.curr);
      RootAbove(y / 2);
      WinnerOnPath(1, y / 2, s.win[1], n, s.win, s.loser, s.curr);
    }
  }

  /** The match `v` is won by the winner of its side `y`. */
  ghost predicate SameSide<U>(s: Tree<U>, v: nat, y: nat) {
    v < |s.win| && y < |s.win| && s.win[v] == s.win[y]
  }

  lemma SideTurnAt<U>(n: nat, ts: seq<Tree<U>>, t: nat, q: nat, v: nat, y: nat, z: nat, k: nat)
    requires Series(n, ts, t) && 0 < k < |ts| && Waits(n, ts, t, q, k)
    requires 2 <= y < 2 * n && Under(y, LeafOf(q, n)) && v == y / 2 >= 1 && z == Sibling(y) >= 2
    ensures Waits(n, ts, t, q, k - 1) && Finished(n, ts[k - 1]) && Finished(n, ts[k])
    ensures WonByStall(n, ts[k], t) && Through(n, ts[k - 1], z) ==> SameSide(ts[k], v, y) && !SameSide(ts[k - 1], v, y)
    ensures !WonByStall(n, ts[k], t) || !Through(n, ts[k - 1], v) ==> (SameSide(ts[k], v, y) <==>
        SameSide(ts[k - 1], v, y))
    ensures Through(n, ts[k - 1], v) <==> Through(n, ts[k - 1], y) || Through(n, ts[k - 1], z)
  {
    assert TreeRound(n, ts[k - 1], ts[k]);
    SeriesTied(n, ts, t, k - 1);
    WaitingKeepsEvent(n, ts, t, q, k - 1);
    assert |ts[k].win| == 2 * n == |ts[k - 1].win|;
    hide Tied, Tournament, WonByStall, StalledAt, Through, TreeRound, LeafOf;
    SideTurn(n, ts[k - 1], ts[k], t, q, y);
    ThroughOne(n, ts[k - 1], y);
  }

  /** While `q` waits, the other side of a match on its path gets at most one turn more than `q`'s side. */
  lemma {:induction false} SidesAlternate<U>(n: nat, ts: seq<Tree<U>>, t: nat, q: nat, v: nat, y: nat, z: nat, k: nat)
    requires TreeRounds(n, ts) && Series(n, ts, t) && k < |ts| && Waits(n, ts, t, q, k)
    requires 2 <= y < 2 * n && Under(y, LeafOf(q, n)) && v == y / 2 >= 1 && z == Sibling(y) >= 2
    ensures Turns(n, ts, t, z, k) <= Turns(n, ts, t, y, k) + (if SameSide(ts[k], v, y) then 1 else 0)
    decreases k
  {
    hide *;
    if k > 0 {
      SideTurnAt(n, ts, t, q, v, y, z, k);
      SidesAlternate(n, ts, t, q, v, y, z, k - 1);
      OneMoreTurn(n, ts, t, y, k);
      OneMoreTurn(n, ts, t, z, k);
    } else {
      NoTurnYet(n, ts, t, y);
      NoTurnYet(n, ts, t, z);
    }
  }

  /** The turns of `y` so far, counting the one the current winner takes next. */
  ghost function TurnsAndNext<U>(n: nat, ts: seq<Tree<U>>, t: nat, y: nat, k: nat): nat
    requires TreeRounds(n, ts) && k < |ts| && y >= 1
  {
    Turns(n, ts, t, y, k) + (if Through(n, ts[k], y) then 1 else 0)
  }

  lemma {:induction false} NoTurnsAtLeaf<U>(n: nat, ts: seq<Tree<U>>, t: nat, q: nat, k: nat)
    requires TreeRounds(n, ts) && k < |ts| && Waits(n, ts, t, q, k)
    ensures TurnsAndNext(n, ts, t, LeafOf(q, n), k) == 0
    decreases k
  {
    LeafOnly(n, ts[k], q);
    if k > 0 {
      NoTurnsAtLeaf(n, ts, t, q, k - 1);
    }
  }

  lemma LeafOnly<U>(n: nat, s: Tree<U>, q: nat)
    requires Finished(n, s) && q < n && q != s.win[1]
    ensures !Through(n, s, LeafOf(q, n))
  {
    if Through(n, s, LeafOf(q, n)) {
      UnderGrows(LeafOf(q, n), LeafOf(s.win[1], n));
    }
  }

  lemma MatchTurns<U>(n: nat, ts: seq<Tree<U>>, t: nat, q: nat, y: nat, k: nat)
    requires Series(n, ts, t) && k < |ts| && Waits(n, ts, t, q, k) && 2 <= y < 2 * n && Under(y, LeafOf(q, n))
    ensures TurnsAndNext(n, ts, t, y / 2, k) <= 2 * TurnsAndNext(n, ts, t, y, k) + 1
  {
    TurnsSplit(n, ts, t, y / 2, y, Sibling(y), k);
    SidesAlternate(n, ts, t, q, y / 2, y, Sibling(y), k);
    var s := ts[k];
    ThroughOne(n, s, y);
    if Through(n, s, Sibling(y)) {
      WinnerBelow(y, n, s.win, s.loser, s.curr);
      RootAbove(y / 2);
      WinnerOnPath(1, y / 2, s.win[1], n, s.win, s.loser, s.curr);
    }
  }

  /** The child of `y` on the way down to `leaf`. */
  lemma ChildTowards(y: nat, leaf: nat) returns (c: nat)
    requires 1 <= y && Under(y, leaf) && y != leaf
    ensures c / 2 == y && y < c <= leaf && 2 <= 2 * y <= c && Under(c, leaf)
  {
    UnderChild(y, leaf);
    c := if Under(2 * y, leaf) then 2 * y else 2 * y + 1;
    UnderGrows(c, leaf);
  }

  /** Node `y` lies `h` layers or more above `leaf`. */
  ghost predicate LayersAbove(y: nat, h: nat, leaf: nat) {
    y * Pow2(h) <= leaf
  }

  lemma OneLayerUp(y: nat, c: nat, h: nat, leaf: nat)
    requires c >= 2 * y && LayersAbove(c, h, leaf)
    ensures Pow2(h + 1) == 2 * Pow2(h) && LayersAbove(y, h + 1, leaf)
  {
    assert y * (2 * Pow2(h)) == (2 * y) * Pow2(h) <= c * Pow2(h);
  }

  /** `h` matches above its leaf, a waiting queue has seen fewer than `2^h` turns. */
  lemma {:induction false} TurnsBound<U>(n: nat, ts: seq<Tree<U>>, t: nat, q: nat, leaf: nat, y: nat, k: nat)
      returns (h: nat)
    requires Series(n, ts, t) && TreeRounds(n, ts) && k < |ts| && Waits(n, ts, t, q, k)
    requires q < n && n >= 2 && leaf == LeafOf(q, n) && 1 <= y && Under(y, leaf)
    ensures TurnsAndNext(n, ts, t, y, k) < Pow2(h) && LayersAbove(y, h, leaf)
    decreases leaf - y
  {
    hide *;
    if y == leaf {
      NoTurnsAtLeaf(n, ts, t, q, k);
      h := 0;
      AtLeaf(leaf);
    } else {
      var c := ChildTowards(y, leaf);
      LeafRange(q, n);
      h := TurnsBound(n, ts, t, q, leaf, c, k);
      MatchTurns(n, ts, t, q, c, k);
      OneLayerUp(y, c, h, leaf);
      h := h + 1;
    }
  }

  lemma AtLeaf(leaf: nat)
    ensures Pow2(0) == 1 && LayersAbove(leaf, 0, leaf)
  {
  }

  lemma LeafRange(q: nat, n: nat)
    requires q < n && n >= 2
    ensures LeafOf(q, n) < 2 * n
  {
  }

  /** Every stall but the first is a turn of the root. */
  lemma {:induction false} StallsAreTurns<U>(n: nat, ts: seq<Tree<U>>, t: nat, k: nat)
    requires Series(n, ts, t) && k < |ts|
    ensures Stalls(n, ts[..k + 1], t) == Turns(n, ts, t, 1, k) + 1
    decreases k
  {
    assert ts[..k + 1][..k] == ts[..k];
    if k > 0 {
      StallsAreTurns(n, ts, t, k - 1);
      RootAbove(LeafOf(ts[k - 1].win[1], n));
    } else {
      assert Stalls(n, ts[..k + 1][..k], t) == 0;
    }
  }

  lemma LeafLayers(n: nat, leaf: nat, h: nat)
    requires n >= 2 && Pow2(h) <= leaf < 2 * n
    ensures Pow2(h) <= Pow2(CeilLog2(n))
  {
    if h > CeilLog2(n) {
      Pow2Monotone(CeilLog2(n), h);
    } else if h < CeilLog2(n) {
      Pow2Monotone(h, CeilLog2(n));
    }
  }

  lemma FewStallsWhileWaiting<U>(n: nat, ts: seq<Tree<U>>, t: nat, q: nat)
    requires n >= 2 && Series(n, ts, t) && Waits(n, ts, t, q, |ts| - 1)
    ensures Stalls(n, ts, t) < Pow2(CeilLog2(n))
  {
    var k := |ts| - 1;
    var leaf := LeafOf(q, n);
    RootAbove(leaf);
    RootAbove(LeafOf(ts[k].win[1], n));
    assert ts[..k + 1] == ts;
    StallsAreTurns(n, ts, t, k);
    hide LeafOf, Pow2, CeilLog2, Turns, Stalls, Series, Waits;
    var h := TurnsBound(n, ts, t, q, leaf, 1, k);
    assert Through(n, ts[k], 1);
    LeafLayers(n, leaf, h);
  }

  /**
   Every queue stalled at `t` wins within any `2^n_layers` stalls at `t`, and so is polled again, however
   nulls at `t` come in between.
   */
  lemma EveryStalledQueueWins<U>(n: nat, ts: seq<Tree<U>>, t: nat, q: nat)
    requires n >= 2 && Series(n, ts, t) && q < n && StalledAt(ts[0].curr[q], t)
    requires Stalls(n, ts, t) >= Pow2(CeilLog2(n))
    ensures exists k :: 0 <= k < |ts| && ts[k].win[1] == q
  {
    hide Stalls, Pow2, CeilLog2;
    if forall k :: 0 <= k < |ts| ==> ts[k].win[1] != q {
      FewStallsWhileWaiting(n, ts, t, q);
    }
  }

  // Over calls

  /** The trees of one call that returns a stall at `t`, no round of which goes beyond `t`. */
  ghost predicate StallCall<U>(n: nat, ts: seq<Tree<U>>, t: nat) {
    && TreeRounds(n, ts) && |ts| >= 2
    && (forall k :: 0 <= k < |ts| ==> ts[k].curr[ts[k].win[1]].time == t)
    && WonByStall(n, ts[|ts| - 1], t)
  }

  /** Consecutive calls, after a first stall at `t`. */
  ghost predicate StallCalls<U>(n: nat, calls: seq<seq<Tree<U>>>, t: nat) {
    && calls != []
    && (forall c :: 0 <= c < |calls| ==> StallCall(n, calls[c], t))
    && WonByStall(n, calls[0][0], t)
    && forall c :: 0 < c < |calls| ==> calls[c][0] == calls[c - 1][|calls[c - 1]| - 1]
  }

  /** The rounds of `ts` all belong to one of the calls. */
  ghost predicate WithinCalls<U>(ts: seq<Tree<U>>, calls: seq<seq<Tree<U>>>) {
    forall k :: 0 <= k < |ts| ==> InSomeCall(ts[k], calls)
  }

  ghost predicate InSomeCall<U>(s: Tree<U>, calls: seq<seq<Tree<U>>>) {
    exists c :: 0 <= c < |calls| && s in calls[c]
  }

  lemma SeriesBegins<U>(n: nat, s: Tree<U>, t: nat)
    requires Finished(n, s) && WonByStall(n, s, t)
    ensures Series(n, [s], t) && Stalls(n, [s], t) == 1
  {
    hide Tournament;
    assert [s][..0] == [];
    assert Stalls(n, [s][..0], t) == 0;
  }

  lemma SeriesGoesOn<U>(n: nat, ts: seq<Tree<U>>, s: Tree<U>, t: nat)
    requires Series(n, ts, t) && TreeRound(n, ts[|ts| - 1], s) && Finished(n, s) && s.curr[s.win[1]].time == t
    ensures Series(n, ts + [s], t)
    ensures Stalls(n, ts + [s], t) == Stalls(n, ts, t) + (if WonByStall(n, s, t) then 1 else 0)
  {
    assert (ts + [s])[..|ts|] == ts;
    hide Tournament, ReplayedTo, WonByStall, TreeRound;
    var longer := ts + [s];
    forall k | 0 <= k < |longer|
      ensures Finished(n, longer[k])
    {
    }
    forall k | 0 <= k < |longer| - 1
      ensures TreeRound(n, longer[k], longer[k + 1])
    {
    }
  }

  lemma CallRound<U>(n: nat, call: seq<Tree<U>>, t: nat, k: nat)
    requires StallCall(n, call, t) && 0 < k < |call|
    ensures Finished(n, call[k - 1]) && Finished(n, call[k]) && TreeRound(n, call[k - 1], call[k])
    ensures call[k].curr[call[k].win[1]].time == t && (k == |call| - 1 ==> WonByStall(n, call[k], t))
  {
  }

  /** A series goes on with the rounds of the next call, which bring at least one more stall. */
  lemma {:induction false} Extend<U>(n: nat, ts: seq<Tree<U>>, call: seq<Tree<U>>, t: nat, k: nat,
                                     calls: seq<seq<Tree<U>>>)
      returns (longer: seq<Tree<U>>)
    requires ts != [] && Series(n, ts, t) && WithinCalls(ts, calls)
    requires StallCall(n, call, t) && 1 <= k <= |call| && ts[|ts| - 1] == call[0]
    ensures longer != [] && Series(n, longer, t) && longer[0] == ts[0] && longer[|longer| - 1] == call[k - 1]
    ensures Stalls(n, longer, t) >= Stalls(n, ts, t) + (if k > 1 && k == |call| then 1 else 0)
    ensures WithinCalls(longer, calls + [call])
    decreases k
  {
    hide *;
    if k == 1 {
      longer := ts;
      MoreCalls(ts, calls, call);
    } else {
      var shorter := Extend(n, ts, call, t, k - 1, calls);
      CallRound(n, call, t, k - 1);
      SeriesGoesOn(n, shorter, call[k - 1], t);
      longer := shorter + [call[k - 1]];
      OneMoreWithin(shorter, calls, call, k - 1);
    }
  }

  lemma MoreCalls<U>(ts: seq<Tree<U>>, calls: seq<seq<Tree<U>>>, call: seq<Tree<U>>)
    requires WithinCalls(ts, calls)
    ensures WithinCalls(ts, calls + [call])
  {
    forall k | 0 <= k < |ts|
      ensures InSomeCall(ts[k], calls + [call])
    {
      var c :| 0 <= c < |calls| && ts[k] in calls[c];
      assert ts[k] in (calls + [call])[c];
    }
  }

  lemma OneMoreWithin<U>(ts: seq<Tree<U>>, calls: seq<seq<Tree<U>>>, call: seq<Tree<U>>, j: nat)
    requires WithinCalls(ts, calls + [call]) && j < |call|
    ensures WithinCalls(ts + [call[j]], calls + [call])
  {
    assert call[j] in (calls + [call])[|calls|];
  }

  lemma FrontCalls<U>(n: nat, calls: seq<seq<Tree<U>>>, t: nat)
    requires StallCalls(n, calls, t)
    ensures var last := |calls| - 1; calls == calls[..last] + [calls[last]] && StallCall(n, calls[last], t)
    ensures var last := |calls| - 1;
            if last == 0 then Finished(n, calls[0][0]) && WonByStall(n, calls[0][0], t)
            else StallCalls(n, calls[..last], t) && calls[last][0] == calls[last - 1][|calls[last - 1]| - 1]
  {
    hide TreeRounds, WonByStall, Tournament;
    if |calls| == 1 {
      assert StallCall(n, calls[0], t);
      FirstFinished(n, calls[0]);
    }
  }

  lemma FirstFinished<U>(n: nat, ts: seq<Tree<U>>)
    requires TreeRounds(n, ts)
    ensures Finished(n, ts[0])
  {
  }

  /** The rounds of consecutive calls are one series, with a stall for every result. */
  lemma {:induction false} Chain<U>(n: nat, calls: seq<seq<Tree<U>>>, t: nat) returns (ts: seq<Tree<U>>)
    requires calls != [] && StallCalls(n, calls, t)
    ensures ts != [] && Series(n, ts, t) && WithinCalls(ts, calls) && Stalls(n, ts, t) >= |calls| + 1
    ensures var last := calls[|calls| - 1];
            calls[0] != [] && ts[0] == calls[0][0] && last != [] && ts[|ts| - 1] == last[|last| - 1]
    decreases |calls|
  {
    hide *;
    var last := |calls| - 1;
    FrontCalls(n, calls, t);
    CallLength(n, calls[last], t);
    if last == 0 {
      var s := calls[0][0];
      SeriesBegins(n, s, t);
      Alone(s, calls[0]);
      ts := Extend(n, [s], calls[0], t, |calls[0]|, [calls[0]]);
      SameCall(ts, calls[0]);
      assert calls == [calls[0]];
    } else {
      var before := Chain(n, calls[..last], t);
      ts := Extend(n, before, calls[last], t, |calls[last]|, calls[..last]);
    }
  }

  lemma CallLength<U>(n: nat, call: seq<Tree<U>>, t: nat)
    requires StallCall(n, call, t)
    ensures |call| >= 2
  {
  }

  lemma Alone<U>(s: Tree<U>, call: seq<Tree<U>>)
    requires s in call
    ensures WithinCalls([s], [call])
  {
    assert s in [call][0];
  }

  lemma SameCall<U>(ts: seq<Tree<U>>, call: seq<Tree<U>>)
    requires WithinCalls(ts, [call] + [call])
    ensures WithinCalls(ts, [call])
  {
    forall k | 0 <= k < |ts|
      ensures InSomeCall(ts[k], [call])
    {
      assert ts[k] in [call][0];
    }
  }

  // In-order inputs keep the rounds between two stalls at `t` at `t`

  /** Every queue goes on from the event that represents it, and the last round was won by the least of these. */
  ghost predicate Ordered<U>(m: MState<U>) {
    && WellFormed(m) && LeastIn(m.winner, m.curr)
    && forall q :: 0 <= q < |m.curr| ==> Sorted([m.curr[q]] + m.queues[q])
  }

  lemma SortedTail<U>(e: Event<U>, q: seq<Event<U>>, src: nat)
    requires q != [] && Sorted([e] + q)
    ensures Sorted([q[0].(src := src)] + q[1..]) && e.time <= q[0].time
  {
    var st, st' := [e] + q, [q[0].(src := src)] + q[1..];
    assert st[0] == e && st[1] == q[0];
    forall a, b | 0 <= a < b < |st'|
      ensures st'[a].time <= st'[b].time
    {
      assert st'[a].time == st[a + 1].time && st'[b].time == st[b + 1].time;
    }
  }

  lemma RoundInOrder<U>(m: MState<U>, m': MState<U>)
    requires Ordered(m) && Round(m, m') && WellFormed(m')
    ensures Ordered(m') && Reached(m) <= Reached(m')
  {
    var w := m.winner;
    assert Sorted([m.curr[w]] + m.queues[w]);
    if m.queues[w] != [] {
      SortedTail(m.curr[w], m.queues[w], w);
    }
    hide Sorted;
    forall q | 0 <= q < |m'.curr|
      ensures Sorted([m'.curr[q]] + m'.queues[q])
    {
      if q != w {
        assert Sorted([m.curr[q]] + m.queues[q]);
      } else if m.queues[w] == [] {
        SingleSorted(m'.curr[w]);
      }
    }
  }

  lemma SingleSorted<U>(e: Event<U>)
    ensures Sorted([e] + [])
  {
  }

  /** Over a call from in-order inputs time does not go back. */
  lemma {:induction false} CallInOrder<U>(call: seq<MState<U>>, j: nat, k: nat)
    requires Call(call) && Ordered(call[0]) && j <= k < |call|
    ensures Ordered(call[k]) && Reached(call[j]) <= Reached(call[k])
    decreases k
  {
    hide Ordered, Round, WellFormed, Retry, Reached;
    if k > 0 {
      CallInOrder(call, 0, k - 1);
      assert Round(call[k - 1], call[k]) && WellFormed(call[k]);
      RoundInOrder(call[k - 1], call[k]);
      if j < k {
        CallInOrder(call, j, k - 1);
      }
    }
  }

  /**
   Consecutive calls of `next` that all return a stall at `t`, the one before them too. Neighbours push in order
   between the calls; the tree is as the last call has left it.
   */
  ghost predicate StallResults<U>(n: nat, calls: seq<seq<MState<U>>>, trees: seq<seq<Tree<U>>>, t: nat) {
    && |calls| == |trees| > 0
    && (forall c :: 0 <= c < |calls| ==> Call(calls[c]) && Ordered(calls[c][0]) && Along(n, trees[c], calls[c]))
    && (forall c :: 0 <= c < |calls| ==> trees[c] != [])
    && (forall c :: 0 < c < |calls| ==> trees[c][0] == trees[c - 1][|trees[c - 1]| - 1])
    && (forall c :: 0 <= c < |calls| ==> ReturnsStall(calls[c], t))
    && StallBefore(calls[0], t)
  }

  ghost predicate ReturnsStall<U>(call: seq<MState<U>>, t: nat) {
    call != [] && var m := call[|call| - 1]; m.winner < |m.curr| && StalledAt(m.curr[m.winner], t)
  }

  ghost predicate StallBefore<U>(call: seq<MState<U>>, t: nat) {
    call != [] && call[0].winner < |call[0].curr| && StalledAt(call[0].curr[call[0].winner], t)
  }

  /** A call between two stalls at `t` stays at `t`. */
  lemma CallStaysAt<U>(n: nat, call: seq<MState<U>>, trees: seq<Tree<U>>, t: nat)
    requires Call(call) && Ordered(call[0]) && Along(n, trees, call) && StallBefore(call, t) && ReturnsStall(call, t)
    ensures StallCall(n, trees, t)
  {
    forall k | 0 <= k < |trees|
      ensures trees[k].curr[trees[k].win[1]].time == t
    {
      CallInOrder(call, 0, k);
      CallInOrder(call, k, |call| - 1);
      assert WellFormed(call[k]);
    }
  }

  lemma ResultStartsNext<U>(n: nat, call: seq<MState<U>>, trees: seq<Tree<U>>, next: seq<MState<U>>,
                            trees': seq<Tree<U>>, t: nat)
    requires Call(call) && Along(n, trees, call) && ReturnsStall(call, t) && Call(next) && Along(n, trees', next)
    requires trees' != [] && trees != [] && trees'[0] == trees[|trees| - 1]
    ensures StallBefore(next, t)
  {
    assert WellFormed(next[0]);
  }

  lemma {:induction false} ResultsStayAt<U>(n: nat, calls: seq<seq<MState<U>>>, trees: seq<seq<Tree<U>>>, t: nat,
                                            c: nat)
    requires StallResults(n, calls, trees, t) && c < |calls|
    ensures StallBefore(calls[c], t) && StallCall(n, trees[c], t)
    decreases c
  {
    hide Call, Ordered, Along, ReturnsStall, StallBefore, StallCall;
    if c > 0 {
      ResultStartsNext(n, calls[c - 1], trees[c - 1], calls[c], trees[c], t);
    }
    CallStaysAt(n, calls[c], trees[c], t);
  }

  lemma ResultsAreStallCalls<U>(n: nat, calls: seq<seq<MState<U>>>, trees: seq<seq<Tree<U>>>, t: nat)
    requires StallResults(n, calls, trees, t)
    ensures StallCalls(n, trees, t)
  {
    FirstTree(n, calls[0], trees[0], t);
    hide Call, Ordered, Along, ReturnsStall, StallCall, WonByStall, Finished;
    forall c | 0 <= c < |trees|
      ensures StallCall(n, trees[c], t)
    {
      ResultsStayAt(n, calls, trees, t, c);
    }
  }

  lemma FirstTree<U>(n: nat, call: seq<MState<U>>, trees: seq<Tree<U>>, t: nat)
    requires Call(call) && Along(n, trees, call) && StallBefore(call, t)
    ensures trees != [] && Finished(n, trees[0]) && WonByStall(n, trees[0], t)
  {
  }

  /**
   Among any `2^n_layers` consecutive results stalled at `t`, every queue stalled at `t` at the first wins one round.
   */
  lemma EveryStalledQueuePolled<U>(n: nat, calls: seq<seq<MState<U>>>, trees: seq<seq<Tree<U>>>, t: nat, q: nat)
    requires n >= 2 && StallResults(n, calls, trees, t) && |calls| + 1 >= Pow2(CeilLog2(n))
    requires q < n && calls[0] != [] && q < |calls[0][0].curr| && StalledAt(calls[0][0].curr[q], t)
    ensures exists c, m :: 0 <= c < |calls| && m in calls[c] && m.winner == q
  {
    hide Stalls, Pow2, CeilLog2;
    ResultsAreStallCalls(n, calls, trees, t);
    var ts := Chain(n, trees, t);
    SameEvents(n, calls[0], trees[0]);
    EveryStalledQueueWins(n, ts, t, q);
    var k :| 0 <= k < |ts| && ts[k].win[1] == q;
    assert InSomeCall(ts[k], trees);
    var c :| 0 <= c < |trees| && ts[k] in trees[c];
    WonInCall(n, calls[c], trees[c], ts[k]);
  }

  lemma SameEvents<U>(n: nat, call: seq<MState<U>>, trees: seq<Tree<U>>)
    requires Call(call) && Along(n, trees, call)
    ensures trees != [] && trees[0].curr == call[0].curr
  {
  }

  lemma WonInCall<U>(n: nat, call: seq<MState<U>>, trees: seq<Tree<U>>, s: Tree<U>)
    requires Along(n, trees, call) && s in trees
    ensures |s.win| > 1 && exists m :: m in call && m.winner == s.win[1]
  {
    var k :| 0 <= k < |trees| && trees[k] == s;
    assert call[k] in call && Finished(n, trees[k]);
  }
}
