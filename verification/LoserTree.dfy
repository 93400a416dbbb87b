/**
 The tournament kept in the loser tree. `curr[q]` is the event queue `q` is represented by, `loser[v]`
 the event stored at match `v`, and `win[v]` the queue that wins the subtree at `v`.
 */
module LoserTree {
  import opened Events
  import opened TreeGeometry

  function Sibling(y: nat): nat
    requires y >= 2
  {
    if y % 2 == 0 then y + 1 else y - 1
  }

  ghost predicate Shaped<U>(n: nat, win: seq<nat>, loser: seq<Event<U>>, curr: seq<Event<U>>) {
    && n >= 2 && |win| == 2 * n && |loser| == n && |curr| == n
    && (forall v :: 1 <= v < 2 * n ==> win[v] < n)
    && (forall q :: 0 <= q < n ==> win[LeafOf(q, n)] == q)
    && (forall q :: 0 <= q < n ==> curr[q].src == q)
  }

  /** Match `v` was played between the winners of its two subtrees, and its loser is stored there. */
  ghost predicate Played<U>(v: nat, n: nat, win: seq<nat>, loser: seq<Event<U>>, curr: seq<Event<U>>)
    requires 1 <= v < n && |win| == 2 * n && |loser| == n && |curr| == n
  {
    var l := loser[v].src;
    && l < n && win[v] < n && loser[v] == curr[l]
    && ((win[v] == win[2 * v] && l == win[2 * v + 1]) || (win[v] == win[2 * v + 1] && l == win[2 * v]))
    && Leq(curr[win[v]], loser[v])
  }

  ghost predicate Tournament<U>(n: nat, win: seq<nat>, loser: seq<Event<U>>, curr: seq<Event<U>>) {
    && Shaped(n, win, loser, curr)
    && forall v :: 1 <= v < n ==> Played(v, n, win, loser, curr)
  }

  // Leaves

  /** The queue whose leaf is `leaf`. */
  ghost function QueueOf(leaf: nat, n: nat): (q: nat)
    requires n >= 2 && n <= leaf < 2 * n
    ensures q < n && LeafOf(q, n) == leaf
  {
    var last := Powers.Pow2(Powers.CeilLog2(n));
    assert last == 2 * Powers.Pow2(Powers.CeilLog2(n) - 1);
    if leaf >= last then leaf - last else leaf + n - last
  }

  // Where a winner comes from

  lemma {:induction false} WinnerBelow<U>(v: nat, n: nat, win: seq<nat>, loser: seq<Event<U>>, curr: seq<Event<U>>)
    requires Tournament(n, win, loser, curr) && 1 <= v < 2 * n
    ensures Under(v, LeafOf(win[v], n))
    decreases 2 * n - v
  {
    hide LeafOf;
    if v >= n {
      assert LeafOf(QueueOf(v, n), n) == v;
    } else {
      assert Played(v, n, win, loser, curr);
      WinnerBelow(2 * v, n, win, loser, curr);
      WinnerBelow(2 * v + 1, n, win, loser, curr);
      if win[v] == win[2 * v] {
        UnderParent(2 * v, LeafOf(win[v], n));
      } else {
        UnderParent(2 * v + 1, LeafOf(win[v], n));
      }
    }
  }

  lemma DistinctWinners<U>(v: nat, n: nat, win: seq<nat>, loser: seq<Event<U>>, curr: seq<Event<U>>)
    requires Tournament(n, win, loser, curr) && 1 <= v < n
    ensures win[2 * v] != win[2 * v + 1]
  {
    hide LeafOf;
    WinnerBelow(2 * v, n, win, loser, curr);
    WinnerBelow(2 * v + 1, n, win, loser, curr);
    if win[2 * v] == win[2 * v + 1] {
      SiblingsDisjoint(v, LeafOf(win[2 * v], n));
    }
  }

  /** A queue that wins at `u` wins everywhere between `u` and its leaf. */
  lemma {:induction false} WinnerOnPath<U>(u: nat, v: nat, q: nat, n: nat, win: seq<nat>, loser: seq<Event<U>>,
                                           curr: seq<Event<U>>)
    requires Tournament(n, win, loser, curr) && 1 <= u <= v < 2 * n && q < n
    requires win[u] == q && Under(u, v) && Under(v, LeafOf(q, n))
    ensures win[v] == q
    decreases v
  {
    hide LeafOf;
    if v != u {
      var p := v / 2;
      UnderParent(v, LeafOf(q, n));
      WinnerOnPath(u, p, q, n, win, loser, curr);
      assert Played(p, n, win, loser, curr);
      WinnerBelow(Sibling(v), n, win, loser, curr);
      if win[v] != q {
        assert win[Sibling(v)] == q;
        SiblingsDisjoint(p, LeafOf(q, n));
      }
    }
  }

  /** The winner of a subtree is least among all queues below it. */
  lemma {:induction false} LeastBelow<U>(v: nat, q: nat, n: nat, win: seq<nat>, loser: seq<Event<U>>,
                                         curr: seq<Event<U>>)
    requires Tournament(n, win, loser, curr) && 1 <= v < 2 * n && q < n && Under(v, LeafOf(q, n))
    ensures Leq(curr[win[v]], curr[q])
    decreases 2 * n - v
  {
    var leaf := LeafOf(q, n);
    assert win[leaf] == q;
    hide LeafOf;
    if v >= n {
      UnderGrows(v, leaf);
    } else {
      assert Played(v, n, win, loser, curr);
      UnderChild(v, leaf);
      if Under(2 * v, leaf) {
        LeastBelow(2 * v, q, n, win, loser, curr);
      } else {
        LeastBelow(2 * v + 1, q, n, win, loser, curr);
      }
    }
  }

  lemma UnderGrows(v: nat, y: nat)
    requires v >= 1 && Under(v, y)
    ensures y == v || y >= 2 * v
  {
  }

  /** The loser tree agrees with a linear scan: the overall winner is least among all queues. */
  lemma WinnerIsLeast<U>(n: nat, win: seq<nat>, loser: seq<Event<U>>, curr: seq<Event<U>>)
    requires Tournament(n, win, loser, curr)
    ensures forall q :: 0 <= q < n ==> Leq(curr[win[1]], curr[q])
  {
    hide LeafOf;
    forall q | 0 <= q < n
      ensures Leq(curr[win[1]], curr[q])
    {
      RootAbove(LeafOf(q, n));
      LeastBelow(1, q, n, win, loser, curr);
    }
  }

  /** Climbs from node `v` where queue `q` wins to the match it loses. */
  lemma {:induction false} LostSomewhere<U>(v: nat, q: nat, n: nat, win: seq<nat>, loser: seq<Event<U>>,
                                            curr: seq<Event<U>>) returns (at: nat)
    requires Tournament(n, win, loser, curr) && 1 <= v < 2 * n && q < n && win[v] == q && win[1] != q
    requires Under(v, LeafOf(q, n))
    ensures 1 <= at < n && loser[at].src == q && Under(at, LeafOf(q, n))
    decreases v
  {
    hide LeafOf;
    assert Played(v / 2, n, win, loser, curr);
    UnderParent(v, LeafOf(q, n));
    if win[v / 2] == q {
      at := LostSomewhere(v / 2, q, n, win, loser, curr);
    } else {
      at := v / 2;
    }
  }

  /** No queue loses twice: where it lost, it had won everything below and wins nothing above. */
  lemma LostOnce<U>(a: nat, b: nat, q: nat, n: nat, win: seq<nat>, loser: seq<Event<U>>, curr: seq<Event<U>>)
    requires Tournament(n, win, loser, curr) && 1 <= a < n && 1 <= b < n && q < n
    requires loser[a].src == q && loser[b].src == q
    ensures a == b
  {
    hide LeafOf;
    if a != b {
      var x := LoserChild(a, q, n, win, loser, curr);
      var y := LoserChild(b, q, n, win, loser, curr);
      var leaf := LeafOf(q, n);
      PathIsChain(x, y, leaf);
      if Under(x, y) && x != y {
        WonBelow(x, y, q, n, win, loser, curr);
      } else if Under(y, x) && x != y {
        WonBelow(y, x, q, n, win, loser, curr);
      }
    }
  }

  lemma LoserChild<U>(a: nat, q: nat, n: nat, win: seq<nat>, loser: seq<Event<U>>, curr: seq<Event<U>>) returns (x: nat)
    requires Tournament(n, win, loser, curr) && 1 <= a < n && q < n && loser[a].src == q
    ensures x / 2 == a && 2 <= x < 2 * n && win[x] == q && win[a] != q && Under(x, LeafOf(q, n))
  {
    hide LeafOf;
    assert Played(a, n, win, loser, curr);
    DistinctWinners(a, n, win, loser, curr);
    x := if win[2 * a] == q then 2 * a else 2 * a + 1;
    WinnerBelow(x, n, win, loser, curr);
  }

  lemma WonBelow<U>(x: nat, y: nat, q: nat, n: nat, win: seq<nat>, loser: seq<Event<U>>, curr: seq<Event<U>>)
    requires Tournament(n, win, loser, curr) && 2 <= x < 2 * n && 2 <= y < 2 * n && q < n
    requires win[x] == q && Under(x, y) && x != y && Under(y, LeafOf(q, n))
    ensures win[y / 2] == q
  {
    hide LeafOf;
    UnderParent(y, LeafOf(q, n));
    UnderGrows(x, y / 2);
    WinnerOnPath(x, y / 2, q, n, win, loser, curr);
  }

  lemma PathIsChain(x: nat, y: nat, leaf: nat)
    requires x >= 1 && y >= 1 && Under(x, leaf) && Under(y, leaf)
    ensures Under(x, y) || Under(y, x)
    decreases leaf
  {
    if x != leaf && y != leaf {
      PathIsChain(x, y, leaf / 2);
    }
  }

  /** Each queue that is not the winner is held at exactly one match, and that match is on its path. */
  lemma HeldExactlyOnce<U>(q: nat, n: nat, win: seq<nat>, loser: seq<Event<U>>, curr: seq<Event<U>>) returns (at: nat)
    requires Tournament(n, win, loser, curr) && q < n && q != win[1]
    ensures 1 <= at < n && loser[at] == curr[q] && Under(at, LeafOf(q, n))
    ensures forall v :: 1 <= v < n && loser[v].src == q ==> v == at
  {
    assert win[LeafOf(q, n)] == q;
    hide LeafOf;
    at := LostSomewhere(LeafOf(q, n), q, n, win, loser, curr);
    assert Played(at, n, win, loser, curr);
    forall v | 1 <= v < n && loser[v].src == q
      ensures v == at
    {
      LostOnce(v, at, q, n, win, loser, curr);
    }
  }

  // Replaying the path of the last winner

  /** `loser[y / 2]` is still the winner of the other child of `y / 2`. */
  ghost predicate Awaiting<U>(y: nat, n: nat, win: seq<nat>, loser: seq<Event<U>>, curr: seq<Event<U>>)
    requires 2 <= y < 2 * n && |win| == 2 * n && |loser| == n && |curr| == n
  {
    var l := loser[y / 2].src;
    l < n && loser[y / 2] == curr[l] && l == win[Sibling(y)]
  }

  /**
   The candidate `cand` has won the subtree at `p`; every match off the path from `p` to the root is
   played, the matches on it hold the winner of the other side.
   */
  ghost predicate Replaying<U>(p: nat, cand: Event<U>, n: nat, win: seq<nat>, loser: seq<Event<U>>,
                               curr: seq<Event<U>>) {
    && Shaped(n, win, loser, curr)
    && 1 <= p < 2 * n
    && cand.src == win[p] && cand == curr[win[p]]
    && (forall y :: 2 <= y < 2 * n && Under(y, p) ==> Awaiting(y, n, win, loser, curr))
    && (forall x :: 1 <= x < n && (p == 1 || !Under(x, p / 2)) ==> Played(x, n, win, loser, curr))
  }

  lemma ReplayBegins<U>(w: nat, e: Event<U>, n: nat, win: seq<nat>, loser: seq<Event<U>>, curr: seq<Event<U>>)
    requires Tournament(n, win, loser, curr) && win[1] == w < n && e.src == w
    ensures Replaying(LeafOf(w, n), e, n, win, loser, curr[w := e])
  {
    var leaf := LeafOf(w, n);
    assert win[leaf] == w;
    hide LeafOf;
    forall y | 2 <= y < 2 * n && Under(y, leaf)
      ensures Awaiting(y, n, win, loser, curr[w := e])
    {
      RootAbove(y);
      RootAbove(y / 2);
      UnderParent(y, leaf);
      WinnerOnPath(1, y, w, n, win, loser, curr);
      WinnerOnPath(1, y / 2, w, n, win, loser, curr);
      assert Played(y / 2, n, win, loser, curr);
      DistinctWinners(y / 2, n, win, loser, curr);
    }
    forall x | 1 <= x < n && !Under(x, leaf / 2)
      ensures Played(x, n, win, loser, curr[w := e])
    {
      assert Played(x, n, win, loser, curr);
      OffPath(x, 2 * x, w, leaf, n, win, loser, curr);
      OffPath(x, 2 * x + 1, w, leaf, n, win, loser, curr);
    }
  }

  lemma OffPath<U>(x: nat, c: nat, w: nat, leaf: nat, n: nat, win: seq<nat>, loser: seq<Event<U>>, curr: seq<Event<U>>)
    requires Tournament(n, win, loser, curr) && 1 <= x < n && c / 2 == x && w < n
    requires leaf == LeafOf(w, n) && !Under(x, leaf / 2)
    ensures win[c] != w
  {
    hide LeafOf;
    WinnerBelow(c, n, win, loser, curr);
    if win[c] == w {
      UnderParent(c, leaf);
    }
  }

  /** One match of the replay: the candidate and the stored loser meet at `p / 2`. */
  lemma ReplayStep<U>(p: nat, cand: Event<U>, stored: Event<U>, next: Event<U>, n: nat, win: seq<nat>,
                      loser: seq<Event<U>>, curr: seq<Event<U>>)
    requires Replaying(p, cand, n, win, loser, curr) && p >= 2
    requires (next == cand && stored == loser[p / 2]) || (next == loser[p / 2] && stored == cand)
    requires Leq(next, stored)
    ensures Replaying(p / 2, next, n, win[p / 2 := next.src], loser[p / 2 := stored], curr)
  {
    var v := p / 2;
    assert Awaiting(p, n, win, loser, curr);
    var win', loser' := win[v := next.src], loser[v := stored];
    assert Shaped(n, win', loser', curr) by {
      forall q | 0 <= q < n
        ensures win'[LeafOf(q, n)] == q
      {
        assert LeafOf(q, n) >= n;
      }
    }
    hide LeafOf;
    forall y | 2 <= y < 2 * n && Under(y, v)
      ensures Awaiting(y, n, win', loser', curr)
    {
      UnderGrows(y, v);
      assert Awaiting(y, n, win, loser, curr);
      assert Sibling(y) != v;
    }
    forall x | 1 <= x < n && (v == 1 || !Under(x, v / 2))
      ensures Played(x, n, win', loser', curr)
    {
      if x == v {
        assert p == 2 * v || p == 2 * v + 1;
      } else {
        assert !Under(x, v);
        assert Played(x, n, win, loser, curr);
        assert 2 * x != v && 2 * x + 1 != v;
      }
    }
  }

  // Who wins after a replay

  datatype Tree<U> = Tree(win: seq<nat>, loser: seq<Event<U>>, curr: seq<Event<U>>)

  ghost predicate Finished<U>(n: nat, t: Tree<U>) {
    Tournament(n, t.win, t.loser, t.curr)
  }

  /** The stored event takes the match: it is earlier, or at the same time as a stall. */
  predicate Beats<U>(stored: Event<U>, cand: Event<U>) {
    stored.time < cand.time || (stored.time == cand.time && cand.eventType.Stalled?)
  }

  /** The winner of the match above `y` when `y`'s side was replayed and the other side was not. */
  ghost function MatchWinner<U>(y: nat, n: nat, win: seq<nat>, win': seq<nat>, curr: seq<Event<U>>): (q: nat)
    requires 2 <= y < 2 * n && |win| == 2 * n && |win'| == 2 * n && |curr| == n
    requires win[Sibling(y)] < n && win'[y] < n
    ensures q == win[Sibling(y)] || q == win'[y]
  {
    if Beats(curr[win[Sibling(y)]], curr[win'[y]]) then win[Sibling(y)] else win'[y]
  }

  ghost predicate Between(top: nat, x: nat, leaf: nat)
    requires top >= 1 && x >= 1
  {
    Under(top, x) && Under(x, leaf)
  }

  /** The matches from `leaf` up to `top` have been replayed; no other subtree has a new winner. */
  ghost predicate ReplayedTo<U>(top: nat, leaf: nat, n: nat, win: seq<nat>, win': seq<nat>, curr: seq<Event<U>>)
    requires top >= 1
  {
    && |win| == 2 * n && |win'| == 2 * n && |curr| == n
    && (forall x :: 1 <= x < 2 * n ==> win[x] < n && win'[x] < n)
    && (forall x :: 1 <= x < 2 * n && (x == leaf || !Between(top, x, leaf)) ==> win'[x] == win[x])
    && (forall y :: 2 <= y < 2 * n && Between(top, y, leaf) && y != top ==>
          win'[y / 2] == MatchWinner(y, n, win, win', curr))
  }

  /** One round seen from the tree: the winner enters a new event and the matches on its path are replayed. */
  ghost predicate TreeRound<U>(n: nat, t: Tree<U>, t': Tree<U>)
    requires Finished(n, t)
  {
    var w := t.win[1];
    && Finished(n, t')
    && t'.curr == t.curr[w := t'.curr[w]]
    && ReplayedTo(1, LeafOf(w, n), n, t.win, t'.win, t'.curr)
  }

  ghost predicate TreeRounds<U>(n: nat, ts: seq<Tree<U>>) {
    && ts != []
    && (forall k :: 0 <= k < |ts| ==> Finished(n, ts[k]))
    && (forall k :: 0 <= k < |ts| - 1 ==> TreeRound(n, ts[k], ts[k + 1]))
  }

  lemma ReplayedNothing<U>(leaf: nat, n: nat, win: seq<nat>, curr: seq<Event<U>>)
    requires 1 <= leaf && |win| == 2 * n && |curr| == n && forall x :: 1 <= x < 2 * n ==> win[x] < n
    ensures ReplayedTo(leaf, leaf, n, win, win, curr)
  {
    forall y | 2 <= y < 2 * n && Between(leaf, y, leaf)
      ensures y == leaf
    {
    }
  }

  lemma BetweenParent(p: nat, x: nat, leaf: nat)
    requires p >= 2 && x >= 1 && Under(p, leaf)
    ensures Between(p / 2, p / 2, leaf)
    ensures Between(p, x, leaf) ==> Between(p / 2, x, leaf)
  {
    UnderParent(p, leaf);
    if Between(p, x, leaf) {
      UnderParent(p, x);
    }
  }

  lemma OneSide(p: nat, leaf: nat)
    requires p >= 2 && Under(p, leaf)
    ensures !Under(Sibling(p), leaf)
  {
    if Under(2 * (p / 2), leaf) {
      SiblingsDisjoint(p / 2, leaf);
    }
  }

  lemma BetweenChild(p: nat, y: nat, leaf: nat)
    requires p >= 2 && y >= 2 && Under(p, leaf) && Between(p / 2, y, leaf) && y != p / 2
    ensures Between(p, y, leaf) && y > p / 2 && (y != p ==> y / 2 != p / 2)
  {
    OneSide(p, leaf);
    UnderGrows(p / 2, y);
    UnderChild(p / 2, y);
    if Under(Sibling(p), y) {
      UnderTrans(Sibling(p), y, leaf);
    }
    if y != p {
      UnderGrows(p, y / 2);
    }
  }

  lemma ReplayedFurther<U>(p: nat, leaf: nat, q: nat, n: nat, win: seq<nat>, win': seq<nat>, curr: seq<Event<U>>)
    requires 2 <= p < 2 * n && n <= leaf && Under(p, leaf) && q < n && ReplayedTo(p, leaf, n, win, win', curr)
    requires q == MatchWinner(p, n, win, win', curr)
    ensures ReplayedTo(p / 2, leaf, n, win, win'[p / 2 := q], curr)
  {
    hide Between, Under;
    var v := p / 2;
    var win'' := win'[v := q];
    forall x | 1 <= x < 2 * n && (x == leaf || !Between(v, x, leaf))
      ensures win''[x] == win[x]
    {
      BetweenParent(p, x, leaf);
    }
    forall y | 2 <= y < 2 * n && Between(v, y, leaf) && y != v
      ensures win''[y / 2] == MatchWinner(y, n, win, win'', curr)
    {
      BetweenChild(p, y, leaf);
      MatchWinnerElsewhere(y, v, q, n, win, win', curr);
    }
  }

  lemma MatchWinnerElsewhere<U>(y: nat, v: nat, q: nat, n: nat, win: seq<nat>, win': seq<nat>, curr: seq<Event<U>>)
    requires 2 <= y < 2 * n && |win| == 2 * n && |win'| == 2 * n && |curr| == n && q < n
    requires win[Sibling(y)] < n && win'[y] < n && v < y
    ensures MatchWinner(y, n, win, win'[v := q], curr) == MatchWinner(y, n, win, win', curr)
  {
  }

  /** The match above `p`, as `next` plays it: the stored event wins if it beats the candidate. */
  lemma MatchPlayed<U>(p: nat, leaf: nat, cand: Event<U>, n: nat, before: seq<nat>, win: seq<nat>,
                       loser: seq<Event<U>>, curr: seq<Event<U>>)
    requires Replaying(p, cand, n, win, loser, curr) && 2 <= p && n <= leaf && Under(p, leaf)
    requires ReplayedTo(p, leaf, n, before, win, curr)
    ensures var next := if Beats(loser[p / 2], cand) then loser[p / 2] else cand;
            Under(p / 2, leaf) && ReplayedTo(p / 2, leaf, n, before, win[p / 2 := next.src], curr)
  {
    assert Awaiting(p, n, win, loser, curr);
    assert !Under(p, Sibling(p));
    var next := if Beats(loser[p / 2], cand) then loser[p / 2] else cand;
    UnderParent(p, leaf);
    ReplayedFurther(p, leaf, next.src, n, before, win, curr);
  }

  // The first tournament

  /** The leftmost leaf below node `x`. */
  ghost function Leftmost(x: nat, n: nat): (leaf: nat)
    requires x >= 1 && n >= 1
    ensures Leaves(x, n) != [] && Leaves(x, n)[0] == leaf
    ensures n <= leaf && (x < 2 * n ==> leaf < 2 * n)
    decreases if x < n then n - x else 0
  {
    if x < n then Leftmost(2 * x, n) else x
  }

  /** Every subtree won by its leftmost leaf. */
  ghost function LeftmostWinners(n: nat): (win: seq<nat>)
    requires n >= 2
    ensures |win| == 2 * n
    ensures forall x :: 1 <= x < 2 * n ==> win[x] < n && LeafOf(win[x], n) == Leftmost(x, n)
  {
    seq(2 * n, x requires 0 <= x < 2 * n => if x == 0 then 0 else QueueOf(Leftmost(x, n), n))
  }

  function Placeholder<U>(q: nat): Event<U> {
    Event(0, q, Null)
  }

  lemma LeafInjective(i: nat, j: nat, n: nat)
    requires i < n && j < n && n >= 2 && LeafOf(i, n) == LeafOf(j, n)
    ensures i == j
  {
  }

  /** What the walk says of match `v`: the right subtree starts with the queue after the i-th. */
  lemma WalkMatch(v: nat, n: nat) returns (i: nat)
    requires 1 <= v < n && n >= 2
    ensures i < n - 1 == |InOrder(1, n)| && InOrder(1, n)[i] == v && LeafOf(i + 1, n) == Leftmost(2 * v + 1, n)
  {
    WalkIsPermutation(n);
    LeafNumbers(n);
    assert v in InOrder(1, n);
    i :| 0 <= i < n - 1 && InOrder(1, n)[i] == v;
    hide *;
    WalkSeparatesLeaves(1, n, i);
    SplitRight(v, n, Leaves(1, n)[i], Leaves(1, n)[i + 1]);
  }

  lemma SplitRight(v: nat, n: nat, a: nat, b: nat)
    requires SplitBy(v, n, a, b) && n >= 1
    ensures Leftmost(2 * v + 1, n) == b
  {
  }

  /** Match `v` of the first tournament. */
  lemma FirstMatch<U>(v: nat, n: nat, win: seq<nat>, loser: seq<Event<U>>, curr: seq<Event<U>>)
    requires n >= 2 && |loser| == n && |curr| == n && 1 <= v < n && win == LeftmostWinners(n)
    requires |InOrder(1, n)| == n - 1
    requires forall q :: 0 <= q < n ==> curr[q] == Placeholder(q)
    requires forall i :: 0 <= i < n - 1 ==> InOrder(1, n)[i] < n && loser[InOrder(1, n)[i]] == Placeholder(i + 1)
    ensures Played(v, n, win, loser, curr)
  {
    LeftOfMatch(v, n);
    var i := WalkMatch(v, n);
    hide LeafOf, InOrder, Leaves, LeftmostWinners, Leftmost;
    LeafInjective(i + 1, win[2 * v + 1], n);
    LeafInjective(win[v], win[2 * v], n);
  }

  lemma LeftOfMatch(v: nat, n: nat)
    requires 1 <= v < n
    ensures Leftmost(v, n) == Leftmost(2 * v, n)
  {
  }

  /**
   Storing queue `i + 1` at the i-th match of the left-to-right walk is a finished tournament of
   placeholders, won by queue 0.
   */
  lemma FirstTournament<U>(n: nat, loser: seq<Event<U>>, curr: seq<Event<U>>)
    requires n >= 2 && |loser| == n && |curr| == n
    requires |InOrder(1, n)| == n - 1
    requires forall q :: 0 <= q < n ==> curr[q] == Placeholder(q)
    requires forall i :: 0 <= i < n - 1 ==> InOrder(1, n)[i] < n && loser[InOrder(1, n)[i]] == Placeholder(i + 1)
    ensures Tournament(n, LeftmostWinners(n), loser, curr) && LeftmostWinners(n)[1] == 0
  {
    var win := LeftmostWinners(n);
    LeafNumbers(n);
    LeafInjective(0, win[1], n);
    hide LeafOf, InOrder, Leaves, LeftmostWinners, Played, Leftmost;
    forall q | 0 <= q < n
      ensures win[LeafOf(q, n)] == q
    {
      LeftmostLeaf(q, n);
      LeafInjective(q, win[LeafOf(q, n)], n);
    }
    forall v | 1 <= v < n
      ensures Played(v, n, win, loser, curr)
    {
      FirstMatch(v, n, win, loser, curr);
    }
  }

  lemma LeftmostLeaf(q: nat, n: nat)
    requires q < n && n >= 2
    ensures Leftmost(LeafOf(q, n), n) == LeafOf(q, n)
  {
  }
}
