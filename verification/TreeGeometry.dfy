/**
 The shape of the loser tree: node `x` has children `2x` and `2x + 1`, nodes below `n` are
 matches, nodes `n .. 2n - 1` are the leaves, one per queue, queue `i` at the `i`-th leaf from
 the left.
 */
module TreeGeometry {
  import opened DivMod
  import opened Powers

  /** `node` lies in the subtree whose root is `top`. */
  predicate Under(top: nat, node: nat)
    requires top >= 1
    decreases node
  {
    node == top || (node > top && Under(top, node / 2))
  }

  /** The matches of the subtree at `x`, left to right. */
  ghost function InOrder(x: nat, n: nat): seq<nat>
    requires x >= 1
    decreases if x < n then n - x else 0
  {
    if x >= n then [] else InOrder(2 * x, n) + [x] + InOrder(2 * x + 1, n)
  }

  /** The leaves of the subtree at `x`, left to right. */
  ghost function Leaves(x: nat, n: nat): seq<nat>
    requires x >= 1
    decreases if x < n then n - x else 0
  {
    if x >= n then [x] else Leaves(2 * x, n) + Leaves(2 * x + 1, n)
  }

  /** The matches strictly to the left of the whole subtree at `x`. */
  ghost function Before(x: nat, n: nat): seq<nat>
    requires x >= 1
  {
    if x == 1 then []
    else if x % 2 == 0 then Before(x / 2, n)
    else Before(x / 2, n) + InOrder(x - 1, n) + [x / 2]
  }

  /** Everything visited once the subtree at `x` is finished. */
  ghost function Walked(x: nat, n: nat): seq<nat>
    requires x >= 1
  {
    Before(x, n) + InOrder(x, n)
  }

  // Subtrees

  lemma UnderParent(top: nat, node: nat)
    requires top >= 2 && Under(top, node)
    ensures Under(top / 2, node)
    decreases node
  {
    if node != top {
      UnderParent(top, node / 2);
    }
  }

  lemma SiblingsDisjoint(x: nat, node: nat)
    requires x >= 1 && Under(2 * x, node)
    ensures !Under(2 * x + 1, node)
    decreases node
  {
    if node > 2 * x + 1 {
      SiblingsDisjoint(x, node / 2);
    }
  }

  /** A proper descendant lies under exactly one child. */
  lemma UnderChild(x: nat, node: nat)
    requires x >= 1 && Under(x, node) && node != x
    ensures Under(2 * x, node) || Under(2 * x + 1, node)
    decreases node
  {
    if node / 2 != x {
      UnderChild(x, node / 2);
    }
  }

  lemma UnderTrans(a: nat, b: nat, c: nat)
    requires a >= 1 && b >= 1 && Under(a, b) && Under(b, c)
    ensures Under(a, c)
    decreases c
  {
    if c != b {
      UnderTrans(a, b, c / 2);
    }
  }

  lemma RootAbove(node: nat)
    requires node >= 1
    ensures Under(1, node)
  {
    if node > 1 {
      RootAbove(node / 2);
    }
  }

  // The in-order walk

  lemma {:induction false} InOrderMembers(x: nat, n: nat, y: nat)
    requires x >= 1
    ensures y in InOrder(x, n) <==> y < n && Under(x, y)
    decreases if x < n then n - x else 0
  {
    if x < n {
      InOrderMembers(2 * x, n, y);
      InOrderMembers(2 * x + 1, n, y);
      if Under(x, y) && y != x {
        UnderChild(x, y);
      }
      if Under(2 * x, y) {
        UnderParent(2 * x, y);
      }
      if Under(2 * x + 1, y) {
        UnderParent(2 * x + 1, y);
      }
    }
  }

  lemma {:induction false} BeforeOutside(x: nat, n: nat, y: nat)
    requires x >= 1 && y in Before(x, n)
    ensures !Under(x, y)
    decreases x
  {
    if y in Before(x / 2, n) {
      BeforeOutside(x / 2, n, y);
      if Under(x, y) {
        UnderParent(x, y);
      }
    } else if y in InOrder(x - 1, n) {
      InOrderMembers(x - 1, n, y);
      SiblingsDisjoint(x / 2, y);
    }
  }

  /** What lies left of the two children, and of everything after the parent's subtree. */
  lemma BeforeChildren(m: nat, n: nat)
    requires 1 <= m < n
    ensures Before(2 * m, n) == Before(m, n)
    ensures Before(2 * m + 1, n) == Walked(2 * m, n) + [m]
    ensures Walked(2 * m, n) <= Walked(m, n)
    ensures Walked(2 * m + 1, n) == Walked(m, n)
  {
    var l, r := InOrder(2 * m, n), InOrder(2 * m + 1, n);
    assert InOrder(m, n) == l + [m] + r;
    assert Before(m, n) + (l + [m] + r) == (Before(m, n) + l) + ([m] + r);
    assert Before(m, n) + (l + [m] + r) == (Before(m, n) + l + [m]) + r;
  }

  lemma {:induction false} BeforePrefix(x: nat, n: nat)
    requires x == 1 || (2 <= x && x / 2 < n)
    ensures Walked(x, n) <= InOrder(1, n)
    decreases x
  {
    if x == 1 {
      assert Walked(x, n) == InOrder(1, n);
    } else {
      BeforePrefix(x / 2, n);
      BeforeChildren(x / 2, n);
    }
  }

  lemma {:induction false} LeftSpine(k: nat, n: nat)
    ensures Before(Pow2(k), n) == []
  {
    if k > 0 {
      assert Pow2(k) == 2 * Pow2(k - 1);
      LeftSpine(k - 1, n);
      assert Before(2 * Pow2(k - 1), n) == Before(Pow2(k - 1), n);
    }
  }

  lemma {:induction false} InOrderDistinct(x: nat, n: nat)
    requires x >= 1
    ensures forall i, j :: 0 <= i < j < |InOrder(x, n)| ==> InOrder(x, n)[i] != InOrder(x, n)[j]
    decreases if x < n then n - x else 0
  {
    if x < n {
      var l, r := InOrder(2 * x, n), InOrder(2 * x + 1, n);
      InOrderDistinct(2 * x, n);
      InOrderDistinct(2 * x + 1, n);
      forall y | y in l
        ensures y != x && y !in r
      {
        InOrderMembers(2 * x, n, y);
        InOrderMembers(2 * x + 1, n, y);
        SiblingsDisjoint(x, y);
      }
      forall y | y in r
        ensures y != x
      {
        InOrderMembers(2 * x + 1, n, y);
      }
      var s := InOrder(x, n);
      forall i, j | 0 <= i < j < |s|
        ensures s[i] != s[j]
      {
        if i < |l| && j > |l| {
          assert s[i] in l && s[j] in r;
        } else if i < |l| {
          assert s[i] in l;
        } else if i == |l| {
          assert s[j] in r;
        }
      }
    }
  }

  lemma {:induction false} LeavesCount(x: nat, n: nat)
    requires x >= 1
    ensures |Leaves(x, n)| == |InOrder(x, n)| + 1
    decreases if x < n then n - x else 0
  {
    if x < n {
      LeavesCount(2 * x, n);
      LeavesCount(2 * x + 1, n);
    }
  }

  lemma {:induction false} LeavesUnder(x: nat, n: nat, i: nat)
    requires x >= 1 && i < |Leaves(x, n)|
    ensures Under(x, Leaves(x, n)[i]) && n <= Leaves(x, n)[i]
    ensures x < n ==> Leaves(x, n)[i] < 2 * n
    decreases if x < n then n - x else 0
  {
    if x < n {
      var l := |Leaves(2 * x, n)|;
      if i < l {
        LeavesUnder(2 * x, n, i);
        UnderParent(2 * x, Leaves(x, n)[i]);
      } else {
        LeavesUnder(2 * x + 1, n, i - l);
        UnderParent(2 * x + 1, Leaves(x, n)[i]);
      }
    }
  }

  // Where the leaves are

  function Range(lo: nat, hi: nat): (r: seq<nat>)
    ensures |r| == if lo <= hi then hi - lo else 0
    ensures forall i :: 0 <= i < |r| ==> r[i] == lo + i
  {
    if hi <= lo then [] else seq(hi - lo, i requires 0 <= i => lo + i)
  }

  /** Existing leaves below a node whose last-layer span is `lo .. hi`: last layer first, then the layer above. */
  ghost function SpanLeaves(lo: nat, hi: nat, n: nat): seq<nat> {
    Range(lo, if hi < 2 * n then hi else 2 * n) + Range((if lo > 2 * n then lo else 2 * n) / 2, hi / 2)
  }

  lemma SpanSplit(lo: nat, mid: nat, hi: nat, n: nat)
    requires lo <= mid <= hi && lo % 2 == 0 && mid % 2 == 0
    ensures SpanLeaves(lo, hi, n) == SpanLeaves(lo, mid, n) + SpanLeaves(mid, hi, n)
  {
  }

  /** The leftmost position `h` layers below node `x`. */
  ghost function FirstBelow(x: nat, h: nat): nat
    decreases h
  {
    if h == 0 then x else FirstBelow(2 * x, h - 1)
  }

  lemma {:induction false} FirstBelowFacts(x: nat, h: nat)
    ensures FirstBelow(x, h) <= FirstBelow(x + 1, h)
    ensures h >= 1 ==> FirstBelow(x, h) % 2 == 0 && FirstBelow(x, h) >= 2 * x
    decreases h
  {
    if h >= 1 {
      FirstBelowFacts(2 * x, h - 1);
      FirstBelowFacts(2 * x + 1, h - 1);
    }
  }

  lemma {:induction false} FirstBelowPow2(k: nat, h: nat)
    requires k >= 1
    ensures FirstBelow(Pow2(k - 1), h) == Pow2(k - 1 + h)
    decreases h
  {
    if h >= 1 {
      FirstBelowPow2(k + 1, h - 1);
    }
  }

  lemma LeavesOfLastSpan(x: nat, n: nat)
    requires x >= 1 && n <= 2 * x
    ensures Leaves(x, n) == SpanLeaves(FirstBelow(x, 1), FirstBelow(x + 1, 1), n)
  {
    assert FirstBelow(x, 1) == 2 * x && FirstBelow(x + 1, 1) == 2 * x + 2;
    if x < n {
      assert Leaves(2 * x, n) == [2 * x] && Leaves(2 * x + 1, n) == [2 * x + 1];
      assert Leaves(x, n) == [2 * x, 2 * x + 1];
    }
  }

  /** One step down: the spans of the two children make up the span of `x`. */
  lemma SpanChildren(x: nat, n: nat, h: nat)
    requires 1 <= x && h >= 2
    ensures FirstBelow(x, h) == FirstBelow(2 * x, h - 1) <= FirstBelow(2 * x + 1, h - 1)
    ensures FirstBelow(2 * x + 1, h - 1) <= FirstBelow(2 * x + 2, h - 1) == FirstBelow(x + 1, h)
    ensures FirstBelow(2 * x, h - 1) % 2 == 0 && FirstBelow(2 * x + 1, h - 1) % 2 == 0
    ensures FirstBelow(2 * x + 1, h - 2) <= FirstBelow(2 * x + 2, h - 2) == FirstBelow(x + 1, h - 1)
    ensures 2 * (x + 1) <= FirstBelow(x + 1, h - 1)
    ensures x < n ==> Leaves(x, n) == Leaves(2 * x, n) + Leaves(2 * x + 1, n)
  {
    FirstBelowFacts(2 * x, h - 1);
    FirstBelowFacts(2 * x + 1, h - 1);
    FirstBelowFacts(x + 1, h - 1);
    FirstBelowFacts(2 * x + 1, h - 2);
  }

  lemma {:induction false} LeavesOfSpan(x: nat, n: nat, h: nat, half: nat)
    requires x >= 1 && h >= 1
    requires half < n <= 2 * half <= FirstBelow(x, h)
    requires FirstBelow(x + 1, h - 1) <= 2 * half
    ensures Leaves(x, n) == SpanLeaves(FirstBelow(x, h), FirstBelow(x + 1, h), n)
    decreases h
  {
    if h == 1 {
      assert FirstBelow(x, 1) == 2 * x;
      LeavesOfLastSpan(x, n);
    } else {
      hide *;
      SpanChildren(x, n, h);
      LeavesOfSpan(2 * x, n, h - 1, half);
      LeavesOfSpan(2 * x + 1, n, h - 1, half);
      SpanSplit(FirstBelow(x, h), FirstBelow(2 * x + 1, h - 1), FirstBelow(x + 1, h), n);
    }
  }

  /** The leaf of queue `i`: the last layer is filled from the left, the rest sit one layer up. */
  function LeafOf(i: nat, n: nat): (leaf: nat)
    requires i < n && n >= 2
    ensures n <= leaf < 2 * n
  {
    var last := Pow2(CeilLog2(n));
    if last + i < 2 * n then last + i else last + i - n
  }

  /** Queue `i` is the i-th leaf from the left. */
  lemma {:induction false} LeafNumbers(n: nat)
    requires n >= 2
    ensures |Leaves(1, n)| == n
    ensures forall i :: 0 <= i < n ==> Leaves(1, n)[i] == LeafOf(i, n)
  {
    var layers := CeilLog2(n);
    FirstBelowPow2(1, layers);
    FirstBelowPow2(2, layers);
    FirstBelowPow2(2, layers - 1);
    assert Pow2(1) == 2;
    LeavesOfSpan(1, n, layers, Pow2(layers - 1));
  }

  /** The left-to-right walk is a permutation of the matches `1 .. n - 1`. */
  lemma {:induction false} WalkIsPermutation(n: nat)
    requires n >= 2
    ensures |InOrder(1, n)| == n - 1
    ensures forall y :: y in InOrder(1, n) <==> 1 <= y < n
    ensures forall i, j :: 0 <= i < j < n - 1 ==> InOrder(1, n)[i] != InOrder(1, n)[j]
  {
    forall y
      ensures y in InOrder(1, n) <==> 1 <= y < n
    {
      if y in InOrder(1, n) || 1 <= y < n {
        assert y >= 0;
        InOrderMembers(1, n, y);
        if y >= 1 {
          RootAbove(y);
        }
      }
    }
    InOrderDistinct(1, n);
    LeavesCount(1, n);
    LeafNumbers(n);
  }

  /** Match `v` separates two neighbouring leaves: `a` is under its left child, `b` starts its right one. */
  ghost predicate SplitBy(v: nat, n: nat, a: nat, b: nat) {
    && v >= 1
    && Under(2 * v, a)
    && Under(2 * v + 1, b)
    && Leaves(2 * v + 1, n) != []
    && Leaves(2 * v + 1, n)[0] == b
  }

  /**
   The i-th match of the walk is the lowest common ancestor of the i-th and the (i+1)-th leaf:
   the one ends its left subtree, the other begins its right subtree.
   */
  lemma {:induction false} WalkSeparatesLeaves(x: nat, n: nat, i: nat)
    requires x >= 1 && i < |InOrder(x, n)|
    ensures i + 1 < |Leaves(x, n)|
    ensures SplitBy(InOrder(x, n)[i], n, Leaves(x, n)[i], Leaves(x, n)[i + 1])
    decreases if x < n then n - x else 0
  {
    LeavesCount(x, n);
    LeavesCount(2 * x, n);
    LeavesCount(2 * x + 1, n);
    var l, r := InOrder(2 * x, n), InOrder(2 * x + 1, n);
    var a, b := Leaves(2 * x, n), Leaves(2 * x + 1, n);
    assert InOrder(x, n) == l + [x] + r && Leaves(x, n) == a + b;
    if i < |l| {
      WalkSeparatesLeaves(2 * x, n, i);
      assert (l + [x] + r)[i] == l[i] && (a + b)[i] == a[i] && (a + b)[i + 1] == a[i + 1];
    } else if i == |l| {
      LeavesUnder(2 * x, n, |l|);
      LeavesUnder(2 * x + 1, n, 0);
      assert (l + [x] + r)[i] == x && (a + b)[i] == a[i] && (a + b)[i + 1] == b[0];
    } else {
      var j := i - |l| - 1;
      WalkSeparatesLeaves(2 * x + 1, n, j);
      assert (l + [x] + r)[i] == r[j] && (a + b)[i] == b[j] && (a + b)[i + 1] == b[j + 1];
    }
  }

  /** A finished subtree whose parent is already marked is a right child, and finishes the parent's. */
  lemma ClimbMarked(m: nat, n: nat)
    requires 1 <= m < n
    ensures m !in Walked(2 * m, n)
    ensures m in Before(2 * m + 1, n)
  {
    BeforeChildren(m, n);
    if m in Before(2 * m, n) {
      BeforeOutside(m, n, m);
    }
    InOrderMembers(2 * m, n, m);
  }

  /** Between two turns of the walk: the subtree at `cur` is finished, or only its left part and itself. */
  ghost predicate WalkState(indices: seq<nat>, cur: nat, goingUp: bool, n: nat) {
    && 1 <= cur < n
    && if goingUp then indices == Walked(cur, n)
       else 2 * cur < n && indices == Walked(2 * cur, n) + [cur]
  }

  /** The match without a right child match (there is one, numbered `half`, when `n` is odd) has been passed. */
  ghost predicate Skipped(indices: seq<nat>, cur: nat, goingUp: bool, half: nat) {
    half > 0 && half in indices && (cur != half || goingUp)
  }

  lemma EmptyRight(x: nat, n: nat)
    requires 1 <= x < n <= 2 * x + 1
    ensures Walked(2 * x, n) + [x] == Walked(x, n)
  {
    BeforeChildren(x, n);
  }

  lemma WalkedSoFar(indices: seq<nat>, cur: nat, goingUp: bool, n: nat)
    requires WalkState(indices, cur, goingUp, n)
    ensures indices <= InOrder(1, n)
  {
    BeforePrefix(cur, n);
    if !goingUp {
      BeforeChildren(cur, n);
      assert Walked(cur, n) == indices + InOrder(2 * cur + 1, n);
    }
  }

  /** The parent of a finished subtree is unmarked below a left child; below a right child it is finished too. */
  lemma ClimbStep(done: nat, n: nat)
    requires 2 <= done < n
    ensures if done / 2 in Walked(done, n) then Walked(done / 2, n) == Walked(done, n) else 2 * (done / 2) == done
  {
    hide Before, InOrder;
    ClimbMarked(done / 2, n);
    BeforeChildren(done / 2, n);
  }

  /** From a finished subtree, climbs to the first ancestor that is not marked yet; 0 above the root. */
  method Climb(from: nat, visited: seq<bool>, ghost indices: seq<nat>, n: nat) returns (cur: nat)
    requires 1 <= from < n && indices == Walked(from, n)
    requires |visited| == n + 1 && !visited[0]
    requires forall x :: 0 <= x <= n ==> (visited[x] <==> x in indices)
    ensures cur < n && cur !in indices
    ensures if cur == 0 then indices == InOrder(1, n) else 2 * cur < n && indices == Walked(2 * cur, n)
  {
    cur := from;
    ghost var done := from;
    InOrderMembers(from, n, from);
    assert Walked(1, n) == InOrder(1, n);
    hide *;
    while visited[cur]
      invariant 1 <= done < n && indices == Walked(done, n)
      invariant cur == done / 2 || (cur == done && visited[cur])
      decreases cur
    {
      if cur != done {
        ClimbStep(done, n);
        done := cur;
      }
      cur := cur / 2;
    }
    if done > 1 {
      ClimbStep(done, n);
    }
  }

  /** The leftmost match of the subtree at `top`. */
  method Dive(top: nat, ghost indices: seq<nat>, n: nat) returns (cur: nat)
    requires 1 <= top < n && indices == Before(top, n)
    ensures 1 <= cur < n <= 2 * cur && cur !in indices
    ensures indices + [cur] == Walked(cur, n)
  {
    cur := top;
    while cur * 2 < n
      invariant 1 <= cur < n && indices == Before(cur, n)
      decreases n - cur
    {
      BeforeChildren(cur, n);
      cur := cur * 2;
    }
    if cur in indices {
      BeforeOutside(cur, n, cur);
    }
    assert InOrder(2 * cur, n) == [] && InOrder(2 * cur + 1, n) == [];
    assert InOrder(cur, n) == [cur];
  }

  lemma WalkStateBounds(indices: seq<nat>, cur: nat, goingUp: bool, n: nat)
    requires WalkState(indices, cur, goingUp, n)
    ensures 1 <= cur < n
    ensures if goingUp then indices == Walked(cur, n) else 2 * cur < n && indices == Walked(2 * cur, n) + [cur]
  {
  }

  lemma AllSkipped(indices: seq<nat>, half: nat, n: nat)
    requires n >= 2 && half == if n % 2 == 1 then n / 2 else 0
    requires half > 0 && indices == InOrder(1, n) + [0]
    ensures Skipped(indices, 0, false, half)
  {
    WalkIsPermutation(n);
    assert half in InOrder(1, n);
  }

  lemma WalkStarts(n: nat)
    requires n >= 2
    ensures CeilLog2(n) >= 1
    ensures var cur := Pow2(CeilLog2(n) - 1);
            var half := if n % 2 == 1 then n / 2 else 0;
            WalkState([cur], cur, true, n) && !Skipped([cur], cur, true, half) && 1 <= cur < n
  {
    var layers := CeilLog2(n);
    var cur := Pow2(layers - 1);
    LeftSpine(layers - 1, n);
    assert Pow2(layers) == 2 * cur;
    assert InOrder(2 * cur, n) == [] && InOrder(2 * cur + 1, n) == [];
    assert InOrder(cur, n) == [cur];
  }

  lemma UpTurn(indices: seq<nat>, from: nat, cur: nat, half: nat, n: nat)
    requires cur !in indices && (half > 0 ==> n == 2 * half + 1)
    requires cur > 0 ==> 2 * cur < n && indices == Walked(2 * cur, n)
    ensures cur > 0 ==> WalkState(indices + [cur], cur, false, n)
    ensures Skipped(indices + [cur], cur, false, half) == Skipped(indices, from, true, half)
  {
  }

  lemma DownTurn(indices: seq<nat>, from: nat, cur: nat, half: nat, n: nat)
    requires 2 * from + 1 < n && 1 <= cur < n <= 2 * cur && (half > 0 ==> n == 2 * half + 1)
    requires indices + [cur] == Walked(cur, n)
    ensures WalkState(indices + [cur], cur, true, n)
    ensures Skipped(indices + [cur], cur, true, half) == Skipped(indices, from, false, half)
  {
  }

  lemma SkipTurn(indices: seq<nat>, cur: nat, half: nat, n: nat)
    requires WalkState(indices, cur, false, n) && n <= 2 * cur + 1
    requires half == if n % 2 == 1 then n / 2 else 0
    ensures WalkState(indices, cur, true, n)
    ensures !Skipped(indices, cur, false, half) && Skipped(indices, cur, true, half)
  {
    EmptyRight(cur, n);
    assert cur in Walked(2 * cur, n) + [cur];
  }

  /**
   Walks the matches left to right by marking visited nodes, climbing to the first unmarked
   ancestor and then diving to the leftmost match of the right subtree.
   */
  method LtrWalk(n: nat) returns (indices: seq<nat>)
    requires n >= 2
    ensures indices == InOrder(1, n)
  {
    hide *;
    WalkIsPermutation(n);
    WalkStarts(n);
    var nLayers := CeilLog2(n);
    var visited := seq(n + 1, _ => false);
    var cur := Pow2(nLayers - 1);
    indices := [cur];
    visited := visited[cur := true];
    var goingUp := true;
    ghost var half := if n % 2 == 1 then n / 2 else 0;
    ghost var skips := 0;

    for i := 0 to n - 1
      invariant |visited| == n + 1
      invariant forall x :: 0 <= x <= n ==> (visited[x] <==> x in indices)
      invariant |indices| == 1 + i - skips
      invariant visited[0] ==> indices == InOrder(1, n) + [0]
      invariant !visited[0] ==> WalkState(indices, cur, goingUp, n)
      invariant skips == if Skipped(indices, cur, goingUp, half) then 1 else 0
      invariant visited[0] && half > 0 ==> skips == 1
    {
      WalkStateBounds(indices, cur, goingUp, n);
      if goingUp {
        ghost var from := cur;
        cur := Climb(cur, visited, indices, n);
        UpTurn(indices, from, cur, half, n);
        if cur == 0 && half > 0 {
          AllSkipped(indices + [cur], half, n);
        }
      } else {
        if cur * 2 + 1 >= n {
          goingUp := true;
          skips := skips + 1;
          SkipTurn(indices, cur, half, n);
          continue;
        }
        ghost var from := cur;
        BeforeChildren(cur, n);
        cur := cur * 2 + 1;
        cur := Dive(cur, indices, n);
        DownTurn(indices, from, cur, half, n);
      }
      indices := indices + [cur];
      visited := visited[cur := true];
      goingUp := !goingUp;
    }

    if visited[0] {
      indices := indices[..|indices| - 1];
    } else {
      WalkedSoFar(indices, cur, goingUp, n);
    }
  }

  /** The engine's expression for half the last layer: `n` itself on powers of two, else what exceeds the full layer. */
  lemma LastLayerHalf(n: nat, full: nat)
    requires 2 <= full <= n < 2 * full
    ensures (n + full - 1) % full + 1 == if n == full then full else n - full
  {
    if n == full {
      DivModUnique(n + full - 1, full, 1, full - 1);
    } else {
      DivModUnique(n + full - 1, full, 2, n - full - 1);
    }
  }

  lemma PathFacts(n: nat)
    requires n >= 2
    ensures var full := Pow2(FloorLog2(n)); 2 <= full <= n < 2 * full && FloorLog2(n) >= 1
  {
  }

  /** The node at `level` above last-layer position `v`, and its virtual position after the skipped leaves. */
  function LevelIndex(v: nat, level: nat, nLayers: nat): int
    requires level < nLayers
  {
    Pow2(level) + v / Pow2(nLayers - level)
  }

  function VirtualPosition(i: nat, lastLayerMax: nat, offset: nat): nat
    requires offset <= lastLayerMax
  {
    if i > lastLayerMax then (i - offset) * 2 else i
  }

  /** On a power of two every leaf's parent is one level up. */
  lemma PathLevelsFull(n: nat, i: nat, layers: nat)
    requires n >= 2 && i < n && layers >= 1 && n == Pow2(layers) && layers == CeilLog2(n)
    ensures LevelIndex(i, layers - 1, layers) == LeafOf(i, n) / 2 < n
  {
    var half := Pow2(layers - 1);
    assert n == 2 * half && Pow2(1) == 2;
    assert LeafOf(i, n) == n + i;
    assert LevelIndex(i, layers - 1, layers) == half + i / 2;
    hide *;
  }

  /** Otherwise the first `2 * rest` leaves are on the last layer and the others one layer up. */
  lemma PathLevelsPartial(n: nat, i: nat, rest: nat, layers: nat)
    requires i < n && layers >= 2 && n == Pow2(layers - 1) + rest && 0 < rest < Pow2(layers - 1)
    requires layers == CeilLog2(n)
    ensures var v := VirtualPosition(i, 2 * rest, rest);
            var low := LevelIndex(v, layers - 1, layers);
            if low < n then low == LeafOf(i, n) / 2
            else LevelIndex(v, layers - 2, layers) == LeafOf(i, n) / 2 < n
  {
    var full, quarter := Pow2(layers - 1), Pow2(layers - 2);
    var v := VirtualPosition(i, 2 * rest, rest);
    assert v == if i > 2 * rest then (i - rest) * 2 else i;
    assert Pow2(layers) == 2 * full && full == 2 * quarter && Pow2(1) == 2 && Pow2(2) == 4;
    assert LeafOf(i, n) == if i < 2 * rest then 2 * full + i else full + i - rest;
    assert LevelIndex(v, layers - 1, layers) == full + v / 2;
    assert LevelIndex(v, layers - 2, layers) == quarter + v / 4;
    hide *;
    if i >= 2 * rest {
      assert v == 2 * (i - rest);
    }
  }

  /** Which of the two candidate levels holds the parent of leaf `i`. */
  lemma PathLevels(n: nat, i: nat, rest: nat)
    requires n >= 2 && i < n
    requires var full := Pow2(FloorLog2(n)); rest == if n == full then full else n - full
    ensures var layers := CeilLog2(n);
            var v := VirtualPosition(i, 2 * rest, rest);
            layers >= 1 &&
            var low := LevelIndex(v, layers - 1, layers);
            if low < n then low == LeafOf(i, n) / 2
            else layers >= 2 && LevelIndex(v, layers - 2, layers) == LeafOf(i, n) / 2 < n
  {
    hide Pow2, LevelIndex, LeafOf;
    LogsMeet(n);
    PathFacts(n);
    var layers, full := CeilLog2(n), Pow2(FloorLog2(n));
    if n == full {
      PathLevelsFull(n, i, layers);
    } else {
      PathLevelsPartial(n, i, rest, layers);
    }
  }

  /** For each queue, the match its events enter the tournament at. */
  method MergerPaths(n: nat) returns (paths: seq<nat>)
    requires n >= 2
    ensures |paths| == |Leaves(1, n)| == n
    ensures forall i :: 0 <= i < n ==> paths[i] == Leaves(1, n)[i] / 2
  {
    hide *;
    LeafNumbers(n);
    PathFacts(n);
    var nLayers := CeilLog2(n);
    var largestFullLayer := Pow2(FloorLog2(n));
    var lastLayerMax := ((n + largestFullLayer - 1) % largestFullLayer + 1) * 2;
    var offset := (lastLayerMax + 1) / 2;
    LastLayerHalf(n, largestFullLayer);
    paths := [];
    for ix := 0 to n
      invariant |paths| == ix
      invariant forall i :: 0 <= i < ix ==> paths[i] == LeafOf(i, n) / 2
    {
      PathLevels(n, ix, offset);
      var vIx := VirtualPosition(ix, lastLayerMax, offset);
      var index := 0;
      for level := nLayers downto 0
        invariant level >= nLayers - 1
        invariant level == nLayers - 1 ==> LevelIndex(vIx, level, nLayers) >= n
      {
        index := LevelIndex(vIx, level, nLayers);
        if index >= n {
          continue;
        }
        break;
      }
      paths := paths + [index];
    }
  }
}
