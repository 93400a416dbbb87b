/** The worker pool: workers move actors among shared deques until every actor is done. */
module Workers {
  import opened DivMod

  /**
   Where a worker stands: about to lock a deque, holding an actor, with an actor's result noted but not
   yet counted, without a task, or returned.
   */
  datatype Activity = Fetching | Holding(actor: nat) | Counting(actor: nat) | Idle | Returned

  /** `counts` pairs each finished actor with its result. */
  datatype Worker<R> = Worker(activity: Activity, counts: seq<(nat, R)>)

  datatype Pool<R> = Pool(actors: nat, deques: seq<seq<nat>>, workers: seq<Worker<R>>, counter: nat)

  // Steps

  ghost predicate Active<R>(s: Pool<R>, w: nat) {
    w < |s.workers|
  }

  ghost function SetActivity<R>(s: Pool<R>, w: nat, a: Activity): Pool<R>
    requires w < |s.workers|
  {
    s.(workers := s.workers[w := s.workers[w].(activity := a)])
  }

  /** Locks deque `h` and pops its front. */
  ghost predicate Fetch<R>(s: Pool<R>, s': Pool<R>, w: nat, h: nat) {
    && Active(s, w) && h < |s.deques| && s.workers[w].activity.Fetching?
    && if s.deques[h] == [] then s' == SetActivity(s, w, Idle)
       else s' == SetActivity(s, w, Holding(s.deques[h][0])).(deques := s.deques[h := s.deques[h][1..]])
  }

  /** The actor has to be continued: it goes to the back of deque `h`, whose front is taken under the same lock. */
  ghost predicate Continue<R>(s: Pool<R>, s': Pool<R>, w: nat, h: nat) {
    && Active(s, w) && h < |s.deques| && s.workers[w].activity.Holding?
    && var q := s.deques[h] + [s.workers[w].activity.actor];
       s' == SetActivity(s, w, Holding(q[0])).(deques := s.deques[h := q[1..]])
  }

  /** The actor is done: its result is kept. */
  ghost predicate Finish<R>(s: Pool<R>, s': Pool<R>, w: nat, r: R) {
    && Active(s, w) && s.workers[w].activity.Holding?
    && var a := s.workers[w].activity.actor;
       s' == s.(workers := s.workers[w := Worker(Counting(a), s.workers[w].counts + [(a, r)])])
  }

  ghost predicate Increment<R>(s: Pool<R>, s': Pool<R>, w: nat) {
    && Active(s, w) && s.workers[w].activity.Counting?
    && s' == SetActivity(s, w, Fetching).(counter := s.counter + 1)
  }

  /** Without a task, a worker returns when the counter has reached the number of actors. */
  ghost predicate Check<R>(s: Pool<R>, s': Pool<R>, w: nat) {
    && Active(s, w) && s.workers[w].activity.Idle?
    && s' == SetActivity(s, w, if s.counter == s.actors then Returned else Fetching)
  }

  ghost predicate Step<R(!new)>(s: Pool<R>, s': Pool<R>) {
    exists w: nat :: WorkerStep(s, s', w)
  }

  ghost predicate WorkerStep<R(!new)>(s: Pool<R>, s': Pool<R>, w: nat) {
    || (exists h: nat :: Fetch(s, s', w, h))
    || (exists h: nat :: Continue(s, s', w, h))
    || (exists r :: Finish(s, s', w, r))
    || Increment(s, s', w)
    || Check(s, s', w)
  }

  // Accounting

  ghost function Sum(ms: seq<multiset<nat>>): multiset<nat> {
    if ms == [] then multiset{} else ms[0] + Sum(ms[1..])
  }

  lemma Exchange(a: multiset<nat>, b: multiset<nat>, rest: multiset<nat>)
    ensures (b + rest) + a == (a + rest) + b
    ensures |b + rest| + |a| == |a + rest| + |b|
  {
  }

  lemma Carry(first: multiset<nat>, sum': multiset<nat>, sum: multiset<nat>, before: multiset<nat>,
              after: multiset<nat>)
    requires sum' + before == sum + after && |sum'| + |before| == |sum| + |after|
    ensures (first + sum') + before == (first + sum) + after
    ensures |first + sum'| + |before| == |first + sum| + |after|
  {
    assert (first + sum') + before == first + (sum' + before);
    assert (first + sum) + after == first + (sum + after);
  }

  lemma {:induction false} SumUpdate(ms: seq<multiset<nat>>, i: nat, m: multiset<nat>)
    requires i < |ms|
    ensures Sum(ms[i := m]) + ms[i] == Sum(ms) + m
    ensures |Sum(ms[i := m])| + |ms[i]| == |Sum(ms)| + |m|
  {
    if i == 0 {
      assert ms[i := m][1..] == ms[1..];
      Exchange(ms[0], m, Sum(ms[1..]));
    } else {
      SumUpdate(ms[1..], i - 1, m);
      assert ms[i := m][1..] == ms[1..][i - 1 := m];
      Carry(ms[0], Sum(ms[1..][i - 1 := m]), Sum(ms[1..]), ms[i], m);
    }
  }

  lemma {:induction false} SumHas(ms: seq<multiset<nat>>, i: nat)
    requires i < |ms|
    ensures ms[i] <= Sum(ms)
  {
    if i > 0 {
      SumHas(ms[1..], i - 1);
    }
  }

  lemma {:induction false} SumHasTwo(ms: seq<multiset<nat>>, i: nat, j: nat)
    requires i < j < |ms|
    ensures ms[i] + ms[j] <= Sum(ms)
  {
    if i > 0 {
      SumHasTwo(ms[1..], i - 1, j - 1);
    } else {
      SumHas(ms[1..], j - 1);
    }
  }

  lemma {:induction false} SumEmpty(ms: seq<multiset<nat>>)
    requires forall i :: 0 <= i < |ms| ==> ms[i] == multiset{}
    ensures Sum(ms) == multiset{}
  {
    if ms != [] {
      SumEmpty(ms[1..]);
    }
  }

  ghost function Held<R>(w: Worker<R>): multiset<nat> {
    if w.activity.Holding? then multiset{w.activity.actor} else multiset{}
  }

  ghost function Uncounted<R>(w: Worker<R>): multiset<nat> {
    if w.activity.Counting? then multiset{w.activity.actor} else multiset{}
  }

  ghost function Actors<R>(counts: seq<(nat, R)>): (ids: seq<nat>)
    ensures |ids| == |counts| && forall i :: 0 <= i < |counts| ==> ids[i] == counts[i].0
  {
    seq(|counts|, i requires 0 <= i < |counts| => counts[i].0)
  }

  ghost function Finished<R>(w: Worker<R>): multiset<nat> { multiset(Actors(w.counts)) }

  // Per deque, and per worker

  ghost function QueuedIn(deques: seq<seq<nat>>): (ms: seq<multiset<nat>>)
    ensures |ms| == |deques| && forall i :: 0 <= i < |ms| ==> ms[i] == multiset(deques[i])
  {
    seq(|deques|, i requires 0 <= i < |deques| => multiset(deques[i]))
  }

  ghost function HeldBy<R>(workers: seq<Worker<R>>): (ms: seq<multiset<nat>>)
    ensures |ms| == |workers| && forall i :: 0 <= i < |ms| ==> ms[i] == Held(workers[i])
  {
    seq(|workers|, i requires 0 <= i < |workers| => Held(workers[i]))
  }

  ghost function UncountedBy<R>(workers: seq<Worker<R>>): (ms: seq<multiset<nat>>)
    ensures |ms| == |workers| && forall i :: 0 <= i < |ms| ==> ms[i] == Uncounted(workers[i])
  {
    seq(|workers|, i requires 0 <= i < |workers| => Uncounted(workers[i]))
  }

  ghost function FinishedBy<R>(workers: seq<Worker<R>>): (ms: seq<multiset<nat>>)
    ensures |ms| == |workers| && forall i :: 0 <= i < |ms| ==> ms[i] == Finished(workers[i])
  {
    seq(|workers|, i requires 0 <= i < |workers| => Finished(workers[i]))
  }

  /** The actors `0 .. n`, each once. */
  ghost function Everyone(n: nat): (m: multiset<nat>)
    ensures |m| == n && forall a: nat :: m[a] == if a < n then 1 else 0
  {
    if n == 0 then multiset{} else Everyone(n - 1) + multiset{n - 1}
  }

  ghost function Places<R>(s: Pool<R>): multiset<nat> {
    Sum(QueuedIn(s.deques)) + Sum(HeldBy(s.workers)) + Sum(FinishedBy(s.workers))
  }

  /** Every actor is in exactly one place, and the counter lags behind only by results noted but not counted. */
  ghost predicate Inv<R>(s: Pool<R>) {
    && Places(s) == Everyone(s.actors)
    && s.counter + |Sum(UncountedBy(s.workers))| == |Sum(FinishedBy(s.workers))|
    && forall w :: 0 <= w < |s.workers| && s.workers[w].activity.Returned? ==> s.counter == s.actors
  }

  lemma ActorsSnoc<R>(counts: seq<(nat, R)>, a: nat, r: R)
    ensures multiset(Actors(counts + [(a, r)])) == multiset(Actors(counts)) + multiset{a}
  {
    assert Actors(counts + [(a, r)]) == Actors(counts) + [a];
  }

  lemma WorkerTotals<R>(s: Pool<R>, w: nat, x: Worker<R>)
    requires w < |s.workers|
    ensures var ws := s.workers[w := x];
      && Sum(HeldBy(ws)) + Held(s.workers[w]) == Sum(HeldBy(s.workers)) + Held(x)
      && |Sum(UncountedBy(ws))| + |Uncounted(s.workers[w])| == |Sum(UncountedBy(s.workers))| + |Uncounted(x)|
      && Sum(FinishedBy(ws)) + Finished(s.workers[w]) == Sum(FinishedBy(s.workers)) + Finished(x)
      && |Sum(FinishedBy(ws))| + |Finished(s.workers[w])| == |Sum(FinishedBy(s.workers))| + |Finished(x)|
  {
    var ws := s.workers[w := x];
    assert HeldBy(ws) == HeldBy(s.workers)[w := Held(x)];
    assert UncountedBy(ws) == UncountedBy(s.workers)[w := Uncounted(x)];
    assert FinishedBy(ws) == FinishedBy(s.workers)[w := Finished(x)];
    SumUpdate(HeldBy(s.workers), w, Held(x));
    SumUpdate(UncountedBy(s.workers), w, Uncounted(x));
    SumUpdate(FinishedBy(s.workers), w, Finished(x));
  }

  lemma DequeTotal<R>(s: Pool<R>, h: nat, q: seq<nat>)
    requires h < |s.deques|
    ensures Sum(QueuedIn(s.deques[h := q])) + multiset(s.deques[h]) == Sum(QueuedIn(s.deques)) + multiset(q)
  {
    assert QueuedIn(s.deques[h := q]) == QueuedIn(s.deques)[h := multiset(q)];
    SumUpdate(QueuedIn(s.deques), h, multiset(q));
  }

  lemma CounterBound<R>(s: Pool<R>)
    requires Inv(s)
    ensures s.counter <= s.actors
    ensures s.counter == s.actors ==> Sum(FinishedBy(s.workers)) == Everyone(s.actors)
    ensures s.counter == s.actors ==> Sum(QueuedIn(s.deques)) == multiset{} && Sum(HeldBy(s.workers)) == multiset{}
    ensures s.counter == s.actors ==> Sum(UncountedBy(s.workers)) == multiset{}
  {
    var q, h, f := Sum(QueuedIn(s.deques)), Sum(HeldBy(s.workers)), Sum(FinishedBy(s.workers));
    assert |Places(s)| == |q| + |h| + |f|;
  }

  /** What leaves one place arrives at another. */
  lemma Balance(q: multiset<nat>, h: multiset<nat>, f: multiset<nat>, q': multiset<nat>, h': multiset<nat>,
                f': multiset<nat>,
                dq: multiset<nat>, dh: multiset<nat>, df: multiset<nat>, eq: multiset<nat>, eh: multiset<nat>,
                ef: multiset<nat>)
    requires q' + dq == q + eq && h' + dh == h + eh && f' + df == f + ef
    requires dq + dh + df == eq + eh + ef
    ensures q' + h' + f' == q + h + f
  {
    forall a: nat
      ensures (q' + h' + f')[a] == (q + h + f)[a]
    {
      assert (q' + dq)[a] == (q + eq)[a] && (h' + dh)[a] == (h + eh)[a] && (f' + df)[a] == (f + ef)[a];
      assert (dq + dh + df)[a] == (eq + eh + ef)[a];
    }
  }

  /** Worker `w` becomes `x` and deque `h` becomes `q`; nothing is lost on the way. */
  lemma MoveKeeps<R>(s: Pool<R>, w: nat, x: Worker<R>, h: nat, q: seq<nat>)
    requires w < |s.workers| && h < |s.deques|
    requires multiset(s.deques[h]) + Held(s.workers[w]) + Finished(s.workers[w]) == multiset(q) + Held(x) + Finished(x)
    ensures Places(s.(workers := s.workers[w := x], deques := s.deques[h := q])) == Places(s)
  {
    hide *;
    WorkerTotals(s, w, x);
    DequeTotal(s, h, q);
    var ws, ds := s.workers[w := x], s.deques[h := q];
    Balance(Sum(QueuedIn(s.deques)), Sum(HeldBy(s.workers)), Sum(FinishedBy(s.workers)),
            Sum(QueuedIn(ds)), Sum(HeldBy(ws)), Sum(FinishedBy(ws)),
            multiset(s.deques[h]), Held(s.workers[w]), Finished(s.workers[w]), multiset(q), Held(x), Finished(x));
    PlacesOf(s);
    PlacesOf(s.(workers := ws, deques := ds));
  }

  lemma PlacesOf<R>(s: Pool<R>)
    ensures Places(s) == Sum(QueuedIn(s.deques)) + Sum(HeldBy(s.workers)) + Sum(FinishedBy(s.workers))
  {
  }

  lemma WorkerKeeps<R>(s: Pool<R>, w: nat, x: Worker<R>)
    requires w < |s.workers| && Held(s.workers[w]) + Finished(s.workers[w]) == Held(x) + Finished(x)
    ensures Places(s.(workers := s.workers[w := x])) == Places(s)
  {
    hide *;
    WorkerTotals(s, w, x);
    var ws := s.workers[w := x];
    var none: multiset<nat> := multiset{};
    AddNone(Held(s.workers[w]), Finished(s.workers[w]));
    AddNone(Held(x), Finished(x));
    assert Sum(QueuedIn(s.deques)) + none == Sum(QueuedIn(s.deques)) + none;
    Balance(Sum(QueuedIn(s.deques)), Sum(HeldBy(s.workers)), Sum(FinishedBy(s.workers)),
            Sum(QueuedIn(s.deques)), Sum(HeldBy(ws)), Sum(FinishedBy(ws)),
            none, Held(s.workers[w]), Finished(s.workers[w]), none, Held(x), Finished(x));
    PlacesOf(s);
    PlacesOf(s.(workers := ws));
  }

  lemma AddNone(a: multiset<nat>, b: multiset<nat>)
    ensures multiset{} + a + b == a + b
  {
  }

  /** A worker changes place without touching what was counted. */
  lemma Recount<R>(s: Pool<R>, s': Pool<R>, w: nat, x: Worker<R>)
    requires Inv(s) && w < |s.workers| && s'.workers == s.workers[w := x] && s'.actors == s.actors
    requires Places(s') == Places(s)
    requires s'.counter + |Uncounted(x)| + |Finished(s.workers[w])|
             == s.counter + |Uncounted(s.workers[w])| + |Finished(x)|
    requires forall v :: 0 <= v < |s'.workers| && s'.workers[v].activity.Returned? ==> s'.counter == s'.actors
    ensures Inv(s')
  {
    WorkerTotals(s, w, x);
    hide Places, Sum, Everyone, HeldBy, UncountedBy, FinishedBy, Held, Uncounted, Finished;
  }

  lemma HeadMoves(q: seq<nat>, f: multiset<nat>)
    requires q != []
    ensures multiset(q) + multiset{} + f == multiset(q[1..]) + multiset{q[0]} + f
  {
    assert q == [q[0]] + q[1..];
  }

  lemma FetchInv<R>(s: Pool<R>, s': Pool<R>, w: nat, h: nat)
    requires Inv(s) && Fetch(s, s', w, h)
    ensures Inv(s')
  {
    hide Places, Everyone, Sum, HeldBy, UncountedBy, FinishedBy, Finished;
    var x := s'.workers[w];
    FinishedSame(s.workers[w], x);
    if s.deques[h] == [] {
      WorkerKeeps(s, w, x);
    } else {
      HeadMoves(s.deques[h], Finished(x));
      MoveKeeps(s, w, x, h, s.deques[h][1..]);
    }
    Recount(s, s', w, x);
  }

  lemma FinishedSame<R>(x: Worker<R>, y: Worker<R>)
    ensures x.counts == y.counts ==> Finished(x) == Finished(y)
  {
  }

  lemma RotateMoves(d: seq<nat>, a: nat, f: multiset<nat>)
    ensures var q := d + [a]; multiset(d) + multiset{a} + f == multiset(q[1..]) + multiset{q[0]} + f
  {
    var q := d + [a];
    assert q == [q[0]] + q[1..];
    assert multiset(q) == multiset(d) + multiset{a};
    assert multiset(q) == multiset{q[0]} + multiset(q[1..]);
  }

  lemma ContinueInv<R>(s: Pool<R>, s': Pool<R>, w: nat, h: nat)
    requires Inv(s) && Continue(s, s', w, h)
    ensures Inv(s')
  {
    hide Places, Everyone, Sum, HeldBy, UncountedBy, FinishedBy, Finished;
    var x, a := s'.workers[w], s.workers[w].activity.actor;
    var q := s.deques[h] + [a];
    FinishedSame(s.workers[w], x);
    RotateMoves(s.deques[h], a, Finished(x));
    MoveKeeps(s, w, x, h, q[1..]);
    Recount(s, s', w, x);
  }

  lemma FinishedMore<R>(x: Worker<R>, x': Worker<R>, a: nat, r: R)
    requires x'.counts == x.counts + [(a, r)]
    ensures Finished(x') == Finished(x) + multiset{a} && |Finished(x')| == |Finished(x)| + 1
  {
    ActorsSnoc(x.counts, a, r);
  }

  lemma FinishInv<R>(s: Pool<R>, s': Pool<R>, w: nat, r: R)
    requires Inv(s) && Finish(s, s', w, r)
    ensures Inv(s')
  {
    var x := s'.workers[w];
    FinishedMore(s.workers[w], x, s.workers[w].activity.actor, r);
    assert Held(x) == multiset{} && Held(s.workers[w]) == multiset{s.workers[w].activity.actor};
    assert |Uncounted(x)| == 1 && |Uncounted(s.workers[w])| == 0;
    hide Held, Uncounted, Places, Everyone, Sum, HeldBy, UncountedBy, FinishedBy, Finished, Actors;
    WorkerKeeps(s, w, x);
    Recount(s, s', w, x);
  }

  lemma IncrementInv<R>(s: Pool<R>, s': Pool<R>, w: nat)
    requires Inv(s) && Increment(s, s', w)
    ensures Inv(s')
  {
    SumHas(UncountedBy(s.workers), w);
    assert s.workers[w].activity.actor in Sum(UncountedBy(s.workers));
    CounterBound(s);
    hide Places, Everyone, Sum, HeldBy, UncountedBy, FinishedBy, Finished, Actors;
    var x := s'.workers[w];
    FinishedSame(s.workers[w], x);
    WorkerKeeps(s, w, x);
    CountedSame(s, s');
    Recount(s, s', w, x);
  }

  lemma CountedSame<R>(s: Pool<R>, s': Pool<R>)
    ensures Places(s') == Places(s'.(counter := s.counter))
  {
  }

  lemma CheckInv<R>(s: Pool<R>, s': Pool<R>, w: nat)
    requires Inv(s) && Check(s, s', w)
    ensures Inv(s')
  {
    hide Places, Everyone, Sum, HeldBy, UncountedBy, FinishedBy, Finished;
    FinishedSame(s.workers[w], s'.workers[w]);
    WorkerKeeps(s, w, s'.workers[w]);
    Recount(s, s', w, s'.workers[w]);
  }

  lemma StepInv<R(!new)>(s: Pool<R>, s': Pool<R>)
    requires Inv(s) && Step(s, s')
    ensures Inv(s') && s'.actors == s.actors && |s'.workers| == |s.workers|
  {
    var w: nat :| WorkerStep(s, s', w);
    hide Inv;
    if h: nat :| Fetch(s, s', w, h) {
      FetchInv(s, s', w, h);
    } else if h: nat :| Continue(s, s', w, h) {
      ContinueInv(s, s', w, h);
    } else if r :| Finish(s, s', w, r) {
      FinishInv(s, s', w, r);
    } else if Increment(s, s', w) {
      IncrementInv(s, s', w);
    } else {
      CheckInv(s, s', w);
    }
  }

  ghost predicate Start<R>(s: Pool<R>) {
    && Sum(QueuedIn(s.deques)) == Everyone(s.actors) && s.counter == 0
    && forall w :: 0 <= w < |s.workers| ==> s.workers[w] == Worker(Fetching, [])
  }

  ghost predicate Run<R(!new)>(ss: seq<Pool<R>>) {
    ss != [] && Start(ss[0]) && forall k :: 0 <= k < |ss| - 1 ==> Step(ss[k], ss[k + 1])
  }

  lemma StartInv<R>(s: Pool<R>)
    requires Start(s)
    ensures Inv(s)
  {
    SumEmpty(HeldBy(s.workers));
    SumEmpty(UncountedBy(s.workers));
    NoneFinished(s.workers);
    PlacesOf(s);
    hide Sum, HeldBy, UncountedBy, FinishedBy, Places, Everyone;
  }

  lemma NoneFinished<R>(workers: seq<Worker<R>>)
    requires forall w :: 0 <= w < |workers| ==> workers[w].counts == []
    ensures Sum(FinishedBy(workers)) == multiset{}
  {
    forall i | 0 <= i < |workers|
      ensures FinishedBy(workers)[i] == multiset{}
    {
      assert Actors(workers[i].counts) == [];
    }
    SumEmpty(FinishedBy(workers));
  }

  lemma {:induction false} RunInv<R(!new)>(ss: seq<Pool<R>>, k: nat)
    requires Run(ss) && k < |ss|
    ensures Inv(ss[k]) && ss[k].actors == ss[0].actors && |ss[k].workers| == |ss[0].workers|
    decreases k
  {
    hide Inv, Start, Step;
    if k == 0 {
      StartInv(ss[0]);
    } else {
      RunInv(ss, k - 1);
      assert Step(ss[k - 1], ss[k]);
      StepInv(ss[k - 1], ss[k]);
    }
  }

  // Main results

  /** An actor a worker holds is nowhere else: no other worker has it, it is not queued, and it is not done. */
  lemma HeldAlone<R(!new)>(ss: seq<Pool<R>>, k: nat, w: nat)
    requires Run(ss) && k < |ss| && w < |ss[k].workers| && ss[k].workers[w].activity.Holding?
    ensures var a := ss[k].workers[w].activity.actor;
            && a < ss[k].actors
            && (forall v :: 0 <= v < |ss[k].workers| && v != w ==> ss[k].workers[v].activity != Holding(a))
            && (forall h :: 0 <= h < |ss[k].deques| ==> a !in ss[k].deques[h])
            && (forall v, i :: 0 <= v < |ss[k].workers| && 0 <= i < |ss[k].workers[v].counts| ==>
                  ss[k].workers[v].counts[i].0 != a)
  {
    var s, a := ss[k], ss[k].workers[w].activity.actor;
    RunInv(ss, k);
    SumHas(HeldBy(s.workers), w);
    assert Held(s.workers[w])[a] == 1 && Everyone(s.actors)[a] <= 1;
    forall v | 0 <= v < |s.workers| && v != w
      ensures s.workers[v].activity != Holding(a)
    {
      if v < w {
        SumHasTwo(HeldBy(s.workers), v, w);
      } else {
        SumHasTwo(HeldBy(s.workers), w, v);
      }
    }
    forall h | 0 <= h < |s.deques|
      ensures a !in s.deques[h]
    {
      SumHas(QueuedIn(s.deques), h);
      assert a in s.deques[h] <==> multiset(s.deques[h])[a] > 0;
    }
    forall v, i | 0 <= v < |s.workers| && 0 <= i < |s.workers[v].counts|
      ensures s.workers[v].counts[i].0 != a
    {
      SumHas(FinishedBy(s.workers), v);
      assert Actors(s.workers[v].counts)[i] in Finished(s.workers[v]);
    }
  }

  /** Once some worker has returned, no actor is queued or held any more: all are done. */
  lemma ReturnsOnlyWhenDone<R(!new)>(ss: seq<Pool<R>>, k: nat, w: nat)
    requires Run(ss) && k < |ss| && w < |ss[k].workers| && ss[k].workers[w].activity.Returned?
    ensures forall h :: 0 <= h < |ss[k].deques| ==> ss[k].deques[h] == []
    ensures forall v :: 0 <= v < |ss[k].workers| ==>
        !ss[k].workers[v].activity.Holding? && !ss[k].workers[v].activity.Counting?
    ensures Sum(FinishedBy(ss[k].workers)) == Everyone(ss[k].actors)
  {
    var s := ss[k];
    RunInv(ss, k);
    CounterBound(s);
    forall v | 0 <= v < |s.workers|
      ensures !s.workers[v].activity.Holding? && !s.workers[v].activity.Counting?
    {
      AllCounted(s, v);
    }
    AllCounted(s, w);
  }

  /** Joining the workers: their results in order. */
  function Collected<R>(workers: seq<Worker<R>>): seq<(nat, R)> {
    if workers == [] then [] else Collected(workers[..|workers| - 1]) + workers[|workers| - 1].counts
  }

  /** How many results the workers before `w` have. */
  ghost function Offset<R>(workers: seq<Worker<R>>, w: nat): nat
    requires w <= |workers|
  {
    if w == 0 then 0 else Offset(workers, w - 1) + |workers[w - 1].counts|
  }

  lemma {:induction false} OffsetPrefix<R>(workers: seq<Worker<R>>, n: nat, w: nat)
    requires w <= n <= |workers|
    ensures Offset(workers[..n], w) == Offset(workers, w)
    decreases w
  {
    if w > 0 {
      OffsetPrefix(workers, n, w - 1);
    }
  }

  lemma {:induction false} CollectedLength<R>(workers: seq<Worker<R>>)
    ensures |Collected(workers)| == Offset(workers, |workers|)
    decreases |workers|
  {
    if workers != [] {
      CollectedLength(workers[..|workers| - 1]);
      OffsetPrefix(workers, |workers| - 1, |workers| - 1);
    }
  }

  /** Each worker's results are found, in order, behind those of the workers before it. */
  lemma {:induction false} CollectedAt<R>(workers: seq<Worker<R>>, w: nat, i: nat)
    requires w < |workers| && i < |workers[w].counts|
    ensures Offset(workers, w) + i < |Collected(workers)|
    ensures Collected(workers)[Offset(workers, w) + i] == workers[w].counts[i]
    decreases |workers|
  {
    var front := workers[..|workers| - 1];
    CollectedLength(front);
    OffsetPrefix(workers, |front|, |front|);
    if w < |front| {
      CollectedAt(front, w, i);
      OffsetPrefix(workers, |front|, w);
    }
  }

  ghost predicate FoundAt<R>(workers: seq<Worker<R>>, w: nat, i: nat, counts: seq<(nat, R)>)
    requires w < |workers| && i < |workers[w].counts|
  {
    Offset(workers, w) + i < |counts| && counts[Offset(workers, w) + i] == workers[w].counts[i]
  }

  /** Worker by worker, in order, the results are found in `counts`, and nothing else is. */
  ghost predicate WorkerByWorker<R>(workers: seq<Worker<R>>, counts: seq<(nat, R)>) {
    && |counts| == Offset(workers, |workers|)
    && forall w: nat, i: nat :: w < |workers| && i < |workers[w].counts| ==> FoundAt(workers, w, i, counts)
  }

  lemma CollectedByWorker<R>(workers: seq<Worker<R>>)
    ensures WorkerByWorker(workers, Collected(workers))
  {
    CollectedLength(workers);
    forall w: nat, i: nat | w < |workers| && i < |workers[w].counts|
      ensures FoundAt(workers, w, i, Collected(workers))
    {
      CollectedAt(workers, w, i);
    }
  }

  /** Joins the workers: each actor they have finished counts once, and their results follow worker by worker. */
  method Collect<R>(workers: seq<Worker<R>>) returns (counts: seq<(nat, R)>)
    ensures counts == Collected(workers)
    ensures multiset(Actors(counts)) == Sum(FinishedBy(workers))
    ensures WorkerByWorker(workers, counts)
  {
    hide Sum, FinishedBy, Actors, WorkerByWorker;
    counts := [];
    for i := 0 to |workers|
      invariant counts == Collected(workers[..i])
    {
      assert workers[..i + 1][..i] == workers[..i];
      counts := counts + workers[i].counts;
    }
    assert workers[..|workers|] == workers;
    CollectedActors(workers);
    CollectedByWorker(workers);
  }

  lemma {:induction false} SumSnoc(ms: seq<multiset<nat>>, m: multiset<nat>)
    ensures Sum(ms + [m]) == Sum(ms) + m
  {
    if ms != [] {
      SumSnoc(ms[1..], m);
      assert (ms + [m])[1..] == ms[1..] + [m];
    }
  }

  lemma FinishedBySnoc<R>(workers: seq<Worker<R>>, last: Worker<R>)
    ensures FinishedBy(workers + [last]) == FinishedBy(workers) + [Finished(last)]
  {
  }

  lemma ActorsAppend<R>(a: seq<(nat, R)>, b: seq<(nat, R)>)
    ensures multiset(Actors(a + b)) == multiset(Actors(a)) + multiset(Actors(b))
  {
    assert Actors(a + b) == Actors(a) + Actors(b);
  }

  lemma {:induction false} CollectedActors<R>(workers: seq<Worker<R>>)
    ensures multiset(Actors(Collected(workers))) == Sum(FinishedBy(workers))
    decreases |workers|
  {
    if workers != [] {
      var front, last := workers[..|workers| - 1], workers[|workers| - 1];
      CollectedActors(front);
      FinishedBySnoc(front, last);
      ActorsAppend(Collected(front), last.counts);
      assert workers == front + [last];
      hide Sum, FinishedBy, Actors;
      SumSnoc(FinishedBy(front), Finished(last));
    }
  }

  ghost predicate AllReturned<R>(s: Pool<R>) {
    forall w :: 0 <= w < |s.workers| ==> s.workers[w].activity.Returned?
  }

  /** Deques are only made for actors: with no actors there are none. */
  ghost predicate DequesForActors<R>(s: Pool<R>) {
    s.deques == [] <==> s.actors == 0
  }

  /**
   Once all workers have returned there is one result per actor exactly when there were both workers and
   actors, or neither; and then each actor has its own.
   */
  lemma OneResultPerActor<R(!new)>(ss: seq<Pool<R>>)
    requires Run(ss) && DequesForActors(ss[0]) && AllReturned(ss[|ss| - 1])
    ensures var s := ss[|ss| - 1];
            |Collected(s.workers)| == s.actors <==>
              (|s.workers| >= 1 && s.actors >= 1) || (|s.workers| == 0 && s.actors == 0)
    ensures var s := ss[|ss| - 1];
            |Collected(s.workers)| == s.actors ==> multiset(Actors(Collected(s.workers))) == Everyone(s.actors)
  {
    var s := ss[|ss| - 1];
    RunInv(ss, |ss| - 1);
    CollectedActors(s.workers);
    if |s.workers| >= 1 {
      ReturnsOnlyWhenDone(ss, |ss| - 1, 0);
      assert |multiset(Actors(Collected(s.workers)))| == |Collected(s.workers)|;
      if s.actors == 0 {
        NoActorsNoReturn(ss);
      }
    }
  }

  // Who can go on

  /** A worker about to lock a deque can do so exactly when there is one; otherwise it panics. */
  lemma FetchesIffDeques<R(!new)>(s: Pool<R>, w: nat)
    requires Active(s, w) && s.workers[w].activity.Fetching?
    ensures (exists s' :: WorkerStep(s, s', w)) <==> s.deques != []
  {
    if s.deques != [] {
      var s' := if s.deques[0] == [] then SetActivity(s, w, Idle)
                else SetActivity(s, w, Holding(s.deques[0][0])).(deques := s.deques[0 := s.deques[0][1..]]);
      assert Fetch(s, s', w, 0);
      assert WorkerStep(s, s', w);
    }
  }

  lemma NothingHappens<R(!new)>(s: Pool<R>)
    requires s.deques == [] && forall w :: 0 <= w < |s.workers| ==> s.workers[w].activity.Fetching?
    ensures forall s' :: !Step(s, s')
  {
  }

  /** Without actors there are no deques: with workers, nothing ever happens and none of them returns. */
  lemma NoActorsNoReturn<R(!new)>(ss: seq<Pool<R>>)
    requires Run(ss) && DequesForActors(ss[0]) && ss[0].actors == 0 && |ss[0].workers| >= 1
    ensures |ss| == 1 && !AllReturned(ss[0])
  {
    assert !ss[0].workers[0].activity.Returned?;
    hide Step;
    assert |ss| > 1 ==> Step(ss[0], ss[1]);
    NothingHappens(ss[0]);
  }

  lemma StepKeepsDeques<R(!new)>(s: Pool<R>, s': Pool<R>)
    requires Step(s, s')
    ensures |s'.deques| == |s.deques|
  {
  }

  /** In every run started with actors, a worker has a step to take exactly until it has returned. */
  lemma NeverStuck<R(!new)>(ss: seq<Pool<R>>, k: nat, w: nat)
    requires Run(ss) && DequesForActors(ss[0]) && ss[0].actors >= 1 && k < |ss| && w < |ss[k].workers|
    ensures (exists s' :: WorkerStep(ss[k], s', w)) <==> !ss[k].workers[w].activity.Returned?
  {
    hide Step, Start, WorkerStep;
    RunKeepsDeques(ss, k);
    GoesOn(ss[k], w);
  }

  lemma {:induction false} RunKeepsDeques<R(!new)>(ss: seq<Pool<R>>, k: nat)
    requires Run(ss) && k < |ss|
    ensures |ss[k].deques| == |ss[0].deques|
    decreases k
  {
    hide Step, Start;
    if k > 0 {
      RunKeepsDeques(ss, k - 1);
      assert Step(ss[k - 1], ss[k]);
      StepKeepsDeques(ss[k - 1], ss[k]);
    }
  }

  lemma GoesOn<R(!new)>(s: Pool<R>, w: nat)
    requires Active(s, w) && s.deques != []
    ensures (exists s' :: WorkerStep(s, s', w)) <==> !s.workers[w].activity.Returned?
  {
    match s.workers[w].activity {
      case Fetching =>
        FetchesIffDeques(s, w);
      case Holding(a) =>
        var q := s.deques[0] + [a];
        var s' := SetActivity(s, w, Holding(q[0])).(deques := s.deques[0 := q[1..]]);
        assert Continue(s, s', w, 0);
        assert WorkerStep(s, s', w);
      case Counting(a) =>
        assert WorkerStep(s, SetActivity(s, w, Fetching).(counter := s.counter + 1), w);
      case Idle =>
        assert WorkerStep(s, SetActivity(s, w, if s.counter == s.actors then Returned else Fetching), w);
      case Returned =>
    }
  }

  /** How many steps a worker still takes once everything is counted. */
  ghost function StepsLeft<R>(w: Worker<R>): nat {
    match w.activity
    case Fetching => 2
    case Idle => 1
    case _ => 0
  }

  /**
   Once the counter has reached the number of actors, it stays there, and every worker returns within two
   steps of its own, whatever the others do.
   */
  lemma ReturnsInTwoSteps<R(!new)>(s: Pool<R>, s': Pool<R>, w: nat)
    requires Inv(s) && s.counter == s.actors && WorkerStep(s, s', w)
    ensures Inv(s') && s'.counter == s'.actors && |s'.workers| == |s.workers|
    ensures StepsLeft(s'.workers[w]) == StepsLeft(s.workers[w]) - 1
    ensures StepsLeft(s'.workers[w]) == 0 <==> s'.workers[w].activity.Returned?
    ensures forall v :: 0 <= v < |s.workers| && v != w ==> s'.workers[v] == s.workers[v]
  {
    assert Step(s, s');
    hide *;
    StepInv(s, s');
    CounterStays(s, s', w);
    AllCounted(s, w);
    LastSteps(s, s', w);
  }

  lemma CounterStays<R(!new)>(s: Pool<R>, s': Pool<R>, w: nat)
    requires WorkerStep(s, s', w)
    ensures w < |s.workers| == |s'.workers| && s'.actors == s.actors
    ensures !s.workers[w].activity.Counting? ==> s'.counter == s.counter
  {
  }

  lemma LastSteps<R(!new)>(s: Pool<R>, s': Pool<R>, w: nat)
    requires s.counter == s.actors && WorkerStep(s, s', w) && |s'.workers| == |s.workers| && w < |s.workers|
    requires forall h :: 0 <= h < |s.deques| ==> s.deques[h] == []
    requires !s.workers[w].activity.Holding? && !s.workers[w].activity.Counting?
    ensures StepsLeft(s'.workers[w]) == StepsLeft(s.workers[w]) - 1
    ensures StepsLeft(s'.workers[w]) == 0 <==> s'.workers[w].activity.Returned?
    ensures forall v :: 0 <= v < |s.workers| && v != w ==> s'.workers[v] == s.workers[v]
  {
  }

  /** When everything is counted, no deque holds an actor and no worker is busy with one. */
  lemma AllCounted<R>(s: Pool<R>, w: nat)
    requires Inv(s) && s.counter == s.actors && w < |s.workers|
    ensures forall h :: 0 <= h < |s.deques| ==> s.deques[h] == []
    ensures !s.workers[w].activity.Holding? && !s.workers[w].activity.Counting?
  {
    CounterBound(s);
    forall h | 0 <= h < |s.deques|
      ensures s.deques[h] == []
    {
      SumHas(QueuedIn(s.deques), h);
      assert |multiset(s.deques[h])| == |s.deques[h]|;
    }
    SumHas(HeldBy(s.workers), w);
    SumHas(UncountedBy(s.workers), w);
    var held, uncounted := Held(s.workers[w]), Uncounted(s.workers[w]);
    assert |held| == 0 && |uncounted| == 0;
  }

  // Starting the pool

  lemma Dealt(deques: seq<seq<nat>>, h: nat, a: nat)
    requires h < |deques| && Sum(QueuedIn(deques)) == Everyone(a)
    ensures Sum(QueuedIn(deques[h := deques[h] + [a]])) == Everyone(a + 1)
  {
    var q: seq<nat> := deques[h] + [a];
    assert QueuedIn(deques[h := q]) == QueuedIn(deques)[h := multiset(q)];
    SumUpdate(QueuedIn(deques), h, multiset(q));
    assert multiset(q) == multiset(deques[h]) + multiset{a};
    var sum' := Sum(QueuedIn(deques[h := q]));
    var before: multiset<nat>, after: multiset<nat> := multiset(deques[h]), multiset(q);
    hide Sum, QueuedIn;
    forall x: nat
      ensures sum'[x] == Everyone(a + 1)[x]
    {
      assert (sum' + before)[x] == (Everyone(a) + after)[x];
    }
  }

  const MAX_DEQUES := 16

  /** Deque `h` of `n` holds, in increasing order, only actors below `a` that fall to it. */
  ghost predicate RoundRobin(q: seq<nat>, h: nat, n: nat, a: nat)
    requires n > 0
  {
    && (forall i :: 0 <= i < |q| ==> Remainder(q[i], n) == h && q[i] < a)
    && (forall i, j :: 0 <= i < j < |q| ==> q[i] < q[j])
  }

  lemma RoundRobinGrows(q: seq<nat>, h: nat, n: nat, a: nat)
    requires n > 0 && RoundRobin(q, h, n, a)
    ensures RoundRobin(q, h, n, a + 1)
    ensures Remainder(a, n) == h ==> RoundRobin(q + [a], h, n, a + 1)
  {
    hide Remainder;
  }

  lemma RemainderBelow(a: nat, n: nat)
    requires n > 0
    ensures Remainder(a, n) == a % n < n
  {
  }

  /** Every deque holds only actors below `a` that fall to it. */
  ghost predicate AllRoundRobin(deques: seq<seq<nat>>, a: nat) {
    forall h :: 0 <= h < |deques| ==> RoundRobin(deques[h], h, |deques|, a)
  }

  lemma DealtRoundRobin(deques: seq<seq<nat>>, h: nat, a: nat)
    requires h < |deques| && h == Remainder(a, |deques|) && AllRoundRobin(deques, a)
    ensures AllRoundRobin(deques[h := deques[h] + [a]], a + 1)
  {
    hide Remainder, RoundRobin;
    var next := deques[h := deques[h] + [a]];
    forall g | 0 <= g < |next|
      ensures RoundRobin(next[g], g, |next|, a + 1)
    {
      RoundRobinGrows(deques[g], g, |deques|, a);
    }
  }

  /** Over `n` deques, the actors below `a` are dealt out, each exactly once, round robin. */
  ghost predicate DealtOut(deques: seq<seq<nat>>, n: nat, a: nat) {
    |deques| == n && Sum(QueuedIn(deques)) == Everyone(a) && AllRoundRobin(deques, a)
  }

  lemma NoneDealt(n: nat)
    ensures DealtOut(seq(n, _ => []), n, 0)
  {
    SumEmpty(QueuedIn(seq(n, _ => [])));
  }

  lemma OneMoreDealt(deques: seq<seq<nat>>, n: nat, a: nat)
    requires n > 0 && DealtOut(deques, n, a)
    ensures a % n < |deques| && DealtOut(deques[a % n := deques[a % n] + [a]], n, a + 1)
  {
    hide Sum, QueuedIn, Everyone, AllRoundRobin, Remainder;
    RemainderBelow(a, n);
    var h := a % n;
    Dealt(deques, h, a);
    DealtRoundRobin(deques, h, a);
  }

  /** Deals the actors out round robin over at most sixteen deques; without actors there are no deques. */
  method Distribute(nActors: nat) returns (deques: seq<seq<nat>>)
    ensures DealtOut(deques, if nActors < MAX_DEQUES then nActors else MAX_DEQUES, nActors)
    ensures deques == [] <==> nActors == 0
  {
    var n: nat := if nActors < MAX_DEQUES then nActors else MAX_DEQUES;
    assert nActors > 0 ==> n > 0;
    hide *;
    NoneDealt(n);
    deques := seq(n, _ => []);
    for a: nat := 0 to nActors
      invariant DealtOut(deques, n, a)
    {
      OneMoreDealt(deques, n, a);
      var h := a % n;
      var longer: seq<nat> := deques[h] + [a];
      deques := deques[h := longer];
    }
  }

  // First come, first served

  /** Deque `h` is locked by a worker that looks for its next actor. */
  ghost predicate Visits<R>(s: Pool<R>, s': Pool<R>, h: nat) {
    exists w: nat :: Fetch(s, s', w, h) || Continue(s, s', w, h)
  }

  ghost predicate HeldNow<R>(s: Pool<R>, a: nat) {
    exists w: nat :: w < |s.workers| && s.workers[w].activity == Holding(a)
  }

  /**
   Whoever waits in a deque moves up one place with every visit to it, is held after the visit that finds it in
   front, and is not touched otherwise. So a continued actor yields to all that wait where it is put back.
   */
  lemma WaitsItsTurn<R(!new)>(s: Pool<R>, s': Pool<R>, h: nat, p: nat)
    requires Step(s, s') && h < |s.deques| && p < |s.deques[h]|
    ensures |s'.deques| == |s.deques|
    ensures !Visits(s, s', h) ==> p < |s'.deques[h]| && s'.deques[h][p] == s.deques[h][p]
    ensures Visits(s, s', h) && p > 0 ==> p - 1 < |s'.deques[h]| && s'.deques[h][p - 1] == s.deques[h][p]
    ensures Visits(s, s', h) && p == 0 ==> HeldNow(s', s.deques[h][0])
  {
    if Visits(s, s', h) {
      var w: nat :| Fetch(s, s', w, h) || Continue(s, s', w, h);
      assert p == 0 ==> s'.workers[w].activity == Holding(s.deques[h][0]);
    } else {
      var w: nat :| WorkerStep(s, s', w);
      OthersWait(s, s', w, h);
    }
  }

  /** A step that does not visit a deque leaves it alone. */
  lemma OthersWait<R(!new)>(s: Pool<R>, s': Pool<R>, w: nat, h: nat)
    requires WorkerStep(s, s', w) && !Visits(s, s', h) && h < |s.deques|
    ensures |s'.deques| == |s.deques| && s'.deques[h] == s.deques[h]
  {
    if g: nat :| Fetch(s, s', w, g) {
      assert g != h;
    } else if g: nat :| Continue(s, s', w, g) {
      assert g != h;
    }
  }

  /** How often deque `h` is visited from moment `i` of a run to moment `j`. */
  ghost function Visitors<R>(ss: seq<Pool<R>>, h: nat, i: nat, j: nat): (n: nat)
    requires i <= j < |ss|
    decreases j - i
  {
    if i == j then 0 else Visitors(ss, h, i, j - 1) + if Visits(ss[j - 1], ss[j], h) then 1 else 0
  }

  /**
   In a run an actor that waits behind `p` others is still waiting, as many places further up as there were visits.
   */
  lemma {:induction false} MovesUp<R(!new)>(ss: seq<Pool<R>>, h: nat, p: nat, i: nat, j: nat)
    requires Run(ss) && i <= j < |ss| && h < |ss[i].deques| && p < |ss[i].deques[h]| && Visitors(ss, h, i, j) <= p
    ensures var q := p - Visitors(ss, h, i, j);
            h < |ss[j].deques| && q < |ss[j].deques[h]| && ss[j].deques[h][q] == ss[i].deques[h][p]
    decreases j - i
  {
    hide Step, Visits, Start;
    if i < j {
      MovesUp(ss, h, p, i, j - 1);
      assert Step(ss[j - 1], ss[j]);
      WaitsItsTurn(ss[j - 1], ss[j], h, p - Visitors(ss, h, i, j - 1));
    }
  }

  /**
   In a run an actor that waits behind `p` others is held by a worker at the latest after `p + 1` visits to its deque.
   */
  lemma {:induction false} FirstInFirstOut<R(!new)>(ss: seq<Pool<R>>, h: nat, p: nat, i: nat, j: nat) returns (k: nat)
    requires Run(ss) && i <= j < |ss| && h < |ss[i].deques| && p < |ss[i].deques[h]| && Visitors(ss, h, i, j) > p
    ensures i < k <= j && Visitors(ss, h, i, k) == p + 1 && HeldNow(ss[k], ss[i].deques[h][p])
    decreases j - i
  {
    hide Step, Visits, Start, HeldNow;
    if Visitors(ss, h, i, j - 1) > p {
      k := FirstInFirstOut(ss, h, p, i, j - 1);
    } else {
      k := j;
      MovesUp(ss, h, p, i, j - 1);
      assert Step(ss[j - 1], ss[j]);
      WaitsItsTurn(ss[j - 1], ss[j], h, 0);
    }
  }
}
