/** The bounded single-producer single-consumer ring: position arithmetic, and one thread using both ends. */
module Spsc {

  // Positions run over twice the capacity, so that full and empty differ

  function Slot(cap: nat, pos: nat): int {
    if pos < cap then pos else pos - cap
  }

  function Increment(cap: nat, pos: nat): nat {
    if pos < 2 * cap - 1 then pos + 1 else 0
  }

  function Distance(cap: nat, a: nat, b: nat): int {
    if a <= b then b - a else 2 * cap - a + b
  }

  /** The position reached after `i` increments. */
  ghost function Pos(cap: nat, i: nat): (p: nat)
    requires cap > 0
    ensures p < 2 * cap
  {
    if i == 0 then 0 else Increment(cap, Pos(cap, i - 1))
  }

  lemma {:induction false} PosAdd(cap: nat, a: nat, k: nat)
    requires cap > 0 && k <= cap
    ensures Pos(cap, a + k) == if Pos(cap, a) + k < 2 * cap then Pos(cap, a) + k else Pos(cap, a) + k - 2 * cap
    decreases k
  {
    if k > 0 {
      PosAdd(cap, a, k - 1);
    }
  }

  /** The distance between two positions at most a capacity apart is the number of increments between them. */
  lemma DistanceCounts(cap: nat, a: nat, b: nat)
    requires cap > 0 && a <= b <= a + cap
    ensures Distance(cap, Pos(cap, a), Pos(cap, b)) == b - a
    ensures Pos(cap, a) == Pos(cap, b) <==> a == b
  {
    PosAdd(cap, a, b - a);
  }

  /** Positions less than a capacity apart use different slots. */
  lemma SlotsDiffer(cap: nat, a: nat, b: nat)
    requires cap > 0 && a <= b < a + cap
    ensures 0 <= Slot(cap, Pos(cap, a)) < cap
    ensures Slot(cap, Pos(cap, a)) == Slot(cap, Pos(cap, b)) <==> a == b
  {
    PosAdd(cap, a, b - a);
  }

  lemma PosNext(cap: nat, i: nat)
    requires cap > 0
    ensures Pos(cap, i + 1) == Increment(cap, Pos(cap, i))
  {
  }

  datatype Result<+T> = Ok(value: T) | Err

  /** The slots of positions `a .. b`. */
  ghost function SlotsOf(cap: nat, a: nat, b: nat): (s: seq<int>)
    requires cap > 0 && a <= b
    ensures |s| == b - a && forall i :: 0 <= i < b - a ==> s[i] == Slot(cap, Pos(cap, a + i))
  {
    seq(b - a, i requires 0 <= i => Slot(cap, Pos(cap, a + i)))
  }

  class Ring<T(0)> {
    const cap: nat
    const buffer: array<T>
    var head: nat
    var tail: nat
    var producerHead: nat  // the producer's copy of head, possibly stale
    var producerTail: nat
    var consumerHead: nat
    var consumerTail: nat  // the consumer's copy of tail, possibly stale

    ghost var log: seq<T>  // everything ever pushed
    ghost var popped: nat
    ghost var seenHead: nat
    ghost var seenTail: nat

    ghost predicate Valid()
      reads this, buffer
    {
      && cap > 0 && buffer.Length == cap
      && popped <= |log| <= popped + cap
      && head == consumerHead == Pos(cap, popped) && tail == producerTail == Pos(cap, |log|)
      && producerHead == Pos(cap, seenHead) && seenHead <= popped && |log| <= seenHead + cap
      && consumerTail == Pos(cap, seenTail) && popped <= seenTail <= |log|
      && (forall i :: popped <= i < |log| ==>
            0 <= Slot(cap, Pos(cap, i)) < cap && buffer[Slot(cap, Pos(cap, i))] == log[i])
    }

    ghost function Contents(): seq<T>
      reads this
      requires popped <= |log|
    {
      log[popped..]
    }

    /** Is the ring full, as far as the producer can tell? */
    method LooksFull() returns (full: bool)
      requires Valid()
      modifies this`producerHead, this`seenHead
      ensures Valid() && (full <==> |log| == popped + cap)
      ensures !full ==> |log| < seenHead + cap
    {
      hide Slot, Pos, Increment, Distance;
      DistanceCounts(cap, seenHead, |log|);
      full := Distance(cap, producerHead, producerTail) == cap;
      if full {
        producerHead := head;
        seenHead := popped;
        DistanceCounts(cap, seenHead, |log|);
        full := Distance(cap, producerHead, producerTail) == cap;
      }
    }

    constructor (capacity: nat)
      requires capacity > 0
      ensures Valid() && Contents() == [] && cap == capacity && fresh(buffer)
    {
      cap := capacity;
      buffer := new T[capacity];
      head, tail, producerHead, producerTail, consumerHead, consumerTail := 0, 0, 0, 0, 0, 0;
      log, popped, seenHead, seenTail := [], 0, 0, 0;
    }

    /** Appends `value`, or fails exactly when the ring is full. */
    method Push(value: T) returns (r: Result<()>)
      requires Valid()
      modifies this, buffer
      ensures Valid()
      ensures r.Ok? <==> |old(Contents())| < cap
      ensures Contents() == if r.Ok? then old(Contents()) + [value] else old(Contents())
    {
      hide Slot, Pos, Increment, Distance;
      var full := LooksFull();
      if full {
        return Err;
      }
      PosNext(cap, |log|);
      forall i | popped <= i <= |log|
        ensures 0 <= Slot(cap, Pos(cap, i)) < cap
        ensures i < |log| ==> Slot(cap, Pos(cap, i)) != Slot(cap, Pos(cap, |log|))
      {
        SlotsDiffer(cap, i, |log|);
      }
      buffer[Slot(cap, producerTail)] := value;
      tail := Increment(cap, producerTail);
      producerTail := tail;
      log := log + [value];
      assert log[popped..] == old(log)[popped..] + [value];
      r := Ok(());
    }

    /** Takes the oldest element, or fails exactly when the ring is empty. */
    method Pop() returns (r: Result<T>)
      requires Valid()
      modifies this
      ensures Valid()
      ensures r.Ok? <==> old(Contents()) != []
      ensures r.Ok? ==> old(Contents()) == [r.value] + Contents()
      ensures r.Err? ==> Contents() == []
    {
      hide Slot, Pos, Increment, Distance;
      DistanceCounts(cap, popped, seenTail);
      PosNext(cap, popped);
      if consumerHead == consumerTail {
        consumerTail := tail;
        seenTail := |log|;
        DistanceCounts(cap, popped, seenTail);
        if consumerHead == consumerTail {
          return Err;
        }
      }
      r := Ok(buffer[Slot(cap, consumerHead)]);
      head := Increment(cap, consumerHead);
      consumerHead := head;
      popped := popped + 1;
    }

    method ConsumerLen() returns (n: int)
      requires Valid()
      modifies this`consumerTail, this`seenTail
      ensures Valid() && n == |Contents()| && Contents() == old(Contents())
    {
      DistanceCounts(cap, popped, |log|);
      consumerTail := tail;
      seenTail := |log|;
      n := Distance(cap, consumerHead, consumerTail);
    }

    method IsEmpty() returns (empty: bool)
      requires Valid()
      modifies this`consumerTail, this`seenTail
      ensures Valid() && Contents() == old(Contents())
      ensures empty <==> Contents() == []
    {
      DistanceCounts(cap, popped, seenTail);
      if consumerHead != consumerTail {
        return false;
      }
      var n := ConsumerLen();
      return n == 0;
    }

    /** Dropping the ring visits the slots that hold a value, oldest first, and no others. */
    method Drop() returns (dropped: seq<int>)
      requires Valid()
      ensures dropped == SlotsOf(cap, popped, |log|)
    {
      hide Slot, Pos, Increment, Distance;
      var h := head;
      dropped := [];
      ghost var at := popped;
      DistanceCounts(cap, popped, |log|);
      while h != tail
        invariant popped <= at <= |log| && h == Pos(cap, at) && dropped == SlotsOf(cap, popped, at)
        decreases |log| - at
      {
        DistanceCounts(cap, at, |log|);
        PosNext(cap, at);
        dropped := dropped + [Slot(cap, h)];
        h := Increment(cap, h);
        at := at + 1;
      }
      DistanceCounts(cap, at, |log|);
    }
  }
}

/** The ring under concurrency: the atomic steps of one producer and one consumer, in any order. */
module SpscSteps {
  import opened Spsc

  datatype ProducerPc<+T> = PIdle | PRefresh(v: T) | PWrite(v: T) | PPublish(v: T)

  datatype ConsumerPc<+T> = CIdle | CRefresh | CRead | CPublish(v: T)

  /**
   Shared: `head`, `tail`, `buffer`. Private copies: `pHead`, `pTail`, `cHead`, `cTail`. For the proof:
   everything published (`log`), how much was consumed, and which counts the stale copies stand for.
   */
  datatype State<T> = State(cap: nat, buffer: seq<T>, head: nat, tail: nat,
                            pHead: nat, pTail: nat, cHead: nat, cTail: nat,
                            producer: ProducerPc<T>, consumer: ConsumerPc<T>,
                            log: seq<T>, popped: nat, seenHead: nat, seenTail: nat)

  /** What a step shows to the outside. */
  datatype Action<+T> = Silent | Pushed(v: T) | PushFailed | Popped(v: T) | PopFailed | Length(n: int)

  // Producer

  ghost predicate BeginPush<T>(s: State<T>, s': State<T>, a: Action<T>, v: T) {
    && s.producer.PIdle? && a == Silent
    && s' == s.(producer := if Distance(s.cap, s.pHead, s.pTail) == s.cap then PRefresh(v) else PWrite(v))
  }

  ghost predicate RefreshHead<T>(s: State<T>, s': State<T>, a: Action<T>) {
    && s.producer.PRefresh?
    && var full := Distance(s.cap, s.head, s.pTail) == s.cap;
       && a == (if full then PushFailed else Silent)
       && s' == s.(pHead := s.head, seenHead := s.popped, producer := if full then PIdle else PWrite(s.producer.v))
  }

  ghost predicate WriteSlot<T>(s: State<T>, s': State<T>, a: Action<T>) {
    && s.producer.PWrite? && a == Silent
    && 0 <= Slot(s.cap, s.pTail) < |s.buffer|
    && s' == s.(buffer := s.buffer[Slot(s.cap, s.pTail) := s.producer.v], producer := PPublish(s.producer.v))
  }

  ghost predicate StoreTail<T>(s: State<T>, s': State<T>, a: Action<T>) {
    && s.producer.PPublish? && a == Pushed(s.producer.v)
    && var tail := Increment(s.cap, s.pTail);
       s' == s.(tail := tail, pTail := tail, log := s.log + [s.producer.v], producer := PIdle)
  }

  ghost predicate ProducerLen<T>(s: State<T>, s': State<T>, a: Action<T>) {
    && s.producer.PIdle? && a == Length(Distance(s.cap, s.head, s.pTail))
    && s' == s.(pHead := s.head, seenHead := s.popped)
  }

  // Consumer

  ghost predicate BeginPop<T>(s: State<T>, s': State<T>, a: Action<T>) {
    && s.consumer.CIdle? && a == Silent
    && s' == s.(consumer := if s.cHead == s.cTail then CRefresh else CRead)
  }

  ghost predicate RefreshTail<T>(s: State<T>, s': State<T>, a: Action<T>) {
    && s.consumer.CRefresh?
    && var empty := s.cHead == s.tail;
       && a == (if empty then PopFailed else Silent)
       && s' == s.(cTail := s.tail, seenTail := |s.log|, consumer := if empty then CIdle else CRead)
  }

  ghost predicate ReadSlot<T>(s: State<T>, s': State<T>, a: Action<T>) {
    && s.consumer.CRead? && a == Silent
    && 0 <= Slot(s.cap, s.cHead) < |s.buffer|
    && s' == s.(consumer := CPublish(s.buffer[Slot(s.cap, s.cHead)]))
  }

  ghost predicate StoreHead<T>(s: State<T>, s': State<T>, a: Action<T>) {
    && s.consumer.CPublish? && a == Popped(s.consumer.v)
    && var head := Increment(s.cap, s.cHead);
       s' == s.(head := head, cHead := head, popped := s.popped + 1, consumer := CIdle)
  }

  ghost predicate ConsumerLen<T>(s: State<T>, s': State<T>, a: Action<T>) {
    && s.consumer.CIdle? && a == Length(Distance(s.cap, s.cHead, s.tail))
    && s' == s.(cTail := s.tail, seenTail := |s.log|)
  }

  ghost predicate ProducerStep<T(!new)>(s: State<T>, s': State<T>, a: Action<T>) {
    (exists v :: BeginPush(s, s', a, v)) || RefreshHead(s, s', a) || WriteSlot(s, s', a) || StoreTail(s, s', a)
    || ProducerLen(s, s', a)
  }

  ghost predicate ConsumerStep<T>(s: State<T>, s': State<T>, a: Action<T>) {
    BeginPop(s, s', a) || RefreshTail(s, s', a) || ReadSlot(s, s', a) || StoreHead(s, s', a) || ConsumerLen(s, s', a)
  }

  ghost predicate Step<T(!new)>(s: State<T>, s': State<T>, a: Action<T>) {
    ProducerStep(s, s', a) || ConsumerStep(s, s', a)
  }

  ghost predicate Start<T>(s: State<T>) {
    && s.cap > 0 && |s.buffer| == s.cap
    && s.head == s.tail == s.pHead == s.pTail == s.cHead == s.cTail == 0
    && s.producer == PIdle && s.consumer == CIdle
    && s.log == [] && s.popped == s.seenHead == s.seenTail == 0
  }

  // The bounded queue it implements

  /** A bounded first-in first-out queue: pushes fail exactly when full, pops exactly when empty. */
  ghost predicate FifoStep<T>(cap: nat, q: seq<T>, q': seq<T>, a: Action<T>) {
    match a
    case Silent => q' == q
    case Pushed(v) => |q| < cap && q' == q + [v]
    case PushFailed => |q| == cap && q' == q
    case Popped(v) => q == [v] + q'
    case PopFailed => q == [] && q' == q
    case Length(n) => n == |q| && q' == q
  }

  ghost function Contents<T>(s: State<T>): seq<T> {
    if s.popped <= |s.log| then s.log[s.popped..] else []
  }

  ghost predicate Inv<T>(s: State<T>) {
    && s.cap > 0 && |s.buffer| == s.cap
    && s.popped <= |s.log| <= s.popped + s.cap
    && s.head == s.cHead == Pos(s.cap, s.popped) && s.tail == s.pTail == Pos(s.cap, |s.log|)
    && s.pHead == Pos(s.cap, s.seenHead) && s.seenHead <= s.popped && |s.log| <= s.seenHead + s.cap
    && s.cTail == Pos(s.cap, s.seenTail) && s.popped <= s.seenTail <= |s.log|
    && Live(s)
    && (s.producer.PRefresh? ==> |s.log| == s.seenHead + s.cap)
    && (s.producer.PWrite? || s.producer.PPublish? ==> |s.log| < s.seenHead + s.cap)
    && (s.producer.PPublish? ==> SlotHolds(s, |s.log|, s.producer.v))
    && (s.consumer.CRefresh? ==> s.popped == s.seenTail)
    && (s.consumer.CRead? || s.consumer.CPublish? ==> s.popped < s.seenTail)
    && (s.consumer.CPublish? ==> s.consumer.v == s.log[s.popped])
  }

  ghost predicate SlotHolds<T>(s: State<T>, i: nat, v: T)
    requires s.cap > 0
  {
    0 <= Slot(s.cap, Pos(s.cap, i)) < |s.buffer| && s.buffer[Slot(s.cap, Pos(s.cap, i))] == v
  }

  ghost predicate Live<T>(s: State<T>)
    requires s.cap > 0
  {
    forall i :: s.popped <= i < |s.log| ==> SlotHolds(s, i, s.log[i])
  }

  /** The slot being written holds no live element. */
  lemma WriteHitsFreeSlot<T>(s: State<T>, i: nat)
    requires Inv(s) && s.producer.PWrite? && s.popped <= i < |s.log|
    ensures Slot(s.cap, s.pTail) != Slot(s.cap, Pos(s.cap, i))
  {
    SlotsDiffer(s.cap, i, |s.log|);
  }

  lemma WriteSlotInv<T>(s: State<T>, s': State<T>, a: Action<T>)
    requires Inv(s) && WriteSlot(s, s', a)
    ensures Inv(s')
  {
    SlotsDiffer(s.cap, |s.log|, |s.log|);
    hide Slot, Pos, Increment, Distance;
    forall i | s'.popped <= i < |s'.log|
      ensures SlotHolds(s', i, s'.log[i])
    {
      assert SlotHolds(s, i, s.log[i]);
      WriteHitsFreeSlot(s, i);
    }
  }

  lemma StoreTailInv<T>(s: State<T>, s': State<T>, a: Action<T>)
    requires Inv(s) && StoreTail(s, s', a)
    ensures Inv(s') && Contents(s') == Contents(s) + [s.producer.v]
  {
    PosNext(s.cap, |s.log|);
    hide Slot, Pos, Increment, Distance;
    forall i | s'.popped <= i < |s'.log|
      ensures SlotHolds(s', i, s'.log[i])
    {
      if i < |s.log| {
        assert SlotHolds(s, i, s.log[i]);
      } else {
        assert SlotHolds(s, |s.log|, s.producer.v);
      }
    }
  }

  lemma ProducerStepInv<T(!new)>(s: State<T>, s': State<T>, a: Action<T>)
    requires Inv(s) && ProducerStep(s, s', a)
    ensures Inv(s') && s'.cap == s.cap && FifoStep(s.cap, Contents(s), Contents(s'), a)
  {
    DistanceCounts(s.cap, s.seenHead, |s.log|);
    DistanceCounts(s.cap, s.popped, |s.log|);
    hide Slot, Pos, Increment, Distance;
    if WriteSlot(s, s', a) {
      WriteSlotInv(s, s', a);
    } else if StoreTail(s, s', a) {
      StoreTailInv(s, s', a);
    } else {
      LiveKept(s, s');
      hide Live;
    }
  }

  lemma LiveKept<T>(s: State<T>, s': State<T>)
    requires s.cap > 0 && Live(s) && s'.cap == s.cap && s'.buffer == s.buffer && s'.log == s.log
    requires s.popped <= s'.popped
    ensures Live(s')
  {
    forall i | s'.popped <= i < |s'.log|
      ensures SlotHolds(s', i, s'.log[i])
    {
      assert SlotHolds(s, i, s.log[i]);
    }
  }

  lemma ReadSlotInv<T>(s: State<T>, s': State<T>, a: Action<T>)
    requires Inv(s) && ReadSlot(s, s', a)
    ensures Inv(s') && Contents(s') == Contents(s)
  {
    assert SlotHolds(s, s.popped, s.log[s.popped]);
    hide Slot, Pos, Increment, Distance;
    LiveKept(s, s');
  }

  lemma StoreHeadInv<T>(s: State<T>, s': State<T>, a: Action<T>)
    requires Inv(s) && StoreHead(s, s', a)
    ensures Inv(s') && Contents(s) == [s.consumer.v] + Contents(s')
  {
    PosNext(s.cap, s.popped);
    hide Slot, Pos, Increment, Distance;
    LiveKept(s, s');
    hide Live;
  }

  lemma ConsumerStepInv<T>(s: State<T>, s': State<T>, a: Action<T>)
    requires Inv(s) && ConsumerStep(s, s', a)
    ensures Inv(s') && s'.cap == s.cap && FifoStep(s.cap, Contents(s), Contents(s'), a)
  {
    DistanceCounts(s.cap, s.popped, s.seenTail);
    DistanceCounts(s.cap, s.popped, |s.log|);
    if ReadSlot(s, s', a) {
      ReadSlotInv(s, s', a);
    } else if StoreHead(s, s', a) {
      StoreHeadInv(s, s', a);
    } else {
      LiveKept(s, s');
      hide Slot, Pos, Increment, Distance, Live;
    }
  }

  /** A step is never stuck on an index out of the buffer. */
  lemma SlotsInRange<T>(s: State<T>)
    requires Inv(s)
    ensures 0 <= Slot(s.cap, s.pTail) < |s.buffer| && 0 <= Slot(s.cap, s.cHead) < |s.buffer|
  {
    SlotsDiffer(s.cap, |s.log|, |s.log|);
    SlotsDiffer(s.cap, s.popped, s.popped);
  }

  ghost predicate Run<T(!new)>(ss: seq<State<T>>, acts: seq<Action<T>>) {
    && |ss| == |acts| + 1 && Start(ss[0])
    && forall k :: 0 <= k < |acts| ==> Step(ss[k], ss[k + 1], acts[k])
  }

  /**
   Linearizability: in every interleaving, each step acts on the contents as one atomic operation of a
   bounded queue, or not at all.
   */
  lemma {:induction false} RefinesBoundedQueue<T(!new)>(ss: seq<State<T>>, acts: seq<Action<T>>, k: nat)
    requires Run(ss, acts) && k <= |acts|
    ensures Inv(ss[k]) && ss[k].cap == ss[0].cap && Contents(ss[0]) == []
    ensures k < |acts| ==> FifoStep(ss[0].cap, Contents(ss[k]), Contents(ss[k + 1]), acts[k])
    decreases k
  {
    hide Start, Step, Inv, FifoStep, Contents;
    StartInv(ss[0]);
    if k > 0 {
      RefinesBoundedQueue(ss, acts, k - 1);
      assert Step(ss[k - 1], ss[k], acts[k - 1]);
      StepInv(ss[k - 1], ss[k], acts[k - 1]);
    }
    if k < |acts| {
      assert Step(ss[k], ss[k + 1], acts[k]);
      StepInv(ss[k], ss[k + 1], acts[k]);
    }
  }

  lemma StartInv<T>(s: State<T>)
    requires Start(s)
    ensures Inv(s) && Contents(s) == []
  {
  }

  lemma StepInv<T(!new)>(s: State<T>, s': State<T>, a: Action<T>)
    requires Inv(s) && Step(s, s', a)
    ensures Inv(s') && s'.cap == s.cap && FifoStep(s.cap, Contents(s), Contents(s'), a)
  {
    if ProducerStep(s, s', a) {
      ProducerStepInv(s, s', a);
    } else {
      ConsumerStepInv(s, s', a);
    }
  }

  // What went in comes out

  ghost function PushedIn<T>(a: Action<T>): seq<T> {
    if a.Pushed? then [a.v] else []
  }

  ghost function PoppedIn<T>(a: Action<T>): seq<T> {
    if a.Popped? then [a.v] else []
  }

  ghost function PushedBy<T>(acts: seq<Action<T>>): seq<T> {
    if acts == [] then [] else PushedBy(acts[..|acts| - 1]) + PushedIn(acts[|acts| - 1])
  }

  ghost function PoppedBy<T>(acts: seq<Action<T>>): seq<T> {
    if acts == [] then [] else PoppedBy(acts[..|acts| - 1]) + PoppedIn(acts[|acts| - 1])
  }

  lemma Account<T>(cap: nat, pushed: seq<T>, popped: seq<T>, q: seq<T>, q': seq<T>, a: Action<T>)
    requires pushed == popped + q && FifoStep(cap, q, q', a)
    ensures pushed + PushedIn(a) == popped + PoppedIn(a) + q'
  {
  }

  /** In every run the values popped, followed by the contents, are exactly the values pushed, in order. */
  lemma {:induction false} FirstInFirstOut<T(!new)>(ss: seq<State<T>>, acts: seq<Action<T>>)
    requires Run(ss, acts)
    ensures PushedBy(acts) == PoppedBy(acts) + Contents(ss[|acts|])
    decreases |acts|
  {
    var n := |acts|;
    if n == 0 {
      RefinesBoundedQueue(ss, acts, 0);
    } else {
      RunPrefix(ss, acts);
      FirstInFirstOut(ss[..n], acts[..n - 1]);
      RefinesBoundedQueue(ss, acts, n - 1);
      hide Run, Inv, FifoStep, Contents, PushedIn, PoppedIn;
      Account(ss[0].cap, PushedBy(acts[..n - 1]), PoppedBy(acts[..n - 1]), Contents(ss[n - 1]), Contents(ss[n]),
              acts[n - 1]);
    }
  }

  lemma RunPrefix<T(!new)>(ss: seq<State<T>>, acts: seq<Action<T>>)
    requires Run(ss, acts) && acts != []
    ensures Run(ss[..|acts|], acts[..|acts| - 1])
  {
    hide Step, Start;
    var ss0, acts0 := ss[..|acts|], acts[..|acts| - 1];
    forall k | 0 <= k < |acts0|
      ensures Step(ss0[k], ss0[k + 1], acts0[k])
    {
      assert Step(ss[k], ss[k + 1], acts[k]);
    }
  }
}
