/**
 The null-message protocol: actors with one merger each, joined by FIFO channels. A step is one
 merger round of one actor, or its reaction to the event that won.
 */
module Protocol {
  import opened Events

  /** Who feeds a channel: the world, the actor itself (a server's timers), or a neighbour. */
  datatype Origin = World | Self(actor: nat) | Link(sender: nat)

  datatype Channel = Channel(origin: Origin, dst: nat)

  /** `ids` names the actors in the events they send. */
  datatype Net = Net(actors: nat, ids: seq<nat>, channels: seq<Channel>, latency: nat)

  ghost function IdOf(net: Net, i: nat): nat {
    if i < |net.ids| then net.ids[i] else 0
  }

  ghost predicate NetOk(net: Net) {
    && net.latency > 0
    && (forall c :: 0 <= c < |net.channels| ==> ChannelOk(net, net.channels[c]))
    && (forall i :: 0 <= i < net.actors ==> HearsWorld(net, i))
  }

  ghost predicate HearsWorld(net: Net, i: nat) {
    exists c :: 0 <= c < |net.channels| && net.channels[c] == Channel(World, i)
  }

  ghost predicate ChannelOk(net: Net, c: Channel) {
    && c.dst < net.actors
    && (c.origin.Self? ==> c.origin.actor == c.dst)
    && (c.origin.Link? ==> c.origin.sender < net.actors)
  }

  datatype Phase = Ready | Deciding | Done

  /**
   Per channel its queue, the event representing it in the receiver's merger, and the sender's
   `out_times` entry (`tor_time` for a server); per actor the channel that won last and its phase.
   */
  datatype Global<U> = Global(queue: seq<seq<Event<U>>>, curr: seq<Event<U>>, clock: seq<nat>,
                              winner: seq<nat>, phase: seq<Phase>)

  ghost predicate Sized<U>(net: Net, s: Global<U>) {
    && |s.queue| == |s.curr| == |s.clock| == |net.channels|
    && |s.winner| == |s.phase| == net.actors
    && forall i :: 0 <= i < net.actors ==> s.winner[i] < |net.channels| && net.channels[s.winner[i]].dst == i
  }

  /** The event last chosen by actor `i`'s merger. */
  ghost function Chosen<U>(net: Net, s: Global<U>, i: nat): Event<U>
    requires Sized(net, s) && i < net.actors
  {
    s.curr[s.winner[i]]
  }

  ghost predicate LeastAmong<U>(net: Net, s: Global<U>, i: nat)
    requires Sized(net, s) && i < net.actors
  {
    forall c :: 0 <= c < |net.channels| && net.channels[c].dst == i ==> Leq(Chosen(net, s, i), s.curr[c])
  }

  // Start

  ghost predicate Start<U>(net: Net, s: Global<U>) {
    && Sized(net, s)
    && (forall i :: 0 <= i < net.actors ==> s.phase[i] == Ready)
    && (forall c :: 0 <= c < |net.channels| ==> s.curr[c] == Event(0, s.curr[c].src, Null) && s.clock[c] == 0)
    && (forall c :: 0 <= c < |net.channels| ==> StartQueue(net, net.channels[c].origin, s.queue[c]))
  }

  /**
   A null promising one latency on links, one timeout to itself, and from the world a schedule that ends with Close.
   */
  ghost predicate StartQueue<U>(net: Net, origin: Origin, q: seq<Event<U>>) {
    match origin
    case Link(_) => |q| == 1 && q[0].eventType.Null? && q[0].time == net.latency
    case Self(_) => |q| == 1 && q[0].eventType.ModelEvent?
    case World => Closing(q) && Sorted(q)
  }

  ghost predicate Open<U>(es: seq<Event<U>>) {
    forall a :: 0 <= a < |es| ==> !es[a].eventType.Close?
  }

  ghost predicate Closing<U>(es: seq<Event<U>>) {
    && es != [] && es[|es| - 1].eventType.Close?
    && Open(es[..|es| - 1])
    && forall a :: 0 <= a < |es| ==> !es[a].eventType.Stalled?
  }

  // Steps

  /** The queue of channel `w` is popped into the merger, or a stall at its last time takes its place. */
  ghost predicate Popped<U>(s: Global<U>, s': Global<U>, w: nat)
    requires w < |s.queue| && w < |s.curr|
  {
    var q := s.queue[w];
    && s'.queue == (if q == [] then s.queue else s.queue[w := q[1..]])
    && s'.curr == s.curr[w := if q == [] then Event(s.curr[w].time, w, Stalled) else q[0].(src := w)]
  }

  /** A merger round: pop the last winner's queue (or stall), then the least event wins. */
  ghost predicate Pop<U>(net: Net, s: Global<U>, s': Global<U>, i: nat) {
    && Sized(net, s) && Sized(net, s') && i < net.actors && s.phase[i] == Ready
    && s'.phase == s.phase[i := Deciding]
    && s'.clock == s.clock
    && Popped(s, s', s.winner[i])
    && (forall j :: 0 <= j < net.actors && j != i ==> s'.winner[j] == s.winner[j])
    && LeastAmong(net, s', i)
  }

  /** The channel is as before. */
  ghost predicate Quiet<U>(s: Global<U>, s': Global<U>, c: nat)
    requires c < |s.queue| && c < |s'.queue| && c < |s.clock| && c < |s'.clock|
  {
    s'.queue[c] == s.queue[c] && s'.clock[c] == s.clock[c]
  }

  ghost predicate Retry<U>(net: Net, s: Global<U>, s': Global<U>, i: nat) {
    && Sized(net, s) && i < net.actors && s.phase[i] == Deciding
    && (Chosen(net, s, i).eventType.Null? || (Chosen(net, s, i).eventType.Stalled? && s.queue[s.winner[i]] != []))
    && s' == s.(phase := s.phase[i := Ready])
  }

  /** What every reaction leaves alone. */
  ghost predicate Reacts<U>(net: Net, s: Global<U>, s': Global<U>, i: nat) {
    && Sized(net, s) && i < net.actors && s.phase[i] == Deciding
    && s'.winner == s.winner && s'.curr == s.curr
    && |s'.queue| == |s.queue| && |s'.clock| == |s.clock|
  }

  /** The null sent to a neighbour whose clock is behind the stall at `t`. */
  function Promise<U>(id: nat, clock: nat, t: nat, latency: nat): seq<Event<U>> {
    if clock < t then [Event(t + latency, id, Null)] else []
  }

  /** Stalled: every neighbour that does not know yet is promised nothing before the stall time plus latency. */
  ghost predicate Stall<U>(net: Net, s: Global<U>, s': Global<U>, i: nat) {
    && Reacts(net, s, s', i)
    && Chosen(net, s, i).eventType.Stalled? && s.queue[s.winner[i]] == []
    && s'.phase == s.phase[i := Ready]
    && forall c :: 0 <= c < |net.channels| ==> StallPush(net, s, s', i, c)
  }

  ghost predicate StallPush<U>(net: Net, s: Global<U>, s': Global<U>, i: nat, c: nat)
    requires Reacts(net, s, s', i) && c < |net.channels|
  {
    if net.channels[c].origin == Link(i) then
      var t := Chosen(net, s, i).time;
      && s'.queue[c] == s.queue[c] + Promise(IdOf(net, i), s.clock[c], t, net.latency)
      && s'.clock[c] == if s.clock[c] < t then t else s.clock[c]
    else Quiet(s, s', c)
  }

  /** Close: passed on everywhere, to the actor's own queue too. */
  ghost predicate CloseDown<U>(net: Net, s: Global<U>, s': Global<U>, i: nat) {
    && Reacts(net, s, s', i)
    && Chosen(net, s, i).eventType.Close?
    && s'.phase == s.phase[i := Done]
    && forall c :: 0 <= c < |net.channels| ==> ClosePush(net, s, s', i, c)
  }

  ghost predicate ClosePush<U>(net: Net, s: Global<U>, s': Global<U>, i: nat, c: nat)
    requires Reacts(net, s, s', i) && c < |net.channels|
  {
    if net.channels[c].origin == Link(i) || net.channels[c].origin == Self(i) then
      && s'.clock[c] == s.clock[c]
      && s'.queue[c] == s.queue[c] + [Event(Chosen(net, s, i).time + net.latency, IdOf(net, i), Close)]
    else Quiet(s, s', c)
  }

  /** Packets sent in one reaction: each finishes transmission after the one before, and arrives a latency later. */
  ghost predicate Burst<U>(sent: seq<Event<U>>, before: nat, after: nat, latency: nat) {
    && (forall a :: 0 <= a < |sent| ==> sent[a].eventType.ModelEvent?)
    && Sorted(sent)
    && if sent == [] then after == before
       else before + latency <= sent[0].time && sent[|sent| - 1].time == after + latency
  }

  /** A model event: a burst on each link, and exactly one new timeout if the event came from its own timer. */
  ghost predicate Model<U>(net: Net, s: Global<U>, s': Global<U>, i: nat) {
    && Reacts(net, s, s', i)
    && Chosen(net, s, i).eventType.ModelEvent?
    && s'.phase == s.phase[i := Ready]
    && forall c :: 0 <= c < |net.channels| ==> ModelPush(net, s, s', i, c)
  }

  ghost predicate ModelPush<U>(net: Net, s: Global<U>, s': Global<U>, i: nat, c: nat)
    requires Reacts(net, s, s', i) && c < |net.channels|
  {
    if net.channels[c].origin == Link(i) then
      && |s.queue[c]| <= |s'.queue[c]| && s'.queue[c][..|s.queue[c]|] == s.queue[c]
      && Burst(s'.queue[c][|s.queue[c]|..], s.clock[c], s'.clock[c], net.latency)
    else if net.channels[c].origin == Self(i) && s.winner[i] == c then
      && s'.clock[c] == s.clock[c]
      && |s'.queue[c]| == |s.queue[c]| + 1 && s'.queue[c][..|s.queue[c]|] == s.queue[c]
      && var e := s'.queue[c][|s.queue[c]|];
         e.eventType.ModelEvent? && Chosen(net, s, i).time <= e.time
    else Quiet(s, s', c)
  }

  ghost predicate Step<U>(net: Net, s: Global<U>, s': Global<U>, i: nat) {
    Pop(net, s, s', i) || Retry(net, s, s', i) || Stall(net, s, s', i) || CloseDown(net, s, s', i)
    || Model(net, s, s', i)
  }

  // Invariant

  /** What receiver and channel hold together: the current event, then the queue. */
  ghost function Stream<U>(s: Global<U>, c: nat): seq<Event<U>>
    requires c < |s.queue| && c < |s.curr|
  {
    [s.curr[c]] + s.queue[c]
  }

  ghost function Latest<U>(s: Global<U>, c: nat): Event<U>
    requires c < |s.queue| && c < |s.curr|
  {
    if s.queue[c] == [] then s.curr[c] else s.queue[c][|s.queue[c]| - 1]
  }

  /** Stalls and placeholders never wait in a queue. */
  ghost predicate Queued<U>(es: seq<Event<U>>) {
    forall a :: 0 <= a < |es| ==> !es[a].eventType.Stalled?
  }

  /**
   A live link is in order and its newest timestamp is the sender's clock plus the latency. A link
   whose sender has finished ends with Close, and only that Close may be out of order.
   */
  ghost predicate LinkInv<U>(net: Net, s: Global<U>, c: nat, sender: nat)
    requires Sized(net, s) && c < |net.channels| && sender < net.actors
  {
    var st := Stream(s, c);
    && Queued(s.queue[c])
    && if s.phase[sender] == Done then
         && Latest(s, c).eventType.Close?
         && Open(st[..|st| - 1]) && Sorted(st[..|st| - 1])
       else
         && Open(st) && Sorted(st)
         && Latest(s, c).time == s.clock[c] + net.latency
  }

  /** The world's schedule always has its Close to come, and nothing is scheduled after it. */
  ghost predicate WorldInv<U>(s: Global<U>, c: nat)
    requires c < |s.queue| && c < |s.curr|
  {
    var st := Stream(s, c);
    && Queued(st) && Latest(s, c).eventType.Close?
    && Open(st[..|st| - 1]) && Sorted(st)
  }

  /** While its actor runs, the self queue has exactly one timeout pending: queued, or held in the merger. */
  ghost predicate SelfInv<U>(net: Net, s: Global<U>, c: nat, i: nat)
    requires Sized(net, s) && c < |net.channels| && i < net.actors
  {
    s.phase[i] != Done ==>
      && Queued(Stream(s, c)) && Open(Stream(s, c)) && Sorted(Stream(s, c))
      && (forall a :: 0 <= a < |s.queue[c]| ==> s.queue[c][a].eventType.ModelEvent?)
      && (s.curr[c].eventType.Null? ==> s.curr[c].time == 0)
      && |s.queue[c]| == if s.curr[c].eventType.ModelEvent? && !(s.winner[i] == c && s.phase[i] == Ready) then 0 else 1
  }

  ghost predicate ChannelInv<U>(net: Net, s: Global<U>, c: nat)
    requires Sized(net, s) && c < |net.channels| && ChannelOk(net, net.channels[c])
  {
    match net.channels[c].origin
    case Link(j) => LinkInv(net, s, c, j)
    case World => WorldInv(s, c)
    case Self(i) => SelfInv(net, s, c, i)
  }

  ghost predicate ActorInv<U>(net: Net, s: Global<U>, i: nat)
    requires Sized(net, s) && i < net.actors
  {
    && LeastAmong(net, s, i)
    && (s.phase[i] == Ready ==> !Chosen(net, s, i).eventType.Close?)
  }

  ghost predicate Inv<U>(net: Net, s: Global<U>) {
    && NetOk(net) && Sized(net, s)
    && (forall c :: 0 <= c < |net.channels| ==> ChannelInv(net, s, c))
    && (forall i :: 0 <= i < net.actors ==> ActorInv(net, s, i))
  }

  lemma StartInv<U>(net: Net, s: Global<U>)
    requires NetOk(net) && Start(net, s)
    ensures Inv(net, s)
  {
    forall c | 0 <= c < |net.channels|
      ensures ChannelInv(net, s, c)
    {
      assert StartQueue(net, net.channels[c].origin, s.queue[c]);
      if net.channels[c].origin.World? {
        var st := Stream(s, c);
        assert st[..|st| - 1] == [s.curr[c]] + s.queue[c][..|s.queue[c]| - 1];
      }
    }
  }

  /** Popping the head of a queue shortens the stream at the front; stalling keeps its times. */
  lemma PopStream<U>(s: Global<U>, s': Global<U>, c: nat)
    requires c < |s.queue| && c < |s.curr| && |s'.queue| == |s.queue| && |s'.curr| == |s.curr|
    requires Popped(s, s', c)
    ensures s.queue[c] != [] ==> |Stream(s', c)| == |Stream(s, c)| - 1
    ensures s.queue[c] != [] ==> forall a :: 0 <= a < |Stream(s', c)| ==>
              Stream(s', c)[a].time == Stream(s, c)[a + 1].time
              && Stream(s', c)[a].eventType == Stream(s, c)[a + 1].eventType
    ensures s.queue[c] == [] ==> s'.queue[c] == [] && s'.curr[c].time == s.curr[c].time && s'.curr[c].eventType.Stalled?
    ensures Latest(s', c).time == Latest(s, c).time
    ensures s.queue[c] != [] ==> Latest(s', c).eventType == Latest(s, c).eventType
  {
  }

  lemma PopLink<U>(net: Net, s: Global<U>, s': Global<U>, c: nat, sender: nat)
    requires Sized(net, s) && Sized(net, s') && c < |net.channels| && sender < net.actors && Popped(s, s', c)
    requires LinkInv(net, s, c, sender) && s'.clock == s.clock
    requires (s'.phase[sender] == Done <==> s.phase[sender] == Done)
    requires s.queue[c] == [] ==> !s.curr[c].eventType.Close?
    ensures LinkInv(net, s', c, sender)
  {
    PopStream(s, s', c);
    hide Sized;
  }

  lemma PopWorld<U>(s: Global<U>, s': Global<U>, c: nat)
    requires c < |s.queue| && c < |s.curr| && |s'.queue| == |s.queue| && |s'.curr| == |s.curr| && Popped(s, s', c)
    requires WorldInv(s, c) && (s.queue[c] == [] ==> !s.curr[c].eventType.Close?)
    ensures WorldInv(s', c)
  {
    PopStream(s, s', c);
  }

  lemma PopSelf<U>(net: Net, s: Global<U>, s': Global<U>, c: nat, i: nat)
    requires Sized(net, s) && Sized(net, s') && c < |net.channels| && i < net.actors && Popped(s, s', c)
    requires SelfInv(net, s, c, i) && s.winner[i] == c && s.phase[i] == Ready && s'.phase[i] == Deciding
    ensures SelfInv(net, s', c, i)
  {
    PopStream(s, s', c);
    hide Sized;
    if s.queue[c] != [] {
      assert s.queue[c][0] == Stream(s, c)[1];
    }
  }

  lemma PopChannel<U>(net: Net, s: Global<U>, s': Global<U>, i: nat)
    requires Inv(net, s) && Pop(net, s, s', i)
    ensures ChannelInv(net, s', s.winner[i])
  {
    var c := s.winner[i];
    assert ChannelInv(net, s, c) && ActorInv(net, s, i);
    hide LinkInv, WorldInv, SelfInv, Popped, LeastAmong;
    match net.channels[c].origin {
      case Link(j) => PopLink(net, s, s', c, j);
      case World => PopWorld(s, s', c);
      case Self(j) => PopSelf(net, s, s', c, j);
    }
  }

  lemma PopOther<U>(net: Net, s: Global<U>, s': Global<U>, i: nat, c: nat)
    requires Inv(net, s) && Pop(net, s, s', i) && c < |net.channels| && c != s.winner[i]
    ensures ChannelInv(net, s', c)
  {
    assert ChannelInv(net, s, c);
    hide LeastAmong;
  }

  lemma PopInv<U>(net: Net, s: Global<U>, s': Global<U>, i: nat)
    requires Inv(net, s) && Pop(net, s, s', i)
    ensures Inv(net, s')
  {
    hide ChannelInv, Popped;
    PopChannel(net, s, s', i);
    forall c | 0 <= c < |net.channels| && c != s.winner[i]
      ensures ChannelInv(net, s', c)
    {
      PopOther(net, s, s', i, c);
    }
    forall j | 0 <= j < net.actors && j != i
      ensures ActorInv(net, s', j)
    {
      assert ActorInv(net, s, j);
      PopActor(net, s, s', i, j);
    }
  }

  /** A round of one actor leaves what the others have to choose from. */
  lemma PopActor<U>(net: Net, s: Global<U>, s': Global<U>, i: nat, j: nat)
    requires Pop(net, s, s', i) && j < net.actors && j != i && ActorInv(net, s, j)
    ensures ActorInv(net, s', j)
  {
  }

  lemma AppendInOrder<U>(st: seq<Event<U>>, sent: seq<Event<U>>)
    requires st != [] && Open(st) && Sorted(st) && Open(sent) && Sorted(sent)
    requires sent != [] ==> st[|st| - 1].time <= sent[0].time
    ensures Open(st + sent) && Sorted(st + sent)
  {
  }

  /** A promise on a live link. */
  lemma StallLink<U>(net: Net, s: Global<U>, s': Global<U>, i: nat, c: nat)
    requires Inv(net, s) && Stall(net, s, s', i) && c < |net.channels| && net.channels[c].origin == Link(i)
    ensures LinkInv(net, s', c, i)
  {
    assert ChannelInv(net, s, c) && StallPush(net, s, s', i, c);
    var sent := Promise<U>(IdOf(net, i), s.clock[c], Chosen(net, s, i).time, net.latency);
    assert Stream(s', c) == Stream(s, c) + sent;
    hide Inv, Stall, StallPush, Sized, Reacts;
    if sent != [] {
      AppendInOrder(Stream(s, c), sent);
    } else {
      assert Stream(s, c) + sent == Stream(s, c);
    }
  }

  lemma QuietChannel<U>(net: Net, s: Global<U>, s': Global<U>, i: nat, c: nat)
    requires Inv(net, s) && Reacts(net, s, s', i) && Sized(net, s') && c < |net.channels| && Quiet(s, s', c)
    requires s'.phase == s.phase[i := Ready] && net.channels[c].origin != Self(i)
    ensures ChannelInv(net, s', c)
  {
    assert ChannelInv(net, s, c);
    assert Stream(s', c) == Stream(s, c);
    hide Inv, Open, Sorted, Queued;
  }

  lemma StallSelf<U>(net: Net, s: Global<U>, s': Global<U>, i: nat, c: nat)
    requires Inv(net, s) && Stall(net, s, s', i) && c < |net.channels| && net.channels[c].origin == Self(i)
    ensures ChannelInv(net, s', c)
  {
    assert ChannelInv(net, s, c) && StallPush(net, s, s', i, c);
    assert Stream(s', c) == Stream(s, c);
  }

  lemma StallChannel<U>(net: Net, s: Global<U>, s': Global<U>, i: nat, c: nat)
    requires Inv(net, s) && Stall(net, s, s', i) && c < |net.channels|
    ensures ChannelInv(net, s', c)
  {
    assert ChannelInv(net, s, c) && StallPush(net, s, s', i, c);
    hide Inv, LinkInv, Chosen;
    if net.channels[c].origin == Link(i) {
      StallLink(net, s, s', i, c);
    } else if net.channels[c].origin == Self(i) {
      StallSelf(net, s, s', i, c);
    } else {
      QuietChannel(net, s, s', i, c);
    }
  }

  lemma StallInv<U>(net: Net, s: Global<U>, s': Global<U>, i: nat)
    requires Inv(net, s) && Stall(net, s, s', i)
    ensures Inv(net, s')
  {
    hide ChannelInv, StallPush;
    forall c | 0 <= c < |net.channels|
      ensures ChannelInv(net, s', c)
    {
      StallChannel(net, s, s', i, c);
    }
    forall j | 0 <= j < net.actors
      ensures ActorInv(net, s', j)
    {
      assert ActorInv(net, s, j);
    }
  }

  lemma CloseInv<U>(net: Net, s: Global<U>, s': Global<U>, i: nat)
    requires Inv(net, s) && CloseDown(net, s, s', i)
    ensures Inv(net, s')
  {
    forall c | 0 <= c < |net.channels|
      ensures ChannelInv(net, s', c)
    {
      assert ChannelInv(net, s, c) && ClosePush(net, s, s', i, c);
      if net.channels[c].origin == Link(i) {
        var st := Stream(s', c);
        assert st[..|st| - 1] == Stream(s, c);
      }
    }
    forall j | 0 <= j < net.actors
      ensures ActorInv(net, s', j)
    {
      assert ActorInv(net, s, j);
    }
  }

  /** Passing on Close keeps a link in order exactly when the link's clock is not ahead of the Close. */
  lemma CloseKeepsOrderIff<U>(net: Net, s: Global<U>, s': Global<U>, i: nat, c: nat)
    requires Inv(net, s) && CloseDown(net, s, s', i) && c < |net.channels| && net.channels[c].origin == Link(i)
    ensures Sorted(Stream(s', c)) <==> s.clock[c] <= Chosen(net, s, i).time
  {
    assert ChannelInv(net, s, c) && ClosePush(net, s, s', i, c);
    var st, st' := Stream(s, c), Stream(s', c);
    var n := |st|;
    assert st'[n] == Event(Chosen(net, s, i).time + net.latency, IdOf(net, i), Close) && st'[n - 1] == Latest(s, c);
    assert st'[..n] == st;
  }

  lemma ModelLink<U>(net: Net, s: Global<U>, s': Global<U>, i: nat, c: nat)
    requires Inv(net, s) && Model(net, s, s', i) && c < |net.channels| && net.channels[c].origin == Link(i)
    ensures ChannelInv(net, s', c)
  {
    assert ChannelInv(net, s, c) && ModelPush(net, s, s', i, c);
    var sent := s'.queue[c][|s.queue[c]|..];
    assert s'.queue[c] == s.queue[c] + sent;
    AppendInOrder(Stream(s, c), sent);
    assert Stream(s', c) == Stream(s, c) + sent;
  }

  lemma ModelSelf<U>(net: Net, s: Global<U>, s': Global<U>, i: nat, c: nat)
    requires Inv(net, s) && Model(net, s, s', i) && c < |net.channels|
    requires net.channels[c].origin == Self(i) && s.winner[i] == c
    ensures ChannelInv(net, s', c)
  {
    assert ChannelInv(net, s, c) && ModelPush(net, s, s', i, c);
    assert s.queue[c] == [] && s.curr[c] == Chosen(net, s, i);
    assert Stream(s, c)[0] == s.curr[c];
    var e := s'.queue[c][0];
    assert Stream(s', c) == [s.curr[c], e];
  }

  lemma ModelChannel<U>(net: Net, s: Global<U>, s': Global<U>, i: nat, c: nat)
    requires Inv(net, s) && Model(net, s, s', i) && c < |net.channels|
    ensures ChannelInv(net, s', c)
  {
    if net.channels[c].origin == Link(i) {
      ModelLink(net, s, s', i, c);
    } else if net.channels[c].origin == Self(i) && s.winner[i] == c {
      ModelSelf(net, s, s', i, c);
    } else {
      assert ChannelInv(net, s, c) && ModelPush(net, s, s', i, c);
    }
  }

  lemma ModelInv<U>(net: Net, s: Global<U>, s': Global<U>, i: nat)
    requires Inv(net, s) && Model(net, s, s', i)
    ensures Inv(net, s')
  {
    forall c | 0 <= c < |net.channels|
      ensures ChannelInv(net, s', c)
    {
      ModelChannel(net, s, s', i, c);
    }
    forall j | 0 <= j < net.actors
      ensures ActorInv(net, s', j)
    {
      assert ActorInv(net, s, j);
    }
  }

  lemma StepInv<U>(net: Net, s: Global<U>, s': Global<U>, i: nat)
    requires Inv(net, s) && Step(net, s, s', i)
    ensures Inv(net, s')
  {
    if Pop(net, s, s', i) {
      PopInv(net, s, s', i);
    } else if Stall(net, s, s', i) {
      StallInv(net, s, s', i);
    } else if CloseDown(net, s, s', i) {
      CloseInv(net, s, s', i);
    } else if Model(net, s, s', i) {
      ModelInv(net, s, s', i);
    } else {
      forall c | 0 <= c < |net.channels|
        ensures ChannelInv(net, s', c)
      {
        assert ChannelInv(net, s, c);
      }
      forall j | 0 <= j < net.actors
        ensures ActorInv(net, s', j)
      {
        assert ActorInv(net, s, j);
      }
    }
  }
}
