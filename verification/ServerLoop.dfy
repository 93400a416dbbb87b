/** A server's event loop over its merger. Queue 0 is the one the server sends its timeouts to itself on. */
module ServerLoop {
  import opened Events
  import opened NetworkEvents
  import opened MergerSpec
  import opened Merger
  import opened Tcp
  import opened Timers
  import opened Links
  import opened EventLoops
  import opened LoserTree
  import opened TreeGeometry
  import Protocol
  import opened Server

  predicate IsTimeout(e: EventType<NetworkEvent>) {
    e.ModelEvent? && e.model.Timeout?
  }

  /**
   Exactly one Timeout is in flight, due at `pending`: queued, or waiting in the merger. Only while it is
   being handled (it has won, and the merger is not `ready` yet) is it in neither place.
   */
  ghost predicate SelfFeed(s: MState<NetworkEvent>, pending: nat, ready: bool)
    requires |s.queues| > 0 && |s.curr| > 0
  {
    var e, q := s.curr[0], s.queues[0];
    && (IsTimeout(e.eventType) || (e.eventType.Null? && q != []))
    && e.time <= pending
    && (forall a :: 0 <= a < |q| ==> IsTimeout(q[a].eventType) && q[a].time == pending)
    && |q| == (if IsTimeout(e.eventType) && !(s.winner == 0 && ready) then 0 else 1)
    && (q == [] ==> e.time == pending)
  }

  /** What neighbours send: no timeouts, and acknowledgements only for packets that have been sent. */
  ghost predicate Fits(e: EventType<NetworkEvent>, views: seq<FlowState>) {
    && !e.Stalled? && !IsTimeout(e)
    && (e.ModelEvent? && e.model.PacketArrival? && e.model.packet.isAck ==>
          var p := e.model.packet; p.flowId < |views| && p.seqNum < |views[p.flowId].acked|)
  }

  /** In order, but for a Close, which may come early. */
  ghost predicate InTime(es: seq<ModelEvent>) {
    forall a, b :: 0 <= a < b < |es| && !es[b].eventType.Close? ==> es[a].time <= es[b].time
  }

  ghost predicate NeighbourFeed(e: ModelEvent, q: seq<ModelEvent>, views: seq<FlowState>) {
    && (Visible(e) ==> Fits(e.eventType, views))
    && (forall a :: 0 <= a < |q| ==> Fits(q[a].eventType, views))
    && InTime([e] + q)
  }

  ghost predicate Feed(s: MState<NetworkEvent>, pending: nat, views: seq<FlowState>, ready: bool) {
    && WellFormed(s) && |s.curr| >= 2 && LeastIn(s.winner, s.curr)
    && SelfFeed(s, pending, ready)
    && forall c :: 1 <= c < |s.curr| ==> NeighbourFeed(s.curr[c], s.queues[c], views)
  }

  /** The winner is a Close, or not earlier than `t`. */
  ghost predicate NotBefore(s: MState<NetworkEvent>, t: nat) {
    s.winner < |s.curr| && (s.curr[s.winner].eventType.Close? || t <= s.curr[s.winner].time)
  }

  lemma PopInTime(e: ModelEvent, q: seq<ModelEvent>, src: nat)
    requires q != [] && InTime([e] + q)
    ensures InTime([q[0].(src := src)] + q[1..]) && (q[0].eventType.Close? || e.time <= q[0].time)
  {
    var st, st' := [e] + q, [q[0].(src := src)] + q[1..];
    assert st[0] == e && st[1] == q[0];
    forall a, b | 0 <= a < b < |st'| && !st'[b].eventType.Close?
      ensures st'[a].time <= st'[b].time
    {
      assert st'[a].time == st[a + 1].time && st'[b] == st[b + 1];
    }
  }

  lemma RoundFeed(s: MState<NetworkEvent>, t: MState<NetworkEvent>, pending: nat, views: seq<FlowState>)
    requires Feed(s, pending, views, true) && Round(s, t) && WellFormed(t)
    ensures Feed(t, pending, views, false) && NotBefore(t, Reached(s))
  {
    var w := s.winner;
    hide InTime, Fits;
    forall c | 1 <= c < |t.curr| && c != w
      ensures NeighbourFeed(t.curr[c], t.queues[c], views)
    {
      assert NeighbourFeed(s.curr[c], s.queues[c], views);
    }
    if w > 0 {
      assert NeighbourFeed(s.curr[w], s.queues[w], views);
      WinnerFeed(s, t, views);
    }
  }

  lemma WinnerFeed(s: MState<NetworkEvent>, t: MState<NetworkEvent>, views: seq<FlowState>)
    requires Round(s, t) && 0 < s.winner && NeighbourFeed(s.curr[s.winner], s.queues[s.winner], views)
    ensures NeighbourFeed(t.curr[s.winner], t.queues[s.winner], views)
    ensures t.curr[s.winner].eventType.Close? || s.curr[s.winner].time <= t.curr[s.winner].time
  {
    if s.queues[s.winner] != [] {
      PopInTime(s.curr[s.winner], s.queues[s.winner], s.winner);
    }
  }

  /** Over the rounds of a call nothing but a Close goes back in time. */
  lemma {:induction false} CallFeed(trace: seq<MState<NetworkEvent>>, k: nat, pending: nat, views: seq<FlowState>)
    requires Call(trace) && 1 <= k < |trace| && Feed(trace[0], pending, views, true)
    ensures Feed(trace[k], pending, views, false) && NotBefore(trace[k], Reached(trace[0]))
    decreases k
  {
    hide Round, SelfFeed, InTime, Fits, LeastIn;
    if k > 1 {
      CallFeed(trace, k - 1, pending, views);
      RetryFeed(trace[k - 1], pending, views);
    }
    assert Round(trace[k - 1], trace[k]);
    RoundFeed(trace[k - 1], trace[k], pending, views);
  }

  lemma RetryFeed(s: MState<NetworkEvent>, pending: nat, views: seq<FlowState>)
    requires Feed(s, pending, views, false) && Retry(s)
    ensures Feed(s, pending, views, true) && !s.curr[s.winner].eventType.Close?
  {
  }

  /** Nothing neighbour 1 has in store lies after the horizon. */
  ghost predicate Within(s: MState<NetworkEvent>, horizon: nat) {
    && |s.curr| >= 2 && |s.queues| >= 2
    && s.curr[1].time <= horizon
    && forall a :: 0 <= a < |s.queues[1]| ==> s.queues[1][a].time <= horizon
  }

  ghost function Horizon(e: ModelEvent, q: seq<ModelEvent>): (h: nat)
    ensures e.time <= h && forall a :: 0 <= a < |q| ==> q[a].time <= h
  {
    if q == [] then e.time
    else
      var h := Horizon(e, q[..|q| - 1]);
      if h < q[|q| - 1].time then q[|q| - 1].time else h
  }

  lemma SomeHorizon(server: Server, merger: Merger<NetworkEvent>) returns (horizon: nat)
    requires Awaits(server, merger)
    ensures Ahead(server, merger, horizon)
  {
    var s := merger.State();
    horizon := Horizon(s.curr[1], s.queues[1]);
    assert Leq(s.curr[s.winner], s.curr[1]);
    PendingSoon(server);
  }

  lemma PendingSoon(server: Server)
    requires server.Valid()
    ensures server.pending <= server.now + MIN_RTO
  {
  }

  lemma {:induction false} CallWithin(trace: seq<MState<NetworkEvent>>, k: nat, horizon: nat)
    requires Call(trace) && k < |trace| && Within(trace[0], horizon)
    ensures Within(trace[k], horizon)
    decreases k
  {
    hide LeastIn, Retry;
    if k > 0 {
      CallWithin(trace, k - 1, horizon);
      assert Round(trace[k - 1], trace[k]);
    }
  }

  // What the chosen event is like

  ghost predicate Awaits(server: Server, merger: Merger<NetworkEvent>)
    reads server, server.flows, merger, merger.loserE
  {
    && server.Valid() && merger.Valid()
    && Feed(merger.State(), server.pending, Views(server.flows), true)
    && Reached(merger.State()) == server.now
  }

  /**
   What a call of `Advance` asks of a server that has got to `now`, of its merger's contents and of what it has sent.
   */
  ghost predicate Ready(cfg: Config, m: MState<NetworkEvent>, x: Snapshot, now: nat) {
    && cfg.bandwidth > 0 && LinkClock(x.torQueue, x.torTime, cfg.latency)
    && TimersInv(now, x.pending, x.timeouts, x.flows)
    && x.selfQueue != [] && x.selfQueue[|x.selfQueue| - 1] == Event(x.pending, cfg.id, ModelEvent(Timeout))
    && Feed(m, x.pending, x.flows, true) && Reached(m) == now
  }

  /** Apart from the shape of its objects, a server that can be called is a ready one. */
  lemma ReadyIff(server: Server, merger: Merger<NetworkEvent>)
    requires Separate(server.flows) && merger.Valid()
    ensures Awaits(server, merger) <==> Ready(server.Configured(), merger.State(), server.Now(), server.now)
  {
  }

  lemma ChosenDeliverable(server: Server, s: MState<NetworkEvent>, e: ModelEvent)
    requires Feed(s, server.pending, Views(server.flows), false) && NotBefore(s, server.now)
    requires e == s.curr[s.winner] && !e.eventType.Null?
    ensures !e.eventType.Close? ==> server.Deliverable(e) && Reached(s) == e.time
    ensures IsTimeout(e.eventType) <==> s.winner == 0
    ensures e.time <= s.curr[1].time
  {
    assert Leq(s.curr[s.winner], s.curr[0]) && Leq(s.curr[s.winner], s.curr[1]);
    if s.winner > 0 {
      assert NeighbourFeed(s.curr[s.winner], s.queues[s.winner], Views(server.flows));
    }
  }

  // What the reaction sends back to the server itself

  /** The merger after `sent` has arrived on queue 0. */
  ghost function Fed(s: MState<NetworkEvent>, sent: seq<ModelEvent>): MState<NetworkEvent> {
    if s.queues == [] then s else s.(queues := s.queues[0 := s.queues[0] + sent])
  }

  lemma FlowsGrow(s: MState<NetworkEvent>, views: seq<FlowState>, views': seq<FlowState>)
    requires Grown(views, views')
    requires |s.queues| == |s.curr| && forall c :: 1 <= c < |s.curr| ==> NeighbourFeed(s.curr[c], s.queues[c], views)
    ensures forall c :: 1 <= c < |s.curr| ==> NeighbourFeed(s.curr[c], s.queues[c], views')
  {
    hide InTime;
    forall c | 1 <= c < |s.curr|
      ensures NeighbourFeed(s.curr[c], s.queues[c], views')
    {
      assert NeighbourFeed(s.curr[c], s.queues[c], views);
    }
  }

  /** A Timeout handled is replaced by the next; other events leave the self queue alone. */
  lemma ReactionFeed(s: MState<NetworkEvent>, pending: nat, pending': nat, views: seq<FlowState>,
                     views': seq<FlowState>,
                     sent: seq<ModelEvent>, horizon: nat)
    requires Feed(s, pending, views, false) && Grown(views, views') && Within(s, horizon)
    requires if s.winner == 0 then
               pending <= pending' && IsTimeout(s.curr[0].eventType)
               && |sent| == 1 && IsTimeout(sent[0].eventType) && sent[0].time == pending'
             else pending' == pending && sent == []
    ensures Feed(Fed(s, sent), pending', views', true) && Within(Fed(s, sent), horizon)
    ensures Reached(Fed(s, sent)) == Reached(s)
    ensures Pending(Fed(s, sent)) == Pending(s) + |sent|
  {
    FlowsGrow(s, views, views');
    TotalQueuedUpdate(s.queues, 0, s.queues[0] + sent);
    assert VisibleHeld(Fed(s, sent)) == VisibleHeld(s);
    hide NeighbourFeed, TotalQueued, VisibleHeld, Grown;
  }

  /**
   A turn of a server: what it sends to itself arrives in its merger. Timeouts, and nothing else, come over
   queue 0.
   */
  ghost predicate ServerTurn(cfg: Config, turn: Turn<Snapshot>) {
    && cfg.bandwidth > 0
    && turn.call != [] && |turn.before.selfQueue| <= |turn.after.selfQueue|
    && Reacted(cfg, turn.event, turn.before, turn.after)
    && var m := turn.call[|turn.call| - 1];
       && turn.left == Fed(m, turn.after.selfQueue[|turn.before.selfQueue|..])
       && (IsTimeout(turn.event.eventType) <==> m.winner == 0)
  }

  ghost function Answers(cfg: Config): Turn<Snapshot> -> bool {
    (turn: Turn<Snapshot>) => ServerTurn(cfg, turn)
  }

  /**
   Takes turns until the merger stalls or the simulation closes, which is reached on any contents of the
   queues. On a stall the rack has been promised the stall time; at the end Close is sent last.
   */
  method Advance(server: Server, merger: Merger<NetworkEvent>) returns (r: ActorState, ghost turns: seq<Turn<Snapshot>>)
    requires Awaits(server, merger)
    modifies server, server.flows, merger, merger.loserE
    ensures turns != []
    ensures Turns(Answers(server.Configured()), turns, old(merger.State()), merger.State(),
                  old(server.Now()), server.Now())
    ensures forall k :: 0 <= k < |turns| - 1 ==> turns[k].event.eventType.ModelEvent?
    ensures var last := turns[|turns| - 1].event;
      if last.eventType.Close? then r == Done(server.count) else last.eventType.Stalled? && r == Continue(last.time)
    ensures server.count == old(server.count) + |turns| - 1
    ensures r.Continue? ==> Awaits(server, merger) && r.time == server.now <= server.torTime
    ensures r.Done? ==> ClosedDown(server.torQueue, server.torTime, server.latencyNs)
  {
    hide *;
    ghost var horizon := SomeHorizon(server, merger);
    ghost var cfg, m, s := server.Configured(), merger.State(), server.Now();
    CountShown(server);
    turns := [];
    NoTurns(Answers(cfg), m, s);
    while true
      invariant Awaits(server, merger) && Ahead(server, merger, horizon)
      invariant forall i :: 0 <= i < |server.flows| ==> server.flows[i] in old(server.flows) || fresh(server.flows[i])
      invariant cfg == server.Configured() && Turns(Answers(cfg), turns, m, merger.State(), s, server.Now())
      invariant forall k :: 0 <= k < |turns| ==> turns[k].event.eventType.ModelEvent?
      invariant server.Now().count == s.count + |turns|
      decreases Pending(merger.State()), Slack(server, horizon), DueBy(server.pending, server.timeouts)
    {
      ghost var turn;
      var reaction;
      reaction, turn := TakeTurn(server, merger, horizon);
      TurnsGoOn(Answers(cfg), turns, turn, m, s);
      TurnCounts(cfg, turn);
      turns := turns + [turn];
      if reaction.Some? {
        CountShown(server);
        return reaction.value, turns;
      }
    }
  }

  lemma TurnCounts(cfg: Config, turn: Turn<Snapshot>)
    requires Answers(cfg)(turn)
    ensures turn.after.count == turn.before.count + if turn.event.eventType.ModelEvent? then 1 else 0
  {
    CountsOnce(cfg, turn.event, turn.before, turn.after);
    hide Reacted, Fed;
  }

  lemma CountShown(server: Server)
    ensures server.Now().count == server.count
  {
  }

  lemma HasBandwidth(server: Server, merger: Merger<NetworkEvent>)
    requires Awaits(server, merger)
    ensures server.bandwidthGbps > 0 && server.Configured().bandwidth == server.bandwidthGbps
  {
  }

  /** The time left for timeouts before neighbour 1 has to be heard. */
  ghost function Slack(server: Server, horizon: nat): nat
    reads server
  {
    if server.pending <= horizon + MIN_RTO then horizon + MIN_RTO - server.pending else 0
  }

  ghost predicate Ahead(server: Server, merger: Merger<NetworkEvent>, horizon: nat)
    reads server, merger
  {
    Within(merger.State(), horizon) && server.pending <= horizon + MIN_RTO
  }

  /** One event: taken from the merger, handled, and any Timeout sent in reaction put on the self queue. */
  method TakeTurn(server: Server, merger: Merger<NetworkEvent>, ghost horizon: nat)
      returns (r: Option<ActorState>, ghost turn: Turn<Snapshot>)
    requires Awaits(server, merger) && Ahead(server, merger, horizon)
    modifies server, server.flows, merger, merger.loserE
    ensures Chose(turn) && Answers(server.Configured())(turn) && turn.call != []
    ensures turn.call[0] == old(merger.State()) && merger.State() == turn.left
    ensures turn.before == old(server.Now()) && turn.after == server.Now()
    ensures r == match turn.event.eventType
                 case Close => Some(Done(server.count))
                 case Stalled => Some(Continue(turn.event.time))
                 case _ => None
    ensures !turn.event.eventType.Null?
    ensures !turn.event.eventType.Close? ==> Awaits(server, merger) && Ahead(server, merger, horizon)
    ensures turn.event.eventType.Stalled? ==> turn.event.time == server.now <= server.torTime
    ensures turn.event.eventType.Close? ==> ClosedDown(server.torQueue, server.torTime, server.latencyNs)
    ensures r.None? ==>
      || Pending(merger.State()) < old(Pending(merger.State()))
      || (Pending(merger.State()) == old(Pending(merger.State())) &&
          (Slack(server, horizon) < old(Slack(server, horizon)) ||
           (Slack(server, horizon) == old(Slack(server, horizon)) &&
            DueBy(server.pending, server.timeouts) < old(DueBy(server.pending, server.timeouts)))))
    ensures |old(server.flows)| <= |server.flows| && server.flows[..|old(server.flows)|] == old(server.flows)
    ensures forall i :: |old(server.flows)| <= i < |server.flows| ==> fresh(server.flows[i])
  {
    hide Feed, Within, LinkClock, Views, Grown, DueBy, Pending, Separate, TimersInv, Protocol.Burst,
         Protocol.Promise, Reached,
         Reacted, Call, ClosedDown, Tournament, LeafOf, Chose, LeastIn, Fits, InTime, SelfFeed, NeighbourFeed, Retry;
    HasBandwidth(server, merger);
    ghost var before := server.Now();
    var event, call := NextEvent(server, merger, horizon);
    ghost var s, pending, views := merger.State(), server.pending, Views(server.flows);
    var known := |server.selfQueue|;
    r := server.React(event);
    ReactionSends(server.Configured(), event, before, server.Now());
    var sent := server.selfQueue[known..];
    if !event.eventType.Close? {
      ReactionFeed(s, pending, server.pending, views, Views(server.flows), sent, horizon);
      PendingSoon(server);
    }
    Deliver(merger, sent);
    turn := Turn(call, event, before, server.Now(), merger.State());
    Choose(turn);
  }

  /** What the server sent to itself arrives on queue 0. */
  method Deliver(merger: Merger<NetworkEvent>, sent: seq<ModelEvent>)
    requires merger.Valid()
    modifies merger`inQueues
    ensures merger.Valid() && merger.State() == Fed(old(merger.State()), sent)
  {
    hide Tournament;
    merger.inQueues := merger.inQueues[0 := merger.inQueues[0] + sent];
  }

  /** The next event, of which `React` may assume what it needs. */
  method NextEvent(server: Server, merger: Merger<NetworkEvent>, ghost horizon: nat)
      returns (e: ModelEvent, ghost call: seq<MState<NetworkEvent>>)
    requires Awaits(server, merger) && Within(merger.State(), horizon)
    modifies merger, merger.loserE
    ensures merger.Valid() && Feed(merger.State(), server.pending, Views(server.flows), false)
    ensures Within(merger.State(), horizon)
    ensures merger.winnerQ < |merger.curr| && e == merger.curr[merger.winnerQ] && !e.eventType.Null?
    ensures !e.eventType.Close? ==> server.Deliverable(e) && e.time <= horizon && Reached(merger.State()) == e.time
    ensures IsTimeout(e.eventType) <==> merger.winnerQ == 0
    ensures Call(call) && call[0] == old(merger.State()) && call[|call| - 1] == merger.State()
    ensures Pending(merger.State()) + (if Visible(e) then 1 else 0) <= Pending(old(merger.State()))
  {
    ghost var trees;
    e, call, trees := merger.Next();
    ghost var last := |call| - 1;
    CallFeed(call, last, server.pending, Views(server.flows));
    CallWithin(call, last, horizon);
    CallPending(call, last);
    ChosenDeliverable(server, call[last], e);
  }

  // Before and between calls

  /** A neighbour pushes onto queue `c`: in time, or a Close. */
  lemma ArrivalKeepsFeed(s: MState<NetworkEvent>, c: nat, e: ModelEvent, pending: nat, views: seq<FlowState>)
    requires Feed(s, pending, views, true) && 1 <= c < |s.curr| && Fits(e.eventType, views)
    requires e.eventType.Close? || forall a :: 0 <= a <= |s.queues[c]| ==> ([s.curr[c]] + s.queues[c])[a].time <= e.time
    ensures Feed(s.(queues := s.queues[c := s.queues[c] + [e]]), pending, views, true)
  {
    var q := s.queues[c];
    assert NeighbourFeed(s.curr[c], q, views);
    assert [s.curr[c]] + (q + [e]) == ([s.curr[c]] + q) + [e];
    assert InTime([s.curr[c]] + (q + [e]));
    hide InTime, Fits;
  }

  /** A new server with its merger, over queues from the rack and from the world. */
  method Build(id: nat, latency: nat, bandwidth: nat, neighbours: seq<seq<ModelEvent>>)
      returns (server: Server, merger: Merger<NetworkEvent>)
    requires bandwidth > 0 && neighbours != []
    requires forall c :: 0 <= c < |neighbours| ==> InTime(neighbours[c])
    requires forall c, a :: 0 <= c < |neighbours| && 0 <= a < |neighbours[c]| ==> Fits(neighbours[c][a].eventType, [])
    ensures server.Configured() == Config(id, latency, bandwidth)
    ensures Awaits(server, merger) && server.flows == [] && server.now == 0 && server.pending == MIN_RTO
    ensures server.timeouts == multiset{} && server.count == 0
    ensures server.selfQueue == [Event(MIN_RTO, id, ModelEvent(Timeout))] && server.torTime == 0
    ensures fresh(server) && fresh(merger) && fresh(merger.loserE)
    ensures merger.winnerQ == 0 && |merger.curr| == |merger.inQueues|
    ensures forall q :: 0 <= q < |merger.curr| ==> merger.curr[q] == Event(0, q, Null)
    ensures merger.inQueues == [server.selfQueue] + neighbours && server.torQueue == [Event(latency, id, Null)]
  {
    hide Tournament, LeafOf, LinkClock, TimersInv, Separate;
    server := new Server(id, latency, bandwidth);
    merger := new Merger([server.selfQueue] + neighbours);
    ghost var s := merger.State();
    forall c | 1 <= c < |s.curr|
      ensures NeighbourFeed(s.curr[c], s.queues[c], [])
    {
      assert s.queues[c] == neighbours[c - 1];
      FirstFeed(c, neighbours[c - 1]);
    }
    hide NeighbourFeed, Fits, InTime;
  }

  lemma FirstFeed(c: nat, q: seq<ModelEvent>)
    requires InTime(q) && forall a :: 0 <= a < |q| ==> Fits(q[a].eventType, [])
    ensures NeighbourFeed(Placeholder(c), q, [])
  {
  }
}
