/** Servers inside the protocol: what a server's event loop does are steps of the protocol. */
module ServerSteps {
  import opened Events
  import opened NetworkEvents
  import opened Protocol
  import opened LocalRounds
  import opened Reactions
  import opened EventLoops
  import opened Server
  import opened ServerLoop
  import MergerSpec

  /** Queue 0 of the merger is the actor's own channel, and `tor` is the one link it feeds, to another actor. */
  ghost predicate Sends(net: Net, i: nat, ports: seq<nat>, tor: nat) {
    && ports != [] && ports[0] < |net.channels| && tor < |net.channels|
    && net.channels[tor].dst != i
    && (forall c :: 0 <= c < |net.channels| ==> (net.channels[c].origin == Self(i) <==> c == ports[0]))
    && (forall c :: 0 <= c < |net.channels| ==> (net.channels[c].origin == Link(i) <==> c == tor))
  }

  /**
   Server `cfg` is actor `i`: it has merger `m`, and its channels hold what is left of what it sent, with its clock.
   */
  ghost predicate Plays(net: Net, s: Global<NetworkEvent>, i: nat, cfg: Config, ports: seq<nat>, tor: nat,
                        m: MergerSpec.MState<NetworkEvent>, x: Snapshot) {
    && Holds(net, s, i, ports, m) && Sends(net, i, ports, tor)
    && IdOf(net, i) == cfg.id && net.latency == cfg.latency
    && s.clock[tor] == x.torTime && EndsWith(x.torQueue, s.queue[tor])
    && EndsWith(x.selfQueue, s.queue[ports[0]])
  }

  /** What an answer to an event adds to the actor's own channel: one timeout for a timeout, and Close for Close. */
  ghost predicate OwnAnswer(id: nat, latency: nat, e: ModelEvent, back: seq<ModelEvent>) {
    if e.eventType.Close? then back == [Event(e.time + latency, id, Close)]
    else if IsTimeout(e.eventType) then |back| == 1 && back[0].eventType.ModelEvent? && e.time <= back[0].time
    else back == []
  }

  lemma OwnPush(net: Net, s: Global<NetworkEvent>, s': Global<NetworkEvent>, i: nat, c: nat, e: ModelEvent,
                back: seq<ModelEvent>)
    requires Reacts(net, s, s', i) && c < |net.channels| && net.channels[c].origin == Self(i)
    requires e.time == Chosen(net, s, i).time && e.eventType == Chosen(net, s, i).eventType && !e.eventType.Null?
    requires IsTimeout(e.eventType) <==> s.winner[i] == c
    requires s'.queue[c] == s.queue[c] + back && OwnAnswer(IdOf(net, i), net.latency, e, back)
    requires s'.clock[c] == s.clock[c]
    ensures PushAsAsked(net, s, s', i, c)
  {
  }

  /** What a server sends to the rack, and to itself, in the protocol's terms. */
  lemma ReactionOnChannels(cfg: Config, e: ModelEvent, x: Snapshot, x': Snapshot)
    requires cfg.bandwidth > 0 && Reacted(cfg, e, x, x')
    ensures x.torQueue <= x'.torQueue && x.selfQueue <= x'.selfQueue && !e.eventType.Null?
    ensures LinkAnswer(cfg.id, cfg.latency, e, Added(x.torQueue, x'.torQueue), x.torTime, x'.torTime)
    ensures OwnAnswer(cfg.id, cfg.latency, e, Added(x.selfQueue, x'.selfQueue))
  {
    ReactionSends(cfg, e, x, x');
    if e.eventType.ModelEvent? {
      var packets := ReactionIsTrain(cfg, e, x, x');
      TrainIsBurst(cfg.id, packets, x.torTime, cfg.bandwidth, cfg.latency);
      if IsTimeout(e.eventType) {
        NextLater(cfg, e, x, x');
      }
    }
  }

  lemma NextLater(cfg: Config, e: ModelEvent, x: Snapshot, x': Snapshot)
    requires cfg.bandwidth > 0 && Reacted(cfg, e, x, x') && IsTimeout(e.eventType)
    ensures e.time <= x'.pending
  {
    var served :| TimedOut(cfg, e.time, x, x', served);
  }

  ghost function SentOn(own: nat, tor: nat, x: Snapshot, x': Snapshot, c: nat): seq<ModelEvent> {
    if c == tor then Added(x.torQueue, x'.torQueue) else if c == own then Added(x.selfQueue, x'.selfQueue) else []
  }

  /** The protocol's state after the server has gone from `x` to `x'`. */
  ghost function AfterReaction(net: Net, s: Global<NetworkEvent>, i: nat, own: nat, tor: nat, x: Snapshot,
                               x': Snapshot, phase: Phase)
      : (s': Global<NetworkEvent>)
    requires Sized(net, s) && i < net.actors && tor < |net.channels|
    ensures Sized(net, s') && s'.phase == s.phase[i := phase] && s'.winner == s.winner && s'.curr == s.curr
    ensures s'.clock == s.clock[tor := x'.torTime]
    ensures forall c :: 0 <= c < |net.channels| ==> s'.queue[c] == s.queue[c] + SentOn(own, tor, x, x', c)
  {
    Pushed(net, s, i, seq(|net.channels|, c requires 0 <= c < |net.channels| => SentOn(own, tor, x, x', c)),
           s.clock[tor := x'.torTime], phase)
  }

  lemma ChannelReacted(net: Net, s: Global<NetworkEvent>, s': Global<NetworkEvent>, i: nat, cfg: Config,
                       ports: seq<nat>, tor: nat,
                       m: MergerSpec.MState<NetworkEvent>, x: Snapshot, x': Snapshot, phase: Phase, c: nat)
    requires Plays(net, s, i, cfg, ports, tor, m, x) && s.phase[i] == Deciding && cfg.bandwidth > 0
    requires c < |net.channels|
    requires m.winner < |m.curr| && Reacted(cfg, m.curr[m.winner], x, x')
    requires IsTimeout(m.curr[m.winner].eventType) <==> m.winner == 0
    requires s' == AfterReaction(net, s, i, ports[0], tor, x, x', phase)
    ensures Reacts(net, s, s', i) && PushAsAsked(net, s, s', i, c)
  {
    var e := m.curr[m.winner];
    ChosenIs(net, s, i, ports, m);
    ReactionOnChannels(cfg, e, x, x');
    OwnWins(net, s, i, ports, m);
    ReactsSo(net, s, s', i);
    hide Reacted, Holds, LinkAnswer, OwnAnswer, EndsWith, Added, Local, IsTimeout, PushAsAsked;
    if c == tor {
      LinkPush(net, s, s', i, c, e, Added(x.torQueue, x'.torQueue));
    } else if c == ports[0] {
      OwnPush(net, s, s', i, c, e, Added(x.selfQueue, x'.selfQueue));
    } else {
      NoPush(net, s, s', i, c);
    }
  }

  /** The actor's own channel won exactly when queue 0 did. */
  lemma OwnWins(net: Net, s: Global<NetworkEvent>, i: nat, ports: seq<nat>, m: MergerSpec.MState<NetworkEvent>)
    requires Holds(net, s, i, ports, m)
    ensures ports != [] && (s.winner[i] == ports[0] <==> m.winner == 0)
  {
  }

  /** What the server sent to itself is in the protocol's channel and in its merger. */
  lemma ReactedHolds(net: Net, s: Global<NetworkEvent>, s': Global<NetworkEvent>, i: nat, cfg: Config,
                     ports: seq<nat>, tor: nat,
                     m: MergerSpec.MState<NetworkEvent>, x: Snapshot, x': Snapshot, phase: Phase)
    requires Plays(net, s, i, cfg, ports, tor, m, x) && x.torQueue <= x'.torQueue && x.selfQueue <= x'.selfQueue
    requires s' == AfterReaction(net, s, i, ports[0], tor, x, x', phase)
    ensures Plays(net, s', i, cfg, ports, tor, Fed(m, x'.selfQueue[|x.selfQueue|..]), x')
  {
    var m' := Fed(m, x'.selfQueue[|x.selfQueue|..]);
    EndsWithMore(x.torQueue, x'.torQueue, s.queue[tor]);
    EndsWithMore(x.selfQueue, x'.selfQueue, s.queue[ports[0]]);
    LocalFed(net, s, s', i, ports, tor, m, x, x');
    hide EndsWith, Local;
  }

  lemma LocalFed(net: Net, s: Global<NetworkEvent>, s': Global<NetworkEvent>, i: nat, ports: seq<nat>, tor: nat,
                 m: MergerSpec.MState<NetworkEvent>, x: Snapshot, x': Snapshot)
    requires Holds(net, s, i, ports, m) && Sends(net, i, ports, tor) && Sized(net, s') && s'.curr == s.curr
    requires x.selfQueue <= x'.selfQueue
    requires forall c :: 0 <= c < |net.channels| ==> s'.queue[c] == s.queue[c] + SentOn(ports[0], tor, x, x', c)
    ensures Local(net, s', i, ports, m.winner) == Fed(m, x'.selfQueue[|x.selfQueue|..])
  {
    var m', fed := Local(net, s', i, ports, m.winner), Fed(m, x'.selfQueue[|x.selfQueue|..]);
    forall k | 0 <= k < |ports|
      ensures m'.queues[k] == fed.queues[k]
    {
      assert ports[k] != tor;
    }
    assert m'.queues == fed.queues && m'.curr == fed.curr;
  }

  lemma NotNull(cfg: Config, e: ModelEvent, x: Snapshot, x': Snapshot)
    requires cfg.bandwidth > 0 && Reacted(cfg, e, x, x')
    ensures !e.eventType.Null? && x.torQueue <= x'.torQueue && x.selfQueue <= x'.selfQueue
  {
    ReactionSends(cfg, e, x, x');
  }

  /** Whatever a server reacts is a step of the protocol, and leaves the server in place. */
  lemma ReactionIsStep(net: Net, s: Global<NetworkEvent>, i: nat, cfg: Config, ports: seq<nat>, tor: nat,
                       m: MergerSpec.MState<NetworkEvent>, x: Snapshot, x': Snapshot) returns (s': Global<NetworkEvent>)
    requires Plays(net, s, i, cfg, ports, tor, m, x) && s.phase[i] == Deciding && cfg.bandwidth > 0
    requires m.winner < |m.curr| && m.winner < |m.queues| && !MergerSpec.Retry(m)
    requires Reacted(cfg, m.curr[m.winner], x, x')
    requires IsTimeout(m.curr[m.winner].eventType) <==> m.winner == 0
    ensures |x.selfQueue| <= |x'.selfQueue|
    ensures Step(net, s, s', i) && Plays(net, s', i, cfg, ports, tor, Fed(m, x'.selfQueue[|x.selfQueue|..]), x')
    ensures s'.phase == s.phase[i := PhaseAt(EndOf(m.curr[m.winner]))]
  {
    var e := m.curr[m.winner];
    ChosenIs(net, s, i, ports, m);
    NotNull(cfg, e, x, x');
    s' := AfterReaction(net, s, i, ports[0], tor, x, x', PhaseAt(EndOf(e)));
    ReactedHolds(net, s, s', i, cfg, ports, tor, m, x, x', PhaseAt(EndOf(e)));
    hide Reacted, Local, PushAsAsked, Chosen, Step, Plays, AfterReaction, Fed;
    forall c | 0 <= c < |net.channels|
      ensures Reacts(net, s, s', i) && PushAsAsked(net, s, s', i, c)
    {
      ChannelReacted(net, s, s', i, cfg, ports, tor, m, x, x', PhaseAt(EndOf(e)), c);
    }
    ReactsSo(net, s, s', i);
    PushedStep(net, s, s', i);
  }

  // Turns and calls of `Advance`

  lemma PlaysOn(net: Net, s: Global<NetworkEvent>, s': Global<NetworkEvent>, i: nat, cfg: Config, ports: seq<nat>,
                tor: nat,
                m: MergerSpec.MState<NetworkEvent>, m': MergerSpec.MState<NetworkEvent>, x: Snapshot)
    requires Plays(net, s, i, cfg, ports, tor, m, x) && Elsewhere(net, s, s', i) && Holds(net, s', i, ports, m')
    ensures Plays(net, s', i, cfg, ports, tor, m', x)
  {
    EndsWithTrans(x.selfQueue, s.queue[ports[0]], s'.queue[ports[0]]);
    hide Holds;
  }

  lemma PlaysHolds(net: Net, s: Global<NetworkEvent>, i: nat, cfg: Config, ports: seq<nat>, tor: nat,
                   m: MergerSpec.MState<NetworkEvent>, x: Snapshot)
    requires Plays(net, s, i, cfg, ports, tor, m, x)
    ensures Holds(net, s, i, ports, m) && Sized(net, s) && i < net.actors
  {
  }

  ghost function Part(net: Net, i: nat, cfg: Config, ports: seq<nat>, tor: nat)
      : (Global<NetworkEvent>, MergerSpec.MState<NetworkEvent>, Snapshot) -> bool
  {
    (s: Global<NetworkEvent>, m: MergerSpec.MState<NetworkEvent>, x: Snapshot) =>
      Plays(net, s, i, cfg, ports, tor, m, x)
  }

  /** A turn of a server is a path of protocol steps. */
  lemma TurnIsPath(net: Net, s: Global<NetworkEvent>, i: nat, cfg: Config, ports: seq<nat>, tor: nat,
                   turn: Turn<Snapshot>)
      returns (ss: seq<Global<NetworkEvent>>)
    requires turn.call != [] && Plays(net, s, i, cfg, ports, tor, turn.call[0], turn.before) && i < |s.phase|
    requires s.phase[i] == Ready
    requires Chose(turn) && ServerTurn(cfg, turn)
    ensures Leads(net, s, ss, i, Part(net, i, cfg, ports, tor), turn.left, turn.after, EndOf(turn.event))
  {
    var call := turn.call;
    var last := call[|call| - 1];
    PlaysHolds(net, s, i, cfg, ports, tor, call[0], turn.before);
    assert !MergerSpec.Retry(last);
    hide Reacted, Plays, Holds, Step, MergerSpec.Call, MergerSpec.Retry, Path, Fed, Elsewhere, Leads;
    var before := CallIsPath(net, s, i, ports, call, |call| - 1);
    var s1 := before[|before| - 1];
    PlaysOn(net, s, s1, i, cfg, ports, tor, call[0], last, turn.before);
    ChosenIs(net, s1, i, ports, last);
    var s' := ReactionIsStep(net, s1, i, cfg, ports, tor, last, turn.before, turn.after);
    LeadsSo(net, s, before, s', i, Part(net, i, cfg, ports, tor), turn.left, turn.after, EndOf(turn.event));
    ss := before + [s'];
  }

  /** Whatever a call of `Advance` does is a path of protocol steps, after which the server plays its part again. */
  lemma AdvanceIsPath(net: Net, s: Global<NetworkEvent>, i: nat, cfg: Config, ports: seq<nat>, tor: nat,
                      turns: seq<Turn<Snapshot>>,
                      m: MergerSpec.MState<NetworkEvent>, m': MergerSpec.MState<NetworkEvent>, x: Snapshot,
                      x': Snapshot)
      returns (ss: seq<Global<NetworkEvent>>)
    requires Plays(net, s, i, cfg, ports, tor, m, x) && i < |s.phase| && s.phase[i] == Ready
    requires Turns(Answers(cfg), turns, m, m', x, x')
    requires forall k :: 0 <= k < |turns| - 1 ==> turns[k].event.eventType.ModelEvent?
    ensures Leads(net, s, ss, i, Part(net, i, cfg, ports, tor), m', x',
                  if turns == [] then GoesOn else EndOf(turns[|turns| - 1].event))
  {
    hide Plays, Leads, Turns, Chose, ServerTurn;
    forall s0, turn
      ensures TurnLeads(net, i, Part(net, i, cfg, ports, tor), Answers(cfg), s0, turn)
    {
      if turn.call != [] && i < |s0.phase| && s0.phase[i] == Ready
         && Plays(net, s0, i, cfg, ports, tor, turn.call[0], turn.before)
         && Chose(turn) && ServerTurn(cfg, turn) {
        var path := TurnIsPath(net, s0, i, cfg, ports, tor, turn);
      }
    }
    ss := LoopIsPath(net, s, i, Part(net, i, cfg, ports, tor), Answers(cfg), turns, m, m', x, x');
  }

  /** While others take their steps the server keeps its place, its merger filling up. */
  lemma OthersKeepPlace(net: Net, s: Global<NetworkEvent>, s': Global<NetworkEvent>, i: nat, cfg: Config,
                        ports: seq<nat>, tor: nat,
                        m: MergerSpec.MState<NetworkEvent>, x: Snapshot)
    requires Plays(net, s, i, cfg, ports, tor, m, x) && Spared(net, s, s', i)
    ensures Plays(net, s', i, cfg, ports, tor, Local(net, s', i, ports, m.winner), x) && s'.phase[i] == s.phase[i]
  {
    SparedHolds(net, s, s', i, ports, m);
    EndsWithTrans(x.torQueue, s.queue[tor], s'.queue[tor]);
    hide Local, EndsWith;
  }

  /** A newly built server plays its part from the start. */
  lemma BuiltPlays(net: Net, s: Global<NetworkEvent>, i: nat, cfg: Config, ports: seq<nat>, tor: nat,
                   m: MergerSpec.MState<NetworkEvent>, x: Snapshot)
    requires Start(net, s) && i < net.actors && Ports(net, i, ports) && Sends(net, i, ports, tor)
    requires s.winner[i] == ports[0]
    requires IdOf(net, i) == cfg.id && net.latency == cfg.latency
    requires |m.queues| == |m.curr| == |ports| && m.winner == 0
    requires forall k :: 0 <= k < |ports| ==> m.queues[k] == s.queue[ports[k]] && m.curr[k] == Event(0, k, Null)
    requires x.torTime == 0 && x.torQueue == s.queue[tor] && x.selfQueue == s.queue[ports[0]]
    ensures Plays(net, s, i, cfg, ports, tor, m, x) && s.phase[i] == Ready
  {
    var local := Local(net, s, i, ports, 0);
    assert local.queues == m.queues && local.curr == m.curr;
  }
}
