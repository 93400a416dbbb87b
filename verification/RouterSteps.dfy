/** Routers inside the protocol: what a router's event loop does are steps of the protocol. */
module RouterSteps {
  import opened Events
  import opened NetworkEvents
  import opened Protocol
  import opened LocalRounds
  import opened Reactions
  import opened EventLoops
  import opened Router
  import MergerSpec

  /** `outs` lists the links actor `i` feeds, in the order of its outgoing queues; none leads back to itself. */
  ghost predicate Feeds(net: Net, i: nat, outs: seq<nat>) {
    && (forall d :: 0 <= d < |outs| ==>
          outs[d] < |net.channels| && net.channels[outs[d]].origin == Link(i) && net.channels[outs[d]].dst != i)
    && (forall d, e :: 0 <= d < e < |outs| ==> outs[d] != outs[e])
    && (forall c :: 0 <= c < |net.channels| && net.channels[c].origin == Link(i) ==> c in outs)
  }

  ghost function OutOf(outs: seq<nat>, c: nat): (d: nat)
    requires c in outs
    ensures d < |outs| && outs[d] == c
  {
    var d :| 0 <= d < |outs| && outs[d] == c;
    d
  }

  lemma PushedHolds(net: Net, s: Global<NetworkEvent>, s': Global<NetworkEvent>, i: nat, ports: seq<nat>,
                    m: MergerSpec.MState<NetworkEvent>)
    requires Holds(net, s, i, ports, m) && Sized(net, s') && s'.winner == s.winner && s'.curr == s.curr
    requires forall k :: 0 <= k < |ports| ==> s'.queue[ports[k]] == s.queue[ports[k]]
    ensures Holds(net, s', i, ports, m)
  {
    var m' := Local(net, s', i, ports, m.winner);
    assert m'.queues == m.queues && m'.curr == m.curr;
  }

  /** Router `cfg` is actor `i`: it has merger `m`, and its links hold what is left of `o`, with its clocks. */
  ghost predicate Plays(net: Net, s: Global<NetworkEvent>, i: nat, cfg: Config, ports: seq<nat>, outs: seq<nat>,
                        m: MergerSpec.MState<NetworkEvent>, o: Out) {
    && Holds(net, s, i, ports, m)
    && Feeds(net, i, outs) && (forall c :: 0 <= c < |net.channels| ==> net.channels[c].origin != Self(i))
    && IdOf(net, i) == cfg.id && net.latency == cfg.latency
    && |outs| == |o.queues| == |o.times|
    && forall d :: 0 <= d < |outs| ==> s.clock[outs[d]] == o.times[d] && EndsWith(o.queues[d], s.queue[outs[d]])
  }

  ghost function SentOn(outs: seq<nat>, o: Out, o': Out, c: nat): seq<ModelEvent>
    requires |outs| == |o.queues| == |o'.queues|
  {
    if c in outs then Added(o.queues[OutOf(outs, c)], o'.queues[OutOf(outs, c)]) else []
  }

  ghost function ClockOf(outs: seq<nat>, o': Out, c: nat, clock: nat): nat
    requires |outs| == |o'.times|
  {
    if c in outs then o'.times[OutOf(outs, c)] else clock
  }

  lemma AnswerExtends(cfg: Config, e: ModelEvent, o: Out, o': Out)
    requires cfg.bandwidth > 0 && Answered(cfg, e, o, o')
    ensures |o.queues| == |o'.queues| && forall d :: 0 <= d < |o.queues| ==> o.queues[d] <= o'.queues[d]
  {
    AnswerShape(cfg, e, o, o');
    forall d | 0 <= d < |o.queues|
      ensures o.queues[d] <= o'.queues[d]
    {
      AnswerOnLink(cfg, e, o, o', d);
    }
  }

  /** The protocol's state after the router has gone from `o` to `o'`. */
  ghost function AfterAnswer(net: Net, s: Global<NetworkEvent>, i: nat, outs: seq<nat>, o: Out, o': Out, phase: Phase)
      : (s': Global<NetworkEvent>)
    requires Sized(net, s) && i < net.actors && |outs| == |o.queues| == |o'.queues| == |o'.times|
    ensures Sized(net, s') && s'.phase == s.phase[i := phase] && s'.winner == s.winner && s'.curr == s.curr
    ensures forall c :: 0 <= c < |net.channels| ==>
      s'.queue[c] == s.queue[c] + SentOn(outs, o, o', c) && s'.clock[c] == ClockOf(outs, o', c, s.clock[c])
  {
    Pushed(net, s, i, seq(|net.channels|, c requires 0 <= c < |net.channels| => SentOn(outs, o, o', c)),
           seq(|net.channels|, c requires 0 <= c < |net.channels| => ClockOf(outs, o', c, s.clock[c])), phase)
  }

  /** On its links, a router's answer to Close, to a stall and to a packet is what the protocol asks for. */
  lemma AnswerOnLink(cfg: Config, e: ModelEvent, o: Out, o': Out, d: nat)
    requires cfg.bandwidth > 0 && Answered(cfg, e, o, o') && d < |o.queues|
    ensures |o'.queues| == |o.queues| == |o.times| == |o'.times|
    ensures o'.queues[d] == o.queues[d] + Added(o.queues[d], o'.queues[d])
    ensures LinkAnswer(cfg.id, cfg.latency, e, Added(o.queues[d], o'.queues[d]), o.times[d], o'.times[d])
  {
    if e.eventType.ModelEvent? {
      var packet := e.eventType.model.packet;
      var h :| h in cfg.route[packet.dst] && Relayed(cfg, e.time, packet, h, o, o');
    }
  }

  lemma AnswerShape(cfg: Config, e: ModelEvent, o: Out, o': Out)
    requires cfg.bandwidth > 0 && Answered(cfg, e, o, o')
    ensures |o'.queues| == |o.queues| == |o.times| == |o'.times| && !e.eventType.Null?
  {
  }

  lemma ChannelAnswered(net: Net, s: Global<NetworkEvent>, s': Global<NetworkEvent>, i: nat, cfg: Config,
                        ports: seq<nat>, outs: seq<nat>,
                        m: MergerSpec.MState<NetworkEvent>, o: Out, o': Out, phase: Phase, c: nat)
    requires Plays(net, s, i, cfg, ports, outs, m, o) && s.phase[i] == Deciding && cfg.bandwidth > 0
    requires c < |net.channels|
    requires m.winner < |m.curr| && Answered(cfg, m.curr[m.winner], o, o')
    requires |outs| == |o'.queues| == |o'.times| && s' == AfterAnswer(net, s, i, outs, o, o', phase)
    ensures Reacts(net, s, s', i) && PushAsAsked(net, s, s', i, c)
  {
    var e := m.curr[m.winner];
    ChosenIs(net, s, i, ports, m);
    AnswerShape(cfg, e, o, o');
    ReactsSo(net, s, s', i);
    if net.channels[c].origin == Link(i) {
      var d := OutOf(outs, c);
      AnswerOnLink(cfg, e, o, o', d);
      hide Answered, Holds, LinkAnswer, Added, EndsWith;
      LinkPush(net, s, s', i, c, e, Added(o.queues[d], o'.queues[d]));
    } else {
      hide Answered, Holds, LinkAnswer, Added, EndsWith;
      NoPush(net, s, s', i, c);
    }
  }

  /** Whatever a router answers is a step of the protocol, and leaves the router in place. */
  lemma AnswerIsStep(net: Net, s: Global<NetworkEvent>, i: nat, cfg: Config, ports: seq<nat>, outs: seq<nat>,
                     m: MergerSpec.MState<NetworkEvent>, o: Out, o': Out) returns (s': Global<NetworkEvent>)
    requires Plays(net, s, i, cfg, ports, outs, m, o) && s.phase[i] == Deciding && cfg.bandwidth > 0
    requires m.winner < |m.curr| && m.winner < |m.queues| && !MergerSpec.Retry(m)
    requires Answered(cfg, m.curr[m.winner], o, o')
    ensures Step(net, s, s', i) && Plays(net, s', i, cfg, ports, outs, m, o')
    ensures s'.phase == s.phase[i := if m.curr[m.winner].eventType.Close? then Phase.Done else Ready]
  {
    var e := m.curr[m.winner];
    ChosenIs(net, s, i, ports, m);
    AnswerShape(cfg, e, o, o');
    var phase: Phase := if e.eventType.Close? then Phase.Done else Ready;
    s' := AfterAnswer(net, s, i, outs, o, o', phase);
    AnswerExtends(cfg, e, o, o');
    LinksAnswered(net, s, s', i, cfg, ports, outs, m, o, o');
    hide Answered, Local, PushAsAsked, Chosen, Step;
    forall c | 0 <= c < |net.channels|
      ensures Reacts(net, s, s', i) && PushAsAsked(net, s, s', i, c)
    {
      ChannelAnswered(net, s, s', i, cfg, ports, outs, m, o, o', phase, c);
    }
    ReactsSo(net, s, s', i);
    PushedStep(net, s, s', i);
  }

  lemma LinksAnswered(net: Net, s: Global<NetworkEvent>, s': Global<NetworkEvent>, i: nat, cfg: Config,
                      ports: seq<nat>, outs: seq<nat>,
                      m: MergerSpec.MState<NetworkEvent>, o: Out, o': Out)
    requires Plays(net, s, i, cfg, ports, outs, m, o) && |outs| == |o'.queues| == |o'.times|
    requires forall d :: 0 <= d < |outs| ==> o.queues[d] <= o'.queues[d]
    requires Sized(net, s') && s'.winner == s.winner && s'.curr == s.curr
    requires forall c :: 0 <= c < |net.channels| ==>
      s'.queue[c] == s.queue[c] + SentOn(outs, o, o', c) && s'.clock[c] == ClockOf(outs, o', c, s.clock[c])
    ensures Plays(net, s', i, cfg, ports, outs, m, o')
  {
    hide Local, Added, EndsWith;
    forall d | 0 <= d < |outs|
      ensures s'.clock[outs[d]] == o'.times[d] && EndsWith(o'.queues[d], s'.queue[outs[d]])
    {
      assert OutOf(outs, outs[d]) == d;
      EndsWithMore(o.queues[d], o'.queues[d], s.queue[outs[d]]);
    }
    forall k | 0 <= k < |ports|
      ensures s'.queue[ports[k]] == s.queue[ports[k]]
    {
      assert ports[k] !in outs;
    }
    PushedHolds(net, s, s', i, ports, m);
  }

  // Turns and calls of `Advance`

  lemma PlaysOn(net: Net, s: Global<NetworkEvent>, s': Global<NetworkEvent>, i: nat, cfg: Config, ports: seq<nat>,
                outs: seq<nat>,
                m: MergerSpec.MState<NetworkEvent>, m': MergerSpec.MState<NetworkEvent>, o: Out)
    requires Plays(net, s, i, cfg, ports, outs, m, o) && Elsewhere(net, s, s', i) && Holds(net, s', i, ports, m')
    ensures Plays(net, s', i, cfg, ports, outs, m', o)
  {
    hide Holds;
  }

  lemma PlaysHolds(net: Net, s: Global<NetworkEvent>, i: nat, cfg: Config, ports: seq<nat>, outs: seq<nat>,
                   m: MergerSpec.MState<NetworkEvent>, o: Out)
    requires Plays(net, s, i, cfg, ports, outs, m, o)
    ensures Holds(net, s, i, ports, m) && Sized(net, s) && i < net.actors
  {
  }

  ghost function Part(net: Net, i: nat, cfg: Config, ports: seq<nat>, outs: seq<nat>)
      : (Global<NetworkEvent>, MergerSpec.MState<NetworkEvent>, Out) -> bool
  {
    (s: Global<NetworkEvent>, m: MergerSpec.MState<NetworkEvent>, o: Out) => Plays(net, s, i, cfg, ports, outs, m, o)
  }

  /** A turn of a router is a path of protocol steps. */
  lemma TurnIsPath(net: Net, s: Global<NetworkEvent>, i: nat, cfg: Config, ports: seq<nat>, outs: seq<nat>,
                   turn: Turn<Out>)
      returns (ss: seq<Global<NetworkEvent>>)
    requires turn.call != [] && Plays(net, s, i, cfg, ports, outs, turn.call[0], turn.before) && i < |s.phase|
    requires s.phase[i] == Ready
    requires Chose(turn) && RouterTurn(cfg, turn)
    ensures Leads(net, s, ss, i, Part(net, i, cfg, ports, outs), turn.left, turn.after, EndOf(turn.event))
  {
    var call := turn.call;
    var last := call[|call| - 1];
    PlaysHolds(net, s, i, cfg, ports, outs, call[0], turn.before);
    assert !MergerSpec.Retry(last);
    hide Answered, Plays, Holds, Step, MergerSpec.Call, MergerSpec.Retry, Path, Elsewhere, Leads;
    var before := CallIsPath(net, s, i, ports, call, |call| - 1);
    var s1 := before[|before| - 1];
    PlaysOn(net, s, s1, i, cfg, ports, outs, call[0], last, turn.before);
    ChosenIs(net, s1, i, ports, last);
    var s' := AnswerIsStep(net, s1, i, cfg, ports, outs, last, turn.before, turn.after);
    LeadsSo(net, s, before, s', i, Part(net, i, cfg, ports, outs), turn.left, turn.after, EndOf(turn.event));
    ss := before + [s'];
  }

  /** Whatever a call of `Advance` does is a path of protocol steps, after which the router plays its part again. */
  lemma AdvanceIsPath(net: Net, s: Global<NetworkEvent>, i: nat, cfg: Config, ports: seq<nat>, outs: seq<nat>,
                      turns: seq<Turn<Out>>,
                      m: MergerSpec.MState<NetworkEvent>, m': MergerSpec.MState<NetworkEvent>, o: Out, o': Out)
      returns (ss: seq<Global<NetworkEvent>>)
    requires Plays(net, s, i, cfg, ports, outs, m, o) && i < |s.phase| && s.phase[i] == Ready
    requires Turns(Answers(cfg), turns, m, m', o, o')
    requires forall k :: 0 <= k < |turns| - 1 ==> turns[k].event.eventType.ModelEvent?
    ensures Leads(net, s, ss, i, Part(net, i, cfg, ports, outs), m', o',
                  if turns == [] then GoesOn else EndOf(turns[|turns| - 1].event))
  {
    hide Plays, Leads, Turns, Chose, RouterTurn;
    forall s0, turn
      ensures TurnLeads(net, i, Part(net, i, cfg, ports, outs), Answers(cfg), s0, turn)
    {
      if turn.call != [] && i < |s0.phase| && s0.phase[i] == Ready
         && Plays(net, s0, i, cfg, ports, outs, turn.call[0], turn.before)
         && Chose(turn) && RouterTurn(cfg, turn) {
        var path := TurnIsPath(net, s0, i, cfg, ports, outs, turn);
      }
    }
    ss := LoopIsPath(net, s, i, Part(net, i, cfg, ports, outs), Answers(cfg), turns, m, m', o, o');
  }

  /** While others take their steps the router keeps its place, its merger filling up. */
  lemma OthersKeepPlace(net: Net, s: Global<NetworkEvent>, s': Global<NetworkEvent>, i: nat, cfg: Config,
                        ports: seq<nat>, outs: seq<nat>,
                        m: MergerSpec.MState<NetworkEvent>, o: Out)
    requires Plays(net, s, i, cfg, ports, outs, m, o) && Spared(net, s, s', i)
    ensures Plays(net, s', i, cfg, ports, outs, Local(net, s', i, ports, m.winner), o) && s'.phase[i] == s.phase[i]
  {
    SparedHolds(net, s, s', i, ports, m);
    hide Local;
    forall d | 0 <= d < |outs|
      ensures EndsWith(o.queues[d], s'.queue[outs[d]])
    {
      EndsWithTrans(o.queues[d], s.queue[outs[d]], s'.queue[outs[d]]);
    }
  }

  /** A newly built router plays its part from the start. */
  lemma BuiltPlays(net: Net, s: Global<NetworkEvent>, i: nat, cfg: Config, ports: seq<nat>, outs: seq<nat>,
                   m: MergerSpec.MState<NetworkEvent>, o: Out)
    requires Start(net, s) && i < net.actors && Ports(net, i, ports) && ports != [] && s.winner[i] == ports[0]
    requires Feeds(net, i, outs) && (forall c :: 0 <= c < |net.channels| ==> net.channels[c].origin != Self(i))
    requires IdOf(net, i) == cfg.id && net.latency == cfg.latency && |outs| == |o.queues| == |o.times|
    requires |m.queues| == |m.curr| == |ports| && m.winner == 0
    requires forall k :: 0 <= k < |ports| ==> m.queues[k] == s.queue[ports[k]] && m.curr[k] == Event(0, k, Null)
    requires forall d :: 0 <= d < |outs| ==> o.times[d] == 0 && o.queues[d] == s.queue[outs[d]]
    ensures Plays(net, s, i, cfg, ports, outs, m, o) && s.phase[i] == Ready
  {
    var local := Local(net, s, i, ports, 0);
    assert local.queues == m.queues && local.curr == m.curr;
  }
}
