/** Reactions in the protocol: an actor adds events to the channels it feeds and moves their clocks. */
module Reactions {
  import opened Events
  import opened NetworkEvents
  import opened Protocol
  import opened LocalRounds
  import opened EventLoops
  import MergerSpec

  /** The events added to `q` in `q'`. */
  ghost function Added(q: seq<ModelEvent>, q': seq<ModelEvent>): seq<ModelEvent> {
    if |q| <= |q'| then q'[|q|..] else []
  }

  /** Actor `i` pushes `sent` and sets the clocks, channel by channel. */
  ghost function Pushed(net: Net, s: Global<NetworkEvent>, i: nat, sent: seq<seq<ModelEvent>>, clock: seq<nat>,
                        phase: Phase): (s': Global<NetworkEvent>)
    requires Sized(net, s) && i < net.actors && |sent| == |clock| == |net.channels|
    ensures Sized(net, s') && s'.phase == s.phase[i := phase] && s'.winner == s.winner && s'.curr == s.curr
    ensures s'.clock == clock
    ensures forall c :: 0 <= c < |net.channels| ==> s'.queue[c] == s.queue[c] + sent[c]
  {
    s.(queue := seq(|net.channels|, c requires 0 <= c < |net.channels| => s.queue[c] + sent[c]),
       clock := clock, phase := s.phase[i := phase])
  }

  /** The event the merger chose, as the protocol sees it. */
  lemma ChosenIs(net: Net, s: Global<NetworkEvent>, i: nat, ports: seq<nat>, m: MergerSpec.MState<NetworkEvent>)
    requires Holds(net, s, i, ports, m)
    ensures m.winner < |m.curr| && m.winner < |m.queues|
    ensures Chosen(net, s, i).time == m.curr[m.winner].time && Chosen(net, s, i).eventType == m.curr[m.winner].eventType
    ensures s.queue[s.winner[i]] == m.queues[m.winner]
  {
  }

  /** The answer on one channel, in the protocol's terms. */
  ghost predicate PushAsAsked(net: Net, s: Global<NetworkEvent>, s': Global<NetworkEvent>, i: nat, c: nat)
    requires Reacts(net, s, s', i) && c < |net.channels|
  {
    match Chosen(net, s, i).eventType
    case Close => ClosePush(net, s, s', i, c)
    case Stalled => StallPush(net, s, s', i, c)
    case Null => false
    case ModelEvent(_) => ModelPush(net, s, s', i, c)
  }

  /** What an answer to an event adds to a link and its clock. */
  ghost predicate LinkAnswer(id: nat, latency: nat, e: ModelEvent, sent: seq<ModelEvent>, clock: nat, clock': nat) {
    match e.eventType
    case Close => sent == [Event(e.time + latency, id, Close)] && clock' == clock
    case Stalled => sent == Promise(id, clock, e.time, latency) && clock' == if clock < e.time then e.time else clock
    case Null => false
    case ModelEvent(_) => Burst(sent, clock, clock', latency)
  }

  lemma LinkPush(net: Net, s: Global<NetworkEvent>, s': Global<NetworkEvent>, i: nat, c: nat, e: ModelEvent,
                 sent: seq<ModelEvent>)
    requires Reacts(net, s, s', i) && c < |net.channels| && net.channels[c].origin == Link(i)
    requires e.time == Chosen(net, s, i).time && e.eventType == Chosen(net, s, i).eventType
    requires s'.queue[c] == s.queue[c] + sent && LinkAnswer(IdOf(net, i), net.latency, e, sent, s.clock[c], s'.clock[c])
    ensures PushAsAsked(net, s, s', i, c)
  {
    hide Burst, Promise;
    assert (s.queue[c] + sent)[|s.queue[c]|..] == sent;
  }

  lemma NoPush(net: Net, s: Global<NetworkEvent>, s': Global<NetworkEvent>, i: nat, c: nat)
    requires Reacts(net, s, s', i) && c < |net.channels| && net.channels[c].origin != Link(i)
    requires net.channels[c].origin != Self(i)
    requires s'.queue[c] == s.queue[c] && s'.clock[c] == s.clock[c] && !Chosen(net, s, i).eventType.Null?
    ensures PushAsAsked(net, s, s', i, c)
  {
  }

  lemma PushedStep(net: Net, s: Global<NetworkEvent>, s': Global<NetworkEvent>, i: nat)
    requires Reacts(net, s, s', i) && forall c :: 0 <= c < |net.channels| ==> PushAsAsked(net, s, s', i, c)
    requires s'.phase == s.phase[i := if Chosen(net, s, i).eventType.Close? then Phase.Done else Ready]
    requires !Chosen(net, s, i).eventType.Null? && (Chosen(net, s, i).eventType.Stalled? ==> s.queue[s.winner[i]] == [])
    ensures Step(net, s, s', i)
  {
    hide ClosePush, StallPush, ModelPush;
    var e := Chosen(net, s, i).eventType;
    forall c | 0 <= c < |net.channels|
      ensures e.Close? ==> ClosePush(net, s, s', i, c)
      ensures e.Stalled? ==> StallPush(net, s, s', i, c)
      ensures e.ModelEvent? ==> ModelPush(net, s, s', i, c)
    {
      assert PushAsAsked(net, s, s', i, c);
    }
  }

  lemma ReactsSo(net: Net, s: Global<NetworkEvent>, s': Global<NetworkEvent>, i: nat)
    requires Sized(net, s) && i < net.actors && s.phase[i] == Deciding && Sized(net, s') && s'.winner == s.winner
    requires s'.curr == s.curr
    ensures Reacts(net, s, s', i)
  {
  }

  lemma EndsWithMore(sent: seq<ModelEvent>, sent': seq<ModelEvent>, queue: seq<ModelEvent>)
    requires EndsWith(sent, queue) && sent <= sent'
    ensures EndsWith(sent', queue + Added(sent, sent'))
  {
    assert sent' == sent + Added(sent, sent');
  }

  // Event loops

  /** How a stretch of an actor's path ends: ready for the next turn, with a stall, or with Close. */
  datatype End = GoesOn | Stalls | Closes

  ghost function EndOf(e: ModelEvent): End {
    if e.eventType.Close? then Closes else if e.eventType.Stalled? then Stalls else GoesOn
  }

  ghost function PhaseAt(end: End): Phase {
    if end.Closes? then Phase.Done else Ready
  }

  ghost predicate EndsIn(net: Net, ss: seq<Global<NetworkEvent>>, i: nat, end: End) {
    end.Stalls? ==> |ss| >= 2 && Stall(net, ss[|ss| - 2], ss[|ss| - 1], i)
  }

  /** A step at a stall on an empty queue is the sending of promises. */
  lemma StepAtStall(net: Net, s: Global<NetworkEvent>, s': Global<NetworkEvent>, i: nat)
    requires Sized(net, s) && i < net.actors && s.phase[i] == Deciding && Step(net, s, s', i)
    requires Chosen(net, s, i).eventType.Stalled? && s.queue[s.winner[i]] == []
    ensures Stall(net, s, s', i)
  {
  }

  /** `ss` is a path of actor `i` from `s` to where it plays its part with merger `m` and as `x`. */
  ghost predicate Leads<S>(net: Net, s: Global<NetworkEvent>, ss: seq<Global<NetworkEvent>>, i: nat,
                           plays: (Global<NetworkEvent>, MergerSpec.MState<NetworkEvent>, S) -> bool,
                           m: MergerSpec.MState<NetworkEvent>, x: S, end: End) {
    && ss != [] && Path(net, ss, i) && ss[0] == s
    && var s' := ss[|ss| - 1];
       plays(s', m, x) && i < |s.phase| && s'.phase == s.phase[i := PhaseAt(end)] && EndsIn(net, ss, i, end)
  }

  /** Whenever actor `i` plays its part, a turn leads it to where it plays its part again. */
  ghost predicate TurnLeads<S>(net: Net, i: nat,
                               plays: (Global<NetworkEvent>, MergerSpec.MState<NetworkEvent>, S) -> bool,
                               answered: Turn<S> -> bool, s: Global<NetworkEvent>, turn: Turn<S>) {
    turn.call != [] && i < |s.phase| && s.phase[i] == Ready && plays(s, turn.call[0], turn.before)
    && Chose(turn) && answered(turn) ==>
      exists ss :: Leads(net, s, ss, i, plays, turn.left, turn.after, EndOf(turn.event))
  }

  lemma LeadsOn<S>(net: Net, s: Global<NetworkEvent>, before: seq<Global<NetworkEvent>>,
                   after: seq<Global<NetworkEvent>>, i: nat,
                   plays: (Global<NetworkEvent>, MergerSpec.MState<NetworkEvent>, S) -> bool,
                   m1: MergerSpec.MState<NetworkEvent>, m2: MergerSpec.MState<NetworkEvent>, x1: S, x2: S, end: End)
    requires before != [] && after != [] && Leads(net, s, before, i, plays, m1, x1, GoesOn)
    requires Leads(net, before[|before| - 1], after, i, plays, m2, x2, end)
    ensures Leads(net, s, before + after[1..], i, plays, m2, x2, end)
  {
    hide Path, Stall;
    PathThen(net, before, after, i);
    if end.Stalls? {
      var ss := before + after[1..];
      assert ss[|ss| - 2] == after[|after| - 2] && ss[|ss| - 1] == after[|after| - 1];
    }
  }

  /** A path and one step more. */
  lemma LeadsSo<S>(net: Net, s: Global<NetworkEvent>, before: seq<Global<NetworkEvent>>, s': Global<NetworkEvent>,
                   i: nat,
                   plays: (Global<NetworkEvent>, MergerSpec.MState<NetworkEvent>, S) -> bool,
                   m: MergerSpec.MState<NetworkEvent>, x: S, end: End)
    requires before != [] && before[0] == s && Path(net, before, i) && Step(net, before[|before| - 1], s', i)
    requires plays(s', m, x) && i < |s.phase| && before[|before| - 1].phase == s.phase[i := Deciding]
    requires s'.phase == before[|before| - 1].phase[i := PhaseAt(end)]
    requires var s1 := before[|before| - 1];
             end.Stalls? ==> Sized(net, s1) && i < net.actors && Chosen(net, s1, i).eventType.Stalled?
                             && s1.queue[s1.winner[i]] == []
    ensures Leads(net, s, before + [s'], i, plays, m, x, end)
  {
    PathOn(net, before, s', i);
    if end.Stalls? {
      StepAtStall(net, before[|before| - 1], s', i);
    }
    hide Step, Stall, Chosen, Sized;
    assert s'.phase == s.phase[i := PhaseAt(end)];
  }

  lemma LeadsNowhere<S>(net: Net, s: Global<NetworkEvent>, i: nat,
                        plays: (Global<NetworkEvent>, MergerSpec.MState<NetworkEvent>, S) -> bool,
                        m: MergerSpec.MState<NetworkEvent>, x: S)
    requires plays(s, m, x) && i < |s.phase| && s.phase[i] == Ready
    ensures Leads(net, s, [s], i, plays, m, x, GoesOn)
  {
    assert s.phase[i := Ready] == s.phase;
  }

  lemma LeadsTo<S>(net: Net, s: Global<NetworkEvent>, ss: seq<Global<NetworkEvent>>, i: nat,
                   plays: (Global<NetworkEvent>, MergerSpec.MState<NetworkEvent>, S) -> bool,
                   m: MergerSpec.MState<NetworkEvent>, x: S, end: End)
    requires Leads(net, s, ss, i, plays, m, x, end)
    ensures ss != [] && plays(ss[|ss| - 1], m, x) && i < |ss[|ss| - 1].phase| && ss[|ss| - 1].phase[i] == PhaseAt(end)
  {
  }

  lemma OneTurn<S>(net: Net, i: nat, plays: (Global<NetworkEvent>, MergerSpec.MState<NetworkEvent>, S) -> bool,
                   answered: Turn<S> -> bool, s: Global<NetworkEvent>, turn: Turn<S>)
      returns (ss: seq<Global<NetworkEvent>>)
    requires TurnLeads(net, i, plays, answered, s, turn)
    requires turn.call != [] && i < |s.phase| && s.phase[i] == Ready && plays(s, turn.call[0], turn.before)
    requires Chose(turn) && answered(turn)
    ensures ss != [] && Leads(net, s, ss, i, plays, turn.left, turn.after, EndOf(turn.event))
  {
    hide Leads, Chose;
    ss :| Leads(net, s, ss, i, plays, turn.left, turn.after, EndOf(turn.event));
    LeadsTo(net, s, ss, i, plays, turn.left, turn.after, EndOf(turn.event));
  }

  /** Turn by turn, a whole event loop is a path of protocol steps. */
  lemma {:induction false} LoopIsPath<S(!new)>(net: Net, s: Global<NetworkEvent>, i: nat,
                                               plays: (Global<NetworkEvent>, MergerSpec.MState<NetworkEvent>,
                                                       S) -> bool,
                                               answered: Turn<S> -> bool, turns: seq<Turn<S>>,
                                               m: MergerSpec.MState<NetworkEvent>,
                                               m': MergerSpec.MState<NetworkEvent>, x: S, x': S)
      returns (ss: seq<Global<NetworkEvent>>)
    requires forall s0, turn :: TurnLeads(net, i, plays, answered, s0, turn)
    requires plays(s, m, x) && i < |s.phase| && s.phase[i] == Ready && Turns(answered, turns, m, m', x, x')
    requires forall k :: 0 <= k < |turns| - 1 ==> turns[k].event.eventType.ModelEvent?
    ensures Leads(net, s, ss, i, plays, m', x', if turns == [] then GoesOn else EndOf(turns[|turns| - 1].event))
    decreases |turns|
  {
    hide Leads, Turns, Chose, TurnLeads;
    LastTurn(answered, turns, m, m', x, x');
    if turns == [] {
      ss := [s];
      LeadsNowhere(net, s, i, plays, m, x);
    } else {
      var last := turns[|turns| - 1];
      var before := LoopIsPath(net, s, i, plays, answered, turns[..|turns| - 1], m, last.call[0], x, last.before);
      LeadsTo(net, s, before, i, plays, last.call[0], last.before, GoesOn);
      assert TurnLeads(net, i, plays, answered, before[|before| - 1], last);
      var after := OneTurn(net, i, plays, answered, before[|before| - 1], last);
      ss := before + after[1..];
      LeadsOn(net, s, before, after, i, plays, last.call[0], m', last.before, x', EndOf(last.event));
    }
  }
}
