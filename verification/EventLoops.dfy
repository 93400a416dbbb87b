/** The event loop of an actor: turns, each a call of the merger and the answer to the event it returned. */
module EventLoops {
  import opened Events
  import opened NetworkEvents
  import opened MergerSpec

  /** The actor `before` and `after` it answered `event`, and the merger it is `left` with. */
  datatype Turn<S> = Turn(call: seq<MState<NetworkEvent>>, event: ModelEvent, before: S, after: S,
                          left: MState<NetworkEvent>)

  /** The turn's event is what its call returned. */
  ghost predicate Chose<S>(turn: Turn<S>) {
    && Call(turn.call)
    && var m := turn.call[|turn.call| - 1];
       m.winner < |m.curr| && turn.event == m.curr[m.winner]
  }

  /** Consecutive turns, answered as told, from merger `m` and actor `s` to `m'` and `s'`. */
  ghost predicate Turns<S>(answered: Turn<S> -> bool, turns: seq<Turn<S>>, m: MState<NetworkEvent>,
                           m': MState<NetworkEvent>, s: S, s': S)
    decreases |turns|
  {
    if turns == [] then m' == m && s' == s
    else
      var last := turns[|turns| - 1];
      && Chose(last) && answered(last)
      && last.left == m' && last.after == s'
      && Turns(answered, turns[..|turns| - 1], m, last.call[0], s, last.before)
  }

  lemma NoTurns<S>(answered: Turn<S> -> bool, m: MState<NetworkEvent>, s: S)
    ensures Turns(answered, [], m, m, s, s)
  {
  }

  lemma TurnsGoOn<S>(answered: Turn<S> -> bool, turns: seq<Turn<S>>, turn: Turn<S>, m: MState<NetworkEvent>, s: S)
    requires Chose(turn) && answered(turn) && turn.call != [] && Turns(answered, turns, m, turn.call[0], s, turn.before)
    ensures Turns(answered, turns + [turn], m, turn.left, s, turn.after)
  {
    hide Chose;
    assert (turns + [turn])[..|turns|] == turns;
  }

  lemma Choose<S>(turn: Turn<S>)
    requires Call(turn.call)
    requires var m := turn.call[|turn.call| - 1]; m.winner < |m.curr| && turn.event == m.curr[m.winner]
    ensures Chose(turn) && turn.call != []
  {
  }

  lemma LastTurn<S>(answered: Turn<S> -> bool, turns: seq<Turn<S>>, m: MState<NetworkEvent>,
                    m': MState<NetworkEvent>, x: S, x': S)
    requires Turns(answered, turns, m, m', x, x')
    ensures turns == [] ==> m' == m && x' == x
    ensures turns != [] ==>
      var last := turns[|turns| - 1];
      && Chose(last) && answered(last) && last.call != [] && last.left == m' && last.after == x'
      && Turns(answered, turns[..|turns| - 1], m, last.call[0], x, last.before)
  {
  }
}
