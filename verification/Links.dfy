/** Outgoing links: what has been sent on a link, and the clock its sender keeps for it. */
module Links {
  import opened Events
  import opened NetworkEvents
  import Protocol

  /** The queue of one link and its clock: everything sent is in order, the newest a latency after the clock. */
  ghost predicate LinkClock(queue: seq<ModelEvent>, clock: nat, latency: nat) {
    && queue != []
    && Sorted(queue) && Protocol.Open(queue)
    && queue[|queue| - 1].time == clock + latency
  }

  lemma LinkClockAppend(queue: seq<ModelEvent>, sent: seq<ModelEvent>, clock: nat, after: nat, latency: nat)
    requires LinkClock(queue, clock, latency)
    requires sent != [] ==> clock + latency <= sent[0].time && sent[|sent| - 1].time == after + latency
    requires sent == [] ==> after == clock
    requires Sorted(sent) && Protocol.Open(sent)
    ensures LinkClock(queue + sent, after, latency)
  {
    Protocol.AppendInOrder(queue, sent);
  }

  lemma PromiseKeepsClock(queue: seq<ModelEvent>, clock: nat, t: nat, latency: nat, id: nat)
    requires LinkClock(queue, clock, latency)
    ensures LinkClock(queue + Protocol.Promise(id, clock, t, latency), if clock < t then t else clock, latency)
  {
    LinkClockAppend(queue, Protocol.Promise(id, clock, t, latency), clock, if clock < t then t else clock, latency);
  }

  /** Close was sent last on a link, and everything before it keeps the link's clock. */
  ghost predicate ClosedDown(queue: seq<ModelEvent>, clock: nat, latency: nat) {
    queue != [] && queue[|queue| - 1].eventType.Close? && LinkClock(queue[..|queue| - 1], clock, latency)
  }
}
