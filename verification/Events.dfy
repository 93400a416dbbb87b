/** Events, their order in the merger, and the queues they travel on. */
module Events {

  datatype EventType<+U> =
    | ModelEvent(model: U)
    | Stalled
    | Null
    | Close

  datatype Event<+U> = Event(time: nat, src: nat, eventType: EventType<U>)

  /** The order of the tournament: by time, and at equal times anything real before a stall. */
  predicate Leq<U>(a: Event<U>, b: Event<U>) {
    a.time < b.time || (a.time == b.time && (a.eventType.Stalled? ==> b.eventType.Stalled?))
  }

  /** An event a neighbour really sent, and which an actor has to see. */
  predicate Visible<U>(e: Event<U>) {
    !e.eventType.Stalled? && !e.eventType.Null?
  }

  /** In order of time. */
  ghost predicate Sorted<U>(es: seq<Event<U>>) {
    forall a, b :: 0 <= a < b < |es| ==> es[a].time <= es[b].time
  }
}
