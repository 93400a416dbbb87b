# Verified model of rustasim

Rustasim is a conservative parallel discrete-event simulator with a datacenter network on top. Actors (servers and
routers) exchange timestamped events over bounded queues; each actor merges its queues in time order and, when it
cannot go on, promises its neighbours that nothing will come before its own time plus the link latency. This project
models that machinery in Dafny and proves what it is relied on for.

## What is modelled

- **Merger** (`TreeGeometry`, `LoserTree`, `Merger`, `MergerRuns`, `Rotation`). The loser tree embedded in an array, for
  every number of queues from two on. `LtrWalk` and `MergerPaths` are the engine's index computations, proved against the
  tree they are meant to describe. `Merger.Next` replays paths in place and is proved to do what a linear scan
  (`MergerSpec.Round`) does. Whole runs, in which neighbours push at any moment, keep order and lose nothing. Between
  queues that are stalled at the same time the winner rotates.
- **Null-message protocol** (`Protocol`, `ProtocolRuns`). A step machine over all actors, all channels and all mergers at
  once. One invariant spans sender, channel and receiver; from it follow freedom from deadlock, causality, and a bound on
  how often anybody can stall.
- **The event loops inside the protocol** (`LocalRounds`, `Reactions`, `RouterSteps`, `ServerSteps`). The machine's pops are
  exactly the merger's rounds, and what the methods `Router.Advance` and `ServerLoop.Advance` do, turn by turn, are steps of
  the machine.
- **Whole simulations** (`Layout`, `Deliveries`, `Simulation`, `SimulationStart`, `SimulationSteps`, `SimulationCalls`,
  `SimulationRuns`). All routers and servers of a network, started as they are built and called in any order. Every call
  finds its actor ready, the run is a run of the protocol, packets arrive where they are sent, and called round by round
  everybody is done after as many rounds as there are latencies before the last Close. Here protocol, event loops, routing
  tables and traffic are put together: what each assumes of its surroundings is what the others provide.
- **Routers and servers** (`Router`, `Links`, `Tcp`, `Timers`, `Server`, `EventLoops`, `ServerLoop`). The event loops as
  methods that update their objects, proved against values: the clock kept for each link, the flow window, the heap of
  timers and the one Timeout in flight.
- **What is sent, and when** (`Wire`, `Sending`, `Relaying`, `ServerRuns`). The reactions in numbers: how long a burst
  occupies a link, which packets a router loses and how the others queue, in which order timers are served, which packets
  an acknowledgement marks, and what a completed flow reports.
- **Traffic** (`Traffic`). Packets of a whole network of such servers and routers: what reaches a server is addressed to it
  and acknowledges only what it has sent.
- **Routing** (`Graphs`, `Routing`, `Clos`, `ClosBuilder`, `Forwarding`, `World`). The breadth-first searches are exact and
  terminate although ties expand nodes again; the folded Clos builder is followed link by link; its routes are given for
  all numbers of up- and downlinks; routers are wired and their tables installed as indices; forwarding over these indices
  is free of loops.
- **Queue** (`Spsc`, `SpscSteps`). The ring buffer with positions modulo twice the capacity and a stale copy of the other
  side's position, once as a class and once as interleaved atomic steps that refine a bounded queue.
- **Workers** (`Workers`). Workers moving actors among shared deques: nothing is lost, nothing is run twice at once, and a
  worker returns only when everything is done. Whoever waits in a deque is taken in turn.

`Powers`, `DivMod` and `Sets` hold the arithmetic, `Events` and `NetworkEvents` the data.

## Where the code does less than it seems to

These are stated as they are, with the exact condition under which the expected property holds.

- *Close and channel order.* Close is stamped with the time of the received Close plus the latency, also when a link's
  clock is already later. Passing on Close keeps a link in order if and only if the link's clock is not ahead of the Close
  (`Protocol.CloseKeepsOrderIff`, with `Router.CloseCanOvertake` as an instance). All claims about order are about what
  is sent before Close, and `ProtocolRuns.PopAdvances` names Close as the one event that may go back in time.
- *Departure times of a server.* A server starts transmission when its link is free, even if that was before the event it
  reacts to. Everything it sends lies after the event if and only if nothing is sent, which can be told before the event is
  handled (`Server.SendsNothing`), or the link is busy until the first packet's end (`Server.DepartsAfterIff`).
  `Server.AnswerBeforeData` is an instance that can come about: another host starts a flow at 0, the promises of rack and
  server rise in turns of 500 to 2000 on the server's link, and the first packet reaches the server at 3400.
- *Installing routes.* The table skips the router's own id without leaving a gap, so that a lookup is right for ids below
  the router's own and otherwise only when the next id has the same hops (`Forwarding.LookupAlignedIff`, with
  `Forwarding.LookupMisaligned` as an instance).
  Hosts have lower ids than all switches, so lookups of hosts are right (`Forwarding.IndexLeadsToHop`).
- *Empty flows.* A flow of zero bytes sends nothing, is never acknowledged and so never reports (`Tcp.ReportsExactlyOnce`).
- *No workers, no actors.* Started with no workers but some actors, the pool returns no results. Started with workers but
  no actors, there is no deque to lock and every worker panics (`Workers.NoActorsNoReturn`). There is one result per actor
  if and only if there are both, or neither (`Workers.OneResultPerActor`).
- The engine's documentation calls the merged events monotonically increasing; equal times do occur, and what is proved
  is that times never decrease.

## Conventions

Times, sizes and ids are natural numbers; the ranges of the machine integers are assumed not to be left. The logarithms
the engine takes in floating point are exact integer logarithms here. Queues are sequences; between actors they are never
full, because the code unwraps its pushes. A random choice is any choice. A binary heap is a multiset from which a least
element is taken. What a completed flow prints is recorded in `reports`. Latency and bandwidth are positive. Flows are
taken to be handed to their source host and to go to a host in `1 .. hosts`; the code takes both ends unchecked from the
flow file (rustasim-dcsim/src/lib.rs:155-170).

## Model

| member | source | states |
|---|---|---|
| `TreeGeometry.LtrWalk` | rustasim-engine/src/engine.rs:131-177 | the marking walk yields the in-order sequence of the matches of the n-leaf tree, for every n from two on, with the odd-n detour and the final pop |
| `TreeGeometry.WalkIsPermutation` | rustasim-engine/src/engine.rs:131-177 | that sequence holds each match from 1 to n - 1 exactly once |
| `TreeGeometry.WalkSeparatesLeaves` | rustasim-engine/src/engine.rs:115-126 | the i-th match of the walk is the lowest common ancestor of leaves i and i + 1, counted from the left |
| `TreeGeometry.LeafNumbers` | rustasim-engine/src/engine.rs:228-256 | queue i sits at the i-th leaf from the left, also when the last layer is only partly filled |
| `TreeGeometry.MergerPaths` | rustasim-engine/src/engine.rs:225-256 | the index arithmetic for `paths` gives each queue the parent of its leaf |
| `LoserTree.FirstTournament` | rustasim-engine/src/engine.rs:201-224 | placing queue i + 1 at the i-th match of the walk is a finished tournament, won by queue 0 |
| `LoserTree.WinnerIsLeast` | rustasim-engine/src/engine.rs:294-368 | the winner of a finished tournament is least among all queues by time, real events before stalls |
| `LoserTree.HeldExactlyOnce` | rustasim-engine/src/engine.rs:316-342 | every other queue's current event is stored at exactly one match, and that match is on the queue's path |
| `LoserTree.ReplayBegins` | rustasim-engine/src/engine.rs:300-319 | entering the winner's next event leaves every match on its path holding the winner of the other side |
| `LoserTree.ReplayStep` | rustasim-engine/src/engine.rs:321-342 | one match of the replay, whichever side wins it, keeps that with the path one shorter |
| `Merger.Merger.constructor` | rustasim-engine/src/engine.rs:185-272 | a new merger is a valid loser tree of null placeholders at time zero, one per queue |
| `Merger.Merger.PlayRound` | rustasim-engine/src/engine.rs:298-350 | popping and replaying in place is one round of the linear scan, and changes the winners of subtrees on the replayed path only, by the tie rule |
| `Merger.Merger.Next` | rustasim-engine/src/engine.rs:294-368 | terminates on any queue contents; plays retried rounds and then one that is returned; the result is least among all queues, never a null, and a stall only on an empty queue |
| `MergerSpec.RetryProgress` | rustasim-engine/src/engine.rs:356-364 | every retried round pops an event, uses up a held null, or moves on to a queue with something in it |
| `MergerSpec.CallPending` | rustasim-engine/src/engine.rs:296-368 | a call never adds undelivered events, and a real event it returns is one fewer |
| `MergerRuns.OutputsInOrder` | rustasim-engine/src/engine.rs:294-368 | with in-order inputs pushed at any moment, returned times (stalls included) never decrease |
| `MergerRuns.NothingLost` | rustasim-engine/src/engine.rs:298-366 | what arrived on a queue is what was returned from it, then what the tree holds, then what is queued: each event once and in order |
| `MergerRuns.NothingEarlierRemains` | rustasim-engine/src/engine.rs:322-364 | nothing still to come lies before a returned event, and after a stall everything held lies strictly later |
| `MergerRuns.CallIsRun` | rustasim-engine/src/engine.rs:294-368 | every call of `next` is a stretch of such a run |
| `Rotation.SidesAlternate` | rustasim-engine/src/engine.rs:328-338 | while a stalled queue waits, the other side of any match on its path gets at most one turn more than its own |
| `Rotation.EveryStalledQueueWins` | rustasim-engine/src/engine.rs:328-364 | a queue stalled at time t wins within any 2^n_layers rounds won by a stall at t, also with nulls in between and with new arrivals |
| `Rotation.CallInOrder` | rustasim-engine/src/engine.rs:294-368 | over the rounds of a call from in-order inputs time does not go back |
| `Rotation.EveryStalledQueuePolled` | rustasim-engine/src/engine.rs:294-368 | over calls: with in-order inputs, within any 2^n_layers consecutive results stalled at t every queue stalled at t at the first wins a round, so the next round polls it; that no round leaves t in between is derived from the results |
| `Protocol.StepInv` | rustasim-dcsim/src/router.rs:258-343 | every step of every actor keeps the invariant over senders, channels and receivers, clocks included |
| `Protocol.CloseKeepsOrderIff` | rustasim-dcsim/src/router.rs:258-269 | Close keeps a link in order if and only if the link's clock is not ahead of it |
| `LocalRounds.RoundIsPop` | rustasim-engine/src/engine.rs:298-350 | every round an actor's merger plays on its own queues is a step of the global machine |
| `LocalRounds.PopIsRound` | rustasim-engine/src/engine.rs:298-350 | every pop of the global machine is a round of that actor's merger |
| `LocalRounds.CallIsPath` | rustasim-engine/src/engine.rs:294-368 | a whole call of the merger is a path of pops and retries of the global machine, which leaves clocks and other actors alone |
| `LocalRounds.OthersSpare` | rustasim-dcsim/src/router.rs:243-353 | steps of other actors only fill an actor's merger and take from its links |
| `LocalRounds.PathExtendsRun` | rustasim-dcsim/src/router.rs:243-353 | a path of one actor after a run of the machine makes a longer run, so what holds of all runs holds there |
| `RouterSteps.AnswerIsStep` | rustasim-dcsim/src/router.rs:257-346 | every answer of a router is a stall, close or model step of the machine on the links it feeds |
| `RouterSteps.AdvanceIsPath` | rustasim-dcsim/src/router.rs:243-353 | whatever a call of `Router.Advance` does is a path of steps of the machine, after which the router plays its part again |
| `RouterSteps.BuiltPlays` | rustasim-dcsim/src/router.rs:150-194 | a newly built router plays its part in the start states of the machine |
| `ServerSteps.ReactionIsStep` | rustasim-dcsim/src/server.rs:239-420 | every reaction of a server is a stall, close or model step of the machine on its link and its own channel |
| `ServerSteps.AdvanceIsPath` | rustasim-dcsim/src/server.rs:223-425 | whatever a call of `ServerLoop.Advance` does is a path of steps of the machine, after which the server plays its part again |
| `ServerSteps.BuiltPlays` | rustasim-dcsim/src/server.rs:135-184 | a newly built server plays its part in the start states of the machine |
| `ProtocolRuns.StallNamesSender` | rustasim-dcsim/src/router.rs:275-295 | a stall is always on a link whose sender still runs, one latency after that sender's clock |
| `ProtocolRuns.NoDeadlock` | rustasim-dcsim/src/router.rs:275-295 | from any running actor, following stalls leads to a running actor that is not blocked |
| `ProtocolRuns.DeadlockFree` | rustasim-dcsim/src/router.rs:275-295 | at every moment of every run, while some actor runs, some running actor is not blocked |
| `ProtocolRuns.PopAdvances` | rustasim-engine/src/engine.rs:300-350 | a merger round takes an actor back in time only to a Close |
| `ProtocolRuns.Causality` | rustasim-dcsim/src/router.rs:251-348 | in every run an actor never sees an event earlier than one it has seen before, Close excepted |
| `ProtocolRuns.PromisesAreNews` | rustasim-dcsim/src/router.rs:275-295 | a stall sends a null, stamped with the stall plus the latency, exactly on the links whose newest event is earlier than that |
| `ProtocolRuns.StallAboveFloor` | rustasim-dcsim/src/server.rs:256-292 | once all promises reach T, every later stall is at T + latency or later |
| `ProtocolRuns.FullRoundRaisesFloor` | rustasim-dcsim/src/server.rs:256-292 | when every running actor has stalled once more, all promises have risen by a latency |
| `ProtocolRuns.StallTimesGrow` | rustasim-dcsim/src/router.rs:275-295 | after r full rounds every stall lies at (r + 1) latencies or later |
| `ProtocolRuns.StallBeforeClose` | rustasim-dcsim/src/lib.rs:347-373 | an actor stalls only strictly before the Close the world scheduled for it |
| `ProtocolRuns.StallsRunOut` | rustasim-dcsim/src/lib.rs:347-373 | after as many full rounds as there are latencies before its Close an actor never stalls again |
| `ProtocolRuns.EveryoneDone` | rustasim-dcsim/src/lib.rs:347-372 | after as many full rounds as there are latencies before the last Close every actor is done |
| `ProtocolRuns.TimeoutNotMissed` | rustasim-dcsim/src/server.rs:302-337 | a running actor is never taken past its pending self Timeout, of which there is at most one |
| `ProtocolRuns.TimeoutMayRepeat` | rustasim-dcsim/src/server.rs:302-337 | the machine alone lets an actor answer a timeout by one at the same time and be back where it was; what keeps servers from it is the measure of `ServerLoop.TakeTurn` |
| `Router.CloseCanOvertake` | rustasim-dcsim/src/router.rs:258-269 | a packet relayed at 12500 and a Close passed on right after it, at 1 gbps and 500 ns, leave the link out of order |
| `Router.Router.constructor` | rustasim-dcsim/src/router.rs:150-194 | a new router holds the id, latency, bandwidth and table passed in, a placeholder per queue, has promised every neighbour one latency, and all clocks are at zero |
| `Router.Router.SendNulls` | rustasim-dcsim/src/router.rs:275-295 | exactly the links behind the stall time get a null, all links end up at least there, and clocks stay right |
| `Router.Router.Forward` | rustasim-dcsim/src/router.rs:308-343 | a packet starts on one of its next hops when both it and the link are ready, and arrives a transmission and a latency later, or is dropped on too long a backlog; other links are untouched and clocks stay right |
| `Relaying.LostIff` | rustasim-dcsim/src/router.rs:308-343 | in any turn with a packet, one of its next hops is such that the packet is lost if and only if that link is booked for more than 12000000 times the bandwidth beyond its arrival; otherwise it leaves when both are ready, takes 8 * size / bandwidth, and arrives a latency later |
| `Relaying.BusyPeriod` | rustasim-dcsim/src/router.rs:308-343 | over any turns in which packets of any sizes are received for one link, each before the link is through with those before it and within the limit, none is lost and they leave in order and back to back |
| `Relaying.VolleyArrives` | rustasim-dcsim/src/router.rs:308-343 | of packets of one size z all received at t for a free link, within the limit, the k-th arrives at t + k * (8 * z / bandwidth) + latency |
| `Router.Router.Advance` | rustasim-dcsim/src/router.rs:243-353 | terminates; the whole change to links and merger is a chain of turns, each a merger call and the answer to its event; clocks stay right; after a stall all clocks have reached it; at the end every link has Close last behind an ordered link |
| `Links.LinkClockAppend` | rustasim-dcsim/src/router.rs:322-343 | sending from the clock on keeps a link ordered with its newest event one latency after the clock |
| `Tcp.Flow.Next` | rustasim-dcsim/src/tcp.rs:205-234 | the first queued retransmission still unacknowledged, else the next new packet, else nothing |
| `Tcp.Flow.Start` | rustasim-dcsim/src/tcp.rs:116-133 | sends the window or all there is, in order and each with a timer request |
| `Tcp.Flow.SrcReceive` | rustasim-dcsim/src/tcp.rs:136-175 | no subtraction underflows; a first acknowledgement lets at most one new packet go, a repeated one does nothing, the last one reports |
| `Tcp.Flow.Timeout` | rustasim-dcsim/src/tcp.rs:178-199 | resends exactly the packet that timed out unless it was acknowledged, and leaves the flow as it was |
| `Tcp.AckKeepsInv` | rustasim-dcsim/src/tcp.rs:136-175 | outstanding = next_seq - n_acked = min(cwnd, packets - n_acked) survives any acknowledgement |
| `Tcp.ReportsExactlyOnce` | rustasim-dcsim/src/tcp.rs:137-153 | over any acknowledgements and timeouts, in any order and repeated, a flow has reported once if it is non-empty and all its packets are acknowledged, and not at all otherwise |
| `Tcp.MarksExactly` | rustasim-dcsim/src/tcp.rs:136-156 | over any acknowledgements and timeouts, a packet sent is marked if and only if its own acknowledgement has arrived |
| `Tcp.ReportIsRight` | rustasim-dcsim/src/tcp.rs:137-153 | the only report is made by the first acknowledgement after which all packets have been acknowledged, with the start of the flow, the time of that acknowledgement and the difference |
| `Timers.ServedOnTime` | rustasim-dcsim/src/server.rs:304-317 | a timer found due by a Timeout was set for exactly that time, and none set for that time is passed over |
| `Timers.TimeoutServes` | rustasim-dcsim/src/server.rs:304-335 | serving a timer and timing its packet anew keeps the timers exact |
| `Timers.AckTimers` | rustasim-dcsim/src/server.rs:358-361 | an acknowledgement keeps the timers exact, the packet it lets go included |
| `Timers.FlowTimers` | rustasim-dcsim/src/server.rs:340-354 | a new flow keeps the timers exact |
| `Timers.ExactlyOneTimer` | rustasim-dcsim/src/server.rs:414-419 | a packet sent and not acknowledged has exactly one timer, no earlier than the pending Timeout |
| `Server.TrainIsBurst` | rustasim-dcsim/src/server.rs:393-413 | packets sent back to back are in order, start after the link's clock and end at the new one |
| `Server.SendsNothingIff` | rustasim-dcsim/src/server.rs:300-413 | a reaction sends nothing if and only if, beforehand, the due timer (if any) is of an acknowledged packet, the new flow is empty, or the acknowledgement is repeated or leaves nothing to send |
| `Server.DepartsAfterIff` | rustasim-dcsim/src/server.rs:300-413 | for every event a server reacts to: all it sends lies a latency after the event or later if and only if the event is a stall or a Close, makes the server send nothing (a condition on event and server as they are before), or finds the link busy until the first packet's end |
| `Server.AnswerBeforeData` | rustasim-dcsim/src/server.rs:362-388 | data that reaches at 3400 a server whose link has been free since 2000, at 10 gbps and 500 ns, is answered by an event stamped 2508 |
| `Server.TrainDepartsIff` | rustasim-dcsim/src/server.rs:393-413 | a burst of any length departs after a given time if and only if its first packet does |
| `Server.Server.OnTimeout` | rustasim-dcsim/src/server.rs:302-337 | the timer set for this moment, if any, is served; the next Timeout is sent for the earliest timer or after MIN_RTO; if that does not move time on, a due timer has been used up |
| `Server.Server.OnFlow` | rustasim-dcsim/src/server.rs:340-354 | a new flow's first window goes out, every packet with its timer, and all else stays |
| `Server.Server.OnAck` | rustasim-dcsim/src/server.rs:358-361 | only the acknowledged flow changes, and what it lets go is sent with its timer |
| `Server.Server.OnData` | rustasim-dcsim/src/server.rs:362-388 | data is answered by one short acknowledgement with source and destination turned round, and no timer |
| `Server.Server.OnStalled` | rustasim-dcsim/src/server.rs:256-292 | the rack is promised the stall time once |
| `Server.Server.OnClose` | rustasim-dcsim/src/server.rs:240-254 | Close goes to the rack and to the server's own queue |
| `Server.Server.React` | rustasim-dcsim/src/server.rs:239-420 | every kind of event has exactly its effect on queues, timers and flows, and keeps window, timers and link clock; a Timeout is answered by exactly one Timeout |
| `Server.CountsOnce` | rustasim-dcsim/src/server.rs:296-297 | the result of a server grows by one with each model event, and with nothing else |
| `Sending.ReactionOnWire` | rustasim-dcsim/src/server.rs:393-413 | whatever one reaction sends, packet k arrives a latency after the time the link was free plus the sum over all packets up to k of 8 * size / bandwidth, and the link is free again after the last |
| `Sending.FlowSends` | rustasim-dcsim/src/server.rs:340-354 | a new flow sends packets 0 to n - 1 of its 1500-byte packets, all there are but at most 30, one every 12000 / bandwidth, each with a timer 2000000 later |
| `Sending.AckSendsNext` | rustasim-dcsim/src/server.rs:358-361 | a first acknowledgement lets exactly the next packet go, with its timer, if 1500-byte packets are left; a repeated one nothing |
| `Sending.DataAnswered` | rustasim-dcsim/src/server.rs:362-388 | data is answered by one packet of ten bytes with its flow and sequence numbers, after 80 / bandwidth on the wire, and nothing else changes |
| `Sending.TimeoutSendsFirst` | rustasim-dcsim/src/server.rs:302-335 | a Timeout uses up that due timer which is first by flow and then by sequence number, sends exactly its packet again unless acknowledged, timed anew, and does nothing when none is due |
| `Sending.NextTimeoutIs` | rustasim-dcsim/src/server.rs:320-337 | the next Timeout is for the earliest timer, or for 2000000 later if that is earlier |
| `ServerRuns.ResentInOrder` | rustasim-dcsim/src/server.rs:302-337 | over any number of Timeouts at one moment, what goes out again is in strict order of flows and sequence numbers, was due and unacknowledged; once no timer of that moment is left, all of it has gone out |
| `ServerRuns.BurstResent` | rustasim-dcsim/src/server.rs:302-354 | if nothing is heard of a new flow's first window, exactly its packets 0 to n - 1 go out again, in order, by the Timeouts of 2000000 later |
| `ServerRuns.FlowMarks` | rustasim-dcsim/src/server.rs:357-361 | over all events since a flow started, its packet s is marked if and only if an acknowledgement with that flow and sequence number was among them |
| `ServerRuns.FlowReports` | rustasim-dcsim/src/tcp.rs:137-153 | over all events since a non-empty flow started, its one report is of the first event by which all its packets have been acknowledged: source, destination, start, that event's time, size and the time between |
| `ServerRuns.NoReportBefore` | rustasim-dcsim/src/tcp.rs:137-153 | a flow has not reported if and only if it is empty or one of its packets has not been acknowledged |
| `ServerLoop.CallFeed` | rustasim-dcsim/src/server.rs:232-320 | through the rounds of a call exactly one Timeout stays in flight and time does not go back, Close excepted |
| `ServerLoop.ReactionFeed` | rustasim-dcsim/src/server.rs:302-337 | a Timeout handled is replaced by the one sent, so that one is in flight again |
| `ServerLoop.ArrivalKeepsFeed` | rustasim-dcsim/src/server.rs:223-232 | neighbours may push between any two calls |
| `ServerLoop.Build` | rustasim-dcsim/src/server.rs:135-184 | a new server holds the configuration passed in and is ready for its first call, with its first Timeout at MIN_RTO on queue 0, a placeholder per queue and its null on the link |
| `ServerLoop.TakeTurn` | rustasim-dcsim/src/server.rs:232-420 | one event keeps everything the loop relies on, and is progress: an event consumed, time gained, or a due timer used up |
| `ServerLoop.Advance` | rustasim-dcsim/src/server.rs:223-425 | terminates on any queue contents although the server keeps sending itself Timeouts; the whole change is a chain of merger calls and reactions; the result counts the model events; it ends stalled with its promise made and its timers exact, or closed with Close last on an ordered link |
| `Routing.AcceptedIsShortest` | rustasim-dcsim/src/routing.rs:130-153 | an entry that is not skipped is a shortest one, so the branch for a cheaper path found later is never taken |
| `Routing.SearchEnds` | rustasim-dcsim/src/routing.rs:130-168 | the exhausted search has found every shortest (node, first hop) pair and every reachable node |
| `Routing.RouteAll` | rustasim-dcsim/src/routing.rs:120-169 | terminates; the keys are the reachable nodes and each other node's list is exactly, without repetition, the neighbours that start a shortest walk |
| `Routing.RouteId` | rustasim-dcsim/src/routing.rs:45-83 | terminates; the keys are the reachable nodes and each hop starts a shortest walk |
| `Graphs.HopIsNearer` | rustasim-dcsim/src/routing.rs:85-119 | first hops of shortest walks are exactly the neighbours one step nearer |
| `Clos.PotentialIsDistance` | rustasim-dcsim/src/routing.rs:120-169 | a potential that drops by one along some link and by no more along any is the distance, and hops are where it drops |
| `Clos.ClosHops` | rustasim-dcsim/src/routing.rs:239-293 | distances and next hops towards any host, for every device of every folded Clos |
| `Clos.RackRoutes` | rustasim-dcsim/src/routing.rs:274-281 | a rack switch has exactly its u uplinks towards every host outside the rack, and the host itself inside |
| `Clos.UpperRoutes` | rustasim-dcsim/src/routing.rs:283-290 | an upper switch has exactly its k/2 cores towards every host outside the pod, and exactly one rack switch inside |
| `Clos.CoreRoutes` | rustasim-dcsim/src/routing.rs:283-290 | a core has exactly one way to every host |
| `ClosBuilder.Connect` | rustasim-dcsim/src/routing.rs:172-175 | each end gets the other as its last neighbour and no other list changes; a network whose links all go both ways and stay inside it remains one |
| `ClosBuilder.ConnectStep` | rustasim-dcsim/src/routing.rs:268-290 | connecting the two ends of the next link of the folded Clos takes the network from one stage of the construction to the next |
| `ClosBuilder.BuildClos` | rustasim-dcsim/src/routing.rs:239-293 | the adjacency lists hold exactly the links of the folded Clos, each once, and hosts have the lowest ids |
| `ClosBuilder.ClosIsFabric` | rustasim-dcsim/src/routing.rs:215-293 | every folded Clos is connected, its links go both ways, its ids run from 1 on, and every host hangs off one switch |
| `ClosBuilder.TableRoutes` | rustasim-dcsim/src/routing.rs:120-169 | a table computed by `RouteAll` on the folded Clos holds routes to every host, to which the three results above apply |
| `ClosBuilder.ClosForwarding` | rustasim-dcsim/src/router.rs:308-343 | in every folded Clos, any choice among the indices installed at the switches takes a packet from a switch to a host in exactly the steps between them, at most five |
| `Forwarding.RouterBuilder.Connect` | rustasim-dcsim/src/router.rs:42-76 | ids and indices of neighbours keep translating back and forth |
| `Forwarding.RouterBuilder.InstallRoutes` | rustasim-dcsim/src/router.rs:131-147 | position 0 is empty, and position p of the table holds, index by index, the translated hops of destination p below the own id and of p + 1 from there on |
| `Forwarding.LookupAlignedIff` | rustasim-dcsim/src/router.rs:131-147 | a lookup finds its own destination's hops if and only if the destination is below the router's id or the next id has the same hops |
| `Forwarding.LookupMisaligned` | rustasim-dcsim/src/router.rs:136-146 | in a star of three nodes around router 2, whatever the indices of its neighbours, the installed table does not lead to node 3 when looked up for node 3 |
| `Forwarding.TableInstallable` | rustasim-dcsim/src/router.rs:131-147 | on every connected network with contiguous ids, what `RouteAll` computes for a router covers all ids and names only its neighbours, so installing it cannot panic |
| `World.WireRouters` | rustasim-dcsim/src/lib.rs:261-294 | wiring each link from its higher end leaves every router with exactly its neighbours, ids and indices translating back and forth |
| `World.BuildRouters` | rustasim-dcsim/src/lib.rs:261-304 | every router of a network ends up wired to its neighbours with the table of `RouteAll` installed, which is what the forwarding results assume |
| `Forwarding.IndexLeadsToHop` | rustasim-dcsim/src/router.rs:308-311 | at a built switch the indices installed for a host are exactly the queues of the computed next hops |
| `Forwarding.ForwardingIsLoopFree` | rustasim-dcsim/src/router.rs:308-343 | whatever installed indices are chosen at built switches, each hop is one step nearer and passes switches only, so a packet arrives after exactly the distance |
| `Forwarding.ForwardingGoesOn` | rustasim-dcsim/src/router.rs:308-311 | at a built switch the lookup of a host finds at least one index, and only indices of queues the switch has |
| `Traffic.ReactionSent` | rustasim-dcsim/src/server.rs:300-413 | whatever a server sends is data of its own flows that it has sent, or the acknowledgement of the data it received |
| `Traffic.StepInv` | rustasim-dcsim/src/router.rs:308-343 | every reaction and every forwarding keeps each packet in flight genuine and on its way to its destination |
| `Traffic.ArrivalsFit` | rustasim-dcsim/src/server.rs:357-361 | in every run of a network of servers and built switches, with packets lost, delayed and reordered at will, what reaches a server is addressed to it and acknowledges only what it has sent |
| `Deliveries.RouterCarries` | rustasim-dcsim/src/router.rs:243-353 | over all turns of a call, a router given genuine packets puts only genuine packets on links that lead to their destination or on to a switch |
| `Deliveries.ServerCarries` | rustasim-dcsim/src/server.rs:223-425 | over all turns of a call, a server sends only packets of its own flows and acknowledgements of what it received, to its rack, and its flows only grow |
| `Layout.PlanExists` | rustasim-dcsim/src/lib.rs:261-328 | every connected network of at least two nodes whose switches have been built can be laid out: one channel per direction per link in the order of each router's queues, one to each server itself, one from the world to everybody |
| `Layout.StartExists` | rustasim-dcsim/src/lib.rs:331-358 | with any timetable of flows, each at its source and in order, and Close last, there is a state in which the simulation starts |
| `SimulationStart.StartedInv` | rustasim-dcsim/src/lib.rs:312-371 | as built, every actor plays its part in the protocol and is ready for its first call |
| `SimulationSteps.CallInv` | rustasim-engine/src/worker.rs:72-84 | a call of any actor leaves every actor in its place, every packet on its way to its destination, and every actor that is not done ready for its next call |
| `SimulationCalls.StartRouter` | rustasim-dcsim/src/router.rs:150-194 | a router constructed over its queues is, object for object, the actor the simulation starts with |
| `SimulationCalls.StartServer` | rustasim-dcsim/src/server.rs:135-184 | a server built over its queues is, object for object, the actor the simulation starts with |
| `SimulationCalls.CallRouter` | rustasim-engine/src/worker.rs:72-84 | a router that is not done may be called at any time: what `Router.Advance` demands holds, the call ends, and takes the simulation on |
| `SimulationCalls.CallServer` | rustasim-engine/src/worker.rs:72-84 | a server that is not done may be called at any time: what `ServerLoop.Advance` demands holds, the call ends, and takes the simulation on |
| `SimulationRuns.AlwaysReady` | rustasim-engine/src/worker.rs:72-84 | in every run, whoever is called in whatever order, each actor is done or meets all its next call demands |
| `SimulationRuns.PacketsArrive` | rustasim-dcsim/src/server.rs:357-361 | in every run all that waits for a running server is its own timeouts, its own flows, and genuine packets addressed to it, acknowledgements being of packets it has sent |
| `SimulationRuns.RunIsBehavior` | rustasim-dcsim/src/router.rs:243-353 | every run of calls is a run of the protocol machine, in which each call that is not the actor's last ends with a stall |
| `SimulationRuns.SomebodyGoesOn` | rustasim-dcsim/src/router.rs:275-295 | in every run, while some actor is not done, some running actor is not blocked |
| `SimulationRuns.SimulationEnds` | rustasim-dcsim/src/lib.rs:347-371 | in every run in which each running actor is called at least once a round, all actors are done after as many rounds as there are latencies before the last Close |
| `Spsc.DistanceCounts` | rustasim-engine/src/spsc.rs:85-91 | the distance of two positions is the number of increments between them |
| `Spsc.SlotsDiffer` | rustasim-engine/src/spsc.rs:61-79 | positions less than a capacity apart use different slots |
| `Spsc.Ring.Push` | rustasim-engine/src/spsc.rs:210-237 | appends, and fails exactly when full, despite the stale copy of head |
| `Spsc.Ring.Pop` | rustasim-engine/src/spsc.rs:367-392 | takes the oldest element, and fails exactly when empty, despite the stale copy of tail |
| `Spsc.Ring.ConsumerLen` | rustasim-engine/src/spsc.rs:481-487 | the number of elements |
| `Spsc.Ring.IsEmpty` | rustasim-engine/src/spsc.rs:422-424 | whether there are none |
| `Spsc.Ring.Drop` | rustasim-engine/src/spsc.rs:95-112 | visits exactly the slots that hold a value, oldest first |
| `SpscSteps.WriteHitsFreeSlot` | rustasim-engine/src/spsc.rs:226-229 | the slot being written holds no element the consumer can still read, whatever the consumer does meanwhile |
| `SpscSteps.SlotsInRange` | rustasim-engine/src/spsc.rs:61-67 | no step is ever stuck on a slot outside the buffer |
| `SpscSteps.RefinesBoundedQueue` | rustasim-engine/src/spsc.rs:210-392 | in every interleaving each step acts as one atomic operation of a bounded queue or not at all; errors only when really full or empty |
| `SpscSteps.FirstInFirstOut` | rustasim-engine/src/spsc.rs:210-392 | in every interleaving what was popped, then the contents, is exactly what was pushed, in order |
| `Workers.StepInv` | rustasim-engine/src/worker.rs:57-92 | every step keeps each actor in exactly one place, and the counter behind the results by those not counted yet |
| `Workers.WaitsItsTurn` | rustasim-engine/src/worker.rs:69-85 | who waits in a deque moves up one place whenever a worker fetches from it or puts a continued actor back there, is held when it was in front, and is not moved by anything else |
| `Workers.FirstInFirstOut` | rustasim-engine/src/worker.rs:69-85 | in every run an actor that waits behind p others is held by a worker after the (p + 1)-th such visit to its deque |
| `Workers.HeldAlone` | rustasim-engine/src/worker.rs:69-85 | an actor a worker runs is run by no other, not queued and not done |
| `Workers.ReturnsOnlyWhenDone` | rustasim-engine/src/worker.rs:86-88 | when a worker has returned, no actor is queued, held or uncounted, and all are done |
| `Workers.FetchesIffDeques` | rustasim-engine/src/worker.rs:69-69 | a worker about to lock a deque can go on if and only if there is one; otherwise it panics |
| `Workers.NeverStuck` | rustasim-engine/src/worker.rs:70-91 | in every run started with actors a worker has a step to take exactly until it has returned |
| `Workers.ReturnsInTwoSteps` | rustasim-engine/src/worker.rs:86-91 | once the counter has reached the number of actors it stays there, and every worker returns within two steps of its own, whatever the others do |
| `Workers.NoActorsNoReturn` | rustasim-engine/src/lib.rs:82-98 | started without actors, workers find no deque, nothing ever happens and none returns |
| `Workers.OneResultPerActor` | rustasim-engine/src/lib.rs:99-117 | once all workers have returned there are as many results as actors if and only if there were both workers and actors, or neither; and then each actor has exactly one |
| `Workers.Collect` | rustasim-engine/src/lib.rs:109-116 | the joined results hold every actor finished by some worker exactly as often as finished, and each worker's results in order behind those of the workers before it |
| `Workers.Distribute` | rustasim-engine/src/lib.rs:78-97 | the actors are dealt out round robin over at most sixteen deques, each exactly once; there is no deque exactly when there is no actor |

## Left out

- Protocol.Step: a merger round, a retry and a whole reaction to one event are each one atomic step; the single pushes of a
  reaction are not interleaved with other actors there. Single pushes at any moment are allowed in `MergerRuns`.
- Protocol.Model: the protocol machine allows any in-order burst and does not look into packets.
- Protocol.Stall: the test for an empty queue (rustasim-engine/src/engine.rs:356-361) and the sending of the nulls
  (rustasim-dcsim/src/router.rs:275-295) are one step, so a push by a neighbour between the two is not a behaviour of the
  machine.
- ProtocolRuns.EveryoneDone: asks for full rounds; the machine alone does not bound the steps within a round, since it lets
  timeouts repeat at one time (`ProtocolRuns.TimeoutMayRepeat`). The event loops do not: `Router.Advance` and
  `ServerLoop.Advance` terminate.
- SimulationRuns.SimulationEnds: calls come one after the other, as with one worker. Calls of different actors at the same
  time are not runs there; pushes during a call are covered by `MergerRuns` and by the steps of `Protocol`.
- ServerLoop.Advance: takes what neighbours send as in order but for Close, and as acknowledging only packets sent;
  `SimulationSteps.CallInv` provides both.
- Traffic.ArrivalsFit: packets in flight have no times there, unlike those of `SimulationRuns.PacketsArrive`.
- ServerLoop.TakeTurn: takes the server and its merger as two objects; what a turn sends to the server itself is put on
  queue 0 at the end of the turn.
- Router.Router.Advance: asks that routers only receive packets they hold a route for, where the code would panic;
  `SimulationSteps.CallInv` provides it.
- Layout.PlanExists: a single switch without neighbours is left out, for whose one queue the merger's
  constructor fails an assertion (rustasim-engine/src/engine.rs:241).
- ClosBuilder.BuildClos: u + d is even, as the builder's documentation demands.
- Workers.StepInv: safety only; that every actor eventually finishes depends on the scheduler and on the actors.
- SpscSteps.RefinesBoundedQueue: atomic steps are sequentially consistent; acquire and release ordering, raw pointers,
  `Arc` and cache padding are not modelled.
- Full queues between actors: the router's branch for a failed push and the unwraps elsewhere are not modelled.
- Machine integers and floating point: no wrap-around of times and sizes, no rounding of the logarithm.
- World.WireRouters: routers only; servers keep no table, and the queues themselves are not created there. `Layout` has one
  queue per direction per link, with the world's schedule ending in Close and sorted by time.
- The fully connected builder, which has no multipath structure of its own.
- `Consumer::wait`, which spins until the environment pushes, and the capacity and is-full getters.
- The order in which a `HashMap` is iterated, which no result depends on.
- `FrozenActor` comparison, printing, logging, statistics, the command line, flow files, the PHOLD benchmark and the R script.
