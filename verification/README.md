# The csm-proxy session broker, modelled

`csm-proxy` routes messages between simulator streams and tool callers. Each simulator holds one bidirectional
session; callers enqueue commands to it, some of them waiting for the reply that carries the command's correlation
number, and drain a bounded inbound queue. This project models that broker and its process supervisor, and proves
what holds over every run.

The model has two layers that share one specification.

- **Objects.** `InboundQueues.InboundQueue`, `InstanceMaps.InstanceMap` and `Spawn.SpawnSupervisor` are classes with
  the fields the program has; loops stay loops. Each method is proved equal to a function on the state it changes:
  `Broker` and `Spawn` hold these functions, one per critical section.
- **Interleavings.** `Protocol` interleaves the very same sections: registering a waiter, looking it up, leaving the
  map and failing waiters are separate steps with anything in between. A run is any list of actions (an action that
  is not enabled changes nothing), so a theorem about `Run(START, run)` speaks about every reachable state.
  `SpawnRuns` does the same for the supervisor; `SpawnWaits` adds the waits and sweeps that follow a start;
  `BatchRuns`, `ViewRuns`, `ViewCalls` and `ObserveRuns` add a batch, view calls and observers to the broker.
  `NoStranded.DepartureIsRemoveIf`, `SoloReader.TaskIsReadStream`, `SoloCall.CallAloneIsSendAndRegister` and
  `ViewRuns.CallAloneIsViewSet` connect the layers: uninterrupted sections add up to the sequential calls.

| Module | Subject |
|---|---|
| `Messages`, `Masks`, `InboundQueues`, `QueueIsolation`, `QueueLedger` | envelopes and masks, the bounded queue, which classes cannot disturb each other, conservation |
| `Broker`, `InstanceMaps` | the lock sections and the map object |
| `Protocol`, `WaiterTable`, `ExactlyOnce`, `IndexTable`, `Outcomes`, `NoStranded` | the transition system; waiter tables and channels; resolution once and for good; causes of failures; no stranded waiter |
| `Footprints`, `Ownership`, `SessionRecords`, `Successors` | what a step can change; tokens, heartbeats and stale envelopes; sessions that replace one another |
| `Addressing`, `Wire`, `Isolation`, `ViewIndependence` | where requests go, what is on the wire, replies across instances, independence of the view |
| `SessionReaders`, `SoloReader`, `SoloCall` | handshake and read loop, agreement of the layers |
| `SessionView`, `ViewRuns`, `ViewCalls` | host view against wire view, alone, interleaved and concurrent |
| `Injects`, `BatchRuns`, `Observe`, `ObserveRuns`, `TagParse`, `Clocks` | the tool calls on top |
| `Spawn`, `SpawnRuns`, `SpawnWaits` | starting and reaping simulator processes, waiting for them, sweeping them up |

How the program's parts appear:

- A one-shot channel is a cell that records where its sending half is. A caller looks at its channel before its
  timer, so a call times out only while its channel is pending.
- Correlation numbers and tokens are unbounded; the program's 64-bit counters are taken not to wrap.
- An id's length is counted in characters, each standing for one byte.
- The peer is arbitrary: it may send anything at any time and take or close its end of the outbound channel at any
  time. Where a row restricts it, it is by the echo rule of the protocol's `corr` field (`Isolation.HonestRun`).
- A child handle kills its process when dropped. A process otherwise runs or has exited by itself.
- Time enters as a clock that only advances, by at least each sleep.

Where the behaviour is not what one would expect, the code is followed and the difference is stated by a lemma:

- `wait_mode=ack` is documented as waiting for an InputAck (`.agents/skills/navigating-as-an-agent/SKILL.md:388`);
  the code waits for any payload, so whether it gets one depends on what the session sends first
  (`Injects.AckWaitGetsAckIffAckFirst`, `Injects.AckWaitTakesLog`).
- A session view that does not list `goodbye` lets a peer that honours it leave without saying so: its session stays
  and its waiters are not failed until the stream ends (`SessionView.ViewTransparent`,
  `SessionView.WithheldGoodbyeIsSeen`, `SessionView.WithheldGoodbyeFailsNobody`).
- A session view without `ui_result` or `input_ack` lets a peer that honours it withhold the reply a paint wait
  needs; the host mask alone never does (`SessionView.RepliesSurviveIff`, `ViewIndependence.OutcomesIgnoreView`).
- A full queue gives up ordinary logs and goodbyes for MEM logs (`QueueIsolation.NoiseEvictsOrdinary`).
- Replies are matched by number alone: `Isolation.OnlyMeddlingBreaks` says which steps let a session answer for
  another, `Isolation.GuessedNumberCrossesInstances` shows one.
- Waiters are failed by id alone: `Successors.OnlyExposedSendsEndanger` says which steps let a call be disconnected
  while its session stays; `Successors.LatePassFailsSuccessor` and `Successors.FinishedPassFailsSuccessor` show two.
- An insertion fails no waiters, so a call to a replaced session may have only its timeout left
  (`Successors.OnlyUsurpingAbandons` says which insertions do this, `Successors.ReplacedSessionLeavesCallPending` shows
  one).
- A reply guessed between the two sections of a registration leaves an index entry behind
  (`IndexTable.FinishedCallsLeaveBothTables`, `IndexTable.GuessLeaksIndexEntry`).
- A wait whose instance disconnects loses what it had popped (`ObserveRuns.FateOfPops`,
  `ObserveRuns.GoneWaitLosesMessage`).
- A reply can be handed over and lost (`Outcomes.ReplyUnlessTooLate`, `Outcomes.ReplyLostToTimer`).
- A view call stores its view for whoever holds the id by then (`ViewRuns.HostViewIsLastSentIff`,
  `ViewRuns.ViewLandsOnSuccessor`), and concurrent ones can mix (`ViewCalls.AgreeIff`,
  `ViewRuns.ConcurrentViewsDisagree`).
- A reap inside a start breaks the start's reservation (`SpawnRuns.OnlyInterruptionsBreak`), and a start that gives up
  reaps whichever child is there (`SpawnWaits.GivesUpOnItsOwnUnlessDisplaced`, `SpawnWaits.GivingUpKillsSuccessor`).

## Model

Constructors, plain setters and single-section wrappers are members of the same classes and have no row of their own.

| member | source | states |
|---|---|---|
| `InboundQueues.EvictionIndex` | crates/csm-proxy/src/instances.rs:443-471 | The scan yields nothing exactly when every queued item has rank 0, and otherwise the oldest item of the highest rank |
| `InboundQueues.InboundQueue.Push` | crates/csm-proxy/src/instances.rs:96-112 | The mutating push leaves exactly the contents of the specification function, which obeys the law of the next row |
| `InboundQueues.PushObeysLaw` | crates/csm-proxy/src/instances.rs:96-112 | With room the newcomer is appended; a full queue refuses a heartbeat; otherwise it gives up its oldest heartbeat, else its oldest MEM or SCT log, else its oldest other log, else the oldest of its remaining kinds, and refuses the newcomer if it holds nothing but InputAck, UiResult, Snapshot, SnapshotError and logs of ACT or ERS |
| `InboundQueues.InboundQueue.TryRecv` | crates/csm-proxy/src/instances.rs:114-116 | A pop returns the oldest item and leaves the rest, or nothing on an empty queue |
| `QueueIsolation.NeverDropIsRankZero` | crates/csm-proxy/src/instances.rs:428-460 | The never-drop messages are exactly those of rank 0, and heartbeats exactly those above every log |
| `QueueIsolation.PushIsolated` | crates/csm-proxy/src/instances.rs:96-112 | Seen through the never-drop class, or through everything but heartbeats, any push is a push of the same message or nothing |
| `QueueIsolation.NoiseEvictsOrdinary` | crates/csm-proxy/src/instances.rs:443-471 | At every non-zero capacity an incoming MEM log can cost an ordinary log, or a goodbye, its place: the queue is not a priority queue |
| `QueueIsolation.IsolatedThresholds` | crates/csm-proxy/src/instances.rs:96-112 | Exact answer: a rank threshold cuts off an isolated class if and only if it is 0, at least 3, or the capacity is 0 |
| `QueueIsolation.TraceIsolation` | crates/csm-proxy/src/instances.rs:96-117 | Over every trace of pushes and pops the contents and the drained messages of a class are those of the trace with all other messages erased; at threshold 3 this says that heartbeats never cost another message its place |
| `QueueIsolation.NeverDropPush` | crates/csm-proxy/src/instances.rs:102-109 | A never-drop newcomer is kept unless the queue already holds `cap` never-drop messages, and then the queue does not change |
| `QueueIsolation.NeverDropBurst` | crates/csm-proxy/src/instances.rs:96-112 | Of any burst into an empty queue exactly the first `cap` never-drop messages survive, in order, whatever else was pushed |
| `QueueIsolation.FirstTreasureSurvives` | crates/csm-proxy/src/instances.rs:428-441 | The same for the messages by payload and component: of any burst exactly the first `cap` InputAcks, UiResults, Snapshots, SnapshotErrors and logs of ACT or ERS survive, in order |
| `QueueLedger.QueueConservation` | crates/csm-proxy/src/instances.rs:96-116 | Over every trace each pushed message is drained, queued, evicted or refused exactly once; drained messages followed by queued ones are a subsequence of the pushes; the bound holds |
| `QueueLedger.NeverEvicted` | crates/csm-proxy/src/instances.rs:443-471 | Over every trace no never-drop message is evicted |
| `QueueLedger.PreciousSurvive` | crates/csm-proxy/src/instances.rs:428-471 | Over every trace each such message that was queued is drained or still queued; the only ones missing were refused |
| `QueueLedger.RefusedByPeers` | crates/csm-proxy/src/instances.rs:98-109 | Such a newcomer is refused only by a queue full of such messages |
| `Masks.ReceivedIffSelected` | crates/csm-proxy/src/instances.rs:365-421 | An inbound push queues a message exactly if the mask is empty or lists the name of its payload, and its component is not excluded |
| `Masks.NamesAreDistinct` | crates/csm-proxy/src/instances.rs:365-378 | No two payloads share a name |
| `InstanceMaps.InstanceMap.Insert` | crates/csm-proxy/src/instances.rs:165-195 | Replaces or adds one session with a fresh token and a fresh empty queue, leaves all others alone, touches no waiter |
| `InstanceMaps.InstanceMap.SetHeartbeat` | crates/csm-proxy/src/instances.rs:207-214 | Records the heartbeat for the owner and is a no-op for anyone else |
| `InstanceMaps.InstanceMap.RemoveIf` | crates/csm-proxy/src/instances.rs:217-224 | Only the owner leaves the map, and then every waiter of the id leaves both tables |
| `InstanceMaps.InstanceMap.TrySend` | crates/csm-proxy/src/instances.rs:312-318 | Appends to the outbound channel, or reports an unknown id, or reports a full or closed channel, and changes nothing else |
| `InstanceMaps.InstanceMap.PushInbound` | crates/csm-proxy/src/instances.rs:401-422 | Completes a waiter first and whatever the mask says, then masks, excludes and queues for whoever holds the id |
| `InstanceMaps.InstanceMap.CompleteWaiter` | crates/csm-proxy/src/instances.rs:567-589 | Removes a waiter from both tables exactly when the envelope has a non-zero number with a waiter whose kind accepts it |
| `InstanceMaps.InstanceMap.FailWaiters` | crates/csm-proxy/src/instances.rs:591-603 | The loop over the collected numbers removes exactly the waiters registered for the id, in whatever order it visits them |
| `InstanceMaps.InstanceMap.SendAndRegister` | crates/csm-proxy/src/instances.rs:511-528 | Register, then send: on failure the whole state is what it was; on success the request is enqueued and its waiter is in both tables |
| `SoloCall.CallAloneIsSendAndRegister` | crates/csm-proxy/src/instances.rs:504-528 | The sections of a waiting call, run alone from its first look-up on, add up to that send, of the request with the call's number, its command, and an acknowledgement asked for exactly by an inject |
| `Broker.RegisterUndone` | crates/csm-proxy/src/instances.rs:515-526 | Taking back a fresh registration restores both tables, and a registration does not influence whether the send succeeds |
| `WaiterTable.ConsistentRun` | crates/csm-proxy/src/instances.rs:504-604 | In every reachable state of every interleaving the waiter table holds exactly the channels nobody has taken out, under the kinds they registered with; a channel taken out for a reply is held by exactly the reader that took it |
| `ExactlyOnce.CellsEvolveRun` | crates/csm-proxy/src/instances.rs:555-589 | Along every run a channel leaves the table at most once and, once held by a reader, can only be delivered by that reader |
| `ExactlyOnce.RegistrationIsFresh` | crates/csm-proxy/src/instances.rs:515-516 | A registration never overwrites a waiter, live or past |
| `ExactlyOnce.ResolvedForGood` | crates/csm-proxy/src/instances.rs:519-534 | Once resolved, a waiter never re-enters the table and the way it was resolved never changes, over every continuation of every run |
| `ExactlyOnce.TruthfulRun` | crates/csm-proxy/src/instances.rs:518-534 | In every reachable state: a reported reply is the one handed over, a reported disconnect is a channel a fail pass broke, a channel dropped by its own call belongs to a call that reports the reason, and no finished call is left in the first table |
| `IndexTable.FinishedCallsLeaveBothTables` | crates/csm-proxy/src/instances.rs:537-604 | Over every run in which no session answers for another, a finished call is in neither table |
| `IndexTable.EchoingPeersLeakNothing` | crates/csm-proxy/src/instances.rs:537-604 | With peers that echo, in particular |
| `IndexTable.GuessLeaksIndexEntry` | crates/csm-proxy/src/instances.rs:544-551 | A run in which a guessed reply comes between the two sections of a registration and the finished call stays in the second table |
| `Outcomes.FailureHasItsCause` | crates/csm-proxy/src/instances.rs:511-534 | Over every run a finished call failed with an error if and only if the one step that causes this error happened to it |
| `Outcomes.ExpiresOnlyUndecided` | crates/csm-proxy/src/instances.rs:529-534 | A timer counts only while nothing was handed over and nothing broke |
| `Outcomes.ReplyUnlessTooLate` | crates/csm-proxy/src/instances.rs:519-534 | A finished call whose reply was handed over reports that reply if and only if its timer did not expire first and its send did not fail |
| `Outcomes.ReplyUnlessExpired` | crates/csm-proxy/src/instances.rs:529-534 | With peers that echo, the timer alone decides |
| `Outcomes.ReplyLostToTimer` | crates/csm-proxy/src/instances.rs:529-589 | A run that ends in a reported timeout although the reply was handed over: the timer beat the look-up, the look-up beat the removal |
| `ExactlyOnce.ReplyIsFirstDecisive` | crates/csm-proxy/src/instances.rs:473-490 | A finished wait holds the first envelope looked up since its registration that carries its number and that its kind accepts |
| `ExactlyOnce.ReplySettles` | crates/csm-proxy/src/instances.rs:473-490 | The same by payload: an InputAck for that kind, a UiResult or a rejecting InputAck for a paint, a Snapshot or SnapshotError for a snapshot, anything for the kind that takes anything |
| `NoStranded.NoneStrandedRun` | crates/csm-proxy/src/instances.rs:217-224 | The invariant behind the next row holds in every reachable state of every interleaving |
| `NoStranded.AwaitedIsConnectedOrOwed` | crates/csm-proxy/src/instances.rs:504-604 | By instance id: a call whose result is pending has its id connected, or a fail pass that has yet to break its channel, or a reader about to hand it its reply |
| `NoStranded.DisconnectedIsResolved` | crates/csm-proxy/src/instances.rs:591-604 | Whoever awaits a disconnected instance has a result ready without the timeout, unless a reader has this very call on its list or its reply in hand |
| `NoStranded.DepartureIsRemoveIf` | crates/csm-proxy/src/instances.rs:217-224 | Run alone, the sections of a departure add up to the sequential removal and break exactly the channels registered for the id |
| `Successors.PendingBySession` | crates/csm-proxy/src/instances.rs:165-224 | By session: a pending call's session still owns its id, or a pass has the call on its list, or its reply is on the way, or that session was replaced |
| `Successors.OnlyUsurpingAbandons` | crates/csm-proxy/src/instances.rs:165-195 | A step takes the last protection of a call in the table (its session the owner, or a pass that has it on its list) if and only if it is an insertion over a session that such a call relies on |
| `Successors.PendingIsGuarded` | crates/csm-proxy/src/instances.rs:165-224 | Over every run without such insertions a pending call's own session owns its id, or a pass has the call on its list, or its reply is on the way |
| `Successors.ReplacedSessionLeavesCallPending` | crates/csm-proxy/src/instances.rs:165-195 | The last case happens: an insertion fails no waiters, and only the timeout is left to the call |
| `Successors.OnlyExposedSendsEndanger` | crates/csm-proxy/src/instances.rs:591-603 | A step lets a call be disconnected while its session stays if and only if it sends a request whose waiter a departed session's pass has broken or has on its list |
| `Successors.DisconnectedMeansLost` | crates/csm-proxy/src/instances.rs:217-224 | Over every run without such a send: a call whose channel a pass broke was sent to a session that has lost its id |
| `Successors.ToldDisconnectedMeansLost` | crates/csm-proxy/src/instances.rs:529-533 | The same for what the caller is told |
| `Successors.ExposedSendCanBreak` | crates/csm-proxy/src/instances.rs:591-603 | After every such send of an unanswered call there is a continuation that breaks it with its session still the owner |
| `Successors.LatePassFailsSuccessor` | crates/csm-proxy/src/instances.rs:591-603 | A run in which a pass overlaps the next session and disconnects a call sent to it |
| `Successors.FinishedPassFailsSuccessor` | crates/csm-proxy/src/instances.rs:515-516 | A run in which the pass has finished before the next session connects, and the call sent to it is disconnected all the same |
| `Ownership.RegistryRun` | crates/csm-proxy/src/instances.rs:165-224 | Tokens, registrations and departures agree in every reachable state |
| `Ownership.ConnectedIffLatestRemains` | crates/csm-proxy/src/instances.rs:165-224 | An id is connected if and only if its most recently inserted session has not removed itself, and that session owns it |
| `Ownership.OwnershipNeverRegained` | crates/csm-proxy/src/instances.rs:198-224 | A session that lost its id never owns it again, over every continuation of every run |
| `Ownership.LostReaderOnlyQueues` | crates/csm-proxy/src/session.rs:87-113 | A session that lost its id can change nothing in the map but one queue: no registration, no heartbeat, no mask |
| `SessionRecords.HeartbeatFaithful` | crates/csm-proxy/src/session.rs:97-100 | In every reachable state the recorded heartbeat is the last one the owner consumed, whatever was masked, refused or evicted |
| `SessionRecords.AtMostOneStaleEnvelope` | crates/csm-proxy/src/session.rs:87-108 | Over every run a replaced session puts at most one envelope into its successor's queue |
| `Addressing.RequestsReachTheirId` | crates/csm-proxy/src/instances.rs:312-318 | Over every run, whatever the peers do: a request is handed to one session at most, and that session has the id the request is for |
| `Wire.SentIsOnTheWire` | crates/csm-proxy/src/mcp.rs:211-221 | Over every run: a session was sent a number if and only if an envelope with it was put on the session's channel, once; this envelope carries the command of the call with the number, and asks for an acknowledgement exactly if that call is an inject that waits |
| `Wire.ChannelIsFifo` | crates/csm-proxy/src/instances.rs:312-318 | Over every run: a peer takes what was put on its channel, in that order, and the rest is still there while the session is connected |
| `Wire.HonestIsEchoing` | protos/crosspoint/sim/control/v1alpha1/session.proto:21-22 | The echo rule in terms of envelopes: a peer sends zero, or the number of an envelope that was put on its channel |
| `Wire.BeginsWithNextNumber` | crates/csm-proxy/src/instances.rs:251-253 | A call draws the next number and leaves the one after it as the next; a call that waits looks its instance up first |
| `Wire.SendsIffRoom` | crates/csm-proxy/src/instances.rs:312-318 | A send succeeds exactly on an open channel with room of a connected session; it names an unknown id and reports everything else as a full queue |
| `Wire.ClosedRefuses` | crates/csm-proxy/src/instances.rs:312-318 | Once its peer is gone a session is sent nothing more |
| `Wire.EntersEmpty` | crates/csm-proxy/src/instances.rs:165-195 | A session enters with an open, empty channel, an empty queue, the bounds it came with, no heartbeat, no mask and no excludes |
| `Wire.ConnectsIffShort` | crates/csm-proxy/src/session.rs:63-72 | A registration is accepted exactly with an id of 1 to 64 characters, and gets the next token |
| `Isolation.OnlyMeddlingBreaks` | crates/csm-proxy/src/instances.rs:567-589 | A step lets a session answer for another if and only if it is a look-up that completes a waiter whose number that session was not sent |
| `Isolation.ReplyComesFromAddressee` | protos/crosspoint/sim/control/v1alpha1/session.proto:21-22 | If every peer echoes only numbers it was sent or zero, a channel is only ever taken by the one session that was sent the request, and that session has the id the call is for |
| `Isolation.CallerHearsAddressee` | crates/csm-proxy/src/mcp.rs:253-265 | Under the same assumption, the reply a caller receives was sent by the session its request went to |
| `Isolation.GuessedNumberCrossesInstances` | crates/csm-proxy/src/instances.rs:567-589 | Without the assumption it is false: a run in which a call for one instance returns an envelope of another that was sent nothing |
| `ViewIndependence.RunsAlike` | crates/csm-proxy/src/instances.rs:401-422 | Runs that differ only in views, inbound capacities and drains stay alike in everything else, in lock step |
| `ViewIndependence.OutcomesIgnoreView` | crates/csm-proxy/src/instances.rs:401-422 | Such runs have equal waiter tables and channels, and every call is at the same point with the same outcome |
| `SessionReaders.Handle` | crates/csm-proxy/src/session.rs:96-109 | One turn of the read loop: heartbeat recorded before the push, goodbye pushed before the removal |
| `SessionReaders.Read` | crates/csm-proxy/src/session.rs:86-114 | The loop stops at the first envelope it does not own, at a stream error, at a goodbye or at the end, and always finishes with a removal |
| `SessionReaders.Serve` | crates/csm-proxy/src/session.rs:36-114 | The handshake rejects an empty stream, a stream that fails first, one that does not open with a Register, and one whose id does not have 1 to 64 characters, each with its own error and nothing else; a rejected stream changes nothing, an accepted one is inserted and read to its end |
| `SessionReaders.ServedSessionLeaves` | crates/csm-proxy/src/session.rs:86-114 | However its stream ends, an owner's id is out of the map afterwards, all other sessions are as they were, and no waiter is left on that id |
| `SoloReader.TurnIsHandled` | crates/csm-proxy/src/session.rs:87-109 | A turn of the read loop split into its critical sections and run alone is the sequential turn: the two layers of the model agree |
| `SoloReader.TaskIsReadStream` | crates/csm-proxy/src/session.rs:86-114 | So is the whole loop: a task that nothing interrupts, fed any stream to its end, error, goodbye or loss of its id, takes the transition system to exactly the state of the sequential loop |
| `SessionView.WireKeepsHostView` | crates/csm-proxy/src/mcp.rs:909-917 | The wire mask hides no heartbeat and nothing the host mask shows, and adds heartbeats only |
| `SessionView.ViewTransparent` | crates/csm-proxy/src/mcp.rs:760-785 | For every stretch of envelopes and pops under one view: whether the peer applies the wire view or emits everything makes no difference to sessions, queues and last heartbeats if and only if the view is empty or lists goodbyes, or there is no goodbye; and then it makes none to the messages popped |
| `SessionView.WithheldGoodbyeIsSeen` | crates/csm-proxy/src/session.rs:102-107 | Under every other view a goodbye makes the difference: emitted, the session is gone and nothing more is popped; withheld, it stays connected and its queue is drained on |
| `SessionView.TrafficIsStream` | crates/csm-proxy/src/session.rs:86-114 | Such a stretch without pops is what the read loop makes of the stream, up to the removal that ends every session |
| `SessionView.RepliesSurviveIff` | crates/csm-proxy/src/mcp.rs:760-785 | Exactly when an honouring peer cannot withhold a reply: a checkable condition on the mask, the excludes and the kind of wait |
| `SessionView.WaitersTransparent` | crates/csm-proxy/src/mcp.rs:760-785 | With views that meet that condition for every registered kind, the whole shared state is the same if and only if no goodbye is withheld |
| `SessionView.WithheldGoodbyeFailsNobody` | crates/csm-proxy/src/session.rs:102-107 | A withheld goodbye leaves unfailed exactly the waiters it would have failed |
| `SessionView.SetView` | crates/csm-proxy/src/mcp.rs:760-785 | Refuses an unknown id without drawing a number; otherwise enqueues the wire view and only then sets mask and excludes |
| `SessionView.ViewSetAllOrNothing` | crates/csm-proxy/src/mcp.rs:766-784 | Run alone: a rejected view changes no session; an accepted one is both on the wire and in force on the host |
| `ViewRuns.HostViewIsLastSentIff` | crates/csm-proxy/src/mcp.rs:760-785 | Section by section and over every history of view calls for an id, other calls, traffic, drains, departures and replacements: between calls the host view of the connected session is the one it was last sent, except exactly when the last call told another session and stored a non-empty part for this one |
| `ViewRuns.HostViewIsLastSent` | crates/csm-proxy/src/mcp.rs:760-785 | So it always is, as long as no session enters under the id between a view call's request and its last section |
| `ViewRuns.ToldIsEnqueued` | crates/csm-proxy/src/mcp.rs:766-780 | The record of what a session was sent is the wire form of the view, appended to its outbound channel |
| `ViewRuns.CallAloneIsViewSet` | crates/csm-proxy/src/mcp.rs:760-785 | The sections of a view call run alone add up to the sequential call |
| `ViewRuns.ViewLandsOnSuccessor` | crates/csm-proxy/src/mcp.rs:781-783 | A history with one view call and one re-registration: the call reports success, and its mask is set for a session that was told nothing |
| `ViewRuns.ConcurrentViewsDisagree` | crates/csm-proxy/src/mcp.rs:766-784 | Why the view calls are serialized: two of them can leave the wire with one view and the host with the other |
| `ViewCalls.AgreeIff` | crates/csm-proxy/src/mcp.rs:760-785 | With any number of concurrent view calls, over every history: host and wire agree on the holder of the id if and only if the last call to set its mask had the paths, and the last to set its excludes had the excludes, of the last call sent to it; so they agree when these are one call |
| `ViewCalls.TellingEnqueues` | crates/csm-proxy/src/mcp.rs:766-780 | The last call sent to a session is the one whose wire view was appended to its channel last |
| `Injects.PaintSucceedsIffPaintFirst` | crates/csm-proxy/src/mcp.rs:291-325 | A paint wait that got a reply succeeded if and only if a UiResult preceded every rejecting InputAck; the other two arms are unreachable |
| `Injects.SnapshotReplyIsSnapshot` | crates/csm-proxy/src/mcp.rs:711-752 | For a snapshot wait the "unexpected session reply" arm is unreachable, a frame is reported exactly for a Snapshot, and an error exactly for a SnapshotError, in its own words or as "snapshot failed" |
| `Injects.InjectMeans` | crates/csm-proxy/src/mcp.rs:291-325 | An inject succeeds on a UiResult and on an accepted InputAck; on a rejecting one its error is the session's reason, or "inject rejected" without one |
| `Injects.PlanMeans` | crates/csm-proxy/src/mcp.rs:597-647 | A step's own wait, mode and space go before the batch's, and these before "paint" and "logical"; an unknown kind is refused first, then an unknown space of a touch or swipe, then an unknown mode of a step that waits |
| `Injects.AckWaitGetsAckIffAckFirst` | crates/csm-proxy/src/mcp.rs:942-948 | A finished wait of mode "ack" holds an InputAck if and only if the first envelope with its number, looked up since its registration, is one |
| `Injects.AckWaitTakesLog` | crates/csm-proxy/src/mcp.rs:322-325 | A run in which such a wait ends in a log line and is reported as an unexpected reply |
| `Injects.InjectBatch` | crates/csm-proxy/src/mcp.rs:587-669 | Given what each step comes to: results cover exactly the steps up to and including the first failure, in order |
| `BatchRuns.SoundHistory` | crates/csm-proxy/src/mcp.rs:587-669 | The batch keeps its bookkeeping under every interleaving with the rest of the broker |
| `BatchRuns.StepsFollowAcceptance` | crates/csm-proxy/src/mcp.rs:596-660 | However interleaved: numbers increase along the batch, and a step has drawn its number only after every earlier step was accepted |
| `BatchRuns.AcceptedStepsAreJustified` | crates/csm-proxy/src/mcp.rs:275-326 | However interleaved: each number drawn names a call for the batch's instance that asks what its step plans; an accepted step that does not wait was queued, one that waits got a reply to its own number, and one that waits for a paint got a UiResult |
| `BatchRuns.ResultsMean` | crates/csm-proxy/src/mcp.rs:275-326 | Over every history, for every result: a step that waits is accepted exactly when its wait returned the first envelope that settles it and this is a UiResult or an accepted InputAck, a step that does not exactly when it was queued; every error is in the words of the session, the wait or the plan |
| `BatchRuns.EarlierWaiterIsGone` | crates/csm-proxy/src/mcp.rs:596-660 | At most one waiter of a batch is live |
| `BatchRuns.StoppedForGood` | crates/csm-proxy/src/mcp.rs:648-659 | After the first failure nothing more is drawn or reported, whatever else happens |
| `Observe.DrainShown` | crates/csm-proxy/src/mcp.rs:470-475 | The loop empties the queue and keeps, in order and once each, exactly the visible messages |
| `Observe.DrainObserve` | crates/csm-proxy/src/mcp.rs:466-477 | Undisturbed: an unknown id changes nothing; a connected one reports exactly what was queued and visible under its mask, and only its queue changes |
| `Observe.ObserveUntil` | crates/csm-proxy/src/mcp.rs:394-423 | The loop on given turns: it ends at the first turn that can end it, reports exactly what the drains up to there showed, sleeps fewer than `timeout / 25 + 1` times, and gives a verdict only for a condition: matched, or timed out after the deadline |
| `Observe.ObserveWait` | crates/csm-proxy/src/mcp.rs:370-424 | The whole call in the terms of what it was asked: it ends at the first turn at which a condition is met or the time is up, and is told matched exactly if the generation is strictly above the floor (for 0: the one shown at first), or the activity is shown or entered in a log line, or the page is shown or saved in one, or a line has the text; empty texts set no condition |
| `Observe.MatchedIffMet` | crates/csm-proxy/src/mcp.rs:958-1004 | The test of the loop is that a condition that is set is met, or none is set |
| `Observe.ObserveNormalised` | crates/csm-proxy/src/mcp.rs:376-410 | The loop on normalised conditions |
| `ObserveRuns.PopsAreConserved` | crates/csm-proxy/src/instances.rs:96-116 | Section by section, with any number of observers and over every history: what all observers together popped from a session's queue is what left it, in order; each pushed message was popped, is queued (for a session that has left: is lost with its queue), was evicted or was refused, exactly once, so none is popped twice |
| `ObserveRuns.SessionsAreTraced` | crates/csm-proxy/src/instances.rs:96-116 | The previous row covers every session in the map and every session anything was popped from |
| `ObserveRuns.ReportIsOwnPops` | crates/csm-proxy/src/mcp.rs:466-477 | A successful report carries, in order, exactly the observer's own pops that were visible under the mask of their drain, whatever arrives, changes the mask or replaces the session in between |
| `ObserveRuns.FateOfPops` | crates/csm-proxy/src/mcp.rs:394-423 | Every popped message belongs to one drain of one observer; hidden by the mask of that drain it is dropped, and the visible ones are, all and in order, reported, in the hands of an observer at work, or lost to a wait whose instance was gone |
| `ObserveRuns.GoneWaitLosesMessage` | crates/csm-proxy/src/mcp.rs:421-422 | The last fate happens: a wait whose instance disconnects while it sleeps returns an error, and what it had popped is reported to nobody |
| `ObserveRuns.ReportIsRight` | crates/csm-proxy/src/mcp.rs:396-423 | An interleaved observer reports what the loop above must report on the turns it took; its verdict holds of those events and of the heartbeat it read |
| `ObserveRuns.ReportAnswers` | crates/csm-proxy/src/mcp.rs:370-424 | The same in the terms of what the observer was asked, the events it drained, the heartbeat it read last and the one it read first |
| `ObserveRuns.SleepsTwentyFive` | crates/csm-proxy/src/mcp.rs:421 | An observer that does not report sleeps 25 milliseconds |
| `ObserveRuns.ReadsWereThere` | crates/csm-proxy/src/mcp.rs:426-473 | Every mask and heartbeat an observer has used was the instance's at some point of the history |
| `ObserveRuns.TimeoutMissedNothing` | crates/csm-proxy/src/mcp.rs:958-1004 | A wait that timed out missed nothing: no initial part of its events matches either |
| `ObserveRuns.StateIsReachable` | crates/csm-proxy/src/mcp.rs:370-424 | The broker under observers is the broker of the other theorems |
| `Observe.SavedLineMatches` | crates/csm-proxy/src/mcp.rs:992-1001 | A "Progress saved:" line satisfies the page condition for every 32-bit page, whatever precedes the first "page=" and follows the number |
| `TagParse.Find` | crates/csm-proxy/src/mcp.rs:1015 | The position found is the first occurrence, and none is found only if there is none |
| `TagParse.DecimalParses` | crates/csm-proxy/src/mcp.rs:1020 | Printing then parsing is the identity on the 32-bit range, minimum included, and yields nothing outside it |
| `TagParse.TaggedRoundTrip` | crates/csm-proxy/src/mcp.rs:1014-1021 | A number written after a tag that the preceding text does not contain is read back, whatever follows, if no digit or minus follows directly; outside the 32-bit range nothing is read |
| `TagParse.TaggedRunIsParsed` | crates/csm-proxy/src/mcp.rs:1014-1021 | Any run of digits and minus signs after the tag is read as a whole |
| `TagParse.NoTagReadsNone` | crates/csm-proxy/src/mcp.rs:1015 | Nothing is read from a text without the tag |
| `TagParse.NoNumberReadsNone` | crates/csm-proxy/src/mcp.rs:1016-1020 | Nothing is read when no digit or minus follows the tag |
| `TagParse.NumbersOnly` | crates/csm-proxy/src/mcp.rs:1020 | A minus elsewhere than in front, or alone, makes no number; leading zeros change none |
| `Spawn.SpawnSupervisor.IsAlive` | crates/csm-proxy/src/spawn.rs:221-224 | True exactly for a child that runs and can be waited on; any other child is forgotten and dropped |
| `Spawn.SpawnSupervisor.Start` | crates/csm-proxy/src/spawn.rs:227-335 | Each error has its exact condition, in the order of the checks; success leaves a running child under the id and the others alone; failure leaves the children as the liveness check left them; every path releases its reservation |
| `Spawn.SpawnSupervisor.Reap` | crates/csm-proxy/src/spawn.rs:338-350 | The child and the reservation of the id are gone and the process no longer runs |
| `Spawn.SpawnSupervisor.ReapAll` | crates/csm-proxy/src/spawn.rs:353-361 | Uninterrupted: every child known at the call is gone and no longer runs; no other process is touched |
| `Spawn.StartInstance` | crates/csm-proxy/src/mcp.rs:801-854 | With nobody else at the supervisor: without a registration no child stays under the id and the process started does not run; the loop sleeps fewer than `wait / 100 + 1` times |
| `SpawnRuns.ConservedRun` | crates/csm-proxy/src/spawn.rs:227-383 | With any concurrency, every handle has exactly one holder, in every reachable state |
| `SpawnRuns.NoProcessIsLost` | crates/csm-proxy/src/spawn.rs:227-383 | A process that runs is in the table, or with a start, or with a reap |
| `SpawnRuns.NoProcessIsShared` | crates/csm-proxy/src/spawn.rs:227-383 | No process is in two places |
| `SpawnRuns.StartsExclude` | crates/csm-proxy/src/spawn.rs:250-334 | Without a reap inside a start of the same id: one start per id is in flight and storing a child overwrites none |
| `SpawnRuns.ReservationReleased` | crates/csm-proxy/src/spawn.rs:227-369 | In such runs no reservation outlives the starts of its id |
| `SpawnRuns.OnlyInterruptionsBreak` | crates/csm-proxy/src/spawn.rs:338-343 | A step breaks the exclusion if and only if it is a reap taking effect inside a start of the same id |
| `SpawnRuns.InterruptedStartKillsSuccessor` | crates/csm-proxy/src/spawn.rs:227-350 | A run with such a reap after which the first start overwrites the live child of a second one |
| `SpawnRuns.OwnChildIffUndisplaced` | crates/csm-proxy/src/spawn.rs:338-383 | With any concurrency: a child is still under its id, so that a reap by id takes this very child, if and only if no reap, no look that found it dead and no start of that id has displaced it; once displaced it never comes back |
| `SpawnWaits.UnregisteredIsDisplaced` | crates/csm-proxy/src/mcp.rs:823-853 | With any concurrency: a start that ends without a registration leaves its own process under no id, for good, and the process is in a reap's hands or does not run |
| `SpawnWaits.GivesUpOnItsOwnUnlessDisplaced` | crates/csm-proxy/src/mcp.rs:837-851 | With any concurrency: what a start that gives up takes and kills is another start's child if and only if its own was displaced before |
| `SpawnWaits.GivingUpKillsSuccessor` | crates/csm-proxy/src/mcp.rs:837-851 | A history in which it kills another's: its child was reaped and replaced, and it takes the replacement for its own until it gives up |
| `SpawnWaits.SweptIsDisplaced` | crates/csm-proxy/src/spawn.rs:353-361 | With any concurrency, the lock released between reaps: when a sweep has ended, every child it found has left the table for good |

## Left out

- Streaming, RPC and tool-server plumbing, JSON rendering and base64: a stream is a sequence, a reply a datatype.
- `resolve` and the default instance: a call may name any id, connected or not, and the id is looked up again where the program does so.
- `list`, `snapshots`, `capabilities` and resource reading: they only read and render.
- File seeding, directory creation and argument building: their outcome is a parameter of `Spawn.SpawnSupervisor.Start`.
- The two-second grace period of a reap, and what a process does besides running, exiting and being killed.
- Concurrent starts do not model the checks before the first section (valid id, configured binary, already connected); `Spawn.SpawnSupervisor.Start` does.
- Payload fields that no branch of the broker reads: pixels, coordinates, key names, register details.
- Field-mask path syntax: a mask is a list of flat payload names, which is all the code compares.
- Wrap-around of the 64-bit token and correlation counters.
- `InboundSink::push`, the sink's own push that the read loop does not use.
- Observe.ObserveUntil: what each turn meets is given; `ObserveRuns` ties it to queues, masks and heartbeats under interleaving.
- Observe.ObserveWait: the heartbeat fields that the response echoes are not part of the result.
- Injects.InjectBatch: what a step comes to is a parameter; `BatchRuns` ties it to the broker.
- ViewRuns.HostViewIsLastSentIff: the view calls for one id follow one another; `ViewCalls.AgreeIff` has them at once.
- SessionView.ViewTransparent: one view throughout; when a peer applies a new view is left open.
- SessionView.ViewSetAllOrNothing: one uninterrupted call; `ViewRuns` and `ViewCalls` have the interleaved ones.
- Spawn.SpawnSupervisor.ReapAll: one uninterrupted sweep; `SpawnWaits.SweptIsDisplaced` has the interleaved one.
- Spawn.StartInstance: nobody else at the supervisor; `SpawnWaits` has the interleaved wait.
- Observe.DrainObserve: one undisturbed drain; `ObserveRuns` has the interleaved one.
- InstanceMaps.InstanceMap.SendAndRegister: ends where the wait begins; the wait itself is part of `Protocol`.
