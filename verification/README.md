# The event, steering and telemetry core of `buzz-acp`, verified

`buzz-acp` runs coding agents for a chat relay. Events from the relay are filtered,
queued per channel and handed to agent processes; a running agent can be steered with a
new event while it works; and what the agents do is published back to the owner as a
paced stream of size-limited frames. This project models the parts of it that have
long-lived state, arithmetic or a protocol, and proves what they keep over every run.
`perf/relay_bus_scaling.py`, a small Redis client, is modelled as a second, separate core.

Code that updates fields is modelled as classes whose methods are proved against a
specification on values; the theorems are about that specification. Code that computes is
modelled as functions. Protocols are step systems: a run is any sequence of steps, and
clock readings, I/O results and the choices of the scheduler are inputs to the steps.

| file | what it models |
|---|---|
| `SteerTurn.dfy`, `TurnEnds.dfy`, `AcpClient.dfy` | the read loop of a prompt turn: lines, native steers, idle and hard deadline, how a turn ends; the client around it |
| `SteerQueue.dfy`, `SteerSystem.dfy`, `SteerLosses.dfy` | withheld events, the main loop that turns steer outcomes into queue actions, and what the queue drops and dispatches |
| `SteerClock.dfy`, `SteerTwice.dfy`, `SteerExpiry.dfy` | the same on one clock, with the in-flight deadline: when an expiry can come and what it can do |
| `Utf8.dfy`, `Json.dfy`, `JsonText.dfy`, `Elision.dfy`, `FrameTrim.dfy` | trimming an observer frame to the plaintext cap (serialised lengths by section 7 of RFC 8259, characters by section 4 of RFC 3629) |
| `ObserverBus.dfy`, `StreamMerge.dfy`, `Coalescer.dfy`, `StreamOrder.dfy`, `ChunkOrder.dfy`, `Pacer.dfy` | replay buffer and live feed, the chunk coalescer and the order of what it emits, the rolling-window pacer |
| `Circuit.dfy`, `CircuitAnswers.dfy`, `Slots.dfy`, `SlotCircuits.dfy`, `SlotStarts.dfy`, `Wake.dfy` | the circuit breaker of a slot and what it answers, the life of the slots, the two together, the deferred start of the pool |
| `Usage.dfy`, `UsageReports.dfy` | cumulative counters to per-turn deltas |
| `Membership.dfy`, `Filters.dfy`, `CodexConfig.dfy` | membership notifications, subscription rules and merged filters, nested configuration |
| `Resp.dfy` | the encoder and reader of the Redis serialization protocol |
| `Prelude.dfy`, `Powers.dfy` | options, results and other small helpers |

## Where the code and its comments differ

- `crates/buzz-acp/src/lib.rs:644-650` and `671-673` say a trimmed leaf is never trimmed again and that passes are bounded by the leaf count. A leaf can be elided twice (`Elision.ReElidedIff` gives the exact condition, `Elision.ReElisionExample` an input); its marker then misstates the loss. Eleven leaves can take twenty-two passes (`FrameTrim.MorePassesThanLeaves`). One pass per leaf is exceeded for some envelope exactly when the leaves admit more passes than there are leaves (`FrameTrim.OnePerLeafFailsIff`). The bound is two passes per leaf, and the loop ends because the serialised length falls.
- `crates/buzz-acp/src/lib.rs:681-682` calls the last-resort stub trivially under the cap. The envelope stays around the stub, and the session id in it is the one the agent chose (`crates/buzz-acp/src/acp.rs:563-587`, `crates/buzz-acp/src/pool.rs:1563-1568`), so an agent that picks a huge one gets no frame under the cap (`FrameTrim.OversizedSessionId`). The stub repeats the event's kind as well (`FrameTrim.OversizedKind`); every caller passes a short one. `FrameTrim.FitsIff` says exactly when the result fits.
- `crates/buzz-acp/src/acp.rs:1214-1219` says the pending steer is drained on every return path. The two `?` exits (1491, 1505) drop its sender instead (`SteerTurn.PermissionExitDropsSender`): over any run exactly these exits do that to a pending steer, every other exit drains it (`SteerTurn.DroppedIffEarlyExit`, `SteerTurn.NeutralIffOtherExit`). The main loop treats both alike (`crates/buzz-acp/src/lib.rs:2497`), so every request is still resolved exactly once.
- `crates/buzz-acp/src/queue.rs:732-751` keeps a steered event from being dispatched as well, and `167-169` says that a turn returns before the in-flight backstop fires. The backstop's deadline counts from the dispatch, the turn's from its prompt. An event can reach the agent both ways exactly when the delay from dispatch to prompt, the delay of the last success reply past the hard deadline and the delay in handling it add up to the buffer of a hundred seconds (`SteerTwice.TwiceIff`); a prompt sent a hundred seconds after its dispatch is enough (`SteerTwice.SlowStartDeliversTwice`). Below that no expiry meets a steer that can still succeed (`SteerClock.ExpiryMeetsNoLiveSteer`). For a single expiry, it can deliver an event twice exactly when its deadline has passed and it finds the event withheld, not beyond the depth cap, with its steer succeeded or still able to (`SteerExpiry.ExpiryDoublesIff`).
- The backoff cap of 30 s (`crates/buzz-acp/src/lib.rs:1016`) is never reached: with at most two crashes in the window the delay stays below 2.4 s (`Circuit.BackoffBounds`).
- A crash is counted by a slot whose agent ran, and a slot whose circuit is open has none (`SlotStarts.OpenMeansVacant`). So the branches of `record_crash` for an open circuit (`crates/buzz-acp/src/lib.rs:1056-1073`) are never taken in the harness, and a probe is only ever answered to a refill.
- `ChannelScope::matches` compares channel ids as text, `rule_applies_to_channel` parses them; and the kinds of a rule have 32 bits, those of an event 16 (`crates/buzz-acp/src/filter.rs:383`). Leaving the expressions aside, which may reject everything, a channel is subscribed in vain, none of its events being taken for any outcome of the expressions, exactly when some rule applies to it and each that does lists it in a non-canonical spelling only or asks for nothing but kinds beyond 16 bits (`Filters.SubscribedInVainIff`, `Filters.InVainExamples`).
- Membership converges whatever the order unless two of a channel's newest notifications, those with its greatest timestamp, disagree; then, and only then, the order decides (`Membership.OrderDecidesIff`). Older ones may disagree.
- The timeout counter of a rule counts timeouts since the last evaluation that came to a result; an evaluation error in between does not reset it (`Filters.CounterCountsTimeouts`).
- Published sequence numbers need not rise although the events are numbered in order: they fall exactly when something is emitted while two streams, both begun since the last emission, cross: the first to begin had its latest event after the other's (`ObserverBus.PublishedNumbersRiseIff`, `Coalescer.InterleavingFalls`).

## Assumptions

- A clock never runs backwards. One `emit`, one write of a line and one iteration's handling of a message are each one step.
- The broadcast channel has 1,024 slots: the capacity of 1,000 the source asks for, rounded up to a power of two. A receiver that is further behind is told how many messages it missed and continues with the oldest one kept.
- A prompt task ends by sending its result or by a panic, not by both. `Slots.BothBreaksTheSlot` shows that the slots depend on it.
- An event id stands for one notification (`Membership.Honest`), and texts are strings no longer than a 64-bit machine can address (`Elision.RustText`).
- A channel id text is the canonical spelling of one id, another spelling that parses as one, or no id at all.
- The override of the kinds is not an empty list: the command line parses it into one or more numbers (`crates/buzz-acp/src/config.rs:332-333`). With an empty one, and only then, the built-in rule of the modes without own rules would not take exactly what the relay is asked for (`Filters.BuiltRuleTakesIff`).
- The idle timeout is positive and below the turn's budget (`SteerClock.Configured`), as `crates/buzz-acp/src/config.rs:846-899` ensures.
- The JSON parser used for configuration and the outcome of evaluating a filter expression are parameters about which nothing is assumed.

## Model

| member | source | states |
|---|---|---|
| SteerTurn.ResolvedExactlyOnce | crates/buzz-acp/src/acp.rs:1198-1514 | in every run each accepted steer request is held or resolved, counted once each; after any exit all are resolved |
| SteerTurn.AtMostOneOutstanding | crates/buzz-acp/src/acp.rs:1214-1339 | at most one steer write is outstanding, its id is fresh and differs from the prompt's |
| SteerTurn.SuccessIffReplyRead | crates/buzz-acp/src/acp.rs:1425-1457 | a steer is reported successful iff a success reply with that steer's own id was read while it was pending |
| SteerTurn.AgentErrorIffReplyRead | crates/buzz-acp/src/acp.rs:1425-1442 | an agent error code is reported iff it was read in a reply to that very steer |
| SteerTurn.NotWrittenIffFailed | crates/buzz-acp/src/acp.rs:1275-1339 | a steer is reported as not written iff the steer arm took it without a run id or the write failed |
| SteerTurn.AckedIffReported | crates/buzz-acp/src/acp.rs:1275-1457 | every ack other than a drain stems from exactly such a step |
| SteerTurn.VerdictMeans | crates/buzz-acp/src/acp.rs:1275-1457 | which steps report success, an agent error or a failed write |
| SteerTurn.ResolvedIffAdded | crates/buzz-acp/src/acp.rs:1198-1514 | a resolution is in the history of a run iff some step of it adds it |
| SteerTurn.EndAdds | crates/buzz-acp/src/acp.rs:1214-1263 | a step that ends the turn drops the sender of the pending steer iff it is an early exit and drains it otherwise; a request still in the channel is dropped |
| SteerTurn.DroppedIffEarlyExit | crates/buzz-acp/src/acp.rs:1476-1510 | over every run a sender is dropped iff the turn ended by an early exit with that steer pending, or by any exit with the request still in the channel |
| SteerTurn.NeutralIffOtherExit | crates/buzz-acp/src/acp.rs:1214-1263 | over every run a steer is drained iff the turn ended in any other way with it pending |
| SteerTurn.PermissionExitDropsSender | crates/buzz-acp/src/acp.rs:1476-1491 | a concrete turn whose pending steer is not drained |
| SteerTurn.DeadlinesOverTurn | crates/buzz-acp/src/acp.rs:1223-1474 | the hard deadline is the later of its start and the last successful steer plus the budget, never moves back, and equals the client's copy; idle timeouts come only after the idle time without a valid line |
| SteerTurn.RenewalPerSuccess | crates/buzz-acp/src/acp.rs:1443-1454 | the budget is renewed once per reported success and by nothing else |
| SteerTurn.NoStarvation | crates/buzz-acp/src/acp.rs:1228-1263 | every iteration that does not time the turn out, the last one included, gets past its top only while the clock has not reached the nearer deadline, however busy the reader is |
| TurnEnds.EndsAsCaused | crates/buzz-acp/src/acp.rs:1228-1511 | over every run, for each of the six outcomes: a turn ends with it iff some step causes it: the prompt's reply read in time without an error or with one, an agent that exits, a broken connection or answer, either deadline run out |
| TurnEnds.RunIdIsLatest | crates/buzz-acp/src/acp.rs:1476-1485 | the run id a steer is written for is the one of the latest update that named or cleared one |
| TurnEnds.IdPerAttempt | crates/buzz-acp/src/acp.rs:1275-1339 | every attempt to write a steer, and nothing else, uses up one request id |
| TurnEnds.IdleSinceLastHeard | crates/buzz-acp/src/acp.rs:1389-1485 | the idle deadline is the idle time after the last valid line or started tool call; blank and garbled lines do not move it |
| AcpClient.Client.Exit | crates/buzz-acp/src/acp.rs:1245-1263 | leaving the loop resolves the pending steer and drops the receiver |
| AcpClient.Client.OnSteer | crates/buzz-acp/src/acp.rs:1275-1340 | the steer arm does what the specification's write step does |
| AcpClient.Client.OnSteerReply | crates/buzz-acp/src/acp.rs:1425-1457 | the routed reply resolves the steer and renews the deadline on success |
| AcpClient.Client.OnDispatch | crates/buzz-acp/src/acp.rs:1476-1510 | notifications and agent requests, including the two early exits |
| AcpClient.Client.OnMessage | crates/buzz-acp/src/acp.rs:1389-1511 | a valid line restarts the idle clock first and is then told apart by id |
| AcpClient.Client.Iterate | crates/buzz-acp/src/acp.rs:1228-1513 | one iteration of the loop is one step of the specification |
| AcpClient.Client.ReadUntilResponse | crates/buzz-acp/src/acp.rs:1198-1514 | the whole loop, for every script of steps, is the specification's run |
| AcpClient.Client.SessionPrompt | crates/buzz-acp/src/acp.rs:676-735 | after a timeout the prompt id and the renewed hard deadline stay for the cleanup; after any other outcome both are cleared |
| AcpClient.Client.CancelWithCleanup | crates/buzz-acp/src/acp.rs:837-945 | cleanup drains against the inherited deadline, at least thirty seconds, and clears the client's fields |
| AcpClient.CleanupNeverRenews | crates/buzz-acp/src/acp.rs:897-945 | without a steer receiver nothing moves the cleanup deadline, and its hard timeout comes only after it |
| AcpClient.CleanupDeadline | crates/buzz-acp/src/acp.rs:848-862 | the cleanup has thirty seconds at least, and ends then or at the deadline the turn left behind |
| SteerQueue.MarkPendingContents | crates/buzz-acp/src/queue.rs:673-691 | withholding moves exactly that event and loses none |
| SteerQueue.ReleaseContents | crates/buzz-acp/src/queue.rs:703-730 | releasing takes the event out of the side table once and adds nothing |
| SteerQueue.RemoveEventContents | crates/buzz-acp/src/queue.rs:738-751 | removal clears that event, and only it, from both stores |
| SteerQueue.RecoverContents | crates/buzz-acp/src/queue.rs:766-789 | recovery adds nothing to what was withheld and pending |
| SteerQueue.ReleaseAfterMark | crates/buzz-acp/src/queue.rs:673-730 | withholding and releasing with nothing in between leaves the event first in line |
| SteerQueue.RecoverAfterMarks | crates/buzz-acp/src/queue.rs:753-789 | expiry undoes any number of withholdings, order included |
| SteerLosses.PushesKeepNewest | crates/buzz-acp/src/queue.rs:240-251 | any events pushed one after another leave the newest five hundred of the queue and them, in order |
| SteerLosses.WithheldFrom | crates/buzz-acp/src/queue.rs:673-691 | withholding leaves all other events in their order |
| SteerLosses.ReleasedFrom | crates/buzz-acp/src/queue.rs:703-730 | a release moves the event from the side table to the front and leaves all others in their order |
| SteerLosses.ReleasedIsFirst | crates/buzz-acp/src/queue.rs:703-730 | a released event is first in line even when the queue was full |
| SteerLosses.RetainedIs | crates/buzz-acp/src/queue.rs:738-751 | a removal leaves all others in their order |
| SteerLosses.LossesAre | crates/buzz-acp/src/queue.rs:240-251 | in every run an input drops exactly: the first event when one is posted to a full queue, the newest beyond the cap when some return to it, everything on a drain, and otherwise nothing |
| SteerLosses.BatchesAre | crates/buzz-acp/src/queue.rs:335-370 | in every run a flush dispatches the first events, fifty at most, and leaves the rest in order; nothing else dispatches |
| SteerQueue.EventQueue.PushEvent | crates/buzz-acp/src/queue.rs:240-251 | the pushed event is kept, at the cap the oldest goes; other channels are untouched |
| SteerQueue.EventQueue.MarkNativeSteerPending | crates/buzz-acp/src/queue.rs:673-691 | true iff the event was queued; its channel's new queue and side table |
| SteerQueue.EventQueue.ReleaseNativeSteer | crates/buzz-acp/src/queue.rs:703-730 | back to the front, newest dropped over the cap, no-op when not withheld |
| SteerQueue.EventQueue.RemoveById | crates/buzz-acp/src/queue.rs:738-751 | the new content of both stores |
| SteerQueue.EventQueue.RecoverWithheld | crates/buzz-acp/src/queue.rs:766-789 | all withheld events return to the front in their order |
| SteerSystem.OneActionPerSteer | crates/buzz-acp/src/lib.rs:2416-2535 | in every run each accepted steer is on its way or has led to exactly one removal or release; none is left when the turn is over and the mailbox empty |
| SteerSystem.SideTableEmpties | crates/buzz-acp/src/queue.rs:646-660 | in every run an event is withheld only while a steer for it is on its way, so nothing is once the turn is over and the mailbox empty |
| SteerSystem.ActionsHaveCauses | crates/buzz-acp/src/lib.rs:2474-2524 | the removed events are those whose own success reply was read; the fallback fires for exactly the steers never written or answered with -32601 |
| SteerSystem.EventsConserved | crates/buzz-acp/src/lib.rs:2803-2884 | every posted event is pending, withheld, dispatched, removed as delivered or dropped, once each, in every run |
| SteerSystem.NeverDeliveredTwice | crates/buzz-acp/src/queue.rs:732-751 | an event posted once whose steer succeeded is never also dispatched, in every run in which no expiry finds it withheld |
| SteerClock.TimelineIsTrace | crates/buzz-acp/src/queue.rs:197-223 | what the clock and the in-flight deadline allow is a run of the system, so its theorems hold |
| SteerClock.ExpiryMeetsNoLiveSteer | crates/buzz-acp/src/queue.rs:166-170 | when the lags of prompt, read and handling add up to less than the buffer, no passed deadline meets a steer that has succeeded unhandled or can still succeed |
| SteerClock.OnceOnSchedule | crates/buzz-acp/src/queue.rs:732-751 | in every such run, expiries included, no event posted once is delivered both ways |
| SteerTwice.TwiceIff | crates/buzz-acp/src/queue.rs:197-223 | for all limits and lags: some run delivers an event twice iff the lags add up to at least the buffer |
| SteerTwice.LateDeliversTwice | crates/buzz-acp/src/queue.rs:753-789 | such a run, built for any limits and lags that add up to the buffer |
| SteerTwice.SlowStartDeliversTwice | crates/buzz-acp/src/queue.rs:38-39 | with a prompt a hundred seconds late and nothing else late there is such a run; with any less there is none |
| SteerExpiry.ExpiryDoublesIff | crates/buzz-acp/src/queue.rs:753-789 | an expiry now can deliver an event twice iff its deadline has passed and it finds the event withheld within the depth cap while its steer has succeeded or still can |
| SteerExpiry.OnTheWireDoublesIff | crates/buzz-acp/src/queue.rs:753-789 | while the steer is on the wire of an iteration begun in time, iff the deadline has passed and the event is withheld |
| SteerSystem.TryNativeSteer | crates/buzz-acp/src/lib.rs:2840-2884 | the event is withheld iff the read loop took the steer |
| SteerSystem.OnSteerAck | crates/buzz-acp/src/lib.rs:2474-2524 | the queue action and the fallback decision for every outcome, dropped senders included |
| Utf8.ValidSplit | crates/buzz-acp/src/lib.rs:776-788 | cutting a string at a character boundary leaves two well-formed strings |
| Utf8.BoundaryNearby | crates/buzz-acp/src/lib.rs:776-788 | a character boundary is at most three bytes away |
| Elision.FloorCharBoundary | crates/buzz-acp/src/lib.rs:776-781 | the last boundary at or before the offset |
| Elision.CeilCharBoundary | crates/buzz-acp/src/lib.rs:783-788 | the first boundary at or after the offset |
| Elision.ElideShrinks | crates/buzz-acp/src/lib.rs:736-761 | an elision keeps the leaf well-formed and makes its serialisation strictly shorter |
| Elision.MarkerTellsLoss | crates/buzz-acp/src/lib.rs:748-765 | an elided leaf is its head, a marker and its tail; read back as a decimal number, the marker gives the bytes between them |
| Elision.ReElidedIff | crates/buzz-acp/src/lib.rs:644-650 | an elided leaf is elided again iff its marker's number has more digits than two plus what the ellipses add to the kept ends |
| Elision.AtMostTwice | crates/buzz-acp/src/lib.rs:644-650 | no leaf is elided three times |
| Elision.SecondMarkerMisreports | crates/buzz-acp/src/lib.rs:748-749 | a leaf elided twice has lost at least 100 bytes of the original while its marker says 16 to 41 |
| Elision.ReElisionExample | crates/buzz-acp/src/lib.rs:671-673 | a leaf of 6200 letters can be elided twice |
| Elision.TrimsToFloor | crates/buzz-acp/src/lib.rs:674-679 | all ways of eliding a leaf lead to the same floor, never below it |
| Elision.TrimsRetainEnds | crates/buzz-acp/src/lib.rs:750-761 | after any number of passes a leaf is well-formed and keeps the first pass's head and tail |
| Json.SerLenPut | crates/buzz-acp/src/lib.rs:689-691 | overwriting one leaf changes the serialised length by exactly that leaf's |
| JsonText.SerLenIsLength | crates/buzz-acp/src/lib.rs:689-691 | the serialised length is the length of the serialised text, brackets, commas, colons, quotes and escapes included |
| FrameTrim.LargestLeafCorrect | crates/buzz-acp/src/lib.rs:698-734 | a leaf is found iff some leaf can shrink; it can shrink, none that can is longer, and none as long precedes it |
| FrameTrim.FindLeafFirst | crates/buzz-acp/src/lib.rs:720-734 | the search finds the first matching leaf in document order and misses none |
| FrameTrim.PassTrims | crates/buzz-acp/src/lib.rs:674-675 | a pass changes nothing but the chosen string leaf |
| FrameTrim.PassProgress | crates/buzz-acp/src/lib.rs:644-650 | every pass lowers the serialised length and the number of passes left |
| FrameTrim.TrimLoopCorrect | crates/buzz-acp/src/lib.rs:674-679 | the loop succeeds iff eliding every leaf as far as it goes would fit, and then only string leaves differ |
| FrameTrim.LoopBound | crates/buzz-acp/src/lib.rs:671-679 | at most two elisions per string leaf |
| FrameTrim.HopelessPasses | crates/buzz-acp/src/lib.rs:671-679 | when full elision would not fit, the loop makes every pass the leaves admit |
| FrameTrim.OnePerLeafFailsIff | crates/buzz-acp/src/lib.rs:671-673 | one pass per leaf is exceeded for some envelope iff the leaves admit more passes than there are leaves |
| FrameTrim.MorePassesThanLeaves | crates/buzz-acp/src/lib.rs:671-673 | a payload of eleven leaves that takes twenty-two passes |
| FrameTrim.FrameLen | crates/buzz-acp/src/lib.rs:639-642 | a frame is as long as its envelope and its payload |
| FrameTrim.FrameStarts | crates/buzz-acp/src/observer.rs:57-80 | the frame has the number, time, kind and agent of the event under their camel-case names |
| FrameTrim.FrameScope | crates/buzz-acp/src/observer.rs:57-80 | it has channel, session and turn under theirs |
| FrameTrim.FrameEnds | crates/buzz-acp/src/observer.rs:57-80 | it has the payload, the start time only when there is one, and no other field |
| FrameTrim.StubTells | crates/buzz-acp/src/lib.rs:683-686 | the stub names the event's kind and gives the payload's length |
| FrameTrim.FittedCorrect | crates/buzz-acp/src/lib.rs:659-687 | under the cap nothing changes; over it the payload keeps its shape and fits, or is the stub, each exactly when it must be |
| FrameTrim.FitsIff | crates/buzz-acp/src/lib.rs:681-686 | the result fits iff full elision or the stub would |
| FrameTrim.OversizedKind | crates/buzz-acp/src/lib.rs:683-686 | an event whose kind alone is over the cap stays over it |
| FrameTrim.OversizedSessionId | crates/buzz-acp/src/lib.rs:681-686 | an event whose session id is over the cap stays over it, whatever its payload |
| FrameTrim.ObserverEvent.FitToBudget | crates/buzz-acp/src/lib.rs:659-687 | the in-place loop leaves the payload of the specification and the envelope untouched |
| StreamMerge.TextConserved | crates/buzz-acp/src/lib.rs:546-581 | per stream, text emitted plus text pending is the text taken in |
| StreamMerge.MergedTextsAreSmall | crates/buzz-acp/src/lib.rs:553-564 | anything merged from two or more chunks is below 60,000 bytes |
| StreamMerge.NothingCrosses | crates/buzz-acp/src/lib.rs:547-551 | an event that is no chunk comes after all before it and starts the coalescer afresh |
| StreamMerge.NothingCrossesFlush | crates/buzz-acp/src/lib.rs:572-580 | the same for a flush |
| StreamMerge.RunDistinct | crates/buzz-acp/src/lib.rs:553-570 | at most one pending entry per stream |
| Coalescer.ChunkRoundTrip | crates/buzz-acp/src/lib.rs:583-626 | a chunk whose text is replaced reads back as the same stream with the new text |
| Coalescer.ChunkIff | crates/buzz-acp/src/lib.rs:583-611 | an event is a chunk iff its payload has one of the three update types and a text, each at its path; the text is that one and the stream has the six fields |
| Coalescer.SameStreamIff | crates/buzz-acp/src/lib.rs:583-611 | two chunks share a stream iff update type, message, channel, session, turn and agent agree |
| Coalescer.HistoryMerges | crates/buzz-acp/src/lib.rs:546-626 | read as chunks, every history of JSON events is a run of the merging rule |
| Coalescer.StreamTextConserved | crates/buzz-acp/src/lib.rs:546-626 | conservation of text for the events themselves |
| Coalescer.LargeChunksCameInWhole | crates/buzz-acp/src/lib.rs:544-559 | an emitted chunk of 60,000 bytes or more came in with that very text |
| Coalescer.PendingTraced | crates/buzz-acp/src/lib.rs:553-570 | an entry to be emitted has the number and time of the last event of its stream and is otherwise the event it was opened with |
| Coalescer.NumbersRiseIff | crates/buzz-acp/src/lib.rs:546-581 | for events taken in with rising numbers, the emitted numbers rise iff the pending ones do at every emission |
| Coalescer.InterleavingFalls | crates/buzz-acp/src/lib.rs:553-580 | two interleaved streams and a flush publish a number below the one before |
| ChunkOrder.PendingMirrors | crates/buzz-acp/src/lib.rs:553-570 | the pending entries are the streams of the events since the last emission, in the order they began, each with its latest number |
| ChunkOrder.EmitsIff | crates/buzz-acp/src/lib.rs:544-581 | told by the events alone: something is emitted iff it is a tick after something was taken in, an event that is no chunk, or a chunk that would bring its stream to 60,000 bytes |
| ChunkOrder.NumbersRiseUnlessCrossed | crates/buzz-acp/src/lib.rs:546-581 | told by the events alone: the emitted numbers rise iff at no emission two streams begun since the last one cross |
| StreamOrder.AscendsIff | crates/buzz-acp/src/lib.rs:553-570 | the latest events of the streams are in the order of their first ones iff no two streams cross |
| Coalescer.ObserverChunkCoalescer.Ingest | crates/buzz-acp/src/lib.rs:547-570 | emitted events and the new pending entries, in order |
| Coalescer.ObserverChunkCoalescer.Flush | crates/buzz-acp/src/lib.rs:572-580 | drains every pending entry with its merged text |
| ObserverBus.ReplayBuffer | crates/buzz-acp/src/observer.rs:92-137 | the buffer is always the newest thousand events, numbered from one without a gap |
| ObserverBus.LogIsEmitted | crates/buzz-acp/src/observer.rs:103-136 | over every run the log is what was emitted: every event once, in order, numbered from one, payload and all other fields as given |
| ObserverBus.IngestedInOrder | crates/buzz-acp/src/lib.rs:424-484 | for every interleaving events are ingested in strictly rising order, never twice, and are genuine |
| ObserverBus.GapFreeIff | crates/buzz-acp/src/lib.rs:420-484 | everything from the oldest replayed event on is ingested iff each event a lagging receiver skipped was in the snapshot |
| ObserverBus.NothingLostSilently | crates/buzz-acp/src/lib.rs:485-493 | an event missing from the feed was reported as skipped |
| ObserverBus.SkipsOnlyWhenLagging | crates/buzz-acp/src/lib.rs:468-493 | nothing is skipped iff the receiver was never more than a channel's worth behind when it asked |
| ObserverBus.LagSkipsOldest | crates/buzz-acp/src/lib.rs:468-493 | a lag skips exactly the events older than the newest 1,024 and tells how many |
| ObserverBus.FlushedByLagOrTick | crates/buzz-acp/src/lib.rs:485-493 | after a lag or a tick nothing is pending |
| ObserverBus.PublishedText | crates/buzz-acp/src/lib.rs:439-516 | end to end, without lag the text published and pending per stream is the stream's text in everything given to the bus from the oldest replayed on |
| ObserverBus.PublishedNumbersRiseIff | crates/buzz-acp/src/lib.rs:439-516 | for every interleaving of emitters and publisher, lag included, published numbers rise iff at no emission two streams cross |
| ObserverBus.ObserverHandle.Emit | crates/buzz-acp/src/observer.rs:103-136 | numbers, buffers and broadcasts the event; keeps the bus invariant |
| ObserverBus.ObserverHandle.Snapshot | crates/buzz-acp/src/observer.rs:92-101 | the last thousand events sent |
| ObserverBus.Receiver.Recv | crates/buzz-acp/src/lib.rs:470-493 | the next event, or the jump over what the channel no longer holds |
| ObserverBus.Publisher.constructor | crates/buzz-acp/src/lib.rs:448-464 | the snapshot is handed to the coalescer in order and its highest number remembered |
| ObserverBus.Publisher.OnDelivery | crates/buzz-acp/src/lib.rs:470-493 | events of the snapshot are skipped, lag flushes, the rest is ingested; what was published is what the coalescer made of it |
| Pacer.PacedStep | crates/buzz-acp/src/lib.rs:381-408 | the earliest time is exactly the bound the two limits set |
| Pacer.Spacing | crates/buzz-acp/src/lib.rs:396-405 | publications k apart are at least k intervals of 167 ms apart |
| Pacer.Window | crates/buzz-acp/src/lib.rs:384-397 | any 91 consecutive publications span at least a minute |
| Pacer.AtMostNinetyPerMinute | crates/buzz-acp/src/lib.rs:365-397 | no half-open minute holds more than ninety publications |
| Pacer.DequeSuffices | crates/buzz-acp/src/lib.rs:384-400 | the deque of the last minute decides as the whole history would |
| Pacer.ObserverPublishPacer.Wait | crates/buzz-acp/src/lib.rs:381-408 | publishes as soon as the history allows and not before, sleeping at most once |
| Circuit.AtMostTwoCrashTimes | crates/buzz-acp/src/lib.rs:1018-1034 | a closed circuit holds at most two crash times |
| Circuit.BackoffBounds | crates/buzz-acp/src/lib.rs:1086-1095 | every backoff is about one second for the first crash in the window and about two for the second, within 20 percent |
| Circuit.SpreadsEvenly | crates/buzz-acp/src/lib.rs:1086-1095 | within the 20 percent the delay is spread evenly over the jitter |
| Circuit.CooldownHolds | crates/buzz-acp/src/lib.rs:1053-1132 | nothing is started within five minutes of the circuit opening |
| CircuitAnswers.RefillIff | crates/buzz-acp/src/lib.rs:1113-1131 | in every history a refill is allowed iff the circuit was not opened since something was last let through, or the latest opening is five minutes old |
| CircuitAnswers.CrashIff | crates/buzz-acp/src/lib.rs:1053-1096 | in every history a crash opens a closed circuit iff two that count were less than a minute before it, and is answered with a respawn otherwise; of an open one it is the probe iff the cooldown has passed |
| Circuit.FirstCrashAfterProbe | crates/buzz-acp/src/lib.rs:1056-1084 | the first crash after a probe re-opens the circuit when it comes within a minute; later it is an ordinary first crash unless a spawn failed in between |
| Circuit.FirstCrashAfterFailure | crates/buzz-acp/src/lib.rs:1056-1103 | of a circuit alone: if one did, and nothing was let through since, a crash would find the circuit open until five minutes after the failure and be the probe from then on; `SlotStarts.OpenMeansVacant` shows the harness never has one |
| Circuit.AtMostTwoRespawnsPerMinute | crates/buzz-acp/src/lib.rs:1074-1095 | any three Respawn verdicts span at least a minute |
| Circuit.SlotCircuit.RecordCrash | crates/buzz-acp/src/lib.rs:1053-1096 | the verdict and the new state, with the in-place pruning and seeding |
| Circuit.SlotCircuit.MarkSpawnFailed | crates/buzz-acp/src/lib.rs:1101-1103 | opens the circuit from now on |
| Circuit.SlotCircuit.CanRefill | crates/buzz-acp/src/lib.rs:1113-1131 | answers for a vacant slot without recording a crash |
| Slots.ExactlyOneRole | crates/buzz-acp/src/lib.rs:1751-1809 | every slot is at all times exactly one of idle, checked out, respawning, vacant |
| Slots.FollowsDiagram | crates/buzz-acp/src/lib.rs:3005-3454 | each step moves its slot along the state diagram and no other slot |
| Slots.ComesFrom | crates/buzz-acp/src/lib.rs:1785-1809 | results and panics are those of checked-out slots, respawn results those of respawning ones |
| Slots.NothingOverwrittenOrLost | crates/buzz-acp/src/lib.rs:1190-1209 | no returned agent displaces another and no respawn result meets a full channel |
| Slots.OneRespawnPerSlot | crates/buzz-acp/src/lib.rs:1027-1034 | the in-flight flag stands for exactly one respawn task or waiting result |
| Slots.GivesUpIffAllVacant | crates/buzz-acp/src/lib.rs:3229-3233 | the test on which the harness gives up, made after a crash or panic, holds exactly when every slot is vacant |
| Slots.BothBreaksTheSlot | crates/buzz-acp/src/pool.rs:576-590 | a task that both sends and panics gives its slot two agents |
| Slots.ResultChannel.TrySend | crates/buzz-acp/src/lib.rs:1610-1612 | a bounded channel takes a message iff it has room |
| Slots.RespawnGuard.Send | crates/buzz-acp/src/lib.rs:1190-1209 | with room in the channel one result, the one given, is reported, the drop included |
| Slots.RespawnGuard.Drop | crates/buzz-acp/src/lib.rs:1211-1226 | an unsent guard reports a failure |
| Slots.RunRespawnTask | crates/buzz-acp/src/lib.rs:3625-3637 | with room in the channel, which `Slots.NothingOverwrittenOrLost` establishes, a respawn task yields exactly one result whether it panics or not |
| Slots.Harness.SpawnRespawnTask | crates/buzz-acp/src/lib.rs:3591-3640 | a respawn is started iff the slot's circuit does not forbid it |
| Slots.Harness.HandlePromptResult | crates/buzz-acp/src/lib.rs:3005-3354 | a returned agent goes back to its slot, or its crash is recorded in the slot's circuit and the slot respawned as that allows; the other circuits are untouched |
| Slots.Harness.RecoverPanickedAgent | crates/buzz-acp/src/lib.rs:3371-3454 | a panicked task's crash is recorded and its slot respawned or left vacant; an unknown task changes nothing |
| Slots.Harness.RefillSlots | crates/buzz-acp/src/lib.rs:1748-1770 | every vacant slot whose circuit allows it, and no other, gets a respawn task; exactly the circuits of vacant slots are asked and keep what the question left |
| Slots.Harness.CollectRespawned | crates/buzz-acp/src/lib.rs:1785-1809 | all waiting results are taken; successes fill their slots, failures open their circuits for the cooldown |
| SlotCircuits.WardIsRun | crates/buzz-acp/src/lib.rs:1748-1809 | slots that ask their circuits make no run the slots alone could not make, so all theorems on slots hold of them |
| SlotCircuits.LogsFollow | crates/buzz-acp/src/lib.rs:1053-1132 | in every run the questions put to each slot's circuit are a history the circuit theorems speak of |
| SlotCircuits.StartsIffAllowed | crates/buzz-acp/src/lib.rs:3591-3640 | a step starts a respawn task for a slot iff it asks that slot's circuit and is allowed |
| SlotCircuits.StartsAreAllowed | crates/buzz-acp/src/lib.rs:3591-3640 | in every run the start times of a slot's respawn tasks are exactly the times its circuit allowed one |
| SlotCircuits.SlotsCoolDown | crates/buzz-acp/src/lib.rs:1053-1132 | in every run nothing is allowed for a slot within five minutes of its circuit opening |
| SlotCircuits.SlotsRate | crates/buzz-acp/src/lib.rs:1074-1095 | in every run any three crashes of a slot answered with a backoff span at least a minute |
| SlotStarts.OpenMeansVacant | crates/buzz-acp/src/lib.rs:1053-1096 | in every run a slot whose circuit is open is vacant, so no crash finds it open or is answered with a probe |
| SlotStarts.VacantComesBack | crates/buzz-acp/src/lib.rs:1748-1770 | after every run maintenance gives a vacant slot a respawn task iff its circuit was not opened since something was last let through, or its cooldown has passed |
| SlotStarts.StartsSpaced | crates/buzz-acp/src/lib.rs:1018-1034 | in every run any three starts of a slot, respawns and probes alike, span a minute; the very first start of a slot that did not come up is not counted |
| Wake.RetryDelayIsCappedDoubling | crates/buzz-acp/src/pool_lifecycle.rs:123-132 | for every attempt the delay is five seconds doubled per failure, at most five minutes; shift and saturation never show |
| Wake.TokensCountWakes | crates/buzz-acp/src/pool_lifecycle.rs:37-58 | tokens count the wakes since the last pool was taken, up to the 32-bit limit |
| Wake.AcceptedOnce | crates/buzz-acp/src/pool_lifecycle.rs:99-120 | a result is accepted only for the wake in flight, by its token, and once |
| Wake.RejectedIff | crates/buzz-acp/src/pool_lifecycle.rs:95-111 | stale, repeated and unexpected results, and no others, are rejected and change nothing |
| Wake.StartsIff | crates/buzz-acp/src/pool_lifecycle.rs:37-58 | a wake starts iff work is pending and the pool is listening or its retry is due; otherwise nothing changes |
| Wake.AcceptedMeans | crates/buzz-acp/src/pool_lifecycle.rs:99-120 | an accepted success makes its own pool ready, an accepted failure waits out its own delay with its own error |
| Wake.RetrySpacing | crates/buzz-acp/src/pool_lifecycle.rs:46-56 | a retry starts no sooner than the capped delay after the failure before it and raises the token by one |
| Wake.SingleFlightAlways | crates/buzz-acp/src/lib.rs:1714-1742 | never two wakes at once and never two pools, whatever the tasks do |
| Wake.NothingStaleInTheLoop | crates/buzz-acp/src/lib.rs:1862-1885 | in the main loop no wake result is stale, and a panic is charged to the wake it ended |
| Wake.PoolArrives | crates/buzz-acp/src/lib.rs:1862-1885 | a pool that a task sent is installed when its message is taken |
| Wake.PoolLifecycle.StartIfDue | crates/buzz-acp/src/pool_lifecycle.rs:37-58 | the transition into waking and its token |
| Wake.PoolLifecycle.Take | crates/buzz-acp/src/pool_lifecycle.rs:60-68 | hands out a ready pool and nothing else |
| Wake.PoolLifecycle.Complete | crates/buzz-acp/src/pool_lifecycle.rs:99-120 | the matching completion, success or failure, and the rejections |
| Wake.PoolLifecycle.Cancel | crates/buzz-acp/src/pool_lifecycle.rs:91-93 | true iff that wake was in flight, which then has failed |
| Usage.OnlyTheLastMatters | crates/buzz-acp/src/usage.rs:196-210 | during a turn only its session's last notification has an effect |
| Usage.WholeTurn | crates/buzz-acp/src/usage.rs:182-319 | a turn publishes its last report measured from the baseline, which it becomes; other sessions' reports change nothing |
| Usage.TurnSeqCounts | crates/buzz-acp/src/usage.rs:228-231 | published records of a session are numbered 1, 2, 3, … |
| Usage.PublishedDelta | crates/buzz-acp/src/usage.rs:221-257 | a published delta is the move of the session's own baseline, given exactly when no counter fell |
| Usage.UsageTelescopes | crates/buzz-acp/src/usage.rs:12-31 | over any stretch each token counter moves by the published deltas plus the unreported moves |
| Usage.CostTelescopes | crates/buzz-acp/src/usage.rs:233-257 | the same for the cost, over every stretch that starts with a known cost and in which each report of the session carries one |
| UsageReports.BaselineIsReport | crates/buzz-acp/src/usage.rs:274-290 | in every history, told by the calls alone: a session's baseline has the counters of its latest report made outside every turn or last in a turn that published, and there is none without such a report |
| UsageReports.PublishedIsDifference | crates/buzz-acp/src/usage.rs:221-319 | a turn publishes iff its session reported in it: the last report's counters and model, and the differences to the settled report before it iff there is one and no counter fell |
| UsageReports.OnlyTakesPublish | crates/buzz-acp/src/usage.rs:304-319 | nothing else publishes |
| Usage.UsageTracker.BeginTurn | crates/buzz-acp/src/usage.rs:182-185 | the turn is in flight and a leftover record is gone |
| Usage.UsageTracker.RecordUsage | crates/buzz-acp/src/usage.rs:211-295 | the three cases of a notification, with every reliability rule |
| Usage.UsageTracker.TakeUsage | crates/buzz-acp/src/usage.rs:304-319 | publishes the pending record, makes it the baseline and ends the turn |
| Membership.RemembersLastThousand | crates/buzz-acp/src/lib.rs:1660-1663 | the last thousand ids taken in are always remembered |
| Membership.ForgetsTheRest | crates/buzz-acp/src/lib.rs:1943-1948 | only ids among the last 1,999 taken in are remembered |
| Membership.Converges | crates/buzz-acp/src/lib.rs:1949-1998 | for any order and repetition a channel is removed iff its newest notification is a removal, as long as its newest ones agree |
| Membership.OrderDoesNotMatter | crates/buzz-acp/src/lib.rs:1652-1658 | two orders of the same notifications agree on every channel whose newest ones do |
| Membership.OrderDecidesIff | crates/buzz-acp/src/lib.rs:1923-1931 | for every set of notifications the order decides the outcome iff two of the channel's newest disagree |
| Membership.LastNewestDecides | crates/buzz-acp/src/lib.rs:1923-1931 | a newest notification delivered last decides its channel |
| Membership.OrderMattersIff | crates/buzz-acp/src/lib.rs:1923-1931 | for two notifications: their order matters exactly when they disagree within one second |
| Membership.NeverBoth | crates/buzz-acp/src/lib.rs:1963-1998 | no channel is both subscribed and removed |
| Membership.SubscribedUnlessRemoved | crates/buzz-acp/src/lib.rs:1963-1998 | when subscribing never fails, a channel notified about is subscribed iff not removed |
| Membership.SubscribedAsSaid | crates/buzz-acp/src/lib.rs:1963-1998 | in every run, failures included, a channel is subscribed as the last notification in effect says, or as it was at the start |
| Membership.MembershipTracker.OnNotification | crates/buzz-acp/src/lib.rs:1911-2024 | the new memory, watermark, removed and subscribed sets |
| Filters.MatchIff | crates/buzz-acp/src/filter.rs:376-459 | a rule takes an event iff it passes all checks and every earlier rule was cleanly rejected; an error, timeout or disabled rule reached means no rule does |
| Filters.CounterAfter | crates/buzz-acp/src/filter.rs:401-447 | a rule's timeout counter changes only when the rule is reached |
| Filters.CounterCountsTimeouts | crates/buzz-acp/src/filter.rs:417-436 | the counter is the number of timeouts since the last result, never above five |
| Filters.FiveTimeoutsAreFinal | crates/buzz-acp/src/filter.rs:403-415 | five timeouts without a result disable the rule for good and block every event that gets to it |
| Filters.MatchEvent | crates/buzz-acp/src/filter.rs:376-459 | the loop's answer and the counters it leaves |
| Filters.JudgeRule | crates/buzz-acp/src/filter.rs:377-448 | what one rule makes of an event |
| Filters.MergedFilterIs | crates/buzz-acp/src/config.rs:1186-1220 | the merged filter admits exactly the kinds some applying rule admits and asks for a mention iff all do |
| Filters.MatchedEventsArePassed | crates/buzz-acp/src/config.rs:1186-1220 | every event a rule takes passes its channel's merged filter |
| Filters.MatchesApplies | crates/buzz-acp/src/filter.rs:64-72 | the textual scope check implies the parsed one; they differ exactly for ids listed only in another spelling |
| Filters.CanBeTakenIff | crates/buzz-acp/src/filter.rs:376-459 | some event of a channel is taken, for some outcomes of the expressions, iff some rule matches the channel and asks for no kinds or for one below 65,536 |
| Filters.NoneCanNoneTaken | crates/buzz-acp/src/filter.rs:376-459 | if none does, nothing is taken whatever the counters and outcomes |
| Filters.SubscribedInVainIff | crates/buzz-acp/src/config.rs:1316-1325 | a channel is subscribed though none of its events can be taken iff some rule applies to it and each that does lists it in another spelling only or asks only for kinds no event has |
| Filters.InVainExamples | crates/buzz-acp/src/filter.rs:383 | one rule with another spelling, and one with the single kind 70,000 |
| Filters.MergeRules | crates/buzz-acp/src/config.rs:1188-1219 | the merging loop computes the merged filter |
| Filters.ResolveChannelFilters | crates/buzz-acp/src/config.rs:1134-1225 | an entry, the right one, for exactly the discovered channels in scope, in every mode |
| Filters.InScopeIff | crates/buzz-acp/src/config.rs:1143-1151 | with own rules the channels some rule applies to are in scope, without them all or just those the override spells |
| Filters.ResolveDynamicChannelFilter | crates/buzz-acp/src/config.rs:1236-1314 | for every channel the same filter the batch resolver would give it |
| Filters.BuiltRuleTakesIff | crates/buzz-acp/src/lib.rs:1439-1468 | without own rules the events taken are those asked for, unless the kinds are overridden with an empty list |
| CodexConfig.MergeAt | crates/buzz-acp/src/acp.rs:205-228 | what a merge holds at any path, from what its two sides hold there |
| CodexConfig.LeavesOfMerge | crates/buzz-acp/src/acp.rs:205-228 | overlay leaves survive, base leaves survive iff neither set nor below a replaced ancestor, nothing is invented |
| CodexConfig.MergeTwice | crates/buzz-acp/src/acp.rs:205-228 | merging the same overlay again changes nothing |
| CodexConfig.ResultOverBase | crates/buzz-acp/src/acp.rs:205-228 | merging a result over its own base gives the result back |
| CodexConfig.AbsorbedIff | crates/buzz-acp/src/acp.rs:205-228 | an overlay absorbs a base iff it covers it |
| CodexConfig.AssociativeIff | crates/buzz-acp/src/acp.rs:205-228 | three sources merge alike in either grouping iff no leaf of the middle one stands between objects whose merge would show |
| CodexConfig.NotAssociative | crates/buzz-acp/src/acp.rs:205-228 | a smallest clash |
| CodexConfig.DeepMerge | crates/buzz-acp/src/acp.rs:205-228 | the loop over the overlay's entries computes the merge |
| CodexConfig.NetworkAlwaysOn | crates/buzz-acp/src/acp.rs:327-342 | whenever there is a result, network access is on in it |
| CodexConfig.ResultAsParent | crates/buzz-acp/src/acp.rs:308-342 | feeding the result back as the parent configuration gives the same result |
| CodexConfig.ParentLeavesWin | crates/buzz-acp/src/acp.rs:308-325 | every parent leaf outside the forced entry is in the result |
| CodexConfig.LaterEntriesWin | crates/buzz-acp/src/acp.rs:302-306 | leaves of a later entry replace what earlier entries have there |
| CodexConfig.LastVariableWins | crates/buzz-acp/src/acp.rs:269-306 | told by the environment: without a parent, every leaf of the last variable of the name, other than the forced one, is in the result |
| CodexConfig.NothingInvented | crates/buzz-acp/src/acp.rs:257-345 | every leaf of the result but the forced one is a leaf of the parent or of an entry, at the same path |
| CodexConfig.BuildsUnless | crates/buzz-acp/src/acp.rs:263-279 | there is no result and no error iff nothing was generated or no variable has the name |
| CodexConfig.FirstBadEntryReported | crates/buzz-acp/src/acp.rs:283-301 | the first entry that is no JSON object is the error reported |
| CodexConfig.ParentThenSandbox | crates/buzz-acp/src/acp.rs:308-342 | then the parent is checked, then the sandbox entry; the build fails for no other reason |
| CodexConfig.BuildCodexConfigEnv | crates/buzz-acp/src/acp.rs:257-345 | the whole build with its loops computes the specification |
| Resp.RoundTrip | perf/relay_bus_scaling.py:110-153 | reading an encoded command gives its parts and stops exactly at its end, whatever bytes the parts or the rest hold |
| Resp.PipelineRoundTrip | perf/relay_bus_scaling.py:110-153 | commands written one after another are read back one after another |
| Resp.ReplyRoundTrip | perf/relay_bus_scaling.py:129-153 | replies of every type, nested to any depth, read back as they are and exactly to their end |
| Resp.LineReplies | perf/relay_bus_scaling.py:133-136 | a line reply is its text, a line error is raised with its text |
| Resp.LineBytes | perf/relay_bus_scaling.py:129-136 | the first byte that tells a line reply from an error |
| Resp.ReplyBytes | perf/relay_bus_scaling.py:129-153 | the bytes of the other replies |
| Resp.OtherBytes | perf/relay_bus_scaling.py:129-153 | an exhausted stream and any other first byte are errors of their own |
| Resp.LineIff | perf/relay_bus_scaling.py:120-126 | a line is what stands before the first line end if that ends in both characters; which error anything else is |
| Resp.BulkIff | perf/relay_bus_scaling.py:141-147 | a string is as many bytes as announced that are text, with a line end after them, and nothing else is |
| Resp.SpacedNumber | perf/relay_bus_scaling.py:137-140 | spaces around a length, a sign and underscores between digits are read as Python's `int` reads them |
| Resp.OnlySpacedNumbers | perf/relay_bus_scaling.py:137-140 | nothing else is taken for a number |
| Resp.NegativeLengths | perf/relay_bus_scaling.py:139-152 | -1 is nil; any other negative length is an error for a string and an empty list for an array |
| Resp.CommandsArePrefixFree | perf/relay_bus_scaling.py:110-117 | no command is the beginning of another |
| Resp.PingIs | perf/relay_bus_scaling.py:110-117 | the bytes of one command |
| Resp.ReadStays | perf/relay_bus_scaling.py:129-153 | a reply that could be read is read the same however the stream goes on |
| Resp.TruncatedFails | perf/relay_bus_scaling.py:120-147 | a command cut short is never read as a reply |
| Resp.IntOfDigits | perf/relay_bus_scaling.py:139-140 | a written length reads back as itself |
| Resp.EncodeCommand | perf/relay_bus_scaling.py:110-117 | the frame of the specification |
| Resp.NextLine | perf/relay_bus_scaling.py:120-126 | a line without its terminator, an end of stream or a malformed line |
| Resp.ReadResp | perf/relay_bus_scaling.py:129-153 | the stream reader and its nested lists agree with the specification, result and rest |

## Left out

- Network, process, relay and file I/O, encryption, signing and logging: their success or failure is an input where it matters, and otherwise not modelled.
- Internals of the queue beyond native steering (the mode that drops events of busy channels, retries, dead letters). The pool appears through `try_claim`, `return_agent`, `slot_alive` and `live_count` only, and which idle agent is claimed is left to the caller.
- SteerSystem.Trace: an in-flight expiry, a dispatch and a new turn may come at any time here, so its theorems hold for more runs than the program has; `SteerClock.Timeline` is restricted to those the deadline allows. There a batch dispatched beside a turn that outlived its deadline is a task of which only the end is seen; its own steers are not followed. A turn that is cancelled ends like one that leaves by an early exit.
- SteerTurn.Run: the order in which `select!` polls its arms is not modelled; any arm may win in any iteration, so the theorems hold for more runs than the program has.
- AcpClient.Client.CancelWithCleanup: models the variant that inherits the turn's deadline; the bounded-grace variant differs in the deadline and the name of its timeout, and answering a pending permission request enters only as its success.
- ObserverBus.Publisher.OnDelivery: pacing, trimming and encrypting each published event are separate components here; an end of the feed is handled like a lag and ends the task.
- ObserverBus.Broadcast: a sequence number is taken and the event buffered in one step, so two threads whose events swap places between the two are not covered; nor is the wrap-around of a 64-bit counter.
- Usage.PublishedDelta: costs are real numbers, so floating-point rounding is not modelled; over stretches with a report that lacks the cost, costs are not telescoped.
- Slots.Harness.HandlePromptResult: the fate of the failed batch and the choice between the outcomes that return the agent and those that replace it are one input each.
- Slots: task identifiers are represented by their slot, which is enough because a slot has at most one task; the respawned agent itself is not modelled.
- Wake: shutdown during a wake is not modelled.
- CodexConfig.DeepMerge: the source writes into the base map; here the merged map is returned, so aliasing is not captured. Arrays and scalars are opaque, and the order of keys in the printed text is not modelled.
- Filters: expression evaluation is an input per rule; UUID spelling is abstracted to canonical, other and none.
- Resp.IntOf: Python's limit on the number of digits in an integer and its recursion limit are not modelled; text is its UTF-8 encoding.
- Presence, typing indicators, prompt text, admin and desktop user interfaces, benchmark launchers: user interface or plumbing.
