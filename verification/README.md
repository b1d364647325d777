# Verified models of DeviceRail's hard parts

DeviceRail drives Android devices for test automation. A Rust client talks to a daemon over a control
plane and over resumable event streams, an Android driver issues ADB commands behind a per-device gate, a
live visualizer follows a session and serves it to browsers, and a release script checks archives before
it opens them. These Dafny modules model the parts of that code whose correctness cannot be read off one
function, and prove what they promise for every input, every interleaving or every run.

| file | models |
|---|---|
| `Framing.dfy` | the incremental NDJSON decoder |
| `Negotiation.dfy`, `RequestTracker.dfy`, `TrackerSystem.dfy` | feature checks, the request tracker behind its mutex, and all interleavings of the threads that use it |
| `EventStream.dfy`, `Resumption.dfy` | one event stream, and a client that follows a log over any number of streams |
| `DeviceGate.dfy` | the read/write gate and the capture slots of a device |
| `DeviceLifecycle.dfy`, `DeviceHistory.dfy` | connect, health, disconnect, observe and execute, and whole histories of them |
| `JsonSafety.dfy`, `PngPreflight.dfy`, `ZipPreflight.dfy` | three bounded validators |
| `SseClient.dfy`, `VisualizerPump.dfy` | the visualizer's backpressure and its retry loop |
| `Bytes.dfy` | numbers as bytes, and facts about slices |

Objects that the source updates in place are classes, and each of their methods is proved against a
function or a relation on values. Concurrency is a step system: `Possible` says which step can happen,
`Next` what it does, and a run is any sequence of possible steps. What the outside world does (answers of
commands, deadlines, cancellation, arrival of data, errors of a socket) is left open, so every result
holds for all of it.

Three findings. First, `next` documents that a clean session end comes only after all preceding events were
delivered (`crates/client/src/event_stream.rs:321-323`). That fails when `cancel` is called on a stream the
server has already ended while events are queued: they are dropped, and `next` still answers a clean end.
`Resumption.CancelledEndLooksClean` is such a run, and `Resumption.CleanEndIsComplete` gives the exact
condition: the received and delivered cursors agree at the moment the cancel drains the stream. A caller can
establish that in front of the call by reading the cursors once `terminal()` has answered
(`Resumption.LookBeforeCancel`); while the stream is active such a look is not enough
(`Resumption.LookingEarlyIsNotEnough`). After a clean end the cursors tell
(`Resumption.CleanEndShowsInCursors`). Second, `cancel` gives its actor only so long to stop
(`crates/client/src/event_stream.rs:445-454`); an actor that outlives it can still accept one message, and
then `next` can fail out of order or a recorded end be overwritten (`Resumption.DeliveryIsInOrder` and
`Resumption.CompletionChangesOnlyLate` say exactly when). Third, an Action takes the gate and then a slot
while an observation takes a slot and then the gate; `DeviceGate.StuckIffDeadlocked` and
`DeviceGate.DeadlockPossibleIff` say exactly when that deadlocks, and `DeviceGate.QuietMeansFinished` that
nothing else can hold an operation up.

## Model

| member | source | states |
|---|---|---|
| `TrackerSystem.ExactlyOnePlace` | crates/client/src/client.rs:382-438 | in every interleaving an id that was ever tracked is pending, abandoned or retired and never two of them; one whose caller is being told or was told is retired; ids are below the counter; once the client is closing, failed or closed nothing is tracked |
| `TrackerSystem.ToldOnce` | crates/client/src/client.rs:625-652 | no id occurs twice among the outcomes ever sent to callers, whether by a response, a failure or a close |
| `TrackerSystem.ToldIsDone` | crates/client/src/client.rs:625-652 | a caller that was told is not about to be told again, and its request is tracked nowhere |
| `TrackerSystem.RetiredForGood` | crates/client/src/client.rs:382-438 | a retired id stays retired, and what callers were told is only ever added to |
| `TrackerSystem.CallersAreServed` | crates/client/src/client.rs:382-401 | a caller that waits and does not give up is at any later time in exactly one of three places: still pending, taken out of the table but not told yet, or told; once the client is over it has been told exactly when nobody is about to tell it |
| `TrackerSystem.DrainedHearTheEnd` | crates/client/src/client.rs:383-399 | a caller that waits when the client fails or closes is, at any later time, about to be told or has been told that the client is over, and nothing else |
| `TrackerSystem.AnsweredHearTheAnswer` | crates/client/src/client.rs:603-652 | a caller whose id is answered is, at any later time, about to be told or has been told what that answer says, and nothing else |
| `TrackerSystem.OneCancelEach` | crates/client/src/client.rs:440-576 | at most one automatic cancel frame is ever queued for a request, however pumps interleave between preparing, checking, sending and putting back |
| `TrackerSystem.SentCancelIsDone` | crates/client/src/client.rs:440-576 | the target of a cancel that was queued is neither on the backlog nor in a pump, and not pending |
| `TrackerSystem.LimitsHold` | crates/client/src/client.rs:1041-1095 | both tables within the limit, the application counter equal to the number of pending application requests and within its share, the backlog a subset of the abandoned requests |
| `TrackerSystem.FramesWithinOffer` | crates/client/src/client.rs:1013-1040 | every frame other than hello ever queued needs only features that this client offered and that the selected protocol minor permits |
| `TrackerSystem.OnlyHelloBeforeReady` | crates/client/src/client.rs:914-972 | until the client is ready nothing but `system.hello` was queued |
| `TrackerSystem.PhaseOrder` | crates/client/src/client.rs:345-361 | the phase never moves backwards, except from a hello attempt to awaiting hello |
| `TrackerSystem.FeaturesFixed` | crates/client/src/client.rs:914-972 | what was negotiated never changes for the rest of a run |
| `TrackerSystem.StrayResponseFails` | crates/client/src/client.rs:603-623 | after a response to an id that is not tracked, a failure is due or the client has failed or closed, for the rest of the run |
| `TrackerSystem.StrayResponseIsUnknown` | crates/client/src/client.rs:603-623 | in an open client a second response, or one to an id never used, is found unknown |
| `TrackerSystem.RunInv` | crates/client/src/client.rs:363-667 | the invariant behind these results holds in every state of every run |
| `RequestTracker.MaxApplication` | crates/client/src/client.rs:1041-1060 | application requests keep at least one place and always leave one for cancellation |
| `RequestTracker.UntrackBounded` | crates/client/src/client.rs:1146-1153 | removing a request keeps the counter exact, and the counter is positive then, so the saturating subtraction never saturates |
| `RequestTracker.TrackNewBounded` | crates/client/src/client.rs:1041-1095 | tracking a request that was admitted keeps every limit |
| `RequestTracker.ShelveBounded` | crates/client/src/client.rs:403-438 | abandoning a request keeps every limit |
| `RequestTracker.PutBackBounded` | crates/client/src/client.rs:570-576 | putting a cancel back keeps every limit |
| `RequestTracker.Inner.Fail` | crates/client/src/client.rs:382-401 | fails once: everything tracked is drained and handed back to be told; a failed or closed client is left alone |
| `RequestTracker.Inner.AbandonRequest` | crates/client/src/client.rs:403-438 | moves a pending request to the abandoned table, with a backlog entry exactly when a cancel may be sent; reports overflow at the limit |
| `RequestTracker.Inner.NextCancelTarget` | crates/client/src/client.rs:450-458 | finds the first live target, in the order of the ids as text, if there is one, and drops stale entries only |
| `RequestTracker.Inner.PrepareCancel` | crates/client/src/client.rs:440-516 | stops exactly when the client cannot pump or no live target exists; a prepared target is off the backlog and its cancel is tracked under the next id |
| `RequestTracker.Inner.RestoreCancelTarget` | crates/client/src/client.rs:570-576 | untracks the cancel and puts its target back when the client is still ready and the target still abandoned |
| `RequestTracker.Inner.AcceptResponse` | crates/client/src/client.rs:603-623 | classifies a response and removes exactly what it answers |
| `RequestTracker.Inner.Begin` | crates/client/src/client.rs:1004-1095 | an id is given exactly when channel, phase, features, both limits and the id counter allow it and the frame fits; otherwise nothing is tracked |
| `RequestTracker.Inner.Remove` | crates/client/src/client.rs:1146-1153 | untracks one request and adjusts the counter |
| `RequestTracker.Inner.StartClose` | crates/client/src/client.rs:1175-1194 | closing drains everything and keeps a failed phase |
| `Negotiation.CheckFeatures` | crates/client/src/methods.rs:399-458 | a request is allowed exactly when every feature it relies on is enabled and a timeout is only asked where supported; a refusal names a feature that is needed and missing |
| `Negotiation.AllowedCallsStayWithinOffer` | crates/client/src/client.rs:1647-1736 | on an accepted hello result an allowed request uses only offered features permitted at the selected minor |
| `Resumption.ConfirmedIsPrefix` | crates/client/src/event_stream.rs:373-407 | from the beginning or from a saved cursor, over any number of open, receive, deliver, confirm, fail, cancel and resume steps the confirmed events are exactly the first events of the server's log, the cursor counts them, and none is ever taken back |
| `Resumption.UnconfirmedOfferedAgain` | crates/client/src/event_stream.rs:420-443 | whatever a resumed stream has delivered follows the confirmed events directly in the log |
| `Resumption.ActiveQueueShape` | crates/client/src/event_stream.rs:838-886 | while active and not being drained, the undelivered events carry the consecutive sequences behind the delivered cursor and the log's payloads, up to received (one short when the last found no room); confirmed <= delivered <= received; queued bytes are their exact sum and within the limit |
| `Resumption.DeliveryIsInOrder` | crates/client/src/event_stream.rs:324-345 | `next` takes its out-of-order branch exactly when an earlier `cancel` on the stream discarded something; if every drain found its actor stopped, the branch is never taken and the byte subtraction never saturates |
| `Resumption.DeliversNextOfLog` | crates/client/src/event_stream.rs:324-345 | a delivery in order is the log's next event and leaves completion alone |
| `Resumption.CompletionIsFinal` | crates/client/src/event_stream.rs:1256-1263 | once completion has left `Active` it never changes for that stream, as long as every drain found its actor stopped |
| `Resumption.LeavesActiveOnce` | crates/client/src/event_stream.rs:1256-1263 | completion never returns to `Active`, whatever the actor does |
| `Resumption.CompletionChangesOnlyLate` | crates/client/src/event_stream.rs:334-341 | the exact steps that overwrite an end: a terminal that arrives after it, and an event that `next` finds out of order; both only after a drain that came before its actor had stopped |
| `Resumption.LateEventIsOutOfOrder` | crates/client/src/event_stream.rs:445-454 | a run in which an actor outlives `cancel`: its last event makes `next` fail, and Cancelled becomes Failed |
| `Resumption.LateTerminalOverwrites` | crates/client/src/event_stream.rs:940-942 | a run in which its last message is a terminal, and Cancelled becomes Remote |
| `Resumption.ClosedQueueHasReason` | crates/client/src/event_stream.rs:347-369 | outside a call of `cancel` the queue is never closed on an active stream, and a remote completion has its terminal |
| `Resumption.CleanEndIsComplete` | crates/client/src/event_stream.rs:321-369 | a clean end comes after the replay boundary; it comes after every received event was delivered, the last one a session end (or nothing was left to replay), if and only if at the moment each `cancel` drained the stream the received and delivered cursors agreed |
| `Resumption.CancelMakesCleanEnd` | crates/client/src/event_stream.rs:409-418 | cancelling a stream that the server has ended makes `next` answer a clean end, truthfully exactly when the cursors agree at that moment |
| `Resumption.CleanEndShowsInCursors` | crates/client/src/event_stream.rs:304-318 | at a clean end everything received was delivered if and only if the public received and delivered cursors agree then |
| `Resumption.LookBeforeCancel` | crates/client/src/event_stream.rs:304-318 | a caller that sees the terminal and then reads the two cursors knows the state at its later `cancel`: agreement lasts, and with nothing delivered in between so does disagreement |
| `Resumption.LookingMakesCleanEndComplete` | crates/client/src/event_stream.rs:304-318 | a clean end is complete when the caller looked like that, and found agreement, before each `cancel` |
| `Resumption.LookingEarlyIsNotEnough` | crates/client/src/event_stream.rs:445-455 | agreement seen while the stream is still active promises nothing: in the same run the event and the terminal arrive between the look and the `cancel` |
| `Resumption.CancelledEndLooksClean` | crates/client/src/event_stream.rs:321-323 | a concrete run in which the documented promise fails: one queued event, a session-ended terminal, `cancel`, clean end, nothing delivered |
| `Resumption.RunInv` | crates/client/src/event_stream.rs:153-189 | cursors, queue, byte count, actor, completion and logs agree in every state of every run, also when an actor outlives a `cancel` |
| `EventStream.EventStream.AcceptEvent` | crates/client/src/event_stream.rs:803-887 | which notification is refused with which error; an accepted one moves the received cursor even when it then finds no room |
| `EventStream.EventStream.AcceptTerminal` | crates/client/src/event_stream.rs:889-943 | which terminal is refused with which error; an accepted one completes the stream remotely |
| `EventStream.EventStream.DeliverInHand` | crates/client/src/event_stream.rs:324-345 | gives the byte room back and moves the delivered cursor by one, or fails the stream |
| `EventStream.EventStream.Confirm` | crates/client/src/event_stream.rs:373-407 | moves the confirmed cursor by exactly one delivered event of this stream, and changes nothing else |
| `EventStream.EventStream.SignalCancel` | crates/client/src/event_stream.rs:445-446 | a running actor has at most the message it is working on left |
| `EventStream.EventStream.DrainQueue` | crates/client/src/event_stream.rs:412 | the loop drops what is queued and leaves the byte count alone |
| `EventStream.EventStream.FinishCancel` | crates/client/src/event_stream.rs:413-417 | resets the byte count and completes an active stream locally; the confirmed cursor stays |
| `DeviceGate.StuckIffDeadlocked` | crates/android-adb/src/device.rs:340-372 | in a reachable state with begun operations nothing can go on (unless one gives up) exactly when an Action holding the write gate waits for a capture slot while all four slots are held by observations waiting for the gate |
| `DeviceGate.DeadlockPossibleIff` | crates/android-adb/src/device.rs:602-693 | that state is reachable if and only if the device is given at least four observations and one Action |
| `DeviceGate.DeadlockLasts` | crates/android-adb/src/device.rs:602-693 | in a deadlock only arrivals and cancellations happen; it ends exactly when one of its five members gives up |
| `DeviceGate.QuietMeansFinished` | crates/android-adb/src/device.rs:340-372 | with fewer than four observations or no Action, a run that has gone on as long as it can has finished every operation that began |
| `DeviceGate.RunsAreShort` | crates/android-adb/src/device.rs:340-372 | in every run, cancelled or failing operations included, the operations take at most nine steps each |
| `DeviceGate.CapturesBounded` | crates/android-adb/src/device.rs:33 | at most four captures are in progress in every state of every run |
| `DeviceGate.NothingBetweenSnapshots` | crates/android-adb/src/driver.rs:98-183 | between an Action's first snapshot command and a command of its second snapshot every ADB command or lifecycle change on the device is that Action's own |
| `DeviceGate.WriterIsAlone` | crates/android-adb/src/device.rs:664-693 | an operation holding the write side is the only one using the device |
| `DeviceGate.RunInv` | crates/android-adb/src/device.rs:602-693 | free slots plus holders are four, the reader count and the writer flag match the operations, and each fair queue holds exactly its waiters once |
| `DeviceHistory.VisibleMeansConnected` | crates/android-adb/src/device.rs:134-141 | in every history, with observations overlapping, a visibly connected device has had a successful connect, proved by its answers, since the last disconnect or lost transport |
| `DeviceHistory.NoCommandUntilConnected` | crates/android-adb/src/device.rs:544-551 | a command of an operation that began after the transport was lost or the device disconnected comes after a later successful connect, unless the operation is itself a connect |
| `DeviceHistory.RunInv` | crates/android-adb/src/device.rs:771-778 | every command belongs to an operation that began on a live connection or is connecting |
| `DeviceLifecycle.AndroidDevice.Connect` | crates/android-adb/src/device.rs:143-262 | at most 1 + 3 * reconnect attempts + boot checks + 3 commands; none on a visibly connected device; success means Ready, boot completed and a release that is not blank, read in that order after the last state report, and sets name and release from the last three answers; failure never leaves a disconnected device visible; the last state report is recorded, unless the attempt is cut short in front of it |
| `DeviceLifecycle.AndroidDevice.ConnectAnew` | crates/android-adb/src/device.rs:153-262 | the same from a device that is not connected |
| `DeviceLifecycle.AndroidDevice.ReconnectLoop` | crates/android-adb/src/device.rs:161-207 | three commands a round, and Ready only on a state report that says so |
| `DeviceLifecycle.AndroidDevice.FirstState` | crates/android-adb/src/device.rs:153-207 | the first state, by reconnecting when the device is offline or missing for a moment |
| `DeviceLifecycle.AndroidDevice.BootLoop` | crates/android-adb/src/device.rs:210-222 | only boot reads, at most the configured number, and success only on a completed boot |
| `DeviceLifecycle.AndroidDevice.Describe` | crates/android-adb/src/device.rs:233-247 | a blank release is refused; the three answers are returned trimmed |
| `DeviceLifecycle.AndroidDevice.Health` | crates/android-adb/src/device.rs:264-309 | no command on a device that is not visible; a loss of transport ends visibility; a successful check records the reported state and stays connected exactly on Ready and booted; any other outcome records nothing |
| `DeviceLifecycle.AndroidDevice.Disconnect` | crates/android-adb/src/device.rs:313-319 | ends the lifecycle and forgets a lost transport without any command |
| `DeviceLifecycle.AndroidDevice.Capture` | crates/android-adb/src/device.rs:374-500 | commands follow the capture's script, only on a visible device; a command that fails is the last one, and success means all of them and no failure |
| `DeviceLifecycle.AndroidDevice.Observe` | crates/android-adb/src/device.rs:340-358 | the same while other observations may lose the transport meanwhile |
| `DeviceLifecycle.AndroidDevice.Execute` | crates/android-adb/src/driver.rs:93-183 | first snapshot, one mutation, second snapshot, in that order; a command that fails is the last one, so each later part comes only after the one before succeeded |
| `DeviceLifecycle.AndroidDevice.IssueClassified` | crates/android-adb/src/device.rs:771-778 | the transport is marked lost exactly on the four connectivity errors, and never unmarked here |
| `DeviceLifecycle.AndroidDevice.Open` | crates/android-adb/src/device.rs:52-74 | a configuration out of range is refused; a new device is not connected |
| `Framing.ChunkingInvisible` | crates/client/src/framing.rs:29-88 | for any split of a byte stream the end state or error is that of the whole stream, frames released before an error are a prefix of its frames, and without error they are its frames |
| `Framing.SplitsAgree` | crates/client/src/framing.rs:29-88 | two splits of one stream agree on failure, error kind, frames and the partial line |
| `Framing.DecodeResumes` | crates/client/src/framing.rs:29-88 | decoding may stop at any byte and continue from the partial line alone |
| `Framing.ErrorIsFinal` | crates/client/src/framing.rs:105-109 | no continuation changes an error or the frames before it |
| `Framing.FramesBounded` | crates/client/src/framing.rs:56-72 | every frame is within the limit, validly encoded and free of line feeds |
| `Framing.RestBounded` | crates/client/src/framing.rs:75-88 | what stays buffered is at most one byte over the limit, holds no line feed and is the stream's end |
| `Framing.PrintedLinesDecode` | crates/client/src/framing.rs:29-88 | frames within the limits, written with either line ending, are read back unchanged |
| `Framing.Scan` | crates/client/src/framing.rs:38-85 | one pass from the scan position refines the line-by-line reading; the two later length checks cannot fire |
| `Framing.NdjsonDecoder.Push` | crates/client/src/framing.rs:29-88 | result and new state are those of the whole stream pushed so far |
| `Framing.NdjsonDecoder.Finish` | crates/client/src/framing.rs:90-103 | clean exactly when the stream ends behind a line feed |
| `Framing.NdjsonDecoder.Open` | crates/client/src/framing.rs:16-27 | a limit of zero is refused |
| `JsonSafety.ValidateValue` | crates/client/src/client.rs:1563-1565 | accepts exactly the values of at most 100000 nodes and 256 levels whose integers are all in the safe range; each refusal has its reason |
| `JsonSafety.ValidateParams` | crates/client/src/client.rs:1567-1576 | the same for parameters, each value one level down |
| `JsonSafety.ValidateTasks` | crates/client/src/client.rs:1578-1625 | the worklist loop refines the recursive definition and ends because the pending trees shrink |
| `JsonSafety.OrderIsIrrelevant` | crates/client/src/client.rs:1578-1625 | taking the pending values in any other order accepts the same values |
| `JsonSafety.VisitShrinks` | crates/client/src/client.rs:1578-1625 | visiting a value lowers the total size of the pending trees by one |
| `JsonSafety.VisitKeepsFit` | crates/client/src/client.rs:1578-1625 | visiting a value that is shallow and safe enough keeps the rest of the question |
| `JsonSafety.ParamsAgainstArray` | crates/client/src/client.rs:1567-1576 | checking parameters differs from checking the array that holds them by one node at the size limit |
| `PngPreflight.Preflight` | crates/android-adb/src/observation.rs:299-370 | accepts exactly the signature followed by the print of an acceptable chunk list: one final IEND, at most 4096 chunks, no APNG chunk, some IDAT bytes, a palette before image data when the last header is indexed |
| `PngPreflight.PreflightChunks` | crates/android-adb/src/observation.rs:304-370 | the loop gives the judgement of the parsed chunks, with its reason |
| `PngPreflight.NextChunk` | crates/android-adb/src/observation.rs:316-343 | one chunk is cut out exactly as the format lays it out; its offset arithmetic cannot overflow |
| `PngPreflight.JudgeAccepts` | crates/android-adb/src/observation.rs:299-370 | judging the parse accepts exactly the printed forms |
| `PngPreflight.JudgeDecides` | crates/android-adb/src/observation.rs:304-366 | the flags and counters kept from chunk to chunk decide the declarative conditions |
| `PngPreflight.PrintParses` | crates/android-adb/src/observation.rs:316-343 | printing and parsing give the chunks back |
| `PngPreflight.ParsePrints` | crates/android-adb/src/observation.rs:316-343 | bytes that parse whole are the print of what was parsed |
| `PngPreflight.OneReading` | crates/android-adb/src/observation.rs:299-370 | an accepted container has one reading |
| `PngPreflight.CheckLimits` | crates/android-adb/src/observation.rs:248-291 | accepts by dimensions and pixel count alone, except that pixels of more than 32 bits must also fit the frame budget |
| `PngPreflight.NoOverflow` | crates/android-adb/src/observation.rs:264-284 | none of the 64 bit products overflows once the dimensions are checked |
| `ZipPreflight.Preflight` | packaging/devicerail_release.py:1428-1510 | accepts, with n entries, exactly the archives of n: any prefix, the printed entries (at most 64, no ZIP64 marker, extra data that tiles), and an end record that describes them |
| `ZipPreflight.CheckDirectory` | packaging/devicerail_release.py:1477-1507 | the loop over the directory gives the judgement of its parsed entries |
| `ZipPreflight.NextEntry` | packaging/devicerail_release.py:1480-1495 | one entry is unpacked exactly as the format lays it out |
| `ZipPreflight.CheckExtra` | packaging/devicerail_release.py:1413-1425 | clean exactly when the extra data is fields end to end, none of them ZIP64 |
| `ZipPreflight.JudgeAccepts` | packaging/devicerail_release.py:1428-1510 | the judgement accepts n exactly when some prefix and n entries print to the bytes |
| `ZipPreflight.CountedMeansDirectory` | packaging/devicerail_release.py:1477-1509 | the directory is counted as n exactly when it is the print of n allowed entries |
| `ZipPreflight.EntriesParse` | packaging/devicerail_release.py:1480-1507 | printing entries and parsing them gives them back |
| `ZipPreflight.EntriesPrint` | packaging/devicerail_release.py:1480-1507 | a directory that parses whole is the print of its entries |
| `ZipPreflight.PrintedEndIsRead` | packaging/devicerail_release.py:1437-1450 | printing an end record and reading it gives it back |
| `ZipPreflight.OneReading` | packaging/devicerail_release.py:1428-1510 | an accepted archive has one prefix and one entry list |
| `ZipPreflight.OneTiling` | packaging/devicerail_release.py:1413-1425 | extra data tiles in one way |
| `SseClient.Client.Enqueue` | apps/live-visualizer/src/http-host.ts:478-494 | refuses and closes exactly when a limit would be passed; otherwise the frame is taken behind all earlier ones, and written at once when no pump runs |
| `SseClient.Client.Pump` | apps/live-visualizer/src/http-host.ts:511-558 | writes frames in order, keeps the counters the true sums, and ends only with an empty queue, a closed client or a wait, so its restart never acts |
| `SseClient.Client.Shift` | apps/live-visualizer/src/http-host.ts:514-518 | moving one frame to the socket keeps both sums exact and within the limits |
| `SseClient.Client.Written` | apps/live-visualizer/src/http-host.ts:519-524 | the callback gives back exactly what its frame took; the clamps at zero never act |
| `SseClient.Client.DrainSettled` | apps/live-visualizer/src/http-host.ts:525-547 | the one suspended pump goes on, or closes the client and writes nothing more |
| `SseClient.Client.Close` | apps/live-visualizer/src/http-host.ts:496-509 | closing empties queue and counters once |
| `SseClient.RevisionHub.Publish` | apps/live-visualizer/src/http-host.ts:599-603 | every client that stays connected takes the frame, a client that cannot is dropped; so each connected client has taken its greeting and then every frame published since, in order; event ids never fall and rise strictly below the largest safe integer |
| `SseClient.RevisionHub.Add` | apps/live-visualizer/src/http-host.ts:587-597 | a new client is greeted alone, with the next event id |
| `SseClient.RevisionHub.Close` | apps/live-visualizer/src/http-host.ts:605-609 | every client is closed and none stays |
| `SseClient.RevisionHub.TakeEventId` | apps/live-visualizer/src/http-host.ts:611-617 | ids rise by one up to the largest safe integer |
| `SseClient.RevisionHub.ClientWritten` | apps/live-visualizer/src/http-host.ts:592-594 | a client that closes itself leaves the hub; the others are untouched |
| `SseClient.RevisionHub.ClientDrained` | apps/live-visualizer/src/http-host.ts:592-594 | the same when a pump goes on or gives up |
| `VisualizerPump.Controller.Run` | apps/live-visualizer/src/controller.ts:327-389 | a log of n events causes at most 1 + maxResumeAttempts * (n + 1) opens, one wait before each but the first, every wait between the initial and the maximum delay; cursors that streams are opened after ascend and never pass the model; the model is the log's prefix that the cursor names |
| `VisualizerPump.Controller.Attempt` | apps/live-visualizer/src/controller.ts:331-350 | one stream, opened after the confirmed cursor; attempts start over exactly when it brought a new event |
| `VisualizerPump.Controller.Follow` | apps/live-visualizer/src/controller.ts:347-350 | items are accepted until one is not; ends because each makes the log's rest shorter |
| `VisualizerPump.Controller.Settle` | apps/live-visualizer/src/controller.ts:351-384 | another attempt only on a retryable error with attempts left, after the wait for that attempt; otherwise a final phase |
| `VisualizerPump.Controller.Accept` | apps/live-visualizer/src/controller.ts:391-423 | either the item's event becomes the model's next and the cursor moves to it, or neither moves |
| `VisualizerPump.LiveTimeline.Commit` | packages/live-visualizer/src/live-timeline.ts:223-299 | reserves the next event, or the pending one again; nothing is confirmed |
| `VisualizerPump.LiveTimeline.Confirm` | packages/live-visualizer/src/live-timeline.ts:301-334 | the pending event becomes the last entry |
| `VisualizerPump.BackoffWithin` | apps/live-visualizer/src/controller.ts:378-381 | waits start at the initial delay, never shrink, and stay within the maximum |
| `VisualizerPump.Budget` | apps/live-visualizer/src/controller.ts:369-375 | the attempts that one confirmed event buys pay for the opens since the event before it |

## Left out

- Sockets, the WebSocket handshake, TCP, child processes, ADB itself and the `select!` timing: each is a nondeterministic step or answer.
- JSON text, DEFLATE, checksums, SHA-256 and event fingerprints: JSON values are a datatype, a PNG checksum is any 32 bit number, and two events with the same fingerprint are the same event.
- Rejection of a cursor from another stream epoch when a stream is opened: it is the daemon's, and `Resumption` assumes it. A stream opened without a cursor may be on a new epoch of the same session log.
- A `cancel` or `resume` future that is dropped half way, and confirming on a stream handle that was already resumed from.
- That an automatic cancel is eventually sent: pumping is best effort in the code, so only "at most once" is claimed.
- `JsonSafety` treats a floating-point number as its exact value; the rounding of integers converted to doubles is not modelled, and no integer is decided by it.
- The line-by-line reading of the error output of a protected input command: the model takes its classified error as the answer.
- The poll interval between connect attempts and boot checks.
- Partial permits that a waiting writer of the gate has already collected: the model grants the gate to the head of its queue in one step.
- HTTP routing, request headers and the pages and state that the visualizer serves.
- VisualizerPump.LiveTimeline.Commit: the lifecycle and capacity checks may refuse any event; the timeline's index and page views are not part of this model.
- The release manifest, archive members, tar streams, signing, SBOM text and the command line of the release script.
- Reading geometry from `wm size` and `wm density`, screen coordinates, key tables and option range checks.
