# Dictate WS: a verified model

Dictate WS carries one dictated transcript from a Pebble watch (`src/c/main.c`) over PebbleKit JS on
the phone (`src/pkjs/`) to a WebSocket server (`dictation_websocket_server.py`), and one result back
to the watch. Both directions are cut into chunks, acknowledged one message at a time, and raced by
timers, cancellation and failures. This project models the three programs and the channels between
them in Dafny and proves what they promise, over all inputs and all runs.

`dafny verify dfyconfig.toml` checks everything.

## How it is organised

| files | content |
|---|---|
| `Unicode`, `Greedy` | UTF-8 (RFC 3629, sections 3 and 4), UTF-16 (RFC 2781, sections 2.1 and 2.2), greedy partition of a text |
| `Messages` | keys, constants, and how each platform turns one end's values into the other's |
| `WatchCodec`, `Protocol`, `Splitters` | the two halves of the codec, and their agreement |
| `WatchModel`, `WatchProofs`, `WatchFrames`, `WatchRuns`, `WatchLaws` | the watch as a state machine, its invariant, its frame, what holds of whole runs, and what each callback does |
| `WatchApp`, `WatchCallbacks` | the watch as a mutable object with two heap buffers, proved to run that state machine |
| `PhoneModel`, `PhoneProofs`, `PhoneSteps`, `PhoneFrames`, `PhoneRuns`, `PhoneLaws` | the same for transport, bridges, sessions and dispatcher of the phone |
| `PhoneApp`, `PhoneCallbacks`, `BridgeTimer` | the phone as mutable objects, proved to run that state machine |
| `Server` | the Python side: parsing, validation, at most one reply per request, one-shot exchange |
| `ResultTransfer`, `TranscriptTransfer` | round trips between watch and phone |
| `System`, `SystemProofs`, `EndToEnd` | the composed system, with an arbitrary network behind the phone: safety over every run |
| `Delivery`, `Service` | the runs that deliver; and the system with the Python server behind the phone's sockets, from microphone to screen |

A state machine is a record, one function per callback of the source, and a step relation whose
environment (answers of the platform, of the network and of the other end) is arbitrary. The classes
in `WatchApp` and `PhoneApp` have the source's fields and callbacks; every method's contract says that
the new state is what the corresponding function gives for the old one, and `WatchCallbacks.Handle`
and `PhoneCallbacks.Handle` tie whole events to the step relation and to its invariant. The theorems
are about the functions. `done` callbacks of the phone's transport are data (`Done`), so a delivery
that fails inside `sendAppMessage`, and whatever it closes or sends, is an ordinary nested call.

## What is assumed of the environment

- Each `sendAppMessage` that does not throw gets exactly one callback; a failure callback may follow
  an actual delivery. Each message accepted by the watch's outbox gets exactly one callback.
- Between watch and phone, in both directions, messages may be lost, delayed, reordered and repeated;
  only the watch's `SESSION_BEGIN` reaches the phone at most once, and a request identifier is
  used by one launch of the watch application only.
- `socket.send` may deliver any frames to `onmessage` before it returns, and may throw, but does not call
  `onerror` or `onclose` itself. `sendAppMessage` may throw, but does not call its callbacks before it
  returns.
- A timer may expire at any time while it is armed, and does not expire otherwise.
- JSON encoding and decoding keep the fields of an object; AppMessage keeps the fields of a
  dictionary, encodes JavaScript integers as signed 32-bit tuples and strings as NUL-terminated UTF-8.

## Findings

Where code and documentation differ the model follows the code. Each of the first seven properties is
false of the code: one member gives a reachable input, another the exact condition.

- *Every accepted result is displayed.* A response may contain U+0000: the server lets it through, the
  phone accepts and forwards it (`Server.NulIsAResult`), and the watch then reports a protocol error,
  because a C string ends there (`src/c/main.c:590`). `Service.CanDisplayIff` and `Delivery.ShownIff`
  give the exact condition for a result to be displayed, `ResultTransfer.ResultRoundTrip` the outcome otherwise.
- *An error display ends after five seconds.* If `SEND_STARTED` arrives in phase and its watchdog
  cannot be registered, the failure falls through to the progress status (`src/c/main.c:826-829`), which
  replaces the error display and its completion while it is still animating.
  `WatchRuns.ErrorCanStayForever` is such a run, `WatchRuns.ErrorExitsIff` the exact condition; afterwards
  an exit can still be lost if the animation is stopped before its end
  (`src/c/message_dialog.c:153-160`), and in no other way (`WatchRuns.ExitIsSettled`).
- *A displayed result means that the watch bridge is complete.* It is complete exactly until an inbox message
  is dropped, which marks it failed (`Delivery.DisplayWithFailedLink`, `WatchRuns.DisplayIsFinal`).
- *The active session of the phone is never closed.* `startSession` stores a session that failed while it
  was being constructed. `PhoneRuns.ActiveCanBeClosed` is such a run, `PhoneRuns.ActiveClosedIff` the exact
  condition for every event of every run.
- *A request fails at once when its socket is closing or closed* (`docs/functional-specification.md:452`).
  `trySend` returns silently then, exactly as it does while the socket connects. `PhoneRuns.ClosedSocketWaits`
  is such a run, `PhoneRuns.SentIffOpen` the exact condition, and `PhoneRuns.WaitingEnds` says how the handoff
  timer and `onclose` end the wait.
- *Every accepted request gets exactly one reply.* `dispatch` catches `Exception` only
  (`dictation_websocket_server.py:297`), and cancelling an exchange makes its handler end with
  `CancelledError`, which is no `Exception` since Python 3.8: nothing is sent, and the session stays dispatching.
  `Server.CancelledExchange` is such a case, `Server.ExchangeRepliesIff` and the contract of
  `Server.DictationWebSocketBridge.Dispatch` the exact condition.
- *The server accepts what the phone can send, and nothing else.* It accepts transcripts with lone surrogates, which
  the phone never sends (`Server.LoneSurrogateIsAccepted`, `Server.AcceptedIsFromPhoneIff`); and the phone
  would build a request with an empty transcript, which the server refuses (`Server.RequestIsAccepted`), but
  the watch never plans one.
- The repository's `README.md` names 20 seconds for the server's result, the code 60 (`src/pkjs/index.js:10`), and shows
  `respond(ServerResult(...))` where the code takes `respond(success, response)`.

## Model

| member | source | states |
|---|---|---|
| SystemProofs.TranscriptSafety | src/pkjs/websocket_bridge.js:97-129 | In every run of the composed system only one phone session has the watch's identifier, it calls `socket.send` at most once, and what it sends is the request with the watch's whole transcript |
| SystemProofs.ResultSafety | src/c/main.c:561-654 | In every run, a displayed result is the UTF-8 form of the whole response of one accepted, correlated frame, at most 1024 bytes and NUL-free, with its flag, after exactly one request with the whole transcript |
| Service.DisplayIsTheHandlers | dictation_websocket_server.py:291-337 | In every run in which the phone hears only the server's replies, late, repeated or reordered as they may be, a displayed result is the flag and the UTF-8 text that the handler returned for exactly the dictated text |
| Service.CanDisplayIff | dictation_websocket_server.py:273-337 | With the Python server behind the phone's socket, some run from a cooperative start displays a result for a plannable transcript if and only if the application's handler returns, for exactly the dictated text, a valid result without U+0000 |
| Service.NextKeepsServed | src/pkjs/websocket_bridge.js:74-79 | What the watch's own session has accepted is a reply to a request that it sent itself |
| SystemProofs.NextKeepsInv | src/pkjs/index.js:44-68 | Every step of watch, phone, channel, server or platform keeps the link between the two ends: the session holds only the watch's transcript, the watch only that session's result |
| SystemProofs.ChunkKeepsOwn | src/pkjs/protocol.js:162-200 | Whichever planned chunk arrives, in whatever order, a surviving session has assembled the next prefix of the plan or, after the last chunk, the whole transcript |
| SystemProofs.AcceptedIsStored | src/c/main.c:595-653 | An accepted result chunk is the next one, agrees with the first one's metadata, and is appended to what is stored |
| SystemProofs.HeardIsOwn | src/pkjs/watch_bridge.js:129-168 | Any result payload with the watch's identifier is a piece of what the watch's own session forwards |
| EndToEnd.HandlerHearsTheWatch | dictation_websocket_server.py:121-184 | Whatever a run sends for the watch is accepted by the server, whose handler gets the watch's identifier and exactly the dictated text |
| EndToEnd.ShownIsTheHandlers | dictation_websocket_server.py:291-337 | If the accepted frame is the server's reply to a request, the handler's result was valid and the watch displays its flag and its text in UTF-8 |
| EndToEnd.FailureRoundTrip | src/c/main.c:842-877 | A failure status from the phone is the watch's final status if it is one of 4 to 8, and a protocol error otherwise |
| EndToEnd.SocketFailureIsReported | src/pkjs/bridge_session.js:95-106 | Server, protocol, result timeout and transfer failures of the socket bridge are told apart by the watch's final status |
| Delivery.CanBeDelivered | src/pkjs/bridge_session.js:39-93 | For every plannable transcript and every result frame without U+0000 there is a run in which the watch captures that transcript, its session sends exactly one request, the one that carries the whole of it, accepts that frame as the only one that comes in, and the watch displays its response |
| Delivery.ShownIff | src/c/main.c:588-593 | A run that sends a plannable transcript and accepts a result frame can come to display its response if and only if that has no U+0000 |
| Delivery.DisplayWithFailedLink | src/c/main.c:884-888 | A concrete run with a displayed result and a failed link |
| Unicode.ClassifierIsRfc3629 | src/c/main.c:356-395 | The classifier recognises exactly the encodings of scalar values (RFC 3629, section 4) and reports their lengths |
| Unicode.Decode8Encode | src/c/main.c:515-526 | Every concatenation of encodings is accepted and segmented in one way only |
| Unicode.Decode8Concat | src/c/main.c:515-526 | Well-formed byte strings are closed under concatenation and decode piecewise |
| Unicode.Decode8Cut | src/c/main.c:397-415 | Cutting after any code points leaves two well-formed halves |
| Unicode.Decode16Encode | src/pkjs/protocol.js:71-100 | The UTF-16 form of every scalar sequence decodes to it (RFC 2781) |
| Unicode.ToJsTextWellFormed | src/pkjs/protocol.js:181-194 | Text that crosses from C to JavaScript is well formed, decodes to the same scalars, and is empty exactly when it was |
| Greedy.FitIsMaximal | src/c/main.c:397-415 | The greedy cut takes as many code points as fit and no more |
| Greedy.PartitionIsPartition | src/pkjs/protocol.js:232-256 | The greedy pieces reassemble to the text, are within the capacity, and none is empty |
| Greedy.GreedyIsOptimal | src/c/main.c:437-446 | No partition at code-point boundaries within the capacity has fewer pieces |
| Greedy.PiecesAreNearlyFull | src/pkjs/protocol.js:246-250 | With capacity M of at least 4 every piece but the last has at least M-3 bytes, which bounds their number |
| WatchCodec.ScanIsFit | src/c/main.c:397-415 | One forward scan over well-formed text stops at the greedy cut |
| WatchCodec.ScanIsWellFormed | src/c/main.c:400-412 | A nonzero scan has only passed over whole, well-formed code points that fit a chunk |
| WatchCodec.ChunksAreGreedy | src/c/main.c:437-446 | On well-formed text whose code points fit, repeated scans give the greedy partition |
| WatchCodec.ChunkedIsWellFormed | src/c/main.c:437-446 | Text that can be chunked is well formed and its code points fit |
| WatchCodec.PrepareAccepts | src/c/main.c:417-452 | Preparation succeeds exactly on nonempty, well-formed transcripts within 32 bits whose code points fit, with room for the metadata; then it plans the greedy partition |
| WatchCodec.ChunkFitsOutbox | src/c/main.c:423-435 | Every planned chunk fits the open outbox together with its metadata |
| WatchCodec.CapacityIsLargest | src/c/main.c:423-435 | A chunk may have exactly as many bytes as fit the outbox with the metadata and a tuple with the terminator |
| WatchCodec.SendPassAgrees | src/c/main.c:656-675 | Rescanning after any number of acknowledged chunks finds the next planned chunk, never empty, and the cuts end at the end of the transcript |
| Splitters.SplittersAgree | src/pkjs/protocol.js:223-257 | The C and JavaScript splitters cut at the same code points, into the fewest possible nonempty chunks |
| Protocol.Utf8ByteLength | src/pkjs/protocol.js:71-100 | Throws exactly on an unpaired surrogate, otherwise gives the length of the UTF-8 form |
| Protocol.Utf8LengthIsAdditive | src/pkjs/protocol.js:181-194 | Byte counts add up over well-formed chunks, so the total can be checked after reassembly |
| Protocol.SplitUtf8 | src/pkjs/protocol.js:223-257 | The loop gives the greedy partition of the text, or throws for malformed or oversized text, a bad chunk size, or a character that does not fit |
| Protocol.BuildServerResultChunks | src/pkjs/protocol.js:259-281 | The payloads of a response, numbered in order with its byte total, or an exception |
| Protocol.ResultPayloadsAreComplete | src/pkjs/protocol.js:259-281 | Exactly the acceptable responses have payloads: one to five, same metadata, nonempty texts of at most 256 bytes unless the response is empty, reassembling to the response |
| Protocol.TranscriptAssembler.Create | src/pkjs/protocol.js:150-160 | An assembler exists exactly for valid identifiers and starts empty |
| Protocol.TranscriptAssembler.AddChunk | src/pkjs/protocol.js:162-200 | The object takes a chunk, throws or completes exactly as the function about which round trip and exactness are proved |
| Protocol.TranscriptAssembler.Clear | src/pkjs/protocol.js:202-207 | Clearing gives the state of a new assembler |
| TranscriptTransfer.PlanIsReadable | src/c/main.c:417-452 | A planned transcript is well formed, its chunks are nonempty, well formed, no more than its bytes, and concatenate to it |
| TranscriptTransfer.ChunkReadsBack | src/pkjs/protocol.js:102-148 | The phone parses every planned chunk message as sent, its text transcoded |
| TranscriptTransfer.OthersReadBack | src/pkjs/protocol.js:102-148 | The phone parses `SESSION_BEGIN` and `SESSION_END` as sent |
| TranscriptTransfer.AddsNext | src/pkjs/protocol.js:162-200 | Planned chunk k is accepted after the first k and completes the transcript exactly when it is the last |
| TranscriptTransfer.TranscriptRoundTrip | src/pkjs/protocol.js:150-200 | Every planned transcript is reassembled, completing on the last chunk and no earlier, with the watch's byte total, and translates back to the same bytes |
| TranscriptTransfer.CompletesIff | src/pkjs/protocol.js:162-200 | A run of messages completes with a text, on its last message only, if and only if it is chunks 0 to n-1 of one transcript with that text and that byte total |
| TranscriptTransfer.ThrowsIff | src/pkjs/protocol.js:162-200 | After chunks 0 to k-1 a message is refused if and only if it is not the well-formed chunk k of the same transcript, or it is the last and the whole does not have the announced number of bytes |
| TranscriptTransfer.ParsedIffSent | src/pkjs/protocol.js:102-148 | The phone reads a payload as a message exactly when it carries what a watch sends for it |
| ResultTransfer.ReadBack | src/c/main.c:569-593 | The watch reads back a result payload as sent, or refuses it exactly when it contains U+0000 |
| ResultTransfer.ChunkIsReadIff | src/c/main.c:574-593 | The watch accepts a chunk exactly when its numbers are readable, consistent and bounded and its text is terminated, NUL-free and well formed |
| ResultTransfer.HeaderReadsBack | src/c/main.c:769-805 | A phone payload is taken as the watch's own exactly when it has its identifier, and its version and type are read as sent |
| ResultTransfer.ResultRoundTrip | src/c/main.c:561-654 | Every acceptable response reaches the display byte for byte with its flag if and only if it has no U+0000, otherwise the watch reports a protocol error |
| WatchProofs.StepKeepsInv | src/c/main.c:692-1062 | Every callback keeps the watch invariant, and while the session is active every callback that is not ignored ends it or decreases the termination measure |
| WatchProofs.InitEstablishesInv | src/c/main.c:1094-1162 | Every way initialization can go establishes the invariant |
| WatchProofs.SendNextKeepsInv | src/c/main.c:656-675 | The send pass hands over exactly the next planned chunk, or fails the session |
| WatchProofs.ReceiveFrame | src/c/main.c:561-654 | Reassembly touches nothing the outbox depends on, and leaves bridging only by showing the result |
| WatchFrames.ActiveFrame | src/c/main.c:656-1034 | While the session is active every callback keeps identity and captured transcript, keeps or drops the response, says at most one thing, names its cause if it fails the session, and then leads to the exit in all cases but one, unless it accepts a result chunk |
| WatchFrames.ErrorFrame | src/c/main.c:692-695 | In the error state callbacks change nothing but the outbox, the log by one message, and the display |
| WatchFrames.EndIsSaid | src/c/main.c:336-354 | A pending `SESSION_END` is handed over with the final status if the outbox is free and takes it, given up if it refuses, and kept if it is busy |
| WatchRuns.PhaseDiscipline | src/c/main.c:779-942 | In every reachable state each watchdog runs in exactly its phase, a transfer has a message in flight, buffers are owned exactly when in use, and terminal states have neither watchdog nor transcript |
| WatchRuns.OutboxLanguage | src/c/main.c:302-354 | The messages of any run are a prefix of begin, chunk 0, ..., chunk n-1, then at most one `SESSION_END`, last, with the final status |
| WatchRuns.OneMessageAtATime | src/c/main.c:890-942 | One callback hands over at most one message, and only when none is outstanding |
| WatchRuns.AcknowledgedChunkIsInPhase | src/c/main.c:912-917 | The branch for an acknowledged chunk outside the transfer is unreachable |
| WatchRuns.NoInfiniteActivity | src/c/main.c:779-1023 | No infinite run stays active: from any point it ends or meets an ignored callback, so nothing is retried |
| WatchRuns.ErrorExitsIff | src/c/main.c:826-829 | A callback that fails the session leads to the exit if and only if it is not `SEND_STARTED` in phase without a watchdog and with an animated status |
| WatchRuns.ExitIsSettled | src/c/main.c:677-690 | From the error state on, over any run, an exit is coming if and only if it was coming and no animation was stopped before its end: a lost one never comes back |
| WatchRuns.ErrorCanStayForever | src/c/main.c:824-830 | A concrete run that ends in an error display without an exit |
| WatchRuns.StatusNamesCause | src/c/main.c:179-222 | A callback that fails the session leaves exactly the status of its cause, as a function of state, event and platform: the failing outbox's own, a reported status from 4 to 8, a transfer error for a result chunk only if the platform alone is to blame for refusing it, and so on |
| WatchRuns.DisplayIsFinal | src/c/main.c:884-888 | From the callback that displays a result on, over any run, the displayed result and the log never change, and the link is complete unless an inbox message was dropped, and failed if one was |
| WatchLaws.FailureIsAnnounced | src/c/main.c:692-720 | In every run a callback that fails the session hands over `SESSION_END` with the final status as the last message if the outbox is free and takes it, and leaves it to be announced if the outbox is busy; and its display is timed, left at once, or still to come as the platform allows |
| WatchLaws.AnnouncementFollows | src/c/main.c:336-354 | In the error state the callback that frees the outbox hands over the `SESSION_END` that is still to come, if the outbox takes it; no other callback says it, loses it, or touches the outbox |
| WatchLaws.ForeignIsIgnored | src/c/main.c:785-794 | In every run a message with another request identifier changes nothing, whatever it says |
| WatchLaws.InboxLaw | src/c/main.c:779-882 | In every run a message to an active session is of another request and ignored, or exactly the one that is due and granted by the platform - `SEND_STARTED`, or the next result chunk with the first one's metadata, within its total and reaching it exactly on the last - and then advances it as stated, or fails it |
| WatchLaws.DictationLaw | src/c/main.c:967-1023 | A dictation with a transcript that can be sent is captured as spoken, and its first chunk is said at once if the session has begun; any other fails the session |
| WatchLaws.SentLaw | src/c/main.c:890-942 | An acknowledged message leads to dictation, to exactly the next message of the script, or after the last chunk to waiting for the send, and fails the session if the platform refuses |
| WatchLaws.OthersLaw | src/c/main.c:884-965 | A failed or dropped message, an expired watchdog and BACK fail every active session |
| WatchLaws.LeavingLaw | src/c/main.c:677-690 | After the end the application leaves exactly by its timer, by BACK from a result, or when an error display cannot be timed; the timer runs until it expires or the user touches a displayed result |
| WatchLaws.LaunchLaw | src/c/main.c:1121-1162 | A launch fails with the status of the first thing that goes wrong, saying what it must, or begins the session and dictates |
| WatchApp.ValidUtf8 | src/c/main.c:515-526 | Accepts exactly the byte strings that are concatenations of encoded scalar values |
| WatchApp.WatchApp.NextChunkLength | src/c/main.c:397-415 | The scanning loop computes the cut of the rest of the transcript |
| WatchApp.WatchApp.PrepareChunks | src/c/main.c:417-452 | The counting loop succeeds exactly when a plan exists and counts its chunks; the count never reaches its limit |
| WatchApp.WatchApp.SendChunk | src/c/main.c:454-489 | The message carries exactly the slice as a C string, the buffer is unchanged afterwards, and nothing changes if the outbox refuses |
| WatchApp.WatchApp.ReadChunkText | src/c/main.c:461-475 | With the byte after the slice temporarily NUL the C string read is the slice; the byte is restored |
| WatchApp.WatchApp.SendNextChunk | src/c/main.c:656-675 | The whole new state is `WatchModel.SendNextChunk` of the old one |
| WatchApp.WatchApp.TrySendSessionEnd | src/c/main.c:336-354 | The whole new state is `WatchModel.TrySendEnd` of the old one, which hands over `SESSION_END` exactly when it is pending, the outbox is free and takes it (`WatchFrames.EndIsSaid`) |
| WatchApp.WatchApp.Fail | src/c/main.c:692-720 | The whole new state is `WatchModel.Fail` of the old one, freeing both buffers |
| WatchApp.WatchApp.DictationStatus | src/c/main.c:967-1023 | The whole new state is `WatchModel.DictationEnded` of the old one; the transcript is copied into a fresh buffer, none being owned before |
| WatchApp.WatchApp.OutboxSent | src/c/main.c:890-942 | The whole new state is `WatchModel.OutboxSent` of the old one |
| WatchApp.WatchApp.OutboxFailed | src/c/main.c:944-965 | The whole new state is `WatchModel.OutboxFailed` of the old one |
| WatchApp.WatchApp.ReadResultChunk | src/c/main.c:569-593 | Computes the validated chunk or refuses it |
| WatchApp.WatchApp.CopyResponse | src/c/main.c:616-625 | The copy into the response buffer stays within it and appends the chunk |
| WatchApp.WatchApp.ReceiveServerResultChunk | src/c/main.c:561-654 | The whole new state is `WatchModel.ReceiveResultChunk` of the old one, in place, allocating only when no response is owned |
| WatchApp.WatchApp.ReceiveFailure | src/c/main.c:842-877 | The whole new state is `WatchModel.ReceiveFailure` of the old one |
| WatchApp.WatchApp.InboxReceived | src/c/main.c:779-882 | The whole new state is `WatchModel.InboxReceived` of the old one, about which `WatchLaws.InboxLaw` and `WatchLaws.ForeignIsIgnored` are proved |
| WatchApp.WatchApp.Launch | src/c/main.c:1121-1162 | The state after initialization is `WatchModel.Init` |
| WatchCallbacks.InvMatchesBuffers | src/c/main.c:258-278 | The invariant puts the buffers where the callbacks require them: while dictating nothing is being transferred, while transferring there is a transcript, no response is held before its first chunk, and one is held while it is received |
| WatchCallbacks.Handle | src/c/main.c:1116-1119 | The object runs one step of the state machine for every event and keeps the invariant |
| PhoneProofs.KeepSparesOthers | src/pkjs/watch_bridge.js:35-43 | Cancelling drops exactly the owner's entries and keeps the others' in order |
| PhoneProofs.CancelConserves | src/pkjs/watch_bridge.js:35-43 | Cancelling keeps every ticket accounted for and the queue in enqueue order |
| PhoneProofs.PumpKeepsInv | src/pkjs/watch_bridge.js:45-70 | Pumping keeps the invariant through any number of deliveries that fail inside the call |
| PhoneSteps.AcknowledgedIsLast | src/pkjs/watch_bridge.js:145-166 | An acknowledged result payload is the last thing its session has said, so the next one continues the word |
| PhoneSteps.FinishKeepsInv | src/pkjs/watch_bridge.js:52-56 | The callback of a delivery keeps the invariant, whatever `done` closes or sends |
| PhoneSteps.TrySendKeepsInv | src/pkjs/websocket_bridge.js:97-129 | Sending keeps the invariant, with frames that arrive inside the send and a send that throws |
| PhoneSteps.StepKeepsInv | src/pkjs/bridge_session.js:39-136 | Every event keeps the phone invariant: conservation, session phases, and what each session may say |
| PhoneFrames.TrySendFrame | src/pkjs/websocket_bridge.js:104-129 | Sending adds exactly the one request for the transcript at hand if the socket is open and nothing otherwise, changes no other session, revises no outcome, and accepts at most one of the frames it brings in |
| PhoneFrames.StepMild | src/pkjs/websocket_bridge.js:58-80 | No event but a watch message gives any session a new transcript or chunk, reopens it, revises its outcome or changes whether the active one is closed; the transport's history only grows and it is never left idle with work |
| PhoneRuns.EveryEntryHasOneFate | src/pkjs/watch_bridge.js:20-70 | In every reachable state each entry ever enqueued is exactly one of queued, in flight, completed or cancelled, at most one is in flight, and a free transport has an empty queue |
| PhoneRuns.FateIsFinal | src/pkjs/watch_bridge.js:52-56 | A completed or cancelled entry stays so: `done` is called at most once |
| PhoneRuns.TransmissionOrder | src/pkjs/watch_bridge.js:26-70 | What has been handed over before an entry is exactly what was enqueued before it and not cancelled |
| PhoneRuns.CancelIsExact | src/pkjs/watch_bridge.js:35-43 | Cancelling an owner cancels its waiting entries, keeps everyone else's, and touches neither `busy` nor the entry in flight |
| PhoneRuns.MessageLanguage | src/pkjs/bridge_session.js:66-125 | What a session has sent is an optional `SEND_STARTED`, then nothing, one `FAILURE`, or result chunks 0, 1, 2, ... of the accepted frame |
| PhoneRuns.OneAtATime | src/pkjs/watch_bridge.js:144-167 | A session's next message is handed over only after the previous one was acknowledged |
| PhoneRuns.ResultFollowsStart | src/pkjs/bridge_session.js:70-93 | Every result chunk follows an acknowledged `SEND_STARTED` of its session |
| PhoneRuns.NoSessionIsStranded | src/pkjs/bridge_session.js:112-125 | A session whose outcome is decided and that is not closed has a delivery outstanding |
| PhoneRuns.SocketDiscipline | src/pkjs/websocket_bridge.js:48-193 | Between events the result timer runs exactly while a result is awaited, the handoff timer exactly with an unsent transcript, a finished bridge has no timer or socket, and at most one result or failure is reported |
| PhoneRuns.BufferedFramesArriveLater | src/pkjs/websocket_bridge.js:74-129 | Frames that arrive inside `send` are handled in order as if they had arrived just after it |
| PhoneRuns.StepTakes | src/pkjs/websocket_bridge.js:74-80 | A frame that a session accepts came in on its own socket, with this event or inside the send of its own request |
| PhoneRuns.StoredSessionIsClosedIff | src/pkjs/index.js:18-38 | The session stored as active is closed exactly when its socket could not be constructed and a free transport refused its failure |
| PhoneRuns.ActiveClosedIff | src/pkjs/index.js:18-68 | After any event of any run the active session is closed if and only if it was before, or the event started a session that could not construct its socket while a free transport refused its failure |
| PhoneRuns.ActiveCanBeClosed | src/pkjs/index.js:18-38 | A concrete run after which the active session is closed |
| PhoneRuns.SentIffOpen | src/pkjs/websocket_bridge.js:97-104 | In every run the chunk that completes a transcript makes the session send the request within the same event if and only if its socket is open; otherwise nothing happens but that it waits, with its transcript and a handoff timer |
| PhoneRuns.ClosedSocketWaits | src/pkjs/websocket_bridge.js:97-104 | A concrete run, for every ready state but open, in which the complete transcript leaves the session waiting instead of failing it |
| PhoneRuns.WaitingEnds | src/pkjs/websocket_bridge.js:67-95 | A waiting session is ended by its handoff timer with a transfer failure and by its closing socket with a server failure, without having sent |
| PhoneRuns.BadChunkFails | src/pkjs/bridge_session.js:53-59 | A chunk the assembler refuses ends the session with a protocol failure before anything was sent |
| PhoneLaws.OneOpenSession | src/pkjs/index.js:18-38 | In every reachable state at most one session is open, and it is the active one |
| PhoneLaws.StartLaw | src/pkjs/index.js:18-38 | `SESSION_BEGIN` closes every session there was - socket detached, timers stopped, nothing left waiting, what was handed over untouched - and starts one that connects, or fails it as a server failure that is said |
| PhoneLaws.FailureIsReported | src/pkjs/websocket_bridge.js:170-181 | Whenever a socket breaks or closes or a timer runs out, in whatever live phase, the session is over with the status of that event as its outcome, and the failure message with that status is the last thing said; nothing else changes |
| PhoneLaws.FrameLaw | src/pkjs/protocol.js:283-344 | A frame for a waiting session changes nothing if it is not an object with the session's identifier; otherwise it is accepted, and its first payload said, if and only if it has the fields of a result the server could have built, ends the session as a server failure if it is an error with a code, and as a protocol failure in every other case |
| PhoneLaws.OtherFramesAreIgnored | src/pkjs/websocket_bridge.js:131-134 | A frame in any other phase changes nothing |
| PhoneLaws.SocketOpenLaw | src/pkjs/websocket_bridge.js:61-67 | When the socket opens a session with its transcript sends the request and says `SEND_STARTED`, or fails with a transfer failure if `send` throws; any other session only notes it |
| PhoneLaws.LastChunkSends | src/pkjs/websocket_bridge.js:83-122 | The chunk that completes a transcript makes the session send the request and say `SEND_STARTED`, or fail with a transfer failure if `send` throws |
| PhoneLaws.FramesWhileOpening | src/pkjs/websocket_bridge.js:74-129 | Frames that arrive while the opening socket makes the session send are heard as if they arrived one after the other just after it |
| PhoneLaws.FramesWhileCompleting | src/pkjs/websocket_bridge.js:74-129 | The same while the last chunk makes the session send |
| PhoneLaws.EndLaw | src/pkjs/bridge_session.js:39-46 | `SESSION_END` with the active session's identifier closes it from any live phase, detaches its socket, stops its timers and cancels what it has waiting, and changes nothing else |
| PhoneLaws.UnwantedFails | src/pkjs/bridge_session.js:47-63 | A message of the active session that it cannot take fails it with a protocol error that is said, and changes nothing once its outcome is decided |
| PhoneLaws.MalformedFails | src/pkjs/index.js:44-60 | A payload that is no message fails the active session with a protocol error if it names that session or nobody, and changes nothing otherwise |
| PhoneLaws.ForeignIsIgnored | src/pkjs/index.js:61-68 | A message of another session that starts none changes nothing |
| PhoneLaws.ChunkIsStored | src/pkjs/bridge_session.js:53-59 | A chunk that continues the transcript is stored and nothing else happens |
| PhoneLaws.DeliveryLaw | src/pkjs/watch_bridge.js:101-168 | A failed delivery closes its session; after a successful one the next payload of the accepted result is said, or the session closes after the last one or a failure, or nothing more is due |
| PhoneLaws.FailedDeliveryCloses | src/pkjs/watch_bridge.js:45-70 | Every delivery that failed, inside the call or later, has closed its session |
| PhoneLaws.WordSoFar | src/pkjs/bridge_session.js:66-125 | In every reachable state what a session has said or has waiting is exactly what its phase and outcome call for |
| PhoneApp.PhoneApp.Cancel | src/pkjs/watch_bridge.js:35-43 | The filtering loop computes `PhoneModel.Cancel`: the whole new state is that of the old one |
| PhoneApp.PhoneApp.Pump | src/pkjs/watch_bridge.js:45-70 | The whole new state is `PhoneModel.Pump` of the old one, however often a delivery fails inside the call |
| PhoneApp.PhoneApp.Enqueue | src/pkjs/watch_bridge.js:26-33 | The whole new state is `PhoneModel.Enqueue` of the old one |
| PhoneApp.PhoneApp.Finish | src/pkjs/watch_bridge.js:52-56 | The whole new state is `PhoneModel.Finish` of the old one |
| PhoneApp.PhoneApp.DeliverySucceeded | src/pkjs/watch_bridge.js:145-166 | The whole new state is `PhoneModel.DeliverySucceeded` of the old one |
| PhoneApp.PhoneApp.SendStatus | src/pkjs/watch_bridge.js:101-127 | The whole new state is `PhoneModel.SendStatus` of the old one |
| PhoneApp.PhoneApp.SendResult | src/pkjs/watch_bridge.js:129-168 | The whole new state is `PhoneModel.SendResult` of the old one |
| PhoneApp.PhoneApp.CloseSession | src/pkjs/bridge_session.js:127-136 | The whole new state is `PhoneModel.CloseSession` of the old one |
| PhoneApp.PhoneApp.FailSession | src/pkjs/bridge_session.js:112-125 | The whole new state is `PhoneModel.FailSession` of the old one |
| PhoneApp.PhoneApp.HandleServerEvent | src/pkjs/bridge_session.js:66-93 | The whole new state is `PhoneModel.HandleServerEvent` of the old one |
| PhoneApp.PhoneApp.HandleWatchMessage | src/pkjs/bridge_session.js:39-64 | The whole new state is `PhoneModel.HandleWatchMessage` of the old one, about which `PhoneLaws.EndLaw`, `UnwantedFails`, `ChunkIsStored` and `LastChunkSends` are proved |
| PhoneApp.PhoneApp.FailSocket | src/pkjs/websocket_bridge.js:170-181 | The whole new state is `PhoneModel.FailSocket` of the old one, about which `PhoneLaws.FailureIsReported` and `PhoneLaws.FrameLaw` are proved |
| PhoneApp.PhoneApp.HandleFrame | src/pkjs/websocket_bridge.js:131-150 | The whole new state is `PhoneModel.HandleFrame` of the old one |
| PhoneApp.PhoneApp.Replay | src/pkjs/websocket_bridge.js:124-128 | The loop over held-back frames computes `PhoneModel.Replay`: the whole new state is that of the old one |
| PhoneApp.PhoneApp.TrySend | src/pkjs/websocket_bridge.js:97-129 | The whole new state is `PhoneModel.TrySend` of the old one |
| PhoneApp.PhoneApp.SetTranscript | src/pkjs/websocket_bridge.js:83-95 | The whole new state is `PhoneModel.SetTranscript` of the old one |
| PhoneApp.PhoneApp.OpenSocket | src/pkjs/websocket_bridge.js:48-59 | The whole new state is `PhoneModel.OpenSocket` of the old one |
| PhoneApp.PhoneApp.StartSession | src/pkjs/index.js:18-38 | The whole new state is `PhoneModel.StartSession` of the old one, about which `PhoneLaws.StartLaw` and `PhoneLaws.OneOpenSession` are proved |
| PhoneApp.PhoneApp.OnAppMessage | src/pkjs/index.js:44-68 | The whole new state is `PhoneModel.OnAppMessage` of the old one |
| PhoneCallbacks.Handle | src/pkjs/index.js:44-68 | The objects run one step of the state machine for every event and keep the invariant |
| BridgeTimer.BridgeTimer.Start | src/pkjs/bridge_timer.js:9-16 | A start replaces an earlier one, so at most one timeout of the timer can still fire |
| BridgeTimer.BridgeTimer.Cancel | src/pkjs/bridge_timer.js:18-24 | After a cancel no timeout of the timer can fire |
| BridgeTimer.BridgeTimer.Expire | src/pkjs/bridge_timer.js:12-15 | A timeout that fires is the current one, never a cancelled or replaced one, and leaves the timer inactive |
| Server.DictationWebSocketBridge.HandleFrame | dictation_websocket_server.py:273-289 | One frame causes exactly the replies of `RepliesTo`, or a close with code 1008 and none when it names no request; what the call returns, raises or waits for, and how the session ends |
| Server.DictationWebSocketBridge.Dispatch | dictation_websocket_server.py:291-337 | One attempted reply if the handler returned or raised an `Exception`, and none if it was cancelled or is pending; complete exactly when a valid result was sent, dispatching exactly when there was no attempt, failed with the right error otherwise |
| Server.ParsedIsNamed | dictation_websocket_server.py:150-184 | An accepted request has a valid identifier and a nonempty transcript, and every rejection a valid error code and, if any, a valid identifier |
| Server.RequestIsAccepted | dictation_websocket_server.py:121-184 | Every request the phone can build is accepted with the same identifier and text, unless its transcript is empty |
| Server.AcceptedIsFromPhoneIff | dictation_websocket_server.py:121-184 | Of the requests that the server accepts, exactly those with an encodable transcript carry the fields of one that the phone could have built |
| Server.LoneSurrogateIsAccepted | dictation_websocket_server.py:176-184 | A concrete request that the server accepts and the phone could not have built |
| Server.FromPhoneIsAccepted | dictation_websocket_server.py:121-184 | Whatever else it carries, a frame with the fields of a request of the phone is accepted with its identifier and text, unless that is empty |
| Server.ReplyIsUnderstood | src/pkjs/protocol.js:283-344 | A frame causes one reply unless it names no request or its handler is pending or was cancelled; the phone takes every reply as a result, exactly when the handler's was valid and with the same content, or as a server error, never as a protocol error or unrelated (what it takes other frames for is `PhoneLaws.FrameLaw`) |
| Server.ErrorsNameTheirCause | dictation_websocket_server.py:121-184 | A frame is rejected for the first thing wrong with it, and whatever error the phone hears carries the code that names its cause, down to a handler that raised or returned something invalid |
| Server.ResultFramesAreServerResults | src/pkjs/protocol.js:322-339 | The phone takes a frame as a result exactly when it carries the fields of a result the server could have built |
| Server.NulIsAResult | src/pkjs/protocol.js:322-339 | A response with U+0000 is a result to the phone |
| Server.LimitsCoincide | dictation_websocket_server.py:187-200 | The server lets a text through exactly when the phone would accept it as a response |
| Server.ErrorIsServerError | dictation_websocket_server.py:221-233 | Every error payload reaches the phone as a server error of its request |
| Server.DictationExchange.Respond | dictation_websocket_server.py:367-370 | Resolves a pending exchange and raises on one that is resolved or cancelled |
| Server.DictationExchange.Cancel | dictation_websocket_server.py:375-377 | Cancels a pending exchange and leaves any other alone |
| Server.FirstCallDecides | dictation_websocket_server.py:367-377 | Whatever the application calls, its first call decides the exchange |
| Server.ExchangeRepliesIff | dictation_websocket_server.py:358-377 | A request that an exchange answers gets a reply if and only if the application's first call is `respond`, and then exactly the reply to that call's arguments |
| Server.CancelledExchange | dictation_websocket_server.py:439-445 | A concrete exchange that is cancelled while its request is pending: the exception leaves the bridge, nothing is sent, no error is recorded, and the session stays dispatching |

## Left out

- The message dialog (`src/c/message_dialog.c`), vibration, backlight, click configuration and scrolling:
  user interface. What is kept is that a status becomes visible at once or later or, if its animation is
  stopped, never, that a later status replaces it with its completion, and that showing a result may fail.
- `prv_deinit`, `shutting_down`, and an initialization that fails before AppMessage is opened: nothing runs
  afterwards.
- The request identifier's derivation from the clock: an identifier is any eight printable ASCII
  characters, and that no two sessions share one is an assumption.
- Durations: a timer is armed or not, and may expire whenever it is armed.
- The Pebble SDK's dictionaries and outbox: a dictionary is a map of tuples, a size of one byte plus seven
  and the value per tuple is taken from the SDK, and each call may be refused. Beginning, writing and
  sending an outbox message fail as one.
- JSON text, the WebSocket wire protocol, asyncio, the command line, logging and server start-up.
- Write-only state: the `error` fields of the phone's bridges, and closing the WebSocket itself
  (detaching a socket is modelled).
- Object identity on the phone: a session is known by its place in the order of creation, its two bridges
  are fields of one object, it holds its assembler by value, and its timers are flags that a timer
  event needs to be set (`BridgeTimer` is proved on its own to fire only while it runs). Sessions that are no longer active
  stay in the sequence, because late callbacks may still reach them.
- Repeated callbacks of one `sendAppMessage`: the transport would take a second one for another delivery.
- Concurrent frames on one server connection: frames are handled one after the other, as the connection loop
  does, and each attempted reply is a value rather than a text. A send that raises anything but a closed
  connection is an exception that leaves the bridge.
- Server.DictationWebSocketBridge.Dispatch: does not say what a pending handler does when it resumes; its outcome
  is given when the call is, as `Unfinished` if it never ends.
