# Reliable link, tool-exchange repair and stream translation

Three parts of the repository keep hard state, and this project models all three in Dafny.

**The device link** (`packages/device-link`) carries messages between two peers over a relay that may
drop, repeat and reorder frames. A sender numbers its messages, keeps at most sixty-four of them until
they are acknowledged, cuts long ones into segments, drops stale pushes from the front of its queue,
turns a timed-out request into a skip in place, and writes only over a confirmed link. A receiver puts
segments together, hands messages to the host strictly by number, jumps forward when the sender
announces that it has given up on earlier numbers, and acknowledges what the host has handled. The
two ends, the relay and the host are one step system: the relay is the set of every frame and every
ACK ever written, from which any element may arrive any number of times; timers, failing sockets and
the host's answers are steps and parameters that may take any value.

**Tool-exchange repair** (`packages/anthropic-compat-proxy`) rewrites a chat history so that every
tool call is followed at once by exactly one result of its own and no two calls share an id: results
are matched by position, then relayed from further on, then made up, unmatched ones are dropped, and
repeated ids are renamed. The definition here says for every single call which result answers it;
the passes of the program are shown to compute that. The byte transform that renames tool ids in a
response stream belongs to the same part.

**The Responses bridge** (`packages/anthropic-responses-bridge`) translates an upstream event stream,
in which the events of several items interleave, into a stream with one open content block at a time,
by holding events back. A collector folds that stream into a message, and the request side replays the
message upstream.

## How it is laid out

Each part has its definitions as functions, its laws as lemmas, and its objects as classes or methods
that are proved to change their state exactly as the functions say.

- Device link: `Text`, `Utf8`, `Sums`, `Transport`; `Receiver`, `ReceiverLaws`, `ReceiveStream`; `Sender`,
  `SenderLaws`, `PeerSender`; what each operation does, said without the helpers it is made of, in
  `ArrivalLaws`, `DrainLaws`, `AdmissionLaws`, `AckLaws`, `RetryLaws`; the history both ends are judged by
  in `Book`, `BookLaws`; the whole system in `DeviceLink`, with its theorems there and in `LinkTheorems`,
  `HeadOfLine`, `Reassembly`, `DrainRuns`, `WireBudget`, `ChargeLaws`; concrete runs into the corners in
  `CornerRuns` and `DriftRuns`.
- Repair: `History`, `Exchange`, `ExchangeLaws`, `ExchangeConserves`, `AnswersKept`, `Suffix`, `Dedupe`,
  `Structure`, `RepairOnce`, `CleanHistory`; the passes in `ExchangePasses`, `ExchangeRepair`,
  `DedupeRename`; the stream renamer in `ToolIds`, `ToolIdStream`, `ToolIdRewrite`.
- Bridge: `Translate`, `TranslateShape`, `StreamEnds`, `TranslateItems`, `OwnerSteps`, `BlockOwners`,
  `TranslateMeaning`, `BlockStarts`, `StreamOrder`, `TranslateJson`, `SseTranslator`; the beginning and the
  end of a stream in `StreamHeader`, `ForcedEnd`, `StreamTail`, `HeldCalls`; `Collect`, `CollectLaws`,
  `JsonMap`, `CollectStream`, `CollectEnd`, `WholeStream`; `Replay`, `ReplayWords`, `ReplayLaws`,
  `StreamReplay`.

## What is taken as given

- Text is a sequence of UTF-16 code units, measured in UTF-8 as section 3 of RFC 3629 lays down; a lone
  surrogate counts three bytes.
- JSON is a parameter: which texts are valid, which are the skip marker, how large a wrapped frame is on
  the wire (at least the text it carries), and, for tool arguments, a parser into canonical print.
  `GoodCodec` of the link says that the stream id fits and that the skip the sender writes is a skip to
  the receiver; `GoodCodec` of the tool-id stream says that a printed object shows the id put into it
  and has no raw line break.
- A text is blank or not by a parameter; `GoodBlank` says that the empty text is blank and that a
  concatenation is blank if and only if both parts are.
- The clock, the capacity of the socket, the outcome of a handler and the choice of what resumes a link
  are parameters of steps. An ACK may carry any link request id.

## What turned out not to hold as one might read it

- Byte accounting of the receiver. A skip for the very number whose handler is in flight replaces the
  held entry, or drops it where the skip finds no room, and the drain later subtracts the size of the old
  one (`client.ts:2264-2279`, `client.ts:2396`). `ReceiverLaws.OvertakingSkip` gives the exact change, up
  or down, and `LinkTheorems.BuffersHold` the account over every run: off by what such skips have left,
  and exact without them (`LinkTheorems.BuffersExact`). `DriftRuns.OvertakingSkipDrifts` is a run that
  drifts by any number of bytes below the limit, `DriftRuns.RefusedSkipPaysTwice` one in which a dropped
  entry is paid for a second time. Order and numbers are not affected, and neither are the other bounds.
- Room for the head of the line. A frame at the head is taken in if and only if it brings nothing new, or
  the drift, its own assembly and its bytes are within 16 MiB together (`ReceiverLaws.HeadRoomIff`,
  `HeadOfLine.HeadTakenIff`). That can fail: in the run of `DriftRuns.HeadRefused` nothing at all is held
  and the frame that is waited for is refused. Only messages larger than their skips, or skips that find
  no room, bring a drift down again.
- Protection of young pushes. The comment on `dropDiscardablePendingPrefix` says that a skip may always be
  dropped, while the code first asks for the kind of the envelope (`client.ts:3355-3361`): a push that has
  become a skip still counts as a push and is kept until it is old. `SenderLaws.SkipSweptIff` is the exact
  condition and `CornerRuns.YoungSkipStays` a run. The model follows the code.
- The queue's limit of 16 MiB. A permanent relay error turns the message with its id into a skip, also an
  answer or a push (`client.ts:2084-2091`), and only for invokes was room for the skip reserved:
  `CornerRuns.SkipOverflows` ends one byte above the limit. `WireBudget.QueueStaysWithinIff` says that the
  limit holds throughout a run if and only if each skip fits in the place of its message, as the skip of an
  invoke always does (`WireBudget.QueueStaysWithinForInvokes`).
- A call that is still held when its stream ends. What is held is then replayed in the order it came in,
  without regard to what is open (`translate-sse.ts:576-579`), so an event of another item can close the
  block of a held call and the rest of its arguments is dropped: `HeldCalls.HeldCallIsCut` is a stream of
  three calls in which that happens. `HeldCalls.EndSaysAllArguments` says that it happens if and only if
  some held event takes the open place from the call while it has more to tell. Texts and summaries are
  always told to the end (`StreamTail.EndSaysAllText`, `StreamTail.EndSaysAllThoughts`).
- A handler that fails. Its message stays where it is and is not tried again by itself, deliverable or not,
  unless a drain was asked for or the baseline has passed it (`client.ts:2389-2394`, `DrainRuns.FailureStops`).
- `push` keeps translating after a terminal event. Shape is claimed up to the first terminal event, as the
  consumer reads it; that there is exactly one is claimed for the whole run.
- Replay. An id with a hash in it, encrypted content that itself looks like an id header, and a tool call
  whose arguments are a bare `null` do not survive the round trip; `ReplayLaws.ReplayRoundTrip` and
  `StreamReplay.StreamComesBack` say that nothing else fails to.
- A thread remembers 8192 tool ids and then forgets the oldest: `ToolIds.ThreadNamesAreNewIff` says that
  the names a thread knows and the next ones it gives are all different, whatever is asked for, if and
  only if the cache can hold all but one of them; `ToolIds.ForgottenIdComesBack` shows one being given out
  again.
- A tool use whose mark lies beyond the first 512 bytes of its line keeps its old id
  (`tool-use-id-stream-rewrite.ts:182-185`, `ToolIdStream.HiddenIdPasses`); `ToolIdStream.StreamIdsAreNew`
  says exactly when the ids of a stream are new all the same.

## Model

| member | source | states |
|---|---|---|
| Text.ByteLengthConcat | packages/device-link/src/transport.ts:134-152 | Joining two texts adds their UTF-8 sizes, less two bytes where the cut rejoins a surrogate pair; so sizes never grow by joining |
| Text.MeasureBytes | packages/device-link/src/transport.ts:134-152 | The scan over code units computes the UTF-8 size |
| Utf8.ByteLengthIsUtf8 | packages/device-link/src/transport.ts:134-152 | The size of a text is the number of bytes of its UTF-8 form, written out by the table of section 3 of RFC 3629, a lone surrogate standing for the replacement character |
| Transport.SplitMessage | packages/device-link/src/transport.ts:154-182 | Chunks concatenate to the message with no code point split, none is above 128 KiB, one chunk suffices exactly when the message fits, and up to 4 MiB there are at most 33 |
| Transport.SplitUtf8 | packages/device-link/src/transport.ts:154-182 | The splitting loop produces the greedy split, and fails exactly when a code point is larger than a chunk |
| Transport.EncodeRoundTrip | packages/device-link/src/transport.ts:197-314 | Encoding succeeds exactly on valid numbers, a stream id and at most 4 MiB; every frame is then accepted by the parser and read back to its number, baseline, segment and chunk, exactly when the stream id is short enough |
| Transport.ParseIff | packages/device-link/src/transport.ts:244-314 | Exactly the wrappers of this version with a stream id and numbers in range, a baseline not above the number, and a consistent segment are accepted, and read for what they say |
| ReceiverLaws.IngestOrdered | packages/device-link/src/client.ts:2207-2352 | No arrival moves the stream back, delivers by itself or disturbs a handler in flight; ACKs sent name the last delivered number |
| ArrivalLaws.IngestIs | packages/device-link/src/client.ts:2207-2352 | What every frame leaves and what is acknowledged for it: numbers dealt with or too far ahead and repeats are only acknowledged; a whole message is kept if it fits, replaced by its skip, or refused; a segment joins, completes, contradicts or repeats its assembly; whatever becomes ready calls the drain; room is made only for the next number, by dropping no more of the highest entries than needed |
| ArrivalLaws.HeldStays | packages/device-link/src/client.ts:2207-2352 | A frame that announces no new baseline takes no other ready message away, unless it is the next one due |
| DrainLaws.StartDrainIs | packages/device-link/src/client.ts:2354-2413 | A drain deals with all the skips that come next, pays for each, and stops at the first message, which it hands out, or where nothing deliverable follows, and then acknowledges all it dealt with |
| DrainLaws.SettleIs | packages/device-link/src/client.ts:2381-2413 | A success takes its number out, a failure leaves it; then the stream jumps to its baseline and drains on as above, except after a failure that the baseline has not passed and no drain was asked for |
| DrainLaws.NothingLeftBehind | packages/device-link/src/client.ts:2354-2413 | After a drain or a success of an active end the next message is with its handler and no ACK was sent, or there is none to deliver and the one ACK sent covers everything dealt with |
| DrainRuns.NothingLeftWaiting | packages/device-link/src/client.ts:2354-2413 | The same after any run of the two ends |
| DrainRuns.FailureStops | packages/device-link/src/client.ts:2389-2394 | After any run, a failure with no drain asked for and no baseline passed leaves the stream idle with its number undelivered and acknowledges what came before |
| ReceiverLaws.SettleOrdered | packages/device-link/src/client.ts:2354-2413 | A successful handler is always the number right after everything delivered, its number can never be handed out again, and what is handed out next, if anything is, is a real message; what is handed out, and when, is DrainLaws.SettleIs |
| ReceiverLaws.IngestBuffers | packages/device-link/src/client.ts:2246-2348 | Every arrival keeps the window, the sixteen-entry bound, disjoint keys and the byte account, whatever the counter was off by; excepted are a skip overtaking its own handler, and a segment of that number once such a skip has dropped what was held |
| ReceiverLaws.SettleBuffers | packages/device-link/src/client.ts:2354-2413 | Settling a handler, well or badly, keeps the same bounds; the account moves only when a success pays for an entry that was replaced |
| ReceiverLaws.SuccessDrift | packages/device-link/src/client.ts:2385-2402 | After a success the byte counter is off by exactly what the head holds now minus what it held when delivery began |
| ReceiverLaws.OvertakingSkip | packages/device-link/src/client.ts:2256-2281 | A skip that overtakes its own handler takes the held message away and its place exactly when it fits beside the drift; all bounds stay, and after the handler succeeds the byte counter has moved by what the skip holds less what the message held |
| ReceiverLaws.HeadRoomIff | packages/device-link/src/client.ts:2450-2475 | The number right after the last delivered one finds room if and only if the drift of the byte counter, its own assembly and the new bytes are within 16 MiB together |
| ReceiverLaws.HeadRoom | packages/device-link/src/client.ts:2450-2475 | With a drift of at most the limit less one message and one chunk, the number right after the last delivered one always finds room |
| ReceiveStreams.ReceiveStream.Receive | packages/device-link/src/client.ts:2207-2352 | One frame changes the stream object, and sends ACKs, exactly as the definition of an arrival says |
| ReceiveStreams.ReceiveStream.ReserveCapacity | packages/device-link/src/client.ts:2450-2475 | The eviction loop ends, drops from the highest number down and only for the head of the line, and answers whether there is room |
| ReceiveStreams.ReceiveStream.IngestSegment | packages/device-link/src/client.ts:2290-2348 | A segment joins, completes, contradicts or repeats its assembly as defined |
| ReceiveStreams.ReceiveStream.CommitBase | packages/device-link/src/client.ts:3045-3063 | The baseline is committed, and what it gives up released, unless a handler below it is in flight |
| ReceiveStreams.ReceiveStream.DrainLoop | packages/device-link/src/client.ts:2354-2413 | The drain loop ends and hands out consecutive numbers until the host must be waited for |
| ReceiveStreams.ReceiveStream.SettleDelivery | packages/device-link/src/client.ts:2381-2413 | A settled handler changes the stream object, and sends ACKs, exactly as the definition says that DrainLaws.SettleIs and DrainLaws.NothingLeftBehind are about |
| SenderLaws.MakeRoomLaw | packages/device-link/src/client.ts:3347-3451 | Making room for a message removes a prefix of the queue that holds no live invoke and no live result |
| SenderLaws.ExpiredPrefix | packages/device-link/src/client.ts:3347-3371 | Sweeping removes exactly the longest prefix of messages that have expired |
| SenderLaws.SkipSweptIff | packages/device-link/src/client.ts:3355-3361 | A skip at the front is swept out if and only if it is no push or an old one |
| CornerRuns.YoungSkipStays | packages/device-link/src/client.ts:3355-3361 | A run in which a push given up at once is a skip that stays while it is young |
| SenderLaws.SendMessageLaw | packages/device-link/src/client.ts:2505-2635 | Sending appends exactly one message with the next number or changes no number at all; what is dropped for it is a discardable prefix while the link is open; a message that is refused leaves nothing on the wire and its number free |
| AdmissionLaws.SendMessageIs | packages/device-link/src/client.ts:2505-2635 | The whole answer to a message: refused for good, refused for now, or the last in the queue with its charge and as many of its frames written as the socket takes, and never queued if none gets out; a stalled queue is given up first; what else goes is `WayIsMade` |
| AdmissionLaws.WayIsMade | packages/device-link/src/client.ts:3347-3451 | What goes out of the queue for a message: nothing if it fits; for a result the longest stale prefix; for a mirror the fewest mirrors and skips that make room, or all at the front; for the rest the longest expired prefix |
| SenderLaws.HandleAckLaw | packages/device-link/src/client.ts:3240-3292 | An ACK removes only a prefix of acknowledged numbers, opens the link only when it answers the pending offer with a number in range, and what the resume drops is discardable; exactly what it removes is AckLaws.AckReleases |
| AckLaws.AckReleases | packages/device-link/src/client.ts:3275-3292 | On an open link a new ACK in range releases exactly the numbers it covers and nothing else; the first one of a recovery ends it and the rest is sent again at once; any other ACK changes nothing |
| AckLaws.AckLeaves | packages/device-link/src/client.ts:3275-3292 | After such an ACK it is the highest, no covered number is queued, every other message still is, and no recovery is on unless that pass gave the link up |
| AckLaws.AckAnswers | packages/device-link/src/client.ts:3240-3274 | While an offer is out, an ACK with its request id and a number in its range commits it and then counts on the link as it now is; any other changes nothing |
| AckLaws.CommitOpens | packages/device-link/src/client.ts:3653-3681 | A committed link is open; unless it already was, the longest stale prefix is dropped and the rest replayed, in recovery and with fresh attempts as the plan says |
| AckLaws.ReplaySends | packages/device-link/src/client.ts:3698-3735 | A replay drops exactly the longest stale prefix and sends the rest without waiting for its interval |
| AckLaws.OfferTakenBack | packages/device-link/src/client.ts:3596-3651 | An offer asks for an ACK from just below the baseline on, and taking it back leaves the link as it was before the first offer still out |
| AckLaws.ClosedIsSilent | packages/device-link/src/client.ts:2149-2185 | A closed sender holds nothing, refuses every message, and writes nothing on an ACK, a timer or a replay; negotiated again it starts with an empty queue and goes on counting |
| AckLaws.LostLinkKeepsQueue | packages/device-link/src/client.ts:1545-1562 | A lost link keeps the whole queue and writes nothing, and after a lost connection a recovery is due |
| AckLaws.NegotiationKeepsOrDrops | packages/device-link/src/client.ts:3104-3120 | A peer without the reliable transport gives up the queue; one with it keeps queue and link |
| SenderLaws.SkipRequestLaw | packages/device-link/src/client.ts:1371-1412 | A request given up keeps its number and place and becomes a skip; no other message changes; nothing is written while the link is not open |
| AdmissionLaws.SkipRequestIs | packages/device-link/src/client.ts:1371-1412 | The first message of the id given up becomes the skip, not yet tried, in its place and under its number, and is written at once when the link is open and the peer there; without such a message nothing changes |
| SenderLaws.SkipNeverGrowsInvoke | packages/device-link/src/client.ts:2684-2699 | Replacing an invoke by its skip never grows the charged bytes |
| SenderLaws.EstimateCovers | packages/device-link/src/client.ts:3540-3542 | The frame estimate from the charged size is never below the number of frames the split makes |
| RetryLaws.EstimateIsLeast | packages/device-link/src/client.ts:3540-3542 | The estimate is the least positive number of full chunks that hold the charged size |
| ChargeLaws.ChargeCovers | packages/device-link/src/client.ts:2684-2699 | What a message, or the skip in its place, is charged covers its frames under every baseline it can announce |
| ChargeLaws.CounterCoversQueue | packages/device-link/src/client.ts:2684-2699 | After any run, writing the whole queue takes no more bytes than its counter says |
| SenderLaws.RetryPassBound | packages/device-link/src/client.ts:3502-3538 | One retry pass writes at most its budget of frames, or else only frames of one message |
| RetryLaws.RetryPassIs | packages/device-link/src/client.ts:3468-3538 | The whole account of a pass: the entries that are due are written oldest first, each as far as the socket takes it, booked with one attempt more and the time; it ends with the queue or its budget, or at the first due entry that is out of attempts, held back, over the budget or not taken; entries not due keep everything |
| RetryLaws.OnlyTheDue | packages/device-link/src/client.ts:3502-3516 | Whatever a pass writes belongs to entries whose interval is over and that have attempts left, and only those change |
| RetryLaws.FirstDueDecides | packages/device-link/src/client.ts:3502-3530 | The first entry due, when out of attempts, takes the link down and nothing is written; held back by a recovery or not taken by the socket it leaves all as it is; otherwise what the socket takes of it is written first and booked |
| RetryLaws.AllDueWritten | packages/device-link/src/client.ts:3502-3538 | With attempts, socket and budget for all that is due, and no recovery on, a pass writes all frames of all entries due, in order, and nothing else |
| PeerSenders.PeerSender.Send | packages/device-link/src/client.ts:2505-2635 | Sending through the object changes its fields and writes frames exactly as defined, refusals and rollback included |
| PeerSenders.PeerSender.SendFrames | packages/device-link/src/client.ts:2642-2673 | Frames are written one by one until the socket fails; attempts and times are booked only if something got out |
| PeerSenders.PeerSender.DropDiscardablePrefix | packages/device-link/src/client.ts:3347-3371 | The loop removes the longest discardable, or expired, prefix as defined |
| PeerSenders.PeerSender.DropOldestForAdmission | packages/device-link/src/client.ts:3414-3451 | The loop removes discardable messages from the front only while the new one does not fit |
| PeerSenders.PeerSender.DropForRequest | packages/device-link/src/client.ts:1371-1412 | The request's message is replaced by a skip in place, and written if the link is open |
| PeerSenders.PeerSender.RetryPending | packages/device-link/src/client.ts:3468-3538 | The pass over the queue changes the object and writes exactly as the definition says that RetryLaws.RetryPassIs is about |
| PeerSenders.PeerSender.HandleTransportAck | packages/device-link/src/client.ts:3240-3292 | Confirmation, removal and the follow-up pass change the object and write exactly as the definition says that AckLaws.AckReleases and AckLaws.AckAnswers are about |
| PeerSenders.PeerSender.ReplayPending | packages/device-link/src/client.ts:3698-3735 | Replay after a resume drops the stale prefix, resets attempts and writes as defined |
| PeerSenders.PeerSender.CommitResume | packages/device-link/src/client.ts:3653-3681 | Confirming the sending direction opens the link and resumes the queue as planned |
| PeerSenders.PeerSender.BeginLinkConfirmation | packages/device-link/src/client.ts:3596-3651 | An offer is recorded together with the least ACK that may confirm it |
| PeerSenders.PeerSender.CancelLinkConfirmation | packages/device-link/src/client.ts:3824-3839 | Taking an offer back restores what the link was |
| DeviceLink.RunOk | packages/device-link/src/client.ts:2207-2635 | One invariant joins sender, receiver and every frame and ACK ever written, and every step keeps it |
| DeviceLink.NoSilentLoss | packages/device-link/src/client.ts:2354-3391 | After any run over any loss, repetition and reordering, every number assigned is still queued, was handled by the host, or was given up explicitly |
| DeviceLink.DeliveredInOrder | packages/device-link/src/client.ts:2354-2413 | In any run handled numbers strictly increase, so none is handled twice by one stream, and each handled text is the text queued under its number |
| DeviceLink.AcksAreEarned | packages/device-link/src/client.ts:3163-3292 | An ACK on the wire covers only numbers handled or given up |
| LinkTheorems.WritesNeedOpenLink | packages/device-link/src/client.ts:2945-2964 | With the link not open, no step writes a wrapped frame, and the link opens only by a matching ACK in range, the host's commit, or taking back an offer made while it was open |
| LinkTheorems.WindowHolds | packages/device-link/src/client.ts:2545-2635 | In any run the queue is the interval from baseline to next number, at most sixty-four long and exactly charged, and an offer is pending exactly while confirmation is awaited |
| LinkTheorems.OneMessagePerNumber | packages/device-link/src/client.ts:2618-2633 | Two frames ever written under one number carry one message, or the skip that took its place |
| LinkTheorems.FrameInWindow | packages/device-link/src/client.ts:2233-2254 | A frame of the sender never lies beyond the receive window unless a handler below the baseline is in flight |
| LinkTheorems.BuffersHold | packages/device-link/src/client.ts:2246-2488 | In any run held numbers lie in the window, none is held twice, at most sixteen are held, and the byte counter is at most 16 MiB and off by exactly what overtaken successes have left |
| LinkTheorems.BuffersExact | packages/device-link/src/client.ts:2246-2488 | Without an overtaking skip the byte counter is exactly the bytes held |
| DriftRuns.OvertakingSkipDrifts | packages/device-link/src/client.ts:2264-2396 | For any number of bytes below the limit, a run from the start after which the byte counter is wrong by that many |
| DriftRuns.RefusedSkipPaysTwice | packages/device-link/src/client.ts:2264-2279 | A run in which the overtaking skip finds no room, the message is dropped and then paid for again |
| HeadOfLine.HeadNeverRefused | packages/device-link/src/client.ts:2246-2348 | After any run that leaves the byte counter off by no more than the limit less one message and one chunk, whatever fills the buffers, a frame for the number right after the last delivered one is taken in |
| HeadOfLine.HeadTakenIff | packages/device-link/src/client.ts:2246-2348 | After any run, a frame at the head is taken in if and only if it brings nothing new or fits, drift included |
| DriftRuns.HeadRefused | packages/device-link/src/client.ts:2246-2281 | A run after which nothing is held and the frame waited for, on the wire, is refused |
| Reassembly.MessageCompletes | packages/device-link/src/client.ts:2290-2348 | Once every piece of the next message has arrived, in any order and repeated, whatever else both ends did in between, the message is ready as queued or was already handed to the host so |
| WireBudget.PassesStayInBudget | packages/device-link/src/client.ts:3502-3538 | After any run at all, any retry pass writes at most its budget of frames, or only frames of a single message |
| WireBudget.QueueStaysWithinIff | packages/device-link/src/client.ts:1371-1412 | The queue stays within 16 MiB throughout a run if and only if every skip fits in the place of its message when that is given up |
| WireBudget.QueueStaysWithinForInvokes | packages/device-link/src/client.ts:2684-2699 | Where only invokes are given up the queue stays within 16 MiB |
| CornerRuns.SkipOverflows | packages/device-link/src/client.ts:2084-2091 | A run in which giving up an answer takes the queue one byte above 16 MiB |
| History.FindLastMove | packages/anthropic-compat-proxy/src/transform.ts:778-791 | The scan finds the last message at which the conversation moved on |
| History.CountLeading | packages/anthropic-compat-proxy/src/transform.ts:793-797 | The scan counts the results a message starts with |
| ExchangeLaws.RebuiltWellPaired | packages/anthropic-compat-proxy/src/transform.ts:799-1011 | Any history, rebuilt, has every call before the last move answered once at the head of the next message and no unowned result |
| RepairOnce.RepairNoneIff | packages/anthropic-compat-proxy/src/transform.ts:799-966 | Repair leaves a history alone if and only if it is well paired, the trailing exchange exempt |
| RepairOnce.RepairIdempotent | packages/anthropic-compat-proxy/src/transform.ts:799-1011 | Repair finds nothing to do on its own output |
| ExchangeConserves.RepairKeepsWords | packages/anthropic-compat-proxy/src/transform.ts:968-1010 | The transcript survives: messages of others than the user, and everything users said apart from results and blank strings, all unchanged and in one order |
| ExchangeConserves.RepairConservesResults | packages/anthropic-compat-proxy/src/transform.ts:842-957 | Each result occurs in the output exactly as often as it answers a call or stands after the last move: none lost, repeated or left over |
| ExchangeConserves.AnswersDiffer | packages/anthropic-compat-proxy/src/transform.ts:842-945 | No result answers two calls |
| ExchangeConserves.UnansweredIff | packages/anthropic-compat-proxy/src/transform.ts:912-945 | A call goes without a result exactly when no unused result of its id stands before the next message calling that id |
| AnswersKept.AnswersFollow | packages/anthropic-compat-proxy/src/transform.ts:842-1010 | In the repaired history every calling message before the last move is followed by one that answers its calls: of each id, in the order of the calls, what answers them wherever it stood, and a made-up result where nothing does |
| AnswersKept.AnswerStays | packages/anthropic-compat-proxy/src/transform.ts:842-1010 | Repair changes no call's answer: matched again in the repaired history, each call has the answer it had before, or where it had none the made-up one, now in the very next message |
| ExchangeRepair.RepairAdjacency | packages/anthropic-compat-proxy/src/transform.ts:799-1011 | The passes over positions, pools and plans compute the repair, and report nothing to do on exactly the same histories |
| ExchangeRepair.PairByPosition | packages/anthropic-compat-proxy/src/transform.ts:842-878 | The position pass takes for each call the answer standing in the very next message |
| ExchangeRepair.Relay | packages/anthropic-compat-proxy/src/transform.ts:880-945 | The relay pass finds for every call left over its answer within its stretch, and makes one up only where there is none |
| ExchangeRepair.Assemble | packages/anthropic-compat-proxy/src/transform.ts:968-1010 | The output loop, carrying prepended results to the next user message, builds the rebuilt history |
| Dedupe.NamesDiffer | packages/anthropic-compat-proxy/src/transform.ts:627-698 | All calls end up with different ids |
| Dedupe.FirstKeepsName | packages/anthropic-compat-proxy/src/transform.ts:627-698 | The first call of an id keeps it |
| DedupeRename.DedupeToolUseIds | packages/anthropic-compat-proxy/src/transform.ts:627-698 | The counting, naming and rewriting passes compute the renaming, and report nothing exactly where no id repeats |
| Structure.RenamedAnswered | packages/anthropic-compat-proxy/src/transform.ts:660-698 | After renaming a well-paired history, each call before the last move is answered exactly once at the head of the next message, by the result that answered it before |
| Structure.RenamedWellPaired | packages/anthropic-compat-proxy/src/transform.ts:660-698 | Renaming keeps a well-paired history well paired |
| CleanHistory.StructureIsClean | packages/anthropic-compat-proxy/src/transform.ts:1064-1070 | Any history, repaired and then renamed, has unique call ids, each call before the last exchange answered once at the head of the next message, and no result without its call |
| CleanHistory.StructureIsStable | packages/anthropic-compat-proxy/src/transform.ts:1064-1070 | The whole repair finds nothing to do on its own output |
| ToolIds.NewNameIs | packages/anthropic-compat-proxy/src/tool-use-id-stream-rewrite.ts:119-137 | An unseen id is kept; a seen one gets the smallest free number of two or more |
| ToolIds.StreamNamesAreNew | packages/anthropic-compat-proxy/src/tool-use-id-stream-rewrite.ts:119-137 | One stream never gives a name twice, nor a name from its history |
| ToolIds.ThreadNamesAreNew | packages/anthropic-compat-proxy/src/server.ts:1354-1381 | Until the thread's cache has had to forget, and for one name more, no two streams of a thread are given the same name, in whatever order they ask |
| ToolIds.ThreadNamesAreNewIff | packages/anthropic-compat-proxy/src/server.ts:246-252 | The names a thread knows and the next n it gives are pairwise different, whatever is asked, if and only if together they are at most one more than the cache holds |
| ToolIds.ForgottenIdComesBack | packages/anthropic-compat-proxy/src/server.ts:246-252 | Once it is full, the oldest id is given out again |
| ToolIdStream.LineCarriesItsName | packages/anthropic-compat-proxy/src/tool-use-id-stream-rewrite.ts:144-199 | A line that starts a tool use, with its mark in the window, leaves with the resolved id and its own line break; every other line passes byte for byte |
| ToolIdStream.ChunksDoNotMatter | packages/anthropic-compat-proxy/src/tool-use-id-stream-rewrite.ts:214-248 | With no line above 4 MiB, the output is every line of the whole stream rewritten in turn, however the bytes are cut |
| ToolIdStream.SameBytesSameOutput | packages/anthropic-compat-proxy/src/tool-use-id-stream-rewrite.ts:214-248 | Two ways of cutting the same bytes give the same output |
| ToolIdStream.StreamIdsAreNew | packages/anthropic-compat-proxy/src/tool-use-id-stream-rewrite.ts:119-199 | The tool ids in a rewritten stream are pairwise different and outside the history if and only if this holds of the ids whose mark lies beyond the window and none of them is a name given to another; the names given always are |
| ToolIdStream.HiddenIdPasses | packages/anthropic-compat-proxy/src/tool-use-id-stream-rewrite.ts:182-185 | A tool use whose mark lies beyond the window passes unchanged even when its id is in the history |
| ToolIdRewrite.ToolUseIdDedupeRewriter.ResolveId | packages/anthropic-compat-proxy/src/tool-use-id-stream-rewrite.ts:119-137 | The search for a suffix ends and resolves as defined, and the thread's cache learns the name |
| ToolIdRewrite.ToolUseIdDedupeRewriter.RewriteSseLine | packages/anthropic-compat-proxy/src/tool-use-id-stream-rewrite.ts:144-199 | One line is recognised and rewritten as defined |
| ToolIdRewrite.ToolUseIdRewriteTransform.Transform | packages/anthropic-compat-proxy/src/tool-use-id-stream-rewrite.ts:214-235 | One chunk is cut into lines, rewritten, and its rest kept or let through, as defined |
| ToolIdRewrite.ToolUseIdRewriteTransform.Flush | packages/anthropic-compat-proxy/src/tool-use-id-stream-rewrite.ts:237-248 | The unfinished last line is rewritten at the end |
| StreamEnds.StreamIsLegal | packages/anthropic-responses-bridge/src/translate-sse.ts:127-246 | For every event sequence the output up to its first terminal event has the start first, blocks numbered in order, one open at a time, deltas of the right kind for the open block only, and every block closed at the end |
| StreamEnds.ExactlyOneEnd | packages/anthropic-responses-bridge/src/translate-sse.ts:574-643 | Over a whole run with its finish, exactly one terminal event is written |
| StreamHeader.StreamBegins | packages/anthropic-responses-bridge/src/translate-sse.ts:315-345 | A stream begins, once, with the id of the first response the upstream tells of and, unless it is fixed or not told, its model |
| StreamTail.EndComesLast | packages/anthropic-responses-bridge/src/translate-sse.ts:574-643 | Whatever was held, the end comes after everything else and once, with the error the upstream gave, or with its usage and the reason: out of tokens, or a tool use exactly if one was begun, or end of turn |
| StreamTail.NothingHeldAfterEnd | packages/anthropic-responses-bridge/src/translate-sse.ts:574-643 | After the first end of any event sequence nothing is held, and an end of input is the same as a failure |
| StreamTail.EndSaysAllText | packages/anthropic-responses-bridge/src/translate-sse.ts:574-643 | Before its end the stream has told all the text of every message that began, done or not, in its own blocks and in order, but for blanks at the very end |
| StreamTail.EndSaysAllThoughts | packages/anthropic-responses-bridge/src/translate-sse.ts:574-643 | And all of the summary of every reasoning item that began, but for blanks at its end |
| HeldCalls.EndSaysAllArguments | packages/anthropic-responses-bridge/src/translate-sse.ts:574-643 | And all arguments of every call that began, if and only if no event held at the end takes the open place from it while it has more to tell |
| HeldCalls.HeldCallIsCut | packages/anthropic-responses-bridge/src/translate-sse.ts:576-579 | A stream of three calls in which the second, held, loses its arguments at the end |
| TranslateItems.PushAllLog | packages/anthropic-responses-bridge/src/translate-sse.ts:127-174 | The deferral queue amounts to a reordering of the input that keeps each item's own order and never interrupts a call or a thinking block |
| BlockOwners.OneOwnerPerBlock | packages/anthropic-responses-bridge/src/translate-sse.ts:349-571 | Whatever arrives, each block belongs to the one item that began it: no event in it is about another item, and no event is about an item outside its blocks |
| BlockOwners.BlocksSpeakForTheirItem | packages/anthropic-responses-bridge/src/translate-sse.ts:127-174 | Under any interleaving, what a reader is told in the blocks of a reasoning item or a call is what its own events alone would have written |
| TranslateItems.NothingHeldAtTheEnd | packages/anthropic-responses-bridge/src/translate-sse.ts:151-174 | Once every item begun is done, nothing is held back |
| TranslateMeaning.CallSaysItsArguments | packages/anthropic-responses-bridge/src/translate-sse.ts:486-571 | Under any interleaving a call owns exactly one block: its id and name, then JSON pieces only, then its end; the JSON is the final arguments if and only if the deltas were a beginning of them |
| TranslateMeaning.ReasoningKeepsItsSignature | packages/anthropic-responses-bridge/src/translate-sse.ts:445-551 | Under any interleaving a reasoning item owns exactly one block, which is a start, pieces of its whole summary, its own signature and its end, or a redacted block with that signature, or it owns none |
| TranslateMeaning.MessageKeepsItsText | packages/anthropic-responses-bridge/src/translate-sse.ts:406-443 | Under any interleaving, the text of the blocks a message owns plus the blanks still pending is the text received |
| TranslateMeaning.MessageIsText | packages/anthropic-responses-bridge/src/translate-sse.ts:406-443 | The blocks a message owns begin as text and hold words only |
| BlockStarts.BlocksBeginVisibly | packages/anthropic-responses-bridge/src/translate-sse.ts:406-484 | Whatever arrives, every text block and every thinking block begins with a piece that is not blank |
| StreamOrder.BlocksInDoneOrder | packages/anthropic-responses-bridge/src/translate-sse.ts:127-174 | Under any interleaving, the blocks of calls and reasoning items stand in the order in which those items were done |
| StreamOrder.SomeOrder | packages/anthropic-responses-bridge/src/translate-sse.ts:151-174 | Every stream whose items are all done was handled in some order that keeps each item's own; so the theorems about such an order speak of every stream |
| StreamOrder.ArrivalOrder | packages/anthropic-responses-bridge/src/translate-sse.ts:127-174 | Items that do not interleave are handled exactly as they arrive |
| SseTranslators.SseTranslator.Push | packages/anthropic-responses-bridge/src/translate-sse.ts:127-174 | One upstream event changes the object and appends output exactly as the definition says that StreamTail.EndComesLast, StreamTail.EndSaysAllText and the theorems about items are about |
| SseTranslators.SseTranslator.DrainDeferred | packages/anthropic-responses-bridge/src/translate-sse.ts:151-174 | The replay loop ends and replays as defined |
| SseTranslators.SseTranslator.OnItemDone | packages/anthropic-responses-bridge/src/translate-sse.ts:503-571 | The end of an item is handled as defined |
| SseTranslators.SseTranslator.CloseAllOpenBlocks | packages/anthropic-responses-bridge/src/translate-sse.ts:635-643 | The loop over all blocks closes the one that can be open |
| SseTranslators.SseTranslator.Close | packages/anthropic-responses-bridge/src/translate-sse.ts:243-246 | An end without a terminal event becomes a failure |
| SseTranslators.SseTranslator.PushResponse | packages/anthropic-responses-bridge/src/translate-sse.ts:254-312 | A whole JSON response is translated as the stream it stands for |
| Collect.AnthropicMessageCollector.Push | packages/anthropic-responses-bridge/src/anthropic-message-collector.ts:31-64 | One event is folded in, or fails the collection, as defined |
| Collect.AnthropicMessageCollector.Finish | packages/anthropic-responses-bridge/src/anthropic-message-collector.ts:66-90 | The message is the blocks by number, if the stream ended properly and has any |
| CollectEnd.OnlyEndedCollect | packages/anthropic-responses-bridge/src/anthropic-message-collector.ts:31-90 | A message is collected only from a stream with a beginning that stops before any error; its header is that of the events up to the stop, and nothing later matters |
| CollectEnd.MessageHeader | packages/anthropic-responses-bridge/src/anthropic-message-collector.ts:31-90 | The message collected from a translated stream has the id and model the stream began with, the usage the upstream ended with, and the reason of its end |
| CollectStream.BlocksApart | packages/anthropic-responses-bridge/src/anthropic-message-collector.ts:31-64 | The collector keeps of every block what that block alone would leave, and refuses a stream exactly when one of its blocks would be refused |
| JsonMap.JsonIsAPlainMap | packages/anthropic-responses-bridge/src/translate-sse.ts:254-312 | Translating a finished response and collecting it is a plain map over its items, refused exactly when some arguments do not parse or nothing is left to show |
| Replay.MessageToInputItems | packages/anthropic-responses-bridge/src/translate-request.ts:130-228 | The loop with its buffer of parts builds exactly the items that ReplayWords.MessageSays is about |
| Replay.ItemsSayWhatBlocksSay | packages/anthropic-responses-bridge/src/translate-request.ts:146-228 | Collecting parts into messages moves nothing: the items say what each block alone would, in order, and no message is empty; what a block says is ReplayWords.MessageSays |
| ReplayWords.MessageSays | packages/anthropic-responses-bridge/src/translate-request.ts:130-228 | Written out block by block: texts as output of the assistant and input of anyone else, images with a URL in place, calls with their id, name and input, results with their call id and output, own reasoning with its id and encrypted content; in order, in the role of the speaker, and a plain string as one text |
| ReplayWords.CallsAndResultsKept | packages/anthropic-responses-bridge/src/translate-request.ts:168-185 | The results replayed are exactly the pairs of call id and output of the message's results, and the calls exactly its calls, in order |
| ReplayWords.RunIsOneMessage | packages/anthropic-responses-bridge/src/translate-request.ts:146-228 | Texts and images in a row go into one message |
| ReplayWords.BlockEndsMessage | packages/anthropic-responses-bridge/src/translate-request.ts:146-228 | Any other block ends the message before it, even one of which nothing is said |
| Replay.NoTwoMessagesInARow | packages/anthropic-responses-bridge/src/translate-request.ts:146-228 | Two messages in a row come only from a dropped reasoning block between them |
| ReplayLaws.BlobComesBack | packages/anthropic-responses-bridge/src/translate-request.ts:116-122 | A signature splits back into its id and encrypted content if and only if the id has no hash and bare content does not look like an id header |
| ReplayLaws.SignatureComesBack | packages/anthropic-responses-bridge/src/translate-request.ts:183-222 | A thinking or redacted block with that signature is replayed as the reasoning item it came from, under the same condition |
| ReplayLaws.ReplayRoundTrip | packages/anthropic-responses-bridge/src/translate-request.ts:130-228 | A finished response, translated, collected and replayed by the same provider, gives back its reasoning items and calls in order if and only if each of them is legible and no call's arguments are a bare null |
| StreamReplay.StreamComesBack | packages/anthropic-responses-bridge/src/translate-request.ts:130-228 | A stream of any interleaved items, each told to its end, then ended: it folds to a whole message if and only if all arguments parse and there is a block, and replayed gives back its reasoning items and calls in the order they were done if and only if each is legible and no call's arguments are a bare null |
| StreamReplay.SeparateItemsComeBackInOrder | packages/anthropic-responses-bridge/src/translate-request.ts:130-228 | Items that do not interleave come back in the order in which they arrived |

## Left out

- Outbound and inbound route ledgers (`client.ts:2741-2932`), link generations and the presence, notify and heartbeat machinery: bookkeeping around the transport.
- Repeated link confirmations and their timer (`client.ts:3163-3238`): an ACK may be sent, lost and repeated anyway, and may carry any request id.
- The legacy queue of unwrapped messages (`client.ts:1816-1887`) and best-effort envelopes.
- Several streams or several peers at once: one direction of one pair is modelled; a permanent close starts a new history.
- What an error says: codes and wording of refusals, how the translator finds the text of an upstream error and its own wording for a truncated stream (a fixed word), and the errors of the collector.
- ArrivalLaws.IngestIs: asks that no number is held both ready and in pieces and that no assembly held is complete, which LinkTheorems.BuffersHold says of every run.
- StreamTail.EndSaysAllThoughts: asks that an item is declared done at most once and last.
- Reassembly.MessageCompletes: asks that meanwhile no higher baseline, not the message's own skip and no forgetting of the stream end the wait for it, and that the byte counter leaves room; DriftRuns.HeadRefused is what happens otherwise.
- ReceiverLaws.IngestBuffers: excepts a segment of the number in flight after its entry was dropped; LinkTheorems.BuffersHold shows that no such segment is ever sent, because what a skip does not fit in place of was smaller than the skip.
- LinkTheorems.FrameInWindow: excepts a handler in flight below the baseline, because there the frame is refused and comes again.
- BlockOwners.BlocksSpeakForTheirItem: says nothing of message items, which may be split into several blocks; for them TranslateMeaning.MessageKeepsItsText keeps the text.
- ToolIdStream.ChunksDoNotMatter: one stream at a time; other streams of the thread may write to the cache between two chunks, which ToolIds.ThreadNamesAreNew covers.
- Replay.MessageToInputItems: takes an image as the URL it has or has not, and a tool result as its text; the conversions of both are not part of this model.
- StreamReplay.StreamComesBack: says which reasoning items and calls come back; messages, whose text may stand in several blocks, come back as Replay.ItemsSayWhatBlocksSay and TranslateMeaning.MessageKeepsItsText say. It asks that the deltas of a call are a beginning of its final arguments; TranslateMeaning.CallSaysItsArguments says what is written otherwise.
- Histories whose messages have neither string nor array content, and tool blocks with an empty or missing id, which the program treats as plain blocks.
- TranslateItems.Named: the theorems about single items, and so about replayed streams, speak of item events that carry an output index and of calls with a call id or an item id; for other events the translator counts or falls back to the block number, and only StreamEnds.StreamIsLegal, StreamEnds.ExactlyOneEnd and BlockOwners.OneOwnerPerBlock speak of them.
- Output indices that are not integers, and item ids that are not strings other than as missing.
- Usage figures are one opaque value; the mapping of their fields is not part of this model. So are tool declarations, tool choice, effort levels and the rest of a request.
- Which requests a response rewrite is switched on for (`tool-use-id-stream-rewrite.ts:78-93`), and the eviction of whole threads from the cache.
- Other strip handlers, 400-recovery rules, model-specific rewrites and all HTTP, WebSocket, proxy and logging code.
