# sleepyrouter, modelled and proved

sleepyrouter puts an ordered pool of LLM providers behind two client protocols, OpenAI Responses and Anthropic
Messages. This project models the parts where state and protocols meet and proves what they promise over every input,
every schedule and every history:

1. **The chat bridge** turns the chunks of a Chat Completions stream (text, refusal, reasoning, fragmented parallel tool
   calls) into numbered Responses events. `Bridge` is its meaning, a fold over the pieces of the chunks; `BridgeObject`
   is the pull iterator itself, an object with a queue and a tool table, proved to deliver exactly that. `ResponsesReader`
   is a strict client of the event stream written without looking at the bridge; it accepts everything the bridge sends.
   `ChunkContent` says what comes out from the fields of the chunks alone.
2. **The stream encoder** turns Responses events into the Anthropic stream. `Encoder` is its meaning, `EncoderObject` the
   mutable object with tool objects shared between two indexes. `MessagesReader` is what a Messages client does with the
   stream: it opens, extends and closes blocks and rejects anything out of order. It never rejects the encoder's output.
   `EncoderMeaning` says what the client is left with from the history of upstream events alone, for every history.
3. **Both in a row** (`Carry`, `CarryToEnd`), and both against the non-streaming mapping `ToMessage` (`Agreement`,
   `AgreementConverse`, `StreamEqualsMessage`), whose own meaning is `MessageMeaning`. On this agreement depends that a provider's hidden reasoning is found
   again in the next turn (`Continuity`, `Continuations`).
4. **Commit and failover**: collecting before commit, with a reader goroutine and a one-slot channel under an adversarial
   schedule (`Precommit`), the two commit machines (`CommitOpenAI`, `CommitAnthropic`) and when they commit, from what
   the events are (`CommitMeaning`), the four candidate loops (`Failover`) and the law they obey (`FailoverLaw`), the
   record a Hoard client sees (`RouteTrace`), and before them the order of groups read off the file
   (`GroupOrder`), validation, snapshots and reloads (`Configuration`), routing and affinity (`Routing`, `Affinity`).
5. **The conversation**: validation of Anthropic messages (`Conversation`), their translation to Responses items
   (`InputTranslation`) and on to chat messages (`ChatConversion`), the three together (`WholeConversation`), what becomes
   of the reasoning kept for each turn (`Markers`) and on which message it sits (`Placement`), which conversations get
   that far (`ChatReach`), and the whole way from the cache back into a request (`Recall`).

A loop or an object of the program is a method or a class here, proved equal to a function on values; the theorems are
about those functions, so they hold of the objects. What each function means is in turn proved against a reference
that shares nothing with it: a client that only reads the wire, or a definition on the fields of the input. `dafny verify
dfyconfig.toml` checks everything.

## Modelling choices

- JSON payloads are datatypes holding the fields the code reads. Whether a text is a JSON object, valid JSON or an
  acceptable URL is a predicate parameter (`valid`, `isObject`, `validJSON`, `urlFine`): every theorem holds for any
  such predicate, except where `valid("{}")` is asked for.
- A generated UUID is a fresh identifier that depends on a counter; a content fingerprint is a parameter, assumed
  injective only in `Continuity.ReplayHits`, where it must tell contents apart. Time is an integer parameter of every operation that reads the clock.
- The client's connection is an append-only log of events. Timers, pings, cancellation and the choice among ready select
  cases are arbitrary elements of a schedule; every theorem about the commit machines holds for every schedule.
- A chat tool call lives in a map of values, since no second reference to it exists in the program. An encoder tool is
  reachable through two maps, so it is a heap object; a ghost list keeps the objects in the order they were opened.
- A reply of a candidate is one of: it won, it failed with a class and status (before or after its stream was opened, with
  the request's context still open or ended), or the request could not be translated for it. The last exists only for
  Messages requests.

## What the proofs found

- **Stop reasons differ.** A response with both a refusal and a tool call that is not cut short ends the stream with
  `refusal` but is mapped to `tool_use`; in all other cases the two agree (`StreamEqualsMessage.StopReasonAgrees`; a
  refusal followed by one call is the example, `RefusedCallDisagrees`).
- **Streamed and mapped content differ** exactly when some text or refusal is scattered over the gaps between tool
  starts, when text and refusal share a gap, or when a name fragment or another id arrives after a call has started
  (`ContentAgrees`, with `LateTextDisagrees`, `MixedRefusalDisagrees` and `LateNameDisagrees` as the smallest examples).
  Then, and only then, the stored reasoning is looked up under another key (`Continuity.ReplayHits`); otherwise the
  turn is given all of it in the next request (`Continuity.ReplayRecalls`).
- **A non-streaming Responses request that is cut off misreports itself.** The loop looks at the request's context, which
  ends when the client goes away and also when the gateway's own request timeout passes. Either way it notes the failed
  call and then a second attempt "request cancelled by client", so the record claims a failover that never happened,
  exactly when the failure was not itself a client error (`RouteTrace.CancelledOnceMisreports`, `CancelledOnceExample`),
  and a timeout of the gateway is answered as a client error with status 400.
- **The four loops treat an ended context differently.** The Responses stream writes a 400 if the failure is classed as
  a client error, the Messages stream writes nothing once the stream was open, the non-streaming Responses loop always
  writes a 400, and the non-streaming Messages loop does not look (`FailoverLaw.StopsAt`, `FailoverLaw.AnswerMeans`).
- **Kept reasoning can go astray or be overwritten.** If an assistant turn yields no item, its marker is attached to an
  earlier assistant turn, or the whole conversion fails when there is none (`WholeConversation.MarkerOwner`,
  `Markers.SilentTurnGivesAway`, `Markers.SilentTurnFails`). Of the answers the gateway keeps reasoning for only one can
  be such a turn, the empty block list (`Continuity.SilentIsEmpty`), as a chat provider's answer of reasoning alone is.
  And a turn made of calls only is merged into the assistant message before it, whose reasoning it overwrites
  (`Markers.CallingTurnOverwrites`). Which reasoning is left in the end is `Markers.MarkersThatLast`, on which message it
  sits `Placement.ReasoningPlaced`, and when it makes the conversion fail `Placement.StrayReasoningFails`.
- **Turns with the same content share their reasoning.** The cache knows a turn only by its content, so of two equal
  answers in one session both are given the reasoning of the later (`Recall.TwinsShare`).
- **Validation by itself lets duplicates pass in groups outside the group order** (`Routing.UnorderedDuplicatesPass`), and
  only there (`Configuration.DuplicatesOutsideOrder`). No loaded configuration is like that, since its order comes from
  `GroupOrder.OrderedGroupKeys` and lists every group.
- **A model whose name has space around it validates and cannot be asked for by name**, since the requested name is
  trimmed and the configured one is not (`Routing.ReachableByName`); a group can still list it.
- **Every stream through the chat bridge is decided by its second event**, since any output item counts, one of reasoning
  shown to the client included (`CommitMeaning.BridgedReached`).
- The break out of the collecting loop at the end of the stream while output has been seen cannot be reached: the first
  such event commits (`Precommit.CollectGathered`).

## Model

| member | source | states |
|---|---|---|
| MessagesReader.AcceptedAt | internal/protocol/anthropic/stream.go:80-317 | Independent client: in any log it does not reject, a start carries the number of starts before it, a delta or stop names a started and unstopped block, nothing follows a terminal, and message_stop comes exactly after message_delta, at which point every block is stopped exactly once |
| MessagesReader.AcceptedIsFaithful | internal/protocol/anthropic/stream.go:190-255 | The block table a client builds is determined by counting: as many blocks as starts, closed iff stopped once, content equal to the concatenated fragments addressed to it |
| MessagesReader.AcceptedIsWellFormed | internal/protocol/anthropic/stream.go:80-317 | Every position of an accepted log is in order in the above sense |
| Encoder.HandleBodyIndexed | internal/protocol/anthropic/stream.go:124-174 | After any upstream event the item index and the output index still name exactly the same tools, each under its own key |
| EncoderTrace.EncodeSound | internal/protocol/anthropic/stream.go:80-317 | For every upstream event sequence, however malformed, the client accepts the log, and until the terminal its block table equals the encoder's own fields; a successful terminal reads as finished with the encoder's stop reason, an unsuccessful one as an error or as an answer cut short at max_tokens |
| EncoderTrace.EncodeWellFormed | internal/protocol/anthropic/stream.go:80-317 | For every upstream event sequence the log is well formed, and it contains a terminal event iff the encoder is terminal |
| EncoderTrace.FinishTerminates | internal/protocol/anthropic/stream.go:263-307 | Finishing always ends the stream: closed and finished with the given stop reason on success, otherwise with one error, although events already computed are discarded |
| EncoderObject.StreamEncoder.HandleResponsesEvent | internal/protocol/anthropic/stream.go:80-188 | The object's reaction to one event: new state, returned events and both tool indexes are those of the specification, whose effect on the client is EncoderMeaning.EncodeMeans |
| EncoderObject.StreamEncoder.StartEvents | internal/protocol/anthropic/stream.go:63-78 | message_start is sent once, whatever the number of calls |
| EncoderObject.StreamEncoder.TextDelta | internal/protocol/anthropic/stream.go:190-208 | Text goes to the open text block or opens the next one; everything but the three text fields is left alone |
| EncoderObject.StreamEncoder.CloseText | internal/protocol/anthropic/stream.go:210-216 | Stops the open text block, if any, and changes only that |
| EncoderObject.StreamEncoder.FindTool | internal/protocol/anthropic/stream.go:218-226 | The object found through an item id, or else through an output index, is the tool the specification names; null iff there is none |
| EncoderObject.StreamEncoder.ToolDelta | internal/protocol/anthropic/stream.go:228-234 | A fragment written through one index is seen through the other, and no other tool object changes |
| EncoderObject.StreamEncoder.FinishTool | internal/protocol/anthropic/stream.go:236-255 | Closing a tool once, with missing arguments supplied and contradicting ones refused |
| EncoderObject.StreamEncoder.OpenTool | internal/protocol/anthropic/stream.go:136-149 | A fresh tool object, listed in both indexes, takes the next block index after the text block is closed |
| EncoderObject.StreamEncoder.Finish | internal/protocol/anthropic/stream.go:263-307 | The finishing loop over the output indexes in ascending order, including the early failure that drops collected events |
| EncoderObject.StreamEncoder.Fail | internal/protocol/anthropic/stream.go:310-317 | One error, and none after a terminal |
| EncoderObject.SortedKeys | internal/protocol/anthropic/stream.go:268-272 | The indexes the finishing loop visits: ascending, and exactly the keys of the map |
| EncoderObject.EncodeStream | internal/protocol/anthropic/stream.go:63-188 | Driving the object over any stream yields the specified log and success flag, so EncoderMeaning.EncodeMeans and all other theorems about the specification hold of the object |
| EncoderMeaning.EncodeMeans | internal/protocol/anthropic/stream.go:80-317 | For every upstream event sequence the client is left with exactly what a stateless reference says from the events: runs of text as they were interrupted, every call where it was opened with what was sent for it (its fragments, else the first non-empty final arguments under either event name, else "{}"), the phase and its message or stop reason, and whether it was a success; each failure comes exactly when the reference says, contradicting final arguments and refusals among them, and leaves the blocks as they were |
| EncoderMeaning.SuccessTells | internal/protocol/anthropic/stream.go:236-307 | A successful stream has an event that completed it; no event before it failed, all arguments are valid, and every block is closed with what was sent for it |
| EncoderMeaning.ToldConserves | internal/protocol/anthropic/stream.go:107-149 | The blocks hold every opened call once, in order, and all visible text in its order |
| EncoderMeaning.ClosingCounts | internal/protocol/anthropic/stream.go:80-103 | A normal end is message_delta with, for each counter, the last value any event of the stream reported, cached tokens taken off the input, and then message_stop |
| Interleaving.BlockGetsItsOwn | internal/protocol/anthropic/stream.go:150-174 | Until the terminal, the fragments on a tool's block are exactly the fragments sent for that tool, in order, however tools interleave; a tool closed without any is excepted, as it was given its arguments in the end |
| Interleaving.FragmentsCommute | internal/protocol/anthropic/stream.go:88-158 | Swapping adjacent argument deltas of two different open tools, anywhere in a stream, changes neither the final encoder state nor the content of any block, if the two do not report different token counts |
| Interleaving.BlocksCommute | internal/protocol/anthropic/stream.go:88-158 | Whatever they report, the content of every block and all of the final state but the token counters stay; and right after the swap the counters do, too, iff the two do not report different counts |
| ResponsesReader.AcceptedNumbers | internal/protocol/openai/chat_stream.go:455-461 | Independent client: in any stream it accepts, event i has number i and items are announced with indexes 0, 1, 2, ... |
| ResponsesReader.AcceptedStreams | internal/protocol/openai/chat_stream.go:249-330 | What the strict client holds for an item is the concatenation of the deltas sent for its output index |
| BridgeShape.RunPlaced | internal/protocol/openai/chat_stream.go:208-330 | Over every chunk sequence the allocated output indexes and the fields that point at them agree, and at most one item of each single kind exists |
| BridgeShape.CallsStartedMeaning | internal/protocol/openai/chat_stream.go:310-312 | Every call has started iff every call that appeared was given an id and a name |
| BridgeGrammar.RunTracks | internal/protocol/openai/chat_stream.go:208-330 | While chunks last, the strict client's items are the bridge's, with the same streamed content; no other item is added while a reasoning item is open |
| BridgeGrammar.CompleteAccepted | internal/protocol/openai/chat_stream.go:120-198 | Every run that is brought to its end is accepted by the strict client through the final response: done payloads repeat the deltas, every item is closed once, and the final output lists item i at position i |
| BridgeGrammar.Numbered | internal/protocol/openai/chat_stream.go:455-461 | Over every run events are numbered 0, 1, 2, ... and items are announced with output indexes 0, 1, 2, ... |
| BridgeGrammar.Conserved | internal/protocol/openai/chat_stream.go:389-426 | Item n of the final response is the concatenation of exactly the deltas streamed for output n, "{}" standing for empty arguments; a reasoning item begins with its deltas |
| ChunkContent.ChunksSay | internal/protocol/openai/chat_stream.go:135-165 | For every chunk sequence: text, refusal, reasoning, finish reason and usage are what the fields of the first choices say, fragment by fragment, and a call exists iff some delta has its index, its name and arguments the concatenated fields of those deltas, its id the last non-empty one |
| ChunkContent.FinalSaysOnly | internal/protocol/openai/chat_stream.go:389-453 | Every item of the final response is one of those: the text, the refusal, the reasoning, or a call mentioned |
| ChunkContent.FinalSaysAll | internal/protocol/openai/chat_stream.go:389-453 | And every one of those that is not empty is an item of it |
| ChunkContent.FinalReports | internal/protocol/openai/chat_stream.go:428-453 | Status, cut-off reason and usage of the final response, from the last finish reason and the last usage that counts anything |
| ChunkContent.StartedMeans | internal/protocol/openai/chat_stream.go:310-312 | The stream can end well iff every call mentioned was given an id and a name |
| ChunkContent.StreamEnds | internal/protocol/openai/chat_stream.go:169-198 | The last event delivered is the final response, incomplete iff the last finish reason is length, iff the transport held and every call was given an id and a name; otherwise no event is |
| ChunkContent.OrderInChoice | internal/protocol/openai/chat_stream.go:137-162 | Within one choice items open in the order text, refusal, reasoning, calls as listed |
| ChunkContent.ReasoningInOrder | internal/protocol/openai/chat_stream.go:229-330 | Text, refusals and calls begin only when no reasoning is open, and closed reasoning is neither extended nor opened again |
| BridgeObject.ChatStream.Next | internal/protocol/openai/chat_stream.go:120-198 | One pull: up to the first false the iterator delivers the specified stream one event a call, and the first false comes exactly when all of it was delivered; after a failure it hands out what is left in the queue |
| BridgeObject.Drain | internal/protocol/openai/chat_stream.go:120-198 | Lazy equals eager: pulling until the first false delivers created, the chunk events in order and then the done events with the final one, or only the chunk events if the transport failed or a call stayed incomplete; it terminates, and all reasoning is kept; what these events hold is ChunkContent.FinalSaysAll and StreamEnds |
| BridgeObject.ChatStream.AddText | internal/protocol/openai/chat_stream.go:249-269 | A text delta closes open reasoning, opens the text item once and is queued behind it |
| BridgeObject.ChatStream.AddRefusal | internal/protocol/openai/chat_stream.go:271-291 | The same for refusals |
| BridgeObject.ChatStream.NoteReasoning | internal/protocol/openai/chat_stream.go:147-156 | Reasoning is always kept; it is only queued if exposed and not yet closed |
| BridgeObject.ChatStream.CloseReasoning | internal/protocol/openai/chat_stream.go:229-240 | Reasoning is closed once, with its content so far |
| BridgeObject.ChatStream.AddToolDelta | internal/protocol/openai/chat_stream.go:293-330 | Fragments of id, name and arguments merge into the table; the item starts once both id and name are known, with the arguments collected until then |
| BridgeObject.ChatStream.FinishOutput | internal/protocol/openai/chat_stream.go:332-387 | Done events in the order of output indexes; fails iff some call never got its id and name |
| BridgeObject.ChatStream.OutputItems | internal/protocol/openai/chat_stream.go:389-426 | The assembled output is slot by slot what was opened |
| BridgeObject.SortedIsSlots | internal/protocol/openai/chat_stream.go:420-425 | Entries collected from the fields and the table in any order are, once sorted by output index, item n at position n without gaps |
| HiddenReasoning.ReasoningStaysHidden | internal/protocol/openai/chat_stream.go:147-240 | Unexposed: chunk sequences that differ only in reasoning deliver the same events and the same final response |
| HiddenReasoning.AllReasoningKept | internal/protocol/openai/chat_stream.go:481-483 | The reasoning kept for the provider is the concatenation of all reasoning deltas of choice 0, exposed or not, also those after the item closed |
| Carry.RunFollows | internal/protocol/anthropic/stream.go:105-158 | After every chunk the encoder, fed the bridge's events, has not failed, and its tools and blocks are the bridge's calls and a transcript of text runs and calls in arrival order |
| CarryToEnd.BridgedStream | internal/protocol/anthropic/stream.go:80-307 | Bridge then encoder is total: over every run no duplicate, unmatched or mismatch failure occurs; it succeeds iff not cut short and all arguments are objects, ends in message_stop with max_tokens if cut short, and otherwise reports invalid arguments; the client's blocks are the transcript |
| CarryToEnd.ClosingEvents | internal/protocol/anthropic/stream.go:285-306 | A bridged stream that is not in error ends with one message_delta, carrying the stop reason and the final usage, and message_stop |
| ToMessage.ConvertResponse | internal/protocol/anthropic/response.go:12-130 | The loop computes the mapping of the items one by one, the first invalid arguments failing all of it |
| ToMessage.AppendParts | internal/protocol/anthropic/response.go:61-73 | Non-empty text and refusal parts become text blocks in order, and any refusal part is noticed |
| MessageMeaning.ConvertMeans | internal/protocol/anthropic/response.go:12-130 | For every response: mapped iff it is completed, silent about it or cut short at the output limit and all its calls have valid or no arguments, else the error says which; the message shows all text letter by letter and all calls, in item order, has no empty text block, and its stop reason and counts are those the fields call for |
| Agreement.GatheredAgrees | internal/protocol/openai/chat_stream.go:249-330 | If text and refusal were each gathered between two consecutive tool starts, and not in the same place, the client's transcript is the final item list |
| AgreementConverse.TranscriptIsItems | internal/protocol/openai/chat_stream.go:249-330 | And only then: transcript and item list are equal iff both were gathered |
| StreamEqualsMessage.ConvertFinal | internal/protocol/anthropic/response.go:40-102 | The mapping of a run's final response: the items in slot order, or the argument error, with the exact stop reason and usage |
| StreamEqualsMessage.StreamedContent | internal/protocol/anthropic/stream.go:80-307 | What a client is left with: the transcript under the identities announced, or nothing iff the arguments were invalid and the answer not cut short |
| StreamEqualsMessage.IdentitiesMeaning | internal/protocol/openai/chat_stream.go:301-306 | No late name fragment and a repeated last id iff every call ends with the identity it was announced with |
| StreamEqualsMessage.ContentAgrees | internal/protocol/anthropic/response.go:40-102 | Streamed and mapped content exist and are equal iff all arguments are objects, text and refusal were gathered, and identities kept; for every chunk sequence |
| StreamEqualsMessage.StopReasonAgrees | internal/protocol/anthropic/response.go:103-110 | Streamed and mapped stop reason are equal iff the answer was cut short or did not both refuse and call; otherwise they are refusal and tool_use |
| StreamEqualsMessage.UsageAgrees | internal/protocol/anthropic/stream.go:319-371 | The counters of the closing event are those of the mapped message |
| StreamEqualsMessage.ScatteredDisagrees | internal/protocol/anthropic/response.go:40-102 | With valid arguments, every run whose text or refusal was not gathered disagrees |
| StreamEqualsMessage.LateTextDisagrees | internal/protocol/openai/chat_stream.go:249-269 | Counterexample: text, a call, text |
| StreamEqualsMessage.MixedRefusalDisagrees | internal/protocol/openai/chat_stream.go:271-291 | Counterexample: text, then a refusal |
| StreamEqualsMessage.RenamedDisagrees | internal/protocol/openai/chat_stream.go:301-306 | With valid arguments, every run in which an identity changed after the start disagrees |
| StreamEqualsMessage.LateNameDisagrees | internal/protocol/openai/chat_stream.go:301-306 | Counterexample: a call and a later fragment of its name, text and refusal gathered |
| StreamEqualsMessage.RefusedCallDisagrees | internal/protocol/anthropic/response.go:103-110 | Counterexample: a refusal and a call, streamed as refusal, mapped as tool_use |
| Precommit.CollectGathered | internal/server/responses_stream.go:198-260 | Every turn of the collecting loop, under any choice of timer, cancel or event, keeps the buffer within its limits, commits at the first event that counts as output and at no other, and takes the stream's events in order; which events count is CommitMeaning.ResponsesDecide |
| CommitOpenAI.ReaderContract | internal/server/responses_stream.go:178-260 | Over every schedule of reader, channel and consumer: consumed, channel and hand are the first events of the stream, a closed, empty channel means all were consumed, the buffer holds at most 32 events, all but the last under 64 KiB, and giving up because nothing came means no event was meaningful |
| CommitAnthropic.ReaderContract | internal/server/messages_stream.go:151-224 | The same for the Messages stream |
| CommitOpenAI.AlwaysInv | internal/server/responses_stream.go:152-422 | The commit invariant over every schedule |
| CommitOpenAI.StreamContract | internal/server/responses_stream.go:152-422 | Over every schedule: nothing is written before commit; after it the client sees the optional routing event and the events taken, in order, none lost or doubled, a hoard's empty completion replaced; the run ends in exactly one terminal, which is last, or in none only if the client cancelled; success iff completed was passed on |
| CommitOpenAI.PlainShown | internal/server/responses_stream.go:345-364 | Without hoard every event is passed on as itself |
| CommitOpenAI.NumbersContinue | internal/server/responses_stream.go:291-304 | Corollary: if the upstream numbers its events 0, 1, 2, ..., the gateway's own error continues the numbering |
| CommitAnthropic.AlwaysInv | internal/server/messages_stream.go:125-366 | The commit invariant of the Messages stream over every schedule |
| CommitAnthropic.StreamContract | internal/server/messages_stream.go:125-366 | Over every schedule: nothing before commit; apart from pings the client sees what the encoder makes of the events taken, plus at most one gateway error; the log is always well formed and, unless the client cancelled, its last event is the terminal |
| CommitMeaning.ResponsesDecide | internal/upstream/stream.go:20-44 | In every schedule, from the bodies of events that are what they are called: an event received in time decides at once; text, refusals, arguments, items and parts being opened, extended or completed commit, as do a completed answer with visible output and an incomplete one; failures and answers of reasoning alone give up, each with its message; announcements, finished parts and reasoning wait |
| CommitMeaning.MessagesDecide | internal/server/messages_stream.go:168-224 | The same for the Messages stream |
| CommitMeaning.ResponsesPrompt | internal/server/responses_stream.go:197-260 | In every schedule: the buffer at commit ends with the stream's first event that does not wait; while undecided, when the buffer is full and when nothing came, only waiting events were taken |
| CommitMeaning.MessagesPrompt | internal/server/messages_stream.go:168-224 | The same for the Messages stream |
| CommitMeaning.ResponsesExplained | internal/server/responses_stream.go:197-260 | In every schedule whatever reason is given for giving up is true of what was taken, with the class that goes with it |
| CommitMeaning.MessagesExplained | internal/server/messages_stream.go:168-224 | The same for the Messages stream |
| CommitMeaning.ResponsesInterrupted | internal/server/responses_stream.go:197-240 | In every schedule: what each timer, a client that leaves, a full buffer, an end and a late event do to a stream that is still undecided |
| CommitMeaning.ResponsesReach | internal/server/responses_stream.go:178-260 | Progress: as long as the buffer has room, some schedule takes exactly the first n events, for every n up to the first that does not wait, and that one decides |
| CommitMeaning.MessagesReach | internal/server/messages_stream.go:151-224 | The same for the Messages stream |
| CommitMeaning.NextArrives | internal/server/responses_stream.go:181-193 | The reader can always bring the next event to a consumer that has not stopped it |
| CommitMeaning.BridgedReached | internal/protocol/openai/chat_stream.go:120-168 | A stream through the chat bridge is decided by its second event, which opens an item or ends the answer |
| CommitMeaning.ResponsesSent | internal/server/responses_stream.go:262-368 | In every schedule, once committed, the log entry by entry: the route first on a hoard request, each event taken as itself, except a completion without output on a hoard request, and at most one error of the gateway's own after them |
| CommitMeaning.ResponsesDrains | internal/server/responses_stream.go:370-422 | In every schedule, after commit: a client that leaves is told nothing; silence and an early end are told once, with their class and the next number; an event adds one entry, and the stream ends with it iff it is final |
| CommitMeaning.MessagesDrains | internal/server/messages_stream.go:288-366 | The same for the Messages stream, where the ticker writes a ping |
| CommitMeaning.ResponsesRecorded | internal/server/responses_stream.go:285-304 | In every schedule an ended stream is recorded as what the client saw: success exactly after the upstream's own completion, else the name of its last event or the class of the gateway's own error |
| CommitMeaning.MessagesRecorded | internal/server/messages_stream.go:265-343 | In every schedule: recorded as success only with a finished message, as incomplete if that was cut short, as the client's doing only if nothing ended it |
| Continuity.EndsLast | internal/protocol/anthropic/stream.go:80-83 | A bridged stream becomes terminal at its final event and no earlier |
| Continuity.NotedOnce | internal/server/messages_stream.go:238-247 | A bridged stream leaves one note, the mapped content and the reasoning, or none without reasoning or mapping |
| Continuity.SuccessNotes | internal/server/messages_stream.go:233-247 | In every schedule in which a bridged stream succeeds, all of it was read, all reasoning is noted under the mapped content, and that content is the client's iff text and refusal were gathered and identities kept |
| Continuity.ReplayHits | internal/server/messages_stream.go:368-389 | With reasoning, a success notes all of it, and the key it is stored under equals the key of the client's replay iff text and refusal were gathered and identities kept |
| Continuity.ReplayRecalls | internal/server/continuation.go:66-161 | From a stream into the next request: when the client sends back what it accumulated, within the lifetime and with nothing stored under the same key since, that turn is given the whole reasoning and all reasoning items, under the agreement condition |
| Continuity.SilentIsEmpty | internal/protocol/anthropic/response.go:40-102 | An answer the gateway maps yields no item when sent back iff it is empty |
| Failover.ServeResponsesStream | internal/server/responses_stream.go:18-133 | The loop for streamed Responses requests: which candidates are called, what each leaves in the attempt list, where it stops and what it answers |
| Failover.ServeMessagesStream | internal/server/messages_stream.go:17-123 | The same for streamed Messages requests |
| Failover.ServeMessagesOnce | internal/server/messages.go:76-148 | The same for non-streaming Messages requests |
| Failover.ExecuteNonStream | internal/protocol/openai/handler.go:42-86 | The same for the shared non-streaming loop, with the error it returns |
| Failover.ServeResponsesOnce | internal/server/responses.go:167-201 | Non-streaming Responses requests: that loop with the status its last error is given |
| Failover.AllKeyMissing | internal/server/responses.go:203-213 | True iff there were attempts and all of them were skipped |
| Failover.RejectedMeaning | internal/server/responses_stream.go:84-86 | A candidate counts as rejected iff an earlier candidate of its provider was really called and answered 401 or 403 |
| Failover.OrderedCalls | internal/server/responses_stream.go:24-132 | In every outcome of every handler calls go forward, each candidate at most once, never to a keyless provider nor to one that already rejected the credentials, and nothing is called after the position at which the request stops, which is FailoverLaw.StopsAt |
| Failover.AttemptPerCandidate | internal/server/responses_stream.go:24-132 | Each candidate passed over leaves exactly one attempt of its own, skipped iff not called; the winner's attempt number is its position counted from one; only a vanished client gets no answer |
| Failover.UnavailableMeans | internal/server/responses_stream.go:118-132 | When the candidates run out the status is 503 iff no upstream was called |
| FailoverLaw.StopsAt | internal/server/responses_stream.go:24-116 | All four handlers: a request stops at the first position that may be called and succeeds, is refused or fails in a way that ends it, which for each handler is spelled out; a position may be called iff its provider has a key and no earlier called position of it answered 401 or 403 |
| FailoverLaw.FailuresMoveOn | internal/server/messages.go:94-111 | All four handlers: a fault stops a request only if it is a client error or its context was over |
| FailoverLaw.FirstAnswerServes | internal/server/responses_stream.go:24-116 | All four handlers: if every earlier called candidate failed otherwise than by a client error and with the context open, the first that answers serves the request, under its own attempt number |
| FailoverLaw.AnswerMeans | internal/server/responses.go:167-201 | All four handlers: the answer or its absence, with status and message, from the reply at which the request stopped; and 503, 504 or 502 when the candidates ran out |
| FailoverLaw.AttemptsMean | internal/server/responses_stream.go:27-92 | All four handlers: every attempt's class, status and message are the reply's, or the reason for skipping; and exactly which positions were called |
| FailoverLaw.TraceReports | internal/server/hoard.go:121-168 | The routing record gives each candidate its reply's class and status, or why it was skipped |
| RouteTrace.Trace.Record | internal/server/hoard.go:121-168 | The record is rewritten whole from the attempts and the selected candidate |
| RouteTrace.UpstreamMeaning | internal/server/hoard.go:127-130 | With distinct models the upstream name in an entry is that candidate's |
| RouteTrace.CommitTrace | internal/server/responses_stream.go:66-70 | At commit: entries 1..n+1 in candidate order, failed_over true iff a later candidate was considered |
| RouteTrace.PostCommitTrace | internal/server/responses_stream.go:276-283 | Corollary: a failure after commit changes only the selected entry, to failed with its class and failed_over false |
| RouteTrace.ErrorTrace | internal/server/responses_stream.go:51-56 | In the record sent with an error, too, failed_over is true iff the loop went on to a later candidate |
| RouteTrace.CancelledOnceMisreports | internal/protocol/openai/handler.go:74-78 | For a failed non-streaming request the entry of the failing candidate is truthful iff the failure was a client error |
| RouteTrace.CancelledOnceExample | internal/protocol/openai/handler.go:74-78 | Counterexample: one candidate, a 502 as the context ends, an answer of 400 and an entry that claims a failover |
| Conversation.ValidateBlock | internal/protocol/anthropic/request.go:210-252 | One block is accepted iff its role and fields allow it and its id keeps the pairing |
| Conversation.ValidateMessage | internal/protocol/anthropic/request.go:192-253 | One message is accepted iff role and all blocks are allowed and pairing is kept |
| Conversation.ValidateToolResultContent | internal/protocol/anthropic/request.go:275-295 | Nested content is accepted iff all of it is text, image or document |
| Conversation.ValidateSystem | internal/protocol/anthropic/request.go:254-271 | The system prompt is accepted iff it is absent, a text, or non-empty text blocks |
| Conversation.ValidateBlocks | internal/protocol/anthropic/request.go:189-273 | A request is accepted iff every message is allowed, tool ids are distinct, each result answers an earlier call that has no other result, and the system prompt is sound |
| Conversation.RolesSay | internal/protocol/anthropic/request.go:210-252 | What each role may say, role by role: text alone for the system; thinking and calls with id, name and object for the assistant; media and results with an id and known content for the user |
| InputTranslation.AppendBlocks | internal/protocol/anthropic/upstream.go:181-245 | The items of one message's blocks, with pending text and parts flushed before every call and result and at the end |
| InputTranslation.AppendProviderItems | internal/protocol/anthropic/upstream.go:154-163 | The provider's kept items come before the assistant message they belong to |
| InputTranslation.MessagesToInput | internal/protocol/anthropic/upstream.go:150-252 | The whole translation, failing where a block cannot be put into items |
| InputTranslation.InputConserves | internal/protocol/anthropic/upstream.go:150-252 | Every validated conversation keeps, in order, every letter with its speaker, every picture and file under its address or data, every call with its arguments and everything each tool result holds, failure notice included, all read off the fields of the blocks |
| InputTranslation.ResultSays | internal/protocol/anthropic/upstream.go:456-523 | A tool's output holds the failure notice, if any, and exactly the texts, pictures and files of its result, and travels as JSON only if there is something other than text in it |
| InputTranslation.Translates | internal/protocol/anthropic/upstream.go:150-252 | An accepted conversation is translated iff every picture and document in it, nested ones included, has a usable source |
| InputTranslation.TurnLaid | internal/protocol/anthropic/upstream.go:150-261 | One more message adds, in order: the kept items that are JSON, for an assistant on a Responses provider; items of its own role and shape that say what it says; and the kept reasoning, for an assistant on a chat provider |
| ChatConversion.ResponsesContentToChat | internal/upstream/chatcompat.go:283-327 | Content parts become chat parts one by one, or fail |
| ChatConversion.AttachReasoning | internal/upstream/chatcompat.go:258-275 | A marker goes to the last assistant message and fails without one |
| ChatConversion.ItemToChat | internal/upstream/chatcompat.go:204-278 | One item appended or merged into the last assistant message |
| ChatConversion.ResponsesInputToChat | internal/upstream/chatcompat.go:189-281 | The whole conversion with its merging of calls into earlier messages; a bare text is what the user says |
| ChatConversion.RoundTrip | internal/upstream/chatcompat.go:204-280 | Expanding every chat message into its content followed by its calls gives back the item list, without markers and with empty arguments as "{}": merging never reorders, drops or invents |
| WholeConversation.ConversationConserved | internal/upstream/chatcompat.go:189-281 | Through all stages: the chat messages say exactly what the validated conversation said, in order, tool results bit by bit |
| WholeConversation.ToolsStayPaired | internal/protocol/anthropic/request.go:189-253 | After both translations call ids are distinct, each tool message answers an earlier call, and no id is answered twice |
| WholeConversation.AnswersEarlierCall | internal/upstream/chatcompat.go:228-257 | In such chat messages the id of every tool message occurs among the calls of an earlier assistant message |
| WholeConversation.MarkerOwner | internal/protocol/anthropic/upstream.go:246-261 | At the moment it is converted, a marker reaches the last chat message so far, made or extended by its own turn, iff the turn yields an item; otherwise an earlier turn's, and the conversion fails iff there is none |
| Markers.ItemsLeft | internal/upstream/chatcompat.go:228-275 | For every item list: the reasoning carried by the chat messages, in order, is what the markers leave when each takes the place of one on the same message |
| Markers.MarkersThatLast | internal/protocol/anthropic/upstream.go:150-261 | For every validated conversation: the reasoning in the final chat messages is, in order, that of the turns whose reasoning lasts, and no other; a turn's is lost iff a later turn has reasoning, too, and no chat message begins between them or with it |
| Markers.SilentTurnGivesAway | internal/upstream/chatcompat.go:258-275 | Counterexample: the reasoning of a turn without items is attached to the turn before it |
| Markers.SilentTurnFails | internal/upstream/chatcompat.go:273-275 | Counterexample: without a turn before it the conversion fails |
| Markers.CallingTurnOverwrites | internal/upstream/chatcompat.go:241-272 | Counterexample: a turn of calls only is merged into the turn before it and overwrites its reasoning |
| Placement.ItemsLaid | internal/upstream/chatcompat.go:204-280 | An item list converts iff each item can be converted by itself and each marker has an assistant message before it; then the number of chat messages, the last assistant message and the reasoning on every message are as specified |
| Placement.HomeMoves | internal/upstream/chatcompat.go:219-257 | The last assistant message moves on, to one of the turn's own, iff the turn is an assistant's with items and says something or follows something that is not an assistant's |
| Placement.SameHome | internal/upstream/chatcompat.go:219-257 | Two turns end with the same chat message iff none begins between them or with the later; the messages turns end with never move back |
| Placement.Homeless | internal/upstream/chatcompat.go:263-275 | There is no assistant message yet iff no assistant turn has had an item |
| Placement.HomeStands | internal/upstream/chatcompat.go:241-272 | The message a turn ends with is an assistant message of the final chat |
| Placement.ReasoningPlaced | internal/protocol/anthropic/upstream.go:150-261 | For every validated conversation: a chat message carries reasoning iff some turn with reasoning ends with it, and then that of the last such turn |
| Placement.StrayReasoningFails | internal/upstream/chatcompat.go:204-280 | For every validated conversation: the conversion fails iff an item cannot be converted or a turn has reasoning while neither it nor an earlier assistant turn has an item |
| ChatReach.Reaches | internal/upstream/chatcompat.go:189-281 | An accepted conversation with usable media reaches the chat wire iff it shows no document as a file and no reasoning is stray |
| Recall.ReasoningForRequest | internal/server/continuation.go:137-155 | Looking up every assistant turn stores nothing and finds only what was last stored for the turn's content and is asked for in time, and all of that while the cache has kept what it was given |
| Recall.Ask | internal/server/continuation.go:137-155 | After any history of the cache, a request's lookups and both translations: every turn is given what was last stored for its content, and the chat carries it as placed, failing iff something cannot be converted or strays |
| Recall.OwnRecalled | internal/server/continuation.go:92-108 | A turn is given the value of the last store for its content within the lifetime |
| Recall.TurnComesBack | internal/protocol/anthropic/upstream.go:246-261 | A turn whose reasoning was stored last for its content carries exactly that in the final chat, on the assistant message it ends with, unless a later turn with reasoning ends with the same message |
| Recall.TwinsShare | internal/server/continuation.go:142-147 | Turns with the same content are all given the reasoning stored later |
| Continuations.ContinuationSize | internal/server/continuation.go:47-53 | The size is the sum of all lengths |
| Continuations.ReasoningContinuations.Store | internal/server/continuation.go:66-90 | A valid store always inserts (the give-up return is dead) for 20 minutes, keeps at most 512 entries and 8 MiB with exact byte accounting, refuses values over 2 MiB, replaces its own key first, and evicts only what was touched no later than all that stays and only as long as there is no room |
| Continuations.ReasoningContinuations.Load | internal/server/continuation.go:92-108 | A hit iff the entry is there and unexpired; it is the value last stored under the key; only its touch time changes, and expired entries go |
| Continuations.ReasoningContinuations.PurgeExpired | internal/server/continuation.go:110-117 | Exactly the expired entries go, and the bytes with them |
| Continuations.ReasoningContinuations.EvictOldest | internal/server/continuation.go:119-135 | One entry with the least touch time goes; false iff there is none |
| Continuations.ReasoningContinuations.MakeRoom | internal/server/continuation.go:83-87 | Eviction ends with room for the newcomer, the number of entries being the measure |
| Continuations.RoomMeans | internal/server/continuation.go:83-87 | When something was evicted, the last to go had to: there were 512 entries with it, or the newcomer would have passed 8 MiB |
| Continuations.SizeMeans | internal/server/continuation.go:47-53 | The size is the length of everything in the value, end to end |
| Continuations.Replay | internal/server/continuation.go:66-108 | Over every sequence of stores and loads, each hit is what a plain map without bounds or expiry holds under that key, stored less than the lifetime ago; and if time goes forward and all that was stored fits the bounds, every unexpired value is a hit: the cache is that map |
| GroupOrder.LinesJoin | internal/config/load.go:106-117 | Splitting a text into lines loses nothing and leaves no line break in a line |
| GroupOrder.OrderedGroupKeys | internal/config/load.go:63-104 | For every text: every group key exactly once, those the scan finds under the groups header first and in document order |
| GroupOrder.PlainOrder | internal/config/load.go:63-104 | For a groups table written with bare keys the scan finds every group, in the order in which the document declares them |
| Configuration.CheckGroups | internal/config/validate.go:60-92 | For any group order: accepted iff members are known in every group and distinct in every listed one, where only a group without members may be listed twice |
| Configuration.Validate | internal/config/validate.go:10-101 | Accepted iff basics, providers, models and groups are sound in the stated sense, whatever the order of iteration |
| Configuration.BuildSnapshot | internal/config/snapshot.go:46-92 | The snapshot has the configuration's providers with their looked-up keys, its models, groups and order, and nothing else |
| Configuration.NewStore | internal/config/snapshot.go:13-20 | For any configuration: a store exists iff it validates, and serves its snapshot |
| Configuration.Store.TryReload | internal/config/snapshot.go:37-43 | For any configuration: swaps iff it validates, else keeps the old snapshot; as long as configurations come from the loader, what is served reflects a loaded, validated one |
| Configuration.ServedIsUsable | internal/config/snapshot.go:46-92 | In every snapshot served, groups have known members, each once, models have known providers, and the default group exists |
| Configuration.ServedIsSound | internal/config/validate.go:10-59 | In every snapshot served providers have a valid address and one of the two wires, models a known provider and an upstream name, and no name is blank |
| Configuration.KeyComesFrom | internal/config/env.go:63-72 | A provider's key is the trimmed value of its own or default variable, from the process before the dotenv file, and empty iff both are blank or missing |
| Routing.FilterCandidates | internal/routing/resolver.go:40-66 | The candidates of the ids that are known and meet the requirements, in order |
| Routing.NamesResolve | internal/routing/resolver.go:12-36 | With any snapshot served a group's name yields its members, a model's name that model alone, another name the default group's members, and a blank one an error |
| Routing.ReachableByName | internal/routing/resolver.go:12-29 | A served model can be asked for by its own name iff the name has no space around it |
| Routing.OneFiltered | internal/routing/resolver.go:40-66 | One id is a candidate, with its model's provider, upstream name and key, iff both are known and the model does not lack what is asked |
| Routing.FilteredConcat | internal/routing/resolver.go:40-66 | Candidates of a list are those of its parts, in order |
| Routing.RequirementsNarrow | internal/routing/resolver.go:40-66 | Adding requirements yields a subsequence of the unrestricted candidates |
| Routing.RoutingIsTotal | internal/routing/resolver.go:12-75 | With any snapshot served every nonblank name resolves, and without requirements to all members in declared order, without duplicates, each with its own provider, upstream name and key |
| Routing.UnorderedDuplicatesPass | internal/config/validate.go:76-92 | Counterexample: an unlisted group with a duplicate member is accepted and resolves to it twice |
| Configuration.DuplicatesOutsideOrder | internal/config/validate.go:60-92 | In an accepted configuration all groups have distinct members iff those outside the order do |
| Affinity.Memory.Set | internal/state/memory.go:31-38 | The latest answer for a response id replaces earlier ones |
| Affinity.Memory.Get | internal/state/memory.go:40-54 | A hit iff stored and not older than the lifetime, then the latest stored for the id; otherwise only that id is forgotten |
| Affinity.Replay | internal/state/memory.go:31-54 | Over every sequence of calls: a hit is the latest answer stored for the id, within the lifetime; and if time goes forward every such id hits |
| Affinity.ResolveWithAffinity | internal/server/responses.go:106-138 | A known, unexpired previous id routes to exactly the provider and model that answered it iff both are configured and suit the request, and is gone otherwise; with a previous id there is never more than one candidate |
| Affinity.CallCandidates | internal/server/responses_stream.go:24-132 | The candidate loop of either handler calls only candidates, no more than there are, and the one that answers last |
| Affinity.ServeRequest | internal/server/responses.go:106-165 | One request through resolving, calling and remembering: only a completed response with an id is stored, for the candidate that gave it, and a known previous id confines all calls to its provider and model |
| Affinity.ServeAll | internal/server/responses.go:106-165 | Over every history of requests and reloads: a follow-up calls at most one upstream, known id or not, and, as time goes forward, only the provider and model of the latest completed response of the id it names |

## Left out

- HTTP handlers, headers and the byte framing of server-sent events; request authentication, health and model listings, CLI, logging, usage database, file watcher.
- Decoding by the OpenAI and Anthropic SDKs, JSON, TOML, UUID and SHA-256 libraries, and the HTTP calls to upstreams.
- Real time: no bound on how long anything takes; a timer may fire at any moment it is armed.
- Classification of errors by their text: the class is part of a reply. Redaction and wording of reasons in the routing record.
- Token estimation, tool schema, tool choice, output configuration, effort tables, the translation of system prompts, and the checks of options and of thinking budgets.
- Mutexes and defensive copies: each cache operation is one atomic step.
- The callback that shows reasoning on the console while it streams.
- Headers, prices, extra fields and the gateway's own token in a snapshot; the file watcher; that reading the served snapshot is atomic.
- ChatConversion.ResponsesInputToChat: items and parts of unknown type are represented by kinds that fail as they do.
- Affinity.ServeAll: requests follow one another; overlapping ones are covered call by call in Affinity.Replay.
- Recall.Ask: for chat providers; that kept reasoning items precede their turn on the other wire is InputTranslation.TurnLaid.
- Continuity.ReplayHits: contents are compared as strings, so a client that reformats the JSON of tool arguments is not covered.
- CommitOpenAI.ReaderContract: trimming of event names covers ASCII white space, U+0085 and U+00A0 only.
- CommitOpenAI.StreamContract: rewriting of the model name inside a forwarded payload is not modelled; the event is the unit.
