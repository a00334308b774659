# Clypeus: a verified model

Clypeus is an AI gateway written in Rust. Several state machines, printers, parsers and
bounded loops carry its guarantees. This project models them in Dafny and proves what they
promise. `dafny verify dfyconfig.toml` checks everything.

| file | what it models |
|---|---|
| `Json.dfy`, `Text.dfy` | JSON values, canonical printing, string helpers |
| `Extract.dfy` | finding a JSON object in a model's answer |
| `Tools.dfy`, `Documents.dfy` | canonicalization, validation, projection and redaction of tool data, and what they say at every path of a document |
| `Sse.dfy`, `Provider.dfy`, `Responses.dfy`, `Chat.dfy`, `Reading.dfy`, `Stream.dfy` | the streaming stack: splitter, frame printer, three decoders, reading a stream to its end, the incremental reader, one streamed round |
| `Assembly.dfy` | what a round comes to: text, reasoning, usage and tool calls put together from fragments |
| `Guard.dfy` | the overlapping-window prompt guard |
| `RateLimit.dfy` | the token bucket |
| `Types.dfy`, `Store.dfy`, `Calls.dfy`, `Operations.dfy` | the in-memory store as functions on its state, and runs of its calls |
| `MemoryStore.dfy`, `Service.dfy` | the store as it works: a class that rewrites its maps, loops that walk parents, and any sequence of calls on it |
| `Effects.dfy` | what each call stores, field by field, and where its readers find it |
| `Forest.dfy`, `Views.dfy` | branching threads: the forest invariant and what it gives to readers |
| `Visibility.dfy`, `Isolation.dfy`, `Noninterference.dfy` | what an owner sees, what its calls write, and that owners do not see each other |
| `Approval.dfy`, `Binding.dfy`, `Broker.dfy` | the approval protocol as a transition system, what the hash binds, and the broker that carries it out |
| `Budget.dfy` | the tool budget of a turn under parallel calls |
| `TurnLoop.dfy` | the turn loop and the resumption after a decision |
| `FunctionRunner.dfy` | the negotiation and repair loop of AI functions |

## The main results

* **Approval.** For every interleaving of parking, submissions, decisions, stops, sweeps,
  deletions and executions: a row is decided at most once, nothing is dispatched before its own
  approval won its row, an approval and a row are dispatched at most once, and a row that was
  denied or has expired is never dispatched (`Approval.OneShot`). Even when someone edits the
  stored arguments, a dispatched call runs with the canonical arguments recorded with the row it
  was decided on (`Binding.HashBindsArguments`), and untouched rows are never refused as changed
  (`Binding.UntouchedRowsVerify`). A row deleted and recorded again under its identifier counts
  as another row, an *epoch*. Every grant was submitted by the owner of a row that awaited a
  decision, in its window, about the arguments it held and confirmed in writing where it asks for
  that (`Approval.GrantsComeFromOwners`), and nothing goes out whose permission was not checked
  again after the grant (`Approval.DispatchesArePermitted`). `Broker.ToolBroker` runs the same
  protocol as store calls with early returns, with steps of others in between: each of its methods
  leaves a state that is a run of the transition system, decides exactly for those who may, and
  withholds an approved call only for a reason that its error names.
* **Store.** What a call is given is stored, nothing else changes, and its readers find it: turns
  begin exactly on requests that may (`Effects.TurnsThatBegin`), a finished answer ends the history
  the provider is told and the thread its owner is shown (`Effects.FinishedIsRead`). The store is a
  class that rewrites its maps in place, and any sequence of calls on it is a run of the operations
  the results below speak of (`Service.ServeAll`).
* **Forest.** A turn that succeeds keeps the forest if and only if the edited or regenerated
  message belongs to the thread the request names, or is an edited root
  (`Forest.TurnKeepsForestIffAligned`); every other call keeps it. `Forest.StrayEditBreaksForest`
  is a store and an edit for which it breaks. The handlers' requests meet
  the condition whatever happens between their reading and the turn
  (`Views.HandlerTurnsAreAligned`). Versions below a parent are exactly 1 to n, and a thread
  reads as whole turns from a root to the active leaf.
* **Isolation.** Noninterference by purging: in every interleaving of the calls of all owners, an
  owner hears exactly what it would hear working alone on its own part of the store
  (`Noninterference.NonInterference`). This needs no alignment, and it covers turns whose thread is
  deleted while their tools run: the calls they record afterwards stay with their owner.
* **Streaming.** Splitting does not depend on chunking, and events of several lines, with LF or
  CRLF, come back from any chunks (`Sse.WiresComeBack`). The text handed out is the text kept for
  all three decoders, and in an interrupted round what was sent is a prefix of what is kept. Tool
  calls whose fragments arrive interleaved come back with their arguments (`Assembly.ChatComesBack`,
  `Assembly.MessagesComeBack`, `Assembly.ResponseCallsComeBack`). A stream that fails ends with the
  failure it read last, and a round is complete only if there was none (`Stream.RunStreamedRound`).
  What a stream read to its end leaves in the decoder depends on the bytes alone if and only if the
  events after the end of the round change nothing (`Reading.CutsAgreeIffSettled`): such events are
  decoded when they share a chunk with the end, and are not read otherwise
  (`Stream.LateTextDependsOnCuts`).
* **Streamed against buffered.** `Responses.StreamedRefinesBuffered`: the two agree if and only if
  no message of the response holds both answer text and refusal text, and every function call has
  a name, an identifier and arguments that are a string, absent or an empty object. The buffered
  reader keeps answer text and refusals; the streamed one drops refusals once there is answer text.
  The buffered reader leaves out a call without a name or identifier and keeps arguments that are
  not strings; the streamed one lists every call and takes such arguments for none.
* **Turn loop.** Under any behaviour of providers, tools, clock and consumer: at most
  `max(1, max_tool_rounds) + 1` provider calls, tools offered exactly while the limits allow, every
  list sent well paired and the one before with the calls received and each call's own result. A
  turn completes or fails only on an answer without tool calls, or one to which no tools were
  offered; it parks only at a call that needs approval; usage, reasoning and text are those of
  the rounds received (`TurnLoop.UsageIsSummed`, `TurnLoop.ReasoningIsAllThought`).
  The text a consumer saw is a prefix of the text of the rounds received if and only if no round
  broke off after text had gone out, which only a turn that fails can go through
  (`TurnLoop.SeenIsSaidUnlessBroken`, `TurnLoop.RunLoop`); then that text is what was seen beyond
  it.
* **Tool data.** Arguments are accepted if and only if at every path they fit what the schema says
  there (`Documents.AcceptedIsFittingEverywhere`); a tool runs exactly on admissible arguments, and
  each refusal has its own error (`Tools.ExecuteRefusesExactly`). Projection is the largest declared
  part of a result, redaction hides every secret and nothing else, and they commute.
* **Guard, limiter, budget.** The guard refuses exactly the messages that say one of its phrases,
  whatever their white space (`Guard.GuardSeesTheWholeText`, `Guard.CollapseKeepsWords`). Admissions
  are bounded, a snapshot tells exactly how many requests remain (`RateLimit.SnapshotTells`), and the
  wait it reports is the shortest in whole seconds (`RateLimit.RetryAfterIsLeast`). The tool budget
  holds in every interleaving and refuses no more than it must (`Budget.BytesAreRefusedExactly`).

## Reading the model

* Values that the source takes from libraries are parameters with stated laws: Unicode NFC is
  idempotent and introduces no control character, a JSON reader gives back what was printed
  canonically, the argument hash has no collisions. Numbers in JSON are tokens.
* Clocks and identifiers are parameters. A call finds identifiers that occur nowhere in the store
  and a time later than every row (`Store.FreshEnv`). Maps are ordered by key in the source; where
  that order matters it is spelled out.
* A message's version number is 32 bits wide in the source and saturates; so it does here, and
  gap-free numbering is stated for groups that fit.
* Counters that the source keeps as atomics are unbounded.
* Stop requests, lost consumers, elapsed time, answers of providers and tools, and results of
  parking are parameters of a turn, a stream or a call (`TurnLoop.Surroundings`, `Stream.Signal`,
  `Broker.Outside`, `FunctionRunner.Provider`), so that what they say can be compared with what is
  made of it. Nondeterminism (`*`) is left for the text a broken round has forwarded and for what
  others do meanwhile.
* What a provider's arguments mean rests on a JSON reader that gives back what was printed
  canonically; `Json.CanonicalReaderReadsBack` shows that there is one.

## Where the code differs from what one might expect

* `finalize_assistant` does not look at the current status, so a stopped message can be
  finalized again; `mark_tool_call_running` and `complete_tool_call` are unconditional. The
  invariants proved are the ones the code keeps: a row never goes back to awaiting a decision.
* `begin_turn` creates the thread before it looks at the message to edit or regenerate; a failed
  turn can leave an empty thread, and the forest invariant allows for it.
* `delete_thread` leaves feedback rows behind. They are outside every owner's part, and
  noninterference holds with them. A call recorded after its thread was deleted is kept as well,
  as a row of the owner who made it.
* What a streamed turn persists need not be what its consumer saw
  (`TurnLoop.SeenAgainstCompletion`). A stopped turn accounts for all of it, unless the consumer was
  gone when the usage frame was sent: that ends the turn before the round's text is merged
  (`TurnLoop.UsageFrameLost`). A completed or parked turn accounts for its last round only, though
  what earlier rounds said before their tool calls was streamed too. A turn that ends without an
  answer, or fails, accounts for nothing; when it fails, text of the round that broke off may have
  gone out as well.
* A turn that is resumed counts its usage from zero; what was billed before parking is persisted
  with the parked message and overwritten when the resumed turn ends.
* The guard may name one list where a search of the whole text would name the other. Whether it
  refuses agrees.
* Tool call identifiers come from the provider, and recording a call under a taken identifier
  does nothing. Isolation is stated for callers whose identifiers are their own; a call names its
  caller's own thread and message, as they are or were.
* Type `null` accepts any value and `maxLength` counts UTF-8 bytes; canonicalization leaves object
  keys alone. The model does the same.

* Of an event whose data spans several lines, a first line that is empty is lost together with its
  line end, unless it is the only one (`Sse.WireComesBack` has the exact condition).
* Results that were refused for their size count against the byte budget like those handed on
  (`Budget.BytesAreRefusedExactly`), so a small result can be refused after a large one was.

## Model

| member | source | states |
|---|---|---|
| `Json.SortForgetsOrder` | crates/clypeus-core/src/functions.rs:279-302 | the keys of an object are printed in one order, whatever order the map yields them in |
| `Json.SortedKeysAscend` | crates/clypeus-core/src/functions.rs:279-302 | that order is ascending, each key once |
| `Json.AtMostIsLexicographic` | crates/clypeus-core/src/functions.rs:279-302 | ascending means: the first character that differs decides, and a prefix comes first |
| `Json.EscapeIsRead` | crates/clypeus-core/src/functions.rs:275-302 | an escaped character is read, by the rules of section 7 of RFC 8259, as the character it stands for |
| `Json.PrintReads` | crates/clypeus-core/src/functions.rs:279-302 | a canonical text determines the value and where the value ends, inside any further text |
| `Json.CanonicalTextDeterminesValue` | crates/clypeus-core/src/functions.rs:275-302 | canonical text is injective: equal texts if and only if equal values |
| `Extract.ExtractJsonObject` | crates/clypeus-core/src/functions.rs:368-407 | the scan with depth, string and escape flags computes the first balanced object of the unfenced text, parsed, or nothing |
| `Extract.CloseSkipsValue` | crates/clypeus-core/src/functions.rs:381-404 | a printed value, with any nesting and escapes, leaves the scan at the depth it found it |
| `Extract.ObjectCloses` | crates/clypeus-core/src/functions.rs:381-404 | the scan closes a printed object exactly at its own last brace |
| `Extract.FirstObjectFound` | crates/clypeus-core/src/functions.rs:368-407 | an object printed after brace-free prose and before any suffix is found and parsed back |
| `Extract.FoundInProse` | crates/clypeus-core/src/functions.rs:368-417 | the same through fence stripping, when the prose does not open a fence |
| `Extract.FenceIsStripped` | crates/clypeus-core/src/functions.rs:409-417 | a text that is one code fence is stripped to what stands between its marks |
| `Extract.FoundInFence` | crates/clypeus-core/src/functions.rs:368-417 | an object inside one code fence is found, whatever its info string and whether or not it is closed |
| `Tools.CanonicalizeRefuses` | crates/clypeus-core/src/tools.rs:501-537 | arguments are refused if and only if some string value holds a control character |
| `Tools.CanonicalizeTwice` | crates/clypeus-core/src/tools.rs:501-537 | canonicalization is idempotent |
| `Tools.AcceptedIsFixpoint` | crates/clypeus-core/src/tools.rs:493-733 | accepted arguments hold nothing projection under the same schema would drop |
| `Tools.ProjectIsDeclared` | crates/clypeus-core/src/tools.rs:696-733 | projection only leaves out fields, and every field left is declared at its schema level |
| `Tools.ProjectIsLargest` | crates/clypeus-core/src/tools.rs:696-733 | it leaves out no more than it must: any declared pruning of the value is a pruning of the projection |
| `Tools.ProjectFixpoints` | crates/clypeus-core/src/tools.rs:696-733 | projection changes nothing if and only if the value is declared |
| `Tools.ProjectTwice` | crates/clypeus-core/src/tools.rs:696-733 | projection is idempotent |
| `Tools.RedactFixpoints` | crates/clypeus-core/src/tools.rs:752-848 | redaction masks every sensitive key and value, and changes nothing if and only if all are masked already |
| `Tools.RedactTwice` | crates/clypeus-core/src/tools.rs:752-848 | redaction is idempotent for the well-known secret shapes |
| `Tools.ProjectRedactCommute` | crates/clypeus-core/src/tools.rs:476-482 | projection and redaction can be done in either order |
| `Tools.ExecuteIsClean` | crates/clypeus-core/src/tools.rs:440-490 | a result of the registry has no undeclared field and no unmasked secret; the tool ran permitted, in time, on arguments free of control characters that its input schema accepts and that fit the size limit |
| `Tools.ExecuteRefusesExactly` | crates/clypeus-core/src/tools.rs:440-490 | a tool runs exactly on admissible arguments, permitted and in time; each refusal has its own error; the result is the projected and redacted answer |
| `Documents.AcceptedIsFittingEverywhere` | crates/clypeus-core/src/tools.rs:493-692 | validation accepts a value if and only if at every path it fits the schema that governs that path |
| `Documents.BoundsAreRead` | crates/clypeus-core/src/tools.rs:609-692 | length bounds are read as unsigned 64-bit integers, and integers are those of 64 bits, signed or not |
| `Documents.CanonicalAt` | crates/clypeus-core/src/tools.rs:501-537 | canonical arguments have the same paths, and the same value at each but for normalized text |
| `Documents.RedactedAt` | crates/clypeus-core/src/tools.rs:831-848 | redaction leaves what is not secret as it is at every path, and puts the mask under the first secret key of a path |
| `Documents.ControlsAreRefused` | crates/clypeus-core/src/tools.rs:521-530 | a text is refused if and only if it holds a control character of C0, C1 or DEL |
| `Documents.SensitiveWordsAreSeen` | crates/clypeus-core/src/tools.rs:752-780 | a key is secret if and only if somewhere in it, in whatever case, a sensitive word stands |
| `Documents.SecretShapesAreSeen` | crates/clypeus-core/src/tools.rs:803-818 | a value is secret exactly by its own shape, whatever white space is around it |
| `Documents.CredentialsAreSeen` | crates/clypeus-core/src/tools.rs:820-829 | a URL is secret if and only if its authority has an `@` with something before it |
| `Sse.FindEventBoundary` | crates/clypeus-core/src/provider.rs:694-715 | the loop finds the end of the first complete block, LF or CRLF |
| `Sse.BoundaryIsFirstEmptyLine` | crates/clypeus-core/src/provider.rs:694-715 | a block ends at the first empty line, written with LF or CRLF, and there is no boundary without one |
| `Sse.SseSplitter.Push` | crates/clypeus-core/src/provider.rs:675-684 | pushing a chunk yields the complete blocks of buffer and chunk and keeps the rest |
| `Sse.SseSplitter.Flush` | crates/clypeus-core/src/provider.rs:686-691 | flushing hands out the rest and empties the buffer |
| `Sse.BoundaryIsStable` | crates/clypeus-core/src/provider.rs:694-715 | later bytes never move a boundary already found |
| `Sse.SplitMeaning` | crates/clypeus-core/src/provider.rs:670-715 | blocks and rest concatenate to the input, every block is complete, and the rest holds no boundary |
| `Sse.SplitIsUnique` | crates/clypeus-core/src/provider.rs:670-715 | no other split has these properties |
| `Sse.ChunkingIsIrrelevant` | crates/clypeus-core/src/provider.rs:670-691 | pushing any chunking of a byte stream yields the blocks of the whole |
| `Sse.EventPayload` | crates/clypeus-core/src/provider.rs:717-731 | the loop over lines computes the joined data fields of a block |
| `Sse.PayloadOfFrame` | crates/clypeus-core/src/sse.rs:28-35 | the payload of a printed frame is the payload printed |
| `Sse.FrameIsBlock` | crates/clypeus-core/src/sse.rs:28-35 | a printed frame is exactly one complete block |
| `Sse.FramesRoundTrip` | crates/clypeus-core/src/sse.rs:28-35 | printing frames, cutting them into any chunks, splitting and reading the payloads gives the payloads back |
| `Sse.WireComesBack` | crates/clypeus-core/src/provider.rs:694-731 | an event with other fields and data of several lines, LF or CRLF, is one block whose payload is its data lines joined, if and only if the first is not empty or the only one |
| `Sse.WiresComeBack` | crates/clypeus-core/src/provider.rs:670-731 | a stream of such events gives back their payloads from any chunks |
| `Provider.OrderedCallsAre` | crates/clypeus-core/src/provider.rs:455-478 | tool calls are listed by ascending index, whatever bound is used |
| `Provider.MergedIsLast` | crates/clypeus-core/src/provider.rs:391-405 | merged usage is, counter by counter, what was reported last |
| `Provider.AccumulatedIsSum` | crates/clypeus-core/src/models.rs:183-197 | accumulated usage is, counter by counter, the sum of what was reported, within 32 bits |
| `Assembly.ArgumentsAreRead` | crates/clypeus-core/src/provider.rs:455-478 | arguments come back as printed; blank text means none; text that cannot be read stays text |
| `Assembly.BufferedCallsComeBack` | crates/clypeus-provider-openai-responses/src/lib.rs:579-598 | announced calls come back from the buffered response with their arguments, in order |
| `Assembly.ResponseComesBack` | crates/clypeus-provider-openai-responses/src/lib.rs:502-598 | a completed response is read as all its messages say, text or else refusal, and all its reasoning, summaries first; any other is refused |
| `Assembly.ResponseCallsComeBack` | crates/clypeus-provider-openai-responses/src/lib.rs:502-904 | the same from a completed response and from its stream, however the argument strings are cut |
| `Assembly.CallsAssemble` | crates/clypeus-provider-openai/src/lib.rs:720-746 | however fragments of different calls are interleaved, a call has its own pieces in order under the last identifier and name given |
| `Assembly.ChatComesBack` | crates/clypeus-provider-openai/src/lib.rs:618-746 | what a chat-completions round said comes back: text, reasoning, and the calls with their arguments in the order of their indices |
| `Assembly.MessagesAssemble` | crates/clypeus-provider-anthropic/src/lib.rs:587-671 | the same for the tool uses of the messages protocol |
| `Assembly.MessagesComeBack` | crates/clypeus-provider-anthropic/src/lib.rs:587-671 | what a messages round said comes back, tool input in pieces or given with the opening |
| `Assembly.ChatReport` | crates/clypeus-provider-openai/src/lib.rs:618-690 | the usage of a round is what was reported last |
| `Assembly.MessagesReport` | crates/clypeus-provider-anthropic/src/lib.rs:587-671 | the same for the messages protocol |
| `Responses.ExtractOutcome` | crates/clypeus-provider-openai-responses/src/lib.rs:502-598 | the loops over output items compute the buffered outcome, or refuse a response that is not completed |
| `Responses.Decoder.Consume` | crates/clypeus-provider-openai-responses/src/lib.rs:694-853 | one payload changes the decoder as the step function says, and yields its event |
| `Responses.Decoder.OpenToolCall` | crates/clypeus-provider-openai-responses/src/lib.rs:887-904 | an announced function call opens its slot once |
| `Responses.StreamedOutcome` | crates/clypeus-provider-openai-responses/src/lib.rs:694-885 | the outcome of a streamed response, for any items and any cuts of their texts and arguments |
| `Responses.StreamedRefinesBuffered` | crates/clypeus-provider-openai-responses/src/lib.rs:502-598 | for every completed response and any cuts, streamed and buffered outcomes agree if and only if no message mixes answer text and refusal text and the stream can carry every call |
| `Responses.CallsAgree` | crates/clypeus-provider-openai-responses/src/lib.rs:579-598 | the stream lists at least the calls of the buffered reader, and the same ones if and only if each has a name, an identifier and string, absent or empty arguments |
| `Responses.MixedMessageDiffers` | crates/clypeus-provider-openai-responses/src/lib.rs:502-598 | one part of text and one refusal: the buffered reader keeps both, the stream drops the refusal |
| `Responses.NamelessCallDiffers` | crates/clypeus-provider-openai-responses/src/lib.rs:502-598 | a call without a name: the buffered reader leaves it out, the stream lists it |
| `Chat.ChatDecoder.Consume` | crates/clypeus-provider-openai/src/lib.rs:618-690 | one payload changes the chat-completions decoder as the step function says, and yields its event |
| `Chat.ChatDecoder.ConsumeToolCall` | crates/clypeus-provider-openai/src/lib.rs:720-746 | a fragment extends the call at its index |
| `Chat.MessagesDecoder.Consume` | crates/clypeus-provider-anthropic/src/lib.rs:587-671 | one payload changes the messages decoder as the step function says, and yields its event |
| `Stream.DecodeSays` | crates/clypeus-core/src/provider.rs:576-599 | for every decoder and payload, the text handed out is the text the decoder keeps |
| `Stream.ProviderStream.Next` | crates/clypeus-core/src/provider.rs:531-574 | what a call hands out is exactly what content and reasoning grew by; a failure is handed out before the end; what the stream comes to when it is read to its end stays the same |
| `Stream.ProviderStream.ConsumeAll` | crates/clypeus-core/src/provider.rs:576-599 | the same over a list of blocks |
| `Stream.ProviderStream.ReadTail` | crates/clypeus-core/src/provider.rs:531-574 | an unterminated last block is still an event |
| `Stream.FailureIsLast` | crates/clypeus-core/src/provider.rs:576-599 | the error a stream is left with is that of the last block read that failed |
| `Stream.ReadingEnds` | crates/clypeus-core/src/provider.rs:531-574 | how reading a stream to its end comes out is determined by its chunks: the break, the last failure, or nothing |
| `Stream.Drain` | crates/clypeus-core/src/provider.rs:531-574 | reading to the end leaves the decoder that the chunks to come determine |
| `Stream.ReadTwice` | crates/clypeus-core/src/provider.rs:531-599 | two streams over the same bytes leave the same decoder, when nothing of weight follows the end of the round |
| `Stream.LateTextDependsOnCuts` | crates/clypeus-core/src/provider.rs:531-599 | text after the end marker is kept in the same chunk and lost in the next |
| `Reading.ReadOutReads` | crates/clypeus-core/src/provider.rs:531-574 | an unbroken stream is read up to the end of the chunk in which the round ends, or whole with its unterminated last block |
| `Reading.CutsAgreeIffSettled` | crates/clypeus-core/src/provider.rs:531-599 | all ways to cut the bytes agree if and only if the blocks after the end of the round change nothing |
| `Stream.RunStreamedRound` | crates/clypeus-core/src/orchestrator.rs:1215-1285 | what the consumer received is a prefix of what is kept, and all of it when the round completes, which it does only if the stream ended without a failure; a round that fails carries the failure read last, or the break |
| `Guard.Classify` | crates/clypeus-core/src/guard.rs:129-149 | the loop over windows computes the first hit of the overlapping windows |
| `Guard.CollapseIsSingleSpaced` | crates/clypeus-core/src/guard.rs:173-186 | the collapsed text starts with no space and has no two in a row |
| `Guard.LaidWordsComeBack` | crates/clypeus-core/src/guard.rs:173-186 | however words are spaced, they are read back one by one |
| `Guard.CollapseKeepsWords` | crates/clypeus-core/src/guard.rs:173-186 | collapsing keeps the words: two texts collapse alike if and only if they have the same words |
| `Guard.CompactForgetsSpaces` | crates/clypeus-core/src/guard.rs:155-171 | the compact text lacks the spaces and nothing else |
| `Guard.WindowWithinWhole` | crates/clypeus-core/src/guard.rs:155-171 | a match inside a window is a match in the whole text |
| `Guard.SomeWindowCovers` | crates/clypeus-core/src/guard.rs:129-149 | every match no longer than the step lies inside one of the windows |
| `Guard.WindowsAreSound` | crates/clypeus-core/src/guard.rs:129-171 | a hit names a list with a phrase that does occur |
| `Guard.GuardSeesTheWholeText` | crates/clypeus-core/src/guard.rs:129-185 | a message is refused if and only if a phrase occurs in the whole text, directly or with spaces removed; the list named has such a phrase |
| `RateLimit.InMemoryRateLimiter.Check` | crates/clypeus-core/src/rate_limit.rs:116-140 | refills, then admits and pays one token, or refuses with the time to wait |
| `RateLimit.InMemoryRateLimiter.Peek` | crates/clypeus-core/src/rate_limit.rs:141-155 | refills and reports without paying |
| `RateLimit.RefillComposes` | crates/clypeus-core/src/rate_limit.rs:92-97 | refilling in two steps is refilling once |
| `RateLimit.AdmissionBound` | crates/clypeus-core/src/rate_limit.rs:92-140 | over any run, admissions between two moments are at most capacity plus what flows in |
| `RateLimit.ConfiguredBound` | crates/clypeus-core/src/rate_limit.rs:92-140 | that is `max_requests` plus its share of the time between them |
| `RateLimit.PeeksAreInvisible` | crates/clypeus-core/src/rate_limit.rs:141-155 | leaving out every peek leaves every decision as it was |
| `RateLimit.RetryAfterIsEnough` | crates/clypeus-core/src/rate_limit.rs:98-140 | after the wait its refusal reports, with no admission of the key in between, the next check succeeds |
| `RateLimit.RetryAfterIsLeast` | crates/clypeus-core/src/rate_limit.rs:98-110 | the reported wait is the least number of whole seconds after which the bucket admits again |
| `RateLimit.SnapshotTells` | crates/clypeus-core/src/rate_limit.rs:98-115 | as many requests as a snapshot says remain are admitted at that moment, and the next is refused |
| `Types.WellPairedAppends` | crates/clypeus-core/src/orchestrator.rs:1030-1169 | well-paired lists concatenate |
| `Types.PairedRound` | crates/clypeus-core/src/orchestrator.rs:1030-1169 | calls with exactly one result each, in order, are well paired |
| `Store.HistoryIsPaired` | crates/clypeus-store-memory/src/lib.rs:728-792 | a history rebuilt from the store is well paired, whatever calls its messages hold |
| `Store.LatestExists` | crates/clypeus-store-memory/src/lib.rs:660-672 | among the answers to a question there is a last one by creation time |
| `MemoryStore.MemoryStore.BeginTurn` | crates/clypeus-store-memory/src/lib.rs:399-512 | leaves the state and gives the result of `Store.StartTurn`, and walks still end |
| `MemoryStore.MemoryStore.OpenThread` | crates/clypeus-store-memory/src/lib.rs:413-430 | finds the thread named, or creates one on the spot |
| `MemoryStore.MemoryStore.Ask` | crates/clypeus-store-memory/src/lib.rs:432-478 | writes the question of a new or edited turn, or finds the one to answer again; all error cases |
| `MemoryStore.MemoryStore.Answer` | crates/clypeus-store-memory/src/lib.rs:480-511 | writes the pending answer and makes it the active leaf |
| `MemoryStore.MemoryStore.CreateThread` | crates/clypeus-store-memory/src/lib.rs:297-320 | inserts a thread under its title, or under a stand-in for a blank one |
| `MemoryStore.MemoryStore.DeleteThread` | crates/clypeus-store-memory/src/lib.rs:383-397 | removes the thread, its messages and its calls, and leaves feedback |
| `MemoryStore.MemoryStore.FinalizeAssistant` | crates/clypeus-store-memory/src/lib.rs:514-551 | writes a terminal state whatever the current status is; all error cases |
| `MemoryStore.MemoryStore.StopTurn` | crates/clypeus-store-memory/src/lib.rs:553-584 | stops a running or parked turn and returns a terminal one as it is |
| `MemoryStore.MemoryStore.FinalizeStaleTurns` | crates/clypeus-store-memory/src/lib.rs:586-610 | closes exactly the stale running answers and counts them |
| `MemoryStore.MemoryStore.Walk` | crates/clypeus-store-memory/src/lib.rs:612-631 | the loop over parents collects the path to the root |
| `MemoryStore.MemoryStore.ThreadView` | crates/clypeus-store-memory/src/lib.rs:612-640 | the path from the root to the active leaf, decorated |
| `MemoryStore.MemoryStore.UserAnchorMessage` | crates/clypeus-store-memory/src/lib.rs:828-848 | the nearest user message on the way to the root |
| `MemoryStore.MemoryStore.HistoryForMessage` | crates/clypeus-store-memory/src/lib.rs:728-792 | the provider history of the path, with calls and wrapped results in order |
| `MemoryStore.MemoryStore.Message` | crates/clypeus-store-memory/src/lib.rs:642-651 | the row of an owned message, decorated |
| `MemoryStore.MemoryStore.SetFeedback` | crates/clypeus-store-memory/src/lib.rs:685-714 | rates an owned answer and keeps the time it was first rated |
| `MemoryStore.MemoryStore.ClearFeedback` | crates/clypeus-store-memory/src/lib.rs:716-726 | takes the feedback on an owned message back |
| `MemoryStore.MemoryStore.ActivateMessage` | crates/clypeus-store-memory/src/lib.rs:653-683 | makes the message, or the last answer to it, the active leaf |
| `MemoryStore.MemoryStore.RecordToolCall` | crates/clypeus-store-memory/src/lib.rs:861-890 | records a call unless its identifier is taken |
| `MemoryStore.MemoryStore.MarkToolCallApproved` | crates/clypeus-store-memory/src/lib.rs:896-905 | approves only a call that awaits its decision |
| `MemoryStore.MemoryStore.MarkToolCallDenied` | crates/clypeus-store-memory/src/lib.rs:907-916 | denies only a call that awaits its decision |
| `MemoryStore.MemoryStore.MarkToolCallRunning` | crates/clypeus-store-memory/src/lib.rs:918-934 | marks a call running, unconditionally |
| `MemoryStore.MemoryStore.CompleteToolCall` | crates/clypeus-store-memory/src/lib.rs:936-952 | records how a call ended, unconditionally |
| `MemoryStore.MemoryStore.ExpireToolCalls` | crates/clypeus-store-memory/src/lib.rs:998-1011 | expires exactly the overdue calls and counts them |
| `Service.Serve` | crates/clypeus-store-memory/src/lib.rs:296-1011 | any call on the class does and answers what its step in a run does |
| `Service.ServeAll` | crates/clypeus-store-memory/src/lib.rs:296-1011 | any sequence of calls on the class leaves the store and gives the replies of the run, so what is proved of runs holds of the class |
| `MemoryStore.HistoryOfRow` | crates/clypeus-store-memory/src/lib.rs:747-790 | one row contributes itself, unless it is an empty answer, then its results |
| `Effects.TurnsThatBegin` | crates/clypeus-store-memory/src/lib.rs:399-512 | a turn begins if and only if its request may; refused, no row changes and the error tells a malformed request from one that names what is not there |
| `Effects.TurnIsStored` | crates/clypeus-store-memory/src/lib.rs:399-512 | a turn that begins stores the question asked and a pending answer as the leaf, and nothing else |
| `Effects.FinishIsStored` | crates/clypeus-store-memory/src/lib.rs:514-551 | a finished answer is stored field by field as given, in its place, and nothing else changes; errors exactly otherwise |
| `Effects.StopIsStored` | crates/clypeus-store-memory/src/lib.rs:553-584 | a stop ends a running or parked turn, keeps what it said, and nothing else changes |
| `Effects.SweepIsStored` | crates/clypeus-store-memory/src/lib.rs:586-610 | the sweep ends exactly the stale turns, with the code it is given |
| `Effects.HistoryEnds` | crates/clypeus-store-memory/src/lib.rs:728-792 | the history of a message is that of its parent and then what the message contributes |
| `Effects.RowTells` | crates/clypeus-store-memory/src/lib.rs:747-790 | a row contributes its content under its role, each of its calls, and what became of each |
| `Effects.PayloadTells` | crates/clypeus-store-memory/src/lib.rs:139-159 | a tool result is marked untrusted and has the data of a call that succeeded or the code of one that did not |
| `Effects.MessageIsShown` | crates/clypeus-store-memory/src/lib.rs:126-182 | a message is shown as stored, with exactly its own calls and feedback |
| `Effects.FinishedIsRead` | crates/clypeus-store-memory/src/lib.rs:514-792 | a finished answer is shown last in its thread and told last to the provider, with the content it was finished with |
| `Effects.DeletedIsGone` | crates/clypeus-store-memory/src/lib.rs:383-397 | deleting a thread takes its messages and calls along, and nothing else |
| `Effects.ActivatedIsLeaf` | crates/clypeus-store-memory/src/lib.rs:653-683 | activating an answer makes it the leaf; activating a question, its last answer, or itself while it has none |
| `Effects.FeedbackIsRead` | crates/clypeus-store-memory/src/lib.rs:685-726 | feedback is on answers, is shown as given, and can be taken back |
| `Effects.DecisionsAreMarked` | crates/clypeus-store-memory/src/lib.rs:896-916 | a decision succeeds if and only if the call awaits one, and marks that call alone |
| `Effects.ProgressIsMarked` | crates/clypeus-store-memory/src/lib.rs:918-952 | starting and ending mark a call whatever its status is, with the result or code the provider is told |
| `Effects.ExpiredIsMarked` | crates/clypeus-store-memory/src/lib.rs:998-1011 | exactly the overdue calls expire |
| `Forest.TurnKeepsForestIffAligned` | crates/clypeus-store-memory/src/lib.rs:399-512 | a successful turn keeps the forest if and only if it is aligned; a failed one always does |
| `Forest.GrownKeepsForest` | crates/clypeus-store-memory/src/lib.rs:432-512 | a sound question and its answer keep parents, alternation, active leaf and version numbers |
| `Forest.AlignedIsSound` | crates/clypeus-store-memory/src/lib.rs:432-478 | the question of a turn is sound if and only if the request is aligned |
| `Forest.StrayEditBreaksForest` | crates/clypeus-store-memory/src/lib.rs:399-512 | a forest of two threads and an edit that names the wrong one: the turn succeeds and the forest is lost |
| `Forest.ActivateKeepsForest` | crates/clypeus-store-memory/src/lib.rs:653-683 | the active leaf stays an answer of its thread |
| `Forest.DeleteKeepsForest` | crates/clypeus-store-memory/src/lib.rs:383-397 | deleting a thread keeps the forest |
| `Forest.StepKeepsForest` | crates/clypeus-store-memory/src/lib.rs:296-848 | every call of either store keeps the forest, a turn exactly when it is aligned |
| `Forest.RunKeepsForest` | crates/clypeus-store-memory/src/lib.rs:296-848 | so does any run of calls of any owners |
| `Forest.ReachableIsForest` | crates/clypeus-store-memory/src/lib.rs:296-848 | every store reached from an empty one is a forest |
| `Views.ForestDescends` | crates/clypeus-store-memory/src/lib.rs:612-640 | parents come before their children, so every walk ends |
| `Views.PathIsConversation` | crates/clypeus-store-memory/src/lib.rs:621-631 | a path alternates questions and answers of one thread from a root |
| `Views.ThreadReadsAsConversation` | crates/clypeus-store-memory/src/lib.rs:612-640 | a thread view has even length, alternates, ends at the active leaf, and is empty if and only if the thread is |
| `Views.AnchorIsQuestion` | crates/clypeus-store-memory/src/lib.rs:828-848 | the anchor of an answer is its parent, of a question itself |
| `Views.VersionsFollowCreation` | crates/clypeus-store-memory/src/lib.rs:850-857 | among alternatives the earlier has the smaller version, and conversely |
| `Views.VersionsAreGapless` | crates/clypeus-store-memory/src/lib.rs:850-857 | versions below one parent are exactly 1 to the number of alternatives |
| `Views.ShownVersionsAreStored` | crates/clypeus-store-memory/src/lib.rs:161-182 | the versions shown with a message are those its alternatives were given |
| `Views.HandlerTurnsAreAligned` | crates/clypeus-server/src/handlers.rs:453-507 | edits and regenerations name the thread the message is in, whatever happens before the turn begins |
| `Isolation.StepFits` | crates/clypeus-store-memory/src/lib.rs:296-952 | the writes of a call are the call, and each is the owner's to make |
| `Isolation.WritesKeepClosed` | crates/clypeus-store-memory/src/lib.rs:296-952 | rows point only at rows of the same owner and parents come first, after any writes that fit |
| `Noninterference.StepIsIsolated` | crates/clypeus-store-memory/src/lib.rs:94-136 | a call answers from its owner's part alone and leaves every other part as it was |
| `Visibility.ReadShown` | crates/clypeus-store-memory/src/lib.rs:612-651 | views, messages, histories and anchors depend on the owner's part only, parent walks included |
| `Isolation.TurnShown` | crates/clypeus-store-memory/src/lib.rs:399-512 | so does the result of beginning a turn |
| `Noninterference.PurgedRunShows` | crates/clypeus-store-memory/src/lib.rs:296-952 | along any run, the owner's part is what the purged run holds, but for feedback on messages that are gone |
| `Noninterference.NonInterference` | crates/clypeus-store-memory/src/lib.rs:296-952 | in every interleaving an owner hears what it would hear alone on its part, and is left with the same part |
| `Noninterference.WalksEnd` | crates/clypeus-store-memory/src/lib.rs:612-848 | no walk of any run goes round |
| `Approval.StepKeepsInv` | crates/clypeus-store-memory/src/lib.rs:861-1011 | every step of every submission keeps the protocol invariant |
| `Approval.AllowKeepsInv` | crates/clypeus-store-memory/src/lib.rs:896-905 | the conditional approval decides a row that nothing has decided |
| `Approval.DispatchKeepsInv` | crates/clypeus-core/src/broker.rs:827-891 | a dispatch is the first of its approval and of its row |
| `Approval.OneShot` | crates/clypeus-core/src/broker.rs:741-891 | each approval and each row is dispatched at most once, only after its own approval; rows are decided at most once; denied or expired rows never go out |
| `Approval.NeverAwaitsAgain` | crates/clypeus-store-memory/src/lib.rs:861-1011 | no step takes a row back to awaiting a decision |
| `Approval.AdmitsExactly` | crates/clypeus-server/src/handlers.rs:799-850 | the checks let through exactly the owner of a row that awaits a decision, in its window, about its arguments, confirmed in writing where it asks for that |
| `Approval.GrantsComeFromOwners` | crates/clypeus-server/src/handlers.rs:799-899 | in every interleaving, behind each grant is a submission by one who could decide about the row as it then was |
| `Approval.DispatchesArePermitted` | crates/clypeus-core/src/broker.rs:741-891 | in every interleaving, what is dispatched was found permitted after its grant |
| `Approval.RecordedAsAsked` | crates/clypeus-core/src/broker.rs:668-691 | a new row holds what the call asks for, its canonical arguments with their hash, and awaits a decision exactly if a gate belongs to the tool |
| `Approval.DeletionForgets` | crates/clypeus-store-memory/src/lib.rs:383-397 | deleting a thread forgets its calls, which is the deletion step of the protocol |
| `Binding.HashesAgree` | crates/clypeus-core/src/broker.rs:786-827 | equal hashes mean equal canonical arguments, and untouched arguments hash as they did |
| `Binding.HashBindsArguments` | crates/clypeus-core/src/broker.rs:611-827 | what is dispatched is what was recorded with the row the decision was made on |
| `Binding.TamperedIsRefused` | crates/clypeus-core/src/broker.rs:786-827 | arguments edited before the decision, that hash to something else, end the approved call as denied |
| `Binding.UntouchedRowsVerify` | crates/clypeus-core/src/broker.rs:786-827 | without tampering no execution ends as changed arguments |
| `Broker.OthersLeave` | crates/clypeus-core/src/broker.rs:741-891 | steps of others leave a submission where it is |
| `Broker.ToolBroker.Record` | crates/clypeus-core/src/broker.rs:668-691 | recording is one step of the protocol |
| `Broker.ToolBroker.RecordFailed` | crates/clypeus-core/src/broker.rs:1202-1266 | a refused call is recorded and ended, other rows stay |
| `Broker.ToolBroker.Park` | crates/clypeus-core/src/broker.rs:605-739 | parks canonical arguments with their hash and window, or refuses with the error that fits; a refusal is on record, except for an unknown or ungated tool; a taken identifier keeps its row |
| `Broker.ToolBroker.Read` | crates/clypeus-server/src/handlers.rs:799-850 | lets through exactly those who may decide, and tells the others why they may not |
| `Broker.ToolBroker.Decide` | crates/clypeus-server/src/handlers.rs:866-899 | approving or denying succeeds only while the row awaits a decision |
| `Broker.ToolBroker.SubmitApproval` | crates/clypeus-server/src/handlers.rs:799-919 | a grant goes exactly to one who may decide and allows, and wins the row; undisturbed, such a decision stands; others are told why not |
| `Broker.ToolBroker.Verify` | crates/clypeus-core/src/broker.rs:786-827 | the hash is computed again, and a call whose hash has changed is ended as denied |
| `Broker.ToolBroker.Check` | crates/clypeus-core/src/broker.rs:829-864 | goes on only while the row is approved under this very approval |
| `Broker.ToolBroker.CallTool` | crates/clypeus-core/src/broker.rs:1070-1200 | one dispatch, or none when credentials are refused; what the tool answered is delivered if it fits, and is what the row tells |
| `Broker.ToolBroker.ExecuteApproved` | crates/clypeus-core/src/broker.rs:741-891 | with others acting between its steps: dispatched at most once, with canonical arguments of the granted hash, and its answer is the outcome and on record; withheld only for a reason, such as having been overtaken, and the error names it |
| `Broker.ToolBroker.Execute` | crates/clypeus-core/src/broker.rs:920-1068 | dispatched if and only if ungated, permitted and within the budget, with credentials; every refusal has its error; the result is handed on if its bytes fit |
| `Broker.ToolBroker.RunUngated` | crates/clypeus-core/src/broker.rs:1036-1200 | the call is recorded, and its row tells the outcome; the outcome is what the tool answered if its bytes fit |
| `Broker.ToolBroker.Deliver` | crates/clypeus-core/src/broker.rs:1125-1140 | a result is handed on exactly if its bytes still fit |
| `Broker.CodesTellApart` | crates/clypeus-core/src/tools.rs:151-169 | failures are told apart by their codes, but for the two of an upstream service |
| `Budget.TurnToolBudget.TryReserveCall` | crates/clypeus-core/src/broker.rs:128-137 | counts the call even when it refuses it |
| `Budget.TurnToolBudget.TryReserveSignature` | crates/clypeus-core/src/broker.rs:141-153 | allows two calls of the same tool and arguments |
| `Budget.TurnToolBudget.TryReserveBytes` | crates/clypeus-core/src/broker.rs:155-161 | counts the bytes and refuses once they exceed the limit |
| `Budget.KeyDetermines` | crates/clypeus-core/src/broker.rs:141-143 | keys are equal if and only if tool and hash are |
| `Budget.BudgetHolds` | crates/clypeus-core/src/broker.rs:995-1035 | in every interleaving: dispatches, repetitions and delivered bytes stay within their limits |
| `Budget.RefusalsAreExact` | crates/clypeus-core/src/broker.rs:128-153 | a call is refused if and only if the limit it meets is used up |
| `Budget.BytesAreRefusedExactly` | crates/clypeus-core/src/broker.rs:155-161 | in every interleaving a result is refused for its size if and only if it does not fit next to all that came back before |
| `TurnLoop.AnswerCalls` | crates/clypeus-core/src/orchestrator.rs:1035-1165 | batches, parks and failed parks: when all calls are answered, the result of each carries that call's own outcome, in order; it parks only at the first gated call that can be parked |
| `TurnLoop.OneRound` | crates/clypeus-core/src/orchestrator.rs:923-1169 | what a round sends and receives; it ends the turn only with an answer, at a call that can be parked, at a stop, or with the error of a provider that broke off, and otherwise goes on with every call answered |
| `TurnLoop.Rounds` | crates/clypeus-core/src/orchestrator.rs:900-1174 | the loop ends within its bound, reports the sums over its rounds, completes or fails only on an answer, and every round but the last was seen whole |
| `TurnLoop.RunLoop` | crates/clypeus-core/src/orchestrator.rs:870-1175 | bound on provider calls, coherent lists, what every outcome reports, no provider call for a refused message; text seen is a prefix of text received unless a round broke off, and exactly how far it goes beyond |
| `TurnLoop.CoherentMeans` | crates/clypeus-core/src/orchestrator.rs:923-945 | every list sent is well paired and is the one before with the calls received and their own results; what is received is the provider's answer; tools are offered while the limits allow |
| `TurnLoop.ContinuesPaired` | crates/clypeus-core/src/orchestrator.rs:1030-1169 | continuing a well-paired list with calls and their results keeps it well paired |
| `TurnLoop.SeenIsSaidUnlessBroken` | crates/clypeus-core/src/orchestrator.rs:946-1005 | text seen is a prefix of the text of the rounds received if and only if the last round did not break off after text had gone out |
| `TurnLoop.BrokenRoundOverruns` | crates/clypeus-core/src/orchestrator.rs:1251-1273 | a turn whose provider fails after some text: what was seen is in no round received |
| `TurnLoop.SeenAgainstCompletion` | crates/clypeus-core/src/orchestrator.rs:956-1033 | what of the text seen a stopped, completed, parked or failed turn accounts for |
| `TurnLoop.UsageIsSummed` | crates/clypeus-core/src/orchestrator.rs:956-1005 | the usage of a turn is that of its rounds, counter by counter |
| `TurnLoop.ContentIsAllSaid` | crates/clypeus-core/src/orchestrator.rs:956-1005 | the text kept is all that the rounds received said |
| `TurnLoop.ReasoningIsAllThought` | crates/clypeus-core/src/orchestrator.rs:956-1005 | the reasoning kept is what was kept before and each round's, on lines of their own |
| `TurnLoop.ResultTells` | crates/clypeus-core/src/orchestrator.rs:1360-1380 | a tool's answer is told as untrusted, with its data or its code and message |
| `TurnLoop.LatestUserIs` | crates/clypeus-core/src/orchestrator.rs:881-888 | the guard looks at the last user message, wherever it stands |
| `TurnLoop.CarryOut` | crates/clypeus-core/src/orchestrator.rs:819-832 | the approved call goes out once and its answer is the outcome, or it is withheld for a reason its error names |
| `TurnLoop.RunResume` | crates/clypeus-core/src/orchestrator.rs:767-868 | the decision is carried out, and the turn goes on from the stored history with the reasoning persisted before it; one stopped earlier keeps what was persisted |
| `FunctionRunner.AlternatesPairUp` | crates/clypeus-core/src/models.rs:41-47 | the two protocols of OpenAI are each other's alternative, and the third has none |
| `FunctionRunner.FunctionRunner.React` | crates/clypeus-core/src/functions.rs:742-884 | an answer is judged or negotiated about: a run ends exactly on a good answer, the third bad one, or a refusal nothing can be done about |
| `FunctionRunner.FunctionRunner.Run` | crates/clypeus-core/src/functions.rs:692-884 | at most five requests and three judged answers, one downgrade and one switch, no way back; what is returned has passed the checks; it fails only on a refusal nothing can be done about; the switch is remembered |
| `FunctionRunner.RequestIsSound` | crates/clypeus-core/src/functions.rs:692-884 | every request keeps the bounds and never goes back to a refused protocol or schema |
| `FunctionRunner.SwitchIsSeen` | crates/clypeus-core/src/functions.rs:1024-1062 | the protocol remembered is the one the run switched to |
| `FunctionRunner.SwitchIsRemembered` | crates/clypeus-core/src/functions.rs:1024-1048 | the next run on the model starts on the protocol the last one switched to; other models start as before |

## Left out

- The SQL stores, HTTP routing, DTOs, OpenAPI, tracing, metrics, audit records, environment configuration, file secrets and JWT verification: plumbing without a deep property.
- URL, DNS and egress checks; payload builders, catalog parsing, error classification and `select_model`: field mapping.
- `list_threads`, `update_thread`, `thread_usage`, audit paging, settings and `count_recent_tool_calls`: easy members; the write quota is one of the reasons a call may be refused. A thread's `pinned` and `model`, a message's model, context and output format, and a call's risk, impact, auth mode and duration are not part of the rows.
- Channels, timeouts and the registry of running turns: stop requests, lost consumers and elapsed time are parameters. Two live executions of one message are not modelled.
- UTF-8 decoding of blocks and the JSON field lookups of provider events: the decoders start from the fields of an event; a reader from payload text to those fields is a parameter.
- Unicode NFC, NFKC, lower-casing and leet folding of the guard, and SHA-256: parameters with the laws stated above.
- The decoder inside `Stream.ProviderStream` is a value of one of three types in place of a boxed trait object.
- `canonicalize_value` and the row updates of one message are modelled on values; that they happen in place, without copies, is not captured.
- `Approval.Act` takes the read and the checks of a submission as one step, since the source reads the row once and checks the copy; expiring an overdue row on that path is part of the same step, and a step of its own in `Broker.ToolBroker.Read`.
- `stop_message`: its refusals of parked calls are `Stop` steps of the approval protocol and its status write is `Store.StopTurn`; the waiting for the running stream task in between is not modelled.
- Broker.ToolBroker.Meanwhile: performs stops, sweeps and completions of others; its contract, which is all that is used, allows any steps of others.
- Broker.ToolBroker.SubmitApproval: the decision is a boolean; in the source it is a word, `allow` or `deny` in any case and trimmed, and any other is refused after the checks. A row that asks for a confirmation without naming a field is an internal error there and a validation error here.
- TurnLoop.ProviderRound: takes the provider's answer from the surroundings and states how what the consumer saw stands to the text kept; that streamed rounds do so, failed ones included, is proved of `Stream.RunStreamedRound`.
- FunctionRunner.FunctionRunner.Run: the validation of inputs, the guard on function fields, the rate limit and the catalog lookup before the loop are not part of it, and a repair prompt is represented by the answer it quotes.
- RateLimit: `f64` is modelled as `real`; rounding is not captured.
