# Gateway verification

A Dafny model of the gateway's stateful cores, with proofs of what they promise over
whole runs. `dafny verify dfyconfig.toml` checks all of it.

**Agent turn store** (`Json`, `Classify`, `Replay`, `Derive`, `Rows`, `TurnStore`,
`Parity`, `SessionRuns`, `LostWrites`, `Racing`, `Backfill`, `BackfillContent`, `Gaps`,
`LateFill`, `SessionLaws`, `EventLaws`). A session's transcript exists twice: `AssembleAgentSessionReplay` computes it
over the whole session, and the write path derives it one request at a time and reads it
back from rows. The methods of both halves are proved against one specification (turns, the
duplicate fold, the system timeline, the reply attribution). The main theorem
(`LostWrites.ParityExactlyWhen`) says of every in-order run, with sessions interleaved,
exactly when reading a session back gives, block by block and entry by entry, what the pass
computes. The same is said of a backfill over an empty store
(`BackfillContent.BackfilledHistoryReadsBack`) and of a gap it fills late
(`LateFill.LateFillReadsBackExactlyWhen`). JSON is a datatype, `reflect.DeepEqual` is
equality, and the table is a sequence of rows with an atomic insert under its unique key.
`SessionLaws` and `EventLaws` say what both halves have in common, read off the captured
bodies alone: which messages and which system value a body holds, what a session adds, whose
reply a block shows, what a write stores. Hypothesis of the runs, which the code does not enforce: a session's requests are written in
session order and each write's log holds exactly its predecessors. `Racing` drops it for what
survives any interleaving.

**`IdleReadCloser`** (`IdleReader`, `ReaderLiveness`). The goroutine, its one-slot channel,
the timer, the context and the consumer as a transition system; every scheduling of enabled
steps is a run. Safety first, then that a Read comes back.

**Schedulers** (`Binding`, `Sticky`, `KeyPool`, `KeyVerdicts`, `WalkOrders`, `Benches`). The
sticky-binding registry and the key pool as classes, then what runs of their calls keep: even
spread, stickiness, confluence of out-of-order verdicts, how long a bench holds, walk order
and turn taking. The clock is a parameter of every call.

**Decisions** (`Decision`, `DecisionFolds`, `Effects`, `Rewriters`). The decision table, the
fold of reported facts and its effects by the kinds reported, the exchange sink and the
failure-rewriter chain.

**Delivery** (`Delivery`, `Payload`, `Admission`). What a modality reports, reconciled with
the response and checked, and the call-order guard under every interleaving of calls: what it
keeps out and exactly what it lets through.

**Companions** (`Splice`, `Compress`, `Gates`, `AuditQueue`). The byte splice and the compression pass
around it, and the bounded audit queue with its flusher.

## What the code does not do

Properties the design states that turn out false of the code, each with an input that shows
it and its exact condition:

- *Stored equals replayed.* A write whose supplement key is taken loses its whole batch,
  silently. In order, that happens when the predecessor holds more than 1024 own rows
  (`Parity.WriteLandsExactlyWhenItFits`; input: `LostWrites.ParityNeedsTheFit`), although
  `internal/agentturns/derive.go:24-31` calls the ranges disjoint. A session reads back as the
  pass if and only if each of its writes fits or is lost unseen, wherever in the run the losses
  are (`LostWrites.ParityExactlyWhen`).
- *The backfill drains the residue.* Two requests share a predecessor when one is logged late;
  the second's batch is then refused by any number of passes (`Backfill.LateRequestIsNeverStored`).
  A pass stores exactly the requests that are not blocked so
  (`Backfill.PassStoresTheUnblocked`), and blocked is forever (`Backfill.BlockedIsForever`).
- *The next startup retries.* `internal/agentturns/backfill.go:116-120` says so of a body row
  that cannot be read; the engine is handed an empty body instead, and the request is stored
  as a bare reply row exactly when its first number is free
  (`Backfill.UnreadIsStoredExactlyWhen`) and never read again (`Backfill.UnreadIsNeverRetried`).
- *Backfilled turns never disagree with live ones* (`internal/agentturns/backfill.go:1-7`).
  True of history that was never written, as far as it is true of live runs
  (`BackfillContent.BackfilledHistoryReadsBack`). A gap filled after later requests were
  written reads the baselines those left (input: `LateFill.FirstPromptFilledLate`); the
  session reads back as the pass if and only if its system values and inputs allow it, a
  condition on the captured bodies alone (`LateFill.LateFillReadsBackExactlyWhen`).
- *Every assistant message appears exactly once* (`internal/agentturns/replay.go:182-186`). Those
  a request newly sends are shown if and only if it has a predecessor whose reply was recorded
  neither inline nor as a stream (`SessionLaws.CopiesShowExactlyWhen`), and never twice
  (`SessionLaws.RepliesShowOnce`); what the session's first request already carries is shown
  nowhere (input: `SessionLaws.FirstHistoryIsNotShown`).
- *A client disconnect always surfaces as the context's error*
  (`internal/gateway/idle_reader.go:325-332`). It does not in the moment between the timer's
  check and the timeout (input: `ReaderLiveness.DisconnectReportedAsTimeout`); of the errors
  recorded after the cancellation, that is the one exception
  (`ReaderLiveness.CancellationIsReportedExactlyWhen`).
- *The zero `Resolved` is neutral.* It seeds every fold, and facts whose row has no opinion on
  the status lose their reason and detail to it (input:
  `DecisionFolds.AuthRejectionLosesItsReason`; conditions: `DecisionFolds.VerdictNeedsAnOpinion`,
  `DecisionFolds.ZeroIsNeutralExactlyWhen`).
- *The record says what was committed.* The substitute for an incoherent delivery says nothing
  was, even when the response was, and drops the usage (input:
  `Delivery.CommittedButRecordedUndelivered`; condition:
  `Delivery.CommitmentIsRecordedExactlyWhen`). The chain ends all the same.
- *Arrival order does not matter to the key pool.* Generation and threshold do not depend on
  it, the bench does (`KeyVerdicts.BenchDependsOnArrival`): from any sound record two verdicts
  leave the same bench in either order unless they clash (`KeyVerdicts.VerdictsCommuteUnlessClash`).
- *Every healthy key gets its turn.* n walks over n healthy keys start once at each if and only
  if the 64-bit cursor does not wrap on the way or n divides its span
  (`WalkOrders.EveryHealthyKeyGetsItsTurn`; otherwise `WalkOrders.TheWrapRepeatsATurn`).
- *`EstimatedTokensSaved` is one quotient of the total* (`internal/compress/result.go:22`). The
  code adds up per-block quotients (input: `Compress.TwoSmallSavingsReportNothing`); the two
  agree if and only if the remainders come to less than four bytes
  (`Compress.TokensAreAQuarterExactlyWhen`).

## Model

| member | source | states |
|---|---|---|
| Classify.ClassifyTextContent | internal/agentturns/classify.go:138-146 | a text is injected exactly when an entry of the marker table leads it once trimmed |
| Classify.MarkerLeadsExactlyWhen | internal/agentturns/classify.go:131-146 | a text is led by a marker if and only if one stands in it with nothing but blanks before |
| Classify.EveryWrapperIsKnown | internal/agentturns/classify.go:59-65 | each of the five openings is known, whatever follows it |
| Classify.ClassifyUserMessage | internal/agentturns/classify.go:100-129 | the loop over the blocks decides as tool result present, else the joined texts, do |
| Classify.ClassifyAddedMessage | internal/agentturns/classify.go:72-92 | the event type of one added element |
| Classify.ClassByCases | internal/agentturns/classify.go:72-129 | exactly which messages are tool results (role tool, or a user message holding a tool_result block), injected, and user input |
| Classify.MachineTurnsPassTheFold | internal/agentturns/classify.go:278-290 | a tool result or injected message is always kept by the duplicate fold and leaves its state as it was |
| Classify.SplitUserMessageForAdded | internal/agentturns/classify.go:164-214 | the elements built in place are the split of the message |
| Classify.UserInputRealText | internal/agentturns/classify.go:223-248 | the human words of an element, the fold's key |
| Classify.EitherFormIsTheSame | internal/agentturns/classify.go:216-248 | one text is the same words and the same type of message as a string or as a block |
| Classify.TextsAreTheTextBlocks | internal/agentturns/classify.go:104-118 | the words of a block array are the texts of its text blocks, all of them and in order |
| Classify.MarkerOfJoin | internal/agentturns/classify.go:138-146 | gluing two texts with a newline never makes a leading marker |
| Classify.MarkerOfLines | internal/agentturns/classify.go:100-129 | joining texts none of which is marker-led gives a text that is not |
| Classify.BlocksPartition | internal/agentturns/classify.go:164-214 | marker-led blocks and the rest together are the blocks, none lost or doubled |
| Classify.SplitIsLossless | internal/agentturns/classify.go:164-214 | the elements' blocks are exactly the message's, marker-led ones first, each group in order |
| Classify.SplittableExactlyWhen | internal/agentturns/classify.go:164-207 | only a user message of blocks that answers no tool is taken apart, and only if a block is marker-led |
| Classify.SplitClassAt | internal/agentturns/classify.go:164-214 | every extracted element is injected, the merged remainder is user input |
| Classify.SplitIsIdempotent | internal/agentturns/classify.go:164-214 | splitting an element again changes nothing |
| Classify.UserInputFolder.Keep | internal/agentturns/classify.go:278-290 | a user input is dropped exactly when it repeats the non-empty words of the last one kept |
| Classify.FoldOfConcat | internal/agentturns/classify.go:272-290 | folding a list is folding its parts in turn |
| Classify.StateIsReadableFromKept | internal/agentturns/classify.go:266-290 | the fold's state can be read off the last kept user input, as the store does |
| Classify.KeptNeverRepeats | internal/agentturns/classify.go:251-290 | no two neighbouring kept user inputs carry the same non-empty words |
| Replay.ParseReplayBody | internal/agentturns/replay.go:327-351 | what a captured body parses to: nothing when cut or unreadable, the top-level system value before system messages |
| SessionLaws.BodyIsReadWhole | internal/agentturns/replay.go:319-351 | an uncut readable body gives its messages array and its top-level system value, else exactly its role=system messages in order, else none; any other body gives nothing |
| SessionLaws.NamedSystemShows | internal/agentturns/replay.go:240-264 | a session with a request naming a system value of either kind has a timeline, and that block shows the value |
| SessionLaws.BlockShowsTheValueInEffect | internal/agentturns/replay.go:240-264 | a block shows the value its own request brings, under the request that began it, else what the block before it shows |
| Replay.ReplayAssistantMessages | internal/agentturns/replay.go:368-376 | the assistant messages of a suffix, in order |
| Replay.CommonStructPrefixLen | internal/agentturns/replay.go:383-394 | the loop finds the structural prefix length |
| Replay.PrefixIsLongestShared | internal/agentturns/replay.go:383-394 | that prefix is shared by both lists and no longer one is |
| Replay.NewSuffixes | internal/agentturns/replay.go:194-210 | the parsing loops give each request what it brings over its predecessor |
| Replay.CollectAdded | internal/agentturns/replay.go:228-238 | one request's added elements, the fold's state threaded through |
| SessionLaws.ElementsMessageByMessage | internal/agentturns/replay.go:228-238 | message by message, the elements are the parts of the caller's own messages; assistant and system messages give none |
| SessionLaws.SessionFoldsAsOne | internal/agentturns/replay.go:218-238 | the blocks together add what one fold over everything the session brought keeps |
| SessionLaws.KeptAreTheNews | internal/agentturns/classify.go:251-290 | the fold drops exactly the inputs that repeat the non-empty words of the last input before them |
| SessionLaws.AppendOnlySessionAddsItsLastBody | internal/agentturns/replay.go:164-238 | in a session that only appends, the blocks up to a request together add exactly what its body holds, split and folded once |
| Replay.ReplayAssistant | internal/agentturns/replay.go:287-311 | the reply is inline, else stream, else the copies the next request resends, else unrecorded |
| SessionLaws.RepliesShowOnce | internal/agentturns/replay.go:174-186 | a block's reply is inline, stream, the assistant messages the next request newly sends, or none, each exactly when; none of them is ever among the added |
| SessionLaws.CopiesShowExactlyWhen | internal/agentturns/replay.go:182-186 | the assistant messages a request newly sends are shown if and only if its predecessor exists and recorded no reply |
| SessionLaws.FirstHistoryIsNotShown | internal/agentturns/replay.go:182-186 | the assistant messages a session's first request already carries are shown nowhere |
| Replay.WalkTurns | internal/agentturns/replay.go:212-277 | the main loop's blocks and timeline are the specification's |
| Replay.AssembleAgentSessionReplay | internal/agentturns/replay.go:187-279 | the whole pass computes one block per request and the system timeline of the session |
| Replay.EarlierBlocksStand | internal/agentturns/replay.go:187-311 | growing a session rewrites no block, but that the last one's unrecorded reply may become the next request's copies |
| Replay.TimelineNeverRepeats | internal/agentturns/replay.go:240-252 | neighbouring timeline entries differ |
| Derive.AppendElements | internal/agentturns/derive.go:177-188 | one event per kept element, consecutively numbered, classified, in order |
| Derive.AppendSuffix | internal/agentturns/derive.go:166-188 | the suffix's element events and, on the way, the assistant copies |
| Derive.SupplementEvents | internal/agentturns/derive.go:214-235 | the resend attribution, then one tool_call row per copy carrying a tool use, from 1024 on |
| Derive.DeriveTurnEvents | internal/agentturns/derive.go:128-237 | the imperative derivation is the specified own batch followed by the specified supplement |
| EventLaws.WriteStores | internal/agentturns/derive.go:160-235 | a write stores the kept elements in order, each as the type of message it is, and one tool call for each copy that calls a tool |
| EventLaws.WriteMarksReplies | internal/agentturns/derive.go:190-235 | the own reply marker names inline, stream or none by the captures; the supplement carries the copies, only where they are due |
| EventLaws.MarkerNamesWhatIsRead | internal/service/requestlog/agent_session_transcript.go:476-521 | the marker names the source the transcript reads the reply from, whenever the capture can still be read |
| EventLaws.CopiesAreTheResentReplies | internal/agentturns/replay.go:362-376 | the copies are the assistant messages the body newly sends, all of them and in order |
| EventLaws.OverlongBodyBringsNothing | internal/agentturns/derive.go:128-137 | a body over 1 MiB is stored as a reply marker alone |
| Rows.SortedIsPermutation | internal/agentturns/store.go:349-407 | an ordered read is a sorted rearrangement of the rows selected |
| Rows.SortedIsTheListing | internal/agentturns/store.go:349-364 | a read by seq returns the strictly ordered listing of the request's rows |
| TurnStore.PrevRequestIsLatest | internal/agentturns/store.go:225-260 | the predecessor query returns the latest earlier request of the session, and none only when there is none |
| TurnStore.Store.Create | migrations/sqlite/00058_agent_session_turns.sql:20 | one insert lands whole or not at all, by the unique key |
| TurnStore.Store.DegradeToPending | internal/agentturns/store.go:202-218 | a degraded write leaves at most the pending marker, never over an existing row |
| TurnStore.Store.MaterializeRows | internal/agentturns/store.go:146-168 | own events go under the request, supplement events under its predecessor |
| TurnStore.Store.WriteForRequest | internal/agentturns/store.go:98-179 | a write inserts exactly the derived batch, and a fault leaves at most the marker |
| TurnStore.Store.RecordTurnsForRequest | internal/agentturns/store.go:60-68 | a request without a session writes nothing, any other exactly its batch |
| Parity.SystemRowsAreTheTimeline | internal/agentturns/store.go:266-289 | the stored system rows are the pass's timeline, numbered from 0 |
| Parity.BaselineIsReadable | internal/agentturns/store.go:266-289 | the baseline query answers the pass's own last entry and next ordinal |
| Parity.FoldIsReadable | internal/agentturns/store.go:301-324 | the last user_input row speaks for the pass's fold state |
| Parity.BaselinesAgree | internal/agentturns/store.go:266-324 | before each write both queries hand the derivation the pass's state |
| Parity.BatchIsDue | internal/agentturns/store.go:98-179 | with its predecessor found, a write derives exactly the batch the pass says is due |
| Parity.WriteLandsExactlyWhenItFits | internal/agentturns/derive.go:25-35 | a batch lands if and only if the supplement it carries starts past its predecessor's own rows, also after earlier unseen losses |
| Parity.RowsOfRequest | internal/agentturns/store.go:349-364 | after n writes a request holds its own rows, then its successor's supplement, each as far as its write fitted |
| Parity.AddedIsReadable | internal/service/requestlog/agent_session_transcript.go:397-468 | the input rows read back as the pass's added elements, whatever supplement follows and whichever losses are unseen |
| Parity.ReplyIsReadable | internal/service/requestlog/agent_session_transcript.go:476-521 | the reply read from live capture and rows is the pass's attribution, whichever losses are unseen |
| SessionRuns.RunInvariant | internal/agentturns/store.go:98-179 | at every point of an interleaved run a session's rows are exactly those of its writes that fitted, as long as its own losses are unseen |
| SessionRuns.EffectiveIsTheLastEntry | internal/service/requestlog/agent_session_transcript.go:348-364 | walking the requests resolves each to the timeline entry in effect |
| SessionRuns.TimelineIsReadable | internal/agentturns/store.go:391-407 | the session's system rows read back as the pass's timeline |
| SessionRuns.BlockReadsBack | internal/service/requestlog/agent_session_transcript.go:397-521 | each block read from the rows is the pass's block |
| SessionRuns.ReadBackIsTheReplay | internal/agentturns/derive.go:128-237 | after any in-order run a session whose own writes fit, or are lost unseen, reads back as the whole-session pass, whatever becomes of other sessions |
| SessionRuns.StoredTimelineIsDense | internal/agentturns/derive.go:147-158 | stored ordinals are 0..k-1 and no value is recorded twice in a row |
| SessionRuns.WriteThatDoesNotFitIsLost | internal/agentturns/store.go:168-179 | a write that does not fit changes nothing and leaves its request without a row |
| LostWrites.OverflowDoesNotFit | internal/agentturns/derive.go:25-35 | a request of 1024 tool results makes its successor's write unfit |
| LostWrites.ParityNeedsTheFit | internal/agentturns/derive.go:25-35 | concrete sessions on which store and pass differ for want of the bound |
| LostWrites.MissingForever | internal/agentturns/store.go:168-179 | what a lost write would have stored, its own inputs and system value and its predecessor's supplement, no later write of any session supplies |
| LostWrites.MissingShows | internal/service/requestlog/agent_session_transcript.go:397-521 | a loss that is not invisible shows as a missing message, timeline entry or reply |
| LostWrites.ParityExactlyWhen | internal/agentturns/store.go:98-179 | main theorem: over every in-order run, with losses anywhere, a session reads back as the whole-session pass if and only if each of its writes fits or is lost unseen |
| Racing.EngineWritesAreAttempts | internal/agentturns/store.go:98-179 | an engine write with arbitrarily stale reads is one of the racing attempts |
| Racing.EveryRequestReadsWhole | internal/agentturns/derive.go:25-35 | under any interleaving a request reads back as one whole own batch or none, then one supplement or none, then at most the marker |
| Racing.SecondWriteLoses | internal/agentturns/store.go:168-179 | the second write for a request changes nothing |
| Backfill.BackfillRound | internal/agentturns/backfill.go:55-139 | a round replays the first candidates past the cursor, in id order, and reports the last id, whatever goes wrong with a write or the read of a body row |
| Backfill.BackfillAll | internal/agentturns/backfill.go:229-246 | the pass ends on every log under any mishaps, unreadable body rows among them, and replays each starting candidate once, in id order |
| Backfill.RoundLeavesTheRest | internal/agentturns/backfill.go:55-96 | the cursor strictly increases and the candidates past it are those not reached |
| Backfill.CandidateLandsUnlessBlocked | internal/agentturns/backfill.go:60-66 | a candidate's write lands exactly when no row it carries for its predecessor is there |
| Backfill.PredecessorsDiffer | internal/agentturns/store.go:225-260 | on one log no two requests have the same predecessor |
| Backfill.BlockedIsStable | internal/agentturns/backfill.go:55-96 | replaying other requests neither blocks nor frees a request |
| Backfill.StandingAfter | internal/agentturns/backfill.go:73-94 | after some replays, who is stored is who was, or was replayed unblocked, requests without a session aside |
| Backfill.PassStoresTheUnblocked | internal/agentturns/backfill.go:229-246 | after an undisturbed pass a request is stored if and only if it was already or is not blocked |
| Backfill.SecondPassIsIdle | internal/agentturns/backfill.go:186-193 | a second pass changes nothing and scans exactly the requests that are blocked or have no session to write under |
| Backfill.BlockedIsForever | internal/agentturns/backfill.go:186-193 | a blocked request stays blocked and without its batch over any number of undisturbed passes |
| Backfill.LateRequestIsNeverStored | internal/agentturns/store.go:225-260 | a concrete late-logged request that no number of passes ever stores |
| Backfill.UnreadIsStoredExactlyWhen | internal/agentturns/backfill.go:99-139 | a request whose body row cannot be read gets one bare reply row, and counts as stored, exactly when its first number is free |
| Backfill.UnreadIsNeverRetried | internal/agentturns/backfill.go:116-139 | whatever later startups bring, such a request is no candidate again and shows no message of its own |
| BackfillContent.PassIsARun | internal/agentturns/backfill.go:229-246 | an undisturbed pass over an empty store is a run of the live write path |
| BackfillContent.PassIsInOrder | internal/agentturns/backfill.go:55-96 | when ids ascend as session order does, that run writes every session in order |
| BackfillContent.BackfilledHistoryReadsBack | internal/agentturns/backfill.go:1-7 | history that was never written reads back, session by session, as the pass exactly when its writes fit or are lost unseen |
| Gaps.TimelineFilledExactlyWhen | internal/agentturns/replay.go:240-252 | with turn g replayed last, the timeline comes out as the pass's if and only if the system values before, at and after g allow it |
| Gaps.AddedFilledExactlyWhen | internal/agentturns/classify.go:251-290 | with turn g replayed last, every turn keeps the elements the pass keeps if and only if the inputs around g repeat each other alike |
| LateFill.AroundIsHeld | internal/agentturns/store.go:98-179 | with one request missing or marked pending, every other write inserts exactly what it derives from the session without it |
| LateFill.PassFillsTheGap | internal/agentturns/backfill.go:55-96 | the pass then replays that request and nothing else |
| LateFill.FilledTimelineIsRead | internal/agentturns/store.go:266-289 | the fill's system row is decided by the session's last value and sorts to the request's own place |
| LateFill.LateFillReadsBackExactlyWhen | internal/agentturns/backfill.go:1-7 | for every session and every gap in it: once filled, the store reads back as the pass if and only if the session's system values and inputs allow it |
| LateFill.FirstPromptFilledLate | internal/agentturns/store.go:266-289 | two requests under one system prompt, the first filled late: the session does not read back as the pass |
| IdleReader.StepKeeps | internal/gateway/idle_reader.go:201-459 | every step of goroutine, timer, context, Read and Close keeps the invariant |
| IdleReader.RunKeeps | internal/gateway/idle_reader.go:201-478 | every run keeps it |
| IdleReader.BytesAreConserved | internal/gateway/idle_reader.go:201-387 | until a context error is recorded or a send is given up, bytes produced are those returned, left over, queued and in flight, in order; what Read returned is always a prefix |
| IdleReader.EndComesAfterEverything | internal/gateway/idle_reader.go:267-459 | EOF or an underlying error is returned only after every byte, and is the body's own last word |
| IdleReader.TimeoutMeansSilence | internal/gateway/idle_reader.go:304-387 | a timeout is recorded only on an open, empty channel, and is the first-byte one exactly when no byte was ever taken |
| ReaderLiveness.TimerStandsBehindEveryRead | internal/gateway/idle_reader.go:407-459 | in every reachable state without a recorded error the timer runs or has fired, unless a Read has just taken its tick |
| ReaderLiveness.ReadCanGoOn | internal/gateway/idle_reader.go:267-387 | a Read in progress always has an enabled step of its own or of its timer |
| ReaderLiveness.StalledReadTimesOut | internal/gateway/idle_reader.go:329-376 | a Read moved by its own and its timer's steps alone is back within six; with the body silent it returns the timeout |
| ReaderLiveness.EveryStalledReadTimesOut | internal/gateway/idle_reader.go:329-376 | from every reachable state, a Read on a stalled body ends in the first-byte or the idle timeout, whichever is due |
| ReaderLiveness.CancelledReadFails | internal/gateway/idle_reader.go:272-308 | a Read begun after the cancellation hands out nothing and returns the error on record or the context's |
| ReaderLiveness.CancelledWake | internal/gateway/idle_reader.go:329-387 | a waiting Read woken by anything after the cancellation returns the context's error and no bytes |
| ReaderLiveness.CancellationTakesPrecedence | internal/gateway/idle_reader.go:322-459 | any error recorded after the cancellation is the context's, but for the timeout of a Read already past its check |
| ReaderLiveness.CancellationIsReportedExactlyWhen | internal/gateway/idle_reader.go:322-376 | a newly recorded error after the cancellation is the context's if and only if the Read had not passed the timer's check on an empty channel |
| ReaderLiveness.DisconnectReportedAsTimeout | internal/gateway/idle_reader.go:322-376 | a disconnect in that moment is reported as a timeout |
| ReaderLiveness.EveryReadBringsSomething | internal/gateway/idle_reader.go:267-459 | no Read returns neither bytes nor an error, or both |
| ReaderLiveness.ReadFillsItsRoom | internal/gateway/idle_reader.go:284-290 | what is at hand is handed out at once, as much as there is room for, the rest kept |
| IdleReader.FailuresAreFinal | internal/gateway/idle_reader.go:267-303 | after a failed Read every later one returns the same error and no bytes |
| IdleReader.ClosedReaderIsBounded | internal/gateway/idle_reader.go:201-233 | after Close the goroutine takes at most five more steps |
| IdleReader.ClosedReaderIsNeverStuck | internal/gateway/idle_reader.go:201-233 | until it exits the closed goroutine can always step, even if nobody reads |
| Binding.BindingRegistry.Release | internal/gateway/binding.go:255-267 | releasing removes the binding and keeps the count index exact, without zero entries |
| Binding.BindingRegistry.EvictIfNeeded | internal/gateway/binding.go:275-290 | at capacity a least-recently-used binding goes, and room is left |
| Binding.BindingRegistry.DeadEnd | internal/gateway/binding.go:213-223 | a provider is quarantined inside its window, an expired window is forgotten |
| Binding.BindingRegistry.CollectEligible | internal/gateway/binding.go:132-189 | the candidates neither dead nor quarantined, in chain order, the windows unchanged |
| Binding.EligibleInChainOrder | internal/gateway/binding.go:132-189 | the eligible candidates are exactly those neither dead nor in a window, in chain order |
| Binding.BindingRegistry.LeastBound | internal/gateway/binding.go:132-189 | the first eligible candidate whose provider holds fewest bindings |
| Binding.BindingRegistry.Route | internal/gateway/binding.go:132-189 | keeps index and bound; the answer is sticky, or a least-bound choice made after eviction, and always eligible |
| Binding.BindingRegistry.Quarantine | internal/gateway/binding.go:200-207 | the provider is in its window for the whole cooldown and no longer, and no other provider's window moves |
| Binding.BindingRegistry.Rebind | internal/gateway/binding.go:235-251 | a binding made meanwhile stands unless it is the dead end; otherwise the server of the request is bound, index and bound kept |
| Binding.BindingRegistry.BindingCounts | internal/gateway/binding.go:296-309 | the snapshot lists every bound provider of the model with its true count |
| Binding.PairStaysEven | internal/gateway/binding.go:132-189 | evicting before choosing, no pair of providers drifts more than one apart |
| Binding.RouteKeepsEven | internal/gateway/binding.go:132-189 | one call keeps an even spread even |
| Binding.SpreadStaysEven | internal/gateway/binding.go:132-189 | over any run for one model with a constant eligible set, counts differ by at most one after every call |
| Sticky.CallerKeepsItsCandidate | internal/gateway/binding.go:132-189 | a caller gets its candidate back while it stays eligible and fewer than 4096 later calls and releases of others lie between |
| Sticky.RecentCallerStaysBound | internal/gateway/binding.go:269-290 | no such run of other callers evicts a binding: the least recently used goes first |
| Sticky.FirstCallerGetsTheFirst | internal/gateway/binding.go:132-189 | with nobody bound, the first candidate of the chain is chosen |
| KeyPool.Pool.StateFor | internal/gateway/keypool.go:112-126 | an older generation finds nothing, a newer one a fresh record |
| KeyPool.Pool.CoolKey | internal/gateway/keypool.go:226-250 | a 429 is judged against every fact standing against it |
| KeyPool.Pool.LengthenKeyBench | internal/gateway/keypool.go:262-283 | body evidence is judged as the verdict that owns the bench |
| KeyPool.Pool.DropKey | internal/gateway/keypool.go:299-315 | an invalidation marks the record and releases a bench no newer than it |
| KeyPool.Pool.ClearKey | internal/gateway/keypool.go:334-353 | a success marks the record and releases a bench booked before its dispatch |
| KeyPool.Pool.WalkOrder | internal/gateway/keypool.go:145-220 | the loop partitions, prunes, rotates and sorts as specified, and advances the cursor with wrap-around |
| KeyVerdicts.JudgingTakesTheLater | internal/gateway/keypool.go:112-126 | each verdict moves generation and threshold to the later of theirs and its own |
| KeyVerdicts.RefusedIffOutranked | internal/gateway/keypool.go:226-250 | a 429 changes nothing if and only if the record stands at or past it |
| KeyVerdicts.LengtheningNeverShortens | internal/gateway/keypool.go:262-283 | lengthening keeps a bench standing, never earlier, nothing else touched |
| KeyVerdicts.RunStandsAtTheLatest | internal/gateway/keypool.go:112-126 | over any run with walks a record ends at the latest of what was said about it |
| KeyVerdicts.VerdictsAreConfluent | internal/gateway/keypool.go:28-56 | the same verdicts in any order, with any walks between, end in the same generation and threshold |
| KeyVerdicts.ThresholdIsTheLatestOfTheNewest | internal/gateway/keypool.go:28-56 | the generation is the newest reported and the threshold the latest dispatch reported in it |
| KeyVerdicts.RefusedStaysRefused | internal/gateway/keypool.go:93-98 | no expiry, release or walk makes an older 429 acceptable again |
| KeyVerdicts.StandingNeverFalls | internal/gateway/keypool.go:112-126 | generations never go back, nor a threshold within one |
| KeyVerdicts.BenchesStaySound | internal/gateway/keypool.go:42-56 | a standing bench's 429 went out after the last invalidation, and no success dispatched after its booking was seen |
| KeyVerdicts.GenerationsCommute | internal/gateway/keypool.go:112-126 | of two generations' verdicts only the newer one's counts, in either order |
| KeyVerdicts.VerdictsCommuteUnlessClash | internal/gateway/keypool.go:226-353 | from any sound record, which pairs of verdicts leave the same bench in either order, exactly |
| KeyVerdicts.BenchDependsOnArrival | internal/gateway/keypool.go:334-353 | on a fresh key a 429 and a success end in the same record in either order if and only if the success went out first |
| Benches.RecordChangesExactlyWhen | internal/gateway/keypool.go:160-199 | a walk changes a record if and only if it passes its key and finds the bench expired or of an older generation |
| Benches.CoolingKeyIsLeftAlone | internal/gateway/keypool.go:193-195 | walking past a key whose bench stands leaves its record as it was |
| Benches.HealthyExactlyWhen | internal/gateway/keypool.go:160-220 | a key is walked as healthy, before all the others, if and only if no bench of its generation stands against it |
| Benches.RateLimitedKeyWaits | internal/gateway/keypool.go:226-250 | over any run, an accepted 429 keeps its key cooling in every walk of its window, until a verdict on that key releases or supersedes it |
| Benches.BenchEndsEarlyExactlyWhen | internal/gateway/keypool.go:299-353 | exactly which verdicts release a bench |
| Benches.EvidenceLengthensExactlyWhen | internal/gateway/keypool.go:262-283 | exactly when body evidence moves a bench, and where to |
| WalkOrders.WalkIsAPermutation | internal/gateway/keypool.go:145-220 | a walk is a permutation of its keys, benched or not |
| WalkOrders.HealthyWalkFirst | internal/gateway/keypool.go:145-220 | healthy keys before cooling ones, these soonest first, the caller's order between equals |
| WalkOrders.WalkStartsAtTheCursor | internal/gateway/keypool.go:200-209 | a walk starts at the healthy key its cursor points to |
| WalkOrders.EveryHealthyKeyGetsItsTurn | internal/gateway/keypool.go:200-209 | over a row of n consecutive walks, each with its own records and clock, n healthy keys are each started at once if and only if the counter does not wrap or n divides its span |
| WalkOrders.TheWrapRepeatsATurn | internal/gateway/keypool.go:154-159 | across a wrap n does not divide, one key starts twice within n walks |
| WalkOrders.StartsAcrossADividingWrap | internal/gateway/keypool.go:154-159 | a wrap goes unnoticed when n divides the counter's span |
| WalkOrders.TurnsAreFairExactlyWhen | internal/gateway/keypool.go:154-209 | the n starting keys are a permutation of the healthy ones if and only if the counter does not wrap or n divides its span |
| Decision.Combine | internal/decision/decision.go:369-417 | the field-by-field fold is the join: strongest effects, one side's verdict whole |
| Decision.ResolveBatch | internal/decision/decision.go:462-475 | the loop is the fold from the zero value |
| DecisionFolds.OutranksIsTotal | internal/decision/decision.go:437-459 | on well-formed values the verdict order leaves no ties |
| DecisionFolds.ResolutionIsUnique | internal/decision/decision.go:369-417 | what a set of values resolves to is unique: bounded by all of them, attained among them |
| DecisionFolds.JoinResolvesTheUnion | internal/decision/decision.go:369-417 | joining two resolutions resolves the union of what went into them |
| DecisionFolds.CombineIsCommutative | internal/decision/decision.go:362-368 | commutative on well-formed values |
| DecisionFolds.CombineIsAssociative | internal/decision/decision.go:362-368 | associative on well-formed values |
| DecisionFolds.CombineIsIdempotent | internal/decision/decision.go:362-368 | repeating a value changes nothing |
| DecisionFolds.PayloadsMustBeTheRows | internal/decision/decision.go:437-459 | without well-formedness the fold does not commute |
| DecisionFolds.FoldBatchesResolves | internal/gateway/extension.go:648-659 | a sink's fold resolves the facts of all its batches and the zero value |
| DecisionFolds.OnlyTheWordsMatter | internal/gateway/extension.go:648-659 | the decision depends on the set of (Kind, Reason, Detail) reported, not order, repetition, reporter or grouping |
| DecisionFolds.MoreFactsNeverWeaken | internal/decision/decision.go:382-391 | adding facts weakens no effect and no status claim |
| DecisionFolds.VerdictIsOneFacts | internal/decision/decision.go:540-551 | the caller-facing verdict is one fact's, whole, or the seed's |
| DecisionFolds.CallerSeesOneFact | internal/decision/decision.go:502-569 | the status, error type, reason, detail and stickiness acted on come together from one fact or the bare seed |
| DecisionFolds.VerdictNeedsAnOpinion | internal/decision/decision.go:462-475 | it is a reported fact's if and only if some fact has an opinion on the status; otherwise the reason reads none |
| DecisionFolds.AuthRejectionLosesItsReason | internal/decision/decision.go:254-256 | a rejected credential reported alone reads back with no reason and no detail |
| DecisionFolds.ZeroIsNeutralExactlyWhen | internal/decision/decision.go:462-475 | exactly which values the zero seed leaves unchanged |
| DecisionFolds.EveryKindHasARow | internal/decision/decision.go:206-331 | a Kind has a written row if and only if it is in the enumeration |
| Effects.FoldTakesTheStrongest | internal/decision/decision.go:369-417 | each effect of everything reported is the strongest any one fact has |
| Effects.ChainGoesExactlyWhere | internal/decision/decision.go:206-331 | where the chain goes, decided by which kinds were reported |
| Effects.NoMoveIsFree | internal/decision/decision.go:141-151 | a retry costs an attempt and leaving a candidate at least a probe; an attempt is spent if and only if a request reached an upstream |
| Effects.BlameAndReversalExactlyWhen | internal/decision/decision.go:206-331 | whom the circuit breaker blames, and when everything reserved is reversed, by the kinds reported |
| Effects.VerdictIsTheLowestKinds | internal/decision/decision.go:419-459 | the caller-facing verdict is the lowest reported kind's that answers for itself, else the deferring one's, else nobody's |
| Effects.CallerIsShownExactly | internal/decision/decision.go:502-512 | the status shown is the speaker's own, the upstream's where it forwards that, or none |
| Effects.StatusFieldsOnlyWhereMeant | internal/decision/decision.go:206-331 | a code is set exactly on fixed-status rows, and words are kept only where the chain goes on |
| Rewriters.ExchangeSink.Report | internal/gateway/extension.go:613-633 | a report is one batch, attributed, and every fact of it is on the timeline |
| Rewriters.ExchangeSink.Resolve | internal/gateway/extension.go:653-659 | the verdict is what everything reported through this sink resolves to |
| Rewriters.ExchangeSink.ForObserver | internal/gateway/extension.go:536-541 | same provenance and timeline, none of the reports |
| Rewriters.RewriteAfterFailure | internal/gateway/extension.go:423-456 | the loop computes the chain, its verdict, and files every report, taken up or not |
| Rewriters.VerdictIsOfTheAccepted | internal/gateway/extension.go:404-422 | the verdict is the fold of what accepted invocations reported, nothing else |
| Rewriters.RepairIsTakenUpExactlyWhen | internal/gateway/extension.go:404-456 | a repair is taken up, and handed to the next rewriter, if and only if the body changed without failure and the repair was reported with nothing stronger |
| Rewriters.LastRepairIsSent | internal/gateway/extension.go:404-456 | the body re-sent is that of the last invocation taken up |
| Rewriters.RewritersOnlyRetry | internal/gateway/extension.go:404-456 | the loop effect is none or retry-same, and a returned body differs from the one dispatched |
| Rewriters.AbstainersLeaveNoTrace | internal/gateway/extension.go:404-456 | deleting every abstaining rewriter changes neither body nor verdict |
| Delivery.RulesAdmitExactlyTheCoherent | internal/fact/delivery.go:239-273 | the nine rules admit exactly the shapes a delivery can have |
| Delivery.ConstructorsAreCoherentWhen | internal/fact/delivery.go:124-202 | exactly when each constructor builds a coherent delivery |
| Delivery.ResponseWins | internal/gateway/modality_order.go:406-453 | reconciling makes the account agree with the response, keeps an agreeing one, always keeps the usage |
| Delivery.ContradictionIsTheGateways | internal/gateway/modality_order.go:406-453 | a contradiction keeps the response's status and the usage, and is settled as an incomplete gateway failure billed 500 |
| Delivery.NothingFollowsACommittedResponse | internal/gateway/log.go:478-494 | what settlement acts on is coherent, a committed response ends the request, and when exactly another candidate is tried or an error written |
| Delivery.CommitmentIsRecordedExactlyWhen | internal/gateway/log.go:619-627 | the record says committed if and only if the response has a status and an agreeing report is coherent |
| Delivery.CommittedButRecordedUndelivered | internal/gateway/log.go:619-627 | a concrete report that turns a served response into an undelivered record |
| Payload.OrderedPayload.RoutingIntent | internal/gateway/modality_order.go:214-225 | Routing obeys the guard: busy, panic, or the stage moved on |
| Payload.OrderedPayload.Estimate | internal/gateway/modality_order.go:227-239 | EstimateCost obeys the guard |
| Payload.OrderedPayload.SupportsCandidate | internal/gateway/modality_order.go:241-263 | Supports obeys the guard; a refused candidate is forgotten |
| Payload.OrderedPayload.Prepare | internal/gateway/modality_order.go:265-299 | PrepareUpstream obeys the guard; a failed, empty or ill-pathed build falls back |
| Payload.OrderedPayload.DeliverResponse | internal/gateway/modality_order.go:301-329 | Deliver obeys the guard, is reconciled even when busy, and ends the cycle when the request ended |
| Payload.OrderedPayload.Finalize | internal/gateway/modality_order.go:348-360 | FinalizeUsage obeys the guard |
| Payload.SerialCallsObey | internal/gateway/modality_order.go:138-148 | a call in one piece of the interleaved machine is the guard's method, an overlapping one is busy |
| Payload.RunKeeps | internal/gateway/modality_order.go:138-360 | every interleaving of calls and answers keeps the machine's invariant |
| Payload.CallsReachThePayloadInOrder | internal/gateway/modality_order.go:151-360 | prepare only for the candidate last accepted, deliver only after a successful build, nothing of the cycle after the end, nothing ordered after finalization |
| Admission.AdmittedExactlyWhen | internal/gateway/modality_order.go:151-360 | with no call running, a call reaches the payload if and only if what reached it before makes it due: any candidate from the estimate on, the accepted one for a build, a built one for delivery |
| Admission.EndsRequestExactlyWhen | internal/gateway/modality_order.go:318-327 | a report ends the request if and only if something reached the caller, by either account, or it settles |
| Admission.NextCandidateIsServed | internal/gateway/modality_order.go:241-329 | after a delivery that hands on, the next candidate can be tried, prepared and delivered |
| Payload.NoSecondCandidateAfterCommitment | internal/gateway/modality_order.go:301-329 | once a Deliver returns with the response committed, no candidate is tried, prepared or delivered again |
| Payload.UsageIsFinalizedAtMostOnce | internal/gateway/modality_order.go:348-360 | usage is finalized at most once |
| Splice.SpliceBody | internal/compress/splice.go:16-38 | the cursor loop is the splice of some arrangement, and for separate ranges the same one for all |
| Splice.ArrangementIsUnique | internal/compress/splice.go:20-22 | separate ranges have one sorted arrangement, so an unstable sort does not matter |
| Splice.SpliceIsPointwise | internal/compress/splice.go:24-37 | every byte outside the ranges and every replacement stands where the growth before it moved it, and the length adds up |
| Splice.BadRangesLeaveNoTrace | internal/compress/splice.go:27-31 | whatever ranges are passed, the splice is that of the ones taken, which neither overlap nor leave the body |
| Compress.TryChain | internal/compress/compress.go:134-152 | the loop takes the first compressor to yield something shorter, and stops on panic or expiry |
| Compress.TryBlock | internal/compress/compress.go:117-166 | one turn of the loop passes a block through its gates in the source's order |
| Compress.Collect | internal/compress/compress.go:116-168 | the loop over the blocks collects exactly the replacements that pass every gate, or gives up |
| Compress.RunCompress | internal/compress/compress.go:75-191 | which gate skips for which reason; skipped means the very body, panics included; not skipped on located blocks means strictly shorter |
| Compress.OnlyShorterFormsAreTaken | internal/compress/compress.go:116-168 | a block is replaced only by a form shorter decoded and encoded, from its own type's chain |
| Gates.ChainOutcomeExactlyWhen | internal/compress/compress.go:134-152 | failed and unhelpful compressors are passed over; the first other one decides, each outcome exactly when |
| Gates.BlockIsReplacedExactlyWhen | internal/compress/compress.go:116-168 | exactly when a block is replaced, by which compressor, with what |
| Gates.BlockStopsExactlyWhen | internal/compress/compress.go:116-152 | exactly when a block has no compressor, times the pass out, or fails it open |
| Gates.GatheredExactly | internal/compress/compress.go:110-168 | a pass gathers exactly the replaced blocks, in order, unless some block halts it |
| Gates.SkipsExactlyWhen | internal/compress/compress.go:75-191 | why a pass skips, each reason exactly when |
| Compress.PassOnlyShortens | internal/compress/compress.go:75-191 | a pass not skipped gives a strictly shorter body, equal outside the replaced ranges, shorter by exactly the savings, in any splice order |
| Compress.TokensAreAQuarterExactlyWhen | internal/compress/result.go:22 | the reported tokens are a quarter of the bytes saved if and only if the per-block remainders sum to less than 4 |
| Compress.TwoSmallSavingsReportNothing | internal/compress/estimate.go:5-11 | two blocks saving three bytes each report no token where a quarter of the total is one |
| AuditQueue.Worker.Submit | internal/audit/worker.go:209-222 | a full queue drops the newcomer and counts it, never a queued record |
| AuditQueue.Worker.TakeBatch | internal/audit/worker.go:300-311 | a batch is the head of the queue, up to the batch size |
| AuditQueue.Worker.DrainAndFlush | internal/audit/worker.go:273-295 | a drain empties the queue, batch after batch |
| AuditQueue.DrainStoresInOrder | internal/audit/worker.go:273-295 | a drain stores in queue order, and everything when no insert fails |
| AuditQueue.DrainLosesFailedBatchesOnly | internal/audit/worker.go:273-295 | a failed insert loses exactly its own batch |
| AuditQueue.StepKeeps | internal/audit/worker.go:209-311 | every step of submitters and flusher keeps the invariant |
| AuditQueue.RecordsAreConserved | internal/audit/worker.go:209-311 | in every state of every run, submitted is queued, dropped, in hand, stored and lost, and the queue is within capacity |
| AuditQueue.DroppedExactlyWhenFull | internal/audit/worker.go:209-222 | a submission is dropped if and only if the queue is full |
| AuditQueue.TableKeepsTheOrder | internal/audit/worker.go:273-295 | the table is a subsequence of the order of queuing, each record at its own time |
| AuditQueue.FinalDrainEmptiesTheQueue | internal/audit/worker.go:236-267 | after the flusher exits only submissions made after stop are queued |
| AuditQueue.LastDrainIsBounded | internal/audit/worker.go:236-267 | the flusher always has a step in its last drain, and each brings its exit nearer |

## Left out

- SQL, GORM, transactions and error wrapping: a table is a sequence of rows, an insert is atomic under its unique key, and a failing step is a parameter of the write.
- JSON text: bodies are given parsed, storing a payload and reading it back is the identity, and content_bytes and raw_length are not computed.
- Row metadata a transcript block echoes (model name, status class, token counts, durations, provider) and the session listing and pagination.
- Captures that land or disappear between a write and a read: a log row's response and stream are the same in both halves, so a stream recorded but not yet readable is one with an empty file.
- LostWrites.ParityExactlyWhen: assumes a session's requests are written in session order with logs that hold exactly their predecessors; out of order only LateFill's single gap and Racing's row shapes are proved.
- Racing.EveryRequestReadsWhole: assumes at most 1024 own and 1024 supplement rows per attempt; past that the ranges are not disjoint.
- Backfill.BackfillAll: a failing candidate query or a cancelled context between rounds is not modelled, nor the delay of the background task.
- Backfill.StandingAfter: assumes own batches within their range of 1024 rows; so do Backfill.PassStoresTheUnblocked, Backfill.SecondPassIsIdle and Backfill.BlockedIsForever.
- LateFill.LateFillReadsBackExactlyWhen: one gap, one session, own batches within their range, and a supplement that ends below a pending marker; several gaps at once are not characterized.
- IdleReader.StepKeeps: the reader is a transition system over values, not a class, because the goroutine and the consumer interleave; Read and Close are not concurrent, as their contract says, and buffers and Close's errors are not modelled.
- KeyPool.Pool.WalkOrder: a record is a value in the map rather than a shared pointer; nil receivers and the reading of a Retry-After header are not modelled.
- Payload.OrderedPayload.DeliverResponse: the modality behind the guard is its answer; a Deliver that panics after committing ends the request outside this model, and the parsing of an upstream path is a flag.
- Rewriters.RewriteAfterFailure: a rewriter is a function of the body handed to it; contexts, upstream snapshots and isolation copies are not modelled.
- Compress.RunCompress: locating blocks, detecting content, the compressors, JSON encoding and the wall clock are parameters; separate ranges are the locator's promise, not proved here.
- AuditQueue.Worker.DrainAndFlush: rows carry a time and an opaque event; the insert's outcome is a parameter.
- The relay loop, circuit breaker, codecs, pricing, HTTP handlers, logging and metrics: table lookups or plumbing without an invariant of their own.
