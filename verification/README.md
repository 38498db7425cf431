# Live Ninja protocols, verified

This project models the stateful protocols of Live Ninja and proves what they are meant to
guarantee, for every interleaving, event order or input. `dafny verify dfyconfig.toml` checks
all of it.

**Alexa turns** (`Store`, `Conversation`, `Trimming`, `Alexa*`). A spoken request becomes a
turn that a queue worker answers later; answers wait in a bounded queue and are read out in
chunks. Submit, Reset, Resume, Speech, Execute and finish are program counters over one
owner's table of versioned rows; every read and every conditional commit is its own step, and
runs are arbitrary sequences of starts, steps, crashes and clock ticks, so duplicate
deliveries and lost workers are included. `AlexaProtocol` holds the steps, `AlexaSafety` the
invariant, `AlexaSteps` to `AlexaTheorems` its preservation, `AlexaResults`, `AlexaCursor`,
`AlexaRuns`, `AlexaAnswers`, `AlexaContexts`, `AlexaLock`, `AlexaExclusion`, `AlexaOneLive` and
`AlexaRelease` the results. Over `AlexaMoments`, the states of a run one by one, `AlexaVerdicts`
proves which ending each turn gets and why, `AlexaContinues` which session a request goes on
with, `AlexaSpoken` and `AlexaHeard` what is said of a request and when; `AlexaUndisturbed` gives
the whole effect of each operation that nothing disturbs. `AlexaRace` and `AlexaResetRace` the runs that break exclusion.
Owner exclusion rests on the LOCK row, which is matched by version alone, deleted and recreated from version 1. It is
proved outright for one Echo, and shown to fail for two Echos by two concrete runs. For any
number of Echos two exact conditions are proved, per step and per run. Every live turn holds
the lock if and only if no commit overwrites or deletes a LOCK row naming a live turn that it
does not decide; that each commit matched the very LOCK row its process read is enough for it,
and it is enough for one live turn. There is at most one live turn if and only if no Submit
commits in time while another turn is live: a Reset or finish that takes a live turn's lock
only makes room for such a Submit.

**Owner phone call** (`OwnerPricing`, `OwnerCall`, `OwnerProperties`, `OwnerTrace`,
`OwnerDebts`, `OwnerAnswers`, `OwnerLoop`). An event loop with one reply in flight, barge-in, tools, paid
searches and one goodbye under a dollar cap. `OwnerCall` gives the effect of each event on a call state whose
`sent` field records everything done to the outside; `OwnerLoop` is the loop over mutable
variables, each method proved equal to that function; `OwnerAnswers` states what each event
does to the outside, and that committed turns are answered.

**Hotel call** (`HotelDialog`, `HotelCall`, `HotelProperties`, `HotelAnswers`, `HotelBridge`). The same
shape, with a questionnaire, token budgets and usage accounting.

**WebSocket codec** (`Frames`, `Messages`, `WsConn`). The server half of RFC 6455, against an
encoder written from section 5.2 of that standard.

**Code approvals** (`Approvals`, `ApprovalSafety`, `ApprovalAnswers`, `FileStore`), **device
pairing** (`Pairing`, `PairingSafety`, `PairingAnswers`, `PairingLimits`, `PairingRaces`):
compare-and-swap protocols under any interleaving, lost processes and row expiry.

**Boot log ring** (`BootLog`) and **batch deletion** (`BatchDelete`): array algorithms in
place, against a reset at any moment and a service that leaves any part undone.

Where the code and its comments differ, the model follows the code:

- Submit promises one live turn per owner; a LOCK version can repeat after a deletion, so over
  several Echos it does not always hold: a Submit may overwrite a live lock
  (`AlexaRace.TwoEchosBothLive`), a Reset may delete one (`AlexaResetRace.ResetRobsALiveTurn`).
  Exactly when it holds: `AlexaOneLive.OneLiveTurnExactly`; exactly when each live turn keeps
  its lock, which is enough for it: `AlexaExclusion.ExclusionExactly`.
- Owner pricing is documented as only over-counting when details are missing; it never drops
  below the true price, but with cached images omitting a detail can lower the charge
  (`OwnerPricing.ImagesBreakMonotonicity`, and exactly when: `OwnerPricing.OmittingIsSafeExactly`).
- Owner calls keep track of a tool result until it was spoken; a second tool call takes the
  place of the first one's result, which is then neither tracked nor reminded of
  (`OwnerDebts.SecondCallTakesTheDebt`, and exactly when: `OwnerDebts.NoResultIsLostExactly`).
- The fifth wrong pairing code is documented to invalidate the pairing; the count and the
  invalidation are separate writes. A process lost in between leaves the pairing open
  (`PairingRaces.FiveMissesMayStillBind`), and a confirmation may bind it in between
  (`PairingRaces.FiveMissesMayLoseTheRace`). Exactly when: `PairingLimits.GuessesAreLimited`,
  `PairingLimits.FifthEntryInvalidates`; a bound pairing with five wrong entries was bound
  before any invalidation (`PairingLimits.BoundWasNeverInvalid`).
- The hotel bridge sends its opening without looking whether a response is outstanding
  (`HotelProperties.TwoOutstanding`, and exactly when: `HotelProperties.OneResponseAtATime`).
- The WebSocket reader accepts control frames that section 5.5 of RFC 6455 forbids
  (`Messages.LenientAboutControls`); what it accepts, exactly: `Messages.AcceptsExactly`.

## Model

| member | source | states |
|---|---|---|
| `AlexaResults.TurnsOnlyMoveForward` | internal/alexa/service.go:204-222 | over every run, a turn row keeps identity and deadline, moves only pending, running, decided, and is never written again once decided |
| `AlexaRuns.ModelRunsAtMostOnce` | internal/alexa/service.go:453-492 | however often a message is delivered, the model is invoked at most once per receipt, by the process that moved its turn from pending to running, and no other action of the run, before or after, claims that turn |
| `AlexaResults.UndecidedTurnIsTheLastOfItsEcho` | internal/alexa/service.go:202-222 | every undecided turn is its Echo's session's last turn, so an Echo has at most one; every decided turn has dropped its input |
| `AlexaResults.OnlyCompletedTurnsAreRemembered` | internal/alexa/service.go:549-608 | history holds only completed turns of the same session and Echo; a queued answer's state is its turn's; a cancelled, failed or superseded result is in neither |
| `AlexaResults.ResetErasesTheConversation` | internal/alexa/service.go:256-295 | after a committed Reset no row of that Echo holds conversation text until its next Submit commits, whatever late workers, Speech or Resume do |
| `AlexaResults.AnswersAreSpokenInOrder` | internal/alexa/service.go:186-222 | receipts submitted to a session, in commit order, are those fully spoken followed by those queued; distinct, at most eight queued; only the newest queued one can be undecided |
| `AlexaResults.EverySessionSpeaksAPrefix` | internal/alexa/speech.go:112-161 | also for replaced sessions, what was spoken is a prefix of what was submitted |
| `AlexaResults.AnswersAreHeardInFull` | internal/alexa/speech.go:146-156 | each answer that left the queue was delivered from first to last rune, once and in order; of a queued one, exactly the text before its cursor was. White space at the ends of each part is counted as delivered, though it is trimmed when spoken |
| `AlexaResults.SpokenPartsFit` | internal/alexa/speech.go:36-48 | what is spoken, or repeated, is at most 545 runes |
| `AlexaCursor.PartlySpokenAnswersAreFixed` | internal/alexa/speech.go:146-156 | no step changes the text of a partly spoken answer or moves its cursor back while its session lasts |
| `AlexaCursor.CursorSpoken` | internal/alexa/speech.go:146-151 | speaking once more moves the head's cursor strictly forward or takes the answer off the queue |
| `AlexaTheorems.StepKeeps` | internal/alexa/service.go:136-608 | the invariant behind these results survives every step of every interleaving: reads, commits, crashes, duplicate deliveries, refused commits, time |
| `AlexaContinues.SubmitGoesOnWithItsOwnSession` | internal/alexa/service.go:170-233 | over every run: a Submit that commits goes on with the session row it read, still stored, keeping its history and queue and adding its own waiting turn and answer; unless it launched a Reset that committed before, that row was unexpired when read and has the request's ask, grant and generation |
| `AlexaContinues.ResetsOnlyWhenNeeded` | internal/alexa/service.go:176-182 | over every run: a Submit launches a Reset only if the session it read was missing, expired, or of another ask, grant or generation |
| `AlexaContinues.ContinuesWhenItCan` | internal/alexa/service.go:176-189 | and from an unexpired session with all three it goes on with that session, writing nothing, or stops because its queue is full |
| `AlexaEndings.ResetKeeps` | internal/alexa/service.go:258-295 | a committed Reset keeps the whole table invariant, the record of cleared Echos included, and moves turns only forward |
| `AlexaEndings.FinishKeeps` | internal/alexa/service.go:549-608 | a committed finish keeps the whole table invariant, queue and history included, and moves turns only forward |
| `AlexaSpoken.SpeechSaysWhatIsDue` | internal/alexa/speech.go:112-161 | over every run: what a committed Speech says and takes off the queue, or moves on in, is the next part of its head's stored answer if that was decided, the own model run's when complete; of an undecided one it says only a notice, only when its turn is past its deadline, its row or session past its expiry, or it was found interrupted; no turn and no other Echo's session changes |
| `AlexaCommits.ClaimKeeps` | internal/alexa/service.go:483-491 | a committed claim keeps the whole table invariant, and the turn was not claimed before |
| `AlexaLock.SubmitAddsTurn` | internal/alexa/service.go:204-222 | a committed Submit adds exactly its own turn, fails exactly the stale turn it read, and leaves every other turn as it was |
| `AlexaEndings.FinishSettles` | internal/alexa/service.go:566-583 | finish settles exactly its own queued answer, and turns an answer too large to keep into a failure |
| `AlexaHeard.WhatIsHeardWasDue` | internal/alexa/speech.go:118-156 | over every run: an answer heard to its end was said by a Speech at some moment, and is the sanitised text of that very request's one model run if its turn was complete then; and otherwise a notice: the stored one if its turn was decided, else the one that was due because it was past its deadline, lapsed, or found interrupted |
| `AlexaVerdicts.TurnsEndAsTheirRunsDid` | internal/alexa/service.go:455-608 | over every run, with each run's error on record: a turn is complete only if its own model run had no error, a text that is not blank, and no limit; failed as execution failure only if that run had an error, was blank or limited, with the quota's reason only if the run met that quota, as interrupted only past its deadline; cancelled only as stopped or as changed settings |
| `AlexaVerdicts.GoodRunsAreKept` | internal/alexa/service.go:521-608 | over every run: a model run without error, neither blank nor limited, none of whose checks failed and whose finish commits, ends its turn complete, or as too large exactly when its answer does not fit; its queued answer is then the sanitised text of that run and its exchange is appended to the trimmed history |
| `AlexaUndisturbed.ExecuteUndisturbed` | internal/alexa/service.go:455-608 | from every good state: a delivery of a waiting turn whose checks pass ends it with what the model's answer is worth, and settles its queued answer, history and lock with it |
| `AlexaUndisturbed.RunUndisturbed` | internal/alexa/service.go:497-512 | the model is given exactly the session's stored history |
| `AlexaUndisturbed.SubmitUndisturbed` | internal/alexa/service.go:136-233 | from every good state: a Submit left alone answers a repeated request without writing; else continues its own session or resets the Echo's first, and is then refused while the queue is full, the lock is held or the last turn is still worked on, and otherwise accepted with its turn, answer and lock |
| `AlexaUndisturbed.UnpublishedFails` | internal/alexa/service.go:234-255 | an accepted request that cannot be queued ends failed as unavailable, and gives its lock up |
| `AlexaUndisturbed.ResetUndisturbed` | internal/alexa/service.go:258-295 | a Reset left alone leaves a blank session, cancels the undecided last turn and gives up exactly that turn's lock; nothing else changes |
| `AlexaUndisturbed.ResumeUndisturbed` | internal/alexa/service.go:297-317 | a Resume left alone takes the unexpired session of its grant and generation over for its ask, and writes nothing else |
| `AlexaUndisturbed.SpeechUndisturbed` | internal/alexa/speech.go:99-163 | a Speech left alone says what is due of the head and moves on exactly past it; leaves the conversation as it is when asked to repeat what was said last; and writes nothing while the head may still be worked on |
| `AlexaUndisturbed.CommittedRowsAreKept` | internal/alexa/service.go:222-223 | whatever interleaves, each committed Submit, finish, Speech or Resume keeps its session fifteen minutes more; finishing leaves its turn's own time as it was |
| `AlexaMoments.OnlyTheNewIsRecorded` | internal/alexa/service.go:513-520 | over every run: what the model answers to its context goes on record in full, without the context again |
| `AlexaAnswers.RememberedAnswersAreTheModelsOwn` | internal/alexa/service.go:587-591 | what is kept for later turns and what waits to be spoken comes from the run of the request it is filed under |
| `AlexaExclusion.OneEchoHasOneLiveTurn` | internal/alexa/service.go:190-222 | with one Echo, nothing assumed: in every run at most one turn is live and it holds an unexpired lock that outlasts it |
| `AlexaExclusion.ExclusionExactly` | internal/alexa/service.go:190-295 | with many Echos, over whole runs: at every moment each live turn holds the unexpired lock if and only if no Submit, Reset or finish of the run overwrote or deleted a LOCK row naming a live turn that it did not decide; and then there is at most one live turn at every moment |
| `AlexaOneLive.OneLiveTurnExactly` | internal/alexa/service.go:190-295 | with many Echos, over whole runs, whoever holds the lock: at most one turn is live at every moment if and only if no Submit committed in time while another turn was live |
| `AlexaOneLive.OneLiveStep` | internal/alexa/service.go:222-233 | the same for one step from any state of a run with at most one live turn; a Reset or finish never adds one, even when it robs a live turn of its lock |
| `AlexaLock.LockStepExactly` | internal/alexa/service.go:222-292 | the same for one step from any good state: every live turn still holds the lock after it if and only if it did not rob another live turn of its LOCK row |
| `AlexaExclusion.LiveTurnsHoldTheLock` | internal/alexa/service.go:190-222 | with many Echos it is enough that each commit that matched a LOCK row matched the row its process read: then every live turn holds the unexpired lock and there is at most one |
| `AlexaExclusion.SubmitKeepsExclusion` | internal/alexa/service.go:222-233 | from any good state, a Submit that commits in time leaves one live turn if and only if the LOCK row it overwrote named no live turn |
| `AlexaRace.TwoEchosBothLive` | internal/alexa/store.go:135-145 | a thirty-action run from the empty table in which a Submit overwrites a LOCK that was deleted and retaken at the version it had read, and two Echos of one owner are both live |
| `AlexaResetRace.ResetRobsALiveTurn` | internal/alexa/service.go:280-295 | a second route, of forty-one actions: a Reset deletes another Echo's live LOCK by its repeated version, the next Submit finds it free, and two turns are live |
| `AlexaRelease.DecidedTurnsReleaseTheLock` | internal/alexa/service.go:285-292 | in every run, over any number of Echos, a LOCK row names an undecided turn that is its Echo's last: a decided turn never keeps the owner's other requests out |
| `AlexaLock.LockStep` | internal/alexa/service.go:285-292 | and so a step that matched the very LOCK row its process read keeps every live turn holding the lock: sufficient, not necessary |
| `Store.Dynamo.Commit` | internal/alexa/store.go:72-134 | all or nothing: the table changes exactly when all conditions and the owner fence hold, and then by exactly the writes asked for; otherwise which error, and no change |
| `Store.Plan` | internal/alexa/store.go:72-114 | accepts exactly the write lists that belong to one owner, and builds the transaction they ask for |
| `Store.CommitGrows` | internal/alexa/store.go:135-145 | where rows are only put through changed, a version identifies a row: stored rows are never confused with older ones |
| `Store.FaithfulMatch` | internal/alexa/store.go:90-97 | a snapshot of such a row passes the write condition if and only if it is still the stored row |
| `Store.DeletionReusesVersions` | internal/alexa/store.go:98-104 | deletion breaks that: a stale snapshot of a deleted and recreated row passes the condition |
| `Conversation.SpeechChunk` | internal/alexa/speech.go:31-49 | a chunk ends at the last whitespace of its last 245 runes, else at 545 runes or the text's end; says whether more follows |
| `Conversation.ChunkEndIsUnique` | internal/alexa/speech.go:36-48 | that end is unique, so the rule determines the chunk |
| `Conversation.PartsPartitionText` | internal/alexa/speech.go:31-49 | driving the cursor to the end reads the whole text once, in order, in pieces of 1 to 545 runes of which only the last may be under 301 |
| `Conversation.ViewResponse` | internal/alexa/handler.go:197-234 | the answer stays within 600 runes: a chunk with the prefix it gets, then the offer of more, or else the waiting hint exactly when some wait and it fits after that text |
| `Conversation.WordingFits` | internal/alexa/speech.go:204-246 | the fixed notices in use fit one chunk, as the protocol relies on |
| `Trimming.TrimHistory` | internal/alexa/service.go:610-633 | the shrinking loop computes the trimmed history and terminates for any size function |
| `Trimming.TrimmedIsLongest` | internal/alexa/service.go:610-633 | trimming keeps the longest suffix of whole exchanges that fits, else the last exchange's first and final message, else nothing |
| `Trimming.TrimmingNeverOrphansToolResults` | internal/alexa/service.go:620-629 | one call: trimming whole exchanges never leaves a tool result without its call |
| `Trimming.TrimmedKeepsExchanges` | internal/alexa/service.go:610-633 | each exchange left by trimming is one it was given, whole or cut to its first and final message |
| `AlexaContexts.ContextsKeepToolResults` | internal/alexa/service.go:496-508 | over every run: if the runner adds one whole exchange per completed turn, each session's history and each context about to be sent to the model keeps tool results with their calls, however often it was trimmed in between |
| `Trimming.BoundMessages` | internal/alexa/speech.go:57-79 | returns the longest fitting candidate among the whole input and the suffixes that start at a user message; fails exactly when none fits |
| `Trimming.CuttingAtARequestKeepsPairs` | internal/alexa/speech.go:54-56 | cutting at a user message keeps every remaining tool result with its call |
| `OwnerPricing.NeverUndercounts` | cmd/phone-trial-bridge/owner_cost.go:81-129 | for every true split of tokens consistent with what was reported, the charged price is at least the true price |
| `OwnerPricing.PriceIsReached` | cmd/phone-trial-bridge/owner_cost.go:81-129 | and no lower price would do: for a call without images whose details come in pairs, some split that agrees with the report costs exactly what is charged |
| `OwnerPricing.ExactWhenReported` | cmd/phone-trial-bridge/owner_cost.go:102-105 | with every detail reported it is the true price, and the cached count is exact |
| `OwnerPricing.OmittingNeverLowers` | cmd/phone-trial-bridge/owner_cost.go:81-91 | removing any true detail never lowers the price of a call without images |
| `OwnerPricing.OmittingIsSafeExactly` | cmd/phone-trial-bridge/owner_cost.go:101-119 | with images too: leaving out true details never lowers the price if and only if an inequality between the reported token counts holds: cached tokens of no reported kind must not outweigh what the reported kinds save |
| `OwnerPricing.ImagesBreakMonotonicity` | cmd/phone-trial-bridge/owner_cost.go:106-113 | with cached images, a concrete report shows that removing a detail can lower the price, though never below the true one |
| `OwnerPricing.CachedCountIsTheDiscount` | cmd/phone-trial-bridge/owner_cost.go:92-129 | the price is at most every token at the audio rate; the cached count is exactly the tokens charged less, at most the input |
| `OwnerPricing.ReserveCovers` | cmd/phone-trial-bridge/owner_cost.go:60-79 | a response within its token allowance is priced within its reserve, however it is reported |
| `OwnerProperties.CostStaysUnderCap` | cmd/phone-trial-bridge/owner_media.go:353-441 | in every order of events, with any searches, refunds and barge-ins, cost stays within the cap, or within one goodbye when the cap is below that, if responses come only when asked for and each is priced within the reserve it was admitted under, whatever tokens it reports |
| `OwnerProperties.AllowancesKeepTheCap` | cmd/phone-trial-bridge/owner_cost.go:60-79 | in particular when each response stays within its token allowance, however its usage is reported |
| `OwnerProperties.TightCapsGetNoReply` | cmd/phone-trial-bridge/owner_media.go:355-370 | a cap below one reply and a goodbye never gets a reply, whatever the model reports: the goodbye is its only response |
| `OwnerTrace.OneAtATime` | cmd/phone-trial-bridge/owner_media.go:396-441 | responses asked for never exceed those finished plus the one pending; at most one goodbye; each tool call id runs at most once; transcript turns are posted once each, numbered in order |
| `OwnerTrace.WrapUpIsFinal` | cmd/phone-trial-bridge/owner_media.go:409-420 | once wrapping up, the only response still asked for is the one goodbye, and speech never cancels, clears or cuts it |
| `OwnerTrace.InterruptedResponsesAreSilent` | cmd/phone-trial-bridge/owner_media.go:491-571 | nothing from a talked-over response is ever played or run; until some response finishes, nothing at all is |
| `OwnerTrace.RemindersAreKept` | cmd/phone-trial-bridge/owner_media.go:432-441 | a reminder once raised is neither lost, repeated nor overtaken |
| `OwnerDebts.OwedResultsAreSpoken` | cmd/phone-trial-bridge/owner_media.go:499-501 | over every run: a tool result stays owed, each response meant to speak it that was talked over or cancelled raising one reminder and nothing else any for it, until a response announced since is heard to its end, or the next tool result takes its place |
| `OwnerDebts.NoResultIsLostExactly` | cmd/phone-trial-bridge/owner_media.go:646-689 | over every run: each tool result handed to the model was heard to its end or is still owed, if and only if no tool call ran while a result was owed, and none without a name |
| `OwnerDebts.ResultsAreConserved` | cmd/phone-trial-bridge/owner_media.go:646-689 | results handed over are those heard to their end, the one owed, and those lost that way |
| `OwnerDebts.SecondCallTakesTheDebt` | cmd/phone-trial-bridge/owner_media.go:646 | a concrete run: one response calls two tools, the response that was to speak both results is talked over, and the model is reminded of the second only |
| `OwnerTrace.TheCallEnds` | cmd/phone-trial-bridge/owner_media.go:396-404 | once the goodbye is asked for, the hard timer stands exactly the wrap limit after that moment and ends the call; the idle timer never ends a call while the owner speaks |
| `OwnerAnswers.CommittedTurnsAreAnswered` | cmd/phone-trial-bridge/owner_media.go:421-516 | over every run: each turn the owner commits is answered: a reply is asked for at once, after the waiting reminders, or else waits and is asked for at the very next counted response.done, unless the call is over or wraps up |
| `OwnerAnswers.WrappingUpSaysGoodbye` | cmd/phone-trial-bridge/owner_media.go:409-420 | over every run: once the call wraps up, its goodbye is asked for at once or at the very next counted response.done, unless the call is over before |
| `OwnerAnswers.CommittedTurnIsAnswered` | cmd/phone-trial-bridge/owner_media.go:510-517 | one committed turn: the idle time starts afresh, and a reply is asked for, queued behind the outstanding response, replaced by the goodbye when it costs too much, or dropped while wrapping up, exactly |
| `OwnerAnswers.ToolCallIsAnswered` | cmd/phone-trial-bridge/owner_media.go:618-649 | a tool call that runs is paid for, run, its result handed to the model, and a reply to it asked for |
| `OwnerAnswers.OtherCallsEnd` | cmd/phone-trial-bridge/owner_media.go:589-635 | every other tool call: talked over, repeated, beyond the cost, or ending the call, each with exactly its effect |
| `OwnerAnswers.DoneIsCounted` | cmd/phone-trial-bridge/owner_media.go:650-722 | a counted response is added up at its price and leads to the drain, the goodbye or the waiting reply, exactly |
| `OwnerAnswers.WritesOut` | cmd/phone-trial-bridge/owner_media.go:467-588 | microphone, playback, transcript and failure events: what goes out, and when the call ends |
| `OwnerAnswers.SpeechBreaksIn` | cmd/phone-trial-bridge/owner_media.go:518-552 | speech cancels the outstanding response, clears the playback and reports how much of it can have been heard; in the goodbye it does none of it |
| `OwnerAnswers.AnnouncedIsTracked` | cmd/phone-trial-bridge/owner_media.go:491-502 | an announced response becomes the active one, is disowned when talked over, is the goodbye when that was asked for, and else the one to speak the owed result |
| `OwnerAnswers.TimersEndTheCall` | cmd/phone-trial-bridge/owner_media.go:447-466 | each timer ends or wraps up the call exactly when it is due |
| `OwnerLoop.OwnerCallLoop` | cmd/phone-trial-bridge/owner_media.go:332-733 | the loop over its variables computes exactly the step functions, stops at the first ending, and so keeps the cost cap and the once-only rules, and answers every committed turn |
| `OwnerLoop.Loop.AskForReply` | cmd/phone-trial-bridge/owner_media.go:421-441 | request: admitted, queued, refused for cost or sent with its reminders, as the step function says |
| `OwnerLoop.Loop.BeginGoodbye` | cmd/phone-trial-bridge/owner_media.go:409-420 | startGoodbye: one reason, now or after the reply in flight |
| `OwnerLoop.Loop.HandleDone` | cmd/phone-trial-bridge/owner_media.go:650-722 | response.done: accounting, owed results, and what follows |
| `OwnerLoop.Loop.HandleToolCall` | cmd/phone-trial-bridge/owner_media.go:589-649 | tool calls: dropped, refused, run once, paid for |
| `OwnerLoop.Loop.Invoke` | cmd/phone-trial-bridge/owner_media.go:618-648 | a paid search is allocated before it runs and given back only when refused outright |
| `OwnerLoop.Loop.HandleSpeechStarted` | cmd/phone-trial-bridge/owner_media.go:518-552 | barge-in: cancel, clear, truncate to what can have been heard |
| `OwnerLoop.Loop.HandleAudio` | cmd/phone-trial-bridge/owner_media.go:553-571 | audio is played unless its response was talked over, and its length is added up |
| `HotelProperties.AtMostNineResponses` | cmd/phone-trial-bridge/media.go:190-227 | every event stream asks the model for at most nine responses, never indexes past the four questions, and counts each distinct response once |
| `HotelProperties.CompleteMeansCounted` | cmd/phone-trial-bridge/media.go:185-189 | usage is reported complete only when every response asked for was counted and the totals are their sum |
| `HotelProperties.TokensStayUnderLimits` | cmd/phone-trial-bridge/media.go:389-428 | totals stay within 50000 and 25000 tokens while each response stays within 12000 and 512 |
| `HotelProperties.OneResponseAtATime` | cmd/phone-trial-bridge/media.go:296-302 | at most one response is ever outstanding if and only if none is outstanding when the session is first confirmed |
| `HotelProperties.TwoOutstanding` | cmd/phone-trial-bridge/media.go:296-302 | that condition can fail: a concrete event order leaves two responses outstanding |
| `HotelDialog.EveryTurnHasItsReply` | cmd/phone-trial-bridge/dialog.go:136-185 | for a dialog not closing: a withdrawal closes it as withdrawn; a request to hold on is waited out; the first non-answer to a question asks it again, the second closes; an answer, or an untranscribed turn, leads to the next question, or after the fourth closes; what was said is the newest note, cut and unquoted, the oldest dropped beyond eight |
| `HotelDialog.AnswersAreCounted` | cmd/phone-trial-bridge/dialog.go:136-185 | over every dialog: the next question is the number of turns that were answers |
| `HotelDialog.WithdrawalIsFinal` | cmd/phone-trial-bridge/dialog.go:157-161 | over every dialog: once the staff withdrew, nothing more is said, so no question is asked |
| `HotelAnswers.TurnIsAnswered` | cmd/phone-trial-bridge/media.go:217-227 | a staff turn whose segments are all transcribed, failed or overdue is answered with what the dialog has for it, sent at once or, while a response is outstanding, queued in place of an older prompt; the next turn starts afresh |
| `HotelAnswers.SegmentsInOrder` | cmd/phone-trial-bridge/media.go:217-219 | the text so answered is every segment in order, one space between each two |
| `HotelAnswers.TurnIsCollected` | cmd/phone-trial-bridge/media.go:359-387 | until then each transcript and failure is kept for it, and only for segments that are awaited |
| `HotelAnswers.SilenceIsAnswered` | cmd/phone-trial-bridge/media.go:260-266 | silence counts as a non-answer only when due and nothing is outstanding, awaited or ending |
| `HotelAnswers.WaitingPromptsGoOut` | cmd/phone-trial-bridge/media.go:430-435 | over every call: a waiting prompt is asked at the very next response that counts, unless the call ends; only a later staff turn replaces it |
| `HotelAnswers.ClosingSaysGoodbye` | cmd/phone-trial-bridge/media.go:209-227 | over every call: once the dialog closes no question is asked any more, at most one goodbye is, and until the call is over it was asked for or waits behind an outstanding response |
| `HotelAnswers.DoneIsCounted` | cmd/phone-trial-bridge/media.go:389-445 | a response that counts is added to the totals and leads to the end of the budget, the end of the call, the waiting prompt, or the wait for an answer from the end of the playback on, exactly |
| `HotelAnswers.UncountedEnds` | cmd/phone-trial-bridge/media.go:389-428 | one that does not count ends the call for its reason and spoils the usage, except that a repeated one is ignored |
| `HotelAnswers.SpeechBreaksIn` | cmd/phone-trial-bridge/media.go:333-358 | speech clears the playback, stops the wait for an answer and reports how much can have been heard |
| `HotelAnswers.EndCallDrains` | cmd/phone-trial-bridge/media.go:446-466 | the model's one tool ends the call: at once if refused or consent was withdrawn, else when the rest is played out |
| `HotelDialog.NotedIsGood` | cmd/phone-trial-bridge/dialog.go:111-125 | notes stay at most eight, each bounded and free of double quotes |
| `HotelDialog.Dialog.Reply` | cmd/phone-trial-bridge/dialog.go:150-177 | the reply method, in place, gives each turn the reply it is due, by what was said, and uses up what is left of the dialog |
| `HotelDialog.Dialog.Silence` | cmd/phone-trial-bridge/dialog.go:180-185 | silence counts as a non-answer, once |
| `HotelBridge.BridgeLoop` | cmd/phone-trial-bridge/media.go:170-476 | the loop over its variables computes exactly the step functions, and so keeps the nine-response and usage rules |
| `HotelBridge.Bridge.HandleDone` | cmd/phone-trial-bridge/media.go:389-445 | response.done: what is invalid, what is counted, when the budget ends the call |
| `HotelBridge.Bridge.SettleTurn` | cmd/phone-trial-bridge/media.go:217-227 | a staff turn is answered once all its segments are transcribed or overdue |
| `Frames.FramesReadBack` | cmd/nova-bridge/ws.go:178-226 | section 5.2 of RFC 6455: any frame in any of the three length forms, masked or not, is read back as sent, whatever follows |
| `Frames.OnlyFramesAreRead` | cmd/nova-bridge/ws.go:178-226 | and nothing else is: bytes that yield a frame are exactly that frame's encoding |
| `Frames.ServerFramesReadBack` | cmd/nova-bridge/ws.go:248-281 | every frame the server writes decodes to its opcode and payload, unfragmented and unmasked |
| `Frames.MaskUndoes` | cmd/nova-bridge/ws.go:222-224 | masking twice with one key restores the payload |
| `Messages.ConformingMessagesArrive` | cmd/nova-bridge/ws.go:124-176 | a text or binary message in any fragments with pings and pongs anywhere between is returned whole within the 1 MiB cap, each ping answered in order with its payload |
| `Messages.MessagesArrive` | cmd/nova-bridge/ws.go:127-176 | the same for any control frames the reader lets pass, and from the middle of a message |
| `Messages.OnlyMessagesArrive` | cmd/nova-bridge/ws.go:127-176 | when a message is returned, the bytes consumed are exactly one message's frames with pings and pongs in between |
| `Messages.AcceptsExactly` | cmd/nova-bridge/ws.go:127-176 | the two together: a stream yields a message if and only if it starts with the frames of one that fits the cap, with any pings and pongs in between, as many pings as can be answered |
| `Messages.LenientAboutControls` | cmd/nova-bridge/ws.go:143-151 | the reader accepts a fragmented control frame, which section 5.5 forbids |
| `Messages.CloseIsAnswered` | cmd/nova-bridge/ws.go:143-145 | a close frame is answered by one close and ends the reading |
| `WsConn.Conn.ReadFrame` | cmd/nova-bridge/ws.go:180-226 | the buffered reader decodes exactly the specified frame, or refuses with the specified error |
| `WsConn.Conn.ReadMessage` | cmd/nova-bridge/ws.go:127-176 | the reassembly loop returns, writes and leaves unread exactly what the message specification says |
| `WsConn.Conn.Unmask` | cmd/nova-bridge/ws.go:222-224 | unmasks a payload in place |
| `WsConn.Conn.WriteFrame` | cmd/nova-bridge/ws.go:248-281 | writes exactly the server frame, or nothing once the transport is at its end |
| `WsConn.Conn.WriteControl` | cmd/nova-bridge/ws.go:240-245 | cuts control payloads to 125 bytes |
| `WsConn.Conn.Close` | cmd/nova-bridge/ws.go:284-291 | sends at most one close frame however often it is called, and shuts the transport: nothing is written afterwards, nothing read beyond what was already buffered |
| `ApprovalSafety.OneShotPerGeneration` | internal/codeapproval/service.go:321-427 | in every interleaving with rows removed at any time, each generation is written at most once at version 1 and at most once at version 2, the latter an in-time approval of the former with nothing else changed |
| `ApprovalSafety.ApprovalsAgree` | internal/codeapproval/service.go:386-427 | all successful Approve calls for one reviewed hash return the same intent and receipt, made for their own request |
| `ApprovalSafety.ApprovalNeedsTheReviewedRow` | internal/codeapproval/dynamo.go:116-120 | for an active owner and an answering store, an approval lands if and only if the row still is the reviewed generation, unapproved: a removed and re-prepared row is never approved |
| `ApprovalSafety.RetriesAgree` | internal/codeapproval/service.go:397-402 | whoever repeats an Approve call that succeeded gets that very success, receipt and all, for as long as the approved row is kept, even past the review's expiry |
| `ApprovalSafety.PreparationsAreAsAsked` | internal/codeapproval/service.go:330-384 | a successful Prepare returns a valid intent for exactly what was asked, under its own id |
| `ApprovalAnswers.PrepareUndisturbed` | internal/codeapproval/service.go:321-384 | from every good state: a Prepare left alone returns the kept intent of its request exactly if it is for the same action; else, with an owner, an answering store and a catalog entry, stores and returns a new one, reviewable for fifteen minutes and kept for thirty days; else changes nothing |
| `ApprovalAnswers.ApproveUndisturbed` | internal/codeapproval/service.go:386-427 | from every good state: an Approve left alone returns an approved row exactly to the request that approved it; approves an unapproved one exactly if hash, version and source are the reviewed ones, in time, by an owner; else changes nothing |
| `FileStore.Store.CompareAndSwap` | internal/codeapproval/file.go:122-156 | stores what the shared swap condition stores, in memory and on disk together, or changes neither |
| `FileStore.Store.Find` | internal/codeapproval/file.go:72-84 | returns the stored record, and nothing once closed |
| `FileStore.InCatalog` | internal/codeapproval/service.go:344-361 | the catalog scan finds the repository and the first listed machine |
| `PairingSafety.PairingsMoveForward` | internal/auth/device.go:290-370 | whatever races, a pairing goes only pending, bound, claimed, or pending, failed; device and owner are fixed once bound |
| `PairingSafety.OneProvenClaimPerPairing` | internal/auth/device.go:383-462 | at most one claim per pairing, after a confirmation with the matching user code, to a matching verifier (section 4.6 of RFC 7636), for that confirmation's device and owner |
| `PairingAnswers.BindUndisturbed` | internal/auth/device.go:290-370 | from every reachable state: a confirmation left alone binds an open pairing to a new device of its account exactly if the code matches, else counts a wrong entry and fails the pairing at the fifth; without an account or an open pairing it changes nothing |
| `PairingAnswers.ClaimUndisturbed` | internal/auth/device.go:383-462 | a claim left alone gets the bound device and its account exactly if the pairing is bound and the verifier is its challenge's |
| `PairingAnswers.RightCodePairs` | internal/auth/device.go:218-462 | from every reachable state: a device registers, an account types its code in any casing and grouping, and the device's claim gets a new device of that account |
| `PairingLimits.VerdictOfAPairing` | internal/auth/device.go:591-623 | in every reachable state, exactly: failed if and only if never bound and some process that read five or more wrong entries carried out its write; bound or claimed if and only if a confirmation bound it; else open. Never failed before the fifth entry |
| `PairingLimits.GuessesAreLimited` | internal/auth/device.go:591-623 | with five or more wrong entries, the pairing is left open if and only if it was not bound and every process that was to act on five ended before its flip or is still under way; each entry from the fifth on is to be acted on |
| `PairingLimits.FifthEntryInvalidates` | internal/auth/device.go:591-623 | once the process of the fifth entry carried out its flip, the pairing is invalid if and only if no confirmation bound it, whatever the other processes did |
| `PairingLimits.BoundWasNeverInvalid` | internal/auth/device.go:346-370 | a bound pairing, whatever its count, was bound by a confirmation that found it open, and at no moment of the run was it invalid |
| `PairingRaces.FiveMissesMayStillBind` | internal/auth/device.go:591-615 | counting and failing are two writes: a concrete run with a crash in between ends with five wrong entries and a bound pairing |
| `PairingRaces.FiveMissesMayLoseTheRace` | internal/auth/device.go:591-623 | nobody need die: in a concrete run every process runs to its end, and a confirmation that was already under way binds the pairing between the fifth count and its flip |
| `Pairing.TypedCodesMatch` | internal/auth/device.go:556-582 | a typed code matches if and only if it is the stored one in any case and with separators anywhere |
| `Pairing.DisplayedCodesMatch` | internal/auth/device.go:546-582 | the code as displayed matches the code as stored |
| `Pairing.GenerateUserCode` | internal/auth/device.go:519-544 | the code is the first eight accepted bytes, all from the alphabet |
| `Pairing.LettersAreUniform` | internal/auth/device.go:519-526 | every letter is drawn by exactly twelve of the 256 bytes |
| `BootLog.Ring.Append` | firmware/main/ln_bootlog.c:82-91 | the ring refines the last 3072 characters of everything logged, for any appends; head equals len until it is full |
| `BootLog.Ring.LogLine` | firmware/main/ln_bootlog.c:93-105 | a line is logged whole, or cut to its first 255 characters |
| `BootLog.Ring.Linearize` | firmware/main/ln_bootlog.c:297-303 | the report is exactly that suffix, oldest first, with NULs shown as spaces |
| `BootLog.Ring.Init` | firmware/main/ln_bootlog.c:259-331 | the previous boot is reported exactly when its memory is plausible and the report can be allocated, never indexing outside the buffer, and a fresh ring starts |
| `BootLog.TornOrder` | firmware/main/ln_bootlog.c:84-89 | a reset before len is updated leaves the report in log order if and only if the ring was full or the append had not wrapped |
| `BootLog.PushBoot` | firmware/main/ln_bootlog.c:318-329 | the history keeps the newest eight boots, newest first |
| `BatchDelete.BatchDelete` | cmd/account-purge/main.go:344-384 | success means every key handed in was deleted; failure deletes nothing else; requests and waiting are bounded by the number of chunks |
| `BatchDelete.Dedup` | cmd/account-purge/main.go:348-355 | the in-place dedup moves exactly the distinct keys to the front of the same array, in first-seen order |
| `BatchDelete.FirstSeenHasAll` | cmd/account-purge/main.go:348-355 | first-seen keys are all the keys, each once |
| `BatchDelete.FirstSeenInOrder` | cmd/account-purge/main.go:348-355 | and keep the order in which each was first seen |
| `BatchDelete.DeleteChunk` | cmd/account-purge/main.go:366-382 | one chunk of 1 to 25 distinct keys takes at most nine requests, each for what the last left undone |

## Left out

- Alexa service operations are steps on values, not methods that update fields: between any two of their reads and commits other processes run, and each commit replaces whole rows. Field-by-field updates of the local copies, which nothing else sees, are not captured.
- Approve, Prepare and the pairing calls are steps on values for the same reason; FileStore's own update and rollback are in place.
- AlexaProtocol: a row read and the clock reading that follows it before the next read or commit are one step with one clock value: the lock and its expiry in Submit (service.go:190-196), the turn and its deadline in Execute and CheckWork's checks (service.go:478-483), a session and its validity, the view of a turn. Time passing between the two, so that a row read as unexpired is found expired a moment later, is not captured.
- The owner is fixed: one owner's rows form the table, and keys are kept apart by kind.
- Status, Receipt, CheckWork and the views a duplicate Submit returns only read; the reads that Execute's own checks make are included, those of the broker are not.
- The upgrade of sessions that have no answer queue yet (prepareReplies with nil Replies): all sessions start with a queue.
- DynamoDB's TTL sweep of Alexa rows: expiry is data that the code reads. A session's random id is drawn when its row is committed, which is when it is first seen.
- safeSpeech's patterns, JSON sizes, digests, HMACs and S256: open functions, digests injective. The two notices that safeSpeech is applied to are assumed to pass through it unchanged.
- Alexa wording of pending, ready and expired responses, commands and polling in Handle: they choose between fixed sentences.
- The owner cap theorem assumes that the model answers only when asked, and at a price within the reserve it was admitted under, which the code cannot enforce; money is exact reals, without floating-point rounding.
- Call timers fire at any moment at or after they are due; several clock readings within one event are one reading. A refused write ends the call and counts as attempted; partial writes are not split further.
- Log lines, metrics, HTTP calls, audio decoding and the wording of prompts, notices and reminders: parameters or environment answers.
- classifyReply's patterns and whitespace splitting are open functions of the text.
- WsConn.Conn.WriteFrame: does not model a header written without its payload, because the transport takes a frame whole or not at all.
- WebSocket upgrade handshake, deadlines and the write mutex.
- Prepare's input normalisation: the action arrives normalised. Listing and paging of approvals only read. Durable directory sync after a rename is taken to succeed.
- Approve reads the clock once, where the code reads it again for the receipt's timestamp.
- Upper-casing of typed pairing codes outside ASCII, IoT provisioning, session storage and refresh rotation. Pairing rows expire at any moment.
- BootLog.Ring.Init: does not model what is kept in flash, the boot number and the last unplanned reset's report, because storage answers are the environment's; PushBoot gives the history it stores.
- The report's heading, reset reasons and panic registers of the boot log; 32-bit overflow of its counters, which its callers' line length rules out.
- Handler ids, page cursors, S3 and IoT deletion in the account purge.
