# A verified model of the lead assistant

The system answers property leads over WhatsApp. Messages of a lead are collected for a few
seconds and handed to a turn of a conversation engine, which extracts what was said with a
language model, searches the tenant's properties, shows up to three of them as numbered
"fichas", asks for what is missing and at last proposes a visit and hands the lead to a human.
Admins send messages by hand, release and opt out leads, import properties from CSV files and
manage the visits.

This project models that behaviour in Dafny and proves what the system promises about it: over
every interleaving of webhooks, turn jobs and manual sends, over every run of a conversation,
for every table of properties, every text and every file. Code that works by changing things is
written as methods and classes and proved against the functions and state machines the theorems
are about.

| file | what it models |
|---|---|
| `TurnProtocol.dfy`, `TurnScheduling.dfy`, `TurnProtocolResults.dfy` | the debounce buffer, its two job ids and the lead lock as a protocol of atomic steps |
| `DebounceBuffer.dfy` | the scheduler and the manual send as code: one call, one step, anything in between |
| `Lead.dfy`, `Handlers.dfy`, `Engine.dfy` | the lead row, guardrails, score, state handlers and one turn of the bot |
| `HandlerFacts.dfy`, `HandlerChoices.dfy` | what every handler's result satisfies, and which answer is chosen when |
| `ConversationRuns.dfy`, `ConversationResults.dfy`, `ConversationExamples.dfy` | whole runs of a conversation, what holds of all of them, and runs that show why the conditions are there |
| `TurnEffects.dfy`, `StoredWords.dfy` | what single turns leave in the row, and what is shown against it |
| `ConversationEngine.dfy` | the engine and its handlers as code that writes the row and sends messages |
| `PropertySearch.dfy`, `SearchOrder.dfy`, `Worlds.dfy` | hard filters, relaxation ladder, ranking and teaser; what they mean in prices; and that every table admits such answers |
| `TextWords.dfy`, `EditDistance.dfy`, `ZoneText.dfy` | the typo distance, the zone matcher and the sanitising of extractions |
| `CsvParser.dfy`, `CsvImport.dfy`, `CsvColumns.dfy` | the CSV reader, the property import, and which cell each field comes from |
| `Appointments.dfy` | the life of a visit under concurrent requests |

`dafny verify dfyconfig.toml` checks everything.

## Assumptions

- The job queue behaves as src/pipeline/debounce-buffer.service.ts:183-190 and 215-219 say:
  `add` does nothing while a job with that id is known, finished ones included, and an active job
  cannot be removed. Fixed job ids leave one worker per id.
- Texts are pushed by jobs of the same inbound queue that runs the turns
  (src/pipeline/inbound.processor.ts:35-48), whose worker takes one job at a time unless told
  otherwise. Pushes overlap with a turn, as the protocol lets them, when they come from the media
  worker or when the service runs as more than one process.
- The property table does not change within one turn.
- `expired` marks runs in which the lock's time to live ran out under its holder; results about
  exclusion say what holds while it did not. Deleting a lead, which drops the lock without holding
  it, is not part of a run.
- In `ConversationRuns` a bot turn is one step. The lock justifies this against manual sends. Admin
  releases and opt-outs take no lock; `TurnProtocolResults` treats that race.
- What the search service answers in a conversation is any answer its own contract allows
  (`World.Valid`), and `EveryTableHasAWorld` shows that such answers exist for every table. The
  methods in `PropertySearch` meet that contract.

## Where the code does not do what it is meant to

- **A message that arrives while its lead's turn is being answered is not answered.** The turn's
  own job id is still active, so the `add` of the push does nothing and the buffer keeps the
  message until something else arrives (`MessageDuringTurnIsStranded`, `AsleepUntilNextPush`;
  `StrandedMeansSwallowed` and `SwallowedByItsOwnId` say exactly when this happens).
- **A retry that meets a busy lock is not repeated**: it would have to reuse its own active id
  (`RetryMeetsBusyLock`, `RetryIsNotRepeated`).
- **A message pushed between the read and the delete of the buffer is lost**, and nothing else is
  (`MessageInsidePopIsLost`, `TurnsGetEverything`, `LostIsPushedInBetween`).
- **An admin's opt-out inside a turn is taken back** by the turn's final write
  (`OptOutDuringTurnIsOverwritten`): it stands for good exactly when no turn is past its read with
  another state to write (`OptOutStands`).
- **A session does not expire after thirty days of silence** (`ThirtyDaysOfSilence`). The webhook
  dates the lead when a message arrives (src/leads/leads.service.ts:12-16), before its turn compares
  that date with the clock; the document docs/10-ANALISIS-EXPIRACION-SESION-Y-HISTORIAL.md promises
  otherwise. A session expires only if the message itself has waited thirty days
  (`ArrivalKeepsSessionAlive`; `SessionExpiresExactly` is the exact condition).
- **A handoff reached in the turn that releases a timed-out one keeps the old date**, so it does
  not silence the bot (`ReleasedHandoffIsNotDated`; `HandoffSilencesTheBot` is the exact condition).
- **An opted-out lead may still be written to** by a manual send that had committed or an
  unsupported-message reply that had passed its check (`SendOutlivesOptOut`, `ReplyOutlivesOptOut`;
  `SilentExactlyWhenNoneIsUnderWay` is the exact condition).
- **The cached score goes stale** when a session expires in a turn whose extraction fails and the
  reset changes the score (`ScoreGoesStale`; `ScoreStaysAgreed` is the exact condition).
- **What is said beside the point of a turn is lost**: a budget in the same text as a sign of buying,
  a digression or a number chosen is not stored (`WhatWasSaidIsStored` is the exact condition).
- **The teaser ignores garage and pets** (`TeaserLeavesGarageOut`; `FichasMeetTheRow` says what every
  ficha meets).
- **The public confirmation page can reopen a cancelled visit** (`PageReopensCancelled`; `LegalPath`
  is the exact condition), and **an accepted request may answer with another request's result**
  (`AnswerShowsAnother`; `AnswerIsItsOwn` is the exact condition).

## Model

| member | source | states |
|---|---|---|
| TurnProtocolResults.OneAtATime | src/pipeline/debounce-buffer.service.ts:55-131 | over every run in which no holder outlives the lock, at most one of all turns and manual sends is between taking and releasing it, and the lock is taken exactly then |
| TurnProtocolResults.ExpiryLetsTwoIn | src/pipeline/debounce-buffer.service.ts:223-239 | a run in which the lock expires under its holder and two are inside |
| TurnProtocolResults.TurnsGetEverything | src/pipeline/debounce-buffer.service.ts:39-94 | batches in order followed by the buffer are everything pushed in order, exactly when no pop took an entry between its read and its delete |
| TurnProtocolResults.LostIsPushedInBetween | src/pipeline/debounce-buffer.service.ts:152-160 | whatever the others do between a worker's read and its delete, the pop takes what was read and loses exactly what was pushed meanwhile |
| TurnProtocolResults.MessageInsidePopIsLost | src/pipeline/debounce-buffer.service.ts:157-158 | a run in which a message pushed between the read and the delete is gone |
| TurnProtocolResults.AtMostOneTurn | src/webhook/webhook.service.ts:187-226 | however often a message is delivered it enters one turn at most, and never a turn and the buffer |
| TurnProtocolResults.StrandedMeansSwallowed | src/pipeline/debounce-buffer.service.ts:162-221 | with no job pending and no push or flush under way that will look, entries wait exactly when an `add` was swallowed since the last one that worked |
| TurnProtocolResults.SwallowedByItsOwnId | src/pipeline/debounce-buffer.service.ts:210-221 | an `add` is swallowed only by the job of its own id, active or finished |
| TurnScheduling.PushAddsTurn | src/pipeline/debounce-buffer.service.ts:162-178 | in every run, a push that has come to its end has left the turn job waiting right after its `add`, unless that job was at work between the push's look and the `add` |
| TurnScheduling.QuietPushAddsTurn | src/pipeline/debounce-buffer.service.ts:210-221 | with no turn at work meanwhile the job is waiting after the `add`: a finished job of the same id is no obstacle |
| TurnScheduling.BusyTurnAddsRetry | src/pipeline/debounce-buffer.service.ts:191-201 | in every run, a turn job that met a busy lock and went on has left the retry waiting, unless the retry was at work in between |
| TurnProtocolResults.RetryIsNotRepeated | src/pipeline/debounce-buffer.service.ts:191-201 | after any run, when a retry meets a busy lock with no push or turn job left to look, no continuation without a new message ever moves the entries |
| TurnProtocolResults.RetryMeetsBusyLock | src/pipeline/debounce-buffer.service.ts:55-68 | a run in which a manual send keeps the lock, the turn's retry meets it too and the message stays |
| TurnProtocolResults.AsleepUntilNextPush | src/pipeline/debounce-buffer.service.ts:162-221 | once nothing under way looks at the buffer, nothing but another push ever changes it |
| TurnProtocolResults.MessageDuringTurnIsStranded | src/pipeline/debounce-buffer.service.ts:162-178 | a run at whose end a message waits with nothing left to look at it |
| TurnProtocolResults.ManualHandoffStands | src/admin/leads/admin-lead-messaging.service.ts:99-170 | over every run in which no holder outlives the lock, whatever the admins do inside a turn, a handoff committed by a manual send goes only by an admin's release or opt-out, a later send's commit, or a turn that saw that very handoff and found it timed out or was asked to opt out |
| TurnProtocolResults.ManualHandoffStays | src/admin/leads/admin-lead-messaging.service.ts:99-170 | so, once committed, the handoff stands to the end of every run that takes none of those steps from then on |
| TurnProtocolResults.TurnsSeeTheRow | src/pipeline/debounce-buffer.service.ts:112-131 | under the lock a turn past its read saw the row it writes over, whatever row that is, in every run in which no admin wrote inside a turn |
| TurnProtocolResults.OptOutStands | src/conversation/conversation.engine.ts:85-238 | from any state, an opt-out stands through every run iff no turn is past its read with another state to write; then no manual message is stored either |
| TurnProtocolResults.OptOutDuringTurnIsOverwritten | src/conversation/conversation.engine.ts:85-238 | a run in which a turn's last write takes back an admin's opt-out |
| TurnProtocolResults.StoredMeansQueued | src/admin/leads/admin-lead-messaging.service.ts:150-166 | with no send in flight the stored messages are the queued ones and those whose enqueueing and compensation both failed |
| TurnProtocol.Reachable | src/pipeline/debounce-buffer.service.ts:39-239 | every reachable state keeps lock exclusion, conservation of messages, deduplication, the wake-up mark, the turn's true picture of the row and of a send's handoff, and the account of sends |
| TurnProtocol.LockKeptStep | src/pipeline/debounce-buffer.service.ts:112-131 | every step keeps the lock exclusive |
| TurnProtocol.NothingLostStep | src/pipeline/debounce-buffer.service.ts:152-160 | every step keeps the pushed sequence equal to what was popped and the buffer |
| TurnProtocol.DeduplicatedStep | src/webhook/webhook.service.ts:275-293 | every step keeps each message id pushed once at most |
| TurnProtocol.MarkedStep | src/pipeline/debounce-buffer.service.ts:162-221 | every step keeps a waiting buffer awake or marked |
| TurnProtocol.FaithfulStep | src/conversation/conversation.engine.ts:85-238 | between its read and its write a turn's picture of the row stays true under the lock |
| TurnProtocol.HandoffSeenStep | src/pipeline/debounce-buffer.service.ts:112-131 | a turn past its read has seen the manual send's handoff the row holds, if the lock has not run out under a holder, admin writes or not |
| TurnProtocol.AccountedStep | src/admin/leads/admin-lead-messaging.service.ts:146-166 | every stored message is queued, still being sent, or orphaned by two failures |
| DebounceBuffer.MyPlaceStays | src/pipeline/debounce-buffer.service.ts:96-131 | any steps of other parties leave a party where it is, so the call contracts hold under interference |
| DebounceBuffer.DebounceBufferService.KeepsProtocol | src/pipeline/debounce-buffer.service.ts:24-36 | whatever calls are made, the service is in a reachable state of the protocol |
| DebounceBuffer.DebounceBufferService.Push | src/pipeline/debounce-buffer.service.ts:39-49 | ends with the message pushed, the retry cancelled and the turn job added: right after its `add` the job waits for its worker, unless it was at work in between |
| DebounceBuffer.DebounceBufferService.ScheduleTurn | src/pipeline/debounce-buffer.service.ts:162-178 | the same from the first look on: finished jobs are taken away before the `add` |
| DebounceBuffer.DebounceBufferService.RemoveJobIfExists | src/pipeline/debounce-buffer.service.ts:210-221 | since entry the job has been seen gone, or at work and so not to be removed; ends where an absent job would have led |
| DebounceBuffer.DebounceBufferService.TryFlush | src/pipeline/debounce-buffer.service.ts:55-94 | the job goes, call by call under any interference, to the step that ends it: with the lock taken by another the retry is added, else what was in the buffer is popped, answered, and the lock given back |
| DebounceBuffer.DebounceBufferService.FlushLocked | src/pipeline/debounce-buffer.service.ts:70-93 | the retry is cancelled, the buffer popped, and if that took anything a turn has read the row and written what it makes of it, opt-outs and handoffs respected; then the lock is given back |
| DebounceBuffer.DebounceBufferService.PopAll | src/pipeline/debounce-buffer.service.ts:152-160 | returns the entries as the buffer held them on entry, and since then a step of the run, at the place where the job has read exactly these, has emptied the buffer |
| DebounceBuffer.DebounceBufferService.ScheduleRetry | src/pipeline/debounce-buffer.service.ts:191-201 | ends the turn job by the step that adds the retry, after which the retry waits for its worker unless it was itself at work |
| DebounceBuffer.DebounceBufferService.TryLock | src/pipeline/debounce-buffer.service.ts:223-235 | takes the lock exactly if it was free |
| DebounceBuffer.DebounceBufferService.SendManual | src/admin/leads/admin-lead-messaging.service.ts:69-177 | under any interference: queued iff it succeeds, stored iff queued or left by a failed compensation; locked means the lock was taken at its attempt, opted out that the row said so at its check or commit, queued that its commit made the row its handoff |
| DebounceBuffer.DebounceBufferService.SendLocked | src/admin/leads/admin-lead-messaging.service.ts:102-169 | the conditional write, the enqueueing and the compensation under the lock |
| EditDistance.Levenshtein | src/properties/neighborhoods.ts:186-201 | returns the length of a shortest insert, delete and substitute script |
| EditDistance.FillTable | src/properties/neighborhoods.ts:187-200 | every cell of the table filled in place is the recurrence on prefixes |
| EditDistance.CellIsEditDistance | src/properties/neighborhoods.ts:194-197 | the recurrence with its greedy diagonal is the shortest script's length: one exists and none is shorter |
| EditDistance.EditDistanceIsAMetric | src/properties/neighborhoods.ts:186-201 | zero iff equal, symmetric, triangle inequality |
| ZoneText.TextMentionsNeighborhood | src/properties/neighborhoods.ts:217-233 | true iff the normalised name occurs in the normalised text, or for each stretch of it between spaces some maximal stretch of letters and digits of the text has a shortest edit script of one edit (up to five letters) or two |
| ZoneText.MentionsMeans | src/properties/neighborhoods.ts:217-233 | the same of the function that all zone results are stated with |
| ZoneText.MadeUpIsRefused | src/properties/neighborhoods.ts:217-233 | a one-word name that does not occur and has no stretch of the text within the typos tolerated is refused |
| TextWords.WordsAreRuns | src/properties/neighborhoods.ts:226-227 | the words of a text are exactly its maximal stretches of word characters |
| TextWords.WordsKeepEverything | src/properties/neighborhoods.ts:226-227 | words are non-empty, of word characters only, and end to end all of the text's in order |
| TextWords.WordsReadBack | src/properties/neighborhoods.ts:226-227 | words written with separators around and between them are read back |
| TextWords.NormalizedIsJoined | src/properties/neighborhoods.ts:162-169 | normalised text is the folded text's words with one space between them |
| TextWords.NormalizedShape | src/properties/neighborhoods.ts:162-169 | no blank at either end, single spaces elsewhere, all other characters of the folded text kept in order and in the same words |
| TextWords.FoldsEach | src/properties/neighborhoods.ts:162-169 | accents and case are folded character by character, nothing added or left out |
| TextWords.TrimmedIsInside | src/properties/neighborhoods.ts:162-169 | trimming takes the blanks at both ends away and nothing else |
| ZoneText.SanitizedZones | src/llm/extraction.schema.ts:194-208 | of the zones listed exactly those the text mentions are kept, by the alias table or as normalised, once each |
| ZoneText.SanitizedIsSane | src/llm/extraction.schema.ts:190-225 | a budget is kept iff above zero, rooms iff one to ten, a name iff two to forty characters, mentioned, no zone and no excluded word; what passes is kept as it is |
| PropertySearch.Search | src/properties/property-search.service.ts:93-166 | returns the answer of the first attempt of the ladder that lets a row through, or nothing with the right reason |
| PropertySearch.Query | src/properties/property-search.service.ts:308-399 | returns the best three of the candidates, all matches when the database sorts or they are a hundred at most |
| PropertySearch.QueryAnswersBest | src/properties/property-search.service.ts:353-399 | up to a hundred matches, both paths answer the best rows of all matches: sorted, distinct, nothing left out ranks strictly earlier |
| PropertySearch.TopRanksAgree | src/properties/property-search.service.ts:366-398 | any two best-three answers over the same rows agree rank by rank up to ties, so the database path and the in-memory path agree |
| SearchOrder.CheapestFirst | src/properties/property-search.service.ts:353-398 | rooms kept: the rows shown ascend in price, or in pesos where no currency is pinned, and no matching row left out is cheaper |
| SearchOrder.NearestFirst | src/properties/property-search.service.ts:353-398 | rooms given up: first by the distance in rooms, an absent count as none, then by price |
| SearchOrder.FittingRowsAreShown | src/properties/property-search.service.ts:93-152 | if some row meets everything asked, field by field with a tenth of tolerance in price, only such rows are shown, cheapest first, and one left out is no cheaper than the three shown |
| SearchOrder.ShownSuits | src/properties/property-search.service.ts:308-351 | whatever was relaxed, every row shown is active, of the tenant and operation, in a zone asked for, in the budget's currency, with garage and pets as asked |
| SearchOrder.NearestRoomsAreShown | src/properties/property-search.service.ts:353-398 | an answer that gave up the rooms shows the nearest first |
| SearchOrder.TeaserCoversPrices | src/properties/property-search.service.ts:262-306 | the teaser ascends in pesos from a cheapest active row of operation and zones to a dearest |
| SearchOrder.TeaserShowsTheMiddle | src/properties/property-search.service.ts:295-306 | of more than three rows the second ficha is the median: half at most cost less, more than half no more |
| PropertySearch.SearchIsComplete | src/properties/property-search.service.ts:147-165 | nothing is returned iff no row meets the hard filters; every row returned meets them; a zone called empty is empty |
| PropertySearch.LabelIsMildest | src/properties/property-search.service.ts:97-152 | the label is the mildest relaxation, of 10%, 25%, 50% if flexible, rooms, any price, that lets some row through |
| PropertySearch.LabelTellsTheTruth | src/properties/property-search.service.ts:93-152 | what each label says of the rows shown, within 10%, 25% or 50% of the budget, and of the attempts that failed before |
| PropertySearch.HasStockInZone | src/properties/property-search.service.ts:196-213 | true iff there is no zone or some active row lies in them |
| PropertySearch.TeaserSearch | src/properties/property-search.service.ts:262-306 | shows three different rows in price order, the first no dearer and the last no cheaper than any in the zone and the second in the middle of all, or all when fewer |
| Worlds.EveryTableHasAWorld | src/properties/property-search.service.ts:93-306 | for every table keyed by id the contracts of search and teaser can be met |
| Lead.CalculateLeadScore | src/conversation/lead-score.util.ts:58-97 | accumulates the sum of the weights of what is known, clamped, with its label |
| Lead.LabelsFollowScores | src/conversation/lead-score.util.ts:41-51 | 0 to 100, hot from 60, cold below 30: a higher score never has a colder label |
| Lead.WhatEachFactIsWorth | src/conversation/lead-score.util.ts:14-39 | questions asked 30, sign of buying 15, name 5, budget 5, whatever else is known |
| Lead.WhatTimeIsWorth | src/conversation/lead-score.util.ts:17-22 | 25, 15, 5 and 0 by how soon |
| Lead.WhatPaymentIsWorth | src/conversation/lead-score.util.ts:23-28 | 25 for cash, 10 for credit or mixed, of a sale only |
| Lead.WhatGuaranteeIsWorth | src/conversation/lead-score.util.ts:29-35 | 20, 20, 10 and -15, of a rent only |
| Lead.AdminLeadsService.OptOut | src/admin/leads/admin-leads.service.ts:88-108 | the lead ends opted out, dated then; an earlier opt-out keeps its date and nothing else changes |
| Lead.AdminLeadsService.Release | src/admin/leads/admin-leads.service.ts:129-145 | takes place iff the lead is in handoff, and goes to results if some were shown, else to qualification, the handoff's date dropped |
| Lead.AdminLeadsService.TakeOver | src/admin/leads/admin-lead-messaging.service.ts:110-124 | a manual send hands the lead off, dated then, iff it has not opted out |
| HandlerFacts.QualificationFacts | src/conversation/handlers/qualification.handler.ts:46-136 | only zones with stock are searched, fichas shown are those recorded, filters only lose zones, the name is asked once |
| HandlerFacts.TeaserShowsSomething | src/conversation/handlers/qualification.handler.ts:210-223 | with stock in every zone the teaser is not empty |
| HandlerFacts.TeaserFacts | src/conversation/handlers/qualification.handler.ts:210-254 | the teaser shows exactly what it records |
| HandlerFacts.SearchFacts | src/conversation/handlers/qualification.handler.ts:315-458 | a search shows exactly what it records, or nothing, and calls no zone empty |
| HandlerFacts.NoEmptyZone | src/properties/property-search.service.ts:154-163 | with stock in every zone no search answers that a zone is empty |
| HandlerFacts.SuggestFacts | src/conversation/handlers/qualification.handler.ts:274-313 | the zones stored as offered are exactly the ones the message names, and the offer is stored |
| HandlerFacts.AskMissingFacts | src/conversation/handlers/qualification.handler.ts:138-201 | the same for delegated and pending zones |
| HandlerFacts.GreetingFacts | src/conversation/handlers/greeting.handler.ts:26-131 | greets exactly when it marks a lead not greeted before, ahead of whatever else the turn says |
| HandlerFacts.FirstOpenIsOpen | src/conversation/handlers/commercial-qualification.handler.ts:166-179 | the question chosen is neither asked nor answered, and none is chosen only when none is left |
| HandlerFacts.ProcessFacts | src/conversation/handlers/commercial-qualification.handler.ts:96-162 | one open question within the limit, recorded, or a visit proposed |
| HandlerFacts.SearchMatchFacts | src/conversation/handlers/search-match.handler.ts:64-141 | all facts in the state that shows results |
| HandlerFacts.SchedulingFacts | src/conversation/handlers/scheduling.handler.ts:24-77 | proposing a visit goes to handoff and asks nothing commercial |
| HandlerFacts.ResolveFacts | src/conversation/conversation.engine.ts:240-319 | whatever a turn brings, its result satisfies all facts |
| HandlerFacts.ResolveChoice | src/conversation/handlers/search-match.handler.ts:95-121 | the way to a visit is entered only for the property with the number given, and what waits is kept until a visit is proposed for it |
| ConversationRuns.Reachable | src/conversation/conversation.engine.ts:85-238 | every reachable conversation keeps the invariants on state, once-only questions, commercial questions, chosen and shown fichas, zones and clock |
| ConversationRuns.TurnKeeps | src/conversation/conversation.engine.ts:85-238 | one turn keeps all of them, whatever is extracted and whatever the world answers |
| ConversationRuns.TurnFiltersFacts | src/conversation/filters.util.ts:25-57 | merging forgets nothing known, duplicates no zone, adds the turn's zones, or with `change_filters` puts them in place of the others, and takes exactly the zones pending when the text accepts and neither row nor turn has a zone |
| ConversationRuns.GuardrailFits | src/conversation/guardrails/guardrails.service.ts:54-95 | which states each answer of the guardrails leaves possible |
| ConversationResults.StatesMeanData | src/conversation/conversation.engine.ts:327-409 | SCHEDULING is unreachable, a handoff is dated, opted out iff dated, results or commercial questions mean the operation is known |
| ConversationResults.KnownUntilExpiry | src/conversation/filters.util.ts:25-57 | operation, price, currency, rooms, garage and pets are forgotten only when a session expires |
| ConversationResults.NumbersOnScreen | src/properties/property-search.service.ts:168-188 | in every run number N on the screen is entry N of the last results |
| ConversationResults.NothingIsBlocked | src/conversation/conversation.engine.ts:423-451 | the output whitelist never blocks a ficha |
| ConversationResults.LaN | src/conversation/handlers/search-match.handler.ts:64-121 | confirming number N, in a turn that is no buying signal or digression, gets the ficha that carries N on the screen, its question answered or the way to a visit entered, or an honest no |
| ConversationResults.VisitIsForTheChosen | src/conversation/handlers/commercial-qualification.handler.ts:136-150 | a visit is proposed only for the ficha chosen by number on entering, however many turns before |
| ConversationResults.NoSearchOnDeadZone | src/conversation/handlers/qualification.handler.ts:46-136 | every zone searched has stock and the lead is never told it searched an empty one |
| ConversationResults.AskedOnce | src/conversation/handlers/greeting.handler.ts:26-131 | within a session greeting and name question go out once at most, and the row says so exactly when they did |
| ConversationResults.FewCommercialQuestions | src/conversation/handlers/commercial-qualification.handler.ts:18-21 | between two entries at most two commercial questions, all different |
| ConversationResults.NothingAnsweredIsAsked | src/conversation/handlers/commercial-qualification.handler.ts:116-127 | no question about a field the row answers before or after the turn |
| ConversationResults.ZonesAreTheLeads | src/conversation/conversation.engine.ts:193-214 | every zone of the search was named in a text of the session, typos apart, or is of an offer taken: the last one sent, when a text accepted it with no zone set; none twice; the zones pending in the row are exactly those of the last offer not yet taken |
| ConversationResults.ScoreIsOfTheRow | src/conversation/conversation.engine.ts:560-587 | after every turn a handler answers, stored score and label are those of the row as stored |
| ConversationResults.ScoreStaysAgreed | src/conversation/conversation.engine.ts:129-180 | a right score goes stale iff the session expires, the extraction fails and the reset changes the score |
| ConversationResults.OptedOutIsFinal | src/conversation/guardrails/guardrails.service.ts:54-76 | no later step changes an opted-out row but for the last message's date; what still goes out was under way, each once |
| ConversationResults.SilentExactlyWhenNoneIsUnderWay | src/pipeline/inbound.processor.ts:92-126 | no run writes to an opted-out lead iff no manual send has committed and no unsupported reply has passed its check |
| ConversationResults.OptOutIsAskedFor | src/conversation/guardrails/guardrails.service.ts:57-64 | only the lead's words or an admin opt a lead out |
| ConversationResults.ArrivalKeepsSessionAlive | src/conversation/guardrails/guardrails.service.ts:105-111 | whatever happens after a message arrives, its turn expires the session only if it has waited thirty days |
| ConversationResults.ThirtyDaysOfSilence | src/leads/leads.service.ts:10-17 | two messages thirty days apart, the second of which does not expire the session |
| ConversationResults.SessionExpiresExactly | src/conversation/guardrails/guardrails.service.ts:54-95 | with no later date on the lead, the session expires iff thirty days have passed since the last stamp, the lead is with the bot, the text neither opts out nor asks for a human and no visit is open |
| ConversationResults.HandoffIsDated | src/conversation/conversation.engine.ts:552-557 | a handoff a handler starts is dated now, unless the turn released a timed-out one |
| ConversationResults.HandoffSilencesTheBot | src/conversation/guardrails/guardrails.service.ts:78-83 | it silences the bot for 48 hours iff the turn released none |
| TurnEffects.OptOutIsWritten | src/conversation/conversation.engine.ts:333-341 | for every chat not opted out, handoff included, a turn whose text opts out stores the opt-out dated now, changes nothing else, and sends exactly the confirmation |
| TurnEffects.OptOutTextEndsIt | src/conversation/guardrails/guardrails.service.ts:54-76 | so in every run from there the lead stays opted out since that turn, and only what was under way goes out |
| TurnEffects.HumanIsCalled | src/conversation/conversation.engine.ts:342-350 | a text that asks for a human hands the lead off dated now, with the farewell alone |
| TurnEffects.HandoffIsLeftAlone | src/conversation/guardrails/guardrails.service.ts:78-83 | within 48 hours of a handoff a turn that does not opt out does nothing at all |
| TurnEffects.UnreadTurn | src/conversation/conversation.engine.ts:162-184 | a turn that yields nothing asks again, counts and is dated, and changes nothing else |
| TurnEffects.UnreadAfterHandoff | src/conversation/conversation.engine.ts:353-365 | after a handoff timed out it also gives the lead back, with the apology first |
| TurnEffects.TimedOutHandoffIsAnswered | src/conversation/conversation.engine.ts:353-365 | a turn on a handoff of 48 hours or more sends the apology and goes on in the results, or in qualification without any |
| TurnEffects.ExpiredStartsOver | src/conversation/conversation.engine.ts:366-404 | the row an expired session starts from, field by field: every filter and answer empty, turn count zero before the turn |
| TurnEffects.ManualSendSilencesTheBot | src/admin/leads/admin-lead-messaging.service.ts:110-124 | a manual send dates the handoff then, over an earlier one too, and in every run the bot says nothing for 48 hours but for a release or an opt-out |
| TurnEffects.NameIsKept | src/conversation/conversation.engine.ts:504-508 | a name given is stored iff none was known |
| TurnEffects.TurnIsCounted | src/conversation/conversation.engine.ts:492-502 | every answered turn counts and is dated |
| TurnEffects.AnswersAreStored | src/conversation/conversation.engine.ts:531-551 | each commercial answer given while those questions are open is the row's afterwards, and no other turn touches one |
| TurnEffects.RepliesAreForThoseListening | src/pipeline/inbound.processor.ts:92-126 | unsupported replies are begun only for leads with the bot, manual sends only for leads not opted out |
| TurnEffects.AdminsAreObeyed | src/admin/leads/admin-leads.service.ts:88-145 | an admin's opt-out and release leave the row they say |
| StoredWords.WhatWasSaidIsStored | src/conversation/filters.util.ts:25-57 | criteria said in a turn win and are the row's afterwards, exactly unless the answer is one of the six that store no filters |
| StoredWords.FichasMeetTheRow | src/conversation/handlers/qualification.handler.ts:315-458 | every ficha sent is an active row with the stored operation and zone; outside the teaser with the stored garage, pets and currency; introduced as found, also within a tenth of the budget and with the rooms |
| StoredWords.TeaserLeavesGarageOut | src/conversation/handlers/qualification.handler.ts:210-254 | a lead that asked for a garage is shown a flat without one by the teaser |
| HandlerChoices.AsidesComeFirst | src/conversation/conversation.engine.ts:240-319 | buying signal first, then digressions, then the handler of the state |
| HandlerChoices.DeadZonesAreSettledFirst | src/conversation/handlers/qualification.handler.ts:50-85 | with stock in none of the zones others are suggested, with stock in some the gone ones are named and dropped; neither searches |
| HandlerChoices.QualificationSearches | src/conversation/handlers/qualification.handler.ts:87-136 | with live zones: a price too low for a sale is questioned, operation and two of zone, budget and rooms search, operation and zone alone show the price range |
| HandlerChoices.QualificationAsksForZone | src/conversation/handlers/qualification.handler.ts:138-201 | without a zone it offers, repeats an offer, or asks |
| HandlerChoices.QualificationAsksForRest | src/conversation/handlers/qualification.handler.ts:138-201 | with a zone, as long as it cannot search, it asks for the rooms, then for the price |
| HandlerChoices.OfferedZonesAreLive | src/conversation/handlers/qualification.handler.ts:274-313 | every zone suggested has stock for the operation |
| HandlerChoices.NeighboursComeFirst | src/conversation/handlers/qualification.handler.ts:274-313 | two neighbours at most, and the zones with most stock exactly when no neighbour has any |
| HandlerChoices.AsksUntilNothingIsOpen | src/conversation/handlers/commercial-qualification.handler.ts:96-179 | the next open question of the operation, in order, unless two were asked; only with none left a visit is proposed |
| HandlerChoices.VisitAsksForTheDay | src/conversation/handlers/scheduling.handler.ts:24-77 | the link, the day unless the text names one, goodbye |
| HandlerChoices.GreetingDecides | src/conversation/handlers/greeting.handler.ts:26-131 | greeting, then operation, then name, then qualification |
| HandlerChoices.UnconfirmedNumberIsAskedAbout | src/conversation/handlers/search-match.handler.ts:64-94 | a number the text does not confirm is asked about unless there is something to search for |
| HandlerChoices.QuestionAboutTheOnlyFicha | src/conversation/handlers/search-match.handler.ts:122-141 | a question in the results is answered about the one ficha shown |
| HandlerChoices.ResultsTellWhatTheyAre | src/conversation/handlers/qualification.handler.ts:315-400 | results are introduced as found, or with what was relaxed, then all follow; the ones already out are not repeated |
| HandlerChoices.NothingFoundOffersAlert | src/conversation/handlers/qualification.handler.ts:400-458 | nothing found: the alert is offered, confirmed when accepted, and not offered again |
| HandlerChoices.StaleBudgetIsLeftOut | src/conversation/filters.util.ts:187-194 | a budget last mentioned more than three turns ago is left out of the search with its currency, all else is asked for as it is |
| HandlerChoices.OnlyKnownFichasGoOut | src/conversation/conversation.engine.ts:423-451 | of fichas only those of the last results go out, and all texts do |
| ConversationExamples.ReleasedHandoffIsNotDated | src/conversation/conversation.engine.ts:360-372 | a run from a new lead, in a world with one flat, to a turn whose handoff keeps the date of the one just released |
| ConversationExamples.ScoreGoesStale | src/conversation/conversation.engine.ts:129-180 | a run from a new lead to a turn that leaves a score the row no longer has |
| ConversationExamples.SendOutlivesOptOut | src/admin/leads/admin-lead-messaging.service.ts:146-166 | a run in which a committed manual send goes out after the opt-out |
| ConversationExamples.ReplyOutlivesOptOut | src/pipeline/inbound.processor.ts:99-126 | a run in which an unsupported-message reply goes out after the opt-out |
| ConversationEngine.ConversationEngine.HandleTurn | src/conversation/conversation.engine.ts:85-238 | writes the row and sends the messages of the turn function, which the results about runs and single turns are about |
| ConversationEngine.ConversationEngine.ResolveResult | src/conversation/conversation.engine.ts:240-319 | dispatches to the handlers, which write the search results to the row meanwhile |
| ConversationEngine.ConversationEngine.SendActions | src/conversation/conversation.engine.ts:423-467 | sends texts and whitelisted fichas in order, one by one |
| ConversationEngine.ConversationEngine.PersistLeadUpdate | src/conversation/conversation.engine.ts:492-588 | writes the result field by field, with the score of the fallback view |
| ConversationEngine.ConversationEngine.TriggerSearch | src/conversation/handlers/qualification.handler.ts:315-458 | searches, records, and pushes the messages of the search function |
| ConversationEngine.ConversationEngine.TriggerTeaser | src/conversation/handlers/qualification.handler.ts:210-254 | the same for the teaser |
| ConversationEngine.ConversationEngine.Qualify | src/conversation/handlers/qualification.handler.ts:46-136 | takes the branches of the qualification function |
| ConversationEngine.ConversationEngine.Greet | src/conversation/handlers/greeting.handler.ts:26-131 | takes the branches of the greeting function |
| ConversationEngine.ConversationEngine.MatchSearch | src/conversation/handlers/search-match.handler.ts:64-141 | takes the branches of the results function |
| ConversationEngine.ScanFields | src/conversation/handlers/commercial-qualification.handler.ts:166-179 | scans the question order for the first open field |
| CsvParser.ParseCsv | src/admin/properties/csv-parser.util.ts:6-51 | the character loop computes the quote-state machine with lookahead |
| CsvParser.ParsePrint | src/admin/properties/csv-parser.util.ts:6-51 | for every table, quoting, line end and final line end, what was written is read back, CR folded and blank rows dropped (section 2 of RFC 4180) |
| CsvParser.RoundTripExactly | src/admin/properties/csv-parser.util.ts:6-51 | the table itself comes back iff no row is empty or a single blank field and no field holds a CR |
| CsvParser.ReadWriteRead | src/admin/properties/csv-parser.util.ts:6-51 | for any text at all, reading, writing and reading again gives the first reading |
| CsvImport.CellsDefineFields | src/admin/properties/csv-import.service.ts:107-186 | a row defines nothing for a blank cell or the status, and the text or number of its own column otherwise |
| CsvImport.WordsDefineFields | src/admin/properties/csv-import.service.ts:116-206 | the operation is the one its word names, a yes/no cell counts when it says either, a list cell when some item is left |
| CsvImport.SplitAtSemicolon | src/admin/properties/csv-import.service.ts:200-207 | a list splits at every semicolon into what its two sides say |
| CsvImport.SplitJoined | src/admin/properties/csv-import.service.ts:200-207 | a list of plain items written with semicolons is read back |
| CsvColumns.RefIsOfItsColumn | src/admin/properties/csv-import.service.ts:99-111 | a row is stored under the trimmed cell of the last column named `external_ref` |
| CsvColumns.TextsAndNumbersOfTheirColumn | src/admin/properties/csv-import.service.ts:99-186 | each text field is the trimmed cell under its own name, each number field its number; a blank cell, or one past the row's end, defines neither |
| CsvColumns.FlagsAndListsOfTheirColumn | src/admin/properties/csv-import.service.ts:99-207 | each yes/no field says what the cell under its own name says, each list holds its items |
| CsvColumns.OperationOfItsColumn | src/admin/properties/csv-import.service.ts:116-122 | venta, alquiler and temporario under `operation` are sale, rent and temporary rent |
| CsvColumns.TakenExactly | src/admin/properties/csv-import.service.ts:107-161 | a row is taken iff it has what is required and its numbers are numbers |
| CsvColumns.ErrorsTellWhy | src/admin/properties/csv-import.service.ts:107-161 | the reason given for a row not taken is true of its cells |
| CsvColumns.RefusedForAMissingColumn | src/admin/properties/csv-import.service.ts:62-70 | a file is refused iff its trimmed header lacks a column something is read from |
| CsvColumns.ImportedFromItsCell | src/admin/properties/csv-import.service.ts:56-97 | after importing a text, the property of the last row taken for a reference holds that row's cell in every text and number field whose cell is not blank |
| CsvColumns.CreatedWithDefaults | src/admin/properties/properties-admin.service.ts:240-278 | a new property is in dollars, without garage, features or photos, and active, where no row says otherwise |
| CsvImport.ReportIsExact | src/admin/properties/csv-import.service.ts:72-97 | imported and errors add up to the data rows; the errors are exactly the failing rows with their reasons, numbers increasing |
| CsvImport.StoreAfter | src/admin/properties/properties-admin.service.ts:240-311 | a property is what it was, or the defaults, with what the rows taken say laid over; failing rows change nothing |
| CsvImport.LastWordWins | src/admin/properties/properties-admin.service.ts:279-310 | per external reference and field the last defined value wins |
| CsvImport.NothingIsErased | src/admin/properties/properties-admin.service.ts:279-310 | no row erases a value |
| CsvImport.ImportIsIdempotent | src/admin/properties/csv-import.service.ts:56-97 | importing a file again changes nothing and reports the same |
| CsvImport.PropertiesAdminService.ImportFile | src/admin/properties/csv-import.service.ts:56-97 | the loop over the rows leaves the store and the report of the import function, whose fields CsvColumns ties to the cells of the file |
| CsvImport.PropertiesAdminService.UpsertByExternalRef | src/admin/properties/properties-admin.service.ts:240-311 | creates with defaults or patches the defined fields, or leaves everything when refused |
| Appointments.Linearizable | src/admin/appointments/appointments-admin.service.ts:84-107 | however requests overlap, the row is their writes replayed one by one: only a proposal confirmed, only a confirmed visit moved, held or missed, either cancelled; accepted iff it wrote, once |
| Appointments.RefusalIsRight | src/admin/appointments/appointments-admin.service.ts:73-107 | for every run, a refused request has its place among the writes: the row they had left by then was in no state its transition may start from, or its assignee was unknown |
| Appointments.LegalPath | src/admin/appointments/appointments-admin.service.ts:30-36 | proposed, any number of confirmed stages, then one closed state at most, iff no page confirmation wrote over a closed visit |
| Appointments.AcceptedDidIt | src/admin/appointments/appointments-admin.service.ts:110-258 | every request accepted has, at its one write, set the status, date, notes, assignee and outcome it was for, and no other column |
| Appointments.ClosingIsFinal | src/admin/appointments/appointments-admin.service.ts:185-258 | a cancellation, a visit held or missed that is accepted is the final state, unless the page wrote over a closed visit |
| Appointments.ConfirmedIsDated | src/admin/appointments/appointments-admin.service.ts:129-144 | a visit confirmed, held or missed has its date |
| Appointments.PageReopensCancelled | src/appointments/appointments.service.ts:119-134 | a run in which the public page reopens a cancelled visit |
| Appointments.AnswerShowsAnother | src/admin/appointments/appointments-admin.service.ts:140-156 | a run in which an accepted confirmation answers with a cancelled visit |
| Appointments.AnswerIsItsOwn | src/admin/appointments/appointments-admin.service.ts:140-156 | a request about to read back answers with its own result iff for each column the last later write to set it sets the value the request left there; so when none was written later |
| Appointments.MyPhaseStays | src/admin/appointments/appointments-admin.service.ts:84-95 | other requests' steps leave a request where it is |
| Appointments.AppointmentsAdminService.ConfirmVisit | src/admin/appointments/appointments-admin.service.ts:110-157 | read, check, conditional write and read back are the protocol's steps, under any interference |
| Appointments.AppointmentsAdminService.RescheduleVisit | src/admin/appointments/appointments-admin.service.ts:160-182 | the same |
| Appointments.AppointmentsAdminService.CancelVisit | src/admin/appointments/appointments-admin.service.ts:185-213 | the same, from two origins |
| Appointments.AppointmentsAdminService.Close | src/admin/appointments/appointments-admin.service.ts:233-258 | the same for done and no-show, with its outcome |

## Left out

- The language model, speech recognition, the Meta API, push notifications, file storage, HTTP controllers, authentication and rate limiting: foreign calls or thin wrappers. An extraction is any value passed through the sanitiser, or none.
- The regular expressions for opt-out, handoff, buying signals, acceptance, zone delegation, choice and day preference, and the keycap digits: arbitrary functions of the text.
- Wording: a message is a tag with what the results speak of; a text that is empty is not modelled, nor formality, captions and photos.
- Unicode decomposition and case: an arbitrary fold per character. Lengths count characters, not UTF-16 units.
- The tables of zone aliases, known zones and adjacent zones: parameters. Keys every JavaScript object inherits, such as `constructor`, in the alias and operation tables are not modelled.
- Prices and price factors are exact reals; rounding of floating point and of the database's decimals is not modelled.
- `Array.sort` and `ORDER BY` are an insertion sort on sequences; the order among equals is left open by the contracts.
- Redis, Postgres and the job queue beyond the semantics stated above: stalled jobs, crashes of a worker in the middle of a turn, and Redis errors.
- Deleting a lead with its buffer and lock, and the log of stale entries.
- The bot turn below turn granularity in the conversation runs; its races with the admin actions are in the turn protocol.
- Fields of the lead row that no modelled decision reads: assignment, next action, contact date, motive, visit availability and the history of properties viewed.
- The 24-hour service window of a manual send: it refuses some sends the model lets through.
- A property index that is negative or fractional in an extraction: the source finds no property for it.
- The visit's Calendly update (src/webhook/webhook.service.ts:93-118) and the assignee set to null.
- Appointments.RefusalIsRight: a missing appointment (404) is not modelled, the visit exists.
- CsvImport.ImportIsIdempotent: the database refuses a row by its number and content, the same both times; failures of the connection that come and go are not modelled.
- Slot listing, pagination, metrics, message variants, password generation and retention jobs: easy members.
