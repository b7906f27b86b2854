# A model of the lead-to-sales back end

This project models a Python back end for real-estate leads and proves what it promises. The back end takes
WhatsApp messages from Chatwoot, lets an AI qualify the customer, mirrors leads from a CRM (wacrm) and recommends
properties once a buyer's profile is complete. Its modules share one database and talk to each other through a
transactional outbox: `publish` writes event rows in the caller's transaction, and a worker hands them to registered
handlers, each of which commits its own work in its own session.

How the files are layered:

- `Prelude`, `LeadDomain`, `RecommendationDomain`, `Store`: values, the tables (`Db`), and `Session`, the read-your-writes view
  of one transaction.
- `LeadSync`, `ConversationFsm`, `Coordinator`, `Webhook`, `ProfileCapture`, `RecommendationHandler`, `EventBus`: the modules as
  written. Code that changes things step by step is a class or a method with loops; each such method is proved
  equal to a function on the tables (`Poll`, `HandleMessage`, `Receive`, ...), which says what is committed or which
  error is raised.
- `CrmMirror`, `Lifecycle`: what those transactions keep.
- `BusRuns`, `BusRefinement`, `BusProgress`: several workers with row locks, batch transactions that commit or roll back
  at any point, and handlers that commit on their own, as a transition system; the worker's loop as a path of it; and
  how long a row or a batch can take.
- `LeadToSales`, `DataInvariant`, `SystemInvariant`, `SystemRuns`, `Guarantees`: everything composed. The CRM is an environment
  that edits (each edit stamped later than all before), repairs a bad stage without moving its stamp, and deletes.
  Requests, background jobs, handler runs, worker moves and crashes interleave in any order. `Guarantees` states
  the promises for every state of every run. `LateCommits` takes CRM calls and
  their commits apart and lets polls overlap (`OverlappingPolls`); `LeadTables` is what holds even then, and `LostUpdates`
  has the runs that lose an update. `HandlerRuns` says what each consumer's run, the dormancy scan and a patch do.
- `StableOrder`, `Ranking`, `Retrieval`, `Search`: the recommendation pipeline in exact arithmetic.
- `PropertyIngestion`: the embedding cache. `NeighborhoodEnrichment`: the fan-out with its background retries.

## Readings of the code

- A row's id is its position in its table. Times are integer microseconds, and the epoch of the watermark is 0.
- One transaction is one atomic step with one `now`. A transaction that raises leaves nothing, not even its audit
  row: the audit of a denied poll is rolled back with the poll.
- Unique constraints of the schema are the invariants `UniqueLeads`, `UniqueConversations` and `UniqueArchive`; they are proved,
  not assumed.
- What the outside world answers is a parameter: the CRM's listing and deals (true of the CRM at that moment, or a
  failure), the guardrail's bypass, the responder's text, the recommendation message, Maps answers, price formatting,
  SHA-256, vector norms.
- The lead linker's documentation says it never raises; the code raises when two leads of an organization share a
  contact, and the model follows the code (`Webhook.LeadLinker.LinkIfPossible`).
- The sidebar note is published after the turn's commit. A failed send is swallowed: the client turns every HTTP error
  into the one exception the publisher catches. Any other exception, such as that of an invalid URL, fails the handler
  although the turn is committed, and a redelivery runs the turn again (`LeadToSales.Failure`).
- The content key contains the external id, which the ingestion module's own description leaves out.
- The system prompt and the message texts are in Spanish in the source; the fixed explanations appear in English here.

## Where a promise has a condition

- Exactly one `ProfileCompleted` needs a positive threshold (`ProfileCapture.ExactlyOnceNeedsAPositiveThreshold`). The default is 90.
- The score floor of 0.4 needs a threshold above 80 (`Search.FloorNeedsAboveEighty`).
- A row that no handler refuses is sure to be delivered exactly when fewer unprocessed poison rows than the batch limit
  are stamped at or before it (`EventBus.DeliveredExactlyWhen`); with several workers the same count bounds how often it
  is passed over (`BusProgress.OvertakingIsBounded`).
- Handler effects are at least once: a crash between the two commits repeats a run (`BusRefinement.ACrashRunsTheHandlerAgain`).
- A broker transfer that committed but was not recorded is refused at every redelivery, so its event becomes a poison row
  (`Guarantees.RedeliveredTransferFailsForever`).
- With CRM calls and commits apart, an update is lost exactly when a poll, a resync, a push or a guarded recommendation
  stores what the CRM answered although the deal was then edited in a mirrored field and a poll passed that edit
  (`LateCommits.LateCommitBreaksExactlyWhen`, `LateCommits.NoUpdateIsLostExactlyWhen`). A guard counts as of the time it
  asked: the poll in between does not save the edit (`LostUpdates.ARecommendationLosesAnEdit`).
- Late insights follow missing ones exactly when the requested ids are distinct or there are no retries
  (`NeighborhoodEnrichment.LateIsForMissingExactlyWhen`). The one caller asks for distinct ids (`Search.RankedAreDistinct`).
- Re-ingesting is quiet if no id carries two contents (`PropertyIngestion.ReingestIsQuiet`). Among items whose fields
  contain no separator the content key tells every two apart, except by what the price has beyond its two printed decimals
  (`PropertyIngestion.KeyIsExact`); against all changes of the features it is safe only for an item with a single feature
  that does not read as two (`PropertyIngestion.FeatureChangesAreSeenExactlyWhen`). A comma or a bar in a feature, an
  empty feature, and a bar in a zone or an id each hide a change (`PropertyIngestion.ACommaHidesAChange` and the four after it).

## Model

| member | source | states |
|---|---|---|
| Guarantees.NoCrmUpdateIsLost | app/modules/lead_qualification/application/lead_sync.py:83-123 | In every state of every run, every CRM deal stamped at or before an organization's watermark has a valid stage and a mirror row equal to it, and the watermark never falls. |
| Guarantees.OnePollConverges | app/modules/lead_qualification/application/lead_sync.py:86-123 | From any reachable state, when all stages are valid, one committed poll mirrors the whole CRM and the next listing can only be empty. |
| Guarantees.RepollingIsQuiet | app/modules/lead_qualification/application/lead_sync.py:109-123 | From any reachable state, polling an unchanged CRM twice publishes nothing the second time, moves no watermark and changes only sync times, bad stages or not. |
| Guarantees.StageLedgerIsExact | app/modules/lead_qualification/domain/models.py:225-252 | At any point of any run a lead's stage events, replayed from the stage it was first stored with, end at its stored stage, with no two equal stages in a row. |
| Guarantees.RefreshNeedsACurrentAnswer | app/modules/lead_qualification/application/lead_sync.py:132-149 | A forced resync keeps the no-lost-update promise if and only if its answer does not differ, in a field the mirror copies, from the CRM's deal once the watermark has passed that deal. |
| LateCommits.LateCommitBreaksExactlyWhen | app/modules/lead_qualification/application/lead_sync.py:83-171 | In any run that takes a CRM call and its commit apart - a guard judges its lead and a poll reads its watermark when they ask - the late commit of a poll, a resync, a push or a guarded recommendation breaks a kept promise if and only if it is overtaken: it stores an answer or a snapshot whose deal was edited after the call and differs from it in a mirrored field, and the watermark has reached the stamp of that edit. |
| LateCommits.NoUpdateIsLostExactlyWhen | app/modules/lead_qualification/application/lead_sync.py:83-171 | Such a run, overlapping polls included, keeps the promise in every state if and only if none of its late commits is overtaken. |
| LateCommits.UntilTheFirstOvertaken | app/modules/lead_qualification/application/lead_sync.py:83-171 | Up to its first overtaken commit such a run keeps the whole invariant of the tables and the worker. |
| LateCommits.LatePollKeeps | app/modules/lead_qualification/application/lead_sync.py:83-123 | A poll may commit its listing late, over any edits, repairs, deletions and refreshes in between, and keeps the whole invariant, as long as no other poll of the organization has moved the watermark. |
| LateCommits.TablesAlways | app/modules/lead_qualification/application/lead_sync.py:83-171 | In every such run, even one that has lost updates, no lead is stored twice, removed or renamed, no watermark falls, and no watermark or deal is ahead of the latest stamp of the CRM. |
| LostUpdates.AnEditIsLost | app/modules/lead_qualification/application/lead_sync.py:132-149 | From the empty system, for any three valid versions of a deal of which the second differs from both others in one mirrored field: the first is polled, a resync is answered with the second, the third is polled, the resync commits - a legal run that keeps the promise in every state but the last. A session that writes only changed columns loses the third version too. |
| LostUpdates.ARecommendationLosesAnEdit | app/modules/lead_qualification/application/staleness_guard.py:44-52 | From the empty system, for any patch that completes the profile: the same through a recommendation whose guard found its lead stale, although the poll in between has left the lead fresh by the time the handler commits. |
| LostUpdates.AnOverlappedEditIsLost | app/modules/lead_qualification/application/lead_sync.py:83-123 | From the empty system: of two overlapping polls of one organization the one that listed first and commits last loses the edit the other has seen. |
| OverlappingPolls.OverlappingPoll | app/modules/lead_qualification/application/lead_sync.py:109-121 | A poll that commits over others keeps the promise of its organization if and only if none of its snapshots differs in a mirrored field from a deal the watermark has passed by then; the watermark does not fall. |
| OverlappingPolls.PollRewrites | app/modules/lead_qualification/application/lead_sync.py:86-107 | After a poll every row stored before it is either rewritten from the one good snapshot of its deal, to the last field, or exactly as it was. |
| Guarantees.RedeliveryIsBounded | app/shared/infrastructure/event_bus.py:96-121 | In every run of several workers with crashes, successful runs of a handler for an event are at most one plus the rolled-back batches that ran it; recorded consumers are a prefix of the registrations; a processed row has them all. |
| Guarantees.WorkerIsNeverStuck | app/shared/infrastructure/event_bus.py:82-121 | In every reachable state a worker with an open batch can skip, run a handler, finish the row or commit, and can always roll back. |
| Guarantees.PushComesFirst | app/main.py:38-40 | Whenever the recommendation handler is about to run for a ProfileCompleted, the stage push has already succeeded for that same event. |
| Guarantees.RecommendationMeansComplete | app/modules/recommendation/wiring.py:124-147 | In every run a conversation in Recommendation has a linked lead whose profile is at or above the threshold, now and in every later state. |
| Guarantees.RecommendationMeansEveryDimension | app/modules/recommendation/application/recommendation_service.py:107-117 | With a threshold above 80 that profile has all five dimensions, now and later. |
| Guarantees.AuditMatchesEvents | app/modules/conversation_ownership/application/coordinator.py:134-160 | In every run a conversation's decisions and OwnershipTransferred events pair off in order with equal owner and explanation, chained from unassigned to the stored owner. |
| Guarantees.OwnerAlwaysMatchesState | app/modules/conversation_ownership/application/ownership_policy.py:59-94 | Only five states are ever stored, each with its owner; so no turn whatsoever raises NotImplementedPlaceholder. |
| Guarantees.NothingWakesAConversation | app/modules/conversation_ownership/domain/models.py:114-123 | In every run a conversation keeps its names, contact and link, and once with a human or dormant it stays with a human or dormant: no driver takes the edges out. |
| Guarantees.RedeliveredTransferFailsForever | app/modules/conversation_ownership/application/coordinator.py:98-160 | A broker request on such a conversation raises, now and at every later attempt. |
| Guarantees.CompletedExactlyOnce | app/modules/lead_qualification/application/profile_capture.py:56-74 | For a positive threshold, ProfileCompleted is in the log exactly once for a lead at or above it and never for another; being complete is for good. |
| Guarantees.CompletedEventPassesTheGate | app/modules/recommendation/wiring.py:110-118 | However late a ProfileCompleted is handled, the recommendation handler cannot drop it as incomplete. |
| Guarantees.CompletionIsDelivered | app/modules/recommendation/wiring.py:120-170 | Whenever the handler of a published ProfileCompleted gets past the guard with one conversation linked, it moves that conversation from qualification to recommendation and publishes the message. |
| Guarantees.MessagesAreOneToOne | app/modules/conversation_ownership/api/webhook_router.py:73-110 | In every run archived messages, MessageReceived rows and acknowledged (organization, conversation, message) triples correspond one to one, and a chatwoot id has one conversation. |
| Guarantees.RepeatedDeliveryChangesNothing | app/modules/conversation_ownership/api/webhook_router.py:97-98 | In every reachable state, delivering an acknowledged message again leaves the whole system exactly as it was. |
| HandlerRuns.CoordinatorTakesTheTurn | app/modules/conversation_ownership/wiring.py:39-52 | Whenever the coordinator consumer runs, in any run, it is for a message of a stored conversation. If nothing raises and the turn can commit, the turn of that conversation has been taken (decision, transfer, reply, row) and the run counts; otherwise no table moves and the run fails. |
| HandlerRuns.RecordedMeansAnswered | app/modules/conversation_ownership/wiring.py:39-69 | In every run, once the coordinator is recorded for a message, in the inbox or an open batch, its conversation exists and is no longer New. |
| HandlerRuns.StagePushMirrors | app/modules/lead_qualification/wiring.py:53-69 | Whenever the stage push runs, in any run: with an answer from the CRM only the row of the event's lead is rewritten, to mirror the answer, which is Qualified, and the run counts; without one no table moves and it fails. A push that reached the CRM moved that one deal to Qualified under its new stamp. |
| HandlerRuns.RecommendationIsMade | app/modules/recommendation/wiring.py:92-170 | Whenever the recommendation consumer runs past its guard, in any run: the one conversation linked to the event's lead leaves qualification and gets the message; with none only the refresh stays; with several it fails and no table moves. |
| HandlerRuns.RunIsRecorded | app/shared/infrastructure/event_bus.py:99-120 | A handler run counts and is staged exactly when nothing raised before, in or after its commit; otherwise the worker gives the row up with the consumer's name and the reason. What was committed before a late exception stays. |
| HandlerRuns.ScanPutsToSleep | app/modules/conversation_ownership/application/decay.py:23-38 | In any reachable state the dormancy scan makes dormant exactly the conversations that were not and had their last contact before the cutoff, and appends one announcement for each. |
| HandlerRuns.PatchIsStored | app/modules/lead_qualification/application/profile_capture.py:42-74 | In any reachable state an accepted patch is what the lead's profile reads from then on: its value in each dimension it carries, the previous one in every other; no other profile changes. |
| SystemRuns.InitialHolds | app/main.py:35-40 | The empty system satisfies the invariant. |
| SystemRuns.StepKeeps | app/main.py:35-68 | Every step of the system - CRM move, request, job, handler run, worker move or crash - keeps the invariant of all tables and of the worker, and takes nothing back. |
| SystemRuns.RunKeeps | app/main.py:35-68 | The invariant holds in every state of every run. |
| SystemRuns.HandleIsARun | app/shared/infrastructure/event_bus.py:99-120 | A handler run with its own commit is exactly one run step of the worker's transition system, whatever the handler does. |
| SystemInvariant.TxnKeeps | app/core/database.py:63-68 | Every committed or aborted transaction of every module keeps the joint invariant and only appends to the outbox. |
| LeadSync.ListDeals | app/modules/lead_qualification/infrastructure/wacrm_client.py:105-130 | The page loop returns all items if and only if a last page comes within 200 requests, and otherwise raises: never a partial list. |
| LeadSync.ListIsWhole | app/modules/lead_qualification/infrastructure/wacrm_client.py:105-130 | Of a full list, item m of page i stands behind all items of the pages before it, and the length is the sum of the page sizes: nothing is dropped, repeated or reordered. |
| LeadSync.LeadSyncAdapter.PollOnce | app/modules/lead_qualification/application/lead_sync.py:75-123 | One poll, in place: the session afterwards is the specified outcome of authorizing, upserting in order, skipping bad stages, capping and advancing the watermark, and publishing. |
| LeadSync.LeadSyncAdapter.ForceResyncLead | app/modules/lead_qualification/application/lead_sync.py:132-149 | A resync leaves the session as specified, or raises the specified error. |
| LeadSync.LeadSyncAdapter.PushProfileUpdate | app/modules/lead_qualification/application/lead_sync.py:151-171 | A push leaves the session as specified, or raises the specified error. |
| LeadSync.LeadSyncAdapter.UpsertFromSnapshot | app/modules/lead_qualification/application/lead_sync.py:173-197 | Looks the lead up first, then parses the stage, then inserts or updates; a failure writes nothing. |
| LeadSync.LeadSyncAdapter.Authorize | app/modules/lead_qualification/application/lead_sync.py:199-217 | Allows exactly the listed actors and audits the attempt either way. |
| LeadSync.LeadSyncAdapter.AdvanceWatermark | app/modules/lead_qualification/infrastructure/repository.py:170-185 | A stored watermark ends at the later of itself and the given one, so it never falls; with none stored the given one is stored. |
| LeadSync.Lead.MarkSynced | app/modules/lead_qualification/domain/models.py:225-252 | Copies the snapshot into the lead and records one stage event exactly when the stage changed. |
| CrmMirror.UpsertEffect | app/modules/lead_qualification/application/lead_sync.py:173-197 | An upsert succeeds exactly on a stage of the contract, then mirrors the deal, touches at most that deal's row and appends at most that row. |
| CrmMirror.PollAllInv | app/modules/lead_qualification/application/lead_sync.py:86-107 | Where a poll stands after any snapshots: good deals mirrored, other rows untouched, the latest good stamp and the earliest bad one. |
| CrmMirror.PollLosesNothing | app/modules/lead_qualification/application/lead_sync.py:109-121 | A committed poll of one organization keeps every organization's no-lost-update promise and lowers no watermark. |
| CrmMirror.DatedPollLosesNothing | app/modules/lead_qualification/application/lead_sync.py:109-121 | A poll that commits a listing the CRM has moved on from keeps every organization's promise too: what has no later stamp than the listing is as it was listed, unless its stage was invalid. |
| CrmMirror.WatermarkPasses | app/modules/lead_qualification/application/lead_sync.py:109-119 | A committed poll's watermark has passed a moment if and only if it had before, or some good snapshot is stamped then or later and no bad one then or earlier. |
| CrmMirror.PollTells | app/modules/lead_qualification/domain/models.py:246-252 | Every event of a poll is a stage change of a lead it listed, with the lead's own organization and CRM id, its stored stage and the time of the sync. |
| CrmMirror.RefreshTells | app/modules/lead_qualification/domain/models.py:246-252 | A resync says a changed stage in exactly one such event and publishes nothing otherwise. |
| CrmMirror.RefusedFor | app/modules/lead_qualification/application/lead_sync.py:75-171 | A poll is refused for its actor, then its listing; a resync or push for its lead, its actor, a missing answer (a vanished lead to the one, an HTTP failure to the other) and last a stage outside the contract. |
| CrmMirror.PollConverges | app/modules/lead_qualification/application/lead_sync.py:86-123 | With valid stages, a committed poll mirrors every deal and leaves nothing newer than the watermark. |
| CrmMirror.RepollIsQuiet | app/modules/lead_qualification/application/lead_sync.py:109-123 | Polling an unchanged CRM again publishes nothing, moves no watermark and changes only sync times. |
| CrmMirror.PollKeepsLedger | app/modules/lead_qualification/domain/models.py:246-252 | Across a whole poll every lead's stage history stays exact, rows created on the way included. |
| CrmMirror.ResyncMirrors | app/modules/lead_qualification/application/lead_sync.py:132-149 | A resync commits exactly for a known lead, an allowed actor and an answer with a valid stage; it then mirrors the answer, fresh, and audits itself. |
| CrmMirror.RewrittenRow | app/modules/lead_qualification/domain/models.py:225-252 | Rewriting a mirrored row from an answer keeps the promise if and only if the answer differs from the row's deal in no mirrored field, as far as the watermark has passed it; an absent contact does no harm. |
| CrmMirror.PushIsAResync | app/modules/lead_qualification/application/lead_sync.py:151-171 | A push writes what a resync on the same answer writes, under its own audit row. |
| CrmMirror.GuardedLeadIsFresh | app/modules/lead_qualification/application/staleness_guard.py:44-52 | The guard leaves a lead within the bound alone, brings a staler one up to the CRM's answer, and never lets a staler one through. |
| EventBus.EventBusWorker.Register | app/shared/infrastructure/event_bus.py:68-69 | Appends the consumer to its event type's list. |
| EventBus.EventBusWorker.DispatchOutboxRow | app/shared/infrastructure/event_bus.py:96-121 | The dispatch loop, in place: skips recorded consumers, records successes, stops at the first failure, marks the row processed otherwise. |
| EventBus.EventBusWorker.DrainBatch | app/shared/infrastructure/event_bus.py:82-94 | A whole batch leaves the tables as dispatching its rows in order does. |
| EventBus.WireModules | app/main.py:38-40 | The start-up registrations, in order: the stage push before the recommendation. |
| EventBus.WhoIsToldOfWhat | app/main.py:35-40 | A message has the coordinator as its consumer, a reply the sender, a completed profile the stage push and then the recommendation; no other event has any. |
| EventBus.DispatchRowEffect | app/shared/infrastructure/event_bus.py:96-121 | A dispatched row is processed, with every consumer recorded, exactly when no missing consumer refuses it; otherwise it is tried once more later. |
| EventBus.DispatchStopsAtTheFirst | app/shared/infrastructure/event_bus.py:98-120 | Dispatch stops at the first missing consumer that refuses: those before it are recorded, it is not, and the row keeps its name and error. |
| EventBus.DrainProgress | app/shared/infrastructure/event_bus.py:82-121 | With P poison rows and limit B a drain processes at least min(B - P, H) of the H healthy rows, only those, and no poison row. |
| EventBus.HealthyRowsAllDelivered | app/shared/infrastructure/event_bus.py:71-94 | With P below B, ceil(H / (B - P)) undisturbed drains process every healthy row; poison rows stay unprocessed. |
| EventBus.OldPoisonStarvesTheRest | app/shared/infrastructure/event_bus.py:84-90 | With at least a full batch of older poison rows no drain ever reaches a healthy row. |
| EventBus.DeliveredExactlyWhen | app/shared/infrastructure/event_bus.py:71-94 | A healthy row h is processed in every sufficiently long run of drains if and only if fewer poison rows than the batch limit B are stamped at or before it; ceil(H_h / (B - P_h)) drains are then long enough, counting only unprocessed rows stamped at or before h. |
| EventBus.RowDeliveredInTime | app/shared/infrastructure/event_bus.py:82-94 | With P_h below B, every run of ceil(H_h / (B - P_h)) drains processes h, whatever poison comes after it. |
| EventBus.StarvingRun | app/shared/infrastructure/event_bus.py:84-90 | With P_h at least B there is, for every length, a legal run of drains that never takes h. |
| BusProgress.OvertakingIsBounded | app/shared/infrastructure/event_bus.py:82-94 | For any number of workers, interleavings and crashes: while a healthy row with P rivals and H waiting rows stamped no later is unprocessed, k committed batches that passed it over satisfy k * (B - P) < H. |
| BusProgress.HolderDelivers | app/shared/infrastructure/event_bus.py:82-121 | A batch that holds a healthy row and commits has processed it. |
| BusProgress.StepsRunOut | app/shared/infrastructure/event_bus.py:82-121 | Every step of a worker brings its open batch at least one step nearer its commit, whatever the other workers do. |
| BusRuns.StepKeepsInv | app/shared/infrastructure/event_bus.py:82-121 | Every worker step, commits and crashes included, keeps locks disjoint, records prefixes, processed rows complete and every handler run accounted for. |
| BusRuns.InboxIsAPrefix | app/shared/infrastructure/event_bus.py:99-103 | The recorded consumers of an event are a prefix of its registration list, and all of it once the row is processed. |
| BusRuns.RunsAreBounded | app/shared/infrastructure/event_bus.py:100-112 | Successful runs of a handler for an event are at most one plus the batches lost with it; equal to its record plus those when no batch is open. |
| BusRuns.RecommendationAfterPush | app/main.py:38-40 | The recommendation consumer has run for an event only if the stage push has succeeded for it. |
| BusRefinement.DrainBatchIsPath | app/shared/infrastructure/event_bus.py:82-121 | The worker's drain loop is a path of the transition system and ends in exactly the tables it computes. |
| BusRefinement.ACrashRunsTheHandlerAgain | app/core/database.py:63-68 | The redelivery bound is reached: after a crash between the handler's commit and the batch's, the same handler has succeeded twice. |
| Store.PublishedRows | app/shared/infrastructure/event_bus.py:29-46 | Each published event is one new row at the end of the outbox: stamped now, unprocessed, never attempted, without an error. |
| Store.Session.Publish | app/shared/infrastructure/event_bus.py:29-43 | Appends one unprocessed outbox row per event, in order, in the caller's transaction. |
| ConversationFsm.Conversation.Transition | app/modules/conversation_ownership/domain/models.py:222-238 | A transition succeeds exactly along the table; a refused one changes neither state, owner nor recorded events. |
| ConversationFsm.Conversation.Decay | app/modules/conversation_ownership/domain/models.py:240-252 | Decay succeeds exactly from the active states and records dormancy; a refused one changes nothing. |
| ConversationFsm.Conversation.ReplaceOwner | app/modules/conversation_ownership/domain/models.py:254-270 | Always replaces the owner value and records a transfer exactly when the owner differs. |
| ConversationFsm.Conversation.PullDomainEvents | app/shared/domain/base.py:64-66 | Hands over the recorded events and keeps none. |
| ConversationFsm.EdgesAgree | app/modules/conversation_ownership/domain/models.py:56-108 | The table read by source state and by target state has the same edges, dormancy included; a human can be called in from every active state but the one where one is assigned; every state that is not closed, asleep or under evaluation can decay. |
| ConversationFsm.TransitionOutcome | app/modules/conversation_ownership/domain/models.py:222-270 | A transition changes the state and, if an owner is named, the ownership: that owner, from now, for that reason; it is announced exactly when the owner changes, from the previous owner to the new one. |
| ConversationFsm.SingleReentryGateway | app/modules/conversation_ownership/domain/models.py:56-126 | Over any calls, every way out of Dormant passes through Reactivated and then at once OwnershipEvaluation. |
| ConversationFsm.ClosedIsFinal | app/modules/conversation_ownership/domain/models.py:124-125 | A closed conversation never changes state again. |
| ConversationFsm.EveryStateCanClose | app/modules/conversation_ownership/domain/models.py:70-126 | From every state some sequence of calls closes the conversation. |
| Coordinator.CoordinatorAgent.Handle | app/modules/conversation_ownership/application/coordinator.py:98-132 | One turn, in place: the session after it is the specified outcome, or the specified error is raised. |
| Coordinator.CoordinatorAgent.TransferConversation | app/modules/conversation_ownership/application/coordinator.py:134-160 | Writes the decision first, then moves the conversation to the human or raises. |
| Coordinator.CoordinatorAgent.Converse | app/modules/conversation_ownership/application/coordinator.py:162-204 | The first turn takes ownership and goes on to qualification; a failing responder raises. |
| Coordinator.DecayInactive | app/modules/conversation_ownership/application/decay.py:23-38 | The scan decays every loaded conversation in order and reports how many. |
| Lifecycle.TurnOutcome | app/modules/conversation_ownership/application/coordinator.py:98-204 | A turn commits exactly when the guardrail transfers from New, Qualification or Recommendation or the responder answers; it then writes one row, and one decision with its transfer exactly when ownership moved. |
| Lifecycle.TurnRefusals | app/modules/conversation_ownership/application/coordinator.py:98-204 | A message of an unknown conversation changes nothing; a refused turn raised for its transition or for its responder. |
| Lifecycle.TransferNamesTheBroker | app/modules/conversation_ownership/application/ownership_policy.py:72-82 | The explanation of a transfer ends with the name of the broker the customer asked for. |
| Lifecycle.PolicyIsNeverStuck | app/modules/conversation_ownership/application/ownership_policy.py:59-94 | A turn on a conversation whose owner matches its state never raises NotImplementedPlaceholder. |
| Lifecycle.TurnKeepsConversations | app/modules/conversation_ownership/application/coordinator.py:98-204 | A committed turn keeps every conversation's state, owner, history and recommendation promises. |
| Lifecycle.DecayKeepsConversations | app/modules/conversation_ownership/application/decay.py:23-38 | The dormancy scan never fails and makes exactly the named conversations dormant; the outbox grows by exactly one announcement for each, in scan order, with its organization, id and last contact; every promise is kept. |
| Lifecycle.WebhookKeepsConversations | app/modules/conversation_ownership/api/webhook_router.py:73-110 | An accepted delivery keeps every conversation's promises; a new conversation starts unassigned with no history. |
| Lifecycle.DeliveryKeepsConversations | app/modules/recommendation/wiring.py:130-169 | Delivering a recommendation for a complete lead keeps every conversation's promises. |
| Webhook.ReceiveWebhook | app/modules/conversation_ownership/api/webhook_router.py:39-111 | The request handler, in place: what is committed and answered is as specified, and nothing is committed unless it is accepted. |
| Webhook.LeadLinker.LinkIfPossible | app/modules/conversation_ownership/application/lead_linker.py:32-48 | Links an unlinked conversation as specified, and raises when two local leads share its contact. |
| Webhook.DeliveryEffect | app/modules/conversation_ownership/api/webhook_router.py:58-111 | A delivery is accepted exactly when it is a message whose triple is new and whose lead is not ambiguous, a duplicate exactly when the triple was archived; otherwise the store does not move. |
| Webhook.AcceptedKeepsTheConversation | app/modules/conversation_ownership/api/webhook_router.py:73-110 | An accepted delivery moves the last contact of a stored conversation and nothing else of it, or adds a New, unassigned one with the payload's contact; a link once set stays, and one is set exactly to the only lead of the organization with the conversation's contact. |
| Webhook.OtherDeliveries | app/modules/conversation_ownership/api/webhook_router.py:44-72 | Exactly when a delivery is answered as ignored, as unprocessable, as for an unknown organization, or raises for an ambiguous lead. |
| Webhook.LinkFailsOnlyOnAmbiguity | app/modules/conversation_ownership/application/lead_linker.py:36-48 | Linking sets the one local lead with the conversation's contact, none when there is no contact or no such lead, keeps a set link, and fails exactly on several such leads. |
| Webhook.AcceptedKeepsArchive | app/modules/conversation_ownership/infrastructure/repository.py:138-172 | An accepted delivery keeps archive and outbox in step and archives exactly its own triple. |
| Webhook.AcceptedCarriesThePayload | app/modules/conversation_ownership/api/webhook_router.py:84-110 | The newest archive entry and event carry the payload, in the conversation of its chatwoot id. |
| ProfileCapture.BuyerProfileCaptureService.Update | app/modules/lead_qualification/application/profile_capture.py:42-74 | One patch, in place: stored and published as specified, or nothing at all. |
| ProfileCapture.ProfileEntity.Apply | app/modules/lead_qualification/domain/models.py:133-144 | Overwrites exactly the dimensions the patch carries. |
| ProfileCapture.RowRoundTrip | app/modules/lead_qualification/infrastructure/repository.py:125-154 | A stored profile reads back as the same profile. |
| ProfileCapture.RowReadsExactlyWhen | app/modules/lead_qualification/infrastructure/repository.py:141-157 | A stored row reads back if and only if both bounds, where both are there, make a range and its texts are blank or known; every field is then the column's, and half a range is no budget. |
| ProfileCapture.PatchIsReadBack | app/modules/lead_qualification/application/profile_capture.py:42-74 | After an accepted patch the profile read back has exactly the patch's value in each dimension it carries and exactly the previous value in every other, and no other lead's profile moves. |
| ProfileCapture.PatchIsRefusedFor | app/modules/lead_qualification/application/profile_capture.py:42-55 | A patch is refused as invalid exactly when it could harm a profile or is empty, and otherwise exactly for an unknown lead. |
| ProfileCapture.UpdateEffect | app/modules/lead_qualification/application/profile_capture.py:42-74 | A patch is accepted exactly when valid, not empty and for a known lead; no completeness falls, the profile reads back, and the event comes exactly with the crossing. |
| ProfileCapture.CompletionTellsTheProfile | app/modules/lead_qualification/application/profile_capture.py:61-74 | The crossing event carries the lead's identity, the completeness reached and the whole patched profile. |
| ProfileCapture.ExactlyOnceNeedsAPositiveThreshold | app/modules/lead_qualification/application/profile_capture.py:56-74 | Patches keep the event count exact if and only if the threshold is positive. |
| LeadDomain.ApplyIsMonotone | app/modules/lead_qualification/domain/models.py:133-166 | A valid patch loses no dimension and no completeness. |
| LeadDomain.ApplyCapturesWhatItCarries | app/modules/lead_qualification/domain/models.py:133-144 | A patch captures exactly what it carries on top of what there was; twice is once; a later patch overrides what it carries, disjoint ones commute. |
| LeadDomain.PatchedByDimension | app/modules/lead_qualification/domain/models.py:133-144 | Dimension by dimension the patched profile is the patch's value where carried and the previous value elsewhere, dated now - and no other profile is. |
| LeadDomain.PatchIsValidExactlyWhen | app/modules/lead_qualification/domain/models.py:86-105 | The patches that can be constructed are exactly those that cost no valid profile its validity or a dimension; the empty ones exactly those that change nothing. |
| LeadDomain.RangeIsValidExactlyWhen | app/modules/lead_qualification/domain/models.py:71-83 | A range is valid if and only if its least price is positive and some price lies in it. |
| LeadDomain.CompletenessCountsDimensions | app/modules/lead_qualification/domain/models.py:146-167 | Completeness is 20 percent for each captured dimension. |
| LeadDomain.GateOpensExactlyWhen | app/modules/lead_qualification/application/completeness_gate.py:34-43 | The gate opens if and only if the captured dimensions, at 20 percent each, reach the threshold. |
| LeadDomain.OnlyContractStagesParse | app/modules/lead_qualification/domain/models.py:23-34 | Exactly the seven texts of the contract parse, each to its own stage. |
| LeadDomain.AboveEightyIsEverything | app/modules/lead_qualification/domain/models.py:146-166 | Completeness is above 80 percent exactly when no dimension is missing. |
| LeadDomain.GateNamesAMissingDimension | app/modules/lead_qualification/application/completeness_gate.py:34-43 | A refusal below 100 percent names the first dimension, in the asking order, that the profile lacks; only an unreachable threshold refuses without one. |
| LeadDomain.StageRoundTrip | app/modules/lead_qualification/domain/models.py:23-34 | Every stage is read back from its own name. |
| RecommendationHandler.OnProfileCompleted | app/modules/recommendation/wiring.py:92-170 | The handler, in place: what is committed is as specified, incomplete and vanished leads are dropped with nothing committed. |
| RecommendationHandler.RecommendationEffect | app/modules/recommendation/wiring.py:92-170 | A guarded lead past the gate is delivered to its one conversation, moved only from qualification, keeps its refresh when it has none and raises when it has several; any other lead commits nothing. |
| RecommendationHandler.ClearedMeansComplete | app/modules/recommendation/application/recommendation_service.py:99-117 | A search goes ahead exactly when the guard lets the lead through and its stored profile is at the threshold. |
| StableOrder.Sorted | app/modules/recommendation/application/ranking_engine.py:71-71 | Every index once, by score descending and, among equals, by input order. |
| StableOrder.StableOrderIsUnique | app/modules/recommendation/application/ranking_engine.py:59-66 | There is only one such order. |
| Ranking.Rank | app/modules/recommendation/application/ranking_engine.py:56-71 | The engine's scoring loop, ordered by score and cut, gives the specified ranking. |
| Ranking.RankIsTheStableTop | app/modules/recommendation/application/ranking_engine.py:56-71 | Exactly the best min(k, n) candidates in stable order, each with its own score; none left out precedes one kept; a negative k slices as Python does. |
| Ranking.RankIsAPrefix | app/modules/recommendation/application/ranking_engine.py:71-71 | The list for k is a prefix of the list for k + 1. |
| Ranking.ScoreIsTheWeightedSum | app/modules/recommendation/application/ranking_engine.py:73-99 | The score is 0.4, 0.3, 0.2 and 0.1 of the four signals, added up. |
| Ranking.ScoreBounds | app/modules/recommendation/application/ranking_engine.py:73-99 | Every score is in [0, 1]. |
| Ranking.BudgetFitBounds | app/modules/recommendation/application/ranking_engine.py:102-127 | The fit is in [0, 1], 0 outside the range, and 1 exactly at its midpoint. |
| Ranking.FitFallsWithDistance | app/modules/recommendation/application/ranking_engine.py:124-127 | Inside the range one price fits better than another exactly when it is nearer the midpoint. |
| Ranking.CoverageBounds | app/modules/recommendation/application/ranking_engine.py:140-147 | Coverage is in [0, 1], and 1 exactly when there are must-haves and all are met. |
| Ranking.CountIsTheNumberMet | app/modules/recommendation/application/ranking_engine.py:146-147 | The count of met must-haves is the number of places in the list whose feature the property has. |
| Ranking.CountIgnoresOrder | app/modules/recommendation/application/ranking_engine.py:146-147 | The order in which must-haves are listed does not change it. |
| Ranking.CoverageIsTheShareMet | app/modules/recommendation/application/ranking_engine.py:140-147 | Coverage times the number of must-haves is the number met; without must-haves it is 0. |
| Ranking.OneMoreMet | app/modules/recommendation/application/ranking_engine.py:60-106 | One more must-have met, all else equal, raises the score by exactly 0.2 over their number. |
| Ranking.ScoreInFull | app/modules/recommendation/application/ranking_engine.py:60-157 | The score is 0.4 times the fit, 0.3 exactly for a wished zone, 0.2 times the share of must-haves met and 0.1 exactly for the wished type, under the names of the signals; what the profile does not ask for earns nothing. |
| Ranking.ExplainedByTheStrongest | app/modules/recommendation/domain/models.py:120-125 | The explanation is given three different signals, strongest first, and the one left out contributes no more. |
| Retrieval.CauchySchwarz | app/modules/recommendation/application/retrieval.py:62-67 | For vectors of any length the squared dot product is at most the product of the squared norms. |
| Retrieval.CosineBounds | app/modules/recommendation/application/retrieval.py:52-67 | For all vectors similarity is symmetric and in [-1, 1], unequal, empty and zero ones included. |
| Retrieval.CosineOfItself | app/modules/recommendation/application/retrieval.py:62-67 | A vector with a length is similar to itself with 1. |
| Retrieval.CosineTimesLengths | app/modules/recommendation/application/retrieval.py:52-67 | Similarity times both lengths gives back the dot product of equally long vectors, zero vectors included; unequal lengths give 0. |
| Retrieval.FilterIsExact | app/modules/recommendation/application/retrieval.py:97-109 | The hard filter keeps exactly the matching properties, as often as they are stored. |
| Retrieval.SimilarityTimesLengths | app/modules/recommendation/application/retrieval.py:52-67 | What candidates are compared by is the dot product of the query with the candidate's own embedding over both lengths, within [-1, 1], and 0 for another size. |
| Retrieval.FilterKeepsTheOrder | app/modules/recommendation/application/retrieval.py:97-109 | The kept properties stand in the order they are stored in. |
| Retrieval.FilterByWish | app/modules/recommendation/application/retrieval.py:97-109 | Each wish filters on its own: a price outside either end of the range, a zone or a type that is not the wished one keeps a property out, and nothing else does. |
| Retrieval.Retrieve | app/modules/recommendation/application/retrieval.py:125-142 | The loop that skips and scores candidates, ordered by similarity and cut, gives the specified list. |
| Retrieval.RetrieveIsTheStableTop | app/modules/recommendation/application/retrieval.py:125-142 | The first min(n, embedded) candidates by similarity, ties in input order; only those without an embedding are dropped outright. |
| Search.CandidatesAreTheMostSimilar | app/modules/recommendation/application/recommendation_service.py:119-130 | What reaches the ranking are the topN filtered properties with an embedding that are most similar to the query, most similar first, ties in stored order. |
| Search.SearchReturns | app/modules/recommendation/application/recommendation_service.py:96-161 | A search goes ahead if and only if a profile is stored that reaches the threshold; it returns as many items as there are to find, up to topN and topK. |
| Search.ItemsAreRanked | app/modules/recommendation/application/recommendation_service.py:119-161 | Items are stored properties that pass every filter and have an embedding, with their own scores and strongest signals; ranks run from 1 and scores never increase. |
| Search.RankedAreDistinct | app/modules/recommendation/application/recommendation_service.py:142-146 | From stored properties with different ids, the fan-out is asked for each id at most once. |
| Search.ItemsCarryTheirLookups | app/modules/recommendation/application/recommendation_service.py:142-160 | Each item carries the places its own lookup delivered within the budget, and none otherwise. |
| Search.LateInsightsAreForBareItems | app/modules/recommendation/application/recommendation_service.py:142-160 | In every run of the fan-out, whatever is announced late for a search, then or later, is for an item that went out without a neighborhood. |
| Search.FloorAboveEighty | app/modules/recommendation/application/recommendation_service.py:112-161 | Above 80 percent every item has zone and type signals of 1 and a score in [0.4, 1]. |
| Search.FloorNeedsAboveEighty | app/modules/recommendation/application/recommendation_service.py:112-117 | The score floor holds if and only if the gate asks for more than 80 percent. |
| PropertyIngestion.SortingIsCanonical | app/modules/recommendation/application/property_ingestion.py:58-71 | Any two orders of the same features sort alike. |
| PropertyIngestion.HexIsInjective | app/modules/recommendation/application/property_ingestion.py:74-75 | Different digests have different hexadecimal texts. |
| PropertyIngestion.SameHashSameVector | app/modules/recommendation/application/property_ingestion.py:53-75 | Equal content hashes mean equal vectors, since both come from one digest. |
| PropertyIngestion.KeyIsExact | app/modules/recommendation/application/property_ingestion.py:58-71 | Between items without separators in their fields the key changes exactly when a fact does, features taken without order and the price as it is printed. |
| PropertyIngestion.FeatureChangesAreSeenExactlyWhen | app/modules/recommendation/application/property_ingestion.py:58-71 | The key changes with every change of an item's features if and only if the item has exactly one feature, which is not empty and is not two parts in sorted order around a comma. |
| PropertyIngestion.ACommaHidesAChange | app/modules/recommendation/application/property_ingestion.py:68-68 | A comma inside a feature hides a change from the key. |
| PropertyIngestion.AnEmptyFeatureIsNone | app/modules/recommendation/application/property_ingestion.py:68-68 | One empty feature and no feature share a key. |
| PropertyIngestion.ABarInAFeatureHidesAChange | app/modules/recommendation/application/property_ingestion.py:60-71 | A bar inside a feature lets the key of another feature and description be the same. |
| PropertyIngestion.ABarInAZoneHidesAChange | app/modules/recommendation/application/property_ingestion.py:60-71 | A bar inside a zone lets the key of another zone, feature and description be the same. |
| PropertyIngestion.ABarInAnIdHidesAChange | app/modules/recommendation/application/property_ingestion.py:60-71 | A bar inside an external id lets the key of another id, feature and description be the same. |
| PropertyIngestion.PropertyRepository.Upsert | app/modules/recommendation/infrastructure/repository.py:29-43 | Inserts, or overwrites everything but the organization. |
| PropertyIngestion.PropertyRepository.SaveEmbedding | app/modules/recommendation/infrastructure/repository.py:56-64 | Replaces the embedding row of the property. |
| PropertyIngestion.PropertyIngestionService.IngestFromSource | app/modules/recommendation/application/property_ingestion.py:94-113 | The ingestion loop, in place: every item upserted, embeddings recomputed where the hash differs, and counted. |
| PropertyIngestion.CacheEqualsRecomputation | app/modules/recommendation/application/property_ingestion.py:94-113 | After any sequence of ingests every stored vector equals recomputation, with no assumption on collisions or distinct ids. |
| PropertyIngestion.CacheNeedsTheHashToDecide | app/modules/recommendation/application/property_ingestion.py:37-42 | Any other embedder is cached soundly if and only if the content hash decides its vector. |
| PropertyIngestion.QuietIngest | app/modules/recommendation/application/property_ingestion.py:97-113 | An ingest returns 0 exactly when every item is already embedded as it is, and then writes no embedding. |
| PropertyIngestion.IngestCountsTheStale | app/modules/recommendation/application/property_ingestion.py:94-113 | With distinct ids an ingest returns exactly the number of items that were not embedded as they are. |
| PropertyIngestion.ReingestIsQuiet | app/modules/recommendation/application/property_ingestion.py:94-113 | Re-ingesting a catalog returns 0 if and only if no id comes with two different hashes. |
| PropertyIngestion.TouchedCatalogIsQuiet | app/modules/recommendation/application/property_ingestion.py:58-71 | With distinct ids, permuted features and changed timestamps recompute nothing. |
| PropertyIngestion.IngestStoresTheCatalog | app/modules/recommendation/application/property_ingestion.py:97-113 | Of each id the last item of the catalog is stored, with an embedding of that item. |
| PropertyIngestion.IngestOneWrites | app/modules/recommendation/application/property_ingestion.py:97-113 | An item always overwrites its row but for the organization; its embedding is left alone exactly when its hash is the stored one, and is otherwise the item's own, with the model's version and the time of the ingest. |
| PropertyIngestion.OthersAreLeftAlone | app/modules/recommendation/application/property_ingestion.py:97-113 | Rows and embeddings of properties the catalog does not name stay as they are. |
| PropertyIngestion.Embed | app/modules/recommendation/application/property_ingestion.py:53-55 | Sixteen components in [0, 1], each a digest byte over 255. |
| NeighborhoodEnrichment.StepKeepsInv | app/modules/recommendation/application/neighborhood_enrichment.py:74-154 | Every step keeps calls within the bound, the set of background tasks equal to the unfinished retries, and late events unique. |
| NeighborhoodEnrichment.EveryRunIsBounded | app/modules/recommendation/application/neighborhood_enrichment.py:109-142 | In every interleaving a lookup costs at most 1 + max_retries calls and is announced late exactly once if it ended published, never otherwise. |
| NeighborhoodEnrichment.FinalIsFinal | app/modules/recommendation/application/neighborhood_enrichment.py:74-142 | A delivered, published, failed or abandoned lookup never changes again. |
| NeighborhoodEnrichment.EveryStepDrains | app/modules/recommendation/application/neighborhood_enrichment.py:120-142 | Every step but a new request leaves less to do. |
| NeighborhoodEnrichment.TasksCanMove | app/modules/recommendation/application/neighborhood_enrichment.py:104-107 | While a background retry is unfinished it can move; when nothing is left to do the set of tasks is empty. |
| NeighborhoodEnrichment.HeldWasAnswered | app/modules/recommendation/application/neighborhood_enrichment.py:62-155 | In every run the places a lookup delivered or published late are places that were answered to that lookup before. |
| NeighborhoodEnrichment.ResultIsTheLastSlot | app/modules/recommendation/application/neighborhood_enrichment.py:92-93 | The result has an entry for exactly the requested properties, decided by the last lookup of each. |
| NeighborhoodEnrichment.ReturnedResultStands | app/modules/recommendation/application/neighborhood_enrichment.py:92-93 | Once a request has returned, no later step would change its result. |
| NeighborhoodEnrichment.LateMeansReturnedAsNone | app/modules/recommendation/application/neighborhood_enrichment.py:74-93 | With distinct ids a late event is only for a property returned as None. |
| NeighborhoodEnrichment.ARepeatedIdIsAnnouncedTwice | app/modules/recommendation/application/neighborhood_enrichment.py:92-93 | For any id list with a repeated id and any positive retry bound, a property returned in full is announced late as well in some run. |
| NeighborhoodEnrichment.LateIsForMissingExactlyWhen | app/modules/recommendation/application/neighborhood_enrichment.py:62-142 | In every run every late event of a call is for a property it returned as None if and only if the requested ids are distinct or there are no retries. |
| NeighborhoodEnrichment.InterleavedRetryIsItsLoop | app/modules/recommendation/application/neighborhood_enrichment.py:109-142 | In any interleaving the steps of one background retry are, in order, a prefix of the steps of its own loop on its own answers. |
| NeighborhoodEnrichment.NeighborhoodEnrichmentAdapter.StartRequest | app/modules/recommendation/application/neighborhood_enrichment.py:62-92 | Starts one lookup per requested property, all at once. |
| NeighborhoodEnrichment.NeighborhoodEnrichmentAdapter.FetchOne | app/modules/recommendation/application/neighborhood_enrichment.py:74-90 | An answer is delivered; any exception schedules the one background retry. |
| NeighborhoodEnrichment.NeighborhoodEnrichmentAdapter.RetryAndPublish | app/modules/recommendation/application/neighborhood_enrichment.py:109-142 | The bounded retry loop takes exactly the steps of its specification; interleaved with anything else it takes the same ones (InterleavedRetryIsItsLoop). |

## Left out

- HTTP, SQLAlchemy, FastAPI, authentication, tracing, Chatwoot and Maps transport: I/O; their failures are parameters.
- Organization configuration, prompt registry, sidebar text, migrations, graph pages: only easy members.
- The responder's language model, the guardrail's patterns, explanation and message texts: arbitrary values here.
- Guarantees.NoCrmUpdateIsLost: takes a CRM call and the commit that follows it as one step; `LateCommits` takes the two apart. In both one list call is one reading of the CRM.
- LateCommits.LateCommitBreaksExactlyWhen: a refresh is taken to write every mirrored column, not only those that differ from the row loaded before the call, and to compare the stage, for its stage event, with the row at the commit; the ledger (`Guarantees.StageLedgerIsExact`) rests on the second. The guard and the commit are two steps; what the handler reads after the CRM has answered is read at the commit.
- Guarantees.OnePollConverges: stage names are repaired from invalid to valid, not between two valid names, because the latter moves no timestamp and no poll sees it.
- RecommendationHandler.OnProfileCompleted: the guard's CRM client is taken to reach the lead's own CRM; the wiring builds it with the default address, so this holds for organizations without a CRM configuration of their own.
- RecommendationHandler.OnProfileCompleted: its message is any text of the profile; what the search puts into it is stated by the `Search` module on its own.
- SystemRuns.StepKeeps: a late insight is an event that may be published at any time; which one is published is the business of the `NeighborhoodEnrichment` module.
- EventBus.HealthyRowsAllDelivered: undisturbed drains of one worker with fixed outcomes.
- BusProgress.OvertakingIsBounded: several workers with fixed outcomes and one batch limit; what is published while the row waits is stamped after it.
- Coordinator.CoordinatorAgent.Handle: the decision trace, the inputs snapshot and the channel are not stored.
- NeighborhoodEnrichment.StepKeepsInv: a finished task and its removal from the set of tasks are one step; the budget in milliseconds is the choice between an answer and a miss.
- Ranking.ScoreIsTheWeightedSum: exact reals; floating-point rounding is not modelled.
- Retrieval.CosineBounds: norms are given as non-negative numbers whose square is the sum of squares.
- The default query embedder: its three numbers never match the sixteen of the ingestion vectors, so its similarity is 0.
- Monotone contact times: a message may carry an older timestamp, and the code stores it.
- The mirror of a contact the CRM has cleared: the code keeps the old one.
