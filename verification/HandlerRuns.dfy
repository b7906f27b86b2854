/** What each consumer's run does in every run of the system, and what a scan and a patch do. */
module HandlerRuns {
  import opened Prelude
  import opened LeadDomain
  import opened Store
  import opened ConversationFsm
  import opened LeadSync
  import opened CrmMirror
  import opened ProfileCapture
  import opened Coordinator
  import opened Webhook
  import opened RecommendationHandler
  import opened Lifecycle
  import opened EventBus
  import opened BusRuns
  import opened LeadToSales
  import opened LeadTables
  import opened DataInvariant
  import opened SystemInvariant
  import opened SystemRuns
  import opened Guarantees

  const COORDINATOR: string := "conversation_ownership.coordinator"

  const RECOMMENDATION: string := "recommendation.on_profile_completed"

  /** Worker `w` is about to run `consumer` for the event. */
  predicate Faces(s: Sys, w: nat, consumer: string, e: EventId) {
    AtConsumer(WIRED, BusOf(s), w) && NextDelivery(WIRED, BusOf(s), w) == (consumer, e)
  }

  /** The run counts, and is staged in the worker's batch. */
  predicate Succeeds(s: Sys, t: Sys, w: nat, d: Delivery) {
    && w in s.batches
    && t.runs == s.runs + multiset{d}
    && t.batches == s.batches[w := s.batches[w].(next := s.batches[w].next + 1, staged := s.batches[w].staged + {d})]
  }

  /** The run does not count; the worker gives the row up for now and keeps who failed and why. */
  predicate Fails(s: Sys, t: Sys, w: nat, d: Delivery, why: string) {
    && w in s.batches
    && t.runs == s.runs
    && t.batches == s.batches[w := s.batches[w].(cur := s.batches[w].cur + 1, next := 0,
                                                 failed := s.batches[w].failed[d.1 := d.0 + ": " + why])]
  }

  // ---- Any handler -----------------------------------------------------------------------------

  predicate EndsAs(s: Sys, t: Sys, w: nat, d: Delivery, env: Env, r: Result<Db, Error>) {
    && (env.raises.Some? ==> Fails(s, t, w, d, env.raises.value))
    && (env.raises.None? && r.Err? ==> Fails(s, t, w, d, "raised"))
    && (env.raises.None? && r.Ok? && env.raisesLate.Some? ==> Fails(s, t, w, d, env.raisesLate.value))
    && (env.raises.None? && r.Ok? && env.raisesLate.None? ==> Succeeds(s, t, w, d))
  }

  lemma EndingIgnoresCrm(s: Sys, m: Sys, t: Sys, w: nat, d: Delivery, env: Env, r: Result<Db, Error>)
    requires m == s.(crm := m.crm, clock := m.clock) && EndsAs(m, t, w, d, env, r)
    ensures EndsAs(s, t, w, d, env, r)
  {
  }

  /** A run that raises before its commit leaves every table as it was; one that raises after it leaves what it
      committed; both fail. */
  lemma RunIsRecorded(config: Config, s: Sys, w: nat, env: Env, txn: Txn)
    requires CanRun(s, w, env) && txn == TxnOf(s, w, env)
    ensures AtConsumer(WIRED, BusOf(s), w) && IsScan(s.db, txn)
    ensures var t, d, r := Handled(config, s, w, env), NextDelivery(WIRED, BusOf(s), w), Run(config, s.db, txn);
            && t.db == (if env.raises.None? && r.Ok? then r.value else s.db)
            && (env.stamp.None? ==> t.crm == s.crm && t.clock == s.clock)
            && EndsAs(s, t, w, d, env, r)
  {
    var patched := Patched(s, txn, env.stamp);
    assert patched == s.(crm := patched.crm, clock := patched.clock) && BusOf(patched) == BusOf(s);
    AttemptIsRecorded(config, patched, w, env, AttemptOf(s, w, env));
    EndingIgnoresCrm(s, patched, Handled(config, s, w, env), w, NextDelivery(WIRED, BusOf(s), w), env,
                     Run(config, s.db, txn));
    assert Handled(config, s, w, env) == HandledAs(config, patched, w, env, AttemptOf(s, w, env));
  }

  lemma AttemptIsRecorded(config: Config, s: Sys, w: nat, env: Env, txn: Txn)
    requires AtConsumer(WIRED, BusOf(s), w) && IsScan(s.db, txn)
    requires env.raises.Some? ==> txn == Nothing
    ensures var t, d, r := HandledAs(config, s, w, env, txn), NextDelivery(WIRED, BusOf(s), w), Run(config, s.db, txn);
            && t.db == (if r.Ok? then r.value else s.db)
            && t.crm == s.crm && t.clock == s.clock
            && EndsAs(s, t, w, d, env, r)
  {
    var failure := Failure(config, s.db, txn, env);
    var recorded := Recorded(s, w, failure);
    var t := Transacted(config, recorded, txn);
    assert t.batches == recorded.batches && t.runs == recorded.runs;
  }

  // ---- The coordinator -------------------------------------------------------------------------

  /** Whether a turn commits: the guardrail's transfer from a state that allows it, or the responder's answer. */
  predicate TurnCommits(row: ConversationRow, input: TurnInput) {
    if input.bypass.Some? then row.state.New? || row.state.Qualification? || row.state.Recommendation?
    else input.reply.Some?
  }

  /** Whenever the coordinator is run, it is for a message of a stored conversation; if nothing raises and the turn can
      commit, the turn has been taken in that conversation, and otherwise no table has moved. */
  lemma CoordinatorTakesTheTurn(
    config: Config, states: seq<Sys>, steps: seq<Step>, i: nat, w: nat, env: Env, e: EventId)
    requires IsRun(config, states, steps) && i < |steps|
    requires steps[i] == Handle(w, env) && Faces(states[i], w, COORDINATOR, e)
    ensures e < |states[i].db.outbox| && states[i].db.outbox[e].event.MessageReceived?
    ensures var s, t, id := states[i], states[i + 1], states[i].db.outbox[e].event.convId;
            && id < |s.db.conversations|
            && var commits := env.raises.None? && TurnCommits(s.db.conversations[id], env.input);
            && (commits ==> TurnDid(s.db, t.db, id, env.input, env.now))
            && (!commits ==> t.db == s.db)
            && (commits && env.raisesLate.None? ==> Succeeds(s, t, w, (COORDINATOR, e)))
            && (!commits || env.raisesLate.Some? ==> exists why :: Fails(s, t, w, (COORDINATOR, e), why))
  {
    RunKeeps(config, states, steps, i);
    var s := states[i];
    CoordinatorHearsMessages(s, e);
    MessagesHaveConversations(s, e);
    var id := s.db.outbox[e].event.convId;
    assert ConversationOk(s.db, Log(s.db.outbox), config.threshold, id);
    TurnIsTaken(config, s, w, env, e, id);
  }

  lemma CoordinatorHearsMessages(s: Sys, e: EventId)
    requires exists w :: Faces(s, w, COORDINATOR, e)
    ensures e < |s.db.outbox| && s.db.outbox[e].event.MessageReceived?
  {
    var w :| Faces(s, w, COORDINATOR, e);
    assert ConsumersOf(WIRED, s.db.outbox, e)[s.batches[w].next] == COORDINATOR;
    WhoIsToldOfWhat(s.db.outbox[e].event);
    assert COORDINATOR[0] == 'c' && COORDINATOR[13] == 'o' && "conversation_ownership.chatwoot_sender"[24] == 'h'
        && COORDINATOR[24] == 'o' && "lead_qualification.crm_push"[0] == 'l' && RECOMMENDATION[0] == 'r';
  }

  lemma MessagesHaveConversations(s: Sys, e: EventId)
    requires ArchiveInv(s.db, s.acked) && e < |s.db.outbox| && s.db.outbox[e].event.MessageReceived?
    ensures s.db.outbox[e].event.convId < |s.db.conversations|
  {
    var log := Log(s.db.outbox);
    MessageIsArchived(log, e);
    var events := ArchiveEvents(s.db);
    var k :| 0 <= k < |events| && events[k] == log[e];
    assert events[k] == ToEvent(s.db.archive[k], s.db.conversations[s.db.archive[k].convId].chatwootId);
  }

  lemma MessageIsArchived(log: seq<Event>, e: nat)
    requires e < |log| && log[e].MessageReceived?
    ensures log[e] in Project(log, MessageSel())
  {
    assert log == log[..e] + [log[e]] + log[e + 1..];
    ProjectConcat(log[..e] + [log[e]], log[e + 1..], MessageSel());
    ProjectConcat(log[..e], [log[e]], MessageSel());
    ProjectOne(log[e], MessageSel());
  }

  lemma TurnIsTaken(config: Config, s: Sys, w: nat, env: Env, e: EventId, id: ConvId)
    requires CanRun(s, w, env) && Faces(s, w, COORDINATOR, e)
    requires e < |s.db.outbox| && s.db.outbox[e].event.MessageReceived? && s.db.outbox[e].event.convId == id
    requires id < |s.db.conversations| && OwnerMatchesState(s.db.conversations[id])
    ensures var t := Handled(config, s, w, env);
            var commits := env.raises.None? && TurnCommits(s.db.conversations[id], env.input);
            && (commits ==> TurnDid(s.db, t.db, id, env.input, env.now))
            && (!commits ==> t.db == s.db)
            && (commits && env.raisesLate.None? ==> Succeeds(s, t, w, (COORDINATOR, e)))
            && (!commits || env.raisesLate.Some? ==> exists why :: Fails(s, t, w, (COORDINATOR, e), why))
  {
    var turn := Turn(id, env.input, env.now);
    assert TxnOf(s, w, env) == turn;
    RunIsRecorded(config, s, w, env, turn);
    TurnOutcome(s.db, id, env.input, env.now);
    assert Run(config, s.db, turn) == HandleMessage(s.db, id, env.input, env.now);
  }

  // ---- A conversation past its first turn ------------------------------------------------------

  /** A step counts at most the handler run it is, if it is one. */
  lemma StepCounts(config: Config, s: Sys, step: Step, d: Delivery)
    requires Possible(s, step)
    requires d in Next(config, s, step).runs && d !in s.runs
    ensures step.Handle? && Faces(s, step.worker, d.0, d.1)
            && Succeeds(s, Next(config, s, step), step.worker, d)
  {
    if step.Handle? {
      RunIsRecorded(config, s, step.worker, step.env, TxnOf(s, step.worker, step.env));
    }
  }

  ghost predicate Answered(s: Sys, e: EventId) {
    && e < |s.db.outbox| && s.db.outbox[e].event.MessageReceived?
    && s.db.outbox[e].event.convId < |s.db.conversations|
    && !s.db.conversations[s.db.outbox[e].event.convId].state.New?
  }

  lemma AnsweredGoesOn(config: Config, s: Sys, t: Sys, e: EventId)
    requires Onward(config, s, t) && Answered(s, e)
    ensures Answered(t, e)
  {
    assert Log(s.db.outbox)[e] == Log(t.db.outbox)[e];
  }

  lemma FirstAnswer(config: Config, states: seq<Sys>, steps: seq<Step>, i: nat, e: EventId)
    requires IsRun(config, states, steps) && i < |steps|
    requires (COORDINATOR, e) in states[i + 1].runs && (COORDINATOR, e) !in states[i].runs
    ensures Answered(states[i + 1], e)
  {
    StepCounts(config, states[i], steps[i], (COORDINATOR, e));
    CoordinatorTakesTheTurn(config, states, steps, i, steps[i].worker, steps[i].env, e);
    RunKeeps(config, states, steps, i);
    StepKeeps(config, states[i], steps[i]);
    assert Log(states[i].db.outbox)[e] == Log(states[i + 1].db.outbox)[e];
  }

  /** Once the coordinator's success for a message is recorded - in the inbox or in an open batch - the message's
      conversation has had its turn: it is not new any more. */
  lemma RecordedMeansAnswered(config: Config, states: seq<Sys>, steps: seq<Step>, i: nat, e: EventId)
    requires IsRun(config, states, steps) && i < |states|
    requires (COORDINATOR, e) in states[i].db.inbox || StagedSomewhere(BusOf(states[i]), (COORDINATOR, e))
    ensures Answered(states[i], e)
  {
    RunKeeps(config, states, steps, i);
    var s, d := states[i], (COORDINATOR, e);
    assert BusOf(s).runs[d]
        == (if d in s.db.inbox then 1 else 0) + (if StagedSomewhere(BusOf(s), d) then 1 else 0) + s.rolledBack[d];
    CountedMeansAnswered(config, states, steps, i, e);
  }

  lemma {:induction false} CountedMeansAnswered(config: Config, states: seq<Sys>, steps: seq<Step>, i: nat, e: EventId)
    requires IsRun(config, states, steps) && i < |states|
    requires (COORDINATOR, e) in states[i].runs
    ensures Answered(states[i], e)
  {
    if i > 0 {
      if (COORDINATOR, e) in states[i - 1].runs {
        CountedMeansAnswered(config, states, steps, i - 1, e);
        RunGoesOnward(config, states, steps, i - 1, i);
        AnsweredGoesOn(config, states[i - 1], states[i], e);
      } else {
        FirstAnswer(config, states, steps, i - 1, e);
      }
    }
  }

  // ---- The stage push --------------------------------------------------------------------------

  /** What the CRM holds for a lead. */
  function DealAt(s: Sys, lead: LeadId): Option<Deal>
    requires lead < |s.db.leads|
  {
    var row := s.db.leads[lead];
    if row.crmLeadId in CrmOf(s.crm, row.org) then Some(CrmOf(s.crm, row.org)[row.crmLeadId]) else None
  }

  /** Only the one row is rewritten: it mirrors the deal, as of now. */
  predicate OnlyRefreshes(db: Db, r: Db, lead: LeadId, deal: Deal, now: Time) {
    && lead < |db.leads| == |r.leads|
    && IsMirror(r.leads[lead], db.leads[lead].org, db.leads[lead].crmLeadId, deal) && r.leads[lead].syncedAt == now
    && (forall k :: 0 <= k < |db.leads| && k != lead ==> r.leads[k] == db.leads[k])
    && r == db.(leads := r.leads, outbox := r.outbox, audit := r.audit)
  }

  /** The stage push is run for completed profiles. With an answer from the CRM the lead ends up as the CRM answered,
      which is qualified, and the run counts; without one it fails and no table moves. A push that reached the CRM has
      made the deal qualified there, under its new stamp, and moved no other deal. */
  lemma StagePushMirrors(config: Config, states: seq<Sys>, steps: seq<Step>, i: nat, w: nat, env: Env, e: EventId)
    requires IsRun(config, states, steps) && i < |steps| && config.threshold > 0.0
    requires steps[i] == Handle(w, env) && Faces(states[i], w, CRM_PUSH, e)
    ensures e < |states[i].db.outbox| && states[i].db.outbox[e].event.ProfileCompleted?
    ensures var s, t, lead := states[i], states[i + 1], states[i].db.outbox[e].event.leadId;
            && lead < |s.db.leads|
            && var stored := env.raises.None? && env.answer.Some?;
            && (stored ==> OnlyRefreshes(s.db, t.db, lead, env.answer.value, env.now)
                           && t.db.leads[lead].stage == Qualified && Succeeds(s, t, w, (CRM_PUSH, e)))
            && (!stored ==> t.db == s.db && exists why :: Fails(s, t, w, (CRM_PUSH, e), why))
            && (env.stamp.None? ==> t.crm == s.crm)
            && (env.stamp.Some? ==>
                  && DealAt(s, lead).Some? && env.stamp.value > s.clock
                  && var row, deal := s.db.leads[lead],
                       DealAt(s, lead).value.(stage := "Qualified", updatedAt := env.stamp.value);
                  && t.crm == s.crm[row.org := CrmOf(s.crm, row.org)[row.crmLeadId := deal]]
                  && (env.answer.Some? ==> env.answer == Some(deal)))
  {
    RunKeeps(config, states, steps, i);
    var s := states[i];
    PushHearsCompletions(s, w, e);
    CompletedLeadIsStored(config, s, e);
    PushIsDone(config, s, w, env, e);
  }

  lemma PushHearsCompletions(s: Sys, w: nat, e: EventId)
    requires Faces(s, w, CRM_PUSH, e)
    ensures e < |s.db.outbox| && s.db.outbox[e].event.ProfileCompleted?
  {
    assert ConsumersOf(WIRED, s.db.outbox, e)[s.batches[w].next] == CRM_PUSH;
    WhoIsToldOfWhat(s.db.outbox[e].event);
    assert CRM_PUSH[0] == 'l' && COORDINATOR[0] == 'c' && "conversation_ownership.chatwoot_sender"[0] == 'c';
  }

  lemma CompletedLeadIsStored(config: Config, s: Sys, e: EventId)
    requires DataInv(config, s) && config.threshold > 0.0
    requires e < |s.db.outbox| && s.db.outbox[e].event.ProfileCompleted?
    ensures var lead := s.db.outbox[e].event.leadId;
            lead < |s.db.leads| && IsComplete(s.db, lead, config.threshold)
  {
    EventIsCounted(Log(s.db.outbox), e);
  }

  lemma PushIsDone(config: Config, s: Sys, w: nat, env: Env, e: EventId)
    requires UniqueLeads(s.db.leads) && CanHandle(s, w, env) && Faces(s, w, CRM_PUSH, e)
    requires e < |s.db.outbox| && s.db.outbox[e].event.ProfileCompleted?
    requires s.db.outbox[e].event.leadId < |s.db.leads|
    ensures var t, lead := Handled(config, s, w, env), s.db.outbox[e].event.leadId;
            var stored := env.raises.None? && env.answer.Some?;
            && (stored ==> OnlyRefreshes(s.db, t.db, lead, env.answer.value, env.now)
                           && t.db.leads[lead].stage == Qualified && Succeeds(s, t, w, (CRM_PUSH, e)))
            && (!stored ==> t.db == s.db && exists why :: Fails(s, t, w, (CRM_PUSH, e), why))
            && (env.stamp.None? ==> t.crm == s.crm)
            && (env.stamp.Some? ==>
                  && DealAt(s, lead).Some? && env.stamp.value > s.clock
                  && var row, deal := s.db.leads[lead],
                       DealAt(s, lead).value.(stage := "Qualified", updatedAt := env.stamp.value);
                  && t.crm == s.crm[row.org := CrmOf(s.crm, row.org)[row.crmLeadId := deal]]
                  && (env.answer.Some? ==> env.answer == Some(deal)))
  {
    var lead := s.db.outbox[e].event.leadId;
    var push := Push(lead, env.answer, env.now);
    assert TxnOf(s, w, env) == push;
    RunIsRecorded(config, s, w, env, push);
    PushStores(s.db, lead, env.answer, env.now);
    assert Run(config, s.db, push) == HandleCrmPush(s.db, lead, env.answer, env.now);
    PushAnswers(config, s, w, env, push);
    HandledMovesOnlyCrm(config, s, w, env);
  }

  /** The handler of the push: only a vanished lead is dropped; a CRM that does not answer and a stage outside the
      contract raise. */
  lemma PushStores(db: Db, lead: LeadId, answer: Option<Deal>, now: Time)
    requires UniqueLeads(db.leads)
    ensures lead >= |db.leads| ==> HandleCrmPush(db, lead, answer, now) == Ok(db)
    ensures lead < |db.leads| && answer.None? ==> HandleCrmPush(db, lead, answer, now) == Err(HttpFailure)
    ensures lead < |db.leads| && answer.Some? && !StageOk(answer.value) ==>
              HandleCrmPush(db, lead, answer, now) == Err(StageNotInContract)
    ensures lead < |db.leads| && answer.Some? && StageOk(answer.value) ==>
              && HandleCrmPush(db, lead, answer, now).Ok?
              && OnlyRefreshes(db, HandleCrmPush(db, lead, answer, now).value, lead, answer.value, now)
  {
    RefusedFor(db, 0, lead, "system.event_bus", HttpFailure, answer, now);
    PushIsAResync(db, lead, answer, now);
    ResyncMirrors(db, lead, "system.event_bus", answer, now);
  }

  /** What the CRM answers to a push is the deal as it now is, and that is qualified. */
  lemma PushAnswers(config: Config, s: Sys, w: nat, env: Env, push: Txn)
    requires CanHandle(s, w, env) && TxnOf(s, w, env) == push && push.Push? && push.lead < |s.db.leads|
    ensures env.answer.Some? ==>
            env.answer.value.stage == "Qualified" && ParseStage(env.answer.value.stage) == Some(Qualified)
    ensures env.stamp.Some? ==> DealAt(s, push.lead).Some? && env.stamp.value > s.clock
    ensures env.stamp.Some? && env.answer.Some? ==>
              env.answer.value == DealAt(s, push.lead).value.(stage := "Qualified", updatedAt := env.stamp.value)
  {
    assert push.answer == env.answer;
    StageRoundTrip(Qualified);
  }

  lemma HandledMovesOnlyCrm(config: Config, s: Sys, w: nat, env: Env)
    requires CanRun(s, w, env)
    ensures Handled(config, s, w, env).crm == Patched(s, TxnOf(s, w, env), env.stamp).crm
  {
  }

  // ---- The recommendation ----------------------------------------------------------------------

  predicate LinksLead(row: ConversationRow, org: OrgId, lead: LeadId) { row.org == org && row.leadId == Some(lead) }

  /** A fresh lead, or a stale one for which the CRM has a deal with a valid stage. */
  predicate GuardPasses(db: Db, lead: LeadId, bound: Time, answer: Option<Deal>, now: Time) {
    lead < |db.leads| && (now - db.leads[lead].syncedAt <= bound || (answer.Some? && StageOk(answer.value)))
  }

  /** The recommendation is run for completed profiles. When the guard lets it through it answers the one conversation
      of the lead, which moves on from qualification; with none it only keeps what the guard refreshed; with several it
      fails and no table moves. */
  lemma RecommendationIsMade(config: Config, states: seq<Sys>, steps: seq<Step>, i: nat, w: nat, env: Env, e: EventId)
    requires IsRun(config, states, steps) && i < |steps| && config.threshold > 0.0
    requires steps[i] == Handle(w, env) && Faces(states[i], w, RECOMMENDATION, e) && env.raises.None?
    requires var s := states[i];
             e < |s.db.outbox| && s.db.outbox[e].event.ProfileCompleted? ==>
               GuardPasses(s.db, s.db.outbox[e].event.leadId, config.bound, env.answer, env.now)
    ensures e < |states[i].db.outbox| && states[i].db.outbox[e].event.ProfileCompleted?
    ensures var s, t, event := states[i], states[i + 1], states[i].db.outbox[e].event;
            && (forall id: ConvId :: IsTheConversation(s.db.conversations, event.org, event.leadId, id) ==>
                  Recommends(s.db, t.db, id, event.org, env.text) && Succeeds(s, t, w, (RECOMMENDATION, e)))
            && (NoConversation(s.db.conversations, event.org, event.leadId) ==>
                  t.db.conversations == s.db.conversations && Succeeds(s, t, w, (RECOMMENDATION, e)))
            && (SeveralConversations(s.db.conversations, event.org, event.leadId) ==>
                  t.db == s.db && exists why :: Fails(s, t, w, (RECOMMENDATION, e), why))
  {
    RunKeeps(config, states, steps, i);
    var s := states[i];
    RecommendationHearsCompletions(s, w, e);
    CompletedLeadIsStored(config, s, e);
    RecommendationIsDone(config, s, w, env, e);
  }

  predicate IsTheConversation(conversations: seq<ConversationRow>, org: OrgId, lead: LeadId, id: ConvId) {
    && id < |conversations| && LinksLead(conversations[id], org, lead)
    && forall k :: 0 <= k < |conversations| && LinksLead(conversations[k], org, lead) ==> k == id
  }

  predicate NoConversation(conversations: seq<ConversationRow>, org: OrgId, lead: LeadId) {
    forall k :: 0 <= k < |conversations| ==> !LinksLead(conversations[k], org, lead)
  }

  predicate SeveralConversations(conversations: seq<ConversationRow>, org: OrgId, lead: LeadId) {
    exists j, k :: 0 <= j < k < |conversations|
      && LinksLead(conversations[j], org, lead) && LinksLead(conversations[k], org, lead)
  }

  /** The answer is the newest event; the conversation moves from qualification to recommendation and otherwise
      stands. */
  predicate Recommends(db: Db, r: Db, id: ConvId, org: OrgId, text: string) {
    && id < |db.conversations| == |r.conversations| && |r.outbox| > |db.outbox|
    && var row := db.conversations[id];
    && r.conversations
         == db.conversations[id := row.(state := if row.state == Qualification then Recommendation else row.state)]
    && r.outbox[|r.outbox| - 1].event == ResponseReady(org, id, row.chatwootId, text)
    && r.outbox[|r.outbox| - 1].processedAt.None?
  }

  lemma RecommendationHearsCompletions(s: Sys, w: nat, e: EventId)
    requires Faces(s, w, RECOMMENDATION, e)
    ensures e < |s.db.outbox| && s.db.outbox[e].event.ProfileCompleted?
  {
    assert ConsumersOf(WIRED, s.db.outbox, e)[s.batches[w].next] == RECOMMENDATION;
    WhoIsToldOfWhat(s.db.outbox[e].event);
    assert RECOMMENDATION[0] == 'r' && COORDINATOR[0] == 'c' && "conversation_ownership.chatwoot_sender"[0] == 'c';
  }

  lemma RecommendationIsDone(config: Config, s: Sys, w: nat, env: Env, e: EventId)
    requires UniqueLeads(s.db.leads) && CanRun(s, w, env) && Faces(s, w, RECOMMENDATION, e) && env.raises.None?
    requires e < |s.db.outbox| && s.db.outbox[e].event.ProfileCompleted?
    requires var lead := s.db.outbox[e].event.leadId;
             IsComplete(s.db, lead, config.threshold) && GuardPasses(s.db, lead, config.bound, env.answer, env.now)
    ensures var t, event := Handled(config, s, w, env), s.db.outbox[e].event;
            && (forall id: ConvId :: IsTheConversation(s.db.conversations, event.org, event.leadId, id) ==>
                  Recommends(s.db, t.db, id, event.org, env.text) && Succeeds(s, t, w, (RECOMMENDATION, e)))
            && (NoConversation(s.db.conversations, event.org, event.leadId) ==>
                  t.db.conversations == s.db.conversations && Succeeds(s, t, w, (RECOMMENDATION, e)))
            && (SeveralConversations(s.db.conversations, event.org, event.leadId) ==>
                  t.db == s.db && exists why :: Fails(s, t, w, (RECOMMENDATION, e), why))
  {
    var event := s.db.outbox[e].event;
    var txn := Recommend(event.org, event.leadId, env.answer, env.text, env.now);
    assert RECOMMENDATION[0] == 'r' && CRM_PUSH[0] == 'l';
    assert TxnOf(s, w, env) == txn;
    RunIsRecorded(config, s, w, env, txn);
    RecommendationStores(config, s.db, event.org, event.leadId, env.answer, env.text, env.now);
  }

  lemma RecommendationStores(
    config: Config, db: Db, org: OrgId, lead: LeadId, answer: Option<Deal>, text: string, now: Time)
    requires UniqueLeads(db.leads) && IsComplete(db, lead, config.threshold)
    requires GuardPasses(db, lead, config.bound, answer, now)
    ensures var r := Run(config, db, Recommend(org, lead, answer, text, now));
            && (forall id: ConvId :: IsTheConversation(db.conversations, org, lead, id) ==>
                  r.Ok? && Recommends(db, r.value, id, org, text))
            && (NoConversation(db.conversations, org, lead) ==>
                  r.Ok? && r.value.conversations == db.conversations)
            && (SeveralConversations(db.conversations, org, lead) ==> r.Err?)
  {
    LetThrough(config, db, lead, answer, now);
    RecommendationEffect(db, org, lead, config.threshold, config.bound, answer, Always(text), now);
    LinkedConversations(db.conversations, org, lead);
    forall id: ConvId | IsTheConversation(db.conversations, org, lead, id)
      ensures var r := Run(config, db, Recommend(org, lead, answer, text, now));
              r.Ok? && Recommends(db, r.value, id, org, text)
    {
      OneIsServed(config, db, org, lead, answer, text, now, id);
    }
  }

  lemma LetThrough(config: Config, db: Db, lead: LeadId, answer: Option<Deal>, now: Time)
    requires UniqueLeads(db.leads) && GuardPasses(db, lead, config.bound, answer, now)
    ensures var guard := CheckBeforeDecision(db, lead, config.bound, answer, now);
            && guard.Ok? && guard.value.conversations == db.conversations && guard.value.profiles == db.profiles
            && |db.outbox| <= |guard.value.outbox|
  {
    ResyncMirrors(db, lead, "staleness_guard", answer, now);
  }

  lemma OneIsServed(
    config: Config, db: Db, org: OrgId, lead: LeadId, answer: Option<Deal>, text: string, now: Time, id: ConvId)
    requires UniqueLeads(db.leads) && IsComplete(db, lead, config.threshold)
    requires GuardPasses(db, lead, config.bound, answer, now)
    requires ConversationsByLead(db.conversations, org, lead) == {id}
    ensures var r := Run(config, db, Recommend(org, lead, answer, text, now));
            r.Ok? && Recommends(db, r.value, id, org, text)
  {
    LetThrough(config, db, lead, answer, now);
    RecommendationEffect(db, org, lead, config.threshold, config.bound, answer, Always(text), now);
    var guard := CheckBeforeDecision(db, lead, config.bound, answer, now);
    var handled := HandleProfileCompleted(db, org, lead, config.threshold, config.bound, answer, Always(text), now);
    assert DeliversTo(guard.value, handled.value, id, org, lead, text, now);
  }

  lemma LinkedConversations(conversations: seq<ConversationRow>, org: OrgId, lead: LeadId)
    ensures forall id: ConvId :: IsTheConversation(conversations, org, lead, id) ==>
              ConversationsByLead(conversations, org, lead) == {id}
    ensures NoConversation(conversations, org, lead) ==> ConversationsByLead(conversations, org, lead) == {}
    ensures SeveralConversations(conversations, org, lead) ==> |ConversationsByLead(conversations, org, lead)| > 1
  {
    var linked := ConversationsByLead(conversations, org, lead);
    forall id: ConvId | IsTheConversation(conversations, org, lead, id) ensures linked == {id} {
      assert LinksLead(conversations[id], org, lead);
      forall k | k in linked ensures k == id {
        assert LinksLead(conversations[k], org, lead);
      }
    }
    if NoConversation(conversations, org, lead) {
      forall k ensures k !in linked {
        if 0 <= k < |conversations| { assert !LinksLead(conversations[k], org, lead); }
      }
    }
    if SeveralConversations(conversations, org, lead) {
      var j, k :| 0 <= j < k < |conversations|
        && LinksLead(conversations[j], org, lead) && LinksLead(conversations[k], org, lead);
      SubsetSize({j, k}, linked);
    }
  }

  // ---- Requests and jobs -----------------------------------------------------------------------

  /** The conversations a scan with that cutoff is after: those that are not dormant and were last heard of before
      it. */
  ghost function GoneQuiet(conversations: seq<ConversationRow>, cutoff: Time): set<ConvId> {
    set id: ConvId | id < |conversations| && !conversations[id].state.Dormant?
      && conversations[id].lastContactAt < cutoff
  }

  /** In every run a scan puts to sleep exactly the conversations that have gone quiet, whatever else their state is,
      and announces each of them once. */
  lemma ScanPutsToSleep(
    config: Config, states: seq<Sys>, steps: seq<Step>, i: nat, cutoff: Time, ids: seq<ConvId>, now: Time)
    requires IsRun(config, states, steps) && i < |states|
    requires IsStaleList(states[i].db, cutoff, ids)
    ensures Possible(states[i], Transact(Txn.Decay(cutoff, ids, now)))
    ensures var s, t := states[i], Next(config, states[i], Transact(Txn.Decay(cutoff, ids, now)));
            && DecayedRows(s.db, t.db, ids, now)
            && |t.db.outbox| == |s.db.outbox| + |GoneQuiet(s.db.conversations, cutoff)|
            && forall id: ConvId :: id < |s.db.conversations| ==>
                 (t.db.conversations[id].state == Dormant <==>
                   s.db.conversations[id].state == Dormant || id in GoneQuiet(s.db.conversations, cutoff))
  {
    RunKeeps(config, states, steps, i);
    var s := states[i];
    DecayKeepsConversations(s.db, config.threshold, ids, now);
    StaleIsQuiet(s.db, config.threshold, cutoff, ids);
  }

  lemma StaleIsQuiet(db: Db, threshold: real, cutoff: Time, ids: seq<ConvId>)
    requires ConversationsOk(db, threshold) && IsStaleList(db, cutoff, ids)
    ensures forall id: ConvId :: id in ids <==> id in GoneQuiet(db.conversations, cutoff)
    ensures |ids| == |GoneQuiet(db.conversations, cutoff)|
  {
    forall id: ConvId ensures id in ids <==> id in GoneQuiet(db.conversations, cutoff) {
      if id < |db.conversations| {
        assert ConversationOk(db, Log(db.outbox), threshold, id);
        EdgesAgree(db.conversations[id].state, Dormant);
      }
    }
    DistinctSize(ids);
    assert ToSet(ids) == GoneQuiet(db.conversations, cutoff);
  }

  /** In every run an accepted patch is what the lead's profile then says, dimension by dimension. */
  lemma PatchIsStored(
    config: Config, states: seq<Sys>, steps: seq<Step>, i: nat, lead: LeadId, patch: ProfilePatch, now: Time,
    later: Time)
    requires IsRun(config, states, steps) && i < |states|
    requires IsHarmless(patch) && !patch.IsEmpty() && lead < |states[i].db.leads|
    ensures Possible(states[i], Transact(Patch(lead, patch, now)))
    ensures var s, t := states[i], Next(config, states[i], Transact(Patch(lead, patch, now)));
            var before, after := CurrentProfile(s.db, lead, now), CurrentProfile(t.db, lead, later);
            && before.Ok? && after.Ok? && IsPatched(before.value, patch, now, after.value)
            && forall other :: other != lead ==>
                 CurrentProfile(t.db, other, later) == CurrentProfile(s.db, other, later)
  {
    RunKeeps(config, states, steps, i);
    var s := states[i];
    PatchIsRefusedFor(s.db, lead, patch, config.threshold, now);
    PatchIsReadBack(s.db, lead, patch, config.threshold, now, later);
  }

  /** A new organization is known from then on; a late insight is one more event, with the places it came with. */
  lemma SmallRequests(
    config: Config, s: Sys, org: OrgId, lead: LeadId, propertyId: nat, places: seq<string>, now: Time)
    ensures Next(config, s, Transact(SignUp(org))).db == s.db.(orgs := s.db.orgs + {org})
    ensures var t := Next(config, s, Transact(LateInsight(lead, propertyId, places, now)));
            t.db == s.db.(outbox :=
              s.db.outbox + [OutboxRow(NeighborhoodEnriched(lead, propertyId, places), now, None, 0, None)])
  {
  }
}
