/** The invariant over the shared tables - no lost update, an exact ledger, one completion event, an archive in step
    with the outbox, conversations in order - and what each kind of transaction keeps of it. A transaction that leaves
    a table alone keeps what is promised of that table; the others are taken one by one. */
module DataInvariant {
  import opened Prelude
  import opened LeadDomain
  import opened Store
  import opened LeadSync
  import opened CrmMirror
  import opened OverlappingPolls
  import opened ProfileCapture
  import opened Coordinator
  import opened Webhook
  import opened RecommendationHandler
  import opened Lifecycle
  import opened LeadToSales
  import opened LeadTables

  /** No organization has lost an update, and neither watermark nor deal is ahead of the CRM's clock. */
  ghost predicate MirrorOk(db: Db, org: OrgId, crm: Crm, clock: Time) {
    NoLostUpdate(db, org, crm) && MarksOk(db, org, crm, clock)
  }

  ghost predicate MirrorInv(db: Db, crm: map<OrgId, Crm>, clock: Time) {
    UniqueLeads(db.leads) && forall org: OrgId :: MirrorOk(db, org, CrmOf(crm, org), clock)
  }

  ghost predicate LedgerInv(births: seq<PipelineStage>, db: Db) {
    Ledger(births, db.leads, Log(db.outbox))
  }

  /** The event count is exact for every threshold at which it can be. */
  ghost predicate ProfileInv(db: Db, threshold: real) {
    ProfilesOk(db) && (threshold > 0.0 ==> CompletedOnce(db, threshold))
  }

  ghost predicate ArchiveInv(db: Db, acked: set<(OrgId, string, string)>) {
    ArchiveMatchesOutbox(db) && ArchivedTriples(db) == acked
  }

  ghost predicate DataInv(config: Config, s: Sys) {
    && MirrorInv(s.db, s.crm, s.clock)
    && LedgerInv(s.births, s.db)
    && ProfileInv(s.db, config.threshold)
    && ArchiveInv(s.db, s.acked)
    && ConversationsOk(s.db, config.threshold)
  }

  predicate Appends(db: Db, r: Db, events: seq<Event>, now: Time) {
    r.outbox == db.outbox + FreshRows(events, now) && r.inbox == db.inbox
  }

  // ---- What a transaction that leaves a table alone keeps of it --------------------------------

  predicate NoStageEvents(events: seq<Event>) { forall i :: 0 <= i < |events| ==> !events[i].CRMStageSynced? }

  predicate NoCompletions(events: seq<Event>) { forall i :: 0 <= i < |events| ==> !events[i].ProfileCompleted? }

  predicate NoMessages(events: seq<Event>) { forall i :: 0 <= i < |events| ==> !events[i].MessageReceived? }

  lemma LeadsAlone(
      db: Db, r: Db, events: seq<Event>, now: Time, crm: map<OrgId, Crm>, clock: Time, births: seq<PipelineStage>)
    requires MirrorInv(db, crm, clock) && LedgerInv(births, db)
    requires Appends(db, r, events, now) && NoStageEvents(events)
    requires r.leads == db.leads && r.cursors == db.cursors
    ensures MirrorInv(r, crm, clock)
    ensures BirthsAfter(births, r.leads) == births && LedgerInv(births, r)
  {
    assert Log(r.outbox) == Log(db.outbox) + events;
    forall org: OrgId ensures MirrorOk(r, org, CrmOf(crm, org), clock) {
      assert MirrorOk(db, org, CrmOf(crm, org), clock);
    }
    forall id: nat | id < |r.leads| ensures LedgerOf(births[id], Log(r.outbox), id, r.leads[id]) {
      OtherEventsKeepLedger(births[id], Log(db.outbox), events, id, db.leads[id]);
    }
  }

  lemma ProfilesAlone(db: Db, r: Db, events: seq<Event>, now: Time, threshold: real)
    requires ProfileInv(db, threshold)
    requires Appends(db, r, events, now) && NoCompletions(events)
    requires r.profiles == db.profiles && LeadsKeepNames(db.leads, r.leads)
    ensures ProfileInv(r, threshold) && LeadsGrow(db, r, threshold)
  {
    assert Log(r.outbox) == Log(db.outbox) + events;
    forall lead: LeadId ensures TimesCompleted(Log(r.outbox), lead) == TimesCompleted(Log(db.outbox), lead) {
      NoCompletionEvents(Log(db.outbox), events, lead);
    }
    forall lead ensures IsComplete(r, lead, threshold) <==> IsComplete(db, lead, threshold) {
    }
  }

  /** Same conversations by name: rows may have changed otherwise. */
  predicate SameNames(conversations: seq<ConversationRow>, after: seq<ConversationRow>) {
    && |after| == |conversations|
    && forall i :: 0 <= i < |after| ==>
         after[i].org == conversations[i].org && after[i].chatwootId == conversations[i].chatwootId
  }

  lemma ArchiveAlone(db: Db, r: Db, events: seq<Event>, now: Time, acked: set<(OrgId, string, string)>)
    requires ArchiveInv(db, acked)
    requires Appends(db, r, events, now) && NoMessages(events)
    requires r.archive == db.archive && SameNames(db.conversations, r.conversations)
    ensures ArchiveInv(r, acked)
  {
    SameArchiveEvents(db, r);
    SameTriples(db, r);
    assert Log(r.outbox) == Log(db.outbox) + events;
    ProjectConcat(Log(db.outbox), events, MessageSel());
    ProjectNothing(events, MessageSel());
  }

  lemma SameArchiveEvents(db: Db, r: Db)
    requires UniqueConversations(db.conversations) && UniqueArchive(db)
    requires r.archive == db.archive && SameNames(db.conversations, r.conversations)
    ensures UniqueConversations(r.conversations) && UniqueArchive(r)
    ensures ArchiveEvents(r) == ArchiveEvents(db)
  {
  }

  lemma SameTriples(db: Db, r: Db)
    requires UniqueArchive(db) && UniqueArchive(r)
    requires r.archive == db.archive && SameNames(db.conversations, r.conversations)
    ensures ArchivedTriples(r) == ArchivedTriples(db)
  {
    forall i: nat | i < |r.archive| ensures TripleAt(r, i) == TripleAt(db, i) {
    }
    forall t ensures t in ArchivedTriples(r) <==> t in ArchivedTriples(db) {
      if t in ArchivedTriples(r) {
        var i: nat :| i < |r.archive| && TripleAt(r, i) == t;
        assert TripleAt(db, i) == t;
      }
      if t in ArchivedTriples(db) {
        var i: nat :| i < |r.archive| && TripleAt(db, i) == t;
        assert TripleAt(r, i) == t;
      }
    }
  }

  // ---- Transactions on leads -------------------------------------------------------------------

  /** Leads, cursors, audit and stage events, and nothing else. */
  ghost predicate LeadsOnly(db: Db, r: Db, events: seq<Event>, now: Time) {
    && r == db.(leads := r.leads, cursors := r.cursors, audit := r.audit, outbox := r.outbox)
    && Appends(db, r, events, now)
    && LeadsKeepNames(db.leads, r.leads)
    && forall i :: 0 <= i < |events| ==> events[i].CRMStageSynced?
  }

  lemma LeadsOnlyKeepsRest(
      config: Config, db: Db, r: Db, events: seq<Event>, now: Time, acked: set<(OrgId, string, string)>)
    requires LeadsOnly(db, r, events, now)
    requires ProfileInv(db, config.threshold) && ArchiveInv(db, acked) && ConversationsOk(db, config.threshold)
    ensures ProfileInv(r, config.threshold) && ArchiveInv(r, acked) && ConversationsOk(r, config.threshold)
  {
    assert Log(r.outbox) == Log(db.outbox) + events;
    ProfilesAlone(db, r, events, now, config.threshold);
    ArchiveAlone(db, r, events, now, acked);
    QuietKeepsConversations(db, r, config.threshold, events);
  }

  lemma PollEventsAreStageEvents(org: OrgId, start: Progress, snapshots: seq<Snapshot>, now: Time)
    requires PollAll(org, start, snapshots, now).Ok?
    requires forall i :: 0 <= i < |start.events| ==> start.events[i].CRMStageSynced?
    ensures var p := PollAll(org, start, snapshots, now).value;
            forall i :: 0 <= i < |p.events| ==> p.events[i].CRMStageSynced?
    decreases |snapshots|
  {
  }

  /** A committed poll, from a watermark read now or before and a listing of then: leads only, no update lost for any
      organization, ledger exact. */
  lemma PollKeepsMirror(
    db: Db, org: OrgId, since: Time, snapshots: seq<Snapshot>, now: Time, crm: map<OrgId, Crm>, asOf: Time, clock: Time,
    births: seq<PipelineStage>)
    returns (r: Db, events: seq<Event>)
    requires MirrorInv(db, crm, clock) && LedgerInv(births, db)
    requires WasWatermark(db, org, since) && IsDatedListing(CrmOf(crm, org), since, asOf, snapshots) && asOf <= clock
    requires NoneOutdated(snapshots, CrmOf(crm, org), Watermark(db, org))
    ensures ResumedPoll(db, org, since, snapshots, now) == Ok(r)
    ensures LeadsOnly(db, r, events, now)
    ensures MirrorInv(r, crm, clock)
    ensures forall other: OrgId :: Watermark(r, other) >= Watermark(db, other)
    ensures LedgerInv(BirthsAfter(births, r.leads), r)
  {
    assert MirrorOk(db, org, CrmOf(crm, org), clock);
    PollOutcome(db, org, since, snapshots, now);
    var p := PollAll(org, PollStart(db, org, since), snapshots, now).value;
    r, events := ResumedPoll(db, org, since, snapshots, now).value, p.events;
    PollEventsAreStageEvents(org, PollStart(db, org, since), snapshots, now);
    PollKeepsLedger(births, org, PollStart(db, org, since), snapshots, now, Log(db.outbox));
    MarkIsDated(since, snapshots, p, asOf);
    OverlappingPoll(db, org, since, CrmOf(crm, org), asOf, snapshots, now);
    forall other: OrgId
      ensures MirrorOk(r, other, CrmOf(crm, other), clock) && Watermark(r, other) >= Watermark(db, other)
    {
      assert MirrorOk(db, other, CrmOf(crm, other), clock);
      if other != org {
        OverlappingPollElsewhere(db, org, since, snapshots, now, other, CrmOf(crm, other));
      }
    }
  }

  /** A refresh of one lead from an answer that agrees with what the watermark has passed. */
  lemma ResyncKeepsMirror(
    db: Db, id: LeadId, actor: string, answer: Option<Deal>, now: Time, crm: map<OrgId, Crm>, clock: Time,
    births: seq<PipelineStage>)
    returns (r: Db, events: seq<Event>)
    requires MirrorInv(db, crm, clock) && LedgerInv(births, db)
    requires AgreesWhereSeen(db, crm, id, answer)
    requires ForceResync(db, id, actor, answer, now).Ok?
    ensures ForceResync(db, id, actor, answer, now) == Ok(r)
    ensures LeadsOnly(db, r, events, now) && r.cursors == db.cursors && |r.leads| == |db.leads|
    ensures MirrorInv(r, crm, clock)
    ensures LedgerInv(births, r)
  {
    ResyncMirrors(db, id, actor, answer, now);
    r := ForceResync(db, id, actor, answer, now).value;
    events := StageEvents(id, db.leads[id].stage, r.leads[id]);
    ResyncOutbox(db, id, actor, answer, now);
    ResyncLedger(db, r, id, births);
    RefreshedRow(db, id, actor, answer.value, now);
    forall org: OrgId ensures MirrorOk(r, org, CrmOf(crm, org), clock) {
      assert MirrorOk(db, org, CrmOf(crm, org), clock);
      RewrittenRow(db, r, id, answer.value, now, org, CrmOf(crm, org));
    }
  }

  lemma ResyncOutbox(db: Db, id: LeadId, actor: string, answer: Option<Deal>, now: Time)
    requires UniqueLeads(db.leads)
    requires ForceResync(db, id, actor, answer, now).Ok?
    ensures var r := ForceResync(db, id, actor, answer, now).value;
            id < |db.leads| == |r.leads|
              && r.outbox == db.outbox + FreshRows(StageEvents(id, db.leads[id].stage, r.leads[id]), now)
  {
    ResyncMirrors(db, id, actor, answer, now);
    var r := ForceResync(db, id, actor, answer, now).value;
    var lead := db.leads[id];
    var u := Upsert(Audited(db, lead.org, actor, "force_resync", Some(lead.crmLeadId)), lead.org,
      Snapshot(lead.crmLeadId, answer.value), now).value;
    var events := StageEvents(id, lead.stage, r.leads[id]);
    assert Log(r.outbox) == Log(db.outbox) + u.events == Log(db.outbox) + events;
    assert u.events == events by {
      assert (Log(db.outbox) + u.events)[|db.outbox|..] == u.events;
      assert (Log(db.outbox) + events)[|db.outbox|..] == events;
    }
  }

  lemma ResyncLedger(db: Db, r: Db, id: LeadId, births: seq<PipelineStage>)
    requires LedgerInv(births, db)
    requires id < |db.leads| == |r.leads|
    requires forall i :: 0 <= i < |db.leads| && i != id ==> r.leads[i] == db.leads[i]
    requires Log(r.outbox) == Log(db.outbox) + StageEvents(id, db.leads[id].stage, r.leads[id])
    ensures LedgerInv(births, r)
  {
    var events := StageEvents(id, db.leads[id].stage, r.leads[id]);
    forall i: nat | i < |r.leads| ensures LedgerOf(births[i], Log(r.outbox), i, r.leads[i]) {
      if i == id {
        StageEventsKeepLedger(births[i], Log(db.outbox), i, db.leads[i], r.leads[i]);
      } else {
        OtherEventsKeepLedger(births[i], Log(db.outbox), events, i, db.leads[i]);
      }
    }
  }

  // ---- Transactions on conversations -----------------------------------------------------------

  /** Conversations, decisions and their events, and nothing else. */
  ghost predicate ConversationsOnly(db: Db, r: Db, events: seq<Event>, now: Time) {
    && r == db.(conversations := r.conversations, decisions := r.decisions, outbox := r.outbox)
    && Appends(db, r, events, now)
    && SameNames(db.conversations, r.conversations)
    && ConversationsGoOn(db.conversations, r.conversations)
    && NoStageEvents(events) && NoCompletions(events) && NoMessages(events)
  }

  lemma ConversationsOnlyKeepsRest(
    config: Config, db: Db, r: Db, events: seq<Event>, now: Time,
    crm: map<OrgId, Crm>, clock: Time, births: seq<PipelineStage>, acked: set<(OrgId, string, string)>)
    requires ConversationsOnly(db, r, events, now)
    requires MirrorInv(db, crm, clock) && LedgerInv(births, db) && ProfileInv(db, config.threshold)
             && ArchiveInv(db, acked)
    ensures MirrorInv(r, crm, clock) && ProfileInv(r, config.threshold) && ArchiveInv(r, acked)
    ensures BirthsAfter(births, r.leads) == births && LedgerInv(births, r)
  {
    LeadsAlone(db, r, events, now, crm, clock, births);
    ProfilesAlone(db, r, events, now, config.threshold);
    ArchiveAlone(db, r, events, now, acked);
  }

  lemma TurnIsOnlyConversations(db: Db, id: ConvId, input: TurnInput, now: Time) returns (events: seq<Event>)
    requires id < |db.conversations| ==> OwnerMatchesState(db.conversations[id])
    requires HandleMessage(db, id, input, now).Ok?
    ensures ConversationsOnly(db, HandleMessage(db, id, input, now).value, events, now)
  {
    if id < |db.conversations| {
      TurnOutcome(db, id, input, now);
      var r := HandleMessage(db, id, input, now).value;
      events := TurnEvents(db, r, id, input, now);
    } else {
      events := [];
      assert db.outbox + FreshRows([], now) == db.outbox;
    }
  }

  lemma TurnEvents(db: Db, r: Db, id: ConvId, input: TurnInput, now: Time) returns (events: seq<Event>)
    requires TurnDid(db, r, id, input, now)
    ensures ConversationsOnly(db, r, events, now)
  {
    var before, after := db.conversations[id], r.conversations[id];
    if input.bypass.Some? || before.state == New {
      var reply := if input.bypass.Some? then None else input.reply;
      var d, t :| DecidesWith(db, r, id, before, after, d, t, reply, now);
      events := DecisionEvents(before, id, t, reply);
    } else {
      events := [ResponseReady(before.org, id, before.chatwootId, input.reply.value)];
    }
  }

  lemma DecayIsOnlyConversations(db: Db, r: Db, ids: seq<ConvId>, now: Time) returns (events: seq<Event>)
    requires DecayedRows(db, r, ids, now)
    ensures ConversationsOnly(db, r, events, now)
  {
    events := DecayedEvents(db, r, ids, now);
  }

  lemma DeliveryIsOnlyConversations(db: Db, r: Db, id: ConvId, org: OrgId, lead: LeadId, text: string, now: Time)
    requires DeliversTo(db, r, id, org, lead, text, now)
    ensures ConversationsOnly(db, r, [ResponseReady(org, id, db.conversations[id].chatwootId, text)], now)
  {
  }
}
