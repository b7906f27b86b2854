/** Every transaction of the composed system keeps the invariant of the tables, whatever the outside world answers as
    long as it does no harm: one lemma per transaction, each saying which events it appends, and `TxnKeeps` for all of
    them together. */
module SystemInvariant {
  import opened Prelude
  import opened LeadDomain
  import opened Store
  import opened LeadSync
  import opened CrmMirror
  import opened OverlappingPolls
  import opened ProfileCapture
  import opened Coordinator
  import opened Webhook
  import opened RecommendationHandler
  import opened Lifecycle
  import opened EventBus
  import opened BusRuns
  import opened LeadToSales
  import opened LeadTables
  import opened DataInvariant

  function TxnTime(txn: Txn): Time {
    match txn
    case Nothing => 0
    case SignUp(_) => 0
    case _ => txn.now
  }

  /** What every transaction keeps and how it moves the store: events are appended, no watermark falls, no complete
      profile is lost, no conversation is renamed, relinked or woken, births and acknowledgements are never revised. */
  ghost predicate Advances(config: Config, s: Sys, t: Sys, events: seq<Event>, now: Time) {
    && Appends(s.db, t.db, events, now)
    && (forall org: OrgId :: Watermark(t.db, org) >= Watermark(s.db, org))
    && LeadsGrow(s.db, t.db, config.threshold)
    && ConversationsGoOn(s.db.conversations, t.db.conversations)
    && s.births <= t.births
    && s.acked <= t.acked
  }

  ghost predicate Keeps(config: Config, s: Sys, t: Sys, events: seq<Event>, now: Time) {
    && DataInv(config, t)
    && Advances(config, s, t, events, now)
  }

  lemma StandingStill(config: Config, s: Sys, now: Time)
    requires DataInv(config, s)
    ensures BirthsAfter(s.births, s.db.leads) == s.births
    ensures Keeps(config, s, s, [], now)
  {
    assert s.db.outbox + FreshRows([], now) == s.db.outbox;
  }

  // ---- One transaction -------------------------------------------------------------------------

  lemma SignUpKeeps(config: Config, s: Sys, org: OrgId)
    requires DataInv(config, s)
    ensures Keeps(config, s, Transacted(config, s, SignUp(org)), [], 0)
  {
    var r := s.db.(orgs := s.db.orgs + {org});
    assert s.db.outbox + FreshRows([], 0) == s.db.outbox;
    assert Log(r.outbox) == Log(s.db.outbox) + [];
    LeadsAlone(s.db, r, [], 0, s.crm, s.clock, s.births);
    ProfilesAlone(s.db, r, [], 0, config.threshold);
    ArchiveAlone(s.db, r, [], 0, s.acked);
    QuietKeepsConversations(s.db, r, config.threshold, []);
    assert Transacted(config, s, SignUp(org)) == s.(db := r);
  }

  lemma LateInsightKeeps(config: Config, s: Sys, lead: LeadId, propertyId: nat, places: seq<string>, now: Time)
    requires DataInv(config, s)
    ensures Keeps(config, s, Transacted(config, s, LateInsight(lead, propertyId, places, now)),
                  [NeighborhoodEnriched(lead, propertyId, places)], now)
  {
    var events := [NeighborhoodEnriched(lead, propertyId, places)];
    var r := Published(s.db, events, now);
    LeadsAlone(s.db, r, events, now, s.crm, s.clock, s.births);
    ProfilesAlone(s.db, r, events, now, config.threshold);
    ArchiveAlone(s.db, r, events, now, s.acked);
    QuietKeepsConversations(s.db, r, config.threshold, events);
    assert Transacted(config, s, LateInsight(lead, propertyId, places, now)) == s.(db := r);
  }

  /** A transaction on leads only, with its mirror and ledger already seen to. */
  lemma LeadsOnlyKeeps(config: Config, s: Sys, r: Db, births: seq<PipelineStage>, events: seq<Event>, now: Time)
    requires DataInv(config, s)
    requires LeadsOnly(s.db, r, events, now)
    requires MirrorInv(r, s.crm, s.clock) && LedgerInv(births, r) && s.births <= births
    requires forall org: OrgId :: Watermark(r, org) >= Watermark(s.db, org)
    ensures Keeps(config, s, s.(db := r, births := births), events, now)
  {
    LeadsOnlyKeepsRest(config, s.db, r, events, now, s.acked);
    ProfilesAlone(s.db, r, events, now, config.threshold);
  }

  lemma PollKeeps(
    config: Config, s: Sys, org: OrgId, since: Time, listing: Result<seq<Snapshot>, Error>, now: Time)
    returns (events: seq<Event>)
    requires DataInv(config, s) && Harmless(config, s.db, s.crm, s.clock, ResumePoll(org, since, listing, now))
    ensures Keeps(config, s, Transacted(config, s, ResumePoll(org, since, listing, now)), events, now)
  {
    var txn := ResumePoll(org, since, listing, now);
    if listing.Ok? {
      var r;
      r, events := PollCommits(config, s, org, since, listing.value, now);
      assert Transacted(config, s, txn) == s.(db := r, births := BirthsAfter(s.births, r.leads));
    } else {
      StandingStill(config, s, now);
      events := [];
      assert Transacted(config, s, txn) == s;
    }
  }

  lemma PollCommits(config: Config, s: Sys, org: OrgId, since: Time, snapshots: seq<Snapshot>, now: Time)
    returns (r: Db, events: seq<Event>)
    requires DataInv(config, s)
    requires HarmlessListing(s.db, org, since, CrmOf(s.crm, org), s.clock, snapshots)
    ensures ResumedPoll(s.db, org, since, snapshots, now) == Ok(r)
    ensures Keeps(config, s, s.(db := r, births := BirthsAfter(s.births, r.leads)), events, now)
  {
    var asOf :| asOf <= s.clock && IsDatedListing(CrmOf(s.crm, org), since, asOf, snapshots);
    r, events := PollKeepsMirror(s.db, org, since, snapshots, now, s.crm, asOf, s.clock, s.births);
    LeadsOnlyKeeps(config, s, r, BirthsAfter(s.births, r.leads), events, now);
  }

  /** A refresh of a lead that commits. */
  lemma RefreshKeeps(config: Config, s: Sys, lead: LeadId, actor: string, answer: Option<Deal>, now: Time)
      returns (r: Db, events: seq<Event>)
    requires DataInv(config, s) && AgreesWhereSeen(s.db, s.crm, lead, answer)
    requires ForceResync(s.db, lead, actor, answer, now).Ok?
    ensures ForceResync(s.db, lead, actor, answer, now) == Ok(r)
    ensures BirthsAfter(s.births, r.leads) == s.births
    ensures Keeps(config, s, s.(db := r), events, now)
    ensures r.conversations == s.db.conversations && |r.leads| == |s.db.leads|
  {
    r, events := ResyncKeepsMirror(s.db, lead, actor, answer, now, s.crm, s.clock, s.births);
    LeadsOnlyKeeps(config, s, r, s.births, events, now);
  }

  lemma ResyncKeeps(config: Config, s: Sys, lead: LeadId, answer: Option<Deal>, now: Time) returns (events: seq<Event>)
    requires DataInv(config, s) && Harmless(config, s.db, s.crm, s.clock, Resync(lead, answer, now))
    ensures Keeps(config, s, Transacted(config, s, Resync(lead, answer, now)), events, now)
  {
    StandingStill(config, s, now);
    if Run(config, s.db, Resync(lead, answer, now)).Ok? {
      ResyncMirrors(s.db, lead, "staleness_guard", answer, now);
      var r;
      r, events := RefreshKeeps(config, s, lead, "staleness_guard", answer, now);
      assert Transacted(config, s, Resync(lead, answer, now)) == s.(db := r);
    } else {
      events := [];
      assert Transacted(config, s, Resync(lead, answer, now)) == s;
    }
  }

  lemma PushKeeps(config: Config, s: Sys, lead: LeadId, answer: Option<Deal>, now: Time) returns (events: seq<Event>)
    requires DataInv(config, s) && Harmless(config, s.db, s.crm, s.clock, Push(lead, answer, now))
    ensures Keeps(config, s, Transacted(config, s, Push(lead, answer, now)), events, now)
  {
    if PushStage(s.db, lead, "system.event_bus", answer, now).Ok? {
      PushStores(config, s.db, lead, answer, now);
      var r;
      r, events := PushCommits(config, s, lead, answer, now);
      assert Transacted(config, s, Push(lead, answer, now)) == s.(db := r);
    } else {
      events := [];
      StandingStill(config, s, now);
      assert Transacted(config, s, Push(lead, answer, now)) == s;
    }
  }

  lemma PushStores(config: Config, db: Db, lead: LeadId, answer: Option<Deal>, now: Time)
    requires UniqueLeads(db.leads) && PushStage(db, lead, "system.event_bus", answer, now).Ok?
    ensures StoresRefresh(db, config.threshold, Push(lead, answer, now))
  {
    PushIsAResync(db, lead, answer, now);
    ResyncMirrors(db, lead, "system.event_bus", answer, now);
  }

  lemma PushCommits(config: Config, s: Sys, lead: LeadId, answer: Option<Deal>, now: Time)
      returns (r: Db, events: seq<Event>)
    requires DataInv(config, s) && AgreesWhereSeen(s.db, s.crm, lead, answer)
    requires PushStage(s.db, lead, "system.event_bus", answer, now).Ok?
    ensures PushStage(s.db, lead, "system.event_bus", answer, now) == Ok(r)
    ensures BirthsAfter(s.births, r.leads) == s.births
    ensures Keeps(config, s, s.(db := r), events, now)
  {
    PushIsAResync(s.db, lead, answer, now);
    var resynced;
    resynced, events := RefreshKeeps(config, s, lead, "system.event_bus", answer, now);
    r := PushStage(s.db, lead, "system.event_bus", answer, now).value;
    OtherAudit(config, s, resynced, r, events, now);
  }

  /** The invariant does not look at the audit trail. */
  lemma OtherAudit(config: Config, s: Sys, r: Db, r': Db, events: seq<Event>, now: Time)
    requires Keeps(config, s, s.(db := r), events, now)
    requires r' == r.(audit := r'.audit)
    ensures Keeps(config, s, s.(db := r'), events, now)
  {
    assert Log(r.outbox) == Log(r.outbox) + [];
    assert r.outbox + FreshRows([], now) == r.outbox;
    LeadsAlone(r, r', [], now, s.crm, s.clock, s.births);
    ProfilesAlone(r, r', [], now, config.threshold);
    ArchiveAlone(r, r', [], now, s.acked);
    QuietKeepsConversations(r, r', config.threshold, []);
  }

  lemma ConversationsOnlyKeeps(config: Config, s: Sys, r: Db, events: seq<Event>, now: Time)
    requires DataInv(config, s)
    requires ConversationsOnly(s.db, r, events, now)
    requires ConversationsOk(r, config.threshold)
    ensures BirthsAfter(s.births, r.leads) == s.births
    ensures Keeps(config, s, s.(db := r), events, now)
  {
    ConversationsOnlyKeepsRest(config, s.db, r, events, now, s.crm, s.clock, s.births, s.acked);
    ProfilesAlone(s.db, r, events, now, config.threshold);
  }

  lemma TurnKeeps(config: Config, s: Sys, id: ConvId, input: TurnInput, now: Time) returns (events: seq<Event>)
    requires DataInv(config, s)
    ensures Keeps(config, s, Transacted(config, s, Turn(id, input, now)), events, now)
  {
    if HandleMessage(s.db, id, input, now).Ok? {
      var r := HandleMessage(s.db, id, input, now).value;
      events := TurnCommits(config, s, id, input, now);
      assert Transacted(config, s, Turn(id, input, now)) == s.(db := r);
    } else {
      StandingStill(config, s, now);
      events := [];
      assert Transacted(config, s, Turn(id, input, now)) == s;
    }
  }

  lemma TurnCommits(config: Config, s: Sys, id: ConvId, input: TurnInput, now: Time) returns (events: seq<Event>)
    requires DataInv(config, s)
    requires HandleMessage(s.db, id, input, now).Ok?
    ensures BirthsAfter(s.births, HandleMessage(s.db, id, input, now).value.leads) == s.births
    ensures Keeps(config, s, s.(db := HandleMessage(s.db, id, input, now).value), events, now)
  {
    var r := HandleMessage(s.db, id, input, now).value;
    OwnersMatch(s.db, config.threshold, id);
    events := TurnIsOnlyConversations(s.db, id, input, now);
    TurnKeepsConversations(s.db, config.threshold, id, input, now);
    ConversationsOnlyKeeps(config, s, r, events, now);
  }

  lemma OwnersMatch(db: Db, threshold: real, id: ConvId)
    requires ConversationsOk(db, threshold)
    ensures id < |db.conversations| ==> OwnerMatchesState(db.conversations[id])
  {
    if id < |db.conversations| {
      assert ConversationOk(db, Log(db.outbox), threshold, id);
    }
  }

  lemma DecayKeeps(config: Config, s: Sys, cutoff: Time, ids: seq<ConvId>, now: Time) returns (events: seq<Event>)
    requires DataInv(config, s) && IsStaleList(s.db, cutoff, ids)
    ensures Keeps(config, s, Transacted(config, s, Decay(cutoff, ids, now)), events, now)
    ensures DecayAll(s.db, s.db.conversations, ids, now).Ok?
  {
    var r;
    r, events := DecayCommits(config, s, cutoff, ids, now);
    assert Transacted(config, s, Decay(cutoff, ids, now)) == s.(db := r);
  }

  lemma DecayCommits(config: Config, s: Sys, cutoff: Time, ids: seq<ConvId>, now: Time)
    returns (r: Db, events: seq<Event>)
    requires DataInv(config, s) && IsStaleList(s.db, cutoff, ids)
    ensures DecayAll(s.db, s.db.conversations, ids, now) == Ok(r)
    ensures BirthsAfter(s.births, r.leads) == s.births
    ensures Keeps(config, s, s.(db := r), events, now)
  {
    DecayKeepsConversations(s.db, config.threshold, ids, now);
    r := DecayAll(s.db, s.db.conversations, ids, now).value;
    events := DecayIsOnlyConversations(s.db, r, ids, now);
    ConversationsOnlyKeeps(config, s, r, events, now);
  }

  /** A transaction on profiles only, with its event count already seen to. */
  lemma ProfilesOnlyKeeps(config: Config, s: Sys, r: Db, events: seq<Event>, now: Time)
    requires DataInv(config, s)
    requires r == s.db.(profiles := r.profiles, outbox := r.outbox)
    requires Appends(s.db, r, events, now) && forall i :: 0 <= i < |events| ==> events[i].ProfileCompleted?
    requires ProfileInv(r, config.threshold) && LeadsGrow(s.db, r, config.threshold)
    ensures BirthsAfter(s.births, r.leads) == s.births
    ensures Keeps(config, s, s.(db := r), events, now)
  {
    assert Log(r.outbox) == Log(s.db.outbox) + events;
    LeadsAlone(s.db, r, events, now, s.crm, s.clock, s.births);
    ArchiveAlone(s.db, r, events, now, s.acked);
    QuietKeepsConversations(s.db, r, config.threshold, events);
  }

  lemma PatchKeeps(config: Config, s: Sys, lead: LeadId, patch: ProfilePatch, now: Time) returns (events: seq<Event>)
    requires DataInv(config, s)
    ensures Keeps(config, s, Transacted(config, s, Patch(lead, patch, now)), events, now)
  {
    if UpdateProfile(s.db, lead, patch, config.threshold, now).Ok? {
      var r := UpdateProfile(s.db, lead, patch, config.threshold, now).value.db;
      PatchEffect(s.db, r, lead, patch, config.threshold, now);
      var before := CurrentProfile(s.db, lead, now).value;
      events := CompletionEvents(s.db.leads[lead], lead, before, before.Apply(patch, now), config.threshold);
      PatchOutbox(s.db, lead, patch, config.threshold, now);
      PatchKeepsComplete(s.db, r, lead, patch, config.threshold, now);
      ProfilesOnlyKeeps(config, s, r, events, now);
      assert Transacted(config, s, Patch(lead, patch, now)) == s.(db := r);
    } else {
      StandingStill(config, s, now);
      events := [];
      assert Transacted(config, s, Patch(lead, patch, now)) == s;
    }
  }

  lemma PatchEffect(db: Db, r: Db, lead: LeadId, patch: ProfilePatch, threshold: real, now: Time)
    requires ProfileInv(db, threshold)
    requires UpdateProfile(db, lead, patch, threshold, now).Ok?
    requires r == UpdateProfile(db, lead, patch, threshold, now).value.db
    ensures lead < |db.leads| && CurrentProfile(db, lead, now).Ok?
    ensures r == db.(profiles := r.profiles, outbox := r.outbox)
    ensures ProfileInv(r, threshold)
  {
    UpdateEffect(db, lead, patch, threshold, now);
    if threshold > 0.0 {
      UpdateKeepsCompletedOnce(db, lead, patch, threshold, now);
    }
  }

  lemma PatchOutbox(db: Db, lead: LeadId, patch: ProfilePatch, threshold: real, now: Time)
    requires ProfilesOk(db)
    requires UpdateProfile(db, lead, patch, threshold, now).Ok?
    ensures var r := UpdateProfile(db, lead, patch, threshold, now).value.db;
            var before := CurrentProfile(db, lead, now).value;
            Appends(db, r, CompletionEvents(db.leads[lead], lead, before, before.Apply(patch, now), threshold), now)
  {
  }

  lemma PatchKeepsComplete(db: Db, r: Db, lead: LeadId, patch: ProfilePatch, threshold: real, now: Time)
    requires ProfilesOk(db)
    requires UpdateProfile(db, lead, patch, threshold, now).Ok?
    requires r == UpdateProfile(db, lead, patch, threshold, now).value.db
    ensures LeadsGrow(db, r, threshold)
  {
    UpdateEffect(db, lead, patch, threshold, now);
    forall other | IsComplete(db, other, threshold) ensures IsComplete(r, other, threshold) {
    }
  }

  lemma DeliverKeeps(config: Config, s: Sys, org: OrgId, p: Payload, now: Time) returns (events: seq<Event>)
    requires DataInv(config, s)
    ensures Keeps(config, s, Transacted(config, s, Deliver(org, p, now)), events, now)
  {
    var r := Receive(s.db, org, p, now);
    if r.Ok? && r.value.ack == Accepted {
      events := AcceptedKeeps(config, s, org, p, now);
      assert Transacted(config, s, Deliver(org, p, now))
          == s.(db := r.value.db, acked := s.acked + {(org, p.conversationId, p.messageId)});
    } else {
      events := [];
      StandingStill(config, s, now);
      UnacceptedStandsStill(config, s, org, p, now);
    }
  }

  /** A delivery that is ignored, repeated or refused leaves the system exactly as it was. */
  lemma UnacceptedStandsStill(config: Config, s: Sys, org: OrgId, p: Payload, now: Time)
    requires ArchiveInv(s.db, s.acked) && BirthsAfter(s.births, s.db.leads) == s.births
    requires var r := Receive(s.db, org, p, now); !(r.Ok? && r.value.ack == Accepted)
    ensures Transacted(config, s, Deliver(org, p, now)) == s
  {
    DeliveryEffect(s.db, org, p, now);
    var r := Receive(s.db, org, p, now);
    if r.Ok? && r.value.ack == Duplicate {
      assert s.acked + {(org, p.conversationId, p.messageId)} == s.acked;
    }
  }

  lemma AcceptedKeeps(config: Config, s: Sys, org: OrgId, p: Payload, now: Time) returns (events: seq<Event>)
    requires DataInv(config, s)
    requires Receive(s.db, org, p, now).Ok? && Receive(s.db, org, p, now).value.ack == Accepted
    ensures var r := Receive(s.db, org, p, now).value.db;
            && BirthsAfter(s.births, r.leads) == s.births
            && Keeps(config, s, s.(db := r, acked := s.acked + {(org, p.conversationId, p.messageId)}), events, now)
  {
    var r := Receive(s.db, org, p, now).value.db;
    var id := AcceptedDelivery(s.db, org, p, now);
    events := MessageKeeps(config, s, r, org, p, now, id);
  }

  lemma MessageGoesOn(db: Db, r: Db, org: OrgId, p: Payload, now: Time, id: ConvId)
    requires AddsMessage(db, r, org, p, now, id)
    ensures ConversationsGoOn(db.conversations, r.conversations)
  {
    MessageTables(db, r, org, p, now, id);
  }

  lemma MessageKeeps(config: Config, s: Sys, r: Db, org: OrgId, p: Payload, now: Time, id: ConvId)
      returns (events: seq<Event>)
    requires DataInv(config, s)
    requires AddsMessage(s.db, r, org, p, now, id)
    requires ArchivedCopies(s.db.archive, id, p.messageId) == {}
    requires id == |s.db.conversations| ==> ConversationsByChatwootId(s.db.conversations, org, p.conversationId) == {}
    ensures BirthsAfter(s.births, r.leads) == s.births
    ensures Keeps(config, s, s.(db := r, acked := s.acked + {(org, p.conversationId, p.messageId)}), events, now)
  {
    events := [ToEvent(Archived(org, id, p, now), p.conversationId)];
    AcceptedKeepsArchive(s.db, r, org, p, now, id);
    MessageGoesOn(s.db, r, org, p, now, id);
    WebhookKeepsConversations(s.db, r, config.threshold, org, p, now, id);
    LeadsAlone(s.db, r, events, now, s.crm, s.clock, s.births);
    ProfilesAlone(s.db, r, events, now, config.threshold);
  }

  /** The recommendation handler after its guard: perhaps a refresh, then perhaps a delivery. */
  lemma RecommendKeeps(
    config: Config, s: Sys, org: OrgId, lead: LeadId, verdict: Verdict, answer: Option<Deal>, text: string, now: Time)
    returns (events: seq<Event>)
    requires DataInv(config, s)
    requires Harmless(config, s.db, s.crm, s.clock, ResumeRecommend(org, lead, verdict, answer, text, now))
    ensures Keeps(config, s, Transacted(config, s, ResumeRecommend(org, lead, verdict, answer, text, now)), events, now)
  {
    var txn := ResumeRecommend(org, lead, verdict, answer, text, now);
    if Run(config, s.db, txn).Ok? && Run(config, s.db, txn).value != s.db {
      var r;
      r, events := RecommendCommits(config, s, org, lead, verdict, answer, text, now);
      assert Transacted(config, s, txn) == s.(db := r);
    } else {
      StandingStill(config, s, now);
      events := [];
      assert Transacted(config, s, txn) == s;
    }
  }

  lemma RecommendCommits(
    config: Config, s: Sys, org: OrgId, lead: LeadId, verdict: Verdict, answer: Option<Deal>, text: string, now: Time)
    returns (r: Db, events: seq<Event>)
    requires DataInv(config, s)
    requires var txn := ResumeRecommend(org, lead, verdict, answer, text, now);
             && Harmless(config, s.db, s.crm, s.clock, txn)
             && Run(config, s.db, txn).Ok? && Run(config, s.db, txn).value != s.db
    ensures Run(config, s.db, ResumeRecommend(org, lead, verdict, answer, text, now)) == Ok(r)
    ensures BirthsAfter(s.births, r.leads) == s.births
    ensures Keeps(config, s, s.(db := r), events, now)
  {
    r := Run(config, s.db, ResumeRecommend(org, lead, verdict, answer, text, now)).value;
    var guard := Guarded(s.db, lead, verdict, answer, now);
    AfterGuardEffect(s.db, org, lead, guard, config.threshold, Always(text), now);
    RecommendStores(config, s.db, org, lead, verdict, answer, text, now);
    StandingStill(config, s, now);
    var first := GuardKeeps(config, s, lead, verdict, answer, now);
    events := first;
    if r != guard.value {
      var id, said := WhereDelivered(config, s.db, org, lead, guard, text, now);
      events := DeliveryKeeps(config, s, s.(db := guard.value), first, r, id, org, lead, said, now);
    }
  }

  lemma WhereDelivered(
    config: Config, db: Db, org: OrgId, lead: LeadId, guard: Result<Db, Error>, text: string, now: Time)
    returns (id: ConvId, said: string)
    requires guard.Ok?
    requires var handled := HandleAfterGuard(db, org, lead, guard, config.threshold, Always(text), now);
             handled.Ok? && handled.value != db && handled.value != guard.value
    ensures DeliversTo(guard.value, HandleAfterGuard(db, org, lead, guard, config.threshold, Always(text), now).value,
                       id, org, lead, said, now)
  {
    AfterGuardEffect(db, org, lead, guard, config.threshold, Always(text), now);
    var linked := ConversationsByLead(guard.value.conversations, org, lead);
    OneOrNoneFinds(linked);
    id :| linked == {id};
    said := Always(text)(FromRow(guard.value.profiles[lead]).value);
  }

  /** A recommendation that commits over a refresh stores that refresh. */
  lemma RecommendStores(
    config: Config, db: Db, org: OrgId, lead: LeadId, verdict: Verdict, answer: Option<Deal>, text: string, now: Time)
    requires UniqueLeads(db.leads)
    requires var r := Run(config, db, ResumeRecommend(org, lead, verdict, answer, text, now)); r.Ok? && r.value != db
    requires Guarded(db, lead, verdict, answer, now).Ok?
    ensures Guarded(db, lead, verdict, answer, now).value != db ==>
              StoresRefresh(db, config.threshold, ResumeRecommend(org, lead, verdict, answer, text, now))
  {
    GuardRefreshes(db, lead, verdict, answer, now);
    AfterGuardEffect(db, org, lead, Guarded(db, lead, verdict, answer, now), config.threshold, Always(text), now);
  }

  /** A guard that changes anything found the lead stale and its answer valid, and leaves profiles and conversations
      alone. */
  lemma GuardRefreshes(db: Db, lead: LeadId, verdict: Verdict, answer: Option<Deal>, now: Time)
    requires UniqueLeads(db.leads)
    requires Guarded(db, lead, verdict, answer, now).Ok?
    ensures var r := Guarded(db, lead, verdict, answer, now).value;
            && r.conversations == db.conversations && r.profiles == db.profiles
            && (r != db ==> verdict.Stale? && lead < |db.leads| && answer.Some? && StageOk(answer.value))
  {
    ResyncMirrors(db, lead, "staleness_guard", answer, now);
  }

  lemma GuardKeeps(config: Config, s: Sys, lead: LeadId, verdict: Verdict, answer: Option<Deal>, now: Time)
      returns (events: seq<Event>)
    requires DataInv(config, s)
    requires Guarded(s.db, lead, verdict, answer, now).Ok?
    requires Guarded(s.db, lead, verdict, answer, now).value != s.db ==> AgreesWhereSeen(s.db, s.crm, lead, answer)
    ensures var r := Guarded(s.db, lead, verdict, answer, now).value;
            Keeps(config, s, s.(db := r), events, now) && |r.leads| == |s.db.leads|
  {
    StandingStill(config, s, now);
    if Guarded(s.db, lead, verdict, answer, now).value == s.db {
      events := [];
    } else {
      var r;
      r, events := RefreshKeeps(config, s, lead, "staleness_guard", answer, now);
    }
  }

  lemma DeliveryKeeps(
    config: Config, s: Sys, m: Sys, first: seq<Event>, r: Db, id: ConvId, org: OrgId, lead: LeadId, text: string,
    now: Time)
    returns (events: seq<Event>)
    requires Keeps(config, s, m, first, now) && m == s.(db := m.db)
    requires DeliversTo(m.db, r, id, org, lead, text, now) && IsComplete(m.db, lead, config.threshold)
    ensures Keeps(config, s, s.(db := r), events, now) && |r.leads| == |m.db.leads|
  {
    var second := [ResponseReady(org, id, m.db.conversations[id].chatwootId, text)];
    DeliveryIsOnlyConversations(m.db, r, id, org, lead, text, now);
    DeliveryKeepsConversations(m.db, r, config.threshold, id, org, lead, text, now);
    ConversationsOnlyKeeps(config, m, r, second, now);
    events := first + second;
    assert FreshRows(events, now) == FreshRows(first, now) + FreshRows(second, now);
    assert s.(db := r) == m.(db := r);
    assert r.outbox == s.db.outbox + FreshRows(events, now);
  }

  lemma HonestIsHarmless(config: Config, db: Db, crm: map<OrgId, Crm>, clock: Time, txn: Txn)
    requires MirrorInv(db, crm, clock) && Honest(db, crm, txn) && !txn.ResumePoll? && !txn.ResumeRecommend?
    ensures Harmless(config, db, crm, clock, txn)
  {
    if txn.PollCrm? && txn.listing.Ok? {
      var deals, since := CrmOf(crm, txn.org), Watermark(db, txn.org);
      assert MirrorOk(db, txn.org, deals, clock);
      ListingIsDated(deals, since, clock, txn.listing.value);
      UnmovedIsCurrent(deals, since, clock, txn.listing.value);
    }
  }

  /** What is done in one step is what is done in two. */
  lemma SameInTwo(config: Config, s: Sys, txn: Txn)
    requires IsScan(s.db, txn)
    ensures IsScan(s.db, InTwo(config, s.db, txn))
    ensures InTwo(config, s.db, InTwo(config, s.db, txn)) == InTwo(config, s.db, txn)
    ensures Transacted(config, s, InTwo(config, s.db, txn)) == Transacted(config, s, txn)
  {
    RunInTwo(config, s.db, txn);
    SameTransacted(config, s, txn, InTwo(config, s.db, txn));
  }

  /** Every transaction keeps the invariant, whatever the outside world answers, as long as it does no harm. */
  lemma TxnKeeps(config: Config, s: Sys, txn: Txn) returns (events: seq<Event>)
    requires DataInv(config, s)
    requires IsScan(s.db, txn) && Harmless(config, s.db, s.crm, s.clock, txn)
    ensures Keeps(config, s, Transacted(config, s, txn), events, TxnTime(txn))
  {
    SameInTwo(config, s, txn);
    match InTwo(config, s.db, txn) {
      case Nothing => {
        StandingStill(config, s, 0);
        events := [];
        assert Transacted(config, s, Nothing) == s;
      }
      case SignUp(org) => {
        SignUpKeeps(config, s, org);
        events := [];
      }
      case ResumePoll(org, since, listing, now) => events := PollKeeps(config, s, org, since, listing, now);
      case Resync(lead, answer, now) => events := ResyncKeeps(config, s, lead, answer, now);
      case Deliver(org, payload, now) => events := DeliverKeeps(config, s, org, payload, now);
      case Decay(cutoff, ids, now) => events := DecayKeeps(config, s, cutoff, ids, now);
      case Patch(lead, patch, now) => events := PatchKeeps(config, s, lead, patch, now);
      case LateInsight(lead, propertyId, places, now) => {
        LateInsightKeeps(config, s, lead, propertyId, places, now);
        events := [NeighborhoodEnriched(lead, propertyId, places)];
      }
      case Turn(id, input, now) => events := TurnKeeps(config, s, id, input, now);
      case Push(lead, answer, now) => events := PushKeeps(config, s, lead, answer, now);
      case ResumeRecommend(org, lead, verdict, answer, text, now) =>
        events := RecommendKeeps(config, s, org, lead, verdict, answer, text, now);
    }
  }
}
