/** What no step of the system does to leads and watermarks, even one that loses an update: no lead is stored twice,
    removed or renamed, no watermark falls, and nothing is stamped after the CRM's clock. */
module LeadTables {
  import opened Prelude
  import opened LeadDomain
  import opened Store
  import opened LeadSync
  import opened CrmMirror
  import opened OverlappingPolls
  import opened ProfileCapture
  import opened Coordinator
  import opened Webhook
  import opened RecommendationHandler
  import opened Lifecycle
  import opened EventBus
  import opened BusRuns
  import opened LeadToSales

  ghost predicate MarksOk(db: Db, org: OrgId, crm: Crm, clock: Time) {
    EPOCH <= Watermark(db, org) <= clock && forall id :: id in crm ==> crm[id].updatedAt <= clock
  }

  ghost predicate TablesOk(s: Sys) {
    UniqueLeads(s.db.leads) && forall org: OrgId :: MarksOk(s.db, org, CrmOf(s.crm, org), s.clock)
  }

  ghost predicate TablesGoOn(s: Sys, t: Sys) {
    && LeadsKeepNames(s.db.leads, t.db.leads)
    && (forall org: OrgId :: Watermark(s.db, org) <= Watermark(t.db, org))
    && s.clock <= t.clock
  }

  // ---- Transactions ----------------------------------------------------------------------------

  predicate SameLeads(db: Db, r: Db) { r.leads == db.leads && r.cursors == db.cursors }

  lemma {:induction false} DecayLeavesLeads(db: Db, loaded: seq<ConversationRow>, ids: seq<ConvId>, now: Time)
    requires |loaded| == |db.conversations|
    requires forall i :: 0 <= i < |ids| ==> ids[i] < |loaded|
    ensures DecayAll(db, loaded, ids, now).Ok? ==> SameLeads(db, DecayAll(db, loaded, ids, now).value)
    decreases |ids|
  {
    if ids != [] { DecayLeavesLeads(db, loaded, ids[..|ids| - 1], now); }
  }

  /** Transactions that are neither polls nor refreshes. */
  lemma OthersLeaveLeads(config: Config, db: Db, txn: Txn)
    requires IsScan(db, txn)
    requires InTwo(config, db, txn) == txn && !txn.ResumePoll? && !txn.ResumeRecommend? && !txn.Resync? && !txn.Push?
    ensures SameLeads(db, AfterCommit(config, db, txn))
  {
    if txn.Decay? {
      DecayLeavesLeads(db, db.conversations, txn.ids, txn.now);
    }
  }

  /** A row rewritten by a refresh. */
  function Refreshed(db: Db, txn: Txn): seq<LeadRow>
    requires txn.Resync? || txn.Push? || txn.ResumeRecommend?
    requires txn.lead < |db.leads| && txn.answer.Some? && StageOk(txn.answer.value)
  {
    var stage := ParseStage(txn.answer.value.stage).value;
    db.leads[txn.lead := Resynced(db.leads[txn.lead], txn.answer.value, stage, txn.now)]
  }

  ghost predicate RefreshWritten(db: Db, threshold: real, txn: Txn, r: Db) {
    && r.cursors == db.cursors
    && (StoresRefresh(db, threshold, txn) ==> r.leads == Refreshed(db, txn))
    && (!StoresRefresh(db, threshold, txn) ==> r.leads == db.leads)
  }

  lemma ResyncWrites(db: Db, lead: LeadId, actor: string, answer: Option<Deal>, now: Time)
    requires UniqueLeads(db.leads) && actor in ALLOWED_ACTORS
    ensures ForceResync(db, lead, actor, answer, now).Ok? <==>
            lead < |db.leads| && answer.Some? && StageOk(answer.value)
    ensures ForceResync(db, lead, actor, answer, now).Ok? ==>
              var r := ForceResync(db, lead, actor, answer, now).value;
              && r.cursors == db.cursors && r.conversations == db.conversations && r.profiles == db.profiles
              && r.leads == Refreshed(db, Resync(lead, answer, now))
  {
    ResyncMirrors(db, lead, actor, answer, now);
    if ForceResync(db, lead, actor, answer, now).Ok? {
      RefreshedRow(db, lead, actor, answer.value, now);
    }
  }

  lemma RecommendWrites(
    config: Config, db: Db, org: OrgId, lead: LeadId, verdict: Verdict, answer: Option<Deal>, text: string, now: Time)
    requires UniqueLeads(db.leads)
    ensures var txn := ResumeRecommend(org, lead, verdict, answer, text, now);
            RefreshWritten(db, config.threshold, txn, AfterCommit(config, db, txn))
  {
    var guard := Guarded(db, lead, verdict, answer, now);
    AfterGuardEffect(db, org, lead, guard, config.threshold, Always(text), now);
    ResyncWrites(db, lead, "staleness_guard", answer, now);
    if guard.Ok? && IsComplete(guard.value, lead, config.threshold) {
      var linked := ConversationsByLead(guard.value.conversations, org, lead);
      OneOrNoneFinds(linked);
      if |linked| == 1 {
        var id :| linked == {id};
        var said := Always(text)(FromRow(guard.value.profiles[lead]).value);
        var handled := HandleAfterGuard(db, org, lead, guard, config.threshold, Always(text), now);
        assert DeliversTo(guard.value, handled.value, id, org, lead, said, now);
      }
    }
  }

  /** A refresh writes the row of its lead when it is stored, and otherwise no row; it moves no watermark. */
  lemma RefreshWrites(config: Config, db: Db, txn: Txn)
    requires UniqueLeads(db.leads)
    requires txn.Resync? || txn.Push? || txn.ResumeRecommend?
    ensures RefreshWritten(db, config.threshold, txn, AfterCommit(config, db, txn))
  {
    match txn
    case Resync(lead, answer, now) => ResyncWrites(db, lead, "staleness_guard", answer, now);
    case Push(lead, answer, now) =>
      PushIsAResync(db, lead, answer, now);
      ResyncWrites(db, lead, "system.event_bus", answer, now);
    case ResumeRecommend(org, lead, verdict, answer, text, now) =>
      RecommendWrites(config, db, org, lead, verdict, answer, text, now);
  }

  /** Leads and watermarks after a transaction, against a CRM it does not change. */
  ghost predicate Moved(db: Db, r: Db, crm: map<OrgId, Crm>, clock: Time) {
    && UniqueLeads(r.leads) && LeadsKeepNames(db.leads, r.leads)
    && forall org: OrgId :: Watermark(db, org) <= Watermark(r, org) && MarksOk(r, org, CrmOf(crm, org), clock)
  }

  lemma SameLeadsMove(db: Db, r: Db, crm: map<OrgId, Crm>, clock: Time)
    requires UniqueLeads(db.leads) && forall org: OrgId :: MarksOk(db, org, CrmOf(crm, org), clock)
    requires r.cursors == db.cursors && UniqueLeads(r.leads) && LeadsKeepNames(db.leads, r.leads)
    ensures Moved(db, r, crm, clock)
  {
    forall org: OrgId ensures Watermark(db, org) <= Watermark(r, org) && MarksOk(r, org, CrmOf(crm, org), clock) {
      assert MarksOk(db, org, CrmOf(crm, org), clock);
    }
  }

  lemma RefreshMoves(config: Config, db: Db, txn: Txn, crm: map<OrgId, Crm>, clock: Time)
    requires UniqueLeads(db.leads) && forall org: OrgId :: MarksOk(db, org, CrmOf(crm, org), clock)
    requires txn.Resync? || txn.Push? || txn.ResumeRecommend?
    ensures Moved(db, AfterCommit(config, db, txn), crm, clock)
  {
    RefreshWrites(config, db, txn);
    SameLeadsMove(db, AfterCommit(config, db, txn), crm, clock);
  }

  lemma PollMoves(
      db: Db, org: OrgId, since: Time, snapshots: seq<Snapshot>, now: Time, crm: map<OrgId, Crm>, clock: Time)
    requires UniqueLeads(db.leads) && forall other: OrgId :: MarksOk(db, other, CrmOf(crm, other), clock)
    requires WasWatermark(db, org, since) && PastListing(since, CrmOf(crm, org), clock, snapshots)
    ensures ResumedPoll(db, org, since, snapshots, now).Ok?
    ensures Moved(db, ResumedPoll(db, org, since, snapshots, now).value, crm, clock)
  {
    var asOf :| asOf <= clock && IsDatedListing(CrmOf(crm, org), since, asOf, snapshots);
    PollOutcome(db, org, since, snapshots, now);
    var p := PollAll(org, PollStart(db, org, since), snapshots, now).value;
    MarkIsDated(since, snapshots, p, asOf);
    var r := ResumedPoll(db, org, since, snapshots, now).value;
    forall other: OrgId
      ensures Watermark(db, other) <= Watermark(r, other) && MarksOk(r, other, CrmOf(crm, other), clock)
    {
      assert MarksOk(db, other, CrmOf(crm, other), clock);
    }
  }

  ghost predicate ListingIsPast(s: Sys, txn: Txn) {
    txn.ResumePoll? && txn.listing.Ok? ==>
      && WasWatermark(s.db, txn.org, txn.since)
      && PastListing(txn.since, CrmOf(s.crm, txn.org), s.clock, txn.listing.value)
  }

  /** No transaction does it, true answers or not. */
  lemma TransactMoves(config: Config, s: Sys, txn: Txn)
    requires TablesOk(s) && IsScan(s.db, txn)
    requires InTwo(config, s.db, txn) == txn && ListingIsPast(s, txn)
    ensures TablesOk(Transacted(config, s, txn)) && TablesGoOn(s, Transacted(config, s, txn))
  {
    var r := AfterCommit(config, s.db, txn);
    if txn.ResumePoll? && txn.listing.Ok? {
      PollMoves(s.db, txn.org, txn.since, txn.listing.value, txn.now, s.crm, s.clock);
    } else if txn.Resync? || txn.Push? || txn.ResumeRecommend? {
      RefreshMoves(config, s.db, txn, s.crm, s.clock);
    } else {
      if !txn.ResumePoll? { OthersLeaveLeads(config, s.db, txn); }
      SameLeadsMove(s.db, r, s.crm, s.clock);
    }
    assert Moved(s.db, r, s.crm, s.clock);
    MovedIsOk(config, s, txn);
  }

  lemma MovedIsOk(config: Config, s: Sys, txn: Txn)
    requires IsScan(s.db, txn) && Moved(s.db, AfterCommit(config, s.db, txn), s.crm, s.clock)
    ensures TablesOk(Transacted(config, s, txn)) && TablesGoOn(s, Transacted(config, s, txn))
  {
  }

  lemma HandledMoves(config: Config, s: Sys, w: nat, env: Env, txn: Txn)
    requires TablesOk(s) && AtConsumer(WIRED, BusOf(s), w) && IsScan(s.db, txn)
    requires InTwo(config, s.db, txn) == txn && ListingIsPast(s, txn)
    ensures TablesOk(HandledAs(config, s, w, env, txn)) && TablesGoOn(s, HandledAs(config, s, w, env, txn))
  {
    TransactMoves(config, Recorded(s, w, Failure(config, s.db, txn, env)), txn);
  }

  // ---- Steps -----------------------------------------------------------------------------------

  lemma WriteMoves(s: Sys, org: OrgId, id: string, deal: Deal)
    requires TablesOk(s) && deal.updatedAt > s.clock
    ensures TablesOk(Written(s, org, id, deal)) && TablesGoOn(s, Written(s, org, id, deal))
  {
    var t := Written(s, org, id, deal);
    forall other: OrgId ensures MarksOk(t.db, other, CrmOf(t.crm, other), t.clock) {
      assert MarksOk(s.db, other, CrmOf(s.crm, other), s.clock);
    }
  }

  /** Whatever happens to one organization's deals, as long as nothing is stamped anew. */
  lemma CrmMoves(s: Sys, t: Sys, org: OrgId, deals: Crm)
    requires TablesOk(s) && t == s.(crm := s.crm[org := deals])
    requires forall id :: id in deals ==>
             id in CrmOf(s.crm, org) && deals[id].updatedAt == CrmOf(s.crm, org)[id].updatedAt
    ensures TablesOk(t) && TablesGoOn(s, t)
  {
    forall other: OrgId ensures MarksOk(t.db, other, CrmOf(t.crm, other), t.clock) {
      assert MarksOk(s.db, other, CrmOf(s.crm, other), s.clock);
    }
  }

  lemma RequestMoves(config: Config, s: Sys, txn: Txn)
    requires TablesOk(s) && Possible(s, Transact(txn))
    ensures TablesOk(Transacted(config, s, txn)) && TablesGoOn(s, Transacted(config, s, txn))
  {
    var two := InTwo(config, s.db, txn);
    assert Transacted(config, s, two) == Transacted(config, s, txn);
    if txn.PollCrm? && txn.listing.Ok? {
      var deals := CrmOf(s.crm, txn.org);
      assert MarksOk(s.db, txn.org, deals, s.clock);
      ListingIsDated(deals, Watermark(s.db, txn.org), s.clock, txn.listing.value);
      assert PastListing(two.since, deals, s.clock, txn.listing.value);
    }
    TransactMoves(config, s, two);
  }

  lemma PatchedMoves(s: Sys, w: nat, env: Env)
    requires TablesOk(s) && CanRun(s, w, env)
    ensures var patched := Patched(s, TxnOf(s, w, env), env.stamp);
            BusOf(patched) == BusOf(s) && patched.db == s.db && TablesOk(patched) && TablesGoOn(s, patched)
  {
    if env.stamp.Some? {
      var lead := s.db.leads[TxnOf(s, w, env).lead];
      WriteMoves(s, lead.org, lead.crmLeadId,
        CrmOf(s.crm, lead.org)[lead.crmLeadId].(stage := StageName(Qualified), updatedAt := env.stamp.value));
    }
  }

  lemma SameHandledInTwo(config: Config, s: Sys, w: nat, env: Env, txn: Txn)
    requires AtConsumer(WIRED, BusOf(s), w) && IsScan(s.db, txn)
    ensures IsScan(s.db, InTwo(config, s.db, txn))
    ensures HandledAs(config, s, w, env, InTwo(config, s.db, txn)) == HandledAs(config, s, w, env, txn)
  {
    RunInTwo(config, s.db, txn);
    SameRunSameHandled(config, s, w, env, txn, InTwo(config, s.db, txn));
  }

  lemma RunInTwo(config: Config, db: Db, txn: Txn)
    requires IsScan(db, txn)
    ensures IsScan(db, InTwo(config, db, txn)) && Run(config, db, InTwo(config, db, txn)) == Run(config, db, txn)
    ensures Acknowledged(db, InTwo(config, db, txn)) == Acknowledged(db, txn)
  {
  }

  lemma SameRunSameHandled(config: Config, s: Sys, w: nat, env: Env, txn: Txn, two: Txn)
    requires AtConsumer(WIRED, BusOf(s), w) && IsScan(s.db, txn) && IsScan(s.db, two)
    requires Run(config, s.db, two) == Run(config, s.db, txn) && Acknowledged(s.db, two) == Acknowledged(s.db, txn)
    ensures HandledAs(config, s, w, env, two) == HandledAs(config, s, w, env, txn)
  {
    var failure := SameFailure(config, s.db, env, txn, two);
    SameTransacted(config, Recorded(s, w, failure), txn, two);
  }

  lemma SameFailure(config: Config, db: Db, env: Env, txn: Txn, two: Txn) returns (failure: Option<string>)
    requires IsScan(db, txn) && IsScan(db, two) && Run(config, db, two) == Run(config, db, txn)
    ensures Failure(config, db, two, env) == failure == Failure(config, db, txn, env)
  {
    failure := Failure(config, db, txn, env);
  }

  lemma SameTransacted(config: Config, s: Sys, txn: Txn, two: Txn)
    requires IsScan(s.db, txn) && IsScan(s.db, two)
    requires Run(config, s.db, two) == Run(config, s.db, txn) && Acknowledged(s.db, two) == Acknowledged(s.db, txn)
    ensures Transacted(config, s, two) == Transacted(config, s, txn)
  {
  }

  lemma HandleMoves(config: Config, s: Sys, w: nat, env: Env)
    requires TablesOk(s) && CanRun(s, w, env)
    ensures TablesOk(Handled(config, s, w, env)) && TablesGoOn(s, Handled(config, s, w, env))
  {
    PatchedMoves(s, w, env);
    var patched := Patched(s, TxnOf(s, w, env), env.stamp);
    SameHandledInTwo(config, patched, w, env, AttemptOf(s, w, env));
    HandledMoves(config, patched, w, env, InTwo(config, patched.db, AttemptOf(s, w, env)));
  }

  /** No step does it. */
  lemma NextKeepsTables(config: Config, s: Sys, step: Step)
    requires TablesOk(s) && Possible(s, step)
    ensures TablesOk(Next(config, s, step)) && TablesGoOn(s, Next(config, s, step))
  {
    match step
    case CrmWrite(org, id, deal) => WriteMoves(s, org, id, deal);
    case CrmRepair(org, id, stage) =>
      var deals := CrmOf(s.crm, org);
      CrmMoves(s, Next(config, s, step), org, deals[id := deals[id].(stage := stage)]);
    case CrmDelete(org, id) => CrmMoves(s, Next(config, s, step), org, CrmOf(s.crm, org) - {id});
    case Transact(txn) => RequestMoves(config, s, txn);
    case Handle(w, env) => HandleMoves(config, s, w, env);
    case Work(work) => WorkMoves(config, s, work);
  }

  lemma WorkMoves(config: Config, s: Sys, work: BusStep)
    requires TablesOk(s) && Possible(s, Work(work))
    ensures TablesOk(Next(config, s, Work(work))) && TablesGoOn(s, Next(config, s, Work(work)))
  {
    var t := Next(config, s, Work(work));
    forall org: OrgId ensures MarksOk(t.db, org, CrmOf(t.crm, org), t.clock) {
      assert MarksOk(s.db, org, CrmOf(s.crm, org), s.clock);
    }
  }
}
