/** The whole back end as one transition system: the CRM as an environment, the transactions of every
    module, and the workers that run the registered handlers. */
module LeadToSales {
  import opened Prelude
  import opened LeadDomain
  import opened Store
  import opened LeadSync
  import opened CrmMirror
  import opened OverlappingPolls
  import opened ProfileCapture
  import opened Coordinator
  import opened Webhook
  import opened RecommendationHandler
  import opened EventBus
  import opened BusRuns

  /** The completeness threshold and the staleness bound the services are built with. */
  datatype Config = Config(threshold: real, bound: Time)

  /** What the outside world answers to one transaction comes with it. The last two are a poll that read its watermark,
      and a recommendation whose guard judged its lead, in an earlier state. */
  datatype Txn =
    | Nothing
    | SignUp(org: OrgId)
    | PollCrm(org: OrgId, listing: Result<seq<Snapshot>, Error>, now: Time)
    | Resync(lead: LeadId, answer: Option<Deal>, now: Time)
    | Deliver(org: OrgId, payload: Payload, now: Time)
    | Decay(cutoff: Time, ids: seq<ConvId>, now: Time)
    | Patch(lead: LeadId, patch: ProfilePatch, now: Time)
    | LateInsight(lead: LeadId, propertyId: nat, places: seq<string>, now: Time)
    | Turn(id: ConvId, input: TurnInput, now: Time)
    | Push(lead: LeadId, answer: Option<Deal>, now: Time)
    | Recommend(org: OrgId, lead: LeadId, answer: Option<Deal>, text: string, now: Time)
    | ResumePoll(org: OrgId, since: Time, listing: Result<seq<Snapshot>, Error>, now: Time)
    | ResumeRecommend(org: OrgId, lead: LeadId, verdict: Verdict, answer: Option<Deal>, text: string, now: Time)

  /** `births` is the stage each lead row was first stored with, `acked` the message triples the webhook
      has acknowledged; the clock is the latest stamp the CRM has given. */
  datatype Sys = Sys(
    db: Db,
    crm: map<OrgId, Crm>,
    clock: Time,
    births: seq<PipelineStage>,
    acked: set<(OrgId, string, string)>,
    batches: map<nat, Batch>,
    runs: multiset<Delivery>,
    rolledBack: multiset<Delivery>)

  function CrmOf(crm: map<OrgId, Crm>, org: OrgId): Crm {
    if org in crm then crm[org] else map[]
  }

  function BusOf(s: Sys): Bus {
    Bus(s.db.outbox, s.db.inbox, s.batches, s.runs, s.rolledBack)
  }

  // ---- Transactions ----------------------------------------------------------------------------

  function Always(text: string): BuyerProfile -> string {
    (p: BuyerProfile) => text
  }

  /** What the transaction commits, or why it raises. */
  function Run(config: Config, db: Db, txn: Txn): Result<Db, Error>
    requires IsScan(db, txn)
  {
    match txn
    case Nothing => Ok(db)
    case SignUp(org) => Ok(db.(orgs := db.orgs + {org}))
    case PollCrm(org, listing, now) => Poll(db, org, "system.sync_worker", listing, now)
    case Resync(lead, answer, now) => ForceResync(db, lead, "staleness_guard", answer, now)
    case Deliver(org, payload, now) =>
      var received :- Receive(db, org, payload, now);
      Ok(received.db)
    case Decay(cutoff, ids, now) => DecayAll(db, db.conversations, ids, now)
    case Patch(lead, patch, now) =>
      var updated :- UpdateProfile(db, lead, patch, config.threshold, now);
      Ok(updated.db)
    case LateInsight(lead, propertyId, places, now) =>
      Ok(Published(db, [NeighborhoodEnriched(lead, propertyId, places)], now))
    case Turn(id, input, now) => HandleMessage(db, id, input, now)
    case Push(lead, answer, now) => HandleCrmPush(db, lead, answer, now)
    case Recommend(org, lead, answer, text, now) =>
      HandleProfileCompleted(db, org, lead, config.threshold, config.bound, answer, Always(text), now)
    case ResumePoll(org, since, listing, now) => PollFrom(db, org, "system.sync_worker", since, listing, now)
    case ResumeRecommend(org, lead, verdict, answer, text, now) =>
      HandleAfterGuard(db, org, lead, Guarded(db, lead, verdict, answer, now), config.threshold, Always(text), now)
  }

  /** The dormancy scan works on what its select returned. */
  predicate IsScan(db: Db, txn: Txn) {
    txn.Decay? ==> IsStaleList(db, txn.cutoff, txn.ids)
  }

  predicate AnswersFor(db: Db, crm: map<OrgId, Crm>, lead: LeadId, answer: Option<Deal>) {
    answer.Some? && lead < |db.leads| ==>
      var deals := CrmOf(crm, db.leads[lead].org);
      db.leads[lead].crmLeadId in deals && answer.value == deals[db.leads[lead].crmLeadId]
  }

  /** An answer the CRM gives is true of the CRM at that moment; it may always fail to answer. */
  predicate Honest(db: Db, crm: map<OrgId, Crm>, txn: Txn) {
    match txn
    case PollCrm(org, listing, _) => listing.Ok? ==> IsListing(CrmOf(crm, org), Watermark(db, org), listing.value)
    case Resync(lead, answer, _) => AnswersFor(db, crm, lead, answer)
    case Push(lead, answer, _) => AnswersFor(db, crm, lead, answer)
    case Recommend(_, lead, answer, _, _) => AnswersFor(db, crm, lead, answer)
    case _ => true
  }

  /** All a refresh needs of its answer: once the watermark has passed the deal, no mirrored field differs. */
  predicate AgreesWhereSeen(db: Db, crm: map<OrgId, Crm>, lead: LeadId, answer: Option<Deal>) {
    answer.Some? && lead < |db.leads| ==>
      var row := db.leads[lead];
      var deals := CrmOf(crm, row.org);
      row.crmLeadId in deals && deals[row.crmLeadId].updatedAt <= Watermark(db, row.org) ==>
        !MirroredFieldsDiffer(answer.value, deals[row.crmLeadId])
  }

  /** A poll and a recommendation do in one step what they also do in two. */
  function InTwo(config: Config, db: Db, txn: Txn): Txn {
    match txn
    case PollCrm(org, listing, now) => ResumePoll(org, Watermark(db, org), listing, now)
    case Recommend(org, lead, answer, text, now) =>
      ResumeRecommend(org, lead, Judge(db, lead, config.bound, now), answer, text, now)
    case _ => txn
  }

  /** Whether a transaction stores a refresh of a lead: the answer has a valid stage, and a recommendation's guard has
      found the lead stale, its profile is complete and it has at most one conversation to deliver to. */
  predicate StoresRefresh(db: Db, threshold: real, txn: Txn) {
    && (txn.Resync? || txn.Push? || txn.ResumeRecommend?)
    && txn.lead < |db.leads| && txn.answer.Some? && StageOk(txn.answer.value)
    && (txn.ResumeRecommend? ==>
          && txn.verdict.Stale?
          && IsComplete(db, txn.lead, threshold)
          && |ConversationsByLead(db.conversations, txn.org, txn.lead)| <= 1)
  }

  /** A listing the CRM has given by now. */
  ghost predicate PastListing(since: Time, crm: Crm, clock: Time, snapshots: seq<Snapshot>) {
    exists asOf :: asOf <= clock && IsDatedListing(crm, since, asOf, snapshots)
  }

  /** A listing that does no harm: taken from a watermark the poll has read by now, dated, and in no snapshot
      outdated. */
  ghost predicate HarmlessListing(db: Db, org: OrgId, since: Time, crm: Crm, clock: Time, snapshots: seq<Snapshot>) {
    && WasWatermark(db, org, since)
    && PastListing(since, crm, clock, snapshots)
    && NoneOutdated(snapshots, crm, Watermark(db, org))
  }

  /** What the outside world may answer without doing harm. */
  ghost predicate Harmless(config: Config, db: Db, crm: map<OrgId, Crm>, clock: Time, txn: Txn) {
    var txn := InTwo(config, db, txn);
    && (txn.ResumePoll? && txn.listing.Ok? ==>
          HarmlessListing(db, txn.org, txn.since, CrmOf(crm, txn.org), clock, txn.listing.value))
    && (StoresRefresh(db, config.threshold, txn) ==> AgreesWhereSeen(db, crm, txn.lead, txn.answer))
  }

  function AfterCommit(config: Config, db: Db, txn: Txn): Db
    requires IsScan(db, txn)
  {
    var r := Run(config, db, txn);
    if r.Ok? then r.value else db
  }

  /** The triples a delivery is acknowledged for: as accepted, or as seen before. */
  function Acknowledged(db: Db, txn: Txn): set<(OrgId, string, string)> {
    if txn.Deliver? then
      var r := Receive(db, txn.org, txn.payload, txn.now);
      if r.Ok? && r.value.ack != Ignored then {(txn.org, txn.payload.conversationId, txn.payload.messageId)} else {}
    else {}
  }

  /** The state once `txn` has committed, or has raised and left nothing. */
  function Transacted(config: Config, s: Sys, txn: Txn): Sys
    requires IsScan(s.db, txn)
  {
    var db := AfterCommit(config, s.db, txn);
    s.(db := db, births := BirthsAfter(s.births, db.leads), acked := s.acked + Acknowledged(s.db, txn))
  }

  // ---- Handlers --------------------------------------------------------------------------------

  const CRM_PUSH: string := "lead_qualification.crm_push"

  /** What happens around one handler run: whether the CRM applied the stage push, what it answers, and where the
      handler raises - before its commit, or after it: the sidebar swallows a failed send, but not an error that comes
      from elsewhere, such as a URL the HTTP client refuses. */
  datatype Env = Env(
    input: TurnInput,
    stamp: Option<Time>,
    answer: Option<Deal>,
    text: string,
    raises: Option<string>,
    raisesLate: Option<string>,
    now: Time)

  function HandlerTxn(consumer: string, event: Event, env: Env): Txn {
    match event
    case MessageReceived(_, id, _, _, _, _) => Turn(id, env.input, env.now)
    case ProfileCompleted(org, lead, _, _, _) =>
      if consumer == CRM_PUSH then Push(lead, env.answer, env.now)
        else Recommend(org, lead, env.answer, env.text, env.now)
    case _ => Nothing
  }

  /** The stage push at the CRM: the deal with the stage "Qualified" and a new stamp. */
  predicate IsPatchable(s: Sys, txn: Txn) {
    && txn.Push? && txn.lead < |s.db.leads|
    && s.db.leads[txn.lead].crmLeadId in CrmOf(s.crm, s.db.leads[txn.lead].org)
  }

  function Patched(s: Sys, txn: Txn, stamp: Option<Time>): Sys
    requires stamp.Some? ==> IsPatchable(s, txn)
  {
    if stamp.None? then s
    else
      var lead := s.db.leads[txn.lead];
      var deal := CrmOf(s.crm, lead.org)[lead.crmLeadId];
      Written(s, lead.org, lead.crmLeadId, deal.(stage := StageName(Qualified), updatedAt := stamp.value))
  }

  function Written(s: Sys, org: OrgId, id: string, deal: Deal): Sys {
    s.(crm := s.crm[org := CrmOf(s.crm, org)[id := deal]], clock := deal.updatedAt)
  }

  /** Worker `w` stands before a handler that has not run yet, and what surrounds the run can happen. */
  ghost predicate CanRun(s: Sys, w: nat, env: Env) {
    && AtConsumer(WIRED, BusOf(s), w)
    && var d := NextDelivery(WIRED, BusOf(s), w);
    && !Known(BusOf(s), w, d)
    && d.1 < |s.db.outbox|
    && var txn := HandlerTxn(d.0, s.db.outbox[d.1].event, env);
    && (env.stamp.Some? ==> IsPatchable(s, txn) && env.stamp.value > s.clock)
    && (txn.Push? && env.answer.Some? && env.stamp.None? ==> env.answer.value.stage == StageName(Qualified))
    && (env.raisesLate.Some? ==> txn.Turn?)
  }

  /** The transaction of that handler. */
  function TxnOf(s: Sys, w: nat, env: Env): Txn
    requires AtConsumer(WIRED, BusOf(s), w) && NextDelivery(WIRED, BusOf(s), w).1 < |s.db.outbox|
  {
    var d := NextDelivery(WIRED, BusOf(s), w);
    HandlerTxn(d.0, s.db.outbox[d.1].event, env)
  }

  ghost predicate CanHandle(s: Sys, w: nat, env: Env) {
    CanRun(s, w, env) && Honest(s.db, Patched(s, TxnOf(s, w, env), env.stamp).crm, TxnOf(s, w, env))
  }

  /** The handler's transaction as far as it got: nothing when it raises first. */
  function Attempted(consumer: string, event: Event, env: Env): Txn {
    if env.raises.Some? then Nothing else HandlerTxn(consumer, event, env)
  }

  function AttemptOf(s: Sys, w: nat, env: Env): Txn
    requires AtConsumer(WIRED, BusOf(s), w) && NextDelivery(WIRED, BusOf(s), w).1 < |s.db.outbox|
  {
    var d := NextDelivery(WIRED, BusOf(s), w);
    Attempted(d.0, s.db.outbox[d.1].event, env)
  }

  /** The worker records a success and moves on, or keeps the error and leaves the row. */
  function Recorded(s: Sys, w: nat, failure: Option<string>): Sys
    requires AtConsumer(WIRED, BusOf(s), w)
  {
    var b := s.batches[w];
    var d := NextDelivery(WIRED, BusOf(s), w);
    if failure.None? then
      s.(batches := s.batches[w := b.(next := b.next + 1, staged := b.staged + {d})], runs := s.runs + multiset{d})
    else
      s.(batches := s.batches[w :=
        b.(cur := b.cur + 1, next := 0, failed := b.failed[d.1 := d.0 + ": " + failure.value])])
  }

  function Failure(config: Config, db: Db, txn: Txn, env: Env): Option<string>
    requires IsScan(db, txn)
  {
    if env.raises.Some? then env.raises
    else if Run(config, db, txn).Err? then Some("raised")
    else env.raisesLate
  }

  /** A handler's own commit and the worker's record. The record is made first here; it depends on nothing the
      transaction writes. */
  function HandledAs(config: Config, s: Sys, w: nat, env: Env, txn: Txn): Sys
    requires AtConsumer(WIRED, BusOf(s), w) && IsScan(s.db, txn)
  {
    Transacted(config, Recorded(s, w, Failure(config, s.db, txn, env)), txn)
  }

  /** One handler run: the CRM push if it got that far, and the rest. */
  function Handled(config: Config, s: Sys, w: nat, env: Env): Sys
    requires CanRun(s, w, env)
  {
    HandledAs(config, Patched(s, TxnOf(s, w, env), env.stamp), w, env, AttemptOf(s, w, env))
  }

  // ---- Steps -----------------------------------------------------------------------------------

  datatype Step =
    | CrmWrite(org: OrgId, id: string, deal: Deal)
    | CrmRepair(org: OrgId, id: string, stage: string)
    | CrmDelete(org: OrgId, id: string)
    | Transact(txn: Txn)
    | Handle(worker: nat, env: Env)
    | Work(step: BusStep)

  /** The transactions that arrive on their own: requests and background jobs. */
  predicate IsRequest(txn: Txn) {
    !txn.Turn? && !txn.Push? && !txn.Recommend? && !txn.ResumePoll? && !txn.ResumeRecommend?
  }

  /** The worker's own moves; handler runs and arrivals come with their transactions. */
  predicate IsWork(step: BusStep) { !step.Arrive? && !step.RunOk? && !step.RunFail? }

  ghost predicate Possible(s: Sys, step: Step) {
    match step
    case CrmWrite(org, id, deal) => deal.updatedAt > s.clock
    case CrmRepair(org, id, stage) => id in CrmOf(s.crm, org) && !StageOk(CrmOf(s.crm, org)[id])
    case CrmDelete(org, id) => true
    case Transact(txn) => IsRequest(txn) && IsScan(s.db, txn) && Honest(s.db, s.crm, txn)
    case Handle(w, env) => CanHandle(s, w, env)
    case Work(step) => IsWork(step) && Enabled(WIRED, BusOf(s), step)
  }

  ghost function Next(config: Config, s: Sys, step: Step): Sys
    requires Possible(s, step)
  {
    match step
    case CrmWrite(org, id, deal) => Written(s, org, id, deal)
    case CrmRepair(org, id, stage) =>
      s.(crm := s.crm[org := CrmOf(s.crm, org)[id := CrmOf(s.crm, org)[id].(stage := stage)]])
    case CrmDelete(org, id) => s.(crm := s.crm[org := CrmOf(s.crm, org) - {id}])
    case Transact(txn) => Transacted(config, s, txn)
    case Handle(w, env) => Handled(config, s, w, env)
    case Work(step) =>
      var b := Apply(WIRED, BusOf(s), step);
      s.(db := s.db.(outbox := b.outbox, inbox := b.inbox), batches := b.batches, runs := b.runs,
        rolledBack := b.rolledBack)
  }

  const EMPTY_DB: Db := Db({}, [], {}, [], [], [], [], map[], map[], [])

  predicate Initial(s: Sys) {
    && s.db == EMPTY_DB
    && s.crm == map[] && s.clock == EPOCH
    && s.births == [] && s.acked == {}
    && s.batches == map[] && s.runs == multiset{} && s.rolledBack == multiset{}
  }

  /** The states of a run: `states[0]` starts, `steps[i]` leads from state i to state i + 1. */
  ghost predicate IsRun(config: Config, states: seq<Sys>, steps: seq<Step>) {
    && |states| == |steps| + 1
    && Initial(states[0])
    && forall i :: 0 <= i < |steps| ==>
         Possible(states[i], steps[i]) && states[i + 1] == Next(config, states[i], steps[i])
  }
}
