/** The CRM sync adapter: paginated listing, polling with a watermark, forced resync and stage push. */
module LeadSync {
  import opened Prelude
  import opened LeadDomain
  import opened Store

  const EPOCH: Time := 0

  const MAX_LIST_PAGES: nat := 200

  const ALLOWED_ACTORS: set<string> :=
    {"system.sync_worker", "system.event_bus", "coordinator", "staleness_guard", "profile_capture"}

  /** A deal as the CRM holds it; times are integer microseconds. */
  datatype Deal = Deal(stage: string, score: real, broker: Option<BrokerId>, contactReference: Option<string>,
    updatedAt: Time)

  type Crm = map<string, Deal>

  datatype Snapshot = Snapshot(crmLeadId: string, deal: Deal)

  // ---- Listing ---------------------------------------------------------------------------------

  /** One answer of the deals endpoint: a failed request, or items with the next cursor ("" or absent ends). */
  datatype Page = RequestFailed | Page(items: seq<Snapshot>, nextCursor: Option<string>)

  predicate IsLast(p: Page) { p.Page? && (p.nextCursor.None? || p.nextCursor.value == "") }

  function Items(pages: seq<Page>): seq<Snapshot>
    requires forall i :: 0 <= i < |pages| ==> pages[i].Page?
  {
    if pages == [] then [] else Items(pages[..|pages| - 1]) + pages[|pages| - 1].items
  }

  /** The answers the endpoint would give to the successive requests of one call. */
  predicate EndsAt(answers: nat -> Page, k: nat) {
    IsLast(answers(k)) && forall i :: 0 <= i < k ==> answers(i).Page? && !IsLast(answers(i))
  }

  function FirstPages(answers: nat -> Page, n: nat): (pages: seq<Page>)
    ensures |pages| == n && forall i :: 0 <= i < n ==> pages[i] == answers(i)
  {
    seq(n, i requires i >= 0 => answers(i))
  }

  /** `_list_deals`: all the items when a last page comes within 200 requests, and otherwise an
      error - never a partial list. */
  method ListDeals(answers: nat -> Page) returns (r: Result<seq<Snapshot>, Error>)
    ensures r.Ok? <==> exists k :: 0 <= k < MAX_LIST_PAGES && EndsAt(answers, k)
    ensures forall k :: 0 <= k < MAX_LIST_PAGES && EndsAt(answers, k) ==> r == Ok(Items(FirstPages(answers, k + 1)))
    ensures r == Err(PaginationDidNotEnd) <==>
            forall i :: 0 <= i < MAX_LIST_PAGES ==> answers(i).Page? && !IsLast(answers(i))
  {
    var snapshots: seq<Snapshot> := [];
    var n := 0;
    while n < MAX_LIST_PAGES
      invariant 0 <= n <= MAX_LIST_PAGES
      invariant forall i :: 0 <= i < n ==> answers(i).Page? && !IsLast(answers(i))
      invariant snapshots == Items(FirstPages(answers, n))
    {
      var page := answers(n);
      if page.RequestFailed? {
        return Err(HttpFailure);
      }
      snapshots := snapshots + page.items;
      assert FirstPages(answers, n + 1)[..n] == FirstPages(answers, n);
      if IsLast(page) {
        assert EndsAt(answers, n);
        assert forall k :: 0 <= k < MAX_LIST_PAGES && EndsAt(answers, k) ==> k == n;
        return Ok(snapshots);
      }
      n := n + 1;
    }
    return Err(PaginationDidNotEnd);
  }

  /** How many items the first i pages hold together. */
  function SizeBefore(pages: seq<Page>, i: nat): nat
    requires i <= |pages|
    requires forall j :: 0 <= j < |pages| ==> pages[j].Page?
  {
    if i == 0 then 0 else SizeBefore(pages, i - 1) + |pages[i - 1].items|
  }

  lemma {:induction false} ItemsStandInOrder(pages: seq<Page>, i: nat, m: nat)
    requires forall j :: 0 <= j < |pages| ==> pages[j].Page?
    requires i < |pages| && m < |pages[i].items|
    ensures SizeBefore(pages, i) + m < |Items(pages)| == SizeBefore(pages, |pages|)
    ensures Items(pages)[SizeBefore(pages, i) + m] == pages[i].items[m]
    decreases |pages|
  {
    var n := |pages| - 1;
    ItemsAreCounted(pages[..n]);
    SameSizes(pages, n, n);
    if i < n {
      SameSizes(pages, n, i);
      ItemsStandInOrder(pages[..n], i, m);
    }
  }

  lemma {:induction false} ItemsAreCounted(pages: seq<Page>)
    requires forall j :: 0 <= j < |pages| ==> pages[j].Page?
    ensures |Items(pages)| == SizeBefore(pages, |pages|)
    decreases |pages|
  {
    if pages != [] {
      var n := |pages| - 1;
      ItemsAreCounted(pages[..n]);
      SameSizes(pages, n, n);
    }
  }

  lemma {:induction false} SameSizes(pages: seq<Page>, n: nat, i: nat)
    requires forall j :: 0 <= j < |pages| ==> pages[j].Page?
    requires i <= n <= |pages|
    ensures SizeBefore(pages[..n], i) == SizeBefore(pages, i)
    decreases i
  {
    if i > 0 { SameSizes(pages, n, i - 1); }
  }

  /** What a full list is: when page k is the first without a cursor, every item of every page up to it is in the list,
      item m of page i behind all items of the pages before it, and there is nothing else. */
  lemma ListIsWhole(answers: nat -> Page, k: nat, i: nat, m: nat)
    requires forall j: nat :: j <= k ==> answers(j).Page?
    requires forall j: nat :: j < k ==> answers(j).nextCursor.Some? && answers(j).nextCursor.value != ""
    requires answers(k).nextCursor.None? || answers(k).nextCursor.value == ""
    requires i <= k && m < |answers(i).items|
    ensures EndsAt(answers, k)
    ensures var pages := FirstPages(answers, k + 1);
            var at := SizeBefore(pages, i) + m;
            at < |Items(pages)| == SizeBefore(pages, k + 1) && Items(pages)[at] == answers(i).items[m]
  {
    ItemsStandInOrder(FirstPages(answers, k + 1), i, m);
  }

  // ---- Upsert ----------------------------------------------------------------------------------

  function LeadsByCrmId(leads: seq<LeadRow>, org: OrgId, crmLeadId: string): set<nat> {
    set i | 0 <= i < |leads| && leads[i].org == org && leads[i].crmLeadId == crmLeadId
  }

  function NewLead(org: OrgId, snapshot: Snapshot, stage: PipelineStage, now: Time): LeadRow {
    LeadRow(org, snapshot.crmLeadId, stage, snapshot.deal.score, snapshot.deal.broker, snapshot.deal.contactReference,
      now)
  }

  /** `Lead.mark_synced` on a stored lead; an absent contact reference keeps the stored one. */
  function Resynced(row: LeadRow, deal: Deal, stage: PipelineStage, now: Time): LeadRow {
    row.(stage := stage, score := deal.score, broker := deal.broker,
         contactReference := if deal.contactReference.Some? then deal.contactReference else row.contactReference,
         syncedAt := now)
  }

  function StageEvents(id: LeadId, before: PipelineStage, row: LeadRow): seq<Event> {
    if before == row.stage then [] else [CRMStageSynced(row.org, id, row.crmLeadId, row.stage, row.syncedAt)]
  }

  datatype Upserted = Upserted(db: Db, id: LeadId, events: seq<Event>)

  /** `_upsert_from_snapshot`: look the lead up first, then parse the stage, then write. */
  function Upsert(db: Db, org: OrgId, snapshot: Snapshot, now: Time): Result<Upserted, Error> {
    var found :- ScalarOneOrNone(LeadsByCrmId(db.leads, org, snapshot.crmLeadId), MultipleResults);
    match ParseStage(snapshot.deal.stage)
    case None => Err(StageNotInContract)
    case Some(stage) =>
      if found.None? then
        Ok(Upserted(db.(leads := db.leads + [NewLead(org, snapshot, stage, now)]), |db.leads|, []))
      else
        var id := found.value;
        assert id in LeadsByCrmId(db.leads, org, snapshot.crmLeadId);
        var row := Resynced(db.leads[id], snapshot.deal, stage, now);
        Ok(Upserted(db.(leads := db.leads[id := row]), id, StageEvents(id, db.leads[id].stage, row)))
  }

  // ---- Poll ------------------------------------------------------------------------------------

  function Watermark(db: Db, org: OrgId): Time {
    if org in db.cursors then db.cursors[org] else EPOCH
  }

  function Audited(db: Db, org: OrgId, actor: string, action: string, crmLeadId: Option<string>): Db {
    db.(audit := db.audit + [AuditRow(org, actor, action, crmLeadId, actor in ALLOWED_ACTORS)])
  }

  datatype Progress = Progress(db: Db, maxSeen: Time, earliestSkipped: Option<Time>, events: seq<Event>)

  /** One snapshot of a poll: a stage outside the contract skips the lead, anything else aborts. */
  function PollSnapshot(org: OrgId, p: Progress, snapshot: Snapshot, now: Time): Result<Progress, Error> {
    var at := snapshot.deal.updatedAt;
    match Upsert(p.db, org, snapshot, now)
    case Ok(u) => Ok(Progress(u.db, Max(p.maxSeen, at), p.earliestSkipped, p.events + u.events))
    case Err(e) =>
      if e == StageNotInContract then
        Ok(p.(earliestSkipped := if p.earliestSkipped.None? || at < p.earliestSkipped.value then Some(at)
          else p.earliestSkipped))
      else Err(e)
  }

  function PollAll(org: OrgId, start: Progress, snapshots: seq<Snapshot>, now: Time): Result<Progress, Error> {
    if snapshots == [] then Ok(start)
    else
      var n := |snapshots| - 1;
      var p :- PollAll(org, start, snapshots[..n], now);
      PollSnapshot(org, p, snapshots[n], now)
  }

  /** Never past a skipped lead: its repair will not move its timestamp. */
  function NewWatermark(p: Progress): Time {
    if p.earliestSkipped.Some? then Min(p.maxSeen, p.earliestSkipped.value - 1) else p.maxSeen
  }

  /** `advance_watermark`: monotone on its own, whatever it is given. */
  function Advanced(db: Db, org: OrgId, mark: Time): Db {
    if org !in db.cursors || mark > db.cursors[org] then db.(cursors := db.cursors[org := mark]) else db
  }

  function FinishPoll(org: OrgId, watermark: Time, p: Progress, now: Time): Db {
    var mark := NewWatermark(p);
    var db := if mark > watermark then Advanced(p.db, org, mark) else p.db;
    Published(db, p.events, now)
  }

  /** `poll_once`, given the watermark it read and what the CRM answered to the listing from there. */
  function PollFrom(
      db: Db, org: OrgId, actor: string, since: Time, listing: Result<seq<Snapshot>, Error>, now: Time): Result<Db,
      Error>
  {
    if actor !in ALLOWED_ACTORS then Err(AccessDenied)
    else
      var snapshots :- listing;
      var p :- PollAll(org, Progress(Audited(db, org, actor, "poll", None), since, None, []), snapshots, now);
      Ok(FinishPoll(org, since, p, now))
  }

  /** A poll in one step: from the watermark as it stands. */
  function Poll(db: Db, org: OrgId, actor: string, listing: Result<seq<Snapshot>, Error>, now: Time)
      : Result<Db, Error>
  {
    PollFrom(db, org, actor, Watermark(db, org), listing, now)
  }

  lemma PollFinishes(db: Db, org: OrgId, actor: string, snapshots: seq<Snapshot>, now: Time)
    requires actor in ALLOWED_ACTORS
    ensures var watermark := Watermark(db, org);
            var p := PollAll(org, Progress(Audited(db, org, actor, "poll", None), watermark, None, []), snapshots, now);
            Poll(db, org, actor, Ok(snapshots), now) == if p.Ok? then Ok(FinishPoll(org, watermark, p.value, now))
              else p.PropagateFailure()
  {
  }

  // ---- Resync and push -------------------------------------------------------------------------

  /** `force_resync`, given the CRM's answer for the lead (`None` is a 404). */
  function ForceResync(db: Db, id: LeadId, actor: string, answer: Option<Deal>, now: Time): Result<Db, Error> {
    if id >= |db.leads| then Err(LeadNotFound)
    else if actor !in ALLOWED_ACTORS then Err(AccessDenied)
    else if answer.None? then Err(LeadNotFound)
    else
      var lead := db.leads[id];
      var audited := Audited(db, lead.org, actor, "force_resync", Some(lead.crmLeadId));
      var u :- Upsert(audited, lead.org, Snapshot(lead.crmLeadId, answer.value), now);
      Ok(Published(u.db, u.events, now))
  }

  /** `push_profile_update`, given the deal the CRM returned after writing the stage (`None` is an HTTP error). */
  function PushStage(db: Db, id: LeadId, actor: string, answer: Option<Deal>, now: Time): Result<Db, Error> {
    if id >= |db.leads| then Err(LeadNotFound)
    else if actor !in ALLOWED_ACTORS then Err(AccessDenied)
    else if answer.None? then Err(HttpFailure)
    else
      var lead := db.leads[id];
      var audited := Audited(db, lead.org, actor, "write", Some(lead.crmLeadId));
      var u :- Upsert(audited, lead.org, Snapshot(lead.crmLeadId, answer.value), now);
      Ok(Published(u.db, u.events, now))
  }

  /** What the staleness guard finds when it loads the lead. */
  datatype Verdict = Vanished | Fresh | Stale

  function Judge(db: Db, id: LeadId, bound: Time, at: Time): Verdict {
    if id >= |db.leads| then Vanished
    else if at - db.leads[id].syncedAt > bound then Stale
    else Fresh
  }

  /** What the guard lets its caller decide on, once it has judged: the store as it is, or a refresh. */
  function Guarded(db: Db, id: LeadId, verdict: Verdict, answer: Option<Deal>, now: Time): Result<Db, Error> {
    match verdict
    case Vanished => Err(LeadNotFound)
    case Fresh => Ok(db)
    case Stale => ForceResync(db, id, "staleness_guard", answer, now)
  }

  /** `StalenessGuard.check_before_decision`: resync a mirror older than the bound before deciding on it. */
  function CheckBeforeDecision(db: Db, id: LeadId, bound: Time, answer: Option<Deal>, now: Time): Result<Db, Error> {
    Guarded(db, id, Judge(db, id, bound, now), answer, now)
  }

  // ---- The adapter as written ------------------------------------------------------------------

  /** The lead aggregate with its recorded events. */
  class Lead {
    const id: LeadId
    const org: OrgId
    const crmLeadId: string
    var pipelineStage: PipelineStage
    var leadScore: real
    var assignedBroker: Option<BrokerId>
    var contactReference: Option<string>
    var syncedAt: Time
    var domainEvents: seq<Event>

    function Row(): LeadRow
      reads this
    {
      LeadRow(org, crmLeadId, pipelineStage, leadScore, assignedBroker, contactReference, syncedAt)
    }

    constructor FromRow(id: LeadId, row: LeadRow)
      ensures this.id == id && Row() == row && domainEvents == []
    {
      this.id := id;
      org := row.org;
      crmLeadId := row.crmLeadId;
      pipelineStage := row.stage;
      leadScore := row.score;
      assignedBroker := row.broker;
      contactReference := row.contactReference;
      syncedAt := row.syncedAt;
      domainEvents := [];
    }

    method MarkSynced(stage: PipelineStage, deal: Deal, now: Time)
      modifies this
      ensures Row() == Resynced(old(Row()), deal, stage, now)
      ensures domainEvents == old(domainEvents) + StageEvents(id, old(pipelineStage), Row())
    {
      var stageChanged := stage != pipelineStage;
      pipelineStage := stage;
      leadScore := deal.score;
      assignedBroker := deal.broker;
      if deal.contactReference.Some? {
        contactReference := deal.contactReference;
      }
      syncedAt := now;
      if stageChanged {
        domainEvents := domainEvents + [CRMStageSynced(org, id, crmLeadId, pipelineStage, syncedAt)];
      }
    }

    method PullDomainEvents() returns (events: seq<Event>)
      modifies this`domainEvents
      ensures events == old(domainEvents) && domainEvents == []
    {
      events, domainEvents := domainEvents, [];
    }
  }

  class LeadSyncAdapter {
    const session: Session

    constructor (session: Session)
      ensures this.session == session
    {
      this.session := session;
    }

    /** The attempt is audited whether or not it is allowed. */
    method Authorize(org: OrgId, actor: string, action: string, crmLeadId: Option<string>) returns (allowed: bool)
      modifies session
      ensures allowed <==> actor in ALLOWED_ACTORS
      ensures session.db == Audited(old(session.db), org, actor, action, crmLeadId)
    {
      allowed := actor in ALLOWED_ACTORS;
      session.db := session.db.(audit := session.db.audit + [AuditRow(org, actor, action, crmLeadId, allowed)]);
    }

    method UpsertFromSnapshot(org: OrgId, snapshot: Snapshot, now: Time) returns (r: Result<seq<Event>, Error>)
      modifies session
      ensures r.Ok? ==> var u := Upsert(old(session.db), org, snapshot, now);
                        u.Ok? && session.db == u.value.db && r.value == u.value.events
      ensures r.Err? ==> Upsert(old(session.db), org, snapshot, now) == Err(r.error) && session.db == old(session.db)
    {
      var found := ScalarOneOrNone(LeadsByCrmId(session.db.leads, org, snapshot.crmLeadId), MultipleResults);
      if found.Err? {
        return Err(found.error);
      }
      var stage := ParseStage(snapshot.deal.stage);
      if stage.None? {
        return Err(StageNotInContract);
      }
      if found.value.None? {
        session.db := session.db.(leads := session.db.leads + [NewLead(org, snapshot, stage.value, now)]);
        return Ok([]);
      }
      var id := found.value.value;
      assert id in LeadsByCrmId(session.db.leads, org, snapshot.crmLeadId);
      var lead := new Lead.FromRow(id, session.db.leads[id]);
      lead.MarkSynced(stage.value, snapshot.deal, now);
      session.db := session.db.(leads := session.db.leads[id := lead.Row()]);
      var events := lead.PullDomainEvents();
      r := Ok(events);
    }

    method AdvanceWatermark(org: OrgId, mark: Time)
      modifies session
      ensures session.db == Advanced(old(session.db), org, mark)
      ensures Watermark(session.db, org) >= mark
      ensures org in old(session.db).cursors ==> Watermark(session.db, org) == Max(mark, old(session.db).cursors[org])
    {
      if org !in session.db.cursors {
        session.db := session.db.(cursors := session.db.cursors[org := mark]);
        return;
      }
      if mark > session.db.cursors[org] {
        session.db := session.db.(cursors := session.db.cursors[org := mark]);
      }
    }

    method PollOnce(org: OrgId, actor: string, listing: Result<seq<Snapshot>, Error>, now: Time)
      returns (r: Result<nat, Error>)
      modifies session
      ensures r.Ok? ==> listing.Ok? && r.value == |listing.value|
                        && Poll(old(session.db), org, actor, listing, now) == Ok(session.db)
      ensures r.Err? ==> Poll(old(session.db), org, actor, listing, now) == Err(r.error)
      ensures actor !in ALLOWED_ACTORS ==> session.db == Audited(old(session.db), org, actor, "poll", None)
    {
      var allowed := Authorize(org, actor, "poll", None);
      if !allowed {
        return Err(AccessDenied);
      }
      var watermark := Watermark(session.db, org);
      if listing.Err? {
        return Err(listing.error);
      }
      var snapshots := listing.value;
      ghost var start := Progress(session.db, watermark, None, []);
      var maxSeen := watermark;
      var events: seq<Event> := [];
      var earliestSkipped: Option<Time> := None;
      var i := 0;
      while i < |snapshots|
        invariant 0 <= i <= |snapshots|
        invariant PollAll(org, start, snapshots[..i], now) == Ok(Progress(session.db, maxSeen, earliestSkipped, events))
      {
        PollAllOneMore(org, start, snapshots, i, now);
        var at := snapshots[i].deal.updatedAt;
        var upserted := UpsertFromSnapshot(org, snapshots[i], now);
        if upserted == Err(StageNotInContract) {
          if earliestSkipped.None? || at < earliestSkipped.value {
            earliestSkipped := Some(at);
          }
        } else if upserted.Err? {
          PollAllFailsEarly(org, start, snapshots, now, i + 1);
          return Err(upserted.error);
        } else {
          events := events + upserted.value;
          if at > maxSeen {
            maxSeen := at;
          }
        }
        i := i + 1;
      }
      assert snapshots[..i] == snapshots;
      PollFinishes(old(session.db), org, actor, snapshots, now);
      if earliestSkipped.Some? {
        maxSeen := Min(maxSeen, earliestSkipped.value - 1);
      }
      if maxSeen > watermark {
        AdvanceWatermark(org, maxSeen);
      }
      if events != [] {
        session.Publish(events, now);
      } else {
        assert session.db.outbox + FreshRows([], now) == session.db.outbox;
      }
      r := Ok(|snapshots|);
    }

    method ForceResyncLead(id: LeadId, actor: string, answer: Option<Deal>, now: Time) returns (r: Result<(), Error>)
      modifies session
      ensures r.Ok? ==> ForceResync(old(session.db), id, actor, answer, now) == Ok(session.db)
      ensures r.Err? ==> ForceResync(old(session.db), id, actor, answer, now) == Err(r.error)
    {
      if id >= |session.db.leads| {
        return Err(LeadNotFound);
      }
      var lead := session.db.leads[id];
      var allowed := Authorize(lead.org, actor, "force_resync", Some(lead.crmLeadId));
      if !allowed {
        return Err(AccessDenied);
      }
      if answer.None? {
        return Err(LeadNotFound);
      }
      var upserted := UpsertFromSnapshot(lead.org, Snapshot(lead.crmLeadId, answer.value), now);
      if upserted.Err? {
        return Err(upserted.error);
      }
      if upserted.value != [] {
        session.Publish(upserted.value, now);
      } else {
        assert session.db.outbox + FreshRows([], now) == session.db.outbox;
      }
      r := Ok(());
    }

    method PushProfileUpdate(id: LeadId, actor: string, answer: Option<Deal>, now: Time) returns (r: Result<(), Error>)
      modifies session
      ensures r.Ok? ==> PushStage(old(session.db), id, actor, answer, now) == Ok(session.db)
      ensures r.Err? ==> PushStage(old(session.db), id, actor, answer, now) == Err(r.error)
    {
      if id >= |session.db.leads| {
        return Err(LeadNotFound);
      }
      var lead := session.db.leads[id];
      var allowed := Authorize(lead.org, actor, "write", Some(lead.crmLeadId));
      if !allowed {
        return Err(AccessDenied);
      }
      if answer.None? {
        return Err(HttpFailure);
      }
      var upserted := UpsertFromSnapshot(lead.org, Snapshot(lead.crmLeadId, answer.value), now);
      if upserted.Err? {
        return Err(upserted.error);
      }
      if upserted.value != [] {
        session.Publish(upserted.value, now);
      } else {
        assert session.db.outbox + FreshRows([], now) == session.db.outbox;
      }
      r := Ok(());
    }
  }

  lemma PollAllOneMore(org: OrgId, start: Progress, snapshots: seq<Snapshot>, i: nat, now: Time)
    requires i < |snapshots|
    requires PollAll(org, start, snapshots[..i], now).Ok?
    ensures PollAll(org, start, snapshots[..i + 1], now)
            == PollSnapshot(org, PollAll(org, start, snapshots[..i], now).value, snapshots[i], now)
  {
    assert snapshots[..i + 1][..i] == snapshots[..i];
  }

  /** A poll that fails on some prefix of its snapshots fails as a whole, with the same error. */
  lemma {:induction false} PollAllFailsEarly(org: OrgId, start: Progress, snapshots: seq<Snapshot>, now: Time, n: nat)
    requires n <= |snapshots|
    requires PollAll(org, start, snapshots[..n], now).Err?
    ensures PollAll(org, start, snapshots, now) == PollAll(org, start, snapshots[..n], now)
    decreases |snapshots|
  {
    if n < |snapshots| {
      assert snapshots[..|snapshots| - 1][..n] == snapshots[..n];
      PollAllFailsEarly(org, start, snapshots[..|snapshots| - 1], now, n);
    } else {
      assert snapshots[..n] == snapshots;
    }
  }
}
