/** What polling keeps between the CRM and its local mirror: no lost update, convergence, quiet
    re-polling, and the stage ledger. */
module CrmMirror {
  import opened Prelude
  import opened LeadDomain
  import opened Store
  import opened LeadSync

  /** The unique constraint on (organization, crm lead id). */
  predicate UniqueLeads(leads: seq<LeadRow>) {
    forall i, j :: 0 <= i < j < |leads| ==> leads[i].org != leads[j].org || leads[i].crmLeadId != leads[j].crmLeadId
  }

  predicate IsMirror(row: LeadRow, org: OrgId, crmLeadId: string, deal: Deal) {
    && row.org == org
    && row.crmLeadId == crmLeadId
    && Some(row.stage) == ParseStage(deal.stage)
    && row.score == deal.score
    && row.broker == deal.broker
    && (deal.contactReference.Some? ==> row.contactReference == deal.contactReference)
  }

  predicate Mirrored(leads: seq<LeadRow>, org: OrgId, crmLeadId: string, deal: Deal) {
    exists i :: 0 <= i < |leads| && IsMirror(leads[i], org, crmLeadId, deal)
  }

  predicate StageOk(deal: Deal) { ParseStage(deal.stage).Some? }

  /** The two disagree in a field that a refresh copies into the mirror; an absent contact is never copied. */
  predicate MirroredFieldsDiffer(answer: Deal, deal: Deal) {
    || answer.stage != deal.stage
    || answer.score != deal.score
    || answer.broker != deal.broker
    || (answer.contactReference.Some? && deal.contactReference.Some?
         && answer.contactReference != deal.contactReference)
  }

  /** Every CRM lead at or before the watermark has a valid stage and is mirrored as it stands. */
  predicate NoLostUpdate(db: Db, org: OrgId, crm: Crm) {
    forall id :: id in crm && crm[id].updatedAt <= Watermark(db, org) ==>
                   StageOk(crm[id]) && Mirrored(db.leads, org, id, crm[id])
  }

  /** An atomic answer to "deals updated after `since`", in any order. */
  predicate IsListing(crm: Crm, since: Time, snapshots: seq<Snapshot>) {
    && (forall i :: 0 <= i < |snapshots| ==>
          snapshots[i].crmLeadId in crm && crm[snapshots[i].crmLeadId] == snapshots[i].deal
            && snapshots[i].deal.updatedAt > since)
    && DistinctDeals(snapshots)
    && (forall id :: id in crm && crm[id].updatedAt > since ==> Listed(snapshots, id))
  }

  predicate DistinctDeals(snapshots: seq<Snapshot>) {
    forall i, j :: 0 <= i < j < |snapshots| ==> snapshots[i].crmLeadId != snapshots[j].crmLeadId
  }

  /** An answer that was given when the latest stamp of the CRM was `asOf`, and that the CRM may have moved on from:
      what has no later stamp is in it with its stamp, and is still the same unless its stage was invalid then. */
  predicate IsDatedListing(crm: Crm, since: Time, asOf: Time, snapshots: seq<Snapshot>) {
    && AreNew(snapshots, since)
    && (forall i :: 0 <= i < |snapshots| ==> snapshots[i].deal.updatedAt <= asOf)
    && (forall i :: 0 <= i < |snapshots| && snapshots[i].crmLeadId in crm ==>
         crm[snapshots[i].crmLeadId].updatedAt > since)
    && (forall id :: id in crm && since < crm[id].updatedAt <= asOf ==> ListedAs(snapshots, id, crm[id]))
  }

  /** Different deals, all stamped after `since`. */
  predicate AreNew(snapshots: seq<Snapshot>, since: Time) {
    DistinctDeals(snapshots) && forall i :: 0 <= i < |snapshots| ==> snapshots[i].deal.updatedAt > since
  }

  predicate ListedAs(snapshots: seq<Snapshot>, id: string, deal: Deal) {
    exists i :: 0 <= i < |snapshots| && IsSnapshotOf(snapshots[i], id, deal)
  }

  predicate IsSnapshotOf(s: Snapshot, id: string, deal: Deal) {
    s.crmLeadId == id && s.deal.updatedAt == deal.updatedAt && (StageOk(s.deal) ==> s.deal == deal)
  }

  /** A current listing is a dated one. */
  lemma ListingIsDated(crm: Crm, since: Time, asOf: Time, snapshots: seq<Snapshot>)
    requires IsListing(crm, since, snapshots)
    requires forall i :: 0 <= i < |snapshots| ==> snapshots[i].deal.updatedAt <= asOf
    ensures IsDatedListing(crm, since, asOf, snapshots)
  {
    forall id | id in crm && since < crm[id].updatedAt <= asOf ensures ListedAs(snapshots, id, crm[id]) {
      var i :| 0 <= i < |snapshots| && snapshots[i].crmLeadId == id;
      assert IsSnapshotOf(snapshots[i], id, crm[id]);
    }
  }

  lemma {:induction false} LatestStamp(snapshots: seq<Snapshot>) returns (asOf: Time)
    ensures forall i :: 0 <= i < |snapshots| ==> snapshots[i].deal.updatedAt <= asOf
  {
    asOf := 0;
    if snapshots != [] {
      var n := |snapshots| - 1;
      var before := LatestStamp(snapshots[..n]);
      asOf := Max(before, snapshots[n].deal.updatedAt);
    }
  }

  predicate Listed(snapshots: seq<Snapshot>, id: string) {
    exists i :: 0 <= i < |snapshots| && snapshots[i].crmLeadId == id
  }

  // ---- One upsert ------------------------------------------------------------------------------

  lemma FoundLead(leads: seq<LeadRow>, org: OrgId, crmLeadId: string)
    requires UniqueLeads(leads)
    ensures |LeadsByCrmId(leads, org, crmLeadId)| <= 1
    ensures ScalarOneOrNone<Error>(LeadsByCrmId(leads, org, crmLeadId), MultipleResults).Ok?
  {
    var found := LeadsByCrmId(leads, org, crmLeadId);
    if found != {} {
      var i :| i in found;
      assert found == {i};
    }
  }

  /** An upsert succeeds exactly on a stage of the contract; it then mirrors the deal, touches at
      most the row of that deal, and appends at most one row, the deal's own. */
  lemma UpsertEffect(db: Db, org: OrgId, snapshot: Snapshot, now: Time)
    requires UniqueLeads(db.leads)
    ensures Upsert(db, org, snapshot, now) == Err(StageNotInContract) <==> !StageOk(snapshot.deal)
    ensures Upsert(db, org, snapshot, now).Ok? <==> StageOk(snapshot.deal)
    ensures Upsert(db, org, snapshot, now).Ok? ==>
              var u := Upsert(db, org, snapshot, now).value;
              && u.db == db.(leads := u.db.leads)
              && UniqueLeads(u.db.leads)
              && u.id < |u.db.leads|
              && IsMirror(u.db.leads[u.id], org, snapshot.crmLeadId, snapshot.deal)
              && u.db.leads[u.id].syncedAt == now
              && |db.leads| <= |u.db.leads| <= |db.leads| + 1
              && (u.id == |db.leads| <==> |u.db.leads| == |db.leads| + 1)
              && (forall i :: 0 <= i < |db.leads| && i != u.id ==> u.db.leads[i] == db.leads[i])
              && (u.id < |db.leads| ==> db.leads[u.id].org == org && db.leads[u.id].crmLeadId == snapshot.crmLeadId)
              && (snapshot.deal.contactReference.None? ==>
                    u.db.leads[u.id].contactReference
                    == if u.id < |db.leads| then db.leads[u.id].contactReference else None)
              && u.events == if u.id == |db.leads| then []
                   else StageEvents(u.id, db.leads[u.id].stage, u.db.leads[u.id])
  {
    FoundLead(db.leads, org, snapshot.crmLeadId);
    var found := ScalarOneOrNone<Error>(LeadsByCrmId(db.leads, org, snapshot.crmLeadId), MultipleResults).value;
    if found.Some? {
      assert found.value in LeadsByCrmId(db.leads, org, snapshot.crmLeadId);
    } else {
      forall i | 0 <= i < |db.leads|
        ensures db.leads[i].org != org || db.leads[i].crmLeadId != snapshot.crmLeadId
      {
        assert i !in LeadsByCrmId(db.leads, org, snapshot.crmLeadId);
      }
    }
  }

  /** An upsert never loses the mirror of another deal. */
  lemma UpsertKeepsOthers(db: Db, org: OrgId, snapshot: Snapshot, now: Time, otherOrg: OrgId, id: string, deal: Deal)
    requires UniqueLeads(db.leads)
    requires Upsert(db, org, snapshot, now).Ok?
    requires Mirrored(db.leads, otherOrg, id, deal)
    requires otherOrg != org || id != snapshot.crmLeadId
    ensures Mirrored(Upsert(db, org, snapshot, now).value.db.leads, otherOrg, id, deal)
  {
    UpsertEffect(db, org, snapshot, now);
    var i :| 0 <= i < |db.leads| && IsMirror(db.leads[i], otherOrg, id, deal);
    assert IsMirror(Upsert(db, org, snapshot, now).value.db.leads[i], otherOrg, id, deal);
  }

  // ---- A whole poll ----------------------------------------------------------------------------

  /** Where the leads stand after a poll handled `done`: rows of other deals as they were, every good deal mirrored. */
  ghost predicate RowsSoFar(org: OrgId, before: seq<LeadRow>, done: seq<Snapshot>, leads: seq<LeadRow>) {
    && UniqueLeads(leads)
    && |before| <= |leads|
    && (forall i :: 0 <= i < |leads| && RowUntouched(leads[i], org, done) ==> i < |before| && leads[i] == before[i])
    && (forall i :: 0 <= i < |before| ==> leads[i].org == before[i].org && leads[i].crmLeadId == before[i].crmLeadId)
    && (forall j :: 0 <= j < |done| && StageOk(done[j].deal) ==> Mirrored(leads, org, done[j].crmLeadId, done[j].deal))
  }

  predicate IsStamp(done: seq<Snapshot>, good: bool, at: Time) {
    exists j :: 0 <= j < |done| && StageOk(done[j].deal) == good && done[j].deal.updatedAt == at
  }

  /** Where its two marks stand: the latest good stamp and the earliest bad one. */
  ghost predicate MarksSoFar(from: Time, done: seq<Snapshot>, maxSeen: Time, earliestSkipped: Option<Time>) {
    && from <= maxSeen
    && (maxSeen == from || IsStamp(done, true, maxSeen))
    && (earliestSkipped.Some? ==> IsStamp(done, false, earliestSkipped.value))
    && (forall j :: 0 <= j < |done| && StageOk(done[j].deal) ==> done[j].deal.updatedAt <= maxSeen)
    && (forall j :: 0 <= j < |done| && !StageOk(done[j].deal) ==>
         earliestSkipped.Some? && earliestSkipped.value <= done[j].deal.updatedAt)
  }

  /** Where a poll stands after handling `done` of distinct snapshots newer than its start. */
  ghost predicate PollInv(org: OrgId, start: Progress, done: seq<Snapshot>, p: Progress) {
    && p.db == start.db.(leads := p.db.leads)
    && RowsSoFar(org, start.db.leads, done, p.db.leads)
    && MarksSoFar(start.maxSeen, done, p.maxSeen, p.earliestSkipped)
  }

  predicate RowUntouched(row: LeadRow, org: OrgId, done: seq<Snapshot>) {
    row.org != org || !Listed(done, row.crmLeadId)
  }

  lemma {:induction false} PollAllInv(org: OrgId, start: Progress, snapshots: seq<Snapshot>, now: Time)
    requires UniqueLeads(start.db.leads) && start.earliestSkipped.None?
    requires DistinctDeals(snapshots)
    ensures PollAll(org, start, snapshots, now).Ok?
    ensures PollInv(org, start, snapshots, PollAll(org, start, snapshots, now).value)
    decreases |snapshots|
  {
    if snapshots == [] {
      NothingPolled(org, start);
    } else {
      var before, s := Last(snapshots);
      PollAllInv(org, start, before, now);
      PollLast(org, start, before, s, now);
      PollStep(org, start, before, s, PollAll(org, start, before, now).value, now);
    }
  }

  /** Splitting off the last of distinct snapshots. */
  lemma Last(snapshots: seq<Snapshot>) returns (before: seq<Snapshot>, s: Snapshot)
    requires snapshots != [] && DistinctDeals(snapshots)
    ensures before == snapshots[..|snapshots| - 1] && s == snapshots[|snapshots| - 1]
    ensures snapshots == before + [s] && |before| < |snapshots| && DistinctDeals(before)
  {
    before, s := snapshots[..|snapshots| - 1], snapshots[|snapshots| - 1];
  }

  lemma PollLast(org: OrgId, start: Progress, before: seq<Snapshot>, s: Snapshot, now: Time)
    requires PollAll(org, start, before, now).Ok?
    ensures PollAll(org, start, before + [s], now) == PollSnapshot(org, PollAll(org, start, before, now).value, s, now)
  {
    assert (before + [s])[..|before|] == before;
  }

  lemma NothingPolled(org: OrgId, start: Progress)
    requires UniqueLeads(start.db.leads) && start.earliestSkipped.None?
    ensures PollInv(org, start, [], start)
  {
  }

  lemma StampsRemain(done: seq<Snapshot>, s: Snapshot, good: bool, at: Time)
    ensures IsStamp(done, good, at) ==> IsStamp(done + [s], good, at)
    ensures StageOk(s.deal) == good && s.deal.updatedAt == at ==> IsStamp(done + [s], good, at)
  {
    var all := done + [s];
    assert all[|done|] == s;
    if IsStamp(done, good, at) {
      var j :| 0 <= j < |done| && StageOk(done[j].deal) == good && done[j].deal.updatedAt == at;
      assert all[j] == done[j];
    }
  }

  lemma MarksStep(from: Time, done: seq<Snapshot>, s: Snapshot, maxSeen: Time, earliestSkipped: Option<Time>)
    requires MarksSoFar(from, done, maxSeen, earliestSkipped)
    ensures StageOk(s.deal) ==> MarksSoFar(from, done + [s], Max(maxSeen, s.deal.updatedAt), earliestSkipped)
    ensures !StageOk(s.deal) ==>
              MarksSoFar(from, done + [s], maxSeen,
                         if earliestSkipped.None? || s.deal.updatedAt < earliestSkipped.value
                         then Some(s.deal.updatedAt) else earliestSkipped)
  {
    StampsRemain(done, s, true, maxSeen);
    StampsRemain(done, s, true, s.deal.updatedAt);
    StampsRemain(done, s, false, s.deal.updatedAt);
    if earliestSkipped.Some? { StampsRemain(done, s, false, earliestSkipped.value); }
    assert forall j :: 0 <= j < |done| ==> (done + [s])[j] == done[j];
  }

  lemma ListedRemain(done: seq<Snapshot>, s: Snapshot, id: string)
    ensures Listed(done + [s], id) <==> Listed(done, id) || id == s.crmLeadId
  {
    var all := done + [s];
    assert all[|done|] == s;
    if Listed(done, id) {
      var i :| 0 <= i < |done| && done[i].crmLeadId == id;
      assert all[i].crmLeadId == id;
    }
  }

  /** A bad snapshot leaves the rows alone. */
  lemma RowsAfterSkip(org: OrgId, before: seq<LeadRow>, done: seq<Snapshot>, s: Snapshot, leads: seq<LeadRow>)
    requires RowsSoFar(org, before, done, leads) && !StageOk(s.deal)
    ensures RowsSoFar(org, before, done + [s], leads)
  {
    forall i | 0 <= i < |leads| && RowUntouched(leads[i], org, done + [s]) ensures RowUntouched(leads[i], org, done) {
      ListedRemain(done, s, leads[i].crmLeadId);
    }
    assert forall j :: 0 <= j < |done| ==> (done + [s])[j] == done[j];
  }

  /** A good one writes its own row only. */
  lemma RowsAfterUpsert(org: OrgId, before: seq<LeadRow>, done: seq<Snapshot>, s: Snapshot, db: Db, now: Time)
    requires RowsSoFar(org, before, done, db.leads) && StageOk(s.deal)
    requires DistinctDeals(done + [s])
    ensures Upsert(db, org, s, now).Ok?
    ensures RowsSoFar(org, before, done + [s], Upsert(db, org, s, now).value.db.leads)
  {
    UpsertEffect(db, org, s, now);
    var u := Upsert(db, org, s, now).value;
    var all := done + [s];
    assert all[|done|] == s && forall j :: 0 <= j < |done| ==> all[j] == done[j];
    forall i | 0 <= i < |u.db.leads| && RowUntouched(u.db.leads[i], org, all)
      ensures i < |before| && u.db.leads[i] == before[i]
    {
      ListedRemain(done, s, u.db.leads[i].crmLeadId);
      assert i != u.id;
      assert RowUntouched(db.leads[i], org, done);
    }
    forall j | 0 <= j < |all| && StageOk(all[j].deal) ensures Mirrored(u.db.leads, org, all[j].crmLeadId, all[j].deal) {
      if j < |done| {
        assert all[j].crmLeadId != all[|done|].crmLeadId;
        UpsertKeepsOthers(db, org, s, now, org, done[j].crmLeadId, done[j].deal);
      } else {
        assert IsMirror(u.db.leads[u.id], org, s.crmLeadId, s.deal);
      }
    }
  }

  lemma PollStep(org: OrgId, start: Progress, done: seq<Snapshot>, s: Snapshot, p: Progress, now: Time)
    requires PollInv(org, start, done, p)
    requires DistinctDeals(done + [s])
    ensures PollSnapshot(org, p, s, now).Ok?
    ensures PollInv(org, start, done + [s], PollSnapshot(org, p, s, now).value)
  {
    MarksStep(start.maxSeen, done, s, p.maxSeen, p.earliestSkipped);
    if StageOk(s.deal) {
      RowsAfterUpsert(org, start.db.leads, done, s, p.db, now);
      UpsertWritesLeads(p.db, org, s, now);
    } else {
      UpsertEffect(p.db, org, s, now);
      RowsAfterSkip(org, start.db.leads, done, s, p.db.leads);
    }
  }

  lemma UpsertWritesLeads(db: Db, org: OrgId, s: Snapshot, now: Time)
    requires Upsert(db, org, s, now).Ok?
    ensures var r := Upsert(db, org, s, now).value.db; r == db.(leads := r.leads)
  {
  }

  /** The start of a poll of `org` on `db` that has read the watermark `since`. */
  function PollStart(db: Db, org: OrgId, since: Time): Progress {
    Progress(Audited(db, org, "system.sync_worker", "poll", None), since, None, [])
  }

  function CommittedPoll(db: Db, org: OrgId, snapshots: seq<Snapshot>, now: Time): Result<Db, Error> {
    Poll(db, org, "system.sync_worker", Ok(snapshots), now)
  }

  function ResumedPoll(db: Db, org: OrgId, since: Time, snapshots: seq<Snapshot>, now: Time): Result<Db, Error> {
    PollFrom(db, org, "system.sync_worker", since, Ok(snapshots), now)
  }

  /** A watermark an earlier state may have had: it has not fallen since. */
  predicate WasWatermark(db: Db, org: OrgId, since: Time) {
    since <= Watermark(db, org) && (org !in db.cursors ==> since == Watermark(db, org))
  }

  /** The poll's final progress and how the stored watermark follows from it. */
  lemma PollOutcome(db: Db, org: OrgId, since: Time, snapshots: seq<Snapshot>, now: Time)
    requires UniqueLeads(db.leads)
    requires WasWatermark(db, org, since) && AreNew(snapshots, since)
    ensures PollAll(org, PollStart(db, org, since), snapshots, now).Ok?
    ensures var p := PollAll(org, PollStart(db, org, since), snapshots, now).value;
            && PollInv(org, PollStart(db, org, since), snapshots, p)
            && ResumedPoll(db, org, since, snapshots, now) == Ok(FinishPoll(org, since, p, now))
            && var r := FinishPoll(org, since, p, now);
            && NewWatermark(p) >= since
            && Watermark(r, org) == Max(Watermark(db, org), NewWatermark(p))
            && r.leads == p.db.leads
            && Log(r.outbox) == Log(db.outbox) + p.events
            && (forall other :: other != org ==> Watermark(r, other) == Watermark(db, other))
            && (forall i :: 0 <= i < |db.outbox| ==> r.outbox[i] == db.outbox[i])
            && r.audit == db.audit + [AuditRow(org, "system.sync_worker", "poll", None, true)]
  {
    var start := PollStart(db, org, since);
    PollAllInv(org, start, snapshots, now);
    var p := PollAll(org, start, snapshots, now).value;
    MarkDoesNotFall(since, snapshots, p);
    FinishEffect(db, org, since, p, now);
  }

  lemma MarkDoesNotFall(since: Time, snapshots: seq<Snapshot>, p: Progress)
    requires MarksSoFar(since, snapshots, p.maxSeen, p.earliestSkipped)
    requires forall i :: 0 <= i < |snapshots| ==> snapshots[i].deal.updatedAt > since
    ensures NewWatermark(p) >= since
  {
  }

  /** What the end of a poll writes besides the leads: its organization's watermark and its events. */
  lemma FinishEffect(db: Db, org: OrgId, since: Time, p: Progress, now: Time)
    requires p.db == PollStart(db, org, since).db.(leads := p.db.leads)
    requires WasWatermark(db, org, since) && NewWatermark(p) >= since
    ensures var r := FinishPoll(org, since, p, now);
            && Watermark(r, org) == Max(Watermark(db, org), NewWatermark(p))
            && r.leads == p.db.leads
            && Log(r.outbox) == Log(db.outbox) + p.events
            && (forall other :: other != org ==> Watermark(r, other) == Watermark(db, other))
            && (forall i :: 0 <= i < |db.outbox| ==> r.outbox[i] == db.outbox[i])
            && r.audit == db.audit + [AuditRow(org, "system.sync_worker", "poll", None, true)]
  {
  }

  /** The main safety step: a committed poll of one organization loses no update of any. */
  lemma PollLosesNothing(db: Db, org: OrgId, crm: Crm, snapshots: seq<Snapshot>, now: Time, other: OrgId, otherCrm: Crm)
    requires UniqueLeads(db.leads)
    requires IsListing(crm, Watermark(db, org), snapshots)
    requires NoLostUpdate(db, other, otherCrm)
    requires other == org ==> otherCrm == crm
    ensures CommittedPoll(db, org, snapshots, now).Ok?
    ensures var r := CommittedPoll(db, org, snapshots, now).value;
            UniqueLeads(r.leads) && NoLostUpdate(r, other, otherCrm) && Watermark(r, other) >= Watermark(db, other)
  {
    var asOf := LatestStamp(snapshots);
    ListingIsDated(crm, Watermark(db, org), asOf, snapshots);
    DatedPollLosesNothing(db, org, crm, asOf, snapshots, now, other, otherCrm);
  }

  /** So does a poll that commits a listing the CRM has moved on from: it moves the watermark no further than the CRM's
      clock stood at the listing, and up to there the listing is still true. */
  lemma DatedPollLosesNothing(
      db: Db, org: OrgId, crm: Crm, asOf: Time, snapshots: seq<Snapshot>, now: Time, other: OrgId, otherCrm: Crm)
    requires UniqueLeads(db.leads)
    requires IsDatedListing(crm, Watermark(db, org), asOf, snapshots)
    requires NoLostUpdate(db, other, otherCrm)
    requires other == org ==> otherCrm == crm
    ensures CommittedPoll(db, org, snapshots, now).Ok?
    ensures var r := CommittedPoll(db, org, snapshots, now).value;
            UniqueLeads(r.leads) && NoLostUpdate(r, other, otherCrm) && Watermark(r, other) >= Watermark(db, other)
  {
    PollOutcome(db, org, Watermark(db, org), snapshots, now);
    var p := PollAll(org, PollStart(db, org, Watermark(db, org)), snapshots, now).value;
    var r := CommittedPoll(db, org, snapshots, now).value;
    forall id | id in otherCrm && otherCrm[id].updatedAt <= Watermark(r, other)
      ensures StageOk(otherCrm[id]) && Mirrored(r.leads, other, id, otherCrm[id])
    {
      if other == org && otherCrm[id].updatedAt > Watermark(db, org) {
        MarkIsDated(Watermark(db, org), snapshots, p, asOf);
        var j :| 0 <= j < |snapshots| && IsSnapshotOf(snapshots[j], id, crm[id]);
        assert StageOk(snapshots[j].deal);
      } else {
        var i :| 0 <= i < |db.leads| && IsMirror(db.leads[i], other, id, otherCrm[id]);
        assert RowUntouched(p.db.leads[i], org, snapshots);
        assert IsMirror(r.leads[i], other, id, otherCrm[id]);
      }
    }
  }

  /** A poll moves the watermark only to stamps of its listing. */
  lemma MarkIsDated(since: Time, snapshots: seq<Snapshot>, p: Progress, asOf: Time)
    requires MarksSoFar(since, snapshots, p.maxSeen, p.earliestSkipped)
    requires forall i :: 0 <= i < |snapshots| ==> snapshots[i].deal.updatedAt <= asOf
    ensures NewWatermark(p) <= Max(since, asOf)
  {
  }

  /** With every stage valid, one committed poll mirrors the whole CRM and leaves nothing to fetch. */
  lemma PollConverges(db: Db, org: OrgId, crm: Crm, snapshots: seq<Snapshot>, now: Time)
    requires UniqueLeads(db.leads) && NoLostUpdate(db, org, crm)
    requires IsListing(crm, Watermark(db, org), snapshots)
    requires forall id :: id in crm ==> StageOk(crm[id])
    ensures CommittedPoll(db, org, snapshots, now).Ok?
    ensures var r := CommittedPoll(db, org, snapshots, now).value;
            && (forall id :: id in crm ==> Mirrored(r.leads, org, id, crm[id]))
            && (forall again: seq<Snapshot> :: IsListing(crm, Watermark(r, org), again) <==> again == [])
  {
    PollLosesNothing(db, org, crm, snapshots, now, org, crm);
    PollOutcome(db, org, Watermark(db, org), snapshots, now);
    var r := CommittedPoll(db, org, snapshots, now).value;
    forall id | id in crm ensures crm[id].updatedAt <= Watermark(r, org) && Mirrored(r.leads, org, id, crm[id]) {
      if crm[id].updatedAt > Watermark(db, org) {
        var j :| 0 <= j < |snapshots| && snapshots[j].crmLeadId == id;
        assert StageOk(snapshots[j].deal);
      }
    }
    forall again: seq<Snapshot> ensures IsListing(crm, Watermark(r, org), again) <==> again == [] {
      if again != [] {
        var id := again[0].crmLeadId;
        assert id in crm ==> crm[id].updatedAt <= Watermark(r, org);
      }
    }
  }

  // ---- Re-polling ------------------------------------------------------------------------------

  /** The same rows, except that some were confirmed again at another time. */
  predicate SameButFresher(leads: seq<LeadRow>, after: seq<LeadRow>) {
    && |leads| == |after|
    && forall i :: 0 <= i < |leads| ==> after[i] == leads[i].(syncedAt := after[i].syncedAt)
  }

  lemma {:induction false} MirroredPollIsQuiet(org: OrgId, start: Progress, snapshots: seq<Snapshot>, now: Time)
    requires UniqueLeads(start.db.leads)
    requires forall j :: 0 <= j < |snapshots| && StageOk(snapshots[j].deal) ==>
                           Mirrored(start.db.leads, org, snapshots[j].crmLeadId, snapshots[j].deal)
    ensures PollAll(org, start, snapshots, now).Ok?
    ensures var p := PollAll(org, start, snapshots, now).value;
            p.events == start.events && SameButFresher(start.db.leads, p.db.leads) && UniqueLeads(p.db.leads)
    decreases |snapshots|
  {
    if snapshots != [] {
      var n := |snapshots| - 1;
      var s := snapshots[n];
      MirroredPollIsQuiet(org, start, snapshots[..n], now);
      var p := PollAll(org, start, snapshots[..n], now).value;
      UpsertEffect(p.db, org, s, now);
      if StageOk(s.deal) {
        var i :| 0 <= i < |start.db.leads| && IsMirror(start.db.leads[i], org, s.crmLeadId, s.deal);
        assert i in LeadsByCrmId(p.db.leads, org, s.crmLeadId);
        FoundLead(p.db.leads, org, s.crmLeadId);
        var u := Upsert(p.db, org, s, now).value;
        assert u.id in LeadsByCrmId(p.db.leads, org, s.crmLeadId);
        assert u.id == i;
        assert IsMirror(p.db.leads[i], org, s.crmLeadId, s.deal);
      }
    }
  }

  /** Polling again with nothing changed in the CRM - even with bad stages still there - publishes
      nothing, moves no watermark, and changes no lead but its sync time. */
  lemma RepollIsQuiet(db: Db, org: OrgId, crm: Crm, first: seq<Snapshot>, t1: Time, second: seq<Snapshot>, t2: Time)
    requires UniqueLeads(db.leads)
    requires IsListing(crm, Watermark(db, org), first)
    requires CommittedPoll(db, org, first, t1).Ok?
    requires IsListing(crm, Watermark(CommittedPoll(db, org, first, t1).value, org), second)
    ensures var r1 := CommittedPoll(db, org, first, t1).value;
            && CommittedPoll(r1, org, second, t2).Ok?
            && var r2 := CommittedPoll(r1, org, second, t2).value;
            && r2.outbox == r1.outbox
            && Watermark(r2, org) == Watermark(r1, org)
            && SameButFresher(r1.leads, r2.leads)
  {
    PollOutcome(db, org, Watermark(db, org), first, t1);
    var r1 := CommittedPoll(db, org, first, t1).value;
    var p1 := PollAll(org, PollStart(db, org, Watermark(db, org)), first, t1).value;
    RelistedWasListed(crm, Watermark(db, org), first, Watermark(r1, org), second);
    MirroredPollIsQuiet(org, PollStart(r1, org, Watermark(r1, org)), second, t2);
    PollOutcome(r1, org, Watermark(r1, org), second, t2);
    var p2 := PollAll(org, PollStart(r1, org, Watermark(r1, org)), second, t2).value;
    RepollMovesNoWatermark(org, crm, PollStart(db, org, Watermark(db, org)), first, p1,
      PollStart(r1, org, Watermark(r1, org)), second, p2);
    assert r1.outbox + FreshRows([], t2) == r1.outbox;
  }

  /** What a later listing of an unchanged CRM returns was in the earlier one. */
  lemma RelistedWasListed(crm: Crm, since: Time, first: seq<Snapshot>, later: Time, second: seq<Snapshot>)
    requires since <= later
    requires IsListing(crm, since, first) && IsListing(crm, later, second)
    ensures forall j :: 0 <= j < |second| ==> second[j] in first
    ensures forall i :: 0 <= i < |first| && first[i].deal.updatedAt > later ==> first[i] in second
  {
  }

  /** The second poll finds the same earliest bad lead, and no good lead beyond what the first saw. */
  lemma RepollMovesNoWatermark(
    org: OrgId, crm: Crm, start1: Progress, first: seq<Snapshot>, p1: Progress, start2: Progress,
    second: seq<Snapshot>, p2: Progress)
    requires IsListing(crm, start1.maxSeen, first) && PollInv(org, start1, first, p1)
    requires start2.maxSeen == NewWatermark(p1)
    requires IsListing(crm, start2.maxSeen, second) && PollInv(org, start2, second, p2)
    requires start1.maxSeen <= start2.maxSeen
    requires forall j :: 0 <= j < |second| ==> second[j] in first
    requires forall i :: 0 <= i < |first| && first[i].deal.updatedAt > start2.maxSeen ==> first[i] in second
    ensures NewWatermark(p2) <= NewWatermark(p1)
  {
  }

  // ---- The stage ledger ------------------------------------------------------------------------

  function StageSel(id: LeadId): Event -> Option<PipelineStage> {
    (e: Event) => if e.CRMStageSynced? && e.leadId == id then Some(e.stage) else None
  }

  /** Stages a lead went through according to the log, from the stage it was first mirrored with. */
  function StageHistory(birth: PipelineStage, log: seq<Event>, id: LeadId): (h: seq<PipelineStage>)
    ensures |h| >= 1
  {
    [birth] + Project(log, StageSel(id))
  }

  predicate LedgerOf(birth: PipelineStage, log: seq<Event>, id: LeadId, row: LeadRow) {
    var h := StageHistory(birth, log, id);
    && h[|h| - 1] == row.stage
    && forall k :: 0 <= k < |h| - 1 ==> h[k] != h[k + 1]
  }

  /** Stage events name existing leads only, and every lead's history is exact. */
  ghost predicate Ledger(births: seq<PipelineStage>, leads: seq<LeadRow>, log: seq<Event>) {
    && |births| == |leads|
    && (forall i :: 0 <= i < |log| && log[i].CRMStageSynced? ==> log[i].leadId < |leads|)
    && forall id: nat :: id < |leads| ==> LedgerOf(births[id], log, id, leads[id])
  }

  /** The births after a step that left `leads`: the new rows are born with the stage they have. */
  function BirthsAfter(births: seq<PipelineStage>, leads: seq<LeadRow>): (r: seq<PipelineStage>)
    ensures |births| <= |leads| ==> |r| == |leads|
  {
    if |births| <= |leads| then
      births + seq(|leads| - |births|, i requires 0 <= i < |leads| - |births| => leads[|births| + i].stage)
    else births
  }

  /** Events that are not about a lead leave its history alone. */
  lemma OtherEventsKeepLedger(birth: PipelineStage, log: seq<Event>, events: seq<Event>, id: LeadId, row: LeadRow)
    requires LedgerOf(birth, log, id, row)
    requires forall i :: 0 <= i < |events| ==> StageSel(id)(events[i]) == None
    ensures LedgerOf(birth, log + events, id, row)
  {
    ProjectConcat(log, events, StageSel(id));
    ProjectNothing(events, StageSel(id));
    assert StageHistory(birth, log + events, id) == StageHistory(birth, log, id);
  }

  /** The event an update publishes for a lead is exactly the change of its stage. */
  lemma StageEventsKeepLedger(birth: PipelineStage, log: seq<Event>, id: LeadId, before: LeadRow, after: LeadRow)
    requires LedgerOf(birth, log, id, before)
    ensures LedgerOf(birth, log + StageEvents(id, before.stage, after), id, after)
  {
    var events := StageEvents(id, before.stage, after);
    ProjectConcat(log, events, StageSel(id));
    var h := StageHistory(birth, log, id);
    if events != [] {
      ProjectOne(events[0], StageSel(id));
      assert Project(events, StageSel(id)) == [after.stage];
      assert StageHistory(birth, log + events, id) == h + [after.stage];
    } else {
      assert StageHistory(birth, log + events, id) == h;
    }
  }

  /** A lead no event ever named has the history of its birth alone. */
  lemma NewbornLedger(log: seq<Event>, id: LeadId, row: LeadRow)
    requires forall i :: 0 <= i < |log| && log[i].CRMStageSynced? ==> log[i].leadId < id
    ensures LedgerOf(row.stage, log, id, row)
  {
    ProjectNothing(log, StageSel(id));
    assert StageHistory(row.stage, log, id) == [row.stage];
  }

  lemma UpsertKeepsLedger(
      births: seq<PipelineStage>, db: Db, org: OrgId, snapshot: Snapshot, now: Time, log: seq<Event>)
    requires UniqueLeads(db.leads)
    requires Ledger(births, db.leads, log)
    requires Upsert(db, org, snapshot, now).Ok?
    ensures var u := Upsert(db, org, snapshot, now).value;
            Ledger(BirthsAfter(births, u.db.leads), u.db.leads, log + u.events)
  {
    UpsertEffect(db, org, snapshot, now);
    var u := Upsert(db, org, snapshot, now).value;
    var born := BirthsAfter(births, u.db.leads);
    forall id: nat | id < |u.db.leads| ensures LedgerOf(born[id], log + u.events, id, u.db.leads[id]) {
      if id == |db.leads| {
        NewbornLedger(log, id, u.db.leads[id]);
        assert log + u.events == log;
      } else if id == u.id {
        StageEventsKeepLedger(births[id], log, id, db.leads[id], u.db.leads[id]);
      } else {
        OtherEventsKeepLedger(births[id], log, u.events, id, db.leads[id]);
      }
    }
  }

  /** A row created by a poll is not touched again by the same poll. */
  lemma NewRowsAreNotTouchedAgain(
      org: OrgId, start: Progress, before: seq<Snapshot>, s: Snapshot, p: Progress, now: Time)
    requires PollInv(org, start, before, p)
    requires DistinctDeals(before + [s]) && StageOk(s.deal)
    ensures Upsert(p.db, org, s, now).Ok?
    ensures NewRowsStand(|start.db.leads|, p.db.leads, Upsert(p.db, org, s, now).value.db.leads)
  {
    UpsertEffect(p.db, org, s, now);
    var u := Upsert(p.db, org, s, now).value;
    forall j | 0 <= j < |before| ensures before[j].crmLeadId != s.crmLeadId {
      assert (before + [s])[j].crmLeadId != (before + [s])[|before|].crmLeadId;
    }
    assert u.id < |p.db.leads| ==> RowUntouched(p.db.leads[u.id], org, before);
  }

  lemma BirthsAfterTwice(births: seq<PipelineStage>, middle: seq<LeadRow>, leads: seq<LeadRow>)
    requires |births| <= |middle| <= |leads|
    requires forall i :: |births| <= i < |middle| ==> middle[i].stage == leads[i].stage
    ensures BirthsAfter(BirthsAfter(births, middle), leads) == BirthsAfter(births, leads)
  {
    var twice, once := BirthsAfter(BirthsAfter(births, middle), leads), BirthsAfter(births, leads);
    assert |twice| == |once| == |leads|;
    forall i | 0 <= i < |leads| ensures twice[i] == once[i] {
      BirthAt(births, leads, i);
      BirthAt(BirthsAfter(births, middle), leads, i);
      if i < |middle| { BirthAt(births, middle, i); }
    }
  }

  lemma BirthAt(births: seq<PipelineStage>, leads: seq<LeadRow>, i: nat)
    requires |births| <= |leads| && i < |leads|
    ensures BirthsAfter(births, leads)[i] == if i < |births| then births[i] else leads[i].stage
  {
  }

  /** The progress a poll has made before its last snapshot, as far as the ledger cares. */
  lemma BeforeLastSnapshot(org: OrgId, start: Progress, snapshots: seq<Snapshot>, now: Time) returns (p: Progress)
    requires UniqueLeads(start.db.leads) && start.earliestSkipped.None?
    requires DistinctDeals(snapshots) && snapshots != []
    ensures PollAll(org, start, snapshots[..|snapshots| - 1], now) == Ok(p)
    ensures UniqueLeads(p.db.leads) && |start.db.leads| <= |p.db.leads|
    ensures var s := snapshots[|snapshots| - 1];
            Upsert(p.db, org, s, now).Ok? ==>
              NewRowsStand(|start.db.leads|, p.db.leads, Upsert(p.db, org, s, now).value.db.leads)
  {
    var before, s := Last(snapshots);
    PollAllInv(org, start, before, now);
    p := PollAll(org, start, before, now).value;
    if StageOk(s.deal) {
      NewRowsAreNotTouchedAgain(org, start, before, s, p, now);
    } else {
      UpsertEffect(p.db, org, s, now);
    }
  }

  predicate NewRowsStand(from: nat, leads: seq<LeadRow>, after: seq<LeadRow>) {
    |leads| <= |after| && forall i :: from <= i < |leads| ==> after[i] == leads[i]
  }

  /** The ledger across a poll: every history stays exact, and rows created on the way are born once. */
  lemma {:induction false} PollKeepsLedger(
    births: seq<PipelineStage>, org: OrgId, start: Progress, snapshots: seq<Snapshot>, now: Time, log: seq<Event>)
    requires UniqueLeads(start.db.leads) && start.earliestSkipped.None? && start.events == []
    requires DistinctDeals(snapshots)
    requires Ledger(births, start.db.leads, log)
    ensures PollAll(org, start, snapshots, now).Ok?
    ensures PollLedger(births, PollAll(org, start, snapshots, now).value, log)
    decreases |snapshots|
  {
    if snapshots == [] {
      assert log + [] == log;
      assert BirthsAfter(births, start.db.leads) == births;
    } else {
      var p := BeforeLastSnapshot(org, start, snapshots, now);
      PollKeepsLedger(births, org, start, snapshots[..|snapshots| - 1], now, log);
      PollStepKeepsLedger(births, org, p, snapshots[|snapshots| - 1], now, log);
    }
  }

  ghost predicate PollLedger(births: seq<PipelineStage>, p: Progress, log: seq<Event>) {
    Ledger(BirthsAfter(births, p.db.leads), p.db.leads, log + p.events)
  }

  lemma PollStepKeepsLedger(
      births: seq<PipelineStage>, org: OrgId, p: Progress, s: Snapshot, now: Time, log: seq<Event>)
    requires UniqueLeads(p.db.leads) && |births| <= |p.db.leads|
    requires Upsert(p.db, org, s, now).Ok? ==>
             NewRowsStand(|births|, p.db.leads, Upsert(p.db, org, s, now).value.db.leads)
    requires PollLedger(births, p, log)
    ensures PollSnapshot(org, p, s, now).Ok?
    ensures PollLedger(births, PollSnapshot(org, p, s, now).value, log)
  {
    if StageOk(s.deal) {
      UpsertEffect(p.db, org, s, now);
      var u := Upsert(p.db, org, s, now).value;
      var born := BirthsAfter(births, p.db.leads);
      UpsertKeepsLedger(born, p.db, org, s, now, log + p.events);
      BirthsAfterTwice(births, p.db.leads, u.db.leads);
      assert log + (p.events + u.events) == log + p.events + u.events;
    } else {
      UpsertEffect(p.db, org, s, now);
    }
  }

  // ---- What the stage events say ---------------------------------------------------------------

  /** The event of a stage change names the lead as it is stored, with its new stage and the time of the sync. */
  predicate TellsStage(e: Event, leads: seq<LeadRow>, now: Time) {
    && e.CRMStageSynced? && e.leadId < |leads|
    && var row := leads[e.leadId];
    && e.org == row.org && e.crmLeadId == row.crmLeadId && e.stage == row.stage && e.syncedAt == row.syncedAt == now
  }

  lemma UpsertTells(db: Db, org: OrgId, snapshot: Snapshot, now: Time)
    requires UniqueLeads(db.leads) && Upsert(db, org, snapshot, now).Ok?
    ensures var u := Upsert(db, org, snapshot, now).value;
            && (u.events == [] <==> u.id == |db.leads| || u.db.leads[u.id].stage == db.leads[u.id].stage)
            && |u.events| <= 1
            && (u.events != [] ==> u.events[0].CRMStageSynced? && u.events[0].leadId == u.id
                                   && TellsStage(u.events[0], u.db.leads, now))
  {
    UpsertEffect(db, org, snapshot, now);
  }

  ghost predicate AllTell(events: seq<Event>, leads: seq<LeadRow>, org: OrgId, done: seq<Snapshot>, now: Time) {
    forall i :: 0 <= i < |events| ==>
      && TellsStage(events[i], leads, now)
      && events[i].org == org && Listed(done, events[i].crmLeadId)
  }

  /** Every event of a poll is a stage change of a lead it listed, told as the lead is stored when the poll is done. */
  lemma {:induction false} PollTells(org: OrgId, start: Progress, snapshots: seq<Snapshot>, now: Time)
    requires UniqueLeads(start.db.leads) && start.earliestSkipped.None? && start.events == []
    requires DistinctDeals(snapshots)
    ensures PollAll(org, start, snapshots, now).Ok?
    ensures var p := PollAll(org, start, snapshots, now).value; AllTell(p.events, p.db.leads, org, snapshots, now)
    decreases |snapshots|
  {
    if snapshots != [] {
      var before, s := Last(snapshots);
      PollAllInv(org, start, before, now);
      PollTells(org, start, before, now);
      PollLast(org, start, before, s, now);
      StepTells(org, PollAll(org, start, before, now).value, before, s, now);
    }
  }

  lemma StepTells(org: OrgId, p: Progress, before: seq<Snapshot>, s: Snapshot, now: Time)
    requires UniqueLeads(p.db.leads) && DistinctDeals(before + [s])
    requires AllTell(p.events, p.db.leads, org, before, now)
    ensures PollSnapshot(org, p, s, now).Ok?
    ensures var q := PollSnapshot(org, p, s, now).value; AllTell(q.events, q.db.leads, org, before + [s], now)
  {
    UpsertEffect(p.db, org, s, now);
    var q := PollSnapshot(org, p, s, now).value;
    if StageOk(s.deal) { UpsertTells(p.db, org, s, now); }
    forall i | 0 <= i < |q.events|
      ensures TellsStage(q.events[i], q.db.leads, now) && q.events[i].org == org
              && Listed(before + [s], q.events[i].crmLeadId)
    {
      ListedRemain(before, s, q.events[i].crmLeadId);
      if i < |p.events| {
        NotAgain(before, s, p.events[i].crmLeadId);
        assert q.events[i] == p.events[i];
      }
    }
  }

  lemma NotAgain(before: seq<Snapshot>, s: Snapshot, id: string)
    requires DistinctDeals(before + [s]) && Listed(before, id)
    ensures id != s.crmLeadId
  {
    var i :| 0 <= i < |before| && before[i].crmLeadId == id;
    assert (before + [s])[i].crmLeadId != (before + [s])[|before|].crmLeadId;
  }

  /** A refresh that changes the stage says so in one event, and is silent otherwise. */
  lemma RefreshTells(db: Db, id: LeadId, actor: string, answer: Option<Deal>, now: Time)
    requires UniqueLeads(db.leads) && ForceResync(db, id, actor, answer, now).Ok?
    ensures id < |db.leads|
    ensures var r := ForceResync(db, id, actor, answer, now).value;
            && id < |r.leads|
            && (r.leads[id].stage == db.leads[id].stage ==> Log(r.outbox) == Log(db.outbox))
            && (r.leads[id].stage != db.leads[id].stage ==>
                  && |r.outbox| == |db.outbox| + 1 && Log(r.outbox)[..|db.outbox|] == Log(db.outbox)
                  && TellsStage(r.outbox[|db.outbox|].event, r.leads, now)
                  && r.outbox[|db.outbox|].event.leadId == id)
  {
    ResyncMirrors(db, id, actor, answer, now);
    var r := ForceResync(db, id, actor, answer, now).value;
    if r.leads[id].stage != db.leads[id].stage {
      assert r.outbox[|db.outbox|].event == Log(r.outbox)[|db.outbox|];
    }
  }

  // ---- Where a poll leaves the watermark -------------------------------------------------------

  predicate IsGoodFrom(s: Snapshot, at: Time) { StageOk(s.deal) && s.deal.updatedAt >= at }

  predicate IsBadUpTo(s: Snapshot, at: Time) { !StageOk(s.deal) && s.deal.updatedAt <= at }

  /** A committed poll has passed a moment exactly when it had been passed before, or some good snapshot is stamped then
      or later and no bad one then or earlier. */
  lemma WatermarkPasses(db: Db, org: OrgId, since: Time, snapshots: seq<Snapshot>, now: Time, at: Time)
    requires UniqueLeads(db.leads) && WasWatermark(db, org, since) && AreNew(snapshots, since)
    ensures ResumedPoll(db, org, since, snapshots, now).Ok?
    ensures at <= Watermark(ResumedPoll(db, org, since, snapshots, now).value, org) <==>
            || at <= Watermark(db, org)
            || (&& (exists j :: 0 <= j < |snapshots| && IsGoodFrom(snapshots[j], at))
                && (forall j :: 0 <= j < |snapshots| ==> !IsBadUpTo(snapshots[j], at)))
  {
    PollOutcome(db, org, since, snapshots, now);
    var p := PollAll(org, PollStart(db, org, since), snapshots, now).value;
    MarkPasses(since, snapshots, p, at);
  }

  lemma MarkPasses(since: Time, snapshots: seq<Snapshot>, p: Progress, at: Time)
    requires MarksSoFar(since, snapshots, p.maxSeen, p.earliestSkipped)
    requires forall j :: 0 <= j < |snapshots| ==> snapshots[j].deal.updatedAt > since
    ensures at <= NewWatermark(p) <==>
            || at <= since
            || (&& (exists j :: 0 <= j < |snapshots| && IsGoodFrom(snapshots[j], at))
                && (forall j :: 0 <= j < |snapshots| ==> !IsBadUpTo(snapshots[j], at)))
  {
    if at <= NewWatermark(p) && at > since {
      assert IsStamp(snapshots, true, p.maxSeen);
      var j :| 0 <= j < |snapshots| && StageOk(snapshots[j].deal) && snapshots[j].deal.updatedAt == p.maxSeen;
      assert IsGoodFrom(snapshots[j], at);
    }
    if p.earliestSkipped.Some? && at >= p.earliestSkipped.value {
      var j :| 0 <= j < |snapshots| && !StageOk(snapshots[j].deal)
        && snapshots[j].deal.updatedAt == p.earliestSkipped.value;
      assert IsBadUpTo(snapshots[j], at);
    }
  }

  // ---- How polls and refreshes are refused -----------------------------------------------------

  /** A poll is refused for its actor first, then for its listing; a refresh for its lead, its actor and its answer, in
      that order - a vanished deal is a vanished lead to a resync and an HTTP failure to a push - and last for a stage
      outside the contract. */
  lemma RefusedFor(db: Db, org: OrgId, id: LeadId, actor: string, listing: Error, answer: Option<Deal>, now: Time)
    requires UniqueLeads(db.leads)
    ensures Poll(db, org, actor, Err(listing), now) == Err(if actor in ALLOWED_ACTORS then listing else AccessDenied)
    ensures var r := ForceResync(db, id, actor, answer, now);
            || r.Ok?
            || r == Err(if id >= |db.leads| then LeadNotFound
                        else if actor !in ALLOWED_ACTORS then AccessDenied
                        else if answer.None? then LeadNotFound else StageNotInContract)
    ensures var r := PushStage(db, id, actor, answer, now);
            || r.Ok?
            || r == Err(if id >= |db.leads| then LeadNotFound
                        else if actor !in ALLOWED_ACTORS then AccessDenied
                        else if answer.None? then HttpFailure else StageNotInContract)
  {
    if id < |db.leads| && actor in ALLOWED_ACTORS && answer.Some? {
      var lead := db.leads[id];
      UpsertEffect(Audited(db, lead.org, actor, "force_resync", Some(lead.crmLeadId)), lead.org,
                   Snapshot(lead.crmLeadId, answer.value), now);
      UpsertEffect(Audited(db, lead.org, actor, "write", Some(lead.crmLeadId)), lead.org,
                   Snapshot(lead.crmLeadId, answer.value), now);
    }
  }

  // ---- Resync and push -------------------------------------------------------------------------

  /** A resync or a push that commits leaves the lead mirroring the deal the CRM answered with, and fresh. */
  lemma ResyncMirrors(db: Db, id: LeadId, actor: string, answer: Option<Deal>, now: Time)
    requires UniqueLeads(db.leads)
    ensures ForceResync(db, id, actor, answer, now).Ok? <==>
            id < |db.leads| && actor in ALLOWED_ACTORS && answer.Some? && StageOk(answer.value)
    ensures ForceResync(db, id, actor, answer, now).Ok? ==>
              var r := ForceResync(db, id, actor, answer, now).value;
              && UniqueLeads(r.leads)
              && |r.leads| == |db.leads|
              && IsMirror(r.leads[id], db.leads[id].org, db.leads[id].crmLeadId, answer.value)
              && r.leads[id].syncedAt == now
              && (forall i :: 0 <= i < |db.leads| && i != id ==> r.leads[i] == db.leads[i])
              && Log(r.outbox) == Log(db.outbox) + StageEvents(id, db.leads[id].stage, r.leads[id])
              && r == db.(leads := r.leads, outbox := r.outbox, audit := r.audit)
              && |db.outbox| <= |r.outbox| && r.outbox[..|db.outbox|] == db.outbox
              && r.audit == db.audit
                            + [AuditRow(db.leads[id].org, actor, "force_resync", Some(db.leads[id].crmLeadId), true)]
  {
    if id < |db.leads| && actor in ALLOWED_ACTORS && answer.Some? {
      var lead := db.leads[id];
      var audited := Audited(db, lead.org, actor, "force_resync", Some(lead.crmLeadId));
      var s := Snapshot(lead.crmLeadId, answer.value);
      UpsertEffect(audited, lead.org, s, now);
      assert id in LeadsByCrmId(audited.leads, lead.org, lead.crmLeadId);
      FoundLead(audited.leads, lead.org, lead.crmLeadId);
      if StageOk(answer.value) {
        assert Upsert(audited, lead.org, s, now).value.id in LeadsByCrmId(audited.leads, lead.org, lead.crmLeadId);
      }
    }
  }

  lemma RefreshedRow(db: Db, id: LeadId, actor: string, answer: Deal, now: Time)
    requires UniqueLeads(db.leads) && id < |db.leads|
    requires ForceResync(db, id, actor, Some(answer), now).Ok?
    ensures StageOk(answer)
    ensures ForceResync(db, id, actor, Some(answer), now).value.leads
         == db.leads[id := Resynced(db.leads[id], answer, ParseStage(answer.stage).value, now)]
  {
    ResyncMirrors(db, id, actor, Some(answer), now);
    var lead := db.leads[id];
    var audited := Audited(db, lead.org, actor, "force_resync", Some(lead.crmLeadId));
    assert id in LeadsByCrmId(audited.leads, lead.org, lead.crmLeadId);
    FoundLead(audited.leads, lead.org, lead.crmLeadId);
    var found := ScalarOneOrNone<Error>(LeadsByCrmId(audited.leads, lead.org, lead.crmLeadId), MultipleResults).value;
    assert found == Some(id);
  }

  /** Refreshing one row keeps what was promised of an organization's CRM exactly when the answer has the mirrored
      fields of the row's deal, as far as the watermark has passed it. A row keeps the contact an answer lacks, so that
      does no harm. */
  lemma RewrittenRow(db: Db, r: Db, id: LeadId, answer: Deal, now: Time, org: OrgId, crm: Crm)
    requires UniqueLeads(db.leads) && id < |db.leads| && StageOk(answer)
    requires r.leads == db.leads[id := Resynced(db.leads[id], answer, ParseStage(answer.stage).value, now)]
    requires Watermark(r, org) == Watermark(db, org)
    requires NoLostUpdate(db, org, crm)
    ensures var key := db.leads[id].crmLeadId;
            NoLostUpdate(r, org, crm) <==>
            !(db.leads[id].org == org && key in crm && crm[key].updatedAt <= Watermark(db, org)
              && MirroredFieldsDiffer(answer, crm[key]))
  {
    var key := db.leads[id].crmLeadId;
    if db.leads[id].org == org && key in crm && crm[key].updatedAt <= Watermark(db, org)
       && MirroredFieldsDiffer(answer, crm[key])
    {
      assert !IsMirror(r.leads[id], org, key, crm[key]);
      forall i | 0 <= i < |r.leads| && i != id ensures !IsMirror(r.leads[i], org, key, crm[key]) {
        assert r.leads[i] == db.leads[i];
      }
      assert !Mirrored(r.leads, org, key, crm[key]);
    } else {
      forall k | k in crm && crm[k].updatedAt <= Watermark(r, org)
        ensures StageOk(crm[k]) && Mirrored(r.leads, org, k, crm[k])
      {
        var i :| 0 <= i < |db.leads| && IsMirror(db.leads[i], org, k, crm[k]);
        assert IsMirror(r.leads[i], org, k, crm[k]);
      }
    }
  }

  /** A push writes the mirror exactly as a resync on the same answer would; only the audit row differs. */
  lemma PushIsAResync(db: Db, id: LeadId, answer: Option<Deal>, now: Time)
    requires UniqueLeads(db.leads)
    ensures PushStage(db, id, "system.event_bus", answer, now).Ok? <==>
            ForceResync(db, id, "system.event_bus", answer, now).Ok?
    ensures PushStage(db, id, "system.event_bus", answer, now).Ok? ==>
              var pushed := PushStage(db, id, "system.event_bus", answer, now).value;
              var resynced := ForceResync(db, id, "system.event_bus", answer, now).value;
              && pushed == resynced.(audit := pushed.audit)
              && pushed.audit == db.audit
                    + [AuditRow(db.leads[id].org, "system.event_bus", "write", Some(db.leads[id].crmLeadId), true)]
  {
  }

  /** The guard never lets a decision run on a mirror older than the bound: it leaves a fresh lead alone and brings a
      stale one up to the CRM's answer. */
  lemma GuardedLeadIsFresh(db: Db, id: LeadId, bound: Time, answer: Option<Deal>, now: Time)
    requires UniqueLeads(db.leads)
    requires 0 <= bound
    requires CheckBeforeDecision(db, id, bound, answer, now).Ok?
    ensures var r := CheckBeforeDecision(db, id, bound, answer, now).value;
            && id < |r.leads| && now - r.leads[id].syncedAt <= bound
            && (now - db.leads[id].syncedAt <= bound ==> r == db)
            && (now - db.leads[id].syncedAt > bound ==>
                 answer.Some? && IsMirror(r.leads[id], db.leads[id].org, db.leads[id].crmLeadId, answer.value))
  {
    ResyncMirrors(db, id, "staleness_guard", answer, now);
  }
}
