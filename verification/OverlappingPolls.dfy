/** Polls of one organization that overlap: what the one that commits last leaves of every row, and what it loses. Each
    poll read its own watermark and its own listing, and any of them may be the last to commit; the CRM and the other
    polls have moved on by then. */
module OverlappingPolls {
  import opened Prelude
  import opened LeadDomain
  import opened Store
  import opened LeadSync
  import opened CrmMirror

  // ---- Every row after a poll ------------------------------------------------------------------

  /** The snapshot has a stage of the contract and is of the row's deal. */
  predicate Rewrites(s: Snapshot, org: OrgId, row: LeadRow) {
    StageOk(s.deal) && row.org == org && row.crmLeadId == s.crmLeadId
  }

  function RewrittenBy(s: Snapshot, row: LeadRow, now: Time): LeadRow
    requires StageOk(s.deal)
  {
    Resynced(row, s.deal, ParseStage(s.deal.stage).value, now)
  }

  /** Rewritten by the one good snapshot of its deal, or as it was. */
  ghost predicate RowAfter(org: OrgId, done: seq<Snapshot>, now: Time, before: LeadRow, row: LeadRow) {
    && (forall j :: 0 <= j < |done| && Rewrites(done[j], org, before) ==> row == RewrittenBy(done[j], before, now))
    && ((forall j :: 0 <= j < |done| ==> !Rewrites(done[j], org, before)) ==> row == before)
  }

  ghost predicate RowsAfter(org: OrgId, done: seq<Snapshot>, now: Time, before: seq<LeadRow>, leads: seq<LeadRow>) {
    |before| <= |leads| && forall i :: 0 <= i < |before| ==> RowAfter(org, done, now, before[i], leads[i])
  }

  lemma UpsertRewrites(db: Db, org: OrgId, s: Snapshot, now: Time, i: nat)
    requires UniqueLeads(db.leads) && StageOk(s.deal) && i < |db.leads|
    ensures Upsert(db, org, s, now).Ok?
    ensures var leads := Upsert(db, org, s, now).value.db.leads;
            i < |leads| && leads[i] == if Rewrites(s, org, db.leads[i]) then RewrittenBy(s, db.leads[i], now)
              else db.leads[i]
  {
    FoundLead(db.leads, org, s.crmLeadId);
    if Rewrites(s, org, db.leads[i]) {
      assert i in LeadsByCrmId(db.leads, org, s.crmLeadId);
    } else {
      assert i !in LeadsByCrmId(db.leads, org, s.crmLeadId);
    }
  }

  lemma OneMoreSnapshot(org: OrgId, done: seq<Snapshot>, s: Snapshot, now: Time, before: LeadRow, row: LeadRow)
    requires DistinctDeals(done + [s])
    requires RowAfter(org, done, now, before, row)
    requires row.org == before.org && row.crmLeadId == before.crmLeadId
    ensures RowAfter(org, done + [s], now, before, if Rewrites(s, org, row) then RewrittenBy(s, row, now) else row)
  {
    var all := done + [s];
    assert all[|done|] == s && forall j :: 0 <= j < |done| ==> all[j] == done[j];
    if Rewrites(s, org, row) {
      forall j | 0 <= j < |done| ensures !Rewrites(done[j], org, before) {
        assert all[j].crmLeadId != all[|done|].crmLeadId;
      }
    }
  }

  lemma {:induction false} PollRewrites(org: OrgId, start: Progress, snapshots: seq<Snapshot>, now: Time)
    requires UniqueLeads(start.db.leads) && start.earliestSkipped.None?
    requires DistinctDeals(snapshots)
    ensures PollAll(org, start, snapshots, now).Ok?
    ensures RowsAfter(org, snapshots, now, start.db.leads, PollAll(org, start, snapshots, now).value.db.leads)
    decreases |snapshots|
  {
    if snapshots != [] {
      var done, s := Last(snapshots);
      PollAllInv(org, start, done, now);
      PollRewrites(org, start, done, now);
      PollLast(org, start, done, s, now);
      LastRewrites(org, start.db.leads, done, s, PollAll(org, start, done, now).value, now);
    }
  }

  lemma LastRewrites(org: OrgId, before: seq<LeadRow>, done: seq<Snapshot>, s: Snapshot, p: Progress, now: Time)
    requires DistinctDeals(done + [s])
    requires RowsSoFar(org, before, done, p.db.leads) && RowsAfter(org, done, now, before, p.db.leads)
    ensures PollSnapshot(org, p, s, now).Ok?
    ensures RowsAfter(org, done + [s], now, before, PollSnapshot(org, p, s, now).value.db.leads)
  {
    UpsertEffect(p.db, org, s, now);
    var after := PollSnapshot(org, p, s, now).value.db.leads;
    forall i | 0 <= i < |before| ensures RowAfter(org, done + [s], now, before[i], after[i]) {
      OneMoreSnapshot(org, done, s, now, before[i], p.db.leads[i]);
      if StageOk(s.deal) { UpsertRewrites(p.db, org, s, now, i); }
    }
  }

  // ---- What the later commit loses -------------------------------------------------------------

  /** The answer for a deal that has been edited since, and whose edit the watermark has passed. */
  predicate IsOutdated(s: Snapshot, crm: Crm, watermark: Time) {
    && StageOk(s.deal)
    && s.crmLeadId in crm && crm[s.crmLeadId].updatedAt <= watermark
    && MirroredFieldsDiffer(s.deal, crm[s.crmLeadId])
  }

  predicate NoneOutdated(snapshots: seq<Snapshot>, crm: Crm, watermark: Time) {
    forall j :: 0 <= j < |snapshots| ==> !IsOutdated(snapshots[j], crm, watermark)
  }

  /** A row that mirrors a deal, after a rewrite: it mirrors the deal still exactly when no mirrored field differs. */
  lemma RewriteMirrors(s: Snapshot, org: OrgId, row: LeadRow, now: Time, deal: Deal)
    requires StageOk(s.deal) && StageOk(deal) && IsMirror(row, org, s.crmLeadId, deal)
    ensures IsMirror(RewrittenBy(s, row, now), org, s.crmLeadId, deal) <==> !MirroredFieldsDiffer(s.deal, deal)
  {
  }

  /** Old updates, at or below the watermark the poll found: kept unless a snapshot is outdated. */
  lemma OldUpdatesKept(
      org: OrgId, snapshots: seq<Snapshot>, now: Time, before: seq<LeadRow>, leads: seq<LeadRow>, crm: Crm,
      watermark: Time,
      id: string)
    requires RowsAfter(org, snapshots, now, before, leads)
    requires NoneOutdated(snapshots, crm, watermark)
    requires id in crm && crm[id].updatedAt <= watermark && StageOk(crm[id]) && Mirrored(before, org, id, crm[id])
    ensures Mirrored(leads, org, id, crm[id])
  {
    var i :| 0 <= i < |before| && IsMirror(before[i], org, id, crm[id]);
    assert RowAfter(org, snapshots, now, before[i], leads[i]);
    if j :| 0 <= j < |snapshots| && Rewrites(snapshots[j], org, before[i]) {
      RewriteMirrors(snapshots[j], org, before[i], now, crm[id]);
      assert !IsOutdated(snapshots[j], crm, watermark);
    }
    assert IsMirror(leads[i], org, id, crm[id]);
  }

  lemma OutdatedLoses(
      org: OrgId, snapshots: seq<Snapshot>, now: Time, before: seq<LeadRow>, leads: seq<LeadRow>, crm: Crm,
      watermark: Time, j: nat)
    requires RowsAfter(org, snapshots, now, before, leads) && UniqueLeads(leads)
    requires j < |snapshots| && IsOutdated(snapshots[j], crm, watermark)
    requires var id := snapshots[j].crmLeadId; StageOk(crm[id]) && Mirrored(before, org, id, crm[id])
    ensures !Mirrored(leads, org, snapshots[j].crmLeadId, crm[snapshots[j].crmLeadId])
  {
    var id := snapshots[j].crmLeadId;
    var i :| 0 <= i < |before| && IsMirror(before[i], org, id, crm[id]);
    assert RowAfter(org, snapshots, now, before[i], leads[i]);
    RewriteMirrors(snapshots[j], org, before[i], now, crm[id]);
    assert !IsMirror(leads[i], org, id, crm[id]);
    forall k | 0 <= k < |leads| && k != i ensures !IsMirror(leads[k], org, id, crm[id]) {
      assert leads[i].org == org && leads[i].crmLeadId == id;
    }
  }

  /** New updates, between the watermark the poll found and the one it leaves: mirrored by the poll itself. */
  lemma NewUpdatesMirrored(
      org: OrgId, since: Time, snapshots: seq<Snapshot>, p: Progress, before: seq<LeadRow>, crm: Crm, asOf: Time,
      id: string)
    requires IsDatedListing(crm, since, asOf, snapshots)
    requires RowsSoFar(org, before, snapshots, p.db.leads) && MarksSoFar(since, snapshots, p.maxSeen, p.earliestSkipped)
    requires id in crm && since < crm[id].updatedAt <= NewWatermark(p)
    ensures StageOk(crm[id]) && Mirrored(p.db.leads, org, id, crm[id])
  {
    MarkIsDated(since, snapshots, p, asOf);
    var j :| 0 <= j < |snapshots| && IsSnapshotOf(snapshots[j], id, crm[id]);
    assert StageOk(snapshots[j].deal);
  }

  /** A poll that commits over others keeps its organization's promise exactly when none of its snapshots is outdated:
      none differs in a mirrored field from a deal that the watermark has passed by now. */
  lemma OverlappingPoll(db: Db, org: OrgId, since: Time, crm: Crm, asOf: Time, snapshots: seq<Snapshot>, now: Time)
    requires UniqueLeads(db.leads) && WasWatermark(db, org, since)
    requires IsDatedListing(crm, since, asOf, snapshots)
    requires NoLostUpdate(db, org, crm)
    ensures ResumedPoll(db, org, since, snapshots, now).Ok?
    ensures var r := ResumedPoll(db, org, since, snapshots, now).value;
            && UniqueLeads(r.leads)
            && Watermark(r, org) >= Watermark(db, org)
            && (NoLostUpdate(r, org, crm) <==> NoneOutdated(snapshots, crm, Watermark(db, org)))
  {
    PollOutcome(db, org, since, snapshots, now);
    var p := PollAll(org, PollStart(db, org, since), snapshots, now).value;
    PollRewrites(org, PollStart(db, org, since), snapshots, now);
    var r := ResumedPoll(db, org, since, snapshots, now).value;
    if NoneOutdated(snapshots, crm, Watermark(db, org)) {
      forall id | id in crm && crm[id].updatedAt <= Watermark(r, org)
        ensures StageOk(crm[id]) && Mirrored(r.leads, org, id, crm[id])
      {
        if crm[id].updatedAt <= Watermark(db, org) {
          OldUpdatesKept(org, snapshots, now, db.leads, r.leads, crm, Watermark(db, org), id);
        } else {
          NewUpdatesMirrored(org, since, snapshots, p, db.leads, crm, asOf, id);
        }
      }
    } else {
      var j :| 0 <= j < |snapshots| && IsOutdated(snapshots[j], crm, Watermark(db, org));
      OutdatedLoses(org, snapshots, now, db.leads, r.leads, crm, Watermark(db, org), j);
    }
  }

  /** It touches no promise of another organization. */
  lemma OverlappingPollElsewhere(
      db: Db, org: OrgId, since: Time, snapshots: seq<Snapshot>, now: Time, other: OrgId, otherCrm: Crm)
    requires UniqueLeads(db.leads) && WasWatermark(db, org, since) && AreNew(snapshots, since)
    requires other != org && NoLostUpdate(db, other, otherCrm)
    ensures ResumedPoll(db, org, since, snapshots, now).Ok?
    ensures var r := ResumedPoll(db, org, since, snapshots, now).value;
            NoLostUpdate(r, other, otherCrm) && Watermark(r, other) == Watermark(db, other)
  {
    PollOutcome(db, org, since, snapshots, now);
    var p := PollAll(org, PollStart(db, org, since), snapshots, now).value;
    var r := ResumedPoll(db, org, since, snapshots, now).value;
    forall id | id in otherCrm && otherCrm[id].updatedAt <= Watermark(r, other)
      ensures StageOk(otherCrm[id]) && Mirrored(r.leads, other, id, otherCrm[id])
    {
      var i :| 0 <= i < |db.leads| && IsMirror(db.leads[i], other, id, otherCrm[id]);
      assert RowUntouched(p.db.leads[i], org, snapshots);
      assert IsMirror(r.leads[i], other, id, otherCrm[id]);
    }
  }

  /** Under the watermark it was listed for, no snapshot can be outdated. */
  lemma UnmovedIsCurrent(crm: Crm, since: Time, asOf: Time, snapshots: seq<Snapshot>)
    requires IsDatedListing(crm, since, asOf, snapshots)
    ensures NoneOutdated(snapshots, crm, since)
  {
  }
}
