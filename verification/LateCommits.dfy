/** CRM calls and their commits as two steps: exactly when a late refresh, or a poll over another poll, loses an
    update. */
module LateCommits {
  import opened Prelude
  import opened LeadDomain
  import opened Store
  import opened LeadSync
  import opened CrmMirror
  import opened OverlappingPolls
  import opened ProfileCapture
  import opened RecommendationHandler
  import opened BusRuns
  import opened LeadToSales
  import opened LeadTables
  import opened DataInvariant
  import opened SystemInvariant
  import opened SystemRuns
  import opened Lifecycle

  /** A step of the system as before; a refresh that loads its lead at time `at`, a guard judging it then, and asks the
      CRM for its deal; a poll that reads its watermark and asks the CRM for the deals after it; or the commit of what
      was asked at position `asked` of the run. */
  datatype LateStep =
    | Atomic(step: Step)
    | Ask(lead: LeadId, at: Time)
    | AskAll(org: OrgId)
    | CommitLate(asked: nat, step: Step)

  function DealOf(s: Sys, org: OrgId, id: string): Option<Deal> {
    if id in CrmOf(s.crm, org) then Some(CrmOf(s.crm, org)[id]) else None
  }

  predicate IsPoll(step: Step) { step.Transact? && step.txn.PollCrm? }

  /** A poll, a resync on its own, or a handler that pushes the stage or recommends; by now the push at the CRM is an
      edit of its own. */
  ghost predicate CanCommit(s: Sys, step: Step) {
    match step
    case Transact(txn) => txn.Resync? || (txn.PollCrm? && txn.listing.Ok?)
    case Handle(w, env) =>
      CanRun(s, w, env) && env.stamp.None? && (TxnOf(s, w, env).Push? || TxnOf(s, w, env).Recommend?)
    case _ => false
  }

  ghost function Whole(s: Sys, step: Step): (txn: Txn)
    requires CanCommit(s, step)
    ensures txn.PollCrm? || txn.Resync? || txn.Push? || txn.Recommend?
  {
    if step.Transact? then step.txn else TxnOf(s, step.worker, step.env)
  }

  /** The answer is the CRM's, for the deal of the lead the refresh has loaded; the guard may have found the lead
      gone. */
  predicate IsAnswer(earlier: Sys, lead: LeadId, answer: Option<Deal>) {
    answer.Some? ==>
      && lead < |earlier.db.leads|
      && answer == DealOf(earlier, earlier.db.leads[lead].org, earlier.db.leads[lead].crmLeadId)
  }

  /** What is committed was asked for at an earlier point of the run. */
  ghost predicate WasAsked(earlier: Sys, ask: LateStep, txn: Txn)
    requires txn.PollCrm? || txn.Resync? || txn.Push? || txn.Recommend?
  {
    if txn.PollCrm? then
      && ask == AskAll(txn.org)
      && (txn.listing.Ok? ==> IsListing(CrmOf(earlier.crm, txn.org), Watermark(earlier.db, txn.org), txn.listing.value))
    else
      && ask.Ask? && ask.lead == txn.lead
      && (txn.lead < |earlier.db.leads| || txn.Recommend?)
      && IsAnswer(earlier, txn.lead, txn.answer)
  }

  ghost predicate IsLate(states: seq<Sys>, steps: seq<LateStep>, k: nat)
    requires k < |steps| < |states| && steps[k].CommitLate?
  {
    var asked, step := steps[k].asked, steps[k].step;
    && asked < k && CanCommit(states[k], step)
    && WasAsked(states[asked], steps[asked], Whole(states[k], step))
  }

  /** What the commit attempts: a poll from the watermark it read, a recommendation on the verdict of its guard - both
      as they were when the CRM was asked - and nothing when the handler raises first. */
  ghost function Attempt(config: Config, earlier: Sys, ask: LateStep, s: Sys, step: Step): (txn: Txn)
    requires CanCommit(s, step) && WasAsked(earlier, ask, Whole(s, step))
    ensures txn == Nothing || txn.ResumePoll? || txn.Resync? || txn.Push? || txn.ResumeRecommend?
    ensures IsPoll(step) <==> txn.ResumePoll?
  {
    var txn := Whole(s, step);
    if step.Handle? && step.env.raises.Some? then Nothing
    else
      match txn
      case PollCrm(org, listing, now) => ResumePoll(org, Watermark(earlier.db, org), listing, now)
      case Recommend(org, lead, answer, text, now) =>
        ResumeRecommend(org, lead, Judge(earlier.db, lead, config.bound, ask.at), answer, text, now)
      case _ => txn
  }

  ghost function Committed(config: Config, earlier: Sys, ask: LateStep, s: Sys, step: Step): Sys
    requires CanCommit(s, step) && WasAsked(earlier, ask, Whole(s, step))
  {
    var txn := Attempt(config, earlier, ask, s, step);
    if step.Transact? then Transacted(config, s, txn) else HandledAs(config, s, step.worker, step.env, txn)
  }

  ghost function AttemptAt(config: Config, states: seq<Sys>, steps: seq<LateStep>, k: nat): (txn: Txn)
    requires k < |steps| < |states| && steps[k].CommitLate? && IsLate(states, steps, k)
    ensures txn == Nothing || txn.ResumePoll? || txn.Resync? || txn.Push? || txn.ResumeRecommend?
  {
    Attempt(config, states[steps[k].asked], steps[steps[k].asked], states[k], steps[k].step)
  }

  ghost predicate Follows(config: Config, states: seq<Sys>, steps: seq<LateStep>, k: nat)
    requires k < |steps| < |states|
  {
    match steps[k]
    case Atomic(step) => Possible(states[k], step) && states[k + 1] == Next(config, states[k], step)
    case Ask(_, _) => states[k + 1] == states[k]
    case AskAll(_) => states[k + 1] == states[k]
    case CommitLate(asked, step) =>
      && IsLate(states, steps, k)
      && states[k + 1] == Committed(config, states[asked], steps[asked], states[k], step)
  }

  ghost predicate IsLateRun(config: Config, states: seq<Sys>, steps: seq<LateStep>) {
    && |states| == |steps| + 1
    && Initial(states[0])
    && forall k: nat :: k < |steps| ==> Follows(config, states, steps, k)
  }

  /** No organization has lost an update. */
  ghost predicate PromiseKept(s: Sys) {
    forall org: OrgId :: NoLostUpdate(s.db, org, CrmOf(s.crm, org))
  }

  // ---- How deals move --------------------------------------------------------------------------

  /** A deal is stamped anew, or keeps its stamp and, unless its stage was invalid, everything. */
  predicate Moves(s: Sys, t: Sys, org: OrgId, id: string) {
    DealOf(t, org, id).Some? ==>
      var deal := DealOf(t, org, id).value;
      || deal.updatedAt > s.clock
      || (&& DealOf(s, org, id).Some?
          && deal.updatedAt == DealOf(s, org, id).value.updatedAt
          && (StageOk(DealOf(s, org, id).value) ==> deal == DealOf(s, org, id).value))
  }

  lemma NextMoves(config: Config, s: Sys, step: Step, org: OrgId, id: string)
    requires Possible(s, step)
    ensures Moves(s, Next(config, s, step), org, id) && s.clock <= Next(config, s, step).clock
  {
    if step.Handle? { HandledMovesOnlyByPatch(config, s, step.worker, step.env); }
  }

  lemma HandledMovesOnlyByPatch(config: Config, s: Sys, w: nat, env: Env)
    requires CanRun(s, w, env)
    ensures var patched := Patched(s, TxnOf(s, w, env), env.stamp);
            Handled(config, s, w, env).crm == patched.crm && Handled(config, s, w, env).clock == patched.clock
  {
  }

  lemma CommitLeavesCrm(config: Config, earlier: Sys, ask: LateStep, s: Sys, step: Step)
    requires CanCommit(s, step) && WasAsked(earlier, ask, Whole(s, step))
    ensures Committed(config, earlier, ask, s, step).crm == s.crm
    ensures Committed(config, earlier, ask, s, step).clock == s.clock
  {
  }

  ghost predicate AllMove(states: seq<Sys>, org: OrgId, id: string) {
    forall k :: 0 <= k < |states| - 1 ==>
        Moves(states[k], states[k + 1], org, id) && states[k].clock <= states[k + 1].clock
  }

  lemma RunMoves(config: Config, states: seq<Sys>, steps: seq<LateStep>, org: OrgId, id: string)
    requires IsLateRun(config, states, steps)
    ensures AllMove(states, org, id)
  {
    forall k | 0 <= k < |states| - 1
      ensures Moves(states[k], states[k + 1], org, id) && states[k].clock <= states[k + 1].clock
    {
      assert Follows(config, states, steps, k);
      match steps[k]
      case Atomic(step) => NextMoves(config, states[k], step, org, id);
      case Ask(_, _) =>
      case AskAll(_) =>
      case CommitLate(asked, step) => CommitLeavesCrm(config, states[asked], steps[asked], states[k], step);
    }
  }

  /** Over any stretch of a run a deal moves as over one step. */
  lemma {:induction false} MovesOver(states: seq<Sys>, i: nat, k: nat, org: OrgId, id: string)
    requires AllMove(states, org, id) && i <= k < |states|
    ensures states[i].clock <= states[k].clock && Moves(states[i], states[k], org, id)
    decreases k
  {
    if i < k {
      MovesOver(states, i, k - 1, org, id);
      MovesTwice(states[i], states[k - 1], states[k], org, id);
    }
  }

  lemma MovesTwice(s: Sys, m: Sys, t: Sys, org: OrgId, id: string)
    requires s.clock <= m.clock && Moves(s, m, org, id) && Moves(m, t, org, id)
    ensures Moves(s, t, org, id)
  {
  }

  // ---- Leads and watermarks in any run ---------------------------------------------------------

  /** Between a read of the CRM and now: a listing has become a dated one. */
  lemma AgedListing(s: Sys, t: Sys, org: OrgId, snapshots: seq<Snapshot>)
    requires MarksOk(s.db, org, CrmOf(s.crm, org), s.clock)
    requires IsListing(CrmOf(s.crm, org), Watermark(s.db, org), snapshots)
    requires forall id :: Moves(s, t, org, id)
    ensures IsDatedListing(CrmOf(t.crm, org), Watermark(s.db, org), s.clock, snapshots)
  {
    var current := CrmOf(t.crm, org);
    forall i | 0 <= i < |snapshots| && snapshots[i].crmLeadId in current
      ensures current[snapshots[i].crmLeadId].updatedAt > Watermark(s.db, org)
    {
      assert Moves(s, t, org, snapshots[i].crmLeadId);
    }
    forall id | id in current && Watermark(s.db, org) < current[id].updatedAt <= s.clock
      ensures ListedAs(snapshots, id, current[id])
    {
      assert Moves(s, t, org, id);
      var i :| 0 <= i < |snapshots| && snapshots[i].crmLeadId == id;
      assert IsSnapshotOf(snapshots[i], id, current[id]);
    }
  }

  lemma ListingAges(config: Config, states: seq<Sys>, steps: seq<LateStep>, i: nat, k: nat, txn: Txn)
    requires IsLateRun(config, states, steps) && i <= k < |states|
    requires TablesOk(states[i]) && TablesGoOn(states[i], states[k]) && TablesOk(states[k])
    requires txn.ResumePoll? && txn.listing.Ok? && txn.since == Watermark(states[i].db, txn.org)
    requires IsListing(CrmOf(states[i].crm, txn.org), txn.since, txn.listing.value)
    ensures ListingIsPast(states[k], txn)
    ensures IsDatedListing(CrmOf(states[k].crm, txn.org), txn.since, states[i].clock, txn.listing.value)
  {
    var org := txn.org;
    assert MarksOk(states[i].db, org, CrmOf(states[i].crm, org), states[i].clock);
    assert MarksOk(states[k].db, org, CrmOf(states[k].crm, org), states[k].clock);
    forall id ensures Moves(states[i], states[k], org, id) {
      RunMoves(config, states, steps, org, id);
      MovesOver(states, i, k, org, id);
    }
    AgedListing(states[i], states[k], org, txn.listing.value);
  }

  /** A poll's listing is past when it commits; other commits have none. */
  lemma AttemptIsPast(config: Config, states: seq<Sys>, steps: seq<LateStep>, k: nat)
    requires IsLateRun(config, states, steps) && k < |steps| && steps[k].CommitLate?
    requires AllStands(states, k)
    ensures IsLate(states, steps, k) && ListingIsPast(states[k], AttemptAt(config, states, steps, k))
  {
    assert Follows(config, states, steps, k);
    var txn, asked := AttemptAt(config, states, steps, k), steps[k].asked;
    assert Stands(states, asked, k) && Stands(states, k, k);
    if txn.ResumePoll? && txn.listing.Ok? {
      ListingAges(config, states, steps, asked, k, txn);
    }
  }

  ghost predicate Stands(states: seq<Sys>, j: nat, k: nat)
    requires j < |states| && k < |states|
  {
    TablesOk(states[j]) && TablesGoOn(states[j], states[k])
  }

  ghost predicate AllStands(states: seq<Sys>, k: nat)
    requires k < |states|
  {
    forall j: nat :: j <= k ==> Stands(states, j, k)
  }

  /** What no run does, whatever it loses. */
  lemma {:induction false} TablesAlways(config: Config, states: seq<Sys>, steps: seq<LateStep>, k: nat)
    requires IsLateRun(config, states, steps) && k < |states|
    ensures AllStands(states, k)
  {
    if k == 0 {
      assert forall org: OrgId :: CrmOf(states[0].crm, org) == map[];
    } else {
      TablesAlways(config, states, steps, k - 1);
      assert Stands(states, k - 1, k - 1);
      StepKeepsTables(config, states, steps, k - 1);
      forall j: nat | j <= k ensures Stands(states, j, k) {
        if j < k {
          assert Stands(states, j, k - 1);
          GoOnTwice(states[j], states[k - 1], states[k]);
        } else {
          assert TablesGoOn(states[k], states[k]);
        }
      }
    }
  }

  lemma GoOnTwice(s: Sys, m: Sys, t: Sys)
    requires TablesGoOn(s, m) && TablesGoOn(m, t)
    ensures TablesGoOn(s, t)
  {
  }

  lemma StepKeepsTables(config: Config, states: seq<Sys>, steps: seq<LateStep>, k: nat)
    requires IsLateRun(config, states, steps) && k < |steps|
    requires AllStands(states, k) && TablesOk(states[k])
    ensures TablesOk(states[k + 1]) && TablesGoOn(states[k], states[k + 1])
  {
    assert Follows(config, states, steps, k);
    match steps[k]
    case Atomic(step) => NextKeepsTables(config, states[k], step);
    case Ask(_, _) =>
    case AskAll(_) =>
    case CommitLate(asked, step) =>
      AttemptIsPast(config, states, steps, k);
      var txn := AttemptAt(config, states, steps, k);
      if step.Transact? {
        TransactMoves(config, states[k], txn);
      } else {
        HandledMoves(config, states[k], step.worker, step.env, txn);
      }
  }

  // ---- Edits between the call and the commit ---------------------------------------------------

  /** Step e stamps the deal anew, and the deal still has that stamp in state k. */
  ghost predicate LastEdit(states: seq<Sys>, e: nat, k: nat, org: OrgId, id: string)
    requires e < k < |states|
  {
    && DealOf(states[e + 1], org, id).Some?
    && DealOf(states[e + 1], org, id).value.updatedAt > states[e].clock
    && forall m :: e < m <= k ==>
         && DealOf(states[m], org, id).Some?
         && DealOf(states[m], org, id).value.updatedAt == DealOf(states[e + 1], org, id).value.updatedAt
  }

  lemma LastEditGoesOn(states: seq<Sys>, e: nat, k: nat, org: OrgId, id: string)
    requires e < k < |states| - 1 && LastEdit(states, e, k, org, id)
    requires DealOf(states[k + 1], org, id).Some?
    requires DealOf(states[k + 1], org, id).value.updatedAt == DealOf(states[k], org, id).value.updatedAt
    ensures LastEdit(states, e, k + 1, org, id)
  {
    assert DealOf(states[k], org, id).value.updatedAt == DealOf(states[e + 1], org, id).value.updatedAt;
  }

  ghost predicate EditedBetween(states: seq<Sys>, i: nat, k: nat, org: OrgId, id: string)
    requires k < |states|
  {
    exists e :: i <= e < k && LastEdit(states, e, k, org, id)
  }

  /** A deal that was valid when the CRM gave it is still the same, or was edited since. */
  lemma {:induction false} SameOrEdited(states: seq<Sys>, i: nat, k: nat, org: OrgId, id: string)
    requires AllMove(states, org, id) && i <= k < |states|
    requires DealOf(states[i], org, id).Some? && StageOk(DealOf(states[i], org, id).value)
    ensures DealOf(states[k], org, id).Some? ==>
              DealOf(states[k], org, id) == DealOf(states[i], org, id) || EditedBetween(states, i, k, org, id)
    decreases k
  {
    if i < k && DealOf(states[k], org, id).Some? {
      SameOrEdited(states, i, k - 1, org, id);
      OneStepMore(states, i, k - 1, org, id);
    }
  }

  lemma OneStepMore(states: seq<Sys>, i: nat, k: nat, org: OrgId, id: string)
    requires i <= k < |states| - 1
    requires DealOf(states[i], org, id).Some? && StageOk(DealOf(states[i], org, id).value)
    requires Moves(states[k], states[k + 1], org, id) && DealOf(states[k + 1], org, id).Some?
    requires DealOf(states[k], org, id).Some? ==>
               DealOf(states[k], org, id) == DealOf(states[i], org, id) || EditedBetween(states, i, k, org, id)
    ensures DealOf(states[k + 1], org, id) == DealOf(states[i], org, id) || EditedBetween(states, i, k + 1, org, id)
  {
    if DealOf(states[k + 1], org, id).value.updatedAt > states[k].clock {
      assert LastEdit(states, k, k + 1, org, id);
    } else if DealOf(states[k], org, id) != DealOf(states[i], org, id) {
      var e :| i <= e < k && LastEdit(states, e, k, org, id);
      LastEditGoesOn(states, e, k, org, id);
    }
  }

  /** What the CRM answered at i, stored at k, is overtaken: the deal was edited after the answer and differs from it in
      a mirrored field, and a poll has moved the watermark past the edit's stamp. */
  ghost predicate AnswerOvertaken(states: seq<Sys>, i: nat, k: nat, org: OrgId, id: string, answer: Deal)
    requires k < |states|
  {
    && DealOf(states[k], org, id).Some? && MirroredFieldsDiffer(answer, DealOf(states[k], org, id).value)
    && exists e :: i <= e < k && EditSeen(states, e, k, org, id)
  }

  ghost predicate EditSeen(states: seq<Sys>, e: nat, k: nat, org: OrgId, id: string)
    requires e < k < |states|
  {
    LastEdit(states, e, k, org, id) && DealOf(states[e + 1], org, id).value.updatedAt <= Watermark(states[k].db, org)
  }

  /** An answer of a valid deal disagrees with what the watermark has passed exactly when it is overtaken. */
  lemma OvertakenDisagrees(
      config: Config, states: seq<Sys>, steps: seq<LateStep>, i: nat, k: nat, org: OrgId, id: string, answer: Deal)
    requires IsLateRun(config, states, steps) && i <= k < |states|
    requires DealOf(states[i], org, id) == Some(answer) && StageOk(answer)
    ensures AnswerOvertaken(states, i, k, org, id, answer) <==>
            && DealOf(states[k], org, id).Some?
            && DealOf(states[k], org, id).value.updatedAt <= Watermark(states[k].db, org)
            && MirroredFieldsDiffer(answer, DealOf(states[k], org, id).value)
  {
    if DealOf(states[k], org, id).Some? && MirroredFieldsDiffer(answer, DealOf(states[k], org, id).value) {
      RunMoves(config, states, steps, org, id);
      SameOrEdited(states, i, k, org, id);
      var e :| i <= e < k && LastEdit(states, e, k, org, id);
      assert DealOf(states[k], org, id).value.updatedAt == DealOf(states[e + 1], org, id).value.updatedAt;
      if DealOf(states[k], org, id).value.updatedAt <= Watermark(states[k].db, org) {
        assert EditSeen(states, e, k, org, id);
      }
    }
    if AnswerOvertaken(states, i, k, org, id, answer) {
      var e :| i <= e < k && EditSeen(states, e, k, org, id);
      assert DealOf(states[k], org, id).value.updatedAt == DealOf(states[e + 1], org, id).value.updatedAt;
    }
  }

  // ---- Late refreshes --------------------------------------------------------------------------

  predicate IsRefreshCommit(step: LateStep) { step.CommitLate? && !IsPoll(step.step) }

  predicate IsPollCommit(step: LateStep) { step.CommitLate? && IsPoll(step.step) }

  /** A refresh that is stored - for a recommendation, that its guard decided when it asked - and whose answer is
      overtaken. */
  ghost predicate RefreshOvertaken(config: Config, states: seq<Sys>, steps: seq<LateStep>, k: nat)
    requires k < |steps| < |states| && IsRefreshCommit(steps[k]) && IsLate(states, steps, k)
  {
    var s, txn := states[k], AttemptAt(config, states, steps, k);
    && StoresRefresh(s.db, config.threshold, txn)
    && AnswerOvertaken(states, steps[k].asked, k, s.db.leads[txn.lead].org, s.db.leads[txn.lead].crmLeadId,
         txn.answer.value)
  }

  /** The answer a late refresh stores was the CRM's, for the deal of the row it is stored in. */
  lemma StoredAnswer(config: Config, states: seq<Sys>, steps: seq<LateStep>, k: nat)
    requires IsLateRun(config, states, steps) && k < |steps| && IsRefreshCommit(steps[k])
    ensures IsLate(states, steps, k)
    ensures var s, txn := states[k], AttemptAt(config, states, steps, k);
            StoresRefresh(s.db, config.threshold, txn) ==>
              DealOf(states[steps[k].asked], s.db.leads[txn.lead].org, s.db.leads[txn.lead].crmLeadId) == txn.answer
  {
    assert Follows(config, states, steps, k);
    TablesAlways(config, states, steps, k);
    assert Stands(states, steps[k].asked, k);
  }

  lemma RefreshDisagrees(config: Config, states: seq<Sys>, steps: seq<LateStep>, k: nat)
    requires IsLateRun(config, states, steps) && k < |steps| && IsRefreshCommit(steps[k])
    ensures IsLate(states, steps, k)
    ensures var s, txn := states[k], AttemptAt(config, states, steps, k);
            RefreshOvertaken(config, states, steps, k) <==>
            StoresRefresh(s.db, config.threshold, txn) && !AgreesWhereSeen(s.db, s.crm, txn.lead, txn.answer)
  {
    StoredAnswer(config, states, steps, k);
    var s, txn := states[k], AttemptAt(config, states, steps, k);
    if StoresRefresh(s.db, config.threshold, txn) {
      var row := s.db.leads[txn.lead];
      OvertakenDisagrees(config, states, steps, steps[k].asked, k, row.org, row.crmLeadId, txn.answer.value);
    }
  }

  /** A commit leaves leads and watermarks as its transaction does. */
  lemma CommitTables(config: Config, earlier: Sys, ask: LateStep, s: Sys, step: Step)
    requires CanCommit(s, step) && WasAsked(earlier, ask, Whole(s, step))
    ensures var t := Committed(config, earlier, ask, s, step);
            && t.db == AfterCommit(config, s.db, Attempt(config, earlier, ask, s, step))
            && t.crm == s.crm && t.clock == s.clock
  {
  }

  /** One refresh breaks a kept promise exactly when it stores an answer that differs from a deal the watermark has
      passed. */
  lemma RefreshBreaks(config: Config, s: Sys, t: Sys, txn: Txn)
    requires UniqueLeads(s.db.leads) && PromiseKept(s)
    requires txn == Nothing || txn.Resync? || txn.Push? || txn.ResumeRecommend?
    requires t.db == AfterCommit(config, s.db, txn) && t.crm == s.crm
    ensures PromiseKept(t) <==>
            (StoresRefresh(s.db, config.threshold, txn) ==> AgreesWhereSeen(s.db, s.crm, txn.lead, txn.answer))
  {
    if txn != Nothing { RefreshWrites(config, s.db, txn); }
    if StoresRefresh(s.db, config.threshold, txn) {
      forall org: OrgId
        ensures NoLostUpdate(t.db, org, CrmOf(t.crm, org)) <==>
                (s.db.leads[txn.lead].org == org ==> AgreesWhereSeen(s.db, s.crm, txn.lead, txn.answer))
      {
        RewrittenRow(s.db, t.db, txn.lead, txn.answer.value, txn.now, org, CrmOf(s.crm, org));
      }
    } else {
      forall org: OrgId ensures NoLostUpdate(t.db, org, CrmOf(t.crm, org)) {
        assert NoLostUpdate(s.db, org, CrmOf(s.crm, org));
      }
    }
  }

  // ---- Late polls ------------------------------------------------------------------------------

  /** A poll that stores a snapshot which is overtaken: by an edit, and by another poll that has seen it. */
  ghost predicate PollOvertaken(states: seq<Sys>, steps: seq<LateStep>, k: nat)
    requires k < |steps| < |states| && IsPollCommit(steps[k]) && IsLate(states, steps, k)
  {
    var txn := steps[k].step.txn;
    exists j :: 0 <= j < |txn.listing.value|
      && SnapshotOvertaken(states, steps[k].asked, k, txn.org, txn.listing.value[j])
  }

  ghost predicate SnapshotOvertaken(states: seq<Sys>, i: nat, k: nat, org: OrgId, s: Snapshot)
    requires k < |states|
  {
    StageOk(s.deal) && AnswerOvertaken(states, i, k, org, s.crmLeadId, s.deal)
  }

  lemma OutdatedIsOvertaken(config: Config, states: seq<Sys>, steps: seq<LateStep>, k: nat, j: nat)
    requires IsLateRun(config, states, steps) && k < |steps| && IsPollCommit(steps[k])
    requires IsLate(states, steps, k) && j < |steps[k].step.txn.listing.value|
    ensures var txn := steps[k].step.txn;
            SnapshotOvertaken(states, steps[k].asked, k, txn.org, txn.listing.value[j]) <==>
            IsOutdated(txn.listing.value[j], CrmOf(states[k].crm, txn.org), Watermark(states[k].db, txn.org))
  {
    var txn := steps[k].step.txn;
    var s := txn.listing.value[j];
    if StageOk(s.deal) {
      OvertakenDisagrees(config, states, steps, steps[k].asked, k, txn.org, s.crmLeadId, s.deal);
    }
  }

  lemma PollDisagrees(config: Config, states: seq<Sys>, steps: seq<LateStep>, k: nat)
    requires IsLateRun(config, states, steps) && k < |steps| && IsPollCommit(steps[k])
    ensures IsLate(states, steps, k)
    ensures var txn := steps[k].step.txn;
            PollOvertaken(states, steps, k) <==>
            !NoneOutdated(txn.listing.value, CrmOf(states[k].crm, txn.org), Watermark(states[k].db, txn.org))
  {
    assert Follows(config, states, steps, k);
    forall j: nat | j < |steps[k].step.txn.listing.value|
      ensures var txn := steps[k].step.txn;
              SnapshotOvertaken(states, steps[k].asked, k, txn.org, txn.listing.value[j]) <==>
              IsOutdated(txn.listing.value[j], CrmOf(states[k].crm, txn.org), Watermark(states[k].db, txn.org))
    {
      OutdatedIsOvertaken(config, states, steps, k, j);
    }
  }

  /** One poll breaks a kept promise exactly when one of its snapshots is outdated. */
  lemma PollBreaks(config: Config, s: Sys, t: Sys, txn: Txn)
    requires UniqueLeads(s.db.leads) && PromiseKept(s)
    requires txn.ResumePoll? && txn.listing.Ok? && ListingIsPast(s, txn)
    requires t.db == AfterCommit(config, s.db, txn) && t.crm == s.crm
    ensures PromiseKept(t) <==> NoneOutdated(txn.listing.value, CrmOf(s.crm, txn.org), Watermark(s.db, txn.org))
  {
    var deals, snapshots := CrmOf(s.crm, txn.org), txn.listing.value;
    var asOf :| asOf <= s.clock && IsDatedListing(deals, txn.since, asOf, snapshots);
    OverlappingPoll(s.db, txn.org, txn.since, deals, asOf, snapshots, txn.now);
    forall org: OrgId
      ensures NoLostUpdate(t.db, org, CrmOf(t.crm, org)) <==>
              (org == txn.org ==> NoneOutdated(snapshots, deals, Watermark(s.db, txn.org)))
    {
      if org != txn.org {
        OverlappingPollElsewhere(s.db, txn.org, txn.since, snapshots, txn.now, org, CrmOf(s.crm, org));
      }
    }
  }

  /** While no other poll has moved the watermark, a poll cannot be overtaken, however late it commits. */
  lemma UnmovedPollIsSafe(config: Config, states: seq<Sys>, steps: seq<LateStep>, k: nat)
    requires IsLateRun(config, states, steps) && k < |steps| && IsPollCommit(steps[k])
    requires var org := steps[k].step.txn.org;
             steps[k].asked < |states| && Watermark(states[k].db, org) == Watermark(states[steps[k].asked].db, org)
    ensures IsLate(states, steps, k) && !PollOvertaken(states, steps, k)
  {
    PollDisagrees(config, states, steps, k);
    TablesAlways(config, states, steps, k);
    AttemptIsPast(config, states, steps, k);
    var txn := AttemptAt(config, states, steps, k);
    var asOf :| asOf <= states[k].clock
      && IsDatedListing(CrmOf(states[k].crm, txn.org), txn.since, asOf, txn.listing.value);
    UnmovedIsCurrent(CrmOf(states[k].crm, txn.org), txn.since, asOf, txn.listing.value);
  }

  // ---- Any late commit -------------------------------------------------------------------------

  ghost predicate Overtaken(config: Config, states: seq<Sys>, steps: seq<LateStep>, k: nat)
    requires k < |steps| < |states| && steps[k].CommitLate? && IsLate(states, steps, k)
  {
    if IsPoll(steps[k].step) then PollOvertaken(states, steps, k) else RefreshOvertaken(config, states, steps, k)
  }

  /** In any run, whatever it has lost before: the late commit of a poll, resync, push or guarded recommendation breaks
      a kept promise exactly when it is overtaken. */
  lemma LateCommitBreaksExactlyWhen(config: Config, states: seq<Sys>, steps: seq<LateStep>, k: nat)
    requires IsLateRun(config, states, steps) && k < |steps| && steps[k].CommitLate?
    requires PromiseKept(states[k])
    ensures IsLate(states, steps, k)
    ensures PromiseKept(states[k + 1]) <==> !Overtaken(config, states, steps, k)
  {
    assert Follows(config, states, steps, k);
    TablesAlways(config, states, steps, k);
    assert Stands(states, k, k);
    AttemptIsPast(config, states, steps, k);
    CommitTables(config, states[steps[k].asked], steps[steps[k].asked], states[k], steps[k].step);
    if IsPoll(steps[k].step) {
      PollDisagrees(config, states, steps, k);
      PollBreaks(config, states[k], states[k + 1], AttemptAt(config, states, steps, k));
    } else {
      RefreshDisagrees(config, states, steps, k);
      RefreshBreaks(config, states[k], states[k + 1], AttemptAt(config, states, steps, k));
    }
  }

  // ---- Whole runs ------------------------------------------------------------------------------

  ghost predicate OvertakenAt(config: Config, states: seq<Sys>, steps: seq<LateStep>, k: nat)
    requires IsLateRun(config, states, steps)
  {
    k < |steps| && steps[k].CommitLate? && Follows(config, states, steps, k) && Overtaken(config, states, steps, k)
  }

  /** What a late commit that is not overtaken attempts does no harm. */
  lemma RefreshIsHarmless(config: Config, states: seq<Sys>, steps: seq<LateStep>, k: nat)
    requires IsLateRun(config, states, steps) && k < |steps| && IsRefreshCommit(steps[k])
    requires !OvertakenAt(config, states, steps, k)
    ensures IsLate(states, steps, k)
    ensures var s := states[k]; Harmless(config, s.db, s.crm, s.clock, AttemptAt(config, states, steps, k))
  {
    assert Follows(config, states, steps, k);
    RefreshDisagrees(config, states, steps, k);
  }

  lemma PollIsHarmless(config: Config, states: seq<Sys>, steps: seq<LateStep>, k: nat)
    requires IsLateRun(config, states, steps) && k < |steps| && IsPollCommit(steps[k])
    requires !OvertakenAt(config, states, steps, k)
    ensures IsLate(states, steps, k)
    ensures var s := states[k]; Harmless(config, s.db, s.crm, s.clock, AttemptAt(config, states, steps, k))
  {
    assert Follows(config, states, steps, k);
    TablesAlways(config, states, steps, k);
    AttemptIsPast(config, states, steps, k);
    PollDisagrees(config, states, steps, k);
  }

  lemma HarmlessCommitKeeps(config: Config, earlier: Sys, ask: LateStep, s: Sys, step: Step)
    requires SysInv(config, s) && CanCommit(s, step) && WasAsked(earlier, ask, Whole(s, step))
    requires Harmless(config, s.db, s.crm, s.clock, Attempt(config, earlier, ask, s, step))
    ensures var t := Committed(config, earlier, ask, s, step); SysInv(config, t) && Onward(config, s, t)
  {
    var txn := Attempt(config, earlier, ask, s, step);
    if step.Transact? {
      TransactKeeps(config, s, txn);
    } else {
      HandledAsKeeps(config, s, step.worker, step.env, txn);
    }
  }

  lemma CommitFollows(config: Config, states: seq<Sys>, steps: seq<LateStep>, k: nat)
    requires IsLateRun(config, states, steps) && k < |steps| && steps[k].CommitLate?
    ensures IsLate(states, steps, k)
    ensures states[k + 1] == Committed(config, states[steps[k].asked], steps[steps[k].asked], states[k], steps[k].step)
  {
    assert Follows(config, states, steps, k);
  }

  lemma LateCommitKeeps(config: Config, states: seq<Sys>, steps: seq<LateStep>, k: nat)
    requires IsLateRun(config, states, steps) && k < |steps| && steps[k].CommitLate?
    requires SysInv(config, states[k]) && !OvertakenAt(config, states, steps, k)
    ensures SysInv(config, states[k + 1]) && Onward(config, states[k], states[k + 1])
  {
    CommitFollows(config, states, steps, k);
    if IsPoll(steps[k].step) {
      PollIsHarmless(config, states, steps, k);
    } else {
      RefreshIsHarmless(config, states, steps, k);
    }
    HarmlessCommitKeeps(config, states[steps[k].asked], steps[steps[k].asked], states[k], steps[k].step);
  }

  /** A poll may commit long after its listing, over any edits, repairs and refreshes in between, as long as no other
      poll of its organization has moved the watermark it read. */
  lemma LatePollKeeps(config: Config, states: seq<Sys>, steps: seq<LateStep>, k: nat)
    requires IsLateRun(config, states, steps) && k < |steps| && IsPollCommit(steps[k])
    requires SysInv(config, states[k])
    requires var org := steps[k].step.txn.org;
             steps[k].asked < |states| && Watermark(states[k].db, org) == Watermark(states[steps[k].asked].db, org)
    ensures SysInv(config, states[k + 1]) && Onward(config, states[k], states[k + 1])
  {
    UnmovedPollIsSafe(config, states, steps, k);
    LateCommitKeeps(config, states, steps, k);
  }

  lemma LateStepKeeps(config: Config, states: seq<Sys>, steps: seq<LateStep>, k: nat)
    requires IsLateRun(config, states, steps) && k < |steps|
    requires SysInv(config, states[k]) && !OvertakenAt(config, states, steps, k)
    ensures SysInv(config, states[k + 1])
  {
    if steps[k].CommitLate? {
      LateCommitKeeps(config, states, steps, k);
    } else {
      assert Follows(config, states, steps, k);
      if steps[k].Atomic? { StepKeeps(config, states[k], steps[k].step); }
    }
  }

  lemma {:induction false} UntilTheFirstOvertaken(config: Config, states: seq<Sys>, steps: seq<LateStep>, i: nat)
    requires IsLateRun(config, states, steps) && i < |states|
    requires forall k: nat :: k < i ==> !OvertakenAt(config, states, steps, k)
    ensures SysInv(config, states[i])
  {
    if i == 0 {
      InitialHolds(config, states[0]);
    } else {
      UntilTheFirstOvertaken(config, states, steps, i - 1);
      LateStepKeeps(config, states, steps, i - 1);
    }
  }

  /** The invariant contains the promise. */
  lemma InvariantKeepsPromise(config: Config, s: Sys)
    requires SysInv(config, s)
    ensures UniqueLeads(s.db.leads) && PromiseKept(s)
  {
    forall org: OrgId ensures NoLostUpdate(s.db, org, CrmOf(s.crm, org)) {
      assert MirrorOk(s.db, org, CrmOf(s.crm, org), s.clock);
    }
  }

  lemma {:induction false} FirstOvertaken(config: Config, states: seq<Sys>, steps: seq<LateStep>, k: nat)
    returns (first: nat)
    requires IsLateRun(config, states, steps) && OvertakenAt(config, states, steps, k)
    ensures OvertakenAt(config, states, steps, first)
    ensures forall m: nat :: m < first ==> !OvertakenAt(config, states, steps, m)
  {
    if m: nat :| m < k && OvertakenAt(config, states, steps, m) {
      first := FirstOvertaken(config, states, steps, m);
    } else {
      first := k;
    }
  }

  /** With calls and commits apart and polls overlapping, a run loses no update in any state exactly when no late commit
      in it is overtaken by an edit and a poll. */
  lemma NoUpdateIsLostExactlyWhen(config: Config, states: seq<Sys>, steps: seq<LateStep>)
    requires IsLateRun(config, states, steps)
    ensures (forall i :: 0 <= i < |states| ==> PromiseKept(states[i])) <==>
            (forall k: nat :: !OvertakenAt(config, states, steps, k))
  {
    if k: nat :| OvertakenAt(config, states, steps, k) {
      var first := FirstOvertaken(config, states, steps, k);
      UntilTheFirstOvertaken(config, states, steps, first);
      InvariantKeepsPromise(config, states[first]);
      LateCommitBreaksExactlyWhen(config, states, steps, first);
      assert !PromiseKept(states[first + 1]);
    } else {
      forall i | 0 <= i < |states| ensures PromiseKept(states[i]) {
        UntilTheFirstOvertaken(config, states, steps, i);
        InvariantKeepsPromise(config, states[i]);
      }
    }
  }
}
