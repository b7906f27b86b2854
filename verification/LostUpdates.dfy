/** Runs from the empty system in which a late commit loses an edit: by a resync, by a guarded recommendation and by a
    poll over another poll. Each keeps every promise up to that commit, and in each a deal version that the CRM still
    holds, below the watermark, is missing from the mirror afterwards. */
module LostUpdates {
  import opened Prelude
  import opened LeadDomain
  import opened Store
  import opened LeadSync
  import opened CrmMirror
  import opened OverlappingPolls
  import opened ProfileCapture
  import opened Coordinator
  import opened EventBus
  import opened BusRuns
  import opened LeadToSales
  import opened LeadTables
  import opened DataInvariant
  import opened SystemInvariant
  import opened SystemRuns
  import opened LateCommits
  import opened RecommendationHandler
  import opened Lifecycle

  // ---- Growing a run ---------------------------------------------------------------------------

  /** The run with one more step. */
  lemma Extended(config: Config, states: seq<Sys>, steps: seq<LateStep>, step: LateStep, t: Sys)
    requires IsLateRun(config, states, steps)
    requires Follows(config, states + [t], steps + [step], |steps|)
    ensures IsLateRun(config, states + [t], steps + [step])
  {
    forall k: nat | k < |steps| ensures Follows(config, states + [t], steps + [step], k) {
      assert Follows(config, states, steps, k);
    }
  }

  predicate NoCommits(steps: seq<LateStep>) { forall k :: 0 <= k < |steps| ==> !steps[k].CommitLate? }

  /** A run without late commits so far: nothing is lost in it. */
  ghost predicate Quiet(config: Config, states: seq<Sys>, steps: seq<LateStep>) {
    IsLateRun(config, states, steps) && NoCommits(steps)
  }

  ghost predicate AllKept(states: seq<Sys>) { forall i :: 0 <= i < |states| ==> PromiseKept(states[i]) }

  lemma QuietKeeps(config: Config, states: seq<Sys>, steps: seq<LateStep>)
    requires Quiet(config, states, steps)
    ensures SysInv(config, states[|steps|]) && AllKept(states)
  {
    UntilTheFirstOvertaken(config, states, steps, |steps|);
    NoUpdateIsLostExactlyWhen(config, states, steps);
  }

  lemma Acts(config: Config, states: seq<Sys>, steps: seq<LateStep>, step: Step) returns (t: Sys)
    requires Quiet(config, states, steps) && Possible(states[|steps|], step)
    ensures t == Next(config, states[|steps|], step)
    ensures Quiet(config, states + [t], steps + [Atomic(step)])
    ensures SysInv(config, t) && Onward(config, states[|steps|], t)
  {
    QuietKeeps(config, states, steps);
    t := Next(config, states[|steps|], step);
    StepKeeps(config, states[|steps|], step);
    Extended(config, states, steps, Atomic(step), t);
  }

  lemma Asks(config: Config, states: seq<Sys>, steps: seq<LateStep>, ask: LateStep)
    requires Quiet(config, states, steps) && (ask.Ask? || ask.AskAll?)
    ensures Quiet(config, states + [states[|steps|]], steps + [ask])
  {
    Extended(config, states, steps, ask, states[|steps|]);
  }

  lemma OneByOne<T>(s: seq<T>, a: T, b: T, c: T, d: T)
    ensures s + [a] + [b] == s + [a, b] && s + [a] + [b] + [c, d] == s + [a, b, c, d]
  {
  }

  lemma OneMore<T>(s: seq<T>, a: T)
    ensures (s + [a])[..|s|] == s && (s + [a])[|s|] == a
  {
  }

  lemma ThreeAndFour<T>(s: seq<T>, t: seq<T>)
    requires |s| == 3 && |t| == 4
    ensures (s + t)[3] == t[0] && (s + t)[6] == t[3] && (s + t)[0] == s[0]
  {
  }

  lemma FourAndTwo<T>(s: seq<T>, a: T, b: T)
    requires |s| == 4
    ensures (s + [a] + [b])[5] == b && (s + [a] + [b])[0] == s[0]
  {
  }

  lemma SixAndFour<T>(s: seq<T>, t: seq<T>)
    requires |s| == 6 && |t| == 4
    ensures (s + t)[6] == t[0] && (s + t)[9] == t[3] && (s + t)[0] == s[0]
  {
  }

  // ---- Edits and polls of the only deal --------------------------------------------------------

  /** The organization's CRM holds one valid deal. */
  predicate HoldsOnly(s: Sys, org: OrgId, id: string, deal: Deal) {
    CrmOf(s.crm, org) == map[id := deal] && StageOk(deal)
  }

  /** The poll that fetches the only deal of an organization. */
  function OnlyPoll(org: OrgId, id: string, deal: Deal, now: Time): Step {
    Transact(PollCrm(org, Ok([Snapshot(id, deal)]), now))
  }

  predicate Seen(s: Sys, org: OrgId, id: string, deal: Deal) {
    && HoldsOnly(s, org, id, deal)
    && deal.updatedAt <= Watermark(s.db, org)
    && Mirrored(s.db.leads, org, id, deal)
  }

  lemma OnlyListing(crm: Crm, id: string, deal: Deal, since: Time)
    requires crm == map[id := deal] && deal.updatedAt > since
    ensures IsListing(crm, since, [Snapshot(id, deal)])
  {
    var snapshots := [Snapshot(id, deal)];
    assert Listed(snapshots, id) by { assert snapshots[0].crmLeadId == id; }
  }

  lemma OnlyPollMirrors(db: Db, org: OrgId, id: string, deal: Deal, now: Time)
    requires UniqueLeads(db.leads) && NoLostUpdate(db, org, map[id := deal])
    requires StageOk(deal) && deal.updatedAt > Watermark(db, org)
    ensures CommittedPoll(db, org, [Snapshot(id, deal)], now).Ok?
    ensures var r := CommittedPoll(db, org, [Snapshot(id, deal)], now).value;
            deal.updatedAt <= Watermark(r, org) && Mirrored(r.leads, org, id, deal)
  {
    var crm, snapshots := map[id := deal], [Snapshot(id, deal)];
    OnlyListing(crm, id, deal, Watermark(db, org));
    PollConverges(db, org, crm, snapshots, now);
    var r := CommittedPoll(db, org, snapshots, now).value;
    if deal.updatedAt > Watermark(r, org) {
      OnlyListing(crm, id, deal, Watermark(r, org));
    }
  }

  lemma OnlyPollSees(config: Config, s: Sys, org: OrgId, id: string, deal: Deal, now: Time)
    requires SysInv(config, s)
    requires HoldsOnly(s, org, id, deal) && deal.updatedAt > Watermark(s.db, org)
    ensures Possible(s, OnlyPoll(org, id, deal, now))
    ensures var t := Next(config, s, OnlyPoll(org, id, deal, now)); t.clock == s.clock && Seen(t, org, id, deal)
  {
    OnlyListing(CrmOf(s.crm, org), id, deal, Watermark(s.db, org));
    InvariantKeepsPromise(config, s);
    OnlyPollMirrors(s.db, org, id, deal, now);
  }

  predicate IsEdit(s: Sys, org: OrgId, id: string, deal: Deal) {
    deal.updatedAt > s.clock && StageOk(deal) && CrmOf(s.crm, org)[id := deal] == map[id := deal]
  }

  lemma Edit(config: Config, states: seq<Sys>, steps: seq<LateStep>, org: OrgId, id: string, deal: Deal)
      returns (t: Sys)
    requires Quiet(config, states, steps) && IsEdit(states[|steps|], org, id, deal)
    ensures t == Written(states[|steps|], org, id, deal)
    ensures Quiet(config, states + [t], steps + [Atomic(CrmWrite(org, id, deal))])
    ensures HoldsOnly(t, org, id, deal) && Watermark(t.db, org) < deal.updatedAt == t.clock
  {
    QuietKeeps(config, states, steps);
    var s := states[|steps|];
    assert MirrorOk(s.db, org, CrmOf(s.crm, org), s.clock);
    t := Acts(config, states, steps, CrmWrite(org, id, deal));
  }

  /** An edit of that one deal, and a poll that sees it. */
  lemma EditAndPoll(
    config: Config, states: seq<Sys>, steps: seq<LateStep>, org: OrgId, id: string, deal: Deal, now: Time)
    returns (m: Sys, t: Sys)
    requires Quiet(config, states, steps) && IsEdit(states[|steps|], org, id, deal)
    ensures m == Written(states[|steps|], org, id, deal)
    ensures t == Transacted(config, m, OnlyPoll(org, id, deal, now).txn)
    ensures Quiet(config, states + [m, t],
                  steps + [Atomic(CrmWrite(org, id, deal)), Atomic(OnlyPoll(org, id, deal, now))])
    ensures UniqueLeads(m.db.leads) && Watermark(m.db, org) < deal.updatedAt && Onward(config, m, t)
    ensures Seen(t, org, id, deal) && t.clock == deal.updatedAt
  {
    m := Edit(config, states, steps, org, id, deal);
    QuietKeeps(config, states + [m], steps + [Atomic(CrmWrite(org, id, deal))]);
    OnlyPollSees(config, m, org, id, deal, now);
    t := Acts(config, states + [m], steps + [Atomic(CrmWrite(org, id, deal))], OnlyPoll(org, id, deal, now));
    OneByOne(states, m, t, m, t);
    var edit, poll := Atomic(CrmWrite(org, id, deal)), Atomic(OnlyPoll(org, id, deal, now));
    OneByOne(steps, edit, poll, edit, poll);
  }

  /** The deal is edited, a refresh of the lead asks for it, it is edited again, and a poll sees that edit. */
  function Between(org: OrgId, id: string, answer: Deal, last: Deal, lead: LeadId, at: Time): seq<LateStep> {
    [Atomic(CrmWrite(org, id, answer)), Ask(lead, at), Atomic(CrmWrite(org, id, last)),
      Atomic(OnlyPoll(org, id, last, at))]
  }

  lemma EditAskEditPoll(
    config: Config, states: seq<Sys>, steps: seq<LateStep>, org: OrgId, id: string, answer: Deal, last: Deal,
    lead: LeadId, at: Time)
    returns (m: Sys, e: Sys, t: Sys)
    requires Quiet(config, states, steps) && IsEdit(states[|steps|], org, id, answer)
    requires StageOk(last) && answer.updatedAt < last.updatedAt
    ensures m == Written(states[|steps|], org, id, answer) && e == Written(m, org, id, last)
    ensures t == Transacted(config, e, OnlyPoll(org, id, last, at).txn)
    ensures Quiet(config, states + [m, m, e, t], steps + Between(org, id, answer, last, lead, at))
    ensures HoldsOnly(m, org, id, answer) && Seen(t, org, id, last)
    ensures UniqueLeads(e.db.leads) && Watermark(e.db, org) < last.updatedAt && Onward(config, e, t)
  {
    m := Edit(config, states, steps, org, id, answer);
    var edit := Atomic(CrmWrite(org, id, answer));
    Asks(config, states + [m], steps + [edit], Ask(lead, at));
    e, t := EditAndPoll(config, states + [m] + [m], steps + [edit] + [Ask(lead, at)], org, id, last, at);
    OneByOne(states, m, m, e, t);
    OneByOne(steps, edit, Ask(lead, at), Atomic(CrmWrite(org, id, last)), Atomic(OnlyPoll(org, id, last, at)));
  }

  /** The commit of what the refresh at `asked` was answered. */
  lemma CommitIsLast(config: Config, states: seq<Sys>, steps: seq<LateStep>, asked: nat, step: Step) returns (t: Sys)
    requires Quiet(config, states, steps) && asked < |steps|
    requires CanCommit(states[|steps|], step)
    requires WasAsked(states[asked], steps[asked], Whole(states[|steps|], step))
    ensures t == Committed(config, states[asked], steps[asked], states[|steps|], step)
    ensures IsLateRun(config, states + [t], steps + [CommitLate(asked, step)])
    ensures IsLate(states + [t], steps + [CommitLate(asked, step)], |steps|)
    ensures AllKept(states)
  {
    QuietKeeps(config, states, steps);
    t := Committed(config, states[asked], steps[asked], states[|steps|], step);
    assert IsLate(states + [t], steps + [CommitLate(asked, step)], |steps|);
    Extended(config, states, steps, CommitLate(asked, step), t);
  }

  /** Storing an answer the seen deal differs from breaks the promise. */
  lemma OldAnswerBreaks(
    config: Config, s: Sys, t: Sys, txn: Txn, org: OrgId, id: string, answer: Deal, last: Deal)
    requires UniqueLeads(s.db.leads) && PromiseKept(s) && Seen(s, org, id, last)
    requires txn.Resync? || txn.ResumeRecommend?
    requires StoresRefresh(s.db, config.threshold, txn) && txn.answer == Some(answer)
    requires s.db.leads[txn.lead].org == org && s.db.leads[txn.lead].crmLeadId == id
    requires MirroredFieldsDiffer(answer, last)
    requires t.db == AfterCommit(config, s.db, txn) && t.crm == s.crm
    ensures !PromiseKept(t)
  {
    RefreshBreaks(config, s, t, txn);
  }

  // ---- By a resync -----------------------------------------------------------------------------

  /** In some mirrored field the answer differs both from what was mirrored when it was asked for and from what is
      mirrored when it is stored. */
  predicate DiffersFromBoth(first: Deal, answer: Deal, last: Deal) {
    || (answer.stage != first.stage && answer.stage != last.stage)
    || (answer.score != first.score && answer.score != last.score)
    || (answer.broker != first.broker && answer.broker != last.broker)
    || (first.contactReference.Some? && answer.contactReference.Some? && last.contactReference.Some?
        && answer.contactReference != first.contactReference && answer.contactReference != last.contactReference)
  }

  /** What a session writes that stores only the columns a refresh has changed on the row it had loaded. */
  function ChangedColumns(stored: LeadRow, loaded: LeadRow, refreshed: LeadRow): LeadRow {
    stored.(
      stage := if refreshed.stage != loaded.stage then refreshed.stage else stored.stage,
      score := if refreshed.score != loaded.score then refreshed.score else stored.score,
      broker := if refreshed.broker != loaded.broker then refreshed.broker else stored.broker,
      contactReference := if refreshed.contactReference != loaded.contactReference then refreshed.contactReference
        else stored.contactReference,
      syncedAt := refreshed.syncedAt)
  }

  /** Such a session loses the edit too. */
  ghost predicate LosesByColumns(
      s: Sys, t: Sys, lead: LeadId, org: OrgId, id: string, answer: Deal, last: Deal, at: Time)
  {
    lead < |s.db.leads| && lead < |t.db.leads| && StageOk(answer) &&
    var refreshed := Resynced(s.db.leads[lead], answer, ParseStage(answer.stage).value, at);
    !IsMirror(ChangedColumns(t.db.leads[lead], s.db.leads[lead], refreshed), org, id, last)
  }

  lemma EitherWayItIsLost(
    s: Sys, t: Sys, lead: LeadId, org: OrgId, id: string, first: Deal, answer: Deal, last: Deal, at: Time)
    requires StageOk(first) && StageOk(answer) && StageOk(last) && DiffersFromBoth(first, answer, last)
    requires lead < |s.db.leads| && IsMirror(s.db.leads[lead], org, id, first)
    requires UniqueLeads(t.db.leads) && IsLeadOf(t, lead, org, id) && Seen(t, org, id, last)
    ensures LosesByColumns(s, t, lead, org, id, answer, last, at)
  {
    var i := MirrorOf(t.db.leads, org, id, last);
    assert i == lead;
  }

  lemma LosesEitherWay(
    config: Config, states: seq<Sys>, steps: seq<LateStep>, s: Sys, lead: LeadId, org: OrgId, id: string, first: Deal,
    answer: Deal, last: Deal, at: Time)
    requires Quiet(config, states, steps)
    requires StageOk(first) && StageOk(answer) && StageOk(last) && DiffersFromBoth(first, answer, last)
    requires lead < |s.db.leads| && IsMirror(s.db.leads[lead], org, id, first)
    requires IsLeadOf(states[|steps|], lead, org, id) && Seen(states[|steps|], org, id, last)
    ensures LosesByColumns(s, states[|steps|], lead, org, id, answer, last, at)
  {
    QuietKeeps(config, states, steps);
    InvariantKeepsPromise(config, states[|steps|]);
    EitherWayItIsLost(s, states[|steps|], lead, org, id, first, answer, last, at);
  }

  function Arrival(org: OrgId, id: string, first: Deal, now: Time): seq<LateStep> {
    [Atomic(CrmWrite(org, id, first)), Atomic(OnlyPoll(org, id, first, now))]
  }

  lemma Arrives(config: Config, start: Sys, org: OrgId, id: string, first: Deal, now: Time) returns (m: Sys, t: Sys)
    requires Initial(start) && StageOk(first) && EPOCH < first.updatedAt
    ensures m == Written(start, org, id, first) && t == Transacted(config, m, OnlyPoll(org, id, first, now).txn)
    ensures Quiet(config, [start, m, t], Arrival(org, id, first, now))
    ensures Seen(t, org, id, first) && t.clock == first.updatedAt
  {
    m, t := EditAndPoll(config, [start], [], org, id, first, now);
    assert [start] + [m, t] == [start, m, t] && [] + Arrival(org, id, first, now) == Arrival(org, id, first, now);
  }

  predicate IsLeadOf(s: Sys, lead: LeadId, org: OrgId, id: string) {
    lead < |s.db.leads| && s.db.leads[lead].org == org && s.db.leads[lead].crmLeadId == id
  }

  /** The commit of a resync that was answered before the edit a poll has seen. */
  lemma ResyncLoses(
    config: Config, states: seq<Sys>, steps: seq<LateStep>, asked: nat, org: OrgId, id: string, answer: Deal,
    last: Deal,
    lead: LeadId, at: Time)
    returns (t: Sys)
    requires Quiet(config, states, steps) && asked < |steps| && steps[asked] == Ask(lead, at)
    requires HoldsOnly(states[asked], org, id, answer) && IsLeadOf(states[asked], lead, org, id)
    requires Seen(states[|steps|], org, id, last) && IsLeadOf(states[|steps|], lead, org, id)
    requires MirroredFieldsDiffer(answer, last)
    ensures IsLateRun(config, states + [t], steps + [CommitLate(asked, Transact(Resync(lead, Some(answer), at)))])
    ensures AllKept(states) && !PromiseKept(t)
  {
    var s, commit := states[|steps|], Resync(lead, Some(answer), at);
    assert WasAsked(states[asked], steps[asked], commit);
    t := CommitIsLast(config, states, steps, asked, Transact(commit));
    QuietKeeps(config, states, steps);
    OldAnswerBreaks(config, s, t, commit, org, id, answer, last);
  }

  /** The deal arrives and is polled; then it is edited, asked for, edited and polled; then the answer is stored. */
  function ResyncRun(
    org: OrgId, id: string, first: Deal, answer: Deal, last: Deal, lead: LeadId, now: Time, at: Time): seq<LateStep>
  {
    Arrival(org, id, first, now) + Between(org, id, answer, last, lead, at)
    + [CommitLate(3, Transact(Resync(lead, Some(answer), at)))]
  }

  /** From the empty system: a resync that was answered with an edit nothing had mirrored yet, and is stored after a
      poll has seen the next one, loses that next edit. */
  lemma AnEditIsLost(
    config: Config, start: Sys, org: OrgId, id: string, first: Deal, answer: Deal, last: Deal, now: Time, at: Time)
    returns (states: seq<Sys>, lead: LeadId)
    requires Initial(start)
    requires StageOk(first) && StageOk(answer) && StageOk(last) && DiffersFromBoth(first, answer, last)
    requires EPOCH < first.updatedAt < answer.updatedAt < last.updatedAt
    ensures IsLateRun(config, states, ResyncRun(org, id, first, answer, last, lead, now, at)) && states[0] == start
    ensures AllKept(states[..7]) && !PromiseKept(states[7])
    ensures LosesByColumns(states[3], states[6], lead, org, id, answer, last, at)
  {
    var s1, s2 := Arrives(config, start, org, id, first, now);
    lead := MirrorOf(s2.db.leads, org, id, first);
    var s3, s5, s6 :=
      EditAskEditPoll(config, [start, s1, s2], Arrival(org, id, first, now), org, id, answer, last, lead, at);
    var kept := [start, s1, s2] + [s3, s3, s5, s6];
    var steps := Arrival(org, id, first, now) + Between(org, id, answer, last, lead, at);
    ThreeAndFour([start, s1, s2], [s3, s3, s5, s6]);
    assert steps[3] == Ask(lead, at);
    LosesEitherWay(config, kept, steps, s3, lead, org, id, first, answer, last, at);
    var s7 := ResyncLoses(config, kept, steps, 3, org, id, answer, last, lead, at);
    states := kept + [s7];
    OneMore(kept, s7);
  }

  lemma MirrorOf(leads: seq<LeadRow>, org: OrgId, id: string, deal: Deal) returns (lead: LeadId)
    requires Mirrored(leads, org, id, deal)
    ensures lead < |leads| && IsMirror(leads[lead], org, id, deal)
  {
    var i :| 0 <= i < |leads| && IsMirror(leads[i], org, id, deal);
    lead := i;
  }

  // ---- By a poll over another poll -------------------------------------------------------------

  /** The deal arrives and a poll lists it; it is edited and another poll sees the edit; then the first poll commits. */
  function PollRun(org: OrgId, id: string, first: Deal, last: Deal, now: Time): seq<LateStep> {
    [Atomic(CrmWrite(org, id, first)), AskAll(org), Atomic(CrmWrite(org, id, last)),
      Atomic(OnlyPoll(org, id, last, now))]
    + [CommitLate(1, OnlyPoll(org, id, first, now))]
  }

  lemma TwoPolls(config: Config, start: Sys, org: OrgId, id: string, first: Deal, last: Deal, now: Time)
    returns (m: Sys, e: Sys, t: Sys, steps: seq<LateStep>)
    requires Initial(start) && StageOk(first) && StageOk(last) && EPOCH < first.updatedAt < last.updatedAt
    ensures steps + [CommitLate(1, OnlyPoll(org, id, first, now))] == PollRun(org, id, first, last, now)
    ensures |steps| == 4 && steps[1] == AskAll(org)
    ensures Quiet(config, [start, m, m, e, t], steps) && m == Written(start, org, id, first)
    ensures Seen(t, org, id, last)
  {
    var arrival := Atomic(CrmWrite(org, id, first));
    m := Edit(config, [start], [], org, id, first);
    Asks(config, [start] + [m], [] + [arrival], AskAll(org));
    e, t := EditAndPoll(config, [start] + [m] + [m], [] + [arrival] + [AskAll(org)], org, id, last, now);
    var edit, poll := Atomic(CrmWrite(org, id, last)), Atomic(OnlyPoll(org, id, last, now));
    steps := [] + [arrival] + [AskAll(org)] + [edit, poll];
    OneByOne([start], m, m, e, t);
    OneByOne([], arrival, AskAll(org), edit, poll);
    assert [start] + [m, m, e, t] == [start, m, m, e, t];
  }

  /** From the empty system: of two overlapping polls, the one that listed first and commits last loses the edit. */
  lemma AnOverlappedEditIsLost(config: Config, start: Sys, org: OrgId, id: string, first: Deal, last: Deal, now: Time)
    returns (states: seq<Sys>)
    requires Initial(start) && StageOk(first) && StageOk(last) && MirroredFieldsDiffer(first, last)
    requires EPOCH < first.updatedAt < last.updatedAt
    ensures IsLateRun(config, states, PollRun(org, id, first, last, now)) && states[0] == start
    ensures AllKept(states[..5]) && !PromiseKept(states[5])
  {
    var m, e, t, steps := TwoPolls(config, start, org, id, first, last, now);
    var kept := [start, m, m, e, t];
    OnlyListing(CrmOf(m.crm, org), id, first, Watermark(m.db, org));
    assert steps[1] == AskAll(org) && kept[1] == m;
    var s5 := CommitIsLast(config, kept, steps, 1, OnlyPoll(org, id, first, now));
    states := kept + [s5];
    assert states[..5] == kept;
    OutdatedPollBreaks(config, states, PollRun(org, id, first, last, now), 4, org, id, first, last);
  }

  lemma OutdatedPollBreaks(
    config: Config, states: seq<Sys>, steps: seq<LateStep>, k: nat, org: OrgId, id: string, first: Deal, last: Deal)
    requires IsLateRun(config, states, steps) && k < |steps| && IsPollCommit(steps[k]) && PromiseKept(states[k])
    requires steps[k].step == OnlyPoll(org, id, first, steps[k].step.txn.now)
    requires Seen(states[k], org, id, last) && StageOk(first) && MirroredFieldsDiffer(first, last)
    ensures !PromiseKept(states[k + 1])
  {
    LateCommitBreaksExactlyWhen(config, states, steps, k);
    PollDisagrees(config, states, steps, k);
    var s := steps[k].step.txn.listing.value[0];
    assert IsOutdated(s, CrmOf(states[k].crm, org), Watermark(states[k].db, org));
  }

  // ---- By a guarded recommendation -------------------------------------------------------------

  const RECOMMEND: string := "recommendation.on_profile_completed"

  /** What surrounds a handler run in which nothing raises and the CRM's stage is not moved. */
  function Calm(input: TurnInput, answer: Deal, text: string, now: Time): Env {
    Env(input, None, Some(answer), text, None, None, now)
  }

  /** A worker stands before the recommendation of a complete lead that has no conversation. */
  ghost predicate Poised(s: Sys, threshold: real, org: OrgId, lead: LeadId) {
    && AtConsumer(WIRED, BusOf(s), 0)
    && NextDelivery(WIRED, BusOf(s), 0) == (RECOMMEND, 0) && !Known(BusOf(s), 0, (RECOMMEND, 0))
    && |s.db.outbox| > 0 && s.db.outbox[0].event.ProfileCompleted?
    && s.db.outbox[0].event.org == org && s.db.outbox[0].event.leadId == lead
    && IsComplete(s.db, lead, threshold)
    && s.db.conversations == []
  }

  lemma FirstPoll(org: OrgId, id: string, deal: Deal, now: Time)
    requires StageOk(deal) && EPOCH < deal.updatedAt
    ensures CommittedPoll(EMPTY_DB, org, [Snapshot(id, deal)], now).Ok?
    ensures var r := CommittedPoll(EMPTY_DB, org, [Snapshot(id, deal)], now).value;
            && r == EMPTY_DB.(leads := r.leads, cursors := r.cursors, audit := r.audit)
            && r.leads == [NewLead(org, Snapshot(id, deal), ParseStage(deal.stage).value, now)]
  {
    var start, s := PollStart(EMPTY_DB, org, EPOCH), Snapshot(id, deal);
    assert [s][..0] == [];
    assert LeadsByCrmId([], org, id) == {};
    assert PollAll(org, start, [], now) == Ok(start);
    assert PollAll(org, start, [s], now) == PollSnapshot(org, start, s, now);
  }

  lemma OnlyPollWrites(db: Db, org: OrgId, id: string, deal: Deal, now: Time, lead: LeadId)
    requires UniqueLeads(db.leads) && StageOk(deal) && deal.updatedAt > Watermark(db, org)
    requires lead < |db.leads| && db.leads[lead].org == org && db.leads[lead].crmLeadId == id
    ensures CommittedPoll(db, org, [Snapshot(id, deal)], now).Ok?
    ensures var r := CommittedPoll(db, org, [Snapshot(id, deal)], now).value;
            && r == db.(leads := r.leads, cursors := r.cursors, outbox := r.outbox, audit := r.audit)
            && |db.outbox| <= |r.outbox| && (forall i :: 0 <= i < |db.outbox| ==> r.outbox[i] == db.outbox[i])
            && lead < |r.leads|
            && r.leads[lead] == Resynced(db.leads[lead], deal, ParseStage(deal.stage).value, now)
  {
    var snapshots, since := [Snapshot(id, deal)], Watermark(db, org);
    PollOutcome(db, org, since, snapshots, now);
    PollRewrites(org, PollStart(db, org, since), snapshots, now);
    assert RowAfter(org, snapshots, now, db.leads[lead],
        PollAll(org, PollStart(db, org, since), snapshots, now).value.db.leads[lead]);
    assert Rewrites(snapshots[0], org, db.leads[lead]);
  }

  /** A poll of one deal leaves the worker, the profiles and the conversations alone, and refreshes its lead. */
  lemma OnlyPollFrame(config: Config, s: Sys, org: OrgId, id: string, deal: Deal, now: Time, lead: LeadId)
    requires UniqueLeads(s.db.leads) && StageOk(deal) && deal.updatedAt > Watermark(s.db, org)
    requires IsLeadOf(s, lead, org, id)
    ensures var t := Transacted(config, s, OnlyPoll(org, id, deal, now).txn);
            && t.batches == s.batches && t.db.inbox == s.db.inbox
            && t.db.profiles == s.db.profiles && t.db.conversations == s.db.conversations
            && |s.db.outbox| <= |t.db.outbox|
                 && (forall i :: 0 <= i < |s.db.outbox| ==> t.db.outbox[i] == s.db.outbox[i])
            && IsLeadOf(t, lead, org, id) && t.db.leads[lead].syncedAt == now
  {
    OnlyPollWrites(s.db, org, id, deal, now, lead);
  }

  lemma PollKeepsPoised(config: Config, s: Sys, org: OrgId, id: string, deal: Deal, now: Time, lead: LeadId)
    requires UniqueLeads(s.db.leads) && StageOk(deal) && deal.updatedAt > Watermark(s.db, org)
    requires IsLeadOf(s, lead, org, id) && Poised(s, config.threshold, org, lead)
    ensures Poised(Transacted(config, s, OnlyPoll(org, id, deal, now).txn), config.threshold, org, lead)
  {
    OnlyPollFrame(config, s, org, id, deal, now, lead);
  }

  /** One complete profile in the store, its event unhandled; no conversation yet. */
  ghost predicate Completed(s: Sys, threshold: real, org: OrgId, lead: LeadId) {
    && s.batches == map[] && s.db.inbox == {} && s.db.conversations == []
    && |s.db.outbox| == 1 && s.db.outbox[0].event.ProfileCompleted? && s.db.outbox[0].processedAt.None?
    && s.db.outbox[0].event.org == org && s.db.outbox[0].event.leadId == lead
    && IsComplete(s.db, lead, threshold)
  }

  predicate Completes(patch: ProfilePatch, threshold: real, now: Time) {
    patch.Valid() && !patch.IsEmpty() && EmptyProfile(now).Apply(patch, now).Completeness() >= threshold > 0.0
  }

  /** The first patch of the only lead, when it completes the profile. */
  lemma FirstPatch(config: Config, s: Sys, org: OrgId, id: string, patch: ProfilePatch, now: Time)
    requires s.db == EMPTY_DB.(leads := s.db.leads, cursors := s.db.cursors, audit := s.db.audit)
    requires s.batches == map[] && IsLeadOf(s, 0, org, id) && Completes(patch, config.threshold, now)
    ensures var t := Transacted(config, s, Patch(0, patch, now));
            && Completed(t, config.threshold, org, 0)
            && t.crm == s.crm && t.db.leads == s.db.leads
  {
    UpdateEffect(s.db, 0, patch, config.threshold, now);
    CapturedCount(EmptyProfile(now));
    var before, after := EmptyProfile(now), EmptyProfile(now).Apply(patch, now);
    assert CompletionEvents(s.db.leads[0], 0, before, after, config.threshold)
        == [ProfileCompleted(org, 0, id, after.Completeness(), after)];
  }

  /** A worker opens a batch with that event. */
  lemma BatchOpens(config: Config, s: Sys, org: OrgId)
    requires Completed(s, config.threshold, org, 0)
    ensures Possible(s, Work(Begin(0, [0], 1)))
    ensures var t := Next(config, s, Work(Begin(0, [0], 1)));
            t.db == s.db && t.crm == s.crm && t.clock == s.clock && TakenUp(t, config.threshold, org, 0)
  {
    assert Locked(BusOf(s)) == {};
    assert IsBatch(s.db.outbox, {}, 1, [0]);
  }

  /** A worker stands before the first consumer of that event. */
  ghost predicate TakenUp(s: Sys, threshold: real, org: OrgId, lead: LeadId) {
    && s.batches == map[0 := Batch([0], 0, 0, {}, map[], map[])]
    && Completed(s.(batches := map[]), threshold, org, lead)
  }

  lemma PushIsNext(
      config: Config, s: Sys, org: OrgId, id: string, first: Deal, input: TurnInput, text: string, now: Time)
    requires TakenUp(s, config.threshold, org, 0)
    requires IsLeadOf(s, 0, org, id) && HoldsOnly(s, org, id, first) && first.stage == StageName(Qualified)
    ensures Possible(s, Handle(0, Calm(input, first, text, now)))
    ensures Next(config, s, Handle(0, Calm(input, first, text, now)))
         == HandledAs(config, s, 0, Calm(input, first, text, now), Push(0, Some(first), now))
  {
    var env, push := Calm(input, first, text, now), Push(0, Some(first), now);
    assert NextDelivery(WIRED, BusOf(s), 0) == (CRM_PUSH, 0);
    assert TxnOf(s, 0, env) == push == AttemptOf(s, 0, env);
  }

  lemma PushWrites(db: Db, first: Deal, now: Time)
    requires UniqueLeads(db.leads) && |db.leads| > 0 && StageOk(first)
    ensures HandleCrmPush(db, 0, Some(first), now).Ok?
    ensures var r := HandleCrmPush(db, 0, Some(first), now).value;
            && r == db.(leads := r.leads, outbox := r.outbox, audit := r.audit)
            && |db.outbox| <= |r.outbox| && (forall i :: 0 <= i < |db.outbox| ==> r.outbox[i] == db.outbox[i])
            && r.leads == db.leads[0 := Resynced(db.leads[0], first, ParseStage(first.stage).value, now)]
  {
    PushIsAResync(db, 0, Some(first), now);
    ResyncWrites(db, 0, "system.event_bus", Some(first), now);
  }

  lemma PushRecorded(config: Config, s: Sys, org: OrgId, env: Env, push: Txn)
    requires TakenUp(s, config.threshold, org, 0) && env.raises.None? && env.raisesLate.None?
    requires push.Push? && Run(config, s.db, push).Ok?
    ensures AtConsumer(WIRED, BusOf(s), 0)
    ensures var t := HandledAs(config, s, 0, env, push);
            && t.db == Run(config, s.db, push).value && t.crm == s.crm && t.clock == s.clock
            && t.batches == map[0 := Batch([0], 0, 1, {(CRM_PUSH, 0)}, map[], map[])]
  {
    SuccessRecorded(config, s, org);
    var recorded := Recorded(s, 0, None);
    assert Failure(config, s.db, push, env) == None;
    assert Transacted(config, recorded, push).batches == recorded.batches;
  }

  lemma SuccessRecorded(config: Config, s: Sys, org: OrgId)
    requires TakenUp(s, config.threshold, org, 0)
    ensures AtConsumer(WIRED, BusOf(s), 0)
    ensures var t := Recorded(s, 0, None);
            && t.batches == map[0 := Batch([0], 0, 1, {(CRM_PUSH, 0)}, map[], map[])]
            && t.db == s.db && t.crm == s.crm && t.clock == s.clock
  {
    var d: Delivery := (CRM_PUSH, 0);
    assert NextDelivery(WIRED, BusOf(s), 0) == d;
    assert s.batches[0].staged + {d} == {d};
    assert Recorded(s, 0, None).batches[0] == Batch([0], 0, 1, {d}, map[], map[]);
  }

  /** It pushes the stage, which the CRM already has. */
  lemma PushRuns(config: Config, s: Sys, org: OrgId, id: string, first: Deal, env: Env, now: Time)
    requires UniqueLeads(s.db.leads) && TakenUp(s, config.threshold, org, 0)
    requires env.raises.None? && env.raisesLate.None?
    requires IsLeadOf(s, 0, org, id) && StageOk(first)
    ensures AtConsumer(WIRED, BusOf(s), 0)
    ensures var t := HandledAs(config, s, 0, env, Push(0, Some(first), now));
            && Poised(t, config.threshold, org, 0) && t.crm == s.crm && t.clock == s.clock
            && |t.db.leads| > 0 && IsMirror(t.db.leads[0], org, id, first) && t.db.leads[0].syncedAt == now
  {
    PushWrites(s.db, first, now);
    PushRecorded(config, s, org, env, Push(0, Some(first), now));
    PushedIsPoised(HandledAs(config, s, 0, env, Push(0, Some(first), now)), config.threshold, org);
  }

  lemma PushedIsPoised(s: Sys, threshold: real, org: OrgId)
    requires s.batches == map[0 := Batch([0], 0, 1, {(CRM_PUSH, 0)}, map[], map[])]
    requires s.db.inbox == {} && s.db.conversations == []
    requires |s.db.outbox| > 0 && s.db.outbox[0].event.ProfileCompleted?
    requires s.db.outbox[0].event.org == org && s.db.outbox[0].event.leadId == 0 && IsComplete(s.db, 0, threshold)
    ensures Poised(s, threshold, org, 0)
  {
    assert ConsumersOf(WIRED, s.db.outbox, 0) == [CRM_PUSH, RECOMMEND];
  }

  /** The deal arrives and is polled; its profile is completed in one patch; a worker takes the event up and pushes the
      stage. */
  function Preparation(
    org: OrgId, id: string, first: Deal, patch: ProfilePatch, input: TurnInput, text: string, now: Time): seq<LateStep>
  {
    Arrival(org, id, first, now)
    + [Atomic(Transact(Patch(0, patch, now)))]
    + [Atomic(Work(Begin(0, [0], 1)))]
    + [Atomic(Handle(0, Calm(input, first, text, now)))]
  }

  lemma ArrivesComplete(
    config: Config, start: Sys, org: OrgId, id: string, first: Deal, patch: ProfilePatch, now: Time)
    returns (kept: seq<Sys>, steps: seq<LateStep>)
    requires Initial(start) && StageOk(first) && EPOCH < first.updatedAt && Completes(patch, config.threshold, now)
    ensures steps == Arrival(org, id, first, now) + [Atomic(Transact(Patch(0, patch, now)))]
    ensures Quiet(config, kept, steps) && kept[0] == start
    ensures Completed(kept[3], config.threshold, org, 0) && HoldsOnly(kept[3], org, id, first)
    ensures kept[3].clock == first.updatedAt && IsLeadOf(kept[3], 0, org, id)
  {
    var m, t := Arrives(config, start, org, id, first, now);
    FirstPoll(org, id, first, now);
    FirstPatch(config, t, org, id, patch, now);
    steps := Arrival(org, id, first, now) + [Atomic(Transact(Patch(0, patch, now)))];
    var patched := Acts(config, [start, m, t], Arrival(org, id, first, now), Transact(Patch(0, patch, now)));
    kept := [start, m, t] + [patched];
  }

  lemma IsTakenUp(
    config: Config, states: seq<Sys>, steps: seq<LateStep>, org: OrgId, id: string, first: Deal, input: TurnInput,
    text: string, now: Time)
    returns (m: Sys, t: Sys)
    requires Quiet(config, states, steps) && first.stage == StageName(Qualified)
    requires var s := states[|steps|];
             Completed(s, config.threshold, org, 0) && HoldsOnly(s, org, id, first) && IsLeadOf(s, 0, org, id)
    ensures Quiet(config, states + [m] + [t],
                  steps + [Atomic(Work(Begin(0, [0], 1)))] + [Atomic(Handle(0, Calm(input, first, text, now)))])
    ensures Poised(t, config.threshold, org, 0) && HoldsOnly(t, org, id, first) && t.clock == states[|steps|].clock
    ensures |t.db.leads| > 0 && IsMirror(t.db.leads[0], org, id, first) && t.db.leads[0].syncedAt == now
  {
    BatchOpens(config, states[|steps|], org);
    m := Acts(config, states, steps, Work(Begin(0, [0], 1)));
    InvariantKeepsPromise(config, m);
    PushIsNext(config, m, org, id, first, input, text, now);
    PushRuns(config, m, org, id, first, Calm(input, first, text, now), now);
    t := Acts(config, states + [m], steps + [Atomic(Work(Begin(0, [0], 1)))], Handle(0, Calm(input, first, text, now)));
  }

  lemma Prepares(
    config: Config, start: Sys, org: OrgId, id: string, first: Deal, patch: ProfilePatch, input: TurnInput,
    text: string, now: Time)
    returns (kept: seq<Sys>)
    requires Initial(start) && StageOk(first) && EPOCH < first.updatedAt && first.stage == StageName(Qualified)
    requires Completes(patch, config.threshold, now)
    ensures Quiet(config, kept, Preparation(org, id, first, patch, input, text, now)) && kept[0] == start
    ensures Poised(kept[5], config.threshold, org, 0) && HoldsOnly(kept[5], org, id, first)
    ensures var s := kept[5];
            && s.clock == first.updatedAt
            && |s.db.leads| > 0 && IsMirror(s.db.leads[0], org, id, first) && s.db.leads[0].syncedAt == now
  {
    var before, steps := ArrivesComplete(config, start, org, id, first, patch, now);
    assert |steps| == 3 && |before| == 4;
    var m, t := IsTakenUp(config, before, steps, org, id, first, input, text, now);
    kept := before + [m] + [t];
    FourAndTwo(before, m, t);
  }

  lemma RecommendIsNext(s: Sys, org: OrgId, answer: Deal, input: TurnInput, text: string, at: Time)
    requires exists threshold :: Poised(s, threshold, org, 0)
    ensures CanCommit(s, Handle(0, Calm(input, answer, text, at)))
    ensures Whole(s, Handle(0, Calm(input, answer, text, at))) == Recommend(org, 0, Some(answer), text, at)
  {
    assert TxnOf(s, 0, Calm(input, answer, text, at)) == Recommend(org, 0, Some(answer), text, at);
  }

  /** What the recommendation commits when its guard found the lead stale before the edits. */
  lemma RecommendLoses(
    config: Config, states: seq<Sys>, steps: seq<LateStep>, asked: nat, org: OrgId, id: string, answer: Deal,
    last: Deal,
    input: TurnInput, text: string, at: Time)
    returns (t: Sys)
    requires Quiet(config, states, steps) && asked < |steps| && steps[asked] == Ask(0, at)
    requires HoldsOnly(states[asked], org, id, answer) && IsLeadOf(states[asked], 0, org, id)
    requires at - states[asked].db.leads[0].syncedAt > config.bound
    requires Seen(states[|steps|], org, id, last) && IsLeadOf(states[|steps|], 0, org, id)
    requires Poised(states[|steps|], config.threshold, org, 0)
    requires MirroredFieldsDiffer(answer, last)
    ensures IsLateRun(config, states + [t], steps + [CommitLate(asked, Handle(0, Calm(input, answer, text, at)))])
    ensures AllKept(states) && !PromiseKept(t)
  {
    var s, step := states[|steps|], Handle(0, Calm(input, answer, text, at));
    RecommendIsNext(s, org, answer, input, text, at);
    t := CommitIsLast(config, states, steps, asked, step);
    QuietKeeps(config, states, steps);
    var txn := RecommendStoresIt(config, states[asked], s, org, id, answer, input, text, at);
    CommitTables(config, states[asked], steps[asked], s, step);
    OldAnswerBreaks(config, s, t, txn, org, id, answer, last);
  }

  lemma RecommendStoresIt(
    config: Config, earlier: Sys, s: Sys, org: OrgId, id: string, answer: Deal, input: TurnInput, text: string,
    at: Time)
    returns (txn: Txn)
    requires HoldsOnly(earlier, org, id, answer) && IsLeadOf(earlier, 0, org, id)
    requires at - earlier.db.leads[0].syncedAt > config.bound
    requires IsLeadOf(s, 0, org, id) && Poised(s, config.threshold, org, 0)
    ensures var step := Handle(0, Calm(input, answer, text, at));
            && CanCommit(s, step) && WasAsked(earlier, Ask(0, at), Whole(s, step))
            && txn == Attempt(config, earlier, Ask(0, at), s, step)
    ensures txn == ResumeRecommend(org, 0, Stale, Some(answer), text, at) && StoresRefresh(s.db, config.threshold, txn)
  {
    RecommendIsNext(s, org, answer, input, text, at);
    txn := ResumeRecommend(org, 0, Stale, Some(answer), text, at);
    assert ConversationsByLead(s.db.conversations, org, 0) == {};
  }

  lemma Overtakes(
    config: Config, states: seq<Sys>, steps: seq<LateStep>, org: OrgId, id: string, first: Deal, answer: Deal,
    last: Deal,
    now: Time, at: Time)
    returns (m: Sys, after: seq<Sys>)
    requires Quiet(config, states, steps) && StageOk(answer) && StageOk(last)
    requires var s := states[|steps|];
             && Poised(s, config.threshold, org, 0) && HoldsOnly(s, org, id, first)
             && s.clock < answer.updatedAt < last.updatedAt
             && |s.db.leads| > 0 && IsMirror(s.db.leads[0], org, id, first) && s.db.leads[0].syncedAt == now
    ensures |after| == 4 && after[0] == m
            && Quiet(config, states + after, steps + Between(org, id, answer, last, 0, at))
    ensures HoldsOnly(m, org, id, answer)
    ensures |m.db.leads| > 0 && IsMirror(m.db.leads[0], org, id, first) && m.db.leads[0].syncedAt == now
    ensures var t := after[3];
            && Seen(t, org, id, last) && Poised(t, config.threshold, org, 0)
            && IsLeadOf(t, 0, org, id) && t.db.leads[0].syncedAt == at
  {
    var e, t;
    m, e, t := EditAskEditPoll(config, states, steps, org, id, answer, last, 0, at);
    after := [m, m, e, t];
    assert Poised(e, config.threshold, org, 0) && IsLeadOf(e, 0, org, id);
    OnlyPollFrame(config, e, org, id, last, at, 0);
    PollKeepsPoised(config, e, org, id, last, at, 0);
  }

  /** The recommendation is next; the lead has gone stale, its deal is edited, the guard asks for it, the deal is edited
      again and polled, and the handler commits. */
  function RecommendationRun(
    org: OrgId, id: string, first: Deal, answer: Deal, last: Deal, patch: ProfilePatch, input: TurnInput, text: string,
    now: Time, at: Time): seq<LateStep>
  {
    Preparation(org, id, first, patch, input, text, now) + Between(org, id, answer, last, 0, at)
    + [CommitLate(6, Handle(0, Calm(input, answer, text, at)))]
  }

  lemma ReachesTheCommit(
    config: Config, start: Sys, org: OrgId, id: string, first: Deal, answer: Deal, last: Deal, patch: ProfilePatch,
    input: TurnInput, text: string, now: Time, at: Time)
    returns (kept: seq<Sys>, m: Sys)
    requires Initial(start) && Completes(patch, config.threshold, now)
    requires first.stage == StageName(Qualified) && StageOk(first) && StageOk(answer) && StageOk(last)
    requires EPOCH < first.updatedAt < answer.updatedAt < last.updatedAt
    ensures Quiet(config, kept,
                  Preparation(org, id, first, patch, input, text, now) + Between(org, id, answer, last, 0, at))
    ensures |kept| == 10 && kept[0] == start && kept[6] == m
    ensures HoldsOnly(m, org, id, answer)
    ensures |m.db.leads| > 0 && IsMirror(m.db.leads[0], org, id, first) && m.db.leads[0].syncedAt == now
    ensures var t := kept[9];
            && Seen(t, org, id, last) && Poised(t, config.threshold, org, 0)
            && IsLeadOf(t, 0, org, id) && t.db.leads[0].syncedAt == at
  {
    var steps := Preparation(org, id, first, patch, input, text, now);
    var before := Prepares(config, start, org, id, first, patch, input, text, now);
    assert |steps| == 5;
    var after;
    m, after := Overtakes(config, before, steps, org, id, first, answer, last, now, at);
    kept := before + after;
    SixAndFour(before, after);
  }

  /** From the empty system: a recommendation whose guard found the lead stale loses the edit a poll has seen since,
      although the poll has left the lead fresh. */
  lemma ARecommendationLosesAnEdit(
    config: Config, start: Sys, org: OrgId, id: string, first: Deal, answer: Deal, last: Deal, patch: ProfilePatch,
    input: TurnInput, text: string, now: Time, at: Time)
    returns (states: seq<Sys>)
    requires Initial(start) && Completes(patch, config.threshold, now)
    requires first.stage == StageName(Qualified) && StageOk(answer) && StageOk(last)
    requires DiffersFromBoth(first, answer, last)
    requires EPOCH < first.updatedAt < answer.updatedAt < last.updatedAt
    requires at - now > config.bound >= 0
    ensures IsLateRun(config, states, RecommendationRun(org, id, first, answer, last, patch, input, text, now, at))
    ensures states[0] == start
    ensures Judge(states[6].db, 0, config.bound, at) == Stale && Judge(states[9].db, 0, config.bound, at) == Fresh
    ensures AllKept(states[..10]) && !PromiseKept(states[10])
    ensures LosesByColumns(states[6], states[9], 0, org, id, answer, last, at)
  {
    StageRoundTrip(Qualified);
    var kept, m := ReachesTheCommit(config, start, org, id, first, answer, last, patch, input, text, now, at);
    var steps := Preparation(org, id, first, patch, input, text, now) + Between(org, id, answer, last, 0, at);
    assert steps[6] == Ask(0, at);
    LosesEitherWay(config, kept, steps, m, 0, org, id, first, answer, last, at);
    var s10 := RecommendLoses(config, kept, steps, 6, org, id, answer, last, input, text, at);
    states := kept + [s10];
    OneMore(kept, s10);
  }
}
