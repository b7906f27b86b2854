/** What holds in every state of every run of the composed system: the moves of the CRM, the transactions, the handler
    runs and the worker's own moves each keep the joint invariant of tables and worker, and never take back what
    was. */
module SystemRuns {
  import opened Prelude
  import opened LeadDomain
  import opened Store
  import opened LeadSync
  import opened CrmMirror
  import opened ProfileCapture
  import opened Coordinator
  import opened Webhook
  import opened RecommendationHandler
  import opened Lifecycle
  import opened EventBus
  import opened BusRuns
  import opened LeadToSales
  import opened DataInvariant
  import opened SystemInvariant

  ghost predicate SysInv(config: Config, s: Sys) {
    DataInv(config, s) && BusInv(WIRED, BusOf(s))
  }

  /** What no step ever takes back. */
  ghost predicate Onward(config: Config, s: Sys, t: Sys) {
    && (forall org: OrgId :: Watermark(s.db, org) <= Watermark(t.db, org))
    && LeadsGrow(s.db, t.db, config.threshold)
    && ConversationsGoOn(s.db.conversations, t.db.conversations)
    && Log(s.db.outbox) <= Log(t.db.outbox)
    && s.births <= t.births
    && s.acked <= t.acked
  }

  lemma InitialHolds(config: Config, s: Sys)
    requires Initial(s)
    ensures SysInv(config, s)
  {
    assert Log(s.db.outbox) == [];
    forall org: OrgId ensures MirrorOk(s.db, org, CrmOf(s.crm, org), s.clock) {
    }
    forall lead: LeadId ensures TimesCompleted([], lead) == 0 {
    }
    assert ArchiveEvents(s.db) == [];
    assert ArchivedTriples(s.db) == {};
  }

  // ---- The CRM moves ---------------------------------------------------------------------------

  /** An edit is stamped after every earlier one, so no watermark has passed it. */
  lemma WriteKeepsMirror(config: Config, s: Sys, org: OrgId, id: string, deal: Deal)
    requires DataInv(config, s)
    requires deal.updatedAt > s.clock
    ensures DataInv(config, Written(s, org, id, deal))
  {
    var t := Written(s, org, id, deal);
    forall other: OrgId ensures MirrorOk(t.db, other, CrmOf(t.crm, other), t.clock) {
      assert MirrorOk(s.db, other, CrmOf(s.crm, other), s.clock);
    }
  }

  /** A repaired stage keeps its stamp, but no watermark has passed a bad stage either. */
  lemma RepairKeepsMirror(config: Config, s: Sys, org: OrgId, id: string, stage: string)
    requires DataInv(config, s)
    requires Possible(s, CrmRepair(org, id, stage))
    ensures DataInv(config, Next(config, s, CrmRepair(org, id, stage)))
  {
    var t := Next(config, s, CrmRepair(org, id, stage));
    forall other: OrgId ensures MirrorOk(t.db, other, CrmOf(t.crm, other), t.clock) {
      assert MirrorOk(s.db, other, CrmOf(s.crm, other), s.clock);
    }
  }

  lemma DeleteKeepsMirror(config: Config, s: Sys, org: OrgId, id: string)
    requires DataInv(config, s)
    ensures DataInv(config, Next(config, s, CrmDelete(org, id)))
  {
    var t := Next(config, s, CrmDelete(org, id));
    forall other: OrgId ensures MirrorOk(t.db, other, CrmOf(t.crm, other), t.clock) {
      assert MirrorOk(s.db, other, CrmOf(s.crm, other), s.clock);
    }
  }

  // ---- Handler runs and worker moves -----------------------------------------------------------

  /** The invariant of the tables does not look at the worker's side. */
  lemma OnlyTables(config: Config, s: Sys, t: Sys)
    requires DataInv(config, s)
    requires t.db == s.db && t.crm == s.crm && t.clock == s.clock && t.births == s.births && t.acked == s.acked
    ensures DataInv(config, t)
  {
  }

  /** What the CRM answers a handler does no harm, in the state its own stage push has left. */
  ghost predicate HandlesNoHarm(config: Config, s: Sys, w: nat, env: Env)
    requires CanRun(s, w, env)
  {
    var patched := Patched(s, TxnOf(s, w, env), env.stamp);
    Harmless(config, s.db, patched.crm, patched.clock, AttemptOf(s, w, env))
  }

  lemma HonestHandlerIsHarmless(config: Config, s: Sys, w: nat, env: Env)
    requires CanHandle(s, w, env)
    ensures HandlesNoHarm(config, s, w, env)
  {
  }

  lemma HandledAsKeepsData(config: Config, s: Sys, w: nat, env: Env, txn: Txn) returns (events: seq<Event>, now: Time)
    requires DataInv(config, s)
    requires AtConsumer(WIRED, BusOf(s), w) && IsScan(s.db, txn)
    requires Harmless(config, s.db, s.crm, s.clock, txn)
    ensures DataInv(config, HandledAs(config, s, w, env, txn))
    ensures Advances(config, s, HandledAs(config, s, w, env, txn), events, now)
  {
    var recorded := Recorded(s, w, Failure(config, s.db, txn, env));
    OnlyTables(config, s, recorded);
    events := TxnKeeps(config, recorded, txn);
    now := TxnTime(txn);
  }

  /** The stage push at the CRM is an edit like any other. */
  lemma PatchedKeeps(config: Config, s: Sys, w: nat, env: Env)
    requires SysInv(config, s) && CanRun(s, w, env)
    ensures SysInv(config, Patched(s, TxnOf(s, w, env), env.stamp))
    ensures BusOf(Patched(s, TxnOf(s, w, env), env.stamp)) == BusOf(s)
  {
    if env.stamp.Some? {
      var lead := s.db.leads[TxnOf(s, w, env).lead];
      WriteKeepsMirror(config, s, lead.org, lead.crmLeadId,
        CrmOf(s.crm, lead.org)[lead.crmLeadId].(stage := StageName(Qualified), updatedAt := env.stamp.value));
    }
  }

  /** Recording an outcome over the handler's own commit is the worker's step. */
  lemma RecordIsAStep(s: Sys, w: nat, failure: Option<string>, db: Db, events: seq<Event>, now: Time)
    requires AtConsumer(WIRED, BusOf(s), w) && !Known(BusOf(s), w, NextDelivery(WIRED, BusOf(s), w))
    requires Appends(s.db, db, events, now)
    ensures Enabled(WIRED, BusOf(s), Outcome(w, failure, events, now))
    ensures BusOf(Recorded(s, w, failure).(db := db)) == Apply(WIRED, BusOf(s), Outcome(w, failure, events, now))
  {
  }

  function Outcome(w: nat, failure: Option<string>, events: seq<Event>, now: Time): BusStep {
    if failure.None? then RunOk(w, events, now) else RunFail(w, failure.value, events, now)
  }

  /** A handler run is a run of the worker's transition system that publishes what the handler committed: a
      success when the handler neither raised nor was refused, a failure otherwise. */
  lemma HandledAsIsARun(config: Config, s: Sys, w: nat, env: Env, txn: Txn, events: seq<Event>, now: Time)
      returns (step: BusStep)
    requires AtConsumer(WIRED, BusOf(s), w) && !Known(BusOf(s), w, NextDelivery(WIRED, BusOf(s), w))
    requires IsScan(s.db, txn)
    requires Appends(s.db, HandledAs(config, s, w, env, txn).db, events, now)
    ensures step.RunOk? || step.RunFail?
    ensures Enabled(WIRED, BusOf(s), step) && BusOf(HandledAs(config, s, w, env, txn)) == Apply(WIRED, BusOf(s), step)
  {
    var failure := Failure(config, s.db, txn, env);
    RecordIsAStep(s, w, failure, HandledAs(config, s, w, env, txn).db, events, now);
    TransactedBus(config, Recorded(s, w, failure), txn);
    step := Outcome(w, failure, events, now);
  }

  lemma HandleIsARun(config: Config, s: Sys, w: nat, env: Env, events: seq<Event>, now: Time) returns (step: BusStep)
    requires CanRun(s, w, env)
    requires Appends(s.db, Handled(config, s, w, env).db, events, now)
    ensures step.RunOk? || step.RunFail?
    ensures Enabled(WIRED, BusOf(s), step) && BusOf(Handled(config, s, w, env)) == Apply(WIRED, BusOf(s), step)
  {
    var patched := Patched(s, TxnOf(s, w, env), env.stamp);
    assert BusOf(patched) == BusOf(s);
    step := HandledAsIsARun(config, patched, w, env, AttemptOf(s, w, env), events, now);
  }

  lemma TransactedBus(config: Config, s: Sys, txn: Txn)
    requires IsScan(s.db, txn)
    ensures BusOf(Transacted(config, s, txn)) == BusOf(s.(db := Transacted(config, s, txn).db))
  {
  }

  lemma WorkKeepsData(config: Config, s: Sys, step: BusStep)
    requires SysInv(config, s)
    requires IsWork(step) && Enabled(WIRED, BusOf(s), step)
    ensures DataInv(config, Next(config, s, Work(step)))
    ensures Log(Next(config, s, Work(step)).db.outbox) == Log(s.db.outbox)
  {
    var t := Next(config, s, Work(step));
    assert t.db == s.db.(outbox := t.db.outbox, inbox := t.db.inbox);
    SameLog(config, s, t);
  }

  /** Marks on outbox rows and inbox records are invisible to the invariant of the tables. */
  lemma SameLog(config: Config, s: Sys, t: Sys)
    requires DataInv(config, s)
    requires t.db == s.db.(outbox := t.db.outbox, inbox := t.db.inbox)
    requires Log(t.db.outbox) == Log(s.db.outbox)
    requires t.crm == s.crm && t.clock == s.clock && t.births == s.births && t.acked == s.acked
    ensures DataInv(config, t)
  {
    SameLogMirror(s, t);
    SameLogProfiles(s, t, config.threshold);
    SameLogArchive(s, t);
    assert Log(t.db.outbox) == Log(s.db.outbox) + [];
    QuietKeepsConversations(s.db, t.db, config.threshold, []);
  }

  lemma SameLogMirror(s: Sys, t: Sys)
    requires MirrorInv(s.db, s.crm, s.clock)
    requires t.db.leads == s.db.leads && t.db.cursors == s.db.cursors && t.crm == s.crm && t.clock == s.clock
    ensures MirrorInv(t.db, t.crm, t.clock)
  {
  }

  lemma SameLogProfiles(s: Sys, t: Sys, threshold: real)
    requires ProfileInv(s.db, threshold)
    requires t.db.leads == s.db.leads && t.db.profiles == s.db.profiles && Log(t.db.outbox) == Log(s.db.outbox)
    ensures ProfileInv(t.db, threshold) && LeadsGrow(s.db, t.db, threshold)
  {
  }

  lemma SameLogArchive(s: Sys, t: Sys)
    requires ArchiveInv(s.db, s.acked)
    requires t.db.archive == s.db.archive && t.db.conversations == s.db.conversations
    requires Log(t.db.outbox) == Log(s.db.outbox) && t.acked == s.acked
    ensures ArchiveInv(t.db, t.acked)
  {
    SameArchiveEvents(s.db, t.db);
    SameTriples(s.db, t.db);
  }

  // ---- Every step ------------------------------------------------------------------------------

  lemma StepKeeps(config: Config, s: Sys, step: Step)
    requires SysInv(config, s)
    requires Possible(s, step)
    ensures SysInv(config, Next(config, s, step))
    ensures Onward(config, s, Next(config, s, step))
  {
    match step
    case CrmWrite(org, id, deal) => WriteKeepsMirror(config, s, org, id, deal);
    case CrmRepair(org, id, stage) => RepairKeepsMirror(config, s, org, id, stage);
    case CrmDelete(org, id) => DeleteKeepsMirror(config, s, org, id);
    case Transact(txn) => {
      HonestIsHarmless(config, s.db, s.crm, s.clock, txn);
      TransactKeeps(config, s, txn);
    }
    case Handle(w, env) => {
      HonestHandlerIsHarmless(config, s, w, env);
      HandleKeeps(config, s, w, env);
    }
    case Work(step) => WorkKeeps(config, s, step);
  }

  lemma TransactKeeps(config: Config, s: Sys, txn: Txn)
    requires SysInv(config, s)
    requires IsScan(s.db, txn) && Harmless(config, s.db, s.crm, s.clock, txn)
    ensures SysInv(config, Transacted(config, s, txn)) && Onward(config, s, Transacted(config, s, txn))
  {
    var events := TxnKeeps(config, s, txn);
    TransactKeepsBus(config, s, txn, events);
  }

  lemma HandledAsKeeps(config: Config, s: Sys, w: nat, env: Env, txn: Txn)
    requires SysInv(config, s)
    requires AtConsumer(WIRED, BusOf(s), w) && !Known(BusOf(s), w, NextDelivery(WIRED, BusOf(s), w))
    requires IsScan(s.db, txn) && Harmless(config, s.db, s.crm, s.clock, txn)
    ensures SysInv(config, HandledAs(config, s, w, env, txn))
    ensures Onward(config, s, HandledAs(config, s, w, env, txn))
  {
    var events, now := HandledAsKeepsData(config, s, w, env, txn);
    HandledAsKeepsBus(config, s, w, env, txn, events, now);
    AppendedLog(s.db, HandledAs(config, s, w, env, txn).db, events, now);
  }

  lemma HandledAsKeepsBus(config: Config, s: Sys, w: nat, env: Env, txn: Txn, events: seq<Event>, now: Time)
    requires BusInv(WIRED, BusOf(s))
    requires AtConsumer(WIRED, BusOf(s), w) && !Known(BusOf(s), w, NextDelivery(WIRED, BusOf(s), w))
    requires IsScan(s.db, txn)
    requires Appends(s.db, HandledAs(config, s, w, env, txn).db, events, now)
    ensures BusInv(WIRED, BusOf(HandledAs(config, s, w, env, txn)))
  {
    var step := HandledAsIsARun(config, s, w, env, txn, events, now);
    BusStepKeeps(BusOf(s), step, BusOf(HandledAs(config, s, w, env, txn)));
  }

  lemma HandleKeeps(config: Config, s: Sys, w: nat, env: Env)
    requires SysInv(config, s)
    requires CanRun(s, w, env) && HandlesNoHarm(config, s, w, env)
    ensures SysInv(config, Handled(config, s, w, env)) && Onward(config, s, Handled(config, s, w, env))
  {
    var patched := Patched(s, TxnOf(s, w, env), env.stamp);
    PatchedKeeps(config, s, w, env);
    assert patched == s.(crm := patched.crm, clock := patched.clock);
    HandledAsKeeps(config, patched, w, env, AttemptOf(s, w, env));
    OnwardIgnoresCrm(config, s, patched, Handled(config, s, w, env));
  }

  lemma OnwardIgnoresCrm(config: Config, s: Sys, m: Sys, t: Sys)
    requires m == s.(crm := m.crm, clock := m.clock) && Onward(config, m, t)
    ensures Onward(config, s, t)
  {
  }

  lemma BusStepKeeps(s: Bus, step: BusStep, t: Bus)
    requires BusInv(WIRED, s)
    requires Enabled(WIRED, s, step) && t == Apply(WIRED, s, step)
    ensures BusInv(WIRED, t)
  {
    WiredNamesAreDistinct();
    BusRuns.StepKeepsInv(WIRED, s, step);
  }

  lemma WorkKeeps(config: Config, s: Sys, step: BusStep)
    requires SysInv(config, s)
    requires Possible(s, Work(step))
    ensures SysInv(config, Next(config, s, Work(step))) && Onward(config, s, Next(config, s, Work(step)))
  {
    WorkKeepsData(config, s, step);
    WorkBus(config, s, step);
    BusStepKeeps(BusOf(s), step, BusOf(Next(config, s, Work(step))));
    WorkGoesOnward(config, s, step);
  }

  lemma WorkGoesOnward(config: Config, s: Sys, step: BusStep)
    requires DataInv(config, s) && Possible(s, Work(step))
    requires Log(Next(config, s, Work(step)).db.outbox) == Log(s.db.outbox)
    ensures Onward(config, s, Next(config, s, Work(step)))
  {
    SameLogProfiles(s, Next(config, s, Work(step)), config.threshold);
  }

  lemma WorkBus(config: Config, s: Sys, step: BusStep)
    requires Possible(s, Work(step))
    ensures BusOf(Next(config, s, Work(step))) == Apply(WIRED, BusOf(s), step)
  {
  }

  lemma AppendedLog(db: Db, r: Db, events: seq<Event>, now: Time)
    requires Appends(db, r, events, now)
    ensures Log(db.outbox) <= Log(r.outbox)
  {
    assert Log(r.outbox) == Log(db.outbox) + events;
  }

  lemma TransactKeepsBus(config: Config, s: Sys, txn: Txn, events: seq<Event>)
    requires BusInv(WIRED, BusOf(s)) && IsScan(s.db, txn)
    requires Appends(s.db, Transacted(config, s, txn).db, events, TxnTime(txn))
    ensures BusInv(WIRED, BusOf(Transacted(config, s, txn)))
    ensures Log(s.db.outbox) <= Log(Transacted(config, s, txn).db.outbox)
  {
    GrowthKeepsInv(WIRED, BusOf(s), events, TxnTime(txn));
    var t := Transacted(config, s, txn);
    assert BusOf(t) == BusOf(s).(outbox := s.db.outbox + FreshRows(events, TxnTime(txn)));
    AppendedLog(s.db, t.db, events, TxnTime(txn));
  }

  lemma {:induction false} RunKeeps(config: Config, states: seq<Sys>, steps: seq<Step>, i: nat)
    requires IsRun(config, states, steps) && i < |states|
    ensures SysInv(config, states[i])
  {
    if i == 0 {
      InitialHolds(config, states[0]);
    } else {
      RunKeeps(config, states, steps, i - 1);
      StepKeeps(config, states[i - 1], steps[i - 1]);
    }
  }

  lemma {:induction false} RunGoesOnward(config: Config, states: seq<Sys>, steps: seq<Step>, i: nat, j: nat)
    requires IsRun(config, states, steps) && i <= j < |states|
    ensures Onward(config, states[i], states[j])
    decreases j
  {
    if i < j {
      RunGoesOnward(config, states, steps, i, j - 1);
      RunKeeps(config, states, steps, j - 1);
      StepKeeps(config, states[j - 1], steps[j - 1]);
      OnwardAgain(config, states[i], states[j - 1], states[j]);
    }
  }

  lemma OnwardAgain(config: Config, s: Sys, m: Sys, t: Sys)
    requires Onward(config, s, m) && Onward(config, m, t)
    ensures Onward(config, s, t)
  {
  }
}
