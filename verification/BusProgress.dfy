/** Progress of several workers under row locks, with batches lost at any point: how often a healthy row can be passed
    over, what a batch that holds it does, and how many steps a batch has left. */
module BusProgress {
  import opened Prelude
  import opened LeadDomain
  import opened Store
  import opened EventBus
  import opened BusRuns

  /** What is fixed while a row is watched: the registrations, the outcome of every handler run, and the row. */
  datatype Setting = Setting(registry: Registry, limit: nat, outcomes: Outcomes, h: EventId, at: Time)

  function TablesOf(s: Bus): Tables { Tables(s.outbox, s.inbox) }

  /** Handlers end as their outcomes say, every select asks for the limit, and what arrives is stamped after the row. */
  predicate Obeys(c: Setting, s: Bus, step: BusStep) {
    match step
    case Arrive(events, now) => events == [] || now > c.at
    case Begin(_, _, limit) => limit == c.limit
    case RunOk(w, events, now) =>
      (AtConsumer(c.registry, s, w) ==> Outcome(c, s, w).None?) && (events == [] || now > c.at)
    case RunFail(w, _, events, now) =>
      (AtConsumer(c.registry, s, w) ==> Outcome(c, s, w).Some?) && (events == [] || now > c.at)
    case _ => true
  }

  function Outcome(c: Setting, s: Bus, w: nat): Option<string>
    requires AtConsumer(c.registry, s, w)
  {
    var d := NextDelivery(c.registry, s, w);
    c.outcomes(d.0, d.1)
  }

  /** The rows stamped at or before the watched one that still wait and that no consumer refuses; and those one does. */
  ghost function Waiting(c: Setting, s: Bus): set<EventId> {
    set e | e in HealthyRows(c.registry, TablesOf(s), c.outcomes) && s.outbox[e].occurredAt <= c.at
  }

  ghost function Rivals(c: Setting, s: Bus): set<EventId> {
    set e | e in PoisonRows(c.registry, TablesOf(s), c.outcomes) && s.outbox[e].occurredAt <= c.at
  }

  /** An open batch has recorded only runs that succeed, and has finished every healthy row it left behind. */
  ghost predicate BatchObeys(c: Setting, s: Bus, b: Batch) {
    && (forall d :: d in b.staged ==> c.outcomes(d.0, d.1).None?)
    && (forall i :: 0 <= i < |b.rows| && i < b.cur ==> FinishedIfHealthy(c, s, b, b.rows[i]))
  }

  ghost predicate FinishedIfHealthy(c: Setting, s: Bus, b: Batch, e: EventId) {
    e in b.done || e >= |s.outbox| || Poison(c.registry, TablesOf(s), c.outcomes, e)
  }

  ghost predicate BatchesObey(c: Setting, s: Bus) {
    forall w :: w in s.batches ==> BatchObeys(c, s, s.batches[w])
  }

  // ---- What a step leaves of the waiting rows --------------------------------------------------

  /** Whether some consumer still to run refuses a row never changes: only runs that succeed are ever recorded. */
  lemma PoisonStays(c: Setting, s: Bus, t: Bus, e: EventId)
    requires e < |s.outbox| <= |t.outbox| && t.outbox[e].event == s.outbox[e].event
    requires s.inbox <= t.inbox && forall d :: d in t.inbox && d !in s.inbox ==> c.outcomes(d.0, d.1).None?
    ensures Poison(c.registry, TablesOf(t), c.outcomes, e) <==> Poison(c.registry, TablesOf(s), c.outcomes, e)
  {
    forall name | c.outcomes(name, e).Some? ensures (name, e) in t.inbox <==> (name, e) in s.inbox {
      var d: Delivery := (name, e);
      assert d in t.inbox && d !in s.inbox ==> c.outcomes(d.0, d.1).None?;
    }
  }

  /** The step records nothing, marks nothing, and appends only rows stamped after the watched one. */
  predicate OnlyGrows(c: Setting, s: Bus, t: Bus) {
    && t.inbox == s.inbox && |s.outbox| <= |t.outbox| && t.outbox[..|s.outbox|] == s.outbox
    && forall e :: |s.outbox| <= e < |t.outbox| ==> t.outbox[e].occurredAt > c.at
  }

  lemma GrowthKeepsWaiting(c: Setting, s: Bus, t: Bus)
    requires OnlyGrows(c, s, t)
    ensures Waiting(c, t) == Waiting(c, s) && Rivals(c, t) == Rivals(c, s)
    ensures forall e: EventId :: e < |s.outbox| ==>
              (Poison(c.registry, TablesOf(t), c.outcomes, e) <==> Poison(c.registry, TablesOf(s), c.outcomes, e))
  {
    forall e: EventId | e < |s.outbox|
      ensures t.outbox[e] == s.outbox[e]
      ensures Poison(c.registry, TablesOf(t), c.outcomes, e) <==> Poison(c.registry, TablesOf(s), c.outcomes, e)
    {
      assert t.outbox[..|s.outbox|][e] == s.outbox[e];
      PoisonStays(c, s, t, e);
    }
  }

  /** A commit changes what no row is waiting for: whether it is refused. */
  lemma CommitKeepsPoison(c: Setting, s: Bus, w: nat)
    requires BatchesObey(c, s) && Enabled(c.registry, s, Commit(w))
    ensures var t := Apply(c.registry, s, Commit(w));
            && |t.outbox| == |s.outbox|
            && forall e: EventId :: e < |s.outbox| ==>
                 (Poison(c.registry, TablesOf(t), c.outcomes, e) <==> Poison(c.registry, TablesOf(s), c.outcomes, e))
  {
    var t := Apply(c.registry, s, Commit(w));
    assert BatchObeys(c, s, s.batches[w]);
    forall e: EventId | e < |s.outbox|
      ensures Poison(c.registry, TablesOf(t), c.outcomes, e) <==> Poison(c.registry, TablesOf(s), c.outcomes, e)
    {
      assert Log(t.outbox)[e] == Log(s.outbox)[e];
      PoisonStays(c, s, t, e);
    }
  }

  /** A commit takes exactly the healthy rows of its batch out of the waiting ones. */
  lemma CommitTakesItsRows(c: Setting, s: Bus, w: nat)
    requires BusInv(c.registry, s) && BatchesObey(c, s)
    requires Enabled(c.registry, s, Commit(w))
    ensures var t := Apply(c.registry, s, Commit(w));
            && Waiting(c, t) == Waiting(c, s) - ToSet(s.batches[w].rows)
            && Rivals(c, t) == Rivals(c, s)
  {
    var b := s.batches[w];
    var t := Apply(c.registry, s, Commit(w));
    assert BatchOk(c.registry, s.outbox, s.inbox, b) && BatchObeys(c, s, b);
    CommitKeepsPoison(c, s, w);
    DoneIsHealthy(c, s, b);
    MarkedRows(c, s, b, t);
  }

  /** Marking the healthy rows of a batch as processed, with nobody's refusals changed. */
  lemma MarkedRows(c: Setting, s: Bus, b: Batch, t: Bus)
    requires t.outbox == Marked(s.outbox, b)
    requires forall e: EventId :: e < |s.outbox| ==>
               (Poison(c.registry, TablesOf(t), c.outcomes, e) <==> Poison(c.registry, TablesOf(s), c.outcomes, e))
    requires forall e: EventId :: e < |s.outbox| ==>
               (e in b.done <==> e in b.rows && !Poison(c.registry, TablesOf(s), c.outcomes, e))
    ensures Waiting(c, t) == Waiting(c, s) - ToSet(b.rows)
    ensures Rivals(c, t) == Rivals(c, s)
  {
  }

  /** The rows a batch marks as done are the healthy ones among those it left behind. */
  lemma DoneIsHealthy(c: Setting, s: Bus, b: Batch)
    requires BatchOk(c.registry, s.outbox, s.inbox, b) && BatchObeys(c, s, b)
    ensures forall e :: e in b.done ==> e in b.rows && e < |s.outbox| && !Poison(c.registry, TablesOf(s), c.outcomes, e)
    ensures b.cur == |b.rows| ==>
              forall e :: e in b.rows && !Poison(c.registry, TablesOf(s), c.outcomes, e) ==> e in b.done
  {
    forall e | e in b.done ensures e in b.rows && e < |s.outbox| && !Poison(c.registry, TablesOf(s), c.outcomes, e) {
      assert Passed(b, e);
      forall name | name in Consumers(c.registry, s.outbox[e].event) && (name, e) !in s.inbox
        ensures c.outcomes(name, e).None?
      {
        var d: Delivery := (name, e);
        assert d in b.staged;
      }
    }
  }

  // ---- Batches keep obeying --------------------------------------------------------------------

  lemma StepKeepsObeying(c: Setting, s: Bus, step: BusStep)
    requires BusInv(c.registry, s) && BatchesObey(c, s)
    requires Enabled(c.registry, s, step) && Obeys(c, s, step)
    ensures BatchesObey(c, Apply(c.registry, s, step))
  {
    var t := Apply(c.registry, s, step);
    if step.Commit? {
      CommitKeepsPoison(c, s, step.worker);
    } else {
      StepOnlyGrows(c, s, step);
      GrowthKeepsWaiting(c, s, t);
    }
    forall v | v in t.batches ensures BatchObeys(c, t, t.batches[v]) {
      StepKeepsBatch(c, s, step, v);
      SameBatchObeys(c, s, t, t.batches[v]);
    }
  }

  lemma StepOnlyGrows(c: Setting, s: Bus, step: BusStep)
    requires Enabled(c.registry, s, step) && Obeys(c, s, step) && !step.Commit?
    ensures OnlyGrows(c, s, Apply(c.registry, s, step))
  {
  }

  /** How a worker's own step moves its batch: new records are of runs that succeed, and a row is left behind only when
      it is done or refused. */
  ghost predicate BatchMoves(c: Setting, s: Bus, b: Batch, b': Batch) {
    && b'.rows == b.rows && b.done.Keys <= b'.done.Keys
    && (forall d :: d in b'.staged && d !in b.staged ==> c.outcomes(d.0, d.1).None?)
    && b'.cur <= b.cur + 1
    && (b'.cur == b.cur + 1 && b.cur < |b.rows| ==> FinishedIfHealthy(c, s, b', b.rows[b.cur]))
  }

  lemma MovedBatchObeys(c: Setting, s: Bus, b: Batch, b': Batch)
    requires BatchObeys(c, s, b) && BatchMoves(c, s, b, b')
    ensures BatchObeys(c, s, b')
  {
    forall i | 0 <= i < |b'.rows| && i < b'.cur ensures FinishedIfHealthy(c, s, b', b'.rows[i]) {
      if i < b.cur {
        assert FinishedIfHealthy(c, s, b, b.rows[i]);
      }
    }
  }

  /** Obeying does not change with the state while the batch's rows stay in the outbox and as refused as they were. */
  lemma SameBatchObeys(c: Setting, s: Bus, t: Bus, b: Batch)
    requires BatchObeys(c, s, b)
    requires |s.outbox| <= |t.outbox| && forall i :: 0 <= i < |b.rows| ==> b.rows[i] < |s.outbox|
    requires forall e: EventId :: e < |s.outbox| ==>
               (Poison(c.registry, TablesOf(t), c.outcomes, e) <==> Poison(c.registry, TablesOf(s), c.outcomes, e))
    ensures BatchObeys(c, t, b)
  {
    forall i | 0 <= i < |b.rows| && i < b.cur ensures FinishedIfHealthy(c, t, b, b.rows[i]) {
      assert FinishedIfHealthy(c, s, b, b.rows[i]);
    }
  }

  lemma StepMovesBatch(c: Setting, s: Bus, step: BusStep, v: nat)
    requires v in s.batches
    requires Enabled(c.registry, s, step) && Obeys(c, s, step)
    requires v in Apply(c.registry, s, step).batches
    requires AtConsumer(c.registry, s, v) ==> s.batches[v].rows[s.batches[v].cur] < |s.outbox|
    ensures BatchMoves(c, s, s.batches[v], Apply(c.registry, s, step).batches[v])
  {
    if step.RunFail? && step.worker == v {
      RefusedRowIsPoison(c, s, v);
    }
  }

  lemma StepKeepsBatch(c: Setting, s: Bus, step: BusStep, v: nat)
    requires BusInv(c.registry, s) && BatchesObey(c, s)
    requires Enabled(c.registry, s, step) && Obeys(c, s, step)
    requires v in Apply(c.registry, s, step).batches
    ensures BatchObeys(c, s, Apply(c.registry, s, step).batches[v])
    ensures forall i :: 0 <= i < |Apply(c.registry, s, step).batches[v].rows| ==>
            Apply(c.registry, s, step).batches[v].rows[i] < |s.outbox|
  {
    if v in s.batches {
      assert BatchObeys(c, s, s.batches[v]) && BatchOk(c.registry, s.outbox, s.inbox, s.batches[v]);
      StepMovesBatch(c, s, step, v);
      MovedBatchObeys(c, s, s.batches[v], Apply(c.registry, s, step).batches[v]);
    } else {
      assert step.Begin? && step.worker == v;
      assert forall i :: 0 <= i < |step.rows| ==> Eligible(s.outbox, Locked(s), step.rows[i]);
    }
  }

  /** The row a refusing run leaves behind is poison. */
  lemma RefusedRowIsPoison(c: Setting, s: Bus, w: nat)
    requires AtConsumer(c.registry, s, w) && !Known(s, w, NextDelivery(c.registry, s, w))
    requires Outcome(c, s, w).Some?
    requires s.batches[w].rows[s.batches[w].cur] < |s.outbox|
    ensures Poison(c.registry, TablesOf(s), c.outcomes, s.batches[w].rows[s.batches[w].cur])
  {
    var d := NextDelivery(c.registry, s, w);
    assert d.0 in Consumers(c.registry, s.outbox[d.1].event);
  }

  // ---- Bounded overtaking ----------------------------------------------------------------------

  /** A run being watched: `over` are the open batches begun while the row was free that did not take it, `overtakes`
      how many of those have committed. */
  datatype Watch = Watch(s: Bus, over: set<nat>, overtakes: nat)

  predicate PassesOver(c: Setting, s: Bus, rows: seq<EventId>) {
    Eligible(s.outbox, Locked(s), c.h) && c.h !in rows
  }

  ghost function Watched(c: Setting, v: Watch, step: BusStep): Watch
    requires Enabled(c.registry, v.s, step)
  {
    var t := Apply(c.registry, v.s, step);
    match step
    case Begin(w, rows, _) => Watch(t, if PassesOver(c, v.s, rows) then v.over + {w} else v.over - {w}, v.overtakes)
    case Commit(w) => Watch(t, v.over - {w}, v.overtakes + if w in v.over then 1 else 0)
    case Rollback(w) => Watch(t, v.over - {w}, v.overtakes)
    case _ => Watch(t, v.over, v.overtakes)
  }

  ghost predicate IsWatchedRun(c: Setting, views: seq<Watch>, steps: seq<BusStep>) {
    && |views| == |steps| + 1
    && forall i :: 0 <= i < |steps| ==>
         Enabled(c.registry, views[i].s, steps[i]) && Obeys(c, views[i].s, steps[i])
           && views[i + 1] == Watched(c, views[i], steps[i])
  }

  ghost predicate Takes(c: Setting, s: Bus, rivals: nat, w: nat) {
    w in s.batches && |ToSet(s.batches[w].rows) * Waiting(c, s)| >= c.limit - rivals
  }

  /** While the row waits: its rivals are the same, every batch that passed it over is going to take at least B - P of
      the rows before it, and every one that committed has. */
  ghost predicate StillWaits(c: Setting, rivals: set<EventId>, total: nat, s: Bus, over: set<nat>, overtakes: nat) {
    && c.h in Waiting(c, s) && Rivals(c, s) == rivals
    && AllTake(c, s, |rivals|, over)
    && Covered(overtakes, c.limit - |rivals|, total, |Waiting(c, s)|)
  }

  /** n overtakings with a gain each leave no more than this of the total. */
  predicate Covered(n: nat, gain: int, total: nat, left: nat) { Times(n, gain) <= total - left }

  function Times(n: nat, gain: int): int { if n == 0 then 0 else Times(n - 1, gain) + gain }

  lemma {:induction false} TimesIsProduct(n: nat, gain: int)
    ensures Times(n, gain) == n * gain
  {
    if n > 0 { TimesIsProduct(n - 1, gain); }
  }

  ghost predicate AllTake(c: Setting, s: Bus, rivals: nat, over: set<nat>) {
    forall w :: w in over ==> Takes(c, s, rivals, w)
  }

  /** What holds whether the row waits or not. */
  ghost predicate Sound(c: Setting, s: Bus) {
    && DistinctNames(c.registry) && BusInv(c.registry, s) && BatchesObey(c, s)
    && c.h < |s.outbox| && s.outbox[c.h].occurredAt == c.at
  }

  ghost predicate WatchInv(c: Setting, rivals: set<EventId>, total: nat, v: Watch) {
    Sound(c, v.s) && (v.s.outbox[c.h].processedAt.None? ==> StillWaits(c, rivals, total, v.s, v.over, v.overtakes))
  }

  lemma StepKeepsSound(c: Setting, s: Bus, step: BusStep)
    requires Sound(c, s) && Enabled(c.registry, s, step) && Obeys(c, s, step)
    ensures Sound(c, Apply(c.registry, s, step))
    ensures s.outbox[c.h].processedAt.Some? ==> Apply(c.registry, s, step).outbox[c.h].processedAt.Some?
  {
    StepKeepsInv(c.registry, s, step);
    StepKeepsObeying(c, s, step);
    StepKeepsRow(c, s, step);
  }

  lemma StepKeepsRow(c: Setting, s: Bus, step: BusStep)
    requires c.h < |s.outbox| && Enabled(c.registry, s, step) && Obeys(c, s, step)
    ensures var t := Apply(c.registry, s, step);
            && c.h < |t.outbox| && t.outbox[c.h].occurredAt == s.outbox[c.h].occurredAt
            && (s.outbox[c.h].processedAt.Some? ==> t.outbox[c.h].processedAt.Some?)
  {
    if !step.Commit? {
      StepOnlyGrows(c, s, step);
      SameRow(c, s, Apply(c.registry, s, step));
    }
  }

  /** Open batches keep their rows. */
  predicate SameBatches(s: Bus, t: Bus, over: set<nat>) {
    forall w :: w in over && w in s.batches ==> w in t.batches && t.batches[w].rows == s.batches[w].rows
  }

  lemma GrowthKeepsWatch(
      c: Setting, rivals: set<EventId>, total: nat, s: Bus, t: Bus, over: set<nat>, over': set<nat>, overtakes: nat)
    requires StillWaits(c, rivals, total, s, over, overtakes)
    requires OnlyGrows(c, s, t) && over' <= over && SameBatches(s, t, over')
    ensures StillWaits(c, rivals, total, t, over', overtakes)
  {
    GrowthKeepsWaiting(c, s, t);
    forall w | w in over' ensures Takes(c, t, |rivals|, w) {
      assert Takes(c, s, |rivals|, w);
    }
  }

  lemma QuietStepKeepsWaiting(c: Setting, rivals: set<EventId>, total: nat, v: Watch, step: BusStep)
    requires StillWaits(c, rivals, total, v.s, v.over, v.overtakes)
    requires Enabled(c.registry, v.s, step) && Obeys(c, v.s, step) && !step.Commit? && !step.Begin?
    ensures var r := Watched(c, v, step); StillWaits(c, rivals, total, r.s, r.over, r.overtakes)
  {
    var r := Watched(c, v, step);
    StepOnlyGrows(c, v.s, step);
    assert SameBatches(v.s, r.s, r.over);
    GrowthKeepsWatch(c, rivals, total, v.s, r.s, v.over, r.over, v.overtakes);
  }

  lemma SameRow(c: Setting, s: Bus, t: Bus)
    requires OnlyGrows(c, s, t) && c.h < |s.outbox|
    ensures t.outbox[c.h] == s.outbox[c.h]
  {
    assert t.outbox[..|s.outbox|][c.h] == s.outbox[c.h];
  }

  lemma BeginKeepsWaiting(c: Setting, rivals: set<EventId>, total: nat, v: Watch, w: nat, rows: seq<EventId>)
    requires StillWaits(c, rivals, total, v.s, v.over, v.overtakes)
    requires c.h < |v.s.outbox| && v.s.outbox[c.h].occurredAt == c.at
    requires Enabled(c.registry, v.s, Begin(w, rows, c.limit))
    ensures var r := Watched(c, v, Begin(w, rows, c.limit)); StillWaits(c, rivals, total, r.s, r.over, r.overtakes)
  {
    var r := Watched(c, v, Begin(w, rows, c.limit));
    assert SameBatches(v.s, r.s, v.over - {w});
    GrowthKeepsWatch(c, rivals, total, v.s, r.s, v.over, v.over - {w}, v.overtakes);
    if PassesOver(c, v.s, rows) {
      NewBatchTakes(c, v.s, rows, rivals);
      SameWaiting(c, v.s, r.s);
      assert r.s.batches[w].rows == rows;
      assert Takes(c, r.s, |rivals|, w);
      assert r.over == (v.over - {w}) + {w};
    }
  }

  lemma SameWaiting(c: Setting, s: Bus, t: Bus)
    requires t.outbox == s.outbox && t.inbox == s.inbox
    ensures Waiting(c, t) == Waiting(c, s)
  {
  }

  /** A select that passes the row over is full, and at most the rivals in it are not waiting healthy rows. */
  lemma NewBatchTakes(c: Setting, s: Bus, rows: seq<EventId>, rivals: set<EventId>)
    requires IsBatch(s.outbox, Locked(s), c.limit, rows) && PassesOver(c, s, rows)
    requires c.h < |s.outbox| && s.outbox[c.h].occurredAt == c.at && Rivals(c, s) == rivals
    ensures |ToSet(rows) * Waiting(c, s)| >= c.limit - |rivals|
  {
    PassedOver(c.registry, TablesOf(s), Locked(s), c.limit, rows, c.outcomes, c.h);
    assert HealthyUpto(c.registry, TablesOf(s), c.outcomes, c.h) == Waiting(c, s);
    assert PoisonUpto(c.registry, TablesOf(s), c.outcomes, c.h) == rivals;
    PassedOverTakes(rows, Waiting(c, s), rivals);
  }

  lemma CommitLeaves(c: Setting, s: Bus, w: nat, t: Bus)
    requires BusInv(c.registry, s) && BatchesObey(c, s) && c.h in Waiting(c, s)
    requires Enabled(c.registry, s, Commit(w)) && t == Apply(c.registry, s, Commit(w))
             && t.outbox[c.h].processedAt.None?
    ensures LocksDisjoint(s) && t.batches == s.batches - {w} && c.h !in s.batches[w].rows
    ensures Waiting(c, t) == Waiting(c, s) - ToSet(s.batches[w].rows) && Rivals(c, t) == Rivals(c, s)
  {
    HolderIsDone(c, s, w);
    CommitTakesItsRows(c, s, w);
  }

  lemma RestWaits(c: Setting, rivals: set<EventId>, total: nat, v: Watch, w: nat, t: Bus)
    requires LocksDisjoint(v.s) && StillWaits(c, rivals, total, v.s, v.over, v.overtakes)
    requires w in v.s.batches && t.batches == v.s.batches - {w} && c.h !in v.s.batches[w].rows
    requires Waiting(c, t) == Waiting(c, v.s) - ToSet(v.s.batches[w].rows) && Rivals(c, t) == Rivals(c, v.s)
    ensures StillWaits(c, rivals, total, t, v.over - {w}, v.overtakes + if w in v.over then 1 else 0)
  {
    BatchesKeepTheirs(c, v.s, w, t, |rivals|, v.over);
    if w in v.over {
      assert Takes(c, v.s, |rivals|, w);
    }
    CountAfter(Waiting(c, v.s), ToSet(v.s.batches[w].rows), v.overtakes, c.limit - |rivals|, total, w in v.over);
  }

  lemma CommitKeepsWaiting(c: Setting, rivals: set<EventId>, total: nat, v: Watch, w: nat)
    requires Sound(c, v.s) && StillWaits(c, rivals, total, v.s, v.over, v.overtakes)
    requires Enabled(c.registry, v.s, Commit(w))
    requires Apply(c.registry, v.s, Commit(w)).outbox[c.h].processedAt.None?
    ensures var r := Watched(c, v, Commit(w)); StillWaits(c, rivals, total, r.s, r.over, r.overtakes)
  {
    var r := WatchedCommit(c, v, w);
    CommitLeaves(c, v.s, w, r.s);
    RestWaits(c, rivals, total, v, w, r.s);
  }

  lemma WatchedCommit(c: Setting, v: Watch, w: nat) returns (r: Watch)
    requires Enabled(c.registry, v.s, Commit(w))
    ensures r == Watched(c, v, Commit(w)) && r.s == Apply(c.registry, v.s, Commit(w))
    ensures r.over == v.over - {w} && r.overtakes == v.overtakes + if w in v.over then 1 else 0
  {
    r := Watched(c, v, Commit(w));
  }

  /** A batch that took its share makes up for the overtaking it counts as. */
  lemma CountAfter(waiting: set<EventId>, rows: set<EventId>, overtakes: nat, gain: int, total: nat, over: bool)
    requires Covered(overtakes, gain, total, |waiting|)
    requires over ==> |rows * waiting| >= gain
    ensures Covered(overtakes + if over then 1 else 0, gain, total, |waiting - rows|)
  {
    SplitSize(waiting, rows);
  }

  /** A commit that leaves the row waiting did not hold it. */
  lemma HolderIsDone(c: Setting, s: Bus, w: nat)
    requires BusInv(c.registry, s) && BatchesObey(c, s)
    requires Enabled(c.registry, s, Commit(w)) && c.h in Waiting(c, s)
    ensures c.h in s.batches[w].rows <==> Apply(c.registry, s, Commit(w)).outbox[c.h].processedAt.Some?
  {
    var b := s.batches[w];
    assert BatchOk(c.registry, s.outbox, s.inbox, b) && BatchObeys(c, s, b);
    DoneIsHealthy(c, s, b);
  }

  /** Locks keep batches apart: a commit takes nothing out of another batch. */
  lemma BatchesKeepTheirs(c: Setting, s: Bus, w: nat, t: Bus, rivals: nat, over: set<nat>)
    requires LocksDisjoint(s)
    requires w in s.batches && t.batches == s.batches - {w}
    requires Waiting(c, t) == Waiting(c, s) - ToSet(s.batches[w].rows)
    requires AllTake(c, s, rivals, over)
    ensures AllTake(c, t, rivals, over - {w})
  {
    forall u | u in over - {w} ensures Takes(c, t, rivals, u) {
      assert Takes(c, s, rivals, u);
      var mine, others := ToSet(s.batches[u].rows), ToSet(s.batches[w].rows);
      assert mine * others == {};
      assert mine * (Waiting(c, s) - others) == mine * Waiting(c, s);
    }
  }

  lemma StepKeepsWatch(c: Setting, rivals: set<EventId>, total: nat, v: Watch, step: BusStep)
    requires WatchInv(c, rivals, total, v)
    requires Enabled(c.registry, v.s, step) && Obeys(c, v.s, step)
    ensures WatchInv(c, rivals, total, Watched(c, v, step))
  {
    StepKeepsSound(c, v.s, step);
    if Apply(c.registry, v.s, step).outbox[c.h].processedAt.None? {
      match step
      case Begin(w, rows, limit) => BeginKeepsWaiting(c, rivals, total, v, w, rows);
      case Commit(w) => CommitKeepsWaiting(c, rivals, total, v, w);
      case _ => QuietStepKeepsWaiting(c, rivals, total, v, step);
    }
  }

  /** The row as it is when the watch begins: waiting, with nothing counted yet. */
  ghost predicate Begins(c: Setting, v: Watch) {
    && Sound(c, v.s)
    && c.h in Waiting(c, v.s)
    && v.over == {} && v.overtakes == 0
  }

  lemma {:induction false} RunKeepsWatch(c: Setting, views: seq<Watch>, steps: seq<BusStep>, i: nat)
    requires IsWatchedRun(c, views, steps) && i < |views|
    requires Begins(c, views[0])
    ensures WatchInv(c, Rivals(c, views[0].s), |Waiting(c, views[0].s)|, views[i])
  {
    if i > 0 {
      RunKeepsWatch(c, views, steps, i - 1);
      StepKeepsWatch(c, Rivals(c, views[0].s), |Waiting(c, views[0].s)|, views[i - 1], steps[i - 1]);
    }
  }

  /** Bounded overtaking, for any number of workers, any interleaving and any crashes: while a healthy row with P rivals
      and H waiting rows stamped at or before it is unprocessed, fewer than H / (B - P) batches begun past it have
      committed. With P below B the row cannot be passed over for ever. */
  lemma OvertakingIsBounded(c: Setting, views: seq<Watch>, steps: seq<BusStep>, i: nat)
    requires IsWatchedRun(c, views, steps) && i < |views|
    requires Begins(c, views[0])
    ensures c.h < |views[i].s.outbox|
    ensures views[i].s.outbox[c.h].processedAt.Some?
            || views[i].overtakes * (c.limit - |Rivals(c, views[0].s)|) < |Waiting(c, views[0].s)|
  {
    RunKeepsWatch(c, views, steps, i);
    if views[i].s.outbox[c.h].processedAt.None? {
      SubsetSize({c.h}, Waiting(c, views[i].s));
      TimesIsProduct(views[i].overtakes, c.limit - |Rivals(c, views[0].s)|);
    }
  }

  /** And a batch that holds the row processes it when it commits. */
  lemma HolderDelivers(c: Setting, s: Bus, w: nat)
    requires BusInv(c.registry, s) && BatchesObey(c, s)
    requires Enabled(c.registry, s, Commit(w))
    requires c.h in Waiting(c, s) && c.h in s.batches[w].rows
    ensures Apply(c.registry, s, Commit(w)).outbox[c.h].processedAt.Some?
  {
    HolderIsDone(c, s, w);
  }

  // ---- How far a batch is from its commit ------------------------------------------------------

  /** Steps a worker can still take from row `k` of its batch on, its current row not counted. */
  function StepsFrom(registry: Registry, outbox: seq<OutboxRow>, rows: seq<EventId>, k: nat): nat
    decreases |rows| - k
  {
    if k >= |rows| then 0 else |ConsumersOf(registry, outbox, rows[k])| + 1 + StepsFrom(registry, outbox, rows, k + 1)
  }

  function StepsLeft(registry: Registry, outbox: seq<OutboxRow>, b: Batch): int {
    if b.cur < |b.rows| then StepsFrom(registry, outbox, b.rows, b.cur) - b.next + 1 else 1
  }

  predicate IsStepOf(step: BusStep, w: nat) {
    (step.Skip? || step.RunOk? || step.RunFail? || step.RowDone?) && step.worker == w
  }

  /** Every step of a worker brings its batch nearer the commit, whatever the others do meanwhile: a batch that is not
      lost commits within one step per consumer and one per row. */
  lemma StepsRunOut(registry: Registry, s: Bus, step: BusStep, w: nat)
    requires BusInv(registry, s) && Enabled(registry, s, step)
    requires w in s.batches && step != Commit(w) && step != Rollback(w)
    ensures var t := Apply(registry, s, step);
            && w in t.batches
            && 0 < StepsLeft(registry, s.outbox, s.batches[w])
            && StepsLeft(registry, t.outbox, t.batches[w])
            <= StepsLeft(registry, s.outbox, s.batches[w]) - if IsStepOf(step, w) then 1 else 0
  {
    var b, t := s.batches[w], Apply(registry, s, step);
    assert BatchOk(registry, s.outbox, s.inbox, b);
    SameConsumersAfter(registry, s, step);
    SameStepsFrom(registry, s.outbox, t.outbox, b.rows, b.cur);
    if IsStepOf(step, w) {
      OwnStep(registry, s, step, w, t);
    } else {
      assert t.batches[w] == b;
    }
  }

  lemma SameConsumersAfter(registry: Registry, s: Bus, step: BusStep)
    requires Enabled(registry, s, step)
    ensures forall e: EventId :: e < |s.outbox| ==>
            ConsumersOf(registry, Apply(registry, s, step).outbox, e) == ConsumersOf(registry, s.outbox, e)
  {
    if step.Commit? {
      SameConsumers(registry, s.outbox, s.batches[step.worker]);
    }
  }

  lemma OwnStep(registry: Registry, s: Bus, step: BusStep, w: nat, t: Bus)
    requires Enabled(registry, s, step) && IsStepOf(step, w) && t == Apply(registry, s, step)
    requires var b := s.batches[w]; b.cur < |b.rows| ==> b.next <= |ConsumersOf(registry, s.outbox, b.rows[b.cur])|
    requires StepsFrom(registry, t.outbox, s.batches[w].rows, s.batches[w].cur)
             == StepsFrom(registry, s.outbox, s.batches[w].rows, s.batches[w].cur)
    requires var b := s.batches[w]; b.cur < |b.rows| ==>
             ConsumersOf(registry, t.outbox, b.rows[b.cur]) == ConsumersOf(registry, s.outbox, b.rows[b.cur])
    ensures w in t.batches && StepsLeft(registry, t.outbox, t.batches[w]) < StepsLeft(registry, s.outbox, s.batches[w])
  {
  }

  lemma {:induction false} SameStepsFrom(
      registry: Registry, outbox: seq<OutboxRow>, after: seq<OutboxRow>, rows: seq<EventId>, k: nat)
    requires forall e :: e in rows ==> ConsumersOf(registry, after, e) == ConsumersOf(registry, outbox, e)
    ensures StepsFrom(registry, after, rows, k) == StepsFrom(registry, outbox, rows, k)
    decreases |rows| - k
  {
    if k < |rows| { SameStepsFrom(registry, outbox, after, rows, k + 1); }
  }
}
