/** Neighborhood enrichment: every lookup of every request with its background retry, in any interleaving. */
module NeighborhoodEnrichment {
  import opened Prelude
  import opened LeadDomain
  import opened Store
  import opened RecommendationDomain

  type Places = seq<string>

  /** Where one lookup stands. After a miss it is a background task until it ends in one of the last three. */
  datatype Phase =
    | Fetching
    | Delivered(places: Places)
    | Retrying(failed: nat)
    | Publishing(late: Places)
    | PublishedLate(late: Places)
    | PublishFailed
    | GivenUp

  /** One requested property of one call of `enrich_top3`, and how often Maps was asked for it. */
  datatype Slot = Slot(request: nat, lead: LeadId, id: PropertyId, phase: Phase, calls: nat)

  /** `tasks` is the adapter's task set; `late` lists the slots whose event was published, in order. */
  datatype Fan = Fan(slots: seq<Slot>, requests: nat, tasks: set<nat>, late: seq<nat>)

  datatype FanStep =
    | Enrich(lead: LeadId, ids: seq<PropertyId>)
    | Answer(slot: nat, places: Places)
    | Miss(slot: nat)
    | RetryOk(slot: nat, places: Places)
    | RetryFail(slot: nat)
    | GiveUp(slot: nat)
    | PublishOk(slot: nat)
    | PublishFail(slot: nat)

  predicate Enabled(maxRetries: nat, f: Fan, step: FanStep) {
    match step
    case Enrich(_, _) => true
    case Answer(i, _) => i < |f.slots| && f.slots[i].phase.Fetching?
    case Miss(i) => i < |f.slots| && f.slots[i].phase.Fetching?
    case RetryOk(i, _) => i < |f.slots| && f.slots[i].phase.Retrying? && f.slots[i].phase.failed < maxRetries
    case RetryFail(i) => i < |f.slots| && f.slots[i].phase.Retrying? && f.slots[i].phase.failed < maxRetries
    case GiveUp(i) => i < |f.slots| && f.slots[i].phase.Retrying? && f.slots[i].phase.failed >= maxRetries
    case PublishOk(i) => i < |f.slots| && f.slots[i].phase.Publishing?
    case PublishFail(i) => i < |f.slots| && f.slots[i].phase.Publishing?
  }

  function NewSlots(request: nat, lead: LeadId, ids: seq<PropertyId>): (slots: seq<Slot>)
    ensures |slots| == |ids|
    ensures forall i :: 0 <= i < |ids| ==> slots[i] == Slot(request, lead, ids[i], Fetching, 1)
  {
    seq(|ids|, i requires 0 <= i < |ids| => Slot(request, lead, ids[i], Fetching, 1))
  }

  function InPhase(f: Fan, i: nat, phase: Phase): Fan
    requires i < |f.slots|
  {
    f.(slots := f.slots[i := f.slots[i].(phase := phase)])
  }

  function Called(f: Fan, i: nat, phase: Phase): Fan
    requires i < |f.slots|
  {
    f.(slots := f.slots[i := f.slots[i].(phase := phase, calls := f.slots[i].calls + 1)])
  }

  function Apply(maxRetries: nat, f: Fan, step: FanStep): Fan
    requires Enabled(maxRetries, f, step)
  {
    match step
    case Enrich(lead, ids) => f.(slots := f.slots + NewSlots(f.requests, lead, ids), requests := f.requests + 1)
    case Answer(i, places) => InPhase(f, i, Delivered(places))
    case Miss(i) => InPhase(f, i, Retrying(0)).(tasks := f.tasks + {i})
    case RetryOk(i, places) => Called(f, i, Publishing(places))
    case RetryFail(i) => Called(f, i, Retrying(f.slots[i].phase.failed + 1))
    case GiveUp(i) => InPhase(f, i, GivenUp).(tasks := f.tasks - {i})
    case PublishOk(i) =>
      InPhase(f, i, PublishedLate(f.slots[i].phase.late)).(tasks := f.tasks - {i}, late := f.late + [i])
    case PublishFail(i) => InPhase(f, i, PublishFailed).(tasks := f.tasks - {i})
  }

  const IDLE: Fan := Fan([], 0, {}, [])

  // ---- The invariant ---------------------------------------------------------------------------

  predicate IsUnfinishedRetry(p: Phase) { p.Retrying? || p.Publishing? }

  /** How many calls a phase has cost. */
  predicate CallsFit(maxRetries: nat, slot: Slot) {
    match slot.phase
    case Fetching => slot.calls == 1
    case Delivered(_) => slot.calls == 1
    case Retrying(failed) => failed <= maxRetries && slot.calls == 1 + failed
    case Publishing(_) => 2 <= slot.calls <= 1 + maxRetries
    case PublishedLate(_) => 2 <= slot.calls <= 1 + maxRetries
    case PublishFailed => 2 <= slot.calls <= 1 + maxRetries
    case GivenUp => slot.calls == 1 + maxRetries
  }

  /** Calls are bounded, the background tasks are exactly the unfinished retries, and each late event is in the list
      once. */
  ghost predicate FanInv(maxRetries: nat, f: Fan) {
    && (forall i :: 0 <= i < |f.slots| ==> CallsFit(maxRetries, f.slots[i]) && f.slots[i].request < f.requests)
    && (forall i: nat :: i in f.tasks <==> i < |f.slots| && IsUnfinishedRetry(f.slots[i].phase))
    && (forall a, b :: 0 <= a < b < |f.late| ==> f.late[a] != f.late[b])
    && (forall i: nat :: i in f.late <==> i < |f.slots| && f.slots[i].phase.PublishedLate?)
  }

  lemma StepKeepsInv(maxRetries: nat, f: Fan, step: FanStep)
    requires FanInv(maxRetries, f) && Enabled(maxRetries, f, step)
    ensures FanInv(maxRetries, Apply(maxRetries, f, step))
  {
    var r := Apply(maxRetries, f, step);
    match step {
      case Enrich(lead, ids) => {
        forall i | 0 <= i < |r.slots| ensures CallsFit(maxRetries, r.slots[i]) && r.slots[i].request < r.requests {
        }
      }
      case PublishOk(i) => PublishOnce(maxRetries, f, i);
      case _ =>
    }
  }

  lemma PublishOnce(maxRetries: nat, f: Fan, i: nat)
    requires FanInv(maxRetries, f) && Enabled(maxRetries, f, PublishOk(i))
    ensures FanInv(maxRetries, Apply(maxRetries, f, PublishOk(i)))
  {
  }

  /** The states of a run of the adapter. */
  ghost predicate IsFanRun(maxRetries: nat, states: seq<Fan>, steps: seq<FanStep>) {
    && |states| == |steps| + 1
    && states[0] == IDLE
    && forall i :: 0 <= i < |steps| ==>
         Enabled(maxRetries, states[i], steps[i]) && states[i + 1] == Apply(maxRetries, states[i], steps[i])
  }

  /** In every state of every run: at most 1 + max_retries calls per lookup, a task set that is exactly the unfinished
      retries, and exactly one late event for a lookup published late, none for any other. */
  lemma {:induction false} EveryRunIsBounded(maxRetries: nat, states: seq<Fan>, steps: seq<FanStep>, i: nat)
    requires IsFanRun(maxRetries, states, steps) && i < |states|
    ensures FanInv(maxRetries, states[i])
    ensures forall k :: 0 <= k < |states[i].slots| ==> 1 <= states[i].slots[k].calls <= 1 + maxRetries
    ensures forall k: nat ::
              multiset(states[i].late)[k]
              == if k < |states[i].slots| && states[i].slots[k].phase.PublishedLate? then 1 else 0
  {
    if i > 0 {
      EveryRunIsBounded(maxRetries, states, steps, i - 1);
      StepKeepsInv(maxRetries, states[i - 1], steps[i - 1]);
    }
    forall k | 0 <= k < |states[i].slots| ensures 1 <= states[i].slots[k].calls <= 1 + maxRetries {
      assert CallsFit(maxRetries, states[i].slots[k]);
    }
    forall k: nat ensures multiset(states[i].late)[k] == if k in states[i].late then 1 else 0 {
      CountOnce(states[i].late, k);
    }
  }

  lemma {:induction false} CountOnce(s: seq<nat>, k: nat)
    requires forall a, b :: 0 <= a < b < |s| ==> s[a] != s[b]
    ensures multiset(s)[k] == if k in s then 1 else 0
  {
    if s != [] {
      var n := |s| - 1;
      CountOnce(s[..n], k);
      assert s == s[..n] + [s[n]];
      assert s[n] !in s[..n];
    }
  }

  /** What happened stays happened: a delivered, published, failed or abandoned lookup never changes again. */
  predicate IsFinal(p: Phase) { p.Delivered? || p.PublishedLate? || p.PublishFailed? || p.GivenUp? }

  lemma FinalIsFinal(maxRetries: nat, f: Fan, step: FanStep, i: nat)
    requires Enabled(maxRetries, f, step) && i < |f.slots| && IsFinal(f.slots[i].phase)
    ensures i < |Apply(maxRetries, f, step).slots| && Apply(maxRetries, f, step).slots[i] == f.slots[i]
  {
  }

  // ---- What is delivered is what was answered --------------------------------------------------

  /** The places a lookup holds, once it has any. */
  function Held(p: Phase): Option<Places> {
    match p
    case Delivered(places) => Some(places)
    case Publishing(late) => Some(late)
    case PublishedLate(late) => Some(late)
    case _ => None
  }

  /** Step k of a run answered lookup i with these places: within the budget, or to a retry. */
  predicate AnswersAt(steps: seq<FanStep>, k: nat, i: nat, places: Places) {
    k < |steps| && (steps[k] == Answer(i, places) || steps[k] == RetryOk(i, places))
  }

  lemma StepHolds(maxRetries: nat, f: Fan, step: FanStep, i: nat)
    requires Enabled(maxRetries, f, step)
    ensures var r := Apply(maxRetries, f, step);
            i < |r.slots| && Held(r.slots[i].phase).Some? ==>
              || step == Answer(i, Held(r.slots[i].phase).value) || step == RetryOk(i, Held(r.slots[i].phase).value)
              || (i < |f.slots| && Held(f.slots[i].phase) == Held(r.slots[i].phase))
    ensures step.Answer? || step.RetryOk? ==>
            Held(Apply(maxRetries, f, step).slots[step.slot].phase) == Some(step.places)
  {
  }

  /** In every run, whatever a lookup delivered or published late is what Maps once answered to that lookup. */
  lemma {:induction false} HeldWasAnswered(
    maxRetries: nat, states: seq<Fan>, steps: seq<FanStep>, j: nat, i: nat) returns (k: nat)
    requires IsFanRun(maxRetries, states, steps) && j < |states|
    requires i < |states[j].slots| && Held(states[j].slots[i].phase).Some?
    ensures k < j && AnswersAt(steps, k, i, Held(states[j].slots[i].phase).value)
  {
    StepHolds(maxRetries, states[j - 1], steps[j - 1], i);
    k := j - 1;
    if !AnswersAt(steps, j - 1, i, Held(states[j].slots[i].phase).value) {
      k := HeldWasAnswered(maxRetries, states, steps, j - 1, i);
    }
  }

  // ---- Draining --------------------------------------------------------------------------------

  /** Steps a lookup can still take. */
  function StepsLeft(maxRetries: nat, p: Phase): nat {
    match p
    case Fetching => maxRetries + 3
    case Retrying(failed) => if failed <= maxRetries then maxRetries - failed + 2 else 2
    case Publishing(_) => 1
    case _ => 0
  }

  function WorkLeft(maxRetries: nat, slots: seq<Slot>): nat {
    if slots == [] then 0
    else WorkLeft(maxRetries, slots[..|slots| - 1]) + StepsLeft(maxRetries, slots[|slots| - 1].phase)
  }

  lemma {:induction false} WorkAfter(maxRetries: nat, slots: seq<Slot>, i: nat, slot: Slot)
    requires i < |slots|
    ensures WorkLeft(maxRetries, slots[i := slot])
         == WorkLeft(maxRetries, slots) - StepsLeft(maxRetries, slots[i].phase) + StepsLeft(maxRetries, slot.phase)
    decreases |slots|
  {
    var n := |slots| - 1;
    if i < n {
      WorkAfter(maxRetries, slots[..n], i, slot);
      assert slots[i := slot][..n] == slots[..n][i := slot];
    } else {
      assert slots[i := slot][..n] == slots[..n];
    }
  }

  /** Every step but a new request leaves less to do. */
  lemma EveryStepDrains(maxRetries: nat, f: Fan, step: FanStep)
    requires FanInv(maxRetries, f) && Enabled(maxRetries, f, step) && !step.Enrich?
    ensures WorkLeft(maxRetries, Apply(maxRetries, f, step).slots) < WorkLeft(maxRetries, f.slots)
  {
    WorkAfter(maxRetries, f.slots, step.slot, Apply(maxRetries, f, step).slots[step.slot]);
  }

  /** While a task is in the set, it can move: the set drains, and is empty when nothing can move. */
  lemma TasksCanMove(maxRetries: nat, f: Fan)
    requires FanInv(maxRetries, f)
    ensures f.tasks != {} ==> exists step :: Enabled(maxRetries, f, step) && !step.Enrich? && step.slot in f.tasks
    ensures WorkLeft(maxRetries, f.slots) == 0 ==> f.tasks == {}
  {
    if f.tasks != {} {
      var i :| i in f.tasks;
      var phase := f.slots[i].phase;
      var step := if phase.Publishing? then PublishOk(i) else if phase.failed < maxRetries then RetryFail(i)
        else GiveUp(i);
      assert Enabled(maxRetries, f, step) && step.slot in f.tasks;
      HasWork(maxRetries, f.slots, i);
    }
  }

  lemma {:induction false} HasWork(maxRetries: nat, slots: seq<Slot>, i: nat)
    requires i < |slots| && IsUnfinishedRetry(slots[i].phase)
    ensures WorkLeft(maxRetries, slots) > 0
  {
    if i < |slots| - 1 { HasWork(maxRetries, slots[..|slots| - 1], i); }
  }

  // ---- What a request returns ------------------------------------------------------------------

  /** `dict(pairs)`: the slots of a request in order, the last one of an id deciding. */
  function Result(slots: seq<Slot>, request: nat): map<PropertyId, Option<Places>> {
    if slots == [] then map[]
    else
      var n := |slots| - 1;
      var before := Result(slots[..n], request);
      if slots[n].request != request then before
      else before[slots[n].id := if slots[n].phase.Delivered? then Some(slots[n].phase.places) else None]
  }

  /** No lookup of the request is still within its budget: the call has returned. */
  predicate Returned(f: Fan, request: nat) {
    forall i :: 0 <= i < |f.slots| && f.slots[i].request == request ==> !f.slots[i].phase.Fetching?
  }

  predicate IsSlotOf(slots: seq<Slot>, request: nat, id: PropertyId, i: nat) {
    i < |slots| && slots[i].request == request && slots[i].id == id
  }

  predicate IsLastSlotOf(slots: seq<Slot>, request: nat, id: PropertyId, i: nat) {
    IsSlotOf(slots, request, id, i) && forall j: nat :: i < j < |slots| ==> !IsSlotOf(slots, request, id, j)
  }

  /** The result has an entry for exactly the requested properties, decided by the last lookup of each: its places
      if they came within the budget, and nothing otherwise. */
  lemma {:induction false} ResultIsTheLastSlot(slots: seq<Slot>, request: nat, id: PropertyId)
    ensures id in Result(slots, request) <==> exists i: nat :: IsSlotOf(slots, request, id, i)
    ensures forall i: nat :: IsLastSlotOf(slots, request, id, i) ==>
              id in Result(slots, request)
              && Result(slots, request)[id] == if slots[i].phase.Delivered? then Some(slots[i].phase.places) else None
  {
    if slots != [] {
      var n := |slots| - 1;
      ResultIsTheLastSlot(slots[..n], request, id);
      forall i: nat | i < n ensures IsSlotOf(slots[..n], request, id, i) <==> IsSlotOf(slots, request, id, i) {
      }
      if IsSlotOf(slots, request, id, n) {
        forall i: nat | IsLastSlotOf(slots, request, id, i) ensures i == n {
        }
      } else {
        forall i: nat | IsSlotOf(slots, request, id, i) ensures IsSlotOf(slots[..n], request, id, i) {
        }
        forall i: nat | IsLastSlotOf(slots, request, id, i) ensures IsLastSlotOf(slots[..n], request, id, i) {
          forall j: nat | i < j < n ensures !IsSlotOf(slots[..n], request, id, j) {
            assert !IsSlotOf(slots, request, id, j);
          }
        }
      }
    }
  }

  lemma {:induction false} SameResult(slots: seq<Slot>, after: seq<Slot>, request: nat)
    requires |slots| <= |after|
    requires forall i :: 0 <= i < |slots| ==> after[i].request == slots[i].request && after[i].id == slots[i].id
    requires forall i :: 0 <= i < |slots| && slots[i].request == request ==>
               after[i].phase == slots[i].phase || (!slots[i].phase.Delivered? && !after[i].phase.Delivered?)
    requires forall i :: |slots| <= i < |after| ==> after[i].request != request
    ensures Result(after, request) == Result(slots, request)
    decreases |after|
  {
    if |after| > |slots| {
      SameResult(slots, after[..|after| - 1], request);
    } else if slots != [] {
      SameResult(slots[..|slots| - 1], after[..|after| - 1], request);
    }
  }

  /** What a request returned stands: nothing that happens afterwards - retries, late events, other requests - would
      change its result. */
  lemma ReturnedResultStands(maxRetries: nat, f: Fan, step: FanStep, request: nat)
    requires FanInv(maxRetries, f) && Enabled(maxRetries, f, step)
    requires request < f.requests && Returned(f, request)
    ensures Returned(Apply(maxRetries, f, step), request)
    ensures Result(Apply(maxRetries, f, step).slots, request) == Result(f.slots, request)
  {
    SameResult(f.slots, Apply(maxRetries, f, step).slots, request);
  }

  predicate DistinctIds(slots: seq<Slot>, request: nat) {
    forall i, j :: 0 <= i < j < |slots| && slots[i].request == request && slots[j].request == request ==>
        slots[i].id != slots[j].id
  }

  /** With distinct ids, a late event is only ever published for a property the request returned as None. */
  lemma LateMeansReturnedAsNone(maxRetries: nat, f: Fan, i: nat)
    requires FanInv(maxRetries, f) && i in f.late && i < |f.slots|
    requires DistinctIds(f.slots, f.slots[i].request)
    ensures f.slots[i].id in Result(f.slots, f.slots[i].request)
    ensures Result(f.slots, f.slots[i].request)[f.slots[i].id] == None
  {
    assert IsLastSlotOf(f.slots, f.slots[i].request, f.slots[i].id, i);
    ResultIsTheLastSlot(f.slots, f.slots[i].request, f.slots[i].id);
  }

  /** So it stands for the rest of a run. */
  lemma {:induction false} ResultStands(
      maxRetries: nat, states: seq<Fan>, steps: seq<FanStep>, request: nat, j: nat, m: nat)
    requires IsFanRun(maxRetries, states, steps) && j <= m < |states|
    requires request < states[j].requests && Returned(states[j], request)
    ensures request < states[m].requests && Returned(states[m], request)
    ensures Result(states[m].slots, request) == Result(states[j].slots, request)
    decreases m
  {
    if j < m {
      ResultStands(maxRetries, states, steps, request, j, m - 1);
      EveryRunIsBounded(maxRetries, states, steps, m - 1);
      ReturnedResultStands(maxRetries, states[m - 1], steps[m - 1], request);
    }
  }

  // ---- When a late event follows a missing insight ---------------------------------------------

  /** The slots of the request made at step `k` of a run: where they begin, and their number. */
  function FirstSlot(states: seq<Fan>, k: nat): nat
    requires k < |states|
  {
    |states[k].slots|
  }

  function RequestAt(states: seq<Fan>, k: nat): nat
    requires k < |states|
  {
    states[k].requests
  }

  /** From `base` on, `f` has one slot of request `r` for each of `ids`, in order, and no other slot of that request. */
  predicate HasRequest(f: Fan, r: nat, base: nat, ids: seq<PropertyId>) {
    && r < f.requests && base + |ids| <= |f.slots|
    && (forall i :: base <= i < base + |ids| ==> f.slots[i].request == r && f.slots[i].id == ids[i - base])
    && (forall i :: 0 <= i < |f.slots| && f.slots[i].request == r ==> base <= i < base + |ids|)
  }

  /** Every late event of request `r` is for a property whose entry in the result is None. */
  predicate LateOnlyForMissing(f: Fan, r: nat) {
    forall i :: 0 <= i < |f.slots| && i in f.late && f.slots[i].request == r ==>
      f.slots[i].id in Result(f.slots, r) && Result(f.slots, r)[f.slots[i].id] == None
  }

  /** In every run, whenever a call for `ids` has returned, its late events are for properties it returned as None. */
  ghost predicate LateAlwaysForMissing(maxRetries: nat, ids: seq<PropertyId>) {
    forall states: seq<Fan>, steps: seq<FanStep>, k: nat, j: nat ::
      IsFanRun(maxRetries, states, steps) && RequestsAt(states, steps, k, j, ids)
        && Returned(states[j], RequestAt(states, k)) ==>
        LateOnlyForMissing(states[j], RequestAt(states, k))
  }

  /** Step `k` is a call for `ids`, and state `j` comes after it. */
  predicate RequestsAt(states: seq<Fan>, steps: seq<FanStep>, k: nat, j: nat, ids: seq<PropertyId>) {
    k < |steps| && k < j < |states| && steps[k].Enrich? && steps[k].ids == ids
  }

  lemma {:induction false} RequestKeepsItsSlots(
    maxRetries: nat, states: seq<Fan>, steps: seq<FanStep>, k: nat, j: nat, ids: seq<PropertyId>)
    requires IsFanRun(maxRetries, states, steps) && RequestsAt(states, steps, k, j, ids)
    ensures HasRequest(states[j], RequestAt(states, k), FirstSlot(states, k), ids)
    decreases j
  {
    if j == k + 1 {
      EveryRunIsBounded(maxRetries, states, steps, k);
    } else {
      RequestKeepsItsSlots(maxRetries, states, steps, k, j - 1, ids);
      StepKeepsRequest(maxRetries, states[j - 1], steps[j - 1], RequestAt(states, k), FirstSlot(states, k), ids);
    }
  }

  lemma StepKeepsRequest(maxRetries: nat, f: Fan, step: FanStep, r: nat, base: nat, ids: seq<PropertyId>)
    requires Enabled(maxRetries, f, step) && HasRequest(f, r, base, ids)
    ensures HasRequest(Apply(maxRetries, f, step), r, base, ids)
  {
  }

  /** Without retries nothing is ever published late. */
  lemma NoRetryNoLateEvent(f: Fan)
    requires FanInv(0, f)
    ensures forall i: nat :: i !in f.late
  {
    forall i: nat | i < |f.slots| ensures !f.slots[i].phase.PublishedLate? {
      assert CallsFit(0, f.slots[i]);
    }
  }

  lemma DistinctRequestIsSound(maxRetries: nat, f: Fan, r: nat, base: nat, ids: seq<PropertyId>)
    requires FanInv(maxRetries, f) && HasRequest(f, r, base, ids)
    requires Distinct(ids) || maxRetries == 0
    ensures LateOnlyForMissing(f, r)
  {
    if maxRetries == 0 {
      NoRetryNoLateEvent(f);
    } else {
      assert DistinctIds(f.slots, r);
      forall i | 0 <= i < |f.slots| && i in f.late && f.slots[i].request == r
        ensures f.slots[i].id in Result(f.slots, r) && Result(f.slots, r)[f.slots[i].id] == None
      {
        LateMeansReturnedAsNone(maxRetries, f, i);
      }
    }
  }

  /** After a call for `ids` from rest: lookup `i` missed, the first `n` others answered. */
  function Answered(ids: seq<PropertyId>, i: nat, n: nat): (slots: seq<Slot>)
    ensures |slots| == |ids|
  {
    seq(|ids|, m requires 0 <= m < |ids| =>
      Slot(0, 0, ids[m], if m == i then Retrying(0) else if m < n then Delivered([]) else Fetching, 1))
  }

  lemma RunExtends(maxRetries: nat, states: seq<Fan>, steps: seq<FanStep>, step: FanStep)
    requires IsFanRun(maxRetries, states, steps) && Enabled(maxRetries, states[|steps|], step)
    ensures IsFanRun(maxRetries, states + [Apply(maxRetries, states[|steps|], step)], steps + [step])
  {
  }

  /** The run in which only lookup `i` misses and the first `n` others have answered. */
  lemma {:induction false} OneMisses(maxRetries: nat, ids: seq<PropertyId>, i: nat, n: nat)
      returns (states: seq<Fan>, steps: seq<FanStep>)
    requires i < |ids| && n <= |ids|
    ensures IsFanRun(maxRetries, states, steps) && |steps| >= 1 && steps[0] == Enrich(0, ids)
    ensures states[|steps|] == Fan(Answered(ids, i, n), 1, {i}, [])
  {
    if n == 0 {
      var enriched := Apply(maxRetries, IDLE, Enrich(0, ids));
      states, steps := [IDLE, enriched], [Enrich(0, ids)];
      var missed := Apply(maxRetries, enriched, Miss(i));
      RunExtends(maxRetries, states, steps, Miss(i));
      states, steps := states + [missed], steps + [Miss(i)];
      assert missed.slots == Answered(ids, i, 0);
      assert {} + {i} == {i};
    } else {
      states, steps := OneMisses(maxRetries, ids, i, n - 1);
      if n - 1 == i {
        assert Answered(ids, i, n) == Answered(ids, i, n - 1);
      } else {
        var last := states[|steps|];
        RunExtends(maxRetries, states, steps, Answer(n - 1, []));
        assert Apply(maxRetries, last, Answer(n - 1, [])).slots == Answered(ids, i, n);
        states, steps := states + [Apply(maxRetries, last, Answer(n - 1, []))], steps + [Answer(n - 1, [])];
      }
    }
  }

  /** A repeated id with a retry to spare: the earlier lookup misses and is published late, the later one answers in
      time, so the property is returned in full and announced late as well. */
  lemma ARepeatedIdIsAnnouncedTwice(maxRetries: nat, ids: seq<PropertyId>, a: nat, b: nat)
      returns (states: seq<Fan>, steps: seq<FanStep>)
    requires a < b < |ids| && ids[a] == ids[b] && maxRetries > 0
    ensures IsFanRun(maxRetries, states, steps) && |steps| >= 1 && steps[0] == Enrich(0, ids)
    ensures var f := states[|steps|];
            && Returned(f, 0) && a in f.late && a < |f.slots| && f.slots[a].request == 0 && f.slots[a].id == ids[a]
            && ids[a] in Result(f.slots, 0) && Result(f.slots, 0)[ids[a]] == Some([])
  {
    states, steps := OneMisses(maxRetries, ids, a, |ids|);
    var missed := states[|steps|];
    var asked := Apply(maxRetries, missed, RetryOk(a, []));
    RunExtends(maxRetries, states, steps, RetryOk(a, []));
    states, steps := states + [asked], steps + [RetryOk(a, [])];
    var told := Apply(maxRetries, asked, PublishOk(a));
    RunExtends(maxRetries, states, steps, PublishOk(a));
    states, steps := states + [told], steps + [PublishOk(a)];
    assert told.late == [a];
    var l := LastSlotOf(told.slots, 0, ids[a], b);
    ResultIsTheLastSlot(told.slots, 0, ids[a]);
  }

  lemma LastSlotOf(slots: seq<Slot>, request: nat, id: PropertyId, i: nat) returns (l: nat)
    requires IsSlotOf(slots, request, id, i)
    ensures i <= l && IsLastSlotOf(slots, request, id, l)
    decreases |slots| - i
  {
    if j: nat :| i < j < |slots| && IsSlotOf(slots, request, id, j) {
      l := LastSlotOf(slots, request, id, j);
    } else {
      l := i;
    }
  }

  /** The calls whose late events are always for properties returned as None, over every run: exactly those without a
      repeated id, and all of them when there are no retries. */
  lemma LateIsForMissingExactlyWhen(maxRetries: nat, ids: seq<PropertyId>)
    ensures LateAlwaysForMissing(maxRetries, ids) <==> Distinct(ids) || maxRetries == 0
  {
    if Distinct(ids) || maxRetries == 0 {
      forall states: seq<Fan>, steps: seq<FanStep>, k: nat, j: nat
        | IsFanRun(maxRetries, states, steps) && RequestsAt(states, steps, k, j, ids)
          && Returned(states[j], RequestAt(states, k))
        ensures LateOnlyForMissing(states[j], RequestAt(states, k))
      {
        RequestKeepsItsSlots(maxRetries, states, steps, k, j, ids);
        EveryRunIsBounded(maxRetries, states, steps, j);
        DistinctRequestIsSound(maxRetries, states[j], RequestAt(states, k), FirstSlot(states, k), ids);
      }
    } else {
      var a: nat, b: nat :| a < b < |ids| && ids[a] == ids[b];
      var states, steps := ARepeatedIdIsAnnouncedTwice(maxRetries, ids, a, b);
      assert RequestsAt(states, steps, 0, |steps|, ids);
      assert !LateOnlyForMissing(states[|steps|], RequestAt(states, 0));
    }
  }

  // ---- The adapter as written ------------------------------------------------------------------

  /** The steps of one background retry whose attempts, from number `failed` on, are answered as given. */
  function RetrySteps(i: nat, maxRetries: nat, failed: nat, answers: nat -> Option<Places>, publishes: bool)
      : seq<FanStep>
    decreases maxRetries - failed
  {
    if failed >= maxRetries then [GiveUp(i)]
    else
      match answers(failed)
      case Some(places) => [RetryOk(i, places), if publishes then PublishOk(i) else PublishFail(i)]
      case None => [RetryFail(i)] + RetrySteps(i, maxRetries, failed + 1, answers, publishes)
  }

  ghost predicate IsFanPath(maxRetries: nat, f: Fan, steps: seq<FanStep>, t: Fan)
    decreases |steps|
  {
    if steps == [] then f == t
    else Enabled(maxRetries, f, steps[0]) && IsFanPath(maxRetries, Apply(maxRetries, f, steps[0]), steps[1..], t)
  }

  /** The steps of a path that belong to slot `i`. */
  function OwnSteps(steps: seq<FanStep>, i: nat): seq<FanStep> {
    if steps == [] then []
    else (if IsOwn(steps[0], i) then [steps[0]] else []) + OwnSteps(steps[1..], i)
  }

  predicate IsOwn(step: FanStep, i: nat) { !step.Enrich? && step.slot == i }

  /** Whatever else goes on - new calls, other lookups, other retries - the steps of one background retry are those of
      its own loop, in order: interleaving never makes a retry do anything its loop would not. */
  lemma {:induction false} InterleavedRetryIsItsLoop(
      maxRetries: nat, f: Fan, steps: seq<FanStep>, t: Fan, i: nat, failed: nat)
    returns (answers: nat -> Option<Places>, publishes: bool)
    requires IsFanPath(maxRetries, f, steps, t)
    requires i < |f.slots| && f.slots[i].phase == Retrying(failed) && failed <= maxRetries
    ensures OwnSteps(steps, i) <= RetrySteps(i, maxRetries, failed, answers, publishes)
    decreases |steps|
  {
    if steps == [] {
      answers, publishes := (k: nat) => None, false;
    } else {
      var step, m := steps[0], Apply(maxRetries, f, steps[0]);
      if !IsOwn(step, i) {
        answers, publishes := InterleavedRetryIsItsLoop(maxRetries, m, steps[1..], t, i, failed);
      } else {
        match step
        case RetryOk(_, places) =>
          publishes := PublishingEndsIt(maxRetries, m, steps[1..], t, i);
          answers := (k: nat) => Some(places);
        case RetryFail(_) =>
          var later;
          later, publishes := InterleavedRetryIsItsLoop(maxRetries, m, steps[1..], t, i, failed + 1);
          answers := (k: nat) => if k == failed then None else later(k);
          RetryStepsAgree(i, maxRetries, failed + 1, later, answers, publishes);
        case GiveUp(_) =>
          FinalTakesNoSteps(maxRetries, m, steps[1..], t, i);
          answers, publishes := (k: nat) => None, false;
      }
    }
  }

  lemma {:induction false} PublishingEndsIt(maxRetries: nat, f: Fan, steps: seq<FanStep>, t: Fan, i: nat)
      returns (publishes: bool)
    requires IsFanPath(maxRetries, f, steps, t)
    requires i < |f.slots| && f.slots[i].phase.Publishing?
    ensures OwnSteps(steps, i) <= [if publishes then PublishOk(i) else PublishFail(i)]
    decreases |steps|
  {
    if steps == [] {
      publishes := true;
    } else {
      var m := Apply(maxRetries, f, steps[0]);
      if !IsOwn(steps[0], i) {
        publishes := PublishingEndsIt(maxRetries, m, steps[1..], t, i);
      } else {
        publishes := steps[0].PublishOk?;
        FinalTakesNoSteps(maxRetries, m, steps[1..], t, i);
      }
    }
  }

  lemma {:induction false} FinalTakesNoSteps(maxRetries: nat, f: Fan, steps: seq<FanStep>, t: Fan, i: nat)
    requires IsFanPath(maxRetries, f, steps, t)
    requires i < |f.slots| && IsFinal(f.slots[i].phase)
    ensures OwnSteps(steps, i) == []
    decreases |steps|
  {
    if steps != [] {
      FinalIsFinal(maxRetries, f, steps[0], i);
      FinalTakesNoSteps(maxRetries, Apply(maxRetries, f, steps[0]), steps[1..], t, i);
    }
  }

  lemma {:induction false} RetryStepsAgree(
    i: nat, maxRetries: nat, failed: nat, answers: nat -> Option<Places>, others: nat -> Option<Places>,
    publishes: bool)
    requires forall k: nat :: k >= failed ==> answers(k) == others(k)
    ensures RetrySteps(i, maxRetries, failed, answers, publishes)
            == RetrySteps(i, maxRetries, failed, others, publishes)
    decreases maxRetries - failed
  {
    if failed < maxRetries && answers(failed).None? {
      RetryStepsAgree(i, maxRetries, failed + 1, answers, others, publishes);
    }
  }

  class NeighborhoodEnrichmentAdapter {
    const maxRetries: nat
    var slots: seq<Slot>
    var requests: nat
    var backgroundTasks: set<nat>
    var late: seq<nat>

    function State(): Fan
      reads this
    {
      Fan(slots, requests, backgroundTasks, late)
    }

    constructor (maxRetries: nat)
      ensures this.maxRetries == maxRetries && State() == IDLE
    {
      this.maxRetries := maxRetries;
      slots, requests, backgroundTasks, late := [], 0, {}, [];
    }

    /** The fan-out: every property is asked for at once. */
    method StartRequest(lead: LeadId, ids: seq<PropertyId>)
      modifies this
      ensures State() == Apply(maxRetries, old(State()), Enrich(lead, ids))
    {
      var i := 0;
      ghost var before := slots;
      while i < |ids|
        invariant 0 <= i <= |ids|
        invariant slots == before + NewSlots(requests, lead, ids[..i])
        invariant requests == old(requests) && backgroundTasks == old(backgroundTasks) && late == old(late)
      {
        slots := slots + [Slot(requests, lead, ids[i], Fetching, 1)];
        assert ids[..i + 1] == ids[..i] + [ids[i]];
        i := i + 1;
      }
      assert ids[..i] == ids;
      requests := requests + 1;
    }

    method ScheduleRetry(i: nat)
      requires i < |slots|
      modifies this`slots, this`backgroundTasks
      ensures slots == old(slots)[i := old(slots)[i].(phase := Retrying(0))]
      ensures backgroundTasks == old(backgroundTasks) + {i}
    {
      slots := slots[i := slots[i].(phase := Retrying(0))];
      backgroundTasks := backgroundTasks + {i};
    }

    /** The end of one lookup within the budget: an answer, or any exception. */
    method FetchOne(i: nat, answer: Option<Places>)
      requires i < |slots| && slots[i].phase.Fetching?
      modifies this`slots, this`backgroundTasks
      ensures State() == Apply(maxRetries, old(State()), if answer.Some? then Answer(i, answer.value) else Miss(i))
    {
      if answer.None? {
        ScheduleRetry(i);
        return;
      }
      slots := slots[i := slots[i].(phase := Delivered(answer.value))];
    }

    /** An answer of a retry: published in a transaction of its own, which may fail. */
    method PublishLateInsight(i: nat, places: Places, publishes: bool)
      requires i < |slots| && slots[i].phase.Retrying? && slots[i].phase.failed < maxRetries
      modifies this`slots, this`backgroundTasks, this`late
      ensures IsFanPath(maxRetries, old(State()),
              [RetryOk(i, places), if publishes then PublishOk(i) else PublishFail(i)], State())
    {
      ghost var start := State();
      slots := slots[i := slots[i].(phase := Publishing(places), calls := slots[i].calls + 1)];
      ghost var asked := State();
      backgroundTasks := backgroundTasks - {i};
      if publishes {
        slots := slots[i := slots[i].(phase := PublishedLate(places))];
        late := late + [i];
      } else {
        slots := slots[i := slots[i].(phase := PublishFailed)];
      }
      TwoSteps(maxRetries, start, asked, State(), RetryOk(i, places),
        if publishes then PublishOk(i) else PublishFail(i));
    }

    method CountFailure(i: nat)
      requires i < |slots| && slots[i].phase.Retrying? && slots[i].phase.failed < maxRetries
      modifies this`slots
      ensures State() == Apply(maxRetries, old(State()), RetryFail(i))
    {
      slots := slots[i := slots[i].(phase := Retrying(slots[i].phase.failed + 1), calls := slots[i].calls + 1)];
    }

    method Abandon(i: nat)
      requires i < |slots| && slots[i].phase.Retrying? && slots[i].phase.failed >= maxRetries
      modifies this`slots, this`backgroundTasks
      ensures State() == Apply(maxRetries, old(State()), GiveUp(i))
    {
      slots := slots[i := slots[i].(phase := GivenUp)];
      backgroundTasks := backgroundTasks - {i};
    }

    /** `_retry_and_publish` with nothing else running: its loop is a path of the protocol. */
    method RetryAndPublish(i: nat, answers: nat -> Option<Places>, publishes: bool)
      requires i < |slots| && slots[i].phase == Retrying(0)
      modifies this`slots, this`backgroundTasks, this`late
      ensures IsFanPath(maxRetries, old(State()), RetrySteps(i, maxRetries, 0, answers, publishes), State())
    {
      ghost var start := State();
      var attempt := 0;
      while attempt < maxRetries
        invariant 0 <= attempt <= maxRetries
        invariant i < |slots| && slots[i].phase == Retrying(attempt)
        invariant IsFanPath(maxRetries, start, Failures(i, attempt), State())
        invariant forall k: nat :: k < attempt ==> answers(k).None?
      {
        var answer := answers(attempt);
        ghost var before := State();
        if answer.Some? {
          PublishLateInsight(i, answer.value, publishes);
          RetryEnds(maxRetries, start, i, attempt, before, answers, publishes, State());
          return;
        }
        CountFailure(i);
        FanPathExtend(maxRetries, start, Failures(i, attempt), before, RetryFail(i));
        attempt := attempt + 1;
      }
      ghost var before := State();
      Abandon(i);
      FanOneStep(maxRetries, before, GiveUp(i));
      RetryEnds(maxRetries, start, i, attempt, before, answers, publishes, State());
    }
  }

  function Failures(i: nat, n: nat): seq<FanStep> {
    if n == 0 then [] else Failures(i, n - 1) + [RetryFail(i)]
  }

  lemma {:induction false} FailuresFirst(
      i: nat, maxRetries: nat, n: nat, answers: nat -> Option<Places>, publishes: bool)
    requires n <= maxRetries && forall k: nat :: k < n ==> answers(k).None?
    ensures RetrySteps(i, maxRetries, 0, answers, publishes)
            == Failures(i, n) + RetrySteps(i, maxRetries, n, answers, publishes)
  {
    if n == 0 {
      assert Failures(i, 0) == [];
    } else {
      FailuresFirst(i, maxRetries, n - 1, answers, publishes);
      assert answers(n - 1).None?;
      assert Failures(i, n - 1) + ([RetryFail(i)] + RetrySteps(i, maxRetries, n, answers, publishes))
          == Failures(i, n) + RetrySteps(i, maxRetries, n, answers, publishes);
    }
  }

  /** The failures so far and what ends the loop make up the whole retry. */
  lemma RetryEnds(
    maxRetries: nat, start: Fan, i: nat, n: nat, before: Fan, answers: nat -> Option<Places>, publishes: bool,
    after: Fan)
    requires n <= maxRetries && forall k: nat :: k < n ==> answers(k).None?
    requires IsFanPath(maxRetries, start, Failures(i, n), before)
    requires IsFanPath(maxRetries, before, RetrySteps(i, maxRetries, n, answers, publishes), after)
    ensures IsFanPath(maxRetries, start, RetrySteps(i, maxRetries, 0, answers, publishes), after)
  {
    FailuresFirst(i, maxRetries, n, answers, publishes);
    FanPathConcat(maxRetries, start, Failures(i, n), before, RetrySteps(i, maxRetries, n, answers, publishes), after);
  }

  lemma FanPathExtend(maxRetries: nat, f: Fan, done: seq<FanStep>, m: Fan, step: FanStep)
    requires IsFanPath(maxRetries, f, done, m) && Enabled(maxRetries, m, step)
    ensures IsFanPath(maxRetries, f, done + [step], Apply(maxRetries, m, step))
  {
    FanOneStep(maxRetries, m, step);
    FanPathConcat(maxRetries, f, done, m, [step], Apply(maxRetries, m, step));
  }

  lemma FanOneStep(maxRetries: nat, f: Fan, step: FanStep)
    requires Enabled(maxRetries, f, step)
    ensures IsFanPath(maxRetries, f, [step], Apply(maxRetries, f, step))
  {
    assert [step][1..] == [];
  }

  lemma TwoSteps(maxRetries: nat, f: Fan, m: Fan, t: Fan, first: FanStep, second: FanStep)
    requires Enabled(maxRetries, f, first) && m == Apply(maxRetries, f, first)
    requires Enabled(maxRetries, m, second) && t == Apply(maxRetries, m, second)
    ensures IsFanPath(maxRetries, f, [first, second], t)
  {
    assert [first, second][1..] == [second] && [second][1..] == [];
  }

  lemma {:induction false} FanPathConcat(
      maxRetries: nat, f: Fan, first: seq<FanStep>, m: Fan, second: seq<FanStep>, t: Fan)
    requires IsFanPath(maxRetries, f, first, m) && IsFanPath(maxRetries, m, second, t)
    ensures IsFanPath(maxRetries, f, first + second, t)
    decreases |first|
  {
    if first == [] {
      assert first + second == second;
    } else {
      assert (first + second)[1..] == first[1..] + second;
      FanPathConcat(maxRetries, Apply(maxRetries, f, first[0]), first[1..], m, second, t);
    }
  }
}
