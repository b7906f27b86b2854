/** The worker as a transition system: several workers, handlers that commit on their own, batches
    that commit or roll back as a whole at any point. */
module BusRuns {
  import opened Prelude
  import opened LeadDomain
  import opened Store
  import opened EventBus

  type Delivery = (string, EventId)

  /** A worker's open batch: the rows it locked, where it stands, and what its transaction holds uncommitted. */
  datatype Batch = Batch(
    rows: seq<EventId>, cur: nat, next: nat,
    staged: set<Delivery>, done: map<EventId, Time>, failed: map<EventId, string>)

  /** `runs` counts handler runs that returned without raising; `rolledBack` those of lost batches. */
  datatype Bus = Bus(
    outbox: seq<OutboxRow>,
    inbox: set<Delivery>,
    batches: map<nat, Batch>,
    runs: multiset<Delivery>,
    rolledBack: multiset<Delivery>)

  datatype BusStep =
    | Arrive(events: seq<Event>, now: Time)
    | Begin(worker: nat, rows: seq<EventId>, limit: nat)
    | Skip(worker: nat)
    | RunOk(worker: nat, events: seq<Event>, now: Time)
    | RunFail(worker: nat, error: string, events: seq<Event>, now: Time)
    | RowDone(worker: nat, now: Time)
    | Commit(worker: nat)
    | Rollback(worker: nat)

  function Locked(s: Bus): set<EventId> {
    set w, e | w in s.batches && e in s.batches[w].rows :: e
  }

  function ConsumersOf(registry: Registry, outbox: seq<OutboxRow>, e: EventId): seq<string> {
    if e < |outbox| then Consumers(registry, outbox[e].event) else []
  }

  /** A worker stands before the next consumer of its current row. */
  predicate AtConsumer(registry: Registry, s: Bus, w: nat) {
    && w in s.batches
    && s.batches[w].cur < |s.batches[w].rows|
    && s.batches[w].next < |ConsumersOf(registry, s.outbox, s.batches[w].rows[s.batches[w].cur])|
  }

  function NextDelivery(registry: Registry, s: Bus, w: nat): Delivery
    requires AtConsumer(registry, s, w)
  {
    var e := s.batches[w].rows[s.batches[w].cur];
    (ConsumersOf(registry, s.outbox, e)[s.batches[w].next], e)
  }

  predicate Known(s: Bus, w: nat, d: Delivery)
    requires w in s.batches
  {
    d in s.inbox || d in s.batches[w].staged
  }

  ghost predicate Enabled(registry: Registry, s: Bus, step: BusStep) {
    match step
    case Arrive(_, _) => true
    case Begin(w, rows, limit) => w !in s.batches && IsBatch(s.outbox, Locked(s), limit, rows)
    case Skip(w) => AtConsumer(registry, s, w) && Known(s, w, NextDelivery(registry, s, w))
    case RunOk(w, _, _) => AtConsumer(registry, s, w) && !Known(s, w, NextDelivery(registry, s, w))
    case RunFail(w, _, _, _) => AtConsumer(registry, s, w) && !Known(s, w, NextDelivery(registry, s, w))
    case RowDone(w, _) =>
      w in s.batches && s.batches[w].cur < |s.batches[w].rows| && !AtConsumer(registry, s, w)
    case Commit(w) => w in s.batches && s.batches[w].cur == |s.batches[w].rows|
    case Rollback(w) => w in s.batches
  }

  /** The committed outbox once a batch's marks are written. */
  function Marked(outbox: seq<OutboxRow>, b: Batch): (r: seq<OutboxRow>)
    ensures |r| == |outbox|
    ensures Log(r) == Log(outbox)
    ensures forall e :: 0 <= e < |r| ==> r[e].occurredAt == outbox[e].occurredAt
    ensures forall e :: 0 <= e < |r| ==>
            r[e].processedAt == if e in b.done then Some(b.done[e]) else outbox[e].processedAt
  {
    seq(|outbox|, e requires 0 <= e < |outbox| =>
      if e in b.done then Processed(outbox[e], b.done[e])
      else if e in b.failed then Failed(outbox[e], b.failed[e])
      else outbox[e])
  }

  function Apply(registry: Registry, s: Bus, step: BusStep): Bus
    requires Enabled(registry, s, step)
  {
    match step
    case Arrive(events, now) => s.(outbox := s.outbox + FreshRows(events, now))
    case Begin(w, rows, limit) => s.(batches := s.batches[w := Batch(rows, 0, 0, {}, map[], map[])])
    case Skip(w) =>
      var b := s.batches[w];
      s.(batches := s.batches[w := b.(next := b.next + 1)])
    case RunOk(w, events, now) =>
      var b := s.batches[w];
      var d := NextDelivery(registry, s, w);
      s.(batches := s.batches[w := b.(next := b.next + 1, staged := b.staged + {d})],
         runs := s.runs + multiset{d},
         outbox := s.outbox + FreshRows(events, now))
    case RunFail(w, error, events, now) =>
      var b := s.batches[w];
      var d := NextDelivery(registry, s, w);
      s.(batches := s.batches[w := b.(cur := b.cur + 1, next := 0, failed := b.failed[d.1 := d.0 + ": " + error])],
         outbox := s.outbox + FreshRows(events, now))
    case RowDone(w, now) =>
      var b := s.batches[w];
      s.(batches := s.batches[w := b.(cur := b.cur + 1, next := 0, done := b.done[b.rows[b.cur] := now])])
    case Commit(w) =>
      var b := s.batches[w];
      s.(outbox := Marked(s.outbox, b), inbox := s.inbox + b.staged, batches := s.batches - {w})
    case Rollback(w) =>
      var b := s.batches[w];
      s.(batches := s.batches - {w}, rolledBack := s.rolledBack + multiset(b.staged))
  }

  // ---- The invariant ---------------------------------------------------------------------------

  /** The shape of one batch: distinct unprocessed rows, staged records only of rows it reached. */
  ghost predicate BatchOk(registry: Registry, outbox: seq<OutboxRow>, inbox: set<Delivery>, b: Batch) {
    && Distinct(b.rows)
    && b.cur <= |b.rows|
    && (forall i :: 0 <= i < |b.rows| ==> b.rows[i] < |outbox| && outbox[b.rows[i]].processedAt.None?)
    && (forall d :: d in b.staged ==> d !in inbox && Reached(b, d.1))
    && (forall e :: e in b.done ==> Passed(b, e) && forall c :: c in ConsumersOf(registry, outbox, e) ==>
         (c, e) in inbox + b.staged)
    && (b.cur < |b.rows| ==>
          var consumers := ConsumersOf(registry, outbox, b.rows[b.cur]);
          && b.next <= |consumers|
          && forall i :: 0 <= i < b.next ==> (consumers[i], b.rows[b.cur]) in inbox + b.staged)
  }

  predicate Reached(b: Batch, e: EventId) { exists i :: 0 <= i < |b.rows| && i <= b.cur && b.rows[i] == e }

  predicate Passed(b: Batch, e: EventId) { exists i :: 0 <= i < |b.rows| && i < b.cur && b.rows[i] == e }

  /** No two open batches hold the same row. */
  ghost predicate LocksDisjoint(s: Bus) {
    forall v, w, e :: v in s.batches && w in s.batches && e in s.batches[v].rows && e in s.batches[w].rows ==> v == w
  }

  /** Records name registered consumers, and a recorded consumer's predecessors are recorded. */
  ghost predicate PrefixRecords(registry: Registry, outbox: seq<OutboxRow>, records: set<Delivery>) {
    && (forall d :: d in records ==> d.1 < |outbox| && d.0 in ConsumersOf(registry, outbox, d.1))
    && (forall e: EventId, i, j ::
          0 <= i < j < |ConsumersOf(registry, outbox, e)| && (ConsumersOf(registry, outbox, e)[j], e) in records ==>
            (ConsumersOf(registry, outbox, e)[i], e) in records)
  }

  ghost predicate ProcessedIsComplete(registry: Registry, s: Bus) {
    forall e: EventId, c ::
      e < |s.outbox| && s.outbox[e].processedAt.Some? && c in ConsumersOf(registry, s.outbox, e) ==> (c, e) in s.inbox
  }

  ghost predicate StagedSomewhere(s: Bus, d: Delivery) {
    exists w :: w in s.batches && d in s.batches[w].staged
  }

  /** Every handler run that returned is recorded, staged, or lost with its batch - and nothing else is. */
  ghost predicate Accounted(s: Bus) {
    forall d: Delivery :: s.runs[d]
        == (if d in s.inbox then 1 else 0) + (if StagedSomewhere(s, d) then 1 else 0) + s.rolledBack[d]
  }

  ghost predicate RunsInOrder(registry: Registry, s: Bus) {
    && (forall d: Delivery :: d in s.runs ==> d.1 < |s.outbox|)
    && forall e: EventId, i, j ::
         0 <= i < j < |ConsumersOf(registry, s.outbox, e)| && (ConsumersOf(registry, s.outbox, e)[j], e) in s.runs ==>
           (ConsumersOf(registry, s.outbox, e)[i], e) in s.runs
  }

  ghost predicate BatchesOk(registry: Registry, s: Bus) {
    forall w :: w in s.batches ==> BatchOk(registry, s.outbox, s.inbox, s.batches[w])
  }

  ghost predicate StagedPrefixes(registry: Registry, s: Bus) {
    forall w :: w in s.batches ==> PrefixRecords(registry, s.outbox, s.inbox + s.batches[w].staged)
  }

  ghost predicate BusInv(registry: Registry, s: Bus) {
    && BatchesOk(registry, s)
    && LocksDisjoint(s)
    && PrefixRecords(registry, s.outbox, s.inbox)
    && StagedPrefixes(registry, s)
    && ProcessedIsComplete(registry, s)
    && Accounted(s)
    && RunsInOrder(registry, s)
  }

  /** Consumer names are distinct within an event type. */
  ghost predicate DistinctNames(registry: Registry) {
    forall t :: t in registry ==> Distinct(registry[t])
  }

  lemma StagedByOne(registry: Registry, s: Bus, w: nat, d: Delivery)
    requires BusInv(registry, s)
    requires w in s.batches && d.1 in s.batches[w].rows
    ensures StagedSomewhere(s, d) <==> d in s.batches[w].staged
  {
  }

  /** A delivery staged by one worker is staged by no other. */
  lemma StagedOnlyOnce(registry: Registry, s: Bus, v: nat, w: nat, d: Delivery)
    requires BusInv(registry, s)
    requires v in s.batches && w in s.batches && v != w
    ensures d !in s.batches[v].staged || d !in s.batches[w].staged
  {
    if d in s.batches[w].staged {
      assert Reached(s.batches[w], d.1);
      StagedByOne(registry, s, w, d);
      assert d in s.batches[v].staged ==> Reached(s.batches[v], d.1);
    }
  }

  /** Once a worker's batch is gone, what it staged is staged nowhere and the rest is where it was. */
  lemma StagedWithout(registry: Registry, s: Bus, w: nat, r: Bus, d: Delivery)
    requires BusInv(registry, s)
    requires w in s.batches && r.batches == s.batches - {w}
    ensures d in s.batches[w].staged ==> StagedSomewhere(s, d) && !StagedSomewhere(r, d)
    ensures d !in s.batches[w].staged ==> (StagedSomewhere(r, d) <==> StagedSomewhere(s, d))
  {
    forall v | v in r.batches ensures d !in s.batches[v].staged || d !in s.batches[w].staged {
      StagedOnlyOnce(registry, s, v, w, d);
    }
    if StagedSomewhere(s, d) && d !in s.batches[w].staged {
      var v :| v in s.batches && d in s.batches[v].staged;
      assert v in r.batches && d in r.batches[v].staged;
    }
  }

  // ---- Preservation, step by step --------------------------------------------------------------

  /** Rows appended to the outbox leave every earlier row, and so every registration that matters, as it was. */
  lemma GrownConsumers(registry: Registry, outbox: seq<OutboxRow>, more: seq<OutboxRow>, e: EventId)
    requires e < |outbox|
    ensures ConsumersOf(registry, outbox + more, e) == ConsumersOf(registry, outbox, e)
  {
    assert (outbox + more)[e] == outbox[e];
  }

  lemma GrownBatch(registry: Registry, outbox: seq<OutboxRow>, more: seq<OutboxRow>, inbox: set<Delivery>, b: Batch)
    requires BatchOk(registry, outbox, inbox, b)
    ensures BatchOk(registry, outbox + more, inbox, b)
  {
  }

  lemma GrownRecords(registry: Registry, outbox: seq<OutboxRow>, more: seq<OutboxRow>, records: set<Delivery>)
    requires PrefixRecords(registry, outbox, records)
    ensures PrefixRecords(registry, outbox + more, records)
  {
  }

  lemma GrownRuns(registry: Registry, s: Bus, r: Bus, more: seq<OutboxRow>)
    requires RunsInOrder(registry, s) && ProcessedIsComplete(registry, s) && Accounted(s)
    requires r == s.(outbox := s.outbox + more)
    requires forall i :: 0 <= i < |more| ==> more[i].processedAt.None?
    ensures RunsInOrder(registry, r) && ProcessedIsComplete(registry, r) && Accounted(r)
  {
    forall e: EventId | e < |s.outbox|
      ensures ConsumersOf(registry, r.outbox, e) == ConsumersOf(registry, s.outbox, e) && r.outbox[e] == s.outbox[e]
    {
      GrownConsumers(registry, s.outbox, more, e);
    }
    forall d: Delivery ensures StagedSomewhere(r, d) <==> StagedSomewhere(s, d) {
    }
    forall e: EventId, i, j
      | 0 <= i < j < |ConsumersOf(registry, r.outbox, e)| && (ConsumersOf(registry, r.outbox, e)[j], e) in r.runs
      ensures (ConsumersOf(registry, r.outbox, e)[i], e) in r.runs
    {
      var d := (ConsumersOf(registry, r.outbox, e)[j], e);
      assert d in s.runs && d.1 == e;
      assert (ConsumersOf(registry, s.outbox, e)[j], e) in s.runs;
    }
  }

  /** Growing the outbox changes nothing the invariant sees. */
  lemma GrowthKeepsInv(registry: Registry, s: Bus, events: seq<Event>, now: Time)
    requires BusInv(registry, s)
    ensures BusInv(registry, s.(outbox := s.outbox + FreshRows(events, now)))
  {
    var more := FreshRows(events, now);
    var r := s.(outbox := s.outbox + more);
    forall w | w in r.batches ensures BatchOk(registry, r.outbox, r.inbox, r.batches[w]) {
      GrownBatch(registry, s.outbox, more, s.inbox, s.batches[w]);
    }
    forall w | w in r.batches ensures PrefixRecords(registry, r.outbox, r.inbox + r.batches[w].staged) {
      GrownRecords(registry, s.outbox, more, s.inbox + s.batches[w].staged);
    }
    GrownRecords(registry, s.outbox, more, s.inbox);
    GrownRuns(registry, s, r, more);
  }

  lemma BeginKeepsInv(registry: Registry, s: Bus, w: nat, rows: seq<EventId>, limit: nat)
    requires BusInv(registry, s)
    requires Enabled(registry, s, Begin(w, rows, limit))
    ensures BusInv(registry, Apply(registry, s, Begin(w, rows, limit)))
  {
    var b := Batch(rows, 0, 0, {}, map[], map[]);
    NewBatchIsOk(registry, s, b, limit);
    BatchesAfter(registry, s, w, b);
    assert s.inbox + b.staged == s.inbox;
    StagingAfter(registry, s, w, b);
    LocksAfterBegin(s, w, b, limit);
  }

  lemma NewBatchIsOk(registry: Registry, s: Bus, b: Batch, limit: nat)
    requires IsBatch(s.outbox, Locked(s), limit, b.rows)
    requires b == Batch(b.rows, 0, 0, {}, map[], map[])
    ensures BatchOk(registry, s.outbox, s.inbox, b)
  {
  }

  lemma LocksAfterBegin(s: Bus, w: nat, b: Batch, limit: nat)
    requires LocksDisjoint(s)
    requires w !in s.batches && IsBatch(s.outbox, Locked(s), limit, b.rows)
    ensures LocksDisjoint(s.(batches := s.batches[w := b]))
  {
  }

  lemma BatchesAfter(registry: Registry, s: Bus, w: nat, b: Batch)
    requires BatchesOk(registry, s)
    requires BatchOk(registry, s.outbox, s.inbox, b)
    ensures BatchesOk(registry, s.(batches := s.batches[w := b]))
  {
  }

  /** Opening a batch with nothing staged, or moving one without staging more, changes no account. */
  lemma StagingAfter(registry: Registry, s: Bus, w: nat, b: Batch)
    requires StagedPrefixes(registry, s) && PrefixRecords(registry, s.outbox, s.inbox) && Accounted(s)
    requires b.staged == if w in s.batches then s.batches[w].staged else {}
    ensures StagedPrefixes(registry, s.(batches := s.batches[w := b]))
    ensures Accounted(s.(batches := s.batches[w := b]))
  {
    var r := s.(batches := s.batches[w := b]);
    forall d: Delivery ensures StagedSomewhere(r, d) <==> StagedSomewhere(s, d) {
      if StagedSomewhere(s, d) {
        var v :| v in s.batches && d in s.batches[v].staged;
        assert v in r.batches && d in r.batches[v].staged;
      }
    }
    assert s.inbox + {} == s.inbox;
  }

  /** Replacing one worker's batch by a good one with the same rows and staged records. */
  lemma MoveKeepsInv(registry: Registry, s: Bus, w: nat, b: Batch)
    requires BusInv(registry, s)
    requires w in s.batches && b.rows == s.batches[w].rows && b.staged == s.batches[w].staged
    requires BatchOk(registry, s.outbox, s.inbox, b)
    ensures BusInv(registry, s.(batches := s.batches[w := b]))
  {
    BatchesAfter(registry, s, w, b);
    StagingAfter(registry, s, w, b);
    LocksAfterMove(s, w, b);
  }

  lemma LocksAfterMove(s: Bus, w: nat, b: Batch)
    requires LocksDisjoint(s)
    requires w in s.batches && b.rows == s.batches[w].rows
    ensures LocksDisjoint(s.(batches := s.batches[w := b]))
  {
  }

  /** The batch after its current row is left behind. */
  lemma NextRowIsOk(registry: Registry, outbox: seq<OutboxRow>, inbox: set<Delivery>, b: Batch, b': Batch)
    requires BatchOk(registry, outbox, inbox, b) && b.cur < |b.rows|
    requires b'.rows == b.rows && b'.staged == b.staged && b'.cur == b.cur + 1 && b'.next == 0
    requires forall e :: e in b'.done ==> e in b.done || e == b.rows[b.cur]
    requires b.rows[b.cur] in b'.done ==>
               forall c :: c in ConsumersOf(registry, outbox, b.rows[b.cur]) ==> (c, b.rows[b.cur]) in inbox + b.staged
    ensures BatchOk(registry, outbox, inbox, b')
  {
  }

  /** Standing still on the row, one consumer further, with at least what was staged before. */
  lemma NextConsumerIsOk(outbox: seq<OutboxRow>, inbox: set<Delivery>, registry: Registry, b: Batch, b': Batch)
    requires BatchOk(registry, outbox, inbox, b) && b.cur < |b.rows|
    requires b.next < |ConsumersOf(registry, outbox, b.rows[b.cur])|
    requires var d := (ConsumersOf(registry, outbox, b.rows[b.cur])[b.next], b.rows[b.cur]);
             && b' == b.(next := b.next + 1, staged := b'.staged)
             && ((b'.staged == b.staged && d in inbox + b.staged) || (b'.staged == b.staged + {d} && d !in inbox))
    ensures BatchOk(registry, outbox, inbox, b')
  {
  }

  /** A worker that moves past a consumer already known. */
  lemma SkippedIsOk(registry: Registry, s: Bus, w: nat)
    requires BatchesOk(registry, s)
    requires AtConsumer(registry, s, w) && Known(s, w, NextDelivery(registry, s, w))
    ensures BatchOk(registry, s.outbox, s.inbox, s.batches[w].(next := s.batches[w].next + 1))
  {
    var b := s.batches[w];
    assert BatchOk(registry, s.outbox, s.inbox, b);
    NextConsumerIsOk(s.outbox, s.inbox, registry, b, b.(next := b.next + 1));
  }

  lemma SkipMoves(registry: Registry, s: Bus, w: nat, b: Batch)
    requires Enabled(registry, s, Skip(w)) && b == s.batches[w].(next := s.batches[w].next + 1)
    ensures Apply(registry, s, Skip(w)) == s.(batches := s.batches[w := b])
  {
  }

  lemma SkipKeepsInv(registry: Registry, s: Bus, w: nat)
    requires BusInv(registry, s)
    requires Enabled(registry, s, Skip(w))
    ensures BusInv(registry, Apply(registry, s, Skip(w)))
  {
    var b := s.batches[w].(next := s.batches[w].next + 1);
    SkipMoves(registry, s, w, b);
    SkippedIsOk(registry, s, w);
    MoveKeepsInv(registry, s, w, b);
  }

  lemma CurrentRowIsNotDone(registry: Registry, outbox: seq<OutboxRow>, inbox: set<Delivery>, b: Batch)
    requires BatchOk(registry, outbox, inbox, b) && b.cur < |b.rows|
    ensures b.rows[b.cur] !in b.done
  {
    assert !Passed(b, b.rows[b.cur]);
  }

  /** A worker that leaves a row behind with an error. */
  function AfterFailure(b: Batch, e: EventId, error: string): Batch {
    b.(cur := b.cur + 1, next := 0, failed := b.failed[e := error])
  }

  lemma FailedIsOk(registry: Registry, s: Bus, w: nat, error: string)
    requires BatchesOk(registry, s)
    requires w in s.batches && s.batches[w].cur < |s.batches[w].rows|
    ensures BatchOk(registry, s.outbox, s.inbox, AfterFailure(s.batches[w], s.batches[w].rows[s.batches[w].cur], error))
  {
    var b := s.batches[w];
    assert BatchOk(registry, s.outbox, s.inbox, b);
    CurrentRowIsNotDone(registry, s.outbox, s.inbox, b);
    NextRowIsOk(registry, s.outbox, s.inbox, b, AfterFailure(b, b.rows[b.cur], error));
  }

  lemma FailureKeepsInv(registry: Registry, s: Bus, w: nat, e: EventId, error: string)
    requires BusInv(registry, s)
    requires w in s.batches && s.batches[w].cur < |s.batches[w].rows| && e == s.batches[w].rows[s.batches[w].cur]
    ensures BusInv(registry, s.(batches := s.batches[w := AfterFailure(s.batches[w], e, error)]))
  {
    FailedIsOk(registry, s, w, error);
    MoveKeepsInv(registry, s, w, AfterFailure(s.batches[w], e, error));
  }

  lemma RunFailKeepsInv(registry: Registry, s: Bus, w: nat, error: string, events: seq<Event>, now: Time)
    requires BusInv(registry, s)
    requires Enabled(registry, s, RunFail(w, error, events, now))
    ensures BusInv(registry, Apply(registry, s, RunFail(w, error, events, now)))
  {
    var d := NextDelivery(registry, s, w);
    var moved := s.(batches := s.batches[w := AfterFailure(s.batches[w], d.1, d.0 + ": " + error)]);
    assert Apply(registry, s, RunFail(w, error, events, now))
        == moved.(outbox := moved.outbox + FreshRows(events, now));
    FailureKeepsInv(registry, s, w, d.1, d.0 + ": " + error);
    GrowthKeepsInv(registry, moved, events, now);
  }

  /** A worker that leaves a row behind with every consumer recorded. */
  lemma DoneIsOk(registry: Registry, s: Bus, w: nat, now: Time)
    requires BatchesOk(registry, s)
    requires w in s.batches && s.batches[w].cur < |s.batches[w].rows| && !AtConsumer(registry, s, w)
    ensures var b := s.batches[w];
            BatchOk(registry, s.outbox, s.inbox, b.(cur := b.cur + 1, next := 0, done := b.done[b.rows[b.cur] := now]))
  {
  }

  lemma RowDoneKeepsInv(registry: Registry, s: Bus, w: nat, now: Time)
    requires BusInv(registry, s)
    requires Enabled(registry, s, RowDone(w, now))
    ensures BusInv(registry, Apply(registry, s, RowDone(w, now)))
  {
    DoneIsOk(registry, s, w, now);
    var b := s.batches[w];
    MoveKeepsInv(registry, s, w, b.(cur := b.cur + 1, next := 0, done := b.done[b.rows[b.cur] := now]));
  }

  lemma RollbackKeepsInv(registry: Registry, s: Bus, w: nat)
    requires BusInv(registry, s)
    requires Enabled(registry, s, Rollback(w))
    ensures BusInv(registry, Apply(registry, s, Rollback(w)))
  {
    var b := s.batches[w];
    var r := Apply(registry, s, Rollback(w));
    assert BatchOk(registry, s.outbox, s.inbox, b);
    forall v | v in r.batches
      ensures BatchOk(registry, r.outbox, r.inbox, r.batches[v])
      ensures PrefixRecords(registry, r.outbox, r.inbox + r.batches[v].staged)
    {
      assert BatchOk(registry, s.outbox, s.inbox, s.batches[v])
          && PrefixRecords(registry, s.outbox, s.inbox + s.batches[v].staged);
    }
    forall d: Delivery
      ensures r.runs[d] == (if d in r.inbox then 1 else 0) + (if StagedSomewhere(r, d) then 1 else 0) + r.rolledBack[d]
    {
      StagedWithout(registry, s, w, r, d);
    }
  }

  /** Where the new record of a successful run belongs: to the current row, after all its predecessors. */
  lemma RecordingKeepsPrefix(registry: Registry, s: Bus, w: nat)
    requires BusInv(registry, s) && DistinctNames(registry)
    requires AtConsumer(registry, s, w)
    ensures PrefixRecords(registry, s.outbox, s.inbox + (s.batches[w].staged + {NextDelivery(registry, s, w)}))
  {
    var b := s.batches[w];
    var d := NextDelivery(registry, s, w);
    var records := s.inbox + b.staged;
    assert BatchOk(registry, s.outbox, s.inbox, b) && PrefixRecords(registry, s.outbox, records);
    assert s.inbox + (b.staged + {d}) == records + {d};
    var consumers := ConsumersOf(registry, s.outbox, d.1);
    assert Distinct(consumers);
    forall e: EventId, i, j
      | 0 <= i < j < |ConsumersOf(registry, s.outbox, e)| && (ConsumersOf(registry, s.outbox, e)[j], e) in records + {d}
      ensures (ConsumersOf(registry, s.outbox, e)[i], e) in records + {d}
    {
      if (ConsumersOf(registry, s.outbox, e)[j], e) == d {
        assert j == b.next;
      }
    }
  }

  lemma RunOkKeepsInv(registry: Registry, s: Bus, w: nat, events: seq<Event>, now: Time)
    requires BusInv(registry, s) && DistinctNames(registry)
    requires Enabled(registry, s, RunOk(w, events, now))
    ensures BusInv(registry, Apply(registry, s, RunOk(w, events, now)))
  {
    var ran := AfterRun(registry, s, w);
    assert Apply(registry, s, RunOk(w, events, now)) == ran.(outbox := ran.outbox + FreshRows(events, now));
    RecordingKeepsInv(registry, s, w, ran.batches[w], ran);
    GrowthKeepsInv(registry, ran, events, now);
  }

  function AfterRun(registry: Registry, s: Bus, w: nat): Bus
    requires AtConsumer(registry, s, w)
  {
    var b := s.batches[w];
    var d := NextDelivery(registry, s, w);
    s.(batches := s.batches[w := b.(next := b.next + 1, staged := b.staged + {d})], runs := s.runs + multiset{d})
  }

  lemma RecordingKeepsInv(registry: Registry, s: Bus, w: nat, b': Batch, ran: Bus)
    requires BusInv(registry, s) && DistinctNames(registry)
    requires AtConsumer(registry, s, w) && !Known(s, w, NextDelivery(registry, s, w))
    requires b' == s.batches[w].(next := s.batches[w].next + 1,
             staged := s.batches[w].staged + {NextDelivery(registry, s, w)})
    requires ran == s.(batches := s.batches[w := b'], runs := s.runs + multiset{NextDelivery(registry, s, w)})
    ensures BusInv(registry, ran)
  {
    RecordingKeepsPrefix(registry, s, w);
    NextConsumerIsOk(s.outbox, s.inbox, registry, s.batches[w], b');
    BatchesAfter(registry, s, w, b');
    PrefixesAfter(registry, s, w, b');
    LocksAfterMove(s, w, b');
    StagedByOne(registry, s, w, NextDelivery(registry, s, w));
    RunIsAccounted(s, w, NextDelivery(registry, s, w), b', ran);
    RunIsInOrder(registry, s, w, ran);
  }

  lemma PrefixesAfter(registry: Registry, s: Bus, w: nat, b: Batch)
    requires StagedPrefixes(registry, s)
    requires PrefixRecords(registry, s.outbox, s.inbox + b.staged)
    ensures StagedPrefixes(registry, s.(batches := s.batches[w := b]))
  {
  }

  /** A run of a delivery nobody has recorded is accounted for by its own new record. */
  lemma RunIsAccounted(s: Bus, w: nat, next: Delivery, b: Batch, r: Bus)
    requires Accounted(s)
    requires w in s.batches && next !in s.inbox && !StagedSomewhere(s, next)
    requires b.staged == s.batches[w].staged + {next}
    requires r == s.(batches := s.batches[w := b], runs := s.runs + multiset{next})
    ensures Accounted(r)
  {
    forall d: Delivery
      ensures r.runs[d] == (if d in r.inbox then 1 else 0) + (if StagedSomewhere(r, d) then 1 else 0) + r.rolledBack[d]
    {
      if d == next {
        assert w in r.batches && d in r.batches[w].staged;
      } else if StagedSomewhere(s, d) {
        var v :| v in s.batches && d in s.batches[v].staged;
        assert v in r.batches && d in r.batches[v].staged;
      }
    }
  }

  lemma RunIsInOrder(registry: Registry, s: Bus, w: nat, r: Bus)
    requires BusInv(registry, s) && DistinctNames(registry)
    requires AtConsumer(registry, s, w)
    requires r.outbox == s.outbox && r.runs == s.runs + multiset{NextDelivery(registry, s, w)}
    ensures RunsInOrder(registry, r)
  {
    var b := s.batches[w];
    var d := NextDelivery(registry, s, w);
    assert BatchOk(registry, s.outbox, s.inbox, b);
    assert Distinct(ConsumersOf(registry, s.outbox, d.1));
    forall i | 0 <= i < b.next ensures (ConsumersOf(registry, s.outbox, d.1)[i], d.1) in s.runs {
      var p := (ConsumersOf(registry, s.outbox, d.1)[i], d.1);
      assert p in s.inbox + b.staged;
      assert p in b.staged ==> StagedSomewhere(s, p);
      assert s.runs[p] > 0;
    }
    forall e: EventId, i, j
      | 0 <= i < j < |ConsumersOf(registry, r.outbox, e)| && (ConsumersOf(registry, r.outbox, e)[j], e) in r.runs
      ensures (ConsumersOf(registry, r.outbox, e)[i], e) in r.runs
    {
      assert ConsumersOf(registry, r.outbox, e) == ConsumersOf(registry, s.outbox, e);
      if (ConsumersOf(registry, s.outbox, e)[j], e) !in s.runs {
        assert (ConsumersOf(registry, s.outbox, e)[j], e) == d;
        assert j == b.next;
      }
    }
  }

  lemma CommitKeepsInv(registry: Registry, s: Bus, w: nat)
    requires BusInv(registry, s)
    requires Enabled(registry, s, Commit(w))
    ensures BusInv(registry, Apply(registry, s, Commit(w)))
  {
    var b := s.batches[w];
    var r := s.(outbox := Marked(s.outbox, b), inbox := s.inbox + b.staged, batches := s.batches - {w});
    assert Apply(registry, s, Commit(w)) == r;
    SameConsumers(registry, s.outbox, b);
    forall v | v in r.batches ensures BatchOk(registry, r.outbox, r.inbox, r.batches[v]) {
      CommitKeepsOtherBatch(registry, s, w, v, r);
    }
    forall v | v in r.batches ensures PrefixRecords(registry, r.outbox, r.inbox + r.batches[v].staged) {
      CommitKeepsOtherPrefix(registry, s, w, v, r);
    }
    CommitKeepsRecords(registry, s, w, r);
    CommitIsAccounted(registry, s, w, r);
  }

  /** Marks on a row change no event. */
  lemma SameConsumers(registry: Registry, outbox: seq<OutboxRow>, b: Batch)
    ensures forall e: EventId :: ConsumersOf(registry, Marked(outbox, b), e) == ConsumersOf(registry, outbox, e)
  {
  }

  /** What a commit writes is a prefix again, and the rows it marks processed have all their consumers. */
  lemma CommitKeepsRecords(registry: Registry, s: Bus, w: nat, r: Bus)
    requires BatchesOk(registry, s) && StagedPrefixes(registry, s) && ProcessedIsComplete(registry, s)
             && RunsInOrder(registry, s)
    requires w in s.batches
    requires r == s.(outbox := Marked(s.outbox, s.batches[w]), inbox := s.inbox + s.batches[w].staged,
             batches := s.batches - {w})
    requires forall e: EventId :: ConsumersOf(registry, r.outbox, e) == ConsumersOf(registry, s.outbox, e)
    ensures PrefixRecords(registry, r.outbox, r.inbox) && ProcessedIsComplete(registry, r) && RunsInOrder(registry, r)
  {
    assert PrefixRecords(registry, s.outbox, s.inbox + s.batches[w].staged);
    assert BatchOk(registry, s.outbox, s.inbox, s.batches[w]);
  }

  lemma CommitKeepsOtherBatch(registry: Registry, s: Bus, w: nat, v: nat, r: Bus)
    requires BusInv(registry, s)
    requires w in s.batches && v in s.batches && v != w
    requires r == s.(outbox := Marked(s.outbox, s.batches[w]), inbox := s.inbox + s.batches[w].staged,
             batches := s.batches - {w})
    requires forall e: EventId :: ConsumersOf(registry, r.outbox, e) == ConsumersOf(registry, s.outbox, e)
    ensures BatchOk(registry, r.outbox, r.inbox, r.batches[v])
  {
    var b, other := s.batches[w], s.batches[v];
    assert BatchOk(registry, s.outbox, s.inbox, b);
    forall e | e in b.done ensures e !in other.rows {
      assert Passed(b, e);
      assert e in b.rows;
    }
    forall d | d in other.staged ensures d !in r.inbox {
      StagedOnlyOnce(registry, s, v, w, d);
    }
    OtherBatchIsOk(registry, s.outbox, s.inbox, b, other, r.outbox, r.inbox);
  }

  /** A batch that shares no row and no record with what was committed. */
  lemma OtherBatchIsOk(
    registry: Registry, outbox: seq<OutboxRow>, inbox: set<Delivery>, b: Batch, other: Batch, outbox': seq<OutboxRow>,
    inbox': set<Delivery>)
    requires BatchOk(registry, outbox, inbox, other)
    requires outbox' == Marked(outbox, b) && inbox' == inbox + b.staged
    requires forall e | e in b.done :: e !in other.rows
    requires forall d | d in other.staged :: d !in inbox'
    requires forall e: EventId :: ConsumersOf(registry, outbox', e) == ConsumersOf(registry, outbox, e)
    ensures BatchOk(registry, outbox', inbox', other)
  {
  }

  lemma CommitKeepsOtherPrefix(registry: Registry, s: Bus, w: nat, v: nat, r: Bus)
    requires BusInv(registry, s)
    requires w in s.batches && v in s.batches && v != w
    requires r == s.(outbox := Marked(s.outbox, s.batches[w]), inbox := s.inbox + s.batches[w].staged,
             batches := s.batches - {w})
    requires forall e: EventId :: ConsumersOf(registry, r.outbox, e) == ConsumersOf(registry, s.outbox, e)
    ensures PrefixRecords(registry, r.outbox, r.inbox + r.batches[v].staged)
  {
    assert PrefixRecords(registry, s.outbox, s.inbox + s.batches[w].staged);
    assert PrefixRecords(registry, s.outbox, s.inbox + s.batches[v].staged);
  }

  lemma CommitIsAccounted(registry: Registry, s: Bus, w: nat, r: Bus)
    requires BusInv(registry, s)
    requires w in s.batches
    requires r == s.(outbox := r.outbox, inbox := s.inbox + s.batches[w].staged, batches := s.batches - {w})
    ensures Accounted(r)
  {
    var b := s.batches[w];
    assert BatchOk(registry, s.outbox, s.inbox, b);
    forall d: Delivery
      ensures r.runs[d] == (if d in r.inbox then 1 else 0) + (if StagedSomewhere(r, d) then 1 else 0) + r.rolledBack[d]
    {
      StagedWithout(registry, s, w, r, d);
    }
  }

  lemma StepKeepsInv(registry: Registry, s: Bus, step: BusStep)
    requires BusInv(registry, s) && DistinctNames(registry)
    requires Enabled(registry, s, step)
    ensures BusInv(registry, Apply(registry, s, step))
  {
    match step
    case Arrive(events, now) => GrowthKeepsInv(registry, s, events, now);
    case Begin(w, rows, limit) => BeginKeepsInv(registry, s, w, rows, limit);
    case Skip(w) => SkipKeepsInv(registry, s, w);
    case RunOk(w, events, now) => RunOkKeepsInv(registry, s, w, events, now);
    case RunFail(w, error, events, now) => RunFailKeepsInv(registry, s, w, error, events, now);
    case RowDone(w, now) => RowDoneKeepsInv(registry, s, w, now);
    case Commit(w) => CommitKeepsInv(registry, s, w);
    case Rollback(w) => RollbackKeepsInv(registry, s, w);
  }

  // ---- What the invariant gives ----------------------------------------------------------------

  /** The consumers recorded for an event. */
  ghost function RecordedConsumers(s: Bus, e: EventId): set<string> {
    set d | d in s.inbox && d.1 == e :: d.0
  }

  /** In every state, the recorded consumers of an event are a prefix of its registration list. */
  lemma InboxIsAPrefix(registry: Registry, s: Bus, e: EventId) returns (k: nat)
    requires BusInv(registry, s) && e < |s.outbox|
    ensures k <= |ConsumersOf(registry, s.outbox, e)|
    ensures RecordedConsumers(s, e) == set c | c in ConsumersOf(registry, s.outbox, e)[..k]
    ensures s.outbox[e].processedAt.Some? ==> RecordedConsumers(s, e) == set c | c in ConsumersOf(registry, s.outbox, e)
  {
    var consumers := ConsumersOf(registry, s.outbox, e);
    k := 0;
    while k < |consumers| && (consumers[k], e) in s.inbox
      invariant k <= |consumers|
      invariant forall i :: 0 <= i < k ==> (consumers[i], e) in s.inbox
    {
      k := k + 1;
    }
    forall c ensures c in RecordedConsumers(s, e) <==> (c, e) in s.inbox {
      if (c, e) in s.inbox {
        var d := (c, e);
        assert d in s.inbox && d.1 == e && d.0 == c;
      }
    }
    forall c | (c, e) in s.inbox ensures c in consumers[..k] {
      var d := (c, e);
      assert d.0 in ConsumersOf(registry, s.outbox, d.1);
      var j :| 0 <= j < |consumers| && consumers[j] == c;
      assert (ConsumersOf(registry, s.outbox, e)[j], e) in s.inbox;
      assert j < k;
      assert consumers[..k][j] == c;
    }
  }

  /** The number of successful runs of a delivery is at most its record count plus its lost batches,
      with equality when no batch is open. */
  lemma RunsAreBounded(registry: Registry, s: Bus, d: Delivery)
    requires BusInv(registry, s)
    ensures s.runs[d] <= 1 + s.rolledBack[d]
    ensures s.rolledBack[d] == 0 ==> s.runs[d] <= 1
    ensures s.batches == map[] ==> s.runs[d] == (if d in s.inbox then 1 else 0) + s.rolledBack[d]
  {
  }

  /** The recommendation consumer of a `ProfileCompleted` has run only if the stage push has succeeded
      for that same event. */
  lemma RecommendationAfterPush(s: Bus, e: EventId)
    requires BusInv(WIRED, s)
    requires e < |s.outbox| && s.outbox[e].event.ProfileCompleted?
    requires ("recommendation.on_profile_completed", e) in s.runs
    ensures ("lead_qualification.crm_push", e) in s.runs
  {
    var consumers := ConsumersOf(WIRED, s.outbox, e);
    assert consumers[1] == "recommendation.on_profile_completed";
    assert (consumers[0], e) in s.runs;
  }

  /** And when it is about to run, the push is already recorded or staged in the same batch. */
  lemma RecommendationWaitsForPush(s: Bus, w: nat)
    requires BusInv(WIRED, s)
    requires AtConsumer(WIRED, s, w)
    requires NextDelivery(WIRED, s, w).0 == "recommendation.on_profile_completed"
    requires s.outbox[NextDelivery(WIRED, s, w).1].event.ProfileCompleted?
    ensures Known(s, w, ("lead_qualification.crm_push", NextDelivery(WIRED, s, w).1))
  {
    var b := s.batches[w];
    var e := b.rows[b.cur];
    assert BatchOk(WIRED, s.outbox, s.inbox, b);
    var consumers := ConsumersOf(WIRED, s.outbox, e);
    assert consumers[0] == "lead_qualification.crm_push";
    assert b.next == 1;
    assert (consumers[0], e) in s.inbox + b.staged;
  }

  lemma WiredNamesAreDistinct()
    ensures DistinctNames(WIRED)
  {
    assert "lead_qualification.crm_push"[0] != "recommendation.on_profile_completed"[0];
  }
}
