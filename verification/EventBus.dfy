/** The outbox worker: ordered consumers per event type, dispatch that stops at the first failure,
    and what one undisturbed drain does. */
module EventBus {
  import opened Prelude
  import opened LeadDomain
  import opened Store

  /** Consumer names per event type, in registration order. */
  type Registry = map<string, seq<string>>

  function Consumers(registry: Registry, e: Event): seq<string> {
    if EventType(e) in registry then registry[EventType(e)] else []
  }

  function Registered(registry: Registry, eventType: string, consumer: string): Registry {
    registry[eventType := (if eventType in registry then registry[eventType] else []) + [consumer]]
  }

  /** How a handler run ends: None is success, otherwise the text of the exception. */
  type Outcomes = (string, EventId) -> Option<string>

  datatype Tables = Tables(outbox: seq<OutboxRow>, inbox: set<(string, EventId)>)

  function Processed(row: OutboxRow, now: Time): OutboxRow { row.(processedAt := Some(now)) }

  function Failed(row: OutboxRow, error: string): OutboxRow {
    row.(attempts := row.attempts + 1, lastError := Some(error))
  }

  /** `_dispatch_row` from its k-th consumer on. */
  function Dispatch(t: Tables, consumers: seq<string>, k: nat, e: EventId, outcomes: Outcomes, now: Time): (r: Tables)
    requires e < |t.outbox| && k <= |consumers|
    ensures |r.outbox| == |t.outbox|
    decreases |consumers| - k
  {
    if k == |consumers| then t.(outbox := t.outbox[e := Processed(t.outbox[e], now)])
    else if (consumers[k], e) in t.inbox then Dispatch(t, consumers, k + 1, e, outcomes, now)
    else
      match outcomes(consumers[k], e)
      case None => Dispatch(t.(inbox := t.inbox + {(consumers[k], e)}), consumers, k + 1, e, outcomes, now)
      case Some(error) => t.(outbox := t.outbox[e := Failed(t.outbox[e], consumers[k] + ": " + error)])
  }

  function DispatchRow(registry: Registry, t: Tables, e: EventId, outcomes: Outcomes, now: Time): (r: Tables)
    requires e < |t.outbox|
    ensures |r.outbox| == |t.outbox|
  {
    Dispatch(t, Consumers(registry, t.outbox[e].event), 0, e, outcomes, now)
  }

  /** The rows of a batch, one after the other. */
  function DrainRows(registry: Registry, t: Tables, rows: seq<EventId>, outcomes: Outcomes, now: Time): (r: Tables)
    requires forall i :: 0 <= i < |rows| ==> rows[i] < |t.outbox|
    ensures |r.outbox| == |t.outbox|
  {
    if rows == [] then t
    else
      var n := |rows| - 1;
      DispatchRow(registry, DrainRows(registry, t, rows[..n], outcomes, now), rows[n], outcomes, now)
  }

  /** The select of `_drain_batch`: the oldest unprocessed rows nobody else holds, up to the limit, in
      time order; rows of equal time come in any order. */
  ghost predicate IsBatch(outbox: seq<OutboxRow>, locked: set<EventId>, limit: nat, rows: seq<EventId>) {
    && Distinct(rows)
    && |rows| <= limit
    && (forall i :: 0 <= i < |rows| ==> Eligible(outbox, locked, rows[i]))
    && (forall i, j :: 0 <= i < j < |rows| ==> outbox[rows[i]].occurredAt <= outbox[rows[j]].occurredAt)
    && (forall e: EventId :: Eligible(outbox, locked, e) && e !in rows ==>
          |rows| == limit && forall i :: 0 <= i < |rows| ==> outbox[rows[i]].occurredAt <= outbox[e].occurredAt)
  }

  predicate Eligible(outbox: seq<OutboxRow>, locked: set<EventId>, e: EventId) {
    e < |outbox| && outbox[e].processedAt.None? && e !in locked
  }

  class EventBusWorker {
    var handlers: Registry

    constructor ()
      ensures handlers == map[]
    {
      handlers := map[];
    }

    method Register(eventType: string, consumer: string)
      modifies this
      ensures handlers == Registered(old(handlers), eventType, consumer)
    {
      var before := if eventType in handlers then handlers[eventType] else [];
      handlers := handlers[eventType := before + [consumer]];
    }

    method DispatchOutboxRow(session: Session, e: EventId, outcomes: Outcomes, now: Time)
      requires e < |session.db.outbox|
      modifies session
      ensures var r := DispatchRow(handlers, Tables(old(session.db).outbox, old(session.db).inbox), e, outcomes, now);
              session.db == old(session.db).(outbox := r.outbox, inbox := r.inbox)
    {
      var consumers := Consumers(handlers, session.db.outbox[e].event);
      ghost var start := session.db;
      var k := 0;
      while k < |consumers|
        invariant 0 <= k <= |consumers|
        invariant session.db == start.(inbox := session.db.inbox)
        invariant Dispatch(Tables(start.outbox, start.inbox), consumers, 0, e, outcomes, now)
               == Dispatch(Tables(session.db.outbox, session.db.inbox), consumers, k, e, outcomes, now)
      {
        if (consumers[k], e) !in session.db.inbox {
          var outcome := outcomes(consumers[k], e);
          if outcome.Some? {
            var row := session.db.outbox[e];
            var failed := row.(attempts := row.attempts + 1, lastError := Some(consumers[k] + ": " + outcome.value));
            session.db := session.db.(outbox := session.db.outbox[e := failed]);
            return;
          }
          session.db := session.db.(inbox := session.db.inbox + {(consumers[k], e)});
        }
        k := k + 1;
      }
      session.db := session.db.(outbox := session.db.outbox[e := session.db.outbox[e].(processedAt := Some(now))]);
    }

    /** One batch with nobody else at work: returns how many rows it took. */
    method DrainBatch(session: Session, limit: nat, rows: seq<EventId>, outcomes: Outcomes, now: Time)
        returns (count: nat)
      requires IsBatch(session.db.outbox, {}, limit, rows)
      modifies session
      ensures count == |rows|
      ensures var r := DrainRows(handlers, Tables(old(session.db).outbox, old(session.db).inbox), rows, outcomes, now);
              session.db == old(session.db).(outbox := r.outbox, inbox := r.inbox)
    {
      ghost var start := Tables(session.db.outbox, session.db.inbox);
      var i := 0;
      while i < |rows|
        invariant 0 <= i <= |rows|
        invariant Tables(session.db.outbox, session.db.inbox) == DrainRows(handlers, start, rows[..i], outcomes, now)
        invariant session.db == old(session.db).(outbox := session.db.outbox, inbox := session.db.inbox)
      {
        assert rows[..i + 1][..i] == rows[..i];
        DispatchOutboxRow(session, rows[i], outcomes, now);
        i := i + 1;
      }
      assert rows[..i] == rows;
      count := |rows|;
    }
  }

  /** The registrations made at start-up, in the order the modules are wired. */
  const WIRED: Registry :=
    map["MessageReceived" := ["conversation_ownership.coordinator"],
        "ResponseReady" := ["conversation_ownership.chatwoot_sender"],
        "ProfileCompleted" := ["lead_qualification.crm_push", "recommendation.on_profile_completed"]]

  method WireModules() returns (worker: EventBusWorker)
    ensures worker.handlers == WIRED
  {
    worker := new EventBusWorker();
    worker.Register("MessageReceived", "conversation_ownership.coordinator");
    worker.Register("ResponseReady", "conversation_ownership.chatwoot_sender");
    worker.Register("ProfileCompleted", "lead_qualification.crm_push");
    worker.Register("ProfileCompleted", "recommendation.on_profile_completed");
    assert worker.handlers["ProfileCompleted"]
        == ["lead_qualification.crm_push", "recommendation.on_profile_completed"];
    assert worker.handlers["MessageReceived"] == ["conversation_ownership.coordinator"];
    assert worker.handlers["ResponseReady"] == ["conversation_ownership.chatwoot_sender"];
    assert worker.handlers.Keys == WIRED.Keys;
  }

  /** Who is told of what: a message goes to the coordinator, a reply to the sender, a completed profile first to the
      stage push and then to the recommendation, and no other event to anybody. */
  lemma WhoIsToldOfWhat(e: Event)
    ensures Consumers(WIRED, e) ==
            match e
            case MessageReceived(_, _, _, _, _, _) => ["conversation_ownership.coordinator"]
            case ResponseReady(_, _, _, _) => ["conversation_ownership.chatwoot_sender"]
            case ProfileCompleted(_, _, _, _, _) =>
              ["lead_qualification.crm_push", "recommendation.on_profile_completed"]
            case _ => []
  {
  }

  // ---- What one dispatch does ------------------------------------------------------------------

  /** A row some consumer still missing from its inbox always refuses. */
  ghost predicate Poison(registry: Registry, t: Tables, outcomes: Outcomes, e: EventId)
    requires e < |t.outbox|
  {
    exists c :: c in Consumers(registry, t.outbox[e].event) && (c, e) !in t.inbox && outcomes(c, e).Some?
  }

  lemma {:induction false} DispatchEffect(
      t: Tables, consumers: seq<string>, k: nat, e: EventId, outcomes: Outcomes, now: Time)
    requires e < |t.outbox| && k <= |consumers|
    ensures var r := Dispatch(t, consumers, k, e, outcomes, now);
            var stuck :=
              exists j :: k <= j < |consumers| && (consumers[j], e) !in t.inbox && outcomes(consumers[j], e).Some?;
            && (forall i :: 0 <= i < |t.outbox| && i != e ==> r.outbox[i] == t.outbox[i])
            && r.outbox[e].event == t.outbox[e].event && r.outbox[e].occurredAt == t.outbox[e].occurredAt
            && (!stuck ==> r.outbox[e] == t.outbox[e].(processedAt := Some(now))
                           && forall j :: k <= j < |consumers| ==> (consumers[j], e) in r.inbox)
            && (stuck ==> && r.outbox[e].processedAt == t.outbox[e].processedAt
                          && r.outbox[e].attempts == t.outbox[e].attempts + 1)
            && t.inbox <= r.inbox
            && (forall p :: p in r.inbox && p !in t.inbox ==> p.1 == e && p.0 in consumers && outcomes(p.0, e).None?)
    decreases |consumers| - k
  {
    if k < |consumers| {
      if (consumers[k], e) in t.inbox {
        DispatchEffect(t, consumers, k + 1, e, outcomes, now);
      } else if outcomes(consumers[k], e).None? {
        DispatchEffect(t.(inbox := t.inbox + {(consumers[k], e)}), consumers, k + 1, e, outcomes, now);
      }
    }
  }

  /** The consumer a dispatch from the k-th on stops at. */
  predicate FirstToRefuse(t: Tables, consumers: seq<string>, k: nat, e: EventId, outcomes: Outcomes, j: nat) {
    && k <= j < |consumers|
    && (consumers[j], e) !in t.inbox && outcomes(consumers[j], e).Some?
    && forall i :: k <= i < j ==> (consumers[i], e) in t.inbox || outcomes(consumers[i], e).None?
  }

  /** A dispatch stops at the first missing consumer that refuses: those before it are recorded, it is not, and the row
      keeps its name and error. */
  lemma {:induction false} DispatchStopsAtTheFirst(
    t: Tables, consumers: seq<string>, k: nat, e: EventId, outcomes: Outcomes, now: Time, j: nat)
    requires e < |t.outbox| && FirstToRefuse(t, consumers, k, e, outcomes, j) && Distinct(consumers)
    ensures var r := Dispatch(t, consumers, k, e, outcomes, now);
            && r.outbox[e] == t.outbox[e].(attempts := t.outbox[e].attempts + 1,
                                           lastError := Some(consumers[j] + ": " + outcomes(consumers[j], e).value))
            && (forall i :: k <= i < j ==> (consumers[i], e) in r.inbox)
            && (consumers[j], e) !in r.inbox
    decreases |consumers| - k
  {
    if k < j {
      if (consumers[k], e) in t.inbox {
        DispatchStopsAtTheFirst(t, consumers, k + 1, e, outcomes, now, j);
        DispatchEffect(t, consumers, k + 1, e, outcomes, now);
      } else {
        var u := t.(inbox := t.inbox + {(consumers[k], e)});
        DispatchStopsAtTheFirst(u, consumers, k + 1, e, outcomes, now, j);
        DispatchEffect(u, consumers, k + 1, e, outcomes, now);
      }
    }
  }

  /** A dispatched row is processed, with every consumer recorded, exactly when it is not poison. */
  lemma DispatchRowEffect(registry: Registry, t: Tables, e: EventId, outcomes: Outcomes, now: Time)
    requires e < |t.outbox|
    ensures var r := DispatchRow(registry, t, e, outcomes, now);
            && (forall i :: 0 <= i < |t.outbox| && i != e ==> r.outbox[i] == t.outbox[i])
            && r.outbox[e].event == t.outbox[e].event && r.outbox[e].occurredAt == t.outbox[e].occurredAt
            && (!Poison(registry, t, outcomes, e) ==> r.outbox[e].processedAt.Some?)
            && (!Poison(registry, t, outcomes, e) ==> forall c :: c in Consumers(registry, t.outbox[e].event) ==>
                 (c, e) in r.inbox)
            && (Poison(registry, t, outcomes, e) ==> r.outbox[e].processedAt == t.outbox[e].processedAt
                                                     && r.outbox[e].attempts == t.outbox[e].attempts + 1)
            && (forall i :: 0 <= i < |t.outbox| ==>
                 (Poison(registry, r, outcomes, i) <==> Poison(registry, t, outcomes, i)))
  {
    var consumers := Consumers(registry, t.outbox[e].event);
    DispatchEffect(t, consumers, 0, e, outcomes, now);
    var r := DispatchRow(registry, t, e, outcomes, now);
    assert Poison(registry, t, outcomes, e) <==>
           exists j :: 0 <= j < |consumers| && (consumers[j], e) !in t.inbox && outcomes(consumers[j], e).Some?;
    forall i | 0 <= i < |t.outbox| ensures Poison(registry, r, outcomes, i) <==> Poison(registry, t, outcomes, i) {
      assert r.outbox[i].event == t.outbox[i].event;
      forall c | outcomes(c, i).Some? ensures (c, i) in r.inbox <==> (c, i) in t.inbox {
      }
    }
  }

  // ---- Progress past poison rows ---------------------------------------------------------------

  ghost function HealthyRows(registry: Registry, t: Tables, outcomes: Outcomes): set<EventId> {
    set e: EventId | e < |t.outbox| && t.outbox[e].processedAt.None? && !Poison(registry, t, outcomes, e)
  }

  ghost function PoisonRows(registry: Registry, t: Tables, outcomes: Outcomes): set<EventId> {
    set e: EventId | e < |t.outbox| && t.outbox[e].processedAt.None? && Poison(registry, t, outcomes, e)
  }

  /** A whole batch processes exactly its healthy rows and leaves every other row as it was. */
  lemma {:induction false} DrainEffect(registry: Registry, t: Tables, rows: seq<EventId>, outcomes: Outcomes, now: Time)
    requires forall i :: 0 <= i < |rows| ==> rows[i] < |t.outbox| && t.outbox[rows[i]].processedAt.None?
    requires Distinct(rows)
    ensures var r := DrainRows(registry, t, rows, outcomes, now);
            && (forall i :: 0 <= i < |t.outbox| ==>
                  && r.outbox[i].event == t.outbox[i].event && r.outbox[i].occurredAt == t.outbox[i].occurredAt
                  && (Poison(registry, r, outcomes, i) <==> Poison(registry, t, outcomes, i))
                  && (r.outbox[i].processedAt.None? <==>
                      t.outbox[i].processedAt.None? && (i !in rows || Poison(registry, t, outcomes, i))))
    decreases |rows|
  {
    if rows != [] {
      var n := |rows| - 1;
      DrainEffect(registry, t, rows[..n], outcomes, now);
      var before := DrainRows(registry, t, rows[..n], outcomes, now);
      DispatchRowEffect(registry, before, rows[n], outcomes, now);
      assert rows == rows[..n] + [rows[n]];
      assert rows[n] !in rows[..n];
    }
  }

  function ToSet(s: seq<EventId>): set<EventId> { set e | e in s }

  lemma {:induction false} DistinctSize(s: seq<EventId>)
    requires Distinct(s)
    ensures |ToSet(s)| == |s|
  {
    if s != [] {
      var n := |s| - 1;
      DistinctSize(s[..n]);
      assert s[n] !in ToSet(s[..n]);
      assert ToSet(s) == ToSet(s[..n]) + {s[n]};
    }
  }

  /** After a drain the poison rows are the same and the healthy rows are those not taken. */
  lemma DrainedRows(registry: Registry, t: Tables, limit: nat, rows: seq<EventId>, outcomes: Outcomes, now: Time)
    requires IsBatch(t.outbox, {}, limit, rows)
    ensures var r := DrainRows(registry, t, rows, outcomes, now);
            && PoisonRows(registry, r, outcomes) == PoisonRows(registry, t, outcomes)
            && HealthyRows(registry, r, outcomes) == HealthyRows(registry, t, outcomes) - ToSet(rows)
  {
    DrainEffect(registry, t, rows, outcomes, now);
  }

  /** Counting: a batch cut short only by the limit has room for all but the poison rows. */
  lemma RoomForHealthy(taken: set<EventId>, healthy: set<EventId>, poison: set<EventId>, limit: nat)
    requires taken <= healthy + poison
    requires |taken| <= limit
    requires |taken| < limit ==> healthy + poison <= taken
    ensures |healthy| - |healthy - taken| >= Min(limit - |poison|, |healthy|)
  {
    assert healthy == (healthy - taken) + taken * healthy;
    assert |healthy| == |healthy - taken| + |taken * healthy|;
    if |taken| < limit {
      assert healthy - taken == {};
    } else {
      assert taken == taken * healthy + taken * poison;
      assert |taken| <= |taken * healthy| + |taken * poison|;
      SubsetSize(taken * poison, poison);
    }
  }

  /** With P poison rows and a batch limit B, one drain processes at least min(B - P, H) of the H
      healthy rows, only healthy rows, and no poison row. */
  lemma DrainProgress(registry: Registry, t: Tables, limit: nat, rows: seq<EventId>, outcomes: Outcomes, now: Time)
    requires IsBatch(t.outbox, {}, limit, rows)
    ensures var r := DrainRows(registry, t, rows, outcomes, now);
            var healthy := HealthyRows(registry, t, outcomes);
            var poison := PoisonRows(registry, t, outcomes);
            && PoisonRows(registry, r, outcomes) == poison
            && HealthyRows(registry, r, outcomes) <= healthy
            && |healthy| - |HealthyRows(registry, r, outcomes)| >= Min(limit - |poison|, |healthy|)
  {
    DrainedRows(registry, t, limit, rows, outcomes, now);
    var healthy := HealthyRows(registry, t, outcomes);
    var poison := PoisonRows(registry, t, outcomes);
    DistinctSize(rows);
    forall e | e in rows ensures e in healthy + poison {
      assert Eligible(t.outbox, {}, e);
    }
    forall e | e in healthy + poison ensures Eligible(t.outbox, {}, e) {
    }
    RoomForHealthy(ToSet(rows), healthy, poison, limit);
  }

  lemma {:induction false} SubsetSize(a: set<EventId>, b: set<EventId>)
    requires a <= b
    ensures |a| <= |b|
  {
    assert b == a + (b - a);
  }

  /** A run of undisturbed drains: each batch a legal select on what the previous one left. */
  ghost predicate IsDrainRun(
      registry: Registry, t: Tables, limit: nat, batches: seq<seq<EventId>>, outcomes: Outcomes, now: Time)
    decreases |batches|
  {
    batches == []
    || (&& IsBatch(t.outbox, {}, limit, batches[0])
        && IsDrainRun(registry, DrainRows(registry, t, batches[0], outcomes, now), limit, batches[1..], outcomes, now))
  }

  ghost function AfterRun(
      registry: Registry, t: Tables, limit: nat, batches: seq<seq<EventId>>, outcomes: Outcomes, now: Time)
    : (r: Tables)
    requires IsDrainRun(registry, t, limit, batches, outcomes, now)
    ensures |r.outbox| == |t.outbox|
    decreases |batches|
  {
    if batches == [] then t
    else AfterRun(registry, DrainRows(registry, t, batches[0], outcomes, now), limit, batches[1..], outcomes, now)
  }

  lemma OneDrainLess(drains: nat, gain: nat, before: nat, after: nat)
    requires drains > 0 && gain > 0
    requires drains * gain >= before
    requires before - after >= Min(gain, before)
    ensures (drains - 1) * gain >= after
  {
  }

  /** With fewer poison rows than the limit, ceil(H / (B - P)) drains process every healthy row, whatever
      batches are selected; poison rows stay unprocessed for ever. */
  lemma {:induction false} HealthyRowsAllDelivered(
    registry: Registry, t: Tables, limit: nat, batches: seq<seq<EventId>>, outcomes: Outcomes, now: Time)
    requires IsDrainRun(registry, t, limit, batches, outcomes, now)
    requires |PoisonRows(registry, t, outcomes)| < limit
    requires |batches| * (limit - |PoisonRows(registry, t, outcomes)|) >= |HealthyRows(registry, t, outcomes)|
    ensures HealthyRows(registry, AfterRun(registry, t, limit, batches, outcomes, now), outcomes) == {}
    ensures forall e :: e in HealthyRows(registry, t, outcomes) ==>
              AfterRun(registry, t, limit, batches, outcomes, now).outbox[e].processedAt.Some?
    ensures PoisonRows(registry, AfterRun(registry, t, limit, batches, outcomes, now), outcomes)
            == PoisonRows(registry, t, outcomes)
    decreases |batches|
  {
    if batches != [] {
      DrainProgress(registry, t, limit, batches[0], outcomes, now);
      var r := DrainRows(registry, t, batches[0], outcomes, now);
      OneDrainLess(|batches|, limit - |PoisonRows(registry, t, outcomes)|,
                   |HealthyRows(registry, t, outcomes)|, |HealthyRows(registry, r, outcomes)|);
      HealthyRowsAllDelivered(registry, r, limit, batches[1..], outcomes, now);
    }
    var last := AfterRun(registry, t, limit, batches, outcomes, now);
    forall e | e in HealthyRows(registry, t, outcomes) ensures last.outbox[e].processedAt.Some? {
      assert e !in PoisonRows(registry, last, outcomes) && e !in HealthyRows(registry, last, outcomes);
    }
  }

  // ---- One row, past the poison rows that compete with it --------------------------------------

  /** The healthy rows stamped at or before `h`, and the poison rows stamped so: what a select may prefer to `h`. */
  ghost function HealthyUpto(registry: Registry, t: Tables, outcomes: Outcomes, h: EventId): set<EventId>
    requires h < |t.outbox|
  {
    set e | e in HealthyRows(registry, t, outcomes) && t.outbox[e].occurredAt <= t.outbox[h].occurredAt
  }

  ghost function PoisonUpto(registry: Registry, t: Tables, outcomes: Outcomes, h: EventId): set<EventId>
    requires h < |t.outbox|
  {
    set e | e in PoisonRows(registry, t, outcomes) && t.outbox[e].occurredAt <= t.outbox[h].occurredAt
  }

  /** A batch that passes over a row it could have taken is full of rows stamped no later. */
  lemma PassedOver(
      registry: Registry, t: Tables, locked: set<EventId>, limit: nat, rows: seq<EventId>, outcomes: Outcomes,
      h: EventId)
    requires IsBatch(t.outbox, locked, limit, rows) && Eligible(t.outbox, locked, h) && h !in rows
    ensures |rows| == limit
    ensures ToSet(rows) <= HealthyUpto(registry, t, outcomes, h) + PoisonUpto(registry, t, outcomes, h)
  {
    forall e | e in ToSet(rows)
      ensures e in HealthyUpto(registry, t, outcomes, h) + PoisonUpto(registry, t, outcomes, h)
    {
      var i :| 0 <= i < |rows| && rows[i] == e;
      assert Eligible(t.outbox, locked, rows[i]);
    }
  }

  /** So it takes at least B - P of the healthy ones. */
  lemma PassedOverTakes(rows: seq<EventId>, healthy: set<EventId>, poison: set<EventId>)
    requires Distinct(rows) && ToSet(rows) <= healthy + poison
    ensures |ToSet(rows) * healthy| >= |rows| - |poison|
  {
    DistinctSize(rows);
    var taken := ToSet(rows);
    assert taken == taken * healthy + taken * poison;
    SubsetSize(taken * poison, poison);
  }

  /** After a drain the poison rows stamped so are the same, and the healthy ones are those not taken. */
  lemma UptoAfterDrain(
      registry: Registry, t: Tables, limit: nat, rows: seq<EventId>, outcomes: Outcomes, now: Time, h: EventId)
    requires IsBatch(t.outbox, {}, limit, rows) && h < |t.outbox|
    ensures var r := DrainRows(registry, t, rows, outcomes, now);
            && PoisonUpto(registry, r, outcomes, h) == PoisonUpto(registry, t, outcomes, h)
            && HealthyUpto(registry, r, outcomes, h) == HealthyUpto(registry, t, outcomes, h) - ToSet(rows)
            && (h in HealthyRows(registry, r, outcomes) <==> h in HealthyRows(registry, t, outcomes) && h !in rows)
  {
    DrainedRows(registry, t, limit, rows, outcomes, now);
    SameStamps(registry, t, limit, rows, outcomes, now);
  }

  lemma SameStamps(registry: Registry, t: Tables, limit: nat, rows: seq<EventId>, outcomes: Outcomes, now: Time)
    requires IsBatch(t.outbox, {}, limit, rows)
    ensures var r := DrainRows(registry, t, rows, outcomes, now);
            forall e :: 0 <= e < |t.outbox| ==> r.outbox[e].occurredAt == t.outbox[e].occurredAt
  {
    DrainEffect(registry, t, rows, outcomes, now);
  }

  /** A drain that does not take `h` leaves it healthy, the poison before it as it was, and at least B - P fewer healthy
      rows before it. */
  lemma DrainTowards(
      registry: Registry, t: Tables, limit: nat, rows: seq<EventId>, outcomes: Outcomes, now: Time, h: EventId)
    requires IsBatch(t.outbox, {}, limit, rows)
    requires h in HealthyRows(registry, t, outcomes) && h !in rows
    ensures var r := DrainRows(registry, t, rows, outcomes, now);
            && h in HealthyRows(registry, r, outcomes)
            && PoisonUpto(registry, r, outcomes, h) == PoisonUpto(registry, t, outcomes, h)
            && |HealthyUpto(registry, t, outcomes, h)| - |HealthyUpto(registry, r, outcomes, h)|
               >= limit - |PoisonUpto(registry, t, outcomes, h)|
  {
    UptoAfterDrain(registry, t, limit, rows, outcomes, now, h);
    PassedOver(registry, t, {}, limit, rows, outcomes, h);
    var healthy := HealthyUpto(registry, t, outcomes, h);
    PassedOverTakes(rows, healthy, PoisonUpto(registry, t, outcomes, h));
    SplitSize(healthy, ToSet(rows));
  }

  lemma SplitSize(a: set<EventId>, b: set<EventId>)
    ensures |a| == |a - b| + |b * a|
  {
    assert a == (a - b) + b * a;
  }

  lemma {:induction false} ProcessedForGood(
    registry: Registry, t: Tables, limit: nat, batches: seq<seq<EventId>>, outcomes: Outcomes, now: Time, h: EventId)
    requires IsDrainRun(registry, t, limit, batches, outcomes, now)
    requires h < |t.outbox| && t.outbox[h].processedAt.Some?
    ensures AfterRun(registry, t, limit, batches, outcomes, now).outbox[h].processedAt.Some?
    decreases |batches|
  {
    if batches != [] {
      DrainEffect(registry, t, batches[0], outcomes, now);
      var r := DrainRows(registry, t, batches[0], outcomes, now);
      ProcessedForGood(registry, r, limit, batches[1..], outcomes, now, h);
    }
  }

  /** With P_h poison rows and H_h healthy rows stamped at or before a healthy row, and P_h below the limit B, every run
      of ceil(H_h / (B - P_h)) drains processes it - however many poison rows there are after it. */
  lemma {:induction false} RowDeliveredInTime(
    registry: Registry, t: Tables, limit: nat, batches: seq<seq<EventId>>, outcomes: Outcomes, now: Time, h: EventId)
    requires IsDrainRun(registry, t, limit, batches, outcomes, now)
    requires h in HealthyRows(registry, t, outcomes)
    requires |PoisonUpto(registry, t, outcomes, h)| < limit
    requires |batches| * (limit - |PoisonUpto(registry, t, outcomes, h)|) >= |HealthyUpto(registry, t, outcomes, h)|
    ensures AfterRun(registry, t, limit, batches, outcomes, now).outbox[h].processedAt.Some?
    decreases |batches|
  {
    assert h in HealthyUpto(registry, t, outcomes, h);
    if batches != [] {
      var r := DrainRows(registry, t, batches[0], outcomes, now);
      if h in batches[0] {
        TakenIsProcessed(registry, t, limit, batches[0], outcomes, now, h);
        ProcessedForGood(registry, r, limit, batches[1..], outcomes, now, h);
      } else {
        StillInTime(registry, t, limit, batches[0], |batches|, outcomes, now, h);
        RowDeliveredInTime(registry, r, limit, batches[1..], outcomes, now, h);
      }
    }
  }

  lemma TakenIsProcessed(
      registry: Registry, t: Tables, limit: nat, rows: seq<EventId>, outcomes: Outcomes, now: Time, h: EventId)
    requires IsBatch(t.outbox, {}, limit, rows)
    requires h in HealthyRows(registry, t, outcomes) && h in rows
    ensures DrainRows(registry, t, rows, outcomes, now).outbox[h].processedAt.Some?
  {
    DrainEffect(registry, t, rows, outcomes, now);
  }

  lemma StillInTime(
    registry: Registry, t: Tables, limit: nat, rows: seq<EventId>, drains: nat, outcomes: Outcomes, now: Time,
    h: EventId)
    requires IsBatch(t.outbox, {}, limit, rows)
    requires h in HealthyRows(registry, t, outcomes) && h !in rows
    requires |PoisonUpto(registry, t, outcomes, h)| < limit && drains > 0
    requires drains * (limit - |PoisonUpto(registry, t, outcomes, h)|) >= |HealthyUpto(registry, t, outcomes, h)|
    ensures var r := DrainRows(registry, t, rows, outcomes, now);
            && h in HealthyRows(registry, r, outcomes)
            && |PoisonUpto(registry, r, outcomes, h)| < limit
            && (drains - 1) * (limit - |PoisonUpto(registry, r, outcomes, h)|)
               >= |HealthyUpto(registry, r, outcomes, h)|
  {
    DrainTowards(registry, t, limit, rows, outcomes, now, h);
    var r := DrainRows(registry, t, rows, outcomes, now);
    OneDrainLess(drains, limit - |PoisonUpto(registry, t, outcomes, h)|,
                 |HealthyUpto(registry, t, outcomes, h)|, |HealthyUpto(registry, r, outcomes, h)|);
  }

  /** Row e may be selected before row f when `h` is put off as long as possible. */
  predicate NoLater(outbox: seq<OutboxRow>, h: EventId, e: EventId, f: EventId)
    requires e < |outbox| && f < |outbox|
  {
    outbox[e].occurredAt < outbox[f].occurredAt || (outbox[e].occurredAt == outbox[f].occurredAt && (e == h ==> f == h))
  }

  lemma {:induction false} SomeEarliest(outbox: seq<OutboxRow>, h: EventId, rows: set<EventId>) returns (e: EventId)
    requires rows != {} && forall f :: f in rows ==> f < |outbox|
    ensures e in rows && forall f :: f in rows ==> NoLater(outbox, h, e, f)
    decreases |rows|
  {
    var a :| a in rows;
    var rest := rows - {a};
    if rest == {} {
      e := a;
    } else {
      var g := SomeEarliest(outbox, h, rest);
      e := if NoLater(outbox, h, a, g) then a else g;
    }
    forall f | f in rows ensures NoLater(outbox, h, e, f) {
      assert f == a || f in rest;
    }
  }

  /** The first n rows to select when `h` is put off. */
  lemma {:induction false} FirstRows(outbox: seq<OutboxRow>, h: EventId, eligible: set<EventId>, n: nat)
      returns (rows: seq<EventId>)
    requires n <= |eligible| && forall e :: e in eligible ==> e < |outbox|
    ensures |rows| == n && Distinct(rows) && ToSet(rows) <= eligible
    ensures forall i :: 0 <= i < |rows| ==> rows[i] in eligible
    ensures forall i, j :: 0 <= i < j < |rows| ==> NoLater(outbox, h, rows[i], rows[j])
    ensures forall i, f :: 0 <= i < |rows| && f in eligible && f !in rows ==> NoLater(outbox, h, rows[i], f)
  {
    rows := [];
    while |rows| < n
      invariant |rows| <= n && Distinct(rows)
      invariant forall i :: 0 <= i < |rows| ==> rows[i] in eligible
      invariant forall i, j :: 0 <= i < j < |rows| ==> NoLater(outbox, h, rows[i], rows[j])
      invariant forall i, f :: 0 <= i < |rows| && f in eligible && f !in rows ==> NoLater(outbox, h, rows[i], f)
    {
      DistinctSize(rows);
      var left := eligible - ToSet(rows);
      SomethingLeft(eligible, ToSet(rows));
      var e := SomeEarliest(outbox, h, left);
      rows := rows + [e];
    }
  }

  lemma SomethingLeft(all: set<EventId>, taken: set<EventId>)
    requires |taken| < |all|
    ensures all - taken != {}
  {
    SplitSize(all, taken);
    SubsetSize(taken * all, taken);
  }

  /** A select that puts `h` off takes every rival of `h` before it. */
  lemma RivalsFirst(
      outbox: seq<OutboxRow>, h: EventId, eligible: set<EventId>, rows: seq<EventId>, rivals: set<EventId>)
    requires forall e :: e in eligible ==> e < |outbox|
    requires Distinct(rows) && h in rows && forall i :: 0 <= i < |rows| ==> rows[i] in eligible
    requires forall i, f :: 0 <= i < |rows| && f in eligible && f !in rows ==> NoLater(outbox, h, rows[i], f)
    requires forall f :: f in rivals ==>
             f in eligible && f != h && h in eligible && outbox[f].occurredAt <= outbox[h].occurredAt
    ensures |rivals| < |rows|
  {
    var i :| 0 <= i < |rows| && rows[i] == h;
    forall f | f in rivals ensures f in ToSet(rows) {
    }
    assert h !in rivals && rivals + {h} <= ToSet(rows);
    SubsetSize(rivals + {h}, ToSet(rows));
    DistinctSize(rows);
    assert |rivals + {h}| == |rivals| + 1;
  }

  /** With at least B poison rows stamped at or before it, some legal select passes a healthy row over. */
  lemma PassingBatch(registry: Registry, t: Tables, limit: nat, outcomes: Outcomes, h: EventId)
      returns (rows: seq<EventId>)
    requires h in HealthyRows(registry, t, outcomes)
    requires |PoisonUpto(registry, t, outcomes, h)| >= limit
    ensures IsBatch(t.outbox, {}, limit, rows) && h !in rows
  {
    var eligible := HealthyRows(registry, t, outcomes) + PoisonRows(registry, t, outcomes);
    var poison := PoisonUpto(registry, t, outcomes, h);
    SubsetSize(poison, eligible);
    rows := FirstRows(t.outbox, h, eligible, limit);
    if h in rows {
      RivalsFirst(t.outbox, h, eligible, rows, poison);
    }
    FirstRowsAreABatch(registry, t, limit, outcomes, h, rows);
  }

  lemma FirstRowsAreABatch(
      registry: Registry, t: Tables, limit: nat, outcomes: Outcomes, h: EventId, rows: seq<EventId>)
    requires var eligible := HealthyRows(registry, t, outcomes) + PoisonRows(registry, t, outcomes);
             && |rows| == limit && Distinct(rows)
             && (forall i :: 0 <= i < |rows| ==> rows[i] in eligible)
             && (forall i, j :: 0 <= i < j < |rows| ==> NoLater(t.outbox, h, rows[i], rows[j]))
             && (forall i, f :: 0 <= i < |rows| && f in eligible && f !in rows ==> NoLater(t.outbox, h, rows[i], f))
    ensures IsBatch(t.outbox, {}, limit, rows)
  {
    var eligible := HealthyRows(registry, t, outcomes) + PoisonRows(registry, t, outcomes);
    forall e ensures Eligible(t.outbox, {}, e) <==> e in eligible {
    }
  }

  lemma {:induction false} StarvingRun(
      registry: Registry, t: Tables, limit: nat, n: nat, outcomes: Outcomes, now: Time, h: EventId)
    returns (batches: seq<seq<EventId>>)
    requires h in HealthyRows(registry, t, outcomes)
    requires |PoisonUpto(registry, t, outcomes, h)| >= limit
    ensures |batches| == n && IsDrainRun(registry, t, limit, batches, outcomes, now)
    ensures AfterRun(registry, t, limit, batches, outcomes, now).outbox[h].processedAt.None?
    decreases n
  {
    if n == 0 {
      batches := [];
    } else {
      var rows := PassingBatch(registry, t, limit, outcomes, h);
      DrainTowards(registry, t, limit, rows, outcomes, now, h);
      var rest := StarvingRun(registry, DrainRows(registry, t, rows, outcomes, now), limit, n - 1, outcomes, now, h);
      batches := [rows] + rest;
      assert batches[1..] == rest;
    }
  }

  /** Every undisturbed run of at least n drains processes row `h`. */
  ghost predicate DeliveredWithin(
      registry: Registry, t: Tables, limit: nat, n: nat, outcomes: Outcomes, now: Time, h: EventId)
    requires h < |t.outbox|
  {
    forall batches: seq<seq<EventId>> :: IsDrainRun(registry, t, limit, batches, outcomes, now) && |batches| >= n ==>
      AfterRun(registry, t, limit, batches, outcomes, now).outbox[h].processedAt.Some?
  }

  /** n drains of B - P healthy rows each are at least H. */
  predicate InTime(n: nat, limit: nat, poison: nat, healthy: nat) { poison < limit && n * (limit - poison) >= healthy }

  /** A healthy row is delivered in every sufficiently long run exactly when fewer poison rows than the limit are
      stamped at or before it; ceil(H_h / (B - P_h)) drains are then long enough. */
  lemma DeliveredExactlyWhen(registry: Registry, t: Tables, limit: nat, outcomes: Outcomes, now: Time, h: EventId)
    requires h in HealthyRows(registry, t, outcomes)
    ensures (exists n: nat :: DeliveredWithin(registry, t, limit, n, outcomes, now, h))
            <==> |PoisonUpto(registry, t, outcomes, h)| < limit
    ensures forall n: nat ::
              InTime(n, limit, |PoisonUpto(registry, t, outcomes, h)|, |HealthyUpto(registry, t, outcomes, h)|) ==>
                DeliveredWithin(registry, t, limit, n, outcomes, now, h)
  {
    var gain := limit - |PoisonUpto(registry, t, outcomes, h)|;
    var healthy := |HealthyUpto(registry, t, outcomes, h)|;
    if gain > 0 {
      forall n: nat | InTime(n, limit, |PoisonUpto(registry, t, outcomes, h)|, healthy)
        ensures DeliveredWithin(registry, t, limit, n, outcomes, now, h)
      {
        forall batches: seq<seq<EventId>> | IsDrainRun(registry, t, limit, batches, outcomes, now) && |batches| >= n
          ensures AfterRun(registry, t, limit, batches, outcomes, now).outbox[h].processedAt.Some?
        {
          MoreDrains(n, |batches|, gain);
          RowDeliveredInTime(registry, t, limit, batches, outcomes, now, h);
        }
      }
      MoreDrains(1, gain, healthy);
      assert InTime(healthy, limit, |PoisonUpto(registry, t, outcomes, h)|, healthy);
      assert DeliveredWithin(registry, t, limit, healthy, outcomes, now, h);
    } else {
      forall n: nat ensures !DeliveredWithin(registry, t, limit, n, outcomes, now, h) {
        var batches := StarvingRun(registry, t, limit, n, outcomes, now, h);
      }
    }
  }

  lemma MoreDrains(n: nat, m: nat, gain: nat)
    requires n <= m
    ensures n * gain <= m * gain
  {
  }

  /** With at least a full batch of poison rows strictly older than every healthy row, no drain ever
      reaches a healthy row: the limit in the theorem above cannot be dropped. */
  lemma {:induction false} OldPoisonStarvesTheRest(
    registry: Registry, t: Tables, limit: nat, batches: seq<seq<EventId>>, outcomes: Outcomes, now: Time)
    requires IsDrainRun(registry, t, limit, batches, outcomes, now)
    requires |PoisonRows(registry, t, outcomes)| >= limit
    requires forall p, h :: p in PoisonRows(registry, t, outcomes) && h in HealthyRows(registry, t, outcomes) ==>
                              t.outbox[p].occurredAt < t.outbox[h].occurredAt
    ensures HealthyRows(registry, AfterRun(registry, t, limit, batches, outcomes, now), outcomes)
            == HealthyRows(registry, t, outcomes)
    decreases |batches|
  {
    if batches != [] {
      var rows := batches[0];
      var healthy := HealthyRows(registry, t, outcomes);
      var poison := PoisonRows(registry, t, outcomes);
      DrainEffect(registry, t, rows, outcomes, now);
      var r := DrainRows(registry, t, rows, outcomes, now);
      forall i | 0 <= i < |rows| ensures rows[i] in poison {
        if rows[i] in healthy {
          assert poison <= ToSet(rows) - {rows[i]} by {
            forall p | p in poison ensures p in ToSet(rows) - {rows[i]} {
              assert Eligible(t.outbox, {}, p);
            }
          }
          DistinctSize(rows);
          SubsetSize(poison, ToSet(rows) - {rows[i]});
        } else {
          assert Eligible(t.outbox, {}, rows[i]);
        }
      }
      assert HealthyRows(registry, r, outcomes) == healthy;
      assert PoisonRows(registry, r, outcomes) == poison;
      OldPoisonStarvesTheRest(registry, r, limit, batches[1..], outcomes, now);
    }
  }
}
