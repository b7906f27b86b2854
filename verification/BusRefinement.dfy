/** The worker's own drain loop is a path of the transition system, ending in the tables it computes, so that what is
    proved of every path holds of the code; and a path that shows that the bound on repeated handler runs is reached,
    by a crash between two commits. */
module BusRefinement {
  import opened Prelude
  import opened LeadDomain
  import opened Store
  import opened EventBus
  import opened BusRuns

  ghost predicate IsPath(registry: Registry, s: Bus, steps: seq<BusStep>, t: Bus)
    decreases |steps|
  {
    if steps == [] then s == t
    else Enabled(registry, s, steps[0]) && IsPath(registry, Apply(registry, s, steps[0]), steps[1..], t)
  }

  lemma {:induction false} PathConcat(
      registry: Registry, s: Bus, first: seq<BusStep>, m: Bus, second: seq<BusStep>, t: Bus)
    requires IsPath(registry, s, first, m) && IsPath(registry, m, second, t)
    ensures IsPath(registry, s, first + second, t)
    decreases |first|
  {
    if first == [] {
      assert first + second == second;
    } else {
      assert (first + second)[1..] == first[1..] + second;
      PathConcat(registry, Apply(registry, s, first[0]), first[1..], m, second, t);
    }
  }

  lemma OneStep(registry: Registry, s: Bus, step: BusStep)
    requires Enabled(registry, s, step)
    ensures IsPath(registry, s, [step], Apply(registry, s, step))
  {
    assert [step][1..] == [];
  }

  /** The invariant holds all along any path. */
  lemma {:induction false} PathKeepsInv(registry: Registry, s: Bus, steps: seq<BusStep>, t: Bus)
    requires BusInv(registry, s) && DistinctNames(registry)
    requires IsPath(registry, s, steps, t)
    ensures BusInv(registry, t)
    decreases |steps|
  {
    if steps != [] {
      StepKeepsInv(registry, s, steps[0]);
      PathKeepsInv(registry, Apply(registry, s, steps[0]), steps[1..], t);
    }
  }

  /** What the open transaction of a batch would leave behind: its marks and its records. */
  function View(s: Bus, b: Batch): Tables {
    Tables(Marked(s.outbox, b), s.inbox + b.staged)
  }

  /** Only the batch of one worker, and the run counts, differ. */
  predicate MovedOnly(s: Bus, w: nat, b: Batch, t: Bus) {
    t.outbox == s.outbox && t.inbox == s.inbox && t.batches == s.batches[w := b]
  }

  predicate Untouched(b: Batch, e: EventId) { e !in b.done && e !in b.failed }

  /** From its k-th consumer on, dispatching a row is a path, and the transaction's view changes as `Dispatch` says. */
  lemma {:induction false} DispatchIsPath(registry: Registry, s: Bus, w: nat, outcomes: Outcomes, now: Time)
    returns (steps: seq<BusStep>, b': Batch, t: Bus)
    requires w in s.batches && s.batches[w].cur < |s.batches[w].rows|
    requires var b := s.batches[w];
             var e := b.rows[b.cur];
             e < |s.outbox| && Untouched(b, e) && b.next <= |ConsumersOf(registry, s.outbox, e)|
    ensures var b := s.batches[w];
            var e := b.rows[b.cur];
            && b'.rows == b.rows && b'.cur == b.cur + 1 && b'.next == 0
            && (forall i: EventId :: i != e && Untouched(b, i) ==> Untouched(b', i))
            && View(s, b') == Dispatch(View(s, b), ConsumersOf(registry, s.outbox, e), b.next, e, outcomes, now)
    ensures IsPath(registry, s, steps, t) && MovedOnly(s, w, b', t)
    decreases |ConsumersOf(registry, s.outbox, s.batches[w].rows[s.batches[w].cur])| - s.batches[w].next
  {
    var b := s.batches[w];
    var e := b.rows[b.cur];
    var consumers := ConsumersOf(registry, s.outbox, e);
    if b.next == |consumers| {
      var step := RowDone(w, now);
      steps, b', t := [step], b.(cur := b.cur + 1, next := 0, done := b.done[e := now]), Apply(registry, s, step);
      OneStep(registry, s, step);
      assert t == s.(batches := s.batches[w := b']);
      assert Marked(s.outbox, b') == Marked(s.outbox, b)[e := Processed(Marked(s.outbox, b)[e], now)];
    } else {
      var d := (consumers[b.next], e);
      assert d == NextDelivery(registry, s, w);
      if !Known(s, w, d) && outcomes(d.0, e).Some? {
        var error := outcomes(d.0, e).value;
        var step := RunFail(w, error, [], now);
        steps, t := [step], Apply(registry, s, step);
        b' := b.(cur := b.cur + 1, next := 0, failed := b.failed[e := d.0 + ": " + error]);
        OneStep(registry, s, step);
        assert s.outbox + FreshRows([], now) == s.outbox;
        assert t == s.(batches := s.batches[w := b']);
        assert Marked(s.outbox, b') == Marked(s.outbox, b)[e := Failed(Marked(s.outbox, b)[e], d.0 + ": " + error)];
      } else {
        steps, b', t := OneConsumerOn(registry, s, w, outcomes, now);
      }
    }
  }

  lemma {:induction false} OneConsumerOn(registry: Registry, s: Bus, w: nat, outcomes: Outcomes, now: Time)
    returns (steps: seq<BusStep>, b': Batch, t: Bus)
    requires AtConsumer(registry, s, w)
    requires var b := s.batches[w];
             var e := b.rows[b.cur];
             && e < |s.outbox| && Untouched(b, e)
             && (Known(s, w, NextDelivery(registry, s, w)) || outcomes(NextDelivery(registry, s, w).0, e).None?)
    ensures var b := s.batches[w];
            var e := b.rows[b.cur];
            && b'.rows == b.rows && b'.cur == b.cur + 1 && b'.next == 0
            && (forall i: EventId :: i != e && Untouched(b, i) ==> Untouched(b', i))
            && View(s, b') == Dispatch(View(s, b), ConsumersOf(registry, s.outbox, e), b.next, e, outcomes, now)
    ensures IsPath(registry, s, steps, t) && MovedOnly(s, w, b', t)
    decreases |ConsumersOf(registry, s.outbox, s.batches[w].rows[s.batches[w].cur])| - s.batches[w].next, 0
  {
    var b := s.batches[w];
    var d := NextDelivery(registry, s, w);
    var bm := b.(next := b.next + 1, staged := if Known(s, w, d) then b.staged else b.staged + {d});
    var step, m := MoveOverConsumer(registry, s, w, now, bm);
    DispatchOverConsumer(s, m, b, bm, ConsumersOf(registry, s.outbox, d.1), d, outcomes, now);
    assert m.batches[w] == bm;
    var rest;
    rest, b', t := DispatchIsPath(registry, m, w, outcomes, now);
    steps := [step] + rest;
    PathConcat(registry, s, [step], m, rest, t);
    MovedTwice(s, w, m, b', t);
  }

  lemma MovedTwice(s: Bus, w: nat, m: Bus, b': Batch, t: Bus)
    requires w in m.batches && MovedOnly(s, w, m.batches[w], m) && MovedOnly(m, w, b', t)
    ensures MovedOnly(s, w, b', t)
    ensures View(m, b') == View(s, b')
  {
  }

  /** A consumer already known is skipped, one that succeeds is recorded: what `Dispatch` does before going on. */
  lemma DispatchOverConsumer(
      s: Bus, m: Bus, b: Batch, bm: Batch, consumers: seq<string>, d: Delivery, outcomes: Outcomes, now: Time)
    requires m.outbox == s.outbox && m.inbox == s.inbox
    requires b.next < |consumers| && d.0 == consumers[b.next] && d.1 < |s.outbox|
    requires d in s.inbox || d in b.staged || outcomes(d.0, d.1).None?
    requires bm == b.(next := b.next + 1, staged := if d in s.inbox || d in b.staged then b.staged else b.staged + {d})
    ensures Dispatch(View(s, b), consumers, b.next, d.1, outcomes, now)
            == Dispatch(View(m, bm), consumers, bm.next, d.1, outcomes, now)
  {
    var known := d in s.inbox || d in b.staged;
    ViewOverConsumer(s, m, b, bm, d, known);
    DispatchOneOn(View(s, b), View(m, bm), consumers, b.next, d, outcomes, now);
  }

  lemma MoveOverConsumer(registry: Registry, s: Bus, w: nat, now: Time, bm: Batch) returns (step: BusStep, m: Bus)
    requires AtConsumer(registry, s, w)
    requires var b := s.batches[w];
             var d := NextDelivery(registry, s, w);
             bm == b.(next := b.next + 1, staged := if Known(s, w, d) then b.staged else b.staged + {d})
    ensures IsPath(registry, s, [step], m) && MovedOnly(s, w, bm, m)
  {
    step := if Known(s, w, NextDelivery(registry, s, w)) then Skip(w) else RunOk(w, [], now);
    StepOverConsumer(registry, s, w, now, bm);
    m := Apply(registry, s, step);
    OneStep(registry, s, step);
  }

  lemma StepOverConsumer(registry: Registry, s: Bus, w: nat, now: Time, bm: Batch)
    requires AtConsumer(registry, s, w)
    requires var b := s.batches[w];
             var d := NextDelivery(registry, s, w);
             bm == b.(next := b.next + 1, staged := if Known(s, w, d) then b.staged else b.staged + {d})
    ensures var step := if Known(s, w, NextDelivery(registry, s, w)) then Skip(w) else RunOk(w, [], now);
            Enabled(registry, s, step) && MovedOnly(s, w, bm, Apply(registry, s, step))
  {
    assert s.outbox + FreshRows([], now) == s.outbox;
  }

  lemma ViewOverConsumer(s: Bus, m: Bus, b: Batch, bm: Batch, d: Delivery, known: bool)
    requires m.outbox == s.outbox && m.inbox == s.inbox
    requires bm.done == b.done && bm.failed == b.failed && bm.staged == if known then b.staged else b.staged + {d}
    ensures View(m, bm) == View(s, b).(inbox := if known then View(s, b).inbox else View(s, b).inbox + {d})
  {
  }

  /** `Dispatch` passes over a known consumer, and over one that succeeds by recording it. */
  lemma DispatchOneOn(t: Tables, u: Tables, consumers: seq<string>, k: nat, d: Delivery, outcomes: Outcomes, now: Time)
    requires d.1 < |t.outbox| && k < |consumers| && consumers[k] == d.0
    requires d in t.inbox || outcomes(d.0, d.1).None?
    requires u == t.(inbox := if d in t.inbox then t.inbox else t.inbox + {d})
    ensures Dispatch(t, consumers, k, d.1, outcomes, now) == Dispatch(u, consumers, k + 1, d.1, outcomes, now)
  {
    assert d == (consumers[k], d.1);
  }

  /** The rows of a batch in turn. */
  lemma {:induction false} DrainIsPath(registry: Registry, s: Bus, w: nat, n: nat, outcomes: Outcomes, now: Time)
    returns (steps: seq<BusStep>, b': Batch, t: Bus)
    requires w in s.batches
    requires var b := s.batches[w];
             && b.cur == 0 && b.next == 0 && b.done == map[] && b.failed == map[] && b.staged == {}
             && Distinct(b.rows) && n <= |b.rows|
             && (forall i :: 0 <= i < |b.rows| ==> b.rows[i] < |s.outbox|)
    ensures var b := s.batches[w];
            && b'.rows == b.rows && b'.cur == n && b'.next == 0
            && (forall i :: n <= i < |b.rows| ==> Untouched(b', b.rows[i]))
            && View(s, b') == DrainRows(registry, Tables(s.outbox, s.inbox), b.rows[..n], outcomes, now)
    ensures IsPath(registry, s, steps, t) && MovedOnly(s, w, b', t)
    decreases n
  {
    var b := s.batches[w];
    if n == 0 {
      steps, b', t := [], b, s;
      assert Marked(s.outbox, b) == s.outbox;
      assert s.inbox + {} == s.inbox;
      assert s.batches == s.batches[w := b];
      assert IsPath(registry, s, [], s);
    } else {
      var first, bm, m := DrainIsPath(registry, s, w, n - 1, outcomes, now);
      assert m.batches[w] == bm;
      OneRowMore(registry, s, b, bm, n, outcomes, now);
      steps, b', t := OneMoreRow(registry, s, w, first, bm, m, outcomes, now);
    }
  }

  /** Dispatching the next row extends a path and moves the view as `Dispatch` says. */
  lemma OneMoreRow(
      registry: Registry, s: Bus, w: nat, first: seq<BusStep>, bm: Batch, m: Bus, outcomes: Outcomes, now: Time)
    returns (steps: seq<BusStep>, b': Batch, t: Bus)
    requires IsPath(registry, s, first, m) && MovedOnly(s, w, bm, m)
    requires bm.cur < |bm.rows| && bm.next == 0 && Distinct(bm.rows)
    requires bm.rows[bm.cur] < |s.outbox|
    requires forall i :: bm.cur <= i < |bm.rows| ==> Untouched(bm, bm.rows[i])
    ensures b'.rows == bm.rows && b'.cur == bm.cur + 1 && b'.next == 0
    ensures forall i :: b'.cur <= i < |b'.rows| ==> Untouched(b', b'.rows[i])
    ensures View(s, b')
            == Dispatch(
                 View(s, bm), ConsumersOf(registry, s.outbox, bm.rows[bm.cur]), 0, bm.rows[bm.cur], outcomes, now)
    ensures IsPath(registry, s, steps, t) && MovedOnly(s, w, b', t)
  {
    assert m.batches[w] == bm;
    var rest;
    rest, b', t := DispatchIsPath(registry, m, w, outcomes, now);
    PathConcat(registry, s, first, m, rest, t);
    steps := first + rest;
    MovedTwice(s, w, m, b', t);
    assert View(m, bm) == View(s, bm);
  }

  lemma OneRowMore(registry: Registry, s: Bus, b: Batch, bm: Batch, n: nat, outcomes: Outcomes, now: Time)
    requires 0 < n <= |b.rows|
    requires forall i :: 0 <= i < |b.rows| ==> b.rows[i] < |s.outbox|
    requires View(s, bm) == DrainRows(registry, Tables(s.outbox, s.inbox), b.rows[..n - 1], outcomes, now)
    ensures DrainRows(registry, Tables(s.outbox, s.inbox), b.rows[..n], outcomes, now)
         == Dispatch(View(s, bm), ConsumersOf(registry, s.outbox, b.rows[n - 1]), 0, b.rows[n - 1], outcomes, now)
  {
    assert b.rows[..n][..n - 1] == b.rows[..n - 1];
    assert Log(View(s, bm).outbox)[b.rows[n - 1]] == Log(s.outbox)[b.rows[n - 1]];
  }

  /** A worker's whole undisturbed drain - select, dispatch every row, commit - is a path of the transition
      system that ends in exactly the tables the drain loop computes. */
  lemma DrainBatchIsPath(
      registry: Registry, s: Bus, w: nat, rows: seq<EventId>, limit: nat, outcomes: Outcomes, now: Time)
    returns (path: seq<BusStep>, t: Bus)
    requires w !in s.batches && IsBatch(s.outbox, Locked(s), limit, rows)
    ensures IsPath(registry, s, path, t)
    ensures Tables(t.outbox, t.inbox) == DrainRows(registry, Tables(s.outbox, s.inbox), rows, outcomes, now)
    ensures t.batches == s.batches
  {
    var m := Apply(registry, s, Begin(w, rows, limit));
    OneStep(registry, s, Begin(w, rows, limit));
    forall i | 0 <= i < |rows| ensures rows[i] < |m.outbox| {
      assert Eligible(s.outbox, Locked(s), rows[i]);
    }
    var steps, b', n := DrainIsPath(registry, m, w, |rows|, outcomes, now);
    PathConcat(registry, s, [Begin(w, rows, limit)], m, steps, n);
    t := Apply(registry, n, Commit(w));
    OneStep(registry, n, Commit(w));
    PathConcat(registry, s, [Begin(w, rows, limit)] + steps, n, [Commit(w)], t);
    assert rows[..|rows|] == rows;
    assert Tables(t.outbox, t.inbox) == View(m, b');
    assert t.batches == s.batches;
    path := [Begin(w, rows, limit)] + steps + [Commit(w)];
  }

  /** A database with one unprocessed event of one consumer, as far as its worker has come with it. */
  function OneRow(event: Event, occurredAt: Time, runs: multiset<Delivery>, rolledBack: multiset<Delivery>): Bus {
    Bus([FreshRow(event, occurredAt)], {}, map[], runs, rolledBack)
  }

  /** Select the row and run its consumer. */
  lemma SelectAndRun(
      registry: Registry, event: Event, c: string, now: Time, runs: multiset<Delivery>, rolledBack: multiset<Delivery>)
    returns (steps: seq<BusStep>, t: Bus)
    requires Consumers(registry, event) == [c]
    ensures IsPath(registry, OneRow(event, now, runs, rolledBack), steps, t)
    ensures t == OneRow(event, now, runs + multiset{(c, 0)}, rolledBack)
                 .(batches := map[0 := Batch([0], 0, 1, {(c, 0)}, map[], map[])])
  {
    var s := OneRow(event, now, runs, rolledBack);
    OneStep(registry, s, Begin(0, [0], 1));
    var m := Apply(registry, s, Begin(0, [0], 1));
    assert m == s.(batches := map[0 := Batch([0], 0, 0, {}, map[], map[])]);
    assert ConsumersOf(registry, m.outbox, 0) == [c];
    OneStep(registry, m, RunOk(0, [], now));
    t := Apply(registry, m, RunOk(0, [], now));
    assert m.outbox + FreshRows([], now) == m.outbox;
    assert NextDelivery(registry, m, 0) == (c, 0);
    assert {} + {(c, 0)} == {(c, 0)};
    assert t.batches == map[0 := Batch([0], 0, 1, {(c, 0)}, map[], map[])];
    PathConcat(registry, s, [Begin(0, [0], 1)], m, [RunOk(0, [], now)], t);
    steps := [Begin(0, [0], 1)] + [RunOk(0, [], now)];
  }

  /** The redelivery bound is reached: after a crash between a handler's commit and the batch's, the same
      handler has run successfully twice for the one event. */
  lemma ACrashRunsTheHandlerAgain(registry: Registry, event: Event, c: string, now: Time)
      returns (path: seq<BusStep>, t: Bus)
    requires Consumers(registry, event) == [c]
    ensures IsPath(registry, OneRow(event, now, multiset{}, multiset{}), path, t)
    ensures t.runs[(c, 0)] == 2 && t.rolledBack[(c, 0)] == 1
  {
    var d: Delivery := (c, 0);
    var s := OneRow(event, now, multiset{}, multiset{});
    var first, m := SelectAndRun(registry, event, c, now, multiset{}, multiset{});
    OneStep(registry, m, Rollback(0));
    var crashed := Apply(registry, m, Rollback(0));
    assert multiset({d}) == multiset{d};
    assert crashed == OneRow(event, now, multiset{d}, multiset{d});
    PathConcat(registry, s, first, m, [Rollback(0)], crashed);
    var second;
    second, t := SelectAndRun(registry, event, c, now, multiset{d}, multiset{d});
    PathConcat(registry, s, first + [Rollback(0)], crashed, second, t);
    path := first + [Rollback(0)] + second;
  }
}
