/** The promises of the system, for every state of every run. */
module Guarantees {
  import opened Prelude
  import opened LeadDomain
  import opened Store
  import opened ConversationFsm
  import opened LeadSync
  import opened CrmMirror
  import opened ProfileCapture
  import opened Coordinator
  import opened Webhook
  import opened RecommendationHandler
  import opened Lifecycle
  import opened EventBus
  import opened BusRuns
  import opened LeadToSales
  import opened DataInvariant
  import opened SystemInvariant
  import opened SystemRuns

  // ---- The CRM mirror --------------------------------------------------------------------------

  /** No CRM update is lost: a deal at or before the watermark has a valid stage and a mirror row equal to
      it, and the watermark never falls. */
  lemma NoCrmUpdateIsLost(config: Config, states: seq<Sys>, steps: seq<Step>, i: nat, j: nat, org: OrgId, id: string)
    requires IsRun(config, states, steps) && i <= j < |states|
    ensures Watermark(states[i].db, org) <= Watermark(states[j].db, org)
    ensures var crm := CrmOf(states[i].crm, org);
            id in crm && crm[id].updatedAt <= Watermark(states[i].db, org) ==>
              StageOk(crm[id]) && Mirrored(states[i].db.leads, org, id, crm[id])
  {
    RunKeeps(config, states, steps, i);
    RunGoesOnward(config, states, steps, i, j);
    assert MirrorOk(states[i].db, org, CrmOf(states[i].crm, org), states[i].clock);
  }

  /** From any reachable state, with all stages valid, one poll mirrors every deal and the next has nothing to fetch. */
  lemma OnePollConverges(
      config: Config, states: seq<Sys>, steps: seq<Step>, i: nat, org: OrgId, snapshots: seq<Snapshot>, now: Time)
    requires IsRun(config, states, steps) && i < |states|
    requires Honest(states[i].db, states[i].crm, PollCrm(org, Ok(snapshots), now))
    requires forall id :: id in CrmOf(states[i].crm, org) ==> StageOk(CrmOf(states[i].crm, org)[id])
    ensures var s := states[i];
            var t := Next(config, s, Transact(PollCrm(org, Ok(snapshots), now)));
            && (forall id :: id in CrmOf(s.crm, org) ==> Mirrored(t.db.leads, org, id, CrmOf(s.crm, org)[id]))
            && (forall again: seq<Snapshot> ::
                  IsListing(CrmOf(s.crm, org), Watermark(t.db, org), again) <==> again == [])
  {
    RunKeeps(config, states, steps, i);
    var s := states[i];
    assert MirrorOk(s.db, org, CrmOf(s.crm, org), s.clock);
    PollConverges(s.db, org, CrmOf(s.crm, org), snapshots, now);
  }

  /** Re-polling an unchanged CRM from any reachable state, bad stages and all, publishes nothing and moves no
      watermark. */
  lemma RepollingIsQuiet(
    config: Config, states: seq<Sys>, steps: seq<Step>, i: nat, org: OrgId, first: seq<Snapshot>, t1: Time,
    second: seq<Snapshot>, t2: Time)
    requires IsRun(config, states, steps) && i < |states|
    requires Honest(states[i].db, states[i].crm, PollCrm(org, Ok(first), t1))
    requires var m := Next(config, states[i], Transact(PollCrm(org, Ok(first), t1)));
             Honest(m.db, m.crm, PollCrm(org, Ok(second), t2))
    ensures var m := Next(config, states[i], Transact(PollCrm(org, Ok(first), t1)));
            var t := Next(config, m, Transact(PollCrm(org, Ok(second), t2)));
            t.db.outbox == m.db.outbox && Watermark(t.db, org) == Watermark(m.db, org)
              && SameButFresher(m.db.leads, t.db.leads)
  {
    RunKeeps(config, states, steps, i);
    var s := states[i];
    PollOutcome(s.db, org, Watermark(s.db, org), first, t1);
    RepollIsQuiet(s.db, org, CrmOf(s.crm, org), first, t1, second, t2);
  }

  /** The stage events of a lead, replayed from the stage it was born with, end at its stage and never repeat one;
      the birth stage itself is fixed for the rest of the run. */
  lemma StageLedgerIsExact(config: Config, states: seq<Sys>, steps: seq<Step>, i: nat, j: nat, lead: LeadId)
    requires IsRun(config, states, steps) && i <= j < |states|
    requires lead < |states[i].db.leads|
    ensures lead < |states[i].births| == |states[i].db.leads| && lead < |states[j].births|
            && states[j].births[lead] == states[i].births[lead]
    ensures var h := StageHistory(states[i].births[lead], Log(states[i].db.outbox), lead);
            && h[|h| - 1] == states[i].db.leads[lead].stage
            && forall k :: 0 <= k < |h| - 1 ==> h[k] != h[k + 1]
  {
    RunKeeps(config, states, steps, i);
    RunGoesOnward(config, states, steps, i, j);
    var s := states[i];
    assert LedgerOf(s.births[lead], Log(s.db.outbox), lead, s.db.leads[lead]);
  }

  // ---- Delivery --------------------------------------------------------------------------------

  /** Handlers run at least once and rarely twice: a successful run is repeated only for batches that rolled back,
      the recorded consumers of an event are a prefix of its registrations, and a processed row has them all. */
  lemma RedeliveryIsBounded(config: Config, states: seq<Sys>, steps: seq<Step>, i: nat, consumer: string, e: EventId)
    requires IsRun(config, states, steps) && i < |states| && e < |states[i].db.outbox|
    ensures var s := states[i];
            var consumers := Consumers(WIRED, s.db.outbox[e].event);
            && s.runs[(consumer, e)] <= 1 + s.rolledBack[(consumer, e)]
            && (s.batches == map[] ==>
                 s.runs[(consumer, e)] == (if (consumer, e) in s.db.inbox then 1 else 0) + s.rolledBack[(consumer, e)])
            && (s.db.outbox[e].processedAt.Some? ==> forall c :: c in consumers ==> (c, e) in s.db.inbox)
            && exists k :: 0 <= k <= |consumers| && forall c :: (c, e) in s.db.inbox <==> c in consumers[..k]
  {
    RunKeeps(config, states, steps, i);
    var s := states[i];
    RunsAreBounded(WIRED, BusOf(s), (consumer, e));
    var k := InboxIsAPrefix(WIRED, BusOf(s), e);
    forall c ensures (c, e) in s.db.inbox <==> c in Consumers(WIRED, s.db.outbox[e].event)[..k] {
      assert c in RecordedConsumers(BusOf(s), e) <==> (c, e) in s.db.inbox by {
        if (c, e) in s.db.inbox {
          var d := (c, e);
          assert d in BusOf(s).inbox && d.1 == e && d.0 == c;
        }
      }
    }
  }

  /** No worker is ever stuck: with a batch open it can skip, run a handler, finish its row or commit, and a crash
      can always roll it back. */
  lemma WorkerIsNeverStuck(config: Config, states: seq<Sys>, steps: seq<Step>, i: nat, w: nat) returns (step: Step)
    requires IsRun(config, states, steps) && i < |states|
    requires w in states[i].batches
    ensures Possible(states[i], step)
            && (step.Handle? || (step.Work? && (step.step.Skip? || step.step.RowDone? || step.step.Commit?)))
    ensures Possible(states[i], Work(Rollback(w)))
  {
    RunKeeps(config, states, steps, i);
    step := NextMove(states[i], w);
  }

  lemma NextMove(s: Sys, w: nat) returns (step: Step)
    requires BatchesOk(WIRED, BusOf(s)) && w in s.batches
    ensures Possible(s, step)
            && (step.Handle? || (step.Work? && (step.step.Skip? || step.step.RowDone? || step.step.Commit?)))
  {
    var b := s.batches[w];
    assert BatchOk(WIRED, BusOf(s).outbox, BusOf(s).inbox, BusOf(s).batches[w]);
    if b.cur == |b.rows| {
      step := Work(Commit(w));
    } else if !AtConsumer(WIRED, BusOf(s), w) {
      step := Work(RowDone(w, 0));
    } else if Known(BusOf(s), w, NextDelivery(WIRED, BusOf(s), w)) {
      step := Work(Skip(w));
    } else {
      step := Handle(w, Env(TurnInput(None, None), None, None, "", None, None, 0));
      assert b.rows[b.cur] < |s.db.outbox|;
    }
  }

  /** Whenever the recommendation handler is run for an event, the stage push has succeeded for that same event. */
  lemma PushComesFirst(config: Config, states: seq<Sys>, steps: seq<Step>, i: nat)
    requires IsRun(config, states, steps) && i < |steps|
    requires steps[i].Handle?
    requires var d := NextDelivery(WIRED, BusOf(states[i]), steps[i].worker);
             d.0 == "recommendation.on_profile_completed" && states[i].db.outbox[d.1].event.ProfileCompleted?
    ensures var e := NextDelivery(WIRED, BusOf(states[i]), steps[i].worker).1;
            (CRM_PUSH, e) in states[i].runs
  {
    RunKeeps(config, states, steps, i);
    var s := states[i];
    var w := steps[i].worker;
    RecommendationWaitsForPush(BusOf(s), w);
    var d := (CRM_PUSH, NextDelivery(WIRED, BusOf(s), w).1);
    assert BusOf(s).runs[d]
        == (if d in s.db.inbox then 1 else 0) + (if StagedSomewhere(BusOf(s), d) then 1 else 0) + s.rolledBack[d];
    assert d in s.batches[w].staged ==> StagedSomewhere(BusOf(s), d);
  }

  // ---- Conversations ---------------------------------------------------------------------------

  /** A conversation in Recommendation has a lead whose profile is at or above the threshold, and that profile
      stays there for the rest of the run. */
  lemma RecommendationMeansComplete(config: Config, states: seq<Sys>, steps: seq<Step>, i: nat, j: nat, id: ConvId)
    requires IsRun(config, states, steps) && i <= j < |states|
    requires id < |states[i].db.conversations| && states[i].db.conversations[id].state == Recommendation
    ensures var link := states[i].db.conversations[id].leadId;
            link.Some? && link.value < |states[i].db.leads| && IsComplete(states[j].db, link.value, config.threshold)
  {
    RunKeeps(config, states, steps, i);
    RunGoesOnward(config, states, steps, i, j);
    assert ConversationOk(states[i].db, Log(states[i].db.outbox), config.threshold, id);
  }

  /** With a threshold above 80 percent - the default is 90 - that profile has every dimension. */
  lemma RecommendationMeansEveryDimension(
      config: Config, states: seq<Sys>, steps: seq<Step>, i: nat, j: nat, id: ConvId, now: Time)
    requires config.threshold > 80.0
    requires IsRun(config, states, steps) && i <= j < |states|
    requires id < |states[i].db.conversations| && states[i].db.conversations[id].state == Recommendation
    ensures var link := states[i].db.conversations[id].leadId;
            && link.Some?
            && CurrentProfile(states[j].db, link.value, now).Ok?
            && forall d :: CurrentProfile(states[j].db, link.value, now).value.Has(d)
  {
    RecommendationMeansComplete(config, states, steps, i, j, id);
    var lead := states[i].db.conversations[id].leadId.value;
    AboveEightyIsEverything(CurrentProfile(states[j].db, lead, now).value);
  }

  /** The audit of decisions and the log of transfers tell the same story of every conversation, up to its stored
      owner. */
  lemma AuditMatchesEvents(config: Config, states: seq<Sys>, steps: seq<Step>, i: nat, id: ConvId)
    requires IsRun(config, states, steps) && i < |states|
    requires id < |states[i].db.conversations|
    ensures var s := states[i];
            var ds, ts := DecisionsOf(s.db.decisions, id), TransfersOf(Log(s.db.outbox), id);
            && |ds| == |ts|
            && (forall k :: 0 <= k < |ts| ==>
                  && ts[k].OwnershipTransferred?
                  && ts[k].toOwner == ds[k].selectedOwner && ts[k].explanation == ds[k].explanation
                  && ts[k].fromOwner == if k == 0 then Unassigned else ds[k - 1].selectedOwner)
            && s.db.conversations[id].ownership.ownerType == if ds == [] then Unassigned else ds[|ds| - 1].selectedOwner
  {
    RunKeeps(config, states, steps, i);
    var s := states[i];
    assert ConversationOk(s.db, Log(s.db.outbox), config.threshold, id);
    LockstepMeans(DecisionsOf(s.db.decisions, id), TransfersOf(Log(s.db.outbox), id),
      s.db.conversations[id].ownership.ownerType);
  }

  lemma LockstepMeans(ds: seq<DecisionRow>, ts: seq<Event>, owner: OwnerType)
    requires Lockstep(ds, ts, owner)
    ensures |ds| == |ts|
    ensures forall k :: 0 <= k < |ts| ==>
              && ts[k].OwnershipTransferred?
              && ts[k].toOwner == ds[k].selectedOwner && ts[k].explanation == ds[k].explanation
              && ts[k].fromOwner == if k == 0 then Unassigned else ds[k - 1].selectedOwner
    ensures owner == if ds == [] then Unassigned else ds[|ds| - 1].selectedOwner
  {
    forall k | 0 < k <= |ts| ensures OwnerBefore(ts, k) == ds[k - 1].selectedOwner {
      assert ts[k - 1].OwnershipTransferred?;
    }
  }

  /** Only five states are ever stored, each with its owner, so no turn of any message ever meets a scenario
      the policy does not implement. */
  lemma OwnerAlwaysMatchesState(
      config: Config, states: seq<Sys>, steps: seq<Step>, i: nat, id: ConvId, input: TurnInput, now: Time)
    requires IsRun(config, states, steps) && i < |states|
    requires id < |states[i].db.conversations|
    ensures var row := states[i].db.conversations[id];
            && (row.state.New? || row.state.Qualification? || row.state.Recommendation? || row.state.AssignedHuman?
                 || row.state.Dormant?)
            && (row.state == New ==> row.ownership.ownerType == Unassigned)
            && (row.state == Qualification || row.state == Recommendation ==> row.ownership.ownerType == AI)
            && (row.state == AssignedHuman ==> row.ownership.ownerType == Human)
    ensures HandleMessage(states[i].db, id, input, now) != Err(NotImplementedPlaceholder)
  {
    RunKeeps(config, states, steps, i);
    assert ConversationOk(states[i].db, Log(states[i].db.outbox), config.threshold, id);
    PolicyIsNeverStuck(states[i].db, id, input, now);
  }

  /** A conversation keeps its names, its contact and the lead it is linked to; and once it is with a human or dormant,
      nothing in the system ever brings it back: it stays with a human or dormant for the rest of the run. */
  lemma NothingWakesAConversation(config: Config, states: seq<Sys>, steps: seq<Step>, i: nat, j: nat, id: ConvId)
    requires IsRun(config, states, steps) && i <= j < |states|
    requires id < |states[i].db.conversations|
    ensures id < |states[j].db.conversations|
            && RowGoesOn(states[i].db.conversations[id], states[j].db.conversations[id])
  {
    RunGoesOnward(config, states, steps, i, j);
  }

  /** A broker request on such a conversation raises, now and whenever it is tried again. So a transfer that committed
      but was not recorded - a crash, or a sidebar note that raised something other than a failed send - leaves an event
      that fails at every redelivery. */
  lemma RedeliveredTransferFailsForever(
    config: Config, states: seq<Sys>, steps: seq<Step>, i: nat, j: nat, id: ConvId, input: TurnInput, now: Time)
    requires IsRun(config, states, steps) && i <= j < |states|
    requires id < |states[i].db.conversations| && IsSettled(states[i].db.conversations[id].state)
    requires input.bypass.Some?
    ensures HandleMessage(states[j].db, id, input, now).Err?
  {
    NothingWakesAConversation(config, states, steps, i, j, id);
    OwnerAlwaysMatchesState(config, states, steps, j, id, input, now);
    RefusesTransfer(states[j].db, id, input, now);
  }

  lemma RefusesTransfer(db: Db, id: ConvId, input: TurnInput, now: Time)
    requires id < |db.conversations| && IsSettled(db.conversations[id].state) && input.bypass.Some?
    ensures HandleMessage(db, id, input, now) == Err(InvalidTransition(db.conversations[id].state, AssignedHuman))
  {
  }

  // ---- Profiles --------------------------------------------------------------------------------

  /** For a positive threshold, `ProfileCompleted` is in the log exactly once for a lead that has reached it and
      never for another; reaching it is for good. */
  lemma CompletedExactlyOnce(config: Config, states: seq<Sys>, steps: seq<Step>, i: nat, j: nat, lead: LeadId)
    requires config.threshold > 0.0
    requires IsRun(config, states, steps) && i <= j < |states|
    ensures TimesCompleted(Log(states[i].db.outbox), lead)
            == if IsComplete(states[i].db, lead, config.threshold) then 1 else 0
    ensures IsComplete(states[i].db, lead, config.threshold) ==> IsComplete(states[j].db, lead, config.threshold)
  {
    RunKeeps(config, states, steps, i);
    RunGoesOnward(config, states, steps, i, j);
  }

  /** The gate never refuses the lead of a published `ProfileCompleted`, however late the event is handled:
      the recommendation handler cannot drop it as incomplete. */
  lemma CompletedEventPassesTheGate(
    config: Config, states: seq<Sys>, steps: seq<Step>, i: nat, e: EventId, answer: Option<Deal>, now: Time)
    requires config.threshold > 0.0
    requires IsRun(config, states, steps) && i < |states|
    requires e < |states[i].db.outbox| && states[i].db.outbox[e].event.ProfileCompleted?
    ensures var lead := states[i].db.outbox[e].event.leadId;
            && IsComplete(states[i].db, lead, config.threshold)
            && ClearForSearch(states[i].db, lead, config.threshold, config.bound, answer, now) != Err(IncompleteProfile)
  {
    RunKeeps(config, states, steps, i);
    var db := states[i].db;
    EventIsCounted(Log(db.outbox), e);
    CompleteLeadClears(db, db.outbox[e].event.leadId, config.threshold, config.bound, answer, now);
  }

  /** A published `ProfileCompleted` does its work whenever its handler gets through: with the lead fresh, or refreshed
      by a valid answer, and one conversation linked to it, the handler moves that conversation from qualification to
      recommendation and publishes the message. */
  lemma CompletionIsDelivered(
    config: Config, states: seq<Sys>, steps: seq<Step>, i: nat, e: EventId, answer: Option<Deal>, text: string,
    now: Time, id: ConvId)
    requires config.threshold > 0.0
    requires IsRun(config, states, steps) && i < |states|
    requires e < |states[i].db.outbox| && states[i].db.outbox[e].event.ProfileCompleted?
    requires var event := states[i].db.outbox[e].event;
             && ConversationsByLead(states[i].db.conversations, event.org, event.leadId) == {id}
             && CheckBeforeDecision(states[i].db, event.leadId, config.bound, answer, now).Ok?
    ensures var event := states[i].db.outbox[e].event;
            var handled := Run(config, states[i].db, Recommend(event.org, event.leadId, answer, text, now));
            && id < |states[i].db.conversations|
            && handled.Ok? && id < |handled.value.conversations| && |handled.value.outbox| > 0
            && (states[i].db.conversations[id].state == Qualification ==>
                 handled.value.conversations[id].state == Recommendation)
            && handled.value.outbox[|handled.value.outbox| - 1].event
            == ResponseReady(event.org, id, states[i].db.conversations[id].chatwootId, text)
  {
    RunKeeps(config, states, steps, i);
    var db := states[i].db;
    var event := db.outbox[e].event;
    EventIsCounted(Log(db.outbox), e);
    CompleteLeadIsServed(config, db, event.org, event.leadId, answer, text, now, id);
  }

  lemma CompleteLeadIsServed(
    config: Config, db: Db, org: OrgId, lead: LeadId, answer: Option<Deal>, text: string, now: Time, id: ConvId)
    requires UniqueLeads(db.leads) && IsComplete(db, lead, config.threshold)
    requires ConversationsByLead(db.conversations, org, lead) == {id}
    requires CheckBeforeDecision(db, lead, config.bound, answer, now).Ok?
    ensures var handled := Run(config, db, Recommend(org, lead, answer, text, now));
            && id < |db.conversations|
            && handled.Ok? && id < |handled.value.conversations| && |handled.value.outbox| > 0
            && (db.conversations[id].state == Qualification ==> handled.value.conversations[id].state == Recommendation)
            && handled.value.outbox[|handled.value.outbox| - 1].event
                 == ResponseReady(org, id, db.conversations[id].chatwootId, text)
  {
    GuardRefreshes(db, lead, Judge(db, lead, config.bound, now), answer, now);
    RecommendationEffect(db, org, lead, config.threshold, config.bound, answer, Always(text), now);
    assert id in ConversationsByLead(db.conversations, org, lead);
  }

  lemma EventIsCounted(log: seq<Event>, e: nat)
    requires e < |log| && log[e].ProfileCompleted?
    ensures TimesCompleted(log, log[e].leadId) >= 1
  {
    var select := CompletedSel(log[e].leadId);
    assert log == log[..e] + [log[e]] + log[e + 1..];
    ProjectConcat(log[..e] + [log[e]], log[e + 1..], select);
    ProjectConcat(log[..e], [log[e]], select);
    ProjectOne(log[e], select);
  }

  lemma CompleteLeadClears(db: Db, lead: LeadId, threshold: real, bound: Time, answer: Option<Deal>, now: Time)
    requires UniqueLeads(db.leads) && IsComplete(db, lead, threshold)
    ensures ClearForSearch(db, lead, threshold, bound, answer, now) != Err(IncompleteProfile)
  {
    ResyncMirrors(db, lead, "staleness_guard", answer, now);
    if CheckBeforeDecision(db, lead, bound, answer, now).Ok? {
      assert CheckBeforeDecision(db, lead, bound, answer, now).value.profiles == db.profiles;
    } else {
      RefreshErrors(db, lead, answer, now);
    }
  }

  lemma RefreshErrors(db: Db, lead: LeadId, answer: Option<Deal>, now: Time)
    ensures ForceResync(db, lead, "staleness_guard", answer, now) != Err(IncompleteProfile)
  {
  }

  // ---- Messages --------------------------------------------------------------------------------

  ghost predicate OneToOne(s: Sys) {
    && |Project(Log(s.db.outbox), MessageSel())| == |s.db.archive| == |s.acked|
    && (forall i :: 0 <= i < |s.db.archive| ==>
          && s.db.archive[i].convId < |s.db.conversations|
          && Project(Log(s.db.outbox), MessageSel())[i]
          == ToEvent(s.db.archive[i], s.db.conversations[s.db.archive[i].convId].chatwootId))
    && s.acked == set i: nat | i < |s.db.archive| && s.db.archive[i].convId < |s.db.conversations| :: TripleAt(s.db, i)
  }

  /** Archived messages, `MessageReceived` events and acknowledged triples correspond one to one, and there is one
      conversation per chatwoot id of an organization. */
  lemma MessagesAreOneToOne(config: Config, states: seq<Sys>, steps: seq<Step>, i: nat)
    requires IsRun(config, states, steps) && i < |states|
    ensures OneToOne(states[i])
    ensures UniqueConversations(states[i].db.conversations)
  {
    RunKeeps(config, states, steps, i);
    CountTriples(states[i].db);
  }

  lemma CountTriples(db: Db)
    requires UniqueConversations(db.conversations) && UniqueArchive(db)
    ensures |ArchivedTriples(db)| == |db.archive|
  {
    var triples := seq(|db.archive|, k requires 0 <= k < |db.archive| => TripleAt(db, k));
    forall a, b | 0 <= a < b < |triples| ensures triples[a] != triples[b] {
      assert db.archive[a].convId != db.archive[b].convId || db.archive[a].messageId != db.archive[b].messageId;
    }
    DistinctTriples(triples);
    assert ArchivedTriples(db) == set t | t in triples by {
      forall t ensures t in ArchivedTriples(db) <==> t in triples {
        if t in ArchivedTriples(db) {
          var k: nat :| k < |db.archive| && TripleAt(db, k) == t;
          assert triples[k] == t;
        }
        if t in triples {
          var k :| 0 <= k < |triples| && triples[k] == t;
          assert TripleAt(db, k) == t;
        }
      }
    }
  }

  lemma {:induction false} DistinctTriples<T>(s: seq<T>)
    requires forall a, b :: 0 <= a < b < |s| ==> s[a] != s[b]
    ensures |set t | t in s| == |s|
  {
    if s != [] {
      var n := |s| - 1;
      DistinctTriples(s[..n]);
      assert (set t | t in s) == (set t | t in s[..n]) + {s[n]};
    }
  }

  /** Delivering an acknowledged message again changes nothing at all, whatever the repeated payload says of it. */
  lemma RepeatedDeliveryChangesNothing(
      config: Config, states: seq<Sys>, steps: seq<Step>, i: nat, org: OrgId, p: Payload, now: Time)
    requires IsRun(config, states, steps) && i < |states|
    requires (org, p.conversationId, p.messageId) in states[i].acked
    ensures Next(config, states[i], Transact(Deliver(org, p, now))) == states[i]
  {
    RunKeeps(config, states, steps, i);
    var s := states[i];
    DeliveryEffect(s.db, org, p, now);
    UnacceptedStandsStill(config, s, org, p, now);
  }

  // ---- Where atomicity matters -----------------------------------------------------------------

  /** A refresh keeps every promise of the mirror exactly when its answer has the mirrored fields of the CRM's deal,
      once the watermark has passed that deal. `LateCommits` says of whole runs when such an answer comes too late. */
  lemma RefreshNeedsACurrentAnswer(db: Db, id: LeadId, actor: string, answer: Deal, now: Time, crm: Crm)
    requires UniqueLeads(db.leads) && id < |db.leads| && actor in ALLOWED_ACTORS && StageOk(answer)
    requires NoLostUpdate(db, db.leads[id].org, crm)
    ensures ForceResync(db, id, actor, Some(answer), now).Ok?
    ensures var r := ForceResync(db, id, actor, Some(answer), now).value;
            var key := db.leads[id].crmLeadId;
            NoLostUpdate(r, db.leads[id].org, crm) <==>
            !(key in crm && crm[key].updatedAt <= Watermark(db, db.leads[id].org)
              && MirroredFieldsDiffer(answer, crm[key]))
  {
    ResyncMirrors(db, id, actor, Some(answer), now);
    RefreshedRow(db, id, actor, answer, now);
    var r := ForceResync(db, id, actor, Some(answer), now).value;
    RewrittenRow(db, r, id, answer, now, db.leads[id].org, crm);
  }
}
