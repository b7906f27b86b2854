/** What the drivers keep of every conversation: its state and owner agree, its decisions and transfers run in lockstep,
    a recommendation stands on a complete profile. */
module Lifecycle {
  import opened Prelude
  import opened LeadDomain
  import opened Store
  import opened ConversationFsm
  import opened Coordinator
  import opened ProfileCapture
  import opened RecommendationHandler
  import opened Webhook

  function DecisionSel(id: ConvId): DecisionRow -> Option<DecisionRow> {
    (d: DecisionRow) => if d.convId == id then Some(d) else None
  }

  function TransferSel(id: ConvId): Event -> Option<Event> {
    (e: Event) => if e.OwnershipTransferred? && e.convId == id then Some(e) else None
  }

  function DecisionsOf(decisions: seq<DecisionRow>, id: ConvId): seq<DecisionRow> {
    Project(decisions, DecisionSel(id))
  }

  function TransfersOf(log: seq<Event>, id: ConvId): seq<Event> { Project(log, TransferSel(id)) }

  /** The states the drivers store, each with the owner it implies; a dormant conversation keeps its owner. */
  predicate OwnerMatchesState(row: ConversationRow) {
    match row.state
    case New => row.ownership.ownerType == Unassigned
    case Qualification => row.ownership.ownerType == AI
    case Recommendation => row.ownership.ownerType == AI
    case AssignedHuman => row.ownership.ownerType == Human
    case Dormant => true
    case _ => false
  }

  /** Decisions and transfer events pair off in order, each transfer starts at the owner the previous one
      left - nobody at first - and the last one names the stored owner. */
  predicate Lockstep(ds: seq<DecisionRow>, ts: seq<Event>, owner: OwnerType) {
    && |ds| == |ts|
    && (forall i :: 0 <= i < |ts| ==>
          && ts[i].OwnershipTransferred?
          && ts[i].toOwner == ds[i].selectedOwner
          && ts[i].explanation == ds[i].explanation
          && ts[i].fromOwner == OwnerBefore(ts, i))
    && owner == OwnerBefore(ts, |ts|)
  }

  function OwnerBefore(ts: seq<Event>, i: nat): OwnerType
    requires i <= |ts|
  {
    if i == 0 || !ts[i - 1].OwnershipTransferred? then Unassigned else ts[i - 1].toOwner
  }

  lemma LockstepGrows(ds: seq<DecisionRow>, ts: seq<Event>, owner: OwnerType, d: DecisionRow, t: Event)
    requires Lockstep(ds, ts, owner)
    requires t.OwnershipTransferred? && t.fromOwner == owner && t.toOwner == d.selectedOwner
             && t.explanation == d.explanation
    ensures Lockstep(ds + [d], ts + [t], t.toOwner)
  {
    var ts' := ts + [t];
    assert ts'[|ts|] == t;
    forall i | 0 <= i <= |ts| ensures OwnerBefore(ts', i) == OwnerBefore(ts, i) {
      assert i > 0 ==> ts'[i - 1] == ts[i - 1];
    }
  }

  predicate ConversationOk(db: Db, log: seq<Event>, threshold: real, id: ConvId)
    requires id < |db.conversations|
  {
    var row := db.conversations[id];
    && OwnerMatchesState(row)
    && Lockstep(DecisionsOf(db.decisions, id), TransfersOf(log, id), row.ownership.ownerType)
    && (row.leadId.Some? ==> row.leadId.value < |db.leads|)
    && (row.state == Recommendation ==> row.leadId.Some? && IsComplete(db, row.leadId.value, threshold))
  }

  /** Decisions and transfers name existing conversations. */
  ghost predicate RefersToConversations(conversations: nat, decisions: seq<DecisionRow>, log: seq<Event>) {
    && (forall i :: 0 <= i < |decisions| ==> decisions[i].convId < conversations)
    && (forall i :: 0 <= i < |log| && log[i].OwnershipTransferred? ==> log[i].convId < conversations)
  }

  ghost predicate ConversationsOk(db: Db, threshold: real) {
    && RefersToConversations(|db.conversations|, db.decisions, Log(db.outbox))
    && forall id: ConvId :: id < |db.conversations| ==> ConversationOk(db, Log(db.outbox), threshold, id)
  }

  /** Leads are added; none is removed or gets another name. */
  predicate LeadsKeepNames(leads: seq<LeadRow>, after: seq<LeadRow>) {
    && |leads| <= |after|
    && forall i :: 0 <= i < |leads| ==> after[i].org == leads[i].org && after[i].crmLeadId == leads[i].crmLeadId
  }

  /** Leads are only added, and a complete profile stays complete. */
  ghost predicate LeadsGrow(db: Db, r: Db, threshold: real) {
    && LeadsKeepNames(db.leads, r.leads)
    && forall lead :: IsComplete(db, lead, threshold) ==> IsComplete(r, lead, threshold)
  }

  /** With a human, or asleep. */
  predicate IsSettled(state: ConversationState) { state.AssignedHuman? || state.Dormant? }

  /** What no transaction changes of a conversation: its names, its contact, a link once set, being settled, and being
      past its first turn. */
  predicate RowGoesOn(before: ConversationRow, after: ConversationRow) {
    && after.org == before.org && after.chatwootId == before.chatwootId
         && after.contactReference == before.contactReference
    && (before.leadId.Some? ==> after.leadId == before.leadId)
    && (IsSettled(before.state) ==> IsSettled(after.state))
    && (!before.state.New? ==> !after.state.New?)
  }

  predicate ConversationsGoOn(conversations: seq<ConversationRow>, after: seq<ConversationRow>) {
    |conversations| <= |after| && forall i :: 0 <= i < |conversations| ==> RowGoesOn(conversations[i], after[i])
  }

  predicate NoTransfers(events: seq<Event>) {
    forall i :: 0 <= i < |events| ==> !events[i].OwnershipTransferred?
  }

  lemma NoTransfersAdded(log: seq<Event>, events: seq<Event>, id: ConvId)
    requires NoTransfers(events)
    ensures TransfersOf(log + events, id) == TransfersOf(log, id)
  {
    ProjectConcat(log, events, TransferSel(id));
    ProjectNothing(events, TransferSel(id));
  }

  /** A transaction that neither writes conversations nor decides ownership keeps them all. */
  lemma QuietKeepsConversations(db: Db, r: Db, threshold: real, events: seq<Event>)
    requires ConversationsOk(db, threshold)
    requires r.conversations == db.conversations && r.decisions == db.decisions
    requires Log(r.outbox) == Log(db.outbox) + events && NoTransfers(events)
    requires LeadsGrow(db, r, threshold)
    ensures ConversationsOk(r, threshold)
  {
    forall id: ConvId | id < |r.conversations| ensures ConversationOk(r, Log(r.outbox), threshold, id) {
      NoTransfersAdded(Log(db.outbox), events, id);
      assert ConversationOk(db, Log(db.outbox), threshold, id);
    }
  }

  /** A transaction on one conversation keeps all, if it keeps that one. */
  lemma OneConversationChanged(
      db: Db, r: Db, threshold: real, id: ConvId, row: ConversationRow, ds: seq<DecisionRow>, events: seq<Event>)
    requires ConversationsOk(db, threshold)
    requires id <= |db.conversations|
    requires r.conversations == WithConversation(db, id, row).conversations
    requires r.decisions == db.decisions + ds && forall i :: 0 <= i < |ds| ==> ds[i].convId == id
    requires Log(r.outbox) == Log(db.outbox) + events
    requires forall i :: 0 <= i < |events| && events[i].OwnershipTransferred? ==> events[i].convId == id
    requires LeadsGrow(db, r, threshold)
    requires ConversationOk(r, Log(r.outbox), threshold, id)
    ensures ConversationsOk(r, threshold)
  {
    forall other: ConvId | other < |r.conversations| ensures ConversationOk(r, Log(r.outbox), threshold, other) {
      if other != id {
        OthersHistory(db.decisions, ds, Log(db.outbox), events, id, other);
        assert ConversationOk(db, Log(db.outbox), threshold, other);
      }
    }
  }

  /** A transaction that writes one conversation, publishes one event and decides nothing. */
  lemma OneConversationTold(db: Db, r: Db, threshold: real, id: ConvId, e: Event)
    requires ConversationsOk(db, threshold)
    requires id <= |db.conversations| && id < |r.conversations|
    requires r.conversations == WithConversation(db, id, r.conversations[id]).conversations
    requires r.decisions == db.decisions && r.leads == db.leads && r.profiles == db.profiles
    requires Log(r.outbox) == Log(db.outbox) + [e] && !e.OwnershipTransferred?
    requires ConversationOk(r, Log(r.outbox), threshold, id)
    ensures ConversationsOk(r, threshold)
  {
    assert r.decisions == db.decisions + [];
    SameLeads(db, r, threshold);
    OneConversationChanged(db, r, threshold, id, r.conversations[id], [], [e]);
  }

  lemma SameLeads(db: Db, r: Db, threshold: real)
    requires r.leads == db.leads && r.profiles == db.profiles
    ensures LeadsGrow(db, r, threshold)
  {
  }

  lemma OthersHistory(
      decisions: seq<DecisionRow>, ds: seq<DecisionRow>, log: seq<Event>, events: seq<Event>, id: ConvId, other: ConvId)
    requires other != id
    requires forall i :: 0 <= i < |ds| ==> ds[i].convId == id
    requires forall i :: 0 <= i < |events| && events[i].OwnershipTransferred? ==> events[i].convId == id
    ensures DecisionsOf(decisions + ds, other) == DecisionsOf(decisions, other)
    ensures TransfersOf(log + events, other) == TransfersOf(log, other)
  {
    ProjectConcat(decisions, ds, DecisionSel(other));
    ProjectNothing(ds, DecisionSel(other));
    ProjectConcat(log, events, TransferSel(other));
    ProjectNothing(events, TransferSel(other));
  }

  /** A conversation nothing ever referred to has an empty history. */
  lemma NewHistory(decisions: seq<DecisionRow>, log: seq<Event>, id: ConvId)
    requires RefersToConversations(id, decisions, log)
    ensures DecisionsOf(decisions, id) == [] && TransfersOf(log, id) == []
  {
    ProjectNothing(decisions, DecisionSel(id));
    ProjectNothing(log, TransferSel(id));
  }

  // ---- The coordinator's turn ------------------------------------------------------------------

  /** Whatever the turn, the policy is never asked for a scenario it does not implement. */
  lemma PolicyIsNeverStuck(db: Db, id: ConvId, input: TurnInput, now: Time)
    requires id < |db.conversations| ==> OwnerMatchesState(db.conversations[id])
    ensures HandleMessage(db, id, input, now) != Err(NotImplementedPlaceholder)
  {
  }

  /** A turn commits exactly when the guardrail transfers from New, Qualification or Recommendation, or
      the responder answers. A decision it commits comes with the transfer it decided. */
  lemma TurnOutcome(db: Db, id: ConvId, input: TurnInput, now: Time)
    requires id < |db.conversations| && OwnerMatchesState(db.conversations[id])
    ensures var before := db.conversations[id];
            HandleMessage(db, id, input, now).Ok? <==>
            if input.bypass.Some? then before.state in {New, Qualification, Recommendation} else input.reply.Some?
    ensures HandleMessage(db, id, input, now).Ok? ==>
            TurnDid(db, HandleMessage(db, id, input, now).value, id, input, now)
  {
    if HandleMessage(db, id, input, now).Ok? {
      if input.bypass.Some? {
        TransferDid(db, id, input, now);
      } else if db.conversations[id].state == New {
        FirstTurnDid(db, id, input, now);
      }
    }
  }

  /** A message of an unknown conversation is dropped; a turn that does not commit raised for its transition, or for its
      responder. */
  lemma TurnRefusals(db: Db, id: ConvId, input: TurnInput, now: Time)
    requires id < |db.conversations| ==> OwnerMatchesState(db.conversations[id])
    ensures id >= |db.conversations| ==> HandleMessage(db, id, input, now) == Ok(db)
    ensures id < |db.conversations| && HandleMessage(db, id, input, now).Err? ==>
              HandleMessage(db, id, input, now)
                == Err(if input.bypass.Some? then InvalidTransition(db.conversations[id].state, AssignedHuman)
                       else ResponderFailed)
  {
    if id < |db.conversations| { TurnOutcome(db, id, input, now); }
  }

  predicate EndsWith(text: string, end: string) { |end| <= |text| && text[|text| - |end|..] == end }

  /** A transfer to a broker the customer named says whom. */
  lemma TransferNamesTheBroker(db: Db, id: ConvId, input: TurnInput, broker: string, now: Time)
    requires id < |db.conversations| && OwnerMatchesState(db.conversations[id])
    requires input.bypass == Some(Some(broker)) && broker != ""
    requires HandleMessage(db, id, input, now).Ok?
    ensures var r := HandleMessage(db, id, input, now).value;
            |r.decisions| == |db.decisions| + 1 && EndsWith(r.decisions[|db.decisions|].explanation, broker)
  {
    TurnOutcome(db, id, input, now);
    var row := db.conversations[id].(lastContactAt := now);
    var text := Evaluate(row, Some(broker), true).value.explanation;
    assert text == "The customer asked for " + broker;
    assert EndsWith(text, broker);
  }

  lemma TransferDid(db: Db, id: ConvId, input: TurnInput, now: Time)
    requires id < |db.conversations| && OwnerMatchesState(db.conversations[id]) && input.bypass.Some?
    requires HandleMessage(db, id, input, now).Ok?
    ensures TurnDid(db, HandleMessage(db, id, input, now).value, id, input, now)
  {
    var before := db.conversations[id];
    var row := before.(lastContactAt := now);
    var r := HandleMessage(db, id, input, now).value;
    var d := ToDecisionRow(row.org, id, Evaluate(row, input.bypass.value, true).value);
    var t := OwnershipTransferred(row.org, id, before.ownership.ownerType, Human, d.explanation);
    assert TransferToHuman(db, id, row, input.bypass.value, now).value.events == [t];
    assert DecidesWith(db, r, id, before, r.conversations[id], d, t, None, now);
  }

  lemma FirstTurnDid(db: Db, id: ConvId, input: TurnInput, now: Time)
    requires id < |db.conversations| && OwnerMatchesState(db.conversations[id])
    requires input.bypass.None? && db.conversations[id].state == New
    requires HandleMessage(db, id, input, now).Ok?
    ensures TurnDid(db, HandleMessage(db, id, input, now).value, id, input, now)
  {
    var before := db.conversations[id];
    var row := before.(lastContactAt := now);
    var r := HandleMessage(db, id, input, now).value;
    var d := ToDecisionRow(row.org, id, Evaluate(row, None, false).value);
    var t := OwnershipTransferred(row.org, id, Unassigned, AI, d.explanation);
    assert ConversationalTurn(db, id, row, input.reply, now).value.events == DecisionEvents(before, id, t, input.reply);
    assert DecidesWith(db, r, id, before, r.conversations[id], d, t, input.reply, now);
  }

  /** What a committed turn wrote: the conversation's own row and, exactly when the guardrail transfers or the
      conversation is new, one decision with its transfer; otherwise only the time and the reply. */
  ghost predicate TurnDid(db: Db, r: Db, id: ConvId, input: TurnInput, now: Time) {
    && id < |db.conversations| == |r.conversations|
    && var before, after := db.conversations[id], r.conversations[id];
    && r == db.(conversations := db.conversations[id := after], decisions := r.decisions, outbox := r.outbox)
    && OwnerMatchesState(after)
    && after.leadId == before.leadId && after.org == before.org && after.chatwootId == before.chatwootId
    && after.contactReference == before.contactReference && after.lastContactAt == now
    && (input.bypass.Some? ==> after.state == AssignedHuman)
    && (input.bypass.None? && before.state == New ==> after.state == Qualification)
    && (if input.bypass.Some? || before.state == New
        then Decides(db, r, id, before, after, if input.bypass.Some? then None else input.reply, now)
        else && after == before.(lastContactAt := now) && r.decisions == db.decisions && input.reply.Some?
             && r.outbox
                == db.outbox + FreshRows([ResponseReady(before.org, id, before.chatwootId, input.reply.value)], now))
  }

  /** One decision row and one transfer event that carries it, from the owner there was to the owner there is. */
  ghost predicate Decides(
      db: Db, r: Db, id: ConvId, before: ConversationRow, after: ConversationRow, reply: Option<string>, now: Time)
  {
    exists d, t :: DecidesWith(db, r, id, before, after, d, t, reply, now)
  }

  function DecisionEvents(before: ConversationRow, id: ConvId, t: Event, reply: Option<string>): seq<Event> {
    if reply.Some? then [t, ResponseReady(before.org, id, before.chatwootId, reply.value)] else [t]
  }

  predicate DecidesWith(
    db: Db, r: Db, id: ConvId, before: ConversationRow, after: ConversationRow, d: DecisionRow, t: Event,
    reply: Option<string>, now: Time)
  {
    && d.convId == id && d.org == before.org && d.ownerId.None?
    && t.OwnershipTransferred? && t.convId == id && t.org == before.org
    && t.fromOwner == before.ownership.ownerType
    && t.toOwner == d.selectedOwner == after.ownership.ownerType
    && t.fromOwner != t.toOwner
    && d.scenario == (if t.toOwner == Human then "scenario_8_broker_requested" else "scenario_1_never_human")
    && after.ownership == Ownership(t.toOwner, None, now, d.explanation) && t.explanation == d.explanation
    && after.state == (if t.toOwner == Human then AssignedHuman else Qualification)
    && r.decisions == db.decisions + [d]
    && r.outbox == db.outbox + FreshRows(DecisionEvents(before, id, t, reply), now)
  }

  lemma TurnKeepsConversations(db: Db, threshold: real, id: ConvId, input: TurnInput, now: Time)
    requires ConversationsOk(db, threshold)
    requires HandleMessage(db, id, input, now).Ok?
    ensures ConversationsOk(HandleMessage(db, id, input, now).value, threshold)
  {
    if id < |db.conversations| {
      assert ConversationOk(db, Log(db.outbox), threshold, id);
      TurnOutcome(db, id, input, now);
      TurnDidKeepsConversations(db, HandleMessage(db, id, input, now).value, threshold, id, input, now);
    }
  }

  lemma TurnDidKeepsConversations(db: Db, r: Db, threshold: real, id: ConvId, input: TurnInput, now: Time)
    requires ConversationsOk(db, threshold)
    requires TurnDid(db, r, id, input, now)
    ensures ConversationsOk(r, threshold)
  {
    var before, after := db.conversations[id], r.conversations[id];
    if input.bypass.Some? || before.state == New {
      var reply := if input.bypass.Some? then None else input.reply;
      var d, t :| DecidesWith(db, r, id, before, after, d, t, reply, now);
      DecidedTurnKeepsConversations(db, r, threshold, id, before, after, d, t, reply, now);
    } else {
      AnsweredTurnKeepsConversations(db, r, threshold, id, input.reply.value, now);
    }
  }

  lemma AnsweredTurnKeepsConversations(db: Db, r: Db, threshold: real, id: ConvId, reply: string, now: Time)
    requires ConversationsOk(db, threshold)
    requires id < |db.conversations|
    requires var before := db.conversations[id];
             r == db.(conversations := db.conversations[id := before.(lastContactAt := now)],
                      outbox := db.outbox + FreshRows([ResponseReady(before.org, id, before.chatwootId, reply)], now))
    ensures ConversationsOk(r, threshold)
  {
    var before := db.conversations[id];
    var e := ResponseReady(before.org, id, before.chatwootId, reply);
    NoTransfersAdded(Log(db.outbox), [e], id);
    assert Log(r.outbox) == Log(db.outbox) + [e];
    assert ConversationOk(db, Log(db.outbox), threshold, id);
    assert ConversationOk(r, Log(r.outbox), threshold, id);
    OneConversationTold(db, r, threshold, id, e);
  }

  lemma DecidedTurnKeepsConversations(
    db: Db, r: Db, threshold: real, id: ConvId, before: ConversationRow, after: ConversationRow, d: DecisionRow,
    t: Event,
    reply: Option<string>, now: Time)
    requires ConversationsOk(db, threshold)
    requires id < |db.conversations| && before == db.conversations[id]
    requires r == db.(conversations := db.conversations[id := after], decisions := r.decisions, outbox := r.outbox)
    requires OwnerMatchesState(after) && after.leadId == before.leadId
    requires DecidesWith(db, r, id, before, after, d, t, reply, now)
    ensures ConversationsOk(r, threshold)
  {
    var events := DecisionEvents(before, id, t, reply);
    assert Log(r.outbox) == Log(db.outbox) + events;
    DecidedIsOk(db, r, threshold, id, d, t, events);
    SameLeads(db, r, threshold);
    OneConversationChanged(db, r, threshold, id, after, [d], events);
  }

  /** The conversation a decision was about: its history grew by that decision and its transfer. */
  lemma DecidedIsOk(db: Db, r: Db, threshold: real, id: ConvId, d: DecisionRow, t: Event, events: seq<Event>)
    requires ConversationsOk(db, threshold)
    requires id < |db.conversations| && id < |r.conversations|
    requires r.leads == db.leads && r.profiles == db.profiles && r.decisions == db.decisions + [d]
    requires Log(r.outbox) == Log(db.outbox) + events
    requires d.convId == id && t.OwnershipTransferred? && t.convId == id
    requires t.fromOwner == db.conversations[id].ownership.ownerType && t.toOwner == d.selectedOwner
             && t.explanation == d.explanation
    requires |events| > 0 && events[0] == t && NoTransfers(events[1..])
    requires r.conversations[id].ownership.ownerType == t.toOwner
    requires OwnerMatchesState(r.conversations[id]) && r.conversations[id].leadId == db.conversations[id].leadId
    requires r.conversations[id].state != Recommendation
    ensures ConversationOk(r, Log(r.outbox), threshold, id)
  {
    assert ConversationOk(db, Log(db.outbox), threshold, id);
    DecisionKeepsLockstep(db.decisions, Log(db.outbox), id, t.fromOwner, d, t, events);
  }

  lemma DecisionAppended(decisions: seq<DecisionRow>, d: DecisionRow)
    ensures DecisionsOf(decisions + [d], d.convId) == DecisionsOf(decisions, d.convId) + [d]
  {
  }

  lemma TransferAppended(log: seq<Event>, t: Event, events: seq<Event>)
    requires t.OwnershipTransferred? && |events| > 0 && events[0] == t && NoTransfers(events[1..])
    ensures TransfersOf(log + events, t.convId) == TransfersOf(log, t.convId) + [t]
  {
    ProjectConcat(log, [t], TransferSel(t.convId));
    ProjectOne(t, TransferSel(t.convId));
    assert log + events == (log + [t]) + events[1..];
    NoTransfersAdded(log + [t], events[1..], t.convId);
  }

  lemma DecisionKeepsLockstep(
    decisions: seq<DecisionRow>, log: seq<Event>, id: ConvId, owner: OwnerType, d: DecisionRow, t: Event,
    events: seq<Event>)
    requires Lockstep(DecisionsOf(decisions, id), TransfersOf(log, id), owner)
    requires d.convId == id
    requires t.OwnershipTransferred? && t.convId == id && t.fromOwner == owner && t.toOwner == d.selectedOwner
             && t.explanation == d.explanation
    requires |events| > 0 && events[0] == t && NoTransfers(events[1..])
    ensures Lockstep(DecisionsOf(decisions + [d], id), TransfersOf(log + events, id), t.toOwner)
  {
    DecisionAppended(decisions, d);
    TransferAppended(log, t, events);
    LockstepGrows(DecisionsOf(decisions, id), TransfersOf(log, id), owner, d, t);
  }

  // ---- Decay -----------------------------------------------------------------------------------

  /** One conversation of the scan goes dormant as it was loaded, and publishes that. */
  lemma DecayOneKeepsConversations(m: Db, threshold: real, id: ConvId, now: Time)
    requires ConversationsOk(m, threshold)
    requires id < |m.conversations| && m.conversations[id].state in ACTIVE_STATES
    ensures DecayOne(m, id, m.conversations[id], now).Ok?
    ensures var r := DecayOne(m, id, m.conversations[id], now).value;
            && ConversationsOk(r, threshold)
            && DecayedOne(m, r, id, now)
  {
    var row := m.conversations[id];
    var r := DecayOne(m, id, row, now).value;
    var e := ConversationWentDormant(row.org, id, row.lastContactAt);
    assert r == Published(WithConversation(m, id, row.(state := Dormant)), [e], now);
    NoTransfersAdded(Log(m.outbox), [e], id);
    assert Log(r.outbox) == Log(m.outbox) + [e];
    assert ConversationOk(m, Log(m.outbox), threshold, id);
    assert ConversationOk(r, Log(r.outbox), threshold, id);
    OneConversationTold(m, r, threshold, id, e);
  }

  predicate DecayedOne(m: Db, r: Db, id: ConvId, now: Time) {
    && id < |m.conversations|
    && var row := m.conversations[id];
    && r == m.(conversations := m.conversations[id := row.(state := Dormant)],
               outbox := m.outbox + FreshRows([ConversationWentDormant(row.org, id, row.lastContactAt)], now))
  }

  lemma DecayedOneMore(db: Db, m: Db, r: Db, ids: seq<ConvId>, id: ConvId, now: Time)
    requires DecayedRows(db, m, ids, now) && DecayedOne(m, r, id, now)
    requires id !in ids && id < |db.conversations|
    ensures DecayedRows(db, r, ids + [id], now)
  {
    var row := m.conversations[id];
    assert row == db.conversations[id];
    assert r.outbox == m.outbox + [OutboxRow(WentDormant(row, id), now, None, 0, None)];
    forall k | 0 <= k < |ids + [id]|
      ensures AnnouncesDormancy(r.outbox[|db.outbox| + k], db, (ids + [id])[k], now)
    {
      if k < |ids| {
        assert AnnouncesDormancy(m.outbox[|db.outbox| + k], db, ids[k], now);
      }
    }
  }

  /** The scan, one conversation after the other. */
  lemma {:induction false} DecayKeepsConversations(db: Db, threshold: real, ids: seq<ConvId>, now: Time)
    requires ConversationsOk(db, threshold)
    requires forall i :: 0 <= i < |ids| ==>
             ids[i] < |db.conversations| && db.conversations[ids[i]].state in ACTIVE_STATES
    requires Distinct(ids)
    ensures DecayAll(db, db.conversations, ids, now).Ok?
    ensures ConversationsOk(DecayAll(db, db.conversations, ids, now).value, threshold)
    ensures DecayedRows(db, DecayAll(db, db.conversations, ids, now).value, ids, now)
    decreases |ids|
  {
    if ids == [] {
      NothingDecayed(db, now);
    } else {
      var before, id := LastOfScan(ids);
      DecayKeepsConversations(db, threshold, before, now);
      var m := DecayAll(db, db.conversations, before, now).value;
      DecayLast(db, m, before, id, now);
      DecayStep(db, m, threshold, before, id, now);
    }
  }

  lemma LastOfScan(ids: seq<ConvId>) returns (before: seq<ConvId>, id: ConvId)
    requires ids != [] && Distinct(ids)
    ensures ids == before + [id] && |before| < |ids| && Distinct(before) && id !in before && id in ids
    ensures forall i :: 0 <= i < |before| ==> before[i] == ids[i]
  {
    before, id := ids[..|ids| - 1], ids[|ids| - 1];
  }

  lemma NothingDecayed(db: Db, now: Time)
    ensures DecayedRows(db, db, [], now)
  {
  }

  lemma DecayLast(db: Db, m: Db, ids: seq<ConvId>, id: ConvId, now: Time)
    requires (forall i :: 0 <= i < |ids| ==> ids[i] < |db.conversations|) && id < |db.conversations|
    requires DecayAll(db, db.conversations, ids, now) == Ok(m)
    ensures DecayAll(db, db.conversations, ids + [id], now) == DecayOne(m, id, db.conversations[id], now)
  {
    assert (ids + [id])[..|ids|] == ids;
  }

  lemma DecayStep(db: Db, m: Db, threshold: real, ids: seq<ConvId>, id: ConvId, now: Time)
    requires DecayedRows(db, m, ids, now) && ConversationsOk(m, threshold)
    requires id !in ids && id < |db.conversations| && db.conversations[id].state in ACTIVE_STATES
    ensures DecayOne(m, id, db.conversations[id], now).Ok?
    ensures var r := DecayOne(m, id, db.conversations[id], now).value;
            ConversationsOk(r, threshold) && DecayedRows(db, r, ids + [id], now)
  {
    assert m.conversations[id] == db.conversations[id];
    DecayOneKeepsConversations(m, threshold, id, now);
    DecayedOneMore(db, m, DecayOne(m, id, db.conversations[id], now).value, ids, id, now);
  }

  function WentDormant(row: ConversationRow, id: ConvId): Event {
    ConversationWentDormant(row.org, id, row.lastContactAt)
  }

  /** An unprocessed outbox row that says of conversation `id` whose it is and when it last heard of its customer. */
  predicate AnnouncesDormancy(row: OutboxRow, db: Db, id: ConvId, now: Time) {
    && id < |db.conversations|
    && row == OutboxRow(WentDormant(db.conversations[id], id), now, None, 0, None)
  }

  /** Exactly the named conversations are dormant now and nothing else of them changed; the outbox has grown by exactly
      one row for each, in the order they were named. */
  ghost predicate DecayedRows(db: Db, r: Db, ids: seq<ConvId>, now: Time) {
    && r == db.(conversations := r.conversations, outbox := r.outbox)
    && |r.conversations| == |db.conversations|
    && (forall id: ConvId :: id < |db.conversations| ==>
          r.conversations[id] == if id in ids then db.conversations[id].(state := Dormant) else db.conversations[id])
    && |r.outbox| == |db.outbox| + |ids| && r.outbox[..|db.outbox|] == db.outbox
    && forall k :: 0 <= k < |ids| ==> AnnouncesDormancy(r.outbox[|db.outbox| + k], db, ids[k], now)
  }

  /** The events of such a scan. */
  lemma DecayedEvents(db: Db, r: Db, ids: seq<ConvId>, now: Time) returns (events: seq<Event>)
    requires DecayedRows(db, r, ids, now)
    ensures OnlyDormant(events) && r.outbox == db.outbox + FreshRows(events, now)
  {
    events := seq(|ids|, k requires 0 <= k < |ids| => r.outbox[|db.outbox| + k].event);
    forall k | 0 <= k < |ids|
      ensures events[k].ConversationWentDormant? && r.outbox[|db.outbox| + k] == FreshRow(events[k], now)
    {
      assert AnnouncesDormancy(r.outbox[|db.outbox| + k], db, ids[k], now);
    }
    assert r.outbox == r.outbox[..|db.outbox|] + r.outbox[|db.outbox|..];
    assert r.outbox[|db.outbox|..] == FreshRows(events, now);
  }

  predicate OnlyDormant(events: seq<Event>) {
    forall i :: 0 <= i < |events| ==> events[i].ConversationWentDormant?
  }

  // ---- Recommendation and webhook --------------------------------------------------------------

  lemma DeliveryKeepsConversations(
      db: Db, r: Db, threshold: real, id: ConvId, org: OrgId, lead: LeadId, text: string, now: Time)
    requires ConversationsOk(db, threshold)
    requires DeliversTo(db, r, id, org, lead, text, now)
    requires IsComplete(db, lead, threshold)
    ensures ConversationsOk(r, threshold)
  {
    var row := db.conversations[id];
    var e := ResponseReady(org, id, row.chatwootId, text);
    NoTransfersAdded(Log(db.outbox), [e], id);
    assert Log(r.outbox) == Log(db.outbox) + [e];
    assert ConversationOk(db, Log(db.outbox), threshold, id);
    assert ConversationOk(r, Log(r.outbox), threshold, id);
    OneConversationTold(db, r, threshold, id, e);
  }

  lemma WebhookKeepsConversations(db: Db, r: Db, threshold: real, org: OrgId, p: Payload, now: Time, id: ConvId)
    requires ConversationsOk(db, threshold)
    requires AddsMessage(db, r, org, p, now, id)
    ensures ConversationsOk(r, threshold)
  {
    var e := ToEvent(Archived(org, id, p, now), p.conversationId);
    MessageTables(db, r, org, p, now, id);
    MessageRowIsOk(db, r, threshold, org, p, now, id, e);
    OneConversationTold(db, r, threshold, id, e);
  }

  lemma MessageRowIsOk(db: Db, r: Db, threshold: real, org: OrgId, p: Payload, now: Time, id: ConvId, e: Event)
    requires ConversationsOk(db, threshold)
    requires AddsMessage(db, r, org, p, now, id)
    requires e.MessageReceived? && Log(r.outbox) == Log(db.outbox) + [e]
    ensures id <= |db.conversations| && id < |r.conversations|
    ensures ConversationOk(r, Log(r.outbox), threshold, id)
  {
    if id < |db.conversations| {
      MessagedIsOk(db, r, threshold, org, p, now, id, e);
    } else {
      NewcomerIsOk(db, r, threshold, org, p, now, id, e);
    }
  }

  /** A stored conversation that got a message: state, owner and history are as they were. */
  lemma MessagedIsOk(db: Db, r: Db, threshold: real, org: OrgId, p: Payload, now: Time, id: ConvId, e: Event)
    requires ConversationsOk(db, threshold)
    requires AddsMessage(db, r, org, p, now, id) && id < |db.conversations|
    requires e.MessageReceived? && Log(r.outbox) == Log(db.outbox) + [e]
    ensures ConversationOk(r, Log(r.outbox), threshold, id)
  {
    assert ConversationOk(db, Log(db.outbox), threshold, id);
    NoTransfersAdded(Log(db.outbox), [e], id);
  }

  /** A new conversation: unassigned, with no history. */
  lemma NewcomerIsOk(db: Db, r: Db, threshold: real, org: OrgId, p: Payload, now: Time, id: ConvId, e: Event)
    requires ConversationsOk(db, threshold)
    requires AddsMessage(db, r, org, p, now, id) && id == |db.conversations|
    requires e.MessageReceived? && Log(r.outbox) == Log(db.outbox) + [e]
    ensures ConversationOk(r, Log(r.outbox), threshold, id)
  {
    NewHistory(db.decisions, Log(db.outbox), id);
    NoTransfersAdded(Log(db.outbox), [e], id);
  }
}
