/** The conversation aggregate: its transition table, its mutators, and what any sequence of
    calls on it can do. */
module ConversationFsm {
  import opened Prelude
  import opened LeadDomain
  import opened Store

  const ACTIVE_STATES: set<ConversationState> :=
    {New, AIOwned, Qualification, Recommendation, Appointment, StateUnassigned, AssignedHuman, Visit, Negotiation}

  predicate IsClosed(s: ConversationState) { s.ClosedWon? || s.ClosedLost? }

  function AllowedTransitions(s: ConversationState): set<ConversationState> {
    match s
    case New => {AIOwned, AssignedHuman, OwnershipEvaluation}
    case AIOwned => {Qualification, AssignedHuman}
    case Qualification => {Recommendation, AssignedHuman}
    case Recommendation => {Appointment, AssignedHuman}
    case Appointment => {Visit, AssignedHuman}
    case Visit => {Negotiation, AssignedHuman, ClosedLost}
    case Negotiation => {ClosedWon, ClosedLost, AssignedHuman}
    case OwnershipEvaluation => {AIOwned, AssignedHuman, StateUnassigned}
    case StateUnassigned => {AIOwned, AssignedHuman}
    case AssignedHuman => {Visit, Negotiation, ClosedWon, ClosedLost}
    case Dormant => {Reactivated}
    case Reactivated => {OwnershipEvaluation}
    case ClosedWon => {}
    case ClosedLost => {}
  }

  /** Who the caller names as the new owner; the source passes no owner as `owner_type=None`. */
  datatype NewOwner = Keep | Assign(ownerType: OwnerType, ownerId: Option<BrokerId>)

  datatype Effect = Effect(row: ConversationRow, events: seq<Event>)

  /** `_replace_ownership`: the value is always replaced; the event is recorded only when the owner differs. */
  function ReplaceOwnership(
    id: ConvId, row: ConversationRow, ownerType: OwnerType, ownerId: Option<BrokerId>, reason: string,
    now: Time): Effect
  {
    var previous := row.ownership;
    Effect(
      row.(ownership := Ownership(ownerType, ownerId, now, reason)),
      if previous.ownerType != ownerType || previous.ownerId != ownerId
      then [OwnershipTransferred(row.org, id, previous.ownerType, ownerType, reason)]
      else [])
  }

  function TransitionTo(
    id: ConvId, row: ConversationRow, target: ConversationState, reason: string, owner: NewOwner, now: Time)
    : Result<Effect, Error>
  {
    if target !in AllowedTransitions(row.state) then Err(InvalidTransition(row.state, target))
    else
      var moved := row.(state := target);
      match owner
      case Keep => Ok(Effect(moved, []))
      case Assign(ownerType, ownerId) => Ok(ReplaceOwnership(id, moved, ownerType, ownerId, reason, now))
  }

  function DecayToDormant(id: ConvId, row: ConversationRow): Result<Effect, Error> {
    if row.state !in ACTIVE_STATES then Err(InvalidTransition(row.state, Dormant))
    else Ok(Effect(row.(state := Dormant), [ConversationWentDormant(row.org, id, row.lastContactAt)]))
  }

  /** The aggregate root with the events it has recorded and not yet handed over. */
  class Conversation {
    const id: ConvId
    const org: OrgId
    const chatwootId: string
    const contactReference: Option<string>
    var state: ConversationState
    var ownership: Ownership
    var lastContactAt: Time
    var leadId: Option<LeadId>
    var domainEvents: seq<Event>

    /** The stored form of the aggregate (`ConversationRepository._to_row`). */
    function Row(): ConversationRow
      reads this
    {
      ConversationRow(org, chatwootId, state, ownership, lastContactAt, contactReference, leadId)
    }

    constructor FromRow(id: ConvId, row: ConversationRow)
      ensures this.id == id && Row() == row && domainEvents == []
    {
      this.id := id;
      org := row.org;
      chatwootId := row.chatwootId;
      contactReference := row.contactReference;
      state := row.state;
      ownership := row.ownership;
      lastContactAt := row.lastContactAt;
      leadId := row.leadId;
      domainEvents := [];
    }

    method RecordEvent(e: Event)
      modifies this`domainEvents
      ensures domainEvents == old(domainEvents) + [e]
    {
      domainEvents := domainEvents + [e];
    }

    /** Hands over the recorded events and forgets them, so none is published twice. */
    method PullDomainEvents() returns (events: seq<Event>)
      modifies this`domainEvents
      ensures events == old(domainEvents) && domainEvents == []
    {
      events, domainEvents := domainEvents, [];
    }

    method LinkLead(lead: LeadId)
      modifies this`leadId
      ensures leadId == Some(lead)
    {
      leadId := Some(lead);
    }

    method Touch(at: Time)
      modifies this`lastContactAt
      ensures lastContactAt == at
    {
      lastContactAt := at;
    }

    method ReplaceOwner(ownerType: OwnerType, ownerId: Option<BrokerId>, reason: string, now: Time)
      modifies this`ownership, this`domainEvents
      ensures Row() == ReplaceOwnership(id, old(Row()), ownerType, ownerId, reason, now).row
      ensures domainEvents
              == old(domainEvents) + ReplaceOwnership(id, old(Row()), ownerType, ownerId, reason, now).events
    {
      var previous := ownership;
      ownership := Ownership(ownerType, ownerId, now, reason);
      if previous.ownerType != ownerType || previous.ownerId != ownerId {
        RecordEvent(OwnershipTransferred(org, id, previous.ownerType, ownerType, reason));
      }
    }

    /** A refused transition leaves state, owner, time, link and recorded events as they were. */
    method Transition(target: ConversationState, reason: string, owner: NewOwner, now: Time)
      returns (r: Result<Ownership, Error>)
      modifies this`state, this`ownership, this`domainEvents
      ensures r.Ok? <==> target in AllowedTransitions(old(state))
      ensures r.Err? ==> r.error == InvalidTransition(old(state), target)
                         && Row() == old(Row()) && domainEvents == old(domainEvents)
      ensures r.Ok? ==> r.value == ownership
      ensures r.Ok? ==> var effect := TransitionTo(id, old(Row()), target, reason, owner, now);
                        && effect.Ok?
                        && Row() == effect.value.row
                        && domainEvents == old(domainEvents) + effect.value.events
    {
      if target !in AllowedTransitions(state) {
        return Err(InvalidTransition(state, target));
      }
      state := target;
      match owner {
        case Keep =>
        case Assign(ownerType, ownerId) =>
          ReplaceOwner(ownerType, ownerId, reason, now);
      }
      r := Ok(ownership);
    }

    method Decay() returns (r: Result<(), Error>)
      modifies this`state, this`domainEvents
      ensures r.Ok? <==> old(state) in ACTIVE_STATES
      ensures r.Err? ==> r.error == InvalidTransition(old(state), Dormant)
                         && Row() == old(Row()) && domainEvents == old(domainEvents)
      ensures r.Ok? ==> var effect := DecayToDormant(id, old(Row()));
                        && effect.Ok?
                        && Row() == effect.value.row
                        && domainEvents == old(domainEvents) + effect.value.events
    {
      if state !in ACTIVE_STATES {
        return Err(InvalidTransition(state, Dormant));
      }
      state := Dormant;
      RecordEvent(ConversationWentDormant(org, id, lastContactAt));
      r := Ok(());
    }
  }

  // ---- What one call does ----------------------------------------------------------------------

  /** The table read backwards: where a state can be entered from, dormancy by the scan included. */
  function Predecessors(t: ConversationState): set<ConversationState> {
    match t
    case New => {}
    case AIOwned => {New, OwnershipEvaluation, StateUnassigned}
    case Qualification => {AIOwned}
    case Recommendation => {Qualification}
    case Appointment => {Recommendation}
    case Visit => {Appointment, AssignedHuman}
    case Negotiation => {Visit, AssignedHuman}
    case ClosedWon => {Negotiation, AssignedHuman}
    case ClosedLost => {Visit, Negotiation, AssignedHuman}
    case OwnershipEvaluation => {New, Reactivated}
    case StateUnassigned => {OwnershipEvaluation}
    case AssignedHuman =>
      {New, AIOwned, Qualification, Recommendation, Appointment, Visit, Negotiation, OwnershipEvaluation,
       StateUnassigned}
    case Dormant =>
      {New, AIOwned, Qualification, Recommendation, Appointment, Visit, Negotiation, StateUnassigned, AssignedHuman}
    case Reactivated => {Dormant}
  }

  /** Both readings have the same edges; a human can be called in from every state a customer is served in. */
  lemma EdgesAgree(s: ConversationState, t: ConversationState)
    ensures t in AllowedTransitions(s) || (s in ACTIVE_STATES && t == Dormant) <==> s in Predecessors(t)
    ensures s in ACTIVE_STATES && s != AssignedHuman ==> AssignedHuman in AllowedTransitions(s)
    ensures s in ACTIVE_STATES <==> !IsClosed(s) && !Asleep(s) && s != OwnershipEvaluation
  {
  }

  /** A transition along the table moves the state and nothing else of the row but, when an owner is named, the
      ownership: that owner, from now on, for that reason. It is announced exactly when the owner changes. */
  lemma TransitionOutcome(
    id: ConvId, row: ConversationRow, target: ConversationState, reason: string, owner: NewOwner, now: Time)
    ensures TransitionTo(id, row, target, reason, owner, now).Ok? <==>
            row.state in Predecessors(target) && target != Dormant
    ensures TransitionTo(id, row, target, reason, owner, now).Err? ==>
              TransitionTo(id, row, target, reason, owner, now) == Err(InvalidTransition(row.state, target))
    ensures TransitionTo(id, row, target, reason, owner, now).Ok? ==>
              var after, events := TransitionTo(id, row, target, reason, owner, now).value.row,
                                   TransitionTo(id, row, target, reason, owner, now).value.events;
              && after == row.(state := target, ownership := after.ownership)
              && (owner.Keep? ==> after.ownership == row.ownership && events == [])
              && (owner.Assign? ==>
                    && after.ownership.ownerType == owner.ownerType && after.ownership.ownerId == owner.ownerId
                    && after.ownership.since == now && after.ownership.reason == reason
                    && (events == [] <==>
                         (owner.ownerType, owner.ownerId) == (row.ownership.ownerType, row.ownership.ownerId))
                    && (events != [] ==>
                          events == [OwnershipTransferred(row.org, id, row.ownership.ownerType, owner.ownerType,
                            reason)]))
  {
    EdgesAgree(row.state, target);
  }

  // ---- What any sequence of calls can do to the state ------------------------------------------

  datatype Call = ToState(target: ConversationState, reason: string, owner: NewOwner, at: Time) | Decay

  /** One call on the aggregate; a call that raises leaves the row alone. */
  function AfterCall(id: ConvId, row: ConversationRow, call: Call): ConversationRow {
    var outcome :=
      match call
      case ToState(target, reason, owner, at) => TransitionTo(id, row, target, reason, owner, at)
      case Decay => DecayToDormant(id, row);
    if outcome.Ok? then outcome.value.row else row
  }

  /** The state before each of `calls` and after the last. */
  function Trace(id: ConvId, row: ConversationRow, calls: seq<Call>): (trace: seq<ConversationState>)
    ensures |trace| == |calls| + 1
    ensures trace[0] == row.state
    decreases |calls|
  {
    if calls == [] then [row.state]
    else [row.state] + Trace(id, AfterCall(id, row, calls[0]), calls[1..])
  }

  /** One step of a trace: standing still, a table edge, or decay from an active state. */
  predicate StateStep(s: ConversationState, t: ConversationState) {
    s == t || t in AllowedTransitions(s) || (s in ACTIVE_STATES && t == Dormant)
  }

  predicate Asleep(s: ConversationState) { s.Dormant? || s.Reactivated? }

  lemma {:induction false} TraceSteps(id: ConvId, row: ConversationRow, calls: seq<Call>, i: nat)
    requires i < |calls|
    ensures StateStep(Trace(id, row, calls)[i], Trace(id, row, calls)[i + 1])
    decreases i
  {
    var next := AfterCall(id, row, calls[0]);
    if i > 0 {
      TraceSteps(id, next, calls[1..], i - 1);
    } else {
      assert Trace(id, next, calls[1..])[0] == next.state;
    }
  }

  /** From `i` to `k` the conversation sleeps or is just reactivated; after `k` comes the evaluation. */
  predicate LeavesThroughGateway(trace: seq<ConversationState>, i: nat, k: nat) {
    && i <= k < |trace| - 1
    && trace[k] == Reactivated
    && trace[k + 1] == OwnershipEvaluation
    && forall m :: i <= m <= k ==> Asleep(trace[m])
  }

  /** Every way out of dormancy goes through Reactivated and then, immediately on leaving it,
      through OwnershipEvaluation; until then the conversation stays Dormant or Reactivated. */
  lemma {:induction false} SingleReentryGateway(id: ConvId, row: ConversationRow, calls: seq<Call>, i: nat, j: nat)
    requires i < j <= |calls|
    requires Trace(id, row, calls)[i] == Dormant
    requires !Asleep(Trace(id, row, calls)[j])
    ensures exists k :: i < k < j && LeavesThroughGateway(Trace(id, row, calls), i, k)
  {
    var trace := Trace(id, row, calls);
    var k := i;
    while Asleep(trace[k + 1])
      invariant i <= k < j
      invariant forall m :: i <= m <= k ==> Asleep(trace[m])
      decreases j - k
    {
      k := k + 1;
    }
    TraceSteps(id, row, calls, k);
    assert LeavesThroughGateway(trace, i, k);
  }

  /** A closed conversation never changes state again. */
  lemma {:induction false} ClosedIsFinal(id: ConvId, row: ConversationRow, calls: seq<Call>, i: nat, j: nat)
    requires i <= j <= |calls|
    requires IsClosed(Trace(id, row, calls)[i])
    ensures Trace(id, row, calls)[j] == Trace(id, row, calls)[i]
    decreases j - i
  {
    if i < j {
      TraceSteps(id, row, calls, i);
      ClosedIsFinal(id, row, calls, i + 1, j);
    }
  }

  /** A call sequence that closes a conversation from where it stands. */
  function ClosingCalls(s: ConversationState): seq<Call> {
    match s
    case ClosedWon => []
    case ClosedLost => []
    case AssignedHuman => [ToState(ClosedWon, "", Keep, 0)]
    case Visit => [ToState(ClosedLost, "", Keep, 0)]
    case Negotiation => [ToState(ClosedWon, "", Keep, 0)]
    case Dormant =>
      [ToState(Reactivated, "", Keep, 0), ToState(OwnershipEvaluation, "", Keep, 0),
       ToState(AssignedHuman, "", Keep, 0), ToState(ClosedWon, "", Keep, 0)]
    case Reactivated =>
      [ToState(OwnershipEvaluation, "", Keep, 0), ToState(AssignedHuman, "", Keep, 0), ToState(ClosedWon, "", Keep, 0)]
    case _ => [ToState(AssignedHuman, "", Keep, 0), ToState(ClosedWon, "", Keep, 0)]
  }

  /** No conversation is ever stuck: from every state some sequence of calls closes it. */
  lemma EveryStateCanClose(id: ConvId, row: ConversationRow)
    ensures exists calls :: IsClosed(Trace(id, row, calls)[|calls|])
  {
    var calls := ClosingCalls(row.state);
    RunClosing(id, row);
    assert IsClosed(Trace(id, row, calls)[|calls|]);
  }

  lemma RunClosing(id: ConvId, row: ConversationRow)
    ensures IsClosed(Trace(id, row, ClosingCalls(row.state))[|ClosingCalls(row.state)|])
    decreases |ClosingCalls(row.state)|
  {
    var calls := ClosingCalls(row.state);
    if calls != [] {
      var next := AfterCall(id, row, calls[0]);
      assert calls[1..] == ClosingCalls(next.state);
      RunClosing(id, next);
    }
  }
}
