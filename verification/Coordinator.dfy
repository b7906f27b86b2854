/** Ownership policy, the coordinator's turn on a message, and the dormancy scan. */
module Coordinator {
  import opened Prelude
  import opened LeadDomain
  import opened Store
  import opened ConversationFsm

  // ---- Ownership policy ------------------------------------------------------------------------

  datatype Decision = Decision(scenario: string, selectedOwner: OwnerType, ownerId: Option<BrokerId>,
    explanation: string)

  const NEVER_HUMAN: string := "Conversation without a human broker: the AI takes ownership"

  function BrokerExplanation(brokerRequested: Option<string>): string {
    "The customer asked for "
    + if brokerRequested.Some? && brokerRequested.value != "" then brokerRequested.value else "a human adviser"
  }

  /** `OwnershipPolicyEngine.evaluate`: a bypass always goes to a human, a conversation no human
      owned goes to the AI, and every other scenario is refused explicitly. */
  function Evaluate(row: ConversationRow, brokerRequested: Option<string>, bypass: bool): Result<Decision, Error> {
    if bypass then Ok(Decision("scenario_8_broker_requested", Human, None, BrokerExplanation(brokerRequested)))
    else if row.ownership.ownerType == Unassigned || row.ownership.ownerType == AI
    then Ok(Decision("scenario_1_never_human", AI, None, NEVER_HUMAN))
    else Err(NotImplementedPlaceholder)
  }

  function ToDecisionRow(org: OrgId, id: ConvId, d: Decision): DecisionRow {
    DecisionRow(org, id, d.scenario, d.selectedOwner, d.ownerId, d.explanation)
  }

  // ---- One turn --------------------------------------------------------------------------------

  /** What the guardrail and the responder answer: an optional bypass with the broker it names, and
      the reply, absent when the responder raises. */
  datatype TurnInput = TurnInput(bypass: Option<Option<string>>, reply: Option<string>)

  const QUALIFYING: string := "Ownership assigned to AI; beginning conversational qualification"

  datatype TurnResult = TurnResult(db: Db, row: ConversationRow, events: seq<Event>)

  function WithDecision(db: Db, row: DecisionRow): Db {
    db.(decisions := db.decisions + [row])
  }

  /** `_transfer_to_human`: the decision is written first, then the transition may still refuse. */
  function TransferToHuman(db: Db, id: ConvId, row: ConversationRow, broker: Option<string>, now: Time)
    : Result<TurnResult, Error>
  {
    var d :- Evaluate(row, broker, true);
    var moved :- TransitionTo(id, row, AssignedHuman, d.explanation, Assign(Human, d.ownerId), now);
    Ok(TurnResult(WithDecision(db, ToDecisionRow(row.org, id, d)), moved.row, moved.events))
  }

  /** The first turn of a new conversation: the AI takes it and moves on to qualification at once. */
  function TakeOwnership(db: Db, id: ConvId, row: ConversationRow, now: Time): Result<TurnResult, Error> {
    var d :- Evaluate(row, None, false);
    var owned :- TransitionTo(id, row, AIOwned, d.explanation, Assign(AI, None), now);
    var qualifying :- TransitionTo(id, owned.row, Qualification, QUALIFYING, Keep, now);
    Ok(TurnResult(WithDecision(db, ToDecisionRow(row.org, id, d)), qualifying.row, owned.events + qualifying.events))
  }

  /** `_conversational_turn`. */
  function ConversationalTurn(db: Db, id: ConvId, row: ConversationRow, reply: Option<string>, now: Time)
    : Result<TurnResult, Error>
  {
    var taken :- if row.state == New then TakeOwnership(db, id, row, now) else Ok(TurnResult(db, row, []));
    if reply.None? then Err(ResponderFailed)
    else Ok(taken.(events := taken.events + [ResponseReady(row.org, id, row.chatwootId, reply.value)]))
  }

  /** `handle_message`: an unknown conversation drops the message; a turn that raises commits nothing. */
  function HandleMessage(db: Db, id: ConvId, input: TurnInput, now: Time): Result<Db, Error> {
    if id >= |db.conversations| then Ok(db)
    else
      var row := db.conversations[id].(lastContactAt := now);
      var turn :-
        if input.bypass.Some? then TransferToHuman(db, id, row, input.bypass.value, now)
        else ConversationalTurn(db, id, row, input.reply, now);
      Ok(Published(WithConversation(turn.db, id, turn.row), turn.events, now))
  }

  class CoordinatorAgent {
    const session: Session

    constructor (session: Session)
      ensures this.session == session
    {
      this.session := session;
    }

    method TransferConversation(conversation: Conversation, broker: Option<string>, now: Time)
        returns (r: Result<(), Error>)
      requires conversation.domainEvents == []
      modifies session, conversation
      ensures r.Ok? ==> (TransferToHuman(old(session.db), conversation.id, old(conversation.Row()), broker, now)
                         == Ok(TurnResult(session.db, conversation.Row(), conversation.domainEvents)))
      ensures r.Err? ==>
              TransferToHuman(old(session.db), conversation.id, old(conversation.Row()), broker, now) == Err(r.error)
                         && conversation.Row() == old(conversation.Row()) && conversation.domainEvents == []
    {
      var d := Evaluate(conversation.Row(), broker, true).value;
      session.AddDecision(ToDecisionRow(conversation.org, conversation.id, d));
      ghost var effect := TransitionTo(conversation.id, conversation.Row(), AssignedHuman, d.explanation,
        Assign(Human, d.ownerId), now);
      var moved := conversation.Transition(AssignedHuman, d.explanation, Assign(Human, d.ownerId), now);
      if moved.Err? {
        return Err(moved.error);
      }
      assert conversation.domainEvents == effect.value.events;
      r := Ok(());
    }

    method Converse(conversation: Conversation, reply: Option<string>, now: Time) returns (r: Result<string, Error>)
      requires conversation.domainEvents == []
      modifies session, conversation
      ensures r.Ok? ==> Some(r.value) == reply
                        && ConversationalTurn(old(session.db), conversation.id, old(conversation.Row()), reply, now)
                        == Ok(TurnResult(session.db, conversation.Row(), conversation.domainEvents))
      ensures r.Err? ==>
              ConversationalTurn(old(session.db), conversation.id, old(conversation.Row()), reply, now) == Err(r.error)
    {
      ghost var first := conversation.Row();
      if conversation.state == New {
        var decision := Evaluate(conversation.Row(), None, false);
        if decision.Err? {
          return Err(decision.error);
        }
        var d := decision.value;
        session.AddDecision(ToDecisionRow(conversation.org, conversation.id, d));
        ghost var effect := TransitionTo(conversation.id, first, AIOwned, d.explanation, Assign(AI, None), now);
        var owned := conversation.Transition(AIOwned, d.explanation, Assign(AI, None), now);
        assert owned.Ok?;
        assert conversation.Row() == effect.value.row && conversation.domainEvents == effect.value.events;
        var qualifying := conversation.Transition(Qualification, QUALIFYING, Keep, now);
        assert qualifying.Ok?;
        assert conversation.domainEvents == effect.value.events + [];
      }
      if reply.None? {
        return Err(ResponderFailed);
      }
      conversation.RecordEvent(ResponseReady(conversation.org, conversation.id, conversation.chatwootId, reply.value));
      r := Ok(reply.value);
    }

    method Handle(id: ConvId, input: TurnInput, now: Time) returns (r: Result<(), Error>)
      modifies session
      ensures r.Ok? ==> HandleMessage(old(session.db), id, input, now) == Ok(session.db)
      ensures r.Err? ==> HandleMessage(old(session.db), id, input, now) == Err(r.error)
    {
      if id >= |session.db.conversations| {
        return Ok(());
      }
      var conversation := new Conversation.FromRow(id, session.db.conversations[id]);
      conversation.Touch(now);
      assert conversation.Row() == session.db.conversations[id].(lastContactAt := now);
      if input.bypass.Some? {
        var transferred := TransferConversation(conversation, input.bypass.value, now);
        if transferred.Err? {
          return Err(transferred.error);
        }
      } else {
        var reply := Converse(conversation, input.reply, now);
        if reply.Err? {
          return Err(reply.error);
        }
      }
      session.SaveConversation(id, conversation.Row());
      var events := conversation.PullDomainEvents();
      session.Publish(events, now);
      r := Ok(());
    }
  }

  // ---- Dormancy --------------------------------------------------------------------------------

  /** The scan's answer: every conversation in an active state whose last contact predates the cutoff, once. */
  predicate IsStaleList(db: Db, cutoff: Time, ids: seq<ConvId>) {
    && (forall i :: 0 <= i < |ids| ==>
          ids[i] < |db.conversations| && db.conversations[ids[i]].state in ACTIVE_STATES
            && db.conversations[ids[i]].lastContactAt < cutoff)
    && (forall i, j :: 0 <= i < j < |ids| ==> ids[i] != ids[j])
    && (forall id: ConvId ::
          (id < |db.conversations| && db.conversations[id].state in ACTIVE_STATES
            && db.conversations[id].lastContactAt < cutoff)
          ==> id in ids)
  }

  /** One conversation of the scan, which loaded `row` for it. */
  function DecayOne(db: Db, id: ConvId, row: ConversationRow, now: Time): Result<Db, Error>
    requires id < |db.conversations|
  {
    var effect :- DecayToDormant(id, row);
    Ok(Published(WithConversation(db, id, effect.row), effect.events, now))
  }

  /** The scan loaded the rows of `loaded` before changing any. */
  function DecayAll(db: Db, loaded: seq<ConversationRow>, ids: seq<ConvId>, now: Time): (r: Result<Db, Error>)
    requires |loaded| == |db.conversations|
    requires forall i :: 0 <= i < |ids| ==> ids[i] < |loaded|
    ensures r.Ok? ==> |r.value.conversations| == |db.conversations|
  {
    if ids == [] then Ok(db)
    else
      var n := |ids| - 1;
      var before :- DecayAll(db, loaded, ids[..n], now);
      DecayOne(before, ids[n], loaded[ids[n]], now)
  }

  /** `decay_inactive_conversations`. */
  method DecayInactive(session: Session, cutoff: Time, ids: seq<ConvId>, now: Time) returns (r: Result<nat, Error>)
    requires IsStaleList(session.db, cutoff, ids)
    modifies session
    ensures r == Ok(|ids|)
    ensures DecayAll(old(session.db), old(session.db).conversations, ids, now) == Ok(session.db)
  {
    ghost var start := session.db;
    var loaded := session.db.conversations;
    var i := 0;
    while i < |ids|
      invariant 0 <= i <= |ids|
      invariant |session.db.conversations| == |loaded|
      invariant DecayAll(start, loaded, ids[..i], now) == Ok(session.db)
    {
      assert ids[..i + 1][..i] == ids[..i];
      var conversation := new Conversation.FromRow(ids[i], loaded[ids[i]]);
      ghost var effect := DecayToDormant(ids[i], loaded[ids[i]]);
      var decayed := conversation.Decay();
      session.SaveConversation(ids[i], conversation.Row());
      var events := conversation.PullDomainEvents();
      assert events == effect.value.events;
      session.Publish(events, now);
      i := i + 1;
    }
    assert ids[..i] == ids;
    r := Ok(|ids|);
  }
}
