/** The consumers of `ProfileCompleted`: the stage push, and the recommendation that moves a
    conversation from qualification to recommendation. */
module RecommendationHandler {
  import opened Prelude
  import opened LeadDomain
  import opened Store
  import opened ConversationFsm
  import opened LeadSync
  import opened ProfileCapture

  function ConversationsByLead(conversations: seq<ConversationRow>, org: OrgId, lead: LeadId): set<nat> {
    set i | 0 <= i < |conversations| && conversations[i].org == org && conversations[i].leadId == Some(lead)
  }

  datatype Cleared = Cleared(db: Db, profile: BuyerProfile)

  /** What `search` does with what the guard let through, before it searches: load the profile, pass the gate. */
  function ClearAfterGuard(guard: Result<Db, Error>, lead: LeadId, threshold: real): Result<Cleared, Error> {
    var current :- guard;
    if lead !in current.profiles then Err(IncompleteProfile)
    else
      var profile :- FromRow(current.profiles[lead]);
      if Gate(profile, threshold).canAdvance then Ok(Cleared(current, profile)) else Err(IncompleteProfile)
  }

  function ClearForSearch(db: Db, lead: LeadId, threshold: real, bound: Time, answer: Option<Deal>, now: Time)
      : Result<Cleared, Error>
  {
    ClearAfterGuard(CheckBeforeDecision(db, lead, bound, answer, now), lead, threshold)
  }

  const THRESHOLD_REACHED: string := "BuyerProfile completeness threshold reached"

  /** The delivery half: one FSM edge from qualification, and the message in every state. */
  function Deliver(db: Db, id: ConvId, message: string, now: Time): Result<Db, Error>
    requires id < |db.conversations|
  {
    var row := db.conversations[id];
    var moved :-
      if row.state == Qualification then TransitionTo(id, row, Recommendation, THRESHOLD_REACHED, Keep, now)
      else Ok(Effect(row, []));
    Ok(Published(WithConversation(db, id, moved.row), [ResponseReady(row.org, id, row.chatwootId, message)], now))
  }

  /** `handle_profile_completed` of the recommendation module, once the guard has spoken: what is committed. An
      incomplete profile or a vanished lead drops the event with nothing committed, not even the refresh. */
  function HandleAfterGuard(
      db: Db, org: OrgId, lead: LeadId, guard: Result<Db, Error>, threshold: real, message: BuyerProfile -> string,
      now: Time)
      : Result<Db, Error>
  {
    match ClearAfterGuard(guard, lead, threshold)
    case Err(e) => if e == IncompleteProfile || e == LeadNotFound then Ok(db) else Err(e)
    case Ok(cleared) =>
      var found :- ScalarOneOrNone(ConversationsByLead(cleared.db.conversations, org, lead), MultipleResults);
      if found.None? then Ok(cleared.db)
      else
        assert found.value in ConversationsByLead(cleared.db.conversations, org, lead);
        Deliver(cleared.db, found.value, message(cleared.profile), now)
  }

  function HandleProfileCompleted(
    db: Db, org: OrgId, lead: LeadId, threshold: real, bound: Time, answer: Option<Deal>,
    message: BuyerProfile -> string, now: Time)
    : Result<Db, Error>
  {
    HandleAfterGuard(db, org, lead, CheckBeforeDecision(db, lead, bound, answer, now), threshold, message, now)
  }

  /** `handle_profile_completed` of the lead module: an unknown lead drops the event. */
  function HandleCrmPush(db: Db, lead: LeadId, answer: Option<Deal>, now: Time): Result<Db, Error> {
    match PushStage(db, lead, "system.event_bus", answer, now)
    case Err(e) => if e == LeadNotFound then Ok(db) else Err(e)
    case Ok(pushed) => Ok(pushed)
  }

  /** The handler over its own session; `after` is what the database holds when it returns. */
  method OnProfileCompleted(
    committed: Db, org: OrgId, lead: LeadId, threshold: real, bound: Time, answer: Option<Deal>,
    message: BuyerProfile -> string, now: Time)
    returns (r: Result<(), Error>, after: Db)
    ensures r.Ok? ==> HandleProfileCompleted(committed, org, lead, threshold, bound, answer, message, now) == Ok(after)
    ensures r.Err? ==>
            HandleProfileCompleted(committed, org, lead, threshold, bound, answer, message, now) == Err(r.error)
                       && after == committed
  {
    after := committed;
    var session := new Session(committed);
    var adapter := new LeadSyncAdapter(session);
    if lead >= |session.db.leads| {
      return Ok(()), after;
    }
    if now - session.db.leads[lead].syncedAt > bound {
      var resynced := adapter.ForceResyncLead(lead, "staleness_guard", answer, now);
      if resynced == Err(LeadNotFound) || resynced == Err(IncompleteProfile) {
        return Ok(()), after;
      }
      if resynced.Err? {
        return resynced, after;
      }
    }
    if lead !in session.db.profiles {
      return Ok(()), after;
    }
    var profile := FromRow(session.db.profiles[lead]);
    if profile.Err? {
      return if profile.error == IncompleteProfile || profile.error == LeadNotFound then Ok(())
        else Err(profile.error), after;
    }
    if !Gate(profile.value, threshold).canAdvance {
      return Ok(()), after;
    }
    var found := ScalarOneOrNone(ConversationsByLead(session.db.conversations, org, lead), MultipleResults);
    if found.Err? {
      return Err(found.error), after;
    }
    if found.value.None? {
      after := session.db;
      return Ok(()), after;
    }
    var id := found.value.value;
    assert id in ConversationsByLead(session.db.conversations, org, lead);
    var conversation := new Conversation.FromRow(id, session.db.conversations[id]);
    ghost var loaded := session.db;
    if conversation.state == Qualification {
      var moved := conversation.Transition(Recommendation, THRESHOLD_REACHED, Keep, now);
      assert moved.Ok?;
      session.SaveConversation(id, conversation.Row());
    }
    assert session.db == WithConversation(loaded, id, conversation.Row());
    session.Publish([ResponseReady(conversation.org, id, conversation.chatwootId, message(profile.value))], now);
    after := session.db;
    r := Ok(());
  }

  /** A search is cleared exactly when the guard lets the lead through and its profile is stored and at the
      threshold. */
  lemma ClearedMeansComplete(db: Db, lead: LeadId, threshold: real, bound: Time, answer: Option<Deal>, now: Time)
    ensures var guard := CheckBeforeDecision(db, lead, bound, answer, now);
            var cleared := ClearForSearch(db, lead, threshold, bound, answer, now);
            && (cleared.Ok? <==> guard.Ok? && IsComplete(guard.value, lead, threshold))
            && (cleared.Ok? ==>
                 cleared.value.db == guard.value && Ok(cleared.value.profile) == FromRow(guard.value.profiles[lead]))
  {
  }

  /** A recommendation that commits anything found the guarded lead complete. With one conversation linked to the lead
      it delivers to that one, with none it keeps the refresh only, with several it raises; an incomplete or vanished
      lead commits nothing. */
  lemma RecommendationEffect(
    db: Db, org: OrgId, lead: LeadId, threshold: real, bound: Time, answer: Option<Deal>,
    message: BuyerProfile -> string, now: Time)
    ensures var guard := CheckBeforeDecision(db, lead, bound, answer, now);
            var handled := HandleProfileCompleted(db, org, lead, threshold, bound, answer, message, now);
            HandledAfter(db, org, lead, guard, threshold, message, now, handled)
  {
    AfterGuardEffect(db, org, lead, CheckBeforeDecision(db, lead, bound, answer, now), threshold, message, now);
  }

  /** What the handler makes of what the guard let through: a vanished lead and an incomplete profile are dropped, every
      other trouble raises. */
  ghost predicate HandledAfter(
    db: Db, org: OrgId, lead: LeadId, guard: Result<Db, Error>, threshold: real,
    message: BuyerProfile -> string, now: Time, handled: Result<Db, Error>)
  {
    if guard.Ok? && IsComplete(guard.value, lead, threshold) then
      var current := guard.value;
      var linked := ConversationsByLead(current.conversations, org, lead);
      && (handled.Ok? <==> |linked| <= 1)
      && (|linked| > 1 ==> handled == Err(MultipleResults))
      && (linked == {} ==> handled == Ok(current))
      && (forall id :: linked == {id} ==>
            DeliversTo(current, handled.value, id, org, lead, message(FromRow(current.profiles[lead]).value), now))
    else if guard.Err? then
      handled == if guard.error == LeadNotFound || guard.error == IncompleteProfile then Ok(db) else Err(guard.error)
    else
      handled == if lead in guard.value.profiles && FromRow(guard.value.profiles[lead]).Err?
                 then Err(ProfileValidation) else Ok(db)
  }

  lemma AfterGuardEffect(
    db: Db, org: OrgId, lead: LeadId, guard: Result<Db, Error>, threshold: real, message: BuyerProfile -> string,
    now: Time)
    ensures HandledAfter(db, org, lead, guard, threshold, message, now,
                         HandleAfterGuard(db, org, lead, guard, threshold, message, now))
  {
    var cleared := ClearAfterGuard(guard, lead, threshold);
    if cleared.Ok? {
      var current := cleared.value.db;
      var linked := ConversationsByLead(current.conversations, org, lead);
      var found := ScalarOneOrNone<Error>(linked, MultipleResults);
      OneOrNoneFinds(linked);
      if found.Ok? && found.value.Some? {
        assert found.value.value in linked;
        var r := HandleAfterGuard(db, org, lead, guard, threshold, message, now).value;
        assert DeliversTo(current, r, found.value.value, org, lead, message(cleared.value.profile), now);
      }
    }
  }

  lemma OneOrNoneFinds(rows: set<nat>)
    ensures ScalarOneOrNone<Error>(rows, MultipleResults).Ok? <==> |rows| <= 1
    ensures forall id :: rows == {id} ==> ScalarOneOrNone<Error>(rows, MultipleResults) == Ok(Some(id))
    ensures |rows| == 1 ==> exists id :: rows == {id}
  {
    if |rows| == 1 {
      OnlyElement(rows);
      var id :| id in rows;
      assert rows == {id};
    }
  }

  /** Delivery to conversation `id`: linked to the lead, state moved only from qualification, one message. */
  ghost predicate DeliversTo(db: Db, r: Db, id: ConvId, org: OrgId, lead: LeadId, text: string, now: Time) {
    && id < |db.conversations|
    && var row := db.conversations[id];
    && row.org == org && row.leadId == Some(lead)
    && var after := row.(state := if row.state == Qualification then Recommendation else row.state);
    && r == Published(db.(conversations := db.conversations[id := after]),
         [ResponseReady(org, id, row.chatwootId, text)], now)
  }
}
