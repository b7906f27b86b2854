/** The tables every module writes, the events they exchange, and the session of one transaction. A row's id is its
    position: ids are never reused, nothing is deleted. */
module Store {
  import opened Prelude
  import opened LeadDomain

  type OrgId = nat
  type ConvId = nat
  type LeadId = nat
  type EventId = nat
  type BrokerId = nat

  datatype ConversationState =
    | New | AIOwned | Qualification | Recommendation | Appointment | OwnershipEvaluation | StateUnassigned
    | AssignedHuman | Visit | Negotiation | Dormant | Reactivated | ClosedWon | ClosedLost

  datatype OwnerType = AI | Human | Unassigned

  datatype Ownership = Ownership(ownerType: OwnerType, ownerId: Option<BrokerId>, since: Time, reason: string)

  datatype Error =
    | InvalidTransition(current: ConversationState, target: ConversationState)
    | NotImplementedPlaceholder
    | MultipleResults
    | StageNotInContract
    | ProfileValidation
    | LeadNotFound
    | IncompleteProfile
    | AccessDenied
    | HttpFailure
    | PaginationDidNotEnd
    | ResponderFailed
    | UnknownOrganization
    | Unprocessable

  datatype Event =
    | MessageReceived(org: OrgId, convId: ConvId, chatwootId: string, sender: string, text: string, timestamp: Time)
    | ResponseReady(org: OrgId, convId: ConvId, chatwootId: string, response: string)
    | OwnershipTransferred(org: OrgId, convId: ConvId, fromOwner: OwnerType, toOwner: OwnerType, explanation: string)
    | ConversationWentDormant(org: OrgId, convId: ConvId, lastContactAt: Time)
    | CRMStageSynced(org: OrgId, leadId: LeadId, crmLeadId: string, stage: PipelineStage, syncedAt: Time)
    | ProfileCompleted(org: OrgId, leadId: LeadId, crmLeadId: string, completeness: real, profile: BuyerProfile)
    | NeighborhoodEnriched(forLead: LeadId, propertyId: nat, places: seq<string>)

  function EventType(e: Event): string {
    match e
    case MessageReceived(_, _, _, _, _, _) => "MessageReceived"
    case ResponseReady(_, _, _, _) => "ResponseReady"
    case OwnershipTransferred(_, _, _, _, _) => "OwnershipTransferred"
    case ConversationWentDormant(_, _, _) => "ConversationWentDormant"
    case CRMStageSynced(_, _, _, _, _) => "CRMStageSynced"
    case ProfileCompleted(_, _, _, _, _) => "ProfileCompleted"
    case NeighborhoodEnriched(_, _, _) => "NeighborhoodEnriched"
  }

  datatype OutboxRow = OutboxRow(
    event: Event, occurredAt: Time, processedAt: Option<Time>, attempts: nat, lastError: Option<string>)

  datatype ConversationRow = ConversationRow(
    org: OrgId,
    chatwootId: string,
    state: ConversationState,
    ownership: Ownership,
    lastContactAt: Time,
    contactReference: Option<string>,
    leadId: Option<LeadId>)

  datatype ArchivedMessage = ArchivedMessage(
    org: OrgId, convId: ConvId, messageId: string, sender: string, content: string, timestamp: Time)

  datatype DecisionRow = DecisionRow(
    org: OrgId, convId: ConvId, scenario: string, selectedOwner: OwnerType, ownerId: Option<BrokerId>,
    explanation: string)

  datatype LeadRow = LeadRow(
    org: OrgId,
    crmLeadId: string,
    stage: PipelineStage,
    score: real,
    broker: Option<BrokerId>,
    contactReference: Option<string>,
    syncedAt: Time)

  datatype ProfileRow = ProfileRow(
    budgetMin: Option<real>,
    budgetMax: Option<real>,
    locations: seq<string>,
    propertyType: Option<string>,
    timeline: Option<string>,
    mustHaves: seq<string>,
    updatedAt: Time)

  datatype AuditRow = AuditRow(org: OrgId, actor: string, action: string, crmLeadId: Option<string>, allowed: bool)

  datatype Db = Db(
    orgs: set<OrgId>,
    outbox: seq<OutboxRow>,
    inbox: set<(string, EventId)>,
    conversations: seq<ConversationRow>,
    archive: seq<ArchivedMessage>,
    decisions: seq<DecisionRow>,
    leads: seq<LeadRow>,
    profiles: map<LeadId, ProfileRow>,
    cursors: map<OrgId, Time>,
    audit: seq<AuditRow>)

  /** The events of an outbox, in the order they were published. */
  function Log(outbox: seq<OutboxRow>): (log: seq<Event>)
    ensures |log| == |outbox|
    ensures forall i :: 0 <= i < |log| ==> log[i] == outbox[i].event
  {
    seq(|outbox|, i requires 0 <= i < |outbox| => outbox[i].event)
  }

  function FreshRow(event: Event, now: Time): OutboxRow {
    OutboxRow(event, now, None, 0, None)
  }

  function FreshRows(events: seq<Event>, now: Time): (rows: seq<OutboxRow>)
    ensures |rows| == |events|
    ensures forall i :: 0 <= i < |rows| ==> rows[i] == FreshRow(events[i], now)
  {
    seq(|events|, i requires 0 <= i < |events| => FreshRow(events[i], now))
  }

  /** `publish`: one unprocessed outbox row per event, in the caller's transaction. */
  function Published(db: Db, events: seq<Event>, now: Time): (r: Db)
    ensures Log(r.outbox) == Log(db.outbox) + events
  {
    db.(outbox := db.outbox + FreshRows(events, now))
  }

  /** Each event is one new row at the end: stamped now, not processed, never attempted. */
  lemma PublishedRows(db: Db, events: seq<Event>, now: Time)
    ensures var r := Published(db, events, now);
            && r == db.(outbox := r.outbox)
            && |r.outbox| == |db.outbox| + |events| && r.outbox[..|db.outbox|] == db.outbox
            && forall i :: 0 <= i < |events| ==> r.outbox[|db.outbox| + i] == OutboxRow(events[i], now, None, 0, None)
  {
  }

  function WithConversation(db: Db, id: ConvId, row: ConversationRow): Db
    requires id <= |db.conversations|
  {
    if id == |db.conversations| then db.(conversations := db.conversations + [row])
    else db.(conversations := db.conversations[id := row])
  }

  /** One database session: `db` is what the transaction would leave behind if it committed now. */
  class Session {
    var db: Db

    constructor (committed: Db)
      ensures db == committed
    {
      db := committed;
    }

    method Publish(events: seq<Event>, now: Time)
      modifies this
      ensures db == Published(old(db), events, now)
    {
      var i := 0;
      while i < |events|
        invariant 0 <= i <= |events|
        invariant db == old(db).(outbox := old(db).outbox + FreshRows(events[..i], now))
      {
        db := db.(outbox := db.outbox + [FreshRow(events[i], now)]);
        assert FreshRows(events[..i + 1], now) == FreshRows(events[..i], now) + [FreshRow(events[i], now)];
        i := i + 1;
      }
      assert events[..i] == events;
    }

    method SaveConversation(id: ConvId, row: ConversationRow)
      requires id <= |db.conversations|
      modifies this
      ensures db == WithConversation(old(db), id, row)
    {
      if id == |db.conversations| {
        db := db.(conversations := db.conversations + [row]);
      } else {
        db := db.(conversations := db.conversations[id := row]);
      }
    }

    method AddDecision(row: DecisionRow)
      modifies this
      ensures db == old(db).(decisions := old(db).decisions + [row])
    {
      db := db.(decisions := db.decisions + [row]);
    }
  }
}
