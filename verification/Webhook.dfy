/** The inbound webhook as one transaction: upsert the conversation, link its lead, archive, publish. */
module Webhook {
  import opened Prelude
  import opened LeadDomain
  import opened Store
  import opened ConversationFsm

  /** A parsed payload; ids missing from the payload are "", an unreadable timestamp is None. */
  datatype Payload = Payload(
    kind: string,
    messageType: string,
    isPrivate: bool,
    conversationId: string,
    messageId: string,
    sender: string,
    content: string,
    createdAt: Option<Time>,
    contactReference: Option<string>)

  datatype Ack = Ignored | Duplicate | Accepted

  function ConversationsByChatwootId(conversations: seq<ConversationRow>, org: OrgId, chatwootId: string): set<nat> {
    set i | 0 <= i < |conversations| && conversations[i].org == org && conversations[i].chatwootId == chatwootId
  }

  function LeadsByContact(leads: seq<LeadRow>, org: OrgId, contact: string): set<nat> {
    set i | 0 <= i < |leads| && leads[i].org == org && leads[i].contactReference == Some(contact)
  }

  function ArchivedCopies(archive: seq<ArchivedMessage>, id: ConvId, messageId: string): set<nat> {
    set i | 0 <= i < |archive| && archive[i].convId == id && archive[i].messageId == messageId
  }

  /** `Ownership.unassigned()` and the other defaults of a new conversation. */
  function NewConversation(org: OrgId, p: Payload, now: Time): ConversationRow {
    ConversationRow(org, p.conversationId, New, Ownership(Unassigned, None, now, "not evaluated"), now,
      p.contactReference, None)
  }

  /** `link_if_possible`: set once, from the one local lead with the same contact; two such leads raise. */
  function LinkedRow(leads: seq<LeadRow>, row: ConversationRow): Result<ConversationRow, Error> {
    if row.leadId.Some? || row.contactReference.None? || row.contactReference.value == "" then Ok(row)
    else
      var lead :- ScalarOneOrNone(LeadsByContact(leads, row.org, row.contactReference.value), MultipleResults);
      Ok(if lead.None? then row else row.(leadId := lead))
  }

  datatype Received = Received(ack: Ack, db: Db)

  /** The message and the event an accepted delivery adds. */
  function Archived(org: OrgId, id: ConvId, p: Payload, now: Time): ArchivedMessage {
    ArchivedMessage(org, id, p.messageId, p.sender, p.content, p.createdAt.GetOr(now))
  }

  function ToEvent(m: ArchivedMessage, chatwootId: string): Event {
    MessageReceived(m.org, m.convId, chatwootId, m.sender, m.content, m.timestamp)
  }

  /** `receive_chatwoot_webhook`: what is committed. Nothing is, unless the delivery is accepted. */
  function Receive(db: Db, org: OrgId, p: Payload, now: Time): Result<Received, Error> {
    if org !in db.orgs then Err(UnknownOrganization)
    else if p.kind != "message_created" || p.messageType != "incoming" || p.isPrivate then Ok(Received(Ignored, db))
    else if p.conversationId == "" || p.messageId == "" then Err(Unprocessable)
    else
      var at := p.createdAt.GetOr(now);
      var found :- ScalarOneOrNone(ConversationsByChatwootId(db.conversations, org, p.conversationId), MultipleResults);
      var id := found.GetOr(|db.conversations|);
      assert found.Some? ==> found.value in ConversationsByChatwootId(db.conversations, org, p.conversationId);
      var loaded := if found.Some? then db.conversations[id].(lastContactAt := at) else NewConversation(org, p, now);
      var linked :- LinkedRow(db.leads, loaded);
      var saved := WithConversation(db, id, linked);
      var copy :- ScalarOneOrNone(ArchivedCopies(db.archive, id, p.messageId), MultipleResults);
      if copy.Some? then Ok(Received(Duplicate, db))
      else
        var message := Archived(org, id, p, now);
        Ok(Received(Accepted,
          Published(saved.(archive := saved.archive + [message]), [ToEvent(message, p.conversationId)], now)))
  }

  class LeadLinker {
    const session: Session

    constructor (session: Session)
      ensures this.session == session
    {
      this.session := session;
    }

    method LinkIfPossible(conversation: Conversation) returns (r: Result<Option<LeadId>, Error>)
      modifies conversation
      ensures r.Ok? ==>
                && LinkedRow(session.db.leads, old(conversation.Row())) == Ok(conversation.Row())
                && r.value == conversation.leadId
      ensures r.Err? ==> LinkedRow(session.db.leads, old(conversation.Row())) == Err(r.error)
      ensures conversation.domainEvents == old(conversation.domainEvents)
    {
      if conversation.leadId.Some? {
        return Ok(conversation.leadId);
      }
      if conversation.contactReference.None? || conversation.contactReference.value == "" {
        return Ok(None);
      }
      var lead := ScalarOneOrNone(
        LeadsByContact(session.db.leads, conversation.org, conversation.contactReference.value), MultipleResults);
      if lead.Err? {
        return Err(lead.error);
      }
      if lead.value.None? {
        return Ok(None);
      }
      conversation.LinkLead(lead.value.value);
      r := Ok(lead.value);
    }
  }

  /** The request handler over its session: `committed` is what the database holds when it returns. */
  method ReceiveWebhook(committed: Db, org: OrgId, p: Payload, now: Time) returns (r: Result<Ack, Error>, after: Db)
    ensures r.Ok? ==> Receive(committed, org, p, now) == Ok(Received(r.value, after))
    ensures r.Err? ==> Receive(committed, org, p, now) == Err(r.error) && after == committed
    ensures r != Ok(Accepted) ==> after == committed
  {
    after := committed;
    var session := new Session(committed);
    if org !in session.db.orgs {
      return Err(UnknownOrganization), after;
    }
    if p.kind != "message_created" {
      return Ok(Ignored), after;
    }
    if p.messageType != "incoming" || p.isPrivate {
      return Ok(Ignored), after;
    }
    if p.conversationId == "" || p.messageId == "" {
      return Err(Unprocessable), after;
    }
    var at := p.createdAt.GetOr(now);
    var found := ScalarOneOrNone(ConversationsByChatwootId(session.db.conversations, org, p.conversationId),
      MultipleResults);
    if found.Err? {
      return Err(found.error), after;
    }
    var conversation: Conversation;
    if found.value.None? {
      conversation := new Conversation.FromRow(|session.db.conversations|, NewConversation(org, p, now));
    } else {
      var id := found.value.value;
      assert id in ConversationsByChatwootId(session.db.conversations, org, p.conversationId);
      conversation := new Conversation.FromRow(id, session.db.conversations[id]);
      conversation.Touch(at);
    }
    if conversation.leadId.None? {
      var linker := new LeadLinker(session);
      var linked := linker.LinkIfPossible(conversation);
      if linked.Err? {
        return Err(linked.error), after;
      }
    }
    session.SaveConversation(conversation.id, conversation.Row());
    var copy := ScalarOneOrNone(ArchivedCopies(session.db.archive, conversation.id, p.messageId), MultipleResults);
    if copy.Err? {
      return Err(copy.error), after;
    }
    if copy.value.Some? {
      return Ok(Duplicate), after;
    }
    var message := Archived(org, conversation.id, p, now);
    session.db := session.db.(archive := session.db.archive + [message]);
    session.Publish([ToEvent(message, p.conversationId)], now);
    after := session.db;
    r := Ok(Accepted);
  }

  // ---- What holds over every sequence of deliveries --------------------------------------------

  /** The unique constraint on (organization, chatwoot conversation id). */
  ghost predicate UniqueConversations(conversations: seq<ConversationRow>) {
    forall i, j :: 0 <= i < j < |conversations| ==>
      conversations[i].org != conversations[j].org || conversations[i].chatwootId != conversations[j].chatwootId
  }

  /** The unique constraint on (conversation, message id), with every message in an existing conversation. */
  ghost predicate UniqueArchive(db: Db) {
    && (forall i, j :: 0 <= i < j < |db.archive| ==>
          db.archive[i].convId != db.archive[j].convId || db.archive[i].messageId != db.archive[j].messageId)
    && (forall i :: 0 <= i < |db.archive| ==>
          db.archive[i].convId < |db.conversations| && db.archive[i].org == db.conversations[db.archive[i].convId].org)
  }

  function MessageSel(): Event -> Option<Event> {
    (e: Event) => if e.MessageReceived? then Some(e) else None
  }

  ghost predicate ArchiveRefers(db: Db) {
    forall i :: 0 <= i < |db.archive| ==> db.archive[i].convId < |db.conversations|
  }

  ghost function ArchiveEvents(db: Db): (events: seq<Event>)
    requires ArchiveRefers(db)
    ensures |events| == |db.archive|
  {
    seq(|db.archive|,
      i requires 0 <= i < |db.archive| => ToEvent(db.archive[i], db.conversations[db.archive[i].convId].chatwootId))
  }

  /** The k-th `MessageReceived` of the outbox is the event of the k-th archived message. */
  ghost predicate ArchiveMatchesOutbox(db: Db) {
    && UniqueConversations(db.conversations)
    && UniqueArchive(db)
    && Project(Log(db.outbox), MessageSel()) == ArchiveEvents(db)
  }

  function TripleAt(db: Db, i: nat): (OrgId, string, string)
    requires i < |db.archive| && db.archive[i].convId < |db.conversations|
  {
    (db.archive[i].org, db.conversations[db.archive[i].convId].chatwootId, db.archive[i].messageId)
  }

  /** The (organization, conversation, message id) triples that were archived. */
  ghost function ArchivedTriples(db: Db): set<(OrgId, string, string)>
    requires UniqueArchive(db)
  {
    set i | 0 <= i < |db.archive| :: TripleAt(db, i)
  }

  lemma FoundConversation(conversations: seq<ConversationRow>, org: OrgId, chatwootId: string)
    requires UniqueConversations(conversations)
    ensures ScalarOneOrNone<Error>(ConversationsByChatwootId(conversations, org, chatwootId), MultipleResults).Ok?
  {
    var found := ConversationsByChatwootId(conversations, org, chatwootId);
    if found != {} {
      var i :| i in found;
      assert found == {i};
    }
  }

  lemma FoundCopy(db: Db, id: ConvId, messageId: string)
    requires UniqueArchive(db)
    ensures ScalarOneOrNone<Error>(ArchivedCopies(db.archive, id, messageId), MultipleResults).Ok?
  {
    var found := ArchivedCopies(db.archive, id, messageId);
    if found != {} {
      var i :| i in found;
      assert found == {i};
    }
  }

  /** The triple of a delivery is archived exactly when its conversation and its copy are found. */
  lemma TripleIsArchived(db: Db, org: OrgId, chatwootId: string, messageId: string)
    requires UniqueConversations(db.conversations) && UniqueArchive(db)
    ensures var found :=
            ScalarOneOrNone<Error>(ConversationsByChatwootId(db.conversations, org, chatwootId), MultipleResults);
            && found.Ok?
            && ((org, chatwootId, messageId) in ArchivedTriples(db)
                <==> found.value.Some? && ArchivedCopies(db.archive, found.value.value, messageId) != {})
  {
    FoundConversation(db.conversations, org, chatwootId);
    var found := ScalarOneOrNone<Error>(ConversationsByChatwootId(db.conversations, org, chatwootId),
      MultipleResults).value;
    if (org, chatwootId, messageId) in ArchivedTriples(db) {
      var i :| 0 <= i < |db.archive| && TripleAt(db, i) == (org, chatwootId, messageId);
      assert db.archive[i].convId in ConversationsByChatwootId(db.conversations, org, chatwootId);
      assert i in ArchivedCopies(db.archive, found.value, messageId);
    }
    if found.Some? {
      assert found.value in ConversationsByChatwootId(db.conversations, org, chatwootId);
      if i :| i in ArchivedCopies(db.archive, found.value, messageId) {
        assert TripleAt(db, i) in ArchivedTriples(db);
      }
    }
  }

  /** The row a delivery loads or creates, before linking. */
  function LoadedRow(db: Db, org: OrgId, p: Payload, now: Time, found: Option<ConvId>): ConversationRow
    requires found.Some? ==> found.value < |db.conversations|
  {
    if found.Some? then db.conversations[found.value].(lastContactAt := p.createdAt.GetOr(now))
      else NewConversation(org, p, now)
  }

  predicate IsMessage(db: Db, org: OrgId, p: Payload) {
    && org in db.orgs
    && p.kind == "message_created" && p.messageType == "incoming" && !p.isPrivate
    && p.conversationId != "" && p.messageId != ""
  }

  /** The contact a delivery is matched by: the stored conversation's own, or the payload's for a new one. */
  ghost predicate AmbiguousLead(db: Db, org: OrgId, p: Payload, now: Time) {
    var found := ScalarOneOrNone<Error>(ConversationsByChatwootId(db.conversations, org, p.conversationId),
      MultipleResults);
    && found.Ok?
    && (found.value.Some? ==> found.value.value < |db.conversations|)
    && var row := LoadedRow(db, org, p, now, found.value);
    && row.leadId.None?
    && row.contactReference.GetOr("") != ""
    && |LeadsByContact(db.leads, row.org, row.contactReference.value)| > 1
  }

  /** One delivery. It is accepted exactly when it is a message whose triple is new and whose lead is
      not ambiguous; then it adds the one archive entry and the one event, and at most the one
      conversation, of its triple. Otherwise the committed store does not move. */
  lemma DeliveryEffect(db: Db, org: OrgId, p: Payload, now: Time)
    requires ArchiveMatchesOutbox(db)
    ensures var r := Receive(db, org, p, now);
            var triple := (org, p.conversationId, p.messageId);
            && (r.Ok? && r.value.ack == Accepted <==>
                IsMessage(db, org, p) && triple !in ArchivedTriples(db) && !AmbiguousLead(db, org, p, now))
            && (r.Ok? && r.value.ack == Duplicate <==>
                IsMessage(db, org, p) && triple in ArchivedTriples(db) && !AmbiguousLead(db, org, p, now))
            && (r.Ok? && r.value.ack != Accepted ==> r.value.db == db)
  {
    TripleIsArchived(db, org, p.conversationId, p.messageId);
    var found := ScalarOneOrNone<Error>(ConversationsByChatwootId(db.conversations, org, p.conversationId),
      MultipleResults).value;
    if found.Some? {
      assert found.value in ConversationsByChatwootId(db.conversations, org, p.conversationId);
    } else {
      NewConversationHasNoCopies(db, p.messageId);
    }
    var row := LoadedRow(db, org, p, now, found);
    LinkFailsOnlyOnAmbiguity(db.leads, row);
    FoundCopy(db, found.GetOr(|db.conversations|), p.messageId);
  }

  lemma NewConversationHasNoCopies(db: Db, messageId: string)
    requires UniqueArchive(db)
    ensures ArchivedCopies(db.archive, |db.conversations|, messageId) == {}
  {
  }

  /** The one local lead with the conversation's contact, and no lead when there is no contact or no such lead. */
  predicate LinksTo(leads: seq<LeadRow>, row: ConversationRow, lead: Option<LeadId>) {
    var matches := if row.contactReference.GetOr("") == "" then {}
      else LeadsByContact(leads, row.org, row.contactReference.value);
    if lead.Some? then matches == {lead.value} else matches == {}
  }

  lemma LinkFailsOnlyOnAmbiguity(leads: seq<LeadRow>, row: ConversationRow)
    ensures LinkedRow(leads, row).Err? <==>
            row.leadId.None? && row.contactReference.GetOr("") != ""
              && |LeadsByContact(leads, row.org, row.contactReference.value)| > 1
    ensures LinkedRow(leads, row).Ok? ==>
              var linked := LinkedRow(leads, row).value;
              && linked == row.(leadId := linked.leadId)
              && (row.leadId.Some? ==> linked == row)
              && (row.leadId.None? ==> LinksTo(leads, row, linked.leadId))
  {
  }

  /** What an accepted delivery writes: one conversation row - its own, state and owner untouched, a set
      link kept - one archive entry and one event. */
  ghost predicate AddsMessage(db: Db, r: Db, org: OrgId, p: Payload, now: Time, id: ConvId) {
    && id <= |db.conversations| && id < |r.conversations|
    && var row := r.conversations[id];
    && var before := LoadedRow(db, org, p, now, if id < |db.conversations| then Some(id) else None);
    && row == before.(leadId := row.leadId)
    && row.org == org && row.chatwootId == p.conversationId
    && (before.leadId.Some? ==> row.leadId == before.leadId)
    && (before.leadId.None? ==> LinksTo(db.leads, before, row.leadId))
    && r == Published(WithConversation(db, id, row).(archive := db.archive + [Archived(org, id, p, now)]),
                      [ToEvent(Archived(org, id, p, now), p.conversationId)], now)
  }

  lemma AcceptedDelivery(db: Db, org: OrgId, p: Payload, now: Time) returns (id: ConvId)
    requires ArchiveMatchesOutbox(db)
    requires Receive(db, org, p, now).Ok? && Receive(db, org, p, now).value.ack == Accepted
    ensures AddsMessage(db, Receive(db, org, p, now).value.db, org, p, now, id)
    ensures ArchivedCopies(db.archive, id, p.messageId) == {}
    ensures id == |db.conversations| ==> ConversationsByChatwootId(db.conversations, org, p.conversationId) == {}
  {
    FoundConversation(db.conversations, org, p.conversationId);
    var found := ScalarOneOrNone<Error>(ConversationsByChatwootId(db.conversations, org, p.conversationId),
      MultipleResults).value;
    id := found.GetOr(|db.conversations|);
    if found.Some? {
      assert id in ConversationsByChatwootId(db.conversations, org, p.conversationId);
    }
    LinkFailsOnlyOnAmbiguity(db.leads, LoadedRow(db, org, p, now, found));
  }

  /** An accepted delivery is archived as it was sent, in its own conversation, and announced with the same text:
      the newest archive entry and the newest event carry the payload. */
  lemma AcceptedCarriesThePayload(db: Db, org: OrgId, p: Payload, now: Time)
    requires ArchiveMatchesOutbox(db)
    requires Receive(db, org, p, now).Ok? && Receive(db, org, p, now).value.ack == Accepted
    ensures var r := Receive(db, org, p, now).value.db;
            && |r.archive| == |db.archive| + 1 && |r.outbox| == |db.outbox| + 1
            && var m, e := r.archive[|db.archive|], r.outbox[|db.outbox|].event;
            && m.convId < |r.conversations| && r.conversations[m.convId].chatwootId == p.conversationId
            && m.org == org == r.conversations[m.convId].org
            && m.messageId == p.messageId && m.sender == p.sender && m.content == p.content
            && m.timestamp == (if p.createdAt.Some? then p.createdAt.value else now)
            && r.conversations[m.convId].lastContactAt == (if m.convId < |db.conversations| then m.timestamp else now)
            && e.MessageReceived? && e.convId == m.convId && e.text == p.content && e.sender == p.sender
                 && e.chatwootId == p.conversationId
  {
    var id := AcceptedDelivery(db, org, p, now);
  }

  /** The one lead of the organization with that contact. */
  predicate IsOnlyLeadOf(leads: seq<LeadRow>, org: OrgId, contact: Option<string>, lead: LeadId) {
    && contact.Some? && contact.value != ""
    && lead < |leads| && leads[lead].org == org && leads[lead].contactReference == contact
    && forall k :: 0 <= k < |leads| && leads[k].org == org && leads[k].contactReference == contact ==> k == lead
  }

  /** What an accepted delivery makes of its conversation: a stored one has its last contact moved and is otherwise as
      it was, a new one is nobody's and has the payload's contact. A link once set stays, and one is set exactly to the
      only lead of the organization with the conversation's contact. No other conversation moves. */
  lemma AcceptedKeepsTheConversation(db: Db, org: OrgId, p: Payload, now: Time)
    requires ArchiveMatchesOutbox(db)
    requires Receive(db, org, p, now).Ok? && Receive(db, org, p, now).value.ack == Accepted
    ensures var r := Receive(db, org, p, now).value.db;
            && |r.archive| == |db.archive| + 1 && |r.outbox| == |db.outbox| + 1
            && var m, e := r.archive[|db.archive|], r.outbox[|db.outbox|].event;
            && e.MessageReceived? && e.org == org && e.timestamp == m.timestamp
            && m.convId <= |db.conversations|
            && |r.conversations| == (if m.convId < |db.conversations| then |db.conversations| else m.convId + 1)
            && (forall i :: 0 <= i < |db.conversations| && i != m.convId ==> r.conversations[i] == db.conversations[i])
            && var row := r.conversations[m.convId];
            && var linked := if m.convId < |db.conversations| then db.conversations[m.convId].leadId else None;
            && (m.convId < |db.conversations| ==>
                  row == db.conversations[m.convId].(lastContactAt := m.timestamp, leadId := row.leadId))
            && (m.convId == |db.conversations| ==>
                  && row.state == New && row.contactReference == p.contactReference
                  && row.ownership.ownerType == Unassigned && row.ownership.ownerId.None? && row.ownership.since == now)
            && (linked.Some? ==> row.leadId == linked)
            && (linked.None? ==> forall lead: LeadId ::
                  row.leadId == Some(lead) <==> IsOnlyLeadOf(db.leads, org, row.contactReference, lead))
  {
    var id := AcceptedDelivery(db, org, p, now);
    var before := LoadedRow(db, org, p, now, if id < |db.conversations| then Some(id) else None);
    var row := Receive(db, org, p, now).value.db.conversations[id];
    if before.leadId.None? {
      forall lead: LeadId
        ensures row.leadId == Some(lead) <==> IsOnlyLeadOf(db.leads, org, row.contactReference, lead)
      {
        LinksToTheOnlyLead(db.leads, before, row.leadId, lead);
      }
    }
  }

  lemma LinksToTheOnlyLead(leads: seq<LeadRow>, row: ConversationRow, link: Option<LeadId>, lead: LeadId)
    requires LinksTo(leads, row, link)
    ensures link == Some(lead) <==> IsOnlyLeadOf(leads, row.org, row.contactReference, lead)
  {
    if row.contactReference.GetOr("") != "" {
      var matches := LeadsByContact(leads, row.org, row.contactReference.value);
      if link == Some(lead) {
        assert lead in matches;
        forall k | 0 <= k < |leads| && leads[k].org == row.org && leads[k].contactReference == row.contactReference
          ensures k == lead
        {
          assert k in matches;
        }
      }
      if IsOnlyLeadOf(leads, row.org, row.contactReference, lead) {
        assert lead in matches;
      }
    }
  }

  predicate IsIncoming(p: Payload) { p.kind == "message_created" && p.messageType == "incoming" && !p.isPrivate }

  /** How the other deliveries are answered: an unknown organization first, then whatever is not an incoming message is
      ignored, then one without its ids is unprocessable, and last an ambiguous lead raises. */
  lemma OtherDeliveries(db: Db, org: OrgId, p: Payload, now: Time)
    requires ArchiveMatchesOutbox(db)
    ensures var r := Receive(db, org, p, now);
            && (r == Err(UnknownOrganization) <==> org !in db.orgs)
            && (r.Ok? && r.value.ack == Ignored <==> org in db.orgs && !IsIncoming(p))
            && (r == Err(Unprocessable) <==>
                org in db.orgs && IsIncoming(p) && (p.conversationId == "" || p.messageId == ""))
            && (r == Err(MultipleResults) <==> IsMessage(db, org, p) && AmbiguousLead(db, org, p, now))
            && (r.Err? ==> r.error in {UnknownOrganization, Unprocessable, MultipleResults})
  {
    DeliveryEffect(db, org, p, now);
    if IsMessage(db, org, p) {
      FoundConversation(db.conversations, org, p.conversationId);
    }
  }

  /** An accepted delivery keeps archive and outbox in step and adds exactly its own triple. */
  lemma AcceptedKeepsArchive(db: Db, r: Db, org: OrgId, p: Payload, now: Time, id: ConvId)
    requires ArchiveMatchesOutbox(db)
    requires AddsMessage(db, r, org, p, now, id)
    requires ArchivedCopies(db.archive, id, p.messageId) == {}
    requires id == |db.conversations| ==> ConversationsByChatwootId(db.conversations, org, p.conversationId) == {}
    ensures ArchiveMatchesOutbox(r)
    ensures ArchivedTriples(r) == ArchivedTriples(db) + {(org, p.conversationId, p.messageId)}
  {
    AcceptedKeepsUnique(db, r, org, p, now, id);
    MessageTables(db, r, org, p, now, id);
    AcceptedAddsEvent(db, r, Archived(org, id, p, now), p.conversationId);
    AcceptedAddsTriple(db, r, org, p, now, id);
  }

  lemma AcceptedKeepsUnique(db: Db, r: Db, org: OrgId, p: Payload, now: Time, id: ConvId)
    requires UniqueConversations(db.conversations) && UniqueArchive(db)
    requires AddsMessage(db, r, org, p, now, id)
    requires ArchivedCopies(db.archive, id, p.messageId) == {}
    requires id == |db.conversations| ==> ConversationsByChatwootId(db.conversations, org, p.conversationId) == {}
    ensures UniqueConversations(r.conversations) && UniqueArchive(r)
  {
    forall i | 0 <= i < |db.archive| ensures db.archive[i].convId != id || db.archive[i].messageId != p.messageId {
      assert i !in ArchivedCopies(db.archive, id, p.messageId);
    }
    if id == |db.conversations| {
      forall i | 0 <= i < |db.conversations|
        ensures db.conversations[i].org != org || db.conversations[i].chatwootId != p.conversationId
      {
        assert i !in ConversationsByChatwootId(db.conversations, org, p.conversationId);
      }
    }
  }

  /** The tables an accepted delivery leaves, conversation by conversation. */
  lemma MessageTables(db: Db, r: Db, org: OrgId, p: Payload, now: Time, id: ConvId)
    requires AddsMessage(db, r, org, p, now, id)
    ensures r.archive == db.archive + [Archived(org, id, p, now)]
    ensures Log(r.outbox) == Log(db.outbox) + [ToEvent(Archived(org, id, p, now), p.conversationId)]
    ensures id < |r.conversations| && |db.conversations| <= |r.conversations|
            && r.conversations[id].chatwootId == p.conversationId
    ensures r.conversations == WithConversation(db, id, r.conversations[id]).conversations
    ensures forall i :: 0 <= i < |db.conversations| ==> r.conversations[i].chatwootId == db.conversations[i].chatwootId
    ensures r.decisions == db.decisions && r.leads == db.leads && r.profiles == db.profiles
  {
  }

  lemma AcceptedAddsEvent(db: Db, r: Db, m: ArchivedMessage, chatwootId: string)
    requires ArchiveRefers(db) && ArchiveRefers(r)
    requires r.archive == db.archive + [m] && Log(r.outbox) == Log(db.outbox) + [ToEvent(m, chatwootId)]
    requires m.convId < |r.conversations| && r.conversations[m.convId].chatwootId == chatwootId
    requires |db.conversations| <= |r.conversations|
    requires forall i :: 0 <= i < |db.conversations| ==> r.conversations[i].chatwootId == db.conversations[i].chatwootId
    requires Project(Log(db.outbox), MessageSel()) == ArchiveEvents(db)
    ensures Project(Log(r.outbox), MessageSel()) == ArchiveEvents(r)
  {
  }

  lemma AcceptedAddsTriple(db: Db, r: Db, org: OrgId, p: Payload, now: Time, id: ConvId)
    requires UniqueArchive(db) && UniqueArchive(r)
    requires AddsMessage(db, r, org, p, now, id)
    ensures ArchivedTriples(r) == ArchivedTriples(db) + {(org, p.conversationId, p.messageId)}
  {
    var n := |db.archive|;
    assert TripleAt(r, n) == (org, p.conversationId, p.messageId);
    forall i: nat | i < n ensures TripleAt(r, i) == TripleAt(db, i) {
    }
    forall t | t in ArchivedTriples(db) ensures t in ArchivedTriples(r) {
      var i: nat :| i < n && TripleAt(db, i) == t;
      assert TripleAt(r, i) == t;
    }
    forall t | t in ArchivedTriples(r) ensures t in ArchivedTriples(db) + {(org, p.conversationId, p.messageId)} {
      var i: nat :| i < n + 1 && TripleAt(r, i) == t;
      assert i < n ==> TripleAt(db, i) in ArchivedTriples(db);
    }
  }
}
