/** Progressive profiling: one patch at a time, with `ProfileCompleted` published at the crossing. */
module ProfileCapture {
  import opened Prelude
  import opened LeadDomain
  import opened Store

  /** `BuyerProfileRepository.save`: the row a profile is stored as. */
  function ToRow(p: BuyerProfile): ProfileRow {
    ProfileRow(
      if p.budget.Some? then Some(p.budget.value.minimum) else None,
      if p.budget.Some? then Some(p.budget.value.maximum) else None,
      p.locations,
      if p.propertyType.Some? then Some(PropertyTypeName(p.propertyType.value)) else None,
      if p.timeline.Some? then Some(TimelineName(p.timeline.value)) else None,
      p.mustHaves,
      p.updatedAt)
  }

  /** `BuyerProfileRepository._to_domain`: raises on an invalid range or an unknown enum text. */
  function FromRow(row: ProfileRow): Result<BuyerProfile, Error> {
    var budget :-
      if row.budgetMin.Some? && row.budgetMax.Some? then
        var range := MoneyRange(row.budgetMin.value, row.budgetMax.value);
        if range.Valid() then Ok(Some(range)) else Err(ProfileValidation)
      else Ok(None);
    var propertyType :-
      if row.propertyType.Some? && row.propertyType.value != "" then
        var parsed := ParsePropertyType(row.propertyType.value);
        if parsed.Some? then Ok(parsed) else Err(ProfileValidation)
      else Ok(None);
    var timeline :-
      if row.timeline.Some? && row.timeline.value != "" then
        var parsed := ParseTimeline(row.timeline.value);
        if parsed.Some? then Ok(parsed) else Err(ProfileValidation)
      else Ok(None);
    Ok(BuyerProfile(budget, row.locations, propertyType, timeline, row.mustHaves, row.updatedAt))
  }

  /** What is stored reads back as the same profile. */
  lemma RowRoundTrip(p: BuyerProfile)
    requires p.Valid()
    ensures FromRow(ToRow(p)) == Ok(p)
  {
    if p.propertyType.Some? {
      match p.propertyType.value
      case Apartment => case House => case Land => case Commercial => case OtherType =>
    }
    if p.timeline.Some? {
      match p.timeline.value
      case Immediate => case ThreeMonths => case SixMonths => case OverSixMonths => case Exploring =>
    }
  }

  /** A text column reads as None when it is absent or empty. */
  predicate Blank(text: Option<string>) { text.None? || text.value == "" }

  /** A stored row reads back exactly when its two bounds, if both are there, make a range, and its texts are blank or
      known; half a range is no range. */
  lemma RowReadsExactlyWhen(row: ProfileRow)
    ensures FromRow(row).Err? ==> FromRow(row).error == ProfileValidation
    ensures FromRow(row).Ok? <==>
            && (row.budgetMin.Some? && row.budgetMax.Some? ==> 0.0 < row.budgetMin.value <= row.budgetMax.value)
            && (Blank(row.propertyType) || exists t :: PropertyTypeName(t) == row.propertyType.value)
            && (Blank(row.timeline) || exists t :: TimelineName(t) == row.timeline.value)
    ensures FromRow(row).Ok? ==>
              var p := FromRow(row).value;
              && p.locations == row.locations && p.mustHaves == row.mustHaves && p.updatedAt == row.updatedAt
              && (p.budget.Some? <==> row.budgetMin.Some? && row.budgetMax.Some?)
              && (p.budget.Some? ==>
                    row.budgetMin == Some(p.budget.value.minimum) && row.budgetMax == Some(p.budget.value.maximum))
              && (if Blank(row.propertyType) then p.propertyType.None? else
                    p.propertyType.Some? && PropertyTypeName(p.propertyType.value) == row.propertyType.value)
              && (if Blank(row.timeline) then p.timeline.None? else
                    p.timeline.Some? && TimelineName(p.timeline.value) == row.timeline.value)
  {
    if !Blank(row.propertyType) { PropertyTypeRoundTrip(row.propertyType.value); }
    if !Blank(row.timeline) { TimelineRoundTrip(row.timeline.value); }
  }

  lemma PropertyTypeRoundTrip(text: string)
    ensures ParsePropertyType(text).Some? <==> exists t :: PropertyTypeName(t) == text
    ensures ParsePropertyType(text).Some? ==> PropertyTypeName(ParsePropertyType(text).value) == text
  {
    if t :| PropertyTypeName(t) == text {
      match t
      case Apartment => case House => case Land => case Commercial => case OtherType =>
    }
    if ParsePropertyType(text).Some? { assert PropertyTypeName(ParsePropertyType(text).value) == text; }
  }

  lemma TimelineRoundTrip(text: string)
    ensures ParseTimeline(text).Some? <==> exists t :: TimelineName(t) == text
    ensures ParseTimeline(text).Some? ==> TimelineName(ParseTimeline(text).value) == text
  {
    if t :| TimelineName(t) == text {
      match t
      case Immediate => case ThreeMonths => case SixMonths => case OverSixMonths => case Exploring =>
    }
    if ParseTimeline(text).Some? { assert TimelineName(ParseTimeline(text).value) == text; }
  }

  /** The stored profile of a lead, or a new empty one. */
  function CurrentProfile(db: Db, lead: LeadId, now: Time): Result<BuyerProfile, Error> {
    if lead in db.profiles then FromRow(db.profiles[lead]) else Ok(EmptyProfile(now))
  }

  /** The event of a patch that takes a profile from below the threshold to it or above. */
  function CompletionEvents(row: LeadRow, lead: LeadId, before: BuyerProfile, after: BuyerProfile, threshold: real)
      : seq<Event>
  {
    if after.Completeness() >= threshold && before.Completeness() < threshold
    then [ProfileCompleted(row.org, lead, row.crmLeadId, after.Completeness(), after)]
    else []
  }

  datatype Updated = Updated(db: Db, completeness: real)

  /** `update_profile`; an invalid patch is the exception its constructor raises. */
  function UpdateProfile(db: Db, lead: LeadId, patch: ProfilePatch, threshold: real, now: Time)
      : Result<Updated, Error>
  {
    if !patch.Valid() || patch.IsEmpty() then Err(ProfileValidation)
    else if lead >= |db.leads| then Err(LeadNotFound)
    else
      var before :- CurrentProfile(db, lead, now);
      var after := before.Apply(patch, now);
      var saved := db.(profiles := db.profiles[lead := ToRow(after)]);
      var events := CompletionEvents(db.leads[lead], lead, before, after, threshold);
      Ok(Updated(Published(saved, events, now), after.Completeness()))
  }

  /** The profile entity, patched in place. */
  class ProfileEntity {
    var budget: Option<MoneyRange>
    var locations: seq<string>
    var propertyType: Option<PropertyType>
    var timeline: Option<Timeline>
    var mustHaves: seq<string>
    var updatedAt: Time

    function Value(): BuyerProfile
      reads this
    {
      BuyerProfile(budget, locations, propertyType, timeline, mustHaves, updatedAt)
    }

    constructor (p: BuyerProfile)
      ensures Value() == p
    {
      budget := p.budget;
      locations := p.locations;
      propertyType := p.propertyType;
      timeline := p.timeline;
      mustHaves := p.mustHaves;
      updatedAt := p.updatedAt;
    }

    method Apply(patch: ProfilePatch, now: Time)
      modifies this
      ensures Value() == old(Value()).Apply(patch, now)
    {
      if patch.budget.Some? { budget := patch.budget; }
      if patch.locations.Some? { locations := patch.locations.value; }
      if patch.propertyType.Some? { propertyType := patch.propertyType; }
      if patch.timeline.Some? { timeline := patch.timeline; }
      if patch.mustHaves.Some? { mustHaves := patch.mustHaves.value; }
      updatedAt := now;
    }
  }

  class BuyerProfileCaptureService {
    const session: Session
    const threshold: real

    constructor (session: Session, threshold: real)
      ensures this.session == session && this.threshold == threshold
    {
      this.session := session;
      this.threshold := threshold;
    }

    /** A rejected patch leaves the session exactly as it was. */
    method Update(lead: LeadId, patch: ProfilePatch, now: Time) returns (r: Result<real, Error>)
      modifies session
      ensures r.Ok? ==> UpdateProfile(old(session.db), lead, patch, threshold, now) == Ok(Updated(session.db, r.value))
      ensures r.Err? ==> UpdateProfile(old(session.db), lead, patch, threshold, now) == Err(r.error)
                         && session.db == old(session.db)
    {
      if !patch.Valid() || patch.IsEmpty() {
        return Err(ProfileValidation);
      }
      if lead >= |session.db.leads| {
        return Err(LeadNotFound);
      }
      var current := CurrentProfile(session.db, lead, now);
      if current.Err? {
        return Err(current.error);
      }
      var profile := new ProfileEntity(current.value);
      var wasComplete := profile.Value().Completeness() >= threshold;
      profile.Apply(patch, now);
      session.db := session.db.(profiles := session.db.profiles[lead := ToRow(profile.Value())]);
      var completeness := profile.Value().Completeness();
      if completeness >= threshold && !wasComplete {
        var row := session.db.leads[lead];
        session.Publish([ProfileCompleted(row.org, lead, row.crmLeadId, completeness, profile.Value())], now);
      } else {
        assert session.db.outbox + FreshRows([], now) == session.db.outbox;
      }
      r := Ok(completeness);
    }
  }

  // ---- What holds over every sequence of patches -----------------------------------------------

  /** A lead's profile is stored validly and is complete at the threshold. */
  predicate IsComplete(db: Db, lead: LeadId, threshold: real) {
    && lead in db.profiles
    && FromRow(db.profiles[lead]).Ok?
    && FromRow(db.profiles[lead]).value.Completeness() >= threshold
  }

  /** Profiles belong to existing leads and read back. */
  ghost predicate ProfilesOk(db: Db) {
    forall lead :: lead in db.profiles ==>
      lead < |db.leads| && FromRow(db.profiles[lead]).Ok? && FromRow(db.profiles[lead]).value.Valid()
  }

  function CompletedSel(lead: LeadId): Event -> Option<Event> {
    (e: Event) => if e.ProfileCompleted? && e.leadId == lead then Some(e) else None
  }

  function TimesCompleted(log: seq<Event>, lead: LeadId): nat { |Project(log, CompletedSel(lead))| }

  /** `ProfileCompleted` is in the log once for a complete profile and not at all for another. */
  ghost predicate CompletedOnce(db: Db, threshold: real) {
    forall lead: LeadId :: TimesCompleted(Log(db.outbox), lead) == if IsComplete(db, lead, threshold) then 1 else 0
  }

  lemma TimesCompletedAfter(log: seq<Event>, e: Event, lead: LeadId)
    ensures TimesCompleted(log + [e], lead) == TimesCompleted(log, lead) + if CompletedSel(lead)(e).Some? then 1 else 0
  {
  }

  lemma NoCompletionEvents(log: seq<Event>, events: seq<Event>, lead: LeadId)
    requires forall i :: 0 <= i < |events| ==> !events[i].ProfileCompleted?
    ensures TimesCompleted(log + events, lead) == TimesCompleted(log, lead)
  {
    ProjectConcat(log, events, CompletedSel(lead));
    ProjectNothing(events, CompletedSel(lead));
  }

  /** One accepted patch: the patched profile is stored and reads back, nothing else moves,
      completeness of no lead falls, and the event comes exactly with the crossing. */
  lemma UpdateEffect(db: Db, lead: LeadId, patch: ProfilePatch, threshold: real, now: Time)
    requires ProfilesOk(db)
    ensures UpdateProfile(db, lead, patch, threshold, now).Ok? <==>
            patch.Valid() && !patch.IsEmpty() && lead < |db.leads|
    ensures UpdateProfile(db, lead, patch, threshold, now).Ok? ==>
              var u := UpdateProfile(db, lead, patch, threshold, now).value;
              var before := CurrentProfile(db, lead, now).value;
              var after := before.Apply(patch, now);
              && ProfilesOk(u.db)
              && CurrentProfile(u.db, lead, now) == Ok(after)
              && u.completeness == after.Completeness() >= before.Completeness()
              && u.db == db.(profiles := db.profiles[lead := ToRow(after)], outbox := u.db.outbox)
              && |db.outbox| <= |u.db.outbox| && u.db.outbox[..|db.outbox|] == db.outbox
              && Log(u.db.outbox) == Log(db.outbox) + CompletionEvents(db.leads[lead], lead, before, after, threshold)
              && (IsComplete(u.db, lead, threshold) <==> after.Completeness() >= threshold)
              && forall other :: other != lead ==>
                   (IsComplete(u.db, other, threshold) <==> IsComplete(db, other, threshold))
  {
    if patch.Valid() && !patch.IsEmpty() && lead < |db.leads| {
      var before := CurrentProfile(db, lead, now).value;
      var after := before.Apply(patch, now);
      ApplyIsMonotone(before, patch, now);
      RowRoundTrip(after);
      var u := UpdateProfile(db, lead, patch, threshold, now).value;
      assert u.db.profiles == db.profiles[lead := ToRow(after)];
      assert u.db.outbox[..|db.outbox|] == db.outbox;
    }
  }

  /** An accepted patch is what is read back, now and later: its own value in every dimension it carries and the
      previous value in every other, of a lead without a profile nothing. No other lead's profile moves. */
  lemma PatchIsReadBack(db: Db, lead: LeadId, patch: ProfilePatch, threshold: real, now: Time, later: Time)
    requires ProfilesOk(db)
    requires UpdateProfile(db, lead, patch, threshold, now).Ok?
    ensures var r := UpdateProfile(db, lead, patch, threshold, now).value.db;
            var before := CurrentProfile(db, lead, now);
            && before.Ok? && CurrentProfile(r, lead, later).Ok?
            && IsPatched(before.value, patch, now, CurrentProfile(r, lead, later).value)
            && (lead !in db.profiles ==> forall d :: !before.value.Has(d))
            && forall other :: other != lead ==> CurrentProfile(r, other, later) == CurrentProfile(db, other, later)
  {
    UpdateEffect(db, lead, patch, threshold, now);
    PatchedByDimension(CurrentProfile(db, lead, now).value, patch, now);
  }

  /** A patch is refused for what it is before it is refused for its lead. */
  lemma PatchIsRefusedFor(db: Db, lead: LeadId, patch: ProfilePatch, threshold: real, now: Time)
    requires ProfilesOk(db)
    ensures var r := UpdateProfile(db, lead, patch, threshold, now);
            && (r == Err(ProfileValidation) <==> !IsHarmless(patch) || patch.IsEmpty())
            && (r == Err(LeadNotFound) <==> IsHarmless(patch) && !patch.IsEmpty() && lead >= |db.leads|)
            && (r.Err? ==> r.error == ProfileValidation || r.error == LeadNotFound)
  {
    UpdateEffect(db, lead, patch, threshold, now);
    PatchIsValidExactlyWhen(patch);
  }

  /** The event of a crossing carries the lead's own identity, the completeness reached and the whole patched
      profile. */
  lemma CompletionTellsTheProfile(db: Db, lead: LeadId, patch: ProfilePatch, threshold: real, now: Time)
    requires ProfilesOk(db)
    requires UpdateProfile(db, lead, patch, threshold, now).Ok?
    ensures var u := UpdateProfile(db, lead, patch, threshold, now).value;
            |u.db.outbox| > |db.outbox| ==>
              && |u.db.outbox| == |db.outbox| + 1
              && var e := u.db.outbox[|db.outbox|].event;
              && e.ProfileCompleted? && e.leadId == lead && e.org == db.leads[lead].org
                   && e.crmLeadId == db.leads[lead].crmLeadId
              && e.completeness == u.completeness >= threshold
              && CurrentProfile(u.db, lead, now) == Ok(e.profile)
  {
    UpdateEffect(db, lead, patch, threshold, now);
  }

  lemma CompleteMeansAtThreshold(db: Db, lead: LeadId, threshold: real, now: Time)
    requires threshold > 0.0
    requires ProfilesOk(db)
    ensures CurrentProfile(db, lead, now).Ok?
    ensures IsComplete(db, lead, threshold) <==> CurrentProfile(db, lead, now).value.Completeness() >= threshold
  {
    CapturedCount(EmptyProfile(now));
  }

  lemma CountAfterCompletion(
    log: seq<Event>, row: LeadRow, lead: LeadId, before: BuyerProfile, after: BuyerProfile, threshold: real,
    other: LeadId)
    ensures TimesCompleted(log + CompletionEvents(row, lead, before, after, threshold), other)
         == TimesCompleted(log, other)
            + if other == lead && after.Completeness() >= threshold && before.Completeness() < threshold then 1 else 0
  {
    var events := CompletionEvents(row, lead, before, after, threshold);
    if events != [] {
      TimesCompletedAfter(log, events[0], other);
      assert events == [events[0]];
    } else {
      assert log + events == log;
    }
  }

  /** The event count stays exact under every patch of every lead, for a positive threshold. */
  lemma UpdateKeepsCompletedOnce(db: Db, lead: LeadId, patch: ProfilePatch, threshold: real, now: Time)
    requires threshold > 0.0
    requires ProfilesOk(db) && CompletedOnce(db, threshold)
    requires UpdateProfile(db, lead, patch, threshold, now).Ok?
    ensures CompletedOnce(UpdateProfile(db, lead, patch, threshold, now).value.db, threshold)
  {
    UpdateEffect(db, lead, patch, threshold, now);
    CompleteMeansAtThreshold(db, lead, threshold, now);
    var u := UpdateProfile(db, lead, patch, threshold, now).value;
    var before := CurrentProfile(db, lead, now).value;
    var after := before.Apply(patch, now);
    forall other: LeadId
      ensures TimesCompleted(Log(u.db.outbox), other) == if IsComplete(u.db, other, threshold) then 1 else 0
    {
      CountAfterCompletion(Log(db.outbox), db.leads[lead], lead, before, after, threshold, other);
    }
  }

  /** Patches keep the event count exact, whatever store they start from. */
  ghost predicate PatchesKeepTheCount(threshold: real) {
    forall db: Db, lead: LeadId, patch: ProfilePatch, now: Time ::
      ProfilesOk(db) && CompletedOnce(db, threshold) && UpdateProfile(db, lead, patch, threshold, now).Ok? ==>
        CompletedOnce(UpdateProfile(db, lead, patch, threshold, now).value.db, threshold)
  }

  /** Exactly-once holds for exactly the positive thresholds: at or below zero an empty profile already
      counts as complete, so the first patch of a lead completes it without an event. */
  lemma ExactlyOnceNeedsAPositiveThreshold(threshold: real)
    ensures PatchesKeepTheCount(threshold) <==> threshold > 0.0
  {
    if threshold > 0.0 {
      forall db: Db, lead: LeadId, patch: ProfilePatch, now: Time
        | ProfilesOk(db) && CompletedOnce(db, threshold) && UpdateProfile(db, lead, patch, threshold, now).Ok?
        ensures CompletedOnce(UpdateProfile(db, lead, patch, threshold, now).value.db, threshold)
      {
        UpdateKeepsCompletedOnce(db, lead, patch, threshold, now);
      }
    } else {
      var lead := LeadRow(0, "deal", StageNew, 0.0, None, None, 0);
      var db := Db({0}, [], {}, [], [], [], [lead], map[], map[], []);
      var patch := ProfilePatch(None, Some(["centro"]), None, None, None);
      assert CompletedOnce(db, threshold);
      UpdateEffect(db, 0, patch, threshold, 0);
      var after := EmptyProfile(0).Apply(patch, 0);
      CapturedCount(EmptyProfile(0));
      CapturedCount(after);
      var u := UpdateProfile(db, 0, patch, threshold, 0).value.db;
      assert Log(u.outbox) == [];
      assert TimesCompleted([], 0) == 0;
      assert IsComplete(u, 0, threshold);
    }
  }
}
