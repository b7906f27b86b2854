/** Value objects of the lead bounded context: pipeline stages, profile patches and the buyer profile. */
module LeadDomain {
  import opened Prelude

  datatype PipelineStage = StageNew | Qualified | AppointmentSet | Visited | StageNegotiation | Won | Lost

  datatype Timeline = Immediate | ThreeMonths | SixMonths | OverSixMonths | Exploring

  datatype PropertyType = Apartment | House | Land | Commercial | OtherType

  /** The wire and column text of a stage. */
  function StageName(s: PipelineStage): string {
    match s
    case StageNew => "New"
    case Qualified => "Qualified"
    case AppointmentSet => "AppointmentSet"
    case Visited => "Visited"
    case StageNegotiation => "Negotiation"
    case Won => "Won"
    case Lost => "Lost"
  }

  /** `PipelineStage(text)`: the stage with exactly that text, or a ValueError. */
  function ParseStage(text: string): (r: Option<PipelineStage>)
    ensures r.Some? ==> StageName(r.value) == text
  {
    if text == "New" then Some(StageNew)
    else if text == "Qualified" then Some(Qualified)
    else if text == "AppointmentSet" then Some(AppointmentSet)
    else if text == "Visited" then Some(Visited)
    else if text == "Negotiation" then Some(StageNegotiation)
    else if text == "Won" then Some(Won)
    else if text == "Lost" then Some(Lost)
    else None
  }

  lemma StageRoundTrip(s: PipelineStage)
    ensures ParseStage(StageName(s)) == Some(s)
  {
  }

  /** The seven texts of the contract, and no other. */
  const CONTRACT_STAGES: seq<string> :=
    ["New", "Qualified", "AppointmentSet", "Visited", "Negotiation", "Won", "Lost"]

  lemma OnlyContractStagesParse(text: string)
    ensures ParseStage(text).Some? <==> text in CONTRACT_STAGES
    ensures ParseStage(text).Some? ==> CONTRACT_STAGES[StageRank(ParseStage(text).value)] == text
  {
    if ParseStage(text).Some? {
      assert CONTRACT_STAGES[StageRank(ParseStage(text).value)] == text;
    }
  }

  /** Where a stage stands in the pipeline. */
  function StageRank(s: PipelineStage): (rank: nat)
    ensures rank < 7
  {
    match s
    case StageNew => 0
    case Qualified => 1
    case AppointmentSet => 2
    case Visited => 3
    case StageNegotiation => 4
    case Won => 5
    case Lost => 6
  }

  function TimelineName(t: Timeline): string {
    match t
    case Immediate => "immediate"
    case ThreeMonths => "3_months"
    case SixMonths => "6_months"
    case OverSixMonths => "over_6_months"
    case Exploring => "exploring"
  }

  function ParseTimeline(text: string): Option<Timeline> {
    if text == "immediate" then Some(Immediate)
    else if text == "3_months" then Some(ThreeMonths)
    else if text == "6_months" then Some(SixMonths)
    else if text == "over_6_months" then Some(OverSixMonths)
    else if text == "exploring" then Some(Exploring)
    else None
  }

  function PropertyTypeName(p: PropertyType): string {
    match p
    case Apartment => "apartment"
    case House => "house"
    case Land => "land"
    case Commercial => "commercial"
    case OtherType => "other"
  }

  function ParsePropertyType(text: string): Option<PropertyType> {
    if text == "apartment" then Some(Apartment)
    else if text == "house" then Some(House)
    else if text == "land" then Some(Land)
    else if text == "commercial" then Some(Commercial)
    else if text == "other" then Some(OtherType)
    else None
  }

  datatype MoneyRange = MoneyRange(minimum: real, maximum: real) {
    /** What `__post_init__` accepts. */
    predicate Valid() { 0.0 < minimum && 0.0 < maximum && minimum <= maximum }
  }

  /** One profiling increment; an absent dimension is left alone, never cleared. */
  datatype ProfilePatch = ProfilePatch(
    budget: Option<MoneyRange>,
    locations: Option<seq<string>>,
    propertyType: Option<PropertyType>,
    timeline: Option<Timeline>,
    mustHaves: Option<seq<string>>)
  {
    /** What can be constructed: a valid range, and no empty list. */
    predicate Valid() {
      && (budget.Some? ==> budget.value.Valid())
      && locations != Some([])
      && mustHaves != Some([])
    }

    predicate IsEmpty() {
      budget.None? && locations.None? && propertyType.None? && timeline.None? && mustHaves.None?
    }
  }

  datatype Dimension = Budget | Locations | TypeOfProperty | Horizon | MustHaves

  const PROFILE_DIMENSIONS: seq<Dimension> := [Budget, Locations, TypeOfProperty, Horizon, MustHaves]

  type Time = int

  datatype BuyerProfile = BuyerProfile(
    budget: Option<MoneyRange>,
    locations: seq<string>,
    propertyType: Option<PropertyType>,
    timeline: Option<Timeline>,
    mustHaves: seq<string>,
    updatedAt: Time)
  {
    predicate Valid() { budget.Some? ==> budget.value.Valid() }

    predicate Has(d: Dimension) {
      match d
      case Budget => budget.Some?
      case Locations => locations != []
      case TypeOfProperty => propertyType.Some?
      case Horizon => timeline.Some?
      case MustHaves => mustHaves != []
    }

    function CapturedDimensions(): seq<Dimension> {
      (if budget.Some? then [Budget] else [])
      + (if locations != [] then [Locations] else [])
      + (if propertyType.Some? then [TypeOfProperty] else [])
      + (if timeline.Some? then [Horizon] else [])
      + (if mustHaves != [] then [MustHaves] else [])
    }

    function MissingFrom(dimensions: seq<Dimension>): (missing: seq<Dimension>)
      ensures forall d :: d in missing <==> d in dimensions && !Has(d)
    {
      if dimensions == [] then []
      else (if Has(dimensions[0]) then [] else [dimensions[0]]) + MissingFrom(dimensions[1..])
    }

    function MissingDimensions(): seq<Dimension> { MissingFrom(PROFILE_DIMENSIONS) }

    /** Percent of the five dimensions captured. */
    function Completeness(): real { 100.0 * |CapturedDimensions()| as real / 5.0 }

    function Apply(patch: ProfilePatch, now: Time): BuyerProfile {
      BuyerProfile(
        if patch.budget.Some? then patch.budget else budget,
        if patch.locations.Some? then patch.locations.value else locations,
        if patch.propertyType.Some? then patch.propertyType else propertyType,
        if patch.timeline.Some? then patch.timeline else timeline,
        if patch.mustHaves.Some? then patch.mustHaves.value else mustHaves,
        now)
    }
  }

  function EmptyProfile(now: Time): BuyerProfile {
    BuyerProfile(None, [], None, None, [], now)
  }

  function One(b: bool): nat { if b then 1 else 0 }

  /** The number of captured dimensions, written out. */
  lemma CapturedCount(p: BuyerProfile)
    ensures |p.CapturedDimensions()|
         == One(p.Has(Budget)) + One(p.Has(Locations)) + One(p.Has(TypeOfProperty)) + One(p.Has(Horizon))
            + One(p.Has(MustHaves))
  {
  }

  /** A valid patch never loses a dimension, and captures every dimension it carries. */
  lemma ApplyIsMonotone(p: BuyerProfile, patch: ProfilePatch, now: Time)
    requires patch.Valid()
    ensures forall d :: p.Has(d) ==> p.Apply(patch, now).Has(d)
    ensures p.Completeness() <= p.Apply(patch, now).Completeness()
    ensures p.Valid() ==> p.Apply(patch, now).Valid()
  {
  }

  predicate Carries(patch: ProfilePatch, d: Dimension) {
    match d
    case Budget => patch.budget.Some?
    case Locations => patch.locations.Some?
    case TypeOfProperty => patch.propertyType.Some?
    case Horizon => patch.timeline.Some?
    case MustHaves => patch.mustHaves.Some?
  }

  predicate IsWithin(price: real, r: MoneyRange) { r.minimum <= price <= r.maximum }

  /** A range is valid exactly when its least price is positive and some price lies in it. */
  lemma RangeIsValidExactlyWhen(r: MoneyRange)
    ensures r.Valid() <==> r.minimum > 0.0 && exists price: real :: IsWithin(price, r)
  {
    if r.Valid() { assert IsWithin(r.minimum, r); }
  }

  /** Dimension by dimension, `after` has the patch's value where the patch carries one, and the value of `before` where
      it does not; it is dated with the patch. */
  predicate IsPatched(before: BuyerProfile, patch: ProfilePatch, now: Time, after: BuyerProfile) {
    && after.budget == (if Carries(patch, Budget) then patch.budget else before.budget)
    && (Carries(patch, Locations) ==> patch.locations == Some(after.locations))
    && (!Carries(patch, Locations) ==> after.locations == before.locations)
    && after.propertyType == (if Carries(patch, TypeOfProperty) then patch.propertyType else before.propertyType)
    && after.timeline == (if Carries(patch, Horizon) then patch.timeline else before.timeline)
    && (Carries(patch, MustHaves) ==> patch.mustHaves == Some(after.mustHaves))
    && (!Carries(patch, MustHaves) ==> after.mustHaves == before.mustHaves)
    && after.updatedAt == now
  }

  lemma PatchedByDimension(p: BuyerProfile, patch: ProfilePatch, now: Time)
    ensures IsPatched(p, patch, now, p.Apply(patch, now))
    ensures forall after :: IsPatched(p, patch, now, after) ==> after == p.Apply(patch, now)
  {
    assert Carries(patch, Budget) || !Carries(patch, Budget);
    assert Carries(patch, Locations) || !Carries(patch, Locations);
    assert Carries(patch, TypeOfProperty) || !Carries(patch, TypeOfProperty);
    assert Carries(patch, Horizon) || !Carries(patch, Horizon);
    assert Carries(patch, MustHaves) || !Carries(patch, MustHaves);
  }

  /** No valid profile loses its validity or a dimension to the patch. */
  ghost predicate IsHarmless(patch: ProfilePatch) {
    forall p: BuyerProfile, now: Time :: p.Valid() ==>
      p.Apply(patch, now).Valid() && forall d :: p.Has(d) ==> p.Apply(patch, now).Has(d)
  }

  /** The patches that can be constructed are exactly those that do a profile no harm, and the empty ones exactly those
      that leave every profile as it is. */
  lemma PatchIsValidExactlyWhen(patch: ProfilePatch)
    ensures patch.Valid() <==> IsHarmless(patch)
    ensures patch.IsEmpty() <==> forall p: BuyerProfile :: p.Apply(patch, p.updatedAt) == p
  {
    if patch.Valid() {
      forall p: BuyerProfile, now: Time | p.Valid()
        ensures p.Apply(patch, now).Valid() && forall d :: p.Has(d) ==> p.Apply(patch, now).Has(d)
      {
        ApplyIsMonotone(p, patch, now);
      }
    } else {
      var full := BuyerProfile(None, ["centro"], None, None, ["garden"], 0);
      assert full.Valid() && full.Has(Locations) && full.Has(MustHaves);
      var after := full.Apply(patch, 0);
      assert !after.Valid() || !after.Has(Locations) || !after.Has(MustHaves);
    }
    if !patch.IsEmpty() {
      SomethingChanges(patch);
    }
  }

  lemma SomethingChanges(patch: ProfilePatch)
    requires !patch.IsEmpty()
    ensures exists p: BuyerProfile :: p.Apply(patch, p.updatedAt) != p
  {
    var none, some := EmptyProfile(0), BuyerProfile(None, ["centro"], None, None, ["garden"], 0);
    assert none.Apply(patch, none.updatedAt) != none || some.Apply(patch, some.updatedAt) != some;
  }

  /** Every dimension counts for 20 percent, whichever it is. */
  lemma CompletenessCountsDimensions(p: BuyerProfile)
    ensures p.Completeness() == 20.0 * |set d | p.Has(d)| as real
  {
    CapturedCount(p);
    var all := [Budget, Locations, TypeOfProperty, Horizon, MustHaves];
    HoldingOf(p, all);
    forall d ensures d in all {
      match d
      case Budget => assert all[0] == d;
      case Locations => assert all[1] == d;
      case TypeOfProperty => assert all[2] == d;
      case Horizon => assert all[3] == d;
      case MustHaves => assert all[4] == d;
    }
    assert (set d | p.Has(d)) == set d | d in all && p.Has(d);
    assert all[..4] == [Budget, Locations, TypeOfProperty, Horizon]
        && all[..4][..3] == [Budget, Locations, TypeOfProperty];
    assert all[..4][..3][..2] == [Budget, Locations] && all[..4][..3][..2][..1] == [Budget];
    assert HeldOf(p, all) == HeldOf(p, [Budget, Locations, TypeOfProperty, Horizon]) + One(p.Has(MustHaves));
    assert HeldOf(p, [Budget, Locations, TypeOfProperty])
        == HeldOf(p, [Budget, Locations]) + One(p.Has(TypeOfProperty));
    assert HeldOf(p, [Budget]) == One(p.Has(Budget));
  }

  function HeldOf(p: BuyerProfile, dimensions: seq<Dimension>): nat {
    if dimensions == [] then 0
    else HeldOf(p, dimensions[..|dimensions| - 1]) + One(p.Has(dimensions[|dimensions| - 1]))
  }

  lemma {:induction false} HoldingOf(p: BuyerProfile, dimensions: seq<Dimension>)
    requires Distinct(dimensions)
    ensures |set d | d in dimensions && p.Has(d)| == HeldOf(p, dimensions)
  {
    if dimensions != [] {
      var n := |dimensions| - 1;
      HoldingOf(p, dimensions[..n]);
      var before := set d | d in dimensions[..n] && p.Has(d);
      assert dimensions[n] !in dimensions[..n];
      assert (set d | d in dimensions && p.Has(d)) == before + if p.Has(dimensions[n]) then {dimensions[n]} else {};
    }
  }

  /** A valid patch captures exactly what it carries on top of what there was; twice is once, and of two patches the
      later one decides what it carries. */
  lemma ApplyCapturesWhatItCarries(p: BuyerProfile, first: ProfilePatch, second: ProfilePatch, t1: Time, t2: Time)
    requires first.Valid() && second.Valid()
    ensures forall d :: p.Apply(first, t1).Has(d) <==> p.Has(d) || Carries(first, d)
    ensures p.Apply(first, t1).Apply(first, t2) == p.Apply(first, t2)
    ensures (forall d :: Carries(first, d) ==> Carries(second, d)) ==>
            p.Apply(first, t1).Apply(second, t2) == p.Apply(second, t2)
    ensures (forall d :: Carries(first, d) ==> !Carries(second, d)) ==>
              p.Apply(first, t1).Apply(second, t2) == p.Apply(second, t1).Apply(first, t2)
  {
    assert Carries(first, Budget) || !Carries(first, Budget);
    assert Carries(first, Locations) || !Carries(first, Locations);
    assert Carries(first, TypeOfProperty) || !Carries(first, TypeOfProperty);
    assert Carries(first, Horizon) || !Carries(first, Horizon);
    assert Carries(first, MustHaves) || !Carries(first, MustHaves);
  }

  /** Above 80 percent leaves no room for a missing dimension. */
  lemma AboveEightyIsEverything(p: BuyerProfile)
    ensures p.Completeness() > 80.0 <==> forall d :: p.Has(d)
  {
    CapturedCount(p);
    if p.Completeness() > 80.0 {
      assert |p.CapturedDimensions()| == 5;
      forall d ensures p.Has(d) {
        match d
        case Budget =>
        case Locations =>
        case TypeOfProperty =>
        case Horizon =>
        case MustHaves =>
      }
    }
  }

  /** `CompletenessGate`: the verdict and the first dimension to ask about. */
  datatype GateResult = GateResult(canAdvance: bool, completeness: real, missing: Option<Dimension>)

  function Gate(p: BuyerProfile, threshold: real): GateResult {
    var completeness := p.Completeness();
    if completeness >= threshold then GateResult(true, completeness, None)
    else
      var missing := p.MissingDimensions();
      GateResult(false, completeness, if missing == [] then None else Some(missing[0]))
  }

  /** The profile lacks `d` and has every dimension asked for before it. */
  predicate IsFirstMissing(p: BuyerProfile, d: Dimension) {
    && !p.Has(d)
    && exists k :: 0 <= k < |PROFILE_DIMENSIONS| && PROFILE_DIMENSIONS[k] == d
                   && forall i :: 0 <= i < k ==> p.Has(PROFILE_DIMENSIONS[i])
  }

  lemma {:induction false} MissingComesFirst(p: BuyerProfile, dimensions: seq<Dimension>) returns (k: nat)
    requires p.MissingFrom(dimensions) != []
    ensures k < |dimensions| && p.MissingFrom(dimensions)[0] == dimensions[k] && !p.Has(dimensions[k])
    ensures forall i :: 0 <= i < k ==> p.Has(dimensions[i])
  {
    if !p.Has(dimensions[0]) {
      k := 0;
    } else {
      var rest := MissingComesFirst(p, dimensions[1..]);
      k := rest + 1;
    }
  }

  /** A refusal below any reachable threshold always names a dimension the profile lacks;
      an unreachable threshold refuses a full profile without naming one. */
  lemma GateNamesAMissingDimension(p: BuyerProfile, threshold: real)
    requires !Gate(p, threshold).canAdvance
    ensures Gate(p, threshold).missing.Some? <==> p.Completeness() < 100.0
    ensures threshold <= 100.0 ==> Gate(p, threshold).missing.Some?
    ensures Gate(p, threshold).missing.Some? ==> IsFirstMissing(p, Gate(p, threshold).missing.value)
  {
    CapturedCount(p);
    var missing := p.MissingDimensions();
    if missing == [] {
      assert forall d :: d in PROFILE_DIMENSIONS ==> p.Has(d) by {
        forall d | d in PROFILE_DIMENSIONS ensures p.Has(d) {
          assert d !in missing;
        }
      }
      assert PROFILE_DIMENSIONS[0] == Budget && PROFILE_DIMENSIONS[1] == Locations
          && PROFILE_DIMENSIONS[2] == TypeOfProperty
          && PROFILE_DIMENSIONS[3] == Horizon && PROFILE_DIMENSIONS[4] == MustHaves;
      assert p.Completeness() == 100.0;
    } else {
      assert missing[0] in missing;
      var k := MissingComesFirst(p, PROFILE_DIMENSIONS);
    }
  }

  /** The gate lets a profile through exactly when it holds at least the threshold's share of the five dimensions, and
      reports that share. */
  lemma GateOpensExactlyWhen(p: BuyerProfile, threshold: real)
    ensures Gate(p, threshold).canAdvance <==> 20.0 * |set d | p.Has(d)| as real >= threshold
    ensures Gate(p, threshold).completeness == 20.0 * |set d | p.Has(d)| as real
    ensures Gate(p, threshold).canAdvance ==> Gate(p, threshold).missing.None?
  {
    CompletenessCountsDimensions(p);
  }
}
