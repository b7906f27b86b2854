/** The recommendation facade: gate, filter, retrieve, rank, and the items it returns. */
module Search {
  import opened Prelude
  import opened LeadDomain
  import opened Store
  import opened RecommendationDomain
  import opened StableOrder
  import opened Ranking
  import opened Retrieval
  import Neighborhood = NeighborhoodEnrichment

  datatype Insight = Insight(propertyId: PropertyId, nearbyPlaces: seq<string>)

  datatype Item = Item(propertyId: PropertyId, rank: nat, score: real, explanation: string,
    neighborhood: Option<Insight>)

  /** What the facade is built with. */
  datatype Services = Services(
    threshold: real,
    topN: int,
    topK: int,
    embedQuery: BuyerProfile -> Vector,
    norm: Vector -> real,
    explain: (PropertyId, seq<Signal>) -> string)

  type Insights = map<PropertyId, Option<Insight>>

  function Candidates(
      services: Services, profile: BuyerProfile, properties: seq<Property>, embeddings: map<PropertyId, Vector>)
      : seq<Property>
  {
    Retrieved(services.embedQuery(profile), FilterCandidates(properties, profile), embeddings, services.norm,
      services.topN)
  }

  function ToItem(services: Services, candidate: RankedCandidate, rank: nat, insights: Insights): Item {
    Item(candidate.propertyId, rank, candidate.score,
         services.explain(candidate.propertyId, TopSignals(candidate.signals, 3)),
         if candidate.propertyId in insights then insights[candidate.propertyId] else None)
  }

  function ToItems(services: Services, ranked: seq<RankedCandidate>, insights: Insights): (items: seq<Item>)
    ensures |items| == |ranked|
    ensures forall i :: 0 <= i < |items| ==> items[i] == ToItem(services, ranked[i], i + 1, insights)
  {
    seq(|ranked|, i requires 0 <= i < |ranked| => ToItem(services, ranked[i], i + 1, insights))
  }

  /** `search`, past the staleness guard. */
  function Recommend(
    services: Services, profile: Option<BuyerProfile>, properties: seq<Property>, embeddings: map<PropertyId, Vector>,
    insights: Insights)
    : Result<seq<Item>, Error>
  {
    if profile.None? then Err(IncompleteProfile)
    else if !Gate(profile.value, services.threshold).canAdvance then Err(IncompleteProfile)
    else
      Ok(ToItems(services, Ranked(profile.value, Candidates(services, profile.value, properties, embeddings),
        services.topK), insights))
  }

  /** A recommended item is a stored property that passes every hard filter, has an embedding, and carries the score
      and the strongest signals the engine gives that property. */
  predicate Recommends(
      services: Services, profile: BuyerProfile, embeddings: map<PropertyId, Vector>, item: Item, p: Property)
  {
    && item.propertyId == p.id
    && MatchesHardFilters(p, profile)
    && p.id in embeddings
    && item.score == ScoreCandidate(profile, p).score
    && item.explanation == services.explain(p.id, TopSignals(Signals(profile, p), 3))
  }

  /** What reaches the ranking: of the properties that pass the filter and have an embedding the topN most similar to
      the query, ties in their order, most similar first. */
  lemma CandidatesAreTheMostSimilar(
      services: Services, profile: BuyerProfile, properties: seq<Property>, embeddings: map<PropertyId, Vector>)
    returns (places: seq<nat>)
    ensures var filtered := FilterCandidates(properties, profile);
            && IsMostSimilar(services.embedQuery(profile), filtered, embeddings, services.norm, places)
            && Candidates(services, profile, properties, embeddings) == Pick(filtered, places)
    ensures |places| == Kept(|Searchable(profile, properties, embeddings)|, services.topN)
  {
    places := RetrieveIsTheStableTop(services.embedQuery(profile), FilterCandidates(properties, profile), embeddings,
                                     services.norm, services.topN);
    SearchableAreCounted(profile, properties, embeddings);
  }

  /** The properties a search can find, by their places. */
  ghost function Searchable(
      profile: BuyerProfile, properties: seq<Property>, embeddings: map<PropertyId, Vector>): set<nat>
  {
    set i: nat | i < |properties| && MatchesHardFilters(properties[i], profile) && properties[i].id in embeddings
  }

  lemma {:induction false} SearchableAreCounted(
      profile: BuyerProfile, properties: seq<Property>, embeddings: map<PropertyId, Vector>)
    ensures |EmbeddedPlaces(FilterCandidates(properties, profile), embeddings)|
         == |Searchable(profile, properties, embeddings)|
    decreases |properties|
  {
    if properties != [] {
      var n := |properties| - 1;
      var before, p := properties[..n], properties[n];
      SearchableAreCounted(profile, before, embeddings);
      assert properties == before + [p];
      OneMoreSearchable(profile, before, p, embeddings);
      OneMoreEmbedded(FilterCandidates(before, profile), p, embeddings);
      FilterOneMore(before, p, profile);
    }
  }

  lemma OneMoreSearchable(
      profile: BuyerProfile, properties: seq<Property>, p: Property, embeddings: map<PropertyId, Vector>)
    ensures |Searchable(profile, properties + [p], embeddings)|
         == |Searchable(profile, properties, embeddings)|
            + if MatchesHardFilters(p, profile) && p.id in embeddings then 1 else 0
  {
    var n := |properties|;
    var found := if MatchesHardFilters(p, profile) && p.id in embeddings then {n} else {};
    assert Searchable(profile, properties + [p], embeddings) == Searchable(profile, properties, embeddings) + found;
  }

  lemma OneMoreEmbedded(candidates: seq<Property>, p: Property, embeddings: map<PropertyId, Vector>)
    ensures |EmbeddedPlaces(candidates + [p], embeddings)|
         == |EmbeddedPlaces(candidates, embeddings)| + if p.id in embeddings then 1 else 0
  {
    assert (candidates + [p])[..|candidates|] == candidates;
  }

  lemma FilterOneMore(properties: seq<Property>, p: Property, profile: BuyerProfile)
    ensures FilterCandidates(properties + [p], profile)
         == FilterCandidates(properties, profile) + if MatchesHardFilters(p, profile) then [p] else []
  {
    assert (properties + [p])[..|properties|] == properties;
  }

  /** A search goes ahead exactly with a stored profile that holds the threshold's share of the dimensions. It then
      returns as many items as there are to find, up to topN and topK. */
  lemma SearchReturns(
    services: Services, profile: Option<BuyerProfile>, properties: seq<Property>, embeddings: map<PropertyId, Vector>,
    insights: Insights)
    ensures var r := Recommend(services, profile, properties, embeddings, insights);
            && (r.Ok? <==> profile.Some? && 20.0 * |set d | profile.value.Has(d)| as real >= services.threshold)
            && (r.Err? ==> r.error == IncompleteProfile)
            && (r.Ok? && services.topN >= 0 && services.topK >= 0 ==>
                  |r.value| == Min(services.topK,
                                   Min(services.topN, |Searchable(profile.value, properties, embeddings)|)))
  {
    if profile.Some? {
      GateOpensExactlyWhen(profile.value, services.threshold);
      if Recommend(services, profile, properties, embeddings, insights).Ok? {
        var places := CandidatesAreTheMostSimilar(services, profile.value, properties, embeddings);
        var candidates := Candidates(services, profile.value, properties, embeddings);
        var ranked := RankIsTheStableTop(profile.value, candidates, services.topK);
        KeptIsTheSlice(|Searchable(profile.value, properties, embeddings)|, services.topN);
        KeptIsTheSlice(|candidates|, services.topK);
      }
    }
  }

  lemma CandidatesMatch(
      services: Services, profile: BuyerProfile, properties: seq<Property>, embeddings: map<PropertyId, Vector>,
      p: Property)
    requires p in Candidates(services, profile, properties, embeddings)
    ensures p in properties && MatchesHardFilters(p, profile) && p.id in embeddings
  {
    var filtered := FilterCandidates(properties, profile);
    var query := services.embedQuery(profile);
    var places := RetrieveIsTheStableTop(query, filtered, embeddings, services.norm, services.topN);
    var a :| 0 <= a < |places| && Pick(filtered, places)[a] == p;
    assert p == filtered[places[a]];
    FilterIsExact(properties, profile, p);
  }

  lemma ItemOf(services: Services, profile: BuyerProfile, insights: Insights, p: Property, rank: nat)
    ensures var item := ToItem(services, ScoreCandidate(profile, p), rank, insights);
            && item.propertyId == p.id && item.rank == rank
            && item.score == ScoreCandidate(profile, p).score
            && item.explanation == services.explain(p.id, TopSignals(Signals(profile, p), 3))
  {
  }

  /** Every item is a true one, ranks run from 1, and scores never increase. */
  lemma ItemsAreRanked(
    services: Services, profile: BuyerProfile, properties: seq<Property>, embeddings: map<PropertyId, Vector>,
    insights: Insights)
    returns (chosen: seq<Property>)
    requires Recommend(services, Some(profile), properties, embeddings, insights).Ok?
    ensures var items := Recommend(services, Some(profile), properties, embeddings, insights).value;
            && |chosen| == |items| == Kept(|Candidates(services, profile, properties, embeddings)|, services.topK)
            && (forall i :: 0 <= i < |items| ==>
                  chosen[i] in properties && Recommends(services, profile, embeddings, items[i], chosen[i])
                    && items[i].rank == i + 1)
            && (forall i, j :: 0 <= i < j < |items| ==> items[i].score >= items[j].score)
  {
    var candidates := Candidates(services, profile, properties, embeddings);
    var places := RankIsTheStableTop(profile, candidates, services.topK);
    chosen := Pick(candidates, places);
    var items := ToItems(services, Scored(profile, chosen), insights);
    assert Recommend(services, Some(profile), properties, embeddings, insights) == Ok(items);
    forall i | 0 <= i < |chosen| ensures chosen[i] in candidates {
      assert chosen[i] == candidates[places[i]];
    }
    ChosenAreRecommended(services, profile, properties, embeddings, insights, chosen, items);
    ScoresFall(services, profile, candidates, places, insights, items);
  }

  lemma ChosenAreRecommended(
    services: Services, profile: BuyerProfile, properties: seq<Property>, embeddings: map<PropertyId, Vector>,
    insights: Insights,
    chosen: seq<Property>, items: seq<Item>)
    requires |chosen| == |items|
    requires forall i :: 0 <= i < |chosen| ==> chosen[i] in Candidates(services, profile, properties, embeddings)
    requires forall i :: 0 <= i < |items| ==>
             items[i] == ToItem(services, ScoreCandidate(profile, chosen[i]), i + 1, insights)
    ensures forall i :: 0 <= i < |items| ==>
              chosen[i] in properties && Recommends(services, profile, embeddings, items[i], chosen[i])
                && items[i].rank == i + 1
  {
    forall i | 0 <= i < |items|
      ensures chosen[i] in properties && Recommends(services, profile, embeddings, items[i], chosen[i])
              && items[i].rank == i + 1
    {
      CandidatesMatch(services, profile, properties, embeddings, chosen[i]);
      ItemOf(services, profile, insights, chosen[i], i + 1);
    }
  }

  lemma ScoresFall(
    services: Services, profile: BuyerProfile, candidates: seq<Property>, places: seq<nat>, insights: Insights,
    items: seq<Item>)
    requires IsStableTop(profile, candidates, places) && |items| == |places|
    requires forall i :: 0 <= i < |items| ==>
             items[i] == ToItem(services, ScoreCandidate(profile, candidates[places[i]]), i + 1, insights)
    ensures forall i, j :: 0 <= i < j < |items| ==> items[i].score >= items[j].score
  {
  }

  // ---- The neighborhood of the items -----------------------------------------------------------

  lemma {:induction false} FilterKeepsDistinct(properties: seq<Property>, profile: BuyerProfile)
    requires DistinctProperties(properties)
    ensures DistinctProperties(FilterCandidates(properties, profile))
    decreases |properties|
  {
    if properties != [] {
      var n := |properties| - 1;
      FilterKeepsDistinct(properties[..n], profile);
      forall p | p in FilterCandidates(properties[..n], profile) ensures p.id != properties[n].id {
        FilterIsExact(properties[..n], profile, p);
      }
    }
  }

  /** Stored properties with different ids are recommended at most once each. */
  lemma RankedAreDistinct(
      services: Services, profile: BuyerProfile, properties: seq<Property>, embeddings: map<PropertyId, Vector>)
    requires DistinctProperties(properties)
    ensures Distinct(AskedFor(services, profile, properties, embeddings))
  {
    FilterKeepsDistinct(properties, profile);
    var filtered := FilterCandidates(properties, profile);
    var retrieved :=
      RetrieveIsTheStableTop(services.embedQuery(profile), filtered, embeddings, services.norm, services.topN);
    assert forall a, b :: 0 <= a < b < |retrieved| ==>
        MoreSimilar(services.embedQuery(profile), filtered, embeddings, services.norm, retrieved[a], retrieved[b]);
    PickKeepsDistinct(filtered, retrieved);
    var candidates := Candidates(services, profile, properties, embeddings);
    var ranked := RankIsTheStableTop(profile, candidates, services.topK);
    assert forall a, b :: 0 <= a < b < |ranked| ==> Precedes(profile, candidates, ranked[a], ranked[b]);
    PickKeepsDistinct(candidates, ranked);
    RankedIds(services, profile, candidates, ranked);
  }

  lemma PickKeepsDistinct(properties: seq<Property>, places: seq<nat>)
    requires DistinctProperties(properties) && InBounds(|properties|, places)
    requires forall a, b :: 0 <= a < b < |places| ==> places[a] != places[b]
    ensures DistinctProperties(Pick(properties, places))
  {
    var picked := Pick(properties, places);
    forall a, b | 0 <= a < b < |picked| ensures picked[a].id != picked[b].id {
      assert places[a] < places[b] || places[b] < places[a];
    }
  }

  lemma RankedIds(services: Services, profile: BuyerProfile, candidates: seq<Property>, places: seq<nat>)
    requires InBounds(|candidates|, places)
    requires Ranked(profile, candidates, services.topK) == Scored(profile, Pick(candidates, places))
    ensures var ids := IdsOf(Ranked(profile, candidates, services.topK));
            |ids| == |places| && forall a :: 0 <= a < |ids| ==> ids[a] == Pick(candidates, places)[a].id
  {
  }

  function IdsOf(ranked: seq<RankedCandidate>): (ids: seq<PropertyId>)
    ensures |ids| == |ranked| && forall a :: 0 <= a < |ids| ==> ids[a] == ranked[a].propertyId
  {
    seq(|ranked|, a requires 0 <= a < |ranked| => ranked[a].propertyId)
  }

  /** The ids whose neighborhoods the facade asks for. */
  function AskedFor(
      services: Services, profile: BuyerProfile, properties: seq<Property>, embeddings: map<PropertyId, Vector>)
      : seq<PropertyId>
  {
    IdsOf(Ranked(profile, Candidates(services, profile, properties, embeddings), services.topK))
  }

  /** What the fan-out returned, as the items carry it. */
  function InsightsOf(result: map<PropertyId, Option<Neighborhood.Places>>): Insights {
    map id | id in result :: if result[id].Some? then Some(Insight(id, result[id].value)) else None
  }

  /** The items of a search whose call of the fan-out was made at step k and had returned by state j. */
  function ItemsAfter(
    services: Services, profile: BuyerProfile, properties: seq<Property>, embeddings: map<PropertyId, Vector>,
    states: seq<Neighborhood.Fan>, k: nat, j: nat): Result<seq<Item>, Error>
    requires k < |states| && j < |states|
  {
    Recommend(services, Some(profile), properties, embeddings,
              InsightsOf(Neighborhood.Result(states[j].slots, Neighborhood.RequestAt(states, k))))
  }

  /** The item for an id, with what the fan-out returned for it. */
  predicate Answers(item: Item, id: PropertyId, result: map<PropertyId, Option<Neighborhood.Places>>) {
    && item.propertyId == id
    && item.neighborhood == if id in result && result[id].Some? then Some(Insight(id, result[id].value)) else None
  }

  predicate AllAnswer(items: seq<Item>, ids: seq<PropertyId>, result: map<PropertyId, Option<Neighborhood.Places>>) {
    |items| == |ids| && forall a :: 0 <= a < |items| ==> Answers(items[a], ids[a], result)
  }

  lemma ItemsAnswerTheIds(
    services: Services, profile: BuyerProfile, properties: seq<Property>, embeddings: map<PropertyId, Vector>,
    result: map<PropertyId, Option<Neighborhood.Places>>)
    requires Recommend(services, Some(profile), properties, embeddings, InsightsOf(result)).Ok?
    ensures var items, ids := Recommend(services, Some(profile), properties, embeddings, InsightsOf(result)).value,
                              AskedFor(services, profile, properties, embeddings);
            AllAnswer(items, ids, result)
  {
  }

  /** An item carries the places of its own lookup if they came within the budget, and nothing otherwise. */
  lemma ItemsCarryTheirLookups(
    services: Services, profile: BuyerProfile, properties: seq<Property>, embeddings: map<PropertyId, Vector>,
    maxRetries: nat, states: seq<Neighborhood.Fan>, steps: seq<Neighborhood.FanStep>, k: nat, j: nat)
    returns (items: seq<Item>)
    requires DistinctProperties(properties)
    requires Neighborhood.IsFanRun(maxRetries, states, steps)
    requires Neighborhood.RequestsAt(states, steps, k, j, AskedFor(services, profile, properties, embeddings))
    requires ItemsAfter(services, profile, properties, embeddings, states, k, j).Ok?
    ensures ItemsAfter(services, profile, properties, embeddings, states, k, j) == Ok(items)
    ensures |items| == |AskedFor(services, profile, properties, embeddings)|
    ensures AllCarry(items, states[j].slots, Neighborhood.FirstSlot(states, k))
  {
    var ids, r := AskedFor(services, profile, properties, embeddings), Neighborhood.RequestAt(states, k);
    items := ItemsAfter(services, profile, properties, embeddings, states, k, j).value;
    RankedAreDistinct(services, profile, properties, embeddings);
    Neighborhood.RequestKeepsItsSlots(maxRetries, states, steps, k, j, ids);
    ItemsAnswerTheIds(services, profile, properties, embeddings, Neighborhood.Result(states[j].slots, r));
    AnswersAreCarried(states[j], r, Neighborhood.FirstSlot(states, k), ids, items);
  }

  /** The facade never asks for a property twice, so the fan-out keeps its promise to it: whatever is announced late,
      then or in any later state, is for an item that went out without a neighborhood. */
  lemma LateInsightsAreForBareItems(
    services: Services, profile: BuyerProfile, properties: seq<Property>, embeddings: map<PropertyId, Vector>,
    maxRetries: nat, states: seq<Neighborhood.Fan>, steps: seq<Neighborhood.FanStep>, k: nat, j: nat, m: nat, i: nat)
    requires DistinctProperties(properties)
    requires Neighborhood.IsFanRun(maxRetries, states, steps) && j <= m < |states|
    requires Neighborhood.RequestsAt(states, steps, k, j, AskedFor(services, profile, properties, embeddings))
    requires Neighborhood.Returned(states[j], Neighborhood.RequestAt(states, k))
    requires ItemsAfter(services, profile, properties, embeddings, states, k, j).Ok?
    requires i < |states[m].slots| && i in states[m].late
             && states[m].slots[i].request == Neighborhood.RequestAt(states, k)
    ensures IsBareItem(ItemsAfter(services, profile, properties, embeddings, states, k, j).value, states[m].slots[i].id)
  {
    var ids, r, base := AskedFor(services, profile, properties, embeddings), Neighborhood.RequestAt(states, k),
      Neighborhood.FirstSlot(states, k);
    RankedAreDistinct(services, profile, properties, embeddings);
    LateIsMissing(maxRetries, states, steps, k, j, m, ids, i);
    ItemsAnswerTheIds(services, profile, properties, embeddings, Neighborhood.Result(states[j].slots, r));
    var items := ItemsAfter(services, profile, properties, embeddings, states, k, j).value;
    assert Answers(items[i - base], ids[i - base], Neighborhood.Result(states[j].slots, r));
  }

  lemma LateIsMissing(
    maxRetries: nat, states: seq<Neighborhood.Fan>, steps: seq<Neighborhood.FanStep>, k: nat, j: nat, m: nat,
    ids: seq<PropertyId>, i: nat)
    requires Distinct(ids)
    requires Neighborhood.IsFanRun(maxRetries, states, steps) && j <= m < |states|
    requires Neighborhood.RequestsAt(states, steps, k, j, ids)
    requires Neighborhood.Returned(states[j], Neighborhood.RequestAt(states, k))
    requires i < |states[m].slots| && i in states[m].late
             && states[m].slots[i].request == Neighborhood.RequestAt(states, k)
    ensures var base := Neighborhood.FirstSlot(states, k);
            base <= i < base + |ids| && states[m].slots[i].id == ids[i - base]
    ensures var result := Neighborhood.Result(states[j].slots, Neighborhood.RequestAt(states, k));
            states[m].slots[i].id in result && result[states[m].slots[i].id].None?
  {
    var r := Neighborhood.RequestAt(states, k);
    Neighborhood.RequestKeepsItsSlots(maxRetries, states, steps, k, j, ids);
    Neighborhood.RequestKeepsItsSlots(maxRetries, states, steps, k, m, ids);
    Neighborhood.ResultStands(maxRetries, states, steps, r, j, m);
    Neighborhood.EveryRunIsBounded(maxRetries, states, steps, m);
    Neighborhood.DistinctRequestIsSound(maxRetries, states[m], r, Neighborhood.FirstSlot(states, k), ids);
  }

  /** The item went out with what its lookup had delivered by then. */
  predicate Carries(item: Item, slot: Neighborhood.Slot) {
    && item.propertyId == slot.id
    && item.neighborhood == if slot.phase.Delivered? then Some(Insight(slot.id, slot.phase.places)) else None
  }

  /** The items carry the slots from `base` on, in order. */
  predicate AllCarry(items: seq<Item>, slots: seq<Neighborhood.Slot>, base: nat) {
    base + |items| <= |slots| && forall a :: 0 <= a < |items| ==> Carries(items[a], slots[base + a])
  }

  predicate IsBareItem(items: seq<Item>, id: PropertyId) {
    exists a :: 0 <= a < |items| && items[a].propertyId == id && items[a].neighborhood.None?
  }

  lemma AnswersAreCarried(f: Neighborhood.Fan, r: nat, base: nat, ids: seq<PropertyId>, items: seq<Item>)
    requires Neighborhood.HasRequest(f, r, base, ids) && Distinct(ids)
    requires AllAnswer(items, ids, Neighborhood.Result(f.slots, r))
    ensures AllCarry(items, f.slots, base)
  {
    forall a | 0 <= a < |items| ensures Carries(items[a], f.slots[base + a]) {
      EntryOfSlot(f, r, base, ids, a);
      assert Answers(items[a], ids[a], Neighborhood.Result(f.slots, r));
    }
  }

  lemma EntryOfSlot(f: Neighborhood.Fan, r: nat, base: nat, ids: seq<PropertyId>, a: nat)
    requires Neighborhood.HasRequest(f, r, base, ids) && Distinct(ids) && a < |ids|
    ensures ids[a] in Neighborhood.Result(f.slots, r)
    ensures Neighborhood.Result(f.slots, r)[ids[a]]
         == if f.slots[base + a].phase.Delivered? then Some(f.slots[base + a].phase.places) else None
  {
    assert Neighborhood.IsLastSlotOf(f.slots, r, ids[a], base + a);
    Neighborhood.ResultIsTheLastSlot(f.slots, r, ids[a]);
  }

  // ---- The score floor -------------------------------------------------------------------------

  /** With everything captured, passing the filter already earns the zone and type signals in full. */
  lemma FullProfileScores(profile: BuyerProfile, p: Property)
    requires forall d :: profile.Has(d)
    requires MatchesHardFilters(p, profile)
    ensures ZoneMatch(profile, p) == 1.0 && TypeMatch(profile, p) == 1.0
    ensures 0.4 <= ScoreCandidate(profile, p).score <= 1.0
  {
    assert profile.Has(Locations) && profile.Has(TypeOfProperty);
    ScoreIsTheWeightedSum(profile, p);
    BudgetFitBounds(profile, p);
    CoverageBounds(profile, p);
  }

  ghost predicate FloorHolds(services: Services) {
    forall profile: BuyerProfile, properties: seq<Property>, embeddings: map<PropertyId, Vector>, insights: Insights,
        item: Item ::
      (&& Recommend(services, Some(profile), properties, embeddings, insights).Ok?
       && item in Recommend(services, Some(profile), properties, embeddings, insights).value)
      ==> 0.4 <= item.score <= 1.0
  }

  lemma FloorAboveEighty(
    services: Services, profile: BuyerProfile, properties: seq<Property>, embeddings: map<PropertyId, Vector>,
    insights: Insights, item: Item)
    requires services.threshold > 80.0
    requires Recommend(services, Some(profile), properties, embeddings, insights).Ok?
    requires item in Recommend(services, Some(profile), properties, embeddings, insights).value
    ensures 0.4 <= item.score <= 1.0
    ensures exists p :: p in properties && Recommends(services, profile, embeddings, item, p)
                        && ZoneMatch(profile, p) == 1.0 && TypeMatch(profile, p) == 1.0
  {
    var items := Recommend(services, Some(profile), properties, embeddings, insights).value;
    var chosen := ItemsAreRanked(services, profile, properties, embeddings, insights);
    var i :| 0 <= i < |items| && items[i] == item;
    AboveEightyIsEverything(profile);
    FullProfileScores(profile, chosen[i]);
  }

  /** Which facades promise a score of at least 0.4: exactly those whose gate asks for more than 80 percent - for a
      facade that keeps at least one of one candidate. At 80 percent or less a profile without a zone gets through. */
  lemma FloorNeedsAboveEighty(services: Services)
    requires services.topN >= 1 && services.topK >= 1
    ensures FloorHolds(services) <==> services.threshold > 80.0
  {
    if services.threshold > 80.0 {
      forall profile: BuyerProfile, properties: seq<Property>, embeddings: map<PropertyId, Vector>, insights: Insights,
          item: Item
        | Recommend(services, Some(profile), properties, embeddings, insights).Ok?
          && item in Recommend(services, Some(profile), properties, embeddings, insights).value
        ensures 0.4 <= item.score <= 1.0
      {
        FloorAboveEighty(services, profile, properties, embeddings, insights, item);
      }
    } else {
      var item := ALowScore(services);
      assert !FloorHolds(services);
    }
  }

  /** Everything but a zone captured, at the edge of the budget, with none of the must-haves. */
  const ZONELESS: BuyerProfile :=
    BuyerProfile(Some(MoneyRange(100.0, 200.0)), [], Some(House), Some(Immediate), ["garden"], 0)

  const PLAIN_HOUSE: Property := Property(0, 0, "INV-0", 100.0, "centro", House, [], "", 0)

  /** Its embedding, as long as the ingestion's embedder makes them. */
  const ITS_EMBEDDING: map<PropertyId, Vector> :=
    map[0 := [1.0, 1.0, 1.0, 1.0, 1.0, 1.0, 1.0, 1.0, 1.0, 1.0, 1.0, 1.0, 1.0, 1.0, 1.0, 1.0]]

  lemma ALowScore(services: Services) returns (item: Item)
    requires services.threshold <= 80.0 && services.topN >= 1 && services.topK >= 1
    ensures Recommend(services, Some(ZONELESS), [PLAIN_HOUSE], ITS_EMBEDDING, map[]).Ok?
    ensures item in Recommend(services, Some(ZONELESS), [PLAIN_HOUSE], ITS_EMBEDDING, map[]).value
    ensures item.score == 0.1
  {
    CapturedCount(ZONELESS);
    ProjectOne(PLAIN_HOUSE, Matching(ZONELESS));
    assert FilterCandidates([PLAIN_HOUSE], ZONELESS) == [PLAIN_HOUSE];
    OneCandidate(services);
    var items := Recommend(services, Some(ZONELESS), [PLAIN_HOUSE], ITS_EMBEDDING, map[]).value;
    var chosen := ItemsAreRanked(services, ZONELESS, [PLAIN_HOUSE], ITS_EMBEDDING, map[]);
    assert chosen[0] in [PLAIN_HOUSE];
    item := items[0];
    LowSignals();
  }

  lemma OneCandidate(services: Services)
    requires services.topN >= 1
    requires FilterCandidates([PLAIN_HOUSE], ZONELESS) == [PLAIN_HOUSE]
    ensures |Candidates(services, ZONELESS, [PLAIN_HOUSE], ITS_EMBEDDING)| == 1
  {
    assert Embedded([PLAIN_HOUSE], ITS_EMBEDDING) == [PLAIN_HOUSE];
  }

  lemma LowSignals()
    ensures ScoreCandidate(ZONELESS, PLAIN_HOUSE).score == 0.1
  {
    ScoreIsTheWeightedSum(ZONELESS, PLAIN_HOUSE);
    FitInsideRange(ZONELESS, PLAIN_HOUSE);
    assert CountMatched(["garden"], []) == 0;
    assert MustHaveCoverage(ZONELESS, PLAIN_HOUSE) == 0.0;
  }
}
