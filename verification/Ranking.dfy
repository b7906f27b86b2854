/** The weighted ranking engine, in exact arithmetic. */
module Ranking {
  import opened Prelude
  import opened LeadDomain
  import opened RecommendationDomain
  import opened StableOrder

  datatype Signal = Signal(name: string, weight: real, value: real) {
    function Contribution(): real { weight * value }
  }

  datatype RankedCandidate = RankedCandidate(propertyId: PropertyId, score: real, signals: seq<Signal>)

  // ---- The four signals ------------------------------------------------------------------------

  function Abs(x: real): real { if x < 0.0 then -x else x }

  function BudgetFit(profile: BuyerProfile, p: Property): real {
    if profile.budget.None? then 0.0
    else
      var budget := profile.budget.value;
      if budget.minimum > budget.maximum then 0.0
      else if !(budget.minimum <= p.price <= budget.maximum) then 0.0
      else
        var span := budget.maximum - budget.minimum;
        if span == 0.0 then 1.0
        else
          var midpoint := (budget.minimum + budget.maximum) / 2.0;
          var fit := 1.0 - Abs(p.price - midpoint) / (span / 2.0);
          if fit > 0.0 then fit else 0.0
  }

  function ZoneMatch(profile: BuyerProfile, p: Property): real {
    if profile.locations == [] then 0.0 else if p.zone in profile.locations then 1.0 else 0.0
  }

  function CountMatched(mustHaves: seq<string>, features: seq<string>): (n: nat)
    ensures n <= |mustHaves|
    ensures n == |mustHaves| <==> forall i :: 0 <= i < |mustHaves| ==> mustHaves[i] in features
  {
    if mustHaves == [] then 0
    else
      var last := |mustHaves| - 1;
      CountMatched(mustHaves[..last], features) + if mustHaves[last] in features then 1 else 0
  }

  function MustHaveCoverage(profile: BuyerProfile, p: Property): real {
    if profile.mustHaves == [] then 0.0
    else CountMatched(profile.mustHaves, p.features) as real / |profile.mustHaves| as real
  }

  function TypeMatch(profile: BuyerProfile, p: Property): real {
    if profile.propertyType.None? then 0.0 else if p.propertyType == profile.propertyType.value then 1.0 else 0.0
  }

  function Signals(profile: BuyerProfile, p: Property): seq<Signal> {
    [Signal("budget_fit", 0.4, BudgetFit(profile, p)),
     Signal("zone_match", 0.3, ZoneMatch(profile, p)),
     Signal("must_have_coverage", 0.2, MustHaveCoverage(profile, p)),
     Signal("type_match", 0.1, TypeMatch(profile, p))]
  }

  function TotalContribution(signals: seq<Signal>): real {
    if signals == [] then 0.0
    else TotalContribution(signals[..|signals| - 1]) + signals[|signals| - 1].Contribution()
  }

  function ScoreCandidate(profile: BuyerProfile, p: Property): RankedCandidate {
    var signals := Signals(profile, p);
    RankedCandidate(p.id, TotalContribution(signals), signals)
  }

  /** The score is the weighted sum of its own four signals. */
  lemma ScoreIsTheWeightedSum(profile: BuyerProfile, p: Property)
    ensures ScoreCandidate(profile, p).score
         == 0.4 * BudgetFit(profile, p) + 0.3 * ZoneMatch(profile, p) + 0.2 * MustHaveCoverage(profile, p)
            + 0.1 * TypeMatch(profile, p)
  {
    var s := Signals(profile, p);
    SumOfFour(s[0], s[1], s[2], s[3]);
  }

  lemma SumOfFour(a: Signal, b: Signal, c: Signal, d: Signal)
    ensures TotalContribution([a, b, c, d]) == a.Contribution() + b.Contribution() + c.Contribution() + d.Contribution()
  {
    assert [a, b, c, d][..3] == [a, b, c];
    assert [a, b, c][..2] == [a, b];
    assert [a, b][..1] == [a];
    assert [a][..0] == [];
    assert TotalContribution([a]) == a.Contribution();
    assert TotalContribution([a, b]) == a.Contribution() + b.Contribution();
    assert TotalContribution([a, b, c]) == a.Contribution() + b.Contribution() + c.Contribution();
  }

  // ---- Budget fit ------------------------------------------------------------------------------

  function Distance(budget: MoneyRange, price: real): real {
    Abs(price - (budget.minimum + budget.maximum) / 2.0)
  }

  /** Inside a proper range the fit is 1 minus the distance from the midpoint in half-widths. */
  lemma FitInsideRange(profile: BuyerProfile, p: Property)
    requires profile.budget.Some?
    requires var b := profile.budget.value; b.minimum < b.maximum && b.minimum <= p.price <= b.maximum
    ensures var b := profile.budget.value;
            var half := (b.maximum - b.minimum) / 2.0;
            && 0.0 <= Distance(b, p.price) <= half
            && BudgetFit(profile, p) == 1.0 - Distance(b, p.price) / half
            && 0.0 <= Distance(b, p.price) / half <= 1.0
  {
    var b := profile.budget.value;
    var half := (b.maximum - b.minimum) / 2.0;
    var d := Distance(b, p.price);
    QuotientBounds(d, half);
  }

  lemma Unscale(q: real, d: real)
    requires d > 0.0
    ensures q < 0.0 <==> q * d < 0.0
    ensures q > 1.0 <==> q * d > d
  {
    assert q * d - d == (q - 1.0) * d;
  }

  lemma QuotientBounds(d: real, half: real)
    requires half > 0.0 && 0.0 <= d <= half
    ensures 0.0 <= d / half <= 1.0
    ensures d / half == 0.0 <==> d == 0.0
  {
    var q := d / half;
    assert q * half == d;
    Unscale(q, half);
  }

  /** The fit is in [0, 1], and 1 exactly at the midpoint of the range - which for a range of no width is its only
      price. */
  lemma BudgetFitBounds(profile: BuyerProfile, p: Property)
    ensures 0.0 <= BudgetFit(profile, p) <= 1.0
    ensures BudgetFit(profile, p) == 1.0 <==>
            (&& profile.budget.Some?
             && var b := profile.budget.value;
             && b.minimum <= b.maximum && Distance(b, p.price) == 0.0)
    ensures profile.budget.None? || !(profile.budget.value.minimum <= p.price <= profile.budget.value.maximum) ==>
            BudgetFit(profile, p) == 0.0
  {
    if profile.budget.Some? {
      var b := profile.budget.value;
      if b.minimum < b.maximum && b.minimum <= p.price <= b.maximum {
        FitInsideRange(profile, p);
        QuotientBounds(Distance(b, p.price), (b.maximum - b.minimum) / 2.0);
      }
    }
  }

  /** Inside the range a price farther from the midpoint fits strictly worse. */
  lemma FitFallsWithDistance(profile: BuyerProfile, p: Property, q: Property)
    requires profile.budget.Some?
    requires var b := profile.budget.value; b.minimum <= p.price <= b.maximum && b.minimum <= q.price <= b.maximum
    ensures Distance(profile.budget.value, p.price) < Distance(profile.budget.value, q.price) <==>
            BudgetFit(profile, p) > BudgetFit(profile, q)
  {
    var b := profile.budget.value;
    if b.minimum < b.maximum {
      FitInsideRange(profile, p);
      FitInsideRange(profile, q);
      QuotientOrder(Distance(b, p.price), Distance(b, q.price), (b.maximum - b.minimum) / 2.0);
    }
  }

  lemma QuotientOrder(c: real, d: real, half: real)
    requires half > 0.0
    ensures c < d <==> c / half < d / half
  {
    var x, y := c / half, d / half;
    assert x * half == c && y * half == d;
    if x < y {
      assert (y - x) * half > 0.0;
    } else {
      assert (x - y) * half >= 0.0;
    }
  }

  lemma ShareBounds(n: real, d: real)
    requires 0.0 <= n <= d && d > 0.0
    ensures 0.0 <= n / d <= 1.0
    ensures n / d == 1.0 <==> n == d
  {
    var q := n / d;
    assert q * d == n;
    Unscale(q, d);
    if q == 1.0 { assert q * d == d; }
  }

  lemma CoverageBounds(profile: BuyerProfile, p: Property)
    ensures 0.0 <= MustHaveCoverage(profile, p) <= 1.0
    ensures MustHaveCoverage(profile, p) == 1.0 <==>
            profile.mustHaves != [] && forall i :: 0 <= i < |profile.mustHaves| ==> profile.mustHaves[i] in p.features
  {
    if profile.mustHaves != [] {
      ShareBounds(CountMatched(profile.mustHaves, p.features) as real, |profile.mustHaves| as real);
    }
  }

  /** The must-haves a property meets, by their places in the list. */
  ghost function Met(mustHaves: seq<string>, features: seq<string>): set<nat> {
    set i: nat | i < |mustHaves| && mustHaves[i] in features
  }

  lemma {:induction false} CountIsTheNumberMet(mustHaves: seq<string>, features: seq<string>)
    ensures CountMatched(mustHaves, features) == |Met(mustHaves, features)|
  {
    if mustHaves != [] {
      var n := |mustHaves| - 1;
      CountIsTheNumberMet(mustHaves[..n], features);
      assert Met(mustHaves, features) == Met(mustHaves[..n], features) + if mustHaves[n] in features then {n} else {};
    }
  }

  lemma {:induction false} CountWithout(mustHaves: seq<string>, features: seq<string>, j: nat)
    requires j < |mustHaves|
    ensures CountMatched(mustHaves, features)
         == CountMatched(mustHaves[..j] + mustHaves[j + 1..], features) + if mustHaves[j] in features then 1 else 0
    decreases |mustHaves|
  {
    var n := |mustHaves| - 1;
    var rest := mustHaves[..j] + mustHaves[j + 1..];
    if j < n {
      CountWithout(mustHaves[..n], features, j);
      assert rest[..n - 1] == mustHaves[..n][..j] + mustHaves[..n][j + 1..];
    } else {
      assert rest == mustHaves[..n];
    }
  }

  lemma WithoutOne(s: seq<string>, j: nat)
    requires j < |s|
    ensures multiset(s[..j] + s[j + 1..]) == multiset(s) - multiset{s[j]}
  {
    assert s == s[..j] + [s[j]] + s[j + 1..];
  }

  /** The order in which must-haves are listed does not matter. */
  lemma {:induction false} CountIgnoresOrder(mustHaves: seq<string>, others: seq<string>, features: seq<string>)
    requires multiset(mustHaves) == multiset(others)
    ensures CountMatched(mustHaves, features) == CountMatched(others, features)
    decreases |mustHaves|
  {
    if mustHaves == [] {
      assert |multiset(others)| == 0;
    } else {
      var n := |mustHaves| - 1;
      WithoutOne(mustHaves, n);
      assert mustHaves[..n] + mustHaves[n + 1..] == mustHaves[..n];
      assert mustHaves[n] in multiset(others);
      var j :| 0 <= j < |others| && others[j] == mustHaves[n];
      WithoutOne(others, j);
      CountIgnoresOrder(mustHaves[..n], others[..j] + others[j + 1..], features);
      CountWithout(others, features, j);
    }
  }

  /** Coverage is the share of the must-haves that are met, and without must-haves it is 0. */
  lemma CoverageIsTheShareMet(profile: BuyerProfile, p: Property)
    ensures profile.mustHaves == [] ==> MustHaveCoverage(profile, p) == 0.0
    ensures MustHaveCoverage(profile, p) * |profile.mustHaves| as real == |Met(profile.mustHaves, p.features)| as real
  {
    CountIsTheNumberMet(profile.mustHaves, p.features);
    if profile.mustHaves == [] {
      assert Met([], p.features) == {};
    } else {
      var n, d := CountMatched(profile.mustHaves, p.features) as real, |profile.mustHaves| as real;
      assert n / d * d == n;
    }
  }

  /** Meeting one more must-have, all else equal, raises the score by exactly 0.2 over their number. */
  lemma OneMoreMet(profile: BuyerProfile, p: Property, features: seq<string>)
    requires |Met(profile.mustHaves, features)| == |Met(profile.mustHaves, p.features)| + 1
    ensures profile.mustHaves != []
    ensures ScoreCandidate(profile, p.(features := features)).score
         == ScoreCandidate(profile, p).score + 0.2 / |profile.mustHaves| as real
  {
    var q := p.(features := features);
    ScoreIsTheWeightedSum(profile, p);
    ScoreIsTheWeightedSum(profile, q);
    CountIsTheNumberMet(profile.mustHaves, features);
    CountIsTheNumberMet(profile.mustHaves, p.features);
    Share(CountMatched(profile.mustHaves, p.features) as real, |profile.mustHaves| as real);
  }

  lemma Share(n: real, d: real)
    requires d > 0.0
    ensures 0.2 * ((n + 1.0) / d) == 0.2 * (n / d) + 0.2 / d
  {
    assert (n + 1.0) / d == n / d + 1.0 / d;
    assert 0.2 * (1.0 / d) == 0.2 / d;
  }

  /** A score in full: 0.4 for the budget, 0.3 exactly for a wished zone, up to 0.2 for the must-haves, 0.1 exactly for
      the wished type - and what the profile does not ask for earns nothing. */
  lemma ScoreInFull(profile: BuyerProfile, p: Property)
    ensures var s := ScoreCandidate(profile, p);
            && s.propertyId == p.id && |s.signals| == 4
            && s.signals[0].name == "budget_fit" && s.signals[1].name == "zone_match"
            && s.signals[2].name == "must_have_coverage" && s.signals[3].name == "type_match"
            && s.signals[0].Contribution() == 0.4 * BudgetFit(profile, p)
            && s.signals[1].Contribution() == (if p.zone in profile.locations then 0.3 else 0.0)
            && s.signals[2].Contribution() * |profile.mustHaves| as real
                 == 0.2 * |Met(profile.mustHaves, p.features)| as real
            && s.signals[3].Contribution() == (if profile.propertyType == Some(p.propertyType) then 0.1 else 0.0)
            && s.score == s.signals[0].Contribution() + s.signals[1].Contribution() + s.signals[2].Contribution()
                          + s.signals[3].Contribution()
  {
    var s := ScoreCandidate(profile, p).signals;
    SumOfFour(s[0], s[1], s[2], s[3]);
    CoverageEarns(profile, p);
  }

  lemma CoverageEarns(profile: BuyerProfile, p: Property)
    ensures 0.2 * MustHaveCoverage(profile, p) * |profile.mustHaves| as real
         == 0.2 * |Met(profile.mustHaves, p.features)| as real
  {
    CoverageIsTheShareMet(profile, p);
    Scaled(MustHaveCoverage(profile, p), |profile.mustHaves| as real, |Met(profile.mustHaves, p.features)| as real);
  }

  lemma Scaled(c: real, d: real, n: real)
    requires c * d == n
    ensures 0.2 * c * d == 0.2 * n
  {
  }

  lemma ScoreBounds(profile: BuyerProfile, p: Property)
    ensures 0.0 <= ScoreCandidate(profile, p).score <= 1.0
  {
    ScoreIsTheWeightedSum(profile, p);
    BudgetFitBounds(profile, p);
    CoverageBounds(profile, p);
  }

  // ---- Ranking ---------------------------------------------------------------------------------

  function Scored(profile: BuyerProfile, candidates: seq<Property>): (r: seq<RankedCandidate>)
    ensures |r| == |candidates|
    ensures forall i :: 0 <= i < |r| ==> r[i] == ScoreCandidate(profile, candidates[i])
  {
    seq(|candidates|, i requires 0 <= i < |candidates| => ScoreCandidate(profile, candidates[i]))
  }

  function Scores(ranked: seq<RankedCandidate>): (keys: seq<real>)
    ensures |keys| == |ranked| && forall i :: 0 <= i < |keys| ==> keys[i] == ranked[i].score
  {
    seq(|ranked|, i requires 0 <= i < |ranked| => ranked[i].score)
  }

  function Ranked(profile: BuyerProfile, candidates: seq<Property>, k: int): seq<RankedCandidate> {
    var scored := Scored(profile, candidates);
    Pick(scored, Top(Scores(scored), k))
  }

  /** `rank`. */
  method Rank(profile: BuyerProfile, candidates: seq<Property>, k: int) returns (r: seq<RankedCandidate>)
    ensures r == Ranked(profile, candidates, k)
  {
    var ranked: seq<RankedCandidate> := [];
    var i := 0;
    while i < |candidates|
      invariant 0 <= i <= |candidates|
      invariant ranked == Scored(profile, candidates[..i])
    {
      assert candidates[..i + 1] == candidates[..i] + [candidates[i]];
      ranked := ranked + [ScoreCandidate(profile, candidates[i])];
      assert ranked == Scored(profile, candidates[..i + 1]);
      i := i + 1;
    }
    assert candidates[..i] == candidates;
    r := Pick(ranked, Top(Scores(ranked), k));
  }

  /** `places` are distinct candidates, the best by score and, among equals, by input order: nothing left out
      comes before anything kept. */
  predicate IsStableTop(profile: BuyerProfile, candidates: seq<Property>, places: seq<nat>) {
    && InBounds(|candidates|, places)
    && (forall a, b :: 0 <= a < b < |places| ==> Precedes(profile, candidates, places[a], places[b]))
    && (forall a, j: nat :: 0 <= a < |places| && j < |candidates| && j !in places ==>
         Precedes(profile, candidates, places[a], j))
  }

  predicate Precedes(profile: BuyerProfile, candidates: seq<Property>, i: nat, j: nat)
    requires i < |candidates| && j < |candidates|
  {
    var x, y := ScoreCandidate(profile, candidates[i]).score, ScoreCandidate(profile, candidates[j]).score;
    x > y || (x == y && i < j)
  }

  /** `rank` returns the stable top k: exactly that many, scored by their own signals, in order, none outranked. */
  lemma RankIsTheStableTop(profile: BuyerProfile, candidates: seq<Property>, k: int) returns (places: seq<nat>)
    ensures IsStableTop(profile, candidates, places)
    ensures |places| == Kept(|candidates|, k)
    ensures Ranked(profile, candidates, k) == Scored(profile, Pick(candidates, places))
  {
    var scored := Scored(profile, candidates);
    var keys := Scores(scored);
    places := Top(keys, k);
    forall a, b | 0 <= a < b < |places| ensures Precedes(profile, candidates, places[a], places[b]) {
      assert Before(keys, places[a], places[b]);
    }
    forall a, j: nat | 0 <= a < |places| && j < |candidates| && j !in places
      ensures Precedes(profile, candidates, places[a], j)
    {
      TopIsBest(keys, k, a, j);
    }
  }

  /** The list for k + 1 extends the list for k. */
  lemma RankIsAPrefix(profile: BuyerProfile, candidates: seq<Property>, k: nat)
    ensures Ranked(profile, candidates, k) <= Ranked(profile, candidates, k + 1)
  {
    var scored := Scored(profile, candidates);
    TopIsAPrefix(Scores(scored), k);
  }

  // ---- Signals for the explanation -------------------------------------------------------------

  function Strengths(signals: seq<Signal>): (keys: seq<real>)
    ensures |keys| == |signals| && forall i :: 0 <= i < |keys| ==> keys[i] == Abs(signals[i].Contribution())
  {
    seq(|signals|, i requires 0 <= i < |signals| => Abs(signals[i].Contribution()))
  }

  function TopSignals(signals: seq<Signal>, count: int): seq<Signal> {
    Pick(signals, Top(Strengths(signals), count))
  }

  /** The explanation of an engine's candidate is given its three strongest signals, strongest first: the one
      left out contributes no more than any of them. */
  lemma ExplainedByTheStrongest(profile: BuyerProfile, p: Property) returns (omitted: nat)
    ensures var signals := ScoreCandidate(profile, p).signals;
            var told := TopSignals(signals, 3);
            && |told| == 3 && omitted < |signals| == 4
            && told[0].Contribution() >= told[1].Contribution() >= told[2].Contribution()
            && told[2].Contribution() >= signals[omitted].Contribution()
            && told[0] != told[1] && told[0] != told[2] && told[1] != told[2]
            && forall i :: 0 <= i < 4 && i != omitted ==> signals[i] in told
  {
    var signals := ScoreCandidate(profile, p).signals;
    var keys := Strengths(signals);
    var top := Top(keys, 3);
    assert Before(keys, top[0], top[1]) && Before(keys, top[1], top[2]) && Before(keys, top[0], top[2]);
    omitted := LeftOut(top);
    TopIsBest(keys, 3, 2, omitted);
    ContributionsAreStrengths(profile, p);
    forall i | 0 <= i < 4 && i != omitted ensures signals[i] in TopSignals(signals, 3) {
      assert i in top;
      var a :| 0 <= a < 3 && top[a] == i;
      assert TopSignals(signals, 3)[a] == signals[i];
    }
    NamesDiffer(profile, p, top[0], top[1]);
    NamesDiffer(profile, p, top[0], top[2]);
    NamesDiffer(profile, p, top[1], top[2]);
  }

  lemma NamesDiffer(profile: BuyerProfile, p: Property, i: nat, j: nat)
    requires i < 4 && j < 4 && i != j
    ensures ScoreCandidate(profile, p).signals[i].name != ScoreCandidate(profile, p).signals[j].name
  {
    assert "budget_fit"[0] == 'b' && "zone_match"[0] == 'z' && "must_have_coverage"[0] == 'm' && "type_match"[0] == 't';
  }

  lemma ContributionsAreStrengths(profile: BuyerProfile, p: Property)
    ensures var signals := ScoreCandidate(profile, p).signals;
            forall i :: 0 <= i < 4 ==> Strengths(signals)[i] == signals[i].Contribution()
  {
    BudgetFitBounds(profile, p);
    CoverageBounds(profile, p);
  }

  /** Of four places, the one that three distinct places leave out. */
  lemma LeftOut(top: seq<nat>) returns (omitted: nat)
    requires |top| == 3 && top[0] < 4 && top[1] < 4 && top[2] < 4
    requires top[0] != top[1] && top[0] != top[2] && top[1] != top[2]
    ensures omitted < 4 && omitted !in top
    ensures forall i: nat :: i < 4 && i != omitted ==> i in top
  {
    omitted := 6 - top[0] - top[1] - top[2];
  }
}
