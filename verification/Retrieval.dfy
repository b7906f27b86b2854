/** Hybrid retrieval: the hard filter, cosine similarity in exact reals, and the stable top-n. */
module Retrieval {
  import opened Prelude
  import opened LeadDomain
  import opened RecommendationDomain
  import opened StableOrder
  import opened Ranking

  type Vector = seq<real>

  // ---- Cosine similarity -----------------------------------------------------------------------

  function Dot(a: Vector, b: Vector): real
    requires |a| == |b|
  {
    if a == [] then 0.0 else Dot(a[..|a| - 1], b[..|b| - 1]) + a[|a| - 1] * b[|b| - 1]
  }

  /** `n` is the square root of the sum of squares. */
  predicate IsNorm(v: Vector, n: real) { n >= 0.0 && n * n == Dot(v, v) }

  /** `_cosine_similarity`, given the norms of its arguments. */
  function Cosine(a: Vector, b: Vector, normA: real, normB: real): real {
    if a == [] || b == [] || |a| != |b| then 0.0
    else if normA == 0.0 || normB == 0.0 then 0.0
    else
      assert normA * normB != 0.0;
      Dot(a, b) / (normA * normB)
  }

  lemma {:induction false} DotIsSymmetric(a: Vector, b: Vector)
    requires |a| == |b|
    ensures Dot(a, b) == Dot(b, a)
  {
    if a != [] { DotIsSymmetric(a[..|a| - 1], b[..|b| - 1]); }
  }

  lemma {:induction false} SquaresArePositive(a: Vector)
    ensures Dot(a, a) >= 0.0
  {
    if a != [] {
      SquaresArePositive(a[..|a| - 1]);
      Square(a[|a| - 1]);
    }
  }

  lemma Square(x: real)
    ensures x * x >= 0.0
  {
    if x < 0.0 { assert x * x == (-x) * (-x); }
  }

  /** The geometric mean is at most the arithmetic one, without roots. */
  lemma TwiceTheMean(t: real, u: real, v: real)
    requires u >= 0.0 && v >= 0.0 && t * t <= u * v
    ensures 2.0 * t <= u + v
  {
    Square(u - v);
    assert (u + v) * (u + v) == (u - v) * (u - v) + 4.0 * (u * v);
    assert (2.0 * t) * (2.0 * t) == 4.0 * (t * t);
    if 2.0 * t > u + v {
      Larger(2.0 * t, u + v);
    }
  }

  lemma Larger(x: real, y: real)
    requires x > y >= 0.0
    ensures x * x > y * y
  {
    assert x * x - y * y == (x - y) * (x + y);
    Positive(x - y, x + y);
  }

  lemma Positive(x: real, y: real)
    requires x > 0.0 && y > 0.0
    ensures x * y > 0.0
  {
  }

  lemma NotNegative(x: real, y: real)
    requires x >= 0.0 && y >= 0.0
    ensures x * y >= 0.0
  {
  }

  /** Cauchy-Schwarz: the square of a dot product is at most the product of the sums of squares. */
  lemma {:induction false} CauchySchwarz(a: Vector, b: Vector)
    requires |a| == |b|
    ensures Dot(a, b) * Dot(a, b) <= Dot(a, a) * Dot(b, b)
  {
    if a != [] {
      var n := |a| - 1;
      CauchySchwarz(a[..n], b[..n]);
      SquaresArePositive(a[..n]);
      SquaresArePositive(b[..n]);
      OneMoreTerm(Dot(a[..n], a[..n]), Dot(b[..n], b[..n]), Dot(a[..n], b[..n]), a[n], b[n]);
    }
  }

  lemma OneMoreTerm(p: real, q: real, r: real, x: real, y: real)
    requires p >= 0.0 && q >= 0.0 && r * r <= p * q
    ensures (r + x * y) * (r + x * y) <= (p + x * x) * (q + y * y)
  {
    var u, v, t := p * (y * y), q * (x * x), r * (x * y);
    Square(x);
    Square(y);
    NotNegative(p, y * y);
    NotNegative(q, x * x);
    assert t * t <= u * v by {
      var w := (x * x) * (y * y);
      NotNegative(x * x, y * y);
      assert t * t == (r * r) * w;
      assert u * v == (p * q) * w;
      NotNegative(p * q - r * r, w);
      assert (p * q - r * r) * w == (p * q) * w - (r * r) * w;
    }
    TwiceTheMean(t, u, v);
    assert (r + x * y) * (r + x * y) == r * r + 2.0 * t + (x * y) * (x * y);
    assert (p + x * x) * (q + y * y) == p * q + u + v + (x * x) * (y * y);
    assert (x * y) * (x * y) == (x * x) * (y * y);
  }

  /** For all vectors, of any lengths, similarity is symmetric and within [-1, 1]. */
  lemma CosineBounds(a: Vector, b: Vector, normA: real, normB: real)
    requires IsNorm(a, normA) && IsNorm(b, normB)
    ensures Cosine(a, b, normA, normB) == Cosine(b, a, normB, normA)
    ensures -1.0 <= Cosine(a, b, normA, normB) <= 1.0
  {
    if a != [] && |a| == |b| && normA != 0.0 && normB != 0.0 {
      DotIsSymmetric(a, b);
      CauchySchwarz(a, b);
      var d, m := Dot(a, b), normA * normB;
      Positive(normA, normB);
      assert d * d <= m * m by {
        assert m * m == (normA * normA) * (normB * normB);
      }
      WithinRoot(d, m);
      QuotientWithin(d, m);
    }
  }

  lemma WithinRoot(d: real, m: real)
    requires m > 0.0 && d * d <= m * m
    ensures -m <= d <= m
  {
    assert (-d) * (-d) == d * d;
    if d > m {
      Larger(d, m);
    }
    if -d > m {
      Larger(-d, m);
    }
  }

  lemma QuotientWithin(d: real, m: real)
    requires m > 0.0 && -m <= d <= m
    ensures -1.0 <= d / m <= 1.0
  {
    var q := d / m;
    assert q * m == d;
    assert (q - 1.0) * m == d - m && (q + 1.0) * m == d + m;
    if q > 1.0 { Positive(q - 1.0, m); }
    if q < -1.0 { Positive(-1.0 - q, m); }
  }

  /** The dot product is the similarity times both lengths - of equally long vectors, zero vectors included. */
  lemma CosineTimesLengths(a: Vector, b: Vector, normA: real, normB: real)
    requires IsNorm(a, normA) && IsNorm(b, normB)
    ensures |a| == |b| ==> Cosine(a, b, normA, normB) * (normA * normB) == Dot(a, b)
    ensures |a| != |b| ==> Cosine(a, b, normA, normB) == 0.0
  {
    if |a| == |b| {
      CauchySchwarz(a, b);
      var m := normA * normB;
      if a == [] || normA == 0.0 || normB == 0.0 {
        if a != [] {
          assert Dot(a, a) * Dot(b, b) == 0.0;
          NoSquareBelowZero(Dot(a, b));
        }
        assert Cosine(a, b, normA, normB) == 0.0 == Dot(a, b);
        assert 0.0 * m == 0.0;
      } else {
        Positive(normA, normB);
        assert m != 0.0;
        var c := Cosine(a, b, normA, normB);
        assert c == Dot(a, b) / m;
        DivideAndMultiply(Dot(a, b), m);
        assert c * m == Dot(a, b);
      }
    }
  }

  lemma DivideAndMultiply(x: real, m: real)
    requires m != 0.0
    ensures x / m * m == x
  {
  }

  lemma NoSquareBelowZero(x: real)
    requires x * x <= 0.0
    ensures x == 0.0
  {
    assert x * x == (-x) * (-x);
    if x > 0.0 { Larger(x, 0.0); }
    if x < 0.0 { Larger(-x, 0.0); }
  }

  /** A vector with a length is as similar to itself as can be. */
  lemma CosineOfItself(a: Vector, norm: real)
    requires IsNorm(a, norm) && norm != 0.0
    ensures Cosine(a, a, norm, norm) == 1.0
  {
    var square := norm * norm;
    Larger(norm, 0.0);
    assert square > 0.0;
    assert square == Dot(a, a);
    assert Dot([], []) == 0.0;
    assert square / square == 1.0;
  }

  // ---- The hard filter -------------------------------------------------------------------------

  function Matching(profile: BuyerProfile): Property -> Option<Property> {
    (p: Property) => if MatchesHardFilters(p, profile) then Some(p) else None
  }

  /** `filter_candidates`: the matching properties, in their order. */
  function FilterCandidates(properties: seq<Property>, profile: BuyerProfile): seq<Property> {
    Project(properties, Matching(profile))
  }

  /** Nothing that matches is dropped and nothing else is kept, as often as it is stored. */
  lemma {:induction false} FilterIsExact(properties: seq<Property>, profile: BuyerProfile, p: Property)
    ensures p in FilterCandidates(properties, profile) <==> p in properties && MatchesHardFilters(p, profile)
    ensures multiset(FilterCandidates(properties, profile))[p] == if MatchesHardFilters(p, profile) then
            multiset(properties)[p] else 0
  {
    if properties != [] {
      var n := |properties| - 1;
      FilterIsExact(properties[..n], profile, p);
      assert properties == properties[..n] + [properties[n]];
    }
  }

  /** The places of the matching properties. */
  function MatchingPlaces(properties: seq<Property>, profile: BuyerProfile): (places: seq<nat>)
    ensures InBounds(|properties|, places)
    ensures forall a, b :: 0 <= a < b < |places| ==> places[a] < places[b]
    ensures forall i: nat :: i in places <==> i < |properties| && MatchesHardFilters(properties[i], profile)
  {
    if properties == [] then []
    else
      var n := |properties| - 1;
      MatchingPlaces(properties[..n], profile) + if MatchesHardFilters(properties[n], profile) then [n] else []
  }

  /** The filter keeps them where they stand among each other. */
  lemma {:induction false} FilterKeepsTheOrder(properties: seq<Property>, profile: BuyerProfile)
    ensures FilterCandidates(properties, profile) == Pick(properties, MatchingPlaces(properties, profile))
  {
    if properties != [] {
      var n := |properties| - 1;
      FilterKeepsTheOrder(properties[..n], profile);
      var before := MatchingPlaces(properties[..n], profile);
      assert Pick(properties[..n], before) == Pick(properties, before);
    }
  }

  /** Each wish filters on its own, whatever the others are: a price outside either end of the range, another zone than
      those wished, another type than the wished one keeps a property out, and nothing else does. */
  lemma FilterByWish(p: Property, profile: BuyerProfile)
    ensures MatchesHardFilters(p, profile) <==>
            && (profile.budget.Some? ==> IsWithin(p.price, profile.budget.value))
            && MatchesHardFilters(p, profile.(budget := None))
    ensures MatchesHardFilters(p, profile.(budget := None)) <==>
            && (profile.locations == [] || p.zone in profile.locations)
            && MatchesHardFilters(p, profile.(budget := None, locations := []))
    ensures MatchesHardFilters(p, profile.(budget := None, locations := [])) <==>
            profile.propertyType == None || profile.propertyType == Some(p.propertyType)
  {
  }

  // ---- Retrieval -------------------------------------------------------------------------------

  /** The places of the candidates that have an embedding. */
  function EmbeddedPlaces(candidates: seq<Property>, embeddings: map<PropertyId, Vector>): (places: seq<nat>)
    ensures InBounds(|candidates|, places)
    ensures forall a, b :: 0 <= a < b < |places| ==> places[a] < places[b]
    ensures forall i: nat :: i in places <==> i < |candidates| && candidates[i].id in embeddings
  {
    if candidates == [] then []
    else
      var n := |candidates| - 1;
      EmbeddedPlaces(candidates[..n], embeddings) + if candidates[n].id in embeddings then [n] else []
  }

  function Similarity(query: Vector, p: Property, embeddings: map<PropertyId, Vector>, norm: Vector -> real): real
    requires p.id in embeddings
  {
    Cosine(query, embeddings[p.id], norm(query), norm(embeddings[p.id]))
  }

  /** What candidates are compared by: the dot product of the query with the candidate's own embedding, over both
      lengths - so the nearer in direction comes first - and 0 for embeddings of another size. */
  lemma SimilarityTimesLengths(query: Vector, p: Property, embeddings: map<PropertyId, Vector>, norm: Vector -> real)
    requires p.id in embeddings && IsNorm(query, norm(query)) && IsNorm(embeddings[p.id], norm(embeddings[p.id]))
    ensures var e := embeddings[p.id];
            var similarity := Similarity(query, p, embeddings, norm);
            && (|query| == |e| ==> similarity * (norm(query) * norm(e)) == Dot(query, e))
            && (|query| != |e| ==> similarity == 0.0)
            && -1.0 <= similarity <= 1.0
  {
    CosineTimesLengths(query, embeddings[p.id], norm(query), norm(embeddings[p.id]));
    CosineBounds(query, embeddings[p.id], norm(query), norm(embeddings[p.id]));
  }

  /** The candidates at those places. */
  function Embedded(candidates: seq<Property>, embeddings: map<PropertyId, Vector>): (r: seq<Property>)
    ensures forall a :: 0 <= a < |r| ==> r[a].id in embeddings
  {
    if candidates == [] then []
    else
      var n := |candidates| - 1;
      Embedded(candidates[..n], embeddings) + if candidates[n].id in embeddings then [candidates[n]] else []
  }

  lemma {:induction false} EmbeddedAreAtTheirPlaces(candidates: seq<Property>, embeddings: map<PropertyId, Vector>)
    ensures Embedded(candidates, embeddings) == Pick(candidates, EmbeddedPlaces(candidates, embeddings))
  {
    if candidates != [] {
      var n := |candidates| - 1;
      EmbeddedAreAtTheirPlaces(candidates[..n], embeddings);
      var before := EmbeddedPlaces(candidates[..n], embeddings);
      assert Pick(candidates[..n], before) == Pick(candidates, before);
    }
  }

  function Similarities(
      query: Vector, embedded: seq<Property>, embeddings: map<PropertyId, Vector>, norm: Vector -> real)
      : (keys: seq<real>)
    requires forall a :: 0 <= a < |embedded| ==> embedded[a].id in embeddings
    ensures |keys| == |embedded|
    ensures forall a :: 0 <= a < |keys| ==> keys[a] == Similarity(query, embedded[a], embeddings, norm)
  {
    seq(|embedded|, a requires 0 <= a < |embedded| => Similarity(query, embedded[a], embeddings, norm))
  }

  function Retrieved(
      query: Vector, candidates: seq<Property>, embeddings: map<PropertyId, Vector>, norm: Vector -> real, n: int)
      : seq<Property>
  {
    var embedded := Embedded(candidates, embeddings);
    Pick(embedded, Top(Similarities(query, embedded, embeddings, norm), n))
  }

  method Retrieve(
      query: Vector, candidates: seq<Property>, embeddings: map<PropertyId, Vector>, norm: Vector -> real, n: int)
    returns (r: seq<Property>)
    ensures r == Retrieved(query, candidates, embeddings, norm, n)
  {
    var scores: seq<real> := [];
    var scored: seq<Property> := [];
    var i := 0;
    while i < |candidates|
      invariant 0 <= i <= |candidates|
      invariant scored == Embedded(candidates[..i], embeddings)
      invariant scores == Similarities(query, scored, embeddings, norm)
    {
      assert candidates[..i + 1][..i] == candidates[..i];
      var candidate := candidates[i];
      if candidate.id in embeddings {
        scores := scores + [Similarity(query, candidate, embeddings, norm)];
        scored := scored + [candidate];
      }
      i := i + 1;
    }
    assert candidates[..i] == candidates;
    r := Pick(scored, Top(scores, n));
  }

  predicate MoreSimilar(
    query: Vector, candidates: seq<Property>, embeddings: map<PropertyId, Vector>, norm: Vector -> real, i: nat, j: nat)
    requires i < |candidates| && j < |candidates| && candidates[i].id in embeddings && candidates[j].id in embeddings
  {
    var x, y := Similarity(query, candidates[i], embeddings, norm), Similarity(query, candidates[j], embeddings, norm);
    x > y || (x == y && i < j)
  }

  /** `places` are distinct embedded candidates, the most similar ones and, among equals, the earlier: no embedded
      candidate left out comes before one kept. */
  predicate IsMostSimilar(
    query: Vector, candidates: seq<Property>, embeddings: map<PropertyId, Vector>, norm: Vector -> real,
    places: seq<nat>)
  {
    && InBounds(|candidates|, places)
    && (forall a :: 0 <= a < |places| ==> candidates[places[a]].id in embeddings)
    && (forall a, b :: 0 <= a < b < |places| ==> MoreSimilar(query, candidates, embeddings, norm, places[a], places[b]))
    && (forall a, j: nat :: 0 <= a < |places| && j < |candidates| && candidates[j].id in embeddings && j !in places ==>
          MoreSimilar(query, candidates, embeddings, norm, places[a], j))
  }

  /** `retrieve` returns the n most similar embedded candidates, ties in input order, and drops outright exactly
      those without an embedding. */
  lemma RetrieveIsTheStableTop(
      query: Vector, candidates: seq<Property>, embeddings: map<PropertyId, Vector>, norm: Vector -> real, n: int)
    returns (places: seq<nat>)
    ensures IsMostSimilar(query, candidates, embeddings, norm, places)
    ensures |places| == Kept(|EmbeddedPlaces(candidates, embeddings)|, n)
    ensures Retrieved(query, candidates, embeddings, norm, n) == Pick(candidates, places)
  {
    var at := EmbeddedPlaces(candidates, embeddings);
    var keys := Similarities(query, Embedded(candidates, embeddings), embeddings, norm);
    KeyAt(query, candidates, embeddings, norm);
    var top := Top(keys, n);
    places := Pick(at, top);
    forall a, b | 0 <= a < b < |places| ensures MoreSimilar(query, candidates, embeddings, norm, places[a], places[b]) {
      assert Before(keys, top[a], top[b]);
      InOrderOfPlaces(query, candidates, embeddings, norm, top[a], top[b]);
    }
    forall a, j: nat | 0 <= a < |places| && j < |candidates| && candidates[j].id in embeddings && j !in places
      ensures MoreSimilar(query, candidates, embeddings, norm, places[a], j)
    {
      var c := LeftOut(at, top, places, j);
      TopIsBest(keys, n, a, c);
      InOrderOfPlaces(query, candidates, embeddings, norm, top[a], c);
    }
  }

  /** The sort key at each place of the embedded list. */
  lemma KeyAt(query: Vector, candidates: seq<Property>, embeddings: map<PropertyId, Vector>, norm: Vector -> real)
    ensures var at := EmbeddedPlaces(candidates, embeddings);
            var embedded := Embedded(candidates, embeddings);
            && embedded == Pick(candidates, at)
            && (forall a :: 0 <= a < |at| ==> candidates[at[a]].id in embeddings)
            && (forall a :: 0 <= a < |at| ==>
                  Similarities(query, embedded, embeddings, norm)[a]
                    == Similarity(query, candidates[at[a]], embeddings, norm))
  {
    EmbeddedAreAtTheirPlaces(candidates, embeddings);
    var at := EmbeddedPlaces(candidates, embeddings);
    forall a | 0 <= a < |at| ensures candidates[at[a]].id in embeddings {
      assert at[a] in at;
    }
  }

  /** Coming before in the embedded list is being more similar, or as similar and earlier, in the candidates. */
  lemma InOrderOfPlaces(
      query: Vector, candidates: seq<Property>, embeddings: map<PropertyId, Vector>, norm: Vector -> real, c: nat,
      d: nat)
    requires c < |EmbeddedPlaces(candidates, embeddings)| && d < |EmbeddedPlaces(candidates, embeddings)|
    requires |Embedded(candidates, embeddings)| == |EmbeddedPlaces(candidates, embeddings)|
    requires Before(Similarities(query, Embedded(candidates, embeddings), embeddings, norm), c, d)
    ensures var at := EmbeddedPlaces(candidates, embeddings);
            && candidates[at[c]].id in embeddings && candidates[at[d]].id in embeddings
            && MoreSimilar(query, candidates, embeddings, norm, at[c], at[d])
  {
    KeyAt(query, candidates, embeddings, norm);
  }

  lemma LeftOut(at: seq<nat>, top: seq<nat>, places: seq<nat>, j: nat) returns (c: nat)
    requires InBounds(|at|, top) && places == Pick(at, top)
    requires j in at && j !in places
    ensures c < |at| && at[c] == j && c !in top
  {
    c :| 0 <= c < |at| && at[c] == j;
    forall d | 0 <= d < |top| ensures top[d] != c {
      assert places[d] in places;
    }
  }
}
