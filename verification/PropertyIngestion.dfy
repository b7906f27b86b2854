/** Property ingestion: the content key, the embedding cache keyed by its digest, and why skipping a
    recomputation never shows. */
module PropertyIngestion {
  import opened Prelude
  import opened LeadDomain
  import opened Store
  import opened RecommendationDomain

  // ---- Sorted features -------------------------------------------------------------------------

  /** Python's order on strings: by code point, a prefix first. */
  predicate AtMost(s: string, t: string) {
    s == [] || (t != [] && (s[0] < t[0] || (s[0] == t[0] && AtMost(s[1..], t[1..]))))
  }

  lemma {:induction false} AtMostIsTotal(s: string, t: string)
    ensures AtMost(s, t) || AtMost(t, s)
  {
    if s != [] && t != [] { AtMostIsTotal(s[1..], t[1..]); }
  }

  lemma {:induction false} AtMostIsAntisymmetric(s: string, t: string)
    requires AtMost(s, t) && AtMost(t, s)
    ensures s == t
  {
    if s != [] && t != [] {
      AtMostIsAntisymmetric(s[1..], t[1..]);
      assert s == [s[0]] + s[1..] && t == [t[0]] + t[1..];
    }
  }

  lemma {:induction false} AtMostIsTransitive(s: string, t: string, u: string)
    requires AtMost(s, t) && AtMost(t, u)
    ensures AtMost(s, u)
  {
    if s != [] && s[0] == t[0] && t[0] == u[0] { AtMostIsTransitive(s[1..], t[1..], u[1..]); }
  }

  predicate IsSorted(s: seq<string>) { forall i, j :: 0 <= i < j < |s| ==> AtMost(s[i], s[j]) }

  function Insert(s: seq<string>, x: string): (r: seq<string>)
    ensures multiset(r) == multiset(s) + multiset{x}
  {
    if s == [] then [x]
    else
      assert s == s[..|s| - 1] + [s[|s| - 1]];
      if AtMost(s[|s| - 1], x) then s + [x] else Insert(s[..|s| - 1], x) + [s[|s| - 1]]
  }

  /** `sorted(features)`. */
  function Sorted(s: seq<string>): (r: seq<string>)
    ensures multiset(r) == multiset(s)
  {
    if s == [] then []
    else
      assert s == s[..|s| - 1] + [s[|s| - 1]];
      Insert(Sorted(s[..|s| - 1]), s[|s| - 1])
  }

  lemma {:induction false} InsertKeepsSorted(s: seq<string>, x: string)
    requires IsSorted(s)
    ensures IsSorted(Insert(s, x))
  {
    if s != [] {
      var n := |s| - 1;
      if AtMost(s[n], x) {
        forall i | 0 <= i < n ensures AtMost(s[i], x) {
          AtMostIsTransitive(s[i], s[n], x);
        }
      } else {
        AtMostIsTotal(s[n], x);
        InsertKeepsSorted(s[..n], x);
        var r := Insert(s[..n], x);
        forall i | 0 <= i < |r| ensures AtMost(r[i], s[n]) {
          assert r[i] in multiset(r);
          assert r[i] in multiset(s[..n]) || r[i] == x;
        }
      }
    }
  }

  lemma {:induction false} SortedIsSorted(s: seq<string>)
    ensures IsSorted(Sorted(s))
  {
    if s != [] {
      SortedIsSorted(s[..|s| - 1]);
      InsertKeepsSorted(Sorted(s[..|s| - 1]), s[|s| - 1]);
    }
  }

  /** Two sorted lists of the same strings are the same list. */
  lemma {:induction false} SortedListsAgree(s: seq<string>, t: seq<string>)
    requires IsSorted(s) && IsSorted(t)
    requires multiset(s) == multiset(t)
    ensures s == t
    decreases |s|
  {
    SameSize(s, t);
    if s != [] {
      var n := |s| - 1;
      SameLast(s, t);
      WithoutLast(s);
      WithoutLast(t);
      SortedListsAgree(s[..n], t[..n]);
    }
  }

  lemma SameLast(s: seq<string>, t: seq<string>)
    requires IsSorted(s) && IsSorted(t) && multiset(s) == multiset(t) && |s| == |t| && s != []
    ensures s[|s| - 1] == t[|t| - 1]
  {
    LastIsGreatest(s, t);
    LastIsGreatest(t, s);
    AtMostIsAntisymmetric(s[|s| - 1], t[|t| - 1]);
  }

  lemma WithoutLast(s: seq<string>)
    requires s != []
    ensures s == s[..|s| - 1] + [s[|s| - 1]]
    ensures multiset(s[..|s| - 1]) == multiset(s) - multiset{s[|s| - 1]}
  {
    assert s == s[..|s| - 1] + [s[|s| - 1]];
  }

  lemma SameSize(s: seq<string>, t: seq<string>)
    requires multiset(s) == multiset(t)
    ensures |s| == |t|
  {
    assert |multiset(s)| == |multiset(t)|;
  }

  lemma LastIsGreatest(s: seq<string>, t: seq<string>)
    requires IsSorted(s) && multiset(s) == multiset(t) && |s| == |t| && s != []
    ensures AtMost(t[|t| - 1], s[|s| - 1])
  {
    var last := t[|t| - 1];
    assert last in multiset(t);
    assert last in s;
    var i :| 0 <= i < |s| && s[i] == last;
    AtMostIsTotal(last, last);
  }

  /** Sorting is canonical: any two orders of the same features sort alike. */
  lemma SortingIsCanonical(s: seq<string>, t: seq<string>)
    requires multiset(s) == multiset(t)
    ensures Sorted(s) == Sorted(t)
  {
    SortedIsSorted(s);
    SortedIsSorted(t);
    SortedListsAgree(Sorted(s), Sorted(t));
  }

  // ---- Content key, digest, embedding ----------------------------------------------------------

  type Byte = x: int | 0 <= x < 256

  type Digest = d: seq<Byte> | |d| == 32 witness seq(32, i => 0)

  /** Price formatting and SHA-256, as functions nothing is assumed of. */
  datatype Hashing = Hashing(formatPrice: real -> string, sha256: string -> Digest)

  function Join(separator: string, parts: seq<string>): string {
    if parts == [] then ""
    else if |parts| == 1 then parts[0]
    else Join(separator, parts[..|parts| - 1]) + separator + parts[|parts| - 1]
  }

  function ContentKey(h: Hashing, p: Property): string {
    Join("|", [p.externalId, h.formatPrice(p.price), p.zone, PropertyTypeName(p.propertyType),
      Join(",", Sorted(p.features)), p.description])
  }

  function HexDigit(n: int): char
    requires 0 <= n < 16
  {
    "0123456789abcdef"[n]
  }

  function Hex(bytes: seq<Byte>): (text: string)
    ensures |text| == 2 * |bytes|
  {
    if bytes == [] then ""
    else Hex(bytes[..|bytes| - 1]) + [HexDigit(bytes[|bytes| - 1] / 16), HexDigit(bytes[|bytes| - 1] % 16)]
  }

  lemma HexDigitsDiffer(m: int, n: int)
    requires 0 <= m < 16 && 0 <= n < 16 && HexDigit(m) == HexDigit(n)
    ensures m == n
  {
  }

  lemma ByteOfDigits(a: Byte, b: Byte)
    requires HexDigit(a / 16) == HexDigit(b / 16) && HexDigit(a % 16) == HexDigit(b % 16)
    ensures a == b
  {
    HexDigitsDiffer(a / 16, b / 16);
    HexDigitsDiffer(a % 16, b % 16);
  }

  /** Different digests have different texts. */
  lemma {:induction false} HexIsInjective(a: seq<Byte>, b: seq<Byte>)
    requires Hex(a) == Hex(b)
    ensures a == b
    decreases |a|
  {
    assert |a| == |b|;
    if a != [] {
      var n := |a| - 1;
      var s, t := Hex(a), Hex(b);
      assert s[..2 * n] == Hex(a[..n]) && t[..2 * n] == Hex(b[..n]);
      HexIsInjective(a[..n], b[..n]);
      assert s[2 * n] == t[2 * n] && s[2 * n + 1] == t[2 * n + 1];
      ByteOfDigits(a[n], b[n]);
      assert a == a[..n] + [a[n]] && b == b[..n] + [b[n]];
    }
  }

  function ContentHash(h: Hashing, p: Property): string { Hex(h.sha256(ContentKey(h, p))) }

  const VECTOR_SIZE: nat := 16

  /** `HashEmbeddingModel.embed`. */
  function Embed(h: Hashing, p: Property): (vector: seq<real>)
    ensures |vector| == VECTOR_SIZE
    ensures forall i :: 0 <= i < VECTOR_SIZE ==> 0.0 <= vector[i] <= 1.0
    ensures forall i :: 0 <= i < VECTOR_SIZE ==> vector[i] * 255.0 == h.sha256(ContentKey(h, p))[i] as real
  {
    var digest := h.sha256(ContentKey(h, p));
    seq(VECTOR_SIZE, i requires 0 <= i < VECTOR_SIZE => digest[i % |digest|] as real / 255.0)
  }

  /** Equal hashes mean equal vectors: both come from the same digest, so not even a collision tells them apart. */
  lemma SameHashSameVector(h: Hashing, p: Property, q: Property)
    requires ContentHash(h, p) == ContentHash(h, q)
    ensures Embed(h, p) == Embed(h, q)
  {
    HexIsInjective(h.sha256(ContentKey(h, p)), h.sha256(ContentKey(h, q)));
  }

  /** The same item: features in any order, any timestamp. */
  predicate SameContent(p: Property, q: Property) {
    && p.id == q.id && p.externalId == q.externalId && p.price == q.price && p.zone == q.zone
    && p.propertyType == q.propertyType && p.description == q.description
    && multiset(p.features) == multiset(q.features)
  }

  lemma SameContentSameHash(h: Hashing, p: Property, q: Property)
    requires SameContent(p, q)
    ensures ContentHash(h, p) == ContentHash(h, q)
  {
    SortingIsCanonical(p.features, q.features);
  }

  // ---- What the key tells apart ----------------------------------------------------------------

  predicate Free(c: char, text: string) { c !in text }

  /** No separator inside a field it would have to separate, and no empty feature. */
  predicate IsPlain(h: Hashing, p: Property) {
    && Free('|', p.externalId) && Free('|', h.formatPrice(p.price)) && Free('|', p.zone)
    && forall i :: 0 <= i < |p.features| ==> IsPlainFeature(p.features[i])
  }

  predicate IsPlainFeature(f: string) { f != "" && Free('|', f) && Free(',', f) }

  /** Everything the key is meant to capture, the price as it is printed. */
  predicate SameFacts(h: Hashing, p: Property, q: Property) {
    && p.externalId == q.externalId
    && h.formatPrice(p.price) == h.formatPrice(q.price)
    && p.zone == q.zone
    && p.propertyType == q.propertyType
    && multiset(p.features) == multiset(q.features)
    && p.description == q.description
  }

  lemma SplitAtFirst(c: char, a: string, x: string, b: string, y: string)
    requires Free(c, a) && Free(c, b)
    requires a + [c] + x == b + [c] + y
    ensures a == b && x == y
  {
    var s := a + [c] + x;
    assert s[|a|] == c && s[|b|] == c;
    forall k | 0 <= k < |b| ensures s[k] != c {
      assert b[k] in b;
    }
    forall k | 0 <= k < |a| ensures s[k] != c {
      assert a[k] in a;
    }
    assert s[..|a|] == a && s[..|b|] == b && s[|a| + 1..] == x && s[|b| + 1..] == y;
  }

  lemma SplitAtLast(c: char, x: string, a: string, y: string, b: string)
    requires Free(c, a) && Free(c, b)
    requires x + [c] + a == y + [c] + b
    ensures x == y && a == b
  {
    var s := x + [c] + a;
    assert s[|x|] == c && s[|y|] == c;
    forall k | |y| < k < |s| ensures s[k] != c {
      assert b[k - |y| - 1] in b;
    }
    forall k | |x| < k < |s| ensures s[k] != c {
      assert a[k - |x| - 1] in a;
    }
    assert s[..|x|] == x && s[..|y|] == y && s[|x| + 1..] == a && s[|y| + 1..] == b;
  }

  predicate ArePlain(features: seq<string>) { forall i :: 0 <= i < |features| ==> IsPlainFeature(features[i]) }

  lemma {:induction false} JoinIsFree(features: seq<string>)
    requires ArePlain(features)
    ensures Free('|', Join(",", features))
    ensures Join(",", features) == "" <==> features == []
    ensures Free(',', Join(",", features)) <==> |features| <= 1
  {
    if |features| > 1 {
      JoinIsFree(features[..|features| - 1]);
      var s := Join(",", features);
      assert s[|Join(",", features[..|features| - 1])|] == ',';
    }
  }

  /** Plain features can be read back from their joined text. */
  lemma {:induction false} JoinIsInjective(s: seq<string>, t: seq<string>)
    requires ArePlain(s) && ArePlain(t)
    requires Join(",", s) == Join(",", t)
    ensures s == t
    decreases |s|
  {
    JoinIsFree(s);
    JoinIsFree(t);
    if |s| > 1 {
      var m, n := |s| - 1, |t| - 1;
      SplitAtLast(',', Join(",", s[..m]), s[m], Join(",", t[..n]), t[n]);
      JoinIsInjective(s[..m], t[..n]);
      assert s == s[..m] + [s[m]] && t == t[..n] + [t[n]];
    }
  }

  lemma SortedArePlain(features: seq<string>)
    requires ArePlain(features)
    ensures ArePlain(Sorted(features))
  {
    var r := Sorted(features);
    forall i | 0 <= i < |r| ensures IsPlainFeature(r[i]) {
      assert r[i] in multiset(r);
      assert r[i] in features;
    }
  }

  /** The key from its first separator on. */
  function KeyAfterId(h: Hashing, p: Property): string {
    h.formatPrice(p.price) + "|"
    + (p.zone + "|" + (PropertyTypeName(p.propertyType) + "|" + (Join(",", Sorted(p.features)) + "|" + p.description)))
  }

  lemma KeyInFields(h: Hashing, p: Property)
    ensures ContentKey(h, p) == p.externalId + "|" + KeyAfterId(h, p)
  {
    var a, b, c, d, e, f :=
      p.externalId, h.formatPrice(p.price), p.zone, PropertyTypeName(p.propertyType), Join(",", Sorted(p.features)),
        p.description;
    JoinSix(a, b, c, d, e, f);
    Regroup(a, b, c, d, e, f);
  }

  lemma JoinMore(parts: seq<string>, last: string)
    requires parts != []
    ensures Join("|", parts + [last]) == Join("|", parts) + "|" + last
  {
    assert (parts + [last])[..|parts|] == parts;
  }

  lemma JoinSix(a: string, b: string, c: string, d: string, e: string, f: string)
    ensures Join("|", [a, b, c, d, e, f]) == a + "|" + b + "|" + c + "|" + d + "|" + e + "|" + f
  {
    JoinMore([a], b);
    JoinMore([a, b], c);
    JoinMore([a, b, c], d);
    JoinMore([a, b, c, d], e);
    JoinMore([a, b, c, d, e], f);
    assert [a, b, c, d, e] + [f] == [a, b, c, d, e, f];
    assert [a, b, c, d] + [e] == [a, b, c, d, e];
    assert [a, b, c] + [d] == [a, b, c, d];
    assert [a, b] + [c] == [a, b, c];
    assert [a] + [b] == [a, b];
  }

  lemma Regroup(a: string, b: string, c: string, d: string, e: string, f: string)
    ensures a + "|" + b + "|" + c + "|" + d + "|" + e + "|" + f
         == a + "|" + (b + "|" + (c + "|" + (d + "|" + (e + "|" + f))))
  {
  }

  lemma TypeNamesAreFree(t: PropertyType, u: PropertyType)
    ensures Free('|', PropertyTypeName(t))
    ensures PropertyTypeName(t) == PropertyTypeName(u) <==> t == u
  {
  }

  /** Between plain items the key changes exactly when a fact does: no change is missed, none is invented. */
  lemma KeyIsExact(h: Hashing, p: Property, q: Property)
    requires IsPlain(h, p) && IsPlain(h, q)
    ensures ContentKey(h, p) == ContentKey(h, q) <==> SameFacts(h, p, q)
  {
    if SameFacts(h, p, q) {
      SortingIsCanonical(p.features, q.features);
    }
    if ContentKey(h, p) == ContentKey(h, q) {
      KeyInFields(h, p);
      KeyInFields(h, q);
      SplitAtFirst('|', p.externalId, KeyAfterId(h, p), q.externalId, KeyAfterId(h, q));
      FactsAfterId(h, p, q);
    }
  }

  lemma FactsAfterId(h: Hashing, p: Property, q: Property)
    requires IsPlain(h, p) && IsPlain(h, q)
    requires KeyAfterId(h, p) == KeyAfterId(h, q)
    ensures p.externalId == q.externalId ==> SameFacts(h, p, q)
  {
    var e, e' := Join(",", Sorted(p.features)), Join(",", Sorted(q.features));
    var d := PropertyTypeName(p.propertyType) + "|" + (e + "|" + p.description);
    var d' := PropertyTypeName(q.propertyType) + "|" + (e' + "|" + q.description);
    SplitAtFirst('|', h.formatPrice(p.price), p.zone + "|" + d, h.formatPrice(q.price), q.zone + "|" + d');
    SplitAtFirst('|', p.zone, d, q.zone, d');
    TypeNamesAreFree(p.propertyType, q.propertyType);
    TypeNamesAreFree(q.propertyType, p.propertyType);
    SplitAtFirst('|', PropertyTypeName(p.propertyType), e + "|" + p.description, PropertyTypeName(q.propertyType),
      e' + "|" + q.description);
    assert ArePlain(p.features) && ArePlain(q.features);
    SortedArePlain(p.features);
    SortedArePlain(q.features);
    JoinIsFree(Sorted(p.features));
    JoinIsFree(Sorted(q.features));
    SplitAtFirst('|', e, p.description, e', q.description);
    JoinIsInjective(Sorted(p.features), Sorted(q.features));
    assert multiset(p.features) == multiset(Sorted(p.features)) == multiset(Sorted(q.features)) == multiset(q.features);
  }

  /** A comma inside a feature hides a change: one feature "x,y" or two features "x" and "y", the key is the same. */
  lemma ACommaHidesAChange(h: Hashing, p: Property, x: string, y: string)
    requires AtMost(x, y)
    ensures ContentKey(h, p.(features := [x + "," + y])) == ContentKey(h, p.(features := [x, y]))
    ensures !SameFacts(h, p.(features := [x + "," + y]), p.(features := [x, y]))
  {
    SortedPair(x, y);
    SortedOne(x + "," + y);
    assert [x, y][..1] == [x];
    assert Join(",", [x, y]) == x + "," + y == Join(",", [x + "," + y]);
    assert |multiset([x + "," + y])| != |multiset([x, y])|;
  }

  /** So does an empty feature, which is no feature to the key. */
  lemma AnEmptyFeatureIsNone(h: Hashing, p: Property)
    ensures ContentKey(h, p.(features := [""])) == ContentKey(h, p.(features := []))
    ensures !SameFacts(h, p.(features := [""]), p.(features := []))
  {
    SortedOne("");
    assert Join(",", [""]) == "" == Join(",", []);
    assert |p.(features := [""]).features| == 1 && |multiset([""])| == 1;
  }

  /** A bar inside a feature: the rest of the feature can as well begin the description. */
  lemma ABarInAFeatureHidesAChange(h: Hashing, p: Property, x: string, y: string)
    ensures var q, r := p.(features := [x + "|" + y]), p.(features := [x], description := y + "|" + p.description);
            ContentKey(h, q) == ContentKey(h, r) && !SameFacts(h, q, r)
  {
    var q, r := p.(features := [x + "|" + y]), p.(features := [x], description := y + "|" + p.description);
    SortedOne(x + "|" + y);
    SortedOne(x);
    KeyInFields(h, q);
    KeyInFields(h, r);
    assert x + "|" + y + "|" + p.description == x + "|" + (y + "|" + p.description);
    assert |q.description| != |r.description|;
  }

  /** A bar inside a zone: what follows it can as well be the type, a feature and the start of the description. */
  lemma ABarInAZoneHidesAChange(h: Hashing, p: Property, x: string)
    ensures var name := PropertyTypeName(p.propertyType);
            var q := p.(zone := p.zone + "|" + name + "|" + x);
            var r := p.(features := [x],
              description := name + "|" + Join(",", Sorted(p.features)) + "|" + p.description);
            ContentKey(h, q) == ContentKey(h, r) && !SameFacts(h, q, r)
  {
    var name, joined := PropertyTypeName(p.propertyType), Join(",", Sorted(p.features));
    var q := p.(zone := p.zone + "|" + name + "|" + x);
    var r := p.(features := [x], description := name + "|" + joined + "|" + p.description);
    SortedOne(x);
    KeyInFields(h, q);
    KeyInFields(h, r);
    RegroupZone(p.zone, name, x, joined, p.description);
    assert |q.zone| != |r.zone|;
  }

  lemma RegroupZone(zone: string, name: string, x: string, joined: string, d: string)
    ensures (zone + "|" + name + "|" + x) + "|" + (name + "|" + (joined + "|" + d))
         == zone + "|" + (name + "|" + (x + "|" + (name + "|" + joined + "|" + d)))
  {
  }

  /** A bar inside an id: what follows it can as well be the price, the zone and the type, with the printed price for a
      feature and the other fields in the description. */
  lemma ABarInAnIdHidesAChange(h: Hashing, p: Property)
    ensures var name, price := PropertyTypeName(p.propertyType), h.formatPrice(p.price);
            var q := p.(externalId := p.externalId + "|" + price + "|" + p.zone + "|" + name);
            var r := p.(features := [price],
                        description := p.zone + "|" + name + "|" + Join(",", Sorted(p.features)) + "|" + p.description);
            ContentKey(h, q) == ContentKey(h, r) && !SameFacts(h, q, r)
  {
    var name, price, joined := PropertyTypeName(p.propertyType), h.formatPrice(p.price), Join(",", Sorted(p.features));
    var q := p.(externalId := p.externalId + "|" + price + "|" + p.zone + "|" + name);
    var r := p.(features := [price], description := p.zone + "|" + name + "|" + joined + "|" + p.description);
    SortedOne(price);
    KeyInFields(h, q);
    KeyInFields(h, r);
    RegroupId(p.externalId, price, p.zone, name, joined, p.description);
    assert |q.externalId| != |r.externalId|;
  }

  lemma RegroupId(id: string, price: string, zone: string, name: string, joined: string, d: string)
    ensures (id + "|" + price + "|" + zone + "|" + name)
            + "|" + (price + "|" + (zone + "|" + (name + "|" + (joined + "|" + d))))
         == id + "|" + (price + "|" + (zone + "|" + (name + "|"
                        + (price + "|" + (zone + "|" + name + "|" + joined + "|" + d)))))
  {
  }

  lemma SortedOne(x: string)
    ensures Sorted([x]) == [x]
  {
    assert [x][..0] == [];
  }

  lemma SortedPair(x: string, y: string)
    requires AtMost(x, y)
    ensures Sorted([x, y]) == [x, y]
  {
  }

  // ---- Which features the key follows ----------------------------------------------------------

  /** The features of the item cannot change without changing its key. */
  ghost predicate SeesFeatureChanges(h: Hashing, p: Property) {
    forall features: seq<string> ::
      ContentKey(h, p.(features := features)) == ContentKey(h, p) ==> multiset(features) == multiset(p.features)
  }

  /** A feature with a comma between two parts in sorted order. */
  predicate ReadsAsTwo(f: string) {
    exists k :: 0 <= k < |f| && f[k] == ',' && AtMost(f[..k], f[k + 1..])
  }

  lemma SameKeySameFeatures(h: Hashing, p: Property, features: seq<string>)
    ensures ContentKey(h, p.(features := features)) == ContentKey(h, p) <==>
            Join(",", Sorted(features)) == Join(",", Sorted(p.features))
  {
    var a, b, c, d, f := p.externalId, h.formatPrice(p.price), p.zone, PropertyTypeName(p.propertyType), p.description;
    var e, e' := Join(",", Sorted(p.features)), Join(",", Sorted(features));
    JoinSix(a, b, c, d, e, f);
    JoinSix(a, b, c, d, e', f);
    SameMiddle(a + "|" + b + "|" + c + "|" + d + "|", e, e', "|" + f);
    AroundTheFifth(a, b, c, d, e, f);
    AroundTheFifth(a, b, c, d, e', f);
  }

  lemma AroundTheFifth(a: string, b: string, c: string, d: string, e: string, f: string)
    ensures a + "|" + b + "|" + c + "|" + d + "|" + e + "|" + f
         == (a + "|" + b + "|" + c + "|" + d + "|") + (e + ("|" + f))
  {
  }

  lemma SameMiddle(front: string, e: string, e': string, back: string)
    ensures front + (e + back) == front + (e' + back) <==> e == e'
  {
    var s, t := front + (e + back), front + (e' + back);
    if s == t {
      assert |e| == |e'|;
      assert s[|front|..][..|e|] == e && t[|front|..][..|e'|] == e';
    }
  }

  lemma {:induction false} JoinFront(parts: seq<string>)
    requires |parts| > 1
    ensures Join(",", parts) == parts[0] + "," + Join(",", parts[1..])
    decreases |parts|
  {
    var n := |parts| - 1;
    if n > 1 {
      JoinFront(parts[..n]);
      assert parts[..n][1..] == parts[1..][..n - 1];
    } else {
      assert parts[..1] == [parts[0]] && parts[1..] == [parts[1]];
    }
  }

  lemma {:induction false} AtMostLonger(s: string, t: string, more: string)
    requires AtMost(s, t)
    ensures AtMost(s, t + more)
  {
    if s != [] && s[0] == t[0] {
      AtMostLonger(s[1..], t[1..], more);
      assert (t + more)[1..] == t[1..] + more;
    }
  }

  lemma ReadsAsTheseTwo(x: string, rest: string)
    requires AtMost(x, rest)
    ensures ReadsAsTwo(x + "," + rest)
  {
    var f := x + "," + rest;
    assert f[|x|] == ',' && f[..|x|] == x && f[|x| + 1..] == rest;
  }

  /** Two or more sorted features join to a text that reads as two. */
  lemma JoinedReadsAsTwo(features: seq<string>)
    requires IsSorted(features) && |features| > 1
    ensures ReadsAsTwo(Join(",", features))
  {
    JoinFront(features);
    FirstIsAtMostTheRest(features[0], features[1..]);
    ReadsAsTheseTwo(features[0], Join(",", features[1..]));
  }

  lemma FirstIsAtMostTheRest(x: string, rest: seq<string>)
    requires |rest| > 0 && AtMost(x, rest[0])
    ensures AtMost(x, Join(",", rest))
  {
    if |rest| > 1 {
      JoinFront(rest);
      var more := "," + Join(",", rest[1..]);
      AtMostLonger(x, rest[0], more);
      assert rest[0] + more == rest[0] + "," + Join(",", rest[1..]);
    }
  }

  /** The key shows every change of an item's features exactly when the item has one feature, which is not empty and
      does not read as two. */
  lemma FeatureChangesAreSeenExactlyWhen(h: Hashing, p: Property)
    ensures SeesFeatureChanges(h, p) <==>
            |p.features| == 1 && p.features[0] != "" && !ReadsAsTwo(p.features[0])
  {
    var joined := Join(",", Sorted(p.features));
    SortedOne(joined);
    SameKeySameFeatures(h, p, [joined]);
    if |p.features| == 1 {
      OneFeature(h, p, p.features[0]);
    } else {
      assert |multiset([joined])| != |multiset(p.features)|;
    }
  }

  lemma OneFeature(h: Hashing, p: Property, f: string)
    requires p.features == [f]
    ensures SeesFeatureChanges(h, p) <==> f != "" && !ReadsAsTwo(f)
  {
    if f == "" {
      AnEmptyFeatureIsNone(h, p);
      assert p.(features := [f]) == p;
    } else if ReadsAsTwo(f) {
      var k :| 0 <= k < |f| && f[k] == ',' && AtMost(f[..k], f[k + 1..]);
      assert f == f[..k] + "," + f[k + 1..];
      TwoFeatures(h, p, f[..k], f[k + 1..]);
    } else {
      forall features: seq<string> | ContentKey(h, p.(features := features)) == ContentKey(h, p)
        ensures multiset(features) == multiset(p.features)
      {
        SameKeySameFeatures(h, p, features);
        OnlyTheseFeatures(features, f);
      }
    }
  }

  lemma TwoFeatures(h: Hashing, p: Property, x: string, y: string)
    requires p.features == [x + "," + y] && AtMost(x, y)
    ensures ContentKey(h, p.(features := [x, y])) == ContentKey(h, p)
    ensures multiset([x, y]) != multiset(p.features)
  {
    ACommaHidesAChange(h, p, x, y);
    SameItem(p, x + "," + y);
    OneIsNotTwo(x + "," + y, x, y);
  }

  lemma SameItem(p: Property, f: string)
    requires p.features == [f]
    ensures p.(features := [f]) == p
  {
  }

  lemma OneIsNotTwo(f: string, x: string, y: string)
    ensures multiset([x, y]) != multiset([f])
  {
    assert |multiset([x, y])| != |multiset([f])|;
  }

  lemma OnlyTheseFeatures(features: seq<string>, f: string)
    requires f != "" && !ReadsAsTwo(f) && Join(",", Sorted(features)) == Join(",", Sorted([f]))
    ensures multiset(features) == multiset([f])
  {
    SortedOne(f);
    SortedIsSorted(features);
    if |Sorted(features)| > 1 { JoinedReadsAsTwo(Sorted(features)); }
    assert Sorted(features) == [f];
  }

  // ---- Ingestion -------------------------------------------------------------------------------

  /** The pluggable embedder, with the content hash that decides whether to call it. */
  datatype Embedder = Embedder(version: string, embed: Property -> seq<real>, hash: Property -> string)

  /** The default: vector and hash both from the digest of the content key. */
  function HashEmbedder(h: Hashing): Embedder {
    Embedder("hash-v1", (p: Property) => Embed(h, p), (p: Property) => ContentHash(h, p))
  }

  datatype EmbeddingRow = EmbeddingRow(vector: seq<real>, modelVersion: string, sourceHash: string, computedAt: Time)

  datatype Inventory = Inventory(rows: map<PropertyId, Property>, embeddings: map<PropertyId, EmbeddingRow>)

  /** An existing row keeps its organization; everything else is overwritten. */
  function UpsertedRow(rows: map<PropertyId, Property>, p: Property): Property {
    if p.id in rows then p.(org := rows[p.id].org) else p
  }

  predicate IsCurrent(m: Embedder, embeddings: map<PropertyId, EmbeddingRow>, p: Property) {
    p.id in embeddings && embeddings[p.id].sourceHash == m.hash(p)
  }

  function NewEmbedding(m: Embedder, p: Property, now: Time): EmbeddingRow {
    EmbeddingRow(m.embed(p), m.version, m.hash(p), now)
  }

  datatype Ingested = Ingested(inventory: Inventory, touched: nat)

  /** One item of the catalog: always upserted, embedded only when the hash differs. */
  function IngestOne(m: Embedder, s: Ingested, p: Property, now: Time): Ingested {
    var rows := s.inventory.rows[p.id := UpsertedRow(s.inventory.rows, p)];
    if IsCurrent(m, s.inventory.embeddings, p) then Ingested(Inventory(rows, s.inventory.embeddings), s.touched)
    else Ingested(Inventory(rows, s.inventory.embeddings[p.id := NewEmbedding(m, p, now)]), s.touched + 1)
  }

  function Ingest(m: Embedder, inventory: Inventory, catalog: seq<Property>, now: Time): Ingested {
    if catalog == [] then Ingested(inventory, 0)
    else IngestOne(m, Ingest(m, inventory, catalog[..|catalog| - 1], now), catalog[|catalog| - 1], now)
  }

  class PropertyRepository {
    var rows: map<PropertyId, Property>
    var embeddings: map<PropertyId, EmbeddingRow>

    function Value(): Inventory
      reads this
    {
      Inventory(rows, embeddings)
    }

    constructor (inventory: Inventory)
      ensures Value() == inventory
    {
      rows, embeddings := inventory.rows, inventory.embeddings;
    }

    method Upsert(p: Property)
      modifies this`rows
      ensures rows == old(rows)[p.id := UpsertedRow(old(rows), p)]
    {
      if p.id !in rows {
        rows := rows[p.id := p];
        return;
      }
      var row := rows[p.id];
      row := row.(externalId := p.externalId, price := p.price, zone := p.zone, propertyType := p.propertyType,
                  features := p.features, description := p.description, updatedAt := p.updatedAt, id := p.id);
      rows := rows[p.id := row];
    }

    function GetEmbeddingHash(id: PropertyId): Option<string>
      reads this
    {
      if id in embeddings then Some(embeddings[id].sourceHash) else None
    }

    method SaveEmbedding(id: PropertyId, row: EmbeddingRow)
      modifies this`embeddings
      ensures embeddings == old(embeddings)[id := row]
    {
      embeddings := embeddings[id := row];
    }
  }

  class PropertyIngestionService {
    const repo: PropertyRepository
    const embedder: Embedder

    constructor (repo: PropertyRepository, embedder: Embedder)
      ensures this.repo == repo && this.embedder == embedder
    {
      this.repo, this.embedder := repo, embedder;
    }

    method IngestItem(p: Property, now: Time) returns (recomputed: bool)
      modifies repo
      ensures forall touched: nat ::
                Ingested(repo.Value(), touched + if recomputed then 1 else 0)
                  == IngestOne(embedder, Ingested(old(repo.Value()), touched), p, now)
    {
      repo.Upsert(p);
      var newHash := embedder.hash(p);
      var storedHash := repo.GetEmbeddingHash(p.id);
      if storedHash == Some(newHash) {
        return false;
      }
      repo.SaveEmbedding(p.id, EmbeddingRow(embedder.embed(p), embedder.version, newHash, now));
      recomputed := true;
    }

    method IngestFromSource(catalog: seq<Property>, now: Time) returns (touched: nat)
      modifies repo
      ensures Ingested(repo.Value(), touched) == Ingest(embedder, old(repo.Value()), catalog, now)
    {
      touched := 0;
      var i := 0;
      while i < |catalog|
        invariant 0 <= i <= |catalog|
        invariant Ingested(repo.Value(), touched) == Ingest(embedder, old(repo.Value()), catalog[..i], now)
      {
        assert catalog[..i + 1][..i] == catalog[..i];
        var recomputed := IngestItem(catalog[i], now);
        touched := touched + if recomputed then 1 else 0;
        i := i + 1;
      }
      assert catalog[..i] == catalog;
    }
  }

  // ---- The cache is exact ----------------------------------------------------------------------

  /** A stored item and the embedding that embedding it now would give. */
  predicate EntryIsExact(m: Embedder, id: PropertyId, row: Property, embedding: EmbeddingRow) {
    && row.id == id
    && embedding.vector == m.embed(row) && embedding.sourceHash == m.hash(row) && embedding.modelVersion == m.version
  }

  /** Every stored property has the vector that embedding it now would give. */
  ghost predicate CacheIsExact(m: Embedder, inventory: Inventory) {
    && inventory.rows.Keys == inventory.embeddings.Keys
    && forall id :: id in inventory.rows ==> EntryIsExact(m, id, inventory.rows[id], inventory.embeddings[id])
  }

  predicate SameButOrganization(p: Property, q: Property) { q == p.(org := q.org) }

  /** Neither hash nor vector looks at the organization, which an upsert does not overwrite. */
  ghost predicate IgnoresOrganization(m: Embedder) {
    forall p: Property, q: Property :: SameButOrganization(p, q) ==> m.hash(p) == m.hash(q) && m.embed(p) == m.embed(q)
  }

  predicate SameHash(m: Embedder, p: Property, q: Property) { p.id == q.id && m.hash(p) == m.hash(q) }

  /** Two contents of one id with the same hash have the same vector. */
  ghost predicate HashDecidesVector(m: Embedder) {
    forall p: Property, q: Property :: SameHash(m, p, q) ==> m.embed(p) == m.embed(q)
  }

  lemma IngestOneKeepsCache(m: Embedder, s: Ingested, p: Property, now: Time)
    requires IgnoresOrganization(m) && HashDecidesVector(m)
    requires CacheIsExact(m, s.inventory)
    ensures CacheIsExact(m, IngestOne(m, s, p, now).inventory)
  {
  }

  lemma {:induction false} IngestKeepsCache(m: Embedder, inventory: Inventory, catalog: seq<Property>, now: Time)
    requires IgnoresOrganization(m) && HashDecidesVector(m)
    requires CacheIsExact(m, inventory)
    ensures CacheIsExact(m, Ingest(m, inventory, catalog, now).inventory)
  {
    if catalog != [] {
      IngestKeepsCache(m, inventory, catalog[..|catalog| - 1], now);
      IngestOneKeepsCache(m, Ingest(m, inventory, catalog[..|catalog| - 1], now), catalog[|catalog| - 1], now);
    }
  }

  datatype CatalogRun = CatalogRun(catalog: seq<Property>, at: Time)

  /** The inventory after a sequence of ingests, each of any catalog at any time. */
  function AfterIngests(m: Embedder, runs: seq<CatalogRun>): Inventory {
    if runs == [] then Inventory(map[], map[])
    else
      var last := runs[|runs| - 1];
      Ingest(m, AfterIngests(m, runs[..|runs| - 1]), last.catalog, last.at).inventory
  }

  lemma {:induction false} RunsKeepCache(m: Embedder, runs: seq<CatalogRun>)
    requires IgnoresOrganization(m) && HashDecidesVector(m)
    ensures CacheIsExact(m, AfterIngests(m, runs))
  {
    if runs != [] {
      var last := runs[|runs| - 1];
      RunsKeepCache(m, runs[..|runs| - 1]);
      IngestKeepsCache(m, AfterIngests(m, runs[..|runs| - 1]), last.catalog, last.at);
    }
  }

  /** With the default embedder, after any sequence of ingests - repeated ids and colliding hashes included - every
      stored vector equals recomputation. */
  lemma CacheEqualsRecomputation(h: Hashing, runs: seq<CatalogRun>)
    ensures CacheIsExact(HashEmbedder(h), AfterIngests(HashEmbedder(h), runs))
  {
    DefaultIsSound(h);
    RunsKeepCache(HashEmbedder(h), runs);
  }

  lemma DefaultIsSound(h: Hashing)
    ensures IgnoresOrganization(HashEmbedder(h)) && HashDecidesVector(HashEmbedder(h))
  {
    var m := HashEmbedder(h);
    forall p: Property, q: Property | SameHash(m, p, q) ensures m.embed(p) == m.embed(q) {
      SameHashSameVector(h, p, q);
    }
    forall p: Property, q: Property | SameButOrganization(p, q)
      ensures m.hash(p) == m.hash(q) && m.embed(p) == m.embed(q)
    {
      assert ContentKey(h, p) == ContentKey(h, q);
    }
  }

  ghost predicate AlwaysExact(m: Embedder) {
    forall runs: seq<CatalogRun> :: CacheIsExact(m, AfterIngests(m, runs))
  }

  /** Any other embedder is cached soundly exactly when its vector is decided by the content hash. */
  lemma CacheNeedsTheHashToDecide(m: Embedder)
    requires IgnoresOrganization(m)
    ensures AlwaysExact(m) <==> HashDecidesVector(m)
  {
    if HashDecidesVector(m) {
      forall runs: seq<CatalogRun> ensures CacheIsExact(m, AfterIngests(m, runs)) {
        RunsKeepCache(m, runs);
      }
    }
    if AlwaysExact(m) {
      forall p: Property, q: Property | SameHash(m, p, q) ensures m.embed(p) == m.embed(q) {
        var runs := SkippedRecomputation(m, p, q);
        assert CacheIsExact(m, AfterIngests(m, runs));
        assert EntryIsExact(m, p.id, AfterIngests(m, runs).rows[p.id], AfterIngests(m, runs).embeddings[p.id]);
      }
    }
  }

  /** An item whose hash did not change keeps the vector of the item before it. */
  lemma SkippedRecomputation(m: Embedder, p: Property, q: Property) returns (runs: seq<CatalogRun>)
    requires SameHash(m, p, q)
    requires IgnoresOrganization(m)
    ensures var r := AfterIngests(m, runs);
            && p.id in r.rows && p.id in r.embeddings
            && r.embeddings[p.id].vector == m.embed(p)
            && m.embed(r.rows[p.id]) == m.embed(q)
  {
    var once := [CatalogRun([p], 0)];
    runs := once + [CatalogRun([q], 0)];
    AfterOneMore(m, [], p);
    assert [] + once == once;
    AfterOneMore(m, once, q);
    assert SameButOrganization(q, q.(org := p.org));
  }

  lemma AfterOneMore(m: Embedder, runs: seq<CatalogRun>, p: Property)
    ensures AfterIngests(m, runs + [CatalogRun([p], 0)])
            == IngestOne(m, Ingested(AfterIngests(m, runs), 0), p, 0).inventory
  {
    assert (runs + [CatalogRun([p], 0)])[..|runs|] == runs;
    OneIngest(m, AfterIngests(m, runs), p);
  }

  lemma OneIngest(m: Embedder, inventory: Inventory, p: Property)
    ensures Ingest(m, inventory, [p], 0) == IngestOne(m, Ingested(inventory, 0), p, 0)
  {
    assert [p][..0] == [];
  }

  // ---- Re-ingesting ----------------------------------------------------------------------------

  /** No later item has the same id. */
  predicate IsLast(catalog: seq<Property>, i: nat)
    requires i < |catalog|
  {
    forall j :: i < j < |catalog| ==> catalog[j].id != catalog[i].id
  }

  /** The stored row is the item, but for the organization it was first stored with, and its embedding is of that
      item. */
  predicate Stores(m: Embedder, inventory: Inventory, p: Property) {
    && p.id in inventory.rows
    && inventory.rows[p.id] == p.(org := inventory.rows[p.id].org)
    && IsCurrent(m, inventory.embeddings, p)
  }

  lemma IngestOneStores(m: Embedder, s: Ingested, p: Property, now: Time)
    ensures Stores(m, IngestOne(m, s, p, now).inventory, p)
  {
  }

  lemma IngestOneKeepsOthers(m: Embedder, s: Ingested, p: Property, now: Time, q: Property)
    requires Stores(m, s.inventory, q) && p.id != q.id
    ensures Stores(m, IngestOne(m, s, p, now).inventory, q)
  {
  }

  /** Of one item: an up-to-date embedding is left as it is, any other is replaced by the item's own, dated now; the row
      is written either way. */
  lemma IngestOneWrites(m: Embedder, s: Ingested, p: Property, now: Time)
    ensures var before, r := s.inventory, IngestOne(m, s, p, now);
            var current := p.id in before.embeddings && before.embeddings[p.id].sourceHash == m.hash(p);
            && r.touched == (if current then s.touched else s.touched + 1)
            && r.inventory.embeddings == (if current then before.embeddings
                 else before.embeddings[p.id := EmbeddingRow(m.embed(p), m.version, m.hash(p), now)])
            && r.inventory.rows == before.rows[p.id := r.inventory.rows[p.id]]
            && r.inventory.rows[p.id] == p.(org := if p.id in before.rows then before.rows[p.id].org else p.org)
  {
  }

  /** An ingest stores, of each id, the last item of the catalog. */
  lemma {:induction false} IngestStoresTheCatalog(
      m: Embedder, inventory: Inventory, catalog: seq<Property>, now: Time, i: nat)
    requires i < |catalog| && IsLast(catalog, i)
    ensures Stores(m, Ingest(m, inventory, catalog, now).inventory, catalog[i])
    decreases |catalog|
  {
    var n := |catalog| - 1;
    var s := Ingest(m, inventory, catalog[..n], now);
    if i == n {
      IngestOneStores(m, s, catalog[n], now);
    } else {
      assert IsLast(catalog[..n], i);
      IngestStoresTheCatalog(m, inventory, catalog[..n], now, i);
      IngestOneKeepsOthers(m, s, catalog[n], now, catalog[i]);
    }
  }

  predicate AllCurrent(m: Embedder, embeddings: map<PropertyId, EmbeddingRow>, catalog: seq<Property>) {
    forall i :: 0 <= i < |catalog| ==> IsCurrent(m, embeddings, catalog[i])
  }

  lemma AllCurrentSplits(m: Embedder, embeddings: map<PropertyId, EmbeddingRow>, catalog: seq<Property>)
    requires catalog != []
    ensures var n := |catalog| - 1;
            AllCurrent(m, embeddings, catalog) <==>
              AllCurrent(m, embeddings, catalog[..n]) && IsCurrent(m, embeddings, catalog[n])
  {
  }

  lemma IngestOneTouches(m: Embedder, s: Ingested, p: Property, now: Time)
    ensures IngestOne(m, s, p, now).touched == s.touched + if IsCurrent(m, s.inventory.embeddings, p) then 0 else 1
    ensures IsCurrent(m, s.inventory.embeddings, p) ==>
            IngestOne(m, s, p, now).inventory.embeddings == s.inventory.embeddings
  {
  }

  /** An ingest returns 0 exactly when every item is already embedded as it is; it then writes no embedding. */
  lemma {:induction false} QuietIngest(m: Embedder, inventory: Inventory, catalog: seq<Property>, now: Time)
    ensures Ingest(m, inventory, catalog, now).touched == 0 <==> AllCurrent(m, inventory.embeddings, catalog)
    ensures Ingest(m, inventory, catalog, now).touched == 0 ==>
            Ingest(m, inventory, catalog, now).inventory.embeddings == inventory.embeddings
  {
    if catalog != [] {
      var n := |catalog| - 1;
      QuietIngest(m, inventory, catalog[..n], now);
      AllCurrentSplits(m, inventory.embeddings, catalog);
      IngestOneTouches(m, Ingest(m, inventory, catalog[..n], now), catalog[n], now);
    }
  }

  /** How many items are not embedded as they are. */
  function CountStale(m: Embedder, embeddings: map<PropertyId, EmbeddingRow>, catalog: seq<Property>): nat {
    if catalog == [] then 0
    else
      var n := |catalog| - 1;
      CountStale(m, embeddings, catalog[..n]) + if IsCurrent(m, embeddings, catalog[n]) then 0 else 1
  }

  lemma {:induction false} OthersAreLeftAlone(
      m: Embedder, inventory: Inventory, catalog: seq<Property>, now: Time, id: PropertyId)
    requires forall i :: 0 <= i < |catalog| ==> catalog[i].id != id
    ensures var r := Ingest(m, inventory, catalog, now).inventory;
            && (id in r.embeddings <==> id in inventory.embeddings)
            && (id in r.embeddings ==> r.embeddings[id] == inventory.embeddings[id])
            && (id in r.rows <==> id in inventory.rows)
            && (id in r.rows ==> r.rows[id] == inventory.rows[id])
  {
    if catalog != [] { OthersAreLeftAlone(m, inventory, catalog[..|catalog| - 1], now, id); }
  }

  /** With distinct ids an ingest returns exactly the number of items that were not embedded as they are, and leaves
      every property it does not name alone. */
  lemma {:induction false} IngestCountsTheStale(m: Embedder, inventory: Inventory, catalog: seq<Property>, now: Time)
    requires DistinctProperties(catalog)
    ensures Ingest(m, inventory, catalog, now).touched == CountStale(m, inventory.embeddings, catalog)
  {
    if catalog != [] {
      var n := |catalog| - 1;
      IngestCountsTheStale(m, inventory, catalog[..n], now);
      OthersAreLeftAlone(m, inventory, catalog[..n], now, catalog[n].id);
      IngestOneTouches(m, Ingest(m, inventory, catalog[..n], now), catalog[n], now);
    }
  }

  /** Items of one id agree on their hash. */
  predicate Consistent(m: Embedder, catalog: seq<Property>) {
    forall i, j :: 0 <= i < j < |catalog| && catalog[i].id == catalog[j].id ==> m.hash(catalog[i]) == m.hash(catalog[j])
  }

  lemma LastOf(catalog: seq<Property>, i: nat) returns (l: nat)
    requires i < |catalog|
    ensures i <= l < |catalog| && catalog[l].id == catalog[i].id && IsLast(catalog, l)
    decreases |catalog| - i
  {
    if IsLast(catalog, i) {
      l := i;
    } else {
      var j :| i < j < |catalog| && catalog[j].id == catalog[i].id;
      l := LastOf(catalog, j);
    }
  }

  /** Ingesting the same catalog again touches nothing - exactly when no id comes with two different hashes. */
  lemma ReingestIsQuiet(m: Embedder, inventory: Inventory, catalog: seq<Property>, t1: Time, t2: Time)
    ensures Ingest(m, Ingest(m, inventory, catalog, t1).inventory, catalog, t2).touched == 0 <==> Consistent(m, catalog)
  {
    var r := Ingest(m, inventory, catalog, t1).inventory;
    QuietIngest(m, r, catalog, t2);
    if Consistent(m, catalog) {
      forall i: nat | i < |catalog| ensures IsCurrent(m, r.embeddings, catalog[i]) {
        var l := LastOf(catalog, i);
        IngestStoresTheCatalog(m, inventory, catalog, t1, l);
      }
    }
    if AllCurrent(m, r.embeddings, catalog) {
      forall i, j | 0 <= i < j < |catalog| && catalog[i].id == catalog[j].id
        ensures m.hash(catalog[i]) == m.hash(catalog[j])
      {
        assert IsCurrent(m, r.embeddings, catalog[i]) && IsCurrent(m, r.embeddings, catalog[j]);
      }
    }
  }

  /** With distinct ids, a catalog whose items only had features reordered or timestamps touched - in any order,
      or in part - touches nothing. */
  lemma TouchedCatalogIsQuiet(
      h: Hashing, inventory: Inventory, catalog: seq<Property>, again: seq<Property>, t1: Time, t2: Time)
    requires DistinctProperties(catalog)
    requires forall i :: 0 <= i < |again| ==> exists j :: 0 <= j < |catalog| && SameContent(again[i], catalog[j])
    ensures var m := HashEmbedder(h);
            Ingest(m, Ingest(m, inventory, catalog, t1).inventory, again, t2).touched == 0
  {
    var m := HashEmbedder(h);
    var r := Ingest(m, inventory, catalog, t1).inventory;
    QuietIngest(m, r, again, t2);
    forall i | 0 <= i < |again| ensures IsCurrent(m, r.embeddings, again[i]) {
      var j :| 0 <= j < |catalog| && SameContent(again[i], catalog[j]);
      SameContentSameHash(h, again[i], catalog[j]);
      assert m.hash(again[i]) == m.hash(catalog[j]);
      assert IsLast(catalog, j);
      IngestStoresTheCatalog(m, inventory, catalog, t1, j);
    }
  }
}
