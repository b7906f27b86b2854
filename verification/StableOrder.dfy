/** Stable descending sort, as `list.sort(key=..., reverse=True)` does it, and Python's leading slice. */
module StableOrder {
  /** Element i comes before element j: a greater key, or the same key and the earlier place. */
  predicate Before(keys: seq<real>, i: nat, j: nat)
    requires i < |keys| && j < |keys|
  {
    keys[i] > keys[j] || (keys[i] == keys[j] && i < j)
  }

  predicate InBounds(n: nat, order: seq<nat>) { forall a :: 0 <= a < |order| ==> order[a] < n }

  /** The listed elements, each before all that follow it. */
  predicate InOrder(keys: seq<real>, order: seq<nat>)
    requires InBounds(|keys|, order)
  {
    forall a, b :: 0 <= a < b < |order| ==> Before(keys, order[a], order[b])
  }

  /** `order` lists every index once, in stable descending order. */
  predicate IsStableOrder(keys: seq<real>, order: seq<nat>) {
    && |order| == |keys|
    && InBounds(|keys|, order) && InOrder(keys, order)
    && Lists(|keys|, order)
  }

  predicate Lists(n: nat, order: seq<nat>) { forall i: nat :: i < n ==> i in order }

  /** Where the sort puts each element, found by inserting the elements in input order. */
  function Sorted(keys: seq<real>): (order: seq<nat>)
    ensures IsStableOrder(keys, order)
  {
    if keys == [] then []
    else
      var n := |keys| - 1;
      var rest := Sorted(keys[..n]);
      SameOrder(keys, n, rest);
      InsertKeepsOrder(keys, rest, n);
      InsertLists(keys, rest, n);
      Insert(keys, rest, n)
  }

  lemma SameOrder(keys: seq<real>, n: nat, order: seq<nat>)
    requires n <= |keys| && InBounds(n, order) && InOrder(keys[..n], order)
    ensures InOrder(keys, order)
  {
    forall a, b | 0 <= a < b < |order| ensures Before(keys, order[a], order[b]) {
      assert Before(keys[..n], order[a], order[b]);
    }
  }

  function Insert(keys: seq<real>, order: seq<nat>, i: nat): (r: seq<nat>)
    requires i < |keys| && InBounds(i, order)
    ensures |r| == |order| + 1
  {
    if order == [] then [i]
    else
      var last := order[|order| - 1];
      if keys[last] >= keys[i] then order + [i] else Insert(keys, order[..|order| - 1], i) + [last]
  }

  lemma {:induction false} InsertLists(keys: seq<real>, order: seq<nat>, i: nat)
    requires i < |keys| && InBounds(i, order)
    ensures forall k: nat :: k in Insert(keys, order, i) <==> k == i || k in order
  {
    if order != [] {
      var n := |order| - 1;
      InsertLists(keys, order[..n], i);
      assert order == order[..n] + [order[n]];
    }
  }

  lemma {:induction false} InsertKeepsOrder(keys: seq<real>, order: seq<nat>, i: nat)
    requires i < |keys| && InBounds(i, order) && InOrder(keys, order)
    ensures InBounds(|keys|, Insert(keys, order, i)) && InOrder(keys, Insert(keys, order, i))
  {
    if order != [] {
      var n := |order| - 1;
      var r := Insert(keys, order, i);
      if keys[order[n]] >= keys[i] {
        forall a | 0 <= a < n ensures Before(keys, order[a], order[n]) {
        }
      } else {
        InsertKeepsOrder(keys, order[..n], i);
        InsertLists(keys, order[..n], i);
        forall a | 0 <= a < |r| - 1 ensures Before(keys, r[a], order[n]) {
          assert r[a] in Insert(keys, order[..n], i);
        }
      }
    }
  }

  /** The requirements leave no choice: there is only one stable order. */
  lemma {:induction false} StableOrderIsUnique(keys: seq<real>, s: seq<nat>, t: seq<nat>, a: nat)
    requires IsStableOrder(keys, s) && IsStableOrder(keys, t)
    requires a <= |keys|
    ensures s[..a] == t[..a]
  {
    if a > 0 {
      StableOrderIsUnique(keys, s, t, a - 1);
      NotLater(keys, s, t, a - 1);
      NotLater(keys, t, s, a - 1);
      assert s[a - 1] == t[a - 1];
    }
  }

  /** With equal beginnings, neither order's next element comes strictly before the other's. */
  lemma NotLater(keys: seq<real>, s: seq<nat>, t: seq<nat>, a: nat)
    requires IsStableOrder(keys, s) && IsStableOrder(keys, t)
    requires a < |keys| && s[..a] == t[..a]
    ensures s[a] == t[a] || Before(keys, t[a], s[a])
  {
    forall c | 0 <= c < a ensures t[c] != s[a] {
      assert s[..a][c] == t[..a][c];
      assert Before(keys, s[c], s[a]);
    }
    assert s[a] in t;
  }

  /** How many elements `s[:k]` keeps; a negative k counts from the end. */
  function Kept(n: nat, k: int): (m: nat)
    ensures m <= n
  {
    if k >= n then n else if k >= 0 then k else if n + k >= 0 then n + k else 0
  }

  /** The slice keeps the first k of n, or drops the last -k of them. */
  lemma KeptIsTheSlice(n: nat, k: int)
    ensures 0 <= k <= n ==> Kept(n, k) == k
    ensures k >= n ==> Kept(n, k) == n
    ensures k < 0 <= n + k ==> Kept(n, k) == n + k
    ensures n + k < 0 ==> Kept(n, k) == 0
  {
  }

  /** The places a sort followed by `[:k]` keeps. */
  function Top(keys: seq<real>, k: int): (top: seq<nat>)
    ensures |top| == Kept(|keys|, k)
    ensures InBounds(|keys|, top) && InOrder(keys, top)
  {
    Sorted(keys)[..Kept(|keys|, k)]
  }

  /** Nothing the slice drops comes before anything it keeps. */
  lemma TopIsBest(keys: seq<real>, k: int, a: nat, j: nat)
    requires a < |Top(keys, k)| && j < |keys| && j !in Top(keys, k)
    ensures Before(keys, Top(keys, k)[a], j)
  {
    var order := Sorted(keys);
    forall c | 0 <= c < |Top(keys, k)| ensures order[c] != j {
      assert Top(keys, k)[c] in Top(keys, k);
    }
    assert j in order;
    var b :| 0 <= b < |order| && order[b] == j;
    assert Before(keys, order[a], order[b]);
  }

  /** One more kept element extends the list; it never reorders it. */
  lemma TopIsAPrefix(keys: seq<real>, k: nat)
    ensures Top(keys, k) <= Top(keys, k + 1)
  {
  }

  /** The elements at the given places. */
  function Pick<T>(s: seq<T>, places: seq<nat>): (r: seq<T>)
    requires InBounds(|s|, places)
    ensures |r| == |places| && forall a :: 0 <= a < |r| ==> r[a] == s[places[a]]
  {
    seq(|places|, a requires 0 <= a < |places| => s[places[a]])
  }
}
