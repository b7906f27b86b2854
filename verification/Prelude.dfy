/** Options, results and the few sequence facts the other modules share. */
module Prelude {
  datatype Option<+T> = None | Some(value: T) {
    function GetOr(default: T): T { if Some? then value else default }
  }

  /** Outcome of an operation that may raise: a value, or the exception. */
  datatype Result<+T, +E> = Ok(value: T) | Err(error: E) {
    predicate IsFailure() { Err? }

    function PropagateFailure<U>(): Result<U, E>
      requires Err?
    {
      Err(error)
    }

    function Extract(): T
      requires Ok?
    {
      value
    }
  }

  function Min(a: int, b: int): int { if a <= b then a else b }

  function Max(a: int, b: int): int { if a <= b then b else a }

  predicate Distinct<T(==)>(s: seq<T>) { forall i, j :: 0 <= i < j < |s| ==> s[i] != s[j] }

  /** The subsequence of values that `select` picks out of a log, in log order. */
  function Project<A, B>(log: seq<A>, select: A -> Option<B>): seq<B> {
    if log == [] then []
    else
      var rest := Project(log[..|log| - 1], select);
      match select(log[|log| - 1])
      case None => rest
      case Some(b) => rest + [b]
  }

  lemma {:induction false} ProjectConcat<A, B>(s: seq<A>, t: seq<A>, select: A -> Option<B>)
    ensures Project(s + t, select) == Project(s, select) + Project(t, select)
    decreases |t|
  {
    if t == [] {
      assert s + t == s;
    } else {
      var n := |t| - 1;
      ProjectConcat(s, t[..n], select);
      assert (s + t)[..|s + t| - 1] == s + t[..n];
    }
  }

  lemma ProjectOne<A, B>(a: A, select: A -> Option<B>)
    ensures Project([a], select) == match select(a) case None => [] case Some(b) => [b]
  {
    assert [a][..0] == [];
  }

  /** Nothing is picked when no element of the log is selected. */
  lemma {:induction false} ProjectNothing<A, B>(s: seq<A>, select: A -> Option<B>)
    requires forall i :: 0 <= i < |s| ==> select(s[i]) == None
    ensures Project(s, select) == []
  {
    if s != [] { ProjectNothing(s[..|s| - 1], select); }
  }

  /** Two selectors that agree on every element of a log pick the same values. */
  lemma {:induction false} ProjectAgree<A, B>(s: seq<A>, f: A -> Option<B>, g: A -> Option<B>)
    requires forall i :: 0 <= i < |s| ==> f(s[i]) == g(s[i])
    ensures Project(s, f) == Project(s, g)
  {
    if s != [] { ProjectAgree(s[..|s| - 1], f, g); }
  }

  /** Where a picked value comes from. */
  lemma {:induction false} ProjectOrigin<A, B>(s: seq<A>, select: A -> Option<B>, b: B)
    requires b in Project(s, select)
    ensures exists i :: 0 <= i < |s| && select(s[i]) == Some(b)
  {
    var n := |s| - 1;
    if select(s[n]) != Some(b) {
      ProjectOrigin(s[..n], select, b);
      var i :| 0 <= i < n && select(s[..n][i]) == Some(b);
      assert select(s[i]) == Some(b);
    }
  }

  /** SQLAlchemy's `scalar_one_or_none`: no row, the only row, or an exception on several rows. */
  function ScalarOneOrNone<E>(rows: set<nat>, multiple: E): (r: Result<Option<nat>, E>)
    ensures r == Ok(None) <==> rows == {}
    ensures r.Ok? && r.value.Some? ==> rows == {r.value.value}
    ensures r.Err? ==> r.error == multiple && |rows| > 1
  {
    if rows == {} then Ok(None)
    else if |rows| == 1 then
      OnlyElement(rows);
      var id :| id in rows;
      assert rows == {id};
      Ok(Some(id))
    else Err(multiple)
  }

  lemma OnlyElement(rows: set<nat>)
    requires |rows| == 1
    ensures forall a, b :: a in rows && b in rows ==> a == b
  {
    forall a, b | a in rows && b in rows ensures a == b {
      assert |rows - {a}| == 0;
    }
  }
}
