/**
 * Sequence helpers shared by the record store: the first-match search that
 * JavaScript's `Array.prototype.find` performs, sums of a numeric field, and
 * the "every id is its position plus one" shape that the store's id
 * allocation produces.
 */
module Collections {
  import opened Wrappers

  /** `i` is the position of the first element of `s` whose key is `k`. */
  predicate FirstMatch<T, K(==)>(s: seq<T>, key: T -> K, k: K, i: int)
  {
    0 <= i < |s| && key(s[i]) == k && forall j :: 0 <= j < i ==> key(s[j]) != k
  }

  /** No element of `s` has key `k`. */
  predicate NoMatch<T, K(==)>(s: seq<T>, key: T -> K, k: K)
  {
    forall i :: 0 <= i < |s| ==> key(s[i]) != k
  }

  /**
   * Scans `s` from the front and stops at the first element whose key is
   * `k`, as `find` does; the result is that element's position.
   */
  function FindIndex<T, K(==)>(s: seq<T>, key: T -> K, k: K): (r: Option<nat>)
    ensures r.None? ==> NoMatch(s, key, k)
    ensures r.Some? ==> FirstMatch(s, key, k, r.value)
    decreases |s|
  {
    if s == [] then None
    else if key(s[0]) == k then Some(0)
    else
      match FindIndex(s[1..], key, k)
      case None =>
        assert forall i :: 1 <= i < |s| ==> s[i] == s[1..][i - 1];
        None
      case Some(i) =>
        assert forall j :: 1 <= j <= i ==> s[j] == s[1..][j - 1];
        Some(i + 1)
  }

  /** Adding records at the end never changes which record a search finds first. */
  lemma FindIndexAppend<T, K>(s: seq<T>, t: seq<T>, key: T -> K, k: K)
    ensures FindIndex(s, key, k).Some? ==> FindIndex(s + t, key, k) == FindIndex(s, key, k)
    ensures FindIndex(s, key, k).None? && FindIndex(t, key, k).Some? ==>
              FindIndex(s + t, key, k) == Some(|s| + FindIndex(t, key, k).value)
    ensures FindIndex(s, key, k).None? && FindIndex(t, key, k).None? ==> FindIndex(s + t, key, k).None?
  {
    var st := s + t;
    match FindIndex(s, key, k)
    case Some(i) =>
      assert forall j :: 0 <= j <= i ==> st[j] == s[j];
      assert FirstMatch(st, key, k, i);
      FirstMatchUnique(st, key, k, FindIndex(st, key, k).value, i);
    case None =>
      assert forall j :: 0 <= j < |s| ==> key(st[j]) == key(s[j]);
      match FindIndex(t, key, k)
      case Some(i) =>
        assert forall j :: |s| <= j <= |s| + i ==> st[j] == t[j - |s|];
        assert FirstMatch(st, key, k, |s| + i);
        FirstMatchUnique(st, key, k, FindIndex(st, key, k).value, |s| + i);
      case None =>
        assert forall j :: |s| <= j < |st| ==> st[j] == t[j - |s|];
        assert NoMatch(st, key, k);
  }

  /** The first match is unique: two first matches are the same position. */
  lemma FirstMatchUnique<T, K>(s: seq<T>, key: T -> K, k: K, i: int, j: int)
    requires FirstMatch(s, key, k, i) && FirstMatch(s, key, k, j)
    ensures i == j
  {
  }

  /** Every element's id equals its position plus one (ids 1, 2, 3, ...). */
  predicate IdsArePositions<T>(s: seq<T>, id: T -> int)
  {
    forall i :: 0 <= i < |s| ==> id(s[i]) == i + 1
  }

  /** Under positional ids, no two elements share an id. */
  lemma PositionalIdsAreUnique<T>(s: seq<T>, id: T -> int, i: int, j: int)
    requires IdsArePositions(s, id)
    requires 0 <= i < |s| && 0 <= j < |s| && i != j
    ensures id(s[i]) != id(s[j])
  {
  }

  /** Appending the element numbered `|s| + 1` keeps ids positional. */
  lemma AppendKeepsPositions<T>(s: seq<T>, x: T, id: T -> int)
    requires IdsArePositions(s, id) && id(x) == |s| + 1
    ensures IdsArePositions(s + [x], id)
  {
  }

  /** Under positional ids, the search for id `n` lands on position `n - 1`, if there is one. */
  lemma {:induction false} PositionalFind<T>(s: seq<T>, id: T -> int, n: int)
    requires IdsArePositions(s, id)
    ensures FindIndex(s, id, n) == if 1 <= n <= |s| then Some(n - 1) else None
  {
    if 1 <= n <= |s| {
      assert FirstMatch(s, id, n, n - 1);
    } else {
      assert NoMatch(s, id, n);
    }
  }

  /** The sum of `f` over the elements of `s`. */
  function Sum<T>(s: seq<T>, f: T -> int): int
    decreases |s|
  {
    if s == [] then 0 else f(s[0]) + Sum(s[1..], f)
  }

  /** Replacing one element changes the sum by the change in that element's value. */
  lemma {:induction false} SumUpdate<T>(s: seq<T>, f: T -> int, k: nat, x: T)
    requires k < |s|
    ensures Sum(s[k := x], f) == Sum(s, f) - f(s[k]) + f(x)
    decreases |s|
  {
    if k == 0 {
      assert s[k := x][1..] == s[1..];
    } else {
      assert s[k := x][1..] == s[1..][k - 1 := x];
      SumUpdate(s[1..], f, k - 1, x);
    }
  }

  /** A sum over a concatenation is the sum of the two sums. */
  lemma {:induction false} SumAppend<T>(s: seq<T>, t: seq<T>, f: T -> int)
    ensures Sum(s + t, f) == Sum(s, f) + Sum(t, f)
    decreases |s|
  {
    if s == [] {
      assert s + t == t;
    } else {
      assert (s + t)[1..] == s[1..] + t;
      SumAppend(s[1..], t, f);
    }
  }

  /** A sum of values that are all zero is zero. */
  lemma {:induction false} SumOfZeros<T>(s: seq<T>, f: T -> int)
    requires forall i :: 0 <= i < |s| ==> f(s[i]) == 0
    ensures Sum(s, f) == 0
    decreases |s|
  {
    if s != [] {
      assert forall i :: 0 <= i < |s| - 1 ==> s[1..][i] == s[i + 1];
      SumOfZeros(s[1..], f);
    }
  }
}
