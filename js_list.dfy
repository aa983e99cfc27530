/** The collection idioms the components repeat: dropping the entries with a
    given id (`list.filter(x => x.id !== id)`) and flipping one element's
    membership in a `Set` copy (`new Set(prev)` then `delete` or `add`). */
module JsList {

  /** `t` is `s` with some elements left out, the rest kept in order. */
  ghost predicate IsSubsequence<T>(t: seq<T>, s: seq<T>)
    decreases |s|
  {
    || t == []
    || (s != [] && ((t[0] == s[0] && IsSubsequence(t[1..], s[1..])) || IsSubsequence(t, s[1..])))
  }

  /** `s.filter(x => idOf(x) !== id)`. */
  function RemoveId<T(!new), K(==)>(s: seq<T>, idOf: T -> K, id: K): (r: seq<T>)
    ensures forall i :: 0 <= i < |r| ==> idOf(r[i]) != id
    ensures forall i :: 0 <= i < |s| && idOf(s[i]) != id ==> s[i] in r
    ensures forall x :: x in r ==> x in s
    ensures IsSubsequence(r, s)
    ensures forall x :: multiset(r)[x] == if idOf(x) != id then multiset(s)[x] else 0
    ensures |r| <= |s|
  {
    if s == [] then []
    else
      var rest := RemoveId(s[1..], idOf, id);
      assert forall i :: 1 <= i < |s| ==> s[i] == s[1..][i - 1];
      assert s == [s[0]] + s[1..];
      if idOf(s[0]) != id then
        assert ([s[0]] + rest)[1..] == rest;
        [s[0]] + rest
      else
        rest
  }

  /** When no entry has the id, nothing is removed. */
  lemma {:induction false} RemoveAbsentId<T(!new), K>(s: seq<T>, idOf: T -> K, id: K)
    requires forall i :: 0 <= i < |s| ==> idOf(s[i]) != id
    ensures RemoveId(s, idOf, id) == s
  {
    if s != [] {
      RemoveAbsentId(s[1..], idOf, id);
    }
  }

  /** Removing the same id twice is the same as removing it once. */
  lemma {:induction false} RemoveIdIdempotent<T(!new), K>(s: seq<T>, idOf: T -> K, id: K)
    ensures RemoveId(RemoveId(s, idOf, id), idOf, id) == RemoveId(s, idOf, id)
  {
    RemoveAbsentId(RemoveId(s, idOf, id), idOf, id);
  }

  /** The membership flip of a liked-posts set. */
  function Toggle(s: set<string>, x: string): (r: set<string>)
    ensures x in r <==> x !in s
    ensures forall y :: y != x ==> (y in r <==> y in s)
  {
    if x in s then s - {x} else s + {x}
  }

  /** Toggling the same element twice restores the set. */
  lemma ToggleTwice(s: set<string>, x: string)
    ensures Toggle(Toggle(s, x), x) == s
  {
  }
}
