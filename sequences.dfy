/** Generic list operations the core uses: the filtering list comprehension
    `[x for x in s if p(x)]` and Python's `list.remove`. */
module Sequences {

  /** `r` can be obtained from `s` by deleting elements, keeping the order. */
  predicate IsSubsequence<T(==)>(r: seq<T>, s: seq<T>)
    decreases |s|
  {
    if r == [] then true
    else if s == [] then false
    else (r[0] == s[0] && IsSubsequence(r[1..], s[1..])) || IsSubsequence(r, s[1..])
  }

  /** Every sequence is a subsequence of itself. */
  lemma {:induction false} SubsequenceReflexive<T>(s: seq<T>)
    ensures IsSubsequence(s, s)
  {
    if s != [] {
      SubsequenceReflexive(s[1..]);
    }
  }

  /** The comprehension `[x for x in s if p(x)]`: exactly the elements of `s`
      that satisfy `p`, each with its multiplicity, in their original order. */
  function Filter<T(==,!new)>(s: seq<T>, p: T -> bool): (r: seq<T>)
    ensures |r| <= |s|
    ensures forall x :: x in r <==> x in s && p(x)
    ensures forall x :: p(x) ==> multiset(r)[x] == multiset(s)[x]
    ensures IsSubsequence(r, s)
  {
    if s == [] then []
    else
      var rest := Filter(s[1..], p);
      assert s == [s[0]] + s[1..];
      if p(s[0]) then
        assert ([s[0]] + rest)[1..] == rest;
        [s[0]] + rest
      else
        rest
  }

  /** Python's `s.remove(x)`: deletes the first element equal to `x`
      (the source calls it only with an element that is present). */
  function RemoveFirst<T(==)>(s: seq<T>, x: T): (r: seq<T>)
    requires x in s
    ensures |r| == |s| - 1
    ensures multiset(r) == multiset(s) - multiset{x}
  {
    assert s == [s[0]] + s[1..];
    if s[0] == x then s[1..] else [s[0]] + RemoveFirst(s[1..], x)
  }

  /** When `s[i]` is the first occurrence of its value, `s.remove(s[i])`
      deletes exactly position `i` and keeps the order of the rest. */
  lemma {:induction false} RemoveFirstAt<T>(s: seq<T>, i: nat)
    requires i < |s|
    requires forall j :: 0 <= j < i ==> s[j] != s[i]
    ensures RemoveFirst(s, s[i]) == s[..i] + s[i + 1..]
  {
    if i > 0 {
      var t := s[1..];
      assert t[i - 1] == s[i] && s[0] != s[i];
      RemoveFirstAt(t, i - 1);
      assert RemoveFirst(s, s[i]) == [s[0]] + (t[..i - 1] + t[i..]);
      assert s[..i] + s[i + 1..] == [s[0]] + (t[..i - 1] + t[i..]);
    }
  }

  /** Filtering a two-element sequence keeps each element exactly when it
      satisfies the predicate. */
  lemma FilterPair<T(!new)>(x: T, y: T, p: T -> bool)
    ensures Filter([x, y], p) == (if p(x) then [x] else []) + (if p(y) then [y] else [])
  {
    assert [x, y][1..] == [y];
    assert [y][1..] == [];
  }
}
