/** Sorting by a comparison, as the sort packages of the repository's language do it. */
module Sorting {

  ghost predicate Sorted<T>(before: (T, T) -> bool, s: seq<T>) {
    forall i, j | 0 <= i < j < |s| :: !before(s[j], s[i])
  }

  /** What a comparison has to be: asymmetric, with a transitive complement. */
  ghost predicate Comparison<T(!new)>(before: (T, T) -> bool) {
    && (forall a, b :: before(a, b) ==> !before(b, a))
    && (forall a, b, c :: !before(b, a) && !before(c, b) ==> !before(c, a))
  }

  ghost predicate NoDuplicates<T>(s: seq<T>) {
    forall i, j | 0 <= i < j < |s| :: s[i] != s[j]
  }

  lemma CountAround<T>(s: seq<T>, i: nat, x: T)
    requires i <= |s|
    ensures multiset(s[..i] + [x] + s[i..]) == multiset(s) + multiset{x}
  {
    assert s == s[..i] + s[i..];
  }

  method Insert<T(!new)>(before: (T, T) -> bool, s: seq<T>, x: T) returns (r: seq<T>)
    requires Comparison(before) && Sorted(before, s)
    ensures Sorted(before, r) && multiset(r) == multiset(s) + multiset{x}
  {
    var i := 0;
    while i < |s| && !before(x, s[i])
      invariant i <= |s| && forall j | 0 <= j < i :: !before(x, s[j])
    {
      i := i + 1;
    }
    r := s[..i] + [x] + s[i..];
    CountAround(s, i, x);
    forall j | i <= j < |s| ensures !before(s[j], x) {
      assert j > i ==> !before(s[j], s[i]);
    }
  }

  method Sort<T(!new)>(before: (T, T) -> bool, s: seq<T>) returns (r: seq<T>)
    requires Comparison(before)
    ensures Sorted(before, r) && multiset(r) == multiset(s)
  {
    r := [];
    for i := 0 to |s|
      invariant Sorted(before, r) && multiset(r) == multiset(s[..i])
    {
      assert s[..i + 1] == s[..i] + [s[i]];
      r := Insert(before, r, s[i]);
    }
    assert s[..|s|] == s;
  }

  lemma {:induction false} CountedOnce<T>(s: seq<T>, x: T)
    requires NoDuplicates(s)
    ensures multiset(s)[x] <= 1
  {
    if s != [] {
      var front, last := s[..|s| - 1], s[|s| - 1];
      assert s == front + [last] && last !in front;
      CountedOnce(front, x);
      assert multiset(front)[last] == 0 by { assert last !in multiset(front); }
    }
  }

  /** Rearranging keeps the elements, and their being distinct. */
  lemma Rearranged<T>(s: seq<T>, r: seq<T>)
    requires multiset(r) == multiset(s)
    ensures forall x :: x in r <==> x in s
    ensures NoDuplicates(s) ==> NoDuplicates(r)
  {
    forall x ensures x in r <==> x in s {
      assert x in r <==> x in multiset(r);
      assert x in s <==> x in multiset(s);
    }
    if NoDuplicates(s) {
      forall i, j | 0 <= i < j < |r| ensures r[i] != r[j] {
        CountedOnce(s, r[j]);
        assert r == r[..j] + [r[j]] + r[j + 1..];
        assert r[i] in r[..j] && r[i] in multiset(r[..j]);
      }
    }
  }
}
