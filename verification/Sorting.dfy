/** sort.Slice and sort.Strings as insertion sort over an explicit order. */
module Sorting {

  /** Any two elements compare; different ones may be equal in rank. */
  ghost predicate Ranking<T(!new)>(le: (T, T) -> bool) {
    && (forall a, b :: le(a, b) || le(b, a))
    && (forall a, b, c :: le(a, b) && le(b, c) ==> le(a, c))
  }

  ghost predicate TotalOrder<T(!new)>(le: (T, T) -> bool) {
    Ranking(le) && forall a, b :: le(a, b) && le(b, a) ==> a == b
  }

  ghost predicate Sorted<T(!new)>(le: (T, T) -> bool, s: seq<T>) {
    forall i, j :: 0 <= i < j < |s| ==> le(s[i], s[j])
  }

  ghost predicate Distinct<T(!new)>(s: seq<T>) {
    forall i, j :: 0 <= i < j < |s| ==> s[i] != s[j]
  }

  function Insert<T>(le: (T, T) -> bool, x: T, s: seq<T>): (r: seq<T>)
    ensures |r| == |s| + 1
  {
    if s == [] || le(x, s[0]) then [x] + s else [s[0]] + Insert(le, x, s[1..])
  }

  function Sort<T>(le: (T, T) -> bool, s: seq<T>): (r: seq<T>)
    ensures |r| == |s|
  {
    if s == [] then [] else Insert(le, s[0], Sort(le, s[1..]))
  }

  lemma InsertElements<T(!new)>(le: (T, T) -> bool, x: T, s: seq<T>)
    ensures multiset(Insert(le, x, s)) == multiset{x} + multiset(s)
  {
    if s != [] && !le(x, s[0]) {
      InsertElements(le, x, s[1..]);
      assert s == [s[0]] + s[1..];
    }
  }

  lemma InsertSorted<T(!new)>(le: (T, T) -> bool, x: T, s: seq<T>)
    requires Ranking(le) && Sorted(le, s)
    ensures Sorted(le, Insert(le, x, s))
  {
    if s != [] && !le(x, s[0]) {
      var r := Insert(le, x, s[1..]);
      InsertSorted(le, x, s[1..]);
      InsertElements(le, x, s[1..]);
      forall j | 0 <= j < |r| ensures le(s[0], r[j]) {
        assert r[j] in multiset(r);
        if r[j] != x {
          assert r[j] in s[1..];
        }
      }
    }
  }

  /** Sorting permutes its input and puts it in order. */
  lemma SortCorrect<T(!new)>(le: (T, T) -> bool, s: seq<T>)
    requires Ranking(le)
    ensures Sorted(le, Sort(le, s))
    ensures multiset(Sort(le, s)) == multiset(s)
  {
    if s != [] {
      SortCorrect(le, s[1..]);
      InsertSorted(le, s[0], Sort(le, s[1..]));
      InsertElements(le, s[0], Sort(le, s[1..]));
      assert s == [s[0]] + s[1..];
    }
  }

  lemma SortMembers<T(!new)>(le: (T, T) -> bool, s: seq<T>, x: T)
    requires Ranking(le)
    ensures x in Sort(le, s) <==> x in s
  {
    SortCorrect(le, s);
    assert x in Sort(le, s) <==> x in multiset(Sort(le, s));
    assert x in s <==> x in multiset(s);
  }

  lemma DistinctByMultiset<T(!new)>(s: seq<T>)
    ensures Distinct(s) <==> forall x :: x in s ==> multiset(s)[x] == 1
  {
    if s != [] {
      var t := s[1..];
      assert s == [s[0]] + t;
      DistinctByMultiset(t);
      if Distinct(s) {
        assert Distinct(t) by {
          forall i, j | 0 <= i < j < |t| ensures t[i] != t[j] { assert s[i + 1] != s[j + 1]; }
        }
        forall j | 0 <= j < |t| ensures t[j] != s[0] { assert s[0] != s[j + 1]; }
        forall x | x in s ensures multiset(s)[x] == 1 {
          assert multiset(s)[x] == multiset{s[0]}[x] + multiset(t)[x];
        }
      }
      if forall x :: x in s ==> multiset(s)[x] == 1 {
        assert multiset(s)[s[0]] == 1 + multiset(t)[s[0]];
        assert s[0] !in t;
        forall x | x in t ensures multiset(t)[x] == 1 { assert x in s; }
        forall i, j | 0 <= i < j < |s| ensures s[i] != s[j] {
          if i == 0 { assert s[j] == t[j - 1]; } else { assert s[i] == t[i - 1] && s[j] == t[j - 1]; }
        }
      }
    }
  }

  lemma SortDistinct<T(!new)>(le: (T, T) -> bool, s: seq<T>)
    requires Ranking(le) && Distinct(s)
    ensures Distinct(Sort(le, s))
  {
    SortCorrect(le, s);
    DistinctByMultiset(s);
    DistinctByMultiset(Sort(le, s));
    forall x | x in Sort(le, s) ensures multiset(Sort(le, s))[x] == 1 {
      SortMembers(le, s, x);
    }
  }

  /** A sorted list is determined by its elements: sorting has exactly one answer. */
  lemma SortedUnique<T(!new)>(le: (T, T) -> bool, a: seq<T>, b: seq<T>)
    requires TotalOrder(le) && Sorted(le, a) && Sorted(le, b)
    requires multiset(a) == multiset(b)
    ensures a == b
  {
    assert |multiset(a)| == |a| && |multiset(b)| == |b|;
    if a != [] {
      assert a[0] in multiset(a);
      assert a[0] in b;
      assert b[0] in multiset(b);
      assert b[0] in a;
      assert a[0] == b[0];
      assert a == [a[0]] + a[1..] && b == [b[0]] + b[1..];
      assert multiset(a[1..]) == multiset(a) - multiset{a[0]};
      assert multiset(b[1..]) == multiset(b) - multiset{b[0]};
      SortedUnique(le, a[1..], b[1..]);
    }
  }

  /** For duplicate-free lists the members alone determine the sorted list. */
  lemma SortedByMembers<T(!new)>(le: (T, T) -> bool, a: seq<T>, b: seq<T>)
    requires TotalOrder(le) && Sorted(le, a) && Sorted(le, b) && Distinct(a) && Distinct(b)
    requires forall x :: x in a <==> x in b
    ensures a == b
  {
    DistinctByMultiset(a);
    DistinctByMultiset(b);
    forall x ensures multiset(a)[x] == multiset(b)[x] {
      if x in a { assert x in b; } else { assert x !in multiset(a) && x !in multiset(b); }
    }
    SortedUnique(le, a, b);
  }

  lemma DistinctSize<T(!new)>(s: seq<T>)
    requires Distinct(s)
    ensures |set x | x in s| == |s|
  {
    if s != [] {
      var n := |s| - 1;
      DistinctSize(s[..n]);
      assert (set x | x in s) == (set x | x in s[..n]) + {s[n]};
    }
  }

  /** The list of a set's members, in some order. */
  method Listed<T(==,!new)>(s: set<T>) returns (out: seq<T>)
    ensures Distinct(out)
    ensures forall x :: x in out <==> x in s
  {
    out := [];
    var rest := s;
    while rest != {}
      invariant rest <= s && Distinct(out)
      invariant forall x :: x in out <==> x in s && x !in rest
      decreases |rest|
    {
      var x :| x in rest;
      out := out + [x];
      rest := rest - {x};
    }
  }
}
