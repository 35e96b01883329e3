/** The stable sort behind `List.sort` and `Collections.sort`, written as an
    insertion sort over a comparison `le` ("`a` may come before `b`"). */
module Sorting {

  predicate SortedBy<T>(s: seq<T>, le: (T, T) -> bool) {
    forall i, j :: 0 <= i < j < |s| ==> le(s[i], s[j])
  }

  /** `le` is total and transitive, as a `Comparator` must be. */
  ghost predicate TotalPreorder<T(!new)>(le: (T, T) -> bool) {
    (forall a, b :: le(a, b) || le(b, a)) &&
    (forall a, b, c :: le(a, b) && le(b, c) ==> le(a, c))
  }

  /** Inserts `x` after every leading element that may precede it, so that equal
      elements keep their arrival order. */
  function Insert<T>(x: T, s: seq<T>, le: (T, T) -> bool): (r: seq<T>)
    ensures |r| == |s| + 1
    ensures multiset(r) == multiset(s) + multiset{x}
  {
    if s == [] || !le(s[0], x) then [x] + s
    else
      assert s == [s[0]] + s[1..];
      [s[0]] + Insert(x, s[1..], le)
  }

  /** Inserting an element that `b` may precede into a sequence whose every
      entry `b` may precede keeps that so. */
  lemma {:induction false} InsertLowerBound<T>(b: T, x: T, s: seq<T>, le: (T, T) -> bool)
    requires le(b, x)
    requires forall i :: 0 <= i < |s| ==> le(b, s[i])
    ensures forall i :: 0 <= i < |Insert(x, s, le)| ==> le(b, Insert(x, s, le)[i])
    decreases |s|
  {
    if s != [] && le(s[0], x) {
      InsertLowerBound(b, x, s[1..], le);
      var r := Insert(x, s, le);
      var tail := Insert(x, s[1..], le);
      assert r == [s[0]] + tail;
      forall i | 0 <= i < |r|
        ensures le(b, r[i])
      {
        if i > 0 {
          assert r[i] == tail[i - 1];
        }
      }
    }
  }

  lemma {:induction false} InsertSorted<T(!new)>(x: T, s: seq<T>, le: (T, T) -> bool)
    requires TotalPreorder(le)
    requires SortedBy(s, le)
    ensures SortedBy(Insert(x, s, le), le)
    decreases |s|
  {
    if s != [] && le(s[0], x) {
      var rest := s[1..];
      var tail := Insert(x, rest, le);
      assert SortedBy(rest, le) by {
        forall i, j | 0 <= i < j < |rest|
          ensures le(rest[i], rest[j])
        {
          assert rest[i] == s[i + 1] && rest[j] == s[j + 1];
        }
      }
      InsertSorted(x, rest, le);
      assert forall i :: 0 <= i < |rest| ==> le(s[0], rest[i]) by {
        forall i | 0 <= i < |rest|
          ensures le(s[0], rest[i])
        {
          assert rest[i] == s[i + 1];
        }
      }
      InsertLowerBound(s[0], x, rest, le);
      var r := [s[0]] + tail;
      assert r == Insert(x, s, le);
      forall i, j | 0 <= i < j < |r|
        ensures le(r[i], r[j])
      {
        assert r[j] == tail[j - 1];
        if i > 0 {
          assert r[i] == tail[i - 1];
        }
      }
    } else {
      var r := Insert(x, s, le);
      assert r == [x] + s;
      forall i, j | 0 <= i < j < |r|
        ensures le(r[i], r[j])
      {
        assert r[j] == s[j - 1];
        if i > 0 {
          assert r[i] == s[i - 1];
        } else if s != [] {
          assert le(s[0], s[j - 1]) || j == 1;
        }
      }
    }
  }

  /** Sorts `s` by `le`: the result is ordered and a permutation of `s`. */
  method SortBy<T(!new)>(s: seq<T>, le: (T, T) -> bool) returns (r: seq<T>)
    requires TotalPreorder(le)
    ensures SortedBy(r, le)
    ensures multiset(r) == multiset(s)
  {
    r := [];
    var i := 0;
    while i < |s|
      invariant 0 <= i <= |s|
      invariant SortedBy(r, le)
      invariant multiset(r) == multiset(s[..i])
    {
      InsertSorted(s[i], r, le);
      r := Insert(s[i], r, le);
      assert s[..i + 1] == s[..i] + [s[i]];
      i := i + 1;
    }
    assert s[..|s|] == s;
  }

  /** No element occurs twice. */
  predicate Distinct<T(==)>(s: seq<T>) {
    forall i, j :: 0 <= i < j < |s| ==> s[i] != s[j]
  }

  lemma {:induction false} DistinctCount<T>(s: seq<T>, x: T)
    requires Distinct(s)
    ensures multiset(s)[x] <= 1
    decreases |s|
  {
    if s != [] {
      assert s == [s[0]] + s[1..];
      assert Distinct(s[1..]) by {
        forall i, j | 0 <= i < j < |s[1..]|
          ensures s[1..][i] != s[1..][j]
        {
          assert s[1..][i] == s[i + 1] && s[1..][j] == s[j + 1];
        }
      }
      DistinctCount(s[1..], x);
      if s[0] == x {
        assert x !in s[1..] by {
          forall k | 0 <= k < |s[1..]|
            ensures s[1..][k] != x
          {
            assert s[1..][k] == s[k + 1];
          }
        }
      }
    }
  }

  /** Two equal entries at different places make that value occur twice. */
  lemma TwoCopies<T>(r: seq<T>, i: int, j: int)
    requires 0 <= i < j < |r|
    ensures r[i] == r[j] ==> multiset(r)[r[i]] >= 2
  {
    assert r == r[..j] + [r[j]] + r[j + 1..];
    assert r[i] in r[..j];
    assert multiset(r) == multiset(r[..j]) + multiset{r[j]} + multiset(r[j + 1..]);
  }

  /** A reordering of a sequence without repetitions has none either. */
  lemma DistinctPermutation<T>(s: seq<T>, r: seq<T>)
    requires Distinct(s) && multiset(r) == multiset(s)
    ensures Distinct(r)
  {
    forall i, j | 0 <= i < j < |r|
      ensures r[i] != r[j]
    {
      DistinctCount(s, r[i]);
      TwoCopies(r, i, j);
    }
  }

  /** The elements of a sequence. */
  function Elems<T>(s: seq<T>): set<T> {
    set x | x in s
  }

  /** A sequence without repetitions has as many elements as entries. */
  lemma {:induction false} DistinctCard<T>(s: seq<T>)
    requires Distinct(s)
    ensures |Elems(s)| == |s|
    decreases |s|
  {
    if s != [] {
      var t := s[1..];
      assert Distinct(t) by {
        forall i, j | 0 <= i < j < |t|
          ensures t[i] != t[j]
        {
          assert t[i] == s[i + 1] && t[j] == s[j + 1];
        }
      }
      DistinctCard(t);
      assert s[0] !in Elems(t) by {
        forall k | 0 <= k < |t|
          ensures t[k] != s[0]
        {
          assert t[k] == s[k + 1];
        }
      }
      assert Elems(s) == {s[0]} + Elems(t) by {
        assert s == [s[0]] + t;
      }
    }
  }

  /** `new ArrayList<>(set)`: the elements of a hash set in the set's own
      iteration order, which the model leaves open. */
  method ListOf<T(==)>(s: set<T>) returns (l: seq<T>)
    ensures Distinct(l) && Elems(l) == s && |l| == |s|
  {
    l := [];
    var rest := s;
    while rest != {}
      invariant Distinct(l)
      invariant Elems(l) + rest == s && Elems(l) !! rest
      invariant |l| + |rest| == |s|
      decreases |rest|
    {
      var x :| x in rest;
      l := l + [x];
      rest := rest - {x};
    }
  }

  /** Two sequences without repetitions and with no element in common
      concatenate to one without repetitions. */
  lemma DistinctAppend<T>(a: seq<T>, b: seq<T>)
    requires Distinct(a) && Distinct(b) && Elems(a) !! Elems(b)
    ensures Distinct(a + b)
  {
    forall i, j | 0 <= i < j < |a + b|
      ensures (a + b)[i] != (a + b)[j]
    {
      if i < |a| && |a| <= j {
        assert (a + b)[i] in Elems(a) && (a + b)[j] in Elems(b);
      }
    }
  }

  /** Taking the head off a sequence without repetitions leaves one without
      repetitions that lacks the head. */
  lemma DistinctTail<T>(s: seq<T>)
    requires Distinct(s) && s != []
    ensures Distinct(s[1..]) && s[0] !in Elems(s[1..]) && Elems(s) == {s[0]} + Elems(s[1..])
  {
    forall i, j | 0 <= i < j < |s[1..]|
      ensures s[1..][i] != s[1..][j]
    {
      assert s[1..][i] == s[i + 1] && s[1..][j] == s[j + 1];
    }
    forall k | 0 <= k < |s[1..]|
      ensures s[1..][k] != s[0]
    {
      assert s[1..][k] == s[k + 1];
    }
    ElemsCons(s);
  }

  lemma ElemsConcat<T>(a: seq<T>, b: seq<T>)
    ensures Elems(a + b) == Elems(a) + Elems(b)
  {
  }

  lemma ElemsSnoc<T>(s: seq<T>, x: T)
    ensures Elems(s + [x]) == Elems(s) + {x}
  {
  }

  lemma ElemsCons<T>(s: seq<T>)
    requires s != []
    ensures Elems(s) == {s[0]} + Elems(s[1..])
  {
    assert s == [s[0]] + s[1..];
  }
}
