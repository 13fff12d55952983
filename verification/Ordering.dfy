/** Strict total orders on the elements of a list, the sorted arrangement they induce, and the
    fact everything downstream leans on: the sorted arrangement is unique. */
module Ordering {

  /** `less` orders the elements of `xs` strictly and totally. */
  ghost predicate StrictTotalOn<T(!new)>(less: (T, T) -> bool, xs: seq<T>) {
    && (forall a | a in xs :: !less(a, a))
    && (forall a, b | a in xs && b in xs :: a == b || less(a, b) || less(b, a))
    && (forall a, b, c {:trigger less(a, b), less(b, c)} | a in xs && b in xs && c in xs && less(a, b) && less(b, c) :: less(a, c))
  }

  predicate Distinct<T(==)>(s: seq<T>) {
    forall i, j | 0 <= i < j < |s| :: s[i] != s[j]
  }

  /** Strictly ascending. */
  ghost predicate Ascending<T(!new)>(less: (T, T) -> bool, s: seq<T>) {
    forall i, j | 0 <= i < j < |s| :: less(s[i], s[j])
  }

  function InsertBy<T>(less: (T, T) -> bool, x: T, s: seq<T>): (r: seq<T>)
    ensures multiset(r) == multiset{x} + multiset(s)
  {
    if s == [] then [x]
    else if less(x, s[0]) then [x] + s
    else
      assert s == [s[0]] + s[1..];
      [s[0]] + InsertBy(less, x, s[1..])
  }

  /** The arrangement `Array.prototype.sort` produces for a strict total order. */
  function SortBy<T>(less: (T, T) -> bool, s: seq<T>): (r: seq<T>)
    ensures multiset(r) == multiset(s)
  {
    if s == [] then []
    else
      assert s == [s[0]] + s[1..];
      InsertBy(less, s[0], SortBy(less, s[1..]))
  }

  lemma MembersByMultiset<T(!new)>(a: seq<T>, b: seq<T>)
    requires multiset(a) == multiset(b)
    ensures |a| == |b|
    ensures forall x :: x in a <==> x in b
  {
    assert |a| == |multiset(a)| == |multiset(b)| == |b|;
    forall x
      ensures x in a <==> x in b
    {
      assert x in a <==> x in multiset(a);
      assert x in b <==> x in multiset(b);
    }
  }

  lemma SortKeepsMembers<T(!new)>(less: (T, T) -> bool, s: seq<T>)
    ensures |SortBy(less, s)| == |s|
    ensures forall x :: x in SortBy(less, s) <==> x in s
  {
    MembersByMultiset(SortBy(less, s), s);
  }

  lemma {:induction false} DistinctCountsOne<T(!new)>(a: seq<T>)
    requires Distinct(a)
    ensures forall x | x in multiset(a) :: multiset(a)[x] == 1
  {
    if a != [] {
      var init, last := a[..|a| - 1], a[|a| - 1];
      assert a == init + [last];
      DistinctCountsOne(init);
      assert last !in init;
      assert last !in multiset(init);
    }
  }

  lemma {:induction false} CountsOneDistinct<T(!new)>(a: seq<T>)
    requires forall x | x in multiset(a) :: multiset(a)[x] <= 1
    ensures Distinct(a)
  {
    if a != [] {
      var init, last := a[..|a| - 1], a[|a| - 1];
      assert a == init + [last];
      forall x | x in multiset(init)
        ensures multiset(init)[x] <= 1
      {
        assert multiset(a)[x] == multiset(init)[x] + multiset{last}[x];
      }
      CountsOneDistinct(init);
      assert last in multiset(a) && multiset(a)[last] == multiset(init)[last] + 1;
      assert last !in multiset(init);
      assert forall i | 0 <= i < |init| :: init[i] in multiset(init);
    }
  }

  lemma TotalOnSameMembers<T(!new)>(less: (T, T) -> bool, s: seq<T>, t: seq<T>)
    requires StrictTotalOn(less, s) && forall x | x in t :: x in s
    ensures StrictTotalOn(less, t)
  {
  }

  lemma {:induction false} InsertAscending<T(!new)>(less: (T, T) -> bool, x: T, s: seq<T>)
    requires Ascending(less, s) && x !in s && StrictTotalOn(less, [x] + s)
    ensures Ascending(less, InsertBy(less, x, s))
  {
    if s != [] {
      var first, rest := s[0], s[1..];
      assert first in [x] + s && x in [x] + s;
      if less(x, first) {
        forall i | 0 < i < |s|
          ensures less(x, s[i])
        {
          assert s[i] in [x] + s && less(first, s[i]);
        }
      } else {
        assert forall a | a in [x] + rest :: a in [x] + s;
        TotalOnSameMembers(less, [x] + s, [x] + rest);
        InsertAscending(less, x, rest);
        var tail := InsertBy(less, x, rest);
        MembersByMultiset(tail, [x] + rest);
        forall i | 0 <= i < |tail|
          ensures less(first, tail[i])
        {
          assert tail[i] in tail && tail[i] in multiset(tail);
          if tail[i] != x {
            assert tail[i] in multiset(rest);
            assert tail[i] in rest;
          }
        }
      }
    }
  }

  lemma {:induction false} SortAscending<T(!new)>(less: (T, T) -> bool, s: seq<T>)
    requires Distinct(s) && StrictTotalOn(less, s)
    ensures Ascending(less, SortBy(less, s))
  {
    if s != [] {
      SortAscending(less, s[1..]);
      var rest := SortBy(less, s[1..]);
      MembersByMultiset(rest, s[1..]);
      forall a | a in [s[0]] + rest
        ensures a in s
      {
        if a != s[0] {
          assert a in rest;
          assert a in multiset(rest) && a in multiset(s[1..]);
          assert a in s[1..];
        }
      }
      assert s[0] !in s[1..];
      TotalOnSameMembers(less, s, s[1..]);
      TotalOnSameMembers(less, s, [s[0]] + rest);
      InsertAscending(less, s[0], rest);
    }
  }

  /** Two ascending lists with the same members are the same list. */
  lemma {:induction false} AscendingUnique<T(!new)>(less: (T, T) -> bool, s: seq<T>, t: seq<T>)
    requires Ascending(less, s) && Ascending(less, t) && StrictTotalOn(less, s)
    requires forall x :: x in s <==> x in t
    ensures s == t
  {
    assert s != [] ==> s[0] in s && s[0] in t;
    assert t != [] ==> t[0] in t && t[0] in s;
    if s != [] && t != [] {
      var x, y := s[0], t[0];
      assert x == y || (less(x, y) && less(y, x));
      assert !(less(x, y) && less(y, x));
      assert s == [s[0]] + s[1..] && t == [t[0]] + t[1..];
      assert s[0] !in s[1..] && t[0] !in t[1..];
      forall x
        ensures x in s[1..] <==> x in t[1..]
      {
        assert x in s[1..] <==> x in s && x != s[0];
        assert x in t[1..] <==> x in t && x != t[0];
      }
      TotalOnSameMembers(less, s, s[1..]);
      AscendingUnique(less, s[1..], t[1..]);
    }
  }

  /** The sorted list: same members, ascending, still totally ordered. */
  lemma SortOutcome<T(!new)>(less: (T, T) -> bool, s: seq<T>)
    requires Distinct(s) && StrictTotalOn(less, s)
    ensures Ascending(less, SortBy(less, s)) && StrictTotalOn(less, SortBy(less, s))
    ensures forall x :: x in SortBy(less, s) <==> x in s
  {
    SortAscending(less, s);
    SortKeepsMembers(less, s);
    var r := SortBy(less, s);
    forall x | x in r
      ensures x in s
    {
    }
    TotalOnSameMembers(less, s, r);
  }

  /** Sorting forgets the input order: permutations of one list sort to the same list. */
  lemma SortIgnoresInputOrder<T(!new)>(less: (T, T) -> bool, s: seq<T>, t: seq<T>)
    requires Distinct(s) && StrictTotalOn(less, s) && multiset(s) == multiset(t)
    ensures SortBy(less, s) == SortBy(less, t)
  {
    assert Distinct(t) by {
      DistinctCountsOne(s);
      CountsOneDistinct(t);
    }
    assert StrictTotalOn(less, t) by {
      MembersByMultiset(s, t);
      TotalOnSameMembers(less, s, t);
    }
    SortOutcome(less, s);
    SortOutcome(less, t);
    forall x
      ensures x in SortBy(less, s) <==> x in SortBy(less, t)
    {
      MembersByMultiset(s, t);
    }
    AscendingUnique(less, SortBy(less, s), SortBy(less, t));
  }
}
