/** How many elements of a sequence have a property: the number of their places. */
module Counting {

  ghost function PlacesOf<T>(s: seq<T>, p: T -> bool): set<int> {
    set i | 0 <= i < |s| && p(s[i])
  }

  ghost function NumberOf<T>(s: seq<T>, p: T -> bool): nat {
    |PlacesOf(s, p)|
  }

  lemma NumberOfSnoc<T>(s: seq<T>, p: T -> bool)
    requires s != []
    ensures NumberOf(s, p) == NumberOf(s[..|s| - 1], p) + (if p(s[|s| - 1]) then 1 else 0)
  {
    var n := |s| - 1;
    assert PlacesOf(s, p) == PlacesOf(s[..n], p) + if p(s[n]) then {n} else {};
  }

  lemma NumberOfNone<T>(p: T -> bool)
    ensures NumberOf([], p) == 0
  {
    assert PlacesOf([], p) == {};
  }
}
