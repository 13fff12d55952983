/** The keys behind a paged list: the wanted rows of a store, one sort tuple each; and what a drain of
    such a list returns while the store goes on being written. */
module PagedLists {
  import opened Wrappers
  import opened Ordering
  import opened SeekPaging

  /** `rows.filter(wanted)`, each row by its sort tuple. */
  function KeysWhere<R, K>(rows: seq<R>, wanted: R -> bool, key: R -> K): seq<K> {
    if rows == [] then []
    else (if wanted(rows[0]) then [key(rows[0])] else []) + KeysWhere(rows[1..], wanted, key)
  }

  lemma {:induction false} KeysWhereMembers<R(!new), K(!new)>(rows: seq<R>, wanted: R -> bool, key: R -> K, x: K)
    ensures x in KeysWhere(rows, wanted, key) <==> exists r | r in rows :: wanted(r) && key(r) == x
  {
    if rows != [] {
      var (first, rest) := (rows[0], rows[1..]);
      KeysWhereMembers(rest, wanted, key, x);
      assert first in rows && forall r | r in rest :: r in rows;
      if r :| r in rows && wanted(r) && key(r) == x {
        assert r == first || r in rest;
      }
    }
  }

  /** No two rows have one sort tuple. */
  ghost predicate KeysDiffer<R, K>(rows: seq<R>, key: R -> K) {
    forall i, j | 0 <= i < j < |rows| :: key(rows[i]) != key(rows[j])
  }

  lemma {:induction false} KeysWhereDistinct<R(!new), K(!new)>(rows: seq<R>, wanted: R -> bool, key: R -> K)
    requires KeysDiffer(rows, key)
    ensures Distinct(KeysWhere(rows, wanted, key))
  {
    if rows != [] {
      var (first, rest) := (rows[0], rows[1..]);
      KeysWhereDistinct(rest, wanted, key);
      if wanted(first) {
        KeysWhereMembers(rest, wanted, key, key(first));
        PrependDistinct(key(first), KeysWhere(rest, wanted, key));
      }
    }
  }

  lemma PrependDistinct<K>(x: K, s: seq<K>)
    requires Distinct(s) && x !in s
    ensures Distinct([x] + s)
  {
  }

  lemma JoinDistinct<K>(a: seq<K>, b: seq<K>)
    requires Distinct(a) && Distinct(b) && forall x | x in a :: x !in b
    ensures Distinct(a + b)
  {
    var s := a + b;
    forall i, j | 0 <= i < j < |s|
      ensures s[i] != s[j]
    {
      if i < |a| <= j {
        assert s[i] in a && s[j] in b;
      }
    }
  }

  // ----- Draining while rows are added -----

  /** Rows are added between pages, none is taken away. */
  ghost predicate NoneLeaves<T(!new)>(snapshots: nat -> seq<T>) {
    forall n: nat, x: T | x in snapshots(0) :: x in snapshots(n)
  }

  /** A drain that ends: ascending, so each row once; every row there was when it began; nothing that was
      never there. */
  ghost predicate Complete<T(!new)>(less: (T, T) -> bool, snapshots: nat -> seq<T>, drained: Option<seq<T>>) {
    drained.Some? ==>
      && Ascending(less, drained.value)
      && (forall x | x in snapshots(0) :: x in drained.value)
      && (forall x | x in drained.value :: exists n: nat :: x in snapshots(n))
  }

  /** The whole loop, guard included, over a list that only grows. */
  lemma DrainIsComplete<T(!new)>(less: (T, T) -> bool, snapshots: nat -> seq<T>, limit: nat)
    requires StrictTotal(less) && AllDistinct(snapshots) && NoneLeaves(snapshots) && limit >= 1
    ensures Complete(less, snapshots, DrainGuarded(PagesOf(less, snapshots, limit), 0, None, {}))
  {
    var fetch := PagesOf(less, snapshots, limit);
    PagesAdvance(less, snapshots, limit);
    GuardNeverTrips(less, fetch, 0, None, {});
    DrainIsGood(less, snapshots, limit, 0, None);
    var drained := Drain(fetch, 0, None);
    if drained.Some? {
      forall x | x in snapshots(0)
        ensures x in drained.value
      {
        assert Throughout(snapshots, 0, x);
      }
    }
  }

  /** What `DrainIsSorted` says of a list that stands still. */
  ghost predicate DrainsSorted<T(!new)>(less: (T, T) -> bool, keys: seq<T>, limit: nat) {
    DrainGuarded(PagesOf(less, Still(keys), limit), 0, None, {}) ==
      if |keys| <= Room(limit, MAX_PAGES) then Some(SortBy(less, keys)) else None
  }
}
