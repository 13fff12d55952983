/** Character error rate: the two-row dynamic programme of `accuracy.ts`, proved equal to the
    recursive edit distance, and the metric laws that distance obeys. */
module EditDistance {

  // ----- The reference distance -----

  function Min3(x: nat, y: nat, z: nat): nat {
    if x <= y && x <= z then x else if y <= z then y else z
  }

  /** Least number of single-token deletions, insertions and substitutions from `a` to `b`. */
  function Distance<T(==)>(a: seq<T>, b: seq<T>): nat
    decreases |a| + |b|
  {
    if a == [] then |b|
    else if b == [] then |a|
    else
      var a', b' := a[..|a| - 1], b[..|b| - 1];
      var cost := if a[|a| - 1] == b[|b| - 1] then 0 else 1;
      Min3(Distance(a', b) + 1, Distance(a, b') + 1, Distance(a', b') + cost)
  }

  lemma {:induction false} DistanceSymmetric<T>(a: seq<T>, b: seq<T>)
    ensures Distance(a, b) == Distance(b, a)
    decreases |a| + |b|
  {
    if a != [] && b != [] {
      var a', b' := a[..|a| - 1], b[..|b| - 1];
      DistanceSymmetric(a', b);
      DistanceSymmetric(a, b');
      DistanceSymmetric(a', b');
    }
  }

  /** Between the length difference and the longer length. */
  lemma {:induction false} DistanceBounds<T>(a: seq<T>, b: seq<T>)
    ensures |a| - |b| <= Distance(a, b) && |b| - |a| <= Distance(a, b)
    ensures Distance(a, b) <= if |a| <= |b| then |b| else |a|
    decreases |a| + |b|
  {
    if a != [] && b != [] {
      var a', b' := a[..|a| - 1], b[..|b| - 1];
      DistanceBounds(a', b);
      DistanceBounds(a, b');
      DistanceBounds(a', b');
    }
  }

  lemma {:induction false} DistanceZero<T>(a: seq<T>, b: seq<T>)
    ensures Distance(a, b) == 0 <==> a == b
    decreases |a| + |b|
  {
    if a != [] && b != [] {
      var a', b' := a[..|a| - 1], b[..|b| - 1];
      DistanceZero(a', b');
      assert a == a' + [a[|a| - 1]] && b == b' + [b[|b| - 1]];
    }
  }

  /** One more token on the left costs at most one edit. */
  lemma DropLeft<T>(a: seq<T>, b: seq<T>)
    requires a != []
    ensures Distance(a, b) <= Distance(a[..|a| - 1], b) + 1
  {
  }

  lemma DropRight<T>(a: seq<T>, b: seq<T>)
    requires b != []
    ensures Distance(a, b) <= Distance(a, b[..|b| - 1]) + 1
  {
  }

  lemma {:induction false} TriangleInequality<T>(a: seq<T>, b: seq<T>, c: seq<T>)
    ensures Distance(a, c) <= Distance(a, b) + Distance(b, c)
    decreases |a| + |b| + |c|
  {
    if a == [] {
      DistanceBounds(b, c);
    } else if c == [] {
      DistanceBounds(a, b);
    } else if b == [] {
      DistanceBounds(a, c);
    } else {
      var a', b', c' := a[..|a| - 1], b[..|b| - 1], c[..|c| - 1];
      DropLeft(a, c);
      DropRight(a, c);
      TriangleInequality(a', b, c);
      TriangleInequality(a, b, c');
      TriangleInequality(a, b', c);
      TriangleInequality(a, b', c');
      TriangleInequality(a', b', c);
      TriangleInequality(a', b', c');
    }
  }

  // ----- The least number of edits -----

  function Without<T>(a: seq<T>, i: nat): seq<T>
    requires i < |a|
  {
    a[..i] + a[i + 1..]
  }

  /** One token deleted, inserted or replaced. */
  ghost predicate OneEdit<T(!new)>(a: seq<T>, b: seq<T>) {
    || (exists i | 0 <= i < |a| :: b == Without(a, i))
    || (exists i | 0 <= i < |b| :: a == Without(b, i))
    || (|a| == |b| && exists i | 0 <= i < |a| :: b == a[i := b[i]])
  }

  /** From `a` to `b`, one edit at a time. */
  ghost predicate EditPath<T(!new)>(path: seq<seq<T>>, a: seq<T>, b: seq<T>) {
    && path != [] && path[0] == a && path[|path| - 1] == b
    && forall k | 0 < k < |path| :: OneEdit(path[k - 1], path[k])
  }

  lemma {:induction false} DeletionCostsOne<T>(a: seq<T>, i: nat)
    requires i < |a|
    ensures Distance(a, Without(a, i)) <= 1
  {
    var (n, b) := (|a| - 1, Without(a, i));
    if i == n {
      assert b == a[..n];
      DistanceZero(a[..n], b);
      DropLeft(a, b);
    } else {
      DeletionCostsOne(a[..n], i);
      assert b[..|b| - 1] == Without(a[..n], i) && b[|b| - 1] == a[n];
    }
  }

  lemma {:induction false} ReplacementCostsOne<T>(a: seq<T>, i: nat, x: T)
    requires i < |a|
    ensures Distance(a, a[i := x]) <= 1
  {
    var (n, b) := (|a| - 1, a[i := x]);
    if i == n {
      assert b[..n] == a[..n];
      DistanceZero(a[..n], b[..n]);
    } else {
      ReplacementCostsOne(a[..n], i, x);
      assert b[..n] == a[..n][i := x] && b[n] == a[n];
    }
  }

  lemma OneEditCostsOne<T(!new)>(a: seq<T>, b: seq<T>)
    requires OneEdit(a, b)
    ensures Distance(a, b) <= 1
  {
    if i :| 0 <= i < |a| && b == Without(a, i) {
      DeletionCostsOne(a, i);
    } else if i :| 0 <= i < |b| && a == Without(b, i) {
      DeletionCostsOne(b, i);
      DistanceSymmetric(a, b);
    } else {
      var i :| 0 <= i < |a| == |b| && b == a[i := b[i]];
      ReplacementCostsOne(a, i, b[i]);
    }
  }

  /** However one gets from `a` to `b`, it takes at least that many edits. */
  lemma {:induction false} NoFewerEdits<T(!new)>(path: seq<seq<T>>, a: seq<T>, b: seq<T>)
    requires EditPath(path, a, b)
    ensures Distance(a, b) <= |path| - 1
    decreases |path|
  {
    var n := |path| - 1;
    if n == 0 {
      DistanceZero(a, b);
    } else {
      NoFewerEdits(path[..n], a, path[n - 1]);
      OneEditCostsOne(path[n - 1], b);
      TriangleInequality(a, path[n - 1], b);
    }
  }

  lemma EditAlongside<T(!new)>(a: seq<T>, b: seq<T>, x: T)
    requires OneEdit(a, b)
    ensures OneEdit(a + [x], b + [x])
  {
    if i :| 0 <= i < |a| && b == Without(a, i) {
      assert b + [x] == Without(a + [x], i);
    } else if i :| 0 <= i < |b| && a == Without(b, i) {
      assert a + [x] == Without(b + [x], i);
    } else {
      var i :| 0 <= i < |a| == |b| && b == a[i := b[i]];
      assert b + [x] == (a + [x])[i := (b + [x])[i]];
    }
  }

  /** The same edits in front of one more token. */
  lemma PathAlongside<T(!new)>(path: seq<seq<T>>, a: seq<T>, b: seq<T>, x: T) returns (longer: seq<seq<T>>)
    requires EditPath(path, a, b)
    ensures EditPath(longer, a + [x], b + [x]) && |longer| == |path|
  {
    longer := seq(|path|, k requires 0 <= k < |path| => path[k] + [x]);
    forall k | 0 < k < |longer|
      ensures OneEdit(longer[k - 1], longer[k])
    {
      EditAlongside(path[k - 1], path[k], x);
    }
  }

  lemma EditFirst<T(!new)>(a: seq<T>, c: seq<T>, path: seq<seq<T>>, b: seq<T>)
    requires OneEdit(a, c) && EditPath(path, c, b)
    ensures EditPath([a] + path, a, b)
  {
    var longer := [a] + path;
    forall k | 0 < k < |longer|
      ensures OneEdit(longer[k - 1], longer[k])
    {
      assert k > 1 ==> longer[k - 1] == path[k - 2];
    }
  }

  lemma EditLast<T(!new)>(path: seq<seq<T>>, a: seq<T>, c: seq<T>, b: seq<T>)
    requires EditPath(path, a, c) && OneEdit(c, b)
    ensures EditPath(path + [b], a, b)
  {
  }

  lemma LastTokenEdits<T(!new)>(a: seq<T>)
    requires a != []
    ensures OneEdit(a, a[..|a| - 1]) && OneEdit(a[..|a| - 1], a)
  {
    assert a[..|a| - 1] == Without(a, |a| - 1);
  }

  /** And that many edits are enough. */
  lemma {:induction false} EnoughEdits<T(!new)>(a: seq<T>, b: seq<T>) returns (path: seq<seq<T>>)
    ensures EditPath(path, a, b) && |path| - 1 == Distance(a, b)
    decreases |a| + |b|, 1
  {
    if a == [] && b == [] {
      path := [a];
    } else if b == [] || (a != [] && Distance(a, b) == Distance(a[..|a| - 1], b) + 1) {
      path := EnoughEdits(a[..|a| - 1], b);
      LastTokenEdits(a);
      EditFirst(a, a[..|a| - 1], path, b);
      path := [a] + path;
    } else if a == [] || Distance(a, b) == Distance(a, b[..|b| - 1]) + 1 {
      path := EnoughEdits(a, b[..|b| - 1]);
      LastTokenEdits(b);
      EditLast(path, a, b[..|b| - 1], b);
      path := path + [b];
    } else {
      path := EnoughEditsApart(a, b);
    }
  }

  /** When the last tokens are kept or replaced. */
  lemma {:induction false} EnoughEditsApart<T(!new)>(a: seq<T>, b: seq<T>) returns (path: seq<seq<T>>)
    requires a != [] && b != []
    requires Distance(a, b) == Distance(a[..|a| - 1], b[..|b| - 1]) + if a[|a| - 1] == b[|b| - 1] then 0 else 1
    ensures EditPath(path, a, b) && |path| - 1 == Distance(a, b)
    decreases |a| + |b|, 0
  {
    var (a', b', x, y) := (a[..|a| - 1], b[..|b| - 1], a[|a| - 1], b[|b| - 1]);
    var front := EnoughEdits(a', b');
    path := PathAlongside(front, a', b', y);
    assert b == b' + [y] && a == a' + [x];
    if x != y {
      assert a' + [y] == a[|a| - 1 := (a' + [y])[|a| - 1]];
      EditFirst(a, a' + [y], path, b);
      path := [a] + path;
    }
  }

  // ----- The two-row loop -----

  /** `row` holds the distances from `a` to every prefix of `b`, up to column `n`. */
  ghost predicate RowOf<T>(row: seq<nat>, a: seq<T>, b: seq<T>, n: nat) {
    n <= |row| && n <= |b| + 1 && forall j | 0 <= j < n :: row[j] == Distance(a, b[..j])
  }

  lemma NextCell<T>(a: seq<T>, b: seq<T>, i: nat, j: nat)
    requires 0 < i <= |a| && 0 < j <= |b|
    ensures Distance(a[..i], b[..j]) == Min3(
        Distance(a[..i - 1], b[..j]) + 1,
        Distance(a[..i], b[..j - 1]) + 1,
        Distance(a[..i - 1], b[..j - 1]) + if a[i - 1] == b[j - 1] then 0 else 1)
  {
    assert a[..i][..i - 1] == a[..i - 1] && b[..j][..j - 1] == b[..j - 1];
  }

  /** The next cell of a row, from the row above and the cell before. */
  lemma RowGrows<T>(a: seq<T>, b: seq<T>, i: nat, j: nat, prev: seq<nat>, curr: seq<nat>, next: seq<nat>)
    requires 0 < i <= |a| && 0 < j <= |b|
    requires RowOf(prev, a[..i - 1], b, |b| + 1) && RowOf(curr, a[..i], b, j)
    requires |next| == |curr| == |b| + 1 && (forall k | 0 <= k < j :: next[k] == curr[k])
    requires next[j] == Min3(prev[j] + 1, curr[j - 1] + 1, prev[j - 1] + if a[i - 1] == b[j - 1] then 0 else 1)
    ensures RowOf(next, a[..i], b, j + 1)
  {
    assert prev[j] == Distance(a[..i - 1], b[..j]) && prev[j - 1] == Distance(a[..i - 1], b[..j - 1]);
    assert curr[j - 1] == Distance(a[..i], b[..j - 1]);
    NextCell(a, b, i, j);
    forall k | 0 <= k < j + 1
      ensures next[k] == Distance(a[..i], b[..k])
    {
      if k < j {
        assert next[k] == curr[k];
      }
    }
  }

  method FillRow<T(==)>(a: seq<T>, b: seq<T>, i: nat, prev: array<nat>, curr: array<nat>)
    requires 0 < i <= |a| && prev != curr && prev.Length == curr.Length == |b| + 1
    requires RowOf(prev[..], a[..i - 1], b, |b| + 1)
    modifies curr
    ensures RowOf(curr[..], a[..i], b, |b| + 1)
  {
    curr[0] := i;
    for j := 1 to |b| + 1
      invariant prev[..] == old(prev[..])
      invariant RowOf(curr[..], a[..i], b, j)
    {
      ghost var before := curr[..];
      var cost := if a[i - 1] == b[j - 1] then 0 else 1;
      curr[j] := Min3(prev[j] + 1, curr[j - 1] + 1, prev[j - 1] + cost);
      RowGrows(a, b, i, j, prev[..], before, curr[..]);
    }
  }

  /** The source's `levenshtein`: swaps its arguments so that `b` is the shorter one, then runs
      two rows that trade places after every token of `a`. */
  method Levenshtein<T(==)>(a: seq<T>, b: seq<T>) returns (d: nat)
    ensures d == Distance(a, b)
    decreases if |a| < |b| then 1 else 0
  {
    if |a| < |b| {
      d := Levenshtein(b, a);
      DistanceSymmetric(a, b);
      return;
    }
    if |b| == 0 {
      return |a|;
    }
    var prev, curr := new nat[|b| + 1], new nat[|b| + 1];
    for j := 0 to |b| + 1
      invariant forall k | 0 <= k < j :: prev[k] == k
    {
      prev[j] := j;
    }
    assert a[..0] == [];
    for i := 1 to |a| + 1
      invariant prev.Length == curr.Length == |b| + 1 && prev != curr && fresh(prev) && fresh(curr)
      invariant RowOf(prev[..], a[..i - 1], b, |b| + 1)
    {
      FillRow(a, b, i, prev, curr);
      prev, curr := curr, prev;
    }
    assert a[..|a|] == a && b[..|b|] == b;
    d := prev[|b|];
    assert d == prev[..][|b|];
  }

  // ----- The rate -----

  function Longer<T>(a: seq<T>, b: seq<T>): nat {
    if |a| >= |b| then |a| else |b|
  }

  /** `rate` is the share `n / d`, in [0, 1], and zero exactly when `n` is. */
  ghost predicate IsShare(rate: real, n: nat, d: nat) {
    0.0 <= rate <= 1.0 && (rate == 0.0 <==> n == 0) && rate * d as real == n as real
  }

  lemma ShareOf(n: nat, d: nat)
    requires n <= d && 0 < d
    ensures IsShare(n as real / d as real, n, d)
  {
  }

  lemma WholeShare(d: nat)
    requires 0 < d
    ensures IsShare(1.0, d, d) && IsShare(0.0, 0, 0)
  {
  }

  /** `computeCER` from the normalised token sequences on. */
  method ComputeCer<T(==)>(reference: seq<T>, candidate: seq<T>) returns (rate: real)
    ensures IsShare(rate, Distance(reference, candidate), Longer(reference, candidate))
    ensures rate == 0.0 <==> reference == candidate
  {
    DistanceBounds(reference, candidate);
    DistanceZero(reference, candidate);
    if |reference| == 0 && |candidate| == 0 {
      WholeShare(1);
      return 0.0;
    }
    if |reference| == 0 || |candidate| == 0 {
      WholeShare(Longer(reference, candidate));
      return 1.0;
    }
    var distance := Levenshtein(reference, candidate);
    var denom := Longer(reference, candidate);
    ShareOf(distance, denom);
    rate := distance as real / denom as real;
  }
}
