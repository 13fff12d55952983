/** The order-insensitive agreement metrics of `verdict.ts`: containment counts a multiset
    intersection, order divides a longest common subsequence by it, and the clamp at 1 is idle. */
module OrderMetric {
  import opened Wrappers

  // ----- Longest common subsequence -----

  /** `s` can be obtained from `a` by deleting tokens. */
  ghost predicate Subsequence<T>(s: seq<T>, a: seq<T>)
    decreases |a|
  {
    s == [] ||
    (a != [] &&
     ((s[|s| - 1] == a[|a| - 1] && Subsequence(s[..|s| - 1], a[..|a| - 1])) || Subsequence(s, a[..|a| - 1])))
  }

  function Max(x: nat, y: nat): nat {
    if x >= y then x else y
  }

  function Lcs<T(==)>(a: seq<T>, b: seq<T>): nat
    decreases |a| + |b|
  {
    if a == [] || b == [] then 0
    else if a[|a| - 1] == b[|b| - 1] then Lcs(a[..|a| - 1], b[..|b| - 1]) + 1
    else Max(Lcs(a[..|a| - 1], b), Lcs(a, b[..|b| - 1]))
  }

  lemma {:induction false} SubsequenceDropLast<T>(s: seq<T>, a: seq<T>)
    requires s != [] && Subsequence(s, a)
    ensures a != [] && Subsequence(s[..|s| - 1], a[..|a| - 1])
    decreases |a|
  {
    var s', a' := s[..|s| - 1], a[..|a| - 1];
    if !(s[|s| - 1] == a[|a| - 1] && Subsequence(s', a')) {
      SubsequenceDropLast(s, a');
      SubsequenceWeaken(s', a'[..|a'| - 1], a');
    }
  }

  lemma SubsequenceWeaken<T>(s: seq<T>, a': seq<T>, a: seq<T>)
    requires a != [] && a' == a[..|a| - 1] && Subsequence(s, a')
    ensures Subsequence(s, a)
  {
  }

  /** No common subsequence is longer than `Lcs`. */
  lemma {:induction false} LcsIsUpperBound<T>(s: seq<T>, a: seq<T>, b: seq<T>)
    requires Subsequence(s, a) && Subsequence(s, b)
    ensures |s| <= Lcs(a, b)
    decreases |a| + |b|
  {
    if s != [] {
      var a', b' := a[..|a| - 1], b[..|b| - 1];
      if a[|a| - 1] == b[|b| - 1] {
        SubsequenceDropLast(s, a);
        SubsequenceDropLast(s, b);
        LcsIsUpperBound(s[..|s| - 1], a', b');
      } else if s[|s| - 1] != a[|a| - 1] {
        LcsIsUpperBound(s, a', b);
      } else {
        LcsIsUpperBound(s, a, b');
      }
    }
  }

  /** Some common subsequence has exactly that length. */
  lemma {:induction false} LcsIsAttained<T>(a: seq<T>, b: seq<T>) returns (s: seq<T>)
    ensures Subsequence(s, a) && Subsequence(s, b) && |s| == Lcs(a, b)
    decreases |a| + |b|
  {
    if a == [] || b == [] {
      s := [];
    } else {
      var a', b' := a[..|a| - 1], b[..|b| - 1];
      if a[|a| - 1] == b[|b| - 1] {
        var s' := LcsIsAttained(a', b');
        s := s' + [a[|a| - 1]];
        assert s[..|s| - 1] == s';
      } else if Lcs(a', b) >= Lcs(a, b') {
        s := LcsIsAttained(a', b);
      } else {
        s := LcsIsAttained(a, b');
      }
    }
  }

  // ----- Containment -----

  lemma IntersectOneMore<T>(A: multiset<T>, x: T, B: multiset<T>)
    ensures (A + multiset{x}) * B == A * B + if A[x] < B[x] then multiset{x} else multiset{}
  {
  }

  lemma {:induction false} SubsequenceIsContained<T>(s: seq<T>, a: seq<T>)
    requires Subsequence(s, a)
    ensures multiset(s) <= multiset(a)
    decreases |a|
  {
    if s != [] {
      var s', a' := s[..|s| - 1], a[..|a| - 1];
      assert s == s' + [s[|s| - 1]] && a == a' + [a[|a| - 1]];
      if s[|s| - 1] == a[|a| - 1] && Subsequence(s', a') {
        SubsequenceIsContained(s', a');
      } else {
        SubsequenceIsContained(s, a');
      }
    }
  }

  lemma SizeMonotone<T>(A: multiset<T>, B: multiset<T>)
    requires A <= B
    ensures |A| <= |B|
  {
    assert B == A + (B - A);
  }

  /** The order numerator never exceeds the containment count. */
  lemma LcsWithinContainment<T>(a: seq<T>, b: seq<T>)
    ensures Lcs(a, b) <= |multiset(a) * multiset(b)| <= |a|
  {
    var s := LcsIsAttained(a, b);
    SubsequenceIsContained(s, a);
    SubsequenceIsContained(s, b);
    assert multiset(s) <= multiset(a) * multiset(b);
    SizeMonotone(multiset(s), multiset(a) * multiset(b));
    SizeMonotone(multiset(a) * multiset(b), multiset(a));
  }

  lemma RemainingAfter<T>(B: multiset<T>, A: multiset<T>, x: T, y: T)
    ensures (B - (A + multiset{x}))[y] == if x == y && (B - A)[x] > 0 then (B - A)[y] - 1 else (B - A)[y]
  {
  }

  function CountOf<T(==)>(counts: map<T, nat>, x: T): nat {
    if x in counts then counts[x] else 0
  }

  /** The tallying loops of `computeContainment`, up to the count of hits. */
  method ContainmentHits<T(==,!new)>(reference: seq<T>, candidate: seq<T>) returns (hit: nat)
    ensures hit == |multiset(reference) * multiset(candidate)|
  {
    var counts: map<T, nat> := map[];
    for i := 0 to |candidate|
      invariant forall x :: CountOf(counts, x) == multiset(candidate[..i])[x]
    {
      assert candidate[..i + 1] == candidate[..i] + [candidate[i]];
      counts := counts[candidate[i] := CountOf(counts, candidate[i]) + 1];
    }
    assert candidate[..|candidate|] == candidate;
    ghost var available := multiset(candidate);
    hit := 0;
    for i := 0 to |reference|
      invariant hit == |multiset(reference[..i]) * available|
      invariant forall x :: CountOf(counts, x) == (available - multiset(reference[..i]))[x]
    {
      var ch := reference[i];
      assert reference[..i + 1] == reference[..i] + [ch];
      IntersectOneMore(multiset(reference[..i]), ch, available);
      var k := CountOf(counts, ch);
      ghost var before := counts;
      if k > 0 {
        hit := hit + 1;
        counts := counts[ch := k - 1];
      }
      forall x
        ensures CountOf(counts, x) == (available - multiset(reference[..i + 1]))[x]
      {
        RemainingAfter(available, multiset(reference[..i]), ch, x);
        assert CountOf(before, x) == (available - multiset(reference[..i]))[x];
      }
    }
    assert reference[..|reference|] == reference;
  }

  /** `q` is exactly `n / d`. */
  ghost predicate IsQuotient(q: real, n: nat, d: nat) {
    q * d as real == n as real
  }

  function Quotient(n: nat, d: nat): (q: real)
    requires 0 < d
    ensures IsQuotient(q, n, d) && 0.0 <= q
    ensures n <= d <==> q <= 1.0
  {
    n as real / d as real
  }

  /** `computeContainment`: null for an empty reference. */
  method ComputeContainment<T(==,!new)>(reference: seq<T>, candidate: seq<T>) returns (share: Option<real>)
    ensures share.None? <==> reference == []
    ensures share.Some? ==> IsQuotient(share.value, |multiset(reference) * multiset(candidate)|, |reference|)
  {
    if |reference| == 0 {
      return None;
    }
    var hit := ContainmentHits(reference, candidate);
    share := Some(Quotient(hit, |reference|));
  }

  // ----- Order -----

  lemma NextLcsCell<T>(a: seq<T>, b: seq<T>, i: nat, j: nat)
    requires 0 < i <= |a| && 0 < j <= |b|
    ensures Lcs(a[..i], b[..j]) ==
      if a[i - 1] == b[j - 1] then Lcs(a[..i - 1], b[..j - 1]) + 1
      else Max(Lcs(a[..i - 1], b[..j]), Lcs(a[..i], b[..j - 1]))
  {
    assert a[..i][..i - 1] == a[..i - 1] && b[..j][..j - 1] == b[..j - 1];
  }

  ghost predicate LcsRow<T>(row: seq<nat>, a: seq<T>, b: seq<T>) {
    |row| <= |b| + 1 && forall j | 0 <= j < |row| :: row[j] == Lcs(a, b[..j])
  }

  /** The rolling-row loop of `computeOrder`. */
  method LcsLength<T(==)>(a: seq<T>, b: seq<T>) returns (length: nat)
    ensures length == Lcs(a, b)
  {
    var prev: seq<nat> := seq(|b| + 1, _ => 0);
    for i := 1 to |a| + 1
      invariant |prev| == |b| + 1 && LcsRow(prev, a[..i - 1], b)
    {
      var cur: seq<nat> := [0];
      for j := 1 to |b| + 1
        invariant |cur| == j && LcsRow(cur, a[..i], b)
      {
        NextLcsCell(a, b, i, j);
        var cell := if a[i - 1] == b[j - 1] then prev[j - 1] + 1 else Max(prev[j], cur[j - 1]);
        cur := cur + [cell];
      }
      prev := cur;
    }
    assert a[..|a|] == a && b[..|b|] == b;
    length := prev[|b|];
  }

  /** `computeOrder`: null when nothing is contained; otherwise the clamp at 1 changes nothing. */
  method ComputeOrder<T(==,!new)>(reference: seq<T>, candidate: seq<T>) returns (order: Option<real>)
    ensures order.None? <==> multiset(reference) * multiset(candidate) == multiset{}
    ensures order.Some? ==> 0.0 <= order.value <= 1.0
    ensures order.Some? ==>
      IsQuotient(order.value, Lcs(reference, candidate), |multiset(reference) * multiset(candidate)|)
  {
    if |reference| == 0 {
      return None;
    }
    var contained := ContainmentHits(reference, candidate);
    if contained == 0 {
      return None;
    }
    var length := LcsLength(reference, candidate);
    LcsWithinContainment(reference, candidate);
    var share := Quotient(length, contained);
    order := Some(if share <= 1.0 then share else 1.0);
  }
}
