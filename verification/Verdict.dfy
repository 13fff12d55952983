/** The engine bake-off verdict: failure tallies, nearest-rank percentiles and the ranking of the
    qualifying candidates (`verdict.ts`). */
module Verdict {
  import opened Wrappers
  import opened Ordering
  import opened OrderMetric

  // ----- Tallying one subgroup -----

  datatype Outcome = Success | Failure(code: string)

  datatype Observation = Observation(engine_name: string, fixture_id: string, outcome: Outcome)

  /** The value found under a key of the `failures` record: a number, or the text that results from
      adding 1 to an inherited property of the record's prototype. */
  datatype Tally = Count(n: nat) | Garbled

  const INHERITED_KEY := "constructor"

  predicate Lower(c: char) {
    'a' <= c <= 'z'
  }

  /** `CODE_SHAPE`: a lower-case letter, then at most 63 lower-case letters, digits or underscores. */
  predicate CodeShaped(code: string) {
    && 1 <= |code| <= 64
    && Lower(code[0])
    && forall i | 0 < i < |code| :: Lower(code[i]) || '0' <= code[i] <= '9' || code[i] == '_'
  }

  function FirstFor(observations: seq<Observation>, id: string): Option<Outcome> {
    if observations == [] then None
    else if observations[0].fixture_id == id then Some(observations[0].outcome)
    else FirstFor(observations[1..], id)
  }

  /** The key a fixture is tallied under; None for a success. */
  function TallyKey(observations: seq<Observation>, id: string): Option<string> {
    match FirstFor(observations, id)
    case None => Some("not_run")
    case Some(Success) => None
    case Some(Failure(code)) => Some(if CodeShaped(code) then code else "unrecognised_code")
  }

  function Bump(failures: map<string, Tally>, key: string): map<string, Tally> {
    var prior :=
      if key in failures then failures[key]
      else if key == INHERITED_KEY then Garbled
      else Count(0);
    failures[key := if prior.Count? then Count(prior.n + 1) else Garbled]
  }

  ghost predicate AllCounts(failures: map<string, Tally>) {
    forall k | k in failures :: failures[k].Count?
  }

  ghost function Total(failures: map<string, Tally>): nat
    requires AllCounts(failures)
  {
    if failures == map[] then 0
    else
      var k :| k in failures;
      failures[k].n + Total(failures - {k})
  }

  lemma {:induction false} TotalWithout(failures: map<string, Tally>, k: string)
    requires AllCounts(failures) && k in failures
    ensures Total(failures) == failures[k].n + Total(failures - {k})
    decreases |failures|
  {
    var k' :| k' in failures && Total(failures) == failures[k'].n + Total(failures - {k'});
    if k' != k {
      TotalWithout(failures - {k'}, k);
      TotalWithout(failures - {k}, k');
      assert failures - {k'} - {k} == failures - {k} - {k'};
    }
  }

  lemma TotalBump(failures: map<string, Tally>, key: string)
    requires AllCounts(failures) && key != INHERITED_KEY
    ensures AllCounts(Bump(failures, key)) && Total(Bump(failures, key)) == Total(failures) + 1
  {
    var next := Bump(failures, key);
    TotalWithout(next, key);
    if key in failures {
      TotalWithout(failures, key);
      assert next - {key} == failures - {key};
    } else {
      assert next - {key} == failures;
    }
  }

  /** The tally keys of the members, in order. */
  function Keys(members: seq<string>, observations: seq<Observation>): seq<Option<string>> {
    seq(|members|, i requires 0 <= i < |members| => TallyKey(observations, members[i]))
  }

  function TallyAll(keys: seq<Option<string>>): map<string, Tally> {
    if keys == [] then map[]
    else
      var before, last := TallyAll(keys[..|keys| - 1]), keys[|keys| - 1];
      if last.Some? then Bump(before, last.value) else before
  }

  /** Every key carries its exact number of occurrences, except the inherited one, which no longer
      holds a number at all. */
  lemma {:induction false} TallyCounts(keys: seq<Option<string>>, c: string)
    ensures c in TallyAll(keys) <==> Some(c) in keys
    ensures c in TallyAll(keys) ==>
      TallyAll(keys)[c] == if c == INHERITED_KEY then Garbled else Count(multiset(keys)[Some(c)])
  {
    if keys != [] {
      var init, last := keys[..|keys| - 1], keys[|keys| - 1];
      assert keys == init + [last];
      TallyCounts(init, c);
      assert Some(c) in init <==> Some(c) in multiset(init);
    }
  }

  /** Conservation: successes and failure tallies together account for every fixture — exactly when
      no fixture failed with the code `constructor`. */
  lemma {:induction false} TallyConserves(keys: seq<Option<string>>)
    ensures AllCounts(TallyAll(keys)) <==> Some(INHERITED_KEY) !in keys
    ensures AllCounts(TallyAll(keys)) ==> multiset(keys)[None] + Total(TallyAll(keys)) == |keys|
  {
    forall c | c in TallyAll(keys)
      ensures TallyAll(keys)[c].Count? <==> c != INHERITED_KEY
    {
      TallyCounts(keys, c);
    }
    TallyCounts(keys, INHERITED_KEY);
    if keys != [] && AllCounts(TallyAll(keys)) {
      var init, last := keys[..|keys| - 1], keys[|keys| - 1];
      assert keys == init + [last];
      TallyConserves(init);
      if last.Some? {
        assert last.value != INHERITED_KEY;
        TotalBump(TallyAll(init), last.value);
      }
    }
  }

  lemma TallyOneMore(keys: seq<Option<string>>, i: nat)
    requires i < |keys|
    ensures multiset(keys[..i + 1])[None] == multiset(keys[..i])[None] + (if keys[i].None? then 1 else 0)
    ensures TallyAll(keys[..i + 1]) == if keys[i].Some? then Bump(TallyAll(keys[..i]), keys[i].value) else TallyAll(keys[..i])
  {
    assert keys[..i + 1] == keys[..i] + [keys[i]];
    assert keys[..i + 1][..i] == keys[..i];
  }

  /** The members loop of `aggregate`, for the observations of one engine and the ids of one subgroup. */
  method TallySubgroup(members: seq<string>, observations: seq<Observation>)
    returns (successes: nat, failures: map<string, Tally>)
    ensures successes == multiset(Keys(members, observations))[None]
    ensures failures == TallyAll(Keys(members, observations))
    ensures Some(INHERITED_KEY) !in Keys(members, observations) ==>
      AllCounts(failures) && successes + Total(failures) == |members|
  {
    ghost var keys := Keys(members, observations);
    successes, failures := 0, map[];
    for i := 0 to |members|
      invariant successes == multiset(keys[..i])[None]
      invariant failures == TallyAll(keys[..i])
    {
      TallyOneMore(keys, i);
      var found := FirstFor(observations, members[i]);
      if found.None? {
        failures := Bump(failures, "not_run");
      } else if found.value.Failure? {
        failures := Bump(failures, if CodeShaped(found.value.code) then found.value.code else "unrecognised_code");
      } else {
        successes := successes + 1;
      }
    }
    assert keys[..|members|] == keys;
    TallyConserves(keys);
  }

  /** One fixture, one failure coded `constructor`: the tally holds no number, so nothing adds up. */
  lemma ConstructorCodeBreaksTheTally()
    ensures CodeShaped(INHERITED_KEY)
    ensures var keys := Keys(["page-1"], [Observation("engine", "page-1", Failure(INHERITED_KEY))]);
      TallyAll(keys) == map[INHERITED_KEY := Garbled] && !AllCounts(TallyAll(keys))
  {
    var keys := Keys(["page-1"], [Observation("engine", "page-1", Failure(INHERITED_KEY))]);
    assert keys == [Some(INHERITED_KEY)];
    TallyCounts(keys, INHERITED_KEY);
    assert keys[..0] == [];
  }

  // ----- Percentiles -----

  ghost predicate NonDecreasing(xs: seq<real>) {
    forall i, j | 0 <= i <= j < |xs| :: xs[i] <= xs[j]
  }

  function CountAtMost(xs: seq<real>, v: real): nat {
    if xs == [] then 0 else CountAtMost(xs[..|xs| - 1], v) + if xs[|xs| - 1] <= v then 1 else 0
  }

  lemma {:induction false} CountBounds(xs: seq<real>, v: real, k: nat)
    requires NonDecreasing(xs) && k <= |xs|
    ensures (forall i | 0 <= i < k :: xs[i] <= v) ==> k <= CountAtMost(xs, v)
    ensures (forall i | k <= i < |xs| :: v < xs[i]) ==> CountAtMost(xs, v) <= k
    ensures CountAtMost(xs, v) <= |xs|
  {
    if xs != [] {
      CountBounds(xs[..|xs| - 1], v, if k < |xs| then k else |xs| - 1);
    }
  }

  function Ceiling(x: real): (n: int)
    ensures x <= n as real < x + 1.0
  {
    if x.Floor as real == x then x.Floor else x.Floor + 1
  }

  lemma CeilingMonotone(x: real, y: real)
    requires x <= y
    ensures Ceiling(x) <= Ceiling(y)
  {
    assert Ceiling(x) as real < Ceiling(y) as real + 1.0;
  }

  /** `q` of `n`. */
  function Part(q: real, n: nat): real {
    q * n as real
  }

  function Rank(p: real, n: nat): int {
    var rank := Ceiling(Part(p / 100.0, n));
    if rank < 1 then 1 else rank
  }

  lemma ScaleMonotone(q: real, r: real, n: nat)
    requires q <= r
    ensures Part(q, n) <= Part(r, n)
  {
  }

  lemma RankFacts(p: real, n: nat)
    requires 0.0 <= p <= 100.0 && 0 < n
    ensures 1 <= Rank(p, n) <= n
    ensures Part(p / 100.0, n) <= Rank(p, n) as real
    ensures Rank(p, n) == 1 || (Rank(p, n) - 1) as real < Part(p / 100.0, n)
  {
    ScaleMonotone(p / 100.0, 1.0, n);
    assert Part(p / 100.0, n) <= n as real;
    assert Ceiling(Part(p / 100.0, n)) as real < n as real + 1.0;
  }

  /** `percentile` on an ascending list: None for the empty list. */
  function Percentile(sorted: seq<real>, p: real): Option<real>
    requires 0.0 <= p <= 100.0
  {
    if sorted == [] then None
    else
      RankFacts(p, |sorted|);
      Some(sorted[Rank(p, |sorted|) - 1])
  }

  /** Nearest rank: the least listed value that at least `p` per cent of the list does not exceed. */
  lemma PercentileIsNearestRank(sorted: seq<real>, p: real)
    requires 0.0 <= p <= 100.0 && sorted != [] && NonDecreasing(sorted)
    ensures var v := Percentile(sorted, p).value;
      && v in sorted
      && Part(p / 100.0, |sorted|) <= CountAtMost(sorted, v) as real
      && forall w | w in sorted && w < v :: (CountAtMost(sorted, w) as real) < Part(p / 100.0, |sorted|)
  {
    RankFacts(p, |sorted|);
    var k := Rank(p, |sorted|);
    var v := sorted[k - 1];
    CountBounds(sorted, v, k);
    forall w | w in sorted && w < v
      ensures (CountAtMost(sorted, w) as real) < Part(p / 100.0, |sorted|)
    {
      assert forall i | k - 1 <= i < |sorted| :: w < sorted[i];
      CountBounds(sorted, w, k - 1);
    }
  }

  lemma PercentileMonotone(sorted: seq<real>, p: real, q: real)
    requires 0.0 <= p <= q <= 100.0 && sorted != [] && NonDecreasing(sorted)
    ensures Percentile(sorted, p).value <= Percentile(sorted, q).value
  {
    RankFacts(p, |sorted|);
    RankFacts(q, |sorted|);
    ScaleMonotone(p / 100.0, q / 100.0, |sorted|);
    CeilingMonotone(Part(p / 100.0, |sorted|), Part(q / 100.0, |sorted|));
  }

  // ----- Ranking -----

  datatype Direction = Asc | Desc

  datatype Candidate = Candidate(name: string, keys: seq<Option<real>>)

  /** The sort comparator of `evaluate`: keys in turn, a missing value last whatever the direction,
      names to break a full tie. */
  predicate Before(nameLess: (string, string) -> bool, rankBy: seq<Direction>, a: Candidate, b: Candidate, i: nat)
    requires |a.keys| == |b.keys| == |rankBy| && i <= |rankBy|
    decreases |rankBy| - i
  {
    if i == |rankBy| then nameLess(a.name, b.name)
    else
      match (a.keys[i], b.keys[i])
      case (None, None) => Before(nameLess, rankBy, a, b, i + 1)
      case (None, Some(_)) => false
      case (Some(_), None) => true
      case (Some(x), Some(y)) =>
        if x == y then Before(nameLess, rankBy, a, b, i + 1)
        else if rankBy[i] == Asc then x < y
        else x > y
  }

  lemma {:induction false} BeforeIrreflexive(nameLess: (string, string) -> bool, rankBy: seq<Direction>, a: Candidate, i: nat)
    requires |a.keys| == |rankBy| && i <= |rankBy| && !nameLess(a.name, a.name)
    ensures !Before(nameLess, rankBy, a, a, i)
    decreases |rankBy| - i
  {
    if i < |rankBy| {
      BeforeIrreflexive(nameLess, rankBy, a, i + 1);
    }
  }

  lemma {:induction false} BeforeTotal(nameLess: (string, string) -> bool, rankBy: seq<Direction>, a: Candidate, b: Candidate, i: nat)
    requires |a.keys| == |b.keys| == |rankBy| && i <= |rankBy|
    requires nameLess(a.name, b.name) || nameLess(b.name, a.name)
    ensures Before(nameLess, rankBy, a, b, i) || Before(nameLess, rankBy, b, a, i)
    decreases |rankBy| - i
  {
    if i < |rankBy| {
      BeforeTotal(nameLess, rankBy, a, b, i + 1);
    }
  }

  lemma {:induction false} BeforeTransitive(
      nameLess: (string, string) -> bool, rankBy: seq<Direction>, a: Candidate, b: Candidate, c: Candidate, i: nat)
    requires |a.keys| == |b.keys| == |c.keys| == |rankBy| && i <= |rankBy|
    requires nameLess(a.name, b.name) && nameLess(b.name, c.name) ==> nameLess(a.name, c.name)
    requires Before(nameLess, rankBy, a, b, i) && Before(nameLess, rankBy, b, c, i)
    ensures Before(nameLess, rankBy, a, c, i)
    decreases |rankBy| - i
  {
    if i < |rankBy| && a.keys[i] == b.keys[i] == c.keys[i] {
      BeforeTransitive(nameLess, rankBy, a, b, c, i + 1);
    }
  }

  ghost predicate Rankable(nameLess: (string, string) -> bool, rankBy: seq<Direction>, cs: seq<Candidate>) {
    && (forall c | c in cs :: |c.keys| == |rankBy|)
    && (forall i, j | 0 <= i < j < |cs| :: cs[i].name != cs[j].name)
    && StrictTotalOn(nameLess, Names(cs))
  }

  function Names(cs: seq<Candidate>): seq<string> {
    seq(|cs|, i requires 0 <= i < |cs| => cs[i].name)
  }

  function RankOrder(nameLess: (string, string) -> bool, rankBy: seq<Direction>): (Candidate, Candidate) -> bool {
    (a: Candidate, b: Candidate) =>
      |a.keys| == |b.keys| == |rankBy| && Before(nameLess, rankBy, a, b, 0)
  }

  lemma RankOrderIsStrictTotal(nameLess: (string, string) -> bool, rankBy: seq<Direction>, cs: seq<Candidate>)
    requires Rankable(nameLess, rankBy, cs)
    ensures StrictTotalOn(RankOrder(nameLess, rankBy), cs) && Distinct(cs)
  {
    var less := RankOrder(nameLess, rankBy);
    forall c | c in cs
      ensures c.name in Names(cs)
    {
      var i :| 0 <= i < |cs| && cs[i] == c;
      assert Names(cs)[i] == c.name;
    }
    forall a | a in cs
      ensures !less(a, a)
    {
      BeforeIrreflexive(nameLess, rankBy, a, 0);
    }
    forall a, b | a in cs && b in cs
      ensures a == b || less(a, b) || less(b, a)
    {
      if a != b {
        BeforeTotal(nameLess, rankBy, a, b, 0);
      }
    }
    forall a, b, c | a in cs && b in cs && c in cs && less(a, b) && less(b, c)
      ensures less(a, c)
    {
      BeforeTransitive(nameLess, rankBy, a, b, c, 0);
    }
  }

  /** Has a value under the first ranking key. */
  predicate Measured(c: Candidate) {
    c.keys != [] && c.keys[0].Some?
  }

  /** The ranking: a permutation of the qualifying candidates, ascending under the comparator, the
      same for every order in which the spec lists them; a candidate with a first key never ranks
      behind one without. */
  lemma RankingIsCanonical(nameLess: (string, string) -> bool, rankBy: seq<Direction>, cs: seq<Candidate>, ds: seq<Candidate>)
    requires Rankable(nameLess, rankBy, cs) && multiset(cs) == multiset(ds)
    ensures var less := RankOrder(nameLess, rankBy); var ranking := SortBy(less, cs);
      && multiset(ranking) == multiset(cs)
      && Ascending(less, ranking)
      && ranking == SortBy(less, ds)
      && forall i, j | 0 <= i < j < |ranking| && Measured(ranking[j]) :: Measured(ranking[i])
  {
    var less := RankOrder(nameLess, rankBy);
    RankOrderIsStrictTotal(nameLess, rankBy, cs);
    SortOutcome(less, cs);
    SortIgnoresInputOrder(less, cs, ds);
    var ranking := SortBy(less, cs);
    forall i, j | 0 <= i < j < |ranking| && Measured(ranking[j])
      ensures Measured(ranking[i])
    {
      assert less(ranking[i], ranking[j]);
    }
  }

  // ----- Requirements -----

  datatype Operator = AtLeast | AtMost

  datatype Requirement = Requirement(measured: Option<real>, op: Operator, value: real)

  /** An unmeasured requirement fails: absence is not compliance. */
  predicate Passes(r: Requirement) {
    r.measured.Some? && if r.op == AtLeast then r.measured.value >= r.value else r.measured.value <= r.value
  }

  predicate Qualifies(present: bool, requirements: seq<Requirement>) {
    present && forall i | 0 <= i < |requirements| :: Passes(requirements[i])
  }

  datatype Evaluated = Evaluated(candidate: Candidate, present: bool, requirements: seq<Requirement>)

  function Qualifying(es: seq<Evaluated>): seq<Candidate> {
    if es == [] then []
    else (if Qualifies(es[0].present, es[0].requirements) then [es[0].candidate] else []) + Qualifying(es[1..])
  }

  lemma {:induction false} QualifyingMembers(es: seq<Evaluated>, c: Candidate)
    ensures c in Qualifying(es) <==> exists e :: e in es && e.candidate == c && Qualifies(e.present, e.requirements)
  {
    if es != [] {
      QualifyingMembers(es[1..], c);
      assert es == [es[0]] + es[1..];
      if c in Qualifying(es) && c in Qualifying(es[1..]) {
        var e :| e in es[1..] && e.candidate == c && Qualifies(e.present, e.requirements);
        assert e in es;
      } else if c in Qualifying(es) {
        assert es[0] in es;
      }
    }
  }

  // ----- What the ranking says, key by key -----

  /** The qualifying candidates of a slot in rank order; the first one is awarded. */
  function Ranking(nameLess: (string, string) -> bool, rankBy: seq<Direction>, es: seq<Evaluated>): seq<Candidate> {
    SortBy(RankOrder(nameLess, rankBy), Qualifying(es))
  }

  /** `x` is the better value: smaller under an ascending key, larger under a descending one, and any
      value is better than none. */
  predicate Better(d: Direction, x: Option<real>, y: Option<real>) {
    match (x, y)
    case (None, _) => false
    case (Some(_), None) => true
    case (Some(v), Some(w)) => if d == Asc then v < w else w < v
  }

  /** The two candidates have the same first `n` keys. */
  predicate AgreeUpTo(a: Candidate, b: Candidate, n: nat)
    requires n <= |a.keys| && n <= |b.keys|
  {
    forall k | 0 <= k < n :: a.keys[k] == b.keys[k]
  }

  lemma {:induction false} BeforeByKey(
    nameLess: (string, string) -> bool, rankBy: seq<Direction>, a: Candidate, b: Candidate, i: nat, n: nat)
    requires |a.keys| == |b.keys| == |rankBy| && i <= n <= |rankBy| && AgreeUpTo(a, b, n)
    requires Before(nameLess, rankBy, a, b, i)
    ensures n < |rankBy| && a.keys[n] != b.keys[n] ==> Better(rankBy[n], a.keys[n], b.keys[n])
    ensures n == |rankBy| ==> nameLess(a.name, b.name)
    decreases n - i
  {
    if i < n {
      BeforeByKey(nameLess, rankBy, a, b, i + 1, n);
    }
  }

  /** Of two ranked candidates that agree on the first `n` keys, the one in front has the better next key,
      or, if all keys agree, the lesser name. */
  lemma RankingFollowsKeys(
    nameLess: (string, string) -> bool, rankBy: seq<Direction>, es: seq<Evaluated>, p: nat, q: nat, n: nat)
    requires Rankable(nameLess, rankBy, Qualifying(es)) && p < q < |Ranking(nameLess, rankBy, es)| && n <= |rankBy|
    ensures var (a, b) := (Ranking(nameLess, rankBy, es)[p], Ranking(nameLess, rankBy, es)[q]);
      && |a.keys| == |b.keys| == |rankBy|
      && (AgreeUpTo(a, b, n) && n < |rankBy| && a.keys[n] != b.keys[n] ==> Better(rankBy[n], a.keys[n], b.keys[n]))
      && (AgreeUpTo(a, b, n) && n == |rankBy| ==> nameLess(a.name, b.name))
  {
    var (less, ranking) := (RankOrder(nameLess, rankBy), Ranking(nameLess, rankBy, es));
    RankOrderIsStrictTotal(nameLess, rankBy, Qualifying(es));
    SortOutcome(less, Qualifying(es));
    var (a, b) := (ranking[p], ranking[q]);
    assert less(a, b) && a in Qualifying(es) && b in Qualifying(es);
    if AgreeUpTo(a, b, n) {
      BeforeByKey(nameLess, rankBy, a, b, 0, n);
    }
  }

  /** On the required side of every threshold, measured and present. */
  predicate MeetsAll(e: Evaluated) {
    && e.present
    && forall r | r in e.requirements ::
      && r.measured.Some?
      && (r.op == AtLeast ==> r.value <= r.measured.value)
      && (r.op == AtMost ==> r.measured.value <= r.value)
  }

  lemma QualifiesMeansMeets(e: Evaluated)
    ensures Qualifies(e.present, e.requirements) <==> MeetsAll(e)
  {
    forall r | r in e.requirements && Qualifies(e.present, e.requirements)
      ensures Passes(r)
    {
      var i :| 0 <= i < |e.requirements| && e.requirements[i] == r;
    }
    forall i | 0 <= i < |e.requirements| && MeetsAll(e)
      ensures Passes(e.requirements[i])
    {
      assert e.requirements[i] in e.requirements;
    }
  }

  /** Ranked are exactly the candidates that meet every requirement. */
  lemma RankedMeetAll(nameLess: (string, string) -> bool, rankBy: seq<Direction>, es: seq<Evaluated>, c: Candidate)
    ensures c in Ranking(nameLess, rankBy, es) <==> exists e | e in es :: e.candidate == c && MeetsAll(e)
  {
    SortKeepsMembers(RankOrder(nameLess, rankBy), Qualifying(es));
    QualifyingMembers(es, c);
    forall e | e in es
      ensures Qualifies(e.present, e.requirements) <==> MeetsAll(e)
    {
      QualifiesMeansMeets(e);
    }
  }

  /** The award: no candidate that meets every requirement has a smaller first key than the winner when
      that key is ascending, none a larger one when it is descending, and none has one if the winner has
      none. The winner meets every requirement itself. */
  lemma WinnerIsBestOnFirstKey(nameLess: (string, string) -> bool, rankBy: seq<Direction>, es: seq<Evaluated>, e: Evaluated)
    requires Rankable(nameLess, rankBy, Qualifying(es)) && rankBy != [] && e in es && MeetsAll(e)
    ensures var ranking := Ranking(nameLess, rankBy, es);
      && ranking != [] && |e.candidate.keys| == |ranking[0].keys| == |rankBy|
      && (exists w | w in es :: w.candidate == ranking[0] && MeetsAll(w))
      && var (best, own) := (ranking[0].keys[0], e.candidate.keys[0]);
        own.Some? ==> best.Some? && if rankBy[0] == Asc then best.value <= own.value else own.value <= best.value
  {
    var ranking := Ranking(nameLess, rankBy, es);
    RankedMeetAll(nameLess, rankBy, es, e.candidate);
    var q :| 0 <= q < |ranking| && ranking[q] == e.candidate;
    assert ranking[0] in ranking;
    RankedMeetAll(nameLess, rankBy, es, ranking[0]);
    QualifyingMembers(es, e.candidate);
    QualifiesMeansMeets(e);
    if q > 0 {
      RankingFollowsKeys(nameLess, rankBy, es, 0, q, 0);
    }
  }

  /** Who wins the slot: nobody iff nobody qualifies; otherwise a qualifying candidate that every
      other qualifying candidate ranks behind. */
  lemma AwardIsBest(nameLess: (string, string) -> bool, rankBy: seq<Direction>, es: seq<Evaluated>)
    requires Rankable(nameLess, rankBy, Qualifying(es))
    ensures var ranking := SortBy(RankOrder(nameLess, rankBy), Qualifying(es));
      && (ranking == [] <==> forall e | e in es :: !Qualifies(e.present, e.requirements))
      && (ranking != [] ==>
            && (exists e :: e in es && e.candidate == ranking[0] && Qualifies(e.present, e.requirements))
            && forall e | e in es && Qualifies(e.present, e.requirements) && e.candidate != ranking[0] ::
                 RankOrder(nameLess, rankBy)(ranking[0], e.candidate))
  {
    var less := RankOrder(nameLess, rankBy);
    var cs := Qualifying(es);
    var ranking := SortBy(less, cs);
    RankOrderIsStrictTotal(nameLess, rankBy, cs);
    SortOutcome(less, cs);
    forall e | e in es && Qualifies(e.present, e.requirements)
      ensures e.candidate in ranking
    {
      QualifyingMembers(es, e.candidate);
    }
    if ranking != [] {
      assert ranking[0] in ranking;
      QualifyingMembers(es, ranking[0]);
      forall e | e in es && Qualifies(e.present, e.requirements) && e.candidate != ranking[0]
        ensures less(ranking[0], e.candidate)
      {
        var i :| 0 <= i < |ranking| && ranking[i] == e.candidate;
        assert less(ranking[0], ranking[i]);
      }
    }
  }
}
