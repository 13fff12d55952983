/** Aggregating a bake-off report (`subgroupOf` and `aggregate` in `verdict.ts`): which fixtures are
    scored, which subgroup each falls into, when a report is refused, and that what is aggregated
    accounts for every scored fixture of every engine. */
module Aggregation {
  import opened Wrappers
  import opened Verdict

  datatype Role = SmokePage | VerdictPage | HoldoutPage

  datatype Media = Png | Pdf

  /** A slot of the manifest; a placeholder has no role and is never scored. */
  datatype Fixture = Placeholder(id: string) | ActiveFixture(id: string, role: Role, media: Media)

  datatype Subgroup = PngPages | PdfLayer | PdfScan

  const SUBGROUPS: seq<Subgroup> := [PngPages, PdfLayer, PdfScan]

  lemma ThreeSubgroups()
    ensures forall sub: Subgroup :: sub in SUBGROUPS
  {
    forall sub: Subgroup
      ensures sub in SUBGROUPS
    {
      match sub
      case PngPages => assert SUBGROUPS[0] == sub;
      case PdfLayer => assert SUBGROUPS[1] == sub;
      case PdfScan => assert SUBGROUPS[2] == sub;
    }
  }

  const LAYER_SUFFIX := "-pdf-layer"
  const SCAN_SUFFIX := "-pdf-scan"

  predicate EndsWith(s: string, suffix: string) {
    |suffix| <= |s| && s[|s| - |suffix|..] == suffix
  }

  /** PNG by media, a PDF by the suffix of its id; anything else has no subgroup. */
  function SubgroupOf(f: Fixture): Option<Subgroup>
    requires f.ActiveFixture?
  {
    if f.media == Png then Some(PngPages)
    else if EndsWith(f.id, LAYER_SUFFIX) then Some(PdfLayer)
    else if EndsWith(f.id, SCAN_SUFFIX) then Some(PdfScan)
    else None
  }

  /** The engines that answered, the fixtures scored by the report's own count, and what was observed. */
  datatype Report =
    Report(role_filter: Role, fixtures_scored: int, probes: seq<string>, observations: seq<Observation>)

  datatype SubgroupAggregate =
    SubgroupAggregate(fixtures: nat, successes: nat, failures: map<string, Tally>, success_rate: real)

  type EngineAggregates = map<Subgroup, SubgroupAggregate>

  datatype AggregateError = HasNoSubgroup(fixture: Fixture) | ScoredCountDiffers(reported: int, found: nat)

  // ----- Filters -----

  predicate AllActive(fs: seq<Fixture>) {
    forall f | f in fs :: f.ActiveFixture?
  }

  /** `fixtures.filter(f => f.active && f.role === role)`. */
  function Scored(fixtures: seq<Fixture>, role: Role): (r: seq<Fixture>)
    ensures AllActive(r) && forall f | f in r :: f.role == role
  {
    if fixtures == [] then []
    else
      (if fixtures[0].ActiveFixture? && fixtures[0].role == role then [fixtures[0]] else []) + Scored(fixtures[1..], role)
  }

  function Members(active: seq<Fixture>, sub: Subgroup): (r: seq<Fixture>)
    requires AllActive(active)
    ensures forall f | f in r :: f in active && SubgroupOf(f) == Some(sub)
  {
    if active == [] then []
    else (if SubgroupOf(active[0]) == Some(sub) then [active[0]] else []) + Members(active[1..], sub)
  }

  function Ids(fs: seq<Fixture>): (r: seq<string>)
    ensures |r| == |fs|
  {
    seq(|fs|, i requires 0 <= i < |fs| => fs[i].id)
  }

  /** The observations of one engine, in order. */
  function ObservedBy(observations: seq<Observation>, name: string): (r: seq<Observation>)
    ensures forall o | o in r :: o in observations && o.engine_name == name
  {
    if observations == [] then []
    else
      (if observations[0].engine_name == name then [observations[0]] else []) + ObservedBy(observations[1..], name)
  }

  function EnginesIn(observations: seq<Observation>): seq<string> {
    seq(|observations|, i requires 0 <= i < |observations| => observations[i].engine_name)
  }

  /** Every engine that was probed or observed. */
  function Engines(report: Report): seq<string> {
    report.probes + EnginesIn(report.observations)
  }

  // ----- One engine, one subgroup -----

  function KeysFor(report: Report, active: seq<Fixture>, name: string, sub: Subgroup): seq<Option<string>>
    requires AllActive(active)
  {
    Keys(Ids(Members(active, sub)), ObservedBy(report.observations, name))
  }

  /** The share of successes. */
  function Share(successes: nat, fixtures: nat): real
    requires fixtures > 0
  {
    successes as real / fixtures as real
  }

  /** What the aggregate of an engine says of a subgroup that has members. */
  ghost predicate IsAggregate(report: Report, active: seq<Fixture>, name: string, sub: Subgroup, a: SubgroupAggregate)
    requires AllActive(active)
  {
    var (members, keys) := (Members(active, sub), KeysFor(report, active, name, sub));
    && members != [] && a.fixtures == |members|
    && a.successes == multiset(keys)[None] && a.failures == TallyAll(keys)
    && a.success_rate == Share(a.successes, a.fixtures)
  }

  /** The subgroups that have members, each with its aggregate. */
  ghost predicate AggregatesEngine(report: Report, active: seq<Fixture>, name: string, per: EngineAggregates)
    requires AllActive(active)
  {
    && (forall sub :: sub in per <==> Members(active, sub) != [])
    && (forall sub | sub in per :: IsAggregate(report, active, name, sub, per[sub]))
  }

  /** The subgroups looked at so far. */
  ghost predicate AggregatesSome(
    report: Report, active: seq<Fixture>, name: string, subs: seq<Subgroup>, per: EngineAggregates)
    requires AllActive(active)
  {
    && (forall sub :: sub in per <==> sub in subs && Members(active, sub) != [])
    && (forall sub | sub in per :: IsAggregate(report, active, name, sub, per[sub]))
  }

  lemma OneMoreSubgroup(
    report: Report, active: seq<Fixture>, name: string, subs: seq<Subgroup>, per: EngineAggregates, sub: Subgroup,
    next: EngineAggregates)
    requires AllActive(active)
    requires AggregatesSome(report, active, name, subs, per)
    requires if Members(active, sub) == [] then next == per
      else exists a :: IsAggregate(report, active, name, sub, a) && next == per[sub := a]
    ensures AggregatesSome(report, active, name, subs + [sub], next)
  {
  }

  method AggregateEngine(report: Report, active: seq<Fixture>, name: string) returns (per: EngineAggregates)
    requires AllActive(active)
    ensures AggregatesEngine(report, active, name, per)
    ensures EveryNumberCounts(report, active, name, per)
  {
    var observations := ObservedBy(report.observations, name);
    per := map[];
    for i := 0 to |SUBGROUPS|
      invariant AggregatesSome(report, active, name, SUBGROUPS[..i], per)
    {
      var sub := SUBGROUPS[i];
      var members := Members(active, sub);
      ghost var before := per;
      assert SUBGROUPS[..i + 1] == SUBGROUPS[..i] + [sub];
      if members != [] {
        var successes, failures := TallySubgroup(Ids(members), observations);
        var a := SubgroupAggregate(|members|, successes, failures, Share(successes, |members|));
        assert IsAggregate(report, active, name, sub, a);
        per := per[sub := a];
      }
      OneMoreSubgroup(report, active, name, SUBGROUPS[..i], before, sub, per);
    }
    assert SUBGROUPS[..|SUBGROUPS|] == SUBGROUPS;
    ThreeSubgroups();
    assert AggregatesEngine(report, active, name, per);
    EveryAggregateCounts(report, active, name, per);
  }

  // ----- What the tally of an engine counts -----

  predicate Matches(o: Observation, name: string, id: string) {
    o.engine_name == name && o.fixture_id == id
  }

  /** Of everything observed, the first observation of the fixture by the engine had this outcome. */
  ghost predicate FirstOutcome(observations: seq<Observation>, name: string, id: string, outcome: Outcome) {
    exists i | 0 <= i < |observations| ::
      && Matches(observations[i], name, id) && observations[i].outcome == outcome
      && forall k | 0 <= k < i :: !Matches(observations[k], name, id)
  }

  predicate Unobserved(observations: seq<Observation>, name: string, id: string) {
    forall o | o in observations :: !Matches(o, name, id)
  }

  /** The fixture counts under this failure key: it was never run, or it first failed with a code that is
      kept as it is or stands for all that are no codes. */
  ghost predicate FailsUnder(observations: seq<Observation>, name: string, id: string, key: string) {
    || (key == "not_run" && Unobserved(observations, name, id))
    || (CodeShaped(key) && FirstOutcome(observations, name, id, Failure(key)))
    || (key == "unrecognised_code"
        && exists code: string :: !CodeShaped(code) && FirstOutcome(observations, name, id, Failure(code)))
  }

  ghost function SucceedingMembers(observations: seq<Observation>, name: string, members: seq<Fixture>): set<int> {
    set i | 0 <= i < |members| && FirstOutcome(observations, name, members[i].id, Success)
  }

  ghost function FailingMembers(observations: seq<Observation>, name: string, members: seq<Fixture>, key: string): set<int> {
    set i | 0 <= i < |members| && FailsUnder(observations, name, members[i].id, key)
  }

  /** Every number of an aggregate is a number of members, told by the observations alone. */
  ghost predicate CountsMembers(observations: seq<Observation>, name: string, members: seq<Fixture>, a: SubgroupAggregate) {
    && a.fixtures == |members|
    && a.successes == |SucceedingMembers(observations, name, members)|
    && (forall key: string :: key in a.failures <==> FailingMembers(observations, name, members, key) != {})
    && (forall key: string | key in a.failures ::
          IsTally(a.failures[key], key, FailingMembers(observations, name, members, key)))
  }

  /** The number of these members, unless the key is inherited. */
  predicate IsTally(t: Tally, key: string, members: set<int>) {
    t == if key == INHERITED_KEY then Garbled else Count(|members|)
  }

  lemma FirstForCons(o: Observation, rest: seq<Observation>, name: string, id: string)
    ensures FirstFor(ObservedBy([o] + rest, name), id) ==
      if Matches(o, name, id) then Some(o.outcome) else FirstFor(ObservedBy(rest, name), id)
  {
    var others := ObservedBy(rest, name);
    assert ([o] + rest)[1..] == rest;
    if o.engine_name == name {
      assert ObservedBy([o] + rest, name) == [o] + others;
      assert ([o] + others)[1..] == others;
    } else {
      assert ObservedBy([o] + rest, name) == [] + others == others;
    }
  }

  /** Where the first match stands. */
  ghost predicate FirstMatch(observations: seq<Observation>, name: string, id: string, i: nat) {
    i < |observations| && Matches(observations[i], name, id) && forall k | 0 <= k < i :: !Matches(observations[k], name, id)
  }

  lemma {:induction false} FirstForAt(observations: seq<Observation>, name: string, id: string) returns (i: nat)
    ensures var found := FirstFor(ObservedBy(observations, name), id);
      if found.Some? then FirstMatch(observations, name, id, i) && observations[i].outcome == found.value
      else Unobserved(observations, name, id)
  {
    i := 0;
    if observations != [] {
      var (o, rest) := (observations[0], observations[1..]);
      assert observations == [o] + rest;
      FirstForCons(o, rest, name, id);
      if !Matches(o, name, id) {
        var j := FirstForAt(rest, name, id);
        i := j + 1;
      }
    }
  }

  /** Filtering by engine and taking the first match finds the first outcome. */
  lemma FirstForMeans(observations: seq<Observation>, name: string, id: string, outcome: Outcome)
    ensures FirstFor(ObservedBy(observations, name), id) == Some(outcome) <==> FirstOutcome(observations, name, id, outcome)
    ensures FirstFor(ObservedBy(observations, name), id).None? <==> Unobserved(observations, name, id)
  {
    var i := FirstForAt(observations, name, id);
    var found := FirstFor(ObservedBy(observations, name), id);
    if found.Some? {
      assert observations[i] in observations;
    }
    if FirstOutcome(observations, name, id, outcome) {
      var k :| 0 <= k < |observations| && Matches(observations[k], name, id) && observations[k].outcome == outcome
        && forall j | 0 <= j < k :: !Matches(observations[j], name, id);
      assert observations[k] in observations;
      assert k == i;
    }
  }

  lemma KeyMeans(observations: seq<Observation>, name: string, id: string, key: string)
    ensures TallyKey(ObservedBy(observations, name), id) == None <==> FirstOutcome(observations, name, id, Success)
    ensures TallyKey(ObservedBy(observations, name), id) == Some(key) <==> FailsUnder(observations, name, id, key)
  {
    var found := FirstFor(ObservedBy(observations, name), id);
    FirstForMeans(observations, name, id, Success);
    FirstForMeans(observations, name, id, Failure(key));
    OwnCodes();
    if found.Some? && found.value.Failure? {
      FirstForMeans(observations, name, id, found.value);
    }
    forall code: string | FirstOutcome(observations, name, id, Failure(code))
      ensures found == Some(Failure(code))
    {
      FirstForMeans(observations, name, id, Failure(code));
    }
  }

  /** The two keys the tally makes up have the shape of a code themselves. */
  lemma OwnCodes()
    ensures CodeShaped("not_run") && CodeShaped("unrecognised_code")
  {
  }

  /** The indices at which `x` stands. */
  ghost predicate IndicesOf<T>(s: seq<T>, x: T, at: set<int>) {
    && (forall i | i in at :: 0 <= i < |s| && s[i] == x)
    && (forall i | 0 <= i < |s| && s[i] == x :: i in at)
  }

  lemma {:induction false} CountIndices<T>(s: seq<T>, x: T, at: set<int>)
    requires IndicesOf(s, x, at)
    ensures multiset(s)[x] == |at|
  {
    if s == [] {
      assert forall i | i in at :: i !in at;
      assert at <= {};
    } else {
      var (init, last) := (s[..|s| - 1], s[|s| - 1]);
      assert s == init + [last];
      CountIndices(init, x, at - {|s| - 1});
      if last == x {
        assert at == at - {|s| - 1} + {|s| - 1};
      }
    }
  }

  lemma SuccessesCounted(observations: seq<Observation>, name: string, members: seq<Fixture>)
    ensures multiset(Keys(Ids(members), ObservedBy(observations, name)))[None]
      == |SucceedingMembers(observations, name, members)|
  {
    var keys := Keys(Ids(members), ObservedBy(observations, name));
    var at := SucceedingMembers(observations, name, members);
    forall i | 0 <= i < |keys|
      ensures i in at <==> keys[i] == None
    {
      KeyMeans(observations, name, members[i].id, "not_run");
    }
    CountIndices(keys, None, at);
  }

  lemma FailuresCounted(observations: seq<Observation>, name: string, members: seq<Fixture>, key: string)
    ensures multiset(Keys(Ids(members), ObservedBy(observations, name)))[Some(key)]
      == |FailingMembers(observations, name, members, key)|
  {
    var keys := Keys(Ids(members), ObservedBy(observations, name));
    var at := FailingMembers(observations, name, members, key);
    forall i | 0 <= i < |keys|
      ensures i in at <==> keys[i] == Some(key)
    {
      KeyMeans(observations, name, members[i].id, key);
    }
    CountIndices(keys, Some(key), at);
  }

  /** Successes are the members whose first observation by the engine succeeded; each failure key counts the
      members that fail under it; nothing else is counted. */
  lemma AggregateCountsMembers(report: Report, active: seq<Fixture>, name: string, sub: Subgroup, a: SubgroupAggregate)
    requires AllActive(active) && IsAggregate(report, active, name, sub, a)
    ensures CountsMembers(report.observations, name, Members(active, sub), a)
  {
    var (members, keys) := (Members(active, sub), KeysFor(report, active, name, sub));
    SuccessesCounted(report.observations, name, members);
    forall key: string
      ensures key in a.failures <==> FailingMembers(report.observations, name, members, key) != {}
      ensures key in a.failures ==> IsTally(a.failures[key], key, FailingMembers(report.observations, name, members, key))
    {
      FailuresCounted(report.observations, name, members, key);
      TallyCounts(keys, key);
      assert Some(key) in keys <==> multiset(keys)[Some(key)] > 0;
    }
  }

  ghost predicate EveryNumberCounts(report: Report, active: seq<Fixture>, name: string, per: EngineAggregates)
    requires AllActive(active)
  {
    forall sub | sub in per :: CountsMembers(report.observations, name, Members(active, sub), per[sub])
  }

  lemma EveryAggregateCounts(report: Report, active: seq<Fixture>, name: string, per: EngineAggregates)
    requires AllActive(active) && AggregatesEngine(report, active, name, per)
    ensures EveryNumberCounts(report, active, name, per)
  {
    forall sub | sub in per
      ensures CountsMembers(report.observations, name, Members(active, sub), per[sub])
    {
      AggregateCountsMembers(report, active, name, sub, per[sub]);
    }
  }

  // ----- The whole report -----

  predicate AllGrouped(active: seq<Fixture>)
    requires AllActive(active)
  {
    forall f | f in active :: SubgroupOf(f).Some?
  }

  /** Every scored fixture has a subgroup, and the report's count is the manifest's. */
  predicate Accepted(report: Report, fixtures: seq<Fixture>) {
    var active := Scored(fixtures, report.role_filter);
    AllGrouped(active) && report.fixtures_scored == |active|
  }

  /** The first scored fixture without a subgroup. */
  method FirstUngrouped(active: seq<Fixture>) returns (found: Option<Fixture>)
    requires AllActive(active)
    ensures found.None? <==> AllGrouped(active)
    ensures found.Some? ==> IsFirstUngrouped(active, found.value)
  {
    for i := 0 to |active|
      invariant AllGrouped(active[..i])
    {
      assert active[..i + 1] == active[..i] + [active[i]];
      if SubgroupOf(active[i]).None? {
        return Some(active[i]);
      }
    }
    assert active[..|active|] == active;
    found := None;
  }

  ghost predicate IsFirstUngrouped(active: seq<Fixture>, f: Fixture)
    requires AllActive(active)
  {
    exists i | 0 <= i < |active| :: active[i] == f && SubgroupOf(f).None? && AllGrouped(active[..i])
  }

  /** `aggregate`. A report is accepted exactly when every scored fixture has a subgroup and the report's
      count is the manifest's; then every engine is aggregated, and nothing else. The first fixture
      without a subgroup is named before the count is looked at. */
  method Aggregate(report: Report, fixtures: seq<Fixture>)
    returns (r: Result<map<string, EngineAggregates>, AggregateError>)
    ensures var active := Scored(fixtures, report.role_filter);
      && (r.Ok? <==> Accepted(report, fixtures))
      && (r.Ok? ==>
            && (forall name :: name in r.value <==> name in Engines(report))
            && (forall name | name in r.value ::
                  && AggregatesEngine(report, active, name, r.value[name])
                  && EveryNumberCounts(report, active, name, r.value[name])))
      && (r.Err? && r.error.HasNoSubgroup? ==> IsFirstUngrouped(active, r.error.fixture))
      && (r.Err? && r.error.ScoredCountDiffers? ==>
            AllGrouped(active) && r.error == ScoredCountDiffers(report.fixtures_scored, |active|))
  {
    var active := Scored(fixtures, report.role_filter);
    var ungrouped := FirstUngrouped(active);
    if ungrouped.Some? {
      return Err(HasNoSubgroup(ungrouped.value));
    }
    if report.fixtures_scored != |active| {
      return Err(ScoredCountDiffers(report.fixtures_scored, |active|));
    }
    var names := Engines(report);
    var all: map<string, EngineAggregates> := map[];
    for i := 0 to |names|
      invariant forall name :: name in all <==> name in names[..i]
      invariant forall name | name in all ::
        AggregatesEngine(report, active, name, all[name]) && EveryNumberCounts(report, active, name, all[name])
    {
      assert names[..i + 1] == names[..i] + [names[i]];
      if names[i] !in all {
        var per := AggregateEngine(report, active, names[i]);
        all := all[names[i] := per];
      }
    }
    assert names[..|names|] == names;
    r := Ok(all);
  }

  // ----- Nothing vanishes -----

  lemma CountCons(f: Fixture, rest: seq<Fixture>, g: Fixture)
    ensures multiset([f] + rest)[g] == multiset(rest)[g] + (if f == g then 1 else 0)
    ensures g in rest || multiset(rest)[g] == 0
  {
    assert g in multiset(rest) <==> g in rest;
  }

  lemma {:induction false} MemberCount(active: seq<Fixture>, sub: Subgroup, f: Fixture)
    requires AllActive(active)
    ensures multiset(Members(active, sub))[f] ==
      if f in active && SubgroupOf(f) == Some(sub) then multiset(active)[f] else 0
  {
    if active != [] {
      var (first, rest) := (active[0], active[1..]);
      assert active == [first] + rest;
      MemberCount(rest, sub, f);
      MembersCons(first, rest, sub, f);
    }
  }

  lemma MembersCons(first: Fixture, rest: seq<Fixture>, sub: Subgroup, f: Fixture)
    requires first.ActiveFixture? && AllActive(rest)
    requires multiset(Members(rest, sub))[f] == if f in rest && SubgroupOf(f) == Some(sub) then multiset(rest)[f] else 0
    ensures multiset(Members([first] + rest, sub))[f] ==
      if f in [first] + rest && SubgroupOf(f) == Some(sub) then multiset([first] + rest)[f] else 0
  {
    var members := Members(rest, sub);
    assert ([first] + rest)[1..] == rest;
    CountCons(first, rest, f);
    if SubgroupOf(first) == Some(sub) {
      assert Members([first] + rest, sub) == [first] + members;
      CountCons(first, members, f);
    } else {
      assert Members([first] + rest, sub) == [] + members == members;
    }
  }

  /** A scored fixture is scored as often as the manifest lists it, and no other is scored. */
  lemma {:induction false} ScoredCount(fixtures: seq<Fixture>, role: Role, f: Fixture)
    ensures multiset(Scored(fixtures, role))[f] ==
      if f.ActiveFixture? && f.role == role then multiset(fixtures)[f] else 0
  {
    if fixtures != [] {
      var (first, rest) := (fixtures[0], fixtures[1..]);
      assert fixtures == [first] + rest;
      ScoredCount(rest, role, f);
      CountCons(first, rest, f);
      if first.ActiveFixture? && first.role == role {
        assert Scored(fixtures, role) == [first] + Scored(rest, role);
        CountCons(first, Scored(rest, role), f);
      } else {
        assert Scored(fixtures, role) == [] + Scored(rest, role) == Scored(rest, role);
      }
    }
  }

  /** Which fixtures the three subgroups hold, by media and the ending of the id alone. */
  lemma SubgroupBySuffix(f: Fixture)
    requires f.ActiveFixture?
    ensures SubgroupOf(f) == Some(PngPages) <==> f.media == Png
    ensures SubgroupOf(f) == Some(PdfLayer) <==> f.media == Pdf && exists stem: string :: f.id == stem + "-pdf-layer"
    ensures SubgroupOf(f) == Some(PdfScan) <==> f.media == Pdf && exists stem: string :: f.id == stem + "-pdf-scan"
  {
    EndsWithStem(f.id, LAYER_SUFFIX);
    EndsWithStem(f.id, SCAN_SUFFIX);
    EndsAlike(f.id, LAYER_SUFFIX);
    EndsAlike(f.id, SCAN_SUFFIX);
  }

  lemma EndsAlike(s: string, suffix: string)
    requires suffix != ""
    ensures EndsWith(s, suffix) ==> s != "" && s[|s| - 1] == suffix[|suffix| - 1]
  {
    if EndsWith(s, suffix) {
      assert s[|s| - |suffix|..][|suffix| - 1] == s[|s| - 1];
    }
  }

  lemma EndsWithStem(s: string, suffix: string)
    ensures EndsWith(s, suffix) <==> exists stem: string :: s == stem + suffix
  {
    if EndsWith(s, suffix) {
      assert s == s[..|s| - |suffix|] + suffix;
    }
    forall stem: string | s == stem + suffix
      ensures EndsWith(s, suffix)
    {
      assert s[|s| - |suffix|..] == suffix;
    }
  }

  /** The members of all three subgroups. */
  function AllMembers(active: seq<Fixture>): multiset<Fixture>
    requires AllActive(active)
  {
    multiset(Members(active, PngPages)) + multiset(Members(active, PdfLayer)) + multiset(Members(active, PdfScan))
  }

  lemma CountedOnce(active: seq<Fixture>, f: Fixture)
    requires AllActive(active) && AllGrouped(active)
    ensures AllMembers(active)[f] == multiset(active)[f]
  {
    MemberCount(active, PngPages, f);
    MemberCount(active, PdfLayer, f);
    MemberCount(active, PdfScan, f);
    assert f in multiset(active) <==> f in active;
  }

  /** Every scored fixture falls into exactly one subgroup, as often as it is listed. */
  lemma MembersPartition(active: seq<Fixture>)
    requires AllActive(active) && AllGrouped(active)
    ensures AllMembers(active) == multiset(active)
    ensures |Members(active, PngPages)| + |Members(active, PdfLayer)| + |Members(active, PdfScan)| == |active|
  {
    forall f: Fixture
      ensures AllMembers(active)[f] == multiset(active)[f]
    {
      CountedOnce(active, f);
    }
    PartsAddUp(Members(active, PngPages), Members(active, PdfLayer), Members(active, PdfScan), active);
  }

  lemma PartsAddUp<T>(a: seq<T>, b: seq<T>, c: seq<T>, whole: seq<T>)
    requires multiset(a) + multiset(b) + multiset(c) == multiset(whole)
    ensures |a| + |b| + |c| == |whole|
  {
    assert |multiset(a) + multiset(b) + multiset(c)| == |a| + |b| + |c|;
    assert |multiset(whole)| == |whole|;
  }

  /** The fixtures an engine's aggregates account for. */
  function FixturesOf(per: EngineAggregates, sub: Subgroup): nat {
    if sub in per then per[sub].fixtures else 0
  }

  /** Whatever the engine: its three denominators add up to the fixtures scored. */
  lemma SubgroupsSumToScored(report: Report, fixtures: seq<Fixture>, name: string, per: EngineAggregates)
    requires Accepted(report, fixtures) && AggregatesEngine(report, Scored(fixtures, report.role_filter), name, per)
    ensures FixturesOf(per, PngPages) + FixturesOf(per, PdfLayer) + FixturesOf(per, PdfScan) == report.fixtures_scored
  {
    MembersPartition(Scored(fixtures, report.role_filter));
  }

  /** The engine's first observation of a member failed with the code that is an inherited key. */
  ghost predicate Poisoned(report: Report, active: seq<Fixture>, name: string, sub: Subgroup)
    requires AllActive(active)
  {
    exists f | f in Members(active, sub) ::
      FirstFor(ObservedBy(report.observations, name), f.id) == Some(Failure(INHERITED_KEY))
  }

  /** Only that code is tallied under that key. */
  lemma InheritedKeyMeans(observations: seq<Observation>, id: string)
    ensures TallyKey(observations, id) == Some(INHERITED_KEY) <==>
      FirstFor(observations, id) == Some(Failure(INHERITED_KEY))
  {
    ConstructorCodeBreaksTheTally();
    assert INHERITED_KEY != "not_run" && INHERITED_KEY != "unrecognised_code";
  }

  lemma PoisonedKeys(report: Report, active: seq<Fixture>, name: string, sub: Subgroup)
    requires AllActive(active)
    ensures Poisoned(report, active, name, sub) <==> Some(INHERITED_KEY) in KeysFor(report, active, name, sub)
  {
    var (members, observations) := (Members(active, sub), ObservedBy(report.observations, name));
    var keys := KeysFor(report, active, name, sub);
    forall i | 0 <= i < |members|
      ensures keys[i] == Some(INHERITED_KEY) <==> FirstFor(observations, members[i].id) == Some(Failure(INHERITED_KEY))
    {
      InheritedKeyMeans(observations, members[i].id);
    }
    if f :| f in members && FirstFor(observations, f.id) == Some(Failure(INHERITED_KEY)) {
      var i :| 0 <= i < |members| && members[i] == f;
      assert keys[i] in keys;
    }
  }

  /** `rate` is the share of `n` in `d`. */
  predicate IsRate(rate: real, n: nat, d: nat) {
    rate * d as real == n as real && 0.0 <= rate <= 1.0
  }

  lemma ShareIsRate(n: nat, d: nat)
    requires n <= d && d > 0
    ensures IsRate(Share(n, d), n, d)
  {
  }

  lemma SuccessesAmongKeys(keys: seq<Option<string>>)
    ensures multiset(keys)[None] <= |keys|
  {
    var (all, others) := (multiset(keys), multiset(keys)[None := 0]);
    assert all == others[None := all[None]];
    assert |all| == |keys|;
  }

  /** For every engine and subgroup: successes and failures account for every member exactly when the
      tally holds numbers only, which is exactly when no member first failed with that code. */
  lemma AggregateConserves(report: Report, active: seq<Fixture>, name: string, sub: Subgroup, a: SubgroupAggregate)
    requires AllActive(active) && IsAggregate(report, active, name, sub, a)
    ensures AllCounts(a.failures) <==> !Poisoned(report, active, name, sub)
    ensures AllCounts(a.failures) ==> a.successes + Total(a.failures) == a.fixtures
    ensures a.fixtures == |Members(active, sub)| && IsRate(a.success_rate, a.successes, a.fixtures)
  {
    var keys := KeysFor(report, active, name, sub);
    assert |keys| == a.fixtures;
    PoisonedKeys(report, active, name, sub);
    TallyConserves(keys);
    SuccessesAmongKeys(keys);
    ShareIsRate(a.successes, a.fixtures);
  }

  /** Successes plus failures of one subgroup. */
  ghost function Accounted(per: EngineAggregates, sub: Subgroup): nat
    requires sub in per ==> AllCounts(per[sub].failures)
  {
    if sub in per then per[sub].successes + Total(per[sub].failures) else 0
  }

  /** An accepted report, one engine: the outcomes over all subgroups add up to the fixtures scored. */
  lemma ReportConserves(report: Report, fixtures: seq<Fixture>, name: string, per: EngineAggregates)
    requires Accepted(report, fixtures) && AggregatesEngine(report, Scored(fixtures, report.role_filter), name, per)
    requires forall sub: Subgroup :: !Poisoned(report, Scored(fixtures, report.role_filter), name, sub)
    ensures forall sub: Subgroup | sub in per :: AllCounts(per[sub].failures)
    ensures Accounted(per, PngPages) + Accounted(per, PdfLayer) + Accounted(per, PdfScan) == report.fixtures_scored
  {
    var active := Scored(fixtures, report.role_filter);
    forall sub: Subgroup | sub in per
      ensures AllCounts(per[sub].failures) && Accounted(per, sub) == FixturesOf(per, sub)
    {
      AggregateConserves(report, active, name, sub, per[sub]);
    }
    SubgroupsSumToScored(report, fixtures, name, per);
  }

  /** A PDF whose id has neither suffix is refused, however many fixtures are reported. */
  lemma UnnamedPdfIsRefused(report: Report, fixtures: seq<Fixture>, f: Fixture)
    requires f in fixtures && f.ActiveFixture? && f.role == report.role_filter && f.media == Pdf
    requires !EndsWith(f.id, LAYER_SUFFIX) && !EndsWith(f.id, SCAN_SUFFIX)
    ensures !Accepted(report, fixtures)
  {
    ScoredKeeps(fixtures, report.role_filter, f);
  }

  lemma {:induction false} ScoredKeeps(fixtures: seq<Fixture>, role: Role, f: Fixture)
    ensures f in Scored(fixtures, role) <==> f in fixtures && f.ActiveFixture? && f.role == role
  {
    if fixtures != [] {
      ScoredKeeps(fixtures[1..], role, f);
      assert fixtures == [fixtures[0]] + fixtures[1..];
    }
  }
}
