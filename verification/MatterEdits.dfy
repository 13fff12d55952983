/** The two editing loops of a matter (`services/case-box-persistence/src/inMemoryMatter.ts`): giving
    every party an id, and applying a patch of the descriptive fields. */
module MatterEdits {
  import opened Wrappers
  import opened CaseRecords
  import opened TextOrder

  // ----- Party ids -----

  const MAX_ATTEMPTS: nat := 1000

  predicate HasId(p: Party) {
    p.id.Some? && p.id.value != ""
  }

  function GivenIds(parties: seq<Party>): set<string> {
    set p | p in parties && HasId(p) :: p.id.value
  }

  predicate GivenDistinct(parties: seq<Party>) {
    forall i, j | 0 <= i < j < |parties| && HasId(parties[i]) && HasId(parties[j]) :: parties[i].id != parties[j].id
  }

  /** The first generated id that is not taken, within the attempts left. */
  function FirstFree(gen: nat -> string, n: nat, taken: set<string>, attempts: nat): (k: Option<nat>)
    ensures k.Some? ==> gen(k.value) !in taken
    decreases attempts
  {
    if gen(n) !in taken then Some(n)
    else if attempts == 0 then None
    else FirstFree(gen, n + 1, taken, attempts - 1)
  }

  function Assign(parties: seq<Party>, taken: set<string>, gen: nat -> string, n: nat): Result<seq<Party>, Error> {
    if parties == [] then Ok([])
    else if HasId(parties[0]) then
      var rest := Assign(parties[1..], taken, gen, n);
      if rest.Ok? then Ok([parties[0]] + rest.value) else rest
    else
      var k := FirstFree(gen, n, taken, MAX_ATTEMPTS);
      if k.None? then Err(InvalidArgument)
      else
        var rest := Assign(parties[1..], taken + {gen(k.value)}, gen, k.value + 1);
        if rest.Ok? then Ok([parties[0].(id := Some(gen(k.value)))] + rest.value) else rest
  }

  function AssignPartyIds(parties: seq<Party>, gen: nat -> string): Result<seq<Party>, Error> {
    if !GivenDistinct(parties) then Err(InvalidPayload) else Assign(parties, GivenIds(parties), gen, 0)
  }

  function Missing(parties: seq<Party>): nat {
    if parties == [] then 0 else Missing(parties[..|parties| - 1]) + (if HasId(parties[|parties| - 1]) then 0 else 1)
  }

  function Joined<T, E>(sofar: seq<T>, rest: Result<seq<T>, E>): Result<seq<T>, E> {
    if rest.Ok? then Ok(sofar + rest.value) else rest
  }

  /** Pass 1: the ids already given, unless two are the same. */
  method CollectGivenIds(parties: array<Party>) returns (seen: Option<set<string>>)
    ensures seen == if GivenDistinct(parties[..]) then Some(GivenIds(parties[..])) else None
  {
    var ids: set<string> := {};
    for i := 0 to parties.Length
      invariant ids == GivenIds(parties[..i]) && GivenDistinct(parties[..i])
    {
      assert parties[..i + 1] == parties[..i] + [parties[i]];
      if HasId(parties[i]) {
        if parties[i].id.value in ids {
          var p :| p in parties[..i] && HasId(p) && p.id.value == parties[i].id.value;
          assert !GivenDistinct(parties[..]);
          return None;
        }
        ids := ids + {parties[i].id.value};
      }
    }
    assert parties[..parties.Length] == parties[..];
    seen := Some(ids);
  }

  /** The bounded retry. */
  method GenerateFree(gen: nat -> string, start: nat, seen: set<string>) returns (k: Option<nat>)
    ensures k == FirstFree(gen, start, seen, MAX_ATTEMPTS)
  {
    var n, attempts := start, 0;
    while gen(n) in seen
      invariant attempts <= MAX_ATTEMPTS
      invariant FirstFree(gen, start, seen, MAX_ATTEMPTS) == FirstFree(gen, n, seen, MAX_ATTEMPTS - attempts)
      decreases MAX_ATTEMPTS - attempts
    {
      attempts := attempts + 1;
      if attempts > MAX_ATTEMPTS {
        return None;
      }
      n := n + 1;
    }
    k := Some(n);
  }

  lemma AssignStep(done: seq<Party>, p: Party, rest: seq<Party>, seen: set<string>, gen: nat -> string, n: nat)
    ensures HasId(p) ==>
      Joined(done, Assign([p] + rest, seen, gen, n)) == Joined(done + [p], Assign(rest, seen, gen, n))
    ensures !HasId(p) ==>
      var k := FirstFree(gen, n, seen, MAX_ATTEMPTS);
      Joined(done, Assign([p] + rest, seen, gen, n)) ==
        if k.None? then Err(InvalidArgument)
        else
          Joined(done + [p.(id := Some(gen(k.value)))], Assign(rest, seen + {gen(k.value)}, gen, k.value + 1))
  {
    assert ([p] + rest)[1..] == rest;
    var k := FirstFree(gen, n, seen, MAX_ATTEMPTS);
    if HasId(p) {
      StepJoined(done, p, Assign(rest, seen, gen, n));
    } else if k.Some? {
      StepJoined(done, p.(id := Some(gen(k.value))), Assign(rest, seen + {gen(k.value)}, gen, k.value + 1));
    }
  }

  lemma JoinedEnds<T, E>(r: Result<seq<T>, E>, s: seq<T>)
    ensures Joined([], r) == r && Joined<T, E>(s, Ok([])) == Ok(s)
  {
    if r.Ok? {
      assert [] + r.value == r.value;
    }
    assert s + [] == s;
  }

  /** After `i` parties of pass 2: `now` is what the array holds, `count` ids have been handed out. */
  ghost predicate PassTwo(was: seq<Party>, now: seq<Party>, i: nat, seen: set<string>, gen: nat -> string, n: nat, count: nat)
  {
    && i <= |was| == |now| && now[i..] == was[i..]
    && AssignPartyIds(was, gen) == Joined(now[..i], Assign(was[i..], seen, gen, n))
    && count == Missing(was[..i])
  }

  lemma PassTwoStarts(was: seq<Party>, gen: nat -> string)
    requires GivenDistinct(was)
    ensures PassTwo(was, was, 0, GivenIds(was), gen, 0, 0)
  {
    JoinedEnds(AssignPartyIds(was, gen), []);
    assert was[..0] == [] && was[0..] == was;
  }

  lemma PassTwoEnds(was: seq<Party>, now: seq<Party>, seen: set<string>, gen: nat -> string, n: nat, count: nat)
    requires PassTwo(was, now, |was|, seen, gen, n, count)
    ensures AssignPartyIds(was, gen) == Ok(now) && count == Missing(was)
  {
    assert was[|was|..] == [] && was[..|was|] == was && now[..|was|] == now;
    JoinedEnds(AssignPartyIds(was, gen), now);
  }

  lemma PassTwoStep(was: seq<Party>, now: seq<Party>, i: nat, seen: set<string>, gen: nat -> string, n: nat, count: nat)
    requires i < |was| && PassTwo(was, now, i, seen, gen, n, count)
    ensures now[i] == was[i]
    ensures HasId(was[i]) ==> PassTwo(was, now, i + 1, seen, gen, n, count)
    ensures !HasId(was[i]) ==>
      var k := FirstFree(gen, n, seen, MAX_ATTEMPTS);
      if k.None? then AssignPartyIds(was, gen) == Err(InvalidArgument)
      else
        var id := gen(k.value);
        PassTwo(was, now[i := was[i].(id := Some(id))], i + 1, seen + {id}, gen, k.value + 1, count + 1)
  {
    assert now[i..][0] == was[i..][0];
    assert was[i..] == [was[i]] + was[i + 1..];
    assert was[..i + 1][..i] == was[..i];
    AssignStep(now[..i], was[i], was[i + 1..], seen, gen, n);
    var k := FirstFree(gen, n, seen, MAX_ATTEMPTS);
    if HasId(was[i]) {
      assert now[..i + 1] == now[..i] + [was[i]];
      assert now[i + 1..] == now[i..][1..];
    } else if k.Some? {
      var q := was[i].(id := Some(gen(k.value)));
      assert now[i := q][..i + 1] == now[..i] + [q];
      assert now[i := q][i + 1..] == now[i..][1..];
    }
  }

  /** Both passes in place, on a copy of the parties. */
  method AssignMatterPartyIdsInPlace(parties: array<Party>, gen: nat -> string) returns (r: Result<nat, Error>)
    modifies parties
    ensures var outcome := AssignPartyIds(old(parties[..]), gen);
      if r.Ok? then outcome == Ok(parties[..]) && r.value == Missing(old(parties[..])) else outcome == Err(r.error)
  {
    ghost var was := parties[..];
    var given := CollectGivenIds(parties);
    if given.None? {
      return Err(InvalidPayload);
    }
    var seen, count, n := given.value, 0, 0;
    PassTwoStarts(was, gen);
    for i := 0 to parties.Length
      invariant PassTwo(was, parties[..], i, seen, gen, n, count)
    {
      PassTwoStep(was, parties[..], i, seen, gen, n, count);
      if !HasId(parties[i]) {
        var k := GenerateFree(gen, n, seen);
        if k.None? {
          return Err(InvalidArgument);
        }
        var id := gen(k.value);
        ghost var now := parties[..];
        parties[i] := parties[i].(id := Some(id));
        assert parties[..] == now[i := was[i].(id := Some(id))];
        seen, count, n := seen + {id}, count + 1, k.value + 1;
      }
    }
    PassTwoEnds(was, parties[..], seen, gen, n, count);
    r := Ok(count);
  }

  lemma StepJoined<T, E>(sofar: seq<T>, x: T, rest: Result<seq<T>, E>)
    ensures Joined(sofar, Joined([x], rest)) == Joined(sofar + [x], rest)
  {
    if rest.Ok? {
      assert sofar + ([x] + rest.value) == (sofar + [x]) + rest.value;
    }
  }

  /** Every party has an id of its own. */
  predicate PartiesOk(parties: seq<Party>) {
    (forall p | p in parties :: HasId(p)) && GivenDistinct(parties)
  }

  /** Parties that had an id are left as they were, the others have nothing new but an id outside `taken`,
      and all ids are distinct. */
  ghost predicate Gives(parties: seq<Party>, taken: set<string>, r: seq<Party>) {
    && |r| == |parties| && PartiesOk(r)
    && forall i | 0 <= i < |r| ::
      if HasId(parties[i]) then r[i] == parties[i]
      else r[i] == parties[i].(id := r[i].id) && r[i].id.Some? && r[i].id.value !in taken
  }

  lemma GivesOneMore(p: Party, q: Party, rest: seq<Party>, taken: set<string>, seen: set<string>, r: seq<Party>)
    requires Gives(rest, seen, r) && taken <= seen && HasId(q) && q.id.value in seen
    requires if HasId(p) then q == p else q == p.(id := q.id) && q.id.value !in taken
    requires q.id.value !in GivenIds(rest)
    ensures Gives([p] + rest, taken, [q] + r)
  {
    forall i | 0 <= i < |r|
      ensures HasId(r[i]) && r[i].id != q.id
    {
      assert r[i] in r;
      if HasId(rest[i]) {
        assert rest[i] in rest && rest[i].id.value in GivenIds(rest);
      }
    }
    var (parties, all) := ([p] + rest, [q] + r);
    assert PartiesOk(all);
    forall i | 0 <= i < |all|
      ensures if HasId(parties[i]) then all[i] == parties[i]
        else all[i] == parties[i].(id := all[i].id) && all[i].id.Some? && all[i].id.value !in taken
    {
      if i > 0 {
        assert parties[i] == rest[i - 1] && all[i] == r[i - 1];
      }
    }
  }

  lemma GivenIdsCons(p: Party, rest: seq<Party>)
    requires GivenDistinct([p] + rest)
    ensures GivenDistinct(rest) && GivenIds(rest) <= GivenIds([p] + rest)
    ensures HasId(p) ==> p.id.value in GivenIds([p] + rest) && p.id.value !in GivenIds(rest)
  {
    var all := [p] + rest;
    assert p in all;
    forall i, j | 0 <= i < j < |rest| && HasId(rest[i]) && HasId(rest[j])
      ensures rest[i].id != rest[j].id
    {
      assert all[i + 1] == rest[i] && all[j + 1] == rest[j];
    }
    forall q | q in rest
      ensures q in all && (HasId(p) && HasId(q) ==> q.id != p.id)
    {
      var j :| 0 <= j < |rest| && rest[j] == q;
      assert all[0] == p && all[j + 1] == q;
    }
  }

  lemma {:induction false} AssignGivesIds(parties: seq<Party>, taken: set<string>, gen: nat -> string, n: nat)
    requires GivenDistinct(parties) && GivenIds(parties) <= taken && forall k: nat :: gen(k) != ""
    requires Assign(parties, taken, gen, n).Ok?
    ensures Gives(parties, taken, Assign(parties, taken, gen, n).value)
  {
    if parties != [] {
      var (p, rest) := (parties[0], parties[1..]);
      assert parties == [p] + rest;
      GivenIdsCons(p, rest);
      if HasId(p) {
        AssignGivesIds(rest, taken, gen, n);
        GivesOneMore(p, p, rest, taken, taken, Assign(rest, taken, gen, n).value);
      } else {
        var k := FirstFree(gen, n, taken, MAX_ATTEMPTS).value;
        var (id, seen) := (gen(k), taken + {gen(k)});
        AssignGivesIds(rest, seen, gen, k + 1);
        GivesOneMore(p, p.(id := Some(id)), rest, taken, seen, Assign(rest, seen, gen, k + 1).value);
      }
    }
  }

  /** Every created matter has a distinct, non-empty id for each party, and nothing else about a party has
      changed. */
  lemma AssignedPartiesOk(parties: seq<Party>, gen: nat -> string)
    requires AssignPartyIds(parties, gen).Ok? && forall k: nat :: gen(k) != ""
    ensures PartiesOk(AssignPartyIds(parties, gen).value)
    ensures Gives(parties, GivenIds(parties), AssignPartyIds(parties, gen).value)
  {
    AssignGivesIds(parties, GivenIds(parties), gen, 0);
  }

  /** Where every party has its own id already there is nothing to assign. */
  lemma {:induction false} NothingToAssign(parties: seq<Party>, taken: set<string>, gen: nat -> string, n: nat)
    requires forall p | p in parties :: HasId(p)
    ensures Assign(parties, taken, gen, n) == Ok(parties)
    ensures Missing(parties) == 0
  {
    if parties != [] {
      NothingToAssign(parties[1..], taken, gen, n);
      assert parties == [parties[0]] + parties[1..];
      NoneMissing(parties);
    }
  }

  lemma {:induction false} NoneMissing(parties: seq<Party>)
    requires forall p | p in parties :: HasId(p)
    ensures Missing(parties) == 0
  {
    if parties != [] {
      NoneMissing(parties[..|parties| - 1]);
    }
  }

  // ----- Descriptive fields -----

  /** What a patch may say about a field: nothing, clear it, set it, or something that is no text. */
  datatype PatchValue = Unset | ClearIt | Text(text: string) | NotText

  type Patch = map<string, PatchValue>

  predicate Editable(key: string) {
    exists f | f in EDITABLE_FIELDS :: FieldName(f) == key
  }

  function CurrentText(m: Matter, f: DetailField): string {
    if f in m.texts then m.texts[f] else ""
  }

  /** The text a patch asks for, trimmed before it is compared. */
  function Desired(rules: CaseRules, patch: Patch, f: DetailField): Result<Option<string>, Error> {
    var key := FieldName(f);
    if key !in patch || patch[key].Unset? then Ok(None)
    else if patch[key].NotText? then Err(InvalidPayload)
    else
      var text := if patch[key].ClearIt? then "" else rules.trim(patch[key].text);
      if f == Name && text == "" then Err(InvalidPayload) else Ok(Some(text))
  }

  datatype Edit = Edit(next: Matter, changed: seq<DetailField>)

  function EditField(rules: CaseRules, m: Matter, patch: Patch, f: DetailField, sofar: Edit): Result<Edit, Error> {
    var desired := Desired(rules, patch, f);
    if desired.Err? then Err(desired.error)
    else if desired.value.None? || desired.value.value == CurrentText(m, f) then Ok(sofar)
    else Ok(Edit(sofar.next.(texts := sofar.next.texts[f := desired.value.value]), sofar.changed + [f]))
  }

  function EditFields(rules: CaseRules, m: Matter, patch: Patch, fields: seq<DetailField>, sofar: Edit): Result<Edit, Error> {
    if fields == [] then Ok(sofar)
    else
      var one := EditField(rules, m, patch, fields[0], sofar);
      if one.Err? then one else EditFields(rules, m, patch, fields[1..], one.value)
  }

  /** The change detection loop of `prepareMatterDetailsUpdate`. */
  method DetectChanges(rules: CaseRules, m: Matter, patch: Patch) returns (r: Result<Edit, Error>)
    ensures r == EditFields(rules, m, patch, EDITABLE_FIELDS, Edit(m, []))
  {
    var sofar := Edit(m, []);
    for i := 0 to |EDITABLE_FIELDS|
      invariant EditFields(rules, m, patch, EDITABLE_FIELDS, Edit(m, [])) ==
        EditFields(rules, m, patch, EDITABLE_FIELDS[i..], sofar)
    {
      assert EDITABLE_FIELDS[i..][1..] == EDITABLE_FIELDS[i + 1..];
      var one := EditField(rules, m, patch, EDITABLE_FIELDS[i], sofar);
      if one.Err? {
        return one;
      }
      sofar := one.value;
    }
    r := Ok(sofar);
  }

  /** The fields of `changed` are exactly those whose text the edit altered, and nothing else about the
      matter is different. */
  ghost predicate EditIs(m: Matter, fields: seq<DetailField>, e: Edit) {
    && e.next == m.(texts := e.next.texts)
    && (forall f | f in fields :: f in e.changed <==> CurrentText(e.next, f) != CurrentText(m, f))
    && (forall f: DetailField | f !in fields :: f !in e.changed && CurrentText(e.next, f) == CurrentText(m, f))
  }

  lemma EditFieldMeaning(rules: CaseRules, m: Matter, patch: Patch, done: seq<DetailField>, f: DetailField, sofar: Edit)
    requires EditIs(m, done, sofar) && f !in done && EditField(rules, m, patch, f, sofar).Ok?
    ensures EditIs(m, done + [f], EditField(rules, m, patch, f, sofar).value)
  {
  }

  lemma {:induction false} EditFieldsMeaning(
    rules: CaseRules, m: Matter, patch: Patch, done: seq<DetailField>, fields: seq<DetailField>, sofar: Edit)
    requires EditIs(m, done, sofar) && EditFields(rules, m, patch, fields, sofar).Ok?
    requires forall f | f in fields :: f !in done
    requires forall i, j | 0 <= i < j < |fields| :: fields[i] != fields[j]
    ensures EditIs(m, done + fields, EditFields(rules, m, patch, fields, sofar).value)
    decreases |fields|
  {
    if fields == [] {
      assert done + fields == done;
    } else {
      var f := fields[0];
      var one := EditField(rules, m, patch, f, sofar).value;
      assert f in fields;
      EditFieldMeaning(rules, m, patch, done, f, sofar);
      assert done + fields == (done + [f]) + fields[1..];
      EditFieldsMeaning(rules, m, patch, done + [f], fields[1..], one);
    }
  }

  /** An accepted edit reports exactly the descriptive fields whose text it changed. */
  lemma EditReportsChanges(rules: CaseRules, m: Matter, patch: Patch)
    requires EditFields(rules, m, patch, EDITABLE_FIELDS, Edit(m, [])).Ok?
    ensures EditIs(m, EDITABLE_FIELDS, EditFields(rules, m, patch, EDITABLE_FIELDS, Edit(m, [])).value)
  {
    EditFieldsMeaning(rules, m, patch, [], EDITABLE_FIELDS, Edit(m, []));
    assert [] + EDITABLE_FIELDS == EDITABLE_FIELDS;
  }

  /** The text a patch leaves in a field: the text given without its surrounding blanks, nothing if the field
      is cleared, and what was there if the patch says nothing of it. */
  function Wanted(rules: CaseRules, m: Matter, patch: Patch, f: DetailField): string {
    var key := FieldName(f);
    if key !in patch then CurrentText(m, f)
    else
      match patch[key]
      case Text(text) => rules.trim(text)
      case ClearIt => ""
      case _ => CurrentText(m, f)
  }

  /** The fields whose text the patch changes. */
  predicate Alters(rules: CaseRules, m: Matter, patch: Patch, f: DetailField) {
    Wanted(rules, m, patch, f) != CurrentText(m, f)
  }

  /** Whatever is asked of this field is a text, and the name is not blanked. */
  predicate PatchesWell(rules: CaseRules, patch: Patch, f: DetailField) {
    var key := FieldName(f);
    key in patch ==>
      && !patch[key].NotText?
      && (f == Name ==> !patch[key].ClearIt? && (patch[key].Text? ==> rules.trim(patch[key].text) != ""))
  }

  ghost predicate AllPatchedWell(rules: CaseRules, patch: Patch) {
    forall f: DetailField :: PatchesWell(rules, patch, f)
  }

  /** After these fields: the altered ones hold the text wanted, and no field else has changed. */
  ghost predicate Rewritten(rules: CaseRules, m: Matter, patch: Patch, fields: seq<DetailField>, e: Edit) {
    && e.next == m.(texts := e.next.texts)
    && (forall f: DetailField :: f in e.changed <==> f in fields && Alters(rules, m, patch, f))
    && (forall f: DetailField :: f in e.next.texts <==> f in m.texts || f in e.changed)
    && (forall f | f in e.next.texts ::
          e.next.texts[f] == if f in e.changed then Wanted(rules, m, patch, f) else CurrentText(m, f))
  }

  lemma DesiredIsWanted(rules: CaseRules, m: Matter, patch: Patch, f: DetailField)
    ensures var desired := Desired(rules, patch, f);
      && (desired.Ok? <==> PatchesWell(rules, patch, f))
      && (desired.Ok? ==> Wanted(rules, m, patch, f) == if desired.value.Some? then desired.value.value else CurrentText(m, f))
  {
  }

  /** One field edited. */
  lemma FieldEdited(rules: CaseRules, m: Matter, patch: Patch, f: DetailField, sofar: Edit)
    ensures var one := EditField(rules, m, patch, f, sofar);
      && (one.Ok? <==> PatchesWell(rules, patch, f))
      && (one.Ok? ==>
            one.value ==
              if Alters(rules, m, patch, f) then
                Edit(sofar.next.(texts := sofar.next.texts[f := Wanted(rules, m, patch, f)]), sofar.changed + [f])
              else sofar)
  {
    DesiredIsWanted(rules, m, patch, f);
  }

  lemma FieldRewritten(rules: CaseRules, m: Matter, patch: Patch, done: seq<DetailField>, f: DetailField, sofar: Edit)
    requires Rewritten(rules, m, patch, done, sofar)
    ensures var one := EditField(rules, m, patch, f, sofar);
      && (one.Ok? <==> PatchesWell(rules, patch, f))
      && (one.Ok? ==> Rewritten(rules, m, patch, done + [f], one.value))
  {
    FieldEdited(rules, m, patch, f, sofar);
  }

  lemma {:induction false} FieldsRewritten(
    rules: CaseRules, m: Matter, patch: Patch, done: seq<DetailField>, fields: seq<DetailField>, sofar: Edit)
    requires Rewritten(rules, m, patch, done, sofar)
    ensures var r := EditFields(rules, m, patch, fields, sofar);
      && (r.Ok? <==> forall f | f in fields :: PatchesWell(rules, patch, f))
      && (r.Ok? ==> Rewritten(rules, m, patch, done + fields, r.value))
    decreases |fields|
  {
    if fields == [] {
      assert done + fields == done;
    } else {
      var (f, rest) := (fields[0], fields[1..]);
      assert fields == [f] + rest;
      FieldRewritten(rules, m, patch, done, f, sofar);
      var one := EditField(rules, m, patch, f, sofar);
      if one.Ok? {
        assert done + fields == (done + [f]) + rest;
        FieldsRewritten(rules, m, patch, done + [f], rest, one.value);
      }
    }
  }

  /** The matter with the texts a patch wants; a field that stays without text is not stored. */
  function Corrected(rules: CaseRules, m: Matter, patch: Patch): Matter {
    m.(texts := map f: DetailField | f in m.texts || Alters(rules, m, patch, f) :: Wanted(rules, m, patch, f))
  }

  lemma IsEditable(f: DetailField)
    ensures f in EDITABLE_FIELDS
  {
    match f
    case Name => assert EDITABLE_FIELDS[0] == f;
    case RetainerScope => assert EDITABLE_FIELDS[1] == f;
    case CaseTypeText => assert EDITABLE_FIELDS[2] == f;
    case CaseProgressText => assert EDITABLE_FIELDS[3] == f;
    case CourtContactText => assert EDITABLE_FIELDS[4] == f;
    case ContentionSummaryText => assert EDITABLE_FIELDS[5] == f;
  }

  lemma RewrittenIsCorrected(rules: CaseRules, m: Matter, patch: Patch, e: Edit)
    requires e.next == m.(texts := e.next.texts)
    requires forall f: DetailField :: f in e.changed <==> Alters(rules, m, patch, f)
    requires forall f: DetailField :: f in e.next.texts <==> f in m.texts || f in e.changed
    requires forall f | f in e.next.texts ::
      e.next.texts[f] == if f in e.changed then Wanted(rules, m, patch, f) else CurrentText(m, f)
    ensures e.next == Corrected(rules, m, patch)
  {
    assert e.next.texts == Corrected(rules, m, patch).texts;
  }

  /** The edit succeeds exactly when every field is patched well, and then it stores the texts wanted. */
  lemma EditCorrects(rules: CaseRules, m: Matter, patch: Patch)
    ensures var r := EditFields(rules, m, patch, EDITABLE_FIELDS, Edit(m, []));
      && (r.Ok? <==> AllPatchedWell(rules, patch))
      && (r.Ok? ==>
            && r.value.next == Corrected(rules, m, patch)
            && forall f: DetailField :: f in r.value.changed <==> Alters(rules, m, patch, f))
  {
    FieldsRewritten(rules, m, patch, [], EDITABLE_FIELDS, Edit(m, []));
    assert [] + EDITABLE_FIELDS == EDITABLE_FIELDS;
    var r := EditFields(rules, m, patch, EDITABLE_FIELDS, Edit(m, []));
    forall f: DetailField
      ensures f in EDITABLE_FIELDS
    {
      IsEditable(f);
    }
    if r.Ok? {
      RewrittenIsCorrected(rules, m, patch, r.value);
    }
  }

  /** The only complaint about the fields themselves is a bad payload. */
  lemma {:induction false} EditFieldsRefuse(rules: CaseRules, m: Matter, patch: Patch, fields: seq<DetailField>, sofar: Edit)
    ensures var r := EditFields(rules, m, patch, fields, sofar);
      r.Err? ==> r.error == InvalidPayload
  {
    if fields != [] {
      var one := EditField(rules, m, patch, fields[0], sofar);
      if one.Ok? {
        EditFieldsRefuse(rules, m, patch, fields[1..], one.value);
      }
    }
  }

  /** The editable field names in ascending order. */
  const SORTED_FIELDS: seq<DetailField> :=
    [CaseProgressText, CaseTypeText, ContentionSummaryText, CourtContactText, Name, RetainerScope]

  function SortedNames(changed: seq<DetailField>, fields: seq<DetailField>): seq<string> {
    if fields == [] then []
    else (if fields[0] in changed then [FieldName(fields[0])] else []) + SortedNames(changed, fields[1..])
  }

  // ----- The list of changed fields -----

  predicate NamedBefore(f: DetailField, g: DetailField) {
    LexLess(Units(FieldName(f)), Units(FieldName(g)))
  }

  /** The place of a field in that order. */
  function NamePlace(f: DetailField): nat {
    match f
    case CaseProgressText => 0
    case CaseTypeText => 1
    case ContentionSummaryText => 2
    case CourtContactText => 3
    case Name => 4
    case RetainerScope => 5
  }

  lemma NextName(f: DetailField, g: DetailField)
    requires NamePlace(g) == NamePlace(f) + 1
    ensures NamedBefore(f, g)
  {
    var k := match f case CaseProgressText => 5 case CaseTypeText => 1 case ContentionSummaryText => 2 case _ => 0;
    FirstDifference(FieldName(f), FieldName(g), k);
  }

  lemma {:induction false} PlacedIsNamedBefore(f: DetailField, g: DetailField)
    requires NamePlace(f) < NamePlace(g)
    ensures NamedBefore(f, g)
    decreases NamePlace(g)
  {
    if NamePlace(g) == NamePlace(f) + 1 {
      NextName(f, g);
    } else {
      var h :| NamePlace(h) == NamePlace(g) - 1;
      PlacedIsNamedBefore(f, h);
      NextName(h, g);
      LexTransitive(Units(FieldName(f)), Units(FieldName(h)), Units(FieldName(g)));
    }
  }

  predicate IsNameOf(name: string, changed: seq<DetailField>, fields: seq<DetailField>) {
    exists f | f in fields && f in changed :: FieldName(f) == name
  }

  predicate Ascending(names: seq<string>) {
    forall i, j | 0 <= i < j < |names| :: LexLess(Units(names[i]), Units(names[j]))
  }

  lemma {:induction false} NamesAscend(changed: seq<DetailField>, fields: seq<DetailField>, first: nat)
    requires forall i | 0 <= i < |fields| :: NamePlace(fields[i]) == first + i
    ensures var names := SortedNames(changed, fields);
      Ascending(names) && forall name :: name in names <==> IsNameOf(name, changed, fields)
  {
    if fields != [] {
      var (f, rest) := (fields[0], fields[1..]);
      var names := SortedNames(changed, rest);
      assert fields == [f] + rest;
      NamesAscend(changed, rest, first + 1);
      forall name | name in names
        ensures LexLess(Units(FieldName(f)), Units(name))
      {
        var g :| g in rest && g in changed && FieldName(g) == name;
        PlacedIsNamedBefore(f, g);
      }
      forall name: string
        ensures IsNameOf(name, changed, fields) <==> IsNameOf(name, changed, rest) || (f in changed && name == FieldName(f))
      {
      }
    }
  }

  /** The names recorded of an edit: those of the changed fields, each once, in ascending order. */
  lemma ChangedNamesInOrder(changed: seq<DetailField>)
    ensures var names := SortedNames(changed, SORTED_FIELDS);
      Ascending(names) && forall name :: name in names <==> IsNameOf(name, changed, SORTED_FIELDS)
  {
    NamesAscend(changed, SORTED_FIELDS, 0);
  }
}
