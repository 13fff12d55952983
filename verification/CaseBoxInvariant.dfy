/** What every public write of a case box keeps, over all runs: the ledger, the bijection between
    confirmed docket entries and deadlines, the supersession graph, the uniqueness of confirmed
    privilege markers, and the ids of parties. */
module CaseBoxInvariant {
  import opened Wrappers
  import opened AuditChain
  import opened CaseRecords
  import opened CaseTables
  import opened CaseBoxState
  import opened CaseBoxPlans
  import opened Supersession
  import opened MatterEdits

  // ----- Rules across records -----

  /** The deadline is the one the entry proposed, registered by the lawyer who confirmed it, and the
      entry named an exact moment. */
  predicate Mirrors(e: DocketEntry, d: Deadline) {
    && d.matter_id == e.matter_id && d.tenant_id == e.tenant_id
    && d.kind == e.proposal.kind && d.due_at == e.proposal.due_at && d.owner_user_id == e.proposal.owner_user_id
    && e.confirmation_actor_user_id == Some(d.actor_user_id)
    && e.proposal.due_at_kind == DateTime
  }

  /** Confirmed entries own the deadline they proposed; nothing else owns one. */
  ghost predicate Owned(entries: map<string, DocketEntry>, deadlines: map<string, Deadline>) {
    && (forall id | id in entries ::
          var e := entries[id];
          && (e.confirmation_state == ConfirmedEntry <==> e.confirmed_deadline_id.Some?)
          && (e.confirmed_deadline_id.Some? ==>
                var d := e.confirmed_deadline_id.value;
                d != "" && d in deadlines && Mirrors(e, deadlines[d])))
  }

  /** Distinct entries own distinct deadlines. */
  ghost predicate OwnersDistinct(entries: map<string, DocketEntry>) {
    forall i, j | i in entries && j in entries && entries[i].confirmed_deadline_id.Some?
      && entries[i].confirmed_deadline_id == entries[j].confirmed_deadline_id :: i == j
  }

  /** Every deadline has an owner. */
  ghost predicate NoOrphans(entries: map<string, DocketEntry>, deadlines: map<string, Deadline>) {
    forall d | d in deadlines :: exists id | id in entries :: entries[id].confirmed_deadline_id == Some(d)
  }

  ghost predicate DocketOk(b: Box) {
    Owned(b.entry_by_id, b.deadline_by_id) && OwnersDistinct(b.entry_by_id) && NoOrphans(b.entry_by_id, b.deadline_by_id)
  }

  /** Every pointer joins two accepted facts of one matter and tenant, and there is no way round. */
  ghost predicate SupersessionOk(facts: map<string, Fact>) {
    && Keyed(facts) && EdgesAtHome(facts) && Acyclic(facts)
    && forall id | id in facts && facts[id].supersedes_fact_id.Some? ::
      facts[id].status == Accepted && facts[facts[id].supersedes_fact_id.value].status == Accepted
  }

  /** Markers target a document of their own matter and tenant. */
  ghost predicate TargetsAtHome(b: Box) {
    forall id: string | MarkerAt(b, id).Some? ::
      var m := MarkerAt(b, id).value;
      && m.target_type == OnDocument && m.target_id in b.documents
      && b.documents[m.target_id].document.matter_id == m.matter_id
      && b.documents[m.target_id].document.tenant_id == m.tenant_id
  }

  /** At most one confirmed marker of a kind for a target. */
  ghost predicate MarkersUnique(b: Box) {
    forall i: string, j: string | MarkerAt(b, i).Some? && MarkerAt(b, j).Some? && i != j ::
      MarkerAt(b, i).value.status == ConfirmedMarker ==> !ConfirmedTwin(MarkerAt(b, j).value, MarkerAt(b, i).value)
  }

  ghost predicate AllPartiesOk(b: Box) {
    forall id | id in b.matters :: PartiesOk(b.matters[id].parties)
  }

  /** The rules across records, one by one. */
  datatype Concern = Docket | Supersessions | Targets | Uniqueness | PartyIds

  ghost predicate ConcernOk(b: Box, c: Concern) {
    match c
    case Docket => DocketOk(b)
    case Supersessions => SupersessionOk(b.fact_by_id)
    case Targets => TargetsAtHome(b)
    case Uniqueness => MarkersUnique(b)
    case PartyIds => AllPartiesOk(b)
  }

  ghost predicate RecordsOk(b: Box) {
    forall c: Concern :: ConcernOk(b, c)
  }

  lemma RecordsParts(b: Box)
    requires RecordsOk(b)
    ensures DocketOk(b) && SupersessionOk(b.fact_by_id) && TargetsAtHome(b) && MarkersUnique(b) && AllPartiesOk(b)
  {
    assert ConcernOk(b, Docket) && ConcernOk(b, Supersessions) && ConcernOk(b, Targets);
    assert ConcernOk(b, Uniqueness) && ConcernOk(b, PartyIds);
  }

  lemma RecordsFromParts(b: Box)
    requires DocketOk(b) && SupersessionOk(b.fact_by_id) && TargetsAtHome(b) && MarkersUnique(b) && AllPartiesOk(b)
    ensures RecordsOk(b)
  {
    forall c: Concern
      ensures ConcernOk(b, c)
    {
      match c
      case Docket => {}
      case Supersessions => {}
      case Targets => {}
      case Uniqueness => {}
      case PartyIds => {}
    }
  }

  ghost predicate BoxOk(rules: CaseRules, b: Box) {
    LedgerOk(rules, b) && RecordsOk(b)
  }

  // ----- Writes -----

  datatype Write =
    | CreateMatter(m: Matter, gen: nat -> string)
    | TransitionMatter(id: string, to: MatterStatus, actor: string, reason: string)
    | EnsurePartyIds(id: string, actor: string, gen: nat -> string)
    | UpdateDetails(id: string, patch: Patch, actor: string, reason: string)
    | RegisterDocument(id: string, d: Document)
    | AppendFact(f: Fact)
    | AppendFactOnce(f: Fact)
    | TransitionFact(id: string, fact_opts: FactOpts)
    | AppendEntry(e: DocketEntry)
    | ConfirmEntry(id: string, confirm_opts: ConfirmOpts)
    | DismissEntry(id: string, actor: string, at: string, reason: string)
    | EditEntry(edit_opts: EditOpts)
    | TransitionDeadline(id: string, deadline_to: DeadlineStatus, actor: string, at: string, why: Option<string>)
    | AppendMarker(marker: Marker)
    | TransitionMarker(id: string, marker_to: MarkerStatus, actor: string, at: string, why: Option<string>)

  function PlanOf(rules: CaseRules, b: Box, w: Write, stamp: Stamp): Plan {
    match w
    case CreateMatter(m, gen) => PlanCreateMatter(rules, b, m, gen, stamp)
    case TransitionMatter(id, to, actor, reason) => PlanMatterTransition(rules, b, id, to, actor, reason, stamp)
    case EnsurePartyIds(id, actor, gen) => PlanEnsurePartyIds(rules, b, id, actor, gen, stamp)
    case UpdateDetails(id, patch, actor, reason) => PlanUpdateDetails(rules, b, id, patch, actor, reason, stamp)
    case RegisterDocument(id, d) => PlanRegisterDocument(rules, b, id, d, stamp)
    case AppendFact(f) => PlanAppendFact(rules, b, f, stamp)
    case AppendFactOnce(f) => PlanAppendFactOnce(rules, b, f, stamp)
    case TransitionFact(id, opts) => PlanTransitionFact(rules, b, id, opts, stamp)
    case AppendEntry(e) => PlanAppendEntry(rules, b, e, stamp)
    case ConfirmEntry(id, opts) => PlanConfirmEntry(rules, b, id, opts, stamp)
    case DismissEntry(id, actor, at, reason) => PlanDismissEntry(rules, b, id, actor, at, reason, stamp)
    case EditEntry(opts) => PlanEditEntry(rules, b, opts, stamp)
    case TransitionDeadline(id, to, actor, at, why) => PlanTransitionDeadline(rules, b, id, to, actor, at, why, stamp)
    case AppendMarker(m) => PlanAppendMarker(rules, b, m, stamp)
    case TransitionMarker(id, to, actor, at, why) => PlanTransitionMarker(rules, b, id, to, actor, at, why, stamp)
  }

  function Committed(rules: CaseRules, b: Box, steps: seq<Step>): Box
    decreases |steps|
  {
    if steps == [] then b else Committed(rules, Applied(rules, b, steps[0]), steps[1..])
  }

  /** A new matter starts a chain of its own. */
  function Created(rules: CaseRules, b: Box, s: Step): Box {
    var m := HomeOf(s.x);
    Put(b, s.x).(
      log := AppendedAll(rules.audit, Log(b.log.events[m := []], b.log.heads - {m}), m, [s.e]))
  }

  /** The state after a write: unchanged unless the plan is complete. */
  function After(rules: CaseRules, b: Box, w: Write, stamp: Stamp): Box {
    var plan := PlanOf(rules, b, w, stamp);
    if plan.Err? then b
    else if w.CreateMatter? then Created(rules, b, plan.value[0])
    else Committed(rules, b, plan.value)
  }

  // ----- Planned steps fit the ledger -----

  /** The chain of the matter has begun, in the matter and its tenant. */
  predicate Begun(b: Box, m: string)
    requires m in b.matters
  {
    var es := Chain(b, m);
    es != [] && es[0].matter_id == m && es[0].tenant_id == b.matters[m].tenant_id
  }

  lemma BegunHere(rules: CaseRules, b: Box, m: string)
    requires LedgerOk(rules, b) && m in b.matters
    ensures Begun(b, m)
  {
    MatterIn(rules, b, m);
  }

  lemma PlannedStep(
    rules: CaseRules, b: Box, kind: Kind, x: Entity, actor: string, before: Option<string>, stamp: Stamp,
    reason: Option<string>)
    requires HomeOf(x) in b.matters && Begun(b, HomeOf(x)) && TenantOf(x) == b.matters[HomeOf(x)].tenant_id
    requires MetaOf(kind).entity_type == KeyOf(x).entity_type && Fits(b, x)
    requires var prior := Lookup(b, KeyOf(x));
      && (x.AMatter? ==> prior.Some?)
      && if MetaOf(kind).action == Create then before.None? && (prior.None? || kind == FactReplacementAccepted)
         else prior.Some? && before == Some(rules.state_hash(prior.value))
    ensures var plan := PlanOne(rules, b, kind, x, actor, before, stamp, reason);
      plan.Ok? ==> |plan.value| == 1 && plan.value[0].x == x && StepOk(rules, b, plan.value[0])
  {
  }

  lemma ChainOf(rules: CaseRules, b: Box, m: string)
    requires LedgerOk(rules, b) && m in b.matters
    ensures ChainOk(rules, b, m) && InStep(rules, b, m) && Begun(b, m)
  {
    MatterIn(rules, b, m);
  }

  /** An update of a record on file that stays in its matter. */
  lemma PlannedUpdate(
    rules: CaseRules, b: Box, kind: Kind, prior: Entity, next: Entity, actor: string, stamp: Stamp, reason: Option<string>)
    requires Lookup(b, KeyOf(next)) == Some(prior)
    requires HomeOf(next) in b.matters && Begun(b, HomeOf(next))
    requires TenantOf(next) == b.matters[HomeOf(next)].tenant_id
    requires HomeOf(next) == HomeOf(prior)
    requires MetaOf(kind).entity_type == KeyOf(next).entity_type && MetaOf(kind).action != Create
    ensures var plan := PlanUpdate(rules, b, kind, prior, next, actor, stamp, reason);
      plan.Ok? ==> |plan.value| == 1 && plan.value[0].x == next && StepOk(rules, b, plan.value[0])
  {
    PlannedStep(rules, b, kind, next, actor, Some(rules.state_hash(prior)), stamp, reason);
  }

  /** The first record about a new id. */
  lemma PlannedInsert(rules: CaseRules, b: Box, kind: Kind, x: Entity, actor: string, stamp: Stamp)
    requires HomeOf(x) in b.matters && Begun(b, HomeOf(x)) && TenantOf(x) == b.matters[HomeOf(x)].tenant_id
    requires MetaOf(kind) == KindMeta(Create, KeyOf(x).entity_type, false) && Lookup(b, KeyOf(x)).None? && !x.AMatter?
    ensures var plan := PlanOne(rules, b, kind, x, actor, None, stamp, None);
      plan.Ok? ==> |plan.value| == 1 && plan.value[0].x == x && StepOk(rules, b, plan.value[0])
  {
    PlannedStep(rules, b, kind, x, actor, None, stamp, None);
  }

  lemma CommittedOne(rules: CaseRules, b: Box, steps: seq<Step>)
    requires |steps| == 1
    ensures Committed(rules, b, steps) == Applied(rules, b, steps[0])
  {
    assert steps[1..] == [];
  }

  /** The record on file under its key, in a matter on file whose chain is in order. */
  ghost predicate Filed(rules: CaseRules, b: Box, x: Entity) {
    && Lookup(b, KeyOf(x)) == Some(x)
    && HomeOf(x) in b.matters && TenantOf(x) == b.matters[HomeOf(x)].tenant_id && Begun(b, HomeOf(x))
  }

  /** The next version of a record on file. */
  predicate Succeeds(prior: Entity, next: Entity) {
    KeyOf(next) == KeyOf(prior) && HomeOf(next) == HomeOf(prior) && TenantOf(next) == TenantOf(prior)
  }

  lemma PlannedSuccessor(
    rules: CaseRules, b: Box, kind: Kind, prior: Entity, next: Entity, actor: string, stamp: Stamp, reason: Option<string>)
    requires Filed(rules, b, prior) && Succeeds(prior, next)
    requires MetaOf(kind).entity_type == KeyOf(prior).entity_type && MetaOf(kind).action != Create
    ensures var plan := PlanUpdate(rules, b, kind, prior, next, actor, stamp, reason);
      plan.Ok? ==> |plan.value| == 1 && plan.value[0].x == next && StepOk(rules, b, plan.value[0])
  {
    PlannedUpdate(rules, b, kind, prior, next, actor, stamp, reason);
  }

  lemma FiledBy(rules: CaseRules, b: Box, x: Entity)
    requires LedgerOk(rules, b) && Lookup(b, KeyOf(x)) == Some(x)
    ensures Filed(rules, b, x)
  {
    HomeIn(rules, b, KeyOf(x));
    BegunHere(rules, b, HomeOf(x));
  }

  // ----- What a step leaves alone -----

  lemma FactApplied(rules: CaseRules, b: Box, s: Step)
    requires s.x.AFact? && RecordsOk(b) && SupersessionOk(b.fact_by_id[s.x.fact.id := s.x.fact])
    ensures RecordsOk(Applied(rules, b, s))
  {
    RecordsParts(b);
    var c := Applied(rules, b, s);
    assert c.fact_by_id == b.fact_by_id[s.x.fact.id := s.x.fact];
    assert c.entry_by_id == b.entry_by_id && c.deadline_by_id == b.deadline_by_id;
    assert c.markers == b.markers && c.documents == b.documents && c.matters == b.matters;
    MarkersSame(b, c);
    RecordsFromParts(c);
  }

  /** The same markers and documents. */
  lemma MarkersSame(b: Box, c: Box)
    requires c.markers == b.markers && c.documents == b.documents
    ensures TargetsAtHome(b) ==> TargetsAtHome(c)
    ensures MarkersUnique(b) ==> MarkersUnique(c)
  {
    assert forall id: string :: MarkerAt(c, id) == MarkerAt(b, id);
  }

  lemma EntryApplied(rules: CaseRules, b: Box, s: Step)
    requires s.x.AnEntry? && RecordsOk(b)
    requires Owned(b.entry_by_id[s.x.entry.id := s.x.entry], b.deadline_by_id)
    requires OwnersDistinct(b.entry_by_id[s.x.entry.id := s.x.entry])
    requires NoOrphans(b.entry_by_id[s.x.entry.id := s.x.entry], b.deadline_by_id)
    ensures RecordsOk(Applied(rules, b, s))
  {
    RecordsParts(b);
    var c := Applied(rules, b, s);
    assert c.entry_by_id == b.entry_by_id[s.x.entry.id := s.x.entry] && c.deadline_by_id == b.deadline_by_id;
    assert c.fact_by_id == b.fact_by_id && c.matters == b.matters;
    MarkersSame(b, c);
    RecordsFromParts(c);
  }

  lemma DeadlineApplied(rules: CaseRules, b: Box, s: Step)
    requires s.x.ADeadline? && RecordsOk(b)
    requires Owned(b.entry_by_id, b.deadline_by_id[s.x.deadline.id := s.x.deadline])
    requires NoOrphans(b.entry_by_id, b.deadline_by_id[s.x.deadline.id := s.x.deadline])
    ensures RecordsOk(Applied(rules, b, s))
  {
    RecordsParts(b);
    var c := Applied(rules, b, s);
    assert c.deadline_by_id == b.deadline_by_id[s.x.deadline.id := s.x.deadline] && c.entry_by_id == b.entry_by_id;
    assert c.fact_by_id == b.fact_by_id && c.matters == b.matters;
    MarkersSame(b, c);
    RecordsFromParts(c);
  }

  lemma MatterApplied(rules: CaseRules, b: Box, s: Step)
    requires s.x.AMatter? && RecordsOk(b) && PartiesOk(s.x.matter.parties)
    ensures RecordsOk(Applied(rules, b, s)) && RecordsOk(Created(rules, b, s))
  {
    RecordsParts(b);
    var c := Put(b, s.x);
    assert c.matters == b.matters[s.x.matter.id := s.x.matter];
    assert c.entry_by_id == b.entry_by_id && c.deadline_by_id == b.deadline_by_id && c.fact_by_id == b.fact_by_id;
    MarkersSame(b, Applied(rules, b, s));
    MarkersSame(b, Created(rules, b, s));
    RecordsFromParts(Applied(rules, b, s));
    RecordsFromParts(Created(rules, b, s));
  }

  lemma DocumentApplied(rules: CaseRules, b: Box, s: Step)
    requires s.x.ADocument? && RecordsOk(b) && s.x.document.id !in b.documents
    ensures RecordsOk(Applied(rules, b, s))
  {
    RecordsParts(b);
    var c := Applied(rules, b, s);
    assert c.documents == b.documents[s.x.document.id := DocumentSlot(s.x.document, s.x.document.matter_id)];
    assert c.entry_by_id == b.entry_by_id && c.deadline_by_id == b.deadline_by_id && c.fact_by_id == b.fact_by_id;
    assert c.matters == b.matters && c.markers == b.markers;
    assert forall id: string :: MarkerAt(c, id) == MarkerAt(b, id);
    RecordsFromParts(c);
  }

  lemma MarkerApplied(rules: CaseRules, b: Box, s: Step)
    requires s.x.AMarker? && RecordsOk(b) && Holds(b, s.x, Applied(rules, b, s))
    requires var m := s.x.marker;
      && m.target_type == OnDocument && m.target_id in b.documents
      && b.documents[m.target_id].document.matter_id == m.matter_id
      && b.documents[m.target_id].document.tenant_id == m.tenant_id
      && (m.status == ConfirmedMarker ==>
            forall id: string | MarkerAt(b, id).Some? && id != m.id :: !ConfirmedTwin(MarkerAt(b, id).value, m))
    requires forall id: string | MarkerAt(b, id).Some? :: MarkerAt(b, id).value.id == id
    ensures RecordsOk(Applied(rules, b, s))
  {
    RecordsParts(b);
    var (c, m) := (Applied(rules, b, s), s.x.marker);
    assert c.entry_by_id == b.entry_by_id && c.deadline_by_id == b.deadline_by_id && c.fact_by_id == b.fact_by_id;
    assert c.matters == b.matters && c.documents == b.documents;
    forall id: string
      ensures MarkerAt(c, id) == if id == m.id then Some(m) else MarkerAt(b, id)
    {
      MarkerByLookup(b, id);
      MarkerByLookup(c, id);
      assert Lookup(c, Key(TPrivilegeMarker, id)) ==
        if Key(TPrivilegeMarker, id) == KeyOf(s.x) then Some(s.x) else Lookup(b, Key(TPrivilegeMarker, id));
    }
    OneMoreMarker(b, c, m);
    RecordsFromParts(c);
  }

  lemma MarkerByLookup(b: Box, id: string)
    ensures Lookup(b, Key(TPrivilegeMarker, id)) ==
      if MarkerAt(b, id).Some? then Some(AMarker(MarkerAt(b, id).value)) else None
  {
  }

  lemma OneMoreMarker(b: Box, c: Box, m: Marker)
    requires TargetsAtHome(b) && MarkersUnique(b) && c.documents == b.documents
    requires forall id: string :: MarkerAt(c, id) == if id == m.id then Some(m) else MarkerAt(b, id)
    requires forall id: string | MarkerAt(b, id).Some? :: MarkerAt(b, id).value.id == id
    requires m.target_type == OnDocument && m.target_id in b.documents
    requires b.documents[m.target_id].document.matter_id == m.matter_id
    requires b.documents[m.target_id].document.tenant_id == m.tenant_id
    requires m.status == ConfirmedMarker ==>
      forall id: string | MarkerAt(b, id).Some? && id != m.id :: !ConfirmedTwin(MarkerAt(b, id).value, m)
    ensures TargetsAtHome(c) && MarkersUnique(c)
  {
  }

  // ----- Facts -----

  /** Storing a fact that nobody points at keeps the graph in order. */
  lemma FactKeepsSupersession(facts: map<string, Fact>, next: Fact)
    requires SupersessionOk(facts)
    requires next.id in facts ==>
      && facts[next.id].status != Accepted
      && next.matter_id == facts[next.id].matter_id && next.tenant_id == facts[next.id].tenant_id
    requires next.supersedes_fact_id.Some? ==>
      var target := next.supersedes_fact_id.value;
      && next.status == Accepted && target != next.id && target in facts && facts[target].status == Accepted
      && facts[target].matter_id == next.matter_id && facts[target].tenant_id == next.tenant_id
    ensures SupersessionOk(facts[next.id := next])
  {
    forall other | other in facts
      ensures Next(facts, other) != Some(next.id)
    {
    }
    NewEdgeKeepsAcyclic(facts, next.id, next);
  }

  lemma FactOnFile(rules: CaseRules, b: Box, id: string)
    requires LedgerOk(rules, b)
    ensures (id in b.fact_by_id <==> id in b.facts.home) && (id in b.facts.ids <==> id in b.facts.home)
    ensures id in b.fact_by_id ==>
      var f := b.fact_by_id[id];
      && f.id == id && Lookup(b, Key(TFact, id)) == Some(AFact(f))
      && f.matter_id in b.matters && f.tenant_id == b.matters[f.matter_id].tenant_id
    ensures id !in b.fact_by_id ==> Lookup(b, Key(TFact, id)).None?
  {
    FactsIn(rules, b);
    assert FactAt(b, id) == if id in b.fact_by_id then Some(b.fact_by_id[id]) else None;
    if id in b.fact_by_id {
      RowIsPlaced(FactPlace, b.facts, id);
      assert Lookup(b, Key(TFact, id)) == Some(AFact(b.fact_by_id[id]));
      HomeIn(rules, b, Key(TFact, id));
    }
  }

  /** One good step that leaves the records in order. */
  lemma OneStepKeeps(rules: CaseRules, b: Box, steps: seq<Step>)
    requires LedgerOk(rules, b) && |steps| == 1 && StepOk(rules, b, steps[0]) && RecordsOk(Applied(rules, b, steps[0]))
    ensures BoxOk(rules, Committed(rules, b, steps))
  {
    CommittedOne(rules, b, steps);
    StepKeepsLedger(rules, b, steps[0]);
  }

  /** If the plan is complete, committing it keeps the box in order. */
  ghost predicate PlanKeeps(rules: CaseRules, b: Box, plan: Plan) {
    plan.Ok? ==> BoxOk(rules, Committed(rules, b, plan.value))
  }

  lemma PlannedKeeps(rules: CaseRules, b: Box, w: Write, stamp: Stamp)
    requires BoxOk(rules, b) && !w.CreateMatter? && PlanKeeps(rules, b, PlanOf(rules, b, w, stamp))
    ensures BoxOk(rules, After(rules, b, w, stamp))
  {
  }

  lemma AppendFactStep(rules: CaseRules, b: Box, f: Fact, stamp: Stamp)
    requires LedgerOk(rules, b)
    ensures var plan := PlanAppendFact(rules, b, f, stamp);
      plan.Ok? ==>
        && |plan.value| == 1 && plan.value[0].x == AFact(f) && StepOk(rules, b, plan.value[0])
        && f.id !in b.fact_by_id && f.supersedes_fact_id.None?
  {
    var plan := PlanAppendFact(rules, b, f, stamp);
    if plan.Ok? {
      FactOnFile(rules, b, f.id);
      BegunHere(rules, b, f.matter_id);
      PlannedInsert(rules, b, FactProposed, AFact(f), f.actor_user_id, stamp);
    }
  }

  lemma AppendFactPlanKeeps(rules: CaseRules, b: Box, f: Fact, stamp: Stamp)
    requires BoxOk(rules, b)
    ensures PlanKeeps(rules, b, PlanAppendFact(rules, b, f, stamp))
  {
    RecordsParts(b);
    var plan := PlanAppendFact(rules, b, f, stamp);
    if plan.Ok? {
      AppendFactStep(rules, b, f, stamp);
      FactKeepsSupersession(b.fact_by_id, f);
      FactApplied(rules, b, plan.value[0]);
      OneStepKeeps(rules, b, plan.value);
    }
  }

  lemma AppendFactKeeps(rules: CaseRules, b: Box, f: Fact, stamp: Stamp)
    requires BoxOk(rules, b)
    ensures BoxOk(rules, After(rules, b, AppendFact(f), stamp))
  {
    AppendFactPlanKeeps(rules, b, f, stamp);
    PlannedKeeps(rules, b, AppendFact(f), stamp);
  }

  lemma NextFactStays(prior: Fact, opts: FactOpts)
    ensures var next := NextFact(prior, opts);
      && next.id == prior.id && next.matter_id == prior.matter_id && next.tenant_id == prior.tenant_id
      && next.supersedes_fact_id ==
        (if opts.to == Accepted && opts.supersedes.Some? then opts.supersedes else prior.supersedes_fact_id)
      && (opts.to != Candidate ==> next.status == opts.to)
  {
  }

  lemma PlannedFactEvent(rules: CaseRules, b: Box, prior: Fact, opts: FactOpts, stamp: Stamp)
    requires Lookup(b, Key(TFact, prior.id)) == Some(AFact(prior)) && opts.to != Candidate
    requires prior.matter_id in b.matters && Begun(b, prior.matter_id) && prior.tenant_id == b.matters[prior.matter_id].tenant_id
    ensures var plan := PlanFactEvent(rules, b, prior, opts, stamp);
      plan.Ok? ==>
        |plan.value| == 1 && plan.value[0].x == AFact(NextFact(prior, opts)) && StepOk(rules, b, plan.value[0])
  {
    NextFactStays(prior, opts);
    var kind := FactKind(opts);
    PlannedStep(
      rules, b, kind, AFact(NextFact(prior, opts)), opts.reviewer,
      if kind == FactReplacementAccepted then None else Some(rules.state_hash(AFact(prior))), stamp,
      if opts.to == Rejected then opts.rejection_reason else None);
  }

  lemma TransitionFactStep(rules: CaseRules, b: Box, id: string, opts: FactOpts, stamp: Stamp)
    requires LedgerOk(rules, b)
    ensures var plan := PlanTransitionFact(rules, b, id, opts, stamp);
      plan.Ok? ==>
        && id in b.fact_by_id && |plan.value| == 1
        && plan.value[0].x == AFact(NextFact(b.fact_by_id[id], opts)) && StepOk(rules, b, plan.value[0])
  {
    if PlanTransitionFact(rules, b, id, opts, stamp).Ok? {
      FactOnFile(rules, b, id);
      BegunHere(rules, b, b.fact_by_id[id].matter_id);
      PlannedFactEvent(rules, b, b.fact_by_id[id], opts, stamp);
    }
  }

  lemma TransitionFactGraph(rules: CaseRules, b: Box, id: string, opts: FactOpts, stamp: Stamp)
    requires SupersessionOk(b.fact_by_id) && PlanTransitionFact(rules, b, id, opts, stamp).Ok?
    requires opts.to == Accepted && opts.supersedes.Some? ==>
      var target := opts.supersedes.value;
      target in b.fact_by_id && b.fact_by_id[target].matter_id == b.fact_by_id[id].matter_id ==>
        b.fact_by_id[target].tenant_id == b.fact_by_id[id].tenant_id
    ensures SupersessionOk(b.fact_by_id[id := NextFact(b.fact_by_id[id], opts)])
  {
    NextFactStays(b.fact_by_id[id], opts);
    FactKeepsSupersession(b.fact_by_id, NextFact(b.fact_by_id[id], opts));
  }

  lemma MovedFactKeeps(rules: CaseRules, b: Box, id: string, opts: FactOpts, steps: seq<Step>)
    requires BoxOk(rules, b) && id in b.fact_by_id && b.fact_by_id[id].id == id
    requires |steps| == 1 && steps[0].x == AFact(NextFact(b.fact_by_id[id], opts)) && StepOk(rules, b, steps[0])
    requires SupersessionOk(b.fact_by_id[id := NextFact(b.fact_by_id[id], opts)])
    ensures BoxOk(rules, Committed(rules, b, steps))
  {
    NextFactStays(b.fact_by_id[id], opts);
    FactApplied(rules, b, steps[0]);
    OneStepKeeps(rules, b, steps);
  }

  /** The graph with the moved fact in it. */
  lemma MovedFactGraph(rules: CaseRules, b: Box, id: string, opts: FactOpts, stamp: Stamp)
    requires BoxOk(rules, b) && PlanTransitionFact(rules, b, id, opts, stamp).Ok?
    ensures SupersessionOk(b.fact_by_id[id := NextFact(b.fact_by_id[id], opts)]) && b.fact_by_id[id].id == id
  {
    RecordsParts(b);
    FactOnFile(rules, b, id);
    if opts.supersedes.Some? {
      FactOnFile(rules, b, opts.supersedes.value);
    }
    TransitionFactGraph(rules, b, id, opts, stamp);
  }

  lemma TransitionFactPlanKeeps(rules: CaseRules, b: Box, id: string, opts: FactOpts, stamp: Stamp)
    requires BoxOk(rules, b)
    ensures PlanKeeps(rules, b, PlanTransitionFact(rules, b, id, opts, stamp))
  {
    var plan := PlanTransitionFact(rules, b, id, opts, stamp);
    if plan.Ok? {
      TransitionFactStep(rules, b, id, opts, stamp);
      MovedFactGraph(rules, b, id, opts, stamp);
      MovedFactKeeps(rules, b, id, opts, plan.value);
    }
  }

  lemma TransitionFactKeeps(rules: CaseRules, b: Box, id: string, opts: FactOpts, stamp: Stamp)
    requires BoxOk(rules, b)
    ensures BoxOk(rules, After(rules, b, TransitionFact(id, opts), stamp))
  {
    TransitionFactPlanKeeps(rules, b, id, opts, stamp);
    PlannedKeeps(rules, b, TransitionFact(id, opts), stamp);
  }

  /** Among stored facts the guard walk never rejects anything: what it guards against cannot arise. */
  lemma WalkNeverRejects(rules: CaseRules, b: Box, id: string, target: string)
    requires BoxOk(rules, b) && id in b.fact_by_id && b.fact_by_id[id].status != Accepted && target != id
    ensures WalkFrom(b.fact_by_id, |b.facts.ids|, id, Some(target), {}) == Clear
  {
    RecordsParts(b);
    assert b.facts.ids == b.fact_by_id.Keys by {
      forall i: string
        ensures i in b.facts.ids <==> i in b.fact_by_id
      {
        FactOnFile(rules, b, i);
      }
    }
    assert |b.fact_by_id.Keys| == |b.fact_by_id|;
    forall other | other in b.fact_by_id
      ensures Next(b.fact_by_id, other) != Some(id)
    {
    }
    NoCycleToFollow(b.fact_by_id, id, target, {});
  }

  // ----- Docket entries and deadlines -----

  lemma EntryOnFile(rules: CaseRules, b: Box, id: string)
    requires LedgerOk(rules, b)
    ensures (id in b.entry_by_id <==> id in b.entries.home) && (id in b.entries.ids <==> id in b.entries.home)
    ensures id in b.entry_by_id ==>
      var e := b.entry_by_id[id];
      && e.id == id && Lookup(b, Key(TDocketEntry, id)) == Some(AnEntry(e))
      && e.matter_id in b.matters && e.tenant_id == b.matters[e.matter_id].tenant_id
    ensures id !in b.entry_by_id ==> Lookup(b, Key(TDocketEntry, id)).None?
  {
    EntriesIn(rules, b);
    assert EntryAt(b, id) == if id in b.entry_by_id then Some(b.entry_by_id[id]) else None;
    if id in b.entry_by_id {
      RowIsPlaced(EntryPlace, b.entries, id);
      assert Lookup(b, Key(TDocketEntry, id)) == Some(AnEntry(b.entry_by_id[id]));
      HomeIn(rules, b, Key(TDocketEntry, id));
    }
  }

  lemma DeadlineOnFile(rules: CaseRules, b: Box, id: string)
    requires LedgerOk(rules, b)
    ensures (id in b.deadline_by_id <==> id in b.deadlines.home) && (id in b.deadlines.ids <==> id in b.deadlines.home)
    ensures id in b.deadline_by_id ==>
      var d := b.deadline_by_id[id];
      && d.id == id && Lookup(b, Key(TDeadline, id)) == Some(ADeadline(d))
      && d.matter_id in b.matters && d.tenant_id == b.matters[d.matter_id].tenant_id
    ensures id !in b.deadline_by_id ==> Lookup(b, Key(TDeadline, id)).None?
  {
    DeadlinesIn(rules, b);
    assert DeadlineAt(b, id) == if id in b.deadline_by_id then Some(b.deadline_by_id[id]) else None;
    if id in b.deadline_by_id {
      RowIsPlaced(DeadlinePlace, b.deadlines, id);
      assert Lookup(b, Key(TDeadline, id)) == Some(ADeadline(b.deadline_by_id[id]));
      HomeIn(rules, b, Key(TDeadline, id));
    }
  }

  /** An entry that owns nothing, stored where none was or over another that owned nothing. */
  lemma UnownedEntryKeepsDocket(
    entries: map<string, DocketEntry>, deadlines: map<string, Deadline>, next: DocketEntry)
    requires Owned(entries, deadlines) && OwnersDistinct(entries) && NoOrphans(entries, deadlines)
    requires next.confirmation_state != ConfirmedEntry && next.confirmed_deadline_id.None?
    requires next.id in entries ==> entries[next.id].confirmed_deadline_id.None?
    ensures var after := entries[next.id := next];
      Owned(after, deadlines) && OwnersDistinct(after) && NoOrphans(after, deadlines)
  {
    var after := entries[next.id := next];
    forall d | d in deadlines
      ensures exists id | id in after :: after[id].confirmed_deadline_id == Some(d)
    {
      var id :| id in entries && entries[id].confirmed_deadline_id == Some(d);
      assert id in after && after[id] == entries[id];
    }
  }

  lemma AppendEntryPlanned(rules: CaseRules, b: Box, e: DocketEntry, stamp: Stamp)
    requires Lookup(b, Key(TDocketEntry, e.id)).None? && e.matter_id in b.matters && Begun(b, e.matter_id)
    ensures var plan := PlanAppendEntry(rules, b, e, stamp);
      plan.Ok? ==>
        |plan.value| == 1 && plan.value[0].x == AnEntry(e) && StepOk(rules, b, plan.value[0]) && NewEntry(e)
  {
    if PlanAppendEntry(rules, b, e, stamp).Ok? {
      PlannedInsert(rules, b, DocketEntryProposed, AnEntry(e), e.actor_user_id, stamp);
    }
  }

  lemma AppendEntryStep(rules: CaseRules, b: Box, e: DocketEntry, stamp: Stamp)
    requires LedgerOk(rules, b)
    ensures var plan := PlanAppendEntry(rules, b, e, stamp);
      plan.Ok? ==>
        && |plan.value| == 1 && plan.value[0].x == AnEntry(e) && StepOk(rules, b, plan.value[0])
        && e.id !in b.entry_by_id && NewEntry(e)
  {
    if PlanAppendEntry(rules, b, e, stamp).Ok? {
      EntryOnFile(rules, b, e.id);
      BegunHere(rules, b, e.matter_id);
      AppendEntryPlanned(rules, b, e, stamp);
    }
  }

  lemma AppendEntryPlanKeeps(rules: CaseRules, b: Box, e: DocketEntry, stamp: Stamp)
    requires BoxOk(rules, b)
    ensures PlanKeeps(rules, b, PlanAppendEntry(rules, b, e, stamp))
  {
    RecordsParts(b);
    var plan := PlanAppendEntry(rules, b, e, stamp);
    if plan.Ok? {
      AppendEntryStep(rules, b, e, stamp);
      UnownedEntryKeepsDocket(b.entry_by_id, b.deadline_by_id, e);
      EntryApplied(rules, b, plan.value[0]);
      OneStepKeeps(rules, b, plan.value);
    }
  }

  lemma AppendEntryKeeps(rules: CaseRules, b: Box, e: DocketEntry, stamp: Stamp)
    requires BoxOk(rules, b)
    ensures BoxOk(rules, After(rules, b, AppendEntry(e), stamp))
  {
    AppendEntryPlanKeeps(rules, b, e, stamp);
    PlannedKeeps(rules, b, AppendEntry(e), stamp);
  }

  /** Dismissing and editing replace a proposed entry by one that still owns nothing. */
  ghost predicate ReplacesProposed(rules: CaseRules, b: Box, id: string, steps: seq<Step>) {
    && |steps| == 1 && StepOk(rules, b, steps[0]) && id in b.entry_by_id && steps[0].x.AnEntry?
    && b.entry_by_id[id].confirmation_state == ProposedEntry
    && steps[0].x.entry.id == id && steps[0].x.entry.confirmation_state != ConfirmedEntry
    && steps[0].x.entry.confirmed_deadline_id == b.entry_by_id[id].confirmed_deadline_id
  }

  lemma ReplacedEntryKeeps(rules: CaseRules, b: Box, id: string, steps: seq<Step>)
    requires BoxOk(rules, b) && ReplacesProposed(rules, b, id, steps)
    ensures BoxOk(rules, Committed(rules, b, steps))
  {
    RecordsParts(b);
    UnownedEntryKeepsDocket(b.entry_by_id, b.deadline_by_id, steps[0].x.entry);
    EntryApplied(rules, b, steps[0]);
    OneStepKeeps(rules, b, steps);
  }

  lemma EntryFiled(rules: CaseRules, b: Box, id: string)
    requires LedgerOk(rules, b) && id in b.entry_by_id
    ensures b.entry_by_id[id].id == id && Filed(rules, b, AnEntry(b.entry_by_id[id]))
  {
    EntryOnFile(rules, b, id);
    var x := AnEntry(b.entry_by_id[id]);
    assert KeyOf(x) == Key(TDocketEntry, id);
    FiledBy(rules, b, x);
  }

  lemma DismissStep(rules: CaseRules, b: Box, id: string, actor: string, at: string, reason: string, stamp: Stamp)
    requires id in b.entry_by_id ==> b.entry_by_id[id].id == id && Filed(rules, b, AnEntry(b.entry_by_id[id]))
    ensures var plan := PlanDismissEntry(rules, b, id, actor, at, reason, stamp);
      plan.Ok? ==> ReplacesProposed(rules, b, id, plan.value)
  {
    if PlanDismissEntry(rules, b, id, actor, at, reason, stamp).Ok? {
      var prior := b.entry_by_id[id];
      var next := prior.(
        confirmation_state := DismissedEntry, dismissal_actor_user_id := Some(actor), dismissed_at := Some(at),
        dismissal_reason := Some(reason));
      PlannedUpdate(rules, b, DocketEntryDismissed, AnEntry(prior), AnEntry(next), actor, stamp, Some(reason));
    }
  }

  lemma EditStep(rules: CaseRules, b: Box, opts: EditOpts, stamp: Stamp)
    requires var id := opts.entry_id;
      id in b.entry_by_id ==> b.entry_by_id[id].id == id && Filed(rules, b, AnEntry(b.entry_by_id[id]))
    ensures var plan := PlanEditEntry(rules, b, opts, stamp);
      plan.Ok? ==> ReplacesProposed(rules, b, opts.entry_id, plan.value)
  {
    if PlanEditEntry(rules, b, opts, stamp).Ok? {
      var prior := b.entry_by_id[opts.entry_id];
      var next := prior.(proposal := opts.proposal, revised_at := Some(stamp.now));
      PlannedUpdate(rules, b, DocketEntryRevised, AnEntry(prior), AnEntry(next), opts.editor, stamp, None);
    }
  }

  lemma DismissPlanKeeps(rules: CaseRules, b: Box, id: string, actor: string, at: string, reason: string, stamp: Stamp)
    requires BoxOk(rules, b)
    ensures PlanKeeps(rules, b, PlanDismissEntry(rules, b, id, actor, at, reason, stamp))
  {
    if PlanDismissEntry(rules, b, id, actor, at, reason, stamp).Ok? {
      EntryFiled(rules, b, id);
      DismissStep(rules, b, id, actor, at, reason, stamp);
      ReplacedEntryKeeps(rules, b, id, PlanDismissEntry(rules, b, id, actor, at, reason, stamp).value);
    }
  }

  lemma DismissKeeps(rules: CaseRules, b: Box, id: string, actor: string, at: string, reason: string, stamp: Stamp)
    requires BoxOk(rules, b)
    ensures BoxOk(rules, After(rules, b, DismissEntry(id, actor, at, reason), stamp))
  {
    DismissPlanKeeps(rules, b, id, actor, at, reason, stamp);
    PlannedKeeps(rules, b, DismissEntry(id, actor, at, reason), stamp);
  }

  lemma EditPlanKeeps(rules: CaseRules, b: Box, opts: EditOpts, stamp: Stamp)
    requires BoxOk(rules, b)
    ensures PlanKeeps(rules, b, PlanEditEntry(rules, b, opts, stamp))
  {
    if PlanEditEntry(rules, b, opts, stamp).Ok? {
      EntryFiled(rules, b, opts.entry_id);
      EditStep(rules, b, opts, stamp);
      ReplacedEntryKeeps(rules, b, opts.entry_id, PlanEditEntry(rules, b, opts, stamp).value);
    }
  }

  lemma EditKeeps(rules: CaseRules, b: Box, opts: EditOpts, stamp: Stamp)
    requires BoxOk(rules, b)
    ensures BoxOk(rules, After(rules, b, EditEntry(opts), stamp))
  {
    EditPlanKeeps(rules, b, opts, stamp);
    PlannedKeeps(rules, b, EditEntry(opts), stamp);
  }

  lemma DeadlineFiled(rules: CaseRules, b: Box, id: string)
    requires LedgerOk(rules, b) && id in b.deadline_by_id
    ensures b.deadline_by_id[id].id == id && Filed(rules, b, ADeadline(b.deadline_by_id[id]))
  {
    DeadlineOnFile(rules, b, id);
    var x := ADeadline(b.deadline_by_id[id]);
    assert KeyOf(x) == Key(TDeadline, id);
    FiledBy(rules, b, x);
  }

  /** What no transition changes about a deadline. */
  predicate SameDuty(d: Deadline, next: Deadline) {
    && next.id == d.id && next.matter_id == d.matter_id && next.tenant_id == d.tenant_id
    && next.actor_user_id == d.actor_user_id && next.kind == d.kind && next.due_at == d.due_at
    && next.owner_user_id == d.owner_user_id && next.source_rule_citation == d.source_rule_citation
  }

  /** The deadline stays what and where it was but for its status. */
  ghost predicate ReplacesDeadline(rules: CaseRules, b: Box, id: string, steps: seq<Step>) {
    && |steps| == 1 && StepOk(rules, b, steps[0]) && id in b.deadline_by_id && steps[0].x.ADeadline?
    && steps[0].x.deadline.id == id && SameDuty(b.deadline_by_id[id], steps[0].x.deadline)
  }

  lemma NextDeadlineStays(prior: Deadline, to: DeadlineStatus, at: string, reason: Option<string>)
    ensures Succeeds(ADeadline(prior), ADeadline(NextDeadline(prior, to, at, reason)))
    ensures SameDuty(prior, NextDeadline(prior, to, at, reason))
    ensures MetaOf(DeadlineKind(prior, to)).entity_type == TDeadline && MetaOf(DeadlineKind(prior, to)).action == Update
  {
  }

  lemma TransitionDeadlineStep(
    rules: CaseRules, b: Box, id: string, to: DeadlineStatus, actor: string, at: string, reason: Option<string>,
    stamp: Stamp)
    requires id in b.deadline_by_id ==> b.deadline_by_id[id].id == id && Filed(rules, b, ADeadline(b.deadline_by_id[id]))
    ensures var plan := PlanTransitionDeadline(rules, b, id, to, actor, at, reason, stamp);
      plan.Ok? ==> ReplacesDeadline(rules, b, id, plan.value)
  {
    if PlanTransitionDeadline(rules, b, id, to, actor, at, reason, stamp).Ok? {
      var prior := b.deadline_by_id[id];
      NextDeadlineStays(prior, to, at, reason);
      PlannedSuccessor(
        rules, b, DeadlineKind(prior, to), ADeadline(prior), ADeadline(NextDeadline(prior, to, at, reason)), actor, stamp,
        if Late(prior, to) then reason else None);
    }
  }

  lemma SameDeadlineKeepsDocket(
    entries: map<string, DocketEntry>, deadlines: map<string, Deadline>, next: Deadline)
    requires Owned(entries, deadlines) && NoOrphans(entries, deadlines) && next.id in deadlines
    requires SameDuty(deadlines[next.id], next)
    ensures Owned(entries, deadlines[next.id := next]) && NoOrphans(entries, deadlines[next.id := next])
  {
  }

  lemma ReplacedDeadlineKeeps(rules: CaseRules, b: Box, id: string, steps: seq<Step>)
    requires BoxOk(rules, b) && ReplacesDeadline(rules, b, id, steps)
    ensures BoxOk(rules, Committed(rules, b, steps))
  {
    RecordsParts(b);
    SameDeadlineKeepsDocket(b.entry_by_id, b.deadline_by_id, steps[0].x.deadline);
    DeadlineApplied(rules, b, steps[0]);
    OneStepKeeps(rules, b, steps);
  }

  lemma TransitionDeadlinePlanKeeps(
    rules: CaseRules, b: Box, id: string, to: DeadlineStatus, actor: string, at: string, reason: Option<string>,
    stamp: Stamp)
    requires BoxOk(rules, b)
    ensures PlanKeeps(rules, b, PlanTransitionDeadline(rules, b, id, to, actor, at, reason, stamp))
  {
    var plan := PlanTransitionDeadline(rules, b, id, to, actor, at, reason, stamp);
    if plan.Ok? {
      DeadlineFiled(rules, b, id);
      TransitionDeadlineStep(rules, b, id, to, actor, at, reason, stamp);
      ReplacedDeadlineKeeps(rules, b, id, plan.value);
    }
  }

  lemma TransitionDeadlineKeeps(
    rules: CaseRules, b: Box, id: string, to: DeadlineStatus, actor: string, at: string, reason: Option<string>,
    stamp: Stamp)
    requires BoxOk(rules, b)
    ensures BoxOk(rules, After(rules, b, TransitionDeadline(id, to, actor, at, reason), stamp))
  {
    TransitionDeadlinePlanKeeps(rules, b, id, to, actor, at, reason, stamp);
    PlannedKeeps(rules, b, TransitionDeadline(id, to, actor, at, reason), stamp);
  }

  // ----- Confirming -----

  /** The confirmed entry and the deadline made from it, stored together. */
  lemma ConfirmKeepsDocket(
    entries: map<string, DocketEntry>, deadlines: map<string, Deadline>, prior: DocketEntry, opts: ConfirmOpts)
    requires Owned(entries, deadlines) && OwnersDistinct(entries) && NoOrphans(entries, deadlines)
    requires prior.id in entries && entries[prior.id] == prior && prior.confirmation_state == ProposedEntry
    requires opts.deadline_id != "" && opts.deadline_id !in deadlines && prior.proposal.due_at_kind == DateTime
    ensures var next := ConfirmedAs(prior, opts);
      var (es, ds) := (
        entries[prior.id := next], deadlines[opts.deadline_id := DeadlineOf(next, opts.deadline_id, opts.actor)]);
      Owned(es, ds) && OwnersDistinct(es) && NoOrphans(es, ds)
  {
    var next := ConfirmedAs(prior, opts);
    var es := entries[prior.id := next];
    var ds := deadlines[opts.deadline_id := DeadlineOf(next, opts.deadline_id, opts.actor)];
    assert es[prior.id].confirmed_deadline_id == Some(opts.deadline_id);
    forall d | d in ds
      ensures exists id | id in es :: es[id].confirmed_deadline_id == Some(d)
    {
      if d != opts.deadline_id {
        var id :| id in entries && entries[id].confirmed_deadline_id == Some(d);
        assert id in es && es[id] == entries[id];
      }
    }
  }

  /** The two steps of a confirmation. */
  ghost predicate Confirms(rules: CaseRules, b: Box, prior: DocketEntry, opts: ConfirmOpts, steps: seq<Step>) {
    && |steps| == 2
    && steps[0].x == AnEntry(ConfirmedAs(prior, opts))
    && steps[1].x == ADeadline(DeadlineOf(ConfirmedAs(prior, opts), opts.deadline_id, opts.actor))
    && StepOk(rules, b, steps[0])
    && StepOk(rules, Applied(rules, b, steps[0]), steps[1])
  }

  lemma AppliedLookupOther(rules: CaseRules, b: Box, s: Step, key: Key)
    requires Holds(b, s.x, Applied(rules, b, s)) && key != KeyOf(s.x)
    ensures Lookup(Applied(rules, b, s), key) == Lookup(b, key)
  {
  }

  /** The second event is planned on the chain as it will be after the first. */
  lemma SecondStepOk(rules: CaseRules, b: Box, c: Box, d: Deadline, actor: string, stamp: Stamp)
    requires d.matter_id in c.matters && Begun(c, d.matter_id) && c.matters[d.matter_id].tenant_id == d.tenant_id
    requires Lookup(c, Key(TDeadline, d.id)).None?
    ensures var e := NextEvent(
        rules, Chain(c, d.matter_id), DeadlineRegistered, stamp.second_event_id, ADeadline(d), actor, None, stamp.now, None);
      e.Some? ==> StepOk(rules, c, Step(ADeadline(d), e.value))
  {
    PlannedInsert(rules, c, DeadlineRegistered, ADeadline(d), actor, stamp.(event_id := stamp.second_event_id));
  }

  lemma FirstStepOk(rules: CaseRules, b: Box, prior: DocketEntry, opts: ConfirmOpts, stamp: Stamp)
    requires Filed(rules, b, AnEntry(prior))
    ensures var next := ConfirmedAs(prior, opts);
      var e := NextEvent(
        rules, Chain(b, prior.matter_id), DocketEntryConfirmed, stamp.event_id, AnEntry(next), opts.actor,
        Some(rules.state_hash(AnEntry(prior))), stamp.now, None);
      e.Some? ==> StepOk(rules, b, Step(AnEntry(next), e.value))
  {
    PlannedUpdate(
      rules, b, DocketEntryConfirmed, AnEntry(prior), AnEntry(ConfirmedAs(prior, opts)), opts.actor, stamp, None);
  }

  /** What a confirmation plans when it plans anything. */
  ghost predicate ConfirmPlanned(
    rules: CaseRules, b: Box, prior: DocketEntry, opts: ConfirmOpts, stamp: Stamp, steps: seq<Step>)
  {
    var next := ConfirmedAs(prior, opts);
    var d := DeadlineOf(next, opts.deadline_id, opts.actor);
    var first := NextEvent(
      rules, Chain(b, prior.matter_id), DocketEntryConfirmed, stamp.event_id, AnEntry(next), opts.actor,
      Some(rules.state_hash(AnEntry(prior))), stamp.now, None);
    && first.Some? && |steps| == 2 && steps[0] == Step(AnEntry(next), first.value)
    && var second := NextEvent(
         rules, Chain(b, prior.matter_id) + [first.value.event], DeadlineRegistered, stamp.second_event_id, ADeadline(d),
         opts.actor, None, stamp.now, None);
      second.Some? && steps[1] == Step(ADeadline(d), second.value)
  }

  lemma ConfirmGuards(rules: CaseRules, b: Box, id: string, opts: ConfirmOpts, stamp: Stamp)
    ensures var plan := PlanConfirmEntry(rules, b, id, opts, stamp);
      plan.Ok? && plan.value != [] ==>
        && id in b.entry_by_id
        && b.entry_by_id[id].confirmation_state == ProposedEntry && b.entry_by_id[id].proposal.due_at_kind == DateTime
        && opts.deadline_id != "" && opts.deadline_id !in b.deadlines.ids
        && ConfirmPlanned(rules, b, b.entry_by_id[id], opts, stamp, plan.value)
  {
  }

  lemma ConfirmSteps(rules: CaseRules, b: Box, prior: DocketEntry, opts: ConfirmOpts, stamp: Stamp, steps: seq<Step>)
    requires LedgerOk(rules, b) && ConfirmPlanned(rules, b, prior, opts, stamp, steps)
    requires Filed(rules, b, AnEntry(prior)) && Lookup(b, Key(TDeadline, opts.deadline_id)).None?
    ensures Confirms(rules, b, prior, opts, steps)
  {
    var first := steps[0];
    FirstStepOk(rules, b, prior, opts, stamp);
    StepKeepsLedger(rules, b, first);
    LedgerParts(rules, b);
    StepLookup(rules, b, first);
    ConfirmSecond(rules, b, Applied(rules, b, first), first, prior, opts, stamp);
  }

  lemma ConfirmSecond(
    rules: CaseRules, b: Box, c: Box, first: Step, prior: DocketEntry, opts: ConfirmOpts, stamp: Stamp)
    requires c == Applied(rules, b, first) && LedgerOk(rules, c) && Holds(b, first.x, c)
    requires first.x == AnEntry(ConfirmedAs(prior, opts)) && Filed(rules, b, AnEntry(prior))
    requires Lookup(b, Key(TDeadline, opts.deadline_id)).None?
    ensures var d := DeadlineOf(ConfirmedAs(prior, opts), opts.deadline_id, opts.actor);
      var e := NextEvent(
        rules, Chain(b, prior.matter_id) + [first.e.event], DeadlineRegistered, stamp.second_event_id, ADeadline(d),
        opts.actor, None, stamp.now, None);
      e.Some? ==> StepOk(rules, c, Step(ADeadline(d), e.value))
  {
    var d := DeadlineOf(ConfirmedAs(prior, opts), opts.deadline_id, opts.actor);
    AppendedChain(rules, b, first, prior.matter_id);
    AppliedLookupOther(rules, b, first, Key(TDeadline, d.id));
    PutMatters(b, first.x);
    BegunHere(rules, c, prior.matter_id);
    SecondStepOk(rules, b, c, d, opts.actor, stamp);
  }

  lemma CommittedTwo(rules: CaseRules, b: Box, steps: seq<Step>)
    requires |steps| == 2
    ensures Committed(rules, b, steps) == Applied(rules, Applied(rules, b, steps[0]), steps[1])
  {
    CommittedOne(rules, Applied(rules, b, steps[0]), steps[1..]);
  }

  /** What the two steps leave in the maps. */
  lemma ConfirmedMaps(rules: CaseRules, b: Box, prior: DocketEntry, opts: ConfirmOpts, steps: seq<Step>)
    requires Confirms(rules, b, prior, opts, steps)
    ensures var c := Applied(rules, Applied(rules, b, steps[0]), steps[1]);
      && c.entry_by_id == b.entry_by_id[prior.id := ConfirmedAs(prior, opts)]
      && c.deadline_by_id ==
        b.deadline_by_id[opts.deadline_id := DeadlineOf(ConfirmedAs(prior, opts), opts.deadline_id, opts.actor)]
      && c.fact_by_id == b.fact_by_id && c.matters == b.matters && c.markers == b.markers && c.documents == b.documents
  {
  }

  lemma DocketMoves(b: Box, c: Box)
    requires RecordsOk(b) && DocketOk(c)
    requires c.fact_by_id == b.fact_by_id && c.matters == b.matters && c.markers == b.markers && c.documents == b.documents
    ensures RecordsOk(c)
  {
    RecordsParts(b);
    MarkersSame(b, c);
    RecordsFromParts(c);
  }

  lemma ConfirmedRecords(rules: CaseRules, b: Box, prior: DocketEntry, opts: ConfirmOpts, steps: seq<Step>)
    requires RecordsOk(b) && Confirms(rules, b, prior, opts, steps)
    requires prior.id in b.entry_by_id && b.entry_by_id[prior.id] == prior && prior.confirmation_state == ProposedEntry
    requires opts.deadline_id != "" && opts.deadline_id !in b.deadline_by_id && prior.proposal.due_at_kind == DateTime
    ensures RecordsOk(Applied(rules, Applied(rules, b, steps[0]), steps[1]))
  {
    RecordsParts(b);
    var c := Applied(rules, Applied(rules, b, steps[0]), steps[1]);
    ConfirmedMaps(rules, b, prior, opts, steps);
    ConfirmKeepsDocket(b.entry_by_id, b.deadline_by_id, prior, opts);
    DocketMoves(b, c);
  }

  lemma ConfirmedKeeps(rules: CaseRules, b: Box, prior: DocketEntry, opts: ConfirmOpts, steps: seq<Step>)
    requires BoxOk(rules, b) && Confirms(rules, b, prior, opts, steps)
    requires prior.id in b.entry_by_id && b.entry_by_id[prior.id] == prior && prior.confirmation_state == ProposedEntry
    requires opts.deadline_id != "" && opts.deadline_id !in b.deadline_by_id && prior.proposal.due_at_kind == DateTime
    ensures BoxOk(rules, Committed(rules, b, steps))
  {
    CommittedTwo(rules, b, steps);
    StepKeepsLedger(rules, b, steps[0]);
    StepKeepsLedger(rules, Applied(rules, b, steps[0]), steps[1]);
    ConfirmedRecords(rules, b, prior, opts, steps);
  }

  lemma ConfirmPlanKeeps(rules: CaseRules, b: Box, id: string, opts: ConfirmOpts, stamp: Stamp)
    requires BoxOk(rules, b)
    ensures PlanKeeps(rules, b, PlanConfirmEntry(rules, b, id, opts, stamp))
  {
    var plan := PlanConfirmEntry(rules, b, id, opts, stamp);
    if plan.Ok? && plan.value != [] {
      ConfirmGuards(rules, b, id, opts, stamp);
      PlannedConfirmKeeps(rules, b, id, opts, stamp, plan.value);
    }
  }

  lemma ConfirmKeeps(rules: CaseRules, b: Box, id: string, opts: ConfirmOpts, stamp: Stamp)
    requires BoxOk(rules, b)
    ensures BoxOk(rules, After(rules, b, ConfirmEntry(id, opts), stamp))
  {
    ConfirmPlanKeeps(rules, b, id, opts, stamp);
    PlannedKeeps(rules, b, ConfirmEntry(id, opts), stamp);
  }

  lemma PlannedConfirmKeeps(rules: CaseRules, b: Box, id: string, opts: ConfirmOpts, stamp: Stamp, steps: seq<Step>)
    requires BoxOk(rules, b) && id in b.entry_by_id
    requires b.entry_by_id[id].confirmation_state == ProposedEntry && b.entry_by_id[id].proposal.due_at_kind == DateTime
    requires opts.deadline_id != "" && opts.deadline_id !in b.deadlines.ids
    requires ConfirmPlanned(rules, b, b.entry_by_id[id], opts, stamp, steps)
    ensures BoxOk(rules, Committed(rules, b, steps))
  {
    EntryFiled(rules, b, id);
    DeadlineOnFile(rules, b, opts.deadline_id);
    ConfirmSteps(rules, b, b.entry_by_id[id], opts, stamp, steps);
    ConfirmedKeeps(rules, b, b.entry_by_id[id], opts, steps);
  }

  lemma OwnedIsConfirmed(b: Box, id: string)
    requires Owned(b.entry_by_id, b.deadline_by_id) && id in b.entry_by_id
    requires b.entry_by_id[id].confirmation_state == ConfirmedEntry
    ensures AlreadyConfirmed(b, b.entry_by_id[id])
  {
  }

  lemma ReconfirmPlan(rules: CaseRules, b: Box, id: string, opts: ConfirmOpts, stamp: Stamp)
    requires id in b.entries.home && id in b.entry_by_id && AlreadyConfirmed(b, b.entry_by_id[id])
    requires id != "" && opts.actor != "" && opts.at != "" && opts.deadline_id != ""
    ensures PlanConfirmEntry(rules, b, id, opts, stamp) == Ok([])
    ensures After(rules, b, ConfirmEntry(id, opts), stamp) == b
  {
    IdlePlan(rules, b, ConfirmEntry(id, opts), stamp);
  }

  lemma ConfirmedIsReady(rules: CaseRules, b: Box, id: string)
    requires BoxOk(rules, b) && id in b.entry_by_id && b.entry_by_id[id].confirmation_state == ConfirmedEntry
    ensures id in b.entries.home && AlreadyConfirmed(b, b.entry_by_id[id])
  {
    RecordsParts(b);
    EntryOnFile(rules, b, id);
    OwnedIsConfirmed(b, id);
  }

  /** Confirming a confirmed entry again changes nothing and emits nothing, for any well-formed
      options. */
  lemma ReconfirmIsIdle(rules: CaseRules, b: Box, id: string, opts: ConfirmOpts, stamp: Stamp)
    requires BoxOk(rules, b) && id in b.entry_by_id && b.entry_by_id[id].confirmation_state == ConfirmedEntry
    requires id != "" && opts.actor != "" && opts.at != "" && opts.deadline_id != ""
    ensures PlanConfirmEntry(rules, b, id, opts, stamp) == Ok([])
    ensures After(rules, b, ConfirmEntry(id, opts), stamp) == b
  {
    ConfirmedIsReady(rules, b, id);
    ReconfirmPlan(rules, b, id, opts, stamp);
  }

  lemma IdlePlan(rules: CaseRules, b: Box, w: Write, stamp: Stamp)
    ensures PlanOf(rules, b, w, stamp) == Ok([]) && !w.CreateMatter? ==> After(rules, b, w, stamp) == b
  {
  }

  // ----- Documents -----

  lemma RegisterDocumentPlanned(rules: CaseRules, b: Box, id: string, d: Document, stamp: Stamp)
    requires id in b.matters ==> Begun(b, id)
    ensures var plan := PlanRegisterDocument(rules, b, id, d, stamp);
      plan.Ok? ==>
        && |plan.value| == 1 && plan.value[0].x == ADocument(d) && StepOk(rules, b, plan.value[0])
        && d.id !in b.documents
  {
    if PlanRegisterDocument(rules, b, id, d, stamp).Ok? {
      PlannedInsert(rules, b, DocumentRegistered, ADocument(d), d.actor_user_id, stamp);
    }
  }

  lemma RegisterDocumentPlanKeeps(rules: CaseRules, b: Box, id: string, d: Document, stamp: Stamp)
    requires BoxOk(rules, b)
    ensures PlanKeeps(rules, b, PlanRegisterDocument(rules, b, id, d, stamp))
  {
    var plan := PlanRegisterDocument(rules, b, id, d, stamp);
    if plan.Ok? {
      BegunHere(rules, b, id);
      RegisterDocumentPlanned(rules, b, id, d, stamp);
      DocumentApplied(rules, b, plan.value[0]);
      OneStepKeeps(rules, b, plan.value);
    }
  }

  lemma RegisterDocumentKeeps(rules: CaseRules, b: Box, id: string, d: Document, stamp: Stamp)
    requires BoxOk(rules, b)
    ensures BoxOk(rules, After(rules, b, RegisterDocument(id, d), stamp))
  {
    RegisterDocumentPlanKeeps(rules, b, id, d, stamp);
    PlannedKeeps(rules, b, RegisterDocument(id, d), stamp);
  }

  // ----- Privilege markers -----

  lemma MarkerOnFile(rules: CaseRules, b: Box, id: string)
    requires LedgerOk(rules, b)
    ensures (id in b.markers.home <==> MarkerAt(b, id).Some?) && (id in b.markers.ids <==> id in b.markers.home)
    ensures MarkerAt(b, id).Some? ==>
      && MarkerAt(b, id).value.id == id && MarkerAt(b, id).value.matter_id == b.markers.home[id]
      && Filed(rules, b, AMarker(MarkerAt(b, id).value))
    ensures MarkerAt(b, id).None? ==> Lookup(b, Key(TPrivilegeMarker, id)).None?
  {
    MarkersIn(rules, b);
    if MarkerAt(b, id).Some? {
      RowIsPlaced(MarkerPlace, b.markers, id);
      var x := AMarker(MarkerAt(b, id).value);
      assert KeyOf(x) == Key(TPrivilegeMarker, id);
      FiledBy(rules, b, x);
    }
  }

  lemma AppendMarkerPlanned(rules: CaseRules, b: Box, m: Marker, stamp: Stamp)
    requires Lookup(b, Key(TPrivilegeMarker, m.id)).None?
    requires m.matter_id in b.matters ==> Begun(b, m.matter_id)
    requires (
        && m.target_id in b.documents && b.documents[m.target_id].document.matter_id == m.matter_id
        && m.matter_id in b.matters)
      ==> b.documents[m.target_id].document.tenant_id == b.matters[m.matter_id].tenant_id
    ensures var plan := PlanAppendMarker(rules, b, m, stamp);
      plan.Ok? ==>
        && |plan.value| == 1 && plan.value[0].x == AMarker(m) && StepOk(rules, b, plan.value[0])
        && m.status == ProposedMarker && m.target_type == OnDocument && TargetFault(b, m.tenant_id, m.matter_id, m.target_id).None?
  {
    if PlanAppendMarker(rules, b, m, stamp).Ok? {
      PlannedInsert(rules, b, PrivilegeMarkerProposed, AMarker(m), m.actor_user_id, stamp);
    }
  }

  /** A document on file has its matter's tenant: the only way a marker's tenant is known. */
  lemma DocumentTenant(rules: CaseRules, b: Box, id: string)
    requires LedgerOk(rules, b) && id in b.documents
    ensures var d := b.documents[id].document;
      d.id == id && d.matter_id in b.matters && d.tenant_id == b.matters[d.matter_id].tenant_id
  {
    MapsIn(rules, b);
    HomeIn(rules, b, Key(TDocument, id));
    assert Lookup(b, Key(TDocument, id)) == Some(ADocument(b.documents[id].document));
  }

  lemma MarkersNamed(rules: CaseRules, b: Box)
    requires LedgerOk(rules, b)
    ensures forall id: string | MarkerAt(b, id).Some? :: MarkerAt(b, id).value.id == id
  {
    MarkersIn(rules, b);
    forall id: string | MarkerAt(b, id).Some?
      ensures MarkerAt(b, id).value.id == id
    {
      RowIsPlaced(MarkerPlace, b.markers, id);
    }
  }

  lemma OneMarkerKeeps(rules: CaseRules, b: Box, steps: seq<Step>)
    requires BoxOk(rules, b) && |steps| == 1 && steps[0].x.AMarker? && StepOk(rules, b, steps[0])
    requires var m := steps[0].x.marker;
      && m.target_type == OnDocument && m.target_id in b.documents
      && b.documents[m.target_id].document.matter_id == m.matter_id
      && b.documents[m.target_id].document.tenant_id == m.tenant_id
      && (m.status == ConfirmedMarker ==>
            forall id: string | MarkerAt(b, id).Some? && id != m.id :: !ConfirmedTwin(MarkerAt(b, id).value, m))
    ensures BoxOk(rules, Committed(rules, b, steps))
  {
    LedgerParts(rules, b);
    RecordsParts(b);
    StepLookup(rules, b, steps[0]);
    MarkersNamed(rules, b);
    MarkerApplied(rules, b, steps[0]);
    OneStepKeeps(rules, b, steps);
  }

  lemma AppendMarkerPlanKeeps(rules: CaseRules, b: Box, m: Marker, stamp: Stamp)
    requires BoxOk(rules, b)
    ensures PlanKeeps(rules, b, PlanAppendMarker(rules, b, m, stamp))
  {
    var plan := PlanAppendMarker(rules, b, m, stamp);
    if plan.Ok? {
      MarkerOnFile(rules, b, m.id);
      BegunHere(rules, b, m.matter_id);
      DocumentTenant(rules, b, m.target_id);
      AppendMarkerPlanned(rules, b, m, stamp);
      OneMarkerKeeps(rules, b, plan.value);
    }
  }

  lemma AppendMarkerKeeps(rules: CaseRules, b: Box, m: Marker, stamp: Stamp)
    requires BoxOk(rules, b)
    ensures BoxOk(rules, After(rules, b, AppendMarker(m), stamp))
  {
    AppendMarkerPlanKeeps(rules, b, m, stamp);
    PlannedKeeps(rules, b, AppendMarker(m), stamp);
  }

  lemma TransitionMarkerPlanned(
    rules: CaseRules, b: Box, id: string, to: MarkerStatus, actor: string, at: string, reason: Option<string>, stamp: Stamp)
    requires MarkerAt(b, id).Some? ==>
      MarkerAt(b, id).value.id == id && Filed(rules, b, AMarker(MarkerAt(b, id).value))
    ensures var plan := PlanTransitionMarker(rules, b, id, to, actor, at, reason, stamp);
      plan.Ok? ==>
        && MarkerAt(b, id).Some? && |plan.value| == 1
        && plan.value[0].x == AMarker(NextMarker(MarkerAt(b, id).value, to, actor, at, reason))
        && StepOk(rules, b, plan.value[0])
        && (to == ConfirmedMarker ==>
              forall other | other in Rows(b.markers, b.markers.home[id]) :: !ConfirmedTwin(other, MarkerAt(b, id).value))
  {
    if PlanTransitionMarker(rules, b, id, to, actor, at, reason, stamp).Ok? {
      var prior := MarkerAt(b, id).value;
      var reasoned := to == DismissedMarker || to == WaivedMarker;
      NextMarkerStays(prior, to, actor, at, reason);
      PlannedSuccessor(
        rules, b, MarkerKind(to), AMarker(prior), AMarker(NextMarker(prior, to, actor, at, reason)), actor, stamp,
        if reasoned then reason else None);
    }
  }

  /** A twin would sit in the same matter, where the scan looks. */
  lemma TwinsShareMatter(rules: CaseRules, b: Box, id: string, other: string)
    requires LedgerOk(rules, b) && TargetsAtHome(b) && MarkerAt(b, id).Some? && MarkerAt(b, other).Some?
    requires MarkerAt(b, other).value.target_id == MarkerAt(b, id).value.target_id
    ensures MarkerAt(b, other).value in Rows(b.markers, b.markers.home[id])
  {
    MarkersIn(rules, b);
    MarkerOnFile(rules, b, id);
    MarkerOnFile(rules, b, other);
    RowIsPlaced(MarkerPlace, b.markers, other);
  }

  /** The scan of one matter rules out a twin in any matter. */
  lemma NoTwinAnywhere(rules: CaseRules, b: Box, id: string, next: Marker, other: string)
    requires LedgerOk(rules, b) && TargetsAtHome(b) && MarkerAt(b, id).Some? && MarkerAt(b, other).Some?
    requires var prior := MarkerAt(b, id).value;
      && next.id == prior.id && next.target_type == prior.target_type && next.target_id == prior.target_id
      && next.kind == prior.kind
      && forall m | m in Rows(b.markers, b.markers.home[id]) :: !ConfirmedTwin(m, prior)
    ensures !ConfirmedTwin(MarkerAt(b, other).value, next)
  {
    var (prior, twin) := (MarkerAt(b, id).value, MarkerAt(b, other).value);
    if ConfirmedTwin(twin, next) {
      TwinsShareMatter(rules, b, id, other);
      assert ConfirmedTwin(twin, prior);
    }
  }

  lemma MarkerStepKeeps(rules: CaseRules, b: Box, id: string, next: Marker, steps: seq<Step>)
    requires BoxOk(rules, b) && MarkerAt(b, id).Some?
    requires |steps| == 1 && steps[0].x == AMarker(next) && StepOk(rules, b, steps[0])
    requires var prior := MarkerAt(b, id).value;
      && next.id == prior.id && next.matter_id == prior.matter_id && next.tenant_id == prior.tenant_id
      && next.target_type == prior.target_type && next.target_id == prior.target_id && next.kind == prior.kind
      && (next.status == ConfirmedMarker ==>
            forall m | m in Rows(b.markers, b.markers.home[id]) :: !ConfirmedTwin(m, prior))
    ensures BoxOk(rules, Committed(rules, b, steps))
  {
    RecordsParts(b);
    forall other: string | next.status == ConfirmedMarker && MarkerAt(b, other).Some? && other != next.id
      ensures !ConfirmedTwin(MarkerAt(b, other).value, next)
    {
      NoTwinAnywhere(rules, b, id, next, other);
    }
    OneMarkerKeeps(rules, b, steps);
  }

  lemma TransitionMarkerPlanKeeps(
    rules: CaseRules, b: Box, id: string, to: MarkerStatus, actor: string, at: string, reason: Option<string>, stamp: Stamp)
    requires BoxOk(rules, b)
    ensures PlanKeeps(rules, b, PlanTransitionMarker(rules, b, id, to, actor, at, reason, stamp))
  {
    var plan := PlanTransitionMarker(rules, b, id, to, actor, at, reason, stamp);
    if plan.Ok? {
      MarkerOnFile(rules, b, id);
      TransitionMarkerPlanned(rules, b, id, to, actor, at, reason, stamp);
      NextMarkerStays(MarkerAt(b, id).value, to, actor, at, reason);
      MarkerStepKeeps(rules, b, id, NextMarker(MarkerAt(b, id).value, to, actor, at, reason), plan.value);
    }
  }

  lemma TransitionMarkerKeeps(
    rules: CaseRules, b: Box, id: string, to: MarkerStatus, actor: string, at: string, reason: Option<string>, stamp: Stamp)
    requires BoxOk(rules, b)
    ensures BoxOk(rules, After(rules, b, TransitionMarker(id, to, actor, at, reason), stamp))
  {
    TransitionMarkerPlanKeeps(rules, b, id, to, actor, at, reason, stamp);
    PlannedKeeps(rules, b, TransitionMarker(id, to, actor, at, reason), stamp);
  }

  lemma NextMarkerStays(prior: Marker, to: MarkerStatus, actor: string, at: string, reason: Option<string>)
    ensures var next := NextMarker(prior, to, actor, at, reason);
      && next.id == prior.id && next.matter_id == prior.matter_id && next.tenant_id == prior.tenant_id
      && next.target_type == prior.target_type && next.target_id == prior.target_id && next.kind == prior.kind
      && (to != ProposedMarker ==> next.status == to)
      && Succeeds(AMarker(prior), AMarker(next))
      && MetaOf(MarkerKind(to)).entity_type == TPrivilegeMarker && MetaOf(MarkerKind(to)).action != Create
  {
  }

  // ----- Matters -----

  lemma MatterFiled(rules: CaseRules, b: Box, id: string)
    requires LedgerOk(rules, b) && id in b.matters
    ensures b.matters[id].id == id && Filed(rules, b, AMatter(b.matters[id]))
    ensures LatestAfter(Chain(b, id), Key(TMatter, id)) == Some(rules.state_hash(AMatter(b.matters[id])))
  {
    MapsIn(rules, b);
    HomeIn(rules, b, Key(TMatter, id));
    ChainOf(rules, b, id);
    assert LatestAfter(Chain(b, id), Key(TMatter, id)) == Expected(rules, b, id, Key(TMatter, id));
  }

  /** A change to a matter that leaves its parties alone. */
  ghost predicate ReplacesMatter(rules: CaseRules, b: Box, id: string, steps: seq<Step>) {
    && |steps| == 1 && StepOk(rules, b, steps[0]) && id in b.matters && steps[0].x.AMatter?
    && steps[0].x.matter.parties == b.matters[id].parties
  }

  lemma ReplacedMatterKeeps(rules: CaseRules, b: Box, id: string, steps: seq<Step>)
    requires BoxOk(rules, b) && ReplacesMatter(rules, b, id, steps)
    ensures BoxOk(rules, Committed(rules, b, steps))
  {
    RecordsParts(b);
    MatterApplied(rules, b, steps[0]);
    OneStepKeeps(rules, b, steps);
  }

  lemma TransitionMatterPlanned(
    rules: CaseRules, b: Box, id: string, to: MatterStatus, actor: string, reason: string, stamp: Stamp)
    requires id in b.matters ==> b.matters[id].id == id && Filed(rules, b, AMatter(b.matters[id]))
    ensures var plan := PlanMatterTransition(rules, b, id, to, actor, reason, stamp);
      plan.Ok? ==> ReplacesMatter(rules, b, id, plan.value)
  {
    if PlanMatterTransition(rules, b, id, to, actor, reason, stamp).Ok? {
      var m := b.matters[id];
      var next := m.(status := to, archived_at := if to == Archived then Some(stamp.now) else None);
      PlannedUpdate(
        rules, b, if to == Archived then MatterArchived else MatterUnarchived, AMatter(m), AMatter(next), actor, stamp,
        Some(reason));
    }
  }

  lemma TransitionMatterKeeps(
    rules: CaseRules, b: Box, id: string, to: MatterStatus, actor: string, reason: string, stamp: Stamp)
    requires BoxOk(rules, b)
    ensures BoxOk(rules, After(rules, b, TransitionMatter(id, to, actor, reason), stamp))
  {
    var plan := PlanMatterTransition(rules, b, id, to, actor, reason, stamp);
    if plan.Ok? {
      MatterFiled(rules, b, id);
      TransitionMatterPlanned(rules, b, id, to, actor, reason, stamp);
      ReplacedMatterKeeps(rules, b, id, plan.value);
    }
  }

  /** In every reachable state all parties have ids, so the backfill has nothing to do. */
  lemma EnsurePartyIdsIsIdle(rules: CaseRules, b: Box, id: string, actor: string, gen: nat -> string, stamp: Stamp)
    requires BoxOk(rules, b) && id in b.matters && actor != ""
    ensures PlanEnsurePartyIds(rules, b, id, actor, gen, stamp) == Ok([])
  {
    RecordsParts(b);
    var parties := b.matters[id].parties;
    assert PartiesOk(parties);
    NothingToAssign(parties, GivenIds(parties), gen, 0);
  }

  /** What an edit may change about a matter. */
  lemma EditKeepsParties(rules: CaseRules, m: Matter, patch: Patch)
    requires EditFields(rules, m, patch, EDITABLE_FIELDS, Edit(m, [])).Ok?
    ensures var next := EditFields(rules, m, patch, EDITABLE_FIELDS, Edit(m, [])).value.next;
      next.id == m.id && next.tenant_id == m.tenant_id && next.parties == m.parties
  {
    EditReportsChanges(rules, m, patch);
  }

  /** Attaching the changed fields leaves an event in its place. */
  lemma WithChangedFields(rules: CaseRules, b: Box, s: Step, names: seq<string>)
    requires StepOk(rules, b, s) && rules.audit.valid(s.e.event.(changed_fields := Some(names)))
    ensures StepOk(rules, b, s.(e := s.e.(event := s.e.event.(changed_fields := Some(names)))))
  {
  }

  lemma UpdateDetailsPlanned(
    rules: CaseRules, b: Box, id: string, patch: Patch, actor: string, reason: string, stamp: Stamp)
    requires id in b.matters ==>
      && b.matters[id].id == id && Filed(rules, b, AMatter(b.matters[id]))
      && LatestAfter(Chain(b, id), Key(TMatter, id)) == Some(rules.state_hash(AMatter(b.matters[id])))
    ensures var plan := PlanUpdateDetails(rules, b, id, patch, actor, reason, stamp);
      && plan != Err(AuditChainDesync)
      && (plan.Ok? ==> ReplacesMatter(rules, b, id, plan.value))
  {
    var plan := PlanUpdateDetails(rules, b, id, patch, actor, reason, stamp);
    if id in b.matters {
      EditFieldsRefuse(rules, b.matters[id], patch, EDITABLE_FIELDS, Edit(b.matters[id], []));
    }
    if plan.Ok? {
      var m := b.matters[id];
      EditKeepsParties(rules, m, patch);
      var edit := EditFields(rules, m, patch, EDITABLE_FIELDS, Edit(m, [])).value;
      PlannedUpdate(rules, b, MatterDetailsUpdated, AMatter(m), AMatter(edit.next), actor, stamp, Some(reason));
      var one := PlanUpdate(
        rules, b, MatterDetailsUpdated, AMatter(m), AMatter(edit.next), actor, stamp, Some(reason)).value[0];
      WithChangedFields(rules, b, one, SortedNames(edit.changed, SORTED_FIELDS));
    }
  }

  lemma UpdateDetailsKeeps(
    rules: CaseRules, b: Box, id: string, patch: Patch, actor: string, reason: string, stamp: Stamp)
    requires BoxOk(rules, b)
    ensures BoxOk(rules, After(rules, b, UpdateDetails(id, patch, actor, reason), stamp))
  {
    var plan := PlanUpdateDetails(rules, b, id, patch, actor, reason, stamp);
    if plan.Ok? {
      MatterFiled(rules, b, id);
      UpdateDetailsPlanned(rules, b, id, patch, actor, reason, stamp);
      ReplacedMatterKeeps(rules, b, id, plan.value);
    }
  }

  /** A details edit never reports that log and state have parted. */
  lemma DetailsNeverDesync(
    rules: CaseRules, b: Box, id: string, patch: Patch, actor: string, reason: string, stamp: Stamp)
    requires BoxOk(rules, b)
    ensures PlanUpdateDetails(rules, b, id, patch, actor, reason, stamp) != Err(AuditChainDesync)
  {
    if id in b.matters {
      MatterFiled(rules, b, id);
    }
    UpdateDetailsPlanned(rules, b, id, patch, actor, reason, stamp);
  }

  // ----- Creating a matter -----

  /** A first event in a fresh chain. */
  ghost predicate GenesisOk(rules: CaseRules, b: Box, s: Step) {
    var e := s.e.event;
    && s.x.AMatter? && s.x.matter.id !in b.matters && s.e.sequence == 1
    && Genesis(e) && Follows(rules.audit, [], e)
    && e.tenant_id == s.x.matter.tenant_id && e.matter_id == s.x.matter.id
    && About(e, KeyOf(s.x)) && e.after_state_hash == rules.state_hash(s.x)
  }

  lemma CreatePlanned(rules: CaseRules, b: Box, m: Matter, gen: nat -> string, stamp: Stamp)
    ensures var plan := PlanCreateMatter(rules, b, m, gen, stamp);
      plan.Ok? ==>
        && |plan.value| == 1 && GenesisOk(rules, b, plan.value[0])
        && AssignPartyIds(m.parties, gen) == Ok(plan.value[0].x.matter.parties)
  {
  }

  lemma CreatedLog(rules: CaseRules, b: Box, s: Step)
    requires s.x.AMatter?
    ensures var (c, m) := (Created(rules, b, s), HomeOf(s.x));
      && Stored(c.log, m) == [s.e]
      && (m in c.log.heads && c.log.heads[m] == Anchor(rules.audit.hash(s.e.event), 1))
      && c.log.events.Keys == b.log.events.Keys + {m}
      && (forall k | k != m :: Stored(c.log, k) == Stored(b.log, k) && (k in b.log.heads ==> k in c.log.heads && c.log.heads[k] == b.log.heads[k]))
  {
    var m := HomeOf(s.x);
    var start := Log(b.log.events[m := []], b.log.heads - {m});
    assert [s.e][..0] == [];
    assert AppendedAll(rules.audit, start, m, [s.e]) == Appended(rules.audit, start, m, s.e);
  }

  lemma CreatedChainOk(rules: CaseRules, b: Box, s: Step)
    requires GenesisOk(rules, b, s)
    ensures var c := Created(rules, b, s);
      && s.x.matter.id in c.matters && ChainOk(rules, c, s.x.matter.id)
      && Chain(c, s.x.matter.id) == [s.e.event] && Continuous(Chain(c, s.x.matter.id))
  {
    var (c, m, e) := (Created(rules, b, s), s.x.matter.id, s.e.event);
    CreatedLog(rules, b, s);
    assert Chain(c, m) == [e];
    FollowingKeepsIntact(rules.audit, [], e);
    assert [] + [e] == [e];
    ContinuousSnoc([], e);
    assert TakesUp([], e);
  }

  lemma CreatedTables(rules: CaseRules, b: Box, s: Step)
    requires TablesOk(b) && s.x.AMatter?
    ensures TablesOk(Created(rules, b, s)) && Holds(b, s.x, Created(rules, b, s))
  {
    PutMatter(b, s.x.matter);
    LogIsApart(Put(b, s.x), Created(rules, b, s).log);
  }

  lemma CreatedHomes(rules: CaseRules, b: Box, s: Step)
    requires HomesOk(b) && GenesisOk(rules, b, s) && Holds(b, s.x, Created(rules, b, s))
    ensures HomesOk(Created(rules, b, s))
  {
    var c := Created(rules, b, s);
    assert c.matters == b.matters[s.x.matter.id := s.x.matter];
    forall key: Key | Lookup(c, key).Some?
      ensures var x := Lookup(c, key).value;
        HomeOf(x) in c.matters && TenantOf(x) == c.matters[HomeOf(x)].tenant_id
    {
      assert key != KeyOf(s.x) ==> Lookup(b, key).Some?;
    }
  }

  /** A matter that was there before. */
  lemma CreatedElsewhere(rules: CaseRules, b: Box, s: Step, m: string)
    requires GenesisOk(rules, b, s) && Holds(b, s.x, Created(rules, b, s)) && m in b.matters && MatterOk(rules, b, m)
    ensures m in Created(rules, b, s).matters && MatterOk(rules, Created(rules, b, s), m)
  {
    var c := Created(rules, b, s);
    CreatedLog(rules, b, s);
    assert c.matters == b.matters[s.x.matter.id := s.x.matter];
    assert Chain(c, m) == Chain(b, m);
    forall key: Key
      ensures LatestAfter(Chain(c, m), key) == Expected(rules, c, m, key)
    {
      assert LatestAfter(Chain(b, m), key) == Expected(rules, b, m, key);
      assert Lookup(c, key) == if key == KeyOf(s.x) then Some(s.x) else Lookup(b, key);
      if key == KeyOf(s.x) {
        assert Lookup(b, key).None?;
      }
    }
  }

  /** The new matter: nothing on file lives there but the matter itself. */
  lemma CreatedHere(rules: CaseRules, b: Box, s: Step)
    requires GenesisOk(rules, b, s) && HomesOk(b) && Holds(b, s.x, Created(rules, b, s))
    ensures var c := Created(rules, b, s);
      s.x.matter.id in c.matters && MatterOk(rules, c, s.x.matter.id)
  {
    var (c, m, e) := (Created(rules, b, s), s.x.matter.id, s.e.event);
    CreatedChainOk(rules, b, s);
    forall key: Key
      ensures LatestAfter(Chain(c, m), key) == Expected(rules, c, m, key)
    {
      assert [] + [e] == [e];
      LatestAfterSnoc([], e, key);
      assert Lookup(c, key) == if key == KeyOf(s.x) then Some(s.x) else Lookup(b, key);
      assert Lookup(b, key).Some? ==> HomeOf(Lookup(b, key).value) in b.matters;
    }
  }

  lemma CreatedMatters(rules: CaseRules, b: Box, s: Step)
    requires GenesisOk(rules, b, s) && HomesOk(b) && MattersOk(rules, b) && Holds(b, s.x, Created(rules, b, s))
    ensures MattersOk(rules, Created(rules, b, s))
  {
    var c := Created(rules, b, s);
    assert c.matters.Keys == b.matters.Keys + {s.x.matter.id};
    forall m | m in c.matters
      ensures MatterOk(rules, c, m)
    {
      if m in b.matters {
        assert MatterOk(rules, b, m);
        CreatedElsewhere(rules, b, s, m);
      } else {
        CreatedHere(rules, b, s);
      }
    }
  }

  lemma CreatedKeepsLedger(rules: CaseRules, b: Box, s: Step)
    requires LedgerOk(rules, b) && GenesisOk(rules, b, s)
    ensures LedgerOk(rules, Created(rules, b, s))
  {
    LedgerParts(rules, b);
    CreatedTables(rules, b, s);
    CreatedHomes(rules, b, s);
    CreatedMatters(rules, b, s);
    CreatedLog(rules, b, s);
    assert Created(rules, b, s).matters.Keys == b.matters.Keys + {s.x.matter.id};
    LedgerFromParts(rules, Created(rules, b, s));
  }

  /** Generated ids are never empty. */
  ghost predicate GeneratesIds(w: Write) {
    match w
    case CreateMatter(_, gen) => forall k: nat :: gen(k) != ""
    case _ => true
  }

  lemma CreateMatterKeeps(rules: CaseRules, b: Box, m: Matter, gen: nat -> string, stamp: Stamp)
    requires BoxOk(rules, b) && forall k: nat :: gen(k) != ""
    ensures BoxOk(rules, After(rules, b, CreateMatter(m, gen), stamp))
  {
    var plan := PlanCreateMatter(rules, b, m, gen, stamp);
    if plan.Ok? {
      CreatePlanned(rules, b, m, gen, stamp);
      AssignedPartiesOk(m.parties, gen);
      CreatedKeepsLedger(rules, b, plan.value[0]);
      MatterApplied(rules, b, plan.value[0]);
    }
  }

  // ----- Every write, every run -----

  lemma EnsurePartyIdsKeeps(rules: CaseRules, b: Box, id: string, actor: string, gen: nat -> string, stamp: Stamp)
    requires BoxOk(rules, b)
    ensures After(rules, b, EnsurePartyIds(id, actor, gen), stamp) == b
  {
    if id in b.matters && actor != "" {
      EnsurePartyIdsIsIdle(rules, b, id, actor, gen, stamp);
      IdlePlan(rules, b, EnsurePartyIds(id, actor, gen), stamp);
    }
  }

  lemma AppendFactOnceKeeps(rules: CaseRules, b: Box, f: Fact, stamp: Stamp)
    requires BoxOk(rules, b)
    ensures BoxOk(rules, After(rules, b, AppendFactOnce(f), stamp))
  {
    if f.id != "" && f.id in b.fact_by_id && b.fact_by_id[f.id] == f {
      IdlePlan(rules, b, AppendFactOnce(f), stamp);
    } else {
      AppendFactKeeps(rules, b, f, stamp);
    }
  }

  /** Every public write, accepted or refused, keeps everything. */
  lemma WriteKeepsBox(rules: CaseRules, b: Box, w: Write, stamp: Stamp)
    requires BoxOk(rules, b) && GeneratesIds(w)
    ensures BoxOk(rules, After(rules, b, w, stamp))
  {
    match w
    case CreateMatter(m, gen) => CreateMatterKeeps(rules, b, m, gen, stamp);
    case TransitionMatter(id, to, actor, reason) => TransitionMatterKeeps(rules, b, id, to, actor, reason, stamp);
    case EnsurePartyIds(id, actor, gen) => EnsurePartyIdsKeeps(rules, b, id, actor, gen, stamp);
    case UpdateDetails(id, patch, actor, reason) => UpdateDetailsKeeps(rules, b, id, patch, actor, reason, stamp);
    case RegisterDocument(id, d) => RegisterDocumentKeeps(rules, b, id, d, stamp);
    case AppendFact(f) => AppendFactKeeps(rules, b, f, stamp);
    case AppendFactOnce(f) => AppendFactOnceKeeps(rules, b, f, stamp);
    case TransitionFact(id, opts) => TransitionFactKeeps(rules, b, id, opts, stamp);
    case AppendEntry(e) => AppendEntryKeeps(rules, b, e, stamp);
    case ConfirmEntry(id, opts) => ConfirmKeeps(rules, b, id, opts, stamp);
    case DismissEntry(id, actor, at, reason) => DismissKeeps(rules, b, id, actor, at, reason, stamp);
    case EditEntry(opts) => EditKeeps(rules, b, opts, stamp);
    case TransitionDeadline(id, to, actor, at, why) => TransitionDeadlineKeeps(rules, b, id, to, actor, at, why, stamp);
    case AppendMarker(m) => AppendMarkerKeeps(rules, b, m, stamp);
    case TransitionMarker(id, to, actor, at, why) => TransitionMarkerKeeps(rules, b, id, to, actor, at, why, stamp);
  }

  datatype Attempt = Attempt(w: Write, stamp: Stamp)

  function AfterAll(rules: CaseRules, b: Box, attempts: seq<Attempt>): Box
    decreases |attempts|
  {
    if attempts == [] then b else AfterAll(rules, After(rules, b, attempts[0].w, attempts[0].stamp), attempts[1..])
  }

  function EmptyBox(): Box {
    Box(
      map[], map[], Index(map[], {}, map[]), map[], Index(map[], {}, map[]), map[], Index(map[], {}, map[]), map[],
      Index(map[], {}, map[]), Log(map[], map[]))
  }

  lemma EmptyIndexOk<R(!new)>(place: R -> Place)
    ensures var t: Index<R> := Index(map[], {}, map[]);
      IndexOk(place, t) && ByIdOk(place, t, map[]) && forall id: string :: RowAt(place, t, id).None?
  {
  }

  lemma EmptyBoxOk(rules: CaseRules)
    ensures BoxOk(rules, EmptyBox())
  {
    var b := EmptyBox();
    EmptyIndexOk(FactPlace);
    EmptyIndexOk(EntryPlace);
    EmptyIndexOk(DeadlinePlace);
    EmptyIndexOk(MarkerPlace);
    assert FactsOk(b) && EntriesOk(b) && DeadlinesOk(b) && MarkersOk(b) && MapsOk(b);
    forall key: Key
      ensures Lookup(b, key).None?
    {
    }
    assert forall id: string :: MarkerAt(b, id).None?;
    assert Acyclic(b.fact_by_id);
    RecordsFromParts(b);
    LedgerFromParts(rules, b);
  }

  /** After any sequence of writes, successful or not, the whole box is in order. */
  lemma {:induction false} EveryRunKeepsBox(rules: CaseRules, b: Box, attempts: seq<Attempt>)
    requires BoxOk(rules, b) && forall a | a in attempts :: GeneratesIds(a.w)
    ensures BoxOk(rules, AfterAll(rules, b, attempts))
    decreases |attempts|
  {
    if attempts != [] {
      assert attempts[0] in attempts;
      WriteKeepsBox(rules, b, attempts[0].w, attempts[0].stamp);
      EveryRunKeepsBox(rules, After(rules, b, attempts[0].w, attempts[0].stamp), attempts[1..]);
    }
  }

  /** So every chain of every reachable state verifies against its anchor. */
  lemma EveryRunVerifies(rules: CaseRules, attempts: seq<Attempt>, m: string)
    requires forall a | a in attempts :: GeneratesIds(a.w)
    requires m in AfterAll(rules, EmptyBox(), attempts).matters
    ensures var b := AfterAll(rules, EmptyBox(), attempts);
      && m in b.log.heads && Passes(rules.audit, Chain(b, m), Some(b.log.heads[m].head_hash))
      && b.log.heads[m].count == |Chain(b, m)|
  {
    EmptyBoxOk(rules);
    EveryRunKeepsBox(rules, EmptyBox(), attempts);
    ChainOf(rules, AfterAll(rules, EmptyBox(), attempts), m);
  }

  /** So log and state are in step in every reachable state: the latest event about a record carries the
      hash of exactly the stored record, there is an event for each record and none for anything else,
      and an update's before-hash is the after-hash of the event before it about the same record. */
  lemma EveryRunInStep(rules: CaseRules, attempts: seq<Attempt>, m: string, key: Key, i: nat)
    requires forall a | a in attempts :: GeneratesIds(a.w)
    requires m in AfterAll(rules, EmptyBox(), attempts).matters
    requires i < |Chain(AfterAll(rules, EmptyBox(), attempts), m)|
    ensures var b := AfterAll(rules, EmptyBox(), attempts);
      var (x, es) := (Lookup(b, key), Chain(b, m));
      var e := es[i];
      && LatestAfter(es, key) ==
        (if x.Some? && HomeOf(x.value) == m then Some(rules.state_hash(x.value)) else None)
      && (e.action != Create ==> e.before_state_hash == LatestAfter(es[..i], Key(e.entity_type, e.entity_id)))
      && (e.action == Create && LatestAfter(es[..i], Key(e.entity_type, e.entity_id)).Some? ==>
            e.kind == Some(FactReplacementAccepted))
  {
    EmptyBoxOk(rules);
    EveryRunKeepsBox(rules, EmptyBox(), attempts);
    var b := AfterAll(rules, EmptyBox(), attempts);
    InStepAt(rules, b, m, key, i);
  }

  lemma InStepAt(rules: CaseRules, b: Box, m: string, key: Key, i: nat)
    requires LedgerOk(rules, b) && m in b.matters && i < |Chain(b, m)|
    ensures LatestAfter(Chain(b, m), key) == Expected(rules, b, m, key)
    ensures TakesUp(Chain(b, m)[..i], Chain(b, m)[i])
  {
    MatterIn(rules, b, m);
  }
}
