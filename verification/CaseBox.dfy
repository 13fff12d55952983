/** The case box repository (`services/case-box-persistence/src/inMemoryRepo.ts`): every write prepares
    its records and events first and only then touches the maps, so a refused write changes nothing. */
module CaseBox {
  import opened Wrappers
  import opened AuditChain
  import opened CaseRecords
  import opened CaseTables
  import opened CaseBoxState
  import opened CaseBoxPlans
  import opened CaseBoxInvariant
  import opened CaseBoxEffects
  import opened Supersession
  import opened MatterEdits

  // ----- The loops of the prepare functions -----

  /** The scan for the newest event about a record. */
  method LatestEventAbout(es: seq<Event>, key: Key) returns (after: Option<string>)
    ensures after == LatestAfter(es, key)
  {
    var i := |es|;
    assert es[..|es|] == es;
    while i > 0
      invariant 0 <= i <= |es| && LatestAfter(es, key) == LatestAfter(es[..i], key)
    {
      i := i - 1;
      assert es[..i + 1][..i] == es[..i];
      if es[i].entity_type == key.entity_type && es[i].entity_id == key.id {
        return Some(es[i].after_state_hash);
      }
    }
    after := None;
  }

  /** The scan for another confirmed marker that says the same. */
  method HasConfirmedTwin(rows: seq<Marker>, prior: Marker) returns (found: bool)
    ensures found <==> exists other | other in rows :: ConfirmedTwin(other, prior)
  {
    for i := 0 to |rows|
      invariant forall k | 0 <= k < i :: !ConfirmedTwin(rows[k], prior)
    {
      var other := rows[i];
      if other.id != prior.id && other.status == ConfirmedMarker && other.target_type == prior.target_type
        && other.target_id == prior.target_id && other.kind == prior.kind
      {
        assert ConfirmedTwin(rows[i], prior);
        return true;
      }
    }
    found := false;
  }

  method PrepareCreateMatter(rules: CaseRules, b: Box, m: Matter, gen: nat -> string, stamp: Stamp) returns (plan: Plan)
    ensures plan == PlanCreateMatter(rules, b, m, gen, stamp)
    ensures plan.Ok? ==> |plan.value| <= 1
  {
    if !rules.valid(AMatter(m)) {
      return Err(InvalidPayload);
    }
    if m.status != Active || m.archived_at.Some? {
      return Err(InvalidInitialState);
    }
    if m.external_ocr_authorized || m.sync_grant_present || m.llm_extraction_opt_in {
      return Err(LocalOnlyExternalFlagRejected);
    }
    if SuccessorFault(b, m) {
      return Err(InvalidPayload);
    }
    if m.id in b.matters {
      return Err(DuplicateId);
    }
    var parties := new Party[|m.parties|](i requires 0 <= i < |m.parties| => m.parties[i]);
    assert parties[..] == m.parties;
    var count := AssignMatterPartyIdsInPlace(parties, gen);
    if count.Err? {
      return Err(count.error);
    }
    var x := AMatter(m.(parties := parties[..]));
    var e := NextEvent(rules, [], MatterRegistered, stamp.event_id, x, m.actor_user_id, None, stamp.now, None);
    plan := if e.None? then Err(InvalidPayload) else Ok([Step(x, e.value)]);
  }

  method PrepareEnsurePartyIds(rules: CaseRules, b: Box, id: string, actor: string, gen: nat -> string, stamp: Stamp)
    returns (plan: Plan)
    ensures plan == PlanEnsurePartyIds(rules, b, id, actor, gen, stamp)
    ensures plan.Ok? ==> |plan.value| <= 1
  {
    if id !in b.matters {
      return Err(UnknownMatter);
    }
    if actor == "" {
      return Err(InvalidArgument);
    }
    var m := b.matters[id];
    var parties := new Party[|m.parties|](i requires 0 <= i < |m.parties| => m.parties[i]);
    assert parties[..] == m.parties;
    var count := AssignMatterPartyIdsInPlace(parties, gen);
    if count.Err? {
      return Err(count.error);
    }
    if count.value == 0 {
      return Ok([]);
    }
    var es := Chain(b, id);
    if es == [] || es[|es| - 1].after_state_hash != rules.state_hash(AMatter(m)) {
      return Err(AuditChainDesync);
    }
    var next := AMatter(m.(parties := parties[..]));
    plan := PlanOne(rules, b, MatterPartyIdsAssigned, next, actor, Some(es[|es| - 1].after_state_hash), stamp, None);
  }

  method PrepareUpdateDetails(
    rules: CaseRules, b: Box, id: string, patch: Patch, actor: string, reason: string, stamp: Stamp)
    returns (plan: Plan)
    ensures plan == PlanUpdateDetails(rules, b, id, patch, actor, reason, stamp)
    ensures plan.Ok? ==> |plan.value| <= 1
  {
    if id !in b.matters {
      return Err(UnknownMatter);
    }
    if actor == "" {
      return Err(InvalidArgument);
    }
    if Blank(rules, reason) {
      return Err(InvalidPayload);
    }
    var m := b.matters[id];
    if m.status != Active {
      return Err(MatterIsArchived);
    }
    if exists key | key in patch :: !Editable(key) {
      return Err(InvalidPayload);
    }
    var edit := DetectChanges(rules, m, patch);
    if edit.Err? {
      return Err(edit.error);
    }
    if edit.value.changed == [] {
      return Err(NoEditableChange);
    }
    var next := AMatter(edit.value.next);
    if !rules.valid(next) {
      return Err(InvalidPayload);
    }
    var last := LatestEventAbout(Chain(b, id), Key(TMatter, id));
    if last.None? || last.value == "" || last.value != rules.state_hash(AMatter(m)) {
      return Err(AuditChainDesync);
    }
    var built := NextEvent(
      rules, Chain(b, id), MatterDetailsUpdated, stamp.event_id, next, actor, last, stamp.now, Some(reason));
    if built.None? {
      return Err(InvalidPayload);
    }
    var e := built.value.event.(changed_fields := Some(SortedNames(edit.value.changed, SORTED_FIELDS)));
    plan := if rules.audit.valid(e) then Ok([Step(next, built.value.(event := e))]) else Err(InvalidPayload);
  }

  method PrepareTransitionFact(rules: CaseRules, b: Box, id: string, opts: FactOpts, stamp: Stamp) returns (plan: Plan)
    ensures plan == PlanTransitionFact(rules, b, id, opts, stamp)
    ensures plan.Ok? ==> |plan.value| <= 1
  {
    if id == "" || opts.reviewer == "" || opts.at == "" || id !in b.facts.home || id !in b.fact_by_id {
      return Err(InvalidArgument);
    }
    var prior := b.fact_by_id[id];
    if opts.to == Rejected && !Given(rules, opts.rejection_reason) {
      return Err(InvalidArgument);
    }
    if opts.to == Accepted && opts.supersedes.Some? {
      var target := opts.supersedes.value;
      if target == "" || target == prior.id || target !in b.fact_by_id
        || b.fact_by_id[target].matter_id != prior.matter_id || b.fact_by_id[target].status != Accepted
      {
        return Err(InvalidArgument);
      }
      var walk := SupersessionWalk(b.fact_by_id, |b.facts.ids|, prior.id, target);
      if walk != Clear {
        return Err(InvalidArgument);
      }
    }
    if !AllowedFact(prior.status, opts.to) {
      return Err(IllegalTransition);
    }
    var next := NextFact(prior, opts);
    if !rules.valid(AFact(next)) {
      return Err(InvalidArgument);
    }
    if !Promotable(next) {
      return Err(InvalidPayload);
    }
    plan := PlanFactEvent(rules, b, prior, opts, stamp);
  }

  method PrepareTransitionMarker(
    rules: CaseRules, b: Box, id: string, to: MarkerStatus, actor: string, at: string, reason: Option<string>, stamp: Stamp)
    returns (plan: Plan)
    ensures plan == PlanTransitionMarker(rules, b, id, to, actor, at, reason, stamp)
    ensures plan.Ok? ==> |plan.value| <= 1
  {
    var found := MarkerAt(b, id);
    if id == "" || actor == "" || at == "" || found.None? {
      return Err(InvalidArgument);
    }
    var prior := found.value;
    var reasoned := to == DismissedMarker || to == WaivedMarker;
    if reasoned && !Given(rules, reason) {
      return Err(InvalidArgument);
    }
    if !AllowedMarker(prior.status, to) {
      return Err(IllegalTransition);
    }
    if to == ConfirmedMarker {
      var twin := HasConfirmedTwin(Rows(b.markers, b.markers.home[id]), prior);
      if twin {
        return Err(InvalidArgument);
      }
    }
    var next := NextMarker(prior, to, actor, at, reason);
    if !rules.valid(AMarker(next)) {
      return Err(InvalidArgument);
    }
    if !rules.valid_marker_times(next) {
      return Err(InvalidPayload);
    }
    plan := PlanUpdate(
      rules, b, MarkerKind(to), AMarker(prior), AMarker(next), actor, stamp, if reasoned then reason else None);
  }

  // ----- The repository -----

  lemma DeadlinePlanIsOne(
    rules: CaseRules, b: Box, id: string, to: DeadlineStatus, actor: string, at: string, reason: Option<string>,
    stamp: Stamp)
    ensures var plan := PlanTransitionDeadline(rules, b, id, to, actor, at, reason, stamp);
      plan.Ok? ==> |plan.value| == 1
  {
  }

  lemma MarkerPlanIsOne(
    rules: CaseRules, b: Box, id: string, to: MarkerStatus, actor: string, at: string, reason: Option<string>, stamp: Stamp)
    ensures var plan := PlanTransitionMarker(rules, b, id, to, actor, at, reason, stamp);
      plan.Ok? ==> |plan.value| == 1
  {
  }

  lemma PutIgnoresLog(b: Box, log: Log, x: Entity)
    ensures Put(b.(log := log), x) == Put(b, x).(log := log)
  {
  }

  class InMemoryCaseBoxPersistence {
    const rules: CaseRules
    const audit: InMemoryAuditLog
    var matters: map<string, Matter>
    var documents: map<string, DocumentSlot>
    var facts: Index<Fact>
    var fact_by_id: map<string, Fact>
    var entries: Index<DocketEntry>
    var entry_by_id: map<string, DocketEntry>
    var deadlines: Index<Deadline>
    var deadline_by_id: map<string, Deadline>
    var markers: Index<Marker>

    function State(): Box
      reads this, audit
    {
      Box(
        matters, documents, facts, fact_by_id, entries, entry_by_id, deadlines, deadline_by_id, markers,
        Log(audit.events, audit.heads))
    }

    ghost predicate Valid() {
      audit.rules == rules.audit
    }

    constructor (rules: CaseRules)
      ensures Valid() && fresh(audit) && this.rules == rules && State() == EmptyBox()
    {
      this.rules := rules;
      audit := new InMemoryAuditLog(rules.audit);
      matters, documents := map[], map[];
      facts, fact_by_id := Index(map[], {}, map[]), map[];
      entries, entry_by_id := Index(map[], {}, map[]), map[];
      deadlines, deadline_by_id := Index(map[], {}, map[]), map[];
      markers := Index(map[], {}, map[]);
    }

    // ----- Storing one record -----

    method StoreFact(f: Fact)
      modifies this
      ensures State() == Put(old(State()), AFact(f))
    {
      if f.id in facts.home {
        var rows := WithRow(FactPlace, Rows(facts, f.matter_id), f);
        facts := facts.(by_matter := facts.by_matter[f.matter_id := rows]);
      } else {
        var rows := Rows(facts, f.matter_id) + [f];
        facts := facts.(by_matter := facts.by_matter[f.matter_id := rows]);
        facts := facts.(ids := facts.ids + {f.id});
        facts := facts.(home := facts.home[f.id := f.matter_id]);
      }
      fact_by_id := fact_by_id[f.id := f];
    }

    method StoreEntry(e: DocketEntry)
      modifies this
      ensures State() == Put(old(State()), AnEntry(e))
    {
      if e.id in entries.home {
        var rows := WithRow(EntryPlace, Rows(entries, e.matter_id), e);
        entries := entries.(by_matter := entries.by_matter[e.matter_id := rows]);
      } else {
        var rows := Rows(entries, e.matter_id) + [e];
        entries := entries.(by_matter := entries.by_matter[e.matter_id := rows]);
        entries := entries.(ids := entries.ids + {e.id});
        entries := entries.(home := entries.home[e.id := e.matter_id]);
      }
      entry_by_id := entry_by_id[e.id := e];
    }

    method StoreDeadline(d: Deadline)
      modifies this
      ensures State() == Put(old(State()), ADeadline(d))
    {
      if d.id in deadlines.home {
        var rows := WithRow(DeadlinePlace, Rows(deadlines, d.matter_id), d);
        deadlines := deadlines.(by_matter := deadlines.by_matter[d.matter_id := rows]);
      } else {
        var rows := Rows(deadlines, d.matter_id) + [d];
        deadlines := deadlines.(by_matter := deadlines.by_matter[d.matter_id := rows]);
        deadlines := deadlines.(ids := deadlines.ids + {d.id});
        deadlines := deadlines.(home := deadlines.home[d.id := d.matter_id]);
      }
      deadline_by_id := deadline_by_id[d.id := d];
    }

    method StoreMarker(m: Marker)
      modifies this
      ensures State() == Put(old(State()), AMarker(m))
    {
      if m.id in markers.home {
        var rows := WithRow(MarkerPlace, Rows(markers, m.matter_id), m);
        markers := markers.(by_matter := markers.by_matter[m.matter_id := rows]);
      } else {
        var rows := Rows(markers, m.matter_id) + [m];
        markers := markers.(by_matter := markers.by_matter[m.matter_id := rows]);
        markers := markers.(ids := markers.ids + {m.id});
        markers := markers.(home := markers.home[m.id := m.matter_id]);
      }
    }

    method Store(x: Entity)
      modifies this
      ensures State() == Put(old(State()), x)
    {
      match x
      case AMatter(m) => matters := matters[m.id := m];
      case ADocument(d) => documents := documents[d.id := DocumentSlot(d, d.matter_id)];
      case AFact(f) => StoreFact(f);
      case AnEntry(e) => StoreEntry(e);
      case ADeadline(d) => StoreDeadline(d);
      case AMarker(m) => StoreMarker(m);
    }

    /** One record and its event. */
    method CommitOne(s: Step)
      requires Valid()
      modifies this, audit
      ensures State() == Applied(rules, old(State()), s)
    {
      Store(s.x);
      audit.Append(HomeOf(s.x), s.e);
    }

    /** Commits a plan of at most one record, or hands on its error. */
    method Commit(plan: Plan) returns (r: Result<Option<Entity>, Error>)
      requires Valid() && (plan.Ok? ==> |plan.value| <= 1)
      modifies this, audit
      ensures State() == if plan.Err? then old(State()) else Committed(rules, old(State()), plan.value)
      ensures r == Reply(plan)
    {
      if plan.Err? {
        return Err(plan.error);
      }
      if plan.value == [] {
        return Ok(None);
      }
      CommittedOne(rules, State(), plan.value);
      CommitOne(plan.value[0]);
      r := Ok(Some(plan.value[0].x));
    }

    // ----- Writes -----

    /** The chain of a new matter starts over. */
    method CreateMatter(m: Matter, gen: nat -> string, stamp: Stamp) returns (r: Result<Matter, Error>)
      requires Valid()
      modifies this, audit
      ensures State() == After(rules, old(State()), Write.CreateMatter(m, gen), stamp)
      ensures r == MatterReply(PlanCreateMatter(rules, old(State()), m, gen, stamp))
      ensures BoxOk(rules, old(State())) && (forall k: nat :: gen(k) != "") ==>
        MatterOpened(rules, old(State()), m, gen, stamp, r, State())
    {
      ghost var b := State();
      var plan := PrepareCreateMatter(rules, State(), m, gen, stamp);
      CreatePlanned(rules, b, m, gen, stamp);
      r := CommitGenesis(plan);
      if BoxOk(rules, b) && forall k: nat :: gen(k) != "" {
        OpeningAMatter(rules, b, m, gen, stamp);
      }
    }

    /** Stores a new matter and seeds its chain, or hands on the error. */
    method CommitGenesis(plan: Plan) returns (r: Result<Matter, Error>)
      requires Valid() && (plan.Ok? ==> |plan.value| == 1 && plan.value[0].x.AMatter?)
      modifies this, audit
      ensures State() == if plan.Err? then old(State()) else Created(rules, old(State()), plan.value[0])
      ensures r == MatterReply(plan)
    {
      if plan.Err? {
        return Err(plan.error);
      }
      var s := plan.value[0];
      matters := matters[s.x.matter.id := s.x.matter];
      audit.Reset(s.x.matter.id, [s.e]);
      r := Ok(s.x.matter);
    }

    method TransitionMatter(id: string, to: MatterStatus, actor: string, reason: string, stamp: Stamp)
      returns (r: Result<Option<Entity>, Error>)
      requires Valid()
      modifies this, audit
      ensures State() == After(rules, old(State()), Write.TransitionMatter(id, to, actor, reason), stamp)
      ensures r == Reply(PlanMatterTransition(rules, old(State()), id, to, actor, reason, stamp))
      ensures BoxOk(rules, old(State())) ==>
        MatterShelved(rules, old(State()), id, to, actor, reason, stamp, r, State())
    {
      ghost var b := State();
      r := Commit(PlanMatterTransition(rules, State(), id, to, actor, reason, stamp));
      if BoxOk(rules, b) {
        ShelvingAMatter(rules, b, id, to, actor, reason, stamp);
      }
    }

    method EnsureMatterPartyIds(id: string, actor: string, gen: nat -> string, stamp: Stamp)
      returns (r: Result<Option<Entity>, Error>)
      requires Valid()
      modifies this, audit
      ensures State() == After(rules, old(State()), EnsurePartyIds(id, actor, gen), stamp)
      ensures r == Reply(PlanEnsurePartyIds(rules, old(State()), id, actor, gen, stamp))
      ensures BoxOk(rules, old(State())) ==>
        State() == old(State()) && if id in old(matters) && actor != "" then r == Ok(None) else r.Err?
    {
      ghost var b := State();
      var plan := PrepareEnsurePartyIds(rules, State(), id, actor, gen, stamp);
      r := Commit(plan);
      if BoxOk(rules, b) {
        BackfillingParties(rules, b, id, actor, gen, stamp);
      }
    }

    method UpdateMatterDetails(id: string, patch: Patch, actor: string, reason: string, stamp: Stamp)
      returns (r: Result<Option<Entity>, Error>)
      requires Valid()
      modifies this, audit
      ensures State() == After(rules, old(State()), UpdateDetails(id, patch, actor, reason), stamp)
      ensures r == Reply(PlanUpdateDetails(rules, old(State()), id, patch, actor, reason, stamp))
      ensures BoxOk(rules, old(State())) ==>
        DetailsCorrected(rules, old(State()), id, patch, actor, reason, stamp, r, State())
    {
      ghost var b := State();
      var plan := PrepareUpdateDetails(rules, State(), id, patch, actor, reason, stamp);
      r := Commit(plan);
      if BoxOk(rules, b) {
        CorrectingDetails(rules, b, id, patch, actor, reason, stamp);
      }
    }

    method RegisterDocument(id: string, d: Document, stamp: Stamp) returns (r: Result<Option<Entity>, Error>)
      requires Valid()
      modifies this, audit
      ensures State() == After(rules, old(State()), Write.RegisterDocument(id, d), stamp)
      ensures r == Reply(PlanRegisterDocument(rules, old(State()), id, d, stamp))
      ensures BoxOk(rules, old(State())) ==>
        DocumentFiled(rules, old(State()), id, d, stamp, r, State())
    {
      ghost var b := State();
      r := Commit(PlanRegisterDocument(rules, State(), id, d, stamp));
      if BoxOk(rules, b) {
        RegisteringADocument(rules, b, id, d, stamp);
      }
    }

    method AppendFact(f: Fact, stamp: Stamp) returns (r: Result<Option<Entity>, Error>)
      requires Valid()
      modifies this, audit
      ensures State() == After(rules, old(State()), Write.AppendFact(f), stamp)
      ensures r == Reply(PlanAppendFact(rules, old(State()), f, stamp))
      ensures BoxOk(rules, old(State())) ==>
        FactAppended(rules, old(State()), f, stamp, r, State())
    {
      ghost var b := State();
      r := Commit(PlanAppendFact(rules, State(), f, stamp));
      if BoxOk(rules, b) {
        AppendingAFact(rules, b, f, stamp);
      }
    }

    method AppendFactOnce(f: Fact, stamp: Stamp) returns (r: Result<Option<Entity>, Error>)
      requires Valid()
      modifies this, audit
      ensures State() == After(rules, old(State()), Write.AppendFactOnce(f), stamp)
      ensures r == Reply(PlanAppendFactOnce(rules, old(State()), f, stamp))
      ensures BoxOk(rules, old(State())) ==>
        FactAppendedOnce(rules, old(State()), f, stamp, r, State())
    {
      ghost var b := State();
      r := Commit(PlanAppendFactOnce(rules, State(), f, stamp));
      if BoxOk(rules, b) {
        AppendingAFactOnce(rules, b, f, stamp);
      }
    }

    method TransitionFact(id: string, opts: FactOpts, stamp: Stamp) returns (r: Result<Option<Entity>, Error>)
      requires Valid()
      modifies this, audit
      ensures State() == After(rules, old(State()), Write.TransitionFact(id, opts), stamp)
      ensures r == Reply(PlanTransitionFact(rules, old(State()), id, opts, stamp))
      ensures BoxOk(rules, old(State())) ==>
        FactMoved(rules, old(State()), id, opts, stamp, r, State())
    {
      ghost var b := State();
      var plan := PrepareTransitionFact(rules, State(), id, opts, stamp);
      r := Commit(plan);
      if BoxOk(rules, b) {
        MovingAFact(rules, b, id, opts, stamp);
      }
    }

    method AppendDocketEntry(e: DocketEntry, stamp: Stamp) returns (r: Result<Option<Entity>, Error>)
      requires Valid()
      modifies this, audit
      ensures State() == After(rules, old(State()), AppendEntry(e), stamp)
      ensures r == Reply(PlanAppendEntry(rules, old(State()), e, stamp))
      ensures BoxOk(rules, old(State())) ==>
        EntryProposed(rules, old(State()), e, stamp, r, State())
    {
      ghost var b := State();
      r := Commit(PlanAppendEntry(rules, State(), e, stamp));
      if BoxOk(rules, b) {
        ProposingAnEntry(rules, b, e, stamp);
      }
    }

    /** Entry and deadline first, then both events: the same state as one step after the other. */
    method ConfirmDocketEntry(id: string, opts: ConfirmOpts, stamp: Stamp)
      returns (r: Result<(DocketEntry, Deadline, bool), Error>)
      requires Valid()
      modifies this, audit
      ensures State() == After(rules, old(State()), ConfirmEntry(id, opts), stamp)
      ensures r == ConfirmReply(old(State()), id, PlanConfirmEntry(rules, old(State()), id, opts, stamp))
      ensures BoxOk(rules, old(State())) ==>
        EntryConfirmed(rules, old(State()), id, opts, stamp, r, State())
    {
      ghost var b := State();
      ConfirmPlanShape(rules, b, id, opts, stamp);
      r := CommitConfirmation(id, PlanConfirmEntry(rules, State(), id, opts, stamp));
      if BoxOk(rules, b) {
        ConfirmingAnEntry(rules, b, id, opts, stamp);
      }
    }

    method CommitConfirmation(id: string, plan: Plan) returns (r: Result<(DocketEntry, Deadline, bool), Error>)
      requires Valid()
      requires plan.Ok? && plan.value != [] ==>
        && |plan.value| == 2 && plan.value[0].x.AnEntry? && plan.value[1].x.ADeadline?
        && HomeOf(plan.value[0].x) == HomeOf(plan.value[1].x)
      modifies this, audit
      ensures State() == if plan.Err? then old(State()) else Committed(rules, old(State()), plan.value)
      ensures r == ConfirmReply(old(State()), id, plan)
    {
      r := ConfirmReply(State(), id, plan);
      if plan.Ok? && plan.value != [] {
        CommitBoth(plan.value);
      }
    }

    method CommitBoth(steps: seq<Step>)
      requires Valid() && |steps| == 2 && steps[0].x.AnEntry? && steps[1].x.ADeadline?
      requires HomeOf(steps[0].x) == HomeOf(steps[1].x)
      modifies this, audit
      ensures State() == Committed(rules, old(State()), steps)
    {
      BothCommitted(rules, State(), steps);
      StoreEntry(steps[0].x.entry);
      StoreDeadline(steps[1].x.deadline);
      audit.AppendAll(HomeOf(steps[0].x), [steps[0].e, steps[1].e]);
    }

    method DismissDocketEntry(id: string, actor: string, at: string, reason: string, stamp: Stamp)
      returns (r: Result<Option<Entity>, Error>)
      requires Valid()
      modifies this, audit
      ensures State() == After(rules, old(State()), DismissEntry(id, actor, at, reason), stamp)
      ensures r == Reply(PlanDismissEntry(rules, old(State()), id, actor, at, reason, stamp))
      ensures BoxOk(rules, old(State())) ==>
        EntryDismissed(rules, old(State()), id, actor, at, reason, stamp, r, State())
    {
      ghost var b := State();
      r := Commit(PlanDismissEntry(rules, State(), id, actor, at, reason, stamp));
      if BoxOk(rules, b) {
        DismissingAnEntry(rules, b, id, actor, at, reason, stamp);
      }
    }

    method EditDocketEntry(opts: EditOpts, stamp: Stamp) returns (r: Result<Option<Entity>, Error>)
      requires Valid()
      modifies this, audit
      ensures State() == After(rules, old(State()), EditEntry(opts), stamp)
      ensures r == Reply(PlanEditEntry(rules, old(State()), opts, stamp))
      ensures BoxOk(rules, old(State())) ==>
        EntryEdited(rules, old(State()), opts, stamp, r, State())
    {
      ghost var b := State();
      r := Commit(PlanEditEntry(rules, State(), opts, stamp));
      if BoxOk(rules, b) {
        EditingAnEntry(rules, b, opts, stamp);
      }
    }

    method TransitionDeadline(
      id: string, to: DeadlineStatus, actor: string, at: string, reason: Option<string>, stamp: Stamp)
      returns (r: Result<Option<Entity>, Error>)
      requires Valid()
      modifies this, audit
      ensures State() == After(rules, old(State()), Write.TransitionDeadline(id, to, actor, at, reason), stamp)
      ensures r == Reply(PlanTransitionDeadline(rules, old(State()), id, to, actor, at, reason, stamp))
      ensures BoxOk(rules, old(State())) ==>
        DeadlineTurned(rules, old(State()), id, to, actor, at, reason, stamp, r, State())
    {
      ghost var b := State();
      var plan := PlanTransitionDeadline(rules, State(), id, to, actor, at, reason, stamp);
      AfterCommits(rules, State(), Write.TransitionDeadline(id, to, actor, at, reason), stamp, plan);
      DeadlinePlanIsOne(rules, State(), id, to, actor, at, reason, stamp);
      r := Commit(plan);
      if BoxOk(rules, b) {
        TurningADeadline(rules, b, id, to, actor, at, reason, stamp);
      }
    }

    method AppendPrivilegeMarker(m: Marker, stamp: Stamp) returns (r: Result<Option<Entity>, Error>)
      requires Valid()
      modifies this, audit
      ensures State() == After(rules, old(State()), AppendMarker(m), stamp)
      ensures r == Reply(PlanAppendMarker(rules, old(State()), m, stamp))
      ensures BoxOk(rules, old(State())) ==>
        MarkerProposed(rules, old(State()), m, stamp, r, State())
    {
      ghost var b := State();
      r := Commit(PlanAppendMarker(rules, State(), m, stamp));
      if BoxOk(rules, b) {
        ProposingAMarker(rules, b, m, stamp);
      }
    }

    method TransitionPrivilegeMarker(
      id: string, to: MarkerStatus, actor: string, at: string, reason: Option<string>, stamp: Stamp)
      returns (r: Result<Option<Entity>, Error>)
      requires Valid()
      modifies this, audit
      ensures State() == After(rules, old(State()), TransitionMarker(id, to, actor, at, reason), stamp)
      ensures r == Reply(PlanTransitionMarker(rules, old(State()), id, to, actor, at, reason, stamp))
      ensures BoxOk(rules, old(State())) ==>
        MarkerDecided(rules, old(State()), id, to, actor, at, reason, stamp, r, State())
    {
      ghost var b := State();
      var plan := PrepareTransitionMarker(rules, State(), id, to, actor, at, reason, stamp);
      AfterCommits(rules, State(), TransitionMarker(id, to, actor, at, reason), stamp, plan);
      MarkerPlanIsOne(rules, State(), id, to, actor, at, reason, stamp);
      r := Commit(plan);
      if BoxOk(rules, b) {
        DecidingAMarker(rules, b, id, to, actor, at, reason, stamp);
      }
    }

    // ----- Reads -----

    /** The audit verdict on a matter: in every reachable state it passes. */
    method VerifyAuditChainForMatter(matter_id: string) returns (r: Result<Verdict, Error>)
      requires Valid()
      ensures r.Err? <==> matter_id !in matters
      ensures BoxOk(rules, State()) && r.Ok? ==>
        && r.value.Verified? && matter_id in audit.heads
        && r.value.count == audit.heads[matter_id].count && r.value.head == Some(audit.heads[matter_id].head_hash)
    {
      if matter_id !in matters {
        return Err(UnknownMatter);
      }
      if BoxOkGhost() {
        ChainOf(rules, State(), matter_id);
      }
      var v := audit.VerifyForMatter(matter_id);
      r := Ok(v);
    }

    ghost predicate BoxOkGhost()
      reads this, audit
    {
      BoxOk(rules, State())
    }

    /** The whole supersession chain of a fact, as far as the reader may see it. */
    method GetFactSupersessionChain(tenant_id: string, matter_id: string, fact_id: string)
      returns (r: Result<seq<Fact>, Error>)
      ensures r.Err? <==> matter_id in matters && matters[matter_id].tenant_id != tenant_id
      ensures BoxOk(rules, State()) && r.Ok? && r.value != [] ==>
        && Linked(r.value) && r.value[0].id == fact_id && r.value[|r.value| - 1].supersedes_fact_id.None?
        && OnFile(fact_by_id, r.value, matter_id, tenant_id)
      ensures BoxOk(rules, State()) && r.Ok? && r.value == [] ==>
        matter_id !in matters || fact_id !in fact_by_id || fact_by_id[fact_id].matter_id != matter_id
    {
      if matter_id !in matters {
        return Ok([]);
      }
      if matters[matter_id].tenant_id != tenant_id {
        return Err(WrongTenant);
      }
      if fact_id !in fact_by_id {
        return Ok([]);
      }
      if BoxOkGhost() {
        FactOnFile(rules, State(), fact_id);
        FactIdsCount(rules, State());
        RecordsParts(State());
      }
      var start := fact_by_id[fact_id];
      if start.matter_id != matter_id || start.tenant_id != tenant_id || start.id != fact_id {
        return Ok([]);
      }
      var chain := CollectChain(fact_by_id, facts.ids, start, matter_id, tenant_id);
      r := Ok(chain);
    }
  }

  lemma FactIdsCount(rules: CaseRules, b: Box)
    requires LedgerOk(rules, b)
    ensures b.facts.ids == b.fact_by_id.Keys
  {
    forall id: string
      ensures id in b.facts.ids <==> id in b.fact_by_id
    {
      FactOnFile(rules, b, id);
    }
  }

  lemma ConfirmPlanShape(rules: CaseRules, b: Box, id: string, opts: ConfirmOpts, stamp: Stamp)
    ensures var plan := PlanConfirmEntry(rules, b, id, opts, stamp);
      && (plan.Ok? && plan.value != [] ==>
            && |plan.value| == 2 && plan.value[0].x.AnEntry? && plan.value[1].x.ADeadline?
            && HomeOf(plan.value[0].x) == HomeOf(plan.value[1].x))
      && (plan.Ok? && plan.value == [] ==> id in b.entry_by_id && AlreadyConfirmed(b, b.entry_by_id[id]))
  {
  }

  lemma BothCommitted(rules: CaseRules, b: Box, steps: seq<Step>)
    requires |steps| == 2 && HomeOf(steps[0].x) == HomeOf(steps[1].x)
    ensures Committed(rules, b, steps) ==
      Put(Put(b, steps[0].x), steps[1].x).(
        log := AppendedAll(rules.audit, b.log, HomeOf(steps[0].x), [steps[0].e, steps[1].e]))
  {
    var (m, es) := (HomeOf(steps[0].x), [steps[0].e, steps[1].e]);
    CommittedTwo(rules, b, steps);
    assert es[..1] == [steps[0].e] && es[..1][..0] == [];
    assert AppendedAll(rules.audit, b.log, m, es[..1]) == Appended(rules.audit, b.log, m, steps[0].e);
    PutIgnoresLog(Put(b, steps[0].x), Appended(rules.audit, b.log, m, steps[0].e), steps[1].x);
  }
}
