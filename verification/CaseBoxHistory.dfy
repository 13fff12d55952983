/** The lives of case box records over all runs: every change is a legal step of the record's life cycle
    that leaves its provenance alone, the fields of a record always fit its status, a record never
    disappears, and one that has reached the end of its life never changes again. */
module CaseBoxHistory {
  import opened Wrappers
  import opened AuditChain
  import opened CaseRecords
  import opened CaseBoxState
  import opened CaseBoxPlans
  import opened CaseBoxInvariant
  import opened MatterEdits

  // ----- Fields that fit the status -----

  predicate FactFits(rules: CaseRules, f: Fact) {
    match f.status
    case Candidate => NewFact(f)
    case Reviewed =>
      && f.reviewer_actor_user_id.Some? && f.reviewed_at.Some?
      && f.accepted_at.None? && f.rejected_at.None? && f.rejection_reason.None? && f.supersedes_fact_id.None?
    case Accepted =>
      && f.reviewer_actor_user_id.Some? && f.reviewed_at.Some? && f.accepted_at.Some?
      && f.rejected_at.None? && f.rejection_reason.None?
    case Rejected =>
      && f.reviewer_actor_user_id.Some? && f.reviewed_at.Some? && f.rejected_at.Some?
      && Given(rules, f.rejection_reason) && f.accepted_at.None? && f.supersedes_fact_id.None?
  }

  predicate EntryFits(rules: CaseRules, e: DocketEntry) {
    match e.confirmation_state
    case ProposedEntry => NewEntry(e)
    case ConfirmedEntry =>
      && e.confirmation_actor_user_id.Some? && e.confirmed_at.Some? && e.confirmed_deadline_id.Some?
      && e.dismissal_actor_user_id.None? && e.dismissed_at.None? && e.dismissal_reason.None?
    case DismissedEntry =>
      && e.dismissal_actor_user_id.Some? && e.dismissed_at.Some? && Given(rules, e.dismissal_reason)
      && e.confirmation_actor_user_id.None? && e.confirmed_at.None? && e.confirmed_deadline_id.None?
  }

  predicate DeadlineFits(rules: CaseRules, d: Deadline) {
    && (d.met_at.Some? <==> d.status == Met)
    && (d.previous_status.Some? ==> d.status == Met && d.previous_status == Some(Missed) && Given(rules, d.transition_reason))
    && (d.previous_status.None? ==> d.transition_reason.None?)
  }

  predicate MarkerFits(rules: CaseRules, m: Marker) {
    && m.proposed_at.Some?
    && (m.confirmed_actor_user_id.Some? <==> m.status in {ConfirmedMarker, WaivedMarker})
    && (m.confirmed_at.Some? <==> m.status in {ConfirmedMarker, WaivedMarker})
    && (m.dismissed_actor_user_id.Some? <==> m.status == DismissedMarker)
    && (m.dismissed_at.Some? <==> m.status == DismissedMarker)
    && (if m.status == DismissedMarker then Given(rules, m.dismissal_reason) else m.dismissal_reason.None?)
    && (m.waiver_actor_user_id.Some? <==> m.status == WaivedMarker)
    && (m.waived_at.Some? <==> m.status == WaivedMarker)
    && (if m.status == WaivedMarker then Given(rules, m.waiver_reason) else m.waiver_reason.None?)
  }

  predicate Coherent(rules: CaseRules, x: Entity) {
    match x
    case AMatter(m) => (m.archived_at.Some? <==> m.status == Archived) && PartiesOk(m.parties)
    case ADocument(d) => d.status == Registered
    case AFact(f) => FactFits(rules, f)
    case AnEntry(e) => EntryFits(rules, e)
    case ADeadline(d) => DeadlineFits(rules, d)
    case AMarker(m) => MarkerFits(rules, m)
  }

  // ----- Steps of a life -----

  /** The fact moves along an edge; where it came from stays. */
  predicate FactBecomes(f: Fact, next: Fact) {
    && AllowedFact(f.status, next.status)
    && next.actor_user_id == f.actor_user_id && next.source_document_id == f.source_document_id && next.body == f.body
    && (f.status == Reviewed && f.reviewed_at.Some? ==> next.reviewed_at == f.reviewed_at)
    && (f.status == Reviewed && f.reviewer_actor_user_id.Some? ==> next.reviewer_actor_user_id == f.reviewer_actor_user_id)
    && (next.supersedes_fact_id != f.supersedes_fact_id ==> next.status == Accepted)
  }

  /** An edit replaces the proposal of a proposed entry; a decision leaves the proposal alone. */
  predicate EntryBecomes(e: DocketEntry, next: DocketEntry) {
    && next.actor_user_id == e.actor_user_id && next.source_document_id == e.source_document_id
    && next.source_rule_citation == e.source_rule_citation && next.body == e.body
    && if next.confirmation_state == e.confirmation_state then
         e.confirmation_state == ProposedEntry && next == e.(proposal := next.proposal, revised_at := next.revised_at)
       else
         && AllowedEntry(e.confirmation_state, next.confirmation_state)
         && next.proposal == e.proposal && next.revised_at == e.revised_at
  }

  predicate MarkerBecomes(m: Marker, next: Marker) {
    && AllowedMarker(m.status, next.status)
    && next.actor_user_id == m.actor_user_id && next.target_type == m.target_type && next.target_id == m.target_id
    && next.kind == m.kind && next.proposed_at == m.proposed_at && next.body == m.body
    && (m.status == ConfirmedMarker ==>
          next.confirmed_at == m.confirmed_at && next.confirmed_actor_user_id == m.confirmed_actor_user_id)
  }

  /** Archiving and unarchiving touch the status only; an edit touches the texts of an active matter only. */
  predicate MatterBecomes(m: Matter, next: Matter) {
    || (AllowedMatter(m.status, next.status) && next == m.(status := next.status, archived_at := next.archived_at))
    || (m.status == Active && next == m.(texts := next.texts))
  }

  predicate Becomes(prior: Entity, next: Entity) {
    && Succeeds(prior, next)
    && match (prior, next)
       case (AMatter(m), AMatter(n)) => MatterBecomes(m, n)
       case (AFact(f), AFact(n)) => FactBecomes(f, n)
       case (AnEntry(e), AnEntry(n)) => EntryBecomes(e, n)
       case (ADeadline(d), ADeadline(n)) => AllowedDeadline(d.status, n.status) && SameDuty(d, n)
       case (AMarker(m), AMarker(n)) => MarkerBecomes(m, n)
       case _ => false
  }

  /** The end of a life. A matter has none: it can always be archived and taken up again. */
  predicate Ended(x: Entity) {
    match x
    case AMatter(_) => false
    case ADocument(_) => true
    case AFact(f) => f.status == Accepted || f.status == Rejected
    case AnEntry(e) => e.confirmation_state != ProposedEntry
    case ADeadline(d) => d.status == Met || d.status == Withdrawn
    case AMarker(m) => m.status == DismissedMarker || m.status == WaivedMarker
  }

  lemma EndedBecomesNothing(x: Entity, next: Entity)
    requires Ended(x)
    ensures !Becomes(x, next)
  {
  }

  /** A step that begins a life in good order or takes it one legal step further. */
  ghost predicate Legal(rules: CaseRules, b: Box, s: Step) {
    var prior := Lookup(b, KeyOf(s.x));
    if prior.None? then Coherent(rules, s.x)
    else Becomes(prior.value, s.x) && (Coherent(rules, prior.value) ==> Coherent(rules, s.x))
  }

  // ----- Each write plans legal steps -----

  ghost predicate AllLegal(rules: CaseRules, b: Box, plan: Plan) {
    plan.Ok? ==> forall s | s in plan.value :: Legal(rules, b, s)
  }

  lemma NextFactLegal(rules: CaseRules, b: Box, prior: Fact, opts: FactOpts)
    requires AllowedFact(prior.status, opts.to) && (opts.to == Rejected ==> Given(rules, opts.rejection_reason))
    ensures FactBecomes(prior, NextFact(prior, opts)) && Succeeds(AFact(prior), AFact(NextFact(prior, opts)))
    ensures FactFits(rules, prior) ==> FactFits(rules, NextFact(prior, opts))
  {
  }

  /** What an accepted move of a fact stores, and what was checked before. */
  lemma TransitionFactStores(rules: CaseRules, b: Box, id: string, opts: FactOpts, stamp: Stamp)
    requires PlanTransitionFact(rules, b, id, opts, stamp).Ok?
    ensures var steps := PlanTransitionFact(rules, b, id, opts, stamp).value;
      && id in b.fact_by_id && |steps| == 1 && steps[0].x == AFact(NextFact(b.fact_by_id[id], opts))
      && AllowedFact(b.fact_by_id[id].status, opts.to) && (opts.to == Rejected ==> Given(rules, opts.rejection_reason))
  {
  }

  lemma NextStepLegal(rules: CaseRules, b: Box, prior: Entity, steps: seq<Step>)
    requires |steps| == 1 && Lookup(b, KeyOf(prior)) == Some(prior) && Becomes(prior, steps[0].x)
    requires Coherent(rules, prior) ==> Coherent(rules, steps[0].x)
    ensures AllLegal(rules, b, Ok(steps))
  {
  }

  lemma TransitionFactLegal(rules: CaseRules, b: Box, id: string, opts: FactOpts, stamp: Stamp)
    requires id in b.fact_by_id ==> Lookup(b, Key(TFact, id)) == Some(AFact(b.fact_by_id[id])) && b.fact_by_id[id].id == id
    ensures AllLegal(rules, b, PlanTransitionFact(rules, b, id, opts, stamp))
  {
    var plan := PlanTransitionFact(rules, b, id, opts, stamp);
    if plan.Ok? {
      TransitionFactStores(rules, b, id, opts, stamp);
      NextFactLegal(rules, b, b.fact_by_id[id], opts);
      NextStepLegal(rules, b, AFact(b.fact_by_id[id]), plan.value);
    }
  }

  lemma AppendFactLegal(rules: CaseRules, b: Box, f: Fact, stamp: Stamp)
    requires f.id !in b.facts.ids ==> Lookup(b, Key(TFact, f.id)).None?
    ensures AllLegal(rules, b, PlanAppendFact(rules, b, f, stamp))
  {
  }

  lemma AppendEntryLegal(rules: CaseRules, b: Box, e: DocketEntry, stamp: Stamp)
    requires e.id !in b.entries.ids ==> Lookup(b, Key(TDocketEntry, e.id)).None?
    ensures AllLegal(rules, b, PlanAppendEntry(rules, b, e, stamp))
  {
  }

  lemma ConfirmLegal(rules: CaseRules, b: Box, id: string, opts: ConfirmOpts, stamp: Stamp)
    requires id in b.entry_by_id ==>
      Lookup(b, Key(TDocketEntry, id)) == Some(AnEntry(b.entry_by_id[id])) && b.entry_by_id[id].id == id
    requires opts.deadline_id !in b.deadlines.ids ==> Lookup(b, Key(TDeadline, opts.deadline_id)).None?
    ensures AllLegal(rules, b, PlanConfirmEntry(rules, b, id, opts, stamp))
  {
    var plan := PlanConfirmEntry(rules, b, id, opts, stamp);
    if plan.Ok? && plan.value != [] {
      ConfirmGuards(rules, b, id, opts, stamp);
      var next := ConfirmedAs(b.entry_by_id[id], opts);
      assert Legal(rules, b, plan.value[0]);
      assert Legal(rules, b, plan.value[1]);
    }
  }

  lemma DismissLegal(rules: CaseRules, b: Box, id: string, actor: string, at: string, reason: string, stamp: Stamp)
    requires id in b.entry_by_id ==>
      Lookup(b, Key(TDocketEntry, id)) == Some(AnEntry(b.entry_by_id[id])) && b.entry_by_id[id].id == id
    ensures AllLegal(rules, b, PlanDismissEntry(rules, b, id, actor, at, reason, stamp))
  {
  }

  lemma EditLegal(rules: CaseRules, b: Box, opts: EditOpts, stamp: Stamp)
    requires opts.entry_id in b.entry_by_id ==>
      && Lookup(b, Key(TDocketEntry, opts.entry_id)) == Some(AnEntry(b.entry_by_id[opts.entry_id]))
      && b.entry_by_id[opts.entry_id].id == opts.entry_id
    ensures AllLegal(rules, b, PlanEditEntry(rules, b, opts, stamp))
  {
  }

  lemma NextDeadlineLegal(rules: CaseRules, prior: Deadline, to: DeadlineStatus, at: string, reason: Option<string>)
    requires AllowedDeadline(prior.status, to) && (Late(prior, to) ==> Given(rules, reason))
    ensures var next := NextDeadline(prior, to, at, reason);
      next.status == to && (DeadlineFits(rules, prior) ==> DeadlineFits(rules, next))
  {
  }

  lemma TransitionDeadlineLegal(
    rules: CaseRules, b: Box, id: string, to: DeadlineStatus, actor: string, at: string, reason: Option<string>,
    stamp: Stamp)
    requires id in b.deadline_by_id ==>
      Lookup(b, Key(TDeadline, id)) == Some(ADeadline(b.deadline_by_id[id])) && b.deadline_by_id[id].id == id
    ensures AllLegal(rules, b, PlanTransitionDeadline(rules, b, id, to, actor, at, reason, stamp))
  {
    if PlanTransitionDeadline(rules, b, id, to, actor, at, reason, stamp).Ok? {
      NextDeadlineLegal(rules, b.deadline_by_id[id], to, at, reason);
      NextDeadlineStays(b.deadline_by_id[id], to, at, reason);
    }
  }

  lemma AppendMarkerLegal(rules: CaseRules, b: Box, m: Marker, stamp: Stamp)
    requires m.id !in b.markers.ids ==> Lookup(b, Key(TPrivilegeMarker, m.id)).None?
    ensures AllLegal(rules, b, PlanAppendMarker(rules, b, m, stamp))
  {
  }

  lemma NextMarkerLegal(rules: CaseRules, prior: Marker, to: MarkerStatus, actor: string, at: string, reason: Option<string>)
    requires AllowedMarker(prior.status, to)
    requires to == DismissedMarker || to == WaivedMarker ==> Given(rules, reason)
    ensures var next := NextMarker(prior, to, actor, at, reason);
      MarkerBecomes(prior, next) && Succeeds(AMarker(prior), AMarker(next))
      && (MarkerFits(rules, prior) ==> MarkerFits(rules, next))
  {
  }

  lemma TransitionMarkerLegal(
    rules: CaseRules, b: Box, id: string, to: MarkerStatus, actor: string, at: string, reason: Option<string>, stamp: Stamp)
    requires MarkerAt(b, id).Some? ==> MarkerAt(b, id).value.id == id
    ensures AllLegal(rules, b, PlanTransitionMarker(rules, b, id, to, actor, at, reason, stamp))
  {
    if PlanTransitionMarker(rules, b, id, to, actor, at, reason, stamp).Ok? {
      NextMarkerLegal(rules, MarkerAt(b, id).value, to, actor, at, reason);
      NextMarkerStays(MarkerAt(b, id).value, to, actor, at, reason);
    }
  }

  lemma RegisterDocumentLegal(rules: CaseRules, b: Box, id: string, d: Document, stamp: Stamp)
    ensures AllLegal(rules, b, PlanRegisterDocument(rules, b, id, d, stamp))
  {
  }

  lemma TransitionMatterLegal(
    rules: CaseRules, b: Box, id: string, to: MatterStatus, actor: string, reason: string, stamp: Stamp)
    requires id in b.matters ==> b.matters[id].id == id
    ensures AllLegal(rules, b, PlanMatterTransition(rules, b, id, to, actor, reason, stamp))
  {
  }

  lemma UpdateDetailsLegal(
    rules: CaseRules, b: Box, id: string, patch: Patch, actor: string, reason: string, stamp: Stamp)
    requires id in b.matters ==> b.matters[id].id == id
    ensures AllLegal(rules, b, PlanUpdateDetails(rules, b, id, patch, actor, reason, stamp))
  {
    if PlanUpdateDetails(rules, b, id, patch, actor, reason, stamp).Ok? {
      EditReportsChanges(rules, b.matters[id], patch);
    }
  }

  lemma CreateMatterLegal(rules: CaseRules, b: Box, m: Matter, gen: nat -> string, stamp: Stamp)
    requires forall k: nat :: gen(k) != ""
    ensures AllLegal(rules, b, PlanCreateMatter(rules, b, m, gen, stamp))
  {
    if PlanCreateMatter(rules, b, m, gen, stamp).Ok? {
      AssignedPartiesOk(m.parties, gen);
    }
  }

  lemma MatterWriteIsLegal(rules: CaseRules, b: Box, w: Write, stamp: Stamp)
    requires BoxOk(rules, b) && GeneratesIds(w)
    requires w.CreateMatter? || w.TransitionMatter? || w.EnsurePartyIds? || w.UpdateDetails?
    ensures AllLegal(rules, b, PlanOf(rules, b, w, stamp))
  {
    MapsIn(rules, b);
    match w
    case CreateMatter(m, gen) => CreateMatterLegal(rules, b, m, gen, stamp);
    case TransitionMatter(id, to, actor, reason) => TransitionMatterLegal(rules, b, id, to, actor, reason, stamp);
    case EnsurePartyIds(id, actor, gen) =>
      if id in b.matters && actor != "" {
        EnsurePartyIdsIsIdle(rules, b, id, actor, gen, stamp);
      }
    case UpdateDetails(id, patch, actor, reason) => UpdateDetailsLegal(rules, b, id, patch, actor, reason, stamp);
  }

  lemma FactWriteIsLegal(rules: CaseRules, b: Box, w: Write, stamp: Stamp)
    requires BoxOk(rules, b) && (w.RegisterDocument? || w.AppendFact? || w.AppendFactOnce? || w.TransitionFact?)
    ensures AllLegal(rules, b, PlanOf(rules, b, w, stamp))
  {
    match w
    case RegisterDocument(id, d) => RegisterDocumentLegal(rules, b, id, d, stamp);
    case AppendFact(f) =>
      FactOnFile(rules, b, f.id);
      AppendFactLegal(rules, b, f, stamp);
    case AppendFactOnce(f) =>
      FactOnFile(rules, b, f.id);
      AppendFactLegal(rules, b, f, stamp);
    case TransitionFact(id, opts) =>
      FactOnFile(rules, b, id);
      TransitionFactLegal(rules, b, id, opts, stamp);
  }

  lemma EntryWriteIsLegal(rules: CaseRules, b: Box, w: Write, stamp: Stamp)
    requires BoxOk(rules, b) && (w.AppendEntry? || w.ConfirmEntry? || w.DismissEntry? || w.EditEntry?)
    ensures AllLegal(rules, b, PlanOf(rules, b, w, stamp))
  {
    match w
    case AppendEntry(e) =>
      EntryOnFile(rules, b, e.id);
      AppendEntryLegal(rules, b, e, stamp);
    case ConfirmEntry(id, opts) =>
      EntryOnFile(rules, b, id);
      DeadlineOnFile(rules, b, opts.deadline_id);
      ConfirmLegal(rules, b, id, opts, stamp);
    case DismissEntry(id, actor, at, reason) =>
      EntryOnFile(rules, b, id);
      DismissLegal(rules, b, id, actor, at, reason, stamp);
    case EditEntry(opts) =>
      EntryOnFile(rules, b, opts.entry_id);
      EditLegal(rules, b, opts, stamp);
  }

  lemma DeadlineWriteIsLegal(rules: CaseRules, b: Box, w: Write, stamp: Stamp)
    requires BoxOk(rules, b) && (w.TransitionDeadline? || w.AppendMarker? || w.TransitionMarker?)
    ensures AllLegal(rules, b, PlanOf(rules, b, w, stamp))
  {
    match w
    case TransitionDeadline(id, to, actor, at, why) =>
      DeadlineOnFile(rules, b, id);
      TransitionDeadlineLegal(rules, b, id, to, actor, at, why, stamp);
    case AppendMarker(m) =>
      MarkerOnFile(rules, b, m.id);
      AppendMarkerLegal(rules, b, m, stamp);
    case TransitionMarker(id, to, actor, at, why) =>
      MarkerOnFile(rules, b, id);
      TransitionMarkerLegal(rules, b, id, to, actor, at, why, stamp);
  }

  /** Every write of every reachable state plans legal steps only. */
  lemma WriteIsLegal(rules: CaseRules, b: Box, w: Write, stamp: Stamp)
    requires BoxOk(rules, b) && GeneratesIds(w)
    ensures AllLegal(rules, b, PlanOf(rules, b, w, stamp))
  {
    if w.CreateMatter? || w.TransitionMatter? || w.EnsurePartyIds? || w.UpdateDetails? {
      MatterWriteIsLegal(rules, b, w, stamp);
    } else if w.RegisterDocument? || w.AppendFact? || w.AppendFactOnce? || w.TransitionFact? {
      FactWriteIsLegal(rules, b, w, stamp);
    } else if w.AppendEntry? || w.ConfirmEntry? || w.DismissEntry? || w.EditEntry? {
      EntryWriteIsLegal(rules, b, w, stamp);
    } else {
      DeadlineWriteIsLegal(rules, b, w, stamp);
    }
  }

  // ----- What a write leaves on file -----

  lemma LegalFits(rules: CaseRules, b: Box, s: Step)
    requires Legal(rules, b, s)
    ensures Fits(b, s.x)
  {
  }

  /** At most two steps, about different records. */
  predicate FewSteps(steps: seq<Step>) {
    |steps| <= 2 && (|steps| == 2 ==> KeyOf(steps[0].x) != KeyOf(steps[1].x))
  }

  /** A key holds what the step about it stored, or what it held before. */
  ghost predicate HeldAfter(b: Box, steps: seq<Step>, c: Box, key: Key) {
    if exists s | s in steps :: KeyOf(s.x) == key
    then exists s | s in steps :: KeyOf(s.x) == key && Lookup(c, key) == Some(s.x)
    else Lookup(c, key) == Lookup(b, key)
  }

  lemma OneHolds(rules: CaseRules, b: Box, s: Step, key: Key)
    requires TablesOk(b) && Fits(b, s.x)
    ensures var c := Applied(rules, b, s);
      TablesOk(c) && Lookup(c, key) == if key == KeyOf(s.x) then Some(s.x) else Lookup(b, key)
  {
    StepLookup(rules, b, s);
  }

  lemma TwoHold(rules: CaseRules, b: Box, first: Step, second: Step, key: Key)
    requires TablesOk(b) && Fits(b, first.x) && Fits(b, second.x) && KeyOf(first.x) != KeyOf(second.x)
    ensures Lookup(Applied(rules, Applied(rules, b, first), second), key) ==
      if key == KeyOf(second.x) then Some(second.x) else if key == KeyOf(first.x) then Some(first.x) else Lookup(b, key)
  {
    OneHolds(rules, b, first, KeyOf(second.x));
    OneHolds(rules, b, first, key);
    OneHolds(rules, Applied(rules, b, first), second, key);
  }

  lemma CommittedHolds(rules: CaseRules, b: Box, steps: seq<Step>, key: Key)
    requires TablesOk(b) && FewSteps(steps) && forall s | s in steps :: Legal(rules, b, s)
    ensures HeldAfter(b, steps, Committed(rules, b, steps), key)
  {
    if |steps| == 1 {
      var first := steps[0];
      assert steps == [first];
      LegalFits(rules, b, first);
      OneHolds(rules, b, first, key);
      CommittedOne(rules, b, steps);
    } else if |steps| == 2 {
      var (first, second) := (steps[0], steps[1]);
      assert steps == [first, second];
      LegalFits(rules, b, first);
      LegalFits(rules, b, second);
      TwoHold(rules, b, first, second, key);
      CommittedTwo(rules, b, steps);
    }
  }

  /** A plan that is complete is short. */
  predicate SmallPlan(plan: Plan) {
    plan.Ok? ==> FewSteps(plan.value)
  }

  lemma MatterPlansAreSmall(rules: CaseRules, b: Box, w: Write, stamp: Stamp)
    requires w.CreateMatter? || w.TransitionMatter? || w.EnsurePartyIds? || w.UpdateDetails?
    ensures var plan := PlanOf(rules, b, w, stamp);
      SmallPlan(plan) && (w.CreateMatter? && plan.Ok? ==> |plan.value| == 1 && plan.value[0].x.AMatter?)
  {
  }

  lemma FactPlansAreSmall(rules: CaseRules, b: Box, w: Write, stamp: Stamp)
    requires w.RegisterDocument? || w.AppendFact? || w.AppendFactOnce? || w.TransitionFact?
    ensures SmallPlan(PlanOf(rules, b, w, stamp))
  {
  }

  lemma EntryPlansAreSmall(rules: CaseRules, b: Box, w: Write, stamp: Stamp)
    requires w.AppendEntry? || w.DismissEntry? || w.EditEntry? || w.TransitionDeadline?
    ensures SmallPlan(PlanOf(rules, b, w, stamp))
  {
  }

  lemma ConfirmPlanIsSmall(rules: CaseRules, b: Box, id: string, opts: ConfirmOpts, stamp: Stamp)
    ensures SmallPlan(PlanConfirmEntry(rules, b, id, opts, stamp))
  {
  }

  lemma MarkerPlansAreSmall(rules: CaseRules, b: Box, w: Write, stamp: Stamp)
    requires w.AppendMarker? || w.TransitionMarker?
    ensures SmallPlan(PlanOf(rules, b, w, stamp))
  {
  }

  lemma PlansAreSmall(rules: CaseRules, b: Box, w: Write, stamp: Stamp)
    ensures var plan := PlanOf(rules, b, w, stamp);
      SmallPlan(plan) && (w.CreateMatter? && plan.Ok? ==> |plan.value| == 1 && plan.value[0].x.AMatter?)
  {
    match w
    case CreateMatter(_, _) => MatterPlansAreSmall(rules, b, w, stamp);
    case TransitionMatter(_, _, _, _) => MatterPlansAreSmall(rules, b, w, stamp);
    case EnsurePartyIds(_, _, _) => MatterPlansAreSmall(rules, b, w, stamp);
    case UpdateDetails(_, _, _, _) => MatterPlansAreSmall(rules, b, w, stamp);
    case RegisterDocument(_, _) => FactPlansAreSmall(rules, b, w, stamp);
    case AppendFact(_) => FactPlansAreSmall(rules, b, w, stamp);
    case AppendFactOnce(_) => FactPlansAreSmall(rules, b, w, stamp);
    case TransitionFact(_, _) => FactPlansAreSmall(rules, b, w, stamp);
    case AppendEntry(_) => EntryPlansAreSmall(rules, b, w, stamp);
    case ConfirmEntry(id, opts) => ConfirmPlanIsSmall(rules, b, id, opts, stamp);
    case DismissEntry(_, _, _, _) => EntryPlansAreSmall(rules, b, w, stamp);
    case EditEntry(_) => EntryPlansAreSmall(rules, b, w, stamp);
    case TransitionDeadline(_, _, _, _, _) => EntryPlansAreSmall(rules, b, w, stamp);
    case AppendMarker(_) => MarkerPlansAreSmall(rules, b, w, stamp);
    case TransitionMarker(_, _, _, _, _) => MarkerPlansAreSmall(rules, b, w, stamp);
  }

  /** What becomes of a record in one write. */
  ghost predicate Lives(rules: CaseRules, b: Box, c: Box, key: Key) {
    var (prior, next) := (Lookup(b, key), Lookup(c, key));
    if prior.None? then next.Some? ==> Coherent(rules, next.value)
    else
      && next.Some?
      && (next == prior
          || (Becomes(prior.value, next.value) && (Coherent(rules, prior.value) ==> Coherent(rules, next.value))))
  }

  lemma HeldLives(rules: CaseRules, b: Box, steps: seq<Step>, c: Box, key: Key)
    requires HeldAfter(b, steps, c, key) && forall s | s in steps :: Legal(rules, b, s)
    ensures Lives(rules, b, c, key)
  {
    if exists s | s in steps :: KeyOf(s.x) == key {
      var s :| s in steps && KeyOf(s.x) == key && Lookup(c, key) == Some(s.x);
      assert Legal(rules, b, s);
    }
  }

  lemma CreatedHolds(rules: CaseRules, b: Box, s: Step, key: Key)
    requires TablesOk(b) && s.x.AMatter?
    ensures HeldAfter(b, [s], Created(rules, b, s), key)
  {
    CreatedTables(rules, b, s);
    assert s in [s];
  }

  /** What becomes of the box when the plan is carried out, or cannot be. */
  function Outcome(rules: CaseRules, b: Box, w: Write, plan: Plan): Box
    requires w.CreateMatter? && plan.Ok? ==> plan.value != []
  {
    if plan.Err? then b else if w.CreateMatter? then Created(rules, b, plan.value[0]) else Committed(rules, b, plan.value)
  }

  lemma LegalPlanLives(rules: CaseRules, b: Box, w: Write, plan: Plan, key: Key)
    requires TablesOk(b) && AllLegal(rules, b, plan) && SmallPlan(plan)
    requires w.CreateMatter? && plan.Ok? ==> |plan.value| == 1 && plan.value[0].x.AMatter?
    ensures Lives(rules, b, Outcome(rules, b, w, plan), key)
  {
    if plan.Ok? {
      PlannedLives(rules, b, w, plan.value, key);
    }
  }

  lemma WriteLives(rules: CaseRules, b: Box, w: Write, stamp: Stamp, key: Key)
    requires BoxOk(rules, b) && GeneratesIds(w)
    ensures Lives(rules, b, After(rules, b, w, stamp), key)
  {
    var plan := PlanOf(rules, b, w, stamp);
    PlansAreSmall(rules, b, w, stamp);
    assert After(rules, b, w, stamp) == Outcome(rules, b, w, plan);
    LedgerParts(rules, b);
    WriteIsLegal(rules, b, w, stamp);
    LegalPlanLives(rules, b, w, plan, key);
  }

  lemma PlannedLives(rules: CaseRules, b: Box, w: Write, steps: seq<Step>, key: Key)
    requires TablesOk(b) && FewSteps(steps) && forall s | s in steps :: Legal(rules, b, s)
    requires w.CreateMatter? ==> |steps| == 1 && steps[0].x.AMatter?
    ensures Lives(rules, b, if w.CreateMatter? then Created(rules, b, steps[0]) else Committed(rules, b, steps), key)
  {
    if w.CreateMatter? {
      CreatedHolds(rules, b, steps[0], key);
      assert steps == [steps[0]];
      HeldLives(rules, b, steps, Created(rules, b, steps[0]), key);
    } else {
      CommittedHolds(rules, b, steps, key);
      HeldLives(rules, b, steps, Committed(rules, b, steps), key);
    }
  }

  // ----- Over all runs -----

  ghost predicate AllCoherent(rules: CaseRules, b: Box) {
    forall key: Key | Lookup(b, key).Some? :: Coherent(rules, Lookup(b, key).value)
  }

  lemma WriteKeepsCoherent(rules: CaseRules, b: Box, w: Write, stamp: Stamp)
    requires BoxOk(rules, b) && GeneratesIds(w) && AllCoherent(rules, b)
    ensures AllCoherent(rules, After(rules, b, w, stamp))
  {
    var c := After(rules, b, w, stamp);
    forall key: Key | Lookup(c, key).Some?
      ensures Coherent(rules, Lookup(c, key).value)
    {
      WriteLives(rules, b, w, stamp, key);
    }
  }

  /** After every run the fields of every record fit its status: no fact is accepted without a review,
      no rejection, dismissal or waiver lacks its reason, no matter has a party without an id. */
  lemma {:induction false} RunKeepsCoherent(rules: CaseRules, b: Box, attempts: seq<Attempt>)
    requires BoxOk(rules, b) && AllCoherent(rules, b) && forall a | a in attempts :: GeneratesIds(a.w)
    ensures AllCoherent(rules, AfterAll(rules, b, attempts))
    decreases |attempts|
  {
    if attempts != [] {
      var a := attempts[0];
      assert a in attempts;
      WriteKeepsBox(rules, b, a.w, a.stamp);
      WriteKeepsCoherent(rules, b, a.w, a.stamp);
      RunKeepsCoherent(rules, After(rules, b, a.w, a.stamp), attempts[1..]);
    }
  }

  /** A record never disappears or moves to another matter or tenant, and one whose life has ended never
      changes again. */
  lemma {:induction false} EndedRecordsFreeze(rules: CaseRules, b: Box, attempts: seq<Attempt>, key: Key)
    requires BoxOk(rules, b) && Lookup(b, key).Some? && forall a | a in attempts :: GeneratesIds(a.w)
    ensures var (prior, last) := (Lookup(b, key).value, Lookup(AfterAll(rules, b, attempts), key));
      last.Some? && Succeeds(prior, last.value) && (Ended(prior) ==> last.value == prior)
    decreases |attempts|
  {
    if attempts != [] {
      var a := attempts[0];
      assert a in attempts;
      var c := After(rules, b, a.w, a.stamp);
      WriteKeepsBox(rules, b, a.w, a.stamp);
      WriteLives(rules, b, a.w, a.stamp, key);
      if Ended(Lookup(b, key).value) {
        EndedBecomesNothing(Lookup(b, key).value, Lookup(c, key).value);
      }
      EndedRecordsFreeze(rules, c, attempts[1..], key);
    }
  }

  lemma EmptyIsCoherent(rules: CaseRules)
    ensures AllCoherent(rules, EmptyBox())
  {
    EmptyIndexOk(FactPlace);
    EmptyIndexOk(EntryPlace);
    EmptyIndexOk(DeadlinePlace);
    EmptyIndexOk(MarkerPlace);
  }

  /** From an empty box: no accepted fact without its reviewer, whatever was attempted. */
  lemma AcceptedFactsWereReviewed(rules: CaseRules, attempts: seq<Attempt>, id: string)
    requires forall a | a in attempts :: GeneratesIds(a.w)
    requires id in AfterAll(rules, EmptyBox(), attempts).fact_by_id
    ensures var f := AfterAll(rules, EmptyBox(), attempts).fact_by_id[id];
      f.status == Accepted ==> f.reviewer_actor_user_id.Some? && f.reviewed_at.Some? && f.accepted_at.Some?
  {
    EmptyBoxOk(rules);
    EmptyIsCoherent(rules);
    EveryRunKeepsBox(rules, EmptyBox(), attempts);
    RunKeepsCoherent(rules, EmptyBox(), attempts);
    var b := AfterAll(rules, EmptyBox(), attempts);
    FactOnFile(rules, b, id);
    assert Lookup(b, Key(TFact, id)).Some?;
  }
}
