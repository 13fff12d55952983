/** What every write of a case box does, worked out before anything is stored: the `prepare...` functions
    of `services/case-box-persistence/src`. A plan lists the records to store, each with its event, or
    the error the source throws; nothing is touched until a plan is complete. */
module CaseBoxPlans {
  import opened Wrappers
  import opened AuditChain
  import opened CaseRecords
  import opened CaseTables
  import opened CaseBoxState
  import opened Supersession
  import opened MatterEdits

  type Plan = Result<seq<Step>, Error>

  /** The clock and the id generator, as drawn by one call. */
  datatype Stamp = Stamp(now: string, event_id: string, second_event_id: string)

  // ----- One record, one event -----

  /** An event built on top of a chain. */
  function NextEvent(
    rules: CaseRules, es: seq<Event>, kind: Kind, id: string, x: Entity, actor: string, before: Option<string>,
    now: string, reason: Option<string>): Option<StoredEvent>
  {
    var built := BuildEvent(
      rules.audit, kind, id, TenantOf(x), actor, HomeOf(x), KeyOf(x).id, before, rules.state_hash(x),
      HeadOf(rules.audit, es), now, reason);
    if built.None? then None else Some(StoredEvent(|es| + 1, built.value))
  }

  function PlanOne(
    rules: CaseRules, b: Box, kind: Kind, x: Entity, actor: string, before: Option<string>, stamp: Stamp,
    reason: Option<string>): Plan
  {
    var e := NextEvent(rules, Chain(b, HomeOf(x)), kind, stamp.event_id, x, actor, before, stamp.now, reason);
    if e.None? then Err(InvalidPayload) else Ok([Step(x, e.value)])
  }

  /** An update records the stored state as its before-state. */
  function PlanUpdate(
    rules: CaseRules, b: Box, kind: Kind, prior: Entity, next: Entity, actor: string, stamp: Stamp,
    reason: Option<string>): Plan
  {
    PlanOne(rules, b, kind, next, actor, Some(rules.state_hash(prior)), stamp, reason)
  }

  // ----- Matters -----

  function SuccessorFault(b: Box, m: Matter): bool {
    m.successor_matter_id.Some? &&
    var ref := m.successor_matter_id.value;
    || ref == m.id
    || ref !in b.matters
    || b.matters[ref].id != ref
    || b.matters[ref].tenant_id != m.tenant_id
    || b.matters[ref].matter_type == m.matter_type
  }

  function PlanCreateMatter(rules: CaseRules, b: Box, m: Matter, gen: nat -> string, stamp: Stamp): Plan {
    if !rules.valid(AMatter(m)) then Err(InvalidPayload)
    else if m.status != Active || m.archived_at.Some? then Err(InvalidInitialState)
    else if m.external_ocr_authorized || m.sync_grant_present || m.llm_extraction_opt_in then
      Err(LocalOnlyExternalFlagRejected)
    else if SuccessorFault(b, m) then Err(InvalidPayload)
    else if m.id in b.matters then Err(DuplicateId)
    else
      var parties := AssignPartyIds(m.parties, gen);
      if parties.Err? then Err(parties.error)
      else
        var x := AMatter(m.(parties := parties.value));
        var e := NextEvent(rules, [], MatterRegistered, stamp.event_id, x, m.actor_user_id, None, stamp.now, None);
        if e.None? then Err(InvalidPayload) else Ok([Step(x, e.value)])
  }

  function PlanMatterTransition(
    rules: CaseRules, b: Box, id: string, to: MatterStatus, actor: string, reason: string, stamp: Stamp): Plan
  {
    if id !in b.matters then Err(UnknownMatter)
    else if Blank(rules, reason) || actor == "" then Err(InvalidArgument)
    else if !AllowedMatter(b.matters[id].status, to) then Err(IllegalTransition)
    else
      var m := b.matters[id];
      var next := m.(status := to, archived_at := if to == Archived then Some(stamp.now) else None);
      if !rules.valid(AMatter(next)) then Err(InvalidPayload)
      else
        var kind := if to == Archived then MatterArchived else MatterUnarchived;
        PlanUpdate(rules, b, kind, AMatter(m), AMatter(next), actor, stamp, Some(reason))
  }

  /** Backfills party ids, provided the last event of the chain vouches for the stored matter. */
  function PlanEnsurePartyIds(rules: CaseRules, b: Box, id: string, actor: string, gen: nat -> string, stamp: Stamp): Plan {
    if id !in b.matters then Err(UnknownMatter)
    else if actor == "" then Err(InvalidArgument)
    else
      var m := b.matters[id];
      var parties := AssignPartyIds(m.parties, gen);
      var es := Chain(b, id);
      if parties.Err? then Err(parties.error)
      else if Missing(m.parties) == 0 then Ok([])
      else if es == [] || es[|es| - 1].after_state_hash != rules.state_hash(AMatter(m)) then Err(AuditChainDesync)
      else
        var next := AMatter(m.(parties := parties.value));
        PlanOne(rules, b, MatterPartyIdsAssigned, next, actor, Some(es[|es| - 1].after_state_hash), stamp, None)
  }

  /** Corrects descriptive fields. The before-state is what the latest event about the matter says. */
  function PlanUpdateDetails(
    rules: CaseRules, b: Box, id: string, patch: Patch, actor: string, reason: string, stamp: Stamp): Plan
  {
    if id !in b.matters then Err(UnknownMatter)
    else if actor == "" then Err(InvalidArgument)
    else if Blank(rules, reason) then Err(InvalidPayload)
    else if b.matters[id].status != Active then Err(MatterIsArchived)
    else if exists key | key in patch :: !Editable(key) then Err(InvalidPayload)
    else
      var m := b.matters[id];
      var edit := EditFields(rules, m, patch, EDITABLE_FIELDS, Edit(m, []));
      var last := LatestAfter(Chain(b, id), Key(TMatter, id));
      if edit.Err? then Err(edit.error)
      else if edit.value.changed == [] then Err(NoEditableChange)
      else
        var next := AMatter(edit.value.next);
        if !rules.valid(next) then Err(InvalidPayload)
        else if last.None? || last.value == "" || last.value != rules.state_hash(AMatter(m)) then Err(AuditChainDesync)
        else
          var built := NextEvent(
            rules, Chain(b, id), MatterDetailsUpdated, stamp.event_id, next, actor, last, stamp.now, Some(reason));
          if built.None? then Err(InvalidPayload)
          else
            var e := built.value.event.(changed_fields := Some(SortedNames(edit.value.changed, SORTED_FIELDS)));
            if !rules.audit.valid(e) then Err(InvalidPayload)
            else Ok([Step(next, built.value.(event := e))])
  }

  // ----- Documents -----

  function DocumentFault(b: Box, d: Document): bool {
    d.supersedes_document_id.Some? &&
    var ref := d.supersedes_document_id.value;
    || ref == d.id
    || ref !in b.documents
    || b.documents[ref].document.id != ref
    || b.documents[ref].document.tenant_id != d.tenant_id
    || b.documents[ref].matter_id != d.matter_id
  }

  function PlanRegisterDocument(rules: CaseRules, b: Box, matter_id: string, d: Document, stamp: Stamp): Plan {
    if matter_id !in b.matters then Err(UnknownMatter)
    else if !rules.valid(ADocument(d)) then Err(InvalidPayload)
    else if d.matter_id != matter_id then Err(WrongMatter)
    else if d.tenant_id != b.matters[matter_id].tenant_id then Err(WrongTenant)
    else if d.status != Registered then Err(InvalidInitialState)
    else if DocumentFault(b, d) then Err(InvalidPayload)
    else if d.id in b.documents then Err(DuplicateId)
    else PlanOne(rules, b, DocumentRegistered, ADocument(d), d.actor_user_id, None, stamp, None)
  }

  /** `resolveDocumentTarget`. */
  function TargetFault(b: Box, tenant_id: string, matter_id: string, target: string): Option<Error> {
    if target !in b.documents then Some(UnknownDocument)
    else if b.documents[target].document.tenant_id != tenant_id then Some(WrongTenant)
    else if b.documents[target].document.matter_id != matter_id then Some(WrongMatter)
    else None
  }

  function SourceFault(b: Box, tenant_id: string, matter_id: string, source: Option<string>): Option<Error> {
    if source.None? then None else TargetFault(b, tenant_id, matter_id, source.value)
  }

  /** The last check of an append: the row's tenant is the matter's. */
  function InTenant(b: Box, matter_id: string, tenant_id: string, plan: Plan): Plan {
    if plan.Err? then plan
    else if matter_id !in b.matters then Err(UnknownMatter)
    else if b.matters[matter_id].tenant_id != tenant_id then Err(WrongTenant)
    else plan
  }

  // ----- Facts -----

  predicate NewFact(f: Fact) {
    && f.status == Candidate
    && f.reviewer_actor_user_id.None? && f.reviewed_at.None? && f.accepted_at.None? && f.rejected_at.None?
    && f.rejection_reason.None? && f.supersedes_fact_id.None?
  }

  /** `assertFactPromotionInvariants`. */
  predicate Promotable(f: Fact) {
    f.supersedes_fact_id.Some? ==> f.supersedes_fact_id.value != f.id && f.status == Accepted
  }

  function PlanAppendFact(rules: CaseRules, b: Box, f: Fact, stamp: Stamp): Plan {
    var source := SourceFault(b, f.tenant_id, f.matter_id, f.source_document_id);
    if f.matter_id !in b.matters then Err(UnknownMatter)
    else if f.status != Candidate then Err(InvalidArgument)
    else if !rules.valid(AFact(f)) then Err(InvalidPayload)
    else if f.id in b.facts.ids then Err(DuplicateId)
    else if !NewFact(f) || !Promotable(f) then Err(InvalidPayload)
    else if source.Some? then Err(source.value)
    else
      InTenant(b, f.matter_id, f.tenant_id, PlanOne(rules, b, FactProposed, AFact(f), f.actor_user_id, None, stamp, None))
  }

  /** Replay-safe append: the very same fact is answered from what is stored. */
  function PlanAppendFactOnce(rules: CaseRules, b: Box, f: Fact, stamp: Stamp): Plan {
    if f.id != "" && f.id in b.fact_by_id && b.fact_by_id[f.id] == f then Ok([])
    else PlanAppendFact(rules, b, f, stamp)
  }

  datatype FactOpts = FactOpts(
    to: FactStatus,
    reviewer: string,
    at: string,
    rejection_reason: Option<string>,
    supersedes: Option<string>)

  /** Why a replacement may not point where it wants to. */
  function ReplacementFault(b: Box, prior: Fact, target: string): bool {
    || target == "" || target == prior.id
    || target !in b.fact_by_id
    || b.fact_by_id[target].matter_id != prior.matter_id
    || b.fact_by_id[target].status != Accepted
    || WalkFrom(b.fact_by_id, |b.facts.ids|, prior.id, Some(target), {}) != Clear
  }

  function NextFact(prior: Fact, opts: FactOpts): Fact {
    match opts.to
    case Reviewed =>
      prior.(status := Reviewed, reviewer_actor_user_id := Some(opts.reviewer), reviewed_at := Some(opts.at))
    case Rejected =>
      prior.(
        status := Rejected,
        reviewer_actor_user_id :=
          if prior.reviewer_actor_user_id.None? then Some(opts.reviewer) else prior.reviewer_actor_user_id,
        reviewed_at := if prior.reviewed_at.None? then Some(opts.at) else prior.reviewed_at,
        rejected_at := Some(opts.at),
        rejection_reason := opts.rejection_reason)
    case Accepted =>
      prior.(
        status := Accepted,
        accepted_at := Some(opts.at),
        supersedes_fact_id := if opts.supersedes.Some? then opts.supersedes else prior.supersedes_fact_id)
    case Candidate => prior
  }

  function FactKind(opts: FactOpts): Kind {
    if opts.to == Reviewed then FactReviewed
    else if opts.to == Rejected then FactRejected
    else if opts.supersedes.Some? then FactReplacementAccepted
    else FactAccepted
  }

  /** A replacement is recorded as a creation, so without a before-state. */
  function PlanFactEvent(rules: CaseRules, b: Box, prior: Fact, opts: FactOpts, stamp: Stamp): Plan {
    var kind := FactKind(opts);
    var before := if kind == FactReplacementAccepted then None else Some(rules.state_hash(AFact(prior)));
    var reason := if opts.to == Rejected then opts.rejection_reason else None;
    PlanOne(rules, b, kind, AFact(NextFact(prior, opts)), opts.reviewer, before, stamp, reason)
  }

  function PlanTransitionFact(rules: CaseRules, b: Box, id: string, opts: FactOpts, stamp: Stamp): Plan {
    if id == "" || opts.reviewer == "" || opts.at == "" || id !in b.facts.home || id !in b.fact_by_id then
      Err(InvalidArgument)
    else
      var prior := b.fact_by_id[id];
      var superseding := opts.to == Accepted && opts.supersedes.Some?;
      var next := NextFact(prior, opts);
      if opts.to == Rejected && !Given(rules, opts.rejection_reason) then Err(InvalidArgument)
      else if superseding && ReplacementFault(b, prior, opts.supersedes.value) then Err(InvalidArgument)
      else if !AllowedFact(prior.status, opts.to) then Err(IllegalTransition)
      else if !rules.valid(AFact(next)) then Err(InvalidArgument)
      else if !Promotable(next) then Err(InvalidPayload)
      else
        PlanFactEvent(rules, b, prior, opts, stamp)
  }

  // ----- Docket entries and deadlines -----

  predicate NewEntry(e: DocketEntry) {
    && e.confirmation_state == ProposedEntry
    && e.confirmation_actor_user_id.None? && e.confirmed_at.None? && e.confirmed_deadline_id.None?
    && e.dismissal_actor_user_id.None? && e.dismissed_at.None? && e.dismissal_reason.None?
  }

  predicate TimezoneOk(rules: CaseRules, e: DocketEntry) {
    e.proposal.due_at_timezone.Some? ==> rules.valid_timezone(e.proposal.due_at_timezone.value)
  }

  function PlanAppendEntry(rules: CaseRules, b: Box, e: DocketEntry, stamp: Stamp): Plan {
    var source := SourceFault(b, e.tenant_id, e.matter_id, e.source_document_id);
    if e.matter_id !in b.matters then Err(UnknownMatter)
    else if e.confirmation_state != ProposedEntry then Err(InvalidArgument)
    else if !rules.valid(AnEntry(e)) then Err(InvalidPayload)
    else if e.id in b.entries.ids then Err(DuplicateId)
    else if !NewEntry(e) || !TimezoneOk(rules, e) then Err(InvalidPayload)
    else if source.Some? then Err(source.value)
    else
      InTenant(
        b, e.matter_id, e.tenant_id,
        PlanOne(rules, b, DocketEntryProposed, AnEntry(e), e.actor_user_id, None, stamp, None))
  }

  /** `buildDeadlineRowFromDocketEntry`: the confirming lawyer becomes the actor. */
  function DeadlineOf(e: DocketEntry, deadline_id: string, actor: string): Deadline {
    var citation :=
      if e.source_rule_citation.Some? && e.source_rule_citation.value != "" then e.source_rule_citation else None;
    Deadline(
      deadline_id, e.tenant_id, actor, e.matter_id, e.proposal.kind, e.proposal.due_at, e.proposal.owner_user_id,
      PendingDeadline, citation, None, None, None)
  }

  datatype ConfirmOpts = ConfirmOpts(actor: string, at: string, deadline_id: string)

  function ConfirmedAs(prior: DocketEntry, opts: ConfirmOpts): DocketEntry {
    prior.(
      confirmation_state := ConfirmedEntry,
      confirmation_actor_user_id := Some(opts.actor),
      confirmed_at := Some(opts.at),
      confirmed_deadline_id := Some(opts.deadline_id))
  }

  /** A confirmed entry whose deadline is on file. */
  predicate AlreadyConfirmed(b: Box, e: DocketEntry) {
    && e.confirmation_state == ConfirmedEntry
    && e.confirmed_deadline_id.Some? && e.confirmed_deadline_id.value != ""
    && e.confirmed_deadline_id.value in b.deadline_by_id
  }

  /** Two records and two events at once, or nothing to do when the entry was confirmed before. */
  function PlanConfirmEntry(rules: CaseRules, b: Box, id: string, opts: ConfirmOpts, stamp: Stamp): Plan {
    if id == "" || opts.actor == "" || opts.at == "" || opts.deadline_id == ""
      || id !in b.entries.home || id !in b.entry_by_id then Err(InvalidArgument)
    else
      var prior := b.entry_by_id[id];
      if AlreadyConfirmed(b, prior) then Ok([])
      else if prior.confirmation_state != ProposedEntry then Err(IllegalTransition)
      else if prior.proposal.due_at_kind == DateOnly then Err(InvalidArgument)
      else
        var next := ConfirmedAs(prior, opts);
        if !rules.valid(AnEntry(next)) then Err(InvalidArgument)
        else if opts.deadline_id in b.deadlines.ids then Err(DuplicateId)
        else
          var deadline := DeadlineOf(next, opts.deadline_id, opts.actor);
          if !rules.valid(ADeadline(deadline)) then Err(InvalidArgument)
          else
            var es := Chain(b, prior.matter_id);
            var first := NextEvent(
              rules, es, DocketEntryConfirmed, stamp.event_id, AnEntry(next), opts.actor,
              Some(rules.state_hash(AnEntry(prior))), stamp.now, None);
            if first.None? then Err(InvalidPayload)
            else
              var second := NextEvent(
                rules, es + [first.value.event], DeadlineRegistered, stamp.second_event_id, ADeadline(deadline),
                opts.actor, None, stamp.now, None);
              if second.None? then Err(InvalidPayload)
              else Ok([Step(AnEntry(next), first.value), Step(ADeadline(deadline), second.value)])
  }

  function PlanDismissEntry(
    rules: CaseRules, b: Box, id: string, actor: string, at: string, reason: string, stamp: Stamp): Plan
  {
    if id == "" || actor == "" || at == "" || Blank(rules, reason) || id !in b.entries.home || id !in b.entry_by_id then
      Err(InvalidArgument)
    else
      var prior := b.entry_by_id[id];
      var next := prior.(
        confirmation_state := DismissedEntry,
        dismissal_actor_user_id := Some(actor),
        dismissed_at := Some(at),
        dismissal_reason := Some(reason));
      if !AllowedEntry(prior.confirmation_state, DismissedEntry) then Err(IllegalTransition)
      else if !rules.valid(AnEntry(next)) then Err(InvalidArgument)
      else PlanUpdate(rules, b, DocketEntryDismissed, AnEntry(prior), AnEntry(next), actor, stamp, Some(reason))
  }

  datatype EditOpts = EditOpts(tenant_id: string, matter_id: string, entry_id: string, editor: string, proposal: Proposal)

  /** Replaces the proposal, and nothing else, of an entry that is still proposed. */
  function PlanEditEntry(rules: CaseRules, b: Box, opts: EditOpts, stamp: Stamp): Plan {
    if opts.matter_id !in b.matters then Err(UnknownMatter)
    else if b.matters[opts.matter_id].tenant_id != opts.tenant_id then Err(WrongTenant)
    else if opts.tenant_id == "" || opts.matter_id == "" || opts.entry_id == "" || opts.editor == "" then Err(InvalidArgument)
    else if opts.entry_id !in b.entry_by_id || b.entry_by_id[opts.entry_id].tenant_id != opts.tenant_id then
      Err(InvalidArgument)
    else
      var prior := b.entry_by_id[opts.entry_id];
      var next := prior.(proposal := opts.proposal, revised_at := Some(stamp.now));
      if prior.matter_id != opts.matter_id then Err(WrongMatter)
      else if prior.confirmation_state != ProposedEntry then Err(IllegalTransition)
      else if !rules.valid(AnEntry(next)) || !TimezoneOk(rules, next) then Err(InvalidPayload)
      else PlanUpdate(rules, b, DocketEntryRevised, AnEntry(prior), AnEntry(next), opts.editor, stamp, None)
  }

  /** Meeting a deadline that was missed. */
  predicate Late(prior: Deadline, to: DeadlineStatus) {
    prior.status == Missed && to == Met
  }

  function NextDeadline(prior: Deadline, to: DeadlineStatus, at: string, reason: Option<string>): Deadline {
    var next := prior.(status := to, met_at := if to == Met then Some(at) else prior.met_at);
    if Late(prior, to) then next.(previous_status := Some(Missed), transition_reason := reason) else next
  }

  function DeadlineKind(prior: Deadline, to: DeadlineStatus): Kind {
    if Late(prior, to) then DeadlineMissedToMet
    else if to == Met then DeadlineMet
    else if to == Missed then DeadlineMissed
    else DeadlineWithdrawn
  }

  function PlanTransitionDeadline(
    rules: CaseRules, b: Box, id: string, to: DeadlineStatus, actor: string, at: string, reason: Option<string>,
    stamp: Stamp): Plan
  {
    if id == "" || actor == "" || at == "" || id !in b.deadlines.home || id !in b.deadline_by_id then Err(InvalidArgument)
    else
      var prior := b.deadline_by_id[id];
      var next := NextDeadline(prior, to, at, reason);
      if Late(prior, to) && !Given(rules, reason) then Err(InvalidArgument)
      else if !AllowedDeadline(prior.status, to) then Err(IllegalTransition)
      else if !rules.valid(ADeadline(next)) then Err(InvalidArgument)
      else
        PlanUpdate(
          rules, b, DeadlineKind(prior, to), ADeadline(prior), ADeadline(next), actor, stamp,
          if Late(prior, to) then reason else None)
  }

  // ----- Privilege markers -----

  predicate NewMarker(m: Marker) {
    && m.status == ProposedMarker && m.proposed_at.Some?
    && m.confirmed_actor_user_id.None? && m.confirmed_at.None?
    && m.dismissed_actor_user_id.None? && m.dismissed_at.None? && m.dismissal_reason.None?
    && m.waiver_actor_user_id.None? && m.waived_at.None? && m.waiver_reason.None?
  }

  /** The marker's tenant is checked against its document's only. */
  function PlanAppendMarker(rules: CaseRules, b: Box, m: Marker, stamp: Stamp): Plan {
    var target := TargetFault(b, m.tenant_id, m.matter_id, m.target_id);
    if m.matter_id !in b.matters then Err(UnknownMatter)
    else if m.target_type != OnDocument || m.status != ProposedMarker then Err(InvalidArgument)
    else if !rules.valid(AMarker(m)) then Err(InvalidPayload)
    else if m.id in b.markers.ids then Err(DuplicateId)
    else if !NewMarker(m) || !rules.valid_marker_times(m) then Err(InvalidPayload)
    else if target.Some? then Err(target.value)
    else PlanOne(rules, b, PrivilegeMarkerProposed, AMarker(m), m.actor_user_id, None, stamp, None)
  }

  /** Another confirmed marker says the same about the same target. */
  predicate ConfirmedTwin(other: Marker, m: Marker) {
    && other.id != m.id && other.status == ConfirmedMarker
    && other.target_type == m.target_type && other.target_id == m.target_id && other.kind == m.kind
  }

  function NextMarker(prior: Marker, to: MarkerStatus, actor: string, at: string, reason: Option<string>): Marker {
    match to
    case ConfirmedMarker => prior.(status := to, confirmed_actor_user_id := Some(actor), confirmed_at := Some(at))
    case DismissedMarker =>
      prior.(status := to, dismissed_actor_user_id := Some(actor), dismissed_at := Some(at), dismissal_reason := reason)
    case WaivedMarker =>
      prior.(status := to, waiver_actor_user_id := Some(actor), waived_at := Some(at), waiver_reason := reason)
    case ProposedMarker => prior
  }

  function MarkerKind(to: MarkerStatus): Kind {
    if to == ConfirmedMarker then PrivilegeMarkerConfirmed
    else if to == DismissedMarker then PrivilegeMarkerDismissed
    else PrivilegeMarkerWaived
  }

  function PlanTransitionMarker(
    rules: CaseRules, b: Box, id: string, to: MarkerStatus, actor: string, at: string, reason: Option<string>,
    stamp: Stamp): Plan
  {
    var found := MarkerAt(b, id);
    if id == "" || actor == "" || at == "" || found.None? then Err(InvalidArgument)
    else
      var prior := found.value;
      var reasoned := to == DismissedMarker || to == WaivedMarker;
      var next := NextMarker(prior, to, actor, at, reason);
      if reasoned && !Given(rules, reason) then Err(InvalidArgument)
      else if !AllowedMarker(prior.status, to) then Err(IllegalTransition)
      else if to == ConfirmedMarker
        && exists other | other in Rows(b.markers, b.markers.home[id]) :: ConfirmedTwin(other, prior) then Err(InvalidArgument)
      else if !rules.valid(AMarker(next)) then Err(InvalidArgument)
      else if !rules.valid_marker_times(next) then Err(InvalidPayload)
      else
        PlanUpdate(
          rules, b, MarkerKind(to), AMarker(prior), AMarker(next), actor, stamp, if reasoned then reason else None)
  }
}
