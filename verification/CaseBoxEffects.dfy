/** What a caller of the case box gets for each write, told by the call alone: exactly when it is accepted,
    which record is stored with which fields, that no other record changes, and the audit event that
    carries the caller's name, instant and reason. Nothing here refers to how the write is worked out
    (`services/case-box-persistence/src`). */
module CaseBoxEffects {
  import opened Wrappers
  import opened AuditChain
  import opened CaseRecords
  import opened CaseTables
  import opened CaseBoxState
  import opened CaseBoxPlans
  import opened CaseBoxInvariant
  import opened MatterEdits
  import opened Supersession

  /** How a write is accounted for: the kind of event, who asked, why, and the state it starts from. */
  datatype Account = Account(kind: Kind, action: Action, before: Option<string>, actor: string, reason: Option<string>)

  /** The head the log has on record. */
  function Anchored(b: Box, m: string): Option<string> {
    if m in b.log.heads then Some(b.log.heads[m].head_hash) else None
  }

  /** The event that accounts for storing `x`. */
  function EventFor(rules: CaseRules, x: Entity, a: Account, prev: Option<string>, id: string, now: string): Event {
    Event(
      id, TenantOf(x), a.actor, HomeOf(x), a.action, KeyOf(x).entity_type, KeyOf(x).id, a.before, rules.state_hash(x),
      prev, now, a.reason, Some(a.kind), None)
  }

  /** `c` is `b` with `x` stored and these events at the end of its matter's chain. */
  ghost predicate Wrote(b: Box, x: Entity, es: seq<Event>, c: Box) {
    && Holds(b, x, c)
    && Chain(c, HomeOf(x)) == Chain(b, HomeOf(x)) + es
    && forall m: string | m != HomeOf(x) :: Chain(c, m) == Chain(b, m)
  }

  type Answer = Result<Option<Entity>, Error>

  /** What a caller hears of a plan of at most one record. */
  function Reply(plan: Plan): Answer {
    if plan.Err? then Err(plan.error) else if plan.value == [] then Ok(None) else Ok(Some(plan.value[0].x))
  }

  /** Refused: an error, and nothing has changed. */
  ghost predicate Refused(b: Box, r: Answer, c: Box) {
    r.Err? && c == b
  }

  /** If allowed and fit for the log, `x` is stored and accounted for; otherwise the write is refused. */
  ghost predicate Does(
    rules: CaseRules, b: Box, allowed: bool, x: Entity, a: Account, stamp: Stamp, r: Answer, c: Box)
  {
    var e := EventFor(rules, x, a, Anchored(b, HomeOf(x)), stamp.event_id, stamp.now);
    if allowed && rules.audit.valid(e) then r == Ok(Some(x)) && Wrote(b, x, [e], c) else Refused(b, r, c)
  }

  // ----- One record and its event -----

  /** The account and the kind of the record go with the kind of the event. */
  predicate Accounts(x: Entity, a: Account) {
    && MetaOf(a.kind).action == a.action && MetaOf(a.kind).entity_type == KeyOf(x).entity_type
    && (MetaOf(a.kind).reason_required ==> HasReason(a.reason))
  }

  lemma HeadIsAnchored(rules: CaseRules, b: Box, m: string)
    requires LedgerOk(rules, b) && m in b.matters
    ensures Anchored(b, m) == HeadOf(rules.audit, Chain(b, m))
  {
    ChainOf(rules, b, m);
  }

  lemma AppliedWrote(rules: CaseRules, b: Box, s: Step)
    requires TablesOk(b) && Fits(b, s.x)
    ensures Wrote(b, s.x, [s.e.event], Applied(rules, b, s))
  {
    StepLookup(rules, b, s);
    forall m: string
      ensures Chain(Applied(rules, b, s), m) == if m == HomeOf(s.x) then Chain(b, m) + [s.e.event] else Chain(b, m)
    {
      AppendedChain(rules, b, s, m);
    }
  }

  /** A plan of one record does what it says. */
  lemma PlanOneDoes(rules: CaseRules, b: Box, x: Entity, a: Account, stamp: Stamp)
    requires LedgerOk(rules, b) && HomeOf(x) in b.matters && Fits(b, x) && Accounts(x, a)
    ensures var plan := PlanOne(rules, b, a.kind, x, a.actor, a.before, stamp, a.reason);
      Does(rules, b, true, x, a, stamp, Reply(plan), if plan.Err? then b else Committed(rules, b, plan.value))
  {
    HeadIsAnchored(rules, b, HomeOf(x));
    LedgerParts(rules, b);
    var plan := PlanOne(rules, b, a.kind, x, a.actor, a.before, stamp, a.reason);
    if plan.Ok? {
      CommittedOne(rules, b, plan.value);
      AppliedWrote(rules, b, plan.value[0]);
    }
  }

  /** A plan of one record under a condition. */
  ghost predicate Guarded(rules: CaseRules, b: Box, allowed: bool, plan: Plan, x: Entity, a: Account, stamp: Stamp) {
    if allowed then plan == PlanOne(rules, b, a.kind, x, a.actor, a.before, stamp, a.reason) && Accounts(x, a)
    else plan.Err?
  }

  /** A write that comes to such a plan. */
  lemma GuardedDoes(
    rules: CaseRules, b: Box, w: Write, allowed: bool, plan: Plan, x: Entity, a: Account, stamp: Stamp)
    requires PlanOf(rules, b, w, stamp) == plan && !w.CreateMatter? && Guarded(rules, b, allowed, plan, x, a, stamp)
    requires allowed ==> LedgerOk(rules, b) && HomeOf(x) in b.matters && Fits(b, x)
    ensures Does(rules, b, allowed, x, a, stamp, Reply(plan), After(rules, b, w, stamp))
  {
    if allowed {
      PlanOneDoes(rules, b, x, a, stamp);
    }
  }

  /** A successor of a record on file fits where the record is. */
  lemma FitsOver(rules: CaseRules, b: Box, prior: Entity, x: Entity)
    requires LedgerOk(rules, b) && Lookup(b, KeyOf(prior)) == Some(prior) && Succeeds(prior, x)
    ensures Fits(b, x) && HomeOf(x) in b.matters
  {
    HomeIn(rules, b, KeyOf(prior));
  }

  // ----- Docket entries -----

  /** A proposed entry nobody has decided on, with nothing but what its proposer says. */
  function Proposed(e: DocketEntry): DocketEntry {
    DocketEntry(
      e.id, e.tenant_id, e.actor_user_id, e.matter_id, ProposedEntry, e.proposal, e.revised_at, e.source_document_id,
      e.source_rule_citation, None, None, None, None, None, None, e.body)
  }

  predicate ZoneOk(rules: CaseRules, p: Proposal) {
    p.due_at_timezone.Some? ==> rules.valid_timezone(p.due_at_timezone.value)
  }

  /** The document is on file in this tenant and matter. */
  predicate DocumentHere(b: Box, tenant_id: string, matter_id: string, id: string) {
    && id in b.documents && b.documents[id].document.tenant_id == tenant_id
    && b.documents[id].document.matter_id == matter_id
  }

  /** The source of a proposal, if it names one, is on file where the proposal is made. */
  predicate SourceHere(b: Box, tenant_id: string, matter_id: string, source: Option<string>) {
    source.Some? ==> DocumentHere(b, tenant_id, matter_id, source.value)
  }

  predicate MatterHere(b: Box, tenant_id: string, matter_id: string) {
    matter_id in b.matters && b.matters[matter_id].tenant_id == tenant_id
  }

  /** Exactly when a proposal is accepted; fitness for the log apart, here and below. */
  predicate MayProposeEntry(rules: CaseRules, b: Box, e: DocketEntry) {
    && MatterHere(b, e.tenant_id, e.matter_id) && e == Proposed(e) && e.id !in b.entry_by_id
    && rules.valid(AnEntry(e)) && ZoneOk(rules, e.proposal)
    && SourceHere(b, e.tenant_id, e.matter_id, e.source_document_id)
  }

  ghost predicate EntryProposed(rules: CaseRules, b: Box, e: DocketEntry, stamp: Stamp, r: Answer, c: Box) {
    Does(
      rules, b, MayProposeEntry(rules, b, e), AnEntry(e),
      Account(DocketEntryProposed, Create, None, e.actor_user_id, None), stamp, r, c)
  }

  lemma ProposingEntryPlanned(rules: CaseRules, b: Box, e: DocketEntry, stamp: Stamp)
    requires e.id in b.entry_by_id <==> e.id in b.entries.ids
    ensures Guarded(
      rules, b, MayProposeEntry(rules, b, e), PlanAppendEntry(rules, b, e, stamp), AnEntry(e),
      Account(DocketEntryProposed, Create, None, e.actor_user_id, None), stamp)
  {
  }

  lemma ProposingAnEntry(rules: CaseRules, b: Box, e: DocketEntry, stamp: Stamp)
    requires BoxOk(rules, b)
    ensures EntryProposed(
      rules, b, e, stamp, Reply(PlanAppendEntry(rules, b, e, stamp)), After(rules, b, AppendEntry(e), stamp))
  {
    EntryOnFile(rules, b, e.id);
    ProposingEntryPlanned(rules, b, e, stamp);
    GuardedDoes(
      rules, b, AppendEntry(e), MayProposeEntry(rules, b, e), PlanAppendEntry(rules, b, e, stamp), AnEntry(e),
      Account(DocketEntryProposed, Create, None, e.actor_user_id, None), stamp);
  }

  /** The entry as the editor left it. */
  function Revised(prior: DocketEntry, proposal: Proposal, now: string): DocketEntry {
    prior.(proposal := proposal, revised_at := Some(now))
  }

  predicate MayEdit(rules: CaseRules, b: Box, opts: EditOpts, now: string)
    requires opts.entry_id in b.entry_by_id
  {
    var prior := b.entry_by_id[opts.entry_id];
    && opts.tenant_id != "" && opts.matter_id != "" && opts.entry_id != "" && opts.editor != ""
    && MatterHere(b, opts.tenant_id, opts.matter_id)
    && prior.tenant_id == opts.tenant_id && prior.matter_id == opts.matter_id
    && prior.confirmation_state == ProposedEntry
    && rules.valid(AnEntry(Revised(prior, opts.proposal, now))) && ZoneOk(rules, opts.proposal)
  }

  /** Editing a docket entry: the entry keeps everything but its proposal, which is the one given, and the
      instant of the revision. */
  ghost predicate EntryEdited(rules: CaseRules, b: Box, opts: EditOpts, stamp: Stamp, r: Answer, c: Box) {
    if opts.entry_id !in b.entry_by_id then Refused(b, r, c)
    else
      var prior := b.entry_by_id[opts.entry_id];
      Does(
        rules, b, MayEdit(rules, b, opts, stamp.now), AnEntry(Revised(prior, opts.proposal, stamp.now)),
        Account(DocketEntryRevised, Update, Some(rules.state_hash(AnEntry(prior))), opts.editor, None), stamp, r, c)
  }

  lemma EditingPlanned(rules: CaseRules, b: Box, opts: EditOpts, stamp: Stamp)
    requires opts.entry_id in b.entry_by_id
    ensures var prior := b.entry_by_id[opts.entry_id];
      Guarded(
        rules, b, MayEdit(rules, b, opts, stamp.now), PlanEditEntry(rules, b, opts, stamp),
        AnEntry(Revised(prior, opts.proposal, stamp.now)),
        Account(DocketEntryRevised, Update, Some(rules.state_hash(AnEntry(prior))), opts.editor, None), stamp)
  {
  }

  lemma EditingAnEntry(rules: CaseRules, b: Box, opts: EditOpts, stamp: Stamp)
    requires BoxOk(rules, b)
    ensures EntryEdited(
      rules, b, opts, stamp, Reply(PlanEditEntry(rules, b, opts, stamp)), After(rules, b, EditEntry(opts), stamp))
  {
    EntryOnFile(rules, b, opts.entry_id);
    if opts.entry_id in b.entry_by_id {
      var prior := b.entry_by_id[opts.entry_id];
      EditingPlanned(rules, b, opts, stamp);
      GuardedDoes(
        rules, b, EditEntry(opts), MayEdit(rules, b, opts, stamp.now), PlanEditEntry(rules, b, opts, stamp),
        AnEntry(Revised(prior, opts.proposal, stamp.now)),
        Account(DocketEntryRevised, Update, Some(rules.state_hash(AnEntry(prior))), opts.editor, None), stamp);
    }
  }

  /** The entry as a lawyer dismissed it. */
  function Dismissed(prior: DocketEntry, actor: string, at: string, reason: string): DocketEntry {
    prior.(
      confirmation_state := DismissedEntry, dismissal_actor_user_id := Some(actor), dismissed_at := Some(at),
      dismissal_reason := Some(reason))
  }

  predicate MayDismiss(rules: CaseRules, b: Box, id: string, actor: string, at: string, reason: string)
    requires id in b.entry_by_id
  {
    && id != "" && actor != "" && at != "" && reason != "" && !Blank(rules, reason)
    && b.entry_by_id[id].confirmation_state == ProposedEntry
    && rules.valid(AnEntry(Dismissed(b.entry_by_id[id], actor, at, reason)))
  }

  ghost predicate EntryDismissed(
    rules: CaseRules, b: Box, id: string, actor: string, at: string, reason: string, stamp: Stamp, r: Answer, c: Box)
  {
    if id !in b.entry_by_id then Refused(b, r, c)
    else
      var prior := b.entry_by_id[id];
      Does(
        rules, b, MayDismiss(rules, b, id, actor, at, reason), AnEntry(Dismissed(prior, actor, at, reason)),
        Account(DocketEntryDismissed, Update, Some(rules.state_hash(AnEntry(prior))), actor, Some(reason)), stamp, r, c)
  }

  lemma DismissingPlanned(
    rules: CaseRules, b: Box, id: string, actor: string, at: string, reason: string, stamp: Stamp)
    requires id in b.entry_by_id && id in b.entries.home
    ensures var prior := b.entry_by_id[id];
      Guarded(
        rules, b, MayDismiss(rules, b, id, actor, at, reason), PlanDismissEntry(rules, b, id, actor, at, reason, stamp),
        AnEntry(Dismissed(prior, actor, at, reason)),
        Account(DocketEntryDismissed, Update, Some(rules.state_hash(AnEntry(prior))), actor, Some(reason)), stamp)
  {
  }

  lemma DismissingAnEntry(
    rules: CaseRules, b: Box, id: string, actor: string, at: string, reason: string, stamp: Stamp)
    requires BoxOk(rules, b)
    ensures EntryDismissed(
      rules, b, id, actor, at, reason, stamp, Reply(PlanDismissEntry(rules, b, id, actor, at, reason, stamp)),
      After(rules, b, DismissEntry(id, actor, at, reason), stamp))
  {
    EntryOnFile(rules, b, id);
    if id in b.entry_by_id {
      var prior := b.entry_by_id[id];
      DismissingPlanned(rules, b, id, actor, at, reason, stamp);
      GuardedDoes(
        rules, b, DismissEntry(id, actor, at, reason), MayDismiss(rules, b, id, actor, at, reason),
        PlanDismissEntry(rules, b, id, actor, at, reason, stamp), AnEntry(Dismissed(prior, actor, at, reason)),
        Account(DocketEntryDismissed, Update, Some(rules.state_hash(AnEntry(prior))), actor, Some(reason)), stamp);
    }
  }

  // ----- Deadlines -----

  /** The deadline in its new status. Only meeting it is dated, and only a deadline that was missed before
      says so and why. */
  function Turned(prior: Deadline, to: DeadlineStatus, at: string, reason: Option<string>): Deadline {
    match (prior.status, to)
    case (Missed, Met) =>
      prior.(status := Met, met_at := Some(at), previous_status := Some(Missed), transition_reason := reason)
    case (_, Met) => prior.(status := Met, met_at := Some(at))
    case _ => prior.(status := to)
  }

  /** What the log calls it, and whether it keeps the reason. */
  function TurnedAccount(rules: CaseRules, prior: Deadline, to: DeadlineStatus, actor: string, reason: Option<string>): Account {
    var before := Some(rules.state_hash(ADeadline(prior)));
    match to
    case Met =>
      if prior.status == Missed then Account(DeadlineMissedToMet, Update, before, actor, reason)
      else Account(DeadlineMet, Update, before, actor, None)
    case Missed => Account(DeadlineMissed, Update, before, actor, None)
    case _ => Account(DeadlineWithdrawn, Update, before, actor, None)
  }

  predicate MayTurn(
    rules: CaseRules, b: Box, id: string, to: DeadlineStatus, actor: string, at: string, reason: Option<string>)
    requires id in b.deadline_by_id
  {
    var prior := b.deadline_by_id[id];
    && id != "" && actor != "" && at != ""
    && (prior.status, to) in {(PendingDeadline, Met), (PendingDeadline, Missed), (PendingDeadline, Withdrawn), (Missed, Met)}
    && (prior.status == Missed ==> Given(rules, reason) && reason.value != "")
    && rules.valid(ADeadline(Turned(prior, to, at, reason)))
  }

  ghost predicate DeadlineTurned(
    rules: CaseRules, b: Box, id: string, to: DeadlineStatus, actor: string, at: string, reason: Option<string>,
    stamp: Stamp, r: Answer, c: Box)
  {
    if id !in b.deadline_by_id then Refused(b, r, c)
    else
      var prior := b.deadline_by_id[id];
      Does(
        rules, b, MayTurn(rules, b, id, to, actor, at, reason), ADeadline(Turned(prior, to, at, reason)),
        TurnedAccount(rules, prior, to, actor, reason), stamp, r, c)
  }

  lemma TurningPlanned(
    rules: CaseRules, b: Box, id: string, to: DeadlineStatus, actor: string, at: string, reason: Option<string>,
    stamp: Stamp)
    requires id in b.deadline_by_id && id in b.deadlines.home
    ensures var prior := b.deadline_by_id[id];
      Guarded(
        rules, b, MayTurn(rules, b, id, to, actor, at, reason),
        PlanTransitionDeadline(rules, b, id, to, actor, at, reason, stamp), ADeadline(Turned(prior, to, at, reason)),
        TurnedAccount(rules, prior, to, actor, reason), stamp)
  {
    var prior := b.deadline_by_id[id];
    if AllowedDeadline(prior.status, to) {
      TurningAlong(rules, b, id, to, actor, at, reason, stamp);
    }
  }

  lemma TurningAlong(
    rules: CaseRules, b: Box, id: string, to: DeadlineStatus, actor: string, at: string, reason: Option<string>,
    stamp: Stamp)
    requires id in b.deadline_by_id && id in b.deadlines.home && AllowedDeadline(b.deadline_by_id[id].status, to)
    ensures var prior := b.deadline_by_id[id];
      Guarded(
        rules, b, MayTurn(rules, b, id, to, actor, at, reason),
        PlanTransitionDeadline(rules, b, id, to, actor, at, reason, stamp), ADeadline(Turned(prior, to, at, reason)),
        TurnedAccount(rules, prior, to, actor, reason), stamp)
  {
    var prior := b.deadline_by_id[id];
    TurnedIsNext(rules, prior, to, actor, at, reason);
    if MayTurn(rules, b, id, to, actor, at, reason) {
      TurnedAccounts(rules, prior, to, actor, at, reason);
    }
  }

  lemma TurnedAccounts(
    rules: CaseRules, prior: Deadline, to: DeadlineStatus, actor: string, at: string, reason: Option<string>)
    requires AllowedDeadline(prior.status, to) && (prior.status == Missed ==> HasReason(reason))
    ensures Accounts(ADeadline(Turned(prior, to, at, reason)), TurnedAccount(rules, prior, to, actor, reason))
  {
  }

  lemma TurnedIsNext(
    rules: CaseRules, prior: Deadline, to: DeadlineStatus, actor: string, at: string, reason: Option<string>)
    requires AllowedDeadline(prior.status, to)
    ensures NextDeadline(prior, to, at, reason) == Turned(prior, to, at, reason)
    ensures var a := TurnedAccount(rules, prior, to, actor, reason);
      && a.kind == DeadlineKind(prior, to) && a.actor == actor && a.before == Some(rules.state_hash(ADeadline(prior)))
      && a.reason == (if Late(prior, to) then reason else None)
  {
  }

  lemma TurnedStays(prior: Deadline, to: DeadlineStatus, at: string, reason: Option<string>)
    ensures Succeeds(ADeadline(prior), ADeadline(Turned(prior, to, at, reason)))
  {
  }

  lemma TurningADeadline(
    rules: CaseRules, b: Box, id: string, to: DeadlineStatus, actor: string, at: string, reason: Option<string>,
    stamp: Stamp)
    requires BoxOk(rules, b)
    ensures DeadlineTurned(
      rules, b, id, to, actor, at, reason, stamp,
      Reply(PlanTransitionDeadline(rules, b, id, to, actor, at, reason, stamp)),
      After(rules, b, TransitionDeadline(id, to, actor, at, reason), stamp))
  {
    DeadlineOnFile(rules, b, id);
    if id in b.deadline_by_id {
      var prior := b.deadline_by_id[id];
      TurningPlanned(rules, b, id, to, actor, at, reason, stamp);
      TurnedStays(prior, to, at, reason);
      FitsOver(rules, b, ADeadline(prior), ADeadline(Turned(prior, to, at, reason)));
      GuardedDoes(
        rules, b, TransitionDeadline(id, to, actor, at, reason), MayTurn(rules, b, id, to, actor, at, reason),
        PlanTransitionDeadline(rules, b, id, to, actor, at, reason, stamp), ADeadline(Turned(prior, to, at, reason)),
        TurnedAccount(rules, prior, to, actor, reason), stamp);
    } else {
      RefusedWrite(rules, b, TransitionDeadline(id, to, actor, at, reason), stamp);
    }
  }

  // ----- Facts -----

  /** A candidate nobody has reviewed. */
  function Candidacy(f: Fact): Fact {
    Fact(
      f.id, f.tenant_id, f.actor_user_id, f.matter_id, Candidate, f.source_document_id, None, None, None, None, None, None,
      f.body)
  }

  predicate MayProposeFact(rules: CaseRules, b: Box, f: Fact) {
    && MatterHere(b, f.tenant_id, f.matter_id) && f == Candidacy(f) && f.id !in b.fact_by_id && rules.valid(AFact(f))
    && SourceHere(b, f.tenant_id, f.matter_id, f.source_document_id)
  }

  ghost predicate FactAppended(rules: CaseRules, b: Box, f: Fact, stamp: Stamp, r: Answer, c: Box) {
    Does(
      rules, b, MayProposeFact(rules, b, f), AFact(f), Account(FactProposed, Create, None, f.actor_user_id, None), stamp,
      r, c)
  }

  /** The very same fact again is answered without a write. */
  ghost predicate FactAppendedOnce(rules: CaseRules, b: Box, f: Fact, stamp: Stamp, r: Answer, c: Box) {
    if f.id != "" && f.id in b.fact_by_id && b.fact_by_id[f.id] == f then r == Ok(None) && c == b
    else FactAppended(rules, b, f, stamp, r, c)
  }

  lemma AppendingFactPlanned(rules: CaseRules, b: Box, f: Fact, stamp: Stamp)
    requires f.id in b.fact_by_id <==> f.id in b.facts.ids
    ensures Guarded(
      rules, b, MayProposeFact(rules, b, f), PlanAppendFact(rules, b, f, stamp), AFact(f),
      Account(FactProposed, Create, None, f.actor_user_id, None), stamp)
  {
  }

  lemma AppendingAFact(rules: CaseRules, b: Box, f: Fact, stamp: Stamp)
    requires BoxOk(rules, b)
    ensures FactAppended(
      rules, b, f, stamp, Reply(PlanAppendFact(rules, b, f, stamp)), After(rules, b, AppendFact(f), stamp))
  {
    FactOnFile(rules, b, f.id);
    AppendingFactPlanned(rules, b, f, stamp);
    GuardedDoes(
      rules, b, AppendFact(f), MayProposeFact(rules, b, f), PlanAppendFact(rules, b, f, stamp), AFact(f),
      Account(FactProposed, Create, None, f.actor_user_id, None), stamp);
  }

  lemma AppendingAFactOnce(rules: CaseRules, b: Box, f: Fact, stamp: Stamp)
    requires BoxOk(rules, b)
    ensures FactAppendedOnce(
      rules, b, f, stamp, Reply(PlanAppendFactOnce(rules, b, f, stamp)), After(rules, b, AppendFactOnce(f), stamp))
  {
    if f.id != "" && f.id in b.fact_by_id && b.fact_by_id[f.id] == f {
      IdlePlan(rules, b, AppendFactOnce(f), stamp);
    } else {
      OnceIsAppend(rules, b, f, stamp);
      AppendingAFact(rules, b, f, stamp);
    }
  }

  lemma OnceIsAppend(rules: CaseRules, b: Box, f: Fact, stamp: Stamp)
    requires !(f.id != "" && f.id in b.fact_by_id && b.fact_by_id[f.id] == f)
    ensures PlanAppendFactOnce(rules, b, f, stamp) == PlanAppendFact(rules, b, f, stamp)
    ensures After(rules, b, AppendFactOnce(f), stamp) == After(rules, b, AppendFact(f), stamp)
  {
  }

  /** The fact after its move, field by field: who reviewed it and when, when it was accepted and what it
      replaces, when and why it was rejected. A review on record stays. */
  function MovedFact(prior: Fact, opts: FactOpts): Fact {
    match opts.to
    case Candidate => prior
    case Reviewed =>
      prior.(status := Reviewed, reviewer_actor_user_id := Some(opts.reviewer), reviewed_at := Some(opts.at))
    case Accepted => prior.(status := Accepted, accepted_at := Some(opts.at), supersedes_fact_id := opts.supersedes)
    case Rejected =>
      prior.(
        status := Rejected, rejected_at := Some(opts.at), rejection_reason := opts.rejection_reason,
        reviewer_actor_user_id :=
          Some(if prior.reviewer_actor_user_id.Some? then prior.reviewer_actor_user_id.value else opts.reviewer),
        reviewed_at := Some(if prior.reviewed_at.Some? then prior.reviewed_at.value else opts.at))
  }

  function MovedFactAccount(rules: CaseRules, prior: Fact, opts: FactOpts): Account {
    var before := Some(rules.state_hash(AFact(prior)));
    match opts.to
    case Reviewed => Account(FactReviewed, Update, before, opts.reviewer, None)
    case Rejected => Account(FactRejected, Update, before, opts.reviewer, opts.rejection_reason)
    case _ =>
      if opts.supersedes.Some? then Account(FactReplacementAccepted, Create, None, opts.reviewer, None)
      else Account(FactAccepted, Update, before, opts.reviewer, None)
  }

  /** A replacement replaces another accepted fact of the same matter. */
  predicate MayReplace(b: Box, prior: Fact, target: string) {
    && target != "" && target != prior.id && target in b.fact_by_id
    && b.fact_by_id[target].matter_id == prior.matter_id && b.fact_by_id[target].status == Accepted
  }

  predicate MayMoveFact(rules: CaseRules, b: Box, id: string, opts: FactOpts)
    requires id in b.fact_by_id
  {
    var prior := b.fact_by_id[id];
    && id != "" && opts.reviewer != "" && opts.at != ""
    && (prior.status, opts.to) in {(Candidate, Reviewed), (Candidate, Rejected), (Reviewed, Accepted), (Reviewed, Rejected)}
    && (opts.to == Rejected ==> Given(rules, opts.rejection_reason) && opts.rejection_reason.value != "")
    && (opts.to == Accepted && opts.supersedes.Some? ==> MayReplace(b, prior, opts.supersedes.value))
    && rules.valid(AFact(MovedFact(prior, opts)))
  }

  ghost predicate FactMoved(rules: CaseRules, b: Box, id: string, opts: FactOpts, stamp: Stamp, r: Answer, c: Box) {
    if id !in b.fact_by_id then Refused(b, r, c)
    else
      var prior := b.fact_by_id[id];
      Does(
        rules, b, MayMoveFact(rules, b, id, opts), AFact(MovedFact(prior, opts)), MovedFactAccount(rules, prior, opts),
        stamp, r, c)
  }

  lemma MovedIsNext(rules: CaseRules, b: Box, prior: Fact, opts: FactOpts, stamp: Stamp)
    requires prior.supersedes_fact_id.None? && AllowedFact(prior.status, opts.to)
    ensures NextFact(prior, opts) == MovedFact(prior, opts)
    ensures var a := MovedFactAccount(rules, prior, opts);
      PlanFactEvent(rules, b, prior, opts, stamp) ==
        PlanOne(rules, b, a.kind, AFact(MovedFact(prior, opts)), a.actor, a.before, stamp, a.reason)
    ensures Promotable(MovedFact(prior, opts)) <==>
      (opts.to == Accepted && opts.supersedes.Some? ==> opts.supersedes.value != prior.id)
  {
  }

  /** An edge of the life cycle, and a replacement that is refused for the reasons `MayReplace` names. */
  lemma MovingAlongPlanned(rules: CaseRules, b: Box, id: string, opts: FactOpts, stamp: Stamp)
    requires id in b.fact_by_id && id in b.facts.home && b.fact_by_id[id].id == id
    requires AllowedFact(b.fact_by_id[id].status, opts.to) && b.fact_by_id[id].supersedes_fact_id.None?
    requires opts.to == Accepted && opts.supersedes.Some? ==>
      (ReplacementFault(b, b.fact_by_id[id], opts.supersedes.value) <==> !MayReplace(b, b.fact_by_id[id], opts.supersedes.value))
    ensures var (prior, plan) := (b.fact_by_id[id], PlanTransitionFact(rules, b, id, opts, stamp));
      if MayMoveFact(rules, b, id, opts) then plan == PlanFactEvent(rules, b, prior, opts, stamp) else plan.Err?
  {
    var prior := b.fact_by_id[id];
    MovedIsNext(rules, b, prior, opts, stamp);
    if opts.to == Rejected && !HasReason(opts.rejection_reason) {
      assert PlanFactEvent(rules, b, prior, opts, stamp).Err?;
    }
  }

  lemma MovingFactPlanned(rules: CaseRules, b: Box, id: string, opts: FactOpts, stamp: Stamp)
    requires id in b.fact_by_id && id in b.facts.home && b.fact_by_id[id].id == id
    requires AllowedFact(b.fact_by_id[id].status, opts.to) ==> b.fact_by_id[id].supersedes_fact_id.None?
    requires opts.to == Accepted && opts.supersedes.Some? && AllowedFact(b.fact_by_id[id].status, opts.to) ==>
      (ReplacementFault(b, b.fact_by_id[id], opts.supersedes.value) <==> !MayReplace(b, b.fact_by_id[id], opts.supersedes.value))
    ensures var prior := b.fact_by_id[id];
      Guarded(
        rules, b, MayMoveFact(rules, b, id, opts), PlanTransitionFact(rules, b, id, opts, stamp),
        AFact(MovedFact(prior, opts)), MovedFactAccount(rules, prior, opts), stamp)
  {
    var prior := b.fact_by_id[id];
    if AllowedFact(prior.status, opts.to) {
      MovedIsNext(rules, b, prior, opts, stamp);
      MovingAlongPlanned(rules, b, id, opts, stamp);
      if MayMoveFact(rules, b, id, opts) {
        MovedAccounts(rules, prior, opts);
      }
    }
  }

  lemma MovedAccounts(rules: CaseRules, prior: Fact, opts: FactOpts)
    requires opts.to != Candidate && (opts.to == Rejected ==> HasReason(opts.rejection_reason))
    ensures Accounts(AFact(MovedFact(prior, opts)), MovedFactAccount(rules, prior, opts))
  {
  }

  /** Nothing on file stands in the way of a replacement but what `MayReplace` names. */
  lemma ReplacingIsClear(rules: CaseRules, b: Box, id: string, target: string)
    requires BoxOk(rules, b) && id in b.fact_by_id && b.fact_by_id[id].status != Accepted && b.fact_by_id[id].id == id
    ensures ReplacementFault(b, b.fact_by_id[id], target) <==> !MayReplace(b, b.fact_by_id[id], target)
  {
    if target != id {
      WalkNeverRejects(rules, b, id, target);
    }
  }

  lemma OpenFactPointsNowhere(rules: CaseRules, b: Box, id: string)
    requires BoxOk(rules, b) && id in b.fact_by_id && b.fact_by_id[id].status != Accepted
    ensures b.fact_by_id[id].supersedes_fact_id.None?
  {
    RecordsParts(b);
  }

  lemma MovingAFact(rules: CaseRules, b: Box, id: string, opts: FactOpts, stamp: Stamp)
    requires BoxOk(rules, b)
    ensures FactMoved(
      rules, b, id, opts, stamp, Reply(PlanTransitionFact(rules, b, id, opts, stamp)),
      After(rules, b, TransitionFact(id, opts), stamp))
  {
    FactOnFile(rules, b, id);
    if id in b.fact_by_id {
      var prior := b.fact_by_id[id];
      if prior.status != Accepted {
        OpenFactPointsNowhere(rules, b, id);
        if opts.supersedes.Some? {
          ReplacingIsClear(rules, b, id, opts.supersedes.value);
        }
      }
      MovingFactPlanned(rules, b, id, opts, stamp);
      FitsOver(rules, b, AFact(prior), AFact(MovedFact(prior, opts)));
      GuardedDoes(
        rules, b, TransitionFact(id, opts), MayMoveFact(rules, b, id, opts), PlanTransitionFact(rules, b, id, opts, stamp),
        AFact(MovedFact(prior, opts)), MovedFactAccount(rules, prior, opts), stamp);
    }
  }

  // ----- Privilege markers -----

  /** A proposal nobody has decided on. */
  function MarkerProposal(m: Marker): Marker {
    Marker(
      m.id, m.tenant_id, m.actor_user_id, m.matter_id, OnDocument, m.target_id, m.kind, ProposedMarker, m.proposed_at,
      None, None, None, None, None, None, None, None, m.body)
  }

  predicate MayProposeMarker(rules: CaseRules, b: Box, m: Marker) {
    && m.matter_id in b.matters && m == MarkerProposal(m) && m.proposed_at.Some? && MarkerAt(b, m.id).None?
    && rules.valid(AMarker(m)) && rules.valid_marker_times(m)
    && DocumentHere(b, m.tenant_id, m.matter_id, m.target_id)
  }

  ghost predicate MarkerProposed(rules: CaseRules, b: Box, m: Marker, stamp: Stamp, r: Answer, c: Box) {
    Does(
      rules, b, MayProposeMarker(rules, b, m), AMarker(m),
      Account(PrivilegeMarkerProposed, Create, None, m.actor_user_id, None), stamp, r, c)
  }

  lemma ProposingMarkerPlanned(rules: CaseRules, b: Box, m: Marker, stamp: Stamp)
    requires MarkerAt(b, m.id).Some? <==> m.id in b.markers.ids
    ensures Guarded(
      rules, b, MayProposeMarker(rules, b, m), PlanAppendMarker(rules, b, m, stamp), AMarker(m),
      Account(PrivilegeMarkerProposed, Create, None, m.actor_user_id, None), stamp)
  {
  }

  lemma ProposingAMarker(rules: CaseRules, b: Box, m: Marker, stamp: Stamp)
    requires BoxOk(rules, b)
    ensures MarkerProposed(
      rules, b, m, stamp, Reply(PlanAppendMarker(rules, b, m, stamp)), After(rules, b, AppendMarker(m), stamp))
  {
    MarkerOnFile(rules, b, m.id);
    ProposingMarkerPlanned(rules, b, m, stamp);
    GuardedDoes(
      rules, b, AppendMarker(m), MayProposeMarker(rules, b, m), PlanAppendMarker(rules, b, m, stamp), AMarker(m),
      Account(PrivilegeMarkerProposed, Create, None, m.actor_user_id, None), stamp);
  }

  /** The marker as it was decided: who decided and when, and why it was dismissed or waived. */
  function Decided(prior: Marker, to: MarkerStatus, actor: string, at: string, reason: Option<string>): Marker {
    match to
    case ProposedMarker => prior
    case ConfirmedMarker =>
      prior.(status := ConfirmedMarker, confirmed_actor_user_id := Some(actor), confirmed_at := Some(at))
    case DismissedMarker =>
      prior.(
        status := DismissedMarker, dismissed_actor_user_id := Some(actor), dismissed_at := Some(at),
        dismissal_reason := reason)
    case WaivedMarker =>
      prior.(
        status := WaivedMarker, waiver_actor_user_id := Some(actor), waived_at := Some(at), waiver_reason := reason)
  }

  function DecidedAccount(
    rules: CaseRules, prior: Marker, to: MarkerStatus, actor: string, reason: Option<string>): Account
  {
    var before := Some(rules.state_hash(AMarker(prior)));
    match to
    case DismissedMarker => Account(PrivilegeMarkerDismissed, Update, before, actor, reason)
    case WaivedMarker => Account(PrivilegeMarkerWaived, PrivilegeWaive, before, actor, reason)
    case _ => Account(PrivilegeMarkerConfirmed, Update, before, actor, None)
  }

  /** Another confirmed marker, of any matter, that says the same of the same document. */
  ghost predicate ConfirmedElsewhere(b: Box, prior: Marker) {
    exists id: string :: MarkerAt(b, id).Some? && ConfirmedTwin(MarkerAt(b, id).value, prior)
  }

  ghost predicate MayDecide(
    rules: CaseRules, b: Box, id: string, to: MarkerStatus, actor: string, at: string, reason: Option<string>)
    requires MarkerAt(b, id).Some?
  {
    var prior := MarkerAt(b, id).value;
    && id != "" && actor != "" && at != ""
    && (prior.status, to) in {
        (ProposedMarker, ConfirmedMarker), (ProposedMarker, DismissedMarker), (ConfirmedMarker, WaivedMarker)}
    && (to != ConfirmedMarker ==> Given(rules, reason) && reason.value != "")
    && (to == ConfirmedMarker ==> !ConfirmedElsewhere(b, prior))
    && rules.valid(AMarker(Decided(prior, to, actor, at, reason)))
    && rules.valid_marker_times(Decided(prior, to, actor, at, reason))
  }

  ghost predicate MarkerDecided(
    rules: CaseRules, b: Box, id: string, to: MarkerStatus, actor: string, at: string, reason: Option<string>,
    stamp: Stamp, r: Answer, c: Box)
  {
    if MarkerAt(b, id).None? then Refused(b, r, c)
    else
      var prior := MarkerAt(b, id).value;
      Does(
        rules, b, MayDecide(rules, b, id, to, actor, at, reason), AMarker(Decided(prior, to, actor, at, reason)),
        DecidedAccount(rules, prior, to, actor, reason), stamp, r, c)
  }

  /** The scan of the matter finds a twin exactly when there is one anywhere. */
  lemma TwinIsFound(rules: CaseRules, b: Box, id: string)
    requires BoxOk(rules, b) && MarkerAt(b, id).Some? && id in b.markers.home
    ensures (exists other | other in Rows(b.markers, b.markers.home[id]) :: ConfirmedTwin(other, MarkerAt(b, id).value))
      <==> ConfirmedElsewhere(b, MarkerAt(b, id).value)
  {
    RecordsParts(b);
    MarkersIn(rules, b);
    var prior := MarkerAt(b, id).value;
    forall other | other in Rows(b.markers, b.markers.home[id])
      ensures MarkerAt(b, other.id) == Some(other)
    {
      RowIsFound(MarkerPlace, b.markers, b.markers.home[id], other);
    }
    forall other: string | MarkerAt(b, other).Some? && ConfirmedTwin(MarkerAt(b, other).value, prior)
      ensures MarkerAt(b, other).value in Rows(b.markers, b.markers.home[id])
    {
      TwinsShareMatter(rules, b, id, other);
    }
  }

  lemma DecidedIsNext(
    rules: CaseRules, prior: Marker, to: MarkerStatus, actor: string, at: string, reason: Option<string>)
    requires AllowedMarker(prior.status, to)
    ensures NextMarker(prior, to, actor, at, reason) == Decided(prior, to, actor, at, reason)
    ensures Succeeds(AMarker(prior), AMarker(Decided(prior, to, actor, at, reason)))
    ensures var a := DecidedAccount(rules, prior, to, actor, reason);
      && a.kind == MarkerKind(to) && a.actor == actor && a.before == Some(rules.state_hash(AMarker(prior)))
      && a.reason == (if to == ConfirmedMarker then None else reason)
      && (to == ConfirmedMarker || HasReason(reason) ==> Accounts(AMarker(Decided(prior, to, actor, at, reason)), a))
  {
  }

  /** Along an edge the guards are the ones named, fitness of the reason included. */
  lemma DecidingGuards(
    rules: CaseRules, b: Box, id: string, to: MarkerStatus, actor: string, at: string, reason: Option<string>, stamp: Stamp)
    requires MarkerAt(b, id).Some? && id in b.markers.home && AllowedMarker(MarkerAt(b, id).value.status, to)
    requires (exists other | other in Rows(b.markers, b.markers.home[id]) :: ConfirmedTwin(other, MarkerAt(b, id).value))
      <==> ConfirmedElsewhere(b, MarkerAt(b, id).value)
    ensures var (prior, plan) := (MarkerAt(b, id).value, PlanTransitionMarker(rules, b, id, to, actor, at, reason, stamp));
      if MayDecide(rules, b, id, to, actor, at, reason) then
        plan == PlanUpdate(
          rules, b, MarkerKind(to), AMarker(prior), AMarker(Decided(prior, to, actor, at, reason)), actor, stamp,
          if to == ConfirmedMarker then None else reason)
      else plan.Err?
  {
    DecidedIsNext(rules, MarkerAt(b, id).value, to, actor, at, reason);
    if to != ConfirmedMarker && !HasReason(reason) {
      ReasonIsRequired(rules, b, to, AMarker(MarkerAt(b, id).value), reason);
    }
  }

  lemma ReasonIsRequired(rules: CaseRules, b: Box, to: MarkerStatus, prior: Entity, reason: Option<string>)
    requires (to == DismissedMarker || to == WaivedMarker) && !HasReason(reason)
    ensures forall next: Entity, actor: string, stamp: Stamp ::
      PlanUpdate(rules, b, MarkerKind(to), prior, next, actor, stamp, reason).Err?
  {
  }

  lemma DecidingAlongPlanned(
    rules: CaseRules, b: Box, id: string, to: MarkerStatus, actor: string, at: string, reason: Option<string>, stamp: Stamp)
    requires MarkerAt(b, id).Some? && id in b.markers.home && AllowedMarker(MarkerAt(b, id).value.status, to)
    requires (exists other | other in Rows(b.markers, b.markers.home[id]) :: ConfirmedTwin(other, MarkerAt(b, id).value))
      <==> ConfirmedElsewhere(b, MarkerAt(b, id).value)
    ensures var prior := MarkerAt(b, id).value;
      Guarded(
        rules, b, MayDecide(rules, b, id, to, actor, at, reason),
        PlanTransitionMarker(rules, b, id, to, actor, at, reason, stamp), AMarker(Decided(prior, to, actor, at, reason)),
        DecidedAccount(rules, prior, to, actor, reason), stamp)
  {
    DecidedIsNext(rules, MarkerAt(b, id).value, to, actor, at, reason);
    DecidingGuards(rules, b, id, to, actor, at, reason, stamp);
  }

  lemma OffTheEdgePlanned(
    rules: CaseRules, b: Box, id: string, to: MarkerStatus, actor: string, at: string, reason: Option<string>, stamp: Stamp)
    requires MarkerAt(b, id).Some? ==> id in b.markers.home && !AllowedMarker(MarkerAt(b, id).value.status, to)
    ensures PlanTransitionMarker(rules, b, id, to, actor, at, reason, stamp).Err?
  {
  }

  lemma DecidingAMarker(
    rules: CaseRules, b: Box, id: string, to: MarkerStatus, actor: string, at: string, reason: Option<string>, stamp: Stamp)
    requires BoxOk(rules, b)
    ensures MarkerDecided(
      rules, b, id, to, actor, at, reason, stamp,
      Reply(PlanTransitionMarker(rules, b, id, to, actor, at, reason, stamp)),
      After(rules, b, TransitionMarker(id, to, actor, at, reason), stamp))
  {
    var w := TransitionMarker(id, to, actor, at, reason);
    MarkerOnFile(rules, b, id);
    if MarkerAt(b, id).Some? && AllowedMarker(MarkerAt(b, id).value.status, to) {
      var prior := MarkerAt(b, id).value;
      TwinIsFound(rules, b, id);
      DecidingAlongPlanned(rules, b, id, to, actor, at, reason, stamp);
      DecidedIsNext(rules, prior, to, actor, at, reason);
      FitsOver(rules, b, AMarker(prior), AMarker(Decided(prior, to, actor, at, reason)));
      GuardedDoes(
        rules, b, w, MayDecide(rules, b, id, to, actor, at, reason),
        PlanTransitionMarker(rules, b, id, to, actor, at, reason, stamp), AMarker(Decided(prior, to, actor, at, reason)),
        DecidedAccount(rules, prior, to, actor, reason), stamp);
    } else {
      OffTheEdgePlanned(rules, b, id, to, actor, at, reason, stamp);
      RefusedWrite(rules, b, w, stamp);
    }
  }

  /** A write comes to committing its plan. */
  lemma AfterCommits(rules: CaseRules, b: Box, w: Write, stamp: Stamp, plan: Plan)
    requires plan == PlanOf(rules, b, w, stamp) && !w.CreateMatter?
    ensures After(rules, b, w, stamp) == if plan.Err? then b else Committed(rules, b, plan.value)
  {
  }

  /** A write without a plan leaves everything as it was. */
  lemma RefusedWrite(rules: CaseRules, b: Box, w: Write, stamp: Stamp)
    requires PlanOf(rules, b, w, stamp).Err?
    ensures Refused(b, Reply(PlanOf(rules, b, w, stamp)), After(rules, b, w, stamp))
  {
  }

  // ----- Documents -----

  /** A document may only supersede another document of its own tenant and matter. */
  predicate SupersededHere(b: Box, d: Document) {
    d.supersedes_document_id.Some? ==>
      d.supersedes_document_id.value != d.id && DocumentHere(b, d.tenant_id, d.matter_id, d.supersedes_document_id.value)
  }

  predicate MayRegister(rules: CaseRules, b: Box, id: string, d: Document) {
    && d.matter_id == id && MatterHere(b, d.tenant_id, id) && d.status == Registered && d.id !in b.documents
    && rules.valid(ADocument(d)) && SupersededHere(b, d)
  }

  ghost predicate DocumentFiled(rules: CaseRules, b: Box, id: string, d: Document, stamp: Stamp, r: Answer, c: Box) {
    Does(
      rules, b, MayRegister(rules, b, id, d), ADocument(d),
      Account(DocumentRegistered, Create, None, d.actor_user_id, None), stamp, r, c)
  }

  lemma RegisteringPlanned(rules: CaseRules, b: Box, id: string, d: Document, stamp: Stamp)
    requires MapsOk(b)
    ensures Guarded(
      rules, b, MayRegister(rules, b, id, d), PlanRegisterDocument(rules, b, id, d, stamp), ADocument(d),
      Account(DocumentRegistered, Create, None, d.actor_user_id, None), stamp)
  {
  }

  lemma RegisteringADocument(rules: CaseRules, b: Box, id: string, d: Document, stamp: Stamp)
    requires BoxOk(rules, b)
    ensures DocumentFiled(
      rules, b, id, d, stamp, Reply(PlanRegisterDocument(rules, b, id, d, stamp)),
      After(rules, b, RegisterDocument(id, d), stamp))
  {
    MapsIn(rules, b);
    RegisteringPlanned(rules, b, id, d, stamp);
    GuardedDoes(
      rules, b, RegisterDocument(id, d), MayRegister(rules, b, id, d), PlanRegisterDocument(rules, b, id, d, stamp),
      ADocument(d), Account(DocumentRegistered, Create, None, d.actor_user_id, None), stamp);
  }

  // ----- Matters -----

  /** The matter in its new status, with the instant if it is archived now. */
  function Shelved(m: Matter, to: MatterStatus, now: string): Matter {
    m.(status := to, archived_at := if to == Archived then Some(now) else None)
  }

  predicate MayShelve(
    rules: CaseRules, b: Box, id: string, to: MatterStatus, actor: string, reason: string, now: string)
    requires id in b.matters
  {
    && actor != "" && !Blank(rules, reason) && b.matters[id].status != to
    && rules.valid(AMatter(Shelved(b.matters[id], to, now)))
  }

  ghost predicate MatterShelved(
    rules: CaseRules, b: Box, id: string, to: MatterStatus, actor: string, reason: string, stamp: Stamp, r: Answer, c: Box)
  {
    if id !in b.matters then Refused(b, r, c)
    else
      var m := b.matters[id];
      Does(
        rules, b, MayShelve(rules, b, id, to, actor, reason, stamp.now), AMatter(Shelved(m, to, stamp.now)),
        Account(
          if to == Archived then MatterArchived else MatterUnarchived, Update, Some(rules.state_hash(AMatter(m))), actor,
          Some(reason)), stamp, r, c)
  }

  lemma ShelvingPlanned(
    rules: CaseRules, b: Box, id: string, to: MatterStatus, actor: string, reason: string, stamp: Stamp)
    requires id in b.matters
    ensures var m := b.matters[id];
      Guarded(
        rules, b, MayShelve(rules, b, id, to, actor, reason, stamp.now),
        PlanMatterTransition(rules, b, id, to, actor, reason, stamp), AMatter(Shelved(m, to, stamp.now)),
        Account(
          if to == Archived then MatterArchived else MatterUnarchived, Update, Some(rules.state_hash(AMatter(m))), actor,
          Some(reason)), stamp)
  {
  }

  lemma ShelvingAMatter(
    rules: CaseRules, b: Box, id: string, to: MatterStatus, actor: string, reason: string, stamp: Stamp)
    requires BoxOk(rules, b)
    ensures MatterShelved(
      rules, b, id, to, actor, reason, stamp, Reply(PlanMatterTransition(rules, b, id, to, actor, reason, stamp)),
      After(rules, b, TransitionMatter(id, to, actor, reason), stamp))
  {
    var w := TransitionMatter(id, to, actor, reason);
    if id in b.matters {
      var m := b.matters[id];
      MatterFiled(rules, b, id);
      ShelvingPlanned(rules, b, id, to, actor, reason, stamp);
      FitsOver(rules, b, AMatter(m), AMatter(Shelved(m, to, stamp.now)));
      GuardedDoes(
        rules, b, w, MayShelve(rules, b, id, to, actor, reason, stamp.now),
        PlanMatterTransition(rules, b, id, to, actor, reason, stamp), AMatter(Shelved(m, to, stamp.now)),
        Account(
          if to == Archived then MatterArchived else MatterUnarchived, Update, Some(rules.state_hash(AMatter(m))), actor,
          Some(reason)), stamp);
    } else {
      RefusedWrite(rules, b, w, stamp);
    }
  }

  /** In a box in order every party has its id: the backfill answers without a write. */
  lemma BackfillingParties(rules: CaseRules, b: Box, id: string, actor: string, gen: nat -> string, stamp: Stamp)
    requires BoxOk(rules, b)
    ensures var (r, c) := (Reply(PlanEnsurePartyIds(rules, b, id, actor, gen, stamp)), After(rules, b, EnsurePartyIds(id, actor, gen), stamp));
      c == b && if id in b.matters && actor != "" then r == Ok(None) else r.Err?
  {
    if id in b.matters && actor != "" {
      EnsurePartyIdsIsIdle(rules, b, id, actor, gen, stamp);
      IdlePlan(rules, b, EnsurePartyIds(id, actor, gen), stamp);
    } else {
      RefusedWrite(rules, b, EnsurePartyIds(id, actor, gen), stamp);
    }
  }

  predicate Alteration(rules: CaseRules, m: Matter, patch: Patch) {
    exists f: DetailField :: Alters(rules, m, patch, f)
  }

  predicate AllEditable(patch: Patch) {
    forall key | key in patch :: Editable(key)
  }

  ghost predicate MayCorrect(rules: CaseRules, b: Box, id: string, patch: Patch, actor: string, reason: string)
    requires id in b.matters
  {
    var m := b.matters[id];
    && actor != "" && reason != "" && !Blank(rules, reason) && m.status == Active
    && AllEditable(patch) && AllPatchedWell(rules, patch)
    && Alteration(rules, m, patch) && rules.valid(AMatter(Corrected(rules, m, patch)))
  }

  /** The names of the corrected fields, each once, in ascending order. */
  ghost predicate NamesCorrected(rules: CaseRules, m: Matter, patch: Patch, names: seq<string>) {
    && Ascending(names)
    && forall name :: name in names <==> exists f: DetailField :: Alters(rules, m, patch, f) && FieldName(f) == name
  }

  /** What becomes of a correction whose event lists these fields. */
  ghost predicate Listed(
    rules: CaseRules, b: Box, x: Entity, e: Event, names: seq<string>, r: Answer, c: Box)
  {
    var listed := e.(changed_fields := Some(names));
    if rules.audit.valid(listed) then r == Ok(Some(x)) && Wrote(b, x, [listed], c) else Refused(b, r, c)
  }

  /** Correcting details: the texts wanted are stored, and the event lists the fields whose text changed. */
  ghost predicate DetailsCorrected(
    rules: CaseRules, b: Box, id: string, patch: Patch, actor: string, reason: string, stamp: Stamp, r: Answer, c: Box)
  {
    if id !in b.matters then Refused(b, r, c)
    else
      var m := b.matters[id];
      var x := AMatter(Corrected(rules, m, patch));
      var a := Account(MatterDetailsUpdated, Update, Some(rules.state_hash(AMatter(m))), actor, Some(reason));
      var e := EventFor(rules, x, a, Anchored(b, HomeOf(x)), stamp.event_id, stamp.now);
      if MayCorrect(rules, b, id, patch, actor, reason) && rules.audit.valid(e)
      then exists names | NamesCorrected(rules, m, patch, names) :: Listed(rules, b, x, e, names, r, c)
      else Refused(b, r, c)
  }

  /** The list the event carries. */
  ghost function ListOf(rules: CaseRules, m: Matter, patch: Patch): seq<string> {
    var edit := EditFields(rules, m, patch, EDITABLE_FIELDS, Edit(m, []));
    if edit.Ok? then SortedNames(edit.value.changed, SORTED_FIELDS) else []
  }

  lemma IsSorted(f: DetailField)
    ensures f in SORTED_FIELDS
  {
    assert SORTED_FIELDS[NamePlace(f)] == f;
  }

  lemma ListIsCorrect(rules: CaseRules, m: Matter, patch: Patch)
    requires AllPatchedWell(rules, patch)
    ensures NamesCorrected(rules, m, patch, ListOf(rules, m, patch))
  {
    EditCorrects(rules, m, patch);
    var changed := EditFields(rules, m, patch, EDITABLE_FIELDS, Edit(m, [])).value.changed;
    ChangedNamesInOrder(changed);
    forall name: string
      ensures IsNameOf(name, changed, SORTED_FIELDS) <==> exists f: DetailField :: Alters(rules, m, patch, f) && FieldName(f) == name
    {
      forall f: DetailField | Alters(rules, m, patch, f) && FieldName(f) == name
        ensures IsNameOf(name, changed, SORTED_FIELDS)
      {
        IsSorted(f);
      }
    }
  }

  lemma NothingChanged(rules: CaseRules, m: Matter, patch: Patch)
    requires AllPatchedWell(rules, patch)
    ensures var edit := EditFields(rules, m, patch, EDITABLE_FIELDS, Edit(m, []));
      edit.Ok? && (edit.value.changed == [] <==> !Alteration(rules, m, patch))
  {
    EditCorrects(rules, m, patch);
    var changed := EditFields(rules, m, patch, EDITABLE_FIELDS, Edit(m, [])).value.changed;
    if changed != [] {
      assert changed[0] in changed;
      assert Alters(rules, m, patch, changed[0]);
    }
    if f: DetailField :| Alters(rules, m, patch, f) {
      assert f in changed;
    }
  }

  /** The step a correction plans, with the list in its event. */
  function ListedStep(s: Step, names: seq<string>): Step {
    s.(e := s.e.(event := s.e.event.(changed_fields := Some(names))))
  }

  lemma CorrectingGuards(
    rules: CaseRules, b: Box, id: string, patch: Patch, actor: string, reason: string, stamp: Stamp)
    requires id in b.matters && !MayCorrect(rules, b, id, patch, actor, reason)
    ensures PlanUpdateDetails(rules, b, id, patch, actor, reason, stamp).Err?
  {
    var m := b.matters[id];
    EditCorrects(rules, m, patch);
    if AllPatchedWell(rules, patch) {
      NothingChanged(rules, m, patch);
    }
  }

  lemma CorrectingPlanned(
    rules: CaseRules, b: Box, id: string, patch: Patch, actor: string, reason: string, stamp: Stamp)
    requires id in b.matters && MayCorrect(rules, b, id, patch, actor, reason) && b.matters[id].id == id
    requires LatestAfter(Chain(b, id), Key(TMatter, id)) == Some(rules.state_hash(AMatter(b.matters[id])))
    ensures var (m, plan) := (b.matters[id], PlanUpdateDetails(rules, b, id, patch, actor, reason, stamp));
      var one := PlanOne(
        rules, b, MatterDetailsUpdated, AMatter(Corrected(rules, m, patch)), actor, Some(rules.state_hash(AMatter(m))), stamp,
        Some(reason));
      if one.Err? then plan.Err?
      else
        var step := ListedStep(one.value[0], ListOf(rules, m, patch));
        if rules.audit.valid(step.e.event) then plan == Ok([step]) else plan.Err?
  {
    EditCorrects(rules, b.matters[id], patch);
    NothingChanged(rules, b.matters[id], patch);
  }

  lemma CorrectingDetails(
    rules: CaseRules, b: Box, id: string, patch: Patch, actor: string, reason: string, stamp: Stamp)
    requires BoxOk(rules, b)
    ensures DetailsCorrected(
      rules, b, id, patch, actor, reason, stamp, Reply(PlanUpdateDetails(rules, b, id, patch, actor, reason, stamp)),
      After(rules, b, UpdateDetails(id, patch, actor, reason), stamp))
  {
    var w := UpdateDetails(id, patch, actor, reason);
    var plan := PlanOf(rules, b, w, stamp);
    if id !in b.matters {
      RefusedWrite(rules, b, w, stamp);
    } else if !MayCorrect(rules, b, id, patch, actor, reason) {
      CorrectingGuards(rules, b, id, patch, actor, reason, stamp);
      RefusedWrite(rules, b, w, stamp);
    } else {
      CorrectingWhenAllowed(rules, b, id, patch, actor, reason, stamp);
    }
  }

  lemma CorrectingWhenAllowed(
    rules: CaseRules, b: Box, id: string, patch: Patch, actor: string, reason: string, stamp: Stamp)
    requires BoxOk(rules, b) && id in b.matters && MayCorrect(rules, b, id, patch, actor, reason)
    ensures DetailsCorrected(
      rules, b, id, patch, actor, reason, stamp, Reply(PlanUpdateDetails(rules, b, id, patch, actor, reason, stamp)),
      After(rules, b, UpdateDetails(id, patch, actor, reason), stamp))
  {
    ListIsCorrect(rules, b.matters[id], patch);
    CorrectingListed(rules, b, id, patch, actor, reason, stamp);
  }

  lemma CorrectingListed(
    rules: CaseRules, b: Box, id: string, patch: Patch, actor: string, reason: string, stamp: Stamp)
    requires LedgerOk(rules, b) && id in b.matters && MayCorrect(rules, b, id, patch, actor, reason)
    ensures var m := b.matters[id];
      var x := AMatter(Corrected(rules, m, patch));
      var a := Account(MatterDetailsUpdated, Update, Some(rules.state_hash(AMatter(m))), actor, Some(reason));
      var e := EventFor(rules, x, a, Anchored(b, HomeOf(x)), stamp.event_id, stamp.now);
      var r := Reply(PlanUpdateDetails(rules, b, id, patch, actor, reason, stamp));
      var c := After(rules, b, UpdateDetails(id, patch, actor, reason), stamp);
      if rules.audit.valid(e) then Listed(rules, b, x, e, ListOf(rules, m, patch), r, c) else Refused(b, r, c)
  {
    var (w, m) := (UpdateDetails(id, patch, actor, reason), b.matters[id]);
    var x := AMatter(Corrected(rules, m, patch));
    var a := Account(MatterDetailsUpdated, Update, Some(rules.state_hash(AMatter(m))), actor, Some(reason));
    MatterFiled(rules, b, id);
    FitsOver(rules, b, AMatter(m), x);
    PlannedEvent(rules, b, x, a, stamp);
    CorrectingPlanned(rules, b, id, patch, actor, reason, stamp);
    var one := PlanOne(rules, b, a.kind, x, a.actor, a.before, stamp, a.reason);
    if one.Ok? && rules.audit.valid(ListedStep(one.value[0], ListOf(rules, m, patch)).e.event) {
      ListedWrote(rules, b, w, stamp, ListedStep(one.value[0], ListOf(rules, m, patch)));
    } else {
      RefusedWrite(rules, b, w, stamp);
    }
  }

  /** The event of a plan of one record. */
  lemma PlannedEvent(rules: CaseRules, b: Box, x: Entity, a: Account, stamp: Stamp)
    requires LedgerOk(rules, b) && HomeOf(x) in b.matters && Accounts(x, a)
    ensures var (e, plan) := (
        EventFor(rules, x, a, Anchored(b, HomeOf(x)), stamp.event_id, stamp.now),
        PlanOne(rules, b, a.kind, x, a.actor, a.before, stamp, a.reason));
      && (plan.Ok? <==> rules.audit.valid(e))
      && (plan.Ok? ==> |plan.value| == 1 && plan.value[0].x == x && plan.value[0].e.event == e)
  {
    HeadIsAnchored(rules, b, HomeOf(x));
  }

  lemma ListedWrote(rules: CaseRules, b: Box, w: Write, stamp: Stamp, s: Step)
    requires PlanOf(rules, b, w, stamp) == Ok([s]) && !w.CreateMatter? && LedgerOk(rules, b) && Fits(b, s.x)
    ensures Reply(PlanOf(rules, b, w, stamp)) == Ok(Some(s.x)) && Wrote(b, s.x, [s.e.event], After(rules, b, w, stamp))
  {
    LedgerParts(rules, b);
    CommittedOne(rules, b, [s]);
    AppliedWrote(rules, b, s);
  }

  // ----- Opening a matter -----

  /** A successor is another matter of the tenant, of a different type. */
  predicate SuccessorHere(b: Box, m: Matter) {
    m.successor_matter_id.Some? ==>
      var ref := m.successor_matter_id.value;
      ref != m.id && MatterHere(b, m.tenant_id, ref) && b.matters[ref].matter_type != m.matter_type
  }

  predicate MayOpen(rules: CaseRules, b: Box, m: Matter, gen: nat -> string) {
    && m.status == Active && m.archived_at.None?
    && !m.external_ocr_authorized && !m.sync_grant_present && !m.llm_extraction_opt_in
    && m.id !in b.matters && SuccessorHere(b, m) && rules.valid(AMatter(m)) && AssignPartyIds(m.parties, gen).Ok?
  }

  type MatterAnswer = Result<Matter, Error>

  /** What a caller hears of the plan of a matter. */
  function MatterReply(plan: Plan): MatterAnswer {
    if plan.Err? then Err(plan.error)
    else if plan.value != [] && plan.value[0].x.AMatter? then Ok(plan.value[0].x.matter)
    else Err(InvalidArgument)
  }

  /** Opening a matter: it is stored with an id for every party, and its chain starts with its registration. */
  ghost predicate MatterOpened(
    rules: CaseRules, b: Box, m: Matter, gen: nat -> string, stamp: Stamp, r: MatterAnswer, c: Box)
  {
    if !MayOpen(rules, b, m, gen) then r.Err? && c == b
    else
      var next := m.(parties := AssignPartyIds(m.parties, gen).value);
      var e := EventFor(
        rules, AMatter(next), Account(MatterRegistered, Create, None, m.actor_user_id, None), None, stamp.event_id, stamp.now);
      if rules.audit.valid(e) then
        && r == Ok(next) && Gives(m.parties, GivenIds(m.parties), next.parties)
        && Holds(b, AMatter(next), c) && Chain(c, m.id) == [e]
        && forall k: string | k != m.id :: Chain(c, k) == Chain(b, k)
      else r.Err? && c == b
  }

  lemma OpeningPlanned(rules: CaseRules, b: Box, m: Matter, gen: nat -> string, stamp: Stamp)
    requires MapsOk(b)
    ensures var plan := PlanCreateMatter(rules, b, m, gen, stamp);
      if MayOpen(rules, b, m, gen) then
        var next := m.(parties := AssignPartyIds(m.parties, gen).value);
        var e := EventFor(
          rules, AMatter(next), Account(MatterRegistered, Create, None, m.actor_user_id, None), None, stamp.event_id, stamp.now);
        if rules.audit.valid(e) then plan == Ok([Step(AMatter(next), StoredEvent(1, e))]) else plan.Err?
      else plan.Err?
  {
  }

  lemma OpeningAMatter(rules: CaseRules, b: Box, m: Matter, gen: nat -> string, stamp: Stamp)
    requires BoxOk(rules, b) && forall k: nat :: gen(k) != ""
    ensures MatterOpened(
      rules, b, m, gen, stamp, MatterReply(PlanCreateMatter(rules, b, m, gen, stamp)),
      After(rules, b, CreateMatter(m, gen), stamp))
  {
    LedgerParts(rules, b);
    OpeningPlanned(rules, b, m, gen, stamp);
    var plan := PlanCreateMatter(rules, b, m, gen, stamp);
    if plan.Ok? {
      AssignedPartiesOk(m.parties, gen);
      OpenedHolds(rules, b, plan.value[0]);
    }
  }

  lemma OpenedHolds(rules: CaseRules, b: Box, s: Step)
    requires TablesOk(b) && s.x.AMatter?
    ensures var c := Created(rules, b, s);
      && Holds(b, s.x, c) && Chain(c, HomeOf(s.x)) == [s.e.event]
      && forall k: string | k != HomeOf(s.x) :: Chain(c, k) == Chain(b, k)
  {
    CreatedTables(rules, b, s);
    CreatedLog(rules, b, s);
  }

  // ----- Confirming an entry -----

  function Confirmed(prior: DocketEntry, opts: ConfirmOpts): DocketEntry {
    prior.(
      confirmation_state := ConfirmedEntry, confirmation_actor_user_id := Some(opts.actor),
      confirmed_at := Some(opts.at), confirmed_deadline_id := Some(opts.deadline_id))
  }

  /** The deadline an entry turns into: its kind, date and owner, in the confirming lawyer's name. */
  function DeadlineFrom(e: DocketEntry, opts: ConfirmOpts): Deadline {
    Deadline(
      opts.deadline_id, e.tenant_id, opts.actor, e.matter_id, e.proposal.kind, e.proposal.due_at, e.proposal.owner_user_id,
      PendingDeadline, if e.source_rule_citation == Some("") then None else e.source_rule_citation, None, None, None)
  }

  predicate OptsGiven(id: string, opts: ConfirmOpts) {
    id != "" && opts.actor != "" && opts.at != "" && opts.deadline_id != ""
  }

  predicate MayConfirm(rules: CaseRules, b: Box, id: string, opts: ConfirmOpts)
    requires id in b.entry_by_id
  {
    var prior := b.entry_by_id[id];
    && OptsGiven(id, opts) && prior.confirmation_state == ProposedEntry && prior.proposal.due_at_kind == DateTime
    && rules.valid(AnEntry(Confirmed(prior, opts))) && rules.valid(ADeadline(DeadlineFrom(prior, opts)))
    && opts.deadline_id !in b.deadline_by_id
  }

  type ConfirmAnswer = Result<(DocketEntry, Deadline, bool), Error>

  /** The confirmed entry, its deadline, and whether they were there before. */
  function ConfirmReply(b: Box, id: string, plan: Plan): ConfirmAnswer {
    if plan.Err? then Err(plan.error)
    else if |plan.value| == 2 && plan.value[0].x.AnEntry? && plan.value[1].x.ADeadline? then
      Ok((plan.value[0].x.entry, plan.value[1].x.deadline, false))
    else if id in b.entry_by_id && AlreadyConfirmed(b, b.entry_by_id[id]) then
      var e := b.entry_by_id[id];
      Ok((e, b.deadline_by_id[e.confirmed_deadline_id.value], true))
    else Err(InvalidArgument)
  }

  /** The two events of a confirmation, one on top of the other. */
  function ConfirmEvents(rules: CaseRules, b: Box, prior: DocketEntry, opts: ConfirmOpts, stamp: Stamp): (Event, Event) {
    var first := EventFor(
      rules, AnEntry(Confirmed(prior, opts)),
      Account(DocketEntryConfirmed, Update, Some(rules.state_hash(AnEntry(prior))), opts.actor, None),
      Anchored(b, prior.matter_id), stamp.event_id, stamp.now);
    var second := EventFor(
      rules, ADeadline(DeadlineFrom(prior, opts)), Account(DeadlineRegistered, Create, None, opts.actor, None),
      Some(rules.audit.hash(first)), stamp.second_event_id, stamp.now);
    (first, second)
  }

  /** `c` holds both records and both events and is otherwise as `b`. */
  ghost predicate WroteBoth(b: Box, e: DocketEntry, d: Deadline, first: Event, second: Event, c: Box) {
    && (forall key: Key ::
          Lookup(c, key) ==
            if key == KeyOf(ADeadline(d)) then Some(ADeadline(d))
            else if key == KeyOf(AnEntry(e)) then Some(AnEntry(e))
            else Lookup(b, key))
    && Chain(c, e.matter_id) == Chain(b, e.matter_id) + [first, second]
    && forall k: string | k != e.matter_id :: Chain(c, k) == Chain(b, k)
  }

  /** Confirming an entry: the entry and the deadline made from it are stored together, each with its event;
      a confirmed entry is answered with its deadline, and nothing is written. */
  ghost predicate EntryConfirmed(
    rules: CaseRules, b: Box, id: string, opts: ConfirmOpts, stamp: Stamp, r: ConfirmAnswer, c: Box)
  {
    if id !in b.entry_by_id then r.Err? && c == b
    else
      var prior := b.entry_by_id[id];
      if prior.confirmation_state == ConfirmedEntry && OptsGiven(id, opts) then
        && prior.confirmed_deadline_id.Some? && prior.confirmed_deadline_id.value in b.deadline_by_id
        && r == Ok((prior, b.deadline_by_id[prior.confirmed_deadline_id.value], true)) && c == b
      else
        var (first, second) := ConfirmEvents(rules, b, prior, opts, stamp);
        if MayConfirm(rules, b, id, opts) && rules.audit.valid(first) && rules.audit.valid(second) then
          && r == Ok((Confirmed(prior, opts), DeadlineFrom(prior, opts), false))
          && WroteBoth(b, Confirmed(prior, opts), DeadlineFrom(prior, opts), first, second, c)
        else r.Err? && c == b
  }

  lemma ConfirmingPlanned(rules: CaseRules, b: Box, id: string, opts: ConfirmOpts, stamp: Stamp)
    requires id in b.entry_by_id && id in b.entries.home && b.entry_by_id[id].confirmation_state != ConfirmedEntry
    requires opts.deadline_id in b.deadlines.ids <==> opts.deadline_id in b.deadline_by_id
    requires Anchored(b, b.entry_by_id[id].matter_id) == HeadOf(rules.audit, Chain(b, b.entry_by_id[id].matter_id))
    ensures var (prior, plan) := (b.entry_by_id[id], PlanConfirmEntry(rules, b, id, opts, stamp));
      var (first, second) := ConfirmEvents(rules, b, prior, opts, stamp);
      if MayConfirm(rules, b, id, opts) && rules.audit.valid(first) && rules.audit.valid(second) then
        && plan.Ok? && |plan.value| == 2
        && plan.value[0].x == AnEntry(Confirmed(prior, opts)) && plan.value[0].e.event == first
        && plan.value[1].x == ADeadline(DeadlineFrom(prior, opts)) && plan.value[1].e.event == second
      else plan.Err?
  {
    var (prior, es) := (b.entry_by_id[id], Chain(b, b.entry_by_id[id].matter_id));
    var (first, second) := ConfirmEvents(rules, b, prior, opts, stamp);
    assert HeadOf(rules.audit, es + [first]) == Some(rules.audit.hash(first));
    assert DeadlineOf(Confirmed(prior, opts), opts.deadline_id, opts.actor) == DeadlineFrom(prior, opts);
  }

  lemma BothWritten(rules: CaseRules, b: Box, e: DocketEntry, d: Deadline, steps: seq<Step>)
    requires TablesOk(b) && |steps| == 2 && steps[0].x == AnEntry(e) && steps[1].x == ADeadline(d)
    requires e.matter_id == d.matter_id && Fits(b, AnEntry(e)) && Fits(b, ADeadline(d))
    ensures WroteBoth(b, e, d, steps[0].e.event, steps[1].e.event, Committed(rules, b, steps))
  {
    var c := Applied(rules, b, steps[0]);
    CommittedTwo(rules, b, steps);
    AppliedWrote(rules, b, steps[0]);
    StepLookup(rules, b, steps[0]);
    assert Lookup(c, KeyOf(steps[1].x)) == Lookup(b, KeyOf(steps[1].x));
    AppliedWrote(rules, c, steps[1]);
    var es := Chain(b, HomeOf(steps[0].x));
    assert es + [steps[0].e.event] + [steps[1].e.event] == es + [steps[0].e.event, steps[1].e.event];
  }

  lemma ConfirmingAnEntry(rules: CaseRules, b: Box, id: string, opts: ConfirmOpts, stamp: Stamp)
    requires BoxOk(rules, b)
    ensures EntryConfirmed(
      rules, b, id, opts, stamp, ConfirmReply(b, id, PlanConfirmEntry(rules, b, id, opts, stamp)),
      After(rules, b, ConfirmEntry(id, opts), stamp))
  {
    var (w, plan) := (ConfirmEntry(id, opts), PlanConfirmEntry(rules, b, id, opts, stamp));
    EntryOnFile(rules, b, id);
    if id !in b.entry_by_id || !OptsGiven(id, opts) {
      assert plan.Err?;
    } else if b.entry_by_id[id].confirmation_state == ConfirmedEntry {
      ReconfirmIsIdle(rules, b, id, opts, stamp);
      ConfirmedIsReady(rules, b, id);
    } else {
      ConfirmingAProposal(rules, b, id, opts, stamp);
    }
  }

  lemma ConfirmingAProposal(rules: CaseRules, b: Box, id: string, opts: ConfirmOpts, stamp: Stamp)
    requires BoxOk(rules, b) && id in b.entry_by_id && b.entry_by_id[id].confirmation_state != ConfirmedEntry
    ensures EntryConfirmed(
      rules, b, id, opts, stamp, ConfirmReply(b, id, PlanConfirmEntry(rules, b, id, opts, stamp)),
      After(rules, b, ConfirmEntry(id, opts), stamp))
  {
    var (prior, plan) := (b.entry_by_id[id], PlanConfirmEntry(rules, b, id, opts, stamp));
    EntryOnFile(rules, b, id);
    DeadlineOnFile(rules, b, opts.deadline_id);
    HeadIsAnchored(rules, b, prior.matter_id);
    ConfirmingPlanned(rules, b, id, opts, stamp);
    AfterCommits(rules, b, ConfirmEntry(id, opts), stamp, plan);
    if plan.Ok? {
      ConfirmedWritten(rules, b, prior, Confirmed(prior, opts), DeadlineFrom(prior, opts), plan.value);
    }
  }

  lemma ConfirmedWritten(
    rules: CaseRules, b: Box, prior: DocketEntry, e: DocketEntry, d: Deadline, steps: seq<Step>)
    requires LedgerOk(rules, b) && Lookup(b, KeyOf(AnEntry(prior))) == Some(AnEntry(prior))
    requires Succeeds(AnEntry(prior), AnEntry(e)) && d.matter_id == e.matter_id && Lookup(b, KeyOf(ADeadline(d))).None?
    requires |steps| == 2 && steps[0].x == AnEntry(e) && steps[1].x == ADeadline(d)
    ensures WroteBoth(b, e, d, steps[0].e.event, steps[1].e.event, Committed(rules, b, steps))
  {
    LedgerParts(rules, b);
    FitsOver(rules, b, AnEntry(prior), AnEntry(e));
    BothWritten(rules, b, e, d, steps);
  }
}
