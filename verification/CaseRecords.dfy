/** The records of a case box, their life cycles (`docs/contracts/case-box-contract/src/transitions.ts`)
    and the rules taken from outside: hashes, schemas, time zones. */
module CaseRecords {
  import opened Wrappers
  import opened AuditChain

  datatype Error =
    | InvalidArgument
    | InvalidPayload
    | InvalidInitialState
    | LocalOnlyExternalFlagRejected
    | DuplicateId
    | UnknownMatter
    | UnknownDocument
    | WrongTenant
    | WrongMatter
    | IllegalTransition
    | MatterIsArchived
    | NoEditableChange
    | AuditChainDesync

  // ----- Records -----

  /** The six descriptive fields a lawyer may correct, in the source's order. */
  datatype DetailField =
    | Name
    | RetainerScope
    | CaseTypeText
    | CaseProgressText
    | CourtContactText
    | ContentionSummaryText

  const EDITABLE_FIELDS: seq<DetailField> :=
    [Name, RetainerScope, CaseTypeText, CaseProgressText, CourtContactText, ContentionSummaryText]

  function FieldName(f: DetailField): string {
    match f
    case Name => "name"
    case RetainerScope => "retainer_scope"
    case CaseTypeText => "case_type_text"
    case CaseProgressText => "case_progress_text"
    case CourtContactText => "court_contact_text"
    case ContentionSummaryText => "contention_summary_text"
  }

  /** A party without an id, or with an empty one, has none yet. */
  datatype Party = Party(id: Option<string>, body: string)

  datatype MatterStatus = Active | Archived

  /** `texts` holds the descriptive fields that are present. */
  datatype Matter = Matter(
    id: string,
    tenant_id: string,
    actor_user_id: string,
    matter_type: string,
    status: MatterStatus,
    archived_at: Option<string>,
    external_ocr_authorized: bool,
    sync_grant_present: bool,
    llm_extraction_opt_in: bool,
    successor_matter_id: Option<string>,
    parties: seq<Party>,
    texts: map<DetailField, string>,
    body: string)

  datatype DocumentStatus = Registered | OtherStatus(name: string)

  datatype Document = Document(
    id: string,
    tenant_id: string,
    actor_user_id: string,
    matter_id: string,
    status: DocumentStatus,
    supersedes_document_id: Option<string>,
    body: string)

  datatype FactStatus = Candidate | Reviewed | Accepted | Rejected

  datatype Fact = Fact(
    id: string,
    tenant_id: string,
    actor_user_id: string,
    matter_id: string,
    status: FactStatus,
    source_document_id: Option<string>,
    reviewer_actor_user_id: Option<string>,
    reviewed_at: Option<string>,
    accepted_at: Option<string>,
    rejected_at: Option<string>,
    rejection_reason: Option<string>,
    supersedes_fact_id: Option<string>,
    body: string)

  datatype EntryState = ProposedEntry | ConfirmedEntry | DismissedEntry

  datatype DueKind = DateOnly | DateTime

  /** The part of a docket entry that an edit may replace. */
  datatype Proposal = Proposal(
    kind: string,
    due_at: string,
    due_at_kind: DueKind,
    due_at_timezone: Option<string>,
    owner_user_id: string,
    reminder_offsets: Option<string>)

  datatype DocketEntry = DocketEntry(
    id: string,
    tenant_id: string,
    actor_user_id: string,
    matter_id: string,
    confirmation_state: EntryState,
    proposal: Proposal,
    revised_at: Option<string>,
    source_document_id: Option<string>,
    source_rule_citation: Option<string>,
    confirmation_actor_user_id: Option<string>,
    confirmed_at: Option<string>,
    confirmed_deadline_id: Option<string>,
    dismissal_actor_user_id: Option<string>,
    dismissed_at: Option<string>,
    dismissal_reason: Option<string>,
    body: string)

  datatype DeadlineStatus = PendingDeadline | Met | Missed | Withdrawn

  datatype Deadline = Deadline(
    id: string,
    tenant_id: string,
    actor_user_id: string,
    matter_id: string,
    kind: string,
    due_at: string,
    owner_user_id: string,
    status: DeadlineStatus,
    source_rule_citation: Option<string>,
    met_at: Option<string>,
    previous_status: Option<DeadlineStatus>,
    transition_reason: Option<string>)

  datatype TargetType = OnDocument | OnMatter | OnFact

  datatype MarkerStatus = ProposedMarker | ConfirmedMarker | DismissedMarker | WaivedMarker

  datatype Marker = Marker(
    id: string,
    tenant_id: string,
    actor_user_id: string,
    matter_id: string,
    target_type: TargetType,
    target_id: string,
    kind: string,
    status: MarkerStatus,
    proposed_at: Option<string>,
    confirmed_actor_user_id: Option<string>,
    confirmed_at: Option<string>,
    dismissed_actor_user_id: Option<string>,
    dismissed_at: Option<string>,
    dismissal_reason: Option<string>,
    waiver_actor_user_id: Option<string>,
    waived_at: Option<string>,
    waiver_reason: Option<string>,
    body: string)

  /** Any stored record. */
  datatype Entity =
    | AMatter(matter: Matter)
    | ADocument(document: Document)
    | AFact(fact: Fact)
    | AnEntry(entry: DocketEntry)
    | ADeadline(deadline: Deadline)
    | AMarker(marker: Marker)

  datatype Key = Key(entity_type: EntityType, id: string)

  function KeyOf(x: Entity): Key {
    match x
    case AMatter(m) => Key(TMatter, m.id)
    case ADocument(d) => Key(TDocument, d.id)
    case AFact(f) => Key(TFact, f.id)
    case AnEntry(e) => Key(TDocketEntry, e.id)
    case ADeadline(d) => Key(TDeadline, d.id)
    case AMarker(m) => Key(TPrivilegeMarker, m.id)
  }

  /** The matter a record belongs to. */
  function HomeOf(x: Entity): string {
    match x
    case AMatter(m) => m.id
    case ADocument(d) => d.matter_id
    case AFact(f) => f.matter_id
    case AnEntry(e) => e.matter_id
    case ADeadline(d) => d.matter_id
    case AMarker(m) => m.matter_id
  }

  function TenantOf(x: Entity): string {
    match x
    case AMatter(m) => m.tenant_id
    case ADocument(d) => d.tenant_id
    case AFact(f) => f.tenant_id
    case AnEntry(e) => e.tenant_id
    case ADeadline(d) => d.tenant_id
    case AMarker(m) => m.tenant_id
  }

  /** Hashes, schemas and text rules from outside the model. */
  datatype CaseRules = CaseRules(
    audit: AuditRules,
    state_hash: Entity -> Digest,
    valid: Entity -> bool,
    valid_timezone: string -> bool,
    valid_marker_times: Marker -> bool,
    trim: string -> string)

  predicate Blank(rules: CaseRules, s: string) {
    rules.trim(s) == ""
  }

  /** A required text argument that is present and not blank. */
  predicate Given(rules: CaseRules, s: Option<string>) {
    s.Some? && !Blank(rules, s.value)
  }

  // ----- Life cycles, for the lawyer -----

  predicate AllowedMatter(from: MatterStatus, to: MatterStatus) {
    from != to
  }

  /** `accepted` and `rejected` are terminal; acceptance needs a review first. */
  predicate AllowedFact(from: FactStatus, to: FactStatus) {
    (from, to) in {(Candidate, Reviewed), (Candidate, Rejected), (Reviewed, Accepted), (Reviewed, Rejected)}
  }

  predicate AllowedEntry(from: EntryState, to: EntryState) {
    (from, to) in {(ProposedEntry, ConfirmedEntry), (ProposedEntry, DismissedEntry)}
  }

  predicate AllowedMarker(from: MarkerStatus, to: MarkerStatus) {
    (from, to) in {
      (ProposedMarker, ConfirmedMarker), (ProposedMarker, DismissedMarker), (ConfirmedMarker, WaivedMarker)
    }
  }

  predicate AllowedDeadline(from: DeadlineStatus, to: DeadlineStatus) {
    (from, to) in {(PendingDeadline, Met), (PendingDeadline, Missed), (PendingDeadline, Withdrawn), (Missed, Met)}
  }
}
