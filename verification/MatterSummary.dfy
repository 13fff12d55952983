/** The matter summary (`services/case-box-persistence/src/inMemoryAggregations.ts`): counts by status,
    filtered by tenant. In a box in good order the filter finds nothing to drop. */
module MatterSummary {
  import opened Wrappers
  import opened Counting
  import opened AuditChain
  import opened CaseRecords
  import opened CaseTables
  import opened CaseBoxState
  import opened CaseBoxInvariant

  function CountIf<R(!new)>(rows: seq<R>, p: R -> bool): nat {
    if rows == [] then 0 else CountIf(rows[..|rows| - 1], p) + (if p(rows[|rows| - 1]) then 1 else 0)
  }

  lemma CountOneMore<R(!new)>(rows: seq<R>, i: nat, p: R -> bool)
    requires i < |rows|
    ensures CountIf(rows[..i + 1], p) == CountIf(rows[..i], p) + (if p(rows[i]) then 1 else 0)
  {
    assert rows[..i + 1][..i] == rows[..i];
  }

  datatype FactCounts = FactCounts(candidate: nat, reviewed: nat, accepted: nat, rejected: nat)

  datatype EntryCounts = EntryCounts(proposed: nat, confirmed: nat, dismissed: nat)

  datatype DeadlineCounts = DeadlineCounts(pending: nat, met: nat, missed: nat, withdrawn: nat)

  function FactTally(tenant: string, status: FactStatus): Fact -> bool {
    (f: Fact) => f.tenant_id == tenant && f.status == status
  }

  function EntryTally(tenant: string, state: EntryState): DocketEntry -> bool {
    (e: DocketEntry) => e.tenant_id == tenant && e.confirmation_state == state
  }

  function DeadlineTally(tenant: string, status: DeadlineStatus): Deadline -> bool {
    (d: Deadline) => d.tenant_id == tenant && d.status == status
  }

  function FactsByStatus(rows: seq<Fact>, tenant: string): FactCounts {
    FactCounts(
      CountIf(rows, FactTally(tenant, Candidate)), CountIf(rows, FactTally(tenant, Reviewed)),
      CountIf(rows, FactTally(tenant, Accepted)), CountIf(rows, FactTally(tenant, Rejected)))
  }

  function EntriesByState(rows: seq<DocketEntry>, tenant: string): EntryCounts {
    EntryCounts(
      CountIf(rows, EntryTally(tenant, ProposedEntry)), CountIf(rows, EntryTally(tenant, ConfirmedEntry)),
      CountIf(rows, EntryTally(tenant, DismissedEntry)))
  }

  function DeadlinesByStatus(rows: seq<Deadline>, tenant: string): DeadlineCounts {
    DeadlineCounts(
      CountIf(rows, DeadlineTally(tenant, PendingDeadline)), CountIf(rows, DeadlineTally(tenant, Met)),
      CountIf(rows, DeadlineTally(tenant, Missed)), CountIf(rows, DeadlineTally(tenant, Withdrawn)))
  }

  // ----- The loops -----

  method CountFacts(rows: seq<Fact>, tenant: string) returns (c: FactCounts)
    ensures c == FactsByStatus(rows, tenant)
  {
    c := FactCounts(0, 0, 0, 0);
    for i := 0 to |rows|
      invariant c == FactsByStatus(rows[..i], tenant)
    {
      CountOneMore(rows, i, FactTally(tenant, Candidate));
      CountOneMore(rows, i, FactTally(tenant, Reviewed));
      CountOneMore(rows, i, FactTally(tenant, Accepted));
      CountOneMore(rows, i, FactTally(tenant, Rejected));
      if rows[i].tenant_id == tenant {
        match rows[i].status
        case Candidate => c := c.(candidate := c.candidate + 1);
        case Reviewed => c := c.(reviewed := c.reviewed + 1);
        case Accepted => c := c.(accepted := c.accepted + 1);
        case Rejected => c := c.(rejected := c.rejected + 1);
      }
    }
    assert rows[..|rows|] == rows;
  }

  method CountEntries(rows: seq<DocketEntry>, tenant: string) returns (c: EntryCounts)
    ensures c == EntriesByState(rows, tenant)
  {
    c := EntryCounts(0, 0, 0);
    for i := 0 to |rows|
      invariant c == EntriesByState(rows[..i], tenant)
    {
      CountOneMore(rows, i, EntryTally(tenant, ProposedEntry));
      CountOneMore(rows, i, EntryTally(tenant, ConfirmedEntry));
      CountOneMore(rows, i, EntryTally(tenant, DismissedEntry));
      if rows[i].tenant_id == tenant {
        match rows[i].confirmation_state
        case ProposedEntry => c := c.(proposed := c.proposed + 1);
        case ConfirmedEntry => c := c.(confirmed := c.confirmed + 1);
        case DismissedEntry => c := c.(dismissed := c.dismissed + 1);
      }
    }
    assert rows[..|rows|] == rows;
  }

  method CountDeadlines(rows: seq<Deadline>, tenant: string) returns (c: DeadlineCounts)
    ensures c == DeadlinesByStatus(rows, tenant)
  {
    c := DeadlineCounts(0, 0, 0, 0);
    for i := 0 to |rows|
      invariant c == DeadlinesByStatus(rows[..i], tenant)
    {
      CountOneMore(rows, i, DeadlineTally(tenant, PendingDeadline));
      CountOneMore(rows, i, DeadlineTally(tenant, Met));
      CountOneMore(rows, i, DeadlineTally(tenant, Missed));
      CountOneMore(rows, i, DeadlineTally(tenant, Withdrawn));
      if rows[i].tenant_id == tenant {
        match rows[i].status
        case PendingDeadline => c := c.(pending := c.pending + 1);
        case Met => c := c.(met := c.met + 1);
        case Missed => c := c.(missed := c.missed + 1);
        case Withdrawn => c := c.(withdrawn := c.withdrawn + 1);
      }
    }
    assert rows[..|rows|] == rows;
  }

  /** Entries of the document map of matter `m`, of its tenant if one is asked for. */
  function DocumentIds(documents: map<string, DocumentSlot>, m: string, tenant: Option<string>): set<string> {
    set id | id in documents && documents[id].matter_id == m
      && (tenant.Some? ==> documents[id].document.tenant_id == tenant.value)
  }

  method CountDocuments(documents: map<string, DocumentSlot>, m: string, tenant: string) returns (n: nat)
    ensures n == |DocumentIds(documents, m, Some(tenant))|
  {
    n := 0;
    var todo := documents.Keys;
    ghost var counted: set<string> := {};
    while todo != {}
      invariant todo <= documents.Keys && n == |counted|
      invariant counted == DocumentIds(documents, m, Some(tenant)) - todo
      decreases |todo|
    {
      var id :| id in todo;
      todo := todo - {id};
      if documents[id].matter_id == m && documents[id].document.tenant_id == tenant {
        n, counted := n + 1, counted + {id};
      }
    }
    assert counted == DocumentIds(documents, m, Some(tenant));
  }

  function MarkerTally(tenant: string): Marker -> bool {
    (k: Marker) => k.tenant_id == tenant
  }

  method CountMarkers(rows: seq<Marker>, tenant: string) returns (n: nat)
    ensures n == CountIf(rows, MarkerTally(tenant))
  {
    n := 0;
    for i := 0 to |rows|
      invariant n == CountIf(rows[..i], MarkerTally(tenant))
    {
      CountOneMore(rows, i, MarkerTally(tenant));
      if rows[i].tenant_id == tenant {
        n := n + 1;
      }
    }
    assert rows[..|rows|] == rows;
  }

  // ----- The summary -----

  datatype Summary = Summary(
    matter: Matter, documents: nat, facts: FactCounts, deadlines: DeadlineCounts, entries: EntryCounts, markers: nat)

  function SummaryOf(b: Box, m: string, tenant: string): Summary
    requires m in b.matters
  {
    Summary(
      b.matters[m], |DocumentIds(b.documents, m, Some(tenant))|, FactsByStatus(Rows(b.facts, m), tenant),
      DeadlinesByStatus(Rows(b.deadlines, m), tenant), EntriesByState(Rows(b.entries, m), tenant),
      CountIf(Rows(b.markers, m), MarkerTally(tenant)))
  }

  /** `getMatterSummaryHelper`, for the kinds of records modelled. */
  method GetMatterSummary(b: Box, m: string, tenant: string) returns (r: Result<Option<Summary>, Error>)
    ensures r ==
      if m !in b.matters then Ok(None)
      else if b.matters[m].tenant_id != tenant then Err(WrongTenant)
      else Ok(Some(SummaryOf(b, m, tenant)))
  {
    if m !in b.matters {
      return Ok(None);
    }
    if b.matters[m].tenant_id != tenant {
      return Err(WrongTenant);
    }
    var documents := CountDocuments(b.documents, m, tenant);
    var facts := CountFacts(Rows(b.facts, m), tenant);
    var deadlines := CountDeadlines(Rows(b.deadlines, m), tenant);
    var entries := CountEntries(Rows(b.entries, m), tenant);
    var markers := CountMarkers(Rows(b.markers, m), tenant);
    r := Ok(Some(Summary(b.matters[m], documents, facts, deadlines, entries, markers)));
  }

  // ----- What is counted -----

  lemma {:induction false} CountIfIsNumber<R(!new)>(rows: seq<R>, p: R -> bool)
    ensures CountIf(rows, p) == NumberOf(rows, p)
  {
    if rows == [] {
      NumberOfNone(p);
    } else {
      CountIfIsNumber(rows[..|rows| - 1], p);
      NumberOfSnoc(rows, p);
    }
  }

  /** The places of the tenant's facts of a status. */
  ghost function FactPlaces(rows: seq<Fact>, tenant: string, status: FactStatus): set<int> {
    set i | 0 <= i < |rows| && rows[i].tenant_id == tenant && rows[i].status == status
  }

  ghost function EntryPlaces(rows: seq<DocketEntry>, tenant: string, state: EntryState): set<int> {
    set i | 0 <= i < |rows| && rows[i].tenant_id == tenant && rows[i].confirmation_state == state
  }

  ghost function DeadlinePlaces(rows: seq<Deadline>, tenant: string, status: DeadlineStatus): set<int> {
    set i | 0 <= i < |rows| && rows[i].tenant_id == tenant && rows[i].status == status
  }

  lemma FactNumber(rows: seq<Fact>, tenant: string, status: FactStatus)
    ensures CountIf(rows, FactTally(tenant, status)) == |FactPlaces(rows, tenant, status)|
  {
    CountIfIsNumber(rows, FactTally(tenant, status));
    assert PlacesOf(rows, FactTally(tenant, status)) == FactPlaces(rows, tenant, status);
  }

  lemma EntryNumber(rows: seq<DocketEntry>, tenant: string, state: EntryState)
    ensures CountIf(rows, EntryTally(tenant, state)) == |EntryPlaces(rows, tenant, state)|
  {
    CountIfIsNumber(rows, EntryTally(tenant, state));
    assert PlacesOf(rows, EntryTally(tenant, state)) == EntryPlaces(rows, tenant, state);
  }

  lemma DeadlineNumber(rows: seq<Deadline>, tenant: string, status: DeadlineStatus)
    ensures CountIf(rows, DeadlineTally(tenant, status)) == |DeadlinePlaces(rows, tenant, status)|
  {
    CountIfIsNumber(rows, DeadlineTally(tenant, status));
    assert PlacesOf(rows, DeadlineTally(tenant, status)) == DeadlinePlaces(rows, tenant, status);
  }

  /** Each number of the summary is the number of the tenant's rows in the status it is named after. */
  lemma SummaryCounts(b: Box, m: string, tenant: string)
    requires m in b.matters
    ensures var (c, rows) := (SummaryOf(b, m, tenant).facts, Rows(b.facts, m));
      && c.candidate == |FactPlaces(rows, tenant, Candidate)| && c.reviewed == |FactPlaces(rows, tenant, Reviewed)|
      && c.accepted == |FactPlaces(rows, tenant, Accepted)| && c.rejected == |FactPlaces(rows, tenant, Rejected)|
    ensures var (c, rows) := (SummaryOf(b, m, tenant).entries, Rows(b.entries, m));
      && c.proposed == |EntryPlaces(rows, tenant, ProposedEntry)|
      && c.confirmed == |EntryPlaces(rows, tenant, ConfirmedEntry)|
      && c.dismissed == |EntryPlaces(rows, tenant, DismissedEntry)|
    ensures var (c, rows) := (SummaryOf(b, m, tenant).deadlines, Rows(b.deadlines, m));
      && c.pending == |DeadlinePlaces(rows, tenant, PendingDeadline)| && c.met == |DeadlinePlaces(rows, tenant, Met)|
      && c.missed == |DeadlinePlaces(rows, tenant, Missed)| && c.withdrawn == |DeadlinePlaces(rows, tenant, Withdrawn)|
  {
    forall status: FactStatus
      ensures CountIf(Rows(b.facts, m), FactTally(tenant, status)) == |FactPlaces(Rows(b.facts, m), tenant, status)|
    {
      FactNumber(Rows(b.facts, m), tenant, status);
    }
    forall state: EntryState
      ensures CountIf(Rows(b.entries, m), EntryTally(tenant, state)) == |EntryPlaces(Rows(b.entries, m), tenant, state)|
    {
      EntryNumber(Rows(b.entries, m), tenant, state);
    }
    forall status: DeadlineStatus
      ensures CountIf(Rows(b.deadlines, m), DeadlineTally(tenant, status)) ==
        |DeadlinePlaces(Rows(b.deadlines, m), tenant, status)|
    {
      DeadlineNumber(Rows(b.deadlines, m), tenant, status);
    }
  }

  // ----- The same without the tenant filter -----

  function FactStatusIs(status: FactStatus): Fact -> bool {
    (f: Fact) => f.status == status
  }

  function EntryStateIs(state: EntryState): DocketEntry -> bool {
    (e: DocketEntry) => e.confirmation_state == state
  }

  function DeadlineStatusIs(status: DeadlineStatus): Deadline -> bool {
    (d: Deadline) => d.status == status
  }

  function AllFactsByStatus(rows: seq<Fact>): FactCounts {
    FactCounts(
      CountIf(rows, FactStatusIs(Candidate)), CountIf(rows, FactStatusIs(Reviewed)),
      CountIf(rows, FactStatusIs(Accepted)), CountIf(rows, FactStatusIs(Rejected)))
  }

  function AllEntriesByState(rows: seq<DocketEntry>): EntryCounts {
    EntryCounts(
      CountIf(rows, EntryStateIs(ProposedEntry)), CountIf(rows, EntryStateIs(ConfirmedEntry)),
      CountIf(rows, EntryStateIs(DismissedEntry)))
  }

  function AllDeadlinesByStatus(rows: seq<Deadline>): DeadlineCounts {
    DeadlineCounts(
      CountIf(rows, DeadlineStatusIs(PendingDeadline)), CountIf(rows, DeadlineStatusIs(Met)),
      CountIf(rows, DeadlineStatusIs(Missed)), CountIf(rows, DeadlineStatusIs(Withdrawn)))
  }

  function UnfilteredSummary(b: Box, m: string): Summary
    requires m in b.matters
  {
    Summary(
      b.matters[m], |DocumentIds(b.documents, m, None)|, AllFactsByStatus(Rows(b.facts, m)),
      AllDeadlinesByStatus(Rows(b.deadlines, m)), AllEntriesByState(Rows(b.entries, m)), |Rows(b.markers, m)|)
  }

  /** Every row is in one of the states the breakdown lists. */
  predicate AddsUp(b: Box, m: string, s: Summary) {
    && s.facts.candidate + s.facts.reviewed + s.facts.accepted + s.facts.rejected == |Rows(b.facts, m)|
    && s.entries.proposed + s.entries.confirmed + s.entries.dismissed == |Rows(b.entries, m)|
    && s.deadlines.pending + s.deadlines.met + s.deadlines.missed + s.deadlines.withdrawn == |Rows(b.deadlines, m)|
  }

  lemma {:induction false} CountAlike<R(!new)>(rows: seq<R>, p: R -> bool, q: R -> bool)
    requires forall r | r in rows :: p(r) == q(r)
    ensures CountIf(rows, p) == CountIf(rows, q)
  {
    if rows != [] {
      var init, last := rows[..|rows| - 1], rows[|rows| - 1];
      assert rows == init + [last];
      assert last in rows && forall r | r in init :: r in rows;
      CountAlike(init, p, q);
    }
  }

  lemma {:induction false} CountAll<R(!new)>(rows: seq<R>, p: R -> bool)
    requires forall r | r in rows :: p(r)
    ensures CountIf(rows, p) == |rows|
  {
    if rows != [] {
      var init, last := rows[..|rows| - 1], rows[|rows| - 1];
      assert rows == init + [last];
      assert last in rows && forall r | r in init :: r in rows;
      CountAll(init, p);
    }
  }

  lemma {:induction false} FactCountsAddUp(rows: seq<Fact>)
    ensures var c := AllFactsByStatus(rows);
      c.candidate + c.reviewed + c.accepted + c.rejected == |rows|
  {
    if rows != [] {
      FactCountsAddUp(rows[..|rows| - 1]);
    }
  }

  lemma {:induction false} EntryCountsAddUp(rows: seq<DocketEntry>)
    ensures var c := AllEntriesByState(rows);
      c.proposed + c.confirmed + c.dismissed == |rows|
  {
    if rows != [] {
      EntryCountsAddUp(rows[..|rows| - 1]);
    }
  }

  lemma {:induction false} DeadlineCountsAddUp(rows: seq<Deadline>)
    ensures var c := AllDeadlinesByStatus(rows);
      c.pending + c.met + c.missed + c.withdrawn == |rows|
  {
    if rows != [] {
      DeadlineCountsAddUp(rows[..|rows| - 1]);
    }
  }

  // ----- The filter is idle -----

  lemma FactRowTenant(rules: CaseRules, b: Box, m: string, f: Fact)
    requires LedgerOk(rules, b) && m in b.matters && f in Rows(b.facts, m)
    ensures f.tenant_id == b.matters[m].tenant_id
  {
    FactsIn(rules, b);
    RowIsFound(FactPlace, b.facts, m, f);
    FactOnFile(rules, b, f.id);
  }

  lemma EntryRowTenant(rules: CaseRules, b: Box, m: string, e: DocketEntry)
    requires LedgerOk(rules, b) && m in b.matters && e in Rows(b.entries, m)
    ensures e.tenant_id == b.matters[m].tenant_id
  {
    EntriesIn(rules, b);
    RowIsFound(EntryPlace, b.entries, m, e);
    EntryOnFile(rules, b, e.id);
  }

  lemma DeadlineRowTenant(rules: CaseRules, b: Box, m: string, d: Deadline)
    requires LedgerOk(rules, b) && m in b.matters && d in Rows(b.deadlines, m)
    ensures d.tenant_id == b.matters[m].tenant_id
  {
    DeadlinesIn(rules, b);
    RowIsFound(DeadlinePlace, b.deadlines, m, d);
    DeadlineOnFile(rules, b, d.id);
  }

  /** A marker is filed under a matter; its tenant was only ever checked against its document. */
  lemma MarkerRowTenant(rules: CaseRules, b: Box, m: string, k: Marker)
    requires LedgerOk(rules, b) && m in b.matters && k in Rows(b.markers, m)
    ensures k.tenant_id == b.matters[m].tenant_id
  {
    MarkersIn(rules, b);
    RowIsFound(MarkerPlace, b.markers, m, k);
    MarkerOnFile(rules, b, k.id);
    HomeIn(rules, b, Key(TPrivilegeMarker, k.id));
  }

  lemma DocumentTenants(rules: CaseRules, b: Box, m: string)
    requires LedgerOk(rules, b) && m in b.matters
    ensures DocumentIds(b.documents, m, Some(b.matters[m].tenant_id)) == DocumentIds(b.documents, m, None)
  {
    MapsIn(rules, b);
    forall id | id in b.documents && b.documents[id].matter_id == m
      ensures b.documents[id].document.tenant_id == b.matters[m].tenant_id
    {
      HomeIn(rules, b, Key(TDocument, id));
    }
  }

  lemma FactFilterIsIdle(rules: CaseRules, b: Box, m: string)
    requires LedgerOk(rules, b) && m in b.matters
    ensures FactsByStatus(Rows(b.facts, m), b.matters[m].tenant_id) == AllFactsByStatus(Rows(b.facts, m))
  {
    var (rows, tenant) := (Rows(b.facts, m), b.matters[m].tenant_id);
    forall f | f in rows
      ensures f.tenant_id == tenant
    {
      FactRowTenant(rules, b, m, f);
    }
    CountAlike(rows, FactTally(tenant, Candidate), FactStatusIs(Candidate));
    CountAlike(rows, FactTally(tenant, Reviewed), FactStatusIs(Reviewed));
    CountAlike(rows, FactTally(tenant, Accepted), FactStatusIs(Accepted));
    CountAlike(rows, FactTally(tenant, Rejected), FactStatusIs(Rejected));
  }

  lemma EntryFilterIsIdle(rules: CaseRules, b: Box, m: string)
    requires LedgerOk(rules, b) && m in b.matters
    ensures EntriesByState(Rows(b.entries, m), b.matters[m].tenant_id) == AllEntriesByState(Rows(b.entries, m))
  {
    var (rows, tenant) := (Rows(b.entries, m), b.matters[m].tenant_id);
    forall e | e in rows
      ensures e.tenant_id == tenant
    {
      EntryRowTenant(rules, b, m, e);
    }
    CountAlike(rows, EntryTally(tenant, ProposedEntry), EntryStateIs(ProposedEntry));
    CountAlike(rows, EntryTally(tenant, ConfirmedEntry), EntryStateIs(ConfirmedEntry));
    CountAlike(rows, EntryTally(tenant, DismissedEntry), EntryStateIs(DismissedEntry));
  }

  lemma DeadlineFilterIsIdle(rules: CaseRules, b: Box, m: string)
    requires LedgerOk(rules, b) && m in b.matters
    ensures DeadlinesByStatus(Rows(b.deadlines, m), b.matters[m].tenant_id) == AllDeadlinesByStatus(Rows(b.deadlines, m))
  {
    var (rows, tenant) := (Rows(b.deadlines, m), b.matters[m].tenant_id);
    forall d | d in rows
      ensures d.tenant_id == tenant
    {
      DeadlineRowTenant(rules, b, m, d);
    }
    CountAlike(rows, DeadlineTally(tenant, PendingDeadline), DeadlineStatusIs(PendingDeadline));
    CountAlike(rows, DeadlineTally(tenant, Met), DeadlineStatusIs(Met));
    CountAlike(rows, DeadlineTally(tenant, Missed), DeadlineStatusIs(Missed));
    CountAlike(rows, DeadlineTally(tenant, Withdrawn), DeadlineStatusIs(Withdrawn));
  }

  lemma MarkerFilterIsIdle(rules: CaseRules, b: Box, m: string)
    requires LedgerOk(rules, b) && m in b.matters
    ensures CountIf(Rows(b.markers, m), MarkerTally(b.matters[m].tenant_id)) == |Rows(b.markers, m)|
  {
    forall k | k in Rows(b.markers, m)
      ensures k.tenant_id == b.matters[m].tenant_id
    {
      MarkerRowTenant(rules, b, m, k);
    }
    CountAll(Rows(b.markers, m), MarkerTally(b.matters[m].tenant_id));
  }

  /** For the matter's own tenant the filters drop nothing: every count is the unfiltered one, documents
      and markers included, and each breakdown accounts for every row of the matter. */
  lemma SummaryAccountsForAll(rules: CaseRules, b: Box, m: string)
    requires LedgerOk(rules, b) && m in b.matters
    ensures SummaryOf(b, m, b.matters[m].tenant_id) == UnfilteredSummary(b, m)
    ensures AddsUp(b, m, SummaryOf(b, m, b.matters[m].tenant_id))
  {
    DocumentTenants(rules, b, m);
    FactFilterIsIdle(rules, b, m);
    EntryFilterIsIdle(rules, b, m);
    DeadlineFilterIsIdle(rules, b, m);
    MarkerFilterIsIdle(rules, b, m);
    FactCountsAddUp(Rows(b.facts, m));
    EntryCountsAddUp(Rows(b.entries, m));
    DeadlineCountsAddUp(Rows(b.deadlines, m));
  }
}
