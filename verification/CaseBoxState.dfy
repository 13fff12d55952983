/** The whole state of a case box and the ledger invariant that every write keeps: records and audit
    chains tell the same story (`services/case-box-persistence/src/inMemoryRepo.ts`). */
module CaseBoxState {
  import opened Wrappers
  import opened AuditChain
  import opened CaseRecords
  import opened CaseTables

  datatype DocumentSlot = DocumentSlot(document: Document, matter_id: string)

  datatype Box = Box(
    matters: map<string, Matter>,
    documents: map<string, DocumentSlot>,
    facts: Index<Fact>,
    fact_by_id: map<string, Fact>,
    entries: Index<DocketEntry>,
    entry_by_id: map<string, DocketEntry>,
    deadlines: Index<Deadline>,
    deadline_by_id: map<string, Deadline>,
    markers: Index<Marker>,
    log: Log)

  function FactPlace(f: Fact): Place {
    Place(f.id, f.matter_id)
  }

  function EntryPlace(e: DocketEntry): Place {
    Place(e.id, e.matter_id)
  }

  function DeadlinePlace(d: Deadline): Place {
    Place(d.id, d.matter_id)
  }

  function MarkerPlace(m: Marker): Place {
    Place(m.id, m.matter_id)
  }

  function FactAt(b: Box, id: string): Option<Fact> {
    RowAt(FactPlace, b.facts, id)
  }

  function EntryAt(b: Box, id: string): Option<DocketEntry> {
    RowAt(EntryPlace, b.entries, id)
  }

  function DeadlineAt(b: Box, id: string): Option<Deadline> {
    RowAt(DeadlinePlace, b.deadlines, id)
  }

  function MarkerAt(b: Box, id: string): Option<Marker> {
    RowAt(MarkerPlace, b.markers, id)
  }

  /** The stored record of a key. */
  function Lookup(b: Box, key: Key): Option<Entity> {
    match key.entity_type
    case TMatter => if key.id in b.matters then Some(AMatter(b.matters[key.id])) else None
    case TDocument => if key.id in b.documents then Some(ADocument(b.documents[key.id].document)) else None
    case TFact => var r := FactAt(b, key.id); if r.Some? then Some(AFact(r.value)) else None
    case TDocketEntry => var r := EntryAt(b, key.id); if r.Some? then Some(AnEntry(r.value)) else None
    case TDeadline => var r := DeadlineAt(b, key.id); if r.Some? then Some(ADeadline(r.value)) else None
    case TPrivilegeMarker => var r := MarkerAt(b, key.id); if r.Some? then Some(AMarker(r.value)) else None
  }

  /** Stores a record: replaces its row if the id is on file, otherwise inserts one. */
  function Put(b: Box, x: Entity): Box {
    match x
    case AMatter(m) => b.(matters := b.matters[m.id := m])
    case ADocument(d) => b.(documents := b.documents[d.id := DocumentSlot(d, d.matter_id)])
    case AFact(f) => b.(facts := Kept(FactPlace, b.facts, f), fact_by_id := b.fact_by_id[f.id := f])
    case AnEntry(e) => b.(entries := Kept(EntryPlace, b.entries, e), entry_by_id := b.entry_by_id[e.id := e])
    case ADeadline(d) =>
      b.(deadlines := Kept(DeadlinePlace, b.deadlines, d), deadline_by_id := b.deadline_by_id[d.id := d])
    case AMarker(m) => b.(markers := Kept(MarkerPlace, b.markers, m))
  }

  ghost predicate FactsOk(b: Box) {
    IndexOk(FactPlace, b.facts) && ByIdOk(FactPlace, b.facts, b.fact_by_id)
  }

  ghost predicate EntriesOk(b: Box) {
    IndexOk(EntryPlace, b.entries) && ByIdOk(EntryPlace, b.entries, b.entry_by_id)
  }

  ghost predicate DeadlinesOk(b: Box) {
    IndexOk(DeadlinePlace, b.deadlines) && ByIdOk(DeadlinePlace, b.deadlines, b.deadline_by_id)
  }

  ghost predicate MarkersOk(b: Box) {
    IndexOk(MarkerPlace, b.markers)
  }

  ghost predicate MapsOk(b: Box) {
    && (forall id | id in b.matters :: b.matters[id].id == id)
    && (forall id | id in b.documents ::
          b.documents[id].document.id == id && b.documents[id].matter_id == b.documents[id].document.matter_id)
  }

  /** All redundant indexes agree. */
  ghost predicate TablesOk(b: Box) {
    FactsOk(b) && EntriesOk(b) && DeadlinesOk(b) && MarkersOk(b) && MapsOk(b)
  }

  lemma PutRow<R(!new)>(place: R -> Place, t: Index<R>, by_id: map<string, R>, row: R)
    requires IndexOk(place, t)
    requires place(row).id in t.home ==> t.home[place(row).id] == place(row).matter_id
    ensures var s := Kept(place, t, row);
      && IndexOk(place, s)
      && (forall id: string :: RowAt(place, s, id) == if id == place(row).id then Some(row) else RowAt(place, t, id))
      && (ByIdOk(place, t, by_id) ==> ByIdOk(place, s, by_id[place(row).id := row]))
  {
    if place(row).id in t.home {
      ReplaceKeepsIndex(place, t, row);
    } else {
      InsertKeepsIndex(place, t, row);
    }
  }

  /** A record may be stored where one of its key is not, or over one of the same matter. */
  predicate Fits(b: Box, x: Entity) {
    var prior := Lookup(b, KeyOf(x));
    prior.Some? ==> HomeOf(prior.value) == HomeOf(x)
  }

  /** `c` holds `x` and is otherwise as `b`. */
  ghost predicate Holds(b: Box, x: Entity, c: Box) {
    forall key: Key :: Lookup(c, key) == if key == KeyOf(x) then Some(x) else Lookup(b, key)
  }

  lemma PutMatter(b: Box, m: Matter)
    requires TablesOk(b)
    ensures TablesOk(Put(b, AMatter(m))) && Holds(b, AMatter(m), Put(b, AMatter(m)))
  {
    var c := Put(b, AMatter(m));
    assert MapsOk(c) && FactsOk(c) && EntriesOk(c) && DeadlinesOk(c) && MarkersOk(c);
  }

  lemma PutDocument(b: Box, d: Document)
    requires TablesOk(b)
    ensures TablesOk(Put(b, ADocument(d))) && Holds(b, ADocument(d), Put(b, ADocument(d)))
  {
    var c := Put(b, ADocument(d));
    assert MapsOk(c) && FactsOk(c) && EntriesOk(c) && DeadlinesOk(c) && MarkersOk(c);
  }

  /** Tables that are the same are as good. */
  lemma SameFacts(b: Box, c: Box)
    requires c.facts == b.facts && c.fact_by_id == b.fact_by_id
    ensures FactsOk(b) ==> FactsOk(c)
  {
  }

  lemma SameEntries(b: Box, c: Box)
    requires c.entries == b.entries && c.entry_by_id == b.entry_by_id
    ensures EntriesOk(b) ==> EntriesOk(c)
  {
  }

  lemma SameDeadlines(b: Box, c: Box)
    requires c.deadlines == b.deadlines && c.deadline_by_id == b.deadline_by_id
    ensures DeadlinesOk(b) ==> DeadlinesOk(c)
  {
  }

  lemma SameMarkers(b: Box, c: Box)
    requires c.markers == b.markers
    ensures MarkersOk(b) ==> MarkersOk(c)
  {
  }

  lemma SameMaps(b: Box, c: Box)
    requires c.matters == b.matters && c.documents == b.documents
    ensures MapsOk(b) ==> MapsOk(c)
  {
  }

  lemma PutFactRow(b: Box, f: Fact)
    requires FactsOk(b) && Fits(b, AFact(f))
    ensures FactsOk(Put(b, AFact(f)))
    ensures forall id: string :: FactAt(Put(b, AFact(f)), id) == if id == f.id then Some(f) else FactAt(b, id)
  {
    FitsHome(FactPlace, b.facts, f);
    PutRow(FactPlace, b.facts, b.fact_by_id, f);
  }

  lemma FactHeld(b: Box, f: Fact, key: Key)
    requires forall id: string :: FactAt(Put(b, AFact(f)), id) == if id == f.id then Some(f) else FactAt(b, id)
    ensures Lookup(Put(b, AFact(f)), key) == if key == KeyOf(AFact(f)) then Some(AFact(f)) else Lookup(b, key)
  {
    assert FactAt(Put(b, AFact(f)), key.id) == if key.id == f.id then Some(f) else FactAt(b, key.id);
  }

  lemma PutFact(b: Box, f: Fact)
    requires TablesOk(b) && Fits(b, AFact(f))
    ensures TablesOk(Put(b, AFact(f))) && Holds(b, AFact(f), Put(b, AFact(f)))
  {
    var c := Put(b, AFact(f));
    PutFactRow(b, f);
    SameEntries(b, c);
    SameDeadlines(b, c);
    SameMarkers(b, c);
    SameMaps(b, c);
    forall key: Key
      ensures Lookup(c, key) == if key == KeyOf(AFact(f)) then Some(AFact(f)) else Lookup(b, key)
    {
      FactHeld(b, f, key);
    }
  }

  lemma PutEntryRow(b: Box, e: DocketEntry)
    requires EntriesOk(b) && Fits(b, AnEntry(e))
    ensures EntriesOk(Put(b, AnEntry(e)))
    ensures forall id: string :: EntryAt(Put(b, AnEntry(e)), id) == if id == e.id then Some(e) else EntryAt(b, id)
  {
    FitsHome(EntryPlace, b.entries, e);
    PutRow(EntryPlace, b.entries, b.entry_by_id, e);
  }

  lemma EntryHeld(b: Box, e: DocketEntry, key: Key)
    requires forall id: string :: EntryAt(Put(b, AnEntry(e)), id) == if id == e.id then Some(e) else EntryAt(b, id)
    ensures Lookup(Put(b, AnEntry(e)), key) == if key == KeyOf(AnEntry(e)) then Some(AnEntry(e)) else Lookup(b, key)
  {
    assert EntryAt(Put(b, AnEntry(e)), key.id) == if key.id == e.id then Some(e) else EntryAt(b, key.id);
  }

  lemma PutEntry(b: Box, e: DocketEntry)
    requires TablesOk(b) && Fits(b, AnEntry(e))
    ensures TablesOk(Put(b, AnEntry(e))) && Holds(b, AnEntry(e), Put(b, AnEntry(e)))
  {
    var c := Put(b, AnEntry(e));
    PutEntryRow(b, e);
    SameFacts(b, c);
    SameDeadlines(b, c);
    SameMarkers(b, c);
    SameMaps(b, c);
    forall key: Key
      ensures Lookup(c, key) == if key == KeyOf(AnEntry(e)) then Some(AnEntry(e)) else Lookup(b, key)
    {
      EntryHeld(b, e, key);
    }
  }

  lemma PutDeadlineRow(b: Box, d: Deadline)
    requires DeadlinesOk(b) && Fits(b, ADeadline(d))
    ensures DeadlinesOk(Put(b, ADeadline(d)))
    ensures forall id: string :: DeadlineAt(Put(b, ADeadline(d)), id) == if id == d.id then Some(d) else DeadlineAt(b, id)
  {
    FitsHome(DeadlinePlace, b.deadlines, d);
    PutRow(DeadlinePlace, b.deadlines, b.deadline_by_id, d);
  }

  lemma DeadlineHeld(b: Box, d: Deadline, key: Key)
    requires forall id: string :: DeadlineAt(Put(b, ADeadline(d)), id) == if id == d.id then Some(d) else DeadlineAt(b, id)
    ensures Lookup(Put(b, ADeadline(d)), key) == if key == KeyOf(ADeadline(d)) then Some(ADeadline(d)) else Lookup(b, key)
  {
    assert DeadlineAt(Put(b, ADeadline(d)), key.id) == if key.id == d.id then Some(d) else DeadlineAt(b, key.id);
  }

  lemma PutDeadline(b: Box, d: Deadline)
    requires TablesOk(b) && Fits(b, ADeadline(d))
    ensures TablesOk(Put(b, ADeadline(d))) && Holds(b, ADeadline(d), Put(b, ADeadline(d)))
  {
    var c := Put(b, ADeadline(d));
    PutDeadlineRow(b, d);
    SameFacts(b, c);
    SameEntries(b, c);
    SameMarkers(b, c);
    SameMaps(b, c);
    forall key: Key
      ensures Lookup(c, key) == if key == KeyOf(ADeadline(d)) then Some(ADeadline(d)) else Lookup(b, key)
    {
      DeadlineHeld(b, d, key);
    }
  }

  lemma PutMarkerRow(b: Box, m: Marker)
    requires MarkersOk(b) && Fits(b, AMarker(m))
    ensures MarkersOk(Put(b, AMarker(m)))
    ensures forall id: string :: MarkerAt(Put(b, AMarker(m)), id) == if id == m.id then Some(m) else MarkerAt(b, id)
  {
    FitsHome(MarkerPlace, b.markers, m);
    PutRow(MarkerPlace, b.markers, map[], m);
  }

  lemma MarkerHeld(b: Box, m: Marker, key: Key)
    requires forall id: string :: MarkerAt(Put(b, AMarker(m)), id) == if id == m.id then Some(m) else MarkerAt(b, id)
    ensures Lookup(Put(b, AMarker(m)), key) == if key == KeyOf(AMarker(m)) then Some(AMarker(m)) else Lookup(b, key)
  {
    assert MarkerAt(Put(b, AMarker(m)), key.id) == if key.id == m.id then Some(m) else MarkerAt(b, key.id);
  }

  lemma PutMarker(b: Box, m: Marker)
    requires TablesOk(b) && Fits(b, AMarker(m))
    ensures TablesOk(Put(b, AMarker(m))) && Holds(b, AMarker(m), Put(b, AMarker(m)))
  {
    var c := Put(b, AMarker(m));
    PutMarkerRow(b, m);
    SameFacts(b, c);
    SameEntries(b, c);
    SameDeadlines(b, c);
    SameMaps(b, c);
    forall key: Key
      ensures Lookup(c, key) == if key == KeyOf(AMarker(m)) then Some(AMarker(m)) else Lookup(b, key)
    {
      MarkerHeld(b, m, key);
    }
  }

  lemma PutKeepsTables(b: Box, x: Entity)
    requires TablesOk(b) && Fits(b, x)
    ensures TablesOk(Put(b, x)) && Holds(b, x, Put(b, x))
  {
    match x
    case AMatter(m) => PutMatter(b, m);
    case ADocument(d) => PutDocument(b, d);
    case AFact(f) => PutFact(b, f);
    case AnEntry(e) => PutEntry(b, e);
    case ADeadline(d) => PutDeadline(b, d);
    case AMarker(m) => PutMarker(b, m);
  }

  lemma FitsHome<R(!new)>(place: R -> Place, t: Index<R>, row: R)
    requires IndexOk(place, t)
    requires var prior := RowAt(place, t, place(row).id); prior.Some? ==> place(prior.value).matter_id == place(row).matter_id
    ensures place(row).id in t.home ==> t.home[place(row).id] == place(row).matter_id
  {
    if place(row).id in t.home {
      RowIsPlaced(place, t, place(row).id);
    }
  }

  // ----- Events about a record -----

  predicate About(e: Event, key: Key) {
    e.entity_type == key.entity_type && e.entity_id == key.id
  }

  /** The state hash the latest event about a record left behind. */
  function LatestAfter(es: seq<Event>, key: Key): Option<string> {
    if es == [] then None
    else if About(es[|es| - 1], key) then Some(es[|es| - 1].after_state_hash)
    else LatestAfter(es[..|es| - 1], key)
  }

  lemma LatestAfterSnoc(es: seq<Event>, e: Event, key: Key)
    ensures LatestAfter(es + [e], key) == if About(e, key) then Some(e.after_state_hash) else LatestAfter(es, key)
  {
    assert (es + [e])[..|es|] == es;
  }

  /** An event takes its record up where the previous event about it left off. A creation finds none,
      except that the acceptance of a replacement fact is recorded as a creation. */
  predicate TakesUp(es: seq<Event>, e: Event) {
    var prior := LatestAfter(es, Key(e.entity_type, e.entity_id));
    if e.action == Create then
      e.before_state_hash.None? && (prior.None? || e.kind == Some(FactReplacementAccepted))
    else prior.Some? && e.before_state_hash == prior
  }

  predicate Continuous(es: seq<Event>) {
    forall i | 0 <= i < |es| :: TakesUp(es[..i], es[i])
  }

  lemma ContinuousSnoc(es: seq<Event>, e: Event)
    requires Continuous(es)
    ensures Continuous(es + [e]) <==> TakesUp(es, e)
  {
    var fs := es + [e];
    assert fs[..|es|] == es;
    assert forall i | 0 <= i < |es| :: fs[..i] == es[..i];
  }

  // ----- The ledger -----

  function Chain(b: Box, m: string): seq<Event> {
    Events(Stored(b.log, m))
  }

  /** Numbered from 1, begun by the registration of the matter, in order, and anchored. */
  ghost predicate ChainOk(rules: CaseRules, b: Box, m: string)
    requires m in b.matters
  {
    var (stored, es) := (Stored(b.log, m), Chain(b, m));
    && (forall i | 0 <= i < |stored| :: stored[i].sequence == i + 1)
    && es != [] && Genesis(es[0]) && Intact(rules.audit, es)
    && es[0].matter_id == m && es[0].tenant_id == b.matters[m].tenant_id
    && m in b.log.heads && HeadOf(rules.audit, es) == Some(b.log.heads[m].head_hash) && b.log.heads[m].count == |es|
  }

  /** The hash the log should show for a key in the chain of matter `m`. */
  function Expected(rules: CaseRules, b: Box, m: string, key: Key): Option<string> {
    var x := Lookup(b, key);
    if x.Some? && HomeOf(x.value) == m then Some(rules.state_hash(x.value)) else None
  }

  /** The latest event about every record carries the hash of exactly the stored record, and there are
      no events about anything else. */
  ghost predicate InStep(rules: CaseRules, b: Box, m: string) {
    forall key: Key :: LatestAfter(Chain(b, m), key) == Expected(rules, b, m, key)
  }

  /** Every record belongs to a matter on file and to that matter's tenant. */
  ghost predicate HomesOk(b: Box) {
    forall key: Key | Lookup(b, key).Some? ::
      var x := Lookup(b, key).value;
      HomeOf(x) in b.matters && TenantOf(x) == b.matters[HomeOf(x)].tenant_id
  }

  ghost predicate MatterOk(rules: CaseRules, b: Box, m: string)
    requires m in b.matters
  {
    ChainOk(rules, b, m) && InStep(rules, b, m) && Continuous(Chain(b, m))
  }

  /** What it means for a box to be in order, aspect by aspect. */
  datatype Aspect = Indexes | Homes | LogKeys | Chains

  ghost predicate AspectOk(rules: CaseRules, b: Box, a: Aspect) {
    match a
    case Indexes => TablesOk(b)
    case Homes => HomesOk(b)
    case LogKeys => b.log.events.Keys == b.matters.Keys
    case Chains => MattersOk(rules, b)
  }

  ghost predicate LedgerOk(rules: CaseRules, b: Box) {
    forall a: Aspect :: AspectOk(rules, b, a)
  }

  lemma LedgerParts(rules: CaseRules, b: Box)
    requires LedgerOk(rules, b)
    ensures TablesOk(b) && HomesOk(b) && b.log.events.Keys == b.matters.Keys && MattersOk(rules, b)
  {
    assert AspectOk(rules, b, Indexes) && AspectOk(rules, b, Homes);
    assert AspectOk(rules, b, LogKeys) && AspectOk(rules, b, Chains);
  }

  lemma FactsIn(rules: CaseRules, b: Box)
    requires LedgerOk(rules, b)
    ensures FactsOk(b)
  {
    assert AspectOk(rules, b, Indexes);
  }

  lemma EntriesIn(rules: CaseRules, b: Box)
    requires LedgerOk(rules, b)
    ensures EntriesOk(b)
  {
    assert AspectOk(rules, b, Indexes);
  }

  lemma DeadlinesIn(rules: CaseRules, b: Box)
    requires LedgerOk(rules, b)
    ensures DeadlinesOk(b)
  {
    assert AspectOk(rules, b, Indexes);
  }

  lemma MarkersIn(rules: CaseRules, b: Box)
    requires LedgerOk(rules, b)
    ensures MarkersOk(b)
  {
    assert AspectOk(rules, b, Indexes);
  }

  lemma MapsIn(rules: CaseRules, b: Box)
    requires LedgerOk(rules, b)
    ensures MapsOk(b)
  {
    assert AspectOk(rules, b, Indexes);
  }

  lemma HomeIn(rules: CaseRules, b: Box, key: Key)
    requires LedgerOk(rules, b) && Lookup(b, key).Some?
    ensures var x := Lookup(b, key).value;
      HomeOf(x) in b.matters && TenantOf(x) == b.matters[HomeOf(x)].tenant_id
  {
    assert AspectOk(rules, b, Homes);
  }

  lemma MatterIn(rules: CaseRules, b: Box, m: string)
    requires LedgerOk(rules, b) && m in b.matters
    ensures MatterOk(rules, b, m)
  {
    assert AspectOk(rules, b, Chains);
  }

  lemma LedgerFromParts(rules: CaseRules, b: Box)
    requires TablesOk(b) && HomesOk(b) && b.log.events.Keys == b.matters.Keys && MattersOk(rules, b)
    ensures LedgerOk(rules, b)
  {
    forall a: Aspect
      ensures AspectOk(rules, b, a)
    {
      match a
      case Indexes => {}
      case Homes => {}
      case LogKeys => {}
      case Chains => {}
    }
  }

  ghost predicate MattersOk(rules: CaseRules, b: Box) {
    forall m | m in b.matters :: MatterOk(rules, b, m)
  }

  // ----- One write -----

  /** A record to store and the event that says so. */
  datatype Step = Step(x: Entity, e: StoredEvent)

  function Applied(rules: CaseRules, b: Box, s: Step): Box {
    Put(b, s.x).(log := Appended(rules.audit, b.log, HomeOf(s.x), s.e))
  }

  /** The event fits the chain, and records the change from what is stored to what will be. */
  ghost predicate StepOk(rules: CaseRules, b: Box, s: Step) {
    var (m, key, e) := (HomeOf(s.x), KeyOf(s.x), s.e.event);
    var prior := Lookup(b, key);
    && m in b.matters && TenantOf(s.x) == b.matters[m].tenant_id
    && Fits(b, s.x) && (s.x.AMatter? ==> prior.Some?)
    && s.e.sequence == |Chain(b, m)| + 1
    && Follows(rules.audit, Chain(b, m), e)
    && About(e, key) && e.after_state_hash == rules.state_hash(s.x)
    && (if e.action == Create then prior.None? || e.kind == Some(FactReplacementAccepted)
        else prior.Some? && e.before_state_hash == Some(rules.state_hash(prior.value)))
  }

  lemma AppendedChain(rules: CaseRules, b: Box, s: Step, m: string)
    ensures Chain(Applied(rules, b, s), m) == if m == HomeOf(s.x) then Chain(b, m) + [s.e.event] else Chain(b, m)
  {
    assert Events(Stored(b.log, m) + [s.e]) == Events(Stored(b.log, m)) + [s.e.event];
  }

  lemma StepKeepsChain(rules: CaseRules, b: Box, s: Step, m: string)
    requires StepOk(rules, b, s) && m in b.matters && ChainOk(rules, b, m)
    requires m in Applied(rules, b, s).matters && Applied(rules, b, s).matters[m].tenant_id == b.matters[m].tenant_id
    ensures ChainOk(rules, Applied(rules, b, s), m)
  {
    AppendedChain(rules, b, s, m);
    if m == HomeOf(s.x) {
      FollowingKeepsIntact(rules.audit, Chain(b, m), s.e.event);
    }
  }

  lemma StepKeepsInStep(rules: CaseRules, b: Box, s: Step, m: string)
    requires StepOk(rules, b, s) && InStep(rules, b, m)
    requires Holds(b, s.x, Applied(rules, b, s))
    ensures InStep(rules, Applied(rules, b, s), m)
  {
    var c := Applied(rules, b, s);
    AppendedChain(rules, b, s, m);
    forall key: Key
      ensures LatestAfter(Chain(c, m), key) == Expected(rules, c, m, key)
    {
      LatestAfterSnoc(Chain(b, m), s.e.event, key);
      assert LatestAfter(Chain(b, m), key) == Expected(rules, b, m, key);
    }
  }

  lemma StepKeepsContinuous(rules: CaseRules, b: Box, s: Step, m: string)
    requires StepOk(rules, b, s) && InStep(rules, b, m) && Continuous(Chain(b, m))
    ensures Continuous(Chain(Applied(rules, b, s), m))
  {
    AppendedChain(rules, b, s, m);
    if m == HomeOf(s.x) {
      var e := s.e.event;
      var key := KeyOf(s.x);
      assert Key(e.entity_type, e.entity_id) == key;
      assert LatestAfter(Chain(b, m), key) == Expected(rules, b, m, key);
      ContinuousSnoc(Chain(b, m), e);
    }
  }

  /** The log is no part of the tables. */
  lemma LogIsApart(b: Box, log: Log)
    ensures TablesOk(b) ==> TablesOk(b.(log := log))
    ensures forall key: Key :: Lookup(b.(log := log), key) == Lookup(b, key)
  {
    var c := b.(log := log);
    assert FactsOk(b) ==> FactsOk(c);
    assert EntriesOk(b) ==> EntriesOk(c);
    assert DeadlinesOk(b) ==> DeadlinesOk(c);
    assert MarkersOk(b) ==> MarkersOk(c);
    assert MapsOk(b) ==> MapsOk(c);
  }

  lemma StepLookup(rules: CaseRules, b: Box, s: Step)
    requires TablesOk(b) && Fits(b, s.x)
    ensures TablesOk(Applied(rules, b, s)) && Holds(b, s.x, Applied(rules, b, s))
  {
    PutKeepsTables(b, s.x);
    LogIsApart(Put(b, s.x), Appended(rules.audit, b.log, HomeOf(s.x), s.e));
  }

  lemma PutMatters(b: Box, x: Entity)
    ensures Put(b, x).matters == if x.AMatter? then b.matters[x.matter.id := x.matter] else b.matters
  {
  }

  lemma StepKeepsMatters(rules: CaseRules, b: Box, s: Step)
    requires StepOk(rules, b, s)
    ensures var c := Applied(rules, b, s);
      c.matters.Keys == b.matters.Keys && forall m | m in b.matters :: c.matters[m].tenant_id == b.matters[m].tenant_id
  {
    PutMatters(b, s.x);
  }

  lemma StepKeepsHomes(rules: CaseRules, b: Box, s: Step)
    requires StepOk(rules, b, s) && HomesOk(b) && Holds(b, s.x, Applied(rules, b, s))
    ensures HomesOk(Applied(rules, b, s))
  {
    StepKeepsMatters(rules, b, s);
    var c := Applied(rules, b, s);
    forall key: Key | Lookup(c, key).Some?
      ensures var x := Lookup(c, key).value;
        HomeOf(x) in c.matters && TenantOf(x) == c.matters[HomeOf(x)].tenant_id
    {
      assert key != KeyOf(s.x) ==> Lookup(b, key).Some?;
    }
  }

  lemma StepKeepsMatter(rules: CaseRules, b: Box, s: Step, m: string)
    requires StepOk(rules, b, s) && Holds(b, s.x, Applied(rules, b, s)) && m in b.matters && MatterOk(rules, b, m)
    ensures m in Applied(rules, b, s).matters && MatterOk(rules, Applied(rules, b, s), m)
  {
    StepKeepsMatters(rules, b, s);
    StepKeepsChain(rules, b, s, m);
    StepKeepsInStep(rules, b, s, m);
    StepKeepsContinuous(rules, b, s, m);
  }

  lemma StepKeepsAllMatters(rules: CaseRules, b: Box, s: Step)
    requires StepOk(rules, b, s) && Holds(b, s.x, Applied(rules, b, s)) && MattersOk(rules, b)
    ensures MattersOk(rules, Applied(rules, b, s))
  {
    var c := Applied(rules, b, s);
    StepKeepsMatters(rules, b, s);
    forall m | m in c.matters
      ensures MatterOk(rules, c, m)
    {
      assert MatterOk(rules, b, m);
      StepKeepsMatter(rules, b, s, m);
    }
  }

  /** Every write keeps the ledger: tables, homes, chains, anchors, and the match between them. */
  lemma StepKeepsLedger(rules: CaseRules, b: Box, s: Step)
    requires LedgerOk(rules, b) && StepOk(rules, b, s)
    ensures LedgerOk(rules, Applied(rules, b, s))
  {
    LedgerParts(rules, b);
    StepLookup(rules, b, s);
    StepKeepsHomes(rules, b, s);
    StepKeepsMatters(rules, b, s);
    StepKeepsAllMatters(rules, b, s);
    StepKeepsLogKeys(rules, b, s);
    LedgerFromParts(rules, Applied(rules, b, s));
  }

  lemma StepKeepsLogKeys(rules: CaseRules, b: Box, s: Step)
    requires b.log.events.Keys == b.matters.Keys && HomeOf(s.x) in b.matters
    ensures Applied(rules, b, s).log.events.Keys == b.matters.Keys
  {
  }
}
