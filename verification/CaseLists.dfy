/** The paged lists of the case box (`listFacts`, `listDeadlinesHelper`, `listMattersHelper` in
    `services/case-box-persistence/src`): their sort tuples are distinct in every box in order, so
    paging returns every row exactly once, even while the box goes on being written. */
module CaseLists {
  import opened Wrappers
  import opened TextOrder
  import opened Ordering
  import opened SeekPaging
  import opened SortKeys
  import opened PagedLists
  import opened AuditChain
  import opened CaseRecords
  import opened CaseTables
  import opened CaseBoxState
  import opened CaseBoxInvariant
  import opened CaseBoxHistory

  /** When a record was created is part of its body; `created` reads it off. */
  type CreatedAt = string -> string

  datatype FactQuery = FactQuery(
    tenant_id: string, status: Option<FactStatus>, source_document_id: Option<string>, body_filter: string -> bool)

  datatype DeadlineQuery = DeadlineQuery(tenant_id: string, status: Option<DeadlineStatus>, kind: Option<string>)

  datatype MatterQuery = MatterQuery(tenant_id: string, status: Option<MatterStatus>)

  predicate WantsFact(q: FactQuery, f: Fact) {
    && f.tenant_id == q.tenant_id
    && (q.status.Some? ==> f.status == q.status.value)
    && (q.source_document_id.Some? ==> f.source_document_id == q.source_document_id)
    && q.body_filter(f.body)
  }

  predicate WantsDeadline(q: DeadlineQuery, d: Deadline) {
    && d.tenant_id == q.tenant_id
    && (q.status.Some? ==> d.status == q.status.value)
    && (q.kind.Some? ==> d.kind == q.kind.value)
  }

  predicate WantsMatter(q: MatterQuery, m: Matter) {
    m.tenant_id == q.tenant_id && (q.status.Some? ==> m.status == q.status.value)
  }

  function FactKeyOf(created: CreatedAt): Fact -> MomentKey {
    (f: Fact) => MomentKey(Units(created(f.body)), Units(f.id))
  }

  function DeadlineKeyOf(): Deadline -> MomentKey {
    (d: Deadline) => MomentKey(Units(d.due_at), Units(d.id))
  }

  function MatterKeyOf(created: CreatedAt): Matter -> RecencyKey {
    (m: Matter) => RecencyKey(Units(created(m.body)), Units(m.id))
  }

  function FactKeys(b: Box, m: string, q: FactQuery, created: CreatedAt): seq<MomentKey> {
    KeysWhere(Rows(b.facts, m), (f: Fact) => WantsFact(q, f), FactKeyOf(created))
  }

  function DeadlineKeys(b: Box, m: string, q: DeadlineQuery): seq<MomentKey> {
    KeysWhere(Rows(b.deadlines, m), (d: Deadline) => WantsDeadline(q, d), DeadlineKeyOf())
  }

  /** The map order lists every matter once. */
  ghost predicate ListsMatters(b: Box, order: seq<string>) {
    Distinct(order) && forall m :: m in order <==> m in b.matters
  }

  function MattersInOrder(b: Box, order: seq<string>): seq<Matter>
    requires forall m | m in order :: m in b.matters
  {
    seq(|order|, i requires 0 <= i < |order| => b.matters[order[i]])
  }

  function MatterKeys(b: Box, order: seq<string>, q: MatterQuery, created: CreatedAt): seq<RecencyKey>
    requires forall m | m in order :: m in b.matters
  {
    KeysWhere(MattersInOrder(b, order), (m: Matter) => WantsMatter(q, m), MatterKeyOf(created))
  }

  // ----- Distinct sort tuples -----

  lemma FactKeysDistinct(rules: CaseRules, b: Box, m: string, q: FactQuery, created: CreatedAt)
    requires LedgerOk(rules, b)
    ensures Distinct(FactKeys(b, m, q, created))
  {
    FactsIn(rules, b);
    var rows := Rows(b.facts, m);
    assert ArrayOk(FactPlace, b.facts, m);
    forall i, j | 0 <= i < j < |rows|
      ensures FactKeyOf(created)(rows[i]) != FactKeyOf(created)(rows[j])
    {
      assert FactPlace(rows[i]).id != FactPlace(rows[j]).id;
      if Units(rows[i].id) == Units(rows[j].id) {
        UnitsInjective(rows[i].id, rows[j].id);
      }
    }
    KeysWhereDistinct(rows, (f: Fact) => WantsFact(q, f), FactKeyOf(created));
  }

  lemma DeadlineKeysDistinct(rules: CaseRules, b: Box, m: string, q: DeadlineQuery)
    requires LedgerOk(rules, b)
    ensures Distinct(DeadlineKeys(b, m, q))
  {
    DeadlinesIn(rules, b);
    var rows := Rows(b.deadlines, m);
    assert ArrayOk(DeadlinePlace, b.deadlines, m);
    forall i, j | 0 <= i < j < |rows|
      ensures DeadlineKeyOf()(rows[i]) != DeadlineKeyOf()(rows[j])
    {
      assert DeadlinePlace(rows[i]).id != DeadlinePlace(rows[j]).id;
      if Units(rows[i].id) == Units(rows[j].id) {
        UnitsInjective(rows[i].id, rows[j].id);
      }
    }
    KeysWhereDistinct(rows, (d: Deadline) => WantsDeadline(q, d), DeadlineKeyOf());
  }

  lemma MatterKeysDistinct(rules: CaseRules, b: Box, order: seq<string>, q: MatterQuery, created: CreatedAt)
    requires LedgerOk(rules, b) && ListsMatters(b, order)
    ensures Distinct(MatterKeys(b, order, q, created))
  {
    MapsIn(rules, b);
    var rows := MattersInOrder(b, order);
    forall i, j | 0 <= i < j < |rows|
      ensures MatterKeyOf(created)(rows[i]) != MatterKeyOf(created)(rows[j])
    {
      assert order[i] in b.matters && order[j] in b.matters;
      if Units(rows[i].id) == Units(rows[j].id) {
        UnitsInjective(rows[i].id, rows[j].id);
      }
    }
    KeysWhereDistinct(rows, (m: Matter) => WantsMatter(q, m), MatterKeyOf(created));
  }

  // ----- Lists that stand still -----

  /** Following the cursors of the facts or the deadlines of a matter returns exactly the wanted rows,
      sorted, once each, for every limit. */
  lemma MatterListsDrainSorted(
    rules: CaseRules, b: Box, m: string, facts: FactQuery, deadlines: DeadlineQuery, created: CreatedAt, limit: nat)
    requires LedgerOk(rules, b) && 1 <= limit <= MAX_LIMIT
    ensures DrainsSorted(MomentFirst, FactKeys(b, m, facts, created), limit)
    ensures DrainsSorted(MomentFirst, DeadlineKeys(b, m, deadlines), limit)
  {
    MomentOrder();
    FactKeysDistinct(rules, b, m, facts, created);
    DrainIsSorted(MomentFirst, FactKeys(b, m, facts, created), limit);
    DeadlineKeysDistinct(rules, b, m, deadlines);
    DrainIsSorted(MomentFirst, DeadlineKeys(b, m, deadlines), limit);
  }

  /** The same for the list of matters. */
  lemma MattersDrainSorted(
    rules: CaseRules, b: Box, order: seq<string>, q: MatterQuery, created: CreatedAt, limit: nat)
    requires LedgerOk(rules, b) && ListsMatters(b, order) && 1 <= limit <= MAX_LIMIT
    ensures DrainsSorted(RecencyFirst, MatterKeys(b, order, q, created), limit)
  {
    RecencyOrder();
    MatterKeysDistinct(rules, b, order, q, created);
    DrainIsSorted(RecencyFirst, MatterKeys(b, order, q, created), limit);
  }

  // ----- What no write changes about a row -----

  /** Everything the keys and the filters look at, except the status. */
  predicate SameListing(x: Entity, y: Entity) {
    match (x, y)
    case (AFact(f), AFact(g)) =>
      && f.id == g.id && f.matter_id == g.matter_id && f.tenant_id == g.tenant_id
      && f.source_document_id == g.source_document_id && f.body == g.body
    case (ADeadline(d), ADeadline(e)) =>
      d.id == e.id && d.matter_id == e.matter_id && d.tenant_id == e.tenant_id && d.kind == e.kind && d.due_at == e.due_at
    case _ => true
  }

  lemma BecomesSameListing(x: Entity, y: Entity)
    requires Becomes(x, y)
    ensures SameListing(x, y) && KeyOf(x) == KeyOf(y)
  {
  }

  lemma {:induction false} ListedForever(rules: CaseRules, b: Box, attempts: seq<Attempt>, key: Key)
    requires BoxOk(rules, b) && Lookup(b, key).Some? && forall a | a in attempts :: GeneratesIds(a.w)
    requires KeyOf(Lookup(b, key).value) == key
    ensures var last := Lookup(AfterAll(rules, b, attempts), key);
      last.Some? && KeyOf(last.value) == key && SameListing(Lookup(b, key).value, last.value)
    decreases |attempts|
  {
    if attempts != [] {
      var a := attempts[0];
      assert a in attempts;
      var c := After(rules, b, a.w, a.stamp);
      WriteKeepsBox(rules, b, a.w, a.stamp);
      WriteLives(rules, b, a.w, a.stamp, key);
      var (x, y) := (Lookup(b, key).value, Lookup(c, key).value);
      if y != x {
        BecomesSameListing(x, y);
      }
      ListedForever(rules, c, attempts[1..], key);
      SameListingTwice(key, x, y, Lookup(AfterAll(rules, b, attempts), key).value);
    }
  }

  lemma SameListingTwice(key: Key, x: Entity, y: Entity, z: Entity)
    requires KeyOf(x) == key && KeyOf(y) == key && KeyOf(z) == key
    requires SameListing(x, y) && SameListing(y, z)
    ensures SameListing(x, z)
  {
  }

  lemma FactRowStays(rules: CaseRules, b: Box, attempts: seq<Attempt>, m: string, f: Fact) returns (g: Fact)
    requires BoxOk(rules, b) && f in Rows(b.facts, m) && forall a | a in attempts :: GeneratesIds(a.w)
    ensures g in Rows(AfterAll(rules, b, attempts).facts, m) && SameListing(AFact(f), AFact(g))
  {
    var c := AfterAll(rules, b, attempts);
    FactsIn(rules, b);
    RowIsFound(FactPlace, b.facts, m, f);
    ListedForever(rules, b, attempts, Key(TFact, f.id));
    EveryRunKeepsBox(rules, b, attempts);
    FactsIn(rules, c);
    g := FactAt(c, f.id).value;
    RowIsPlaced(FactPlace, c.facts, f.id);
  }

  lemma DeadlineRowStays(rules: CaseRules, b: Box, attempts: seq<Attempt>, m: string, d: Deadline) returns (e: Deadline)
    requires BoxOk(rules, b) && d in Rows(b.deadlines, m) && forall a | a in attempts :: GeneratesIds(a.w)
    ensures e in Rows(AfterAll(rules, b, attempts).deadlines, m) && SameListing(ADeadline(d), ADeadline(e))
  {
    var c := AfterAll(rules, b, attempts);
    DeadlinesIn(rules, b);
    RowIsFound(DeadlinePlace, b.deadlines, m, d);
    ListedForever(rules, b, attempts, Key(TDeadline, d.id));
    EveryRunKeepsBox(rules, b, attempts);
    DeadlinesIn(rules, c);
    e := DeadlineAt(c, d.id).value;
    RowIsPlaced(DeadlinePlace, c.deadlines, d.id);
  }

  lemma FactKeysStay(
    rules: CaseRules, b: Box, attempts: seq<Attempt>, m: string, q: FactQuery, created: CreatedAt, x: MomentKey)
    requires BoxOk(rules, b) && (forall a | a in attempts :: GeneratesIds(a.w)) && q.status.None?
    requires x in FactKeys(b, m, q, created)
    ensures x in FactKeys(AfterAll(rules, b, attempts), m, q, created)
  {
    var wanted := (f: Fact) => WantsFact(q, f);
    KeysWhereMembers(Rows(b.facts, m), wanted, FactKeyOf(created), x);
    var f :| f in Rows(b.facts, m) && wanted(f) && FactKeyOf(created)(f) == x;
    var g := FactRowStays(rules, b, attempts, m, f);
    assert wanted(g) && FactKeyOf(created)(g) == x;
    KeysWhereMembers(Rows(AfterAll(rules, b, attempts).facts, m), wanted, FactKeyOf(created), x);
  }

  lemma DeadlineKeysStay(rules: CaseRules, b: Box, attempts: seq<Attempt>, m: string, q: DeadlineQuery, x: MomentKey)
    requires BoxOk(rules, b) && (forall a | a in attempts :: GeneratesIds(a.w)) && q.status.None?
    requires x in DeadlineKeys(b, m, q)
    ensures x in DeadlineKeys(AfterAll(rules, b, attempts), m, q)
  {
    var wanted := (d: Deadline) => WantsDeadline(q, d);
    KeysWhereMembers(Rows(b.deadlines, m), wanted, DeadlineKeyOf(), x);
    var d :| d in Rows(b.deadlines, m) && wanted(d) && DeadlineKeyOf()(d) == x;
    var e := DeadlineRowStays(rules, b, attempts, m, d);
    assert wanted(e) && DeadlineKeyOf()(e) == x;
    KeysWhereMembers(Rows(AfterAll(rules, b, attempts).deadlines, m), wanted, DeadlineKeyOf(), x);
  }

  // ----- Lists of a box that is being written -----

  /** Any writes may be attempted on the box between one page and the next. */
  ghost predicate WrittenBetween(rules: CaseRules, boxes: nat -> Box, attempts: nat -> seq<Attempt>) {
    && BoxOk(rules, boxes(0))
    && (forall n: nat, a | a in attempts(n) :: GeneratesIds(a.w))
    && (forall n: nat :: boxes(n + 1) == AfterAll(rules, boxes(n), attempts(n)))
  }

  lemma {:induction false} LaterBoxes(rules: CaseRules, boxes: nat -> Box, attempts: nat -> seq<Attempt>, n: nat)
    requires WrittenBetween(rules, boxes, attempts)
    ensures BoxOk(rules, boxes(n))
  {
    if n > 0 {
      LaterBoxes(rules, boxes, attempts, n - 1);
      assert boxes(n - 1 + 1) == AfterAll(rules, boxes(n - 1), attempts(n - 1));
      EveryRunKeepsBox(rules, boxes(n - 1), attempts(n - 1));
    }
  }

  lemma {:induction false} FactKeysStayOn(
    rules: CaseRules, boxes: nat -> Box, attempts: nat -> seq<Attempt>, m: string, q: FactQuery, created: CreatedAt,
    n: nat, x: MomentKey)
    requires WrittenBetween(rules, boxes, attempts) && q.status.None? && x in FactKeys(boxes(0), m, q, created)
    ensures x in FactKeys(boxes(n), m, q, created)
  {
    if n > 0 {
      FactKeysStayOn(rules, boxes, attempts, m, q, created, n - 1, x);
      LaterBoxes(rules, boxes, attempts, n - 1);
      assert boxes(n - 1 + 1) == AfterAll(rules, boxes(n - 1), attempts(n - 1));
      FactKeysStay(rules, boxes(n - 1), attempts(n - 1), m, q, created, x);
    }
  }

  lemma {:induction false} DeadlineKeysStayOn(
    rules: CaseRules, boxes: nat -> Box, attempts: nat -> seq<Attempt>, m: string, q: DeadlineQuery, n: nat, x: MomentKey)
    requires WrittenBetween(rules, boxes, attempts) && q.status.None? && x in DeadlineKeys(boxes(0), m, q)
    ensures x in DeadlineKeys(boxes(n), m, q)
  {
    if n > 0 {
      DeadlineKeysStayOn(rules, boxes, attempts, m, q, n - 1, x);
      LaterBoxes(rules, boxes, attempts, n - 1);
      assert boxes(n - 1 + 1) == AfterAll(rules, boxes(n - 1), attempts(n - 1));
      DeadlineKeysStay(rules, boxes(n - 1), attempts(n - 1), m, q, x);
    }
  }

  function FactSnapshots(boxes: nat -> Box, m: string, q: FactQuery, created: CreatedAt): nat -> seq<MomentKey> {
    (n: nat) => FactKeys(boxes(n), m, q, created)
  }

  function DeadlineSnapshots(boxes: nat -> Box, m: string, q: DeadlineQuery): nat -> seq<MomentKey> {
    (n: nat) => DeadlineKeys(boxes(n), m, q)
  }

  /** Whatever is written to the box between pages, draining the facts of a matter, whatever their status,
      returns every fact that was there at the start exactly once, in order. */
  lemma FactDrainIsComplete(
    rules: CaseRules, boxes: nat -> Box, attempts: nat -> seq<Attempt>, m: string, q: FactQuery, created: CreatedAt,
    limit: nat)
    requires WrittenBetween(rules, boxes, attempts) && q.status.None? && limit >= 1
    ensures var snapshots := FactSnapshots(boxes, m, q, created);
      Complete(MomentFirst, snapshots, DrainGuarded(PagesOf(MomentFirst, snapshots, limit), 0, None, {}))
  {
    var snapshots := FactSnapshots(boxes, m, q, created);
    MomentOrder();
    forall n: nat
      ensures Distinct(snapshots(n))
      ensures forall x | x in snapshots(0) :: x in snapshots(n)
    {
      LaterBoxes(rules, boxes, attempts, n);
      FactKeysDistinct(rules, boxes(n), m, q, created);
      forall x | x in snapshots(0)
        ensures x in snapshots(n)
      {
        FactKeysStayOn(rules, boxes, attempts, m, q, created, n, x);
      }
    }
    DrainIsComplete(MomentFirst, snapshots, limit);
  }

  /** The same for the deadlines of a matter, as the overdue banner drains them. */
  lemma DeadlineDrainIsComplete(
    rules: CaseRules, boxes: nat -> Box, attempts: nat -> seq<Attempt>, m: string, q: DeadlineQuery, limit: nat)
    requires WrittenBetween(rules, boxes, attempts) && q.status.None? && limit >= 1
    ensures var snapshots := DeadlineSnapshots(boxes, m, q);
      Complete(MomentFirst, snapshots, DrainGuarded(PagesOf(MomentFirst, snapshots, limit), 0, None, {}))
  {
    var snapshots := DeadlineSnapshots(boxes, m, q);
    MomentOrder();
    forall n: nat
      ensures Distinct(snapshots(n))
      ensures forall x | x in snapshots(0) :: x in snapshots(n)
    {
      LaterBoxes(rules, boxes, attempts, n);
      DeadlineKeysDistinct(rules, boxes(n), m, q);
      forall x | x in snapshots(0)
        ensures x in snapshots(n)
      {
        DeadlineKeysStayOn(rules, boxes, attempts, m, q, n, x);
      }
    }
    DrainIsComplete(MomentFirst, snapshots, limit);
  }
}
