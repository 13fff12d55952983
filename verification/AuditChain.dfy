/** The per-matter audit chain: how an event is built and judged
    (`docs/contracts/case-box-contract/src/audit-log.ts`), the log with its independently written head
    anchor (`services/case-box-persistence/src/auditHeadAnchor.ts`), and verification against that
    anchor (`inMemoryAudit.ts`). */
module AuditChain {
  import opened Wrappers

  datatype Action = Create | Update | PrivilegeWaive

  datatype EntityType = TMatter | TDocument | TFact | TDocketEntry | TDeadline | TPrivilegeMarker

  datatype Kind =
    | MatterRegistered
    | MatterArchived
    | MatterUnarchived
    | MatterPartyIdsAssigned
    | MatterDetailsUpdated
    | DocumentRegistered
    | FactProposed
    | FactReviewed
    | FactAccepted
    | FactRejected
    | FactReplacementAccepted
    | DocketEntryProposed
    | DocketEntryConfirmed
    | DocketEntryDismissed
    | DocketEntryRevised
    | DeadlineRegistered
    | DeadlineMet
    | DeadlineMissed
    | DeadlineWithdrawn
    | DeadlineMissedToMet
    | PrivilegeMarkerProposed
    | PrivilegeMarkerConfirmed
    | PrivilegeMarkerDismissed
    | PrivilegeMarkerWaived

  datatype KindMeta = KindMeta(action: Action, entity_type: EntityType, reason_required: bool)

  function MetaOf(kind: Kind): KindMeta {
    match kind
    case MatterRegistered => KindMeta(Create, TMatter, false)
    case MatterArchived => KindMeta(Update, TMatter, false)
    case MatterUnarchived => KindMeta(Update, TMatter, false)
    case MatterPartyIdsAssigned => KindMeta(Update, TMatter, false)
    case MatterDetailsUpdated => KindMeta(Update, TMatter, true)
    case DocumentRegistered => KindMeta(Create, TDocument, false)
    case FactProposed => KindMeta(Create, TFact, false)
    case FactReviewed => KindMeta(Update, TFact, false)
    case FactAccepted => KindMeta(Update, TFact, false)
    case FactRejected => KindMeta(Update, TFact, true)
    case FactReplacementAccepted => KindMeta(Create, TFact, false)
    case DocketEntryProposed => KindMeta(Create, TDocketEntry, false)
    case DocketEntryConfirmed => KindMeta(Update, TDocketEntry, false)
    case DocketEntryDismissed => KindMeta(Update, TDocketEntry, true)
    case DocketEntryRevised => KindMeta(Update, TDocketEntry, false)
    case DeadlineRegistered => KindMeta(Create, TDeadline, false)
    case DeadlineMet => KindMeta(Update, TDeadline, false)
    case DeadlineMissed => KindMeta(Update, TDeadline, false)
    case DeadlineWithdrawn => KindMeta(Update, TDeadline, false)
    case DeadlineMissedToMet => KindMeta(Update, TDeadline, true)
    case PrivilegeMarkerProposed => KindMeta(Create, TPrivilegeMarker, false)
    case PrivilegeMarkerConfirmed => KindMeta(Update, TPrivilegeMarker, false)
    case PrivilegeMarkerDismissed => KindMeta(Update, TPrivilegeMarker, true)
    case PrivilegeMarkerWaived => KindMeta(PrivilegeWaive, TPrivilegeMarker, true)
  }

  /** A hex digest; never empty. */
  type Digest = s: string | s != "" witness "0"

  datatype Event = Event(
    id: string,
    tenant_id: string,
    actor_user_id: string,
    matter_id: string,
    action: Action,
    entity_type: EntityType,
    entity_id: string,
    before_state_hash: Option<string>,
    after_state_hash: string,
    prev_event_hash: Option<string>,
    timestamp: string,
    reason: Option<string>,
    kind: Option<Kind>,
    changed_fields: Option<seq<string>>)

  datatype StoredEvent = StoredEvent(sequence: nat, event: Event)

  datatype Anchor = Anchor(head_hash: Digest, count: nat)

  /** The event hash and the event schema. */
  datatype AuditRules = AuditRules(hash: Event -> Digest, valid: Event -> bool)

  function Events(stored: seq<StoredEvent>): (es: seq<Event>)
    ensures |es| == |stored| && forall i | 0 <= i < |stored| :: es[i] == stored[i].event
  {
    seq(|stored|, i requires 0 <= i < |stored| => stored[i].event)
  }

  /** `priorHeadOf`: what the next event must point back to. */
  function HeadOf(rules: AuditRules, es: seq<Event>): Option<Digest> {
    if es == [] then None else Some(rules.hash(es[|es| - 1]))
  }

  predicate HasReason(reason: Option<string>) {
    reason.Some? && reason.value != ""
  }

  /** `buildCaseBoxAuditEvent`; none when the reason a kind requires is missing or the schema refuses. */
  function BuildEvent(
    rules: AuditRules, kind: Kind, id: string, tenant_id: string, actor: string, matter_id: string, entity_id: string,
    before: Option<string>, after: string, prev: Option<string>, timestamp: string, reason: Option<string>):
    (built: Option<Event>)
  {
    var meta := MetaOf(kind);
    var e := Event(
      id, tenant_id, actor, matter_id, meta.action, meta.entity_type, entity_id, before, after, prev, timestamp, reason,
      Some(kind), None);
    if (meta.reason_required && !HasReason(reason)) || !rules.valid(e) then None else Some(e)
  }

  // ----- Verification -----

  datatype ChainFault =
    | MissingGenesis
    | SchemaInvalid
    | MissingAfterHash
    | PrevHashNotNull
    | TenantMismatch
    | MatterMismatch
    | PrevHashMismatch
    | BeforeHashOnCreate
    | KindInconsistent

  datatype Verdict = Verified(count: nat, head: Option<Digest>) | Broken(index: nat, why: ChainFault)

  predicate KindConsistent(e: Event) {
    e.kind.Some? ==>
      var meta := MetaOf(e.kind.value);
      meta.action == e.action && meta.entity_type == e.entity_type && (meta.reason_required ==> HasReason(e.reason))
  }

  /** What is wrong with the `i`-th event, checked in the source's order. */
  function FaultAt(rules: AuditRules, es: seq<Event>, i: nat): Option<ChainFault>
    requires i < |es|
  {
    var e := es[i];
    if !rules.valid(e) then Some(SchemaInvalid)
    else if e.after_state_hash == "" then Some(MissingAfterHash)
    else if i == 0 && e.prev_event_hash.Some? then Some(PrevHashNotNull)
    else if i > 0 && e.tenant_id != es[0].tenant_id then Some(TenantMismatch)
    else if i > 0 && e.matter_id != es[0].matter_id then Some(MatterMismatch)
    else if i > 0 && e.prev_event_hash != HeadOf(rules, es[..i]) then Some(PrevHashMismatch)
    else if e.action == Create && e.before_state_hash.Some? then Some(BeforeHashOnCreate)
    else if !KindConsistent(e) then Some(KindInconsistent)
    else None
  }

  predicate Intact(rules: AuditRules, es: seq<Event>) {
    forall i | 0 <= i < |es| :: FaultAt(rules, es, i).None?
  }

  /** `verifyAuditChain`: verified exactly when every event is in order, otherwise the first fault. */
  method VerifyAuditChain(rules: AuditRules, es: seq<Event>) returns (v: Verdict)
    ensures v.Verified? <==> Intact(rules, es)
    ensures v.Verified? ==> v.count == |es| && v.head == HeadOf(rules, es)
    ensures v.Broken? ==>
      && v.index < |es| && FaultAt(rules, es, v.index) == Some(v.why)
      && forall k | 0 <= k < v.index :: FaultAt(rules, es, k).None?
  {
    var prior: Option<Digest> := None;
    for i := 0 to |es|
      invariant prior == HeadOf(rules, es[..i])
      invariant forall k | 0 <= k < i :: FaultAt(rules, es, k).None?
    {
      var e := es[i];
      ghost var fault := FaultAt(rules, es, i);
      assert fault.Some? ==> !Intact(rules, es);
      if !rules.valid(e) {
        return Broken(i, SchemaInvalid);
      }
      if e.after_state_hash == "" {
        return Broken(i, MissingAfterHash);
      }
      if i == 0 {
        if e.prev_event_hash.Some? {
          return Broken(0, PrevHashNotNull);
        }
      } else {
        if e.tenant_id != es[0].tenant_id {
          return Broken(i, TenantMismatch);
        }
        if e.matter_id != es[0].matter_id {
          return Broken(i, MatterMismatch);
        }
        if e.prev_event_hash != prior {
          return Broken(i, PrevHashMismatch);
        }
      }
      if e.action == Create && e.before_state_hash.Some? {
        return Broken(i, BeforeHashOnCreate);
      }
      if !KindConsistent(e) {
        return Broken(i, KindInconsistent);
      }
      prior := Some(rules.hash(e));
      assert es[..i + 1][i] == e;
    }
    assert es[..|es|] == es;
    v := Verified(|es|, prior);
  }

  /** A chain may only begin with the registration of its matter. */
  predicate Genesis(e: Event) {
    e.action == Create && e.entity_type == TMatter && e.before_state_hash.None?
  }

  /** A chain that passes against a recorded head. */
  predicate Passes(rules: AuditRules, es: seq<Event>, recorded: Option<Digest>) {
    es != [] && Genesis(es[0]) && Intact(rules, es) && HeadOf(rules, es) == recorded
  }

  // ----- The anchor determines the chain -----

  ghost predicate Injective(rules: AuditRules) {
    forall a, b | rules.hash(a) == rules.hash(b) :: a == b
  }

  lemma IntactPrefix(rules: AuditRules, es: seq<Event>, n: nat)
    requires n <= |es| && Intact(rules, es)
    ensures Intact(rules, es[..n])
  {
    forall i | 0 <= i < n
      ensures FaultAt(rules, es[..n], i).None?
    {
      assert es[..n][..i] == es[..i];
      assert FaultAt(rules, es, i).None?;
    }
  }

  lemma {:induction false} SameHeadSameChain(rules: AuditRules, es: seq<Event>, fs: seq<Event>)
    requires Injective(rules) && Intact(rules, es) && Intact(rules, fs)
    requires HeadOf(rules, es) == HeadOf(rules, fs)
    ensures es == fs
    decreases |es|
  {
    if es != [] && fs != [] {
      var (m, n) := (|es| - 1, |fs| - 1);
      var last := es[m];
      assert last == fs[n];
      assert FaultAt(rules, es, m).None? && FaultAt(rules, fs, n).None?;
      assert last.prev_event_hash.None? <==> m == 0;
      assert last.prev_event_hash.None? <==> n == 0;
      IntactPrefix(rules, es, m);
      IntactPrefix(rules, fs, n);
      SameHeadSameChain(rules, es[..m], fs[..n]);
      assert es == es[..m] + [last] && fs == fs[..n] + [last];
    }
  }

  /** Two histories that pass against one recorded head are the same history. So an edit, a deletion,
      an insertion, a reordering or a truncation that leaves the anchor alone is always refused. */
  lemma AnchorDeterminesChain(rules: AuditRules, es: seq<Event>, fs: seq<Event>, recorded: Option<Digest>)
    requires Injective(rules) && Passes(rules, es, recorded)
    ensures Passes(rules, fs, recorded) <==> fs == es
  {
    if Passes(rules, fs, recorded) {
      SameHeadSameChain(rules, es, fs);
    }
  }

  // ----- The log -----

  datatype Log = Log(events: map<string, seq<StoredEvent>>, heads: map<string, Anchor>)

  function Stored(log: Log, matter_id: string): seq<StoredEvent> {
    if matter_id in log.events then log.events[matter_id] else []
  }

  function Appended(rules: AuditRules, log: Log, matter_id: string, e: StoredEvent): Log {
    var list := Stored(log, matter_id) + [e];
    Log(log.events[matter_id := list], log.heads[matter_id := Anchor(rules.hash(e.event), |list|)])
  }

  function AppendedAll(rules: AuditRules, log: Log, matter_id: string, es: seq<StoredEvent>): Log {
    if es == [] then log
    else Appended(rules, AppendedAll(rules, log, matter_id, es[..|es| - 1]), matter_id, es[|es| - 1])
  }

  class InMemoryAuditLog {
    const rules: AuditRules
    var events: map<string, seq<StoredEvent>>
    var heads: map<string, Anchor>

    ghost function View(): Log
      reads this
    {
      Log(events, heads)
    }

    constructor (rules: AuditRules)
      ensures View() == Log(map[], map[]) && this.rules == rules
    {
      this.rules, events, heads := rules, map[], map[];
    }

    /** One event and its anchor, in one step. */
    method Append(matter_id: string, e: StoredEvent)
      modifies this
      ensures View() == Appended(rules, old(View()), matter_id, e)
    {
      var list := if matter_id in events then events[matter_id] else [];
      list := list + [e];
      events := events[matter_id := list];
      heads := heads[matter_id := Anchor(rules.hash(e.event), |list|)];
    }

    method AppendAll(matter_id: string, es: seq<StoredEvent>)
      modifies this
      ensures View() == AppendedAll(rules, old(View()), matter_id, es)
    {
      for i := 0 to |es|
        invariant View() == AppendedAll(rules, old(View()), matter_id, es[..i])
      {
        assert es[..i + 1][..i] == es[..i];
        Append(matter_id, es[i]);
      }
      assert es[..|es|] == es;
    }

    /** Seeds a chain: whatever was there is forgotten. */
    method Reset(matter_id: string, es: seq<StoredEvent>)
      modifies this
      ensures View() ==
        AppendedAll(rules, Log(old(events)[matter_id := []], old(heads) - {matter_id}), matter_id, es)
    {
      events := events[matter_id := []];
      heads := heads - {matter_id};
      AppendAll(matter_id, es);
    }

    /** `verifyAuditChainForMatter`, for a matter that exists. */
    method VerifyForMatter(matter_id: string) returns (v: Verdict)
      ensures var es := Events(Stored(View(), matter_id));
        var recorded := if matter_id in heads then Some(heads[matter_id].head_hash) else None;
        && (v.Verified? <==> Passes(rules, es, recorded))
        && (v.Verified? ==> v.count == |es| && v.head == recorded)
        && (v.Broken? && v.why == MissingGenesis <==> es == [] || !Genesis(es[0]))
    {
      var es := Events(if matter_id in events then events[matter_id] else []);
      if |es| == 0 {
        return Broken(0, MissingGenesis);
      }
      if !(es[0].action == Create && es[0].entity_type == TMatter && es[0].before_state_hash.None?) {
        return Broken(0, MissingGenesis);
      }
      v := VerifyAuditChain(rules, es);
      if v.Verified? {
        var recorded := if matter_id in heads then Some(heads[matter_id].head_hash) else None;
        if recorded != v.head {
          v := Broken(|es| - 1, PrevHashMismatch);
        }
      }
    }
  }

  // ----- Appending keeps a chain in order -----

  /** The next event of a chain: it points back to the head, belongs where the chain belongs, and is
      well-formed. */
  predicate Follows(rules: AuditRules, es: seq<Event>, e: Event) {
    && rules.valid(e) && e.after_state_hash != ""
    && e.prev_event_hash == HeadOf(rules, es)
    && (es != [] ==> e.tenant_id == es[0].tenant_id && e.matter_id == es[0].matter_id)
    && (e.action == Create ==> e.before_state_hash.None?)
    && KindConsistent(e)
  }

  lemma FollowingKeepsIntact(rules: AuditRules, es: seq<Event>, e: Event)
    requires Intact(rules, es)
    ensures Intact(rules, es + [e]) <==> Follows(rules, es, e)
  {
    var fs := es + [e];
    assert fs[..|es|] == es;
    assert FaultAt(rules, fs, |es|).None? <==> Follows(rules, es, e);
    forall i | 0 <= i < |es|
      ensures FaultAt(rules, fs, i) == FaultAt(rules, es, i)
    {
      assert fs[..i] == es[..i];
    }
  }
}
