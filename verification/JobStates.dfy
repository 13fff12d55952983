/** The OCR job state machine (`docs/contracts/src/transitions.ts`): who may move a job along which
    edge, when a sequence of moves is a legal timeline, and the shape of the timelines that the
    processing coordinator can write. */
module JobStates {
  import opened Wrappers

  datatype State =
    Queued | Claimed | Processing | Succeeded | Failed | PartialSucceeded | Cancelled | DeadLettered

  datatype Actor = Queue | Worker | WebApp

  datatype Edge = Edge(from: State, to: State, actor: Actor)

  /** One recorded move. The note is free text to the state machine. */
  datatype Transition<+Note> = Transition(edge: Edge, at: string, note: Option<Note>)

  predicate IsTerminal(s: State) {
    s in {Succeeded, PartialSucceeded, Cancelled, DeadLettered}
  }

  const BASE_EDGES: seq<Edge> := [
    Edge(Queued, Claimed, Queue),
    Edge(Claimed, Processing, Worker),
    Edge(Claimed, Queued, Queue),
    Edge(Processing, Succeeded, Worker),
    Edge(Processing, Failed, Worker),
    Edge(Processing, PartialSucceeded, Worker),
    Edge(Failed, Queued, Queue),
    Edge(Failed, DeadLettered, Queue)
  ]

  /** The table, and the cancellation of any job that is not finished. */
  predicate IsAllowed(e: Edge) {
    e in BASE_EDGES || (!IsTerminal(e.from) && e.to == Cancelled && e.actor == WebApp)
  }

  // ----- Sequences of moves -----

  datatype LinkFault = Unchained | FromTerminal | NotAllowed

  datatype SequenceFault = EmptySequence | BadLink(index: nat, why: LinkFault)

  /** What is wrong with `e` after a move that led to `prior`, checked in the source's order. */
  function FaultOf(prior: Option<State>, e: Edge): Option<LinkFault> {
    if prior.Some? && e.from != prior.value then Some(Unchained)
    else if IsTerminal(e.from) then Some(FromTerminal)
    else if !IsAllowed(e) then Some(NotAllowed)
    else None
  }

  function LastState(es: seq<Edge>): Option<State> {
    if es == [] then None else Some(es[|es| - 1].to)
  }

  /** Every edge follows from the one before it. */
  predicate Chained(es: seq<Edge>) {
    forall i | 0 <= i < |es| :: FaultOf(LastState(es[..i]), es[i]).None?
  }

  function EdgesOf<Note>(ts: seq<Transition<Note>>): (es: seq<Edge>)
    ensures |es| == |ts| && forall i | 0 <= i < |ts| :: es[i] == ts[i].edge
  {
    seq(|ts|, i requires 0 <= i < |ts| => ts[i].edge)
  }

  /** `validateTransitionSequence`: the first fault, or none exactly when the moves form a chain. */
  method ValidateTransitionSequence<Note>(ts: seq<Transition<Note>>) returns (fault: Option<SequenceFault>)
    ensures fault.None? <==> ts != [] && Chained(EdgesOf(ts))
    ensures fault == Some(EmptySequence) <==> ts == []
    ensures fault.Some? && fault.value.BadLink? ==>
      var (i, es) := (fault.value.index, EdgesOf(ts));
      i < |ts| && Chained(es[..i]) && FaultOf(LastState(es[..i]), es[i]) == Some(fault.value.why)
  {
    if ts == [] {
      return Some(EmptySequence);
    }
    ghost var es := EdgesOf(ts);
    var prior: Option<State> := None;
    for i := 0 to |ts|
      invariant prior == LastState(es[..i])
      invariant Chained(es[..i])
    {
      var e := ts[i].edge;
      ChainGrows(es[..i], e);
      assert es[..i + 1] == es[..i] + [e];
      if prior.Some? && e.from != prior.value {
        return Some(BadLink(i, Unchained));
      }
      if IsTerminal(e.from) {
        return Some(BadLink(i, FromTerminal));
      }
      if !IsAllowed(e) {
        return Some(BadLink(i, NotAllowed));
      }
      prior := Some(e.to);
    }
    assert es[..|ts|] == es;
    fault := None;
  }

  /** Checking the whole chain again after an append amounts to checking the last edge. */
  lemma ChainGrows(es: seq<Edge>, e: Edge)
    requires Chained(es)
    ensures Chained(es + [e]) <==> FaultOf(LastState(es), e).None?
  {
    var longer := es + [e];
    assert longer[..|es|] == es;
    forall i | 0 <= i < |es|
      ensures FaultOf(LastState(longer[..i]), longer[i]).None?
    {
      assert longer[..i] == es[..i];
    }
  }

  lemma ChainPrefix(es: seq<Edge>, n: nat)
    requires n <= |es| && Chained(es)
    ensures Chained(es[..n])
  {
    forall i | 0 <= i < n
      ensures FaultOf(LastState(es[..n][..i]), es[..n][i]).None?
    {
      assert es[..n][..i] == es[..i];
    }
  }

  /** Every edge of a chain leaves the state the edge before it reached. */
  lemma ChainLink(es: seq<Edge>, i: nat)
    requires Chained(es) && 0 < i < |es|
    ensures es[i].from == es[i - 1].to && !IsTerminal(es[i].from) && IsAllowed(es[i])
  {
    assert FaultOf(LastState(es[..i]), es[i]).None?;
  }

  /** Nothing follows a terminal state. */
  lemma TerminalIsLast(es: seq<Edge>, i: nat)
    requires Chained(es) && i < |es| && IsTerminal(es[i].to)
    ensures i == |es| - 1
  {
    if i + 1 < |es| {
      ChainLink(es, i + 1);
    }
  }

  /** A finished timeline accepts no move by anybody. */
  lemma TerminalFreezes(es: seq<Edge>, e: Edge)
    requires es != [] && IsTerminal(es[|es| - 1].to)
    ensures !Chained(es + [e])
  {
    if Chained(es + [e]) {
      ChainLink(es + [e], |es|);
    }
  }

  /** What may come next in a job that has come to a state, and at whose hands. */
  predicate MayFollow(last: State, e: Edge) {
    match last
    case Queued => e in {Edge(Queued, Claimed, Queue), Edge(Queued, Cancelled, WebApp)}
    case Claimed =>
      e in {Edge(Claimed, Processing, Worker), Edge(Claimed, Queued, Queue), Edge(Claimed, Cancelled, WebApp)}
    case Processing =>
      e in {
        Edge(Processing, Succeeded, Worker), Edge(Processing, PartialSucceeded, Worker), Edge(Processing, Failed, Worker),
        Edge(Processing, Cancelled, WebApp)}
    case Failed =>
      e in {Edge(Failed, Queued, Queue), Edge(Failed, DeadLettered, Queue), Edge(Failed, Cancelled, WebApp)}
    case _ => false
  }

  /** A timeline that has begun goes on by these moves and no others. */
  lemma NextMoves(es: seq<Edge>, e: Edge)
    requires Chained(es) && es != []
    ensures Chained(es + [e]) <==> MayFollow(es[|es| - 1].to, e)
  {
    ChainGrows(es, e);
    TableByState(es[|es| - 1].to, e);
  }

  lemma TableByState(from: State, e: Edge)
    ensures e.from == from && !IsTerminal(from) && IsAllowed(e) <==> MayFollow(from, e)
  {
    assert BASE_EDGES[0] == Edge(Queued, Claimed, Queue) && BASE_EDGES[1] == Edge(Claimed, Processing, Worker);
    assert BASE_EDGES[2] == Edge(Claimed, Queued, Queue) && BASE_EDGES[3] == Edge(Processing, Succeeded, Worker);
    assert BASE_EDGES[4] == Edge(Processing, Failed, Worker);
    assert BASE_EDGES[5] == Edge(Processing, PartialSucceeded, Worker);
    assert BASE_EDGES[6] == Edge(Failed, Queued, Queue) && BASE_EDGES[7] == Edge(Failed, DeadLettered, Queue);
  }

  // ----- The coordinator's timelines -----

  /** The edges the processing coordinator appends: its own two queue edges and the worker's. */
  predicate CoordinatorEdge(e: Edge) {
    e in BASE_EDGES && e != Edge(Claimed, Queued, Queue)
  }

  const ROUND: seq<Edge> := [
    Edge(Queued, Claimed, Queue), Edge(Claimed, Processing, Worker), Edge(Processing, Failed, Worker),
    Edge(Failed, Queued, Queue)
  ]

  const LAST_ROUNDS: seq<seq<Edge>> := [
    [Edge(Queued, Claimed, Queue), Edge(Claimed, Processing, Worker), Edge(Processing, Succeeded, Worker)],
    [Edge(Queued, Claimed, Queue), Edge(Claimed, Processing, Worker), Edge(Processing, PartialSucceeded, Worker)],
    [Edge(Queued, Claimed, Queue), Edge(Claimed, Processing, Worker), Edge(Processing, Failed, Worker),
     Edge(Failed, DeadLettered, Queue)]
  ]

  /** `k` failed rounds, then as much as has happened so far of the last one. */
  predicate InRounds(es: seq<Edge>, k: nat) {
    if k == 0 then exists i | 0 <= i < |LAST_ROUNDS| :: es <= LAST_ROUNDS[i]
    else |es| >= 4 && es[..4] == ROUND && InRounds(es[4..], k - 1)
  }

  /** A legal chain of coordinator edges that starts from the queue. */
  predicate CoordinatorChain(es: seq<Edge>) {
    && Chained(es)
    && (es != [] ==> es[0].from == Queued)
    && forall i | 0 <= i < |es| :: CoordinatorEdge(es[i])
  }

  function RetryCount(es: seq<Edge>): nat {
    if es == [] then 0
    else RetryCount(es[..|es| - 1]) + (if es[|es| - 1].from == Failed && es[|es| - 1].to == Queued then 1 else 0)
  }

  lemma {:induction false} RetryCountSplit(es: seq<Edge>, fs: seq<Edge>)
    ensures RetryCount(es + fs) == RetryCount(es) + RetryCount(fs)
  {
    if fs == [] {
      assert es + fs == es;
    } else {
      var init := fs[..|fs| - 1];
      assert (es + fs)[..|es + fs| - 1] == es + init;
      RetryCountSplit(es, init);
    }
  }

  lemma CoordinatorStep(es: seq<Edge>, i: nat)
    requires CoordinatorChain(es) && i < |es|
    ensures CoordinatorEdge(es[i]) && es[i].from == if i == 0 then Queued else es[i - 1].to
  {
    if i > 0 {
      ChainLink(es, i);
    }
  }

  /** A chain that fails and is queued again starts over as a chain. */
  lemma RestartsAfterRound(es: seq<Edge>)
    requires |es| >= 4 && CoordinatorChain(es) && es[3].to == Queued
    ensures CoordinatorChain(es[4..])
  {
    var rest := es[4..];
    forall i | 0 <= i < |rest|
      ensures FaultOf(LastState(rest[..i]), rest[i]).None? && CoordinatorEdge(rest[i])
    {
      ChainLink(es, 4 + i);
      assert rest[i] == es[4 + i];
    }
    if rest != [] {
      ChainLink(es, 4);
    }
  }

  lemma FirstEdges(es: seq<Edge>)
    requires CoordinatorChain(es)
    ensures |es| > 0 ==> es[0] == ROUND[0]
    ensures |es| > 1 ==> es[1] == ROUND[1]
    ensures |es| > 2 ==> es[2].from == Processing && es[2].to in {Succeeded, PartialSucceeded, Failed}
    ensures |es| > 3 ==> es[2] == ROUND[2] && (es[3] == ROUND[3] || (es[3] == LAST_ROUNDS[2][3] && |es| == 4))
  {
    forall i | 0 <= i < |es|
      ensures CoordinatorEdge(es[i]) && es[i].from == if i == 0 then Queued else es[i - 1].to
    {
      CoordinatorStep(es, i);
    }
    if |es| > 3 {
      assert !IsTerminal(es[2].to) by {
        ChainLink(es, 3);
      }
      if |es| > 4 {
        ChainLink(es, 4);
      }
    }
  }

  /** At most one round, edge by edge. */
  predicate ShortWord(es: seq<Edge>) {
    && |es| <= 4
    && (|es| > 0 ==> es[0] == ROUND[0])
    && (|es| > 1 ==> es[1] == ROUND[1])
    && (|es| > 2 ==> es[2] in {LAST_ROUNDS[0][2], LAST_ROUNDS[1][2], LAST_ROUNDS[2][2]})
    && (|es| > 3 ==> es[2] == ROUND[2] && es[3] == LAST_ROUNDS[2][3])
  }

  lemma ShortWordStartsRound(es: seq<Edge>) returns (last: nat)
    requires ShortWord(es)
    ensures last < |LAST_ROUNDS| && es <= LAST_ROUNDS[last]
  {
    last := if |es| > 2 && es[2].to == Succeeded then 0 else if |es| > 2 && es[2].to == PartialSucceeded then 1 else 2;
    var round := LAST_ROUNDS[last];
    assert forall i | 0 <= i < |es| :: es[i] == round[i];
  }

  lemma ShortWordHasNoRetry(es: seq<Edge>)
    requires ShortWord(es)
    ensures RetryCount(es) == 0
  {
    NoRetryEdges(es);
  }

  lemma ShortChainInRounds(es: seq<Edge>)
    requires CoordinatorChain(es) && !(|es| >= 4 && es[3] == ROUND[3])
    ensures InRounds(es, 0) && RetryCount(es) == 0
  {
    ShortChainEdges(es);
    var last := ShortWordStartsRound(es);
    ShortWordHasNoRetry(es);
  }

  lemma ShortChainEdges(es: seq<Edge>)
    requires CoordinatorChain(es) && !(|es| >= 4 && es[3] == ROUND[3])
    ensures ShortWord(es)
  {
    FirstEdges(es);
    if |es| > 2 {
      CoordinatorStep(es, 2);
    }
  }

  lemma {:induction false} NoRetryEdges(es: seq<Edge>)
    requires forall i | 0 <= i < |es| :: !(es[i].from == Failed && es[i].to == Queued)
    ensures RetryCount(es) == 0
  {
    if es != [] {
      NoRetryEdges(es[..|es| - 1]);
    }
  }

  /** A full round in front is one more retry. */
  lemma FullRoundCounts(es: seq<Edge>)
    requires |es| >= 4 && es[..4] == ROUND
    ensures RetryCount(es) == 1 + RetryCount(es[4..])
  {
    assert es == ROUND + es[4..];
    RetryCountSplit(ROUND, es[4..]);
    RoundCountsOne();
  }

  lemma FullRound(es: seq<Edge>)
    requires CoordinatorChain(es) && |es| >= 4 && es[3] == ROUND[3]
    ensures es[..4] == ROUND
  {
    FirstEdges(es);
  }

  /** What the coordinator can write is exactly this regular language, and the number of full rounds
      is the retry count the review model derives. */
  lemma {:induction false} CoordinatorChainInRounds(es: seq<Edge>)
    requires CoordinatorChain(es)
    ensures InRounds(es, RetryCount(es))
    decreases |es|
  {
    if |es| >= 4 && es[3] == ROUND[3] {
      FullRound(es);
      FullRoundCounts(es);
      RestartsAfterRound(es);
      CoordinatorChainInRounds(es[4..]);
    } else {
      ShortChainInRounds(es);
    }
  }

  lemma RoundCountsOne()
    ensures RetryCount(ROUND) == 1
  {
    assert RetryCount(ROUND[..3]) == 0 by {
      NoRetryEdges(ROUND[..3]);
    }
  }

  lemma LastRoundsAreChains(i: nat, n: nat)
    requires i < |LAST_ROUNDS| && n <= |LAST_ROUNDS[i]|
    ensures CoordinatorChain(LAST_ROUNDS[i][..n])
  {
    var es := LAST_ROUNDS[i];
    forall j | 0 <= j < |es|
      ensures FaultOf(LastState(es[..j]), es[j]).None? && CoordinatorEdge(es[j])
    {
    }
    ChainPrefix(es, n);
  }

  /** Every word of the language is a chain the coordinator's edges can form. */
  lemma {:induction false} RoundsAreCoordinatorChains(es: seq<Edge>, k: nat)
    requires InRounds(es, k)
    ensures CoordinatorChain(es)
    decreases k
  {
    if k == 0 {
      var i :| 0 <= i < |LAST_ROUNDS| && es <= LAST_ROUNDS[i];
      LastRoundsAreChains(i, |es|);
      assert es == LAST_ROUNDS[i][..|es|];
    } else {
      var rest := es[4..];
      RoundsAreCoordinatorChains(rest, k - 1);
      assert es == ROUND + rest;
      forall i | 0 <= i < |es|
        ensures FaultOf(LastState(es[..i]), es[i]).None? && CoordinatorEdge(es[i])
      {
        if i < 4 {
          assert es[i] == ROUND[i];
          assert i > 0 ==> es[..i][i - 1] == ROUND[i - 1];
        } else {
          assert es[i] == rest[i - 4];
          assert FaultOf(LastState(rest[..i - 4]), rest[i - 4]).None?;
          assert es[..i][i - 1] == if i == 4 then ROUND[3] else rest[i - 5];
        }
      }
    }
  }

  /** The language, both ways. */
  lemma CoordinatorLanguage(es: seq<Edge>)
    ensures CoordinatorChain(es) <==> InRounds(es, RetryCount(es))
  {
    if CoordinatorChain(es) {
      CoordinatorChainInRounds(es);
    }
    if InRounds(es, RetryCount(es)) {
      RoundsAreCoordinatorChains(es, RetryCount(es));
    }
  }
}
