/** The fact supersession graph: each fact may point at the one it replaces. The guard walk of
    `prepareTransitionFact` (`inMemoryFact.ts`) and the chain read of `getFactSupersessionChain`
    (`inMemoryAggregations.ts`) follow these pointers. */
module Supersession {
  import opened Wrappers
  import opened CaseRecords

  /** Where the pointer of a fact leads, if the fact is on file and has one. */
  function Next(facts: map<string, Fact>, id: string): Option<string> {
    if id in facts then facts[id].supersedes_fact_id else None
  }

  /** The id reached after `n` pointers. */
  function Follow(facts: map<string, Fact>, start: string, n: nat): Option<string> {
    if n == 0 then Some(start)
    else
      var before := Follow(facts, start, n - 1);
      if before.None? then None else Next(facts, before.value)
  }

  lemma {:induction false} FollowOn(facts: map<string, Fact>, start: string, n: nat)
    requires n >= 1
    ensures Follow(facts, start, n) ==
      if Next(facts, start).None? then None else Follow(facts, Next(facts, start).value, n - 1)
  {
    if n > 1 {
      FollowOn(facts, start, n - 1);
    } else {
      assert Follow(facts, start, 0) == Some(start);
    }
  }

  // ----- The guard walk -----

  datatype WalkOutcome = Clear | WouldCycle | ExistingCycle | TooLong

  /** The walk from `cursor`, with the ids seen so far. */
  function WalkFrom(facts: map<string, Fact>, count: nat, fact_id: string, cursor: Option<string>, visited: set<string>):
    WalkOutcome
    decreases |facts.Keys - visited|
  {
    if cursor.None? then Clear
    else if cursor.value == fact_id then WouldCycle
    else if cursor.value in visited then ExistingCycle
    else
      var seen := visited + {cursor.value};
      if cursor.value !in facts then Clear
      else
        StepsDown(facts.Keys, visited, cursor.value);
        if |seen| > count + 1 then TooLong
        else WalkFrom(facts, count, fact_id, Next(facts, cursor.value), seen)
  }

  lemma StepsDown(keys: set<string>, visited: set<string>, id: string)
    requires id in keys && id !in visited
    ensures |keys - (visited + {id})| < |keys - visited|
  {
    assert keys - (visited + {id}) == (keys - visited) - {id};
    assert id in keys - visited;
  }

  /** The loop, on any graph whatsoever: it always ends. */
  method SupersessionWalk(facts: map<string, Fact>, count: nat, fact_id: string, target: string) returns (r: WalkOutcome)
    ensures r == WalkFrom(facts, count, fact_id, Some(target), {})
  {
    var visited: set<string> := {};
    var cursor: Option<string> := Some(target);
    while cursor.Some?
      invariant WalkFrom(facts, count, fact_id, Some(target), {}) == WalkFrom(facts, count, fact_id, cursor, visited)
      decreases |facts.Keys - visited|, cursor.Some?
    {
      var id := cursor.value;
      if id == fact_id {
        return WouldCycle;
      }
      if id in visited {
        return ExistingCycle;
      }
      if id !in facts {
        return Clear;
      }
      StepsDown(facts.Keys, visited, id);
      visited := visited + {id};
      cursor := facts[id].supersedes_fact_id;
      if |visited| > count + 1 {
        return TooLong;
      }
    }
    r := Clear;
  }

  /** The pointers from `start` reach `id`. */
  ghost predicate Reaches(facts: map<string, Fact>, start: string, id: string) {
    exists n: nat :: Follow(facts, start, n) == Some(id)
  }

  /** The pointers from `start` never end. */
  ghost predicate NeverEnds(facts: map<string, Fact>, start: string) {
    forall n: nat :: Follow(facts, start, n).Some?
  }

  lemma ReachesOn(facts: map<string, Fact>, start: string, id: string)
    requires start != id
    ensures Reaches(facts, start, id) <==> Next(facts, start).Some? && Reaches(facts, Next(facts, start).value, id)
  {
    if Reaches(facts, start, id) {
      var n: nat :| Follow(facts, start, n) == Some(id);
      assert n > 0;
      FollowOn(facts, start, n);
    }
    if Next(facts, start).Some? && Reaches(facts, Next(facts, start).value, id) {
      var n: nat :| Follow(facts, Next(facts, start).value, n) == Some(id);
      FollowOn(facts, start, n + 1);
    }
  }

  lemma NeverEndsOn(facts: map<string, Fact>, start: string)
    ensures NeverEnds(facts, start) <==> Next(facts, start).Some? && NeverEnds(facts, Next(facts, start).value)
  {
    var next := Next(facts, start);
    if NeverEnds(facts, start) {
      FollowOn(facts, start, 1);
      assert Follow(facts, start, 1).Some?;
      forall n: nat
        ensures Follow(facts, next.value, n).Some?
      {
        FollowOn(facts, start, n + 1);
        assert Follow(facts, start, n + 1).Some?;
      }
    }
    if next.Some? && NeverEnds(facts, next.value) {
      forall n: nat
        ensures Follow(facts, start, n).Some?
      {
        if n > 0 {
          FollowOn(facts, start, n);
        }
      }
    }
  }

  /** Everything seen is on file, is not the new fact, and points at something seen or at the cursor. */
  ghost predicate Closed(facts: map<string, Fact>, fact_id: string, cursor: string, visited: set<string>) {
    && visited <= facts.Keys && fact_id !in visited
    && forall v | v in visited :: Next(facts, v).Some? && Next(facts, v).value in visited + {cursor}
  }

  lemma {:induction false} StaysInside(facts: map<string, Fact>, fact_id: string, cursor: string, visited: set<string>, n: nat)
    requires Closed(facts, fact_id, cursor, visited) && cursor in visited
    ensures Follow(facts, cursor, n).Some? && Follow(facts, cursor, n).value in visited
  {
    if n > 0 {
      StaysInside(facts, fact_id, cursor, visited, n - 1);
    }
  }

  /** The walk rejects exactly when the pointers reach the new fact or go round for ever. Its length
      check never fires when the id set counts the facts. */
  lemma {:induction false} WalkDecides(facts: map<string, Fact>, fact_id: string, cursor: string, visited: set<string>)
    requires Closed(facts, fact_id, cursor, visited)
    ensures var r := WalkFrom(facts, |facts|, fact_id, Some(cursor), visited);
      && r != TooLong
      && (r == WouldCycle <==> Reaches(facts, cursor, fact_id))
      && (r == ExistingCycle <==> !Reaches(facts, cursor, fact_id) && NeverEnds(facts, cursor))
    decreases |facts.Keys - visited|
  {
    if cursor == fact_id {
      assert Follow(facts, cursor, 0) == Some(fact_id);
    } else if cursor in visited {
      forall n: nat
        ensures Follow(facts, cursor, n).Some? && Follow(facts, cursor, n) != Some(fact_id)
      {
        StaysInside(facts, fact_id, cursor, visited, n);
      }
    } else {
      ReachesOn(facts, cursor, fact_id);
      NeverEndsOn(facts, cursor);
      if cursor in facts {
        StepsDown(facts.Keys, visited, cursor);
        Within(visited + {cursor}, facts);
        if Next(facts, cursor).Some? {
          WalkDecides(facts, fact_id, Next(facts, cursor).value, visited + {cursor});
        }
      }
    }
  }

  lemma {:induction false} SubsetSize(a: set<string>, b: set<string>)
    requires a <= b
    ensures |a| <= |b|
    decreases |a|
  {
    if a != {} {
      var x :| x in a;
      SubsetSize(a - {x}, b - {x});
    }
  }

  lemma Within(ids: set<string>, facts: map<string, Fact>)
    requires ids <= facts.Keys
    ensures |ids| <= |facts|
  {
    SubsetSize(ids, facts.Keys);
    assert |facts.Keys| == |facts|;
  }

  // ----- Graphs without cycles -----

  /** No set of facts whose pointers all stay inside it. */
  ghost predicate Acyclic(facts: map<string, Fact>) {
    forall s: set<string> | s != {} && s <= facts.Keys ::
      exists id | id in s :: Next(facts, id).None? || Next(facts, id).value !in s
  }

  lemma ExitOf(facts: map<string, Fact>, s: set<string>) returns (x: string)
    requires Acyclic(facts) && s != {} && s <= facts.Keys
    ensures x in s && (Next(facts, x).None? || Next(facts, x).value !in s)
  {
    x :| x in s && (Next(facts, x).None? || Next(facts, x).value !in s);
  }

  /** The pointers of some facts never leave them: impossible without a cycle. */
  ghost predicate Trapped(facts: map<string, Fact>, s: set<string>) {
    s != {} && s <= facts.Keys && forall x | x in s :: Next(facts, x).Some? && Next(facts, x).value in s
  }

  lemma NothingTrapped(facts: map<string, Fact>, s: set<string>)
    requires Acyclic(facts)
    ensures !Trapped(facts, s)
  {
    if Trapped(facts, s) {
      var x := ExitOf(facts, s);
    }
  }

  /** Pointing a fact that nobody points at to another fact makes no cycle. */
  lemma NewEdgeKeepsAcyclic(facts: map<string, Fact>, id: string, next: Fact)
    requires Acyclic(facts)
    requires forall other | other in facts :: Next(facts, other) != Some(id)
    requires next.supersedes_fact_id != Some(id)
    ensures Acyclic(facts[id := next])
  {
    var after := facts[id := next];
    forall s: set<string> | s != {} && s <= after.Keys
      ensures exists x | x in s :: Next(after, x).None? || Next(after, x).value !in s
    {
      var rest := s - {id};
      if rest == {} {
        assert s == {id};
        assert id in s;
      } else {
        var x := ExitOf(facts, rest);
        assert x in s && Next(after, x) == Next(facts, x);
      }
    }
  }

  /** In such a graph the guard lets every fact through that nobody points at. */
  lemma {:induction false} NoCycleToFollow(facts: map<string, Fact>, fact_id: string, cursor: string, visited: set<string>)
    requires Acyclic(facts) && Closed(facts, fact_id, cursor, visited) && cursor != fact_id
    requires forall other | other in facts :: Next(facts, other) != Some(fact_id)
    ensures WalkFrom(facts, |facts|, fact_id, Some(cursor), visited) == Clear
    decreases |facts.Keys - visited|
  {
    if cursor in visited {
      NothingTrapped(facts, visited);
    } else if cursor in facts {
      StepsDown(facts.Keys, visited, cursor);
      Within(visited + {cursor}, facts);
      if Next(facts, cursor).Some? {
        NoCycleToFollow(facts, fact_id, Next(facts, cursor).value, visited + {cursor});
      }
    }
  }

  // ----- Reading a chain -----

  /** Every pointer leads to a fact on file, of the same matter and tenant. */
  ghost predicate EdgesAtHome(facts: map<string, Fact>) {
    forall id | id in facts && facts[id].supersedes_fact_id.Some? ::
      var target := facts[id].supersedes_fact_id.value;
      && target in facts
      && facts[target].matter_id == facts[id].matter_id && facts[target].tenant_id == facts[id].tenant_id
  }

  ghost predicate Keyed(facts: map<string, Fact>) {
    forall id | id in facts :: facts[id].id == id
  }

  /** Each fact points at the next. */
  predicate Linked(chain: seq<Fact>) {
    forall i | 0 < i < |chain| :: chain[i - 1].supersedes_fact_id == Some(chain[i].id)
  }

  function Ids(chain: seq<Fact>): set<string> {
    set f | f in chain :: f.id
  }

  /** All of the chain, in one matter and tenant, on file. */
  ghost predicate OnFile(facts: map<string, Fact>, chain: seq<Fact>, matter_id: string, tenant_id: string) {
    forall f | f in chain :: f.id in facts && facts[f.id] == f && f.matter_id == matter_id && f.tenant_id == tenant_id
  }

  lemma ChainHasNoReturn(facts: map<string, Fact>, chain: seq<Fact>, k: nat)
    requires Acyclic(facts) && Linked(chain) && k < |chain|
    requires forall f | f in chain :: f.id in facts && facts[f.id] == f
    ensures chain[|chain| - 1].supersedes_fact_id != Some(chain[k].id)
  {
    var s := Ids(chain[k..]);
    NothingTrapped(facts, s);
    if chain[|chain| - 1].supersedes_fact_id == Some(chain[k].id) {
      assert chain[k] in chain[k..];
      assert chain[k].id in s;
      forall x | x in s
        ensures x in facts && Next(facts, x).Some? && Next(facts, x).value in s
      {
        var f :| f in chain[k..] && f.id == x;
        var i :| 0 <= i < |chain[k..]| && chain[k..][i] == f;
        assert chain[k + i] == f && f in chain;
        if k + i + 1 < |chain| {
          assert chain[k + i + 1] == chain[k..][i + 1];
          assert chain[k..][i + 1] in chain[k..];
        }
      }
    }
  }

  /** The loop of `getFactSupersessionChain` after its scope checks. In a graph that keeps the rules it
      returns the whole chain: every pointer followed to the end, no guard cutting it short. */
  method CollectChain(facts: map<string, Fact>, ids: set<string>, start: Fact, matter_id: string, tenant_id: string)
    returns (chain: seq<Fact>)
    requires start.id in facts && facts[start.id] == start && start.matter_id == matter_id && start.tenant_id == tenant_id
    ensures chain != [] && chain[0] == start
    ensures Keyed(facts) ==> Linked(chain) && OnFile(facts, chain, matter_id, tenant_id)
    ensures Keyed(facts) && Acyclic(facts) && EdgesAtHome(facts) && ids == facts.Keys ==>
      chain[|chain| - 1].supersedes_fact_id.None?
  {
    chain := [start];
    var cursor := start.supersedes_fact_id;
    var visited := {start.id};
    var max_steps := |ids| + 1;
    var steps := 0;
    ghost var sound := Keyed(facts) && Acyclic(facts) && EdgesAtHome(facts) && ids == facts.Keys;
    while cursor.Some? && steps < max_steps
      invariant chain != [] && chain[0] == start && steps == |chain| - 1
      invariant cursor == chain[|chain| - 1].supersedes_fact_id
      invariant Keyed(facts) ==> Linked(chain) && OnFile(facts, chain, matter_id, tenant_id) && visited == Ids(chain)
      invariant Keyed(facts) ==> |visited| == |chain|
      decreases max_steps - steps
    {
      if cursor.value in visited {
        if sound {
          var k := PositionOf(chain, cursor.value);
          ChainHasNoReturn(facts, chain, k);
        }
        break;
      }
      ghost var last := chain[|chain| - 1];
      assert last in chain;
      assert sound ==> facts[last.id] == last && cursor.value in facts;
      if cursor.value !in facts {
        break;
      }
      var next := facts[cursor.value];
      if next.matter_id != matter_id || next.tenant_id != tenant_id {
        break;
      }
      visited := visited + {cursor.value};
      chain := chain + [next];
      cursor := next.supersedes_fact_id;
      steps := steps + 1;
    }
    if sound && cursor.Some? && steps >= max_steps {
      assert visited <= facts.Keys;
      Within(visited, facts);
    }
  }

  lemma PositionOf(chain: seq<Fact>, id: string) returns (k: nat)
    requires id in Ids(chain)
    ensures k < |chain| && chain[k].id == id
  {
    var f :| f in chain && f.id == id;
    k :| 0 <= k < |chain| && chain[k] == f;
  }
}
