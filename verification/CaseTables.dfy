/** The redundant indexes behind every kind of record in a case box (`FactState`, `DocketState`,
    `DeadlineState`, `PrivilegeState` in `services/case-box-persistence/src`): an array a matter, a set
    of ids, and an index from id to matter. */
module CaseTables {
  import opened Wrappers

  /** Where a record says it belongs. */
  datatype Place = Place(id: string, matter_id: string)

  datatype Index<R> = Index(by_matter: map<string, seq<R>>, ids: set<string>, home: map<string, string>)

  function Rows<R>(t: Index<R>, matter_id: string): seq<R> {
    if matter_id in t.by_matter then t.by_matter[matter_id] else []
  }

  function FindRow<R>(place: R -> Place, rows: seq<R>, id: string): Option<R> {
    if rows == [] then None
    else if place(rows[0]).id == id then Some(rows[0])
    else FindRow(place, rows[1..], id)
  }

  /** The row of an id, by way of its matter. */
  function RowAt<R>(place: R -> Place, t: Index<R>, id: string): Option<R> {
    if id in t.home then FindRow(place, Rows(t, t.home[id]), id) else None
  }

  predicate DistinctIds<R>(place: R -> Place, rows: seq<R>) {
    forall i, j | 0 <= i < j < |rows| :: place(rows[i]).id != place(rows[j]).id
  }

  /** One matter's array: its own rows only, each once, each on file. */
  ghost predicate ArrayOk<R>(place: R -> Place, t: Index<R>, m: string) {
    && DistinctIds(place, Rows(t, m))
    && forall r | r in Rows(t, m) ::
      place(r).matter_id == m && place(r).id in t.home && t.home[place(r).id] == m
  }

  /** The indexes agree: the id set and the home index name the same ids, and the arrays hold exactly
      the rows they name. */
  ghost predicate IndexOk<R(!new)>(place: R -> Place, t: Index<R>) {
    && t.ids == t.home.Keys
    && (forall m: string :: ArrayOk(place, t, m))
    && (forall id | id in t.home :: RowAt(place, t, id).Some?)
  }

  /** A map from id to row agrees with the indexes. */
  ghost predicate ByIdOk<R(!new)>(place: R -> Place, t: Index<R>, by_id: map<string, R>) {
    forall id: string :: RowAt(place, t, id) == if id in by_id then Some(by_id[id]) else None
  }

  // ----- Inserting and replacing -----

  function Inserted<R>(place: R -> Place, t: Index<R>, row: R): Index<R> {
    var (id, m) := (place(row).id, place(row).matter_id);
    Index(t.by_matter[m := Rows(t, m) + [row]], t.ids + {id}, t.home[id := m])
  }

  /** `arr[arr.findIndex(...)] = next`. */
  function WithRow<R>(place: R -> Place, rows: seq<R>, next: R): (r: seq<R>)
    ensures |r| == |rows|
  {
    if rows == [] then []
    else if place(rows[0]).id == place(next).id then [next] + rows[1..]
    else [rows[0]] + WithRow(place, rows[1..], next)
  }

  function Replaced<R>(place: R -> Place, t: Index<R>, next: R): Index<R> {
    var m := place(next).matter_id;
    t.(by_matter := t.by_matter[m := WithRow(place, Rows(t, m), next)])
  }

  /** Replaces the row of an id on file, inserts the row of a new one. */
  function Kept<R>(place: R -> Place, t: Index<R>, row: R): Index<R> {
    if place(row).id in t.home then Replaced(place, t, row) else Inserted(place, t, row)
  }

  // ----- Facts about rows -----

  lemma {:induction false} FindRowFinds<R(!new)>(place: R -> Place, rows: seq<R>, id: string)
    ensures FindRow(place, rows, id).None? <==> forall r | r in rows :: place(r).id != id
    ensures FindRow(place, rows, id).Some? ==>
      FindRow(place, rows, id).value in rows && place(FindRow(place, rows, id).value).id == id
  {
    if rows != [] {
      FindRowFinds(place, rows[1..], id);
    }
  }

  lemma {:induction false} FindRowUnique<R(!new)>(place: R -> Place, rows: seq<R>, r: R)
    requires DistinctIds(place, rows) && r in rows
    ensures FindRow(place, rows, place(r).id) == Some(r)
  {
    if r != rows[0] {
      assert r in rows[1..];
      var j :| 0 <= j < |rows[1..]| && rows[1..][j] == r;
      assert rows[j + 1] == r;
      FindRowUnique(place, rows[1..], r);
    }
  }

  lemma {:induction false} FindRowSnoc<R(!new)>(place: R -> Place, rows: seq<R>, row: R, id: string)
    ensures FindRow(place, rows + [row], id) ==
      if FindRow(place, rows, id).Some? then FindRow(place, rows, id)
      else if place(row).id == id then Some(row) else None
  {
    if rows != [] {
      assert (rows + [row])[1..] == rows[1..] + [row];
      FindRowSnoc(place, rows[1..], row, id);
    } else {
      assert (rows + [row])[1..] == [];
    }
  }

  lemma {:induction false} WithRowFinds<R(!new)>(place: R -> Place, rows: seq<R>, next: R, id: string)
    ensures FindRow(place, WithRow(place, rows, next), id) ==
      if id == place(next).id && FindRow(place, rows, id).Some? then Some(next) else FindRow(place, rows, id)
  {
    if rows != [] {
      WithRowFinds(place, rows[1..], next, id);
      var r := WithRow(place, rows, next);
      assert r[1..] == if place(rows[0]).id == place(next).id then rows[1..] else WithRow(place, rows[1..], next);
    }
  }

  lemma {:induction false} WithRowAt<R(!new)>(place: R -> Place, rows: seq<R>, next: R)
    requires DistinctIds(place, rows)
    ensures forall i | 0 <= i < |rows| ::
      WithRow(place, rows, next)[i] == if place(rows[i]).id == place(next).id then next else rows[i]
  {
    if rows != [] && place(rows[0]).id != place(next).id {
      WithRowAt(place, rows[1..], next);
    }
  }

  // ----- What a write does to the table -----

  lemma InsertedArray<R(!new)>(place: R -> Place, t: Index<R>, row: R, m: string)
    requires ArrayOk(place, t, m) && place(row).id !in t.home
    ensures ArrayOk(place, Inserted(place, t, row), m)
  {
    var s := Inserted(place, t, row);
    if m == place(row).matter_id {
      assert Rows(s, m) == Rows(t, m) + [row];
    } else {
      assert Rows(s, m) == Rows(t, m);
    }
  }

  lemma InsertedRow<R(!new)>(place: R -> Place, t: Index<R>, row: R, id: string)
    requires IndexOk(place, t) && place(row).id !in t.home
    ensures RowAt(place, Inserted(place, t, row), id) == if id == place(row).id then Some(row) else RowAt(place, t, id)
  {
    var m := place(row).matter_id;
    assert ArrayOk(place, t, m);
    FindRowSnoc(place, Rows(t, m), row, id);
    FindRowFinds(place, Rows(t, m), place(row).id);
  }

  lemma InsertKeepsIndex<R(!new)>(place: R -> Place, t: Index<R>, row: R)
    requires IndexOk(place, t) && place(row).id !in t.home
    ensures IndexOk(place, Inserted(place, t, row))
    ensures forall id: string ::
      RowAt(place, Inserted(place, t, row), id) == if id == place(row).id then Some(row) else RowAt(place, t, id)
  {
    var s := Inserted(place, t, row);
    forall m: string
      ensures ArrayOk(place, s, m)
    {
      InsertedArray(place, t, row, m);
    }
    forall id: string
      ensures RowAt(place, s, id) == if id == place(row).id then Some(row) else RowAt(place, t, id)
    {
      InsertedRow(place, t, row, id);
    }
  }

  /** A found row is where the index says, and says so itself. */
  lemma RowIsPlaced<R(!new)>(place: R -> Place, t: Index<R>, id: string)
    requires IndexOk(place, t) && RowAt(place, t, id).Some?
    ensures var r := RowAt(place, t, id).value;
      place(r) == Place(id, t.home[id]) && r in Rows(t, t.home[id])
  {
    var m := t.home[id];
    assert ArrayOk(place, t, m);
    FindRowFinds(place, Rows(t, m), id);
  }

  /** Every row of an array is found by its id. */
  lemma RowIsFound<R(!new)>(place: R -> Place, t: Index<R>, m: string, r: R)
    requires IndexOk(place, t) && r in Rows(t, m)
    ensures RowAt(place, t, place(r).id) == Some(r) && place(r).matter_id == m
  {
    assert ArrayOk(place, t, m);
    FindRowUnique(place, Rows(t, m), r);
  }

  lemma ReplacedArray<R(!new)>(place: R -> Place, t: Index<R>, next: R, m: string)
    requires ArrayOk(place, t, m) && place(next).id in t.home && t.home[place(next).id] == place(next).matter_id
    ensures ArrayOk(place, Replaced(place, t, next), m)
  {
    var s := Replaced(place, t, next);
    if m == place(next).matter_id {
      WithRowAt(place, Rows(t, m), next);
      forall r | r in Rows(s, m)
        ensures place(r).matter_id == m && place(r).id in s.home && s.home[place(r).id] == m
      {
        var i :| 0 <= i < |Rows(s, m)| && Rows(s, m)[i] == r;
        assert Rows(t, m)[i] in Rows(t, m);
      }
    } else {
      assert Rows(s, m) == Rows(t, m);
    }
  }

  lemma ReplacedRow<R(!new)>(place: R -> Place, t: Index<R>, next: R, id: string)
    requires IndexOk(place, t) && place(next).id in t.home && t.home[place(next).id] == place(next).matter_id
    ensures RowAt(place, Replaced(place, t, next), id) == if id == place(next).id then Some(next) else RowAt(place, t, id)
  {
    WithRowFinds(place, Rows(t, place(next).matter_id), next, id);
    assert RowAt(place, t, place(next).id).Some?;
  }

  lemma ReplaceKeepsIndex<R(!new)>(place: R -> Place, t: Index<R>, next: R)
    requires IndexOk(place, t) && place(next).id in t.home && t.home[place(next).id] == place(next).matter_id
    ensures IndexOk(place, Replaced(place, t, next))
    ensures forall id: string ::
      RowAt(place, Replaced(place, t, next), id) == if id == place(next).id then Some(next) else RowAt(place, t, id)
  {
    var s := Replaced(place, t, next);
    forall m: string
      ensures ArrayOk(place, s, m)
    {
      ReplacedArray(place, t, next, m);
    }
    forall id: string
      ensures RowAt(place, s, id) == if id == place(next).id then Some(next) else RowAt(place, t, id)
    {
      ReplacedRow(place, t, next, id);
    }
  }
}
