/** What the relational store's operations do, as functions on its contents, and what
    each keeps, whether it goes through or not. */
module SqlOperations {
  import opened Basics
  import opened SqlExpression
  import opened SqlStore

  datatype Outcome = Done | Refused | Panicked

  ghost predicate CanCreate(db: Db, table: string, row: Row) {
    table in db.tables && RowValid(db, db.tables[table], row) && (table, RowId(db.tables[table], row).value) !in db.rows
  }

  /** Adds a row, or refuses. */
  ghost function CreateRow(db: Db, table: string, row: Row): Option<Db>
    requires Shaped(db)
  {
    if !CanCreate(db, table, row) then None
    else
      assert SchemaOk(db, table);
      Some(PutRow(db, db.tables[table], RowId(db.tables[table], row).value, row))
  }

  /** Another row seems to refer to a row: the program looks at the first column with
      the name of the referring one. */
  ghost predicate Blocks(db: Db, table: string, id: Value, k: RowKey, i: nat) {
    && HasRowAt(db, k, i) && db.tables[k.0].columns[i].references == Some(table)
    && Same(db.rows[k][FirstOf(db.tables[k.0].columns, i)], id)
    && (k.0 != table || (var own := RowId(db.tables[table], db.rows[k]); own.None? || !Same(id, own.value)))
  }

  ghost predicate CanDelete(db: Db, table: string, id: Value) {
    table in db.tables && forall k, i :: !Blocks(db, table, id, k, i)
  }

  /** Deletes a row if it exists, or refuses. */
  ghost function DeleteRow(db: Db, table: string, id: Value): Option<Db>
    requires Shaped(db)
  {
    if !CanDelete(db, table, id) then None
    else
      assert SchemaOk(db, table) && RowOk(db, (table, id));
      Some(DropRow(db, db.tables[table], id))
  }

  predicate Indexed(t: Table) {
    exists i :: 0 <= i < |t.columns| && t.columns[i].index
  }

  function Min(a: nat, b: nat): nat {
    if a <= b then a else b
  }

  /** An indexed column for which the row has no value. */
  predicate Missing(t: Table, row: Row) {
    exists i :: |row| <= i < |t.columns| && t.columns[i].index
  }

  /** A row has what the program takes for a given primary key. */
  predicate SameKey(t: Table, id: Value, row: Row) {
    RowId(t, row).Some? && Same(id, RowId(t, row).value)
  }

  /** Replaces a row under the same primary key. The index entries are moved before the
      row is validated. A row that is not there, or too short for an index, panics. */
  ghost function ReplaceRow(db: Db, t: Table, id: Value, row: Row): (Db, Outcome)
    requires Shaped(db) && IsTable(db, t) && SameKey(t, id, row)
  {
    assert SchemaOk(db, t.name) && RowOk(db, (t.name, id));
    if Indexed(t) && (t.name, id) !in db.rows then (db, Panicked)
    else
      var d :=
        if Indexed(t) then Reindex(db, t, OldRow(db, (t.name, id)), Some(row), id, Min(|row|, |t.columns|)) else db;
      if Missing(t, row) then (d, Panicked)
      else if !RowValid(db, t, row) then (d, Refused)
      else (d.(rows := db.rows[(t.name, id) := row]), Done)
  }

  /** Replaces a row. A changed primary key is a delete and a create. */
  ghost function UpdateRow(db: Db, table: string, id: Value, row: Row): (Db, Outcome)
    requires Shaped(db)
  {
    if table !in db.tables || RowId(db.tables[table], row).None? then (db, Refused)
    else
      assert SchemaOk(db, table);
      if SameKey(db.tables[table], id, row) then ReplaceRow(db, db.tables[table], id, row)
      else
        match DeleteRow(db, table, id)
        case None => (db, Refused)
        case Some(d) =>
          DeleteShaped(db, table, id);
          match CreateRow(d, table, row)
          case None => (d, Refused)
          case Some(d') => (d', Done)
  }

  ghost function WithTable(db: Db, t: Table): Option<Db> {
    if t.name in db.tables || !TableValid(db, t) then None else Some(db.(tables := db.tables[t.name := t]))
  }

  /** Another table refers to a table. */
  predicate Wanted(db: Db, name: string) {
    exists other, i :: && other in db.tables && other != name && 0 <= i < |db.tables[other].columns|
                       && db.tables[other].columns[i].references == Some(name)
  }

  /** The primary keys of a table, each once. */
  ghost predicate IsOrder(db: Db, name: string, order: seq<Value>) {
    && (forall i, j :: 0 <= i < j < |order| ==> order[i] != order[j])
    && forall id :: id in order <==> (name, id) in db.rows
  }

  /** The primary keys that the rows have, in that order. */
  function Ids(db: Db, name: string, order: seq<Value>): (ids: seq<Value>)
    requires name in db.tables
    requires forall id :: id in order ==> (name, id) in db.rows && RowId(db.tables[name], db.rows[(name, id)]).Some?
    ensures |ids| == |order|
    ensures forall i :: 0 <= i < |order| ==> RowId(db.tables[name], db.rows[(name, order[i])]) == Some(ids[i])
  {
    seq(|order|, i requires 0 <= i < |order| => RowId(db.tables[name], db.rows[(name, order[i])]).value)
  }

  /** Deletes rows one after another, until one is refused. */
  ghost function DeleteRows(db: Db, name: string, ids: seq<Value>): (Db, bool)
    requires Shaped(db)
    decreases |ids|
  {
    if ids == [] then (db, true)
    else
      match DeleteRow(db, name, ids[0])
      case None => (db, false)
      case Some(d) =>
        DeleteShaped(db, name, ids[0]);
        DeleteRows(d, name, ids[1..])
  }

  lemma OrderHasIds(db: Db, name: string, order: seq<Value>)
    requires Shaped(db) && IsOrder(db, name, order) && name in db.tables
    ensures forall id :: id in order ==> (name, id) in db.rows && RowId(db.tables[name], db.rows[(name, id)]).Some?
  {
    forall id | id in order ensures (name, id) in db.rows && RowId(db.tables[name], db.rows[(name, id)]).Some? {
      assert RowOk(db, (name, id));
    }
  }

  /** Drops a table: its rows in scan order, and then its schema. */
  ghost function WithoutTable(db: Db, name: string, order: seq<Value>): (Db, bool)
    requires Shaped(db) && IsOrder(db, name, order)
  {
    if name !in db.tables || Wanted(db, name) then (db, false)
    else
      OrderHasIds(db, name, order);
      var (d, ok) := DeleteRows(db, name, Ids(db, name, order));
      if ok then (d.(tables := d.tables - {name}), true) else (d, false)
  }

  // ---- What every operation keeps ----

  lemma CreateShaped(db: Db, table: string, row: Row)
    requires Shaped(db) && CreateRow(db, table, row).Some?
    ensures Shaped(CreateRow(db, table, row).value)
  {
    var t := db.tables[table];
    assert SchemaOk(db, table);
    PutShaped(db, t, RowId(t, row).value, row);
  }

  lemma PutShaped(db: Db, t: Table, id: Value, row: Row)
    requires Shaped(db) && IsTable(db, t) && RowValid(db, t, row) && (RowId(t, row) == Some(id) || SameKey(t, id, row))
    requires (t.name, id) in db.rows ==> |db.rows[(t.name, id)]| == |t.columns|
    ensures var db' := PutRow(db, t, id, row);
            Shaped(db') && db'.tables == db.tables && db'.rows == db.rows[(t.name, id) := row]
  {
    var db' := PutRow(db, t, id, row);
    ReindexKeeps(db, t, OldRow(db, (t.name, id)), Some(row), id, |t.columns|, ("", "", Null));
    forall i | 0 <= i < |row| ensures TypeFits(t.columns[i], row[i]) {
      assert ValueValid(db, t, RowId(t, row).value, t.columns[i], row[i]);
    }
    forall name ensures SchemaOk(db', name) { assert SchemaOk(db, name); }
    forall k ensures RowOk(db', k) { assert RowOk(db, k); }
  }

  lemma DeleteShaped(db: Db, table: string, id: Value)
    requires Shaped(db) && DeleteRow(db, table, id).Some?
    ensures var db' := DeleteRow(db, table, id).value;
            Shaped(db') && db'.tables == db.tables && db'.rows == db.rows - {(table, id)}
  {
    var t, db' := db.tables[table], DeleteRow(db, table, id).value;
    assert SchemaOk(db, table) && RowOk(db, (table, id));
    ReindexKeeps(db, t, OldRow(db, (table, id)), None, id, |t.columns|, ("", "", Null));
    forall name ensures SchemaOk(db', name) { assert SchemaOk(db, name); }
    forall k ensures RowOk(db', k) { assert RowOk(db, k); }
  }

  lemma CreateIntegrity(db: Db, table: string, row: Row)
    requires Integrity(db) && Safe(db) && CreateRow(db, table, row).Some?
    ensures var db' := CreateRow(db, table, row).value;
            Integrity(db') && db'.tables == db.tables
            && db'.rows == db.rows[(table, RowId(db.tables[table], row).value) := row]
  {
    var t := db.tables[table];
    assert SchemaOk(db, table);
    PutRowIntegrity(db, t, RowId(t, row).value, row, CreateRow(db, table, row).value);
  }

  /** Where schemas are safe, a reference to a row is found. */
  lemma ReferenceFound(db: Db, table: string, id: Value, k: RowKey, i: nat)
    requires Integrity(db) && Safe(db) && table in db.tables && HasRowAt(db, k, i)
    requires db.tables[k.0].columns[i].references == Some(table) && db.rows[k][i] == id
    ensures Same(db.rows[k][i], id) && (k.0 == table && k.1 != id ==> !Same(id, k.1))
    ensures k.0 in db.tables && RowId(db.tables[k.0], db.rows[k]) == Some(k.1)
  {
    var t, c := db.tables[table], db.tables[k.0].columns[i];
    assert SchemaOk(db, table) && SchemaOk(db, k.0) && RowOk(db, k) && KeyOk(db, k);
    assert TargetOk(db, c) && TypeFits(c, id) && SafeSchema(t);
    assert t.columns[KeyFrom(t.columns, 0).value].datatype_ != FloatType;
    SameTyped(c, id, id);
  }

  lemma DeleteIntegrity(db: Db, table: string, id: Value)
    requires Integrity(db) && Safe(db) && DeleteRow(db, table, id).Some?
    ensures var db' := DeleteRow(db, table, id).value;
            Integrity(db') && db'.tables == db.tables && db'.rows == db.rows - {(table, id)}
  {
    assert SchemaOk(db, table) && RowOk(db, (table, id));
    forall k, i: nat ensures Unreferenced(db, table, id, k, i) {
      assert !Blocks(db, table, id, k, i);
      if HasRowAt(db, k, i) && db.tables[k.0].columns[i].references == Some(table) && db.rows[k][i] == id {
        assert SafeSchema(db.tables[k.0]) && FirstOf(db.tables[k.0].columns, i) == i;
        ReferenceFound(db, table, id, k, i);
      }
    }
    DropRowIntegrity(db, db.tables[table], id, DeleteRow(db, table, id).value);
  }

  // ---- Replacing a row ----

  lemma {:induction false} NoIndexes(db: Db, t: Table, old_: Option<Row>, row: Row, id: Value, n: nat)
    requires n <= |t.columns| && n <= |row| && Reaches(old_, n)
    requires forall i :: 0 <= i < |t.columns| ==> !t.columns[i].index
    ensures Reindex(db, t, old_, Some(row), id, n) == db
  {
    if n > 0 {
      NoIndexes(db, t, old_, row, id, n - 1);
    }
  }

  /** A replacement goes through if and only if the row is valid and, in a table with an
      index, there. It then stores the row. */
  lemma ReplaceIsPut(db: Db, t: Table, id: Value, row: Row)
    requires Shaped(db) && IsTable(db, t) && SameKey(t, id, row)
    ensures ReplaceRow(db, t, id, row).1 == Done <==> RowValid(db, t, row) && (Indexed(t) ==> (t.name, id) in db.rows)
    ensures (t.name, id) in db.rows ==> |db.rows[(t.name, id)]| == |t.columns|
    ensures ReplaceRow(db, t, id, row).1 == Done ==> ReplaceRow(db, t, id, row).0 == PutRow(db, t, id, row)
  {
    assert RowOk(db, (t.name, id));
    if ReplaceRow(db, t, id, row).1 == Done && !Indexed(t) {
      NoIndexes(db, t, OldRow(db, (t.name, id)), row, id, |t.columns|);
    }
  }

  /** The values of the first n indexed columns are equal in both rows. */
  ghost predicate SameIndexed(t: Table, was: Row, row: Row, n: nat)
    requires n <= |t.columns| && n <= |was| && n <= |row|
  {
    forall i :: 0 <= i < n && t.columns[i].index ==> Same(was[i], row[i])
  }

  lemma {:induction false} ReindexSame(db: Db, t: Table, was: Row, row: Row, id: Value, n: nat)
    requires n <= |t.columns| && n <= |was| && n <= |row| && SameIndexed(t, was, row, n)
    ensures Reindex(db, t, Some(was), Some(row), id, n) == db
  {
    if n > 0 {
      ReindexSame(db, t, was, row, id, n - 1);
    }
  }

  /** The last indexed column that changed lost its entry. */
  lemma {:induction false} ReindexLoses(db: Db, t: Table, was: Row, row: Row, id: Value, n: nat) returns (i: nat)
    requires n <= |t.columns| && n <= |was| && n <= |row| && !SameIndexed(t, was, row, n)
    requires forall i :: 0 <= i < n && t.columns[i].index ==> !NotANumber(was[i])
    ensures i < n && t.columns[i].index && !Same(was[i], row[i])
    ensures id !in Entry(Reindex(db, t, Some(was), Some(row), id, n), t.name, t.columns[i].name, was[i])
  {
    var c, d := t.columns[n - 1], Reindex(db, t, Some(was), Some(row), id, n - 1);
    if c.index && !Same(was[n - 1], row[n - 1]) {
      i := n - 1;
      var d1 := RemoveFrom(d, t.name, c.name, was[i], id);
      SaveEntryMeans(d, (t.name, c.name, was[i]), Entry(d, t.name, c.name, was[i]) - {id}, t.name, c.name, was[i]);
      SaveEntryMeans(d1, (t.name, c.name, row[i]), Entry(d1, t.name, c.name, row[i]) + {id}, t.name, c.name, was[i]);
    } else {
      i := ReindexLoses(db, t, was, row, id, n - 1);
    }
  }

  /** No indexed value that the row has would change, or there is no row. */
  ghost predicate NothingMoves(db: Db, t: Table, id: Value, row: Row) {
    (t.name, id) in db.rows ==>
      forall i :: 0 <= i < |t.columns| && t.columns[i].index && i < |row| && i < |db.rows[(t.name, id)]| ==>
        Same(db.rows[(t.name, id)][i], row[i])
  }

  /** No indexed value of a stored row is a NaN. */
  ghost predicate NoNaNs(db: Db, t: Table, id: Value) {
    (t.name, id) in db.rows ==>
      forall i :: 0 <= i < |t.columns| && t.columns[i].index && i < |db.rows[(t.name, id)]| ==>
        !NotANumber(db.rows[(t.name, id)][i])
  }

  /** A replacement that does not go through leaves the rows, but keeps integrity if
      and only if no indexed value would have changed. */
  lemma RefusedReplace(db: Db, t: Table, id: Value, row: Row)
    requires Integrity(db) && IsTable(db, t) && SameKey(t, id, row) && ReplaceRow(db, t, id, row).1 != Done
    requires NoNaNs(db, t, id)
    ensures var db' := ReplaceRow(db, t, id, row).0;
            && db'.tables == db.tables && db'.rows == db.rows && Shaped(db')
            && (Integrity(db') <==> NothingMoves(db, t, id, row))
  {
    var db', n := ReplaceRow(db, t, id, row).0, Min(|row|, |t.columns|);
    assert SchemaOk(db, t.name) && RowOk(db, (t.name, id));
    if Indexed(t) && (t.name, id) in db.rows {
      var was := db.rows[(t.name, id)];
      ReindexKeeps(db, t, Some(was), Some(row), id, n, ("", "", Null));
      if SameIndexed(t, was, row, n) {
        ReindexSame(db, t, was, row, id, n);
      } else {
        var i := ReindexLoses(db, t, was, row, id, n);
        assert TypeFits(t.columns[i], was[i]);
        assert !IndexOk(db', t.name, i, was[i], id);
      }
    }
    SameShaped(db, db');
  }

  lemma SameShaped(db: Db, db': Db)
    requires Shaped(db) && db'.tables == db.tables && db'.rows == db.rows
    ensures Shaped(db')
  {
    forall name ensures SchemaOk(db', name) { assert SchemaOk(db, name); }
    forall k ensures RowOk(db', k) { assert RowOk(db, k); }
  }

  /** Validity does not depend on index entries. */
  lemma SameValid(db: Db, db': Db, t: Table, row: Row)
    requires db'.rows == db.rows && db'.tables == db.tables
    ensures RowValid(db', t, row) <==> RowValid(db, t, row)
  {
    forall pk, c, v ensures ValueValid(db', t, pk, c, v) <==> ValueValid(db, t, pk, c, v) {
    }
  }

  lemma UpdateShaped(db: Db, table: string, id: Value, row: Row)
    requires Shaped(db)
    ensures Shaped(UpdateRow(db, table, id, row).0) && UpdateRow(db, table, id, row).0.tables == db.tables
  {
    if table in db.tables && RowId(db.tables[table], row).Some? {
      var t := db.tables[table];
      assert SchemaOk(db, table) && RowOk(db, (table, id));
      if SameKey(t, id, row) {
        ReplaceIsPut(db, t, id, row);
        if ReplaceRow(db, t, id, row).1 == Done {
          PutShaped(db, t, id, row);
        } else {
          if Indexed(t) && (table, id) in db.rows {
            ReindexKeeps(db, t, Some(db.rows[(table, id)]), Some(row), id, Min(|row|, |t.columns|), ("", "", Null));
          }
          SameShaped(db, ReplaceRow(db, t, id, row).0);
        }
      } else if DeleteRow(db, table, id).Some? {
        DeleteShaped(db, table, id);
        var d := DeleteRow(db, table, id).value;
        if CreateRow(d, table, row).Some? {
          CreateShaped(d, table, row);
          ReindexKeeps(d, t, OldRow(d, (table, RowId(t, row).value)), Some(row), RowId(t, row).value, |t.columns|,
                       ("", "", Null));
        }
      }
    }
  }

  /** An update keeps integrity if and only if it changes the primary key, or is of a missing
      table; or the row is valid and, in a table with an index, there; or no indexed value
      would have changed. */
  ghost predicate UpdateHarmless(db: Db, table: string, id: Value, row: Row) {
    table in db.tables && SameKey(db.tables[table], id, row) ==>
      var t := db.tables[table];
      (RowValid(db, t, row) && (Indexed(t) ==> (table, id) in db.rows)) || NothingMoves(db, t, id, row)
  }

  lemma UpdateIntegrity(db: Db, table: string, id: Value, row: Row)
    requires Integrity(db) && Safe(db)
    ensures Integrity(UpdateRow(db, table, id, row).0) <==> UpdateHarmless(db, table, id, row)
  {
    if table in db.tables && RowId(db.tables[table], row).Some? {
      var t := db.tables[table];
      assert SchemaOk(db, table) && SafeSchema(t);
      if SameKey(t, id, row) {
        ReplaceIntegrity(db, t, id, row);
      } else if DeleteRow(db, table, id).Some? {
        DeleteIntegrity(db, table, id);
        var d := DeleteRow(db, table, id).value;
        if CreateRow(d, table, row).Some? {
          CreateIntegrity(d, table, row);
        }
      }
    }
  }

  lemma ReplaceIntegrity(db: Db, t: Table, id: Value, row: Row)
    requires Integrity(db) && Safe(db) && IsTable(db, t) && SameKey(t, id, row)
    ensures Integrity(ReplaceRow(db, t, id, row).0) <==>
              (RowValid(db, t, row) && (Indexed(t) ==> (t.name, id) in db.rows)) || NothingMoves(db, t, id, row)
  {
    assert SchemaOk(db, t.name) && SafeSchema(t) && RowOk(db, (t.name, id));
    ReplaceIsPut(db, t, id, row);
    if ReplaceRow(db, t, id, row).1 == Done {
      var k := KeyFrom(t.columns, 0).value;
      assert ValueValid(db, t, RowId(t, row).value, t.columns[k], row[k]);
      SafeKey(db, t, RowId(t, row).value, id);
      PutRowIntegrity(db, t, id, row, PutRow(db, t, id, row));
    } else {
      RefusedReplace(db, t, id, row);
    }
  }

  // ---- Dropping a table ----

  lemma {:induction false} DeleteRowsIntegrity(db: Db, name: string, ids: seq<Value>)
    requires Integrity(db) && Safe(db)
    ensures var (db', ok) := DeleteRows(db, name, ids);
            && Integrity(db') && db'.tables == db.tables
            && (ok ==> db'.rows == map k | k in db.rows && !(k.0 == name && k.1 in ids) :: db.rows[k])
    decreases |ids|
  {
    if ids == [] {
      assert db.rows == map k | k in db.rows && !(k.0 == name && k.1 in ids) :: db.rows[k];
    } else if DeleteRow(db, name, ids[0]).Some? {
      var d := DeleteRow(db, name, ids[0]).value;
      DeleteIntegrity(db, name, ids[0]);
      DeleteRowsIntegrity(d, name, ids[1..]);
      assert forall v :: v in ids <==> v == ids[0] || v in ids[1..];
    }
  }

  /** With integrity, every row is deleted by the key that it is stored under. */
  lemma KeyedIds(db: Db, name: string, order: seq<Value>)
    requires Integrity(db) && IsOrder(db, name, order) && name in db.tables
    ensures forall id :: id in order ==> (name, id) in db.rows && RowId(db.tables[name], db.rows[(name, id)]).Some?
    ensures Ids(db, name, order) == order
  {
    OrderHasIds(db, name, order);
    forall i | 0 <= i < |order| ensures Ids(db, name, order)[i] == order[i] {
      assert order[i] in order && KeyOk(db, (name, order[i]));
    }
  }

  /** Dropping a table keeps integrity, even when it stops halfway. Afterwards nothing
      of the table is left. */
  lemma DropTableKeeps(db: Db, name: string, order: seq<Value>)
    requires Integrity(db) && Safe(db) && IsOrder(db, name, order)
    ensures var (db', ok) := WithoutTable(db, name, order);
            && Integrity(db') && db'.tables == (if ok then db.tables - {name} else db.tables)
            && (ok ==> (forall k :: k in db'.rows <==> k in db.rows && k.0 != name)
                       && forall ik :: ik in db'.indexes ==> ik.0 != name)
  {
    if name in db.tables && !Wanted(db, name) {
      KeyedIds(db, name, order);
      var (d, ok) := DeleteRows(db, name, order);
      DeleteRowsIntegrity(db, name, order);
      if ok {
        forall k: RowKey | k in db.rows && k.0 == name ensures k.1 in order {
          assert k == (name, k.1);
        }
        var db' := d.(tables := d.tables - {name});
        DropTableIntegrity(d, name, db');
        forall ik | ik in db'.indexes ensures ik.0 != name {
          assert EntryOk(db', ik);
        }
      }
    }
  }

  /** A row of a table seems to refer to another id of the same table. */
  ghost predicate PointsTo(db: Db, name: string, from: Value, id: Value) {
    exists i: nat :: Blocks(db, name, id, (name, from), i)
  }

  /** The rows left when those of the first n ids are deleted. */
  ghost function Remaining(db: Db, name: string, ids: seq<Value>, n: nat): map<RowKey, Row>
    requires n <= |ids|
  {
    map k | k in db.rows && !(k.0 == name && k.1 in ids[..n]) :: db.rows[k]
  }

  lemma RemainingNext(db: Db, name: string, ids: seq<Value>, n: nat)
    requires n < |ids|
    ensures Remaining(db, name, ids, n + 1) == Remaining(db, name, ids, n) - {(name, ids[n])}
  {
    assert ids[..n + 1] == ids[..n] + [ids[n]];
  }

  /** No row that is still there when its turn comes points to the n-th id. */
  ghost predicate Unpointed(db: Db, name: string, ids: seq<Value>, n: nat)
    requires n < |ids|
  {
    forall from :: (name, from) in db.rows && from !in ids[..n] ==> !PointsTo(db, name, from, ids[n])
  }

  /** With the rows of the first n ids gone, the next one can be deleted if and only if no
      row that is left refers to it. */
  lemma ReferencedIff(was: Db, db: Db, name: string, ids: seq<Value>, n: nat)
    requires n < |ids| && name in was.tables && !Wanted(was, name) && Shaped(was)
    requires db.tables == was.tables && db.rows == Remaining(was, name, ids, n)
    ensures CanDelete(db, name, ids[n]) <==> Unpointed(was, name, ids, n)
  {
    if Unpointed(was, name, ids, n) {
      forall k: RowKey, i: nat ensures !Blocks(db, name, ids[n], k, i) {
        if Blocks(db, name, ids[n], k, i) {
          var from := BlockerPoints(was, db, name, ids, n, k, i);
          assert false;
        }
      }
    } else {
      var from :| (name, from) in was.rows && from !in ids[..n] && PointsTo(was, name, from, ids[n]);
      var i: nat :| Blocks(was, name, ids[n], (name, from), i);
      assert HasRowAt(db, (name, from), i);
      assert Blocks(db, name, ids[n], (name, from), i);
    }
  }

  lemma BlockerPoints(was: Db, db: Db, name: string, ids: seq<Value>, n: nat, k: RowKey, i: nat) returns (from: Value)
    requires n < |ids| && name in was.tables && !Wanted(was, name) && Shaped(was)
    requires db.tables == was.tables && db.rows == Remaining(was, name, ids, n) && Blocks(db, name, ids[n], k, i)
    ensures (name, from) in was.rows && from !in ids[..n] && PointsTo(was, name, from, ids[n])
  {
    assert HasRowAt(was, k, i) && k.0 == name;
    from := k.1;
    assert k == (name, from);
    assert Blocks(was, name, ids[n], (name, from), i);
  }

  /** Deleting the rest of the rows, from the n-th id on. */
  lemma {:induction false} DropsFrom(was: Db, db: Db, name: string, ids: seq<Value>, n: nat)
    requires Shaped(was) && n <= |ids| && name in was.tables && !Wanted(was, name)
    requires Shaped(db) && db.tables == was.tables && db.rows == Remaining(was, name, ids, n)
    ensures DeleteRows(db, name, ids[n..]).1 <==> forall i :: n <= i < |ids| ==> Unpointed(was, name, ids, i)
    decreases |ids| - n
  {
    if n < |ids| {
      ReferencedIff(was, db, name, ids, n);
      assert ids[n..][1..] == ids[n + 1..] && ids[n..][0] == ids[n];
      if CanDelete(db, name, ids[n]) {
        DeleteShaped(db, name, ids[n]);
        RemainingNext(was, name, ids, n);
        DropsFrom(was, DeleteRow(db, name, ids[n]).value, name, ids, n + 1);
      }
    }
  }

  /** A table can be dropped: no other table refers to it and, when the turn of a row comes,
      no other row that is still there. */
  ghost predicate Droppable(db: Db, name: string, order: seq<Value>)
    requires Shaped(db) && IsOrder(db, name, order)
  {
    && name in db.tables && !Wanted(db, name)
    && (OrderHasIds(db, name, order);
        forall n :: 0 <= n < |order| ==> Unpointed(db, name, Ids(db, name, order), n))
  }

  lemma DropTableIff(db: Db, name: string, order: seq<Value>)
    requires Shaped(db) && IsOrder(db, name, order)
    ensures WithoutTable(db, name, order).1 <==> Droppable(db, name, order)
  {
    if name in db.tables && !Wanted(db, name) {
      OrderHasIds(db, name, order);
      var ids := Ids(db, name, order);
      assert Remaining(db, name, ids, 0) == db.rows;
      DropsFrom(db, db, name, ids, 0);
      assert ids[0..] == ids;
    }
  }
}
