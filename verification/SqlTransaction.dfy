/** The relational store as it runs: a transaction that changes tables, rows and index
    entries in place. Every method is proved to compute its function on values. */
module SqlTransaction {
  import opened Basics
  import opened SqlExpression
  import opened SqlStore
  import opened SqlOperations
  import opened SqlExact

  class Transaction {
    var db: Db

    constructor ()
      ensures db == Db(map[], map[], map[]) && Integrity(db)
    {
      db := Db(map[], map[], map[]);
    }

    /** Looks for another row of the table with a value at a position. */
    method Taken(t: Table, i: nat, pk: Value, v: Value) returns (taken: bool)
      ensures taken == exists k :: k in db.rows && Takes(db, t, pk, i, v, k)
    {
      var left := set k | k in db.rows && k.0 == t.name;
      while left != {}
        invariant forall k :: k in left ==> k in db.rows && k.0 == t.name
        invariant forall k :: k in db.rows && k !in left ==> !Takes(db, t, pk, i, v, k)
        decreases left
      {
        var k :| k in left;
        var id := RowId(t, db.rows[k]);
        if i < |db.rows[k]| && Same(db.rows[k][i], v) && (id.None? || !Same(id.value, pk)) {
          assert Takes(db, t, pk, i, v, k);
          return true;
        }
        left := left - {k};
      }
      taken := false;
    }

    method ValidateValue(t: Table, pk: Value, c: Column, v: Value) returns (ok: bool)
      ensures ok == ValueValid(db, t, pk, c, v)
    {
      if !TypeFits(c, v) || !RefersOk(db, t, pk, c, v) {
        return false;
      }
      if c.unique && !c.primaryKey && v != Null {
        var i := NamedFrom(t.columns, c.name, 0);
        if i.None? {
          return false;
        }
        var taken := Taken(t, i.value, pk, v);
        return !taken;
      }
      ok := true;
    }

    method ValidateRow(t: Table, row: Row) returns (ok: bool)
      ensures ok == RowValid(db, t, row)
    {
      if |row| != |t.columns| || RowId(t, row).None? {
        return false;
      }
      for i := 0 to |row|
        invariant forall j :: 0 <= j < i ==> ValueValid(db, t, RowId(t, row).value, t.columns[j], row[j])
      {
        var valid := ValidateValue(t, RowId(t, row).value, t.columns[i], row[i]);
        if !valid {
          return false;
        }
      }
      ok := true;
    }

    method IndexSave(ik: IndexKey, ids: set<Value>)
      modifies this
      ensures db == SaveEntry(old(db), ik, ids)
    {
      if ids == {} {
        db := db.(indexes := db.indexes - {ik});
      } else {
        db := db.(indexes := db.indexes[ik := ids]);
      }
    }

    /** Adds a row. On error nothing is changed. */
    method Create(table: string, row: Row) returns (ok: bool)
      requires Shaped(db)
      modifies this
      ensures Shaped(db) && ok == CanCreate(old(db), table, row)
      ensures db == CreateRow(old(db), table, row).GetOr(old(db))
      ensures Integrity(old(db)) && Safe(old(db)) ==> Integrity(db)
    {
      if table !in db.tables {
        return false;
      }
      var t := db.tables[table];
      assert SchemaOk(db, table);
      var valid := ValidateRow(t, row);
      if !valid {
        return false;
      }
      var id := RowId(t, row).value;
      if (table, id) in db.rows {
        return false;
      }
      ghost var before := db;
      ReindexKeeps(before, t, None, Some(row), id, |t.columns|, ("", "", Null));
      AddToIndexes(t, row, id);
      db := db.(rows := db.rows[(table, id) := row]);
      assert db == PutRow(before, t, id, row);
      CreateShaped(before, table, row);
      if Integrity(before) && Safe(before) {
        CreateIntegrity(before, table, row);
      }
      ok := true;
    }

    method AddToIndexes(t: Table, row: Row, id: Value)
      requires |row| == |t.columns|
      modifies this
      ensures db == Reindex(old(db), t, None, Some(row), id, |t.columns|)
    {
      for i := 0 to |t.columns|
        invariant db == Reindex(old(db), t, None, Some(row), id, i)
      {
        var c := t.columns[i];
        if c.index {
          var ids := Entry(db, t.name, c.name, row[i]);
          IndexSave((t.name, c.name, row[i]), ids + {id});
        }
      }
    }

    method RemoveFromIndexes(t: Table, row: Row, id: Value)
      requires |row| == |t.columns|
      modifies this
      ensures db == Reindex(old(db), t, Some(row), None, id, |t.columns|)
    {
      for i := 0 to |t.columns|
        invariant db == Reindex(old(db), t, Some(row), None, id, i)
      {
        var c := t.columns[i];
        if c.index {
          var ids := Entry(db, t.name, c.name, row[i]);
          IndexSave((t.name, c.name, row[i]), ids - {id});
        }
      }
    }

    /** Moves a row's id, where indexed values are not equal, up to the first indexed column
        that the new row has no value for. */
    method MoveInIndexes(t: Table, was: Row, row: Row, id: Value) returns (ok: bool)
      requires |was| == |t.columns|
      modifies this
      ensures ok == !Missing(t, row)
      ensures db == Reindex(old(db), t, Some(was), Some(row), id, Min(|row|, |t.columns|))
    {
      for i := 0 to |t.columns|
        invariant db == Reindex(old(db), t, Some(was), Some(row), id, Min(i, |row|))
        invariant forall j :: |row| <= j < i ==> !t.columns[j].index
      {
        var c := t.columns[i];
        if c.index && i >= |row| {
          return false;
        }
        if c.index && !Same(was[i], row[i]) {
          var ids := Entry(db, t.name, c.name, was[i]);
          IndexSave((t.name, c.name, was[i]), ids - {id});
          ids := Entry(db, t.name, c.name, row[i]);
          IndexSave((t.name, c.name, row[i]), ids + {id});
        }
      }
      ok := true;
    }

    /** Looks for another row, of any table, that seems to refer to a row. */
    method Referenced(t: Table, id: Value) returns (found: bool)
      requires Shaped(db) && IsTable(db, t)
      ensures !found <==> CanDelete(db, t.name, id)
    {
      var left := db.rows.Keys;
      while left != {}
        invariant left <= db.rows.Keys
        invariant forall k, i :: k !in left ==> !Blocks(db, t.name, id, k, i)
        decreases left
      {
        var k :| k in left;
        assert RowOk(db, k);
        var cs, row := db.tables[k.0].columns, db.rows[k];
        for i := 0 to |cs|
          invariant forall j: nat :: j < i ==> !Blocks(db, t.name, id, k, j)
        {
          var own := RowId(t, row);
          if cs[i].references == Some(t.name) && Same(row[FirstOf(cs, i)], id)
             && (t.name != k.0 || own.None? || !Same(id, own.value)) {
            assert Blocks(db, t.name, id, k, i);
            return true;
          }
          assert !Blocks(db, t.name, id, k, i);
        }
        left := left - {k};
      }
      found := false;
    }

    /** Deletes a row, if it exists and no other row seems to refer to it. On error
        nothing is changed. */
    method Delete(table: string, id: Value) returns (ok: bool)
      requires Shaped(db)
      modifies this
      ensures Shaped(db) && ok == CanDelete(old(db), table, id)
      ensures db == DeleteRow(old(db), table, id).GetOr(old(db))
      ensures Integrity(old(db)) && Safe(old(db)) ==> Integrity(db)
    {
      if table !in db.tables {
        return false;
      }
      var t := db.tables[table];
      assert SchemaOk(db, table) && RowOk(db, (table, id));
      var found := Referenced(t, id);
      if found {
        return false;
      }
      ghost var before := db;
      ReindexKeeps(before, t, OldRow(before, (table, id)), None, id, |t.columns|, ("", "", Null));
      if (table, id) in db.rows {
        RemoveFromIndexes(t, db.rows[(table, id)], id);
      } else {
        NothingToRemove(db, t, id, |t.columns|);
      }
      db := db.(rows := db.rows - {(table, id)});
      assert db == DropRow(before, t, id);
      DeleteShaped(before, table, id);
      if Integrity(before) && Safe(before) {
        DeleteIntegrity(before, table, id);
      }
      ok := true;
    }

    /** Replaces a row. A changed primary key is a delete and a create; otherwise the
        indexes are moved before the row is validated. */
    method Update(table: string, id: Value, row: Row) returns (o: Outcome)
      requires Shaped(db)
      modifies this
      ensures Shaped(db) && (db, o) == UpdateRow(old(db), table, id, row)
      ensures o == Done ==>
                && table in db.tables && RowId(db.tables[table], row).Some? && db.tables == old(db).tables
                && db.rows == (old(db).rows - {(table, id)})[(table, StoredUnder(db.tables[table], id, row)) := row]
      ensures Integrity(old(db)) && Safe(old(db)) ==> (Integrity(db) <==> UpdateHarmless(old(db), table, id, row))
    {
      ghost var before := db;
      UpdateShaped(before, table, id, row);
      if UpdateRow(before, table, id, row).1 == Done {
        UpdateRows(before, table, id, row);
      }
      if Integrity(before) && Safe(before) {
        UpdateIntegrity(before, table, id, row);
      }
      if table !in db.tables || RowId(db.tables[table], row).None? {
        return Refused;
      }
      var t := db.tables[table];
      assert SchemaOk(db, table);
      if Same(id, RowId(t, row).value) {
        o := Replace(t, id, row);
      } else {
        var ok := Delete(table, id);
        if ok {
          ok := Create(table, row);
        }
        o := if ok then Done else Refused;
      }
    }

    /** Replaces a row under the same primary key. */
    method Replace(t: Table, id: Value, row: Row) returns (o: Outcome)
      requires Shaped(db) && IsTable(db, t) && SameKey(t, id, row)
      modifies this
      ensures (db, o) == ReplaceRow(old(db), t, id, row)
      ensures Integrity(old(db)) && NoNaNs(old(db), t, id) && o != Done ==>
                db.rows == old(db).rows && (Integrity(db) <==> NothingMoves(old(db), t, id, row))
    {
      ghost var before := db;
      assert SchemaOk(db, t.name) && RowOk(db, (t.name, id));
      if Integrity(before) && NoNaNs(before, t, id) && ReplaceRow(before, t, id, row).1 != Done {
        RefusedReplace(before, t, id, row);
      }
      if Indexed(t) {
        if (t.name, id) !in db.rows {
          return Panicked;
        }
        ReindexKeeps(before, t, OldRow(before, (t.name, id)), Some(row), id, Min(|row|, |t.columns|), ("", "", Null));
        var ok := MoveInIndexes(t, db.rows[(t.name, id)], row, id);
        if !ok {
          return Panicked;
        }
      }
      SameValid(before, db, t, row);
      var valid := ValidateRow(t, row);
      if !valid {
        return Refused;
      }
      db := db.(rows := db.rows[(t.name, id) := row]);
      o := Done;
    }

    /** Creates a table. On error nothing is changed. */
    method CreateTable(t: Table) returns (ok: bool)
      requires Shaped(db)
      modifies this
      ensures Shaped(db) && ok == WithTable(old(db), t).Some? && db == WithTable(old(db), t).GetOr(old(db))
      ensures Integrity(old(db)) ==> Integrity(db)
    {
      if t.name in db.tables || !TableValid(db, t) {
        return false;
      }
      ghost var before := db;
      if Integrity(before) {
        AddTableIntegrity(before, t, before.(tables := before.tables[t.name := t]));
      }
      AddTableShaped(before, t, before.(tables := before.tables[t.name := t]));
      db := db.(tables := db.tables[t.name := t]);
      ok := true;
    }

    /** Drops a table with all its rows and index entries, unless another table refers
        to it. The rows are deleted one by one in scan order, by the primary keys they have,
        so it fails if and only if another row that is still there refers to one of them;
        the rows before that are gone then. */
    method DeleteTable(name: string, order: seq<Value>) returns (ok: bool)
      requires Shaped(db) && IsOrder(db, name, order)
      modifies this
      ensures (db, ok) == WithoutTable(old(db), name, order)
      ensures ok <==> Droppable(old(db), name, order)
      ensures Integrity(old(db)) && Safe(old(db)) ==> Integrity(db)
    {
      ghost var before := db;
      DropTableIff(before, name, order);
      if Integrity(before) && Safe(before) {
        DropTableKeeps(before, name, order);
      }
      if name !in db.tables || Wanted(db, name) {
        return false;
      }
      OrderHasIds(db, name, order);
      ok := DeleteEach(name, Ids(db, name, order));
      if ok {
        db := db.(tables := db.tables - {name});
      }
    }

    /** Deletes rows one by one, until one is refused. */
    method DeleteEach(name: string, ids: seq<Value>) returns (ok: bool)
      requires Shaped(db)
      modifies this
      ensures Shaped(db) && (db, ok) == DeleteRows(old(db), name, ids)
    {
      var n := 0;
      assert ids[0..] == ids;
      while n < |ids|
        invariant n <= |ids| && Shaped(db)
        invariant DeleteRows(db, name, ids[n..]) == DeleteRows(old(db), name, ids)
      {
        assert ids[n..][0] == ids[n] && ids[n..][1..] == ids[n + 1..];
        ok := Delete(name, ids[n]);
        if !ok {
          return;
        }
        n := n + 1;
      }
      assert ids[n..] == [];
      ok := true;
    }
  }

  lemma {:induction false} NothingToRemove(db: Db, t: Table, id: Value, n: nat)
    requires n <= |t.columns|
    ensures Reindex(db, t, None, None, id, n) == db
  {
    if n > 0 {
      NothingToRemove(db, t, id, n - 1);
    }
  }
}
