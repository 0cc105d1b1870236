/** When the relational store's operations go through: they do if and only if the rows and
    tables that they would leave satisfy all constraints. And what rows they leave. */
module SqlExact {
  import opened Basics
  import opened SqlExpression
  import opened SqlStore
  import opened SqlOperations

  /** The store with other rows. */
  ghost function WithRows(db: Db, rows: map<RowKey, Row>): Db {
    db.(rows := rows)
  }

  ghost function Without(db: Db, k: RowKey): Db {
    WithRows(db, db.rows - {k})
  }

  ghost function With(db: Db, k: RowKey, row: Row): Db {
    WithRows(db, db.rows[k := row])
  }

  // ---- What rows are left ----

  lemma CreateRows(db: Db, table: string, row: Row)
    requires Shaped(db) && CreateRow(db, table, row).Some?
    ensures var db' := CreateRow(db, table, row).value;
            && Shaped(db') && db'.tables == db.tables
            && db'.rows == db.rows[(table, RowId(db.tables[table], row).value) := row]
  {
    assert SchemaOk(db, table);
    PutShaped(db, db.tables[table], RowId(db.tables[table], row).value, row);
  }

  /** A replacement that does not go through leaves the rows, and it panics if and only if
      the table has an index and the row is not there or is too short for it. */
  lemma ReplaceFails(db: Db, t: Table, id: Value, row: Row)
    requires Shaped(db) && IsTable(db, t) && SameKey(t, id, row)
    ensures ReplaceRow(db, t, id, row).1 != Done ==>
              ReplaceRow(db, t, id, row).0.tables == db.tables && ReplaceRow(db, t, id, row).0.rows == db.rows
    ensures ReplaceRow(db, t, id, row).1 == Panicked <==>
              Indexed(t) && ((t.name, id) !in db.rows || Missing(t, row))
  {
    assert SchemaOk(db, t.name) && RowOk(db, (t.name, id));
    if Indexed(t) && (t.name, id) in db.rows {
      ReindexKeeps(db, t, OldRow(db, (t.name, id)), Some(row), id, Min(|row|, |t.columns|), ("", "", Null));
    }
  }

  /** The key under which an update stores its row: the given one, if the row has what the
      program takes for the same key. */
  function StoredUnder(t: Table, id: Value, row: Row): Value
    requires RowId(t, row).Some?
  {
    if SameKey(t, id, row) then id else RowId(t, row).value
  }

  /** An update that goes through leaves the other rows as they are, and instead of the row
      under the given key the new one under its own. */
  lemma UpdateRows(db: Db, table: string, id: Value, row: Row)
    requires Shaped(db) && UpdateRow(db, table, id, row).1 == Done
    ensures table in db.tables && RowId(db.tables[table], row).Some?
    ensures var db' := UpdateRow(db, table, id, row).0;
            && db'.tables == db.tables
            && db'.rows == (db.rows - {(table, id)})[(table, StoredUnder(db.tables[table], id, row)) := row]
  {
    var t := db.tables[table];
    assert SchemaOk(db, table) && RowOk(db, (table, id));
    if SameKey(t, id, row) {
      ReplaceIsPut(db, t, id, row);
      PutShaped(db, t, id, row);
      assert db.rows[(table, id) := row] == (db.rows - {(table, id)})[(table, id) := row];
    } else {
      DeleteShaped(db, table, id);
      CreateRows(DeleteRow(db, table, id).value, table, row);
    }
  }

  /** An update to another key goes through if and only if no other row refers to the old
      one, the row is valid in the store without it, and its key is free there. If the row
      is refused only then, the old one is gone. */
  lemma UpdateKeyIff(db: Db, table: string, id: Value, row: Row)
    requires Shaped(db) && table in db.tables && RowId(db.tables[table], row).Some?
    requires !SameKey(db.tables[table], id, row)
    ensures var t, (db', o), rest := db.tables[table], UpdateRow(db, table, id, row), Without(db, (table, id));
            && (o == Done <==> CanDelete(db, table, id) && RowValid(rest, t, row)
                               && (table, RowId(t, row).value) !in rest.rows)
            && (o != Done ==> o == Refused && db'.tables == db.tables
                              && db'.rows == if CanDelete(db, table, id) then rest.rows else db.rows)
  {
    var t, rest := db.tables[table], Without(db, (table, id));
    assert SchemaOk(db, table);
    if CanDelete(db, table, id) {
      DeleteShaped(db, table, id);
      SameValid(rest, DeleteRow(db, table, id).value, t, row);
    }
  }

  // ---- When they go through ----

  lemma FitsIff(db: Db, t: Table, key: RowKey, row: Row)
    requires Constrained(With(db, key, row)) && IsTable(db, t) && key.0 == t.name
    ensures FitsTable(t, row) && RowId(t, row) == Some(key.1)
  {
    assert RowOk(With(db, key, row), key) && KeyOk(With(db, key, row), key);
  }

  /** A value of a row in a store with constraints is valid. */
  lemma ConstrainedValue(db: Db, t: Table, id: Value, row: Row, i: nat)
    requires Shaped(db) && IsTable(db, t) && SafeSchema(t) && Constrained(With(db, (t.name, id), row))
    requires FitsTable(t, row) && RowId(t, row) == Some(id) && i < |row|
    ensures ValueValid(db, t, id, t.columns[i], row[i])
  {
    var db', key, c := With(db, (t.name, id), row), (t.name, id), t.columns[i];
    assert SchemaOk(db, t.name) && TypeFits(c, row[i]);
    var k := KeyFrom(t.columns, 0).value;
    assert TypeFits(t.columns[k], row[k]);
    SafeKey(db, t, id, row[i]);
    assert RefersOk(db, t, id, c, row[i]) by {
      assert ReferenceOk(db', key, i) && HasRowAt(db', key, i);
    }
    if c.unique && !c.primaryKey && row[i] != Null {
      assert FirstOf(t.columns, i) == i;
      forall x | x in db.rows ensures !Takes(db, t, id, i, row[i], x) {
        SafeKey(db, t, id, id);
        assert RowOk(db, x) && UniqueOk(db', x, key, i);
      }
    }
  }

  /** Where schemas are safe, a row is valid if and only if storing it under its key keeps
      the constraints. */
  lemma RowValidIff(db: Db, t: Table, id: Value, row: Row)
    requires Constrained(db) && Safe(db) && IsTable(db, t) && RowId(t, row) == Some(id)
    ensures RowValid(db, t, row) <==> Constrained(With(db, (t.name, id), row))
  {
    assert SafeSchema(t) && SchemaOk(db, t.name);
    if Constrained(With(db, (t.name, id), row)) {
      FitsIff(db, t, (t.name, id), row);
      forall i | 0 <= i < |row| ensures ValueValid(db, t, id, t.columns[i], row[i]) {
        ConstrainedValue(db, t, id, row, i);
      }
    }
    if RowValid(db, t, row) {
      ValidConstrained(db, t, id, row);
    }
  }

  lemma ValidConstrained(db: Db, t: Table, id: Value, row: Row)
    requires Constrained(db) && IsTable(db, t) && SafeSchema(t) && RowId(t, row) == Some(id) && RowValid(db, t, row)
    ensures Constrained(With(db, (t.name, id), row))
  {
    var key, db' := (t.name, id), With(db, (t.name, id), row);
    forall i | 0 <= i < |row| ensures TypeFits(t.columns[i], row[i]) && Refers(db, t, id, t.columns[i], row[i]) {
      ValidRefers(db, t, id, row, i);
    }
    forall name ensures SchemaOk(db', name) { assert SchemaOk(db, name); }
    forall k ensures RowOk(db', k) && KeyOk(db', k) { assert RowOk(db, k) && KeyOk(db, k); }
    forall k, i: nat ensures ReferenceOk(db', k, i) {
      assert ReferenceOk(db, k, i);
      if k == key && i < |row| {
        assert Refers(db, t, id, t.columns[i], row[i]);
      }
    }
    forall k, k', i: nat ensures UniqueOk(db', k, k', i) {
      assert UniqueOk(db, k, k', i) && KeyOk(db, k) && KeyOk(db, k');
      if k' != key { ValidHasNoTwin(db, t, id, row, k', i); }
      if k != key { ValidHasNoTwin(db, t, id, row, k, i); }
    }
  }

  /** A row can be created if and only if its table is there, its key is free, and the store
      with the row satisfies the constraints. */
  lemma CreateIff(db: Db, table: string, row: Row)
    requires Constrained(db) && Safe(db)
    ensures CanCreate(db, table, row) <==>
              && table in db.tables && RowId(db.tables[table], row).Some?
              && (table, RowId(db.tables[table], row).value) !in db.rows
              && Constrained(With(db, (table, RowId(db.tables[table], row).value), row))
  {
    assert SchemaOk(db, table);
    if table in db.tables && RowId(db.tables[table], row).Some? {
      RowValidIff(db, db.tables[table], RowId(db.tables[table], row).value, row);
    }
  }

  /** A reference that would be left dangling stands in the way, and nothing else does. */
  lemma BlocksIff(db: Db, table: string, id: Value, k: RowKey, i: nat)
    requires Constrained(db) && Safe(db) && table in db.tables && id != Null
    ensures Blocks(db, table, id, k, i) <==>
              && HasRowAt(db, k, i) && db.tables[k.0].columns[i].references == Some(table)
              && db.rows[k][i] == id && k != (table, id)
  {
    if HasRowAt(db, k, i) && db.tables[k.0].columns[i].references == Some(table) {
      var t, c := db.tables[table], db.tables[k.0].columns[i];
      assert SchemaOk(db, table) && SchemaOk(db, k.0) && RowOk(db, k) && KeyOk(db, k);
      assert SafeSchema(db.tables[k.0]) && FirstOf(db.tables[k.0].columns, i) == i;
      assert TargetOk(db, c) && TypeFits(c, db.rows[k][i]) && SafeSchema(t);
      assert t.columns[KeyFrom(t.columns, 0).value].datatype_ != FloatType;
      SameTyped(c, db.rows[k][i], id);
      if k.0 == table && db.rows[k][i] == id {
        SameTyped(c, id, k.1);
      }
    }
  }

  /** A row can be deleted if and only if its table is there and the store without the row
      satisfies the constraints. */
  lemma DeleteIff(db: Db, table: string, id: Value)
    requires Constrained(db) && Safe(db) && id != Null
    ensures CanDelete(db, table, id) <==> table in db.tables && Constrained(Without(db, (table, id)))
  {
    if table in db.tables {
      var db' := Without(db, (table, id));
      forall k, i: nat ensures Blocks(db, table, id, k, i) ==> !ReferenceOk(db', k, i) {
        BlocksIff(db, table, id, k, i);
        if Blocks(db, table, id, k, i) {
          assert RowOk(db, k) && TypeFits(db.tables[k.0].columns[i], id) && SchemaOk(db, k.0);
          assert TargetOk(db, db.tables[k.0].columns[i]) && SafeSchema(db.tables[table]);
          assert HasRowAt(db', k, i);
        }
      }
      if CanDelete(db, table, id) {
        DeletedConstrained(db, table, id);
      }
    }
  }

  /** There is no row under null, but deleting it is refused if and only if a reference to the
      table is null. */
  lemma DeleteNullIff(db: Db, table: string)
    requires Constrained(db) && Safe(db) && table in db.tables
    ensures CanDelete(db, table, Null) <==>
              forall k, i: nat :: HasRowAt(db, k, i) && db.tables[k.0].columns[i].references == Some(table) ==>
                db.rows[k][i] != Null
  {
    forall k, i: nat
      ensures Blocks(db, table, Null, k, i) <==>
                HasRowAt(db, k, i) && db.tables[k.0].columns[i].references == Some(table) && db.rows[k][i] == Null
    {
      if HasRowAt(db, k, i) && db.tables[k.0].columns[i].references == Some(table) {
        assert SafeSchema(db.tables[k.0]) && FirstOf(db.tables[k.0].columns, i) == i;
        assert RowOk(db, k) && SchemaOk(db, k.0);
        var cs := db.tables[k.0].columns;
        assert TypeFits(cs[KeyFrom(cs, 0).value], db.rows[k][KeyFrom(cs, 0).value]);
      }
    }
  }

  lemma DeletedConstrained(db: Db, table: string, id: Value)
    requires Constrained(db) && Safe(db) && id != Null && CanDelete(db, table, id)
    ensures Constrained(Without(db, (table, id)))
  {
    var db' := Without(db, (table, id));
    forall name ensures SchemaOk(db', name) { assert SchemaOk(db, name); }
    forall k ensures RowOk(db', k) && KeyOk(db', k) { assert RowOk(db, k) && KeyOk(db, k); }
    forall k, i: nat ensures ReferenceOk(db', k, i) {
      assert ReferenceOk(db, k, i) && !Blocks(db, table, id, k, i);
      BlocksIff(db, table, id, k, i);
    }
    forall k, k', i: nat ensures UniqueOk(db', k, k', i) { assert UniqueOk(db, k, k', i); }
  }

  /** A key that is equal to another but not the same, or the other way round, is a float,
      which a row of a safe table does not have. */
  lemma OddKey(db: Db, t: Table, id: Value, row: Row)
    requires Shaped(db) && IsTable(db, t) && SafeSchema(t) && RowId(t, row).Some?
    requires SameKey(t, id, row) != (RowId(t, row) == Some(id))
    ensures !FitsTable(t, row)
  {
    assert SchemaOk(db, t.name);
    var k := KeyFrom(t.columns, 0).value;
    if FitsTable(t, row) {
      assert TypeFits(t.columns[k], row[k]);
      SafeKey(db, t, row[k], id);
      assert false;
    }
  }

  lemma ValidFits(db: Db, t: Table, row: Row)
    requires RowValid(db, t, row)
    ensures FitsTable(t, row)
  {
    forall i | 0 <= i < |row| ensures TypeFits(t.columns[i], row[i]) {
      assert ValueValid(db, t, RowId(t, row).value, t.columns[i], row[i]);
    }
  }

  /** With the same key, the row is replaced. */
  lemma ReplaceIff(db: Db, t: Table, id: Value, row: Row)
    requires Constrained(db) && Safe(db) && IsTable(db, t) && RowId(t, row).Some?
    requires RowId(t, row).value == id || SameKey(t, id, row)
    ensures UpdateRow(db, t.name, id, row).1 == Done <==>
              && RowId(t, row).value == id && Constrained(With(db, (t.name, id), row))
              && (Indexed(t) ==> (t.name, id) in db.rows)
  {
    assert SchemaOk(db, t.name) && SafeSchema(t);
    if SameKey(t, id, row) == (RowId(t, row) == Some(id)) {
      ReplaceIsPut(db, t, id, row);
      RowValidIff(db, t, id, row);
    } else {
      OddKey(db, t, id, row);
      if Constrained(With(db, (t.name, id), row)) { FitsIff(db, t, (t.name, id), row); }
      if SameKey(t, id, row) {
        ReplaceIsPut(db, t, id, row);
        if RowValid(db, t, row) { ValidFits(db, t, row); }
      } else {
        UpdateKeyIff(db, t.name, id, row);
        var rest := Without(db, (t.name, id));
        if RowValid(rest, t, row) { ValidFits(rest, t, row); }
      }
    }
  }

  /** With another key, the row moves. */
  lemma MoveIff(db: Db, t: Table, id: Value, row: Row)
    requires Constrained(db) && Safe(db) && IsTable(db, t) && id != Null && RowId(t, row).Some?
    requires RowId(t, row).value != id && !SameKey(t, id, row)
    ensures var key, rest := RowId(t, row).value, Without(db, (t.name, id));
            UpdateRow(db, t.name, id, row).1 == Done <==>
              Constrained(rest) && (t.name, key) !in db.rows && Constrained(With(rest, (t.name, key), row))
  {
    UpdateKeyIff(db, t.name, id, row);
    DeleteIff(db, t.name, id);
    var rest := Without(db, (t.name, id));
    if Constrained(rest) {
      RowValidIff(rest, t, RowId(t, row).value, row);
    }
  }

  /** An update goes through if and only if both the store without the old row and the store
      with the new one satisfy the constraints, and the new key is free. With the same key,
      only the store with the new row has to, but in a table with an index the row has to be
      there. */
  lemma UpdateIff(db: Db, table: string, id: Value, row: Row)
    requires Constrained(db) && Safe(db) && id != Null
    ensures UpdateRow(db, table, id, row).1 == Done <==>
              && table in db.tables && RowId(db.tables[table], row).Some?
              && var t, key := db.tables[table], RowId(db.tables[table], row).value;
                 if key == id then Constrained(With(db, (table, id), row)) && (Indexed(t) ==> (table, id) in db.rows)
                 else
                   && Constrained(Without(db, (table, id))) && (table, key) !in db.rows
                   && Constrained(With(Without(db, (table, id)), (table, key), row))
  {
    if table in db.tables && RowId(db.tables[table], row).Some? {
      var t, key := db.tables[table], RowId(db.tables[table], row).value;
      assert SchemaOk(db, table) && SafeSchema(t);
      if key == id || SameKey(t, id, row) {
        ReplaceIff(db, t, id, row);
        if key != id {
          OddKey(db, t, id, row);
          var rest := Without(db, (table, id));
          if Constrained(With(rest, (table, key), row)) { FitsIff(rest, t, (table, key), row); }
        }
      } else {
        MoveIff(db, t, id, row);
      }
    }
  }

  // ---- Tables ----

  /** A table can be created if and only if its name is free and the store with it is
      well-formed. */
  lemma TableIff(db: Db, t: Table)
    requires Shaped(db)
    ensures WithTable(db, t).Some? <==> t.name !in db.tables && Shaped(db.(tables := db.tables[t.name := t]))
  {
    var db' := db.(tables := db.tables[t.name := t]);
    if t.name !in db.tables && Shaped(db') {
      assert SchemaOk(db', t.name);
      forall i | 0 <= i < |t.columns| ensures ColumnValid(db, t, t.columns[i]) {
        assert DefaultOk(t.columns[i]) && TargetOk(db', t.columns[i]);
      }
    }
    if WithTable(db, t).Some? {
      AddTableShaped(db, t, db');
    }
  }

  /** The store without a table and its rows. */
  ghost function WithoutAll(db: Db, name: string): Db {
    db.(tables := db.tables - {name}, rows := map k | k in db.rows && k.0 != name :: db.rows[k])
  }

  /** No other table refers to a table if and only if the store without it is well-formed. */
  lemma WantedIff(db: Db, name: string)
    requires Shaped(db)
    ensures !Wanted(db, name) <==> Shaped(WithoutAll(db, name))
  {
    var db' := WithoutAll(db, name);
    if Wanted(db, name) {
      var other, i :| && other in db.tables && other != name && 0 <= i < |db.tables[other].columns|
                      && db.tables[other].columns[i].references == Some(name);
      assert other in db'.tables && !TargetOk(db', db.tables[other].columns[i]);
      assert !SchemaOk(db', other);
    } else {
      forall other ensures SchemaOk(db', other) {
        assert SchemaOk(db, other);
        if other in db'.tables {
          forall i | 0 <= i < |db.tables[other].columns| ensures TargetOk(db', db.tables[other].columns[i]) {
            assert TargetOk(db, db.tables[other].columns[i]);
          }
        }
      }
      forall k ensures RowOk(db', k) { assert RowOk(db, k); }
    }
  }

  /** A table can be dropped if and only if it is there, the store without it is well-formed,
      and no row refers to another one that comes before it in the order. */
  lemma DropIff(db: Db, name: string, order: seq<Value>)
    requires Integrity(db) && Safe(db) && IsOrder(db, name, order)
    ensures WithoutTable(db, name, order).1 <==>
              && name in db.tables && Shaped(WithoutAll(db, name))
              && forall n :: 0 <= n < |order| ==> Unpointed(db, name, order, n)
  {
    DropTableIff(db, name, order);
    WantedIff(db, name);
    if name in db.tables {
      KeyedIds(db, name, order);
    }
  }
}
