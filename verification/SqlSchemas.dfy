/** Which schemas are safe. The program lets columns of a table share a name, but looks
    columns up by name when it keeps indexes, checks for duplicates and deletes rows. It
    lets floats be keys and be indexed, but stores them by their bits and compares them as
    numbers. The condition on a schema under which this does no harm is exact. */
module SqlSchemas {
  import opened Basics
  import opened SqlExpression
  import opened SqlStore
  import opened SqlOperations

  datatype Operation =
    | NewTable(t: Table)
    | LoseTable(name: string, order: seq<Value>)
    | Insert(table: string, row: Row)
    | Remove(table: string, id: Value)
    | Change(table: string, id: Value, row: Row)

  /** The store afterwards, and whether the operation went through. */
  ghost function Perform(db: Db, op: Operation): (Db, bool)
    requires Shaped(db)
  {
    match op
    case NewTable(t) => (WithTable(db, t).GetOr(db), WithTable(db, t).Some?)
    case LoseTable(name, order) => if IsOrder(db, name, order) then WithoutTable(db, name, order) else (db, false)
    case Insert(table, row) => (CreateRow(db, table, row).GetOr(db), CreateRow(db, table, row).Some?)
    case Remove(table, id) => (DeleteRow(db, table, id).GetOr(db), DeleteRow(db, table, id).Some?)
    case Change(table, id, row) => (UpdateRow(db, table, id, row).0, UpdateRow(db, table, id, row).1 == Done)
  }

  /** Operations that all go through lead from one store to another. */
  ghost predicate Runs(db: Db, ops: seq<Operation>, db': Db)
    decreases |ops|
  {
    if ops == [] then db' == db
    else Shaped(db) && Perform(db, ops[0]).1 && Runs(Perform(db, ops[0]).0, ops[1..], db')
  }

  // ---- Safe schemas are enough ----

  ghost predicate AddsSafe(op: Operation) {
    op.NewTable? ==> SafeSchema(op.t)
  }

  lemma SafeStep(db: Db, op: Operation)
    requires Integrity(db) && Safe(db) && AddsSafe(op) && Perform(db, op).1
    ensures Integrity(Perform(db, op).0) && Safe(Perform(db, op).0)
  {
    match op
    case NewTable(t) => AddTableIntegrity(db, t, WithTable(db, t).value);
    case LoseTable(name, order) => DropTableKeeps(db, name, order);
    case Insert(table, row) => CreateIntegrity(db, table, row);
    case Remove(table, id) => DeleteIntegrity(db, table, id);
    case Change(table, id, row) =>
      UpdateIntegrity(db, table, id, row);
      UpdateShaped(db, table, id, row);
      if SameKey(db.tables[table], id, row) {
        assert SchemaOk(db, table);
        ReplaceIsPut(db, db.tables[table], id, row);
      }
  }

  /** Relational integrity over whole runs: while all tables have safe schemas, every
      sequence of successful operations keeps it. */
  lemma {:induction false} SafeRun(db: Db, ops: seq<Operation>, db': Db)
    requires Integrity(db) && Safe(db) && Runs(db, ops, db') && forall op :: op in ops ==> AddsSafe(op)
    ensures Integrity(db') && Safe(db')
    decreases |ops|
  {
    if ops != [] {
      SafeStep(db, ops[0]);
      SafeRun(Perform(db, ops[0]).0, ops[1..], db');
    }
  }

  // ---- A store around a table ----

  /** Two values of each type. */
  function Sample(d: DataType, b: bool): Value {
    match d
    case BooleanType => Boolean(b)
    case IntegerType => Integer(if b then 1 else 0)
    case FloatType => Float(if b then 1 else 0)
    case StringType => String(if b then "a" else "")
  }

  lemma SampleFits(c: Column, b: bool)
    ensures TypeFits(c, Sample(c.datatype_, b)) && Sample(c.datatype_, b) != Null
    ensures Same(Sample(c.datatype_, b), Sample(c.datatype_, b)) && !NotANumber(Sample(c.datatype_, b))
  {
  }

  lemma SamplesDiffer(d: DataType, d': DataType)
    ensures !Same(Sample(d, true), Sample(d', false)) && !Same(Sample(d', false), Sample(d, true))
    ensures Sample(d, true) != Sample(d', false)
  {
  }

  /** A row of samples, but for one value. */
  function Filled(t: Table, b: bool, x: nat, v: Value): (row: Row)
    ensures |row| == |t.columns|
    ensures forall i :: 0 <= i < |t.columns| ==> row[i] == if i == x then v else Sample(t.columns[i].datatype_, b)
  {
    seq(|t.columns|, i requires 0 <= i < |t.columns| => if i == x then v else Sample(t.columns[i].datatype_, b))
  }

  /** A primary key that refers to a table is the first of its name, and so is a unique
      column that refers to its own table, which also has to be nullable. (Otherwise values
      can be forced, so that shared names do no harm.) */
  predicate Ordinary(t: Table) {
    forall i :: 0 <= i < |t.columns| ==>
      if KeyFrom(t.columns, 0) == Some(i) then t.columns[i].references.Some? ==> FirstOf(t.columns, i) == i
      else t.columns[i].unique && t.columns[i].references == Some(t.name) ==>
        t.columns[i].nullable && FirstOf(t.columns, i) == i
  }

  /** The other tables a table refers to. */
  function Targets(t: Table): set<string> {
    set i | 0 <= i < |t.columns| && t.columns[i].references.Some? && t.columns[i].references.value != t.name ::
      t.columns[i].references.value
  }

  ghost predicate Creatable(base: Db, t: Table) {
    Shaped(base) && Safe(base) && t.name !in base.tables && TableValid(base, t)
  }

  lemma TargetKey(base: Db, t: Table, n: string)
    requires Creatable(base, t) && n in Targets(t)
    ensures n in base.tables && KeyFrom(base.tables[n].columns, 0).Some?
    ensures base.tables[n].columns[KeyFrom(base.tables[n].columns, 0).value].datatype_ != FloatType
  {
    var i :| 0 <= i < |t.columns| && t.columns[i].references == Some(n) && n != t.name;
    assert ColumnValid(base, t, t.columns[i]) && SafeSchema(base.tables[n]);
  }

  ghost function KeyType(base: Db, t: Table, n: string): (d: DataType)
    requires Creatable(base, t) && n in Targets(t)
    ensures d != FloatType
  {
    TargetKey(base, t, n);
    base.tables[n].columns[KeyFrom(base.tables[n].columns, 0).value].datatype_
  }

  function Stub(n: string, d: DataType): Table {
    Table(n, [Column("id", d, true, false, None, true, None, false)])
  }

  ghost function StubKeys(base: Db, t: Table): set<RowKey>
    requires Creatable(base, t)
  {
    set n, b | n in Targets(t) && b in {true, false} :: (n, Sample(KeyType(base, t, n), b))
  }

  /** Simple tables in place of those a table refers to, with two rows each. */
  ghost function Stubs(base: Db, t: Table): Db
    requires Creatable(base, t)
  {
    Db(map n | n in Targets(t) :: Stub(n, KeyType(base, t, n)), map k | k in StubKeys(base, t) :: [k.1], map[])
  }

  /** The table among them, still without rows. */
  ghost function Start(base: Db, t: Table): Db
    requires Creatable(base, t)
  {
    Stubs(base, t).(tables := Stubs(base, t).tables[t.name := t])
  }

  lemma StubKey(n: string, d: DataType)
    ensures KeyFrom(Stub(n, d).columns, 0) == Some(0) && (d != FloatType ==> SafeSchema(Stub(n, d)))
  {
    var cs := Stub(n, d).columns;
    assert |cs| == 1 && cs[0].primaryKey;
  }

  lemma StubRow(base: Db, t: Table, k: RowKey)
    requires Creatable(base, t) && k in Stubs(base, t).rows
    ensures RowOk(Stubs(base, t), k) && KeyOk(Stubs(base, t), k)
  {
    var n, b :| n in Targets(t) && b in {true, false} && k == (n, Sample(KeyType(base, t, n), b));
    StubKey(n, KeyType(base, t, n));
    SampleFits(Stub(n, KeyType(base, t, n)).columns[0], b);
  }

  lemma StubsShaped(base: Db, t: Table)
    requires Creatable(base, t)
    ensures Shaped(Stubs(base, t)) && forall k :: KeyOk(Stubs(base, t), k)
  {
    var db := Stubs(base, t);
    forall n ensures SchemaOk(db, n) {
      if n in db.tables { StubKey(n, KeyType(base, t, n)); }
    }
    forall k ensures RowOk(db, k) && KeyOk(db, k) {
      if k in db.rows { StubRow(base, t, k); }
    }
  }

  lemma StubsIntegrity(base: Db, t: Table)
    requires Creatable(base, t)
    ensures Integrity(Stubs(base, t))
  {
    var db := Stubs(base, t);
    StubsShaped(base, t);
    forall k, i: nat ensures ReferenceOk(db, k, i) {
      if HasRowAt(db, k, i) { assert db.tables[k.0] == Stub(k.0, KeyType(base, t, k.0)); }
    }
    forall k, k', i: nat ensures UniqueOk(db, k, k', i) {
      if HasRowAt(db, k, i) { assert db.tables[k.0] == Stub(k.0, KeyType(base, t, k.0)); }
    }
    forall table, i, v, id ensures IndexOk(db, table, i, v, id) { }
  }

  lemma StartIntegrity(base: Db, t: Table)
    requires Creatable(base, t)
    ensures WithTable(Stubs(base, t), t) == Some(Start(base, t)) && Integrity(Start(base, t))
    ensures IsTable(Start(base, t), t) && forall k :: k in Start(base, t).rows ==> k.0 != t.name
  {
    var stubs := Stubs(base, t);
    StubsIntegrity(base, t);
    forall i | 0 <= i < |t.columns| ensures ColumnValid(stubs, t, t.columns[i]) {
      var c := t.columns[i];
      assert ColumnValid(base, t, c);
      if c.references.Some? && c.references.value != t.name {
        assert c.references.value in Targets(t);
        StubKey(c.references.value, KeyType(base, t, c.references.value));
      }
    }
    AddTableIntegrity(stubs, t, Start(base, t));
  }

  /** A table without rows, among tables that refer to none and have rows for both samples
      that it can refer to. */
  ghost predicate Stage(db: Db, t: Table) {
    && Integrity(db) && IsTable(db, t) && (forall k :: k in db.rows ==> k.0 != t.name)
    && (forall n, i :: n in db.tables && n != t.name && 0 <= i < |db.tables[n].columns| ==>
          db.tables[n].columns[i].references.None?)
    && (forall n :: n in db.tables && n != t.name ==> SafeSchema(db.tables[n]))
    && forall i, b :: Offers(db, t, i, b)
  }

  ghost predicate Offers(db: Db, t: Table, i: nat, b: bool) {
    i < |t.columns| && t.columns[i].references.Some? && t.columns[i].references.value != t.name ==>
      (t.columns[i].references.value, Sample(t.columns[i].datatype_, b)) in db.rows
  }

  lemma StartIsStage(base: Db, t: Table)
    requires Creatable(base, t)
    ensures Stage(Start(base, t), t)
  {
    var db := Start(base, t);
    StartIntegrity(base, t);
    forall i: nat, b ensures Offers(db, t, i, b) {
      if i < |t.columns| && t.columns[i].references.Some? && t.columns[i].references.value != t.name {
        var n := t.columns[i].references.value;
        assert ColumnValid(base, t, t.columns[i]) && n in Targets(t);
        assert (n, Sample(KeyType(base, t, n), b)) in StubKeys(base, t);
      }
    }
    forall n | n in db.tables && n != t.name
      ensures SafeSchema(db.tables[n])
      ensures forall i :: 0 <= i < |db.tables[n].columns| ==> db.tables[n].columns[i].references.None?
    {
      StubKey(n, KeyType(base, t, n));
    }
  }

  // ---- Inserting into it ----

  /** A store with more rows of the table than at the start. */
  ghost predicate Grown(start: Db, t: Table, db: Db)
    requires Stage(start, t)
  {
    && Shaped(db) && db.tables == start.tables
    && forall k :: k in start.rows ==> k in db.rows
  }

  /** No other row has the value where the check for duplicates looks. */
  ghost predicate Free(db: Db, t: Table, id: Value, i: nat, v: Value)
    requires i < |t.columns|
  {
    t.columns[i].unique && !t.columns[i].primaryKey && v != Null ==>
      forall k :: k in db.rows ==> !Takes(db, t, id, FirstOf(t.columns, i), v, k)
  }

  /** A null or a sample is a valid value, if a reference to the own table is to the row
      itself or to another row. */
  lemma ValidValue(start: Db, t: Table, db: Db, id: Value, i: nat, v: Value, b: bool)
    requires Stage(start, t) && Grown(start, t, db) && i < |t.columns| && Free(db, t, id, i, v)
    requires (v == Null && t.columns[i].nullable) || v == Sample(t.columns[i].datatype_, b)
    requires t.columns[i].references == Some(t.name) && v != Null ==> Same(v, id) || (t.name, v) in db.rows
    ensures ValueValid(db, t, id, t.columns[i], v)
  {
    var c := t.columns[i];
    SampleFits(c, b);
    if c.references.Some? && c.references.value != t.name && v != Null {
      assert Offers(start, t, i, b);
    }
  }

  ghost predicate Uniform(t: Table, row: Row) {
    forall i: nat, j: nat :: SharedIndex(t, i, j) && i < |row| && j < |row| && CanHold(t.columns[i], row[j]) ==>
      row[i] == row[j]
  }

  lemma ApartUniform(t: Table, row: Row)
    requires IndexesApart(t) && FitsTable(t, row)
    ensures Uniform(t, row)
  {
    forall i: nat, j: nat | SharedIndex(t, i, j) && CanHold(t.columns[i], row[j]) ensures row[i] == row[j] {
      assert TypeFits(t.columns[j], row[j]);
      ApartOnly(t, row, i, row[j]);
    }
  }

  /** A row whose values do not contradict each other in shared entries can go into any
      table without harm to the indexes. */
  lemma InsertUniform(db: Db, t: Table, row: Row)
    requires Integrity(db) && IsTable(db, t) && CreateRow(db, t.name, row).Some? && Uniform(t, row)
    requires forall k, i :: NoTwin(db, t, row, k, i)
    requires forall i :: 0 <= i < |row| && Same(row[i], RowId(t, row).value) ==> row[i] == RowId(t, row).value
    ensures var db' := CreateRow(db, t.name, row).value;
            Integrity(db') && db'.tables == db.tables && db'.rows == db.rows[(t.name, RowId(t, row).value) := row]
  {
    var id, db' := RowId(t, row).value, CreateRow(db, t.name, row).value;
    forall i | 0 <= i < |row| ensures TypeFits(t.columns[i], row[i]) && Refers(db, t, id, t.columns[i], row[i]) {
      assert ValueValid(db, t, id, t.columns[i], row[i]);
    }
    forall table, i, v, x ensures IndexOk(db', table, i, v, x) {
      assert IndexOk(db, table, i, v, x) && IndexOk(db, table, i, v, id);
      if table == t.name {
        InsertedIndex(db, t, row, id, db', i, v, x);
      } else {
        OtherIndexOk(db, t, id, Some(row), db', table, i, v, x);
      }
    }
    PutKeeps(db, t, id, row, db');
  }

  lemma InsertedIndex(db: Db, t: Table, row: Row, id: Value, db': Db, i: nat, v: Value, x: Value)
    requires IsTable(db, t) && |row| == |t.columns| && (t.name, id) !in db.rows && Uniform(t, row)
    requires db' == PutRow(db, t, id, row) && IndexOk(db, t.name, i, v, x) && IndexOk(db, t.name, i, v, id)
    ensures IndexOk(db', t.name, i, v, x)
  {
    ReindexKeeps(db, t, None, Some(row), id, |t.columns|, ("", "", Null));
    if i < |t.columns| && t.columns[i].index && CanHold(t.columns[i], v) {
      AddedMeans(db, t, row, id, |t.columns|, t.columns[i].name, v);
      if HasValue(t, row, |t.columns|, t.columns[i].name, v) {
        var j :| 0 <= j < |t.columns| && t.columns[j].index && t.columns[j].name == t.columns[i].name && row[j] == v;
        assert SharedIndex(t, i, j);
      }
    }
  }

  /** Two columns under one name with different values: the entry of one lists a row
      that the other does not have it for. */
  lemma SharedInsertBreaks(db: Db, t: Table, row: Row, x: nat, y: nat)
    requires Shaped(db) && IsTable(db, t) && CreateRow(db, t.name, row).Some?
    requires SharedIndex(t, x, y) && |row| == |t.columns| && row[x] != row[y] && CanHold(t.columns[y], row[x])
    ensures !Integrity(CreateRow(db, t.name, row).value)
  {
    var id, db' := RowId(t, row).value, CreateRow(db, t.name, row).value;
    ReindexKeeps(db, t, None, Some(row), id, |t.columns|, ("", "", Null));
    AddedMeans(db, t, row, id, |t.columns|, t.columns[y].name, row[x]);
    assert HasValue(t, row, |t.columns|, t.columns[y].name, row[x]);
    assert !IndexOk(db', t.name, y, row[x], id);
  }

  // ---- Safe schemas are needed ----

  /** Rows that all go in lead from one store to another. */
  ghost predicate InsertsTo(db: Db, name: string, rows: seq<Row>, db': Db)
    decreases |rows|
  {
    if rows == [] then db' == db
    else
      Shaped(db) && CreateRow(db, name, rows[0]).Some?
      && InsertsTo(CreateRow(db, name, rows[0]).value, name, rows[1..], db')
  }

  /** A store with integrity, reached by inserting rows, and an operation that goes
      through and ends integrity. */
  ghost predicate Breaks(start: Db, t: Table, rows: seq<Row>, db: Db, op: Operation)
    requires Stage(start, t)
  {
    && InsertsTo(start, t.name, rows, db) && Integrity(db) && db.tables == start.tables
    && !op.NewTable? && Perform(db, op).1 && !Integrity(Perform(db, op).0)
  }

  lemma InsertBreaks(start: Db, t: Table, rows: seq<Row>, db: Db, row: Row) returns (op: Operation)
    requires Stage(start, t) && InsertsTo(start, t.name, rows, db) && Integrity(db) && db.tables == start.tables
    requires CreateRow(db, t.name, row).Some? && !Integrity(CreateRow(db, t.name, row).value)
    ensures Breaks(start, t, rows, db, op)
  {
    op := Insert(t.name, row);
  }

  lemma ChangeBreaks(start: Db, t: Table, rows: seq<Row>, db: Db, id: Value, row: Row) returns (op: Operation)
    requires Stage(start, t) && InsertsTo(start, t.name, rows, db) && Integrity(db) && db.tables == start.tables
    requires UpdateRow(db, t.name, id, row).1 == Done && !Integrity(UpdateRow(db, t.name, id, row).0)
    ensures Breaks(start, t, rows, db, op)
  {
    op := Change(t.name, id, row);
  }

  lemma RemoveBreaks(start: Db, t: Table, rows: seq<Row>, db: Db, target: string, v: Value) returns (op: Operation)
    requires Stage(start, t) && InsertsTo(start, t.name, rows, db) && Integrity(db) && db.tables == start.tables
    requires DeleteRow(db, target, v).Some? && !Integrity(DeleteRow(db, target, v).value)
    ensures Breaks(start, t, rows, db, op)
  {
    op := Remove(target, v);
  }

  /** The primary key's position, and its two samples. */
  ghost predicate KeyAt(t: Table, k: nat) {
    && k < |t.columns| && t.columns[k].primaryKey && !t.columns[k].nullable && KeyFrom(t.columns, 0) == Some(k)
    && forall i :: 0 <= i < |t.columns| && t.columns[i].references == Some(t.name) ==>
         t.columns[i].datatype_ == t.columns[k].datatype_
  }

  lemma FindKey(start: Db, t: Table) returns (k: nat)
    requires Stage(start, t)
    ensures KeyAt(t, k)
  {
    assert SchemaOk(start, t.name);
    k := KeyFrom(t.columns, 0).value;
    forall i | 0 <= i < |t.columns| && t.columns[i].references == Some(t.name)
      ensures t.columns[i].datatype_ == t.columns[k].datatype_
    {
      assert TargetOk(start, t.columns[i]);
    }
  }

  /** A first row of samples goes in, but for one value that is null or, where it does not
      refer to the own table, the other sample. */
  lemma FirstRow(start: Db, t: Table, k: nat, x: nat, v: Value, b: bool)
    requires Stage(start, t) && KeyAt(t, k) && (x < |t.columns| ==> x != k)
    requires x < |t.columns| ==>
               || (v == Null && t.columns[x].nullable)
               || (v == Sample(t.columns[x].datatype_, !b) && t.columns[x].references != Some(t.name))
    ensures var row := Filled(t, b, x, v);
            Shaped(start) && CanCreate(start, t.name, row)
            && RowId(t, row) == Some(Sample(t.columns[k].datatype_, b))
  {
    var db, row := start, Filled(t, b, x, v);
    var id := Sample(t.columns[k].datatype_, b);
    forall i | 0 <= i < |row| ensures ValueValid(db, t, id, t.columns[i], row[i]) {
      ValidValue(start, t, db, id, i, row[i], if i == x then !b else b);
    }
  }

  /** Indexes that are not apart. */
  lemma SharedIndexBreaks(start: Db, t: Table, k: nat, i: nat, j: nat) returns (rows: seq<Row>, db: Db, op: Operation)
    requires Stage(start, t) && KeyAt(t, k) && Ordinary(t)
    requires i < j < |t.columns| && SharedIndex(t, i, j) && Overlap(t.columns[i], t.columns[j])
    ensures Breaks(start, t, rows, db, op)
  {
    rows, db := [], start;
    assert SharedIndex(t, j, i);
    if t.columns[i].nullable {
      op := NullInsertBreaks(start, t, k, i, j);
    } else if t.columns[j].nullable {
      op := NullInsertBreaks(start, t, k, j, i);
    } else if i != k && t.columns[i].references != Some(t.name) {
      op := FirstInsertBreaks(start, t, k, i, j, Sample(t.columns[i].datatype_, true));
    } else if j != k && t.columns[j].references != Some(t.name) {
      op := FirstInsertBreaks(start, t, k, j, i, Sample(t.columns[j].datatype_, true));
    } else {
      rows, db, op := SecondInsertBreaks(start, t, k, if i != k then i else j, if i != k then j else i);
    }
  }

  /** A null in one column and none in the other. */
  lemma NullInsertBreaks(start: Db, t: Table, k: nat, x: nat, y: nat) returns (op: Operation)
    requires Stage(start, t) && KeyAt(t, k) && x != y && SharedIndex(t, x, y) && SharedIndex(t, y, x)
    requires t.columns[x].nullable && Overlap(t.columns[x], t.columns[y])
    ensures Breaks(start, t, [], start, op)
  {
    var row := Filled(t, false, x, Null);
    FirstRow(start, t, k, x, Null, false);
    SampleFits(t.columns[y], false);
    if t.columns[y].nullable {
      SharedInsertBreaks(start, t, row, x, y);
    } else {
      SharedInsertBreaks(start, t, row, y, x);
    }
    op := InsertBreaks(start, t, [], start, row);
  }

  lemma FirstInsertBreaks(start: Db, t: Table, k: nat, x: nat, y: nat, v: Value) returns (op: Operation)
    requires Stage(start, t) && KeyAt(t, k) && x != y && SharedIndex(t, x, y) && x != k
    requires CanHold(t.columns[y], v) && v == Sample(t.columns[x].datatype_, true)
    requires t.columns[x].references != Some(t.name)
    ensures Breaks(start, t, [], start, op)
  {
    var row := Filled(t, false, x, v);
    FirstRow(start, t, k, x, v, false);
    SampleFits(t.columns[y], false);
    SamplesDiffer(t.columns[x].datatype_, t.columns[y].datatype_);
    SharedInsertBreaks(start, t, row, x, y);
    op := InsertBreaks(start, t, [], start, row);
  }

  lemma SecondInsertBreaks(start: Db, t: Table, k: nat, x: nat, y: nat) returns (rows: seq<Row>, db: Db, op: Operation)
    requires Stage(start, t) && KeyAt(t, k) && Ordinary(t) && x != y && SharedIndex(t, x, y) && x != k
    requires t.columns[x].references == Some(t.name) && t.columns[x].datatype_ == t.columns[y].datatype_
    requires !t.columns[x].nullable
    ensures Breaks(start, t, rows, db, op)
  {
    var d := t.columns[k].datatype_;
    rows, db := OneRowIn(start, t, k, |t.columns|, Null, false);
    var row := Filled(t, true, x, Sample(d, false));
    assert !t.columns[x].unique;
    SecondRow(start, t, k, x, db, |t.columns|, Null);
    SamplesDiffer(t.columns[y].datatype_, d);
    SampleFits(t.columns[x], true);
    SharedInsertBreaks(db, t, row, y, x);
    op := InsertBreaks(start, t, rows, db, row);
  }

  /** The store with one row of samples, but for one value. */
  lemma OneRow(start: Db, t: Table, k: nat, x: nat, v: Value, b: bool) returns (db: Db)
    requires Stage(start, t) && KeyAt(t, k) && (x < |t.columns| ==> x != k && IndexesApart(t))
    requires x < |t.columns| ==> v == Sample(t.columns[x].datatype_, !b) && t.columns[x].references != Some(t.name)
    ensures Shaped(start) && CreateRow(start, t.name, Filled(t, b, x, v)) == Some(db)
    ensures Integrity(db) && db.tables == start.tables && Grown(start, t, db)
    ensures db.rows == start.rows[(t.name, Sample(t.columns[k].datatype_, b)) := Filled(t, b, x, v)]
  {
    var row := Filled(t, b, x, v);
    FirstRow(start, t, k, x, v, b);
    forall i | 0 <= i < |row| ensures TypeFits(t.columns[i], row[i]) {
      SampleFits(t.columns[i], if i == x then !b else b);
    }
    if x < |t.columns| {
      ApartUniform(t, row);
    }
    forall i | 0 <= i < |row| && Same(row[i], row[k]) ensures row[i] == row[k] {
      SampleSame(t.columns[i].datatype_, if i == x then !b else b, t.columns[k].datatype_, b);
    }
    InsertUniform(start, t, row);
    db := CreateRow(start, t.name, row).value;
  }

  lemma OneRowIn(start: Db, t: Table, k: nat, x: nat, v: Value, b: bool) returns (rows: seq<Row>, db: Db)
    requires Stage(start, t) && KeyAt(t, k) && (x < |t.columns| ==> x != k && IndexesApart(t))
    requires x < |t.columns| ==> v == Sample(t.columns[x].datatype_, !b) && t.columns[x].references != Some(t.name)
    ensures InsertsTo(start, t.name, rows, db)
    ensures Integrity(db) && db.tables == start.tables && Grown(start, t, db)
    ensures db.rows == start.rows[(t.name, Sample(t.columns[k].datatype_, b)) := Filled(t, b, x, v)]
  {
    db := OneRow(start, t, k, x, v, b);
    rows := [Filled(t, b, x, v)];
    assert InsertsTo(db, t.name, rows[1..], db);
  }

  /** A second row of the other samples goes in, with one value taken from the first row's
      key. */
  lemma SecondRow(start: Db, t: Table, k: nat, x: nat, db: Db, z: nat, w: Value)
    requires Stage(start, t) && KeyAt(t, k) && Ordinary(t) && Grown(start, t, db)
    requires x < |t.columns| && x != k && t.columns[x].references == Some(t.name) && !t.columns[x].unique
    requires z >= |t.columns|
    requires db.rows == start.rows[(t.name, Sample(t.columns[k].datatype_, false)) := Filled(t, false, z, w)]
    ensures var row := Filled(t, true, x, Sample(t.columns[k].datatype_, false));
            CanCreate(db, t.name, row) && RowId(t, row) == Some(Sample(t.columns[k].datatype_, true))
  {
    var d := t.columns[k].datatype_;
    var row, id := Filled(t, true, x, Sample(d, false)), Sample(d, true);
    SamplesDiffer(d, d);
    forall i | 0 <= i < |row| ensures ValueValid(db, t, id, t.columns[i], row[i]) {
      SamplesDiffer(t.columns[i].datatype_, t.columns[FirstOf(t.columns, i)].datatype_);
      ValidValue(start, t, db, id, i, row[i], i != x);
    }
  }

  /** A unique column that is not the first of its name. */
  lemma UniqueBreaks(start: Db, t: Table, k: nat, j: nat) returns (rows: seq<Row>, db: Db, op: Operation)
    requires Stage(start, t) && KeyAt(t, k) && Ordinary(t) && IndexesApart(t)
    requires j < |t.columns| && t.columns[j].unique && !t.columns[j].primaryKey && FirstOf(t.columns, j) != j
    ensures Breaks(start, t, rows, db, op)
  {
    var v := Sample(t.columns[j].datatype_, true);
    rows, db := OneRowIn(start, t, k, j, v, false);
    var row := Filled(t, true, |t.columns|, Null);
    HiddenTwin(start, t, k, j, db);
    HiddenTwinBreaks(db, t, k, j, row);
    op := InsertBreaks(start, t, rows, db, row);
  }

  lemma HiddenTwinBreaks(db: Db, t: Table, k: nat, j: nat, row: Row)
    requires Shaped(db) && IsTable(db, t) && KeyAt(t, k) && CanCreate(db, t.name, row)
    requires j < |t.columns| && t.columns[j].unique && !t.columns[j].primaryKey
    requires row == Filled(t, true, |t.columns|, Null) && RowId(t, row) == Some(Sample(t.columns[k].datatype_, true))
    requires var key := (t.name, Sample(t.columns[k].datatype_, false));
             key in db.rows && db.rows[key] == Filled(t, false, j, Sample(t.columns[j].datatype_, true))
    ensures !Integrity(CreateRow(db, t.name, row).value)
  {
    var d := t.columns[k].datatype_;
    SamplesDiffer(d, d);
    SampleFits(t.columns[j], true);
    TwinsBreak(db, t, row, (t.name, Sample(d, false)), j);
  }

  /** The check for duplicates does not find the value of a column that is not the first of
      its name. */
  lemma HiddenTwin(start: Db, t: Table, k: nat, j: nat, db: Db)
    requires Stage(start, t) && KeyAt(t, k) && Grown(start, t, db) && j < |t.columns| && FirstOf(t.columns, j) != j
    requires var v := Sample(t.columns[j].datatype_, true);
             db.rows == start.rows[(t.name, Sample(t.columns[k].datatype_, false)) := Filled(t, false, j, v)]
    ensures var row := Filled(t, true, |t.columns|, Null);
            CanCreate(db, t.name, row) && RowId(t, row) == Some(Sample(t.columns[k].datatype_, true))
  {
    var d := t.columns[k].datatype_;
    var row, id := Filled(t, true, |t.columns|, Null), Sample(d, true);
    SamplesDiffer(d, d);
    forall i | 0 <= i < |row| ensures ValueValid(db, t, id, t.columns[i], row[i]) {
      FirstIsFirst(t.columns, i);
      SamplesDiffer(t.columns[i].datatype_, t.columns[FirstOf(t.columns, i)].datatype_);
      ValidValue(start, t, db, id, i, row[i], true);
    }
  }

  lemma FirstIsFirst(cs: seq<Column>, i: nat)
    requires i < |cs|
    ensures FirstOf(cs, FirstOf(cs, i)) == FirstOf(cs, i)
  {
  }

  lemma TwinsBreak(db: Db, t: Table, row: Row, k: RowKey, j: nat)
    requires Shaped(db) && IsTable(db, t) && CreateRow(db, t.name, row).Some? && k in db.rows && k.0 == t.name
    requires k.1 != RowId(t, row).value && j < |t.columns| && t.columns[j].unique && !t.columns[j].primaryKey
    requires |db.rows[k]| == |row| == |t.columns| && Same(db.rows[k][j], row[j]) && db.rows[k][j] != Null
    ensures !Integrity(CreateRow(db, t.name, row).value)
  {
    var id, db' := RowId(t, row).value, CreateRow(db, t.name, row).value;
    ReindexKeeps(db, t, None, Some(row), id, |t.columns|, ("", "", Null));
    assert !UniqueOk(db', k, (t.name, id), j);
  }

  /** One row refers through column j to another, of its own table or not. */
  ghost predicate Referring(start: Db, t: Table, k: nat, j: nat, db: Db)
    requires Stage(start, t) && k < |t.columns| && j < |t.columns|
  {
    var d, v := t.columns[k].datatype_, Sample(t.columns[j].datatype_, false);
    && db.tables == start.tables
    && db.rows == (if t.columns[j].references == Some(t.name)
                   then start.rows[(t.name, Sample(d, false)) := Filled(t, false, |t.columns|, Null)]
                   else start.rows)[(t.name, Sample(d, true)) := Filled(t, true, j, v)]
  }

  /** A referring column that is not the first of its name. */
  lemma ReferenceBreaks(start: Db, t: Table, k: nat, j: nat) returns (rows: seq<Row>, db: Db, op: Operation)
    requires Stage(start, t) && KeyAt(t, k) && Ordinary(t) && IndexesApart(t)
    requires j < |t.columns| && t.columns[j].references.Some? && FirstOf(t.columns, j) != j
    ensures Breaks(start, t, rows, db, op)
  {
    var target, v := t.columns[j].references.value, Sample(t.columns[j].datatype_, false);
    if target == t.name {
      assert j != k && !t.columns[j].unique;
      rows, db := TwoRows(start, t, k, j);
    } else {
      rows, db := OneReferring(start, t, k, j);
    }
    Deletable(start, t, k, j, db);
    Dangles(start, t, k, j, db, target, v);
    op := RemoveBreaks(start, t, rows, db, target, v);
  }

  lemma OneReferring(start: Db, t: Table, k: nat, j: nat) returns (rows: seq<Row>, db: Db)
    requires Stage(start, t) && KeyAt(t, k) && Ordinary(t) && IndexesApart(t)
    requires j < |t.columns| && t.columns[j].references.Some? && t.columns[j].references.value != t.name && j != k
    ensures InsertsTo(start, t.name, rows, db) && Integrity(db) && Referring(start, t, k, j, db)
  {
    var v := Sample(t.columns[j].datatype_, false);
    rows, db := OneRowIn(start, t, k, j, v, true);
  }

  lemma TwoRows(start: Db, t: Table, k: nat, j: nat) returns (rows: seq<Row>, db: Db)
    requires Stage(start, t) && KeyAt(t, k) && Ordinary(t) && IndexesApart(t)
    requires j < |t.columns| && t.columns[j].references == Some(t.name) && j != k && !t.columns[j].unique
    ensures InsertsTo(start, t.name, rows, db) && Integrity(db) && db.tables == start.tables
    ensures Referring(start, t, k, j, db)
  {
    var d := t.columns[k].datatype_;
    var first, second := Filled(t, false, |t.columns|, Null), Filled(t, true, j, Sample(d, false));
    var d1 := OneRow(start, t, k, |t.columns|, Null, false);
    SecondRow(start, t, k, j, d1, |t.columns|, Null);
    SecondGoesIn(d1, t, k, j, first, second);
    db := CreateRow(d1, t.name, second).value;
    rows := [first, second];
    assert rows[1..][1..] == [];
    assert InsertsTo(d1, t.name, rows[1..], db);
  }

  /** A second row, of the other samples but for one value, goes in without harm. */
  lemma SecondGoesIn(db: Db, t: Table, k: nat, j: nat, first: Row, second: Row)
    requires Integrity(db) && IsTable(db, t) && KeyAt(t, k) && IndexesApart(t) && j < |t.columns| && j != k
    requires !t.columns[j].unique && t.columns[j].datatype_ == t.columns[k].datatype_
    requires first == Filled(t, false, |t.columns|, Null)
    requires second == Filled(t, true, j, Sample(t.columns[k].datatype_, false)) && CanCreate(db, t.name, second)
    requires forall key :: key in db.rows && key.0 == t.name ==> db.rows[key] == first
    ensures var db' := CreateRow(db, t.name, second).value;
            Integrity(db') && db'.tables == db.tables
            && db'.rows == db.rows[(t.name, Sample(t.columns[k].datatype_, true)) := second]
  {
    forall i | 0 <= i < |second| ensures TypeFits(t.columns[i], second[i]) { SampleFits(t.columns[i], i != j); }
    ApartUniform(t, second);
    forall key, i: nat ensures NoTwin(db, t, second, key, i) {
      if i < |t.columns| { SamplesDiffer(t.columns[i].datatype_, t.columns[i].datatype_); }
    }
    forall i | 0 <= i < |second| && Same(second[i], second[k]) ensures second[i] == second[k] {
      SampleSame(t.columns[i].datatype_, i != j, t.columns[k].datatype_, true);
    }
    InsertUniform(db, t, second);
  }

  /** Samples that are equal are the same. */
  lemma SampleSame(d: DataType, b: bool, d': DataType, b': bool)
    requires Same(Sample(d, b), Sample(d', b'))
    ensures Sample(d, b) == Sample(d', b')
  {
  }

  /** The row that column j refers to can be deleted. */
  lemma Deletable(start: Db, t: Table, k: nat, j: nat, db: Db)
    requires Stage(start, t) && KeyAt(t, k) && j < |t.columns| && Referring(start, t, k, j, db)
    requires t.columns[j].references.Some? && FirstOf(t.columns, j) != j
    ensures CanDelete(db, t.columns[j].references.value, Sample(t.columns[j].datatype_, false))
  {
    forall key, i: nat ensures
      !Blocks(db, t.columns[j].references.value, Sample(t.columns[j].datatype_, false), key, i)
    {
      NotBlocked(start, t, k, j, db, key, i);
    }
    assert SchemaOk(start, t.name) && TargetOk(start, t.columns[j]);
  }

  lemma Dangles(start: Db, t: Table, k: nat, j: nat, db: Db, target: string, v: Value)
    requires Stage(start, t) && KeyAt(t, k) && j < |t.columns| && Referring(start, t, k, j, db) && Integrity(db)
    requires t.columns[j].references == Some(target) && v == Sample(t.columns[j].datatype_, false)
    requires CanDelete(db, target, v)
    ensures DeleteRow(db, target, v).Some? && !Integrity(DeleteRow(db, target, v).value)
  {
    var d := t.columns[k].datatype_;
    SamplesDiffer(d, t.columns[j].datatype_);
    DeleteShaped(db, target, v);
    SampleFits(t.columns[j], false);
    LeftDangling(t, j, (t.name, Sample(d, true)), DeleteRow(db, target, v).value);
  }

  lemma LeftDangling(t: Table, j: nat, key: RowKey, db: Db)
    requires IsTable(db, t) && key in db.rows && key.0 == t.name && j < |t.columns| == |db.rows[key]|
    requires t.columns[j].references.Some? && db.rows[key][j] != Null && !NotANumber(db.rows[key][j])
    requires (t.columns[j].references.value, db.rows[key][j]) !in db.rows
    ensures !Integrity(db)
  {
    assert HasRowAt(db, key, j);
    assert !ReferenceOk(db, key, j);
  }

  lemma NotBlocked(start: Db, t: Table, k: nat, j: nat, db: Db, key: RowKey, i: nat)
    requires Stage(start, t) && KeyAt(t, k) && j < |t.columns| && Referring(start, t, k, j, db)
    requires t.columns[j].references.Some? && FirstOf(t.columns, j) != j
    ensures !Blocks(db, t.columns[j].references.value, Sample(t.columns[j].datatype_, false), key, i)
  {
    if HasRowAt(db, key, i) {
      if key.0 == t.name {
        FirstIsFirst(t.columns, i);
        SamplesDiffer(t.columns[FirstOf(t.columns, i)].datatype_, t.columns[j].datatype_);
      }
    }
  }

  // ---- Floats ----

  const MINUS_ZERO := Float(SIGN_BIT)

  /** A row in which one zero became negative is valid where the row was. */
  lemma NegatedValid(start: Db, t: Table, k: nat, x: nat, db: Db, id: Value)
    requires Stage(start, t) && KeyAt(t, k) && x < |t.columns| && t.columns[x].datatype_ == FloatType
    requires Grown(start, t, db) && id == Sample(t.columns[k].datatype_, false)
    requires db.rows == start.rows[(t.name, id) := Filled(t, false, |t.columns|, Null)]
    ensures var row := Filled(t, false, x, MINUS_ZERO); SameKey(t, id, row) && RowValid(db, t, row)
  {
    var row := Filled(t, false, x, MINUS_ZERO);
    var pk := row[k];
    SampleFits(t.columns[k], false);
    forall i | 0 <= i < |row| ensures ValueValid(db, t, pk, t.columns[i], row[i]) {
      NegatedValue(start, t, k, x, db, id, i);
    }
  }

  lemma NegatedValue(start: Db, t: Table, k: nat, x: nat, db: Db, id: Value, i: nat)
    requires Stage(start, t) && KeyAt(t, k) && x < |t.columns| && t.columns[x].datatype_ == FloatType
    requires Grown(start, t, db) && id == Sample(t.columns[k].datatype_, false) && i < |t.columns|
    requires db.rows == start.rows[(t.name, id) := Filled(t, false, |t.columns|, Null)]
    ensures var row := Filled(t, false, x, MINUS_ZERO); ValueValid(db, t, row[k], t.columns[i], row[i])
  {
    var row, c := Filled(t, false, x, MINUS_ZERO), t.columns[i];
    assert SchemaOk(start, t.name) && TargetOk(start, c);
    SampleFits(c, false);
    assert RowOk(db, (t.name, id));
    if c.references.Some? && c.references.value != t.name {
      assert Offers(start, t, i, false) && SafeSchema(start.tables[c.references.value]);
    }
  }

  /** A float as the primary key: a row that changes the sign of a zero key stays where it
      is, so that reading does not find it. */
  lemma FloatKeyBreaks(start: Db, t: Table, k: nat) returns (rows: seq<Row>, db: Db, op: Operation)
    requires Stage(start, t) && KeyAt(t, k) && t.columns[k].datatype_ == FloatType
    ensures Breaks(start, t, rows, db, op)
  {
    var id, row := Sample(FloatType, false), Filled(t, false, k, MINUS_ZERO);
    rows, db := OneRowIn(start, t, k, |t.columns|, Null, false);
    NegatedValid(start, t, k, k, db, id);
    ReplaceIsPut(db, t, id, row);
    var db' := ReplaceRow(db, t, id, row).0;
    ReindexKeeps(db, t, OldRow(db, (t.name, id)), Some(row), id, |t.columns|, ("", "", Null));
    assert !KeyOk(db', (t.name, id));
    op := ChangeBreaks(start, t, rows, db, id, row);
  }

  /** A float that is indexed: changing the sign of a zero leaves the entry behind. */
  lemma FloatIndexBreaks(start: Db, t: Table, k: nat, x: nat) returns (rows: seq<Row>, db: Db, op: Operation)
    requires Stage(start, t) && KeyAt(t, k) && x < |t.columns| && x != k
    requires t.columns[x].datatype_ == FloatType && t.columns[x].index
    ensures Breaks(start, t, rows, db, op)
  {
    var id, row := Sample(t.columns[k].datatype_, false), Filled(t, false, x, MINUS_ZERO);
    rows, db := OneRowIn(start, t, k, |t.columns|, Null, false);
    NegatedValid(start, t, k, x, db, id);
    EntryLeftBehind(db, t, id, Filled(t, false, |t.columns|, Null), row, x);
    op := ChangeBreaks(start, t, rows, db, id, row);
  }

  /** A valid row whose indexed values are equal to those stored, but not all the same. */
  lemma EntryLeftBehind(db: Db, t: Table, id: Value, was: Row, row: Row, x: nat)
    requires Integrity(db) && IsTable(db, t) && (t.name, id) in db.rows && db.rows[(t.name, id)] == was
    requires SameKey(t, id, row) && RowValid(db, t, row) && x < |t.columns| && |row| == |was| == |t.columns|
    requires SameIndexed(t, was, row, |t.columns|) && t.columns[x].index && was[x] != row[x]
    ensures UpdateRow(db, t.name, id, row).1 == Done && !Integrity(UpdateRow(db, t.name, id, row).0)
  {
    ReplaceIsPut(db, t, id, row);
    ReindexSame(db, t, was, row, id, |t.columns|);
    assert RowOk(db, (t.name, id)) && SchemaOk(db, t.name);
    assert IndexOk(db, t.name, x, was[x], id);
    assert !IndexOk(ReplaceRow(db, t, id, row).0, t.name, x, was[x], id);
  }

  /** Every ordinary table without a safe schema loses integrity: rows go in, and then one
      more operation goes through that ends it. */
  lemma UnsafeBreaks(start: Db, t: Table) returns (rows: seq<Row>, db: Db, op: Operation)
    requires Stage(start, t) && Ordinary(t) && !SafeSchema(t)
    ensures Breaks(start, t, rows, db, op)
  {
    var k := FindKey(start, t);
    if t.columns[k].datatype_ == FloatType {
      rows, db, op := FloatKeyBreaks(start, t, k);
    } else if !SafeFloats(t) {
      var x :| 0 <= x < |t.columns| && t.columns[x].datatype_ == FloatType && t.columns[x].index;
      rows, db, op := FloatIndexBreaks(start, t, k, x);
    } else if !IndexesApart(t) {
      var i, j :| 0 <= i < j < |t.columns| && SharedIndex(t, i, j) && Overlap(t.columns[i], t.columns[j]);
      rows, db, op := SharedIndexBreaks(start, t, k, i, j);
    } else if !UniquesFirst(t) {
      var j :| 0 <= j < |t.columns| && t.columns[j].unique && !t.columns[j].primaryKey && FirstOf(t.columns, j) != j;
      rows, db, op := UniqueBreaks(start, t, k, j);
    } else {
      var j :| 0 <= j < |t.columns| && t.columns[j].references.Some? && FirstOf(t.columns, j) != j;
      rows, db, op := ReferenceBreaks(start, t, k, j);
    }
  }

  // ---- The condition is exact ----

  /** The table is in a store whose other tables have safe schemas. */
  ghost predicate AmongSafe(db: Db, t: Table) {
    IsTable(db, t) && forall n :: n in db.tables && n != t.name ==> SafeSchema(db.tables[n])
  }

  ghost predicate Keeps(db: Db, t: Table, op: Operation) {
    Integrity(db) && AmongSafe(db, t) && AddsSafe(op) && Perform(db, op).1 ==> Integrity(Perform(db, op).0)
  }

  lemma SafeKeeps(db: Db, t: Table, op: Operation)
    requires SafeSchema(t)
    ensures Keeps(db, t, op)
  {
    if Integrity(db) && AmongSafe(db, t) && AddsSafe(op) && Perform(db, op).1 {
      forall n | n in db.tables ensures SafeSchema(db.tables[n]) {
        assert n == t.name ==> db.tables[n] == t;
      }
      SafeStep(db, op);
    }
  }

  lemma UnsafeFails(base: Db, t: Table) returns (db: Db, op: Operation)
    requires Creatable(base, t) && Ordinary(t) && !SafeSchema(t)
    ensures !Keeps(db, t, op)
  {
    StartIsStage(base, t);
    var rows;
    rows, db, op := UnsafeBreaks(Start(base, t), t);
  }

  /** For an ordinary table, a safe schema is exactly what it takes for every operation that
      goes through, in every store with integrity, to keep it. */
  lemma SchemaSafeIff(base: Db, t: Table)
    requires Creatable(base, t) && Ordinary(t)
    ensures SafeSchema(t) <==> forall db, op :: Keeps(db, t, op)
  {
    if SafeSchema(t) {
      forall db, op ensures Keeps(db, t, op) {
        SafeKeeps(db, t, op);
      }
    } else {
      var db, op := UnsafeFails(base, t);
    }
  }

  // ---- Failing runs ----

  lemma {:induction false} InsertsRun(db: Db, name: string, rows: seq<Row>, db': Db, ops: seq<Operation>, db'': Db)
    returns (all: seq<Operation>)
    requires InsertsTo(db, name, rows, db') && Runs(db', ops, db'')
    ensures Runs(db, all, db'')
    decreases |rows|
  {
    if rows == [] {
      all := ops;
    } else {
      var rest := InsertsRun(CreateRow(db, name, rows[0]).value, name, rows[1..], db', ops, db'');
      all := [Insert(name, rows[0])] + rest;
      assert all[1..] == rest;
    }
  }

  const EMPTY := Db(map[], map[], map[])

  /** For an ordinary table without a safe schema that refers to no other table, a run from
      the empty store loses integrity, all its operations going through. */
  lemma FailingRun(t: Table) returns (ops: seq<Operation>, db: Db)
    requires TableValid(EMPTY, t) && Ordinary(t) && !SafeSchema(t)
    ensures Runs(EMPTY, ops, db) && !Integrity(db) && ops != [] && ops[0] == NewTable(t)
  {
    assert Shaped(EMPTY);
    assert Targets(t) == {} by {
      forall i | 0 <= i < |t.columns|
        ensures t.columns[i].references.Some? ==> t.columns[i].references.value == t.name
      {
        assert ColumnValid(EMPTY, t, t.columns[i]);
      }
    }
    assert Stubs(EMPTY, t) == EMPTY;
    StartIntegrity(EMPTY, t);
    StartIsStage(EMPTY, t);
    var rows, d, op := UnsafeBreaks(Start(EMPTY, t), t);
    db := Perform(d, op).0;
    assert [op][1..] == [];
    assert Runs(d, [op], db);
    var rest := InsertsRun(Start(EMPTY, t), t.name, rows, d, [op], db);
    ops := [NewTable(t)] + rest;
    assert ops[1..] == rest;
  }

  /** A table of a key and two more columns. */
  function Pair(key: DataType, second: Column, third: Column): Table {
    Table("t", [Column("id", key, true, false, None, true, None, false), second, third])
  }

  function Plain(name: string, d: DataType, unique: bool, references: Option<string>, index: bool): Column {
    Column(name, d, false, false, None, unique, references, index)
  }

  lemma PairIs(key: DataType, second: Column, third: Column)
    requires second.name == "a" && third.name in {"a", "b"} && !second.primaryKey && !third.primaryKey
    ensures var cs := Pair(key, second, third).columns;
            && KeyFrom(cs, 0) == Some(0) && FirstOf(cs, 0) == 0 && FirstOf(cs, 1) == 1
            && FirstOf(cs, 2) == if third.name == "a" then 1 else 2
  {
    var cs := Pair(key, second, third).columns;
    assert cs[0].name == "id" && cs[1].name == "a" && cs[2].name == third.name;
    assert "id"[0] != "a"[0] && |"id"| != |"b"| && "a"[0] != "b"[0];
  }

  lemma PairValid(key: DataType, second: Column, third: Column)
    requires second == Plain("a", second.datatype_, second.unique, None, second.index)
    requires third == Plain(third.name, third.datatype_, third.unique, third.references, third.index)
    requires third.name in {"a", "b"} && third.references in {None, Some("t")}
    requires third.references.Some? ==> !third.unique && third.datatype_ == key
    ensures TableValid(EMPTY, Pair(key, second, third)) && Ordinary(Pair(key, second, third))
  {
    var t := Pair(key, second, third);
    PairIs(key, second, third);
    assert ColumnValid(EMPTY, t, t.columns[0]);
    assert ColumnValid(EMPTY, t, second);
    assert ColumnValid(EMPTY, t, third);
    forall i | 0 <= i < |t.columns| ensures ColumnValid(EMPTY, t, t.columns[i]) {
      assert i == 0 || i == 1 || i == 2;
    }
  }

  /** The clauses of a safe schema, in order. */
  function Clauses(t: Table): seq<bool> {
    [IndexesApart(t), UniquesFirst(t), ReferencesFirst(t), NoFloatKey(t), NoFloatIndex(t)]
  }

  /** A table that creating accepts and that has a safe schema but for one clause. */
  ghost predicate OnlyFails(t: Table, n: nat) {
    TableValid(EMPTY, t) && Ordinary(t) && n < 5 && Clauses(t) == [true, true, true, true, true][n := false]
  }

  /** Each clause alone can fail: two indexes under one name, a unique column behind another
      of its name, a reference behind another, a float as the key, and a float indexed. */
  lemma EachClauseMatters(n: nat) returns (t: Table)
    requires n < 5
    ensures OnlyFails(t, n)
  {
    match n
    case 0 => t := Failing(IntegerType, "a", IntegerType, false, None, true, true, 0);
    case 1 => t := Failing(IntegerType, "a", IntegerType, true, None, false, false, 1);
    case 2 => t := Failing(IntegerType, "a", IntegerType, false, Some("t"), false, false, 2);
    case 3 => t := Failing(FloatType, "b", IntegerType, false, None, false, false, 3);
    case 4 => t := Failing(IntegerType, "b", FloatType, false, None, true, false, 4);
  }

  /** A table whose second column is an integer and perhaps indexed. */
  lemma Failing(key: DataType, name: string, d: DataType, unique: bool, references: Option<string>, index: bool,
                second: bool, n: nat)
    returns (t: Table)
    requires name in {"a", "b"} && references in {None, Some("t")} && (references.Some? ==> !unique && d == key)
    requires n < 5 && PairClauses(key, name, d, unique, references, index, second)
                      == [true, true, true, true, true][n := false]
    ensures OnlyFails(t, n)
  {
    var c2, c3 := Plain("a", IntegerType, false, None, second), Plain(name, d, unique, references, index);
    t := Pair(key, c2, c3);
    PairIs(key, c2, c3);
    PairValid(key, c2, c3);
    IndexClauses(key, c2, c3);
    OrderClauses(key, c2, c3);
  }

  /** What the clauses come down to for such a table. */
  function PairClauses(key: DataType, name: string, d: DataType, unique: bool, references: Option<string>, index: bool,
                       second: bool): seq<bool> {
    [!(name == "a" && d == IntegerType && index && second), !(name == "a" && unique),
     !(name == "a" && references.Some?), key != FloatType, !(d == FloatType && index)]
  }

  lemma IndexClauses(key: DataType, c2: Column, c3: Column)
    requires c2 == Plain("a", IntegerType, false, None, c2.index) && c3.name in {"a", "b"}
    requires c3 == Plain(c3.name, c3.datatype_, c3.unique, c3.references, c3.index)
    requires KeyFrom(Pair(key, c2, c3).columns, 0) == Some(0)
    ensures var t := Pair(key, c2, c3);
            && (IndexesApart(t) <==> !(c3.name == "a" && c3.datatype_ == IntegerType && c3.index && c2.index))
            && (NoFloatKey(t) <==> key != FloatType) && (NoFloatIndex(t) <==> !(c3.datatype_ == FloatType && c3.index))
  {
    var t := Pair(key, c2, c3);
    var cs := t.columns;
    assert |cs| == 3 && cs[1] == c2 && cs[2] == c3;
    assert cs[0].datatype_ == key && !cs[0].index;
    assert SharedIndex(t, 1, 2) <==> c2.index && c3.index && c3.name == "a";
    assert !SharedIndex(t, 0, 1) && !SharedIndex(t, 0, 2);
  }

  lemma OrderClauses(key: DataType, c2: Column, c3: Column)
    requires c2 == Plain("a", IntegerType, false, None, c2.index) && c3.name in {"a", "b"}
    requires c3 == Plain(c3.name, c3.datatype_, c3.unique, c3.references, c3.index)
    requires var cs := Pair(key, c2, c3).columns;
             && KeyFrom(cs, 0) == Some(0) && FirstOf(cs, 0) == 0 && FirstOf(cs, 1) == 1
             && FirstOf(cs, 2) == if c3.name == "a" then 1 else 2
    ensures var t := Pair(key, c2, c3);
            && (UniquesFirst(t) <==> !(c3.name == "a" && c3.unique))
            && (ReferencesFirst(t) <==> !(c3.name == "a" && c3.references.Some?))
  {
    var t := Pair(key, c2, c3);
    assert |t.columns| == 3 && t.columns[1] == c2 && t.columns[2] == c3;
    assert t.columns[0].primaryKey && t.columns[0].references.None?;
  }

  // ---- A refused update ----

  /** Every table with an index on a column other than the key can lose integrity to an
      update that is refused: a value of the wrong type moves the index entry first. */
  lemma RefusedUpdateBreaks(start: Db, t: Table, x: nat) returns (db: Db, id: Value, row: Row)
    requires Stage(start, t) && x < |t.columns| && t.columns[x].index && KeyFrom(t.columns, 0) != Some(x)
    ensures Integrity(db) && db.tables == start.tables
    ensures UpdateRow(db, t.name, id, row).1 == Refused && !Integrity(UpdateRow(db, t.name, id, row).0)
  {
    var k := FindKey(start, t);
    db := OneRow(start, t, k, |t.columns|, Null, false);
    var wrong := if t.columns[x].datatype_ == BooleanType then Integer(0) else Boolean(true);
    id, row := Sample(t.columns[k].datatype_, false), Filled(t, false, x, wrong);
    SampleFits(t.columns[k], false);
    forall i | 0 <= i < |t.columns| ensures !NotANumber(Sample(t.columns[i].datatype_, false)) {
      SampleFits(t.columns[i], false);
    }
    EntryMovedFirst(db, t, id, Filled(t, false, |t.columns|, Null), row, x);
  }

  /** A row with an indexed value that does not fit. */
  lemma EntryMovedFirst(db: Db, t: Table, id: Value, was: Row, row: Row, x: nat)
    requires Integrity(db) && IsTable(db, t) && (t.name, id) in db.rows && db.rows[(t.name, id)] == was
    requires SameKey(t, id, row) && x < |t.columns| && |row| == |was| == |t.columns| && t.columns[x].index
    requires !TypeFits(t.columns[x], row[x]) && forall i :: 0 <= i < |was| ==> !NotANumber(was[i])
    ensures UpdateRow(db, t.name, id, row).1 == Refused && !Integrity(UpdateRow(db, t.name, id, row).0)
  {
    assert RowOk(db, (t.name, id)) && SchemaOk(db, t.name) && TypeFits(t.columns[x], was[x]);
    assert !ValueValid(db, t, RowId(t, row).value, t.columns[x], row[x]);
    ReplaceIsPut(db, t, id, row);
    assert !Same(was[x], row[x]);
    assert !NothingMoves(db, t, id, row);
    RefusedReplace(db, t, id, row);
  }
}
