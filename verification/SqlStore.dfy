/** The relational store: tables, rows and secondary indexes in one transaction's
    key/value view, with the constraints that every successful change keeps. */
module SqlStore {
  import opened Basics
  import opened SqlExpression

  datatype DataType = BooleanType | IntegerType | FloatType | StringType

  datatype Column = Column(
    name: string, datatype_: DataType, primaryKey: bool, nullable: bool, default: Option<Value>,
    unique: bool, references: Option<string>, index: bool)

  datatype Table = Table(name: string, columns: seq<Column>)

  type RowKey = (string, Value)
  type IndexKey = (string, string, Value)

  /** The three kinds of keys: table schemas by name, rows by table and primary
      key, and index entries by table, column and value. */
  datatype Db = Db(tables: map<string, Table>, rows: map<RowKey, Row>, indexes: map<IndexKey, set<Value>>)

  const MAX_STRING := 1024

  /** The length of a string in UTF-8. */
  function Utf8Size(s: string): nat {
    if s == [] then 0 else CharSize(s[0] as int) + Utf8Size(s[1..])
  }

  function CharSize(code: int): nat {
    if code < 0x80 then 1 else if code < 0x800 then 2 else if code < 0x1_0000 then 3 else 4
  }

  /** How many characters have at least a code. */
  function AtLeast(s: string, code: int): nat {
    if s == [] then 0 else (if s[0] as int >= code then 1 else 0) + AtLeast(s[1..], code)
  }

  /** Every character takes a byte, and one more from each of three codes on. So a string of
      ASCII characters fits if and only if it has no more than 1024 of them. */
  lemma {:induction false} Utf8Sizes(s: string)
    ensures Utf8Size(s) == |s| + AtLeast(s, 0x80) + AtLeast(s, 0x800) + AtLeast(s, 0x1_0000)
    ensures AtLeast(s, 0x80) == 0 ==> (Utf8Size(s) <= MAX_STRING <==> |s| <= 1024)
    ensures AtLeast(s, 0x800) <= AtLeast(s, 0x80) && AtLeast(s, 0x1_0000) <= AtLeast(s, 0x800)
  {
    if s != [] {
      Utf8Sizes(s[1..]);
    }
  }

  predicate NotANumber(v: Value) {
    v.Float? && IsNaN(v.bits)
  }

  function TypeOf(v: Value): Option<DataType> {
    match v
    case Null => None
    case Boolean(_) => Some(BooleanType)
    case Integer(_) => Some(IntegerType)
    case Float(_) => Some(FloatType)
    case String(_) => Some(StringType)
  }

  /** The position of the first column from i on that is the primary key. */
  function KeyFrom(cs: seq<Column>, i: nat): (r: Option<nat>)
    requires i <= |cs|
    ensures r.Some? ==> i <= r.value < |cs| && cs[r.value].primaryKey
    ensures r.Some? ==> forall j :: i <= j < r.value ==> !cs[j].primaryKey
    ensures r.None? ==> forall j :: i <= j < |cs| ==> !cs[j].primaryKey
    decreases |cs| - i
  {
    if i == |cs| then None else if cs[i].primaryKey then Some(i) else KeyFrom(cs, i + 1)
  }

  /** The primary key value of a row. */
  function RowId(t: Table, row: Row): Option<Value> {
    var k := KeyFrom(t.columns, 0);
    if k.Some? && k.value < |row| then Some(row[k.value]) else None
  }

  /** The first column of a name. */
  function NamedFrom(cs: seq<Column>, name: string, i: nat): (r: Option<nat>)
    requires i <= |cs|
    ensures r.Some? ==> i <= r.value < |cs| && cs[r.value].name == name
    ensures r.Some? ==> forall j :: i <= j < r.value ==> cs[j].name != name
    ensures r.None? ==> forall j :: i <= j < |cs| ==> cs[j].name != name
    decreases |cs| - i
  {
    if i == |cs| then None else if cs[i].name == name then Some(i) else NamedFrom(cs, name, i + 1)
  }

  /** The first column with the name of the i-th. */
  function FirstOf(cs: seq<Column>, i: nat): (j: nat)
    requires i < |cs|
    ensures j <= i && cs[j].name == cs[i].name && NamedFrom(cs, cs[i].name, 0) == Some(j)
    ensures forall k :: 0 <= k < j ==> cs[k].name != cs[i].name
  {
    NamedFrom(cs, cs[i].name, 0).value
  }

  function Entry(db: Db, table: string, column: string, v: Value): set<Value> {
    if (table, column, v) in db.indexes then db.indexes[(table, column, v)] else {}
  }

  // ---- Validity of values and rows ----

  /** A value of the column's type, or null where it may be. */
  predicate CanHold(c: Column, v: Value) {
    match TypeOf(v) case None => c.nullable case Some(d) => d == c.datatype_
  }

  predicate TypeFits(c: Column, v: Value) {
    CanHold(c, v) && (v.String? ==> Utf8Size(v.s) <= MAX_STRING)
  }

  predicate FitsTable(t: Table, row: Row) {
    |row| == |t.columns| && forall i :: 0 <= i < |row| ==> TypeFits(t.columns[i], row[i])
  }

  /** A reference that is null or not a number, to what seems the row itself, or to an
      existing row. */
  predicate RefersOk(db: Db, t: Table, pk: Value, c: Column, v: Value) {
    c.references.Some? ==>
      || v == Null || NotANumber(v) || (c.references.value == t.name && Same(v, pk))
      || (c.references.value, v) in db.rows
  }

  /** Another row of the table has a value at a position. */
  predicate Takes(db: Db, t: Table, pk: Value, i: nat, v: Value, k: RowKey) {
    && k in db.rows && k.0 == t.name && i < |db.rows[k]| && Same(db.rows[k][i], v)
    && (RowId(t, db.rows[k]).Some? ==> !Same(RowId(t, db.rows[k]).value, pk))
  }

  /** No other row of the table has a value, at the column's first position. */
  predicate NotTaken(db: Db, t: Table, pk: Value, c: Column, v: Value) {
    c.unique && !c.primaryKey && v != Null ==>
      var i := NamedFrom(t.columns, c.name, 0);
      i.Some? && forall k :: k in db.rows ==> !Takes(db, t, pk, i.value, v, k)
  }

  predicate ValueValid(db: Db, t: Table, pk: Value, c: Column, v: Value) {
    TypeFits(c, v) && RefersOk(db, t, pk, c, v) && NotTaken(db, t, pk, c, v)
  }

  predicate RowValid(db: Db, t: Table, row: Row) {
    && |row| == |t.columns| && RowId(t, row).Some?
    && forall i :: 0 <= i < |row| ==> ValueValid(db, t, RowId(t, row).value, t.columns[i], row[i])
  }

  // ---- Integrity ----

  /** A table has one primary key, its defaults fit, and its references have a target. */
  ghost predicate SchemaOk(db: Db, name: string) {
    name in db.tables ==>
      var t := db.tables[name];
      && t.name == name && KeyFrom(t.columns, 0).Some? && !t.columns[KeyFrom(t.columns, 0).value].nullable
      && (forall i :: 0 <= i < |t.columns| && t.columns[i].primaryKey ==> KeyFrom(t.columns, 0) == Some(i))
      && (forall i :: 0 <= i < |t.columns| ==> DefaultOk(t.columns[i]))
      && forall i :: 0 <= i < |t.columns| ==> TargetOk(db, t.columns[i])
  }

  /** A default can be held, a column without one is never null, and a primary key is unique. */
  ghost predicate DefaultOk(c: Column) {
    && (c.default.Some? ==> CanHold(c, c.default.value))
    && (c.default.None? ==> !c.nullable)
    && (c.primaryKey ==> c.unique)
  }

  /** A reference names a table whose primary key has the column's type. */
  ghost predicate TargetOk(db: Db, c: Column) {
    c.references.Some? ==>
      && c.references.value in db.tables
      && var target := db.tables[c.references.value];
         var k := KeyFrom(target.columns, 0);
         k.Some? && target.columns[k.value].datatype_ == c.datatype_
  }

  /** Types, not-null, and the row sits under what the program takes for its primary key. */
  ghost predicate RowOk(db: Db, k: RowKey) {
    k in db.rows ==>
      && k.0 in db.tables && FitsTable(db.tables[k.0], db.rows[k])
      && var id := RowId(db.tables[k.0], db.rows[k]); id == Some(k.1) || (id.Some? && Same(k.1, id.value))
  }

  /** The row sits under its own primary key, so that reading finds it. */
  ghost predicate KeyOk(db: Db, k: RowKey) {
    k in db.rows && k.0 in db.tables ==> RowId(db.tables[k.0], db.rows[k]) == Some(k.1)
  }

  ghost predicate HasRowAt(db: Db, k: RowKey, i: nat) {
    k in db.rows && k.0 in db.tables && i < |db.tables[k.0].columns| && i < |db.rows[k]|
  }

  ghost predicate ReferenceOk(db: Db, k: RowKey, i: nat) {
    HasRowAt(db, k, i) && db.tables[k.0].columns[i].references.Some? ==>
      || db.rows[k][i] == Null || NotANumber(db.rows[k][i])
      || (db.tables[k.0].columns[i].references.value, db.rows[k][i]) in db.rows
  }

  /** No two rows have values that are equal, other than null. */
  ghost predicate UniqueOk(db: Db, k: RowKey, k': RowKey, i: nat) {
    && HasRowAt(db, k, i) && HasRowAt(db, k', i) && k.0 == k'.0
    && db.tables[k.0].columns[i].unique && !db.tables[k.0].columns[i].primaryKey
    && Same(db.rows[k][i], db.rows[k'][i]) && db.rows[k][i] != Null
    ==> k == k'
  }

  /** An index entry lists exactly the rows with the value, for the values that the
      column can hold. */
  ghost predicate IndexOk(db: Db, table: string, i: nat, v: Value, id: Value) {
    && table in db.tables && i < |db.tables[table].columns| && db.tables[table].columns[i].index
    && CanHold(db.tables[table].columns[i], v) ==>
      (id in Entry(db, table, db.tables[table].columns[i].name, v) <==>
       (table, id) in db.rows && i < |db.rows[(table, id)]| && db.rows[(table, id)][i] == v)
  }

  /** Every stored index entry is non-empty and belongs to an indexed column that can
      hold its value. */
  ghost predicate EntryOk(db: Db, ik: IndexKey) {
    ik in db.indexes ==> db.indexes[ik] != {} && ik.0 in db.tables && HasIndex(db.tables[ik.0], ik.1, ik.2)
  }

  ghost predicate HasIndex(t: Table, name: string, v: Value) {
    exists i :: 0 <= i < |t.columns| && t.columns[i].index && t.columns[i].name == name && CanHold(t.columns[i], v)
  }

  /** Schemas and rows are well-formed. Everything keeps this. */
  ghost predicate Shaped(db: Db) {
    (forall name :: SchemaOk(db, name)) && forall k :: RowOk(db, k)
  }

  /** The tables and rows satisfy all constraints. */
  ghost predicate Constrained(db: Db) {
    && Shaped(db)
    && (forall k :: KeyOk(db, k))
    && (forall k, i :: ReferenceOk(db, k, i))
    && (forall k, k', i :: UniqueOk(db, k, k', i))
  }

  /** And the index entries are right. */
  ghost predicate Integrity(db: Db) {
    && Constrained(db)
    && (forall table, i, v, id :: IndexOk(db, table, i, v, id))
    && (forall ik :: EntryOk(db, ik))
  }

  // ---- Shared column names ----

  /** Some value fits both columns. */
  predicate Overlap(c: Column, d: Column) {
    c.datatype_ == d.datatype_ || (c.nullable && d.nullable)
  }

  /** Two columns are indexed under the same name. */
  predicate SharedIndex(t: Table, i: nat, j: nat) {
    i < |t.columns| && j < |t.columns| && t.columns[i].index && t.columns[j].index
    && t.columns[i].name == t.columns[j].name
  }

  /** No two indexed columns share a name and a possible value. */
  predicate IndexesApart(t: Table) {
    forall i, j :: 0 <= i < j < |t.columns| && SharedIndex(t, i, j) ==> !Overlap(t.columns[i], t.columns[j])
  }

  /** A unique column is the first of its name. */
  predicate UniquesFirst(t: Table) {
    forall i :: 0 <= i < |t.columns| && t.columns[i].unique && !t.columns[i].primaryKey ==> FirstOf(t.columns, i) == i
  }

  /** A referring column is the first of its name. */
  predicate ReferencesFirst(t: Table) {
    forall i :: 0 <= i < |t.columns| && t.columns[i].references.Some? ==> FirstOf(t.columns, i) == i
  }

  /** The column names of a table do no harm. The program does not check this. */
  predicate SafeNames(t: Table) {
    IndexesApart(t) && UniquesFirst(t) && ReferencesFirst(t)
  }

  predicate NoFloatKey(t: Table) {
    forall i :: 0 <= i < |t.columns| && t.columns[i].datatype_ == FloatType ==> KeyFrom(t.columns, 0) != Some(i)
  }

  predicate NoFloatIndex(t: Table) {
    forall i :: 0 <= i < |t.columns| && t.columns[i].datatype_ == FloatType ==> !t.columns[i].index
  }

  /** No float is the primary key, or indexed: rows and index entries are stored by the bits
      of a value, but compared as values. The program does not check this either. */
  predicate SafeFloats(t: Table) {
    NoFloatKey(t) && NoFloatIndex(t)
  }

  predicate SafeSchema(t: Table) {
    SafeNames(t) && SafeFloats(t)
  }

  ghost predicate Safe(db: Db) {
    forall name :: name in db.tables ==> SafeSchema(db.tables[name])
  }

  /** Of the values of a column without floats, only the same ones are equal. */
  lemma SameTyped(c: Column, v: Value, w: Value)
    requires c.datatype_ != FloatType && CanHold(c, v)
    ensures (Same(v, w) <==> v == w) && (Same(w, v) <==> v == w) && !NotANumber(v)
  {
  }

  // ---- Index updates ----

  /** Stores an index entry, or removes it when it is empty. */
  function SaveEntry(db: Db, ik: IndexKey, ids: set<Value>): Db {
    db.(indexes := if ids == {} then db.indexes - {ik} else db.indexes[ik := ids])
  }

  function AddTo(db: Db, table: string, column: string, v: Value, id: Value): Db {
    SaveEntry(db, (table, column, v), Entry(db, table, column, v) + {id})
  }

  function RemoveFrom(db: Db, table: string, column: string, v: Value, id: Value): Db {
    SaveEntry(db, (table, column, v), Entry(db, table, column, v) - {id})
  }

  lemma SaveEntryMeans(db: Db, ik: IndexKey, ids: set<Value>, table: string, column: string, v: Value)
    ensures Entry(SaveEntry(db, ik, ids), table, column, v) ==
              if (table, column, v) == ik then ids else Entry(db, table, column, v)
    ensures SaveEntry(db, ik, ids).tables == db.tables && SaveEntry(db, ik, ids).rows == db.rows
  {
  }

  /** A row that is absent or has at least n values. */
  predicate Reaches(row: Option<Row>, n: nat) {
    row.Some? ==> n <= |row.value|
  }

  /** Moves a row's id between index entries, for the first n columns: out of those of
      its old values and into those of its new ones, where they are not equal. */
  function Reindex(db: Db, t: Table, old_: Option<Row>, new_: Option<Row>, id: Value, n: nat): Db
    requires n <= |t.columns| && Reaches(old_, n) && Reaches(new_, n)
  {
    if n == 0 then db
    else
      var d, c, i := Reindex(db, t, old_, new_, id, n - 1), t.columns[n - 1], n - 1;
      if !c.index || (old_.Some? && new_.Some? && Same(old_.value[i], new_.value[i])) then d
      else Moved(d, t, At(old_, i), At(new_, i), id, c.name)
  }

  function At(row: Option<Row>, i: nat): Option<Value>
    requires Reaches(row, i + 1)
  {
    if row.Some? then Some(row.value[i]) else None
  }

  /** One column's move of an id from the entry of a value to that of another. */
  function Moved(d: Db, t: Table, from: Option<Value>, to: Option<Value>, id: Value, name: string): Db {
    var d1 := if from.Some? then RemoveFrom(d, t.name, name, from.value, id) else d;
    if to.Some? then AddTo(d1, t.name, name, to.value, id) else d1
  }

  /** An indexed column of the new row has the entry's name and value. */
  ghost predicate Gains(t: Table, new_: Option<Row>, ik: IndexKey) {
    exists i :: 0 <= i < |t.columns| && t.columns[i].index && t.columns[i].name == ik.1
                && new_.Some? && i < |new_.value| && new_.value[i] == ik.2
  }

  /** What changing one table's index entries keeps. */
  ghost predicate KeptAt(db: Db, d: Db, t: Table, new_: Option<Row>, ik: IndexKey) {
    && (ik.0 != t.name ==>
          (ik in d.indexes <==> ik in db.indexes) && (ik in d.indexes ==> d.indexes[ik] == db.indexes[ik]))
    && (ik in d.indexes ==>
          && (ik in db.indexes || (ik.0 == t.name && Gains(t, new_, ik)))
          && (d.indexes[ik] != {} || (ik in db.indexes && db.indexes[ik] == {})))
  }

  lemma {:induction false} ReindexKeeps(db: Db, t: Table, old_: Option<Row>, new_: Option<Row>, id: Value, n: nat,
                                        ik: IndexKey)
    requires n <= |t.columns| && Reaches(old_, n) && Reaches(new_, n)
    ensures var d := Reindex(db, t, old_, new_, id, n);
            d.tables == db.tables && d.rows == db.rows && KeptAt(db, d, t, new_, ik)
  {
    if n > 0 {
      ReindexKeeps(db, t, old_, new_, id, n - 1, ik);
      var d, c, i := Reindex(db, t, old_, new_, id, n - 1), t.columns[n - 1], n - 1;
      if c.index {
        var d1 := if old_.Some? then RemoveFrom(d, t.name, c.name, old_.value[i], id) else d;
        if old_.Some? {
          FewerKept(db, d, t, new_, (t.name, c.name, old_.value[i]), id, ik);
        }
        if new_.Some? {
          assert Gains(t, new_, (t.name, c.name, new_.value[i]));
          MoreKept(db, d1, t, new_, (t.name, c.name, new_.value[i]), id, ik);
        }
      }
    }
  }

  lemma FewerKept(db: Db, d: Db, t: Table, new_: Option<Row>, at: IndexKey, id: Value, ik: IndexKey)
    requires KeptAt(db, d, t, new_, ik) && at.0 == t.name
    ensures KeptAt(db, RemoveFrom(d, t.name, at.1, at.2, id), t, new_, ik)
  {
  }

  lemma MoreKept(db: Db, d: Db, t: Table, new_: Option<Row>, at: IndexKey, id: Value, ik: IndexKey)
    requires KeptAt(db, d, t, new_, ik) && at.0 == t.name && Gains(t, new_, at)
    ensures KeptAt(db, AddTo(d, t.name, at.1, at.2, id), t, new_, ik)
  {
  }

  /** No other indexed column of the name holds the value. */
  ghost predicate OnlyHolder(t: Table, row: Option<Row>, i: nat, v: Value)
    requires i < |t.columns|
  {
    forall j: nat :: SharedIndex(t, i, j) && j != i && row.Some? && j < |row.value| ==> row.value[j] != v
  }

  lemma ApartOnly(t: Table, row: Row, i: nat, v: Value)
    requires IndexesApart(t) && FitsTable(t, row) && i < |t.columns| && t.columns[i].index && CanHold(t.columns[i], v)
    ensures OnlyHolder(t, Some(row), i, v)
  {
    forall j: nat | SharedIndex(t, i, j) && j != i ensures row[j] != v {
      assert TypeFits(t.columns[j], row[j]);
      assert SharedIndex(t, j, i);
      assert i < j ==> !Overlap(t.columns[i], t.columns[j]);
      assert j < i ==> !Overlap(t.columns[j], t.columns[i]);
    }
  }

  /** The id is in the entries of the old row before, of the new row after. */
  ghost predicate OldIndexed(db: Db, t: Table, old_: Option<Row>, id: Value, i: nat, v: Value)
    requires i < |t.columns|
  {
    id in Entry(db, t.name, t.columns[i].name, v) <==> old_.Some? && i < |old_.value| && old_.value[i] == v
  }

  /** Indexed values that are equal are the same. */
  ghost predicate Steady(t: Table, old_: Option<Row>, new_: Option<Row>) {
    old_.Some? && new_.Some? ==>
      forall i :: 0 <= i < |t.columns| && t.columns[i].index && i < |old_.value| && i < |new_.value| ==>
        Same(old_.value[i], new_.value[i]) ==> old_.value[i] == new_.value[i]
  }

  lemma SafeSteady(t: Table, old_: Option<Row>, new_: Option<Row>)
    requires SafeFloats(t) && (old_.Some? ==> FitsTable(t, old_.value))
    ensures Steady(t, old_, new_)
  {
  }

  lemma {:induction false} ReindexMeans(db: Db, t: Table, old_: Option<Row>, new_: Option<Row>, id: Value, n: nat,
                                        i: nat, v: Value, x: Value)
    requires n <= |t.columns| && i < |t.columns| && t.columns[i].index
    requires Reaches(old_, |t.columns|) && Reaches(new_, |t.columns|)
    requires OldIndexed(db, t, old_, id, i, v) && OnlyHolder(t, old_, i, v) && OnlyHolder(t, new_, i, v)
    requires Steady(t, old_, new_)
    ensures var here := x in Entry(Reindex(db, t, old_, new_, id, n), t.name, t.columns[i].name, v);
            if x != id then here <==> x in Entry(db, t.name, t.columns[i].name, v)
            else if i < n then here <==> new_.Some? && new_.value[i] == v
            else here <==> old_.Some? && old_.value[i] == v
  {
    if n > 0 {
      var j := n - 1;
      ReindexMeans(db, t, old_, new_, id, j, i, v, x);
      assert SharedIndex(t, i, j) <==> t.columns[j].index && t.columns[j].name == t.columns[i].name;
      var d := Reindex(db, t, old_, new_, id, j);
      ColumnMeans(d, t, At(old_, j), At(new_, j), id, t.columns[j].name, t.columns[i].name, v, x);
    }
  }

  lemma ColumnMeans(d: Db, t: Table, from: Option<Value>, to: Option<Value>, id: Value, name: string, column: string,
                    v: Value, x: Value)
    ensures x in Entry(Moved(d, t, from, to, id, name), t.name, column, v) <==>
              if x == id && column == name && to == Some(v) then true
              else if x == id && column == name && from == Some(v) then false
              else x in Entry(d, t.name, column, v)
  {
    var d1 := if from.Some? then RemoveFrom(d, t.name, name, from.value, id) else d;
    if from.Some? {
      SaveEntryMeans(d, (t.name, name, from.value), Entry(d, t.name, name, from.value) - {id}, t.name, column, v);
    }
    if to.Some? {
      SaveEntryMeans(d1, (t.name, name, to.value), Entry(d1, t.name, name, to.value) + {id}, t.name, column, v);
    }
  }

  /** A new row's id goes into the entries of all its values, by name. */
  lemma {:induction false} AddedMeans(db: Db, t: Table, row: Row, id: Value, n: nat, name: string, v: Value)
    requires n <= |t.columns| && n <= |row|
    ensures Entry(Reindex(db, t, None, Some(row), id, n), t.name, name, v) ==
              Entry(db, t.name, name, v) + if HasValue(t, row, n, name, v) then {id} else {}
  {
    if n > 0 {
      AddedMeans(db, t, row, id, n - 1, name, v);
      var d, c := Reindex(db, t, None, Some(row), id, n - 1), t.columns[n - 1];
      SaveEntryMeans(d, (t.name, c.name, row[n - 1]), Entry(d, t.name, c.name, row[n - 1]) + {id}, t.name, name, v);
      assert HasValue(t, row, n, name, v) <==>
               HasValue(t, row, n - 1, name, v) || (c.index && c.name == name && row[n - 1] == v);
    }
  }

  ghost predicate HasValue(t: Table, row: Row, n: nat, name: string, v: Value)
    requires n <= |t.columns| && n <= |row|
  {
    exists i :: 0 <= i < n && t.columns[i].index && t.columns[i].name == name && row[i] == v
  }

  // ---- Storing and deleting rows ----

  function OldRow(db: Db, k: RowKey): Option<Row> {
    if k in db.rows then Some(db.rows[k]) else None
  }

  /** Stores a row and brings its index entries up to date. */
  function PutRow(db: Db, t: Table, id: Value, row: Row): Db
    requires |row| == |t.columns| && ((t.name, id) in db.rows ==> |db.rows[(t.name, id)]| == |t.columns|)
  {
    var d := Reindex(db, t, OldRow(db, (t.name, id)), Some(row), id, |t.columns|);
    d.(rows := db.rows[(t.name, id) := row])
  }

  function DropRow(db: Db, t: Table, id: Value): Db
    requires (t.name, id) in db.rows ==> |db.rows[(t.name, id)]| == |t.columns|
  {
    var d := Reindex(db, t, OldRow(db, (t.name, id)), None, id, |t.columns|);
    d.(rows := db.rows - {(t.name, id)})
  }

  ghost predicate IsTable(db: Db, t: Table) {
    t.name in db.tables && db.tables[t.name] == t
  }

  /** The index entries after one row of a table changed. */
  lemma ChangedIndexOk(db: Db, t: Table, id: Value, new_: Option<Row>, db': Db, table: string, i: nat, v: Value,
                       x: Value)
    requires Integrity(db) && IsTable(db, t) && IndexesApart(t) && (new_.Some? ==> FitsTable(t, new_.value))
    requires Steady(t, OldRow(db, (t.name, id)), new_)
    requires (t.name, id) in db.rows ==> |db.rows[(t.name, id)]| == |t.columns|
    requires db' == Reindex(db, t, OldRow(db, (t.name, id)), new_, id, |t.columns|).(
                      rows := if new_.Some? then db.rows[(t.name, id) := new_.value] else db.rows - {(t.name, id)})
    ensures IndexOk(db', table, i, v, x)
  {
    assert IndexOk(db, table, i, v, x) && IndexOk(db, table, i, v, id) && RowOk(db, (t.name, id));
    if table == t.name {
      OwnIndexOk(db, t, id, new_, db', i, v, x);
    } else {
      OtherIndexOk(db, t, id, new_, db', table, i, v, x);
    }
  }

  lemma OtherIndexOk(db: Db, t: Table, id: Value, new_: Option<Row>, db': Db, table: string, i: nat, v: Value, x: Value)
    requires IsTable(db, t) && Reaches(OldRow(db, (t.name, id)), |t.columns|) && Reaches(new_, |t.columns|)
    requires db' == Reindex(db, t, OldRow(db, (t.name, id)), new_, id, |t.columns|).(
                      rows := if new_.Some? then db.rows[(t.name, id) := new_.value] else db.rows - {(t.name, id)})
    requires table != t.name && IndexOk(db, table, i, v, x)
    ensures IndexOk(db', table, i, v, x)
  {
    var name := if table in db.tables && i < |db.tables[table].columns| then db.tables[table].columns[i].name else "";
    ReindexKeeps(db, t, OldRow(db, (t.name, id)), new_, id, |t.columns|, (table, name, v));
    assert Entry(db', table, name, v) == Entry(db, table, name, v);
  }

  lemma OwnIndexOk(db: Db, t: Table, id: Value, new_: Option<Row>, db': Db, i: nat, v: Value, x: Value)
    requires IsTable(db, t) && IndexesApart(t) && (new_.Some? ==> FitsTable(t, new_.value)) && RowOk(db, (t.name, id))
    requires db' == Reindex(db, t, OldRow(db, (t.name, id)), new_, id, |t.columns|).(
                      rows := if new_.Some? then db.rows[(t.name, id) := new_.value] else db.rows - {(t.name, id)})
    requires IndexOk(db, t.name, i, v, x) && IndexOk(db, t.name, i, v, id) && Steady(t, OldRow(db, (t.name, id)), new_)
    ensures IndexOk(db', t.name, i, v, x)
  {
    var old_ := OldRow(db, (t.name, id));
    ReindexKeeps(db, t, old_, new_, id, |t.columns|, ("", "", Null));
    if i < |t.columns| && t.columns[i].index && CanHold(t.columns[i], v) {
      MovedIndex(db, t, id, old_, new_, i, v, x);
    }
  }

  lemma MovedIndex(db: Db, t: Table, id: Value, old_: Option<Row>, new_: Option<Row>, i: nat, v: Value, x: Value)
    requires IndexesApart(t) && (old_.Some? ==> FitsTable(t, old_.value)) && (new_.Some? ==> FitsTable(t, new_.value))
    requires i < |t.columns| && t.columns[i].index && CanHold(t.columns[i], v) && OldIndexed(db, t, old_, id, i, v)
    requires Steady(t, old_, new_)
    ensures var here := x in Entry(Reindex(db, t, old_, new_, id, |t.columns|), t.name, t.columns[i].name, v);
            if x != id then here <==> x in Entry(db, t.name, t.columns[i].name, v)
            else here <==> new_.Some? && new_.value[i] == v
  {
    if old_.Some? { ApartOnly(t, old_.value, i, v); }
    if new_.Some? { ApartOnly(t, new_.value, i, v); }
    ReindexMeans(db, t, old_, new_, id, |t.columns|, i, v, x);
  }

  lemma ChangedEntryOk(db: Db, t: Table, id: Value, new_: Option<Row>, db': Db, ik: IndexKey)
    requires Integrity(db) && IsTable(db, t) && (new_.Some? ==> FitsTable(t, new_.value))
    requires (t.name, id) in db.rows ==> |db.rows[(t.name, id)]| == |t.columns|
    requires db'.tables == db.tables
             && db'.indexes == Reindex(db, t, OldRow(db, (t.name, id)), new_, id, |t.columns|).indexes
    ensures EntryOk(db', ik)
  {
    assert EntryOk(db, ik);
    ReindexKeeps(db, t, OldRow(db, (t.name, id)), new_, id, |t.columns|, ik);
    if Gains(t, new_, ik) {
      var i :| 0 <= i < |t.columns| && t.columns[i].index && t.columns[i].name == ik.1
               && new_.Some? && i < |new_.value| && new_.value[i] == ik.2;
      assert TypeFits(t.columns[i], new_.value[i]);
      assert HasIndex(t, ik.1, ik.2);
    }
  }

  /** A row that another one does not clash with. */
  ghost predicate NoTwin(db: Db, t: Table, row: Row, k: RowKey, i: nat) {
    k in db.rows && k.0 == t.name && i < |t.columns| && i < |row| && i < |db.rows[k]| ==>
      t.columns[i].unique && !t.columns[i].primaryKey && row[i] != Null ==>
        !Same(db.rows[k][i], row[i]) && !Same(row[i], db.rows[k][i])
  }

  /** A reference that is null or not a number, to the row itself, or to another row. */
  ghost predicate Refers(db: Db, t: Table, pk: Value, c: Column, v: Value) {
    c.references.Some? ==>
      || v == Null || NotANumber(v) || (c.references.value == t.name && v == pk)
      || (c.references.value, v) in db.rows
  }

  /** Storing a row keeps integrity if it fits, refers to rows, clashes with no other
      row, and its index entries come out right. */
  lemma PutKeeps(db: Db, t: Table, id: Value, row: Row, db': Db)
    requires Integrity(db) && IsTable(db, t) && FitsTable(t, row) && RowId(t, row) == Some(id)
    requires (t.name, id) in db.rows ==> |db.rows[(t.name, id)]| == |t.columns|
    requires forall i :: 0 <= i < |row| ==> Refers(db, t, id, t.columns[i], row[i])
    requires forall k, i :: k != (t.name, id) ==> NoTwin(db, t, row, k, i)
    requires db' == PutRow(db, t, id, row) && forall table, i, v, x :: IndexOk(db', table, i, v, x)
    ensures Integrity(db') && db'.tables == db.tables && db'.rows == db.rows[(t.name, id) := row]
  {
    var key := (t.name, id);
    ReindexKeeps(db, t, OldRow(db, key), Some(row), id, |t.columns|, ("", "", Null));
    forall name ensures SchemaOk(db', name) { assert SchemaOk(db, name); }
    forall k ensures RowOk(db', k) && KeyOk(db', k) { assert RowOk(db, k) && KeyOk(db, k); }
    forall k, i: nat ensures ReferenceOk(db', k, i) {
      assert ReferenceOk(db, k, i);
      if k == key && i < |row| {
        assert Refers(db, t, id, t.columns[i], row[i]);
      }
    }
    forall k, k', i ensures UniqueOk(db', k, k', i) {
      assert UniqueOk(db, k, k', i);
      assert k' != key ==> NoTwin(db, t, row, k', i);
      assert k != key ==> NoTwin(db, t, row, k, i);
    }
    forall ik ensures EntryOk(db', ik) { ChangedEntryOk(db, t, id, Some(row), db', ik); }
  }

  /** The primary key of a safe table is no float. */
  lemma SafeKey(db: Db, t: Table, v: Value, w: Value)
    requires SchemaOk(db, t.name) && IsTable(db, t) && SafeFloats(t)
    requires CanHold(t.columns[KeyFrom(t.columns, 0).value], v)
    ensures (Same(v, w) <==> v == w) && (Same(w, v) <==> v == w) && !NotANumber(v)
  {
    SameTyped(t.columns[KeyFrom(t.columns, 0).value], v, w);
  }

  /** Where the schema is safe, the check for duplicates finds all. */
  lemma ValidHasNoTwin(db: Db, t: Table, id: Value, row: Row, k: RowKey, i: nat)
    requires Shaped(db) && KeyOk(db, k) && IsTable(db, t) && SafeSchema(t)
    requires RowValid(db, t, row) && RowId(t, row) == Some(id) && k != (t.name, id)
    ensures NoTwin(db, t, row, k, i)
  {
    assert RowOk(db, k) && SchemaOk(db, t.name);
    if k in db.rows && k.0 == t.name { SafeKey(db, t, k.1, id); }
    if i < |t.columns| && i < |row| {
      assert ValueValid(db, t, id, t.columns[i], row[i]);
      assert t.columns[i].unique && !t.columns[i].primaryKey ==> FirstOf(t.columns, i) == i;
    }
  }

  /** Where the schema is safe, what seems to be a reference is one. */
  lemma ValidRefers(db: Db, t: Table, id: Value, row: Row, i: nat)
    requires Shaped(db) && IsTable(db, t) && SafeSchema(t) && RowValid(db, t, row) && RowId(t, row) == Some(id)
    requires i < |row|
    ensures TypeFits(t.columns[i], row[i]) && Refers(db, t, id, t.columns[i], row[i])
  {
    var k := KeyFrom(t.columns, 0).value;
    assert SchemaOk(db, t.name) && TargetOk(db, t.columns[i]);
    assert ValueValid(db, t, id, t.columns[i], row[i]) && ValueValid(db, t, id, t.columns[k], row[k]);
    SafeKey(db, t, id, row[i]);
  }

  /** Storing a valid row in a table with a safe schema keeps integrity. */
  lemma PutRowIntegrity(db: Db, t: Table, id: Value, row: Row, db': Db)
    requires Integrity(db) && IsTable(db, t) && SafeSchema(t) && RowValid(db, t, row) && RowId(t, row) == Some(id)
    requires (t.name, id) in db.rows ==> |db.rows[(t.name, id)]| == |t.columns|
    requires db' == PutRow(db, t, id, row)
    ensures Integrity(db') && db'.tables == db.tables && db'.rows == db.rows[(t.name, id) := row]
  {
    forall i | 0 <= i < |row| ensures TypeFits(t.columns[i], row[i]) && Refers(db, t, id, t.columns[i], row[i]) {
      ValidRefers(db, t, id, row, i);
    }
    forall k, i | k != (t.name, id) ensures NoTwin(db, t, row, k, i) {
      assert KeyOk(db, k);
      ValidHasNoTwin(db, t, id, row, k, i);
    }
    assert RowOk(db, (t.name, id));
    SafeSteady(t, OldRow(db, (t.name, id)), Some(row));
    forall table, i, v, x ensures IndexOk(db', table, i, v, x) {
      ChangedIndexOk(db, t, id, Some(row), db', table, i, v, x);
    }
    PutKeeps(db, t, id, row, db');
  }

  /** No other row refers to a row. */
  ghost predicate Unreferenced(db: Db, table: string, id: Value, k: RowKey, i: nat) {
    HasRowAt(db, k, i) && db.tables[k.0].columns[i].references == Some(table) && db.rows[k][i] == id ==>
      k == (table, id)
  }

  /** Deleting a row that no other row refers to keeps integrity. */
  lemma DropRowIntegrity(db: Db, t: Table, id: Value, db': Db)
    requires Integrity(db) && IsTable(db, t) && IndexesApart(t) && forall k, i :: Unreferenced(db, t.name, id, k, i)
    requires (t.name, id) in db.rows ==> |db.rows[(t.name, id)]| == |t.columns|
    requires db' == DropRow(db, t, id)
    ensures Integrity(db') && db'.tables == db.tables && db'.rows == db.rows - {(t.name, id)}
  {
    var key := (t.name, id);
    ReindexKeeps(db, t, OldRow(db, key), None, id, |t.columns|, ("", "", Null));
    forall name ensures SchemaOk(db', name) { assert SchemaOk(db, name); }
    forall k ensures RowOk(db', k) && KeyOk(db', k) { assert RowOk(db, k) && KeyOk(db, k); }
    forall k, i ensures ReferenceOk(db', k, i) { assert ReferenceOk(db, k, i) && Unreferenced(db, t.name, id, k, i); }
    forall k, k', i ensures UniqueOk(db', k, k', i) { assert UniqueOk(db, k, k', i); }
    forall table, i, v, x ensures IndexOk(db', table, i, v, x) { ChangedIndexOk(db, t, id, None, db', table, i, v, x); }
    forall ik ensures EntryOk(db', ik) { ChangedEntryOk(db, t, id, None, db', ik); }
  }

  // ---- Tables ----

  /** What creating a table checks of its schema. */
  predicate ColumnValid(db: Db, t: Table, c: Column) {
    && !(c.primaryKey && c.nullable) && !(c.primaryKey && !c.unique)
    && (match c.default
        case Some(v) => if TypeOf(v).Some? then TypeOf(v) == Some(c.datatype_) else c.nullable
        case None => !c.nullable)
    && (c.references.Some? ==>
          && (c.references.value == t.name || c.references.value in db.tables)
          && var target := if c.references.value == t.name then t else db.tables[c.references.value];
             var k := KeyFrom(target.columns, 0);
             k.Some? && target.columns[k.value].datatype_ == c.datatype_)
  }

  predicate TableValid(db: Db, t: Table) {
    && KeyFrom(t.columns, 0).Some?
    && (forall i, j ::
          0 <= i < |t.columns| && 0 <= j < |t.columns| && t.columns[i].primaryKey && t.columns[j].primaryKey ==> i == j)
    && forall i :: 0 <= i < |t.columns| ==> ColumnValid(db, t, t.columns[i])
  }

  lemma AddTableShaped(db: Db, t: Table, db': Db)
    requires Shaped(db) && t.name !in db.tables && TableValid(db, t)
    requires db' == db.(tables := db.tables[t.name := t])
    ensures Shaped(db')
  {
    forall name ensures SchemaOk(db', name) {
      assert SchemaOk(db, name);
      if name == t.name {
        assert ColumnValid(db, t, t.columns[KeyFrom(t.columns, 0).value]);
        forall i | 0 <= i < |t.columns| ensures DefaultOk(t.columns[i]) && TargetOk(db', t.columns[i]) {
          assert ColumnValid(db, t, t.columns[i]);
        }
      } else if name in db.tables {
        forall i | 0 <= i < |db.tables[name].columns| ensures TargetOk(db', db.tables[name].columns[i]) {
          assert TargetOk(db, db.tables[name].columns[i]);
        }
      }
    }
    forall k ensures RowOk(db', k) { assert RowOk(db, k); }
  }

  /** Creating a valid table keeps integrity, whatever its column names. */
  lemma AddTableIntegrity(db: Db, t: Table, db': Db)
    requires Integrity(db) && t.name !in db.tables && TableValid(db, t)
    requires db' == db.(tables := db.tables[t.name := t])
    ensures Integrity(db')
  {
    AddTableShaped(db, t, db');
    forall k ensures KeyOk(db', k) { assert RowOk(db, k) && KeyOk(db, k); }
    forall k, i ensures ReferenceOk(db', k, i) { assert RowOk(db, k) && ReferenceOk(db, k, i); }
    forall k, k', i ensures UniqueOk(db', k, k', i) { assert RowOk(db, k) && UniqueOk(db, k, k', i); }
    forall table, i: nat, v, id ensures IndexOk(db', table, i, v, id) {
      assert IndexOk(db, table, i, v, id) && RowOk(db, (table, id));
      if table == t.name && i < |t.columns| {
        assert EntryOk(db, (table, t.columns[i].name, v));
      }
    }
    forall ik ensures EntryOk(db', ik) { assert EntryOk(db, ik); }
  }

  /** Dropping an empty table that no other table refers to keeps integrity. */
  lemma DropTableIntegrity(db: Db, name: string, db': Db)
    requires Integrity(db) && name in db.tables
    requires forall k :: k in db.rows ==> k.0 != name
    requires forall other, i :: other in db.tables && other != name && 0 <= i < |db.tables[other].columns| ==>
               db.tables[other].columns[i].references != Some(name)
    requires db' == db.(tables := db.tables - {name})
    ensures Integrity(db')
  {
    forall other ensures SchemaOk(db', other) {
      assert SchemaOk(db, other);
      if other in db'.tables {
        forall i | 0 <= i < |db.tables[other].columns| ensures TargetOk(db', db.tables[other].columns[i]) {
          assert TargetOk(db, db.tables[other].columns[i]);
        }
      }
    }
    forall k ensures RowOk(db', k) && KeyOk(db', k) { assert RowOk(db, k) && KeyOk(db, k); }
    forall k, i ensures ReferenceOk(db', k, i) { assert ReferenceOk(db, k, i); }
    forall k, k', i ensures UniqueOk(db', k, k', i) { assert UniqueOk(db, k, k', i); }
    forall table, i, v, id ensures IndexOk(db', table, i, v, id) { assert IndexOk(db, table, i, v, id); }
    forall ik ensures EntryOk(db', ik) {
      assert EntryOk(db, ik);
      if ik in db.indexes && ik.0 == name {
        NoEntries(db, ik);
      }
    }
  }

  /** A table without rows has no index entries. */
  lemma NoEntries(db: Db, ik: IndexKey)
    requires Integrity(db) && ik in db.indexes
    ensures exists k :: k in db.rows && k.0 == ik.0
  {
    assert EntryOk(db, ik);
    var t := db.tables[ik.0];
    var i :| 0 <= i < |t.columns| && t.columns[i].index && t.columns[i].name == ik.1 && CanHold(t.columns[i], ik.2);
    var id :| id in db.indexes[ik];
    assert SchemaOk(db, ik.0) && IndexOk(db, ik.0, i, ik.2, id);
    assert (ik.0, id) in db.rows;
  }
}
