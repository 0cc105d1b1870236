/** Multi-version concurrency control over one ordered store, as functions on
    the store's contents. The engine class is proved to compute these on the
    encoded keys. */
module Mvcc {
  import opened Basics

  type Version = nat

  datatype Error = ReadOnlyTransaction | Serialization | NoSuchVersion | NotActive

  datatype Result<+T> = Ok(value: T) | Err(error: Error)

  datatype Key =
    | NextVersion
    | TxnActive(version: Version)
    | TxnActiveSnapshot(version: Version)
    | TxnWrite(version: Version, key: Bytes)
    | Versioned(key: Bytes, version: Version)
    | Unversioned(key: Bytes)

  /** Stored values. The program's value encoding is only ever decoded back, so
      values stay abstract. A versioned value of `None` is a tombstone. */
  datatype Value =
    | Number(n: Version)
    | VersionSet(versions: set<Version>)
    | Nothing
    | Data(data: Option<Bytes>)
    | Raw(bytes: Bytes)

  type Db = map<Key, Value>

  /** Each kind of key holds its kind of value. */
  predicate TypeOk(k: Key, v: Value) {
    match k
    case NextVersion => v.Number?
    case TxnActive(_) => v == Nothing
    case TxnActiveSnapshot(_) => v.VersionSet?
    case TxnWrite(_, _) => v == Nothing
    case Versioned(_, _) => v.Data?
    case Unversioned(_) => v.Raw?
  }

  predicate Typed(db: Db) {
    forall k :: k in db ==> TypeOk(k, db[k])
  }

  /** A transaction's state: its version, and who was active when it began. */
  datatype Txn = Txn(version: Version, readOnly: bool, active: set<Version>)

  predicate IsVisible(t: Txn, v: Version) {
    v !in t.active && if t.readOnly then v < t.version else v <= t.version
  }

  function NextOf(db: Db): Version
    requires Typed(db)
  {
    if NextVersion in db then db[NextVersion].n else 1
  }

  function ActiveIn(db: Db): set<Version> {
    set k | k in db && k.TxnActive? :: k.version
  }

  function SnapshotOf(db: Db, v: Version): set<Version>
    requires Typed(db)
  {
    if TxnActiveSnapshot(v) in db then db[TxnActiveSnapshot(v)].versions else {}
  }

  function VersionsOf(db: Db, key: Bytes): set<Version> {
    set k | k in db && k.Versioned? && k.key == key :: k.version
  }

  // ---- Transactions ----

  function Begin(db: Db): (Db, Txn)
    requires Typed(db)
  {
    var v := NextOf(db);
    var active := ActiveIn(db);
    var db1 := db[NextVersion := Number(v + 1)];
    var db2 := if active != {} then db1[TxnActiveSnapshot(v) := VersionSet(active)] else db1;
    (db2[TxnActive(v) := Nothing], Txn(v, false, active))
  }

  function BeginReadOnly(db: Db, asOf: Option<Version>): Result<Txn>
    requires Typed(db)
  {
    match asOf
    case None => Ok(Txn(NextOf(db), true, ActiveIn(db)))
    case Some(v) => if v >= NextOf(db) then Err(NoSuchVersion) else Ok(Txn(v, true, SnapshotOf(db, v)))
  }

  function Resume(db: Db, t: Txn): Result<Txn> {
    if !t.readOnly && TxnActive(t.version) !in db then Err(NotActive) else Ok(t)
  }

  function MinOf(s: set<Version>): (m: Version)
    requires s != {}
    ensures m in s && forall x :: x in s ==> m <= x
  {
    Least(s);
    var m :| m in s && forall x :: x in s ==> m <= x;
    m
  }

  lemma {:induction false} Least(s: set<Version>)
    requires s != {}
    ensures exists m :: m in s && forall x :: x in s ==> m <= x
  {
    var m := FindLeast(s);
  }

  lemma {:induction false} FindLeast(s: set<Version>) returns (m: Version)
    requires s != {}
    ensures m in s && forall x :: x in s ==> m <= x
  {
    m :| m in s;
    var rest := s - {m};
    assert forall x :: x in s ==> x == m || x in rest;
    if rest != {} {
      var b := FindLeast(rest);
      if b < m {
        m := b;
      }
    }
  }

  function MaxOf(s: set<Version>): (m: Version)
    requires s != {}
    ensures m in s && forall x :: x in s ==> x <= m
  {
    Greatest(s);
    var m :| m in s && forall x :: x in s ==> x <= m;
    m
  }

  lemma {:induction false} Greatest(s: set<Version>)
    requires s != {}
    ensures exists m :: m in s && forall x :: x in s ==> x <= m
  {
    var m := FindGreatest(s);
  }

  lemma {:induction false} FindGreatest(s: set<Version>) returns (m: Version)
    requires s != {}
    ensures m in s && forall x :: x in s ==> x <= m
  {
    m :| m in s;
    var rest := s - {m};
    assert forall x :: x in s ==> x == m || x in rest;
    if rest != {} {
      var b := FindGreatest(rest);
      if b > m {
        m := b;
      }
    }
  }

  /** Where the conflict check starts to look. */
  function ConflictFrom(t: Txn): Version {
    if t.active != {} then MinOf(t.active) else t.version + 1
  }

  /** The latest version of a key from that point on is invisible. */
  predicate Conflicts(db: Db, t: Txn, key: Bytes) {
    var later := set v | v in VersionsOf(db, key) && v >= ConflictFrom(t);
    later != {} && !IsVisible(t, MaxOf(later))
  }

  /** Writes a value, or a tombstone for `None`. */
  function WriteVersion(db: Db, t: Txn, key: Bytes, value: Option<Bytes>): Result<Db> {
    if t.readOnly then Err(ReadOnlyTransaction)
    else if Conflicts(db, t, key) then Err(Serialization)
    else Ok(db[TxnWrite(t.version, key) := Nothing][Versioned(key, t.version) := Data(value)])
  }

  function VisibleVersions(db: Db, t: Txn, key: Bytes): set<Version> {
    set v | v in VersionsOf(db, key) && IsVisible(t, v)
  }

  function Get(db: Db, t: Txn, key: Bytes): Option<Bytes>
    requires Typed(db)
  {
    var vs := VisibleVersions(db, t, key);
    if vs == {} then None else db[Versioned(key, MaxOf(vs))].data
  }

  function Commit(db: Db, t: Txn): Db {
    if t.readOnly then db
    else map k | k in db && !(k.TxnWrite? && k.version == t.version) && k != TxnActive(t.version) :: db[k]
  }

  function Rollback(db: Db, t: Txn): Db {
    if t.readOnly then db
    else map k | && k in db && !(k.TxnWrite? && k.version == t.version) && k != TxnActive(t.version)
                 && !(k.Versioned? && k.version == t.version && TxnWrite(t.version, k.key) in db) :: db[k]
  }
}
