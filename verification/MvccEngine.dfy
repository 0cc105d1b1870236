/** Transactions over a byte-ordered engine: the engine's contents are updated in
    place through encoded keys and read through range and prefix scans. Every
    method is proved to compute the transaction functions. */
module MvccEngine {
  import opened Basics
  import opened ByteOrder
  import opened Mvcc
  import opened MvccKeys

  type Engine = map<Bytes, Value>

  ghost predicate Stores(engine: Engine, db: Db, k: Key) {
    k in db ==> Fits(k) && EncodeKey(k) in engine && engine[EncodeKey(k)] == db[k]
  }

  ghost predicate Backed(engine: Engine, db: Db, b: Bytes) {
    b in engine ==> DecodeKey(b).Some? && DecodeKey(b).value in db
  }

  /** The engine holds exactly these keys, encoded. */
  ghost predicate Represents(engine: Engine, db: Db) {
    (forall k :: Stores(engine, db, k)) && (forall b :: Backed(engine, db, b))
  }

  lemma EncodeInjective(k: Key, k': Key)
    requires Fits(k) && Fits(k')
    ensures EncodeKey(k) == EncodeKey(k') ==> k == k'
  {
    DecodeEncoded(k);
    DecodeEncoded(k');
  }

  lemma PutRepresents(engine: Engine, db: Db, k: Key, v: Value, code: Bytes)
    requires Represents(engine, db) && Fits(k) && code == EncodeKey(k)
    ensures Represents(engine[code := v], db[k := v])
  {
    var engine', db' := engine[code := v], db[k := v];
    forall x ensures Stores(engine', db', x) {
      assert Stores(engine, db, x);
      if x in db { EncodeInjective(k, x); }
    }
    forall b ensures Backed(engine', db', b) {
      assert Backed(engine, db, b);
      DecodeEncoded(k);
    }
  }

  lemma DeleteRepresents(engine: Engine, db: Db, k: Key, code: Bytes)
    requires Represents(engine, db) && Fits(k) && code == EncodeKey(k)
    ensures Represents(engine - {code}, db - {k})
  {
    var engine', db' := engine - {code}, db - {k};
    forall x ensures Stores(engine', db', x) {
      assert Stores(engine, db, x);
      if x in db { EncodeInjective(k, x); }
    }
    forall b ensures Backed(engine', db', b) {
      assert Backed(engine, db, b);
      if b in engine { DecodedIsEncoded(b); }
    }
  }

  lemma RepresentsKey(engine: Engine, db: Db, k: Key, code: Bytes)
    requires Represents(engine, db) && Fits(k) && code == EncodeKey(k)
    ensures code in engine <==> k in db
    ensures k in db ==> engine[code] == db[k]
  {
    assert Stores(engine, db, k) && Backed(engine, db, code);
    DecodeEncoded(k);
  }

  // ---- Scans ----

  /** The keys in a range, each once and in byte order. */
  ghost predicate IsScan(engine: Engine, start: Bound, end: Bound, keys: seq<Bytes>) {
    Ascending(keys) && forall b :: b in keys <==> b in engine && InRange(b, start, end)
  }

  /** The engine's scan: the keys of a range, in order. */
  method ScanRange(engine: Engine, start: Bound, end: Bound) returns (keys: seq<Bytes>)
    ensures IsScan(engine, start, end, keys)
  {
    keys := SortKeys(set b | b in engine && InRange(b, start, end));
  }

  method ScanPrefix(engine: Engine, prefix: Bytes) returns (keys: seq<Bytes>)
    ensures Ascending(keys) && forall b :: b in keys <==> b in engine && prefix <= b
  {
    keys := ScanRange(engine, Included(prefix), PrefixEnd(prefix));
    forall b ensures b in keys <==> b in engine && prefix <= b {
      PrefixRangeIsExact(prefix, b);
    }
  }

  /** What a scanned engine key stands for. */
  lemma ScannedKey(engine: Engine, db: Db, b: Bytes)
    requires Represents(engine, db) && b in engine
    ensures DecodeKey(b).Some?
    ensures var k := DecodeKey(b).value; k in db && Fits(k) && EncodeKey(k) == b && engine[b] == db[k]
  {
    assert Backed(engine, db, b);
    DecodedIsEncoded(b);
    assert Stores(engine, db, DecodeKey(b).value);
  }

  class MVCC {
    var engine: Engine
    // The same contents by key.
    ghost var db: Db

    ghost predicate Valid()
      reads this
    {
      Represents(engine, db) && Typed(db) && NextOf(db) <= MAX_VERSION
    }

    constructor ()
      ensures Valid() && db == map[]
    {
      engine, db := map[], map[];
    }

    // ---- Engine access by key ----

    method GetKey(k: Key) returns (v: Option<Value>)
      requires Valid() && Fits(k)
      ensures v == if k in db then Some(db[k]) else None
    {
      var code := EncodeKey(k);
      RepresentsKey(engine, db, k, code);
      v := if code in engine then Some(engine[code]) else None;
    }

    method SetKey(k: Key, v: Value)
      requires Valid() && Fits(k) && TypeOk(k, v) && (k.NextVersion? ==> v.n <= MAX_VERSION)
      modifies this
      ensures Valid() && db == old(db)[k := v]
    {
      var code := EncodeKey(k);
      PutRepresents(engine, db, k, v, code);
      engine, db := engine[code := v], db[k := v];
    }

    method DeleteKey(k: Key)
      requires Valid() && Fits(k) && !k.NextVersion?
      modifies this
      ensures Valid() && db == old(db) - {k}
    {
      var code := EncodeKey(k);
      DeleteRepresents(engine, db, k, code);
      engine, db := engine - {code}, db - {k};
    }

    // ---- Transactions ----

    method ScanActive() returns (active: set<Version>)
      requires Valid()
      ensures active == ActiveIn(db)
    {
      active := {};
      var keys := ScanPrefix(engine, ACTIVE_PREFIX);
      for i := 0 to |keys|
        invariant forall v :: v in active ==> TxnActive(v) in db
        invariant forall j :: 0 <= j < i ==> DecodeKey(keys[j]).Some? && DecodeKey(keys[j]).value.TxnActive?
                                              && DecodeKey(keys[j]).value.version in active
      {
        ScannedKey(engine, db, keys[i]);
        var k := DecodeKey(keys[i]).value;
        ActivePrefixMeans(k);
        active := active + {k.version};
      }
      forall v | TxnActive(v) in db ensures v in active {
        var code := EncodeKey(TxnActive(v));
        assert Stores(engine, db, TxnActive(v));
        RepresentsKey(engine, db, TxnActive(v), code);
        ActivePrefixMeans(TxnActive(v));
        DecodeEncoded(TxnActive(v));
        var j :| 0 <= j < |keys| && keys[j] == code;
      }
    }

    method NextVersion() returns (v: Version)
      requires Valid()
      ensures v == NextOf(db)
    {
      var next := GetKey(Key.NextVersion);
      v := if next.Some? then next.value.n else 1;
    }

    /** Begins a read-write transaction at the next version. */
    method Begin() returns (t: Txn)
      requires Valid() && NextOf(db) < MAX_VERSION
      modifies this
      ensures Valid() && (db, t) == Mvcc.Begin(old(db))
    {
      var v := NextVersion();
      SetKey(Key.NextVersion, Number(v + 1));
      var active := ScanActive();
      assert active == ActiveIn(old(db));
      if active != {} {
        SetKey(TxnActiveSnapshot(v), VersionSet(active));
      }
      SetKey(TxnActive(v), Nothing);
      t := Txn(v, false, active);
    }

    method BeginReadOnly(asOf: Option<Version>) returns (r: Result<Txn>)
      requires Valid()
      ensures r == Mvcc.BeginReadOnly(db, asOf)
    {
      var v := NextVersion();
      match asOf
      case Some(n) =>
        if n >= v {
          return Err(NoSuchVersion);
        }
        var snapshot := GetKey(TxnActiveSnapshot(n));
        r := Ok(Txn(n, true, if snapshot.Some? then snapshot.value.versions else {}));
      case None =>
        var active := ScanActive();
        r := Ok(Txn(v, true, active));
    }

    method Resume(t: Txn) returns (r: Result<Txn>)
      requires Valid() && t.version <= MAX_VERSION
      ensures r == Mvcc.Resume(db, t)
    {
      if !t.readOnly {
        var active := GetKey(TxnActive(t.version));
        if active.None? {
          return Err(NotActive);
        }
      }
      r := Ok(t);
    }

    /** The keys that a version has write records for. */
    method ScanWrites(v: Version) returns (written: seq<Bytes>)
      requires Valid() && v <= MAX_VERSION
      ensures forall k :: k in WriteRecords(db, v) <==> k.TxnWrite? && k.version == v && k.key in written
    {
      written := [];
      var keys := ScanPrefix(engine, WritePrefix(v));
      for i := 0 to |keys|
        invariant |written| == i
        invariant forall j :: 0 <= j < i ==> DecodeKey(keys[j]) == Some(TxnWrite(v, written[j]))
        invariant forall j :: 0 <= j < i ==> TxnWrite(v, written[j]) in db
      {
        ScannedKey(engine, db, keys[i]);
        var k := DecodeKey(keys[i]).value;
        WritePrefixMeans(v, k);
        written := written + [k.key];
      }
      forall k | k in WriteRecords(db, v) ensures k.key in written {
        var code := EncodeKey(k);
        assert Stores(engine, db, k);
        RepresentsKey(engine, db, k, code);
        WritePrefixMeans(v, k);
        DecodeEncoded(k);
        var j :| 0 <= j < |keys| && keys[j] == code;
        assert written[j] == k.key;
      }
    }

    /** Commits: drops the write records and leaves the active set. */
    method Commit(t: Txn)
      requires Valid() && t.version <= MAX_VERSION
      modifies this
      ensures Valid() && db == Mvcc.Commit(old(db), t)
    {
      if t.readOnly {
        return;
      }
      var written := ScanWrites(t.version);
      for i := 0 to |written|
        invariant Valid()
        invariant forall k ::
                    k in db <==> k in old(db) && !(k.TxnWrite? && k.version == t.version && k.key in written[..i])
        invariant forall k :: k in db ==> db[k] == old(db)[k]
      {
        DeleteKey(TxnWrite(t.version, written[i]));
        assert written[..i + 1] == written[..i] + [written[i]];
      }
      assert written[..|written|] == written;
      DeleteKey(TxnActive(t.version));
    }

    /** Rolls back: drops the version and record of every write, and leaves the
        active set. */
    method Rollback(t: Txn)
      requires Valid() && t.version <= MAX_VERSION
      modifies this
      ensures Valid() && db == Mvcc.Rollback(old(db), t)
    {
      if t.readOnly {
        return;
      }
      var written := ScanWrites(t.version);
      for i := 0 to |written|
        invariant Valid()
        invariant forall k :: k in db <==>
                    k in old(db) && !((k.TxnWrite? || k.Versioned?) && k.version == t.version && k.key in written[..i])
        invariant forall k :: k in db ==> db[k] == old(db)[k]
      {
        DeleteKey(Versioned(written[i], t.version));
        DeleteKey(TxnWrite(t.version, written[i]));
        assert written[..i + 1] == written[..i] + [written[i]];
      }
      assert written[..|written|] == written;
      DeleteKey(TxnActive(t.version));
    }

    /** The engine keys of one key's versions from a to b, in version order. */
    method ScanVersions(key: Bytes, a: Version, b: Version) returns (keys: seq<Bytes>, ghost vs: seq<Version>)
      requires Valid() && a <= MAX_VERSION && b <= MAX_VERSION
      ensures |vs| == |keys| && forall i :: EntryAt(engine, db, key, keys, vs, i)
      ensures Covers(db, key, a, b, vs)
    {
      keys := ScanRange(engine, Included(EncodeKey(Versioned(key, a))), Included(EncodeKey(Versioned(key, b))));
      vs := ScannedVersions(engine, db, key, a, b, keys);
    }

    /** Writes a value or tombstone, unless the latest version is invisible. */
    method WriteVersion(t: Txn, key: Bytes, value: Option<Bytes>) returns (r: Result<()>)
      requires Valid() && t.version < MAX_VERSION && forall v :: v in t.active ==> v <= MAX_VERSION
      modifies this
      ensures Valid()
      ensures match Mvcc.WriteVersion(old(db), t, key, value)
              case Ok(db') => r == Ok(()) && db == db'
              case Err(e) => r == Err(e) && db == old(db)
    {
      if t.readOnly {
        return Err(ReadOnlyTransaction);
      }
      var conflict := HasConflict(t, key);
      if conflict {
        return Err(Serialization);
      }
      SetKey(TxnWrite(t.version, key), Nothing);
      SetKey(Versioned(key, t.version), Data(value));
      r := Ok(());
    }

    /** Whether the latest version, from the oldest active one on, is invisible. */
    method HasConflict(t: Txn, key: Bytes) returns (conflict: bool)
      requires Valid() && t.version < MAX_VERSION && forall v :: v in t.active ==> v <= MAX_VERSION
      ensures conflict == Conflicts(db, t, key)
    {
      var from := ConflictFrom(t);
      var keys, vs := ScanVersions(key, from, MAX_VERSION);
      LatestVersion(engine, db, key, from, vs);
      if keys == [] {
        return false;
      }
      assert EntryAt(engine, db, key, keys, vs, |keys| - 1);
      conflict := !IsVisible(t, DecodeKey(keys[|keys| - 1]).value.version);
    }

    /** Reads a key: the latest visible version, looking backwards. */
    method Get(t: Txn, key: Bytes) returns (value: Option<Bytes>)
      requires Valid() && t.version <= MAX_VERSION
      ensures value == Mvcc.Get(db, t, key)
    {
      var keys, vs := ScanVersions(key, 0, t.version);
      var i := |keys|;
      while i > 0
        invariant 0 <= i <= |keys|
        invariant forall j :: i <= j < |vs| ==> !IsVisible(t, vs[j])
      {
        i := i - 1;
        assert EntryAt(engine, db, key, keys, vs, i);
        if IsVisible(t, DecodeKey(keys[i]).value.version) {
          LatestVisible(db, t, key, vs, i);
          return engine[keys[i]].data;
        }
      }
      NoneVisible(db, t, key, vs);
      value := None;
    }
  }

  /** The write records a version has left. */
  ghost function WriteRecords(db: Db, v: Version): set<Key> {
    set k | k in db && k.TxnWrite? && k.version == v
  }

  /** The i-th scanned engine key is the i-th version of the given key. */
  ghost predicate EntryAt(engine: Engine, db: Db, key: Bytes, keys: seq<Bytes>, vs: seq<Version>, i: int) {
    0 <= i < |keys| && i < |vs| ==>
      && DecodeKey(keys[i]) == Some(Versioned(key, vs[i])) && Versioned(key, vs[i]) in db
      && keys[i] in engine && engine[keys[i]] == db[Versioned(key, vs[i])]
  }

  /** Exactly the versions of a key from a to b, in order. */
  ghost predicate Covers(db: Db, key: Bytes, a: Version, b: Version, vs: seq<Version>) {
    && (forall i, j :: 0 <= i < j < |vs| ==> vs[i] < vs[j])
    && (forall v :: v in vs <==> v in VersionsOf(db, key) && a <= v <= b)
  }

  lemma InVersionRange(engine: Engine, db: Db, key: Bytes, x: Version, y: Version, b: Bytes) returns (v: Version)
    requires Represents(engine, db) && x <= MAX_VERSION && y <= MAX_VERSION && b in engine
    requires InRange(b, Included(EncodeKey(Versioned(key, x))), Included(EncodeKey(Versioned(key, y))))
    ensures DecodeKey(b) == Some(Versioned(key, v)) && Versioned(key, v) in db && engine[b] == db[Versioned(key, v)]
    ensures x <= v <= y && v <= MAX_VERSION && EncodeKey(Versioned(key, v)) == b
  {
    ScannedKey(engine, db, b);
    var k := DecodeKey(b).value;
    VersionRange(key, x, y, k);
    v := k.version;
  }

  lemma VersionFits(engine: Engine, db: Db, key: Bytes, v: Version)
    requires Represents(engine, db) && v in VersionsOf(db, key)
    ensures v <= MAX_VERSION && Versioned(key, v) in db
  {
    assert Stores(engine, db, Versioned(key, v));
  }

  lemma VersionFound(engine: Engine, db: Db, key: Bytes, x: Version, y: Version, v: Version) returns (code: Bytes)
    requires Represents(engine, db) && x <= MAX_VERSION && y <= MAX_VERSION
    requires v in VersionsOf(db, key) && x <= v <= y
    ensures code in engine && DecodeKey(code) == Some(Versioned(key, v))
    ensures InRange(code, Included(EncodeKey(Versioned(key, x))), Included(EncodeKey(Versioned(key, y))))
  {
    var k := Versioned(key, v);
    VersionFits(engine, db, key, v);
    code := EncodeKey(k);
    RepresentsKey(engine, db, k, code);
    VersionRange(key, x, y, k);
    DecodeEncoded(k);
  }

  lemma {:induction false} VersionsUpTo(engine: Engine, db: Db, key: Bytes, a: Version, b: Version, keys: seq<Bytes>,
                                        n: nat)
    returns (vs: seq<Version>)
    requires Represents(engine, db) && a <= MAX_VERSION && b <= MAX_VERSION && n <= |keys|
    requires IsScan(engine, Included(EncodeKey(Versioned(key, a))), Included(EncodeKey(Versioned(key, b))), keys)
    ensures |vs| == n && forall i :: EntryAt(engine, db, key, keys, vs, i)
    ensures forall i :: 0 <= i < n ==> a <= vs[i] <= b
    ensures forall i, j :: 0 <= i < j < n ==> vs[i] < vs[j]
  {
    vs := [];
    if n > 0 {
      var shorter := VersionsUpTo(engine, db, key, a, b, keys, n - 1);
      var v := InVersionRange(engine, db, key, a, b, keys[n - 1]);
      vs := shorter + [v];
      forall i ensures EntryAt(engine, db, key, keys, vs, i) {
        assert EntryAt(engine, db, key, keys, shorter, i);
      }
      forall i | 0 <= i < n - 1 ensures shorter[i] < v {
        assert EntryAt(engine, db, key, keys, shorter, i);
        var u := InVersionRange(engine, db, key, a, b, keys[i]);
        VersionedOrder(key, u, key, v);
        LessIrreflexive(key);
      }
    }
  }

  lemma ScannedVersions(engine: Engine, db: Db, key: Bytes, a: Version, b: Version, keys: seq<Bytes>)
    returns (vs: seq<Version>)
    requires Represents(engine, db) && a <= MAX_VERSION && b <= MAX_VERSION
    requires IsScan(engine, Included(EncodeKey(Versioned(key, a))), Included(EncodeKey(Versioned(key, b))), keys)
    ensures |vs| == |keys| && forall i :: EntryAt(engine, db, key, keys, vs, i)
    ensures Covers(db, key, a, b, vs)
  {
    vs := VersionsUpTo(engine, db, key, a, b, keys, |keys|);
    forall v | v in vs ensures v in VersionsOf(db, key) && a <= v <= b {
      var i :| 0 <= i < |vs| && vs[i] == v;
      assert EntryAt(engine, db, key, keys, vs, i);
    }
    forall v | v in VersionsOf(db, key) && a <= v <= b ensures v in vs {
      var code := VersionFound(engine, db, key, a, b, v);
      var i :| 0 <= i < |keys| && keys[i] == code;
      assert EntryAt(engine, db, key, keys, vs, i);
    }
  }

  lemma LatestVersion(engine: Engine, db: Db, key: Bytes, from: Version, vs: seq<Version>)
    requires Represents(engine, db) && Covers(db, key, from, MAX_VERSION, vs)
    ensures var later := set v | v in VersionsOf(db, key) && v >= from;
            if vs == [] then later == {} else later != {} && MaxOf(later) == vs[|vs| - 1]
  {
    var later := set v | v in VersionsOf(db, key) && v >= from;
    forall v ensures v in later <==> v in vs {
      if v in VersionsOf(db, key) {
        VersionFits(engine, db, key, v);
      }
    }
    if vs != [] {
      assert vs[|vs| - 1] in later;
      var m := MaxOf(later);
      var i :| 0 <= i < |vs| && vs[i] == m;
    }
  }

  lemma LatestVisible(db: Db, t: Txn, key: Bytes, vs: seq<Version>, i: nat)
    requires Covers(db, key, 0, t.version, vs) && i < |vs| && IsVisible(t, vs[i])
    requires forall j :: i < j < |vs| ==> !IsVisible(t, vs[j])
    ensures VisibleVersions(db, t, key) != {} && MaxOf(VisibleVersions(db, t, key)) == vs[i]
  {
    var visible := VisibleVersions(db, t, key);
    assert vs[i] in vs && vs[i] in visible;
    var m := MaxOf(visible);
    assert m in vs;
    var j :| 0 <= j < |vs| && vs[j] == m;
  }

  lemma NoneVisible(db: Db, t: Txn, key: Bytes, vs: seq<Version>)
    requires Covers(db, key, 0, t.version, vs)
    requires forall j :: 0 <= j < |vs| ==> !IsVisible(t, vs[j])
    ensures VisibleVersions(db, t, key) == {}
  {
    forall v | v in VersionsOf(db, key) && v <= t.version ensures !IsVisible(t, v) {
      assert v in vs;
    }
  }
}
