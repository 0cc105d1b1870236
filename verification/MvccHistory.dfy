/** Snapshot isolation, over every interleaving of transactions.

    The reference is a plain store that knows nothing of versions: a transaction
    works on a private copy of the committed store as it was when it began, plus
    its own writes, and committing puts its writes into the committed store. */
module MvccHistory {
  import opened Basics
  import opened Mvcc

  type Store = map<Bytes, Bytes>
  type Writes = map<Bytes, Option<Bytes>>

  datatype Status = Active | Committed | RolledBack

  /** A read-write transaction: what was committed and who was active when it
      began, and what it wrote. */
  datatype Record = Record(status: Status, active: set<Version>, base: Store, own: Writes)

  type Records = map<Version, Record>

  /** A read-only transaction and the committed store it should see. */
  datatype Reader = Reader(txn: Txn, base: Store)

  /** The reference history: one record per version, the committed store, and the
      readers in the order in which they began. */
  datatype History = History(records: Records, current: Store, readers: seq<Reader>)

  /** Whose transaction it is: the version of a read-write one, or the number of a
      read-only one. */
  datatype Owner = Writer(version: Version) | Viewer(id: nat)

  /** A transaction in hand: the state that it works with, and who was meant. */
  datatype Handle = Handle(owner: Owner, txn: Txn)

  /** The store, its reference history, and the transactions in hand. Several handles
      can stand for the same transaction. */
  datatype State = State(db: Db, h: History, handles: map<nat, Handle>)

  function Lookup(s: Store, key: Bytes): Option<Bytes> {
    if key in s then Some(s[key]) else None
  }

  /** The committed store after a transaction's writes. */
  function Apply(s: Store, own: Writes): Store {
    map k | k in s.Keys + own.Keys && (k in own ==> own[k].Some?) :: if k in own then own[k].value else s[k]
  }

  function TxnOf(h: History, v: Version): Txn
    requires v in h.records
  {
    Txn(v, false, h.records[v].active)
  }

  predicate Known(h: History, o: Owner) {
    match o
    case Writer(v) => v in h.records
    case Viewer(id) => id < |h.readers|
  }

  /** The state that a transaction was given when it began, by which it is resumed. */
  function StateOf(h: History, o: Owner): Txn
    requires Known(h, o)
  {
    match o
    case Writer(v) => TxnOf(h, v)
    case Viewer(id) => h.readers[id].txn
  }

  // ---- Steps ----

  /** What can be done. `x` names a handle: beginning and resuming open a new one, and
      commit and rollback use one up. */
  datatype Action =
    | DoBegin(x: nat)
    | DoBeginReadOnly(asOf: Option<Version>, x: nat)
    | DoResume(o: Owner, x: nat)
    | DoWrite(x: nat, key: Bytes, value: Option<Bytes>)
    | DoCommit(x: nat)
    | DoRollback(x: nat)

  /** A new handle gets a new name, resuming takes the state of a transaction that
      began, and a handle is used only while it is in hand. */
  predicate Possible(s: State, a: Action) {
    match a
    case DoBegin(x) => x !in s.handles
    case DoBeginReadOnly(_, x) => x !in s.handles
    case DoResume(o, x) => x !in s.handles && Known(s.h, o)
    case _ => a.x in s.handles && Known(s.h, s.handles[a.x].owner)
  }

  /** One action. Only resuming looks whether the version is active. A failed action
      changes nothing. The store is what the program makes of it, and the history is
      what should have happened. */
  function After(s: State, a: Action): State
    requires Typed(s.db) && Possible(s, a)
  {
    match a
    case DoBegin(x) =>
      var (db, t) := Begin(s.db);
      State(db, s.h.(records := s.h.records[t.version := Record(Active, t.active, s.h.current, map[])]),
            s.handles[x := Handle(Writer(t.version), t)])
    case DoBeginReadOnly(asOf, x) =>
      (match BeginReadOnly(s.db, asOf)
       case Err(_) => s
       case Ok(t) =>
         State(s.db, s.h.(readers := s.h.readers + [Reader(t, BaseFor(s.h, asOf))]),
               s.handles[x := Handle(Viewer(|s.h.readers|), t)]))
    case DoResume(o, x) =>
      (match Resume(s.db, StateOf(s.h, o))
       case Err(_) => s
       case Ok(t) => s.(handles := s.handles[x := Handle(o, t)]))
    case DoWrite(x, key, value) =>
      (match WriteVersion(s.db, s.handles[x].txn, key, value)
       case Err(_) => s
       case Ok(db) => State(db, Written(s.h, s.handles[x].owner, key, value), s.handles))
    case DoCommit(x) =>
      State(Commit(s.db, s.handles[x].txn), Ended(s.h, s.handles[x].owner, Committed), s.handles - {x})
    case DoRollback(x) =>
      State(Rollback(s.db, s.handles[x].txn), Ended(s.h, s.handles[x].owner, RolledBack), s.handles - {x})
  }

  /** What a reader should see: what is committed now, or what was committed when the
      given version began. */
  function BaseFor(h: History, asOf: Option<Version>): Store {
    match asOf
    case None => h.current
    case Some(v) => if v in h.records then h.records[v].base else map[]
  }

  /** A read-write transaction writes. */
  function Written(h: History, o: Owner, key: Bytes, value: Option<Bytes>): History
    requires Known(h, o)
  {
    if o.Viewer? then h
    else
      var r := h.records[o.version];
      h.(records := h.records[o.version := r.(own := r.own[key := value])])
  }

  /** An active read-write transaction ends. One that has ended stays as it is. */
  function Ended(h: History, o: Owner, status: Status): History
    requires Known(h, o)
  {
    if o.Viewer? || !h.records[o.version].status.Active? then h
    else
      var r := h.records[o.version];
      h.(records := h.records[o.version := r.(status := status)],
         current := if status.Committed? then Apply(h.current, r.own) else h.current)
  }

  ghost predicate Init(s: State) {
    && (forall k :: k in s.db ==> k.Unversioned? && s.db[k].Raw?)
    && s.h == History(map[], map[], []) && s.handles == map[]
  }

  ghost predicate Next(s: State, a: Action, s': State) {
    Typed(s.db) && Possible(s, a) && s' == After(s, a)
  }

  ghost predicate StepAt(ss: seq<State>, acts: seq<Action>, j: nat)
    requires j < |acts| < |ss|
  {
    Next(ss[j], acts[j], ss[j + 1])
  }

  /** Any interleaving of any number of transactions, from an empty store. */
  ghost predicate Schedule(ss: seq<State>, acts: seq<Action>) {
    |ss| == |acts| + 1 && Init(ss[0]) && forall j: nat :: j < |acts| ==> StepAt(ss, acts, j)
  }

  /** A write is not made through a handle whose version has ended. */
  ghost predicate Fresh(s: State, a: Action) {
    a.DoWrite? && Possible(s, a) && s.handles[a.x].owner.Writer? ==>
      s.h.records[s.handles[a.x].owner.version].status.Active?
  }

  ghost predicate FreshAt(ss: seq<State>, acts: seq<Action>, j: nat)
    requires j < |acts| < |ss|
  {
    Fresh(ss[j], acts[j])
  }

  /** An interleaving in which no handle writes after its version has ended. Reads,
      commits and rollbacks through such a handle are allowed. */
  ghost predicate Run(ss: seq<State>, acts: seq<Action>) {
    Schedule(ss, acts) && forall j: nat :: j < |acts| ==> FreshAt(ss, acts, j)
  }

  // ---- The invariants ----

  ghost predicate Holds(rs: Records, u: Version, key: Bytes) {
    u in rs && !rs[u].status.RolledBack? && key in rs[u].own
  }

  /** The store's bookkeeping agrees with the record of a version. */
  ghost predicate RecordOk(s: State, v: Version)
    requires Typed(s.db)
  {
    && (v in s.h.records <==> 1 <= v < NextOf(s.db))
    && (TxnActive(v) in s.db <==> v in s.h.records && s.h.records[v].status.Active?)
    && (TxnActiveSnapshot(v) in s.db ==> v in s.h.records)
    && (v in s.h.records ==> SnapshotOf(s.db, v) == s.h.records[v].active)
  }

  /** Versions of a key are exactly the writes of transactions not rolled back,
      and write records exactly those of active ones. */
  ghost predicate WriteOk(s: State, v: Version, key: Bytes) {
    && (Versioned(key, v) in s.db <==> Holds(s.h.records, v, key))
    && (Versioned(key, v) in s.db && v in s.h.records && key in s.h.records[v].own ==>
          s.db[Versioned(key, v)] == Data(s.h.records[v].own[key]))
    && (TxnWrite(v, key) in s.db <==> Holds(s.h.records, v, key) && s.h.records[v].status.Active?)
  }

  /** Snapshots: an active version is in every later snapshot, and a version in a
      snapshot is in all snapshots between. */
  ghost predicate SnapshotOk(rs: Records, u: Version, v: Version) {
    v in rs ==>
      && (u in rs[v].active ==> u in rs && u < v)
      && (u in rs && u < v && rs[u].status.Active? ==> u in rs[v].active)
  }

  ghost predicate NestedOk(rs: Records, u: Version, w: Version, v: Version) {
    v in rs && w in rs && u < w < v && u in rs[v].active ==> u in rs[w].active
  }

  /** Of two versions of a key, the earlier one was committed before the later
      one began. */
  ghost predicate OrderOk(rs: Records, u: Version, v: Version, key: Bytes) {
    u < v && Holds(rs, u, key) && Holds(rs, v, key) ==> rs[u].status.Committed? && u !in rs[v].active
  }

  /** A committed version of a key below a bound and outside a set. */
  ghost predicate Counts(rs: Records, key: Bytes, n: Version, active: set<Version>, u: Version) {
    Holds(rs, u, key) && rs[u].status.Committed? && u < n && u !in active
  }

  ghost predicate Latest(rs: Records, key: Bytes, n: Version, active: set<Version>, u: Version) {
    Counts(rs, key, n, active, u) && forall w: Version :: Counts(rs, key, n, active, w) ==> w <= u
  }

  /** A store is what the committed versions below a bound and outside a set add
      up to, for one key. */
  ghost predicate Shows(rs: Records, n: Version, active: set<Version>, base: Store, key: Bytes) {
    || (key !in base && forall w :: !Counts(rs, key, n, active, w))
    || exists u :: Latest(rs, key, n, active, u) && Lookup(base, key) == rs[u].own[key]
  }

  ghost predicate CurrentOk(s: State, key: Bytes)
    requires Typed(s.db)
  {
    Shows(s.h.records, NextOf(s.db), {}, s.h.current, key)
  }

  ghost predicate BaseOk(rs: Records, v: Version, key: Bytes) {
    v in rs ==> Shows(rs, v, rs[v].active, rs[v].base, key)
  }

  ghost predicate ReaderOk(s: State, id: nat, key: Bytes)
    requires Typed(s.db)
  {
    id < |s.h.readers| ==>
      var r := s.h.readers[id];
      && r.txn.readOnly && r.txn.version <= NextOf(s.db)
      && Shows(s.h.records, r.txn.version, r.txn.active, r.base, key)
  }

  ghost predicate ReaderActiveOk(s: State, id: nat, u: Version) {
    id < |s.h.readers| && u in s.h.records && u < s.h.readers[id].txn.version && s.h.records[u].status.Active? ==>
      u in s.h.readers[id].txn.active
  }

  /** Every handle works with the state that its transaction began with. */
  ghost predicate HandleOk(s: State, x: nat) {
    x in s.handles ==> Known(s.h, s.handles[x].owner) && s.handles[x].txn == StateOf(s.h, s.handles[x].owner)
  }

  ghost predicate Inv(s: State) {
    && Typed(s.db) && NextOf(s.db) >= 1
    && (forall x :: HandleOk(s, x))
    && (forall v :: RecordOk(s, v))
    && (forall v, key :: WriteOk(s, v, key))
    && (forall u, v :: SnapshotOk(s.h.records, u, v))
    && (forall u, w, v :: NestedOk(s.h.records, u, w, v))
    && (forall u, v, key :: OrderOk(s.h.records, u, v, key))
    && (forall key :: CurrentOk(s, key))
    && (forall v, key :: BaseOk(s.h.records, v, key))
    && (forall id, key :: ReaderOk(s, id, key))
    && (forall id, u :: ReaderActiveOk(s, id, u))
  }

  // ---- What a store shows ----

  lemma ShowsKept(rs: Records, rs': Records, n: Version, n': Version, active: set<Version>, active': set<Version>,
                  base: Store, key: Bytes)
    requires Shows(rs, n, active, base, key)
    requires forall w :: Counts(rs, key, n, active, w) <==> Counts(rs', key, n', active', w)
    requires forall w :: Counts(rs, key, n, active, w) && Counts(rs', key, n', active', w) ==>
               rs'[w].own[key] == rs[w].own[key]
    ensures Shows(rs', n', active', base, key)
  {
    if !(key !in base && forall w :: !Counts(rs, key, n, active, w)) {
      var u :| Latest(rs, key, n, active, u) && Lookup(base, key) == rs[u].own[key];
      assert Latest(rs', key, n', active', u);
    }
  }

  /** Only version v may differ between two histories. */
  ghost predicate SameBut(rs: Records, rs': Records, v: Version) {
    forall w :: w != v ==> (w in rs <==> w in rs') && (w in rs ==> rs'[w] == rs[w])
  }

  /** A view that cannot see v is not changed by what happens to v. */
  lemma ShowsWithout(rs: Records, rs': Records, v: Version, n: Version, active: set<Version>, base: Store, key: Bytes)
    requires Shows(rs, n, active, base, key) && SameBut(rs, rs', v) && (v >= n || v in active)
    ensures Shows(rs', n, active, base, key)
  {
    ShowsKept(rs, rs', n, n, active, active, base, key);
  }

  // ---- Beginning ----

  /** The committed store is what the versions not active now add up to. */
  lemma CurrentShows(s: State, key: Bytes)
    requires Inv(s)
    ensures Shows(s.h.records, NextOf(s.db), ActiveIn(s.db), s.h.current, key)
  {
    var rs, n := s.h.records, NextOf(s.db);
    assert CurrentOk(s, key);
    forall w ensures Counts(rs, key, n, {}, w) <==> Counts(rs, key, n, ActiveIn(s.db), w) {
      ActiveMeans(s, w);
    }
    ShowsKept(rs, rs, n, n, {}, ActiveIn(s.db), s.h.current, key);
  }

  lemma ActiveMeans(s: State, v: Version)
    requires Inv(s)
    ensures v in ActiveIn(s.db) <==> v in s.h.records && s.h.records[v].status.Active?
  {
    assert RecordOk(s, v);
    assert v in ActiveIn(s.db) <==> TxnActive(v) in s.db;
  }

  lemma BeginRecords(s: State, x: nat, s': State)
    requires Inv(s) && x !in s.handles && s' == After(s, DoBegin(x))
    ensures Typed(s'.db) && NextOf(s'.db) == NextOf(s.db) + 1 && s'.h.current == s.h.current
            && s'.h.readers == s.h.readers
    ensures s'.h.records == s.h.records[NextOf(s.db) := Record(Active, ActiveIn(s.db), s.h.current, map[])]
    ensures forall v :: RecordOk(s', v)
    ensures forall v, key :: WriteOk(s', v, key)
    ensures forall y :: HandleOk(s', y)
  {
    assert RecordOk(s, NextOf(s.db));
    forall v ensures RecordOk(s', v) { assert RecordOk(s, v); }
    forall v, key ensures WriteOk(s', v, key) { assert WriteOk(s, v, key); }
    forall y ensures HandleOk(s', y) { assert HandleOk(s, y); }
  }

  lemma BeginSnapshots(s: State, v: Version, rs': Records)
    requires Inv(s) && v == NextOf(s.db) && rs' == s.h.records[v := Record(Active, ActiveIn(s.db), s.h.current, map[])]
    ensures forall u, x :: SnapshotOk(rs', u, x)
    ensures forall u, w, x :: NestedOk(rs', u, w, x)
    ensures forall u, x, key :: OrderOk(rs', u, x, key)
  {
    var rs := s.h.records;
    forall u, x ensures SnapshotOk(rs', u, x) {
      assert SnapshotOk(rs, u, x) && RecordOk(s, u) && RecordOk(s, x);
      ActiveMeans(s, u);
    }
    forall u, w, x ensures NestedOk(rs', u, w, x) {
      assert NestedOk(rs, u, w, x) && SnapshotOk(rs, u, w) && RecordOk(s, x) && RecordOk(s, w);
      ActiveMeans(s, u);
    }
    forall u, x, key ensures OrderOk(rs', u, x, key) { assert OrderOk(rs, u, x, key); }
  }

  lemma BeginStep(s: State, y: nat, s': State)
    requires Inv(s) && y !in s.handles && s' == After(s, DoBegin(y))
    ensures Inv(s')
  {
    var rs, rs', v := s.h.records, s'.h.records, NextOf(s.db);
    BeginRecords(s, y, s');
    BeginSnapshots(s, v, rs');
    forall key ensures CurrentOk(s', key) {
      assert CurrentOk(s, key);
      forall w ensures Counts(rs, key, v, {}, w) <==> Counts(rs', key, v + 1, {}, w) { assert RecordOk(s, w); }
      ShowsKept(rs, rs', v, v + 1, {}, {}, s.h.current, key);
    }
    forall x, key ensures BaseOk(rs', x, key) {
      if x == v {
        CurrentShows(s, key);
        ShowsWithout(rs, rs', v, v, ActiveIn(s.db), s.h.current, key);
      } else if x in rs {
        assert BaseOk(rs, x, key) && RecordOk(s, x);
        ShowsWithout(rs, rs', v, x, rs[x].active, rs[x].base, key);
      }
    }
    forall id: nat, key ensures ReaderOk(s', id, key) {
      assert ReaderOk(s, id, key);
      if id < |s.h.readers| {
        var r := s.h.readers[id];
        ShowsWithout(rs, rs', v, r.txn.version, r.txn.active, r.base, key);
      }
    }
    forall id: nat, u ensures ReaderActiveOk(s', id, u) { assert ReaderActiveOk(s, id, u) && ReaderOk(s, id, []); }
  }

  lemma ReaderBegins(s: State, asOf: Option<Version>, x: nat, s': State, id: nat)
    requires Inv(s) && x !in s.handles && s' == After(s, DoBeginReadOnly(asOf, x)) && id < |s'.h.readers|
    ensures forall key :: ReaderOk(s', id, key)
    ensures forall u :: ReaderActiveOk(s', id, u)
  {
    forall key ensures ReaderOk(s', id, key) {
      if id < |s.h.readers| {
        assert ReaderOk(s, id, key);
      } else if asOf.None? {
        CurrentShows(s, key);
      } else {
        assert RecordOk(s, asOf.value) && BaseOk(s.h.records, asOf.value, key);
      }
    }
    forall u ensures ReaderActiveOk(s', id, u) {
      if id < |s.h.readers| {
        assert ReaderActiveOk(s, id, u);
      } else if asOf.None? {
        ActiveMeans(s, u);
      } else {
        assert RecordOk(s, asOf.value) && SnapshotOk(s.h.records, u, asOf.value) && RecordOk(s, u);
      }
    }
  }

  lemma BeginReadOnlyStep(s: State, asOf: Option<Version>, y: nat, s': State)
    requires Inv(s) && y !in s.handles && s' == After(s, DoBeginReadOnly(asOf, y))
    ensures Inv(s')
  {
    forall x ensures HandleOk(s', x) { assert HandleOk(s, x); }
    forall v ensures RecordOk(s', v) { assert RecordOk(s, v); }
    forall v, key ensures WriteOk(s', v, key) { assert WriteOk(s, v, key); }
    forall key ensures CurrentOk(s', key) { assert CurrentOk(s, key); }
    forall id: nat, key ensures ReaderOk(s', id, key) {
      if id < |s'.h.readers| { ReaderBegins(s, asOf, y, s', id); }
    }
    forall id: nat, u ensures ReaderActiveOk(s', id, u) {
      if id < |s'.h.readers| { ReaderBegins(s, asOf, y, s', id); }
    }
  }

  /** The invariant looks at the handles one by one. */
  lemma OtherHandles(s: State, s': State)
    requires Inv(s) && s' == s.(handles := s'.handles) && forall x :: HandleOk(s', x)
    ensures Inv(s')
  {
    forall x ensures RecordOk(s', x) { assert RecordOk(s, x); }
    forall x, key ensures WriteOk(s', x, key) { assert WriteOk(s, x, key); }
    forall key ensures CurrentOk(s', key) { assert CurrentOk(s, key); }
    forall id: nat, key ensures ReaderOk(s', id, key) { assert ReaderOk(s, id, key); }
    forall id: nat, u ensures ReaderActiveOk(s', id, u) { assert ReaderActiveOk(s, id, u); }
  }

  lemma ResumeStep(s: State, o: Owner, y: nat, s': State)
    requires Inv(s) && y !in s.handles && Known(s.h, o) && s' == After(s, DoResume(o, y))
    ensures Inv(s')
  {
    forall x ensures HandleOk(s', x) { assert HandleOk(s, x); }
    OtherHandles(s, s');
  }

  // ---- Writing ----

  /** The conflict check is exact: looking only at the latest version from the
      oldest active one on, it fails if and only if some version of the key is
      invisible to the transaction. */
  lemma ConflictIffInvisible(s: State, v: Version, key: Bytes)
    requires Inv(s) && v in s.h.records
    ensures Conflicts(s.db, TxnOf(s.h, v), key) <==>
              exists u :: u in VersionsOf(s.db, key) && !IsVisible(TxnOf(s.h, v), u)
  {
    var t := TxnOf(s.h, v);
    var later := set x | x in VersionsOf(s.db, key) && x >= ConflictFrom(t);
    if u :| u in VersionsOf(s.db, key) && !IsVisible(t, u) {
      if u in t.active {
        assert SnapshotOk(s.h.records, u, v);
      }
      if t.active != {} {
        assert SnapshotOk(s.h.records, MinOf(t.active), v);
      }
      assert u in later;
      var last := MaxOf(later);
      if IsVisible(t, last) {
        VisibleAfterInvisible(s, v, key, u, last);
        assert false;
      }
    }
  }

  lemma VisibleAfterInvisible(s: State, v: Version, key: Bytes, u: Version, last: Version)
    requires Inv(s) && v in s.h.records && u in VersionsOf(s.db, key) && last in VersionsOf(s.db, key)
    requires u <= last && IsVisible(TxnOf(s.h, v), last)
    ensures IsVisible(TxnOf(s.h, v), u)
  {
    assert WriteOk(s, u, key) && WriteOk(s, last, key) && OrderOk(s.h.records, u, last, key);
    assert NestedOk(s.h.records, u, last, v);
  }

  lemma ShowsUncommitted(rs: Records, rs': Records, v: Version, n: Version, active: set<Version>, base: Store,
                         key: Bytes)
    requires Shows(rs, n, active, base, key) && SameBut(rs, rs', v)
    requires v in rs && !rs[v].status.Committed? && v in rs' && !rs'[v].status.Committed?
    ensures Shows(rs', n, active, base, key)
  {
    ShowsKept(rs, rs', n, n, active, active, base, key);
  }

  /** Changing the record of an active version, other than by committing it,
      changes no view. */
  lemma ViewsUnchanged(s: State, v: Version, s': State)
    requires Inv(s) && Typed(s'.db) && NextOf(s'.db) == NextOf(s.db)
    requires v in s.h.records && s.h.records[v].status.Active?
    requires v in s'.h.records && !s'.h.records[v].status.Committed?
    requires s'.h.records == s.h.records[v := s'.h.records[v]]
    requires s'.h.records[v].active == s.h.records[v].active && s'.h.records[v].base == s.h.records[v].base
    requires s'.h.current == s.h.current && s'.h.readers == s.h.readers
    ensures forall key :: CurrentOk(s', key)
    ensures forall x, key :: BaseOk(s'.h.records, x, key)
    ensures forall id, key :: ReaderOk(s', id, key)
    ensures forall id, u :: ReaderActiveOk(s', id, u)
  {
    var rs, rs' := s.h.records, s'.h.records;
    forall key ensures CurrentOk(s', key) {
      assert CurrentOk(s, key);
      ShowsUncommitted(rs, rs', v, NextOf(s.db), {}, s.h.current, key);
    }
    forall x, key ensures BaseOk(rs', x, key) {
      assert BaseOk(rs, x, key);
      if x in rs {
        ShowsUncommitted(rs, rs', v, x, rs[x].active, rs[x].base, key);
      }
    }
    forall id: nat, key ensures ReaderOk(s', id, key) {
      assert ReaderOk(s, id, key);
      if id < |s.h.readers| {
        var r := s.h.readers[id];
        ShowsUncommitted(rs, rs', v, r.txn.version, r.txn.active, r.base, key);
      }
    }
    forall id: nat, u ensures ReaderActiveOk(s', id, u) { assert ReaderActiveOk(s, id, u); }
  }

  lemma WriteStep(s: State, y: nat, v: Version, key: Bytes, value: Option<Bytes>, s': State)
    requires Inv(s) && y in s.handles && s.handles[y].owner == Writer(v)
    requires v in s.h.records && s.h.records[v].status.Active? && s' == After(s, DoWrite(y, key, value))
    ensures Inv(s')
  {
    assert RecordOk(s, v) && HandleOk(s, y);
    if s' != s {
      var rs, rs' := s.h.records, s'.h.records;
      ConflictIffInvisible(s, v, key);
      forall x ensures HandleOk(s', x) { assert HandleOk(s, x); }
      forall x ensures RecordOk(s', x) { assert RecordOk(s, x); }
      forall x, k ensures WriteOk(s', x, k) { assert WriteOk(s, x, k); }
      forall u, x ensures SnapshotOk(rs', u, x) { assert SnapshotOk(rs, u, x); }
      forall u, w, x ensures NestedOk(rs', u, w, x) { assert NestedOk(rs, u, w, x); }
      forall u, x, k ensures OrderOk(rs', u, x, k) {
        assert OrderOk(rs, u, x, k);
        if k == key && Holds(rs, u, k) && x == v { WrittenIsVisible(s, v, key, u); }
        if k == key && Holds(rs, x, k) && u == v { WrittenIsVisible(s, v, key, x); }
      }
      ViewsUnchanged(s, v, s');
    }
  }

  /** When a write succeeds, every version of the key was visible. */
  lemma WrittenIsVisible(s: State, v: Version, key: Bytes, u: Version)
    requires Inv(s) && v in s.h.records && !Conflicts(s.db, TxnOf(s.h, v), key) && Holds(s.h.records, u, key)
    ensures u <= v && u !in s.h.records[v].active
    ensures u < v ==> !s.h.records[u].status.Active?
  {
    assert WriteOk(s, u, key) && SnapshotOk(s.h.records, u, v);
    assert u in VersionsOf(s.db, key) by {
      assert Versioned(key, u) in s.db;
    }
    ConflictIffInvisible(s, v, key);
  }

  // ---- Committing and rolling back ----

  /** After a commit, v is the latest committed version of what it wrote. */
  lemma CommitCurrent(s: State, v: Version, s': State, key: Bytes)
    requires Inv(s) && v in s.h.records && s.h.records[v].status.Active? && s'.h == Ended(s.h, Writer(v), Committed)
    requires Typed(s'.db) && NextOf(s'.db) == NextOf(s.db)
    ensures CurrentOk(s', key)
  {
    var rs, rs', n := s.h.records, s'.h.records, NextOf(s.db);
    assert CurrentOk(s, key) && RecordOk(s, v);
    if key in rs[v].own {
      assert rs'[v] == rs[v].(status := Committed);
      forall w: Version | Counts(rs', key, n, {}, w) ensures w <= v {
        assert OrderOk(rs, v, w, key);
      }
      assert Latest(rs', key, n, {}, v);
      assert Lookup(s'.h.current, key) == rs'[v].own[key];
    } else {
      ShowsKept(rs, rs', n, n, {}, {}, s.h.current, key);
      assert Lookup(s'.h.current, key) == Lookup(s.h.current, key);
    }
  }

  /** Ending a version that has ended changes nothing in the store. */
  lemma EndedAlready(s: State, v: Version)
    requires Inv(s) && v in s.h.records && !s.h.records[v].status.Active?
    ensures Commit(s.db, TxnOf(s.h, v)) == s.db && Rollback(s.db, TxnOf(s.h, v)) == s.db
  {
    assert RecordOk(s, v);
    forall k | k in s.db && k.TxnWrite? ensures k.version != v { assert WriteOk(s, k.version, k.key); }
    forall k | k in s.db && k.Versioned? && k.version == v ensures TxnWrite(v, k.key) !in s.db {
      assert WriteOk(s, v, k.key);
    }
  }

  lemma FewerHandles(s: State, y: nat)
    requires Inv(s)
    ensures Inv(s.(handles := s.handles - {y}))
  {
    var s' := s.(handles := s.handles - {y});
    forall x ensures HandleOk(s', x) { assert HandleOk(s, x); }
    OtherHandles(s, s');
  }

  /** A read-only transaction cannot write, and ending it leaves the store alone. */
  lemma ViewerIsHarmless(s: State, y: nat, key: Bytes, value: Option<Bytes>)
    requires Inv(s) && y in s.handles && s.handles[y].owner.Viewer?
    ensures WriteVersion(s.db, s.handles[y].txn, key, value) == Err(ReadOnlyTransaction)
    ensures Commit(s.db, s.handles[y].txn) == s.db && Rollback(s.db, s.handles[y].txn) == s.db
  {
    assert HandleOk(s, y) && ReaderOk(s, s.handles[y].owner.id, []);
  }

  lemma ViewerStep(s: State, a: Action, s': State)
    requires Inv(s) && Next(s, a, s') && (a.DoWrite? || a.DoCommit? || a.DoRollback?)
    requires s.handles[a.x].owner.Viewer?
    ensures Inv(s')
  {
    ViewerIsHarmless(s, a.x, if a.DoWrite? then a.key else [], if a.DoWrite? then a.value else None);
    if !a.DoWrite? { FewerHandles(s, a.x); }
  }

  lemma CommitStep(s: State, y: nat, v: Version, s': State)
    requires Inv(s) && y in s.handles && s.handles[y].owner == Writer(v) && v in s.h.records
    requires s' == After(s, DoCommit(y))
    ensures Inv(s')
  {
    assert RecordOk(s, v) && HandleOk(s, y);
    if !s.h.records[v].status.Active? {
      EndedAlready(s, v);
      FewerHandles(s, y);
    } else {
      var rs, rs' := s.h.records, s'.h.records;
      forall x ensures HandleOk(s', x) { assert HandleOk(s, x); }
      forall x ensures RecordOk(s', x) { assert RecordOk(s, x); }
      forall x, k ensures WriteOk(s', x, k) { assert WriteOk(s, x, k); }
      forall u, x ensures SnapshotOk(rs', u, x) { assert SnapshotOk(rs, u, x); }
      forall u, w, x ensures NestedOk(rs', u, w, x) { assert NestedOk(rs, u, w, x); }
      forall u, x, k ensures OrderOk(rs', u, x, k) { assert OrderOk(rs, u, x, k); }
      CommitViews(s, v, s');
    }
  }

  /** A commit changes the committed store, and no view from before. */
  lemma CommitViews(s: State, v: Version, s': State)
    requires Inv(s) && v in s.h.records && s.h.records[v].status.Active? && s'.h == Ended(s.h, Writer(v), Committed)
    requires Typed(s'.db) && NextOf(s'.db) == NextOf(s.db)
    ensures forall k :: CurrentOk(s', k)
    ensures forall x, k :: BaseOk(s'.h.records, x, k)
    ensures forall id, k :: ReaderOk(s', id, k)
    ensures forall id, u :: ReaderActiveOk(s', id, u)
  {
    var rs, rs' := s.h.records, s'.h.records;
    forall k ensures CurrentOk(s', k) { CommitCurrent(s, v, s', k); }
    forall x, k ensures BaseOk(rs', x, k) {
      assert BaseOk(rs, x, k) && SnapshotOk(rs, v, x);
      if x in rs {
        ShowsWithout(rs, rs', v, x, rs[x].active, rs[x].base, k);
      }
    }
    forall id: nat, k ensures ReaderOk(s', id, k) {
      assert ReaderOk(s, id, k) && ReaderActiveOk(s, id, v);
      if id < |s.h.readers| {
        var r := s.h.readers[id];
        ShowsWithout(rs, rs', v, r.txn.version, r.txn.active, r.base, k);
      }
    }
    forall id: nat, u ensures ReaderActiveOk(s', id, u) { assert ReaderActiveOk(s, id, u); }
  }

  lemma RollbackStep(s: State, y: nat, v: Version, s': State)
    requires Inv(s) && y in s.handles && s.handles[y].owner == Writer(v) && v in s.h.records
    requires s' == After(s, DoRollback(y))
    ensures Inv(s')
  {
    assert RecordOk(s, v) && HandleOk(s, y);
    if !s.h.records[v].status.Active? {
      EndedAlready(s, v);
      FewerHandles(s, y);
    } else {
      var rs, rs' := s.h.records, s'.h.records;
      forall x ensures HandleOk(s', x) { assert HandleOk(s, x); }
      forall x ensures RecordOk(s', x) { assert RecordOk(s, x); }
      forall x, k ensures WriteOk(s', x, k) { assert WriteOk(s, x, k) && WriteOk(s, v, k); }
      forall u, x ensures SnapshotOk(rs', u, x) { assert SnapshotOk(rs, u, x); }
      forall u, w, x ensures NestedOk(rs', u, w, x) { assert NestedOk(rs, u, w, x); }
      forall u, x, k ensures OrderOk(rs', u, x, k) { assert OrderOk(rs, u, x, k); }
      ViewsUnchanged(s, v, s');
    }
  }

  lemma InvInit(s: State)
    requires Init(s)
    ensures Inv(s)
  {
  }

  lemma WriterStep(s: State, a: Action, v: Version, s': State)
    requires Inv(s) && Next(s, a, s') && Fresh(s, a) && (a.DoWrite? || a.DoCommit? || a.DoRollback?)
    requires s.handles[a.x].owner == Writer(v)
    ensures Inv(s')
  {
    match a
    case DoWrite(x, key, value) => WriteStep(s, x, v, key, value, s');
    case DoCommit(x) => CommitStep(s, x, v, s');
    case DoRollback(x) => RollbackStep(s, x, v, s');
  }

  lemma InvStep(s: State, a: Action, s': State)
    requires Inv(s) && Next(s, a, s') && Fresh(s, a)
    ensures Inv(s')
  {
    match a
    case DoBegin(x) => BeginStep(s, x, s');
    case DoBeginReadOnly(asOf, x) => BeginReadOnlyStep(s, asOf, x, s');
    case DoResume(o, x) => ResumeStep(s, o, x, s');
    case _ =>
      match s.handles[a.x].owner
      case Viewer(_) => ViewerStep(s, a, s');
      case Writer(v) => WriterStep(s, a, v, s');
  }

  lemma {:induction false} InvRun(ss: seq<State>, acts: seq<Action>, j: nat)
    requires Run(ss, acts) && j < |ss|
    ensures Inv(ss[j])
  {
    if j == 0 {
      InvInit(ss[0]);
    } else {
      InvRun(ss, acts, j - 1);
      assert StepAt(ss, acts, j - 1) && FreshAt(ss, acts, j - 1);
      InvStep(ss[j - 1], acts[j - 1], ss[j]);
    }
  }

  // ---- Reading ----

  lemma GetIsShown(s: State, t: Txn, n: Version, active: set<Version>, base: Store, key: Bytes)
    requires Inv(s) && Shows(s.h.records, n, active, base, key)
    requires forall u :: u in VisibleVersions(s.db, t, key) <==> Counts(s.h.records, key, n, active, u)
    ensures Get(s.db, t, key) == Lookup(base, key)
  {
    var vs := VisibleVersions(s.db, t, key);
    if vs != {} {
      var m := MaxOf(vs);
      assert Counts(s.h.records, key, n, active, m) && WriteOk(s, m, key);
      var u :| Latest(s.h.records, key, n, active, u) && Lookup(base, key) == s.h.records[u].own[key];
      assert u in vs;
      assert u == m;
    }
  }

  lemma VersionMeans(s: State, key: Bytes, u: Version)
    requires Inv(s)
    ensures u in VersionsOf(s.db, key) <==> Holds(s.h.records, u, key)
  {
    assert WriteOk(s, u, key);
    assert u in VersionsOf(s.db, key) <==> Versioned(key, u) in s.db;
  }

  /** What a read-write transaction should see: its own last write of a key, unless it
      was rolled back, or else what was committed when it began. */
  function OwnOrBase(r: Record, key: Bytes): Option<Bytes> {
    if key in r.own && !r.status.RolledBack? then r.own[key] else Lookup(r.base, key)
  }

  lemma GetOwnOrBase(s: State, v: Version, key: Bytes)
    requires Inv(s) && v in s.h.records
    ensures Get(s.db, TxnOf(s.h, v), key) == OwnOrBase(s.h.records[v], key)
  {
    var t, r := TxnOf(s.h, v), s.h.records[v];
    assert SnapshotOk(s.h.records, v, v);
    VersionMeans(s, key, v);
    if key in r.own && !r.status.RolledBack? {
      assert WriteOk(s, v, key);
      assert v in VisibleVersions(s.db, t, key);
      assert MaxOf(VisibleVersions(s.db, t, key)) == v;
    } else {
      forall u ensures u in VisibleVersions(s.db, t, key) <==> Counts(s.h.records, key, v, r.active, u) {
        VersionMeans(s, key, u);
        assert SnapshotOk(s.h.records, u, v);
      }
      assert BaseOk(s.h.records, v, key);
      GetIsShown(s, t, v, r.active, r.base, key);
    }
  }

  /** A read-only transaction reads what its reader's store has. */
  lemma GetReader(s: State, id: nat, key: Bytes)
    requires Inv(s) && id < |s.h.readers|
    ensures Get(s.db, s.h.readers[id].txn, key) == Lookup(s.h.readers[id].base, key)
  {
    var r := s.h.readers[id];
    assert ReaderOk(s, id, key);
    forall u
      ensures u in VisibleVersions(s.db, r.txn, key) <==> Counts(s.h.records, key, r.txn.version, r.txn.active, u)
    {
      VersionMeans(s, key, u);
      assert ReaderActiveOk(s, id, u);
    }
    GetIsShown(s, r.txn, r.txn.version, r.txn.active, r.base, key);
  }

  // ---- Over runs ----

  /** A record keeps its snapshot, and is final once no longer active. */
  ghost predicate RecordLater(h: History, h': History, v: Version) {
    v in h.records ==>
      && v in h'.records && h'.records[v].active == h.records[v].active && h'.records[v].base == h.records[v].base
      && (!h.records[v].status.Active? ==> h'.records[v] == h.records[v])
  }

  ghost predicate Later(h: History, h': History) {
    h.readers <= h'.readers && forall v :: RecordLater(h, h', v)
  }

  lemma LaterStep(s: State, a: Action, s': State)
    requires Inv(s) && Next(s, a, s') && Fresh(s, a)
    ensures Later(s.h, s'.h)
  {
    forall v ensures RecordLater(s.h, s'.h, v) {
      assert RecordOk(s, v);
      if a.DoBegin? {
        assert RecordOk(s, NextOf(s.db));
      }
    }
  }

  lemma {:induction false} LaterRun(ss: seq<State>, acts: seq<Action>, i: nat, j: nat)
    requires Run(ss, acts) && i <= j < |ss|
    ensures Later(ss[i].h, ss[j].h)
    decreases j - i
  {
    if i < j {
      LaterRun(ss, acts, i, j - 1);
      InvRun(ss, acts, j - 1);
      assert StepAt(ss, acts, j - 1) && FreshAt(ss, acts, j - 1);
      LaterStep(ss[j - 1], acts[j - 1], ss[j]);
      forall v ensures RecordLater(ss[i].h, ss[j].h, v) {
        assert RecordLater(ss[i].h, ss[j - 1].h, v) && RecordLater(ss[j - 1].h, ss[j].h, v);
      }
    }
  }

  /** Version v began at step i. */
  ghost predicate BeganAt(ss: seq<State>, acts: seq<Action>, i: nat, v: Version) {
    i < |acts| < |ss| && v !in ss[i].h.records && v in ss[i + 1].h.records
  }

  lemma Began(ss: seq<State>, acts: seq<Action>, i: nat, v: Version)
    requires Run(ss, acts) && BeganAt(ss, acts, i, v)
    ensures Typed(ss[i].db) && v == NextOf(ss[i].db)
    ensures ss[i + 1].h.records[v] == Record(Active, ActiveIn(ss[i].db), ss[i].h.current, map[])
  {
    InvRun(ss, acts, i);
    assert StepAt(ss, acts, i);
  }

  /** Snapshot isolation: in every interleaving, at every moment, a read-write
      transaction that is in hand, whether it was begun or resumed, reads its own last
      write of a key, or else what the committed store held when it began. This is so
      after it ended, too, but a transaction rolled back has lost its writes. */
  lemma SnapshotReads(ss: seq<State>, acts: seq<Action>, i: nat, j: nat, v: Version, x: nat, key: Bytes)
    requires Run(ss, acts) && BeganAt(ss, acts, i, v) && i < j < |ss|
    requires x in ss[j].handles && ss[j].handles[x].owner == Writer(v)
    ensures Typed(ss[j].db) && v in ss[j].h.records
    ensures var r := ss[j].h.records[v];
            Get(ss[j].db, ss[j].handles[x].txn, key) ==
              if key in r.own && !r.status.RolledBack? then r.own[key] else Lookup(ss[i].h.current, key)
  {
    InvRun(ss, acts, j);
    Began(ss, acts, i, v);
    LaterRun(ss, acts, i + 1, j);
    assert RecordLater(ss[i + 1].h, ss[j].h, v) && HandleOk(ss[j], x);
    GetOwnOrBase(ss[j], v, key);
  }

  /** Reader number id began at step i. */
  ghost predicate ReaderBeganAt(ss: seq<State>, acts: seq<Action>, i: nat, id: nat, asOf: Option<Version>) {
    && i < |acts| < |ss| && acts[i].DoBeginReadOnly? && acts[i].asOf == asOf
    && |ss[i].h.readers| == id < |ss[i + 1].h.readers|
  }

  lemma ReaderReads(ss: seq<State>, acts: seq<Action>, i: nat, j: nat, id: nat, asOf: Option<Version>, x: nat,
                    key: Bytes)
    requires Run(ss, acts) && ReaderBeganAt(ss, acts, i, id, asOf) && i < j < |ss|
    requires x in ss[j].handles && ss[j].handles[x].owner == Viewer(id)
    ensures Typed(ss[j].db) && Get(ss[j].db, ss[j].handles[x].txn, key) == Lookup(BaseFor(ss[i].h, asOf), key)
  {
    InvRun(ss, acts, i);
    InvRun(ss, acts, j);
    assert StepAt(ss, acts, i);
    LaterRun(ss, acts, i + 1, j);
    assert ss[j].h.readers[id] == ss[i + 1].h.readers[id] && HandleOk(ss[j], x);
    GetReader(ss[j], id, key);
  }

  /** A read-only transaction begun at any moment, and resumed at any others, reads
      ever after what was committed at that moment. */
  lemma ReadOnlyReads(ss: seq<State>, acts: seq<Action>, i: nat, j: nat, id: nat, x: nat, key: Bytes)
    requires Run(ss, acts) && ReaderBeganAt(ss, acts, i, id, None) && i < j < |ss|
    requires x in ss[j].handles && ss[j].handles[x].owner == Viewer(id)
    ensures Typed(ss[j].db) && Get(ss[j].db, ss[j].handles[x].txn, key) == Lookup(ss[i].h.current, key)
  {
    ReaderReads(ss, acts, i, j, id, None, x, key);
  }

  /** Time travel: reading as of a version, begun at any later step, and used or resumed
      at any step after that, gives what that version's own transaction read when it
      began, whether it is still active, committed or rolled back. */
  lemma TimeTravel(ss: seq<State>, acts: seq<Action>, b: nat, y: nat, i: nat, j: nat, n: Version, id: nat, x: nat,
                   key: Bytes)
    requires Run(ss, acts) && BeganAt(ss, acts, b, n) && acts[b] == DoBegin(y) && b < i < j < |ss|
    requires ReaderBeganAt(ss, acts, i, id, Some(n))
    requires x in ss[j].handles && ss[j].handles[x].owner == Viewer(id)
    ensures Typed(ss[b + 1].db) && Typed(ss[j].db) && y in ss[b + 1].handles
    ensures Get(ss[j].db, ss[j].handles[x].txn, key) == Get(ss[b + 1].db, ss[b + 1].handles[y].txn, key)
  {
    Began(ss, acts, b, n);
    assert StepAt(ss, acts, b);
    SnapshotReads(ss, acts, b, b + 1, n, y, key);
    LaterRun(ss, acts, b + 1, i);
    assert RecordLater(ss[b + 1].h, ss[i].h, n);
    ReaderReads(ss, acts, i, j, id, Some(n), x, key);
  }

  /** A read-only transaction begins unless the version is yet to come. */
  lemma ReaderBeginsIff(ss: seq<State>, acts: seq<Action>, j: nat, asOf: Option<Version>)
    requires Run(ss, acts) && j < |ss|
    ensures Typed(ss[j].db)
    ensures BeginReadOnly(ss[j].db, asOf).Ok? <==>
              asOf.None? || asOf.value == 0 || asOf.value in ss[j].h.records
    ensures BeginReadOnly(ss[j].db, asOf).Err? ==> BeginReadOnly(ss[j].db, asOf) == Err(NoSuchVersion)
  {
    InvRun(ss, acts, j);
    if asOf.Some? {
      assert RecordOk(ss[j], asOf.value);
    }
  }

  /** A transaction can be resumed if and only if it is read-only or still active. */
  lemma ResumesIff(ss: seq<State>, acts: seq<Action>, j: nat, o: Owner)
    requires Run(ss, acts) && j < |ss| && Known(ss[j].h, o)
    ensures Resume(ss[j].db, StateOf(ss[j].h, o)).Ok? <==> o.Viewer? || ss[j].h.records[o.version].status.Active?
    ensures Resume(ss[j].db, StateOf(ss[j].h, o)).Err? ==> Resume(ss[j].db, StateOf(ss[j].h, o)) == Err(NotActive)
  {
    InvRun(ss, acts, j);
    match o
    case Writer(v) => assert RecordOk(ss[j], v);
    case Viewer(id) => assert ReaderOk(ss[j], id, []);
  }

  /** Something is done through a read-only transaction, or it is resumed. */
  ghost predicate ThroughViewer(s: State, a: Action) {
    match a
    case DoBegin(_) => false
    case DoBeginReadOnly(_, _) => false
    case DoResume(o, _) => o.Viewer?
    case _ => a.x in s.handles && s.handles[a.x].owner.Viewer?
  }

  /** Writing, committing, rolling back and resuming a read-only transaction leave the
      store and every other transaction alone, and writing fails as read-only. */
  lemma ReadersChangeNothing(ss: seq<State>, acts: seq<Action>, j: nat)
    requires Run(ss, acts) && j < |acts| && ThroughViewer(ss[j], acts[j])
    ensures ss[j + 1].db == ss[j].db && ss[j + 1].h == ss[j].h
    ensures acts[j].DoWrite? ==>
              WriteVersion(ss[j].db, ss[j].handles[acts[j].x].txn, acts[j].key, acts[j].value)
              == Err(ReadOnlyTransaction)
  {
    InvRun(ss, acts, j);
    assert StepAt(ss, acts, j);
    var a := acts[j];
    if !a.DoResume? {
      ViewerIsHarmless(ss[j], a.x, if a.DoWrite? then a.key else [], if a.DoWrite? then a.value else None);
    }
  }

  /** No lost updates: of two committed transactions that wrote the same key, the
      one with the lower version had committed before the other began. */
  lemma WritersDoNotOverlap(ss: seq<State>, acts: seq<Action>, i: nat, j: nat, u: Version, v: Version, key: Bytes)
    requires Run(ss, acts) && BeganAt(ss, acts, i, v) && i < j < |ss|
    requires u in ss[j].h.records && ss[j].h.records[u].status.Committed? && key in ss[j].h.records[u].own
    requires v in ss[j].h.records && ss[j].h.records[v].status.Committed? && key in ss[j].h.records[v].own
    requires u < v
    ensures u in ss[i].h.records && ss[i].h.records[u].status.Committed?
  {
    InvRun(ss, acts, i);
    InvRun(ss, acts, j);
    Began(ss, acts, i, v);
    LaterRun(ss, acts, i + 1, j);
    LaterRun(ss, acts, i, j);
    assert RecordLater(ss[i + 1].h, ss[j].h, v) && RecordLater(ss[i].h, ss[j].h, u);
    assert OrderOk(ss[j].h.records, u, v, key);
    assert RecordOk(ss[i], u) && RecordOk(ss[j], u);
    ActiveMeans(ss[i], u);
  }

  /** Rolling back an active transaction, through any handle of it, removes its entry in
      the active set, its write records and all its versions, and nothing else. */
  lemma RollbackIsExact(ss: seq<State>, acts: seq<Action>, j: nat, v: Version, x: nat, k: Key)
    requires Run(ss, acts) && j < |ss| && x in ss[j].handles && ss[j].handles[x].owner == Writer(v)
    requires v in ss[j].h.records && ss[j].h.records[v].status.Active?
    ensures var db' := Rollback(ss[j].db, ss[j].handles[x].txn);
            && (k in db' <==> && k in ss[j].db
                              && !((k.TxnActive? || k.TxnWrite? || k.Versioned?) && k.version == v))
            && (k in db' ==> db'[k] == ss[j].db[k])
  {
    InvRun(ss, acts, j);
    assert HandleOk(ss[j], x);
    if k.Versioned? {
      assert WriteOk(ss[j], k.version, k.key);
    }
  }

  /** The write record of an active transaction exists exactly for its versions. */
  lemma WriteRecordIffVersion(ss: seq<State>, acts: seq<Action>, j: nat, v: Version, key: Bytes)
    requires Run(ss, acts) && j < |ss| && v in ss[j].h.records && ss[j].h.records[v].status.Active?
    ensures TxnWrite(v, key) in ss[j].db <==> Versioned(key, v) in ss[j].db
  {
    InvRun(ss, acts, j);
    assert WriteOk(ss[j], v, key);
  }

  /** In every reachable state, a write through any handle of a read-write transaction
      fails if and only if some version of the key is invisible to it, and then with a
      serialization error. */
  lemma ConflictCheckIsExact(ss: seq<State>, acts: seq<Action>, j: nat, v: Version, x: nat, key: Bytes,
                             value: Option<Bytes>)
    requires Run(ss, acts) && j < |ss| && x in ss[j].handles && ss[j].handles[x].owner == Writer(v)
    ensures v in ss[j].h.records
    ensures WriteVersion(ss[j].db, ss[j].handles[x].txn, key, value).Err? <==>
              exists u :: u in VersionsOf(ss[j].db, key) && !IsVisible(TxnOf(ss[j].h, v), u)
    ensures WriteVersion(ss[j].db, ss[j].handles[x].txn, key, value).Err? ==>
              WriteVersion(ss[j].db, ss[j].handles[x].txn, key, value) == Err(Serialization)
  {
    InvRun(ss, acts, j);
    assert HandleOk(ss[j], x);
    ConflictIffInvisible(ss[j], v, key);
  }

  // ---- Writing after the end ----

  /** What a read-only transaction that begins now reads. */
  function CommittedView(db: Db, key: Bytes): Option<Bytes>
    requires Typed(db)
  {
    Get(db, BeginReadOnly(db, None).value, key)
  }

  lemma ViewIsCurrent(s: State, key: Bytes)
    requires Inv(s)
    ensures CommittedView(s.db, key) == Lookup(s.h.current, key)
  {
    var t := BeginReadOnly(s.db, None).value;
    CurrentShows(s, key);
    forall u ensures u in VisibleVersions(s.db, t, key) <==> Counts(s.h.records, key, t.version, t.active, u) {
      VersionMeans(s, key, u);
      ActiveMeans(s, u);
    }
    GetIsShown(s, t, t.version, t.active, s.h.current, key);
  }

  /** The store after a write that was accepted. */
  lemma AcceptedStore(s: State, v: Version, key: Bytes, value: Option<Bytes>, db': Db)
    requires Inv(s) && v in s.h.records && WriteVersion(s.db, TxnOf(s.h, v), key, value) == Ok(db')
    ensures Typed(db') && BeginReadOnly(db', None) == BeginReadOnly(s.db, None)
    ensures VersionsOf(db', key) == VersionsOf(s.db, key) + {v}
    ensures forall k :: k != key ==> VersionsOf(db', k) == VersionsOf(s.db, k)
    ensures forall u :: u in VersionsOf(s.db, key) ==> u <= v
  {
    assert ActiveIn(db') == ActiveIn(s.db);
    assert Versioned(key, v) in db';
    forall u ensures u in VersionsOf(db', key) <==> u in VersionsOf(s.db, key) + {v} {
      assert u in VersionsOf(db', key) <==> Versioned(key, u) in db';
      assert u in VersionsOf(s.db, key) <==> Versioned(key, u) in s.db;
    }
    forall k | k != key ensures VersionsOf(db', k) == VersionsOf(s.db, k) {
      forall u ensures u in VersionsOf(db', k) <==> u in VersionsOf(s.db, k) {
        assert u in VersionsOf(db', k) <==> Versioned(k, u) in db';
        assert u in VersionsOf(s.db, k) <==> Versioned(k, u) in s.db;
      }
    }
    forall u | u in VersionsOf(s.db, key) ensures u <= v {
      VersionMeans(s, key, u);
      WrittenIsVisible(s, v, key, u);
    }
  }

  lemma AcceptedView(s: State, v: Version, key: Bytes, value: Option<Bytes>, db': Db, k: Bytes)
    requires Inv(s) && v in s.h.records && WriteVersion(s.db, TxnOf(s.h, v), key, value) == Ok(db')
    ensures Typed(db')
    ensures CommittedView(db', k) ==
              if k == key && !s.h.records[v].status.Active? then value else CommittedView(s.db, k)
  {
    AcceptedStore(s, v, key, value, db');
    var t := BeginReadOnly(s.db, None).value;
    ActiveMeans(s, v);
    assert RecordOk(s, v);
    if k == key && !s.h.records[v].status.Active? {
      assert v in VisibleVersions(db', t, key);
      assert MaxOf(VisibleVersions(db', t, key)) == v;
    } else {
      assert VisibleVersions(db', t, k) == VisibleVersions(s.db, t, k);
    }
  }

  /** An accepted write stays private if and only if its version is active, or it
      writes what is committed anyway. So writing through a handle whose version has
      ended changes what is committed, and has to be excluded from a run. */
  lemma WriteIsPrivateIff(s: State, v: Version, key: Bytes, value: Option<Bytes>, db': Db)
    requires Inv(s) && v in s.h.records && WriteVersion(s.db, TxnOf(s.h, v), key, value) == Ok(db')
    ensures Typed(db')
    ensures (forall k :: CommittedView(db', k) == CommittedView(s.db, k)) <==>
              s.h.records[v].status.Active? || value == Lookup(s.h.current, key)
  {
    ViewIsCurrent(s, key);
    forall k ensures Typed(db') && CommittedView(db', k) ==
                       if k == key && !s.h.records[v].status.Active? then value else CommittedView(s.db, k)
    {
      AcceptedView(s, v, key, value, db', k);
    }
    assert CommittedView(db', key) == CommittedView(s.db, key) <==>
             s.h.records[v].status.Active? || value == Lookup(s.h.current, key);
  }

  // The states of a schedule with such a write. Version 1 has two handles, and ends
  // through one of them before version 2 begins.

  const FIRST := Handle(Writer(1), Txn(1, false, {}))
  const SECOND := Handle(Writer(2), Txn(2, false, {}))

  function NothingYet(): State {
    State(map[], History(map[], map[], []), map[])
  }

  function Begun(handles: map<nat, Handle>): State {
    State(map[NextVersion := Number(2), TxnActive(1) := Nothing],
          History(map[1 := Record(Active, {}, map[], map[])], map[], []), handles)
  }

  function EndedFirst(): State {
    State(map[NextVersion := Number(2)], History(map[1 := Record(Committed, {}, map[], map[])], map[], []),
          map[1 := FIRST])
  }

  function BegunSecond(): State {
    State(map[NextVersion := Number(3), TxnActive(2) := Nothing],
          History(map[1 := Record(Committed, {}, map[], map[]), 2 := Record(Active, {}, map[], map[])], map[], []),
          map[1 := FIRST, 2 := SECOND])
  }

  lemma FirstBegins()
    ensures Next(NothingYet(), DoBegin(0), Begun(map[0 := FIRST]))
    ensures Next(Begun(map[0 := FIRST]), DoResume(Writer(1), 1), Begun(map[0 := FIRST, 1 := FIRST]))
  {
    var s := After(NothingYet(), DoBegin(0));
    assert ActiveIn(NothingYet().db) == {};
    assert s.db == Begun(map[0 := FIRST]).db && s.handles == map[0 := FIRST];
    assert s.h == Begun(map[0 := FIRST]).h;
  }

  lemma FirstEnds()
    ensures Next(Begun(map[0 := FIRST, 1 := FIRST]), DoCommit(0), EndedFirst())
  {
    var s := After(Begun(map[0 := FIRST, 1 := FIRST]), DoCommit(0));
    assert s.db == EndedFirst().db && s.handles == EndedFirst().handles;
    assert s.h.current == map[];
    assert s.h == EndedFirst().h;
  }

  lemma SecondBegins()
    ensures Next(EndedFirst(), DoBegin(2), BegunSecond())
  {
    var s := After(EndedFirst(), DoBegin(2));
    assert ActiveIn(EndedFirst().db) == {};
    assert s.db == BegunSecond().db && s.handles == BegunSecond().handles;
    assert s.h == BegunSecond().h;
  }

  lemma StaleWrite(key: Bytes, x: Bytes) returns (s: State)
    ensures Next(BegunSecond(), DoWrite(1, key, Some(x)), s)
    ensures Typed(s.db) && 2 in s.h.records && s.h.records[2] == Record(Active, {}, map[], map[])
    ensures Get(s.db, TxnOf(s.h, 2), key) == Some(x)
  {
    s := After(BegunSecond(), DoWrite(1, key, Some(x)));
    assert VersionsOf(BegunSecond().db, key) == {};
    assert s.db == BegunSecond().db[TxnWrite(1, key) := Nothing][Versioned(key, 1) := Data(Some(x))];
    assert Versioned(key, 1) in s.db;
    assert VersionsOf(s.db, key) == {1};
    assert VisibleVersions(s.db, TxnOf(s.h, 2), key) == {1};
  }

  /** Snapshot reads do not survive such a write: the other transaction reads what
      was written through the handle whose version had ended. */
  lemma StaleHandleBreaksSnapshot(key: Bytes, x: Bytes) returns (ss: seq<State>, acts: seq<Action>)
    ensures Schedule(ss, acts) && |acts| == 5 && BeganAt(ss, acts, 3, 2) && acts[4] == DoWrite(1, key, Some(x))
    ensures 2 in ss[5].h.records && ss[5].h.records[2].status.Active? && ss[5].h.records[2].own == map[]
    ensures Typed(ss[5].db) && Lookup(ss[3].h.current, key) == None
    ensures Get(ss[5].db, TxnOf(ss[5].h, 2), key) == Some(x)
  {
    acts := [DoBegin(0), DoResume(Writer(1), 1), DoCommit(0), DoBegin(2), DoWrite(1, key, Some(x))];
    FirstBegins();
    FirstEnds();
    SecondBegins();
    var last := StaleWrite(key, x);
    ss := [NothingYet(), Begun(map[0 := FIRST]), Begun(map[0 := FIRST, 1 := FIRST]), EndedFirst(), BegunSecond(), last];
    forall j: nat | j < |acts| ensures StepAt(ss, acts, j) {
      assert j == 0 || j == 1 || j == 2 || j == 3 || j == 4;
    }
  }
}
