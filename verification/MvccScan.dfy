/** Scans: the iterator over the latest live and visible version of each key,
    forwards and backwards, and its agreement with reading key by key. */
module MvccScan {
  import opened Basics
  import opened ByteOrder
  import opened Mvcc
  import opened MvccKeys
  import opened MvccEngine
  import MvccHistory

  /** A visible version met by a scan. */
  datatype Seen = Seen(key: Bytes, version: Version, value: Option<Bytes>)

  type Pair = (Bytes, Bytes)

  /** No later version of the same key follows. */
  predicate IsLast(items: seq<Seen>, i: nat)
    requires i < |items|
  {
    i + 1 < |items| ==> items[i + 1].key != items[i].key
  }

  function Emit(items: seq<Seen>, i: nat): seq<Pair>
    requires i < |items|
  {
    if IsLast(items, i) && items[i].value.Some? then [(items[i].key, items[i].value.value)] else []
  }

  /** What a forward scan has returned after consuming the first n items. */
  function Emitted(items: seq<Seen>, n: nat): seq<Pair>
    requires n <= |items|
  {
    if n == 0 then [] else Emitted(items, n - 1) + Emit(items, n - 1)
  }

  function Reverse(s: seq<Pair>): seq<Pair> {
    if s == [] then [] else [s[|s| - 1]] + Reverse(s[..|s| - 1])
  }

  lemma {:induction false} ReverseConcat(a: seq<Pair>, b: seq<Pair>)
    ensures Reverse(a + b) == Reverse(b) + Reverse(a)
  {
    if b == [] {
      assert a + b == a;
    } else {
      ReverseConcat(a, b[..|b| - 1]);
      assert (a + b)[..|a + b| - 1] == a + b[..|b| - 1];
    }
  }

  function Returned(r: Option<Pair>): seq<Pair> {
    if r.Some? then [r.value] else []
  }

  /** Consumes items from the front, up to the next pair: an item is passed over if a
      later version of its key is next, or if it is a tombstone. */
  function FromFront(items: seq<Seen>, front: nat, back: nat): (r: (nat, Option<Pair>))
    requires front <= back <= |items|
    ensures front <= r.0 <= back && (r.1.Some? ==> front < r.0) && (r.1.None? ==> r.0 == back)
    decreases back - front
  {
    if front == back then (front, None)
    else if front + 1 < back && items[front + 1].key == items[front].key then FromFront(items, front + 1, back)
    else if items[front].value.None? then FromFront(items, front + 1, back)
    else (front + 1, Some((items[front].key, items[front].value.value)))
  }

  /** Consumes items from the back, up to the next pair: an item is passed over if the
      last key met there is its own, or if it is a tombstone. */
  function FromBack(items: seq<Seen>, front: nat, back: nat, last: Option<Bytes>)
    : (r: (nat, Option<Bytes>, Option<Pair>))
    requires front <= back <= |items|
    ensures front <= r.0 <= back && (r.2.Some? ==> r.0 < back) && (r.2.None? ==> r.0 == front)
    decreases back
  {
    if front == back then (back, last, None)
    else
      var item := items[back - 1];
      if last == Some(item.key) then FromBack(items, front, back - 1, last)
      else if item.value.None? then FromBack(items, front, back - 1, Some(item.key))
      else (back - 1, Some(item.key), Some((item.key, item.value.value)))
  }

  lemma ReverseLast(rest: seq<Pair>, x: Pair, out: seq<Pair>)
    ensures out + Reverse(rest + [x]) == (out + [x]) + Reverse(rest)
  {
    ReverseConcat(rest, [x]);
    assert Reverse([x]) == [x];
  }

  class ScanIterator {
    const items: seq<Seen>
    var front: nat
    var back: nat
    /** The previous key met from the back. */
    var lastBack: Option<Bytes>

    ghost predicate Valid()
      reads this
    {
      front <= back <= |items|
    }

    constructor (items: seq<Seen>)
      ensures Valid() && this.items == items && front == 0 && back == |items| && lastBack == None
    {
      this.items, front, back, lastBack := items, 0, |items|, None;
    }

    /** The next pair from the front. */
    method Next() returns (r: Option<Pair>)
      requires Valid()
      modifies this`front
      ensures Valid() && (front, r) == FromFront(items, old(front), back)
    {
      while front < back
        invariant Valid() && FromFront(items, front, back) == FromFront(items, old(front), back)
        decreases back - front
      {
        var item := items[front];
        front := front + 1;
        if front < back && items[front].key == item.key {
          continue;
        }
        if item.value.Some? {
          return Some((item.key, item.value.value));
        }
      }
      r := None;
    }

    /** The next pair from the back. */
    method NextBack() returns (r: Option<Pair>)
      requires Valid()
      modifies this`back, this`lastBack
      ensures Valid() && (back, lastBack, r) == FromBack(items, front, old(back), old(lastBack))
    {
      while front < back
        invariant Valid() && FromBack(items, front, back, lastBack) == FromBack(items, front, old(back), old(lastBack))
        decreases back
      {
        back := back - 1;
        var item := items[back];
        if lastBack == Some(item.key) {
          continue;
        }
        lastBack := Some(item.key);
        if item.value.Some? {
          return Some((item.key, item.value.value));
        }
      }
      r := None;
    }

    /** Collects everything from the front. */
    method ToVec() returns (out: seq<Pair>)
      requires Valid() && front == 0 && back == |items|
      modifies this
      ensures out == Emitted(items, |items|)
    {
      out := [];
      while true
        invariant Valid() && back == |items| && out == Emitted(items, front)
        decreases |items| - front
      {
        FrontMeans(items, front, back);
        var x := Next();
        if x.None? {
          break;
        }
        out := out + [x.value];
      }
    }

    /** Collects everything from the back. */
    method ToVecBack() returns (out: seq<Pair>)
      requires Valid() && front == 0 && back == |items| && lastBack == None
      modifies this
      ensures out == Reverse(Emitted(items, |items|))
    {
      out := [];
      while true
        invariant Valid() && front == 0 && BackOk(items, back, lastBack)
        invariant out + Reverse(Emitted(items, back)) == Reverse(Emitted(items, |items|))
        decreases back
      {
        BackMeans(items, front, back, lastBack);
        var x := NextBack();
        if x.None? {
          break;
        }
        ReverseLast(Emitted(items, back), x.value, out);
        out := out + [x.value];
      }
    }
  }

  /** The key remembered from the back is the one just consumed there. */
  ghost predicate BackOk(items: seq<Seen>, back: nat, lastBack: Option<Bytes>) {
    back <= |items| && lastBack == if back < |items| then Some(items[back].key) else None
  }

  /** Whether the item at the front is passed over. */
  predicate Passed(items: seq<Seen>, front: nat, back: nat)
    requires front < back <= |items|
  {
    (front + 1 < back && items[front + 1].key == items[front].key) || items[front].value.None?
  }

  lemma EmittedFront(items: seq<Seen>, front: nat, back: nat)
    requires front < back <= |items|
    ensures Passed(items, front, back) ==> Emitted(items, front + 1) == Emitted(items, front)
    ensures !Passed(items, front, back) ==>
              Emitted(items, front + 1) == Emitted(items, front) +
                if front + 1 == back < |items| && items[back].key == items[front].key then []
                else [(items[front].key, items[front].value.value)]
  {
    if Passed(items, front, back) {
      assert Emit(items, front) == [];
    }
  }

  /** A step from the front gives the next pair of the forward result, unless it runs
      into the items consumed from the back within the versions of one key. */
  lemma {:induction false} FrontMeans(items: seq<Seen>, front: nat, back: nat)
    requires front <= back <= |items|
    ensures var (front', r) := FromFront(items, front, back);
            if r.Some? && !(front' == back < |items| && items[back].key == r.value.0)
            then Emitted(items, front') == Emitted(items, front) + [r.value]
            else Emitted(items, front') == Emitted(items, front)
    decreases back - front
  {
    if front < back {
      EmittedFront(items, front, back);
      if Passed(items, front, back) {
        FrontMeans(items, front + 1, back);
      }
    }
  }

  /** A step from the back gives the last pair of the forward result so far. */
  lemma {:induction false} BackMeans(items: seq<Seen>, front: nat, back: nat, last: Option<Bytes>)
    requires front <= back && BackOk(items, back, last)
    ensures var (back', last', r) := FromBack(items, front, back, last);
            BackOk(items, back', last')
            && Emitted(items, back) == Emitted(items, back') + Returned(r)
    decreases back
  {
    if front < back {
      var item := items[back - 1];
      var last' := Some(item.key);
      if last == last' || item.value.None? {
        BackMeans(items, front, back - 1, last');
      }
    }
  }

  // ---- What a scan returns ----

  ghost predicate Sorted(items: seq<Seen>) {
    forall i, j :: 0 <= i < j < |items| ==>
      VersionedLess(items[i].key, items[i].version, items[j].key, items[j].version)
  }

  ghost predicate SeenOk(db: Db, t: Txn, want: Bytes -> bool, items: seq<Seen>, x: Seen) {
    x in items <==>
      && Versioned(x.key, x.version) in db && db[Versioned(x.key, x.version)] == Data(x.value)
      && IsVisible(t, x.version) && want(x.key)
  }

  /** The visible versions of the wanted keys, by key and then by version. */
  ghost predicate IsVersionScan(db: Db, t: Txn, want: Bytes -> bool, items: seq<Seen>) {
    Sorted(items) && forall x :: SeenOk(db, t, want, items, x)
  }

  ghost predicate EmitsAt(items: seq<Seen>, i: nat, k: Bytes, v: Bytes) {
    i < |items| && IsLast(items, i) && items[i].key == k && items[i].value == Some(v)
  }

  lemma {:induction false} EmittedMeans(items: seq<Seen>, n: nat, k: Bytes, v: Bytes)
    requires n <= |items|
    ensures (k, v) in Emitted(items, n) <==> exists i: nat :: i < n && EmitsAt(items, i, k, v)
  {
    if n > 0 {
      EmittedMeans(items, n - 1, k, v);
      assert (k, v) in Emit(items, n - 1) <==> EmitsAt(items, n - 1, k, v);
    }
  }

  /** After the last version of a key come only greater keys. */
  lemma AfterLast(items: seq<Seen>, i: nat, j: nat)
    requires Sorted(items) && i < j < |items| && IsLast(items, i)
    ensures Less(items[i].key, items[j].key)
  {
    if i + 1 < j {
      var a, b, c := items[i].key, items[i + 1].key, items[j].key;
      if Less(b, c) {
        LessTransitive(a, b, c);
      }
    }
  }

  lemma EmittedIsGet(db: Db, t: Txn, want: Bytes -> bool, items: seq<Seen>, i: nat, k: Bytes, v: Bytes)
    requires Typed(db) && IsVersionScan(db, t, want, items) && EmitsAt(items, i, k, v)
    ensures want(k) && Get(db, t, k) == Some(v)
  {
    assert SeenOk(db, t, want, items, items[i]);
    var visible := VisibleVersions(db, t, k);
    assert items[i].version in visible;
    var m := MaxOf(visible);
    var x := Seen(k, m, db[Versioned(k, m)].data);
    assert SeenOk(db, t, want, items, x);
    var j :| 0 <= j < |items| && items[j] == x;
    if i < j {
      AfterLast(items, i, j);
      LessIrreflexive(k);
    } else if j < i {
      LessIrreflexive(k);
    }
  }

  lemma GetIsEmitted(db: Db, t: Txn, want: Bytes -> bool, items: seq<Seen>, k: Bytes, v: Bytes) returns (i: nat)
    requires Typed(db) && IsVersionScan(db, t, want, items) && want(k) && Get(db, t, k) == Some(v)
    ensures EmitsAt(items, i, k, v)
  {
    var visible := VisibleVersions(db, t, k);
    var m := MaxOf(visible);
    var x := Seen(k, m, Some(v));
    assert SeenOk(db, t, want, items, x);
    i :| 0 <= i < |items| && items[i] == x;
    if i + 1 < |items| {
      var y := items[i + 1];
      assert SeenOk(db, t, want, items, y);
      LessIrreflexive(k);
      assert y.key == k ==> y.version in visible;
    }
  }

  ghost predicate PairsAscending(out: seq<Pair>) {
    forall i, j :: 0 <= i < j < |out| ==> Less(out[i].0, out[j].0)
  }

  lemma {:induction false} EmittedAscending(items: seq<Seen>, n: nat)
    requires Sorted(items) && n <= |items|
    ensures PairsAscending(Emitted(items, n))
  {
    if n > 0 {
      EmittedAscending(items, n - 1);
      var out := Emitted(items, n - 1);
      forall j | 0 <= j < |out| ensures Less(out[j].0, items[n - 1].key) {
        EmittedMeans(items, n - 1, out[j].0, out[j].1);
        var i: nat :| i < n - 1 && EmitsAt(items, i, out[j].0, out[j].1);
        AfterLast(items, i, n - 1);
      }
    }
  }

  /** A forward scan returns exactly the wanted keys that reading finds present,
      with the value that reading gives, each once and in key order. */
  ghost predicate AgreesWithGet(db: Db, t: Txn, want: Bytes -> bool, out: seq<Pair>)
    requires Typed(db)
  {
    PairsAscending(out) && forall k, v :: (k, v) in out <==> want(k) && Get(db, t, k) == Some(v)
  }

  lemma ScanAgreesWithGet(db: Db, t: Txn, want: Bytes -> bool, items: seq<Seen>)
    requires Typed(db) && IsVersionScan(db, t, want, items)
    ensures AgreesWithGet(db, t, want, Emitted(items, |items|))
  {
    EmittedAscending(items, |items|);
    forall k, v ensures (k, v) in Emitted(items, |items|) <==> want(k) && Get(db, t, k) == Some(v) {
      EmittedMeans(items, |items|, k, v);
      if (k, v) in Emitted(items, |items|) {
        var i: nat :| i < |items| && EmitsAt(items, i, k, v);
        EmittedIsGet(db, t, want, items, i, k, v);
      } else if want(k) && Get(db, t, k) == Some(v) {
        var i := GetIsEmitted(db, t, want, items, k, v);
        assert false;
      }
    }
  }

  /** Snapshot isolation of scans: at every moment of a run, a scan that agrees with
      reading through a handle of a read-write transaction returns exactly the wanted
      pairs of the store that was committed when it began, overlaid with its own writes. */
  lemma ScanReads(ss: seq<MvccHistory.State>, acts: seq<MvccHistory.Action>, i: nat, j: nat, v: Version, h: nat,
                  want: Bytes -> bool, out: seq<Pair>)
    requires MvccHistory.Run(ss, acts) && MvccHistory.BeganAt(ss, acts, i, v) && i < j < |ss|
    requires h in ss[j].handles && ss[j].handles[h].owner == MvccHistory.Writer(v) && v in ss[j].h.records
    requires Typed(ss[j].db) && AgreesWithGet(ss[j].db, ss[j].handles[h].txn, want, out)
    ensures PairsAscending(out)
    ensures var r := ss[j].h.records[v];
            var view := MvccHistory.Apply(ss[i].h.current, if r.status.RolledBack? then map[] else r.own);
            forall k, x :: (k, x) in out <==> want(k) && k in view && view[k] == x
  {
    var r := ss[j].h.records[v];
    var own := if r.status.RolledBack? then map[] else r.own;
    var view := MvccHistory.Apply(ss[i].h.current, own);
    forall k, x ensures (k, x) in out <==> want(k) && k in view && view[k] == x {
      MvccHistory.SnapshotReads(ss, acts, i, j, v, h, k);
      assert MvccHistory.Lookup(view, k) == if k in own then own[k] else MvccHistory.Lookup(ss[i].h.current, k);
    }
  }

  /** The same of read-only transactions: a scan returns exactly the wanted pairs of the
      store that the reader was to see when it began. */
  lemma ReaderScans(ss: seq<MvccHistory.State>, acts: seq<MvccHistory.Action>, i: nat, j: nat, id: nat,
                    asOf: Option<Version>, h: nat, want: Bytes -> bool, out: seq<Pair>)
    requires MvccHistory.Run(ss, acts) && MvccHistory.ReaderBeganAt(ss, acts, i, id, asOf) && i < j < |ss|
    requires h in ss[j].handles && ss[j].handles[h].owner == MvccHistory.Viewer(id)
    requires Typed(ss[j].db) && AgreesWithGet(ss[j].db, ss[j].handles[h].txn, want, out)
    ensures PairsAscending(out)
    ensures var view := MvccHistory.BaseFor(ss[i].h, asOf);
            forall k, x :: (k, x) in out <==> want(k) && k in view && view[k] == x
  {
    var view := MvccHistory.BaseFor(ss[i].h, asOf);
    forall k, x ensures (k, x) in out <==> want(k) && k in view && view[k] == x {
      MvccHistory.ReaderReads(ss, acts, i, j, id, asOf, h, k);
    }
  }

  // ---- Both ends of one iterator ----

  /** An iterator in use, with what it returned from the front and from the back. */
  datatype Usage = Usage(front: nat, back: nat, lastBack: Option<Bytes>, ahead: seq<Pair>, behind: seq<Pair>)

  function UseOnce(items: seq<Seen>, u: Usage, fromFront: bool): (u': Usage)
    requires u.front <= u.back <= |items|
    ensures u'.front <= u'.back <= |items|
  {
    if fromFront then
      var (front, r) := FromFront(items, u.front, u.back);
      u.(front := front, ahead := u.ahead + Returned(r))
    else
      var (back, last, r) := FromBack(items, u.front, u.back, u.lastBack);
      u.(back := back, lastBack := last, behind := u.behind + Returned(r))
  }

  /** Any sequence of steps from the front and from the back. */
  function Use(items: seq<Seen>, calls: seq<bool>): (u: Usage)
    ensures u.front <= u.back <= |items|
  {
    if calls == [] then Usage(0, |items|, None, [], [])
    else UseOnce(items, Use(items, calls[..|calls| - 1]), calls[|calls| - 1])
  }

  /** The last key returned from the front is the last one met from the back. */
  predicate Repeats(u: Usage) {
    u.ahead != [] && u.lastBack == Some(u.ahead[|u.ahead| - 1].0)
  }

  /** What has been returned, as long as the ends did not meet within a key. */
  ghost predicate EndsOk(items: seq<Seen>, u: Usage)
    requires u.front <= u.back <= |items|
  {
    && BackOk(items, u.back, u.lastBack)
    && Emitted(items, |items|) == Emitted(items, u.back) + Reverse(u.behind)
    && if Repeats(u) then u.front == u.back && u.ahead[..|u.ahead| - 1] == Emitted(items, u.front)
       else u.ahead == Emitted(items, u.front)
  }

  /** A key that the front has finished with is not met from the back. */
  lemma FinishedKey(items: seq<Seen>, front: nat, back: nat)
    requires Sorted(items) && front <= back < |items| && Emitted(items, front) != []
    ensures var out := Emitted(items, front); out[|out| - 1].0 != items[back].key
  {
    var out := Emitted(items, front);
    var x := out[|out| - 1];
    EmittedMeans(items, front, x.0, x.1);
    var i: nat :| i < front && EmitsAt(items, i, x.0, x.1);
    AfterLast(items, i, back);
    LessIrreflexive(x.0);
  }

  lemma FrontOk(items: seq<Seen>, u: Usage)
    requires Sorted(items) && u.front < u.back <= |items| && EndsOk(items, u)
    ensures EndsOk(items, UseOnce(items, u, true))
  {
    var (front, r) := FromFront(items, u.front, u.back);
    FrontMeans(items, u.front, u.back);
    if r.Some? && u.lastBack == Some(r.value.0) {
      FrontStops(items, u.front, u.back);
      assert (u.ahead + [r.value])[..|u.ahead|] == u.ahead;
    } else if u.back < |items| && Emitted(items, front) != [] {
      FinishedKey(items, front, u.back);
    }
  }

  /** The front returns a key that was met from the back only if it gets there. */
  lemma {:induction false} FrontStops(items: seq<Seen>, front: nat, back: nat)
    requires Sorted(items) && front < back < |items|
    ensures var (front', r) := FromFront(items, front, back);
            r.Some? && r.value.0 == items[back].key ==> front' == back
    decreases back - front
  {
    if front + 1 == back {
    } else if items[front + 1].key == items[front].key || items[front].value.None? {
      FrontStops(items, front + 1, back);
    } else {
      AfterLast(items, front, back);
      LessIrreflexive(items[back].key);
    }
  }

  lemma TakenFromBack(rest: seq<Pair>, r: Option<Pair>, behind: seq<Pair>)
    ensures rest + Returned(r) + Reverse(behind) == rest + Reverse(behind + Returned(r))
  {
    ReverseConcat(behind, Returned(r));
    assert Reverse(Returned(r)) == Returned(r);
  }

  lemma BackEndOk(items: seq<Seen>, u: Usage)
    requires Sorted(items) && u.front < u.back <= |items| && EndsOk(items, u)
    ensures EndsOk(items, UseOnce(items, u, false))
  {
    var (back, last, r) := FromBack(items, u.front, u.back, u.lastBack);
    BackMeans(items, u.front, u.back, u.lastBack);
    TakenFromBack(Emitted(items, back), r, u.behind);
    if back < |items| && u.ahead != [] { FinishedKey(items, u.front, back); }
  }

  lemma UseOnceOk(items: seq<Seen>, u: Usage, fromFront: bool)
    requires Sorted(items) && u.front <= u.back <= |items| && EndsOk(items, u)
    ensures EndsOk(items, UseOnce(items, u, fromFront))
  {
    if u.front == u.back {
      assert UseOnce(items, u, fromFront) == u;
    } else if fromFront {
      FrontOk(items, u);
    } else {
      BackEndOk(items, u);
    }
  }

  lemma {:induction false} UseOk(items: seq<Seen>, calls: seq<bool>)
    requires Sorted(items)
    ensures EndsOk(items, Use(items, calls))
  {
    if calls == [] {
      assert Emitted(items, |items|) == Emitted(items, |items|) + Reverse([]);
    } else {
      UseOk(items, calls[..|calls| - 1]);
      UseOnceOk(items, Use(items, calls[..|calls| - 1]), calls[|calls| - 1]);
    }
  }

  /** The next step from the front runs into what the back consumed, within the versions of
      one key: all before that is passed over, and the last item is not a tombstone. */
  predicate RunsInto(items: seq<Seen>, front: nat, back: nat) {
    && front < back < |items| && items[back - 1].key == items[back].key && items[back - 1].value.Some?
    && forall i :: front <= i < back - 1 ==> items[i + 1].key == items[i].key || items[i].value.None?
  }

  /** Exactly then it returns a key that was met from the back. */
  lemma {:induction false} RunsIntoIff(items: seq<Seen>, front: nat, back: nat)
    requires Sorted(items) && front <= back <= |items|
    ensures var r := FromFront(items, front, back).1;
            r.Some? && back < |items| && r.value.0 == items[back].key <==> RunsInto(items, front, back)
    decreases back - front
  {
    if front + 1 < back {
      if items[front + 1].key == items[front].key || items[front].value.None? {
        RunsIntoIff(items, front + 1, back);
      } else if back < |items| {
        AfterLast(items, front, back);
        LessIrreflexive(items[back].key);
      }
    }
  }

  /** Some step from the front, of a sequence of steps, does so. */
  ghost predicate Collides(items: seq<Seen>, calls: seq<bool>) {
    exists n :: 0 <= n < |calls| && CollidesAt(items, calls, n)
  }

  ghost predicate CollidesAt(items: seq<Seen>, calls: seq<bool>, n: nat)
    requires n < |calls|
  {
    calls[n] && RunsInto(items, Use(items, calls[..n]).front, Use(items, calls[..n]).back)
  }

  lemma StepRepeats(items: seq<Seen>, u: Usage, fromFront: bool)
    requires Sorted(items) && u.front <= u.back <= |items| && EndsOk(items, u)
    ensures Repeats(UseOnce(items, u, fromFront)) <==> Repeats(u) || (fromFront && RunsInto(items, u.front, u.back))
  {
    var u' := UseOnce(items, u, fromFront);
    UseOnceOk(items, u, fromFront);
    RunsIntoIff(items, u.front, u.back);
    if u.front == u.back {
      assert u' == u;
    } else if fromFront && FromFront(items, u.front, u.back).1.None? && u.back < |items| && u.ahead != [] {
      FinishedKey(items, u.front, u.back);
    } else if !fromFront && u'.back < |items| && u.ahead != [] {
      FinishedKey(items, u.front, u'.back);
    }
  }

  lemma {:induction false} CollidesIff(items: seq<Seen>, calls: seq<bool>)
    requires Sorted(items)
    ensures Repeats(Use(items, calls)) <==> Collides(items, calls)
  {
    if calls != [] {
      var init, last := calls[..|calls| - 1], |calls| - 1;
      CollidesIff(items, init);
      UseOk(items, init);
      StepRepeats(items, Use(items, init), calls[last]);
      CollidesNext(items, calls, init);
    }
  }

  lemma CollidesNext(items: seq<Seen>, calls: seq<bool>, init: seq<bool>)
    requires calls != [] && init == calls[..|calls| - 1]
    ensures Collides(items, calls) <==> Collides(items, init) || CollidesAt(items, calls, |init|)
  {
    forall n | 0 <= n < |init| ensures CollidesAt(items, calls, n) <==> CollidesAt(items, init, n) {
      assert init[..n] == calls[..n];
    }
    if Collides(items, calls) {
      var n :| 0 <= n < |calls| && CollidesAt(items, calls, n);
      assert n < |init| ==> CollidesAt(items, init, n);
    }
  }

  /** Once the ends meet, the pairs from the front followed by those from the back in
      reverse are the forward result, if and only if no step from the front ran into the
      back within the versions of a key. */
  lemma EndsMeet(items: seq<Seen>, calls: seq<bool>)
    requires Sorted(items) && Use(items, calls).front == Use(items, calls).back
    ensures var u := Use(items, calls);
            u.ahead + Reverse(u.behind) == Emitted(items, |items|) <==> !Collides(items, calls)
  {
    var u := Use(items, calls);
    UseOk(items, calls);
    CollidesIff(items, calls);
    if Repeats(u) {
      assert |u.ahead + Reverse(u.behind)| == |Emitted(items, |items|)| + 1;
    }
  }

  /** Two versions of a key, taken from one end each: the key is returned twice. */
  lemma MeetWithinKey(key: Bytes, old_: Bytes, new_: Bytes) returns (items: seq<Seen>, calls: seq<bool>)
    ensures Sorted(items) && Emitted(items, |items|) == [(key, new_)]
    ensures var u := Use(items, calls);
            u.front == u.back && u.ahead == [(key, old_)] && u.behind == [(key, new_)]
  {
    items, calls := [Seen(key, 1, Some(old_)), Seen(key, 2, Some(new_))], [false, true];
    assert calls[..1] == [false] && calls[..1][..0] == [];
    assert Emitted(items, 1) == [];
    assert Use(items, [false]) == Usage(0, 1, Some(key), [], [(key, new_)]);
    assert FromFront(items, 0, 1) == (1, Some((key, old_)));
  }

  // ---- From engine keys to visible versions ----

  /** The scanned engine keys are all versions of the wanted keys. */
  ghost predicate IsKeyScan(engine: Engine, want: Bytes -> bool, keys: seq<Bytes>) {
    && Ascending(keys)
    && forall b :: b in keys <==> b in engine && WantedKey(want, b)
  }

  ghost predicate WantedKey(want: Bytes -> bool, b: Bytes) {
    DecodeKey(b).Some? && DecodeKey(b).value.Versioned? && want(DecodeKey(b).value.key)
  }

  /** Item x was decoded from engine key b. */
  ghost predicate SeenAt(b: Bytes, x: Seen) {
    DecodeKey(b) == Some(Versioned(x.key, x.version)) && x.version <= MAX_VERSION
    && EncodeKey(Versioned(x.key, x.version)) == b
  }

  lemma SeenAscend(b: Bytes, x: Seen, b': Bytes, x': Seen)
    requires SeenAt(b, x) && SeenAt(b', x') && Less(b, b')
    ensures VersionedLess(x.key, x.version, x'.key, x'.version)
  {
    VersionedOrder(x.key, x.version, x'.key, x'.version);
  }

  /** Decodes an engine key, returning nothing if its version is invisible. */
  method DecodeVisible(m: MVCC, t: Txn, b: Bytes, ghost want: Bytes -> bool) returns (x: seq<Seen>)
    requires m.Valid() && b in m.engine && WantedKey(want, b)
    ensures |x| <= 1 && Listed(m.engine, t, b, x)
    ensures x != [] ==> SeenAt(b, x[0]) && Found(m.db, t, want, x[0])
  {
    ScannedKey(m.engine, m.db, b);
    var k := DecodeKey(b).value;
    x := if IsVisible(t, k.version) then [Seen(k.key, k.version, m.engine[b].data)] else [];
  }

  /** The items decoded from the first n keys, and where each came from. */
  ghost predicate Decoded(engine: Engine, db: Db, t: Txn, want: Bytes -> bool, keys: seq<Bytes>, n: nat,
                          items: seq<Seen>, at: seq<nat>)
  {
    && n <= |keys| && |at| == |items|
    && (forall j :: 0 <= j < |at| ==> at[j] < n && SeenAt(keys[at[j]], items[j]) && Found(db, t, want, items[j]))
    && (forall j, l :: 0 <= j < l < |at| ==> at[j] < at[l])
    && (forall j :: 0 <= j < n ==> Listed(engine, t, keys[j], items))
  }

  lemma ListedMore(engine: Engine, t: Txn, b: Bytes, items: seq<Seen>, more: seq<Seen>)
    requires Listed(engine, t, b, items) || Listed(engine, t, b, more)
    ensures Listed(engine, t, b, items + more)
  {
  }

  lemma DecodedNext(engine: Engine, db: Db, t: Txn, want: Bytes -> bool, keys: seq<Bytes>, n: nat, items: seq<Seen>,
                    at: seq<nat>, x: seq<Seen>) returns (at': seq<nat>)
    requires Decoded(engine, db, t, want, keys, n, items, at) && n < |keys|
    requires |x| <= 1 && Listed(engine, t, keys[n], x)
    requires x != [] ==> SeenAt(keys[n], x[0]) && Found(db, t, want, x[0])
    ensures Decoded(engine, db, t, want, keys, n + 1, items + x, at')
  {
    at' := at + if x == [] then [] else [n];
    var more := items + x;
    forall j | 0 <= j < n + 1 ensures Listed(engine, t, keys[j], more) {
      ListedMore(engine, t, keys[j], items, x);
    }
    forall j | 0 <= j < |at'| ensures at'[j] < n + 1 && SeenAt(keys[at'[j]], more[j]) && Found(db, t, want, more[j]) {
      assert j < |at| ==> at'[j] == at[j] && more[j] == items[j];
    }
  }

  /** Decodes engine keys and skips invisible versions. */
  method VisibleItems(m: MVCC, t: Txn, keys: seq<Bytes>, ghost want: Bytes -> bool) returns (items: seq<Seen>)
    requires m.Valid() && IsKeyScan(m.engine, want, keys)
    ensures IsVersionScan(m.db, t, want, items)
  {
    items := [];
    ghost var at: seq<nat> := [];
    for i := 0 to |keys|
      invariant Decoded(m.engine, m.db, t, want, keys, i, items, at)
    {
      assert keys[i] in keys;
      var x := DecodeVisible(m, t, keys[i], want);
      at := DecodedNext(m.engine, m.db, t, want, keys, i, items, at, x);
      items := items + x;
    }
    ItemsComplete(m.engine, m.db, t, want, keys, items, at);
  }

  ghost predicate Found(db: Db, t: Txn, want: Bytes -> bool, x: Seen) {
    && Versioned(x.key, x.version) in db && db[Versioned(x.key, x.version)] == Data(x.value)
    && IsVisible(t, x.version) && want(x.key)
  }

  ghost predicate Listed(engine: Engine, t: Txn, b: Bytes, items: seq<Seen>) {
    b in engine && engine[b].Data? && DecodeKey(b).Some? && DecodeKey(b).value.Versioned?
    && IsVisible(t, DecodeKey(b).value.version) ==>
      Seen(DecodeKey(b).value.key, DecodeKey(b).value.version, engine[b].data) in items
  }

  lemma ItemsComplete(engine: Engine, db: Db, t: Txn, want: Bytes -> bool, keys: seq<Bytes>, items: seq<Seen>,
                      at: seq<nat>)
    requires Represents(engine, db) && Typed(db) && IsKeyScan(engine, want, keys)
    requires Decoded(engine, db, t, want, keys, |keys|, items, at)
    ensures IsVersionScan(db, t, want, items)
  {
    forall i, j | 0 <= i < j < |items|
      ensures VersionedLess(items[i].key, items[i].version, items[j].key, items[j].version)
    {
      SeenAscend(keys[at[i]], items[i], keys[at[j]], items[j]);
    }
    forall x ensures SeenOk(db, t, want, items, x) {
      if Found(db, t, want, x) {
        var k := Versioned(x.key, x.version);
        assert Stores(engine, db, k);
        RepresentsKey(engine, db, k, EncodeKey(k));
        DecodeEncoded(k);
        assert WantedKey(want, EncodeKey(k));
        var j :| 0 <= j < |keys| && keys[j] == EncodeKey(k);
        assert Listed(engine, t, keys[j], items);
      }
    }
  }

  /** Scans a range of keys, with bounds of any kind. */
  method ScanKeys(m: MVCC, start: Bound, end: Bound) returns (keys: seq<Bytes>)
    requires m.Valid()
    ensures IsKeyScan(m.engine, (k: Bytes) => InRange(k, start, end), keys)
  {
    keys := ScanRange(m.engine, ScanStart(start), ScanEnd(end));
    forall b ensures b in keys <==> b in m.engine && WantedKey((k: Bytes) => InRange(k, start, end), b) {
      if b in m.engine {
        ScannedKey(m.engine, m.db, b);
        UserRange(start, end, DecodeKey(b).value);
      }
    }
  }

  method ScanKeysPrefix(m: MVCC, prefix: Bytes) returns (keys: seq<Bytes>)
    requires m.Valid()
    ensures IsKeyScan(m.engine, (k: Bytes) => prefix <= k, keys)
  {
    keys := ScanPrefix(m.engine, KeysPrefix(prefix));
    forall b ensures b in keys <==> b in m.engine && WantedKey((k: Bytes) => prefix <= k, b) {
      if b in m.engine {
        ScannedKey(m.engine, m.db, b);
        KeysPrefixMeans(prefix, DecodeKey(b).value);
      }
    }
  }

  /** Scans a range of keys in a transaction, forwards or backwards. */
  method Scan(m: MVCC, t: Txn, start: Bound, end: Bound, reverse: bool) returns (out: seq<Pair>)
    requires m.Valid()
    ensures reverse ==>
              exists fwd :: AgreesWithGet(m.db, t, (k: Bytes) => InRange(k, start, end), fwd) && out == Reverse(fwd)
    ensures !reverse ==> AgreesWithGet(m.db, t, (k: Bytes) => InRange(k, start, end), out)
  {
    var keys := ScanKeys(m, start, end);
    ghost var want := (k: Bytes) => InRange(k, start, end);
    var items := VisibleItems(m, t, keys, want);
    ScanAgreesWithGet(m.db, t, want, items);
    var it := new ScanIterator(items);
    if reverse {
      out := it.ToVecBack();
    } else {
      out := it.ToVec();
    }
  }

  /** Scans the keys with a prefix in a transaction, forwards or backwards. */
  method ScanWithPrefix(m: MVCC, t: Txn, prefix: Bytes, reverse: bool) returns (out: seq<Pair>)
    requires m.Valid()
    ensures reverse ==> exists fwd :: AgreesWithGet(m.db, t, (k: Bytes) => prefix <= k, fwd) && out == Reverse(fwd)
    ensures !reverse ==> AgreesWithGet(m.db, t, (k: Bytes) => prefix <= k, out)
  {
    var keys := ScanKeysPrefix(m, prefix);
    ghost var want := (k: Bytes) => prefix <= k;
    var items := VisibleItems(m, t, keys, want);
    ScanAgreesWithGet(m.db, t, want, items);
    var it := new ScanIterator(items);
    if reverse {
      out := it.ToVecBack();
    } else {
      out := it.ToVec();
    }
  }
}
