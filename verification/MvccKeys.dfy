/** MVCC keys as engine keys: their encoding, and what each engine scan that the
    transactions use ranges over. */
module MvccKeys {
  import opened Basics
  import opened ByteOrder
  import opened KeyCode
  import opened Mvcc

  const MAX_VERSION: Version := 0xffff_ffff_ffff_ffff

  const KEY_KIND := EnumKind([
                               Variant([]),
                               Variant([U64Kind]),
                               Variant([U64Kind]),
                               Variant([U64Kind, BytesKind(false)]),
                               Variant([BytesKind(false), U64Kind]),
                               Variant([BytesKind(false)])])

  predicate Fits(k: Key) {
    !k.NextVersion? && !k.Unversioned? ==> k.version <= MAX_VERSION
  }

  function ToItem(k: Key): Item {
    match k
    case NextVersion => Enum(0, [])
    case TxnActive(v) => Enum(1, [U64(v)])
    case TxnActiveSnapshot(v) => Enum(2, [U64(v)])
    case TxnWrite(v, key) => Enum(3, [U64(v), ByteString(key)])
    case Versioned(key, v) => Enum(4, [ByteString(key), U64(v)])
    case Unversioned(key) => Enum(5, [ByteString(key)])
  }

  function FromItem(x: Item): Key
    requires HasKind(x, KEY_KIND)
  {
    KindMeans(x);
    match x.index
    case 0 => NextVersion
    case 1 => TxnActive(x.fields[0].n)
    case 2 => TxnActiveSnapshot(x.fields[0].n)
    case 3 => TxnWrite(x.fields[0].n, x.fields[1].bytes)
    case 4 => Versioned(x.fields[0].bytes, x.fields[1].n)
    case _ => Unversioned(x.fields[0].bytes)
  }

  lemma HaveTwo(xs: seq<Item>, ks: seq<Kind>)
    requires HaveKinds(xs, ks) && |ks| <= 2
    ensures |xs| == |ks|
    ensures |ks| >= 1 ==> HasKind(xs[0], ks[0])
    ensures |ks| == 2 ==> HasKind(xs[1], ks[1])
  {
    if |ks| == 2 {
      assert HaveKinds(xs[1..], ks[1..]);
    }
  }

  /** A value of the key type is the item of exactly one key. */
  lemma KindMeans(x: Item)
    requires HasKind(x, KEY_KIND)
    ensures x.Enum? && x.index < 6
    ensures x.index == 0 ==> x.fields == []
    ensures x.index == 1 || x.index == 2 ==> |x.fields| == 1 && x.fields[0].U64? && x.fields[0].n < TWO_64
    ensures x.index == 3 ==> |x.fields| == 2 && x.fields[0].U64? && x.fields[0].n < TWO_64 && x.fields[1].ByteString?
    ensures x.index == 4 ==> |x.fields| == 2 && x.fields[0].ByteString? && x.fields[1].U64? && x.fields[1].n < TWO_64
    ensures x.index == 5 ==> |x.fields| == 1 && x.fields[0].ByteString?
  {
    HaveTwo(x.fields, KEY_KIND.variants[x.index].fields);
  }

  lemma ItemKind(k: Key)
    requires Fits(k)
    ensures HasKind(ToItem(k), KEY_KIND) && FromItem(ToItem(k)) == k
  {
    var fields := ToItem(k).fields;
    var ks := KEY_KIND.variants[ToItem(k).index].fields;
    if |fields| == 2 {
      assert HaveKinds(fields[1..][1..], ks[1..][1..]);
      assert HaveKinds(fields[1..], ks[1..]);
    } else if |fields| == 1 {
      assert HaveKinds(fields[1..], ks[1..]);
    }
  }

  function EncodeKey(k: Key): Bytes {
    Encode(ToItem(k))
  }

  /** Decodes an engine key. */
  function DecodeKey(b: Bytes): Option<Key> {
    match Deserialize(KEY_KIND, b)
    case None => None
    case Some(x) => KeyCanonical(KEY_KIND, b); Some(FromItem(x))
  }

  lemma DecodeEncoded(k: Key)
    requires Fits(k)
    ensures DecodeKey(EncodeKey(k)) == Some(k)
  {
    ItemKind(k);
    KeyRoundTrip(ToItem(k), KEY_KIND);
  }

  lemma ItemFits(x: Item)
    requires HasKind(x, KEY_KIND)
    ensures Fits(FromItem(x)) && ToItem(FromItem(x)) == x
  {
    KindMeans(x);
    if |x.fields| == 1 {
      assert x.fields == [x.fields[0]];
    } else if |x.fields| == 2 {
      assert x.fields == [x.fields[0], x.fields[1]];
    }
  }

  lemma DecodedIsEncoded(b: Bytes)
    requires DecodeKey(b).Some?
    ensures Fits(DecodeKey(b).value) && EncodeKey(DecodeKey(b).value) == b
  {
    KeyCanonical(KEY_KIND, b);
    ItemFits(Deserialize(KEY_KIND, b).value);
  }

  // ---- Order ----

  /** The order of versioned keys: by key, then by version. */
  predicate VersionedLess(key: Bytes, v: Version, key': Bytes, v': Version) {
    Less(key, key') || (key == key' && v < v')
  }

  lemma VersionedItems(key: Bytes, v: Version, key': Bytes, v': Version)
    ensures ItemLess(ToItem(Versioned(key, v)), ToItem(Versioned(key', v'))) <==> VersionedLess(key, v, key', v')
  {
    var xs, ys := [ByteString(key), U64(v)], [ByteString(key'), U64(v')];
    assert xs[1..] == [U64(v)] && ys[1..] == [U64(v')];
    assert ItemLess(U64(v), U64(v')) <==> v < v';
    assert ItemsLess(xs[1..], ys[1..]) <==> v < v';
    assert ItemLess(xs[0], ys[0]) <==> Less(key, key');
    assert ItemsLess(xs, ys) <==> VersionedLess(key, v, key', v');
  }

  lemma VersionedOrder(key: Bytes, v: Version, key': Bytes, v': Version)
    requires v <= MAX_VERSION && v' <= MAX_VERSION
    ensures Less(EncodeKey(Versioned(key, v)), EncodeKey(Versioned(key', v'))) <==> VersionedLess(key, v, key', v')
  {
    var x, y := ToItem(Versioned(key, v)), ToItem(Versioned(key', v'));
    ItemKind(Versioned(key, v));
    ItemKind(Versioned(key', v'));
    VersionedItems(key, v, key', v');
    if x != y {
      KeyOrder(x, y, KEY_KIND, [], []);
    } else {
      LessIrreflexive(key);
      LessIrreflexive(Encode(x));
    }
  }

  /** Keys of different kinds are ordered by kind. */
  lemma KindOrder(k: Key, k': Key)
    requires Fits(k) && Fits(k') && ToItem(k).index < ToItem(k').index
    ensures Less(EncodeKey(k), EncodeKey(k')) && !Less(EncodeKey(k'), EncodeKey(k)) && EncodeKey(k) != EncodeKey(k')
  {
    assert DiffersAt(EncodeKey(k), EncodeKey(k'), 0);
    BeforeLess(EncodeKey(k), EncodeKey(k'));
  }

  lemma VersionedAtMost(key: Bytes, v: Version, key': Bytes, v': Version)
    requires v <= MAX_VERSION && v' <= MAX_VERSION
    ensures AtMost(EncodeKey(Versioned(key, v)), EncodeKey(Versioned(key', v'))) <==>
              Less(key, key') || (key == key' && v <= v')
  {
    VersionedOrder(key, v, key', v');
    DecodeEncoded(Versioned(key, v));
    DecodeEncoded(Versioned(key', v'));
  }

  lemma LessEither(a: Bytes, b: Bytes)
    ensures Less(a, b) ==> !Less(b, a)
    ensures AtMost(a, b) <==> !Less(b, a)
  {
    LessTotal(a, b);
    LessIrreflexive(a);
    if Less(a, b) {
      LessAsymmetric(a, b);
    } else if Less(b, a) {
      LessAsymmetric(b, a);
    }
  }

  // ---- What scans range over ----

  /** The versions of one key from a to b. */
  lemma VersionRange(key: Bytes, a: Version, b: Version, k: Key)
    requires a <= MAX_VERSION && b <= MAX_VERSION && Fits(k)
    ensures InRange(EncodeKey(k), Included(EncodeKey(Versioned(key, a))), Included(EncodeKey(Versioned(key, b)))) <==>
              k.Versioned? && k.key == key && a <= k.version <= b
  {
    if k.Versioned? {
      VersionedAtMost(key, a, k.key, k.version);
      VersionedAtMost(k.key, k.version, key, b);
      LessEither(key, k.key);
    } else if k.Unversioned? {
      KindOrder(Versioned(key, b), k);
    } else {
      KindOrder(k, Versioned(key, a));
    }
  }

  /** The engine bounds of a scan over a range of keys. */
  function ScanStart(start: Bound): Bound {
    match start
    case Excluded(k) => Excluded(EncodeKey(Versioned(k, MAX_VERSION)))
    case Included(k) => Included(EncodeKey(Versioned(k, 0)))
    case Unbounded => Included(EncodeKey(Versioned([], 0)))
  }

  function ScanEnd(end: Bound): Bound {
    match end
    case Excluded(k) => Excluded(EncodeKey(Versioned(k, 0)))
    case Included(k) => Included(EncodeKey(Versioned(k, MAX_VERSION)))
    case Unbounded => Excluded([5])
  }

  lemma StartMeans(start: Bound, k: Key)
    requires Fits(k)
    ensures InRange(EncodeKey(k), ScanStart(start), Unbounded) <==>
              k.Unversioned? || (k.Versioned? && InRange(k.key, start, Unbounded))
  {
    var key := if start.Unbounded? then [] else start.key;
    var v := if start.Excluded? then MAX_VERSION else 0;
    if k.Versioned? {
      VersionedAtMost(key, v, k.key, k.version);
      VersionedOrder(key, v, k.key, k.version);
    } else if k.Unversioned? {
      KindOrder(Versioned(key, v), k);
    } else {
      KindOrder(k, Versioned(key, v));
    }
  }

  lemma EndMeans(end: Bound, k: Key)
    requires Fits(k) && k.Versioned?
    ensures InRange(EncodeKey(k), Unbounded, ScanEnd(end)) <==> InRange(k.key, Unbounded, end)
  {
    if end.Unbounded? {
      assert EncodeKey(k)[0] == 4;
    } else {
      var v := if end.Included? then MAX_VERSION else 0;
      VersionedAtMost(k.key, k.version, end.key, v);
      VersionedOrder(k.key, k.version, end.key, v);
    }
  }

  lemma EndExcludesUnversioned(end: Bound, k: Key)
    requires k.Unversioned?
    ensures !InRange(EncodeKey(k), Unbounded, ScanEnd(end))
  {
    if end.Unbounded? {
      assert EncodeKey(k)[0] == 5 && !Less(EncodeKey(k)[1..], [5][1..]);
    } else {
      KindOrder(Versioned(end.key, if end.Included? then MAX_VERSION else 0), k);
    }
  }

  /** A scan ranges over all versions of exactly the keys in the given range,
      whatever kinds of bounds it has. */
  lemma UserRange(start: Bound, end: Bound, k: Key)
    requires Fits(k)
    ensures InRange(EncodeKey(k), ScanStart(start), ScanEnd(end)) <==> k.Versioned? && InRange(k.key, start, end)
  {
    StartMeans(start, k);
    if k.Versioned? {
      EndMeans(end, k);
    } else if k.Unversioned? {
      EndExcludesUnversioned(end, k);
    }
  }

  // ---- Prefixes ----

  const ACTIVE_PREFIX: Bytes := [1]

  function WritePrefix(v: Version): Bytes {
    [3] + BigEndian(v, 8)
  }

  /** The encoding of a byte string without its end mark. */
  function Escape(s: Bytes): Bytes {
    if s == [] then [] else (if s[0] == 0 then [0, 255] else [s[0]]) + Escape(s[1..])
  }

  lemma {:induction false} EscapeIsTruncated(s: Bytes)
    ensures EncodeBytes(s) == Escape(s) + [0, 0]
  {
    if s != [] {
      EscapeIsTruncated(s[1..]);
    }
  }

  /** The encoding of a key prefix, with the two bytes of its end mark cut off. */
  function KeysPrefix(prefix: Bytes): (p: Bytes)
    ensures p == [4] + Escape(prefix)
  {
    EscapeIsTruncated(prefix);
    OneField(ByteString(prefix));
    var code := Encode(Enum(4, [ByteString(prefix)]));
    code[..|code| - 2]
  }

  lemma OneField(x: Item)
    ensures EncodeAll([x]) == Encode(x)
  {
    assert [x][1..] == [];
    assert EncodeAll([x]) == Encode(x) + EncodeAll([]);
  }

  lemma ActivePrefixMeans(k: Key)
    ensures ACTIVE_PREFIX <= EncodeKey(k) <==> k.TxnActive?
  {
    assert EncodeKey(k)[0] == ToItem(k).index;
  }

  lemma TwoFields(x: Item, y: Item)
    ensures EncodeAll([x, y]) == Encode(x) + Encode(y)
  {
    var xs := [x, y];
    assert xs[1..] == [y] && [y][1..] == [];
    assert EncodeAll([y]) == Encode(y) + EncodeAll([]);
  }

  lemma WritePrefixMeans(v: Version, k: Key)
    requires v <= MAX_VERSION && Fits(k)
    ensures WritePrefix(v) <= EncodeKey(k) <==> k.TxnWrite? && k.version == v
  {
    assert EncodeKey(k)[0] == ToItem(k).index;
    if k.TxnWrite? {
      TwoFields(U64(k.version), ByteString(k.key));
      assert EncodeKey(k)[1..9] == BigEndian(k.version, 8);
      assert WritePrefix(v)[1..9] == BigEndian(v, 8);
      Limit8();
      BigEndianRoundTrip(v, 8);
      BigEndianRoundTrip(k.version, 8);
      if WritePrefix(v) <= EncodeKey(k) {
        assert EncodeKey(k)[..9] == WritePrefix(v);
        assert EncodeKey(k)[..9][1..9] == EncodeKey(k)[1..9];
      } else {
        assert EncodeKey(k)[..9] == [3] + EncodeKey(k)[1..9];
      }
    }
  }

  lemma ConsPrefix(p: Bytes, a: Bytes, b: Bytes)
    ensures p + a <= p + b <==> a <= b
  {
    if p + a <= p + b {
      assert a == (p + a)[|p|..] && b == (p + b)[|p|..];
      assert forall i :: 0 <= i < |a| ==> a[i] == (p + a)[|p| + i] == (p + b)[|p| + i] == b[i];
    }
  }

  lemma {:induction false} EscapePrefix(p: Bytes, key: Bytes, rest: Bytes)
    ensures Escape(p) <= EncodeBytes(key) + rest <==> p <= key
  {
    var code := EncodeBytes(key) + rest;
    if p == [] {
    } else if key == [] {
      assert code[0] == 0 && code[1] == 0;
      assert Escape(p)[0] == p[0] && (p[0] == 0 ==> Escape(p)[1] == 255);
    } else if p[0] != key[0] {
      assert code[0] == key[0] && Escape(p)[0] == p[0];
    } else {
      var first: Bytes := if p[0] == 0 then [0, 255] else [p[0]];
      EscapePrefix(p[1..], key[1..], rest);
      assert code == first + (EncodeBytes(key[1..]) + rest);
      ConsPrefix(first, Escape(p[1..]), EncodeBytes(key[1..]) + rest);
      ConsPrefix([p[0]], p[1..], key[1..]);
      assert p == [p[0]] + p[1..] && key == [key[0]] + key[1..];
    }
  }

  /** A prefix scan ranges over all versions of exactly the keys with the prefix. */
  lemma KeysPrefixMeans(prefix: Bytes, k: Key)
    ensures KeysPrefix(prefix) <= EncodeKey(k) <==> k.Versioned? && prefix <= k.key
  {
    assert EncodeKey(k)[0] == ToItem(k).index;
    if k.Versioned? {
      TwoFields(ByteString(k.key), U64(k.version));
      EscapePrefix(prefix, k.key, BigEndian(k.version, 8));
      ConsPrefix([4], Escape(prefix), EncodeBytes(k.key) + BigEndian(k.version, 8));
    }
  }
}
