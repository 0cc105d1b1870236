/** The log-structured engine: an append-only file of entries, an in-memory index
    of value positions, recovery from a cut file, and compaction. */
module BitCask {
  import opened Basics
  import opened ByteOrder
  import opened KeyCode

  const TWO_31: int := 0x8000_0000
  const TWO_32: int := 0x1_0000_0000

  /** A log entry; a `None` value is a tombstone, which has a negative number in place of
      the value's length. */
  datatype Entry = Entry(key: Bytes, value: Option<Bytes>, mark: nat)

  /** The number that the program writes: -1. */
  const MARK: nat := TWO_32 - 1

  datatype Place = Place(pos: nat, len: nat)

  type KeyDir = map<Bytes, Place>
  type Contents = map<Bytes, Bytes>

  // ---- The file format ----

  /** Lengths fit their 32-bit fields, and a mark is negative. */
  predicate Encodable(e: Entry) {
    |e.key| < TWO_32 && (e.value.Some? ==> |e.value.value| < TWO_31) && TWO_31 <= e.mark < TWO_32
  }

  /** The documented size limits: so does the length of the whole entry. */
  predicate Fits(e: Entry) {
    Encodable(e) && 8 + |e.key| + |e.value.GetOr([])| < TWO_32
  }

  function Size(e: Entry): nat {
    8 + |e.key| + |e.value.GetOr([])|
  }

  /** Key length, value length or mark, key, value. */
  function EncodeEntry(e: Entry): (s: Bytes)
    ensures |s| == Size(e)
  {
    BigEndian(|e.key|, 4) + BigEndian(if e.value.Some? then |e.value.value| else e.mark, 4) + e.key
    + e.value.GetOr([])
  }

  function EncodeLog(es: seq<Entry>): Bytes {
    if es == [] then [] else EncodeLog(es[..|es| - 1]) + EncodeEntry(es[|es| - 1])
  }

  /** What a log of entries amounts to. */
  function Replay(es: seq<Entry>): Contents {
    if es == [] then map[]
    else
      var m, e := Replay(es[..|es| - 1]), es[|es| - 1];
      if e.value.Some? then m[e.key := e.value.value] else m - {e.key}
  }

  datatype Scanned = Scanned(key: Bytes, valuePos: nat, valueLen: Option<nat>)

  /** Reads the entry at a position, or nothing if it is incomplete. */
  function ReadEntry(file: Bytes, pos: nat): (r: Option<Scanned>)
    ensures r.Some? ==> pos + 8 <= r.value.valuePos && r.value.valuePos + r.value.valueLen.GetOr(0) <= |file|
  {
    if pos + 8 > |file| then None
    else
      var keyLen := FromBigEndian(file[pos..pos + 4]);
      var valueLen := FromBigEndian(file[pos + 4..pos + 8]);
      var valuePos := pos + 8 + keyLen;
      if valuePos > |file| then None
      else if valueLen >= TWO_31 then Some(Scanned(file[pos + 8..valuePos], valuePos, None))
      else if valuePos + valueLen > |file| then None
      else Some(Scanned(file[pos + 8..valuePos], valuePos, Some(valueLen)))
  }

  function EntryEnd(s: Scanned): nat {
    s.valuePos + s.valueLen.GetOr(0)
  }

  function Index(keydir: KeyDir, s: Scanned): KeyDir {
    if s.valueLen.Some? then keydir[s.key := Place(s.valuePos, s.valueLen.value)] else keydir - {s.key}
  }

  /** Scans a file from a position: the index, and where the file is cut. */
  function Recover(file: Bytes, pos: nat, keydir: KeyDir): (r: (KeyDir, nat))
    requires pos <= |file|
    ensures r.1 <= |file|
    decreases |file| - pos
  {
    if pos == |file| then (keydir, |file|)
    else
      match ReadEntry(file, pos)
      case None => (keydir, pos)
      case Some(s) => Recover(file, EntryEnd(s), Index(keydir, s))
  }

  ghost predicate FindsAt(file: Bytes, keydir: KeyDir, m: Contents, k: Bytes) {
    && (k in keydir <==> k in m)
    && (k in keydir && k in m ==>
          keydir[k].pos + keydir[k].len <= |file| && file[keydir[k].pos..keydir[k].pos + keydir[k].len] == m[k])
  }

  /** The index finds exactly these contents in the file. */
  ghost predicate Finds(file: Bytes, keydir: KeyDir, m: Contents) {
    forall k :: FindsAt(file, keydir, m, k)
  }

  // ---- Reading back what was written ----

  lemma LengthField(n: nat)
    requires n < TWO_32
    ensures FromBigEndian(BigEndian(n, 4)) == n
  {
    assert Limit(4) == TWO_32;
    BigEndianRoundTrip(n, 4);
  }

  /** Reading at the start of an entry that is all there. */
  lemma ReadWhole(file: Bytes, pos: nat, e: Entry)
    requires Encodable(e) && pos + Size(e) <= |file| && file[pos..pos + Size(e)] == EncodeEntry(e)
    ensures ReadEntry(file, pos) == Some(ScanOf(e, pos))
    ensures e.value.Some? ==> file[pos + 8 + |e.key|..pos + Size(e)] == e.value.value
  {
    var s, v := EncodeEntry(e), if e.value.Some? then |e.value.value| else e.mark;
    assert forall i :: 0 <= i < |s| ==> file[pos + i] == s[i];
    assert file[pos..pos + 4] == s[..4] == BigEndian(|e.key|, 4);
    assert file[pos + 4..pos + 8] == s[4..8] == BigEndian(v, 4);
    assert file[pos + 8..pos + 8 + |e.key|] == s[8..8 + |e.key|] == e.key;
    assert file[pos + 8 + |e.key|..pos + Size(e)] == s[8 + |e.key|..] == e.value.GetOr([]);
    LengthField(|e.key|);
    LengthField(v);
  }

  /** Reading at the start of an entry that is cut off. */
  lemma ReadCut(file: Bytes, pos: nat, e: Entry)
    requires Encodable(e) && pos <= |file| < pos + Size(e) && file[pos..] == EncodeEntry(e)[..|file| - pos]
    ensures ReadEntry(file, pos) == None
  {
    var s, v := EncodeEntry(e), if e.value.Some? then |e.value.value| else e.mark;
    if pos + 8 <= |file| {
      assert forall i :: pos <= i < |file| ==> file[i] == file[pos..][i - pos] == s[i - pos];
      assert file[pos..pos + 4] == s[..4] == BigEndian(|e.key|, 4);
      assert file[pos + 4..pos + 8] == s[4..8] == BigEndian(v, 4);
      LengthField(|e.key|);
      LengthField(v);
    }
  }

  // ---- Writing ----

  lemma FindsMore(file: Bytes, more: Bytes, keydir: KeyDir, m: Contents, k: Bytes)
    requires FindsAt(file, keydir, m, k)
    ensures FindsAt(file + more, keydir, m, k)
  {
    if k in keydir {
      var a, b := keydir[k].pos, keydir[k].pos + keydir[k].len;
      assert (file + more)[a..b] == file[a..b];
    }
  }

  lemma ReplayNext(es: seq<Entry>, e: Entry)
    ensures Replay(es + [e]) == if e.value.Some? then Replay(es)[e.key := e.value.value] else Replay(es) - {e.key}
  {
    assert (es + [e])[..|es|] == es;
  }

  /** The value of an appended entry, where its index entry says. */
  lemma FindsNew(file: Bytes, e: Entry, file': Bytes)
    requires Encodable(e) && e.value.Some? && file' == file + EncodeEntry(e)
    ensures var s := ScanOf(e, |file|); EntryEnd(s) <= |file'| && file'[s.valuePos..EntryEnd(s)] == e.value.value
  {
    assert file'[|file|..|file| + Size(e)] == EncodeEntry(e);
    ReadWhole(file', |file|, e);
  }

  /** Appending an entry and indexing its value. */
  lemma FindsNext(file: Bytes, keydir: KeyDir, es: seq<Entry>, e: Entry, file': Bytes)
    requires Finds(file, keydir, Replay(es)) && Encodable(e) && file' == file + EncodeEntry(e)
    ensures Finds(file', Index(keydir, ScanOf(e, |file|)), Replay(es + [e]))
  {
    var m, keydir' := Replay(es), Index(keydir, ScanOf(e, |file|));
    ReplayNext(es, e);
    forall k ensures FindsAt(file', keydir', Replay(es + [e]), k) {
      if k == e.key {
        if e.value.Some? {
          FindsNew(file, e, file');
        }
      } else {
        assert FindsAt(file, keydir, m, k);
        FindsMore(file, EncodeEntry(e), keydir, m, k);
      }
    }
  }

  lemma EncodeLogNext(es: seq<Entry>, e: Entry)
    ensures EncodeLog(es + [e]) == EncodeLog(es) + EncodeEntry(e)
  {
    assert (es + [e])[..|es|] == es;
  }

  // ---- Recovery ----

  predicate AllEncodable(es: seq<Entry>) {
    forall i :: 0 <= i < |es| ==> Encodable(es[i])
  }

  /** The entries of the longest prefix that lies within the first n bytes. */
  ghost predicate IsWhole(es: seq<Entry>, n: nat, k: nat) {
    && k <= |es| && |EncodeLog(es[..k])| <= n
    && (k < |es| ==> |EncodeLog(es[..k + 1])| > n)
  }

  lemma {:induction false} EncodeLogConcat(a: seq<Entry>, b: seq<Entry>)
    ensures EncodeLog(a + b) == EncodeLog(a) + EncodeLog(b)
  {
    if b == [] {
      assert a + b == a;
    } else {
      var b', e := b[..|b| - 1], b[|b| - 1];
      assert b == b' + [e] && a + b == (a + b') + [e];
      EncodeLogConcat(a, b');
      EncodeLogNext(a + b', e);
      EncodeLogNext(b', e);
      BytesAssociate(EncodeLog(a), EncodeLog(b'), EncodeEntry(e));
    }
  }

  lemma BytesAssociate(a: Bytes, b: Bytes, c: Bytes)
    ensures (a + b) + c == a + (b + c)
  {
  }

  lemma LogPrefix(es: seq<Entry>, k: nat)
    requires k <= |es|
    ensures EncodeLog(es[..k]) <= EncodeLog(es)
  {
    var a, b := es[..k], es[k..];
    assert es == a + b;
    EncodeLogConcat(a, b);
  }

  /** Where the k-th entry of a log lies. */
  lemma EntryAt(es: seq<Entry>, k: nat)
    requires k < |es|
    ensures EncodeLog(es[..k + 1]) == EncodeLog(es[..k]) + EncodeEntry(es[k])
  {
    assert es[..k + 1] == es[..k] + [es[k]];
    EncodeLogNext(es[..k], es[k]);
  }

  /** The bytes of a cut log at the start of its k-th entry. */
  lemma CutAt(es: seq<Entry>, n: nat, k: nat, file: Bytes, pos: nat, code: Bytes)
    requires k < |es| && n <= |EncodeLog(es)| && file == EncodeLog(es)[..n]
    requires pos == |EncodeLog(es[..k])| <= n && code == EncodeEntry(es[k])
    ensures |EncodeLog(es[..k + 1])| == pos + |code|
    ensures if pos + |code| <= n then file[pos..pos + |code|] == code else file[pos..] == code[..n - pos]
  {
    EntryAt(es, k);
    LogPrefix(es, k + 1);
    var all, next := EncodeLog(es), EncodeLog(es[..k + 1]);
    assert all[pos..pos + |code|] == next[pos..pos + |code|] == code;
    if pos + |code| > n {
      assert file[pos..] == all[pos..pos + |code|][..n - pos];
    } else {
      assert file[pos..pos + |code|] == all[pos..pos + |code|];
    }
  }

  lemma {:induction false} WholeUnique(es: seq<Entry>, n: nat, k: nat, k': nat)
    requires IsWhole(es, n, k) && IsWhole(es, n, k')
    ensures k == k'
  {
    if k < k' {
      PrefixShorter(es, k + 1, k');
    } else if k' < k {
      PrefixShorter(es, k' + 1, k);
    }
  }

  lemma PrefixShorter(es: seq<Entry>, k: nat, k': nat)
    requires k <= k' <= |es|
    ensures |EncodeLog(es[..k])| <= |EncodeLog(es[..k'])|
  {
    assert es[..k'] == es[..k] + es[k..k'];
    EncodeLogConcat(es[..k], es[k..k']);
  }

  /** What reading the k-th entry of a log gives. */
  function ScanOf(e: Entry, pos: nat): Scanned {
    Scanned(e.key, pos + 8 + |e.key|, if e.value.Some? then Some(|e.value.value|) else None)
  }

  /** Where the i-th entry of a log starts. */
  ghost function Start(es: seq<Entry>, i: nat): nat
    requires i <= |es|
  {
    |EncodeLog(es[..i])|
  }

  /** A cut log, entry by entry: where each starts, and what is left of it. */
  ghost predicate LaidOut(file: Bytes, es: seq<Entry>, starts: seq<nat>, i: nat) {
    i < |es| && i + 1 < |starts| ==>
      && starts[i + 1] == starts[i] + Size(es[i])
      && (starts[i + 1] <= |file| ==> file[starts[i]..starts[i + 1]] == EncodeEntry(es[i]))
      && (starts[i] <= |file| < starts[i + 1] ==> file[starts[i]..] == EncodeEntry(es[i])[..|file| - starts[i]])
  }

  /** Indexing the entries from the k-th to the w-th. */
  function IndexEntries(es: seq<Entry>, starts: seq<nat>, k: nat, w: nat, keydir: KeyDir): KeyDir
    requires k <= w <= |es| < |starts|
    decreases w - k
  {
    if k == w then keydir else IndexEntries(es, starts, k + 1, w, Index(keydir, ScanOf(es[k], starts[k])))
  }

  lemma RecoverLast(es: seq<Entry>, starts: seq<nat>, w: nat, file: Bytes, keydir: KeyDir)
    requires AllEncodable(es) && |starts| == |es| + 1 && w <= |es| && LaidOut(file, es, starts, w)
    requires starts[w] <= |file| && (if w < |es| then |file| < starts[w + 1] else starts[w] == |file|)
    ensures Recover(file, starts[w], keydir) == (keydir, starts[w])
  {
    if starts[w] < |file| {
      ReadCut(file, starts[w], es[w]);
    }
    RecoverStop(file, starts[w], keydir);
  }

  lemma ReadLaidOut(es: seq<Entry>, starts: seq<nat>, k: nat, file: Bytes)
    requires k < |es| && Encodable(es[k]) && |starts| == |es| + 1 && LaidOut(file, es, starts, k)
    requires starts[k + 1] <= |file|
    ensures ReadEntry(file, starts[k]) == Some(ScanOf(es[k], starts[k]))
    ensures starts[k] < starts[k + 1] == EntryEnd(ScanOf(es[k], starts[k]))
  {
    ReadWhole(file, starts[k], es[k]);
  }

  /** Scanning a cut log, having read its first k entries. */
  lemma {:induction false} RecoverFrom(es: seq<Entry>, starts: seq<nat>, k: nat, w: nat, file: Bytes, keydir: KeyDir)
    requires AllEncodable(es) && |starts| == |es| + 1 && k <= w <= |es|
    requires forall i :: LaidOut(file, es, starts, i)
    requires starts[k] <= |file| && starts[w] <= |file|
             && (if w < |es| then |file| < starts[w + 1] else starts[w] == |file|)
    ensures Recover(file, starts[k], keydir) == (IndexEntries(es, starts, k, w, keydir), starts[w])
    decreases w - k
  {
    assert LaidOut(file, es, starts, k);
    if k == w {
      RecoverLast(es, starts, w, file, keydir);
    } else {
      StartsAscend(es, starts, k + 1, w, file);
      ReadLaidOut(es, starts, k, file);
      RecoverStep(file, starts[k], keydir, ScanOf(es[k], starts[k]));
      RecoverFrom(es, starts, k + 1, w, file, Index(keydir, ScanOf(es[k], starts[k])));
    }
  }

  lemma {:induction false} StartsAscend(es: seq<Entry>, starts: seq<nat>, k: nat, w: nat, file: Bytes)
    requires |starts| == |es| + 1 && k <= w <= |es| && forall i :: LaidOut(file, es, starts, i)
    ensures starts[k] <= starts[w]
    decreases w - k
  {
    if k < w {
      StartsAscend(es, starts, k, w - 1, file);
      assert LaidOut(file, es, starts, w - 1);
    }
  }

  lemma RecoverStep(file: Bytes, pos: nat, keydir: KeyDir, s: Scanned)
    requires pos < |file| && ReadEntry(file, pos) == Some(s)
    ensures Recover(file, pos, keydir) == Recover(file, EntryEnd(s), Index(keydir, s))
  {
  }

  lemma RecoverStop(file: Bytes, pos: nat, keydir: KeyDir)
    requires pos == |file| || (pos < |file| && ReadEntry(file, pos) == None)
    ensures Recover(file, pos, keydir) == (keydir, pos)
  {
  }

  lemma FindsEntry(es: seq<Entry>, k: nat, keydir: KeyDir)
    requires AllEncodable(es) && k < |es| && Finds(EncodeLog(es[..k]), keydir, Replay(es[..k]))
    ensures Finds(EncodeLog(es[..k + 1]), Index(keydir, ScanOf(es[k], Start(es, k))), Replay(es[..k + 1]))
  {
    EntryAt(es, k);
    FindsNext(EncodeLog(es[..k]), keydir, es[..k], es[k], EncodeLog(es[..k + 1]));
    assert es[..k + 1] == es[..k] + [es[k]];
  }

  lemma {:induction false} FindsEntries(es: seq<Entry>, starts: seq<nat>, k: nat, w: nat, keydir: KeyDir)
    requires AllEncodable(es) && k <= w <= |es| < |starts| && Finds(EncodeLog(es[..k]), keydir, Replay(es[..k]))
    requires forall i :: 0 <= i <= |es| ==> starts[i] == Start(es, i)
    ensures Finds(EncodeLog(es[..w]), IndexEntries(es, starts, k, w, keydir), Replay(es[..w]))
    decreases w - k
  {
    if k < w {
      FindsEntry(es, k, keydir);
      FindsEntries(es, starts, k + 1, w, Index(keydir, ScanOf(es[k], starts[k])));
    }
  }

  /** Crash recovery: cutting a log at any byte and opening it again keeps exactly
      the longest prefix of whole entries. The file is cut where they end, and
      the index finds what they amount to. */
  lemma CrashRecovery(es: seq<Entry>, n: nat, w: nat)
    requires AllEncodable(es) && n <= |EncodeLog(es)| && IsWhole(es, n, w)
    ensures var file := EncodeLog(es)[..n];
            var (keydir, cut) := Recover(file, 0, map[]);
            cut <= |file| && file[..cut] == EncodeLog(es[..w]) && Finds(file[..cut], keydir, Replay(es[..w]))
  {
    var file, starts := EncodeLog(es)[..n], Starts(es);
    forall i: nat ensures LaidOut(file, es, starts, i) {
      LaidOutAt(es, n, file, i);
    }
    assert es[..0] == [] && es[..|es|] == es;
    RecoverFrom(es, starts, 0, w, file, map[]);
    FindsEntries(es, starts, 0, w, map[]);
    LogPrefix(es, w);
  }

  ghost function Starts(es: seq<Entry>): seq<nat> {
    seq(|es| + 1, i requires 0 <= i <= |es| => Start(es, i))
  }

  lemma LaidOutAt(es: seq<Entry>, n: nat, file: Bytes, i: nat)
    requires n <= |EncodeLog(es)| && file == EncodeLog(es)[..n]
    ensures LaidOut(file, es, Starts(es), i)
  {
    if i < |es| {
      EntryAt(es, i);
      if Start(es, i) <= n {
        CutAt(es, n, i, file, Start(es, i), EncodeEntry(es[i]));
      }
    }
  }

  lemma {:induction false} WholeExists(es: seq<Entry>, n: nat) returns (w: nat)
    ensures IsWhole(es, n, w)
  {
    w := 0;
    assert es[..0] == [];
    while w < |es| && |EncodeLog(es[..w + 1])| <= n
      invariant w <= |es| && |EncodeLog(es[..w])| <= n
    {
      w := w + 1;
    }
  }

  /** Opening a log that was not cut keeps all of it. */
  lemma WholeOfAll(es: seq<Entry>, w: nat)
    requires IsWhole(es, |EncodeLog(es)|, w)
    ensures es[..w] == es
  {
    if w < |es| {
      LogPrefix(es, w + 1);
    }
  }

  // ---- Any file ----

  predicate AllFit(es: seq<Entry>) {
    forall i :: 0 <= i < |es| ==> Fits(es[i])
  }

  /** A file, an index into it, and the entries it consists of. */
  ghost predicate Sound(file: Bytes, keydir: KeyDir, es: seq<Entry>) {
    AllEncodable(es) && file == EncodeLog(es) && Finds(file, keydir, Replay(es))
  }

  /** The entry that a read finds. */
  function EntryRead(file: Bytes, s: Scanned, mark: nat): Entry
    requires EntryEnd(s) <= |file|
  {
    Entry(s.key, if s.valueLen.Some? then Some(file[s.valuePos..EntryEnd(s)]) else None, mark)
  }

  /** Whatever a read finds is an encoded entry. */
  lemma ReadIsEntry(file: Bytes, pos: nat, s: Scanned) returns (e: Entry)
    requires ReadEntry(file, pos) == Some(s)
    ensures Encodable(e) && ScanOf(e, pos) == s && pos + Size(e) == EntryEnd(s) <= |file|
    ensures file[pos..pos + Size(e)] == EncodeEntry(e)
  {
    var a, b := file[pos..pos + 4], file[pos + 4..pos + 8];
    var n := FromBigEndian(b);
    assert Limit(4) == TWO_32;
    BigEndianBound(a);
    BigEndianBound(b);
    BigEndianCanonical(a);
    BigEndianCanonical(b);
    e := EntryRead(file, s, if n >= TWO_31 then n else MARK);
    FourParts(file, pos, pos + 4, pos + 8, s.valuePos, EntryEnd(s));
    assert EncodeEntry(e) == a + b + e.key + file[s.valuePos..EntryEnd(s)];
  }

  lemma FourParts(file: Bytes, a: nat, b: nat, c: nat, d: nat, e: nat)
    requires a <= b <= c <= d <= e <= |file|
    ensures file[a..e] == file[a..b] + file[b..c] + file[c..d] + file[d..e]
  {
    assert file[a..e] == file[a..d] + file[d..e] && file[a..d] == file[a..c] + file[c..d];
    assert file[a..c] == file[a..b] + file[b..c];
  }

  lemma FileNext(file: Bytes, pos: nat, end: nat, es: seq<Entry>, e: Entry)
    requires pos <= end <= |file| && file[..pos] == EncodeLog(es) && file[pos..end] == EncodeEntry(e)
    ensures file[..end] == EncodeLog(es) + EncodeEntry(e) == EncodeLog(es + [e])
  {
    EncodeLogNext(es, e);
    assert file[..end] == file[..pos] + file[pos..end];
  }

  /** A scan of any file gives entries that make up the file to where it stops, and an index
      that finds what they amount to. It stops only at the end, or where no whole entry
      follows. */
  lemma {:induction false} ScanAny(file: Bytes, pos: nat, keydir: KeyDir, es: seq<Entry>) returns (all: seq<Entry>)
    requires pos <= |file| && Sound(file[..pos], keydir, es)
    ensures var (keydir', cut) := Recover(file, pos, keydir);
            && Sound(file[..cut], keydir', all) && (cut == |file| || ReadEntry(file, cut) == None)
    decreases |file| - pos
  {
    all := es;
    if pos < |file| && ReadEntry(file, pos).Some? {
      var s := ReadEntry(file, pos).value;
      var e := ReadIsEntry(file, pos, s);
      FileNext(file, pos, EntryEnd(s), es, e);
      FindsNext(file[..pos], keydir, es, e, file[..EntryEnd(s)]);
      all := ScanAny(file, EntryEnd(s), Index(keydir, s), es + [e]);
    }
  }

  /** A file and an index find only one contents. */
  lemma FindsOne(file: Bytes, keydir: KeyDir, m: Contents, m': Contents)
    requires Finds(file, keydir, m) && Finds(file, keydir, m')
    ensures m == m'
  {
    forall k ensures (k in m <==> k in m') && (k in m && k in m' ==> m[k] == m'[k]) {
      assert FindsAt(file, keydir, m, k) && FindsAt(file, keydir, m', k);
    }
    assert m.Keys == m'.Keys;
  }

  // ---- Space ----

  /** The live bytes of some keys: lengths, key and value of each. */
  ghost function LiveSize(keys: set<Bytes>, m: Contents): nat
    requires keys <= m.Keys
  {
    if keys == {} then 0
    else
      var k :| k in keys;
      8 + |k| + |m[k]| + LiveSize(keys - {k}, m)
  }

  lemma {:induction false} LiveSizePick(keys: set<Bytes>, m: Contents, k: Bytes)
    requires keys <= m.Keys && k in keys
    ensures LiveSize(keys, m) == 8 + |k| + |m[k]| + LiveSize(keys - {k}, m)
    decreases |keys|
  {
    var x :| x in keys && LiveSize(keys, m) == 8 + |x| + |m[x]| + LiveSize(keys - {x}, m);
    if x != k {
      LiveSizePick(keys - {x}, m, k);
      LiveSizePick(keys - {k}, m, x);
      assert keys - {x} - {k} == keys - {k} - {x};
    }
  }

  lemma {:induction false} LiveSizeSame(keys: set<Bytes>, m: Contents, m': Contents)
    requires keys <= m.Keys && keys <= m'.Keys && forall k :: k in keys ==> m[k] == m'[k]
    ensures LiveSize(keys, m) == LiveSize(keys, m')
    decreases |keys|
  {
    if keys != {} {
      var k :| k in keys;
      LiveSizePick(keys, m, k);
      LiveSizePick(keys, m', k);
      LiveSizeSame(keys - {k}, m, m');
    }
  }

  /** Live data never exceeds the file. */
  lemma {:induction false} LiveAtMostFile(es: seq<Entry>)
    ensures LiveSize(Replay(es).Keys, Replay(es)) <= |EncodeLog(es)|
  {
    if es != [] {
      var before, e := Replay(es[..|es| - 1]), es[|es| - 1];
      LiveAtMostFile(es[..|es| - 1]);
      var rest := before.Keys - {e.key};
      assert Replay(es).Keys - {e.key} == rest;
      LiveSizeSame(rest, before, Replay(es));
      if e.key in before {
        LiveSizePick(before.Keys, before, e.key);
      } else {
        assert rest == before.Keys;
      }
      if e.value.Some? {
        LiveSizePick(Replay(es).Keys, Replay(es), e.key);
      } else {
        assert Replay(es).Keys == rest;
      }
    }
  }

  datatype Status = Status(keys: nat, size: nat, total: nat, live: nat, garbage: nat)

  class Database {
    var file: Bytes
    var keydir: KeyDir
    // The entries the file consists of.
    ghost var entries: seq<Entry>

    ghost predicate Valid()
      reads this
    {
      AllFit(entries) && Sound(file, keydir, entries)
    }

    /** The contents as a plain map. */
    ghost function Value(): Contents
      reads this
    {
      Replay(entries)
    }

    /** Opens any file. What is kept of it is whole entries, and either all of it or up to
        where no whole entry follows. Of a log cut off at any byte, that is its longest
        prefix of whole entries. */
    constructor (bytes: Bytes)
      ensures file <= bytes && Sound(file, keydir, entries) && (AllFit(entries) ==> Valid())
      ensures |file| == |bytes| || ReadEntry(bytes, |file|) == None
      ensures forall es, w :: AllEncodable(es) && bytes <= EncodeLog(es) && IsWhole(es, |bytes|, w) ==>
                file == EncodeLog(es[..w]) && Value() == Replay(es[..w])
    {
      file, keydir := bytes, map[];
      assert bytes[..0] == EncodeLog([]);
      ghost var all := ScanAny(bytes, 0, map[], []);
      entries := all;
      new;
      BuildKeydir();
      forall es, w | AllEncodable(es) && bytes <= EncodeLog(es) && IsWhole(es, |bytes|, w)
        ensures file == EncodeLog(es[..w]) && Value() == Replay(es[..w])
      {
        assert bytes == EncodeLog(es)[..|bytes|] && file == bytes[..|file|];
        CrashRecovery(es, |bytes|, w);
        FindsOne(file, keydir, Value(), Replay(es[..w]));
      }
    }

    /** Builds the index by scanning the file, which it cuts off at an incomplete
        entry. */
    method BuildKeydir()
      modifies this`file, this`keydir
      ensures (keydir, |file|) == Recover(old(file), 0, map[]) && file <= old(file)
    {
      keydir := map[];
      var pos := 0;
      while pos < |file|
        invariant pos <= |file| && file == old(file)
        invariant Recover(file, pos, keydir) == Recover(file, 0, map[])
        decreases |file| - pos
      {
        var r := ReadEntry(file, pos);
        match r {
          case None =>
            file := file[..pos];
            return;
          case Some(s) =>
            keydir := Index(keydir, s);
            pos := EntryEnd(s);
        }
      }
    }

    method ReadValue(place: Place) returns (value: Bytes)
      requires place.pos + place.len <= |file|
      ensures value == file[place.pos..place.pos + place.len]
    {
      value := file[place.pos..place.pos + place.len];
    }

    method Get(key: Bytes) returns (value: Option<Bytes>)
      requires Valid()
      ensures value == if key in Value() then Some(Value()[key]) else None
    {
      assert FindsAt(file, keydir, Value(), key);
      if key in keydir {
        var v := ReadValue(keydir[key]);
        value := Some(v);
      } else {
        value := None;
      }
    }

    /** Appends an entry, returning where it starts and its length. */
    method WriteEntry(key: Bytes, value: Option<Bytes>) returns (pos: nat, len: nat)
      requires Fits(Entry(key, value, MARK))
      modifies this`file
      ensures file == old(file) + EncodeEntry(Entry(key, value, MARK))
      ensures pos == |old(file)| && len == Size(Entry(key, value, MARK))
    {
      pos, len := |file|, 8 + |key| + |value.GetOr([])|;
      file := file + BigEndian(|key|, 4);
      file := file + BigEndian(if value.Some? then |value.value| else TWO_32 - 1, 4);
      file := file + key;
      file := file + value.GetOr([]);
    }

    method Set(key: Bytes, value: Bytes)
      requires Valid() && Fits(Entry(key, Some(value), MARK))
      modifies this
      ensures Valid() && Value() == old(Value())[key := value]
    {
      ghost var e := Entry(key, Some(value), MARK);
      ghost var was, index := file, keydir;
      var pos, len := WriteEntry(key, Some(value));
      keydir := keydir[key := Place(pos + len - |value|, |value|)];
      IndexSet(index, key, value, pos, len);
      WriteStep(was, index, entries, e, file, keydir);
      entries := entries + [e];
    }

    method Delete(key: Bytes)
      requires Valid() && Fits(Entry(key, None, MARK))
      modifies this
      ensures Valid() && Value() == old(Value()) - {key}
    {
      ghost var e := Entry(key, None, MARK);
      WriteStep(file, keydir, entries, e, file + EncodeEntry(e), keydir - {key});
      var _, _ := WriteEntry(key, None);
      keydir := keydir - {key};
      entries := entries + [e];
    }

    /** The pairs of a range of keys, in key order. */
    method Scan(start: Bound, end: Bound) returns (out: seq<(Bytes, Bytes)>)
      requires Valid()
      ensures forall i, j :: 0 <= i < j < |out| ==> Less(out[i].0, out[j].0)
      ensures forall k, v :: (k, v) in out <==> InRange(k, start, end) && k in Value() && Value()[k] == v
    {
      var keys := SortKeys(set k | k in keydir && InRange(k, start, end));
      out := [];
      for i := 0 to |keys|
        invariant |out| == i
        invariant forall j :: 0 <= j < i ==> out[j].0 == keys[j] && keys[j] in Value() && out[j].1 == Value()[keys[j]]
      {
        assert keys[i] in keys && FindsAt(file, keydir, Value(), keys[i]);
        var v := ReadValue(keydir[keys[i]]);
        out := out + [(keys[i], v)];
      }
      forall k, v ensures (k, v) in out <==> InRange(k, start, end) && k in Value() && Value()[k] == v {
        assert FindsAt(file, keydir, Value(), k);
        if k in keys {
          var j :| 0 <= j < |keys| && keys[j] == k;
          assert out[j] == (k, Value()[k]);
        }
      }
    }

    /** Sizes: the live part of the file never exceeds it, so the garbage size is
        never negative. */
    method GetStatus() returns (s: Status)
      requires Valid()
      ensures s.keys == |Value()| && s.total == |file| && s.live == LiveSize(Value().Keys, Value())
      ensures s.live <= s.total && s.garbage == s.total - s.live
      ensures s.size + 8 * s.keys == s.live
    {
      FindsKeys(file, keydir, Value());
      LiveAtMostFile(entries);
      var size := SumSizes(Value());
      var live := size + 8 * |keydir|;
      s := Status(|keydir|, size, |file|, live, |file| - live);
    }

    /** Rewrites the log with one entry per live key, in key order. The contents
        stay the same, and no garbage is left. */
    method Compact()
      requires Valid()
      modifies this
      ensures Valid() && Value() == old(Value())
      ensures |file| == LiveSize(Value().Keys, Value())
      ensures forall i :: 0 <= i < |entries| ==> entries[i].value.Some?
      ensures forall i, j :: 0 <= i < j < |entries| ==> Less(entries[i].key, entries[j].key)
    {
      var newFile, newKeydir, keys, es := WriteLog();
      CompactDone(Value(), keys, es, newFile, newKeydir);
      file, keydir, entries := newFile, newKeydir, es;
    }

    /** Writes a new log with the live pairs in key order. */
    method WriteLog() returns (newFile: Bytes, newKeydir: KeyDir, ghost sorted: seq<Bytes>, ghost es: seq<Entry>)
      requires Valid()
      ensures KeysOf(Value(), sorted) && Compacted(Value(), sorted, |sorted|, es, newFile, newKeydir)
    {
      ghost var m := Value();
      FindsKeys(file, keydir, m);
      var keys := SortKeys(keydir.Keys);
      newFile, newKeydir, sorted, es := [], map[], keys, [];
      assert FirstLive(m, keys, 0) == map[];
      for i := 0 to |keys|
        invariant Compacted(m, keys, i, es, newFile, newKeydir)
      {
        var e := LiveEntry(keys[i]);
        var s := ScanOf(e, |newFile|);
        var file' := newFile + EncodeEntry(e);
        CompactNext(m, keys, i, es, newFile, newKeydir, e, file');
        newFile, newKeydir, es := file', Index(newKeydir, s), es + [e];
      }
    }

    /** The entry to rewrite for a live key. */
    method LiveEntry(key: Bytes) returns (e: Entry)
      requires Valid() && key in Value()
      ensures e == Entry(key, Some(Value()[key]), MARK) && Fits(e)
    {
      assert FindsAt(file, keydir, Value(), key);
      var value := ReadValue(keydir[key]);
      LiveFits(entries, key);
      e := Entry(key, Some(value), MARK);
    }

    /** The key and value bytes of all live pairs. */
    method SumSizes(ghost m: Contents) returns (size: nat)
      requires Finds(file, keydir, m) && keydir.Keys == m.Keys
      ensures size + 8 * |keydir| == LiveSize(m.Keys, m)
    {
      size := 0;
      var left := keydir.Keys;
      while left != {}
        invariant left <= m.Keys
        invariant size + 8 * |keydir| + LiveSize(left, m) == LiveSize(m.Keys, m) + 8 * |left|
        decreases left
      {
        var k :| k in left;
        LiveSizePick(left, m, k);
        assert FindsAt(file, keydir, m, k);
        size := size + |k| + keydir[k].len;
        left := left - {k};
      }
    }
  }

  /** Live pairs come from entries, and so fit. */
  lemma {:induction false} LiveFits(es: seq<Entry>, k: Bytes)
    requires AllFit(es) && k in Replay(es)
    ensures Fits(Entry(k, Some(Replay(es)[k]), MARK))
  {
    if es[|es| - 1].key != k {
      LiveFits(es[..|es| - 1], k);
    }
  }

  ghost predicate KeysOf(m: Contents, keys: seq<Bytes>) {
    Ascending(keys) && forall k :: k in keys <==> k in m
  }

  /** The contents at the first n live keys. */
  function FirstLive(m: Contents, keys: seq<Bytes>, n: nat): Contents
    requires n <= |keys|
  {
    map k | k in m && k in keys[..n] :: m[k]
  }

  /** The new log while compacting, after the first n live keys. */
  ghost predicate Compacted(m: Contents, keys: seq<Bytes>, n: nat, es: seq<Entry>, file: Bytes, keydir: KeyDir) {
    && n <= |keys| && |es| == n
    && (forall i :: 0 <= i < n ==> es[i].key == keys[i] && es[i].value.Some?)
    && AllFit(es) && Sound(file, keydir, es)
    && Replay(es) == FirstLive(m, keys, n)
    && |file| == LiveSize(FirstLive(m, keys, n).Keys, m)
  }

  lemma NextLive(m: Contents, keys: seq<Bytes>, n: nat)
    requires KeysOf(m, keys) && n < |keys|
    ensures keys[n] in m
    ensures FirstLive(m, keys, n + 1) == FirstLive(m, keys, n)[keys[n] := m[keys[n]]]
    ensures LiveSize(FirstLive(m, keys, n + 1).Keys, m)
            == 8 + |keys[n]| + |m[keys[n]]| + LiveSize(FirstLive(m, keys, n).Keys, m)
  {
    var key, first, more := keys[n], FirstLive(m, keys, n), FirstLive(m, keys, n + 1);
    assert keys[n] in keys;
    assert keys[..n + 1] == keys[..n] + [key];
    assert key !in keys[..n] by {
      LessIrreflexive(key);
    }
    assert more == first[key := m[key]];
    LiveSizePick(more.Keys, m, key);
    assert more.Keys - {key} == first.Keys;
  }

  lemma CompactNext(m: Contents, keys: seq<Bytes>, n: nat, es: seq<Entry>, file: Bytes, keydir: KeyDir, e: Entry,
                    file': Bytes)
    requires KeysOf(m, keys) && Compacted(m, keys, n, es, file, keydir) && n < |keys| && keys[n] in m
    requires e == Entry(keys[n], Some(m[keys[n]]), MARK) && Fits(e) && file' == file + EncodeEntry(e)
    ensures Compacted(m, keys, n + 1, es + [e], file', Index(keydir, ScanOf(e, |file|)))
  {
    NextLive(m, keys, n);
    WriteStep(file, keydir, es, e, file', Index(keydir, ScanOf(e, |file|)));
    CompactedEntries(keys, n, es, e);
  }

  lemma CompactedEntries(keys: seq<Bytes>, n: nat, es: seq<Entry>, e: Entry)
    requires n < |keys| && |es| == n && AllFit(es) && Fits(e) && e.key == keys[n] && e.value.Some?
    requires forall i :: 0 <= i < n ==> es[i].key == keys[i] && es[i].value.Some?
    ensures AllFit(es + [e])
    ensures forall i :: 0 <= i < n + 1 ==> (es + [e])[i].key == keys[i] && (es + [e])[i].value.Some?
  {
  }

  lemma CompactDone(m: Contents, keys: seq<Bytes>, es: seq<Entry>, file: Bytes, keydir: KeyDir)
    requires KeysOf(m, keys) && Compacted(m, keys, |keys|, es, file, keydir)
    ensures Replay(es) == m && |file| == LiveSize(m.Keys, m)
    ensures forall i, j :: 0 <= i < j < |es| ==> Less(es[i].key, es[j].key)
  {
    assert keys[..|keys|] == keys;
    assert FirstLive(m, keys, |keys|) == m;
  }

  lemma FindsKeys(file: Bytes, keydir: KeyDir, m: Contents)
    requires Finds(file, keydir, m)
    ensures keydir.Keys == m.Keys && |keydir| == |m|
  {
    forall k ensures k in keydir <==> k in m {
      assert FindsAt(file, keydir, m, k);
    }
  }

  lemma IndexSet(keydir: KeyDir, key: Bytes, value: Bytes, pos: nat, len: nat)
    requires len == Size(Entry(key, Some(value), MARK))
    ensures keydir[key := Place(pos + len - |value|, |value|)]
            == Index(keydir, ScanOf(Entry(key, Some(value), MARK), pos))
  {
  }

  lemma WriteStep(file: Bytes, keydir: KeyDir, es: seq<Entry>, e: Entry, file': Bytes, keydir': KeyDir)
    requires Sound(file, keydir, es)
    requires Fits(e) && file' == file + EncodeEntry(e) && keydir' == Index(keydir, ScanOf(e, |file|))
    ensures Sound(file', keydir', es + [e])
    ensures Replay(es + [e]) == if e.value.Some? then Replay(es)[e.key := e.value.value] else Replay(es) - {e.key}
  {
    FindsNext(file, keydir, es, e, file');
    ReplayNext(es, e);
    EncodeLogNext(es, e);
  }
}
