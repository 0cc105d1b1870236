/** The lexicographic order of byte strings, key ranges, and the bounds that a
    prefix scan uses. */
module ByteOrder {
  import opened Basics

  predicate Less(a: Bytes, b: Bytes) {
    b != [] && (a == [] || a[0] < b[0] || (a[0] == b[0] && Less(a[1..], b[1..])))
  }

  predicate AtMost(a: Bytes, b: Bytes) {
    a == b || Less(a, b)
  }

  ghost predicate DiffersAt(a: Bytes, b: Bytes, i: nat) {
    i < |a| && i < |b| && a[..i] == b[..i] && a[i] < b[i]
  }

  /** Smaller at the first difference, neither being a prefix of the other. */
  ghost predicate Before(a: Bytes, b: Bytes) {
    exists i: nat :: DiffersAt(a, b, i)
  }

  lemma {:induction false} LessMeans(a: Bytes, b: Bytes)
    ensures Less(a, b) <==> Before(a, b) || (a <= b && a != b)
  {
    forall i: nat | DiffersAt(a, b, i) ensures a[0] <= b[0] {
      assert i > 0 ==> a[0] == a[..i][0] && b[0] == b[..i][0];
    }
    if a != [] && b != [] && a[0] == b[0] {
      LessMeans(a[1..], b[1..]);
      assert a == [a[0]] + a[1..] && b == [b[0]] + b[1..];
      if Before(a[1..], b[1..]) {
        var i: nat :| DiffersAt(a[1..], b[1..], i);
        assert a[..i + 1] == [a[0]] + a[1..][..i] && b[..i + 1] == [b[0]] + b[1..][..i];
        assert DiffersAt(a, b, i + 1);
      }
      if i: nat :| DiffersAt(a, b, i) {
        assert a[1..][..i - 1] == a[..i][1..] && b[1..][..i - 1] == b[..i][1..];
        assert DiffersAt(a[1..], b[1..], i - 1);
      }
    } else if a != [] && b != [] && a[0] < b[0] {
      assert DiffersAt(a, b, 0);
    }
  }

  lemma BeforeExtended(a: Bytes, b: Bytes, r: Bytes, r': Bytes)
    requires Before(a, b)
    ensures Before(a + r, b + r')
  {
    var i: nat :| DiffersAt(a, b, i);
    assert (a + r)[..i] == a[..i] && (b + r')[..i] == b[..i];
    assert DiffersAt(a + r, b + r', i);
  }

  lemma BeforeAfter(p: Bytes, a: Bytes, b: Bytes)
    requires Before(a, b)
    ensures Before(p + a, p + b)
  {
    var i: nat :| DiffersAt(a, b, i);
    assert (p + a)[..|p| + i] == p + a[..i] && (p + b)[..|p| + i] == p + b[..i];
    assert DiffersAt(p + a, p + b, |p| + i);
  }

  lemma BeforeLess(a: Bytes, b: Bytes)
    requires Before(a, b)
    ensures Less(a, b) && !Less(b, a) && a != b
  {
    LessMeans(a, b);
    LessAsymmetric(a, b);
    LessIrreflexive(a);
  }

  lemma {:induction false} LessIrreflexive(a: Bytes)
    ensures !Less(a, a)
  {
    if a != [] { LessIrreflexive(a[1..]); }
  }

  lemma {:induction false} LessAsymmetric(a: Bytes, b: Bytes)
    requires Less(a, b)
    ensures !Less(b, a)
  {
    if a != [] && a[0] == b[0] { LessAsymmetric(a[1..], b[1..]); }
  }

  lemma {:induction false} LessTransitive(a: Bytes, b: Bytes, c: Bytes)
    requires Less(a, b) && Less(b, c)
    ensures Less(a, c)
  {
    if a != [] && a[0] == b[0] == c[0] { LessTransitive(a[1..], b[1..], c[1..]); }
  }

  lemma {:induction false} LessTotal(a: Bytes, b: Bytes)
    ensures a == b || Less(a, b) || Less(b, a)
  {
    if a != [] && b != [] && a[0] == b[0] {
      LessTotal(a[1..], b[1..]);
      assert a == [a[0]] + a[1..] && b == [b[0]] + b[1..];
    }
  }

  // ---- Ranges ----

  datatype Bound = Included(key: Bytes) | Excluded(key: Bytes) | Unbounded

  predicate InRange(k: Bytes, start: Bound, end: Bound) {
    && (match start
        case Included(b) => AtMost(b, k)
        case Excluded(b) => Less(b, k)
        case Unbounded => true)
    && (match end
        case Included(b) => AtMost(k, b)
        case Excluded(b) => Less(k, b)
        case Unbounded => true)
  }

  /** The position of the last byte that is not 0xff, plus one; 0 if there is none. */
  function LastBelowMax(p: Bytes): (n: nat)
    ensures n <= |p|
    ensures n > 0 ==> p[n - 1] != 255
    ensures forall i :: n <= i < |p| ==> p[i] == 255
  {
    if p == [] then 0
    else if p[|p| - 1] != 255 then |p|
    else LastBelowMax(p[..|p| - 1])
  }

  /** Where a scan of all keys with a prefix ends. */
  function PrefixEnd(p: Bytes): Bound {
    var n := LastBelowMax(p);
    if n == 0 then Unbounded else Excluded(p[..n - 1] + [p[n - 1] + 1])
  }

  /** The first position where two strings differ, neither being a prefix. */
  lemma {:induction false} FirstDifference(a: Bytes, b: Bytes) returns (i: nat)
    requires !(a <= b) && !(b <= a)
    ensures i < |a| && i < |b| && a[..i] == b[..i] && a[i] != b[i]
  {
    if a[0] != b[0] {
      i := 0;
    } else {
      assert a == [a[0]] + a[1..] && b == [b[0]] + b[1..];
      i := FirstDifference(a[1..], b[1..]);
      assert a[..i + 1] == [a[0]] + a[1..][..i] && b[..i + 1] == [b[0]] + b[1..][..i];
      i := i + 1;
    }
  }

  lemma HasPrefixInRange(p: Bytes, k: Bytes)
    requires p <= k
    ensures InRange(k, Included(p), PrefixEnd(p))
  {
    LessMeans(p, k);
    var n := LastBelowMax(p);
    if n > 0 {
      var end := p[..n - 1] + [p[n - 1] + 1];
      assert k[..n - 1] == p[..n - 1] == end[..n - 1];
      assert DiffersAt(k, end, n - 1);
      LessMeans(k, end);
    }
  }

  /** Above a prefix without having it means past the end of its range. */
  lemma NotPrefixNotInRange(p: Bytes, k: Bytes)
    requires !(p <= k) && AtMost(p, k)
    ensures PrefixEnd(p).Excluded? && !Less(k, PrefixEnd(p).key)
  {
    LessMeans(p, k);
    var d := FirstDifference(p, k);
    if k[d] < p[d] {
      assert DiffersAt(k, p, d);
      BeforeLess(k, p);
      assert false;
    }
    var n := LastBelowMax(p);
    assert d < n;
    var end := p[..n - 1] + [p[n - 1] + 1];
    assert end[..d] == p[..d] == k[..d];
    if end <= k {
      LessMeans(end, k);
      if end != k { LessAsymmetric(end, k); } else { LessIrreflexive(k); }
    } else {
      assert k[..d + 1] == k[..d] + [k[d]];
      assert DiffersAt(end, k, d);
      BeforeLess(end, k);
    }
  }

  /** The bounds of a prefix scan are exact, also when the prefix is empty or all
      0xff: a key is in range if and only if it has the prefix. */
  lemma PrefixRangeIsExact(p: Bytes, k: Bytes)
    ensures InRange(k, Included(p), PrefixEnd(p)) <==> p <= k
  {
    if p <= k {
      HasPrefixInRange(p, k);
    } else if AtMost(p, k) {
      NotPrefixNotInRange(p, k);
    }
  }

  // ---- Iterating in key order ----

  ghost predicate Ascending(keys: seq<Bytes>) {
    forall i, j :: 0 <= i < j < |keys| ==> Less(keys[i], keys[j])
  }

  lemma {:induction false} FindLeast(s: set<Bytes>) returns (m: Bytes)
    requires s != {}
    ensures m in s && forall x :: x in s ==> AtMost(m, x)
  {
    m :| m in s;
    var rest := s - {m};
    assert forall x :: x in s ==> x == m || x in rest;
    if rest != {} {
      var b := FindLeast(rest);
      LessTotal(m, b);
      if Less(b, m) {
        m := b;
      } else {
        forall x | x in rest ensures AtMost(m, x) {
          if Less(m, b) && Less(b, x) { LessTransitive(m, b, x); }
        }
      }
    }
  }

  /** The keys of an ordered map, in order. */
  method SortKeys(all: set<Bytes>) returns (keys: seq<Bytes>)
    ensures Ascending(keys) && forall b :: b in keys <==> b in all
  {
    var left := all;
    keys := [];
    while left != {}
      invariant Ascending(keys) && left <= all
      invariant forall b :: b in keys <==> b in all && b !in left
      invariant forall i, b :: 0 <= i < |keys| && b in left ==> Less(keys[i], b)
      decreases |left|
    {
      ghost var least := FindLeast(left);
      assert least in left && forall x :: x in left ==> AtMost(least, x);
      var m :| m in left && forall x :: x in left ==> AtMost(m, x);
      forall b | b in left && b != m ensures Less(m, b) {
        assert AtMost(m, b);
      }
      keys := keys + [m];
      left := left - {m};
    }
  }
}
