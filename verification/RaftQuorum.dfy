/** What the quorum value of a set of numbers means, and why majorities meet. */
module RaftQuorum {
  import opened RaftTypes
  import opened RaftNode

  /** The positions holding a value of at least x. */
  ghost function AtLeast(s: seq<nat>, x: nat): set<nat> {
    set j | 0 <= j < |s| && s[j] >= x
  }

  function CountAtLeast(s: seq<nat>, x: nat): nat {
    if s == [] then 0 else CountAtLeast(s[..|s| - 1], x) + (if s[|s| - 1] >= x then 1 else 0)
  }

  lemma {:induction false} CountIsSize(s: seq<nat>, x: nat)
    ensures CountAtLeast(s, x) == |AtLeast(s, x)|
  {
    if s != [] {
      var l := |s| - 1;
      CountIsSize(s[..l], x);
      assert AtLeast(s, x) == AtLeast(s[..l], x) + (if s[l] >= x then {l} else {});
      assert l !in AtLeast(s[..l], x);
    }
  }

  lemma {:induction false} CountConcat(a: seq<nat>, b: seq<nat>, x: nat)
    ensures CountAtLeast(a + b, x) == CountAtLeast(a, x) + CountAtLeast(b, x)
  {
    if b == [] {
      assert a + b == a;
    } else {
      CountConcat(a, b[..|b| - 1], x);
      assert (a + b)[..|a + b| - 1] == a + b[..|b| - 1];
    }
  }

  lemma {:induction false} CountWithout(s: seq<nat>, y: nat, x: nat)
    requires y in s
    ensures CountAtLeast(s, x) == CountAtLeast(Without(s, y), x) + (if y >= x then 1 else 0)
  {
    assert s == [s[0]] + s[1..];
    CountConcat([s[0]], s[1..], x);
    if s[0] != y {
      CountWithout(s[1..], y, x);
      CountConcat([s[0]], Without(s[1..], y), x);
    }
  }

  lemma {:induction false} CountNone(s: seq<nat>, x: nat)
    requires forall j :: 0 <= j < |s| ==> s[j] < x
    ensures CountAtLeast(s, x) == 0
  {
    if s != [] {
      CountNone(s[..|s| - 1], x);
    }
  }

  /** The k-th largest value, counting from 0, is reached by at least k + 1
      values and exceeded by at most k. */
  lemma {:induction false} NthLargestMeaning(s: seq<nat>, k: nat)
    requires k < |s|
    ensures NthLargest(s, k) in s
    ensures CountAtLeast(s, NthLargest(s, k)) >= k + 1
    ensures CountAtLeast(s, NthLargest(s, k) + 1) <= k
    decreases k
  {
    var top := Max(s);
    if k == 0 {
      LargestMeaning(s, top);
    } else {
      var rest := Without(s, top);
      var v := NthLargest(rest, k - 1);
      NthLargestMeaning(rest, k - 1);
      NthLargestUp(s, k, top, rest, v);
      assert NthLargest(s, k) == v;
    }
  }

  lemma LargestMeaning(s: seq<nat>, top: nat)
    requires top in s && forall x :: x in s ==> x <= top
    ensures CountAtLeast(s, top) >= 1 && CountAtLeast(s, top + 1) == 0
  {
    CountWithout(s, top, top);
    forall j | 0 <= j < |s| ensures s[j] < top + 1 {
      assert s[j] in s;
    }
    CountNone(s, top + 1);
  }

  lemma NthLargestUp(s: seq<nat>, k: nat, top: nat, rest: seq<nat>, v: nat)
    requires 0 < k < |s| && top in s && rest == Without(s, top)
    requires forall x :: x in s ==> x <= top
    requires v in rest && CountAtLeast(rest, v) >= k && CountAtLeast(rest, v + 1) <= k - 1
    ensures v in s && CountAtLeast(s, v) >= k + 1 && CountAtLeast(s, v + 1) <= k
  {
    CountWithout(s, top, v);
    CountWithout(s, top, v + 1);
  }

  /** The quorum value is the largest value that a strict majority reaches. */
  lemma QuorumValueMeaning(s: seq<nat>)
    requires s != []
    ensures QuorumValue(s) in s
    ensures |AtLeast(s, QuorumValue(s))| >= QuorumSize(|s|)
    ensures forall x :: x > QuorumValue(s) ==> |AtLeast(s, x)| < QuorumSize(|s|)
  {
    var v, k := QuorumValue(s), QuorumSize(|s|) - 1;
    NthLargestMeaning(s, k);
    CountIsSize(s, v);
    CountIsSize(s, v + 1);
    forall x | x > v ensures |AtLeast(s, x)| < QuorumSize(|s|) {
      assert AtLeast(s, v + 1) == AtLeast(s, x) + (AtLeast(s, v + 1) - AtLeast(s, x));
    }
  }

  // ---- Majorities of nodes ----

  lemma SubsetSize<T>(a: set<T>, b: set<T>)
    requires a <= b
    ensures |a| <= |b|
  {
    assert b == a + (b - a);
  }

  /** Two majorities of the same set have a member in common. */
  lemma QuorumsMeet(members: set<NodeID>, a: set<NodeID>, b: set<NodeID>) returns (v: NodeID)
    requires a <= members && b <= members
    requires |a| >= QuorumSize(|members|) && |b| >= QuorumSize(|members|)
    ensures v in a && v in b
  {
    SubsetSize(a + b, members);
    assert |a + b| + |a * b| == |a| + |b|;
    assert |a * b| >= 1;
    v :| v in a * b;
  }

  /** Choosing positions of a list without repeats chooses as many members. */
  lemma {:induction false} PickedSize(s: seq<NodeID>, picks: set<nat>)
    requires forall i, j :: 0 <= i < j < |s| ==> s[i] != s[j]
    requires forall j :: j in picks ==> j < |s|
    ensures |(set j | j in picks :: s[j])| == |picks|
    decreases |picks|
  {
    if picks != {} {
      var p :| p in picks;
      PickedSize(s, picks - {p});
      var rest := set j | j in picks - {p} :: s[j];
      assert (set j | j in picks :: s[j]) == rest + {s[p]};
      assert s[p] !in rest;
    }
  }
}
