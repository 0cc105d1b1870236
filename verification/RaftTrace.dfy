/** Continuing a run of a cluster over in-order links, one action at a time. */
module RaftTrace {
  import opened RaftTypes
  import opened RaftNode
  import opened RaftCluster
  import opened RaftElection

  /** A run so far: its states and actions. */
  datatype Trace = Trace(ss: seq<State>, acts: seq<Action>)

  ghost predicate Live(c: Config, t: Trace) {
    Run(c, true, t.ss, t.acts)
  }

  function Now(t: Trace): State
    requires t.ss != []
  {
    t.ss[|t.ss| - 1]
  }

  predicate Extends(t: Trace, t': Trace) {
    t.ss <= t'.ss && t.acts <= t'.acts
  }

  lemma Do(c: Config, t: Trace, a: Action) returns (t': Trace)
    requires Live(c, t) && Enabled(c, true, Now(t), a)
    ensures Live(c, t') && Extends(t, t') && Now(t') == After(c, Now(t), a) && t'.acts == t.acts + [a]
  {
    t' := Trace(t.ss + [After(c, Now(t), a)], t.acts + [a]);
    forall j: nat | j < |t'.acts| ensures StepAt(c, true, t'.ss, t'.acts, j) {
      if j < |t.acts| {
        assert StepAt(c, true, t.ss, t.acts, j);
      }
    }
  }

  // ---- Messages that can still be delivered ----

  /** Nothing later than this message was delivered on its link. */
  ghost predicate Ready(s: State, k: nat) {
    k < |s.net| && Cursor(s, s.net[k].from, s.net[k].to) <= k
  }

  ghost predicate CursorsWithin(s: State) {
    forall x, y :: Cursor(s, x, y) <= |s.net|
  }

  lemma {:induction false} CursorsRun(c: Config, t: Trace, j: nat)
    requires Live(c, t) && j < |t.ss|
    ensures CursorsWithin(t.ss[j])
  {
    if j > 0 {
      CursorsRun(c, t, j - 1);
      assert StepAt(c, true, t.ss, t.acts, j - 1);
      forall x, y ensures Cursor(t.ss[j], x, y) <= |t.ss[j].net| {
        assert Cursor(t.ss[j - 1], x, y) <= |t.ss[j - 1].net|;
      }
    }
  }

  lemma Knows(c: Config, t: Trace)
    requires Live(c, t)
    ensures Now(t).nodes.Keys == c.members && forall i :: i in c.members ==> Now(t).nodes[i].id == i
    ensures forall i :: i in c.members ==> PeersOk(c.members, Now(t).nodes[i])
  {
    InOrderIsAny(c, t.ss, t.acts);
    ElectionRun(c, t.ss, t.acts, |t.ss| - 1);
    MembersKnown(c, Now(t));
    forall i | i in c.members ensures PeersOk(c.members, Now(t).nodes[i]) {
      assert MemberOk(c, Now(t), i);
    }
  }

  /** What stays when only nodes x and y act and only messages between them arrive. */
  ghost predicate Between(s: State, s': State, x: NodeID, y: NodeID) {
    && s'.nodes.Keys == s.nodes.Keys && s'.up == s.up && s.net <= s'.net
    && (forall i :: i in s.nodes && i != x && i != y ==> s'.nodes[i] == s.nodes[i])
    && (forall k: nat :: Ready(s, k) && !Among(s.net[k], x, y) ==> Ready(s', k))
  }

  predicate Among(o: Envelope, x: NodeID, y: NodeID) {
    (o.from == x || o.from == y) && (o.to == x || o.to == y)
  }

  lemma BetweenBoth(a: State, b: State, d: State, x: NodeID, y: NodeID)
    requires Between(a, b, x, y) && Between(b, d, x, y)
    ensures Between(a, d, x, y)
  {
    forall k: nat | Ready(a, k) && !Among(a.net[k], x, y) ensures Ready(d, k) {
      assert Ready(b, k);
    }
  }

  /** What an effect of node i makes of a state. */
  ghost predicate Became(s: State, s': State, i: NodeID, e: Effect) {
    && s'.nodes == s.nodes[i := e.node] && s'.net == s.net + e.out && s'.up == s.up
    && forall j :: |s.net| <= j < |s'.net| ==> Ready(s', j)
  }

  /** A node that is up gets a message, and goes on. */
  lemma Gets(c: Config, t: Trace, k: nat, e: Effect) returns (t': Trace)
    requires Live(c, t) && Ready(Now(t), k)
    requires var o := Now(t).net[k];
             && o.to in c.members && o.to in Now(t).up && o.from != o.to && o.to in Now(t).nodes
             && Handle(c.machine, Now(t).nodes[o.to], Receive(o)) == e && e.ok
    ensures Live(c, t') && Extends(t, t') && Became(Now(t), Now(t'), Now(t).net[k].to, e)
    ensures Between(Now(t), Now(t'), Now(t).net[k].from, Now(t).net[k].to) && t'.acts == t.acts + [Deliver(k)]
  {
    t' := Do(c, t, Deliver(k));
    CursorsRun(c, t, |t.ss| - 1);
    var s, s' := Now(t), Now(t');
    forall j | |s.net| <= j < |s'.net| ensures Ready(s', j) {
      assert Cursor(s, s'.net[j].from, s'.net[j].to) <= |s.net|;
    }
    forall j: nat | Ready(s, j) && !Among(s.net[j], s.net[k].from, s.net[k].to) ensures Ready(s', j) {
      assert Cursor(s', s.net[j].from, s.net[j].to) == Cursor(s, s.net[j].from, s.net[j].to);
    }
  }

  /** A node acts on its own: its timer fires, or its client submits a request. */
  lemma Acts(c: Config, t: Trace, a: Action, e: Effect) returns (t': Trace)
    requires Live(c, t) && (a.Expire? || a.Submit?) && a.node in c.members && a.node in Now(t).up
    requires a.node in Now(t).nodes && Handle(c.machine, Now(t).nodes[a.node], EventOf(Now(t), a)) == e && e.ok
    ensures Live(c, t') && Extends(t, t') && Became(Now(t), Now(t'), a.node, e)
    ensures Between(Now(t), Now(t'), a.node, a.node) && forall k: nat :: Ready(Now(t), k) ==> Ready(Now(t'), k)
  {
    t' := Do(c, t, a);
    CursorsRun(c, t, |t.ss| - 1);
    var s, s' := Now(t), Now(t');
    forall j | |s.net| <= j < |s'.net| ensures Ready(s', j) {
      assert Cursor(s, s'.net[j].from, s'.net[j].to) <= |s.net|;
    }
    forall k: nat | Ready(s, k) ensures Ready(s', k) {
      assert Cursor(s', s.net[k].from, s.net[k].to) == Cursor(s, s.net[k].from, s.net[k].to);
    }
  }

  /** A delivery moves the cursor of its link, and no other. */
  lemma CursorsAfter(c: Config, t: Trace, t': Trace, k: nat)
    requires Live(c, t) && Live(c, t') && Extends(t, t') && t'.acts == t.acts + [Deliver(k)] && k < |Now(t).net|
    ensures forall x, y ::
              Cursor(Now(t'), x, y) ==
                if x == Now(t).net[k].from && y == Now(t).net[k].to then k + 1 else Cursor(Now(t), x, y)
  {
    assert StepAt(c, true, t'.ss, t'.acts, |t.acts|);
  }
}
