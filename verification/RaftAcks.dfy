/** What an acknowledgement is worth when links keep their order.

    Splicing cuts a log after the last entry of an Append, so a late Append could
    undo an acknowledged one. On links that may lose messages but not reorder or
    repeat them it cannot: while a node stays in a term it has acknowledged, its
    log is exactly the acknowledged prefix of that term's leader log. */
module RaftAcks {
  import opened RaftTypes
  import opened RaftNode
  import opened RaftFacts
  import opened RaftCluster
  import opened RaftElection
  import opened RaftLogs

  ghost predicate AckOk(s: State, t: Term, v: NodeID) {
    (t, v) in s.h.acks ==>
      && t in s.h.leaders && t in s.h.logs && v != s.h.leaders[t] && v in s.nodes
      && s.h.acks[(t, v)] <= |s.h.logs[t]|
      && t <= s.nodes[v].term
      && (s.nodes[v].term == t ==> s.nodes[v].log.entries == s.h.logs[t][..s.h.acks[(t, v)]])
  }

  /** A node that led its current term still has that log, even after a restart;
      any other node with an entry of its current term has acknowledged it. */
  ghost predicate SyncOk(s: State, v: NodeID) {
    v in s.nodes ==>
      var t, es := s.nodes[v].term, s.nodes[v].log.entries;
      && (t in s.h.leaders && s.h.leaders[t] == v ==> t in s.h.logs && es == s.h.logs[t])
      && (es != [] && LastTerm(es) == t ==> (t, v) in s.h.acks || (t in s.h.leaders && s.h.leaders[t] == v))
  }

  ghost predicate AckMessageOk(s: State, k: nat) {
    k < |s.net| && s.net[k].message.AppendResponse? && !s.net[k].message.reject ==>
      var o := s.net[k];
      && o.term in s.h.leaders && s.h.leaders[o.term] == o.to
      && (o.term, o.from) in s.h.acks && o.message.lastIndex <= s.h.acks[(o.term, o.from)]
  }

  ghost predicate Carries(o: Envelope) {
    o.message.Append? && o.message.entries != []
  }

  ghost function End(o: Envelope): nat
    requires o.message.Append?
  {
    o.message.baseIndex + |o.message.entries|
  }

  /** A leader's Appends to a peer reach ever further. */
  ghost predicate AppendOrderOk(s: State, k: nat, l: nat) {
    k < l < |s.net| && Carries(s.net[k]) && Carries(s.net[l])
    && s.net[k].term == s.net[l].term && s.net[k].to == s.net[l].to ==>
      End(s.net[k]) <= End(s.net[l])
  }

  /** No Append still to be delivered falls short of what was acknowledged. */
  ghost predicate PendingOk(s: State, k: nat) {
    k < |s.net| && Carries(s.net[k]) && Cursor(s, s.net[k].from, s.net[k].to) <= k
    && (s.net[k].term, s.net[k].to) in s.h.acks ==>
      s.h.acks[(s.net[k].term, s.net[k].to)] <= End(s.net[k])
  }

  /** An Append without entries only goes to a peer that is in sync. */
  ghost predicate EmptyAppendOk(s: State, k: nat) {
    k < |s.net| && s.net[k].message.Append? && s.net[k].message.entries == [] ==>
      (s.net[k].term, s.net[k].to) in s.h.acks
  }

  ghost predicate ProgressOk(s: State, i: NodeID, p: NodeID) {
    i in s.nodes && s.nodes[i].role.Leader? ==>
      var n := s.nodes[i];
      && TracksPeers(n)
      && (p in n.role.progress <==> p in n.peers)
      && (p in n.role.progress ==>
            var a := n.role.progress[p];
            && 1 <= a.next <= |n.log.entries| + 1
            && (a.next == |n.log.entries| + 1 ==> (n.term, p) in s.h.acks)
            && (a.last > 0 ==> (n.term, p) in s.h.acks && a.last <= s.h.acks[(n.term, p)]))
  }

  ghost predicate AckInv(s: State) {
    && (forall t, v :: AckOk(s, t, v))
    && (forall v :: SyncOk(s, v))
    && (forall k :: AckMessageOk(s, k))
    && (forall k, l :: AppendOrderOk(s, k, l))
    && (forall k :: PendingOk(s, k))
    && (forall k :: EmptyAppendOk(s, k))
    && (forall i, p :: ProgressOk(s, i, p))
  }

  ghost predicate AcksGrowAt(h: History, h': History, t: Term, v: NodeID) {
    (t, v) in h.acks ==> (t, v) in h'.acks && h.acks[(t, v)] <= h'.acks[(t, v)]
  }

  ghost predicate AcksGrow(h: History, h': History) {
    forall t, v :: AcksGrowAt(h, h', t, v)
  }

  // ---- Each step keeps the invariants ----

  lemma AcceptsFacts(n: Node, ev: Event, e: Effect)
    requires SendFacts(n, ev, e) && Accepts(e.out)
    ensures Got(ev, e.node.term) && ev.msg.message.Append? && Accepted(n, ev.msg.message, e.node)
            && e.node.role.Follower?
  {
    assert Sends(n, ev, e.node, e.out[|e.out| - 1]);
  }

  /** Acknowledging: the log becomes, or already was, a prefix of the leader's
      log, no shorter than acknowledged before. */
  lemma AckedLog(s: State, i: NodeID, ev: Event, e: Effect, s': State)
    requires LogInv(s) && AckInv(s) && Moves(s, i, e, s') && Heard(s, i, ev) && HeardInOrder(s, i, ev, s')
    requires SendFacts(s.nodes[i], ev, e) && VoteFacts(s.nodes[i], ev, e.node) && Accepts(e.out)
    ensures var t, es := e.node.term, e.node.log.entries;
            && t in s.h.leaders && t in s.h.logs && i != s.h.leaders[t]
            && es <= s.h.logs[t]
            && ((t, i) in s.h.acks ==> s.h.acks[(t, i)] <= |es|)
    ensures Carries(ev.msg) ==> |e.node.log.entries| == End(ev.msg)
    ensures ev.msg.message.Append? && !Carries(ev.msg) ==>
              (e.node.term, i) in s.h.acks && s.h.acks[(e.node.term, i)] == |e.node.log.entries|
  {
    var n, n', t := s.nodes[i], e.node, e.node.term;
    AcceptsFacts(n, ev, e);
    ReceivedOk(s, i, ev);
    assert TermLogOk(s.h, t) && NodeLogOk(s, i);
    AcceptedLog(s.h, n, ev.msg, n');
    var k: nat :| k < |s.net| && s.net[k] == ev.msg && Cursor(s, ev.msg.from, i) <= k < Cursor(s', ev.msg.from, i);
    assert PendingOk(s, k) && EmptyAppendOk(s, k) && AckOk(s, t, i);
  }

  lemma AckStep(s: State, i: NodeID, ev: Event, e: Effect, s': State, t: Term, v: NodeID)
    requires LogInv(s) && AckInv(s) && Moves(s, i, e, s') && Heard(s, i, ev) && HeardInOrder(s, i, ev, s')
    requires VoteFacts(s.nodes[i], ev, e.node) && AckFacts(s.nodes[i], ev, e) && SendFacts(s.nodes[i], ev, e)
    requires Grows(s.h, s'.h) && LeaderOrigin(s, i, e.node)
    ensures AckOk(s', t, v)
  {
    var n, n' := s.nodes[i], e.node;
    if Accepts(e.out) {
      AckedLog(s, i, ev, e, s');
      AcceptsFacts(n, ev, e);
    }
    assert AckOk(s, t, v) && GrowsAt(s.h, s'.h, t) && TermLogOk(s.h, t);
  }

  lemma SyncStep(c: Config, s: State, i: NodeID, ev: Event, e: Effect, s': State, v: NodeID)
    requires ElectionInv(c, s) && LogInv(s) && AckInv(s) && Moves(s, i, e, s') && Heard(s, i, ev)
    requires VoteFacts(s.nodes[i], ev, e.node) && AckFacts(s.nodes[i], ev, e) && SendFacts(s.nodes[i], ev, e)
    requires Grows(s.h, s'.h) && LeaderOrigin(s, i, e.node)
    ensures SyncOk(s', v)
  {
    var n, n' := s.nodes[i], e.node;
    assert SyncOk(s, v) && NodeLogOk(s, i) && LeaderTermOk(s, n'.term);
    if Accepts(e.out) {
      AcceptsFacts(n, ev, e);
      ReceivedOk(s, i, ev);
    }
    if v in s.nodes {
      assert GrowsAt(s.h, s'.h, s.nodes[v].term) && TermLogOk(s.h, s.nodes[v].term) && TermLogOk(s.h, n'.term);
    }
  }

  lemma AcksGrowStep(s: State, i: NodeID, ev: Event, e: Effect, s': State)
    requires LogInv(s) && AckInv(s) && Moves(s, i, e, s') && Heard(s, i, ev) && HeardInOrder(s, i, ev, s')
    requires SendFacts(s.nodes[i], ev, e) && VoteFacts(s.nodes[i], ev, e.node)
    ensures AcksGrow(s.h, s'.h)
  {
    if Accepts(e.out) {
      AckedLog(s, i, ev, e, s');
    }
    forall t, v ensures AcksGrowAt(s.h, s'.h, t, v) {
    }
  }

  lemma AckMessageStep(s: State, i: NodeID, ev: Event, e: Effect, s': State, k: nat)
    requires LogInv(s) && AckInv(s) && Moves(s, i, e, s') && Heard(s, i, ev)
    requires SendFacts(s.nodes[i], ev, e) && Grows(s.h, s'.h) && AcksGrow(s.h, s'.h)
    requires AckFacts(s.nodes[i], ev, e)
    ensures AckMessageOk(s', k)
  {
    assert AckMessageOk(s, k);
    if k < |s.net| {
      assert GrowsAt(s.h, s'.h, s.net[k].term) && AcksGrowAt(s.h, s'.h, s.net[k].term, s.net[k].from);
    } else if k < |s'.net| {
      var o := e.out[k - |s.net|];
      assert s'.net[k] == o;
      assert Sends(s.nodes[i], ev, e.node, o);
      if o.message.AppendResponse? && !o.message.reject {
        ReceivedOk(s, i, ev);
        assert GrowsAt(s.h, s'.h, o.term);
      }
    }
  }

  lemma AppendOrderStep(s: State, i: NodeID, ev: Event, e: Effect, s': State, k: nat, l: nat)
    requires LogInv(s) && LogInv(s') && AckInv(s) && Moves(s, i, e, s')
    requires SendFacts(s.nodes[i], ev, e) && Grows(s.h, s'.h) && (e.node.role.Leader? ==> e.node.id == i)
    ensures AppendOrderOk(s', k, l)
  {
    assert AppendOrderOk(s, k, l);
    if k < l < |s'.net| && |s.net| <= l && Carries(s'.net[k]) && Carries(s'.net[l]) {
      assert MessageOk(s', k);
      var o := e.out[l - |s.net|];
      assert s'.net[l] == o;
      assert Sends(s.nodes[i], ev, e.node, o);
      assert End(o) == |e.node.log.entries|;
    }
  }

  lemma PendingStep(s: State, i: NodeID, ev: Event, e: Effect, s': State, k: nat)
    requires LogInv(s) && AckInv(s) && Moves(s, i, e, s') && Heard(s, i, ev) && HeardInOrder(s, i, ev, s')
    requires SendFacts(s.nodes[i], ev, e) && VoteFacts(s.nodes[i], ev, e.node)
    requires k < |s'.net| && LogInv(s') && AckOk(s', s'.net[k].term, s'.net[k].to)
    ensures PendingOk(s', k)
  {
    if k < |s.net| {
      assert s'.net[k] == s.net[k];
      var o := s.net[k];
      assert PendingOk(s, k) && Cursor(s', o.from, o.to) >= Cursor(s, o.from, o.to);
      if Accepts(e.out) && Carries(o) && o.to == i && o.term == e.node.term && Cursor(s', o.from, i) <= k {
        AckedLog(s, i, ev, e, s');
        AcceptsFacts(s.nodes[i], ev, e);
        ReceivedOk(s, i, ev);
        assert MessageOk(s, k);
        var k0: nat :| k0 < |s.net| && s.net[k0] == ev.msg
            && Cursor(s, ev.msg.from, i) <= k0 < Cursor(s', ev.msg.from, i);
        assert AppendOrderOk(s, k0, k);
      }
    } else {
      var o := e.out[k - |s.net|];
      assert s'.net[k] == o;
      assert Sends(s.nodes[i], ev, e.node, o);
      assert MessageOk(s', k);
    }
  }

  lemma ProgressStep(c: Config, s: State, i: NodeID, ev: Event, e: Effect, s': State, x: NodeID, p: NodeID)
    requires ElectionInv(c, s) && LogInv(s) && AckInv(s) && Moves(s, i, e, s') && Heard(s, i, ev)
    requires VoteFacts(s.nodes[i], ev, e.node) && LeaderFacts(s.nodes[i], ev, e.node)
    requires LogFacts(s.nodes[i], ev, e.node) && ProgressFacts(s.nodes[i], ev, e.node) && AcksGrow(s.h, s'.h)
    ensures ProgressOk(s', x, p)
  {
    var n, n' := s.nodes[i], e.node;
    assert ProgressOk(s, x, p);
    if x != i {
      if x in s.nodes {
        assert AcksGrowAt(s.h, s'.h, s.nodes[x].term, p);
      }
    } else if n'.role.Leader? {
      assert AcksGrowAt(s.h, s'.h, n'.term, p);
      if StillLeader(n, n') {
        LeaderProgressStep(s, i, ev, n', p);
      }
    }
  }

  lemma LeaderProgressStep(s: State, i: NodeID, ev: Event, n': Node, p: NodeID)
    requires AckInv(s) && i in s.nodes && Heard(s, i, ev) && StillLeader(s.nodes[i], n')
    requires ProgressOk(s, i, p) && LogFacts(s.nodes[i], ev, n') && ProgressFacts(s.nodes[i], ev, n')
    ensures TracksPeers(n') && (p in n'.role.progress <==> p in n'.peers)
    ensures p in n'.role.progress ==>
              var a := n'.role.progress[p];
              && 1 <= a.next <= |n'.log.entries| + 1
              && (a.next == |n'.log.entries| + 1 ==> (n'.term, p) in s.h.acks)
              && (a.last > 0 ==> (n'.term, p) in s.h.acks && a.last <= s.h.acks[(n'.term, p)])
  {
    var n := s.nodes[i];
    if p in n.peers {
      assert PeerMoved(n, ev, n', p);
      if Got(ev, n.term) && ev.msg.from == p && ev.msg.message.AppendResponse? && !ev.msg.message.reject {
        var k: nat :| k < |s.net| && s.net[k] == ev.msg;
        assert AckMessageOk(s, k);
      }
    }
  }

  lemma EmptyAppendStep(s: State, i: NodeID, ev: Event, e: Effect, s': State, k: nat)
    requires AckInv(s) && Moves(s, i, e, s') && SendFacts(s.nodes[i], ev, e) && AcksGrow(s.h, s'.h)
    requires forall p :: ProgressOk(s', i, p)
    ensures EmptyAppendOk(s', k)
  {
    assert EmptyAppendOk(s, k);
    if k < |s.net| {
      assert AcksGrowAt(s.h, s'.h, s.net[k].term, s.net[k].to);
    } else if k < |s'.net| {
      var o := e.out[k - |s.net|];
      assert s'.net[k] == o;
      assert Sends(s.nodes[i], ev, e.node, o);
      if o.message.Append? {
        assert ProgressOk(s', i, o.to);
      }
    }
  }

  lemma AckInvStep(c: Config, s: State, i: NodeID, ev: Event, e: Effect, s': State)
    requires ElectionInv(c, s) && LogInv(s) && AckInv(s) && LogInv(s')
    requires Transition(s, i, ev, e, s') && HeardInOrder(s, i, ev, s')
    requires LeaderOrigin(s, i, e.node) && Grows(s.h, s'.h)
    ensures AckInv(s') && AcksGrow(s.h, s'.h)
  {
    AcksGrowStep(s, i, ev, e, s');
    assert MemberOk(c, s, i);
    forall t, v ensures AckOk(s', t, v) { AckStep(s, i, ev, e, s', t, v); }
    forall v ensures SyncOk(s', v) { SyncStep(c, s, i, ev, e, s', v); }
    forall k: nat ensures AckMessageOk(s', k) { AckMessageStep(s, i, ev, e, s', k); }
    forall k: nat, l: nat ensures AppendOrderOk(s', k, l) { AppendOrderStep(s, i, ev, e, s', k, l); }
    forall k: nat ensures PendingOk(s', k) {
      if k < |s'.net| {
        PendingStep(s, i, ev, e, s', k);
      }
    }
    forall x, p ensures ProgressOk(s', x, p) { ProgressStep(c, s, i, ev, e, s', x, p); }
    forall k: nat ensures EmptyAppendOk(s', k) { EmptyAppendStep(s, i, ev, e, s', k); }
  }

  lemma AckInit(c: Config, s: State)
    requires Init(c, s)
    ensures AckInv(s)
  {
  }
}
