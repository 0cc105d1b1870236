/** Leader completeness: the leader of every later term has every entry that a
    quorum acknowledged to the leader of the entry's own term. */
module RaftCompleteness {
  import opened RaftTypes
  import opened RaftNode
  import opened RaftQuorum
  import opened RaftFacts
  import opened RaftCluster
  import opened RaftElection
  import opened RaftLogs
  import opened RaftBallots
  import opened RaftAcks

  /** How much of the log of term t a node is known to have stored in that term. */
  ghost function AckedUpTo(h: History, t: Term, v: NodeID): nat {
    if t in h.leaders && t in h.logs && h.leaders[t] == v then |h.logs[t]|
    else if (t, v) in h.acks then h.acks[(t, v)]
    else 0
  }

  /** Node v stored, in term t, the first q entries, the last of them of term t. */
  ghost predicate Stored(h: History, t: Term, v: NodeID, q: nat) {
    && t in h.logs && 1 <= q <= |h.logs[t]| && h.logs[t][q - 1].term == t
    && q <= AckedUpTo(h, t, v)
  }

  /** The leader of term u has the first q entries of the leader of term t. */
  ghost predicate Has1st(h: History, t: Term, q: nat, u: Term) {
    t in h.logs && u in h.logs && q <= |h.logs[t]| && h.logs[t][..q] <= h.logs[u]
  }

  /** If v acknowledged anything in the later term u, that leader has them. */
  ghost predicate KeepsAt(h: History, v: NodeID, t: Term, q: nat, u: Term) {
    t < u && (u, v) in h.acks ==> Has1st(h, t, q, u)
  }

  /** Stored entries stay stored unless a leader without them is acknowledged. */
  ghost predicate KeptOk(s: State, v: NodeID, t: Term, q: nat) {
    v in s.nodes && Stored(s.h, t, v, q) && (forall u :: KeepsAt(s.h, v, t, q, u)) ==>
      s.h.logs[t][..q] <= s.nodes[v].log.entries
  }

  /** The same for the log a voter had when it voted in term w. */
  ghost predicate KeptAtVoteOk(h: History, v: NodeID, t: Term, q: nat, w: Term) {
    (w, v) in h.grants && t < w && Stored(h, t, v, q) && (forall u: Term :: u < w ==> KeepsAt(h, v, t, q, u)) ==>
      h.logs[t][..q] <= h.grants[(w, v)].log
  }

  ghost predicate KeepInv(s: State) {
    && (forall v, t, q :: KeptOk(s, v, t, q))
    && (forall v, t, q, w :: KeptAtVoteOk(s.h, v, t, q, w))
  }

  lemma OrderedTerms(es: seq<Entry>, k: nat, l: nat)
    requires Ordered(es) && k <= l < |es|
    ensures es[k].term <= es[l].term
  {
    assert OrderedAt(es, k, l);
  }

  /** A later leader that lacks some entries of term t will always lack them. */
  lemma LackingIsForever(h: History, h': History, t: Term, q: nat, u: Term)
    requires TermLogOk(h, t) && TermLogOk(h, u) && GrowsAt(h, h', t) && GrowsAt(h, h', u)
    requires t in h.logs && u in h.logs && t < u && 1 <= q <= |h.logs[t]|
    requires Has1st(h', t, q, u)
    ensures Has1st(h, t, q, u)
  {
    var a, b := h.logs[t], h.logs[u];
    if |b| < q {
      assert h'.logs[t][|b| - 1] == a[|b| - 1] && h'.logs[u][|b| - 1] == b[|b| - 1];
      assert h'.logs[t][..q][|b| - 1] == h'.logs[u][|b| - 1];
      OrderedTerms(a, |b| - 1, |a| - 1);
      assert false;
    }
    assert h'.logs[t][..q] == a[..q];
    assert b[..q] == h'.logs[u][..q] == a[..q];
  }

  /** Nothing about a term before the acting node's own changes for it. */
  lemma PastIsFixed(s: State, i: NodeID, e: Effect, s': State, t: Term, v: NodeID)
    requires Moves(s, i, e, s') && LogInv(s) && AckInv(s) && LeaderOrigin(s, i, e.node) && Grows(s.h, s'.h)
    requires v != i || t < e.node.term
    ensures (t, v) in s'.h.acks <==> (t, v) in s.h.acks
    ensures AckedUpTo(s'.h, t, v) == AckedUpTo(s.h, t, v)
    ensures AckedUpTo(s.h, t, v) > 0 ==> t in s.h.logs && AckedUpTo(s.h, t, v) <= |s.h.logs[t]|
  {
    assert AckOk(s, t, v) && GrowsAt(s.h, s'.h, t) && TermLogOk(s.h, t);
  }

  /** A premise of the new state, read back in the state before. */
  lemma StoredBefore(s: State, i: NodeID, e: Effect, s': State, v: NodeID, t: Term, q: nat)
    requires Moves(s, i, e, s') && LogInv(s) && AckInv(s) && LeaderOrigin(s, i, e.node) && Grows(s.h, s'.h)
    requires v != i || t < e.node.term
    requires Stored(s'.h, t, v, q)
    ensures Stored(s.h, t, v, q) && s'.h.logs[t][..q] == s.h.logs[t][..q]
  {
    PastIsFixed(s, i, e, s', t, v);
    assert GrowsAt(s.h, s'.h, t);
  }

  lemma KeepsBefore(s: State, i: NodeID, e: Effect, s': State, v: NodeID, t: Term, q: nat, u: Term)
    requires Moves(s, i, e, s') && LogInv(s) && AckInv(s) && LeaderOrigin(s, i, e.node) && Grows(s.h, s'.h)
    requires AcksGrow(s.h, s'.h)
    requires Stored(s.h, t, v, q) && KeepsAt(s'.h, v, t, q, u)
    ensures KeepsAt(s.h, v, t, q, u)
  {
    assert AckOk(s, u, v) && AcksGrowAt(s.h, s'.h, u, v);
    if t < u && (u, v) in s.h.acks {
      assert TermLogOk(s.h, t) && TermLogOk(s.h, u) && GrowsAt(s.h, s'.h, t) && GrowsAt(s.h, s'.h, u);
      LackingIsForever(s.h, s'.h, t, q, u);
    }
  }

  /** A log spliced by a later leader that has the entries still has them. */
  lemma SpliceKeeps(s: State, i: NodeID, ev: Event, n': Node, t: Term, q: nat)
    requires LogInv(s) && i in s.nodes && Heard(s, i, ev) && Got(ev, n'.term)
    requires ev.msg.message.Append? && Accepted(s.nodes[i], ev.msg.message, n')
    requires t in s.h.logs && 1 <= q <= |s.h.logs[t]| && t < n'.term
    requires Has1st(s.h, t, q, n'.term) && s.h.logs[t][..q] <= s.nodes[i].log.entries
    ensures s.h.logs[t][..q] <= n'.log.entries
  {
    var u, o := n'.term, ev.msg;
    ReceivedOk(s, i, ev);
    assert TermLogOk(s.h, u) && TermLogOk(s.h, t) && NodeLogOk(s, i);
    AcceptedLog(s.h, s.nodes[i], o, n');
    if o.message.entries != [] {
      EndsAfter(s.h, t, q, u, o.message.baseIndex + |o.message.entries|);
    }
  }

  lemma EndsAfter(h: History, t: Term, q: nat, u: Term, end: nat)
    requires TermLogOk(h, t) && TermLogOk(h, u) && t < u && Has1st(h, t, q, u) && 1 <= q
    requires 1 <= end <= |h.logs[u]| && h.logs[u][end - 1].term == u
    ensures end > q && h.logs[t][..q] <= h.logs[u][..end]
  {
    OrderedTerms(h.logs[t], q - 1, |h.logs[t]| - 1);
    assert h.logs[t][..q][q - 1] == h.logs[u][q - 1];
    if end <= q {
      OrderedTerms(h.logs[u], end - 1, q - 1);
      assert false;
    }
    assert h.logs[t][..q] == h.logs[u][..q] == h.logs[u][..end][..q];
  }

  // ---- Each step keeps the invariants ----

  lemma ActingKept(c: Config, s: State, i: NodeID, ev: Event, e: Effect, s': State, t: Term, q: nat)
    requires ElectionInv(c, s) && LogInv(s) && AckInv(s) && KeepInv(s) && AckInv(s') && ElectionInv(c, s')
    requires Transition(s, i, ev, e, s') && LeaderOrigin(s, i, e.node) && Grows(s.h, s'.h) && AcksGrow(s.h, s'.h)
    ensures KeptOk(s', i, t, q)
  {
    var n, n' := s.nodes[i], e.node;
    if Stored(s'.h, t, i, q) && forall u :: KeepsAt(s'.h, i, t, q, u) {
      assert AckOk(s', t, i) && SyncOk(s', i) && LeaderTermOk(s', t);
      if t < n'.term {
        StoredBefore(s, i, e, s', i, t, q);
        forall u ensures KeepsAt(s.h, i, t, q, u) {
          assert KeepsAt(s'.h, i, t, q, u);
          KeepsBefore(s, i, e, s', i, t, q, u);
        }
        assert KeptOk(s, i, t, q);
        KeptThrough(s, i, ev, e, s', t, q);
      }
    }
  }

  lemma KeptThrough(s: State, i: NodeID, ev: Event, e: Effect, s': State, t: Term, q: nat)
    requires LogInv(s) && AckInv(s) && Moves(s, i, e, s') && Heard(s, i, ev) && LeaderOrigin(s, i, e.node)
    requires AckFacts(s.nodes[i], ev, e) && SendFacts(s.nodes[i], ev, e) && Grows(s.h, s'.h)
    requires t < e.node.term && Stored(s.h, t, i, q) && s'.h.logs[t][..q] == s.h.logs[t][..q]
    requires s.h.logs[t][..q] <= s.nodes[i].log.entries && KeepsAt(s'.h, i, t, q, e.node.term)
    ensures s'.h.logs[t][..q] <= e.node.log.entries
  {
    if Accepts(e.out) {
      AcceptsFacts(s.nodes[i], ev, e);
      ReceivedOk(s, i, ev);
      assert TermLogOk(s.h, t) && TermLogOk(s.h, e.node.term);
      assert GrowsAt(s.h, s'.h, t) && GrowsAt(s.h, s'.h, e.node.term);
      LackingIsForever(s.h, s'.h, t, q, e.node.term);
      SpliceKeeps(s, i, ev, e.node, t, q);
    }
  }

  lemma OtherKept(s: State, i: NodeID, e: Effect, s': State, v: NodeID, t: Term, q: nat)
    requires Moves(s, i, e, s') && LogInv(s) && AckInv(s) && KeepInv(s) && v != i
    requires LeaderOrigin(s, i, e.node) && Grows(s.h, s'.h) && AcksGrow(s.h, s'.h)
    ensures KeptOk(s', v, t, q)
  {
    if v in s.nodes && Stored(s'.h, t, v, q) && forall u :: KeepsAt(s'.h, v, t, q, u) {
      StoredBefore(s, i, e, s', v, t, q);
      forall u ensures KeepsAt(s.h, v, t, q, u) {
        assert KeepsAt(s'.h, v, t, q, u);
        KeepsBefore(s, i, e, s', v, t, q, u);
      }
      assert KeptOk(s, v, t, q);
    }
  }

  lemma KeptAtVote(c: Config, s: State, i: NodeID, ev: Event, e: Effect, s': State, v: NodeID, t: Term, q: nat, w: Term)
    requires ElectionInv(c, s) && LogInv(s) && AckInv(s) && KeepInv(s) && BallotInv(s)
    requires Moves(s, i, e, s') && VoteFacts(s.nodes[i], ev, e.node)
    requires LeaderOrigin(s, i, e.node) && Grows(s.h, s'.h) && AcksGrow(s.h, s'.h)
    ensures KeptAtVoteOk(s'.h, v, t, q, w)
  {
    if (w, v) in s'.h.grants && t < w && Stored(s'.h, t, v, q)
       && forall u: Term :: u < w ==> KeepsAt(s'.h, v, t, q, u)
    {
      assert GrantTermOk(s, w, v);
      StoredBefore(s, i, e, s', v, t, q);
      forall u: Term | u < w ensures KeepsAt(s.h, v, t, q, u) {
        assert KeepsAt(s'.h, v, t, q, u);
        KeepsBefore(s, i, e, s', v, t, q, u);
      }
      if (w, v) in s.h.grants {
        assert KeptAtVoteOk(s.h, v, t, q, w);
      } else {
        forall u ensures KeepsAt(s.h, v, t, q, u) {
          assert AckOk(s, u, v);
        }
        assert KeptOk(s, v, t, q);
      }
    }
  }

  lemma KeepStep(c: Config, s: State, i: NodeID, ev: Event, e: Effect, s': State)
    requires ElectionInv(c, s) && LogInv(s) && AckInv(s) && KeepInv(s) && BallotInv(s)
    requires ElectionInv(c, s') && AckInv(s')
    requires Transition(s, i, ev, e, s') && LeaderOrigin(s, i, e.node) && Grows(s.h, s'.h) && AcksGrow(s.h, s'.h)
    ensures KeepInv(s')
  {
    forall v, t, q: nat ensures KeptOk(s', v, t, q) {
      if v == i {
        ActingKept(c, s, i, ev, e, s', t, q);
      } else {
        OtherKept(s, i, e, s', v, t, q);
      }
    }
    forall v, t, q: nat, w ensures KeptAtVoteOk(s'.h, v, t, q, w) {
      KeptAtVote(c, s, i, ev, e, s', v, t, q, w);
    }
  }

  lemma KeepInit(c: Config, s: State)
    requires Init(c, s)
    ensures KeepInv(s)
  {
  }

  // ---- Leader completeness ----

  ghost function Storers(c: Config, h: History, t: Term, q: nat): set<NodeID> {
    set v | v in c.members && AckedUpTo(h, t, v) >= q
  }

  /** A quorum stored the first q entries of the leader of term t, of which the
      last is of term t: the entries are committed. */
  ghost predicate QuorumStored(c: Config, h: History, t: Term, q: nat) {
    && t in h.logs && 1 <= q <= |h.logs[t]| && h.logs[t][q - 1].term == t
    && |Storers(c, h, t, q)| >= QuorumSize(|c.members|)
  }

  ghost predicate SafetyInv(c: Config, s: State) {
    ElectionInv(c, s) && LogInv(s) && BallotInv(s) && AckInv(s) && KeepInv(s)
  }

  /** A candidate's log that is at least as up-to-date as a log with the entries
      has them too, if the leader of its last term has them. */
  lemma UpToDateHas(h: History, t: Term, q: nat, vl: seq<Entry>, cl: seq<Entry>)
    requires TermLogOk(h, t) && t in h.logs && 1 <= q <= |h.logs[t]| && h.logs[t][q - 1].term == t
    requires Ordered(vl) && Known(h, vl) && Ordered(cl) && Known(h, cl)
    requires h.logs[t][..q] <= vl && NotNewer(vl, |cl|, LastTerm(cl))
    requires LastTerm(cl) > t ==> Has1st(h, t, q, LastTerm(cl))
    ensures h.logs[t][..q] <= cl
  {
    assert vl[q - 1] == h.logs[t][..q][q - 1];
    assert OrderedAt(vl, q - 1, |vl| - 1);
    assert cl != [];
    var u := LastTerm(cl);
    assert KnownAt(h, cl, |cl| - 1) && KnownAt(h, vl, |vl| - 1);
    assert cl == cl[..|cl|] && vl == vl[..|vl|];
    if u == LastTerm(vl) {
      assert vl <= cl;
    } else {
      if |cl| < q {
        assert h.logs[t][..q][|cl| - 1] == h.logs[u][|cl| - 1];
        OrderedTerms(h.logs[t], |cl| - 1, |h.logs[t]| - 1);
        assert false;
      }
      assert h.logs[t][..q] == h.logs[u][..q] == cl[..q];
    }
  }

  /** Leader completeness, in one state: the leader of every later term has every
      committed entry. By induction over the terms in between. */
  lemma {:induction false} CommittedInLaterTerms(c: Config, s: State, t: Term, q: nat, w: Term)
    requires SafetyInv(c, s) && QuorumStored(c, s.h, t, q) && t < w && w in s.h.leaders
    ensures Has1st(s.h, t, q, w)
    decreases w
  {
    var h := s.h;
    assert QuorumOk(c, h, w) && TermLogOk(h, w) && TermLogOk(h, t);
    var v := QuorumsMeet(c.members, Voters(c, h, w), Storers(c, h, t, q));
    forall u: Term | u < w ensures KeepsAt(h, v, t, q, u) {
      if t < u && (u, v) in h.acks {
        assert AckOk(s, u, v);
        CommittedInLaterTerms(c, s, t, q, u);
      }
    }
    assert KeptAtVoteOk(h, v, t, q, w);
    assert GrantLogOk(h, w, v) && LeaderBaseOk(h, w) && GrantLogOk(h, w, h.leaders[w]);
    var vl, cl := h.grants[(w, v)].log, h.grants[(w, h.leaders[w])].log;
    if LastTerm(cl) > t {
      assert KnownAt(h, cl, |cl| - 1) && TermLogOk(h, LastTerm(cl));
      CommittedInLaterTerms(c, s, t, q, LastTerm(cl));
    }
    UpToDateHas(h, t, q, vl, cl);
  }

  // ---- Over runs ----

  ghost predicate Later(h: History, h': History) {
    Grows(h, h') && AcksGrow(h, h')
  }

  lemma SafetyStep(c: Config, s: State, i: NodeID, ev: Event, e: Effect, s': State)
    requires SafetyInv(c, s) && Transition(s, i, ev, e, s') && HeardInOrder(s, i, ev, s')
    ensures SafetyInv(c, s') && Later(s.h, s'.h) && LeaderOrigin(s, i, e.node)
  {
    ElectionStep(c, s, i, ev, e, s');
    LogStep(c, s, i, ev, e, s');
    BallotStep(c, s, i, ev, e, s');
    AckInvStep(c, s, i, ev, e, s');
    KeepStep(c, s, i, ev, e, s');
  }

  lemma SafetyInit(c: Config, s: State)
    requires Init(c, s)
    ensures SafetyInv(c, s)
  {
    ElectionInit(c, s);
    LogInit(c, s);
    BallotInit(c, s);
    AckInit(c, s);
    KeepInit(c, s);
  }

  lemma StoredLater(c: Config, s: State, s': State, t: Term, q: nat)
    requires Later(s.h, s'.h) && AckInv(s) && LogInv(s) && LogInv(s') && QuorumStored(c, s.h, t, q)
    ensures QuorumStored(c, s'.h, t, q)
  {
    assert GrowsAt(s.h, s'.h, t) && TermLogOk(s.h, t) && TermLogOk(s'.h, t);
    forall v | v in Storers(c, s.h, t, q) ensures v in Storers(c, s'.h, t, q) {
      assert AckOk(s, t, v) && AcksGrowAt(s.h, s'.h, t, v);
    }
    SubsetSize(Storers(c, s.h, t, q), Storers(c, s'.h, t, q));
  }
}
