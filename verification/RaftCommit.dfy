/** State machine safety: what any node has committed or applied, at any moment of
    a run, agrees with what every other node ever has, and is never removed. */
module RaftCommit {
  import opened RaftTypes
  import opened RaftNode
  import opened RaftQuorum
  import opened RaftFacts
  import opened RaftCluster
  import opened RaftElection
  import opened RaftLogs
  import opened RaftAcks
  import opened RaftCompleteness

  /** The entries p are part of what a quorum stored for the leader of term t. */
  ghost predicate CommittedBy(c: Config, h: History, p: seq<Entry>, t: Term, q: nat) {
    QuorumStored(c, h, t, q) && |p| <= q && p <= h.logs[t]
  }

  ghost predicate Committed(c: Config, h: History, p: seq<Entry>, bound: Term) {
    p == [] || exists t: Term, q: nat :: CommittedBy(c, h, p, t, q) && t <= bound
  }

  ghost predicate NodeCommitOk(c: Config, s: State, i: NodeID) {
    i in s.nodes ==>
      var n := s.nodes[i];
      && n.log.commitIndex <= |n.log.entries|
      && n.log.commitTerm == TermAt(n.log.entries, n.log.commitIndex)
      && Committed(c, s.h, n.log.entries[..n.log.commitIndex], n.log.commitTerm)
      && |n.applied| <= n.log.commitIndex && n.applied <= n.log.entries
  }

  ghost predicate HeartbeatOk(c: Config, h: History, o: Envelope) {
    o.message.Heartbeat? ==>
      && o.term in h.logs && o.message.commitIndex <= |h.logs[o.term]|
      && o.message.commitTerm == TermAt(h.logs[o.term], o.message.commitIndex)
      && Committed(c, h, h.logs[o.term][..o.message.commitIndex], o.message.commitTerm)
  }

  ghost predicate SentHeartbeatOk(c: Config, s: State, k: nat) {
    k < |s.net| ==> HeartbeatOk(c, s.h, s.net[k])
  }

  ghost predicate CommitInv(c: Config, s: State) {
    && (forall i :: NodeCommitOk(c, s, i))
    && (forall k :: SentHeartbeatOk(c, s, k))
  }

  // ---- Committed entries ----

  lemma CommittedLater(c: Config, s: State, s': State, p: seq<Entry>, bound: Term, bound': Term)
    requires Later(s.h, s'.h) && AckInv(s) && LogInv(s) && LogInv(s')
    requires Committed(c, s.h, p, bound) && bound <= bound'
    ensures Committed(c, s'.h, p, bound')
  {
    if p != [] {
      var t: Term, q: nat :| CommittedBy(c, s.h, p, t, q) && t <= bound;
      StoredLater(c, s, s', t, q);
      assert GrowsAt(s.h, s'.h, t);
      assert CommittedBy(c, s'.h, p, t, q);
    }
  }

  lemma CommittedShorter(c: Config, h: History, p: seq<Entry>, p': seq<Entry>, bound: Term)
    requires Committed(c, h, p, bound) && p' <= p
    ensures Committed(c, h, p', bound)
  {
    if p' != [] {
      var t: Term, q: nat :| CommittedBy(c, h, p, t, q) && t <= bound;
      assert CommittedBy(c, h, p', t, q);
    }
  }

  /** The leader of a term has everything committed up to that term. */
  lemma LeaderHasCommitted(c: Config, s: State, p: seq<Entry>, bound: Term, u: Term)
    requires SafetyInv(c, s) && Committed(c, s.h, p, bound) && bound <= u && u in s.h.leaders && u in s.h.logs
    ensures p <= s.h.logs[u]
  {
    if p != [] {
      var t: Term, q: nat :| CommittedBy(c, s.h, p, t, q) && t <= bound;
      if t < u {
        CommittedInLaterTerms(c, s, t, q, u);
      }
    }
  }

  /** Of two committed prefixes one extends the other. */
  lemma CommittedChain(c: Config, s: State, p: seq<Entry>, p': seq<Entry>, bound: Term, bound': Term)
    requires SafetyInv(c, s) && Committed(c, s.h, p, bound) && Committed(c, s.h, p', bound')
    ensures p <= p' || p' <= p
  {
    if p != [] && p' != [] {
      var t: Term, q: nat :| CommittedBy(c, s.h, p, t, q) && t <= bound;
      var t': Term, q': nat :| CommittedBy(c, s.h, p', t', q') && t' <= bound';
      var u := if t <= t' then t' else t;
      assert TermLogOk(s.h, u);
      assert Committed(c, s.h, p, t) && Committed(c, s.h, p', t');
      LeaderHasCommitted(c, s, p, t, u);
      LeaderHasCommitted(c, s, p', t', u);
    }
  }

  // ---- Splicing never touches committed entries ----

  lemma CommitTermBound(c: Config, s: State, i: NodeID)
    requires i in s.nodes && NodeCommitOk(c, s, i) && NodeLogOk(s, i)
    ensures s.nodes[i].log.commitTerm <= s.nodes[i].term
  {
    var log := s.nodes[i].log;
    if log.commitIndex > 0 {
      OrderedTerms(log.entries, log.commitIndex - 1, |log.entries| - 1);
    }
  }

  /** An accepted Append ends no earlier than the commit position. */
  lemma EndsAfterCommit(c: Config, s: State, i: NodeID, ev: Event, e: Effect, s': State)
    requires SafetyInv(c, s) && CommitInv(c, s) && Moves(s, i, e, s') && Heard(s, i, ev) && HeardInOrder(s, i, ev, s')
    requires SendFacts(s.nodes[i], ev, e) && VoteFacts(s.nodes[i], ev, e.node) && Accepts(e.out)
    ensures s.nodes[i].log.commitIndex <= |s.nodes[i].log.entries|
    ensures s.nodes[i].log.entries[..s.nodes[i].log.commitIndex] <= e.node.log.entries
  {
    var n, u := s.nodes[i], e.node.term;
    assert NodeCommitOk(c, s, i);
    var p := n.log.entries[..n.log.commitIndex];
    AckedLog(s, i, ev, e, s');
    assert NodeCommitOk(c, s, i) && NodeLogOk(s, i) && TermLogOk(s.h, u) && AckOk(s, u, i) && SyncOk(s, i);
    CommitTermBound(c, s, i);
    LeaderHasCommitted(c, s, p, n.log.commitTerm, u);
    if p != [] && (u, i) !in s.h.acks {
      UnackedAfterCommit(c, s, i, ev, e, p, n.log.commitTerm, u);
    }
  }

  lemma UnackedAfterCommit(c: Config, s: State, i: NodeID, ev: Event, e: Effect, p: seq<Entry>, bound: Term, u: Term)
    requires SafetyInv(c, s) && i in s.nodes && Heard(s, i, ev) && SendFacts(s.nodes[i], ev, e) && Accepts(e.out)
    requires VoteFacts(s.nodes[i], ev, e.node) && u == e.node.term && u in s.h.leaders && u in s.h.logs
    requires p != [] && p <= s.nodes[i].log.entries && Committed(c, s.h, p, bound) && bound <= s.nodes[i].term
    requires (u, i) !in s.h.acks && s.h.leaders[u] != i && Carries(ev.msg)
    ensures |p| <= End(ev.msg)
  {
    var n := s.nodes[i];
    var t: Term, q: nat :| CommittedBy(c, s.h, p, t, q) && t <= bound;
    AcceptsFacts(n, ev, e);
    ReceivedOk(s, i, ev);
    LongerThanCommit(c, s, i, p, t, q, u, End(ev.msg));
  }

  lemma LongerThanCommit(c: Config, s: State, i: NodeID, p: seq<Entry>, t: Term, q: nat, u: Term, end: nat)
    requires SafetyInv(c, s) && CommittedBy(c, s.h, p, t, q) && t <= u && u in s.h.leaders && u in s.h.logs
    requires 1 <= end <= |s.h.logs[u]| && s.h.logs[u][end - 1].term == u
    requires i in s.nodes && p != [] && p <= s.nodes[i].log.entries && s.nodes[i].term <= u
    requires t <= s.nodes[i].term && (u, i) !in s.h.acks && s.h.leaders[u] != i
    ensures |p| <= end
  {
    assert TermLogOk(s.h, u) && TermLogOk(s.h, t) && NodeLogOk(s, i) && SyncOk(s, i);
    if t < u {
      CommittedInLaterTerms(c, s, t, q, u);
      EndsAfter(s.h, t, q, u, end);
    } else {
      var es := s.nodes[i].log.entries;
      OrderedTerms(es, |p| - 1, |es| - 1);
      assert s.h.logs[u][|p| - 1] == p[|p| - 1] == es[|p| - 1];
      if end < |p| {
        OrderedTerms(s.h.logs[u], end - 1, |p| - 1);
        assert false;
      }
    }
  }

  /** The committed part of a log survives every step. */
  lemma CommittedStays(c: Config, s: State, i: NodeID, ev: Event, e: Effect, s': State)
    requires SafetyInv(c, s) && CommitInv(c, s) && Moves(s, i, e, s') && Heard(s, i, ev) && HeardInOrder(s, i, ev, s')
    requires SendFacts(s.nodes[i], ev, e) && VoteFacts(s.nodes[i], ev, e.node) && AckFacts(s.nodes[i], ev, e)
    ensures s.nodes[i].log.commitIndex <= |s.nodes[i].log.entries|
    ensures s.nodes[i].log.entries[..s.nodes[i].log.commitIndex] <= e.node.log.entries
  {
    assert NodeCommitOk(c, s, i);
    if Accepts(e.out) {
      EndsAfterCommit(c, s, i, ev, e, s');
    }
  }

  // ---- Each step keeps the invariants ----

  lemma FollowerCommits(c: Config, s: State, i: NodeID, ev: Event, n': Node)
    requires SafetyInv(c, s) && CommitInv(c, s) && i in s.nodes && Heard(s, i, ev)
    requires Got(ev, n'.term) && ev.msg.message.Heartbeat?
    requires n'.log.commitIndex == ev.msg.message.commitIndex && n'.log.commitTerm == ev.msg.message.commitTerm
    requires n'.log.entries == s.nodes[i].log.entries && Has(n'.log.entries, n'.log.commitIndex, n'.log.commitTerm)
    ensures n'.log.commitIndex <= |n'.log.entries|
    ensures n'.log.commitTerm == TermAt(n'.log.entries, n'.log.commitIndex)
    ensures Committed(c, s.h, n'.log.entries[..n'.log.commitIndex], n'.log.commitTerm)
  {
    var k: nat :| k < |s.net| && s.net[k] == ev.msg;
    assert SentHeartbeatOk(c, s, k) && TermLogOk(s.h, n'.term) && NodeLogOk(s, i);
    var ci := n'.log.commitIndex;
    if ci > 0 {
      SameTermSamePrefix(s.h, n'.log.entries, s.h.logs[n'.term], ci - 1);
    }
  }

  /** A peer whose progress reached q has stored that much of the leader's log. */
  lemma PeerStores(c: Config, s: State, i: NodeID, v: NodeID, q: nat)
    requires MemberOk(c, s, i) && AckInv(s) && i in s.nodes && s.nodes[i].role.Leader? && 1 <= q
    requires v in s.nodes[i].peers && v in s.nodes[i].role.progress && q <= s.nodes[i].role.progress[v].last
    ensures v in Storers(c, s.h, s.nodes[i].term, q)
  {
    assert v in Elements(s.nodes[i].peers) && ProgressOk(s, i, v) && AckOk(s, s.nodes[i].term, v);
  }

  lemma LeaderCommits(c: Config, s: State, i: NodeID)
    requires ElectionInv(c, s) && LogInv(s) && AckInv(s) && i in s.nodes
    requires var n := s.nodes[i];
             && TracksPeers(n) && 1 <= n.log.commitIndex <= |n.log.entries|
             && Majority(n, Storing(n, n.log.commitIndex))
             && n.log.entries[n.log.commitIndex - 1].term == n.term
    ensures Committed(c, s.h, s.nodes[i].log.entries[..s.nodes[i].log.commitIndex], s.nodes[i].term)
  {
    var n := s.nodes[i];
    var t, q := n.term, n.log.commitIndex;
    assert MemberOk(c, s, i) && LeaderOk(s, i) && NodeLogOk(s, i);
    var picks := Storing(n, q);
    var peers := set j | j in picks :: n.peers[j];
    PickedSize(n.peers, picks);
    ClusterSize(c.members, n);
    forall v | v in peers + {i} ensures v in Storers(c, s.h, t, q) {
      if v != i {
        PeerStores(c, s, i, v, q);
      }
    }
    assert i !in peers by {
      assert i !in Elements(n.peers);
    }
    SubsetSize(peers + {i}, Storers(c, s.h, t, q));
    assert CommittedBy(c, s.h, n.log.entries[..q], t, q);
  }

  lemma ActingCommitStep(c: Config, s: State, i: NodeID, ev: Event, e: Effect, s': State)
    requires SafetyInv(c, s) && CommitInv(c, s) && SafetyInv(c, s') && Later(s.h, s'.h)
    requires Moves(s, i, e, s') && Heard(s, i, ev) && VoteFacts(s.nodes[i], ev, e.node)
             && CommitFacts(s.nodes[i], ev, e.node)
    requires s.nodes[i].log.commitIndex <= |s.nodes[i].log.entries|
    requires s.nodes[i].log.entries[..s.nodes[i].log.commitIndex] <= e.node.log.entries
    ensures e.node.log.commitIndex <= |e.node.log.entries|
    ensures e.node.log.commitTerm == TermAt(e.node.log.entries, e.node.log.commitIndex)
    ensures Committed(c, s'.h, e.node.log.entries[..e.node.log.commitIndex], e.node.log.commitTerm)
    ensures s.nodes[i].log.commitIndex <= e.node.log.commitIndex
  {
    var n, n' := s.nodes[i], e.node;
    assert NodeCommitOk(c, s, i);
    if n'.log.commitIndex == n.log.commitIndex && n'.log.commitTerm == n.log.commitTerm {
      assert n'.log.entries[..n.log.commitIndex] == n.log.entries[..n.log.commitIndex];
      CommittedLater(c, s, s', n.log.entries[..n.log.commitIndex], n.log.commitTerm, n.log.commitTerm);
    } else if StillLeader(n, n') && TracksPeers(n') && Majority(n', Storing(n', n'.log.commitIndex))
              && n.log.commitIndex < n'.log.commitIndex <= |n'.log.entries|
              && n'.log.entries[n'.log.commitIndex - 1].term == n'.term {
      assert s'.nodes[i] == n';
      LeaderCommits(c, s', i);
    } else {
      FollowerCommits(c, s, i, ev, n');
      CommittedLater(c, s, s', n'.log.entries[..n'.log.commitIndex], n'.log.commitTerm, n'.log.commitTerm);
    }
  }

  lemma AppliedStep(n: Node, ev: Event, n': Node)
    requires Possible(n, ev) && AppliedFacts(n, ev, n')
    requires |n.applied| <= n.log.commitIndex <= |n.log.entries| && n.applied <= n.log.entries
    requires n.log.entries[..n.log.commitIndex] <= n'.log.entries && n.log.commitIndex <= n'.log.commitIndex
    ensures |n'.applied| <= n'.log.commitIndex && n'.applied <= n'.log.entries
  {
    var kept := if ev.Restart? then n.applied[..ev.keep] else n.applied;
    assert kept <= n.applied;
    assert forall j :: 0 <= j < |kept| ==> n'.applied[j] == n.log.entries[..n.log.commitIndex][j] == n'.log.entries[j];
  }

  lemma HeartbeatStep(c: Config, s: State, i: NodeID, ev: Event, e: Effect, s': State, k: nat)
    requires SafetyInv(c, s) && CommitInv(c, s) && SafetyInv(c, s') && Later(s.h, s'.h)
    requires Moves(s, i, e, s') && SendFacts(s.nodes[i], ev, e) && NodeCommitOk(c, s', i)
    ensures SentHeartbeatOk(c, s', k)
  {
    if k < |s.net| && s.net[k].message.Heartbeat? {
      var o := s.net[k];
      assert s'.net[k] == o;
      assert SentHeartbeatOk(c, s, k) && GrowsAt(s.h, s'.h, o.term);
      CommittedLater(c, s, s', s.h.logs[o.term][..o.message.commitIndex], o.message.commitTerm, o.message.commitTerm);
      assert s'.h.logs[o.term][..o.message.commitIndex] == s.h.logs[o.term][..o.message.commitIndex];
    } else if |s.net| <= k < |s'.net| {
      assert s'.net[k] == e.out[k - |s.net|];
      assert Sends(s.nodes[i], ev, e.node, e.out[k - |s.net|]);
      assert NodeLogOk(s', i);
    }
  }

  lemma CommitStep(c: Config, s: State, i: NodeID, ev: Event, e: Effect, s': State)
    requires SafetyInv(c, s) && CommitInv(c, s) && Transition(s, i, ev, e, s') && HeardInOrder(s, i, ev, s')
    ensures SafetyInv(c, s') && CommitInv(c, s') && Later(s.h, s'.h)
    ensures forall x :: x in s.nodes ==> CommitExtends(s.nodes[x], s'.nodes[x])
  {
    SafetyStep(c, s, i, ev, e, s');
    CommittedStays(c, s, i, ev, e, s');
    ActingCommitStep(c, s, i, ev, e, s');
    assert NodeCommitOk(c, s, i);
    AppliedStep(s.nodes[i], ev, e.node);
    assert NodeCommitOk(c, s', i);
    forall x ensures NodeCommitOk(c, s', x) {
      if x != i && x in s.nodes {
        OtherCommitStep(c, s, i, e, s', x);
      }
    }
    forall k: nat ensures SentHeartbeatOk(c, s', k) { HeartbeatStep(c, s, i, ev, e, s', k); }
    forall x | x in s.nodes ensures CommitExtends(s.nodes[x], s'.nodes[x]) {
      assert NodeCommitOk(c, s, x);
    }
  }

  /** A later state of the same node: its committed entries are still there, and
      it has committed at least as much. */
  ghost predicate CommitExtends(n: Node, n': Node) {
    && n.log.commitIndex <= |n.log.entries| && n.log.commitIndex <= n'.log.commitIndex
    && n.log.entries[..n.log.commitIndex] <= n'.log.entries
  }

  lemma OtherCommitStep(c: Config, s: State, i: NodeID, e: Effect, s': State, x: NodeID)
    requires SafetyInv(c, s) && CommitInv(c, s) && SafetyInv(c, s') && Later(s.h, s'.h)
    requires Moves(s, i, e, s') && x != i && x in s.nodes
    ensures NodeCommitOk(c, s', x)
  {
    assert NodeCommitOk(c, s, x);
    var n := s.nodes[x];
    CommittedLater(c, s, s', n.log.entries[..n.log.commitIndex], n.log.commitTerm, n.log.commitTerm);
  }

  lemma CommitInit(c: Config, s: State)
    requires Init(c, s)
    ensures CommitInv(c, s)
  {
  }

  // ---- Over runs ----

  ghost predicate LaterState(s: State, s': State) {
    && Later(s.h, s'.h) && s'.nodes.Keys == s.nodes.Keys
    && forall x :: x in s.nodes ==> CommitExtends(s.nodes[x], s'.nodes[x])
  }

  lemma LaterTransitive(a: State, b: State, d: State)
    requires LaterState(a, b) && LaterState(b, d)
    ensures LaterState(a, d)
  {
    GrowsTransitive(a.h, b.h, d.h);
    forall t, v ensures AcksGrowAt(a.h, d.h, t, v) {
      assert AcksGrowAt(a.h, b.h, t, v) && AcksGrowAt(b.h, d.h, t, v);
    }
    forall x | x in a.nodes ensures CommitExtends(a.nodes[x], d.nodes[x]) {
      assert CommitExtends(a.nodes[x], b.nodes[x]) && CommitExtends(b.nodes[x], d.nodes[x]);
    }
  }

  lemma LaterSelf(c: Config, s: State)
    requires CommitInv(c, s)
    ensures LaterState(s, s)
  {
    forall x | x in s.nodes ensures CommitExtends(s.nodes[x], s.nodes[x]) {
      assert NodeCommitOk(c, s, x);
    }
  }

  lemma CommitAt(c: Config, ss: seq<State>, acts: seq<Action>, j: nat)
    requires Run(c, true, ss, acts) && j < |acts| && SafetyInv(c, ss[j]) && CommitInv(c, ss[j])
    ensures SafetyInv(c, ss[j + 1]) && CommitInv(c, ss[j + 1]) && LaterState(ss[j], ss[j + 1])
  {
    MembersKnown(c, ss[j]);
    var i, ev, e := RunStep(c, true, ss, acts, j);
    CommitStep(c, ss[j], i, ev, e, ss[j + 1]);
  }

  lemma CommitStart(c: Config, ss: seq<State>, acts: seq<Action>)
    requires Run(c, true, ss, acts)
    ensures SafetyInv(c, ss[0]) && CommitInv(c, ss[0])
  {
    SafetyInit(c, ss[0]);
    CommitInit(c, ss[0]);
  }

  lemma {:induction false} CommitRun(c: Config, ss: seq<State>, acts: seq<Action>, j: nat)
    requires Run(c, true, ss, acts) && j < |ss|
    ensures SafetyInv(c, ss[j]) && CommitInv(c, ss[j])
  {
    if j == 0 {
      CommitStart(c, ss, acts);
    } else {
      CommitRun(c, ss, acts, j - 1);
      CommitAt(c, ss, acts, j - 1);
    }
  }

  lemma LaterAt(c: Config, ss: seq<State>, acts: seq<Action>, j: nat)
    requires Run(c, true, ss, acts) && j < |acts|
    ensures LaterState(ss[j], ss[j + 1])
  {
    CommitRun(c, ss, acts, j);
    CommitAt(c, ss, acts, j);
  }

  lemma {:induction false} LaterRun(c: Config, ss: seq<State>, acts: seq<Action>, j: nat, j': nat)
    requires Run(c, true, ss, acts) && j <= j' < |ss|
    ensures LaterState(ss[j], ss[j'])
    decreases j' - j
  {
    if j == j' {
      CommitRun(c, ss, acts, j);
      LaterSelf(c, ss[j]);
    } else {
      LaterRun(c, ss, acts, j, j' - 1);
      LaterAt(c, ss, acts, j' - 1);
      LaterTransitive(ss[j], ss[j' - 1], ss[j']);
    }
  }

  /** Committed entries are forever: at every later moment of an in-order run the
      same node still has them, at the same positions, and has committed at least
      as much. */
  lemma CommittedForever(c: Config, ss: seq<State>, acts: seq<Action>, j: nat, j': nat, i: NodeID)
    requires Run(c, true, ss, acts) && j <= j' < |ss| && i in ss[j].nodes
    ensures i in ss[j'].nodes && CommitExtends(ss[j].nodes[i], ss[j'].nodes[i])
  {
    LaterRun(c, ss, acts, j, j');
  }

  /** What one node had applied at one moment is committed at every later moment. */
  lemma AppliedCommitted(c: Config, ss: seq<State>, acts: seq<Action>, j: nat, j': nat, i: NodeID)
    requires Run(c, true, ss, acts) && j <= j' < |ss| && i in ss[j].nodes
    ensures Committed(c, ss[j'].h, ss[j].nodes[i].applied, ss[j].nodes[i].log.commitTerm)
  {
    CommitRun(c, ss, acts, j);
    CommitRun(c, ss, acts, j');
    LaterRun(c, ss, acts, j, j');
    assert NodeCommitOk(c, ss[j], i);
    var n := ss[j].nodes[i];
    CommittedLater(c, ss[j], ss[j'], n.log.entries[..n.log.commitIndex], n.log.commitTerm, n.log.commitTerm);
    CommittedShorter(c, ss[j'].h, n.log.entries[..n.log.commitIndex], n.applied, n.log.commitTerm);
  }

  /** State machine safety. At any two moments of an in-order run, what two nodes
      have applied agrees: one is a prefix of the other. */
  lemma StateMachineSafety(c: Config, ss: seq<State>, acts: seq<Action>, j: nat, a: NodeID, j': nat, b: NodeID)
    requires Run(c, true, ss, acts) && j <= j' < |ss| && a in ss[j].nodes && b in ss[j'].nodes
    ensures ss[j].nodes[a].applied <= ss[j'].nodes[b].applied || ss[j'].nodes[b].applied <= ss[j].nodes[a].applied
  {
    CommitRun(c, ss, acts, j');
    AppliedCommitted(c, ss, acts, j, j', a);
    AppliedCommitted(c, ss, acts, j', j', b);
    CommittedChain(c, ss[j'], ss[j].nodes[a].applied, ss[j'].nodes[b].applied,
                   ss[j].nodes[a].log.commitTerm, ss[j'].nodes[b].log.commitTerm);
  }

  ghost predicate AppliedWithin(s: State, ids: set<NodeID>, common: seq<Entry>) {
    forall i :: i in ids && i in s.nodes ==> s.nodes[i].applied <= common
  }

  /** Extends a committed sequence to cover what some nodes applied at step j. */
  lemma {:induction false} CoverNodes(c: Config, ss: seq<State>, acts: seq<Action>, j: nat, ids: set<NodeID>,
                                      common: seq<Entry>, bound: Term)
    returns (common': seq<Entry>, bound': Term)
    requires Run(c, true, ss, acts) && j < |ss| && Committed(c, ss[|acts|].h, common, bound)
    ensures Committed(c, ss[|acts|].h, common', bound') && common <= common' && AppliedWithin(ss[j], ids, common')
    decreases |ids|
  {
    common', bound' := common, bound;
    if ids != {} {
      var i :| i in ids;
      common', bound' := CoverNodes(c, ss, acts, j, ids - {i}, common, bound);
      if i in ss[j].nodes {
        var n := ss[j].nodes[i];
        CommitRun(c, ss, acts, |acts|);
        AppliedCommitted(c, ss, acts, j, |acts|, i);
        CommittedChain(c, ss[|acts|], n.applied, common', n.log.commitTerm, bound');
        if !(n.applied <= common') {
          common', bound' := n.applied, n.log.commitTerm;
        }
      }
    }
  }

  lemma {:induction false} CoverSteps(c: Config, ss: seq<State>, acts: seq<Action>, j: nat)
    returns (common: seq<Entry>, bound: Term)
    requires Run(c, true, ss, acts) && j <= |ss|
    ensures Committed(c, ss[|acts|].h, common, bound)
    ensures forall k :: 0 <= k < j ==> AppliedWithin(ss[k], ss[k].nodes.Keys, common)
  {
    if j == 0 {
      common, bound := [], 0;
    } else {
      var shorter, b := CoverSteps(c, ss, acts, j - 1);
      common, bound := CoverNodes(c, ss, acts, j - 1, ss[j - 1].nodes.Keys, shorter, b);
      forall k | 0 <= k < j ensures AppliedWithin(ss[k], ss[k].nodes.Keys, common) {
        if k < j - 1 {
          assert AppliedWithin(ss[k], ss[k].nodes.Keys, shorter);
        }
      }
    }
  }

  /** State machine safety, for a whole in-order run at once: there is one sequence
      of which everything any node ever applied is a prefix. */
  lemma OneCommonSequence(c: Config, ss: seq<State>, acts: seq<Action>) returns (common: seq<Entry>)
    requires Run(c, true, ss, acts)
    ensures forall j, i :: 0 <= j < |ss| && i in ss[j].nodes ==> ss[j].nodes[i].applied <= common
  {
    var bound;
    common, bound := CoverSteps(c, ss, acts, |ss|);
    forall j, i | 0 <= j < |ss| && i in ss[j].nodes ensures ss[j].nodes[i].applied <= common {
      assert AppliedWithin(ss[j], ss[j].nodes.Keys, common);
    }
  }

  /** Leader completeness. What a node has committed, in the term of its last
      committed entry, is in the log of every leader of a later term, whether that
      leader is there before or after. A leader of the same term has it from the
      moment of the commit. */
  lemma LeaderCompleteness(c: Config, ss: seq<State>, acts: seq<Action>, j: nat, a: NodeID, j': nat, b: NodeID)
    requires Run(c, true, ss, acts) && j < |ss| && j' < |ss| && a in ss[j].nodes && b in ss[j'].nodes
    requires ss[j'].nodes[b].role.Leader? && ss[j].nodes[a].log.commitTerm <= ss[j'].nodes[b].term
    requires ss[j].nodes[a].log.commitTerm < ss[j'].nodes[b].term || j <= j'
    ensures var n := ss[j].nodes[a];
            n.log.commitIndex <= |n.log.entries| && n.log.entries[..n.log.commitIndex] <= ss[j'].nodes[b].log.entries
  {
    CommitRun(c, ss, acts, j);
    CommitRun(c, ss, acts, j');
    var log := ss[j].nodes[a].log;
    assert NodeCommitOk(c, ss[j], a) && NodeLogOk(ss[j'], b) && LeaderOk(ss[j'], b);
    if j <= j' {
      LaterRun(c, ss, acts, j, j');
      CommittedLater(c, ss[j], ss[j'], log.entries[..log.commitIndex], log.commitTerm, log.commitTerm);
      LeaderHasCommitted(c, ss[j'], log.entries[..log.commitIndex], log.commitTerm, ss[j'].nodes[b].term);
    } else {
      LaterRun(c, ss, acts, j', j);
      EarlierLeaderHas(c, ss[j'], ss[j], log.entries[..log.commitIndex], log.commitTerm, ss[j'].nodes[b].term);
    }
  }

  /** A leader that was there before a commit of an earlier term had it all along:
      entries of earlier terms never enter the log of a sitting leader. */
  lemma EarlierLeaderHas(c: Config, s: State, s': State, p: seq<Entry>, t: Term, u: Term)
    requires SafetyInv(c, s) && SafetyInv(c, s') && Later(s.h, s'.h) && Committed(c, s'.h, p, t)
    requires t < u && u in s.h.leaders && u in s.h.logs
    ensures p <= s.h.logs[u]
  {
    assert GrowsAt(s.h, s'.h, u) && TermLogOk(s.h, u) && TermLogOk(s'.h, u);
    LeaderHasCommitted(c, s', p, t, u);
    if p != [] {
      var t0: Term, q: nat :| CommittedBy(c, s'.h, p, t0, q) && t0 <= t;
      var l, l' := s.h.logs[u], s'.h.logs[u];
      assert TermLogOk(s'.h, t0);
      if |l| < |p| {
        OrderedTerms(l', |l| - 1, |p| - 1);
        OrderedTerms(s'.h.logs[t0], |p| - 1, |s'.h.logs[t0]| - 1);
        assert false;
      }
    }
  }

  /** Outside in-order runs a splice may cut committed entries: when everything
      it carries matches, it drops what follows without looking at the commit
      position. It spares the committed entries if and only if it carries nothing
      or reaches the commit position. */
  lemma SpliceSparesCommitted(log: seq<Entry>, commit: nat, es: seq<Entry>)
    requires commit <= |log| && Splice(log, commit, es).Some?
    requires forall x :: 0 <= x < |log| ==> log[x].index == x + 1
    ensures log[..commit] <= Splice(log, commit, es).value <==> es == [] || es[|es| - 1].index >= commit
  {
    if es != [] {
      ContiguousIndex(es, |es| - 1);
      var first := es[0].index;
      var k := Matched(log, first, es, 0);
      if k < |es| {
        ContiguousIndex(es, k);
      }
      var spliced := Splice(log, commit, es).value;
      assert spliced == log[..first - 1 + k] + es[k..];
      assert |spliced| == es[|es| - 1].index;
      if k == |es| {
        assert spliced == log[..first - 1 + k];
      }
    }
  }

  lemma {:induction false} ContiguousIndex(es: seq<Entry>, k: nat)
    requires Contiguous(es) && k < |es|
    ensures es[k].index == es[0].index + k
  {
    if k > 0 {
      ContiguousIndex(es, k - 1);
      assert ContiguousAt(es, k - 1);
    }
  }

  lemma SplicePossible(log: seq<Entry>, commit: nat, base: nat, es: seq<Entry>, leaderLog: seq<Entry>)
    requires commit <= |log| && log[..commit] <= leaderLog && Ordered(leaderLog)
    requires base <= |log| && base + |es| <= |leaderLog| && es == leaderLog[base..base + |es|]
    ensures Splice(log, commit, es).Some?
  {
    forall x | 0 <= x < |es| ensures es[x] == leaderLog[base + x] && es[x].index == base + x + 1 {
      assert OrderedAt(leaderLog, base + x, base + x);
    }
    forall x | 0 <= x < commit ensures log[x] == leaderLog[x] {
      assert log[..commit][x] == log[x];
    }
  }

  /** Splicing an Append that the base check lets through never returns an error,
      and in particular never asks to replace a committed entry. */
  lemma SpliceNeverFails(c: Config, ss: seq<State>, acts: seq<Action>, j: nat, i: NodeID, k: nat)
    requires Run(c, true, ss, acts) && j < |ss| && i in ss[j].nodes && k < |ss[j].net|
    requires ss[j].net[k].message.Append? && ss[j].nodes[i].term <= ss[j].net[k].term
    requires var a := ss[j].net[k].message;
             a.baseIndex == 0 || Has(ss[j].nodes[i].log.entries, a.baseIndex, a.baseTerm)
    ensures Splice(ss[j].nodes[i].log.entries, ss[j].nodes[i].log.commitIndex, ss[j].net[k].message.entries).Some?
  {
    var s := ss[j];
    CommitRun(c, ss, acts, j);
    var n, o := s.nodes[i], s.net[k];
    assert NodeCommitOk(c, s, i) && MessageOk(s, k) && TermLogOk(s.h, o.term);
    CommitTermBound(c, s, i);
    LeaderHasCommitted(c, s, n.log.entries[..n.log.commitIndex], n.log.commitTerm, o.term);
    SplicePossible(n.log.entries, n.log.commitIndex, o.message.baseIndex, o.message.entries, s.h.logs[o.term]);
  }
}
