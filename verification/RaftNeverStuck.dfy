/** Whatever happened in a run over in-order links, the cluster can go on to a state in which
    every node has applied the same log, and then answer writes and reads. */
module RaftNeverStuck {
  import opened Basics
  import opened RaftTypes
  import opened RaftNode
  import opened RaftQuorum
  import opened RaftCluster
  import opened RaftElection
  import opened RaftLogs
  import opened RaftTrace
  import opened RaftRecovery
  import opened RaftProgress
  import RaftCompleteness
  import RaftCommit
  import RaftFresh

  /** A leader with nothing left to do, which knows that all its peers have its log. */
  ghost predicate Idle(n: Node) {
    && TracksPeers(n) && n.role.writes == map[] && n.role.queue == []
    && n.log.entries != [] && LastTerm(n.log.entries) == n.term && n == Informed(n)
    && forall p :: p in n.peers ==>
         var x := n.role.progress[p];
         x.last == |n.log.entries| && x.next == |n.log.entries| + 1 && x.readSeq <= n.role.readSeq
  }

  /** Every node runs, follows node w, and has applied all of its log. */
  ghost predicate Settled(c: Config, s: State, w: NodeID) {
    && w in c.members && s.nodes.Keys == c.members && c.members <= s.up
    && (forall i :: i in c.members ==> s.nodes[i].id == i && PeersOk(c.members, s.nodes[i]))
    && s.nodes[w].role.Leader? && Idle(s.nodes[w])
    && forall p :: p in c.members && p != w ==>
         && s.nodes[p].role == Follower(Some(w), []) && s.nodes[p].term == s.nodes[w].term
         && s.nodes[p].log.entries == s.nodes[w].log.entries && s.nodes[p] == Informed(s.nodes[p])
  }

  // ---- A new leader ----

  /** A leader alone is no quorum. */
  lemma AloneIsNoQuorum(n: Node, log: seq<Entry>, lo: nat)
    requires Tracks(n, log, lo) && n.peers != [] && forall p :: p in n.peers ==> n.role.progress[p].last == lo
    ensures QuorumValue(LastIndexes(n)) != |log|
  {
    var s := LastIndexes(n);
    QuorumValueMeaning(s);
    assert AtLeast(s, |log|) == {|n.peers|} by {
      forall j | 0 <= j < |n.peers| ensures s[j] == lo { assert n.peers[j] in n.peers; }
    }
  }

  lemma WonWorks(c: Config, n: Node, net: seq<Envelope>)
    requires Total(c.machine) && PeersOk(c.members, n) && |c.members| > 1 && Sound(n)
    ensures Working(c.machine, Won(n), Won(n).log.entries, 0, None, net)
  {
    ClusterSize(c.members, n);
    AloneIsNoQuorum(Won(n), Won(n).log.entries, 0);
  }

  lemma CrownedWaits(c: Config, s: State, w: NodeID, n: Node, e: nat)
    requires Crowned(c, s, w, n, e)
    requires forall i :: i in c.members ==> s.nodes[i].id == i && PeersOk(c.members, s.nodes[i])
    ensures AllWait(c, s, w, 0)
  {
    forall j | 0 <= j < |n.peers|
      ensures Paired(c, s, w, n.peers[j]) && n.peers[j] in s.nodes[w].role.progress
              && s.nodes[w].role.progress[n.peers[j]].last == 0
    {
      assert n.peers[j] in Elements(n.peers);
      assert w in Elements(s.nodes[n.peers[j]].peers);
    }
  }

  lemma CrownedReplicates(c: Config, s: State, w: NodeID, n: Node, e: nat)
    requires Total(c.machine) && |c.members| > 1 && Crowned(c, s, w, n, e)
    ensures Replicating(c, s, s, w, e, 0, None, 0)
  {
    WonWorks(c, n, s.net);
    forall j: nat | 0 <= j ensures TodoAt(s, s, w, e, j) {
      assert AppendAt(s, n, e, j);
      if j < |n.peers| {
        assert n.peers[j] in Elements(n.peers);
        assert s.nodes[w].log.entries[|n.log.entries|..] == [Noop(n)];
      }
    }
  }

  /** Nobody has committed the new leader's first entry. */
  lemma NoopUncommitted(c: Config, t: Trace, w: NodeID, n: Node, e: nat, p: NodeID)
    requires Live(c, t) && Crowned(c, Now(t), w, n, e) && p in c.members && p != w
    ensures Now(t).nodes[p].log.commitIndex < |Now(t).nodes[w].log.entries|
  {
    RaftCommit.CommitRun(c, t.ss, t.acts, |t.ss| - 1);
    RaftFresh.BehindRun(c, t.ss, t.acts, |t.ss| - 1);
    assert RaftFresh.NodeBehind(Now(t), p);
    NoopIsNew(c, Now(t), w, n, p);
  }

  lemma NoopIsNew(c: Config, s: State, w: NodeID, n: Node, p: NodeID)
    requires RaftCompleteness.SafetyInv(c, s) && RaftCommit.CommitInv(c, s) && RaftFresh.NodeBehind(s, p)
    requires w in s.nodes && p in s.nodes && Sound(n) && s.nodes[w] == Won(n) && s.nodes[p].term == n.term
    ensures s.nodes[p].log.commitIndex < |s.nodes[w].log.entries|
  {
    assert RaftCommit.NodeCommitOk(c, s, p) && NodeLogOk(s, p) && NodeLogOk(s, w) && LeaderOk(s, w);
    RaftCommit.CommitTermBound(c, s, p);
    var log := s.nodes[p].log;
    if log.commitIndex > 0 && log.commitTerm < n.term {
      RaftCommit.LeaderHasCommitted(c, s, log.entries[..log.commitIndex], log.commitTerm, n.term);
    }
  }

  // ---- Everybody has the log ----

  /** What is left of a node that has caught up. */
  lemma PeerDone(c: Config, s: State, s0: State, w: NodeID, b: nat, lo: nat, want: Option<Want>, p: NodeID)
    requires Total(c.machine) && AllWait(c, s0, w, lo) && Replicating(c, s, s0, w, b, lo, want, |s0.nodes[w].peers|)
    requires p in c.members && p != w && s0.nodes[w].id == w
    ensures s0.nodes[p].role.Follower? && s.nodes[p] == Stored(s0.nodes[p], w, s0.nodes[w].log.entries)
    ensures Paired(c, s0, w, p) && p in s.nodes[w].role.progress && p in s0.nodes[w].role.progress
    ensures var x, len := s.nodes[w].role.progress[p], |s0.nodes[w].log.entries|;
            x == Progress(len + 1, len, s0.nodes[w].role.progress[p].readSeq)
  {
    assert p in Elements(s0.nodes[w].peers);
    var j :| 0 <= j < |s0.nodes[w].peers| && s0.nodes[w].peers[j] == p;
    assert DoneAt(s, s0, w, j);
  }

  lemma LeaderDone(c: Config, s: State, s0: State, w: NodeID, b: nat, lo: nat, want: Option<Want>)
    requires Total(c.machine) && AllWait(c, s0, w, lo) && Replicating(c, s, s0, w, b, lo, want, |s0.nodes[w].peers|)
    requires s0.nodes[w].id == w
    ensures s.nodes[w].log.entries == s0.nodes[w].log.entries && s.nodes[w] == Informed(s.nodes[w])
    ensures s.nodes[w].role.writes == map[] && s.nodes[w].log.entries != []
    ensures LastTerm(s.nodes[w].log.entries) == s.nodes[w].term
    ensures want.Some? ==>
              && want.value.since <= |s.net|
              && AnswerOf(c.machine, w, s.nodes[w].term, want.value.write, s.nodes[w].log.entries)
                 in s.net[want.value.since..]
  {
    forall p | p in s.nodes[w].peers
      ensures p in s.nodes[w].role.progress && s.nodes[w].role.progress[p].last == |s.nodes[w].log.entries|
    {
      assert p in Elements(s0.nodes[w].peers);
      PeerDone(c, s, s0, w, b, lo, want, p);
    }
    AllStored(c.machine, s.nodes[w], s0.nodes[w].log.entries, lo, want, s.net);
  }

  /** Nobody had committed the last entry of the leader's log. */
  ghost predicate LastUncommitted(c: Config, s0: State, w: NodeID) {
    && w in s0.nodes && s0.nodes.Keys == c.members
    && forall p :: p in c.members && p != w ==> s0.nodes[p].log.commitIndex < |s0.nodes[w].log.entries|
  }

  lemma NowComplete(c: Config, t: Trace, s0: State, w: NodeID, b: nat, lo: nat, want: Option<Want>)
    requires Live(c, t) && Total(c.machine) && AllWait(c, s0, w, lo) && LastUncommitted(c, s0, w)
    requires Replicating(c, Now(t), s0, w, b, lo, want, |s0.nodes[w].peers|)
    requires c.members <= s0.up && s0.nodes[w].id == w
    ensures AllComplete(c, Now(t), w)
  {
    var s := Now(t);
    Knows(c, t);
    LeaderDone(c, s, s0, w, b, lo, want);
    forall j | 0 <= j < |s.nodes[w].peers|
      ensures var p := s.nodes[w].peers[j];
              p in c.members && p != w && s.nodes[p].id == p && Complete(s.nodes[p], s.nodes[w])
    {
      var p := s.nodes[w].peers[j];
      assert p in Elements(s.nodes[w].peers);
      PeerDone(c, s, s0, w, b, lo, want, p);
      IsSound(c, t, p);
    }
  }

  /** A leader that is idle but for what its peers have yet to hear. */
  lemma NowIdle(c: Config, s: State, s0: State, w: NodeID, b: nat, lo: nat, want: Option<Want>)
    requires Total(c.machine) && AllWait(c, s0, w, lo) && Replicating(c, s, s0, w, b, lo, want, |s0.nodes[w].peers|)
    requires s0.nodes[w].id == w && s0.nodes[w].role.queue == []
    requires forall p :: p in s0.nodes[w].peers ==>
               p in s0.nodes[w].role.progress && s0.nodes[w].role.progress[p].readSeq <= s0.nodes[w].role.readSeq
    ensures Idle(s.nodes[w])
  {
    LeaderDone(c, s, s0, w, b, lo, want);
    forall p | p in s.nodes[w].peers
      ensures var x, len := s.nodes[w].role.progress[p], |s.nodes[w].log.entries|;
              x.last == len && x.next == len + 1 && x.readSeq <= s.nodes[w].role.readSeq
    {
      assert p in Elements(s0.nodes[w].peers);
      PeerDone(c, s, s0, w, b, lo, want, p);
    }
  }

  /** All but settled: followers have yet to hear of the last commit. */
  ghost predicate Nearly(c: Config, s: State, w: NodeID) {
    && AllComplete(c, s, w) && Idle(s.nodes[w])
    && forall p :: p in c.members && p != w ==> s.nodes[p].role == Follower(Some(w), [])
  }

  lemma AnnouncedSettles(c: Config, s': State, s: State, w: NodeID, b: nat)
    requires Nearly(c, s, w) && Announcing(c, s', s, w, b, |s.nodes[w].peers|)
    requires forall i :: i in c.members ==> s'.nodes[i].id == i && PeersOk(c.members, s'.nodes[i])
    ensures Settled(c, s', w)
  {
    forall p | p in c.members && p != w
      ensures s'.nodes[p].role == Follower(Some(w), []) && s'.nodes[p].term == s'.nodes[w].term
      ensures s'.nodes[p].log.entries == s'.nodes[w].log.entries && s'.nodes[p] == Informed(s'.nodes[p])
    {
      assert p in Elements(s.nodes[w].peers);
      var j :| 0 <= j < |s.nodes[w].peers| && s.nodes[w].peers[j] == p;
      assert ToldAt(s', s, w, j) && Complete(s.nodes[p], s.nodes[w]);
    }
  }

  lemma Settles(c: Config, t: Trace, w: NodeID) returns (t': Trace)
    requires Live(c, t) && Total(c.machine) && Nearly(c, Now(t), w)
    ensures Live(c, t') && Extends(t, t') && Settled(c, Now(t'), w)
    ensures Now(t').nodes[w] == Now(t).nodes[w] && Now(t).net <= Now(t').net
  {
    t' := Announce(c, t, w);
    Knows(c, t');
    AnnouncedSettles(c, Now(t'), Now(t), w, |Now(t).net|);
  }

  lemma CrownedNearly(c: Config, t: Trace, s0: State, w: NodeID, n: Node, e: nat)
    requires Live(c, t) && Total(c.machine) && Crowned(c, s0, w, n, e) && AllWait(c, s0, w, 0)
    requires LastUncommitted(c, s0, w) && Replicating(c, Now(t), s0, w, e, 0, None, |s0.nodes[w].peers|)
    ensures Nearly(c, Now(t), w)
  {
    NowComplete(c, t, s0, w, e, 0, None);
    NowIdle(c, Now(t), s0, w, e, 0, None);
    forall p | p in c.members && p != w ensures Now(t).nodes[p].role == Follower(Some(w), []) {
      PeerDone(c, Now(t), s0, w, e, 0, None, p);
    }
  }

  /** From every state of a run, a cluster of more than one node can go on to settle. */
  lemma CanSettle(c: Config, t: Trace) returns (t': Trace, w: NodeID)
    requires Live(c, t) && Total(c.machine) && |c.members| > 1
    ensures Live(c, t') && Extends(t, t') && Settled(c, Now(t'), w)
  {
    var t1, n, e;
    t1, w, n, e := CanElect(c, t);
    var s0 := Now(t1);
    Knows(c, t1);
    CrownedWaits(c, s0, w, n, e);
    CrownedReplicates(c, s0, w, n, e);
    forall p | p in c.members && p != w ensures s0.nodes[p].log.commitIndex < |s0.nodes[w].log.entries| {
      NoopUncommitted(c, t1, w, n, e, p);
    }
    var t2 := ReplicateAll(c, t1, s0, w, e, 0, None, 0);
    CrownedNearly(c, t2, s0, w, n, e);
    t' := Settles(c, t2, w);
  }

  // ---- A write ----

  /** A leader that has proposed a write. */
  function Proposed(n: Node, from: NodeID, id: RequestID, command: Command): Node
    requires n.role.Leader?
  {
    var log := n.log.entries + [Entry(|n.log.entries| + 1, n.term, Some(command))];
    n.(log := n.log.(entries := log), role := n.role.(writes := map[|log| := Write(from, id)]))
  }

  lemma Proposes(m: Machine, n: Node, from: NodeID, id: RequestID, command: Command) returns (e: Effect)
    requires Idle(n) && n.peers != []
    ensures e == LeaderRequest(m, n, from, id, WriteRequest(command)) && e.ok
    ensures e.node == Proposed(n, from, id, command) && |e.out| == |n.peers|
    ensures forall j :: 0 <= j < |n.peers| ==>
              CanSend(e.node, n.peers[j]) && e.out[j] == SendLog(e.node, n.peers[j])
  {
    e := LeaderRequest(m, n, from, id, WriteRequest(command));
    var n' := Propose(n, Some(command)).node;
    forall p | p in n.peers ensures CanSend(n', p) { }
    assert e.node.role.writes == map[|e.node.log.entries| := Write(from, id)];
  }

  /** The state in which the leader has just proposed a write of a client at some node. */
  ghost predicate Proposal(c: Config, s: State, s1: State, w: NodeID, client: NodeID, id: RequestID, command: Command,
                           b: nat) {
    && Settled(c, s, w) && client in c.members && s1.nodes.Keys == c.members && s1.up == s.up && s.net <= s1.net
    && s1.nodes[w] == Proposed(s.nodes[w], client, id, command)
    && b + |s1.nodes[w].peers| == |s1.net|
    && (forall p :: p in c.members && p != w ==>
          s1.nodes[p] == s.nodes[p].(role := Follower(Some(w), if p == client then [id] else [])))
    && (forall j :: ProposedAt(s1, w, b, j))
  }

  /** The Append for the j-th peer is on the way. */
  ghost predicate ProposedAt(s1: State, w: NodeID, b: nat, j: nat)
    requires w in s1.nodes
  {
    j < |s1.nodes[w].peers| ==>
      var p := s1.nodes[w].peers[j];
      Ready(s1, b + j) && CanSend(s1.nodes[w], p) && s1.net[b + j] == SendLog(s1.nodes[w], p)
  }

  lemma ProposalState(c: Config, s: State, s1: State, s2: State, w: NodeID, client: NodeID, id: RequestID,
                      command: Command, e: Effect)
    requires Settled(c, s, w) && client in c.members && s1.nodes.Keys == c.members && s1.up == s.up && s.net <= s1.net
    requires s1.nodes[w] == s.nodes[w]
    requires forall p :: p in c.members && p != w ==>
               s1.nodes[p] == s.nodes[p].(role := Follower(Some(w), if p == client then [id] else []))
    requires Became(s1, s2, w, e) && e.node == Proposed(s.nodes[w], client, id, command)
    requires |e.out| == |e.node.peers|
    requires forall j :: 0 <= j < |e.node.peers| ==>
               CanSend(e.node, e.node.peers[j]) && e.out[j] == SendLog(e.node, e.node.peers[j])
    ensures Proposal(c, s, s2, w, client, id, command, |s1.net|)
  {
    var b := |s1.net|;
    forall j: nat ensures ProposedAt(s2, w, b, j) {
      if j < |e.out| {
        assert s2.net[b + j] == e.out[j];
      }
    }
  }

  function Forward(client: NodeID, w: NodeID, term: Term, id: RequestID, request: Request): Envelope {
    Envelope(client, w, term, ClientRequest(id, request))
  }

  lemma Forwards(m: Machine, n: Node, w: NodeID, id: RequestID, request: Request)
    requires n.role == Follower(Some(w), [])
    ensures Handle(m, n, Receive(Forward(n.id, n.id, n.term, id, request)))
            == Effect(n.(role := Follower(Some(w), [id])), [Forward(n.id, w, n.term, id, request)], true)
  {
    assert [] + [id] == [id];
  }

  lemma Takes(m: Machine, n: Node, from: NodeID, id: RequestID, request: Request)
    requires n.role.Leader? && (from == n.id || from in n.peers)
    ensures Handle(m, n, Receive(Forward(from, n.id, n.term, id, request))) == LeaderRequest(m, n, from, id, request)
  {
  }

  /** A follower has forwarded a request of its client. */
  ghost predicate Forwarding(c: Config, s: State, s1: State, w: NodeID, client: NodeID, id: RequestID,
                             request: Request) {
    && w in c.members && s.nodes.Keys == s1.nodes.Keys == c.members && s1.up == s.up && s.net <= s1.net
    && s1.nodes[w] == s.nodes[w] && client in s.nodes[w].peers && Ready(s1, |s.net|)
    && s1.net[|s.net|] == Forward(client, w, s.nodes[w].term, id, request)
    && forall p :: p in c.members && p != w ==>
         s1.nodes[p] == s.nodes[p].(role := Follower(Some(w), if p == client then [id] else []))
  }

  lemma ForwardingState(c: Config, s: State, s1: State, w: NodeID, client: NodeID, id: RequestID, request: Request)
    requires Settled(c, s, w) && client in c.members && client != w
    requires var n := s.nodes[client];
             Became(s, s1, client,
                    Effect(n.(role := Follower(Some(w), [id])), [Forward(client, w, n.term, id, request)], true))
    ensures Forwarding(c, s, s1, w, client, id, request)
  {
    assert s1.net[|s.net|] == Forward(client, w, s.nodes[w].term, id, request);
    assert client in Elements(s.nodes[w].peers);
  }

  /** A follower's client submits a request, and it is forwarded. */
  lemma Submits(c: Config, t: Trace, w: NodeID, client: NodeID, id: RequestID, request: Request) returns (t': Trace)
    requires Live(c, t) && Settled(c, Now(t), w) && client in c.members && client != w
    ensures Live(c, t') && Extends(t, t') && Forwarding(c, Now(t), Now(t'), w, client, id, request)
  {
    var n := Now(t).nodes[client];
    Forwards(c.machine, n, w, id, request);
    t' := Acts(c, t, Submit(client, id, request),
               Effect(n.(role := Follower(Some(w), [id])), [Forward(client, w, n.term, id, request)], true));
    ForwardingState(c, Now(t), Now(t'), w, client, id, request);
  }

  lemma TakesOwnWrite(c: Config, t: Trace, w: NodeID, id: RequestID, command: Command) returns (t': Trace)
    requires Live(c, t) && Settled(c, Now(t), w) && |c.members| > 1
    ensures Live(c, t') && Extends(t, t') && Proposal(c, Now(t), Now(t'), w, w, id, command, |Now(t).net|)
  {
    var n := Now(t).nodes[w];
    ClusterSize(c.members, n);
    var e := Proposes(c.machine, n, w, id, command);
    Takes(c.machine, n, w, id, WriteRequest(command));
    t' := Acts(c, t, Submit(w, id, WriteRequest(command)), e);
    ProposalState(c, Now(t), Now(t), Now(t'), w, w, id, command, e);
  }

  /** The leader gets a request that was forwarded. */
  lemma GetsForwarded(c: Config, t: Trace, s: State, w: NodeID, client: NodeID, id: RequestID, command: Command,
                      k: nat) returns (t': Trace, e: Effect)
    requires Live(c, t) && w in c.members && client != w && w in Now(t).nodes && w in Now(t).up && Ready(Now(t), k)
    requires var n := Now(t).nodes[w];
             && n.id == w && Idle(n) && client in n.peers
             && Now(t).net[k] == Forward(client, w, n.term, id, WriteRequest(command))
    ensures Live(c, t') && Extends(t, t') && Became(Now(t), Now(t'), w, e)
    ensures var n := Now(t).nodes[w];
            && e.node == Proposed(n, client, id, command) && |e.out| == |n.peers|
            && forall j :: 0 <= j < |n.peers| ==>
                 CanSend(e.node, n.peers[j]) && e.out[j] == SendLog(e.node, n.peers[j])
  {
    var n := Now(t).nodes[w];
    e := Proposes(c.machine, n, client, id, command);
    Takes(c.machine, n, client, id, WriteRequest(command));
    t' := Gets(c, t, k, e);
  }

  lemma TakesForwardedWrite(c: Config, t: Trace, w: NodeID, client: NodeID, id: RequestID, command: Command)
    returns (t': Trace, b: nat)
    requires Live(c, t) && Settled(c, Now(t), w) && |c.members| > 1 && client in c.members && client != w
    ensures Live(c, t') && Extends(t, t') && Proposal(c, Now(t), Now(t'), w, client, id, command, b)
  {
    var s := Now(t);
    var t1 := Submits(c, t, w, client, id, WriteRequest(command));
    var s1 := Now(t1);
    var e;
    t', e := GetsForwarded(c, t1, s, w, client, id, command, |s.net|);
    b := |s1.net|;
    ProposalState(c, s, s1, Now(t'), w, client, id, command, e);
  }

  // ---- The write is replicated ----

  lemma ProposalWaits(c: Config, s: State, s1: State, w: NodeID, client: NodeID, id: RequestID, command: Command,
                     b: nat)
    requires Proposal(c, s, s1, w, client, id, command, b)
    ensures AllWait(c, s1, w, |s.nodes[w].log.entries|) && LastUncommitted(c, s1, w)
  {
    var peers := s1.nodes[w].peers;
    forall j | 0 <= j < |peers|
      ensures Paired(c, s1, w, peers[j]) && peers[j] in s1.nodes[w].role.progress
              && s1.nodes[w].role.progress[peers[j]].last == |s.nodes[w].log.entries|
    {
      assert peers[j] in Elements(peers);
      assert w in Elements(s1.nodes[peers[j]].peers);
    }
  }

  lemma ProposalWorks(c: Config, s: State, s1: State, w: NodeID, client: NodeID, id: RequestID, command: Command,
                     b: nat)
    requires Total(c.machine) && Proposal(c, s, s1, w, client, id, command, b) && |c.members| > 1
    ensures var n, want := s1.nodes[w], Some(Want(Write(client, id), |s1.net|));
            Working(c.machine, n, n.log.entries, |s.nodes[w].log.entries|, want, s1.net)
  {
    var n := s1.nodes[w];
    ClusterSize(c.members, n);
    AloneIsNoQuorum(n, n.log.entries, |s.nodes[w].log.entries|);
  }

  lemma ProposalTodo(c: Config, s: State, s1: State, w: NodeID, client: NodeID, id: RequestID, command: Command,
                     b: nat, j: nat)
    requires Proposal(c, s, s1, w, client, id, command, b)
    ensures TodoAt(s1, s1, w, b, j)
  {
    assert ProposedAt(s1, w, b, j);
    if j < |s1.nodes[w].peers| {
      assert s1.nodes[w].peers[j] in Elements(s1.nodes[w].peers);
    }
  }

  lemma ProposalReplicates(c: Config, s: State, s1: State, w: NodeID, client: NodeID, id: RequestID, command: Command,
                           b: nat)
    requires Total(c.machine) && Proposal(c, s, s1, w, client, id, command, b) && |c.members| > 1
    ensures Replicating(c, s1, s1, w, b, |s.nodes[w].log.entries|, Some(Want(Write(client, id), |s1.net|)), 0)
  {
    ProposalWorks(c, s, s1, w, client, id, command, b);
    forall j: nat | 0 <= j ensures TodoAt(s1, s1, w, b, j) {
      ProposalTodo(c, s, s1, w, client, id, command, b, j);
    }
  }

  /** Every peer has what comes before what it is sent. */
  ghost predicate AllHaveBase(s0: State, w: NodeID) {
    && w in s0.nodes && s0.nodes[w].role.Leader?
    && forall j :: 0 <= j < |s0.nodes[w].peers| ==>
         && s0.nodes[w].peers[j] in s0.nodes && CanSend(s0.nodes[w], s0.nodes[w].peers[j])
         && HasBase(s0.nodes[s0.nodes[w].peers[j]], SendLog(s0.nodes[w], s0.nodes[w].peers[j]).message)
  }

  lemma ProposalHasBase(c: Config, s: State, s1: State, w: NodeID, client: NodeID, id: RequestID, command: Command,
                     b: nat)
    requires Proposal(c, s, s1, w, client, id, command, b)
    ensures AllHaveBase(s1, w)
  {
    var peers := s1.nodes[w].peers;
    forall j | 0 <= j < |peers|
      ensures peers[j] in s1.nodes && CanSend(s1.nodes[w], peers[j])
              && HasBase(s1.nodes[peers[j]], SendLog(s1.nodes[w], peers[j]).message)
    {
      assert peers[j] in Elements(peers) && ProposedAt(s1, w, b, j);
    }
  }

  /** The leader's links have not delivered anything sent since. */
  ghost predicate LinksWithin(s: State, w: NodeID, since: nat) {
    forall y :: Cursor(s, w, y) <= since
  }

  lemma LinksAfter(c: Config, t: Trace, t': Trace, w: NodeID, k: nat, since: nat)
    requires Live(c, t) && Live(c, t') && Extends(t, t') && t'.acts == t.acts + [Deliver(k)] && k < |Now(t).net|
    requires LinksWithin(Now(t), w, since) && (Now(t).net[k].from == w ==> k < since)
    ensures LinksWithin(Now(t'), w, since)
  {
    CursorsAfter(c, t, t', k);
  }

  lemma QuickOne(c: Config, t: Trace, s0: State, w: NodeID, b: nat, lo: nat, want: Option<Want>, i: nat, since: nat)
    returns (t': Trace)
    requires Live(c, t) && Total(c.machine) && AllWait(c, s0, w, lo) && AllHaveBase(s0, w) && i < |s0.nodes[w].peers|
    requires Replicating(c, Now(t), s0, w, b, lo, want, i)
    requires LinksWithin(Now(t), w, since) && b + |s0.nodes[w].peers| <= since
    ensures Live(c, t') && Extends(t, t') && Replicating(c, Now(t'), s0, w, b, lo, want, i + 1)
    ensures LinksWithin(Now(t'), w, since)
  {
    var p := s0.nodes[w].peers[i];
    Knows(c, t);
    assert TodoAt(Now(t), s0, w, b, i) && Paired(c, s0, w, p);
    assert SendLog(Now(t).nodes[w], p) == SendLog(s0.nodes[w], p);
    t' := Accepted(c, t, w, p, b + i, s0.nodes[w].log.entries, lo, want);
    ReplicatedOne(c, Now(t), Now(t'), s0, w, b, lo, want, i);
  }

  lemma {:induction false} QuickAll(c: Config, t: Trace, s0: State, w: NodeID, b: nat, lo: nat, want: Option<Want>,
                                    i: nat, since: nat) returns (t': Trace)
    requires Live(c, t) && Total(c.machine) && AllWait(c, s0, w, lo) && AllHaveBase(s0, w) && i <= |s0.nodes[w].peers|
    requires Replicating(c, Now(t), s0, w, b, lo, want, i)
    requires LinksWithin(Now(t), w, since) && b + |s0.nodes[w].peers| <= since
    ensures Live(c, t') && Extends(t, t') && Replicating(c, Now(t'), s0, w, b, lo, want, |s0.nodes[w].peers|)
    ensures LinksWithin(Now(t'), w, since)
    decreases |s0.nodes[w].peers| - i
  {
    if i == |s0.nodes[w].peers| {
      t' := t;
    } else {
      var t1 := QuickOne(c, t, s0, w, b, lo, want, i, since);
      t' := QuickAll(c, t1, s0, w, b, lo, want, i + 1, since);
    }
  }

  /** The write is stored by all, committed and answered by the leader. */
  ghost predicate Answered(c: Config, s: State, s': State, w: NodeID, client: NodeID, id: RequestID, command: Command,
                           k: nat)
    requires Total(c.machine)
  {
    && Settled(c, s, w) && AllComplete(c, s', w) && Idle(s'.nodes[w]) && s.net <= s'.net
    && s'.nodes[w].term == s.nodes[w].term && s'.nodes[w].peers == s.nodes[w].peers
    && s'.nodes[w].log.entries
       == s.nodes[w].log.entries + [Entry(|s.nodes[w].log.entries| + 1, s.nodes[w].term, Some(command))]
    && (forall p :: p in c.members && p != w ==>
          s'.nodes[p].role == Follower(Some(w), if p == client then [id] else []))
    && |s.net| <= k < |s'.net| && Cursor(s', w, client) <= k
    && s'.net[k] == AnswerOf(c.machine, w, s'.nodes[w].term, Write(client, id), s'.nodes[w].log.entries)
  }

  lemma AnsweredState(c: Config, t: Trace, s: State, s1: State, w: NodeID, client: NodeID, id: RequestID,
                      command: Command, b: nat, lo: nat) returns (k: nat)
    requires Live(c, t) && Total(c.machine) && Proposal(c, s, s1, w, client, id, command, b)
    requires AllWait(c, s1, w, lo) && LastUncommitted(c, s1, w) && LinksWithin(Now(t), w, |s1.net|)
    requires Replicating(c, Now(t), s1, w, b, lo, Some(Want(Write(client, id), |s1.net|)), |s1.nodes[w].peers|)
    ensures Answered(c, s, Now(t), w, client, id, command, k)
  {
    var want := Some(Want(Write(client, id), |s1.net|));
    var s' := Now(t);
    NowComplete(c, t, s1, w, b, lo, want);
    NowIdle(c, s', s1, w, b, lo, want);
    LeaderDone(c, s', s1, w, b, lo, want);
    forall p | p in c.members && p != w
      ensures s'.nodes[p].role == Follower(Some(w), if p == client then [id] else [])
    {
      PeerDone(c, s', s1, w, b, lo, want, p);
    }
    var a := AnswerOf(c.machine, w, s'.nodes[w].term, Write(client, id), s'.nodes[w].log.entries);
    k := Position(s'.net, |s1.net|, a);
  }

  lemma Position(net: seq<Envelope>, since: nat, o: Envelope) returns (k: nat)
    requires since <= |net| && o in net[since..]
    ensures since <= k < |net| && net[k] == o
  {
    var x :| 0 <= x < |net[since..]| && net[since..][x] == o;
    k := since + x;
  }

  lemma LinksNow(c: Config, t: Trace, w: NodeID)
    requires Live(c, t)
    ensures LinksWithin(Now(t), w, |Now(t).net|)
  {
    CursorsRun(c, t, |t.ss| - 1);
  }

  lemma ReplicatesProposal(c: Config, t: Trace, s: State, w: NodeID, client: NodeID, id: RequestID, command: Command,
                           b: nat) returns (t': Trace)
    requires Live(c, t) && Total(c.machine) && |c.members| > 1 && Proposal(c, s, Now(t), w, client, id, command, b)
    ensures Live(c, t') && Extends(t, t') && LinksWithin(Now(t'), w, |Now(t).net|)
    ensures Replicating(c, Now(t'), Now(t), w, b, |s.nodes[w].log.entries|, Some(Want(Write(client, id), |Now(t).net|)),
                        |Now(t).nodes[w].peers|)
  {
    var s1, lo, want := Now(t), |s.nodes[w].log.entries|, Some(Want(Write(client, id), |Now(t).net|));
    ProposalWaits(c, s, s1, w, client, id, command, b);
    ProposalReplicates(c, s, s1, w, client, id, command, b);
    ProposalHasBase(c, s, s1, w, client, id, command, b);
    LinksNow(c, t, w);
    t' := QuickAll(c, t, s1, w, b, lo, want, 0, |s1.net|);
  }

  lemma ProposalAnswered(c: Config, t: Trace, s: State, w: NodeID, client: NodeID, id: RequestID, command: Command,
                         b: nat) returns (t': Trace, k: nat)
    requires Live(c, t) && Total(c.machine) && |c.members| > 1 && Proposal(c, s, Now(t), w, client, id, command, b)
    ensures Live(c, t') && Extends(t, t') && Answered(c, s, Now(t'), w, client, id, command, k)
  {
    t' := ReplicatesProposal(c, t, s, w, client, id, command, b);
    ProposalWaits(c, s, Now(t), w, client, id, command, b);
    k := AnsweredState(c, t', s, Now(t), w, client, id, command, b, |s.nodes[w].log.entries|);
  }

  /** A settled cluster answers a write: the leader does. */
  lemma AnswersWrite(c: Config, t: Trace, w: NodeID, client: NodeID, id: RequestID, command: Command)
    returns (t': Trace, k: nat)
    requires Live(c, t) && Total(c.machine) && Settled(c, Now(t), w) && |c.members| > 1 && client in c.members
    ensures Live(c, t') && Extends(t, t') && Answered(c, Now(t), Now(t'), w, client, id, command, k)
  {
    var t1, b := t, |Now(t).net|;
    if client == w {
      t1 := TakesOwnWrite(c, t, w, id, command);
    } else {
      t1, b := TakesForwardedWrite(c, t, w, client, id, command);
    }
    t', k := ProposalAnswered(c, t1, Now(t), w, client, id, command, b);
  }

  // ---- The answer reaches the client ----

  lemma Relays(m: Machine, n: Node, w: NodeID, id: RequestID, response: Response)
    requires n.role == Follower(Some(w), [id]) && w in n.peers
    ensures Handle(m, n, Receive(Envelope(w, n.id, n.term, ClientResponse(id, response))))
            == Effect(n.(role := Follower(Some(w), [])),
                      [Envelope(n.id, n.id, n.term, ClientResponse(id, response))], true)
  {
    assert RemoveID([id], id) == RemoveID([], id) == [];
  }

  /** The client's node has passed the answer on. */
  ghost predicate Replied(c: Config, s: State, s': State, w: NodeID, client: NodeID, id: RequestID, command: Command)
    requires Total(c.machine)
  {
    && Settled(c, s, w) && Nearly(c, s', w) && s.net <= s'.net && s'.nodes[w].term == s.nodes[w].term
    && s'.nodes[w].log.entries
       == s.nodes[w].log.entries + [Entry(|s.nodes[w].log.entries| + 1, s.nodes[w].term, Some(command))]
    && AnswerOf(c.machine, client, s.nodes[w].term, Write(client, id), s'.nodes[w].log.entries) in s'.net[|s.net|..]
  }

  lemma RepliedState(c: Config, s: State, s1: State, s': State, w: NodeID, client: NodeID, id: RequestID,
                     command: Command, k: nat)
    requires Total(c.machine) && Answered(c, s, s1, w, client, id, command, k) && client != w && client in c.members
    requires var a := AnswerOf(c.machine, client, s.nodes[w].term, Write(client, id), s1.nodes[w].log.entries);
             Became(s1, s', client, Effect(s1.nodes[client].(role := Follower(Some(w), [])), [a], true))
    ensures Replied(c, s, s', w, client, id, command)
  {
    assert s'.net[|s.net|..][|s1.net| - |s.net|] == s'.net[|s1.net|];
    forall j | 0 <= j < |s'.nodes[w].peers|
      ensures var p := s'.nodes[w].peers[j];
              p in c.members && p != w && s'.nodes[p].id == p && Complete(s'.nodes[p], s'.nodes[w])
    {
      var p := s1.nodes[w].peers[j];
      assert Complete(s1.nodes[p], s1.nodes[w]);
    }
  }

  lemma PassesOn(c: Config, t: Trace, s: State, w: NodeID, client: NodeID, id: RequestID, command: Command, k: nat)
    returns (t': Trace)
    requires Live(c, t) && Total(c.machine) && Answered(c, s, Now(t), w, client, id, command, k) && client in c.members
    ensures Live(c, t') && Extends(t, t') && Replied(c, s, Now(t'), w, client, id, command)
  {
    var s1 := Now(t);
    if client == w {
      t' := t;
      assert s1.net[|s.net|..][k - |s.net|] == s1.net[k];
    } else {
      Knows(c, t);
      var n, o := s1.nodes[client], s1.net[k];
      assert client in Elements(s1.nodes[w].peers) && w in Elements(n.peers);
      var j :| 0 <= j < |s1.nodes[w].peers| && s1.nodes[w].peers[j] == client;
      assert Complete(n, s1.nodes[w]);
      Relays(c.machine, n, w, id, o.message.response);
      t' := Gets(c, t, k, Effect(n.(role := Follower(Some(w), [])),
                                 [Envelope(client, client, n.term, ClientResponse(id, o.message.response))], true));
      RepliedState(c, s, s1, Now(t'), w, client, id, command, k);
    }
  }

  /** One more entry, with the client's command, which its node was told the outcome of. */
  ghost predicate WroteOne(c: Config, s: State, s': State, w: NodeID, client: NodeID, id: RequestID, command: Command)
    requires Total(c.machine)
  {
    && w in s.nodes && w in s'.nodes && s.net <= s'.net && s'.nodes[w].term == s.nodes[w].term
    && s'.nodes[w].log.entries
       == s.nodes[w].log.entries + [Entry(|s.nodes[w].log.entries| + 1, s.nodes[w].term, Some(command))]
    && AnswerOf(c.machine, client, s.nodes[w].term, Write(client, id), s'.nodes[w].log.entries) in s'.net[|s.net|..]
  }

  lemma RepliedIsWritten(c: Config, s: State, s1: State, s': State, w: NodeID, client: NodeID, id: RequestID,
                         command: Command)
    requires Total(c.machine) && Replied(c, s, s1, w, client, id, command)
    requires w in s'.nodes && s'.nodes[w] == s1.nodes[w] && s1.net <= s'.net
    ensures WroteOne(c, s, s', w, client, id, command)
  {
    StillThere(s1.net, s'.net, |s.net|,
               AnswerOf(c.machine, client, s.nodes[w].term, Write(client, id), s1.nodes[w].log.entries));
  }

  /** A settled cluster can take a write at any node, answer it there, and settle again with
      one more entry, applied by all. */
  lemma CanWrite(c: Config, t: Trace, w: NodeID, client: NodeID, id: RequestID, command: Command) returns (t': Trace)
    requires Live(c, t) && Total(c.machine) && Settled(c, Now(t), w) && |c.members| > 1 && client in c.members
    ensures Live(c, t') && Extends(t, t') && Settled(c, Now(t'), w)
    ensures WroteOne(c, Now(t), Now(t'), w, client, id, command)
  {
    var t1 := RepliesWrite(c, t, w, client, id, command);
    t' := Settles(c, t1, w);
    RepliedIsWritten(c, Now(t), Now(t1), Now(t'), w, client, id, command);
  }

  lemma RepliesWrite(c: Config, t: Trace, w: NodeID, client: NodeID, id: RequestID, command: Command)
    returns (t': Trace)
    requires Live(c, t) && Total(c.machine) && Settled(c, Now(t), w) && |c.members| > 1 && client in c.members
    ensures Live(c, t') && Extends(t, t') && Replied(c, Now(t), Now(t'), w, client, id, command)
  {
    var t1, k := AnswersWrite(c, t, w, client, id, command);
    t' := PassesOn(c, t1, Now(t), w, client, id, command, k);
  }

  lemma StillThere(net: seq<Envelope>, net': seq<Envelope>, since: nat, o: Envelope)
    requires since <= |net| && net <= net' && o in net[since..]
    ensures o in net'[since..]
  {
    assert net[since..] <= net'[since..];
  }
}
