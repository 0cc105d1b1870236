/** Read confirmation: when a leader executes a read, no later term had a leader
    when the read was accepted. Over every run with lost, reordered and repeated
    messages and with restarts. */
module RaftReads {
  import opened RaftTypes
  import opened RaftNode
  import opened RaftQuorum
  import opened RaftFacts
  import opened RaftCluster
  import opened RaftElection

  /** Of these terms, those after t were won without v's vote. */
  ghost predicate NoVotes(h: History, terms: set<Term>, t: Term, v: NodeID) {
    forall u :: u in terms && u > t ==> u in h.leaders && (u, v) !in h.grants
  }

  ghost predicate MarkedAt(h: History, t: Term, x: nat, r: nat) {
    1 <= r <= x ==> (t, r) in h.marks
  }

  /** The reads of term t up to number x are marked. */
  ghost predicate Marked(h: History, t: Term, x: nat) {
    forall r :: MarkedAt(h, t, x, r)
  }

  ghost predicate EchoedAt(h: History, t: Term, x: nat, v: NodeID, r: nat) {
    1 <= r <= x ==> (t, r) in h.marks && NoVotes(h, h.marks[(t, r)], t, v)
  }

  /** Node v confirmed the leader of term t up to read number x. */
  ghost predicate Echoed(h: History, t: Term, x: nat, v: NodeID) {
    forall r :: EchoedAt(h, t, x, v, r)
  }

  // ---- The invariants ----

  ghost predicate MarkOk(s: State, t: Term, r: nat) {
    (t, r) in s.h.marks ==> t in s.h.leaders && NoVotes(s.h, s.h.marks[(t, r)], t, s.h.leaders[t])
  }

  ghost predicate NewestMarkOk(s: State, i: NodeID, r: nat) {
    i in s.nodes && s.nodes[i].role.Leader? && (s.nodes[i].term, r) in s.h.marks ==> r <= s.nodes[i].role.readSeq
  }

  ghost predicate LeaderReadsOk(s: State, i: NodeID) {
    i in s.nodes && s.nodes[i].role.Leader? ==>
      && TracksPeers(s.nodes[i])
      && Marked(s.h, s.nodes[i].term, s.nodes[i].role.readSeq)
      && forall rd :: rd in s.nodes[i].role.queue ==> 1 <= rd.seqNo <= s.nodes[i].role.readSeq
  }

  ghost predicate BeatOk(s: State, k: nat) {
    k < |s.net| && s.net[k].message.Heartbeat? ==> Marked(s.h, s.net[k].term, s.net[k].message.readSeq)
  }

  ghost predicate EchoOk(s: State, k: nat) {
    k < |s.net| && s.net[k].message.HeartbeatResponse? ==>
      Echoed(s.h, s.net[k].term, s.net[k].message.readSeq, s.net[k].from)
  }

  ghost predicate ConfirmOk(s: State, i: NodeID, p: NodeID) {
    i in s.nodes && s.nodes[i].role.Leader? && p in s.nodes[i].peers && p in s.nodes[i].role.progress ==>
      Echoed(s.h, s.nodes[i].term, s.nodes[i].role.progress[p].readSeq, p)
  }

  ghost predicate ReadInv(s: State) {
    && (forall t, r :: MarkOk(s, t, r))
    && (forall i, r :: NewestMarkOk(s, i, r))
    && (forall i :: LeaderReadsOk(s, i))
    && (forall k :: BeatOk(s, k))
    && (forall k :: EchoOk(s, k))
    && (forall i, p :: ConfirmOk(s, i, p))
  }

  // ---- What the history keeps ----

  ghost predicate MarkKept(h: History, h': History, t: Term, r: nat) {
    (t, r) in h.marks ==> (t, r) in h'.marks && h'.marks[(t, r)] == h.marks[(t, r)]
  }

  ghost predicate GrantsClosed(h: History, h': History, t: Term, v: NodeID) {
    t in h.leaders ==> t in h'.leaders && ((t, v) in h'.grants ==> (t, v) in h.grants)
  }

  ghost predicate ReadKept(h: History, h': History) {
    && (forall t, r :: MarkKept(h, h', t, r))
    && (forall t, v :: GrantsClosed(h, h', t, v))
  }

  lemma ReadKeptStep(c: Config, s: State, i: NodeID, ev: Event, e: Effect, s': State)
    requires ReadInv(s) && Moves(s, i, e, s') && QueueFacts(s.nodes[i], ev, e.node)
    ensures ReadKept(s.h, s'.h)
  {
    var n, n' := s.nodes[i], e.node;
    assert LeaderReadsOk(s, i);
    if StillLeader(n, n') {
      assert NewestMarkOk(s, i, n'.role.readSeq);
    }
  }

  lemma NoVotesKept(h: History, h': History, terms: set<Term>, t: Term, v: NodeID)
    requires ReadKept(h, h') && NoVotes(h, terms, t, v)
    ensures NoVotes(h', terms, t, v)
  {
    forall u | u in terms && u > t ensures u in h'.leaders && (u, v) !in h'.grants {
      assert GrantsClosed(h, h', u, v);
    }
  }

  lemma MarkedKept(h: History, h': History, t: Term, x: nat)
    requires ReadKept(h, h') && Marked(h, t, x)
    ensures Marked(h', t, x)
  {
    forall r: nat ensures MarkedAt(h', t, x, r) {
      assert MarkedAt(h, t, x, r) && MarkKept(h, h', t, r);
    }
  }

  lemma EchoedKept(h: History, h': History, t: Term, x: nat, v: NodeID)
    requires ReadKept(h, h') && Echoed(h, t, x, v)
    ensures Echoed(h', t, x, v)
  {
    forall r: nat ensures EchoedAt(h', t, x, v, r) {
      assert EchoedAt(h, t, x, v, r) && MarkKept(h, h', t, r);
      if 1 <= r <= x {
        NoVotesKept(h, h', h.marks[(t, r)], t, v);
      }
    }
  }

  // ---- Each step keeps them ----

  /** A node still in term t has not voted in any later term. */
  lemma NotVotedLater(c: Config, s: State, i: NodeID, terms: set<Term>, t: Term)
    requires ElectionInv(c, s) && i in s.nodes && s.nodes[i].term <= t
    requires forall u :: u in terms && u > t ==> u in s.h.leaders
    ensures NoVotes(s.h, terms, t, i)
  {
    forall u | u in terms && u > t ensures (u, i) !in s.h.grants {
      assert GrantTermOk(s, u, i);
    }
  }

  lemma MarkStep(c: Config, s: State, i: NodeID, ev: Event, e: Effect, s': State, t: Term, r: nat)
    requires ElectionInv(c, s) && ReadInv(s) && Moves(s, i, e, s') && ReadKept(s.h, s'.h)
    requires LeaderOrigin(s, i, e.node)
    ensures MarkOk(s', t, r)
  {
    LeadersKept(s, i, e, s');
    if (t, r) in s.h.marks {
      assert MarkOk(s, t, r) && MarkKept(s.h, s'.h, t, r);
      NoVotesKept(s.h, s'.h, s.h.marks[(t, r)], t, s.h.leaders[t]);
    } else if (t, r) in s'.h.marks {
      assert LeaderOk(s, i);
      NotVotedLater(c, s, i, s.h.leaders.Keys, t);
      NoVotesKept(s.h, s'.h, s.h.leaders.Keys, t, i);
    }
  }

  lemma NewestMarkStep(c: Config, s: State, i: NodeID, ev: Event, e: Effect, s': State, x: NodeID, r: nat)
    requires ElectionInv(c, s) && ReadInv(s) && Moves(s, i, e, s') && QueueFacts(s.nodes[i], ev, e.node)
    requires LeaderOrigin(s, i, e.node)
    ensures NewestMarkOk(s', x, r)
  {
    assert NewestMarkOk(s, x, r) && LeaderReadsOk(s, i) && LeaderOk(s, x) && LeaderOk(s, i);
    assert MarkOk(s, e.node.term, r);
  }

  lemma LeaderReadsStep(c: Config, s: State, i: NodeID, ev: Event, e: Effect, s': State, x: NodeID)
    requires ElectionInv(c, s) && ReadInv(s) && Moves(s, i, e, s') && ReadKept(s.h, s'.h)
    requires VoteFacts(s.nodes[i], ev, e.node)
    requires LeaderFacts(s.nodes[i], ev, e.node) && QueueFacts(s.nodes[i], ev, e.node)
    ensures LeaderReadsOk(s', x)
  {
    assert LeaderReadsOk(s, x);
    var n, n' := s.nodes[i], e.node;
    if x in s.nodes && s.nodes[x].role.Leader? {
      MarkedKept(s.h, s'.h, s.nodes[x].term, s.nodes[x].role.readSeq);
    }
    if x == i && n'.role.Leader? {
      forall r: nat ensures MarkedAt(s'.h, n'.term, n'.role.readSeq, r) {
        if StillLeader(n, n') {
          assert MarkedAt(s'.h, n.term, n.role.readSeq, r);
        }
      }
    }
  }

  lemma BeatStep(s: State, i: NodeID, ev: Event, e: Effect, s': State, k: nat)
    requires ReadInv(s) && Moves(s, i, e, s') && ReadKept(s.h, s'.h)
    requires SendFacts(s.nodes[i], ev, e) && LeaderReadsOk(s', i)
    ensures BeatOk(s', k)
  {
    if k < |s.net| {
      assert BeatOk(s, k);
      if s.net[k].message.Heartbeat? {
        MarkedKept(s.h, s'.h, s.net[k].term, s.net[k].message.readSeq);
      }
    } else if k < |s'.net| {
      assert s'.net[k] == e.out[k - |s.net|];
      assert Sends(s.nodes[i], ev, e.node, e.out[k - |s.net|]);
    }
  }

  /** Answering a heartbeat of its term confirms what the heartbeat numbers. */
  lemma Echoes(c: Config, s: State, i: NodeID, k: nat, t: Term)
    requires ElectionInv(c, s) && ReadInv(s) && i in s.nodes && s.nodes[i].term <= t
    requires k < |s.net| && s.net[k].message.Heartbeat? && s.net[k].term == t
    ensures Echoed(s.h, t, s.net[k].message.readSeq, i)
  {
    assert BeatOk(s, k);
    var x := s.net[k].message.readSeq;
    forall r: nat ensures EchoedAt(s.h, t, x, i, r) {
      assert MarkedAt(s.h, t, x, r) && MarkOk(s, t, r);
      if 1 <= r <= x {
        NotVotedLater(c, s, i, s.h.marks[(t, r)], t);
      }
    }
  }

  lemma EchoStep(c: Config, s: State, i: NodeID, ev: Event, e: Effect, s': State, k: nat)
    requires ElectionInv(c, s) && ReadInv(s) && Moves(s, i, e, s') && ReadKept(s.h, s'.h) && Heard(s, i, ev)
    requires SendFacts(s.nodes[i], ev, e) && VoteFacts(s.nodes[i], ev, e.node)
    ensures EchoOk(s', k)
  {
    if k < |s.net| {
      assert EchoOk(s, k);
      if s.net[k].message.HeartbeatResponse? {
        EchoedKept(s.h, s'.h, s.net[k].term, s.net[k].message.readSeq, s.net[k].from);
      }
    } else if k < |s'.net| && s'.net[k].message.HeartbeatResponse? {
      assert s'.net[k] == e.out[k - |s.net|];
      assert Sends(s.nodes[i], ev, e.node, e.out[k - |s.net|]);
      var k0: nat :| k0 < |s.net| && s.net[k0] == ev.msg;
      Echoes(c, s, i, k0, e.node.term);
      EchoedKept(s.h, s'.h, e.node.term, ev.msg.message.readSeq, i);
    }
  }

  lemma ConfirmStep(s: State, i: NodeID, ev: Event, e: Effect, s': State, x: NodeID, p: NodeID)
    requires ReadInv(s) && Moves(s, i, e, s') && ReadKept(s.h, s'.h) && Heard(s, i, ev)
    requires LeaderFacts(s.nodes[i], ev, e.node) && ProgressFacts(s.nodes[i], ev, e.node)
    ensures ConfirmOk(s', x, p)
  {
    assert ConfirmOk(s, x, p) && LeaderReadsOk(s, x);
    var n, n' := s.nodes[i], e.node;
    if x in s.nodes && s.nodes[x].role.Leader? && p in s.nodes[x].peers {
      EchoedKept(s.h, s'.h, s.nodes[x].term, s.nodes[x].role.progress[p].readSeq, p);
      if x == i && StillLeader(n, n') {
        assert PeerMoved(n, ev, n', p);
        if n'.role.progress[p].readSeq != n.role.progress[p].readSeq {
          var k: nat :| k < |s.net| && s.net[k] == ev.msg;
          assert EchoOk(s, k);
          EchoedKept(s.h, s'.h, n.term, ev.msg.message.readSeq, p);
        }
      }
    }
  }

  lemma ReadStep(c: Config, s: State, i: NodeID, ev: Event, e: Effect, s': State)
    requires ElectionInv(c, s) && ReadInv(s) && Transition(s, i, ev, e, s')
    ensures ElectionInv(c, s') && ReadInv(s') && ReadKept(s.h, s'.h)
  {
    ElectionStep(c, s, i, ev, e, s');
    ReadKeptStep(c, s, i, ev, e, s');
    forall t, r ensures MarkOk(s', t, r) { MarkStep(c, s, i, ev, e, s', t, r); }
    forall x, r ensures NewestMarkOk(s', x, r) { NewestMarkStep(c, s, i, ev, e, s', x, r); }
    forall x ensures LeaderReadsOk(s', x) { LeaderReadsStep(c, s, i, ev, e, s', x); }
    assert LeaderReadsOk(s', i);
    forall k ensures BeatOk(s', k) { BeatStep(s, i, ev, e, s', k); }
    forall k ensures EchoOk(s', k) { EchoStep(c, s, i, ev, e, s', k); }
    forall x, p ensures ConfirmOk(s', x, p) { ConfirmStep(s, i, ev, e, s', x, p); }
  }

  // ---- Over runs ----

  lemma ReadAt(c: Config, ss: seq<State>, acts: seq<Action>, j: nat) returns (i: NodeID, ev: Event, e: Effect)
    requires Run(c, false, ss, acts) && j < |acts| && ElectionInv(c, ss[j]) && ReadInv(ss[j])
    ensures ElectionInv(c, ss[j + 1]) && ReadInv(ss[j + 1]) && ReadKept(ss[j].h, ss[j + 1].h)
    ensures Transition(ss[j], i, ev, e, ss[j + 1])
  {
    MembersKnown(c, ss[j]);
    i, ev, e := RunStep(c, false, ss, acts, j);
    ReadStep(c, ss[j], i, ev, e, ss[j + 1]);
  }

  lemma ReadStart(c: Config, ss: seq<State>, acts: seq<Action>)
    requires Run(c, false, ss, acts)
    ensures ElectionInv(c, ss[0]) && ReadInv(ss[0])
  {
    ElectionInit(c, ss[0]);
  }

  lemma {:induction false} ReadRun(c: Config, ss: seq<State>, acts: seq<Action>, j: nat)
    requires Run(c, false, ss, acts) && j < |ss|
    ensures ElectionInv(c, ss[j]) && ReadInv(ss[j])
  {
    if j == 0 {
      ReadStart(c, ss, acts);
    } else {
      ReadRun(c, ss, acts, j - 1);
      var _, _, _ := ReadAt(c, ss, acts, j - 1);
    }
  }

  lemma {:induction false} MarkKeptRun(c: Config, ss: seq<State>, acts: seq<Action>, j: nat, j': nat, t: Term, r: nat)
    requires Run(c, false, ss, acts) && j <= j' < |ss| && (t, r) in ss[j].h.marks
    ensures (t, r) in ss[j'].h.marks && ss[j'].h.marks[(t, r)] == ss[j].h.marks[(t, r)]
    decreases j' - j
  {
    if j < j' {
      MarkKeptRun(c, ss, acts, j, j' - 1, t, r);
      ReadRun(c, ss, acts, j' - 1);
      var _, _, _ := ReadAt(c, ss, acts, j' - 1);
      assert MarkKept(ss[j' - 1].h, ss[j'].h, t, r);
    }
  }

  /** Accepting a read marks it with the terms that have had a leader so far. */
  lemma AcceptedIsMarked(c: Config, ss: seq<State>, acts: seq<Action>, j: nat, i: NodeID, rd: Read)
    requires Run(c, false, ss, acts) && j < |acts| && i in ss[j].nodes && i in ss[j + 1].nodes
    requires StillLeader(ss[j].nodes[i], ss[j + 1].nodes[i])
    requires rd !in ss[j].nodes[i].role.queue && rd in ss[j + 1].nodes[i].role.queue
    ensures (ss[j].nodes[i].term, rd.seqNo) in ss[j + 1].h.marks
    ensures ss[j + 1].h.marks[(ss[j].nodes[i].term, rd.seqNo)] == ss[j].h.leaders.Keys
  {
    ReadRun(c, ss, acts, j);
    var x, ev, e := ReadAt(c, ss, acts, j);
    assert LeaderReadsOk(ss[j], i);
  }

  /** A majority that confirmed a read leaves no later term a quorum of voters. */
  lemma NoLaterTerm(c: Config, s: State, i: NodeID, r: nat, u: Term)
    requires ElectionInv(c, s) && ReadInv(s) && i in s.nodes && TracksPeers(s.nodes[i])
    requires 1 <= r <= s.nodes[i].role.readSeq
    requires Majority(s.nodes[i], Confirming(s.nodes[i], r))
    requires (s.nodes[i].term, r) in s.h.marks && u in s.h.marks[(s.nodes[i].term, r)]
    ensures u <= s.nodes[i].term
  {
    var n := s.nodes[i];
    assert MemberOk(c, s, i) && LeaderOk(s, i) && MarkOk(s, n.term, r);
    var picks := Confirming(n, r);
    var peers := set j | j in picks :: n.peers[j];
    PickedSize(n.peers, picks);
    ClusterSize(c.members, n);
    assert i !in peers by {
      assert i !in Elements(n.peers);
    }
    assert peers + {i} <= c.members by {
      assert peers <= Elements(n.peers);
    }
    if u > n.term {
      assert QuorumOk(c, s.h, u);
      var v := QuorumsMeet(c.members, peers + {i}, Voters(c, s.h, u));
      ConfirmedNotVoter(s, i, r, u, v);
      assert false;
    }
  }

  lemma ConfirmedNotVoter(s: State, i: NodeID, r: nat, u: Term, v: NodeID)
    requires ReadInv(s) && i in s.nodes && TracksPeers(s.nodes[i]) && u > s.nodes[i].term
    requires s.nodes[i].term in s.h.leaders && s.h.leaders[s.nodes[i].term] == i
    requires (s.nodes[i].term, r) in s.h.marks && u in s.h.marks[(s.nodes[i].term, r)] && r >= 1
    requires v == i || (v in s.nodes[i].peers && s.nodes[i].role.progress[v].readSeq >= r)
    ensures (u, v) !in s.h.grants
  {
    assert MarkOk(s, s.nodes[i].term, r) && ConfirmOk(s, i, v);
    if v != i {
      assert EchoedAt(s.h, s.nodes[i].term, s.nodes[i].role.progress[v].readSeq, v, r);
    }
  }

  /** The read leaving the queue at step j was confirmed by a majority. */
  lemma ExecutedIsConfirmed(c: Config, ss: seq<State>, acts: seq<Action>, j: nat, i: NodeID, rd: Read, u: Term)
    requires Run(c, false, ss, acts) && j < |acts| && i in ss[j].nodes && i in ss[j + 1].nodes
    requires StillLeader(ss[j].nodes[i], ss[j + 1].nodes[i])
    requires rd in ss[j].nodes[i].role.queue && rd !in ss[j + 1].nodes[i].role.queue
    requires (ss[j].nodes[i].term, rd.seqNo) in ss[j].h.marks && u in ss[j].h.marks[(ss[j].nodes[i].term, rd.seqNo)]
    ensures u <= ss[j].nodes[i].term
  {
    ReadRun(c, ss, acts, j);
    var x, ev, e := ReadAt(c, ss, acts, j);
    assert LeaderReadsOk(ss[j], i) && MarkKept(ss[j].h, ss[j + 1].h, ss[j].nodes[i].term, rd.seqNo);
    NoLaterTerm(c, ss[j + 1], i, rd.seqNo, u);
  }

  /** The leader i of a term accepts a read at step j and executes it at step j'. */
  ghost predicate Served(ss: seq<State>, acts: seq<Action>, j: nat, j': nat, i: NodeID, rd: Read) {
    && j < j' < |acts| < |ss|
    && i in ss[j].nodes && i in ss[j + 1].nodes && StillLeader(ss[j].nodes[i], ss[j + 1].nodes[i])
    && rd !in ss[j].nodes[i].role.queue && rd in ss[j + 1].nodes[i].role.queue
    && i in ss[j'].nodes && i in ss[j' + 1].nodes && StillLeader(ss[j'].nodes[i], ss[j' + 1].nodes[i])
    && rd in ss[j'].nodes[i].role.queue && rd !in ss[j' + 1].nodes[i].role.queue
    && ss[j'].nodes[i].term == ss[j].nodes[i].term
  }

  /** No term after the read's had a leader when the read was accepted. */
  lemma ConfirmedTerm(c: Config, ss: seq<State>, acts: seq<Action>, j: nat, j': nat, i: NodeID, rd: Read, u: Term)
    requires Run(c, false, ss, acts) && Served(ss, acts, j, j', i, rd) && u in ss[j].h.leaders
    ensures u <= ss[j].nodes[i].term
  {
    AcceptedIsMarked(c, ss, acts, j, i, rd);
    MarkKeptRun(c, ss, acts, j + 1, j', ss[j].nodes[i].term, rd.seqNo);
    ExecutedIsConfirmed(c, ss, acts, j', i, rd, u);
  }

  /** Read confirmation. A read accepted at step j by the leader of a term and
      executed by it at step j' was accepted while no node had ever led a later
      term: whoever led by then led this term or an earlier one. */
  lemma ReadConfirmation(c: Config, ss: seq<State>, acts: seq<Action>, j: nat, j': nat, i: NodeID, rd: Read, k: nat,
                         x: NodeID)
    requires Run(c, false, ss, acts) && Served(ss, acts, j, j', i, rd)
    requires k <= j && x in ss[k].nodes && ss[k].nodes[x].role.Leader?
    ensures ss[k].nodes[x].term <= ss[j].nodes[i].term
  {
    ElectionRun(c, ss, acts, k);
    assert LeaderOk(ss[k], x);
    LeadersKeptRun(c, ss, acts, k, j, ss[k].nodes[x].term);
    ConfirmedTerm(c, ss, acts, j, j', i, rd, ss[k].nodes[x].term);
  }

  lemma {:induction false} TermKeptRun(c: Config, ss: seq<State>, acts: seq<Action>, j: nat, j': nat, i: NodeID)
    requires Run(c, false, ss, acts) && j <= j' < |ss| && i in ss[j].nodes
    ensures i in ss[j'].nodes && ss[j].nodes[i].term <= ss[j'].nodes[i].term
    decreases j' - j
  {
    if j < j' {
      TermKeptRun(c, ss, acts, j, j' - 1, i);
      ElectionRun(c, ss, acts, j' - 1);
      MembersKnown(c, ss[j' - 1]);
      var x, ev, e := RunStep(c, false, ss, acts, j' - 1);
    }
  }

  /** A lone leader confirms every read by itself. */
  lemma LoneAnswers(m: Machine, n: Node, id: RequestID, command: Command)
    requires TracksPeers(n) && n.peers == []
    requires forall rd :: rd in n.role.queue ==> rd.seqNo <= n.role.readSeq
    ensures var e := LeaderRequest(m, n, n.id, id, ReadRequest(command));
            && e.node.role.Leader? && e.node.role.queue == []
            && Envelope(n.id, n.id, n.term, ClientResponse(id, ReadDone(m.read(n.applied, command)))) in e.out
  {
    var seqNo := n.role.readSeq + 1;
    var queue := n.role.queue + [Read(seqNo, n.id, id, command)];
    var n' := n.(role := n.role.(readSeq := seqNo, queue := queue));
    assert ReadSeqs(n') == [seqNo];
    QuorumValueMeaning(ReadSeqs(n'));
    var k := ReadyCount(queue, QuorumValue(ReadSeqs(n')));
    assert forall rd :: rd in queue ==> rd.seqNo <= seqNo;
    assert k == |queue|;
    var out := MaybeRead(m, n').out;
    assert out[|queue| - 1] == Envelope(n.id, n.id, n.term, ClientResponse(id, ReadDone(m.read(n.applied, command))));
    assert out[|queue| - 1] in out;
  }

  /** The step in which a lone leader takes a read. */
  lemma LoneAnswered(c: Config, s: State, i: NodeID, id: RequestID, command: Command, s': State)
    requires Next(c, false, s, Submit(i, id, ReadRequest(command)), s')
    requires i in s.nodes && s.nodes[i].id == i && s.nodes[i].peers == [] && LeaderReadsOk(s, i)
    requires s.nodes[i].role.Leader?
    ensures i in s'.nodes && s'.nodes[i].role.Leader? && s'.nodes[i].role.queue == []
    ensures var answer := ClientResponse(id, ReadDone(c.machine.read(s.nodes[i].applied, command)));
            s.net <= s'.net && Envelope(i, i, s.nodes[i].term, answer) in s'.net[|s.net|..]
  {
    LoneAnswers(c.machine, s.nodes[i], id, command);
  }

  /** Read confirmation for a lone node: it answers a read in the very step that accepts
      it, and whoever led by then is that node, in this term or an earlier one. */
  lemma LoneReadConfirmation(c: Config, ss: seq<State>, acts: seq<Action>, j: nat, i: NodeID, id: RequestID,
                             command: Command, k: nat, x: NodeID)
    requires Run(c, false, ss, acts) && j < |acts| && acts[j] == Submit(i, id, ReadRequest(command))
    requires i in ss[j].nodes && ss[j].nodes[i].peers == [] && ss[j].nodes[i].role.Leader?
    requires k <= j && x in ss[k].nodes && ss[k].nodes[x].role.Leader?
    ensures i in ss[j + 1].nodes && ss[j + 1].nodes[i].role.Leader? && ss[j + 1].nodes[i].role.queue == []
    ensures var n := ss[j].nodes[i];
            var answer := ClientResponse(id, ReadDone(c.machine.read(n.applied, command)));
            ss[j].net <= ss[j + 1].net && Envelope(i, i, n.term, answer) in ss[j + 1].net[|ss[j].net|..]
    ensures x == i && ss[k].nodes[x].term <= ss[j].nodes[i].term
  {
    ElectionRun(c, ss, acts, j);
    assert MemberOk(c, ss[j], i);
    LoneLeader(c, ss, acts, j, i, k, x);
    ReadRun(c, ss, acts, j);
    assert LeaderReadsOk(ss[j], i);
    assert StepAt(c, false, ss, acts, j);
    LoneAnswered(c, ss[j], i, id, command, ss[j + 1]);
  }

  lemma LoneLeader(c: Config, ss: seq<State>, acts: seq<Action>, j: nat, i: NodeID, k: nat, x: NodeID)
    requires Run(c, false, ss, acts) && j < |ss| && i in ss[j].nodes && ss[j].nodes[i].peers == []
    requires k <= j && x in ss[k].nodes && ss[k].nodes[x].role.Leader?
    ensures x == i && ss[k].nodes[x].term <= ss[j].nodes[i].term
  {
    ElectionRun(c, ss, acts, j);
    ElectionRun(c, ss, acts, k);
    assert MemberOk(c, ss[j], i) && MemberOk(c, ss[k], x);
    assert Elements(ss[j].nodes[i].peers) == {};
    assert x in c.members - {i} <==> x != i;
    TermKeptRun(c, ss, acts, k, j, i);
  }
}
