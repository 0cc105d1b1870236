/** From every state of a run over in-order links, the cluster can elect a leader: the nodes
    are restarted, and the one with the most up-to-date log campaigns. */
module RaftRecovery {
  import opened Basics
  import opened RaftTypes
  import opened RaftNode
  import opened RaftCluster
  import opened RaftElection
  import opened RaftTrace
  import RaftCommit

  lemma {:induction false} TotalApplies(m: Machine, es: seq<Entry>, applied: seq<Entry>, upto: nat)
    requires Total(m) && upto <= |es| && applied <= es
    ensures ApplyUpTo(m, es, applied, upto) == (if |applied| >= upto then applied else es[..upto], true)
    decreases upto - |applied|
  {
    if |applied| < upto {
      assert m.apply(applied, es[|applied|]).Reply?;
      assert applied + [es[|applied|]] == es[..|applied| + 1];
      TotalApplies(m, es, applied + [es[|applied|]], upto);
    }
  }

  /** What every node keeps of its commit position. */
  ghost predicate Sound(n: Node) {
    n.log.commitIndex <= |n.log.entries| && |n.applied| <= n.log.commitIndex && n.applied <= n.log.entries
  }

  lemma IsSound(c: Config, t: Trace, i: NodeID)
    requires Live(c, t) && i in Now(t).nodes
    ensures Sound(Now(t).nodes[i])
  {
    RaftCommit.CommitRun(c, t.ss, t.acts, |t.ss| - 1);
    assert RaftCommit.NodeCommitOk(c, Now(t), i);
  }

  // ---- Restarting the nodes ----

  function Rebooted(n: Node): Node {
    n.(role := Follower(None, []))
  }

  lemma RebootOne(c: Config, t: Trace, i: NodeID) returns (t': Trace)
    requires Live(c, t) && i in c.members && |c.members| > 1 && i in Now(t).nodes
    ensures Live(c, t') && Extends(t, t')
    ensures Now(t').nodes == Now(t).nodes[i := Rebooted(Now(t).nodes[i])]
    ensures Now(t').up == Now(t).up + {i} && Now(t').net == Now(t).net
  {
    Knows(c, t);
    var n := Now(t).nodes[i];
    ClusterSize(c.members, n);
    assert n.applied[..|n.applied|] == n.applied;
    assert Boot(c.machine, n, |n.applied|) == Effect(Rebooted(n), [], true);
    t' := Do(c, t, Reboot(i, |n.applied|));
    assert Now(t).net + [] == Now(t).net;
  }

  /** The nodes of s' are those of s, some of them rebooted. */
  ghost predicate SomeRebooted(s: State, s': State, done: set<NodeID>) {
    && s'.nodes.Keys == s.nodes.Keys && s'.up == s.up + done && s'.net == s.net
    && forall i :: i in s.nodes ==> s'.nodes[i] == if i in done then Rebooted(s.nodes[i]) else s.nodes[i]
  }

  lemma MoreRebooted(s: State, a: State, b: State, done: set<NodeID>, i: NodeID)
    requires SomeRebooted(s, a, done) && i !in done && i in a.nodes
    requires b.nodes == a.nodes[i := Rebooted(a.nodes[i])] && b.up == a.up + {i} && b.net == a.net
    ensures SomeRebooted(s, b, done + {i})
  {
  }

  lemma {:induction false} RebootAll(c: Config, t: Trace, todo: set<NodeID>) returns (t': Trace)
    requires Live(c, t) && todo <= c.members && |c.members| > 1
    ensures Live(c, t') && Extends(t, t') && SomeRebooted(Now(t), Now(t'), todo)
    decreases todo
  {
    if todo == {} {
      t' := t;
    } else {
      var i :| i in todo;
      var t1 := RebootAll(c, t, todo - {i});
      Knows(c, t1);
      t' := RebootOne(c, t1, i);
      MoreRebooted(Now(t), Now(t1), Now(t'), todo - {i}, i);
      assert todo - {i} + {i} == todo;
    }
  }

  // ---- The most up-to-date log, and a term that is new ----

  lemma {:induction false} BestLog(s: State, ids: set<NodeID>) returns (w: NodeID)
    requires ids != {} && ids <= s.nodes.Keys
    ensures w in ids
    ensures forall p :: p in ids ==>
              NotNewer(s.nodes[p].log.entries, |s.nodes[w].log.entries|, LastTerm(s.nodes[w].log.entries))
    decreases ids
  {
    w :| w in ids;
    var rest := ids - {w};
    assert forall p :: p in ids ==> p == w || p in rest;
    if rest != {} {
      var x := BestLog(s, rest);
      var a, b := s.nodes[w].log.entries, s.nodes[x].log.entries;
      if LastTerm(b) > LastTerm(a) || (LastTerm(b) == LastTerm(a) && |b| > |a|) {
        w := x;
      }
    }
  }

  lemma {:induction false} LastOfTerms(s: State, ids: set<NodeID>) returns (bound: Term)
    requires ids <= s.nodes.Keys
    ensures forall p :: p in ids ==> s.nodes[p].term <= bound
    decreases ids
  {
    if ids == {} {
      bound := 0;
    } else {
      var x :| x in ids;
      bound := LastOfTerms(s, ids - {x});
      if s.nodes[x].term > bound {
        bound := s.nodes[x].term;
      }
    }
  }

  /** What a campaign of node n in its term asks its peers. */
  function Ask(n: Node, p: NodeID): Envelope {
    Envelope(n.id, p, n.term, Campaign(|n.log.entries|, LastTerm(n.log.entries)))
  }

  /** A campaign that was just begun, with its messages at the end of the network. */
  ghost predicate Campaigns(s: State, w: NodeID, b: nat) {
    && w in s.nodes && w in s.up && s.nodes[w].id == w
    && s.nodes[w].role == Candidate({w}) && s.nodes[w].vote == Some(w)
    && b + |s.nodes[w].peers| == |s.net| && forall j :: AskedAt(s, w, b, j)
  }

  ghost predicate AskedAt(s: State, w: NodeID, b: nat, j: nat)
    requires w in s.nodes
  {
    j < |s.nodes[w].peers| ==>
      Ready(s, b + j) && s.net[b + j] == Ask(s.nodes[w], s.nodes[w].peers[j])
  }

  lemma FiresCampaign(m: Machine, n: Node) returns (e: Effect)
    requires Total(m) && Sound(n) && (n.role == Follower(None, []) || n.role.Candidate?)
    ensures e == Handle(m, n, Fire) && e.ok
    ensures e.node == n.(term := n.term + 1, vote := Some(n.id), role := Candidate({n.id}), applied := e.node.applied)
    ensures |e.out| == |n.peers| && forall j :: 0 <= j < |n.peers| ==> e.out[j] == Ask(e.node, n.peers[j])
  {
    e := Handle(m, n, Fire);
    TotalApplies(m, n.log.entries, n.applied, Applicable(n.log));
    assert Aborts(n, []) == [];
  }

  /** One campaign after another. */
  lemma CampaignsOnce(c: Config, t: Trace, w: NodeID) returns (t': Trace)
    requires Live(c, t) && Total(c.machine) && w in c.members && w in Now(t).up && w in Now(t).nodes
    requires Now(t).nodes[w].role == Follower(None, []) || Now(t).nodes[w].role.Candidate?
    ensures Live(c, t') && Extends(t, t') && Campaigns(Now(t'), w, |Now(t).net|)
    ensures Between(Now(t), Now(t'), w, w) && Now(t').nodes[w].log == Now(t).nodes[w].log
    ensures Now(t').nodes[w].peers == Now(t).nodes[w].peers && Now(t').nodes[w].term == Now(t).nodes[w].term + 1
  {
    Knows(c, t);
    IsSound(c, t, w);
    var e := FiresCampaign(c.machine, Now(t).nodes[w]);
    t' := Acts(c, t, Expire(w), e);
    CampaignState(Now(t), Now(t'), w, e);
  }

  lemma CampaignState(s: State, s': State, w: NodeID, e: Effect)
    requires w in s.nodes && w in s.up && Became(s, s', w, e) && s.nodes[w].id == w
    requires e.node.role == Candidate({w}) && e.node.vote == Some(w) && e.node.id == w
    requires |e.out| == |e.node.peers| && forall j :: 0 <= j < |e.out| ==> e.out[j] == Ask(e.node, e.node.peers[j])
    ensures Campaigns(s', w, |s.net|)
  {
    forall j: nat ensures AskedAt(s', w, |s.net|, j) { }
  }

  lemma {:induction false} Raise(c: Config, t: Trace, w: NodeID, bound: Term) returns (t': Trace, b: nat)
    requires Live(c, t) && Total(c.machine) && w in c.members && w in Now(t).up && w in Now(t).nodes
    requires Now(t).nodes[w].role == Follower(None, []) || Now(t).nodes[w].role.Candidate?
    ensures Live(c, t') && Extends(t, t') && Campaigns(Now(t'), w, b) && Now(t').nodes[w].term > bound
    ensures Between(Now(t), Now(t'), w, w) && Now(t').nodes[w].log == Now(t).nodes[w].log
    ensures Now(t').nodes[w].peers == Now(t).nodes[w].peers
    decreases if bound >= Now(t).nodes[w].term then bound - Now(t).nodes[w].term else 0
  {
    t' := CampaignsOnce(c, t, w);
    b := |Now(t).net|;
    if Now(t').nodes[w].term <= bound {
      var t1 := t';
      t', b := Raise(c, t1, w, bound);
      BetweenBoth(Now(t), Now(t1), Now(t'), w, w);
    }
  }

  // ---- Voting ----

  /** A node that can vote for a candidate of a later term. */
  ghost predicate CanVote(n: Node, w: Node) {
    && n.role == Follower(None, []) && n.term < w.term && w.id in n.peers && n.id != w.id
    && NotNewer(n.log.entries, |w.log.entries|, LastTerm(w.log.entries))
  }

  function Voted(n: Node, w: Node): Node {
    n.(term := w.term, vote := Some(w.id), role := Follower(None, []))
  }

  function Vote(p: NodeID, w: Node): Envelope {
    Envelope(p, w.id, w.term, CampaignResponse(true))
  }

  lemma Votes(m: Machine, n: Node, w: Node)
    requires CanVote(n, w)
    ensures Handle(m, n, Receive(Ask(w, n.id))) == Effect(Voted(n, w), [Vote(n.id, w)], true)
  {
    assert LeavingTerm(n) == [];
  }

  ghost predicate VotedAt(s: State, s0: State, w: NodeID, j: nat)
    requires w in s.nodes && s0.nodes.Keys == s.nodes.Keys
  {
    j < |s.nodes[w].peers| ==>
      var p := s.nodes[w].peers[j];
      && p in s.nodes && s.nodes[p] == Voted(s0.nodes[p], s.nodes[w])
      && Ready(s, |s0.net| + j) && s.net[|s0.net| + j] == Vote(p, s.nodes[w])
  }

  ghost predicate WaitsAt(s: State, s0: State, w: NodeID, b: nat, j: nat)
    requires w in s.nodes && s0.nodes.Keys == s.nodes.Keys
  {
    j < |s.nodes[w].peers| ==>
      var p := s.nodes[w].peers[j];
      p in s.nodes && p in s.up && s.nodes[p] == s0.nodes[p] && AskedAt(s, w, b, j)
  }

  /** The first i peers have voted since state s0. */
  ghost predicate Voting(s: State, s0: State, w: NodeID, b: nat, i: nat) {
    && w in s.nodes && s0.nodes.Keys == s.nodes.Keys && s.nodes[w] == s0.nodes[w] && s.up == s0.up
    && i <= |s.nodes[w].peers| && |s.net| == |s0.net| + i
    && (forall j: nat :: j < i ==> VotedAt(s, s0, w, j))
    && (forall j: nat :: i <= j ==> WaitsAt(s, s0, w, b, j))
  }

  /** All peers of a candidate can vote for it. */
  ghost predicate Electable(s: State, w: NodeID) {
    w in s.nodes && forall j :: 0 <= j < |s.nodes[w].peers| ==>
      var p := s.nodes[w].peers[j]; p in s.nodes && p in s.up && CanVote(s.nodes[p], s.nodes[w])
  }

  lemma {:induction false} AllVote(c: Config, t: Trace, s0: State, w: NodeID, b: nat, i: nat) returns (t': Trace)
    requires Live(c, t) && Campaigns(s0, w, b) && Electable(s0, w) && Voting(Now(t), s0, w, b, i) && w in c.members
    ensures Live(c, t') && Extends(t, t') && Voting(Now(t'), s0, w, b, |s0.nodes[w].peers|)
    decreases |Now(t).nodes[w].peers| - i
  {
    var n := Now(t).nodes[w];
    if i == |n.peers| {
      t' := t;
    } else {
      var t1 := OneVotes(c, t, s0, w, b, i);
      t' := AllVote(c, t1, s0, w, b, i + 1);
    }
  }

  lemma OneVotes(c: Config, t: Trace, s0: State, w: NodeID, b: nat, i: nat) returns (t': Trace)
    requires Live(c, t) && Campaigns(s0, w, b) && Electable(s0, w) && Voting(Now(t), s0, w, b, i) && w in c.members
    requires i < |Now(t).nodes[w].peers|
    ensures Live(c, t') && Extends(t, t') && Voting(Now(t'), s0, w, b, i + 1)
  {
    Knows(c, t);
    var s, n := Now(t), Now(t).nodes[w];
    var p := n.peers[i];
    assert WaitsAt(s, s0, w, b, i) && CanVote(s0.nodes[p], n) && AskedAt(s, w, b, i);
    Votes(c.machine, s.nodes[p], n);
    t' := Gets(c, t, b + i, Effect(Voted(s.nodes[p], n), [Vote(p, n)], true));
    assert w !in n.peers by { assert w !in Elements(n.peers); }
    VotedOne(s, Now(t'), s0, w, b, i);
  }

  lemma VotedOne(s: State, s': State, s0: State, w: NodeID, b: nat, i: nat)
    requires Voting(s, s0, w, b, i) && i < |s.nodes[w].peers| && w !in s.nodes[w].peers && Distinct(s.nodes[w].peers)
    requires var p := s.nodes[w].peers[i];
             && p in s.nodes && s.nodes[p] == s0.nodes[p] && Between(s, s', w, p)
             && Became(s, s', p, Effect(Voted(s.nodes[p], s.nodes[w]), [Vote(p, s.nodes[w])], true))
    requires s.nodes[w].id == w && forall j: nat :: j < |s.nodes[w].peers| ==> s.nodes[w].peers[j] in s.nodes[w].peers
    ensures Voting(s', s0, w, b, i + 1)
  {
    var n := s.nodes[w];
    var p := n.peers[i];
    assert s'.net[|s0.net| + i] == Vote(p, n);
    forall j: nat | j < i + 1 ensures VotedAt(s', s0, w, j) {
      if j < i {
        assert VotedAt(s, s0, w, j);
        assert n.peers[j] != p && !Among(s.net[|s0.net| + j], w, p);
      }
    }
    forall j: nat | i + 1 <= j ensures WaitsAt(s', s0, w, b, j) {
      assert WaitsAt(s, s0, w, b, j);
      if j < |n.peers| {
        assert n.peers[j] != p && AskedAt(s, w, b, j) && !Among(s.net[b + j], w, p);
      }
    }
  }

  // ---- Winning ----

  function Noop(n: Node): Entry {
    Entry(|n.log.entries| + 1, n.term, None)
  }

  /** Nothing is known yet of the peers' logs. */
  function Unknown(peers: seq<NodeID>, next: Index): map<NodeID, Progress> {
    map p | p in peers :: Progress(next, 0, 0)
  }

  /** A candidate that has won. */
  function Won(n: Node): Node {
    n.(log := n.log.(entries := n.log.entries + [Noop(n)]),
       role := Leader(Unknown(n.peers, |n.log.entries| + 1), map[], [], 0))
  }

  /** The first Append of a new leader. */
  function FirstAppend(n: Node, p: NodeID): Envelope {
    Envelope(n.id, p, n.term, Append(|n.log.entries|, LastTerm(n.log.entries), [Noop(n)]))
  }

  lemma Wins(n: Node)
    ensures var e := IntoLeader(n);
            && e.ok && e.node == Won(n) && |e.out| == 2 * |n.peers|
            && forall j :: 0 <= j < |n.peers| ==> e.out[|n.peers| + j] == FirstAppend(n, n.peers[j])
  {
    assert (map p | p in n.peers :: Progress(|n.log.entries| + 1, 0, 0)) == Unknown(n.peers, |n.log.entries| + 1);
    var n1 := n.(role := Won(n).role);
    var n2 := Won(n);
    forall p | p in n.peers ensures CanSend(n2, p) && SendLog(n2, p) == FirstAppend(n, p) {
      assert n2.log.entries[|n.log.entries|..] == [Noop(n)];
    }
    assert Propose(n1, None).ok;
  }

  function Counted(n: Node, i: nat): set<NodeID>
    requires i <= |n.peers|
  {
    {n.id} + Elements(n.peers[..i])
  }

  lemma CountsOne(n: Node, members: set<NodeID>, i: nat)
    requires PeersOk(members, n) && i <= |n.peers|
    ensures |Counted(n, i)| == i + 1
    ensures i < |n.peers| ==> Counted(n, i) + {n.peers[i]} == Counted(n, i + 1)
  {
    if i < |n.peers| {
      assert n.peers[..i + 1] == n.peers[..i] + [n.peers[i]];
    }
    DistinctSize(n.peers[..i]);
    assert n.id !in Elements(n.peers);
  }

  ghost predicate VoteAt(s: State, n: Node, r: nat, j: nat) {
    j < |n.peers| ==> Ready(s, r + j) && s.net[r + j] == Vote(n.peers[j], n)
  }

  /** The first i votes have been counted since state s1, and were not enough. */
  ghost predicate Counting(s: State, s1: State, w: NodeID, r: nat, i: nat) {
    && w in s1.nodes && i <= |s1.nodes[w].peers| && w in s1.up
    && s.nodes == s1.nodes[w := s1.nodes[w].(role := Candidate(Counted(s1.nodes[w], i)))]
    && s.up == s1.up && s.net == s1.net
    && forall j: nat :: i <= j ==> VoteAt(s, s1.nodes[w], r, j)
  }

  ghost predicate AppendAt(s: State, n: Node, e: nat, j: nat) {
    j < |n.peers| ==> Ready(s, e + j) && s.net[e + j] == FirstAppend(n, n.peers[j])
  }

  /** The votes were enough. */
  ghost predicate HasWon(s: State, s1: State, w: NodeID, e: nat) {
    && w in s1.nodes && s.nodes.Keys == s1.nodes.Keys && s.up == s1.up
    && s.nodes[w] == Won(s1.nodes[w])
    && (forall p :: p in s1.nodes && p != w ==> s.nodes[p] == s1.nodes[p])
    && forall j :: AppendAt(s, s1.nodes[w], e, j)
  }

  /** A candidate with i votes of peers. */
  function Standing(n: Node, i: nat): Node
    requires i <= |n.peers|
  {
    n.(role := Candidate(Counted(n, i)))
  }

  lemma CandidateCounts(m: Machine, n: Node, p: NodeID)
    requires n.role.Candidate? && p in n.peers && |n.role.votes + {p}| < QuorumSize(|n.peers| + 1)
    ensures Handle(m, n, Receive(Vote(p, n))) == Effect(n.(role := Candidate(n.role.votes + {p})), [], true)
  {
  }

  lemma CandidateTakes(m: Machine, n: Node, p: NodeID, n': Node)
    requires n.role.Candidate? && p in n.peers && |n.role.votes + {p}| >= QuorumSize(|n.peers| + 1)
    requires n' == n.(role := Candidate(n.role.votes + {p}))
    ensures Handle(m, n, Receive(Vote(p, n))) == IntoLeader(n')
  {
  }

  /** What winning sends, and makes of the node. */
  ghost predicate Winning(n: Node, e: Effect) {
    && e.ok && e.node == Won(n) && |e.out| == 2 * |n.peers|
    && forall j :: 0 <= j < |n.peers| ==> e.out[|n.peers| + j] == FirstAppend(n, n.peers[j])
  }

  lemma CandidateWins(m: Machine, n: Node, p: NodeID) returns (e: Effect)
    requires n.role.Candidate? && p in n.peers && |n.role.votes + {p}| >= QuorumSize(|n.peers| + 1)
    ensures e == Handle(m, n, Receive(Vote(p, n))) && Winning(n, e)
  {
    var n' := n.(role := Candidate(n.role.votes + {p}));
    CandidateTakes(m, n, p, n');
    Wins(n');
    e := IntoLeader(n');
  }

  lemma GetsLastVote(c: Config, t: Trace, k: nat, w: NodeID, p: NodeID) returns (t': Trace, e: Effect)
    requires Live(c, t) && w in c.members && w in Now(t).nodes && w in Now(t).up && Ready(Now(t), k)
    requires var n := Now(t).nodes[w];
             && n.id == w && n.role.Candidate? && p in n.peers && p != w
             && |n.role.votes + {p}| >= QuorumSize(|n.peers| + 1) && Now(t).net[k] == Vote(p, n)
    ensures Live(c, t') && Extends(t, t') && Became(Now(t), Now(t'), w, e) && Winning(Now(t).nodes[w], e)
  {
    e := CandidateWins(c.machine, Now(t).nodes[w], p);
    t' := Gets(c, t, k, e);
  }

  /** How many votes the next one makes. */
  lemma NextCount(members: set<NodeID>, n: Node, i: nat)
    requires PeersOk(members, n) && i < |n.peers|
    ensures |Standing(n, i).role.votes + {n.peers[i]}| == i + 2
    ensures Standing(n, i + 1) == Standing(n, i).(role := Candidate(Standing(n, i).role.votes + {n.peers[i]}))
  {
    CountsOne(n, members, i);
    CountsOne(n, members, i + 1);
  }

  /** The vote to count next. */
  lemma NextVote(c: Config, s: State, s1: State, w: NodeID, r: nat, i: nat) returns (o: Envelope)
    requires w in c.members && Counting(s, s1, w, r, i) && i < |s1.nodes[w].peers|
    requires PeersOk(c.members, s1.nodes[w]) && s1.nodes[w].id == w
    ensures Ready(s, r + i) && s.net[r + i] == o == Vote(s1.nodes[w].peers[i], s1.nodes[w])
    ensures o.to == w && o.from != w && w in s.nodes && s.nodes[w] == Standing(s1.nodes[w], i) && w in s.up
  {
    o := s.net[r + i];
    assert VoteAt(s, s1.nodes[w], r, i) && s1.nodes[w].peers[i] in Elements(s1.nodes[w].peers);
  }

  lemma CountedOne(s: State, s': State, s1: State, w: NodeID, r: nat, i: nat)
    requires Counting(s, s1, w, r, i) && i < |s1.nodes[w].peers| && Distinct(s1.nodes[w].peers) && s1.nodes[w].id == w
    requires Became(s, s', w, Effect(Standing(s1.nodes[w], i + 1), [], true))
    requires Between(s, s', s1.nodes[w].peers[i], w) && w !in s1.nodes[w].peers
    ensures Counting(s', s1, w, r, i + 1)
  {
    var n := s1.nodes[w];
    assert s.net + [] == s.net;
    forall j: nat | i + 1 <= j ensures VoteAt(s', n, r, j) {
      assert VoteAt(s, n, r, j);
      if j < |n.peers| {
        assert n.peers[j] != n.peers[i] && n.peers[j] in n.peers;
        assert !Among(s.net[r + j], n.peers[i], w);
      }
    }
  }

  lemma CountVote(c: Config, t: Trace, s1: State, w: NodeID, r: nat, i: nat) returns (t': Trace)
    requires Live(c, t) && w in c.members && Counting(Now(t), s1, w, r, i) && i < |s1.nodes[w].peers|
    requires PeersOk(c.members, s1.nodes[w]) && s1.nodes[w].id == w && i + 2 < QuorumSize(|s1.nodes[w].peers| + 1)
    ensures Live(c, t') && Extends(t, t') && Counting(Now(t'), s1, w, r, i + 1)
  {
    var n := s1.nodes[w];
    var o := NextVote(c, Now(t), s1, w, r, i);
    NextCount(c.members, n, i);
    CandidateCounts(c.machine, Now(t).nodes[w], n.peers[i]);
    t' := Gets(c, t, r + i, Effect(Standing(n, i + 1), [], true));
    assert w !in n.peers by { assert w !in Elements(n.peers); }
    CountedOne(Now(t), Now(t'), s1, w, r, i);
  }

  lemma TakesLast(c: Config, t: Trace, s1: State, w: NodeID, r: nat, i: nat) returns (t': Trace, e: Effect)
    requires Live(c, t) && w in c.members && Counting(Now(t), s1, w, r, i) && i < |s1.nodes[w].peers|
    requires PeersOk(c.members, s1.nodes[w]) && s1.nodes[w].id == w && i + 2 >= QuorumSize(|s1.nodes[w].peers| + 1)
    ensures Live(c, t') && Extends(t, t') && Became(Now(t), Now(t'), w, e)
    ensures w in Now(t).nodes && Winning(Now(t).nodes[w], e)
  {
    var n := s1.nodes[w];
    var o := NextVote(c, Now(t), s1, w, r, i);
    NextCount(c.members, n, i);
    t', e := GetsLastVote(c, t, r + i, w, n.peers[i]);
  }

  lemma LastVote(c: Config, t: Trace, s1: State, w: NodeID, r: nat, i: nat) returns (t': Trace)
    requires Live(c, t) && w in c.members && Counting(Now(t), s1, w, r, i) && i < |s1.nodes[w].peers|
    requires PeersOk(c.members, s1.nodes[w]) && s1.nodes[w].id == w && i + 2 >= QuorumSize(|s1.nodes[w].peers| + 1)
    ensures Live(c, t') && Extends(t, t') && HasWon(Now(t'), s1, w, |s1.net| + |s1.nodes[w].peers|)
  {
    var e;
    t', e := TakesLast(c, t, s1, w, r, i);
    WonState(s1, Now(t), Now(t'), w, e);
  }

  lemma WonState(s1: State, s: State, s': State, w: NodeID, e: Effect)
    requires w in s1.nodes && s.nodes.Keys == s1.nodes.Keys && s.up == s1.up && s.net == s1.net
    requires s.nodes[w] == s1.nodes[w].(role := s.nodes[w].role)
    requires forall p :: p in s1.nodes && p != w ==> s.nodes[p] == s1.nodes[p]
    requires Became(s, s', w, e) && Winning(s.nodes[w], e)
    ensures HasWon(s', s1, w, |s1.net| + |s1.nodes[w].peers|)
  {
    var n, b := s1.nodes[w], |s1.net| + |s1.nodes[w].peers|;
    forall j: nat ensures AppendAt(s', n, b, j) {
      if j < |n.peers| {
        assert s'.net[b + j] == e.out[|n.peers| + j] == FirstAppend(s.nodes[w], n.peers[j]);
      }
    }
  }

  lemma {:induction false} Elects(c: Config, t: Trace, s1: State, w: NodeID, r: nat, i: nat) returns (t': Trace)
    requires Live(c, t) && w in c.members && |c.members| > 1 && Counting(Now(t), s1, w, r, i)
    requires PeersOk(c.members, s1.nodes[w]) && s1.nodes[w].id == w && i + 1 < QuorumSize(|s1.nodes[w].peers| + 1)
    ensures Live(c, t') && Extends(t, t') && HasWon(Now(t'), s1, w, |s1.net| + |s1.nodes[w].peers|)
    decreases |s1.nodes[w].peers| - i
  {
    ClusterSize(c.members, s1.nodes[w]);
    if i + 2 >= QuorumSize(|s1.nodes[w].peers| + 1) {
      t' := LastVote(c, t, s1, w, r, i);
    } else {
      var t1 := CountVote(c, t, s1, w, r, i);
      t' := Elects(c, t1, s1, w, r, i + 1);
    }
  }

  // ---- All together ----

  /** A leader that has just won, all others running and waiting for it, and its first
      Appends on the way. */
  ghost predicate Crowned(c: Config, s: State, w: NodeID, n: Node, e: nat) {
    && w in c.members && s.nodes.Keys == c.members && c.members <= s.up
    && n.id == w && PeersOk(c.members, n) && Sound(n) && s.nodes[w] == Won(n)
    && (forall p :: p in c.members && p != w ==> s.nodes[p].role == Follower(None, []) && s.nodes[p].term == n.term)
    && forall j :: AppendAt(s, n, e, j)
  }

  /** All nodes are restarted and the best of them campaigns in a new term. */
  lemma CanCampaign(c: Config, t: Trace) returns (t': Trace, w: NodeID, b: nat)
    requires Live(c, t) && Total(c.machine) && |c.members| > 1
    ensures Live(c, t') && Extends(t, t') && w in c.members && c.members <= Now(t').up
    ensures Campaigns(Now(t'), w, b) && Electable(Now(t'), w)
  {
    Knows(c, t);
    var t1 := RebootAll(c, t, c.members);
    var s1 := Now(t1);
    w := BestLog(s1, c.members);
    var bound := LastOfTerms(s1, c.members);
    t', b := Raise(c, t1, w, bound);
    var s := Now(t');
    Knows(c, t');
    forall j | 0 <= j < |s.nodes[w].peers|
      ensures var p := s.nodes[w].peers[j]; p in s.nodes && p in s.up && CanVote(s.nodes[p], s.nodes[w])
    {
      var p := s.nodes[w].peers[j];
      assert p in Elements(s.nodes[w].peers);
      assert s.nodes[p] == s1.nodes[p];
      assert w in Elements(s.nodes[p].peers);
    }
  }

  lemma AllVoted(c: Config, s: State, s0: State, w: NodeID, b: nat, p: NodeID)
    requires w in c.members && s.nodes.Keys == c.members && w in s0.nodes && Voting(s, s0, w, b, |s0.nodes[w].peers|)
    requires PeersOk(c.members, s.nodes[w]) && s.nodes[w].id == w && p in c.members && p != w
    ensures s.nodes[p].role == Follower(None, []) && s.nodes[p].term == s.nodes[w].term
  {
    assert p in Elements(s.nodes[w].peers);
    var j :| 0 <= j < |s.nodes[w].peers| && s.nodes[w].peers[j] == p;
    assert VotedAt(s, s0, w, j);
  }

  /** The votes are on their way to the candidate. */
  lemma VotesSent(s1: State, s0: State, w: NodeID, b: nat)
    requires w in s0.nodes && Voting(s1, s0, w, b, |s0.nodes[w].peers|) && Campaigns(s0, w, b)
    ensures Counting(s1, s1, w, |s0.net|, 0)
  {
    var n := s1.nodes[w];
    assert Counted(n, 0) == {w} by { assert n.peers[..0] == []; }
    forall j: nat | 0 <= j ensures VoteAt(s1, n, |s0.net|, j) {
      if j < |n.peers| { assert VotedAt(s1, s0, w, j); }
    }
  }

  lemma CrownedState(c: Config, s: State, s1: State, s0: State, w: NodeID, b: nat)
    requires w in c.members && s0.nodes.Keys == s1.nodes.Keys == c.members && c.members <= s0.up
    requires Voting(s1, s0, w, b, |s0.nodes[w].peers|) && PeersOk(c.members, s1.nodes[w]) && s1.nodes[w].id == w
    requires HasWon(s, s1, w, |s1.net| + |s1.nodes[w].peers|) && Sound(s1.nodes[w])
    ensures Crowned(c, s, w, s1.nodes[w], |s1.net| + |s1.nodes[w].peers|)
  {
    forall p | p in c.members && p != w
      ensures s.nodes[p].role == Follower(None, []) && s.nodes[p].term == s1.nodes[w].term
    {
      AllVoted(c, s1, s0, w, b, p);
    }
  }

  /** From every state of a run, the cluster can go on to have a leader. */
  lemma CanElect(c: Config, t: Trace) returns (t': Trace, w: NodeID, n: Node, e: nat)
    requires Live(c, t) && Total(c.machine) && |c.members| > 1
    ensures Live(c, t') && Extends(t, t') && Crowned(c, Now(t'), w, n, e)
  {
    var t1, b;
    t1, w, b := CanCampaign(c, t);
    var s0 := Now(t1);
    Knows(c, t1);
    var t2 := AllVote(c, t1, s0, w, b, 0);
    Knows(c, t2);
    var s1 := Now(t2);
    n, e := s1.nodes[w], |s1.net| + |s1.nodes[w].peers|;
    VotesSent(s1, s0, w, b);
    ClusterSize(c.members, n);
    t' := Elects(c, t2, s1, w, |s0.net|, 0);
    IsSound(c, t2, w);
    CrownedState(c, Now(t'), s1, s0, w, b);
  }
}
