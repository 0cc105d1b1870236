/** Election safety: at most one leader per term, over every run with lost,
    reordered and repeated messages and with restarts.

    Invariants are stated one node, message or term at a time, as
    `forall x :: P(s, x)`, so that a proof names the instances it uses. */
module RaftElection {
  import opened Basics
  import opened RaftTypes
  import opened RaftNode
  import opened RaftQuorum
  import opened RaftFacts
  import opened RaftCluster

  lemma {:induction false} DistinctSize(s: seq<NodeID>)
    requires Distinct(s)
    ensures |Elements(s)| == |s|
  {
    if s != [] {
      var rest := s[..|s| - 1];
      DistinctSize(rest);
      assert Elements(s) == Elements(rest) + {s[|s| - 1]};
      assert s[|s| - 1] !in Elements(rest);
    }
  }

  lemma ClusterSize(members: set<NodeID>, n: Node)
    requires PeersOk(members, n)
    ensures |n.peers| + 1 == |members|
  {
    DistinctSize(n.peers);
    assert members == Elements(n.peers) + {n.id};
  }

  // ---- The invariants ----

  ghost predicate MemberOk(c: Config, s: State, i: NodeID) {
    i in s.nodes ==> s.nodes[i].id == i && PeersOk(c.members, s.nodes[i])
  }

  /** Nobody speaks for a term it has not reached. */
  ghost predicate SenderOk(s: State, k: nat) {
    k < |s.net| ==> s.net[k].from in s.nodes && s.net[k].term <= s.nodes[s.net[k].from].term
  }

  ghost predicate GrantTermOk(s: State, t: Term, v: NodeID) {
    (t, v) in s.h.grants ==> v in s.nodes && t <= s.nodes[v].term
  }

  ghost predicate LeaderTermOk(s: State, t: Term) {
    t in s.h.leaders ==> s.h.leaders[t] in s.nodes && t <= s.nodes[s.h.leaders[t]].term
  }

  /** Voter v's recorded vote in term t, if any, is for candidate i, and it is
      recorded as long as the term has no leader. */
  ghost predicate GrantOk(h: History, t: Term, v: NodeID, i: NodeID) {
    && ((t, v) in h.grants ==> h.grants[(t, v)].candidate == i)
    && (t !in h.leaders ==> (t, v) in h.grants)
  }

  ghost predicate VoteOk(s: State, v: NodeID) {
    v in s.nodes ==>
      && (s.nodes[v].vote.Some? ==> GrantOk(s.h, s.nodes[v].term, v, s.nodes[v].vote.value))
      && ((s.nodes[v].term, v) in s.h.grants ==> s.nodes[v].vote.Some?)
  }

  ghost predicate VoteMessageOk(s: State, k: nat) {
    k < |s.net| && s.net[k].message == CampaignResponse(true) ==>
      && s.net[k].from in s.nodes
      && GrantOk(s.h, s.net[k].term, s.net[k].from, s.net[k].to)
      && (s.nodes[s.net[k].from].term == s.net[k].term ==> s.nodes[s.net[k].from].vote == Some(s.net[k].to))
  }

  ghost predicate CandidateOk(s: State, i: NodeID) {
    i in s.nodes && s.nodes[i].role.Candidate? ==>
      && s.nodes[i].vote == Some(i)
      && (s.nodes[i].term in s.h.leaders ==> s.h.leaders[s.nodes[i].term] != i)
      && forall v :: v in s.nodes[i].role.votes ==> v in s.nodes && GrantOk(s.h, s.nodes[i].term, v, i)
  }

  ghost predicate LeaderOk(s: State, i: NodeID) {
    i in s.nodes && s.nodes[i].role.Leader? ==>
      && s.nodes[i].vote == Some(i)
      && s.nodes[i].term in s.h.leaders && s.h.leaders[s.nodes[i].term] == i
  }

  /** The recorded voters of the leader of a term. */
  ghost function Voters(c: Config, h: History, t: Term): set<NodeID>
    requires t in h.leaders
  {
    set v | v in c.members && (t, v) in h.grants && h.grants[(t, v)].candidate == h.leaders[t]
  }

  ghost predicate QuorumOk(c: Config, h: History, t: Term) {
    t in h.leaders ==> |Voters(c, h, t)| >= QuorumSize(|c.members|)
  }

  ghost predicate ElectionInv(c: Config, s: State) {
    && s.nodes.Keys == c.members
    && (forall i :: MemberOk(c, s, i))
    && (forall k :: SenderOk(s, k))
    && (forall t, v :: GrantTermOk(s, t, v))
    && (forall t :: LeaderTermOk(s, t))
    && (forall v :: VoteOk(s, v))
    && (forall k :: VoteMessageOk(s, k))
    && (forall i :: CandidateOk(s, i))
    && (forall i :: LeaderOk(s, i))
    && (forall t :: QuorumOk(c, s.h, t))
  }

  // ---- Each step keeps them ----

  lemma MemberStep(c: Config, s: State, i: NodeID, ev: Event, e: Effect, s': State)
    requires ElectionInv(c, s) && Moves(s, i, e, s') && VoteFacts(s.nodes[i], ev, e.node)
    ensures s'.nodes.Keys == c.members && forall x :: MemberOk(c, s', x)
  {
    forall x ensures MemberOk(c, s', x) {
      assert MemberOk(c, s, x);
    }
  }

  lemma SenderStep(c: Config, s: State, i: NodeID, ev: Event, e: Effect, s': State)
    requires ElectionInv(c, s) && Moves(s, i, e, s')
    requires VoteFacts(s.nodes[i], ev, e.node) && SendFacts(s.nodes[i], ev, e)
    ensures forall k :: SenderOk(s', k)
  {
    forall k: nat ensures SenderOk(s', k) {
      assert SenderOk(s, k);
      if |s.net| <= k < |s'.net| {
        assert s'.net[k] == e.out[k - |s.net|];
        assert Sends(s.nodes[i], ev, e.node, e.out[k - |s.net|]);
      }
    }
  }

  lemma TermStep(c: Config, s: State, i: NodeID, ev: Event, e: Effect, s': State)
    requires ElectionInv(c, s) && Moves(s, i, e, s') && VoteFacts(s.nodes[i], ev, e.node)
    ensures forall t, v :: GrantTermOk(s', t, v)
    ensures forall t :: LeaderTermOk(s', t)
  {
    forall t, v ensures GrantTermOk(s', t, v) {
      assert GrantTermOk(s, t, v);
    }
    forall t ensures LeaderTermOk(s', t) {
      assert LeaderTermOk(s, t);
    }
  }

  lemma GrantKept(s: State, i: NodeID, e: Effect, s': State, t: Term, v: NodeID, x: NodeID)
    requires Moves(s, i, e, s') && GrantOk(s.h, t, v, x)
    ensures GrantOk(s'.h, t, v, x)
  {
  }

  lemma VoteStep(c: Config, s: State, i: NodeID, ev: Event, e: Effect, s': State)
    requires ElectionInv(c, s) && Moves(s, i, e, s') && VoteFacts(s.nodes[i], ev, e.node)
    ensures forall v :: VoteOk(s', v)
  {
    forall v ensures VoteOk(s', v) {
      assert VoteOk(s, v);
      assert GrantTermOk(s, e.node.term, i);
      if v in s.nodes && s.nodes[v].vote.Some? {
        GrantKept(s, i, e, s', s.nodes[v].term, v, s.nodes[v].vote.value);
      }
    }
  }

  lemma VoteMessageStep(c: Config, s: State, i: NodeID, ev: Event, e: Effect, s': State)
    requires ElectionInv(c, s) && Moves(s, i, e, s')
    requires VoteFacts(s.nodes[i], ev, e.node) && SendFacts(s.nodes[i], ev, e) && VoteOk(s', i)
    ensures forall k :: VoteMessageOk(s', k)
  {
    forall k: nat ensures VoteMessageOk(s', k) {
      assert VoteMessageOk(s, k) && SenderOk(s, k);
      if k < |s.net| && s.net[k].message == CampaignResponse(true) {
        GrantKept(s, i, e, s', s.net[k].term, s.net[k].from, s.net[k].to);
      } else if |s.net| <= k < |s'.net| {
        assert s'.net[k] == e.out[k - |s.net|];
        assert Sends(s.nodes[i], ev, e.node, e.out[k - |s.net|]);
      }
    }
  }

  lemma CountedVote(c: Config, s: State, i: NodeID, ev: Event, v: NodeID)
    requires ElectionInv(c, s) && i in s.nodes && s.nodes[i].role.Candidate?
    requires GotVote(s.nodes[i], ev) && Heard(s, i, ev)
    requires v in s.nodes[i].role.votes + {ev.msg.from}
    ensures v in s.nodes && GrantOk(s.h, s.nodes[i].term, v, i)
  {
    if v in s.nodes[i].role.votes {
      assert CandidateOk(s, i);
    } else {
      var k: nat :| k < |s.net| && s.net[k] == ev.msg;
      assert VoteMessageOk(s, k);
    }
  }

  lemma ActingCandidateStep(c: Config, s: State, i: NodeID, ev: Event, e: Effect, s': State)
    requires ElectionInv(c, s) && Moves(s, i, e, s') && Heard(s, i, ev)
    requires VoteFacts(s.nodes[i], ev, e.node) && CandidateFacts(s.nodes[i], ev, e.node) && VoteOk(s', i)
    ensures CandidateOk(s', i)
  {
    var n, n' := s.nodes[i], e.node;
    assert CandidateOk(s, i) && LeaderTermOk(s, n'.term);
    if n'.role.Candidate? {
      forall v | v in n'.role.votes ensures v in s'.nodes && GrantOk(s'.h, n'.term, v, i) {
        if n.role.Candidate? && n'.term == n.term {
          if v !in n.role.votes {
            CountedVote(c, s, i, ev, v);
          }
          GrantKept(s, i, e, s', n.term, v, i);
        }
      }
    }
  }

  lemma OtherCandidateStep(s: State, i: NodeID, e: Effect, s': State, x: NodeID)
    requires Moves(s, i, e, s') && x != i && CandidateOk(s, x)
    ensures CandidateOk(s', x)
  {
    if x in s.nodes && s.nodes[x].role.Candidate? {
      forall v | v in s.nodes[x].role.votes ensures GrantOk(s'.h, s.nodes[x].term, v, x) {
        GrantKept(s, i, e, s', s.nodes[x].term, v, x);
      }
    }
  }

  /** A node can only win a term that has no leader yet, with recorded votes. */
  lemma WinsFreshTerm(c: Config, s: State, i: NodeID, ev: Event, e: Effect, s': State) returns (q: set<NodeID>)
    requires ElectionInv(c, s) && Moves(s, i, e, s') && Heard(s, i, ev)
    requires Elected(s.nodes[i], ev, e.node)
    ensures e.node.term !in s.h.leaders && e.node.vote == Some(i)
    ensures q <= c.members && |q| >= QuorumSize(|c.members|)
    ensures forall v :: v in q ==> (e.node.term, v) in s'.h.grants && s'.h.grants[(e.node.term, v)].candidate == i
  {
    var n, n' := s.nodes[i], e.node;
    assert MemberOk(c, s, i) && CandidateOk(s, i) && QuorumOk(c, s.h, n'.term);
    ClusterSize(c.members, n);
    if n.role.Candidate? && n'.term == n.term && GotVote(n, ev) {
      q := n.role.votes + {ev.msg.from};
      forall v | v in q ensures v in s.nodes && GrantOk(s.h, n.term, v, i) {
        CountedVote(c, s, i, ev, v);
      }
      if n.term in s.h.leaders {
        var v := QuorumsMeet(c.members, q, Voters(c, s.h, n.term));
        assert false;
      }
    } else {
      q := {i};
      assert c.members == {i} by {
        assert Elements(n.peers) == {};
      }
      assert LeaderTermOk(s, n'.term) && GrantTermOk(s, n'.term, i);
    }
  }

  /** Whoever leads after a step led the same term before, or won a term that
      had no leader. */
  ghost predicate LeaderOrigin(s: State, i: NodeID, n': Node)
    requires i in s.nodes
  {
    n'.role.Leader? ==>
      || n'.term !in s.h.leaders
      || (StillLeader(s.nodes[i], n') && s.h.leaders[n'.term] == i)
  }

  lemma LeaderStepOk(c: Config, s: State, i: NodeID, ev: Event, e: Effect, s': State)
    requires ElectionInv(c, s) && Moves(s, i, e, s') && Heard(s, i, ev)
    requires VoteFacts(s.nodes[i], ev, e.node) && LeaderFacts(s.nodes[i], ev, e.node)
    ensures LeaderOrigin(s, i, e.node)
    ensures forall x :: LeaderOk(s', x)
    ensures forall t :: QuorumOk(c, s'.h, t)
  {
    var n, n' := s.nodes[i], e.node;
    assert LeaderOk(s, i);
    var q: set<NodeID> := {};
    if n'.role.Leader? && !StillLeader(n, n') {
      q := WinsFreshTerm(c, s, i, ev, e, s');
    }
    forall x ensures LeaderOk(s', x) {
      assert LeaderOk(s, x);
    }
    forall t ensures QuorumOk(c, s'.h, t) {
      assert QuorumOk(c, s.h, t);
      if t in s.h.leaders {
        SubsetSize(Voters(c, s.h, t), Voters(c, s'.h, t));
      } else if t in s'.h.leaders {
        SubsetSize(q, Voters(c, s'.h, t));
      }
    }
  }

  lemma ElectionStep(c: Config, s: State, i: NodeID, ev: Event, e: Effect, s': State)
    requires ElectionInv(c, s) && Transition(s, i, ev, e, s')
    ensures ElectionInv(c, s') && LeaderOrigin(s, i, e.node)
  {
    MemberStep(c, s, i, ev, e, s');
    SenderStep(c, s, i, ev, e, s');
    TermStep(c, s, i, ev, e, s');
    VoteStep(c, s, i, ev, e, s');
    assert VoteOk(s', i);
    VoteMessageStep(c, s, i, ev, e, s');
    ActingCandidateStep(c, s, i, ev, e, s');
    forall x ensures CandidateOk(s', x) {
      if x != i {
        assert CandidateOk(s, x);
        OtherCandidateStep(s, i, e, s', x);
      }
    }
    LeaderStepOk(c, s, i, ev, e, s');
  }

  lemma ElectionInit(c: Config, s: State)
    requires Init(c, s)
    ensures ElectionInv(c, s)
  {
  }

  lemma MembersKnown(c: Config, s: State)
    requires ElectionInv(c, s)
    ensures forall x :: x in s.nodes ==> s.nodes[x].id == x
  {
    forall x | x in s.nodes ensures s.nodes[x].id == x {
      assert MemberOk(c, s, x);
    }
  }

  lemma {:induction false} ElectionRun(c: Config, ss: seq<State>, acts: seq<Action>, j: nat)
    requires Run(c, false, ss, acts) && j < |ss|
    ensures ElectionInv(c, ss[j])
  {
    if j == 0 {
      ElectionInit(c, ss[0]);
    } else {
      ElectionRun(c, ss, acts, j - 1);
      MembersKnown(c, ss[j - 1]);
      var i, ev, e := RunStep(c, false, ss, acts, j - 1);
      ElectionStep(c, ss[j - 1], i, ev, e, ss[j]);
    }
  }

  lemma LeadersKept(s: State, i: NodeID, e: Effect, s': State)
    requires Moves(s, i, e, s') && LeaderOrigin(s, i, e.node)
    ensures forall t :: t in s.h.leaders ==> t in s'.h.leaders && s'.h.leaders[t] == s.h.leaders[t]
  {
  }

  lemma LeadersKeptAt(c: Config, ss: seq<State>, acts: seq<Action>, j: nat)
    requires Run(c, false, ss, acts) && j < |acts|
    ensures forall t :: t in ss[j].h.leaders ==>
                          t in ss[j + 1].h.leaders && ss[j + 1].h.leaders[t] == ss[j].h.leaders[t]
  {
    ElectionRun(c, ss, acts, j);
    MembersKnown(c, ss[j]);
    var i, ev, e := RunStep(c, false, ss, acts, j);
    ElectionStep(c, ss[j], i, ev, e, ss[j + 1]);
    LeadersKept(ss[j], i, e, ss[j + 1]);
  }

  lemma {:induction false} LeadersKeptRun(c: Config, ss: seq<State>, acts: seq<Action>, j: nat, j': nat, t: Term)
    requires Run(c, false, ss, acts) && j <= j' < |ss|
    requires t in ss[j].h.leaders
    ensures t in ss[j'].h.leaders && ss[j'].h.leaders[t] == ss[j].h.leaders[t]
    decreases j' - j
  {
    if j < j' {
      LeadersKeptRun(c, ss, acts, j, j' - 1, t);
      LeadersKeptAt(c, ss, acts, j' - 1);
    }
  }

  /** Election safety. Over a whole run, two nodes that ever lead the same term
      are the same node. */
  lemma ElectionSafety(c: Config, ss: seq<State>, acts: seq<Action>, j: nat, a: NodeID, j': nat, b: NodeID)
    requires Run(c, false, ss, acts) && j <= j' < |ss|
    requires a in ss[j].nodes && ss[j].nodes[a].role.Leader?
    requires b in ss[j'].nodes && ss[j'].nodes[b].role.Leader?
    requires ss[j].nodes[a].term == ss[j'].nodes[b].term
    ensures a == b
  {
    ElectionRun(c, ss, acts, j);
    ElectionRun(c, ss, acts, j');
    assert LeaderOk(ss[j], a) && LeaderOk(ss[j'], b);
    LeadersKeptRun(c, ss, acts, j, j', ss[j].nodes[a].term);
  }
}
