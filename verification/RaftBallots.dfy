/** What recorded votes say about logs: a voter's log was not newer than its
    candidate's, and the winner leads with the log it campaigned with. These
    hold over any network. */
module RaftBallots {
  import opened Basics
  import opened RaftTypes
  import opened RaftNode
  import opened RaftFacts
  import opened RaftCluster
  import opened RaftElection
  import opened RaftLogs

  ghost predicate GrantLogOk(h: History, t: Term, v: NodeID) {
    (t, v) in h.grants ==>
      var g := h.grants[(t, v)];
      && Ordered(g.log) && Known(h, g.log) && LastTerm(g.log) < t
      && (t, g.candidate) in h.grants
      && var own := h.grants[(t, g.candidate)];
         own.candidate == g.candidate && NotNewer(g.log, |own.log|, LastTerm(own.log))
  }

  ghost predicate CampaignOk(s: State, k: nat) {
    k < |s.net| && s.net[k].message.Campaign? ==>
      var o := s.net[k];
      && o.term >= 1
      && (o.term !in s.h.leaders ==> (o.term, o.from) in s.h.grants)
      && ((o.term, o.from) in s.h.grants ==>
            var g := s.h.grants[(o.term, o.from)];
            g.candidate == o.from && o.message.lastIndex == |g.log| && o.message.lastTerm == LastTerm(g.log))
  }

  ghost predicate CandidateLogOk(s: State, i: NodeID) {
    i in s.nodes && s.nodes[i].role.Candidate? && s.nodes[i].term !in s.h.leaders ==>
      && (s.nodes[i].term, i) in s.h.grants
      && s.h.grants[(s.nodes[i].term, i)] == Grant(i, s.nodes[i].log.entries)
  }

  ghost predicate LeaderBaseOk(h: History, t: Term) {
    t in h.leaders && t in h.logs ==>
      && (t, h.leaders[t]) in h.grants
      && h.grants[(t, h.leaders[t])].candidate == h.leaders[t]
      && h.grants[(t, h.leaders[t])].log <= h.logs[t]
  }

  ghost predicate BallotInv(s: State) {
    && (forall t, v :: GrantLogOk(s.h, t, v))
    && (forall k :: CampaignOk(s, k))
    && (forall i :: CandidateLogOk(s, i))
    && (forall t :: LeaderBaseOk(s.h, t))
  }

  ghost predicate GrantsKept(h: History, h': History) {
    forall t, v :: (t, v) in h.grants ==> (t, v) in h'.grants && h'.grants[(t, v)] == h.grants[(t, v)]
  }

  lemma CampaignStep(c: Config, s: State, i: NodeID, ev: Event, e: Effect, s': State, k: nat)
    requires ElectionInv(c, s) && BallotInv(s) && Moves(s, i, e, s') && SendFacts(s.nodes[i], ev, e)
    ensures CampaignOk(s', k)
  {
    assert CampaignOk(s, k);
    if |s.net| <= k < |s'.net| {
      assert s'.net[k] == e.out[k - |s.net|];
      assert Sends(s.nodes[i], ev, e.node, e.out[k - |s.net|]);
      assert GrantTermOk(s, e.node.term, i);
    }
  }

  lemma CandidateLogStep(c: Config, s: State, i: NodeID, ev: Event, e: Effect, s': State, x: NodeID)
    requires ElectionInv(c, s) && BallotInv(s) && Moves(s, i, e, s') && CandidateFacts(s.nodes[i], ev, e.node)
    requires LeaderOrigin(s, i, e.node)
    ensures CandidateLogOk(s', x)
  {
    assert CandidateLogOk(s, x) && GrantTermOk(s, e.node.term, i);
  }

  lemma LeaderBaseStep(c: Config, s: State, i: NodeID, ev: Event, e: Effect, s': State, t: Term)
    requires ElectionInv(c, s) && LogInv(s) && BallotInv(s) && Moves(s, i, e, s')
    requires LeaderFacts(s.nodes[i], ev, e.node) && LeaderOrigin(s, i, e.node) && Grows(s.h, s'.h)
    ensures LeaderBaseOk(s'.h, t)
  {
    var n' := e.node;
    assert LeaderBaseOk(s.h, t) && GrowsAt(s.h, s'.h, t) && TermLogOk(s.h, t) && LeaderOk(s, i);
    assert CandidateLogOk(s, i) && CandidateOk(s, i) && GrantTermOk(s, n'.term, i) && LeaderTermOk(s, n'.term);
  }

  /** A vote that gets recorded was cast for oneself, or for a candidate whose
      campaign message passed the up-to-date check. */
  lemma NewGrantOk(c: Config, s: State, i: NodeID, ev: Event, e: Effect, s': State)
    requires ElectionInv(c, s) && LogInv(s) && BallotInv(s) && Moves(s, i, e, s') && Heard(s, i, ev)
    requires VoteFacts(s.nodes[i], ev, e.node) && Grows(s.h, s'.h)
    requires (e.node.term, i) !in s.h.grants && (e.node.term, i) in s'.h.grants
    ensures GrantLogOk(s'.h, e.node.term, i)
  {
    var n, t := s.nodes[i], e.node.term;
    assert VoteOk(s, i) && NodeLogOk(s, i) && TermLogOk(s.h, t);
    KnownGrows(s.h, s'.h, n.log.entries);
    if n.log.entries != [] {
      assert KnownAt(s.h, n.log.entries, |n.log.entries| - 1);
    }
    if Got(ev, t) && ev.msg.message.Campaign? && e.node.vote == Some(ev.msg.from) {
      var k: nat :| k < |s.net| && s.net[k] == ev.msg;
      assert CampaignOk(s, k);
    }
  }

  lemma GrantLogStep(c: Config, s: State, i: NodeID, ev: Event, e: Effect, s': State, t: Term, v: NodeID)
    requires ElectionInv(c, s) && LogInv(s) && BallotInv(s) && Moves(s, i, e, s') && Heard(s, i, ev)
    requires VoteFacts(s.nodes[i], ev, e.node) && Grows(s.h, s'.h)
    ensures GrantLogOk(s'.h, t, v)
  {
    assert GrantLogOk(s.h, t, v);
    if (t, v) in s.h.grants {
      KnownGrows(s.h, s'.h, s.h.grants[(t, v)].log);
    } else if (t, v) in s'.h.grants {
      NewGrantOk(c, s, i, ev, e, s');
    }
  }

  lemma BallotStep(c: Config, s: State, i: NodeID, ev: Event, e: Effect, s': State)
    requires ElectionInv(c, s) && LogInv(s) && BallotInv(s)
    requires Transition(s, i, ev, e, s') && LeaderOrigin(s, i, e.node) && Grows(s.h, s'.h)
    ensures BallotInv(s') && GrantsKept(s.h, s'.h)
  {
    forall t, v ensures GrantLogOk(s'.h, t, v) { GrantLogStep(c, s, i, ev, e, s', t, v); }
    forall k: nat ensures CampaignOk(s', k) { CampaignStep(c, s, i, ev, e, s', k); }
    forall x ensures CandidateLogOk(s', x) { CandidateLogStep(c, s, i, ev, e, s', x); }
    forall t ensures LeaderBaseOk(s'.h, t) { LeaderBaseStep(c, s, i, ev, e, s', t); }
  }

  lemma BallotInit(c: Config, s: State)
    requires Init(c, s)
    ensures BallotInv(s)
  {
  }
}
