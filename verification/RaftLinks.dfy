/** Who answers whom: over every run, responses go to the leader of their term, and a leader
    answers, besides its own clients, only nodes that forwarded a request to it. */
module RaftLinks {
  import opened Basics
  import opened RaftTypes
  import opened RaftNode
  import opened RaftFacts
  import opened RaftCluster
  import opened RaftElection
  import opened RaftLogs
  import opened RaftRequests
  import opened RaftClients

  // ---- One step ----

  /** Answers to other nodes come from a leader, in its term. A candidate only answers whom
      it has a request from, and a follower only its own client. */
  ghost predicate Addressed(n: Node, ev: Event, o: Envelope) {
    o.message.ClientResponse? && o.to != n.id ==>
      && o.term == n.term
      && (n.role.Leader? || (&& n.role.Candidate? && Got(ev, n.term) && ev.msg.message.ClientRequest?
                             && ev.msg.from == o.to))
  }

  ghost predicate AllAddressed(n: Node, ev: Event, out: seq<Envelope>) {
    forall k :: 0 <= k < |out| ==> Addressed(n, ev, out[k])
  }

  ghost predicate OwnAnswers(n: Node, out: seq<Envelope>) {
    forall k :: 0 <= k < |out| && out[k].message.ClientResponse? ==> out[k].to == n.id
  }

  lemma FollowerAddresses(m: Machine, n: Node, msg: Envelope)
    requires n.role.Follower?
    ensures OwnAnswers(n, FollowerStep(m, n, msg).out)
  {
  }

  lemma CandidateAddresses(m: Machine, n: Node, msg: Envelope)
    requires n.role.Candidate? && msg.term == n.term
    ensures AllAddressed(n, Receive(msg), CandidateStep(m, n, msg).out)
  {
    match msg.message
    case Heartbeat(_, _, _) => FollowerAddresses(m, n.(role := Follower(Some(msg.from), [])), msg);
    case Append(_, _, _) => FollowerAddresses(m, n.(role := Follower(Some(msg.from), [])), msg);
    case CampaignResponse(vote) =>
      assert CandidateStep(m, n, msg).ok ==> Quiet(CandidateStep(m, n, msg).out);
    case _ =>
  }

  lemma LeaderAddresses(m: Machine, n: Node, msg: Envelope, e: Effect)
    requires n.role.Leader? && msg.term == n.term && e == LeaderStep(m, n, msg)
    ensures AllAddressed(n, Receive(msg), e.out)
  {
    LeaderLeadsOn(m, n, msg);
    if e.ok {
      LeaderAnswersOk(m, n, msg, e);
      forall k | 0 <= k < |e.out| ensures Addressed(n, Receive(msg), e.out[k]) {
        assert AnswerOk(m, n, Receive(msg), e.node, e.out[k]);
      }
    }
  }

  lemma LeavingAddresses(m: Machine, n: Node, msg: Envelope, e: Effect)
    requires msg.term > n.term && e == Step(m, n, msg)
    ensures AllAddressed(n, Receive(msg), e.out)
  {
    FollowerAddresses(m, DiscoverTerm(n, msg.term), msg);
  }

  lemma StepAddresses(m: Machine, n: Node, msg: Envelope, e: Effect)
    requires e == Step(m, n, msg)
    ensures AllAddressed(n, Receive(msg), e.out)
  {
    if msg.to != n.id || !(msg.from == n.id || msg.from in n.peers) || msg.term < n.term {
      assert e.out == [];
    } else if msg.term > n.term {
      LeavingAddresses(m, n, msg, e);
    } else {
      match n.role
      case Follower(_, _) => FollowerAddresses(m, n, msg);
      case Candidate(_) => CandidateAddresses(m, n, msg);
      case Leader(_, _, _, _) => LeaderAddresses(m, n, msg, e);
    }
  }

  lemma HandleAddresses(m: Machine, n: Node, ev: Event)
    requires Possible(n, ev)
    ensures AllAddressed(n, ev, Handle(m, n, ev).out)
  {
    match ev
    case Receive(msg) => StepAddresses(m, n, msg, Step(m, n, msg));
    case Fire => assert OwnAnswers(n, Timeout(m, n).out);
    case Restart(keep) => assert OwnAnswers(n, Boot(m, n, keep).out);
  }

  /** Answers to an Append carry the term of the last entry. */
  ghost predicate LastSent(n': Node, out: seq<Envelope>) {
    forall k :: 0 <= k < |out| && out[k].message.AppendResponse? ==>
      out[k].message.lastTerm == LastTerm(n'.log.entries)
  }

  lemma FollowerLastSent(m: Machine, n: Node, msg: Envelope)
    requires n.role.Follower?
    ensures LastSent(FollowerStep(m, n, msg).node, FollowerStep(m, n, msg).out)
  {
  }

  lemma CandidateLastSent(m: Machine, n: Node, msg: Envelope)
    requires n.role.Candidate?
    ensures LastSent(CandidateStep(m, n, msg).node, CandidateStep(m, n, msg).out)
  {
    if msg.message.Heartbeat? || msg.message.Append? {
      FollowerLastSent(m, n.(role := Follower(Some(msg.from), [])), msg);
    }
  }

  lemma HandleLastSent(m: Machine, n: Node, ev: Event)
    requires Possible(n, ev) && SendFacts(n, ev, Handle(m, n, ev))
    ensures LastSent(Handle(m, n, ev).node, Handle(m, n, ev).out)
  {
    match ev
    case Receive(msg) =>
      if msg.term > n.term {
        FollowerLastSent(m, DiscoverTerm(n, msg.term), msg);
      } else {
        match n.role
        case Follower(_, _) => FollowerLastSent(m, n, msg);
        case Candidate(_) => CandidateLastSent(m, n, msg);
        case Leader(_, _, _, _) => LeaderLeadsOn(m, n, msg);
      }
    case Fire =>
    case Restart(keep) =>
  }

  // ---- Over runs ----

  ghost predicate LedBy(s: State, t: Term, x: NodeID) {
    t in s.h.leaders && s.h.leaders[t] == x
  }

  /** A request that node x forwarded in a term, at position k of what was sent. */
  ghost predicate ForwardAt(s: State, k: nat, x: NodeID, t: Term) {
    k < |s.net| && s.net[k].message.ClientRequest? && s.net[k].from == x && s.net[k].term == t
  }

  ghost predicate HasForwarded(s: State, x: NodeID, t: Term) {
    exists k: nat :: ForwardAt(s, k, x, t)
  }

  /** The node can no longer be a candidate in a term. */
  predicate Past(n: Node, t: Term) {
    n.term > t || (n.term == t && !n.role.Candidate?)
  }

  ghost predicate EnvelopeOk(s: State, o: Envelope) {
    match o.message
    case HeartbeatResponse(_, _, _) => LedBy(s, o.term, o.to)
    case AppendResponse(_, _, lastTerm) => LedBy(s, o.term, o.to) && lastTerm <= o.term
    case ClientRequest(_, _) => LedBy(s, o.term, o.to) && o.from in s.nodes && Past(s.nodes[o.from], o.term)
    case ClientResponse(_, _) => o.from == o.to || (LedBy(s, o.term, o.from) && HasForwarded(s, o.to, o.term))
    case _ => true
  }

  ghost predicate LinkOk(s: State, k: nat) {
    k < |s.net| ==> EnvelopeOk(s, s.net[k])
  }

  /** Whoever waits for a leader has forwarded a request to it. */
  ghost predicate OwedOk(s: State, i: NodeID, t: Ticket) {
    i in s.nodes && i in s.up && s.nodes[i].role.Leader? && Pending(s.nodes[i], t) > 0 ==>
      t.from == i || HasForwarded(s, t.from, s.nodes[i].term)
  }

  ghost predicate LoggedOk(s: State, i: NodeID) {
    i in s.nodes && i in s.up ==> WritesLogged(s.nodes[i])
  }

  ghost predicate FollowsOther(s: State, i: NodeID) {
    i in s.nodes && s.nodes[i].role.Follower? ==> s.nodes[i].role.leader != Some(i)
  }

  ghost predicate LinkInv(s: State) {
    && (forall k: nat :: LinkOk(s, k))
    && (forall i, t :: OwedOk(s, i, t))
    && (forall i :: LoggedOk(s, i))
    && (forall i :: FollowsOther(s, i))
  }

  /** One step of node i, and the request in it. */
  ghost predicate Acts(m: Machine, s: State, i: NodeID, ev: Event, e: Effect, s': State) {
    && Transition(s, i, ev, e, s') && e == Handle(m, s.nodes[i], ev)
    && s'.up == (if e.ok then s.up + {i} else s.up - {i}) && (!ev.Restart? ==> i in s.up)
    && (ev.Receive? && ev.msg.message.ClientRequest? ==> ev.msg.from == i || (ev.msg in s.net && ev.msg.to == i))
  }

  ghost predicate LeadersStay(s: State, s': State) {
    forall t :: t in s.h.leaders ==> t in s'.h.leaders && s'.h.leaders[t] == s.h.leaders[t]
  }

  lemma ForwardStays(s: State, s': State, x: NodeID, t: Term)
    requires s.net <= s'.net && HasForwarded(s, x, t)
    ensures HasForwarded(s', x, t)
  {
    var k: nat :| ForwardAt(s, k, x, t);
    assert ForwardAt(s', k, x, t);
  }

  lemma PastStays(s: State, i: NodeID, ev: Event, e: Effect, s': State, x: NodeID, t: Term)
    requires Transition(s, i, ev, e, s') && x in s.nodes && Past(s.nodes[x], t)
    ensures x in s'.nodes && Past(s'.nodes[x], t)
  {
  }

  lemma EnvelopeStays(s: State, i: NodeID, ev: Event, e: Effect, s': State, o: Envelope)
    requires Transition(s, i, ev, e, s') && LeadersStay(s, s') && EnvelopeOk(s, o)
    ensures EnvelopeOk(s', o)
  {
    match o.message
    case ClientRequest(_, _) => PastStays(s, i, ev, e, s', o.from, o.term);
    case ClientResponse(_, _) =>
      if o.from != o.to { ForwardStays(s, s', o.to, o.term); }
    case _ =>
  }

  /** A request from another node is one that it forwarded in this term. */
  lemma RequestForwarded(m: Machine, c: Config, s: State, i: NodeID, ev: Event, e: Effect, s': State)
    requires Acts(m, s, i, ev, e, s') && ElectionInv(c, s) && LinkInv(s)
    requires ev.Receive? && ev.msg.message.ClientRequest? && ev.msg.from != i && ev.msg.term >= s.nodes[i].term
    ensures ev.msg.term == s.nodes[i].term && LedBy(s, ev.msg.term, i) && HasForwarded(s, ev.msg.from, ev.msg.term)
  {
    var k :| 0 <= k < |s.net| && s.net[k] == ev.msg;
    assert LinkOk(s, k) && LeaderTermOk(s, ev.msg.term);
    assert ForwardAt(s, k, ev.msg.from, ev.msg.term);
  }

  lemma {:induction false} AnsweredOne(out: seq<Envelope>, k: nat)
    requires k < |out| && out[k].message.ClientResponse?
    ensures Answered(out, Ticket(out[k].to, out[k].message.id)) > 0
  {
    if k < |out| - 1 {
      AnsweredOne(out[..|out| - 1], k);
    }
  }

  /** What a leader takes is its own client's, or was forwarded to it. */
  lemma TakenForwarded(m: Machine, c: Config, s: State, i: NodeID, ev: Event, e: Effect, s': State, t: Ticket)
    requires Acts(m, s, i, ev, e, s') && ElectionInv(c, s) && LinkInv(s)
    requires Taken(s.nodes[i], ev, t) > 0
    ensures t.from == i || HasForwarded(s, t.from, s.nodes[i].term)
  {
    if t.from != i {
      RequestForwarded(m, c, s, i, ev, e, s');
    }
  }

  /** Whoever a running leader answers, or keeps waiting, has forwarded a request to it. */
  lemma LeaderOwes(m: Machine, c: Config, s: State, i: NodeID, ev: Event, e: Effect, s': State, t: Ticket)
    requires Acts(m, s, i, ev, e, s') && ElectionInv(c, s) && LinkInv(s)
    requires s.nodes[i].role.Leader? && !ev.Restart? && e.ok
    requires Pending(e.node, t) + Answered(e.out, t) > 0
    ensures t.from == i || HasForwarded(s, t.from, s.nodes[i].term)
    ensures e.node.role.Leader? ==> StillLeader(s.nodes[i], e.node) && WritesLogged(e.node)
  {
    assert LoggedOk(s, i) && OwedOk(s, i, t);
    HandleBalance(m, s.nodes[i], ev, e, t);
    if Taken(s.nodes[i], ev, t) > 0 {
      TakenForwarded(m, c, s, i, ev, e, s', t);
    }
  }

  /** A node that halts sends nothing. */
  lemma HaltsSilently(m: Machine, n: Node, ev: Event)
    requires Possible(n, ev) && !Handle(m, n, ev).ok
    ensures Handle(m, n, ev).out == []
  {
    if ev.Receive? && n.role.Leader? && ev.msg.term == n.term {
      LeaderLeadsOn(m, n, ev.msg);
    }
  }

  lemma BootIsQuiet(m: Machine, n: Node, keep: nat)
    requires keep <= |n.applied|
    ensures Quiet(Boot(m, n, keep).out)
  {
    var n0 := n.(applied := n.applied[..keep], role := Follower(None, []));
    if n.peers == [] && Timeout(m, n0).ok { IntoLeaderSends(Timeout(m, n0).node); }
  }

  /** What a node answers another is of its leadership, and to someone who forwarded. */
  lemma NewAnswerOk(m: Machine, c: Config, s: State, i: NodeID, ev: Event, e: Effect, s': State, k: nat)
    requires Acts(m, s, i, ev, e, s') && ElectionInv(c, s) && LinkInv(s)
    requires k < |e.out| && e.out[k].message.ClientResponse? && e.out[k].from == i && e.out[k].to != i
    ensures LedBy(s, e.out[k].term, i) && HasForwarded(s, e.out[k].to, e.out[k].term)
  {
    var n, o := s.nodes[i], e.out[k];
    HandleAddresses(m, n, ev);
    assert Addressed(n, ev, o) && LeaderOk(s, i) && CandidateOk(s, i);
    if n.role.Candidate? {
      RequestForwarded(m, c, s, i, ev, e, s');
    } else {
      if ev.Restart? { BootIsQuiet(m, n, ev.keep); }
      if !e.ok { HaltsSilently(m, n, ev); }
      AnsweredOne(e.out, k);
      LeaderOwes(m, c, s, i, ev, e, s', Ticket(o.to, o.message.id));
    }
  }

  /** What a node sends in answer to a leader goes to the leader of the term. */
  lemma NewResponseOk(s: State, i: NodeID, ev: Event, e: Effect, s': State, k: nat)
    requires Transition(s, i, ev, e, s') && LogInv(s) && NodeLogOk(s', i) && LastSent(e.node, e.out)
    requires k < |e.out| && (e.out[k].message.HeartbeatResponse? || e.out[k].message.AppendResponse?)
    ensures EnvelopeOk(s, e.out[k])
  {
    var o := e.out[k];
    assert Sends(s.nodes[i], ev, e.node, o);
    var x :| 0 <= x < |s.net| && s.net[x] == ev.msg;
    assert MessageOk(s, x);
  }

  lemma NewForwardOk(s: State, m: Machine, i: NodeID, ev: Event, e: Effect, s': State, k: nat)
    requires Transition(s, i, ev, e, s') && LogInv(s) && LeadersStay(s, s')
    requires k < |e.out| && e.out[k].message.ClientRequest? && ClientSends(m, s.nodes[i], ev, e.node, e.out[k])
    ensures EnvelopeOk(s', e.out[k])
  {
    assert NodeLogOk(s, i);
  }

  lemma NewEnvelopeOk(m: Machine, c: Config, s: State, i: NodeID, ev: Event, e: Effect, s': State, k: nat)
    requires Acts(m, s, i, ev, e, s') && ElectionInv(c, s) && LogInv(s) && LinkInv(s)
    requires LeadersStay(s, s') && NodeLogOk(s', i) && k < |e.out|
    ensures EnvelopeOk(s', e.out[k])
  {
    var o := e.out[k];
    assert Sends(s.nodes[i], ev, e.node, o);
    match o.message
    case HeartbeatResponse(_, _, _) =>
      HandleLastSent(m, s.nodes[i], ev);
      NewResponseOk(s, i, ev, e, s', k);
    case AppendResponse(_, _, _) =>
      HandleLastSent(m, s.nodes[i], ev);
      NewResponseOk(s, i, ev, e, s', k);
    case ClientRequest(_, _) =>
      HandleSends(m, s.nodes[i], ev);
      NewForwardOk(s, m, i, ev, e, s', k);
    case ClientResponse(_, _) =>
      if o.to != i {
        NewAnswerOk(m, c, s, i, ev, e, s', k);
        ForwardStays(s, s', o.to, o.term);
      }
    case _ =>
  }

  lemma LinkStep(m: Machine, c: Config, s: State, i: NodeID, ev: Event, e: Effect, s': State, k: nat)
    requires Acts(m, s, i, ev, e, s') && ElectionInv(c, s) && LogInv(s) && LinkInv(s)
    requires LeadersStay(s, s') && NodeLogOk(s', i)
    ensures LinkOk(s', k)
  {
    if k < |s.net| {
      assert LinkOk(s, k);
      EnvelopeStays(s, i, ev, e, s', s.net[k]);
    } else if k < |s'.net| {
      NewEnvelopeOk(m, c, s, i, ev, e, s', k - |s.net|);
    }
  }

  /** A node that has just won, or was restarted, owes nothing. */
  lemma {:induction false} NothingPending(n: Node, hi: nat, t: Ticket)
    requires n.role.Leader? && n.role.writes == map[] && n.role.queue == []
    ensures PendingWrites(n.role.writes, 0, hi, t) + PendingReads(n.role.queue, t) == 0
  {
    if hi > 0 {
      NothingPending(n, hi - 1, t);
    }
  }

  lemma OwedActing(m: Machine, c: Config, s: State, i: NodeID, ev: Event, e: Effect, s': State, t: Ticket)
    requires Acts(m, s, i, ev, e, s') && ElectionInv(c, s) && LinkInv(s)
    ensures OwedOk(s', i, t) && LoggedOk(s', i)
  {
    if e.ok && e.node.role.Leader? {
      if ev.Restart? || !StillLeader(s.nodes[i], e.node) {
        FreshLeader(m, s.nodes[i], ev);
        NothingPending(e.node, |e.node.log.entries|, t);
      } else {
        assert LoggedOk(s, i);
        HandleBalance(m, s.nodes[i], ev, e, t);
        if Pending(e.node, t) > 0 {
          LeaderOwes(m, c, s, i, ev, e, s', t);
          if t.from != i { ForwardStays(s, s', t.from, e.node.term); }
        }
      }
    }
  }

  lemma OwedStep(m: Machine, c: Config, s: State, i: NodeID, ev: Event, e: Effect, s': State, x: NodeID, t: Ticket)
    requires Acts(m, s, i, ev, e, s') && ElectionInv(c, s) && LinkInv(s)
    ensures OwedOk(s', x, t) && LoggedOk(s', x)
  {
    if x == i {
      OwedActing(m, c, s, i, ev, e, s', t);
    } else {
      assert OwedOk(s, x, t) && LoggedOk(s, x);
      if x in s.nodes && HasForwarded(s, t.from, s.nodes[x].term) {
        ForwardStays(s, s', t.from, s.nodes[x].term);
      }
    }
  }

  lemma FollowsStep(s: State, i: NodeID, ev: Event, e: Effect, s': State, x: NodeID)
    requires Transition(s, i, ev, e, s') && FollowsOther(s, x)
    ensures FollowsOther(s', x)
  {
  }

  lemma LinkInvStep(m: Machine, c: Config, s: State, i: NodeID, ev: Event, e: Effect, s': State)
    requires Acts(m, s, i, ev, e, s') && ElectionInv(c, s) && LogInv(s) && LinkInv(s)
    requires LeadersStay(s, s') && LogInv(s')
    ensures LinkInv(s')
  {
    assert NodeLogOk(s', i);
    forall k: nat ensures LinkOk(s', k) {
      LinkStep(m, c, s, i, ev, e, s', k);
    }
    forall x, t ensures OwedOk(s', x, t) && LoggedOk(s', x) {
      OwedStep(m, c, s, i, ev, e, s', x, t);
    }
    forall x ensures LoggedOk(s', x) {
      OwedStep(m, c, s, i, ev, e, s', x, Ticket(0, []));
    }
    forall x ensures FollowsOther(s', x) {
      FollowsStep(s, i, ev, e, s', x);
    }
  }

  lemma NextActs(c: Config, inOrder: bool, s: State, a: Action, s': State) returns (i: NodeID, ev: Event, e: Effect)
    requires Next(c, inOrder, s, a, s') && ElectionInv(c, s)
    ensures i == Target(s, a) && ev == EventOf(s, a) && Acts(c.machine, s, i, ev, e, s')
  {
    i, ev := Target(s, a), EventOf(s, a);
    e := Handle(c.machine, s.nodes[i], ev);
    assert MemberOk(c, s, i);
    HandleFacts(c.machine, s.nodes[i], ev);
  }

  lemma LinkAt(c: Config, ss: seq<State>, acts: seq<Action>, j: nat)
    requires Run(c, false, ss, acts) && j < |acts| && ElectionInv(c, ss[j]) && LogInv(ss[j]) && LinkInv(ss[j])
    requires LeadersStay(ss[j], ss[j + 1]) && LogInv(ss[j + 1])
    ensures LinkInv(ss[j + 1])
  {
    assert StepAt(c, false, ss, acts, j);
    var i, ev, e := NextActs(c, false, ss[j], acts[j], ss[j + 1]);
    LinkInvStep(c.machine, c, ss[j], i, ev, e, ss[j + 1]);
  }

  lemma {:induction false} LinkRun(c: Config, ss: seq<State>, acts: seq<Action>, j: nat)
    requires Run(c, false, ss, acts) && j < |ss|
    ensures LinkInv(ss[j])
  {
    if j > 0 {
      LinkRun(c, ss, acts, j - 1);
      LogRun(c, ss, acts, j - 1);
      LogRun(c, ss, acts, j);
      LeadersKeptAt(c, ss, acts, j - 1);
      LinkAt(c, ss, acts, j - 1);
    }
  }
}
