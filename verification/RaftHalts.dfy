/** When a node halts. The program asserts much about the messages it gets. Over every run
    with in-order links, and a state machine that succeeds, exactly one kind of event makes
    an assertion fail or an error return: a restarted node gets what was sent to it for its
    part in the term that it is still in. */
module RaftHalts {
  import opened Basics
  import opened RaftTypes
  import opened RaftNode
  import opened RaftQuorum
  import opened RaftFacts
  import opened RaftCluster
  import opened RaftElection
  import opened RaftLogs
  import opened RaftAcks
  import opened RaftCommit
  import opened RaftReads
  import opened RaftClients
  import opened RaftLinks

  /** A node that knows no leader of its term gets a response to a leader, an answer for a
      client, or another node's request. */
  predicate Stray(n: Node, ev: Event) {
    && ev.Receive? && ev.msg.term == n.term && n.role.Follower? && n.role.leader.None?
    && match ev.msg.message
       case HeartbeatResponse(_, _, _) => true
       case AppendResponse(_, _, _) => true
       case ClientResponse(_, _) => true
       case ClientRequest(_, _) => ev.msg.from != n.id
       case _ => false
  }

  lemma StrayHalts(m: Machine, n: Node, ev: Event)
    requires Stray(n, ev)
    ensures !Handle(m, n, ev).ok
  {
  }

  // ---- What never halts ----

  /** What a node has applied it has committed, and what it has committed it has. */
  predicate Stored(n: Node) {
    |n.applied| <= n.log.commitIndex <= |n.log.entries|
  }

  /** A leader can send every peer its log, and no peer has more. */
  predicate Tracking(n: Node) {
    && TracksPeers(n)
    && forall p :: p in n.peers ==>
         n.role.progress[p].next <= |n.log.entries| + 1 && n.role.progress[p].last <= |n.log.entries|
  }

  lemma {:induction false} AppliesTotal(m: Machine, es: seq<Entry>, applied: seq<Entry>, upto: nat)
    requires Total(m) && upto <= |es|
    ensures ApplyUpTo(m, es, applied, upto).1 && |ApplyUpTo(m, es, applied, upto).0| >= |applied|
    decreases upto - |applied|
  {
    if |applied| < upto {
      assert m.apply(applied, es[|applied|]).Reply?;
      AppliesTotal(m, es, applied + [es[|applied|]], upto);
    }
  }

  lemma ApplyRuns(m: Machine, n: Node)
    requires Total(m) && |n.applied| <= n.log.commitIndex
    ensures MaybeApply(m, n).1 && |MaybeApply(m, n).0.applied| >= |n.applied|
  {
    AppliesTotal(m, n.log.entries, n.applied, Applicable(n.log));
  }

  lemma CommitRuns(m: Machine, n: Node)
    requires Total(m) && Stored(n) && Tracking(n)
    ensures MaybeCommitAndApply(m, n).ok
  {
    var xs := LastIndexes(n);
    var q := QuorumValue(xs);
    QuorumValueMeaning(xs);
    assert q <= |n.log.entries| by {
      var k :| 0 <= k < |xs| && xs[k] == q;
      assert k < |n.peers| ==> n.peers[k] in n.peers;
    }
    if q > n.log.commitIndex {
      ApplyRuns(m, n.(log := n.log.(commitIndex := q, commitTerm := n.term)));
    }
  }

  lemma StoredRuns(m: Machine, n: Node, from: NodeID, reject: bool, lastIndex: Index, lastTerm: Term)
    requires Total(m) && Stored(n) && Tracking(n) && from in n.peers
    requires !reject ==> lastIndex <= |n.log.entries| && lastTerm <= LastTerm(n.log.entries)
    ensures LeaderAppendResponse(m, n, from, reject, lastIndex, lastTerm).ok
  {
    if !reject {
      var p := n.role.progress[from].(last := lastIndex, next := lastIndex + 1);
      CommitRuns(m, n.(role := n.role.(progress := n.role.progress[from := p])));
    }
  }

  lemma ProposeRuns(n: Node, command: Option<Command>)
    requires Tracking(n)
    ensures Propose(n, command).ok
    ensures var n' := Propose(n, command).node;
            n'.log.entries[..|n.log.entries|] == n.log.entries && |n'.log.entries| == |n.log.entries| + 1
            && n' == n.(log := n.log.(entries := n'.log.entries))
  {
  }

  lemma WriteRuns(m: Machine, n: Node, from: NodeID, id: RequestID, command: Command)
    requires Total(m) && Stored(n) && Tracking(n)
    ensures LeaderRequest(m, n, from, id, WriteRequest(command)).ok
  {
    ProposeRuns(n, Some(command));
    var e := Propose(n, Some(command));
    var writes := e.node.role.writes[|e.node.log.entries| := Write(from, id)];
    CommitRuns(m, e.node.(role := e.node.role.(writes := writes)));
  }

  /** What a leader can get in its term. */
  predicate Fitting(n: Node, msg: Envelope)
    requires n.role.Leader?
  {
    match msg.message
    case Heartbeat(_, _, _) => false
    case Append(_, _, _) => false
    case ClientResponse(_, _) => false
    case HeartbeatResponse(_, _, readSeq) => msg.from in n.peers && readSeq <= n.role.readSeq
    case AppendResponse(reject, lastIndex, lastTerm) =>
      && msg.from in n.peers
      && (!reject ==> lastIndex <= |n.log.entries| && lastTerm <= LastTerm(n.log.entries))
    case _ => true
  }

  lemma LeaderRuns(m: Machine, n: Node, msg: Envelope)
    requires Total(m) && Stored(n) && Tracking(n) && Fitting(n, msg)
    ensures LeaderStep(m, n, msg).ok
  {
    match msg.message
    case AppendResponse(reject, lastIndex, lastTerm) => StoredRuns(m, n, msg.from, reject, lastIndex, lastTerm);
    case ClientRequest(id, request) =>
      if request.WriteRequest? { WriteRuns(m, n, msg.from, id, request.command); }
    case _ =>
  }

  /** What a follower can get in its term. */
  predicate Followed(n: Node, msg: Envelope)
    requires n.role.Follower?
  {
    match msg.message
    case Heartbeat(_, _, _) => n.role.leader.None? || n.role.leader == Some(msg.from)
    case Append(base, term, es) =>
      && (n.role.leader.None? || n.role.leader == Some(msg.from))
      && (base == 0 || Has(n.log.entries, base, term) ==> Splice(n.log.entries, n.log.commitIndex, es).Some?)
    case ClientRequest(_, _) => msg.from == n.id
    case ClientResponse(_, _) => n.role.leader == Some(msg.from)
    case HeartbeatResponse(_, _, _) => false
    case AppendResponse(_, _, _) => false
    case _ => true
  }

  lemma FollowerRuns(m: Machine, n: Node, msg: Envelope)
    requires Total(m) && Stored(n) && n.role.Follower? && Followed(n, msg)
    ensures FollowerStep(m, n, msg).ok
  {
    match msg.message
    case Heartbeat(commitIndex, commitTerm, readSeq) =>
      if Has(n.log.entries, commitIndex, commitTerm) && commitIndex > n.log.commitIndex {
        var f := Follow(n, msg.from).node;
        ApplyRuns(m, f.(log := n.log.(commitIndex := commitIndex, commitTerm := commitTerm)));
      }
    case _ =>
  }

  lemma WinRuns(n: Node)
    ensures IntoLeader(n).ok
  {
    var progress := map p | p in n.peers :: Progress(|n.log.entries| + 1, 0, 0);
    ProposeRuns(n.(role := Leader(progress, map[], [], 0)), None);
  }

  lemma CandidateRuns(m: Machine, n: Node, msg: Envelope)
    requires Total(m) && Stored(n) && n.role.Candidate?
    requires !msg.message.HeartbeatResponse? && !msg.message.AppendResponse? && !msg.message.ClientResponse?
    requires Followed(n.(role := Follower(Some(msg.from), [])), msg) || !(msg.message.Heartbeat? || msg.message.Append?)
    ensures CandidateStep(m, n, msg).ok
  {
    match msg.message
    case Heartbeat(_, _, _) => FollowerRuns(m, n.(role := Follower(Some(msg.from), [])), msg);
    case Append(_, _, _) => FollowerRuns(m, n.(role := Follower(Some(msg.from), [])), msg);
    case CampaignResponse(vote) => WinRuns(n.(role := Candidate(n.role.votes + {msg.from})));
    case _ =>
  }

  lemma TimerRuns(m: Machine, n: Node)
    requires Total(m) && Stored(n)
    ensures Timeout(m, n).ok
  {
    ApplyRuns(m, n);
  }

  lemma BootRuns(m: Machine, n: Node, keep: nat)
    requires Total(m) && Stored(n) && keep <= |n.applied|
    ensures Boot(m, n, keep).ok
  {
    var n0 := n.(applied := n.applied[..keep], role := Follower(None, []));
    TimerRuns(m, n0);
    WinRuns(Timeout(m, n0).node);
  }

  // ---- What a node can get ----

  ghost predicate Sound(c: Config, s: State) {
    ElectionInv(c, s) && LogInv(s) && AckInv(s) && CommitInv(c, s) && ReadInv(s) && LinkInv(s)
  }

  /** The message that node i gets from another. */
  ghost predicate Gets(s: State, i: NodeID, k: nat) {
    k < |s.net| && i in s.nodes && s.net[k].to == i && s.net[k].from != i
  }

  /** Splicing an Append that the base check lets through returns no error. */
  predicate Spliceable(n: Node, msg: Message) {
    msg.Append? && (msg.baseIndex == 0 || Has(n.log.entries, msg.baseIndex, msg.baseTerm)) ==>
      Splice(n.log.entries, n.log.commitIndex, msg.entries).Some?
  }

  lemma PeerSends(c: Config, s: State, i: NodeID, k: nat)
    requires Sound(c, s) && Gets(s, i, k)
    ensures s.nodes[i].id == i && s.net[k].from in s.nodes[i].peers
  {
    assert MemberOk(c, s, i) && SenderOk(s, k);
    assert s.net[k].from in Elements(s.nodes[i].peers);
  }

  lemma NodeStored(c: Config, s: State, i: NodeID)
    requires Sound(c, s) && i in s.nodes
    ensures Stored(s.nodes[i])
  {
    assert NodeCommitOk(c, s, i);
  }

  lemma LeaderTracks(c: Config, s: State, i: NodeID)
    requires Sound(c, s) && i in s.nodes && s.nodes[i].role.Leader?
    ensures Tracking(s.nodes[i])
  {
    var n := s.nodes[i];
    assert NodeLogOk(s, i) && ProgressOk(s, i, i);
    forall p | p in n.peers
      ensures n.role.progress[p].next <= |n.log.entries| + 1 && n.role.progress[p].last <= |n.log.entries|
    {
      assert ProgressOk(s, i, p) && AckOk(s, n.term, p);
    }
  }

  /** An echoed number was given to a read by this leader. */
  lemma EchoWithin(c: Config, s: State, i: NodeID, k: nat)
    requires Sound(c, s) && Gets(s, i, k) && s.nodes[i].role.Leader? && s.net[k].term == s.nodes[i].term
    requires s.net[k].message.HeartbeatResponse?
    ensures s.net[k].message.readSeq <= s.nodes[i].role.readSeq
  {
    var r := s.net[k].message.readSeq;
    assert EchoOk(s, k) && NewestMarkOk(s, i, r);
    assert EchoedAt(s.h, s.nodes[i].term, r, s.net[k].from, r);
  }

  /** What a peer acknowledged is in this leader's log. */
  lemma AckWithin(c: Config, s: State, i: NodeID, k: nat)
    requires Sound(c, s) && Gets(s, i, k) && s.nodes[i].role.Leader? && s.net[k].term == s.nodes[i].term
    requires s.net[k].message.AppendResponse? && !s.net[k].message.reject
    ensures s.net[k].message.lastIndex <= |s.nodes[i].log.entries|
    ensures s.net[k].message.lastTerm <= LastTerm(s.nodes[i].log.entries)
  {
    var t := s.nodes[i].term;
    assert AckMessageOk(s, k) && AckOk(s, t, s.net[k].from) && NodeLogOk(s, i) && LinkOk(s, k) && TermLogOk(s.h, t);
  }

  lemma LeaderGets(c: Config, s: State, i: NodeID, k: nat)
    requires Sound(c, s) && Gets(s, i, k) && s.nodes[i].role.Leader? && s.net[k].term == s.nodes[i].term
    ensures Fitting(s.nodes[i], s.net[k])
  {
    PeerSends(c, s, i, k);
    assert LeaderOk(s, i) && MessageOk(s, k) && LinkOk(s, k);
    match s.net[k].message
    case HeartbeatResponse(_, _, _) => EchoWithin(c, s, i, k);
    case AppendResponse(reject, _, _) =>
      if !reject { AckWithin(c, s, i, k); }
    case _ =>
  }

  lemma FollowerGets(c: Config, s: State, i: NodeID, k: nat)
    requires Sound(c, s) && Gets(s, i, k) && s.nodes[i].role.Follower? && s.net[k].term == s.nodes[i].term
    requires Spliceable(s.nodes[i], s.net[k].message) && !Stray(s.nodes[i], Receive(s.net[k]))
    ensures Followed(s.nodes[i], s.net[k])
  {
    PeerSends(c, s, i, k);
    assert NodeLogOk(s, i) && MessageOk(s, k) && LinkOk(s, k) && FollowsOther(s, i);
  }

  /** A node that forwarded a request in a term is past its candidacy in that term. */
  lemma ForwarderIsPast(c: Config, s: State, i: NodeID, t: Term)
    requires Sound(c, s) && i in s.nodes && HasForwarded(s, i, t)
    ensures Past(s.nodes[i], t) && t in s.h.leaders
  {
    var k: nat :| ForwardAt(s, k, i, t);
    assert LinkOk(s, k);
  }

  /** What is only sent to a leader, or to who forwarded, is not of a term to come, nor one
      in which the node is a candidate. */
  lemma OthersGet(c: Config, s: State, i: NodeID, k: nat)
    requires Sound(c, s) && Gets(s, i, k) && s.net[k].term >= s.nodes[i].term
    requires s.net[k].term == s.nodes[i].term ==> s.nodes[i].role.Candidate?
    ensures var m := s.net[k].message;
            !m.HeartbeatResponse? && !m.AppendResponse? && !m.ClientRequest? && !m.ClientResponse?
  {
    var o := s.net[k];
    assert LinkOk(s, k) && LeaderTermOk(s, o.term) && CandidateOk(s, i);
    if o.message.ClientResponse? {
      ForwarderIsPast(c, s, i, o.term);
    }
  }

  lemma RoleRuns(c: Config, s: State, i: NodeID, k: nat)
    requires Sound(c, s) && Total(c.machine) && Gets(s, i, k) && s.net[k].term == s.nodes[i].term
    requires Spliceable(s.nodes[i], s.net[k].message) && !Stray(s.nodes[i], Receive(s.net[k]))
    ensures RoleStep(c.machine, s.nodes[i], s.net[k]).ok
  {
    var n, o := s.nodes[i], s.net[k];
    NodeStored(c, s, i);
    match n.role
    case Follower(_, _) =>
      FollowerGets(c, s, i, k);
      FollowerRuns(c.machine, n, o);
    case Candidate(_) =>
      OthersGet(c, s, i, k);
      CandidateRuns(c.machine, n, o);
    case Leader(_, _, _, _) =>
      LeaderTracks(c, s, i);
      LeaderGets(c, s, i, k);
      LeaderRuns(c.machine, n, o);
  }

  lemma DeliverRuns(c: Config, s: State, i: NodeID, k: nat)
    requires Sound(c, s) && Total(c.machine) && Gets(s, i, k)
    requires s.net[k].term >= s.nodes[i].term ==> Spliceable(s.nodes[i], s.net[k].message)
    requires !Stray(s.nodes[i], Receive(s.net[k]))
    ensures Step(c.machine, s.nodes[i], s.net[k]).ok
  {
    var n, o := s.nodes[i], s.net[k];
    PeerSends(c, s, i, k);
    if o.term == n.term {
      RoleRuns(c, s, i, k);
    } else if o.term > n.term {
      NodeStored(c, s, i);
      OthersGet(c, s, i, k);
      FollowerRuns(c.machine, DiscoverTerm(n, o.term), o);
    }
  }

  lemma SubmitRuns(c: Config, s: State, i: NodeID, id: RequestID, request: Request)
    requires Sound(c, s) && Total(c.machine) && i in s.nodes
    ensures Step(c.machine, s.nodes[i], Envelope(i, i, s.nodes[i].term, ClientRequest(id, request))).ok
  {
    var n, o := s.nodes[i], Envelope(i, i, s.nodes[i].term, ClientRequest(id, request));
    assert MemberOk(c, s, i);
    NodeStored(c, s, i);
    match n.role
    case Leader(_, _, _, _) =>
      LeaderTracks(c, s, i);
      LeaderRuns(c.machine, n, o);
    case _ =>
  }

  // ---- The theorem ----

  lemma SoundRun(c: Config, ss: seq<State>, acts: seq<Action>, j: nat)
    requires Run(c, true, ss, acts) && j < |ss|
    ensures Sound(c, ss[j])
  {
    CommitRun(c, ss, acts, j);
    InOrderIsAny(c, ss, acts);
    ReadRun(c, ss, acts, j);
    LinkRun(c, ss, acts, j);
  }

  lemma DeliveredSplices(c: Config, ss: seq<State>, acts: seq<Action>, j: nat, i: NodeID, k: nat)
    requires Run(c, true, ss, acts) && j < |ss| && Gets(ss[j], i, k) && ss[j].net[k].term >= ss[j].nodes[i].term
    ensures Spliceable(ss[j].nodes[i], ss[j].net[k].message)
  {
    var a := ss[j].net[k].message;
    if a.Append? && (a.baseIndex == 0 || Has(ss[j].nodes[i].log.entries, a.baseIndex, a.baseTerm)) {
      SpliceNeverFails(c, ss, acts, j, i, k);
    }
  }

  /** Over every run with in-order links, a node halts in a step if and only if it gets a
      stray message. */
  lemma HaltsIff(c: Config, ss: seq<State>, acts: seq<Action>, j: nat)
    requires Run(c, true, ss, acts) && Total(c.machine) && j < |acts|
    ensures Enabled(c, true, ss[j], acts[j])
    ensures var i := Target(ss[j], acts[j]);
            i in ss[j + 1].up <==> !Stray(ss[j].nodes[i], EventOf(ss[j], acts[j]))
  {
    SoundRun(c, ss, acts, j);
    assert StepAt(c, true, ss, acts, j);
    var s, i := ss[j], Target(ss[j], acts[j]);
    match acts[j]
    case Deliver(k) =>
      if s.net[k].term >= s.nodes[i].term { DeliveredSplices(c, ss, acts, j, i, k); }
      if !Stray(s.nodes[i], Receive(s.net[k])) { DeliverRuns(c, s, i, k); }
    case Submit(_, id, request) =>
      assert MemberOk(c, s, i);
      SubmitRuns(c, s, i, id, request);
    case Expire(_) =>
      NodeStored(c, s, i);
      TimerRuns(c.machine, s.nodes[i]);
    case Reboot(_, keep) =>
      NodeStored(c, s, i);
      BootRuns(c.machine, s.nodes[i], keep);
  }

  // ---- Without restarts ----

  /** No node boots twice. */
  ghost predicate OneBoot(acts: seq<Action>) {
    forall j, k :: 0 <= j < k < |acts| && acts[j].Reboot? && acts[k].Reboot? ==> acts[j].node != acts[k].node
  }

  ghost predicate Booted(acts: seq<Action>, j: nat, i: NodeID) {
    exists k :: 0 <= k < j && k < |acts| && acts[k].Reboot? && acts[k].node == i
  }

  /** The node has had no part in its term other than voting. */
  ghost predicate NoPart(s: State, i: NodeID) {
    i in s.nodes ==> !LedBy(s, s.nodes[i].term, i) && !HasForwarded(s, i, s.nodes[i].term)
  }

  ghost predicate FirstLife(s: State, i: NodeID, booted: bool) {
    && (i in s.up ==> booted)
    && (i in s.nodes && !booted ==> s.nodes[i].term == 0)
    && (i in s.nodes && i in s.up && s.nodes[i].role.Follower? && s.nodes[i].role.leader.None? ==> NoPart(s, i))
  }

  /** How a node comes to know no leader of its term. */
  lemma LeaderlessOrigin(m: Machine, n: Node, ev: Event)
    requires Possible(n, ev) && !ev.Restart?
    ensures var n' := Handle(m, n, ev).node;
            n'.role.Follower? && n'.role.leader.None? ==>
              n'.term > n.term || (n.role.Follower? && n.role.leader.None? && n'.term == n.term)
  {
    if ev.Receive? {
      if n.role.Leader? && ev.msg.term == n.term {
        LeaderLeadsOn(m, n, ev.msg);
      } else if n.role.Follower? {
        FollowerStays(m, n, ev.msg, FollowerStep(m, n, ev.msg));
      }
      if ev.msg.term > n.term {
        var d := DiscoverTerm(n, ev.msg.term);
        FollowerStays(m, d, ev.msg, FollowerStep(m, d, ev.msg));
      }
    }
  }

  /** Nothing has happened in term 0. */
  lemma TermZero(c: Config, s: State, i: NodeID)
    requires Sound(c, s) && i in s.nodes && s.nodes[i].term == 0
    ensures NoPart(s, i) && !(s.nodes[i].role.Follower? && s.nodes[i].role.leader.Some?)
  {
    assert TermLogOk(s.h, 0) && NodeLogOk(s, i);
    if HasForwarded(s, i, 0) {
      ForwarderIsPast(c, s, i, 0);
    }
  }

  /** A node has had no part in terms to come. */
  lemma LaterTerm(c: Config, s: State, i: NodeID, t: Term)
    requires Sound(c, s) && i in s.nodes && t > s.nodes[i].term
    ensures !LedBy(s, t, i) && !HasForwarded(s, i, t)
  {
    assert LeaderTermOk(s, t);
    if HasForwarded(s, i, t) {
      ForwarderIsPast(c, s, i, t);
    }
  }

  /** A request is forwarded by a follower that has a leader, in its term. */
  lemma NewForward(m: Machine, s: State, i: NodeID, ev: Event, e: Effect, s': State, k: nat, x: NodeID, t: Term)
    requires Acts(m, s, i, ev, e, s') && |s.net| <= k && ForwardAt(s', k, x, t)
    ensures x == i && t == s.nodes[i].term && s.nodes[i].role.Follower? && s.nodes[i].role.leader.Some?
  {
    HandleSends(m, s.nodes[i], ev);
    assert ClientSends(m, s.nodes[i], ev, e.node, e.out[k - |s.net|]);
  }

  lemma PartTaken(m: Machine, s: State, i: NodeID, ev: Event, e: Effect, s': State, x: NodeID, t: Term)
    requires Acts(m, s, i, ev, e, s') && (x == i ==> e.node.role.Follower?)
    requires x == i && t == s.nodes[i].term ==> !(s.nodes[i].role.Follower? && s.nodes[i].role.leader.Some?)
    requires !LedBy(s, t, x) && !HasForwarded(s, x, t)
    ensures !LedBy(s', t, x) && !HasForwarded(s', x, t)
  {
    if HasForwarded(s', x, t) {
      var k: nat :| ForwardAt(s', k, x, t);
      if k < |s.net| {
        assert ForwardAt(s, k, x, t);
      } else {
        NewForward(m, s, i, ev, e, s', k, x, t);
      }
    }
  }

  lemma FirstLifeStep(c: Config, s: State, i: NodeID, ev: Event, e: Effect, s': State, b: bool)
    requires Acts(c.machine, s, i, ev, e, s') && Sound(c, s) && FirstLife(s, i, b) && (ev.Restart? ==> !b)
    ensures FirstLife(s', i, true)
  {
    var n, n' := s.nodes[i], e.node;
    if e.ok && n'.role.Follower? && n'.role.leader.None? {
      if ev.Restart? {
        TermZero(c, s, i);
      } else {
        LeaderlessOrigin(c.machine, n, ev);
        if n'.term > n.term { LaterTerm(c, s, i, n'.term); }
      }
      PartTaken(c.machine, s, i, ev, e, s', i, n'.term);
    }
  }

  lemma OtherLifeStep(c: Config, s: State, i: NodeID, ev: Event, e: Effect, s': State, x: NodeID, b: bool)
    requires Acts(c.machine, s, i, ev, e, s') && FirstLife(s, x, b) && x != i
    ensures FirstLife(s', x, b)
  {
    if x in s.nodes && NoPart(s, x) {
      PartTaken(c.machine, s, i, ev, e, s', x, s.nodes[x].term);
    }
  }

  lemma BootedNext(acts: seq<Action>, j: nat, x: NodeID)
    requires j < |acts|
    ensures Booted(acts, j + 1, x) <==> Booted(acts, j, x) || (acts[j].Reboot? && acts[j].node == x)
    ensures OneBoot(acts) && acts[j].Reboot? && acts[j].node == x ==> !Booted(acts, j, x)
  {
    if Booted(acts, j, x) {
      var k :| 0 <= k < j && k < |acts| && acts[k].Reboot? && acts[k].node == x;
      assert 0 <= k < j + 1 && acts[k].Reboot?;
    }
  }

  lemma {:induction false} FirstLifeRun(c: Config, ss: seq<State>, acts: seq<Action>, j: nat, x: NodeID)
    requires Run(c, true, ss, acts) && OneBoot(acts) && j < |ss|
    ensures FirstLife(ss[j], x, Booted(acts, j, x))
  {
    if j > 0 {
      FirstLifeRun(c, ss, acts, j - 1, x);
      SoundRun(c, ss, acts, j - 1);
      assert StepAt(c, true, ss, acts, j - 1);
      var i, ev, e := NextActs(c, true, ss[j - 1], acts[j - 1], ss[j]);
      BootedNext(acts, j - 1, x);
      if x == i {
        FirstLifeStep(c, ss[j - 1], i, ev, e, ss[j], Booted(acts, j - 1, x));
      } else {
        OtherLifeStep(c, ss[j - 1], i, ev, e, ss[j], x, Booted(acts, j - 1, x));
      }
    }
  }

  /** A node that has had no part in its term gets nothing stray. */
  lemma NothingStray(c: Config, s: State, a: Action)
    requires Sound(c, s) && Enabled(c, true, s, a)
    requires var n := s.nodes[Target(s, a)];
             n.role.Follower? && n.role.leader.None? ==> a.Reboot? || NoPart(s, Target(s, a))
    ensures !Stray(s.nodes[Target(s, a)], EventOf(s, a))
  {
    assert MemberOk(c, s, Target(s, a));
    if a.Deliver? {
      assert LinkOk(s, a.k);
    }
  }

  /** As long as no node restarts, none ever halts. */
  lemma NeverHalts(c: Config, ss: seq<State>, acts: seq<Action>, j: nat)
    requires Run(c, true, ss, acts) && Total(c.machine) && OneBoot(acts) && j < |acts|
    ensures Enabled(c, true, ss[j], acts[j])
    ensures ss[j + 1].up == ss[j].up + {Target(ss[j], acts[j])}
  {
    HaltsIff(c, ss, acts, j);
    SoundRun(c, ss, acts, j);
    FirstLifeRun(c, ss, acts, j, Target(ss[j], acts[j]));
    NothingStray(c, ss[j], acts[j]);
    assert StepAt(c, true, ss, acts, j);
  }
}
