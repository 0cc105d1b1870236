/** What clients are told, at every node of a cluster: over every run with lost, reordered
    and repeated messages and with restarts, an answer is the result of the client's own
    request, and a node that does not lead only passes answers on. */
module RaftClients {
  import opened Basics
  import opened RaftTypes
  import opened RaftNode
  import opened RaftFacts
  import opened RaftRequests
  import opened RaftCluster
  import opened RaftElection
  import opened RaftLogs
  import RaftCommit

  // ---- What a node sends for clients ----

  /** An answer that a node passes on: its leader gave it, for a request that the node had
      forwarded. */
  ghost predicate Relays(n: Node, ev: Event, o: Envelope) {
    && n.role.Follower? && Got(ev, n.term) && n.role.leader == Some(ev.msg.from)
    && o.message.ClientResponse? && ev.msg.message == o.message && o.message.id in n.role.forwarded
    && o.to == n.id && o.term == n.term
  }

  /** A request that a node forwards: its client's, as it is, to the leader that it follows. */
  ghost predicate Forwards(n: Node, ev: Event, n': Node, o: Envelope) {
    && n.role.Follower? && Got(ev, n.term) && ev.msg.from == n.id
    && o.message.ClientRequest? && ev.msg.message == o.message
    && n.role.leader == Some(o.to) && o.from == n.id && o.term == n.term
    && n'.role.Follower? && o.message.id in n'.role.forwarded
  }

  ghost predicate ClientSends(m: Machine, n: Node, ev: Event, n': Node, o: Envelope) {
    match o.message
    case ClientRequest(_, _) => Forwards(n, ev, n', o)
    case ClientResponse(_, Abort) => true
    case ClientResponse(_, _) =>
      if n.role.Leader? then AnswerOk(m, n, ev, n', o) && StillLeader(n, n') && o.term == n.term
      else Relays(n, ev, o)
    case _ => true
  }

  ghost predicate AllClientSends(m: Machine, n: Node, ev: Event, e: Effect) {
    forall k :: 0 <= k < |e.out| ==> ClientSends(m, n, ev, e.node, e.out[k])
  }

  /** Nothing for clients but aborts. */
  predicate AbortsOnly(out: seq<Envelope>) {
    forall k :: 0 <= k < |out| ==>
      !out[k].message.ClientRequest? && (out[k].message.ClientResponse? ==> out[k].message.response.Abort?)
  }

  lemma FollowerSends(m: Machine, n: Node, msg: Envelope)
    requires n.role.Follower? && msg.term == n.term
    ensures AllClientSends(m, n, Receive(msg), FollowerStep(m, n, msg))
  {
  }

  /** A node that follows nobody and has forwarded nothing. */
  lemma LeaderlessSends(m: Machine, n: Node, msg: Envelope)
    requires n.role == Follower(None, [])
    ensures AbortsOnly(FollowerStep(m, n, msg).out)
  {
  }

  lemma IntoLeaderSends(n: Node)
    ensures AbortsOnly(IntoLeader(n).out)
  {
  }

  lemma CandidateSends(m: Machine, n: Node, msg: Envelope)
    requires n.role.Candidate? && msg.term == n.term
    ensures AbortsOnly(CandidateStep(m, n, msg).out)
  {
    match msg.message
    case CampaignResponse(vote) =>
      if vote { IntoLeaderSends(n.(role := Candidate(n.role.votes + {msg.from}))); }
    case _ =>
  }

  /** A leader in its term goes on leading it, forwards nothing, and sends nothing when it
      halts. */
  ghost predicate LeadsOn(n: Node, e: Effect) {
    && e.node.role.Leader? && e.node.term == n.term && (!e.ok ==> e.out == [])
    && forall k :: 0 <= k < |e.out| ==> !e.out[k].message.ClientRequest?
  }

  lemma CommitLeadsOn(m: Machine, n: Node)
    requires TracksPeers(n)
    ensures LeadsOn(n, MaybeCommitAndApply(m, n))
  {
    MaybeCommitFacts(m, n);
  }

  lemma StoredLeadsOn(m: Machine, n: Node, from: NodeID, reject: bool, lastIndex: Index, lastTerm: Term)
    requires n.role.Leader?
    ensures LeadsOn(n, LeaderAppendResponse(m, n, from, reject, lastIndex, lastTerm))
  {
    if from in n.role.progress && TracksPeers(n) && !reject {
      var p := n.role.progress[from].(last := lastIndex, next := lastIndex + 1);
      CommitLeadsOn(m, n.(role := n.role.(progress := n.role.progress[from := p])));
    }
  }

  lemma EchoLeadsOn(m: Machine, n: Node, from: NodeID, lastIndex: Index, lastTerm: Term, readSeq: nat)
    requires n.role.Leader?
    ensures LeadsOn(n, LeaderHeartbeatResponse(m, n, from, lastIndex, lastTerm, readSeq))
  {
  }

  lemma RequestLeadsOn(m: Machine, n: Node, from: NodeID, id: RequestID, request: Request)
    requires n.role.Leader?
    ensures LeadsOn(n, LeaderRequest(m, n, from, id, request))
  {
    if TracksPeers(n) && request.WriteRequest? {
      var e := Propose(n, Some(request.command));
      if e.ok {
        var writes := e.node.role.writes[|e.node.log.entries| := Write(from, id)];
        CommitLeadsOn(m, e.node.(role := e.node.role.(writes := writes)));
      }
    }
  }

  lemma LeaderLeadsOn(m: Machine, n: Node, msg: Envelope)
    requires n.role.Leader?
    ensures LeadsOn(n, LeaderStep(m, n, msg))
  {
    match msg.message
    case HeartbeatResponse(lastIndex, lastTerm, readSeq) => EchoLeadsOn(m, n, msg.from, lastIndex, lastTerm, readSeq);
    case AppendResponse(reject, lastIndex, lastTerm) => StoredLeadsOn(m, n, msg.from, reject, lastIndex, lastTerm);
    case ClientRequest(id, request) => RequestLeadsOn(m, n, msg.from, id, request);
    case _ =>
  }

  lemma LeaderSends(m: Machine, n: Node, msg: Envelope, e: Effect)
    requires n.role.Leader? && msg.term == n.term && e == LeaderStep(m, n, msg)
    ensures AllClientSends(m, n, Receive(msg), e)
  {
    LeaderLeadsOn(m, n, msg);
    if e.ok {
      LeaderAnswersOk(m, n, msg, e);
    }
  }

  lemma LeavingSends(n: Node)
    ensures AbortsOnly(LeavingTerm(n))
  {
  }

  lemma MessageSends(m: Machine, n: Node, msg: Envelope)
    ensures AllClientSends(m, n, Receive(msg), Step(m, n, msg))
  {
    var e := Step(m, n, msg);
    if msg.to != n.id || !(msg.from == n.id || msg.from in n.peers) || msg.term < n.term {
      assert e.out == [];
    } else if msg.term > n.term {
      LeavingSends(n);
      LeaderlessSends(m, DiscoverTerm(n, msg.term), msg);
    } else {
      match n.role
      case Follower(_, _) => FollowerSends(m, n, msg);
      case Candidate(_) => CandidateSends(m, n, msg);
      case Leader(_, _, _, _) => LeaderSends(m, n, msg, e);
    }
  }

  /** What any event makes a node send for clients. */
  lemma HandleSends(m: Machine, n: Node, ev: Event)
    requires Possible(n, ev)
    ensures AllClientSends(m, n, ev, Handle(m, n, ev))
  {
    match ev
    case Receive(msg) => MessageSends(m, n, msg);
    case Fire => assert AbortsOnly(Timeout(m, n).out);
    case Restart(keep) =>
      var n0 := n.(applied := n.applied[..keep], role := Follower(None, []));
      if n.peers == [] && Timeout(m, n0).ok { IntoLeaderSends(Timeout(m, n0).node); }
      assert AbortsOnly(Boot(m, n, keep).out);
  }

  // ---- Over runs ----

  /** A node's client asked this before step j. */
  ghost predicate Asked(acts: seq<Action>, j: nat, client: NodeID, id: RequestID, request: Request) {
    exists k :: 0 <= k < j && k < |acts| && acts[k] == Submit(client, id, request)
  }

  /** The answer at step k of the leader n of a term, as it is after that step. */
  ghost predicate Tells(m: Machine, acts: seq<Action>, k: nat, n: Node, client: NodeID, id: RequestID,
                        response: Response) {
    match response
    case Abort => true
    case WriteDone(outcome) => exists i :: WriteTold(m, acts, k, n, client, id, outcome, i)
    case ReadDone(outcome) =>
      exists command ::
        Asked(acts, k + 1, client, id, ReadRequest(command)) && outcome == m.read(n.applied, command)
    case StatusDone(commit, applied) =>
      Asked(acts, k + 1, client, id, StatusRequest) && commit == n.log.commitIndex && applied == |n.applied|
  }

  /** The outcome of a client's own write, which is the i-th entry and is committed. */
  ghost predicate WriteTold(m: Machine, acts: seq<Action>, k: nat, n: Node, client: NodeID, id: RequestID,
                            outcome: Outcome, i: nat) {
    && 1 <= i <= |n.applied| && i <= n.log.commitIndex && i <= |n.log.entries|
    && n.applied[i - 1] == n.log.entries[i - 1]
    && var e := n.applied[i - 1];
       && e.term == n.term && e.command.Some? && Asked(acts, k + 1, client, id, WriteRequest(e.command.value))
       && m.apply(n.applied[..i - 1], e) == Reply(outcome)
  }

  ghost predicate ToldAt(c: Config, ss: seq<State>, acts: seq<Action>, k: nat, l: NodeID, o: Envelope)
    requires o.message.ClientResponse?
  {
    && k < |acts| < |ss| && k + 1 < |ss| && l in ss[k + 1].nodes && ss[k + 1].nodes[l].role.Leader?
    && ss[k + 1].nodes[l].term == o.term
    && Tells(c.machine, acts, k, ss[k + 1].nodes[l], o.to, o.message.id, o.message.response)
  }

  /** The leader of the answer's term told this by step j. */
  ghost predicate Told(c: Config, ss: seq<State>, acts: seq<Action>, j: nat, o: Envelope)
    requires o.message.ClientResponse?
  {
    exists k: nat, l :: k < j && ToldAt(c, ss, acts, k, l, o)
  }

  // The invariants.

  ghost predicate AnswerKnown(c: Config, ss: seq<State>, acts: seq<Action>, j: nat, x: nat)
    requires j < |ss|
  {
    x < |ss[j].net| && ss[j].net[x].message.ClientResponse? && !ss[j].net[x].message.response.Abort? ==>
      Told(c, ss, acts, j, ss[j].net[x])
  }

  ghost predicate RequestKnown(ss: seq<State>, acts: seq<Action>, j: nat, x: nat)
    requires j < |ss|
  {
    x < |ss[j].net| && ss[j].net[x].message.ClientRequest? ==>
      var o := ss[j].net[x];
      && Asked(acts, j, o.from, o.message.id, o.message.request)
      && o.term in ss[j].h.leaders && o.to == ss[j].h.leaders[o.term]
  }

  ghost predicate PendingKnown(acts: seq<Action>, j: nat, n: Node) {
    n.role.Leader? ==>
      && (forall i :: i in n.role.writes ==> WriteKnown(acts, j, n, i, n.role.writes[i]))
      && (forall rd :: rd in n.role.queue ==> Asked(acts, j, rd.from, rd.id, ReadRequest(rd.command)))
  }

  /** A pending write stands at its index, as it was asked for. */
  ghost predicate WriteKnown(acts: seq<Action>, j: nat, n: Node, i: Index, w: Write) {
    && 1 <= i <= |n.log.entries| && n.log.entries[i - 1].term == n.term && n.log.entries[i - 1].command.Some?
    && Asked(acts, j, w.from, w.id, WriteRequest(n.log.entries[i - 1].command.value))
  }

  ghost predicate NodeKnown(ss: seq<State>, acts: seq<Action>, j: nat, i: NodeID)
    requires j < |ss|
  {
    i in ss[j].nodes && i in ss[j].up ==> PendingKnown(acts, j, ss[j].nodes[i])
  }

  ghost predicate ClientInv(c: Config, ss: seq<State>, acts: seq<Action>, j: nat)
    requires j < |ss|
  {
    && (forall x :: AnswerKnown(c, ss, acts, j, x))
    && (forall x :: RequestKnown(ss, acts, j, x))
    && (forall i :: NodeKnown(ss, acts, j, i))
  }

  /** The event of a step is a request that was asked for, if it is a request. */
  ghost predicate AskedEvent(acts: seq<Action>, j: nat, ev: Event) {
    ev.Receive? && ev.msg.message.ClientRequest? ==>
      Asked(acts, j, ev.msg.from, ev.msg.message.id, ev.msg.message.request)
  }

  lemma EventAsked(c: Config, ss: seq<State>, acts: seq<Action>, j: nat)
    requires j < |acts| < |ss| && ClientInv(c, ss, acts, j) && Enabled(c, false, ss[j], acts[j])
    ensures AskedEvent(acts, j + 1, EventOf(ss[j], acts[j]))
  {
    match acts[j]
    case Deliver(k) => assert RequestKnown(ss, acts, j, k);
    case Submit(i, id, request) => assert acts[j] == Submit(i, id, request);
    case _ =>
  }

  lemma AskedLater(acts: seq<Action>, j: nat, j': nat, client: NodeID, id: RequestID, request: Request)
    requires Asked(acts, j, client, id, request) && j <= j'
    ensures Asked(acts, j', client, id, request)
  {
    var k :| 0 <= k < j && k < |acts| && acts[k] == Submit(client, id, request);
    assert 0 <= k < j' && acts[k] == Submit(client, id, request);
  }

  // The acting node.

  /** A write that was pending, or was taken in this step, is known. */
  lemma WriteStaysKnown(acts: seq<Action>, j: nat, n: Node, ev: Event, n': Node, i: Index, w: Write)
    requires n.role.Leader? && StillLeader(n, n') && PendingKnown(acts, j, n) && AskedEvent(acts, j + 1, ev)
    requires n.log.entries <= n'.log.entries && WriteOf(n, ev, n', i, w)
    ensures WriteKnown(acts, j + 1, n', i, w)
  {
    if i in n.role.writes && n.role.writes[i] == w {
      assert WriteKnown(acts, j, n, i, w);
      AskedLater(acts, j, j + 1, w.from, w.id, WriteRequest(n.log.entries[i - 1].command.value));
    }
  }

  lemma ReadStaysKnown(acts: seq<Action>, j: nat, n: Node, ev: Event, rd: Read)
    requires n.role.Leader? && PendingKnown(acts, j, n) && AskedEvent(acts, j + 1, ev) && ReadOf(n, ev, rd)
    ensures Asked(acts, j + 1, rd.from, rd.id, ReadRequest(rd.command))
  {
    if rd in n.role.queue {
      AskedLater(acts, j, j + 1, rd.from, rd.id, ReadRequest(rd.command));
    }
  }

  lemma PendingStep(m: Machine, acts: seq<Action>, j: nat, n: Node, ev: Event, e: Effect)
    requires Possible(n, ev) && e == Handle(m, n, ev) && e.ok && Facts(n, ev, e)
    requires n.role.Leader? && !ev.Restart? ==> PendingKnown(acts, j, n)
    requires AskedEvent(acts, j + 1, ev)
    ensures PendingKnown(acts, j + 1, e.node)
  {
    if e.node.role.Leader? && StillLeader(n, e.node) && !ev.Restart? {
      HandleAnswersOk(m, n, ev, e);
      LogStays(n, ev, e.node);
      forall i | i in e.node.role.writes ensures WriteKnown(acts, j + 1, e.node, i, e.node.role.writes[i]) {
        WriteStaysKnown(acts, j, n, ev, e.node, i, e.node.role.writes[i]);
      }
      forall rd | rd in e.node.role.queue ensures Asked(acts, j + 1, rd.from, rd.id, ReadRequest(rd.command)) {
        ReadStaysKnown(acts, j, n, ev, rd);
      }
    } else if e.node.role.Leader? {
      FreshLeader(m, n, ev);
    }
  }

  lemma LogStays(n: Node, ev: Event, n': Node)
    requires StillLeader(n, n') && LogFacts(n, ev, n')
    ensures n.log.entries <= n'.log.entries
  {
  }

  /** Who did not lead before, or was restarted, has nothing pending. */
  lemma FreshLeader(m: Machine, n: Node, ev: Event)
    requires Possible(n, ev) && Handle(m, n, ev).node.role.Leader?
    requires ev.Restart? || !StillLeader(n, Handle(m, n, ev).node)
    ensures Handle(m, n, ev).node.role.writes == map[] && Handle(m, n, ev).node.role.queue == []
  {
    HandleFacts(m, n, ev);
  }

  /** An answer of a leader is told in the step that gives it. */
  lemma LeaderTells(m: Machine, acts: seq<Action>, j: nat, n: Node, ev: Event, n': Node, o: Envelope)
    requires n.role.Leader? && StillLeader(n, n') && PendingKnown(acts, j, n) && AskedEvent(acts, j + 1, ev)
    requires n.log.entries <= n'.log.entries && o.message.ClientResponse? && AnswerOk(m, n, ev, n', o)
    ensures Tells(m, acts, j, n', o.to, o.message.id, o.message.response)
  {
    match o.message.response
    case WriteDone(outcome) =>
      var i, w :| WriteOf(n, ev, n', i, w) && WriteResult(m, n', i, w, o);
      WriteStaysKnown(acts, j, n, ev, n', i, w);
      assert WriteTold(m, acts, j, n', o.to, o.message.id, outcome, i);
    case ReadDone(_) =>
      var rd :| ReadOf(n, ev, rd) && ReadResult(m, n', rd, o);
      ReadStaysKnown(acts, j, n, ev, rd);
    case _ =>
  }

  // The network.

  lemma ToldLater(c: Config, ss: seq<State>, acts: seq<Action>, j: nat, o: Envelope)
    requires o.message.ClientResponse? && Told(c, ss, acts, j, o)
    ensures Told(c, ss, acts, j + 1, o)
  {
    var k: nat, l :| k < j && ToldAt(c, ss, acts, k, l, o);
    assert k < j + 1 && ToldAt(c, ss, acts, k, l, o);
  }

  /** An answer passed on was told, because the leader's answer was. */
  lemma RelayIsTold(c: Config, ss: seq<State>, acts: seq<Action>, j: nat, n: Node, o: Envelope)
    requires j < |acts| < |ss| && ClientInv(c, ss, acts, j) && Enabled(c, false, ss[j], acts[j])
    requires Target(ss[j], acts[j]) == n.id && Relays(n, EventOf(ss[j], acts[j]), o) && !o.message.response.Abort?
    ensures Told(c, ss, acts, j + 1, o)
  {
    match acts[j]
    case Deliver(k) =>
      var a := ss[j].net[k];
      assert AnswerKnown(c, ss, acts, j, k);
      ToldLater(c, ss, acts, j, a);
      var k0: nat, l :| k0 < j + 1 && ToldAt(c, ss, acts, k0, l, a);
      assert ToldAt(c, ss, acts, k0, l, o);
    case _ =>
  }

  /** What the acting node answers is told. */
  lemma NewAnswer(c: Config, ss: seq<State>, acts: seq<Action>, j: nat, o: Envelope)
    requires j < |acts| < |ss| && j + 1 < |ss| && ClientInv(c, ss, acts, j) && Next(c, false, ss[j], acts[j], ss[j + 1])
    requires ss[j].nodes[Target(ss[j], acts[j])].id == Target(ss[j], acts[j])
    requires var n, ev := ss[j].nodes[Target(ss[j], acts[j])], EventOf(ss[j], acts[j]);
             o in Handle(c.machine, n, ev).out && ClientSends(c.machine, n, ev, Handle(c.machine, n, ev).node, o)
    requires o.message.ClientResponse? && !o.message.response.Abort?
    ensures Told(c, ss, acts, j + 1, o)
  {
    var i, ev := Target(ss[j], acts[j]), EventOf(ss[j], acts[j]);
    var n, n' := ss[j].nodes[i], ss[j + 1].nodes[i];
    if n.role.Leader? {
      EventAsked(c, ss, acts, j);
      assert NodeKnown(ss, acts, j, i);
      HandleFacts(c.machine, n, ev);
      RestartIsQuiet(c.machine, n, ev, o);
      LogStays(n, ev, n');
      LeaderTells(c.machine, acts, j, n, ev, n', o);
      assert ToldAt(c, ss, acts, j, i, o);
    } else {
      RelayIsTold(c, ss, acts, j, n, o);
    }
  }

  /** A restart answers nobody. */
  lemma RestartIsQuiet(m: Machine, n: Node, ev: Event, o: Envelope)
    requires Possible(n, ev) && o in Handle(m, n, ev).out && o.message.ClientResponse?
    ensures !ev.Restart?
  {
  }

  lemma AnswerStep(c: Config, ss: seq<State>, acts: seq<Action>, j: nat, x: nat)
    requires j < |acts| < |ss| && j + 1 < |ss| && ClientInv(c, ss, acts, j) && Next(c, false, ss[j], acts[j], ss[j + 1])
    requires ss[j].nodes[Target(ss[j], acts[j])].id == Target(ss[j], acts[j])
    ensures AnswerKnown(c, ss, acts, j + 1, x)
  {
    var n, ev := ss[j].nodes[Target(ss[j], acts[j])], EventOf(ss[j], acts[j]);
    if x < |ss[j].net| {
      assert AnswerKnown(c, ss, acts, j, x);
      if ss[j].net[x].message.ClientResponse? && !ss[j].net[x].message.response.Abort? {
        ToldLater(c, ss, acts, j, ss[j].net[x]);
      }
    } else if x < |ss[j + 1].net| {
      var o := ss[j + 1].net[x];
      assert o == Handle(c.machine, n, ev).out[x - |ss[j].net|];
      HandleSends(c.machine, n, ev);
      if o.message.ClientResponse? && !o.message.response.Abort? {
        NewAnswer(c, ss, acts, j, o);
      }
    }
  }

  /** What the acting node forwards was asked for. */
  lemma NewRequest(c: Config, ss: seq<State>, acts: seq<Action>, j: nat, i: NodeID, n': Node, o: Envelope)
    requires j < |acts| < |ss| && ClientInv(c, ss, acts, j) && Enabled(c, false, ss[j], acts[j])
    requires i == Target(ss[j], acts[j]) && ss[j].nodes[i].id == i && NodeLogOk(ss[j], i)
    requires Forwards(ss[j].nodes[i], EventOf(ss[j], acts[j]), n', o)
    ensures Asked(acts, j + 1, o.from, o.message.id, o.message.request)
    ensures o.term in ss[j].h.leaders && o.to == ss[j].h.leaders[o.term]
  {
    EventAsked(c, ss, acts, j);
  }

  lemma SentRequest(c: Config, ss: seq<State>, acts: seq<Action>, j: nat, o: Envelope)
    requires j < |acts| < |ss| && ClientInv(c, ss, acts, j) && Enabled(c, false, ss[j], acts[j]) && LogInv(ss[j])
    requires ss[j].nodes[Target(ss[j], acts[j])].id == Target(ss[j], acts[j]) && o.message.ClientRequest?
    requires o in Handle(c.machine, ss[j].nodes[Target(ss[j], acts[j])], EventOf(ss[j], acts[j])).out
    ensures Asked(acts, j + 1, o.from, o.message.id, o.message.request)
    ensures o.term in ss[j].h.leaders && o.to == ss[j].h.leaders[o.term]
  {
    var i, ev := Target(ss[j], acts[j]), EventOf(ss[j], acts[j]);
    var n := ss[j].nodes[i];
    HandleSends(c.machine, n, ev);
    assert NodeLogOk(ss[j], i);
    NewRequest(c, ss, acts, j, i, Handle(c.machine, n, ev).node, o);
  }

  lemma OldRequest(ss: seq<State>, acts: seq<Action>, j: nat, x: nat)
    requires j + 1 < |ss| && x < |ss[j].net| && ss[j].net <= ss[j + 1].net && RequestKnown(ss, acts, j, x)
    requires LeadersStay(ss[j].h, ss[j + 1].h)
    ensures RequestKnown(ss, acts, j + 1, x)
  {
    var o := ss[j].net[x];
    if o.message.ClientRequest? {
      AskedLater(acts, j, j + 1, o.from, o.message.id, o.message.request);
    }
  }

  lemma RequestStep(c: Config, ss: seq<State>, acts: seq<Action>, j: nat, x: nat)
    requires j < |acts| < |ss| && j + 1 < |ss| && ClientInv(c, ss, acts, j) && Next(c, false, ss[j], acts[j], ss[j + 1])
    requires ss[j].nodes[Target(ss[j], acts[j])].id == Target(ss[j], acts[j]) && LogInv(ss[j])
    requires LeadersStay(ss[j].h, ss[j + 1].h)
    ensures RequestKnown(ss, acts, j + 1, x)
  {
    if x < |ss[j].net| {
      assert RequestKnown(ss, acts, j, x);
      OldRequest(ss, acts, j, x);
    } else if x < |ss[j + 1].net| && ss[j + 1].net[x].message.ClientRequest? {
      SentRequest(c, ss, acts, j, ss[j + 1].net[x]);
    }
  }

  /** Who led a term is not forgotten. */
  ghost predicate LeadersStay(h: History, h': History) {
    forall t :: t in h.leaders ==> t in h'.leaders && h'.leaders[t] == h.leaders[t]
  }

  lemma NodeStep(c: Config, ss: seq<State>, acts: seq<Action>, j: nat, i: NodeID)
    requires j < |acts| < |ss| && j + 1 < |ss| && ClientInv(c, ss, acts, j) && Next(c, false, ss[j], acts[j], ss[j + 1])
    ensures NodeKnown(ss, acts, j + 1, i)
  {
    assert NodeKnown(ss, acts, j, i);
    var ev := EventOf(ss[j], acts[j]);
    if i == Target(ss[j], acts[j]) {
      if i in ss[j + 1].up {
        EventAsked(c, ss, acts, j);
        HandleFacts(c.machine, ss[j].nodes[i], ev);
        PendingStep(c.machine, acts, j, ss[j].nodes[i], ev, Handle(c.machine, ss[j].nodes[i], ev));
      }
    } else if i in ss[j].nodes && i in ss[j].up {
      PendingLater(acts, j, ss[j].nodes[i]);
    }
  }

  lemma PendingLater(acts: seq<Action>, j: nat, n: Node)
    requires PendingKnown(acts, j, n)
    ensures PendingKnown(acts, j + 1, n)
  {
    if n.role.Leader? {
      forall i | i in n.role.writes ensures WriteKnown(acts, j + 1, n, i, n.role.writes[i]) {
        var w := n.role.writes[i];
        assert WriteKnown(acts, j, n, i, w);
        AskedLater(acts, j, j + 1, w.from, w.id, WriteRequest(n.log.entries[i - 1].command.value));
      }
      forall rd | rd in n.role.queue ensures Asked(acts, j + 1, rd.from, rd.id, ReadRequest(rd.command)) {
        AskedLater(acts, j, j + 1, rd.from, rd.id, ReadRequest(rd.command));
      }
    }
  }

  lemma ClientStep(c: Config, ss: seq<State>, acts: seq<Action>, j: nat)
    requires Run(c, false, ss, acts) && j < |acts| && ClientInv(c, ss, acts, j) && LogInv(ss[j])
    requires forall x :: x in ss[j].nodes ==> ss[j].nodes[x].id == x
    requires LeadersStay(ss[j].h, ss[j + 1].h)
    ensures ClientInv(c, ss, acts, j + 1)
  {
    var j' := j + 1;
    assert StepAt(c, false, ss, acts, j);
    forall x: nat ensures AnswerKnown(c, ss, acts, j', x) { AnswerStep(c, ss, acts, j, x); }
    forall x: nat ensures RequestKnown(ss, acts, j', x) { RequestStep(c, ss, acts, j, x); }
    forall i ensures NodeKnown(ss, acts, j', i) { NodeStep(c, ss, acts, j, i); }
  }

  lemma {:induction false} ClientRun(c: Config, ss: seq<State>, acts: seq<Action>, j: nat)
    requires Run(c, false, ss, acts) && j < |ss|
    ensures ClientInv(c, ss, acts, j)
  {
    if j > 0 {
      ClientRun(c, ss, acts, j - 1);
      ElectionRun(c, ss, acts, j - 1);
      MembersKnown(c, ss[j - 1]);
      LogRun(c, ss, acts, j - 1);
      forall t | t in ss[j - 1].h.leaders ensures t in ss[j].h.leaders && ss[j].h.leaders[t] == ss[j - 1].h.leaders[t] {
        LeadersKeptRun(c, ss, acts, j - 1, j, t);
      }
      ClientStep(c, ss, acts, j - 1);
    }
  }

  /** Every answer other than an abort that any node ever gives is the result of the
      client's own request: at some step the leader of that term had it, a write as a
      committed entry, with this outcome; a read as its command, on what was applied; or a
      request for its status. This holds of the answer that a leader sends to a node, and
      of the one that the node passes on to its client. */
  lemma AnswerIsOwn(c: Config, ss: seq<State>, acts: seq<Action>, j: nat, o: Envelope)
    requires Run(c, false, ss, acts) && j < |ss| && o in ss[j].net
    requires o.message.ClientResponse? && !o.message.response.Abort?
    ensures Told(c, ss, acts, j, o)
  {
    ClientRun(c, ss, acts, j);
    var x: nat :| x < |ss[j].net| && ss[j].net[x] == o;
    assert AnswerKnown(c, ss, acts, j, x);
  }

  /** What is forwarded is a request as a client of the sender submitted it, to the leader
      of the term. */
  lemma ForwardIsOwn(c: Config, ss: seq<State>, acts: seq<Action>, j: nat, o: Envelope)
    requires Run(c, false, ss, acts) && j < |ss| && o in ss[j].net && o.message.ClientRequest?
    ensures Asked(acts, j, o.from, o.message.id, o.message.request)
    ensures o.term in ss[j].h.leaders && o.to == ss[j].h.leaders[o.term]
  {
    ClientRun(c, ss, acts, j);
    var x: nat :| x < |ss[j].net| && ss[j].net[x] == o;
    assert RequestKnown(ss, acts, j, x);
  }

  /** A node that does not lead answers other than with an abort only its own client, for a
      request that it had forwarded, and with what the leader of its term had sent it. */
  lemma RelayIsExact(c: Config, ss: seq<State>, acts: seq<Action>, j: nat, i: NodeID, o: Envelope)
    requires Run(c, false, ss, acts) && j < |acts| && i in ss[j].nodes && !ss[j].nodes[i].role.Leader?
    requires ss[j].net <= ss[j + 1].net && o in ss[j + 1].net[|ss[j].net|..] && o.from == i
    requires o.message.ClientResponse? && !o.message.response.Abort?
    ensures o.to == i && o.term == ss[j].nodes[i].term && o.term in ss[j].h.leaders
    ensures Envelope(ss[j].h.leaders[o.term], i, o.term, o.message) in ss[j].net
    ensures ss[j].nodes[i].role.Follower? && o.message.id in ss[j].nodes[i].role.forwarded
  {
    ElectionRun(c, ss, acts, j);
    MembersKnown(c, ss[j]);
    LogRun(c, ss, acts, j);
    assert StepAt(c, false, ss, acts, j);
    var x, ev := Target(ss[j], acts[j]), EventOf(ss[j], acts[j]);
    var n, e := ss[j].nodes[x], Handle(c.machine, ss[j].nodes[x], ev);
    HandleFacts(c.machine, n, ev);
    HandleSends(c.machine, n, ev);
    var k: nat :| k < |e.out| && e.out[k] == o;
    assert Sends(n, ev, e.node, e.out[k]);
    assert ClientSends(c.machine, n, ev, e.node, e.out[k]);
    assert NodeLogOk(ss[j], i);
  }

  /** The entry at a position, wherever a node has applied that far or leads at least the
      term of the entry. */
  ghost predicate HasEntry(n: Node, i: nat, e: Entry) {
    && (1 <= i <= |n.applied| ==> n.applied[i - 1] == e)
    && (n.role.Leader? && n.term >= e.term ==> 1 <= i <= |n.log.entries| && n.log.entries[i - 1] == e)
  }

  /** Acknowledged writes are durable. In an in-order run, a write that any node ever told
      its client to be done is an entry with the client's command, at a position that every
      node from then on has it at, across restarts: whoever has applied that far applied
      it there, and whoever leads has it in its log. */
  lemma AcknowledgedWrite(c: Config, ss: seq<State>, acts: seq<Action>, j: nat, o: Envelope, j': nat, b: NodeID)
    returns (i: nat, e: Entry)
    requires Run(c, true, ss, acts) && j <= j' < |ss| && o in ss[j].net && b in ss[j'].nodes
    requires o.message.ClientResponse? && o.message.response.WriteDone?
    ensures i >= 1 && e.term == o.term && e.command.Some?
    ensures Asked(acts, j, o.to, o.message.id, WriteRequest(e.command.value))
    ensures HasEntry(ss[j'].nodes[b], i, e)
  {
    InOrderIsAny(c, ss, acts);
    AnswerIsOwn(c, ss, acts, j, o);
    var k: nat, l :| k < j && ToldAt(c, ss, acts, k, l, o);
    i :| WriteTold(c.machine, acts, k, ss[k + 1].nodes[l], o.to, o.message.id, o.message.response.outcome, i);
    e := ss[k + 1].nodes[l].applied[i - 1];
    AskedLater(acts, k + 1, j, o.to, o.message.id, WriteRequest(e.command.value));
    EntryStays(c, ss, acts, k + 1, l, i, j', b);
  }

  /** An entry of its own term that a leader has committed and applied. */
  lemma EntryStays(c: Config, ss: seq<State>, acts: seq<Action>, k: nat, l: NodeID, i: nat, j': nat, b: NodeID)
    requires Run(c, true, ss, acts) && k <= j' < |ss| && l in ss[k].nodes && b in ss[j'].nodes
    requires var n := ss[k].nodes[l];
             && 1 <= i <= |n.applied| && i <= n.log.commitIndex && i <= |n.log.entries|
             && n.applied[i - 1] == n.log.entries[i - 1] && n.log.entries[i - 1].term == n.term
    ensures HasEntry(ss[j'].nodes[b], i, ss[k].nodes[l].applied[i - 1])
  {
    var n := ss[k].nodes[l];
    RaftCommit.StateMachineSafety(c, ss, acts, k, l, j', b);
    if ss[j'].nodes[b].role.Leader? && ss[j'].nodes[b].term >= n.term {
      RaftCommit.CommitRun(c, ss, acts, k);
      assert NodeLogOk(ss[k], l) && RaftCommit.NodeCommitOk(c, ss[k], l);
      RaftCommit.CommitTermBound(c, ss[k], l);
      RaftCommit.LeaderCompleteness(c, ss, acts, k, l, j', b);
      assert n.log.entries[..n.log.commitIndex][i - 1] == n.applied[i - 1];
    }
  }
}
