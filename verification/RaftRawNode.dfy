/** The Raft node as it runs: an object that updates its term, role, log and
    state machine in place and pushes messages onto a channel. Every method is
    proved to compute the step functions that the cluster model runs. */
module RaftRawNode {
  import opened Basics
  import opened RaftTypes
  import opened RaftNode
  import RaftLog

  /** What a method did agrees with an effect. After a halt only the durable part
      of the node counts, and nothing that was sent. */
  ghost predicate Performed(e: Effect, ok: bool, node: Node, before: seq<Envelope>, after: seq<Envelope>) {
    && ok == e.ok
    && if ok then node == e.node && after == before + e.out else node.(role := e.node.role) == e.node
  }

  /** Sending something first, and then performing an effect. */
  lemma PerformedAfter(e: Effect, ok: bool, node: Node, first: seq<Envelope>, before: seq<Envelope>,
                       after: seq<Envelope>)
    requires Performed(e, ok, node, before + first, after)
    ensures Performed(Emit(e, first), ok, node, before, after)
  {
  }

  /** The answer to the writer of the entry at an index, if one waits. */
  function ReplyTo(id: NodeID, term: Term, writes: map<Index, Write>, index: Index, outcome: Outcome): seq<Envelope> {
    if index in writes then
      [Envelope(id, writes[index].from, term, ClientResponse(writes[index].id, WriteDone(outcome)))]
    else []
  }

  /** The writes left after those in (lo, hi] were answered. */
  function Unanswered(writes: map<Index, Write>, lo: nat, hi: nat): map<Index, Write> {
    map i | i in writes && !(lo < i <= hi) :: writes[i]
  }

  /** Between two moments of applying, the writes at the newly applied indexes
      were answered and nothing else of the role changed. */
  ghost predicate Replied(m: Machine, id: NodeID, term: Term, role0: Role, applied0: seq<Entry>, sent0: seq<Envelope>,
                          role: Role, applied: seq<Entry>, sent: seq<Envelope>)
  {
    && role0.Leader? && |applied0| <= |applied|
    && role == role0.(writes := Unanswered(role0.writes, |applied0|, |applied|))
    && sent == sent0 + Replies(m, id, term, role0.writes, applied, |applied0|)
  }

  /** One more entry applied, and its writer answered. */
  lemma RepliedNext(m: Machine, id: NodeID, term: Term, role0: Role, applied0: seq<Entry>, sent0: seq<Envelope>,
                    role: Role, applied: seq<Entry>, sent: seq<Envelope>, x: Entry, role': Role, sent': seq<Envelope>)
    requires Replied(m, id, term, role0, applied0, sent0, role, applied, sent)
    requires m.apply(applied, x).Reply? && role' == role.(writes := role.writes - {|applied| + 1})
    requires sent' == sent + ReplyTo(id, term, role.writes, |applied| + 1, m.apply(applied, x).outcome)
    ensures Replied(m, id, term, role0, applied0, sent0, role', applied + [x], sent')
  {
    RepliesExtend(m, id, term, role0.writes, applied, x, |applied0|);
  }

  /** The state machine after applying what is committed. */
  ghost function ApplyCommitted(m: Machine, log: Log, applied: seq<Entry>): (seq<Entry>, bool) {
    if log.commitIndex < |applied| then (applied, false) else ApplyUpTo(m, log.entries, applied, Applicable(log))
  }

  /** The first k peers can be sent their logs. */
  ghost predicate CanSendTo(n: Node, k: nat)
    requires k <= |n.peers|
  {
    k == 0 || (CanSendTo(n, k - 1) && CanSend(n, n.peers[k - 1]))
  }

  ghost function SendLogs(n: Node, k: nat): seq<Envelope>
    requires k <= |n.peers| && CanSendTo(n, k)
  {
    if k == 0 then [] else SendLogs(n, k - 1) + [SendLog(n, n.peers[k - 1])]
  }

  lemma {:induction false} SendLogsAre(n: Node, k: nat)
    requires k <= |n.peers|
    ensures CanSendTo(n, k) <==> forall p :: p in n.peers[..k] ==> CanSend(n, p)
    ensures CanSendTo(n, k) ==>
              && |SendLogs(n, k)| == k
              && forall j :: 0 <= j < k ==> CanSend(n, n.peers[j]) && SendLogs(n, k)[j] == SendLog(n, n.peers[j])
  {
    if k > 0 {
      SendLogsAre(n, k - 1);
      assert n.peers[..k] == n.peers[..k - 1] + [n.peers[k - 1]];
    }
  }

  /** Proposing, given what became of sending the longer log to every peer. */
  lemma ProposeIs(n: Node, command: Option<Command>, n': Node)
    requires n.role.Leader?
    requires n' == n.(log := n.log.(entries := n.log.entries + [Entry(|n.log.entries| + 1, n.term, command)]))
    ensures Propose(n, command)
            == if CanSendTo(n', |n.peers|) then Effect(n', SendLogs(n', |n.peers|), true) else Halt(n')
  {
    SendLogsAre(n', |n.peers|);
    assert n.peers[..|n.peers|] == n.peers;
  }

  lemma {:induction false} CannotSend(n: Node, k: nat, k': nat)
    requires k <= k' <= |n.peers| && !CanSendTo(n, k)
    ensures !CanSendTo(n, k')
    decreases k' - k
  {
    if k < k' {
      CannotSend(n, k, k' - 1);
    }
  }

  lemma {:induction false} RepliesExtend(m: Machine, id: NodeID, term: Term, writes: map<Index, Write>,
                                         applied: seq<Entry>, x: Entry, lo: nat)
    requires lo <= |applied| && m.apply(applied, x).Reply?
    ensures Replies(m, id, term, writes, applied + [x], lo)
            == Replies(m, id, term, writes, applied, lo)
            + ReplyTo(id, term, writes, |applied| + 1, m.apply(applied, x).outcome)
    decreases |applied| - lo
  {
    var longer := applied + [x];
    if lo == |applied| {
      assert longer[..lo] == applied;
      assert Replies(m, id, term, writes, longer, lo + 1) == [];
    } else {
      RepliesExtend(m, id, term, writes, applied, x, lo + 1);
      assert longer[..lo] == applied[..lo];
    }
  }

  /** The answers to executed reads. */
  function ReadAnswers(m: Machine, id: NodeID, term: Term, applied: seq<Entry>, queue: seq<Read>): seq<Envelope> {
    seq(|queue|, i requires 0 <= i < |queue| =>
          Envelope(id, queue[i].from, term, ClientResponse(queue[i].id, ReadDone(m.read(applied, queue[i].command)))))
  }

  function WriteAborts(id: NodeID, term: Term, ws: seq<Write>): seq<Envelope> {
    seq(|ws|, i requires 0 <= i < |ws| => Envelope(id, ws[i].from, term, ClientResponse(ws[i].id, Abort)))
  }

  function ReadAborts(id: NodeID, term: Term, queue: seq<Read>): seq<Envelope> {
    seq(|queue|, i requires 0 <= i < |queue| => Envelope(id, queue[i].from, term, ClientResponse(queue[i].id, Abort)))
  }

  class RawNode {
    const id: NodeID
    const peers: seq<NodeID>
    const log: RaftLog.Log
    var term: Term
    var applied: seq<Entry>
    var role: Role
    var sent: seq<Envelope>

    ghost predicate Valid()
      reads this, log
    {
      log.Valid() && log.GetTerm().0 == term
    }

    ghost function Value(): Node
      requires Valid()
      reads this, log
    {
      Node(id, peers, term, log.GetTerm().1, log.Value(), applied, role)
    }

    /** A leaderless follower on what the log and the state machine kept. */
    constructor (id: NodeID, peers: seq<NodeID>, log: RaftLog.Log, applied: seq<Entry>)
      requires log.Valid()
      ensures Valid() && this.log == log && sent == []
      ensures Value() == Node(id, peers, log.GetTerm().0, log.GetTerm().1, log.Value(), applied, Follower(None, []))
    {
      this.id, this.peers, this.log, this.applied := id, peers, log, applied;
      term := log.GetTerm().0;
      role := Follower(None, []);
      sent := [];
    }

    // ---- Sending ----

    method Send(to: NodeID, message: Message)
      modifies this`sent
      ensures sent == old(sent) + [Envelope(id, to, term, message)]
    {
      sent := sent + [Envelope(id, to, term, message)];
    }

    method BroadcastAll(message: Message)
      requires Valid()
      modifies this`sent
      ensures sent == old(sent) + Broadcast(Value(), message)
    {
      ghost var all := Broadcast(Value(), message);
      for i := 0 to |peers|
        invariant sent == old(sent) + all[..i]
      {
        Send(peers[i], message);
      }
    }

    method AbortForwarded(ids: seq<RequestID>)
      requires Valid()
      modifies this`sent
      ensures sent == old(sent) + Aborts(Value(), ids)
    {
      ghost var all := Aborts(Value(), ids);
      for i := 0 to |ids|
        invariant sent == old(sent) + all[..i]
      {
        Send(id, ClientResponse(ids[i], Abort));
      }
    }

    // ---- Applying ----

    method MaybeApply(m: Machine) returns (ok: bool)
      requires Valid()
      modifies this`applied
      ensures Valid() && (Value(), ok) == RaftNode.MaybeApply(m, old(Value()))
    {
      if log.commitIndex < |applied| {
        return false;
      }
      ghost var es, upto := log.entries, Applicable(log.Value());
      while |applied| < log.commitIndex && |applied| < log.lastIndex
        invariant ApplyUpTo(m, es, applied, upto) == ApplyUpTo(m, es, old(applied), upto)
        decreases log.commitIndex - |applied|
      {
        var entry := log.Get(|applied| + 1);
        match m.apply(applied, entry.value) {
          case InternalError => return false;
          case Reply(_) => applied := applied + [entry.value];
        }
      }
      ok := true;
    }

    /** Applies one entry and answers the writer waiting for it, if any. */
    method ApplyNext(m: Machine, entry: Entry) returns (ok: bool)
      requires role.Leader?
      modifies this`applied, this`role, this`sent
      ensures ok == m.apply(old(applied), entry).Reply?
      ensures ok ==>
                && applied == old(applied) + [entry]
                && role == old(role).(writes := old(role).writes - {|applied|})
                && sent == old(sent)
                + ReplyTo(id, term, old(role).writes, |applied|, m.apply(old(applied), entry).outcome)
      ensures !ok ==> applied == old(applied)
    {
      match m.apply(applied, entry) {
        case InternalError => return false;
        case Reply(outcome) =>
          var index := |applied| + 1;
          if index in role.writes {
            var w := role.writes[index];
            role := role.(writes := role.writes - {index});
            Send(w.from, ClientResponse(w.id, WriteDone(outcome)));
          } else {
            assert role.writes - {index} == role.writes;
          }
          applied := applied + [entry];
          ok := true;
      }
    }

    /** Applies committed entries and answers the writers waiting for them. */
    method MaybeApplyAndReply(m: Machine) returns (ok: bool)
      requires Valid() && role.Leader?
      modifies this`applied, this`role, this`sent
      ensures (applied, ok) == ApplyCommitted(m, log.Value(), old(applied))
      ensures ok ==> Replied(m, id, term, old(role), old(applied), old(sent), role, applied, sent)
    {
      if log.commitIndex < |applied| {
        return false;
      }
      ghost var es, upto, was := log.entries, Applicable(log.Value()), role;
      while |applied| < log.commitIndex && |applied| < log.lastIndex
        invariant ApplyUpTo(m, es, applied, upto) == ApplyUpTo(m, es, old(applied), upto)
        invariant Replied(m, id, term, was, old(applied), old(sent), role, applied, sent)
        decreases log.commitIndex - |applied|
      {
        var entry := log.Get(|applied| + 1);
        ghost var role0, applied0, sent0 := role, applied, sent;
        ok := ApplyNext(m, entry.value);
        if !ok {
          return;
        }
        RepliedNext(m, id, term, was, old(applied), old(sent), role0, applied0, sent0, entry.value, role, sent);
      }
      ok := true;
    }

    // ---- Leader ----

    method Heartbeat()
      requires Valid() && role.Leader?
      modifies this`sent
      ensures sent == old(sent) + Heartbeats(Value())
    {
      BroadcastAll(Message.Heartbeat(log.commitIndex, log.commitTerm, role.readSeq));
    }

    method SendLog(peer: NodeID) returns (ok: bool)
      requires Valid() && role.Leader?
      modifies this`sent
      ensures ok == CanSend(Value(), peer)
      ensures ok ==> sent == old(sent) + [RaftNode.SendLog(Value(), peer)]
    {
      if peer !in role.progress {
        return false;
      }
      var next := role.progress[peer].next;
      var baseIndex, baseTerm := 0, 0;
      if next > 1 {
        var base := log.Get(next - 1);
        if base.None? {
          return false;
        }
        baseIndex, baseTerm := base.value.index, base.value.term;
      }
      var entries := log.Scan(baseIndex + 1);
      Send(peer, Append(baseIndex, baseTerm, entries));
      ok := true;
    }

    method Propose(command: Option<Command>) returns (ok: bool)
      requires Valid() && role.Leader?
      modifies this`sent, log
      ensures Valid() && Performed(RaftNode.Propose(old(Value()), command), ok, Value(), old(sent), sent)
    {
      var _ := log.Append(term, command);
      ghost var n := Value();
      ProposeIs(old(Value()), command, n);
      for i := 0 to |peers|
        invariant Valid() && Value() == n && CanSendTo(n, i)
        invariant sent == old(sent) + SendLogs(n, i)
      {
        var could := SendLog(peers[i]);
        if !could {
          CannotSend(n, i + 1, |peers|);
          return false;
        }
      }
      ok := true;
    }

    method CommitTo(m: Machine, q: Index) returns (ok: bool)
      requires Valid() && role.Leader? && log.commitIndex < q <= |log.entries| && log.entries[q - 1].term == term
      modifies this`applied, this`role, this`sent, log
      ensures Valid() && Performed(RaftNode.CommitTo(m, old(Value()), q), ok, Value(), old(sent), sent)
    {
      var committed := log.Commit(q);
      ok := MaybeApplyAndReply(m);
    }

    /** The largest index that a quorum, this node included, has stored. */
    method QuorumIndex() returns (q: Index)
      requires Valid() && TracksPeers(Value())
      ensures q == QuorumValue(LastIndexes(Value()))
    {
      var values := [];
      ghost var all := LastIndexes(Value());
      for i := 0 to |peers|
        invariant values == all[..i]
      {
        values := values + [role.progress[peers[i]].last];
      }
      q := QuorumValue(values + [log.lastIndex]);
      assert values + [log.lastIndex] == all;
    }

    method MaybeCommitAndApply(m: Machine) returns (ok: bool)
      requires Valid() && TracksPeers(Value())
      modifies this`applied, this`role, this`sent, log
      ensures Valid() && Performed(RaftNode.MaybeCommitAndApply(m, old(Value())), ok, Value(), old(sent), sent)
    {
      var quorumIndex := QuorumIndex();
      if quorumIndex <= log.commitIndex {
        return true;
      }
      var entry := log.Get(quorumIndex);
      if entry.None? {
        return false;
      }
      if entry.value.term != term {
        return true;
      }
      ok := CommitTo(m, quorumIndex);
    }

    /** The largest read number that a quorum, this node included, confirmed. */
    method QuorumReadSeq() returns (q: nat)
      requires Valid() && TracksPeers(Value())
      ensures q == QuorumValue(ReadSeqs(Value()))
    {
      var values := [];
      ghost var all := ReadSeqs(Value());
      for i := 0 to |peers|
        invariant values == all[..i]
      {
        values := values + [role.progress[peers[i]].readSeq];
      }
      q := QuorumValue(values + [role.readSeq]);
      assert values + [role.readSeq] == all;
    }

    /** Pops and executes reads until one has no confirmed number. */
    method ExecuteReads(m: Machine, confirmed: nat)
      requires role.Leader?
      modifies this`role, this`sent
      ensures var k := ReadyCount(old(role).queue, confirmed);
              && role == old(role).(queue := old(role).queue[k..])
              && sent == old(sent) + ReadAnswers(m, id, term, applied, old(role).queue[..k])
    {
      ghost var queue, k := role.queue, 0;
      while role.queue != [] && role.queue[0].seqNo <= confirmed
        invariant role.Leader? && k <= |queue| && role == old(role).(queue := queue[k..])
        invariant ReadyCount(queue, confirmed) == k + ReadyCount(queue[k..], confirmed)
        invariant sent == old(sent) + ReadAnswers(m, id, term, applied, queue[..k])
        decreases |role.queue|
      {
        var rd := role.queue[0];
        role := role.(queue := role.queue[1..]);
        Send(rd.from, ClientResponse(rd.id, ReadDone(m.read(applied, rd.command))));
        assert queue[..k + 1] == queue[..k] + [rd];
        assert queue[k + 1..] == queue[k..][1..];
        k := k + 1;
      }
    }

    method MaybeRead(m: Machine)
      requires Valid() && TracksPeers(Value())
      modifies this`role, this`sent
      ensures Valid() && Performed(RaftNode.MaybeRead(m, old(Value())), true, Value(), old(sent), sent)
    {
      if role.queue == [] {
        return;
      }
      var confirmed := QuorumReadSeq();
      ExecuteReads(m, confirmed);
    }

    method LeaderHeartbeatResponse(m: Machine, from: NodeID, li: Index, lt: Term, rs: nat) returns (ok: bool)
      requires Valid() && role.Leader?
      modifies this`role, this`sent
      ensures Valid()
      ensures Performed(RaftNode.LeaderHeartbeatResponse(m, old(Value()), from, li, lt, rs), ok, Value(), old(sent),
                        sent)
    {
      if rs > role.readSeq || from !in role.progress || exists p :: p in peers && p !in role.progress {
        return false;
      }
      if rs > role.progress[from].readSeq {
        role := role.(progress := role.progress[from := role.progress[from].(readSeq := rs)]);
        MaybeRead(m);
      }
      var has := log.HasEntry(li, lt);
      if li < log.lastIndex || !has {
        ok := SendLog(from);
      } else {
        ok := true;
      }
    }

    method LeaderAppendResponse(m: Machine, from: NodeID, reject: bool, li: Index, lt: Term) returns (ok: bool)
      requires Valid() && role.Leader?
      modifies this`applied, this`role, this`sent, log
      ensures Valid()
      ensures Performed(RaftNode.LeaderAppendResponse(m, old(Value()), from, reject, li, lt), ok, Value(), old(sent),
                        sent)
    {
      if from !in role.progress || exists p :: p in peers && p !in role.progress {
        return false;
      }
      var p := role.progress[from];
      if reject {
        role := role.(progress := role.progress[from := p.(next := if p.next > 1 then p.next - 1 else p.next)]);
        ok := SendLog(from);
      } else if li > log.lastIndex || lt > log.lastTerm {
        ok := false;
      } else if li > p.last {
        role := role.(progress := role.progress[from := p.(last := li, next := li + 1)]);
        ok := MaybeCommitAndApply(m);
      } else {
        ok := true;
      }
    }

    method LeaderRead(m: Machine, from: NodeID, rid: RequestID, command: Command)
      requires Valid() && TracksPeers(Value())
      modifies this`role, this`sent
      ensures Valid()
      ensures Performed(RaftNode.LeaderRequest(m, old(Value()), from, rid, ReadRequest(command)), true, Value(),
                        old(sent), sent)
    {
      role := role.(readSeq := role.readSeq + 1, queue := role.queue + [Read(role.readSeq + 1, from, rid, command)]);
      if peers == [] {
        MaybeRead(m);
      }
      Heartbeat();
    }

    method LeaderWrite(m: Machine, from: NodeID, rid: RequestID, command: Command) returns (ok: bool)
      requires Valid() && TracksPeers(Value())
      modifies this`applied, this`role, this`sent, log
      ensures Valid()
      ensures Performed(RaftNode.LeaderRequest(m, old(Value()), from, rid, WriteRequest(command)), ok, Value(),
                        old(sent), sent)
    {
      ok := Propose(Some(command));
      if !ok {
        return;
      }
      role := role.(writes := role.writes[log.lastIndex := Write(from, rid)]);
      if peers == [] {
        ok := MaybeCommitAndApply(m);
      }
    }

    method LeaderStep(m: Machine, msg: Envelope) returns (ok: bool)
      requires Valid() && role.Leader?
      modifies this, log
      ensures Valid() && Performed(RaftNode.LeaderStep(m, old(Value()), msg), ok, Value(), old(sent), sent)
    {
      ghost var n := Value();
      match msg.message
      case HeartbeatResponse(li, lt, rs) =>
        assert RaftNode.LeaderStep(m, n, msg) == RaftNode.LeaderHeartbeatResponse(m, n, msg.from, li, lt, rs);
        ok := LeaderHeartbeatResponse(m, msg.from, li, lt, rs);
      case AppendResponse(reject, li, lt) =>
        assert RaftNode.LeaderStep(m, n, msg) == RaftNode.LeaderAppendResponse(m, n, msg.from, reject, li, lt);
        ok := LeaderAppendResponse(m, msg.from, reject, li, lt);
      case ClientRequest(rid, request) =>
        assert RaftNode.LeaderStep(m, n, msg) == RaftNode.LeaderRequest(m, n, msg.from, rid, request);
        ok := LeaderRequest(m, msg.from, rid, request);
      case Campaign(_, _) => ok := true;
      case CampaignResponse(_) => ok := true;
      case _ => ok := false;
    }

    method LeaderRequest(m: Machine, from: NodeID, rid: RequestID, request: Request) returns (ok: bool)
      requires Valid() && role.Leader?
      modifies this, log
      ensures Valid() && Performed(RaftNode.LeaderRequest(m, old(Value()), from, rid, request), ok, Value(),
                                   old(sent), sent)
    {
      if exists p :: p in peers && p !in role.progress {
        return false;
      }
      ok := true;
      match request
      case ReadRequest(command) => LeaderRead(m, from, rid, command);
      case WriteRequest(command) => ok := LeaderWrite(m, from, rid, command);
      case StatusRequest => Send(from, ClientResponse(rid, StatusDone(log.commitIndex, |applied|)));
    }

    method AbortWrites()
      requires Valid() && role.Leader?
      modifies this`sent
      ensures sent == old(sent) + WriteAborts(id, term, WritesUpTo(role.writes, |log.entries|))
    {
      for i := 0 to log.lastIndex
        invariant sent == old(sent) + WriteAborts(id, term, WritesUpTo(role.writes, i))
      {
        if i + 1 in role.writes {
          var w := role.writes[i + 1];
          Send(w.from, ClientResponse(w.id, Abort));
        }
      }
    }

    method AbortReads()
      requires Valid() && role.Leader?
      modifies this`sent
      ensures sent == old(sent) + ReadAborts(id, term, role.queue)
    {
      for i := 0 to |role.queue|
        invariant sent == old(sent) + ReadAborts(id, term, role.queue[..i])
      {
        Send(role.queue[i].from, ClientResponse(role.queue[i].id, Abort));
        assert role.queue[..i + 1] == role.queue[..i] + [role.queue[i]];
      }
      assert role.queue[..|role.queue|] == role.queue;
    }

    /** Leaves its term: answers what it can no longer serve, and becomes a
        leaderless follower of a later term that has not voted. */
    method EnterTerm(later: Term)
      requires Valid() && later > term
      modifies this, log
      ensures Valid() && Value() == DiscoverTerm(old(Value()), later)
      ensures sent == old(sent) + LeavingTerm(old(Value()))
    {
      match role {
        case Follower(_, forwarded) => AbortForwarded(forwarded);
        case Candidate(_) =>
        case Leader(_, _, _, _) =>
          AbortWrites();
          AbortReads();
      }
      term := later;
      log.SetTerm(later, None);
      role := Follower(None, []);
    }

    // ---- Candidate ----

    method IntoLeader() returns (ok: bool)
      requires Valid()
      modifies this, log
      ensures Valid() && Performed(RaftNode.IntoLeader(old(Value())), ok, Value(), old(sent), sent)
    {
      var next := log.lastIndex + 1;
      role := Leader(map p | p in peers :: Progress(next, 0, 0), map[], [], 0);
      ghost var n := Value();
      Heartbeat();
      ok := Propose(None);
      PerformedAfter(RaftNode.Propose(n, None), ok, Value(), Heartbeats(n), old(sent), sent);
    }

    /** Campaigns in the next term, voting for itself. */
    method StartCampaign()
      requires Valid()
      modifies this, log
      ensures Valid() && Performed(RaftNode.StartCampaign(old(Value())), true, Value(), old(sent), sent)
    {
      role := Candidate({id});
      term := term + 1;
      log.SetTerm(term, Some(id));
      BroadcastAll(Campaign(log.lastIndex, log.lastTerm));
    }

    method CandidateStep(m: Machine, msg: Envelope) returns (ok: bool)
      requires Valid() && role.Candidate?
      modifies this, log
      ensures Valid() && Performed(RaftNode.CandidateStep(m, old(Value()), msg), ok, Value(), old(sent), sent)
    {
      ok := true;
      match msg.message
      case Campaign(_, _) =>
      case CampaignResponse(vote) =>
        if vote {
          role := Candidate(role.votes + {msg.from});
          if |role.votes| >= QuorumSize(|peers| + 1) {
            ok := IntoLeader();
          }
        }
      case Heartbeat(_, _, _) =>
        role := Follower(Some(msg.from), []);
        ok := FollowerStep(m, msg);
      case Append(_, _, _) =>
        role := Follower(Some(msg.from), []);
        ok := FollowerStep(m, msg);
      case ClientRequest(rid, _) => Send(msg.from, ClientResponse(rid, Abort));
      case _ => ok := false;
    }

    // ---- Follower ----

    method Follow(leader: NodeID) returns (ok: bool)
      requires Valid() && role.Follower?
      modifies this`role, this`sent
      ensures Valid() && Performed(RaftNode.Follow(old(Value()), leader), ok, Value(), old(sent), sent)
      ensures ok ==> role.Follower?
    {
      match role.leader {
        case Some(l) => ok := l == leader;
        case None =>
          AbortForwarded(role.forwarded);
          role := Follower(Some(leader), []);
          ok := true;
      }
    }

    method FollowerHeartbeat(m: Machine, from: NodeID, ci: Index, ct: Term, rs: nat) returns (ok: bool)
      requires Valid() && role.Follower?
      modifies this, log
      ensures Valid()
      ensures Performed(RaftNode.FollowerHeartbeat(m, old(Value()), from, ci, ct, rs), ok, Value(), old(sent), sent)
    {
      ok := Follow(from);
      if !ok {
        return;
      }
      Send(from, HeartbeatResponse(log.lastIndex, log.lastTerm, rs));
      var has := log.HasEntry(ci, ct);
      if has && ci > log.commitIndex {
        var committed := log.Commit(ci);
        ok := MaybeApply(m);
      }
    }

    method FollowerAppend(from: NodeID, base: Index, baseTerm: Term, es: seq<Entry>) returns (ok: bool)
      requires Valid() && role.Follower?
      modifies this, log
      ensures Valid()
      ensures Performed(RaftNode.FollowerAppend(old(Value()), from, base, baseTerm, es), ok, Value(), old(sent), sent)
    {
      ok := Follow(from);
      if !ok {
        return;
      }
      var has := log.HasEntry(base, baseTerm);
      var reject := base > 0 && !has;
      if !reject {
        ok := log.Splice(es);
        if !ok {
          return;
        }
      }
      Send(from, AppendResponse(reject, log.lastIndex, log.lastTerm));
    }

    method FollowerCampaign(from: NodeID, li: Index, lt: Term)
      requires Valid() && role.Follower?
      modifies this, log
      ensures Valid()
      ensures Performed(RaftNode.FollowerCampaign(old(Value()), from, li, lt), true, Value(), old(sent), sent)
    {
      var vote := log.GetTerm().1;
      if vote.Some? && vote.value != from {
        Send(from, CampaignResponse(false));
        return;
      }
      if log.lastTerm > lt || (log.lastTerm == lt && log.lastIndex > li) {
        Send(from, CampaignResponse(false));
        return;
      }
      Send(from, CampaignResponse(true));
      log.SetTerm(term, Some(from));
    }

    /** Forwards a client's request to the leader, or aborts it. */
    method FollowerRequest(m: Machine, msg: Envelope) returns (ok: bool)
      requires Valid() && role.Follower? && msg.message.ClientRequest?
      modifies this`role, this`sent
      ensures Valid() && Performed(RaftNode.FollowerStep(m, old(Value()), msg), ok, Value(), old(sent), sent)
    {
      if msg.from != id {
        return false;
      }
      var rid := msg.message.id;
      match role.leader {
        case Some(leader) =>
          if rid !in role.forwarded {
            role := role.(forwarded := role.forwarded + [rid]);
          }
          Send(leader, msg.message);
        case None => Send(id, ClientResponse(rid, Abort));
      }
      ok := true;
    }

    /** Returns the leader's answer to a forwarded request. */
    method FollowerResponse(m: Machine, msg: Envelope) returns (ok: bool)
      requires Valid() && role.Follower? && msg.message.ClientResponse?
      modifies this`role, this`sent
      ensures Valid() && Performed(RaftNode.FollowerStep(m, old(Value()), msg), ok, Value(), old(sent), sent)
    {
      if role.leader != Some(msg.from) {
        return false;
      }
      if msg.message.id in role.forwarded {
        role := role.(forwarded := RemoveID(role.forwarded, msg.message.id));
        Send(id, ClientResponse(msg.message.id, msg.message.response));
      }
      ok := true;
    }

    method FollowerStep(m: Machine, msg: Envelope) returns (ok: bool)
      requires Valid() && role.Follower?
      modifies this, log
      ensures Valid() && Performed(RaftNode.FollowerStep(m, old(Value()), msg), ok, Value(), old(sent), sent)
    {
      ok := true;
      match msg.message
      case Heartbeat(ci, ct, rs) => ok := FollowerHeartbeat(m, msg.from, ci, ct, rs);
      case Append(base, baseTerm, es) => ok := FollowerAppend(msg.from, base, baseTerm, es);
      case Campaign(li, lt) => FollowerCampaign(msg.from, li, lt);
      case CampaignResponse(_) =>
      case ClientRequest(_, _) => ok := FollowerRequest(m, msg);
      case ClientResponse(_, _) => ok := FollowerResponse(m, msg);
      case _ => ok := false;
    }

    // ---- Events ----

    method RoleStep(m: Machine, msg: Envelope) returns (ok: bool)
      requires Valid()
      modifies this, log
      ensures Valid() && Performed(RaftNode.RoleStep(m, old(Value()), msg), ok, Value(), old(sent), sent)
    {
      match role
      case Follower(_, _) => ok := FollowerStep(m, msg);
      case Candidate(_) => ok := CandidateStep(m, msg);
      case Leader(_, _, _, _) => ok := LeaderStep(m, msg);
    }

    /** Steps one message. */
    method Step(m: Machine, msg: Envelope) returns (ok: bool)
      requires Valid()
      modifies this, log
      ensures Valid() && Performed(RaftNode.Step(m, old(Value()), msg), ok, Value(), old(sent), sent)
    {
      if msg.to != id || !(msg.from == id || msg.from in peers) {
        return false;
      }
      if msg.term < term {
        return true;
      }
      if msg.term > term {
        EnterTerm(msg.term);
        ok := RoleStep(m, msg);
        PerformedAfter(RaftNode.RoleStep(m, DiscoverTerm(old(Value()), msg.term), msg), ok, Value(),
                       LeavingTerm(old(Value())), old(sent), sent);
      } else {
        ok := RoleStep(m, msg);
      }
    }

    /** The timer of the current role fires. */
    method Fire(m: Machine) returns (ok: bool)
      requires Valid()
      modifies this, log
      ensures Valid() && Performed(Timeout(m, old(Value())), ok, Value(), old(sent), sent)
    {
      ok := true;
      match role {
        case Follower(_, forwarded) =>
          AbortForwarded(forwarded);
          ok := MaybeApply(m);
          if ok {
            StartCampaign();
          }
        case Candidate(_) => StartCampaign();
        case Leader(_, _, _, _) => Heartbeat();
      }
    }

    /** Starts a node just created; a lone node elects itself. */
    method Start(m: Machine) returns (ok: bool)
      requires Valid() && role == Follower(None, [])
      modifies this, log
      ensures Valid()
      ensures Performed(Boot(m, old(Value()), |old(applied)|), ok, Value(), old(sent), sent)
    {
      assert applied[..|applied|] == applied;
      ok := true;
      if peers == [] {
        ok := Fire(m);
        if ok {
          ok := IntoLeader();
        }
      }
    }
  }
}
