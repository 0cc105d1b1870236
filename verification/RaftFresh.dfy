/** Fresh reads: a leader that has committed in its own term answers a read from a state
    that holds whatever any node had applied when the read was accepted. */
module RaftFresh {
  import opened Basics
  import opened RaftTypes
  import opened RaftNode
  import opened RaftFacts
  import opened RaftCluster
  import opened RaftElection
  import opened RaftLogs
  import opened RaftCompleteness
  import opened RaftCommit
  import RaftReads

  // ---- The leader of a term commits first ----

  ghost predicate Leads(s: State, i: NodeID, t: Term) {
    i in s.nodes && s.nodes[i].role.Leader? && s.nodes[i].term == t
  }

  /** A position committed in a term is no further than the leader of the term, while it
      leads. */
  ghost predicate Behind(s: State, index: nat, t: Term) {
    t in s.h.leaders && Leads(s, s.h.leaders[t], t) ==> index <= s.nodes[s.h.leaders[t]].log.commitIndex
  }

  ghost predicate NodeBehind(s: State, i: NodeID) {
    i in s.nodes ==> Behind(s, s.nodes[i].log.commitIndex, s.nodes[i].log.commitTerm)
  }

  ghost predicate BeatBehind(s: State, k: nat) {
    k < |s.net| && s.net[k].message.Heartbeat? ==>
      Behind(s, s.net[k].message.commitIndex, s.net[k].message.commitTerm)
  }

  ghost predicate BehindInv(s: State) {
    (forall i :: NodeBehind(s, i)) && forall k :: BeatBehind(s, k)
  }

  /** A term that had a leader goes on having it, and its leader goes on committing. */
  lemma BehindKept(s: State, i: NodeID, ev: Event, e: Effect, s': State, index: nat, t: Term)
    requires Moves(s, i, e, s') && LeaderOrigin(s, i, e.node) && CommitFacts(s.nodes[i], ev, e.node)
    requires Behind(s, index, t) && (index == 0 || t in s.h.leaders)
    ensures Behind(s', index, t)
  {
    LeadersKept(s, i, e, s');
  }

  /** A committed position lies in a term that had a leader. */
  lemma CommitTermKnown(h: History, es: seq<Entry>, index: nat)
    requires index <= |es| && Known(h, es) && forall t :: TermLogOk(h, t)
    ensures index == 0 || TermAt(es, index) in h.leaders
  {
    if index > 0 {
      assert KnownAt(h, es, index - 1) && TermLogOk(h, es[index - 1].term);
    }
  }

  lemma NodeTermKnown(c: Config, s: State, i: NodeID)
    requires LogInv(s) && CommitInv(c, s) && i in s.nodes
    ensures s.nodes[i].log.commitIndex == 0 || s.nodes[i].log.commitTerm in s.h.leaders
  {
    assert NodeCommitOk(c, s, i) && NodeLogOk(s, i);
    CommitTermKnown(s.h, s.nodes[i].log.entries, s.nodes[i].log.commitIndex);
  }

  lemma BeatTermKnown(c: Config, s: State, k: nat)
    requires LogInv(s) && CommitInv(c, s) && k < |s.net| && s.net[k].message.Heartbeat?
    ensures s.net[k].message.commitIndex == 0 || s.net[k].message.commitTerm in s.h.leaders
  {
    assert SentHeartbeatOk(c, s, k) && TermLogOk(s.h, s.net[k].term);
    CommitTermKnown(s.h, s.h.logs[s.net[k].term], s.net[k].message.commitIndex);
  }

  predicate SameCommit(n: Node, n': Node) {
    n'.log.commitIndex == n.log.commitIndex && n'.log.commitTerm == n.log.commitTerm
  }

  lemma OtherBehind(c: Config, s: State, i: NodeID, ev: Event, e: Effect, s': State, x: NodeID)
    requires LogInv(s) && CommitInv(c, s) && BehindInv(s) && Transition(s, i, ev, e, s')
    requires LeaderOrigin(s, i, e.node) && x in s.nodes
    requires x == i ==> SameCommit(s.nodes[i], e.node)
    ensures NodeBehind(s', x)
  {
    assert NodeBehind(s, x);
    NodeTermKnown(c, s, x);
    BehindKept(s, i, ev, e, s', s.nodes[x].log.commitIndex, s.nodes[x].log.commitTerm);
  }

  lemma ActingBehind(c: Config, s: State, i: NodeID, ev: Event, e: Effect, s': State)
    requires LogInv(s) && CommitInv(c, s) && BehindInv(s) && Transition(s, i, ev, e, s')
    requires LeaderOrigin(s, i, e.node) && LeaderOk(s', i)
    ensures NodeBehind(s', i)
  {
    var n, n' := s.nodes[i], e.node;
    if SameCommit(n, n') {
      OtherBehind(c, s, i, ev, e, s', i);
    } else if n'.role.Follower? {
      var k: nat :| k < |s.net| && s.net[k] == ev.msg;
      assert BeatBehind(s, k);
      BeatTermKnown(c, s, k);
      BehindKept(s, i, ev, e, s', ev.msg.message.commitIndex, ev.msg.message.commitTerm);
    }
  }

  lemma BeatBehindStep(c: Config, s: State, i: NodeID, ev: Event, e: Effect, s': State, k: nat)
    requires LogInv(s) && CommitInv(c, s) && BehindInv(s) && Transition(s, i, ev, e, s')
    requires LeaderOrigin(s, i, e.node) && NodeBehind(s', i)
    ensures BeatBehind(s', k)
  {
    if k < |s.net| {
      assert BeatBehind(s, k);
      if s.net[k].message.Heartbeat? {
        BeatTermKnown(c, s, k);
        BehindKept(s, i, ev, e, s', s.net[k].message.commitIndex, s.net[k].message.commitTerm);
      }
    } else if k < |s'.net| {
      assert s'.net[k] == e.out[k - |s.net|];
      assert Sends(s.nodes[i], ev, e.node, e.out[k - |s.net|]);
    }
  }

  lemma BehindStep(c: Config, s: State, i: NodeID, ev: Event, e: Effect, s': State)
    requires LogInv(s) && CommitInv(c, s) && BehindInv(s) && Transition(s, i, ev, e, s')
    requires LeaderOrigin(s, i, e.node) && LeaderOk(s', i)
    ensures BehindInv(s')
  {
    ActingBehind(c, s, i, ev, e, s');
    forall x ensures NodeBehind(s', x) {
      if x != i && x in s.nodes { OtherBehind(c, s, i, ev, e, s', x); }
    }
    forall k: nat ensures BeatBehind(s', k) { BeatBehindStep(c, s, i, ev, e, s', k); }
  }

  lemma BehindAt(c: Config, ss: seq<State>, acts: seq<Action>, j: nat)
    requires Run(c, true, ss, acts) && j < |acts|
    requires ElectionInv(c, ss[j]) && LogInv(ss[j]) && CommitInv(c, ss[j]) && BehindInv(ss[j])
    ensures BehindInv(ss[j + 1])
  {
    MembersKnown(c, ss[j]);
    var i, ev, e := RunStep(c, true, ss, acts, j);
    ElectionStep(c, ss[j], i, ev, e, ss[j + 1]);
    assert LeaderOk(ss[j + 1], i);
    BehindStep(c, ss[j], i, ev, e, ss[j + 1]);
  }

  lemma {:induction false} BehindRun(c: Config, ss: seq<State>, acts: seq<Action>, j: nat)
    requires Run(c, true, ss, acts) && j < |ss|
    ensures BehindInv(ss[j])
  {
    if j > 0 {
      BehindRun(c, ss, acts, j - 1);
      CommitRun(c, ss, acts, j - 1);
      BehindAt(c, ss, acts, j - 1);
    }
  }

  // ---- A leader or candidate has applied all it has committed ----

  ghost predicate CaughtUp(s: State, i: NodeID) {
    i in s.nodes && i in s.up && !s.nodes[i].role.Follower? ==> |s.nodes[i].applied| == s.nodes[i].log.commitIndex
  }

  lemma {:induction false} AppliesAll(m: Machine, es: seq<Entry>, applied: seq<Entry>, upto: nat)
    requires |applied| <= upto <= |es| && ApplyUpTo(m, es, applied, upto).1
    ensures |ApplyUpTo(m, es, applied, upto).0| == upto
    decreases upto - |applied|
  {
    if |applied| < upto {
      AppliesAll(m, es, applied + [es[|applied|]], upto);
    }
  }

  /** A step of a leader that leaves it running. */
  ghost predicate Applies(n: Node, e: Effect) {
    e.ok ==>
      || (SameCommit(n, e.node) && e.node.applied == n.applied)
      || |e.node.applied| == e.node.log.commitIndex
  }

  lemma CommitApplies(m: Machine, n: Node)
    requires TracksPeers(n)
    ensures Applies(n, MaybeCommitAndApply(m, n))
  {
    var q := QuorumValue(LastIndexes(n));
    if n.log.commitIndex < q <= |n.log.entries| && n.log.entries[q - 1].term == n.term {
      var n1 := n.(log := n.log.(commitIndex := q, commitTerm := n.term));
      if MaybeApply(m, n1).1 {
        AppliesAll(m, n.log.entries, n.applied, q);
      }
    }
  }

  lemma StoredApplies(m: Machine, n: Node, from: NodeID, reject: bool, lastIndex: Index, lastTerm: Term)
    requires n.role.Leader?
    ensures Applies(n, LeaderAppendResponse(m, n, from, reject, lastIndex, lastTerm))
  {
    if from in n.role.progress && TracksPeers(n) && !reject {
      var p := n.role.progress[from].(last := lastIndex, next := lastIndex + 1);
      CommitApplies(m, n.(role := n.role.(progress := n.role.progress[from := p])));
    }
  }

  lemma RequestApplies(m: Machine, n: Node, from: NodeID, id: RequestID, request: Request)
    requires n.role.Leader?
    ensures Applies(n, LeaderRequest(m, n, from, id, request))
  {
    if TracksPeers(n) && request.WriteRequest? {
      var e := Propose(n, Some(request.command));
      if e.ok {
        var writes := e.node.role.writes[|e.node.log.entries| := Write(from, id)];
        CommitApplies(m, e.node.(role := e.node.role.(writes := writes)));
      }
    }
  }

  lemma LeaderApplies(m: Machine, n: Node, msg: Envelope)
    requires n.role.Leader?
    ensures Applies(n, LeaderStep(m, n, msg))
  {
    match msg.message
    case AppendResponse(reject, lastIndex, lastTerm) =>
      StoredApplies(m, n, msg.from, reject, lastIndex, lastTerm);
    case ClientRequest(id, request) => RequestApplies(m, n, msg.from, id, request);
    case _ =>
  }

  /** A node applies what is committed when it starts to campaign. */
  lemma TimeoutApplies(m: Machine, n: Node)
    requires |n.applied| <= n.log.commitIndex <= |n.log.entries| && Timeout(m, n).ok
    requires !n.role.Follower? ==> |n.applied| == n.log.commitIndex
    ensures var n' := Timeout(m, n).node; |n'.applied| == n'.log.commitIndex
  {
    if n.role.Follower? {
      AppliesAll(m, n.log.entries, n.applied, n.log.commitIndex);
    }
  }

  lemma CandidateApplies(m: Machine, n: Node, msg: Envelope, e: Effect)
    requires n.role.Candidate? && |n.applied| == n.log.commitIndex && e == CandidateStep(m, n, msg)
    ensures !e.node.role.Follower? ==> |e.node.applied| == e.node.log.commitIndex
  {
    if msg.message.Heartbeat? || msg.message.Append? {
      FollowerStays(m, n.(role := Follower(Some(msg.from), [])), msg, e);
    }
  }

  lemma LeaderlessStays(m: Machine, n: Node, msg: Envelope, e: Effect)
    requires msg.term > n.term && e == Step(m, n, msg) && e.ok
    ensures e.node.role.Follower?
  {
    var d := DiscoverTerm(n, msg.term);
    FollowerStays(m, d, msg, FollowerStep(m, d, msg));
  }

  lemma RoleApplies(m: Machine, n: Node, msg: Envelope, e: Effect)
    requires !n.role.Follower? ==> |n.applied| == n.log.commitIndex
    requires e == RoleStep(m, n, msg) && e.ok
    ensures !e.node.role.Follower? ==> |e.node.applied| == e.node.log.commitIndex
  {
    match n.role
    case Follower(_, _) => FollowerStays(m, n, msg, e);
    case Candidate(_) => CandidateApplies(m, n, msg, e);
    case Leader(_, _, _, _) => LeaderApplies(m, n, msg);
  }

  lemma StepApplies(m: Machine, n: Node, msg: Envelope, e: Effect)
    requires !n.role.Follower? ==> |n.applied| == n.log.commitIndex
    requires e == Step(m, n, msg) && e.ok
    ensures !e.node.role.Follower? ==> |e.node.applied| == e.node.log.commitIndex
  {
    if msg.term > n.term {
      LeaderlessStays(m, n, msg, e);
    } else if msg.term == n.term {
      RoleApplies(m, n, msg, e);
    }
  }

  lemma BootApplies(m: Machine, n: Node, keep: nat, e: Effect)
    requires keep <= |n.applied| <= n.log.commitIndex <= |n.log.entries| && e == Boot(m, n, keep) && e.ok
    ensures !e.node.role.Follower? ==> |e.node.applied| == e.node.log.commitIndex
  {
    if n.peers == [] {
      TimeoutApplies(m, n.(applied := n.applied[..keep], role := Follower(None, [])));
    }
  }

  lemma CaughtUpStep(c: Config, s: State, a: Action, s': State, x: NodeID)
    requires Next(c, true, s, a, s') && CaughtUp(s, x) && CommitInv(c, s)
    ensures CaughtUp(s', x)
  {
    var i, ev := Target(s, a), EventOf(s, a);
    if x == i && i in s'.up && !s'.nodes[i].role.Follower? {
      var n, e := s.nodes[i], Handle(c.machine, s.nodes[i], ev);
      assert NodeCommitOk(c, s, i);
      match ev
      case Receive(msg) => StepApplies(c.machine, n, msg, e);
      case Fire => TimeoutApplies(c.machine, n);
      case Restart(keep) => BootApplies(c.machine, n, keep, e);
    }
  }

  lemma CaughtUpAt(c: Config, ss: seq<State>, acts: seq<Action>, j: nat, i: NodeID)
    requires Run(c, true, ss, acts) && j < |acts| && CaughtUp(ss[j], i)
    requires CommitInv(c, ss[j])
    ensures CaughtUp(ss[j + 1], i)
  {
    assert StepAt(c, true, ss, acts, j);
    CaughtUpStep(c, ss[j], acts[j], ss[j + 1], i);
  }

  lemma {:induction false} CaughtUpRun(c: Config, ss: seq<State>, acts: seq<Action>, j: nat, i: NodeID)
    requires Run(c, true, ss, acts) && j < |ss|
    ensures CaughtUp(ss[j], i)
  {
    if j > 0 {
      CaughtUpRun(c, ss, acts, j - 1, i);
      CommitRun(c, ss, acts, j - 1);
      CaughtUpAt(c, ss, acts, j - 1, i);
    }
  }

  // ---- Executing a read ----

  function Answer(m: Machine, n: Node, rd: Read): Envelope {
    Envelope(n.id, rd.from, n.term, ClientResponse(rd.id, ReadDone(m.read(n.applied, rd.command))))
  }

  lemma ReadsAnswer(m: Machine, n: Node, rd: Read)
    requires TracksPeers(n) && rd in n.role.queue && rd !in MaybeRead(m, n).node.role.queue
    ensures Answer(m, n, rd) in MaybeRead(m, n).out
  {
    var queue, out := n.role.queue, MaybeRead(m, n).out;
    var k := ReadyCount(queue, QuorumValue(ReadSeqs(n)));
    assert queue == queue[..k] + queue[k..];
    var r :| 0 <= r < k && queue[r] == rd;
    assert out[r] == Answer(m, n, rd);
  }

  lemma EchoExecutes(m: Machine, n: Node, from: NodeID, lastIndex: Index, lastTerm: Term, readSeq: nat, rd: Read)
    requires n.role.Leader? && rd in n.role.queue
    requires var e := LeaderHeartbeatResponse(m, n, from, lastIndex, lastTerm, readSeq);
             e.ok && e.node.role.Leader? && rd !in e.node.role.queue
    ensures Answer(m, n, rd) in LeaderHeartbeatResponse(m, n, from, lastIndex, lastTerm, readSeq).out
  {
    var p := n.role.progress[from].(readSeq := readSeq);
    ReadsAnswer(m, n.(role := n.role.(progress := n.role.progress[from := p])), rd);
  }

  lemma RequestExecutes(m: Machine, n: Node, from: NodeID, id: RequestID, request: Request, rd: Read)
    requires n.role.Leader? && rd in n.role.queue
    requires var e := LeaderRequest(m, n, from, id, request);
             e.ok && e.node.role.Leader? && rd !in e.node.role.queue
    ensures Answer(m, n, rd) in LeaderRequest(m, n, from, id, request).out
  {
    if request.WriteRequest? {
      RequestKeepsReads(m, n, from, id, request);
    } else {
      var seqNo := n.role.readSeq + 1;
      var queue := n.role.queue + [Read(seqNo, from, id, request.command)];
      ReadsAnswer(m, n.(role := n.role.(readSeq := seqNo, queue := queue)), rd);
    }
  }

  lemma RequestKeepsReads(m: Machine, n: Node, from: NodeID, id: RequestID, request: Request)
    requires n.role.Leader? && request.WriteRequest?
    ensures var e := LeaderRequest(m, n, from, id, request);
            e.node.role.Leader? && e.node.role.queue == n.role.queue
  {
  }

  /** A read that leaves the queue of a leader is answered from what the leader has applied. */
  lemma ExecutesRead(m: Machine, n: Node, msg: Envelope, rd: Read)
    requires n.role.Leader? && rd in n.role.queue
    requires var e := LeaderStep(m, n, msg); e.ok && e.node.role.Leader? && rd !in e.node.role.queue
    ensures Answer(m, n, rd) in LeaderStep(m, n, msg).out
  {
    match msg.message
    case HeartbeatResponse(lastIndex, lastTerm, readSeq) =>
      EchoExecutes(m, n, msg.from, lastIndex, lastTerm, readSeq, rd);
    case ClientRequest(id, request) => RequestExecutes(m, n, msg.from, id, request, rd);
    case _ =>
  }

  lemma ExecutingEvent(m: Machine, n: Node, ev: Event, rd: Read)
    requires Possible(n, ev) && n.role.Leader? && rd in n.role.queue
    requires var e := Handle(m, n, ev); StillLeader(n, e.node) && rd !in e.node.role.queue
    ensures ev.Receive?
    ensures var e := Handle(m, n, ev); e.ok ==> Answer(m, n, rd) in e.out
  {
    if ev.Receive? && ev.msg.term > n.term {
      var n0 := DiscoverTerm(n, ev.msg.term);
      FollowerStays(m, n0, ev.msg, FollowerStep(m, n0, ev.msg));
    } else if ev.Receive? && Handle(m, n, ev).ok {
      ExecutesRead(m, n, ev.msg, rd);
    }
  }

  /** The step that executes a read: the leader was running, and answers unless it halts. */
  lemma ExecutingStep(c: Config, s: State, a: Action, s': State, i: NodeID, rd: Read)
    requires Next(c, true, s, a, s') && ElectionInv(c, s) && i in s.nodes && i in s'.nodes
    requires StillLeader(s.nodes[i], s'.nodes[i])
    requires rd in s.nodes[i].role.queue && rd !in s'.nodes[i].role.queue
    ensures i in s.up && s.net <= s'.net
    ensures i in s'.up ==> Answer(c.machine, s.nodes[i], rd) in s'.net[|s.net|..]
  {
    var ev := EventOf(s, a);
    assert MemberOk(c, s, i);
    assert Target(s, a) == i;
    ExecutingEvent(c.machine, s.nodes[i], ev, rd);
  }

  // ---- What the read sees ----

  function CommittedLog(n: Node): seq<Entry>
    requires n.log.commitIndex <= |n.log.entries|
  {
    n.log.entries[..n.log.commitIndex]
  }

  /** Whatever was committed when the read was accepted, was committed in this term by no
      more than its leader, or in an earlier term. */
  lemma CommittedByThen(c: Config, ss: seq<State>, acts: seq<Action>, j: nat, j': nat, i: NodeID, rd: Read, x: NodeID)
    requires Run(c, true, ss, acts) && RaftReads.Served(ss, acts, j, j', i, rd) && x in ss[j].nodes
    ensures var a, b := ss[j].nodes[x].log, ss[j].nodes[i];
            || a.commitIndex == 0 || a.commitTerm < b.term
            || (a.commitTerm == b.term && a.commitIndex <= b.log.commitIndex)
  {
    CommitRun(c, ss, acts, j);
    NodeTermKnown(c, ss[j], x);
    if ss[j].nodes[x].log.commitIndex > 0 {
      InOrderIsAny(c, ss, acts);
      RaftReads.ConfirmedTerm(c, ss, acts, j, j', i, rd, ss[j].nodes[x].log.commitTerm);
      BehindRun(c, ss, acts, j);
      assert NodeBehind(ss[j], x) && LeaderOk(ss[j], i);
    }
  }

  /** Of what two nodes have committed at two moments, one extends the other. */
  lemma CommitsAgree(c: Config, ss: seq<State>, acts: seq<Action>, j: nat, j': nat, x: NodeID, i: NodeID)
    requires Run(c, true, ss, acts) && j <= j' < |ss| && x in ss[j].nodes && i in ss[j'].nodes
    requires NodeCommitOk(c, ss[j], x) && NodeCommitOk(c, ss[j'], i)
    ensures var p, q := CommittedLog(ss[j].nodes[x]), CommittedLog(ss[j'].nodes[i]);
            p <= q || q <= p
  {
    var a, b := ss[j].nodes[x], ss[j'].nodes[i];
    CommitRun(c, ss, acts, j);
    CommitRun(c, ss, acts, j');
    LaterRun(c, ss, acts, j, j');
    CommittedLater(c, ss[j], ss[j'], CommittedLog(a), a.log.commitTerm, a.log.commitTerm);
    CommittedChain(c, ss[j'], CommittedLog(a), CommittedLog(b), a.log.commitTerm, b.log.commitTerm);
  }

  /** What was committed in an earlier term does not go on after an entry of this term. */
  lemma EarlierEnds(es: seq<Entry>, commit: nat, q: seq<Entry>)
    requires Ordered(es) && commit <= |es| && q < es[..commit] && q != []
    ensures TermAt(es, commit) >= q[|q| - 1].term
  {
    OrderedTerms(es, |q| - 1, commit - 1);
  }

  lemma LeaderCommitted(c: Config, s: State, i: NodeID)
    requires NodeCommitOk(c, s, i) && LogInv(s) && i in s.nodes && s.nodes[i].role.Leader?
    requires s.nodes[i].log.commitTerm == s.nodes[i].term
    ensures CommittedLog(s.nodes[i]) != [] && LastTerm(CommittedLog(s.nodes[i])) == s.nodes[i].term
  {
    assert NodeLogOk(s, i) && TermLogOk(s.h, s.nodes[i].term);
  }

  /** The leader has committed all that was committed when the read was accepted. */
  lemma CommittedSince(c: Config, ss: seq<State>, acts: seq<Action>, j: nat, j': nat, i: NodeID, rd: Read, x: NodeID)
    requires Run(c, true, ss, acts) && RaftReads.Served(ss, acts, j, j', i, rd) && x in ss[j].nodes
    requires NodeCommitOk(c, ss[j], x) && NodeCommitOk(c, ss[j'], i) && NodeLogOk(ss[j], x) && LogInv(ss[j'])
    requires ss[j'].nodes[i].log.commitTerm == ss[j'].nodes[i].term
    ensures CommittedLog(ss[j].nodes[x]) <= CommittedLog(ss[j'].nodes[i])
  {
    var a, q := ss[j].nodes[x], CommittedLog(ss[j'].nodes[i]);
    CommitsAgree(c, ss, acts, j, j', x, i);
    LeaderCommitted(c, ss[j'], i);
    CommittedByThen(c, ss, acts, j, j', i, rd, x);
    CommittedForever(c, ss, acts, j, j', i);
    if q < CommittedLog(a) {
      EarlierEnds(a.log.entries, a.log.commitIndex, q);
    }
  }

  lemma AppliedStays(n: Node, n': Node)
    requires CommitExtends(n, n') && n'.log.commitIndex <= |n'.log.entries|
    requires n.applied <= n.log.entries && |n.applied| <= n.log.commitIndex
    ensures n.applied <= CommittedLog(n')
  {
    assert n.applied <= n.log.entries[..n.log.commitIndex];
  }

  lemma AppliedIsCommitted(c: Config, ss: seq<State>, acts: seq<Action>, k: nat, j: nat, x: NodeID)
    requires Run(c, true, ss, acts) && k <= j < |ss| && x in ss[k].nodes
    ensures x in ss[j].nodes && ss[j].nodes[x].log.commitIndex <= |ss[j].nodes[x].log.entries|
    ensures ss[k].nodes[x].applied <= CommittedLog(ss[j].nodes[x])
  {
    CommitRun(c, ss, acts, k);
    CommitRun(c, ss, acts, j);
    CommittedForever(c, ss, acts, k, j, x);
    assert NodeCommitOk(c, ss[k], x) && NodeCommitOk(c, ss[j], x);
    AppliedStays(ss[k].nodes[x], ss[j].nodes[x]);
  }

  /** Fresh reads. In an in-order run, a read that its leader executes after committing an
      entry of its own term is answered from a state that holds everything that any node
      had applied at any moment before the read was accepted. */
  lemma FreshRead(c: Config, ss: seq<State>, acts: seq<Action>, j: nat, j': nat, i: NodeID, rd: Read, k: nat, x: NodeID)
    requires Run(c, true, ss, acts) && RaftReads.Served(ss, acts, j, j', i, rd)
    requires ss[j'].nodes[i].log.commitTerm == ss[j'].nodes[i].term
    requires k <= j && x in ss[k].nodes
    ensures ss[k].nodes[x].applied <= ss[j'].nodes[i].applied
    ensures ss[j'].net <= ss[j' + 1].net
    ensures i in ss[j' + 1].up ==> Answer(c.machine, ss[j'].nodes[i], rd) in ss[j' + 1].net[|ss[j'].net|..]
  {
    AppliedIsCommitted(c, ss, acts, k, j, x);
    CommitRun(c, ss, acts, j);
    CommitRun(c, ss, acts, j');
    assert NodeCommitOk(c, ss[j], x) && NodeLogOk(ss[j], x) && NodeCommitOk(c, ss[j'], i);
    CommittedSince(c, ss, acts, j, j', i, rd, x);
    assert StepAt(c, true, ss, acts, j');
    ExecutingStep(c, ss[j'], acts[j'], ss[j' + 1], i, rd);
    CaughtUpRun(c, ss, acts, j', i);
    var n := ss[j'].nodes[i];
    assert n.applied == CommittedLog(n);
  }
}
