/** What one Raft node does with one event, as functions from node state to node
    state and outbound messages. The classes of the program are proved to
    compute these functions; the cluster runs them. */
module RaftNode {
  import opened Basics
  import opened RaftTypes

  /** The effect of an event: the new node, what it sent, and whether it still
      runs. A failed assertion or error return halts the node: the messages of
      that step are lost, and what it had made durable by then stays. */
  datatype Effect = Effect(node: Node, out: seq<Envelope>, ok: bool)

  function Halt(n: Node): Effect { Effect(n, [], false) }

  function Emit(e: Effect, before: seq<Envelope>): Effect {
    if e.ok then e.(out := before + e.out) else e
  }

  // ---- The log ----

  /** How many entries, placed from index `first`, agree in term with the log,
      given that the first `k` do. */
  function Matched(log: seq<Entry>, first: Index, es: seq<Entry>, k: nat): (r: nat)
    requires first >= 1 && k <= |es| && first - 1 + k <= |log|
    ensures k <= r <= |es| && first - 1 + r <= |log|
    ensures forall j :: k <= j < r ==> log[first - 1 + j].term == es[j].term
    ensures r < |es| ==> first - 1 + r == |log| || log[first - 1 + r].term != es[r].term
    decreases |es| - k
  {
    if k == |es| || first - 1 + k == |log| || log[first - 1 + k].term != es[k].term then k
    else Matched(log, first, es, k + 1)
  }

  /** Splices entries into a log: skip what matches, replace the rest, and cut
      everything after the last spliced entry. `None` is an error return. */
  function Splice(log: seq<Entry>, commitIndex: Index, es: seq<Entry>): Option<seq<Entry>> {
    if es == [] then Some(log)
    else if es[0].index == 0 || es[0].index > |log| + 1 then None
    else if !Contiguous(es) then None
    else
      var first := es[0].index;
      var k := Matched(log, first, es, 0);
      if k < |es| && es[k].index <= commitIndex then None
      else Some(log[..first - 1 + k] + es[k..])
  }

  /** The position up to which committed entries exist. */
  function Applicable(log: Log): nat {
    if log.commitIndex <= |log.entries| then log.commitIndex else |log.entries|
  }

  /** Applies entries in order until `upto`, or until an internal error. */
  function ApplyUpTo(m: Machine, es: seq<Entry>, applied: seq<Entry>, upto: nat): (seq<Entry>, bool)
    requires upto <= |es|
    decreases upto - |applied|
  {
    if |applied| >= upto then (applied, true)
    else match m.apply(applied, es[|applied|])
      case InternalError => (applied, false)
      case Reply(_) => ApplyUpTo(m, es, applied + [es[|applied|]], upto)
  }

  function MaybeApply(m: Machine, n: Node): (Node, bool) {
    if n.log.commitIndex < |n.applied| then (n, false)
    else
      var (applied, ok) := ApplyUpTo(m, n.log.entries, n.applied, Applicable(n.log));
      (n.(applied := applied), ok)
  }

  // ---- Sending ----

  function Broadcast(n: Node, msg: Message): seq<Envelope> {
    seq(|n.peers|, i requires 0 <= i < |n.peers| => Envelope(n.id, n.peers[i], n.term, msg))
  }

  function Heartbeats(n: Node): seq<Envelope>
    requires n.role.Leader?
  {
    Broadcast(n, Heartbeat(n.log.commitIndex, n.log.commitTerm, n.role.readSeq))
  }

  function Aborts(n: Node, ids: seq<RequestID>): seq<Envelope> {
    seq(|ids|, i requires 0 <= i < |ids| => Envelope(n.id, n.id, n.term, ClientResponse(ids[i], Abort)))
  }

  /** Whether the entries pending for a peer can be read back from the log. */
  predicate CanSend(n: Node, peer: NodeID) {
    && n.role.Leader?
    && peer in n.role.progress
    && n.role.progress[peer].next <= |n.log.entries| + 1
  }

  /** All entries from the peer's next index to the end of the leader's log. */
  function SendLog(n: Node, peer: NodeID): Envelope
    requires CanSend(n, peer)
  {
    var next := n.role.progress[peer].next;
    var base := if next > 1 then next - 1 else 0;
    Envelope(n.id, peer, n.term, Append(base, TermAt(n.log.entries, base), n.log.entries[base..]))
  }

  // ---- Leader ----

  /** Appends a command to the leader's log and sends it to every peer. */
  function Propose(n: Node, command: Option<Command>): Effect
    requires n.role.Leader?
  {
    var entry := Entry(|n.log.entries| + 1, n.term, command);
    var n' := n.(log := n.log.(entries := n.log.entries + [entry]));
    if forall p :: p in n.peers ==> CanSend(n', p) then
      Effect(n', seq(|n.peers|, i requires 0 <= i < |n.peers| => SendLog(n', n.peers[i])), true)
    else Halt(n')
  }

  function Max(s: seq<nat>): (r: nat)
    requires s != []
    ensures r in s
    ensures forall x :: x in s ==> x <= r
  {
    if |s| == 1 then s[0]
    else
      var rest := Max(s[1..]);
      assert forall x :: x in s ==> x == s[0] || x in s[1..];
      if s[0] >= rest then s[0] else rest
  }

  function Without(s: seq<nat>, x: nat): (r: seq<nat>)
    requires x in s
    ensures |r| == |s| - 1
    ensures forall y :: y in r ==> y in s
  {
    if s[0] == x then s[1..] else [s[0]] + Without(s[1..], x)
  }

  /** The k-th largest value, counting from 0. */
  function NthLargest(s: seq<nat>, k: nat): nat
    requires k < |s|
    decreases k
  {
    if k == 0 then Max(s) else NthLargest(Without(s, Max(s)), k - 1)
  }

  /** The largest value that a quorum of the given values reach. */
  function QuorumValue(s: seq<nat>): nat
    requires s != []
  {
    NthLargest(s, QuorumSize(|s|) - 1)
  }

  predicate TracksPeers(n: Node) {
    n.role.Leader? && forall p :: p in n.peers ==> p in n.role.progress
  }

  function LastIndexes(n: Node): seq<nat>
    requires TracksPeers(n)
  {
    seq(|n.peers|, i requires 0 <= i < |n.peers| => n.role.progress[n.peers[i]].last) + [|n.log.entries|]
  }

  function ReadSeqs(n: Node): seq<nat>
    requires TracksPeers(n)
  {
    seq(|n.peers|, i requires 0 <= i < |n.peers| => n.role.progress[n.peers[i]].readSeq) + [n.role.readSeq]
  }

  /** Answers to the writers of the entries applied from position `lo` on. */
  function Replies(m: Machine, id: NodeID, term: Term, writes: map<Index, Write>, applied: seq<Entry>,
                   lo: nat): seq<Envelope>
    requires lo <= |applied|
    decreases |applied| - lo
  {
    if lo == |applied| then []
    else
      var rest := Replies(m, id, term, writes, applied, lo + 1);
      match m.apply(applied[..lo], applied[lo])
      case InternalError => rest
      case Reply(outcome) =>
        if lo + 1 in writes then
          [Envelope(id, writes[lo + 1].from, term, ClientResponse(writes[lo + 1].id, WriteDone(outcome)))] + rest
        else rest
  }

  /** Commits up to an entry of this term, applies, and answers the writers. */
  function CommitTo(m: Machine, n: Node, q: Index): Effect
    requires n.role.Leader?
  {
    var n1 := n.(log := n.log.(commitIndex := q, commitTerm := n.term));
    var (n2, ok) := MaybeApply(m, n1);
    if !ok || |n2.applied| < |n.applied| then Halt(n2)
    else
      var lo, hi := |n.applied|, |n2.applied|;
      var left := map i | i in n.role.writes && !(lo < i <= hi) :: n.role.writes[i];
      Effect(n2.(role := n.role.(writes := left)), Replies(m, n.id, n.term, n.role.writes, n2.applied, lo), true)
  }

  /** Commits what a quorum has stored, if it is of this term, and applies it. */
  function MaybeCommitAndApply(m: Machine, n: Node): Effect
    requires TracksPeers(n)
  {
    var q := QuorumValue(LastIndexes(n));
    if q <= n.log.commitIndex then Effect(n, [], true)
    else if q > |n.log.entries| then Halt(n)
    else if n.log.entries[q - 1].term != n.term then Effect(n, [], true)
    else CommitTo(m, n, q)
  }

  /** How many of the pending reads, from the front, have a confirmed number. */
  function ReadyCount(queue: seq<Read>, confirmed: nat): (k: nat)
    ensures k <= |queue|
    ensures forall i :: 0 <= i < k ==> queue[i].seqNo <= confirmed
    ensures k < |queue| ==> queue[k].seqNo > confirmed
  {
    if queue == [] || queue[0].seqNo > confirmed then 0 else 1 + ReadyCount(queue[1..], confirmed)
  }

  /** Executes the reads at the front of the queue that a quorum has confirmed. */
  function MaybeRead(m: Machine, n: Node): Effect
    requires TracksPeers(n)
  {
    if n.role.queue == [] then Effect(n, [], true)
    else
      var k := ReadyCount(n.role.queue, QuorumValue(ReadSeqs(n)));
      Effect(n.(role := n.role.(queue := n.role.queue[k..])),
             seq(k, i requires 0 <= i < k => Envelope(n.id, n.role.queue[i].from, n.term,
                      ClientResponse(n.role.queue[i].id,
                                     ReadDone(m.read(n.applied, n.role.queue[i].command))))), true)
  }

  function LeaderHeartbeatResponse(m: Machine, n: Node, from: NodeID, lastIndex: Index, lastTerm: Term,
                                   readSeq: nat): Effect
    requires n.role.Leader?
  {
    if readSeq > n.role.readSeq || from !in n.role.progress || !TracksPeers(n) then Halt(n)
    else
      var p := n.role.progress[from];
      var e := if readSeq > p.readSeq
               then MaybeRead(m, n.(role := n.role.(progress := n.role.progress[from := p.(readSeq := readSeq)])))
               else Effect(n, [], true);
      if lastIndex < |n.log.entries| || !Has(n.log.entries, lastIndex, lastTerm) then
        if CanSend(e.node, from) then e.(out := e.out + [SendLog(e.node, from)]) else Halt(e.node)
      else e
  }

  function LeaderAppendResponse(m: Machine, n: Node, from: NodeID, reject: bool, lastIndex: Index,
                                lastTerm: Term): Effect
    requires n.role.Leader?
  {
    if from !in n.role.progress || !TracksPeers(n) then Halt(n)
    else
      var p := n.role.progress[from];
      if reject then
        var p' := p.(next := if p.next > 1 then p.next - 1 else p.next);
        var n' := n.(role := n.role.(progress := n.role.progress[from := p']));
        if CanSend(n', from) then Effect(n', [SendLog(n', from)], true) else Halt(n')
      else if lastIndex > |n.log.entries| || lastTerm > LastTerm(n.log.entries) then Halt(n)
      else if lastIndex > p.last then
        MaybeCommitAndApply(m, n.(role := n.role.(progress :=
          n.role.progress[from := p.(last := lastIndex, next := lastIndex + 1)])))
      else Effect(n, [], true)
  }

  function LeaderRequest(m: Machine, n: Node, from: NodeID, id: RequestID, request: Request): Effect
    requires n.role.Leader?
  {
    if !TracksPeers(n) then Halt(n)
    else match request
      case ReadRequest(command) =>
        var seqNo := n.role.readSeq + 1;
        var n' := n.(role := n.role.(readSeq := seqNo, queue := n.role.queue + [Read(seqNo, from, id, command)]));
        var e := if n.peers == [] then MaybeRead(m, n') else Effect(n', [], true);
        e.(out := e.out + Heartbeats(e.node))
      case WriteRequest(command) =>
        var e := Propose(n, Some(command));
        if !e.ok then e
        else
          var n' := e.node.(role := e.node.role.(writes :=
            e.node.role.writes[|e.node.log.entries| := Write(from, id)]));
          if n.peers == [] then Emit(MaybeCommitAndApply(m, n'), e.out) else Effect(n', e.out, true)
      case StatusRequest =>
        Effect(n, [Envelope(n.id, from, n.term, ClientResponse(id, StatusDone(n.log.commitIndex, |n.applied|)))], true)
  }

  function LeaderStep(m: Machine, n: Node, msg: Envelope): Effect
    requires n.role.Leader?
  {
    match msg.message
    case Heartbeat(_, _, _) => Halt(n)
    case Append(_, _, _) => Halt(n)
    case HeartbeatResponse(lastIndex, lastTerm, readSeq) =>
      LeaderHeartbeatResponse(m, n, msg.from, lastIndex, lastTerm, readSeq)
    case AppendResponse(reject, lastIndex, lastTerm) =>
      LeaderAppendResponse(m, n, msg.from, reject, lastIndex, lastTerm)
    case ClientRequest(id, request) => LeaderRequest(m, n, msg.from, id, request)
    case Campaign(_, _) => Effect(n, [], true)
    case CampaignResponse(_) => Effect(n, [], true)
    case ClientResponse(_, _) => Halt(n)
  }

  /** The pending writes of a leader in index order, up to a position. */
  function WritesUpTo(writes: map<Index, Write>, k: nat): seq<Write> {
    if k == 0 then []
    else WritesUpTo(writes, k - 1) + (if k in writes then [writes[k]] else [])
  }

  /** The answers a leader gives when it loses its term: it aborts everything. */
  function LeaderAborts(n: Node): seq<Envelope>
    requires n.role.Leader?
  {
    var ws := WritesUpTo(n.role.writes, |n.log.entries|);
    seq(|ws|, i requires 0 <= i < |ws| => Envelope(n.id, ws[i].from, n.term, ClientResponse(ws[i].id, Abort)))
    + seq(|n.role.queue|, i requires 0 <= i < |n.role.queue| =>
            Envelope(n.id, n.role.queue[i].from, n.term, ClientResponse(n.role.queue[i].id, Abort)))
  }

  // ---- Candidate ----

  /** Wins the election: heartbeat, then a noop of the new term. */
  function IntoLeader(n: Node): Effect {
    var next := |n.log.entries| + 1;
    var progress := map p | p in n.peers :: Progress(next, 0, 0);
    var n' := n.(role := Leader(progress, map[], [], 0));
    Emit(Propose(n', None), Heartbeats(n'))
  }

  /** Starts an election in the next term, voting for itself. */
  function StartCampaign(n: Node): Effect {
    var n' := n.(term := n.term + 1, vote := Some(n.id), role := Candidate({n.id}));
    Effect(n', Broadcast(n', Campaign(|n.log.entries|, LastTerm(n.log.entries))), true)
  }

  function CandidateStep(m: Machine, n: Node, msg: Envelope): Effect
    requires n.role.Candidate?
  {
    match msg.message
    case Campaign(_, _) => Effect(n, [], true)
    case CampaignResponse(vote) =>
      if !vote then Effect(n, [], true)
      else
        var n' := n.(role := Candidate(n.role.votes + {msg.from}));
        if |n'.role.votes| >= QuorumSize(|n.peers| + 1) then IntoLeader(n') else Effect(n', [], true)
    case Heartbeat(_, _, _) => FollowerStep(m, n.(role := Follower(Some(msg.from), [])), msg)
    case Append(_, _, _) => FollowerStep(m, n.(role := Follower(Some(msg.from), [])), msg)
    case ClientRequest(id, _) =>
      Effect(n, [Envelope(n.id, msg.from, n.term, ClientResponse(id, Abort))], true)
    case HeartbeatResponse(_, _, _) => Halt(n)
    case AppendResponse(_, _, _) => Halt(n)
    case ClientResponse(_, _) => Halt(n)
  }

  // ---- Follower ----

  /** Follows a leader found in the current term; any other leader is a bug. */
  function Follow(n: Node, leader: NodeID): Effect
    requires n.role.Follower?
  {
    match n.role.leader
    case Some(l) => if l == leader then Effect(n, [], true) else Halt(n)
    case None => Effect(n.(role := Follower(Some(leader), [])), Aborts(n, n.role.forwarded), true)
  }

  function FollowerHeartbeat(m: Machine, n: Node, from: NodeID, commitIndex: Index, commitTerm: Term,
                             readSeq: nat): Effect
    requires n.role.Follower?
  {
    var f := Follow(n, from);
    if !f.ok then f
    else
      var es := n.log.entries;
      var out := f.out + [Envelope(n.id, from, n.term, HeartbeatResponse(|es|, LastTerm(es), readSeq))];
      if Has(es, commitIndex, commitTerm) && commitIndex > n.log.commitIndex then
        var n1 := f.node.(log := n.log.(commitIndex := commitIndex, commitTerm := commitTerm));
        var (n2, ok) := MaybeApply(m, n1);
        if ok then Effect(n2, out, true) else Halt(n2)
      else Effect(f.node, out, true)
  }

  function FollowerAppend(n: Node, from: NodeID, baseIndex: Index, baseTerm: Term, es: seq<Entry>): Effect
    requires n.role.Follower?
  {
    var f := Follow(n, from);
    if !f.ok then f
    else
      var reject := baseIndex > 0 && !Has(n.log.entries, baseIndex, baseTerm);
      var spliced := if reject then Some(n.log.entries) else Splice(n.log.entries, n.log.commitIndex, es);
      match spliced
      case None => Halt(f.node)
      case Some(entries) =>
        Effect(f.node.(log := n.log.(entries := entries)),
               f.out + [Envelope(n.id, from, n.term, AppendResponse(reject, |entries|, LastTerm(entries)))], true)
  }

  function FollowerCampaign(n: Node, from: NodeID, lastIndex: Index, lastTerm: Term): Effect {
    var grant := (n.vote.None? || n.vote == Some(from)) && NotNewer(n.log.entries, lastIndex, lastTerm);
    Effect(if grant then n.(vote := Some(from)) else n,
           [Envelope(n.id, from, n.term, CampaignResponse(grant))], true)
  }

  function RemoveID(ids: seq<RequestID>, id: RequestID): seq<RequestID> {
    if ids == [] then []
    else if ids[0] == id then RemoveID(ids[1..], id)
    else [ids[0]] + RemoveID(ids[1..], id)
  }

  function FollowerStep(m: Machine, n: Node, msg: Envelope): Effect
    requires n.role.Follower?
  {
    match msg.message
    case Heartbeat(commitIndex, commitTerm, readSeq) =>
      FollowerHeartbeat(m, n, msg.from, commitIndex, commitTerm, readSeq)
    case Append(baseIndex, baseTerm, es) => FollowerAppend(n, msg.from, baseIndex, baseTerm, es)
    case Campaign(lastIndex, lastTerm) => FollowerCampaign(n, msg.from, lastIndex, lastTerm)
    case CampaignResponse(_) => Effect(n, [], true)
    case ClientRequest(id, request) =>
      if msg.from != n.id then Halt(n)
      else (match n.role.leader
        case Some(leader) =>
          var ids := if id in n.role.forwarded then n.role.forwarded else n.role.forwarded + [id];
          Effect(n.(role := n.role.(forwarded := ids)), [Envelope(n.id, leader, n.term, msg.message)], true)
        case None => Effect(n, [Envelope(n.id, n.id, n.term, ClientResponse(id, Abort))], true))
    case ClientResponse(id, response) =>
      if n.role.leader != Some(msg.from) then Halt(n)
      else if id in n.role.forwarded then
        Effect(n.(role := n.role.(forwarded := RemoveID(n.role.forwarded, id))),
               [Envelope(n.id, n.id, n.term, ClientResponse(id, response))], true)
      else Effect(n, [], true)
    case HeartbeatResponse(_, _, _) => Halt(n)
    case AppendResponse(_, _, _) => Halt(n)
  }

  // ---- Events ----

  /** What a node answers when it leaves its term behind. */
  function LeavingTerm(n: Node): seq<Envelope> {
    match n.role
    case Follower(_, forwarded) => Aborts(n, forwarded)
    case Candidate(_) => []
    case Leader(_, _, _, _) => LeaderAborts(n)
  }

  /** Discovers a later term: a leaderless follower that has not voted. */
  function DiscoverTerm(n: Node, term: Term): Node {
    n.(term := term, vote := None, role := Follower(None, []))
  }

  function RoleStep(m: Machine, n: Node, msg: Envelope): Effect {
    match n.role
    case Follower(_, _) => FollowerStep(m, n, msg)
    case Candidate(_) => CandidateStep(m, n, msg)
    case Leader(_, _, _, _) => LeaderStep(m, n, msg)
  }

  /** Steps a message: drops past terms, moves to future terms, and otherwise
      lets the current role handle it. */
  function Step(m: Machine, n: Node, msg: Envelope): Effect {
    if msg.to != n.id || !(msg.from == n.id || msg.from in n.peers) then Halt(n)
    else if msg.term < n.term then Effect(n, [], true)
    else if msg.term > n.term then Emit(RoleStep(m, DiscoverTerm(n, msg.term), msg), LeavingTerm(n))
    else RoleStep(m, n, msg)
  }

  /** A timer fires: a follower or candidate campaigns, a leader sends heartbeats. */
  function Timeout(m: Machine, n: Node): Effect {
    match n.role
    case Follower(_, forwarded) =>
      var (n1, ok) := MaybeApply(m, n);
      if ok then Emit(StartCampaign(n1), Aborts(n, forwarded)) else Halt(n1)
    case Candidate(_) => StartCampaign(n)
    case Leader(_, _, _, _) => Effect(n, Heartbeats(n), true)
  }

  /** Boots a node from what was durable. The state machine may have lost a
      suffix of what it had applied. A lone node elects itself at once. */
  function Boot(m: Machine, n: Node, keep: nat): Effect
    requires keep <= |n.applied|
  {
    var n0 := n.(applied := n.applied[..keep], role := Follower(None, []));
    if n.peers == [] then
      var e := Timeout(m, n0);
      if e.ok then IntoLeader(e.node) else e
    else Effect(n0, [], true)
  }

  datatype Event = Receive(msg: Envelope) | Fire | Restart(keep: nat)

  predicate Possible(n: Node, ev: Event) {
    ev.Restart? ==> ev.keep <= |n.applied|
  }

  function Handle(m: Machine, n: Node, ev: Event): Effect
    requires Possible(n, ev)
  {
    match ev
    case Receive(msg) => Step(m, n, msg)
    case Fire => Timeout(m, n)
    case Restart(keep) => Boot(m, n, keep)
  }
}
