/** Messages, log entries and node state of the Raft implementation, as values.

    Indexes and terms are unbounded naturals; the u64 overflow of the program
    is out of reach in practice and is not modelled. */
module RaftTypes {
  import opened Basics

  type NodeID = nat
  type Term = nat
  type Index = nat
  type Command = Bytes
  type RequestID = Bytes

  /** A log entry. A `None` command is the noop proposed by a new leader. */
  datatype Entry = Entry(index: Index, term: Term, command: Option<Command>)

  datatype Request = ReadRequest(command: Command) | WriteRequest(command: Command) | StatusRequest

  /** The result of a state machine operation, as returned to a client. */
  datatype Outcome = Success(bytes: Bytes) | Failure(error: nat)

  /** An internal error halts the node and does not count as an application. */
  datatype ApplyResult = Reply(outcome: Outcome) | InternalError

  datatype Response =
    | Abort
    | ReadDone(outcome: Outcome)
    | WriteDone(outcome: Outcome)
    | StatusDone(commitIndex: Index, applyIndex: Index)

  datatype Message =
    | Heartbeat(commitIndex: Index, commitTerm: Term, readSeq: nat)
    | HeartbeatResponse(lastIndex: Index, lastTerm: Term, readSeq: nat)
    | Campaign(lastIndex: Index, lastTerm: Term)
    | CampaignResponse(vote: bool)
    | Append(baseIndex: Index, baseTerm: Term, entries: seq<Entry>)
    | AppendResponse(reject: bool, lastIndex: Index, lastTerm: Term)
    | ClientRequest(id: RequestID, request: Request)
    | ClientResponse(id: RequestID, response: Response)

  datatype Envelope = Envelope(from: NodeID, to: NodeID, term: Term, message: Message)

  /** The replicated state machine: deterministic in the entries applied so far. */
  datatype Machine = Machine(
    apply: (seq<Entry>, Entry) -> ApplyResult,
    read: (seq<Entry>, Command) -> Outcome)

  /** A state machine that always succeeds. */
  ghost predicate Total(m: Machine) {
    forall applied, x :: m.apply(applied, x).Reply?
  }

  /** Replication progress of one peer, as its leader sees it. */
  datatype Progress = Progress(next: Index, last: Index, readSeq: nat)

  datatype Write = Write(from: NodeID, id: RequestID)
  datatype Read = Read(seqNo: nat, from: NodeID, id: RequestID, command: Command)

  /** The three roles. The vote of a follower is kept once, with the durable term. */
  datatype Role =
    | Follower(leader: Option<NodeID>, forwarded: seq<RequestID>)
    | Candidate(votes: set<NodeID>)
    | Leader(progress: map<NodeID, Progress>, writes: map<Index, Write>, queue: seq<Read>, readSeq: nat)

  /** The durable log: contiguous entries from index 1, and the commit position. */
  datatype Log = Log(entries: seq<Entry>, commitIndex: Index, commitTerm: Term)

  /** A node. Everything but `role` survives a restart. `peers` lists the other
      members once each; `applied` is what the state machine has applied. */
  datatype Node = Node(
    id: NodeID, peers: seq<NodeID>, term: Term, vote: Option<NodeID>,
    log: Log, applied: seq<Entry>, role: Role)

  function LastTerm(es: seq<Entry>): Term {
    if es == [] then 0 else es[|es| - 1].term
  }

  /** The term at an index, 0 at index 0. */
  function TermAt(es: seq<Entry>, i: Index): Term
    requires i <= |es|
  {
    if i == 0 then 0 else es[i - 1].term
  }

  predicate Has(es: seq<Entry>, i: Index, t: Term) {
    if 1 <= i <= |es| then es[i - 1].term == t else i == 0 && t == 0
  }

  /** A voter's log is not newer than a candidate's last index and term. */
  predicate NotNewer(es: seq<Entry>, lastIndex: Index, lastTerm: Term) {
    !(LastTerm(es) > lastTerm || (LastTerm(es) == lastTerm && |es| > lastIndex))
  }

  predicate ContiguousAt(es: seq<Entry>, i: nat) {
    i + 1 < |es| ==> es[i].index + 1 == es[i + 1].index
  }

  predicate Contiguous(es: seq<Entry>) {
    forall i :: 0 <= i < |es| ==> ContiguousAt(es, i)
  }

  /** A strict majority. */
  function QuorumSize(size: nat): nat {
    size / 2 + 1
  }
}
