/** Request conservation: while a node leads a term, every request it takes is
    either pending or was answered once, and it loses leadership only by
    answering all of them. Requests are counted one ticket at a time. */
module RaftRequests {
  import opened Basics
  import opened RaftTypes
  import opened RaftNode

  datatype Ticket = Ticket(from: NodeID, id: RequestID)

  /** How often a ticket is answered by outbound messages. */
  function Answered(out: seq<Envelope>, t: Ticket): nat {
    if out == [] then 0
    else
      var o := out[|out| - 1];
      Answered(out[..|out| - 1], t) + (if o.message.ClientResponse? && Ticket(o.to, o.message.id) == t then 1 else 0)
  }

  function PendingWrites(writes: map<Index, Write>, lo: nat, hi: nat, t: Ticket): nat
    requires lo <= hi
  {
    if lo == hi then 0
    else PendingWrites(writes, lo, hi - 1, t)
         + (if hi in writes && Ticket(writes[hi].from, writes[hi].id) == t then 1 else 0)
  }

  function PendingReads(queue: seq<Read>, t: Ticket): nat {
    if queue == [] then 0
    else
      var rd := queue[|queue| - 1];
      PendingReads(queue[..|queue| - 1], t) + (if Ticket(rd.from, rd.id) == t then 1 else 0)
  }

  /** How often a leader has taken and not yet answered a ticket. */
  function Pending(n: Node, t: Ticket): nat {
    if n.role.Leader? then PendingWrites(n.role.writes, 0, |n.log.entries|, t) + PendingReads(n.role.queue, t) else 0
  }

  /** A request the node handles. One of a past term is dropped unseen. */
  function Taken(n: Node, ev: Event, t: Ticket): nat {
    if && ev.Receive? && ev.msg.term >= n.term && ev.msg.message.ClientRequest?
       && Ticket(ev.msg.from, ev.msg.message.id) == t
    then 1 else 0
  }

  /** Pending writes sit at indexes of the log. */
  predicate WritesLogged(n: Node) {
    n.role.Leader? ==> forall i :: i in n.role.writes ==> 1 <= i <= |n.log.entries|
  }

  /** The same leadership goes on, with no less log. */
  predicate Continues(n: Node, n': Node) {
    n.role.Leader? && n'.role.Leader? && n'.term == n.term && n.log.entries <= n'.log.entries && WritesLogged(n')
  }

  /** What was pending is still pending or now answered. */
  ghost predicate Answers(n: Node, e: Effect, t: Ticket) {
    Continues(n, e.node) && Pending(n, t) == Pending(e.node, t) + Answered(e.out, t)
  }

  /** What was pending or is taken now is still pending or now answered. */
  ghost predicate Balanced(n: Node, ev: Event, e: Effect, t: Ticket) {
    && (e.node.role.Leader? ==> Continues(n, e.node))
    && Pending(n, t) + Taken(n, ev, t) == Pending(e.node, t) + Answered(e.out, t)
  }

  // ---- Counting ----

  lemma {:induction false} AnsweredConcat(a: seq<Envelope>, b: seq<Envelope>, t: Ticket)
    ensures Answered(a + b, t) == Answered(a, t) + Answered(b, t)
  {
    if b == [] {
      assert a + b == a;
    } else {
      AnsweredConcat(a, b[..|b| - 1], t);
      assert (a + b)[..|a + b| - 1] == a + b[..|b| - 1];
    }
  }

  predicate Quiet(out: seq<Envelope>) {
    forall k :: 0 <= k < |out| ==> !out[k].message.ClientResponse?
  }

  lemma {:induction false} QuietAnswers(out: seq<Envelope>, t: Ticket)
    requires Quiet(out)
    ensures Answered(out, t) == 0
  {
    if out != [] {
      QuietAnswers(out[..|out| - 1], t);
    }
  }

  lemma {:induction false} ReadsAnswered(out: seq<Envelope>, queue: seq<Read>, t: Ticket)
    requires |out| == |queue|
    requires forall k :: 0 <= k < |out| ==>
               out[k].message.ClientResponse? && out[k].to == queue[k].from && out[k].message.id == queue[k].id
    ensures Answered(out, t) == PendingReads(queue, t)
  {
    if out != [] {
      ReadsAnswered(out[..|out| - 1], queue[..|out| - 1], t);
    }
  }

  lemma {:induction false} PendingReadsConcat(a: seq<Read>, b: seq<Read>, t: Ticket)
    ensures PendingReads(a + b, t) == PendingReads(a, t) + PendingReads(b, t)
  {
    if b == [] {
      assert a + b == a;
    } else {
      PendingReadsConcat(a, b[..|b| - 1], t);
      assert (a + b)[..|a + b| - 1] == a + b[..|b| - 1];
    }
  }

  lemma {:induction false} PendingWritesSplit(writes: map<Index, Write>, lo: nat, mid: nat, hi: nat, t: Ticket)
    requires lo <= mid <= hi
    ensures PendingWrites(writes, lo, hi, t) == PendingWrites(writes, lo, mid, t) + PendingWrites(writes, mid, hi, t)
  {
    if mid < hi {
      PendingWritesSplit(writes, lo, mid, hi - 1, t);
    }
  }

  lemma {:induction false} PendingWritesSame(writes: map<Index, Write>, writes': map<Index, Write>, lo: nat, hi: nat,
                                             t: Ticket)
    requires lo <= hi
    requires forall i :: lo < i <= hi ==> (i in writes <==> i in writes') && (i in writes ==> writes[i] == writes'[i])
    ensures PendingWrites(writes, lo, hi, t) == PendingWrites(writes', lo, hi, t)
  {
    if lo < hi {
      PendingWritesSame(writes, writes', lo, hi - 1, t);
    }
  }

  lemma {:induction false} PendingWritesNone(writes: map<Index, Write>, lo: nat, hi: nat, t: Ticket)
    requires lo <= hi && forall i :: lo < i <= hi ==> i !in writes
    ensures PendingWrites(writes, lo, hi, t) == 0
  {
    if lo < hi {
      PendingWritesNone(writes, lo, hi - 1, t);
    }
  }

  lemma {:induction false} WritesAborted(out: seq<Envelope>, writes: map<Index, Write>, k: nat, t: Ticket)
    requires |out| == |WritesUpTo(writes, k)|
    requires forall j :: 0 <= j < |out| ==>
               && out[j].message.ClientResponse? && out[j].to == WritesUpTo(writes, k)[j].from
               && out[j].message.id == WritesUpTo(writes, k)[j].id
    ensures Answered(out, t) == PendingWrites(writes, 0, k, t)
  {
    if k > 0 {
      if k in writes {
        WritesAborted(out[..|out| - 1], writes, k - 1, t);
      } else {
        WritesAborted(out, writes, k - 1, t);
      }
    }
  }

  /** Applying answers exactly the writes at the newly applied indexes. */
  lemma {:induction false} RepliesAnswer(m: Machine, id: NodeID, term: Term, writes: map<Index, Write>,
                                         applied: seq<Entry>, lo: nat, t: Ticket)
    requires lo <= |applied|
    requires forall j :: lo <= j < |applied| ==> m.apply(applied[..j], applied[j]).Reply?
    ensures Answered(Replies(m, id, term, writes, applied, lo), t) == PendingWrites(writes, lo, |applied|, t)
    decreases |applied| - lo
  {
    if lo < |applied| {
      RepliesAnswer(m, id, term, writes, applied, lo + 1, t);
      PendingWritesSplit(writes, lo, lo + 1, |applied|, t);
      var rest := Replies(m, id, term, writes, applied, lo + 1);
      if lo + 1 in writes {
        var first := Replies(m, id, term, writes, applied, lo)[..1];
        assert Replies(m, id, term, writes, applied, lo) == first + rest;
        AnsweredConcat(first, rest, t);
        assert first[..0] == [];
      }
    }
  }

  lemma {:induction false} AppliedReplies(m: Machine, es: seq<Entry>, applied: seq<Entry>, upto: nat)
    requires upto <= |es| && ApplyUpTo(m, es, applied, upto).1
    ensures var a := ApplyUpTo(m, es, applied, upto).0;
            && applied <= a && (|applied| <= upto ==> |a| == upto) && (|applied| > upto ==> a == applied)
            && forall j :: |applied| <= j < |a| ==> a[j] == es[j] && m.apply(a[..j], a[j]).Reply?
    decreases upto - |applied|
  {
    if |applied| < upto {
      AppliedReplies(m, es, applied + [es[|applied|]], upto);
      var a := ApplyUpTo(m, es, applied, upto).0;
      assert a[..|applied|] == applied;
    }
  }

  // ---- One step at a time ----

  lemma WritesLeave(writes: map<Index, Write>, left: map<Index, Write>, lo: nat, hi: nat, len: nat, t: Ticket)
    requires lo <= hi <= len && left == map i | i in writes && !(lo < i <= hi) :: writes[i]
    ensures PendingWrites(writes, 0, len, t) == PendingWrites(left, 0, len, t) + PendingWrites(writes, lo, hi, t)
  {
    PendingWritesSplit(writes, 0, lo, len, t);
    PendingWritesSplit(writes, lo, hi, len, t);
    PendingWritesSplit(left, 0, lo, len, t);
    PendingWritesSplit(left, lo, hi, len, t);
    PendingWritesSame(writes, left, 0, lo, t);
    PendingWritesNone(left, lo, hi, t);
    PendingWritesSame(writes, left, hi, len, t);
  }

  /** Committing: the writes at the applied indexes leave, answered. */
  lemma CommitAnswers(m: Machine, n: Node, e: Effect, t: Ticket)
    requires TracksPeers(n) && WritesLogged(n) && e == MaybeCommitAndApply(m, n) && e.ok
    ensures Answers(n, e, t)
  {
    if e != Effect(n, [], true) {
      var lo, hi, len := |n.applied|, |e.node.applied|, |n.log.entries|;
      var n1 := n.(log := n.log.(commitIndex := e.node.log.commitIndex, commitTerm := n.term));
      assert MaybeApply(m, n1).1;
      AppliedReplies(m, n.log.entries, n.applied, Applicable(n1.log));
      RepliesAnswer(m, n.id, n.term, n.role.writes, e.node.applied, lo, t);
      if lo < hi {
        WritesLeave(n.role.writes, e.node.role.writes, lo, hi, len, t);
      } else {
        PendingWritesSame(n.role.writes, e.node.role.writes, 0, len, t);
      }
    }
  }

  lemma ReadAnswers(m: Machine, n: Node, e: Effect, t: Ticket)
    requires TracksPeers(n) && WritesLogged(n) && e == MaybeRead(m, n)
    ensures Answers(n, e, t)
  {
    if n.role.queue != [] {
      var k := |n.role.queue| - |e.node.role.queue|;
      ReadsAnswered(e.out, n.role.queue[..k], t);
      assert n.role.queue == n.role.queue[..k] + n.role.queue[k..];
      PendingReadsConcat(n.role.queue[..k], n.role.queue[k..], t);
    }
  }

  /** Other messages sent before or after the answers change nothing. */
  lemma QuietAround(n: Node, e: Effect, before: seq<Envelope>, after: seq<Envelope>, t: Ticket)
    requires Answers(n, e, t) && Quiet(before) && Quiet(after)
    ensures Answers(n, e.(out := before + e.out + after), t)
  {
    QuietAnswers(before, t);
    QuietAnswers(after, t);
    AnsweredConcat(before, e.out, t);
    AnsweredConcat(before + e.out, after, t);
  }

  /** Taking a request into n' and then answering. */
  lemma TakesThenAnswers(n: Node, ev: Event, n': Node, e: Effect, t: Ticket)
    requires Continues(n, n') && Answers(n', e, t) && Pending(n', t) == Pending(n, t) + Taken(n, ev, t)
    ensures Balanced(n, ev, e, t)
  {
  }

  lemma WriteRequestBalance(m: Machine, n: Node, msg: Envelope, e: Effect, t: Ticket)
    requires n.role.Leader? && WritesLogged(n) && msg.term == n.term
    requires msg.message.ClientRequest? && msg.message.request.WriteRequest?
    requires e == LeaderRequest(m, n, msg.from, msg.message.id, msg.message.request) && e.ok
    ensures Balanced(n, Receive(msg), e, t)
  {
    var p := Propose(n, Some(msg.message.request.command));
    var i := |n.log.entries| + 1;
    var n' := p.node.(role := p.node.role.(writes := p.node.role.writes[i := Write(msg.from, msg.message.id)]));
    assert TracksPeers(n');
    WriteTaken(n, msg, p.node, n', t);
    var r := if n.peers == [] then MaybeCommitAndApply(m, n') else Effect(n', [], true);
    if n.peers == [] {
      CommitAnswers(m, n', r, t);
    }
    QuietAround(n', r, p.out, [], t);
    assert e == r.(out := p.out + r.out + []);
    TakesThenAnswers(n, Receive(msg), n', e, t);
  }

  /** A proposed write is one more pending. */
  lemma WriteTaken(n: Node, msg: Envelope, p: Node, n': Node, t: Ticket)
    requires n.role.Leader? && WritesLogged(n) && msg.term == n.term && msg.message.ClientRequest?
    requires p == n.(log := n.log.(entries := p.log.entries)) && |p.log.entries| == |n.log.entries| + 1
    requires n.log.entries <= p.log.entries
    requires n' == p.(role := n.role.(writes := n.role.writes[|n.log.entries| + 1 := Write(msg.from, msg.message.id)]))
    ensures Continues(n, n') && Pending(n', t) == Pending(n, t) + Taken(n, Receive(msg), t)
  {
    PendingWritesSame(n.role.writes, n'.role.writes, 0, |n.log.entries|, t);
  }

  lemma ReadRequestBalance(m: Machine, n: Node, msg: Envelope, e: Effect, t: Ticket)
    requires n.role.Leader? && WritesLogged(n) && msg.term == n.term
    requires msg.message.ClientRequest? && msg.message.request.ReadRequest?
    requires e == LeaderRequest(m, n, msg.from, msg.message.id, msg.message.request) && e.ok
    ensures Balanced(n, Receive(msg), e, t)
  {
    var rd := Read(n.role.readSeq + 1, msg.from, msg.message.id, msg.message.request.command);
    var n' := n.(role := n.role.(readSeq := n.role.readSeq + 1, queue := n.role.queue + [rd]));
    assert TracksPeers(n');
    assert n'.role.queue[..|n.role.queue|] == n.role.queue;
    var r := if n.peers == [] then MaybeRead(m, n') else Effect(n', [], true);
    if n.peers == [] {
      ReadAnswers(m, n', r, t);
    }
    QuietAround(n', r, [], Heartbeats(r.node), t);
    assert e == r.(out := [] + r.out + Heartbeats(r.node));
    TakesThenAnswers(n, Receive(msg), n', e, t);
  }

  /** The peer's progress after it echoed a read number. */
  function Echoing(n: Node, from: NodeID, rs: nat): Node
    requires n.role.Leader? && from in n.role.progress
  {
    n.(role := n.role.(progress := n.role.progress[from := n.role.progress[from].(readSeq := rs)]))
  }

  /** A heartbeat response: maybe reads, then maybe a log to the peer. */
  lemma HeartbeatResponseShape(m: Machine, n: Node, from: NodeID, li: Index, lt: Term, rs: nat, e: Effect)
    returns (r: Effect, sent: seq<Envelope>)
    requires n.role.Leader? && e == LeaderHeartbeatResponse(m, n, from, li, lt, rs) && e.ok
    ensures from in n.role.progress && TracksPeers(n) && TracksPeers(Echoing(n, from, rs))
    ensures r == if rs > n.role.progress[from].readSeq then MaybeRead(m, Echoing(n, from, rs)) else Effect(n, [], true)
    ensures Quiet(sent) && e == r.(out := [] + r.out + sent)
  {
    r := if rs > n.role.progress[from].readSeq then MaybeRead(m, Echoing(n, from, rs)) else Effect(n, [], true);
    sent := if li < |n.log.entries| || !Has(n.log.entries, li, lt) then [SendLog(r.node, from)] else [];
    assert [] + r.out + sent == r.out + sent;
  }

  lemma HeartbeatResponseAnswers(m: Machine, n: Node, from: NodeID, li: Index, lt: Term, rs: nat, e: Effect, t: Ticket)
    requires n.role.Leader? && WritesLogged(n)
    requires e == LeaderHeartbeatResponse(m, n, from, li, lt, rs) && e.ok
    ensures Answers(n, e, t)
  {
    var r, sent := HeartbeatResponseShape(m, n, from, li, lt, rs, e);
    if rs > n.role.progress[from].readSeq {
      ReadAnswers(m, Echoing(n, from, rs), r, t);
    }
    QuietAround(n, r, [], sent, t);
  }

  lemma AppendResponseAnswers(m: Machine, n: Node, from: NodeID, reject: bool, li: Index, lt: Term, e: Effect,
                              t: Ticket)
    requires n.role.Leader? && WritesLogged(n)
    requires e == LeaderAppendResponse(m, n, from, reject, li, lt) && e.ok
    ensures Answers(n, e, t)
  {
    var p := n.role.progress[from];
    if reject {
      QuietAnswers(e.out, t);
    } else if li > p.last {
      CommitAnswers(m, n.(role := n.role.(progress := n.role.progress[from := p.(last := li, next := li + 1)])), e, t);
    }
  }

  lemma LeaderStepBalance(m: Machine, n: Node, msg: Envelope, e: Effect, t: Ticket)
    requires n.role.Leader? && WritesLogged(n) && msg.term == n.term && e == LeaderStep(m, n, msg) && e.ok
    ensures Balanced(n, Receive(msg), e, t)
  {
    match msg.message
    case HeartbeatResponse(li, lt, rs) =>
      HeartbeatResponseAnswers(m, n, msg.from, li, lt, rs, e, t);
    case AppendResponse(reject, li, lt) =>
      AppendResponseAnswers(m, n, msg.from, reject, li, lt, e, t);
    case ClientRequest(id, request) =>
      match request {
        case ReadRequest(_) => ReadRequestBalance(m, n, msg, e, t);
        case WriteRequest(_) => WriteRequestBalance(m, n, msg, e, t);
        case StatusRequest => assert e.out[..0] == [];
      }
    case _ =>
  }

  /** Losing leadership aborts everything pending. */
  lemma AbortsAll(n: Node, t: Ticket)
    requires n.role.Leader?
    ensures Answered(LeaderAborts(n), t) == Pending(n, t)
  {
    var k := |WritesUpTo(n.role.writes, |n.log.entries|)|;
    var out := LeaderAborts(n);
    WritesAborted(out[..k], n.role.writes, |n.log.entries|, t);
    ReadsAnswered(out[k..], n.role.queue, t);
    assert out == out[..k] + out[k..];
    AnsweredConcat(out[..k], out[k..], t);
  }

  /** A leaderless follower answers only what it takes. */
  lemma LeaderlessAnswers(m: Machine, n: Node, msg: Envelope, e: Effect, t: Ticket)
    requires n.role == Follower(None, []) && msg.term == n.term && e == FollowerStep(m, n, msg) && e.ok
    ensures Answered(e.out, t) == Taken(n, Receive(msg), t) && !e.node.role.Leader?
  {
    if msg.message.ClientRequest? {
      assert e.out[..0] == [];
    } else {
      QuietAnswers(e.out, t);
    }
  }

  /** A later term ends the leadership: everything pending is aborted. */
  lemma LeavingBalance(m: Machine, n: Node, msg: Envelope, e: Effect, t: Ticket)
    requires n.role.Leader? && msg.term > n.term && e == Step(m, n, msg) && e.ok
    ensures Balanced(n, Receive(msg), e, t) && !e.node.role.Leader?
  {
    var d := DiscoverTerm(n, msg.term);
    var f := FollowerStep(m, d, msg);
    AbortsAll(n, t);
    LeaderlessAnswers(m, d, msg, f, t);
    AnsweredConcat(LeaderAborts(n), f.out, t);
  }

  /** Every event but a crash balances what a leader takes and answers. */
  lemma HandleBalance(m: Machine, n: Node, ev: Event, e: Effect, t: Ticket)
    requires n.role.Leader? && WritesLogged(n) && !ev.Restart? && e == Handle(m, n, ev) && e.ok
    ensures Balanced(n, ev, e, t)
  {
    if ev.Fire? {
      QuietAnswers(e.out, t);
    } else if ev.msg.term == n.term {
      LeaderStepBalance(m, n, ev.msg, e, t);
    } else if ev.msg.term > n.term {
      LeavingBalance(m, n, ev.msg, e, t);
    }
  }

  // ---- Answers carry their own results ----

  /** A write pending in n, or taken in this step and now at the end of the log. */
  ghost predicate WriteOf(n: Node, ev: Event, n': Node, i: Index, w: Write)
    requires n.role.Leader?
  {
    || (i in n.role.writes && n.role.writes[i] == w)
    || (&& TakesWrite(ev, w) && i == |n.log.entries| + 1 <= |n'.log.entries|
        && n'.log.entries[i - 1] == Entry(i, n.term, Some(ev.msg.message.request.command)))
  }

  predicate TakesWrite(ev: Event, w: Write) {
    && ev.Receive? && ev.msg.message.ClientRequest? && ev.msg.message.request.WriteRequest?
    && w == Write(ev.msg.from, ev.msg.message.id)
  }

  /** The answer to write w: what applying the committed entry at i returned. */
  ghost predicate WriteResult(m: Machine, n': Node, i: Index, w: Write, o: Envelope) {
    && 1 <= i <= n'.log.commitIndex && i <= |n'.applied| && i <= |n'.log.entries|
    && n'.applied[i - 1] == n'.log.entries[i - 1]
    && m.apply(n'.applied[..i - 1], n'.applied[i - 1]).Reply?
    && o.to == w.from && o.term == n'.term
    && o.message == ClientResponse(w.id, WriteDone(m.apply(n'.applied[..i - 1], n'.applied[i - 1]).outcome))
  }

  ghost predicate ReadOf(n: Node, ev: Event, rd: Read)
    requires n.role.Leader?
  {
    || rd in n.role.queue
    || TakesRead(ev, rd)
  }

  predicate TakesRead(ev: Event, rd: Read) {
    && ev.Receive? && ev.msg.message.ClientRequest? && ev.msg.message.request.ReadRequest?
    && rd.from == ev.msg.from && rd.id == ev.msg.message.id && rd.command == ev.msg.message.request.command
  }

  ghost predicate ReadResult(m: Machine, n': Node, rd: Read, o: Envelope) {
    o.to == rd.from && o.term == n'.term && o.message == ClientResponse(rd.id, ReadDone(m.read(n'.applied, rd.command)))
  }

  ghost predicate AnswerOk(m: Machine, n: Node, ev: Event, n': Node, o: Envelope)
    requires n.role.Leader?
  {
    o.message.ClientResponse? ==>
      match o.message.response
      case WriteDone(_) => exists i, w :: WriteOf(n, ev, n', i, w) && WriteResult(m, n', i, w, o)
      case ReadDone(_) => exists rd :: ReadOf(n, ev, rd) && ReadResult(m, n', rd, o)
      case StatusDone(_, _) => StatusResult(ev, n', o)
      case Abort => !n'.role.Leader?
  }

  ghost predicate StatusResult(ev: Event, n': Node, o: Envelope) {
    && ev.Receive? && ev.msg.message.ClientRequest? && ev.msg.message.request.StatusRequest?
    && o.to == ev.msg.from && o.term == n'.term
    && o.message == ClientResponse(ev.msg.message.id, StatusDone(n'.log.commitIndex, |n'.applied|))
  }

  /** All that n' has pending was pending in n or taken in this step. */
  ghost predicate Carried(n: Node, ev: Event, n': Node)
    requires n.role.Leader? && n'.role.Leader?
  {
    && (forall i :: i in n'.role.writes ==> WriteOf(n, ev, n', i, n'.role.writes[i]))
    && (forall rd :: rd in n'.role.queue ==> ReadOf(n, ev, rd))
  }

  ghost predicate AnswersOk(m: Machine, n: Node, ev: Event, e: Effect)
    requires n.role.Leader?
  {
    && (forall k :: 0 <= k < |e.out| ==> AnswerOk(m, n, ev, e.node, e.out[k]))
    && if e.node.role.Leader? then Carried(n, ev, e.node) else OnlyAborts(e.out)
  }

  /** A leader that loses its term gives no answers but aborts. */
  ghost predicate OnlyAborts(out: seq<Envelope>) {
    forall k :: 0 <= k < |out| && out[k].message.ClientResponse? ==> out[k].message.response.Abort?
  }

  lemma {:induction false} RepliesOk(m: Machine, n: Node, ev: Event, n1: Node, n': Node, lo: nat, k: nat)
    requires n.role.Leader? && n1.role.Leader? && n1.term == n'.term
    requires forall i :: i in n1.role.writes ==> WriteOf(n, ev, n', i, n1.role.writes[i])
    requires lo <= |n'.applied| && |n'.applied| <= |n'.log.entries| && |n'.applied| <= n'.log.commitIndex
    requires forall j :: lo <= j < |n'.applied| ==> n'.applied[j] == n'.log.entries[j]
    requires k < |Replies(m, n1.id, n1.term, n1.role.writes, n'.applied, lo)|
    ensures AnswerOk(m, n, ev, n', Replies(m, n1.id, n1.term, n1.role.writes, n'.applied, lo)[k])
    decreases |n'.applied| - lo
  {
    var out := Replies(m, n1.id, n1.term, n1.role.writes, n'.applied, lo);
    var rest := Replies(m, n1.id, n1.term, n1.role.writes, n'.applied, lo + 1);
    if out == rest {
      RepliesOk(m, n, ev, n1, n', lo + 1, k);
    } else if k > 0 {
      RepliesOk(m, n, ev, n1, n', lo + 1, k - 1);
    } else {
      assert WriteResult(m, n', lo + 1, n1.role.writes[lo + 1], out[0]);
    }
  }

  lemma CommitOk(m: Machine, n: Node, ev: Event, n1: Node, e: Effect)
    requires n.role.Leader? && TracksPeers(n1) && e == MaybeCommitAndApply(m, n1) && e.ok
    requires Carried(n, ev, n1)
    ensures AnswersOk(m, n, ev, e)
  {
    if e != Effect(n1, [], true) {
      var n2 := n1.(log := n1.log.(commitIndex := e.node.log.commitIndex, commitTerm := n1.term));
      assert MaybeApply(m, n2).1;
      AppliedReplies(m, n1.log.entries, n1.applied, Applicable(n2.log));
      forall k | 0 <= k < |e.out| ensures AnswerOk(m, n, ev, e.node, e.out[k]) {
        RepliesOk(m, n, ev, n1, e.node, |n1.applied|, k);
      }
    }
  }

  lemma ReadsOk(m: Machine, n: Node, ev: Event, n1: Node, e: Effect)
    requires n.role.Leader? && TracksPeers(n1) && e == MaybeRead(m, n1)
    requires Carried(n, ev, n1)
    ensures AnswersOk(m, n, ev, e) && e.ok
  {
    forall k | 0 <= k < |e.out| ensures AnswerOk(m, n, ev, e.node, e.out[k]) {
      assert ReadResult(m, e.node, n1.role.queue[k], e.out[k]);
    }
  }

  lemma QuietOk(m: Machine, n: Node, ev: Event, e: Effect, before: seq<Envelope>, after: seq<Envelope>)
    requires n.role.Leader? && AnswersOk(m, n, ev, e) && Quiet(before) && Quiet(after)
    ensures AnswersOk(m, n, ev, e.(out := before + e.out + after))
  {
    var out := before + e.out + after;
    forall k | 0 <= k < |out| ensures AnswerOk(m, n, ev, e.node, out[k]) {
      if |before| <= k < |before + e.out| {
        assert out[k] == e.out[k - |before|];
      }
    }
  }

  lemma TakenReadOk(m: Machine, n: Node, msg: Envelope, e: Effect)
    requires n.role.Leader? && msg.message.ClientRequest? && msg.message.request.ReadRequest?
    requires e == LeaderRequest(m, n, msg.from, msg.message.id, msg.message.request) && e.ok
    ensures AnswersOk(m, n, Receive(msg), e)
  {
    var rd := Read(n.role.readSeq + 1, msg.from, msg.message.id, msg.message.request.command);
    var n1 := n.(role := n.role.(readSeq := n.role.readSeq + 1, queue := n.role.queue + [rd]));
    assert TracksPeers(n1);
    var r := if n.peers == [] then MaybeRead(m, n1) else Effect(n1, [], true);
    if n.peers == [] {
      ReadsOk(m, n, Receive(msg), n1, r);
    }
    QuietOk(m, n, Receive(msg), r, [], Heartbeats(r.node));
    assert e == r.(out := [] + r.out + Heartbeats(r.node));
  }

  lemma TakenWriteOk(m: Machine, n: Node, msg: Envelope, e: Effect)
    requires n.role.Leader? && msg.message.ClientRequest? && msg.message.request.WriteRequest?
    requires e == LeaderRequest(m, n, msg.from, msg.message.id, msg.message.request) && e.ok
    ensures AnswersOk(m, n, Receive(msg), e)
  {
    var p := Propose(n, Some(msg.message.request.command));
    var i := |p.node.log.entries|;
    var n1 := p.node.(role := p.node.role.(writes := p.node.role.writes[i := Write(msg.from, msg.message.id)]));
    assert TracksPeers(n1);
    var r := if n.peers == [] then MaybeCommitAndApply(m, n1) else Effect(n1, [], true);
    if n.peers == [] {
      CommitOk(m, n, Receive(msg), n1, r);
    }
    QuietOk(m, n, Receive(msg), r, p.out, []);
    assert e == r.(out := p.out + r.out + []);
  }

  lemma HeartbeatResponseOk(m: Machine, n: Node, ev: Event, from: NodeID, li: Index, lt: Term, rs: nat, e: Effect)
    requires n.role.Leader? && e == LeaderHeartbeatResponse(m, n, from, li, lt, rs) && e.ok
    ensures AnswersOk(m, n, ev, e)
  {
    var r, sent := HeartbeatResponseShape(m, n, from, li, lt, rs, e);
    if rs > n.role.progress[from].readSeq {
      ReadsOk(m, n, ev, Echoing(n, from, rs), r);
    }
    QuietOk(m, n, ev, r, [], sent);
  }

  lemma AppendResponseOk(m: Machine, n: Node, ev: Event, from: NodeID, reject: bool, li: Index, lt: Term, e: Effect)
    requires n.role.Leader? && e == LeaderAppendResponse(m, n, from, reject, li, lt) && e.ok
    ensures AnswersOk(m, n, ev, e)
  {
    var p := n.role.progress[from];
    if !reject && li > p.last {
      CommitOk(m, n, ev, n.(role := n.role.(progress := n.role.progress[from := p.(last := li, next := li + 1)])), e);
    }
  }

  lemma LeaderAnswersOk(m: Machine, n: Node, msg: Envelope, e: Effect)
    requires n.role.Leader? && msg.term == n.term && e == LeaderStep(m, n, msg) && e.ok
    ensures AnswersOk(m, n, Receive(msg), e)
  {
    match msg.message
    case HeartbeatResponse(li, lt, rs) => HeartbeatResponseOk(m, n, Receive(msg), msg.from, li, lt, rs, e);
    case AppendResponse(reject, li, lt) => AppendResponseOk(m, n, Receive(msg), msg.from, reject, li, lt, e);
    case ClientRequest(id, request) =>
      match request {
        case ReadRequest(_) => TakenReadOk(m, n, msg, e);
        case WriteRequest(_) => TakenWriteOk(m, n, msg, e);
        case StatusRequest =>
      }
    case _ =>
  }

  /** A node that follows nobody answers with aborts only. */
  lemma LeaderlessAborts(m: Machine, n: Node, msg: Envelope, e: Effect)
    requires n.role == Follower(None, []) && e == FollowerStep(m, n, msg)
    ensures !e.node.role.Leader? && OnlyAborts(e.out)
  {
  }

  lemma HandleAnswersOk(m: Machine, n: Node, ev: Event, e: Effect)
    requires n.role.Leader? && !ev.Restart? && e == Handle(m, n, ev) && e.ok
    ensures AnswersOk(m, n, ev, e)
  {
    if ev.Receive? && ev.msg.term == n.term {
      LeaderAnswersOk(m, n, ev.msg, e);
    } else if ev.Receive? && ev.msg.term > n.term {
      LeaderlessAborts(m, DiscoverTerm(n, ev.msg.term), ev.msg, FollowerStep(m, DiscoverTerm(n, ev.msg.term), ev.msg));
      assert OnlyAborts(LeaderAborts(n));
    }
  }

  // ---- Over a whole leadership ----

  ghost predicate Serves(m: Machine, ns: seq<Node>, evs: seq<Event>, outs: seq<seq<Envelope>>, j: nat)
    requires j < |evs| == |outs| < |ns|
  {
    ns[j].role.Leader? && !evs[j].Restart? && Handle(m, ns[j], evs[j]) == Effect(ns[j + 1], outs[j], true)
  }

  /** A leadership: from winning the election on, through any events but a crash
      or halt, up to and including the step that loses it. */
  ghost predicate Leadership(m: Machine, ns: seq<Node>, evs: seq<Event>, outs: seq<seq<Envelope>>) {
    && |ns| == |evs| + 1 == |outs| + 1
    && ns[0].role.Leader? && ns[0].role.writes == map[] && ns[0].role.queue == []
    && forall j: nat :: j < |evs| ==> Serves(m, ns, evs, outs, j)
  }

  function TotalTaken(ns: seq<Node>, evs: seq<Event>, k: nat, t: Ticket): nat
    requires k <= |evs| && k <= |ns|
  {
    if k == 0 then 0 else TotalTaken(ns, evs, k - 1, t) + Taken(ns[k - 1], evs[k - 1], t)
  }

  function TotalAnswered(outs: seq<seq<Envelope>>, k: nat, t: Ticket): nat
    requires k <= |outs|
  {
    if k == 0 then 0 else TotalAnswered(outs, k - 1, t) + Answered(outs[k - 1], t)
  }

  lemma StepBalance(m: Machine, ns: seq<Node>, evs: seq<Event>, outs: seq<seq<Envelope>>, j: nat, t: Ticket)
    requires Leadership(m, ns, evs, outs) && j < |evs| && WritesLogged(ns[j])
    ensures ns[j].role.Leader? && Balanced(ns[j], evs[j], Effect(ns[j + 1], outs[j], true), t)
  {
    assert Serves(m, ns, evs, outs, j);
    HandleBalance(m, ns[j], evs[j], Effect(ns[j + 1], outs[j], true), t);
  }

  lemma StepAnswersOk(m: Machine, ns: seq<Node>, evs: seq<Event>, outs: seq<seq<Envelope>>, j: nat)
    requires Leadership(m, ns, evs, outs) && j < |evs|
    ensures ns[j].role.Leader? && AnswersOk(m, ns[j], evs[j], Effect(ns[j + 1], outs[j], true))
  {
    assert Serves(m, ns, evs, outs, j);
    HandleAnswersOk(m, ns[j], evs[j], Effect(ns[j + 1], outs[j], true));
  }

  /** Request conservation. At every moment of a leadership, each ticket was
      taken exactly as often as it was answered or is pending. Once leadership is
      lost nothing is pending, so everything taken was answered. */
  lemma {:induction false} RequestConservation(m: Machine, ns: seq<Node>, evs: seq<Event>, outs: seq<seq<Envelope>>,
                                               k: nat, t: Ticket)
    requires Leadership(m, ns, evs, outs) && k <= |evs|
    ensures TotalTaken(ns, evs, k, t) == TotalAnswered(outs, k, t) + Pending(ns[k], t)
    ensures !ns[k].role.Leader? ==> TotalTaken(ns, evs, k, t) == TotalAnswered(outs, k, t)
    ensures WritesLogged(ns[k])
  {
    if k == 0 {
      PendingWritesNone(map[], 0, |ns[0].log.entries|, t);
    } else {
      RequestConservation(m, ns, evs, outs, k - 1, t);
      StepBalance(m, ns, evs, outs, k - 1, t);
    }
  }

  lemma LogGrows(m: Machine, ns: seq<Node>, evs: seq<Event>, outs: seq<seq<Envelope>>, j: nat)
    requires Leadership(m, ns, evs, outs) && j < |evs| && ns[j + 1].role.Leader?
    ensures ns[j].log.entries <= ns[j + 1].log.entries
  {
    RequestConservation(m, ns, evs, outs, j, Ticket(0, []));
    StepBalance(m, ns, evs, outs, j, Ticket(0, []));
  }

  /** Step a proposed write w at index i, where log still holds it. */
  ghost predicate Proposed(ns: seq<Node>, evs: seq<Event>, a: nat, i: Index, w: Write, log: seq<Entry>) {
    && a < |evs| && a < |ns| && TakesWrite(evs[a], w)
    && i == |ns[a].log.entries| + 1 <= |log|
    && log[i - 1] == Entry(i, ns[a].term, Some(evs[a].msg.message.request.command))
  }

  lemma {:induction false} WritesWereProposed(m: Machine, ns: seq<Node>, evs: seq<Event>, outs: seq<seq<Envelope>>,
                                              k: nat, i: Index) returns (a: nat)
    requires Leadership(m, ns, evs, outs) && k <= |evs| && ns[k].role.Leader? && i in ns[k].role.writes
    ensures a < k && Proposed(ns, evs, a, i, ns[k].role.writes[i], ns[k].log.entries)
  {
    StepAnswersOk(m, ns, evs, outs, k - 1);
    assert WriteOf(ns[k - 1], evs[k - 1], ns[k], i, ns[k].role.writes[i]);
    LogGrows(m, ns, evs, outs, k - 1);
    if i in ns[k - 1].role.writes && ns[k - 1].role.writes[i] == ns[k].role.writes[i] {
      a := WritesWereProposed(m, ns, evs, outs, k - 1, i);
    } else {
      a := k - 1;
    }
  }

  lemma {:induction false} ReadsWereTaken(m: Machine, ns: seq<Node>, evs: seq<Event>, outs: seq<seq<Envelope>>, k: nat,
                                          rd: Read) returns (a: nat)
    requires Leadership(m, ns, evs, outs) && k <= |evs| && ns[k].role.Leader? && rd in ns[k].role.queue
    ensures a < k && TakesRead(evs[a], rd)
  {
    StepAnswersOk(m, ns, evs, outs, k - 1);
    assert ReadOf(ns[k - 1], evs[k - 1], rd);
    if TakesRead(evs[k - 1], rd) {
      a := k - 1;
    } else {
      a := ReadsWereTaken(m, ns, evs, outs, k - 1, rd);
    }
  }

  /** A write is answered with the result of its own entry: some step of this
      leadership took that very request and proposed its command, and the answer
      is what the state machine returned for that entry, committed and in the
      log, after applying everything before it. */
  lemma WriteAnswerIsOwn(m: Machine, ns: seq<Node>, evs: seq<Event>, outs: seq<seq<Envelope>>, j: nat, o: Envelope)
    returns (a: nat, i: Index, w: Write)
    requires Leadership(m, ns, evs, outs) && j < |evs|
    requires o in outs[j] && o.message.ClientResponse? && o.message.response.WriteDone?
    ensures ns[j + 1].role.Leader?
    ensures a <= j && Proposed(ns, evs, a, i, w, ns[j + 1].log.entries) && WriteResult(m, ns[j + 1], i, w, o)
  {
    StepAnswersOk(m, ns, evs, outs, j);
    assert AnswerOk(m, ns[j], evs[j], ns[j + 1], o);
    i, w :| WriteOf(ns[j], evs[j], ns[j + 1], i, w) && WriteResult(m, ns[j + 1], i, w, o);
    if i in ns[j].role.writes && ns[j].role.writes[i] == w {
      LogGrows(m, ns, evs, outs, j);
      a := WritesWereProposed(m, ns, evs, outs, j, i);
    } else {
      a := j;
    }
  }

  /** A read is answered with its own command read from what is applied. */
  lemma ReadAnswerIsOwn(m: Machine, ns: seq<Node>, evs: seq<Event>, outs: seq<seq<Envelope>>, j: nat, o: Envelope)
    returns (a: nat, rd: Read)
    requires Leadership(m, ns, evs, outs) && j < |evs|
    requires o in outs[j] && o.message.ClientResponse? && o.message.response.ReadDone?
    ensures a <= j && TakesRead(evs[a], rd) && ReadResult(m, ns[j + 1], rd, o)
  {
    StepAnswersOk(m, ns, evs, outs, j);
    assert AnswerOk(m, ns[j], evs[j], ns[j + 1], o);
    rd :| ReadOf(ns[j], evs[j], rd) && ReadResult(m, ns[j + 1], rd, o);
    if TakesRead(evs[j], rd) {
      a := j;
    } else {
      a := ReadsWereTaken(m, ns, evs, outs, j, rd);
    }
  }
}
