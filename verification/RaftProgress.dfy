/** From every state of a run over in-order links, the cluster can go on to replicate, commit
    and apply everything its leader has, and to answer a write and a read. So whatever
    happened, it is never stuck. */
module RaftProgress {
  import opened Basics
  import opened RaftTypes
  import opened RaftNode
  import opened RaftQuorum
  import opened RaftCluster
  import opened RaftLogs
  import opened RaftTrace
  import opened RaftRecovery
  import RaftCommit

  // ---- A follower stores what it is sent ----

  /** A node that follows w, or can. */
  ghost predicate Follows(n: Node, w: NodeID) {
    n.role.Follower? && (n.role == Follower(None, []) || n.role.leader == Some(w))
  }

  function Following(n: Node, w: NodeID): Node
    requires n.role.Follower?
  {
    n.(role := Follower(Some(w), n.role.forwarded))
  }

  function Stored(n: Node, w: NodeID, entries: seq<Entry>): Node
    requires n.role.Follower?
  {
    Following(n, w).(log := n.log.(entries := entries))
  }

  /** What a follower answers to an Append. */
  function StoreReply(n: Node, w: NodeID, reject: bool, entries: seq<Entry>): Envelope {
    Envelope(n.id, w, n.term, AppendResponse(reject, |entries|, LastTerm(entries)))
  }

  predicate HasBase(n: Node, msg: Message) {
    msg.Append? && (msg.baseIndex == 0 || Has(n.log.entries, msg.baseIndex, msg.baseTerm))
  }

  lemma Stores(m: Machine, n: Node, o: Envelope, entries: seq<Entry>)
    requires Follows(n, o.from) && o.to == n.id && o.from in n.peers && o.term == n.term
    requires HasBase(n, o.message) && Splice(n.log.entries, n.log.commitIndex, o.message.entries) == Some(entries)
    ensures Handle(m, n, Receive(o))
            == Effect(Stored(n, o.from, entries), [StoreReply(n, o.from, false, entries)], true)
  {
    assert Aborts(n, []) == [];
    assert [] + [StoreReply(n, o.from, false, entries)] == [StoreReply(n, o.from, false, entries)];
  }

  lemma Rejects(m: Machine, n: Node, o: Envelope)
    requires Follows(n, o.from) && o.to == n.id && o.from in n.peers && o.term == n.term
    requires o.message.Append? && !HasBase(n, o.message)
    ensures Handle(m, n, Receive(o)) == Effect(Following(n, o.from), [StoreReply(n, o.from, true, n.log.entries)], true)
  {
    assert Aborts(n, []) == [];
    assert [] + [StoreReply(n, o.from, true, n.log.entries)] == [StoreReply(n, o.from, true, n.log.entries)];
  }

  // ---- A leader counts what is stored ----

  /** A pending write of a client, and since when it is to be answered. */
  datatype Want = Want(write: Write, since: nat)

  /** The pending write is the last entry, if there is one. */
  function PendingOf(want: Option<Want>, log: seq<Entry>): map<Index, Write> {
    if want.None? then map[] else map[|log| := want.value.write]
  }

  /** And its answer. */
  function AnswerOf(m: Machine, id: NodeID, term: Term, w: Write, log: seq<Entry>): Envelope
    requires log != [] && m.apply(log[..|log| - 1], log[|log| - 1]).Reply?
  {
    Envelope(id, w.from, term, ClientResponse(w.id, WriteDone(m.apply(log[..|log| - 1], log[|log| - 1]).outcome)))
  }

  /** Every peer has stored all of the log, or what it had before. */
  ghost predicate Tracks(n: Node, log: seq<Entry>, lo: nat) {
    && TracksPeers(n) && n.log.entries == log && lo < |log| && LastTerm(log) == n.term
    && forall p :: p in n.peers ==> n.role.progress[p].last == lo || n.role.progress[p].last == |log|
  }

  /** The leader has not committed its last entry, for want of a quorum; or it has committed
      and applied everything, and given the answer. */
  ghost predicate Working(m: Machine, n: Node, log: seq<Entry>, lo: nat, want: Option<Want>, net: seq<Envelope>)
    requires Total(m)
  {
    && Tracks(n, log, lo) && Sound(n) && lo <= n.log.commitIndex && (want.Some? ==> want.value.since <= |net|)
    && if n.log.commitIndex == |log| then
         && n.applied == log && n.role.writes == map[] && n.log.commitTerm == n.term
         && (want.Some? ==> AnswerOf(m, n.id, n.term, want.value.write, log) in net[want.value.since..])
       else n.role.writes == PendingOf(want, log) && QuorumValue(LastIndexes(n)) != |log|
  }

  lemma QuorumEither(n: Node, log: seq<Entry>, lo: nat)
    requires Tracks(n, log, lo)
    ensures QuorumValue(LastIndexes(n)) == lo || QuorumValue(LastIndexes(n)) == |log|
  {
    QuorumValueMeaning(LastIndexes(n));
    var q := QuorumValue(LastIndexes(n));
    var j :| 0 <= j < |LastIndexes(n)| && LastIndexes(n)[j] == q;
    if j < |n.peers| {
      assert n.peers[j] in n.peers;
    }
  }

  lemma {:induction false} RepliesToLast(m: Machine, id: NodeID, term: Term, want: Option<Want>, log: seq<Entry>,
                                         lo: nat)
    requires Total(m) && log != [] && lo < |log|
    ensures Replies(m, id, term, PendingOf(want, log), log, lo)
            == if want.Some? then [AnswerOf(m, id, term, want.value.write, log)] else []
    decreases |log| - lo
  {
    assert m.apply(log[..lo], log[lo]).Reply?;
    if lo + 1 < |log| {
      RepliesToLast(m, id, term, want, log, lo + 1);
    } else {
      assert Replies(m, id, term, PendingOf(want, log), log, lo + 1) == [];
    }
  }

  /** Committing the last entry applies everything and answers. */
  lemma CommitsLast(m: Machine, n: Node, log: seq<Entry>, lo: nat, want: Option<Want>) returns (e: Effect)
    requires Total(m) && Tracks(n, log, lo) && Sound(n) && n.log.commitIndex < |log|
    requires n.role.writes == PendingOf(want, log)
    ensures e == CommitTo(m, n, |log|) && e.ok
    ensures e.node == n.(log := n.log.(commitIndex := |log|, commitTerm := n.term), applied := log,
                         role := n.role.(writes := map[]))
    ensures e.out == if want.Some? then [AnswerOf(m, n.id, n.term, want.value.write, log)] else []
  {
    TotalApplies(m, log, n.applied, |log|);
    assert log[..|log|] == log;
    RepliesToLast(m, n.id, n.term, want, log, |n.applied|);
    e := CommitTo(m, n, |log|);
    assert (map i | i in n.role.writes && !(|n.applied| < i <= |log|) :: n.role.writes[i]) == map[];
  }

  /** The progress of the peers when p has stored the whole log. */
  function Marked(n: Node, p: NodeID): map<NodeID, Progress>
    requires n.role.Leader? && p in n.role.progress
  {
    var len := |n.log.entries|;
    n.role.progress[p := n.role.progress[p].(last := len, next := len + 1)]
  }

  function Recorded(n: Node, p: NodeID): Node
    requires n.role.Leader? && p in n.role.progress
  {
    n.(role := n.role.(progress := Marked(n, p)))
  }

  /** A leader whose commit position and pending writes may have changed. */
  ghost predicate SameLeader(n: Node, n': Node, progress: map<NodeID, Progress>) {
    && n.role.Leader? && n'.role.Leader? && n'.id == n.id && n'.peers == n.peers && n'.term == n.term
    && n'.role.progress == progress && n'.role.queue == n.role.queue && n'.role.readSeq == n.role.readSeq
  }

  lemma CommitsIfStored(m: Machine, n: Node, log: seq<Entry>, lo: nat, want: Option<Want>, net: seq<Envelope>)
    returns (e: Effect)
    requires Total(m) && Tracks(n, log, lo) && Sound(n) && lo <= n.log.commitIndex
    requires want.Some? ==> want.value.since <= |net|
    requires if n.log.commitIndex == |log| then Working(m, n, log, lo, want, net)
             else n.role.writes == PendingOf(want, log)
    ensures e == MaybeCommitAndApply(m, n) && e.ok && Working(m, e.node, log, lo, want, net + e.out)
    ensures SameLeader(n, e.node, n.role.progress)
  {
    QuorumEither(n, log, lo);
    e := MaybeCommitAndApply(m, n);
    if QuorumValue(LastIndexes(n)) == |log| && n.log.commitIndex < |log| {
      e := CommitsLast(m, n, log, lo, want);
      assert want.Some? ==> (net + e.out)[want.value.since..][|net| - want.value.since] == e.out[0];
      assert Tracks(e.node, log, lo);
    } else {
      assert e == Effect(n, [], true);
      assert net + e.out == net;
    }
  }

  lemma RecordedTracks(n: Node, p: NodeID, log: seq<Entry>, lo: nat)
    requires Tracks(n, log, lo) && p in n.peers
    ensures Tracks(Recorded(n, p), log, lo)
  {
  }

  lemma LeaderRecords(m: Machine, n: Node, p: NodeID)
    requires TracksPeers(n) && p in n.peers && n.role.progress[p].last < |n.log.entries|
    requires TracksPeers(Recorded(n, p))
    ensures Handle(m, n, Receive(StoredBy(n, p))) == MaybeCommitAndApply(m, Recorded(n, p))
  {
  }

  /** Peer p's answer that it has stored the whole log. */
  function StoredBy(n: Node, p: NodeID): Envelope {
    Envelope(p, n.id, n.term, AppendResponse(false, |n.log.entries|, LastTerm(n.log.entries)))
  }

  lemma RecordedSound(m: Machine, n: Node, p: NodeID, log: seq<Entry>, lo: nat, want: Option<Want>,
                      net: seq<Envelope>)
    requires Total(m) && Working(m, n, log, lo, want, net) && p in n.peers
    ensures p in n.role.progress && Tracks(Recorded(n, p), log, lo) && Sound(Recorded(n, p))
    ensures want.Some? ==> want.value.since <= |net|
    ensures var r := Recorded(n, p);
            if r.log.commitIndex == |log| then Working(m, r, log, lo, want, net)
            else r.role.writes == PendingOf(want, log)
  {
    RecordedTracks(n, p, log, lo);
  }

  /** The leader with one more entry to send to peer p. */
  function Retried(n: Node, p: NodeID): Node
    requires n.role.Leader? && p in n.role.progress && n.role.progress[p].next > 1
  {
    n.(role := n.role.(progress := n.role.progress[p := n.role.progress[p].(next := n.role.progress[p].next - 1)]))
  }

  lemma Retries(m: Machine, n: Node, p: NodeID, lastIndex: Index, lastTerm: Term)
    requires TracksPeers(n) && p in n.peers && 1 < n.role.progress[p].next <= |n.log.entries| + 1
    ensures CanSend(Retried(n, p), p)
    ensures Handle(m, n, Receive(Envelope(p, n.id, n.term, AppendResponse(true, lastIndex, lastTerm))))
            == Effect(Retried(n, p), [SendLog(Retried(n, p), p)], true)
  {
  }

  lemma RetriedWorks(m: Machine, n: Node, p: NodeID, log: seq<Entry>, lo: nat, want: Option<Want>,
                     net: seq<Envelope>, net': seq<Envelope>)
    requires Total(m) && Working(m, n, log, lo, want, net) && p in n.peers && n.role.progress[p].next > 1 && net <= net'
    ensures Working(m, Retried(n, p), log, lo, want, net')
  {
    assert LastIndexes(Retried(n, p)) == LastIndexes(n);
    if want.Some? {
      assert net[want.value.since..] <= net'[want.value.since..];
    }
  }

  // ---- One peer catches up ----

  /** A leader and a follower that both run, in the same term. */
  ghost predicate Paired(c: Config, s: State, w: NodeID, p: NodeID) {
    && w in c.members && p in c.members && w != p && s.nodes.Keys == c.members && w in s.up && p in s.up
    && s.nodes[w].id == w && s.nodes[p].id == p && w in s.nodes[p].peers && p in s.nodes[w].peers
    && s.nodes[w].role.Leader? && s.nodes[p].term == s.nodes[w].term && Follows(s.nodes[p], w)
  }

  /** What the leader has for the peer is on the way to it, and is not nothing. */
  ghost predicate Sending(s: State, w: NodeID, p: NodeID, k: nat) {
    && w in s.nodes && CanSend(s.nodes[w], p) && s.nodes[w].role.progress[p].next <= |s.nodes[w].log.entries|
    && s.nodes[w].role.progress[p].next >= 1 && Ready(s, k) && s.net[k] == SendLog(s.nodes[w], p)
  }

  /** If the peer has the entry before, it gets the leader's log. */
  lemma SplicesAll(c: Config, t: Trace, w: NodeID, p: NodeID, k: nat)
    requires Live(c, t) && Paired(c, Now(t), w, p) && Sending(Now(t), w, p, k)
    requires HasBase(Now(t).nodes[p], Now(t).net[k].message)
    ensures var n := Now(t).nodes[p];
            Splice(n.log.entries, n.log.commitIndex, Now(t).net[k].message.entries) == Some(Now(t).nodes[w].log.entries)
  {
    RaftCommit.SpliceNeverFails(c, t.ss, t.acts, |t.ss| - 1, p, k);
    RaftCommit.CommitRun(c, t.ss, t.acts, |t.ss| - 1);
    SpliceIsLog(Now(t), Now(t).nodes[w], Now(t).nodes[p], w, p, k);
  }

  lemma SpliceIsLog(s: State, l: Node, n: Node, w: NodeID, p: NodeID, k: nat)
    requires LogInv(s) && w in s.nodes && p in s.nodes && s.nodes[w] == l && s.nodes[p] == n
    requires Sending(s, w, p, k) && HasBase(n, s.net[k].message)
    requires Splice(n.log.entries, n.log.commitIndex, s.net[k].message.entries).Some?
    ensures Splice(n.log.entries, n.log.commitIndex, s.net[k].message.entries) == Some(l.log.entries)
  {
    var o := s.net[k];
    assert NodeLogOk(s, w) && NodeLogOk(s, p) && MessageOk(s, k) && TermLogOk(s.h, o.term);
    SpliceIsPrefix(s.h, n, o, l.log.entries);
  }

  lemma SpliceIsPrefix(h: History, n: Node, o: Envelope, log: seq<Entry>)
    requires TermLogOk(h, o.term) && Known(h, n.log.entries) && HasBase(n, o.message) && AppendOk(h, o)
    requires h.logs[o.term] == log && o.message.entries != [] && o.message.baseIndex + |o.message.entries| == |log|
    requires Splice(n.log.entries, n.log.commitIndex, o.message.entries).Some?
    ensures Splice(n.log.entries, n.log.commitIndex, o.message.entries) == Some(log)
  {
    var spliced := Splice(n.log.entries, n.log.commitIndex, o.message.entries).value;
    AcceptedLog(h, n, o, n.(log := n.log.(entries := spliced)));
    assert log[..|log|] == log;
  }

  lemma StoreStep(c: Config, t: Trace, w: NodeID, p: NodeID, k: nat) returns (t': Trace)
    requires Live(c, t) && Paired(c, Now(t), w, p) && Sending(Now(t), w, p, k)
    requires HasBase(Now(t).nodes[p], Now(t).net[k].message)
    ensures Live(c, t') && Extends(t, t') && Between(Now(t), Now(t'), w, p) && t'.acts == t.acts + [Deliver(k)]
    ensures var log := Now(t).nodes[w].log.entries;
            Became(Now(t), Now(t'), p, Effect(Stored(Now(t).nodes[p], w, log), [StoredBy(Now(t).nodes[w], p)], true))
  {
    var n, log := Now(t).nodes[p], Now(t).nodes[w].log.entries;
    SplicesAll(c, t, w, p, k);
    Stores(c.machine, n, Now(t).net[k], log);
    t' := Gets(c, t, k, Effect(Stored(n, w, log), [StoreReply(n, w, false, log)], true));
  }

  lemma RejectStep(c: Config, t: Trace, w: NodeID, p: NodeID, k: nat) returns (t': Trace)
    requires Live(c, t) && Paired(c, Now(t), w, p) && Sending(Now(t), w, p, k)
    requires !HasBase(Now(t).nodes[p], Now(t).net[k].message)
    ensures Live(c, t') && Extends(t, t') && Between(Now(t), Now(t'), w, p)
    ensures var n := Now(t).nodes[p];
            Became(Now(t), Now(t'), p, Effect(Following(n, w), [StoreReply(n, w, true, n.log.entries)], true))
    ensures Now(t).nodes[w].role.progress[p].next > 1
  {
    var n := Now(t).nodes[p];
    Rejects(c.machine, n, Now(t).net[k]);
    t' := Gets(c, t, k, Effect(Following(n, w), [StoreReply(n, w, true, n.log.entries)], true));
  }

  lemma RetryStep(c: Config, t: Trace, w: NodeID, p: NodeID, k: nat, lastIndex: Index, lastTerm: Term)
    returns (t': Trace)
    requires Live(c, t) && Paired(c, Now(t), w, p) && TracksPeers(Now(t).nodes[w]) && Ready(Now(t), k)
    requires 1 < Now(t).nodes[w].role.progress[p].next <= |Now(t).nodes[w].log.entries| + 1
    requires Now(t).net[k] == Envelope(p, w, Now(t).nodes[w].term, AppendResponse(true, lastIndex, lastTerm))
    ensures Live(c, t') && Extends(t, t') && Between(Now(t), Now(t'), p, w)
    ensures CanSend(Retried(Now(t).nodes[w], p), p)
    ensures var n := Retried(Now(t).nodes[w], p); Became(Now(t), Now(t'), w, Effect(n, [SendLog(n, p)], true))
  {
    Retries(c.machine, Now(t).nodes[w], p, lastIndex, lastTerm);
    var n := Retried(Now(t).nodes[w], p);
    t' := Gets(c, t, k, Effect(n, [SendLog(n, p)], true));
  }

  lemma RecordStep(c: Config, t: Trace, w: NodeID, p: NodeID, k: nat, log: seq<Entry>, lo: nat, want: Option<Want>)
    returns (t': Trace, e: Effect)
    requires Live(c, t) && Total(c.machine) && Paired(c, Now(t), w, p) && Ready(Now(t), k)
    requires Working(c.machine, Now(t).nodes[w], log, lo, want, Now(t).net)
    requires Now(t).nodes[w].role.progress[p].last == lo
    requires Now(t).net[k] == StoredBy(Now(t).nodes[w], p)
    ensures Live(c, t') && Extends(t, t') && Between(Now(t), Now(t'), p, w) && Became(Now(t), Now(t'), w, e)
    ensures t'.acts == t.acts + [Deliver(k)]
    ensures Working(c.machine, e.node, log, lo, want, Now(t').net)
    ensures p in Now(t).nodes[w].role.progress && SameLeader(Now(t).nodes[w], e.node, Marked(Now(t).nodes[w], p))
  {
    var n := Now(t).nodes[w];
    RecordedSound(c.machine, n, p, log, lo, want, Now(t).net);
    e := CommitsIfStored(c.machine, Recorded(n, p), log, lo, want, Now(t).net);
    LeaderRecords(c.machine, n, p);
    t' := Gets(c, t, k, e);
  }

  /** Peer p has caught up with leader w, which counts it. */
  ghost predicate CaughtUp(s: State, s': State, w: NodeID, p: NodeID) {
    && w in s.nodes && p in s.nodes && w in s'.nodes && p in s'.nodes && Between(s, s', w, p)
    && s.nodes[w].role.Leader? && p in s.nodes[w].role.progress && s.nodes[p].role.Follower?
    && s'.nodes[p] == Stored(s.nodes[p], w, s.nodes[w].log.entries)
    && SameLeader(s.nodes[w], s'.nodes[w], Marked(s.nodes[w], p))
  }

  /** The peer stores the log, and the leader counts it. */
  lemma Accepted(c: Config, t: Trace, w: NodeID, p: NodeID, k: nat, log: seq<Entry>, lo: nat, want: Option<Want>)
    returns (t': Trace)
    requires Live(c, t) && Total(c.machine) && Paired(c, Now(t), w, p) && Sending(Now(t), w, p, k)
    requires Working(c.machine, Now(t).nodes[w], log, lo, want, Now(t).net)
    requires Now(t).nodes[w].role.progress[p].last == lo
    requires HasBase(Now(t).nodes[p], Now(t).net[k].message)
    ensures Live(c, t') && Extends(t, t') && CaughtUp(Now(t), Now(t'), w, p)
    ensures Working(c.machine, Now(t').nodes[w], log, lo, want, Now(t').net)
    ensures w in Now(t').nodes && forall y :: Cursor(Now(t'), w, y) == if y == p then k + 1 else Cursor(Now(t), w, y)
  {
    var t1 := StoreStep(c, t, w, p, k);
    var s, s1 := Now(t), Now(t1);
    assert s1.net[|s.net|] == StoredBy(s.nodes[w], p) && s1.nodes[w] == s.nodes[w];
    MoreNet(c.machine, s.nodes[w], log, lo, want, s.net, s1.net);
    var e;
    t', e := RecordStep(c, t1, w, p, |s.net|, log, lo, want);
    CursorsAfter(c, t, t1, k);
    CursorsAfter(c, t1, t', |s.net|);
    BetweenSwap(s1, Now(t'), p, w);
    BetweenBoth(s, s1, Now(t'), w, p);
  }

  lemma BetweenSwap(s: State, s': State, x: NodeID, y: NodeID)
    requires Between(s, s', x, y)
    ensures Between(s, s', y, x)
  {
  }

  lemma MoreNet(m: Machine, n: Node, log: seq<Entry>, lo: nat, want: Option<Want>, net: seq<Envelope>,
                net': seq<Envelope>)
    requires Total(m) && Working(m, n, log, lo, want, net) && net <= net'
    ensures Working(m, n, log, lo, want, net')
  {
    if want.Some? {
      assert net[want.value.since..] <= net'[want.value.since..];
    }
  }

  /** The peer lacks the entry before, and the leader sends one more. */
  lemma OnceMore(c: Config, t: Trace, w: NodeID, p: NodeID, k: nat, log: seq<Entry>, lo: nat, want: Option<Want>)
    returns (t': Trace, k': nat)
    requires Live(c, t) && Total(c.machine) && Paired(c, Now(t), w, p) && Sending(Now(t), w, p, k)
    requires Working(c.machine, Now(t).nodes[w], log, lo, want, Now(t).net)
    requires Now(t).nodes[w].role.progress[p].last == lo
    requires !HasBase(Now(t).nodes[p], Now(t).net[k].message)
    ensures Live(c, t') && Extends(t, t') && Between(Now(t), Now(t'), w, p) && Now(t).nodes[w].role.progress[p].next > 1
    ensures Now(t').nodes[w] == Retried(Now(t).nodes[w], p) && Now(t').nodes[p] == Following(Now(t).nodes[p], w)
    ensures Working(c.machine, Now(t').nodes[w], log, lo, want, Now(t').net) && Sending(Now(t'), w, p, k')
  {
    var s := Now(t);
    var t1 := RejectStep(c, t, w, p, k);
    var s1 := Now(t1);
    var n := s.nodes[p];
    assert s1.net[|s.net|] == StoreReply(n, w, true, n.log.entries) && s1.nodes[w] == s.nodes[w];
    t' := RetryStep(c, t1, w, p, |s.net|, |n.log.entries|, LastTerm(n.log.entries));
    k' := |s1.net|;
    RetriedWorks(c.machine, s.nodes[w], p, log, lo, want, s.net, Now(t').net);
    BetweenSwap(s1, Now(t'), p, w);
    BetweenBoth(s, s1, Now(t'), w, p);
  }

  lemma PairedAfter(c: Config, s: State, s1: State, w: NodeID, p: NodeID)
    requires Paired(c, s, w, p) && Between(s, s1, w, p) && p in s.nodes[w].role.progress
    requires s.nodes[w].role.progress[p].next > 1
    requires s1.nodes[w] == Retried(s.nodes[w], p) && s1.nodes[p] == Following(s.nodes[p], w)
    ensures Paired(c, s1, w, p)
  {
  }

  lemma CaughtUpAfter(s: State, s1: State, s': State, w: NodeID, p: NodeID)
    requires w in s.nodes && p in s.nodes && w != p && s.nodes[w].role.Leader? && s.nodes[p].role.Follower?
    requires Between(s, s1, w, p) && p in s.nodes[w].role.progress && s.nodes[w].role.progress[p].next > 1
    requires s1.nodes[w] == Retried(s.nodes[w], p) && s1.nodes[p] == Following(s.nodes[p], w)
    requires CaughtUp(s1, s', w, p)
    ensures CaughtUp(s, s', w, p)
  {
    BetweenBoth(s, s1, s', w, p);
    assert Marked(s1.nodes[w], p) == Marked(s.nodes[w], p);
  }

  /** However far behind the peer is, it catches up. */
  lemma {:induction false} CatchesUp(c: Config, t: Trace, w: NodeID, p: NodeID, k: nat, log: seq<Entry>, lo: nat,
                                     want: Option<Want>) returns (t': Trace)
    requires Live(c, t) && Total(c.machine) && Paired(c, Now(t), w, p) && Sending(Now(t), w, p, k)
    requires Working(c.machine, Now(t).nodes[w], log, lo, want, Now(t).net)
    requires Now(t).nodes[w].role.progress[p].last == lo
    ensures Live(c, t') && Extends(t, t') && CaughtUp(Now(t), Now(t'), w, p)
    ensures Working(c.machine, Now(t').nodes[w], log, lo, want, Now(t').net)
    decreases Now(t).nodes[w].role.progress[p].next
  {
    if HasBase(Now(t).nodes[p], Now(t).net[k].message) {
      t' := Accepted(c, t, w, p, k, log, lo, want);
    } else {
      var t1, k' := OnceMore(c, t, w, p, k, log, lo, want);
      PairedAfter(c, Now(t), Now(t1), w, p);
      t' := CatchesUp(c, t1, w, p, k', log, lo, want);
      CaughtUpAfter(Now(t), Now(t1), Now(t'), w, p);
    }
  }

  // ---- All peers catch up ----

  /** The j-th peer has caught up since state s0. */
  ghost predicate DoneAt(s: State, s0: State, w: NodeID, j: nat)
    requires w in s.nodes && w in s0.nodes && s.nodes[w].role.Leader?
  {
    j < |s0.nodes[w].peers| ==>
      var p, log := s0.nodes[w].peers[j], s0.nodes[w].log.entries;
      && p in s.nodes && p in s0.nodes && s0.nodes[p].role.Follower? && s.nodes[p] == Stored(s0.nodes[p], w, log)
      && p in s.nodes[w].role.progress && s.nodes[w].role.progress[p].last == |log|
      && s.nodes[w].role.progress[p].next == |log| + 1 && s0.nodes[w].role.Leader? && p in s0.nodes[w].role.progress
      && s.nodes[w].role.progress[p].readSeq == s0.nodes[w].role.progress[p].readSeq
  }

  /** The j-th peer is as it was in state s0, and its message on the way. */
  ghost predicate TodoAt(s: State, s0: State, w: NodeID, b: nat, j: nat)
    requires w in s.nodes && w in s0.nodes && s.nodes[w].role.Leader? && s0.nodes[w].role.Leader?
  {
    j < |s0.nodes[w].peers| ==>
      var p := s0.nodes[w].peers[j];
      && p in s.nodes && p in s0.nodes && s.nodes[p] == s0.nodes[p] && Sending(s, w, p, b + j)
      && p in s0.nodes[w].role.progress && s.nodes[w].role.progress[p] == s0.nodes[w].role.progress[p]
  }

  ghost predicate Replicating(c: Config, s: State, s0: State, w: NodeID, b: nat, lo: nat, want: Option<Want>, i: nat)
    requires Total(c.machine)
  {
    && w in c.members && s.nodes.Keys == s0.nodes.Keys == c.members && s.up == s0.up && s0.net <= s.net
    && s0.nodes[w].role.Leader? && s.nodes[w].role.Leader?
    && SameLeader(s0.nodes[w], s.nodes[w], s.nodes[w].role.progress)
    && Working(c.machine, s.nodes[w], s0.nodes[w].log.entries, lo, want, s.net)
    && (forall j: nat :: j < i ==> DoneAt(s, s0, w, j))
    && (forall j: nat :: i <= j ==> TodoAt(s, s0, w, b, j))
  }

  /** In state s0, all peers wait for the leader, which knows as much of each. */
  ghost predicate AllWait(c: Config, s0: State, w: NodeID, lo: nat) {
    && w in c.members && s0.nodes.Keys == c.members && s0.nodes[w].role.Leader? && PeersOk(c.members, s0.nodes[w])
    && forall j :: 0 <= j < |s0.nodes[w].peers| ==>
         && Paired(c, s0, w, s0.nodes[w].peers[j]) && s0.nodes[w].peers[j] in s0.nodes[w].role.progress
         && s0.nodes[w].role.progress[s0.nodes[w].peers[j]].last == lo
  }

  lemma ReplicatedOne(c: Config, s: State, s': State, s0: State, w: NodeID, b: nat, lo: nat, want: Option<Want>,
                      i: nat)
    requires Total(c.machine) && AllWait(c, s0, w, lo) && Replicating(c, s, s0, w, b, lo, want, i)
    requires i < |s0.nodes[w].peers| && CaughtUp(s, s', w, s0.nodes[w].peers[i])
    requires Working(c.machine, s'.nodes[w], s0.nodes[w].log.entries, lo, want, s'.net)
    ensures Replicating(c, s', s0, w, b, lo, want, i + 1)
  {
    var peers, p := s0.nodes[w].peers, s0.nodes[w].peers[i];
    assert TodoAt(s, s0, w, b, i);
    assert forall j :: 0 <= j < |peers| && j != i ==> peers[j] != p && peers[j] != w by {
      assert forall j :: 0 <= j < |peers| ==> peers[j] in Elements(peers);
    }
    forall j: nat | j < i + 1 ensures DoneAt(s', s0, w, j) {
      if j < i { assert DoneAt(s, s0, w, j); }
    }
    forall j: nat | i + 1 <= j ensures TodoAt(s', s0, w, b, j) {
      assert TodoAt(s, s0, w, b, j);
      if j < |peers| {
        StillTodo(s, s', s0, w, b, p, j);
      }
    }
  }

  lemma StillTodo(s: State, s': State, s0: State, w: NodeID, b: nat, p: NodeID, j: nat)
    requires w in s.nodes && w in s0.nodes && s.nodes[w].role.Leader? && s0.nodes[w].role.Leader?
    requires j < |s0.nodes[w].peers| && TodoAt(s, s0, w, b, j) && CaughtUp(s, s', w, p)
    requires s0.nodes[w].peers[j] != p && s0.nodes[w].peers[j] != w && s'.nodes[w].log.entries == s.nodes[w].log.entries
    ensures TodoAt(s', s0, w, b, j)
  {
    var q := s0.nodes[w].peers[j];
    assert !Among(s.net[b + j], w, p);
    assert SendLog(s'.nodes[w], q) == SendLog(s.nodes[w], q);
  }

  lemma ReplicateOne(c: Config, t: Trace, s0: State, w: NodeID, b: nat, lo: nat, want: Option<Want>, i: nat)
    returns (t': Trace)
    requires Live(c, t) && Total(c.machine) && AllWait(c, s0, w, lo) && i < |s0.nodes[w].peers|
    requires Replicating(c, Now(t), s0, w, b, lo, want, i)
    ensures Live(c, t') && Extends(t, t') && Replicating(c, Now(t'), s0, w, b, lo, want, i + 1)
  {
    var p := s0.nodes[w].peers[i];
    Knows(c, t);
    assert TodoAt(Now(t), s0, w, b, i) && Paired(c, s0, w, p);
    t' := CatchesUp(c, t, w, p, b + i, s0.nodes[w].log.entries, lo, want);
    ReplicatedOne(c, Now(t), Now(t'), s0, w, b, lo, want, i);
  }

  lemma {:induction false} ReplicateAll(c: Config, t: Trace, s0: State, w: NodeID, b: nat, lo: nat,
                                        want: Option<Want>, i: nat) returns (t': Trace)
    requires Live(c, t) && Total(c.machine) && AllWait(c, s0, w, lo) && i <= |s0.nodes[w].peers|
    requires Replicating(c, Now(t), s0, w, b, lo, want, i)
    ensures Live(c, t') && Extends(t, t') && Replicating(c, Now(t'), s0, w, b, lo, want, |s0.nodes[w].peers|)
    decreases |s0.nodes[w].peers| - i
  {
    if i == |s0.nodes[w].peers| {
      t' := t;
    } else {
      var t1 := ReplicateOne(c, t, s0, w, b, lo, want, i);
      t' := ReplicateAll(c, t1, s0, w, b, lo, want, i + 1);
    }
  }

  /** When all peers have caught up, the leader has committed and applied everything. */
  lemma AllStored(m: Machine, n: Node, log: seq<Entry>, lo: nat, want: Option<Want>, net: seq<Envelope>)
    requires Total(m) && Working(m, n, log, lo, want, net)
    requires forall p :: p in n.peers ==> n.role.progress[p].last == |log|
    ensures n.log.commitIndex == |log|
  {
    QuorumValueMeaning(LastIndexes(n));
    var q := QuorumValue(LastIndexes(n));
    var j :| 0 <= j < |LastIndexes(n)| && LastIndexes(n)[j] == q;
    if j < |n.peers| {
      assert n.peers[j] in n.peers;
    }
  }

  // ---- A commit is announced ----

  function Beat(n: Node, p: NodeID): Envelope
    requires n.role.Leader?
  {
    Envelope(n.id, p, n.term, Heartbeat(n.log.commitIndex, n.log.commitTerm, n.role.readSeq))
  }

  function Echo(p: NodeID, n: Node): Envelope
    requires n.role.Leader?
  {
    Envelope(p, n.id, n.term, HeartbeatResponse(|n.log.entries|, LastTerm(n.log.entries), n.role.readSeq))
  }

  /** A node that has committed and applied its log. */
  function Informed(n: Node): Node {
    n.(log := n.log.(commitIndex := |n.log.entries|, commitTerm := LastTerm(n.log.entries)), applied := n.log.entries)
  }

  /** A follower that has all of a leader's log, which is committed. */
  ghost predicate Complete(n: Node, l: Node) {
    && l.role.Leader? && n.role.Follower? && n.role.leader == Some(l.id) && l.id in n.peers && n.term == l.term
    && n.log.entries == l.log.entries && l.log.entries != [] && l.log.commitIndex == |l.log.entries|
    && l.log.commitTerm == LastTerm(l.log.entries)
    && Sound(n) && (n.log.commitIndex < |n.log.entries| || n == Informed(n))
  }

  lemma Hears(m: Machine, n: Node, l: Node)
    requires Total(m) && Complete(n, l)
    ensures Handle(m, n, Receive(Beat(l, n.id))) == Effect(Informed(n), [Echo(n.id, l)], true)
  {
    TotalApplies(m, n.log.entries, n.applied, |n.log.entries|);
    assert n.log.entries[..|n.log.entries|] == n.log.entries;
    assert [] + [Echo(n.id, l)] == [Echo(n.id, l)];
  }

  lemma Beats(m: Machine, n: Node)
    requires n.role.Leader?
    ensures Handle(m, n, Fire) == Effect(n, Heartbeats(n), true) && |Heartbeats(n)| == |n.peers|
    ensures forall j :: 0 <= j < |n.peers| ==> Heartbeats(n)[j] == Beat(n, n.peers[j])
  {
  }

  ghost predicate ToldAt(s: State, s0: State, w: NodeID, j: nat)
    requires w in s0.nodes
  {
    j < |s0.nodes[w].peers| ==>
      var p := s0.nodes[w].peers[j]; p in s.nodes && p in s0.nodes && s.nodes[p] == Informed(s0.nodes[p])
  }

  ghost predicate UntoldAt(s: State, s0: State, w: NodeID, b: nat, j: nat)
    requires w in s0.nodes && s0.nodes[w].role.Leader?
  {
    j < |s0.nodes[w].peers| ==>
      var p := s0.nodes[w].peers[j];
      && p in s.nodes && p in s0.nodes && s.nodes[p] == s0.nodes[p]
      && Ready(s, b + j) && s.net[b + j] == Beat(s0.nodes[w], p)
  }

  /** The first i peers have heard of the commit. */
  ghost predicate Announcing(c: Config, s: State, s0: State, w: NodeID, b: nat, i: nat) {
    && w in c.members && s.nodes.Keys == s0.nodes.Keys == c.members && s.up == s0.up && s0.net <= s.net
    && s0.nodes[w].role.Leader? && s.nodes[w] == s0.nodes[w]
    && (forall j: nat :: j < i ==> ToldAt(s, s0, w, j))
    && (forall j: nat :: i <= j ==> UntoldAt(s, s0, w, b, j))
  }

  /** All peers have what the leader has committed. */
  ghost predicate AllComplete(c: Config, s0: State, w: NodeID) {
    && w in c.members && s0.nodes.Keys == c.members && c.members <= s0.up && PeersOk(c.members, s0.nodes[w])
    && s0.nodes[w].id == w && s0.nodes[w].role.Leader?
    && forall j :: 0 <= j < |s0.nodes[w].peers| ==>
         var p := s0.nodes[w].peers[j];
         p in c.members && p != w && s0.nodes[p].id == p && Complete(s0.nodes[p], s0.nodes[w])
  }

  lemma AnnouncedOne(c: Config, s: State, s': State, s0: State, w: NodeID, b: nat, i: nat)
    requires AllComplete(c, s0, w) && Announcing(c, s, s0, w, b, i) && i < |s0.nodes[w].peers|
    requires var p := s0.nodes[w].peers[i];
             && Between(s, s', w, p)
             && Became(s, s', p, Effect(Informed(s0.nodes[p]), [Echo(p, s0.nodes[w])], true))
    ensures Announcing(c, s', s0, w, b, i + 1)
  {
    var peers, p := s0.nodes[w].peers, s0.nodes[w].peers[i];
    assert forall j :: 0 <= j < |peers| && j != i ==> peers[j] != p && peers[j] != w;
    forall j: nat | j < i + 1 ensures ToldAt(s', s0, w, j) {
      if j < i { assert ToldAt(s, s0, w, j); }
    }
    forall j: nat | i + 1 <= j ensures UntoldAt(s', s0, w, b, j) {
      assert UntoldAt(s, s0, w, b, j);
      if j < |peers| {
        assert !Among(s.net[b + j], w, p);
      }
    }
  }

  lemma AnnounceOne(c: Config, t: Trace, s0: State, w: NodeID, b: nat, i: nat) returns (t': Trace)
    requires Live(c, t) && Total(c.machine) && AllComplete(c, s0, w) && i < |s0.nodes[w].peers|
    requires Announcing(c, Now(t), s0, w, b, i)
    ensures Live(c, t') && Extends(t, t') && Announcing(c, Now(t'), s0, w, b, i + 1)
  {
    var p, l := s0.nodes[w].peers[i], s0.nodes[w];
    assert UntoldAt(Now(t), s0, w, b, i);
    Hears(c.machine, s0.nodes[p], l);
    t' := Gets(c, t, b + i, Effect(Informed(s0.nodes[p]), [Echo(p, l)], true));
    AnnouncedOne(c, Now(t), Now(t'), s0, w, b, i);
  }

  lemma {:induction false} AnnounceAll(c: Config, t: Trace, s0: State, w: NodeID, b: nat, i: nat) returns (t': Trace)
    requires Live(c, t) && Total(c.machine) && AllComplete(c, s0, w) && i <= |s0.nodes[w].peers|
    requires Announcing(c, Now(t), s0, w, b, i)
    ensures Live(c, t') && Extends(t, t') && Announcing(c, Now(t'), s0, w, b, |s0.nodes[w].peers|)
    decreases |s0.nodes[w].peers| - i
  {
    if i == |s0.nodes[w].peers| {
      t' := t;
    } else {
      var t1 := AnnounceOne(c, t, s0, w, b, i);
      t' := AnnounceAll(c, t1, s0, w, b, i + 1);
    }
  }

  /** The leader's timer fires, and every peer hears of its commit. */
  lemma Announce(c: Config, t: Trace, w: NodeID) returns (t': Trace)
    requires Live(c, t) && Total(c.machine) && AllComplete(c, Now(t), w)
    ensures Live(c, t') && Extends(t, t')
    ensures Announcing(c, Now(t'), Now(t), w, |Now(t).net|, |Now(t).nodes[w].peers|)
  {
    var s0, n := Now(t), Now(t).nodes[w];
    Beats(c.machine, n);
    var t1 := Acts(c, t, Expire(w), Effect(n, Heartbeats(n), true));
    forall j: nat | 0 <= j ensures UntoldAt(Now(t1), s0, w, |s0.net|, j) { }
    t' := AnnounceAll(c, t1, s0, w, |s0.net|, 0);
  }
}
