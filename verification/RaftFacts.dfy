/** What every event of a node guarantees about its state change and its
    messages, whatever the role and branch taken. The cluster proofs use these
    relations and never look inside the step functions again. */
module RaftFacts {
  import opened Basics
  import opened RaftTypes
  import opened RaftNode
  import opened RaftQuorum

  ghost predicate Got(ev: Event, term: Term) {
    ev.Receive? && ev.msg.term == term
  }

  ghost predicate GotVote(n: Node, ev: Event) {
    Got(ev, n.term) && ev.msg.message == CampaignResponse(true)
  }

  // ---- Terms, votes and roles ----

  /** The node keeps its identity, its term never falls, and within a term a
      cast vote stands. A new vote is for itself in a new term, or for a
      candidate of that term whose log is at least as up-to-date. */
  ghost predicate VoteFacts(n: Node, ev: Event, n': Node) {
    && n'.id == n.id && n'.peers == n.peers && n'.term >= n.term
    && (n'.term == n.term && n.vote.Some? ==> n'.vote == n.vote)
    && (n'.vote.Some? && (n'.term > n.term || n.vote.None?) ==>
          || (n'.vote == Some(n.id) && n'.term == n.term + 1)
          || (&& Got(ev, n'.term) && ev.msg.message.Campaign?
              && n'.vote == Some(ev.msg.from)
              && n'.log.entries == n.log.entries
              && NotNewer(n.log.entries, ev.msg.message.lastIndex, ev.msg.message.lastTerm)))
  }

  ghost predicate CandidateFacts(n: Node, ev: Event, n': Node) {
    n'.role.Candidate? ==>
      && n'.log.entries == n.log.entries
      && (|| (n.role.Candidate? && n'.term == n.term && n'.role.votes == n.role.votes)
          || (n.role.Candidate? && n'.term == n.term && GotVote(n, ev) && n'.role.votes == n.role.votes + {ev.msg.from})
          || (n'.term == n.term + 1 && n'.vote == Some(n.id) && n'.role.votes == {n.id}))
  }

  /** A fresh leader: it won a quorum of votes, or is alone, and has appended a
      noop of its term to the log it campaigned with. */
  ghost predicate Elected(n: Node, ev: Event, n': Node) {
    && n'.role.Leader?
    && (|| (&& n.role.Candidate? && n'.term == n.term && n'.vote == n.vote && GotVote(n, ev)
            && |n.role.votes + {ev.msg.from}| >= QuorumSize(|n.peers| + 1))
        || (n.peers == [] && n'.term == n.term + 1 && n'.vote == Some(n.id)))
    && n'.log.entries == n.log.entries + [Entry(|n.log.entries| + 1, n'.term, None)]
    && n'.role.progress == (map p | p in n.peers :: Progress(|n.log.entries| + 1, 0, 0))
    && n'.role.writes == map[] && n'.role.queue == [] && n'.role.readSeq == 0
  }

  predicate StillLeader(n: Node, n': Node) {
    n.role.Leader? && n'.role.Leader? && n'.term == n.term
  }

  ghost predicate LeaderFacts(n: Node, ev: Event, n': Node) {
    n'.role.Leader? ==> StillLeader(n, n') || Elected(n, ev, n')
  }

  ghost predicate FollowFacts(n: Node, ev: Event, n': Node) {
    n'.role.Follower? && n'.role.leader.Some? ==>
      || (n.role.Follower? && n'.term == n.term && n.role.leader == n'.role.leader)
      || (Got(ev, n'.term) && (ev.msg.message.Heartbeat? || ev.msg.message.Append?)
          && n'.role.leader == Some(ev.msg.from))
  }

  // ---- Log, commit position and state machine ----

  ghost predicate Appended(n: Node, n': Node) {
    && n'.role.Leader?
    && |n'.log.entries| == |n.log.entries| + 1
    && n'.log.entries[..|n.log.entries|] == n.log.entries
    && n'.log.entries[|n.log.entries|].term == n'.term
    && n'.log.entries[|n.log.entries|].index == |n'.log.entries|
  }

  /** The log after accepting an Append: spliced at a base entry it has. */
  ghost predicate Accepted(n: Node, msg: Message, n': Node) {
    && msg.Append?
    && (msg.baseIndex == 0 || Has(n.log.entries, msg.baseIndex, msg.baseTerm))
    && Splice(n.log.entries, n.log.commitIndex, msg.entries) == Some(n'.log.entries)
  }

  ghost predicate Spliced(n: Node, ev: Event, n': Node) {
    && Got(ev, n'.term) && n'.role.Follower? && n'.role.leader == Some(ev.msg.from)
    && Accepted(n, ev.msg.message, n')
  }

  ghost predicate LogFacts(n: Node, ev: Event, n': Node) {
    n'.log.entries == n.log.entries || Appended(n, n') || Spliced(n, ev, n')
  }

  /** The peers, by position, known to store the log up to an index. */
  ghost function Storing(n: Node, x: nat): set<nat>
    requires TracksPeers(n)
  {
    set j | 0 <= j < |n.peers| && n.role.progress[n.peers[j]].last >= x
  }

  /** The peers, by position, that echoed a read number in this term. */
  ghost function Confirming(n: Node, x: nat): set<nat>
    requires TracksPeers(n)
  {
    set j | 0 <= j < |n.peers| && n.role.progress[n.peers[j]].readSeq >= x
  }

  ghost predicate Majority(n: Node, others: set<nat>) {
    |others| + 1 >= QuorumSize(|n.peers| + 1)
  }

  ghost predicate CommitFacts(n: Node, ev: Event, n': Node) {
    || (n'.log.commitIndex == n.log.commitIndex && n'.log.commitTerm == n.log.commitTerm)
    || (&& Got(ev, n'.term) && ev.msg.message.Heartbeat? && n'.role.Follower?
        && n'.log.entries == n.log.entries
        && n'.log.commitIndex == ev.msg.message.commitIndex > n.log.commitIndex
        && n'.log.commitTerm == ev.msg.message.commitTerm
        && Has(n.log.entries, n'.log.commitIndex, n'.log.commitTerm))
    || (&& StillLeader(n, n') && TracksPeers(n')
        && n.log.commitIndex < n'.log.commitIndex <= |n'.log.entries|
        && Majority(n', Storing(n', n'.log.commitIndex))
        && n'.log.entries[n'.log.commitIndex - 1].term == n'.term == n'.log.commitTerm)
  }

  /** What is newly applied are committed log entries, in order. */
  ghost predicate AppliedFacts(n: Node, ev: Event, n': Node)
    requires Possible(n, ev)
  {
    var kept := if ev.Restart? then n.applied[..ev.keep] else n.applied;
    && kept <= n'.applied
    && (|n'.applied| > |kept| ==> |n'.applied| <= n'.log.commitIndex && |n'.applied| <= |n'.log.entries|)
    && forall j :: |kept| <= j < |n'.applied| ==> n'.applied[j] == n'.log.entries[j]
  }

  // ---- Leader bookkeeping ----

  ghost predicate PeerMoved(n: Node, ev: Event, n': Node, p: NodeID)
    requires StillLeader(n, n') && p in n.role.progress && p in n'.role.progress
  {
    var a, b := n.role.progress[p], n'.role.progress[p];
    || b == a
    || (&& Got(ev, n.term) && ev.msg.from == p
        && match ev.msg.message
           case HeartbeatResponse(_, _, rs) => b == a.(readSeq := rs) && rs <= n.role.readSeq
           case AppendResponse(reject, li, _) =>
             if reject then b == a.(next := if a.next > 1 then a.next - 1 else a.next)
             else a.last < li <= |n.log.entries| && b == a.(last := li, next := li + 1)
           case _ => false)
  }

  ghost predicate ProgressFacts(n: Node, ev: Event, n': Node) {
    StillLeader(n, n') && TracksPeers(n) ==>
      && TracksPeers(n') && n'.peers == n.peers && n'.role.progress.Keys == n.role.progress.Keys
      && forall p :: p in n.peers ==> PeerMoved(n, ev, n', p)
  }

  ghost predicate QueueFacts(n: Node, ev: Event, n': Node) {
    StillLeader(n, n') && TracksPeers(n) ==>
      && TracksPeers(n')
      && (n'.role.readSeq == n.role.readSeq || n'.role.readSeq == n.role.readSeq + 1)
      && (forall r :: r in n'.role.queue ==> r in n.role.queue || r.seqNo == n.role.readSeq + 1 == n'.role.readSeq)
      && (forall r :: r in n.role.queue && r !in n'.role.queue ==> Majority(n', Confirming(n', r.seqNo)))
  }

  // ---- Messages ----

  ghost predicate Sends(n: Node, ev: Event, n': Node, o: Envelope) {
    && o.from == n.id && o.term <= n'.term
    && match o.message
       case Heartbeat(ci, ct, rs) =>
         && n'.role.Leader? && o.term == n'.term
         && ci == n'.log.commitIndex && ct == n'.log.commitTerm && rs == n'.role.readSeq
       case HeartbeatResponse(_, _, rs) =>
         && o.term == n'.term && Got(ev, n'.term) && ev.msg.from == o.to
         && ev.msg.message.Heartbeat? && ev.msg.message.readSeq == rs
       case Campaign(li, lt) =>
         && o.term == n'.term == n.term + 1 && n'.vote == Some(n.id)
         && li == |n.log.entries| && lt == LastTerm(n.log.entries)
       case CampaignResponse(vote) => vote ==> o.term == n'.term && n'.vote == Some(o.to)
       case Append(_, _, _) => o.term == n'.term && CanSend(n', o.to) && o == SendLog(n', o.to)
       case AppendResponse(reject, li, _) =>
         && o.term == n'.term && Got(ev, n'.term) && ev.msg.from == o.to && ev.msg.message.Append?
         && n'.role.Follower? && n'.role.leader == Some(o.to)
         && (!reject ==> li == |n'.log.entries| && Accepted(n, ev.msg.message, n'))
       case _ => true
  }

  /** The accepting answer to an Append, if the step sent one. */
  predicate Accepts(out: seq<Envelope>) {
    out != [] && out[|out| - 1].message.AppendResponse? && !out[|out| - 1].message.reject
  }

  /** A log that changes other than by leading was spliced, and that is answered
      last. */
  ghost predicate AckFacts(n: Node, ev: Event, e: Effect) {
    && (e.node.log.entries == n.log.entries || Appended(n, e.node) || Accepts(e.out))
    && forall k :: 0 <= k < |e.out| && e.out[k].message.AppendResponse? ==> k == |e.out| - 1
  }

  ghost predicate SendFacts(n: Node, ev: Event, e: Effect) {
    forall k :: 0 <= k < |e.out| ==> Sends(n, ev, e.node, e.out[k])
  }

  /** What becomes of the node itself. */
  ghost predicate NodeFacts(n: Node, ev: Event, n': Node)
    requires Possible(n, ev)
  {
    && VoteFacts(n, ev, n') && CandidateFacts(n, ev, n') && LeaderFacts(n, ev, n')
    && FollowFacts(n, ev, n') && LogFacts(n, ev, n') && CommitFacts(n, ev, n')
    && AppliedFacts(n, ev, n') && ProgressFacts(n, ev, n') && QueueFacts(n, ev, n')
  }

  /** Everything together. */
  ghost predicate Facts(n: Node, ev: Event, e: Effect)
    requires Possible(n, ev)
  {
    NodeFacts(n, ev, e.node) && SendFacts(n, ev, e) && AckFacts(n, ev, e)
  }

  lemma {:induction false} ApplyUpToFacts(m: Machine, es: seq<Entry>, applied: seq<Entry>, upto: nat)
    requires upto <= |es|
    ensures var a := ApplyUpTo(m, es, applied, upto).0;
            && applied <= a
            && (|a| > |applied| ==> |a| <= upto)
            && forall j :: |applied| <= j < |a| ==> a[j] == es[j]
    decreases upto - |applied|
  {
    if |applied| < upto && m.apply(applied, es[|applied|]).Reply? {
      ApplyUpToFacts(m, es, applied + [es[|applied|]], upto);
    }
  }

  lemma MaybeApplyFacts(m: Machine, n: Node)
    ensures var n' := MaybeApply(m, n).0;
            && n' == n.(applied := n'.applied)
            && n.applied <= n'.applied
            && (|n'.applied| > |n.applied| ==> |n'.applied| <= n.log.commitIndex && |n'.applied| <= |n.log.entries|)
            && forall j :: |n.applied| <= j < |n'.applied| ==> n'.applied[j] == n.log.entries[j]
  {
    ApplyUpToFacts(m, n.log.entries, n.applied, Applicable(n.log));
  }

  // ---- The facts, handler by handler ----

  lemma FollowerHeartbeatFacts(m: Machine, n: Node, msg: Envelope)
    requires n.role.Follower? && msg.term == n.term && msg.message.Heartbeat?
    ensures Facts(n, Receive(msg), FollowerStep(m, n, msg))
  {
    var f := Follow(n, msg.from);
    if f.ok {
      MaybeApplyFacts(m,
                      f.node.(log := n.log.(commitIndex := msg.message.commitIndex,
                                            commitTerm := msg.message.commitTerm)));
    }
  }

  lemma FollowerAppendFacts(m: Machine, n: Node, msg: Envelope)
    requires n.role.Follower? && msg.term == n.term && msg.message.Append?
    ensures Facts(n, Receive(msg), FollowerStep(m, n, msg))
  {
    var a := msg.message;
    AppendFacts(n, msg, FollowerAppend(n, msg.from, a.baseIndex, a.baseTerm, a.entries));
  }

  lemma AppendFacts(n: Node, msg: Envelope, r: Effect)
    requires n.role.Follower? && msg.term == n.term && msg.message.Append?
    requires r == FollowerAppend(n, msg.from, msg.message.baseIndex, msg.message.baseTerm, msg.message.entries)
    ensures Facts(n, Receive(msg), r)
  {
    var f, a := Follow(n, msg.from), msg.message;
    if f.ok {
      if a.baseIndex > 0 && !Has(n.log.entries, a.baseIndex, a.baseTerm) {
        AnsweredFacts(n, msg, f, n.log.entries, true, r);
      } else {
        var spliced := Splice(n.log.entries, n.log.commitIndex, a.entries);
        if spliced.Some? {
          AnsweredFacts(n, msg, f, spliced.value, false, r);
        } else {
          assert r == Halt(f.node);
        }
      }
    }
  }

  lemma AnsweredFacts(n: Node, msg: Envelope, f: Effect, entries: seq<Entry>, reject: bool, r: Effect)
    requires n.role.Follower? && msg.term == n.term && msg.message.Append? && f == Follow(n, msg.from) && f.ok
    requires r == Effect(f.node.(log := n.log.(entries := entries)),
                         f.out + [Envelope(n.id, msg.from, n.term,
                                           AppendResponse(reject, |entries|, LastTerm(entries)))], true)
    requires if reject then entries == n.log.entries else Accepted(n, msg.message, r.node)
    ensures Facts(n, Receive(msg), r)
  {
    AnsweredNode(n, msg, f, entries, reject, r.node);
    assert OnlyAnswers(n, f.out);
    assert SendFacts(n, Receive(msg), r);
  }

  lemma AnsweredNode(n: Node, msg: Envelope, f: Effect, entries: seq<Entry>, reject: bool, n': Node)
    requires n.role.Follower? && msg.term == n.term && msg.message.Append? && f == Follow(n, msg.from) && f.ok
    requires n' == f.node.(log := n.log.(entries := entries))
    requires if reject then entries == n.log.entries else Accepted(n, msg.message, n')
    ensures NodeFacts(n, Receive(msg), n')
  {
  }

  lemma FollowerOtherFacts(m: Machine, n: Node, msg: Envelope)
    requires n.role.Follower? && msg.term == n.term && !msg.message.Append? && !msg.message.Heartbeat?
    ensures Facts(n, Receive(msg), FollowerStep(m, n, msg))
  {
  }

  lemma IntoLeaderFacts(n: Node)
    ensures var e := IntoLeader(n);
            && e.ok && e.node.role.Leader?
            && e.node == n.(log := n.log.(entries := n.log.entries + [Entry(|n.log.entries| + 1, n.term, None)]),
                            role := e.node.role)
            && e.node.role == Leader(map p | p in n.peers :: Progress(|n.log.entries| + 1, 0, 0), map[], [], 0)
            && forall k :: 0 <= k < |e.out| ==>
                 && e.out[k].from == n.id && e.out[k].term == n.term
                 && (|| e.out[k].message == Heartbeat(n.log.commitIndex, n.log.commitTerm, 0)
                     || (e.out[k].message.Append? && CanSend(e.node, e.out[k].to)
                         && e.out[k] == SendLog(e.node, e.out[k].to)))
  {
  }

  /** A candidate that follows the winner first becomes its follower. */
  lemma LostElectionFacts(n: Node, msg: Envelope, e: Effect)
    requires n.role.Candidate? && msg.term == n.term && (msg.message.Heartbeat? || msg.message.Append?)
    requires e.node.role.Follower? && Facts(n.(role := Follower(Some(msg.from), [])), Receive(msg), e)
    ensures Facts(n, Receive(msg), e)
  {
  }

  lemma WonElectionFacts(n: Node, msg: Envelope, e: Effect)
    requires n.role.Candidate? && GotVote(n, Receive(msg))
    requires |n.role.votes + {msg.from}| >= QuorumSize(|n.peers| + 1)
    requires e == IntoLeader(n.(role := Candidate(n.role.votes + {msg.from})))
    ensures Facts(n, Receive(msg), e)
  {
    IntoLeaderFacts(n.(role := Candidate(n.role.votes + {msg.from})));
    WonNode(n, msg, e.node);
    assert SendFacts(n, Receive(msg), e);
  }

  lemma WonNode(n: Node, msg: Envelope, n': Node)
    requires n.role.Candidate? && GotVote(n, Receive(msg))
    requires |n.role.votes + {msg.from}| >= QuorumSize(|n.peers| + 1)
    requires n' == n.(log := n.log.(entries := n.log.entries + [Entry(|n.log.entries| + 1, n.term, None)]),
                      role := n'.role)
    requires n'.role == Leader(map p | p in n.peers :: Progress(|n.log.entries| + 1, 0, 0), map[], [], 0)
    ensures NodeFacts(n, Receive(msg), n')
  {
  }

  lemma CandidateStepFacts(m: Machine, n: Node, msg: Envelope, e: Effect)
    requires n.role.Candidate? && msg.term == n.term
    requires e == CandidateStep(m, n, msg)
    ensures Facts(n, Receive(msg), e)
  {
    var f := n.(role := Follower(Some(msg.from), []));
    match msg.message
    case Heartbeat(_, _, _) =>
      FollowerHeartbeatFacts(m, f, msg);
      LostElectionFacts(n, msg, e);
    case Append(_, _, _) =>
      FollowerAppendFacts(m, f, msg);
      LostElectionFacts(n, msg, e);
    case CampaignResponse(vote) =>
      if vote && |n.role.votes + {msg.from}| >= QuorumSize(|n.peers| + 1) {
        WonElectionFacts(n, msg, e);
      }
    case _ =>
  }

  /** Answers to clients carry no protocol state. */
  ghost predicate OnlyAnswers(n: Node, out: seq<Envelope>) {
    forall k :: 0 <= k < |out| ==> out[k].from == n.id && out[k].term == n.term && out[k].message.ClientResponse?
  }

  lemma {:induction false} RepliesFacts(m: Machine, n: Node, writes: map<Index, Write>, applied: seq<Entry>, lo: nat)
    requires lo <= |applied|
    ensures OnlyAnswers(n, Replies(m, n.id, n.term, writes, applied, lo))
    decreases |applied| - lo
  {
    if lo < |applied| {
      RepliesFacts(m, n, writes, applied, lo + 1);
    }
  }

  lemma QuorumStores(n: Node, x: nat)
    requires TracksPeers(n) && x <= QuorumValue(LastIndexes(n))
    ensures Majority(n, Storing(n, x))
  {
    var s := LastIndexes(n);
    QuorumValueMeaning(s);
    MajorityWithoutSelf(n, s, x, Storing(n, x));
  }

  lemma QuorumConfirms(n: Node, x: nat)
    requires TracksPeers(n) && x <= QuorumValue(ReadSeqs(n))
    ensures Majority(n, Confirming(n, x))
  {
    var s := ReadSeqs(n);
    QuorumValueMeaning(s);
    MajorityWithoutSelf(n, s, x, Confirming(n, x));
  }

  lemma MajorityWithoutSelf(n: Node, s: seq<nat>, x: nat, others: set<nat>)
    requires |s| == |n.peers| + 1 && x <= QuorumValue(s)
    requires |AtLeast(s, QuorumValue(s))| >= QuorumSize(|s|)
    requires forall j :: 0 <= j < |n.peers| && s[j] >= x ==> j in others
    ensures Majority(n, others)
  {
    var a := AtLeast(s, QuorumValue(s));
    SubsetSize(a - {|n.peers|}, others);
    assert |a| <= |a - {|n.peers|}| + 1;
  }

  lemma MaybeCommitFacts(m: Machine, n: Node)
    requires TracksPeers(n)
    ensures CommitsOnly(n, MaybeCommitAndApply(m, n))
  {
    var q := QuorumValue(LastIndexes(n));
    if n.log.commitIndex < q <= |n.log.entries| && n.log.entries[q - 1].term == n.term {
      var n1 := n.(log := n.log.(commitIndex := q, commitTerm := n.term));
      MaybeApplyFacts(m, n1);
      var n2 := MaybeApply(m, n1).0;
      RepliesFacts(m, n, n.role.writes, n2.applied, |n.applied|);
      QuorumStores(n, q);
      assert Storing(MaybeCommitAndApply(m, n).node, q) == Storing(n, q);
    }
  }

  lemma MaybeReadFacts(m: Machine, n: Node)
    requires TracksPeers(n)
    ensures ReadsOnly(n, MaybeRead(m, n))
  {
    if n.role.queue != [] {
      var q := QuorumValue(ReadSeqs(n));
      var k := ReadyCount(n.role.queue, q);
      forall r | r in n.role.queue && r !in n.role.queue[k..] ensures Majority(n, Confirming(n, r.seqNo)) {
        assert n.role.queue == n.role.queue[..k] + n.role.queue[k..];
        assert r in n.role.queue[..k];
        QuorumConfirms(n, r.seqNo);
      }
    }
  }

  /** What executing reads leaves alone, and which reads it may execute. */
  ghost predicate ReadsOnly(n: Node, e: Effect) {
    && TracksPeers(n) && e.ok && OnlyAnswers(n, e.out)
    && e.node.role.Leader? && e.node == n.(role := n.role.(queue := e.node.role.queue))
    && (forall r :: r in e.node.role.queue ==> r in n.role.queue)
    && (forall r :: r in n.role.queue && r !in e.node.role.queue ==> Majority(n, Confirming(n, r.seqNo)))
  }

  lemma ConfirmedReadFacts(n: Node, msg: Envelope, e: Effect)
    requires TracksPeers(n) && msg.term == n.term && msg.message.HeartbeatResponse? && msg.from in n.role.progress
    requires msg.message.readSeq <= n.role.readSeq
    requires ReadsOnly(n.(role := n.role.(progress := n.role.progress[msg.from :=
               n.role.progress[msg.from].(readSeq := msg.message.readSeq)])), e)
    ensures Facts(n, Receive(msg), e)
  {
    var n1 := n.(role := n.role.(progress := n.role.progress[msg.from :=
                n.role.progress[msg.from].(readSeq := msg.message.readSeq)]));
    assert forall x :: Confirming(e.node, x) == Confirming(n1, x);
  }

  lemma MoreSends(n: Node, ev: Event, e: Effect, o: Envelope)
    requires Possible(n, ev) && Facts(n, ev, e) && Sends(n, ev, e.node, o)
    requires e.node.log.entries == n.log.entries && !o.message.AppendResponse?
    requires forall k :: 0 <= k < |e.out| ==> !e.out[k].message.AppendResponse?
    ensures Facts(n, ev, e.(out := e.out + [o]))
  {
  }

  lemma HaltFacts(n: Node, ev: Event, e: Effect)
    requires Possible(n, ev) && Facts(n, ev, e) && e.node.log.entries == n.log.entries
    ensures Facts(n, ev, Halt(e.node))
  {
  }

  lemma LeaderHeartbeatResponseFacts(m: Machine, n: Node, msg: Envelope, r: Effect)
    requires n.role.Leader? && msg.term == n.term && msg.message.HeartbeatResponse?
    requires r == LeaderStep(m, n, msg)
    ensures Facts(n, Receive(msg), r)
  {
    var rs := msg.message.readSeq;
    if rs <= n.role.readSeq && msg.from in n.role.progress && TracksPeers(n) {
      var n1 := n.(role := n.role.(progress := n.role.progress[msg.from := n.role.progress[msg.from].(readSeq := rs)]));
      var e;
      if rs > n.role.progress[msg.from].readSeq {
        e := MaybeRead(m, n1);
        MaybeReadFacts(m, n1);
        ConfirmedReadFacts(n, msg, e);
      } else {
        e := Effect(n, [], true);
      }
      if CanSend(e.node, msg.from) {
        MoreSends(n, Receive(msg), e, SendLog(e.node, msg.from));
      }
      HaltFacts(n, Receive(msg), e);
    }
  }

  /** What committing and applying may change. */
  ghost predicate CommitsOnly(n: Node, e: Effect) {
    && TracksPeers(n) && OnlyAnswers(n, e.out)
    && e.node.role.Leader?
    && e.node == n.(log := n.log.(commitIndex := e.node.log.commitIndex, commitTerm := e.node.log.commitTerm),
                    applied := e.node.applied, role := n.role.(writes := e.node.role.writes))
    && CommitFacts(n, Fire, e.node)
    && AppliedFacts(n, Fire, e.node)
  }

  lemma StoredMoreFacts(n: Node, msg: Envelope, p: Progress, e: Effect)
    requires TracksPeers(n) && msg.term == n.term && msg.message.AppendResponse? && msg.from in n.role.progress
    requires !msg.message.reject && n.role.progress[msg.from].last < msg.message.lastIndex <= |n.log.entries|
    requires p == n.role.progress[msg.from].(last := msg.message.lastIndex, next := msg.message.lastIndex + 1)
    requires CommitsOnly(n.(role := n.role.(progress := n.role.progress[msg.from := p])), e)
    ensures Facts(n, Receive(msg), e)
  {
    var n1 := n.(role := n.role.(progress := n.role.progress[msg.from := p]));
    assert StillLeader(n1, e.node);
    assert StillLeader(n, e.node);
  }

  lemma NothingFacts(n: Node, ev: Event, r: Effect)
    requires ev.Receive? && r.node == n && r.out == []
    ensures Facts(n, ev, r)
  {
  }

  lemma RejectedFacts(m: Machine, n: Node, msg: Envelope, r: Effect)
    requires n.role.Leader? && msg.term == n.term && msg.message.AppendResponse? && msg.message.reject
    requires r == LeaderAppendResponse(m, n, msg.from, true, msg.message.lastIndex, msg.message.lastTerm)
    ensures Facts(n, Receive(msg), r)
  {
  }

  lemma AcknowledgedFacts(m: Machine, n: Node, msg: Envelope, r: Effect)
    requires TracksPeers(n) && msg.term == n.term && msg.message.AppendResponse? && !msg.message.reject
    requires msg.from in n.role.progress
    requires n.role.progress[msg.from].last < msg.message.lastIndex <= |n.log.entries|
    requires r == MaybeCommitAndApply(m, n.(role := n.role.(progress := n.role.progress[msg.from :=
                    n.role.progress[msg.from].(last := msg.message.lastIndex, next := msg.message.lastIndex + 1)])))
    ensures Facts(n, Receive(msg), r)
  {
    var li := msg.message.lastIndex;
    var p := n.role.progress[msg.from].(last := li, next := li + 1);
    MaybeCommitFacts(m, n.(role := n.role.(progress := n.role.progress[msg.from := p])));
    StoredMoreFacts(n, msg, p, r);
  }

  lemma LeaderAppendResponseFacts(m: Machine, n: Node, msg: Envelope, r: Effect)
    requires n.role.Leader? && msg.term == n.term && msg.message.AppendResponse?
    requires r == LeaderAppendResponse(m, n, msg.from, msg.message.reject, msg.message.lastIndex, msg.message.lastTerm)
    ensures Facts(n, Receive(msg), r)
  {
    if msg.message.reject {
      RejectedFacts(m, n, msg, r);
    } else if msg.from in n.role.progress && TracksPeers(n)
       && n.role.progress[msg.from].last < msg.message.lastIndex <= |n.log.entries|
       && msg.message.lastTerm <= LastTerm(n.log.entries)
    {
      AcknowledgedFacts(m, n, msg, r);
    } else {
      NothingFacts(n, Receive(msg), r);
    }
  }

  lemma LeaderRequestFacts(m: Machine, n: Node, msg: Envelope, r: Effect)
    requires n.role.Leader? && msg.term == n.term && msg.message.ClientRequest?
    requires r == LeaderRequest(m, n, msg.from, msg.message.id, msg.message.request)
    ensures Facts(n, Receive(msg), r)
  {
    if TracksPeers(n) {
      match msg.message.request
      case ReadRequest(command) => LeaderReadFacts(m, n, msg, command, r);
      case WriteRequest(command) => LeaderWriteFacts(m, n, msg, command, r);
      case StatusRequest =>
    }
  }

  lemma LeaderReadFacts(m: Machine, n: Node, msg: Envelope, command: Command, r: Effect)
    requires TracksPeers(n) && msg.message.ClientRequest?
    requires r == LeaderRequest(m, n, msg.from, msg.message.id, ReadRequest(command))
    ensures Facts(n, Receive(msg), r)
  {
    var read := Read(n.role.readSeq + 1, msg.from, msg.message.id, command);
    var n1 := n.(role := n.role.(readSeq := read.seqNo, queue := n.role.queue + [read]));
    var e;
    if n.peers == [] {
      e := MaybeRead(m, n1);
      MaybeReadFacts(m, n1);
    } else {
      e := Effect(n1, [], true);
    }
    assert r == e.(out := e.out + Heartbeats(e.node));
    AcceptedReadFacts(n, msg, read, e);
  }

  lemma AcceptedReadFacts(n: Node, msg: Envelope, r: Read, e: Effect)
    requires TracksPeers(n) && r.seqNo == n.role.readSeq + 1
    requires ReadsOnly(n.(role := n.role.(readSeq := r.seqNo, queue := n.role.queue + [r])), e)
    ensures Facts(n, Receive(msg), e.(out := e.out + Heartbeats(e.node)))
  {
    var n1 := n.(role := n.role.(readSeq := r.seqNo, queue := n.role.queue + [r]));
    assert forall x :: Confirming(e.node, x) == Confirming(n1, x);
  }

  lemma ProposedFacts(n: Node, command: Option<Command>)
    requires TracksPeers(n)
    ensures var e := Propose(n, command);
            && e.node == n.(log := n.log.(entries := n.log.entries + [Entry(|n.log.entries| + 1, n.term, command)]))
            && Facts(n, Fire, e)
  {
  }

  lemma LeaderWriteFacts(m: Machine, n: Node, msg: Envelope, command: Command, r: Effect)
    requires TracksPeers(n) && msg.message.ClientRequest?
    requires r == LeaderRequest(m, n, msg.from, msg.message.id, WriteRequest(command))
    ensures Facts(n, Receive(msg), r)
  {
    var e := Propose(n, Some(command));
    ProposedFacts(n, Some(command));
    if e.ok {
      var write := Write(msg.from, msg.message.id);
      var n1 := e.node.(role := e.node.role.(writes := e.node.role.writes[|e.node.log.entries| := write]));
      if n.peers == [] {
        MaybeCommitFacts(m, n1);
        AcceptedWriteFacts(n, msg, e, n1, MaybeCommitAndApply(m, n1));
      } else {
        assert r == Effect(n1, e.out, true);
        TrackedWriteFacts(n, msg, e, n1);
      }
    } else {
      assert r == Halt(e.node);
      TrackedWriteFacts(n, msg, e, e.node);
    }
  }

  lemma TrackedWriteFacts(n: Node, msg: Envelope, e: Effect, n1: Node)
    requires TracksPeers(n) && Facts(n, Fire, e) && Appended(n, e.node)
    requires e.node.role == n.role && e.node.term == n.term
    requires n1.role.Leader? && n1 == e.node.(role := n.role.(writes := n1.role.writes))
    ensures Facts(n, Receive(msg), Effect(n1, e.out, true))
  {
    assert forall x :: Confirming(e.node, x) == Confirming(n1, x) && Storing(e.node, x) == Storing(n1, x);
  }

  lemma AcceptedWriteFacts(n: Node, msg: Envelope, e: Effect, n1: Node, c: Effect)
    requires TracksPeers(n) && Facts(n, Fire, e) && e.node.role == n.role && Appended(n, e.node) && n.peers == []
    requires e.node == n.(log := n.log.(entries := e.node.log.entries))
    requires n1.role.Leader? && n1 == e.node.(role := n.role.(writes := n1.role.writes))
    requires CommitsOnly(n1, c) && e.out == []
    ensures Facts(n, Receive(msg), Emit(c, e.out))
  {
    assert StillLeader(n1, c.node) && StillLeader(n, c.node);
  }

  lemma LeaderStepFacts(m: Machine, n: Node, msg: Envelope, r: Effect)
    requires n.role.Leader? && msg.term == n.term
    requires r == LeaderStep(m, n, msg)
    ensures Facts(n, Receive(msg), r)
  {
    match msg.message
    case HeartbeatResponse(_, _, _) => LeaderHeartbeatResponseFacts(m, n, msg, r);
    case AppendResponse(_, _, _) => LeaderAppendResponseFacts(m, n, msg, r);
    case ClientRequest(_, _) => LeaderRequestFacts(m, n, msg, r);
    case _ => assert r.node == n && r.out == [];
  }

  lemma RoleStepFacts(m: Machine, n: Node, msg: Envelope, r: Effect)
    requires msg.term == n.term
    requires r == RoleStep(m, n, msg)
    ensures Facts(n, Receive(msg), r)
  {
    match n.role
    case Follower(_, _) =>
      if msg.message.Heartbeat? { FollowerHeartbeatFacts(m, n, msg); }
      else if msg.message.Append? { FollowerAppendFacts(m, n, msg); }
      else { FollowerOtherFacts(m, n, msg); }
    case Candidate(_) => CandidateStepFacts(m, n, msg, r);
    case Leader(_, _, _, _) => LeaderStepFacts(m, n, msg, r);
  }

  /** Moving to a later term first is the same as starting there, plus aborts. */
  lemma LaterTermFacts(n: Node, msg: Envelope, e: Effect)
    requires msg.term > n.term
    requires Facts(DiscoverTerm(n, msg.term), Receive(msg), e) && e.node.term == msg.term && e.node.role.Follower?
    ensures Facts(n, Receive(msg), Emit(e, LeavingTerm(n)))
  {
    LaterTermNode(n, msg, e.node);
    assert OnlyAnswers(n, LeavingTerm(n));
    LaterTermSends(n, msg, e, LeavingTerm(n));
  }

  lemma LaterTermNode(n: Node, msg: Envelope, n': Node)
    requires msg.term > n.term
    requires NodeFacts(DiscoverTerm(n, msg.term), Receive(msg), n') && n'.term == msg.term && n'.role.Follower?
    ensures NodeFacts(n, Receive(msg), n')
  {
    var n0 := DiscoverTerm(n, msg.term);
    assert VoteFacts(n0, Receive(msg), n') && FollowFacts(n0, Receive(msg), n');
  }

  lemma LaterTermSends(n: Node, msg: Envelope, e: Effect, before: seq<Envelope>)
    requires msg.term > n.term && OnlyAnswers(n, before)
    requires SendFacts(DiscoverTerm(n, msg.term), Receive(msg), e)
             && AckFacts(DiscoverTerm(n, msg.term), Receive(msg), e)
    requires e.node.term == msg.term && e.node.role.Follower?
    ensures SendFacts(n, Receive(msg), Emit(e, before)) && AckFacts(n, Receive(msg), Emit(e, before))
  {
    var n0, r := DiscoverTerm(n, msg.term), Emit(e, before);
    forall k | 0 <= k < |r.out| ensures Sends(n, Receive(msg), e.node, r.out[k]) {
      if e.ok && k >= |before| {
        assert r.out[k] == e.out[k - |before|];
        assert Sends(n0, Receive(msg), e.node, e.out[k - |before|]);
      }
    }
  }

  lemma FollowerStays(m: Machine, n: Node, msg: Envelope, e: Effect)
    requires n.role.Follower? && e == FollowerStep(m, n, msg)
    ensures e.node.term == n.term && e.node.role.Follower?
  {
  }

  lemma StepFacts(m: Machine, n: Node, msg: Envelope, r: Effect)
    requires r == Step(m, n, msg)
    ensures Facts(n, Receive(msg), r)
  {
    if msg.to != n.id || !(msg.from == n.id || msg.from in n.peers) || msg.term < n.term {
      assert r.node == n && r.out == [];
    } else if msg.term > n.term {
      var n0 := DiscoverTerm(n, msg.term);
      var e := RoleStep(m, n0, msg);
      RoleStepFacts(m, n0, msg, e);
      FollowerStays(m, n0, msg, e);
      LaterTermFacts(n, msg, e);
    } else {
      RoleStepFacts(m, n, msg, r);
    }
  }

  lemma CampaignFacts(n: Node, n0: Node, ev: Event, e: Effect, before: seq<Envelope>)
    requires Possible(n, ev) && AppliedFacts(n, ev, n0) && OnlyAnswers(n, before)
    requires n0.log == n.log && n0.id == n.id && n0.peers == n.peers && n0.term == n.term
    requires e == StartCampaign(n0)
    ensures Facts(n, ev, Emit(e, before))
  {
  }

  lemma TimeoutFacts(m: Machine, n: Node, r: Effect)
    requires r == Timeout(m, n)
    ensures Facts(n, Fire, r)
  {
    match n.role
    case Follower(_, forwarded) =>
      MaybeApplyFacts(m, n);
      var n1 := MaybeApply(m, n).0;
      assert AppliedFacts(n, Fire, n1);
      if r.ok {
        CampaignFacts(n, n1, Fire, StartCampaign(n1), Aborts(n, forwarded));
      } else {
        assert r == Halt(n1);
      }
    case Candidate(_) =>
      CampaignFacts(n, n, Fire, StartCampaign(n), []);
      assert Emit(r, []) == r;
    case Leader(_, _, _, _) =>
  }

  lemma BootFacts(m: Machine, n: Node, keep: nat, r: Effect)
    requires keep <= |n.applied|
    requires r == Boot(m, n, keep)
    ensures Facts(n, Restart(keep), r)
  {
    var n0 := n.(applied := n.applied[..keep], role := Follower(None, []));
    if n.peers == [] {
      MaybeApplyFacts(m, n0);
      var n1 := MaybeApply(m, n0).0;
      if Timeout(m, n0).ok {
        IntoLeaderFacts(StartCampaign(n1).node);
      }
    }
  }

  /** The summary: every event of every node satisfies all the relations. */
  lemma HandleFacts(m: Machine, n: Node, ev: Event)
    requires Possible(n, ev)
    ensures Facts(n, ev, Handle(m, n, ev))
  {
    match ev
    case Receive(msg) => StepFacts(m, n, msg, Handle(m, n, ev));
    case Fire => TimeoutFacts(m, n, Handle(m, n, ev));
    case Restart(keep) => BootFacts(m, n, keep, Handle(m, n, ev));
  }
}
