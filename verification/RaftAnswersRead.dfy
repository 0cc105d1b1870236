/** A settled cluster can answer a read at any node, from what everybody has applied. */
module RaftAnswersRead {
  import opened Basics
  import opened RaftTypes
  import opened RaftNode
  import opened RaftQuorum
  import opened RaftCluster
  import opened RaftElection
  import opened RaftTrace
  import opened RaftProgress
  import opened RaftNeverStuck

  // ---- The leader ----

  /** A leader that has taken a read. */
  function Reading(n: Node, from: NodeID, id: RequestID, command: Command): Node
    requires n.role.Leader?
  {
    var seqNo := n.role.readSeq + 1;
    n.(role := n.role.(readSeq := seqNo, queue := [Read(seqNo, from, id, command)]))
  }

  lemma TakesRead(m: Machine, n: Node, from: NodeID, id: RequestID, command: Command) returns (e: Effect)
    requires Idle(n) && n.peers != []
    ensures e == LeaderRequest(m, n, from, id, ReadRequest(command)) && e.ok
    ensures e.node == Reading(n, from, id, command) && |e.out| == |n.peers|
    ensures forall j :: 0 <= j < |n.peers| ==> e.out[j] == Beat(e.node, n.peers[j])
  {
    var n' := Reading(n, from, id, command);
    e := LeaderRequest(m, n, from, id, ReadRequest(command));
    assert [] + [n'.role.queue[0]] == n'.role.queue;
    assert [] + Heartbeats(n') == Heartbeats(n');
  }

  function ReadAnswer(m: Machine, n: Node, id: NodeID, rd: Read): Envelope {
    Envelope(id, rd.from, n.term, ClientResponse(rd.id, ReadDone(m.read(n.applied, rd.command))))
  }

  /** The leader has one read to confirm, or has answered it. */
  ghost predicate Confirming(m: Machine, n: Node, rd: Read, since: nat, net: seq<Envelope>) {
    && TracksPeers(n) && n.role.readSeq == rd.seqNo && since <= |net|
    && (forall p :: p in n.peers ==> n.role.progress[p].readSeq <= rd.seqNo)
    && (|| (n.role.queue == [] && ReadAnswer(m, n, n.id, rd) in net[since..])
        || (n.role.queue == [rd] && QuorumValue(ReadSeqs(n)) < rd.seqNo))
  }

  /** The leader with peer p's confirmation. */
  function Confirmed(n: Node, p: NodeID): Node
    requires n.role.Leader? && p in n.role.progress
  {
    n.(role := n.role.(progress := n.role.progress[p := n.role.progress[p].(readSeq := n.role.readSeq)]))
  }

  lemma ExecutesOrWaits(m: Machine, n: Node, rd: Read, since: nat, net: seq<Envelope>) returns (e: Effect)
    requires TracksPeers(n) && n.role.readSeq == rd.seqNo && since <= |net|
    requires forall p :: p in n.peers ==> n.role.progress[p].readSeq <= rd.seqNo
    requires n.role.queue == [rd] || (n.role.queue == [] && ReadAnswer(m, n, n.id, rd) in net[since..])
    ensures e == MaybeRead(m, n) && e.ok && Confirming(m, e.node, rd, since, net + e.out)
    ensures e.node == n.(role := n.role.(queue := e.node.role.queue))
  {
    e := MaybeRead(m, n);
    var q := QuorumValue(ReadSeqs(n));
    if n.role.queue == [] {
      assert net + e.out == net;
    } else if q < rd.seqNo {
      assert ReadyCount([rd], q) == 0;
      assert n.role.queue[0..] == n.role.queue && e.out == [];
      assert net + e.out == net;
      assert ReadSeqs(e.node) == ReadSeqs(n);
    } else {
      assert ReadyCount([rd], q) == 1 + ReadyCount([], q);
      assert n.role.queue[1..] == [] && e.out == [ReadAnswer(m, n, n.id, rd)];
      assert (net + e.out)[since..][|net| - since] == e.out[0];
    }
  }

  lemma Echoed(m: Machine, n: Node, p: NodeID)
    requires TracksPeers(n) && p in n.peers && n.role.progress[p].readSeq < n.role.readSeq
    ensures p in n.role.progress && TracksPeers(Confirmed(n, p))
    ensures Handle(m, n, Receive(Echo(p, n))) == MaybeRead(m, Confirmed(n, p))
  {
  }

  /** When all peers have confirmed, the read has been answered. */
  lemma AllConfirmed(m: Machine, n: Node, rd: Read, since: nat, net: seq<Envelope>)
    requires Confirming(m, n, rd, since, net)
    requires forall p :: p in n.peers ==> n.role.progress[p].readSeq == rd.seqNo
    ensures n.role.queue == [] && ReadAnswer(m, n, n.id, rd) in net[since..]
  {
    QuorumValueMeaning(ReadSeqs(n));
    var q := QuorumValue(ReadSeqs(n));
    var j :| 0 <= j < |ReadSeqs(n)| && ReadSeqs(n)[j] == q;
    if j < |n.peers| {
      assert n.peers[j] in n.peers;
    }
  }

  /** Before any peer has confirmed, the leader alone is no quorum. */
  lemma NoneConfirmed(n: Node)
    requires TracksPeers(n) && n.peers != [] && forall p :: p in n.peers ==> n.role.progress[p].readSeq < n.role.readSeq
    ensures QuorumValue(ReadSeqs(n)) < n.role.readSeq
  {
    var s := ReadSeqs(n);
    QuorumValueMeaning(s);
    assert AtLeast(s, n.role.readSeq) == {|n.peers|} by {
      forall j | 0 <= j < |n.peers| ensures s[j] < n.role.readSeq { assert n.peers[j] in n.peers; }
    }
  }

  // ---- The cluster ----

  ghost predicate BeatAt(s: State, l: Node, b: nat, j: nat) {
    l.role.Leader? && j < |l.peers| ==> Ready(s, b + j) && s.net[b + j] == Beat(l, l.peers[j])
  }

  /** The leader of a settled cluster has taken a read of a client at some node. */
  ghost predicate Asked(c: Config, s: State, s1: State, w: NodeID, client: NodeID, id: RequestID, command: Command,
                        b: nat) {
    && Settled(c, s, w) && client in c.members && s1.nodes.Keys == c.members && s1.up == s.up && s.net <= s1.net
    && s1.nodes[w] == Reading(s.nodes[w], client, id, command) && b + |s1.nodes[w].peers| == |s1.net|
    && (forall p :: p in c.members && p != w ==>
          s1.nodes[p] == s.nodes[p].(role := Follower(Some(w), if p == client then [id] else [])))
    && (forall j :: BeatAt(s1, s1.nodes[w], b, j))
  }

  lemma AskedState(c: Config, s: State, s1: State, s2: State, w: NodeID, client: NodeID, id: RequestID,
                   command: Command, e: Effect)
    requires Settled(c, s, w) && client in c.members && s1.nodes.Keys == c.members && s1.up == s.up && s.net <= s1.net
    requires s1.nodes[w] == s.nodes[w]
    requires forall p :: p in c.members && p != w ==>
               s1.nodes[p] == s.nodes[p].(role := Follower(Some(w), if p == client then [id] else []))
    requires Became(s1, s2, w, e) && e.node == Reading(s.nodes[w], client, id, command) && |e.out| == |e.node.peers|
    requires forall j :: 0 <= j < |e.node.peers| ==> e.out[j] == Beat(e.node, e.node.peers[j])
    ensures Asked(c, s, s2, w, client, id, command, |s1.net|)
  {
    var b := |s1.net|;
    forall j: nat ensures BeatAt(s2, s2.nodes[w], b, j) {
      if j < |e.out| {
        assert s2.net[b + j] == e.out[j];
      }
    }
  }

  lemma AsksOwn(c: Config, t: Trace, w: NodeID, id: RequestID, command: Command) returns (t': Trace)
    requires Live(c, t) && Settled(c, Now(t), w) && |c.members| > 1
    ensures Live(c, t') && Extends(t, t') && Asked(c, Now(t), Now(t'), w, w, id, command, |Now(t).net|)
  {
    var n := Now(t).nodes[w];
    ClusterSize(c.members, n);
    var e := TakesRead(c.machine, n, w, id, command);
    Takes(c.machine, n, w, id, ReadRequest(command));
    t' := Acts(c, t, Submit(w, id, ReadRequest(command)), e);
    AskedState(c, Now(t), Now(t), Now(t'), w, w, id, command, e);
  }

  lemma GetsForwardedRead(c: Config, t: Trace, w: NodeID, client: NodeID, id: RequestID, command: Command, k: nat)
    returns (t': Trace, e: Effect)
    requires Live(c, t) && w in c.members && client != w && w in Now(t).nodes && w in Now(t).up && Ready(Now(t), k)
    requires var n := Now(t).nodes[w];
             && n.id == w && Idle(n) && client in n.peers
             && Now(t).net[k] == Forward(client, w, n.term, id, ReadRequest(command))
    ensures Live(c, t') && Extends(t, t') && Became(Now(t), Now(t'), w, e)
    ensures var n := Now(t).nodes[w];
            && e.node == Reading(n, client, id, command) && |e.out| == |n.peers|
            && forall j :: 0 <= j < |n.peers| ==> e.out[j] == Beat(e.node, n.peers[j])
  {
    var n := Now(t).nodes[w];
    e := TakesRead(c.machine, n, client, id, command);
    Takes(c.machine, n, client, id, ReadRequest(command));
    t' := Gets(c, t, k, e);
  }

  lemma AsksForwarded(c: Config, t: Trace, w: NodeID, client: NodeID, id: RequestID, command: Command)
    returns (t': Trace, b: nat)
    requires Live(c, t) && Settled(c, Now(t), w) && |c.members| > 1 && client in c.members && client != w
    ensures Live(c, t') && Extends(t, t') && Asked(c, Now(t), Now(t'), w, client, id, command, b)
  {
    var s := Now(t);
    var t1 := Submits(c, t, w, client, id, ReadRequest(command));
    var s1 := Now(t1);
    var e;
    t', e := GetsForwardedRead(c, t1, w, client, id, command, |s.net|);
    b := |s1.net|;
    AskedState(c, s, s1, Now(t'), w, client, id, command, e);
  }

  // ---- The read is confirmed ----

  /** The leader since state s1: only confirmations have come in. */
  ghost predicate OnlyConfirmed(l: Node, l1: Node) {
    && l.role.Leader? && l1.role.Leader? && l.role.progress.Keys == l1.role.progress.Keys
    && l == l1.(role := l1.role.(progress := l.role.progress, queue := l.role.queue))
    && forall p :: p in l.role.progress ==>
         l.role.progress[p] == l1.role.progress[p].(readSeq := l.role.progress[p].readSeq)
  }

  ghost predicate HeardAt(l: Node, rd: Read, j: nat) {
    l.role.Leader? && j < |l.peers| ==>
      l.peers[j] in l.role.progress && l.role.progress[l.peers[j]].readSeq == rd.seqNo
  }

  ghost predicate UnheardAt(s: State, l: Node, l1: Node, b: nat, j: nat) {
    l.role.Leader? && l1.role.Leader? && j < |l1.peers| ==>
      && l1.peers[j] in l.role.progress && l1.peers[j] in l1.role.progress && BeatAt(s, l1, b, j)
      && l.role.progress[l1.peers[j]].readSeq == l1.role.progress[l1.peers[j]].readSeq < l1.role.readSeq
  }

  /** The first i peers have been heard, and those from u on have not been reached. */
  ghost predicate Hearing(c: Config, s: State, s1: State, w: NodeID, rd: Read, b: nat, i: nat, u: nat) {
    && w in c.members && s.nodes.Keys == s1.nodes.Keys == c.members && s.up == s1.up && s1.net <= s.net
    && (forall p :: p in c.members && p != w ==> s.nodes[p] == s1.nodes[p])
    && OnlyConfirmed(s.nodes[w], s1.nodes[w]) && Confirming(c.machine, s.nodes[w], rd, |s1.net|, s.net)
    && LinksWithin(s, w, |s1.net|)
    && (forall j: nat :: j < i ==> HeardAt(s.nodes[w], rd, j))
    && (forall j: nat :: u <= j ==> UnheardAt(s, s.nodes[w], s1.nodes[w], b, j))
  }

  /** Followers that only echo. */
  ghost predicate AllEcho(c: Config, s1: State, w: NodeID) {
    && w in c.members && s1.nodes.Keys == c.members && c.members <= s1.up && PeersOk(c.members, s1.nodes[w])
    && s1.nodes[w].id == w && s1.nodes[w].role.Leader?
    && forall j :: 0 <= j < |s1.nodes[w].peers| ==>
         var p := s1.nodes[w].peers[j];
         && p in c.members && p != w && s1.nodes[p].id == p
         && Complete(s1.nodes[p], s1.nodes[w]) && s1.nodes[p] == Informed(s1.nodes[p])
  }

  lemma EchoesBack(m: Machine, n: Node, l: Node)
    requires Total(m) && Complete(n, l) && n == Informed(n)
    ensures Handle(m, n, Receive(Beat(l, n.id))) == Effect(n, [Echo(n.id, l)], true)
  {
    Hears(m, n, l);
  }

  /** A peer has heard the leader, and nothing else has changed. */
  lemma ReachedOne(c: Config, s: State, s': State, s1: State, w: NodeID, rd: Read, b: nat, i: nat)
    requires AllEcho(c, s1, w) && i < |s1.nodes[w].peers| && Hearing(c, s, s1, w, rd, b, i, i)
    requires var p := s1.nodes[w].peers[i];
             Between(s, s', w, p) && Became(s, s', p, Effect(s1.nodes[p], [Echo(p, s1.nodes[w])], true))
    requires LinksWithin(s', w, |s1.net|)
    ensures Hearing(c, s', s1, w, rd, b, i, i + 1) && Ready(s', |s.net|) && s'.nodes[w] == s.nodes[w]
    ensures s'.net[|s.net|] == Echo(s1.nodes[w].peers[i], s1.nodes[w])
  {
    var peers, p := s1.nodes[w].peers, s1.nodes[w].peers[i];
    assert s.net[|s1.net|..] <= s'.net[|s1.net|..];
    assert forall j :: 0 <= j < |peers| && j != i ==> peers[j] != p && peers[j] != w;
    forall j: nat | j < i ensures HeardAt(s'.nodes[w], rd, j) { assert HeardAt(s.nodes[w], rd, j); }
    forall j: nat | i + 1 <= j ensures UnheardAt(s', s'.nodes[w], s1.nodes[w], b, j) {
      assert UnheardAt(s, s.nodes[w], s1.nodes[w], b, j);
      if j < |peers| {
        assert BeatAt(s, s1.nodes[w], b, j) && !Among(s.net[b + j], w, p);
      }
    }
  }

  lemma ReachOne(c: Config, t: Trace, s1: State, w: NodeID, rd: Read, b: nat, i: nat) returns (t': Trace)
    requires Live(c, t) && Total(c.machine) && AllEcho(c, s1, w) && i < |s1.nodes[w].peers|
    requires Hearing(c, Now(t), s1, w, rd, b, i, i) && b + |s1.nodes[w].peers| <= |s1.net|
    ensures Live(c, t') && Extends(t, t') && Hearing(c, Now(t'), s1, w, rd, b, i, i + 1)
    ensures Ready(Now(t'), |Now(t).net|) && Now(t').nodes[w] == Now(t).nodes[w]
    ensures Now(t').net[|Now(t).net|] == Echo(s1.nodes[w].peers[i], s1.nodes[w])
  {
    var s, l1 := Now(t), s1.nodes[w];
    var p := l1.peers[i];
    assert UnheardAt(s, s.nodes[w], l1, b, i) && BeatAt(s, l1, b, i);
    EchoesBack(c.machine, s1.nodes[p], l1);
    t' := Gets(c, t, b + i, Effect(s1.nodes[p], [Echo(p, l1)], true));
    LinksAfter(c, t, t', w, b + i, |s1.net|);
    ReachedOne(c, s, Now(t'), s1, w, rd, b, i);
  }

  /** The leader counts the echo. */
  lemma CountsEcho(c: Config, t: Trace, w: NodeID, p: NodeID, rd: Read, since: nat, k: nat)
    returns (t': Trace, e: Effect)
    requires Live(c, t) && w in c.members && w in Now(t).nodes && w in Now(t).up && p != w && Ready(Now(t), k)
    requires var n := Now(t).nodes[w];
             && n.id == w && p in n.peers && Confirming(c.machine, n, rd, since, Now(t).net)
             && n.role.progress[p].readSeq < rd.seqNo && Now(t).net[k] == Echo(p, n)
    ensures Live(c, t') && Extends(t, t') && Became(Now(t), Now(t'), w, e) && t'.acts == t.acts + [Deliver(k)]
    ensures Between(Now(t), Now(t'), p, w)
    ensures var n := Now(t).nodes[w];
            && Confirming(c.machine, e.node, rd, since, Now(t').net) && p in n.role.progress
            && e.node.role.Leader?
            && e.node == Confirmed(n, p).(role := Confirmed(n, p).role.(queue := e.node.role.queue))
  {
    var n := Now(t).nodes[w];
    Echoed(c.machine, n, p);
    e := ExecutesOrWaits(c.machine, Confirmed(n, p), rd, since, Now(t).net);
    t' := Gets(c, t, k, e);
  }

  lemma HeardOne(c: Config, s: State, s': State, s1: State, w: NodeID, rd: Read, b: nat, i: nat, e: Effect)
    requires AllEcho(c, s1, w) && i < |s1.nodes[w].peers| && Hearing(c, s, s1, w, rd, b, i, i + 1)
    requires s1.nodes[w].peers[i] in s.nodes[w].role.progress && e.node.role.Leader?
    requires var p, n := s1.nodes[w].peers[i], s.nodes[w];
             && Between(s, s', p, w) && Became(s, s', w, e)
             && e.node == Confirmed(n, p).(role := Confirmed(n, p).role.(queue := e.node.role.queue))
    requires Confirming(c.machine, e.node, rd, |s1.net|, s'.net) && LinksWithin(s', w, |s1.net|)
    ensures Hearing(c, s', s1, w, rd, b, i + 1, i + 1)
  {
    var peers, p := s1.nodes[w].peers, s1.nodes[w].peers[i];
    assert forall j :: 0 <= j < |peers| && j != i ==> peers[j] != p && peers[j] != w;
    forall j: nat | j < i + 1 ensures HeardAt(s'.nodes[w], rd, j) {
      if j < i { assert HeardAt(s.nodes[w], rd, j); }
    }
    forall j: nat | i + 1 <= j ensures UnheardAt(s', s'.nodes[w], s1.nodes[w], b, j) {
      assert UnheardAt(s, s.nodes[w], s1.nodes[w], b, j);
      if j < |peers| {
        assert BeatAt(s, s1.nodes[w], b, j) && !Among(s.net[b + j], p, w);
      }
    }
  }

  lemma HearOne(c: Config, t: Trace, s1: State, w: NodeID, rd: Read, b: nat, i: nat) returns (t': Trace)
    requires Live(c, t) && Total(c.machine) && AllEcho(c, s1, w) && i < |s1.nodes[w].peers|
    requires Hearing(c, Now(t), s1, w, rd, b, i, i) && b + |s1.nodes[w].peers| <= |s1.net|
    ensures Live(c, t') && Extends(t, t') && Hearing(c, Now(t'), s1, w, rd, b, i + 1, i + 1)
  {
    var p, k := s1.nodes[w].peers[i], |Now(t).net|;
    assert UnheardAt(Now(t), Now(t).nodes[w], s1.nodes[w], b, i);
    var t1 := ReachOne(c, t, s1, w, rd, b, i);
    var e;
    t', e := CountsEcho(c, t1, w, p, rd, |s1.net|, k);
    LinksAfter(c, t1, t', w, k, |s1.net|);
    HeardOne(c, Now(t1), Now(t'), s1, w, rd, b, i, e);
  }

  lemma {:induction false} HearAll(c: Config, t: Trace, s1: State, w: NodeID, rd: Read, b: nat, i: nat)
    returns (t': Trace)
    requires Live(c, t) && Total(c.machine) && AllEcho(c, s1, w) && i <= |s1.nodes[w].peers|
    requires Hearing(c, Now(t), s1, w, rd, b, i, i) && b + |s1.nodes[w].peers| <= |s1.net|
    ensures Live(c, t') && Extends(t, t')
    ensures Hearing(c, Now(t'), s1, w, rd, b, |s1.nodes[w].peers|, |s1.nodes[w].peers|)
    decreases |s1.nodes[w].peers| - i
  {
    if i == |s1.nodes[w].peers| {
      t' := t;
    } else {
      var t1 := HearOne(c, t, s1, w, rd, b, i);
      t' := HearAll(c, t1, s1, w, rd, b, i + 1);
    }
  }

  lemma AskedEcho(c: Config, s: State, s1: State, w: NodeID, client: NodeID, id: RequestID, command: Command, b: nat)
    requires Asked(c, s, s1, w, client, id, command, b)
    ensures AllEcho(c, s1, w)
  {
    var peers := s1.nodes[w].peers;
    forall j | 0 <= j < |peers|
      ensures var p := peers[j];
              && p in c.members && p != w && s1.nodes[p].id == p
              && Complete(s1.nodes[p], s1.nodes[w]) && s1.nodes[p] == Informed(s1.nodes[p])
    {
      assert peers[j] in Elements(peers);
      assert w in Elements(s1.nodes[peers[j]].peers);
    }
  }

  lemma AskedConfirms(c: Config, s: State, s1: State, w: NodeID, client: NodeID, id: RequestID, command: Command,
                      b: nat)
    requires Asked(c, s, s1, w, client, id, command, b) && |c.members| > 1
    ensures Confirming(c.machine, s1.nodes[w], Read(s1.nodes[w].role.readSeq, client, id, command), |s1.net|, s1.net)
  {
    ClusterSize(c.members, s1.nodes[w]);
    NoneConfirmed(s1.nodes[w]);
  }

  lemma AskedHears(c: Config, t: Trace, s: State, w: NodeID, client: NodeID, id: RequestID, command: Command, b: nat)
    requires Live(c, t) && Asked(c, s, Now(t), w, client, id, command, b) && |c.members| > 1
    ensures Hearing(c, Now(t), Now(t), w, Read(Now(t).nodes[w].role.readSeq, client, id, command), b, 0, 0)
  {
    var s1 := Now(t);
    AskedConfirms(c, s, s1, w, client, id, command, b);
    LinksNow(c, t, w);
    forall j: nat | 0 <= j ensures UnheardAt(s1, s1.nodes[w], s1.nodes[w], b, j) {
      assert BeatAt(s1, s1.nodes[w], b, j);
      if j < |s1.nodes[w].peers| {
        assert s1.nodes[w].peers[j] in s1.nodes[w].peers;
      }
    }
  }

  // ---- The read is answered ----

  /** The leader has answered; its client's node has yet to pass the answer on. */
  ghost predicate ReadDoneAt(c: Config, s: State, s': State, w: NodeID, client: NodeID, id: RequestID,
                             command: Command, k: nat) {
    && Settled(c, s, w) && s'.nodes.Keys == c.members && c.members <= s'.up && s.net <= s'.net
    && s'.nodes[w].role.Leader? && Idle(s'.nodes[w])
    && s'.nodes[w] == s.nodes[w].(role := s'.nodes[w].role)
    && (forall p :: p in c.members && p != w ==>
          s'.nodes[p] == s.nodes[p].(role := Follower(Some(w), if p == client then [id] else [])))
    && |s.net| <= k < |s'.net| && Cursor(s', w, client) <= k
    && s'.net[k] == ReadAnswer(c.machine, s.nodes[w], w, Read(0, client, id, command))
  }

  lemma HeardDone(c: Config, s: State, s1: State, s': State, w: NodeID, client: NodeID, id: RequestID, command: Command,
                  b: nat) returns (k: nat)
    requires Asked(c, s, s1, w, client, id, command, b)
    requires Hearing(c, s', s1, w, Read(s1.nodes[w].role.readSeq, client, id, command), b, |s1.nodes[w].peers|,
                     |s1.nodes[w].peers|)
    ensures ReadDoneAt(c, s, s', w, client, id, command, k)
  {
    var rd, n := Read(s1.nodes[w].role.readSeq, client, id, command), s'.nodes[w];
    forall p | p in n.peers ensures n.role.progress[p].readSeq == rd.seqNo {
      var j :| 0 <= j < |n.peers| && n.peers[j] == p;
      assert HeardAt(n, rd, j);
    }
    AllConfirmed(c.machine, n, rd, |s1.net|, s'.net);
    k := Position(s'.net, |s1.net|, ReadAnswer(c.machine, n, w, rd));
    forall p | p in n.peers
      ensures var x := n.role.progress[p];
              x.last == |n.log.entries| && x.next == |n.log.entries| + 1 && x.readSeq <= n.role.readSeq
    {
      assert p in s.nodes[w].peers;
    }
  }

  lemma ReadAnswered(c: Config, t: Trace, w: NodeID, client: NodeID, id: RequestID, command: Command)
    returns (t': Trace, k: nat)
    requires Live(c, t) && Total(c.machine) && Settled(c, Now(t), w) && |c.members| > 1 && client in c.members
    ensures Live(c, t') && Extends(t, t') && ReadDoneAt(c, Now(t), Now(t'), w, client, id, command, k)
  {
    var t1, b := t, |Now(t).net|;
    if client == w {
      t1 := AsksOwn(c, t, w, id, command);
    } else {
      t1, b := AsksForwarded(c, t, w, client, id, command);
    }
    t', k := AskedAnswered(c, t1, Now(t), w, client, id, command, b);
  }

  lemma AskedAnswered(c: Config, t: Trace, s: State, w: NodeID, client: NodeID, id: RequestID, command: Command,
                      b: nat) returns (t': Trace, k: nat)
    requires Live(c, t) && Total(c.machine) && |c.members| > 1 && Asked(c, s, Now(t), w, client, id, command, b)
    ensures Live(c, t') && Extends(t, t') && ReadDoneAt(c, s, Now(t'), w, client, id, command, k)
  {
    var rd := Read(Now(t).nodes[w].role.readSeq, client, id, command);
    AskedEcho(c, s, Now(t), w, client, id, command, b);
    AskedHears(c, t, s, w, client, id, command, b);
    t' := HearAll(c, t, Now(t), w, rd, b, 0);
    k := HeardDone(c, s, Now(t), Now(t'), w, client, id, command, b);
  }

  lemma PassedOn(c: Config, s: State, s1: State, s': State, w: NodeID, client: NodeID, id: RequestID, command: Command,
                 k: nat)
    requires ReadDoneAt(c, s, s1, w, client, id, command, k) && client != w && client in c.members
    requires Became(s1, s', client,
                    Effect(s1.nodes[client].(role := Follower(Some(w), [])),
                           [ReadAnswer(c.machine, s.nodes[w], client, Read(0, client, id, command))], true))
    ensures Settled(c, s', w) && s'.nodes[w] == s1.nodes[w] && s.net <= s'.net
    ensures ReadAnswer(c.machine, s.nodes[w], client, Read(0, client, id, command)) in s'.net[|s.net|..]
  {
    assert s'.net[|s.net|..][|s1.net| - |s.net|] == s'.net[|s1.net|];
  }

  /** The client's node passes the answer on. */
  lemma PassesReadOn(c: Config, t: Trace, s: State, w: NodeID, client: NodeID, id: RequestID, command: Command, k: nat)
    returns (t': Trace)
    requires Live(c, t) && ReadDoneAt(c, s, Now(t), w, client, id, command, k) && client in c.members && client != w
    ensures Live(c, t') && Extends(t, t') && Settled(c, Now(t'), w) && Now(t').nodes[w] == Now(t).nodes[w]
    ensures s.net <= Now(t').net
    ensures ReadAnswer(c.machine, s.nodes[w], client, Read(0, client, id, command)) in Now(t').net[|s.net|..]
  {
    var s1 := Now(t);
    var n, o := s1.nodes[client], s1.net[k];
    assert w in Elements(n.peers);
    Relays(c.machine, n, w, id, o.message.response);
    t' := Gets(c, t, k, Effect(n.(role := Follower(Some(w), [])),
                               [Envelope(client, client, n.term, ClientResponse(id, o.message.response))], true));
    PassedOn(c, s, s1, Now(t'), w, client, id, command, k);
  }

  lemma AnsweredHere(c: Config, s: State, s1: State, w: NodeID, id: RequestID, command: Command, k: nat)
    requires ReadDoneAt(c, s, s1, w, w, id, command, k)
    ensures Settled(c, s1, w)
    ensures ReadAnswer(c.machine, s.nodes[w], w, Read(0, w, id, command)) in s1.net[|s.net|..]
  {
    assert s1.net[|s.net|..][k - |s.net|] == s1.net[k];
  }

  /** A read was answered at the client's node, from the log that all have applied. */
  ghost predicate ReadOne(c: Config, s: State, s': State, w: NodeID, client: NodeID, id: RequestID, command: Command) {
    && w in s.nodes && w in s'.nodes && s.net <= s'.net && s'.nodes[w].log == s.nodes[w].log
    && var read := c.machine.read(s.nodes[w].log.entries, command);
       Envelope(client, client, s.nodes[w].term, ClientResponse(id, ReadDone(read))) in s'.net[|s.net|..]
  }

  /** A settled cluster can answer a read at any node, from the log that all have applied, and
      is settled again. */
  lemma CanRead(c: Config, t: Trace, w: NodeID, client: NodeID, id: RequestID, command: Command) returns (t': Trace)
    requires Live(c, t) && Total(c.machine) && Settled(c, Now(t), w) && |c.members| > 1 && client in c.members
    ensures Live(c, t') && Extends(t, t') && Settled(c, Now(t'), w)
    ensures ReadOne(c, Now(t), Now(t'), w, client, id, command)
  {
    var t1, k := ReadAnswered(c, t, w, client, id, command);
    if client == w {
      t' := t1;
      AnsweredHere(c, Now(t), Now(t1), w, id, command, k);
    } else {
      t' := PassesReadOn(c, t1, Now(t), w, client, id, command, k);
    }
  }
}
