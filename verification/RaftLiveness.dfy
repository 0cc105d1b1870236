/** The cluster is never stuck: from every state of a run over in-order links, whatever was
    lost and whoever crashed, it can go on to answer a write and a read at any node. */
module RaftLiveness {
  import opened Basics
  import opened RaftTypes
  import opened RaftNode
  import opened RaftQuorum
  import opened RaftCluster
  import opened RaftElection
  import opened RaftTrace
  import opened RaftRecovery
  import opened RaftProgress
  import opened RaftNeverStuck
  import opened RaftAnswersRead

  lemma {:induction false} NetGrows(c: Config, t: Trace, j: nat, j': nat)
    requires Live(c, t) && j <= j' < |t.ss|
    ensures t.ss[j].net <= t.ss[j'].net
    decreases j' - j
  {
    if j < j' {
      NetGrows(c, t, j, j' - 1);
      assert StepAt(c, true, t.ss, t.acts, j' - 1);
    }
  }

  lemma NetExtends(c: Config, t: Trace, t': Trace)
    requires Live(c, t) && Live(c, t') && Extends(t, t')
    ensures Now(t).net <= Now(t').net
  {
    NetGrows(c, t', |t.ss| - 1, |t'.ss| - 1);
  }

  // ---- A lone node ----

  lemma OnlyMember(c: Config, n: Node)
    requires PeersOk(c.members, n) && |c.members| <= 1
    ensures n.peers == [] && c.members == {n.id}
  {
    ClusterSize(c.members, n);
    assert Elements(n.peers) == {};
  }

  /** A lone node that boots elects itself. */
  lemma LoneBoots(m: Machine, n: Node) returns (n': Node)
    requires Total(m) && Sound(n) && n.peers == []
    ensures Boot(m, n, |n.applied|) == Effect(n', [], true)
    ensures n'.id == n.id && n'.peers == [] && TracksPeers(n') && n'.role.writes == map[] && n'.role.queue == []
    ensures Sound(n') && n'.log.entries != [] && LastTerm(n'.log.entries) == n'.term
    ensures n'.log.commitIndex < |n'.log.entries|
  {
    assert n.applied[..|n.applied|] == n.applied;
    TotalApplies(m, n.log.entries, n.applied, Applicable(n.log));
    var n1 := Timeout(m, Rebooted(n)).node;
    assert Aborts(Rebooted(n), []) == [];
    Wins(n1);
    n' := Won(n1);
  }

  /** The leader of nobody else, with all of its log in hand. */
  ghost predicate Alone(n: Node) {
    && n.peers == [] && TracksPeers(n) && n.role.writes == map[] && n.role.queue == [] && Sound(n)
    && n.log.entries != [] && LastTerm(n.log.entries) == n.term
  }

  /** A lone leader commits, applies and answers a write at once. */
  lemma LoneWrites(m: Machine, n: Node, id: RequestID, command: Command) returns (e: Effect)
    requires Total(m) && Alone(n)
    ensures e == LeaderRequest(m, n, n.id, id, WriteRequest(command)) && e.ok
    ensures e.node.id == n.id && e.node.peers == [] && e.node.term == n.term && e.node.role.Leader? && Idle(e.node)
    ensures e.node.log.entries == n.log.entries + [Entry(|n.log.entries| + 1, n.term, Some(command))]
    ensures e.out == [AnswerOf(m, n.id, n.term, Write(n.id, id), e.node.log.entries)]
  {
    var p := Propose(n, Some(command));
    var log := n.log.entries + [Entry(|n.log.entries| + 1, n.term, Some(command))];
    assert p.ok && p.out == [] && p.node == n.(log := n.log.(entries := log));
    var n1 := p.node.(role := p.node.role.(writes := p.node.role.writes[|log| := Write(n.id, id)]));
    assert n1.role.writes == map[|log| := Write(n.id, id)];
    assert LastIndexes(n1) == [|log|];
    QuorumValueMeaning(LastIndexes(n1));
    e := CommitsLast(m, n1, log, 0, Some(Want(Write(n.id, id), 0)));
    assert e == MaybeCommitAndApply(m, n1);
    assert [] + e.out == e.out;
  }

  lemma LoneSettled(c: Config, s: State, w: NodeID)
    requires c.members == {w} && s.nodes.Keys == c.members && w in s.up && s.nodes[w].id == w
    requires PeersOk(c.members, s.nodes[w]) && s.nodes[w].role.Leader? && Idle(s.nodes[w])
    ensures Settled(c, s, w)
  {
  }

  /** From every state, a lone node can go on to answer a write. */
  lemma LoneCanWrite(c: Config, t: Trace, w: NodeID, id: RequestID, command: Command) returns (t': Trace)
    requires Live(c, t) && Total(c.machine) && |c.members| <= 1 && w in c.members
    ensures Live(c, t') && Extends(t, t') && Settled(c, Now(t'), w) && Now(t').nodes[w].log.entries != []
    ensures Wrote(c, t, t', w, w, id, command)
  {
    Knows(c, t);
    OnlyMember(c, Now(t).nodes[w]);
    IsSound(c, t, w);
    var n1 := LoneBoots(c.machine, Now(t).nodes[w]);
    var t1 := Do(c, t, Reboot(w, |Now(t).nodes[w].applied|));
    assert Now(t1).nodes[w] == n1 && Now(t1).net == Now(t).net;
    t' := LoneSubmits(c, t1, w, id, command);
  }

  /** The last entry of the leader's log is the client's command, and its node has told it the
      outcome since. */
  ghost predicate Wrote(c: Config, t: Trace, t': Trace, w: NodeID, client: NodeID, id: RequestID, command: Command)
    requires Total(c.machine) && t.ss != [] && t'.ss != []
  {
    && w in Now(t').nodes && Now(t').nodes[w].log.entries != [] && Now(t).net <= Now(t').net
    && var n := Now(t').nodes[w];
       && n.log.entries[|n.log.entries| - 1] == Entry(|n.log.entries|, n.term, Some(command))
       && AnswerOf(c.machine, client, n.term, Write(client, id), n.log.entries) in Now(t').net[|Now(t).net|..]
  }

  lemma LoneSubmits(c: Config, t: Trace, w: NodeID, id: RequestID, command: Command) returns (t': Trace)
    requires Live(c, t) && Total(c.machine) && c.members == {w} && w in Now(t).nodes && w in Now(t).up
    requires Alone(Now(t).nodes[w])
    ensures Live(c, t') && Extends(t, t') && Settled(c, Now(t'), w) && Wrote(c, t, t', w, w, id, command)
  {
    Knows(c, t);
    var s, n := Now(t), Now(t).nodes[w];
    var e := LoneWrites(c.machine, n, id, command);
    Takes(c.machine, n, w, id, WriteRequest(command));
    t' := Acts(c, t, Submit(w, id, WriteRequest(command)), e);
    Knows(c, t');
    LoneSettled(c, Now(t'), w);
    assert Now(t').net[|s.net|..] == e.out;
  }

  // ---- Any cluster ----

  /** From every state of a run over in-order links there is a continuation in which a write,
      submitted at any node, is committed and applied by all nodes and answered at its node.
      All nodes then run, and have the same log and nothing left to do. */
  lemma NeverStuck(c: Config, t: Trace, client: NodeID, id: RequestID, command: Command) returns (t': Trace, w: NodeID)
    requires Live(c, t) && Total(c.machine) && client in c.members
    ensures Live(c, t') && Extends(t, t') && Settled(c, Now(t'), w) && Wrote(c, t, t', w, client, id, command)
  {
    if |c.members| > 1 {
      var t1;
      t1, w := CanSettle(c, t);
      NetExtends(c, t, t1);
      t' := CanWrite(c, t1, w, client, id, command);
      var a := AnswerOf(c.machine, client, Now(t').nodes[w].term, Write(client, id), Now(t').nodes[w].log.entries);
      assert a in Now(t').net[|Now(t).net|..] by {
        var k := Position(Now(t').net, |Now(t1).net|, a);
        assert Now(t').net[|Now(t).net|..][k - |Now(t).net|] == a;
      }
    } else {
      w := client;
      t' := LoneCanWrite(c, t, w, id, command);
    }
  }

  lemma LoneReads(m: Machine, n: Node, id: RequestID, command: Command) returns (e: Effect)
    requires Idle(n) && n.peers == []
    ensures e == LeaderRequest(m, n, n.id, id, ReadRequest(command)) && e.ok && e.node.role.Leader? && Idle(e.node)
    ensures e.node == n.(role := e.node.role)
    ensures e.out == [Envelope(n.id, n.id, n.term, ClientResponse(id, ReadDone(m.read(n.log.entries, command))))]
  {
    var n' := Reading(n, n.id, id, command);
    var rd, answer := n'.role.queue[0], ReadAnswer(m, n, n.id, n'.role.queue[0]);
    assert n.role.queue + [rd] == n'.role.queue;
    assert ReadSeqs(n') == [rd.seqNo];
    QuorumValueMeaning(ReadSeqs(n'));
    assert ReadyCount([rd], rd.seqNo) == 1 + ReadyCount([], rd.seqNo);
    var r := Effect(n'.(role := n'.role.(queue := [])), [answer], true);
    assert MaybeRead(m, n') == r;
    e := r;
    assert r.out + Heartbeats(r.node) == r.out;
  }

  lemma LoneCanRead(c: Config, t: Trace, w: NodeID, id: RequestID, command: Command) returns (t': Trace)
    requires Live(c, t) && Settled(c, Now(t), w) && |c.members| <= 1
    ensures Live(c, t') && Extends(t, t') && Settled(c, Now(t'), w) && ReadOne(c, Now(t), Now(t'), w, w, id, command)
  {
    var s, n := Now(t), Now(t).nodes[w];
    OnlyMember(c, n);
    var e := LoneReads(c.machine, n, id, command);
    Takes(c.machine, n, w, id, ReadRequest(command));
    t' := Acts(c, t, Submit(w, id, ReadRequest(command)), e);
    Knows(c, t');
    LoneSettled(c, Now(t'), w);
    assert Now(t').net[|s.net|..] == e.out;
  }

  /** Once settled, the cluster can answer a read at any node, from the log that every node has
      applied. */
  lemma ReadsAnywhere(c: Config, t: Trace, w: NodeID, client: NodeID, id: RequestID, command: Command)
    returns (t': Trace)
    requires Live(c, t) && Total(c.machine) && Settled(c, Now(t), w) && client in c.members
    ensures Live(c, t') && Extends(t, t') && Settled(c, Now(t'), w)
    ensures ReadOne(c, Now(t), Now(t'), w, client, id, command)
  {
    if |c.members| > 1 {
      t' := CanRead(c, t, w, client, id, command);
    } else {
      OnlyMember(c, Now(t).nodes[w]);
      t' := LoneCanRead(c, t, w, id, command);
    }
  }
}
