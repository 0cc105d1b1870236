/** Why fresh reads need a commit in the leader's own term: an in-order run in which a new
    leader answers a read from before a write that was answered before the read came. */
module RaftStale {
  import opened Basics
  import opened RaftTypes
  import opened RaftNode
  import opened RaftQuorum
  import opened RaftCluster
  import opened RaftPair
  import RaftReads
  import RaftFresh

  const E3 := Entry(3, 2, None)

  // ---- The two nodes in the second term ----

  function Challenging(): Node {
    Node(1, [0], 2, Some(1), Log([E1, E2], 0, 0), [], Candidate({1}))
  }

  function Deposed(leader: Option<NodeID>): Node {
    Node(0, [1], 2, Some(1), Log([E1, E2], 2, 1), [E1, E2], Follower(leader, []))
  }

  function Succeeding(queue: seq<Read>, readSeq: nat, echoed: nat): Node {
    Node(1, [0], 2, Some(1), Log([E1, E2, E3], 0, 0), [],
         Leader(map[0 := Progress(3, 0, echoed)], map[], queue, readSeq))
  }

  function From1(message: Message): Envelope { Envelope(1, 0, 2, message) }
  function From0(message: Message): Envelope { Envelope(0, 1, 2, message) }

  lemma Challenges(m: Machine)
    ensures Handle(m, Following([E1, E2], 0, []), Fire) == Effect(Challenging(), [From1(Campaign(2, 1))], true)
  {
    var n := Following([E1, E2], 0, []);
    assert MaybeApply(m, n) == (n, true);
    assert Aborts(n, []) == [];
    assert Broadcast(Challenging(), Campaign(2, 1)) == [From1(Campaign(2, 1))];
  }

  lemma Yields(m: Machine)
    ensures Handle(m, Leading([E1, E2], Progress(3, 2, 0), map[], 2, [E1, E2]), Receive(From1(Campaign(2, 1))))
            == Effect(Deposed(None), [From0(CampaignResponse(true))], true)
  {
    var n := Leading([E1, E2], Progress(3, 2, 0), map[], 2, [E1, E2]);
    assert WritesUpTo(map[], 2) == WritesUpTo(map[], 1) == WritesUpTo(map[], 0) == [];
    assert LeaderAborts(n) == [];
  }

  lemma Succeeds(m: Machine)
    ensures Handle(m, Challenging(), Receive(From0(CampaignResponse(true))))
            == Effect(Succeeding([], 0, 0), [From1(Heartbeat(0, 0, 0)), From1(Append(2, 1, [E3]))], true)
  {
    var n := Challenging().(role := Candidate({1} + {0}));
    assert {1} + {0} == {0, 1};
    assert (map p | p in [0] :: Progress(3, 0, 0)) == map[0 := Progress(3, 0, 0)];
    var led := n.(role := Leader(map[0 := Progress(3, 0, 0)], map[], [], 0));
    assert Heartbeats(led) == [From1(Heartbeat(0, 0, 0))];
    assert [E1, E2] + [E3] == [E1, E2, E3];
    assert [E1, E2, E3][2..] == [E3];
    assert CanSend(Succeeding([], 0, 0), 0) && SendLog(Succeeding([], 0, 0), 0) == From1(Append(2, 1, [E3]));
    assert forall p :: p in led.peers ==> p == 0;
    assert IntoLeader(n) == Emit(Propose(led, None), Heartbeats(led));
  }

  function Pending(command: Command): Read {
    Read(1, 1, [], command)
  }

  lemma Asks(m: Machine, command: Command)
    ensures Handle(m, Succeeding([], 0, 0), Receive(Envelope(1, 1, 2, ClientRequest([], ReadRequest(command)))))
            == Effect(Succeeding([Pending(command)], 1, 0), [From1(Heartbeat(0, 0, 1))], true)
  {
    var n' := Succeeding([Pending(command)], 1, 0);
    assert [] + [Pending(command)] == [Pending(command)];
    assert Heartbeats(n') == [From1(Heartbeat(0, 0, 1))];
  }

  lemma Echoes(m: Machine)
    ensures Handle(m, Deposed(None), Receive(From1(Heartbeat(0, 0, 1))))
            == Effect(Deposed(Some(1)), [From0(HeartbeatResponse(2, 1, 1))], true)
  {
    assert Aborts(Deposed(None), []) == [];
  }

  /** Node 0's answer to the write, before. */
  function Written(m: Machine): Envelope
    requires Total(m)
  {
    Envelope(0, 0, 1, ClientResponse([], WriteDone(m.apply([E1], E2).outcome)))
  }

  /** The answer, read from the empty state machine. */
  function Unwritten(m: Machine, command: Command): Envelope {
    Envelope(1, 1, 2, ClientResponse([], ReadDone(m.read([], command))))
  }

  /** Node 1 executes the read: it has committed and applied nothing yet. */
  lemma Executes(m: Machine, command: Command)
    ensures Handle(m, Succeeding([Pending(command)], 1, 0), Receive(From0(HeartbeatResponse(2, 1, 1))))
            == Effect(Succeeding([], 1, 1), [Unwritten(m, command), From1(Append(2, 1, [E3]))], true)
  {
    var n, n' := Succeeding([Pending(command)], 1, 1), Succeeding([], 1, 1);
    assert map[0 := Progress(3, 0, 0)][0 := Progress(3, 0, 1)] == map[0 := Progress(3, 0, 1)];
    assert ReadSeqs(n) == [1, 1];
    QuorumValueMeaning([1, 1]);
    assert ReadyCount(n.role.queue, 1) == 1;
    assert MaybeRead(m, n) == Effect(n', [Unwritten(m, command)], true);
    assert [E1, E2, E3][2..] == [E3];
    assert CanSend(n', 0) && SendLog(n', 0) == From1(Append(2, 1, [E3]));
  }

  // ---- The run ----

  /** Node 1 campaigns after node 0 committed, and node 0 votes for it. */
  lemma Deposition(m: Machine) returns (ss: seq<State>, acts: seq<Action>, x: Scene)
    requires Total(m)
    ensures RunTo(m, ss, acts, x) && x == Scene(Deposed(None), Challenging(), x.net, 8)
    ensures |x.net| == 9 && x.net[6] == Written(m) && x.net[8] == From0(CampaignResponse(true))
  {
    var answer;
    ss, acts, x, answer := Commit(m);
    Challenges(m);
    ss, acts, x := Continue(m, ss, acts, x, Expire(1), Challenging(), [From1(Campaign(2, 1))]);
    Yields(m);
    ss, acts, x := Continue(m, ss, acts, x, Deliver(7), Deposed(None), [From0(CampaignResponse(true))]);
  }

  /** Node 1 leads. */
  lemma Succession(m: Machine) returns (ss: seq<State>, acts: seq<Action>, x: Scene)
    requires Total(m)
    ensures RunTo(m, ss, acts, x) && x == Scene(Deposed(None), Succeeding([], 0, 0), x.net, 9)
    ensures |x.net| == 11 && x.net[6] == Written(m)
  {
    ss, acts, x := Deposition(m);
    Succeeds(m);
    ss, acts, x := Continue(m, ss, acts, x, Deliver(8), Succeeding([], 0, 0),
                            [From1(Heartbeat(0, 0, 0)), From1(Append(2, 1, [E3]))]);
  }

  /** Node 1 takes the read, and node 0 confirms it. */
  lemma Confirmation(m: Machine, command: Command, ss0: seq<State>, acts0: seq<Action>, x0: Scene)
    returns (ss: seq<State>, acts: seq<Action>, x: Scene)
    requires RunTo(m, ss0, acts0, x0) && x0 == Scene(Deposed(None), Succeeding([], 0, 0), x0.net, 9) && |x0.net| == 11
    ensures RunTo(m, ss, acts, x) && ss0 < ss && |acts| == |acts0| + 2
    ensures x == Scene(Deposed(Some(1)), Succeeding([Pending(command)], 1, 0), x.net, 12)
    ensures |x.net| == 13 && x.net[12] == From0(HeartbeatResponse(2, 1, 1))
    ensures var s := ss[|acts0| + 1]; 1 in s.nodes && s.nodes[1] == Succeeding([Pending(command)], 1, 0)
  {
    Asks(m, command);
    var ss1, acts1, x1 := Continue(m, ss0, acts0, x0, Submit(1, [], ReadRequest(command)),
                                   Succeeding([Pending(command)], 1, 0), [From1(Heartbeat(0, 0, 1))]);
    Echoes(m);
    ss, acts, x := Continue(m, ss1, acts1, x1, Deliver(11), Deposed(Some(1)), [From0(HeartbeatResponse(2, 1, 1))]);
    assert ss[|acts1|] == ss1[|acts1|];
  }

  /** In an in-order run, a leader accepts a read after a write was applied and answered,
      and answers it from a state without the write: it has committed nothing in its term. */
  lemma StaleRead(m: Machine, command: Command)
    returns (ss: seq<State>, acts: seq<Action>, j: nat, j': nat, rd: Read)
    requires Total(m)
    ensures Run(Cluster(m), true, ss, acts) && RaftReads.Served(ss, acts, j, j', 1, rd) && rd.command == command
    ensures 0 in ss[j].nodes && E2 in ss[j].nodes[0].applied && Written(m) in ss[j].net
    ensures ss[j'].nodes[1].applied == [] && ss[j'].nodes[1].log.commitTerm != ss[j'].nodes[1].term
    ensures RaftFresh.Answer(m, ss[j'].nodes[1], rd) in ss[j' + 1].net
  {
    var ss0, acts0, x0 := Succession(m);
    var ss1, acts1, x1 := Confirmation(m, command, ss0, acts0, x0);
    j, j', rd := |acts0|, |acts1|, Pending(command);
    Executes(m, command);
    var x;
    ss, acts, x := Continue(m, ss1, acts1, x1, Deliver(12), Succeeding([], 1, 1),
                            [Unwritten(m, command), From1(Append(2, 1, [E3]))]);
    assert ss[j] == ss0[j] && ss[j + 1] == ss1[j + 1] && ss[j'] == ss1[j'];
    assert x.net[13] == Unwritten(m, command);
  }
}
