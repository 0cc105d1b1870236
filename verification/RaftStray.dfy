/** Why nodes halt: an in-order run in which a leader restarts, is still in its term, and
    gets the answer to a heartbeat that it sent before. */
module RaftStray {
  import opened Basics
  import opened RaftTypes
  import opened RaftNode
  import opened RaftCluster
  import opened RaftPair
  import opened RaftHalts

  const ECHO := To0(HeartbeatResponse(0, 0, 0))

  lemma Hears(m: Machine)
    ensures Handle(m, Voted(), Receive(To1(Heartbeat(0, 0, 0)))) == Effect(Following([], 0, []), [ECHO], true)
  {
    assert Aborts(Voted(), []) == [];
  }

  /** Node 0 after its restart. */
  function Restarted(): Node {
    Node(0, [1], 1, Some(0), Log([E1], 0, 0), [], Follower(None, []))
  }

  /** Node 0 leads, and node 1 has answered its heartbeat. */
  lemma Answered(m: Machine) returns (ss: seq<State>, acts: seq<Action>, x: Scene)
    ensures RunTo(m, ss, acts, x) && |x.net| == 5 && x.net[4] == ECHO && x.seen == 3
    ensures x.n0 == Leading([E1], Progress(1, 0, 0), map[], 0, [])
  {
    ss, acts, x := Elects(m);
    Hears(m);
    ss, acts, x := Continue(m, ss, acts, x, Deliver(2), Following([], 0, []), [ECHO]);
  }

  /** A restarted leader halts. */
  lemma RestartedHalts(m: Machine) returns (ss: seq<State>, acts: seq<Action>)
    ensures Run(Cluster(m), true, ss, acts) && |acts| >= 1
    ensures ss[|acts| - 1].up == {0, 1} && ss[|acts|].up == {1}
  {
    var x: Scene;
    ss, acts, x := Answered(m);
    var c, s := Cluster(m), ss[|acts|];
    var s1 := After(c, s, Reboot(0, 0));
    Extend(c, true, ss, acts, Reboot(0, 0), s1);
    ss, acts := ss + [s1], acts + [Reboot(0, 0)];
    assert s1.nodes[0] == Restarted() && s1.up == {0, 1} && s1.net == x.net;
    assert Cursor(s1, 1, 0) == Cursor(s, 1, 0);
    var s2 := After(c, s1, Deliver(4));
    StrayHalts(m, Restarted(), Receive(ECHO));
    Extend(c, true, ss, acts, Deliver(4), s2);
    ss, acts := ss + [s2], acts + [Deliver(4)];
  }
}
