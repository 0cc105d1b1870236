/** Why the commit theorems need links that deliver in order: a run in which an Append
    that is overtaken by a later one cuts a committed entry off. */
module RaftDelayed {
  import opened RaftTypes
  import opened RaftNode
  import opened RaftCluster
  import opened RaftPair
  import RaftCommit

  lemma Beats(m: Machine)
    ensures Handle(m, Leading([E1, E2], Progress(3, 2, 0), map[], 2, [E1, E2]), Fire)
            == Effect(Leading([E1, E2], Progress(3, 2, 0), map[], 2, [E1, E2]), [To1(Heartbeat(2, 1, 0))], true)
  {
    assert Heartbeats(Leading([E1, E2], Progress(3, 2, 0), map[], 2, [E1, E2])) == [To1(Heartbeat(2, 1, 0))];
  }

  lemma Learns(m: Machine)
    requires Total(m)
    ensures Handle(m, Following([E1, E2], 0, []), Receive(To1(Heartbeat(2, 1, 0))))
            == Effect(Following([E1, E2], 2, [E1, E2]), [To0(HeartbeatResponse(2, 1, 0))], true)
  {
    AppliesBoth(m, [E1, E2]);
    var out := [] + [To0(HeartbeatResponse(2, 1, 0))];
    assert out == [To0(HeartbeatResponse(2, 1, 0))];
  }

  /** The first Append, late: all it carries matches, and the rest is cut. */
  lemma Cuts(m: Machine)
    ensures Handle(m, Following([E1, E2], 2, [E1, E2]), Receive(To1(Append(0, 0, [E1]))))
            == Effect(Following([E1], 2, [E1, E2]), [To0(AppendResponse(false, 1, 1))], true)
  {
    var es, log := [E1], [E1, E2];
    assert ContiguousAt(es, 0);
    assert Matched(log, 1, es, 1) == 1;
    assert Matched(log, 1, es, 0) == 1;
    assert log[..1] + es[1..] == [E1];
    var out := [] + [To0(AppendResponse(false, 1, 1))];
    assert out == [To0(AppendResponse(false, 1, 1))];
  }

  /** In a run with one message out of order, a node loses an entry that it had committed
      and applied. So committed entries are not forever on links that reorder. */
  lemma DelayedAppendCutsCommitted(m: Machine) returns (ss: seq<State>, acts: seq<Action>, j: nat)
    requires Total(m)
    ensures Run(Cluster(m), false, ss, acts) && j + 1 == |acts| && Run(Cluster(m), true, ss[..|acts|], acts[..j])
    ensures 1 in ss[j].nodes && 1 in ss[j + 1].nodes && E2 in ss[j].nodes[1].applied
    ensures !RaftCommit.CommitExtends(ss[j].nodes[1], ss[j + 1].nodes[1])
  {
    var x, answer;
    ss, acts, x, answer := Commit(m);
    Beats(m);
    ss, acts, x := Continue(m, ss, acts, x, Expire(0), x.n0, [To1(Heartbeat(2, 1, 0))]);
    Learns(m);
    var n := Following([E1, E2], 2, [E1, E2]);
    ss, acts, x := Continue(m, ss, acts, x, Deliver(7), n, [To0(HeartbeatResponse(2, 1, 0))]);
    j := |acts|;
    InOrderIsAny(Cluster(m), ss, acts);
    Cuts(m);
    var s' := After(Cluster(m), ss[j], Deliver(3));
    Extend(Cluster(m), false, ss, acts, Deliver(3), s');
    var ss', acts' := ss + [s'], acts + [Deliver(3)];
    assert ss'[..|acts'|] == ss && acts'[..j] == acts;
    ss, acts := ss', acts';
    assert |n.log.entries[..2]| == 2;
  }
}
