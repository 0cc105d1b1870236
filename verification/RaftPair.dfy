/** Runs of a cluster of two nodes, action by action, with links that deliver in order:
    node 0 is elected, and commits a write that node 1 has stored. */
module RaftPair {
  import opened Basics
  import opened RaftTypes
  import opened RaftNode
  import opened RaftQuorum
  import opened RaftCluster

  const E1 := Entry(1, 1, None)
  const E2 := Entry(2, 1, Some([]))
  const WRITE := Write(0, [])

  // ---- The two nodes, step by step ----

  function Fresh(id: NodeID, peer: NodeID): Node {
    Node(id, [peer], 0, None, Log([], 0, 0), [], Follower(None, []))
  }

  function Campaigning(): Node {
    Node(0, [1], 1, Some(0), Log([], 0, 0), [], Candidate({0}))
  }

  function Voted(): Node {
    Node(1, [0], 1, Some(0), Log([], 0, 0), [], Follower(None, []))
  }

  function Leading(entries: seq<Entry>, p: Progress, writes: map<Index, Write>, commit: nat,
                   applied: seq<Entry>): Node {
    Node(0, [1], 1, Some(0), Log(entries, commit, if commit == 0 then 0 else 1), applied,
         Leader(map[1 := p], writes, [], 0))
  }

  function Following(entries: seq<Entry>, commit: nat, applied: seq<Entry>): Node {
    Node(1, [0], 1, Some(0), Log(entries, commit, if commit == 0 then 0 else 1), applied, Follower(Some(0), []))
  }

  // ---- The messages, in the order they are sent ----

  function To1(message: Message): Envelope { Envelope(0, 1, 1, message) }
  function To0(message: Message): Envelope { Envelope(1, 0, 1, message) }

  lemma Boots(m: Machine, n: Node)
    requires n == Fresh(0, 1) || n == Fresh(1, 0)
    ensures Handle(m, n, Restart(0)) == Effect(n, [], true)
  {
  }

  lemma Campaigns(m: Machine)
    ensures Handle(m, Fresh(0, 1), Fire) == Effect(Campaigning(), [To1(Campaign(0, 0))], true)
  {
    var n := Fresh(0, 1);
    assert MaybeApply(m, n) == (n, true);
    assert Aborts(n, []) == [];
    assert Broadcast(Campaigning(), Campaign(0, 0)) == [To1(Campaign(0, 0))];
  }

  lemma Votes(m: Machine)
    ensures Handle(m, Fresh(1, 0), Receive(To1(Campaign(0, 0)))) == Effect(Voted(), [To0(CampaignResponse(true))], true)
  {
    assert LeavingTerm(Fresh(1, 0)) == [];
  }

  lemma Wins(m: Machine)
    ensures Handle(m, Campaigning(), Receive(To0(CampaignResponse(true))))
            == Effect(Leading([E1], Progress(1, 0, 0), map[], 0, []),
                      [To1(Heartbeat(0, 0, 0)), To1(Append(0, 0, [E1]))], true)
  {
    var n := Campaigning().(role := Candidate({0} + {1}));
    assert {0} + {1} == {0, 1};
    var led := n.(role := Leader(map[1 := Progress(1, 0, 0)], map[], [], 0));
    assert (map p | p in [1] :: Progress(1, 0, 0)) == map[1 := Progress(1, 0, 0)];
    assert Heartbeats(led) == [To1(Heartbeat(0, 0, 0))];
    Proposes(led, [], None, E1);
    assert IntoLeader(n) == Emit(Propose(led, None), Heartbeats(led));
  }

  lemma Proposes(n: Node, entries: seq<Entry>, command: Option<Command>, x: Entry)
    requires n == Leading(entries, Progress(1, 0, 0), map[], 0, []) && x == Entry(|entries| + 1, 1, command)
    ensures Propose(n, command)
            == Effect(Leading(entries + [x], Progress(1, 0, 0), map[], 0, []), [To1(Append(0, 0, entries + [x]))], true)
  {
    var n' := Leading(entries + [x], Progress(1, 0, 0), map[], 0, []);
    assert n'.log.entries[0..] == entries + [x];
    assert CanSend(n', 1) && SendLog(n', 1) == To1(Append(0, 0, entries + [x]));
    assert forall p :: p in n.peers ==> p == 1;
  }

  function Asked(): Envelope { Envelope(0, 0, 1, ClientRequest([], WriteRequest([]))) }

  lemma Writes(m: Machine)
    ensures Handle(m, Leading([E1], Progress(1, 0, 0), map[], 0, []), Receive(Asked()))
            == Effect(Leading([E1, E2], Progress(1, 0, 0), map[2 := WRITE], 0, []), [To1(Append(0, 0, [E1, E2]))], true)
  {
    Proposes(Leading([E1], Progress(1, 0, 0), map[], 0, []), [E1], Some([]), E2);
    assert [E1] + [E2] == [E1, E2];
    assert map[][2 := WRITE] == map[2 := WRITE];
  }

  lemma Appends(m: Machine)
    ensures Handle(m, Voted(), Receive(To1(Append(0, 0, [E1, E2]))))
            == Effect(Following([E1, E2], 0, []), [To0(AppendResponse(false, 2, 1))], true)
  {
    var es := [E1, E2];
    assert ContiguousAt(es, 0) && ContiguousAt(es, 1);
    assert Matched([], 1, es, 0) == 0;
    assert [][..0] + es[0..] == es;
    assert Aborts(Voted(), []) == [];
  }

  lemma Commits(m: Machine) returns (answer: Envelope)
    requires Total(m)
    ensures Handle(m, Leading([E1, E2], Progress(1, 0, 0), map[2 := WRITE], 0, []),
                   Receive(To0(AppendResponse(false, 2, 1))))
            == Effect(Leading([E1, E2], Progress(3, 2, 0), map[], 2, [E1, E2]), [answer], true)
    ensures answer == Envelope(0, 0, 1, ClientResponse([], WriteDone(m.apply([E1], E2).outcome)))
  {
    var n := Leading([E1, E2], Progress(3, 2, 0), map[2 := WRITE], 0, []);
    assert map[1 := Progress(1, 0, 0)][1 := Progress(3, 2, 0)] == map[1 := Progress(3, 2, 0)];
    assert LastIndexes(n) == [2, 2];
    QuorumValueMeaning([2, 2]);
    answer := CommitsTo(m, n);
  }

  lemma CommitsTo(m: Machine, n: Node) returns (answer: Envelope)
    requires Total(m) && n == Leading([E1, E2], Progress(3, 2, 0), map[2 := WRITE], 0, [])
    ensures CommitTo(m, n, 2) == Effect(Leading([E1, E2], Progress(3, 2, 0), map[], 2, [E1, E2]), [answer], true)
    ensures answer == Envelope(0, 0, 1, ClientResponse([], WriteDone(m.apply([E1], E2).outcome)))
  {
    AppliesBoth(m, [E1, E2]);
    var all := [E1, E2];
    assert Replies(m, 0, 1, map[2 := WRITE], all, 2) == [];
    assert all[..1] == [E1];
    answer := Envelope(0, 0, 1, ClientResponse([], WriteDone(m.apply([E1], E2).outcome)));
    assert Replies(m, 0, 1, map[2 := WRITE], all, 1) == [answer] + [];
    assert Replies(m, 0, 1, map[2 := WRITE], all, 0) == [answer];
    assert (map i | i in map[2 := WRITE] && !(0 < i <= 2) :: map[2 := WRITE][i]) == map[];
  }

  lemma AppliesBoth(m: Machine, es: seq<Entry>)
    requires Total(m) && es == [E1, E2]
    ensures ApplyUpTo(m, es, [], 2) == (es, true)
  {
    assert [] + [E1] == [E1] && [E1] + [E2] == es;
    assert m.apply([], E1).Reply? && m.apply([E1], E2).Reply?;
    assert ApplyUpTo(m, es, es, 2) == (es, true);
    assert ApplyUpTo(m, es, [E1], 2) == (es, true);
  }

  // ---- The cluster ----

  function Cluster(m: Machine): Config {
    Config({0, 1}, m)
  }

  /** Two running nodes, what was sent, and a bound on what was delivered. */
  datatype Scene = Scene(n0: Node, n1: Node, net: seq<Envelope>, seen: nat)

  ghost predicate Shows(s: State, x: Scene) {
    && s.nodes == map[0 := x.n0, 1 := x.n1] && s.up == {0, 1} && s.net == x.net
    && forall a, b :: Cursor(s, a, b) <= x.seen
  }

  /** A run that ends in a scene. */
  ghost predicate RunTo(m: Machine, ss: seq<State>, acts: seq<Action>, x: Scene) {
    Run(Cluster(m), true, ss, acts) && Shows(ss[|acts|], x)
  }

  lemma Extend(c: Config, inOrder: bool, ss: seq<State>, acts: seq<Action>, a: Action, s': State)
    requires Run(c, inOrder, ss, acts) && Next(c, inOrder, ss[|acts|], a, s')
    ensures Run(c, inOrder, ss + [s'], acts + [a])
  {
    var ss', acts' := ss + [s'], acts + [a];
    forall j: nat | j < |acts'| ensures StepAt(c, inOrder, ss', acts', j) {
      if j < |acts| {
        assert StepAt(c, inOrder, ss, acts, j);
      }
    }
  }

  /** The scene after an action of node i. */
  function Then(x: Scene, a: Action, i: NodeID, n': Node, out: seq<Envelope>): Scene {
    Scene(if i == 0 then n' else x.n0, if i == 0 then x.n1 else n', x.net + out,
          if a.Deliver? then a.k + 1 else x.seen)
  }

  lemma CursorsAfter(m: Machine, s: State, a: Action, seen: nat)
    requires Enabled(Cluster(m), true, s, a) && (a.Deliver? ==> seen <= a.k)
    requires forall p, q :: Cursor(s, p, q) <= seen
    ensures forall p, q :: Cursor(After(Cluster(m), s, a), p, q) <= if a.Deliver? then a.k + 1 else seen
  {
    forall p, q ensures Cursor(After(Cluster(m), s, a), p, q) <= if a.Deliver? then a.k + 1 else seen {
      assert Cursor(s, p, q) <= seen;
    }
  }

  lemma ShowsNext(s: State, s': State, x: Scene, a: Action, i: NodeID, n': Node, out: seq<Envelope>)
    requires Shows(s, x) && i in s.nodes
    requires s'.nodes == s.nodes[i := n'] && s'.up == s.up + {i} && s'.net == s.net + out
    requires forall p, q :: Cursor(s', p, q) <= if a.Deliver? then a.k + 1 else x.seen
    ensures Shows(s', Then(x, a, i, n', out))
  {
    assert i == 0 || i == 1;
  }

  /** One more action of a run, given what the node does. */
  lemma Continue(m: Machine, ss: seq<State>, acts: seq<Action>, x: Scene, a: Action, n': Node, out: seq<Envelope>)
    returns (ss': seq<State>, acts': seq<Action>, x': Scene)
    requires RunTo(m, ss, acts, x) && !a.Reboot? && Enabled(Cluster(m), true, ss[|acts|], a)
    requires a.Deliver? ==> x.seen <= a.k
    requires var s := ss[|acts|]; Handle(m, s.nodes[Target(s, a)], EventOf(s, a)) == Effect(n', out, true)
    ensures acts' == acts + [a] && ss < ss' && RunTo(m, ss', acts', x')
    ensures x' == Then(x, a, Target(ss[|acts|], a), n', out)
  {
    var s := ss[|acts|];
    var s' := After(Cluster(m), s, a);
    Extend(Cluster(m), true, ss, acts, a, s');
    ss', acts' := ss + [s'], acts + [a];
    x' := Then(x, a, Target(s, a), n', out);
    CursorsAfter(m, s, a, x.seen);
    ShowsNext(s, s', x, a, Target(s, a), n', out);
  }

  lemma Starts(m: Machine) returns (s: State)
    ensures Init(Cluster(m), s) && s.nodes == map[0 := Fresh(0, 1), 1 := Fresh(1, 0)]
  {
    s := State(map[0 := Fresh(0, 1), 1 := Fresh(1, 0)], {}, [], map[], History(map[], map[], map[], map[], map[]));
    assert Elements([0]) == {0} && Elements([1]) == {1};
    assert {0, 1} - {0} == {1} && {0, 1} - {1} == {0};
  }

  lemma BootsBoth(m: Machine) returns (ss: seq<State>, acts: seq<Action>)
    ensures RunTo(m, ss, acts, Scene(Fresh(0, 1), Fresh(1, 0), [], 0))
  {
    var c := Cluster(m);
    var s := Starts(m);
    ss, acts := [s], [];
    Boots(m, Fresh(0, 1));
    Boots(m, Fresh(1, 0));
    var s1 := After(c, s, Reboot(0, 0));
    assert s1.nodes == s.nodes;
    Extend(c, true, ss, acts, Reboot(0, 0), s1);
    ss, acts := ss + [s1], acts + [Reboot(0, 0)];
    var s2 := After(c, s1, Reboot(1, 0));
    Extend(c, true, ss, acts, Reboot(1, 0), s2);
    ss, acts := ss + [s2], acts + [Reboot(1, 0)];
    assert s2.up == {0, 1} && s2.nodes == s.nodes;
  }

  /** Node 0 campaigns, node 1 votes for it, and it proposes its noop. */
  lemma Elects(m: Machine) returns (ss: seq<State>, acts: seq<Action>, x: Scene)
    ensures RunTo(m, ss, acts, x)
    ensures x == Scene(Leading([E1], Progress(1, 0, 0), map[], 0, []), Voted(), x.net, 2)
    ensures x.net == [To1(Campaign(0, 0)), To0(CampaignResponse(true)), To1(Heartbeat(0, 0, 0)),
                      To1(Append(0, 0, [E1]))]
  {
    ss, acts := BootsBoth(m);
    x := Scene(Fresh(0, 1), Fresh(1, 0), [], 0);
    Campaigns(m);
    ss, acts, x := Continue(m, ss, acts, x, Expire(0), Campaigning(), [To1(Campaign(0, 0))]);
    Votes(m);
    ss, acts, x := Continue(m, ss, acts, x, Deliver(0), Voted(), [To0(CampaignResponse(true))]);
    Wins(m);
    ss, acts, x := Continue(m, ss, acts, x, Deliver(1), Leading([E1], Progress(1, 0, 0), map[], 0, []),
                            [To1(Heartbeat(0, 0, 0)), To1(Append(0, 0, [E1]))]);
  }

  /** A write is stored by node 1, and committed, applied and answered by node 0. */
  lemma Commit(m: Machine) returns (ss: seq<State>, acts: seq<Action>, x: Scene, answer: Envelope)
    requires Total(m)
    ensures RunTo(m, ss, acts, x)
    ensures x == Scene(Leading([E1, E2], Progress(3, 2, 0), map[], 2, [E1, E2]), Following([E1, E2], 0, []), x.net, 6)
    ensures x.net == [To1(Campaign(0, 0)), To0(CampaignResponse(true)), To1(Heartbeat(0, 0, 0)),
                      To1(Append(0, 0, [E1])), To1(Append(0, 0, [E1, E2])), To0(AppendResponse(false, 2, 1)), answer]
    ensures answer == Envelope(0, 0, 1, ClientResponse([], WriteDone(m.apply([E1], E2).outcome)))
  {
    ss, acts, x := Elects(m);
    Writes(m);
    ss, acts, x := Continue(m, ss, acts, x, Submit(0, [], WriteRequest([])),
                            Leading([E1, E2], Progress(1, 0, 0), map[2 := WRITE], 0, []),
                            [To1(Append(0, 0, [E1, E2]))]);
    Appends(m);
    ss, acts, x := Continue(m, ss, acts, x, Deliver(4), Following([E1, E2], 0, []), [To0(AppendResponse(false, 2, 1))]);
    answer := Commits(m);
    ss, acts, x := Continue(m, ss, acts, x, Deliver(5), Leading([E1, E2], Progress(3, 2, 0), map[], 2, [E1, E2]),
                            [answer]);
  }
}
