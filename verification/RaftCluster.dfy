/** A cluster of Raft nodes over a network, as a state machine.

    The network is the sequence of everything ever sent, so any message can be
    lost, delivered late, or delivered again. In order-preserving mode a link
    only delivers messages after the last one it delivered, so it can lose
    messages but neither reorder nor repeat them. */
module RaftCluster {
  import opened Basics
  import opened RaftTypes
  import opened RaftNode
  import opened RaftFacts

  datatype Config = Config(members: set<NodeID>, machine: Machine)

  /** Who a voter voted for in a term, and the voter's log at that moment. */
  datatype Grant = Grant(candidate: NodeID, log: seq<Entry>)

  /** History variables: written by every step, read by none.
      - `grants`: votes cast in a term before that term had a leader
      - `leaders` and `logs`: the leader of each term, and its log while it led
      - `acks`: how much of the leader's log a node has accepted in a term
      - `marks`: the terms that had a leader when a read got its number */
  datatype History = History(
    grants: map<(Term, NodeID), Grant>,
    leaders: map<Term, NodeID>,
    logs: map<Term, seq<Entry>>,
    acks: map<(Term, NodeID), nat>,
    marks: map<(Term, nat), set<Term>>)

  datatype State = State(
    nodes: map<NodeID, Node>, up: set<NodeID>, net: seq<Envelope>,
    pos: map<(NodeID, NodeID), nat>, h: History)

  datatype Action =
    | Deliver(k: nat)
    | Submit(node: NodeID, id: RequestID, request: Request)
    | Expire(node: NodeID)
    | Reboot(node: NodeID, keep: nat)

  predicate Distinct(s: seq<NodeID>) {
    forall i, j :: 0 <= i < j < |s| ==> s[i] != s[j]
  }

  function Elements(s: seq<NodeID>): set<NodeID> {
    set x | x in s
  }

  predicate PeersOk(members: set<NodeID>, n: Node) {
    n.id in members && Distinct(n.peers) && Elements(n.peers) == members - {n.id}
  }

  /** All nodes are down, with nothing stored. They start by rebooting. */
  predicate Init(c: Config, s: State) {
    && c.members != {}
    && s.nodes.Keys == c.members
    && (forall i :: i in s.nodes ==>
          && PeersOk(c.members, s.nodes[i])
          && s.nodes[i] == Node(i, s.nodes[i].peers, 0, None, Log([], 0, 0), [], Follower(None, [])))
    && s.up == {} && s.net == [] && s.pos == map[]
    && s.h == History(map[], map[], map[], map[], map[])
  }

  function Cursor(s: State, from: NodeID, to: NodeID): nat {
    if (from, to) in s.pos then s.pos[(from, to)] else 0
  }

  function Target(s: State, a: Action): NodeID
    requires a.Deliver? ==> a.k < |s.net|
  {
    match a
    case Deliver(k) => s.net[k].to
    case Submit(i, _, _) => i
    case Expire(i) => i
    case Reboot(i, _) => i
  }

  predicate Enabled(c: Config, inOrder: bool, s: State, a: Action) {
    && (a.Deliver? ==> a.k < |s.net|)
    && Target(s, a) in s.nodes
    && match a
       case Deliver(k) =>
         && s.net[k].to in s.up && s.net[k].from != s.net[k].to
         && (inOrder ==> Cursor(s, s.net[k].from, s.net[k].to) <= k)
       case Submit(i, _, _) => i in s.up
       case Expire(i) => i in s.up
       case Reboot(i, keep) => keep <= |s.nodes[i].applied|
  }

  function EventOf(s: State, a: Action): Event
    requires a.Deliver? ==> a.k < |s.net|
    requires Target(s, a) in s.nodes
  {
    match a
    case Deliver(k) => Receive(s.net[k])
    case Submit(i, id, request) => Receive(Envelope(i, i, s.nodes[i].term, ClientRequest(id, request)))
    case Expire(_) => Fire
    case Reboot(_, keep) => Restart(keep)
  }

  function Record(h: History, n: Node, e: Effect): History {
    var n' := e.node;
    History(
      if n'.vote.Some? && n'.term !in h.leaders && (n'.term, n.id) !in h.grants
      then h.grants[(n'.term, n.id) := Grant(n'.vote.value, n.log.entries)] else h.grants,
      if n'.role.Leader? then h.leaders[n'.term := n.id] else h.leaders,
      if n'.role.Leader? then h.logs[n'.term := n'.log.entries] else h.logs,
      if Accepts(e.out) then h.acks[(n'.term, n.id) := |n'.log.entries|] else h.acks,
      if StillLeader(n, n') && n'.role.readSeq > n.role.readSeq
      then h.marks[(n'.term, n'.role.readSeq) := h.leaders.Keys] else h.marks)
  }

  function After(c: Config, s: State, a: Action): State
    requires Enabled(c, false, s, a)
  {
    var i := Target(s, a);
    var e := Handle(c.machine, s.nodes[i], EventOf(s, a));
    State(
      s.nodes[i := e.node],
      if e.ok then s.up + {i} else s.up - {i},
      s.net + e.out,
      if a.Deliver? then s.pos[(s.net[a.k].from, i) := a.k + 1] else s.pos,
      Record(s.h, s.nodes[i], e))
  }

  predicate Next(c: Config, inOrder: bool, s: State, a: Action, s': State) {
    Enabled(c, inOrder, s, a) && s' == After(c, s, a)
  }

  ghost predicate StepAt(c: Config, inOrder: bool, ss: seq<State>, acts: seq<Action>, j: nat)
    requires j < |acts| < |ss|
  {
    Next(c, inOrder, ss[j], acts[j], ss[j + 1])
  }

  /** A run: states linked by actions, from a cold start. */
  ghost predicate Run(c: Config, inOrder: bool, ss: seq<State>, acts: seq<Action>) {
    && |ss| == |acts| + 1
    && Init(c, ss[0])
    && forall j: nat :: j < |acts| ==> StepAt(c, inOrder, ss, acts, j)
  }

  /** Links that deliver in order are a special case. */
  lemma InOrderIsAny(c: Config, ss: seq<State>, acts: seq<Action>)
    requires Run(c, true, ss, acts)
    ensures Run(c, false, ss, acts)
  {
    forall j: nat | j < |acts| ensures StepAt(c, false, ss, acts, j) {
      assert StepAt(c, true, ss, acts, j);
    }
  }

  /** How one step of node i changes the cluster. */
  ghost predicate Moves(s: State, i: NodeID, e: Effect, s': State) {
    && i in s.nodes && s.nodes[i].id == i
    && s'.nodes == s.nodes[i := e.node]
    && s'.net == s.net + e.out
    && s'.h == Record(s.h, s.nodes[i], e)
  }

  /** A received message was sent by another node, or is a client's request. */
  ghost predicate Heard(s: State, i: NodeID, ev: Event) {
    ev.Receive? ==> ev.msg.message.ClientRequest? || (ev.msg in s.net && ev.msg.from != i && ev.msg.to == i)
  }

  /** One step, seen through what the acting node guarantees. */
  ghost predicate Transition(s: State, i: NodeID, ev: Event, e: Effect, s': State) {
    Moves(s, i, e, s') && Heard(s, i, ev) && Possible(s.nodes[i], ev) && Facts(s.nodes[i], ev, e)
  }

  /** In order: a link's cursor never moves back, and a delivered message lies at
      or after it and pushes it past itself. */
  ghost predicate HeardInOrder(s: State, i: NodeID, ev: Event, s': State) {
    && (forall x, y :: Cursor(s', x, y) >= Cursor(s, x, y))
    && (ev.Receive? && !ev.msg.message.ClientRequest? ==>
          exists k ::
            0 <= k < |s.net| && s.net[k] == ev.msg && Cursor(s, ev.msg.from, i) <= k < Cursor(s', ev.msg.from, i))
  }

  lemma NextIsTransition(c: Config, inOrder: bool, s: State, a: Action, s': State)
    returns (i: NodeID, ev: Event, e: Effect)
    requires Next(c, inOrder, s, a, s') && s.nodes[Target(s, a)].id == Target(s, a)
    ensures Transition(s, i, ev, e, s')
    ensures inOrder ==> HeardInOrder(s, i, ev, s')
  {
    i, ev := Target(s, a), EventOf(s, a);
    e := Handle(c.machine, s.nodes[i], ev);
    HandleFacts(c.machine, s.nodes[i], ev);
  }

  lemma RunStep(c: Config, inOrder: bool, ss: seq<State>, acts: seq<Action>, j: nat)
    returns (i: NodeID, ev: Event, e: Effect)
    requires Run(c, inOrder, ss, acts) && j < |acts|
    requires forall x :: x in ss[j].nodes ==> ss[j].nodes[x].id == x
    ensures Transition(ss[j], i, ev, e, ss[j + 1])
    ensures inOrder ==> HeardInOrder(ss[j], i, ev, ss[j + 1])
  {
    assert StepAt(c, inOrder, ss, acts, j);
    i, ev, e := NextIsTransition(c, inOrder, ss[j], acts[j], ss[j + 1]);
  }
}
