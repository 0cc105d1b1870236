/** Request conservation over the whole life of a node, from a boot to the next crash and
    through all roles: every request it takes it has answered once, or it is still pending,
    in its own hands or forwarded to its leader. */
module RaftLife {
  import opened Basics
  import opened RaftTypes
  import opened RaftNode
  import opened RaftRequests
  import opened RaftClients

  predicate Distinct(ids: seq<RequestID>) {
    forall i, j :: 0 <= i < j < |ids| ==> ids[i] != ids[j]
  }

  /** How often a request of the node's own client is forwarded and not yet answered. */
  function Forwarded(n: Node, t: Ticket): nat {
    if n.role.Follower? && t.from == n.id && t.id in n.role.forwarded then 1 else 0
  }

  function Open(n: Node, t: Ticket): nat {
    Pending(n, t) + Forwarded(n, t)
  }

  /** Bookkeeping that every event keeps. */
  predicate Tidy(n: Node) {
    match n.role
    case Follower(_, forwarded) => Distinct(forwarded)
    case Candidate(_) => true
    case Leader(_, _, _, _) => WritesLogged(n)
  }

  /** Request ids are not reused while one is forwarded. */
  predicate FreshID(n: Node, ev: Event) {
    ev.Receive? && ev.msg.message.ClientRequest? && ev.msg.from == n.id && n.role.Follower? ==>
      ev.msg.message.id !in n.role.forwarded
  }

  ghost predicate Conserves(n: Node, ev: Event, e: Effect, t: Ticket) {
    Tidy(e.node) && Open(n, t) + Taken(n, ev, t) == Open(e.node, t) + Answered(e.out, t)
  }

  lemma {:induction false} AbortsAnswer(n: Node, ids: seq<RequestID>, t: Ticket)
    requires Distinct(ids)
    ensures Answered(Aborts(n, ids), t) == if t.from == n.id && t.id in ids then 1 else 0
  {
    if ids != [] {
      var init := ids[..|ids| - 1];
      AbortsAnswer(n, init, t);
      assert Aborts(n, ids)[..|ids| - 1] == Aborts(n, init);
      assert ids == init + [ids[|ids| - 1]];
    }
  }

  lemma {:induction false} RemovedID(ids: seq<RequestID>, id: RequestID, x: RequestID)
    ensures x in RemoveID(ids, id) <==> x in ids && x != id
    ensures Distinct(ids) ==> Distinct(RemoveID(ids, id))
  {
    if ids != [] {
      RemovedID(ids[1..], id, x);
      assert ids == [ids[0]] + ids[1..];
      if ids[0] != id && Distinct(ids) {
        RemovedID(ids[1..], id, ids[0]);
      }
    }
  }

  lemma OneAnswer(o: Envelope, t: Ticket)
    ensures Answered([o], t) == if o.message.ClientResponse? && Ticket(o.to, o.message.id) == t then 1 else 0
  {
    assert [o][..0] == [];
  }

  // ---- Followers ----

  lemma FollowConserves(n: Node, leader: NodeID, t: Ticket)
    requires n.role.Follower? && Distinct(n.role.forwarded) && Follow(n, leader).ok
    ensures var f := Follow(n, leader);
            Tidy(f.node) && Open(n, t) == Open(f.node, t) + Answered(f.out, t)
  {
    AbortsAnswer(n, n.role.forwarded, t);
  }

  /** A follower that hears from a leader follows it, and then sends one message that
      answers nobody. */
  lemma HeardShape(m: Machine, n: Node, msg: Envelope, e: Effect) returns (f: Effect, o: Envelope)
    requires n.role.Follower? && e == FollowerStep(m, n, msg) && e.ok && (msg.message.Heartbeat? || msg.message.Append?)
    ensures f == Follow(n, msg.from) && f.ok && e.out == f.out + [o] && !o.message.ClientResponse?
    ensures e.node.role == f.node.role && e.node.id == n.id
  {
    f := Follow(n, msg.from);
    o := e.out[|f.out|];
  }

  lemma FollowedConserves(m: Machine, n: Node, msg: Envelope, e: Effect, t: Ticket)
    requires n.role.Follower? && Distinct(n.role.forwarded) && e == FollowerStep(m, n, msg) && e.ok
    requires msg.message.Heartbeat? || msg.message.Append?
    ensures Conserves(n, Receive(msg), e, t)
  {
    var f, o := HeardShape(m, n, msg, e);
    FollowConserves(n, msg.from, t);
    AnsweredConcat(f.out, [o], t);
    OneAnswer(o, t);
  }

  lemma ForwardedDistinct(ids: seq<RequestID>, id: RequestID)
    requires Distinct(ids) && id !in ids
    ensures Distinct(ids + [id])
  {
  }

  lemma FollowerRequestConserves(m: Machine, n: Node, msg: Envelope, e: Effect, t: Ticket)
    requires n.role.Follower? && Distinct(n.role.forwarded) && e == FollowerStep(m, n, msg) && e.ok
    requires msg.message.ClientRequest? && msg.term == n.term && FreshID(n, Receive(msg))
    ensures Conserves(n, Receive(msg), e, t)
  {
    OneAnswer(e.out[0], t);
    assert e.out == [e.out[0]];
    if n.role.leader.Some? {
      ForwardedDistinct(n.role.forwarded, msg.message.id);
    }
  }

  lemma FollowerResponseConserves(m: Machine, n: Node, msg: Envelope, e: Effect, t: Ticket)
    requires n.role.Follower? && Distinct(n.role.forwarded) && e == FollowerStep(m, n, msg) && e.ok
    requires msg.message.ClientResponse?
    ensures Conserves(n, Receive(msg), e, t)
  {
    RemovedID(n.role.forwarded, msg.message.id, t.id);
    if msg.message.id in n.role.forwarded {
      OneAnswer(e.out[0], t);
      assert e.out == [e.out[0]];
    }
  }

  lemma FollowerConserves(m: Machine, n: Node, msg: Envelope, e: Effect, t: Ticket)
    requires n.role.Follower? && Distinct(n.role.forwarded) && e == FollowerStep(m, n, msg) && e.ok
    requires msg.term == n.term && FreshID(n, Receive(msg))
    ensures Conserves(n, Receive(msg), e, t)
  {
    match msg.message
    case Heartbeat(_, _, _) => FollowedConserves(m, n, msg, e, t);
    case Append(_, _, _) => FollowedConserves(m, n, msg, e, t);
    case ClientRequest(_, _) => FollowerRequestConserves(m, n, msg, e, t);
    case ClientResponse(_, _) => FollowerResponseConserves(m, n, msg, e, t);
    case _ => QuietAnswers(e.out, t);
  }

  // ---- Candidates ----

  lemma WinnerPends(n: Node, t: Ticket)
    ensures Answered(IntoLeader(n).out, t) == 0 && WritesLogged(IntoLeader(n).node) && Open(IntoLeader(n).node, t) == 0
  {
    QuietAnswers(IntoLeader(n).out, t);
    PendingWritesNone(map[], 0, |IntoLeader(n).node.log.entries|, t);
  }

  lemma CandidateConserves(m: Machine, n: Node, msg: Envelope, e: Effect, t: Ticket)
    requires n.role.Candidate? && e == CandidateStep(m, n, msg) && e.ok && msg.term == n.term
    ensures Conserves(n, Receive(msg), e, t)
  {
    match msg.message
    case CampaignResponse(vote) =>
      if vote { WinnerPends(n.(role := Candidate(n.role.votes + {msg.from})), t); }
    case Heartbeat(_, _, _) => FollowedConserves(m, n.(role := Follower(Some(msg.from), [])), msg, e, t);
    case Append(_, _, _) => FollowedConserves(m, n.(role := Follower(Some(msg.from), [])), msg, e, t);
    case ClientRequest(_, _) => OneAnswer(e.out[0], t);
    case _ =>
  }

  // ---- Every event ----

  /** Entering a later term: whatever is open is aborted, and then the message is handled. */
  lemma LeavingConserves(m: Machine, n: Node, msg: Envelope, e: Effect, t: Ticket)
    requires !n.role.Leader? && Tidy(n) && msg.term > n.term && e == Step(m, n, msg) && e.ok
    ensures Conserves(n, Receive(msg), e, t)
  {
    var d := DiscoverTerm(n, msg.term);
    var f := FollowerStep(m, d, msg);
    if n.role.Follower? {
      AbortsAnswer(n, n.role.forwarded, t);
    }
    if f.ok {
      FollowerConserves(m, d, msg, f, t);
      AnsweredConcat(LeavingTerm(n), f.out, t);
    }
  }

  lemma TimeoutConserves(m: Machine, n: Node, e: Effect, t: Ticket)
    requires !n.role.Leader? && Tidy(n) && e == Timeout(m, n) && e.ok
    ensures Conserves(n, Fire, e, t)
  {
    var n1 := if n.role.Follower? then MaybeApply(m, n).0 else n;
    var campaign := StartCampaign(n1).out;
    QuietAnswers(campaign, t);
    if n.role.Follower? {
      AbortsAnswer(n, n.role.forwarded, t);
      AnsweredConcat(Aborts(n, n.role.forwarded), campaign, t);
    }
  }

  lemma LeaderlessForwards(m: Machine, n: Node, msg: Envelope)
    requires n.role == Follower(None, [])
    ensures FollowerStep(m, n, msg).node.role.Follower? && FollowerStep(m, n, msg).node.role.forwarded == []
  {
  }

  /** Who led before has forwarded nothing. */
  lemma NothingForwarded(m: Machine, n: Node, ev: Event, e: Effect)
    requires n.role.Leader? && !ev.Restart? && e == Handle(m, n, ev) && e.ok
    ensures e.node.role.Leader? || (e.node.role.Follower? && e.node.role.forwarded == [])
  {
    if ev.Receive? && ev.msg.term == n.term {
      LeaderLeadsOn(m, n, ev.msg);
    } else if ev.Receive? && ev.msg.term > n.term {
      LeaderlessForwards(m, DiscoverTerm(n, ev.msg.term), ev.msg);
    }
  }

  lemma LeaderConserves(m: Machine, n: Node, ev: Event, e: Effect, t: Ticket)
    requires n.role.Leader? && WritesLogged(n) && !ev.Restart? && e == Handle(m, n, ev) && e.ok
    ensures Conserves(n, ev, e, t)
  {
    HandleBalance(m, n, ev, e, t);
    NothingForwarded(m, n, ev, e);
  }

  /** Every event but a crash conserves the requests, whatever the role. */
  lemma LifeBalance(m: Machine, n: Node, ev: Event, e: Effect, t: Ticket)
    requires Tidy(n) && FreshID(n, ev) && !ev.Restart? && e == Handle(m, n, ev) && e.ok
    ensures Conserves(n, ev, e, t)
  {
    if n.role.Leader? {
      LeaderConserves(m, n, ev, e, t);
    } else if ev.Fire? {
      TimeoutConserves(m, n, e, t);
    } else if ev.msg.term > n.term {
      LeavingConserves(m, n, ev.msg, e, t);
    } else if ev.msg.term == n.term {
      if n.role.Follower? {
        FollowerConserves(m, n, ev.msg, e, t);
      } else {
        CandidateConserves(m, n, ev.msg, e, t);
      }
    }
  }

  // ---- A whole life ----

  ghost predicate Lives(m: Machine, ns: seq<Node>, evs: seq<Event>, outs: seq<seq<Envelope>>, j: nat)
    requires j < |evs| == |outs| < |ns|
  {
    !evs[j].Restart? && FreshID(ns[j], evs[j]) && Handle(m, ns[j], evs[j]) == Effect(ns[j + 1], outs[j], true)
  }

  /** A life: from a boot on, through any events but a crash or halt. */
  ghost predicate Life(m: Machine, n: Node, keep: nat, ns: seq<Node>, evs: seq<Event>, outs: seq<seq<Envelope>>) {
    && |ns| == |evs| + 1 == |outs| + 1 && keep <= |n.applied|
    && ns[0] == Boot(m, n, keep).node && Boot(m, n, keep).ok
    && forall j: nat :: j < |evs| ==> Lives(m, ns, evs, outs, j)
  }

  lemma BootIsOpen(m: Machine, n: Node, keep: nat, t: Ticket)
    requires keep <= |n.applied| && Boot(m, n, keep).ok
    ensures Tidy(Boot(m, n, keep).node) && Open(Boot(m, n, keep).node, t) == 0
  {
    var n0 := n.(applied := n.applied[..keep], role := Follower(None, []));
    if n.peers == [] {
      WinnerPends(Timeout(m, n0).node, t);
    }
  }

  /** Over a node's whole life, through every role it takes, each request was taken exactly
      as often as it was answered or is open now. So no request is answered twice, and none
      is dropped. */
  lemma {:induction false} LifeConservation(m: Machine, n: Node, keep: nat, ns: seq<Node>, evs: seq<Event>,
                                            outs: seq<seq<Envelope>>, k: nat, t: Ticket)
    requires Life(m, n, keep, ns, evs, outs) && k <= |evs|
    ensures TotalTaken(ns, evs, k, t) == TotalAnswered(outs, k, t) + Open(ns[k], t)
    ensures Tidy(ns[k])
  {
    if k == 0 {
      BootIsOpen(m, n, keep, t);
    } else {
      LifeConservation(m, n, keep, ns, evs, outs, k - 1, t);
      assert Lives(m, ns, evs, outs, k - 1);
      LifeBalance(m, ns[k - 1], evs[k - 1], Effect(ns[k], outs[k - 1], true), t);
    }
  }
}
