/** Log matching: two logs with the same term at an index agree up to it, over
    every run with lost, reordered and repeated messages and with restarts. */
module RaftLogs {
  import opened RaftTypes
  import opened RaftNode
  import opened RaftFacts
  import opened RaftCluster
  import opened RaftElection

  /** Entries are numbered from 1, with terms that start at 1 and never fall. */
  ghost predicate OrderedAt(es: seq<Entry>, k: nat, l: nat) {
    k <= l < |es| ==> es[k].index == k + 1 && 1 <= es[k].term <= es[l].term
  }

  ghost predicate Ordered(es: seq<Entry>) {
    forall k, l :: OrderedAt(es, k, l)
  }

  /** The entry at k, with all before it, is what the leader of its term had. */
  ghost predicate KnownAt(h: History, es: seq<Entry>, k: nat) {
    k < |es| ==>
      && es[k].term in h.logs && k < |h.logs[es[k].term]|
      && es[..k + 1] == h.logs[es[k].term][..k + 1]
  }

  ghost predicate Known(h: History, es: seq<Entry>) {
    forall k :: KnownAt(h, es, k)
  }

  ghost predicate TermLogOk(h: History, t: Term) {
    && (t in h.logs <==> t in h.leaders)
    && (t in h.logs ==>
          && t >= 1 && h.logs[t] != [] && LastTerm(h.logs[t]) == t
          && Ordered(h.logs[t]) && Known(h, h.logs[t]))
  }

  ghost predicate LogOf(h: History, n: Node) {
    Ordered(n.log.entries) && Known(h, n.log.entries) && LastTerm(n.log.entries) <= n.term
  }

  /** What a node believes about leadership agrees with the history. */
  ghost predicate RoleOf(h: History, n: Node) {
    && (n.role.Leader? ==> n.term in h.logs && n.log.entries == h.logs[n.term])
    && (n.role.Candidate? ==> n.term >= 1)
    && (n.role.Follower? && n.role.leader.Some? ==>
          n.term in h.leaders && h.leaders[n.term] == n.role.leader.value)
  }

  ghost predicate NodeLogOk(s: State, i: NodeID) {
    i in s.nodes ==> LogOf(s.h, s.nodes[i]) && RoleOf(s.h, s.nodes[i])
  }

  /** An Append carries a slice of its leader's log that ends in its own term. */
  ghost predicate AppendOk(h: History, o: Envelope)
    requires o.message.Append?
  {
    && o.term in h.leaders && o.term in h.logs && h.leaders[o.term] == o.from
    && var b := o.message.baseIndex; var es := o.message.entries; var log := h.logs[o.term];
       && b + |es| <= |log|
       && es == log[b..b + |es|]
       && o.message.baseTerm == TermAt(log, b)
       && (es != [] ==> es[|es| - 1].term == o.term)
  }

  ghost predicate LeaderMessageOk(h: History, o: Envelope) {
    && (o.message.Append? ==> AppendOk(h, o))
    && (o.message.Heartbeat? ==> o.term in h.leaders && h.leaders[o.term] == o.from)
  }

  ghost predicate MessageOk(s: State, k: nat) {
    k < |s.net| ==> LeaderMessageOk(s.h, s.net[k])
  }

  ghost predicate LogInv(s: State) {
    && (forall t :: TermLogOk(s.h, t))
    && (forall i :: NodeLogOk(s, i))
    && (forall k :: MessageOk(s, k))
  }

  // ---- The history of leader logs only grows ----

  ghost predicate GrowsAt(h: History, h': History, t: Term) {
    && (t in h.leaders ==> t in h'.leaders && h'.leaders[t] == h.leaders[t])
    && (t in h.logs ==> t in h'.logs && h.logs[t] <= h'.logs[t])
  }

  ghost predicate Grows(h: History, h': History) {
    forall t :: GrowsAt(h, h', t)
  }

  lemma KnownGrows(h: History, h': History, es: seq<Entry>)
    requires Known(h, es) && Grows(h, h')
    ensures Known(h', es)
  {
    forall k: nat ensures KnownAt(h', es, k) {
      assert KnownAt(h, es, k);
      if k < |es| {
        assert GrowsAt(h, h', es[k].term);
      }
    }
  }

  lemma HistoryGrows(s: State, i: NodeID, ev: Event, e: Effect, s': State)
    requires Moves(s, i, e, s') && LeaderOrigin(s, i, e.node) && LogFacts(s.nodes[i], ev, e.node)
    requires LogInv(s)
    ensures Grows(s.h, s'.h)
  {
    forall t ensures GrowsAt(s.h, s'.h, t) {
      assert NodeLogOk(s, i) && TermLogOk(s.h, t);
    }
  }

  /** The core of log matching. */
  lemma SameTermSamePrefix(h: History, a: seq<Entry>, b: seq<Entry>, k: nat)
    requires Known(h, a) && Known(h, b) && k < |a| && k < |b| && a[k].term == b[k].term
    ensures a[..k + 1] == b[..k + 1]
  {
    assert KnownAt(h, a, k) && KnownAt(h, b, k);
  }

  lemma SplicedPrefix(h: History, had: seq<Entry>, log: seq<Entry>, b: nat, es: seq<Entry>, k: nat)
    requires Known(h, had) && Known(h, log) && b + |es| <= |log| && es == log[b..b + |es|]
    requires b <= |had| && had[..b] == log[..b]
    requires k <= |es| && b + k <= |had|
    requires forall j :: 0 <= j < k ==> had[b + j].term == es[j].term
    ensures had[..b + k] + es[k..] == log[..b + |es|]
  {
    if k > 0 {
      assert es[k - 1] == log[b + k - 1];
      assert had[b + (k - 1)].term == es[k - 1].term;
      SameTermSamePrefix(h, had, log, b + k - 1);
    }
    assert had[..b + k] == log[..b + k];
    assert es[k..] == log[b + k..b + |es|];
  }

  lemma SpliceShape(log: seq<Entry>, commit: Index, es: seq<Entry>, b: nat, k: nat)
    requires es != [] && es[0].index == b + 1 && Splice(log, commit, es).Some?
    requires b <= |log| && k == Matched(log, b + 1, es, 0)
    ensures Splice(log, commit, es).value == log[..b + k] + es[k..]
  {
  }

  /** An accepted Append makes the log a prefix of the leader's log. */
  lemma AcceptedLog(h: History, n: Node, o: Envelope, n': Node)
    requires TermLogOk(h, o.term) && Known(h, n.log.entries)
    requires o.message.Append? && AppendOk(h, o) && Accepted(n, o.message, n')
    ensures o.message.entries == [] ==> n'.log.entries == n.log.entries
    ensures o.message.entries != [] ==>
              n'.log.entries == h.logs[o.term][..o.message.baseIndex + |o.message.entries|]
  {
    var log, b, es := h.logs[o.term], o.message.baseIndex, o.message.entries;
    if es != [] {
      if b > 0 {
        SameTermSamePrefix(h, n.log.entries, log, b - 1);
      }
      assert OrderedAt(log, b, b);
      assert es[0] == log[b] && es[0].index == b + 1;
      var k := Matched(n.log.entries, b + 1, es, 0);
      SpliceShape(n.log.entries, n.log.commitIndex, es, b, k);
      SplicedPrefix(h, n.log.entries, log, b, es, k);
    }
  }

  lemma PrefixKnown(h: History, es: seq<Entry>, k: nat)
    requires k <= |es| && Ordered(es) && Known(h, es)
    ensures Ordered(es[..k]) && Known(h, es[..k]) && LastTerm(es[..k]) <= LastTerm(es)
  {
    forall j: nat ensures KnownAt(h, es[..k], j) {
      assert KnownAt(h, es, j);
      if j < k {
        assert es[..k][..j + 1] == es[..j + 1];
      }
    }
    forall j, l ensures OrderedAt(es[..k], j, l) {
      assert OrderedAt(es, j, l);
    }
    if k > 0 {
      assert OrderedAt(es, k - 1, |es| - 1);
    }
  }

  lemma AppendedOrdered(n: Node, n': Node)
    requires Ordered(n.log.entries) && LastTerm(n.log.entries) <= n'.term && n'.term >= 1 && Appended(n, n')
    ensures Ordered(n'.log.entries)
  {
    var a, b := n.log.entries, n'.log.entries;
    forall k, l ensures OrderedAt(b, k, l) {
      assert OrderedAt(a, k, l);
      if a != [] {
        assert OrderedAt(a, k, |a| - 1);
      }
    }
  }

  lemma AppendedKnown(h: History, h': History, n: Node, n': Node)
    requires Known(h, n.log.entries) && Grows(h, h') && Appended(n, n')
    requires n'.term in h'.logs && h'.logs[n'.term] == n'.log.entries
    ensures Known(h', n'.log.entries)
  {
    KnownGrows(h, h', n.log.entries);
    forall k: nat ensures KnownAt(h', n'.log.entries, k) {
      assert KnownAt(h', n.log.entries, k);
      if k < |n.log.entries| {
        assert n'.log.entries[k] == n.log.entries[k];
        assert n'.log.entries[..k + 1] == n.log.entries[..k + 1];
      }
    }
  }

  // ---- Each step keeps the invariants ----

  /** The message behind a step's event was sent, and so satisfies what all do. */
  lemma ReceivedOk(s: State, i: NodeID, ev: Event)
    requires LogInv(s) && Heard(s, i, ev) && ev.Receive? && !ev.msg.message.ClientRequest?
    ensures LeaderMessageOk(s.h, ev.msg)
  {
    var k: nat :| k < |s.net| && s.net[k] == ev.msg;
    assert MessageOk(s, k);
  }

  lemma SplicedStep(s: State, i: NodeID, ev: Event, n': Node, h': History)
    requires i in s.nodes && LogInv(s) && Heard(s, i, ev)
    requires Spliced(s.nodes[i], ev, n') && Grows(s.h, h') && n'.term >= s.nodes[i].term
    ensures LogOf(h', n')
  {
    var o := ev.msg;
    assert NodeLogOk(s, i) && TermLogOk(s.h, n'.term);
    ReceivedOk(s, i, ev);
    AcceptedLog(s.h, s.nodes[i], o, n');
    if o.message.entries != [] {
      PrefixKnown(s.h, s.h.logs[n'.term], o.message.baseIndex + |o.message.entries|);
    }
    KnownGrows(s.h, h', n'.log.entries);
  }

  lemma LeadingStep(s: State, i: NodeID, ev: Event, n': Node)
    requires i in s.nodes && LogInv(s)
    requires LeaderFacts(s.nodes[i], ev, n') && LogFacts(s.nodes[i], ev, n') && n'.role.Leader?
    ensures n'.term >= 1 && n'.log.entries != [] && LastTerm(n'.log.entries) == n'.term
  {
    assert NodeLogOk(s, i) && TermLogOk(s.h, n'.term);
  }

  lemma ActingLogStep(s: State, i: NodeID, ev: Event, e: Effect, s': State)
    requires Moves(s, i, e, s') && Heard(s, i, ev) && LogInv(s) && Grows(s.h, s'.h)
    requires VoteFacts(s.nodes[i], ev, e.node) && LogFacts(s.nodes[i], ev, e.node)
    requires e.node.role.Leader? ==> e.node.term >= 1
    ensures LogOf(s'.h, e.node)
  {
    var n, n' := s.nodes[i], e.node;
    assert NodeLogOk(s, i);
    if n'.log.entries == n.log.entries {
      KnownGrows(s.h, s'.h, n.log.entries);
    } else if Appended(n, n') {
      AppendedOrdered(n, n');
      AppendedKnown(s.h, s'.h, n, n');
    } else {
      SplicedStep(s, i, ev, n', s'.h);
    }
  }

  lemma ActingRoleStep(s: State, i: NodeID, ev: Event, e: Effect, s': State)
    requires Moves(s, i, e, s') && Heard(s, i, ev) && LogInv(s) && Grows(s.h, s'.h)
    requires CandidateFacts(s.nodes[i], ev, e.node) && FollowFacts(s.nodes[i], ev, e.node)
    ensures RoleOf(s'.h, e.node)
  {
    var n' := e.node;
    assert NodeLogOk(s, i) && GrowsAt(s.h, s'.h, n'.term);
    if n'.role.Follower? && n'.role.leader.Some? && Got(ev, n'.term)
       && (ev.msg.message.Heartbeat? || ev.msg.message.Append?) {
      ReceivedOk(s, i, ev);
    }
  }

  lemma OtherLogStep(c: Config, s: State, i: NodeID, e: Effect, s': State, x: NodeID)
    requires Moves(s, i, e, s') && LeaderOrigin(s, i, e.node) && Grows(s.h, s'.h)
    requires x in s.nodes && x != i && LogInv(s) && ElectionInv(c, s)
    ensures NodeLogOk(s', x)
  {
    var n := s.nodes[x];
    assert NodeLogOk(s, x) && LeaderOk(s, x) && GrowsAt(s.h, s'.h, n.term) && TermLogOk(s.h, n.term);
    KnownGrows(s.h, s'.h, n.log.entries);
  }

  lemma TermLogStep(s: State, i: NodeID, e: Effect, s': State, t: Term)
    requires Moves(s, i, e, s') && LogInv(s) && Grows(s.h, s'.h) && LogOf(s'.h, e.node)
    requires e.node.role.Leader?
             ==> e.node.term >= 1 && e.node.log.entries != [] && LastTerm(e.node.log.entries) == e.node.term
    ensures TermLogOk(s'.h, t)
  {
    assert TermLogOk(s.h, t);
    if t in s.h.logs {
      KnownGrows(s.h, s'.h, s.h.logs[t]);
    }
  }

  lemma MessageGrows(h: History, h': History, o: Envelope)
    requires LeaderMessageOk(h, o) && Grows(h, h')
    ensures LeaderMessageOk(h', o)
  {
    assert GrowsAt(h, h', o.term);
  }

  lemma SentAppendOk(h: History, n: Node, to: NodeID)
    requires CanSend(n, to) && n.term in h.logs && n.term in h.leaders && h.leaders[n.term] == n.id
    requires n.log.entries == h.logs[n.term] && LastTerm(n.log.entries) == n.term
    ensures AppendOk(h, SendLog(n, to))
  {
  }

  lemma MessageStep(s: State, i: NodeID, ev: Event, e: Effect, s': State, k: nat)
    requires Moves(s, i, e, s') && LogInv(s) && Grows(s.h, s'.h) && SendFacts(s.nodes[i], ev, e)
    requires e.node.id == i && (e.node.role.Leader? ==> LastTerm(e.node.log.entries) == e.node.term)
    ensures MessageOk(s', k)
  {
    if k < |s.net| {
      assert MessageOk(s, k);
      MessageGrows(s.h, s'.h, s.net[k]);
    } else if k < |s'.net| {
      var o := e.out[k - |s.net|];
      assert s'.net[k] == o;
      assert Sends(s.nodes[i], ev, e.node, o);
      if o.message.Append? {
        SentAppendOk(s'.h, e.node, o.to);
      }
    }
  }

  lemma LogStep(c: Config, s: State, i: NodeID, ev: Event, e: Effect, s': State)
    requires ElectionInv(c, s) && LogInv(s) && Transition(s, i, ev, e, s') && LeaderOrigin(s, i, e.node)
    ensures LogInv(s') && Grows(s.h, s'.h)
  {
    HistoryGrows(s, i, ev, e, s');
    if e.node.role.Leader? {
      LeadingStep(s, i, ev, e.node);
    }
    ActingLogStep(s, i, ev, e, s');
    ActingRoleStep(s, i, ev, e, s');
    forall x ensures NodeLogOk(s', x) {
      if x != i && x in s.nodes {
        OtherLogStep(c, s, i, e, s', x);
      }
    }
    forall t ensures TermLogOk(s'.h, t) {
      TermLogStep(s, i, e, s', t);
    }
    forall k: nat ensures MessageOk(s', k) {
      MessageStep(s, i, ev, e, s', k);
    }
  }

  lemma LogInit(c: Config, s: State)
    requires Init(c, s)
    ensures LogInv(s)
  {
  }

  lemma {:induction false} LogRun(c: Config, ss: seq<State>, acts: seq<Action>, j: nat)
    requires Run(c, false, ss, acts) && j < |ss|
    ensures ElectionInv(c, ss[j]) && LogInv(ss[j])
  {
    if j == 0 {
      ElectionInit(c, ss[0]);
      LogInit(c, ss[0]);
    } else {
      LogRun(c, ss, acts, j - 1);
      MembersKnown(c, ss[j - 1]);
      var i, ev, e := RunStep(c, false, ss, acts, j - 1);
      ElectionStep(c, ss[j - 1], i, ev, e, ss[j]);
      LogStep(c, ss[j - 1], i, ev, e, ss[j]);
    }
  }

  lemma {:induction false} GrowsRun(c: Config, ss: seq<State>, acts: seq<Action>, j: nat, j': nat)
    requires Run(c, false, ss, acts) && j <= j' < |ss|
    ensures Grows(ss[j].h, ss[j'].h)
    decreases j' - j
  {
    if j < j' {
      GrowsRun(c, ss, acts, j, j' - 1);
      LogRun(c, ss, acts, j' - 1);
      MembersKnown(c, ss[j' - 1]);
      var i, ev, e := RunStep(c, false, ss, acts, j' - 1);
      ElectionStep(c, ss[j' - 1], i, ev, e, ss[j']);
      LogStep(c, ss[j' - 1], i, ev, e, ss[j']);
      GrowsTransitive(ss[j].h, ss[j' - 1].h, ss[j'].h);
    }
  }

  lemma GrowsTransitive(a: History, b: History, d: History)
    requires Grows(a, b) && Grows(b, d)
    ensures Grows(a, d)
  {
    forall t ensures GrowsAt(a, d, t) {
      assert GrowsAt(a, b, t) && GrowsAt(b, d, t);
    }
  }

  /** Log matching. At any two moments of a run, two logs that hold the same term
      at an index are identical up to that index. */
  lemma LogMatching(c: Config, ss: seq<State>, acts: seq<Action>, j: nat, a: NodeID, j': nat, b: NodeID, k: nat)
    requires Run(c, false, ss, acts) && j <= j' < |ss|
    requires a in ss[j].nodes && b in ss[j'].nodes
    requires k < |ss[j].nodes[a].log.entries| && k < |ss[j'].nodes[b].log.entries|
    requires ss[j].nodes[a].log.entries[k].term == ss[j'].nodes[b].log.entries[k].term
    ensures ss[j].nodes[a].log.entries[..k + 1] == ss[j'].nodes[b].log.entries[..k + 1]
  {
    LogRun(c, ss, acts, j);
    LogRun(c, ss, acts, j');
    GrowsRun(c, ss, acts, j, j');
    assert NodeLogOk(ss[j], a) && NodeLogOk(ss[j'], b);
    KnownGrows(ss[j].h, ss[j'].h, ss[j].nodes[a].log.entries);
    SameTermSamePrefix(ss[j'].h, ss[j].nodes[a].log.entries, ss[j'].nodes[b].log.entries, k);
  }

  /** The assertions on leaders cannot fail: whoever a node follows, or is, in a
      term, a Heartbeat or Append of that term comes from that same leader. */
  lemma OneLeaderSeen(c: Config, ss: seq<State>, acts: seq<Action>, j: nat, i: NodeID, k: nat)
    requires Run(c, false, ss, acts) && j < |ss| && i in ss[j].nodes && k < |ss[j].net|
    requires ss[j].net[k].message.Heartbeat? || ss[j].net[k].message.Append?
    requires ss[j].net[k].term == ss[j].nodes[i].term
    ensures var n := ss[j].nodes[i];
            && (n.role.Follower? && n.role.leader.Some? ==> n.role.leader.value == ss[j].net[k].from)
            && (n.role.Leader? ==> ss[j].net[k].from == i)
  {
    LogRun(c, ss, acts, j);
    assert NodeLogOk(ss[j], i) && LeaderOk(ss[j], i) && MessageOk(ss[j], k);
  }
}
