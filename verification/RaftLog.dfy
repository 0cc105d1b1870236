/** The durable Raft log: a key/value engine with cached last and commit
    positions, proved to keep the sequence of entries that the node model uses. */
module RaftLog {
  import opened Basics
  import opened RaftTypes
  import RaftNode

  type Stored = (Term, Option<Command>)

  /** The engine holds exactly these entries, at indexes from 1 on. */
  ghost predicate Holds(engine: map<Index, Stored>, es: seq<Entry>) {
    && (forall i :: i in engine <==> 1 <= i <= |es|)
    && (forall i :: 0 <= i < |es| ==> es[i] == Entry(i + 1, engine[i + 1].0, engine[i + 1].1))
  }

  class Log {
    // The engine: one key per entry index, one for term and vote, one for the
    // commit position.
    var engine: map<Index, Stored>
    var termVote: Option<(Term, Option<NodeID>)>
    var commitKey: Option<(Index, Term)>
    // Cached positions.
    var lastIndex: Index
    var lastTerm: Term
    var commitIndex: Index
    var commitTerm: Term

    // The entries, as a sequence.
    ghost var entries: seq<Entry>

    ghost predicate Valid()
      reads this
    {
      && Holds(engine, entries) && lastIndex == |entries|
      && lastTerm == LastTerm(entries)
      && (commitIndex, commitTerm) == commitKey.GetOr((0, 0))
    }

    ghost function Value(): RaftTypes.Log
      reads this
    {
      RaftTypes.Log(entries, commitIndex, commitTerm)
    }

    function GetTerm(): (Term, Option<NodeID>)
      reads this
    {
      termVote.GetOr((0, None))
    }

    /** Opens a log on what an engine holds, finding the last entry. */
    constructor (engine: map<Index, Stored>, termVote: Option<(Term, Option<NodeID>)>, commitKey: Option<(Index, Term)>,
                 ghost count: nat)
      requires forall i :: i in engine <==> 1 <= i <= count
      ensures Valid() && this.engine == engine && this.termVote == termVote && this.commitKey == commitKey
      ensures |entries| == count
    {
      this.engine, this.termVote, this.commitKey := engine, termVote, commitKey;
      commitIndex, commitTerm := commitKey.GetOr((0, 0)).0, commitKey.GetOr((0, 0)).1;
      var last := 0;
      while last + 1 in engine
        invariant last <= count
        decreases count - last
      {
        last := last + 1;
      }
      lastIndex := last;
      lastTerm := if last == 0 then 0 else engine[last].0;
      entries := seq(last, i requires 0 <= i < last => Entry(i + 1, engine[i + 1].0, engine[i + 1].1));
    }

    method SetTerm(term: Term, vote: Option<NodeID>)
      requires Valid()
      modifies this
      ensures Valid() && Value() == old(Value()) && GetTerm() == (term, vote)
    {
      termVote := Some((term, vote));
    }

    method Append(term: Term, command: Option<Command>) returns (index: Index)
      requires Valid()
      modifies this
      ensures Valid() && GetTerm() == old(GetTerm())
      ensures index == |old(entries)| + 1
      ensures Value() == old(Value()).(entries := old(entries) + [Entry(index, term, command)])
    {
      index := lastIndex + 1;
      engine := engine[index := (term, command)];
      lastIndex, lastTerm := index, term;
      entries := entries + [Entry(index, term, command)];
    }

    method Get(index: Index) returns (entry: Option<Entry>)
      requires Valid()
      ensures entry == if 1 <= index <= |entries| then Some(entries[index - 1]) else None
    {
      entry := if index in engine then Some(Entry(index, engine[index].0, engine[index].1)) else None;
    }

    method HasEntry(index: Index, term: Term) returns (has: bool)
      requires Valid()
      ensures has == Has(entries, index, term)
    {
      var entry := Get(index);
      match entry
      case Some(e) => has := e.term == term;
      case None => has := index == 0 && term == 0;
    }

    /** Moves the commit position to an existing entry; it may not move back. */
    method Commit(index: Index) returns (ok: bool)
      requires Valid()
      modifies this
      ensures Valid() && GetTerm() == old(GetTerm()) && entries == old(entries)
      ensures ok == (old(commitIndex) <= index && 1 <= index <= |entries|)
      ensures Value() == if ok then RaftTypes.Log(entries, index, entries[index - 1].term) else old(Value())
    {
      if index < commitIndex {
        return false;
      }
      var entry := Get(index);
      if entry.None? {
        return false;
      }
      commitKey := Some((index, entry.value.term));
      commitIndex, commitTerm := index, entry.value.term;
      ok := true;
    }

    /** All entries from an index on. */
    method Scan(from: Index) returns (es: seq<Entry>)
      requires Valid() && 1 <= from
      ensures es == if from <= |entries| + 1 then entries[from - 1..] else []
    {
      es := [];
      var i := from;
      while i <= lastIndex
        invariant from <= i && |es| == i - from && (i <= lastIndex + 1 || i == from)
        invariant i <= lastIndex + 1 ==> es == entries[from - 1..i - 1]
      {
        es := es + [Entry(i, engine[i].0, engine[i].1)];
        i := i + 1;
      }
    }

    method Contiguous(es: seq<Entry>) returns (ok: bool)
      ensures ok == RaftTypes.Contiguous(es)
    {
      var i := 0;
      while i + 1 < |es|
        invariant 0 <= i && (i <= |es| - 1 || i == 0)
        invariant forall j :: 0 <= j < i ==> ContiguousAt(es, j)
      {
        if es[i].index + 1 != es[i + 1].index {
          assert !ContiguousAt(es, i);
          return false;
        }
        i := i + 1;
      }
      ok := true;
    }

    /** Contiguous entries that start within or right after the log. */
    method Fits(es: seq<Entry>) returns (ok: bool)
      requires Valid() && es != []
      ensures ok == (1 <= es[0].index <= |entries| + 1 && RaftTypes.Contiguous(es))
      ensures ok ==> forall j :: 0 <= j < |es| ==> es[j].index == es[0].index + j
    {
      if es[0].index == 0 || es[0].index > lastIndex + 1 {
        return false;
      }
      ok := Contiguous(es);
      if ok {
        IndexesFrom(es);
      }
    }

    /** How many leading entries are already in the log, by index and term. */
    method Skip(es: seq<Entry>) returns (k: nat)
      requires Valid() && es != [] && 1 <= es[0].index <= lastIndex + 1
      ensures k == RaftNode.Matched(entries, es[0].index, es, 0)
    {
      k := 0;
      ghost var log := entries;
      while k < |es| && es[0].index + k in engine && engine[es[0].index + k].0 == es[k].term
        invariant k <= |es| && es[0].index - 1 + k <= lastIndex
        invariant forall j :: 0 <= j < k ==> log[es[0].index - 1 + j].term == es[j].term
      {
        assert log[es[0].index + k - 1].term == es[k].term;
        k := k + 1;
      }
      assert es[0].index + k <= lastIndex ==> log[es[0].index + k - 1].term == engine[es[0].index + k].0;
      MatchedIs(log, es[0].index, es, 0, k);
    }

    /** Writes the entries from the k-th on at their own indexes. */
    method WriteAll(es: seq<Entry>, k: nat)
      requires es != [] && k <= |es| && forall j :: 0 <= j < |es| ==> es[j].index == es[0].index + j
      modifies this`engine
      ensures Written(old(engine), es, k, engine)
    {
      var x := k;
      ghost var first := es[0].index;
      while x < |es|
        invariant k <= x <= |es|
        invariant forall i :: i in engine <==> i in old(engine) || first + k <= i < first + x
        invariant forall i :: i in engine && first + k <= i < first + x ==>
                    engine[i] == (es[i - first].term, es[i - first].command)
        invariant forall i :: i in engine && !(first + k <= i < first + x) ==> engine[i] == old(engine)[i]
      {
        engine := engine[es[x].index := (es[x].term, es[x].command)];
        x := x + 1;
      }
    }

    /** Removes the entries in an index range. */
    method DeleteAll(from: Index, to: Index)
      modifies this`engine
      ensures engine == map i | i in old(engine) && !(from <= i <= to) :: old(engine)[i]
    {
      var k := from;
      while k <= to
        invariant from <= k && (k <= to + 1 || k == from)
        invariant engine == map i | i in old(engine) && !(from <= i < k) :: old(engine)[i]
      {
        engine := engine - {k};
        k := k + 1;
      }
    }

    /** Writes the entries from the k-th on and cuts what follows the last. */
    method Replace(es: seq<Entry>, k: nat)
      requires Valid() && es != [] && k <= |es| && 1 <= es[0].index && es[0].index - 1 + k <= lastIndex
      requires forall j :: 0 <= j < |es| ==> es[j].index == es[0].index + j
      requires forall j :: 0 <= j < k ==> entries[es[0].index - 1 + j].term == es[j].term
      modifies this
      ensures Valid() && GetTerm() == old(GetTerm())
      ensures Value() == old(Value()).(entries := old(entries)[..es[0].index - 1 + k] + es[k..])
    {
      Rewrite(es, k);
      entries := entries[..es[0].index - 1 + k] + es[k..];
      lastIndex, lastTerm := es[|es| - 1].index, es[|es| - 1].term;
    }

    /** The engine after the write and delete loops. */
    method Rewrite(es: seq<Entry>, k: nat)
      requires Valid() && es != [] && k <= |es| && 1 <= es[0].index && es[0].index - 1 + k <= lastIndex
      requires forall j :: 0 <= j < |es| ==> es[j].index == es[0].index + j
      requires forall j :: 0 <= j < k ==> entries[es[0].index - 1 + j].term == es[j].term
      modifies this`engine
      ensures Holds(engine, entries[..es[0].index - 1 + k] + es[k..])
      ensures var spliced := entries[..es[0].index - 1 + k] + es[k..];
              |spliced| == es[|es| - 1].index && LastTerm(spliced) == es[|es| - 1].term
    {
      ghost var before := engine;
      WriteAll(es, k);
      ghost var written := engine;
      DeleteAll(es[|es| - 1].index + 1, lastIndex);
      ReplacedEntries(before, entries, es, k, written, engine, entries[..es[0].index - 1 + k] + es[k..]);
    }

    /** Splices entries: skips what matches, writes the rest, and cuts the tail.
        An error leaves the log as it was. */
    method Splice(es: seq<Entry>) returns (ok: bool)
      requires Valid()
      modifies this
      ensures Valid() && GetTerm() == old(GetTerm())
      ensures var spliced := RaftNode.Splice(old(entries), old(commitIndex), es);
              ok == spliced.Some? && Value() == old(Value()).(entries := spliced.GetOr(old(entries)))
    {
      ghost var spliced := RaftNode.Splice(entries, commitIndex, es);
      if es == [] {
        return true;
      }
      var fits := Fits(es);
      if !fits {
        assert spliced == None;
        return false;
      }
      var k := Skip(es);
      if k < |es| && es[k].index <= commitIndex {
        assert spliced == None;
        return false;
      }
      assert spliced == Some(entries[..es[0].index - 1 + k] + es[k..]);
      Replace(es, k);
      ok := true;
    }
  }

  lemma {:induction false} MatchedIs(log: seq<Entry>, first: Index, es: seq<Entry>, i: nat, k: nat)
    requires 1 <= first && i <= k <= |es| && first - 1 + k <= |log|
    requires forall j :: i <= j < k ==> log[first - 1 + j].term == es[j].term
    requires k < |es| && first - 1 + k < |log| ==> log[first - 1 + k].term != es[k].term
    ensures RaftNode.Matched(log, first, es, i) == k
    decreases k - i
  {
    if i < k {
      MatchedIs(log, first, es, i + 1, k);
    }
  }

  /** What the write loop leaves in the engine. */
  ghost predicate Written(engine: map<Index, Stored>, es: seq<Entry>, k: nat, engine': map<Index, Stored>)
    requires es != [] && k <= |es|
  {
    var first := es[0].index;
    && (forall i :: i in engine' <==> i in engine || first + k <= i < first + |es|)
    && (forall i :: i in engine' && first + k <= i < first + |es| ==>
          engine'[i] == (es[i - first].term, es[i - first].command))
    && (forall i :: i in engine' && !(first + k <= i < first + |es|) ==> engine'[i] == engine[i])
  }

  lemma RewrittenBy(engine: map<Index, Stored>, es: seq<Entry>, k: nat, written: map<Index, Stored>, lastIndex: Index,
                    engine': map<Index, Stored>)
    requires es != [] && k <= |es| && es[|es| - 1].index == es[0].index + |es| - 1
    requires Written(engine, es, k, written) && forall i :: i in engine ==> i <= lastIndex
    requires engine' == map i | i in written && !(es[|es| - 1].index + 1 <= i <= lastIndex) :: written[i]
    ensures Rewritten(engine, es, k, engine')
  {
  }

  /** What the write and delete loops leave in the engine. */
  ghost predicate Rewritten(engine: map<Index, Stored>, es: seq<Entry>, k: nat, engine': map<Index, Stored>)
    requires es != [] && k <= |es|
  {
    var first := es[0].index;
    && (forall i :: i in engine' <==> i < first + |es| && (i in engine || first + k <= i))
    && (forall i :: i in engine' && first + k <= i ==> engine'[i] == (es[i - first].term, es[i - first].command))
    && (forall i :: i in engine' && i < first + k ==> i in engine && engine'[i] == engine[i])
  }

  lemma SplicedEntries(engine: map<Index, Stored>, was: seq<Entry>, es: seq<Entry>, k: nat,
                       engine': map<Index, Stored>, spliced: seq<Entry>)
    requires es != [] && k <= |es| && 1 <= es[0].index && es[0].index - 1 + k <= |was|
    requires Holds(engine, was)
    requires forall j :: 0 <= j < |es| ==> es[j].index == es[0].index + j
    requires forall j :: 0 <= j < k ==> was[es[0].index - 1 + j].term == es[j].term
    requires Rewritten(engine, es, k, engine')
    requires spliced == was[..es[0].index - 1 + k] + es[k..]
    ensures Holds(engine', spliced) && |spliced| == es[|es| - 1].index && LastTerm(spliced) == es[|es| - 1].term
  {
    forall x | 0 <= x < |spliced| ensures spliced[x] == Entry(x + 1, engine'[x + 1].0, engine'[x + 1].1) {
      if x >= es[0].index - 1 + k {
        assert spliced[x] == es[x + 1 - es[0].index];
      } else {
        assert spliced[x] == was[x];
      }
    }
  }

  lemma ReplacedEntries(engine: map<Index, Stored>, was: seq<Entry>, es: seq<Entry>, k: nat,
                        written: map<Index, Stored>, engine': map<Index, Stored>, spliced: seq<Entry>)
    requires es != [] && k <= |es| && 1 <= es[0].index && es[0].index - 1 + k <= |was| && Holds(engine, was)
    requires forall j :: 0 <= j < |es| ==> es[j].index == es[0].index + j
    requires forall j :: 0 <= j < k ==> was[es[0].index - 1 + j].term == es[j].term
    requires Written(engine, es, k, written)
    requires engine' == map i | i in written && !(es[|es| - 1].index + 1 <= i <= |was|) :: written[i]
    requires spliced == was[..es[0].index - 1 + k] + es[k..]
    ensures Holds(engine', spliced) && |spliced| == es[|es| - 1].index && LastTerm(spliced) == es[|es| - 1].term
  {
    RewrittenBy(engine, es, k, written, |was|, engine');
    SplicedEntries(engine, was, es, k, engine', spliced);
  }

  lemma {:induction false} IndexesFrom(es: seq<Entry>)
    requires es != [] && Contiguous(es)
    ensures forall j :: 0 <= j < |es| ==> es[j].index == es[0].index + j
  {
    if |es| > 1 {
      var rest := es[..|es| - 1];
      forall j: nat | j < |rest| ensures ContiguousAt(rest, j) {
        assert ContiguousAt(es, j);
      }
      IndexesFrom(rest);
      assert rest[|es| - 2].index == es[0].index + |es| - 2;
      assert ContiguousAt(es, |es| - 2);
    }
  }
}
