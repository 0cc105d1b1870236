/** The part of query plans that filter pushdown touches, and the rows they give:
    scans, filters and nested-loop joins over any other source. */
module SqlPlan {
  import opened Basics
  import opened SqlExpression

  datatype Node =
    | Scan(table: seq<Row>, filter: Option<Expression>)
    | Filter(source: Node, condition: Expression)
    | NestedLoopJoin(left: Node, leftSize: nat, right: Node, rightSize: nat, on: Option<Expression>, outer: bool)
    | Source(rows: seq<Row>)

  /** A predicate lets a row through when it is true, not when false or null. */
  predicate Accepts(o: Ops, p: Expression, row: Row) {
    Eval(o, p, Some(row)) == Some(Boolean(true))
  }

  /** Evaluating to anything but a boolean or null fails the query. */
  predicate Clean(o: Ops, p: Expression, row: Row) {
    var v := Eval(o, p, Some(row));
    v.Some? && (v.value.Boolean? || v.value.Null?)
  }

  predicate AcceptsOpt(o: Ops, p: Option<Expression>, row: Row) {
    p.None? || Accepts(o, p.value, row)
  }

  predicate CleanOpt(o: Ops, p: Option<Expression>, row: Row) {
    p.None? || Clean(o, p.value, row)
  }

  function Select(o: Ops, rows: seq<Row>, p: Option<Expression>): seq<Row> {
    if rows == [] then []
    else (if AcceptsOpt(o, p, rows[0]) then [rows[0]] else []) + Select(o, rows[1..], p)
  }

  /** The joined rows of one left row. */
  function Hits(o: Ops, l: Row, right: seq<Row>, p: Option<Expression>): seq<Row> {
    if right == [] then []
    else (if AcceptsOpt(o, p, l + right[0]) then [l + right[0]] else []) + Hits(o, l, right[1..], p)
  }

  function Nulls(n: nat): Row {
    seq(n, i => Null)
  }

  /** A left row without a match shows up once in an outer join, padded. */
  function JoinRow(o: Ops, l: Row, right: seq<Row>, p: Option<Expression>, outer: bool, width: nat): seq<Row> {
    var hits := Hits(o, l, right, p);
    if outer && hits == [] then [l + Nulls(width)] else hits
  }

  function JoinRows(o: Ops, left: seq<Row>, right: seq<Row>, p: Option<Expression>, outer: bool, width: nat): seq<Row> {
    if left == [] then []
    else JoinRow(o, left[0], right, p, outer, width) + JoinRows(o, left[1..], right, p, outer, width)
  }

  function Rows(o: Ops, n: Node): seq<Row> {
    match n
    case Scan(table, filter) => Select(o, table, filter)
    case Filter(source, p) => Select(o, Rows(o, source), Some(p))
    case NestedLoopJoin(left, _, right, width, p, outer) => JoinRows(o, Rows(o, left), Rows(o, right), p, outer, width)
    case Source(rows) => rows
  }

  predicate CleanPairs(o: Ops, left: seq<Row>, right: seq<Row>, p: Option<Expression>) {
    forall l, r :: l in left && r in right ==> CleanOpt(o, p, l + r)
  }

  /** No predicate of the plan fails on a row it is evaluated on. */
  predicate NoErrors(o: Ops, n: Node) {
    match n
    case Scan(table, filter) => forall row :: row in table ==> CleanOpt(o, filter, row)
    case Filter(source, p) => NoErrors(o, source) && forall row :: row in Rows(o, source) ==> Clean(o, p, row)
    case NestedLoopJoin(left, _, right, _, p, _) =>
      NoErrors(o, left) && NoErrors(o, right) && CleanPairs(o, Rows(o, left), Rows(o, right), p)
    case Source(_) => true
  }

  // ---- The nested-loop iterator ----

  datatype JoinSpec = JoinSpec(left: seq<Row>, right: seq<Row>, on: Option<Expression>, outer: bool, width: nat)

  /** What a join still returns: the rest of the current left row, whose right
      rows were tried up to some position, and all later left rows. */
  ghost function Remaining(o: Ops, j: JoinSpec, leftPos: nat, rightPos: nat, hit: bool): seq<Row>
    requires leftPos <= |j.left| && rightPos <= |j.right|
  {
    if leftPos == |j.left| then []
    else
      var hits := Hits(o, j.left[leftPos], j.right[rightPos..], j.on);
      (if j.outer && !hit && hits == [] then [j.left[leftPos] + Nulls(j.width)] else hits)
      + JoinRows(o, j.left[leftPos + 1..], j.right, j.on, j.outer, j.width)
  }

  lemma {:induction false} RemainingAtStart(o: Ops, j: JoinSpec, leftPos: nat)
    requires leftPos <= |j.left|
    ensures Remaining(o, j, leftPos, 0, false) == JoinRows(o, j.left[leftPos..], j.right, j.on, j.outer, j.width)
  {
    assert j.right[0..] == j.right;
    if leftPos < |j.left| {
      assert j.left[leftPos..][0] == j.left[leftPos] && j.left[leftPos..][1..] == j.left[leftPos + 1..];
    }
  }

  lemma {:induction false} RemainingHit(o: Ops, j: JoinSpec, leftPos: nat, rightPos: nat, rightPos': nat, hit: bool,
                                        row: Row)
    requires leftPos < |j.left| && rightPos <= |j.right| && rightPos' <= |j.right|
    requires Hits(o, j.left[leftPos], j.right[rightPos..], j.on)
             == [row] + Hits(o, j.left[leftPos], j.right[rightPos'..], j.on)
    ensures Remaining(o, j, leftPos, rightPos, hit) == [row] + Remaining(o, j, leftPos, rightPos', true)
  {
    var l := j.left[leftPos];
    var hits, hits' := Hits(o, l, j.right[rightPos..], j.on), Hits(o, l, j.right[rightPos'..], j.on);
    var later := JoinRows(o, j.left[leftPos + 1..], j.right, j.on, j.outer, j.width);
    assert hits[0] == row;
    assert Remaining(o, j, leftPos, rightPos, hit) == hits + later;
    assert Remaining(o, j, leftPos, rightPos', true) == hits' + later;
    assert ([row] + hits') + later == [row] + (hits' + later);
  }

  /** With no right row left to match, `rest` is what comes after this left row, an outer row first where one is due. */
  ghost predicate Misses(o: Ops, j: JoinSpec, leftPos: nat, rest: seq<Row>, hit: bool)
    requires leftPos < |j.left|
  {
    var next := Remaining(o, j, leftPos + 1, 0, false);
    rest == if j.outer && !hit then [j.left[leftPos] + Nulls(j.width)] + next else next
  }

  lemma {:induction false} RemainingMiss(o: Ops, j: JoinSpec, leftPos: nat, rightPos: nat, hit: bool)
    requires leftPos < |j.left| && rightPos <= |j.right|
    requires Hits(o, j.left[leftPos], j.right[rightPos..], j.on) == []
    ensures Misses(o, j, leftPos, Remaining(o, j, leftPos, rightPos, hit), hit)
  {
    RemainingAtStart(o, j, leftPos + 1);
  }

  /** A pair on which the predicate neither fails nor passes. */
  ghost predicate Passed(o: Ops, j: JoinSpec, a: nat, b: nat) {
    a < |j.left| && b < |j.right| ==>
      CleanOpt(o, j.on, j.left[a] + j.right[b]) && !AcceptsOpt(o, j.on, j.left[a] + j.right[b])
  }

  /** All pairs from one position up to another, left rows first, were passed over. */
  ghost predicate PassedOver(o: Ops, j: JoinSpec, a: nat, b: nat, a': nat, b': nat) {
    forall x: nat, y: nat :: (a < x || (a == x && b <= y)) && (x < a' || (x == a' && y < b')) ==> Passed(o, j, x, y)
  }

  /** The pair before a position is one on which the predicate fails. */
  ghost predicate FailsAt(o: Ops, j: JoinSpec, a: nat, b: nat) {
    a < |j.left| && 0 < b <= |j.right| && !CleanOpt(o, j.on, j.left[a] + j.right[b - 1])
  }

  lemma PassOver(o: Ops, j: JoinSpec, a: nat, b: nat, a': nat, b': nat)
    requires PassedOver(o, j, a, b, a', b') && Passed(o, j, a', b')
    ensures PassedOver(o, j, a, b, a', b' + 1)
  {
  }

  lemma PassRow(o: Ops, j: JoinSpec, a: nat, b: nat, a': nat)
    requires PassedOver(o, j, a, b, a', |j.right|)
    ensures PassedOver(o, j, a, b, a' + 1, 0)
  {
  }

  /** The iterator over joined rows. `None` from the outer option is an error. */
  class NestedLoopRows {
    const j: JoinSpec
    /** The current left row, and how far its right rows were tried. */
    var leftPos: nat
    var rightPos: nat
    var rightHit: bool

    ghost predicate Valid()
      reads this
    {
      leftPos <= |j.left| && rightPos <= |j.right|
    }

    /** What is still to come. */
    ghost function Rest(o: Ops): seq<Row>
      requires Valid()
      reads this
    {
      Remaining(o, j, leftPos, rightPos, rightHit)
    }

    constructor (ghost o: Ops, j: JoinSpec)
      ensures Valid() && this.j == j
      ensures Rest(o) == JoinRows(o, j.left, j.right, j.on, j.outer, j.width)
    {
      this.j := j;
      leftPos, rightPos, rightHit := 0, 0, false;
      new;
      RemainingAtStart(o, j, 0);
      assert j.left[0..] == j.left;
    }

    /** Tries the remaining right rows of a left row, all pairs from (a, b) on having been
        passed over so far. */
    method TryNextHit(o: Ops, l: Row, ghost a: nat, ghost b: nat) returns (r: Option<Option<Row>>)
      requires Valid() && leftPos < |j.left| && l == j.left[leftPos] && PassedOver(o, j, a, b, leftPos, rightPos)
      modifies this`rightPos
      ensures Valid()
      ensures match r
              case None =>
                FailsAt(o, j, leftPos, rightPos) && PassedOver(o, j, a, b, leftPos, rightPos - 1)
              case Some(None) =>
                && rightPos == |j.right| && Misses(o, j, leftPos, old(Rest(o)), rightHit)
                && PassedOver(o, j, a, b, leftPos + 1, 0)
              case Some(Some(row)) =>
                old(rightPos) < rightPos && old(Rest(o)) == [row] + Remaining(o, j, leftPos, rightPos, true)
    {
      ghost var pos := rightPos;
      while rightPos < |j.right|
        invariant Valid() && pos <= rightPos
        invariant Hits(o, l, j.right[pos..], j.on) == Hits(o, l, j.right[rightPos..], j.on)
        invariant PassedOver(o, j, a, b, leftPos, rightPos)
        decreases |j.right| - rightPos
      {
        var x := j.right[rightPos];
        assert j.right[rightPos..][0] == x && j.right[rightPos..][1..] == j.right[rightPos + 1..];
        rightPos := rightPos + 1;
        if j.on.Some? {
          match Eval(o, j.on.value, Some(l + x))
          case Some(Boolean(passes)) =>
            if passes {
              RemainingHit(o, j, leftPos, pos, rightPos, rightHit, l + x);
              return Some(Some(l + x));
            }
          case Some(Null) =>
          case _ =>
            return None;
        } else {
          RemainingHit(o, j, leftPos, pos, rightPos, rightHit, l + x);
          return Some(Some(l + x));
        }
        PassOver(o, j, a, b, leftPos, rightPos - 1);
      }
      PassRow(o, j, a, b, leftPos);
      RemainingMiss(o, j, leftPos, pos, rightHit);
      r := Some(None);
    }

    /** The next joined row of the current left row, or on to the next left row. */
    method TryRow(o: Ops, ghost a: nat, ghost b: nat) returns (r: Option<Option<Row>>)
      requires Valid() && leftPos < |j.left| && PassedOver(o, j, a, b, leftPos, rightPos)
      modifies this
      ensures Valid()
      ensures match r
              case None => FailsAt(o, j, leftPos, rightPos) && PassedOver(o, j, a, b, leftPos, rightPos - 1)
              case Some(None) =>
                leftPos == old(leftPos) + 1 && Rest(o) == old(Rest(o)) && PassedOver(o, j, a, b, leftPos, rightPos)
              case Some(Some(row)) => old(Rest(o)) == [row] + Rest(o)
    {
      var l := j.left[leftPos];
      r := TryNextHit(o, l, a, b);
      if r.None? {
        return;
      }
      if r.value.Some? {
        rightHit := true;
        return;
      }
      leftPos, rightPos := leftPos + 1, 0;
      if j.outer && !rightHit {
        return Some(Some(l + Nulls(j.width)));
      }
      rightHit := false;
    }

    /** The next joined row. An error is that of the first pair on which the predicate
        fails, no row being due before it. */
    method TryNext(o: Ops) returns (r: Option<Option<Row>>)
      requires Valid()
      modifies this
      ensures Valid()
      ensures match r
              case None =>
                FailsAt(o, j, leftPos, rightPos) && PassedOver(o, j, old(leftPos), old(rightPos), leftPos, rightPos - 1)
              case Some(None) => leftPos == |j.left| && old(Rest(o)) == []
              case Some(Some(row)) => old(Rest(o)) == [row] + Rest(o)
    {
      while leftPos < |j.left|
        invariant Valid() && Rest(o) == old(Rest(o))
        invariant PassedOver(o, j, old(leftPos), old(rightPos), leftPos, rightPos)
        decreases |j.left| - leftPos
      {
        r := TryRow(o, old(leftPos), old(rightPos));
        if r != Some(None) {
          return;
        }
      }
      r := Some(None);
    }
  }
}
