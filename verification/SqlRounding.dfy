/** Lookups that are transferred from a float to an integer field. Comparing the two rounds
    the integer, so that a float can be equal to several integers. Exactly when this loses
    rows, for every lookup and every two fields. */
module SqlRounding {
  import opened Basics
  import opened SqlExpression
  import opened SqlPlan
  import opened SqlPushdown
  import opened SqlOptimize

  /** A join of two fields, with a lookup on one of them. */
  function LookupJoin(i: nat, j: nat, e: Expression): Expression {
    And(Equal(Field(i), Field(j)), e)
  }

  /** The join of two tables on that predicate. */
  function JoinOf(p: Expression, left: seq<Row>, b: nat, right: seq<Row>, width: nat): Node {
    NestedLoopJoin(Scan(left, None), b, Scan(right, None), width, Some(p), false)
  }

  // ---- What is pushed down ----

  /** A lookup is a single conjunct and stays as it is. */
  lemma {:induction false} LookupIsCnf(e: Expression, field: nat)
    requires AsLookup(e, field).Some?
    ensures IntoNnf(e) == e && DistributeAll(e) == e && !e.And?
  {
    if e.Or? {
      LookupIsCnf(e.l, field);
      LookupIsCnf(e.r, field);
    }
  }

  lemma {:induction false} LookupRefs(e: Expression, field: nat, b: nat)
    requires AsLookup(e, field).Some?
    ensures RefsRight(e, b) <==> field >= b
    ensures RefsLeft(e, b) <==> field < b
  {
    if e.Or? {
      LookupRefs(e.l, field, b);
      LookupRefs(e.r, field, b);
    } else if e.Equal? {
      assert RefsRight(Field(field), b) <==> field >= b;
      assert RefsLeft(Field(field), b) <==> field < b;
    }
  }

  lemma OnlyTwo(x: Expression, y: Expression, keep: Expression -> bool)
    ensures Only([x, y], keep) == (if keep(x) then [x] else []) + if keep(y) then [y] else []
  {
    assert [x, y][1..] == [y];
    OnlyOne(y, keep);
  }

  /** Two fields, one of each source. */
  predicate Across(i: nat, j: nat, b: nat) {
    i < b <= j || j < b <= i
  }

  lemma LookupConjuncts(i: nat, j: nat, e: Expression)
    requires AsLookup(e, j).Some?
    ensures Conjuncts(IntoCnf(LookupJoin(i, j, e))) == [Equal(Field(i), Field(j)), e]
  {
    var p, eq := LookupJoin(i, j, e), Equal(Field(i), Field(j));
    LookupIsCnf(e, j);
    assert IntoNnf(p) == And(IntoNnf(eq), IntoNnf(e)) && IntoNnf(eq) == eq;
    assert IntoCnf(p) == And(DistributeAll(eq), DistributeAll(e)) && DistributeAll(eq) == eq;
    assert Conjuncts(p) == Conjuncts(eq) + Conjuncts(e) == [eq, e];
  }

  lemma LookupSplit(i: nat, j: nat, b: nat, e: Expression)
    requires Across(i, j, b) && AsLookup(e, j).Some?
    ensures var eq := Equal(Field(i), Field(j));
            Split([eq, e], b) == if i < b then Parts([], [e], [eq]) else Parts([e], [], [eq])
  {
    var eq := Equal(Field(i), Field(j));
    LookupRefs(e, j, b);
    assert RefsRight(eq.l, b) || RefsRight(eq.r, b);
    assert RefsLeft(eq.l, b) || RefsLeft(eq.r, b);
    OnlyTwo(eq, e, x => !RefsRight(x, b));
    OnlyTwo(eq, e, x => RefsRight(x, b) && !RefsLeft(x, b));
    OnlyTwo(eq, e, x => RefsRight(x, b) && RefsLeft(x, b));
  }

  /** The lookup goes to its own source, and a copy of it to the other one. */
  lemma LookupParts(i: nat, j: nat, b: nat, e: Expression)
    requires Across(i, j, b) && AsLookup(e, j).Some?
    ensures var p, eq, copy := LookupJoin(i, j, e), Equal(Field(i), Field(j)), FromLookup(i, AsLookup(e, j).value);
            && Split(Conjuncts(IntoCnf(p)), b) == (if i < b then Parts([], [e], [eq]) else Parts([e], [], [eq]))
            && Parted(p, b) == (if i < b then Parts([copy], [e], [eq]) else Parts([e], [copy], [eq]))
            && Transferred(p, b) == [copy]
  {
    var p, eq, copy := LookupJoin(i, j, e), Equal(Field(i), Field(j)), FromLookup(i, AsLookup(e, j).value);
    LookupConjuncts(i, j, e);
    LookupSplit(i, j, b, e);
    var parts := Split([eq, e], b);
    assert FindLookup([e], j) == AsLookup(e, j);
    assert parts.rest[1..] == [];
    assert Transfer(parts.rest, parts) == TransferOne(eq, parts);
    assert [] + [copy] == [copy];
  }

  // ---- When rows are lost ----

  /** A row of nulls but for two fields. */
  function TwoFields(n: nat, i: nat, x: Value, j: nat, y: Value): (row: Row)
    ensures |row| == n && forall k :: 0 <= k < n ==> row[k] == if k == i then x else if k == j then y else Null
  {
    seq(n, k => if k == i then x else if k == j then y else Null)
  }

  /** Where the two fields are equal and the lookup finds one, the pair joins. */
  lemma PairJoins(o: Ops, i: nat, j: nat, e: Expression, row: Row)
    requires i < |row| && j < |row| && AsLookup(e, j).Some? && Eval(o, e, Some(row)).Some?
    requires Agree(o, row[i], row[j]) && Agree(o, row[j], row[i])
    requires Finds(o, row[j], AsLookup(e, j).value)
    ensures Accepts(o, LookupJoin(i, j, e), row)
    ensures Accepts(o, FromLookup(i, AsLookup(e, j).value), row) <==> Finds(o, row[i], AsLookup(e, j).value)
  {
    EvalEqual(o, Field(i), Field(j), row);
    LookupMeans(o, e, j, row);
    AndAccepts(o, Equal(Field(i), Field(j)), e, row);
    forall v | v in AsLookup(e, j).value ensures Comparable(row[i], v) {
      ComparableAlike(o, row[j], row[i], v);
    }
    FromLookupAccepts(o, i, AsLookup(e, j).value, row);
  }

  ghost predicate KeepsRows(o: Ops, n: Node) {
    Rows(o, PushDown(n)) == Rows(o, n)
  }

  lemma JoinOfKeepsIff(o: Ops, p: Expression, left: seq<Row>, b: nat, right: seq<Row>, width: nat)
    requires Joinable(o, p, left, right, b)
    ensures KeepsRows(o, JoinOf(p, left, b, right, width)) <==> AllHeld(o, p, left, right, b)
  {
    SelectNone(o, left);
    SelectNone(o, right);
    PushdownKeepsIff(o, p, Scan(left, None), Scan(right, None), b, width);
  }

  /** A row that joins and fails a transferred lookup is lost from a join of its parts. */
  lemma PairLost(o: Ops, p: Expression, l: Row, r: Row, width: nat)
    requires Eval(o, p, Some(l + r)).Some? && !Held(o, p, |l|, l + r)
    ensures !KeepsRows(o, JoinOf(p, [l], |l|, [r], width))
  {
    assert Joinable(o, p, [l], [r], |l|);
    JoinOfKeepsIff(o, p, [l], |l|, [r], width);
    assert l in [l] && r in [r];
  }

  lemma RowLost(o: Ops, p: Expression, b: nat, cols: seq<Kind>, row: Row) returns (left: seq<Row>, right: seq<Row>)
    requires b <= |cols| && RowOf(cols, row) && Eval(o, p, Some(row)).Some? && !Held(o, p, b, row)
    ensures RowsOf(cols[..b], left) && RowsOf(cols[b..], right)
    ensures !KeepsRows(o, JoinOf(p, left, b, right, |cols| - b))
  {
    var l, r := row[..b], row[b..];
    assert l + r == row;
    left, right := [l], [r];
    PairLost(o, p, l, r, |cols| - b);
  }

  /** An integer that a float in the lookup's field stands for, but the lookup does not
      find: the transferred lookup drops the row. */
  lemma RoundedNotHeld(o: Ops, i: nat, j: nat, b: nat, e: Expression, c: int, y: int, row: Row)
    requires Across(i, j, b) && i < |row| && j < |row| && row[i] == Integer(y) && row[j] == Float(o.toFloat(c))
    requires Eval(o, e, Some(row)).Some? && AsLookup(e, j).Some? && Integer(c) in AsLookup(e, j).value
    requires FloatEqual(o.toFloat(c), o.toFloat(y)) && !Finds(o, Integer(y), AsLookup(e, j).value)
    ensures Eval(o, LookupJoin(i, j, e), Some(row)).Some? && !Held(o, LookupJoin(i, j, e), b, row)
  {
    assert Agree(o, row[j], Integer(c));
    PairJoins(o, i, j, e, row);
    LookupParts(i, j, b, e);
    assert FromLookup(i, AsLookup(e, j).value) in Transferred(LookupJoin(i, j, e), b);
  }

  /** So the join of two rows loses its only row. */
  lemma RoundedRowLost(o: Ops, i: nat, j: nat, b: nat, e: Expression, cols: seq<Kind>, c: int, y: int)
    returns (left: seq<Row>, right: seq<Row>)
    requires Across(i, j, b) && i < |cols| && j < |cols| && cols[i] == IntegerKind && cols[j] == FloatKind
    requires CleanOver(o, e, cols) && AsLookup(e, j).Some? && Integer(c) in AsLookup(e, j).value
    requires FloatEqual(o.toFloat(c), o.toFloat(y)) && !Finds(o, Integer(y), AsLookup(e, j).value)
    ensures RowsOf(cols[..b], left) && RowsOf(cols[b..], right)
    ensures !KeepsRows(o, JoinOf(LookupJoin(i, j, e), left, b, right, |cols| - b))
  {
    var row := TwoFields(|cols|, i, Integer(y), j, Float(o.toFloat(c)));
    assert RowOf(cols, row);
    assert Clean(o, e, row);
    RoundedNotHeld(o, i, j, b, e, c, y, row);
    left, right := RowLost(o, LookupJoin(i, j, e), b, cols, row);
  }

  /** A lookup on a float field, joined with an integer field: all tables keep their rows,
      if and only if every integer that rounds like a value of the lookup is found by it. */
  lemma LookupJoinIff(o: Ops, i: nat, j: nat, b: nat, e: Expression, cols: seq<Kind>)
    requires Across(i, j, b) && i < |cols| && j < |cols| && cols[i] == IntegerKind && cols[j] == FloatKind
    requires CleanOver(o, e, cols) && AsLookup(e, j).Some?
    ensures (forall left, right :: RowsOf(cols[..b], left) && RowsOf(cols[b..], right) ==>
               KeepsRows(o, JoinOf(LookupJoin(i, j, e), left, b, right, |cols| - b)))
            <==> Closed(o, AsLookup(e, j).value)
  {
    if Closed(o, AsLookup(e, j).value) {
      forall left, right | RowsOf(cols[..b], left) && RowsOf(cols[b..], right)
        ensures KeepsRows(o, JoinOf(LookupJoin(i, j, e), left, b, right, |cols| - b))
      {
        ClosedKeeps(o, i, j, b, e, cols, left, right);
      }
    } else {
      var vs := AsLookup(e, j).value;
      var c, y :| Integer(c) in vs && FloatEqual(o.toFloat(c), o.toFloat(y)) && !Finds(o, Integer(y), vs);
      var left, right := RoundedRowLost(o, i, j, b, e, cols, c, y);
    }
  }

  lemma LookupJoinClean(o: Ops, i: nat, j: nat, e: Expression, cols: seq<Kind>)
    requires i < |cols| && j < |cols| && cols[i] == IntegerKind && cols[j] == FloatKind && CleanOver(o, e, cols)
    ensures CleanOver(o, LookupJoin(i, j, e), cols)
  {
    var eq := Equal(Field(i), Field(j));
    assert !RefsRight(eq.l, |cols|) && !RefsRight(eq.r, |cols|);
    forall row | RowOf(cols, row) ensures Clean(o, eq, row) {
      EvalEqual(o, Field(i), Field(j), row);
      assert OfKind(cols[i], row[i]) && OfKind(cols[j], row[j]);
    }
    AndCleanOver(o, eq, e, cols);
  }

  lemma ClosedKeeps(o: Ops, i: nat, j: nat, b: nat, e: Expression, cols: seq<Kind>, left: seq<Row>, right: seq<Row>)
    requires Across(i, j, b) && i < |cols| && j < |cols| && cols[i] == IntegerKind && cols[j] == FloatKind
    requires CleanOver(o, e, cols) && AsLookup(e, j).Some? && Closed(o, AsLookup(e, j).value)
    requires RowsOf(cols[..b], left) && RowsOf(cols[b..], right)
    ensures KeepsRows(o, JoinOf(LookupJoin(i, j, e), left, b, right, |cols| - b))
  {
    var p, n := LookupJoin(i, j, e), JoinOf(LookupJoin(i, j, e), left, b, right, |cols| - b);
    var eq := Equal(Field(i), Field(j));
    LookupJoinClean(o, i, j, e, cols);
    LookupParts(i, j, b, e);
    var parts := if i < b then Parts([], [e], [eq]) else Parts([e], [], [eq]);
    assert FindLookup([e], j) == AsLookup(e, j);
    assert SafeOne(o, eq, parts, cols);
    assert parts.rest[1..] == [];
    assert SafeAll(o, parts.rest, parts, cols);
    PushDownKeeps(o, n, cols);
  }

  /** Two integers that round to the same float, as 2^53 and 2^53 + 1 do: a join that has a
      row loses it, when the lookup for one goes over to the column that has the other. */
  lemma RoundedJoinLoses(o: Ops, c: int, y: int, p: Expression, n: Node)
    requires c != y && FloatEqual(o.toFloat(c), o.toFloat(y))
    requires p == LookupJoin(0, 1, Equal(Field(1), Constant(Integer(c))))
    requires n == JoinOf(p, [[Integer(y)]], 1, [[Float(o.toFloat(c))]], 1)
    ensures Typed(o, n, [IntegerKind, FloatKind]) && Rows(o, n) == [[Integer(y), Float(o.toFloat(c))]]
    ensures Rows(o, PushDown(n)) == Rows(o, Optimize(n)) == []
  {
    var e := Equal(Field(1), Constant(Integer(c)));
    RoundedRows(o, c, y, e, p, n);
    assert AsLookup(e, 1) == Some([Integer(c)]);
    LookupParts(0, 1, 1, e);
    NothingLeft(o, c, y, n, e);
  }

  lemma RoundedRows(o: Ops, c: int, y: int, e: Expression, p: Expression, n: Node)
    requires c != y && FloatEqual(o.toFloat(c), o.toFloat(y))
    requires e == Equal(Field(1), Constant(Integer(c))) && p == LookupJoin(0, 1, e)
    requires n == JoinOf(p, [[Integer(y)]], 1, [[Float(o.toFloat(c))]], 1)
    ensures Typed(o, n, [IntegerKind, FloatKind]) && Rows(o, n) == [[Integer(y), Float(o.toFloat(c))]]
  {
    var l, r, cols := [Integer(y)], [Float(o.toFloat(c))], [IntegerKind, FloatKind];
    RoundedTyped(o, c, e, cols);
    LookupJoinClean(o, 0, 1, e, cols);
    assert cols[..1] == [IntegerKind] && cols[1..] == [FloatKind];
    SelectNone(o, [l]);
    SelectNone(o, [r]);
    RoundedAccepts(o, c, y, e, l + r);
    OneRowJoin(o, l, r, p);
    assert l + r == [Integer(y), Float(o.toFloat(c))];
  }

  lemma RoundedTyped(o: Ops, c: int, e: Expression, cols: seq<Kind>)
    requires e == Equal(Field(1), Constant(Integer(c))) && cols == [IntegerKind, FloatKind]
    ensures CleanOver(o, e, cols)
  {
    FieldRefs(1, Integer(c), 2);
    forall row | RowOf(cols, row) ensures Clean(o, e, row) {
      EvalEqual(o, Field(1), Constant(Integer(c)), row);
      assert OfKind(cols[1], row[1]);
    }
  }

  lemma RoundedAccepts(o: Ops, c: int, y: int, e: Expression, row: Row)
    requires c != y && FloatEqual(o.toFloat(c), o.toFloat(y))
    requires e == Equal(Field(1), Constant(Integer(c))) && row == [Integer(y)] + [Float(o.toFloat(c))]
    ensures Accepts(o, LookupJoin(0, 1, e), row)
  {
    assert row[0] == Integer(y) && row[1] == Float(o.toFloat(c));
    EvalEqual(o, Field(0), Field(1), row);
    EvalEqual(o, Field(1), Constant(Integer(c)), row);
    AndAccepts(o, Equal(Field(0), Field(1)), e, row);
  }

  lemma NothingLeft(o: Ops, c: int, y: int, n: Node, e: Expression)
    requires c != y && e == Equal(Field(1), Constant(Integer(c)))
    requires n == JoinOf(LookupJoin(0, 1, e), [[Integer(y)]], 1, [[Float(o.toFloat(c))]], 1)
    requires Parted(LookupJoin(0, 1, e), 1) == Parts([FromLookup(0, [Integer(c)])], [e], [Equal(Field(0), Field(1))])
    ensures Rows(o, PushDown(n)) == Rows(o, Optimize(n)) == []
  {
    var l: Row := [Integer(y)];
    var f := FromLookup(0, [Integer(c)]);
    assert f == Equal(Field(0), Constant(Integer(c)));
    EvalEqual(o, Field(0), Constant(Integer(c)), l);
    assert [l][1..] == [];
    assert Select(o, [l], Some(f)) == [];
    assert Join([f]) == f;
    var n' := PushDown(n);
    assert n'.left == Scan([l], Some(f)) && n'.right.Scan?;
    assert Rows(o, n'.left) == [];
    assert Optimize(n) == n';
  }
}
