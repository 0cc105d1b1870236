/** Filter pushdown over a whole plan: every filter and join predicate is pushed down
    from the root to the leaves. Typed plans of scans, filters and inner joins give the
    same rows afterwards, unless a lookup for an integer that a float stands for together
    with others is transferred from a float to an integer. */
module SqlOptimize {
  import opened Basics
  import opened SqlExpression
  import opened SqlPlan
  import opened SqlPushdown

  // ---- The algorithm ----

  function PlanSize(n: Node): nat {
    match n
    case Scan(_, _) => 1
    case Filter(source, _) => 1 + PlanSize(source)
    case NestedLoopJoin(l, _, r, _, _, _) => 1 + PlanSize(l) + PlanSize(r)
    case Source(_) => 1
  }

  /** What is done at a node before going on to its sources. A filter that was pushed down
      stays behind as one that is always true. */
  function PushDown(n: Node): Node {
    match n
    case Filter(source, p) =>
      var (source', back) := Push(p, source);
      Filter(source', if back.Some? then back.value else Constant(Boolean(true)))
    case NestedLoopJoin(l, ls, r, rs, Some(p), outer) =>
      var (l', r', q) := PushdownJoin(p, l, r, ls);
      NestedLoopJoin(l', ls, r', rs, q, outer)
    case _ => n
  }

  lemma PushSize(e: Expression, n: Node)
    ensures PlanSize(Push(e, n).0) == PlanSize(n)
  {
  }

  lemma PushDownSize(n: Node)
    ensures PlanSize(PushDown(n)) == PlanSize(n)
    ensures PushDown(n).Filter? == n.Filter? && PushDown(n).NestedLoopJoin? == n.NestedLoopJoin?
  {
    match n
    case Filter(source, p) => PushSize(p, source);
    case NestedLoopJoin(l, ls, r, rs, Some(p), outer) =>
      var pl, pr := JoinOpt(Parted(p, ls).left), ShiftOpt(JoinOpt(Parted(p, ls).right), ls);
      if pl.Some? { PushSize(pl.value, l); }
      if pr.Some? { PushSize(pr.value, r); }
    case _ =>
  }

  /** Pushes down at a node, and then in what its sources have become. */
  function Optimize(n: Node): Node
    decreases PlanSize(n)
  {
    PushDownSize(n);
    match PushDown(n)
    case Filter(source, p) => Filter(Optimize(source), p)
    case NestedLoopJoin(l, ls, r, rs, p, outer) => NestedLoopJoin(Optimize(l), ls, Optimize(r), rs, p, outer)
    case other => other
  }

  // ---- Typed plans ----

  datatype Kind = BooleanKind | IntegerKind | FloatKind | StringKind

  predicate OfKind(k: Kind, v: Value) {
    match v
    case Null => true
    case Boolean(_) => k.BooleanKind?
    case Integer(_) => k.IntegerKind?
    case Float(_) => k.FloatKind?
    case String(_) => k.StringKind?
  }

  /** Values that can be compared with those of a kind. */
  predicate Alike(k: Kind, v: Value) {
    match v
    case Null => true
    case Boolean(_) => k.BooleanKind?
    case Integer(_) => k.IntegerKind? || k.FloatKind?
    case Float(_) => k.IntegerKind? || k.FloatKind?
    case String(_) => k.StringKind?
  }

  function SampleOf(k: Kind): Value {
    match k
    case BooleanKind => Boolean(true)
    case IntegerKind => Integer(0)
    case FloatKind => Float(0)
    case StringKind => String("")
  }

  ghost predicate RowOf(cols: seq<Kind>, row: Row) {
    |row| == |cols| && forall i :: 0 <= i < |row| ==> OfKind(cols[i], row[i])
  }

  /** A predicate that is well-typed: over existing fields, and a boolean or null on every
      row of the kinds. */
  ghost predicate CleanOver(o: Ops, e: Expression, cols: seq<Kind>) {
    !RefsRight(e, |cols|) && forall row :: RowOf(cols, row) ==> Clean(o, e, row)
  }

  /** A plan of scans, filters and inner joins whose tables and predicates are typed. */
  ghost predicate Typed(o: Ops, n: Node, cols: seq<Kind>) {
    match n
    case Scan(table, filter) =>
      (forall row :: row in table ==> RowOf(cols, row)) && (filter.Some? ==> CleanOver(o, filter.value, cols))
    case Filter(source, p) => Typed(o, source, cols) && CleanOver(o, p, cols)
    case NestedLoopJoin(l, ls, r, _, on, outer) =>
      && !outer && ls <= |cols| && Typed(o, l, cols[..ls]) && Typed(o, r, cols[ls..])
      && (on.Some? ==> CleanOver(o, on.value, cols))
    case Source(_) => false
  }

  lemma RowsJoin(cl: seq<Kind>, cr: seq<Kind>, cols: seq<Kind>, l: Row, r: Row)
    requires cols == cl + cr && RowOf(cl, l) && RowOf(cr, r)
    ensures RowOf(cols, l + r)
  {
  }

  lemma {:induction false} TypedRows(o: Ops, n: Node, cols: seq<Kind>, row: Row)
    requires Typed(o, n, cols) && row in Rows(o, n)
    ensures RowOf(cols, row)
  {
    match n
    case Scan(table, filter) => SelectIn(o, table, filter, row);
    case Filter(source, p) =>
      SelectIn(o, Rows(o, source), Some(p), row);
      TypedRows(o, source, cols, row);
    case NestedLoopJoin(left, ls, right, rs, on, _) =>
      JoinRowsIn(o, Rows(o, left), Rows(o, right), on, rs, row);
      var l, r :| l in Rows(o, left) && r in Rows(o, right) && row == l + r;
      TypedRows(o, left, cols[..ls], l);
      TypedRows(o, right, cols[ls..], r);
      RowsJoin(cols[..ls], cols[ls..], cols, l, r);
  }

  /** A typed plan has no errors. */
  lemma {:induction false} TypedNoErrors(o: Ops, n: Node, cols: seq<Kind>)
    requires Typed(o, n, cols)
    ensures NoErrors(o, n)
  {
    match n
    case Scan(table, filter) =>
    case Filter(source, p) =>
      TypedNoErrors(o, source, cols);
      forall row | row in Rows(o, source) ensures Clean(o, p, row) { TypedRows(o, source, cols, row); }
    case NestedLoopJoin(left, ls, right, rs, on, _) =>
      TypedNoErrors(o, left, cols[..ls]);
      TypedNoErrors(o, right, cols[ls..]);
      forall l, r | l in Rows(o, left) && r in Rows(o, right) ensures CleanOpt(o, on, l + r) {
        TypedRows(o, left, cols[..ls], l);
        TypedRows(o, right, cols[ls..], r);
        RowsJoin(cols[..ls], cols[ls..], cols, l, r);
      }
  }

  // ---- Pushing keeps types ----

  lemma AndCleanOver(o: Ops, x: Expression, y: Expression, cols: seq<Kind>)
    requires CleanOver(o, x, cols) && CleanOver(o, y, cols)
    ensures CleanOver(o, And(x, y), cols)
  {
    forall row | RowOf(cols, row) ensures Clean(o, And(x, y), row) { AndClean(o, x, y, row); }
  }

  lemma PushTyped(o: Ops, e: Expression, n: Node, cols: seq<Kind>)
    requires Typed(o, n, cols) && CleanOver(o, e, cols)
    ensures TakesFilter(n) && Push(e, n).1 == None && Typed(o, Push(e, n).0, cols)
  {
    match n
    case Scan(_, filter) => if filter.Some? { AndCleanOver(o, e, filter.value, cols); }
    case Filter(_, p) => AndCleanOver(o, p, e, cols);
    case NestedLoopJoin(_, _, _, _, on, _) => if on.Some? { AndCleanOver(o, e, on.value, cols); }
  }

  ghost predicate AllCleanOver(o: Ops, es: seq<Expression>, cols: seq<Kind>) {
    forall e :: e in es ==> CleanOver(o, e, cols)
  }

  lemma JoinCleanOver(o: Ops, es: seq<Expression>, cols: seq<Kind>)
    requires es != [] && AllCleanOver(o, es, cols)
    ensures CleanOver(o, Join(es), cols)
  {
    JoinRefs(es, |cols|);
    forall row | RowOf(cols, row) ensures Clean(o, Join(es), row) { JoinClean(o, es, row); }
  }

  // Rewriting adds no fields and no constants.

  /** All fields and constants of an expression pass a test. */
  predicate Leaves(e: Expression, ok: Expression -> bool) {
    match e
    case Constant(_) => ok(e)
    case Field(_) => ok(e)
    case And(l, r) => Leaves(l, ok) && Leaves(r, ok)
    case Or(l, r) => Leaves(l, ok) && Leaves(r, ok)
    case Not(x) => Leaves(x, ok)
    case Equal(l, r) => Leaves(l, ok) && Leaves(r, ok)
    case IsNull(x) => Leaves(x, ok)
    case Unary(_, x) => Leaves(x, ok)
    case Binary(_, l, r) => Leaves(l, ok) && Leaves(r, ok)
  }

  function Within(b: nat): Expression -> bool {
    (x: Expression) => x.Field? ==> x.index < b
  }

  lemma {:induction false} RefsLeaves(e: Expression, b: nat)
    ensures Leaves(e, Within(b)) <==> !RefsRight(e, b)
  {
    match e
    case Constant(_) =>
    case Field(_) =>
    case And(l, r) => RefsLeaves(l, b); RefsLeaves(r, b);
    case Or(l, r) => RefsLeaves(l, b); RefsLeaves(r, b);
    case Not(x) => RefsLeaves(x, b);
    case Equal(l, r) => RefsLeaves(l, b); RefsLeaves(r, b);
    case IsNull(x) => RefsLeaves(x, b);
    case Unary(_, x) => RefsLeaves(x, b);
    case Binary(_, l, r) => RefsLeaves(l, b); RefsLeaves(r, b);
  }

  lemma PushNotLeaves(e: Expression, ok: Expression -> bool)
    requires Leaves(e, ok)
    ensures Leaves(PushNot(e), ok)
  {
    if e.Not? && (e.e.And? || e.e.Or?) {
      assert Leaves(e.e.l, ok) && Leaves(e.e.r, ok);
      assert Leaves(Not(e.e.l), ok) && Leaves(Not(e.e.r), ok);
    } else if e.Not? && e.e.Not? {
      assert Leaves(e.e, ok);
    }
  }

  lemma DistributeRootLeaves(e: Expression, ok: Expression -> bool)
    requires Leaves(e, ok)
    ensures Leaves(Distribute(e), ok)
  {
    if e.Or? && e.l.And? {
      assert Leaves(Or(e.l.l, e.r), ok) && Leaves(Or(e.l.r, e.r), ok);
    } else if e.Or? && e.r.And? {
      assert Leaves(Or(e.l, e.r.l), ok) && Leaves(Or(e.l, e.r.r), ok);
    }
  }

  lemma {:induction false} NnfLeaves(e: Expression, ok: Expression -> bool)
    requires Leaves(e, ok)
    ensures Leaves(IntoNnf(e), ok)
    decreases Size(e)
  {
    PushNotLeaves(e, ok);
    match PushNot(e)
    case Constant(_) =>
    case Field(_) =>
    case And(l, r) => NnfLeaves(l, ok); NnfLeaves(r, ok);
    case Or(l, r) => NnfLeaves(l, ok); NnfLeaves(r, ok);
    case Not(x) => NnfLeaves(x, ok);
    case Equal(l, r) => NnfLeaves(l, ok); NnfLeaves(r, ok);
    case IsNull(x) => NnfLeaves(x, ok);
    case Unary(_, x) => NnfLeaves(x, ok);
    case Binary(_, l, r) => NnfLeaves(l, ok); NnfLeaves(r, ok);
  }

  lemma {:induction false} DistributeLeaves(e: Expression, ok: Expression -> bool)
    requires Leaves(e, ok)
    ensures Leaves(DistributeAll(e), ok)
    decreases Size(e)
  {
    DistributeRootLeaves(e, ok);
    match Distribute(e)
    case Constant(_) =>
    case Field(_) =>
    case And(l, r) => DistributeLeaves(l, ok); DistributeLeaves(r, ok);
    case Or(l, r) => DistributeLeaves(l, ok); DistributeLeaves(r, ok);
    case Not(x) => DistributeLeaves(x, ok);
    case Equal(l, r) => DistributeLeaves(l, ok); DistributeLeaves(r, ok);
    case IsNull(x) => DistributeLeaves(x, ok);
    case Unary(_, x) => DistributeLeaves(x, ok);
    case Binary(_, l, r) => DistributeLeaves(l, ok); DistributeLeaves(r, ok);
  }

  lemma {:induction false} ConjunctLeaves(e: Expression, ok: Expression -> bool, x: Expression)
    requires Leaves(e, ok) && x in Conjuncts(e)
    ensures Leaves(x, ok)
  {
    if e.And? {
      if x in Conjuncts(e.l) { ConjunctLeaves(e.l, ok, x); } else { ConjunctLeaves(e.r, ok, x); }
    }
  }

  lemma CnfLeaves(p: Expression, ok: Expression -> bool, e: Expression)
    requires Leaves(p, ok) && e in Conjuncts(IntoCnf(p))
    ensures Leaves(e, ok)
  {
    NnfLeaves(p, ok);
    DistributeLeaves(IntoNnf(p), ok);
    ConjunctLeaves(IntoCnf(p), ok, e);
  }

  /** The conjuncts of a well-typed predicate are well-typed. */
  lemma ConjunctsCleanOver(o: Ops, p: Expression, cols: seq<Kind>)
    requires CleanOver(o, p, cols)
    ensures AllCleanOver(o, Conjuncts(IntoCnf(p)), cols)
  {
    var es := Conjuncts(IntoCnf(p));
    forall e | e in es ensures CleanOver(o, e, cols) {
      RefsLeaves(p, |cols|);
      CnfLeaves(p, Within(|cols|), e);
      RefsLeaves(e, |cols|);
      forall row | RowOf(cols, row) ensures Clean(o, e, row) {
        CnfVecKeeps(o, p, Some(row));
        JoinClean(o, es, row);
      }
    }
  }

  /** A shifted expression over right fields has them in range. */
  lemma {:induction false} ShiftRefs(e: Expression, b: nat, m: nat)
    requires !RefsLeft(e, b) && !RefsRight(e, b + m)
    ensures !RefsRight(Shift(e, b), m)
  {
    match e
    case Constant(_) =>
    case Field(_) =>
    case And(l, r) => ShiftRefs(l, b, m); ShiftRefs(r, b, m);
    case Or(l, r) => ShiftRefs(l, b, m); ShiftRefs(r, b, m);
    case Not(x) => ShiftRefs(x, b, m);
    case Equal(l, r) => ShiftRefs(l, b, m); ShiftRefs(r, b, m);
    case IsNull(x) => ShiftRefs(x, b, m);
    case Unary(_, x) => ShiftRefs(x, b, m);
    case Binary(_, l, r) => ShiftRefs(l, b, m); ShiftRefs(r, b, m);
  }

  // ---- Transferred lookups ----

  ghost predicate PartsCleanOver(o: Ops, p: Parts, cols: seq<Kind>) {
    AllCleanOver(o, p.left, cols) && AllCleanOver(o, p.right, cols) && AllCleanOver(o, p.rest, cols)
  }

  /** A row of nulls but for two values. */
  function Probe(cols: seq<Kind>, i: nat, j: nat): (row: Row)
    ensures |row| == |cols|
    ensures forall x :: 0 <= x < |cols| ==> row[x] == if x == i || x == j then SampleOf(cols[x]) else Null
  {
    seq(|cols|, x requires 0 <= x < |cols| => if x == i || x == j then SampleOf(cols[x]) else Null)
  }

  lemma ProbeRow(cols: seq<Kind>, i: nat, j: nat)
    ensures RowOf(cols, Probe(cols, i, j))
  {
  }

  /** The two fields of a well-typed equijoin can be compared with the same values. */
  lemma EquijoinKinds(o: Ops, e: Expression, lo: nat, hi: nat, cols: seq<Kind>)
    requires CleanOver(o, e, cols) && lo < |cols| && hi < |cols|
    requires e == Equal(Field(lo), Field(hi)) || e == Equal(Field(hi), Field(lo))
    ensures forall v :: Alike(cols[lo], v) <==> Alike(cols[hi], v)
  {
    var row := Probe(cols, lo, hi);
    ProbeRow(cols, lo, hi);
    assert Clean(o, e, row);
    EvalEqual(o, Field(lo), Field(hi), row);
    EvalEqual(o, Field(hi), Field(lo), row);
  }

  /** The values of a well-typed lookup can be compared with the field. */
  lemma LookupKinds(o: Ops, e: Expression, field: nat, cols: seq<Kind>, v: Value)
    requires CleanOver(o, e, cols) && field < |cols|
    requires AsLookup(e, field).Some? && v in AsLookup(e, field).value
    ensures Alike(cols[field], v)
  {
    var row := Probe(cols, field, field);
    ProbeRow(cols, field, field);
    assert Clean(o, e, row);
    LookupMeans(o, e, field, row);
  }

  /** A lookup for values that can be compared with a field is well-typed. */
  lemma FromLookupCleanOver(o: Ops, field: nat, vs: seq<Value>, cols: seq<Kind>)
    requires field < |cols| && forall v :: v in vs ==> Alike(cols[field], v)
    ensures CleanOver(o, FromLookup(field, vs), cols)
  {
    FromLookupRefs(field, vs, |cols|);
    forall row | RowOf(cols, row) ensures Clean(o, FromLookup(field, vs), row) {
      var x := Eval(o, Field(field), Some(row)).value;
      forall v | v in vs ensures Comparable(x, v) { }
      FromLookupAccepts(o, field, vs, row);
    }
  }

  lemma FoundCleanOver(o: Ops, es: seq<Expression>, e: Expression, from: nat, to: nat, cols: seq<Kind>)
    requires AllCleanOver(o, es, cols) && FindLookup(es, from).Some? && from < |cols| && to < |cols|
    requires CleanOver(o, e, cols) && (e == Equal(Field(from), Field(to)) || e == Equal(Field(to), Field(from)))
    ensures CleanOver(o, FromLookup(to, FindLookup(es, from).value), cols)
  {
    FindLookupMeans(es, from);
    var x :| x in es && AsLookup(x, from) == FindLookup(es, from);
    EquijoinKinds(o, e, from, to, cols);
    forall v | v in AsLookup(x, from).value ensures Alike(cols[to], v) { LookupKinds(o, x, from, cols, v); }
    FromLookupCleanOver(o, to, AsLookup(x, from).value, cols);
  }

  lemma TransferOneClean(o: Ops, e: Expression, p: Parts, cols: seq<Kind>)
    requires CleanOver(o, e, cols) && PartsCleanOver(o, p, cols)
    ensures PartsCleanOver(o, TransferOne(e, p), cols)
  {
    if e.Equal? && e.l.Field? && e.r.Field? {
      var lo, hi := Lower(e), Upper(e);
      assert !RefsRight(e.l, |cols|) && !RefsRight(e.r, |cols|);
      if FindLookup(p.left, lo).Some? {
        FoundCleanOver(o, p.left, e, lo, hi, cols);
      } else if FindLookup(p.right, hi).Some? {
        FoundCleanOver(o, p.right, e, hi, lo, cols);
      }
    }
  }

  lemma {:induction false} TransferClean(o: Ops, es: seq<Expression>, p: Parts, cols: seq<Kind>)
    requires AllCleanOver(o, es, cols) && PartsCleanOver(o, p, cols)
    ensures PartsCleanOver(o, Transfer(es, p), cols)
    decreases |es|
  {
    if es != [] {
      TransferOneClean(o, es[0], p, cols);
      TransferClean(o, es[1..], TransferOne(es[0], p), cols);
    }
  }

  /** All parts of a well-typed join predicate are well-typed, transferred lookups
      included. */
  lemma PartedClean(o: Ops, p: Expression, b: nat, cols: seq<Kind>)
    requires CleanOver(o, p, cols)
    ensures PartsCleanOver(o, Parted(p, b), cols)
  {
    var es := Conjuncts(IntoCnf(p));
    ConjunctsCleanOver(o, p, cols);
    forall e ensures (e in Split(es, b).left ==> e in es) && (e in Split(es, b).right ==> e in es)
                     && (e in Split(es, b).rest ==> e in es)
    {
      SplitMeans(es, b, e);
    }
    TransferClean(o, Split(es, b).rest, Split(es, b), cols);
  }

  // ---- One join ----

  lemma NullsRow(cols: seq<Kind>)
    ensures RowOf(cols, Nulls(|cols|))
  {
  }

  lemma LeftCleanOver(o: Ops, es: seq<Expression>, b: nat, cols: seq<Kind>)
    requires es != [] && AllCleanOver(o, es, cols) && b <= |cols| && forall e :: e in es ==> !RefsRight(e, b)
    ensures CleanOver(o, Join(es), cols[..b])
  {
    JoinCleanOver(o, es, cols);
    JoinRefs(es, b);
    var r := Nulls(|cols| - b);
    NullsRow(cols[b..]);
    forall l | RowOf(cols[..b], l) ensures Clean(o, Join(es), l) {
      RowsJoin(cols[..b], cols[b..], cols, l, r);
      EvalLeft(o, Join(es), l, r);
    }
  }

  lemma RightCleanOver(o: Ops, es: seq<Expression>, b: nat, cols: seq<Kind>)
    requires es != [] && AllCleanOver(o, es, cols) && b <= |cols| && forall e :: e in es ==> !RefsLeft(e, b)
    ensures CleanOver(o, Shift(Join(es), b), cols[b..])
  {
    JoinCleanOver(o, es, cols);
    JoinRefs(es, b);
    ShiftRefs(Join(es), b, |cols| - b);
    var l := Nulls(b);
    NullsRow(cols[..b]);
    forall r | RowOf(cols[b..], r) ensures Clean(o, Shift(Join(es), b), r) {
      RowsJoin(cols[..b], cols[b..], cols, l, r);
      EvalRight(o, Join(es), l, r);
    }
  }

  // ---- Where rounding matters ----

  /** A lookup can be transferred from a field of one kind to one of another: not from
      floats to integers, unless no integer is mistaken for one of its values. */
  ghost predicate Movable(o: Ops, from: Kind, to: Kind, vs: seq<Value>) {
    from.FloatKind? && to.IntegerKind? ==> Closed(o, vs)
  }

  /** The lookup that an equijoin transfers, if any, is movable. */
  ghost predicate SafeOne(o: Ops, e: Expression, p: Parts, cols: seq<Kind>) {
    e.Equal? && e.l.Field? && e.r.Field? && Upper(e) < |cols| ==>
      var lo, hi := Lower(e), Upper(e);
      if FindLookup(p.left, lo).Some? then Movable(o, cols[lo], cols[hi], FindLookup(p.left, lo).value)
      else FindLookup(p.right, hi).Some? ==> Movable(o, cols[hi], cols[lo], FindLookup(p.right, hi).value)
  }

  ghost predicate SafeAll(o: Ops, es: seq<Expression>, p: Parts, cols: seq<Kind>)
    decreases |es|
  {
    es != [] ==> SafeOne(o, es[0], p, cols) && SafeAll(o, es[1..], TransferOne(es[0], p), cols)
  }

  /** All lookups that pushing down a join predicate transfers are movable. */
  ghost predicate SafeJoin(o: Ops, p: Expression, b: nat, cols: seq<Kind>) {
    var parts := Split(Conjuncts(IntoCnf(p)), b);
    SafeAll(o, parts.rest, parts, cols)
  }

  lemma {:induction false} SafeCarries(o: Ops, es: seq<Expression>, p: Parts, cols: seq<Kind>, row: Row)
    requires RowOf(cols, row) && SafeAll(o, es, p, cols)
    ensures CarriesAll(o, es, p, row)
    decreases |es|
  {
    if es != [] {
      var e := es[0];
      if e.Equal? && e.l.Field? && e.r.Field? && Upper(e) < |row| {
        var lo, hi := Lower(e), Upper(e);
        if FindLookup(p.left, lo).Some? {
          CarriesUnlessRounded(o, row[lo], row[hi], FindLookup(p.left, lo).value);
        } else if FindLookup(p.right, hi).Some? {
          CarriesUnlessRounded(o, row[hi], row[lo], FindLookup(p.right, hi).value);
        }
      }
      SafeCarries(o, es[1..], TransferOne(e, p), cols, row);
    }
  }

  /** A pair of rows of a typed join. */
  lemma TypedPair(o: Ops, p: Expression, b: nat, cols: seq<Kind>, l: Row, r: Row)
    requires b <= |cols| && CleanOver(o, p, cols) && SafeJoin(o, p, b, cols)
    requires RowOf(cols[..b], l) && RowOf(cols[b..], r)
    ensures |l| == b && Eval(o, p, Some(l + r)).Some? && Held(o, p, b, l + r)
  {
    var parts := Split(Conjuncts(IntoCnf(p)), b);
    RowsJoin(cols[..b], cols[b..], cols, l, r);
    assert Clean(o, p, l + r);
    SafeCarries(o, parts.rest, parts, cols, l + r);
    CarriedHolds(o, p, b, l + r);
  }

  ghost predicate RowsOf(cols: seq<Kind>, rows: seq<Row>) {
    forall row :: row in rows ==> RowOf(cols, row)
  }

  lemma PairsJoinable(o: Ops, p: Expression, left: seq<Row>, right: seq<Row>, b: nat, cols: seq<Kind>)
    requires b <= |cols| && CleanOver(o, p, cols) && SafeJoin(o, p, b, cols)
    requires RowsOf(cols[..b], left) && RowsOf(cols[b..], right)
    ensures Joinable(o, p, left, right, b) && AllHeld(o, p, left, right, b)
  {
    forall l, r | l in left && r in right
      ensures |l| == b && Eval(o, p, Some(l + r)).Some? && Held(o, p, b, l + r)
    {
      assert RowOf(cols[..b], l) && RowOf(cols[b..], r);
      TypedPair(o, p, b, cols, l, r);
    }
  }

  lemma TypedJoinable(o: Ops, p: Expression, left: Node, right: Node, b: nat, cols: seq<Kind>)
    requires b <= |cols| && CleanOver(o, p, cols) && SafeJoin(o, p, b, cols)
    requires Typed(o, left, cols[..b]) && Typed(o, right, cols[b..])
    ensures Joinable(o, p, Rows(o, left), Rows(o, right), b) && AllHeld(o, p, Rows(o, left), Rows(o, right), b)
  {
    forall l | l in Rows(o, left) ensures RowOf(cols[..b], l) { TypedRows(o, left, cols[..b], l); }
    forall r | r in Rows(o, right) ensures RowOf(cols[b..], r) { TypedRows(o, right, cols[b..], r); }
    PairsJoinable(o, p, Rows(o, left), Rows(o, right), b, cols);
  }

  lemma TypedTakes(o: Ops, n: Node, cols: seq<Kind>)
    requires Typed(o, n, cols)
    ensures TakesFilter(n)
  {
  }

  lemma JoinStep(o: Ops, p: Expression, left: Node, right: Node, b: nat, width: nat, cols: seq<Kind>)
    requires b <= |cols| && CleanOver(o, p, cols) && SafeJoin(o, p, b, cols)
    requires Typed(o, left, cols[..b]) && Typed(o, right, cols[b..])
    ensures var (left', right', q) := PushdownJoin(p, left, right, b);
            && Typed(o, left', cols[..b]) && Typed(o, right', cols[b..]) && (q.Some? ==> CleanOver(o, q.value, cols))
            && Rows(o, NestedLoopJoin(left', b, right', width, q, false))
               == Rows(o, NestedLoopJoin(left, b, right, width, Some(p), false))
  {
    TypedJoinable(o, p, left, right, b, cols);
    TypedTakes(o, left, cols[..b]);
    TypedTakes(o, right, cols[b..]);
    PushdownKeepsIff(o, p, left, right, b, width);
    JoinStepTyped(o, p, left, right, b, cols);
  }

  lemma JoinStepTyped(o: Ops, p: Expression, left: Node, right: Node, b: nat, cols: seq<Kind>)
    requires b <= |cols| && CleanOver(o, p, cols)
    requires Typed(o, left, cols[..b]) && Typed(o, right, cols[b..])
    ensures var (left', right', q) := PushdownJoin(p, left, right, b);
            Typed(o, left', cols[..b]) && Typed(o, right', cols[b..]) && (q.Some? ==> CleanOver(o, q.value, cols))
  {
    var parts := Parted(p, b);
    PartedClean(o, p, b, cols);
    PartedSided(p, b);
    if parts.left != [] {
      LeftCleanOver(o, parts.left, b, cols);
      PushTyped(o, Join(parts.left), left, cols[..b]);
    }
    if parts.right != [] {
      RightCleanOver(o, parts.right, b, cols);
      PushTyped(o, Shift(Join(parts.right), b), right, cols[b..]);
    }
    if parts.rest != [] {
      JoinCleanOver(o, parts.rest, cols);
    }
    assert parts.rest + [] + [] == parts.rest;
  }

  // ---- The whole plan ----

  lemma FilterStep(o: Ops, p: Expression, source: Node, cols: seq<Kind>)
    requires Typed(o, source, cols) && CleanOver(o, p, cols)
    ensures Typed(o, PushDown(Filter(source, p)), cols)
    ensures Rows(o, PushDown(Filter(source, p))) == Rows(o, Filter(source, p))
  {
    PushTyped(o, p, source, cols);
    PushFilters(o, p, source);
    SelectTrue(o, Rows(o, Push(p, source).0));
  }

  lemma {:induction false} SelectTrue(o: Ops, rows: seq<Row>)
    ensures Select(o, rows, Some(Constant(Boolean(true)))) == rows
  {
    if rows != [] {
      SelectTrue(o, rows[1..]);
      assert rows == [rows[0]] + rows[1..];
    }
  }

  /** Pushing down at the root transfers only movable lookups. */
  ghost predicate SafeRoot(o: Ops, n: Node, cols: seq<Kind>) {
    n.NestedLoopJoin? && n.on.Some? ==> SafeJoin(o, n.on.value, n.leftSize, cols)
  }

  /** Pushing down at the root of a typed plan keeps its type and its rows. */
  lemma PushDownKeeps(o: Ops, n: Node, cols: seq<Kind>)
    requires Typed(o, n, cols) && SafeRoot(o, n, cols)
    ensures Typed(o, PushDown(n), cols) && Rows(o, PushDown(n)) == Rows(o, n)
  {
    match n
    case Filter(source, p) => FilterStep(o, p, source, cols);
    case NestedLoopJoin(l, ls, r, rs, Some(p), _) => JoinStep(o, p, l, r, ls, rs, cols);
    case _ =>
  }

  /** No node transfers a lookup that is not movable, on the way down. */
  ghost predicate SafePlan(o: Ops, n: Node, cols: seq<Kind>)
    decreases PlanSize(n)
  {
    PushDownSize(n);
    && SafeRoot(o, n, cols)
    && match PushDown(n)
       case Filter(source, _) => SafePlan(o, source, cols)
       case NestedLoopJoin(l, ls, r, _, _, _) =>
         ls <= |cols| ==> SafePlan(o, l, cols[..ls]) && SafePlan(o, r, cols[ls..])
       case _ => true
  }

  /** Filter pushdown over a whole typed plan of scans, filters and inner joins keeps the
      sequence of its rows, and its type, so that neither plan has an error. */
  lemma {:induction false} OptimizeKeepsRows(o: Ops, n: Node, cols: seq<Kind>)
    requires Typed(o, n, cols) && SafePlan(o, n, cols)
    ensures Rows(o, Optimize(n)) == Rows(o, n) && Typed(o, Optimize(n), cols)
    ensures NoErrors(o, n) && NoErrors(o, Optimize(n))
    decreases PlanSize(n)
  {
    PushDownSize(n);
    PushDownKeeps(o, n, cols);
    match PushDown(n) {
      case Filter(source, p) => OptimizeKeepsRows(o, source, cols);
      case NestedLoopJoin(l, ls, r, _, _, _) =>
        OptimizeKeepsRows(o, l, cols[..ls]);
        OptimizeKeepsRows(o, r, cols[ls..]);
      case _ =>
    }
    TypedNoErrors(o, n, cols);
    TypedNoErrors(o, Optimize(n), cols);
  }

  // ---- Plans whose integers all round apart ----

  /** No other integer rounds to the same float. */
  ghost predicate Exact(o: Ops, c: int) {
    forall y :: FloatEqual(o.toFloat(c), o.toFloat(y)) ==> y == c
  }

  ghost function ExactOnly(o: Ops): Expression -> bool {
    (x: Expression) => x.Constant? && x.value.Integer? ==> Exact(o, x.value.i)
  }

  /** All predicates of a plan have acceptable fields and constants. */
  ghost predicate PlanLeaves(n: Node, ok: Expression -> bool) {
    match n
    case Scan(_, filter) => filter.Some? ==> Leaves(filter.value, ok)
    case Filter(source, p) => PlanLeaves(source, ok) && Leaves(p, ok)
    case NestedLoopJoin(l, _, r, _, on, _) =>
      PlanLeaves(l, ok) && PlanLeaves(r, ok) && (on.Some? ==> Leaves(on.value, ok))
    case Source(_) => true
  }

  /** Any field is acceptable, and so are null and true. */
  ghost predicate Liberal(ok: Expression -> bool) {
    (forall i :: ok(Field(i))) && ok(Constant(Null)) && ok(Constant(Boolean(true)))
  }

  ghost predicate AllLeaves(es: seq<Expression>, ok: Expression -> bool) {
    forall e :: e in es ==> Leaves(e, ok)
  }

  ghost predicate PartsLeaves(p: Parts, ok: Expression -> bool) {
    AllLeaves(p.left, ok) && AllLeaves(p.right, ok) && AllLeaves(p.rest, ok)
  }

  lemma {:induction false} LookupLeaves(e: Expression, field: nat, ok: Expression -> bool, v: Value)
    requires Liberal(ok) && Leaves(e, ok) && AsLookup(e, field).Some? && v in AsLookup(e, field).value
    ensures ok(Constant(v))
  {
    if e.Or? {
      if v in AsLookup(e.l, field).value { LookupLeaves(e.l, field, ok, v); } else { LookupLeaves(e.r, field, ok, v); }
    } else if e.Equal? {
      assert Leaves(e.l, ok) && Leaves(e.r, ok);
    }
  }

  lemma {:induction false} FromLookupLeaves(field: nat, vs: seq<Value>, ok: Expression -> bool)
    requires Liberal(ok) && forall v :: v in vs ==> ok(Constant(v))
    ensures Leaves(FromLookup(field, vs), ok)
  {
    var last := Equal(Field(field), Constant(if vs == [] then Null else vs[|vs| - 1]));
    assert Leaves(last.l, ok) && Leaves(last.r, ok);
    if |vs| > 1 { FromLookupLeaves(field, vs[..|vs| - 1], ok); }
  }

  lemma FoundLeaves(es: seq<Expression>, from: nat, to: nat, ok: Expression -> bool)
    requires Liberal(ok) && AllLeaves(es, ok) && FindLookup(es, from).Some?
    ensures forall v :: v in FindLookup(es, from).value ==> ok(Constant(v))
    ensures Leaves(FromLookup(to, FindLookup(es, from).value), ok)
  {
    FindLookupMeans(es, from);
    var e :| e in es && AsLookup(e, from) == FindLookup(es, from);
    forall v | v in AsLookup(e, from).value ensures ok(Constant(v)) { LookupLeaves(e, from, ok, v); }
    FromLookupLeaves(to, AsLookup(e, from).value, ok);
  }

  lemma {:induction false} TransferLeaves(es: seq<Expression>, p: Parts, ok: Expression -> bool)
    requires Liberal(ok) && PartsLeaves(p, ok)
    ensures PartsLeaves(Transfer(es, p), ok)
    decreases |es|
  {
    if es != [] {
      TransferOneLeaves(es[0], p, ok);
      TransferLeaves(es[1..], TransferOne(es[0], p), ok);
    }
  }

  lemma TransferOneLeaves(e: Expression, p: Parts, ok: Expression -> bool)
    requires Liberal(ok) && PartsLeaves(p, ok)
    ensures PartsLeaves(TransferOne(e, p), ok)
  {
    if e.Equal? && e.l.Field? && e.r.Field? {
      var lo, hi := Lower(e), Upper(e);
      if FindLookup(p.left, lo).Some? {
        FoundLeaves(p.left, lo, hi, ok);
      } else if FindLookup(p.right, hi).Some? {
        FoundLeaves(p.right, hi, lo, ok);
      }
    }
  }

  lemma SplitLeaves(p: Expression, b: nat, ok: Expression -> bool)
    requires Leaves(p, ok)
    ensures PartsLeaves(Split(Conjuncts(IntoCnf(p)), b), ok)
  {
    var es := Conjuncts(IntoCnf(p));
    forall e | e in es ensures Leaves(e, ok) { CnfLeaves(p, ok, e); }
    forall e ensures (e in Split(es, b).left ==> e in es) && (e in Split(es, b).right ==> e in es)
                     && (e in Split(es, b).rest ==> e in es)
    {
      SplitMeans(es, b, e);
    }
  }

  lemma {:induction false} JoinLeaves(es: seq<Expression>, ok: Expression -> bool)
    requires es != [] && AllLeaves(es, ok)
    ensures Leaves(Join(es), ok)
  {
    if |es| > 1 { JoinLeaves(es[..|es| - 1], ok); }
  }

  lemma {:induction false} ShiftLeaves(e: Expression, b: nat, ok: Expression -> bool)
    requires Liberal(ok) && Leaves(e, ok)
    ensures Leaves(Shift(e, b), ok)
  {
    match e
    case Constant(_) =>
    case Field(_) =>
    case And(l, r) => ShiftLeaves(l, b, ok); ShiftLeaves(r, b, ok);
    case Or(l, r) => ShiftLeaves(l, b, ok); ShiftLeaves(r, b, ok);
    case Not(x) => ShiftLeaves(x, b, ok);
    case Equal(l, r) => ShiftLeaves(l, b, ok); ShiftLeaves(r, b, ok);
    case IsNull(x) => ShiftLeaves(x, b, ok);
    case Unary(_, x) => ShiftLeaves(x, b, ok);
    case Binary(_, l, r) => ShiftLeaves(l, b, ok); ShiftLeaves(r, b, ok);
  }

  lemma PushLeaves(e: Expression, n: Node, ok: Expression -> bool)
    requires Leaves(e, ok) && PlanLeaves(n, ok)
    ensures PlanLeaves(Push(e, n).0, ok) && (Push(e, n).1.Some? ==> Push(e, n).1.value == e)
  {
  }

  lemma PushOptLeaves(e: Option<Expression>, n: Node, ok: Expression -> bool)
    requires (e.Some? ==> Leaves(e.value, ok)) && PlanLeaves(n, ok)
    ensures PlanLeaves(PushOpt(e, n).0, ok) && AllLeaves(ToSeq(PushOpt(e, n).1), ok)
  {
    if e.Some? { PushLeaves(e.value, n, ok); }
  }

  /** Pushing down brings in no new constants but null and true. */
  lemma PushDownLeaves(n: Node, ok: Expression -> bool)
    requires Liberal(ok) && PlanLeaves(n, ok)
    ensures PlanLeaves(PushDown(n), ok)
  {
    match n
    case Filter(source, p) => PushLeaves(p, source, ok);
    case NestedLoopJoin(l, ls, r, _, Some(p), _) =>
      var parts := Parted(p, ls);
      SplitLeaves(p, ls, ok);
      TransferLeaves(Split(Conjuncts(IntoCnf(p)), ls).rest, Split(Conjuncts(IntoCnf(p)), ls), ok);
      if parts.left != [] { JoinLeaves(parts.left, ok); }
      if parts.right != [] {
        JoinLeaves(parts.right, ok);
        ShiftLeaves(Join(parts.right), ls, ok);
      }
      var pl, pr := JoinOpt(parts.left), ShiftOpt(JoinOpt(parts.right), ls);
      PushOptLeaves(pl, l, ok);
      PushOptLeaves(pr, r, ok);
      var rest := parts.rest + ToSeq(PushOpt(pl, l).1) + ToSeq(PushOpt(pr, r).1);
      if rest != [] { JoinLeaves(rest, ok); }
    case _ =>
  }

  lemma {:induction false} ExactTransfers(o: Ops, es: seq<Expression>, p: Parts, cols: seq<Kind>)
    requires PartsLeaves(p, ExactOnly(o))
    ensures SafeAll(o, es, p, cols)
    decreases |es|
  {
    if es != [] {
      var e, ok := es[0], ExactOnly(o);
      if e.Equal? && e.l.Field? && e.r.Field? {
        var lo, hi := Lower(e), Upper(e);
        if FindLookup(p.left, lo).Some? {
          FoundLeaves(p.left, lo, hi, ok);
          ExactClosed(o, FindLookup(p.left, lo).value);
        } else if FindLookup(p.right, hi).Some? {
          FoundLeaves(p.right, hi, lo, ok);
          ExactClosed(o, FindLookup(p.right, hi).value);
        }
      }
      TransferOneLeaves(e, p, ok);
      ExactTransfers(o, es[1..], TransferOne(e, p), cols);
    }
  }

  lemma ExactClosed(o: Ops, vs: seq<Value>)
    requires forall v :: v in vs ==> ExactOnly(o)(Constant(v))
    ensures Closed(o, vs)
  {
    forall c, y | Integer(c) in vs && FloatEqual(o.toFloat(c), o.toFloat(y)) ensures Finds(o, Integer(y), vs) {
      assert ExactOnly(o)(Constant(Integer(c)));
      assert Agree(o, Integer(y), Integer(c));
    }
  }

  /** A plan without integer constants that share a float with another integer is safe. In
      the program these are all constants up to 2^53 in magnitude, exclusive. */
  lemma {:induction false} ExactPlan(o: Ops, n: Node, cols: seq<Kind>)
    requires PlanLeaves(n, ExactOnly(o))
    ensures SafePlan(o, n, cols)
    decreases PlanSize(n)
  {
    PushDownSize(n);
    PushDownLeaves(n, ExactOnly(o));
    if n.NestedLoopJoin? && n.on.Some? {
      var parts := Split(Conjuncts(IntoCnf(n.on.value)), n.leftSize);
      SplitLeaves(n.on.value, n.leftSize, ExactOnly(o));
      ExactTransfers(o, parts.rest, parts, cols);
    }
    match PushDown(n)
    case Filter(source, _) => ExactPlan(o, source, cols);
    case NestedLoopJoin(l, ls, r, _, _, _) =>
      if ls <= |cols| {
        ExactPlan(o, l, cols[..ls]);
        ExactPlan(o, r, cols[ls..]);
      }
    case _ =>
  }
}
