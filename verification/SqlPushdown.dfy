/** Pushing a join predicate down into the join's sources: splitting it, moving the
    parts of one side there, and transferring constant lookups across equijoins.
    For inner joins this leaves the joined rows unchanged. */
module SqlPushdown {
  import opened Basics
  import opened SqlExpression
  import opened SqlPlan

  // ---- Field references ----

  /** Some field at or after the boundary is referenced. */
  predicate RefsRight(e: Expression, b: nat) {
    match e
    case Constant(_) => false
    case Field(i) => i >= b
    case And(l, r) => RefsRight(l, b) || RefsRight(r, b)
    case Or(l, r) => RefsRight(l, b) || RefsRight(r, b)
    case Not(x) => RefsRight(x, b)
    case Equal(l, r) => RefsRight(l, b) || RefsRight(r, b)
    case IsNull(x) => RefsRight(x, b)
    case Unary(_, x) => RefsRight(x, b)
    case Binary(_, l, r) => RefsRight(l, b) || RefsRight(r, b)
  }

  /** Some field before the boundary is referenced. */
  predicate RefsLeft(e: Expression, b: nat) {
    match e
    case Constant(_) => false
    case Field(i) => i < b
    case And(l, r) => RefsLeft(l, b) || RefsLeft(r, b)
    case Or(l, r) => RefsLeft(l, b) || RefsLeft(r, b)
    case Not(x) => RefsLeft(x, b)
    case Equal(l, r) => RefsLeft(l, b) || RefsLeft(r, b)
    case IsNull(x) => RefsLeft(x, b)
    case Unary(_, x) => RefsLeft(x, b)
    case Binary(_, l, r) => RefsLeft(l, b) || RefsLeft(r, b)
  }

  /** Renumbers the fields of the right source. */
  function Shift(e: Expression, b: nat): Expression {
    match e
    case Constant(v) => Constant(v)
    case Field(i) => Field(if i >= b then i - b else 0)
    case And(l, r) => And(Shift(l, b), Shift(r, b))
    case Or(l, r) => Or(Shift(l, b), Shift(r, b))
    case Not(x) => Not(Shift(x, b))
    case Equal(l, r) => Equal(Shift(l, b), Shift(r, b))
    case IsNull(x) => IsNull(Shift(x, b))
    case Unary(op, x) => Unary(op, Shift(x, b))
    case Binary(op, l, r) => Binary(op, Shift(l, b), Shift(r, b))
  }

  /** An expression over left fields reads only the left part of a joined row. */
  lemma {:induction false} EvalLeft(o: Ops, e: Expression, l: Row, r: Row)
    requires !RefsRight(e, |l|)
    ensures Eval(o, e, Some(l + r)) == Eval(o, e, Some(l))
  {
    match e
    case Constant(_) =>
    case Field(i) => assert (l + r)[i] == l[i];
    case And(x, y) => EvalLeft(o, x, l, r); EvalLeft(o, y, l, r);
    case Or(x, y) => EvalLeft(o, x, l, r); EvalLeft(o, y, l, r);
    case Not(x) => EvalLeft(o, x, l, r);
    case Equal(x, y) => EvalLeft(o, x, l, r); EvalLeft(o, y, l, r);
    case IsNull(x) => EvalLeft(o, x, l, r);
    case Unary(_, x) => EvalLeft(o, x, l, r);
    case Binary(_, x, y) => EvalLeft(o, x, l, r); EvalLeft(o, y, l, r);
  }

  /** An expression over right fields, shifted, reads the right row. */
  lemma {:induction false} EvalRight(o: Ops, e: Expression, l: Row, r: Row)
    requires !RefsLeft(e, |l|)
    ensures Eval(o, e, Some(l + r)) == Eval(o, Shift(e, |l|), Some(r))
  {
    match e
    case Constant(_) =>
    case Field(i) => assert i < |l + r| ==> (l + r)[i] == r[i - |l|];
    case And(x, y) => EvalRight(o, x, l, r); EvalRight(o, y, l, r);
    case Or(x, y) => EvalRight(o, x, l, r); EvalRight(o, y, l, r);
    case Not(x) => EvalRight(o, x, l, r);
    case Equal(x, y) => EvalRight(o, x, l, r); EvalRight(o, y, l, r);
    case IsNull(x) => EvalRight(o, x, l, r);
    case Unary(_, x) => EvalRight(o, x, l, r);
    case Binary(_, x, y) => EvalRight(o, x, l, r); EvalRight(o, y, l, r);
  }

  // ---- Lookups ----

  /** The values a field is looked up for, if the expression is a lookup. */
  function AsLookup(e: Expression, field: nat): Option<seq<Value>> {
    match e
    case Equal(Field(i), Constant(v)) => if i == field then Some([v]) else None
    case Equal(Constant(v), Field(i)) => if i == field then Some([v]) else None
    case IsNull(Field(i)) => if i == field then Some([Null]) else None
    case Or(l, r) =>
      var a, b := AsLookup(l, field), AsLookup(r, field);
      if a.Some? && b.Some? then Some(a.value + b.value) else None
    case _ => None
  }

  function FromLookup(field: nat, values: seq<Value>): Expression {
    if values == [] then Equal(Field(field), Constant(Null))
    else if |values| == 1 then Equal(Field(field), Constant(values[0]))
    else Or(FromLookup(field, values[..|values| - 1]), Equal(Field(field), Constant(values[|values| - 1])))
  }

  function FindLookup(es: seq<Expression>, field: nat): Option<seq<Value>> {
    if es == [] then None
    else if AsLookup(es[0], field).Some? then AsLookup(es[0], field)
    else FindLookup(es[1..], field)
  }

  // ---- The algorithm ----

  function Only(es: seq<Expression>, keep: Expression -> bool): seq<Expression> {
    if es == [] then [] else (if keep(es[0]) then [es[0]] else []) + Only(es[1..], keep)
  }

  /** The conjuncts for the left source, the right source, and neither. */
  datatype Parts = Parts(left: seq<Expression>, right: seq<Expression>, rest: seq<Expression>)

  function Split(es: seq<Expression>, b: nat): Parts {
    Parts(Only(es, e => !RefsRight(e, b)),
          Only(es, e => RefsRight(e, b) && !RefsLeft(e, b)),
          Only(es, e => RefsRight(e, b) && RefsLeft(e, b)))
  }

  /** The field with the smaller and the one with the larger number of an equijoin. */
  function Lower(e: Expression): nat
    requires e.Equal? && e.l.Field? && e.r.Field?
  {
    if e.l.index > e.r.index then e.r.index else e.l.index
  }

  function Upper(e: Expression): nat
    requires e.Equal? && e.l.Field? && e.r.Field?
  {
    if e.l.index > e.r.index then e.l.index else e.r.index
  }

  /** Transfers a lookup on one field of an equijoin to the other. */
  function TransferOne(e: Expression, p: Parts): Parts {
    if e.Equal? && e.l.Field? && e.r.Field? then
      var lo, hi := Lower(e), Upper(e);
      match FindLookup(p.left, lo)
      case Some(vs) => p.(right := p.right + [FromLookup(hi, vs)])
      case None =>
        match FindLookup(p.right, hi)
        case Some(vs) => p.(left := p.left + [FromLookup(lo, vs)])
        case None => p
    else p
  }

  function Transfer(es: seq<Expression>, p: Parts): Parts
    decreases |es|
  {
    if es == [] then p else Transfer(es[1..], TransferOne(es[0], p))
  }

  function JoinOpt(es: seq<Expression>): Option<Expression> {
    if es == [] then None else Some(Join(es))
  }

  /** Pushes a predicate into a node, or returns it. */
  function Push(e: Expression, n: Node): (Node, Option<Expression>) {
    match n
    case Scan(table, filter) =>
      (Scan(table, Some(if filter.Some? then And(e, filter.value) else e)), None)
    case NestedLoopJoin(l, ls, r, rs, on, outer) =>
      (NestedLoopJoin(l, ls, r, rs, Some(if on.Some? then And(e, on.value) else e), outer), None)
    case Filter(source, p) => (Filter(source, And(p, e)), None)
    case Source(_) => (n, Some(e))
  }

  function PushOpt(e: Option<Expression>, n: Node): (Node, Option<Expression>) {
    if e.None? then (n, None) else Push(e.value, n)
  }

  function Parted(p: Expression, b: nat): Parts {
    var parts := Split(Conjuncts(IntoCnf(p)), b);
    Transfer(parts.rest, parts)
  }

  function ToSeq(e: Option<Expression>): seq<Expression> {
    if e.None? then [] else [e.value]
  }

  function ShiftOpt(e: Option<Expression>, b: nat): Option<Expression> {
    if e.None? then None else Some(Shift(e.value, b))
  }

  /** Pushes a join predicate down: the new sources and what remains of it. */
  function PushdownJoin(p: Expression, left: Node, right: Node, b: nat): (Node, Node, Option<Expression>) {
    var parts := Parted(p, b);
    var (left', back) := PushOpt(JoinOpt(parts.left), left);
    var (right', back') := PushOpt(ShiftOpt(JoinOpt(parts.right), b), right);
    (left', right', JoinOpt(parts.rest + ToSeq(back) + ToSeq(back')))
  }

  // ---- Conjuncts ----

  ghost predicate AllAccept(o: Ops, es: seq<Expression>, row: Row) {
    forall e :: e in es ==> Accepts(o, e, row)
  }

  lemma {:induction false} AndAccepts(o: Ops, x: Expression, y: Expression, row: Row)
    ensures Accepts(o, And(x, y), row) <==> Accepts(o, x, row) && Accepts(o, y, row)
  {
  }

  lemma {:induction false} JoinAccepts(o: Ops, es: seq<Expression>, row: Row)
    requires es != []
    ensures Accepts(o, Join(es), row) <==> AllAccept(o, es, row)
  {
    var init, last := es[..|es| - 1], es[|es| - 1];
    assert es == init + [last];
    assert AllAccept(o, es, row) <==> AllAccept(o, init, row) && Accepts(o, last, row);
    if init != [] {
      JoinAccepts(o, init, row);
      AndAccepts(o, Join(init), last, row);
    }
  }

  lemma {:induction false} JoinOptAccepts(o: Ops, es: seq<Expression>, row: Row)
    ensures AcceptsOpt(o, JoinOpt(es), row) <==> AllAccept(o, es, row)
  {
    if es != [] {
      JoinAccepts(o, es, row);
    }
  }

  lemma {:induction false} OnlyMeans(es: seq<Expression>, keep: Expression -> bool, e: Expression)
    ensures e in Only(es, keep) <==> e in es && keep(e)
  {
    if es != [] {
      OnlyMeans(es[1..], keep, e);
      assert es == [es[0]] + es[1..];
    }
  }

  lemma SplitMeans(es: seq<Expression>, b: nat, e: Expression)
    ensures var p := Split(es, b);
            && (e in p.left <==> e in es && !RefsRight(e, b))
            && (e in p.right <==> e in es && RefsRight(e, b) && !RefsLeft(e, b))
            && (e in p.rest <==> e in es && RefsRight(e, b) && RefsLeft(e, b))
  {
    OnlyMeans(es, e => !RefsRight(e, b), e);
    OnlyMeans(es, e => RefsRight(e, b) && !RefsLeft(e, b), e);
    OnlyMeans(es, e => RefsRight(e, b) && RefsLeft(e, b), e);
  }

  /** Splitting the predicate into conjuncts does not change which rows pass. */
  lemma {:induction false} PredicateAccepts(o: Ops, p: Expression, row: Row)
    requires Eval(o, p, Some(row)).Some?
    ensures Accepts(o, p, row) <==> AllAccept(o, Conjuncts(IntoCnf(p)), row)
  {
    CnfVecKeeps(o, p, Some(row));
    JoinAccepts(o, Conjuncts(IntoCnf(p)), row);
  }

  // ---- Transferred lookups ----

  /** A value is equal to one of some values. */
  ghost predicate Finds(o: Ops, x: Value, vs: seq<Value>) {
    exists v :: v in vs && Agree(o, x, v)
  }

  lemma FindsEither(o: Ops, x: Value, a: seq<Value>, b: seq<Value>)
    ensures Finds(o, x, a + b) <==> Finds(o, x, a) || Finds(o, x, b)
  {
  }

  lemma FindsOne(o: Ops, x: Value, v: Value)
    ensures Finds(o, x, [v]) <==> Agree(o, x, v)
  {
    assert v in [v];
  }

  /** A lookup that evaluates compares the field with all its values. For a field that
      is not null, it passes if and only if one of them is equal. */
  lemma {:induction false} LookupMeans(o: Ops, e: Expression, field: nat, row: Row)
    requires AsLookup(e, field).Some? && Eval(o, e, Some(row)).Some?
    ensures var vs, x := AsLookup(e, field).value, Eval(o, Field(field), Some(row)).value;
            && Clean(o, e, row) && (forall v :: v in vs ==> Comparable(x, v))
            && (!x.Null? ==> (Accepts(o, e, row) <==> Finds(o, x, vs)))
  {
    var vs, x := AsLookup(e, field).value, Eval(o, Field(field), Some(row)).value;
    if e.Or? {
      LookupMeans(o, e.l, field, row);
      LookupMeans(o, e.r, field, row);
      OrClean(o, e.l, e.r, row);
      FindsEither(o, x, AsLookup(e.l, field).value, AsLookup(e.r, field).value);
    } else {
      assert vs == [vs[0]];
      FindsOne(o, x, vs[0]);
    }
  }

  /** The lookup built from values is a lookup for those values, in whichever order it is
      compared. */
  lemma {:induction false} LookupRoundTrip(field: nat, vs: seq<Value>)
    requires vs != []
    ensures AsLookup(FromLookup(field, vs), field) == Some(vs)
    ensures AsLookup(Equal(Constant(vs[0]), Field(field)), field) == Some([vs[0]])
    ensures AsLookup(IsNull(Field(field)), field) == Some([Null])
  {
    if |vs| > 1 {
      LookupRoundTrip(field, vs[..|vs| - 1]);
      assert vs == vs[..|vs| - 1] + [vs[|vs| - 1]];
    } else {
      assert vs == [vs[0]];
    }
  }

  /** Without floats, a lookup passes if and only if the field has one of the values. */
  lemma LookupIsMembership(o: Ops, e: Expression, field: nat, row: Row)
    requires AsLookup(e, field).Some? && Eval(o, e, Some(row)).Some? && field < |row| && !row[field].Null?
    requires !row[field].Float? && forall v :: v in AsLookup(e, field).value ==> !v.Float?
    ensures Accepts(o, e, row) <==> row[field] in AsLookup(e, field).value
  {
    LookupMeans(o, e, field, row);
    forall v | v in AsLookup(e, field).value ensures Agree(o, row[field], v) <==> row[field] == v {
      EqualMeans(o, row[field], v);
    }
  }

  lemma {:induction false} EvalEqual(o: Ops, x: Expression, y: Expression, row: Row)
    requires Eval(o, x, Some(row)).Some? && Eval(o, y, Some(row)).Some?
    ensures var a, b := Eval(o, x, Some(row)).value, Eval(o, y, Some(row)).value;
            && (Clean(o, Equal(x, y), row) <==> Comparable(a, b))
            && (Accepts(o, Equal(x, y), row) <==> Agree(o, a, b))
  {
    EqualMeans(o, Eval(o, x, Some(row)).value, Eval(o, y, Some(row)).value);
  }

  /** The lookup built from values that can all be compared passes if and only if one is
      equal. */
  lemma {:induction false} FromLookupAccepts(o: Ops, field: nat, vs: seq<Value>, row: Row)
    requires var x := Eval(o, Field(field), Some(row)).value; forall v :: v in vs ==> Comparable(x, v)
    ensures Clean(o, FromLookup(field, vs), row)
    ensures Accepts(o, FromLookup(field, vs), row) <==> Finds(o, Eval(o, Field(field), Some(row)).value, vs)
  {
    var x := Eval(o, Field(field), Some(row)).value;
    if |vs| == 0 {
    } else if |vs| == 1 {
      assert vs == [vs[0]];
      FindsOne(o, x, vs[0]);
      EvalEqual(o, Field(field), Constant(vs[0]), row);
    } else {
      var init, last := vs[..|vs| - 1], vs[|vs| - 1];
      assert vs == init + [last];
      assert last in vs;
      FromLookupAccepts(o, field, init, row);
      EvalEqual(o, Field(field), Constant(last), row);
      OrClean(o, FromLookup(field, init), Equal(Field(field), Constant(last)), row);
      FindsEither(o, x, init, [last]);
      FindsOne(o, x, last);
    }
  }

  lemma {:induction false} OrClean(o: Ops, x: Expression, y: Expression, row: Row)
    requires Clean(o, x, row) && Clean(o, y, row)
    ensures Clean(o, Or(x, y), row)
    ensures Accepts(o, Or(x, y), row) <==> Accepts(o, x, row) || Accepts(o, y, row)
  {
  }

  lemma {:induction false} FindLookupMeans(es: seq<Expression>, field: nat)
    requires FindLookup(es, field).Some?
    ensures exists e :: e in es && AsLookup(e, field) == FindLookup(es, field)
  {
    if AsLookup(es[0], field).Some? {
      assert es[0] in es;
    } else {
      FindLookupMeans(es[1..], field);
    }
  }

  /** A lookup that finds one value also finds another that is equal to it. */
  ghost predicate Carries(o: Ops, x: Value, y: Value, vs: seq<Value>) {
    Agree(o, x, y) && Finds(o, x, vs) ==> Finds(o, y, vs)
  }

  /** An integer that rounds to the same float as one of the values is found itself. */
  ghost predicate Closed(o: Ops, vs: seq<Value>) {
    forall c, y :: Integer(c) in vs && FloatEqual(o.toFloat(c), o.toFloat(y)) ==> Finds(o, Integer(y), vs)
  }

  /** Equality is transitive, but for two integers with a float between them. */
  lemma EqualThrough(o: Ops, x: Value, y: Value, v: Value)
    requires Agree(o, x, y) && Agree(o, x, v) && !(x.Float? && y.Integer? && v.Integer?)
    ensures Agree(o, y, v)
  {
  }

  lemma CarriesUnlessRounded(o: Ops, x: Value, y: Value, vs: seq<Value>)
    requires x.Float? && y.Integer? ==> Closed(o, vs)
    ensures Carries(o, x, y, vs)
  {
    if Agree(o, x, y) && Finds(o, x, vs) {
      var v :| v in vs && Agree(o, x, v);
      if x.Float? && y.Integer? && v.Integer? {
        assert FloatEqual(o.toFloat(v.i), o.toFloat(y.i));
      } else {
        EqualThrough(o, x, y, v);
      }
    }
  }

  /** A lookup carries over from floats to integers if and only if it is closed. */
  lemma ClosedIff(o: Ops, vs: seq<Value>)
    ensures Closed(o, vs) <==> forall x: Value, y: Value :: x.Float? && y.Integer? ==> Carries(o, x, y, vs)
  {
    if Closed(o, vs) {
      forall x: Value, y: Value | x.Float? && y.Integer? ensures Carries(o, x, y, vs) {
        CarriesUnlessRounded(o, x, y, vs);
      }
    } else {
      var c, y :| Integer(c) in vs && FloatEqual(o.toFloat(c), o.toFloat(y)) && !Finds(o, Integer(y), vs);
      assert !Carries(o, Float(o.toFloat(c)), Integer(y), vs);
    }
  }

  /** Values that compare equal can be compared with the same constants. */
  lemma ComparableAlike(o: Ops, x: Value, y: Value, v: Value)
    requires Agree(o, x, y)
    ensures Comparable(x, v) <==> Comparable(y, v)
  {
  }

  /** A lookup on field i passes on an equal field j if and only if it finds its value. */
  lemma {:induction false} TransferHolds(o: Ops, es: seq<Expression>, i: nat, j: nat, row: Row)
    requires FindLookup(es, i).Some? && AllAccept(o, es, row)
    requires i < |row| && j < |row| && Agree(o, row[i], row[j])
    ensures Accepts(o, FromLookup(j, FindLookup(es, i).value), row) <==>
              Carries(o, row[i], row[j], FindLookup(es, i).value)
  {
    FindLookupMeans(es, i);
    var e :| e in es && AsLookup(e, i) == FindLookup(es, i);
    LookupMeans(o, e, i, row);
    var vs := AsLookup(e, i).value;
    forall v | v in vs ensures Comparable(row[j], v) {
      ComparableAlike(o, row[i], row[j], v);
    }
    FromLookupAccepts(o, j, vs, row);
  }

  lemma {:induction false} FieldRefs(field: nat, v: Value, b: nat)
    ensures RefsRight(Equal(Field(field), Constant(v)), b) <==> field >= b
    ensures RefsLeft(Equal(Field(field), Constant(v)), b) <==> field < b
  {
    assert RefsRight(Field(field), b) <==> field >= b;
    assert RefsLeft(Field(field), b) <==> field < b;
    assert !RefsRight(Constant(v), b) && !RefsLeft(Constant(v), b);
  }

  lemma {:induction false} FromLookupRefs(field: nat, vs: seq<Value>, b: nat)
    ensures RefsRight(FromLookup(field, vs), b) <==> field >= b
    ensures RefsLeft(FromLookup(field, vs), b) <==> field < b
  {
    FieldRefs(field, if vs == [] then Null else vs[|vs| - 1], b);
    if |vs| > 1 {
      FromLookupRefs(field, vs[..|vs| - 1], b);
    }
  }

  /** Each part refers to its own side, and all parts hold of the row. */
  ghost predicate Sided(p: Parts, b: nat) {
    && (forall e :: e in p.left ==> !RefsRight(e, b))
    && (forall e :: e in p.right ==> !RefsLeft(e, b))
  }

  lemma TransferOneSided(e: Expression, p: Parts, b: nat)
    requires Sided(p, b) && RefsLeft(e, b) && RefsRight(e, b)
    ensures Sided(TransferOne(e, p), b) && TransferOne(e, p).rest == p.rest
    ensures p.left <= TransferOne(e, p).left && p.right <= TransferOne(e, p).right
  {
    if e.Equal? && e.l.Field? && e.r.Field? {
      var lo, hi := Lower(e), Upper(e);
      if FindLookup(p.left, lo).Some? {
        FromLookupRefs(hi, FindLookup(p.left, lo).value, b);
      } else if FindLookup(p.right, hi).Some? {
        FromLookupRefs(lo, FindLookup(p.right, hi).value, b);
      }
    }
  }

  ghost predicate PartsAccept(o: Ops, p: Parts, row: Row) {
    AllAccept(o, p.left, row) && AllAccept(o, p.right, row) && AllAccept(o, p.rest, row)
  }

  /** The lookup that an equijoin transfers, if any, carries over to the other field. */
  ghost predicate CarriesOne(o: Ops, e: Expression, p: Parts, row: Row) {
    e.Equal? && e.l.Field? && e.r.Field? && Upper(e) < |row| ==>
      var lo, hi := Lower(e), Upper(e);
      if FindLookup(p.left, lo).Some? then Carries(o, row[lo], row[hi], FindLookup(p.left, lo).value)
      else FindLookup(p.right, hi).Some? ==> Carries(o, row[hi], row[lo], FindLookup(p.right, hi).value)
  }

  ghost predicate CarriesAll(o: Ops, es: seq<Expression>, p: Parts, row: Row)
    decreases |es|
  {
    es != [] ==> CarriesOne(o, es[0], p, row) && CarriesAll(o, es[1..], TransferOne(es[0], p), row)
  }

  lemma TransferOneHolds(o: Ops, e: Expression, p: Parts, b: nat, row: Row)
    requires RefsLeft(e, b) && RefsRight(e, b) && CarriesOne(o, e, p, row)
    requires Accepts(o, e, row) && PartsAccept(o, p, row)
    ensures PartsAccept(o, TransferOne(e, p), row)
  {
    if e.Equal? && e.l.Field? && e.r.Field? {
      var lo, hi := Lower(e), Upper(e);
      EquijoinAgrees(o, e, lo, hi, row);
      if FindLookup(p.left, lo).Some? {
        TransferHolds(o, p.left, lo, hi, row);
      } else if FindLookup(p.right, hi).Some? {
        TransferHolds(o, p.right, hi, lo, row);
      }
    }
  }

  lemma {:induction false} EquijoinAgrees(o: Ops, e: Expression, lo: nat, hi: nat, row: Row)
    requires Accepts(o, e, row) && (e == Equal(Field(lo), Field(hi)) || e == Equal(Field(hi), Field(lo)))
    ensures lo < |row| && hi < |row| && Agree(o, row[lo], row[hi])
            && Agree(o, row[hi], row[lo])
  {
    EvalEqual(o, Field(lo), Field(hi), row);
    EvalEqual(o, Field(hi), Field(lo), row);
  }

  lemma {:induction false} TransferAll(es: seq<Expression>, p: Parts, b: nat)
    requires Sided(p, b) && forall e :: e in es ==> RefsLeft(e, b) && RefsRight(e, b)
    ensures Sided(Transfer(es, p), b) && Transfer(es, p).rest == p.rest
    ensures p.left <= Transfer(es, p).left && p.right <= Transfer(es, p).right
    decreases |es|
  {
    if es != [] {
      TransferOneSided(es[0], p, b);
      TransferAll(es[1..], TransferOne(es[0], p), b);
    }
  }

  lemma {:induction false} TransferAllHolds(o: Ops, es: seq<Expression>, p: Parts, b: nat, row: Row)
    requires CarriesAll(o, es, p, row) && forall e :: e in es ==> RefsLeft(e, b) && RefsRight(e, b)
    requires AllAccept(o, es, row) && PartsAccept(o, p, row)
    ensures PartsAccept(o, Transfer(es, p), row)
    decreases |es|
  {
    if es != [] {
      assert es[0] in es;
      TransferOneHolds(o, es[0], p, b, row);
      TransferAllHolds(o, es[1..], TransferOne(es[0], p), b, row);
    }
  }

  // ---- The parts together ----

  lemma {:induction false} JoinRefs(es: seq<Expression>, b: nat)
    requires es != []
    ensures (forall e :: e in es ==> !RefsRight(e, b)) ==> !RefsRight(Join(es), b)
    ensures (forall e :: e in es ==> !RefsLeft(e, b)) ==> !RefsLeft(Join(es), b)
  {
    if |es| > 1 {
      JoinRefs(es[..|es| - 1], b);
    }
  }

  lemma {:induction false} LeftOfRow(o: Ops, es: seq<Expression>, l: Row, r: Row)
    requires forall e :: e in es ==> !RefsRight(e, |l|)
    ensures AcceptsOpt(o, JoinOpt(es), l + r) <==> AcceptsOpt(o, JoinOpt(es), l)
    ensures CleanOpt(o, JoinOpt(es), l + r) <==> CleanOpt(o, JoinOpt(es), l)
  {
    if es != [] {
      JoinRefs(es, |l|);
      EvalLeft(o, Join(es), l, r);
    }
  }

  lemma {:induction false} RightOfRow(o: Ops, es: seq<Expression>, l: Row, r: Row)
    requires forall e :: e in es ==> !RefsLeft(e, |l|)
    ensures AcceptsOpt(o, JoinOpt(es), l + r) <==> AcceptsOpt(o, ShiftOpt(JoinOpt(es), |l|), r)
  {
    if es != [] {
      JoinRefs(es, |l|);
      EvalRight(o, Join(es), l, r);
    }
  }

  lemma PartedSided(p: Expression, b: nat)
    ensures var es := Conjuncts(IntoCnf(p));
            && Sided(Parted(p, b), b) && Parted(p, b).rest == Split(es, b).rest
            && Split(es, b).left <= Parted(p, b).left && Split(es, b).right <= Parted(p, b).right
            && forall e :: e in Split(es, b).rest ==> RefsLeft(e, b) && RefsRight(e, b)
  {
    var es := Conjuncts(IntoCnf(p));
    var parts := Split(es, b);
    forall e ensures (e in parts.left ==> !RefsRight(e, b)) && (e in parts.right ==> !RefsLeft(e, b))
                     && (e in parts.rest ==> RefsLeft(e, b) && RefsRight(e, b)) {
      SplitMeans(es, b, e);
    }
    TransferAll(parts.rest, parts, b);
  }

  /** The lookups that are transferred from one source to the other. */
  ghost function Transferred(p: Expression, b: nat): seq<Expression> {
    PartedSided(p, b);
    var parts := Split(Conjuncts(IntoCnf(p)), b);
    Parted(p, b).left[|parts.left|..] + Parted(p, b).right[|parts.right|..]
  }

  /** All parts hold if and only if the conjuncts and the transferred lookups do. */
  lemma {:induction false} PartsMean(o: Ops, p: Expression, b: nat, row: Row)
    ensures PartsAccept(o, Parted(p, b), row) <==>
              AllAccept(o, Conjuncts(IntoCnf(p)), row) && AllAccept(o, Transferred(p, b), row)
  {
    var es := Conjuncts(IntoCnf(p));
    var parts, all := Split(es, b), Parted(p, b);
    PartedSided(p, b);
    assert all.left == parts.left + all.left[|parts.left|..];
    assert all.right == parts.right + all.right[|parts.right|..];
    forall e ensures e in es <==> e in parts.left || e in parts.right || e in parts.rest {
      SplitMeans(es, b, e);
    }
    assert forall e :: e in all.left || e in all.right || e in all.rest <==> e in es || e in Transferred(p, b);
  }

  /** A row that passes a predicate also passes the lookups transferred from it. */
  ghost predicate Held(o: Ops, p: Expression, b: nat, row: Row) {
    Accepts(o, p, row) ==> AllAccept(o, Transferred(p, b), row)
  }

  /** It does so if each lookup carries over from field to field. */
  lemma CarriedHolds(o: Ops, p: Expression, b: nat, row: Row)
    requires Eval(o, p, Some(row)).Some?
    requires var parts := Split(Conjuncts(IntoCnf(p)), b); CarriesAll(o, parts.rest, parts, row)
    ensures Held(o, p, b, row)
  {
    var es := Conjuncts(IntoCnf(p));
    var parts := Split(es, b);
    PartedSided(p, b);
    PredicateAccepts(o, p, row);
    forall e ensures e in es <==> e in parts.left || e in parts.right || e in parts.rest {
      SplitMeans(es, b, e);
    }
    if Accepts(o, p, row) {
      TransferAllHolds(o, parts.rest, parts, b, row);
      PartsMean(o, p, b, row);
    }
  }

  /** Rows without floats always do. */
  lemma NoFloatsHeld(o: Ops, p: Expression, b: nat, row: Row)
    requires Eval(o, p, Some(row)).Some? && forall i :: 0 <= i < |row| ==> !row[i].Float?
    ensures Held(o, p, b, row)
  {
    var parts := Split(Conjuncts(IntoCnf(p)), b);
    NoFloatsCarry(o, parts.rest, parts, row);
    CarriedHolds(o, p, b, row);
  }

  lemma {:induction false} NoFloatsCarry(o: Ops, es: seq<Expression>, p: Parts, row: Row)
    requires forall i :: 0 <= i < |row| ==> !row[i].Float?
    ensures CarriesAll(o, es, p, row)
    decreases |es|
  {
    if es != [] {
      forall x: Value, y: Value, vs | !x.Float? ensures Carries(o, x, y, vs) { CarriesUnlessRounded(o, x, y, vs); }
      NoFloatsCarry(o, es[1..], TransferOne(es[0], p), row);
    }
  }

  /** The left row passes the left part, the right row the shifted right part, and the
      joined row the rest, if and only if the pair joins and passes the transferred
      lookups. */
  lemma {:induction false} PairAccepted(o: Ops, p: Expression, l: Row, r: Row)
    requires Eval(o, p, Some(l + r)).Some?
    ensures var parts := Parted(p, |l|);
            Accepts(o, p, l + r) && AllAccept(o, Transferred(p, |l|), l + r) <==>
              && AcceptsOpt(o, JoinOpt(parts.left), l)
              && AcceptsOpt(o, ShiftOpt(JoinOpt(parts.right), |l|), r)
              && AcceptsOpt(o, JoinOpt(parts.rest), l + r)
  {
    var b, parts := |l|, Parted(p, |l|);
    PredicateAccepts(o, p, l + r);
    PartsMean(o, p, b, l + r);
    PartedSided(p, b);
    LeftOfRow(o, parts.left, l, r);
    RightOfRow(o, parts.right, l, r);
    JoinOptAccepts(o, parts.left, l + r);
    JoinOptAccepts(o, parts.right, l + r);
    JoinOptAccepts(o, parts.rest, l + r);
  }

  // ---- Rows ----

  lemma {:induction false} SelectIn(o: Ops, rows: seq<Row>, p: Option<Expression>, row: Row)
    ensures row in Select(o, rows, p) <==> row in rows && AcceptsOpt(o, p, row)
  {
    if rows != [] {
      SelectIn(o, rows[1..], p, row);
      assert rows == [rows[0]] + rows[1..];
    }
  }

  lemma ConcatAssociates(x: seq<Row>, y: seq<Row>, z: seq<Row>)
    ensures (x + y) + z == x + (y + z)
  {
  }

  lemma {:induction false} SelectConcat(o: Ops, a: seq<Row>, b: seq<Row>, p: Option<Expression>)
    ensures Select(o, a + b, p) == Select(o, a, p) + Select(o, b, p)
  {
    if a == [] {
      assert a + b == b;
    } else {
      SelectConcat(o, a[1..], b, p);
      assert (a + b)[1..] == a[1..] + b;
      ConcatAssociates(if AcceptsOpt(o, p, a[0]) then [a[0]] else [], Select(o, a[1..], p), Select(o, b, p));
    }
  }

  lemma {:induction false} SelectBoth(o: Ops, rows: seq<Row>, p: Expression, q: Option<Expression>, pq: Expression)
    requires forall row :: Accepts(o, pq, row) <==> Accepts(o, p, row) && AcceptsOpt(o, q, row)
    ensures Select(o, rows, Some(pq)) == Select(o, Select(o, rows, q), Some(p))
  {
    if rows != [] {
      SelectBoth(o, rows[1..], p, q, pq);
      var first := if AcceptsOpt(o, q, rows[0]) then [rows[0]] else [];
      SelectConcat(o, first, Select(o, rows[1..], q), Some(p));
    }
  }

  lemma {:induction false} HitsBoth(o: Ops, l: Row, right: seq<Row>, p: Expression, q: Option<Expression>,
                                    pq: Expression)
    requires forall row :: Accepts(o, pq, row) <==> Accepts(o, p, row) && AcceptsOpt(o, q, row)
    ensures Hits(o, l, right, Some(pq)) == Select(o, Hits(o, l, right, q), Some(p))
  {
    if right != [] {
      HitsBoth(o, l, right[1..], p, q, pq);
      var first := if AcceptsOpt(o, q, l + right[0]) then [l + right[0]] else [];
      SelectConcat(o, first, Hits(o, l, right[1..], q), Some(p));
    }
  }

  lemma {:induction false} JoinRowsBoth(o: Ops, left: seq<Row>, right: seq<Row>, p: Expression, q: Option<Expression>,
                                        pq: Expression, width: nat)
    requires forall row :: Accepts(o, pq, row) <==> Accepts(o, p, row) && AcceptsOpt(o, q, row)
    ensures JoinRows(o, left, right, Some(pq), false, width)
            == Select(o, JoinRows(o, left, right, q, false, width), Some(p))
  {
    if left != [] {
      JoinRowsBoth(o, left[1..], right, p, q, pq, width);
      HitsBoth(o, left[0], right, p, q, pq);
      SelectConcat(o, Hits(o, left[0], right, q), JoinRows(o, left[1..], right, q, false, width), Some(p));
    }
  }

  /** A node that takes a predicate and gives just the rows that pass it. */
  predicate TakesFilter(n: Node) {
    n.Scan? || n.Filter? || (n.NestedLoopJoin? && !n.outer)
  }

  /** Pushing a predicate into a scan, filter or inner join filters its rows. */
  lemma {:induction false} PushFilters(o: Ops, e: Expression, n: Node)
    requires TakesFilter(n)
    ensures Push(e, n).1 == None && Rows(o, Push(e, n).0) == Select(o, Rows(o, n), Some(e))
  {
    match n
    case Scan(table, filter) =>
      var pq := if filter.Some? then And(e, filter.value) else e;
      forall row ensures Accepts(o, pq, row) <==> Accepts(o, e, row) && AcceptsOpt(o, filter, row) {
        if filter.Some? { AndAccepts(o, e, filter.value, row); }
      }
      SelectBoth(o, table, e, filter, pq);
    case Filter(source, p) =>
      forall row ensures Accepts(o, And(p, e), row) <==> Accepts(o, e, row) && AcceptsOpt(o, Some(p), row) {
        AndAccepts(o, p, e, row);
      }
      SelectBoth(o, Rows(o, source), e, Some(p), And(p, e));
    case NestedLoopJoin(l, _, r, width, on, _) =>
      var pq := if on.Some? then And(e, on.value) else e;
      forall row ensures Accepts(o, pq, row) <==> Accepts(o, e, row) && AcceptsOpt(o, on, row) {
        if on.Some? { AndAccepts(o, e, on.value, row); }
      }
      JoinRowsBoth(o, Rows(o, l), Rows(o, r), e, on, pq, width);
  }

  // ---- Joining filtered sources ----

  /** A predicate on pairs that splits into a left, a right and a joint part. */
  ghost predicate SplitsOn(o: Ops, l: Row, r: Row, p: Expression, pl: Option<Expression>, pr: Option<Expression>,
                           q: Option<Expression>) {
    Accepts(o, p, l + r) <==> AcceptsOpt(o, pl, l) && AcceptsOpt(o, pr, r) && AcceptsOpt(o, q, l + r)
  }

  lemma {:induction false} HitsSplit(o: Ops, l: Row, right: seq<Row>, p: Expression, pl: Option<Expression>,
                                     pr: Option<Expression>, q: Option<Expression>)
    requires forall r :: r in right ==> SplitsOn(o, l, r, p, pl, pr, q)
    ensures Hits(o, l, right, Some(p)) == if AcceptsOpt(o, pl, l) then Hits(o, l, Select(o, right, pr), q) else []
  {
    if right != [] {
      assert right[0] in right;
      assert SplitsOn(o, l, right[0], p, pl, pr, q);
      HitsSplit(o, l, right[1..], p, pl, pr, q);
      if AcceptsOpt(o, pr, right[0]) {
        assert ([right[0]] + Select(o, right[1..], pr))[1..] == Select(o, right[1..], pr);
      } else {
        assert [] + Select(o, right[1..], pr) == Select(o, right[1..], pr);
        assert [] + Hits(o, l, right[1..], Some(p)) == Hits(o, l, right[1..], Some(p));
      }
    }
  }

  lemma {:induction false} JoinSplit(o: Ops, left: seq<Row>, right: seq<Row>, p: Expression, pl: Option<Expression>,
                                     pr: Option<Expression>, q: Option<Expression>, width: nat)
    requires forall l, r :: l in left && r in right ==> SplitsOn(o, l, r, p, pl, pr, q)
    ensures JoinRows(o, left, right, Some(p), false, width)
            == JoinRows(o, Select(o, left, pl), Select(o, right, pr), q, false, width)
  {
    if left != [] {
      assert left[0] in left;
      HitsSplit(o, left[0], right, p, pl, pr, q);
      JoinSplit(o, left[1..], right, p, pl, pr, q, width);
      if AcceptsOpt(o, pl, left[0]) {
        assert ([left[0]] + Select(o, left[1..], pl))[1..] == Select(o, left[1..], pl);
      } else {
        assert [] + Select(o, left[1..], pl) == Select(o, left[1..], pl);
      }
    }
  }

  // ---- The theorem ----

  /** What pushdown relies on: left rows of the stated width, and a predicate that
      evaluates without error on every pair. */
  ghost predicate Joinable(o: Ops, p: Expression, left: seq<Row>, right: seq<Row>, b: nat) {
    forall l, r :: l in left && r in right ==> |l| == b && Eval(o, p, Some(l + r)).Some?
  }

  /** No pair that joins fails a transferred lookup. */
  ghost predicate AllHeld(o: Ops, p: Expression, left: seq<Row>, right: seq<Row>, b: nat) {
    forall l, r :: l in left && r in right ==> Held(o, p, b, l + r)
  }

  /** A pair as the pushed-down join sees it. */
  lemma {:induction false} PairSplits(o: Ops, p: Expression, left: seq<Row>, right: seq<Row>, b: nat, l: Row, r: Row,
                                      back: bool)
    requires Joinable(o, p, left, right, b) && l in left && r in right
    ensures var parts := Parted(p, b);
            var pl, pr := JoinOpt(parts.left), ShiftOpt(JoinOpt(parts.right), b);
            if back then SplitsOn(o, l, r, p, None, pr, JoinOpt(parts.rest + ToSeq(pl))) <==> Held(o, p, b, l + r)
            else SplitsOn(o, l, r, p, pl, pr, JoinOpt(parts.rest)) <==> Held(o, p, b, l + r)
  {
    PairAccepted(o, p, l, r);
    if back {
      var parts := Parted(p, b);
      var pl := JoinOpt(parts.left);
      PartedSided(p, b);
      LeftOfRow(o, parts.left, l, r);
      JoinOptAccepts(o, parts.rest, l + r);
      JoinOptAccepts(o, parts.rest + ToSeq(pl), l + r);
      assert AllAccept(o, ToSeq(pl), l + r) <==> AcceptsOpt(o, pl, l + r);
      assert AllAccept(o, parts.rest + ToSeq(pl), l + r)
             <==> AllAccept(o, parts.rest, l + r) && AllAccept(o, ToSeq(pl), l + r);
    }
  }

  lemma {:induction false} SelectNone(o: Ops, rows: seq<Row>)
    ensures Select(o, rows, None) == rows
  {
    if rows != [] {
      SelectNone(o, rows[1..]);
      assert rows == [rows[0]] + rows[1..];
    }
  }

  lemma {:induction false} PushOptFilters(o: Ops, e: Option<Expression>, n: Node)
    requires TakesFilter(n) || e == None
    ensures PushOpt(e, n).1 == None && Rows(o, PushOpt(e, n).0) == Select(o, Rows(o, n), e)
  {
    if e.Some? {
      PushFilters(o, e.value, n);
    } else {
      SelectNone(o, Rows(o, n));
    }
  }

  /** Pushdown leaves the rows of an inner join, and their order, unchanged, if and only
      if no pair that joins fails a transferred lookup. The left source may be anything
      but an outer join; the right source must take the filter, unless there is nothing
      to push into it. */
  lemma {:induction false} PushdownKeepsIff(o: Ops, p: Expression, left: Node, right: Node, b: nat, width: nat)
    requires Joinable(o, p, Rows(o, left), Rows(o, right), b)
    requires TakesFilter(left) || left.Source?
    requires TakesFilter(right) || Parted(p, b).right == []
    ensures var (left', right', q) := PushdownJoin(p, left, right, b);
            Rows(o, NestedLoopJoin(left', b, right', width, q, false))
            == Rows(o, NestedLoopJoin(left, b, right, width, Some(p), false))
            <==> AllHeld(o, p, Rows(o, left), Rows(o, right), b)
  {
    var parts := Parted(p, b);
    var pl := JoinOpt(parts.left);
    var back := left.Source? && pl.Some?;
    var q := JoinOpt(parts.rest + if back then ToSeq(pl) else []);
    PushedShape(o, p, left, right, b, back, parts, q);
    PushedKeepsIff(o, p, Rows(o, left), Rows(o, right), b, width, back, parts, q);
  }

  /** The pairs split as the parts say, if all are held. */
  lemma PairsSplit(o: Ops, p: Expression, L: seq<Row>, R: seq<Row>, b: nat, back: bool, parts: Parts,
                   q: Option<Expression>, l: Row, r: Row)
    requires Joinable(o, p, L, R, b) && parts == Parted(p, b) && l in L && r in R
    requires q == JoinOpt(parts.rest + if back then ToSeq(JoinOpt(parts.left)) else [])
    ensures SplitsOn(o, l, r, p, if back then None else JoinOpt(parts.left), ShiftOpt(JoinOpt(parts.right), b), q)
            <==> Held(o, p, b, l + r)
  {
    assert parts.rest + [] == parts.rest;
    PairSplits(o, p, L, R, b, l, r, back);
  }

  lemma {:induction false} PushedKeepsIff(o: Ops, p: Expression, L: seq<Row>, R: seq<Row>, b: nat, width: nat,
                                          back: bool, parts: Parts, q: Option<Expression>)
    requires Joinable(o, p, L, R, b) && parts == Parted(p, b)
    requires q == JoinOpt(parts.rest + if back then ToSeq(JoinOpt(parts.left)) else [])
    ensures JoinRows(o, Select(o, L, if back then None else JoinOpt(parts.left)),
                     Select(o, R, ShiftOpt(JoinOpt(parts.right), b)), q, false, width)
            == JoinRows(o, L, R, Some(p), false, width)
            <==> AllHeld(o, p, L, R, b)
  {
    if AllHeld(o, p, L, R, b) {
      PushedKeeps(o, p, L, R, b, width, back, parts, q);
    } else {
      var l, r :| l in L && r in R && !Held(o, p, b, l + r);
      PushedLoses(o, p, L, R, b, width, back, parts, q, l, r);
    }
  }

  lemma PushedKeeps(o: Ops, p: Expression, L: seq<Row>, R: seq<Row>, b: nat, width: nat, back: bool, parts: Parts,
                    q: Option<Expression>)
    requires Joinable(o, p, L, R, b) && parts == Parted(p, b) && AllHeld(o, p, L, R, b)
    requires q == JoinOpt(parts.rest + if back then ToSeq(JoinOpt(parts.left)) else [])
    ensures JoinRows(o, Select(o, L, if back then None else JoinOpt(parts.left)),
                     Select(o, R, ShiftOpt(JoinOpt(parts.right), b)), q, false, width)
            == JoinRows(o, L, R, Some(p), false, width)
  {
    var cut, pr := if back then None else JoinOpt(parts.left), ShiftOpt(JoinOpt(parts.right), b);
    forall l, r | l in L && r in R ensures SplitsOn(o, l, r, p, cut, pr, q) {
      PairsSplit(o, p, L, R, b, back, parts, q, l, r);
    }
    JoinSplit(o, L, R, p, cut, pr, q, width);
  }

  lemma PushedLoses(o: Ops, p: Expression, L: seq<Row>, R: seq<Row>, b: nat, width: nat, back: bool, parts: Parts,
                    q: Option<Expression>, l: Row, r: Row)
    requires Joinable(o, p, L, R, b) && parts == Parted(p, b) && l in L && r in R && !Held(o, p, b, l + r)
    requires q == JoinOpt(parts.rest + if back then ToSeq(JoinOpt(parts.left)) else [])
    ensures JoinRows(o, Select(o, L, if back then None else JoinOpt(parts.left)),
                     Select(o, R, ShiftOpt(JoinOpt(parts.right), b)), q, false, width)
            != JoinRows(o, L, R, Some(p), false, width)
  {
    var cut, pr := if back then None else JoinOpt(parts.left), ShiftOpt(JoinOpt(parts.right), b);
    PairsSplit(o, p, L, R, b, back, parts, q, l, r);
    DifferentRows(o, p, L, R, cut, pr, q, width, l, r);
  }

  lemma {:induction false} PushedShape(o: Ops, p: Expression, left: Node, right: Node, b: nat, back: bool,
                                       parts: Parts, q: Option<Expression>)
    requires parts == Parted(p, b) && (TakesFilter(left) || left.Source?) && (TakesFilter(right) || parts.right == [])
    requires back == (left.Source? && JoinOpt(parts.left).Some?)
    requires q == JoinOpt(parts.rest + if back then ToSeq(JoinOpt(parts.left)) else [])
    ensures var (left', right', q') := PushdownJoin(p, left, right, b);
            && q' == q
            && Rows(o, left') == Select(o, Rows(o, left), if back then None else JoinOpt(parts.left))
            && Rows(o, right') == Select(o, Rows(o, right), ShiftOpt(JoinOpt(parts.right), b))
  {
    PushOptFilters(o, ShiftOpt(JoinOpt(parts.right), b), right);
    if back {
      SelectNone(o, Rows(o, left));
    } else {
      PushOptFilters(o, JoinOpt(parts.left), left);
    }
    var kept := parts.rest + if back then ToSeq(JoinOpt(parts.left)) else [];
    assert kept + [] == kept;
  }

  // ---- Which rows an inner join has ----

  lemma {:induction false} HitsIn(o: Ops, l: Row, right: seq<Row>, q: Option<Expression>, x: Row)
    ensures x in Hits(o, l, right, q) <==> AcceptsOpt(o, q, x) && exists r :: r in right && x == l + r
  {
    if right != [] {
      HitsIn(o, l, right[1..], q, x);
      assert right == [right[0]] + right[1..];
    }
  }

  /** Which rows an inner join has. */
  lemma {:induction false} JoinRowsIn(o: Ops, left: seq<Row>, right: seq<Row>, q: Option<Expression>, width: nat,
                                      x: Row)
    ensures x in JoinRows(o, left, right, q, false, width) <==>
              AcceptsOpt(o, q, x) && exists l, r :: l in left && r in right && x == l + r
  {
    if left != [] {
      HitsIn(o, left[0], right, q, x);
      JoinRowsIn(o, left[1..], right, q, width, x);
      assert left == [left[0]] + left[1..];
    }
  }

  /** A joined row comes from one pair, when left rows have the same width. */
  lemma {:induction false} PairIn(o: Ops, left: seq<Row>, right: seq<Row>, q: Option<Expression>, width: nat, l: Row,
                                  r: Row)
    requires forall l' :: l' in left ==> |l'| == |l|
    ensures l + r in JoinRows(o, left, right, q, false, width) <==> l in left && r in right && AcceptsOpt(o, q, l + r)
  {
    JoinRowsIn(o, left, right, q, width, l + r);
    forall l', r' | l' in left && l' + r' == l + r ensures l' == l && r' == r {
      assert l == (l + r)[..|l|] == (l' + r')[..|l|] == l';
      assert r == (l + r)[|l|..] == (l' + r')[|l|..] == r';
    }
  }

  /** Two inner joins that disagree on a pair of rows have different rows. */
  lemma {:induction false} DifferentRows(o: Ops, p: Expression, L: seq<Row>, R: seq<Row>, cut: Option<Expression>,
                                         cutR: Option<Expression>, q: Option<Expression>, width: nat, l: Row, r: Row)
    requires l in L && r in R && forall l' :: l' in L ==> |l'| == |l|
    requires !SplitsOn(o, l, r, p, cut, cutR, q)
    ensures JoinRows(o, Select(o, L, cut), Select(o, R, cutR), q, false, width)
            != JoinRows(o, L, R, Some(p), false, width)
  {
    forall l' ensures l' in Select(o, L, cut) <==> l' in L && AcceptsOpt(o, cut, l') { SelectIn(o, L, cut, l'); }
    forall r' ensures r' in Select(o, R, cutR) <==> r' in R && AcceptsOpt(o, cutR, r') { SelectIn(o, R, cutR, r'); }
    PairIn(o, Select(o, L, cut), Select(o, R, cutR), q, width, l, r);
    PairIn(o, L, R, Some(p), width, l, r);
  }

  // ---- A right source that refuses ----

  /** The part of the right source, with its field numbers shifted, means the same
      on the joined row as on the right row, at least where the other parts pass. */
  ghost predicate ShiftHarmless(o: Ops, parts: Parts, b: nat, l: Row, r: Row)
    requires parts.right != []
  {
    AcceptsOpt(o, JoinOpt(parts.left), l) && AcceptsOpt(o, JoinOpt(parts.rest), l + r) ==>
      (Accepts(o, Shift(Join(parts.right), b), l + r) <==> Accepts(o, Shift(Join(parts.right), b), r))
  }

  /** A pair as the pushed-down join sees it, when the right source refuses. */
  lemma {:induction false} RefusedPair(o: Ops, p: Expression, left: seq<Row>, right: seq<Row>, b: nat, l: Row, r: Row,
                                       back: bool, parts: Parts, q: Option<Expression>)
    requires Joinable(o, p, left, right, b) && l in left && r in right && parts == Parted(p, b) && parts.right != []
    requires q == JoinOpt(parts.rest + (if back then ToSeq(JoinOpt(parts.left)) else [])
                          + [Shift(Join(parts.right), b)])
    ensures AcceptsOpt(o, q, l + r) && (back || AcceptsOpt(o, JoinOpt(parts.left), l)) <==>
              && AcceptsOpt(o, JoinOpt(parts.left), l) && AcceptsOpt(o, JoinOpt(parts.rest), l + r)
              && Accepts(o, Shift(Join(parts.right), b), l + r)
  {
    var pl, mid := JoinOpt(parts.left), if back then ToSeq(JoinOpt(parts.left)) else [];
    var last := [Shift(Join(parts.right), b)];
    PartedSided(p, b);
    LeftOfRow(o, parts.left, l, r);
    JoinOptAccepts(o, parts.rest, l + r);
    JoinOptAccepts(o, parts.rest + mid + last, l + r);
    assert AllAccept(o, ToSeq(pl), l + r) <==> AcceptsOpt(o, pl, l + r);
    assert AllAccept(o, parts.rest + mid + last, l + r) <==>
             AllAccept(o, parts.rest, l + r) && AllAccept(o, mid, l + r) && AllAccept(o, last, l + r);
  }

  /** A right source that refuses its part gets it back with shifted field numbers.
      The join then keeps its rows if and only if the shift is harmless on every
      pair of rows. */
  lemma {:induction false} RefusedRightExact(o: Ops, p: Expression, left: Node, right: Node, b: nat, width: nat)
    requires Joinable(o, p, Rows(o, left), Rows(o, right), b) && AllHeld(o, p, Rows(o, left), Rows(o, right), b)
    requires TakesFilter(left) || left.Source?
    requires right.Source? && Parted(p, b).right != []
    ensures var (left', right', q) := PushdownJoin(p, left, right, b);
            Rows(o, NestedLoopJoin(left', b, right', width, q, false))
            == Rows(o, NestedLoopJoin(left, b, right, width, Some(p), false))
            <==> forall l, r :: l in Rows(o, left) && r in Rows(o, right) ==> ShiftHarmless(o, Parted(p, b), b, l, r)
  {
    var parts := Parted(p, b);
    var pl := JoinOpt(parts.left);
    var back := left.Source? && pl.Some?;
    var q := JoinOpt(parts.rest + (if back then ToSeq(pl) else []) + [Shift(Join(parts.right), b)]);
    RefusedShape(o, p, left, right, b, back, parts, q);
    RefusedKeepsIff(o, p, Rows(o, left), Rows(o, right), b, width, back, parts, q);
  }

  lemma {:induction false} RefusedKeepsIff(o: Ops, p: Expression, L: seq<Row>, R: seq<Row>, b: nat, width: nat,
                                           back: bool, parts: Parts, q: Option<Expression>)
    requires Joinable(o, p, L, R, b) && AllHeld(o, p, L, R, b) && parts == Parted(p, b) && parts.right != []
    requires q == JoinOpt(parts.rest + (if back then ToSeq(JoinOpt(parts.left)) else [])
                          + [Shift(Join(parts.right), b)])
    ensures JoinRows(o, Select(o, L, if back then None else JoinOpt(parts.left)), R, q, false, width)
            == JoinRows(o, L, R, Some(p), false, width)
            <==> forall l, r :: l in L && r in R ==> ShiftHarmless(o, parts, b, l, r)
  {
    if forall l, r :: l in L && r in R ==> ShiftHarmless(o, parts, b, l, r) {
      HarmlessKeeps(o, p, L, R, b, width, back, parts, q);
    } else {
      var l, r :| l in L && r in R && !ShiftHarmless(o, parts, b, l, r);
      HarmfulChanges(o, p, L, R, b, width, back, parts, q, l, r);
    }
  }

  lemma {:induction false} RefusedShape(o: Ops, p: Expression, left: Node, right: Node, b: nat, back: bool,
                                        parts: Parts, q: Option<Expression>)
    requires TakesFilter(left) || left.Source?
    requires right.Source? && parts == Parted(p, b) && parts.right != []
             && back == (left.Source? && JoinOpt(parts.left).Some?)
    requires q == JoinOpt(parts.rest + (if back then ToSeq(JoinOpt(parts.left)) else [])
                          + [Shift(Join(parts.right), b)])
    ensures var (left', right', q') := PushdownJoin(p, left, right, b);
            q' == q && right' == right
            && Rows(o, left') == Select(o, Rows(o, left), if back then None else JoinOpt(parts.left))
  {
    var pl := JoinOpt(parts.left);
    if back {
      SelectNone(o, Rows(o, left));
    } else {
      PushOptFilters(o, pl, left);
    }
  }

  lemma {:induction false} HarmlessKeeps(o: Ops, p: Expression, L: seq<Row>, R: seq<Row>, b: nat, width: nat,
                                         back: bool, parts: Parts, q: Option<Expression>)
    requires Joinable(o, p, L, R, b) && AllHeld(o, p, L, R, b) && parts == Parted(p, b) && parts.right != []
    requires q == JoinOpt(parts.rest + (if back then ToSeq(JoinOpt(parts.left)) else [])
                          + [Shift(Join(parts.right), b)])
    requires forall l, r :: l in L && r in R ==> ShiftHarmless(o, parts, b, l, r)
    ensures JoinRows(o, Select(o, L, if back then None else JoinOpt(parts.left)), R, q, false, width)
            == JoinRows(o, L, R, Some(p), false, width)
  {
    var cut := if back then None else JoinOpt(parts.left);
    forall l, r | l in L && r in R ensures SplitsOn(o, l, r, p, cut, None, q) {
      assert ShiftHarmless(o, parts, b, l, r) && Held(o, p, b, l + r);
      PairAccepted(o, p, l, r);
      RefusedPair(o, p, L, R, b, l, r, back, parts, q);
    }
    JoinSplit(o, L, R, p, cut, None, q, width);
    SelectNone(o, R);
  }

  lemma {:induction false} RefusedDisagrees(o: Ops, p: Expression, L: seq<Row>, R: seq<Row>, b: nat, back: bool,
                                            parts: Parts, q: Option<Expression>, l: Row, r: Row)
    requires Joinable(o, p, L, R, b) && AllHeld(o, p, L, R, b) && parts == Parted(p, b) && parts.right != []
    requires q == JoinOpt(parts.rest + (if back then ToSeq(JoinOpt(parts.left)) else [])
                          + [Shift(Join(parts.right), b)])
    requires l in L && r in R && !ShiftHarmless(o, parts, b, l, r)
    ensures Accepts(o, p, l + r) != (AcceptsOpt(o, if back then None else JoinOpt(parts.left), l)
                                     && AcceptsOpt(o, q, l + r))
  {
    assert Held(o, p, b, l + r);
    PairAccepted(o, p, l, r);
    RefusedPair(o, p, L, R, b, l, r, back, parts, q);
  }

  lemma {:induction false} HarmfulChanges(o: Ops, p: Expression, L: seq<Row>, R: seq<Row>, b: nat, width: nat,
                                          back: bool, parts: Parts, q: Option<Expression>, l: Row, r: Row)
    requires Joinable(o, p, L, R, b) && AllHeld(o, p, L, R, b) && parts == Parted(p, b) && parts.right != []
    requires q == JoinOpt(parts.rest + (if back then ToSeq(JoinOpt(parts.left)) else [])
                          + [Shift(Join(parts.right), b)])
    requires l in L && r in R && !ShiftHarmless(o, parts, b, l, r)
    ensures JoinRows(o, Select(o, L, if back then None else JoinOpt(parts.left)), R, q, false, width)
            != JoinRows(o, L, R, Some(p), false, width)
  {
    RefusedDisagrees(o, p, L, R, b, back, parts, q, l, r);
    DifferentRows(o, p, L, R, if back then None else JoinOpt(parts.left), None, q, width, l, r);
    SelectNone(o, R);
  }

  /** Such a join can indeed return other rows, all else being as required. */
  lemma {:induction false} RefusedRightChangesRows(o: Ops, p: Expression, left: Node, right: Node)
    requires p == Equal(Field(1), Constant(Integer(5)))
    requires left == Source([[Integer(5)]]) && right == Source([[Integer(7)]])
    ensures Rows(o, NestedLoopJoin(left, 1, right, 1, Some(p), false)) == []
    ensures var (left', right', q) := PushdownJoin(p, left, right, 1);
            Rows(o, NestedLoopJoin(left', 1, right', 1, q, false)) == [[Integer(5), Integer(7)]]
  {
    var l, r: Row := [Integer(5)], [Integer(7)];
    RefusedParts(p);
    ShiftedPasses(o, l + r);
    OneRowJoin(o, l, r, p);
    OneRowJoin(o, l, r, Equal(Field(0), Constant(Integer(5))));
  }

  lemma {:induction false} ShiftedPasses(o: Ops, row: Row)
    requires row == [Integer(5)] + [Integer(7)]
    ensures row == [Integer(5), Integer(7)]
    ensures !Accepts(o, Equal(Field(1), Constant(Integer(5))), row)
    ensures Accepts(o, Equal(Field(0), Constant(Integer(5))), row)
  {
    EvalEqual(o, Field(1), Constant(Integer(5)), row);
    EvalEqual(o, Field(0), Constant(Integer(5)), row);
  }

  lemma {:induction false} RefusedIsJoinable(o: Ops, p: Expression)
    requires p == Equal(Field(1), Constant(Integer(5)))
    ensures Joinable(o, p, [[Integer(5)]], [[Integer(7)]], 1) && AllHeld(o, p, [[Integer(5)]], [[Integer(7)]], 1)
  {
    var l, r: Row := [Integer(5)], [Integer(7)];
    assert l + r == [Integer(5), Integer(7)];
    EvalEqual(o, Field(1), Constant(Integer(5)), l + r);
    NoFloatsHeld(o, p, 1, l + r);
  }

  lemma {:induction false} OneRowJoin(o: Ops, l: Row, r: Row, p: Expression)
    ensures Rows(o, NestedLoopJoin(Source([l]), 1, Source([r]), 1, Some(p), false))
            == if Accepts(o, p, l + r) then [l + r] else []
  {
    var left, right: seq<Row> := [l], [r];
    assert right[1..] == [] && left[1..] == [];
    assert Hits(o, l, right[1..], Some(p)) == [];
    assert Hits(o, l, right, Some(p)) == if Accepts(o, p, l + r) then [l + r] else [];
    assert JoinRows(o, left[1..], right, Some(p), false, 1) == [];
  }

  lemma OnlyOne(e: Expression, keep: Expression -> bool)
    ensures Only([e], keep) == if keep(e) then [e] else []
  {
    assert [e][1..] == [];
  }

  lemma {:induction false} RefusedSplit(p: Expression)
    requires p == Equal(Field(1), Constant(Integer(5)))
    ensures Split([p], 1) == Parts([], [p], [])
  {
    assert RefsRight(p, 1) && !RefsLeft(p, 1);
    OnlyOne(p, e => !RefsRight(e, 1));
    OnlyOne(p, e => RefsRight(e, 1) && !RefsLeft(e, 1));
    OnlyOne(p, e => RefsRight(e, 1) && RefsLeft(e, 1));
  }

  lemma {:induction false} RefusedParts(p: Expression)
    requires p == Equal(Field(1), Constant(Integer(5)))
    ensures PushdownJoin(p, Source([[Integer(5)]]), Source([[Integer(7)]]), 1)
            == (Source([[Integer(5)]]), Source([[Integer(7)]]), Some(Equal(Field(0), Constant(Integer(5)))))
  {
    assert IntoCnf(p) == p;
    assert Conjuncts(p) == [p];
    RefusedSplit(p);
    assert Parted(p, 1) == Parts([], [p], []);
    assert Join([p]) == p;
    assert [] + [] + [Shift(p, 1)] == [Shift(p, 1)];
  }

  // ---- Outer joins ----

  /** An outer join of filtered sources: a left row that the filter drops is missing,
      where it would have been padded. */
  lemma {:induction false} OuterSplit(o: Ops, left: seq<Row>, right: seq<Row>, p: Expression, pl: Option<Expression>,
                                      pr: Option<Expression>, q: Option<Expression>, width: nat)
    requires forall l, r :: l in left && r in right ==> SplitsOn(o, l, r, p, pl, pr, q)
    ensures var before, after := JoinRows(o, left, right, Some(p), true, width),
                                 JoinRows(o, Select(o, left, pl), Select(o, right, pr), q, true, width);
            if forall l :: l in left ==> AcceptsOpt(o, pl, l) then after == before else |after| < |before|
  {
    if left != [] {
      var rest := left[1..];
      assert left == [left[0]] + rest;
      HitsSplit(o, left[0], right, p, pl, pr, q);
      OuterSplit(o, rest, right, p, pl, pr, q, width);
      if AcceptsOpt(o, pl, left[0]) {
        assert ([left[0]] + Select(o, rest, pl))[1..] == Select(o, rest, pl);
        assert (forall l :: l in left ==> AcceptsOpt(o, pl, l)) <==> forall l :: l in rest ==> AcceptsOpt(o, pl, l);
      } else {
        assert [] + Select(o, rest, pl) == Select(o, rest, pl);
        assert left[0] in left;
      }
    }
  }

  /** The code pushes down the predicate of an outer join as that of an inner one. The
      rows stay the same if and only if every left row passes the left part, or the left
      source does not take it. */
  lemma OuterKeepsIff(o: Ops, p: Expression, left: Node, right: Node, b: nat, width: nat)
    requires Joinable(o, p, Rows(o, left), Rows(o, right), b) && AllHeld(o, p, Rows(o, left), Rows(o, right), b)
    requires TakesFilter(left) || left.Source?
    requires TakesFilter(right) || Parted(p, b).right == []
    ensures var (left', right', q) := PushdownJoin(p, left, right, b);
            Rows(o, NestedLoopJoin(left', b, right', width, q, true))
            == Rows(o, NestedLoopJoin(left, b, right, width, Some(p), true))
            <==> left.Source? || forall l :: l in Rows(o, left) ==> AcceptsOpt(o, JoinOpt(Parted(p, b).left), l)
  {
    var parts := Parted(p, b);
    var pl := JoinOpt(parts.left);
    var back := left.Source? && pl.Some?;
    var q := JoinOpt(parts.rest + if back then ToSeq(pl) else []);
    var cut, pr := if back then None else pl, ShiftOpt(JoinOpt(parts.right), b);
    PushedShape(o, p, left, right, b, back, parts, q);
    forall l, r | l in Rows(o, left) && r in Rows(o, right) ensures SplitsOn(o, l, r, p, cut, pr, q) {
      PairsSplit(o, p, Rows(o, left), Rows(o, right), b, back, parts, q, l, r);
    }
    OuterSplit(o, Rows(o, left), Rows(o, right), p, cut, pr, q, width);
  }

  /** A left row of an outer join keeps its place under a filter: a match passes, or there
      is none and the padded row passes. */
  ghost predicate Survives(o: Ops, l: Row, right: seq<Row>, on: Option<Expression>, e: Expression, width: nat) {
    var hits := Hits(o, l, right, on);
    Select(o, hits, Some(e)) != [] || (hits == [] && Accepts(o, e, l + Nulls(width)))
  }

  ghost predicate AllSurvive(o: Ops, left: seq<Row>, right: seq<Row>, on: Option<Expression>, e: Expression,
                             width: nat) {
    forall l :: l in left ==> Survives(o, l, right, on, e, width)
  }

  lemma {:induction false} OuterFilter(o: Ops, left: seq<Row>, right: seq<Row>, e: Expression, on: Option<Expression>,
                                       both: Expression, width: nat)
    requires forall row :: Accepts(o, both, row) <==> Accepts(o, e, row) && AcceptsOpt(o, on, row)
    ensures var before, after := Select(o, JoinRows(o, left, right, on, true, width), Some(e)),
                                 JoinRows(o, left, right, Some(both), true, width);
            if AllSurvive(o, left, right, on, e, width) then after == before else |before| < |after|
  {
    if left != [] {
      var l, rest := left[0], left[1..];
      assert left == [l] + rest;
      HitsBoth(o, l, right, e, on, both);
      OuterFilter(o, rest, right, e, on, both, width);
      SelectConcat(o, JoinRow(o, l, right, on, true, width), JoinRows(o, rest, right, on, true, width), Some(e));
      FilteredRow(o, l, right, e, on, both, width);
      assert AllSurvive(o, left, right, on, e, width) <==>
               Survives(o, l, right, on, e, width) && AllSurvive(o, rest, right, on, e, width);
    }
  }

  lemma FilteredRow(o: Ops, l: Row, right: seq<Row>, e: Expression, on: Option<Expression>, both: Expression,
                    width: nat)
    requires Hits(o, l, right, Some(both)) == Select(o, Hits(o, l, right, on), Some(e))
    ensures var before, after := Select(o, JoinRow(o, l, right, on, true, width), Some(e)),
                                 JoinRow(o, l, right, Some(both), true, width);
            if Survives(o, l, right, on, e, width) then after == before else |before| < |after|
  {
    var pad := [l + Nulls(width)];
    assert pad[1..] == [] && Select(o, pad, Some(e)) == if Accepts(o, e, pad[0]) then pad else [];
  }

  /** A filter pushed into an outer join becomes part of its predicate. The rows stay the
      same if and only if every left row keeps its place. */
  lemma OuterFilterIff(o: Ops, e: Expression, n: Node)
    requires n.NestedLoopJoin? && n.outer
    ensures Push(e, n).1 == None
    ensures Rows(o, Push(e, n).0) == Rows(o, Filter(n, e)) <==>
              AllSurvive(o, Rows(o, n.left), Rows(o, n.right), n.on, e, n.rightSize)
  {
    var both := if n.on.Some? then And(e, n.on.value) else e;
    forall row ensures Accepts(o, both, row) <==> Accepts(o, e, row) && AcceptsOpt(o, n.on, row) {
      if n.on.Some? { AndAccepts(o, e, n.on.value, row); }
    }
    OuterFilter(o, Rows(o, n.left), Rows(o, n.right), e, n.on, both, n.rightSize);
    var L, R := Rows(o, n.left), Rows(o, n.right);
    assert n == NestedLoopJoin(n.left, n.leftSize, n.right, n.rightSize, n.on, true);
    assert Rows(o, Filter(n, e)) == Select(o, JoinRows(o, L, R, n.on, true, n.rightSize), Some(e));
    assert Rows(o, Push(e, n).0) == JoinRows(o, L, R, Some(both), true, n.rightSize);
  }

  /** An outer join that loses its row: the left part drops what would have been padded. */
  lemma OuterLosesRow(o: Ops, p: Expression, n: Node)
    requires p == Equal(Field(0), Constant(Integer(7)))
    requires n == NestedLoopJoin(Scan([[Integer(5)]], None), 1, Scan([[Integer(5)]], None), 1, Some(p), true)
    ensures Rows(o, n) == [[Integer(5), Null]]
    ensures var (left', right', q) := PushdownJoin(p, n.left, n.right, 1);
            Rows(o, NestedLoopJoin(left', 1, right', 1, q, true)) == []
  {
    var l: Row := [Integer(5)];
    assert [l][1..] == [];
    SelectNone(o, [l]);
    EvalEqual(o, Field(0), Constant(Integer(7)), l);
    EvalEqual(o, Field(0), Constant(Integer(7)), l + l);
    assert Hits(o, l, [l], Some(p)) == [];
    assert JoinRow(o, l, [l], Some(p), true, 1) == [l + Nulls(1)];
    assert JoinRows(o, [l], [l], Some(p), true, 1) == [l + Nulls(1)] + [];
    assert l + Nulls(1) == [Integer(5), Null];
    assert IntoCnf(p) == p && Conjuncts(p) == [p];
    LeftSplit(p, 1);
    assert Parted(p, 1) == Parts([p], [], []);
    assert Join([p]) == p;
    assert Select(o, [l], Some(p)) == [];
  }

  lemma LeftSplit(p: Expression, b: nat)
    requires !RefsRight(p, b)
    ensures Split([p], b) == Parts([p], [], [])
  {
    OnlyOne(p, e => !RefsRight(e, b));
    OnlyOne(p, e => RefsRight(e, b) && !RefsLeft(e, b));
    OnlyOne(p, e => RefsRight(e, b) && RefsLeft(e, b));
  }

  // ---- No new errors ----

  ghost predicate AllClean(o: Ops, es: seq<Expression>, row: Row) {
    forall e :: e in es ==> Clean(o, e, row)
  }

  lemma {:induction false} AndClean(o: Ops, x: Expression, y: Expression, row: Row)
    ensures Clean(o, And(x, y), row) <==> Clean(o, x, row) && Clean(o, y, row)
  {
  }

  lemma {:induction false} JoinClean(o: Ops, es: seq<Expression>, row: Row)
    requires es != []
    ensures Clean(o, Join(es), row) <==> AllClean(o, es, row)
  {
    var init, last := es[..|es| - 1], es[|es| - 1];
    assert es == init + [last];
    assert AllClean(o, es, row) <==> AllClean(o, init, row) && Clean(o, last, row);
    if init != [] {
      JoinClean(o, init, row);
      AndClean(o, Join(init), last, row);
    }
  }

  lemma RestClean(o: Ops, p: Expression, b: nat, row: Row)
    requires Clean(o, p, row)
    ensures AllClean(o, Parted(p, b).rest, row)
  {
    var es := Conjuncts(IntoCnf(p));
    CnfVecKeeps(o, p, Some(row));
    JoinClean(o, es, row);
    PartedSided(p, b);
    forall e | e in Split(es, b).rest ensures Clean(o, e, row) {
      SplitMeans(es, b, e);
    }
  }

  /** A predicate is clean on all rows that a node would evaluate it on. */
  ghost predicate CleanFor(o: Ops, e: Option<Expression>, n: Node) {
    match n
    case Scan(table, _) => forall row :: row in table ==> CleanOpt(o, e, row)
    case Filter(source, _) => forall row :: row in Rows(o, source) ==> CleanOpt(o, e, row)
    case NestedLoopJoin(l, _, r, _, _, _) => CleanPairs(o, Rows(o, l), Rows(o, r), e)
    case Source(rows) => forall row :: row in rows ==> CleanOpt(o, e, row)
  }

  lemma {:induction false} PushNoErrors(o: Ops, e: Expression, n: Node)
    requires NoErrors(o, n) && CleanFor(o, Some(e), n)
    ensures NoErrors(o, Push(e, n).0)
  {
    match n
    case Scan(table, filter) =>
      if filter.Some? {
        forall row | row in table ensures Clean(o, And(e, filter.value), row) {
          AndClean(o, e, filter.value, row);
        }
      }
    case Filter(source, p) =>
      forall row | row in Rows(o, source) ensures Clean(o, And(p, e), row) {
        AndClean(o, p, e, row);
      }
    case NestedLoopJoin(left, _, right, _, on, _) =>
      if on.Some? {
        forall l, r | l in Rows(o, left) && r in Rows(o, right) ensures Clean(o, And(e, on.value), l + r) {
          AndClean(o, e, on.value, l + r);
        }
      }
    case Source(_) =>
  }

  lemma PushOptNoErrors(o: Ops, e: Option<Expression>, n: Node)
    requires NoErrors(o, n) && CleanFor(o, e, n) && (TakesFilter(n) || n.Source? || e == None)
    ensures NoErrors(o, PushOpt(e, n).0)
    ensures forall row :: row in Rows(o, PushOpt(e, n).0) ==> row in Rows(o, n)
  {
    if e.Some? {
      PushNoErrors(o, e.value, n);
      if TakesFilter(n) {
        PushFilters(o, e.value, n);
        forall row | row in Rows(o, Push(e.value, n).0) ensures row in Rows(o, n) {
          SelectIn(o, Rows(o, n), Some(e.value), row);
        }
      }
    }
  }

  /** Pushdown adds no errors: if the join has none, and the parts pushed into the
      sources are clean on the rows they now see, the new join has none. */
  lemma {:induction false} PushdownNoErrors(o: Ops, p: Expression, left: Node, right: Node, b: nat, width: nat)
    requires Joinable(o, p, Rows(o, left), Rows(o, right), b)
    requires TakesFilter(left) || left.Source?
    requires TakesFilter(right) || Parted(p, b).right == []
    requires NoErrors(o, NestedLoopJoin(left, b, right, width, Some(p), false))
    requires CleanFor(o, JoinOpt(Parted(p, b).left), left)
    requires CleanFor(o, ShiftOpt(JoinOpt(Parted(p, b).right), b), right)
    ensures var (left', right', q) := PushdownJoin(p, left, right, b);
            NoErrors(o, NestedLoopJoin(left', b, right', width, q, false))
  {
    var parts := Parted(p, b);
    var pl, pr := JoinOpt(parts.left), ShiftOpt(JoinOpt(parts.right), b);
    var (left', right', q) := PushdownJoin(p, left, right, b);
    PushOptNoErrors(o, pl, left);
    PushOptNoErrors(o, pr, right);
    PushOptFilters(o, pr, right);
    forall l, r | l in Rows(o, left') && r in Rows(o, right') ensures CleanOpt(o, q, l + r) {
      RemainderClean(o, p, left, right, b, l, r);
    }
  }

  lemma RemainderClean(o: Ops, p: Expression, left: Node, right: Node, b: nat, l: Row, r: Row)
    requires Joinable(o, p, Rows(o, left), Rows(o, right), b) && l in Rows(o, left) && r in Rows(o, right)
    requires TakesFilter(left) || left.Source?
    requires TakesFilter(right) || Parted(p, b).right == []
    requires Clean(o, p, l + r) && CleanFor(o, JoinOpt(Parted(p, b).left), left)
    ensures CleanOpt(o, PushdownJoin(p, left, right, b).2, l + r)
  {
    var parts := Parted(p, b);
    RestClean(o, p, b, l + r);
    PartedSided(p, b);
    LeftOfRow(o, parts.left, l, r);
    PushOptFilters(o, ShiftOpt(JoinOpt(parts.right), b), right);
    var back := PushOpt(JoinOpt(parts.left), left).1;
    var es := parts.rest + ToSeq(back);
    assert es + [] == es;
    assert AllClean(o, es, l + r);
    if es != [] {
      JoinClean(o, es, l + r);
    }
  }

  // ---- As it runs ----

  /** Moves the conjuncts that satisfy a test to their own list. */
  method Partition(es: seq<Expression>, test: Expression -> bool, ghost other: Expression -> bool)
    returns (yes: seq<Expression>, no: seq<Expression>)
    requires forall e :: other(e) == !test(e)
    ensures yes == Only(es, test) && no == Only(es, other)
  {
    yes, no := [], [];
    for i := 0 to |es|
      invariant yes == Only(es[..i], test) && no == Only(es[..i], other)
    {
      OnlyNext(es[..i], es[i], test);
      OnlyNext(es[..i], es[i], other);
      assert es[..i + 1] == es[..i] + [es[i]];
      if test(es[i]) {
        yes := yes + [es[i]];
      } else {
        no := no + [es[i]];
      }
    }
    assert es[..|es|] == es;
  }

  lemma {:induction false} OnlyNext(es: seq<Expression>, e: Expression, keep: Expression -> bool)
    ensures Only(es + [e], keep) == Only(es, keep) + if keep(e) then [e] else []
  {
    if es == [] {
      assert ([] + [e]) == [e];
      OnlyOne(e, keep);
    } else {
      var first: seq<Expression> := if keep(es[0]) then [es[0]] else [];
      var last: seq<Expression> := if keep(e) then [e] else [];
      OnlyNext(es[1..], e, keep);
      assert (es + [e])[1..] == es[1..] + [e];
      assert first + (Only(es[1..], keep) + last) == (first + Only(es[1..], keep)) + last;
    }
  }

  lemma {:induction false} OnlyTwice(es: seq<Expression>, f: Expression -> bool, g: Expression -> bool,
                                     fg: Expression -> bool)
    requires forall e :: fg(e) <==> f(e) && g(e)
    ensures Only(Only(es, f), g) == Only(es, fg)
  {
    if es != [] {
      OnlyTwice(es[1..], f, g, fg);
      var first, tail := if f(es[0]) then [es[0]] else [], Only(es[1..], f);
      if f(es[0]) {
        assert (first + tail)[0] == es[0] && (first + tail)[1..] == tail;
      } else {
        assert first + tail == tail;
      }
    }
  }

  method SplitConjuncts(es: seq<Expression>, b: nat) returns (p: Parts)
    ensures p == Split(es, b)
  {
    ghost var f, g := e => RefsRight(e, b), e => RefsLeft(e, b);
    var notRight, notLeft := e => !RefsRight(e, b), e => !RefsLeft(e, b);
    var left, others := Partition(es, notRight, f);
    var right, rest := Partition(others, notLeft, g);
    OnlyTwice(es, f, notLeft, e => RefsRight(e, b) && !RefsLeft(e, b));
    OnlyTwice(es, f, g, e => RefsRight(e, b) && RefsLeft(e, b));
    p := Parts(left, right, rest);
  }

  method TransferLookups(parts: Parts) returns (p: Parts)
    ensures p == Transfer(parts.rest, parts)
  {
    p := parts;
    assert parts.rest[0..] == parts.rest;
    for i := 0 to |parts.rest|
      invariant Transfer(parts.rest[i..], p) == Transfer(parts.rest, parts)
    {
      assert parts.rest[i..][0] == parts.rest[i] && parts.rest[i..][1..] == parts.rest[i + 1..];
      p := TransferOne(parts.rest[i], p);
    }
  }

  /** Partitions a join predicate and pushes its parts into the sources. */
  method Pushdown(p: Expression, left: Node, right: Node, b: nat)
    returns (left': Node, right': Node, remaining: Option<Expression>)
    ensures (left', right', remaining) == PushdownJoin(p, left, right, b)
  {
    var cnf := IntoCnfVec(p);
    var parts := SplitConjuncts(cnf, b);
    parts := TransferLookups(parts);
    var pushLeft := FromCnfVec(parts.left);
    var back: Option<Expression>, back': Option<Expression>;
    left', back := PushInto(pushLeft, left);
    var pushRight := FromCnfVec(parts.right);
    right', back' := PushInto(ShiftOpt(pushRight, b), right);
    remaining := FromCnfVec(parts.rest + ToSeq(back) + ToSeq(back'));
  }

  method PushInto(e: Option<Expression>, n: Node) returns (n': Node, back: Option<Expression>)
    ensures (n', back) == PushOpt(e, n)
  {
    n', back := n, None;
    if e.Some? {
      var r := Push(e.value, n);
      n', back := r.0, r.1;
    }
  }
}
