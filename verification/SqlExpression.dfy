/** SQL expressions with three-valued logic, and their rewriting to negation and
    conjunctive normal form. */
module SqlExpression {
  import opened Basics

  /** The bits of a float: its sign, and below it a number that grows with its magnitude. */
  type Bits = x: nat | x < 0x1_0000_0000_0000_0000

  const SIGN_BIT: Bits := 0x8000_0000_0000_0000
  const INFINITY: Bits := 0x7ff0_0000_0000_0000

  predicate IsNaN(x: Bits) {
    x % SIGN_BIT > INFINITY
  }

  predicate IsZero(x: Bits) {
    x % SIGN_BIT == 0
  }

  /** Equality of floats, as in section 5.11 of IEEE 754-2008: a NaN is equal to nothing,
      not even itself, and the two zeros are equal. */
  predicate FloatEqual(x: Bits, y: Bits) {
    !IsNaN(x) && !IsNaN(y) && (x == y || (IsZero(x) && IsZero(y)))
  }

  /** A value. Floats are their bits. */
  datatype Value = Null | Boolean(b: bool) | Integer(i: int) | Float(bits: Bits) | String(s: string)

  type Row = seq<Value>

  /** Equality of values as the program has it. It is identity, but for floats. */
  predicate Same(v: Value, w: Value) {
    if v.Float? && w.Float? then FloatEqual(v.bits, w.bits) else v == w
  }

  datatype UnaryOp = Assert | Factorial | Negate
  datatype BinaryOp = GreaterThan | LessThan | Add | Divide | Exponentiate | Modulo | Multiply | Subtract | Like

  datatype Expression =
    | Constant(value: Value)
    | Field(index: nat)
    | And(l: Expression, r: Expression)
    | Or(l: Expression, r: Expression)
    | Not(e: Expression)
    | Equal(l: Expression, r: Expression)
    | IsNull(e: Expression)
    | Unary(uop: UnaryOp, e: Expression)
    | Binary(bop: BinaryOp, l: Expression, r: Expression)

  /** The operators that are not interpreted here: arithmetic, ordering, LIKE, where `None`
      is an error, and rounding an integer to a float. */
  datatype Ops = Ops(
    unary: (UnaryOp, Value) -> Option<Value>,
    binary: (BinaryOp, Value, Value) -> Option<Value>,
    toFloat: int -> Bits)

  // ---- Evaluation ----

  function AndValues(a: Value, b: Value): Option<Value> {
    match (a, b)
    case (Boolean(x), Boolean(y)) => Some(Boolean(x && y))
    case (Boolean(x), Null) => Some(if !x then Boolean(false) else Null)
    case (Null, Boolean(y)) => Some(if !y then Boolean(false) else Null)
    case (Null, Null) => Some(Null)
    case _ => None
  }

  function OrValues(a: Value, b: Value): Option<Value> {
    match (a, b)
    case (Boolean(x), Boolean(y)) => Some(Boolean(x || y))
    case (Boolean(x), Null) => Some(if x then Boolean(true) else Null)
    case (Null, Boolean(y)) => Some(if y then Boolean(true) else Null)
    case (Null, Null) => Some(Null)
    case _ => None
  }

  function NotValue(a: Value): Option<Value> {
    match a
    case Boolean(x) => Some(Boolean(!x))
    case Null => Some(Null)
    case _ => None
  }

  function EqualValues(o: Ops, a: Value, b: Value): Option<Value> {
    match (a, b)
    case (Boolean(x), Boolean(y)) => Some(Boolean(x == y))
    case (Integer(x), Integer(y)) => Some(Boolean(x == y))
    case (Integer(x), Float(y)) => Some(Boolean(FloatEqual(o.toFloat(x), y)))
    case (Float(x), Integer(y)) => Some(Boolean(FloatEqual(x, o.toFloat(y))))
    case (Float(x), Float(y)) => Some(Boolean(FloatEqual(x, y)))
    case (String(x), String(y)) => Some(Boolean(x == y))
    case (Null, _) => Some(Null)
    case (_, Null) => Some(Null)
    case _ => None
  }

  // Applied to two results; an error on either side is an error.

  function AndResults(a: Option<Value>, b: Option<Value>): Option<Value> {
    if a.None? || b.None? then None else AndValues(a.value, b.value)
  }

  function OrResults(a: Option<Value>, b: Option<Value>): Option<Value> {
    if a.None? || b.None? then None else OrValues(a.value, b.value)
  }

  function EqualResults(o: Ops, a: Option<Value>, b: Option<Value>): Option<Value> {
    if a.None? || b.None? then None else EqualValues(o, a.value, b.value)
  }

  function BinaryResults(o: Ops, op: BinaryOp, a: Option<Value>, b: Option<Value>): Option<Value> {
    if a.None? || b.None? then None else o.binary(op, a.value, b.value)
  }

  function Eval(o: Ops, e: Expression, row: Option<Row>): Option<Value> {
    match e
    case Constant(v) => Some(v)
    case Field(i) => Some(if row.Some? && i < |row.value| then row.value[i] else Null)
    case And(l, r) => AndResults(Eval(o, l, row), Eval(o, r, row))
    case Or(l, r) => OrResults(Eval(o, l, row), Eval(o, r, row))
    case Not(x) => var v := Eval(o, x, row); if v.None? then None else NotValue(v.value)
    case Equal(l, r) => EqualResults(o, Eval(o, l, row), Eval(o, r, row))
    case IsNull(x) => var v := Eval(o, x, row); if v.None? then None else Some(Boolean(v.value.Null?))
    case Unary(op, x) => var v := Eval(o, x, row); if v.None? then None else o.unary(op, v.value)
    case Binary(op, l, r) => BinaryResults(o, op, Eval(o, l, row), Eval(o, r, row))
  }

  /** Whatever e evaluates to without error, e' evaluates to as well. */
  ghost predicate Keeps(o: Ops, e: Expression, e': Expression, row: Option<Row>) {
    Eval(o, e, row).Some? ==> Eval(o, e', row) == Eval(o, e, row)
  }

  // ---- What the operators mean ----

  predicate Numeric(v: Value) {
    v.Integer? || v.Float?
  }

  /** Values that can be compared: both numbers, both of one other type, or one of them null. */
  predicate Comparable(a: Value, b: Value) {
    a.Null? || b.Null? || (Numeric(a) && Numeric(b)) || (a.Boolean? && b.Boolean?) || (a.String? && b.String?)
  }

  /** An integer next to a float is rounded to one. */
  function Widened(o: Ops, a: Value, b: Value): Value {
    if a.Integer? && b.Float? then Float(o.toFloat(a.i)) else a
  }

  /** Two values are there and are equal. */
  predicate Agree(o: Ops, a: Value, b: Value) {
    !a.Null? && !b.Null? && Same(Widened(o, a, b), Widened(o, b, a))
  }

  /** Comparing fails if and only if the values are not comparable, is null if and only if one
      of them is, and is true if and only if they are equal. */
  lemma EqualMeans(o: Ops, a: Value, b: Value)
    ensures EqualValues(o, a, b).Some? <==> Comparable(a, b)
    ensures EqualValues(o, a, b) == Some(Null) <==> a.Null? || b.Null?
    ensures EqualValues(o, a, b) == Some(Boolean(true)) <==> Agree(o, a, b)
    ensures Comparable(a, b) && !a.Null? && !b.Null? ==> EqualValues(o, a, b) == Some(Boolean(Agree(o, a, b)))
    ensures Agree(o, a, b) <==> Agree(o, b, a)
    ensures !Numeric(a) || !Numeric(b) ==> (Agree(o, a, b) <==> a == b && a != Null)
    ensures a.Integer? && b.Integer? ==> (Agree(o, a, b) <==> a == b)
  {
  }

  /** How true a truth value is. */
  function Truth(v: Value): Option<int> {
    match v
    case Boolean(false) => Some(0)
    case Null => Some(1)
    case Boolean(true) => Some(2)
    case _ => None
  }

  /** Three-valued logic: a conjunction is as true as the least true side, a disjunction as
      the truest, and negation turns the scale over. Anything else fails. */
  lemma LogicMeans(a: Value, b: Value)
    ensures var x, y, r := Truth(a), Truth(b), AndValues(a, b);
            if x.None? || y.None? then r.None?
            else r.Some? && Truth(r.value) == if x.value <= y.value then x else y
    ensures var x, y, r := Truth(a), Truth(b), OrValues(a, b);
            if x.None? || y.None? then r.None?
            else r.Some? && Truth(r.value) == if x.value <= y.value then y else x
    ensures var x, r := Truth(a), NotValue(a);
            if x.None? then r.None? else r.Some? && Truth(r.value) == Some(2 - x.value)
  {
  }

  /** An operator that is not interpreted gets its operands in their order, and fails if one
      of them does. */
  lemma OperandsInOrder(o: Ops, e: Expression, row: Option<Row>)
    requires e.Binary? || e.Unary?
    ensures e.Binary? ==>
              var l, r := Eval(o, e.l, row), Eval(o, e.r, row);
              Eval(o, e, row) == if l.Some? && r.Some? then o.binary(e.bop, l.value, r.value) else None
    ensures e.Unary? ==>
              var x := Eval(o, e.e, row);
              Eval(o, e, row) == if x.Some? then o.unary(e.uop, x.value) else None
  {
  }

  // ---- Negation normal form ----

  function Size(e: Expression): nat {
    match e
    case Constant(_) => 1
    case Field(_) => 1
    case And(l, r) => 1 + Size(l) + Size(r)
    case Or(l, r) => 1 + Size(l) + Size(r)
    case Not(x) => 1 + Size(x)
    case Equal(l, r) => 1 + Size(l) + Size(r)
    case IsNull(x) => 1 + Size(x)
    case Unary(_, x) => 1 + Size(x)
    case Binary(_, l, r) => 1 + Size(l) + Size(r)
  }

  /** All children of an expression are smaller than n. */
  predicate Under(e: Expression, n: nat) {
    match e
    case Constant(_) => true
    case Field(_) => true
    case And(l, r) => Size(l) < n && Size(r) < n
    case Or(l, r) => Size(l) < n && Size(r) < n
    case Not(x) => Size(x) < n
    case Equal(l, r) => Size(l) < n && Size(r) < n
    case IsNull(x) => Size(x) < n
    case Unary(_, x) => Size(x) < n
    case Binary(_, l, r) => Size(l) < n && Size(r) < n
  }

  /** De Morgan's laws and double negation, at the root. */
  function PushNot(e: Expression): (r: Expression)
    ensures Under(r, Size(e))
  {
    match e
    case Not(And(l, r)) => assert Size(e) == 1 + Size(And(l, r)); Or(Not(l), Not(r))
    case Not(Or(l, r)) => assert Size(e) == 1 + Size(Or(l, r)); And(Not(l), Not(r))
    case Not(Not(x)) => assert Size(e) == 1 + Size(Not(x)) && Under(x, Size(x)); x
    case _ => e
  }

  /** Rewrites the root once, and then each child of the result. */
  function IntoNnf(e: Expression): Expression
    decreases Size(e)
  {
    match PushNot(e)
    case Constant(v) => Constant(v)
    case Field(i) => Field(i)
    case And(l, r) => And(IntoNnf(l), IntoNnf(r))
    case Or(l, r) => Or(IntoNnf(l), IntoNnf(r))
    case Not(x) => Not(IntoNnf(x))
    case Equal(l, r) => Equal(IntoNnf(l), IntoNnf(r))
    case IsNull(x) => IsNull(IntoNnf(x))
    case Unary(op, x) => Unary(op, IntoNnf(x))
    case Binary(op, l, r) => Binary(op, IntoNnf(l), IntoNnf(r))
  }

  lemma {:induction false} PushNotKeeps(o: Ops, e: Expression, row: Option<Row>)
    ensures Keeps(o, e, PushNot(e), row)
  {
  }

  /** Pushing negations down keeps the value of whatever has one. */
  lemma {:induction false} NnfKeeps(o: Ops, e: Expression, row: Option<Row>)
    ensures Keeps(o, e, IntoNnf(e), row)
    decreases Size(e)
  {
    PushNotKeeps(o, e, row);
    match PushNot(e)
    case Constant(_) =>
    case Field(_) =>
    case And(l, r) => NnfKeeps(o, l, row); NnfKeeps(o, r, row);
    case Or(l, r) => NnfKeeps(o, l, row); NnfKeeps(o, r, row);
    case Not(x) => NnfKeeps(o, x, row);
    case Equal(l, r) => NnfKeeps(o, l, row); NnfKeeps(o, r, row);
    case IsNull(x) => NnfKeeps(o, x, row);
    case Unary(_, x) => NnfKeeps(o, x, row);
    case Binary(_, l, r) => NnfKeeps(o, l, row); NnfKeeps(o, r, row);
  }

  // ---- Conjunctive normal form ----

  /** The distributive law, at the root. */
  function Distribute(e: Expression): (r: Expression)
    ensures Under(r, Size(e))
  {
    if e.Or? && e.l.And? then
      assert Size(e) == 1 + Size(e.l) + Size(e.r);
      And(Or(e.l.l, e.r), Or(e.l.r, e.r))
    else if e.Or? && e.r.And? then
      assert Size(e) == 1 + Size(e.l) + Size(e.r);
      And(Or(e.l, e.r.l), Or(e.l, e.r.r))
    else e
  }

  /** Rewrites the root once, and then each child of the result. The result can be
      much larger, but each child rewritten is smaller than its root was. */
  function DistributeAll(e: Expression): Expression
    decreases Size(e)
  {
    match Distribute(e)
    case Constant(v) => Constant(v)
    case Field(i) => Field(i)
    case And(l, r) => And(DistributeAll(l), DistributeAll(r))
    case Or(l, r) => Or(DistributeAll(l), DistributeAll(r))
    case Not(x) => Not(DistributeAll(x))
    case Equal(l, r) => Equal(DistributeAll(l), DistributeAll(r))
    case IsNull(x) => IsNull(DistributeAll(x))
    case Unary(op, x) => Unary(op, DistributeAll(x))
    case Binary(op, l, r) => Binary(op, DistributeAll(l), DistributeAll(r))
  }

  function IntoCnf(e: Expression): Expression {
    DistributeAll(IntoNnf(e))
  }

  /** The distributive law holds of three-valued results, errors included. */
  lemma {:induction false} OrOverAnd(a: Option<Value>, b: Option<Value>, c: Option<Value>)
    ensures OrResults(AndResults(a, b), c) == AndResults(OrResults(a, c), OrResults(b, c))
    ensures OrResults(c, AndResults(a, b)) == AndResults(OrResults(c, a), OrResults(c, b))
  {
  }

  lemma {:induction false} DistributeExact(o: Ops, e: Expression, row: Option<Row>)
    ensures Eval(o, Distribute(e), row) == Eval(o, e, row)
  {
    if e.Or? && e.l.And? {
      OrOverAnd(Eval(o, e.l.l, row), Eval(o, e.l.r, row), Eval(o, e.r, row));
    } else if e.Or? && e.r.And? {
      OrOverAnd(Eval(o, e.r.l, row), Eval(o, e.r.r, row), Eval(o, e.l, row));
    }
  }

  /** Distributing keeps values and errors alike. */
  lemma {:induction false} DistributeAllExact(o: Ops, e: Expression, row: Option<Row>)
    ensures Eval(o, DistributeAll(e), row) == Eval(o, e, row)
    decreases Size(e)
  {
    DistributeExact(o, e, row);
    match Distribute(e)
    case Constant(_) =>
    case Field(_) =>
    case And(l, r) => DistributeAllExact(o, l, row); DistributeAllExact(o, r, row);
    case Or(l, r) => DistributeAllExact(o, l, row); DistributeAllExact(o, r, row);
    case Not(x) => DistributeAllExact(o, x, row);
    case Equal(l, r) => DistributeAllExact(o, l, row); DistributeAllExact(o, r, row);
    case IsNull(x) => DistributeAllExact(o, x, row);
    case Unary(_, x) => DistributeAllExact(o, x, row);
    case Binary(_, l, r) => DistributeAllExact(o, l, row); DistributeAllExact(o, r, row);
  }

  // ---- Conjuncts as a list ----

  /** The conjuncts of an expression, from left to right. */
  function Conjuncts(e: Expression): (es: seq<Expression>)
    ensures es != []
  {
    if e.And? then Conjuncts(e.l) + Conjuncts(e.r) else [e]
  }

  /** Joins conjuncts again, to the left. */
  function Join(es: seq<Expression>): Expression
    requires es != []
  {
    if |es| == 1 then es[0] else And(Join(es[..|es| - 1]), es[|es| - 1])
  }

  function ConjunctsOfAll(stack: seq<Expression>): seq<Expression> {
    if stack == [] then [] else Conjuncts(stack[|stack| - 1]) + ConjunctsOfAll(stack[..|stack| - 1])
  }

  function SizeOfAll(stack: seq<Expression>): nat {
    if stack == [] then 0 else Size(stack[|stack| - 1]) + SizeOfAll(stack[..|stack| - 1])
  }

  /** Splits an expression into conjuncts with a stack. */
  method IntoCnfVec(e: Expression) returns (cnf: seq<Expression>)
    ensures cnf == Conjuncts(IntoCnf(e))
  {
    cnf := [];
    var stack := [IntoCnf(e)];
    ghost var all := Conjuncts(IntoCnf(e));
    assert stack[..0] == [];
    while stack != []
      invariant cnf + ConjunctsOfAll(stack) == all
      decreases SizeOfAll(stack)
    {
      var top, rest := stack[|stack| - 1], stack[..|stack| - 1];
      if top.And? {
        PushBoth(rest, top.l, top.r);
        stack := rest + [top.r] + [top.l];
      } else {
        cnf := cnf + [top];
        stack := rest;
      }
    }
  }

  lemma {:induction false} PushOne(stack: seq<Expression>, e: Expression)
    ensures ConjunctsOfAll(stack + [e]) == Conjuncts(e) + ConjunctsOfAll(stack)
    ensures SizeOfAll(stack + [e]) == Size(e) + SizeOfAll(stack)
  {
    assert (stack + [e])[..|stack|] == stack;
  }

  /** Replacing a conjunction on the stack by its two sides, the left one on top. */
  lemma {:induction false} PushBoth(stack: seq<Expression>, l: Expression, r: Expression)
    ensures ConjunctsOfAll(stack + [r] + [l]) == Conjuncts(And(l, r)) + ConjunctsOfAll(stack)
    ensures SizeOfAll(stack + [r] + [l]) < Size(And(l, r)) + SizeOfAll(stack)
  {
    PushOne(stack, r);
    PushOne(stack + [r], l);
    assert Conjuncts(l) + (Conjuncts(r) + ConjunctsOfAll(stack))
           == (Conjuncts(l) + Conjuncts(r)) + ConjunctsOfAll(stack);
  }

  method FromCnfVec(cnf: seq<Expression>) returns (e: Option<Expression>)
    ensures e == if cnf == [] then None else Some(Join(cnf))
  {
    if cnf == [] {
      return None;
    }
    var expr := cnf[0];
    assert cnf[..1] == [cnf[0]];
    for i := 1 to |cnf|
      invariant expr == Join(cnf[..i])
    {
      assert cnf[..i + 1][..i] == cnf[..i];
      expr := And(expr, cnf[i]);
    }
    assert cnf[..|cnf|] == cnf;
    e := Some(expr);
  }

  lemma {:induction false} AndAssociates(o: Ops, x: Expression, y: Expression, z: Expression, row: Option<Row>)
    ensures Eval(o, And(And(x, y), z), row) == Eval(o, And(x, And(y, z)), row)
  {
  }

  lemma {:induction false} JoinConcat(o: Ops, a: seq<Expression>, b: seq<Expression>, row: Option<Row>)
    requires a != [] && b != []
    ensures Eval(o, Join(a + b), row) == Eval(o, And(Join(a), Join(b)), row)
  {
    var b' := b[..|b| - 1];
    assert (a + b)[..|a + b| - 1] == a + b';
    if b' == [] {
      assert a + b' == a;
    } else {
      JoinConcat(o, a, b', row);
      AndAssociates(o, Join(a), Join(b'), b[|b| - 1], row);
    }
  }

  /** Splitting into conjuncts and joining them again changes nothing. */
  lemma {:induction false} JoinConjuncts(o: Ops, e: Expression, row: Option<Row>)
    ensures Eval(o, Join(Conjuncts(e)), row) == Eval(o, e, row)
  {
    if e.And? {
      JoinConjuncts(o, e.l, row);
      JoinConjuncts(o, e.r, row);
      JoinConcat(o, Conjuncts(e.l), Conjuncts(e.r), row);
    }
  }

  /** Normal-form rewriting preserves meaning: whenever an expression evaluates
      without error on a row, so does the conjunction of its conjuncts, to the
      same value. */
  lemma {:induction false} CnfVecKeeps(o: Ops, e: Expression, row: Option<Row>)
    ensures Keeps(o, e, Join(Conjuncts(IntoCnf(e))), row)
  {
    NnfKeeps(o, e, row);
    DistributeAllExact(o, IntoNnf(e), row);
    JoinConjuncts(o, IntoCnf(e), row);
  }
}
