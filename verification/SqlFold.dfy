/** Folding constant subexpressions when a query is planned. */
module SqlFold {
  import opened Basics
  import opened SqlExpression

  predicate HasField(e: Expression) {
    match e
    case Constant(_) => false
    case Field(_) => true
    case And(l, r) => HasField(l) || HasField(r)
    case Or(l, r) => HasField(l) || HasField(r)
    case Not(x) => HasField(x)
    case Equal(l, r) => HasField(l) || HasField(r)
    case IsNull(x) => HasField(x)
    case Unary(_, x) => HasField(x)
    case Binary(_, l, r) => HasField(l) || HasField(r)
  }

  /** Replaces each outermost subexpression without fields by its value. `None` is
      an error while planning. */
  function Fold(o: Ops, e: Expression): Option<Expression> {
    if !HasField(e) then
      var v := Eval(o, e, None);
      if v.None? then None else Some(Constant(v.value))
    else
      match e
      case Field(i) => Some(e)
      case And(l, r) => FoldTwo(Fold(o, l), Fold(o, r), e)
      case Or(l, r) => FoldTwo(Fold(o, l), Fold(o, r), e)
      case Not(x) => FoldOne(Fold(o, x), e)
      case Equal(l, r) => FoldTwo(Fold(o, l), Fold(o, r), e)
      case IsNull(x) => FoldOne(Fold(o, x), e)
      case Unary(_, x) => FoldOne(Fold(o, x), e)
      case Binary(_, l, r) => FoldTwo(Fold(o, l), Fold(o, r), e)
  }

  function FoldOne(x: Option<Expression>, e: Expression): Option<Expression>
    requires e.Not? || e.IsNull? || e.Unary?
  {
    if x.None? then None else Some(e.(e := x.value))
  }

  function FoldTwo(l: Option<Expression>, r: Option<Expression>, e: Expression): Option<Expression>
    requires e.And? || e.Or? || e.Equal? || e.Binary?
  {
    if l.None? || r.None? then None else Some(e.(l := l.value, r := r.value))
  }

  /** Without fields, the row does not matter. */
  lemma {:induction false} NoFieldNoRow(o: Ops, e: Expression, row: Option<Row>)
    requires !HasField(e)
    ensures Eval(o, e, row) == Eval(o, e, None)
  {
    match e
    case Constant(_) =>
    case And(l, r) => NoFieldNoRow(o, l, row); NoFieldNoRow(o, r, row);
    case Or(l, r) => NoFieldNoRow(o, l, row); NoFieldNoRow(o, r, row);
    case Not(x) => NoFieldNoRow(o, x, row);
    case Equal(l, r) => NoFieldNoRow(o, l, row); NoFieldNoRow(o, r, row);
    case IsNull(x) => NoFieldNoRow(o, x, row);
    case Unary(_, x) => NoFieldNoRow(o, x, row);
    case Binary(_, l, r) => NoFieldNoRow(o, l, row); NoFieldNoRow(o, r, row);
  }

  /** Folding is exact. What it returns gives the same value, and the same error, on
      every row; and it refuses an expression only if evaluating that expression
      fails on every row. (With no row to evaluate it on, planning still fails.) */
  lemma {:induction false} FoldIsExact(o: Ops, e: Expression, row: Option<Row>)
    ensures match Fold(o, e)
            case Some(f) => Eval(o, f, row) == Eval(o, e, row)
            case None => Eval(o, e, row) == None
  {
    if !HasField(e) {
      NoFieldNoRow(o, e, row);
    } else {
      match e
      case Field(_) =>
      case And(l, r) => FoldIsExact(o, l, row); FoldIsExact(o, r, row);
      case Or(l, r) => FoldIsExact(o, l, row); FoldIsExact(o, r, row);
      case Not(x) => FoldIsExact(o, x, row);
      case Equal(l, r) => FoldIsExact(o, l, row); FoldIsExact(o, r, row);
      case IsNull(x) => FoldIsExact(o, x, row);
      case Unary(_, x) => FoldIsExact(o, x, row);
      case Binary(_, l, r) => FoldIsExact(o, l, row); FoldIsExact(o, r, row);
    }
  }

  /** Only constants have no fields. */
  predicate Folded(e: Expression) {
    (HasField(e) || e.Constant?) &&
    match e
    case Constant(_) => true
    case Field(_) => true
    case And(l, r) => Folded(l) && Folded(r)
    case Or(l, r) => Folded(l) && Folded(r)
    case Not(x) => Folded(x)
    case Equal(l, r) => Folded(l) && Folded(r)
    case IsNull(x) => Folded(x)
    case Unary(_, x) => Folded(x)
    case Binary(_, l, r) => Folded(l) && Folded(r)
  }

  /** Folding leaves nothing to fold, and keeps which expressions depend on the row. */
  lemma {:induction false} FoldIsComplete(o: Ops, e: Expression)
    requires Fold(o, e).Some?
    ensures Folded(Fold(o, e).value) && HasField(Fold(o, e).value) == HasField(e)
  {
    if HasField(e) {
      match e
      case Field(_) =>
      case And(l, r) => FoldIsComplete(o, l); FoldIsComplete(o, r);
      case Or(l, r) => FoldIsComplete(o, l); FoldIsComplete(o, r);
      case Not(x) => FoldIsComplete(o, x);
      case Equal(l, r) => FoldIsComplete(o, l); FoldIsComplete(o, r);
      case IsNull(x) => FoldIsComplete(o, x);
      case Unary(_, x) => FoldIsComplete(o, x);
      case Binary(_, l, r) => FoldIsComplete(o, l); FoldIsComplete(o, r);
    }
  }

  /** A folded expression folds to itself. */
  lemma {:induction false} FoldedIsFixed(o: Ops, e: Expression)
    requires Folded(e)
    ensures Fold(o, e) == Some(e)
  {
    match e
    case Constant(_) =>
    case Field(_) =>
    case And(l, r) => FoldedIsFixed(o, l); FoldedIsFixed(o, r);
    case Or(l, r) => FoldedIsFixed(o, l); FoldedIsFixed(o, r);
    case Not(x) => FoldedIsFixed(o, x);
    case Equal(l, r) => FoldedIsFixed(o, l); FoldedIsFixed(o, r);
    case IsNull(x) => FoldedIsFixed(o, x);
    case Unary(_, x) => FoldedIsFixed(o, x);
    case Binary(_, l, r) => FoldedIsFixed(o, l); FoldedIsFixed(o, r);
  }
}
