/** When rewriting reaches the normal form it is named after. It does not always:
    a rewritten node is not looked at again. The conditions here are exact. */
module SqlNormalForm {
  import opened Basics
  import opened SqlExpression

  // ---- Negation normal form ----

  /** No negation stands before another logical operator. */
  predicate IsNnf(e: Expression) {
    match e
    case Constant(_) => true
    case Field(_) => true
    case And(l, r) => IsNnf(l) && IsNnf(r)
    case Or(l, r) => IsNnf(l) && IsNnf(r)
    case Not(x) => !x.And? && !x.Or? && !x.Not? && IsNnf(x)
    case Equal(l, r) => IsNnf(l) && IsNnf(r)
    case IsNull(x) => IsNnf(x)
    case Unary(_, x) => IsNnf(x)
    case Binary(_, l, r) => IsNnf(l) && IsNnf(r)
  }

  function Nots(e: Expression, n: nat): Expression {
    if n == 0 then e else Not(Nots(e, n - 1))
  }

  /** With n negations in a row above e, counting one that De Morgan's laws pushed
      down: at most two above AND and OR, and above anything else at most three
      or exactly five. */
  predicate FewNots(e: Expression, n: nat) {
    match e
    case Not(x) => FewNots(x, n + 1)
    case And(l, r) => n <= 2 && FewNots(l, if n == 1 then 1 else 0) && FewNots(r, if n == 1 then 1 else 0)
    case Or(l, r) => n <= 2 && FewNots(l, if n == 1 then 1 else 0) && FewNots(r, if n == 1 then 1 else 0)
    case Constant(_) => n <= 3 || n == 5
    case Field(_) => n <= 3 || n == 5
    case Equal(l, r) => (n <= 3 || n == 5) && FewNots(l, 0) && FewNots(r, 0)
    case IsNull(x) => (n <= 3 || n == 5) && FewNots(x, 0)
    case Unary(_, x) => (n <= 3 || n == 5) && FewNots(x, 0)
    case Binary(_, l, r) => (n <= 3 || n == 5) && FewNots(l, 0) && FewNots(r, 0)
  }

  /** Two negations go, and the third stays in place. */
  lemma ThreeNots(e: Expression, n: nat)
    requires n >= 3
    ensures IntoNnf(Nots(e, n)) == Not(IntoNnf(Nots(e, n - 3)))
  {
    var x := Nots(e, n - 3);
    assert Nots(e, n - 1) == Not(Nots(e, n - 2)) && Nots(e, n - 2) == Not(x);
    assert PushNot(Nots(e, n)) == Not(x);
  }

  lemma TwoNots(e: Expression)
    requires !e.Not?
    ensures IntoNnf(Nots(e, 2)) == IntoNnf(e)
  {
    assert Nots(e, 1) == Not(e);
    assert PushNot(Nots(e, 2)) == e == PushNot(e);
  }

  lemma {:induction false} NnfIff(e: Expression, n: nat)
    ensures IsNnf(IntoNnf(Nots(e, n))) <==> FewNots(e, n)
    decreases e, n + 3
  {
    if e.Not? {
      NnfIff(e.e, n + 1);
      NotsNot(e.e, n);
    } else if n >= 3 {
      ManyNotsIff(e, n);
    } else if n == 2 {
      TwoNots(e);
      NnfIff(e, 0);
    } else {
      assert Nots(e, 1) == Not(e);
      NnfIffChildren(e, if n == 1 && (e.And? || e.Or?) then 1 else 0);
      NnfFewIff(e, n);
    }
  }

  lemma NotsNot(x: Expression, n: nat)
    ensures Nots(Not(x), n) == Nots(x, n + 1)
    decreases n
  {
    if n > 0 {
      NotsNot(x, n - 1);
    }
  }

  ghost predicate ChildrenIff(e: Expression, n: nat) {
    match e
    case Constant(_) => true
    case Field(_) => true
    case And(l, r) => (IsNnf(IntoNnf(Nots(l, n))) <==> FewNots(l, n)) && (IsNnf(IntoNnf(Nots(r, n))) <==> FewNots(r, n))
    case Or(l, r) => (IsNnf(IntoNnf(Nots(l, n))) <==> FewNots(l, n)) && (IsNnf(IntoNnf(Nots(r, n))) <==> FewNots(r, n))
    case Not(x) => IsNnf(IntoNnf(Nots(x, n))) <==> FewNots(x, n)
    case Equal(l, r) =>
      (IsNnf(IntoNnf(Nots(l, n))) <==> FewNots(l, n)) && (IsNnf(IntoNnf(Nots(r, n))) <==> FewNots(r, n))
    case IsNull(x) => IsNnf(IntoNnf(Nots(x, n))) <==> FewNots(x, n)
    case Unary(_, x) => IsNnf(IntoNnf(Nots(x, n))) <==> FewNots(x, n)
    case Binary(_, l, r) =>
      (IsNnf(IntoNnf(Nots(l, n))) <==> FewNots(l, n)) && (IsNnf(IntoNnf(Nots(r, n))) <==> FewNots(r, n))
  }

  lemma {:induction false} NnfIffChildren(e: Expression, n: nat)
    ensures ChildrenIff(e, n)
    decreases e, 0
  {
    match e
    case Constant(_) =>
    case Field(_) =>
    case And(l, r) => NnfIff(l, n); NnfIff(r, n);
    case Or(l, r) => NnfIff(l, n); NnfIff(r, n);
    case Not(x) => NnfIff(x, n);
    case Equal(l, r) => NnfIff(l, n); NnfIff(r, n);
    case IsNull(x) => NnfIff(x, n);
    case Unary(_, x) => NnfIff(x, n);
    case Binary(_, l, r) => NnfIff(l, n); NnfIff(r, n);
  }

  lemma NnfFewIff(e: Expression, n: nat)
    requires !e.Not? && n <= 1 && ChildrenIff(e, if n == 1 && (e.And? || e.Or?) then 1 else 0)
    ensures IsNnf(IntoNnf(Nots(e, n))) <==> FewNots(e, n)
  {
    if e.And? || e.Or? {
      if n == 1 {
        assert Nots(e, 1) == Not(e) && Nots(e.l, 1) == Not(e.l) && Nots(e.r, 1) == Not(e.r);
      }
    } else {
      assert PushNot(e) == e;
      if n == 1 {
        assert Nots(e, 1) == Not(e) && PushNot(Not(e)) == Not(e);
      }
    }
  }

  lemma {:induction false} ManyNotsIff(e: Expression, n: nat)
    requires !e.Not? && n >= 3
    ensures IsNnf(IntoNnf(Nots(e, n))) <==> FewNots(e, n)
    decreases e, 2
  {
    ThreeNots(e, n);
    if n >= 6 {
      ThreeNots(e, n - 3);
    } else if n == 4 {
      assert Nots(e, 1) == Not(e);
    } else {
      if n == 5 {
        TwoNots(e);
      }
      NnfIffChildren(e, 0);
      NnfFewIff0(e);
    }
  }

  lemma NnfFewIff0(e: Expression)
    requires !e.Not? && ChildrenIff(e, 0)
    ensures IsNnf(IntoNnf(e)) <==> FewNots(e, 0)
    ensures IntoNnf(e).And? == e.And? && IntoNnf(e).Or? == e.Or? && !IntoNnf(e).Not?
  {
    assert PushNot(e) == e;
  }

  /** Pushing negations down reaches negation normal form exactly for expressions
      with few enough negations in a row. */
  lemma NnfReachedIff(e: Expression)
    ensures IsNnf(IntoNnf(e)) <==> FewNots(e, 0)
  {
    NnfIff(e, 0);
  }

  /** Three negations of a conjunction leave it negated. */
  lemma NnfNotAlwaysReached() returns (e: Expression)
    ensures !IsNnf(IntoNnf(e))
  {
    e := Not(Not(Not(And(Field(0), Field(1)))));
    NnfReachedIff(e);
  }

  // ---- Conjunctive normal form ----

  /** A disjunction of literals, which are in negation normal form. */
  predicate IsClause(e: Expression) {
    if e.Or? then IsClause(e.l) && IsClause(e.r) else !e.And? && IsNnf(e)
  }

  /** A conjunction of clauses. */
  predicate IsCnf(e: Expression) {
    if e.And? then IsCnf(e.l) && IsCnf(e.r) else IsClause(e)
  }

  /** No AND lies below two ORs, given how many are above. An odd number of
      negations above turns AND into OR and back. */
  predicate AndsShallow(e: Expression, negated: bool, ors: nat) {
    match e
    case Not(x) => AndsShallow(x, !negated, ors)
    case And(l, r) =>
      if negated then AndsShallow(l, true, ors + 1) && AndsShallow(r, true, ors + 1)
      else ors <= 1 && AndsShallow(l, false, ors) && AndsShallow(r, false, ors)
    case Or(l, r) =>
      if negated then ors <= 1 && AndsShallow(l, true, ors) && AndsShallow(r, true, ors)
      else AndsShallow(l, false, ors + 1) && AndsShallow(r, false, ors + 1)
    case _ => true
  }

  // The shape of a rewritten expression, negations aside.

  predicate ClauseShape(e: Expression) {
    !e.And? && (e.Or? ==> ClauseShape(e.l) && ClauseShape(e.r))
  }

  predicate CnfShape(e: Expression) {
    if e.And? then CnfShape(e.l) && CnfShape(e.r) else ClauseShape(e)
  }

  predicate ShapeShallow(e: Expression, ors: nat) {
    match e
    case And(l, r) => ors <= 1 && ShapeShallow(l, ors) && ShapeShallow(r, ors)
    case Or(l, r) => ShapeShallow(l, ors + 1) && ShapeShallow(r, ors + 1)
    case _ => true
  }

  lemma {:induction false} ClauseIs(e: Expression)
    ensures IsClause(e) <==> ClauseShape(e) && IsNnf(e)
  {
    if e.Or? {
      ClauseIs(e.l);
      ClauseIs(e.r);
    }
  }

  lemma {:induction false} CnfIs(e: Expression)
    ensures IsCnf(e) <==> CnfShape(e) && IsNnf(e)
  {
    if e.And? {
      CnfIs(e.l);
      CnfIs(e.r);
    } else {
      ClauseIs(e);
    }
  }

  /** Distributing neither makes nor removes a misplaced negation. */
  lemma {:induction false} DistributeNnf(e: Expression)
    ensures IsNnf(DistributeAll(e)) <==> IsNnf(e)
    ensures !e.And? && !e.Or? ==> !DistributeAll(e).And? && !DistributeAll(e).Or? && DistributeAll(e).Not? == e.Not?
    ensures e.And? || e.Or? ==> DistributeAll(e).And? || DistributeAll(e).Or?
    decreases Size(e)
  {
    DistributeNnfRoot(e);
    match Distribute(e)
    case Constant(_) =>
    case Field(_) =>
    case And(l, r) => DistributeNnf(l); DistributeNnf(r);
    case Or(l, r) => DistributeNnf(l); DistributeNnf(r);
    case Not(x) => DistributeNnf(x);
    case Equal(l, r) => DistributeNnf(l); DistributeNnf(r);
    case IsNull(x) => DistributeNnf(x);
    case Unary(_, x) => DistributeNnf(x);
    case Binary(_, l, r) => DistributeNnf(l); DistributeNnf(r);
  }

  lemma {:induction false} DistributeNnfRoot(e: Expression)
    ensures IsNnf(Distribute(e)) <==> IsNnf(e)
    ensures !e.Or? ==> Distribute(e) == e
    ensures e.Or? ==> Distribute(e).And? || Distribute(e).Or?
  {
  }

  lemma {:induction false} DeepIsClause(e: Expression, ors: nat)
    requires ors >= 2
    ensures ShapeShallow(e, ors) <==> ClauseShape(e)
  {
    if e.Or? {
      DeepIsClause(e.l, ors + 1);
      DeepIsClause(e.r, ors + 1);
    }
  }

  lemma {:induction false} ClauseIff(e: Expression)
    ensures ClauseShape(DistributeAll(e)) <==> ClauseShape(e)
  {
    if e.Or? {
      ClauseIff(e.l);
      ClauseIff(e.r);
    }
  }

  /** Distributing reaches the shape exactly when no AND lies below two ORs. */
  lemma {:induction false} DistributedShape(e: Expression)
    ensures CnfShape(DistributeAll(e)) <==> ShapeShallow(e, 0)
    decreases Size(e)
  {
    var d := Distribute(e);
    if e.And? || (e.Or? && (e.l.And? || e.r.And?)) {
      DistributedShape(d.l);
      DistributedShape(d.r);
    } else if e.Or? {
      ClauseIff(e.l);
      ClauseIff(e.r);
      OneOrAbove(e.l);
      OneOrAbove(e.r);
    }
  }

  lemma OneOrAbove(e: Expression)
    requires !e.And?
    ensures ShapeShallow(e, 1) <==> ClauseShape(e)
  {
    if e.Or? {
      DeepIsClause(e.l, 2);
      DeepIsClause(e.r, 2);
    }
  }

  /** Where negation normal form is reached, the shape of the result can be read off
      the expression, turning AND and OR around below an odd number of negations. */
  lemma {:induction false} ShallowIff(e: Expression, n: nat, ors: nat)
    requires FewNots(e, n)
    ensures ShapeShallow(IntoNnf(Nots(e, n)), ors) <==> AndsShallow(e, n % 2 == 1, ors)
    decreases e, n + 1
  {
    if e.Not? {
      NotsNot(e.e, n);
      ShallowIff(e.e, n + 1, ors);
    } else if e.And? || e.Or? {
      if n == 2 {
        TwoNots(e);
        ShallowIff(e, 0, ors);
      } else {
        ShallowIffBoth(e, n, ors);
      }
    } else {
      AtomStays(e, n);
    }
  }

  lemma {:induction false} ShallowIffBoth(e: Expression, n: nat, ors: nat)
    requires (e.And? || e.Or?) && n <= 1 && FewNots(e, n)
    ensures ShapeShallow(IntoNnf(Nots(e, n)), ors) <==> AndsShallow(e, n % 2 == 1, ors)
    decreases e, 0
  {
    var below := if e.And? == (n == 1) then ors + 1 else ors;
    ShallowIff(e.l, n, below);
    ShallowIff(e.r, n, below);
    if n == 1 {
      assert Nots(e, 1) == Not(e) && Nots(e.l, 1) == Not(e.l) && Nots(e.r, 1) == Not(e.r);
    } else {
      assert PushNot(e) == e;
    }
  }

  lemma {:induction false} AtomStays(e: Expression, n: nat)
    requires !e.Not? && !e.And? && !e.Or?
    ensures !IntoNnf(Nots(e, n)).And? && !IntoNnf(Nots(e, n)).Or?
  {
    if n >= 3 {
      ThreeNots(e, n);
    } else if n == 2 {
      TwoNots(e);
      assert PushNot(e) == e;
    } else {
      assert Nots(e, 1) == Not(e) && PushNot(Not(e)) == Not(e) && PushNot(e) == e;
    }
  }

  /** The whole conversion reaches conjunctive normal form exactly for expressions
      with few enough negations in a row and no AND below two ORs. */
  lemma CnfReachedIff(e: Expression)
    ensures IsCnf(IntoCnf(e)) <==> FewNots(e, 0) && AndsShallow(e, false, 0)
  {
    CnfIs(IntoCnf(e));
    DistributeNnf(IntoNnf(e));
    DistributedShape(IntoNnf(e));
    NnfReachedIff(e);
    if FewNots(e, 0) {
      ShallowIff(e, 0, 0);
    }
  }

  /** A conjunction below two disjunctions stays there. */
  lemma CnfTooDeep(e: Expression)
    requires e == Or(Or(And(Field(0), Field(1)), Field(2)), Field(3))
    ensures FewNots(e, 0) && !AndsShallow(e, false, 0)
  {
    assert !AndsShallow(e.l.l, false, 2);
    assert FewNots(e.l.l, 0);
  }

  lemma CnfTooNegated(e: Expression)
    requires e == Not(Not(Not(And(Field(0), Field(1)))))
    ensures !FewNots(e, 0) && AndsShallow(e, false, 0)
  {
    assert !FewNots(e.e.e.e, 3) && !FewNots(e.e.e, 2) && !FewNots(e.e, 1);
    assert AndsShallow(e.e.e.e, true, 0) && AndsShallow(e.e.e, false, 0);
  }

  /** Either condition can fail alone: a conjunction below two disjunctions stays
      there, and three negations of a conjunction leave it negated. */
  lemma CnfNotAlwaysReached() returns (deep: Expression, negated: Expression)
    ensures FewNots(deep, 0) && !IsCnf(IntoCnf(deep))
    ensures AndsShallow(negated, false, 0) && !IsCnf(IntoCnf(negated))
  {
    deep := Or(Or(And(Field(0), Field(1)), Field(2)), Field(3));
    CnfTooDeep(deep);
    CnfReachedIff(deep);
    negated := Not(Not(Not(And(Field(0), Field(1)))));
    CnfTooNegated(negated);
    CnfReachedIff(negated);
  }

  // ---- What the rewrite means ----

  function NotResult(a: Option<Value>): Option<Value> {
    if a.None? then None else NotValue(a.value)
  }

  /** Evaluation that lets a value of any type through exactly two negations. */
  function LooseEval(o: Ops, e: Expression, row: Option<Row>): Option<Value> {
    match e
    case Constant(v) => Some(v)
    case Field(i) => Some(if row.Some? && i < |row.value| then row.value[i] else Null)
    case And(l, r) => AndResults(LooseEval(o, l, row), LooseEval(o, r, row))
    case Or(l, r) => OrResults(LooseEval(o, l, row), LooseEval(o, r, row))
    case Not(x) => if x.Not? && !x.e.Not? then LooseEval(o, x.e, row) else NotResult(LooseEval(o, x, row))
    case Equal(l, r) => EqualResults(o, LooseEval(o, l, row), LooseEval(o, r, row))
    case IsNull(x) => var v := LooseEval(o, x, row); if v.None? then None else Some(Boolean(v.value.Null?))
    case Unary(op, x) => var v := LooseEval(o, x, row); if v.None? then None else o.unary(op, v.value)
    case Binary(op, l, r) => BinaryResults(o, op, LooseEval(o, l, row), LooseEval(o, r, row))
  }

  /** One result is the negation of the other. */
  ghost predicate Opposite(a: Option<Value>, b: Option<Value>) {
    b == NotResult(a) || a == NotResult(b)
  }

  lemma {:induction false} DeMorgan(a: Option<Value>, a': Option<Value>, b: Option<Value>, b': Option<Value>)
    requires Opposite(a, a') && Opposite(b, b')
    ensures OrResults(a', b') == NotResult(AndResults(a, b))
    ensures AndResults(a', b') == NotResult(OrResults(a, b))
  {
  }

  lemma {:induction false} LooseNot(o: Ops, x: Expression, row: Option<Row>)
    ensures Opposite(LooseEval(o, x, row), LooseEval(o, Not(x), row))
  {
  }

  lemma {:induction false} LooseRoot(o: Ops, e: Expression, row: Option<Row>)
    requires !(e.Not? && e.e.Not? && e.e.e.Not?)
    ensures LooseEval(o, PushNot(e), row) == LooseEval(o, e, row)
  {
    if e.Not? && (e.e.And? || e.e.Or?) {
      var l, r := e.e.l, e.e.r;
      LooseNot(o, l, row);
      LooseNot(o, r, row);
      DeMorgan(LooseEval(o, l, row), LooseEval(o, Not(l), row), LooseEval(o, r, row), LooseEval(o, Not(r), row));
    }
  }

  /** What pushing negations down does to values and errors, exactly: the result
      evaluates to what the expression does when a value of any type passes through
      exactly two negations. So it can turn an error into a value in this one way. */
  lemma {:induction false} NnfMeans(o: Ops, e: Expression, row: Option<Row>)
    ensures Eval(o, IntoNnf(e), row) == LooseEval(o, e, row)
    decreases Size(e)
  {
    if e.Not? && e.e.Not? && e.e.e.Not? {
      var x := e.e.e.e;
      assert PushNot(e) == Not(x);
      NnfMeans(o, x, row);
      ThreeLoose(o, x, row);
    } else {
      LooseRoot(o, e, row);
      NnfMeansChildren(o, e, row);
    }
  }

  lemma {:induction false} ThreeLoose(o: Ops, x: Expression, row: Option<Row>)
    ensures LooseEval(o, Not(Not(Not(x))), row) == NotResult(LooseEval(o, x, row))
    decreases x
  {
    if x.Not? {
      ThreeLoose(o, x.e, row);
      assert LooseEval(o, Not(Not(Not(x.e))), row) == NotResult(LooseEval(o, x.e, row));
    }
  }

  lemma {:induction false} NnfMeansChildren(o: Ops, e: Expression, row: Option<Row>)
    requires !(e.Not? && e.e.Not? && e.e.e.Not?)
    ensures Eval(o, IntoNnf(e), row) == LooseEval(o, PushNot(e), row)
    decreases Size(e), 0
  {
    match PushNot(e)
    case Constant(_) =>
    case Field(_) =>
    case And(l, r) => NnfMeans(o, l, row); NnfMeans(o, r, row);
    case Or(l, r) => NnfMeans(o, l, row); NnfMeans(o, r, row);
    case Not(x) => NnfMeans(o, x, row);
    case Equal(l, r) => NnfMeans(o, l, row); NnfMeans(o, r, row);
    case IsNull(x) => NnfMeans(o, x, row);
    case Unary(_, x) => NnfMeans(o, x, row);
    case Binary(_, l, r) => NnfMeans(o, l, row); NnfMeans(o, r, row);
  }

  /** The same for the list of conjuncts that pushdown works with. */
  lemma CnfVecMeans(o: Ops, e: Expression, row: Option<Row>)
    ensures Eval(o, Join(Conjuncts(IntoCnf(e))), row) == LooseEval(o, e, row)
  {
    JoinConjuncts(o, IntoCnf(e), row);
    DistributeAllExact(o, IntoNnf(e), row);
    NnfMeans(o, e, row);
  }
}
