/** Exactly when a query's WHERE leaves a tier unread: its terms are those its conjuncts
    give, and a tier is left out just where its row says no row of it can meet one. */
module PruneExact {
  import opened Options
  import opened Prune

  // ----- which column a reference names -----

  /** A column, and no other, has the name looked for, whatever the case. */
  ghost predicate Alone(w: World, name: string, columns: seq<string>, i: nat) {
    i < |columns| && forall j :: 0 <= j < |columns| ==> (w.lower(columns[j]) == name <==> j == i)
  }

  /** A reference by the column's name, or by that name after the log's own. */
  ghost predicate Names(w: World, operand: Operand, column: string) {
    && operand.Ref?
    && var n := |operand.names|;
      && (n == 1 || (n == 2 && w.lower(operand.names[0]) in w.qualifiers))
      && exists i: nat :: Alone(w, w.lower(operand.names[n - 1]), w.columns, i) && w.columns[i] == column
  }

  lemma {:induction false} OnlyIs(w: World, name: string, columns: seq<string>)
    ensures Only(w, name, columns).None? ==> forall i: nat :: !Alone(w, name, columns, i)
    ensures Only(w, name, columns).Some? ==>
      exists i: nat :: Alone(w, name, columns, i) && columns[i] == Only(w, name, columns).value
  {
    if columns != [] {
      var rest := columns[1..];
      OnlyIs(w, name, rest);
      if w.lower(columns[0]) != name {
        forall i: nat | Alone(w, name, columns, i) ensures i > 0 && Alone(w, name, rest, i - 1) {
          AloneLater(w, name, columns, i);
        }
        if Only(w, name, rest).Some? {
          var i: nat :| Alone(w, name, rest, i) && rest[i] == Only(w, name, rest).value;
          AloneLater(w, name, columns, i + 1);
        }
      } else if forall c <- rest :: w.lower(c) != name {
        assert Alone(w, name, columns, 0);
        forall i | 0 <= i < |rest| ensures w.lower(rest[i]) != name {
          assert rest[i] in rest;
        }
      } else {
        var c :| c in rest && w.lower(c) == name;
        var j :| 0 <= j < |rest| && rest[j] == c;
        assert columns[j + 1] == c;
      }
    }
  }

  lemma AloneLater(w: World, name: string, columns: seq<string>, i: nat)
    requires columns != [] && w.lower(columns[0]) != name
    ensures Alone(w, name, columns, i) <==> i > 0 && Alone(w, name, columns[1..], i - 1)
  {
    if i > 0 && Alone(w, name, columns[1..], i - 1) {
      forall j | 0 <= j < |columns| ensures w.lower(columns[j]) == name <==> j == i {
        if j > 0 { assert columns[j] == columns[1..][j - 1]; }
      }
    }
    if Alone(w, name, columns, i) && i > 0 {
      forall j | 0 <= j < |columns[1..]| ensures w.lower(columns[1..][j]) == name <==> j == i - 1 {
        assert columns[1..][j] == columns[j + 1];
      }
    }
  }

  lemma AloneOnce(w: World, name: string, columns: seq<string>, i: nat, j: nat)
    requires Alone(w, name, columns, i) && Alone(w, name, columns, j)
    ensures i == j
  {
    assert w.lower(columns[j]) == name;
  }

  lemma QualifierOnly(w: World, operand: Operand)
    requires operand.Ref?
    ensures |operand.names| == 1 ==> Bind(w, operand) == Only(w, w.lower(operand.names[0]), w.columns)
    ensures |operand.names| == 2 && w.lower(operand.names[0]) in w.qualifiers ==>
      Bind(w, operand) == Only(w, w.lower(operand.names[1]), w.columns)
    ensures |operand.names| != 1 && !(|operand.names| == 2 && w.lower(operand.names[0]) in w.qualifiers) ==>
      Bind(w, operand).None?
  {
    hide Only;
    if |operand.names| == 2 {
      assert operand.names[1..] == [operand.names[1]];
    }
  }

  /** A reference binds to the one column it names. */
  lemma BindIff(w: World, operand: Operand, column: string)
    ensures Bind(w, operand) == Some(column) <==> Names(w, operand, column)
  {
    hide Only, Alone;
    if operand.Ref? {
      var n := |operand.names|;
      if n == 1 || (n == 2 && w.lower(operand.names[0]) in w.qualifiers) {
        var name := w.lower(operand.names[n - 1]);
        OnlyIs(w, name, w.columns);
        QualifierOnly(w, operand);
        forall i: nat, j: nat | Alone(w, name, w.columns, i) && Alone(w, name, w.columns, j) ensures i == j {
          AloneOnce(w, name, w.columns, i, j);
        }
      }
    }
  }

  // ----- the terms -----

  /** An operand is a column terms may be about. */
  ghost predicate On(w: World, operand: Operand, column: string) {
    Names(w, operand, column) && w.prunable(column)
  }

  /** An operand is a constant whose value, compared to the column, is known beforehand. */
  ghost predicate Fixed(w: World, operand: Operand, column: string, value: Value) {
    operand.Constant? && w.known(operand.id, column) && value == w.bound(operand.id, column)
  }

  /** What a conjunct says of one column. */
  ghost predicate Tells(w: World, e: Expr, term: Term) {
    match e
    case Compare(op, left, right) =>
      && op != Ne && term.Is?
      && (|| (On(w, left, term.column) && Fixed(w, right, term.column, term.value) && term.op == op)
          || ((forall c :: !On(w, left, c)) && On(w, right, term.column) && Fixed(w, left, term.column, term.value)
              && forall a, b :: Comparison(term.op, b, a) == Comparison(op, a, b)))
    case Between(input, lower, upper) =>
      && term.Is? && On(w, input, term.column)
      && (|| (term.op == Ge && Fixed(w, lower, term.column, term.value))
          || (term.op == Le && Fixed(w, upper, term.column, term.value)))
    case In(operands) =>
      && |operands| > 1 && term.Among? && On(w, operands[0], term.column)
      && |term.values| == |operands| - 1
      && forall i :: 0 <= i < |term.values| ==> Fixed(w, operands[i + 1], term.column, term.values[i])
    case _ => false
  }

  lemma ColumnIff(w: World, operand: Operand, column: string)
    ensures Column(w, operand) == Some(column) <==> On(w, operand, column)
  {
    hide Bind, Names;
    BindIff(w, operand, column);
  }

  lemma NoColumn(w: World, operand: Operand)
    ensures Column(w, operand).None? <==> forall c :: !On(w, operand, c)
  {
    hide Column, On;
    if Column(w, operand).Some? { ColumnIff(w, operand, Column(w, operand).value); }
    forall c | On(w, operand, c) ensures Column(w, operand) == Some(c) { ColumnIff(w, operand, c); }
  }

  lemma KnownIff(w: World, operand: Operand, column: string, value: Value)
    ensures Known(w, operand, column) == Some(value) <==> Fixed(w, operand, column, value)
  {
  }

  lemma {:induction false} ValuesIff(w: World, operands: seq<Operand>, column: string, values: seq<Value>)
    ensures Values(w, operands, column) == Some(values) <==>
      |values| == |operands| && forall i :: 0 <= i < |values| ==> Fixed(w, operands[i], column, values[i])
  {
    hide Known, Fixed;
    if operands != [] {
      var first, rest := Known(w, operands[0], column), Values(w, operands[1..], column);
      if |values| == |operands| {
        KnownIff(w, operands[0], column, values[0]);
        ValuesIff(w, operands[1..], column, values[1..]);
        if forall i :: 0 <= i < |values| ==> Fixed(w, operands[i], column, values[i]) {
          forall i | 0 <= i < |values[1..]| ensures Fixed(w, operands[1..][i], column, values[1..][i]) {
            assert Fixed(w, operands[i + 1], column, values[i + 1]);
          }
          assert values == [values[0]] + values[1..];
        }
        if Values(w, operands, column) == Some(values) {
          assert values[1..] == rest.value && values[0] == first.value;
          forall i | 0 <= i < |values| ensures Fixed(w, operands[i], column, values[i]) {
            if i > 0 { assert Fixed(w, operands[1..][i - 1], column, values[1..][i - 1]); }
          }
        }
      } else if rest.Some? {
        ValuesIff(w, operands[1..], column, rest.value);
      }
    }
  }

  /** One operator, and no other that translates, is the comparison with its operands
      swapped. */
  lemma MirrorIff(op: Op, other: Op)
    ensures other == Mirror(op) <==> forall a, b :: Comparison(other, b, a) == Comparison(op, a, b)
  {
    assert Comparison(Mirror(op), Num(0.0), Num(1.0)) == Comparison(op, Num(1.0), Num(0.0));
    assert Comparison(Mirror(op), Num(1.0), Num(0.0)) == Comparison(op, Num(0.0), Num(1.0));
    assert Comparison(Mirror(op), Num(0.0), Num(0.0)) == Comparison(op, Num(0.0), Num(0.0));
    if forall a, b :: Comparison(other, b, a) == Comparison(op, a, b) {
      assert Comparison(other, Num(0.0), Num(1.0)) == Comparison(op, Num(1.0), Num(0.0));
      assert Comparison(other, Num(1.0), Num(0.0)) == Comparison(op, Num(0.0), Num(1.0));
      assert Comparison(other, Num(0.0), Num(0.0)) == Comparison(op, Num(0.0), Num(0.0));
    }
  }

  lemma CompareTells(w: World, e: Expr, term: Term)
    requires e.Compare?
    ensures term in Translate(w, e) <==> Tells(w, e, term)
  {
    hide Column, Known, On, Fixed, Mirror, Comparison;
    NoColumn(w, e.left);
    ColumnIff(w, e.left, term.column);
    ColumnIff(w, e.right, term.column);
    if term.Is? {
      KnownIff(w, e.right, term.column, term.value);
      KnownIff(w, e.left, term.column, term.value);
      MirrorIff(e.op, term.op);
    }
  }

  lemma BetweenTells(w: World, e: Expr, term: Term)
    requires e.Between?
    ensures term in Translate(w, e) <==> Tells(w, e, term)
  {
    hide Column, Known, On, Fixed;
    ColumnIff(w, e.input, term.column);
    if term.Is? {
      KnownIff(w, e.lower, term.column, term.value);
      KnownIff(w, e.upper, term.column, term.value);
    }
  }

  lemma InTells(w: World, e: Expr, term: Term)
    requires e.In?
    ensures term in Translate(w, e) <==> Tells(w, e, term)
  {
    hide Column, Values, On, Fixed;
    if |e.operands| > 1 {
      ColumnIff(w, e.operands[0], term.column);
      if term.Among? {
        ValuesIff(w, e.operands[1..], term.column, term.values);
        forall i | 0 <= i < |e.operands| - 1 ensures e.operands[1..][i] == e.operands[i + 1] { }
      }
    }
  }

  lemma TranslateIff(w: World, e: Expr, term: Term)
    ensures term in Translate(w, e) <==> Tells(w, e, term)
  {
    hide Translate, Tells;
    match e
    case Compare(_, _, _) => CompareTells(w, e, term);
    case Between(_, _, _) => BetweenTells(w, e, term);
    case In(_) => InTells(w, e, term);
    case _ => NothingTold(w, e, term);
  }

  lemma NothingTold(w: World, e: Expr, term: Term)
    requires !e.Compare? && !e.Between? && !e.In?
    ensures term !in Translate(w, e) && !Tells(w, e, term)
  {
  }

  lemma {:induction false} TermsIff(w: World, conjuncts: seq<Expr>, term: Term)
    ensures term in TermsOf(w, conjuncts) <==> exists c <- conjuncts :: Tells(w, c, term)
  {
    hide Translate, Tells;
    if conjuncts != [] {
      TranslateIff(w, conjuncts[0], term);
      TermsIff(w, conjuncts[1..], term);
      assert conjuncts == [conjuncts[0]] + conjuncts[1..];
    }
  }

  /** A conjunct of WHERE: itself, if it is no conjunction, or one of a conjunct's. */
  ghost predicate Part(e: Expr, of: Expr)
    decreases of
  {
    if of.And? then exists child <- of.children :: Part(e, child) else e == of
  }

  lemma {:induction false} ConjunctsIff(of: Expr, e: Expr)
    ensures e in Conjuncts(of) <==> Part(e, of)
    decreases of
  {
    if of.And? { AllConjunctsIff(of.children, e); }
  }

  lemma {:induction false} AllConjunctsIff(children: seq<Expr>, e: Expr)
    ensures e in ConjunctsOf(children) <==> exists child <- children :: Part(e, child)
    decreases children
  {
    if children != [] {
      ConjunctsIff(children[0], e);
      AllConjunctsIff(children[1..], e);
      hide Conjuncts, Part;
      assert children == [children[0]] + children[1..];
    }
  }

  // ----- what a unit's row rules out -----

  /** A number meets a term. */
  ghost predicate Meets(term: Term, v: real) {
    match term
    case Is(_, op, value) => Comparison(op, Num(v), value) == True
    case Among(_, values) => exists x <- values :: Comparison(Eq, Num(v), x) == True
  }

  /** No number from `low` to `high`, or to no bound, meets the term. */
  ghost predicate NoneMeets(term: Term, low: real, high: Option<real>) {
    forall v: real :: low <= v && (high.Some? ==> v <= high.value) ==> !Meets(term, v)
  }

  /** The term is about numbers alone; a comparison with NULL or NaN is never decided on. */
  ghost predicate Numeric(term: Term) {
    match term
    case Is(_, op, value) => value.Num? && op != Ne
    case Among(_, values) => forall x <- values :: x.Num?
  }

  /** A unit's row rules a term out: nothing in the range it gives for the column meets it. */
  ghost predicate RulesOut(unit: Unit, term: Term) {
    if term.column == OFFSET then
      && unit.start.Some?
      && (|| (unit.end.Some? && unit.end.value <= unit.start.value)
          || (Numeric(term)
              && NoneMeets(term, unit.start.value as real,
                           if unit.end.Some? then Some((unit.end.value - 1) as real) else None)))
    else
      && term.column in unit.stats
      && var s := unit.stats[term.column];
        && s.min.Some? && s.max.Some? && (s.floating ==> s.nans == Some(0))
        && Numeric(term) && NoneMeets(term, s.min.value, s.max)
  }

  /** A unit's bounds are of some number. */
  ghost predicate Proper(unit: Unit) {
    forall column <- unit.stats ::
      var s := unit.stats[column]; s.min.Some? && s.max.Some? ==> s.min.value <= s.max.value
  }

  lemma MayIff(op: Op, low: real, high: Option<real>, value: Value)
    requires high.Some? ==> low <= high.value
    requires value.Num? && op != Ne
    ensures !May(op, low, high, value) <==> NoneMeets(Is("", op, value), low, high)
  {
    var term, r := Is("", op, value), value.r;
    var top := if high.Some? then high.value else if low <= r then r + 1.0 else low;
    if May(op, low, high, value) {
      var v := if op == Eq then r else if op == Lt || op == Le then low else top;
      assert Meets(term, v);
    }
  }

  lemma IsIff(term: Term, low: real, high: Option<real>)
    requires term.Is? && (high.Some? ==> low <= high.value)
    ensures !MayAny(term, low, high) <==> Numeric(term) && NoneMeets(term, low, high)
  {
    hide Comparison;
    if Numeric(term) {
      MayIff(term.op, low, high, term.value);
      var same := Is("", term.op, term.value);
      forall v: real ensures Meets(term, v) <==> Meets(same, v) { }
      hide Meets, May;
    }
  }

  lemma AmongIff(term: Term, low: real, high: Option<real>)
    requires term.Among? && (high.Some? ==> low <= high.value)
    ensures !MayAny(term, low, high) <==> Numeric(term) && NoneMeets(term, low, high)
  {
    hide May, Comparison;
    forall x <- term.values ensures !May(Eq, low, high, x) <==> x.Num? && NoneMeets(Is("", Eq, x), low, high) {
      if x.Num? { MayIff(Eq, low, high, x); } else { assert May(Eq, low, high, x) by { NeverDecided(low, high, x); } }
    }
    if !MayAny(term, low, high) {
      forall v: real | low <= v && (high.Some? ==> v <= high.value) ensures !Meets(term, v) {
        forall x <- term.values ensures Comparison(Eq, Num(v), x) != True {
          assert !Meets(Is("", Eq, x), v);
        }
      }
    }
    if Numeric(term) && NoneMeets(term, low, high) {
      forall x <- term.values ensures !May(Eq, low, high, x) {
        forall v: real | low <= v && (high.Some? ==> v <= high.value) ensures !Meets(Is("", Eq, x), v) {
          assert !Meets(term, v);
        }
      }
    }
  }

  lemma NeverDecided(low: real, high: Option<real>, value: Value)
    requires !value.Num?
    ensures May(Eq, low, high, value)
  {
  }

  lemma AnyIff(term: Term, low: real, high: Option<real>)
    requires high.Some? ==> low <= high.value
    ensures !MayAny(term, low, high) <==> Numeric(term) && NoneMeets(term, low, high)
  {
    hide *;
    if term.Is? { IsIff(term, low, high); } else { AmongIff(term, low, high); }
  }

  lemma RuledOutIff(unit: Unit, term: Term)
    requires Proper(unit)
    ensures (if term.column == OFFSET then !OffsetMayMatch(unit, term) else !MayMatch(unit, term))
       <==> RulesOut(unit, term)
  {
    hide MayAny, Numeric, NoneMeets;
    if term.column == OFFSET {
      if unit.start.Some? && (unit.end.Some? ==> unit.start.value < unit.end.value) {
        AnyIff(term, unit.start.value as real, if unit.end.Some? then Some((unit.end.value - 1) as real) else None);
      }
    } else if term.column in unit.stats {
      var s := unit.stats[term.column];
      if s.min.Some? && s.max.Some? { AnyIff(term, s.min.value, s.max); }
    }
  }

  /** A tier is left out exactly when its row says it holds no rows, or rules out what
      some conjunct of WHERE says of a column. A tier without a row never is. */
  lemma LeftOutIff(w: World, where: Expr, unit: Option<Unit>)
    requires unit.Some? ==> Proper(unit.value)
    ensures !Kept(unit, Terms(w, where)) <==>
      && unit.Some?
      && (|| unit.value.count == Some(0)
          || exists c, term :: Part(c, where) && Tells(w, c, term) && RulesOut(unit.value, term))
  {
    hide Conjuncts, TermsOf, OffsetMayMatch, MayMatch, RulesOut, Tells, Part;
    if unit.Some? {
      var conjuncts, terms := Conjuncts(where), Terms(w, where);
      forall term ensures term in terms <==> exists c :: Part(c, where) && Tells(w, c, term) {
        TermsIff(w, conjuncts, term);
        forall c ensures c in conjuncts <==> Part(c, where) { ConjunctsIff(where, c); }
      }
      forall term: Term
        ensures (if term.column == OFFSET then !OffsetMayMatch(unit.value, term) else !MayMatch(unit.value, term))
           <==> RulesOut(unit.value, term)
      {
        RuledOutIff(unit.value, term);
      }
    }
  }

  /** The buffer is left out exactly when its closing row is, or, while it is open, when a
      conjunct is about offsets below every one its leg can hold. */
  lemma BufferLeftOutIff(w: World, where: Expr, lowest: Option<int>, boundary: Option<int>, closed: Option<Unit>)
    requires closed.Some? ==> Proper(closed.value)
    ensures !BufferCouldMatch(Terms(w, where), lowest, boundary, closed) <==>
      if closed.Some? then !Kept(closed, Terms(w, where))
      else lowest.Some? && exists c, term :: Part(c, where) && Tells(w, c, term) && BelowAll(term, lowest.value, boundary)
  {
    hide Kept, Terms, Part, Tells;
    if closed.None? && lowest.Some? {
      var floor := if boundary.Some? && boundary.value > lowest.value then boundary.value else lowest.value;
      var unit := Unit(None, Some(floor), None, map[]);
      LeftOutIff(w, where, Some(unit));
      forall term ensures RulesOut(unit, term) <==> BelowAll(term, lowest.value, boundary) {
        OpenRulesOut(unit, term, lowest.value, boundary);
      }
      hide RulesOut, BelowAll;
      OffsetTerms(w, where, lowest.value, boundary);
    }
  }

  /** An offset the term is met by is below the lowest buffered, or below the boundary. */
  ghost predicate BelowAll(term: Term, lowest: int, boundary: Option<int>) {
    && term.column == OFFSET && Numeric(term)
    && forall v: real :: lowest as real <= v && (boundary.Some? ==> boundary.value as real <= v) ==> !Meets(term, v)
  }

  lemma OpenRulesOut(unit: Unit, term: Term, lowest: int, boundary: Option<int>)
    requires unit == Unit(None, Some(if boundary.Some? && boundary.value > lowest then boundary.value else lowest), None, map[])
    ensures RulesOut(unit, term) <==> BelowAll(term, lowest, boundary)
  {
    hide Meets, Numeric;
  }

  lemma OffsetTerms(w: World, where: Expr, lowest: int, boundary: Option<int>)
    ensures (forall term <- Terms(w, where) :: term.column != OFFSET) ==>
      !exists c, term :: Part(c, where) && Tells(w, c, term) && BelowAll(term, lowest, boundary)
  {
    hide Conjuncts, TermsOf, Tells, Part;
    forall c, term | Part(c, where) && Tells(w, c, term) ensures term in Terms(w, where) {
      TermsIff(w, Conjuncts(where), term);
      ConjunctsIff(where, c);
    }
  }

  /** A buffer just closed is left out exactly when a conjunct is about offsets and it is
      empty, or none from its lowest row to the last offset issued meets it. */
  lemma ClosedLeftOutIff(w: World, where: Expr, s: Tail, lowest: Option<int>, boundary: Option<int>)
    requires TailOk(s) && s.closed.None? && IsLowest(s.rows, lowest)
    ensures !BufferCouldMatch(Terms(w, where), lowest, boundary, Changed(s, Close(lowest)).closed) <==>
      exists c, term :: Part(c, where) && Tells(w, c, term) && term.column == OFFSET
        && (s.rows == {} || (Numeric(term) && NoneMeets(term, lowest.value as real, Some((s.next - 1) as real))))
  {
    hide Kept, Terms, Part, Tells, Numeric, NoneMeets;
    LeftOutIff(w, where, Changed(s, Close(lowest)).closed);
    assert lowest.Some? ==> lowest.value < s.next;
  }
}
