/** A query's WHERE as terms over columns, and the tiers those terms rule out.

    A number is a real; NULL compares to nothing, and NaN is above every number. What
    DuckDB binds a constant to, and computes for anything else, is given by `World`. */
module Prune {
  import opened Options

  datatype Value = Null | Num(r: real) | NaN
  datatype Truth = True | False | Unknown

  datatype Op = Lt | Le | Gt | Ge | Eq | Ne

  datatype Operand = Ref(names: seq<string>) | Constant(id: nat) | Computed(id: nat)

  datatype Expr =
    | And(children: seq<Expr>)
    | Or(children: seq<Expr>)
    | Not(child: Expr)
    | Compare(op: Op, left: Operand, right: Operand)
    | Between(input: Operand, lower: Operand, upper: Operand)
    | In(operands: seq<Operand>)
    | Opaque(id: nat)

  type Row = string -> Value

  /** The query's columns and names, and how DuckDB evaluates what is not modelled.

      `bound(k, c)` is the value constant `k` is compared to column `c` as; `known(k, c)`
      whether it could be evaluated beforehand. A NULL is never known. */
  datatype World = World(
    lower: string -> string,
    columns: seq<string>,
    prunable: string -> bool,
    qualifiers: seq<string>,
    bound: (nat, string) -> Value,
    known: (nat, string) -> bool,
    computed: (nat, Row) -> Value,
    opaqueTruth: (nat, Row) -> Truth)

  // ----- what WHERE means -----

  /** NaN equals itself and is above every number. */
  predicate Holds(op: Op, a: Value, b: Value)
    requires a != Null && b != Null
  {
    match op
    case Lt => (a.Num? && b.NaN?) || (a.Num? && b.Num? && a.r < b.r)
    case Le => b.NaN? || (a.Num? && b.Num? && a.r <= b.r)
    case Gt => (a.NaN? && b.Num?) || (a.Num? && b.Num? && a.r > b.r)
    case Ge => a.NaN? || (a.Num? && b.Num? && a.r >= b.r)
    case Eq => a == b
    case Ne => a != b
  }

  function Comparison(op: Op, a: Value, b: Value): Truth {
    if a == Null || b == Null then Unknown else if Holds(op, a, b) then True else False
  }

  /** The column a reference binds to: by its last name, whatever the case, if one column has it. */
  function Bind(w: World, operand: Operand): Option<string> {
    if !operand.Ref? then None
    else
      var names := if |operand.names| == 2 && w.lower(operand.names[0]) in w.qualifiers
                   then operand.names[1..] else operand.names;
      if |names| != 1 then None else Only(w, w.lower(names[0]), w.columns)
  }

  function Only(w: World, name: string, columns: seq<string>): Option<string> {
    if columns == [] then None
    else if w.lower(columns[0]) != name then Only(w, name, columns[1..])
    else if Only(w, name, columns[1..]).None? && (forall c <- columns[1..] :: w.lower(c) != name) then Some(columns[0])
    else None
  }

  function ValueOf(w: World, operand: Operand, column: Option<string>, row: Row): Value {
    match operand
    case Ref(_) => if Bind(w, operand).Some? then row(Bind(w, operand).value) else Null
    case Constant(k) => w.bound(k, if column.Some? then column.value else "")
    case Computed(k) => w.computed(k, row)
  }

  /** The column a comparison is on: its left operand's, or else its right's. */
  function ColumnOf(w: World, left: Operand, right: Operand): Option<string> {
    if Bind(w, left).Some? then Bind(w, left) else Bind(w, right)
  }

  function Both(a: Truth, b: Truth): Truth {
    if a == False || b == False then False else if a == True && b == True then True else Unknown
  }

  function Either(a: Truth, b: Truth): Truth {
    if a == True || b == True then True else if a == False && b == False then False else Unknown
  }

  function Means(w: World, e: Expr, row: Row): Truth
    decreases e
  {
    match e
    case And(children) => AllTrue(w, children, row)
    case Or(children) => AnyTrue(w, children, row)
    case Not(child) =>
      var t := Means(w, child, row);
      if t == True then False else if t == False then True else Unknown
    case Compare(op, left, right) =>
      var c := ColumnOf(w, left, right);
      Comparison(op, ValueOf(w, left, c, row), ValueOf(w, right, c, row))
    case Between(input, lower, upper) =>
      var c := Bind(w, input);
      var v := ValueOf(w, input, c, row);
      Both(Comparison(Ge, v, ValueOf(w, lower, c, row)), Comparison(Le, v, ValueOf(w, upper, c, row)))
    case In(operands) =>
      if operands == [] then Unknown
      else Member(w, operands[0], operands[1..], row)
    case Opaque(k) => w.opaqueTruth(k, row)
  }

  function AllTrue(w: World, children: seq<Expr>, row: Row): Truth
    decreases children
  {
    if children == [] then True else Both(Means(w, children[0], row), AllTrue(w, children[1..], row))
  }

  function AnyTrue(w: World, children: seq<Expr>, row: Row): Truth
    decreases children
  {
    if children == [] then False else Either(Means(w, children[0], row), AnyTrue(w, children[1..], row))
  }

  function Member(w: World, input: Operand, values: seq<Operand>, row: Row): Truth {
    if values == [] then False
    else
      var c := Bind(w, input);
      Either(Comparison(Eq, ValueOf(w, input, c, row), ValueOf(w, values[0], c, row)), Member(w, input, values[1..], row))
  }

  // ----- terms -----

  /** A column against a value by an operator, or against a list. */
  datatype Term = Is(column: string, op: Op, value: Value) | Among(column: string, values: seq<Value>)

  ghost predicate Met(term: Term, row: Row) {
    match term
    case Is(column, op, value) => Comparison(op, row(column), value) == True
    case Among(column, values) => exists v <- values :: Comparison(Eq, row(column), v) == True
  }

  ghost predicate AllMet(terms: seq<Term>, row: Row) {
    forall term <- terms :: Met(term, row)
  }

  /** A reference to a column terms may be about. */
  function Column(w: World, operand: Operand): Option<string> {
    var c := Bind(w, operand);
    if c.Some? && w.prunable(c.value) then c else None
  }

  function Known(w: World, operand: Operand, column: string): Option<Value> {
    if operand.Constant? && w.known(operand.id, column) then Some(w.bound(operand.id, column)) else None
  }

  /** The comparison with its operands swapped, for those that translate. */
  function Mirror(op: Op): Op {
    match op
    case Lt => Gt
    case Le => Ge
    case Gt => Lt
    case Ge => Le
    case Eq => Eq
    case Ne => Ne
  }

  function Values(w: World, operands: seq<Operand>, column: string): Option<seq<Value>> {
    if operands == [] then Some([])
    else
      var first, rest := Known(w, operands[0], column), Values(w, operands[1..], column);
      if first.None? || rest.None? then None else Some([first.value] + rest.value)
  }

  /** One conjunct's terms: none if it cannot narrow anything. */
  function Translate(w: World, e: Expr): seq<Term> {
    match e
    case Compare(op, left, right) =>
      if op == Ne then []
      else
        var swapped := Column(w, left).None?;
        var column := if swapped then Column(w, right) else Column(w, left);
        if column.None? then []
        else
          var value := Known(w, if swapped then left else right, column.value);
          if value.None? then []
          else [Is(column.value, if swapped then Mirror(op) else op, value.value)]
    case Between(input, lower, upper) =>
      var column := Column(w, input);
      if column.None? then []
      else
        var low, high := Known(w, lower, column.value), Known(w, upper, column.value);
        (if low.Some? then [Is(column.value, Ge, low.value)] else [])
        + (if high.Some? then [Is(column.value, Le, high.value)] else [])
    case In(operands) =>
      if operands == [] || Column(w, operands[0]).None? then []
      else
        var column := Column(w, operands[0]).value;
        var values := Values(w, operands[1..], column);
        if |operands| == 1 || values.None? then [] else [Among(column, values.value)]
    case _ => []
  }

  /** The AND-ed conjuncts, however they nest. */
  function Conjuncts(e: Expr): seq<Expr>
    decreases e
  {
    if e.And? then ConjunctsOf(e.children) else [e]
  }

  function ConjunctsOf(children: seq<Expr>): seq<Expr>
    decreases children
  {
    if children == [] then [] else Conjuncts(children[0]) + ConjunctsOf(children[1..])
  }

  function TermsOf(w: World, conjuncts: seq<Expr>): seq<Term> {
    if conjuncts == [] then [] else Translate(w, conjuncts[0]) + TermsOf(w, conjuncts[1..])
  }

  function Terms(w: World, where: Expr): seq<Term> {
    TermsOf(w, Conjuncts(where))
  }

  // ----- the terms are what WHERE implies -----

  /** Whether a conjunct is told in full by its terms. */
  predicate Told(w: World, e: Expr) {
    if e.Between? then |Translate(w, e)| == 2 else Translate(w, e) != []
  }

  lemma MirrorHolds(op: Op, a: Value, b: Value)
    ensures Comparison(Mirror(op), b, a) == Comparison(op, a, b)
  {
  }

  lemma OneTerm(term: Term, row: Row)
    ensures AllMet([term], row) <==> Met(term, row)
  {
    assert term in [term];
  }

  lemma CompareTold(w: World, e: Expr, row: Row)
    requires e.Compare?
    ensures Means(w, e, row) == True ==> AllMet(Translate(w, e), row)
    ensures Told(w, e) ==> (Means(w, e, row) == True <==> AllMet(Translate(w, e), row))
  {
    hide Met, AllMet, Only, Holds;
    var terms := Translate(w, e);
    if terms == [] {
      NoTerms(row);
    } else {
      var a, b := ValueOf(w, e.left, ColumnOf(w, e.left, e.right), row), ValueOf(w, e.right, ColumnOf(w, e.left, e.right), row);
      MirrorHolds(e.op, a, b);
      OneTerm(terms[0], row);
      MetIs(terms[0], row);
    }
  }

  lemma NoTerms(row: Row)
    ensures AllMet([], row)
  {
  }

  lemma MetIs(term: Term, row: Row)
    ensures term.Is? ==> (Met(term, row) <==> Comparison(term.op, row(term.column), term.value) == True)
  {
  }

  lemma BetweenTold(w: World, e: Expr, row: Row)
    requires e.Between?
    ensures Means(w, e, row) == True ==> AllMet(Translate(w, e), row)
    ensures Told(w, e) ==> (Means(w, e, row) == True <==> AllMet(Translate(w, e), row))
  {
    hide Only, Holds;
    var terms := Translate(w, e);
    if |terms| == 2 { assert terms[0] in terms && terms[1] in terms; }
  }

  lemma {:induction false} MemberTold(w: World, input: Operand, operands: seq<Operand>, row: Row)
    requires Column(w, input).Some? && Values(w, operands, Column(w, input).value).Some?
    ensures var column := Column(w, input).value;
      Member(w, input, operands, row) == True
      <==> (exists v <- Values(w, operands, column).value :: Comparison(Eq, row(column), v) == True)
  {
    hide Only, Holds;
    if operands != [] {
      var column := Column(w, input).value;
      var first, rest := Known(w, operands[0], column), Values(w, operands[1..], column);
      assert first.Some? && rest.Some?;
      MemberTold(w, input, operands[1..], row);
      hide Comparison, Bind;
      var all := Values(w, operands, column).value;
      assert all == [first.value] + rest.value;
      if v :| v in rest.value && Comparison(Eq, row(column), v) == True { assert v in all; }
      if Comparison(Eq, row(column), first.value) == True { assert first.value in all; }
    }
  }

  lemma InTold(w: World, e: Expr, row: Row)
    requires e.In?
    ensures Means(w, e, row) == True ==> AllMet(Translate(w, e), row)
    ensures Told(w, e) ==> (Means(w, e, row) == True <==> AllMet(Translate(w, e), row))
  {
    hide Only, Holds, Values, Member;
    var terms := Translate(w, e);
    if terms != [] {
      MemberTold(w, e.operands[0], e.operands[1..], row);
      OneTerm(terms[0], row);
    }
  }

  lemma {:induction false} ConjunctTold(w: World, e: Expr, row: Row)
    ensures Means(w, e, row) == True ==> AllMet(Translate(w, e), row)
    ensures Told(w, e) ==> (Means(w, e, row) == True <==> AllMet(Translate(w, e), row))
  {
    match e
    case Compare(_, _, _) => CompareTold(w, e, row);
    case Between(_, _, _) => BetweenTold(w, e, row);
    case In(_) => InTold(w, e, row);
    case _ => NoTerms(row);
  }

  lemma {:induction false} ConjunctsMean(w: World, e: Expr, row: Row)
    ensures Means(w, e, row) == True <==> forall c <- Conjuncts(e) :: Means(w, c, row) == True
    decreases e
  {
    if e.And? {
      AllConjunctsMean(w, e.children, row);
    } else {
      assert e in Conjuncts(e);
    }
  }

  lemma {:induction false} AllConjunctsMean(w: World, children: seq<Expr>, row: Row)
    ensures AllTrue(w, children, row) == True <==> forall c <- ConjunctsOf(children) :: Means(w, c, row) == True
    decreases children
  {
    if children != [] {
      ConjunctsMean(w, children[0], row);
      AllConjunctsMean(w, children[1..], row);
      var first, rest := Conjuncts(children[0]), ConjunctsOf(children[1..]);
      assert forall c :: c in ConjunctsOf(children) <==> c in first || c in rest;
    }
  }

  lemma {:induction false} TermsTold(w: World, conjuncts: seq<Expr>, row: Row)
    ensures (forall c <- conjuncts :: Means(w, c, row) == True) ==> AllMet(TermsOf(w, conjuncts), row)
    ensures (forall c <- conjuncts :: Told(w, c)) && AllMet(TermsOf(w, conjuncts), row)
      ==> forall c <- conjuncts :: Means(w, c, row) == True
  {
    hide Means, Translate, Told, Met;
    if conjuncts != [] {
      assert conjuncts[0] in conjuncts;
      assert forall c <- conjuncts[1..] :: c in conjuncts;
      ConjunctTold(w, conjuncts[0], row);
      TermsTold(w, conjuncts[1..], row);
      BothMet(Translate(w, conjuncts[0]), TermsOf(w, conjuncts[1..]), row);
      assert conjuncts == [conjuncts[0]] + conjuncts[1..];
    }
  }

  lemma BothMet(a: seq<Term>, b: seq<Term>, row: Row)
    ensures AllMet(a + b, row) <==> AllMet(a, row) && AllMet(b, row)
  {
    hide Met;
    if AllMet(a + b, row) {
      assert forall term <- a :: term in a + b;
      assert forall term <- b :: term in a + b;
    }
  }

  /** Every term holds on a row for which WHERE is true; and where each conjunct is told
      in full, WHERE is true of exactly the rows the terms hold on. */
  lemma {:induction false} WhereImpliesTerms(w: World, where: Expr, row: Row)
    ensures Means(w, where, row) == True ==> AllMet(Terms(w, where), row)
    ensures (forall c <- Conjuncts(where) :: Told(w, c))
      ==> (Means(w, where, row) == True <==> AllMet(Terms(w, where), row))
  {
    hide Means, AllMet, Conjuncts, TermsOf, Told;
    ConjunctsMean(w, where, row);
    TermsTold(w, Conjuncts(where), row);
  }

  // ----- what a unit may hold -----

  const OFFSET := "litelink_offset"

  /** A column's bounds over its values that are neither NULL nor NaN. */
  datatype Stats = Stats(min: Option<real>, max: Option<real>, floating: bool, nans: Option<nat>)

  /** A tier's row of the manifest. No end is a unit still growing. */
  datatype Unit = Unit(count: Option<nat>, start: Option<int>, end: Option<int>, stats: map<string, Stats>)

  /** Whether some number from `low` to `high`, or to no bound, satisfies the operator. */
  predicate May(op: Op, low: real, high: Option<real>, value: Value) {
    if !value.Num? then true
    else match op
      case Eq => low <= value.r && (high.Some? ==> value.r <= high.value)
      case Lt => low < value.r
      case Le => low <= value.r
      case Gt => high.None? || high.value > value.r
      case Ge => high.None? || high.value >= value.r
      case Ne => true
  }

  predicate MayAny(term: Term, low: real, high: Option<real>) {
    match term
    case Is(_, op, value) => May(op, low, high, value)
    case Among(_, values) => exists v <- values :: May(Eq, low, high, v)
  }

  predicate MayMatch(unit: Unit, term: Term) {
    if term.column !in unit.stats then true
    else
      var s := unit.stats[term.column];
      if s.min.None? || s.max.None? then true
      else if s.floating && (s.nans.None? || s.nans.value > 0) then true
      else MayAny(term, s.min.value, s.max)
  }

  predicate OffsetMayMatch(unit: Unit, term: Term) {
    if unit.start.None? then true
    else if unit.end.None? then MayAny(term, unit.start.value as real, None)
    else if unit.end.value <= unit.start.value then false
    else MayAny(term, unit.start.value as real, Some((unit.end.value - 1) as real))
  }

  /** Whether a unit is read: always if nothing is known of it. */
  function Kept(unit: Option<Unit>, terms: seq<Term>): bool {
    unit.None? || (
      unit.value.count != Some(0)
      && forall term <- terms ::
           if term.column == OFFSET then OffsetMayMatch(unit.value, term) else MayMatch(unit.value, term))
  }

  // ----- what a unit's row says of its rows -----

  /** An offset is a whole number in the unit's range. */
  ghost predicate OffsetIn(unit: Unit, row: Row) {
    exists o :: OffsetAt(unit, row, o)
  }

  ghost predicate OffsetAt(unit: Unit, row: Row, o: int) {
    row(OFFSET) == Num(o as real)
    && (unit.start.Some? ==> unit.start.value <= o && (unit.end.Some? ==> o < unit.end.value))
  }

  /** A column's value is within its bounds, where there are bounds; only a floating
      column has NaN, and it counts them. */
  ghost predicate ValueIn(unit: Unit, column: string, row: Row) {
    column in unit.stats ==>
      var s, v := unit.stats[column], row(column);
      && (v.Num? && s.min.Some? ==> s.min.value <= v.r)
      && (v.Num? && s.max.Some? ==> v.r <= s.max.value)
      && (v.NaN? ==> s.floating && s.nans != Some(0))
  }

  ghost predicate Describes(unit: Unit, row: Row) {
    unit.count != Some(0) && OffsetIn(unit, row) && forall column :: ValueIn(unit, column, row)
  }

  lemma MayHold(op: Op, low: real, high: Option<real>, value: Value, v: Value)
    requires v.Num? && low <= v.r && (high.Some? ==> v.r <= high.value)
    requires Comparison(op, v, value) == True
    ensures May(op, low, high, value)
  {
  }

  lemma MayHoldAny(term: Term, low: real, high: Option<real>, row: Row)
    requires Met(term, row) && row(term.column).Num?
    requires low <= row(term.column).r && (high.Some? ==> row(term.column).r <= high.value)
    ensures MayAny(term, low, high)
  {
    hide May, Comparison;
    match term
    case Is(column, op, value) => MayHold(op, low, high, value, row(column));
    case Among(column, values) =>
      var v :| v in values && Comparison(Eq, row(column), v) == True;
      MayHold(Eq, low, high, v, row(column));
  }

  lemma MetNotNull(term: Term, row: Row)
    requires Met(term, row)
    ensures row(term.column) != Null
  {
  }

  lemma TermMayMatch(unit: Unit, term: Term, row: Row)
    requires Describes(unit, row) && Met(term, row)
    ensures if term.column == OFFSET then OffsetMayMatch(unit, term) else MayMatch(unit, term)
  {
    hide Met, MayAny;
    MetNotNull(term, row);
    assert ValueIn(unit, term.column, row);
    if term.column == OFFSET {
      var o :| OffsetAt(unit, row, o);
      if unit.start.Some? {
        var high := if unit.end.Some? then Some((unit.end.value - 1) as real) else None;
        MayHoldAny(term, unit.start.value as real, high, row);
      }
    } else if term.column in unit.stats {
      var s := unit.stats[term.column];
      if s.min.Some? && s.max.Some? && row(term.column).Num? {
        MayHoldAny(term, s.min.value, s.max, row);
      }
    }
  }

  /** A unit left out holds no row for which WHERE is true. */
  lemma SkipSound(w: World, where: Expr, unit: Option<Unit>, row: Row)
    requires unit.Some? ==> Describes(unit.value, row)
    requires Means(w, where, row) == True
    ensures Kept(unit, Terms(w, where))
  {
    WhereImpliesTerms(w, where, row);
    hide Means, Terms, Describes, OffsetMayMatch, MayMatch, Met;
    if unit.Some? {
      var terms := Terms(w, where);
      assert unit.value.count != Some(0) by { CountOf(unit.value, row); }
      forall term | term in terms
        ensures if term.column == OFFSET then OffsetMayMatch(unit.value, term) else MayMatch(unit.value, term)
      {
        assert Met(term, row);
        TermMayMatch(unit.value, term, row);
      }
    }
  }

  lemma CountOf(unit: Unit, row: Row)
    requires Describes(unit, row)
    ensures unit.count != Some(0)
  {
  }

  // ----- the buffer's leg -----

  /** Whether the buffer is read: unless the query is below every row its leg can hold. */
  function BufferCouldMatch(terms: seq<Term>, lowest: Option<int>, boundary: Option<int>, closed: Option<Unit>): bool {
    if closed.Some? then Kept(closed, terms)
    else if forall term <- terms :: term.column != OFFSET then true
    else if lowest.None? then true
    else
      var floor := if boundary.Some? && boundary.value > lowest.value then boundary.value else lowest.value;
      Kept(Some(Unit(None, Some(floor), None, map[])), terms)
  }

  /** The buffer: the rows in it, the offset the next will have, and the row that says it
      takes no more. */
  datatype Tail = Tail(rows: set<int>, next: int, closed: Option<Unit>)

  datatype Change =
    | Append
    | Leave(gone: set<int>)          // evicted, or truncated
    | Close(lowest: Option<int>)     // `retire` gives the buffer an end
    | Empty                          // and, once it holds nothing, an empty range

  ghost predicate IsLowest(rows: set<int>, lowest: Option<int>) {
    if lowest.None? then rows == {} else lowest.value in rows && forall o <- rows :: lowest.value <= o
  }

  ghost predicate Admits(s: Tail, change: Change) {
    match change
    case Append => s.closed.None?
    case Leave(_) => true
    case Close(lowest) => IsLowest(s.rows, lowest)
    case Empty => s.closed.Some? && s.rows == {}
  }

  function Changed(s: Tail, change: Change): Tail {
    match change
    case Append => Tail(s.rows + {s.next}, s.next + 1, s.closed)
    case Leave(gone) => s.(rows := s.rows - gone)
    case Close(lowest) =>
      if s.closed.Some? then s
      else s.(closed := Some(Unit(None, Some(if lowest.Some? then lowest.value else s.next), Some(s.next), map[])))
    case Empty => s.(closed := Some(Unit(Some(0), Some(s.next), Some(s.next), map[])))
  }

  ghost predicate Changes(s: Tail, changes: seq<Change>)
    decreases |changes|
  {
    changes == [] || (Admits(s, changes[0]) && Changes(Changed(s, changes[0]), changes[1..]))
  }

  function Later(s: Tail, changes: seq<Change>): Tail
    decreases |changes|
  {
    if changes == [] then s else Later(Changed(s, changes[0]), changes[1..])
  }

  /** The closing row covers every row still there, and an empty one is over none. */
  ghost predicate TailOk(s: Tail) {
    && (forall o <- s.rows :: o < s.next)
    && (s.closed.Some? ==>
          var unit := s.closed.value;
          && unit.start.Some? && unit.end.Some? && unit.stats == map[]
          && (forall o <- s.rows :: unit.start.value <= o < unit.end.value)
          && (unit.count == Some(0) ==> s.rows == {}))
  }

  /** What a later buffer may hold: rows it held, and rows above every one before, unless
      it was closed. */
  ghost predicate Since(s: Tail, t: Tail) {
    && s.next <= t.next && (s.closed.Some? ==> t.closed.Some?)
    && forall o <- t.rows :: o in s.rows || (s.closed.None? && o >= s.next)
  }

  lemma {:induction false} LaterOk(s: Tail, changes: seq<Change>)
    requires TailOk(s) && Changes(s, changes)
    ensures TailOk(Later(s, changes)) && Since(s, Later(s, changes))
    decreases |changes|
  {
    if changes != [] {
      LaterOk(Changed(s, changes[0]), changes[1..]);
    }
  }

  const FRESH := Tail({}, 1, None)

  /** The buffer left out, on its closing row as first read and its lowest offset as read
      next, holds at no later time a row of its leg for which WHERE is true, whatever was
      appended, left, or closed meanwhile. */
  lemma BufferSkipSound(w: World, where: Expr, before: seq<Change>, between: seq<Change>, since: seq<Change>,
                        lowest: Option<int>, boundary: Option<int>, row: Row, offset: int)
    requires Changes(FRESH, before)
    requires Changes(Later(FRESH, before), between)
    requires Changes(Later(Later(FRESH, before), between), since)
    requires IsLowest(Later(Later(FRESH, before), between).rows, lowest)
    requires offset in Later(Later(Later(FRESH, before), between), since).rows
    requires boundary.Some? ==> boundary.value <= offset
    requires row(OFFSET) == Num(offset as real) && Means(w, where, row) == True
    ensures BufferCouldMatch(Terms(w, where), lowest, boundary, Later(FRESH, before).closed)
  {
    LaterOk(FRESH, before);
    var s := Later(FRESH, before);
    LaterOk(s, between);
    LaterOk(Later(s, between), since);
    hide Means, Terms, Changes, Later, Kept;
    if s.closed.Some? {
      assert OffsetAt(s.closed.value, row, offset);
      SkipSound(w, where, s.closed, row);
    } else if lowest.Some? {
      var floor := if boundary.Some? && boundary.value > lowest.value then boundary.value else lowest.value;
      var unit := Unit(None, Some(floor), None, map[]);
      assert OffsetAt(unit, row, offset);
      SkipSound(w, where, Some(unit), row);
    }
  }

  /** A retired log's buffer is read by no query, with terms or without. */
  lemma RetiredSkips(before: seq<Change>, lowest: Option<int>, boundary: Option<int>, terms: seq<Term>)
    requires Changes(FRESH, before) && before != [] && before[|before| - 1] == Empty
    ensures !BufferCouldMatch(terms, lowest, boundary, Later(FRESH, before).closed)
  {
    LastEmpty(FRESH, before);
  }

  lemma {:induction false} LastEmpty(s: Tail, changes: seq<Change>)
    requires Changes(s, changes) && changes != [] && changes[|changes| - 1] == Empty
    ensures Later(s, changes).closed.Some? && Later(s, changes).closed.value.count == Some(0)
    decreases |changes|
  {
    if |changes| > 1 {
      LastEmpty(Changed(s, changes[0]), changes[1..]);
    } else {
      assert Later(Changed(s, changes[0]), changes[1..]) == Changed(s, changes[0]);
    }
  }
}
