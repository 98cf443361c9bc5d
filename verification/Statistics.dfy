/** A tier's statistics, folded from parts: what each part says of its rows, the fold says
    of all of them. Eviction adds the rows it takes to the published tier's row this way.

    A summary speaks of a list of rows. Rows counted twice, as an eviction retried after a
    crash counts them, are in the list twice. */
module Statistics {
  import opened Options
  import opened Prune

  /** A column's bounds over its values that are neither NULL nor NaN, and how many are. */
  datatype Column = Column(min: Option<real>, max: Option<real>, nulls: Option<nat>, nans: Option<nat>)

  datatype Summary = Summary(count: Option<nat>, columns: map<string, Column>)

  const NOTHING := Column(None, None, None, None)

  // ----- what a summary says -----

  function Nulls(rows: seq<Row>, name: string): (n: nat)
    ensures n <= |rows|
    ensures n == |rows| <==> forall i :: 0 <= i < |rows| ==> rows[i](name).Null?
  {
    if rows == [] then 0
    else
      var last := |rows| - 1;
      Nulls(rows[..last], name) + if rows[last](name).Null? then 1 else 0
  }

  function NaNs(rows: seq<Row>, name: string): (n: nat)
    ensures n == 0 <==> forall i :: 0 <= i < |rows| ==> !rows[i](name).NaN?
  {
    if rows == [] then 0
    else
      var last := |rows| - 1;
      NaNs(rows[..last], name) + if rows[last](name).NaN? then 1 else 0
  }

  ghost predicate Within(min: Option<real>, max: Option<real>, v: Value) {
    v.Num? ==> min.Some? && max.Some? && min.value <= v.r <= max.value
  }

  ghost predicate AllWithin(rows: seq<Row>, name: string, min: Option<real>, max: Option<real>) {
    forall i :: 0 <= i < |rows| ==> Within(min, max, rows[i](name))
  }

  ghost predicate ColumnTrue(c: Column, rows: seq<Row>, name: string) {
    && (c.nulls.Some? ==> c.nulls.value == Nulls(rows, name))
    && (c.nans.Some? ==> c.nans.value == NaNs(rows, name))
    && (c.min.Some? <==> c.max.Some?)
    && (c.min.Some? ==> AllWithin(rows, name, c.min, c.max))
  }

  ghost predicate TrueOf(s: Summary, rows: seq<Row>) {
    && (s.count.Some? ==> s.count.value == |rows|)
    && forall name :: name in s.columns ==> ColumnTrue(s.columns[name], rows, name)
  }

  // ----- the fold -----

  /** What one column's fold has come to. */
  datatype Fold = Fold(low: Option<real>, high: Option<real>, unknown: bool, nulls: Option<nat>, nans: Option<nat>)

  const START := Fold(None, None, false, Some(0), Some(0))

  function Plus(a: Option<nat>, b: Option<nat>): Option<nat> {
    if a.None? || b.None? then None else Some(a.value + b.value)
  }

  function Lower(a: Option<real>, b: Option<real>): Option<real> {
    if a.None? then b else if b.None? then a else if b.value < a.value then b else a
  }

  function Higher(a: Option<real>, b: Option<real>): Option<real> {
    if a.None? then b else if b.None? then a else if b.value > a.value then b else a
  }

  /** A part with no rows says nothing; one that never had the column makes it unknown, as
      does one with no bound whose values are not all NULL. */
  function Folded(f: Fold, part: Summary, name: string): Fold {
    if part.count == Some(0) then f
    else
      var c := if name in part.columns then part.columns[name] else NOTHING;
      var counted := f.(nulls := Plus(f.nulls, c.nulls), nans := Plus(f.nans, c.nans));
      if c.min.None? then
        if c.nulls.None? || c.nulls != part.count then counted.(unknown := true) else counted
      else counted.(low := Lower(f.low, c.min), high := Higher(f.high, c.max))
  }

  function FoldOf(parts: seq<Summary>, name: string): Fold {
    if parts == [] then START else Folded(FoldOf(parts[..|parts| - 1], name), parts[|parts| - 1], name)
  }

  /** Bounds are given only when none is unknown. */
  function Result(f: Fold): Column {
    Column(if f.unknown then None else f.low, if f.unknown then None else f.high, f.nulls, f.nans)
  }

  function Total(parts: seq<Summary>): Option<nat> {
    if parts == [] then Some(0) else Plus(Total(parts[..|parts| - 1]), parts[|parts| - 1].count)
  }

  // ----- nothing known is lost -----

  /** What a part with rows says of a column. */
  function Says(part: Summary, name: string): Column {
    if name in part.columns then part.columns[name] else NOTHING
  }

  ghost predicate HasRows(part: Summary) {
    part.count != Some(0)
  }

  /** A part with rows that has no bound for the column, though not all its values are
      known to be NULL. */
  ghost predicate Vague(part: Summary, name: string) {
    var c := Says(part, name);
    HasRows(part) && c.min.None? && (c.nulls.None? || c.nulls != part.count)
  }

  ghost predicate HasMin(part: Summary, name: string) {
    HasRows(part) && Says(part, name).min.Some?
  }

  ghost predicate HasMax(part: Summary, name: string) {
    HasMin(part, name) && Says(part, name).max.Some?
  }

  /** A bound is some part's, and none of them is beyond it. */
  ghost predicate LeastOf(bound: Option<real>, parts: seq<Summary>, name: string) {
    && (bound.Some? <==> exists part <- parts :: HasMin(part, name))
    && (bound.Some? ==>
          && (exists part <- parts :: HasMin(part, name) && Says(part, name).min == bound)
          && forall part <- parts :: HasMin(part, name) ==> bound.value <= Says(part, name).min.value)
  }

  ghost predicate GreatestOf(bound: Option<real>, parts: seq<Summary>, name: string) {
    && (bound.Some? <==> exists part <- parts :: HasMax(part, name))
    && (bound.Some? ==>
          && (exists part <- parts :: HasMax(part, name) && Says(part, name).max == bound)
          && forall part <- parts :: HasMax(part, name) ==> Says(part, name).max.value <= bound.value)
  }

  /** Where no part is vague, the bounds are kept, and are as tight as the parts' are; and
      a count of NULLs or NaNs is known when each part knows its own. */
  ghost predicate Tight(c: Column, parts: seq<Summary>, name: string) {
    && (if exists part <- parts :: Vague(part, name) then c.min.None? && c.max.None?
        else LeastOf(c.min, parts, name) && GreatestOf(c.max, parts, name))
    && (c.nulls.Some? <==> forall part <- parts :: HasRows(part) ==> Says(part, name).nulls.Some?)
    && (c.nans.Some? <==> forall part <- parts :: HasRows(part) ==> Says(part, name).nans.Some?)
  }

  ghost predicate FoldTight(f: Fold, parts: seq<Summary>, name: string) {
    && (f.unknown <==> exists part <- parts :: Vague(part, name))
    && LeastOf(f.low, parts, name) && GreatestOf(f.high, parts, name)
    && (f.nulls.Some? <==> forall part <- parts :: HasRows(part) ==> Says(part, name).nulls.Some?)
    && (f.nans.Some? <==> forall part <- parts :: HasRows(part) ==> Says(part, name).nans.Some?)
  }

  lemma LeastMore(bound: Option<real>, parts: seq<Summary>, part: Summary, name: string)
    requires LeastOf(bound, parts, name)
    ensures LeastOf(if HasMin(part, name) then Lower(bound, Says(part, name).min) else bound, parts + [part], name)
  {
    hide HasRows, Says;
    InMore(parts, part);
    assert part in parts + [part];
    if p :| p in parts && HasMin(p, name) {
      assert p in parts + [part];
      var at :| at in parts && HasMin(at, name) && Says(at, name).min == bound;
      assert at in parts + [part];
    }
  }

  lemma GreatestMore(bound: Option<real>, parts: seq<Summary>, part: Summary, name: string)
    requires GreatestOf(bound, parts, name)
    ensures GreatestOf(if HasMax(part, name) then Higher(bound, Says(part, name).max) else bound, parts + [part], name)
  {
    hide HasRows, Says;
    InMore(parts, part);
    assert part in parts + [part];
    if p :| p in parts && HasMax(p, name) {
      assert p in parts + [part];
      var at :| at in parts && HasMax(at, name) && Says(at, name).max == bound;
      assert at in parts + [part];
    }
  }

  lemma InMore(parts: seq<Summary>, part: Summary)
    ensures forall p :: p in parts + [part] <==> p in parts || p == part
  {
  }

  lemma FoldedTight(f: Fold, parts: seq<Summary>, part: Summary, name: string)
    requires FoldTight(f, parts, name)
    ensures FoldTight(Folded(f, part, name), parts + [part], name)
  {
    hide LeastOf, GreatestOf, Lower, Higher;
    LeastMore(f.low, parts, part, name);
    GreatestMore(f.high, parts, part, name);
    InMore(parts, part);
    NoHigher(f.high);
  }

  lemma NoHigher(bound: Option<real>)
    ensures Higher(bound, None) == bound
  {
  }

  lemma {:induction false} FoldOfTight(parts: seq<Summary>, name: string)
    ensures FoldTight(FoldOf(parts, name), parts, name)
    decreases |parts|
  {
    hide Folded;
    if parts != [] {
      var last := |parts| - 1;
      FoldOfTight(parts[..last], name);
      hide FoldTight;
      FoldedTight(FoldOf(parts[..last], name), parts[..last], parts[last], name);
      assert parts[..last] + [parts[last]] == parts;
    }
  }

  lemma {:induction false} TotalKnown(parts: seq<Summary>)
    ensures Total(parts).Some? <==> forall part <- parts :: part.count.Some?
    decreases |parts|
  {
    if parts != [] {
      var last := |parts| - 1;
      TotalKnown(parts[..last]);
      assert parts == parts[..last] + [parts[last]];
    }
  }

  /** Folds `parts`, column by column. */
  method Merge(names: seq<string>, parts: seq<Summary>) returns (s: Summary)
    ensures s.count == Total(parts)
    ensures forall name :: name in s.columns <==> name in names
    ensures forall name :: name in s.columns ==> s.columns[name] == Result(FoldOf(parts, name))
    // What the parts know is kept: the count when each has one, the bounds when none is vague.
    ensures s.count.Some? <==> forall part <- parts :: part.count.Some?
    ensures forall name :: name in s.columns ==> Tight(s.columns[name], parts, name)
  {
    hide Tight, FoldOf;
    var count := Some(0);
    for i := 0 to |parts|
      invariant count == Total(parts[..i])
    {
      assert parts[..i + 1][..i] == parts[..i];
      count := Plus(count, parts[i].count);
    }
    assert parts[..|parts|] == parts;
    var columns: map<string, Column> := map[];
    for k := 0 to |names|
      invariant forall name :: name in columns <==> name in names[..k]
      invariant forall name :: name in columns ==> columns[name] == Result(FoldOf(parts, name))
    {
      var f := FoldColumn(parts, names[k]);
      assert names[..k + 1] == names[..k] + [names[k]];
      columns := columns[names[k] := Result(f)];
    }
    assert names[..|names|] == names;
    s := Summary(count, columns);
    TotalKnown(parts);
    forall name | name in columns ensures Tight(columns[name], parts, name) { ResultTight(parts, name); }
  }

  lemma ResultTight(parts: seq<Summary>, name: string)
    ensures Tight(Result(FoldOf(parts, name)), parts, name)
  {
    hide LeastOf, GreatestOf, FoldOf, Vague, HasRows, Says;
    FoldOfTight(parts, name);
  }

  method FoldColumn(parts: seq<Summary>, name: string) returns (f: Fold)
    ensures f == FoldOf(parts, name)
  {
    f := START;
    for i := 0 to |parts|
      invariant f == FoldOf(parts[..i], name)
    {
      assert parts[..i + 1][..i] == parts[..i];
      var part := parts[i];
      if part.count != Some(0) {
        var c := if name in part.columns then part.columns[name] else NOTHING;
        var nulls, nans := Plus(f.nulls, c.nulls), Plus(f.nans, c.nans);
        if c.min.None? {
          f := f.(nulls := nulls, nans := nans, unknown := f.unknown || c.nulls.None? || c.nulls != part.count);
        } else {
          f := f.(nulls := nulls, nans := nans, low := Lower(f.low, c.min), high := Higher(f.high, c.max));
        }
      }
    }
    assert parts[..|parts|] == parts;
  }

  // ----- the fold tells the truth -----

  lemma {:induction false} NullsJoin(a: seq<Row>, b: seq<Row>, name: string)
    ensures Nulls(a + b, name) == Nulls(a, name) + Nulls(b, name)
    ensures NaNs(a + b, name) == NaNs(a, name) + NaNs(b, name)
    decreases |b|
  {
    if b == [] {
      assert a + b == a;
    } else {
      var last := |b| - 1;
      assert (a + b)[..|a + b| - 1] == a + b[..last];
      NullsJoin(a, b[..last], name);
    }
  }

  /** What a fold has come to is true of the rows folded so far. */
  ghost predicate FoldTrue(f: Fold, rows: seq<Row>, name: string) {
    && (f.nulls.Some? ==> f.nulls.value == Nulls(rows, name))
    && (f.nans.Some? ==> f.nans.value == NaNs(rows, name))
    && (f.low.Some? <==> f.high.Some?)
    && (!f.unknown ==> AllWithin(rows, name, f.low, f.high))
  }

  lemma FoldedTrue(f: Fold, rows: seq<Row>, part: Summary, more: seq<Row>, name: string)
    requires FoldTrue(f, rows, name) && TrueOf(part, more)
    ensures FoldTrue(Folded(f, part, name), rows + more, name)
  {
    hide Nulls, NaNs, AllWithin, Lower, Higher;
    NullsJoin(rows, more, name);
    if part.count == Some(0) {
      assert rows + more == rows;
    } else if name in part.columns {
      var c := part.columns[name];
      assert ColumnTrue(c, more, name);
      if c.min.Some? {
        Wider(rows, more, name, f.low, f.high, c.min, c.max);
      } else if c.nulls.Some? && c.nulls == part.count {
        AllNull(rows, more, name, f.low, f.high);
      }
    }
  }

  lemma AllNull(rows: seq<Row>, more: seq<Row>, name: string, low: Option<real>, high: Option<real>)
    requires Nulls(more, name) == |more|
    ensures AllWithin(rows, name, low, high) ==> AllWithin(rows + more, name, low, high)
  {
  }

  lemma Wider(rows: seq<Row>, more: seq<Row>, name: string, low: Option<real>, high: Option<real>, min: Option<real>,
              max: Option<real>)
    requires min.Some? && max.Some? && (low.Some? <==> high.Some?) && AllWithin(more, name, min, max)
    ensures Lower(low, min).Some? && Higher(high, max).Some?
    ensures AllWithin(rows, name, low, high) ==> AllWithin(rows + more, name, Lower(low, min), Higher(high, max))
  {
  }

  function Concat(lists: seq<seq<Row>>): seq<Row> {
    if lists == [] then [] else Concat(lists[..|lists| - 1]) + lists[|lists| - 1]
  }

  ghost predicate EachTrue(parts: seq<Summary>, lists: seq<seq<Row>>) {
    |parts| == |lists| && forall i :: 0 <= i < |parts| ==> TrueOf(parts[i], lists[i])
  }

  lemma {:induction false} FoldOfTrue(parts: seq<Summary>, lists: seq<seq<Row>>, name: string)
    requires EachTrue(parts, lists)
    ensures FoldTrue(FoldOf(parts, name), Concat(lists), name)
    decreases |parts|
  {
    hide FoldTrue, TrueOf, Folded;
    if parts == [] {
      StartTrue(name);
    } else {
      var last := |parts| - 1;
      FoldOfTrue(parts[..last], lists[..last], name);
      FoldedTrue(FoldOf(parts[..last], name), Concat(lists[..last]), parts[last], lists[last], name);
    }
  }

  lemma StartTrue(name: string)
    ensures FoldTrue(START, [], name)
  {
  }

  lemma {:induction false} TotalTrue(parts: seq<Summary>, lists: seq<seq<Row>>)
    requires EachTrue(parts, lists)
    ensures Total(parts).Some? ==> Total(parts).value == |Concat(lists)|
    decreases |parts|
  {
    if parts != [] {
      var last := |parts| - 1;
      TotalTrue(parts[..last], lists[..last]);
      assert TrueOf(parts[last], lists[last]);
    }
  }

  /** What is folded from parts each true of its rows is true of all of them. */
  lemma MergeTrue(parts: seq<Summary>, lists: seq<seq<Row>>, s: Summary)
    requires EachTrue(parts, lists) && s.count == Total(parts)
    requires forall name :: name in s.columns ==> s.columns[name] == Result(FoldOf(parts, name))
    ensures TrueOf(s, Concat(lists))
  {
    hide Nulls, NaNs, AllWithin, FoldOf, Total, Concat, TrueOf, EachTrue;
    TotalTrue(parts, lists);
    forall name | name in s.columns ensures ColumnTrue(s.columns[name], Concat(lists), name) {
      FoldOfTrue(parts, lists, name);
    }
    TrueIs(s, Concat(lists));
  }

  lemma TrueIs(s: Summary, rows: seq<Row>)
    requires s.count.Some? ==> s.count.value == |rows|
    requires forall name :: name in s.columns ==> ColumnTrue(s.columns[name], rows, name)
    ensures TrueOf(s, rows)
  {
  }

  // ----- the published tier's row -----

  /** A stored tier row: its range of offsets, `[start, end)`, and its statistics. */
  datatype Stored = Stored(start: nat, end: nat, summary: Summary)

  /** An empty range is no range. */
  function Spanning(a: Stored, b: Stored): (nat, nat) {
    if b.end <= b.start then (a.start, a.end)
    else if a.end <= a.start then (b.start, b.end)
    else (if a.start < b.start then a.start else b.start, if a.end < b.end then b.end else a.end)
  }

  ghost predicate Sits(row: Row, start: nat, end: nat, o: nat) {
    start <= o < end && row(OFFSET) == Num(o as real)
  }

  ghost predicate Placed(row: Row, start: nat, end: nat) {
    exists o: nat :: Sits(row, start, end, o)
  }

  ghost predicate OffsetsIn(start: nat, end: nat, rows: seq<Row>) {
    forall i :: 0 <= i < |rows| ==> Placed(rows[i], start, end)
  }

  ghost predicate StoredTrue(row: Stored, rows: seq<Row>) {
    TrueOf(row.summary, rows) && OffsetsIn(row.start, row.end, rows)
  }

  /** Adds what eviction is about to take to the row, before it takes it. */
  method Widen(names: seq<string>, held: Stored, added: Stored) returns (row: Stored)
    ensures (row.start, row.end) == Spanning(held, added)
    // The range is the least that holds both, and an empty one adds nothing to it.
    ensures added.start >= added.end ==> (row.start, row.end) == (held.start, held.end)
    ensures added.start < added.end && held.start >= held.end ==> (row.start, row.end) == (added.start, added.end)
    ensures added.start < added.end && held.start < held.end ==>
      && row.start <= held.start && row.start <= added.start && row.start in {held.start, added.start}
      && row.end >= held.end && row.end >= added.end && row.end in {held.end, added.end}
    ensures row.summary.count == Total([held.summary, added.summary])
    ensures row.summary.count.Some? <==> held.summary.count.Some? && added.summary.count.Some?
    ensures forall name :: name in row.summary.columns ==> Tight(row.summary.columns[name], [held.summary, added.summary], name)
    ensures forall name :: name in row.summary.columns <==> name in names
    ensures forall name :: name in row.summary.columns ==>
      row.summary.columns[name] == Result(FoldOf([held.summary, added.summary], name))
  {
    hide Tight, FoldOf, Total;
    var parts := [held.summary, added.summary];
    assert held.summary in parts && added.summary in parts;
    var summary := Merge(names, parts);
    var span := Spanning(held, added);
    row := Stored(span.0, span.1, summary);
  }

  /** The row widened is true of the rows it was true of and of those added. */
  lemma WidenTrue(names: seq<string>, held: Stored, heldRows: seq<Row>, added: Stored, addedRows: seq<Row>, row: Stored)
    requires StoredTrue(held, heldRows) && StoredTrue(added, addedRows)
    requires (row.start, row.end) == Spanning(held, added)
    requires row.summary.count == Total([held.summary, added.summary])
    requires forall name :: name in row.summary.columns ==>
      row.summary.columns[name] == Result(FoldOf([held.summary, added.summary], name))
    ensures StoredTrue(row, heldRows + addedRows)
  {
    hide TrueOf, FoldOf, Total;
    var parts, lists := [held.summary, added.summary], [heldRows, addedRows];
    MergeTrue(parts, lists, row.summary);
    assert lists[..1] == [heldRows] && [heldRows][..0] == [];
    assert Concat([heldRows]) == [] + heldRows;
    assert Concat(lists) == heldRows + addedRows;
    SpanningCovers(held, heldRows, added, addedRows);
  }

  lemma SpanningCovers(held: Stored, heldRows: seq<Row>, added: Stored, addedRows: seq<Row>)
    requires OffsetsIn(held.start, held.end, heldRows) && OffsetsIn(added.start, added.end, addedRows)
    ensures var span := Spanning(held, added); OffsetsIn(span.0, span.1, heldRows + addedRows)
  {
    var span, rows := Spanning(held, added), heldRows + addedRows;
    forall i | 0 <= i < |rows| ensures Placed(rows[i], span.0, span.1) {
      var from := if i < |heldRows| then held else added;
      assert Placed(rows[i], from.start, from.end);
      var o: nat :| Sits(rows[i], from.start, from.end, o);
      assert Sits(rows[i], span.0, span.1, o);
    }
  }

  /** The row as the manifest's entry. */
  function Entry(row: Stored, floating: string -> bool): Unit {
    Unit(row.summary.count, Some(row.start), Some(row.end),
         map name | name in row.summary.columns ::
           Stats(row.summary.columns[name].min, row.summary.columns[name].max, floating(name),
                 row.summary.columns[name].nans))
  }

  /** Only a floating column holds NaN. */
  ghost predicate Typed(row: Row, floating: string -> bool) {
    forall name :: row(name).NaN? ==> floating(name)
  }

  /** A row true of some rows describes each of them to a query. */
  lemma TrueDescribes(stored: Stored, rows: seq<Row>, floating: string -> bool, i: nat)
    requires StoredTrue(stored, rows) && i < |rows| && Typed(rows[i], floating)
    ensures Describes(Entry(stored, floating), rows[i])
  {
    hide Nulls, NaNs;
    var unit, row := Entry(stored, floating), rows[i];
    assert Placed(row, stored.start, stored.end);
    var o: nat :| Sits(row, stored.start, stored.end, o);
    assert OffsetAt(unit, row, o);
    forall name ensures ValueIn(unit, name, row) {
      if name in unit.stats {
        var c := stored.summary.columns[name];
        assert ColumnTrue(c, rows, name);
        if c.min.Some? { assert Within(c.min, c.max, row(name)); }
        NaNCounted(c, rows, name, i);
      }
    }
  }

  lemma NaNCounted(c: Column, rows: seq<Row>, name: string, i: nat)
    requires ColumnTrue(c, rows, name) && i < |rows|
    ensures rows[i](name).NaN? ==> c.nans != Some(0)
  {
  }
}
