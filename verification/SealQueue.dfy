/** The seal queue: which rows each seal file will hold, decided as the rows arrive.

    `extent` keeps one entry per group, in order; the last is open. Offsets start at
    one. Opening a log, appending, reserving, cutting short, naming a sealed group and
    evicting are each one transaction. */
module SealQueue {
  import opened Options

  /** A buffered row, and the bytes it measures. */
  datatype Row = Row(offset: nat, cost: nat)

  /** An `extent` row: closed once it has an end, sealed once it has a name. */
  datatype Entry = Entry(start: Option<nat>, end: Option<nat>, bytes: nat, name: Option<nat>)

  /** When a group is cut: at so many bytes, or so many offsets, whichever is first. */
  datatype Limits = Limits(bytes: nat, span: Option<nat>)

  const NO_ROW_LIMIT: nat := 0x4000_0000_0000_0000

  /** The source takes a target of no rows for no target. */
  function Span(limits: Limits): nat {
    if limits.span.Some? && limits.span.value > 0 then limits.span.value else NO_ROW_LIMIT
  }

  function Cost(rows: seq<Row>): nat {
    if rows == [] then 0 else Cost(rows[..|rows| - 1]) + rows[|rows| - 1].cost
  }

  lemma {:induction false} CostAppend(a: seq<Row>, b: seq<Row>)
    ensures Cost(a + b) == Cost(a) + Cost(b)
  {
    if b == [] {
      assert a + b == a;
    } else {
      assert (a + b)[..|a + b| - 1] == a + b[..|b| - 1];
      CostAppend(a, b[..|b| - 1]);
    }
  }

  predicate Increasing(rows: seq<Row>) {
    forall i, j :: 0 <= i < j < |rows| ==> rows[i].offset < rows[j].offset
  }

  function Concat(parts: seq<seq<Row>>): seq<Row> {
    if parts == [] then [] else Concat(parts[..|parts| - 1]) + parts[|parts| - 1]
  }

  // ----- what the cuts are -----

  /** Whether a group of some rows has reached a limit. Offsets issued to no row of it
      count towards the span. */
  predicate Full(part: seq<Row>, limits: Limits) {
    part != [] && (Cost(part) >= limits.bytes || part[|part| - 1].offset - part[0].offset + 1 >= Span(limits))
  }

  /** The groups that rows make after `open`, cut one row at a time. The last is open. */
  function Cuts(open: seq<Row>, rows: seq<Row>, limits: Limits): (parts: seq<seq<Row>>)
    ensures parts != []
    decreases |rows|
  {
    if rows == [] then [open]
    else
      var part := open + [rows[0]];
      if Full(part, limits) then [part] + Cuts([], rows[1..], limits)
      else Cuts(part, rows[1..], limits)
  }

  /** A cut falls on the first row that reaches a limit: no row before it does, and the
      rows after it start afresh. */
  lemma {:induction false} CutsFirst(open: seq<Row>, rows: seq<Row>, limits: Limits, n: nat)
    requires n <= |rows|
    requires forall k :: 1 <= k < n ==> !Full(open + rows[..k], limits)
    ensures n >= 1 && Full(open + rows[..n], limits) ==>
      Cuts(open, rows, limits) == [open + rows[..n]] + Cuts([], rows[n..], limits)
    ensures n == |rows| && (n >= 1 ==> !Full(open + rows, limits)) ==> Cuts(open, rows, limits) == [open + rows]
    decreases n
  {
    if n == 0 {
      assert open + rows[..0] == open && (rows == [] ==> Cuts(open, rows, limits) == [open]);
    } else {
      var part, rest := open + [rows[0]], rows[1..];
      CutsStep(open, rows, limits);
      hide Full, Cuts;
      Shift(open, rows, n);
      if n > 1 {
        Shift(open, rows, 1);
        forall k | 1 <= k < n - 1 ensures !Full(part + rest[..k], limits) {
          Shift(open, rows, k + 1);
        }
        CutsFirst(part, rest, limits, n - 1);
      } else {
        assert rest[..0] == [] && rest[0..] == rest;
        if !Full(part, limits) { CutsFirst(part, rest, limits, 0); }
      }
    }
  }

  lemma Shift(open: seq<Row>, rows: seq<Row>, k: nat)
    requires 1 <= k <= |rows|
    ensures (open + [rows[0]]) + rows[1..][..k - 1] == open + rows[..k]
    ensures rows[1..][k - 1..] == rows[k..] && (open + [rows[0]]) + rows[1..] == open + rows
    ensures k == 1 ==> open + [rows[0]] == open + rows[..1]
  {
  }

  /** However the rows are split into batches, the groups are the same. */
  lemma {:induction false} CutsBatches(open: seq<Row>, a: seq<Row>, b: seq<Row>, limits: Limits)
    ensures var parts := Cuts(open, a, limits);
      Cuts(open, a + b, limits) == parts[..|parts| - 1] + Cuts(parts[|parts| - 1], b, limits)
    decreases |a|
  {
    var parts := Cuts(open, a, limits);
    if a == [] {
      assert a + b == b;
    } else {
      var part := open + [a[0]];
      assert (a + b)[0] == a[0] && (a + b)[1..] == a[1..] + b;
      if Full(part, limits) {
        CutsBatches([], a[1..], b, limits);
        var rest := Cuts([], a[1..], limits);
        assert parts[..|parts| - 1] == [part] + rest[..|rest| - 1];
      } else {
        CutsBatches(part, a[1..], b, limits);
      }
    }
  }

  /** Whether the configuration sets a row target. */
  predicate Targeted(limits: Limits) {
    limits.span.Some? && limits.span.value > 0
  }

  /** Whether the rows of a group reach the bytes, or the row target where there is one. */
  predicate AtLimit(part: seq<Row>, limits: Limits) {
    && part != []
    && (|| Cost(part) >= limits.bytes
        || (Targeted(limits) && part[|part| - 1].offset - part[0].offset + 1 >= limits.span.value))
  }

  /** Past its first `from` rows, the group reaches no limit before its last row. */
  ghost predicate Within(part: seq<Row>, from: nat, limits: Limits) {
    from <= |part| && forall k :: from < k < |part| ==> !AtLimit(part[..k], limits)
  }

  /** Whether groups are cut where a limit is reached: each on the first row to reach
      one, but the last, which has reached none. The first begins with `from` rows of
      an earlier append. */
  ghost predicate CutAtLimits(parts: seq<seq<Row>>, from: nat, limits: Limits) {
    && parts != []
    && (forall i :: 0 <= i < |parts| ==> Within(parts[i], if i == 0 then from else 0, limits))
    && (forall i :: 0 <= i < |parts| - 1 ==> AtLimit(parts[i], limits) && (i == 0 ==> from < |parts[i]|))
    && (|parts[|parts| - 1]| > (if |parts| == 1 then from else 0) ==> !AtLimit(parts[|parts| - 1], limits))
  }

  /** With a row target, or with fewer offsets than stand for none. */
  ghost predicate Countable(rows: seq<Row>, limits: Limits) {
    Targeted(limits) || forall row <- rows :: 1 <= row.offset < 0x4000_0000_0000_0000
  }

  lemma FullAtLimit(part: seq<Row>, limits: Limits)
    requires Countable(part, limits)
    ensures Full(part, limits) <==> AtLimit(part, limits)
  {
    hide Cost;
    if part != [] {
      assert part[0] in part && part[|part| - 1] in part;
    }
  }

  lemma WithinMore(open: seq<Row>, row: Row, from: nat, limits: Limits)
    requires Within(open, from, limits) && (|open| > from ==> !AtLimit(open, limits))
    ensures Within(open + [row], from, limits)
  {
    hide AtLimit;
    forall k | from < k < |open + [row]| ensures !AtLimit((open + [row])[..k], limits) {
      assert (open + [row])[..k] == open[..k];
      if k == |open| { assert open[..k] == open; }
    }
  }

  /** The cuts fall where a limit is first reached, and nowhere else. */
  lemma {:induction false} CutsAtLimits(open: seq<Row>, rows: seq<Row>, limits: Limits, from: nat)
    requires Within(open, from, limits) && (|open| > from ==> !AtLimit(open, limits))
    requires Countable(open + rows, limits)
    ensures CutAtLimits(Cuts(open, rows, limits), from, limits)
    decreases |rows|
  {
    hide AtLimit, Full;
    if rows != [] {
      var part := open + [rows[0]];
      assert part + rows[1..] == open + rows;
      FullAtLimit(part, limits) by { assert forall row <- part :: row in open + rows; }
      WithinMore(open, rows[0], from, limits);
      if Full(part, limits) {
        assert Countable([] + rows[1..], limits) by { assert forall row <- rows[1..] :: row in open + rows; }
        assert Within([], 0, limits);
        CutsAtLimits([], rows[1..], limits, 0);
      } else {
        CutsAtLimits(part, rows[1..], limits, from);
      }
    }
  }

  lemma {:induction false} ConcatFront(part: seq<Row>, parts: seq<seq<Row>>)
    ensures Concat([part] + parts) == part + Concat(parts)
  {
    if parts == [] {
      assert [part] + parts == [part];
      assert Concat([part]) == Concat([part][..0]) + part;
    } else {
      var n := |parts| - 1;
      assert ([part] + parts)[..n + 1] == [part] + parts[..n];
      ConcatFront(part, parts[..n]);
    }
  }

  lemma {:induction false} ConcatJoin(a: seq<seq<Row>>, b: seq<seq<Row>>)
    ensures Concat(a + b) == Concat(a) + Concat(b)
  {
    if b == [] {
      assert a + b == a;
    } else {
      assert (a + b)[..|a + b| - 1] == a + b[..|b| - 1];
      ConcatJoin(a, b[..|b| - 1]);
    }
  }

  /** The groups hold the rows, in order. */
  lemma {:induction false} CutsKeep(open: seq<Row>, rows: seq<Row>, limits: Limits)
    ensures Concat(Cuts(open, rows, limits)) == open + rows
    decreases |rows|
  {
    if rows == [] {
      assert Concat([open]) == Concat([open][..0]) + open;
    } else {
      var part := open + [rows[0]];
      assert part + rows[1..] == open + rows;
      if Full(part, limits) {
        CutsKeep([], rows[1..], limits);
        ConcatFront(part, Cuts([], rows[1..], limits));
      } else {
        CutsKeep(part, rows[1..], limits);
      }
    }
  }

  // ----- what an entry says of its rows -----

  ghost predicate Describes(entry: Entry, part: seq<Row>) {
    && entry.bytes == Cost(part)
    && (if part == [] then entry.start == None && entry.end == None
        else entry.start == Some(part[0].offset)
             && (entry.end.Some? ==> entry.end.value == part[|part| - 1].offset + 1))
  }

  /** One open group, the last; the groups hold the rows owed a file, in order. */
  ghost predicate Queue(entries: seq<Entry>, parts: seq<seq<Row>>, next: nat) {
    && |entries| == |parts| > 0
    && (forall i :: 0 <= i < |entries| ==> Describes(entries[i], parts[i]))
    && (forall i :: 0 <= i < |entries| ==> (entries[i].end.None? <==> i == |entries| - 1))
    && entries[|entries| - 1].name.None?
    && Increasing(Concat(parts))
    && (forall row <- Concat(parts) :: 1 <= row.offset < next)
  }

  predicate Covers(entry: Entry, offset: nat) {
    entry.start.Some? && entry.start.value <= offset && (entry.end.Some? ==> offset < entry.end.value)
  }

  lemma {:induction false} InConcat(parts: seq<seq<Row>>, row: Row)
    requires row in Concat(parts)
    ensures exists i :: 0 <= i < |parts| && row in parts[i]
  {
    var n := |parts| - 1;
    if row !in parts[n] {
      InConcat(parts[..n], row);
      var i :| 0 <= i < n && row in parts[..n][i];
      assert parts[i] == parts[..n][i];
    }
  }

  lemma {:induction false} PartIn(parts: seq<seq<Row>>, i: nat)
    requires i < |parts|
    ensures forall row <- parts[i] :: row in Concat(parts)
  {
    var n := |parts| - 1;
    if i < n { PartIn(parts[..n], i); }
  }

  /** Rows of an earlier group come before those of a later one. */
  lemma {:induction false} PartsApart(parts: seq<seq<Row>>, i: nat, j: nat)
    requires Increasing(Concat(parts)) && i < j < |parts|
    ensures forall a <- parts[i], b <- parts[j] :: a.offset < b.offset
  {
    var n := |parts| - 1;
    var before := Concat(parts[..n]);
    assert Increasing(before) by {
      assert forall k :: 0 <= k < |before| ==> before[k] == Concat(parts)[k];
    }
    if j < n {
      PartsApart(parts[..n], i, j);
    } else {
      PartIn(parts[..n], i);
      forall a <- parts[i], b <- parts[n] ensures a.offset < b.offset {
        assert a in before;
        var x :| 0 <= x < |before| && before[x] == a;
        var y :| 0 <= y < |parts[n]| && parts[n][y] == b;
        assert Concat(parts)[x] == a && Concat(parts)[|before| + y] == b;
      }
    }
  }

  lemma {:induction false} PartIncreasing(parts: seq<seq<Row>>, i: nat)
    requires Increasing(Concat(parts)) && i < |parts|
    ensures Increasing(parts[i])
  {
    var n := |parts| - 1;
    var before := Concat(parts[..n]);
    if i < n {
      assert forall k :: 0 <= k < |before| ==> before[k] == Concat(parts)[k];
      PartIncreasing(parts[..n], i);
    } else {
      assert forall k :: 0 <= k < |parts[n]| ==> parts[n][k] == Concat(parts)[|before| + k];
    }
  }

  /** Every row owed a file lies in the range of exactly one group. */
  lemma {:induction false} InOneGroup(entries: seq<Entry>, parts: seq<seq<Row>>, next: nat, row: Row)
    requires Queue(entries, parts, next) && row in Concat(parts)
    ensures exists i :: 0 <= i < |entries| && row in parts[i] && Covers(entries[i], row.offset)
    ensures forall i, j | 0 <= i < |entries| && 0 <= j < |entries| ::
      Covers(entries[i], row.offset) && Covers(entries[j], row.offset) ==> i == j
  {
    InConcat(parts, row);
    var i :| 0 <= i < |parts| && row in parts[i];
    hide Concat, Increasing, Queue, Covers;
    GroupCovers(entries, parts, next, row, i);
    forall j, k | 0 <= j < |entries| && 0 <= k < |entries| && Covers(entries[j], row.offset) && Covers(entries[k], row.offset)
      ensures j == k
    {
      OnlyCovers(entries, parts, next, row, i, j);
      OnlyCovers(entries, parts, next, row, i, k);
    }
  }

  lemma GroupCovers(entries: seq<Entry>, parts: seq<seq<Row>>, next: nat, row: Row, i: nat)
    requires Queue(entries, parts, next) && i < |parts| && row in parts[i]
    ensures Covers(entries[i], row.offset)
  {
    hide Concat;
    PartIncreasing(parts, i);
    var part := parts[i];
    var x :| 0 <= x < |part| && part[x] == row;
    assert Describes(entries[i], part);
    assert x > 0 ==> part[0].offset < part[x].offset;
    assert x < |part| - 1 ==> part[x].offset < part[|part| - 1].offset;
  }

  lemma OnlyCovers(entries: seq<Entry>, parts: seq<seq<Row>>, next: nat, row: Row, i: nat, j: nat)
    requires Queue(entries, parts, next) && i < |parts| && row in parts[i]
    requires j < |entries| && Covers(entries[j], row.offset)
    ensures i == j
  {
    hide Concat, Increasing;
    assert Describes(entries[j], parts[j]) && parts[j] != [];
    assert parts[j][0] in parts[j] && parts[j][|parts[j]| - 1] in parts[j];
    if i < j {
      PartsApart(parts, i, j);
    }
    if j < i {
      assert entries[j].end.Some?;
      PartsApart(parts, j, i);
    }
  }

  /** Closed groups are in order, and apart. */
  lemma GroupsApart(entries: seq<Entry>, parts: seq<seq<Row>>, next: nat, i: nat, j: nat)
    requires Queue(entries, parts, next) && i < j < |entries|
    requires entries[j].start.Some?
    ensures entries[i].start.Some? && entries[i].end.Some?
    ensures entries[i].start.value < entries[i].end.value <= entries[j].start.value
  {
    hide Concat;
    assert Describes(entries[i], parts[i]) && Describes(entries[j], parts[j]);
    PartIncreasing(parts, i);
    PartsApart(parts, i, j);
    var first, last := parts[i][0], parts[i][|parts[i]| - 1];
    assert first in parts[i] && last in parts[i] && parts[j][0] in parts[j];
  }

  // ----- the queue -----

  function Rows(next: nat, costs: seq<nat>): (rows: seq<Row>)
    ensures |rows| == |costs|
    ensures forall i :: 0 <= i < |rows| ==> rows[i] == Row(next + i, costs[i])
  {
    seq(|costs|, i requires 0 <= i < |costs| => Row(next + i, costs[i]))
  }

  lemma DescribesMore(entry: Entry, part: seq<Row>, row: Row)
    requires Describes(entry, part) && entry.end.None?
    ensures Describes(Entry(if entry.start.None? then Some(row.offset) else entry.start, None, entry.bytes + row.cost, None),
                      part + [row])
  {
    assert (part + [row])[..|part|] == part;
  }

  /** A group closed at its last row, and an empty one opened after it. */
  lemma DescribesClosed(entry: Entry, part: seq<Row>)
    requires Describes(entry, part) && part != []
    ensures Describes(entry.(end := Some(part[|part| - 1].offset + 1)), part)
    ensures Describes(Entry(None, None, 0, None), [])
  {
  }

  /** The whole queue but its open group. */
  ghost predicate Closed(entries: seq<Entry>, parts: seq<seq<Row>>) {
    && |entries| == |parts|
    && forall i :: 0 <= i < |entries| ==> Describes(entries[i], parts[i]) && entries[i].end.Some?
  }

  class SealQueue {
    const limits: Limits
    var entries: seq<Entry>
    var buffer: seq<Row>
    var next: nat
    ghost var parts: seq<seq<Row>>     // the rows each group will hold
    ghost var settled: seq<Row>        // rows still buffered below the open group
    ghost var gone: nat                // rows of the open group no longer buffered

    ghost predicate Valid() reads this {
      && Queue(entries, parts, next)
      && gone <= |parts[|parts| - 1]|
      && buffer == settled + parts[|parts| - 1][gone..]
      && (forall a <- settled :: a.offset < next && forall b <- parts[|parts| - 1] :: a.offset < b.offset)
      && next >= 1
    }

    /** The rows that are owed a file, or have one. */
    ghost function Owed(): seq<Row> reads this {
      Concat(parts)
    }

    /** A log just created. */
    constructor (limits: Limits)
      ensures Valid() && Owed() == [] && buffer == [] && next == 1 && this.limits == limits
    {
      this.limits := limits;
      entries, parts := [Entry(None, None, 0, None)], [[]];
      buffer, settled, gone, next := [], [], 0, 1;
    }

    /** A log opened with no open group: the buffered rows no file covers are adopted by one.

        `filed` is the end of the last extent that is no seal's, `through` the watermark. */
    constructor Open(limits: Limits, stored: seq<Entry>, buffer: seq<Row>, next: nat, filed: nat, through: Option<nat>,
                     ghost done: seq<seq<Row>>)
      requires Closed(stored, done) && Increasing(Concat(done)) && Increasing(buffer) && next >= 1
      requires forall row <- Concat(done) + buffer :: 1 <= row.offset < next
      ensures Valid() && this.limits == limits && this.buffer == buffer && this.next == next
      ensures entries[..|entries| - 1] == stored
      // The open group holds the buffered rows past every stored end, the filed end and
      // the watermark, and no others.
      ensures |parts| == |done| + 1 && parts[..|done|] == done
      ensures forall row :: row in parts[|done|] <==> row in buffer && Unfiled(stored, filed, through, row.offset)
    {
      hide Increasing, Concat, Describes, Above, Cost, Covered, Unfiled;
      var covered := Covered(stored, filed, through);
      var adopted := DropBelow(buffer, covered);
      var bytes := Measure(adopted);
      ghost var at := AboveSuffix(buffer, 0, covered);
      assert buffer[0..] == buffer;
      this.limits, this.buffer, this.next := limits, buffer, next;
      entries := stored + [Entry(if adopted == [] then None else Some(adopted[0].offset), None, bytes, None)];
      parts := done + [adopted];
      settled, gone := buffer[..at], 0;
      new;
      AdoptedAre(stored, filed, through, buffer, adopted);
      Adopts(stored, done, buffer, next, covered, at, filed, through);
    }

    /** Rows appended: each joins the open group, which is cut on the first to reach a limit. */
    method Append(costs: seq<nat>) returns (offsets: seq<nat>)
      requires Valid()
      modifies this
      ensures Valid()
      ensures |offsets| == |costs| && forall i :: 0 <= i < |costs| ==> offsets[i] == old(next) + i
      ensures var rows := Rows(old(next), costs);
        && next == old(next) + |costs| && buffer == old(buffer) + rows && Owed() == old(Owed()) + rows
        && parts == old(parts)[..|old(parts)| - 1] + Cuts(old(parts)[|old(parts)| - 1], rows, limits)
      // Each group the append closes is cut on the first of its rows to reach a limit,
      // and the open one has reached none.
      ensures var n := |old(parts)| - 1;
        Targeted(limits) || next <= 0x4000_0000_0000_0000 ==> n < |parts| && CutAtLimits(parts[n..], |old(parts)[n]|, limits)
      ensures Kept(old(entries), entries)
    {
      hide Full, Cuts, Describes, Concat, Cost, Span, Increasing, Working, Tail, Kept, Queue, CutAtLimits, Targeted;
      SomeOpen(entries, parts, next);
      var n := |entries| - 1;
      ghost var rows, first, before := Rows(next, costs), parts[n], parts[..n];
      ghost var all := before + Cuts(first, rows, limits);
      ghost var old_ := parts;
      offsets := [];
      var group, closed := entries[n], entries[..n];
      ghost var open, done := first, before;
      Enter(entries, parts, buffer, settled, gone, next, rows, limits);
      assert rows[0..] == rows;
      for i := 0 to |costs|
        invariant |offsets| == i && forall k :: 0 <= k < i ==> offsets[k] == old(next) + k
        invariant next == old(next) + i && buffer == old(buffer) + rows[..i]
        invariant parts == old(parts) && entries == old(entries)
        invariant Working(closed, done, group, open, rows[i..], all, limits)
        invariant Tail(buffer, settled, open, gone, next)
        invariant n <= |closed| && closed[..n] == old(entries)[..n]
        invariant forall k :: n <= k < |closed| ==> closed[k].name.None?
      {
        var row := Row(next, costs[i]);
        assert rows[i..][1..] == rows[i + 1..] && rows[i..][0] == row;
        assert rows[..i + 1] == rows[..i] + [row];
        WorkingMore(closed, done, group, open, rows[i..], all, limits);
        TailMore(buffer, settled, open, gone, next, row);
        offsets := offsets + [next];
        buffer, next := buffer + [row], next + 1;
        if group.start.None? { group := group.(start := Some(row.offset)); }
        group := group.(bytes := group.bytes + row.cost);
        if group.bytes >= limits.bytes || row.offset - group.start.value + 1 >= Span(limits) {
          closed := closed + [group.(end := Some(row.offset + 1))];
          done := done + [open + [row]];
          group := Entry(None, None, 0, None);
          settled, gone, open := settled + (open + [row])[gone..], 0, [];
        } else {
          open := open + [row];
        }
      }
      assert rows[|costs|..] == [] && rows[..|costs|] == rows;
      entries, parts := closed + [group], done + [open];
      Leave(closed, done, group, open, all, limits, old(entries), old_, rows, old(next));
      KeptIs(old(entries), closed, group);
      TailIs(buffer, settled, open, gone, next);
      if Targeted(limits) || next <= 0x4000_0000_0000_0000 {
        CutWhereDue(old(entries), old_, rows, limits, old(next));
      }
    }

    /** Offsets taken without a row: none of them is ever issued to one. */
    method Reserve(n: nat) returns (start: nat, end: nat)
      requires Valid() && n > 0
      modifies this`next
      ensures Valid()
      ensures start == old(next) && end == next == start + n
      ensures forall row <- Owed() :: row.offset < start
    {
      hide Describes, Concat, Increasing;
      start, end := next, next + n;
      next := end;
    }

    /** The open group cut short, if a row of it is still buffered. */
    method CloseOpenGroup() returns (closed: bool)
      requires Valid()
      modifies this
      ensures Valid()
      ensures var n := |old(entries)| - 1;
        && (closed <==> exists row <- old(buffer) :: Covers(old(entries)[n], row.offset))
        && (if closed then
              && entries == old(entries)[..n]
                 + [old(entries)[n].(end := Some(Top(old(buffer)) + 1)), Entry(None, None, 0, None)]
              && parts == old(parts) + [[]]
            else entries == old(entries) && parts == old(parts))
      ensures Owed() == old(Owed()) && buffer == old(buffer) && next == old(next)
    {
      hide Describes, Concat, Increasing, Top, Queue, Covers;
      SomeOpen(entries, parts, next);
      var n := |entries| - 1;
      var open := entries[n];
      OpenBuffered(entries, parts, settled, gone, next, buffer);
      closed := exists row <- buffer :: Covers(open, row.offset);
      if closed {
        CutShort(entries, parts, settled, gone, next, buffer);
        entries := entries[..n] + [open.(end := Some(Top(buffer) + 1)), Entry(None, None, 0, None)];
        settled, gone := buffer, 0;
        parts := parts + [[]];
      }
    }

    /** A group's file is in the table: its entry gets the file's name. */
    method FinishSeal(end: nat, path: nat)
      requires Valid()
      modifies this`entries
      ensures Valid()
      ensures |entries| == |old(entries)|
      ensures forall i :: 0 <= i < |entries| ==>
        entries[i] == if old(entries)[i].end == Some(end) && old(entries)[i].name.None?
                      then old(entries)[i].(name := Some(path)) else old(entries)[i]
    {
      hide Concat, Increasing, Cost;
      entries := seq(|entries|, i requires 0 <= i < |entries| reads this =>
        if entries[i].end == Some(end) && entries[i].name.None? then entries[i].(name := Some(path)) else entries[i]);
    }

    /** Rows below an offset dropped from the buffer, whatever group they are in. */
    method Evict(below: nat)
      requires Valid()
      modifies this`buffer, this`settled, this`gone
      ensures Valid()
      ensures buffer == Above(old(buffer), below)
      ensures forall row :: row in buffer <==> row in old(buffer) && below <= row.offset
    {
      hide Describes, Cost, Concat, Increasing, Above;
      var n := |parts| - 1;
      PartIncreasing(parts, n);
      AboveJoin(settled, parts[n][gone..], below);
      AboveIn(settled, below);
      AboveIn(buffer, below);
      ghost var at := AboveSuffix(parts[n], gone, below);
      buffer := DropBelow(buffer, below);
      settled := Above(settled, below);
      gone := at;
    }

    /** The oldest group awaiting a file. */
    method PendingGroup() returns (group: Option<(nat, nat)>)
      requires Valid()
      ensures group.None? <==> forall entry <- entries :: entry.end.None? || entry.name.Some?
      ensures group.Some? ==> exists i :: 0 <= i < |entries| && Oldest(entries, i, group.value)
    {
      hide Concat, Increasing, Cost;
      for i := 0 to |entries|
        invariant forall j :: 0 <= j < i ==> !Awaits(entries[j])
      {
        if Awaits(entries[i]) {
          assert Describes(entries[i], parts[i]);
          forall j | i < j < |entries| && entries[j].start.Some? ensures entries[i].end.value <= entries[j].start.value {
            GroupsApart(entries, parts, next, i, j);
          }
          assert Oldest(entries, i, (entries[i].start.value, entries[i].end.value));
          return Some((entries[i].start.value, entries[i].end.value));
        }
      }
      return None;
    }
  }

  function MaxEnd(entries: seq<Entry>): nat {
    if entries == [] then 0
    else
      var n := |entries| - 1;
      var rest := MaxEnd(entries[..n]);
      if entries[n].end.Some? && entries[n].end.value > rest then entries[n].end.value else rest
  }

  /** Below this, every row has a file, or a group closed for one. */
  function Covered(stored: seq<Entry>, filed: nat, through: Option<nat>): nat {
    var end := if filed > MaxEnd(stored) then filed else MaxEnd(stored);
    if through.Some? && through.value + 1 > end then through.value + 1 else end
  }

  lemma {:induction false} MaxEndIs(entries: seq<Entry>, o: nat)
    ensures MaxEnd(entries) <= o <==> forall entry <- entries :: entry.end.Some? ==> entry.end.value <= o
  {
    if entries != [] {
      var n := |entries| - 1;
      MaxEndIs(entries[..n], o);
      assert entries == entries[..n] + [entries[n]];
    }
  }

  /** Past every stored end, the filed end and the watermark. */
  ghost predicate Unfiled(stored: seq<Entry>, filed: nat, through: Option<nat>, offset: nat) {
    && filed <= offset && (through.Some? ==> through.value < offset)
    && forall entry <- stored :: entry.end.Some? ==> entry.end.value <= offset
  }

  lemma CoveredIs(stored: seq<Entry>, filed: nat, through: Option<nat>, offset: nat)
    ensures Covered(stored, filed, through) <= offset <==> Unfiled(stored, filed, through, offset)
  {
    hide MaxEnd;
    MaxEndIs(stored, offset);
  }

  lemma AdoptedAre(stored: seq<Entry>, filed: nat, through: Option<nat>, buffer: seq<Row>, adopted: seq<Row>)
    requires adopted == Above(buffer, Covered(stored, filed, through))
    ensures forall row :: row in adopted <==> row in buffer && Unfiled(stored, filed, through, row.offset)
  {
    hide Covered, Above, Unfiled;
    AboveIn(buffer, Covered(stored, filed, through));
    forall row <- buffer
      ensures row.offset >= Covered(stored, filed, through) <==> Unfiled(stored, filed, through, row.offset)
    {
      CoveredIs(stored, filed, through, row.offset);
    }
  }

  method Measure(rows: seq<Row>) returns (bytes: nat)
    ensures bytes == Cost(rows)
  {
    bytes := 0;
    assert rows[..|rows|] == rows;
    for i := 0 to |rows|
      invariant bytes == Cost(rows[..i])
    {
      assert rows[..i + 1][..i] == rows[..i];
      bytes := bytes + rows[i].cost;
    }
  }

  lemma {:induction false} ClosedBelow(stored: seq<Entry>, done: seq<seq<Row>>)
    requires Closed(stored, done) && Increasing(Concat(done))
    ensures forall row <- Concat(done) :: row.offset < MaxEnd(stored)
  {
    if done != [] {
      var n := |done| - 1;
      var before := Concat(done[..n]);
      assert forall k :: 0 <= k < |before| ==> before[k] == Concat(done)[k];
      ClosedBelow(stored[..n], done[..n]);
      PartIncreasing(done, n);
      assert Describes(stored[n], done[n]);
    }
  }

  lemma Adopts(stored: seq<Entry>, done: seq<seq<Row>>, buffer: seq<Row>, next: nat, covered: nat, at: nat,
               filed: nat, through: Option<nat>)
    requires Closed(stored, done) && Increasing(Concat(done)) && Increasing(buffer)
    requires forall row <- Concat(done) + buffer :: 1 <= row.offset < next
    requires covered == Covered(stored, filed, through)
    requires at <= |buffer| && Above(buffer, covered) == buffer[at..]
    ensures var open := buffer[at..];
      && Queue(stored + [Entry(if open == [] then None else Some(open[0].offset), None, Cost(open), None)], done + [open], next)
      && buffer == buffer[..at] + open[0..]
      && (forall a <- buffer[..at] :: a.offset < next && forall b <- open :: a.offset < b.offset)
  {
    hide Describes, Cost, Above, MaxEnd, Concat, Increasing, Queue, Closed;
    var open := buffer[at..];
    AboveIn(buffer, covered);
    ClosedBelow(stored, done);
    BufferParts(buffer, at);
    RowsJoin(Concat(done), open, next);
    var entry := Entry(if open == [] then None else Some(open[0].offset), None, Cost(open), None);
    OpenDescribes(entry, open);
    QueueWith(stored, done, entry, open, next);
  }

  /** A buffer in order, cut in two. */
  lemma BufferParts(buffer: seq<Row>, at: nat)
    requires Increasing(buffer) && at <= |buffer|
    ensures Increasing(buffer[at..]) && buffer == buffer[..at] + buffer[at..][0..]
    ensures forall row <- buffer[at..] :: row in buffer
    ensures forall a <- buffer[..at] :: a in buffer && forall b <- buffer[at..] :: a.offset < b.offset
  {
    forall a <- buffer[..at], b <- buffer[at..] ensures a.offset < b.offset {
      var i :| 0 <= i < at && buffer[i] == a;
      var j :| 0 <= j < |buffer| - at && buffer[at..][j] == b;
      assert buffer[at + j] == b;
    }
  }

  /** Rows above all those before them keep the order. */
  lemma RowsJoin(before: seq<Row>, open: seq<Row>, next: nat)
    requires Increasing(before) && Increasing(open)
    requires forall a <- before, b <- open :: a.offset < b.offset
    requires (forall a <- before :: 1 <= a.offset < next) && forall b <- open :: 1 <= b.offset < next
    ensures Increasing(before + open) && forall row <- before + open :: 1 <= row.offset < next
  {
    forall i, j | 0 <= i < j < |before + open| ensures (before + open)[i].offset < (before + open)[j].offset {
      if i < |before| <= j {
        assert before[i] in before && open[j - |before|] in open;
      }
    }
  }

  lemma QueueWith(stored: seq<Entry>, done: seq<seq<Row>>, entry: Entry, open: seq<Row>, next: nat)
    requires Closed(stored, done) && Describes(entry, open) && entry.end.None? && entry.name.None?
    requires Increasing(Concat(done) + open) && forall row <- Concat(done) + open :: 1 <= row.offset < next
    ensures Queue(stored + [entry], done + [open], next)
  {
    hide Describes, Increasing;
    assert (done + [open])[..|done|] == done;
    assert Concat(done + [open]) == Concat(done) + open;
  }

  lemma OpenDescribes(entry: Entry, open: seq<Row>)
    requires entry == Entry(if open == [] then None else Some(open[0].offset), None, Cost(open), None)
    ensures Describes(entry, open)
  {
  }

  /** Closed, and not sealed yet. */
  predicate Awaits(entry: Entry) {
    entry.end.Some? && entry.name.None?
  }

  /** The first group awaiting a file; every later group begins at its end or after. */
  ghost predicate Oldest(entries: seq<Entry>, i: nat, range: (nat, nat)) {
    && i < |entries| && Awaits(entries[i])
    && entries[i].start == Some(range.0) && entries[i].end == Some(range.1)
    && (forall j :: 0 <= j < i ==> !Awaits(entries[j]))
    && (forall j :: i < j < |entries| && entries[j].start.Some? ==> range.1 <= entries[j].start.value)
  }

  function Top(rows: seq<Row>): nat {
    if rows == [] then 0
    else
      var rest := Top(rows[..|rows| - 1]);
      if rows[|rows| - 1].offset > rest then rows[|rows| - 1].offset else rest
  }

  function Above(rows: seq<Row>, below: nat): seq<Row> {
    if rows == [] then []
    else Above(rows[..|rows| - 1], below)
         + if rows[|rows| - 1].offset >= below then [rows[|rows| - 1]] else []
  }

  method DropBelow(rows: seq<Row>, below: nat) returns (kept: seq<Row>)
    ensures kept == Above(rows, below)
  {
    kept := [];
    assert rows[..|rows|] == rows;
    for i := 0 to |rows|
      invariant kept == Above(rows[..i], below)
    {
      assert rows[..i + 1][..i] == rows[..i];
      if rows[i].offset >= below { kept := kept + [rows[i]]; }
    }
  }

  lemma {:induction false} AboveJoin(a: seq<Row>, b: seq<Row>, below: nat)
    ensures Above(a + b, below) == Above(a, below) + Above(b, below)
  {
    if b == [] {
      assert a + b == a;
    } else {
      assert (a + b)[..|a + b| - 1] == a + b[..|b| - 1];
      AboveJoin(a, b[..|b| - 1], below);
    }
  }

  lemma {:induction false} AboveIn(rows: seq<Row>, below: nat)
    ensures forall row :: row in Above(rows, below) <==> row in rows && row.offset >= below
  {
    if rows != [] {
      AboveIn(rows[..|rows| - 1], below);
      assert rows == rows[..|rows| - 1] + [rows[|rows| - 1]];
    }
  }

  /** Of rows in order, those kept are the last. */
  lemma {:induction false} AboveSuffix(part: seq<Row>, gone: nat, below: nat) returns (at: nat)
    requires Increasing(part) && gone <= |part|
    ensures gone <= at <= |part| && Above(part[gone..], below) == part[at..]
    decreases |part| - gone
  {
    if gone == |part| {
      at := gone;
    } else if part[gone].offset >= below {
      at := gone;
      KeepsAll(part[gone..], below);
    } else {
      at := AboveSuffix(part, gone + 1, below);
      assert part[gone..] == [part[gone]] + part[gone + 1..];
      AboveJoin([part[gone]], part[gone + 1..], below);
      assert Above([part[gone]], below) == [];
    }
  }

  lemma {:induction false} KeepsAll(rows: seq<Row>, below: nat)
    requires forall row <- rows :: row.offset >= below
    ensures Above(rows, below) == rows
  {
    if rows != [] { KeepsAll(rows[..|rows| - 1], below); }
  }

  lemma {:induction false} TopIs(rows: seq<Row>, top: nat)
    requires rows != [] && rows[|rows| - 1].offset == top && forall row <- rows :: row.offset <= top
    ensures Top(rows) == top
  {
    TopBelow(rows[..|rows| - 1], top);
  }

  lemma {:induction false} TopBelow(rows: seq<Row>, top: nat)
    requires forall row <- rows :: row.offset <= top
    ensures Top(rows) <= top
  {
    if rows != [] { TopBelow(rows[..|rows| - 1], top); }
  }

  /** What is buffered of the open group, as its entry sees it. */
  lemma OpenBuffered(entries: seq<Entry>, parts: seq<seq<Row>>, settled: seq<Row>, gone: nat, next: nat, buffer: seq<Row>)
    requires Queue(entries, parts, next)
    requires var open := parts[|parts| - 1];
      gone <= |open| && buffer == settled + open[gone..]
      && (forall a <- settled :: a.offset < next && forall b <- open :: a.offset < b.offset)
    ensures |entries| == |parts| > 0
    ensures (exists row <- buffer :: Covers(entries[|entries| - 1], row.offset)) <==> gone < |parts[|parts| - 1]|
  {
    hide Concat, Cost;
    var n := |parts| - 1;
    var open := parts[n];
    PartIncreasing(parts, n);
    assert Describes(entries[n], open);
    if open != [] {
      assert open[0] in open;
      if gone < |open| {
        assert open[gone..][0] == open[gone];
        assert open[gone] in buffer && Covers(entries[n], open[gone].offset);
      }
    }
  }

  /** The open group closed at the last row buffered. */
  lemma CutShort(entries: seq<Entry>, parts: seq<seq<Row>>, settled: seq<Row>, gone: nat, next: nat, buffer: seq<Row>)
    requires Queue(entries, parts, next)
    requires var open := parts[|parts| - 1];
      gone < |open| && buffer == settled + open[gone..]
      && (forall a <- settled :: a.offset < next && forall b <- open :: a.offset < b.offset)
    ensures var n := |entries| - 1;
      && n + 1 == |parts|
      && Queue(entries[..n] + [entries[n].(end := Some(Top(buffer) + 1)), Entry(None, None, 0, None)], parts + [[]], next)
      && Concat(parts + [[]]) == Concat(parts)
      && (forall a <- buffer :: a.offset < next)
      && buffer + [][0..] == buffer
  {
    hide Cost, Top;
    var n := |entries| - 1;
    var open := parts[n];
    PartIncreasing(parts, n);
    PartIn(parts, n);
    assert (parts + [[]])[..n + 1] == parts;
    assert buffer[|buffer| - 1] == open[|open| - 1];
    assert open[|open| - 1] in open;
    TopIs(buffer, open[|open| - 1].offset);
    assert Concat(parts + [[]]) == Concat(parts) + [];
    hide Concat, Increasing;
    assert Describes(entries[n], open);
    DescribesClosed(entries[n], open);
  }

  /** Part way through an append: the groups closed, the open one, and the rows to come. */
  ghost predicate Working(closed: seq<Entry>, done: seq<seq<Row>>, group: Entry, open: seq<Row>, rest: seq<Row>,
                          all: seq<seq<Row>>, limits: Limits)
  {
    && Closed(closed, done) && Describes(group, open) && group.end.None? && group.name.None?
    && done + Cuts(open, rest, limits) == all
  }

  /** One row taken. */
  lemma WorkingMore(closed: seq<Entry>, done: seq<seq<Row>>, group: Entry, open: seq<Row>, rest: seq<Row>,
                    all: seq<seq<Row>>, limits: Limits)
    requires rest != [] && Working(closed, done, group, open, rest, all, limits)
    ensures var row := rest[0];
      var start := if group.start.None? then row.offset else group.start.value;
      var entry := Entry(Some(start), None, group.bytes + row.cost, None);
      var part := open + [row];
      && group == Entry(group.start, None, group.bytes, None)
      && (group.start.Some? ==> start == part[0].offset)
      && if entry.bytes >= limits.bytes || row.offset - start + 1 >= Span(limits)
         then Working(closed + [entry.(end := Some(row.offset + 1))], done + [part], Entry(None, None, 0, None), [],
                      rest[1..], all, limits)
         else Working(closed, done, entry, part, rest[1..], all, limits)
  {
    hide Full, Cuts, Cost, Span;
    var row := rest[0];
    var part := open + [row];
    CutsStep(open, rest, limits);
    DescribesMore(group, open, row);
    FullIs(part, limits);
    var start := if group.start.None? then row.offset else group.start.value;
    var entry := Entry(Some(start), None, group.bytes + row.cost, None);
    DescribesClosed(entry, part);
    var closing := entry.(end := Some(row.offset + 1));
    assert done + ([part] + Cuts([], rest[1..], limits)) == (done + [part]) + Cuts([], rest[1..], limits);
    assert Describes(closing, part);
  }

  lemma Enter(entries: seq<Entry>, parts: seq<seq<Row>>, buffer: seq<Row>, settled: seq<Row>, gone: nat, next: nat,
              rows: seq<Row>, limits: Limits)
    requires Queue(entries, parts, next)
    requires var open := parts[|parts| - 1];
      gone <= |open| && buffer == settled + open[gone..]
      && (forall a <- settled :: a.offset < next && forall b <- open :: a.offset < b.offset)
    ensures var n := |parts| - 1;
      && |entries| == n + 1
      && Working(entries[..n], parts[..n], entries[n], parts[n], rows, parts[..n] + Cuts(parts[n], rows, limits), limits)
      && Tail(buffer, settled, parts[n], gone, next)
  {
    hide Cuts, Concat, Describes, Increasing;
    PartIn(parts, |parts| - 1);
  }

  lemma Leave(closed: seq<Entry>, done: seq<seq<Row>>, group: Entry, open: seq<Row>, all: seq<seq<Row>>, limits: Limits,
              entries: seq<Entry>, was: seq<seq<Row>>, rows: seq<Row>, next: nat)
    requires Working(closed, done, group, open, [], all, limits)
    requires was != [] && all == was[..|was| - 1] + Cuts(was[|was| - 1], rows, limits)
    requires Queue(entries, was, next) && next >= 1
    requires forall i :: 0 <= i < |rows| ==> rows[i].offset == next + i
    ensures done + [open] == all && Concat(all) == Concat(was) + rows
    ensures group.name.None? && Queue(closed + [group], done + [open], next + |rows|)
  {
    hide Cuts, Concat, Describes;
    CutsNone(open, limits);
    Grown(was, rows, limits, next);
    JoinIncreasing(Concat(was), rows, next);
    Requeued(closed + [group], done + [open], closed, done, group, open, next + |rows|);
  }

  lemma {:induction false} CutWhereDue(entries: seq<Entry>, was: seq<seq<Row>>, rows: seq<Row>, limits: Limits, next: nat)
    requires Queue(entries, was, next) && next >= 1
    requires forall i :: 0 <= i < |rows| ==> rows[i].offset == next + i
    requires Targeted(limits) || next + |rows| <= 0x4000_0000_0000_0000
    ensures var n := |was| - 1;
      CutAtLimits((was[..n] + Cuts(was[n], rows, limits))[n..], |was[n]|, limits)
  {
    hide Cuts, Concat, Describes, CutAtLimits, AtLimit;
    var n := |was| - 1;
    assert (was[..n] + Cuts(was[n], rows, limits))[n..] == Cuts(was[n], rows, limits);
    PartIn(was, n);
    CutsAtLimits(was[n], rows, limits, |was[n]|);
  }

  lemma JoinIncreasing(a: seq<Row>, b: seq<Row>, next: nat)
    requires Increasing(a) && (forall row <- a :: 1 <= row.offset < next) && next >= 1
    requires forall i :: 0 <= i < |b| ==> b[i].offset == next + i
    ensures Increasing(a + b) && forall row <- a + b :: 1 <= row.offset < next + |b|
  {
    forall i, j | 0 <= i < j < |a + b| ensures (a + b)[i].offset < (a + b)[j].offset {
      if i < |a| <= j { assert a[i] in a; }
    }
  }

  lemma KeptIs(was: seq<Entry>, closed: seq<Entry>, group: Entry)
    requires 0 < |was| <= |closed| + 1 && closed[..|was| - 1] == was[..|was| - 1] && group.name.None?
    requires forall k :: |was| - 1 <= k < |closed| ==> closed[k].name.None?
    ensures Kept(was, closed + [group])
  {
    assert (closed + [group])[..|was| - 1] == closed[..|was| - 1];
  }

  /** An append only adds entries: those closed before are as they were, and none it
      adds has a name. */
  ghost predicate Kept(was: seq<Entry>, now: seq<Entry>) {
    && 0 < |was| <= |now| && now[..|was| - 1] == was[..|was| - 1]
    && forall i :: |was| - 1 <= i < |now| ==> now[i].name.None?
  }

  /** How the buffer ends: with what is left of the open group. */
  ghost predicate Tail(buffer: seq<Row>, settled: seq<Row>, open: seq<Row>, gone: nat, next: nat) {
    && gone <= |open| && buffer == settled + open[gone..]
    && (forall a <- settled :: a.offset < next && forall b <- open :: a.offset < b.offset)
    && (forall b <- open :: b.offset < next)
  }

  lemma SomeOpen(entries: seq<Entry>, parts: seq<seq<Row>>, next: nat)
    requires Queue(entries, parts, next)
    ensures |entries| == |parts| > 0
  {
  }

  lemma TailIs(buffer: seq<Row>, settled: seq<Row>, open: seq<Row>, gone: nat, next: nat)
    requires Tail(buffer, settled, open, gone, next)
    ensures gone <= |open| && buffer == settled + open[gone..]
    ensures forall a <- settled :: a.offset < next && forall b <- open :: a.offset < b.offset
  {
  }

  lemma TailMore(buffer: seq<Row>, settled: seq<Row>, open: seq<Row>, gone: nat, next: nat, row: Row)
    requires Tail(buffer, settled, open, gone, next) && row.offset == next
    ensures Tail(buffer + [row], settled, open + [row], gone, next + 1)
    ensures Tail(buffer + [row], settled + (open + [row])[gone..], [], 0, next + 1)
  {
    assert (open + [row])[gone..] == open[gone..] + [row];
  }

  lemma CutsStep(open: seq<Row>, rows: seq<Row>, limits: Limits)
    requires rows != []
    ensures Cuts(open, rows, limits)
      == if Full(open + [rows[0]], limits) then [open + [rows[0]]] + Cuts([], rows[1..], limits)
         else Cuts(open + [rows[0]], rows[1..], limits)
  {
  }

  lemma CutsNone(open: seq<Row>, limits: Limits)
    ensures Cuts(open, [], limits) == [open]
  {
  }

  lemma FullIs(part: seq<Row>, limits: Limits)
    requires part != []
    ensures Full(part, limits)
       <==> (Cost(part) >= limits.bytes || part[|part| - 1].offset - part[0].offset + 1 >= Span(limits))
  {
  }

  /** The groups' rows, once more are appended. */
  lemma Grown(parts: seq<seq<Row>>, rows: seq<Row>, limits: Limits, next: nat)
    requires parts != []
    ensures var n := |parts| - 1;
      Concat(parts[..n] + Cuts(parts[n], rows, limits)) == Concat(parts) + rows
  {
    var n := |parts| - 1;
    ConcatJoin(parts[..n], Cuts(parts[n], rows, limits));
    CutsKeep(parts[n], rows, limits);
    assert Concat(parts[..n]) + (parts[n] + rows) == Concat(parts) + rows;
  }

  lemma Requeued(entries: seq<Entry>, parts: seq<seq<Row>>, closed: seq<Entry>, done: seq<seq<Row>>, group: Entry,
                 open: seq<Row>, next: nat)
    requires Closed(closed, done) && Describes(group, open) && group.end.None? && group.name.None?
    requires entries == closed + [group] && parts == done + [open]
    requires Increasing(Concat(parts)) && forall row <- Concat(parts) :: 1 <= row.offset < next
    ensures Queue(entries, parts, next)
  {
    hide Describes, Concat, Increasing;
  }
}
