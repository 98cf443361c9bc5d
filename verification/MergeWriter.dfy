/** A merge's rows written: read a slice at a time in offset order, cut into row groups,
    each sorted by the declared order, and into files where a file may end.

    `weigh` is a table's size in memory, `tell` how many bytes of a file some row groups
    make: both are Arrow's. */
module MergeWriter {
  import opened Options
  import opened RowGroups
  import Sorting

  datatype Result<+T> = Ok(value: T) | Err(error: Error)
  datatype Error = LostRows | ChangedExtent

  /** A range of offsets a merge reads in one go, and the rows a scan of it gives. */
  datatype Slice = Slice(lo: nat, hi: nat, batches: seq<seq<Row>>)

  /** A run's file, as the staging table lists it. */
  datatype DataFile = DataFile(start: nat, end: nat, rows: nat)

  datatype Plan = Plan(
    weigh: seq<Row> -> nat,
    tell: seq<seq<Row>> -> nat,
    ordered: bool,             // whether the log declares an order
    size: nat,                 // of a row group
    cap: Option<nat>,          // rows of a row group
    target: nat,               // of a file
    floor: nat)                // the published watermark and one

  datatype Output = Output(groups: seq<seq<Row>>, start: nat, end: nat, bytes: nat)

  // ----- offsets of a group -----

  function Low(rows: seq<Row>): (low: nat)
    requires rows != []
    ensures (exists row <- rows :: row.offset == low) && (forall row <- rows :: low <= row.offset)
  {
    if |rows| == 1 then rows[0].offset
    else
      var rest := Low(rows[1..]);
      assert rows == [rows[0]] + rows[1..];
      if rows[0].offset < rest then rows[0].offset else rest
  }

  function High(rows: seq<Row>): (high: nat)
    requires rows != []
    ensures (exists row <- rows :: row.offset == high) && (forall row <- rows :: row.offset <= high)
  {
    if |rows| == 1 then rows[0].offset
    else
      var rest := High(rows[1..]);
      assert rows == [rows[0]] + rows[1..];
      if rows[0].offset > rest then rows[0].offset else rest
  }

  /** The extent is that of the rows, whatever their order. */
  lemma ExtentOf(a: seq<Row>, b: seq<Row>)
    requires a != [] && multiset(a) == multiset(b)
    ensures b != [] && Low(a) == Low(b) && High(a) == High(b)
  {
    assert forall row :: row in a <==> row in multiset(a);
    assert forall row :: row in b <==> row in multiset(b);
    assert a[0] in b;
  }

  predicate Increasing(rows: seq<Row>) {
    forall i, j :: 0 <= i < j < |rows| ==> rows[i].offset < rows[j].offset
  }

  lemma {:induction false} ExtentIncreasing(rows: seq<Row>)
    requires rows != [] && Increasing(rows)
    ensures Low(rows) == rows[0].offset && High(rows) == rows[|rows| - 1].offset
  {
    if |rows| > 1 {
      ExtentIncreasing(rows[1..]);
    }
  }

  // ----- the declared order -----

  predicate InOrder(rows: seq<Row>) {
    forall i, j :: 0 <= i < j < |rows| ==> rows[i].key <= rows[j].key
  }

  predicate ByKey(a: Row, b: Row) {
    a.key <= b.key
  }

  function Sorted(rows: seq<Row>, ordered: bool): (out: seq<Row>)
    ensures |out| == |rows|
  {
    if ordered then Sorting.Sort(ByKey, rows) else rows
  }

  lemma SortedRows(rows: seq<Row>, ordered: bool)
    ensures multiset(Sorted(rows, ordered)) == multiset(rows)
    ensures ordered ==> InOrder(Sorted(rows, ordered))
  {
    if ordered {
      Sorting.SortSorts(ByKey, rows);
      var out := Sorting.Sort(ByKey, rows);
      forall i, j | 0 <= i < j < |out| ensures out[i].key <= out[j].key {
        assert ByKey(out[i], out[j]);
      }
    }
  }

  // ----- where a file may end -----

  function His(slices: seq<Slice>): (his: seq<nat>)
    ensures |his| == |slices| && forall i :: 0 <= i < |slices| ==> his[i] == slices[i].hi
  {
    seq(|slices|, i requires 0 <= i < |slices| => slices[i].hi)
  }

  function Inputs(slices: seq<Slice>): (inputs: seq<Input>)
    ensures |inputs| == |slices| && forall i :: 0 <= i < |slices| ==> inputs[i] == slices[i].batches
  {
    seq(|slices|, i requires 0 <= i < |slices| => slices[i].batches)
  }

  /** What a scan of each slice gives, in offset order; and the slices apart, in order. */
  ghost predicate Readable(slices: seq<Slice>) {
    && (forall i :: 0 <= i < |slices| ==> Increasing(Concat(slices[i].batches)))
    && (forall i :: 0 <= i < |slices| ==> forall row <- Concat(slices[i].batches) :: slices[i].lo <= row.offset < slices[i].hi)
    && (forall i, j :: 0 <= i < j < |slices| ==> slices[i].hi <= slices[j].lo)
    && (forall i :: 0 <= i < |slices| ==> slices[i].lo <= slices[i].hi)
  }

  /** The first end past an offset: where `bisect_right` points in the ordered ends. */
  function EndAfter(ends: seq<nat>, offset: nat): Option<nat> {
    if ends == [] then None
    else if ends[0] > offset then Some(ends[0])
    else EndAfter(ends[1..], offset)
  }

  /** A file may end after a row group: at an input's end, once it is full, and below
      the watermark only where a staging file does. */
  predicate MayEnd(plan: Plan, ends: seq<nat>, fileEnds: set<nat>, groups: seq<seq<Row>>, endsInput: bool, last: nat) {
    && endsInput && plan.tell(groups) >= plan.target
    && var at := EndAfter(ends, last);
      at.Some? && (at.value >= plan.floor || at.value in fileEnds)
  }

  /** The row groups of each file. */
  function Files(plan: Plan, ends: seq<nat>, fileEnds: set<nat>, groups: seq<Group>, open: seq<seq<Row>>): seq<seq<seq<Row>>>
    requires forall group <- groups :: group.rows != []
  {
    if groups == [] then
      if open == [] then [] else [open]
    else
      var group := Sorted(groups[0].rows, plan.ordered);
      var open' := open + [group];
      if MayEnd(plan, ends, fileEnds, open', groups[0].endsInput, High(group))
      then [open'] + Files(plan, ends, fileEnds, groups[1..], [])
      else Files(plan, ends, fileEnds, groups[1..], open')
  }

  /** Rows seen so far: how many, and their extent. */
  class Tally {
    ghost var seen: seq<Row>
    var rows: nat
    var low: Option<nat>
    var high: Option<nat>

    ghost predicate Valid() reads this {
      && rows == |seen|
      && low == (if seen == [] then None else Some(Low(seen)))
      && high == (if seen == [] then None else Some(High(seen)))
    }

    constructor ()
      ensures Valid() && seen == []
    {
      seen, rows, low, high := [], 0, None, None;
    }

    method Add(group: seq<Row>)
      requires Valid()
      modifies this
      ensures Valid() && seen == old(seen) + group
    {
      hide Low, High;
      if group == [] {
        assert seen + group == seen;
        return;
      }
      ExtentJoin(seen, group);
      rows := rows + |group|;
      var lo, hi := Low(group), High(group);
      low := Some(if low.None? || lo < low.value then lo else low.value);
      high := Some(if high.None? || hi > high.value then hi else high.value);
      seen := seen + group;
    }
  }

  lemma ExtentJoin(a: seq<Row>, b: seq<Row>)
    requires b != []
    ensures Low(a + b) == if a == [] || Low(b) < Low(a) then Low(b) else Low(a)
    ensures High(a + b) == if a == [] || High(b) > High(a) then High(b) else High(a)
  {
    hide Low, High;
    if a == [] {
      assert a + b == b;
    } else {
      assert forall row :: row in a + b <==> row in a || row in b;
    }
  }

  function Flat(groups: seq<seq<Row>>): seq<Row> {
    Concat(groups)
  }

  function Held(groups: seq<seq<Row>>, weigh: seq<Row> -> nat): nat {
    if groups == [] then 0 else weigh(groups[0]) + Held(groups[1..], weigh)
  }

  /** A file's extent is what was written to it. */
  function OutputOf(groups: seq<seq<Row>>, weigh: seq<Row> -> nat): Output
    requires Flat(groups) != []
  {
    Output(groups, Low(Flat(groups)), High(Flat(groups)) + 1, Held(groups, weigh))
  }

  /** The rows written keep the run's count and its extent. */
  predicate Adds(run: seq<DataFile>, rows: seq<Row>)
    requires run != []
  {
    && |rows| == Expected(run)
    && rows != [] && Low(rows) == run[0].start && High(rows) + 1 == run[|run| - 1].end
  }

  function Expected(run: seq<DataFile>): nat {
    if run == [] then 0 else run[0].rows + Expected(run[1..])
  }

  function RunEnds(run: seq<DataFile>): set<nat> {
    set f <- run :: f.end
  }

  lemma FilesStep(plan: Plan, ends: seq<nat>, fileEnds: set<nat>, groups: seq<Group>, open: seq<seq<Row>>)
    requires groups != [] && forall group <- groups :: group.rows != []
    ensures var group := Sorted(groups[0].rows, plan.ordered);
      group != [] && (forall g <- groups[1..] :: g.rows != [])
      && Files(plan, ends, fileEnds, groups, open)
         == if MayEnd(plan, ends, fileEnds, open + [group], groups[0].endsInput, High(group))
            then [open + [group]] + Files(plan, ends, fileEnds, groups[1..], [])
            else Files(plan, ends, fileEnds, groups[1..], open + [group])
  {
    hide MayEnd, Sorted, High;
    assert groups[0] in groups;
    assert forall g <- groups[1..] :: g in groups;
  }

  lemma FilesEnd(plan: Plan, ends: seq<nat>, fileEnds: set<nat>, open: seq<seq<Row>>)
    ensures Files(plan, ends, fileEnds, [], open) == if open == [] then [] else [open]
  {
  }

  /** What has been written is what has been read. */
  ghost predicate Copied(seen: seq<Row>, groups: seq<Group>, i: nat) {
    i <= |groups| && multiset(seen) == multiset(Rows(groups[..i]))
  }

  lemma CopiedMore(seen: seq<Row>, groups: seq<Group>, i: nat, ordered: bool)
    requires i < |groups| && Copied(seen, groups, i)
    ensures Copied(seen + Sorted(groups[i].rows, ordered), groups, i + 1)
  {
    SortedRows(groups[i].rows, ordered);
    assert groups[..i + 1] == groups[..i] + [groups[i]];
    RowsAppend(groups[..i], [groups[i]]);
    assert Rows([groups[i]]) == groups[i].rows + Rows([]);
  }

  /** The outputs are the files, each with its extent. */
  ghost predicate Described(outputs: seq<Output>, files: seq<seq<seq<Row>>>, weigh: seq<Row> -> nat) {
    && |outputs| == |files|
    && forall i :: 0 <= i < |files| ==> Flat(files[i]) != [] && outputs[i] == OutputOf(files[i], weigh)
  }

  lemma DescribedMore(outputs: seq<Output>, files: seq<seq<seq<Row>>>, file: seq<seq<Row>>, output: Output, weigh: seq<Row> -> nat)
    requires Described(outputs, files, weigh) && Flat(file) != [] && output == OutputOf(file, weigh)
    ensures Described(outputs + [output], files + [file], weigh)
  {
    hide OutputOf, Flat;
  }

  lemma {:induction false} OpenMore(open: seq<seq<Row>>, group: seq<Row>, weigh: seq<Row> -> nat)
    ensures Flat(open + [group]) == Flat(open) + group
    ensures Held(open + [group], weigh) == Held(open, weigh) + weigh(group)
  {
    ConcatOne(open, group);
    if open == [] {
      assert [group][1..] == [];
    } else {
      assert (open + [group])[1..] == open[1..] + [group];
      OpenMore(open[1..], group, weigh);
    }
  }

  method WriteMerge(run: seq<DataFile>, slices: seq<Slice>, plan: Plan) returns (r: Result<seq<Output>>)
    requires run != [] && (plan.cap.Some? ==> plan.cap.value >= 1)
    ensures
      var rows, groups := RowsOf(Inputs(slices)), Gathered(Inputs(slices), plan.weigh, plan.size, plan.cap, [], 0);
      && (forall group <- groups :: group.rows != [])
      && (if |rows| != Expected(run) then r == Err(LostRows)
          else if !Adds(run, rows) then r == Err(ChangedExtent)
          else r.Ok? && Described(r.value, Files(plan, His(slices), RunEnds(run), groups, []), plan.weigh))
  {
    hide Gathered, Files, MayEnd, Fits, Rows, Sorted, Low, High, Flat, Held, RowsOf, Copied, Described, OutputOf;
    hide Expected, InputEnds, Tally.Valid;
    var ends, fileEnds := His(slices), RunEnds(run);
    var groups := RowGroups.RowGroups(Inputs(slices), plan.weigh, plan.size, plan.cap);
    GroupsSound(Inputs(slices), plan.weigh, plan.size, plan.cap);
    FitsHeld(groups, 0, InputEnds(Inputs(slices), 0));
    var outputs: seq<Output> := [];
    var tally := new Tally();
    var piece := new Tally();
    var open: seq<seq<Row>>, held: nat := [], 0;
    ghost var all := Files(plan, ends, fileEnds, groups, []);
    ghost var files: seq<seq<seq<Row>>> := [];
    Starting(groups, plan.weigh);
    assert groups[0..] == groups;
    for i := 0 to |groups|
      invariant fresh(tally) && fresh(piece) && tally != piece
      invariant tally.Valid() && piece.Valid()
      invariant Copied(tally.seen, groups, i)
      invariant piece.seen == Flat(open) && held == Held(open, plan.weigh) && (open != [] ==> Flat(open) != [])
      invariant Described(outputs, files, plan.weigh)
      invariant (forall group <- groups[i..] :: group.rows != [])
      invariant all == files + Files(plan, ends, fileEnds, groups[i..], open)
    {
      var group := Sorted(groups[i].rows, plan.ordered);
      assert groups[i..][0] == groups[i] && groups[i..][1..] == groups[i + 1..];
      FilesStep(plan, ends, fileEnds, groups[i..], open);
      CopiedMore(tally.seen, groups, i, plan.ordered);
      OpenMore(open, group, plan.weigh);
      tally.Add(group);
      piece.Add(group);
      held := held + plan.weigh(group);
      open := open + [group];
      if MayEnd(plan, ends, fileEnds, open, groups[i].endsInput, High(group)) {
        var output := Close(piece, open, held, plan.weigh);
        DescribedMore(outputs, files, open, output, plan.weigh);
        outputs := outputs + [output];
        files := files + [open];
        piece := new Tally();
        open, held := [], 0;
        Starting(groups, plan.weigh);
      }
    }
    FilesEnd(plan, ends, fileEnds, open);
    assert groups[|groups|..] == [] && groups[..|groups|] == groups;
    if open != [] {
      var output := Close(piece, open, held, plan.weigh);
      DescribedMore(outputs, files, open, output, plan.weigh);
      outputs := outputs + [output];
      files := files + [open];
    }
    assert all == files;
    r := Verify(tally, run, outputs, RowsOf(Inputs(slices)), groups);
  }

  method Close(piece: Tally, open: seq<seq<Row>>, held: nat, weigh: seq<Row> -> nat) returns (output: Output)
    requires piece.Valid() && piece.seen == Flat(open) != [] && held == Held(open, weigh)
    ensures Flat(open) != [] && output == OutputOf(open, weigh)
  {
    hide Low, High, Concat;
    output := Output(open, piece.low.value, piece.high.value + 1, held);
  }

  lemma Starting(groups: seq<Group>, weigh: seq<Row> -> nat)
    ensures Flat([]) == [] && Held([], weigh) == 0 && Copied([], groups, 0) && Described([], [], weigh)
  {
    assert groups[..0] == [];
  }

  lemma {:induction false} FitsHeld(groups: seq<Group>, from: nat, ends: set<nat>)
    requires Fits(groups, from, ends)
    ensures forall group <- groups :: group.rows != []
  {
    if groups != [] {
      FitsHeld(groups[1..], from + |groups[0].rows|, ends);
      assert groups == [groups[0]] + groups[1..];
    }
  }

  method Verify(tally: Tally, run: seq<DataFile>, outputs: seq<Output>, ghost rows: seq<Row>, ghost groups: seq<Group>)
    returns (r: Result<seq<Output>>)
    requires run != [] && tally.Valid() && Copied(tally.seen, groups, |groups|) && Rows(groups) == rows
    ensures if |rows| != Expected(run) then r == Err(LostRows)
            else if !Adds(run, rows) then r == Err(ChangedExtent)
            else r == Ok(outputs)
  {
    hide Low, High, Rows;
    assert groups[..|groups|] == groups;
    assert |multiset(tally.seen)| == |tally.seen| && |multiset(rows)| == |rows|;
    if tally.seen != [] { ExtentOf(tally.seen, rows); }
    var expected := ExpectedRows(run);
    if tally.rows != expected { return Err(LostRows); }
    if tally.low != Some(run[0].start) || tally.high.None? || tally.high.value + 1 != run[|run| - 1].end {
      return Err(ChangedExtent);
    }
    r := Ok(outputs);
  }

  method ExpectedRows(run: seq<DataFile>) returns (rows: nat)
    ensures rows == Expected(run)
  {
    rows := 0;
    assert run[0..] == run;
    for i := 0 to |run|
      invariant Expected(run) == rows + Expected(run[i..])
    {
      rows := rows + run[i].rows;
    }
  }

  // ----- what the files hold -----

  ghost predicate AllInOrder(file: seq<seq<Row>>, ordered: bool) {
    ordered ==> forall group <- file :: InOrder(group)
  }

  /** One file, holding rows `from` on: a permutation of them, each row group in order;
      and, unless it is the last, ended where a file may end. */
  ghost predicate Holds(plan: Plan, slices: seq<Slice>, fileEnds: set<nat>, all: seq<Row>, file: seq<seq<Row>>,
                        from: nat, last: bool)
  {
    var to := from + |Flat(file)|;
    && from < to <= |all|
    && multiset(Flat(file)) == multiset(all[from..to])
    && AllInOrder(file, plan.ordered)
    && (last || (to in InputEnds(Inputs(slices), 0)
                 && MayEnd(plan, His(slices), fileEnds, file, true, all[to - 1].offset)))
  }

  ghost predicate Laid(plan: Plan, slices: seq<Slice>, fileEnds: set<nat>, all: seq<Row>, files: seq<seq<seq<Row>>>,
                       from: nat)
  {
    if files == [] then from == |all|
    else Holds(plan, slices, fileEnds, all, files[0], from, |files| == 1)
         && Laid(plan, slices, fileEnds, all, files[1..], from + |Flat(files[0])|)
  }

  /** The file being written holds rows `from` on, and the groups are what follows. */
  ghost predicate Writing(plan: Plan, slices: seq<Slice>, all: seq<Row>, groups: seq<Group>, open: seq<seq<Row>>, from: nat) {
    var at := from + |Flat(open)|;
    && at <= |all| && all[at..] == Rows(groups)
    && Fits(groups, at, InputEnds(Inputs(slices), 0))
    && multiset(Flat(open)) == multiset(all[from..at])
    && AllInOrder(open, plan.ordered)
    && (open != [] <==> from < at)
  }

  lemma WritingMore(plan: Plan, slices: seq<Slice>, all: seq<Row>, groups: seq<Group>, open: seq<seq<Row>>, from: nat)
    requires groups != [] && Increasing(all) && Writing(plan, slices, all, groups, open, from)
    ensures groups[0].rows != []
    ensures var group := Sorted(groups[0].rows, plan.ordered);
      var to := from + |Flat(open + [group])|;
      && Writing(plan, slices, all, groups[1..], open + [group], from)
      && 0 < to <= |all| && High(group) == all[to - 1].offset
      && (groups[0].endsInput ==> to in InputEnds(Inputs(slices), 0))
  {
    hide *;
    SortedRows(groups[0].rows, plan.ordered);
    WritingGroup(plan, slices, all, groups, open, from, Sorted(groups[0].rows, plan.ordered));
  }

  lemma WritingGroup(plan: Plan, slices: seq<Slice>, all: seq<Row>, groups: seq<Group>, open: seq<seq<Row>>, from: nat,
                     group: seq<Row>)
    requires groups != [] && Increasing(all) && Writing(plan, slices, all, groups, open, from)
    requires multiset(group) == multiset(groups[0].rows) && |group| == |groups[0].rows|
    requires plan.ordered ==> InOrder(group)
    ensures groups[0].rows != []
    ensures var to := from + |Flat(open + [group])|;
      && Writing(plan, slices, all, groups[1..], open + [group], from)
      && 0 < to <= |all| && High(group) == all[to - 1].offset
      && (groups[0].endsInput ==> to in InputEnds(Inputs(slices), 0))
  {
    hide InputEnds, Inputs, Concat, InOrder, AllInOrder, Fits, Rows, High, Increasing, Held;
    var rows, at := groups[0].rows, from + |Flat(open)|;
    var to := at + |rows|;
    OpenMore(open, group, plan.weigh);
    FitsNext(groups, at, InputEnds(Inputs(slices), 0));
    OrderMore(open, group, plan.ordered);
    SplitRows(all, at, rows, groups);
    JoinRows(all, from, at, to, Flat(open), group);
    LastHigh(all, at, to, group);
  }

  lemma FitsNext(groups: seq<Group>, at: nat, ends: set<nat>)
    requires groups != [] && Fits(groups, at, ends)
    ensures groups[0].rows != [] && (groups[0].endsInput ==> at + |groups[0].rows| in ends)
    ensures Fits(groups[1..], at + |groups[0].rows|, ends)
  {
  }

  lemma OrderMore(open: seq<seq<Row>>, group: seq<Row>, ordered: bool)
    requires AllInOrder(open, ordered) && (ordered ==> InOrder(group))
    ensures AllInOrder(open + [group], ordered)
  {
    hide InOrder;
  }

  lemma JoinRows(all: seq<Row>, from: nat, at: nat, to: nat, a: seq<Row>, b: seq<Row>)
    requires from <= at <= to <= |all|
    requires multiset(a) == multiset(all[from..at]) && multiset(b) == multiset(all[at..to])
    ensures multiset(a + b) == multiset(all[from..to])
  {
    assert all[from..to] == all[from..at] + all[at..to];
  }

  lemma SplitRows(all: seq<Row>, at: nat, rows: seq<Row>, groups: seq<Group>)
    requires groups != [] && rows == groups[0].rows && at <= |all| && all[at..] == Rows(groups)
    ensures var to := at + |rows|;
      to <= |all| && all[at..to] == rows && all[to..] == Rows(groups[1..])
  {
    assert Rows(groups) == rows + Rows(groups[1..]);
    assert |all[at..]| == |all| - at;
    assert all[at..at + |rows|] == all[at..][..|rows|];
    assert all[at + |rows|..] == all[at..][|rows|..];
  }

  lemma LastHigh(all: seq<Row>, at: nat, to: nat, group: seq<Row>)
    requires at < to <= |all| && Increasing(all) && multiset(group) == multiset(all[at..to])
    ensures group != [] && High(group) == all[to - 1].offset && Low(group) == all[at].offset
  {
    hide High, Low;
    assert |multiset(group)| == |multiset(all[at..to])| == to - at;
    ExtentOf(group, all[at..to]);
    SliceIncreasing(all, at, to);
    hide Increasing;
    ExtentIncreasing(all[at..to]);
  }

  lemma SliceIncreasing(all: seq<Row>, at: nat, to: nat)
    requires at <= to <= |all| && Increasing(all)
    ensures Increasing(all[at..to])
  {
  }

  lemma {:induction false} FilesLaid(plan: Plan, slices: seq<Slice>, fileEnds: set<nat>, all: seq<Row>, groups: seq<Group>,
                                     open: seq<seq<Row>>, from: nat)
    requires forall group <- groups :: group.rows != []
    requires Increasing(all) && Writing(plan, slices, all, groups, open, from)
    ensures Laid(plan, slices, fileEnds, all, Files(plan, His(slices), fileEnds, groups, open), from)
    decreases |groups|
  {
    hide MayEnd, Sorted, High, Fits, Rows, InputEnds, Flat, Increasing;
    if groups == [] {
      NoneLeft(plan, slices, fileEnds, all, open, from);
    } else {
      var group := Sorted(groups[0].rows, plan.ordered);
      var open' := open + [group];
      var to := from + |Flat(open')|;
      FilesStep(plan, His(slices), fileEnds, groups, open);
      WritingMore(plan, slices, all, groups, open, from);
      hide Files;
      if MayEnd(plan, His(slices), fileEnds, open', groups[0].endsInput, High(group)) {
        var rest := Files(plan, His(slices), fileEnds, groups[1..], []);
        NextFile(plan, slices, all, groups[1..], open', from);
        FilesLaid(plan, slices, fileEnds, all, groups[1..], [], to);
        WrittenHolds(plan, slices, fileEnds, all, groups[1..], open', from, groups[0].endsInput);
        LaidNext(plan, slices, fileEnds, all, open', rest, from);
      } else {
        FilesLaid(plan, slices, fileEnds, all, groups[1..], open', from);
      }
    }
  }

  lemma NoneLeft(plan: Plan, slices: seq<Slice>, fileEnds: set<nat>, all: seq<Row>, open: seq<seq<Row>>, from: nat)
    requires Writing(plan, slices, all, [], open, from)
    ensures Laid(plan, slices, fileEnds, all, Files(plan, His(slices), fileEnds, [], open), from)
  {
    hide InputEnds, MayEnd;
    var at := from + |Flat(open)|;
    assert |all[at..]| == 0;
    if open != [] {
      assert Laid(plan, slices, fileEnds, all, [], at);
    }
  }

  lemma NextFile(plan: Plan, slices: seq<Slice>, all: seq<Row>, groups: seq<Group>, open: seq<seq<Row>>, from: nat)
    requires Writing(plan, slices, all, groups, open, from)
    ensures Writing(plan, slices, all, groups, [], from + |Flat(open)|)
  {
    hide InputEnds, Fits, Rows, InOrder;
    var to := from + |Flat(open)|;
    assert all[to..to] == [];
  }

  lemma LaidNext(plan: Plan, slices: seq<Slice>, fileEnds: set<nat>, all: seq<Row>, file: seq<seq<Row>>,
                 rest: seq<seq<seq<Row>>>, from: nat)
    requires Holds(plan, slices, fileEnds, all, file, from, false)
    requires Laid(plan, slices, fileEnds, all, rest, from + |Flat(file)|)
    ensures Laid(plan, slices, fileEnds, all, [file] + rest, from)
  {
    hide InputEnds, MayEnd, AllInOrder;
    assert ([file] + rest)[1..] == rest;
  }

  lemma WrittenHolds(plan: Plan, slices: seq<Slice>, fileEnds: set<nat>, all: seq<Row>, groups: seq<Group>,
                     open: seq<seq<Row>>, from: nat, endsInput: bool)
    requires open != [] && Writing(plan, slices, all, groups, open, from)
    requires var to := from + |Flat(open)|;
      && MayEnd(plan, His(slices), fileEnds, open, endsInput, all[to - 1].offset)
      && (endsInput ==> to in InputEnds(Inputs(slices), 0))
    ensures Holds(plan, slices, fileEnds, all, open, from, false)
  {
    hide InputEnds, Fits, Rows, AllInOrder, EndAfter;
  }

  // ----- where a file does not end -----

  /** Row group `j` of a file that holds rows `from` on is some rows of its own. */
  ghost predicate Placed(all: seq<Row>, file: seq<seq<Row>>, from: nat, j: nat)
    requires j < |file|
  {
    var at, to := from + |Flat(file[..j])|, from + |Flat(file[..j + 1])|;
    at < to <= |all| && multiset(file[j]) == multiset(all[at..to])
  }

  /** Whether a file might have ended with the row groups it has so far. */
  ghost predicate Ended(plan: Plan, slices: seq<Slice>, fileEnds: set<nat>, all: seq<Row>, part: seq<seq<Row>>, from: nat) {
    var to := from + |Flat(part)|;
    && 0 < to <= |all| && to in InputEnds(Inputs(slices), 0)
    && MayEnd(plan, His(slices), fileEnds, part, true, all[to - 1].offset)
  }

  /** Past its first `n` row groups, none was a place for the file to end. */
  ghost predicate WentOn(plan: Plan, slices: seq<Slice>, fileEnds: set<nat>, all: seq<Row>, file: seq<seq<Row>>,
                         from: nat, n: nat)
  {
    && n <= |file|
    && (forall j :: 0 <= j < |file| ==> Placed(all, file, from, j))
    && (forall j :: 0 <= j < n ==> !EndedAt(plan, slices, fileEnds, all, file, from, j))
  }

  ghost predicate EndedAt(plan: Plan, slices: seq<Slice>, fileEnds: set<nat>, all: seq<Row>, file: seq<seq<Row>>,
                          from: nat, j: nat)
    requires j < |file|
  {
    Ended(plan, slices, fileEnds, all, file[..j + 1], from)
  }

  ghost predicate AllWentOn(plan: Plan, slices: seq<Slice>, fileEnds: set<nat>, all: seq<Row>, files: seq<seq<seq<Row>>>,
                            from: nat)
  {
    files != [] ==>
      && files[0] != [] && WentOn(plan, slices, fileEnds, all, files[0], from, |files[0]| - 1)
      && AllWentOn(plan, slices, fileEnds, all, files[1..], from + |Flat(files[0])|)
  }

  lemma WentOnMore(plan: Plan, slices: seq<Slice>, fileEnds: set<nat>, all: seq<Row>, open: seq<seq<Row>>,
                   group: seq<Row>, from: nat)
    requires WentOn(plan, slices, fileEnds, all, open, from, |open|)
    requires Placed(all, open + [group], from, |open|)
    ensures WentOn(plan, slices, fileEnds, all, open + [group], from, |open|)
    ensures !Ended(plan, slices, fileEnds, all, open + [group], from) ==>
      WentOn(plan, slices, fileEnds, all, open + [group], from, |open| + 1)
  {
    hide Ended, Flat;
    var more := open + [group];
    forall j | 0 <= j < |open| ensures Placed(all, more, from, j) {
      assert Placed(all, open, from, j);
      assert more[..j] == open[..j] && more[..j + 1] == open[..j + 1];
    }
    forall j | 0 <= j < |open| ensures !EndedAt(plan, slices, fileEnds, all, more, from, j) {
      assert !EndedAt(plan, slices, fileEnds, all, open, from, j);
      assert more[..j + 1] == open[..j + 1];
    }
    assert more[..|open| + 1] == more;
  }

  /** The row group just written is placed, and is where an input ends if it is flagged. */
  lemma GroupPlaced(plan: Plan, slices: seq<Slice>, all: seq<Row>, groups: seq<Group>, open: seq<seq<Row>>, from: nat)
    requires groups != [] && Writing(plan, slices, all, groups, open, from)
    ensures var more := open + [Sorted(groups[0].rows, plan.ordered)];
      && Placed(all, more, from, |open|)
      && (from + |Flat(more)| in InputEnds(Inputs(slices), 0) ==> groups[0].endsInput)
  {
    hide InputEnds, Inputs, InOrder, AllInOrder, Rows, Sorted, Concat;
    var rows, group, at := groups[0].rows, Sorted(groups[0].rows, plan.ordered), from + |Flat(open)|;
    SortedRows(rows, plan.ordered);
    OpenMore(open, group, plan.weigh);
    SplitRows(all, at, rows, groups);
    assert (open + [group])[..|open|] == open && (open + [group])[..|open| + 1] == open + [group];
  }

  lemma {:induction false} FilesWentOn(plan: Plan, slices: seq<Slice>, fileEnds: set<nat>, all: seq<Row>,
                                       groups: seq<Group>, open: seq<seq<Row>>, from: nat)
    requires forall group <- groups :: group.rows != []
    requires Increasing(all) && Writing(plan, slices, all, groups, open, from)
    requires WentOn(plan, slices, fileEnds, all, open, from, |open|)
    ensures AllWentOn(plan, slices, fileEnds, all, Files(plan, His(slices), fileEnds, groups, open), from)
    decreases |groups|
  {
    hide MayEnd, Sorted, High, Fits, Rows, InputEnds, Flat, Increasing, Writing, WentOn, Placed;
    if groups == [] {
      OnlyWentOn(plan, slices, fileEnds, all, open, from);
    } else {
      var group := Sorted(groups[0].rows, plan.ordered);
      var open' := open + [group];
      var to := from + |Flat(open')|;
      FilesStep(plan, His(slices), fileEnds, groups, open);
      WritingMore(plan, slices, all, groups, open, from);
      GroupPlaced(plan, slices, all, groups, open, from);
      WentOnMore(plan, slices, fileEnds, all, open, group, from);
      hide Files;
      if MayEnd(plan, His(slices), fileEnds, open', groups[0].endsInput, High(group)) {
        NextFile(plan, slices, all, groups[1..], open', from);
        NotYet(plan, slices, fileEnds, all, to);
        FilesWentOn(plan, slices, fileEnds, all, groups[1..], [], to);
        var rest := Files(plan, His(slices), fileEnds, groups[1..], []);
        assert ([open'] + rest)[1..] == rest;
      } else {
        FlagOnly(plan, slices, fileEnds, all, open', from, groups[0].endsInput);
        FilesWentOn(plan, slices, fileEnds, all, groups[1..], open', from);
      }
    }
  }

  lemma NotYet(plan: Plan, slices: seq<Slice>, fileEnds: set<nat>, all: seq<Row>, from: nat)
    ensures WentOn(plan, slices, fileEnds, all, [], from, 0)
  {
  }

  lemma OnlyWentOn(plan: Plan, slices: seq<Slice>, fileEnds: set<nat>, all: seq<Row>, open: seq<seq<Row>>, from: nat)
    requires WentOn(plan, slices, fileEnds, all, open, from, |open|)
    ensures AllWentOn(plan, slices, fileEnds, all, Files(plan, His(slices), fileEnds, [], open), from)
  {
    hide Ended, Placed, Flat;
    FilesEnd(plan, His(slices), fileEnds, open);
    if open != [] { assert AllWentOn(plan, slices, fileEnds, all, [], from + |Flat(open)|); }
  }

  /** A group that ends no input, or may not end the file, is no place for it to end. */
  lemma FlagOnly(plan: Plan, slices: seq<Slice>, fileEnds: set<nat>, all: seq<Row>, open: seq<seq<Row>>, from: nat,
                 endsInput: bool)
    requires var to := from + |Flat(open)|;
      && 0 < to <= |all| && (to in InputEnds(Inputs(slices), 0) ==> endsInput)
      && !MayEnd(plan, His(slices), fileEnds, open, endsInput, all[to - 1].offset)
    ensures !Ended(plan, slices, fileEnds, all, open, from)
  {
    hide InputEnds, Flat, EndAfter;
  }

  lemma {:induction false} WentOnAt(plan: Plan, slices: seq<Slice>, fileEnds: set<nat>, all: seq<Row>,
                                    files: seq<seq<seq<Row>>>, from: nat, i: nat)
    requires i < |files| && AllWentOn(plan, slices, fileEnds, all, files, from)
    ensures files[i] != []
    ensures WentOn(plan, slices, fileEnds, all, files[i], from + Before(files, i), |files[i]| - 1)
  {
    hide WentOn, Flat;
    if i > 0 {
      WentOnAt(plan, slices, fileEnds, all, files[1..], from + |Flat(files[0])|, i - 1);
    }
  }

  /** A slice that the last of a group's rows came from, and none of the next group's did. */
  ghost predicate EndsWith(slice: Slice, group: seq<Row>, next: seq<Row>) {
    && (exists row <- group :: slice.lo <= row.offset)
    && (forall row <- group :: row.offset < slice.hi)
    && (forall row <- next :: slice.hi <= row.offset)
  }

  /** A file goes on past a row group only where it may not end: before the target, or
      where the slice that ends there stops below the watermark, at no file's end. */
  ghost predicate GoesOn(plan: Plan, slices: seq<Slice>, run: seq<DataFile>, groups: seq<seq<Row>>, j: nat)
    requires j + 1 < |groups|
  {
    forall slice <- slices :: EndsWith(slice, groups[j], groups[j + 1]) && plan.tell(groups[..j + 1]) >= plan.target ==>
      slice.hi < plan.floor && forall file <- run :: file.end != slice.hi
  }

  /** No slice ends between two rows of the first. */
  lemma NotInside(slices: seq<Slice>, from: nat, to: nat, k: nat)
    requires slices != [] && Readable(slices) && k < |slices| && from < to < from + |Concat(slices[0].batches)|
    ensures var rows, n := RowsOf(Inputs(slices)), to - from;
      && n < |rows|
      && !(slices[k].lo <= rows[n - 1].offset < slices[k].hi <= rows[n].offset)
  {
    hide InputEnds, Readable, Concat, RowsOf, Inputs;
    InputsFirst(slices, 0);
    ReadableRest(slices);
    var first, n := Concat(slices[0].batches), to - from;
    assert RowsOf(Inputs(slices))[n - 1] == first[n - 1] && RowsOf(Inputs(slices))[n] == first[n];
    assert first[n - 1] in first && first[n] in first;
    if k > 0 { assert slices[k] == slices[1..][k - 1] && slices[1..][k - 1] in slices[1..]; }
  }

  /** A slice that ends between two rows in a row is the end of an input there. */
  lemma {:induction false} SplitEnds(slices: seq<Slice>, from: nat, to: nat, k: nat)
    requires Readable(slices) && k < |slices|
    requires var rows := RowsOf(Inputs(slices));
      && from < to < from + |rows|
      && slices[k].lo <= rows[to - from - 1].offset < slices[k].hi <= rows[to - from].offset
    ensures to in InputEnds(Inputs(slices), from)
  {
    hide InputEnds, Readable, Concat, RowsOf, Inputs;
    var rest := slices[1..];
    var first, rows, after := Concat(slices[0].batches), RowsOf(Inputs(slices)), RowsOf(Inputs(rest));
    InputsFirst(slices, from);
    ReadableRest(slices);
    RowsBeyond(rest, slices[0].hi);
    var at := from + |first|;
    if to < at {
      NotInside(slices, from, to, k);
    } else if to > at {
      assert rows[to - from - 1] == after[to - at - 1] && rows[to - from] == after[to - at];
      assert after[to - at - 1] in after;
      assert k > 0 && slices[k] == rest[k - 1];
      SplitEnds(rest, at, to, k - 1);
    }
  }

  /** The first end past an offset is that of the slice the offset lies in. */
  lemma {:induction false} EndHere(slices: seq<Slice>, k: nat, offset: nat)
    requires Readable(slices) && k < |slices| && slices[k].lo <= offset < slices[k].hi
    ensures EndAfter(His(slices), offset) == Some(slices[k].hi)
  {
    hide Concat;
    if k > 0 {
      assert slices[0].hi <= slices[k].lo;
      ReadableRest(slices);
      assert His(slices)[1..] == His(slices[1..]);
      EndHere(slices[1..], k - 1, offset);
    }
  }

  /** The last row of a group placed, and the first of the next. */
  lemma PlacedRows(all: seq<Row>, file: seq<seq<Row>>, from: nat, j: nat)
    requires Increasing(all) && j + 1 < |file| && Placed(all, file, from, j) && Placed(all, file, from, j + 1)
    ensures var to := from + |Flat(file[..j + 1])|;
      && 0 < to < |all| && all[to - 1] in file[j] && all[to] in file[j + 1]
      && forall row <- file[j] :: row.offset <= all[to - 1].offset
  {
    hide Flat;
    var at, to, end := from + |Flat(file[..j])|, from + |Flat(file[..j + 1])|, from + |Flat(file[..j + 2])|;
    assert all[at..to][to - 1 - at] == all[to - 1] && all[to..end][0] == all[to];
    assert all[to - 1] in multiset(file[j]) && all[to] in multiset(file[j + 1]);
    forall row <- file[j] ensures row.offset <= all[to - 1].offset {
      assert row in multiset(all[at..to]);
      var x :| 0 <= x < to - at && all[at..to][x] == row;
      assert all[at + x] == row;
    }
  }

  lemma GoesOnHere(run: seq<DataFile>, slices: seq<Slice>, plan: Plan, all: seq<Row>, file: seq<seq<Row>>, from: nat,
                   j: nat)
    requires Readable(slices) && all == RowsOf(Inputs(slices)) && Increasing(all)
    requires file != [] && WentOn(plan, slices, RunEnds(run), all, file, from, |file| - 1)
    requires j + 1 < |file|
    ensures GoesOn(plan, slices, run, file, j)
  {
    hide Increasing, Readable, InputEnds, Inputs, RowsOf, Flat, EndAfter, Placed;
    PlacedRows(all, file, from, j);
    var to := from + |Flat(file[..j + 1])|;
    forall slice <- slices
      | EndsWith(slice, file[j], file[j + 1]) && plan.tell(file[..j + 1]) >= plan.target
      ensures slice.hi < plan.floor && forall f <- run :: f.end != slice.hi
    {
      var k :| 0 <= k < |slices| && slices[k] == slice;
      SplitEnds(slices, 0, to, k);
      EndHere(slices, k, all[to - 1].offset);
      assert !EndedAt(plan, slices, RunEnds(run), all, file, from, j);
    }
  }

  // ----- the theorem -----

  /** Rows before file `i`. */
  function Before(files: seq<seq<seq<Row>>>, i: nat): nat
    requires i <= |files|
  {
    if i == 0 then 0 else |Flat(files[0])| + Before(files[1..], i - 1)
  }

  lemma {:induction false} LaidAt(plan: Plan, slices: seq<Slice>, fileEnds: set<nat>, all: seq<Row>,
                                  files: seq<seq<seq<Row>>>, from: nat, i: nat)
    requires i <= |files| && Laid(plan, slices, fileEnds, all, files, from)
    ensures Laid(plan, slices, fileEnds, all, files[i..], from + Before(files, i))
  {
    hide Holds, Flat;
    if i == 0 {
      assert files[0..] == files;
    } else {
      LaidAt(plan, slices, fileEnds, all, files[1..], from + |Flat(files[0])|, i - 1);
      assert files[1..][i - 1..] == files[i..];
    }
  }

  lemma {:induction false} BeforeNext(files: seq<seq<seq<Row>>>, i: nat)
    requires i < |files|
    ensures Before(files, i + 1) == Before(files, i) + |Flat(files[i])|
  {
    hide Flat;
    if i > 0 {
      BeforeNext(files[1..], i - 1);
    }
  }

  /** Every file but the last ends no later than a slice does, and the next file begins
      no earlier than that. */
  ghost predicate EndsBetween(his: seq<nat>, fileEnds: set<nat>, plan: Plan, output: Output, next: Output) {
    output.end > 0 &&
    var at := EndAfter(his, output.end - 1);
    && at.Some? && output.end <= at.value <= next.start
    && (at.value >= plan.floor || at.value in fileEnds)
  }

  lemma {:induction false} FirstAfter(ends: seq<nat>, offset: nat, i: nat)
    requires i < |ends| && offset < ends[i]
    requires forall a, b :: 0 <= a < b < |ends| ==> ends[a] <= ends[b]
    ensures EndAfter(ends, offset).Some? && offset < EndAfter(ends, offset).value <= ends[i]
    ensures EndAfter(ends, offset).value in ends
  {
    if ends[0] <= offset {
      FirstAfter(ends[1..], offset, i - 1);
    }
  }

  /** A slice ends between these two rows. */
  ghost predicate SplitBetween(slices: seq<Slice>, before: Row, after: Row) {
    exists i :: 0 <= i < |slices| && before.offset < slices[i].hi <= after.offset
  }

  /** The first slice's rows, then the rest's. */
  lemma InputsFirst(slices: seq<Slice>, from: nat)
    requires slices != []
    ensures var first, rest := Concat(slices[0].batches), slices[1..];
      && RowsOf(Inputs(slices)) == first + RowsOf(Inputs(rest))
      && InputEnds(Inputs(slices), from) == {from + |first|} + InputEnds(Inputs(rest), from + |first|)
  {
    hide Concat;
    assert Inputs(slices)[0] == slices[0].batches && Inputs(slices)[1..] == Inputs(slices[1..]);
  }

  lemma SplitLater(slices: seq<Slice>, before: Row, after: Row)
    requires slices != [] && SplitBetween(slices[1..], before, after)
    ensures SplitBetween(slices, before, after)
  {
    var i :| 0 <= i < |slices| - 1 && before.offset < slices[1..][i].hi <= after.offset;
    assert slices[1..][i] == slices[i + 1];
  }

  /** Where an input ends, between two rows, a slice does: no row of either side is across it. */
  lemma {:induction false} EndSplits(slices: seq<Slice>, from: nat, to: nat)
    requires Readable(slices) && to in InputEnds(Inputs(slices), from)
    requires from < to < from + |RowsOf(Inputs(slices))|
    ensures var rows := RowsOf(Inputs(slices));
      SplitBetween(slices, rows[to - from - 1], rows[to - from])
  {
    hide InputEnds, Readable, Concat, RowsOf, SplitBetween, Inputs;
    assert slices != [] by { NoEnds(slices, from); }
    var rest := slices[1..];
    var first, rows, after := Concat(slices[0].batches), RowsOf(Inputs(slices)), RowsOf(Inputs(rest));
    InputsFirst(slices, from);
    ReadableRest(slices);
    var at := from + |first|;
    if to == at {
      assert rows[to - from] == after[0] && rows[to - from - 1] == first[|first| - 1];
      FirstSplits(slices, first[|first| - 1], after[0]);
    } else {
      EndsBeyond(Inputs(rest), at);
      EndSplits(rest, at, to);
      assert rows[to - from - 1] == after[to - at - 1] && rows[to - from] == after[to - at];
      SplitLater(slices, after[to - at - 1], after[to - at]);
    }
  }

  lemma NoEnds(slices: seq<Slice>, from: nat)
    ensures slices == [] ==> InputEnds(Inputs(slices), from) == {}
  {
  }

  lemma FirstSplits(slices: seq<Slice>, before: Row, after: Row)
    requires slices != [] && Readable(slices)
    requires before in Concat(slices[0].batches) && after in RowsOf(Inputs(slices[1..]))
    ensures SplitBetween(slices, before, after)
  {
    hide Readable, Concat, RowsOf, Inputs;
    ReadableRest(slices);
    RowsBeyond(slices[1..], slices[0].hi);
    assert before.offset < slices[0].hi <= after.offset;
  }

  lemma ReadableRest(slices: seq<Slice>)
    requires slices != [] && Readable(slices)
    ensures Readable(slices[1..])
    ensures forall slice <- slices[1..] :: slices[0].hi <= slice.lo
    ensures forall row <- Concat(slices[0].batches) :: row.offset < slices[0].hi
  {
    hide Concat;
  }

  lemma {:induction false} RowsBeyond(slices: seq<Slice>, lo: nat)
    requires Readable(slices) && forall slice <- slices :: lo <= slice.lo
    ensures forall row <- RowsOf(Inputs(slices)) :: lo <= row.offset
  {
    if slices != [] {
      assert Inputs(slices)[1..] == Inputs(slices[1..]);
      ReadableRest(slices);
      RowsBeyond(slices[1..], lo);
    }
  }

  lemma {:induction false} RowsIncrease(slices: seq<Slice>)
    requires Readable(slices)
    ensures Increasing(RowsOf(Inputs(slices)))
  {
    if slices != [] {
      assert Inputs(slices)[1..] == Inputs(slices[1..]);
      ReadableRest(slices);
      RowsIncrease(slices[1..]);
      RowsBeyond(slices[1..], slices[0].hi);
      JoinIncreasing(Concat(slices[0].batches), RowsOf(Inputs(slices[1..])), slices[0].hi);
    }
  }

  lemma JoinIncreasing(a: seq<Row>, b: seq<Row>, hi: nat)
    requires Increasing(a) && Increasing(b)
    requires (forall row <- a :: row.offset < hi) && (forall row <- b :: hi <= row.offset)
    ensures Increasing(a + b)
  {
    forall i, j | 0 <= i < j < |a + b|
      ensures (a + b)[i].offset < (a + b)[j].offset
    {
      if i < |a| <= j { assert a[i] in a && b[j - |a|] in b; }
    }
  }

  function Written(outputs: seq<Output>): seq<Row> {
    if outputs == [] then [] else Flat(outputs[0].groups) + Written(outputs[1..])
  }

  /** What an output's file says of its rows. */
  ghost predicate Extends(output: Output, ordered: bool) {
    && output.start < output.end
    && (forall row <- Flat(output.groups) :: output.start <= row.offset < output.end)
    && (exists row <- Flat(output.groups) :: row.offset == output.start)
    && (exists row <- Flat(output.groups) :: row.offset == output.end - 1)
    && AllInOrder(output.groups, ordered)
  }

  lemma {:induction false} LaidRows(plan: Plan, slices: seq<Slice>, fileEnds: set<nat>, all: seq<Row>, outputs: seq<Output>,
                                    files: seq<seq<seq<Row>>>, from: nat)
    requires from <= |all| && Laid(plan, slices, fileEnds, all, files, from) && Described(outputs, files, plan.weigh)
    ensures multiset(Written(outputs)) == multiset(all[from..])
  {
    hide Flat, MayEnd, InputEnds, Low, High, AllInOrder;
    if files == [] {
    } else {
      var to := from + |Flat(files[0])|;
      assert Described(outputs[1..], files[1..], plan.weigh);
      LaidRows(plan, slices, fileEnds, all, outputs[1..], files[1..], to);
      assert all[from..] == all[from..to] + all[to..];
    }
  }

  /** A file's extent is that of the rows it holds. */
  lemma HoldsExtent(plan: Plan, slices: seq<Slice>, fileEnds: set<nat>, all: seq<Row>, file: seq<seq<Row>>, from: nat,
                    last: bool)
    requires Increasing(all) && Holds(plan, slices, fileEnds, all, file, from, last)
    ensures Flat(file) != []
    ensures var output, to := OutputOf(file, plan.weigh), from + |Flat(file)|;
      && to <= |all| && from < to
      && output.start == all[from].offset && output.end == all[to - 1].offset + 1
      && Extends(output, plan.ordered)
  {
    hide Flat, MayEnd, InputEnds, Low, High, AllInOrder, Increasing;
    var to := from + |Flat(file)|;
    LastHigh(all, from, to, Flat(file));
    var output := OutputOf(file, plan.weigh);
    LowHighIn(Flat(file));
    RangeOrdered(all, from, to);
  }

  lemma RangeOrdered(all: seq<Row>, from: nat, to: nat)
    requires Increasing(all) && from < to <= |all|
    ensures all[from].offset <= all[to - 1].offset
  {
  }

  lemma LowHighIn(rows: seq<Row>)
    requires rows != []
    ensures exists row <- rows :: row.offset == Low(rows)
    ensures exists row <- rows :: row.offset == High(rows)
    ensures forall row <- rows :: Low(rows) <= row.offset <= High(rows)
  {
    var low, high := Low(rows), High(rows);
    assert exists row <- rows :: row.offset == low;
    assert exists row <- rows :: row.offset == high;
  }

  /** Two files in a row: the first full, and ended where a slice ends, before the second begins. */
  lemma NextAfter(plan: Plan, slices: seq<Slice>, fileEnds: set<nat>, all: seq<Row>, file: seq<seq<Row>>,
                  next: seq<seq<Row>>, from: nat, last: bool)
    requires Readable(slices) && all == RowsOf(Inputs(slices)) && Increasing(all)
    requires Holds(plan, slices, fileEnds, all, file, from, false)
    requires Holds(plan, slices, fileEnds, all, next, from + |Flat(file)|, last)
    ensures Flat(file) != [] && Flat(next) != [] && plan.tell(file) >= plan.target
    ensures EndsBetween(His(slices), fileEnds, plan, OutputOf(file, plan.weigh), OutputOf(next, plan.weigh))
  {
    hide Flat, InputEnds, Low, High, AllInOrder, Increasing, Extends, EndAfter, RowsOf, OutputOf, Readable;
    HoldsExtent(plan, slices, fileEnds, all, file, from, false);
    HoldsExtent(plan, slices, fileEnds, all, next, from + |Flat(file)|, last);
    var to := from + |Flat(file)|;
    EndSplits(slices, 0, to);
    HisOrdered(slices);
    hide Inputs;
    var i :| 0 <= i < |slices| && all[to - 1].offset < slices[i].hi <= all[to].offset;
    FirstAfter(His(slices), all[to - 1].offset, i);
  }

  lemma HisOrdered(slices: seq<Slice>)
    requires Readable(slices)
    ensures forall a, b :: 0 <= a < b < |slices| ==> His(slices)[a] <= His(slices)[b]
  {
    hide Concat;
    forall a, b | 0 <= a < b < |slices|
      ensures His(slices)[a] <= His(slices)[b]
    {
      assert slices[a].hi <= slices[b].lo <= slices[b].hi;
    }
  }

  /** A merge is a permutation of its run, cut where it may be.

      Its files hold exactly the run's rows; each row group is in the declared order;
      the files' ranges are disjoint, in order, and span the run; every file but the
      last is full, and ends at or above the watermark or where a file of the run does;
      and no file goes on past a row group where it could have ended. */
  lemma {:induction false} MergeSound(run: seq<DataFile>, slices: seq<Slice>, plan: Plan, outputs: seq<Output>)
    requires run != [] && (plan.cap.Some? ==> plan.cap.value >= 1) && Readable(slices)
    requires Adds(run, RowsOf(Inputs(slices)))
    requires var groups := Gathered(Inputs(slices), plan.weigh, plan.size, plan.cap, [], 0);
      && (forall group <- groups :: group.rows != [])
      && Described(outputs, Files(plan, His(slices), RunEnds(run), groups, []), plan.weigh)
    ensures multiset(Written(outputs)) == multiset(RowsOf(Inputs(slices)))
    ensures forall output <- outputs :: Extends(output, plan.ordered)
    ensures outputs != [] && outputs[0].start == run[0].start && outputs[|outputs| - 1].end == run[|run| - 1].end
    ensures forall i :: 0 <= i < |outputs| - 1 ==>
      plan.tell(outputs[i].groups) >= plan.target
      && EndsBetween(His(slices), RunEnds(run), plan, outputs[i], outputs[i + 1])
    ensures forall output <- outputs, j | 0 <= j < |output.groups| - 1 :: GoesOn(plan, slices, run, output.groups, j)
  {
    var all, fileEnds := RowsOf(Inputs(slices)), RunEnds(run);
    var groups := Gathered(Inputs(slices), plan.weigh, plan.size, plan.cap, [], 0);
    var files := Files(plan, His(slices), fileEnds, groups, []);
    RowsIncrease(slices);
    GroupsSound(Inputs(slices), plan.weigh, plan.size, plan.cap);
    FirstWriting(plan, slices, all, groups);
    FilesLaid(plan, slices, fileEnds, all, groups, [], 0);
    NotYet(plan, slices, fileEnds, all, 0);
    FilesWentOn(plan, slices, fileEnds, all, groups, [], 0);
    hide *;
    OutputsGoOn(run, slices, plan, all, files, outputs);
    LaidRows(plan, slices, fileEnds, all, outputs, files, 0);
    assert all[0..] == all;
    LaidExtents(run, slices, plan, all, files, outputs);
  }

  lemma OutputsGoOn(run: seq<DataFile>, slices: seq<Slice>, plan: Plan, all: seq<Row>, files: seq<seq<seq<Row>>>,
                    outputs: seq<Output>)
    requires Readable(slices) && all == RowsOf(Inputs(slices)) && Increasing(all)
    requires AllWentOn(plan, slices, RunEnds(run), all, files, 0) && Described(outputs, files, plan.weigh)
    ensures forall output <- outputs, j | 0 <= j < |output.groups| - 1 :: GoesOn(plan, slices, run, output.groups, j)
  {
    hide Readable, RowsOf, Inputs, Increasing, AllWentOn, RunEnds, GoesOn, WentOn, Before, OutputOf, Flat;
    forall output <- outputs, j | 0 <= j < |output.groups| - 1
      ensures GoesOn(plan, slices, run, output.groups, j)
    {
      var i :| 0 <= i < |outputs| && outputs[i] == output;
      GroupsOf(outputs, files, plan.weigh, i);
      WentOnAt(plan, slices, RunEnds(run), all, files, 0, i);
      GoesOnHere(run, slices, plan, all, files[i], Before(files, i), j);
    }
  }

  lemma FirstWriting(plan: Plan, slices: seq<Slice>, all: seq<Row>, groups: seq<Group>)
    requires all == Rows(groups) && Fits(groups, 0, InputEnds(Inputs(slices), 0))
    ensures Writing(plan, slices, all, groups, [], 0)
  {
    hide InputEnds, Fits, Rows;
    assert all[0..] == all && all[0..0] == [];
  }

  lemma LaidExtents(run: seq<DataFile>, slices: seq<Slice>, plan: Plan, all: seq<Row>, files: seq<seq<seq<Row>>>,
                    outputs: seq<Output>)
    requires run != [] && Readable(slices) && all == RowsOf(Inputs(slices)) && Increasing(all) && Adds(run, all)
    requires Laid(plan, slices, RunEnds(run), all, files, 0) && Described(outputs, files, plan.weigh)
    ensures forall output <- outputs :: Extends(output, plan.ordered)
    ensures outputs != [] && outputs[0].start == run[0].start && outputs[|outputs| - 1].end == run[|run| - 1].end
    ensures forall i :: 0 <= i < |outputs| - 1 ==>
      plan.tell(outputs[i].groups) >= plan.target
      && EndsBetween(His(slices), RunEnds(run), plan, outputs[i], outputs[i + 1])
  {
    hide Low, High, RowsOf, Readable, Increasing, Extends, EndsBetween, Flat, Holds, RunEnds, OutputOf, MayEnd;
    hide InputEnds, Inputs;
    ExtentIncreasing(all);
    assert files != [];
    hide Laid;
    forall i | 0 <= i < |outputs|
      ensures Extends(outputs[i], plan.ordered)
    {
      OneExtent(slices, plan, RunEnds(run), all, files, outputs, i);
    }
    OneExtent(slices, plan, RunEnds(run), all, files, outputs, 0);
    OneExtent(slices, plan, RunEnds(run), all, files, outputs, |files| - 1);
    forall i | 0 <= i < |outputs| - 1
      ensures plan.tell(outputs[i].groups) >= plan.target
      ensures EndsBetween(His(slices), RunEnds(run), plan, outputs[i], outputs[i + 1])
    {
      TwoExtents(slices, plan, RunEnds(run), all, files, i);
      GroupsOf(outputs, files, plan.weigh, i);
      GroupsOf(outputs, files, plan.weigh, i + 1);
    }
  }

  lemma LaidHere(plan: Plan, slices: seq<Slice>, fileEnds: set<nat>, all: seq<Row>, files: seq<seq<seq<Row>>>,
                 i: nat)
    requires i < |files| && Laid(plan, slices, fileEnds, all, files, 0)
    ensures Holds(plan, slices, fileEnds, all, files[i], Before(files, i), i == |files| - 1)
    ensures i == |files| - 1 ==> Before(files, i) + |Flat(files[i])| == |all|
  {
    hide Holds, Before, Flat;
    LaidAt(plan, slices, fileEnds, all, files, 0, i);
    assert files[i..][0] == files[i];
    assert |files[i..]| == |files| - i;
    if i == |files| - 1 {
      assert Laid(plan, slices, fileEnds, all, files[i..][1..], Before(files, i) + |Flat(files[i])|);
    }
  }

  lemma OneExtent(slices: seq<Slice>, plan: Plan, fileEnds: set<nat>, all: seq<Row>, files: seq<seq<seq<Row>>>,
                  outputs: seq<Output>, i: nat)
    requires i < |files| && Increasing(all)
    requires Laid(plan, slices, fileEnds, all, files, 0) && Described(outputs, files, plan.weigh)
    ensures Extends(outputs[i], plan.ordered)
    ensures i == 0 ==> all != [] && outputs[i].start == all[0].offset
    ensures i == |files| - 1 ==> all != [] && outputs[i].end == all[|all| - 1].offset + 1
  {
    BeforeNone(files);
    hide Increasing, Extends, Flat, Holds, Before, Laid, OutputOf, Low, High;
    LaidHere(plan, slices, fileEnds, all, files, i);
    HoldsExtent(plan, slices, fileEnds, all, files[i], Before(files, i), i == |files| - 1);
  }

  lemma BeforeNone(files: seq<seq<seq<Row>>>)
    ensures Before(files, 0) == 0
  {
  }

  lemma TwoExtents(slices: seq<Slice>, plan: Plan, fileEnds: set<nat>, all: seq<Row>, files: seq<seq<seq<Row>>>,
                   i: nat)
    requires i + 1 < |files| && Increasing(all) && Readable(slices) && all == RowsOf(Inputs(slices))
    requires Laid(plan, slices, fileEnds, all, files, 0)
    ensures Flat(files[i]) != [] && Flat(files[i + 1]) != [] && plan.tell(files[i]) >= plan.target
    ensures EndsBetween(His(slices), fileEnds, plan, OutputOf(files[i], plan.weigh), OutputOf(files[i + 1], plan.weigh))
  {
    hide *;
    BeforeNext(files, i);
    LaidHere(plan, slices, fileEnds, all, files, i);
    LaidHere(plan, slices, fileEnds, all, files, i + 1);
    NextAfter(plan, slices, fileEnds, all, files[i], files[i + 1], Before(files, i), i + 1 == |files| - 1);
  }

  lemma GroupsOf(outputs: seq<Output>, files: seq<seq<seq<Row>>>, weigh: seq<Row> -> nat, i: nat)
    requires i < |files| && Described(outputs, files, weigh)
    ensures Flat(files[i]) != [] && i < |outputs|
    ensures outputs[i].groups == files[i] && outputs[i] == OutputOf(files[i], weigh)
  {
    hide Flat, Low, High;
  }
}
