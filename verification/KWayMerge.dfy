/** Inputs each sorted, merged into one sorted output in memory bounded by a batch of
    each, and written in row groups of a fixed size. */
module KWayMerge {
  import opened Options

  import opened RowGroups
  import M = MergeWriter

  // ----- the output -----

  /** Files of row groups of `groupRows` rows each, or of whatever is written; a file
      ends once it is `target` bytes. */
  class Rolling {
    const groupRows: Option<nat>
    const target: nat
    const tell: seq<seq<Row>> -> nat
    var files: seq<seq<seq<Row>>>
    var writing: bool                  // the last file is still open
    var pending: seq<Row>
    ghost var appended: seq<Row>

    /** Every row group is of the size asked for. */
    ghost predicate Regular() reads this {
      groupRows.Some? ==> forall group <- Concat(files) :: |group| == groupRows.value
    }

    /** Every file holds something, and was under the target until its last row group. */
    ghost predicate Prompt(files: seq<seq<seq<Row>>>) reads this {
      forall i :: 0 <= i < |files| ==> Grown(files[i], target, tell)
    }

    ghost predicate Valid() reads this {
      && Prompt(files)
      && (groupRows.Some? ==> groupRows.value >= 1 && |pending| < groupRows.value)
      && (groupRows.None? ==> pending == [])
      && Concat(Concat(files)) + pending == appended
      && (writing ==> files != [] && tell(files[|files| - 1]) < target)
      && (forall i :: 0 <= i < |files| && (writing ==> i < |files| - 1) ==> tell(files[i]) >= target)
    }

    constructor (groupRows: Option<nat>, target: nat, tell: seq<seq<Row>> -> nat)
      requires groupRows.Some? ==> groupRows.value >= 1
      ensures Valid() && Regular() && appended == [] && files == []
      ensures this.groupRows == groupRows && this.target == target && this.tell == tell
    {
      this.groupRows, this.target, this.tell := groupRows, target, tell;
      files, writing, pending, appended := [], false, [], [];
    }

    method Write(group: seq<Row>)
      requires Prompt(files)
      requires writing ==> files != [] && tell(files[|files| - 1]) < target
      requires forall i :: 0 <= i < |files| && (writing ==> i < |files| - 1) ==> tell(files[i]) >= target
      modifies this`files, this`writing
      ensures Prompt(files)
      ensures Concat(files) == Concat(old(files)) + [group]
      ensures writing ==> files != [] && tell(files[|files| - 1]) < target
      ensures forall i :: 0 <= i < |files| && (writing ==> i < |files| - 1) ==> tell(files[i]) >= target
    {
      if !writing {
        ConcatOne(files, []);
        files, writing := files + [[]], true;
      }
      var n := |files| - 1;
      var file := files[n] + [group];
      assert files == files[..n] + [files[n]];
      ConcatOne(files[..n], files[n]);
      assert Concat(files[..n]) + file == Concat(files[..n]) + files[n] + [group];
      assert files[..n] + [file] == files[n := file];
      ConcatOne(files[..n], file);
      GrownMore(files[n], group, target, tell);
      files := files[n := file];
      if tell(file) >= target { writing := false; }
    }

    method Append(table: seq<Row>)
      requires Valid() && Regular()
      modifies this
      ensures Valid() && Regular() && appended == old(appended) + table
    {
      hide Concat;
      if groupRows.None? {
        Write(table);
        ConcatOne(Concat(old(files)), table);
        appended := appended + table;
        return;
      }
      pending, appended := pending + table, appended + table;
      while |pending| >= groupRows.value
        invariant groupRows.Some? && groupRows.value >= 1 && Prompt(files)
        invariant Concat(Concat(files)) + pending == appended == old(appended) + table
        invariant writing ==> files != [] && tell(files[|files| - 1]) < target
        invariant forall i :: 0 <= i < |files| && (writing ==> i < |files| - 1) ==> tell(files[i]) >= target
        invariant Regular()
        decreases |pending|
      {
        ghost var before := Concat(files);
        var whole, group := pending, pending[..groupRows.value];
        Write(group);
        ConcatOne(before, group);
        pending := whole[groupRows.value..];
        Moved(Concat(before), group, pending, whole);
      }
    }

    /** Everything appended is written, in the order it was appended; every row group but
        the last is of the size asked for, and a file ends on the row group that brings it
        to the target. */
    method Close() returns (out: seq<seq<seq<Row>>>)
      requires Valid() && Regular()
      modifies this
      ensures Concat(Concat(out)) == old(appended)
      ensures groupRows.Some? ==> forall i :: 0 <= i < |Concat(out)| - 1 ==> |Concat(out)[i]| == groupRows.value
      ensures groupRows.Some? && Concat(out) != [] ==> 1 <= |Concat(out)[|Concat(out)| - 1]| <= groupRows.value
      ensures forall i :: 0 <= i < |out| - 1 ==> tell(out[i]) >= target
      ensures forall i :: 0 <= i < |out| ==> Grown(out[i], target, tell)
    {
      hide Concat;
      ghost var before := Concat(files);
      assert forall i :: 0 <= i < |before| ==> before[i] in before;
      if |pending| > 0 {
        Write(pending);
        ConcatOne(before, pending);
        pending := [];
      }
      writing := false;
      out := files;
    }
  }

  /** A file that holds something, and was under the target until its last row group. */
  ghost predicate Grown(file: seq<seq<Row>>, target: nat, tell: seq<seq<Row>> -> nat) {
    file != [] && forall j :: 1 <= j < |file| ==> tell(file[..j]) < target
  }

  lemma GrownMore(file: seq<seq<Row>>, group: seq<Row>, target: nat, tell: seq<seq<Row>> -> nat)
    requires file == [] || (Grown(file, target, tell) && tell(file) < target)
    ensures Grown(file + [group], target, tell)
  {
    forall j | 1 <= j < |file + [group]| ensures tell((file + [group])[..j]) < target {
      assert (file + [group])[..j] == file[..j];
      if j == |file| { assert file[..j] == file; }
    }
  }

  lemma Moved(written: seq<Row>, group: seq<Row>, rest: seq<Row>, whole: seq<Row>)
    requires whole == group + rest
    ensures (written + group) + rest == written + whole
  {
  }

  // ----- packing -----

  function Total(sizes: seq<nat>): nat {
    if sizes == [] then 0 else Total(sizes[..|sizes| - 1]) + sizes[|sizes| - 1]
  }

  lemma TotalMore(sizes: seq<nat>, n: nat)
    ensures Total(sizes + [n]) == Total(sizes) + n && Total([]) == 0
  {
    assert (sizes + [n])[..|sizes|] == sizes;
  }

  /** A bin holds no more than the target, unless it is one file. */
  ghost predicate Fits(bin: seq<nat>, target: nat) {
    |bin| == 1 || Total(bin) <= target
  }

  /** Whole, adjacent files in bins, none past the target that need not be: and a bin
      ends only where the next file would have taken it past. */
  ghost predicate Packed(bins: seq<seq<nat>>, sizes: seq<nat>, target: nat) {
    && bins != [] && Concat(bins) == sizes
    && (forall i :: 0 <= i < |bins| ==> Fits(bins[i], target))
    && (forall i :: 0 <= i < |bins| ==> bins[i] != [] || (|bins| == 1 && sizes == []))
    && (forall i, j :: 0 <= i && j == i + 1 < |bins| ==> Ended(bins[i], bins[j], target))
  }

  ghost predicate Ended(bin: seq<nat>, next: seq<nat>, target: nat) {
    next != [] && Total(bin) + next[0] > target
  }

  lemma PackJoins(bins: seq<seq<nat>>, sizes: seq<nat>, n: nat, target: nat)
    requires Packed(bins, sizes, target)
    requires var last := bins[|bins| - 1]; last == [] || Total(last) + n <= target
    ensures var k := |bins| - 1; Packed(bins[..k] + [bins[k] + [n]], sizes + [n], target)
  {
    hide Concat, Total;
    var k := |bins| - 1;
    var last, grown := bins[k], bins[..k] + [bins[k] + [n]];
    assert bins == bins[..k] + [last];
    ConcatOne(bins[..k], last);
    ConcatOne(bins[..k], last + [n]);
    TotalMore(last, n);
    forall i, j | 0 <= i && j == i + 1 < |grown| ensures Ended(grown[i], grown[j], target) {
      assert Ended(bins[i], bins[j], target);
    }
  }

  lemma PackOpens(bins: seq<seq<nat>>, sizes: seq<nat>, n: nat, target: nat)
    requires Packed(bins, sizes, target)
    requires var last := bins[|bins| - 1]; last != [] && Total(last) + n > target
    ensures Packed(bins + [[n]], sizes + [n], target)
  {
    hide Concat, Total;
    var grown := bins + [[n]];
    ConcatOne(bins, [n]);
    forall i, j | 0 <= i && j == i + 1 < |grown| ensures Ended(grown[i], grown[j], target) {
      if j < |bins| { assert Ended(bins[i], bins[j], target); }
    }
  }

  lemma PackStarts(target: nat)
    ensures Packed([[]], [], target)
  {
    ConcatOne<nat>([], []);
  }

  method Pack(sizes: seq<nat>, target: nat) returns (bins: seq<seq<nat>>)
    ensures Packed(bins, sizes, target)
  {
    bins := [[]];
    var size := 0;
    PackStarts(target);
    TotalMore([], 0);
    assert sizes[..0] == [];
    for i := 0 to |sizes|
      invariant Packed(bins, sizes[..i], target) && size == Total(bins[|bins| - 1])
    {
      hide Packed, Total;
      PackedSome(bins, sizes[..i], target);
      var n := |bins| - 1;
      assert sizes[..i + 1] == sizes[..i] + [sizes[i]];
      TotalMore(bins[n], sizes[i]);
      TotalMore([], sizes[i]);
      assert [] + [sizes[i]] == [sizes[i]];
      if bins[n] != [] && size + sizes[i] > target {
        PackOpens(bins, sizes[..i], sizes[i], target);
        bins := bins + [[sizes[i]]];
        size := sizes[i];
      } else {
        PackJoins(bins, sizes[..i], sizes[i], target);
        bins := bins[..n] + [bins[n] + [sizes[i]]];
        size := size + sizes[i];
      }
    }
    assert sizes[..|sizes|] == sizes;
  }

  lemma PackedSome(bins: seq<seq<nat>>, sizes: seq<nat>, target: nat)
    requires Packed(bins, sizes, target)
    ensures bins != []
  {
  }

  // ----- the merge -----

  /** An input part read: the batch at hand, none once it is used up, and those to come. */
  datatype Source = Source(head: seq<Row>, rest: seq<seq<Row>>)

  function Remaining(s: Source): seq<Row> {
    s.head + Concat(s.rest)
  }

  predicate NoneEmpty(batches: seq<seq<Row>>) {
    forall batch <- batches :: batch != []
  }

  ghost predicate Ready(s: Source) {
    && M.InOrder(Remaining(s))
    && NoneEmpty(s.rest)
    && (s.head == [] ==> s.rest == [])
  }

  /** The next batch, once the one at hand is used up. */
  function Refill(rest: seq<seq<Row>>): (s: Source)
    requires NoneEmpty(rest)
    ensures Remaining(s) == Concat(rest) && NoneEmpty(s.rest)
    ensures s.head == [] ==> s.rest == []
  {
    if rest == [] then Source([], [])
    else
      assert rest[0] in rest && forall batch <- rest[1..] :: batch in rest;
      Source(rest[0], rest[1..])
  }

  function LastKey(rows: seq<Row>): int
    requires rows != []
  {
    rows[|rows| - 1].key
  }

  /** How many rows are at or below a key: a bisection. */
  method CutAfter(rows: seq<Row>, bound: int) returns (cut: nat)
    requires M.InOrder(rows)
    ensures cut <= |rows|
    ensures forall i :: 0 <= i < cut ==> rows[i].key <= bound
    ensures forall i :: cut <= i < |rows| ==> bound < rows[i].key
  {
    cut := 0;
    var high := |rows|;
    while cut < high
      invariant cut <= high <= |rows|
      invariant forall i :: 0 <= i < cut ==> rows[i].key <= bound
      invariant forall i :: high <= i < |rows| ==> bound < rows[i].key
    {
      var mid := (cut + high) / 2;
      if bound < rows[mid].key { high := mid; } else { cut := mid + 1; }
    }
  }

  predicate AtMost(rows: seq<Row>, bound: int) {
    forall row <- rows :: row.key <= bound
  }

  predicate AtLeast(rows: seq<Row>, bound: int) {
    forall row <- rows :: bound <= row.key
  }

  /** What one input gives a round: its rows up to the bound, all that can come next of it. */
  method Draw(s: Source, bound: int) returns (taken: seq<Row>, left: Source)
    requires Ready(s) && s.head != [] && bound <= LastKey(s.head)
    ensures Ready(left) && Remaining(s) == taken + Remaining(left)
    ensures AtMost(taken, bound) && AtLeast(Remaining(left), bound)
    ensures bound == LastKey(s.head) ==> taken == s.head && Remaining(left) == Concat(s.rest)
  {
    hide Concat;
    HeadOrdered(s);
    var cut := CutAfter(s.head, bound);
    taken := s.head[..cut];
    assert s.head == taken + s.head[cut..];
    if cut == |s.head| {
      left := Refill(s.rest);
      assert Remaining(s) == taken + Concat(s.rest);
    } else {
      left := Source(s.head[cut..], s.rest);
      assert Remaining(s) == taken + Remaining(left);
    }
    TailOrdered(taken, Remaining(left), s, bound, cut);
  }

  lemma HeadOrdered(s: Source)
    requires Ready(s)
    ensures M.InOrder(s.head)
  {
    hide Concat;
    assert forall i :: 0 <= i < |s.head| ==> Remaining(s)[i] == s.head[i];
  }

  lemma TailOrdered(taken: seq<Row>, left: seq<Row>, s: Source, bound: int, cut: nat)
    requires Ready(s) && s.head != [] && bound <= LastKey(s.head) && Remaining(s) == taken + left
    requires cut == |taken| <= |s.head| && taken == s.head[..cut]
    requires forall i :: cut <= i < |s.head| ==> bound < s.head[i].key
    ensures M.InOrder(left) && AtLeast(left, bound)
  {
    hide Concat, NoneEmpty, M.InOrder;
    SuffixOrdered(Remaining(s), cut, left);
    hide Ready;
    forall row <- left ensures bound <= row.key {
      var k :| 0 <= k < |left| && left[k] == row;
      assert Remaining(s)[cut + k] == row;
      RowAbove(s, bound, cut, cut + k);
    }
  }

  lemma SuffixOrdered(all: seq<Row>, cut: nat, left: seq<Row>)
    requires M.InOrder(all) && cut <= |all| && left == all[cut..]
    ensures M.InOrder(left)
  {
  }

  lemma RowAbove(s: Source, bound: int, cut: nat, k: nat)
    requires Ready(s) && s.head != [] && bound <= LastKey(s.head) && cut <= k < |Remaining(s)|
    requires forall i :: cut <= i < |s.head| ==> bound < s.head[i].key
    ensures bound <= Remaining(s)[k].key
  {
    hide Concat, NoneEmpty;
    var all := Remaining(s);
    if k >= |s.head| {
      assert all[|s.head| - 1].key <= all[k].key;
    }
  }

  function Left(sources: seq<Source>): seq<Row> {
    if sources == [] then [] else Left(sources[..|sources| - 1]) + Remaining(sources[|sources| - 1])
  }

  lemma LeftMore(sources: seq<Source>, s: Source)
    ensures Left(sources + [s]) == Left(sources) + Remaining(s)
  {
    assert (sources + [s])[..|sources|] == sources;
  }

  lemma {:induction false} InLeft(sources: seq<Source>, i: nat)
    requires i < |sources|
    ensures forall row <- Remaining(sources[i]) :: row in Left(sources)
    ensures |Remaining(sources[i])| <= |Left(sources)|
  {
    hide Remaining;
    if i < |sources| - 1 { InLeft(sources[..|sources| - 1], i); }
  }

  ghost predicate AllReady(sources: seq<Source>) {
    forall s <- sources :: Ready(s)
  }

  /** The smallest of the last keys at hand, and whose it is. */
  method Bound(sources: seq<Source>) returns (bound: int, least: nat)
    requires exists i :: 0 <= i < |sources| && sources[i].head != []
    ensures least < |sources| && sources[least].head != [] && bound == LastKey(sources[least].head)
    ensures forall i :: 0 <= i < |sources| && sources[i].head != [] ==> bound <= LastKey(sources[i].head)
  {
    var found := false;
    bound, least := 0, 0;
    for i := 0 to |sources|
      invariant found ==> least < i && sources[least].head != [] && bound == LastKey(sources[least].head)
      invariant forall j :: 0 <= j < i && sources[j].head != [] ==> found && bound <= LastKey(sources[j].head)
    {
      if sources[i].head != [] && (!found || LastKey(sources[i].head) < bound) {
        found, bound, least := true, LastKey(sources[i].head), i;
      }
    }
  }

  /** A round so far: what it took, and what the inputs it has been through have left. */
  ghost predicate Drawn(sources: seq<Source>, taken: seq<Row>, done: seq<Source>, bound: int) {
    && multiset(taken) + multiset(Left(done)) == multiset(Left(sources))
    && |taken| + |Left(done)| == |Left(sources)|
    && AllReady(done) && AtMost(taken, bound) && AtLeast(Left(done), bound)
  }

  lemma DrawnMore(sources: seq<Source>, taken: seq<Row>, done: seq<Source>, bound: int, s: Source, more: seq<Row>, left: Source)
    requires Drawn(sources, taken, done, bound)
    requires Ready(left) && Remaining(s) == more + Remaining(left)
    requires AtMost(more, bound) && AtLeast(Remaining(left), bound)
    ensures Drawn(sources + [s], taken + more, done + [left], bound)
  {
    hide Left, Remaining, Ready;
    LeftMore(sources, s);
    LeftMore(done, left);
  }

  /** One round: from every input, the rows that can come next. */
  method Round(sources: seq<Source>) returns (taken: seq<Row>, after: seq<Source>, ghost bound: int)
    requires AllReady(sources) && exists i :: 0 <= i < |sources| && sources[i].head != []
    ensures Drawn(sources, taken, after, bound) && taken != []
  {
    hide Drawn, Ready, Remaining, Left;
    var least: nat;
    var key: int;
    key, least := Bound(sources);
    bound := key;
    taken, after := [], [];
    DrawnNone(bound);
    assert sources[..0] == [];
    for i := 0 to |sources|
      invariant Drawn(sources[..i], taken, after, bound)
      invariant least < i ==> taken != []
    {
      var s := sources[i];
      assert s in sources && Ready(s);
      assert sources[..i + 1] == sources[..i] + [s];
      if s.head == [] {
        UsedUp(s, bound);
        DrawnMore(sources[..i], taken, after, bound, s, [], s);
        assert taken + [] == taken;
        after := after + [s];
      } else {
        var more, left := Draw(s, key);
        DrawnMore(sources[..i], taken, after, bound, s, more, left);
        taken, after := taken + more, after + [left];
      }
    }
    assert sources[..|sources|] == sources;
  }

  lemma DrawnNone(bound: int)
    ensures Drawn([], [], [], bound)
  {
  }

  lemma UsedUp(s: Source, bound: int)
    requires Ready(s) && s.head == []
    ensures Remaining(s) == [] && Remaining(s) == [] + Remaining(s)
    ensures AtMost([], bound) && AtLeast(Remaining(s), bound)
  {
  }

  /** What has been written, and what is left: everything, the written in order and first. */
  ghost predicate Merging(total: multiset<Row>, out: seq<Row>, sources: seq<Source>) {
    && multiset(out) + multiset(Left(sources)) == total
    && M.InOrder(out) && AllReady(sources)
    && (forall a <- out, b <- Left(sources) :: a.key <= b.key)
  }

  lemma MergingMore(total: multiset<Row>, out: seq<Row>, sources: seq<Source>, taken: seq<Row>, after: seq<Source>,
                    bound: int)
    requires Merging(total, out, sources) && Drawn(sources, taken, after, bound)
    ensures Merging(total, out + M.Sorted(taken, true), after)
  {
    hide Left, Ready;
    M.SortedRows(taken, true);
    hide M.Sorted;
    var next := M.Sorted(taken, true);
    TakenFirst(out, sources, taken, after, bound, next);
    JoinOrdered(out, next);
  }

  lemma TakenFirst(out: seq<Row>, sources: seq<Source>, taken: seq<Row>, after: seq<Source>, bound: int, next: seq<Row>)
    requires Drawn(sources, taken, after, bound) && multiset(next) == multiset(taken)
    requires forall a <- out, b <- Left(sources) :: a.key <= b.key
    ensures forall a <- out, b <- next :: a.key <= b.key
    ensures forall a <- out + next, b <- Left(after) :: a.key <= b.key
  {
    hide Left, Ready;
    forall b | b in next || b in Left(after) ensures b in Left(sources) {
      assert b in multiset(taken) + multiset(Left(after)) by {
        if b in next { assert b in multiset(next); } else { assert b in multiset(Left(after)); }
      }
    }
    forall a, b | a in next && b in Left(after) ensures a.key <= b.key {
      assert a in multiset(next) && a in taken;
    }
  }

  lemma JoinOrdered(a: seq<Row>, b: seq<Row>)
    requires M.InOrder(a) && M.InOrder(b) && forall x <- a, y <- b :: x.key <= y.key
    ensures M.InOrder(a + b)
  {
    forall i, j | 0 <= i < j < |a + b| ensures (a + b)[i].key <= (a + b)[j].key {
      if i < |a| <= j { assert a[i] in a && b[j - |a|] in b; }
    }
  }

  function Opened(inputs: seq<seq<seq<Row>>>): (sources: seq<Source>)
    requires forall input <- inputs :: NoneEmpty(input)
    ensures |sources| == |inputs|
  {
    if inputs == [] then []
    else
      assert inputs[|inputs| - 1] in inputs && forall input <- inputs[..|inputs| - 1] :: input in inputs;
      Opened(inputs[..|inputs| - 1]) + [Refill(inputs[|inputs| - 1])]
  }

  lemma {:induction false} OpenedReady(inputs: seq<seq<seq<Row>>>)
    requires forall input <- inputs :: NoneEmpty(input)
    requires forall input <- inputs :: M.InOrder(Concat(input))
    ensures AllReady(Opened(inputs)) && Left(Opened(inputs)) == RowsOf(inputs)
  {
    if inputs == [] {
    } else {
      var n := |inputs| - 1;
      var before, last := Opened(inputs[..n]), Refill(inputs[n]);
      assert inputs[n] in inputs && forall input <- inputs[..n] :: input in inputs;
      assert Opened(inputs) == before + [last];
      hide *;
      OpenedReady(inputs[..n]);
      RefillReady(inputs[n]);
      LeftMore(before, last);
      ReadyMore(before, last);
      assert inputs == inputs[..n] + [inputs[n]];
      RowsOfMore(inputs[..n], inputs[n]);
    }
  }

  lemma ReadyMore(sources: seq<Source>, s: Source)
    requires AllReady(sources) && Ready(s)
    ensures AllReady(sources + [s])
  {
    hide Ready;
  }

  lemma RefillReady(rest: seq<seq<Row>>)
    requires NoneEmpty(rest) && M.InOrder(Concat(rest))
    ensures Ready(Refill(rest)) && Remaining(Refill(rest)) == Concat(rest)
  {
    hide Concat;
  }

  lemma {:induction false} RowsOfMore(inputs: seq<seq<seq<Row>>>, input: seq<seq<Row>>)
    ensures RowsOf(inputs + [input]) == RowsOf(inputs) + Concat(input)
  {
    hide Concat;
    if inputs == [] {
      assert RowsOf([input]) == Concat(input) + RowsOf([]);
    } else {
      assert (inputs + [input])[1..] == inputs[1..] + [input];
      RowsOfMore(inputs[1..], input);
    }
  }

  /** Every input row, once, in order: written in row groups of the size asked for. */
  method Merge(inputs: seq<seq<seq<Row>>>, groupRows: nat, tell: seq<seq<Row>> -> nat) returns (files: seq<seq<seq<Row>>>)
    requires groupRows >= 1
    requires forall input <- inputs :: NoneEmpty(input)
    requires forall input <- inputs :: M.InOrder(Concat(input))
    ensures M.InOrder(Concat(Concat(files)))
    ensures multiset(Concat(Concat(files))) == multiset(RowsOf(inputs))
    // Row groups of the size asked for but the last; and one file, short of a file of 2^62 bytes.
    ensures forall i :: 0 <= i < |Concat(files)| - 1 ==> |Concat(files)[i]| == groupRows
    ensures Concat(files) != [] ==> 1 <= |Concat(files)[|Concat(files)| - 1]| <= groupRows
    ensures forall i :: 0 <= i < |files| - 1 ==> tell(files[i]) >= 0x4000_0000_0000_0000
    ensures forall i :: 0 <= i < |files| ==> Grown(files[i], 0x4000_0000_0000_0000, tell)
  {
    hide Grown, Concat, Left, Merging, Drawn, Ready, Opened, M.Sorted, RowsOf, M.InOrder, Rolling.Valid, Rolling.Regular;
    ghost var total := multiset(RowsOf(inputs));
    var sources := Opened(inputs);
    OpenedReady(inputs);
    MergingStarts(inputs, sources);
    var rolling := new Rolling(Some(groupRows), 0x4000_0000_0000_0000, tell);
    while exists i :: 0 <= i < |sources| && sources[i].head != []
      invariant rolling.Valid() && rolling.Regular() && fresh(rolling)
      invariant rolling.groupRows == Some(groupRows) && rolling.target == 0x4000_0000_0000_0000 && rolling.tell == tell
      invariant Merging(total, rolling.appended, sources)
      decreases |Left(sources)|
    {
      MergingReady(total, rolling.appended, sources);
      var taken, after, bound := Round(sources);
      MergingMore(total, rolling.appended, sources, taken, after, bound);
      DrawnLess(sources, taken, after, bound);
      rolling.Append(M.Sorted(taken, true));
      sources := after;
    }
    MergingEnds(total, rolling.appended, sources);
    files := rolling.Close();
  }

  lemma MergingStarts(inputs: seq<seq<seq<Row>>>, sources: seq<Source>)
    requires AllReady(sources) && Left(sources) == RowsOf(inputs)
    ensures Merging(multiset(RowsOf(inputs)), [], sources)
  {
    hide RowsOf, Left, Ready;
  }

  lemma MergingReady(total: multiset<Row>, out: seq<Row>, sources: seq<Source>)
    requires Merging(total, out, sources)
    ensures AllReady(sources)
  {
  }

  lemma DrawnLess(sources: seq<Source>, taken: seq<Row>, after: seq<Source>, bound: int)
    requires Drawn(sources, taken, after, bound) && taken != []
    ensures |Left(after)| < |Left(sources)|
  {
    hide Left;
  }

  lemma MergingEnds(total: multiset<Row>, out: seq<Row>, sources: seq<Source>)
    requires Merging(total, out, sources)
    requires !exists i :: 0 <= i < |sources| && sources[i].head != []
    ensures M.InOrder(out) && multiset(out) == total
  {
    hide M.InOrder;
    NothingLeft(sources);
  }

  lemma {:induction false} NothingLeft(sources: seq<Source>)
    requires AllReady(sources) && forall i :: 0 <= i < |sources| ==> sources[i].head == []
    ensures Left(sources) == []
  {
    if sources != [] {
      NothingLeft(sources[..|sources| - 1]);
      assert Ready(sources[|sources| - 1]);
    }
  }
}
