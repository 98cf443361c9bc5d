/** The slices a merge chooses of its inputs, read one after another, are what its writer
    takes: in order and apart, each read within its bounds and ending at a row. */
module SliceReads {
  import opened Options
  import opened RowGroups
  import opened MergeWriter
  import opened MergeRewrites
  import I = InputSlices

  /** An input: its extent, the offsets it holds, and its row groups' statistics. */
  datatype File = File(start: nat, end: nat, offsets: set<nat>, groups: Option<seq<Option<I.Stats>>>)

  /** The extent is that of its rows, and each statistic that of some of them. */
  ghost predicate Sound(f: File) {
    && f.start < f.end && f.start in f.offsets && f.end - 1 in f.offsets
    && (forall o :: o in f.offsets ==> f.start <= o < f.end)
    && (f.groups.Some? ==>
          forall g <- f.groups.value :: g.Some? ==>
            g.value.min <= g.value.max && g.value.min in f.offsets && g.value.max in f.offsets)
  }

  /** The slices `InputSlices.Slices` gives. */
  function SlicesOf(f: File): seq<I.Range> {
    if f.groups.Some? && I.Known(f.groups.value).Some?
    then I.Chosen(f.start, f.end, I.Known(f.groups.value).value)
    else [I.Range(f.start, f.end)]
  }

  function AllSlices(run: seq<File>): seq<I.Range> {
    if run == [] then [] else SlicesOf(run[0]) + AllSlices(run[1..])
  }

  ghost predicate RunSound(run: seq<File>) {
    && (forall f <- run :: Sound(f))
    && (forall i, j :: 0 <= i < j < |run| ==> run[i].end <= run[j].start)
  }

  function AllOffsets(run: seq<File>): set<nat> {
    set f, o | f in run && o in f.offsets :: o
  }

  /** A scan of a range, in offset order: the run's rows there, and no others. */
  ghost predicate Scanned(slice: Slice, range: I.Range, offsets: set<nat>) {
    && slice.lo == range.lo && slice.hi == range.hi
    && Increasing(Concat(slice.batches))
    && (forall row <- Concat(slice.batches) :: range.lo <= row.offset < range.hi)
    && (forall o :: o in offsets && range.lo <= o < range.hi ==> exists row <- Concat(slice.batches) :: row.offset == o)
  }

  /** Ranges in order and apart from `start` on, each ending right after an offset. */
  ghost predicate Cuts(ranges: seq<I.Range>, offsets: set<nat>, start: nat, end: nat) {
    && (forall i, j :: 0 <= i < j < |ranges| ==> ranges[i].hi <= ranges[j].lo)
    && (forall k :: 0 <= k < |ranges| ==> CutsAt(ranges[k], offsets) && start <= ranges[k].lo && ranges[k].hi <= end)
  }

  ghost predicate CutsAt(range: I.Range, offsets: set<nat>) {
    range.lo < range.hi && range.hi - 1 in offsets
  }

  lemma SlicesCut(f: File)
    requires Sound(f)
    ensures Cuts(SlicesOf(f), f.offsets, f.start, f.end)
  {
    hide I.Chosen, I.Known, Cuts;
    if f.groups.Some? && I.Known(f.groups.value).Some? {
      var stats := I.Known(f.groups.value).value;
      forall s <- stats ensures f.start <= s.min <= s.max < f.end && s.max in f.offsets {
        var i :| 0 <= i < |stats| && stats[i] == s;
        assert f.groups.value[i] == Some(s) && f.groups.value[i] in f.groups.value;
      }
      ChosenCuts(f.start, f.end, stats, f.offsets);
    } else {
      WholeCuts(f);
    }
  }

  lemma WholeCuts(f: File)
    requires Sound(f)
    ensures Cuts([I.Range(f.start, f.end)], f.offsets, f.start, f.end)
  {
  }

  lemma ChosenCuts(start: nat, end: nat, stats: seq<I.Stats>, offsets: set<nat>)
    requires start < end && end - 1 in offsets
    requires forall s <- stats :: start <= s.min <= s.max < end && s.max in offsets
    ensures Cuts(I.Chosen(start, end, stats), offsets, start, end)
  {
    hide I.Sort, I.RangesOf, I.Overlaps, I.InOrder, I.Kept;
    var slices, ranges := I.Chosen(start, end, stats), I.Sort(I.RangesOf(stats));
    I.SlicesCover(start, end, stats);
    I.RangesWithin(start, end, stats);
    forall k | 0 <= k < |slices| ensures CutsAt(slices[k], offsets) && start <= slices[k].lo && slices[k].hi <= end {
      if |ranges| >= 2 && !I.Overlaps(ranges) {
        assert ranges[k] in ranges;
        EndsAtMax(stats, offsets, ranges[k]);
      }
    }
  }

  /** A row group's range ends right after its largest offset. */
  lemma EndsAtMax(stats: seq<I.Stats>, offsets: set<nat>, range: I.Range)
    requires range in I.Sort(I.RangesOf(stats)) && forall s <- stats :: s.max in offsets
    ensures range.hi > 0 && range.hi - 1 in offsets
  {
    hide I.Sort, I.InOrder;
    I.SortSorts(I.RangesOf(stats));
    assert range in multiset(I.Sort(I.RangesOf(stats))) && range in I.RangesOf(stats);
    var i :| 0 <= i < |stats| && I.RangesOf(stats)[i] == range;
    assert stats[i] in stats;
  }

  lemma {:induction false} RunCuts(run: seq<File>, end: nat)
    requires RunSound(run) && forall f <- run :: f.end <= end
    ensures Cuts(AllSlices(run), AllOffsets(run), if run == [] then end else run[0].start, end)
    decreases |run|
  {
    hide SlicesOf, Sound, CutsAt;
    if run != [] {
      var f, rest := run[0], run[1..];
      assert f in run && forall g <- rest :: g in run;
      SlicesCut(f);
      RunCuts(rest, end);
      RestStarts(run, end);
      CutsJoin(SlicesOf(f), AllSlices(rest), f.offsets, AllOffsets(rest), AllOffsets(run), f.start, f.end,
               if rest == [] then end else rest[0].start, end);
    }
  }

  lemma RestStarts(run: seq<File>, end: nat)
    requires run != [] && RunSound(run) && forall f <- run :: f.end <= end
    ensures run[0].start <= run[0].end <= (if run[1..] == [] then end else run[1..][0].start) <= end
    ensures run[0].offsets <= AllOffsets(run) && AllOffsets(run[1..]) <= AllOffsets(run)
  {
    assert run[0] in run && forall g <- run[1..] :: g in run;
    if |run| > 1 { assert Sound(run[1]) by { assert run[1] in run; } }
  }

  lemma CutsJoin(a: seq<I.Range>, b: seq<I.Range>, some: set<nat>, others: set<nat>, all: set<nat>, start: nat, mid: nat,
                 from: nat, end: nat)
    requires Cuts(a, some, start, mid) && Cuts(b, others, from, end) && start <= mid <= from <= end
    requires some <= all && others <= all
    ensures Cuts(a + b, all, start, end)
  {
    forall k | 0 <= k < |a + b| ensures CutsAt((a + b)[k], all) && start <= (a + b)[k].lo && (a + b)[k].hi <= end {
      if k < |a| { assert CutsAt(a[k], some); } else { assert CutsAt(b[k - |a|], others); }
    }
  }

  /** What a merge reads of the slices it chose is what its writer and the tier protocol
      take it to be. */
  lemma SlicesReadable(run: seq<File>, slices: seq<Slice>)
    requires RunSound(run) && |slices| == |AllSlices(run)|
    requires forall k :: 0 <= k < |slices| ==> Scanned(slices[k], AllSlices(run)[k], AllOffsets(run))
    ensures Readable(slices) && Tight(slices)
  {
    hide *;
    var end := RunEnd(run);
    RunCuts(run, end);
    ReadInOrder(AllSlices(run), AllOffsets(run), if run == [] then end else run[0].start, end, slices);
    ReadToEnds(AllSlices(run), AllOffsets(run), if run == [] then end else run[0].start, end, slices);
  }

  lemma ReadInOrder(ranges: seq<I.Range>, offsets: set<nat>, start: nat, end: nat, slices: seq<Slice>)
    requires Cuts(ranges, offsets, start, end) && |slices| == |ranges|
    requires forall k :: 0 <= k < |slices| ==> Scanned(slices[k], ranges[k], offsets)
    ensures Readable(slices)
  {
    hide Concat, Increasing;
    assert forall k :: 0 <= k < |slices| ==> Scanned(slices[k], ranges[k], offsets) && CutsAt(ranges[k], offsets);
  }

  lemma ReadToEnds(ranges: seq<I.Range>, offsets: set<nat>, start: nat, end: nat, slices: seq<Slice>)
    requires Cuts(ranges, offsets, start, end) && |slices| == |ranges|
    requires forall k :: 0 <= k < |slices| ==> Scanned(slices[k], ranges[k], offsets)
    ensures Tight(slices)
  {
    forall k | 0 <= k < |slices| ensures EndsAtRow(slices[k]) {
      assert CutsAt(ranges[k], offsets) && Scanned(slices[k], ranges[k], offsets);
      ReadToEnd(ranges[k], offsets, slices[k]);
    }
  }

  lemma ReadToEnd(range: I.Range, offsets: set<nat>, slice: Slice)
    requires CutsAt(range, offsets) && Scanned(slice, range, offsets)
    ensures EndsAtRow(slice)
  {
    hide Concat, Increasing;
    var o := range.hi - 1;
    assert o in offsets && range.lo <= o < range.hi;
    var row :| row in Concat(slice.batches) && row.offset == o;
  }

  lemma RunEnd(run: seq<File>) returns (end: nat)
    requires RunSound(run)
    ensures forall f <- run :: f.end <= end
  {
    end := if run == [] then 0 else run[|run| - 1].end;
    forall f <- run ensures f.end <= end {
      var i :| 0 <= i < |run| && run[i] == f;
      assert run[|run| - 1] in run && Sound(run[|run| - 1]);
    }
  }
}
