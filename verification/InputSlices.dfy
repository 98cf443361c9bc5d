/** The offset ranges a merge reads a file in: one per row group where the row groups
    hold disjoint offsets, else the whole file. */
module InputSlices {
  import opened Options
  import Sorting

  datatype Range = Range(lo: nat, hi: nat)

  /** A row group's smallest and largest offset, where its statistics have them. */
  datatype Stats = Stats(min: nat, max: nat)

  predicate Before(a: Range, b: Range) {
    a.lo < b.lo || (a.lo == b.lo && a.hi <= b.hi)
  }

  predicate InOrder(ranges: seq<Range>) {
    forall i, j :: 0 <= i < j < |ranges| ==> Before(ranges[i], ranges[j])
  }

  function Sort(ranges: seq<Range>): seq<Range> {
    Sorting.Sort(Before, ranges)
  }

  lemma SortSorts(ranges: seq<Range>)
    ensures InOrder(Sort(ranges)) && multiset(Sort(ranges)) == multiset(ranges)
  {
    Sorting.SortSorts(Before, ranges);
    assert Sorting.Ordered(Before, Sort(ranges));
  }

  predicate Overlaps(ranges: seq<Range>) {
    exists i :: 0 <= i < |ranges| - 1 && ranges[i].hi > ranges[i + 1].lo
  }

  function RangesOf(stats: seq<Stats>): (ranges: seq<Range>)
    ensures |ranges| == |stats|
    ensures forall i :: 0 <= i < |stats| ==> ranges[i] == Range(stats[i].min, stats[i].max + 1)
  {
    seq(|stats|, i requires 0 <= i < |stats| => Range(stats[i].min, stats[i].max + 1))
  }

  /** Row groups in order and apart, the first and last stretched to the file's extent. */
  function Stretch(ranges: seq<Range>, start: nat, end: nat): (out: seq<Range>)
    requires |ranges| >= 2
    ensures |out| == |ranges|
  {
    var n := |ranges| - 1;
    ranges[0 := Range(start, ranges[0].hi)][n := Range(ranges[n].lo, end)]
  }

  /** Every row group's statistics, if they all have some. */
  function Known(groups: seq<Option<Stats>>): (known: Option<seq<Stats>>)
    ensures known.None? <==> None in groups
    ensures known.Some? ==> |known.value| == |groups|
    ensures known.Some? ==> forall i :: 0 <= i < |groups| ==> groups[i] == Some(known.value[i])
  {
    if groups == [] then Some([])
    else
      assert groups == [groups[0]] + groups[1..];
      var rest := Known(groups[1..]);
      if groups[0].None? || rest.None? then None else Some([groups[0].value] + rest.value)
  }

  method Overlapping(ranges: seq<Range>) returns (overlap: bool)
    ensures overlap <==> Overlaps(ranges)
  {
    for i := 0 to |ranges|
      invariant forall j :: 0 <= j < i && j + 1 < |ranges| ==> ranges[j].hi <= ranges[j + 1].lo
    {
      if i + 1 < |ranges| && ranges[i].hi > ranges[i + 1].lo { return true; }
    }
    return false;
  }

  method Slices(start: nat, end: nat, groups: Option<seq<Option<Stats>>>) returns (slices: seq<Range>)
    ensures slices == if groups.Some? && Known(groups.value).Some?
                      then Chosen(start, end, Known(groups.value).value)
                      else [Range(start, end)]
    ensures Sliced(start, end, groups, slices)
  {
    hide Known, Sort, RangesOf, Overlaps, Stretch, SlicedBy;
    if groups.Some? && Known(groups.value).Some? { KnownSliced(start, end, groups.value); }
    slices := [Range(start, end)];
    if groups.None? { return; }
    var stats: seq<Stats> := [];
    for i := 0 to |groups.value|
      invariant |stats| == i
      invariant forall j :: 0 <= j < i ==> groups.value[j] == Some(stats[j])
    {
      if groups.value[i].None? { return; }
      stats := stats + [groups.value[i].value];
    }
    assert None !in groups.value;
    var known := Known(groups.value);
    assert known.value == stats;
    var ranges := Sort(RangesOf(stats));
    var overlap := Overlapping(ranges);
    if |ranges| < 2 || overlap { return; }
    slices := Stretch(ranges, start, end);
  }

  function Chosen(start: nat, end: nat, stats: seq<Stats>): seq<Range> {
    var ranges := Sort(RangesOf(stats));
    if |ranges| < 2 || Overlaps(ranges) then [Range(start, end)] else Stretch(ranges, start, end)
  }

  ghost predicate Inside(range: Range, offset: nat) {
    range.lo <= offset < range.hi
  }

  /** One slice holds all of a row group. */
  ghost predicate Kept(slices: seq<Range>, group: Stats) {
    exists k :: 0 <= k < |slices| && Inside(slices[k], group.min) && Inside(slices[k], group.max)
  }

  /** The slices cut the file's range in order, apart, from its start to its end; and no
      row group is split between two. So each row is read exactly once. */
  lemma {:induction false} SlicesCover(start: nat, end: nat, stats: seq<Stats>)
    requires forall s <- stats :: start <= s.min <= s.max < end
    ensures var slices := Chosen(start, end, stats);
      && slices != [] && slices[0].lo == start && slices[|slices| - 1].hi == end
      && (forall i, j :: 0 <= i < j < |slices| ==> slices[i].hi <= slices[j].lo)
      && (forall s <- stats :: Kept(slices, s))
  {
    hide Sort, RangesOf, InOrder, Overlaps, Kept, Stretch;
    var ranges := Sort(RangesOf(stats));
    if |ranges| >= 2 && !Overlaps(ranges) {
      RangesWithin(start, end, stats);
      ApartAll(ranges);
      StretchApart(ranges, start, end);
      forall s <- stats ensures Kept(Stretch(ranges, start, end), s) {
        StretchKeeps(start, end, stats, s);
      }
    } else {
      forall s <- stats ensures Kept([Range(start, end)], s) {
        WholeKeeps(start, end, s);
      }
    }
  }

  lemma RangesWithin(start: nat, end: nat, stats: seq<Stats>)
    requires forall s <- stats :: start <= s.min <= s.max < end
    ensures forall range <- Sort(RangesOf(stats)) :: start <= range.lo < range.hi <= end
  {
    hide Sort, RangesOf, InOrder;
    var ranges := Sort(RangesOf(stats));
    SortSorts(RangesOf(stats));
    forall range <- ranges ensures start <= range.lo < range.hi <= end {
      assert range in multiset(ranges) && range in RangesOf(stats);
      var i :| 0 <= i < |stats| && RangesOf(stats)[i] == range;
      assert stats[i] in stats;
    }
  }

  lemma StretchKeeps(start: nat, end: nat, stats: seq<Stats>, s: Stats)
    requires (forall g <- stats :: start <= g.min <= g.max < end) && s in stats
    requires |Sort(RangesOf(stats))| >= 2
    ensures Kept(Stretch(Sort(RangesOf(stats)), start, end), s)
  {
    hide Sort, RangesOf, InOrder;
    var ranges := Sort(RangesOf(stats));
    SortSorts(RangesOf(stats));
    var i :| 0 <= i < |stats| && stats[i] == s;
    assert RangesOf(stats)[i] in RangesOf(stats);
    assert Range(s.min, s.max + 1) in multiset(ranges);
    var k :| 0 <= k < |ranges| && ranges[k] == Range(s.min, s.max + 1);
    var slice := Stretch(ranges, start, end)[k];
    assert slice.lo <= s.min && s.max < slice.hi;
    assert Inside(slice, s.min) && Inside(slice, s.max);
  }

  lemma WholeKeeps(start: nat, end: nat, s: Stats)
    requires start <= s.min <= s.max < end
    ensures Kept([Range(start, end)], s)
  {
    var slice := [Range(start, end)][0];
    assert Inside(slice, s.min) && Inside(slice, s.max);
  }

  lemma {:induction false} ApartAll(ranges: seq<Range>)
    requires !Overlaps(ranges) && forall range <- ranges :: range.lo < range.hi
    ensures forall i, j :: 0 <= i < j < |ranges| ==> ranges[i].hi <= ranges[j].lo
  {
    forall i, j | 0 <= i < j < |ranges|
      ensures ranges[i].hi <= ranges[j].lo
    {
      ApartFrom(ranges, i, j);
    }
  }

  lemma {:induction false} ApartFrom(ranges: seq<Range>, i: nat, j: nat)
    requires !Overlaps(ranges) && (forall range <- ranges :: range.lo < range.hi) && i < j < |ranges|
    ensures ranges[i].hi <= ranges[j].lo
    decreases j - i
  {
    if i + 1 < j {
      ApartFrom(ranges, i + 1, j);
      assert ranges[i + 1] in ranges;
    }
  }

  lemma StretchApart(ranges: seq<Range>, start: nat, end: nat)
    requires |ranges| >= 2 && forall range <- ranges :: start <= range.lo < range.hi <= end
    requires forall i, j :: 0 <= i < j < |ranges| ==> ranges[i].hi <= ranges[j].lo
    ensures var out := Stretch(ranges, start, end);
      && out[0].lo == start && out[|out| - 1].hi == end
      && (forall i, j :: 0 <= i < j < |out| ==> out[i].hi <= out[j].lo)
      && (forall k :: 0 <= k < |out| ==> out[k].lo <= ranges[k].lo && ranges[k].hi <= out[k].hi)
  {
    assert forall k :: 0 <= k < |ranges| ==> ranges[k] in ranges;
  }

  // ----- when the file is read a row group at a time -----

  /** Two row groups share an offset. */
  ghost predicate Meet(stats: seq<Stats>) {
    exists i, j :: 0 <= i < j < |stats| && MeetAt(stats, i, j)
  }

  ghost predicate MeetAt(stats: seq<Stats>, i: int, j: int)
    requires 0 <= i < j < |stats|
  {
    stats[i].min <= stats[j].max && stats[j].min <= stats[i].max
  }

  lemma {:induction false} Twice<T>(s: seq<T>, x: T) returns (k: nat, l: nat)
    requires multiset(s)[x] >= 2
    ensures k < l < |s| && s[k] == x && s[l] == x
  {
    var n := |s| - 1;
    assert s == s[..n] + [s[n]];
    if s[n] == x && multiset(s[..n])[x] < 2 {
      assert x in multiset(s[..n]);
      k :| 0 <= k < n && s[..n][k] == x;
      l := n;
    } else {
      k, l := Twice(s[..n], x);
    }
  }

  lemma {:induction false} CountTwice<T>(s: seq<T>, k: nat, l: nat)
    requires k < l < |s| && s[k] == s[l]
    ensures multiset(s)[s[k]] >= 2
  {
    var n := |s| - 1;
    assert s == s[..n] + [s[n]];
    if l < n {
      CountTwice(s[..n], k, l);
    } else {
      assert s[..n][k] == s[n];
    }
  }

  /** Two places of one list are two places of any other order of it. */
  lemma Places<T>(a: seq<T>, b: seq<T>, i: nat, j: nat) returns (k: nat, l: nat)
    requires multiset(a) == multiset(b) && i < j < |a|
    ensures k < |b| && l < |b| && k != l && b[k] == a[i] && b[l] == a[j]
  {
    if a[i] == a[j] {
      CountTwice(a, i, j);
      k, l := Twice(b, a[i]);
    } else {
      assert a[i] in multiset(b) && a[j] in multiset(b);
      k :| 0 <= k < |b| && b[k] == a[i];
      l :| 0 <= l < |b| && b[l] == a[j];
    }
  }

  /** The sorted ranges overlap exactly when two row groups share an offset. */
  lemma OverlapsIff(stats: seq<Stats>)
    requires forall s <- stats :: s.min <= s.max
    ensures Overlaps(Sort(RangesOf(stats))) <==> Meet(stats)
  {
    var all, ranges := RangesOf(stats), Sort(RangesOf(stats));
    SortSorts(all);
    RangesForward(stats, ranges);
    hide Sort, RangesOf, MeetAt, InOrder, Before;
    if k :| 0 <= k < |ranges| - 1 && ranges[k].hi > ranges[k + 1].lo {
      var i, j := Places(ranges, all, k, k + 1);
      assert InOrder(ranges);
      NextMeets(stats, ranges, k, i, j);
    } else {
      ApartAll(ranges);
      forall i, j | 0 <= i < j < |stats| ensures !MeetAt(stats, i, j) {
        var k, l := Places(all, ranges, i, j);
        FarApart(stats, ranges, i, j, k, l);
      }
    }
  }

  lemma NextMeets(stats: seq<Stats>, ranges: seq<Range>, k: nat, i: nat, j: nat)
    requires (forall s <- stats :: s.min <= s.max) && InOrder(ranges)
    requires k + 1 < |ranges| && ranges[k].hi > ranges[k + 1].lo
    requires i < |stats| && j < |stats| && i != j && RangesOf(stats)[i] == ranges[k] && RangesOf(stats)[j] == ranges[k + 1]
    ensures Meet(stats)
  {
    assert Before(ranges[k], ranges[k + 1]) && stats[i] in stats && stats[j] in stats;
    if i < j { assert MeetAt(stats, i, j); } else { assert MeetAt(stats, j, i); }
  }

  lemma FarApart(stats: seq<Stats>, ranges: seq<Range>, i: nat, j: nat, k: nat, l: nat)
    requires forall a, b :: 0 <= a < b < |ranges| ==> ranges[a].hi <= ranges[b].lo
    requires i < j < |stats| && k < |ranges| && l < |ranges| && k != l
    requires RangesOf(stats)[i] == ranges[k] && RangesOf(stats)[j] == ranges[l]
    ensures !MeetAt(stats, i, j)
  {
  }

  lemma RangesForward(stats: seq<Stats>, ranges: seq<Range>)
    requires (forall s <- stats :: s.min <= s.max) && multiset(ranges) == multiset(RangesOf(stats))
    ensures forall range <- ranges :: range.lo < range.hi
  {
    forall range <- ranges ensures range.lo < range.hi {
      assert range in multiset(RangesOf(stats));
      var i :| 0 <= i < |stats| && RangesOf(stats)[i] == range;
      assert stats[i] in stats;
    }
  }

  /** A slice is a row group's own offsets, but for the file's extent at either end. */
  ghost predicate Own(slices: seq<Range>, k: nat, group: Stats)
    requires k < |slices|
  {
    && (k > 0 ==> slices[k].lo == group.min)
    && (k < |slices| - 1 ==> slices[k].hi == group.max + 1)
  }

  ghost predicate Gives(groups: seq<Option<Stats>>, stats: seq<Stats>) {
    |stats| == |groups| && forall i :: 0 <= i < |groups| ==> groups[i] == Some(stats[i])
  }

  /** Whole, if there is one row group at most or two share an offset; else a slice each. */
  ghost predicate SlicedBy(start: nat, end: nat, stats: seq<Stats>, slices: seq<Range>) {
    if |stats| < 2 || Meet(stats) then slices == [Range(start, end)]
    else |slices| == |stats| && forall s <- stats :: exists k: nat :: k < |slices| && Own(slices, k, s)
  }

  /** A file is read a row group at a time when it has several, all with statistics, no two
      of which share an offset; and whole otherwise. */
  ghost predicate Sliced(start: nat, end: nat, groups: Option<seq<Option<Stats>>>, slices: seq<Range>) {
    if groups.None? || None in groups.value then slices == [Range(start, end)]
    else forall stats: seq<Stats> | Gives(groups.value, stats) && (forall s <- stats :: s.min <= s.max) :: SlicedBy(start, end, stats, slices)
  }

  lemma ChosenSliced(start: nat, end: nat, stats: seq<Stats>)
    requires forall s <- stats :: s.min <= s.max
    ensures SlicedBy(start, end, stats, Chosen(start, end, stats))
  {
    hide Sort, RangesOf, InOrder, Overlaps, Stretch, Meet, Own;
    OverlapsIff(stats);
    var ranges := Sort(RangesOf(stats));
    SortSorts(RangesOf(stats));
    assert |multiset(ranges)| == |ranges| && |multiset(RangesOf(stats))| == |stats|;
    if |ranges| >= 2 && !Overlaps(ranges) {
      forall s <- stats ensures exists k: nat :: k < |ranges| && Own(Stretch(ranges, start, end), k, s) {
        StretchOwns(start, end, stats, s);
      }
    }
  }

  lemma StretchOwns(start: nat, end: nat, stats: seq<Stats>, s: Stats)
    requires s in stats && |Sort(RangesOf(stats))| >= 2
    ensures var slices := Stretch(Sort(RangesOf(stats)), start, end); exists k: nat :: k < |slices| && Own(slices, k, s)
  {
    hide Sort, InOrder;
    var ranges := Sort(RangesOf(stats));
    SortSorts(RangesOf(stats));
    var i :| 0 <= i < |stats| && stats[i] == s;
    assert RangesOf(stats)[i] in multiset(ranges);
    var k: nat :| k < |ranges| && ranges[k] == RangesOf(stats)[i];
    assert Own(Stretch(ranges, start, end), k, s);
  }

  lemma KnownSliced(start: nat, end: nat, groups: seq<Option<Stats>>)
    requires Known(groups).Some?
    ensures Sliced(start, end, Some(groups), Chosen(start, end, Known(groups).value))
  {
    hide Chosen, SlicedBy;
    forall stats: seq<Stats> | Gives(groups, stats) && (forall s <- stats :: s.min <= s.max)
      ensures SlicedBy(start, end, stats, Chosen(start, end, Known(groups).value))
    {
      assert stats == Known(groups).value;
      ChosenSliced(start, end, stats);
    }
  }
}
