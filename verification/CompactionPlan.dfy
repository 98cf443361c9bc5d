/** What compaction merges, what publish may push, and why the two never meet. */
module CompactionPlan {

  /** A data file as the maintenance passes see it; `size` is its size on disk. */
  datatype DataFile = DataFile(path: nat, size: nat, rows: nat, start: nat, end: nat)

  /** Adjacent staging files compaction treats as one unit. */
  datatype Stretch = Stretch(files: seq<DataFile>, open: bool)

  /** The limits one pass reads once from the log. */
  datatype Policy = Policy(target: nat, step: nat, minFiles: nat)

  predicate Full(f: DataFile, target: nat) {
    target <= f.size
  }

  predicate AllSmall(files: seq<DataFile>, target: nat) {
    forall i :: 0 <= i < |files| ==> !Full(files[i], target)
  }

  /** In offset order, each file above the one before. */
  ghost predicate InOrder(files: seq<DataFile>) {
    && (forall i :: 0 <= i < |files| ==> files[i].start < files[i].end)
    && (forall i, j :: 0 <= i < j < |files| ==> files[i].end <= files[j].start)
  }

  // ----- stretches -----

  /** How many leading files are not full. */
  function SmallPrefix(files: seq<DataFile>, target: nat): (n: nat)
    ensures n <= |files|
    ensures AllSmall(files[..n], target)
    ensures n < |files| ==> Full(files[n], target)
  {
    if files == [] || Full(files[0], target) then 0
    else
      var n := 1 + SmallPrefix(files[1..], target);
      assert files[..n] == [files[0]] + files[1..][..n - 1];
      n
  }

  /** The staging table cut into what compaction acts on: each full file alone, and
      between them the longest runs of files that are not. */
  function StretchesOf(files: seq<DataFile>, target: nat): seq<Stretch>
    decreases |files|
  {
    if files == [] then []
    else if Full(files[0], target) then
      [Stretch([files[0]], false)] + StretchesOf(files[1..], target)
    else
      var n := SmallPrefix(files, target);
      if n == |files| then [Stretch(files, true)]
      else [Stretch(files[..n], false)] + StretchesOf(files[n..], target)
  }

  function Files(stretches: seq<Stretch>): seq<DataFile> {
    if stretches == [] then [] else stretches[0].files + Files(stretches[1..])
  }

  lemma {:induction false} FilesAppend(a: seq<Stretch>, b: seq<Stretch>)
    ensures Files(a + b) == Files(a) + Files(b)
  {
    if a == [] {
      assert a + b == b;
    } else {
      assert (a + b)[1..] == a[1..] + b;
      FilesAppend(a[1..], b);
    }
  }

  /** The cut loses no file, reorders none, and leaves at most the last stretch open. */
  lemma {:induction false} StretchesPartition(files: seq<DataFile>, target: nat)
    ensures Files(StretchesOf(files, target)) == files
    ensures forall s :: s in StretchesOf(files, target) ==>
              s.files != [] && (AllSmall(s.files, target) || (|s.files| == 1 && Full(s.files[0], target) && !s.open))
    ensures forall i :: 0 <= i < |StretchesOf(files, target)| - 1 ==> !StretchesOf(files, target)[i].open
    decreases |files|
  {
    if files != [] {
      var all := StretchesOf(files, target);
      if Full(files[0], target) {
        StretchesPartition(files[1..], target);
        assert all[1..] == StretchesOf(files[1..], target);
        assert Files(all) == [files[0]] + files[1..];
      } else {
        var n := SmallPrefix(files, target);
        if n == |files| {
          assert files[..n] == files;
          assert Files(all) == files + Files([]);
        } else {
          StretchesPartition(files[n..], target);
          assert all[1..] == StretchesOf(files[n..], target);
          assert Files(all) == files[..n] + files[n..];
        }
      }
    }
  }

  /** A full file ends a stretch, so what follows it is cut on its own. */
  lemma {:induction false} StretchesAfterFull(a: seq<DataFile>, b: seq<DataFile>, target: nat)
    requires a != [] && Full(a[|a| - 1], target)
    ensures StretchesOf(a + b, target) == StretchesOf(a, target) + StretchesOf(b, target)
    ensures forall s :: s in StretchesOf(a, target) ==> !s.open
    decreases |a|
  {
    hide SmallPrefix, Full;
    if Full(a[0], target) {
      assert (a + b)[1..] == a[1..] + b;
      if |a| == 1 {
        assert a[1..] + b == b;
      } else {
        StretchesAfterFull(a[1..], b, target);
      }
    } else {
      var n := SmallPrefix(a, target);
      SmallPrefixThenFull(a, b, target);
      assert (a + b)[n..] == a[n..] + b && (a + b)[..n] == a[..n];
      StretchesAfterFull(a[n..], b, target);
    }
  }

  lemma {:induction false} SmallPrefixThenFull(a: seq<DataFile>, b: seq<DataFile>, target: nat)
    requires a != [] && Full(a[|a| - 1], target)
    ensures SmallPrefix(a + b, target) == SmallPrefix(a, target) < |a|
    decreases |a|
  {
    if !Full(a[0], target) {
      assert (a + b)[1..] == a[1..] + b;
      SmallPrefixThenFull(a[1..], b, target);
    }
  }

  /** More files that are not full join the stretch being gathered. */
  lemma {:induction false} GatherSmall(small: seq<DataFile>, rest: seq<DataFile>, target: nat)
    requires AllSmall(small, target)
    ensures SmallPrefix(small + rest, target) == |small| + SmallPrefix(rest, target)
  {
    if small == [] {
      assert small + rest == rest;
    } else {
      assert (small + rest)[1..] == small[1..] + rest;
      GatherSmall(small[1..], rest, target);
    }
  }

  method Stretches(files: seq<DataFile>, target: nat) returns (grouped: seq<Stretch>)
    ensures grouped == StretchesOf(files, target)
  {
    hide StretchesOf;
    grouped := [];
    var current: seq<DataFile> := [];
    var i := 0;
    assert current + files[i..] == files;
    while i < |files|
      invariant 0 <= i <= |files|
      invariant AllSmall(current, target)
      invariant StretchesOf(files, target) == grouped + StretchesOf(current + files[i..], target)
    {
      var f := files[i];
      ghost var rest := files[i + 1..];
      assert files[i..] == [f] + rest;
      assert current + ([f] + rest) == (current + [f]) + rest;
      if Full(f, target) {
        CloseStretch(current, f, rest, target);
        if current != [] {
          grouped := grouped + [Stretch(current, false)];
          current := [];
        }
        grouped := grouped + [Stretch([f], false)];
        assert current + rest == rest;
      } else {
        current := current + [f];
      }
      i := i + 1;
    }
    LastStretch(current, files[i..], target);
    if current != [] {
      grouped := grouped + [Stretch(current, true)];
    }
  }

  lemma LastStretch(current: seq<DataFile>, rest: seq<DataFile>, target: nat)
    requires AllSmall(current, target) && rest == []
    ensures StretchesOf(current + rest, target) == if current == [] then [] else [Stretch(current, true)]
  {
    GatherSmall(current, [], target);
    assert current + [] == current && current + rest == current;
  }

  lemma CloseStretch(current: seq<DataFile>, f: DataFile, rest: seq<DataFile>, target: nat)
    requires AllSmall(current, target) && Full(f, target)
    ensures StretchesOf(current + ([f] + rest), target) ==
      (if current == [] then [] else [Stretch(current, false)])
      + [Stretch([f], false)] + StretchesOf(rest, target)
  {
    FullFirst(f, rest, target);
    if current == [] {
      assert current + ([f] + rest) == [f] + rest;
    } else {
      hide AllSmall, Full, StretchesOf;
      AfterSmall(current, [f] + rest, target);
    }
  }

  lemma {:induction false} AfterSmall(small: seq<DataFile>, rest: seq<DataFile>, target: nat)
    requires small != [] && AllSmall(small, target) && rest != [] && Full(rest[0], target)
    ensures StretchesOf(small + rest, target) == [Stretch(small, false)] + StretchesOf(rest, target)
  {
    var all := small + rest;
    GatherSmall(small, rest, target);
    assert all[..|small|] == small && all[|small|..] == rest;
    assert !Full(all[0], target);
    hide AllSmall, Full;
  }

  lemma FullFirst(f: DataFile, rest: seq<DataFile>, target: nat)
    requires Full(f, target)
    ensures StretchesOf([f] + rest, target) == [Stretch([f], false)] + StretchesOf(rest, target)
  {
    assert ([f] + rest)[1..] == rest;
  }

  // ----- the settled prefix -----

  /** Whether compaction will never touch a stretch again. */
  predicate Kept(s: Stretch, minFiles: nat) {
    !s.open && |s.files| < minFiles
  }

  function SettledCount(stretches: seq<Stretch>, minFiles: nat): nat {
    if stretches == [] || !Kept(stretches[0], minFiles) then 0
    else |stretches[0].files| + SettledCount(stretches[1..], minFiles)
  }

  /** How many leading files compaction will never touch again. */
  function Settled(files: seq<DataFile>, policy: Policy): nat {
    SettledCount(StretchesOf(files, policy.target), policy.minFiles)
  }

  method StablePrefix(files: seq<DataFile>, budget: nat, minFiles: nat) returns (settled: nat)
    ensures settled == Settled(files, Policy(budget, 0, minFiles))
  {
    var grouped := Stretches(files, budget);
    settled := 0;
    var i := 0;
    while i < |grouped|
      invariant 0 <= i <= |grouped|
      invariant SettledCount(grouped, minFiles) == settled + SettledCount(grouped[i..], minFiles)
    {
      assert grouped[i..][1..] == grouped[i + 1..];
      if grouped[i].open || |grouped[i].files| >= minFiles {
        break;
      }
      settled := settled + |grouped[i].files|;
      i := i + 1;
    }
  }

  lemma {:induction false} SettledAppend(a: seq<Stretch>, b: seq<Stretch>, minFiles: nat)
    requires forall s :: s in a ==> Kept(s, minFiles)
    ensures SettledCount(a + b, minFiles) == |Files(a)| + SettledCount(b, minFiles)
  {
    if a == [] {
      assert a + b == b;
    } else {
      assert (a + b)[1..] == a[1..] + b;
      SettledAppend(a[1..], b, minFiles);
    }
  }

  /** The settled prefix is empty, or ends on a full file and is settled by itself. */
  lemma {:induction false} SettledEndsFull(files: seq<DataFile>, policy: Policy)
    requires 2 <= policy.minFiles
    ensures var k := Settled(files, policy);
      && k <= |files|
      && (k == 0 || Full(files[k - 1], policy.target))
      && (forall s :: s in StretchesOf(files[..k], policy.target) ==> Kept(s, policy.minFiles))
    decreases |files|
  {
    var target, min := policy.target, policy.minFiles;
    var k := Settled(files, policy);
    if files == [] {
      assert files[..0] == [];
    } else if Full(files[0], target) {
      SettledEndsFull(files[1..], policy);
      hide SmallPrefix;
      assert files[..k][1..] == files[1..][..k - 1];
    } else {
      var n := SmallPrefix(files, target);
      if n < |files| && n < min {
        SettledEndsFull(files[n..], policy);
        SettledSmall(files, policy, n);
      } else {
        assert k == 0;
        assert files[..0] == [];
      }
    }
  }

  /** Few files that are not full, then a full one: settled as far as what follows is. */
  lemma {:induction false} SettledSmall(files: seq<DataFile>, policy: Policy, n: nat)
    requires files != [] && !Full(files[0], policy.target) && n == SmallPrefix(files, policy.target)
    requires 1 <= n < |files| && n < policy.minFiles && 2 <= policy.minFiles
    ensures var after := Settled(files[n..], policy);
      && Settled(files, policy) == n + after && after >= 1
      && (after <= |files| - n ==>
            StretchesOf(files[..n + after], policy.target)
            == [Stretch(files[..n], false)] + StretchesOf(files[n..][..after], policy.target))
  {
    var target, after := policy.target, Settled(files[n..], policy);
    assert StretchesOf(files, target) == [Stretch(files[..n], false)] + StretchesOf(files[n..], target);
    assert StretchesOf(files, target)[1..] == StretchesOf(files[n..], target);
    assert Full(files[n..][0], target);
    assert StretchesOf(files[n..], target)[0] == Stretch([files[n]], false);
    hide SmallPrefix, Full;
    assert after >= 1;
    if after <= |files| - n {
      PrefixSmall(files, target, n, n + after);
    }
  }

  lemma {:induction false} PrefixSmall(files: seq<DataFile>, target: nat, n: nat, k: nat)
    requires files != [] && !Full(files[0], target) && n == SmallPrefix(files, target) && n < k <= |files|
    ensures StretchesOf(files[..k], target) == [Stretch(files[..n], false)] + StretchesOf(files[n..][..k - n], target)
  {
    SmallPrefixThenFull(files[..n + 1], files[n + 1..k], target);
    assert files[..n + 1] + files[n + 1..k] == files[..k];
    SmallPrefixThenFull(files[..n + 1], files[n + 1..], target);
    assert files[..n + 1] + files[n + 1..] == files;
    hide SmallPrefix, Full;
    assert files[..k][..n] == files[..n] && files[..k][n..] == files[n..][..k - n];
    assert files[..k][0] == files[0];
  }

  /** Whatever follows a settled prefix, it stays settled. */
  lemma SettledWhatever(prefix: seq<DataFile>, tail: seq<DataFile>, policy: Policy)
    requires prefix == [] || Full(prefix[|prefix| - 1], policy.target)
    requires forall s :: s in StretchesOf(prefix, policy.target) ==> Kept(s, policy.minFiles)
    ensures |prefix| <= Settled(prefix + tail, policy)
  {
    if prefix == [] {
      assert prefix + tail == tail;
    } else {
      StretchesAfterFull(prefix, tail, policy.target);
      SettledAppend(StretchesOf(prefix, policy.target), StretchesOf(tail, policy.target), policy.minFiles);
      StretchesPartition(prefix, policy.target);
    }
  }

  // ----- the runs compaction merges -----

  function Sizes(files: seq<DataFile>): nat {
    if files == [] then 0 else files[0].size + Sizes(files[1..])
  }

  /** Whether an in-progress file absorbs the files after it now. */
  predicate Grows(files: seq<DataFile>, step: nat, flush: bool) {
    |files| >= 2 && (flush || Sizes(files[1..]) >= step)
  }

  function EndingBy(files: seq<DataFile>, floor: nat): seq<DataFile> {
    if files == [] then []
    else (if files[0].end <= floor then [files[0]] else []) + EndingBy(files[1..], floor)
  }

  function StartingAt(files: seq<DataFile>, floor: nat): seq<DataFile> {
    if files == [] then []
    else (if files[0].start >= floor then [files[0]] else []) + StartingAt(files[1..], floor)
  }

  function Merges(stretch: Stretch, policy: Policy, floor: nat, flush: bool): seq<seq<DataFile>>
    requires stretch.files != []
  {
    var files := stretch.files;
    if !stretch.open then
      if |files| >= policy.minFiles then [files] else []
    else if files[0].start >= floor then
      if Grows(files, policy.step, flush) then [files] else []
    else
      var published := EndingBy(files, floor);
      var after := StartingAt(files, floor);
      (if Grows(published, policy.step, flush) then [published] else [])
      + (if |after| >= 2 && Sizes(after) >= policy.target then [after] else [])
  }

  function MergesOf(stretches: seq<Stretch>, policy: Policy, floor: nat, flush: bool): seq<seq<DataFile>>
    requires forall s :: s in stretches ==> s.files != []
  {
    if stretches == [] then []
    else Merges(stretches[0], policy, floor, flush) + MergesOf(stretches[1..], policy, floor, flush)
  }

  /** The files past the settled prefix; above all coverage, when some of it is
      not the watermark's. */
  function MergeCandidates(files: seq<DataFile>, policy: Policy, landed: nat, claimed: nat): seq<DataFile>
    requires Settled(files, policy) <= |files|
  {
    var rest := files[Settled(files, policy)..];
    if claimed > landed then StartingAt(rest, claimed) else rest
  }

  lemma {:induction false} FilteredIn(files: seq<DataFile>, floor: nat)
    ensures forall f :: f in StartingAt(files, floor) ==> f in files && f.start >= floor
    ensures forall f :: f in EndingBy(files, floor) ==> f in files && f.end <= floor
  {
    if files != [] { FilteredIn(files[1..], floor); }
  }

  lemma {:induction false} StretchFilesIn(stretches: seq<Stretch>, s: Stretch)
    requires s in stretches
    ensures forall f :: f in s.files ==> f in Files(stretches)
  {
    if s != stretches[0] { StretchFilesIn(stretches[1..], s); }
  }

  /** Every run holds at least two files, none of them full, all from `pending`. */
  lemma {:induction false} RunsSmall(stretches: seq<Stretch>, policy: Policy, floor: nat, flush: bool)
    requires 2 <= policy.minFiles
    requires forall s :: s in stretches ==>
      s.files != [] && (AllSmall(s.files, policy.target)
                        || (|s.files| == 1 && Full(s.files[0], policy.target) && !s.open))
    ensures forall run :: run in MergesOf(stretches, policy, floor, flush) ==>
      |run| >= 2 && AllSmall(run, policy.target) && forall f :: f in run ==> f in Files(stretches)
  {
    if stretches != [] {
      var s := stretches[0];
      FilteredIn(s.files, floor);
      RunsSmall(stretches[1..], policy, floor, flush);
    }
  }

  function Plan(files: seq<DataFile>, policy: Policy, landed: nat, claimed: nat, floor: nat, flush: bool): (runs: seq<seq<DataFile>>)
    requires 2 <= policy.minFiles
  {
    SettledEndsFull(files, policy);
    var pending := MergeCandidates(files, policy, landed, claimed);
    StretchesPartition(pending, policy.target);
    MergesOf(StretchesOf(pending, policy.target), policy, floor, flush)
  }

  /** No file of the settled prefix is ever in a run compaction chooses. */
  lemma PlanLeavesSettled(files: seq<DataFile>, policy: Policy, landed: nat, claimed: nat, floor: nat,
                          flush: bool, run: seq<DataFile>)
    requires 2 <= policy.minFiles && run in Plan(files, policy, landed, claimed, floor, flush)
    ensures |run| >= 2 && AllSmall(run, policy.target)
    ensures Settled(files, policy) <= |files|
    ensures forall f :: f in run ==> f in files[Settled(files, policy)..]
  {
    SettledEndsFull(files, policy);
    var rest := files[Settled(files, policy)..];
    var pending := MergeCandidates(files, policy, landed, claimed);
    FilteredIn(rest, claimed);
    StretchesPartition(pending, policy.target);
    RunsSmall(StretchesOf(pending, policy.target), policy, floor, flush);
  }

  // ----- each run is a slice of the table -----

  ghost predicate IsSlice(files: seq<DataFile>, lo: nat, hi: nat, run: seq<DataFile>) {
    lo <= hi <= |files| && files[lo..hi] == run
  }

  lemma SliceOfSlice(files: seq<DataFile>, lo: nat, hi: nat, part: seq<DataFile>, a: nat, b: nat, run: seq<DataFile>)
    requires IsSlice(files, lo, hi, part) && IsSlice(part, a, b, run)
    ensures IsSlice(files, lo + a, lo + b, run)
  {
    var part' := files[lo..hi];
    forall i | 0 <= i < b - a ensures part'[a..b][i] == files[lo + a..lo + b][i] { }
    assert part'[a..b] == files[lo + a..lo + b];
  }

  lemma InOrderPart(files: seq<DataFile>, lo: nat, hi: nat)
    requires InOrder(files) && lo <= hi <= |files|
    ensures InOrder(files[lo..hi])
  {
  }

  lemma {:induction false} StartingSlice(files: seq<DataFile>, floor: nat) returns (k: nat)
    requires InOrder(files)
    ensures k <= |files| && StartingAt(files, floor) == files[k..]
  {
    if files == [] {
      k := 0;
    } else {
      InOrderPart(files, 1, |files|);
      assert files[1..|files|] == files[1..];
      var j := StartingSlice(files[1..], floor);
      if files[0].start >= floor {
        AllStart(files[1..], floor);
        k := 0;
        assert [files[0]] + files[1..] == files;
      } else {
        k := j + 1;
        assert [] + files[1..][j..] == files[k..];
      }
    }
  }

  lemma {:induction false} AllStart(files: seq<DataFile>, floor: nat)
    requires forall i :: 0 <= i < |files| ==> floor <= files[i].start
    ensures StartingAt(files, floor) == files
  {
    if files != [] { AllStart(files[1..], floor); }
  }

  lemma {:induction false} EndingSlice(files: seq<DataFile>, floor: nat) returns (k: nat)
    requires InOrder(files)
    ensures k <= |files| && EndingBy(files, floor) == files[..k]
  {
    if files == [] {
      k := 0;
    } else if files[0].end <= floor {
      InOrderPart(files, 1, |files|);
      assert files[1..|files|] == files[1..];
      var j := EndingSlice(files[1..], floor);
      k := j + 1;
      assert [files[0]] + files[1..][..j] == files[..k];
    } else {
      NoneEnd(files[1..], floor);
      k := 0;
    }
  }

  lemma {:induction false} NoneEnd(files: seq<DataFile>, floor: nat)
    requires forall i :: 0 <= i < |files| ==> floor < files[i].end
    ensures EndingBy(files, floor) == []
  {
    if files != [] { NoneEnd(files[1..], floor); }
  }

  lemma {:induction false} StretchSlice(stretches: seq<Stretch>, s: Stretch) returns (k: nat)
    requires s in stretches
    ensures IsSlice(Files(stretches), k, k + |s.files|, s.files)
  {
    if s == stretches[0] {
      k := 0;
    } else {
      var j := StretchSlice(stretches[1..], s);
      k := |stretches[0].files| + j;
    }
  }

  /** The runs one stretch gives are slices of it. */
  lemma MergesSlice(s: Stretch, policy: Policy, floor: nat, flush: bool, run: seq<DataFile>)
    returns (a: nat, b: nat)
    requires s.files != [] && InOrder(s.files) && run in Merges(s, policy, floor, flush)
    ensures IsSlice(s.files, a, b, run)
  {
    if run == s.files {
      a, b := 0, |s.files|;
    } else if run == EndingBy(s.files, floor) {
      b := EndingSlice(s.files, floor);
      a := 0;
    } else {
      a := StartingSlice(s.files, floor);
      b := |s.files|;
    }
  }

  lemma {:induction false} RunOf(stretches: seq<Stretch>, policy: Policy, floor: nat, flush: bool, run: seq<DataFile>)
    returns (s: Stretch)
    requires forall s :: s in stretches ==> s.files != []
    requires run in MergesOf(stretches, policy, floor, flush)
    ensures s in stretches && run in Merges(s, policy, floor, flush)
  {
    if run in Merges(stretches[0], policy, floor, flush) {
      s := stretches[0];
    } else {
      s := RunOf(stretches[1..], policy, floor, flush, run);
    }
  }

  /** The candidates are the table from some file on, past the settled prefix. */
  lemma PendingSlice(files: seq<DataFile>, policy: Policy, landed: nat, claimed: nat) returns (lo: nat)
    requires InOrder(files) && Settled(files, policy) <= |files|
    ensures Settled(files, policy) <= lo
    ensures IsSlice(files, lo, |files|, MergeCandidates(files, policy, landed, claimed))
  {
    hide Settled;
    var k := Settled(files, policy);
    InOrderPart(files, k, |files|);
    assert files[k..|files|] == files[k..];
    var j := 0;
    if claimed > landed { j := StartingSlice(files[k..], claimed); }
    lo := k + j;
    assert files[k..][j..] == files[lo..] == files[lo..|files|];
  }

  lemma RunSlice(pending: seq<DataFile>, policy: Policy, floor: nat, flush: bool, run: seq<DataFile>)
    returns (lo: nat, hi: nat)
    requires InOrder(pending)
    requires forall s :: s in StretchesOf(pending, policy.target) ==> s.files != []
    requires Files(StretchesOf(pending, policy.target)) == pending
    requires run in MergesOf(StretchesOf(pending, policy.target), policy, floor, flush)
    ensures IsSlice(pending, lo, hi, run)
  {
    hide StretchesOf, MergesOf, Merges, Files, InOrder;
    var s := RunOf(StretchesOf(pending, policy.target), policy, floor, flush, run);
    var c := StretchSlice(StretchesOf(pending, policy.target), s);
    InOrderPart(pending, c, c + |s.files|);
    var a, b := MergesSlice(s, policy, floor, flush, run);
    SliceOfSlice(pending, c, c + |s.files|, s.files, a, b, run);
    lo, hi := c + a, c + b;
  }

  /** Every run compaction chooses is adjacent files of the table, past the settled
      prefix: at least two of them, none full. */
  lemma PlanContiguous(files: seq<DataFile>, policy: Policy, landed: nat, claimed: nat, floor: nat,
                       flush: bool, run: seq<DataFile>)
    requires InOrder(files) && 2 <= policy.minFiles
    requires run in Plan(files, policy, landed, claimed, floor, flush)
    ensures exists lo, hi :: Settled(files, policy) <= lo && lo + 2 <= hi && IsSlice(files, lo, hi, run)
    ensures AllSmall(run, policy.target)
  {
    hide StretchesOf, MergesOf, MergeCandidates, InOrder, Files, AllSmall, Settled;
    PlanLeavesSettled(files, policy, landed, claimed, floor, flush, run);
    var pending := MergeCandidates(files, policy, landed, claimed);
    var lo := PendingSlice(files, policy, landed, claimed);
    InOrderPart(files, lo, |files|);
    StretchesPartition(pending, policy.target);
    var a, b := RunSlice(pending, policy, floor, flush, run);
    SliceOfSlice(files, lo, |files|, pending, a, b, run);
  }

  // ----- compaction ends -----

  function Small(files: seq<DataFile>, target: nat): nat {
    if files == [] then 0 else (if Full(files[0], target) then 0 else 1) + Small(files[1..], target)
  }

  lemma {:induction false} SmallAppend(a: seq<DataFile>, b: seq<DataFile>, target: nat)
    ensures Small(a + b, target) == Small(a, target) + Small(b, target)
  {
    if a == [] {
      assert a + b == b;
    } else {
      assert (a + b)[1..] == a[1..] + b;
      SmallAppend(a[1..], b, target);
    }
  }

  lemma {:induction false} SmallCount(files: seq<DataFile>, target: nat)
    ensures AllSmall(files, target) ==> Small(files, target) == |files|
    ensures (forall i :: 0 <= i < |files| ==> Full(files[i], target)) ==> Small(files, target) == 0
  {
    if files != [] {
      assert AllSmall(files, target) ==> AllSmall(files[1..], target);
      SmallCount(files[1..], target);
    }
  }

  /** A merge cuts its outputs at the target, so all but the last are full. */
  predicate CutAtTarget(outputs: seq<DataFile>, target: nat) {
    outputs != [] && forall i :: 0 <= i < |outputs| - 1 ==> Full(outputs[i], target)
  }

  /** Each merge leaves fewer files under the target than it found. */
  lemma MergeShrinks(before: seq<DataFile>, run: seq<DataFile>, outputs: seq<DataFile>,
                     after: seq<DataFile>, target: nat)
    requires |run| >= 2 && AllSmall(run, target) && CutAtTarget(outputs, target)
    ensures Small(before + outputs + after, target) < Small(before + run + after, target)
  {
    SmallAppend(before + outputs, after, target);
    SmallAppend(before, outputs, target);
    SmallAppend(before + run, after, target);
    SmallAppend(before, run, target);
    SmallCount(run, target);
    var last := outputs[|outputs| - 1];
    assert outputs == outputs[..|outputs| - 1] + [last];
    SmallAppend(outputs[..|outputs| - 1], [last], target);
    SmallCount(outputs[..|outputs| - 1], target);
  }

  /** A merge of a run compaction chose, under what it read then: `files[lo..hi]` gives
      way to `outputs`. */
  datatype Rewrite = Rewrite(lo: nat, hi: nat, outputs: seq<DataFile>,
                             landed: nat, claimed: nat, floor: nat, flush: bool)

  predicate Chosen(files: seq<DataFile>, policy: Policy, w: Rewrite)
    requires 2 <= policy.minFiles
  {
    && w.lo <= w.hi <= |files|
    && files[w.lo..w.hi] in Plan(files, policy, w.landed, w.claimed, w.floor, w.flush)
    && CutAtTarget(w.outputs, policy.target)
  }

  function Rewritten(files: seq<DataFile>, w: Rewrite): seq<DataFile>
    requires w.lo <= w.hi <= |files|
  {
    files[..w.lo] + w.outputs + files[w.hi..]
  }

  predicate AllChosen(files: seq<DataFile>, policy: Policy, ws: seq<Rewrite>)
    requires 2 <= policy.minFiles
    decreases |ws|
  {
    ws == [] || (Chosen(files, policy, ws[0]) && AllChosen(Rewritten(files, ws[0]), policy, ws[1..]))
  }

  /** With no new seals, compaction merges at most as often as there are files under
      the target: so it ends, however often it is called. */
  lemma {:induction false} CompactionEnds(files: seq<DataFile>, policy: Policy, ws: seq<Rewrite>)
    requires 2 <= policy.minFiles && AllChosen(files, policy, ws)
    ensures |ws| <= Small(files, policy.target)
    decreases |ws|
  {
    hide Plan;
    if ws != [] {
      var w := ws[0];
      PlanLeavesSettled(files, policy, w.landed, w.claimed, w.floor, w.flush, files[w.lo..w.hi]);
      assert files == files[..w.lo] + files[w.lo..w.hi] + files[w.hi..];
      MergeShrinks(files[..w.lo], files[w.lo..w.hi], w.outputs, files[w.hi..], policy.target);
      CompactionEnds(Rewritten(files, w), policy, ws[1..]);
    }
  }

  // ----- how often the in-progress file is rewritten -----

  /** Each batch is one compaction would absorb unflushed, into a file not yet full. */
  predicate GrowsEach(size: nat, batches: seq<seq<DataFile>>, policy: Policy)
    decreases |batches|
  {
    batches == [] ||
    (size < policy.target
     && Grows([DataFile(0, size, 0, 0, 0)] + batches[0], policy.step, false)
     && GrowsEach(size + Sizes(batches[0]), batches[1..], policy))
  }

  /** A file is rewritten at most as many times as steps fit in the target, rounded up. */
  lemma {:induction false} RewritesBounded(size: nat, batches: seq<seq<DataFile>>, policy: Policy)
    requires 0 < policy.step && GrowsEach(size, batches, policy)
    ensures |batches| > 0 ==> size + (|batches| - 1) * policy.step < policy.target
    ensures |batches| <= (policy.target + policy.step - 1) / policy.step
    decreases |batches|
  {
    if |batches| > 1 {
      assert ([DataFile(0, size, 0, 0, 0)] + batches[0])[1..] == batches[0];
      RewritesBounded(size + Sizes(batches[0]), batches[1..], policy);
      StepsFit(|batches| - 1, policy.step, policy.target);
    } else if |batches| == 1 {
      StepsFit(0, policy.step, policy.target);
    }
  }

  lemma StepsFit(n: nat, step: nat, target: nat)
    requires 0 < step && n * step < target
    ensures n + 1 <= (target + step - 1) / step
  {
    var q := (target + step - 1) / step;
    assert q * step > target - 1;
    if q <= n { Multiples(q, n, step); }
  }

  lemma Multiples(a: nat, b: nat, c: nat)
    requires a <= b
    ensures a * c <= b * c
  {
  }

  // ----- coverage -----

  datatype Span = Span(start: nat, end: nat)

  ghost predicate Reached(ranges: seq<Span>, o: nat) {
    exists i :: 0 <= i < |ranges| && ranges[i].start <= o < ranges[i].end
  }

  /** Whether `[start, end)` lies inside what the sorted ranges cover together. */
  method Covered(ranges: seq<Span>, start: nat, end: nat) returns (covered: bool)
    requires forall i, j :: 0 <= i < j < |ranges| ==> ranges[i].start <= ranges[j].start
    ensures covered <==> forall o: nat :: start <= o < end ==> Reached(ranges, o)
  {
    if end <= start {
      return true;
    }
    var reach := start;
    var i := 0;
    while i < |ranges|
      invariant 0 <= i <= |ranges|
      invariant start <= reach < end
      invariant forall o: nat :: start <= o < reach ==> Reached(ranges, o)
      invariant forall j :: 0 <= j < i ==> ranges[j].end <= reach
    {
      if ranges[i].start > reach {
        assert !Reached(ranges, reach);
        return false;
      }
      if ranges[i].end > reach {
        forall o: nat | reach <= o < ranges[i].end ensures Reached(ranges, o) { }
        reach := ranges[i].end;
        if reach >= end {
          return true;
        }
      }
      i := i + 1;
    }
    assert !Reached(ranges, reach);
    return false;
  }

  ghost predicate HeldBy(ranges: seq<Span>, f: DataFile) {
    forall o: nat :: f.start <= o < f.end ==> Reached(ranges, o)
  }

  /** The end of the longest prefix of `files` the ranges hold; 0 for none. A file
      ends by it exactly when it and every file below it is held. */
  method PublishedPrefix(files: seq<DataFile>, ranges: seq<Span>) returns (reached: nat)
    requires InOrder(files)
    requires forall i, j :: 0 <= i < j < |ranges| ==> ranges[i].start <= ranges[j].start
    ensures forall i :: 0 <= i < |files| ==>
      (files[i].end <= reached <==> forall j :: 0 <= j <= i ==> HeldBy(ranges, files[j]))
    ensures reached == 0 || exists i :: 0 <= i < |files| && files[i].end == reached
  {
    reached := 0;
    var i := 0;
    while i < |files|
      invariant 0 <= i <= |files|
      invariant forall j :: 0 <= j < i ==> HeldBy(ranges, files[j])
      invariant reached == if i == 0 then 0 else files[i - 1].end
    {
      var held := Covered(ranges, files[i].start, files[i].end);
      if !held {
        break;
      }
      reached := files[i].end;
      i := i + 1;
    }
  }
}
