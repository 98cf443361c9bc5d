/** Exactly which runs compaction chooses, read off the staging table's files and the
    limits alone. */
module CompactionRuns {
  import opened CompactionPlan
  import SettledFiles

  /** What files `lo` to `hi` take on disk. */
  function Bytes(files: seq<DataFile>, lo: nat, hi: nat): nat
    requires lo <= hi <= |files|
  {
    if lo == hi then 0 else Bytes(files, lo, hi - 1) + files[hi - 1].size
  }

  /** No file of `lo` to `hi` is at the target. */
  predicate Under(files: seq<DataFile>, target: nat, lo: nat, hi: nat)
    requires hi <= |files|
  {
    forall i :: lo <= i < hi ==> files[i].size < target
  }

  /** Files from `lo` on are gathered apart from those before: the candidates begin at
      `from`, or a file at the target comes just before. */
  predicate Begins(files: seq<DataFile>, target: nat, from: nat, lo: nat)
    requires lo <= |files|
  {
    lo == from || (from < lo && files[lo - 1].size >= target)
  }

  /** A longest run of files under the target that one at the target follows, once there
      are as many as a merge takes. */
  predicate ClosedRun(files: seq<DataFile>, policy: Policy, from: nat, lo: nat, hi: nat)
    requires lo <= hi <= |files|
  {
    && Begins(files, policy.target, from, lo) && Under(files, policy.target, lo, hi)
    && hi < |files| && files[hi].size >= policy.target && hi - lo >= policy.minFiles
  }

  /** The files under the target at the end of the table, which more will join. */
  predicate OpenTail(files: seq<DataFile>, policy: Policy, from: nat, lo: nat)
    requires lo <= |files|
  {
    lo < |files| && Begins(files, policy.target, from, lo) && Under(files, policy.target, lo, |files|)
  }

  /** Files after the first are worth a rewrite of it. */
  predicate Worth(files: seq<DataFile>, policy: Policy, flush: bool, lo: nat, hi: nat)
    requires lo + 2 <= hi <= |files|
  {
    flush || Bytes(files, lo + 1, hi) >= policy.step
  }

  /** All of the tail, when none of it is published. */
  predicate WholeTail(files: seq<DataFile>, policy: Policy, from: nat, floor: nat, flush: bool, lo: nat, hi: nat)
    requires lo + 2 <= hi <= |files|
  {
    && OpenTail(files, policy, from, lo) && hi == |files|
    && files[lo].start >= floor && Worth(files, policy, flush, lo, hi)
  }

  /** Only what is published of the tail, when its first file holds published rows. */
  predicate PublishedTail(files: seq<DataFile>, policy: Policy, from: nat, floor: nat, flush: bool, lo: nat, hi: nat)
    requires lo + 2 <= hi <= |files|
  {
    && OpenTail(files, policy, from, lo) && files[lo].start < floor
    && files[hi - 1].end <= floor && (hi < |files| ==> files[hi].end > floor)
    && Worth(files, policy, flush, lo, hi)
  }

  /** Only what is past the floor of the tail, when it fills a target by itself. */
  predicate LaterTail(files: seq<DataFile>, policy: Policy, from: nat, floor: nat, lo: nat, hi: nat)
    requires lo + 2 <= hi <= |files|
  {
    && (exists tail: nat :: tail < lo && OpenTail(files, policy, from, tail))
    && lo > 0 && files[lo - 1].start < floor <= files[lo].start
    && hi == |files| && Bytes(files, lo, hi) >= policy.target
  }

  /** Whether compaction merges files `lo` to `hi` now. */
  predicate Due(files: seq<DataFile>, policy: Policy, from: nat, floor: nat, flush: bool, lo: nat, hi: nat): (due: bool)
    ensures due ==> from <= lo && lo + 2 <= hi <= |files|
  {
    && from <= lo && lo + 2 <= hi <= |files|
    && (|| ClosedRun(files, policy, from, lo, hi)
        || WholeTail(files, policy, from, floor, flush, lo, hi)
        || PublishedTail(files, policy, from, floor, flush, lo, hi)
        || LaterTail(files, policy, from, floor, lo, hi))
  }

  /** The files compaction may look at begin at `from`: above all coverage, where some of
      it is not the watermark's, and everywhere otherwise. */
  predicate CandidatesFrom(files: seq<DataFile>, landed: nat, claimed: nat, from: nat) {
    && from <= |files|
    && if claimed > landed then
         (forall i :: 0 <= i < from ==> files[i].start < claimed)
         && (forall i :: from <= i < |files| ==> files[i].start >= claimed)
       else from == 0
  }

  // ----- files further on -----

  lemma {:induction false} BytesAre(files: seq<DataFile>, lo: nat, hi: nat)
    requires lo <= hi <= |files|
    ensures Bytes(files, lo, hi) == Sizes(files[lo..hi])
  {
    if lo < hi {
      BytesAre(files, lo, hi - 1);
      assert files[lo..hi] == files[lo..hi - 1] + [files[hi - 1]];
      SizesMore(files[lo..hi - 1], files[hi - 1]);
    }
  }

  lemma {:induction false} SizesMore(files: seq<DataFile>, f: DataFile)
    ensures Sizes(files + [f]) == Sizes(files) + f.size
  {
    if files == [] {
      assert files + [f] == [f] && Sizes([f]) == f.size + Sizes([]);
    } else {
      assert (files + [f])[1..] == files[1..] + [f];
      SizesMore(files[1..], f);
    }
  }

  lemma {:induction false} BytesLater(files: seq<DataFile>, n: nat, lo: nat, hi: nat)
    requires n <= lo <= hi <= |files|
    ensures Bytes(files, lo, hi) == Bytes(files[n..], lo - n, hi - n)
  {
    if lo < hi { BytesLater(files, n, lo, hi - 1); }
  }

  /** `n` is where files are gathered afresh. */
  predicate Afresh(files: seq<DataFile>, target: nat, from: nat, n: nat) {
    && from <= n <= |files|
    && (n == from || files[n - 1].size >= target || n == |files| || files[n].size >= target)
  }

  lemma BeginsLater(files: seq<DataFile>, target: nat, from: nat, n: nat, lo: nat)
    requires Afresh(files, target, from, n) && n <= lo < |files| && files[lo].size < target
    ensures Begins(files, target, from, lo) <==> Begins(files[n..], target, 0, lo - n)
  {
  }

  lemma UnderLater(files: seq<DataFile>, target: nat, n: nat, lo: nat, hi: nat)
    requires n <= lo <= hi <= |files|
    ensures Under(files, target, lo, hi) <==> Under(files[n..], target, lo - n, hi - n)
  {
    var rest := files[n..];
    forall i | lo <= i < hi ensures files[i] == rest[i - n] { }
    forall i | lo - n <= i < hi - n ensures rest[i] == files[i + n] { }
  }

  lemma TailLater(files: seq<DataFile>, policy: Policy, from: nat, n: nat, lo: nat)
    requires Afresh(files, policy.target, from, n) && n <= lo <= |files|
    ensures OpenTail(files, policy, from, lo) <==> OpenTail(files[n..], policy, 0, lo - n)
  {
    hide Begins, Afresh;
    UnderLater(files, policy.target, n, lo, |files|);
    if lo < |files| && files[lo].size < policy.target { BeginsLater(files, policy.target, from, n, lo); }
  }

  /** A tail that begins before files are gathered afresh does not reach there. */
  lemma NoTailBefore(files: seq<DataFile>, policy: Policy, from: nat, n: nat, tail: nat)
    requires from <= tail < n < |files| && Afresh(files, policy.target, from, n)
    ensures !OpenTail(files, policy, from, tail)
  {
  }

  lemma LaterLater(files: seq<DataFile>, policy: Policy, from: nat, floor: nat, n: nat, lo: nat, hi: nat)
    requires Afresh(files, policy.target, from, n) && n <= lo && lo + 2 <= hi <= |files|
    ensures LaterTail(files, policy, from, floor, lo, hi) <==> LaterTail(files[n..], policy, 0, floor, lo - n, hi - n)
  {
    hide OpenTail, Afresh;
    BytesLater(files, n, lo, hi);
    if LaterTail(files, policy, from, floor, lo, hi) {
      var tail: nat :| tail < lo && OpenTail(files, policy, from, tail);
      assert from <= tail by { TailFrom(files, policy, from, tail); }
      if tail < n { NoTailBefore(files, policy, from, n, tail); }
      TailLater(files, policy, from, n, tail);
      assert OpenTail(files[n..], policy, 0, tail - n);
    }
    if LaterTail(files[n..], policy, 0, floor, lo - n, hi - n) {
      var tail: nat :| tail < lo - n && OpenTail(files[n..], policy, 0, tail);
      TailLater(files, policy, from, n, tail + n);
      assert OpenTail(files, policy, from, tail + n);
    }
  }

  lemma TailFrom(files: seq<DataFile>, policy: Policy, from: nat, tail: nat)
    requires tail <= |files| && OpenTail(files, policy, from, tail)
    ensures from <= tail
  {
  }

  lemma FreshFrom(files: seq<DataFile>, target: nat, from: nat, n: nat)
    requires Afresh(files, target, from, n)
    ensures from <= n <= |files|
  {
  }

  /** What is due further on is due there by itself. */
  lemma DueLater(files: seq<DataFile>, policy: Policy, from: nat, floor: nat, flush: bool, n: nat, lo: nat, hi: nat)
    requires Afresh(files, policy.target, from, n) && n <= lo && lo + 2 <= hi <= |files|
    ensures Due(files, policy, from, floor, flush, lo, hi) <==> Due(files[n..], policy, 0, floor, flush, lo - n, hi - n)
  {
    hide Begins, Afresh, LaterTail, Bytes, OpenTail;
    var target, rest := policy.target, files[n..];
    LaterLater(files, policy, from, floor, n, lo, hi);
    TailLater(files, policy, from, n, lo);
    UnderLater(files, target, n, lo, hi);
    BytesLater(files, n, lo + 1, hi);
    if files[lo].size < target { BeginsLater(files, target, from, n, lo); }
    assert rest[lo - n] == files[lo] && rest[hi - n - 1] == files[hi - 1];
    assert hi < |files| ==> rest[hi - n] == files[hi];
    assert |rest| == |files| - n;
    assert from <= lo by { FreshFrom(files, target, from, n); }
  }

  // ----- one stretch -----

  lemma UnderAll(files: seq<DataFile>, target: nat, lo: nat, hi: nat)
    requires hi <= |files| && AllSmall(files, target)
    ensures Under(files, target, lo, hi)
  {
  }

  lemma {:induction false} EndingIs(files: seq<DataFile>, floor: nat, p: nat)
    requires p <= |files|
    requires forall i :: 0 <= i < p ==> files[i].end <= floor
    requires forall i :: p <= i < |files| ==> files[i].end > floor
    ensures EndingBy(files, floor) == files[..p]
  {
    if files != [] {
      if p > 0 {
        EndingIs(files[1..], floor, p - 1);
        assert [files[0]] + files[1..][..p - 1] == files[..p];
      } else {
        EndingIs(files[1..], floor, 0);
      }
    }
  }

  lemma {:induction false} StartingIs(files: seq<DataFile>, floor: nat, p: nat)
    requires p <= |files|
    requires forall i :: 0 <= i < p ==> files[i].start < floor
    requires forall i :: p <= i < |files| ==> files[i].start >= floor
    ensures StartingAt(files, floor) == files[p..]
  {
    if files != [] {
      if p > 0 {
        StartingIs(files[1..], floor, p - 1);
      } else {
        StartingIs(files[1..], floor, 0);
        assert [files[0]] + files[1..] == files;
      }
    }
  }

  /** Where the files in order pass the floor: by their ends, and by their starts. */
  lemma {:induction false} Passing(files: seq<DataFile>, floor: nat) returns (e: nat, s: nat)
    requires InOrder(files)
    ensures e <= |files| && s <= |files|
    ensures forall i :: 0 <= i < |files| ==> (files[i].end <= floor <==> i < e)
    ensures forall i :: 0 <= i < |files| ==> (files[i].start < floor <==> i < s)
    ensures EndingBy(files, floor) == files[..e] && StartingAt(files, floor) == files[s..]
  {
    e, s := PassAt(files, floor);
    EndingIs(files, floor, e);
    StartingIs(files, floor, s);
  }

  lemma {:induction false} PassAt(files: seq<DataFile>, floor: nat) returns (e: nat, s: nat)
    requires InOrder(files)
    ensures e <= |files| && s <= |files|
    ensures forall i :: 0 <= i < |files| ==> (files[i].end <= floor <==> i < e)
    ensures forall i :: 0 <= i < |files| ==> (files[i].start < floor <==> i < s)
  {
    if files == [] {
      e, s := 0, 0;
    } else {
      var n := |files| - 1;
      e, s := PassAt(files[..n], floor);
      assert forall i :: 0 <= i < n ==> files[..n][i] == files[i];
      if files[n].end <= floor { e := n + 1; }
      if files[n].start < floor { s := n + 1; }
    }
  }

  /** Of one open stretch none of which is published, all is due or nothing. */
  lemma UnpublishedDue(files: seq<DataFile>, policy: Policy, floor: nat, flush: bool, lo: nat, hi: nat)
    requires files != [] && AllSmall(files, policy.target) && forall i :: 0 <= i < |files| ==> files[i].start >= floor
    ensures Due(files, policy, 0, floor, flush, lo, hi)
       <==> lo == 0 && hi == |files| && |files| >= 2 && Worth(files, policy, flush, 0, |files|)
  {
    hide Bytes;
    OnlyTail(files, policy);
    hide OpenTail, ClosedRun;
  }

  /** Of one open stretch that is published in part: what is published, what is after. */
  lemma PublishedDue(files: seq<DataFile>, policy: Policy, floor: nat, flush: bool, e: nat, s: nat, lo: nat, hi: nat)
    requires files != [] && AllSmall(files, policy.target) && files[0].start < floor && e <= |files| && s <= |files|
    requires forall i :: 0 <= i < |files| ==> (files[i].end <= floor <==> i < e)
    requires forall i :: 0 <= i < |files| ==> (files[i].start < floor <==> i < s)
    ensures Due(files, policy, 0, floor, flush, lo, hi)
       <==> || (lo == 0 && hi == e && e >= 2 && Worth(files, policy, flush, 0, e))
            || (lo == s && hi == |files| && s + 2 <= |files| && Bytes(files, s, |files|) >= policy.target)
  {
    hide Bytes, Worth;
    OnlyTail(files, policy);
    hide OpenTail, ClosedRun;
    assert 0 < s;
  }

  /** What is due of a table that is all one open stretch. */
  lemma OpenDue(files: seq<DataFile>, policy: Policy, floor: nat, flush: bool, run: seq<DataFile>)
    requires InOrder(files) && files != [] && AllSmall(files, policy.target)
    ensures run in Merges(Stretch(files, true), policy, floor, flush)
       <==> exists lo: nat, hi: nat :: Due(files, policy, 0, floor, flush, lo, hi) && run == files[lo..hi]
  {
    hide InOrder, Bytes, Sizes, Due, AllSmall;
    var e, s := Passing(files, floor);
    var n := |files|;
    assert files[..n] == files;
    if files[0].start >= floor {
      if n >= 2 { BytesAre(files, 1, n); assert files[1..n] == files[1..]; }
      forall lo: nat, hi: nat
        ensures Due(files, policy, 0, floor, flush, lo, hi)
           <==> lo == 0 && hi == n && n >= 2 && Worth(files, policy, flush, 0, n)
      {
        UnpublishedDue(files, policy, floor, flush, lo, hi);
      }
    } else {
      if e >= 2 { BytesAre(files, 1, e); assert files[..e][1..] == files[1..e]; }
      BytesAre(files, s, n);
      assert files[s..n] == files[s..] && files[0..e] == files[..e];
      forall lo: nat, hi: nat
        ensures Due(files, policy, 0, floor, flush, lo, hi)
           <==> || (lo == 0 && hi == e && e >= 2 && Worth(files, policy, flush, 0, e))
                || (lo == s && hi == n && s + 2 <= n && Bytes(files, s, n) >= policy.target)
      {
        PublishedDue(files, policy, floor, flush, e, s, lo, hi);
      }
    }
  }

  /** Its only tail is the whole of it. */
  lemma OnlyTail(files: seq<DataFile>, policy: Policy)
    requires files != [] && AllSmall(files, policy.target)
    ensures OpenTail(files, policy, 0, 0)
    ensures forall t: nat :: t <= |files| && OpenTail(files, policy, 0, t) ==> t == 0
    ensures forall lo: nat, hi: nat :: lo <= hi <= |files| ==> !ClosedRun(files, policy, 0, lo, hi)
  {
  }

  // ----- every stretch -----

  /** Whether a run is files that are due. */
  ghost predicate DueRun(files: seq<DataFile>, policy: Policy, from: nat, floor: nat, flush: bool, run: seq<DataFile>) {
    exists lo: nat, hi: nat :: Due(files, policy, from, floor, flush, lo, hi) && run == files[lo..hi]
  }

  /** What is due is due before files are gathered afresh, or from there on. */
  lemma DueSplit(files: seq<DataFile>, policy: Policy, from: nat, floor: nat, flush: bool, n: nat, run: seq<DataFile>)
    requires Afresh(files, policy.target, from, n)
    requires forall lo: nat, hi: nat :: Due(files, policy, from, floor, flush, lo, hi) && run == files[lo..hi] ==> n <= lo
    ensures DueRun(files, policy, from, floor, flush, run) <==> DueRun(files[n..], policy, 0, floor, flush, run)
  {
    hide Due, Afresh;
    FreshFrom(files, policy.target, from, n);
    if DueRun(files, policy, from, floor, flush, run) {
      var lo: nat, hi: nat :| Due(files, policy, from, floor, flush, lo, hi) && run == files[lo..hi];
      DueBounds(files, policy, from, floor, flush, lo, hi);
      DueLater(files, policy, from, floor, flush, n, lo, hi);
      assert files[n..][lo - n..hi - n] == files[lo..hi];
    }
    if DueRun(files[n..], policy, 0, floor, flush, run) {
      var lo: nat, hi: nat :| Due(files[n..], policy, 0, floor, flush, lo, hi) && run == files[n..][lo..hi];
      DueBounds(files[n..], policy, 0, floor, flush, lo, hi);
      DueLater(files, policy, from, floor, flush, n, lo + n, hi + n);
      assert files[n..][lo..hi] == files[lo + n..hi + n];
    }
  }

  lemma DueBounds(files: seq<DataFile>, policy: Policy, from: nat, floor: nat, flush: bool, lo: nat, hi: nat)
    requires Due(files, policy, from, floor, flush, lo, hi)
    ensures from <= lo && lo + 2 <= hi <= |files| && Under(files, policy.target, lo, hi)
  {
    hide Begins, Bytes;
    if LaterTail(files, policy, from, floor, lo, hi) {
      var tail: nat :| tail < lo && OpenTail(files, policy, from, tail);
    }
  }

  /** A file at the target is in no run. */
  lemma NotFromFull(files: seq<DataFile>, policy: Policy, floor: nat, flush: bool, run: seq<DataFile>)
    requires files != [] && Full(files[0], policy.target)
    ensures DueRun(files, policy, 0, floor, flush, run) <==> DueRun(files[1..], policy, 0, floor, flush, run)
  {
    forall lo: nat, hi: nat | Due(files, policy, 0, floor, flush, lo, hi) ensures lo >= 1 {
      DueBounds(files, policy, 0, floor, flush, lo, hi);
    }
    DueSplit(files, policy, 0, floor, flush, 1, run);
  }

  /** Files under the target before one at it are due together, or not at all. */
  lemma FirstClosed(files: seq<DataFile>, policy: Policy, floor: nat, flush: bool, n: nat, lo: nat, hi: nat)
    requires 2 <= policy.minFiles && 0 < n < |files| && AllSmall(files[..n], policy.target) && Full(files[n], policy.target)
    ensures lo < n ==> (Due(files, policy, 0, floor, flush, lo, hi) <==> lo == 0 && hi == n && n >= policy.minFiles)
  {
    assert forall i :: 0 <= i < n ==> files[i] == files[..n][i];
    if lo < n && Due(files, policy, 0, floor, flush, lo, hi) {
      DueBounds(files, policy, 0, floor, flush, lo, hi);
    }
    if n >= policy.minFiles { assert ClosedRun(files, policy, 0, 0, n); }
  }

  lemma ClosedDue(files: seq<DataFile>, policy: Policy, floor: nat, flush: bool, n: nat, run: seq<DataFile>)
    requires 2 <= policy.minFiles && 0 < n < |files| && AllSmall(files[..n], policy.target) && Full(files[n], policy.target)
    ensures DueRun(files, policy, 0, floor, flush, run)
       <==> run in Merges(Stretch(files[..n], false), policy, floor, flush) || DueRun(files[n..], policy, 0, floor, flush, run)
  {
    hide Due, AllSmall;
    forall lo: nat, hi: nat
      ensures lo < n ==> (Due(files, policy, 0, floor, flush, lo, hi) <==> lo == 0 && hi == n && n >= policy.minFiles)
    {
      FirstClosed(files, policy, floor, flush, n, lo, hi);
    }
    if n >= policy.minFiles {
      assert Due(files, policy, 0, floor, flush, 0, n) && files[..n] == files[0..n];
      if DueRun(files[n..], policy, 0, floor, flush, run) { DueFurther(files, policy, floor, flush, n, run); }
      if DueRun(files, policy, 0, floor, flush, run) && run != files[..n] { DueSplit(files, policy, 0, floor, flush, n, run); }
    } else {
      DueSplit(files, policy, 0, floor, flush, n, run);
    }
  }

  lemma DueFurther(files: seq<DataFile>, policy: Policy, floor: nat, flush: bool, n: nat, run: seq<DataFile>)
    requires n < |files| && Full(files[n], policy.target) && DueRun(files[n..], policy, 0, floor, flush, run)
    ensures DueRun(files, policy, 0, floor, flush, run)
  {
    hide Due;
    var lo: nat, hi: nat :| Due(files[n..], policy, 0, floor, flush, lo, hi) && run == files[n..][lo..hi];
    DueBounds(files[n..], policy, 0, floor, flush, lo, hi);
    DueLater(files, policy, 0, floor, flush, n, lo + n, hi + n);
    assert files[n..][lo..hi] == files[lo + n..hi + n];
  }

  lemma {:induction false} DueIs(files: seq<DataFile>, policy: Policy, floor: nat, flush: bool, run: seq<DataFile>)
    requires InOrder(files) && 2 <= policy.minFiles
    requires forall s :: s in StretchesOf(files, policy.target) ==> s.files != []
    ensures run in MergesOf(StretchesOf(files, policy.target), policy, floor, flush)
       <==> DueRun(files, policy, 0, floor, flush, run)
    decreases |files|
  {
    hide InOrder, Due, Merges;
    var target := policy.target;
    if files == [] {
      NoneDue(policy, floor, flush, run);
    } else if Full(files[0], target) {
      InOrderPart(files, 1, |files|);
      assert files[1..|files|] == files[1..];
      StretchesPartition(files[1..], target);
      DueIs(files[1..], policy, floor, flush, run);
      NotFromFull(files, policy, floor, flush, run);
      FullAlone(files[0], policy, floor, flush);
    } else {
      var n := SmallPrefix(files, target);
      if n == |files| {
        assert files[..n] == files;
        OpenDue(files, policy, floor, flush, run);
        OneStretch(Stretch(files, true), policy, floor, flush);
      } else {
        InOrderPart(files, n, |files|);
        assert files[n..|files|] == files[n..];
        StretchesPartition(files[n..], target);
        DueIs(files[n..], policy, floor, flush, run);
        ClosedDue(files, policy, floor, flush, n, run);
      }
    }
  }

  lemma NoneDue(policy: Policy, floor: nat, flush: bool, run: seq<DataFile>)
    ensures !DueRun([], policy, 0, floor, flush, run)
  {
  }

  lemma FullAlone(f: DataFile, policy: Policy, floor: nat, flush: bool)
    requires 2 <= policy.minFiles
    ensures Merges(Stretch([f], false), policy, floor, flush) == []
  {
  }

  lemma OneStretch(s: Stretch, policy: Policy, floor: nat, flush: bool)
    requires s.files != []
    ensures MergesOf([s], policy, floor, flush) == Merges(s, policy, floor, flush)
  {
    assert MergesOf([s][1..], policy, floor, flush) == [];
  }

  // ----- the plan -----

  lemma ClosedMergeable(files: seq<DataFile>, policy: Policy, from: nat, lo: nat, hi: nat, k: nat)
    requires lo <= hi <= k <= |files| && ClosedRun(files, policy, from, lo, hi)
    ensures lo + policy.minFiles <= k && SettledFiles.Mergeable(files[..k], lo, policy)
  {
    forall j | lo <= j < lo + policy.minFiles ensures !Full(files[..k][j], policy.target) {
      assert files[..k][j] == files[j];
    }
  }

  /** Nothing is due in the settled prefix. */
  lemma SettledNotDue(files: seq<DataFile>, policy: Policy, from: nat, floor: nat, flush: bool, lo: nat, hi: nat)
    requires 2 <= policy.minFiles && Due(files, policy, from, floor, flush, lo, hi)
    ensures Settled(files, policy) <= lo
  {
    hide Settled;
    SettledFiles.SettledIsStable(files, policy);
    DueBounds(files, policy, from, floor, flush, lo, hi);
    var k := Settled(files, policy);
    if lo < k {
      assert files[..k][k - 1] == files[k - 1];
      assert hi < k;
      assert ClosedRun(files, policy, from, lo, hi);
      ClosedMergeable(files, policy, from, lo, hi, k);
    }
  }

  /** Compaction merges exactly the files that are due: every closed run of enough files
      under the target, and of the open tail what the floor and the step allow. */
  lemma PlanExact(files: seq<DataFile>, policy: Policy, landed: nat, claimed: nat, floor: nat, flush: bool, from: nat,
                  run: seq<DataFile>)
    requires InOrder(files) && 2 <= policy.minFiles && CandidatesFrom(files, landed, claimed, from)
    ensures run in Plan(files, policy, landed, claimed, floor, flush)
       <==> exists lo: nat, hi: nat :: Due(files, policy, from, floor, flush, lo, hi) && run == files[lo..hi]
  {
    hide InOrder, Due, StretchesOf, MergesOf, Settled;
    SettledEndsFull(files, policy);
    var k := Settled(files, policy);
    var n := if from > k then from else k;
    PendingFrom(files, policy, landed, claimed, from);
    InOrderPart(files, n, |files|);
    assert files[n..|files|] == files[n..];
    StretchesPartition(files[n..], policy.target);
    DueIs(files[n..], policy, floor, flush, run);
    forall lo: nat, hi: nat | Due(files, policy, from, floor, flush, lo, hi) ensures n <= lo {
      SettledNotDue(files, policy, from, floor, flush, lo, hi);
      DueBounds(files, policy, from, floor, flush, lo, hi);
    }
    DueSplit(files, policy, from, floor, flush, n, run);
  }

  lemma PendingFrom(files: seq<DataFile>, policy: Policy, landed: nat, claimed: nat, from: nat)
    requires CandidatesFrom(files, landed, claimed, from) && Settled(files, policy) <= |files|
    ensures var k := Settled(files, policy);
      MergeCandidates(files, policy, landed, claimed) == files[if from > k then from else k..]
  {
    hide Settled;
    var k := Settled(files, policy);
    if claimed > landed {
      var at := if from > k then from - k else 0;
      StartingIs(files[k..], claimed, at);
      assert files[k..][at..] == files[k + at..];
    }
  }

  /** There is always such a `from`. */
  lemma CandidatesBegin(files: seq<DataFile>, landed: nat, claimed: nat) returns (from: nat)
    requires InOrder(files)
    ensures CandidatesFrom(files, landed, claimed, from)
  {
    var _, s := PassAt(files, claimed);
    from := if claimed > landed then s else 0;
  }

  // ----- the order of the plan -----

  /** The runs come in the table's order, apart from one another. */
  ghost predicate Apart(a: seq<DataFile>, b: seq<DataFile>) {
    forall f <- a, g <- b :: f.end <= g.start
  }

  lemma {:induction false} RunsApart(stretches: seq<Stretch>, policy: Policy, floor: nat, flush: bool, i: nat, j: nat)
    requires InOrder(Files(stretches)) && forall s :: s in stretches ==> s.files != []
    requires i < j < |MergesOf(stretches, policy, floor, flush)|
    ensures Apart(MergesOf(stretches, policy, floor, flush)[i], MergesOf(stretches, policy, floor, flush)[j])
  {
    hide InOrder, Merges, Apart;
    var first, rest := stretches[0].files, Files(stretches[1..]);
    var here, later := Merges(stretches[0], policy, floor, flush), MergesOf(stretches[1..], policy, floor, flush);
    assert Files(stretches) == first + rest;
    InOrderPart(first + rest, |first|, |first + rest|);
    assert (first + rest)[|first|..|first + rest|] == rest;
    MergesIn(stretches[0], policy, floor, flush);
    if j < |here| {
      MergesApart(stretches[0], policy, floor, flush, i, j);
    } else if i < |here| {
      LaterIn(stretches[1..], policy, floor, flush, later[j - |here|]);
      assert here[i] in here;
      PartsApart(first, rest, here[i], later[j - |here|]);
    } else {
      RunsApart(stretches[1..], policy, floor, flush, i - |here|, j - |here|);
    }
  }

  lemma PartsApart(first: seq<DataFile>, rest: seq<DataFile>, a: seq<DataFile>, b: seq<DataFile>)
    requires InOrder(first + rest) && (forall f <- a :: f in first) && (forall g <- b :: g in rest)
    ensures Apart(a, b)
  {
    forall f <- a, g <- b ensures f.end <= g.start {
      var x :| 0 <= x < |first| && first[x] == f;
      var y :| 0 <= y < |rest| && rest[y] == g;
      assert (first + rest)[x] == f && (first + rest)[|first| + y] == g;
    }
  }

  lemma MergesIn(s: Stretch, policy: Policy, floor: nat, flush: bool)
    requires s.files != []
    ensures forall run <- Merges(s, policy, floor, flush) :: forall f <- run :: f in s.files
  {
    FilteredIn(s.files, floor);
  }

  lemma {:induction false} LaterIn(stretches: seq<Stretch>, policy: Policy, floor: nat, flush: bool, run: seq<DataFile>)
    requires (forall s :: s in stretches ==> s.files != []) && run in MergesOf(stretches, policy, floor, flush)
    ensures forall f <- run :: f in Files(stretches)
  {
    var s := RunOf(stretches, policy, floor, flush, run);
    MergesIn(s, policy, floor, flush);
    StretchFilesIn(stretches, s);
  }

  lemma MergesApart(s: Stretch, policy: Policy, floor: nat, flush: bool, i: nat, j: nat)
    requires s.files != [] && i < j < |Merges(s, policy, floor, flush)|
    ensures Apart(Merges(s, policy, floor, flush)[i], Merges(s, policy, floor, flush)[j])
  {
    FilteredIn(s.files, floor);
  }

  lemma PlanInOrder(files: seq<DataFile>, policy: Policy, landed: nat, claimed: nat, floor: nat, flush: bool,
                    i: nat, j: nat)
    requires InOrder(files) && 2 <= policy.minFiles
    requires i < j < |Plan(files, policy, landed, claimed, floor, flush)|
    ensures var runs := Plan(files, policy, landed, claimed, floor, flush); Apart(runs[i], runs[j])
  {
    hide InOrder, StretchesOf, MergesOf, Settled, MergeCandidates, Apart;
    SettledEndsFull(files, policy);
    var pending := MergeCandidates(files, policy, landed, claimed);
    var lo := PendingSlice(files, policy, landed, claimed);
    InOrderPart(files, lo, |files|);
    StretchesPartition(pending, policy.target);
    RunsApart(StretchesOf(pending, policy.target), policy, floor, flush, i, j);
  }
}
