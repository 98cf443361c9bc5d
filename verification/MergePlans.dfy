/** What compaction chooses from the table's listing is what the tier protocol's merge may
    take: whole adjacent staging files, none of which a push in flight may cover. */
module MergePlans {
  import opened TierState
  import opened TierSteps
  import opened TierTables
  import opened TierRuns
  import opened TierTheorems
  import opened C = CompactionPlan

  /** A listed file is a file of the table. */
  ghost predicate Same(x: DataFile, f: File) {
    x.path == f.path && x.start == f.start && x.end == f.end
  }

  ghost predicate Listed(files: seq<DataFile>, f: File) {
    exists x :: x in files && Same(x, f)
  }

  ghost predicate InTable(staging: set<File>, x: DataFile) {
    exists f :: f in staging && Same(x, f)
  }

  /** `files` lists the staging table, in offset order. */
  ghost predicate Lists(d: Tables, files: seq<DataFile>) {
    && C.InOrder(files)
    && (forall f :: f in d.staging ==> Listed(files, f))
    && (forall x :: x in files ==> InTable(d.staging, x))
  }

  /** The table's files that a run names. */
  ghost function FilesOf(d: Tables, run: seq<DataFile>): (fs: set<File>)
    ensures forall f :: f in fs <==> f in d.staging && Listed(run, f)
  {
    set f | f in d.staging && Listed(run, f)
  }

  lemma RunFile(d: Tables, files: seq<DataFile>, lo: nat, hi: nat, run: seq<DataFile>, k: nat) returns (f: File)
    requires Lists(d, files) && IsSlice(files, lo, hi, run) && k < |run|
    ensures f in FilesOf(d, run) && Same(run[k], f)
  {
    assert run[k] == files[lo + k] && run[k] in files;
    f :| f in d.staging && Same(run[k], f);
    assert run[k] in run;
  }

  /** The run's files span it exactly. */
  lemma RunSpan(d: Tables, files: seq<DataFile>, lo: nat, hi: nat, run: seq<DataFile>)
    requires Lists(d, files) && IsSlice(files, lo, hi, run) && run != []
    ensures var fs := FilesOf(d, run);
      fs != {} && Start(fs) == run[0].start && End(fs) == run[|run| - 1].end
  {
    hide Lists, IsSlice, FilesOf;
    var fs := FilesOf(d, run);
    var first := RunFile(d, files, lo, hi, run, 0);
    var last := RunFile(d, files, lo, hi, run, |run| - 1);
    forall f | f in fs ensures run[0].start <= f.start && f.end <= run[|run| - 1].end {
      InRunSpan(d, files, lo, hi, run, f);
    }
    SpanIs(fs, first, last);
  }

  lemma InRunSpan(d: Tables, files: seq<DataFile>, lo: nat, hi: nat, run: seq<DataFile>, f: File)
    requires Lists(d, files) && IsSlice(files, lo, hi, run) && run != [] && f in FilesOf(d, run)
    ensures run[0].start <= f.start && f.end <= run[|run| - 1].end
  {
    hide Lists, IsSlice;
    assert C.InOrder(files) by { ListsInOrder(d, files); }
    var x :| x in run && Same(x, f);
    var k :| 0 <= k < |run| && run[k] == x;
    Within(files, lo, hi, run, k);
  }

  lemma ListsInOrder(d: Tables, files: seq<DataFile>)
    requires Lists(d, files)
    ensures C.InOrder(files)
  {
  }

  lemma SpanIs(fs: set<File>, first: File, last: File)
    requires first in fs && last in fs
    requires forall f :: f in fs ==> first.start <= f.start && f.end <= last.end
    ensures Start(fs) == first.start && End(fs) == last.end
  {
    var a :| a in fs && a.start == Start(fs);
    var b :| b in fs && b.end == End(fs);
  }

  lemma Within(files: seq<DataFile>, lo: nat, hi: nat, run: seq<DataFile>, k: nat)
    requires C.InOrder(files) && IsSlice(files, lo, hi, run) && k < |run|
    ensures run[0].start <= run[k].start && run[k].end <= run[|run| - 1].end
  {
    assert run[0] == files[lo] && run[k] == files[lo + k] && run[|run| - 1] == files[lo + |run| - 1];
    assert files[lo].start < files[lo].end && files[lo + |run| - 1].start < files[lo + |run| - 1].end;
  }

  /** A staging file with a row between a run's ends is one of its files. */
  lemma BetweenIsRun(files: seq<DataFile>, lo: nat, hi: nat, run: seq<DataFile>, x: DataFile, r: nat)
    requires C.InOrder(files) && IsSlice(files, lo, hi, run) && run != [] && x in files
    requires x.start <= r < x.end && run[0].start <= r < run[|run| - 1].end
    ensures x in run
  {
    var k :| 0 <= k < |files| && files[k] == x;
    assert run[0] == files[lo] && run[|run| - 1] == files[lo + |run| - 1];
    assert lo <= k < lo + |run|;
    assert run[k - lo] == x;
  }

  /** Adjacent files of the listing hold every committed row between them. */
  lemma SliceIsWhole(d: Tables, files: seq<DataFile>, lo: nat, hi: nat, run: seq<DataFile>)
    requires FilesOk(d) && Legs(d) && Lists(d, files) && IsSlice(files, lo, hi, run) && run != []
    ensures Whole(d, FilesOf(d, run))
  {
    hide FilesOk, Legs, Lists, IsSlice;
    var fs := FilesOf(d, run);
    RunSpan(d, files, lo, hi, run);
    assert fs <= d.written && Disjoint(fs) by { PartOfStaging(d, fs); }
    forall r | r in d.committed && Start(fs) <= r < End(fs) ensures Holds(fs, r) {
      var f := StagingHolds(d, fs, r);
      RowInRun(d, files, lo, hi, run, f, r);
    }
  }

  lemma PartOfStaging(d: Tables, fs: set<File>)
    requires FilesOk(d) && fs <= d.staging
    ensures fs <= d.written && Disjoint(fs)
  {
  }

  lemma StagingHolds(d: Tables, fs: set<File>, r: nat) returns (f: File)
    requires FilesOk(d) && Legs(d) && fs <= d.staging && fs != {}
    requires r in d.committed && Start(fs) <= r < End(fs)
    ensures f in d.staging && r in f.rows && f.start <= r < f.end
  {
    hide Loose, RowsApart, UniquePaths, Disjoint;
    var a :| a in fs && a.start == Start(fs);
    var b :| b in fs && b.end == End(fs);
    assert Holds(d.staging, r);
    f :| f in d.staging && r in f.rows;
    assert Tight(f, d.committed);
  }

  lemma RowInRun(d: Tables, files: seq<DataFile>, lo: nat, hi: nat, run: seq<DataFile>, f: File, r: nat)
    requires Lists(d, files) && IsSlice(files, lo, hi, run) && run != []
    requires f in d.staging && r in f.rows && f.start <= r < f.end
    requires run[0].start <= r < run[|run| - 1].end
    ensures Holds(FilesOf(d, run), r)
  {
    hide IsSlice;
    assert Listed(files, f);
    var x :| x in files && Same(x, f);
    ListsInOrder(d, files);
    BetweenIsRun(files, lo, hi, run, x, r);
    assert Listed(run, f);
  }

  /** In every reachable state: a run compaction chooses from the table's listing is whole,
      and its claim's range is its files'. */
  lemma PlannedIsWhole(s: State, files: seq<DataFile>, policy: Policy, landed: nat, claimed: nat, floor: nat,
                       flush: bool, run: seq<DataFile>)
    requires Reachable(s) && Lists(s.d, files) && 2 <= policy.minFiles
    requires run in Plan(files, policy, landed, claimed, floor, flush)
    ensures var fs := FilesOf(s.d, run);
      && Whole(s.d, fs) && fs <= s.d.staging
      && Start(fs) == run[0].start && End(fs) == run[|run| - 1].end
  {
    hide Reachable, Plan, FilesOk, Legs, Watermark, TierRow, C.Settled, Whole;
    ReachableTables(s);
    PlanContiguous(files, policy, landed, claimed, floor, flush, run);
    var lo, hi :| C.Settled(files, policy) <= lo && lo + 2 <= hi && IsSlice(files, lo, hi, run);
    RunSpan(s.d, files, lo, hi, run);
    SliceIsWhole(s.d, files, lo, hi, run);
  }

  // ----- what coverage leaves out -----

  /** `landed` and `claimed` are what the walks over the watermark, and over the watermark
      and the intents, reach: a file ends by one just when it is in that prefix. */
  ghost predicate ReadsCoverage(d: Tables, landed: nat, claimed: nat) {
    && (forall f :: f in d.staging ==> (f.end <= landed <==> InLandedPrefix(d, f)))
    && (forall f :: f in d.staging ==> (f.end <= claimed <==> InClaimedPrefix(d, f)))
  }

  lemma {:induction false} StartingAbove(files: seq<DataFile>, floor: nat, x: DataFile)
    requires x in StartingAt(files, floor)
    ensures floor <= x.start
  {
    if !(files[0].start >= floor && x == files[0]) { StartingAbove(files[1..], floor, x); }
  }

  /** Every file of a planned run is one the protocol's check lets merge. */
  lemma PlannedIsCandidate(s: State, files: seq<DataFile>, policy: Policy, landed: nat, claimed: nat, floor: nat,
                           flush: bool, run: seq<DataFile>)
    requires Reachable(s) && Lists(s.d, files) && 2 <= policy.minFiles && ReadsCoverage(s.d, landed, claimed)
    requires run in Plan(files, policy, landed, claimed, floor, flush)
    ensures forall f :: f in FilesOf(s.d, run) ==> MergeCandidate(s.d, f)
  {
    hide Reachable, InClaimedPrefix, InLandedPrefix, C.Settled, StretchesOf, MergesOf;
    forall f | f in FilesOf(s.d, run) ensures MergeCandidate(s.d, f) {
      var x :| x in run && Same(x, f);
      if claimed > landed {
        PlannedAbove(files, policy, landed, claimed, floor, flush, run, x);
        assert x.start < x.end by { ListedSpan(s.d, files, f); }
      }
    }
  }

  lemma ListedSpan(d: Tables, files: seq<DataFile>, f: File)
    requires Lists(d, files) && f in d.staging
    ensures f.start < f.end
  {
    var x :| x in files && Same(x, f);
    var k :| 0 <= k < |files| && files[k] == x;
  }

  /** With some coverage not the watermark's, only files above all of it are planned. */
  lemma PlannedAbove(files: seq<DataFile>, policy: Policy, landed: nat, claimed: nat, floor: nat,
                     flush: bool, run: seq<DataFile>, x: DataFile)
    requires 2 <= policy.minFiles && run in Plan(files, policy, landed, claimed, floor, flush)
    requires x in run && claimed > landed
    ensures claimed <= x.start
  {
    hide StretchesOf, MergesOf, C.Settled;
    SettledEndsFull(files, policy);
    var pending := MergeCandidates(files, policy, landed, claimed);
    StretchesPartition(pending, policy.target);
    RunsSmall(StretchesOf(pending, policy.target), policy, floor, flush);
    StartingAbove(files[C.Settled(files, policy)..], claimed, x);
  }
}
