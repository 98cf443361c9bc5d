/** How far the tables may move while somebody reads them: what one read saw bounds
    what a later one can see, whatever ran in between. */
module TierHistory {
  import opened TierState
  import opened TierSteps
  import opened TierTables
  import opened TierMerge
  import opened TierPublish
  import opened TierEvict
  import opened TierOps
  import opened TierRuns
  import opened TierTheorems

  /** Every row below it is filed or truncated. */
  ghost function Past(d: Tables): nat {
    Later(Frontier(d), d.low)
  }

  ghost predicate AboveAll(rows: set<nat>, r: nat) {
    forall x :: x in rows ==> x < r
  }

  /** Later tables hold what earlier ones did, further along: rows only arrive above
      all others, only move from the buffer to staging to the published table, and only
      truncation removes them. */
  ghost predicate Evolves(d: Tables, e: Tables) {
    && d.low <= e.low
    && d.committed <= e.committed
    && (forall r :: r in e.committed && r !in d.committed ==> AboveAll(d.committed, r))
    && Past(d) <= Past(e)
    && Base(d) <= Base(e)
    && (forall r {:trigger Holds(e.published, r)} ::
          Holds(d.published, r) && e.low <= r ==> Holds(e.published, r))
    && (d.staging != {} && e.staging == {} ==> End(d.staging) <= Base(e))
    && (d.staging != {} && e.staging != {} ==>
          End(d.staging) <= End(e.staging) && Start(d.staging) <= Start(e.staging))
    && (d.staging == {} && e.staging != {} ==> Past(d) <= Start(e.staging))
  }

  lemma EvolvesSelf(d: Tables)
    ensures Evolves(d, d)
  {
  }

  lemma SpanNonempty(fs: set<File>)
    requires forall f :: f in fs ==> f.start < f.end
    ensures fs != {} ==> Start(fs) < End(fs)
  {
    if fs != {} {
      var f :| f in fs && f.start == Start(fs);
    }
  }

  lemma EvolvesOn(a: Tables, b: Tables, c: Tables)
    requires Evolves(a, b) && Evolves(b, c)
    requires forall f :: f in a.staging ==> f.start < f.end
    requires forall f :: f in c.staging ==> f.start < f.end
    ensures Evolves(a, c)
  {
    hide Holds;
    SpanNonempty(a.staging);
    SpanNonempty(c.staging);
    forall r | Holds(a.published, r) && c.low <= r ensures Holds(c.published, r) {
      assert Holds(b.published, r);
    }
  }

  // ----- each step -----

  /** Nothing but rows, the buffer and the bookkeeping changed. */
  lemma SameFilesEvolve(d: Tables, e: Tables)
    requires e.low == d.low && d.committed <= e.committed
    requires forall r :: r in e.committed && r !in d.committed ==> AboveAll(d.committed, r)
    requires e.staging == d.staging && e.published == d.published
    ensures Evolves(d, e)
  {
    hide Holds;
  }

  lemma StagedEvolves(d: Tables, e: Tables, f: File)
    requires forall g :: g in d.staging ==> g.start < g.end
    requires f.start < f.end && Past(d) <= f.start
    requires e.staging == d.staging + {f} && e.published == d.published && e.low == d.low
    requires d.committed <= e.committed
    requires forall r :: r in e.committed && r !in d.committed ==> AboveAll(d.committed, r)
    ensures Evolves(d, e)
  {
    hide Holds;
    StagedSpan(d, f);
    SpanNonempty(d.staging);
  }

  lemma RegisterEvolves(d: Tables, f: File)
    requires FilesOk(d) && OpSafe(d, Sealed(f))
    ensures Evolves(d, RegisterFile(d, f))
  {
    hide Evolves, FilesOk;
    if Filed(d, f.end) {
      SameFilesEvolve(d, RegisterFile(d, f));
    } else {
      StagingSpans(d);
      StagedEvolves(d, RegisterFile(d, f), f);
    }
  }

  lemma LoadEvolves(d: Tables, f: File)
    requires FilesOk(d) && LoadOk(d, f)
    ensures Evolves(d, IngestFile(d, f))
  {
    hide Evolves;
    LoadAbove(d, f);
    StagedEvolves(d, IngestFile(d, f), f);
  }

  lemma MergeEvolves(d: Tables, run: set<File>, outputs: set<File>)
    requires FilesOk(d) && MergeOk(d, run, outputs)
    ensures Evolves(d, ReplaceRun(d, run, outputs))
  {
    hide FilesOk, Rewritten, Disjoint, Holds;
    ReplacedSpan(d, run, outputs);
    assert d.staging != {};
  }

  lemma EvictEvolves(d: Tables, below: nat)
    requires FilesOk(d) && Watermark(d) && EvictOk(d, below)
    ensures Evolves(d, Evicted(d, below))
  {
    hide Holds, Tight, Loose, Disjoint, UniquePaths, RowsApart, Frontier;
    EvictedFrontier(d, below);
    EndAbove(d.staging, below);
    if Above(d.staging, below) != {} {
      EvictedStart(d, below);
    } else if d.staging != {} {
      EmptiedBelowPublished(d, below);
    }
  }

  lemma TruncateEvolves(d: Tables, floor: nat)
    requires SafeOk(d) && OpSafe(d, Truncating(floor, 1))
    ensures Evolves(d, Evicted(Leaving(d, floor), floor))
  {
    hide FilesOk, Legs, Watermark, TierRow, Evolves;
    var leaving := Leaving(d, floor);
    LeavingKeeps(d, floor);
    EvictEvolves(leaving, floor);
    LeavingAlike(d, leaving, Evicted(leaving, floor));
  }

  lemma LeavingAlike(d: Tables, leaving: Tables, e: Tables)
    requires Evolves(leaving, e)
    requires leaving.low == d.low && leaving.committed == d.committed
    requires leaving.staging == d.staging && leaving.published == d.published
    ensures Evolves(d, e)
  {
  }

  /** Published files below the floor go, and with them every row below it. */
  lemma CutEvolves(d: Tables, floor: nat)
    requires FilesOk(d) && CutOk(d, floor)
    ensures Evolves(d, CutPublished(d, floor))
  {
    var e := CutPublished(d, floor);
    EndAbove(d.published, floor);
    forall r | Holds(d.published, r) && e.low <= r ensures Holds(e.published, r) {
      CutHolds(d, floor, r);
    }
  }

  lemma GrownEvolves(d: Tables, e: Tables)
    requires Grown(d, e)
    ensures Evolves(d, e)
  {
  }

  ghost predicate FileStep(step: Step) {
    StagingStep(step) || step.CommitSwap? || step.CommitPush? || step.TruncatePublished?
  }

  lemma OtherStepsEvolve(s: State, step: Step)
    requires Safe(s) && Enabled(s, step) && !FileStep(step)
    ensures Evolves(s.d, Write(s, step))
  {
    hide Evolves, Legs, Watermark, TierRow, OpSafe, Tight, Loose;
    assert forall r :: r in s.d.committed ==> r < s.d.next;
    SameFilesEvolve(s.d, Write(s, step));
  }

  lemma StagingStepEvolves(s: State, step: Step)
    requires Safe(s) && Enabled(s, step) && StagingStep(step)
    ensures Evolves(s.d, Write(s, step))
  {
    hide Safe, Write, SafeOk, OpSafe, FilesOk, Legs, Watermark, Evolves, MergeOk, EvictOk, LoadOk;
    StagingAfter(s, step);
    InFlight(s, step.id);
    SafeParts(s);
    match step
    case RegisterSeal(id) => RegisterEvolves(s.d, s.ops[id].file);
    case RegisterIngest(id, path, start, end) =>
      LoadIsOk(s, id, path, start, end);
      LoadEvolves(s.d, File(path, start, end, Sequence(start, end - start)));
    case CommitMerge(id) =>
      MergedIsOk(s.d, s.ops[id]);
      MergeEvolves(s.d, s.ops[id].run, s.ops[id].outputs);
    case CommitEvict(id) =>
      DroppingIsOk(s.d, s.ops[id]);
      EvictEvolves(s.d, s.ops[id].below);
    case TruncateStaging(id) => TruncateEvolves(s.d, s.ops[id].floor);
  }

  lemma PublishedStepEvolves(s: State, step: Step)
    requires Safe(s) && Enabled(s, step)
    requires step.CommitSwap? || step.CommitPush? || step.TruncatePublished?
    ensures Evolves(s.d, Write(s, step))
  {
    hide Safe, SafeOk, OpSafe, FilesOk, Legs, Watermark, Evolves, Grown, PushOk, SwapSeen, CutsOk, SwapIn;
    SafeParts(s);
    match step
    case CommitSwap(id, confirm, cuts) =>
      InFlight(s, id);
      SwappingIs(s.d, s.ops[id]);
      SwapGrown(s.d, s.ops[id].phase.merged, cuts);
      GrownEvolves(s.d, Write(s, step));
    case CommitPush(id, confirm) => PushEvolves(s, id, confirm);
    case TruncatePublished(id) =>
      InFlight(s, id);
      CutsTo(s.d, s.ops[id]);
      CutEvolves(s.d, s.ops[id].floor);
  }

  lemma CutsTo(d: Tables, op: Op)
    requires op.Truncating? && op.stage == 2 && FilesOk(d) && OpSafe(d, op)
    ensures CutOk(d, op.floor)
  {
  }

  lemma PushEvolves(s: State, id: nat, confirm: nat)
    requires Safe(s) && Enabled(s, CommitPush(id, confirm))
    ensures Evolves(s.d, Write(s, CommitPush(id, confirm)))
  {
    hide Safe, SafeOk, OpSafe, FilesOk, Legs, Watermark, Evolves, Grown, PushOk;
    SafeParts(s);
    InFlight(s, id);
    if PushRegisters(s.d, s.ops[id].phase.files) {
      PushingIs(s.d, s.ops[id]);
      PushedGrown(s.d, s.ops[id].phase.files, s.ops[id].phase.upTo);
      GrownEvolves(s.d, Pushed(s.d, s.ops[id].phase.files));
    } else {
      EvolvesSelf(s.d);
    }
  }

  lemma StepEvolves(s: State, step: Step)
    requires Safe(s) && Enabled(s, step)
    ensures Evolves(s.d, Write(s, step))
  {
    hide Safe, Enabled, Write, Evolves;
    if StagingStep(step) {
      StagingStepEvolves(s, step);
    } else if FileStep(step) {
      PublishedStepEvolves(s, step);
    } else {
      OtherStepsEvolve(s, step);
    }
  }

  // ----- whole runs -----

  lemma {:induction false} RunEvolves(s: State, steps: seq<Step>)
    requires Safe(s) && Legal(s, steps)
    ensures Safe(After(s, steps)) && Evolves(s.d, After(s, steps).d)
    decreases |steps|
  {
    hide Safe, Enabled, Evolves, Write, Advance;
    if steps == [] {
      EvolvesSelf(s.d);
    } else {
      var t := Apply(s, steps[0]);
      StepSafe(s, steps[0]);
      StepEvolves(s, steps[0]);
      RunEvolves(t, steps[1..]);
      FilesNonempty(s);
      FilesNonempty(After(t, steps[1..]));
      EvolvesOn(s.d, t.d, After(t, steps[1..]).d);
    }
  }

  lemma FilesNonempty(s: State)
    requires Safe(s)
    ensures forall f :: f in s.d.staging ==> f.start < f.end
  {
    hide Legs, Watermark, TierRow, OpSafe;
  }

  /** However `t` was reached from `s`, crashes included. */
  lemma ReachesEvolves(s: State, t: State)
    requires Safe(s) && Reaches(s, t)
    ensures Safe(t) && Evolves(s.d, t.d)
  {
    hide Safe, Enabled, Evolves, Write, Advance;
    var steps :| Legal(s, steps) && After(s, steps) == t;
    RunEvolves(s, steps);
  }

  // ----- once filed, never staged again -----

  /** A committed row that was filed, or truncated, and is not in the staging table. */
  ghost predicate LeftStaging(d: Tables, r: nat) {
    r in d.committed && !Holds(d.staging, r) && r < Past(d)
  }

  lemma StaysOut(s: State, step: Step, r: nat)
    requires Safe(s) && Enabled(s, step) && LeftStaging(s.d, r)
    ensures LeftStaging(Write(s, step), r)
  {
    hide Safe, Enabled, Write, Frontier, Holds;
    StepEvolves(s, step);
    if Holds(Write(s, step).staging, r) {
      EntersUnfiled(s, step, r);
    }
  }

  /** No run of seals, merges, takeovers, evictions and crashes puts back into the
      staging table a row that has left it. */
  lemma {:induction false} NeverRestaged(s: State, steps: seq<Step>, r: nat)
    requires Safe(s) && Legal(s, steps) && LeftStaging(s.d, r)
    ensures LeftStaging(After(s, steps).d, r)
    decreases |steps|
  {
    hide Safe, Enabled, Write, Advance, LeftStaging;
    if steps != [] {
      StepSafe(s, steps[0]);
      StaysOut(s, steps[0], r);
      NeverRestaged(Apply(s, steps[0]), steps[1..], r);
    }
  }
}
