/** What the tier protocol promises: of every run, and besides of every orderly one. */
module TierTheorems {
  import opened TierState
  import opened TierSteps
  import opened TierTables
  import opened TierMerge
  import opened TierPublish
  import opened TierEvict
  import opened TierOps
  import opened TierRuns
  import opened TierOrderly

  // ----- runs -----

  /** A new log: nothing issued, and its published tier row empty or not yet written. */
  ghost predicate NewLog(s: State) {
    && s.d.next == 1 && s.d.committed == {} && s.d.low == 0 && s.d.buffer == {}
    && s.d.staging == {} && s.d.published == {} && s.d.through == 0 && s.d.intents == {}
    && s.d.queued == {} && s.d.written == {} && s.d.names == {} && s.ops == map[]
  }

  ghost predicate Legal(s: State, steps: seq<Step>)
    decreases |steps|
  {
    steps == [] || (Enabled(s, steps[0]) && Legal(Apply(s, steps[0]), steps[1..]))
  }

  /** A run whose every step is orderly. */
  ghost predicate AllOrderly(s: State, steps: seq<Step>)
    requires Legal(s, steps)
    decreases |steps|
  {
    steps == [] || (Orderly(s, steps[0]) && AllOrderly(Apply(s, steps[0]), steps[1..]))
  }

  ghost function After(s: State, steps: seq<Step>): State
    requires Legal(s, steps)
    decreases |steps|
  {
    if steps == [] then s else After(Apply(s, steps[0]), steps[1..])
  }

  ghost predicate Reaches(s: State, t: State) {
    exists steps :: Legal(s, steps) && After(s, steps) == t
  }

  ghost predicate ReachesInOrder(s: State, t: State) {
    exists steps :: Legal(s, steps) && AllOrderly(s, steps) && After(s, steps) == t
  }

  /** A state some run of a new log ends in. */
  ghost predicate Reachable(s: State) {
    exists s0 :: NewLog(s0) && Reaches(s0, s)
  }

  ghost predicate ReachableInOrder(s: State) {
    exists s0 :: NewLog(s0) && ReachesInOrder(s0, s)
  }

  lemma NewLogOk(s: State)
    requires NewLog(s)
    ensures Inv(s)
  {
  }

  lemma {:induction false} RunSafe(s: State, steps: seq<Step>)
    requires Safe(s) && Legal(s, steps)
    ensures Safe(After(s, steps))
    decreases |steps|
  {
    hide Safe, Enabled, Apply;
    if steps != [] {
      StepSafe(s, steps[0]);
      RunSafe(Apply(s, steps[0]), steps[1..]);
    }
  }

  lemma {:induction false} RunKeeps(s: State, steps: seq<Step>)
    requires Inv(s) && Legal(s, steps) && AllOrderly(s, steps)
    ensures Inv(After(s, steps))
    decreases |steps|
  {
    hide Inv, Enabled, Orderly, Apply;
    if steps != [] {
      StepKeeps(s, steps[0]);
      RunKeeps(Apply(s, steps[0]), steps[1..]);
    }
  }

  lemma ReachableSafe(s: State)
    requires Reachable(s)
    ensures Safe(s)
  {
    hide Safe, Tidy, Enabled, Apply;
    var s0 :| NewLog(s0) && Reaches(s0, s);
    var steps :| Legal(s0, steps) && After(s0, steps) == s;
    NewLogOk(s0);
    RunSafe(s0, steps);
  }

  lemma ReachableTidy(s: State)
    requires ReachableInOrder(s)
    ensures Inv(s)
  {
    hide Inv, Enabled, Orderly, Apply;
    var s0 :| NewLog(s0) && ReachesInOrder(s0, s);
    var steps :| Legal(s0, steps) && AllOrderly(s0, steps) && After(s0, steps) == s;
    NewLogOk(s0);
    RunKeeps(s0, steps);
  }

  /** What holds of the tables in every reachable state. */
  lemma ReachableTables(s: State)
    requires Reachable(s)
    ensures FilesOk(s.d) && Legs(s.d) && Watermark(s.d) && TierRow(s.d)
  {
    hide Reachable, FilesOk, Legs, Watermark, TierRow, OpSafe;
    ReachableSafe(s);
  }

  lemma ReachableOp(s: State, id: nat)
    requires Reachable(s) && id in s.ops
    ensures OpSafe(s.d, s.ops[id])
  {
    hide Reachable, SafeOk, OpSafe;
    ReachableSafe(s);
  }

  // ----- every reachable state, whatever ran -----

  /** Whatever ran and wherever it stopped, each committed row is readable from
      some tier until truncation removes it. */
  lemma NothingLost(s: State, r: nat)
    requires Reachable(s) && r in s.d.committed && s.d.low <= r
    ensures r in s.d.buffer || Holds(s.d.staging, r) || Holds(s.d.published, r)
  {
    hide Reachable, FilesOk, Watermark, TierRow;
    ReachableTables(s);
  }

  /** A buffered row below the staging table's end is already in a file. */
  lemma BufferedBelowStaging(s: State, r: nat)
    requires Reachable(s) && r in s.d.buffer && r < End(s.d.staging)
    ensures Holds(s.d.staging, r) || Holds(s.d.published, r)
  {
    hide Reachable, Watermark, TierRow, Tight, Loose;
    ReachableTables(s);
  }

  /** Neither table holds a row twice. */
  lemma FiledOnce(s: State, f: File, g: File, r: nat)
    requires Reachable(s) && r in f.rows && r in g.rows
    requires (f in s.d.staging && g in s.d.staging) || (f in s.d.published && g in s.d.published)
    ensures f == g
  {
    hide Reachable, Legs, Watermark, TierRow;
    ReachableTables(s);
    if f in s.d.staging && g in s.d.staging {
      assert Tight(f, s.d.committed) && Tight(g, s.d.committed);
    }
  }

  /** The watermark claims only rows the published table holds. */
  lemma WatermarkPublished(s: State, r: nat)
    requires Reachable(s) && r in s.d.committed && s.d.low <= r <= s.d.through
    ensures Holds(s.d.published, r)
  {
    hide Reachable, FilesOk, Legs, TierRow;
    ReachableTables(s);
  }

  /** A bulk load registers: nothing filed or published reaches its range. */
  lemma LoadNeverDeclined(s: State, id: nat, path: nat, start: nat, end: nat)
    requires Reachable(s) && Enabled(s, RegisterIngest(id, path, start, end))
    ensures !Filed(s.d, end) && Frontier(s.d) <= start
  {
    hide Reachable, Legs, TierRow, Tight, Loose;
    ReachableTables(s);
    ReachableOp(s, id);
    LoadAbove(s.d, File(path, start, end, Sequence(start, end - start)));
  }

  /** A merge and an eviction remove whole files: none straddles the range they delete. */
  lemma CommitsRemoveWholeFiles(s: State, id: nat)
    requires Reachable(s) && id in s.ops
    ensures s.ops[id].Dropping? ==>
      forall f :: f in s.d.staging ==> f.end <= s.ops[id].below || s.ops[id].below <= f.start
    ensures s.ops[id].Merged? ==>
      forall f :: f in s.d.staging ==>
        f in s.ops[id].run || f.end <= Start(s.ops[id].run) || End(s.ops[id].run) <= f.start
    ensures s.ops[id].Truncating? ==>
      forall f :: f in s.d.staging + s.d.published ==> f.end <= s.ops[id].floor || s.ops[id].floor <= f.start
  {
    hide Reachable, FilesOk, Legs, Watermark, TierRow;
    ReachableTables(s);
    ReachableOp(s, id);
    if s.ops[id].Merged? { RunApart(s.d, s.ops[id].run); }
  }

  // ----- every state an orderly run reaches -----

  /** Watermark and intents together cover every offset of every registered file. */
  lemma WatermarkBrackets(s: State, p: File, o: nat)
    requires ReachableInOrder(s) && p in s.d.published && p.start <= o < p.end
    ensures MaybePublished(s.d, o)
  {
    hide ReachableInOrder, SafeOk, OpSafe, OpNeat, Uncut, Aligned;
    ReachableTidy(s);
    if s.d.through < o { assert AsIntent(p) in s.d.intents; }
  }

  /** A published file lies wholly inside or wholly outside every staging file: so
      a merged file owed a swap replaces whole published files. */
  lemma SwapsLineUp(s: State, f: File, p: File)
    requires ReachableInOrder(s) && f in s.d.staging && p in s.d.published
    ensures Apart(p, f) || (f.start <= p.start && p.end <= f.end)
  {
    hide ReachableInOrder, Legs, Watermark, TierRow, OpSafe, OpNeat, Covered, Tight, Loose;
    ReachableTidy(s);
    assert !Inside(f.start, p) && !Inside(f.end, p);
  }

  /** A swap removes whole published files and writes nothing but the file swapped in. */
  lemma SwapsRemoveWholeFiles(s: State, id: nat, confirm: nat, cuts: set<File>)
    requires ReachableInOrder(s) && Enabled(s, CommitSwap(id, confirm, cuts))
    ensures cuts == {}
    ensures forall p :: p in s.d.published ==>
      Apart(p, s.ops[id].phase.merged)
      || (s.ops[id].phase.merged.start <= p.start && p.end <= s.ops[id].phase.merged.end)
    ensures Write(s, CommitSwap(id, confirm, cuts)).published
            == Outside(s.d.published, s.ops[id].phase.merged.start, s.ops[id].phase.merged.end)
               + {s.ops[id].phase.merged}
  {
    hide ReachableInOrder, Inv, FilesOk, Legs, Watermark, Neat, OpSafe, OpNeat, CutsOk, SwapIn;
    ReachableTidy(s);
    Parts(s);
    Part(s, id);
    SwappingNeat(s.d, s.ops[id]);
    FitCutsNothing(s.d, s.ops[id].phase.merged, cuts);
  }

  // ----- every step, whatever ran before -----

  ghost predicate StagingStep(step: Step) {
    step.RegisterSeal? || step.RegisterIngest? || step.CommitMerge? || step.CommitEvict?
    || step.TruncateStaging?
  }

  lemma OtherStepsKeepStaging(s: State, step: Step)
    requires Enabled(s, step) && !StagingStep(step)
    ensures Write(s, step).staging == s.d.staging
  {
  }

  /** The staging table after each step that changes it. */
  lemma StagingAfter(s: State, step: Step)
    requires Enabled(s, step) && StagingStep(step)
    ensures step.id in s.ops
    ensures step.RegisterSeal? ==>
      && s.ops[step.id].Sealed?
      && Write(s, step) == RegisterFile(s.d, s.ops[step.id].file)
    ensures step.RegisterIngest? ==>
      Write(s, step) == IngestFile(s.d, File(step.path, step.start, step.end, Sequence(step.start, step.end - step.start)))
    ensures step.CommitMerge? ==>
      && s.ops[step.id].Merged?
      && Write(s, step) == ReplaceRun(s.d, s.ops[step.id].run, s.ops[step.id].outputs)
    ensures step.CommitEvict? ==>
      && s.ops[step.id].Dropping?
      && Write(s, step) == Evicted(s.d, s.ops[step.id].below)
    ensures step.TruncateStaging? ==>
      && s.ops[step.id] == Truncating(s.ops[step.id].floor, 1)
      && Write(s, step) == Evicted(Leaving(s.d, s.ops[step.id].floor), s.ops[step.id].floor)
  {
  }

  /** Rows leave the buffer and the staging table only once they are published. */
  lemma EvictionOnlyPublished(s: State, step: Step, r: nat)
    requires Reachable(s) && Enabled(s, step) && s.d.low <= r && r in s.d.committed
    ensures r in s.d.buffer && r !in Write(s, step).buffer ==> Holds(s.d.published, r)
    ensures Holds(s.d.staging, r) && !Holds(Write(s, step).staging, r) ==> Holds(s.d.published, r)
  {
    hide *;
    ReachableSafe(s);
    BufferOnlyPublished(s, step, r);
    StagingOnlyPublished(s, step, r);
  }

  lemma BufferOnlyPublished(s: State, step: Step, r: nat)
    requires Safe(s) && Enabled(s, step) && s.d.low <= r && r in s.d.committed
    ensures r in s.d.buffer && r !in Write(s, step).buffer ==> Holds(s.d.published, r)
  {
    hide Safe, FilesOk, Legs, Write, Enabled, OpSafe;
    SafeParts(s);
    if step.TruncateBuffer? { TruncatesTo(s, step.id); }
    assert r <= s.d.through ==> Holds(s.d.published, r);
    BufferAfter(s, step, r);
  }

  /** Only an eviction's pass and a truncation take rows from the buffer. */
  lemma BufferAfter(s: State, step: Step, r: nat)
    requires Enabled(s, step)
    ensures r in s.d.buffer && r !in Write(s, step).buffer ==>
      || (step.EvictBuffer? && r < step.below <= s.d.through + 1)
      || (step.TruncateBuffer? && step.id in s.ops && s.ops[step.id].Truncating? && r < s.ops[step.id].floor)
  {
  }

  lemma TruncatesTo(s: State, id: nat)
    requires Safe(s)
    ensures id in s.ops && s.ops[id].Truncating? ==> s.ops[id].floor <= s.d.through + 1
  {
    hide SafeOk, NoneClash;
  }

  lemma SafeParts(s: State)
    requires Safe(s)
    ensures SafeOk(s.d) && FilesOk(s.d) && Legs(s.d) && Watermark(s.d)
  {
    hide FilesOk, Legs, Watermark, TierRow, OpSafe;
  }

  lemma StagingOnlyPublished(s: State, step: Step, r: nat)
    requires Safe(s) && Enabled(s, step) && s.d.low <= r && r in s.d.committed
    ensures Holds(s.d.staging, r) && !Holds(Write(s, step).staging, r) ==> Holds(s.d.published, r)
  {
    hide *;
    if StagingStep(step) {
      StagingLeaves(s, step, r);
    } else {
      OtherStepsKeepStaging(s, step);
    }
  }

  lemma StagingLeaves(s: State, step: Step, r: nat)
    requires Safe(s) && Enabled(s, step) && StagingStep(step) && s.d.low <= r && r in s.d.committed
    ensures Holds(s.d.staging, r) && !Holds(Write(s, step).staging, r) ==> Holds(s.d.published, r)
  {
    hide Safe, Enabled, Write, OpSafe, FilesOk, Legs, Watermark, Holds, MergeOk;
    StagingAfter(s, step);
    InFlight(s, step.id);
    SafeParts(s);
    match step
    case RegisterSeal(id) => GrownHolds(s.d.staging, Write(s, step).staging, r);
    case RegisterIngest(id, path, start, end) => GrownHolds(s.d.staging, Write(s, step).staging, r);
    case CommitMerge(id) =>
      MergedIsOk(s.d, s.ops[id]);
      ReplacedRows(s.d, s.ops[id].run, s.ops[id].outputs);
    case CommitEvict(id) =>
      DroppingIsOk(s.d, s.ops[id]);
      DroppedPublished(s.d, s.ops[id].below, r);
    case TruncateStaging(id) =>
      TruncatesBelow(s.d, s.ops[id]);
      DroppedPublished(s.d, s.ops[id].floor, r);
  }

  lemma TruncatesBelow(d: Tables, op: Op)
    requires op.Truncating? && OpSafe(d, op)
    ensures op.floor <= d.through + 1
  {
  }

  lemma GrownHolds(a: set<File>, b: set<File>, r: nat)
    requires a <= b
    ensures Holds(a, r) ==> Holds(b, r)
  {
  }

  lemma DroppedPublished(d: Tables, below: nat, r: nat)
    requires FilesOk(d) && Watermark(d)
    requires below <= d.through + 1 && d.low <= r && r in d.committed
    ensures Holds(d.staging, r) && !Holds(Above(d.staging, below), r) ==> Holds(d.published, r)
  {
    hide Disjoint, UniquePaths, RowsApart, Loose;
    if Holds(d.staging, r) && !Holds(Above(d.staging, below), r) {
      var f :| f in d.staging && r in f.rows;
      assert Tight(f, d.committed);
      assert f !in Above(d.staging, below);
      assert Holds(d.published, r);
    }
  }

  /** Only rows never filed before enter the staging table: no merge brings an
      evicted row back, and no seal registers a group twice. */
  lemma NothingResurrected(s: State, step: Step, r: nat)
    requires Reachable(s) && Enabled(s, step)
    requires !Holds(s.d.staging, r) && Holds(Write(s, step).staging, r)
    ensures Frontier(s.d) <= r && s.d.low <= r
  {
    hide *;
    ReachableSafe(s);
    EntersUnfiled(s, step, r);
  }

  lemma EntersUnfiled(s: State, step: Step, r: nat)
    requires Safe(s) && Enabled(s, step)
    requires !Holds(s.d.staging, r) && Holds(Write(s, step).staging, r)
    ensures Frontier(s.d) <= r && s.d.low <= r
  {
    hide *;
    if StagingStep(step) {
      StagingEnters(s, step, r);
    } else {
      OtherStepsKeepStaging(s, step);
    }
  }

  lemma StagingEnters(s: State, step: Step, r: nat)
    requires Safe(s) && Enabled(s, step) && StagingStep(step)
    requires !Holds(s.d.staging, r) && Holds(Write(s, step).staging, r)
    ensures Frontier(s.d) <= r && s.d.low <= r
  {
    hide Safe, Write, OpSafe, FilesOk, Legs, Watermark, MergeOk;
    StagingAfter(s, step);
    InFlight(s, step.id);
    SafeParts(s);
    match step
    case RegisterSeal(id) => SealEnters(s.d, s.ops[id].file, r);
    case RegisterIngest(id, path, start, end) =>
      var f := File(path, start, end, Sequence(start, end - start));
      LoadIsOk(s, id, path, start, end);
      LoadAbove(s.d, f);
    case CommitMerge(id) =>
      MergedIsOk(s.d, s.ops[id]);
      ReplacedRows(s.d, s.ops[id].run, s.ops[id].outputs);
    case CommitEvict(id) =>
    case TruncateStaging(id) =>
  }

  lemma SealEnters(d: Tables, f: File, r: nat)
    requires FilesOk(d) && OpSafe(d, Sealed(f))
    requires !Holds(d.staging, r) && Holds(RegisterFile(d, f).staging, r)
    ensures Frontier(d) <= r && d.low <= r
  {
    hide Disjoint, UniquePaths, RowsApart, Loose;
    assert !Filed(d, f.end);
    assert Tight(f, d.committed);
  }

  /** A file that leaves the staging table is in the deletion queue by then. */
  lemma LeavesQueued(s: State, step: Step, f: File)
    requires Reachable(s) && Enabled(s, step)
    requires f in s.d.staging && f !in Write(s, step).staging
    ensures f.path in Write(s, step).queued
  {
    hide *;
    ReachableSafe(s);
    GoneQueued(s, step, f);
  }

  lemma GoneQueued(s: State, step: Step, f: File)
    requires Safe(s) && Enabled(s, step)
    requires f in s.d.staging && f !in Write(s, step).staging
    ensures f.path in Write(s, step).queued
  {
    hide *;
    if StagingStep(step) {
      StagingGone(s, step, f);
    } else {
      OtherStepsKeepStaging(s, step);
    }
  }

  lemma StagingGone(s: State, step: Step, f: File)
    requires Safe(s) && Enabled(s, step) && StagingStep(step)
    requires f in s.d.staging && f !in Write(s, step).staging
    ensures f.path in Write(s, step).queued
  {
    hide Safe, Write, FilesOk, Legs, Watermark;
    StagingAfter(s, step);
    InFlight(s, step.id);
    SafeParts(s);
    match step
    case CommitMerge(id) => RunApart(s.d, s.ops[id].run);
    case CommitEvict(id) =>
    case TruncateStaging(id) => assert f in Dropped(s.d, s.ops[id].floor);
    case RegisterSeal(id) =>
    case RegisterIngest(id, path, start, end) =>
  }
}
