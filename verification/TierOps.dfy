/** What each operation in flight relies on in every run survives each step another
    takes: by its claim when that step changes the files, and otherwise because it
    only relies on what never shrinks. */
module TierOps {
  import opened Options
  import opened TierState
  import opened TierSteps
  import opened TierTables
  import opened TierMerge
  import opened TierPublish
  import opened TierEvict

  // ----- steps that leave both tables' files alone -----

  ghost predicate Quiet(d: Tables, e: Tables) {
    && e.committed == d.committed && e.low == d.low
    && e.staging == d.staging && e.published == d.published
    && d.through <= e.through && d.queued <= e.queued
    && d.written <= e.written
    && e.buffer <= d.buffer
    && (e.tier.Some? ==> d.tier.Some? && d.tier.value <= e.tier.value)
  }

  lemma QuietKeeps(d: Tables, e: Tables, op: Op)
    requires Quiet(d, e) && OpSafe(d, op)
    ensures OpSafe(e, op)
  {
    hide AllPublished, Whole, Rewritten;
    match op
    case Publishing(range, phase) => QuietPhase(d, e, range, phase);
    case Confirming(end, paths) => QuietPublished(d, e, end);
    case Compacting(run) => QuietRun(d, e, run, {});
    case Checked(run) => QuietRun(d, e, run, {});
    case Merging(run, floor) => QuietRun(d, e, run, {});
    case Merged(run, floor, outputs) => QuietRun(d, e, run, outputs);
    case _ =>
  }

  lemma QuietRun(d: Tables, e: Tables, run: set<File>, outputs: set<File>)
    requires Quiet(d, e) && Whole(d, run)
    ensures Whole(e, run)
    ensures Rewritten(d, run, outputs) ==> Rewritten(e, run, outputs)
  {
    hide Disjoint, Holds;
  }

  lemma QuietPublished(d: Tables, e: Tables, end: nat)
    requires Quiet(d, e) && AllPublished(d, end)
    ensures AllPublished(e, end)
  {
    hide Holds;
  }

  lemma QuietPhase(d: Tables, e: Tables, range: Range, phase: Phase)
    requires Quiet(d, e) && RangeOk(d, range) && PhaseSafe(d, range, phase)
    ensures RangeOk(e, range) && PhaseSafe(e, range, phase)
  {
    hide AllPublished;
    if phase.Looked? || phase.Noted? { QuietPublished(d, e, phase.floor); }
  }

  /** What a publish saw stays true while the tables only move forward. */
  lemma ViewCarries(d: Tables, e: Tables, range: Range, phase: Phase)
    requires PhaseSafe(d, range, phase) && !phase.Pushing?
    requires e.low == d.low && d.written <= e.written
    requires End(d.published) <= End(e.published) && Frontier(d) <= Frontier(e)
    requires phase.Looked? || phase.Noted? ==> AllPublished(e, phase.floor)
    ensures PhaseSafe(e, range, phase)
  {
    hide AllPublished, Frontier;
  }

  lemma LookedPublished(d: Tables, range: Range, phase: Phase)
    requires PhaseSafe(d, range, phase) && (phase.Looked? || phase.Noted?)
    ensures AllPublished(d, phase.floor)
  {
    hide AllPublished;
  }

  // ----- rows appended -----

  lemma AppendKeepsOp(d: Tables, count: nat, op: Op)
    requires SafeOk(d) && OpSafe(d, op) && !op.Ingesting?
    ensures OpSafe(Appended(d, count), op)
  {
    hide SafeOk, GroupOk, Whole, Rewritten, AllPublished, PhaseSafe;
    assert FilesOk(d) by { SafeFiles(d); }
    match op
    case Sealing(lo, hi) => AppendKeepsGroup(d, count, lo, hi);
    case Sealed(f) => AppendKeepsGroup(d, count, f.start, f.end);
    case Compacting(run) => AppendKeepsRun(d, count, run, {});
    case Checked(run) => AppendKeepsRun(d, count, run, {});
    case Merging(run, floor) => AppendKeepsRun(d, count, run, {});
    case Merged(run, floor, outputs) => AppendKeepsRun(d, count, run, outputs);
    case Truncating(floor, stage) => AppendKeepsTruncating(d, count, floor, stage);
    case Confirming(end, paths) => AppendKeepsPublished(d, count, end);
    case Evicting(hi) =>
    case Dropping(hi, below) => AppendKeepsDropping(d, count, hi, below);
    case Publishing(range, phase) => AppendKeepsPhase(d, count, range, phase);
  }

  lemma SafeFiles(d: Tables)
    requires SafeOk(d)
    ensures FilesOk(d) && Legs(d) && Watermark(d)
  {
  }

  lemma AppendKeepsPhase(d: Tables, count: nat, range: Range, phase: Phase)
    requires FilesOk(d) && PhaseSafe(d, range, phase)
    ensures PhaseSafe(Appended(d, count), range, phase)
  {
    hide AllPublished;
    if phase.Looked? || phase.Noted? { AppendKeepsPublished(d, count, phase.floor); }
  }

  lemma AppendKeepsDropping(d: Tables, count: nat, hi: nat, below: nat)
    requires OpSafe(d, Dropping(hi, below))
    ensures OpSafe(Appended(d, count), Dropping(hi, below))
  {
  }

  lemma AppendKeepsGroup(d: Tables, count: nat, lo: nat, hi: nat)
    requires FilesOk(d) && GroupOk(d, lo, hi)
    ensures GroupOk(Appended(d, count), lo, hi)
    ensures Filed(d, hi) ==> Filed(Appended(d, count), hi)
  {
    assert forall r :: r in d.committed ==> r < d.next;
  }

  lemma AppendKeepsTruncating(d: Tables, count: nat, floor: nat, stage: nat)
    requires FilesOk(d) && OpSafe(d, Truncating(floor, stage))
    ensures OpSafe(Appended(d, count), Truncating(floor, stage))
  {
  }

  lemma AppendKeepsPublished(d: Tables, count: nat, end: nat)
    requires FilesOk(d) && AllPublished(d, end)
    ensures AllPublished(Appended(d, count), end)
  {
    var e := Appended(d, count);
    forall r | r in e.committed && e.low <= r < end ensures Holds(e.published, r) {
      assert Holds(d.published, r);
    }
  }

  lemma AppendKeepsRun(d: Tables, count: nat, run: set<File>, outputs: set<File>)
    requires FilesOk(d) && Whole(d, run)
    ensures Whole(Appended(d, count), run)
    ensures Rewritten(d, run, outputs) ==> Rewritten(Appended(d, count), run, outputs)
  {
    FrontierIssued(d);
    assert End(run) <= d.next;
  }

  // ----- a file added on top of the staging table -----

  /** What a sealed file's registration may go by. */
  ghost predicate SealedOnTop(d: Tables, f: File) {
    && f.start < f.end && f.start in d.committed
    && (forall g :: g in d.staging ==> g.start < g.end)
    && Head(d, f.start)
  }

  lemma StagedKeepsOp(d: Tables, f: File, op: Op)
    requires SealedOnTop(d, f) && OpSafe(d, op) && !op.Ingesting? && !op.Truncating?
    requires ClaimOf(op).Some? ==> !Clashes(Span(f.start, f.end), ClaimOf(op).value)
    ensures OpSafe(d.(staging := d.staging + {f}), op)
  {
    hide *;
    match op
    case Sealing(_, _) => StagedKeepsSeal(d, f, op);
    case Sealed(_) => StagedKeepsSeal(d, f, op);
    case Dropping(hi, below) => StagedKeepsDropping(d, f, hi, below);
    case Publishing(range, phase) => StagedKeepsPublishing(d, f, range, phase);
    case Compacting(_) => StagedKeepsMerge(d, f, op);
    case Checked(_) => StagedKeepsMerge(d, f, op);
    case Merging(_, _) => StagedKeepsMerge(d, f, op);
    case Merged(_, _, _) => StagedKeepsMerge(d, f, op);
    case Evicting(_) => StagedKeepsIdle(d, f, op);
    case Confirming(_, _) => StagedKeepsIdle(d, f, op);
    case Ingesting =>
    case Truncating(_, _) =>
  }

  lemma StagedKeepsSeal(d: Tables, f: File, op: Op)
    requires SealedOnTop(d, f) && OpSafe(d, op) && (op.Sealing? || op.Sealed?)
    requires ClaimOf(op).Some? ==> !Clashes(Span(f.start, f.end), ClaimOf(op).value)
    ensures OpSafe(d.(staging := d.staging + {f}), op)
  {
    hide GroupOk, Filed, Head;
    if op.Sealing? {
      StagedKeepsGroup(d, f, op.lo, op.hi);
    } else {
      StagedKeepsGroup(d, f, op.file.start, op.file.end);
    }
  }

  lemma StagedKeepsMerge(d: Tables, f: File, op: Op)
    requires OpSafe(d, op) && (op.Compacting? || op.Checked? || op.Merging? || op.Merged?)
    ensures OpSafe(d.(staging := d.staging + {f}), op)
  {
    hide Whole, Rewritten;
    StagedKeepsRun(d, f, op.run, if op.Merged? then op.outputs else {});
  }

  lemma StagedKeepsIdle(d: Tables, f: File, op: Op)
    requires OpSafe(d, op) && (op.Evicting? || op.Confirming?)
    ensures OpSafe(d.(staging := d.staging + {f}), op)
  {
    hide AllPublished;
    if op.Confirming? { StagedKeepsPublished(d, f, op.end); }
  }

  lemma StagedKeepsRun(d: Tables, f: File, run: set<File>, outputs: set<File>)
    requires Whole(d, run)
    ensures var e := d.(staging := d.staging + {f});
      Whole(e, run) && (Rewritten(d, run, outputs) ==> Rewritten(e, run, outputs))
  {
    hide Holds, Disjoint;
  }

  lemma StagedKeepsPublished(d: Tables, f: File, end: nat)
    requires AllPublished(d, end)
    ensures AllPublished(d.(staging := d.staging + {f}), end)
  {
    hide Holds;
  }

  /** Two groups that both start at the first unfiled row are the same one. */
  lemma StagedKeepsGroup(d: Tables, f: File, lo: nat, hi: nat)
    requires SealedOnTop(d, f)
    requires GroupOk(d, lo, hi) && !Clashes(Span(f.start, f.end), Span(lo, hi))
    ensures GroupOk(d.(staging := d.staging + {f}), lo, hi)
    ensures Filed(d, hi) ==> Filed(d.(staging := d.staging + {f}), hi)
  {
    StagedSpan(d, f);
  }

  lemma StagedKeepsDropping(d: Tables, f: File, hi: nat, below: nat)
    requires SealedOnTop(d, f)
    requires OpSafe(d, Dropping(hi, below))
    ensures OpSafe(d.(staging := d.staging + {f}), Dropping(hi, below))
  {
    StagedSpan(d, f);
  }

  lemma StagedKeepsPublishing(d: Tables, f: File, range: Range, phase: Phase)
    requires SealedOnTop(d, f)
    requires OpSafe(d, Publishing(range, phase))
    ensures OpSafe(d.(staging := d.staging + {f}), Publishing(range, phase))
  {
    hide AllPublished, PhaseSafe;
    StagedSpan(d, f);
    if phase.Pushing? {
      StagedKeepsPushing(d, f, range, phase);
    } else {
      if phase.Looked? || phase.Noted? {
        LookedPublished(d, range, phase);
        StagedKeepsPublished(d, f, phase.floor);
      }
      ViewCarries(d, d.(staging := d.staging + {f}), range, phase);
    }
  }

  lemma StagedKeepsPushing(d: Tables, f: File, range: Range, phase: Phase)
    requires SealedOnTop(d, f) && phase.Pushing? && PhaseSafe(d, range, phase)
    ensures PhaseSafe(d.(staging := d.staging + {f}), range, phase)
  {
  }

  // ----- a merge committed -----

  lemma MergeKeepsOp(d: Tables, run: set<File>, outputs: set<File>, op: Op)
    requires FilesOk(d) && MergeOk(d, run, outputs) && OpSafe(d, op)
    requires !op.Ingesting? && !op.Truncating?
    requires ClaimOf(op).Some? ==> !Clashes(Span(Start(run), End(run)), ClaimOf(op).value)
    ensures OpSafe(ReplaceRun(d, run, outputs), op)
  {
    hide *;
    match op
    case Sealing(_, _) => MergeKeepsSeal(d, run, outputs, op);
    case Sealed(_) => MergeKeepsSeal(d, run, outputs, op);
    case Compacting(_) => MergeKeepsMerge(d, run, outputs, op);
    case Checked(_) => MergeKeepsMerge(d, run, outputs, op);
    case Merging(_, _) => MergeKeepsMerge(d, run, outputs, op);
    case Merged(_, _, _) => MergeKeepsMerge(d, run, outputs, op);
    case Dropping(hi, below) => MergeKeepsDropping(d, run, outputs, op);
    case Publishing(range, phase) => MergeKeepsPublishing(d, run, outputs, op);
    case Evicting(_) => MergeKeepsIdle(d, run, outputs, op);
    case Confirming(_, _) => MergeKeepsIdle(d, run, outputs, op);
    case Ingesting =>
    case Truncating(_, _) =>
  }

  lemma MergeKeepsSeal(d: Tables, run: set<File>, outputs: set<File>, op: Op)
    requires FilesOk(d) && MergeOk(d, run, outputs) && OpSafe(d, op) && (op.Sealing? || op.Sealed?)
    ensures OpSafe(ReplaceRun(d, run, outputs), op)
  {
    hide FilesOk, MergeOk, GroupOk, Filed;
    if op.Sealing? {
      MergeKeepsGroup(d, run, outputs, op.lo, op.hi);
    } else {
      MergeKeepsGroup(d, run, outputs, op.file.start, op.file.end);
    }
  }

  lemma MergeKeepsMerge(d: Tables, run: set<File>, outputs: set<File>, op: Op)
    requires FilesOk(d) && MergeOk(d, run, outputs) && OpSafe(d, op)
    requires op.Compacting? || op.Checked? || op.Merging? || op.Merged?
    requires ClaimOf(op).Some? ==> !Clashes(Span(Start(run), End(run)), ClaimOf(op).value)
    ensures OpSafe(ReplaceRun(d, run, outputs), op)
  {
    hide FilesOk, MergeOk, Whole, Rewritten, ReplaceRun;
    MergeKeepsRun(d, run, outputs, op.run, if op.Merged? then op.outputs else {});
    if !op.Compacting? { OtherRunKept(d, run, outputs, op.run); }
  }

  lemma MergeKeepsIdle(d: Tables, run: set<File>, outputs: set<File>, op: Op)
    requires OpSafe(d, op) && (op.Evicting? || op.Confirming?)
    ensures OpSafe(ReplaceRun(d, run, outputs), op)
  {
    hide AllPublished;
    if op.Confirming? { MergeKeepsPublished(d, run, outputs, op.end); }
  }

  lemma MergeKeepsPublished(d: Tables, run: set<File>, outputs: set<File>, end: nat)
    requires AllPublished(d, end)
    ensures AllPublished(ReplaceRun(d, run, outputs), end)
  {
    hide Holds;
  }

  lemma MergeKeepsGroup(d: Tables, run: set<File>, outputs: set<File>, lo: nat, hi: nat)
    requires FilesOk(d) && MergeOk(d, run, outputs) && GroupOk(d, lo, hi)
    ensures GroupOk(ReplaceRun(d, run, outputs), lo, hi)
    ensures Filed(d, hi) ==> Filed(ReplaceRun(d, run, outputs), hi)
  {
    hide FilesOk, MergeOk, Holds;
    ReplacedSpan(d, run, outputs);
  }

  lemma MergeKeepsRun(d: Tables, run: set<File>, outputs: set<File>, other: set<File>, files: set<File>)
    requires Whole(d, other)
    ensures var e := ReplaceRun(d, run, outputs);
      Whole(e, other) && (Rewritten(d, other, files) ==> Rewritten(e, other, files))
  {
    hide Holds, Disjoint;
  }

  lemma OtherRunKept(d: Tables, run: set<File>, outputs: set<File>, other: set<File>)
    requires FilesOk(d) && MergeOk(d, run, outputs)
    requires Whole(d, other) && other <= d.staging
    requires !Clashes(Span(Start(run), End(run)), Span(Start(other), End(other)))
    ensures other <= ReplaceRun(d, run, outputs).staging
  {
    ReplacedIs(d, run, outputs);
    RunApart(d, run);
    RunApart(d, other);
    forall g | g in other ensures g !in run { }
  }

  lemma MergeKeepsDropping(d: Tables, run: set<File>, outputs: set<File>, op: Op)
    requires FilesOk(d) && MergeOk(d, run, outputs)
    requires op.Dropping? && OpSafe(d, op)
    requires ClaimOf(op).Some? ==> !Clashes(Span(Start(run), End(run)), ClaimOf(op).value)
    ensures OpSafe(ReplaceRun(d, run, outputs), op)
  {
    hide FilesOk, MergeOk;
    ReplacedIs(d, run, outputs);
    ReplacedSpan(d, run, outputs);
    RunAbove(d, run, outputs);
  }

  lemma RunAbove(d: Tables, run: set<File>, outputs: set<File>)
    requires FilesOk(d) && MergeOk(d, run, outputs)
    ensures Start(run) < End(run)
    ensures forall o :: o in outputs ==> Start(run) <= o.start < o.end <= End(run)
    ensures forall g :: g in run ==> Start(run) <= g.start && g.end <= End(run)
  {
    RunApart(d, run);
  }

  lemma MergeKeepsPublishing(d: Tables, run: set<File>, outputs: set<File>, op: Op)
    requires FilesOk(d) && MergeOk(d, run, outputs)
    requires op.Publishing? && OpSafe(d, op)
    requires ClaimOf(op).Some? ==> !Clashes(Span(Start(run), End(run)), ClaimOf(op).value)
    ensures OpSafe(ReplaceRun(d, run, outputs), op)
  {
    hide FilesOk, MergeOk, AllPublished;
    if op.phase.Pushing? {
      MergeKeepsPushing(d, run, outputs, op.range, op.phase);
    } else {
      MergeKeepsView(d, run, outputs, op.range, op.phase);
    }
  }

  lemma MergeKeepsView(d: Tables, run: set<File>, outputs: set<File>, range: Range, phase: Phase)
    requires FilesOk(d) && MergeOk(d, run, outputs) && PhaseSafe(d, range, phase) && !phase.Pushing?
    ensures PhaseSafe(ReplaceRun(d, run, outputs), range, phase)
  {
    hide FilesOk, MergeOk, AllPublished, PhaseSafe;
    ReplacedSpan(d, run, outputs);
    if phase.Looked? || phase.Noted? {
      LookedPublished(d, range, phase);
      MergeKeepsPublished(d, run, outputs, phase.floor);
    }
    ViewCarries(d, ReplaceRun(d, run, outputs), range, phase);
  }

  /** A merge meets none of the files a push has under its claim. */
  lemma MergeKeepsPushing(d: Tables, run: set<File>, outputs: set<File>,
                          range: Range, phase: Phase)
    requires FilesOk(d) && MergeOk(d, run, outputs) && phase.Pushing?
    requires OpSafe(d, Publishing(range, phase))
    requires !Clashes(Span(Start(run), End(run)), range)
    ensures PhaseSafe(ReplaceRun(d, run, outputs), range, phase)
  {
    hide FilesOk, MergeOk;
    var files, upTo := phase.files, phase.upTo;
    ReplacedIs(d, run, outputs);
    RunAbove(d, run, outputs);
    assert forall f :: f in d.staging ==> f.start < f.end by { StagingSpans(d); }
    forall u | u in files ensures u !in run { assert u.end <= upTo; }
  }

  lemma StagingSpans(d: Tables)
    requires FilesOk(d)
    ensures forall f :: f in d.staging ==> f.start < f.end
  {
  }

  // ----- an eviction committed -----

  lemma EvictKeepsOp(d: Tables, hi: nat, below: nat, op: Op)
    requires SafeOk(d) && OpSafe(d, op) && OpSafe(d, Dropping(hi, below))
    requires !op.Ingesting? && !op.Truncating?
    requires ClaimOf(op).Some? ==> !Clashes(Span(0, hi), ClaimOf(op).value)
    ensures OpSafe(Evicted(d, below), op)
  {
    hide *;
    match op
    case Sealing(_, _) => EvictKeepsSeal(d, hi, below, op);
    case Sealed(_) => EvictKeepsSeal(d, hi, below, op);
    case Compacting(_) => EvictKeepsMerge(d, hi, below, op);
    case Checked(_) => EvictKeepsMerge(d, hi, below, op);
    case Merging(_, _) => EvictKeepsMerge(d, hi, below, op);
    case Merged(_, _, _) => EvictKeepsMerge(d, hi, below, op);
    case Publishing(_, _) => EvictKeepsPublishing(d, hi, below, op);
    case Confirming(_, _) => EvictKeepsIdle(d, below, op);
    case Evicting(_) => EvictKeepsIdle(d, below, op);
    case Dropping(_, _) => EvictKeepsDropping(d, hi, below, op);
    case Ingesting =>
    case Truncating(_, _) =>
  }

  lemma EvictKeepsSeal(d: Tables, hi: nat, below: nat, op: Op)
    requires SafeOk(d) && OpSafe(d, op) && OpSafe(d, Dropping(hi, below)) && (op.Sealing? || op.Sealed?)
    ensures OpSafe(Evicted(d, below), op)
  {
    hide SafeOk, GroupOk, Filed;
    if op.Sealing? {
      EvictKeepsGroup(d, hi, below, op.lo, op.hi);
    } else {
      EvictKeepsGroup(d, hi, below, op.file.start, op.file.end);
    }
  }

  lemma EvictKeepsMerge(d: Tables, hi: nat, below: nat, op: Op)
    requires SafeOk(d) && OpSafe(d, op) && OpSafe(d, Dropping(hi, below))
    requires op.Compacting? || op.Checked? || op.Merging? || op.Merged?
    requires ClaimOf(op).Some? ==> !Clashes(Span(0, hi), ClaimOf(op).value)
    ensures OpSafe(Evicted(d, below), op)
  {
    hide SafeOk, Whole, Rewritten, Evicted;
    EvictKeepsWhole(d, below, op.run, if op.Merged? then op.outputs else {});
    if !op.Compacting? { EvictKeepsRun(d, hi, below, op.run); }
  }

  lemma EvictKeepsIdle(d: Tables, below: nat, op: Op)
    requires OpSafe(d, op) && (op.Confirming? || op.Evicting?)
    ensures OpSafe(Evicted(d, below), op)
  {
    hide AllPublished;
    if op.Confirming? { EvictKeepsPublished(d, below, op.end); }
  }

  lemma EvictKeepsPublished(d: Tables, below: nat, end: nat)
    requires AllPublished(d, end)
    ensures AllPublished(Evicted(d, below), end)
  {
    hide Holds;
  }

  lemma EvictKeepsGroup(d: Tables, hi: nat, below: nat, lo: nat, up: nat)
    requires SafeOk(d) && GroupOk(d, lo, up) && OpSafe(d, Dropping(hi, below))
    ensures GroupOk(Evicted(d, below), lo, up)
    ensures Filed(d, up) ==> Filed(Evicted(d, below), up)
  {
    hide Legs, TierRow, Tight, Loose;
    EndAbove(d.staging, below);
    EvictedFrontier(d, below);
  }

  /** An eviction takes no row below the frontier: staging emptied is all published. */
  lemma EvictedFrontier(d: Tables, below: nat)
    requires FilesOk(d) && Watermark(d) && EvictOk(d, below)
    ensures Frontier(Evicted(d, below)) == Frontier(d)
  {
    EndAbove(d.staging, below);
    if d.staging != {} && Above(d.staging, below) == {} { EmptiedBelowPublished(d, below); }
  }

  /** Staging evicted to nothing leaves every filed row below the published end. */
  lemma EmptiedBelowPublished(d: Tables, below: nat)
    requires FilesOk(d) && Watermark(d) && EvictOk(d, below)
    requires d.staging != {} && Above(d.staging, below) == {}
    ensures End(d.staging) <= End(d.published)
  {
    EndAbove(d.staging, below);
    var top :| top in d.staging && top.end == End(d.staging);
    assert Tight(top, d.committed);
    assert Holds(d.published, top.end - 1);
    HeldInSpan(d.published, d.committed, top.end - 1);
  }

  lemma EvictKeepsDropping(d: Tables, hi: nat, below: nat, op: Op)
    requires OpSafe(d, Dropping(hi, below)) && op.Dropping? && OpSafe(d, op)
    requires ClaimOf(op).Some? ==> !Clashes(Span(0, hi), ClaimOf(op).value)
    ensures OpSafe(Evicted(d, below), op)
  {
    EndAbove(d.staging, below);
  }

  lemma EvictKeepsWhole(d: Tables, below: nat, run: set<File>, outputs: set<File>)
    requires Whole(d, run)
    ensures var e := Evicted(d, below);
      Whole(e, run) && (Rewritten(d, run, outputs) ==> Rewritten(e, run, outputs))
  {
    hide Holds, Disjoint;
  }

  lemma EvictKeepsRun(d: Tables, hi: nat, below: nat, run: set<File>)
    requires SafeOk(d) && Whole(d, run) && run <= d.staging && below <= hi
    requires !Clashes(Span(0, hi), Span(Start(run), End(run)))
    ensures run <= Evicted(d, below).staging
  {
    RunApart(d, run);
  }

  lemma EvictKeepsPublishing(d: Tables, hi: nat, below: nat, op: Op)
    requires SafeOk(d) && OpSafe(d, Dropping(hi, below)) && op.Publishing? && OpSafe(d, op)
    requires ClaimOf(op).Some? ==> !Clashes(Span(0, hi), ClaimOf(op).value)
    ensures OpSafe(Evicted(d, below), op)
  {
    hide SafeOk, AllPublished;
    if op.phase.Pushing? {
      EvictKeepsPushing(d, hi, below, op.range, op.phase);
    } else {
      EvictKeepsView(d, hi, below, op.range, op.phase);
    }
  }

  lemma EvictKeepsPushing(d: Tables, hi: nat, below: nat, range: Range, phase: Phase)
    requires RangeOk(d, range) && phase.Pushing? && PhaseSafe(d, range, phase) && below <= hi
    requires !Clashes(Span(0, hi), range)
    ensures PhaseSafe(Evicted(d, below), range, phase)
  {
    forall u | u in phase.files ensures below < u.end { }
  }

  lemma EvictKeepsView(d: Tables, hi: nat, below: nat, range: Range, phase: Phase)
    requires SafeOk(d) && OpSafe(d, Dropping(hi, below)) && PhaseSafe(d, range, phase) && !phase.Pushing?
    ensures PhaseSafe(Evicted(d, below), range, phase)
  {
    hide SafeOk, AllPublished, EvictOk, PhaseSafe;
    assert FilesOk(d) && Watermark(d) by { SafeFiles(d); }
    assert EvictOk(d, below) by { DropsOk(d, hi, below); }
    EvictedFrontier(d, below);
    if phase.Looked? || phase.Noted? {
      LookedPublished(d, range, phase);
      EvictKeepsPublished(d, below, phase.floor);
    }
    ViewCarries(d, Evicted(d, below), range, phase);
  }

  lemma DropsOk(d: Tables, hi: nat, below: nat)
    requires OpSafe(d, Dropping(hi, below))
    ensures EvictOk(d, below)
  {
  }

  // ----- a push or a swap committed -----

  /** The published table grew, below what is filed, and lost no row. */
  ghost predicate Grown(d: Tables, e: Tables) {
    && e == d.(published := e.published, names := e.names)
    && End(d.published) <= End(e.published)
    && Frontier(e) == Frontier(d)
    && (forall r: nat {:trigger Holds(e.published, r)} :: Holds(d.published, r) ==> Holds(e.published, r))
    && d.low < End(e.published)
  }

  lemma GrownKeepsOp(d: Tables, e: Tables, op: Op)
    requires Grown(d, e) && OpSafe(d, op) && !op.Truncating?
    ensures OpSafe(e, op)
  {
    hide *;
    match op
    case Publishing(range, phase) => GrownPublishing(d, e, range, phase);
    case Confirming(_, _) => GrownIdle(d, e, op);
    case Compacting(_) => GrownMerge(d, e, op);
    case Checked(_) => GrownMerge(d, e, op);
    case Merging(_, _) => GrownMerge(d, e, op);
    case Merged(_, _, _) => GrownMerge(d, e, op);
    case _ => GrownIdle(d, e, op);
  }

  lemma GrownIdle(d: Tables, e: Tables, op: Op)
    requires Grown(d, e) && OpSafe(d, op) && !op.Truncating? && !op.Publishing?
    requires !op.Compacting? && !op.Checked? && !op.Merging? && !op.Merged?
    ensures OpSafe(e, op)
  {
    hide AllPublished, Holds;
    if op.Confirming? { GrownPublished(d, e, op.end); }
  }

  lemma GrownPublishing(d: Tables, e: Tables, range: Range, phase: Phase)
    requires Grown(d, e) && OpSafe(d, Publishing(range, phase))
    ensures OpSafe(e, Publishing(range, phase))
  {
    hide AllPublished, Holds;
    if phase.Looked? || phase.Noted? { GrownPublished(d, e, phase.floor); }
  }

  lemma GrownMerge(d: Tables, e: Tables, op: Op)
    requires Grown(d, e) && OpSafe(d, op) && (op.Compacting? || op.Checked? || op.Merging? || op.Merged?)
    ensures OpSafe(e, op)
  {
    hide Whole, Rewritten;
    GrownRun(d, e, op.run, if op.Merged? then op.outputs else {});
    assert e.staging == d.staging;
  }

  lemma GrownRun(d: Tables, e: Tables, run: set<File>, outputs: set<File>)
    requires Grown(d, e) && Whole(d, run)
    ensures Whole(e, run) && (Rewritten(d, run, outputs) ==> Rewritten(e, run, outputs))
  {
    hide Disjoint, Holds;
  }

  lemma GrownPublished(d: Tables, e: Tables, end: nat)
    requires Grown(d, e) && AllPublished(d, end)
    ensures AllPublished(e, end)
  {
    forall r | r in e.committed && e.low <= r < end ensures Holds(e.published, r) {
      assert Holds(d.published, r);
    }
    assert 1 <= end && d.low <= end - 1 ==> Holds(d.published, end - 1);
  }

  lemma PushGrown(d: Tables, files: set<File>, upTo: nat)
    requires FilesOk(d) && Legs(d) && PushOk(d, files, upTo)
    ensures Grown(d, Pushed(d, files))
  {
    hide Tight, Loose, RowsApart, UniquePaths, Disjoint;
    PushedSpan(d, files, upTo);
    var u :| u in files && u.end == upTo;
  }

  lemma SwapGrown(d: Tables, m: File, cuts: set<File>)
    requires SafeOk(d) && SwapSeen(d, m) && CutsOk(d, m, cuts)
    ensures Grown(d, SwapIn(d, m, cuts))
  {
    hide Tight, Loose, RowsApart, UniquePaths, Disjoint, CutsOk, SwapIn, Holds;
    SwappedSpan(d, m, cuts);
    SwappedIn(d, m, cuts);
    SwapKeepsRest(d, m, cuts);
  }

  // ----- truncation, and the tier row narrowed: under a claim over everything -----

  lemma CutKeepsPublished(d: Tables, floor: nat, end: nat)
    requires FilesOk(d) && CutOk(d, floor) && AllPublished(d, end)
    ensures AllPublished(CutPublished(d, floor), end)
  {
    var e := CutPublished(d, floor);
    EndAbove(d.published, floor);
    forall r | r in e.committed && e.low <= r < end ensures Holds(e.published, r) {
      assert Holds(d.published, r);
      CutHolds(d, floor, r);
    }
  }

  lemma TierIrrelevant(d: Tables, tier: Option<set<nat>>, op: Op)
    requires OpSafe(d, op) && !op.Dropping?
    ensures OpSafe(d.(tier := tier), op)
  {
    match op
    case Publishing(range, phase) => assert PhaseSafe(d.(tier := tier), range, phase);
    case _ =>
  }

  lemma StagingIrrelevant(d: Tables, e: Tables, end: nat)
    requires AllPublished(d, end)
    requires e.committed == d.committed && e.low == d.low && e.published == d.published
    ensures AllPublished(e, end)
  {
  }

  // ----- the queue drained -----

  lemma DrainKeepsOp(d: Tables, path: nat, op: Op)
    requires OpSafe(d, op) && !NamesIn(d.staging, path)
    ensures OpSafe(d.(queued := d.queued - {path}), op)
  {
    var e := d.(queued := d.queued - {path});
    match op
    case Publishing(range, phase) => assert PhaseSafe(e, range, phase);
    case _ =>
  }
}
