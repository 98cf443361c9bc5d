/** Every orderly step keeps the whole invariant, whatever interleaves with it and
    wherever a crash falls. */
module TierOrderly {
  import opened Options
  import opened TierState
  import opened TierSteps
  import opened TierTables
  import opened TierMerge
  import opened TierPublish
  import opened TierEvict
  import opened TierOps
  import opened TierRuns
  import opened TierTidy

  // ----- putting the operations back together -----

  ghost predicate OthersNeat(s: State, e: Tables, id: nat) {
    forall i :: i in s.ops && i != id ==> OpNeat(e, s.ops[i])
  }

  lemma OneTidied(s: State, e: Tables, id: nat, op: Op)
    requires Neat(e) && OthersNeat(s, e, id) && OpNeat(e, op)
    ensures Tidy(State(e, s.ops[id := op]))
  {
    hide Neat, OpNeat;
  }

  lemma TwoTidied(s: State, e: Tables, id: nat, op: Op, other: nat, second: Op)
    requires Neat(e) && OthersNeat(s, e, id) && OpNeat(e, op) && OpNeat(e, second)
    ensures Tidy(State(e, s.ops[id := op][other := second]))
  {
    hide Neat, OpNeat;
  }

  lemma OneLeft(s: State, e: Tables, id: nat)
    requires Neat(e) && OthersNeat(s, e, id)
    ensures Tidy(State(e, s.ops - {id}))
  {
    hide Neat, OpNeat;
  }

  lemma AllTidied(s: State, e: Tables)
    requires Neat(e) && forall i :: i in s.ops ==> OpNeat(e, s.ops[i])
    ensures Tidy(State(e, s.ops))
  {
    hide Neat, OpNeat;
  }

  /** One operation moves on, past a step that leaves the tables' files alone. */
  lemma Settles(s: State, e: Tables, id: nat, op: Op)
    requires Inv(s) && Still(s.d, e) && KeepsProtected(s.d, e) && Neat(e) && OpNeat(e, op)
    ensures Tidy(State(e, s.ops[id := op]))
  {
    hide Safe, Neat, OpNeat, Still, KeepsProtected;
    StillAll(s, e);
    OneTidied(s, e, id, op);
  }

  lemma Rests(s: State, e: Tables)
    requires Inv(s) && Still(s.d, e) && KeepsProtected(s.d, e) && Neat(e)
    ensures Tidy(State(e, s.ops))
  {
    hide Safe, Neat, OpNeat, Still, KeepsProtected;
    StillAll(s, e);
  }

  lemma Parts(s: State)
    requires Inv(s)
    ensures Safe(s) && SafeOk(s.d) && FilesOk(s.d) && Legs(s.d) && Watermark(s.d)
    ensures Neat(s.d) && Uncut(s.d) && TablesOk(s.d)
  {
    hide FilesOk, Legs, Watermark, TierRow, OpSafe, OpNeat, Covered, Aligned, NoneClash;
  }

  lemma Part(s: State, id: nat)
    requires Inv(s) && id in s.ops
    ensures OpSafe(s.d, s.ops[id]) && OpNeat(s.d, s.ops[id])
  {
    hide SafeOk, OpSafe, OpNeat, Neat, NoneClash;
  }

  lemma PartsApart(s: State, i: nat, j: nat)
    requires Safe(s) && i in s.ops && j in s.ops && i != j
    ensures !Conflict(s.ops[i], s.ops[j])
  {
    hide SafeOk, OpSafe;
  }

  // ----- steps that leave the files alone -----

  ghost predicate Quieter(step: Step) {
    || step.Append? || step.Reserve? || step.WriteSeal? || step.EvictBuffer? || step.WidenTier?
    || step.NarrowTier? || step.Enqueue? || step.Drain? || step.StrayIntent?
  }

  lemma QuieterIsStill(s: State, step: Step)
    requires Enabled(s, step) && Quieter(step)
    ensures var e := Write(s, step);
      Still(s.d, e) && s.d.intents <= e.intents && e.through == s.d.through
  {
  }

  lemma MoreIntents(d: Tables, e: Tables)
    requires d.intents <= e.intents && d.through <= e.through
    ensures KeepsProtected(d, e)
  {
  }

  lemma StillNeat(d: Tables, e: Tables)
    requires Neat(d) && Still(d, e) && d.intents <= e.intents && e.through == d.through
    ensures Neat(e)
  {
    hide Neat;
    NeatAlike(d, e);
  }

  lemma QuieterStep(s: State, step: Step)
    requires Inv(s) && Enabled(s, step) && Quieter(step)
    ensures Tidy(Apply(s, step))
  {
    hide *;
    Parts(s);
    QuieterIsStill(s, step);
    var e := Write(s, step);
    MoreIntents(s.d, e);
    StillNeat(s.d, e);
    QuieterOps(s, step, e);
  }

  lemma QuieterOps(s: State, step: Step, e: Tables)
    requires Inv(s) && Enabled(s, step) && Quieter(step) && e == Write(s, step)
    requires Still(s.d, e) && KeepsProtected(s.d, e) && Neat(e)
    ensures Tidy(Apply(s, step))
  {
    hide Inv, Tidy, Write, Still, KeepsProtected, Neat;
    if step.WriteSeal? {
      Settles(s, e, step.id, Sealed(SealFile(s.d, s.ops[step.id], step.path)));
    } else {
      Rests(s, e);
    }
  }

  /** A claim taken, an operation dropped: the tables are as they were. */
  lemma SameTables(d: Tables)
    ensures Still(d, d) && KeepsProtected(d, d)
  {
  }

  lemma ClaimedTidy(s: State, step: Step, id: nat, op: Op)
    requires Inv(s) && Enabled(s, step) && Takes(s, step, id, op)
    ensures Tidy(Apply(s, step))
  {
    hide *;
    TakesClaim(s, step, id, op);
    TakesNeat(s, step, id, op);
    Parts(s);
    SameTables(s.d);
    Settles(s, s.d, id, op);
  }

  lemma TakesNeat(s: State, step: Step, id: nat, op: Op)
    requires Takes(s, step, id, op)
    ensures OpNeat(s.d, op)
  {
  }

  lemma DropTidy(s: State, id: nat)
    requires Inv(s) && Enabled(s, Drop(id))
    ensures Tidy(Apply(s, Drop(id)))
  {
    hide Safe, Neat, OpNeat;
  }

  // ----- a merge -----

  lemma CheckMergeTidy(s: State, id: nat)
    requires Inv(s) && Enabled(s, CheckMerge(id))
    ensures Tidy(Apply(s, CheckMerge(id)))
  {
    hide *;
    CheckMergeIs(s, id);
    Parts(s);
    CandidatesSettled(s.d, s.ops[id].run);
    CheckedNeat(s.d, s.ops[id].run);
    SameTables(s.d);
    Settles(s, s.d, id, Checked(s.ops[id].run));
  }

  lemma CheckMergeIs(s: State, id: nat)
    requires Enabled(s, CheckMerge(id))
    ensures id in s.ops && s.ops[id].Compacting? && s.ops[id].run <= s.d.staging
    ensures forall f :: f in s.ops[id].run ==> MergeCandidate(s.d, f)
    ensures Apply(s, CheckMerge(id)) == State(s.d, s.ops[id := Checked(s.ops[id].run)])
  {
    hide MergeCandidate;
  }

  lemma CheckedNeat(d: Tables, run: set<File>)
    requires Settled(d, run, d.through + 1)
    ensures OpNeat(d, Checked(run))
  {
  }

  /** No merge candidate meets a published file the watermark does not cover yet. */
  lemma CandidatesSettled(d: Tables, run: set<File>)
    requires TablesOk(d) && run <= d.staging
    requires forall f :: f in run ==> MergeCandidate(d, f)
    ensures Settled(d, run, d.through + 1)
  {
    forall p, f | p in d.published && f in run && !Apart(p, f) ensures p.end <= d.through + 1 {
      if d.through + 1 < p.end { UnsettledNotCandidate(d, p, f); }
    }
  }

  lemma UnsettledNotCandidate(d: Tables, p: File, f: File)
    requires TablesOk(d) && p in d.published && f in d.staging && !Apart(p, f)
    requires d.through + 1 < p.end
    ensures !MergeCandidate(d, f)
  {
    assert !Inside(f.start, p) && !Inside(f.end, p);
    assert p.end <= f.end;
    forall g | g in d.staging && g.start <= f.start ensures CoveredWithIntents(d, g) {
      IntentCovers(d, g);
    }
    assert InClaimedPrefix(d, f);
    assert !CoveredByWatermark(d, f);
    assert !InLandedPrefix(d, f);
  }

  lemma IntentCovers(d: Tables, g: File)
    requires g.end <= d.through + 1 || AsIntent(g) in d.intents
    ensures CoveredWithIntents(d, g)
  {
  }

  lemma ReadFloorTidy(s: State, id: nat)
    requires Inv(s) && Enabled(s, ReadFloor(id))
    ensures Tidy(Apply(s, ReadFloor(id)))
  {
    hide *;
    ReadFloorIs(s, id);
    Part(s, id);
    FloorNeat(s.d, s.ops[id].run);
    SameTables(s.d);
    Parts(s);
    Settles(s, s.d, id, Merging(s.ops[id].run, s.d.through + 1));
  }

  lemma ReadFloorIs(s: State, id: nat)
    requires Enabled(s, ReadFloor(id))
    ensures id in s.ops && s.ops[id].Checked? && s.ops[id] == Checked(s.ops[id].run)
    ensures Apply(s, ReadFloor(id)) == State(s.d, s.ops[id := Merging(s.ops[id].run, s.d.through + 1)])
  {
  }

  lemma FloorNeat(d: Tables, run: set<File>)
    requires OpNeat(d, Checked(run))
    ensures OpNeat(d, Merging(run, d.through + 1))
  {
  }

  lemma WriteMergeTidy(s: State, id: nat, outputs: set<File>)
    requires Inv(s) && Enabled(s, WriteMerge(id, outputs))
    ensures Tidy(Apply(s, WriteMerge(id, outputs)))
  {
    hide Inv, Tidy, Neat, Still, KeepsProtected, Rewrites, OpNeat;
    var op := s.ops[id];
    var e := FilesAdded(s.d, outputs, Paths(outputs));
    Parts(s);
    Part(s, id);
    NeatAlike(s.d, e);
    MoreIntents(s.d, e);
    assert Still(s.d, e) by { OutputsStill(s.d, op.run, op.floor, outputs); }
    OutputsNeat(s.d, op.run, op.floor, outputs);
    Settles(s, e, id, Merged(op.run, op.floor, outputs));
  }

  lemma OutputsStill(d: Tables, run: set<File>, floor: nat, outputs: set<File>)
    requires Rewrites(d, run, floor, outputs)
    ensures Still(d, FilesAdded(d, outputs, Paths(outputs)))
  {
  }

  lemma OutputsNeat(d: Tables, run: set<File>, floor: nat, outputs: set<File>)
    requires OpNeat(d, Merging(run, floor)) && Rewrites(d, run, floor, outputs)
    ensures OpNeat(FilesAdded(d, outputs, Paths(outputs)), Merged(run, floor, outputs))
  {
  }

  lemma CommitMergeTidy(s: State, id: nat)
    requires Inv(s) && Enabled(s, CommitMerge(id))
    ensures Tidy(Apply(s, CommitMerge(id)))
  {
    hide Inv, Tidy, Neat, OpSafe, OpNeat, MergeNeat, ReplaceRun, Conflict, TablesOk, FilesOk, Legs, Watermark;
    var op := s.ops[id];
    var e := ReplaceRun(s.d, op.run, op.outputs);
    Parts(s);
    Part(s, id);
    MergedIsNeat(s.d, op);
    MergeKeepsNeat(s.d, op.run, op.floor, op.outputs);
    forall i | i in s.ops && i != id ensures OpNeat(e, s.ops[i]) {
      Part(s, i);
      PartsApart(s, id, i);
      MergeKeepsOpNeat(s.d, op, s.ops[i]);
    }
    OneLeft(s, e, id);
  }

  lemma MergedIsNeat(d: Tables, op: Op)
    requires op.Merged? && OpSafe(d, op) && OpNeat(d, op)
    ensures MergeNeat(d, op.run, op.floor, op.outputs)
  {
  }

  lemma MergeKeepsOpNeat(d: Tables, merge: Op, op: Op)
    requires SafeOk(d) && merge.Merged? && MergeNeat(d, merge.run, merge.floor, merge.outputs)
    requires OpSafe(d, op) && OpNeat(d, op) && !Conflict(merge, op)
    ensures OpNeat(ReplaceRun(d, merge.run, merge.outputs), op)
  {
    hide SafeOk, MergeNeat, OpNeat, ReplaceRun, SwapFits;
    var e := ReplaceRun(d, merge.run, merge.outputs);
    SafeFiles(d);
    assert StagingOnly(d, e) by { ReplaceIsStaging(d, merge.run, merge.outputs); }
    if op.Publishing? && Fresh(d, op.range) {
      forall m | SwapFits(d, m) ensures SwapFits(e, m) {
        MergeKeepsFit(d, merge.run, merge.floor, merge.outputs, op.range, m);
      }
      NeatMergeIsOk(d, merge.run, merge.floor, merge.outputs);
      MergeStraddles(d, merge.run, merge.outputs, op.range);
    }
    StagingOnlyKeeps(d, e, op);
  }

  lemma NeatMergeIsOk(d: Tables, run: set<File>, floor: nat, outputs: set<File>)
    requires MergeNeat(d, run, floor, outputs)
    ensures MergeOk(d, run, outputs)
  {
  }

  /** A merge's output that straddles the published end would meet the publish's claim. */
  lemma MergeStraddles(d: Tables, run: set<File>, outputs: set<File>, range: Range)
    requires FilesOk(d) && MergeOk(d, run, outputs) && RangeOk(d, range) && Fresh(d, range)
    requires !Clashes(Span(Start(run), End(run)), range)
    ensures NoNewStraddler(d, ReplaceRun(d, run, outputs))
  {
    hide Tight, Loose, UniquePaths, RowsApart, Disjoint;
    RunAbove(d, run, outputs);
    assert d.low <= Start(run) by { RunAboveLow(d, run, outputs); }
    forall o | o in outputs ensures !(o.start < End(d.published) < o.end) { }
  }

  lemma RunAboveLow(d: Tables, run: set<File>, outputs: set<File>)
    requires FilesOk(d) && MergeOk(d, run, outputs)
    ensures d.low <= Start(run)
  {
    var f :| f in run && f.start == Start(run);
  }

  lemma ReplaceIsStaging(d: Tables, run: set<File>, outputs: set<File>)
    ensures StagingOnly(d, ReplaceRun(d, run, outputs))
  {
  }

  // ----- a file registered -----

  lemma RegisterSealTidy(s: State, id: nat)
    requires Inv(s) && Enabled(s, RegisterSeal(id))
    ensures Tidy(Apply(s, RegisterSeal(id)))
  {
    hide Inv, Tidy, Neat, OpSafe, OpNeat, RegisterFile;
    var f := s.ops[id].file;
    var e := RegisterFile(s.d, f);
    Parts(s);
    Part(s, id);
    SealedSpan(s.d, f);
    RegisterNeat(s.d, f);
    forall i | i in s.ops && i != id ensures OpNeat(e, s.ops[i]) {
      Part(s, i);
      RegisterKeepsNeat(s.d, f, s.ops[i]);
    }
    OneLeft(s, e, id);
  }

  lemma SealedSpan(d: Tables, f: File)
    requires OpSafe(d, Sealed(f))
    ensures f.start < f.end && (Filed(d, f.end) || Frontier(d) <= f.start)
  {
  }

  lemma RegisterKeepsNeat(d: Tables, f: File, op: Op)
    requires f.start < f.end && (Filed(d, f.end) || Frontier(d) <= f.start) && OpNeat(d, op)
    ensures OpNeat(RegisterFile(d, f), op)
  {
    hide OpNeat, SwapFits, Filed;
    var e := RegisterFile(d, f);
    forall m | SwapFits(d, m) ensures SwapFits(e, m) {
      if Filed(d, f.end) { QueueKeepsFit(d, f.path, m); } else { StagedKeepsFit(d, f, m); }
    }
    assert NoNewStraddler(d, e);
    StagingOnlyKeeps(d, e, op);
  }

  lemma QueueKeepsFit(d: Tables, path: nat, m: File)
    requires SwapFits(d, m)
    ensures SwapFits(d.(queued := d.queued + {path}), m)
  {
  }

  lemma RegisterIngestTidy(s: State, id: nat, path: nat, start: nat, end: nat)
    requires Inv(s) && Enabled(s, RegisterIngest(id, path, start, end))
    ensures Tidy(Apply(s, RegisterIngest(id, path, start, end)))
  {
    hide Inv, Tidy, Neat, OpNeat, LoadOk, OpSafe, FilesOk, Legs, Watermark;
    var f := File(path, start, end, Sequence(start, end - start));
    var e := IngestFile(s.d, f);
    Parts(s);
    LoadIsOk(s, id, path, start, end);
    LoadNeat(s.d, f);
    assert NoneClash(s) by { InFlight(s, id); }
    Alone(s, id);
    forall i | i in s.ops ensures OpNeat(e, s.ops[i]) {
      Part(s, i);
      LoadKeepsNeat(s.d, f, s.ops[i]);
    }
    AllTidied(s, e);
  }

  lemma LoadKeepsNeat(d: Tables, f: File, op: Op)
    requires LoadOk(d, f) && OpNeat(d, op) && (op.Confirming? || op.Ingesting?)
    ensures OpNeat(IngestFile(d, f), op)
  {
  }

  // ----- an eviction -----

  lemma DecideEvictTidy(s: State, id: nat, below: nat)
    requires Inv(s) && Enabled(s, DecideEvict(id, below))
    ensures Tidy(Apply(s, DecideEvict(id, below)))
  {
    hide Inv, Tidy, Neat, Still, KeepsProtected, Leaving;
    var e := Leaving(s.d, below);
    Parts(s);
    LeavingStill(s.d, below);
    StillNeat(s.d, e);
    MoreIntents(s.d, e);
    Settles(s, e, id, Dropping(s.ops[id].hi, below));
  }

  lemma LeavingStill(d: Tables, below: nat)
    ensures var e := Leaving(d, below); Still(d, e) && e.intents == d.intents && e.through == d.through
  {
  }

  lemma CommitEvictTidy(s: State, id: nat)
    requires Inv(s) && Enabled(s, CommitEvict(id))
    ensures Tidy(Apply(s, CommitEvict(id)))
  {
    hide Inv, Tidy, Neat, OpSafe, OpNeat, SafeOk, FilesOk, Legs;
    var below := s.ops[id].below;
    var e := Evicted(s.d, below);
    Parts(s);
    Part(s, id);
    DroppingIsOk(s.d, s.ops[id]);
    EvictKeepsNeat(s.d, below);
    forall i | i in s.ops && i != id ensures OpNeat(e, s.ops[i]) {
      Part(s, i);
      EvictKeepsOpNeat(s.d, below, s.ops[i]);
    }
    OneLeft(s, e, id);
  }

  lemma EvictKeepsOpNeat(d: Tables, below: nat, op: Op)
    requires Watermark(d) && below <= d.through + 1 && OpNeat(d, op)
    ensures OpNeat(Evicted(d, below), op)
  {
    hide OpNeat, SwapFits;
    var e := Evicted(d, below);
    forall m | SwapFits(d, m) ensures SwapFits(e, m) {
      EvictKeepsFit(d, below, m);
    }
    assert NoNewStraddler(d, e);
    StagingOnlyKeeps(d, e, op);
  }

  // ----- a publish: what it reads and confirms -----

  /** One publish moves on, the tables as they are. */
  lemma MovesOnTidy(s: State, id: nat, phase: Phase)
    requires Inv(s) && CanPublish(s, id) && OpNeat(s.d, Publishing(s.ops[id].range, phase))
    ensures Tidy(State(s.d, s.ops[id := Publishing(s.ops[id].range, phase)]))
  {
    hide Inv, Tidy, Neat, OpNeat, Still, KeepsProtected;
    Parts(s);
    SameTables(s.d);
    Settles(s, s.d, id, Publishing(s.ops[id].range, phase));
  }

  lemma ReadStagingTidy(s: State, id: nat)
    requires Inv(s) && Enabled(s, ReadStaging(id))
    ensures Tidy(Apply(s, ReadStaging(id)))
  {
    hide Inv, Tidy, SnapshotNeat;
    Parts(s);
    StagingFits(s.d);
    MovesOnTidy(s, id, Staged(s.d.staging));
  }

  /** A staging file that lines up with published ones may be swapped in. */
  lemma StagingFits(d: Tables)
    requires FilesOk(d)
    ensures SnapshotNeat(d, d.staging)
  {
    hide Tight, Loose, UniquePaths, RowsApart, LinesUp;
  }

  lemma LookTidy(s: State, id: nat)
    requires Inv(s) && Enabled(s, Look(id))
    ensures Tidy(Apply(s, Look(id)))
  {
    hide Inv, Tidy, OpNeat, FilesOk, Legs, Watermark, Neat, Uncut, LinedUp, HeldPaths, PathsBelow, OpSafe;
    var range, files := s.ops[id].range, s.ops[id].phase.files;
    Parts(s);
    Part(s, id);
    LandedBelow(s.d, HeldPaths(s.d, files));
    LooksNeat(s.d, range, files);
    MovesOnTidy(s, id, Looked(End(s.d.published), HeldPaths(s.d, files), LinedUp(s.d, files)));
  }

  lemma LooksNeat(d: Tables, range: Range, files: set<File>)
    requires FilesOk(d) && Neat(d) && OpNeat(d, Publishing(range, Staged(files)))
    requires PathsBelow(d, End(d.published), HeldPaths(d, files))
    ensures OpNeat(d, Publishing(range, Looked(End(d.published), HeldPaths(d, files), LinedUp(d, files))))
  {
    hide FilesOk, Neat, PathsBelow, HeldPaths, LinesUp, SwapFits, Straddles;
    if Fresh(d, range) {
      forall g | Straddles(d, g) ensures g in LinedUp(d, files) { StraddlerLinesUp(d, g); }
    }
  }

  /** A straddler lines up: no staging file cuts a published one. */
  lemma StraddlerLinesUp(d: Tables, g: File)
    requires FilesOk(d) && Neat(d) && Straddles(d, g)
    ensures LinesUp(d, g) && g !in d.published
  {
    hide Tight, UniquePaths, RowsApart, Disjoint, Covered, AllTight;
    var p :| p in d.published && p.end == End(d.published);
    assert p.start < p.end;
    assert !Inside(g.start, p);
    forall q | q in d.published ensures Apart(q, g) || (g.start <= q.start && q.end <= g.end) {
      assert !Inside(g.start, q) && !Inside(g.end, q);
    }
  }

  lemma ReadIntentsTidy(s: State, id: nat)
    requires Inv(s) && Enabled(s, ReadIntents(id))
    ensures Tidy(Apply(s, ReadIntents(id)))
  {
    hide Inv, Tidy, ViewNeat, LandedPaths, DeadIntents;
    var phase := s.ops[id].phase;
    Part(s, id);
    MovesOnTidy(s, id, Noted(phase.floor, LandedPaths(s.d, phase.held), DeadIntents(s.d, phase.held), phase.swaps));
  }

  lemma SawPublishedTidy(s: State, confirm: nat, landed: set<nat>)
    requires Inv(s) && Enabled(s, SawPublished(confirm, landed))
    ensures Tidy(Apply(s, SawPublished(confirm, landed)))
  {
    hide Inv, Tidy, Neat, Still, KeepsProtected, FilesOk, Legs, Watermark, PathsBelow;
    Parts(s);
    LandedBelow(s.d, landed);
    SameTables(s.d);
    Settles(s, s.d, confirm, Confirming(End(s.d.published), landed));
  }

  /** Confirming keeps each copy covered: by the watermark once its name is retired. */
  lemma ConfirmTidy(s: State, end: nat, paths: set<nat>)
    requires Inv(s) && PathsBelow(s.d, end, paths)
    ensures var e := ConfirmedTo(s.d, end, paths);
      Neat(e) && Still(s.d, e) && KeepsProtected(s.d, e)
  {
    hide Inv, Neat, PathsBelow, Protected, FilesOk, Legs, Watermark;
    var e := ConfirmedTo(s.d, end, paths);
    Parts(s);
    ConfirmKeepsNeat(s.d, end, paths);
    forall f | f in s.d.written && Protected(s.d, f) ensures Protected(e, f) {
      ProtectedAfterConfirm(s.d, end, paths, f);
    }
  }

  lemma ReconcileTidy(s: State, id: nat)
    requires Inv(s) && Enabled(s, Reconcile(id))
    ensures Tidy(Apply(s, Reconcile(id)))
  {
    hide Inv, Tidy, Neat, OpNeat, OpSafe, Still, KeepsProtected, ConfirmedTo, PathsBelow;
    var op := s.ops[id];
    var floor, landed := op.phase.floor, op.phase.landed;
    var e := ConfirmedTo(s.d, floor, landed);
    Part(s, id);
    NotedNeat(s.d, op);
    ConfirmTidy(s, floor, landed);
    Settles(s, e, id, Publishing(op.range, Reconciled(floor, op.phase.dead, op.phase.swaps)));
  }

  lemma NotedNeat(d: Tables, op: Op)
    requires op.Publishing? && op.phase.Noted? && OpNeat(d, op)
    ensures PathsBelow(d, op.phase.floor, op.phase.landed)
    ensures OpNeat(ConfirmedTo(d, op.phase.floor, op.phase.landed),
                   Publishing(op.range, Reconciled(op.phase.floor, op.phase.dead, op.phase.swaps)))
  {
    hide PathsBelow;
    var e := ConfirmedTo(d, op.phase.floor, op.phase.landed);
    StagingLikeView(d, e, op.range, op.phase.floor, op.phase.swaps, None);
  }

  /** What a publish saw does not depend on the watermark or the intents. */
  lemma StagingLikeView(d: Tables, e: Tables, range: Range, floor: nat, swaps: set<File>, choice: Option<Choice>)
    requires ViewNeat(d, range, floor, swaps, choice)
    requires e.published == d.published && e.low == d.low && e.staging == d.staging && e.written == d.written
    ensures ViewNeat(e, range, floor, swaps, choice)
  {
    hide Disjoint;
  }

  lemma ConfirmOpTidy(s: State, id: nat)
    requires Inv(s) && Enabled(s, Confirm(id))
    ensures Tidy(Apply(s, Confirm(id)))
  {
    hide Inv, Tidy, Neat, Still, KeepsProtected, PathsBelow, ConfirmedTo;
    var op := s.ops[id];
    var e := ConfirmedTo(s.d, op.end, op.paths);
    Part(s, id);
    ConfirmTidy(s, op.end, op.paths);
    StillAll(s, e);
    assert OthersNeat(s, e, id);
    OneLeft(s, e, id);
  }

  lemma StrayForgetTidy(s: State, intent: Intent)
    requires Inv(s) && Orderly(s, StrayForget(intent))
    ensures Tidy(Apply(s, StrayForget(intent)))
  {
    hide Inv, Tidy, RestsOn;
    ForgetExact(s, intent);
  }

  lemma ForgetTidy(s: State, id: nat, intent: Intent)
    requires Inv(s) && Enabled(s, Forget(id, intent)) && Orderly(s, Forget(id, intent))
    ensures Tidy(Apply(s, Forget(id, intent)))
  {
    hide *;
    ForgetIs(s, id, intent);
    ForgetExact(s, intent);
    var e := Forgotten(s.d, intent);
    var op := Apply(s, Forget(id, intent)).ops[id];
    TidyParts(s, e, id);
    FewerDead(e, s.ops[id], op);
    OneTidied(s, e, id, op);
  }

  lemma ForgetIs(s: State, id: nat, intent: Intent)
    requires Enabled(s, Forget(id, intent)) && Orderly(s, Forget(id, intent))
    ensures !RestsOn(s, intent) && id in s.ops && id in Apply(s, Forget(id, intent)).ops
    ensures var op := Apply(s, Forget(id, intent)).ops[id];
      && Apply(s, Forget(id, intent)) == State(Forgotten(s.d, intent), s.ops[id := op])
      && SameButDead(s.ops[id], op)
  {
    hide RestsOn;
  }

  ghost predicate SameButDead(a: Op, b: Op) {
    && a.Publishing? && a.phase.Reconciled? && b.Publishing? && b.phase.Reconciled?
    && b.range == a.range && b.phase.floor == a.phase.floor && b.phase.swaps == a.phase.swaps
  }

  lemma TidyParts(s: State, e: Tables, id: nat)
    requires Tidy(State(e, s.ops)) && id in s.ops
    ensures Neat(e) && OpNeat(e, s.ops[id]) && OthersNeat(s, e, id)
  {
    hide Neat, OpNeat;
  }

  lemma FewerDead(d: Tables, a: Op, b: Op)
    requires SameButDead(a, b) && OpNeat(d, a)
    ensures OpNeat(d, b)
  {
    hide ViewNeat;
  }

  lemma ListSwapsTidy(s: State, id: nat, swaps: set<File>, choice: Choice)
    requires Inv(s) && Enabled(s, ListSwaps(id, swaps, choice))
    ensures Tidy(Apply(s, ListSwaps(id, swaps, choice)))
  {
    hide Inv, Tidy, OpNeat, SwapsListed, OpSafe;
    var op := s.ops[id];
    Part(s, id);
    SwapsNeat(s.d, op.range, op.phase, swaps, choice);
    MovesOnTidy(s, id, Working(op.phase.floor, swaps, choice));
  }

  /** A straddler not listed was left out: it was neither finished with nor flushed. */
  lemma SwapsNeat(d: Tables, range: Range, phase: Phase, swaps: set<File>, choice: Choice)
    requires phase.Reconciled? && OpNeat(d, Publishing(range, phase))
    requires SwapsListed(phase.swaps, phase.floor, swaps, choice)
    ensures OpNeat(d, Publishing(range, Working(phase.floor, swaps, choice)))
  {
    hide SwapFits;
  }

  lemma ListPushTidy(s: State, id: nat, listing: Listing)
    requires Inv(s) && Enabled(s, ListPush(id, listing))
    ensures Tidy(Apply(s, ListPush(id, listing)))
  {
    hide Inv, Tidy, ViewNeat, ReadsFrozen;
    Part(s, id);
    MovesOnTidy(s, id, Chosen(s.ops[id].phase.floor, s.ops[id].phase.choice, listing));
  }

  // ----- a publish: its commits -----

  lemma IntendTidy(s: State, id: nat, f: File, op: Op)
    requires Inv(s) && OpNeat(Intended(s.d, f), op)
    ensures Tidy(State(Intended(s.d, f), s.ops[id := op]))
  {
    hide Inv, Tidy, Neat, OpNeat, Still, KeepsProtected;
    var e := Intended(s.d, f);
    Parts(s);
    NeatAlike(s.d, e);
    MoreIntents(s.d, e);
    assert Still(s.d, e) by { IntendStill(s.d, f); }
    Settles(s, e, id, op);
  }

  lemma IntendStill(d: Tables, f: File)
    ensures Still(d, Intended(d, f))
  {
  }

  lemma IntendSwapTidy(s: State, id: nat, m: File)
    requires Inv(s) && Enabled(s, IntendSwap(id, m)) && Orderly(s, IntendSwap(id, m))
    ensures Tidy(Apply(s, IntendSwap(id, m)))
  {
    hide Inv, Tidy, OpNeat, OpSafe;
    var op := s.ops[id];
    Part(s, id);
    SwapNamed(s.d, op, m);
    IntendTidy(s, id, m,
               Publishing(op.range, Swapping(m, op.phase.floor, op.phase.swaps - {m}, op.phase.choice)));
  }

  lemma SwapNamed(d: Tables, op: Op, m: File)
    requires op.Publishing? && op.phase.Working? && m in op.phase.swaps && Fresh(d, op.range)
    requires OpNeat(d, op)
    ensures OpNeat(Intended(d, m),
                   Publishing(op.range, Swapping(m, op.phase.floor, op.phase.swaps - {m}, op.phase.choice)))
  {
    hide AllFit;
    var e := Intended(d, m);
    var swaps := op.phase.swaps;
    assert swaps - {m} + {m} == swaps;
    StagingLikeView(d, e, op.range, op.phase.floor, swaps, Some(op.phase.choice));
  }

  lemma IntendPushTidy(s: State, id: nat, f: File)
    requires Inv(s) && Enabled(s, IntendPush(id, f)) && Orderly(s, IntendPush(id, f))
    ensures Tidy(Apply(s, IntendPush(id, f)))
  {
    hide Inv, Tidy, OpNeat, OpSafe, NextPending, PushDue;
    var op := s.ops[id];
    Part(s, id);
    Parts(s);
    assert PushedTo(op.phase) < f.end by { PendingPast(s.d, PushedTo(op.phase), f); }
    CopyNamed(s.d, op, f);
    IntendTidy(s, id, f,
               Publishing(op.range, Pushing(PushedFiles(op.phase) + {f}, f.end, op.phase.choice, op.phase.listing)));
  }

  lemma PendingPast(d: Tables, from: nat, f: File)
    requires NextPending(d, from, f)
    ensures from < f.end
  {
  }

  lemma CopyNamed(d: Tables, op: Op, f: File)
    requires FilesOk(d) && op.Publishing? && (op.phase.Chosen? || op.phase.Pushing?)
    requires OpSafe(d, op) && OpNeat(d, op)
    requires PushedTo(op.phase) < f.end && PushDue(op.phase.choice, op.phase.listing, f)
    ensures OpNeat(Intended(d, f),
                   Publishing(op.range, Pushing(PushedFiles(op.phase) + {f}, f.end, op.phase.choice, op.phase.listing)))
  {
    hide AllFit, AllSeen, Tight, Loose, Disjoint, UniquePaths, RowsApart, PushDue;
    if op.phase.Pushing? {
      var u :| u in op.phase.files;
      assert u.start < u.end <= op.phase.upTo;
    }
  }

  lemma SettledAs(op: Op, d: Tables)
    requires op.Checked? || op.Merging? || op.Merged?
    requires OpSafe(d, op) && OpNeat(d, op)
    ensures Whole(d, op.run) && op.run <= d.staging
    ensures Settled(d, op.run, if op.Checked? then d.through + 1 else op.floor)
  {
  }

  lemma CommitPushTidy(s: State, id: nat, confirm: nat)
    requires Inv(s) && Enabled(s, CommitPush(id, confirm))
    ensures Tidy(Apply(s, CommitPush(id, confirm)))
  {
    hide *;
    CommitPushIs(s, id, confirm);
    if PushRegisters(s.d, s.ops[id].phase.files) {
      RegisteredTidy(s, id, confirm);
    } else {
      DropTidy(s, id);
      DropIs(s, id);
    }
  }

  lemma CommitPushIs(s: State, id: nat, confirm: nat)
    requires Enabled(s, CommitPush(id, confirm))
    ensures CanPublish(s, id) && id in s.ops && s.ops[id].Publishing? && s.ops[id].phase.Pushing?
    ensures !PushRegisters(s.d, s.ops[id].phase.files) ==>
      Apply(s, CommitPush(id, confirm)) == State(s.d, s.ops - {id})
    ensures Enabled(s, Drop(id))
  {
  }

  lemma DropIs(s: State, id: nat)
    requires Enabled(s, Drop(id))
    ensures Apply(s, Drop(id)) == State(s.d, s.ops - {id})
  {
  }

  lemma RegisteredTidy(s: State, id: nat, confirm: nat)
    requires CanPublish(s, id) && s.ops[id].phase.Pushing? && PushRegisters(s.d, s.ops[id].phase.files)
    requires Inv(s) && Enabled(s, CommitPush(id, confirm))
    ensures Tidy(Apply(s, CommitPush(id, confirm)))
  {
    hide Inv, Tidy, Neat, OpNeat, OpSafe, SafeOk, FilesOk, Legs, Watermark, PushOk, AllProtected, Active,
         Conflict, Grown, PushRegisters, PathsBelow;
    var op := s.ops[id];
    var files, upTo := op.phase.files, op.phase.upTo;
    var e := Pushed(s.d, files);
    Parts(s);
    Part(s, id);
    PushingIs(s.d, op);
    RegisteredIsActive(s.d, op);
    CopiesProtected(s.d, op);
    PushKeepsNeat(s.d, files, upTo);
    OthersIdle(s, id);
    forall i | i in s.ops && i != id ensures OpNeat(e, s.ops[i]) {
      Part(s, i);
      PartsApart(s, id, i);
      PushKeepsOpNeat(s.d, op, s.ops[i]);
    }
    OneLeft(s, e, id);
    PushedPaths(s.d, files, upTo);
    assert OpNeat(e, Confirming(upTo, Paths(files))) by { ConfirmsNeat(e, upTo, Paths(files)); }
    OneTidied(State(e, s.ops - {id}), e, confirm, Confirming(upTo, Paths(files)));
  }

  lemma ConfirmsNeat(d: Tables, end: nat, paths: set<nat>)
    requires PathsBelow(d, end, paths)
    ensures OpNeat(d, Confirming(end, paths))
  {
  }

  lemma CopiesProtected(d: Tables, op: Op)
    requires op.Publishing? && op.phase.Pushing? && OpNeat(d, op) && Active(d, op)
    ensures AllProtected(d, op.phase.files)
  {
  }

  lemma PushKeepsOpNeat(d: Tables, push: Op, op: Op)
    requires SafeOk(d) && push.Publishing? && push.phase.Pushing? && OpSafe(d, push) && Active(d, push)
    requires PushOk(d, push.phase.files, push.phase.upTo)
    requires OpSafe(d, op) && OpNeat(d, op) && !Active(d, op) && !Conflict(push, op)
    ensures OpNeat(Pushed(d, push.phase.files), op)
  {
    hide SafeOk, PushOk, OpNeat, Grown, Active, Settled, Whole;
    var files, upTo := push.phase.files, push.phase.upTo;
    PushedGrown(d, files, upTo);
    SafeFiles(d);
    PushInClaim(d, push);
    if op.Checked? || op.Merging? || op.Merged? {
      SettledAs(op, d);
      PushKeepsRun(d, files, upTo, push.range, op.run, if op.Checked? then d.through + 1 else op.floor);
    }
    GrownKeepsNeat(d, Pushed(d, files), op);
  }

  lemma PushInClaim(d: Tables, push: Op)
    requires push.Publishing? && push.phase.Pushing? && OpSafe(d, push) && Active(d, push)
    ensures RangeOk(d, push.range) && WithinBound(push.range, push.phase.upTo)
    ensures Fresh(d, push.range)
  {
  }

  lemma PushedPaths(d: Tables, files: set<File>, upTo: nat)
    requires FilesOk(d) && PushOk(d, files, upTo)
    ensures PathsBelow(Pushed(d, files), upTo, Paths(files))
  {
    forall f | f in d.written && f.path in Paths(files) ensures f.end <= upTo {
      var u :| u in files && u.path == f.path;
    }
  }

  lemma CommitSwapTidy(s: State, id: nat, confirm: nat, cuts: set<File>)
    requires Inv(s) && Enabled(s, CommitSwap(id, confirm, cuts))
    ensures Tidy(Apply(s, CommitSwap(id, confirm, cuts)))
  {
    hide Inv, Tidy, Neat, OpNeat, OpSafe, SafeOk, FilesOk, Legs, Watermark, Active, SwapFits, SwapSeen,
         Protected, Conflict, Grown, CutsOk, SwapIn;
    var op := s.ops[id];
    var m := op.phase.merged;
    var e := SwapIn(s.d, m, cuts);
    Parts(s);
    Part(s, id);
    SwappingNeat(s.d, op);
    SwapKeepsNeat(s.d, m, cuts);
    OthersIdle(s, id);
    forall i | i in s.ops && i != id ensures OpNeat(e, s.ops[i]) {
      Part(s, i);
      PartsApart(s, id, i);
      SwapKeepsOpNeat(s.d, op, cuts, s.ops[i]);
    }
    SwapOver(s.d, op, cuts);
    SwapPath(s.d, m, cuts);
    TwoTidied(s, e, id, Publishing(op.range, Working(Later(op.phase.floor, m.end), op.phase.swaps, op.phase.choice)),
              confirm, Confirming(m.end, {m.path}));
  }

  lemma SwappingNeat(d: Tables, op: Op)
    requires op.Publishing? && op.phase.Swapping? && OpSafe(d, op) && OpNeat(d, op)
    ensures SwapSeen(d, op.phase.merged) && SwapFits(d, op.phase.merged) && Protected(d, op.phase.merged)
    ensures Active(d, op) && Swappable(d, op.range, op.phase.merged)
  {
    hide LinesUp;
  }

  lemma SwapKeepsOpNeat(d: Tables, swap: Op, cuts: set<File>, op: Op)
    requires SafeOk(d) && Uncut(d) && swap.Publishing? && swap.phase.Swapping?
    requires OpSafe(d, swap) && OpNeat(d, swap) && CutsOk(d, swap.phase.merged, cuts)
    requires OpSafe(d, op) && OpNeat(d, op) && !Active(d, op) && !Conflict(swap, op)
    ensures OpNeat(SwapIn(d, swap.phase.merged, cuts), op)
  {
    hide SafeOk, OpNeat, Grown, Active, CutsOk, SwapIn, SwapSeen, SwapFits, Settled, Whole, Swappable, Protected;
    var m := swap.phase.merged;
    var e := SwapIn(d, m, cuts);
    SafeFiles(d);
    SwappingNeat(d, swap);
    SwapGrown(d, m, cuts);
    SwapKeepsRest(d, m, cuts);
    FitCutsNothing(d, m, cuts);
    if op.Checked? || op.Merging? || op.Merged? {
      SettledAs(op, d);
      SwapKeepsRun(d, swap.range, m, op.run, if op.Checked? then d.through + 1 else op.floor);
    }
    GrownKeepsNeat(d, e, op);
  }

  /** What the publish has still to swap fits as before, and its floor is the new end. */
  lemma SwapOver(d: Tables, op: Op, cuts: set<File>)
    requires SafeOk(d) && Uncut(d) && op.Publishing? && op.phase.Swapping?
    requires OpSafe(d, op) && OpNeat(d, op) && CutsOk(d, op.phase.merged, cuts)
    ensures OpNeat(SwapIn(d, op.phase.merged, cuts),
                   Publishing(op.range, Working(Later(op.phase.floor, op.phase.merged.end), op.phase.swaps,
                                                op.phase.choice)))
  {
    hide FilesOk, Legs, Watermark, TierRow, CutsOk, SwapIn, SwapSeen, SwapFits, Protected;
    var m, swaps := op.phase.merged, op.phase.swaps;
    var e := SwapIn(d, m, cuts);
    SwappingNeat(d, op);
    SwappedSpan(d, m, cuts);
    FitCutsNothing(d, m, cuts);
    forall other | other in swaps ensures SwapFits(e, other) {
      assert Apart(m, other);
      SwapKeepsFit(d, m, other);
    }
    SwapStraddles(d, m, e);
  }

  /** No file straddles the end of one swapped in past the published end. */
  lemma SwapStraddles(d: Tables, m: File, e: Tables)
    requires FilesOk(d) && SwapFits(d, m) && e.staging == d.staging
    requires End(e.published) == Later(End(d.published), m.end)
    ensures NoNewStraddler(d, e) && !Straddles(e, m)
  {
    hide Tight, Loose, UniquePaths, RowsApart, LinesUp;
  }

  lemma SwapPath(d: Tables, m: File, cuts: set<File>)
    requires FilesOk(d) && SwapSeen(d, m)
    ensures OpNeat(SwapIn(d, m, cuts), Confirming(m.end, {m.path}))
  {
  }

  // ----- truncation -----

  lemma TruncateTidy(s: State, step: Step)
    requires Inv(s) && Enabled(s, step)
    requires step.TruncateBuffer? || step.TruncateStaging? || step.TruncatePublished?
    ensures Tidy(Apply(s, step))
  {
    hide Inv, Tidy, Neat, OpSafe, OpNeat, Enabled, Write, Advance;
    var id := step.id;
    var e := Write(s, step);
    TruncateIs(s, step);
    Parts(s);
    TruncateNeat(s, step);
    assert NoneClash(s) by { InFlight(s, id); }
    Alone(s, id);
    forall i | i in s.ops && i != id ensures OpNeat(e, s.ops[i]) {
      Part(s, i);
      TruncateKeepsConfirming(s, step, s.ops[i]);
    }
    OneTidied(s, e, id, Advance(s, step)[id]);
  }

  lemma TruncateIs(s: State, step: Step)
    requires Enabled(s, step)
    requires step.TruncateBuffer? || step.TruncateStaging? || step.TruncatePublished?
    ensures step.id in s.ops && s.ops[step.id].Truncating? && ClaimOf(s.ops[step.id]) == Some(Everything)
    ensures step.id in Advance(s, step) && Advance(s, step) == s.ops[step.id := Advance(s, step)[step.id]]
    ensures OpNeat(Write(s, step), Advance(s, step)[step.id])
  {
  }

  lemma TruncateNeat(s: State, step: Step)
    requires Enabled(s, step) && Neat(s.d)
    requires step.TruncateBuffer? || step.TruncateStaging? || step.TruncatePublished?
    ensures Neat(Write(s, step))
  {
    hide Neat;
    var floor := s.ops[step.id].floor;
    match step
    case TruncateBuffer(_) => NeatAlike(s.d, Write(s, step));
    case TruncateStaging(_) =>
      NeatAlike(s.d, Leaving(s.d, floor));
      EvictKeepsNeat(Leaving(s.d, floor), floor);
    case TruncatePublished(_) => CutKeepsNeat(s.d, floor);
  }

  lemma TruncateKeepsConfirming(s: State, step: Step, op: Op)
    requires Enabled(s, step) && OpNeat(s.d, op) && op.Confirming?
    requires step.TruncateBuffer? || step.TruncateStaging? || step.TruncatePublished?
    ensures OpNeat(Write(s, step), op)
  {
    hide PathsBelow;
    PathsAlike(s.d, Write(s, step), op.end, op.paths);
  }

  // ----- every orderly step -----

  lemma StepTidy(s: State, step: Step)
    requires Inv(s) && Enabled(s, step) && Orderly(s, step)
    ensures Tidy(Apply(s, step))
  {
    hide Inv, Tidy, Enabled, Orderly, Write, Advance, Apply;
    match step
    case ClaimSeal(id, lo, hi) => ClaimedTidy(s, step, id, Sealing(lo, hi));
    case ClaimIngest(id) => ClaimedTidy(s, step, id, Ingesting);
    case ClaimMerge(id, run) => ClaimedTidy(s, step, id, Compacting(run));
    case ClaimEvict(id, hi) => ClaimedTidy(s, step, id, Evicting(hi));
    case ClaimPublish(id, range) => ClaimedTidy(s, step, id, Publishing(range, Opened));
    case ClaimTruncate(id, floor) => ClaimedTidy(s, step, id, Truncating(floor, 0));
    case RegisterSeal(id) => RegisterSealTidy(s, id);
    case RegisterIngest(id, path, start, end) => RegisterIngestTidy(s, id, path, start, end);
    case CheckMerge(id) => CheckMergeTidy(s, id);
    case ReadFloor(id) => ReadFloorTidy(s, id);
    case WriteMerge(id, outputs) => WriteMergeTidy(s, id, outputs);
    case CommitMerge(id) => CommitMergeTidy(s, id);
    case DecideEvict(id, below) => DecideEvictTidy(s, id, below);
    case CommitEvict(id) => CommitEvictTidy(s, id);
    case ReadStaging(id) => ReadStagingTidy(s, id);
    case Look(id) => LookTidy(s, id);
    case ReadIntents(id) => ReadIntentsTidy(s, id);
    case SawPublished(confirm, landed) => SawPublishedTidy(s, confirm, landed);
    case Reconcile(id) => ReconcileTidy(s, id);
    case Forget(id, intent) => ForgetTidy(s, id, intent);
    case StrayForget(intent) => StrayForgetTidy(s, intent);
    case ListSwaps(id, swaps, choice) => ListSwapsTidy(s, id, swaps, choice);
    case IntendSwap(id, m) => IntendSwapTidy(s, id, m);
    case CommitSwap(id, confirm, cuts) => CommitSwapTidy(s, id, confirm, cuts);
    case ListPush(id, listing) => ListPushTidy(s, id, listing);
    case IntendPush(id, f) => IntendPushTidy(s, id, f);
    case CommitPush(id, confirm) => CommitPushTidy(s, id, confirm);
    case Confirm(id) => ConfirmOpTidy(s, id);
    case TruncateBuffer(_) => TruncateTidy(s, step);
    case TruncateStaging(_) => TruncateTidy(s, step);
    case TruncatePublished(_) => TruncateTidy(s, step);
    case Drop(id) => DropTidy(s, id);
    case _ => QuieterStep(s, step);
  }

  /** Whatever orderly step is taken, by whomever, the whole invariant is kept. */
  lemma StepKeeps(s: State, step: Step)
    requires Inv(s) && Enabled(s, step) && Orderly(s, step)
    ensures Inv(Apply(s, step))
  {
    hide Safe, Tidy, Enabled, Orderly, Write, Advance, Apply;
    StepSafe(s, step);
    StepTidy(s, step);
  }
}
