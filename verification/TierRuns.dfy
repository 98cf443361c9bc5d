/** Every step any process may take, whatever its claim still covers, keeps what every
    run keeps: so it holds in every reachable state. */
module TierRuns {
  import opened Options
  import opened TierState
  import opened TierSteps
  import opened TierTables
  import opened TierMerge
  import opened TierPublish
  import opened TierEvict
  import opened TierOps

  // ----- putting the operations back together -----

  /** The other operations' premises, on the new tables. */
  ghost predicate OthersSafe(s: State, e: Tables, id: nat) {
    forall i :: i in s.ops && i != id ==> OpSafe(e, s.ops[i])
  }

  lemma OneChanged(s: State, e: Tables, id: nat, op: Op)
    requires NoneClash(s) && SafeOk(e) && OthersSafe(s, e, id) && OpSafe(e, op)
    requires forall i :: i in s.ops && i != id ==> !Conflict(s.ops[i], op)
    ensures Safe(State(e, s.ops[id := op]))
  {
    hide SafeOk, OpSafe;
    var t := State(e, s.ops[id := op]);
    forall i, j | i in t.ops && j in t.ops && i != j ensures !Conflict(t.ops[i], t.ops[j]) {
      if i == id { assert !Conflict(s.ops[j], op); }
      else if j == id { assert !Conflict(s.ops[i], op); }
    }
  }

  lemma OneGone(s: State, e: Tables, id: nat)
    requires NoneClash(s) && SafeOk(e) && OthersSafe(s, e, id)
    ensures Safe(State(e, s.ops - {id}))
  {
    hide SafeOk, OpSafe;
  }

  /** An operation moving on keeps its claim, so it clashes with no one new. */
  lemma Advanced(s: State, e: Tables, id: nat, op: Op)
    requires NoneClash(s) && SafeOk(e) && id in s.ops && OthersSafe(s, e, id)
    requires OpSafe(e, op) && ClaimOf(op) == ClaimOf(s.ops[id])
    ensures Safe(State(e, s.ops[id := op]))
  {
    hide SafeOk, OpSafe;
    forall i | i in s.ops && i != id ensures !Conflict(s.ops[i], op) {
      assert !Conflict(s.ops[i], s.ops[id]);
    }
    OneChanged(s, e, id, op);
  }

  lemma Claimed(s: State, id: nat, op: Op)
    requires Safe(s) && id !in s.ops && OpSafe(s.d, op)
    requires ClaimOf(op).Some? ==> Unclaimed(s, ClaimOf(op).value)
    ensures Safe(State(s.d, s.ops[id := op]))
  {
    hide SafeOk, OpSafe;
    forall i | i in s.ops ensures !Conflict(s.ops[i], op) { }
    OneChanged(s, s.d, id, op);
  }

  /** A claim over everything leaves nobody else with a claim. */
  lemma Alone(s: State, id: nat)
    requires NoneClash(s) && id in s.ops && ClaimOf(s.ops[id]) == Some(Everything)
    ensures forall i :: i in s.ops && i != id ==> s.ops[i].Confirming?
  {
    forall i | i in s.ops && i != id ensures s.ops[i].Confirming? {
      assert !Conflict(s.ops[i], s.ops[id]);
    }
  }

  lemma QuietStep(s: State, e: Tables)
    requires Safe(s) && SafeOk(e) && Quiet(s.d, e)
    ensures Safe(State(e, s.ops))
    ensures forall id :: OthersSafe(s, e, id)
  {
    hide SafeOk, OpSafe, Quiet;
    forall i | i in s.ops ensures OpSafe(e, s.ops[i]) {
      QuietKeeps(s.d, e, s.ops[i]);
    }
  }

  /** An operation in flight, and what every run keeps of it. */
  lemma InFlight(s: State, id: nat)
    requires Safe(s) && id in s.ops
    ensures NoneClash(s) && SafeOk(s.d) && OpSafe(s.d, s.ops[id])
  {
    hide SafeOk, OpSafe, Conflict;
  }

  // ----- rows arriving -----

  lemma AppendStep(s: State, count: nat)
    requires Safe(s) && Enabled(s, Append(count))
    ensures Safe(Apply(s, Append(count)))
  {
    hide SafeOk, OpSafe, Appended;
    AppendKeeps(s.d, count);
    forall i | i in s.ops ensures OpSafe(Appended(s.d, count), s.ops[i]) {
      AppendKeepsOp(s.d, count, s.ops[i]);
    }
  }

  lemma ReserveStep(s: State, count: nat)
    requires Safe(s)
    ensures Safe(Apply(s, Reserve(count)))
  {
    hide SafeOk, OpSafe;
    ReserveKeeps(s.d, count);
    QuietStep(s, s.d.(next := s.d.next + count));
  }

  // ----- a seal -----

  lemma WriteSealStep(s: State, id: nat, path: nat)
    requires Safe(s) && Enabled(s, WriteSeal(id, path))
    ensures Safe(Apply(s, WriteSeal(id, path)))
  {
    hide SafeOk, OpSafe, GroupOk, SealWritten, Quiet;
    var op := s.ops[id];
    var e := SealWritten(s.d, op, path);
    SealingIs(s.d, op);
    SealWrittenKeeps(s.d, op, path);
    SealWrittenQuiet(s.d, op, path);
    QuietStep(s, e);
    SealWrittenOk(s.d, op, path);
    Advanced(s, e, id, Sealed(SealFile(s.d, op, path)));
  }

  lemma SealingIs(d: Tables, op: Op)
    requires op.Sealing? && OpSafe(d, op)
    ensures GroupOk(d, op.lo, op.hi)
  {
  }

  lemma SealWrittenQuiet(d: Tables, op: Op, path: nat)
    requires op.Sealing?
    ensures Quiet(d, SealWritten(d, op, path))
  {
  }

  lemma SealWrittenOk(d: Tables, op: Op, path: nat)
    requires op.Sealing? && GroupOk(d, op.lo, op.hi)
    ensures OpSafe(SealWritten(d, op, path), Sealed(SealFile(d, op, path)))
  {
    var e := SealWritten(d, op, path);
    assert GroupOk(e, op.lo, op.hi);
  }

  lemma RegisterSealStep(s: State, id: nat)
    requires Safe(s) && Enabled(s, RegisterSeal(id))
    ensures Safe(Apply(s, RegisterSeal(id)))
  {
    hide SafeOk, OpSafe, RegisterFile, Conflict;
    var f := s.ops[id].file;
    var e := RegisterFile(s.d, f);
    SealedIs(s.d, f);
    RegisterKeeps(s.d, f);
    forall i | i in s.ops && i != id ensures OpSafe(e, s.ops[i]) {
      assert !Conflict(s.ops[i], s.ops[id]);
      RegisterKeepsOp(s.d, f, s.ops[i]);
    }
    OneGone(s, e, id);
  }

  lemma SealedIs(d: Tables, f: File)
    requires OpSafe(d, Sealed(f))
    ensures GroupOk(d, f.start, f.end) && (f in d.written || Filed(d, f.end))
  {
  }

  lemma RegisterKeepsOp(d: Tables, f: File, op: Op)
    requires SafeOk(d) && OpSafe(d, Sealed(f)) && OpSafe(d, op)
    requires !Conflict(op, Sealed(f))
    ensures OpSafe(RegisterFile(d, f), op)
  {
    hide SafeOk, OpSafe, Quiet, SealedOnTop;
    if Filed(d, f.end) {
      RegisterQuiet(d, f);
      QuietKeeps(d, RegisterFile(d, f), op);
    } else {
      SealedTop(d, f);
      StagedKeepsOp(d, f, op);
    }
  }

  lemma RegisterQuiet(d: Tables, f: File)
    requires Filed(d, f.end)
    ensures Quiet(d, RegisterFile(d, f))
  {
  }

  lemma SealedTop(d: Tables, f: File)
    requires SafeOk(d) && OpSafe(d, Sealed(f)) && !Filed(d, f.end)
    ensures SealedOnTop(d, f)
  {
    hide Legs, Watermark, TierRow, Tight, Loose;
  }

  // ----- a bulk load -----

  lemma RegisterIngestStep(s: State, id: nat, path: nat, start: nat, end: nat)
    requires Safe(s) && Enabled(s, RegisterIngest(id, path, start, end))
    ensures Safe(Apply(s, RegisterIngest(id, path, start, end)))
  {
    hide SafeOk, OpSafe, LoadOk;
    var f := File(path, start, end, Sequence(start, end - start));
    LoadIsOk(s, id, path, start, end);
    LoadKeeps(s.d, f);
    Alone(s, id);
    assert FilesOk(s.d) by { SafeFiles(s.d); }
    forall i | i in s.ops ensures OpSafe(IngestFile(s.d, f), s.ops[i]) {
      if s.ops[i].Confirming? {
        LoadKeepsConfirming(s.d, f, s.ops[i].end, s.ops[i].paths);
      } else {
        LoadKeepsIngesting(s.d, f);
      }
    }
  }

  lemma LoadIsOk(s: State, id: nat, path: nat, start: nat, end: nat)
    requires Safe(s) && Enabled(s, RegisterIngest(id, path, start, end))
    ensures s.ops[id].Ingesting?
    ensures LoadOk(s.d, File(path, start, end, Sequence(start, end - start)))
  {
    hide SafeOk;
    assert OpSafe(s.d, s.ops[id]);
  }

  lemma LoadKeepsIngesting(d: Tables, f: File)
    requires FilesOk(d) && LoadOk(d, f)
    ensures OpSafe(IngestFile(d, f), Ingesting)
  {
    LoadAbove(d, f);
    StagedSpan(d, f);
  }

  lemma LoadKeepsConfirming(d: Tables, f: File, end: nat, paths: set<nat>)
    requires LoadOk(d, f) && OpSafe(d, Confirming(end, paths))
    ensures OpSafe(IngestFile(d, f), Confirming(end, paths))
  {
    var e := IngestFile(d, f);
    forall r | r in e.committed && e.low <= r < end ensures Holds(e.published, r) {
      assert Holds(d.published, r);
    }
  }

  // ----- a merge -----

  lemma CheckMergeStep(s: State, id: nat)
    requires Safe(s) && Enabled(s, CheckMerge(id))
    ensures Safe(Apply(s, CheckMerge(id)))
  {
    hide SafeOk, MergeCandidate, Whole;
    assert OpSafe(s.d, s.ops[id]);
    Advanced(s, s.d, id, Checked(s.ops[id].run));
  }

  lemma ReadFloorStep(s: State, id: nat)
    requires Safe(s) && Enabled(s, ReadFloor(id))
    ensures Safe(Apply(s, ReadFloor(id)))
  {
    hide SafeOk, Whole;
    assert OpSafe(s.d, s.ops[id]);
    Advanced(s, s.d, id, Merging(s.ops[id].run, s.d.through + 1));
  }

  lemma WriteMergeStep(s: State, id: nat, outputs: set<File>)
    requires Safe(s) && Enabled(s, WriteMerge(id, outputs))
    ensures Safe(Apply(s, WriteMerge(id, outputs)))
  {
    hide SafeOk, OpSafe, Rewrites, Quiet, NewFiles;
    var op := s.ops[id];
    var e := FilesAdded(s.d, outputs, Paths(outputs));
    MergingIs(s.d, op);
    OutputsNew(s.d, op.run, op.floor, outputs);
    FilesAddedKeeps(s.d, outputs, Paths(outputs));
    FilesAddedQuiet(s.d, outputs, Paths(outputs));
    QuietStep(s, e);
    OutputsRewritten(s.d, op.run, op.floor, outputs);
    Advanced(s, e, id, Merged(op.run, op.floor, outputs));
  }

  lemma FilesAddedQuiet(d: Tables, fs: set<File>, names: set<nat>)
    ensures Quiet(d, FilesAdded(d, fs, names))
  {
  }

  lemma MergingIs(d: Tables, op: Op)
    requires op.Merging? && SafeOk(d) && OpSafe(d, op)
    ensures AllTight(d.written, d.committed) && Whole(d, op.run) && op.run <= d.staging
  {
  }

  lemma OutputsNew(d: Tables, run: set<File>, floor: nat, outputs: set<File>)
    requires AllTight(d.written, d.committed) && Whole(d, run) && Rewrites(d, run, floor, outputs)
    ensures NewFiles(d, outputs, Paths(outputs))
  {
    OutputsTight(d, run, floor, outputs);
  }

  lemma OutputsTight(d: Tables, run: set<File>, floor: nat, outputs: set<File>)
    requires AllTight(d.written, d.committed) && Whole(d, run) && Rewrites(d, run, floor, outputs)
    ensures forall o :: o in outputs ==> Tight(o, d.committed)
    ensures forall o :: o in outputs ==> Start(run) <= o.start && o.end <= End(run)
  {
    forall o | o in outputs
      ensures Tight(o, d.committed) && Start(run) <= o.start && o.end <= End(run)
    {
      OutputWithin(d, run, floor, outputs, o);
      forall r: nat ensures r in o.rows <==> r in d.committed && o.start <= r < o.end {
        OutputRow(d, run, floor, outputs, o, r);
      }
    }
  }

  lemma OutputWithin(d: Tables, run: set<File>, floor: nat, outputs: set<File>, o: File)
    requires AllTight(d.written, d.committed) && Whole(d, run) && Rewrites(d, run, floor, outputs)
    requires o in outputs
    ensures Start(run) <= o.start && o.end <= End(run)
  {
    assert Holds(outputs, o.start) && Holds(outputs, o.end - 1);
    WrittenLoose(d, run);
    HeldInSpan(run, d.committed, o.start);
    HeldInSpan(run, d.committed, o.end - 1);
  }

  lemma OutputRow(d: Tables, run: set<File>, floor: nat, outputs: set<File>, o: File, r: nat)
    requires AllTight(d.written, d.committed) && Whole(d, run) && Rewrites(d, run, floor, outputs)
    requires o in outputs && Start(run) <= o.start && o.end <= End(run)
    ensures r in o.rows <==> r in d.committed && o.start <= r < o.end
  {
    if r in o.rows {
      assert Holds(outputs, r);
      var f :| f in run && r in f.rows;
      assert Tight(f, d.committed);
    }
    assert r in d.committed && o.start <= r < o.end ==> Holds(run, r);
    if r in d.committed && o.start <= r < o.end {
      var q :| q in outputs && r in q.rows;
      assert q == o || Apart(q, o);
    }
  }

  lemma OutputsRewritten(d: Tables, run: set<File>, floor: nat, outputs: set<File>)
    requires AllTight(d.written, d.committed) && Whole(d, run) && run <= d.staging
    requires Rewrites(d, run, floor, outputs)
    ensures OpSafe(FilesAdded(d, outputs, Paths(outputs)), Merged(run, floor, outputs))
  {
    hide Disjoint;
    OutputsTight(d, run, floor, outputs);
  }

  lemma CommitMergeStep(s: State, id: nat)
    requires Safe(s) && Enabled(s, CommitMerge(id))
    ensures Safe(Apply(s, CommitMerge(id)))
  {
    hide SafeOk, OpSafe, MergeOk, ReplaceRun;
    var op := s.ops[id];
    var e := ReplaceRun(s.d, op.run, op.outputs);
    MergedIsOk(s.d, op);
    MergeKeeps(s.d, op.run, op.outputs);
    forall i | i in s.ops && i != id ensures OpSafe(e, s.ops[i]) {
      assert !Conflict(s.ops[id], s.ops[i]) && !Conflict(s.ops[i], s.ops[id]);
      SafeFiles(s.d);
      MergeKeepsOp(s.d, op.run, op.outputs, s.ops[i]);
    }
    OneGone(s, e, id);
  }

  lemma MergedIsOk(d: Tables, op: Op)
    requires op.Merged? && OpSafe(d, op)
    ensures MergeOk(d, op.run, op.outputs)
  {
  }

  // ----- an eviction -----

  lemma DecideEvictStep(s: State, id: nat, below: nat)
    requires Safe(s) && Enabled(s, DecideEvict(id, below))
    ensures Safe(Apply(s, DecideEvict(id, below)))
  {
    hide SafeOk, OpSafe, Quiet, Leaving;
    LeavingKeeps(s.d, below);
    LeavingIsQuiet(s.d, below);
    QuietStep(s, Leaving(s.d, below));
    LeavingIsDropping(s.d, s.ops[id].hi, below);
    Advanced(s, Leaving(s.d, below), id, Dropping(s.ops[id].hi, below));
  }

  lemma LeavingIsQuiet(d: Tables, below: nat)
    ensures Quiet(d, Leaving(d, below))
  {
  }

  lemma LeavingIsDropping(d: Tables, hi: nat, below: nat)
    requires SafeOk(d) && below <= hi && below <= d.through + 1
    requires exists f :: f in d.staging && f.end == below
    ensures OpSafe(Leaving(d, below), Dropping(hi, below))
  {
    hide Legs, Watermark, TierRow, Tight, Loose, UniquePaths, RowsApart, Holds;
    LeavingKeeps(d, below);
    var f :| f in d.staging && f.end == below;
    forall g | g in d.staging ensures g.end <= below || below <= g.start {
      assert g == f || Apart(f, g);
    }
  }

  lemma CommitEvictStep(s: State, id: nat)
    requires Safe(s) && Enabled(s, CommitEvict(id))
    ensures Safe(Apply(s, CommitEvict(id)))
  {
    hide SafeOk, OpSafe, EvictOk;
    var op := s.ops[id];
    var e := Evicted(s.d, op.below);
    DroppingIsOk(s.d, op);
    EvictKeeps(s.d, op.below);
    forall i | i in s.ops && i != id ensures OpSafe(e, s.ops[i]) {
      assert !Conflict(s.ops[id], s.ops[i]);
      EvictKeepsOp(s.d, op.hi, op.below, s.ops[i]);
    }
    OneGone(s, e, id);
  }

  lemma DroppingIsOk(d: Tables, op: Op)
    requires op.Dropping? && OpSafe(d, op)
    ensures EvictOk(d, op.below)
  {
  }

  lemma EvictBufferStep(s: State, start: nat, below: nat)
    requires Safe(s) && Enabled(s, EvictBuffer(start, below))
    ensures Safe(Apply(s, EvictBuffer(start, below)))
  {
    hide SafeOk, OpSafe;
    EvictBufferKeeps(s.d, start, below);
    QuietStep(s, s.d.(buffer := set r | r in s.d.buffer && !(start <= r < below)));
  }

  // ----- a publish: what it reads, confirms and forgets -----

  /** One publish moves on, the tables as they are. */
  lemma MovesOn(s: State, id: nat, phase: Phase)
    requires Safe(s) && CanPublish(s, id) && OpSafe(s.d, Publishing(s.ops[id].range, phase))
    ensures Safe(State(s.d, s.ops[id := Publishing(s.ops[id].range, phase)]))
  {
    hide SafeOk, OpSafe;
    Advanced(s, s.d, id, Publishing(s.ops[id].range, phase));
  }

  lemma ReadStagingStep(s: State, id: nat)
    requires Safe(s) && Enabled(s, ReadStaging(id))
    ensures Safe(Apply(s, ReadStaging(id)))
  {
    hide Legs, Watermark, TierRow, NoneClash;
    assert OpSafe(s.d, s.ops[id]);
    assert OpSafe(s.d, Publishing(s.ops[id].range, Staged(s.d.staging)));
    MovesOn(s, id, Staged(s.d.staging));
  }

  lemma LookStep(s: State, id: nat)
    requires Safe(s) && Enabled(s, Look(id))
    ensures Safe(Apply(s, Look(id)))
  {
    hide SafeOk, AllPublished, LinedUp, HeldPaths, NoneClash;
    var range, files := s.ops[id].range, s.ops[id].phase.files;
    assert OpSafe(s.d, s.ops[id]);
    SeenPublished(s.d);
    LinedSeen(s.d, range, files);
    MovesOn(s, id, Looked(End(s.d.published), HeldPaths(s.d, files), LinedUp(s.d, files)));
  }

  lemma LinedSeen(d: Tables, range: Range, files: set<File>)
    requires SafeOk(d) && OpSafe(d, Publishing(range, Staged(files)))
    ensures AllSeen(d, LinedUp(d, files))
  {
    hide Legs, Watermark, TierRow, Tight, Loose, RowsApart, UniquePaths, Disjoint;
    forall m | m in LinedUp(d, files) ensures SwapSeen(d, m) {
      var p :| p in d.published && !Apart(p, m);
      assert m.start <= p.start < p.end <= End(d.published);
    }
  }

  lemma PhaseStep(s: State, step: Step)
    requires Safe(s) && Enabled(s, step) && (step.ReadIntents? || step.ListSwaps? || step.ListPush?)
    ensures Safe(Apply(s, step))
  {
    hide Safe, OpSafe;
    var id := step.id;
    InFlight(s, id);
    PhaseMoves(s, step);
    MovesOn(s, id, Advance(s, step)[id].phase);
  }

  lemma PhaseMoves(s: State, step: Step)
    requires Enabled(s, step) && (step.ReadIntents? || step.ListSwaps? || step.ListPush?)
    requires OpSafe(s.d, s.ops[step.id])
    ensures OpSafe(s.d, Publishing(s.ops[step.id].range, Advance(s, step)[step.id].phase))
  {
    hide AllPublished, LandedPaths, DeadIntents, SwapSeen, ReadsFrozen;
  }

  lemma ForgetStep(s: State, id: nat, intent: Intent)
    requires Safe(s) && Enabled(s, Forget(id, intent))
    ensures Safe(Apply(s, Forget(id, intent)))
  {
    hide SafeOk, OpSafe;
    var e := Forgotten(s.d, intent);
    IntentsStep(s, s.d.intents - {intent});
    ForgottenIs(s, id, intent);
    Advanced(s, e, id, Advance(s, Forget(id, intent))[id]);
  }

  lemma ForgottenIs(s: State, id: nat, intent: Intent)
    requires Safe(s) && Enabled(s, Forget(id, intent))
    ensures OpSafe(Forgotten(s.d, intent), Advance(s, Forget(id, intent))[id])
    ensures ClaimOf(Advance(s, Forget(id, intent))[id]) == ClaimOf(s.ops[id])
  {
    hide SafeOk, NoneClash;
    assert OpSafe(s.d, s.ops[id]);
  }

  lemma SeenPublished(d: Tables)
    requires SafeOk(d)
    ensures AllPublished(d, End(d.published))
  {
    hide Tight, Loose, Watermark, TierRow;
    SpanPublished(d);
  }

  lemma SawPublishedStep(s: State, confirm: nat, landed: set<nat>)
    requires Safe(s) && Enabled(s, SawPublished(confirm, landed))
    ensures Safe(Apply(s, SawPublished(confirm, landed)))
  {
    hide SafeOk, AllPublished;
    SeenPublished(s.d);
    Claimed(s, confirm, Confirming(End(s.d.published), landed));
  }

  lemma ConfirmStep(s: State, end: nat, paths: set<nat>)
    requires Safe(s) && AllPublished(s.d, end)
    ensures SafeOk(ConfirmedTo(s.d, end, paths))
    ensures forall id :: OthersSafe(s, ConfirmedTo(s.d, end, paths), id)
  {
    hide SafeOk, OpSafe, Quiet, ConfirmedTo, AllPublished;
    ConfirmKeeps(s.d, end, paths);
    ConfirmQuiet(s.d, end, paths);
    QuietStep(s, ConfirmedTo(s.d, end, paths));
  }

  lemma ConfirmQuiet(d: Tables, end: nat, paths: set<nat>)
    ensures Quiet(d, ConfirmedTo(d, end, paths))
  {
  }

  lemma ReconcileStep(s: State, id: nat)
    requires Safe(s) && Enabled(s, Reconcile(id))
    ensures Safe(Apply(s, Reconcile(id)))
  {
    hide SafeOk, OpSafe, AllPublished;
    var op := s.ops[id];
    var e := ConfirmedTo(s.d, op.phase.floor, op.phase.landed);
    NotedIs(s.d, op);
    ConfirmStep(s, op.phase.floor, op.phase.landed);
    Advanced(s, e, id, Publishing(op.range, Reconciled(op.phase.floor, op.phase.dead, op.phase.swaps)));
  }

  lemma NotedIs(d: Tables, op: Op)
    requires op.Publishing? && op.phase.Noted? && OpSafe(d, op)
    ensures AllPublished(d, op.phase.floor)
    ensures OpSafe(ConfirmedTo(d, op.phase.floor, op.phase.landed),
                   Publishing(op.range, Reconciled(op.phase.floor, op.phase.dead, op.phase.swaps)))
  {
    hide AllPublished;
  }

  lemma ConfirmOpStep(s: State, id: nat)
    requires Safe(s) && Enabled(s, Confirm(id))
    ensures Safe(Apply(s, Confirm(id)))
  {
    hide SafeOk;
    assert OpSafe(s.d, s.ops[id]);
    ConfirmStep(s, s.ops[id].end, s.ops[id].paths);
    OneGone(s, ConfirmedTo(s.d, s.ops[id].end, s.ops[id].paths), id);
  }

  /** Intents are names: adding or dropping one moves no row and no file. */
  lemma IntentsStep(s: State, intents: set<Intent>)
    requires Safe(s)
    ensures Safe(State(s.d.(intents := intents), s.ops))
    ensures SafeOk(s.d.(intents := intents))
    ensures forall id :: OthersSafe(s, s.d.(intents := intents), id)
  {
    hide OpSafe, FilesOk;
    assert FilesOk(s.d.(intents := intents)) by { FilesKeepIntents(s.d, intents); }
    UnfiledUnread(s.d, s.d.(intents := intents));
    QuietStep(s, s.d.(intents := intents));
  }

  lemma FilesKeepIntents(d: Tables, intents: set<Intent>)
    requires FilesOk(d)
    ensures FilesOk(d.(intents := intents))
  {
  }

  // ----- a publish: its commits -----

  lemma IntendSwapStep(s: State, id: nat, m: File)
    requires Safe(s) && Enabled(s, IntendSwap(id, m))
    ensures Safe(Apply(s, IntendSwap(id, m)))
  {
    hide SafeOk;
    var op := s.ops[id];
    assert OpSafe(s.d, op);
    IntentsStep(s, s.d.intents + {AsIntent(m)});
    SwapBegins(s.d, op.range, m, op.phase);
    Advanced(s, Intended(s.d, m), id,
             Publishing(op.range, Swapping(m, op.phase.floor, op.phase.swaps - {m}, op.phase.choice)));
  }

  lemma SwapBegins(d: Tables, range: Range, m: File, phase: Phase)
    requires RangeOk(d, range) && phase.Working? && PhaseSafe(d, range, phase) && m in phase.swaps
    ensures OpSafe(Intended(d, m), Publishing(range, Swapping(m, phase.floor, phase.swaps - {m}, phase.choice)))
  {
  }

  lemma CommitSwapStep(s: State, id: nat, confirm: nat, cuts: set<File>)
    requires Safe(s) && Enabled(s, CommitSwap(id, confirm, cuts))
    ensures Safe(Apply(s, CommitSwap(id, confirm, cuts)))
  {
    hide SafeOk, OpSafe, SwapIn, CutsOk, Grown;
    var op := s.ops[id];
    var m := op.phase.merged;
    var e := SwapIn(s.d, m, cuts);
    SwappingIs(s.d, op);
    SwapKeeps(s.d, m, cuts);
    SwapGrown(s.d, m, cuts);
    GrownStep(s, id, e);
    SwapDone(s.d, op, cuts);
    var working := Publishing(op.range, Working(Later(op.phase.floor, m.end), op.phase.swaps, op.phase.choice));
    Advanced(s, e, id, working);
    SwapConfirms(s.d, m, cuts);
    Claimed(State(e, s.ops[id := working]), confirm, Confirming(m.end, {m.path}));
  }

  lemma SwappingIs(d: Tables, op: Op)
    requires op.Publishing? && op.phase.Swapping? && OpSafe(d, op)
    ensures SwapSeen(d, op.phase.merged)
  {
  }

  /** Everybody else keeps what they rely on while the published table only grows: a
      truncation would hold a claim over everything. */
  lemma GrownStep(s: State, id: nat, e: Tables)
    requires Safe(s) && Grown(s.d, e) && id in s.ops && s.ops[id].Publishing?
    ensures OthersSafe(s, e, id)
  {
    hide SafeOk, OpSafe, Grown;
    forall i | i in s.ops && i != id ensures OpSafe(e, s.ops[i]) {
      assert !Conflict(s.ops[id], s.ops[i]);
      GrownKeepsOp(s.d, e, s.ops[i]);
    }
  }

  lemma SwapDone(d: Tables, op: Op, cuts: set<File>)
    requires SafeOk(d) && op.Publishing? && op.phase.Swapping? && OpSafe(d, op)
    requires CutsOk(d, op.phase.merged, cuts)
    ensures OpSafe(SwapIn(d, op.phase.merged, cuts),
                   Publishing(op.range, Working(Later(op.phase.floor, op.phase.merged.end), op.phase.swaps,
                                                op.phase.choice)))
  {
    hide SafeOk, CutsOk, SwapIn, Holds;
    var m := op.phase.merged;
    SwapGrown(d, m, cuts);
    assert m.end <= End(SwapIn(d, m, cuts).published) by { SwapReaches(d, m, cuts); }
  }

  lemma SwapReaches(d: Tables, m: File, cuts: set<File>)
    ensures m in SwapIn(d, m, cuts).published && m.end <= End(SwapIn(d, m, cuts).published)
  {
  }

  lemma SwapConfirms(d: Tables, m: File, cuts: set<File>)
    requires SafeOk(d) && SwapSeen(d, m) && CutsOk(d, m, cuts)
    ensures OpSafe(SwapIn(d, m, cuts), Confirming(m.end, {m.path}))
  {
    hide FilesOk, Legs, Watermark, TierRow, CutsOk, SwapIn;
    SwapKeeps(d, m, cuts);
    SwapReaches(d, m, cuts);
    SwapKeepsRest(d, m, cuts);
    assert m.end - 1 in d.committed by { LastCommitted(d, m); }
    PublishedUpTo(SwapIn(d, m, cuts), m.end);
  }

  lemma LastCommitted(d: Tables, f: File)
    requires FilesOk(d) && f in d.written
    ensures 1 <= f.end && f.end - 1 in d.committed
  {
    assert Tight(f, d.committed);
  }

  lemma PublishedUpTo(d: Tables, end: nat)
    requires Legs(d) && 1 <= end <= End(d.published) && end - 1 in d.committed
    ensures AllPublished(d, end)
  {
  }

  lemma IntendPushStep(s: State, id: nat, f: File)
    requires Safe(s) && Enabled(s, IntendPush(id, f))
    ensures Safe(Apply(s, IntendPush(id, f)))
  {
    hide SafeOk, OpSafe, NextPending;
    var op := s.ops[id];
    IntentsStep(s, s.d.intents + {AsIntent(f)});
    assert FilesOk(s.d) by { SafeFiles(s.d); }
    PushGrows(s.d, op.range, op.phase, f);
    Advanced(s, Intended(s.d, f), id,
             Publishing(op.range, Pushing(PushedFiles(op.phase) + {f}, f.end, op.phase.choice, op.phase.listing)));
  }

  lemma PushGrows(d: Tables, range: Range, phase: Phase, f: File)
    requires FilesOk(d) && OpSafe(d, Publishing(range, phase))
    requires phase.Chosen? || phase.Pushing?
    requires NextPending(d, PushedTo(phase), f) && WithinBound(range, f.end)
    ensures OpSafe(Intended(d, f),
                   Publishing(range, Pushing(PushedFiles(phase) + {f}, f.end, phase.choice, phase.listing)))
  {
    if phase.Pushing? {
      PushExtends(d, range, phase, f);
    } else {
      assert {} + {f} == {f};
      PushBegins(d, range, phase, f);
    }
  }

  lemma PushBegins(d: Tables, range: Range, phase: Phase, f: File)
    requires FilesOk(d) && RangeOk(d, range) && PhaseSafe(d, range, phase) && phase.Chosen?
    requires NextPending(d, PushedTo(phase), f) && WithinBound(range, f.end)
    ensures OpSafe(Intended(d, f), Publishing(range, Pushing({f}, f.end, phase.choice, phase.listing)))
  {
    hide Tight, Loose, UniquePaths, Disjoint, RowsApart, AllSeen;
    assert PushedTo(phase) <= End(d.published) && FloorOk(d, range, PushedTo(phase));
    assert End({f}) == f.end by { assert f in {f}; }
    assert range.Span? ==> range.lo < f.end;
    assert RangeOk(Intended(d, f), range);
    assert PhaseSafe(Intended(d, f), range, Pushing({f}, f.end, phase.choice, phase.listing));
  }

  lemma PushExtends(d: Tables, range: Range, phase: Phase, f: File)
    requires forall g :: g in d.staging ==> g.start < g.end
    requires RangeOk(d, range) && phase.Pushing? && PhaseSafe(d, range, phase)
    requires NextPending(d, phase.upTo, f) && WithinBound(range, f.end)
    ensures OpSafe(Intended(d, f),
                   Publishing(range, Pushing(phase.files + {f}, f.end, phase.choice, phase.listing)))
  {
    var files, upTo := phase.files, phase.upTo;
    EndOfUnion(files, {f});
    assert End({f}) == f.end by { assert f in {f}; }
    var u :| u in files && u.end == upTo;
    assert range.Span? ==> range.lo < f.end;
    assert RangeOk(Intended(d, f), range);
    assert PhaseSafe(Intended(d, f), range, Pushing(files + {f}, f.end, phase.choice, phase.listing));
  }

  lemma CommitPushStep(s: State, id: nat, confirm: nat)
    requires Safe(s) && Enabled(s, CommitPush(id, confirm))
    ensures Safe(Apply(s, CommitPush(id, confirm)))
  {
    hide SafeOk, OpSafe, PushOk, Grown;
    var op := s.ops[id];
    var files, upTo := op.phase.files, op.phase.upTo;
    if PushRegisters(s.d, files) {
      var e := Pushed(s.d, files);
      PushingIs(s.d, op);
      PushKeeps(s.d, files, upTo);
      PushedGrown(s.d, files, upTo);
      GrownStep(s, id, e);
      OneGone(s, e, id);
      PushConfirms(s.d, files, upTo);
      Claimed(State(e, s.ops - {id}), confirm, Confirming(upTo, Paths(files)));
    } else {
      OneGone(s, s.d, id);
    }
  }

  lemma PushedGrown(d: Tables, files: set<File>, upTo: nat)
    requires SafeOk(d) && PushOk(d, files, upTo)
    ensures Grown(d, Pushed(d, files))
  {
    hide FilesOk, Legs, Watermark, TierRow, PushOk, Grown;
    PushGrown(d, files, upTo);
  }

  lemma PushingIs(d: Tables, op: Op)
    requires op.Publishing? && op.phase.Pushing? && OpSafe(d, op) && PushRegisters(d, op.phase.files)
    ensures PushOk(d, op.phase.files, op.phase.upTo)
  {
    RegistersOk(d, op.range, op.phase);
  }

  lemma PushConfirms(d: Tables, files: set<File>, upTo: nat)
    requires SafeOk(d) && PushOk(d, files, upTo)
    ensures OpSafe(Pushed(d, files), Confirming(upTo, Paths(files)))
  {
    hide FilesOk, Legs, Watermark, TierRow, PushOk;
    PushKeeps(d, files, upTo);
    PushTop(d, files, upTo);
    PublishedUpTo(Pushed(d, files), upTo);
  }

  lemma PushTop(d: Tables, files: set<File>, upTo: nat)
    requires FilesOk(d) && PushOk(d, files, upTo)
    ensures 1 <= upTo && upTo - 1 in d.committed && End(Pushed(d, files).published) == upTo
  {
    hide Tight, Loose, RowsApart;
    PushedSpan(d, files, upTo);
    var u :| u in files && u.end == upTo;
    LastCommitted(d, u);
  }

  // ----- truncation, the tier row and the queue -----

  lemma NarrowStep(s: State, id: nat)
    requires Safe(s) && Enabled(s, NarrowTier(id))
    ensures Safe(Apply(s, NarrowTier(id)))
  {
    hide SafeOk, OpSafe;
    Alone(s, id);
    var tier := Some(ReachablePublished(s.d));
    NarrowKeeps(s.d);
    forall i | i in s.ops ensures OpSafe(s.d.(tier := tier), s.ops[i]) {
      TierIrrelevant(s.d, tier, s.ops[i]);
    }
  }

  lemma NarrowKeeps(d: Tables)
    requires SafeOk(d)
    ensures SafeOk(d.(tier := Some(ReachablePublished(d))))
  {
    hide Tight, Loose, Holds;
  }

  lemma WidenStep(s: State, rows: set<nat>)
    requires Safe(s)
    ensures Safe(Apply(s, WidenTier(rows)))
  {
    hide SafeOk, OpSafe;
    WidenKeeps(s.d, rows);
    QuietStep(s, s.d.(tier := Widened(s.d.tier, rows)));
  }

  lemma WidenKeeps(d: Tables, rows: set<nat>)
    requires SafeOk(d)
    ensures SafeOk(d.(tier := Widened(d.tier, rows)))
  {
    hide Tight, Loose, Holds;
  }

  lemma CutBufferIsQuiet(d: Tables, floor: nat)
    ensures Quiet(d, d.(buffer := set r | r in d.buffer && floor <= r))
  {
  }

  /** A truncation under way has nobody else's claim beside it. */
  lemma TruncatesAlone(s: State, id: nat, e: Tables, op: Op)
    requires NoneClash(s) && id in s.ops && s.ops[id].Truncating? && op.Truncating?
    requires SafeOk(e) && OpSafe(e, op)
    requires forall i :: i in s.ops && s.ops[i].Confirming? ==> OpSafe(e, s.ops[i])
    ensures Safe(State(e, s.ops[id := op]))
  {
    hide SafeOk, OpSafe;
    Alone(s, id);
    Advanced(s, e, id, op);
  }

  lemma TruncateBufferStep(s: State, id: nat)
    requires Safe(s) && Enabled(s, TruncateBuffer(id))
    ensures Safe(Apply(s, TruncateBuffer(id)))
  {
    hide SafeOk, OpSafe, Quiet;
    var floor := s.ops[id].floor;
    var e := s.d.(buffer := set r | r in s.d.buffer && floor <= r);
    TruncatingIs(s.d, floor);
    CutBufferKeeps(s.d, floor);
    CutBufferIsQuiet(s.d, floor);
    QuietStep(s, e);
    Advanced(s, e, id, Truncating(floor, 1));
  }

  lemma TruncatingIs(d: Tables, floor: nat)
    requires OpSafe(d, Truncating(floor, 0))
    ensures floor <= d.through + 1
    ensures OpSafe(d.(buffer := set r | r in d.buffer && floor <= r), Truncating(floor, 1))
  {
  }

  lemma TruncateStagingStep(s: State, id: nat)
    requires Safe(s) && Enabled(s, TruncateStaging(id))
    ensures Safe(Apply(s, TruncateStaging(id)))
  {
    hide *;
    StagingCutIs(s, id);
    var floor := s.ops[id].floor;
    var e := Evicted(Leaving(s.d, floor), floor);
    InFlight(s, id);
    StagingCut(s.d, floor);
    forall i | i in s.ops && s.ops[i].Confirming? ensures OpSafe(e, s.ops[i]) {
      InFlight(s, i);
      OthersAfterStaging(s.d, floor, s.ops[i]);
    }
    TruncatesAlone(s, id, e, Truncating(floor, 2));
  }

  lemma StagingCutIs(s: State, id: nat)
    requires Enabled(s, TruncateStaging(id))
    ensures id in s.ops && s.ops[id].Truncating? && s.ops[id] == Truncating(s.ops[id].floor, 1)
    ensures var floor := s.ops[id].floor;
      Apply(s, TruncateStaging(id)) == State(Evicted(Leaving(s.d, floor), floor), s.ops[id := Truncating(floor, 2)])
  {
  }

  lemma OthersAfterStaging(d: Tables, floor: nat, op: Op)
    requires OpSafe(d, op) && op.Confirming?
    ensures OpSafe(Evicted(Leaving(d, floor), floor), op)
  {
    hide Holds;
    StagingIrrelevant(d, Evicted(Leaving(d, floor), floor), op.end);
  }

  /** Staging cut under a truncation's claim, once the buffer has been. */
  lemma StagingCut(d: Tables, floor: nat)
    requires SafeOk(d) && OpSafe(d, Truncating(floor, 1))
    ensures var e := Evicted(Leaving(d, floor), floor);
      SafeOk(e) && OpSafe(e, Truncating(floor, 2))
  {
    hide Legs, Watermark, TierRow, Tight, Loose, UniquePaths, RowsApart, Holds;
    LeavingKeeps(d, floor);
    EvictKeeps(Leaving(d, floor), floor);
  }

  lemma TruncatePublishedStep(s: State, id: nat)
    requires Safe(s) && Enabled(s, TruncatePublished(id))
    ensures Safe(Apply(s, TruncatePublished(id)))
  {
    hide *;
    PublishedCutIs(s, id);
    var floor := s.ops[id].floor;
    InFlight(s, id);
    PublishedCut(s.d, floor);
    forall i | i in s.ops && s.ops[i].Confirming? ensures OpSafe(CutPublished(s.d, floor), s.ops[i]) {
      InFlight(s, i);
      OthersAfterCut(s.d, floor, s.ops[i]);
    }
    TruncatesAlone(s, id, CutPublished(s.d, floor), Truncating(floor, 3));
  }

  lemma PublishedCutIs(s: State, id: nat)
    requires Enabled(s, TruncatePublished(id))
    ensures id in s.ops && s.ops[id].Truncating? && s.ops[id] == Truncating(s.ops[id].floor, 2)
    ensures var floor := s.ops[id].floor;
      Apply(s, TruncatePublished(id)) == State(CutPublished(s.d, floor), s.ops[id := Truncating(floor, 3)])
  {
  }

  /** The published table cut, once staging has been. */
  lemma PublishedCut(d: Tables, floor: nat)
    requires SafeOk(d) && OpSafe(d, Truncating(floor, 2))
    ensures SafeOk(CutPublished(d, floor)) && OpSafe(CutPublished(d, floor), Truncating(floor, 3))
  {
    hide Legs, Watermark, TierRow, Tight, Loose, UniquePaths, RowsApart, Holds;
    CutKeeps(d, floor);
  }

  lemma OthersAfterCut(d: Tables, floor: nat, op: Op)
    requires SafeOk(d) && OpSafe(d, Truncating(floor, 2)) && OpSafe(d, op) && op.Confirming?
    ensures OpSafe(CutPublished(d, floor), op)
  {
    hide Legs, Watermark, TierRow, Tight, Loose, UniquePaths, RowsApart, Holds, CutPublished;
    CutKeepsPublished(d, floor, op.end);
  }

  lemma DrainStep(s: State, path: nat)
    requires Safe(s) && Enabled(s, Drain(path))
    ensures Safe(Apply(s, Drain(path)))
  {
    hide SafeOk, OpSafe;
    var e := s.d.(queued := s.d.queued - {path});
    QueueKeeps(s.d, s.d.queued - {path});
    forall i | i in s.ops ensures OpSafe(e, s.ops[i]) {
      DrainKeepsOp(s.d, path, s.ops[i]);
    }
  }

  lemma QueueKeeps(d: Tables, queued: set<nat>)
    requires SafeOk(d)
    ensures SafeOk(d.(queued := queued))
  {
    UnfiledUnread(d, d.(queued := queued));
  }

  lemma EnqueueStep(s: State, path: nat)
    requires Safe(s)
    ensures Safe(Apply(s, Enqueue(path)))
  {
    hide SafeOk, OpSafe;
    QueueKeeps(s.d, s.d.queued + {path});
    QuietStep(s, s.d.(queued := s.d.queued + {path}));
  }

  // ----- every step, every run -----

  lemma ClaimStep(s: State, step: Step, id: nat, op: Op)
    requires Safe(s) && Enabled(s, step) && Takes(s, step, id, op)
    ensures Safe(Apply(s, step))
  {
    hide SafeOk, OpSafe, Takes;
    TakesClaim(s, step, id, op);
    Claimed(s, id, op);
  }

  /** The operation a claim begins. */
  ghost predicate Takes(s: State, step: Step, id: nat, op: Op) {
    match step
    case ClaimSeal(i, lo, hi) => id == i && op == Sealing(lo, hi)
    case ClaimIngest(i) => id == i && op == Ingesting
    case ClaimMerge(i, run) => id == i && op == Compacting(run)
    case ClaimEvict(i, hi) => id == i && op == Evicting(hi)
    case ClaimPublish(i, range) => id == i && op == Publishing(range, Opened)
    case ClaimTruncate(i, floor) => id == i && op == Truncating(floor, 0)
    case _ => false
  }

  lemma TakesClaim(s: State, step: Step, id: nat, op: Op)
    requires Enabled(s, step) && Takes(s, step, id, op)
    ensures id !in s.ops && OpSafe(s.d, op) && ClaimOf(op).Some? && Unclaimed(s, ClaimOf(op).value)
    ensures Apply(s, step) == State(s.d, s.ops[id := op])
  {
    hide GroupOk, Whole, Unclaimed;
  }

  lemma DropStep(s: State, id: nat)
    requires Safe(s) && Enabled(s, Drop(id))
    ensures Safe(Apply(s, Drop(id)))
  {
    hide SafeOk, OpSafe;
    OneGone(s, s.d, id);
  }

  lemma IntentStep(s: State, step: Step)
    requires Safe(s) && Enabled(s, step)
    requires step.StrayForget? || step.StrayIntent?
    ensures Safe(Apply(s, step))
  {
    hide SafeOk, OpSafe;
    match step
    case StrayForget(intent) => IntentsStep(s, s.d.intents - {intent});
    case StrayIntent(f) => IntentsStep(s, s.d.intents + {AsIntent(f)});
  }

  /** Whatever step is taken, by whomever, what every run keeps is kept. */
  lemma StepSafe(s: State, step: Step)
    requires Safe(s) && Enabled(s, step)
    ensures Safe(Apply(s, step))
  {
    hide Safe, Enabled, Write, Advance, Apply;
    match step
    case Append(count) => AppendStep(s, count);
    case Reserve(count) => ReserveStep(s, count);
    case ClaimSeal(id, lo, hi) => ClaimStep(s, step, id, Sealing(lo, hi));
    case WriteSeal(id, path) => WriteSealStep(s, id, path);
    case RegisterSeal(id) => RegisterSealStep(s, id);
    case ClaimIngest(id) => ClaimStep(s, step, id, Ingesting);
    case RegisterIngest(id, path, start, end) => RegisterIngestStep(s, id, path, start, end);
    case ClaimMerge(id, run) => ClaimStep(s, step, id, Compacting(run));
    case CheckMerge(id) => CheckMergeStep(s, id);
    case ReadFloor(id) => ReadFloorStep(s, id);
    case WriteMerge(id, outputs) => WriteMergeStep(s, id, outputs);
    case CommitMerge(id) => CommitMergeStep(s, id);
    case ClaimEvict(id, hi) => ClaimStep(s, step, id, Evicting(hi));
    case DecideEvict(id, below) => DecideEvictStep(s, id, below);
    case CommitEvict(id) => CommitEvictStep(s, id);
    case ClaimPublish(id, range) => ClaimStep(s, step, id, Publishing(range, Opened));
    case ReadStaging(id) => ReadStagingStep(s, id);
    case Look(id) => LookStep(s, id);
    case ReadIntents(_) => PhaseStep(s, step);
    case SawPublished(confirm, landed) => SawPublishedStep(s, confirm, landed);
    case Reconcile(id) => ReconcileStep(s, id);
    case Forget(id, intent) => ForgetStep(s, id, intent);
    case StrayForget(_) => IntentStep(s, step);
    case ListSwaps(_, _, _) => PhaseStep(s, step);
    case IntendSwap(id, m) => IntendSwapStep(s, id, m);
    case CommitSwap(id, confirm, cuts) => CommitSwapStep(s, id, confirm, cuts);
    case ListPush(_, _) => PhaseStep(s, step);
    case IntendPush(id, f) => IntendPushStep(s, id, f);
    case CommitPush(id, confirm) => CommitPushStep(s, id, confirm);
    case Confirm(id) => ConfirmOpStep(s, id);
    case StrayIntent(_) => IntentStep(s, step);
    case WidenTier(rows) => WidenStep(s, rows);
    case NarrowTier(id) => NarrowStep(s, id);
    case EvictBuffer(start, below) => EvictBufferStep(s, start, below);
    case ClaimTruncate(id, floor) => ClaimStep(s, step, id, Truncating(floor, 0));
    case TruncateBuffer(id) => TruncateBufferStep(s, id);
    case TruncateStaging(id) => TruncateStagingStep(s, id);
    case TruncatePublished(id) => TruncatePublishedStep(s, id);
    case Enqueue(path) => EnqueueStep(s, path);
    case Drain(path) => DrainStep(s, path);
    case Drop(id) => DropStep(s, id);
  }
}
