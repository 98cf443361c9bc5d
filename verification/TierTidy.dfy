/** An orderly step keeps, besides what every step keeps, every published file whole,
    covered and lined up with staging, and the premise of every swap, push and merge. */
module TierTidy {
  import opened Options
  import opened TierState
  import opened TierSteps
  import opened TierTables
  import opened TierMerge
  import opened TierPublish
  import opened TierEvict
  import opened TierOps
  import opened TierRuns

  // ----- steps that leave both tables' files alone -----

  ghost predicate KeepsProtected(d: Tables, e: Tables) {
    forall f :: f in d.written && Protected(d, f) ==> Protected(e, f)
  }

  ghost predicate Still(d: Tables, e: Tables) {
    && e.low == d.low && e.staging == d.staging && e.published == d.published
    && d.through <= e.through && d.names <= e.names && d.written <= e.written
    && (forall f :: f in e.written ==> f in d.written || f.path !in d.names)
  }

  lemma StillKeeps(d: Tables, e: Tables, op: Op)
    requires Still(d, e) && KeepsProtected(d, e) && OpNeat(d, op)
    requires d.staging <= d.written && (op.Publishing? ==> OpSafe(d, op))
    ensures OpNeat(e, op)
  {
    hide *;
    match op
    case Publishing(range, phase) => StillPublishing(d, e, range, phase);
    case Confirming(end, paths) => StillConfirming(d, e, end, paths);
    case _ => StillOther(d, e, op);
  }

  lemma StillOther(d: Tables, e: Tables, op: Op)
    requires Still(d, e) && OpNeat(d, op) && !op.Publishing? && !op.Confirming?
    ensures OpNeat(e, op)
  {
  }

  lemma StillConfirming(d: Tables, e: Tables, end: nat, paths: set<nat>)
    requires Still(d, e) && OpNeat(d, Confirming(end, paths))
    ensures OpNeat(e, Confirming(end, paths))
  {
    StillPaths(d, e, end, paths);
  }

  lemma StillPaths(d: Tables, e: Tables, end: nat, paths: set<nat>)
    requires Still(d, e) && PathsBelow(d, end, paths)
    ensures PathsBelow(e, end, paths)
  {
  }

  lemma StillPublishing(d: Tables, e: Tables, range: Range, phase: Phase)
    requires Still(d, e) && KeepsProtected(d, e) && d.staging <= d.written
    requires OpNeat(d, Publishing(range, phase)) && OpSafe(d, Publishing(range, phase))
    ensures OpNeat(e, Publishing(range, phase))
  {
    hide SwapFits, PathsBelow, AllPublished, Protected, Disjoint;
    assert Fresh(e, range) <==> Fresh(d, range);
    match phase
    case Opened =>
    case Staged(files) => StillStaged(d, e, range, files);
    case Looked(floor, held, swaps) =>
      StillView(d, e, range, floor, swaps, None);
      StillPaths(d, e, floor, held);
    case Noted(floor, landed, dead, swaps) =>
      StillView(d, e, range, floor, swaps, None);
      StillPaths(d, e, floor, landed);
    case Reconciled(floor, dead, swaps) => StillView(d, e, range, floor, swaps, None);
    case Working(floor, swaps, choice) => StillView(d, e, range, floor, swaps, Some(choice));
    case Swapping(m, floor, swaps, choice) => StillView(d, e, range, floor, swaps + {m}, Some(choice));
    case Chosen(floor, choice, listing) => StillView(d, e, range, floor, {}, Some(choice));
    case Pushing(files, upTo, choice, listing) =>
  }

  lemma StillStaged(d: Tables, e: Tables, range: Range, files: set<File>)
    requires Still(d, e) && (Fresh(d, range) ==> SnapshotNeat(d, files))
    ensures Fresh(e, range) ==> SnapshotNeat(e, files)
  {
    hide Disjoint;
    forall m | SwapFits(d, m) ensures SwapFits(e, m) { StillFits(d, e, m); }
  }

  lemma StillView(d: Tables, e: Tables, range: Range, floor: nat, swaps: set<File>, choice: Option<Choice>)
    requires Still(d, e) && ViewNeat(d, range, floor, swaps, choice)
    ensures ViewNeat(e, range, floor, swaps, choice)
  {
    hide LinesUp, Disjoint;
    forall m | m in swaps && SwapFits(d, m) ensures SwapFits(e, m) { StillFits(d, e, m); }
  }

  lemma StillFits(d: Tables, e: Tables, m: File)
    requires Still(d, e) && SwapFits(d, m)
    ensures SwapFits(e, m)
  {
  }

  /** What everybody relies on, past a step that leaves the tables' files alone. */
  lemma StillAll(s: State, e: Tables)
    requires Inv(s) && Still(s.d, e) && KeepsProtected(s.d, e)
    ensures forall i :: i in s.ops ==> OpNeat(e, s.ops[i])
  {
    hide SafeOk, Neat, OpSafe, OpNeat, Still, KeepsProtected;
    StagingWritten(s);
    forall i | i in s.ops ensures OpNeat(e, s.ops[i]) {
      StillKeeps(s.d, e, s.ops[i]);
    }
  }

  lemma StagingWritten(s: State)
    requires Safe(s)
    ensures s.d.staging <= s.d.written && FilesOk(s.d)
  {
  }

  // ----- a file being swapped in -----

  /** A publish whose claim reaches past the published end may swap `m` in. */
  ghost predicate Swappable(d: Tables, range: Range, m: File) {
    RangeOk(d, range) && Fresh(d, range) && SwapFits(d, m)
  }

  lemma StagedKeepsFit(d: Tables, f: File, m: File)
    requires f.start < f.end && Frontier(d) <= f.start && SwapFits(d, m)
    ensures SwapFits(d.(staging := d.staging + {f}), m)
  {
    assert m.end <= f.start;
  }

  lemma EvictKeepsFit(d: Tables, below: nat, m: File)
    requires SwapFits(d, m) && below <= d.through + 1
    requires d.published != {} ==> d.through < End(d.published)
    ensures SwapFits(Evicted(d, below), m)
  {
  }

  /** No staging file ends inside a file being swapped in, so one sharing a row holds it all. */
  lemma SwapWithin(d: Tables, m: File, f: File, r: nat)
    requires AllTight(d.written, d.committed) && d.staging <= d.written
    requires SwapFits(d, m) && f in d.staging
    requires r in f.rows && m.start <= r < m.end
    ensures f.start <= m.start && m.end <= f.end
    ensures m.start in f.rows && m.end - 1 in f.rows
  {
    assert Tight(f, d.committed) && Tight(m, d.committed);
    assert !Inside(f.start, m) && !Inside(f.end, m);
  }

  lemma SwapMeetsClaim(d: Tables, range: Range, m: File)
    requires Swappable(d, range, m)
    requires forall p :: p in d.published ==> d.low <= p.start < p.end
    requires End(d.published) < m.end
    ensures range.Span? ==> range.lo < m.end && m.start < range.hi
  {
    var p :| p in d.published && !Apart(p, m);
  }

  lemma SwapOutside(d: Tables, run: set<File>, range: Range, m: File)
    requires FilesOk(d) && Whole(d, run) && run <= d.staging
    requires Swappable(d, range, m)
    requires !Clashes(Span(Start(run), End(run)), range)
    ensures End(d.published) < m.end ==> m !in run
  {
    if End(d.published) < m.end {
      SwapMeetsClaim(d, range, m);
      RunApart(d, run);
    }
  }

  /** A file straddling the published end meets the publish's claim, so no merge has it. */
  lemma SwapBelowEnd(d: Tables, run: set<File>, range: Range, m: File, f: File, r: nat)
    requires FilesOk(d) && Whole(d, run) && run <= d.staging
    requires Swappable(d, range, m)
    requires !Clashes(Span(Start(run), End(run)), range)
    requires f in run && r in f.rows && m.start <= r < m.end
    ensures m.end <= End(d.published)
  {
    assert Tight(m, d.committed);
    SwapWithin(d, m, f, r);
    if End(d.published) < m.end {
      SharedRow(d, f, m, m.start);
      SwapOutside(d, run, range, m);
    }
  }

  ghost predicate Meets(run: set<File>, m: File) {
    exists f :: f in run && m.start in f.rows && m.end - 1 in f.rows
  }

  /** An input of a merge that meets a file being swapped in holds all of it, and
      that file lies below the published end. */
  lemma SwapInput(d: Tables, run: set<File>, outputs: set<File>, range: Range, m: File, o: File, r: nat)
    returns (f: File)
    requires FilesOk(d) && MergeOk(d, run, outputs)
    requires Swappable(d, range, m)
    requires !Clashes(Span(Start(run), End(run)), range)
    requires o in outputs && (r == o.start || r == o.end - 1) && m.start <= r < m.end
    ensures f in run && m.start in f.rows && m.end - 1 in f.rows
    ensures d.low <= m.end - 1 < End(d.published)
  {
    f := InputOf(d, run, outputs, o, r);
    SwapBelowEnd(d, run, range, m, f, r);
    SwapWithin(d, m, f, r);
  }

  lemma InputOf(d: Tables, run: set<File>, outputs: set<File>, o: File, r: nat) returns (f: File)
    requires AllTight(d.written, d.committed) && Whole(d, run) && Rewritten(d, run, outputs)
    requires o in outputs && (r == o.start || r == o.end - 1)
    ensures f in run && r in f.rows
  {
    assert Tight(o, d.committed);
    assert Holds(outputs, r);
    RecutRows(d, run, outputs);
    f :| f in run && r in f.rows;
  }

  lemma OutputOf(run: set<File>, outputs: set<File>, f: File, r: nat) returns (q: File)
    requires forall r {:trigger Holds(run, r)} :: Holds(run, r) ==> Holds(outputs, r)
    requires f in run && r in f.rows
    ensures q in outputs && r in q.rows
  {
    assert Holds(run, r);
    q :| q in outputs && r in q.rows;
  }

  lemma SettledTop(d: Tables, run: set<File>, floor: nat, f: File, r: nat)
    requires FilesOk(d) && run <= d.written
    requires PublishedWhole(d) && Settled(d, run, floor)
    requires f in run && r in f.rows && d.low <= r < End(d.published)
    ensures r < floor
  {
    assert Tight(f, d.committed);
    assert Holds(d.published, r);
    var p :| p in d.published && r in p.rows;
    assert Loose(p, d.committed);
  }

  /** Every published file a merge meets, this file included once swapped in, ends by its floor. */
  lemma SwapSettled(d: Tables, run: set<File>, floor: nat, m: File)
    requires FilesOk(d) && run <= d.written
    requires PublishedWhole(d) && Settled(d, run, floor)
    requires Meets(run, m) && d.low <= m.end - 1 < End(d.published)
    ensures m.end <= floor
  {
    var f :| f in run && m.start in f.rows && m.end - 1 in f.rows;
    SettledTop(d, run, floor, f, m.end - 1);
  }

  lemma SwapEndAligned(d: Tables, run: set<File>, floor: nat, outputs: set<File>, range: Range, m: File, o: File)
    requires FilesOk(d) && PublishedWhole(d) && MergeNeat(d, run, floor, outputs)
    requires Swappable(d, range, m)
    requires !Clashes(Span(Start(run), End(run)), range)
    requires o in outputs
    ensures !Inside(o.end, m)
  {
    if Inside(o.end, m) {
      var f := SwapInput(d, run, outputs, range, m, o, o.end - 1);
      assert Meets(run, m);
      SwapSettled(d, run, floor, m);
    }
  }

  /** The output before a cut inside the file being swapped in, which ends inside it too. */
  lemma SwapOutput(d: Tables, run: set<File>, outputs: set<File>, range: Range, m: File, o: File)
    returns (q: File)
    requires FilesOk(d) && MergeOk(d, run, outputs)
    requires Swappable(d, range, m)
    requires !Clashes(Span(Start(run), End(run)), range)
    requires o in outputs && Inside(o.start, m)
    ensures q in outputs && Inside(q.end, m)
  {
    var f := SwapInput(d, run, outputs, range, m, o, o.start);
    q := OutputOf(run, outputs, f, m.start);
    assert Tight(q, d.committed) && Tight(o, d.committed);
    assert Apart(q, o);
  }

  lemma SwapStartAligned(d: Tables, run: set<File>, floor: nat, outputs: set<File>, range: Range, m: File, o: File)
    requires FilesOk(d) && PublishedWhole(d) && MergeNeat(d, run, floor, outputs)
    requires Swappable(d, range, m)
    requires !Clashes(Span(Start(run), End(run)), range)
    requires o in outputs
    ensures !Inside(o.start, m)
  {
    if Inside(o.start, m) {
      var q := SwapOutput(d, run, outputs, range, m, o);
      SwapEndAligned(d, run, floor, outputs, range, m, q);
    }
  }

  /** A merge cuts inside no file a swap is about to publish. */
  lemma MergeKeepsFit(d: Tables, run: set<File>, floor: nat, outputs: set<File>, range: Range, m: File)
    requires FilesOk(d) && PublishedWhole(d) && MergeNeat(d, run, floor, outputs)
    requires Swappable(d, range, m)
    requires !Clashes(Span(Start(run), End(run)), range)
    ensures SwapFits(ReplaceRun(d, run, outputs), m)
  {
    ReplacedIs(d, run, outputs);
    SwapOutside(d, run, range, m);
    forall o | o in outputs ensures !Inside(o.start, m) && !Inside(o.end, m) {
      SwapEndAligned(d, run, floor, outputs, range, m, o);
      SwapStartAligned(d, run, floor, outputs, range, m, o);
    }
  }

  // ----- what a publish saw, past a step that changes the tables -----

  ghost predicate KeepsFits(d: Tables, e: Tables) {
    forall m :: SwapFits(d, m) ==> SwapFits(e, m)
  }

  ghost predicate NoNewStraddler(d: Tables, e: Tables) {
    forall g :: Straddles(e, g) ==> Straddles(d, g)
  }

  /** Each file still fits, nothing new straddles, and the published end is where it was. */
  lemma ViewKept(d: Tables, e: Tables, range: Range, floor: nat, swaps: set<File>, choice: Option<Choice>)
    requires ViewNeat(d, range, floor, swaps, choice)
    requires e.published == d.published && e.low == d.low
    requires Fresh(d, range) ==> KeepsFits(d, e) && NoNewStraddler(d, e)
    ensures ViewNeat(e, range, floor, swaps, choice)
  {
    hide SwapFits, Disjoint;
  }

  /** A publish's premises rest on the published table, the intents and the watermark,
      and on staging only through the files it means to swap. */
  lemma PublishingKept(d: Tables, e: Tables, range: Range, phase: Phase)
    requires PhaseNeat(d, range, phase)
    requires e.published == d.published && e.low == d.low && e.through == d.through
    requires e.intents == d.intents && e.names == d.names && e.written == d.written
    requires Fresh(d, range) ==> KeepsFits(d, e) && NoNewStraddler(d, e)
    ensures PhaseNeat(e, range, phase)
  {
    hide SwapFits, Disjoint, PathsBelow, LinesUp, Straddles, ViewNeat, SnapshotNeat;
    match phase
    case Opened =>
    case Staged(files) => StagedKept(d, e, range, files);
    case Looked(floor, held, swaps) =>
      ViewKept(d, e, range, floor, swaps, None);
      PathsAlike(d, e, floor, held);
    case Noted(floor, landed, dead, swaps) =>
      ViewKept(d, e, range, floor, swaps, None);
      PathsAlike(d, e, floor, landed);
    case Reconciled(floor, dead, swaps) => ViewKept(d, e, range, floor, swaps, None);
    case Working(floor, swaps, choice) => ViewKept(d, e, range, floor, swaps, Some(choice));
    case Swapping(m, floor, swaps, choice) => ViewKept(d, e, range, floor, swaps + {m}, Some(choice));
    case Chosen(floor, choice, listing) => ViewKept(d, e, range, floor, {}, Some(choice));
    case Pushing(files, upTo, choice, listing) =>
  }

  lemma StagedKept(d: Tables, e: Tables, range: Range, files: set<File>)
    requires Fresh(d, range) ==> SnapshotNeat(d, files)
    requires e.published == d.published && e.low == d.low
    requires Fresh(d, range) ==> KeepsFits(d, e) && NoNewStraddler(d, e)
    ensures Fresh(e, range) ==> SnapshotNeat(e, files)
  {
    hide SwapFits, Disjoint, Straddles;
    assert forall m :: LinesUp(e, m) == LinesUp(d, m);
  }

  lemma PathsAlike(d: Tables, e: Tables, end: nat, paths: set<nat>)
    requires PathsBelow(d, end, paths) && d.names <= e.names && e.written == d.written
    ensures PathsBelow(e, end, paths)
  {
  }

  /** A step that changes staging alone. */
  ghost predicate StagingOnly(d: Tables, e: Tables) {
    && e.published == d.published && e.low == d.low && e.through == d.through
    && e.intents == d.intents && e.names == d.names && e.written == d.written
  }

  lemma StagingOnlyKeeps(d: Tables, e: Tables, op: Op)
    requires StagingOnly(d, e) && OpNeat(d, op)
    requires op.Publishing? && Fresh(d, op.range) ==> KeepsFits(d, e) && NoNewStraddler(d, e)
    ensures OpNeat(e, op)
  {
    hide *;
    if op.Publishing? {
      StagingOnlyPublishing(d, e, op);
    } else {
      StagingOnlyOther(d, e, op);
    }
  }

  lemma StagingOnlyPublishing(d: Tables, e: Tables, op: Op)
    requires StagingOnly(d, e) && OpNeat(d, op) && op.Publishing?
    requires Fresh(d, op.range) ==> KeepsFits(d, e) && NoNewStraddler(d, e)
    ensures OpNeat(e, op)
  {
    hide PhaseNeat, KeepsFits, NoNewStraddler, Fresh;
    PublishingKept(d, e, op.range, op.phase);
  }

  lemma StagingOnlyOther(d: Tables, e: Tables, op: Op)
    requires StagingOnly(d, e) && OpNeat(d, op) && !op.Publishing?
    ensures OpNeat(e, op)
  {
  }

  // ----- a push or a swap committed -----

  ghost predicate Active(d: Tables, op: Op) {
    op.Publishing? && Fresh(d, op.range)
  }

  /** Two publishes whose claims both reach past the published end would clash. */
  lemma OnePublish(d: Tables, a: Op, b: Op)
    requires Active(d, a) && Active(d, b) && OpSafe(d, a) && OpSafe(d, b)
    ensures Conflict(a, b)
  {
    hide PhaseSafe;
  }

  lemma OthersIdle(s: State, id: nat)
    requires Safe(s) && id in s.ops && Active(s.d, s.ops[id])
    ensures forall i :: i in s.ops && i != id ==> !Active(s.d, s.ops[i])
  {
    hide SafeOk, OpSafe, Active;
    forall i | i in s.ops && i != id ensures !Active(s.d, s.ops[i]) {
      assert !Conflict(s.ops[id], s.ops[i]);
      if Active(s.d, s.ops[i]) { OnePublish(s.d, s.ops[id], s.ops[i]); }
    }
  }

  /** What `register` adds lies above the published end and inside the claim. */
  lemma RegisteredIsActive(d: Tables, op: Op)
    requires FilesOk(d) && op.Publishing? && op.phase.Pushing? && OpSafe(d, op)
    requires PushRegisters(d, op.phase.files)
    ensures Active(d, op)
  {
    var u :| u in op.phase.files;
    assert d.low <= u.start < u.end <= op.phase.upTo;
  }

  /** Another publish, its claim left behind, can only finish. */
  lemma IdleKept(d: Tables, e: Tables, range: Range, phase: Phase)
    requires PhaseNeat(d, range, phase) && !Fresh(d, range)
    requires Base(d) <= Base(e) && d.names <= e.names && e.written == d.written
    ensures PhaseNeat(e, range, phase)
  {
    hide SwapFits, Disjoint, PathsBelow;
    if phase.Looked? { PathsAlike(d, e, phase.floor, phase.held); }
    if phase.Noted? { PathsAlike(d, e, phase.floor, phase.landed); }
  }

  /** The others' premises, when the published table grows under another's claim. */
  lemma GrownKeepsNeat(d: Tables, e: Tables, op: Op)
    requires Grown(d, e) && d.names <= e.names && OpNeat(d, op) && !Active(d, op)
    requires op.Checked? ==> Settled(e, op.run, d.through + 1)
    requires op.Merging? || op.Merged? ==> Settled(e, op.run, op.floor)
    ensures OpNeat(e, op)
  {
    hide PhaseNeat, Settled, PathsBelow, CutsAtEnds, Holds;
    match op
    case Publishing(range, phase) => IdleKept(d, e, range, phase);
    case Confirming(end, paths) => PathsAlike(d, e, end, paths);
    case _ =>
  }

  lemma PushKeepsRun(d: Tables, files: set<File>, upTo: nat, range: Range, run: set<File>, floor: nat)
    requires FilesOk(d) && PushOk(d, files, upTo) && WithinBound(range, upTo)
    requires RangeOk(d, range) && Fresh(d, range)
    requires Whole(d, run) && run <= d.staging && Settled(d, run, floor)
    requires !Clashes(range, Span(Start(run), End(run)))
    ensures Settled(Pushed(d, files), run, floor)
  {
    RunApart(d, run);
    forall p, f | p in files && f in run ensures Apart(p, f) {
      assert p.end <= upTo && d.low <= p.start;
    }
  }

  lemma SwapKeepsRun(d: Tables, range: Range, m: File, run: set<File>, floor: nat)
    requires FilesOk(d) && PublishedWhole(d) && Swappable(d, range, m)
    requires Whole(d, run) && run <= d.staging && Settled(d, run, floor)
    requires !Clashes(range, Span(Start(run), End(run)))
    ensures Settled(d.(published := Swapped(d, m)), run, floor)
  {
    forall f | f in run && !Apart(m, f) ensures m.end <= floor {
      SwapMeetsRun(d, range, m, run, f);
      SwapSettled(d, run, floor, m);
    }
  }

  lemma SwapMeetsRun(d: Tables, range: Range, m: File, run: set<File>, f: File)
    requires FilesOk(d) && Whole(d, run) && run <= d.staging && Swappable(d, range, m)
    requires !Clashes(range, Span(Start(run), End(run)))
    requires f in run && !Apart(m, f)
    ensures Meets(run, m) && d.low <= m.end - 1 < End(d.published)
  {
    assert Tight(f, d.committed) && Tight(m, d.committed);
    var r := if m.start <= f.start then f.start else m.start;
    SwapBelowEnd(d, run, range, m, f, r);
    SwapWithin(d, m, f, r);
  }

  /** What is left to swap still fits: it lies apart from what was swapped. */
  lemma SwapKeepsFit(d: Tables, m: File, other: File)
    requires Uncut(d) && SwapFits(d, m) && SwapFits(d, other) && Apart(m, other)
    requires End(d.published) <= End(Swapped(d, m))
    ensures SwapFits(d.(published := Swapped(d, m)), other)
  {
    var p :| p in d.published && !Apart(p, other);
    assert p in Swapped(d, m);
  }

  // ----- an intent dropped -----

  /** Dropping an intent keeps everything just when nothing rests on it. */
  lemma ForgetNeat(d: Tables, intent: Intent)
    requires Covered(d)
    ensures Covered(Forgotten(d, intent)) <==> d.through + 1 < intent.end ==> !Landed(d, intent)
  {
    var e := Forgotten(d, intent);
    if d.through + 1 < intent.end && Landed(d, intent) {
      if p :| p in d.published && AsIntent(p) == intent {
        assert !(p.end <= e.through + 1 || AsIntent(p) in e.intents);
      } else {
        var g :| g in d.staging && g.start < End(d.published) && AsIntent(g) == intent;
        assert !(g.end <= e.through + 1 || End(e.published) <= g.start || AsIntent(g) in e.intents);
      }
    }
  }

  lemma ForgetKeepsOp(d: Tables, intent: Intent, op: Op)
    requires OpNeat(d, op)
    ensures OpNeat(Forgotten(d, intent), op) <==> d.through + 1 < intent.end ==> !UploadsUnder(d, op, intent)
  {
    hide *;
    if op.Publishing? {
      ForgetPublishing(d, intent, op);
    } else {
      ForgetOther(d, intent, op);
    }
  }

  lemma ForgetOther(d: Tables, intent: Intent, op: Op)
    requires OpNeat(d, op) && !op.Publishing?
    ensures OpNeat(Forgotten(d, intent), op) && !UploadsUnder(d, op, intent)
  {
  }

  lemma ForgetPublishing(d: Tables, intent: Intent, op: Op)
    requires OpNeat(d, op) && op.Publishing?
    ensures OpNeat(Forgotten(d, intent), op) <==> d.through + 1 < intent.end ==> !UploadsUnder(d, op, intent)
  {
    hide SwapFits, Disjoint, PathsBelow;
    var e := Forgotten(d, intent);
    forall floor, swaps, choice
      ensures ViewNeat(e, op.range, floor, swaps, choice) == ViewNeat(d, op.range, floor, swaps, choice)
    {
      ForgetView(d, intent, op.range, floor, swaps, choice);
    }
    if op.phase.Staged? { ForgetStaged(d, intent, op.phase.files); }
    if op.phase.Looked? { PathsAlike(d, e, op.phase.floor, op.phase.held); }
    if op.phase.Noted? { PathsAlike(d, e, op.phase.floor, op.phase.landed); }
  }

  lemma ForgetFits(d: Tables, intent: Intent, m: File)
    ensures SwapFits(Forgotten(d, intent), m) == SwapFits(d, m)
    ensures LinesUp(Forgotten(d, intent), m) == LinesUp(d, m)
  {
    ForgetLines(d, intent, m);
  }

  lemma ForgetStaged(d: Tables, intent: Intent, files: set<File>)
    ensures SnapshotNeat(Forgotten(d, intent), files) == SnapshotNeat(d, files)
  {
    hide Disjoint, LinesUp, SwapFits;
    forall m
      ensures SwapFits(Forgotten(d, intent), m) == SwapFits(d, m)
      ensures LinesUp(Forgotten(d, intent), m) == LinesUp(d, m)
    {
      ForgetFits(d, intent, m);
    }
    assert forall g :: Straddles(Forgotten(d, intent), g) == Straddles(d, g);
  }

  lemma ForgetView(d: Tables, intent: Intent, range: Range, floor: nat, swaps: set<File>, choice: Option<Choice>)
    ensures ViewNeat(Forgotten(d, intent), range, floor, swaps, choice) == ViewNeat(d, range, floor, swaps, choice)
  {
    hide Disjoint, LinesUp, SwapFits;
    var e := Forgotten(d, intent);
    forall m ensures SwapFits(e, m) == SwapFits(d, m) {
      ForgetFits(d, intent, m);
    }
    assert forall g :: Straddles(e, g) == Straddles(d, g);
  }

  lemma ForgetLines(d: Tables, intent: Intent, m: File)
    ensures LinesUp(Forgotten(d, intent), m) == LinesUp(d, m)
  {
  }

  /** Exactly when a dropped intent leaves everything as it must be. */
  lemma ForgetExact(s: State, intent: Intent)
    requires Inv(s)
    ensures Tidy(State(Forgotten(s.d, intent), s.ops)) <==> !RestsOn(s, intent)
  {
    hide SafeOk, OpSafe, OpNeat, Covered, Landed, UploadsUnder;
    var e := Forgotten(s.d, intent);
    NeatParts(s.d);
    NeatParts(e);
    ForgetNeat(s.d, intent);
    forall i | i in s.ops
      ensures OpNeat(e, s.ops[i]) <==> s.d.through + 1 < intent.end ==> !UploadsUnder(s.d, s.ops[i], intent)
    {
      ForgetKeepsOp(s.d, intent, s.ops[i]);
    }
  }

  lemma NeatParts(d: Tables)
    ensures Neat(d) <==> Uncut(d) && Covered(d) && Aligned(d.staging, d.published)
  {
  }
}
