/** What every durable step does to each part of the tables, row by row and file by file,
    without naming the transitions: what it adds, what it takes, and nothing else. */
module TierEffects {
  import opened Options
  import opened TierState
  import opened TierSteps

  // ----- rows -----

  /** A row is committed by an append or a load, and stays so. */
  lemma CommittedChanges(s: State, step: Step, r: nat)
    requires Enabled(s, step)
    ensures r in Apply(s, step).d.committed <==>
      match step
      case Append(count) => r in s.d.committed || s.d.next <= r < s.d.next + count
      case RegisterIngest(id, path, start, end) => r in s.d.committed || start <= r < end
      case _ => r in s.d.committed
  {
    hide Advance, Enabled;
  }

  /** Rows reach the buffer by an append, and leave it by an eviction or a truncation. */
  lemma BufferChanges(s: State, step: Step, r: nat)
    requires Enabled(s, step)
    ensures r in Apply(s, step).d.buffer <==>
      match step
      case Append(count) => r in s.d.buffer || s.d.next <= r < s.d.next + count
      case EvictBuffer(start, below) => r in s.d.buffer && !(start <= r < below)
      case TruncateBuffer(id) => r in s.d.buffer && s.ops[id].floor <= r
      case _ => r in s.d.buffer
  {
    hide Advance, Enabled;
  }

  /** Only a truncation's last stage raises the floor, and never lowers it; only offsets
      issued or reserved move the next one. */
  lemma LowAndNext(s: State, step: Step)
    requires Enabled(s, step)
    ensures var after := Apply(s, step).d;
      && after.low == (if step.TruncatePublished? && s.ops[step.id].floor > s.d.low then s.ops[step.id].floor else s.d.low)
      && after.next == s.d.next + (if step.Append? || step.Reserve? then step.count else 0)
  {
    hide Advance, Enabled;
  }

  // ----- the staging table -----

  /** Another table, or the watermark, has a seal's rows already. */
  ghost predicate Had(d: Tables, f: File) {
    f.end <= d.through + 1 || exists g :: g in d.staging && f.end <= g.end
  }

  lemma FiledIsHad(d: Tables, f: File)
    ensures Filed(d, f.end) <==> Had(d, f)
  {
  }

  lemma StagingChanges(s: State, step: Step, f: File)
    requires Safe(s) && Enabled(s, step)
    ensures f in Apply(s, step).d.staging <==>
      match step
      case RegisterSeal(id) => f in s.d.staging || (f == s.ops[id].file && !Had(s.d, f))
      case RegisterIngest(id, path, start, end) =>
        f in s.d.staging || (f.path == path && f.start == start && f.end == end && forall r :: r in f.rows <==> start <= r < end)
      case CommitMerge(id) =>
        var run := s.ops[id].run;
        f in s.ops[id].outputs
        || (f in s.d.staging && ((forall u :: u in run ==> f.end <= u.start) || forall u :: u in run ==> u.end <= f.start))
      case CommitEvict(id) => f in s.d.staging && s.ops[id].below < f.end
      case TruncateStaging(id) => f in s.d.staging && s.ops[id].floor < f.end
      case _ => f in s.d.staging
  {
    hide *;
    match step
    case RegisterSeal(id) => SealStaged(s, id, f);
    case RegisterIngest(id, path, start, end) => LoadStaged(s, id, path, start, end, f);
    case CommitMerge(id) => MergeStaged(s, id, f);
    case _ => ElseStaged(s, step, f);
  }

  lemma ElseStaged(s: State, step: Step, f: File)
    requires Enabled(s, step) && !step.RegisterSeal? && !step.RegisterIngest? && !step.CommitMerge?
    ensures f in Apply(s, step).d.staging <==>
      f in s.d.staging
      && (step.CommitEvict? ==> s.ops[step.id].below < f.end) && (step.TruncateStaging? ==> s.ops[step.id].floor < f.end)
  {
    hide Advance, Enabled;
  }

  lemma SealStaged(s: State, id: nat, f: File)
    requires Enabled(s, RegisterSeal(id))
    ensures f in Apply(s, RegisterSeal(id)).d.staging <==> f in s.d.staging || (f == s.ops[id].file && !Had(s.d, f))
  {
    FiledIsHad(s.d, s.ops[id].file);
    hide Advance, Enabled, Filed, Had;
  }

  lemma LoadStaged(s: State, id: nat, path: nat, start: nat, end: nat, f: File)
    requires Enabled(s, RegisterIngest(id, path, start, end))
    ensures f in Apply(s, RegisterIngest(id, path, start, end)).d.staging <==>
      f in s.d.staging || (f.path == path && f.start == start && f.end == end && forall r :: r in f.rows <==> start <= r < end)
  {
    LoadedIs(path, start, end, f);
    hide Advance, Enabled;
  }

  lemma MergeStaged(s: State, id: nat, f: File)
    requires Safe(s) && Enabled(s, CommitMerge(id))
    ensures var run := s.ops[id].run;
      f in Apply(s, CommitMerge(id)).d.staging <==>
        f in s.ops[id].outputs
        || (f in s.d.staging && ((forall u :: u in run ==> f.end <= u.start) || forall u :: u in run ==> u.end <= f.start))
  {
    OutsideIs(s, id, f);
    hide Safe, Advance, Enabled;
  }

  lemma LoadedIs(path: nat, start: nat, end: nat, f: File)
    requires start <= end
    ensures f == File(path, start, end, Sequence(start, end - start))
       <==> f.path == path && f.start == start && f.end == end && forall r :: r in f.rows <==> start <= r < end
  {
    if f.start == start && f.end == end && forall r :: r in f.rows <==> start <= r < end {
      assert f.rows == Sequence(start, end - start);
    }
  }

  lemma OutsideIs(s: State, id: nat, f: File)
    requires Safe(s) && id in s.ops && s.ops[id].Merged?
    ensures var run := s.ops[id].run;
      && (f.end <= Start(run) <==> forall u :: u in run ==> f.end <= u.start)
      && (End(run) <= f.start <==> forall u :: u in run ==> u.end <= f.start)
  {
    var run := s.ops[id].run;
    assert run != {} by { RunHeld(s, id); }
    hide Safe;
  }

  lemma RunHeld(s: State, id: nat)
    requires Safe(s) && id in s.ops && s.ops[id].Merged?
    ensures s.ops[id].run != {}
  {
    assert OpSafe(s.d, s.ops[id]);
  }

  // ----- the published table -----

  /** A swap takes out each file with a row in the merged file's range, and puts back what
      was cut; a push adds its copies if they lie past all that is published; a
      truncation takes what ends at or below its floor. */
  lemma PublishedChanges(s: State, step: Step, f: File)
    requires Enabled(s, step)
    ensures f in Apply(s, step).d.published <==>
      match step
      case CommitSwap(id, confirm, cuts) =>
        var m := s.ops[id].phase.merged;
        f == m || f in cuts || (f in s.d.published && forall r :: r in f.rows ==> !(m.start <= r < m.end))
      case CommitPush(id, confirm) =>
        f in s.d.published
        || (f in s.ops[id].phase.files
            && forall p, u :: p in s.d.published && u in s.ops[id].phase.files ==> p.end <= u.start)
      case TruncatePublished(id) => f in s.d.published && s.ops[id].floor < f.end
      case _ => f in s.d.published
  {
    if step.CommitPush? {
      if s.ops[step.id].phase.files != {} { RegistersIs(s.d, s.ops[step.id].phase.files); }
    }
    hide Advance, Enabled, PushRegisters;
  }

  lemma RegistersIs(d: Tables, files: set<File>)
    requires files != {}
    ensures PushRegisters(d, files) <==> forall p, u :: p in d.published && u in files ==> p.end <= u.start
  {
  }

  /** The rows of what a swap cuts come back, and no others. */
  lemma CutRows(s: State, step: Step, r: nat)
    requires Enabled(s, step) && step.CommitSwap?
    ensures var m := s.ops[step.id].phase.merged;
      (exists c :: c in step.cuts && r in c.rows) <==>
        && !(m.start <= r < m.end)
        && exists p :: p in s.d.published && r in p.rows && Touches(p, m)
  {
    var m := s.ops[step.id].phase.merged;
    assert Holds(step.cuts, r) <==> Holds(Torn(s.d.published, m), r) && !(m.start <= r < m.end);
    if p :| p in s.d.published && r in p.rows && Touches(p, m) && !(m.start <= r < m.end) {
      assert Beyond(p, m);
      assert p in Torn(s.d.published, m);
    }
  }

  // ----- what is remembered -----

  lemma IntentsChange(s: State, step: Step, i: Intent)
    requires Enabled(s, step)
    ensures i in Apply(s, step).d.intents <==>
      match step
      case IntendSwap(id, m) => i in s.d.intents || i == Intent(m.path, m.start, m.end)
      case IntendPush(id, f) => i in s.d.intents || i == Intent(f.path, f.start, f.end)
      case StrayIntent(f) => i in s.d.intents || i == Intent(f.path, f.start, f.end)
      case Forget(id, intent) => i in s.d.intents && i != intent
      case StrayForget(intent) => i in s.d.intents && i != intent
      case Reconcile(id) => i in s.d.intents && i.path !in s.ops[id].phase.landed
      case Confirm(id) => i in s.d.intents && i.path !in s.ops[id].paths
      case _ => i in s.d.intents
  {
    hide Advance, Enabled;
  }

  /** The watermark rises to the row before what is confirmed, and never falls. */
  lemma ThroughChanges(s: State, step: Step)
    requires Enabled(s, step)
    ensures Apply(s, step).d.through ==
      match step
      case Reconcile(id) => if s.ops[id].phase.floor > s.d.through + 1 then s.ops[id].phase.floor - 1 else s.d.through
      case Confirm(id) => if s.ops[id].end > s.d.through + 1 then s.ops[id].end - 1 else s.d.through
      case _ => s.d.through
  {
    hide Advance, Enabled;
  }

  /** A file leaving the staging table below an offset holds the row. */
  ghost predicate LeavesWith(d: Tables, below: nat, r: nat) {
    exists f :: f in d.staging && f.end <= below && r in f.rows
  }

  /** A published row a query takes from the published table. */
  ghost predicate TakenThere(d: Tables, r: nat) {
    exists p :: p in d.published && r in p.rows && (d.staging == {} || forall g :: g in d.staging ==> r < g.start)
  }

  lemma TierChanges(s: State, step: Step, r: nat)
    requires Enabled(s, step)
    ensures var before, after := s.d.tier, Apply(s, step).d.tier;
      && (after.Some? <==> before.Some? || step.NarrowTier?)
      && (after.Some? ==> (r in after.value <==>
            match step
            case NarrowTier(id) => TakenThere(s.d, r)
            case WidenTier(rows) => r in before.value || r in rows
            case DecideEvict(id, below) => r in before.value || LeavesWith(s.d, below, r)
            case TruncateStaging(id) => r in before.value || LeavesWith(s.d, s.ops[id].floor, r)
            case _ => r in before.value))
  {
    hide Advance, Enabled, ReachablePublished, TakenThere;
    if step.NarrowTier? { NarrowedIs(s.d, r); }
  }

  lemma NarrowedIs(d: Tables, r: nat)
    ensures r in ReachablePublished(d) <==> TakenThere(d, r)
  {
    assert BelowStaging(d, r) <==> (d.staging == {} || forall g :: g in d.staging ==> r < g.start);
  }

  lemma QueuedChanges(s: State, step: Step, path: nat)
    requires Enabled(s, step)
    ensures path in Apply(s, step).d.queued <==>
      match step
      case RegisterSeal(id) => path in s.d.queued || (path == s.ops[id].file.path && Had(s.d, s.ops[id].file))
      case CommitMerge(id) => path in s.d.queued || exists u :: u in s.ops[id].run && u.path == path
      case DecideEvict(id, below) =>
        path in s.d.queued || exists f :: f in s.d.staging && f.end <= below && f.path == path
      case TruncateStaging(id) =>
        path in s.d.queued || exists f :: f in s.d.staging && f.end <= s.ops[id].floor && f.path == path
      case TruncatePublished(id) =>
        path in s.d.queued || exists f :: f in s.d.published && f.end <= s.ops[id].floor && f.path == path
      case Enqueue(p) => path in s.d.queued || path == p
      case Drain(p) => path in s.d.queued && path != p
      case _ => path in s.d.queued
  {
    if step.RegisterSeal? { FiledIsHad(s.d, s.ops[step.id].file); }
    hide Advance, Enabled, Filed, Had;
  }

  // ----- what an operation reads -----

  /** What an operation notes of the tables as it goes, and that no other's notes change. */
  lemma NotesTaken(s: State, step: Step)
    requires Enabled(s, step)
    ensures var after := Apply(s, step).ops;
      match step
      case WriteSeal(id, path) =>
        && after[id].Sealed? && after[id].file.path == path
        && after[id].file.start == s.ops[id].lo && after[id].file.end == s.ops[id].hi
        && forall r :: r in after[id].file.rows <==> r in s.d.buffer && s.ops[id].lo <= r < s.ops[id].hi
      case ReadFloor(id) => after[id] == Merging(s.ops[id].run, s.d.through + 1)
      case ReadStaging(id) => after[id] == Publishing(s.ops[id].range, Staged(s.d.staging))
      case SawPublished(confirm, landed) =>
        after[confirm] == Confirming(after[confirm].end, landed) && Ends(s.d.published, after[confirm].end)
      case Forget(id, intent) =>
        var was := s.ops[id].phase;
        after[id] == Publishing(s.ops[id].range, Reconciled(was.floor, was.dead - {intent}, was.swaps))
      case IntendSwap(id, m) =>
        var was := s.ops[id].phase;
        after[id] == Publishing(s.ops[id].range, Swapping(m, was.floor, was.swaps - {m}, was.choice))
      case CommitSwap(id, confirm, cuts) =>
        after[confirm] == Confirming(s.ops[id].phase.merged.end, {s.ops[id].phase.merged.path})
      case IntendPush(id, f) =>
        var was, now := s.ops[id].phase, after[id].phase;
        && now.Pushing? && now.upTo == f.end && now.choice == was.choice && now.listing == was.listing
        && forall g :: g in now.files <==> g == f || (was.Pushing? && g in was.files)
      case _ => true
  {
    hide Write;
  }

  /** The exclusive end of some files, 0 of none. */
  ghost predicate Ends(files: set<File>, end: nat) {
    (forall f :: f in files ==> f.end <= end) && if files == {} then end == 0 else exists f :: f in files && f.end == end
  }

  /** What a publish sees of the published table: its end; the copies that reach past the
      first row it saw staged; and which of the staging files it saw are unpublished
      merges of whole published files. */
  lemma LookSees(s: State, id: nat)
    requires Safe(s) && Enabled(s, Look(id))
    ensures var files, phase := s.ops[id].phase.files, Apply(s, Look(id)).ops[id].phase;
      && phase.Looked? && Ends(s.d.published, phase.floor)
      && (files != {} ==> forall path :: path in phase.held <==>
            exists p, f :: p in s.d.published && f in files && p.path == path && f.start < p.end)
      && (forall m :: m in phase.swaps <==> m in files && m !in s.d.published && SpansWhole(s.d.published, m))
  {
    hide LinesUp, SpansWhole, Safe, Write;
    PublishedForward(s);
    forall m ensures LinesUp(s.d, m) <==> SpansWhole(s.d.published, m) { LinedIs(s.d, m); }
    if s.ops[id].phase.files != {} { HeldIs(s.d, s.ops[id].phase.files); }
    hide Enabled;
  }

  /** Some published file meets the file, and each that does lies within it. */
  ghost predicate SpansWhole(published: set<File>, m: File) {
    && (exists p :: p in published && p.start < m.end && m.start < p.end)
    && (forall p :: p in published ==> p.end <= m.start || m.end <= p.start || m.start <= p.start <= p.end <= m.end)
  }

  lemma PublishedForward(s: State)
    requires Safe(s)
    ensures forall p :: p in s.d.published ==> p.start <= p.end
  {
  }

  lemma LinedIs(d: Tables, m: File)
    requires forall p :: p in d.published ==> p.start <= p.end
    ensures LinesUp(d, m) <==> SpansWhole(d.published, m)
  {
  }

  lemma HeldIs(d: Tables, files: set<File>)
    requires files != {}
    ensures forall path :: path in HeldPaths(d, files) <==>
      exists p, f :: p in d.published && f in files && p.path == path && f.start < p.end
  {
    var first :| first in files && first.start == Start(files);
  }

  /** The intents read are told apart by whether their copies were seen there. */
  lemma IntentsRead(s: State, id: nat)
    requires Enabled(s, ReadIntents(id))
    ensures var held, phase := s.ops[id].phase.held, Apply(s, ReadIntents(id)).ops[id].phase;
      && phase.Noted? && phase.floor == s.ops[id].phase.floor && phase.swaps == s.ops[id].phase.swaps
      && (forall path :: path in phase.landed <==> path in held && exists i :: i in s.d.intents && i.path == path)
      && (forall i :: i in phase.dead <==> i in s.d.intents && i.path !in held)
  {
  }
}
