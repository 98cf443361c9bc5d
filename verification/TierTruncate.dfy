/** A truncation is three commits that anything may come between and a crash may part:
    at each stage, exactly the tiers it has reached have lost their rows below the floor. */
module TierTruncate {
  import opened TierState
  import opened TierSteps
  import opened TierTables
  import opened TierEvict
  import opened TierOps
  import opened TierRuns
  import opened TierTheorems
  import opened TierHistory

  /** What a truncation that has got as far as `stage` has left of `before`: rows it has
      not reached, or that lie above the floor. The buffer besides gains what is
      appended and loses what its own eviction takes, which is published. */
  ghost predicate CutTo(before: Tables, d: Tables, floor: nat, stage: nat) {
    && (forall r: nat {:trigger Holds(d.staging, r)} ::
          Holds(d.staging, r) <==> Holds(before.staging, r) && (2 <= stage ==> floor <= r))
    && (forall r: nat {:trigger Holds(d.published, r)} ::
          Holds(d.published, r) <==> Holds(before.published, r) && (3 <= stage ==> floor <= r))
    && (forall r :: r in d.buffer ==>
          && (1 <= stage ==> floor <= r)
          && (r in before.buffer || before.next <= r))
    && (forall r :: r in before.buffer ==>
          r in d.buffer || (1 <= stage && r < floor) || r <= d.through)
    && d.low == (if stage < 3 then before.low else Later(before.low, floor))
  }

  ghost predicate Cutting(before: Tables, s: State, id: nat, floor: nat) {
    && id in s.ops && s.ops[id].Truncating? && s.ops[id].floor == floor
    && floor <= before.next <= s.d.next
    && CutTo(before, s.d, floor, s.ops[id].stage)
  }

  // ----- nobody else changes the tables -----

  ghost predicate OwnStep(step: Step, id: nat) {
    (step.TruncateBuffer? || step.TruncateStaging? || step.TruncatePublished?) && step.id == id
  }

  /** A claim over everything: every other operation only has a confirm left to make. */
  lemma OthersConfirm(s: State, id: nat)
    requires Safe(s) && id in s.ops && s.ops[id].Truncating?
    ensures forall i :: i in s.ops && i != id ==> s.ops[i].Confirming?
  {
    hide SafeOk, OpSafe;
    Alone(s, id);
  }

  lemma OnlyOwn(s: State, step: Step, id: nat)
    requires Enabled(s, step) && id in s.ops && s.ops[id].Truncating?
    requires forall i :: i in s.ops && i != id ==> s.ops[i].Confirming?
    ensures FileStep(step) || step.TruncateBuffer? ==> OwnStep(step, id)
    ensures !OwnStep(step, id) && step != Drop(id) ==>
      id in Apply(s, step).ops && Apply(s, step).ops[id] == s.ops[id]
  {
    hide *;
    OwnFiles(s, step, id);
    OthersLeave(s, step, id);
  }

  lemma OwnFiles(s: State, step: Step, id: nat)
    requires Enabled(s, step) && id in s.ops && s.ops[id].Truncating?
    requires forall i :: i in s.ops && i != id ==> s.ops[i].Confirming?
    ensures FileStep(step) || step.TruncateBuffer? ==> OwnStep(step, id)
  {
    hide GroupOk, Whole, Unclaimed, Rewrites, CutsOk, MergeCandidate, RangeOk, SwapsListed, ReadsFrozen, NextPending,
         WithinBound, PushDue, FreshPath, NamesIn;
  }

  lemma OthersLeave(s: State, step: Step, id: nat)
    requires Enabled(s, step) && id in s.ops && s.ops[id].Truncating?
    requires forall i :: i in s.ops && i != id ==> s.ops[i].Confirming?
    ensures !OwnStep(step, id) && step != Drop(id) ==>
      id in Apply(s, step).ops && Apply(s, step).ops[id] == s.ops[id]
  {
    hide Write, GroupOk, Whole, Unclaimed, Rewrites, CutsOk, MergeCandidate, RangeOk, SwapsListed, ReadsFrozen, NextPending,
         WithinBound, PushDue, FreshPath, NamesIn, PushRegisters, LinedUp, HeldPaths, LandedPaths, DeadIntents, SealFile;
  }

  /** Every other step leaves both tables as they are, and takes from the buffer only
      what the watermark covers. */
  lemma OtherStepAlike(s: State, step: Step)
    requires Enabled(s, step) && !FileStep(step) && !step.TruncateBuffer?
    ensures var e := Write(s, step);
      && e.staging == s.d.staging && e.published == s.d.published && e.low == s.d.low
      && s.d.through <= e.through && s.d.next <= e.next
      && (forall r :: r in e.buffer ==> r in s.d.buffer || s.d.next <= r)
      && (forall r :: r in s.d.buffer ==> r in e.buffer || r <= s.d.through)
  {
  }

  lemma OtherStepCuts(before: Tables, s: State, step: Step, id: nat, floor: nat)
    requires Cutting(before, s, id, floor) && Enabled(s, step)
    requires !FileStep(step) && !step.TruncateBuffer?
    requires id in Apply(s, step).ops && Apply(s, step).ops[id] == s.ops[id]
    ensures Cutting(before, Apply(s, step), id, floor)
  {
    hide Enabled, Write, Advance, Holds;
    OtherStepAlike(s, step);
  }

  // ----- its own three steps -----

  lemma BufferCuts(before: Tables, d: Tables, floor: nat)
    requires CutTo(before, d, floor, 0)
    ensures CutTo(before, d.(buffer := set r | r in d.buffer && floor <= r), floor, 1)
  {
    hide Holds;
  }

  lemma StagingCuts(before: Tables, d: Tables, floor: nat)
    requires SafeOk(d) && OpSafe(d, Truncating(floor, 1)) && CutTo(before, d, floor, 1)
    ensures CutTo(before, Evicted(Leaving(d, floor), floor), floor, 2)
  {
    hide Legs, Watermark, TierRow, Leaving;
    var e := Evicted(Leaving(d, floor), floor);
    LeavingFiles(d, floor);
    WrittenLoose(d, d.staging);
    forall r: nat ensures Holds(e.staging, r) <==> Holds(d.staging, r) && floor <= r {
      AboveExact(d.staging, d.committed, floor, r);
    }
  }

  lemma LeavingFiles(d: Tables, floor: nat)
    ensures var e := Leaving(d, floor); e == d.(queued := e.queued, tier := e.tier)
    ensures Evicted(Leaving(d, floor), floor).staging == Above(d.staging, floor)
  {
  }

  lemma PublishedCuts(before: Tables, d: Tables, floor: nat)
    requires SafeOk(d) && OpSafe(d, Truncating(floor, 2)) && CutTo(before, d, floor, 2)
    ensures CutTo(before, CutPublished(d, floor), floor, 3)
  {
    hide Legs, Watermark, TierRow;
    forall r: nat ensures Holds(CutPublished(d, floor).published, r) <==> Holds(d.published, r) && floor <= r {
      AboveExact(d.published, d.committed, floor, r);
    }
  }

  /** Files that do not straddle the floor part just the rows below it. */
  lemma AboveExact(fs: set<File>, committed: set<nat>, floor: nat, r: nat)
    requires AllLoose(fs, committed)
    requires forall f :: f in fs ==> f.end <= floor || floor <= f.start
    ensures Holds(Above(fs, floor), r) <==> Holds(fs, r) && floor <= r
  {
    if Holds(fs, r) && floor <= r {
      var f :| f in fs && r in f.rows;
      assert Loose(f, committed);
      assert f in Above(fs, floor);
    }
    if Holds(Above(fs, floor), r) {
      var f :| f in Above(fs, floor) && r in f.rows;
      assert Loose(f, committed);
    }
  }

  lemma OwnStepCuts(before: Tables, s: State, step: Step, id: nat, floor: nat)
    requires Safe(s) && Cutting(before, s, id, floor) && Enabled(s, step) && OwnStep(step, id)
    ensures Cutting(before, Apply(s, step), id, floor)
  {
    hide Safe, SafeOk, OpSafe, CutTo, Leaving;
    InFlight(s, id);
    match step
    case TruncateBuffer(_) => BufferCuts(before, s.d, floor);
    case TruncateStaging(_) =>
      StagingCutIs(s, id);
      LeavingFiles(s.d, floor);
      StagingCuts(before, s.d, floor);
    case TruncatePublished(_) =>
      PublishedCutIs(s, id);
      PublishedCuts(before, s.d, floor);
  }

  lemma StepCuts(before: Tables, s: State, step: Step, id: nat, floor: nat)
    requires Safe(s) && Cutting(before, s, id, floor) && Enabled(s, step) && step != Drop(id)
    ensures Cutting(before, Apply(s, step), id, floor)
  {
    hide Safe, Enabled, Apply, CutTo;
    OthersConfirm(s, id);
    OnlyOwn(s, step, id);
    if OwnStep(step, id) {
      OwnStepCuts(before, s, step, id, floor);
    } else {
      OtherStepCuts(before, s, step, id, floor);
    }
  }

  // ----- whole runs -----

  lemma {:induction false} RunCuts(before: Tables, s: State, steps: seq<Step>, id: nat, floor: nat)
    requires Safe(s) && Cutting(before, s, id, floor) && Legal(s, steps)
    requires forall step :: step in steps ==> step != Drop(id)
    ensures Cutting(before, After(s, steps), id, floor)
    decreases |steps|
  {
    hide Safe, Cutting, Enabled, Apply;
    if steps != [] {
      assert steps[0] in steps && forall step :: step in steps[1..] ==> step in steps;
      StepSafe(s, steps[0]);
      StepCuts(before, s, steps[0], id, floor);
      RunCuts(before, Apply(s, steps[0]), steps[1..], id, floor);
    }
  }

  /** However far a truncation has got, and whatever came between its steps: each tier it
      has reached has lost exactly its rows below the floor, and each it has not reached
      still holds them. A crash leaves the tables as they are at that stage. */
  lemma TruncationCuts(s: State, id: nat, floor: nat, steps: seq<Step>)
    requires Reachable(s) && Enabled(s, ClaimTruncate(id, floor))
    requires Legal(Apply(s, ClaimTruncate(id, floor)), steps)
    requires forall step :: step in steps ==> step != Drop(id)
    ensures var t := After(Apply(s, ClaimTruncate(id, floor)), steps);
      id in t.ops && t.ops[id].Truncating? && CutTo(s.d, t.d, floor, t.ops[id].stage)
  {
    hide Safe, Reachable, OpSafe, FilesOk, Legs, TierRow;
    ReachableSafe(s);
    StepSafe(s, ClaimTruncate(id, floor));
    ReachableTables(s);
    assert s.d.through + 1 <= s.d.next by { ThroughIssued(s.d); }
    RunCuts(s.d, Apply(s, ClaimTruncate(id, floor)), steps, id, floor);
  }

  lemma ThroughIssued(d: Tables)
    requires FilesOk(d)
    ensures d.through + 1 <= d.next
  {
  }

  /** And the next call can finish the job: after a crash at any stage the same floor
      may be cut at again. */
  lemma TruncationResumes(s: State, id: nat)
    requires Reachable(s) && id in s.ops && s.ops[id].Truncating?
    ensures Enabled(Apply(s, Drop(id)), ClaimTruncate(id, s.ops[id].floor))
  {
    hide Safe, Reachable, SafeOk;
    ReachableSafe(s);
    InFlight(s, id);
    OthersConfirm(s, id);
  }
}
