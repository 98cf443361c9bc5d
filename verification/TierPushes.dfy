/** When `register` refuses a push under a claim that still reaches past the published end:
    exactly when a staging file straddles that end which was neither finished with nor
    flushed as the swaps were listed, and by the time the push is listed it is covered by
    intents written since, or finished with since. */
module TierPushes {
  import opened Options
  import opened TierState
  import opened TierSteps
  import opened TierTables
  import opened TierOps
  import opened TierRuns
  import opened TierTidy
  import opened TierOrderly
  import opened TierTheorems

  // ----- what `register` answers -----

  /** It declines what the published table covers, and refuses what starts inside it. */
  ghost predicate Declined(d: Tables, upTo: nat) {
    upTo <= End(d.published)
  }

  ghost predicate Refused(d: Tables, files: set<File>, upTo: nat) {
    End(d.published) < upTo && Start(files) < End(d.published)
  }

  /** In every state orderly runs reach: the files of a push about to commit are still in
      staging; one whose claim was left behind is declined; one whose claim reaches past
      the published end is refused just when a staging file straddles that end, a file it
      left out of its swaps and then found due, and is registered otherwise. A refusal
      changes no table. */
  lemma PushRefusedIff(s: State, id: nat, confirm: nat)
    requires ReachableInOrder(s) && Enabled(s, CommitPush(id, confirm))
    ensures s.ops[id].phase.files <= s.d.staging
    ensures var d, range, phase := s.d, s.ops[id].range, s.ops[id].phase;
      && (!Fresh(d, range) <==> Declined(d, phase.upTo))
      && (Refused(d, phase.files, phase.upTo) <==> Fresh(d, range) && exists g :: Straddles(d, g))
      && (PushRegisters(d, phase.files) <==> Fresh(d, range) && !exists g :: Straddles(d, g))
    ensures var phase := s.ops[id].phase;
      Fresh(s.d, s.ops[id].range) ==> forall g :: Straddles(s.d, g) ==>
        g in phase.files && LeftOut(phase.choice, g)
        && (g.end <= phase.listing.frozen || g.end <= phase.listing.limit)
    ensures !PushRegisters(s.d, s.ops[id].phase.files) ==> Apply(s, CommitPush(id, confirm)).d == s.d
  {
    hide ReachableInOrder, Inv, FilesOk, Legs, Watermark, Neat, OpSafe, OpNeat, Fresh, PushRegisters, Straddles, PushDue, LeftOut;
    ReachableTidy(s);
    Parts(s);
    Part(s, id);
    var d, range, phase := s.d, s.ops[id].range, s.ops[id].phase;
    PushSpan(d, range, phase);
    PushPast(d, range, phase);
    if Fresh(d, range) {
      forall g | Straddles(d, g)
        ensures g in phase.files && LeftOut(phase.choice, g)
        ensures g.end <= phase.listing.frozen || g.end <= phase.listing.limit
        ensures Start(phase.files) < End(d.published)
      {
        StraddlerPushed(d, range, phase, g);
      }
      if Start(phase.files) < End(d.published) { StartStraddles(d, range, phase); }
    }
  }

  lemma PushSpan(d: Tables, range: Range, phase: Phase)
    requires FilesOk(d) && phase.Pushing? && OpSafe(d, Publishing(range, phase))
    ensures phase.files != {} && phase.files <= d.staging && phase.upTo == End(phase.files)
    ensures PushRegisters(d, phase.files) <==> End(d.published) <= Start(phase.files)
    ensures Start(phase.files) < phase.upTo && d.low < phase.upTo
    ensures !Fresh(d, range) ==> phase.upTo <= Base(d)
  {
    hide Tight, Loose, Disjoint, UniquePaths, RowsApart;
    var u :| u in phase.files && u.end == phase.upTo;
    assert d.low <= u.start < u.end;
  }

  lemma PushPast(d: Tables, range: Range, phase: Phase)
    requires phase.Pushing? && OpNeat(d, Publishing(range, phase)) && phase.files != {} && d.low < phase.upTo
    requires phase.upTo == End(phase.files) && (!Fresh(d, range) ==> phase.upTo <= Base(d))
    ensures Fresh(d, range) <==> End(d.published) < phase.upTo
    ensures Fresh(d, range) ==> forall u :: u in phase.files ==> End(d.published) < u.end
    ensures forall u :: u in phase.files ==> PushDue(phase.choice, phase.listing, u)
  {
    hide PushDue, Straddles;
    var u :| u in phase.files;
  }

  /** A straddler is below everything else a push has left to take, so it is taken first. */
  lemma StraddlerPushed(d: Tables, range: Range, phase: Phase, g: File)
    requires FilesOk(d) && phase.Pushing? && Fresh(d, range) && Straddles(d, g)
    requires OpSafe(d, Publishing(range, phase)) && OpNeat(d, Publishing(range, phase))
    ensures g in phase.files && LeftOut(phase.choice, g)
    ensures g.end <= phase.listing.frozen || g.end <= phase.listing.limit
    ensures Start(phase.files) < End(d.published)
  {
    hide Tight, Loose, Disjoint, UniquePaths, RowsApart;
    var upTo := phase.upTo;
    var u :| u in phase.files && u.end == upTo;
    assert d.low <= g.start;
    assert u.end > End(d.published);
    assert forall h :: h in phase.files ==> End(d.published) < h.end;
    assert g in phase.files || upTo <= g.start;
  }

  lemma StartStraddles(d: Tables, range: Range, phase: Phase)
    requires phase.Pushing? && OpNeat(d, Publishing(range, phase)) && Fresh(d, range)
    requires phase.files != {} && phase.files <= d.staging && Start(phase.files) < End(d.published)
    ensures exists g :: Straddles(d, g)
  {
    var u :| u in phase.files && u.start == Start(phase.files);
    assert Straddles(d, u);
  }

  // ----- what the push's listing decides -----

  /** In every state orderly runs reach, as a publish whose claim reaches past the
      published end lists what to push: it goes on to push a straddler, which will be
      refused, just when one is inside its claim and is by then covered or finished with;
      it had been left out of the swaps. If one is not, nothing is pushed at all. */
  lemma StraddlerPushedIff(s: State, id: nat, listing: Listing, g: File)
    requires ReachableInOrder(s) && Enabled(s, ListPush(id, listing)) && Fresh(s.d, s.ops[id].range)
    requires Straddles(s.d, g)
    ensures LeftOut(s.ops[id].phase.choice, g)
    ensures var t := Apply(s, ListPush(id, listing));
      && (Enabled(t, IntendPush(id, g)) <==>
            WithinBound(s.ops[id].range, g.end) && (CoveredWithIntents(s.d, g) || g.end <= listing.limit))
      && forall f :: Enabled(t, IntendPush(id, f)) ==> f == g
  {
    hide *;
    ListingIs(s, id, listing);
    ReachableTidy(s);
    Parts(s);
    Part(s, id);
    var d, floor, choice := s.d, s.ops[id].phase.floor, s.ops[id].phase.choice;
    WorkingView(d, s.ops[id], g);
    LeftNotFlushed(choice, g);
    StraddlerNext(d, floor, g);
    StraddlerFrozen(d, floor, g);
    FrozenIs(d, floor, listing.frozen, g);
    forall f ensures Enabled(Apply(s, ListPush(id, listing)), IntendPush(id, f)) ==> f == g {
      PushesNext(s, id, listing, f);
      if NextPending(d, floor, f) { OneNext(d, floor, f, g); }
    }
    PushesNext(s, id, listing, g);
    DueIs(choice, listing, g);
  }

  lemma ListingIs(s: State, id: nat, listing: Listing)
    requires Enabled(s, ListPush(id, listing))
    ensures id in s.ops && s.ops[id].Publishing? && s.ops[id].phase.Working? && s.ops[id].phase.swaps == {}
    ensures ReadsFrozen(s.d, s.ops[id].phase.floor, listing.frozen)
  {
    hide ReadsFrozen;
  }

  lemma WorkingView(d: Tables, op: Op, g: File)
    requires op.Publishing? && op.phase.Working? && op.phase.swaps == {}
    requires OpNeat(d, op) && Fresh(d, op.range) && Straddles(d, g)
    ensures op.phase.floor == End(d.published) && LeftOut(op.phase.choice, g)
  {
    hide AllFit, LeftOut;
  }

  lemma PushesNext(s: State, id: nat, listing: Listing, f: File)
    requires Enabled(s, ListPush(id, listing))
    requires id in s.ops && s.ops[id].Publishing? && s.ops[id].phase.Working?
    ensures Enabled(Apply(s, ListPush(id, listing)), IntendPush(id, f)) <==>
      && NextPending(s.d, s.ops[id].phase.floor, f)
      && WithinBound(s.ops[id].range, f.end)
      && PushDue(s.ops[id].phase.choice, listing, f)
  {
    hide ReadsFrozen, NextPending, WithinBound, PushDue;
  }

  lemma DueIs(choice: Choice, listing: Listing, g: File)
    requires !choice.flush
    ensures PushDue(choice, listing, g) <==> g.end <= listing.frozen || g.end <= listing.limit
  {
  }

  lemma FrozenIs(d: Tables, floor: nat, frozen: nat, g: File)
    requires ReadsFrozen(d, floor, frozen) && NextPending(d, floor, g)
    ensures g.end <= frozen <==> InFrozenPrefix(d, floor, g)
  {
    hide InFrozenPrefix;
  }

  lemma LeftNotFlushed(choice: Choice, g: File)
    requires LeftOut(choice, g)
    ensures !choice.flush
  {
  }

  lemma StraddlerNext(d: Tables, floor: nat, g: File)
    requires FilesOk(d) && Straddles(d, g) && floor == End(d.published)
    ensures NextPending(d, floor, g)
  {
    hide Tight, Loose, UniquePaths, RowsApart;
  }

  lemma OneNext(d: Tables, floor: nat, f: File, g: File)
    requires FilesOk(d) && NextPending(d, floor, f) && NextPending(d, floor, g)
    ensures f == g
  {
    hide Tight, Loose, UniquePaths, RowsApart;
  }

  /** The prefix of files past the floor that coverage reaches has the straddler in it just
      when the straddler itself is covered. */
  lemma StraddlerFrozen(d: Tables, floor: nat, g: File)
    requires FilesOk(d) && Straddles(d, g) && floor == End(d.published)
    ensures InFrozenPrefix(d, floor, g) <==> CoveredWithIntents(d, g)
  {
    hide Tight, Loose, UniquePaths, RowsApart, CoveredWithIntents;
  }

  // ----- and what changed meanwhile -----

  ghost predicate Names(step: Step, intent: Intent) {
    match step
    case StrayIntent(f) => AsIntent(f) == intent
    case IntendSwap(_, m) => AsIntent(m) == intent
    case IntendPush(_, f) => AsIntent(f) == intent
    case _ => false
  }

  /** An intent a publish has read, and has yet to retire or forget. */
  ghost predicate Outstanding(phase: Phase, intent: Intent) {
    match phase
    case Noted(_, landed, dead, _) => intent.path in landed || intent in dead
    case Reconciled(_, dead, _) => intent in dead
    case _ => false
  }

  /** Past the reading of intents, whatever intent is there is outstanding. */
  ghost predicate Read(s: State, id: nat, intent: Intent) {
    && id in s.ops && s.ops[id].Publishing?
    && !s.ops[id].phase.Opened? && !s.ops[id].phase.Staged? && !s.ops[id].phase.Looked?
    && (intent in s.d.intents ==> Outstanding(s.ops[id].phase, intent))
  }

  /** The publish goes on: it does not stop, and is not over. */
  ghost predicate GoesOn(step: Step, id: nat) {
    step != Drop(id) && !(step.CommitPush? && step.id == id)
  }

  lemma StepReads(s: State, step: Step, id: nat, intent: Intent)
    requires Read(s, id, intent) && Enabled(s, step) && GoesOn(step, id) && !Names(step, intent)
    ensures Read(Apply(s, step), id, intent)
  {
    OthersLeave(s, step, id);
    IntentsLeft(s, step, intent);
  }

  /** Nobody else moves a publish on. */
  lemma OthersLeave(s: State, step: Step, id: nat)
    requires Enabled(s, step) && GoesOn(step, id) && id in s.ops && s.ops[id].Publishing?
    requires !s.ops[id].phase.Opened? && !s.ops[id].phase.Staged? && !s.ops[id].phase.Looked?
    ensures var t := Apply(s, step);
      && id in t.ops && t.ops[id].Publishing?
      && !t.ops[id].phase.Opened? && !t.ops[id].phase.Staged? && !t.ops[id].phase.Looked?
      && (t.ops[id] == s.ops[id]
          || step == Reconcile(id)
          || (step.Forget? && step.id == id)
          || (!s.ops[id].phase.Noted? && (s.ops[id].phase.Reconciled? ==> s.ops[id].phase.dead == {})
              && !t.ops[id].phase.Noted? && !t.ops[id].phase.Reconciled?))
  {
    hide Write, GroupOk, Whole, Unclaimed, Rewrites, CutsOk, MergeCandidate, RangeOk, SwapsListed, ReadsFrozen, NextPending,
         WithinBound, PushDue, FreshPath, NamesIn, PushRegisters,
         LinedUp, HeldPaths, LandedPaths, DeadIntents, SealFile, End;
  }

  lemma IntentsLeft(s: State, step: Step, intent: Intent)
    requires Enabled(s, step) && !Names(step, intent)
    ensures intent in Write(s, step).intents ==> intent in s.d.intents
    ensures step.Reconcile? && intent in Write(s, step).intents ==> intent.path !in s.ops[step.id].phase.landed
    ensures step.Forget? && intent in Write(s, step).intents ==> intent != step.intent
  {
  }

  lemma {:induction false} RunReads(s: State, steps: seq<Step>, id: nat, intent: Intent)
    requires Read(s, id, intent) && Legal(s, steps)
    requires forall step :: step in steps ==> GoesOn(step, id) && !Names(step, intent)
    ensures Read(After(s, steps), id, intent)
    decreases |steps|
  {
    hide Read, Enabled, Apply, GoesOn, Names;
    if steps != [] {
      assert steps[0] in steps && forall step :: step in steps[1..] ==> step in steps;
      StepReads(s, steps[0], id, intent);
      RunReads(Apply(s, steps[0]), steps[1..], id, intent);
    }
  }

  /** A step of the run writes the intent down. */
  ghost predicate NamedSince(steps: seq<Step>, intent: Intent) {
    exists step :: step in steps && Names(step, intent)
  }

  ghost predicate CoveredSince(steps: seq<Step>, o: nat) {
    exists i: Intent :: i.start <= o < i.end && NamedSince(steps, i)
  }

  /** What a publish finds as it lists what to push was written since it read the intents:
      the others it has retired or forgotten. */
  lemma IntentsSince(s: State, id: nat, steps: seq<Step>, intent: Intent)
    requires Enabled(s, ReadIntents(id)) && Legal(Apply(s, ReadIntents(id)), steps)
    requires forall step :: step in steps ==> GoesOn(step, id)
    requires var t := After(Apply(s, ReadIntents(id)), steps);
      intent in t.d.intents && id in t.ops && t.ops[id].Publishing? && t.ops[id].phase.Working?
    ensures NamedSince(steps, intent)
  {
    hide GoesOn, Names, Legal, After;
    var a := Apply(s, ReadIntents(id));
    assert Read(a, id, intent);
    if !NamedSince(steps, intent) {
      RunReads(a, steps, id, intent);
    }
  }

  /** Why a push is refused, over every orderly run from a publish's reading the intents to
      its listing what to push: it goes on to push a straddler, left out of its swaps, only
      if compaction has finished with the file since, or each of its offsets past the
      published end is under an intent written since. */
  lemma StraddlerPushedBecause(s: State, id: nat, steps: seq<Step>, listing: Listing, g: File)
    requires Enabled(s, ReadIntents(id)) && Legal(Apply(s, ReadIntents(id)), steps)
    requires forall step :: step in steps ==> GoesOn(step, id)
    requires var t := After(Apply(s, ReadIntents(id)), steps);
      && ReachableInOrder(t) && Enabled(t, ListPush(id, listing)) && Fresh(t.d, t.ops[id].range)
      && Straddles(t.d, g) && Enabled(Apply(t, ListPush(id, listing)), IntendPush(id, g))
    ensures var t := After(Apply(s, ReadIntents(id)), steps);
      || t.ops[id].phase.choice.limit < g.end <= listing.limit
      || (t.ops[id].phase.choice.limit < g.end
          && forall o: nat :: End(t.d.published) <= o < g.end ==> CoveredSince(steps, o))
  {
    hide *;
    var t := After(Apply(s, ReadIntents(id)), steps);
    ListingIs(t, id, listing);
    StraddlerPushedIff(t, id, listing, g);
    LeftPast(t.ops[id].phase.choice, g);
    if listing.limit < g.end {
      ReachableTidy(t);
      Parts(t);
      forall o: nat | End(t.d.published) <= o < g.end
        ensures CoveredSince(steps, o)
      {
        var i := CoveringIntent(t.d, g, o);
        IntentsSince(s, id, steps, i);
        SinceCovers(steps, i, o);
      }
    }
  }

  lemma SinceCovers(steps: seq<Step>, i: Intent, o: nat)
    requires NamedSince(steps, i) && i.start <= o < i.end
    ensures CoveredSince(steps, o)
  {
    hide NamedSince;
  }

  lemma LeftPast(choice: Choice, g: File)
    requires LeftOut(choice, g)
    ensures choice.limit < g.end
  {
  }

  /** Past the published end, only an intent covers an offset. */
  lemma CoveringIntent(d: Tables, g: File, o: nat) returns (i: Intent)
    requires Watermark(d) && Straddles(d, g) && CoveredWithIntents(d, g)
    requires End(d.published) <= o < g.end
    ensures i in d.intents && i.start <= o < i.end
  {
    assert d.published != {} && d.through < End(d.published);
    assert MaybePublished(d, o);
    i :| i in d.intents && i.start <= o < i.end;
  }
}
