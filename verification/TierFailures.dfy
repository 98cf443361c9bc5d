/** Four promises the protocol keeps only under a condition: the exact condition of
    each, and a run of the log that breaks it.

    Watermark and intents cover what is published. A publish forgets the intents it does
    not find landed, and nothing between its taking the claim and its forgetting renews
    that claim. The intent it drops may be another publish's, once its range lies below
    the published end (`StaleForgetUncovers`) or its claim has lapsed
    (`LapsedForgetUncovers`).

    A swap removes whole published files. A publish swaps what it listed as it began,
    and only its claim keeps another from swapping in a larger file over the same rows;
    a claim whose range lies below the published end keeps nobody out (`StaleSwapCuts`).

    A push under a held claim is not refused. It is, exactly when a staging file straddles
    the published end that was left out of the swaps and became due since: `TierPushes` has
    the condition, `StraddlerRefused` the runs.

    A query is exact. With neither table to cut the buffer's answer, it returns whatever
    the cache still holds, truncated rows included (`TruncatedRowReturned`).
 */
module TierFailures {
  import opened Options
  import opened TierState
  import opened TierSteps
  import opened TierTables
  import opened TierPublish
  import opened TierRuns
  import opened TierTidy
  import opened TierOrderly
  import opened TierTheorems
  import opened TierPushes
  import opened TierHistory
  import opened QueryReader

  // ----- when an intent may be dropped -----

  /** In every state orderly runs reach: dropping an intent leaves everything covered,
      and every operation's premise as it was, just when nothing rests on it. */
  lemma ForgetKeepsIff(s: State, intent: Intent)
    requires ReachableInOrder(s)
    ensures Tidy(State(Forgotten(s.d, intent), s.ops)) <==> !RestsOn(s, intent)
  {
    hide ReachableInOrder, Inv, RestsOn, Tidy;
    ReachableTidy(s);
    ForgetExact(s, intent);
  }

  /** A publish that still holds its claim, over a range that still reaches past the
      published end, forgets nothing any other rests on. */
  lemma FreshPublishForgetsSafely(s: State, id: nat, intent: Intent)
    requires ReachableInOrder(s) && Enabled(s, Forget(id, intent)) && Fresh(s.d, s.ops[id].range)
    ensures !RestsOn(s, intent)
    ensures forall i :: i in s.ops && i != id ==> !UploadsUnder(s.d, s.ops[i], intent)
  {
    hide ReachableInOrder, Safe, Tidy;
    ReachableTidy(s);
    Part(s, id);
    OthersIdle(s, id);
    CoveredWhenReconciled(s.d, s.ops[id], intent);
  }

  lemma CoveredWhenReconciled(d: Tables, op: Op, intent: Intent)
    requires op.Publishing? && op.phase.Reconciled? && Fresh(d, op.range) && OpNeat(d, op)
    ensures d.through + 1 < intent.end ==> !Landed(d, intent)
    ensures !UploadsUnder(d, op, intent)
  {
  }

  /** In every state any run reaches: drop the intent of a copy that has landed, or that
      a push or a swap is about to register, and once it is registered no offset only
      that intent covered can be seen to be published. */
  lemma ForgottenIntentUncovers(s: State, id: nat, confirm: nat, cuts: set<File>, u: File, o: nat)
    requires Reachable(s) && u.start <= o < u.end && s.d.through < o
    requires forall i :: i in s.d.intents && i != AsIntent(u) ==> !(i.start <= o < i.end)
    ensures
      var t := State(Forgotten(s.d, AsIntent(u)), s.ops);
      && !MaybePublished(t.d, o)
      && (Registers(s, id, confirm, u) ==>
            && Enabled(t, CommitPush(id, confirm))
            && var after := Apply(t, CommitPush(id, confirm)).d;
            u in after.published && !MaybePublished(after, o))
      && (Replaces(s, id, confirm, cuts, u) ==>
            && Enabled(t, CommitSwap(id, confirm, cuts))
            && var after := Apply(t, CommitSwap(id, confirm, cuts)).d;
            u in after.published && !MaybePublished(after, o))
  {
    hide Reachable, CutsOk;
    var t := State(Forgotten(s.d, AsIntent(u)), s.ops);
    assert CutsOk(t.d, u, cuts) == CutsOk(s.d, u, cuts) by { CutsAlike(s.d, t.d, u, cuts); }
  }

  lemma CutsAlike(d: Tables, e: Tables, m: File, cuts: set<File>)
    requires e.published == d.published && e.names == d.names
    ensures CutsOk(e, m, cuts) == CutsOk(d, m, cuts)
  {
  }

  /** A push whose commit adds `u`. */
  ghost predicate Registers(s: State, id: nat, confirm: nat, u: File) {
    && Enabled(s, CommitPush(id, confirm))
    && u in s.ops[id].phase.files
    && PushRegisters(s.d, s.ops[id].phase.files)
  }

  /** A swap whose commit adds `u`. */
  ghost predicate Replaces(s: State, id: nat, confirm: nat, cuts: set<File>, u: File) {
    Enabled(s, CommitSwap(id, confirm, cuts)) && s.ops[id].phase.merged == u
  }

  // ----- when a swap removes whole files -----

  /** In every state any run reaches, while no published file was cut: a swap writes no
      part of a file anew, and leaves every published file a copy of one written, just
      when the file still lines up with what is published as it commits. */
  lemma SwapWholeIff(s: State, id: nat, confirm: nat, cuts: set<File>)
    requires Reachable(s) && Enabled(s, CommitSwap(id, confirm, cuts)) && s.d.published <= s.d.written
    ensures var m := s.ops[id].phase.merged;
      (forall p :: p in s.d.published ==> Apart(p, m) || (m.start <= p.start && p.end <= m.end))
      <==> cuts == {}
    ensures cuts == {} <==> Write(s, CommitSwap(id, confirm, cuts)).published <= s.d.written
  {
    hide Reachable, Legs, Watermark, TierRow;
    ReachableTables(s);
    ReachableOp(s, id);
    var m := s.ops[id].phase.merged;
    assert m in s.d.written by { SwappingIs(s.d, s.ops[id]); }
    SwapWhole(s.d, m, cuts);
  }

  lemma SwapWhole(d: Tables, m: File, cuts: set<File>)
    requires FilesOk(d) && d.published <= d.written && m in d.written && CutsOk(d, m, cuts)
    ensures (forall p :: p in d.published ==> Apart(p, m) || (m.start <= p.start && p.end <= m.end))
            <==> cuts == {}
    ensures cuts == {} <==> SwapIn(d, m, cuts).published <= d.written
  {
    hide CutsOk, Disjoint, RowsApart, UniquePaths, Loose;
    assert Tight(m, d.committed);
    forall p | p in d.published
      ensures Touches(p, m) && Beyond(p, m) <==> !(Apart(p, m) || (m.start <= p.start && p.end <= m.end))
    {
      assert Tight(p, d.committed);
      TornStraddles(d, m, p);
    }
    if Torn(d.published, m) == {} {
      NothingTorn(d, m, cuts);
    } else {
      var p :| p in Torn(d.published, m);
      SomethingTorn(d, m, cuts, p);
    }
    assert forall c :: c in cuts ==> c !in d.written by { CutsUnwritten(d, m, cuts); }
  }

  lemma CutsUnwritten(d: Tables, m: File, cuts: set<File>)
    requires FilesOk(d) && CutsOk(d, m, cuts)
    ensures forall c :: c in cuts ==> c !in d.written
  {
  }

  lemma SomethingTorn(d: Tables, m: File, cuts: set<File>, p: File)
    requires CutsOk(d, m, cuts) && p in Torn(d.published, m)
    ensures cuts != {}
  {
    var r :| r in p.rows && !(m.start <= r < m.end);
    assert Holds(Torn(d.published, m), r);
    assert Holds(cuts, r);
  }

  // ----- runs grow at the end -----

  lemma {:induction false} RunOn(s: State, steps: seq<Step>, step: Step)
    requires Legal(s, steps) && Enabled(After(s, steps), step)
    ensures Legal(s, steps + [step]) && After(s, steps + [step]) == Apply(After(s, steps), step)
    ensures AllOrderly(s, steps) && Orderly(After(s, steps), step) ==> AllOrderly(s, steps + [step])
    decreases |steps|
  {
    hide Enabled, Write, Advance, Orderly;
    if steps == [] {
      assert steps + [step] == [step];
      assert Legal(Apply(s, step), []);
      assert [step][1..] == [];
    } else {
      assert (steps + [step])[1..] == steps[1..] + [step];
      RunOn(Apply(s, steps[0]), steps[1..], step);
    }
  }

  lemma ReachedOn(s: State, step: Step)
    requires Reachable(s) && Enabled(s, step)
    ensures Reachable(Apply(s, step))
  {
    hide Enabled, Write, Advance, NewLog, Orderly;
    var s0 :| NewLog(s0) && Reaches(s0, s);
    var steps :| Legal(s0, steps) && After(s0, steps) == s;
    RunOn(s0, steps, step);
    assert Reaches(s0, Apply(s, step));
  }

  lemma OrderedOn(s: State, step: Step)
    requires ReachableInOrder(s) && Enabled(s, step) && Orderly(s, step)
    ensures ReachableInOrder(Apply(s, step))
  {
    hide Enabled, Write, Advance, NewLog, Orderly;
    var s0 :| NewLog(s0) && ReachesInOrder(s0, s);
    var steps :| Legal(s0, steps) && AllOrderly(s0, steps) && After(s0, steps) == s;
    RunOn(s0, steps, step);
    assert ReachesInOrder(s0, Apply(s, step));
  }

  lemma OrderedIsReached(s: State)
    requires ReachableInOrder(s)
    ensures Reachable(s)
  {
    hide Enabled, Write, Advance, NewLog, Orderly;
    var s0 :| NewLog(s0) && ReachesInOrder(s0, s);
    var steps :| Legal(s0, steps) && AllOrderly(s0, steps) && After(s0, steps) == s;
    assert Reaches(s0, s);
  }

  /** Reached by some run, and by an orderly one if `tidy`. */
  ghost predicate Reached(s: State, tidy: bool) {
    if tidy then ReachableInOrder(s) else Reachable(s)
  }

  lemma On(s: State, step: Step, tidy: bool)
    requires Reached(s, tidy) && Enabled(s, step) && (tidy ==> Orderly(s, step))
    ensures Reached(Apply(s, step), tidy)
  {
    hide Enabled, Apply, Orderly, Reachable, ReachableInOrder;
    if tidy { OrderedOn(s, step); } else { ReachedOn(s, step); }
  }

  // ----- what several steps do together -----

  lemma Drops(s: State, id: nat, tidy: bool)
    requires Reached(s, tidy) && id in s.ops
    ensures Reached(State(s.d, s.ops - {id}), tidy)
  {
    hide Reached;
    On(s, Drop(id), tidy);
  }

  lemma Claims(s: State, id: nat, range: Range, tidy: bool)
    requires Reached(s, tidy) && id !in s.ops && Unclaimed(s, range) && RangeOk(s.d, range)
    ensures Reached(State(s.d, s.ops[id := Publishing(range, Opened)]), tidy)
  {
    hide Reached, Unclaimed;
    On(s, ClaimPublish(id, range), tidy);
  }

  lemma Appends(s: State, tidy: bool)
    requires Reached(s, tidy) && forall id :: id in s.ops ==> !s.ops[id].Ingesting?
    ensures Reached(State(Appended(s.d, 1), s.ops), tidy)
  {
    hide Reached, Appended;
    On(s, Append(1), tidy);
  }

  /** Claim, write and register the first unfiled group, of one row. */
  lemma SealOne(s: State, id: nat, lo: nat, f: File, tidy: bool)
    requires Reached(s, tidy) && id !in s.ops && f.path !in s.d.names && Unclaimed(s, Span(lo, lo + 1))
    requires Head(s.d, lo) && lo in s.d.committed && !Filed(s.d, lo + 1)
    requires lo in s.d.buffer && f == File(f.path, lo, lo + 1, {lo})
    ensures Reached(State(s.d.(staging := s.d.staging + {f}, written := s.d.written + {f},
                               names := s.d.names + {f.path}), s.ops), tidy)
  {
    hide Reached, Head, Unclaimed;
    On(s, ClaimSeal(id, lo, lo + 1), tidy);
    var a := Apply(s, ClaimSeal(id, lo, lo + 1));
    On(a, WriteSeal(id, f.path), tidy);
    var b := Apply(a, WriteSeal(id, f.path));
    assert SealFile(s.d, Sealing(lo, lo + 1), f.path).rows == {lo};
    On(b, RegisterSeal(id), tidy);
    assert Apply(b, RegisterSeal(id)).ops == s.ops;
  }

  /** The publish `id` moves on, and the tables stay as they are. */
  lemma Goes(s: State, id: nat, range: Range, step: Step, phase: Phase, tidy: bool)
    requires Reached(s, tidy) && Enabled(s, step) && (tidy ==> Orderly(s, step))
    requires id in s.ops && s.ops[id].Publishing? && s.ops[id].range == range
    requires Write(s, step) == s.d && Advance(s, step) == s.ops[id := Publishing(range, phase)]
    ensures Reached(State(s.d, s.ops[id := Publishing(range, phase)]), tidy)
  {
    hide Reached, Enabled, Orderly, Write, Advance;
    On(s, step, tidy);
  }

  /** What a publish has after reconciling, none of the intents it read being landed. */
  ghost function Cleared(d: Tables, range: Range): Op {
    Publishing(range, Reconciled(End(d.published), d.intents, LinedUp(d, d.staging)))
  }

  /** Read both tables and the intents, none of them landed, and reconcile. */
  lemma Reads(s: State, id: nat, range: Range, tidy: bool)
    requires Reached(s, tidy) && id in s.ops && s.ops[id] == Publishing(range, Opened)
    requires s.d.tier.Some? && End(s.d.published) <= s.d.through + 1
    requires forall i :: i in s.d.intents ==> i.path !in Paths(s.d.published)
    ensures Reached(State(s.d, s.ops[id := Cleared(s.d, range)]), tidy)
  {
    hide Reached, LinedUp, HeldPaths;
    var d := s.d;
    Goes(s, id, range, ReadStaging(id), Staged(d.staging), tidy);
    var a := State(d, s.ops[id := Publishing(range, Staged(d.staging))]);
    var floor, held, lined := End(d.published), HeldPaths(d, d.staging), LinedUp(d, d.staging);
    Goes(a, id, range, Look(id), Looked(floor, held, lined), tidy);
    Restated(s.ops, id, Publishing(range, Staged(d.staging)), Publishing(range, Looked(floor, held, lined)));
    NotesReconciles(State(d, s.ops[id := Publishing(range, Looked(floor, held, lined))]), id, range, tidy);
    Restated(s.ops, id, Publishing(range, Looked(floor, held, lined)), Cleared(d, range));
  }

  lemma Restated(ops: map<nat, Op>, id: nat, a: Op, b: Op)
    ensures ops[id := a][id := b] == ops[id := b]
  {
  }

  lemma NotesReconciles(b: State, id: nat, range: Range, tidy: bool)
    requires Reached(b, tidy) && id in b.ops && End(b.d.published) <= b.d.through + 1
    requires forall i :: i in b.d.intents ==> i.path !in Paths(b.d.published)
    requires b.ops[id] == Publishing(range, Looked(End(b.d.published), HeldPaths(b.d, b.d.staging),
                                                   LinedUp(b.d, b.d.staging)))
    ensures Reached(State(b.d, b.ops[id := Cleared(b.d, range)]), tidy)
  {
    hide Reached, LinedUp, HeldPaths, LandedPaths, DeadIntents;
    var d := b.d;
    var floor, lined := End(d.published), LinedUp(d, d.staging);
    NoneLanded(d, HeldPaths(d, d.staging));
    var noted := Publishing(range, Noted(floor, {}, d.intents, lined));
    Goes(b, id, range, ReadIntents(id), noted.phase, tidy);
    var c := State(d, b.ops[id := noted]);
    ConfirmsNothing(d);
    Goes(c, id, range, Reconcile(id), Reconciled(floor, d.intents, lined), tidy);
    Restated(b.ops, id, noted, Cleared(d, range));
  }

  lemma NoneLanded(d: Tables, held: set<nat>)
    requires held <= Paths(d.published) && forall i :: i in d.intents ==> i.path !in Paths(d.published)
    ensures LandedPaths(d, held) == {} && DeadIntents(d, held) == d.intents
  {
    assert forall i :: i in d.intents ==> i.path !in held;
  }

  lemma ConfirmsNothing(d: Tables)
    requires End(d.published) <= d.through + 1
    ensures ConfirmedTo(d, End(d.published), {}) == d
  {
    assert ConfirmedTo(d, End(d.published), {}).intents == d.intents;
  }

  ghost predicate MayList(d: Tables, swaps: set<File>, choice: Choice) {
    SwapsListed(LinedUp(d, d.staging), End(d.published), swaps, choice)
  }

  /** Claim a range, read everything, nothing being in flight, and list the swaps. */
  lemma Opens(s: State, id: nat, range: Range, swaps: set<File>, choice: Choice, tidy: bool)
    requires Reached(s, tidy) && id !in s.ops && Unclaimed(s, range) && RangeOk(s.d, range)
    requires s.d.tier.Some? && End(s.d.published) <= s.d.through + 1
    requires s.d.intents == {} && MayList(s.d, swaps, choice)
    ensures Reached(State(s.d, s.ops[id := Publishing(range, Working(End(s.d.published), swaps, choice))]), tidy)
  {
    hide Reached, Unclaimed, LinedUp;
    var claimed, working := Publishing(range, Opened), Publishing(range, Working(End(s.d.published), swaps, choice));
    Claims(s, id, range, tidy);
    Reads(State(s.d, s.ops[id := claimed]), id, range, tidy);
    Restated(s.ops, id, claimed, Cleared(s.d, range));
    var a := State(s.d, s.ops[id := Cleared(s.d, range)]);
    Goes(a, id, range, ListSwaps(id, swaps, choice), working.phase, tidy);
    Restated(s.ops, id, Cleared(s.d, range), working);
  }

  /** And, with nothing to swap, list what to push. */
  lemma Lists(s: State, id: nat, range: Range, choice: Choice, listing: Listing, tidy: bool)
    requires Reached(s, tidy) && id in s.ops
    requires s.ops[id] == Publishing(range, Working(End(s.d.published), {}, choice))
    requires ReadsFrozen(s.d, End(s.d.published), listing.frozen)
    ensures Reached(State(s.d, s.ops[id := Publishing(range, Chosen(End(s.d.published), choice, listing))]), tidy)
  {
    hide Reached, ReadsFrozen;
    Goes(s, id, range, ListPush(id, listing), Chosen(End(s.d.published), choice, listing), tidy);
  }

  /** A run of staging files merged into one. */
  lemma MergesInto(s: State, id: nat, run: set<File>, m: File, tidy: bool)
    requires Reached(s, tidy) && id !in s.ops && Whole(s.d, run) && Unclaimed(s, Span(Start(run), End(run)))
    requires run <= s.d.staging && forall f :: f in run ==> MergeCandidate(s.d, f)
    requires Rewrites(s.d, run, s.d.through + 1, {m})
    ensures Reached(State(ReplaceRun(FilesAdded(s.d, {m}, {m.path}), run, {m}), s.ops), tidy)
  {
    hide Reached, Whole, Unclaimed, MergeCandidate, Rewrites;
    On(s, ClaimMerge(id, run), tidy);
    var a := State(s.d, s.ops[id := Compacting(run)]);
    assert Apply(s, ClaimMerge(id, run)) == a;
    On(a, CheckMerge(id), tidy);
    assert Apply(a, CheckMerge(id)).ops == s.ops[id := Checked(run)];
    MergesOn(s, id, run, m, tidy);
  }

  lemma MergesOn(s: State, id: nat, run: set<File>, m: File, tidy: bool)
    requires Reached(State(s.d, s.ops[id := Checked(run)]), tidy) && id !in s.ops
    requires Rewrites(s.d, run, s.d.through + 1, {m})
    ensures Reached(State(ReplaceRun(FilesAdded(s.d, {m}, {m.path}), run, {m}), s.ops), tidy)
  {
    hide Reached, Rewrites, ReplaceRun;
    var b := State(s.d, s.ops[id := Checked(run)]);
    On(b, ReadFloor(id), tidy);
    var c := State(s.d, s.ops[id := Merging(run, s.d.through + 1)]);
    assert Apply(b, ReadFloor(id)).ops == c.ops;
    On(c, WriteMerge(id, {m}), tidy);
    assert Paths({m}) == {m.path};
    var e := State(FilesAdded(s.d, {m}, {m.path}), s.ops[id := Merged(run, s.d.through + 1, {m})]);
    assert Apply(c, WriteMerge(id, {m})).ops == e.ops;
    On(e, CommitMerge(id), tidy);
    assert Apply(e, CommitMerge(id)).ops == s.ops;
  }

  // ----- two rows, two files -----

  ghost function F1(): File { File(1, 1, 2, {1}) }
  ghost function F2(): File { File(2, 2, 3, {2}) }

  /** The tables with `rows` appended, these files sealed and published, and the tier
      row written. */
  ghost function Log(rows: nat, sealed: set<File>, published: set<File>, through: nat,
                     intents: set<Intent>): Tables {
    Tables(rows + 1, Sequence(1, rows), 0, Sequence(1, rows), sealed, published, through, intents,
           Some({}), {}, sealed, Paths(sealed))
  }

  lemma Spans()
    ensures End({F1()}) == 2 && End({F1(), F2()}) == 3 && End({F2()}) == 3 && Start({F2()}) == 2
    ensures Start({F1()}) == 1 && Start({F1(), F2()}) == 1
    ensures Paths({F1()}) == {1} && Paths({F1(), F2()}) == {1, 2} && Paths({}) == {}
    ensures Sequence(1, 0) == {} && Sequence(1, 1) == {1} && Sequence(1, 2) == {1, 2}
  {
    assert F1() in {F1()} && F1() in {F1(), F2()} && F2() in {F1(), F2()} && F2() in {F2()};
  }

  /** The first publish of a log finds nothing to push, and writes the tier row. */
  lemma Begun()
    ensures ReachableInOrder(State(Log(0, {}, {}, 0, {}), map[]))
  {
    hide ReachableInOrder;
    Spans();
    var s := State(Log(0, {}, {}, 0, {}).(tier := None), map[]);
    Empty(s);
    Claims(s, 0, Everything, true);
    var a := State(s.d, s.ops[0 := Publishing(Everything, Opened)]);
    Narrows(a);
    var b := State(Log(0, {}, {}, 0, {}), a.ops);
    Drops(b, 0, true);
    assert b.ops - {0} == map[];
  }

  lemma Empty(s: State)
    requires NewLog(s)
    ensures ReachableInOrder(s)
  {
    hide NewLog;
    assert Legal(s, []) && AllOrderly(s, []) && After(s, []) == s;
    assert ReachesInOrder(s, s);
  }

  lemma Narrows(a: State)
    requires ReachableInOrder(a) && a.d.published == {}
    requires 0 in a.ops && a.ops[0] == Publishing(Everything, Opened)
    ensures ReachableInOrder(State(a.d.(tier := Some({})), a.ops))
  {
    hide ReachableInOrder;
    OrderedOn(a, NarrowTier(0));
    assert ReachablePublished(a.d) == {};
  }

  lemma Sealed1()
    ensures ReachableInOrder(State(Log(1, {F1()}, {}, 0, {}), map[]))
  {
    hide ReachableInOrder;
    Spans();
    Begun();
    var s := State(Log(0, {}, {}, 0, {}), map[]);
    Appends(s, true);
    assert Sequence(1, 0) + Sequence(1, 1) == Sequence(1, 1);
    var t := State(Log(1, {}, {}, 0, {}), map[]);
    assert Appended(s.d, 1) == t.d;
    SealOne(t, 0, 1, F1(), true);
    assert {} + {F1()} == {F1()} && {} + {1} == Paths({F1()});
  }

  /** Flushing, and nothing covered. */
  const FLUSH := Choice(true, 0)
  const NONE_DUE := Listing(0, 0)

  ghost predicate Pushable(d: Tables, f: File) {
    && d.intents == {}
    && f in d.staging && f.start < f.end
    && (forall g :: g in d.staging ==> g.end <= End(d.published) || g == f || f.end <= g.start)
    && End(d.published) <= f.start && End(d.published) <= d.through + 1
    && d.through + 1 < f.end
  }

  /** With nothing covered past the published end, coverage reaches no file. */
  lemma NothingFrozen(d: Tables, f: File)
    requires Pushable(d, f)
    ensures ReadsFrozen(d, End(d.published), 0)
  {
    assert !MaybePublished(d, f.end - 1);
    assert !CoveredWithIntents(d, f);
  }

  /** Under its claim, a publish lists a file, names its copy, registers it and confirms. */
  lemma Pushes(d: Tables, range: Range, f: File)
    requires ReachableInOrder(State(d, map[0 := Publishing(range, Working(End(d.published), {}, FLUSH))]))
    requires Pushable(d, f) && WithinBound(range, f.end)
    ensures ReachableInOrder(State(d.(published := d.published + {f}, through := f.end - 1), map[]))
  {
    hide ReachableInOrder, Pushable, ReadsFrozen;
    var a := State(d, map[0 := Publishing(range, Working(End(d.published), {}, FLUSH))]);
    NothingFrozen(d, f);
    Lists(a, 0, range, FLUSH, NONE_DUE, true);
    var b := State(d, map[0 := Publishing(range, Chosen(End(d.published), FLUSH, NONE_DUE))]);
    assert a.ops[0 := b.ops[0]] == b.ops;
    PushableNext(b, range, f);
    OrderedOn(b, IntendPush(0, f));
    var c := State(Intended(d, f), map[0 := Publishing(range, Pushing({f}, f.end, FLUSH, NONE_DUE))]);
    assert {} + {f} == {f};
    assert Apply(b, IntendPush(0, f)).ops == c.ops;
    Registered(d, range, f);
    Confirms(d, f);
  }

  lemma PushableNext(b: State, range: Range, f: File)
    requires Pushable(b.d, f) && WithinBound(range, f.end)
    requires b.ops == map[0 := Publishing(range, Chosen(End(b.d.published), FLUSH, NONE_DUE))]
    ensures Enabled(b, IntendPush(0, f))
  {
  }

  lemma Registered(d: Tables, range: Range, f: File)
    requires ReachableInOrder(State(Intended(d, f), map[0 := Publishing(range, Pushing({f}, f.end, FLUSH, NONE_DUE))]))
    requires Pushable(d, f)
    ensures ReachableInOrder(State(Intended(d, f).(published := d.published + {f}),
                                   map[1 := Confirming(f.end, {f.path})]))
  {
    hide ReachableInOrder;
    var c := State(Intended(d, f), map[0 := Publishing(range, Pushing({f}, f.end, FLUSH, NONE_DUE))]);
    assert Start({f}) == f.start by { assert f in {f}; }
    OrderedOn(c, CommitPush(0, 1));
    assert Paths({f}) == {f.path};
    assert Apply(c, CommitPush(0, 1)).ops == map[1 := Confirming(f.end, {f.path})];
  }

  lemma Confirms(d: Tables, f: File)
    requires ReachableInOrder(State(Intended(d, f).(published := d.published + {f}),
                                    map[1 := Confirming(f.end, {f.path})]))
    requires Pushable(d, f)
    ensures ReachableInOrder(State(d.(published := d.published + {f}, through := f.end - 1), map[]))
  {
    hide ReachableInOrder;
    var e := State(Intended(d, f).(published := d.published + {f}), map[1 := Confirming(f.end, {f.path})]);
    OrderedOn(e, Confirm(1));
    var t := Apply(e, Confirm(1));
    assert t.ops == map[];
    assert t.d.intents == {};
    assert t.d == d.(published := d.published + {f}, through := f.end - 1);
  }

  /** A file published, or meeting none that is, has nothing to replace. */
  lemma NothingLines(d: Tables)
    requires forall m :: m in d.staging ==> m in d.published || forall p :: p in d.published ==> Apart(p, m)
    ensures LinedUp(d, d.staging) == {} && forall choice :: MayList(d, {}, choice)
  {
  }

  lemma Published1()
    ensures ReachableInOrder(State(Log(1, {F1()}, {F1()}, 1, {}), map[]))
  {
    hide ReachableInOrder;
    Spans();
    Sealed1();
    var s := State(Log(1, {F1()}, {}, 0, {}), map[]);
    NothingLines(s.d);
    Opens(s, 0, Span(0, 2), {}, FLUSH, true);
    var working := Publishing(Span(0, 2), Working(0, {}, FLUSH));
    assert map[][0 := working] == map[0 := working];
    Pushes(s.d, Span(0, 2), F1());
    assert {} + {F1()} == {F1()};
  }

  /** Two files sealed, the first published. */
  ghost function Two(): Tables {
    Log(2, {F1(), F2()}, {F1()}, 1, {})
  }

  lemma Sealed2()
    ensures ReachableInOrder(State(Two(), map[]))
  {
    hide ReachableInOrder;
    Spans();
    Published1();
    var s := State(Log(1, {F1()}, {F1()}, 1, {}), map[]);
    Appends(s, true);
    var t := State(Appended(s.d, 1), map[]);
    assert Sequence(1, 1) + Sequence(2, 1) == Sequence(1, 2);
    SealOne(t, 0, 2, F2(), true);
    assert {F1()} + {F2()} == {F1(), F2()};
    assert {1} + {2} == {1, 2};
  }

  // ----- a publish that forgets another's intent -----

  ghost function Second(): Op {
    Publishing(Span(2, 3), Pushing({F2()}, 3, FLUSH, NONE_DUE))
  }

  /** Publish 1 holds `[2, 3)` and has named and uploaded the second file. Publish 0, if
      it is there, holds `[0, 1)`, chosen while nothing was published, and has just read
      the other's intent. */
  ghost function Stale(): State {
    State(Two().(intents := {AsIntent(F2())}),
          map[0 := Publishing(Span(0, 1), Reconciled(2, {AsIntent(F2())}, {})), 1 := Second()])
  }

  ghost function Lapsed(): State {
    State(Two().(intents := {AsIntent(F2())}), map[1 := Second()])
  }

  lemma SecondNames(ops: map<nat, Op>)
    requires ReachableInOrder(State(Two(), ops)) && 1 !in ops && Unclaimed(State(Two(), ops), Span(2, 3))
    ensures ReachableInOrder(State(Two().(intents := {AsIntent(F2())}), ops[1 := Second()]))
  {
    hide ReachableInOrder, Unclaimed, ReadsFrozen;
    Spans();
    var s := State(Two(), ops);
    NothingLines(Two());
    Opens(s, 1, Span(2, 3), {}, FLUSH, true);
    var working := Publishing(Span(2, 3), Working(2, {}, FLUSH));
    NothingFrozen(Two(), F2());
    Lists(State(Two(), ops[1 := working]), 1, Span(2, 3), FLUSH, NONE_DUE, true);
    var chosen := Publishing(Span(2, 3), Chosen(2, FLUSH, NONE_DUE));
    Restated(ops, 1, working, chosen);
    SecondIntends(ops, chosen);
  }

  lemma SecondIntends(ops: map<nat, Op>, chosen: Op)
    requires chosen == Publishing(Span(2, 3), Chosen(2, FLUSH, NONE_DUE))
    requires ReachableInOrder(State(Two(), ops[1 := chosen]))
    ensures ReachableInOrder(State(Two().(intents := {AsIntent(F2())}), ops[1 := Second()]))
  {
    hide ReachableInOrder;
    var t := State(Two(), ops[1 := chosen]);
    OrderedOn(t, IntendPush(1, F2()));
    assert {} + {F2()} == {F2()};
    var u := Apply(t, IntendPush(1, F2()));
    assert u.ops == ops[1 := Second()];
    assert u.d.intents == {AsIntent(F2())};
  }

  lemma StaleReached()
    ensures ReachableInOrder(Stale())
  {
    hide ReachableInOrder, LinedUp;
    Spans();
    Sealed2();
    var s := State(Two(), map[]);
    Claims(s, 0, Span(0, 1), true);
    var ops := map[0 := Publishing(Span(0, 1), Opened)];
    assert map[][0 := Publishing(Span(0, 1), Opened)] == ops;
    SecondNames(ops);
    var a := State(Two().(intents := {AsIntent(F2())}), ops[1 := Second()]);
    Reads(a, 0, Span(0, 1), true);
    NothingLines(a.d);
    assert a.ops[0 := Cleared(a.d, Span(0, 1))] == Stale().ops;
  }

  /** Publish 0 claims `[2, 3)` and stalls; its claim lapses, and publish 1 takes over. */
  lemma LapsedReached()
    ensures ReachableInOrder(Lapsed())
  {
    hide ReachableInOrder;
    Spans();
    Sealed2();
    var s := State(Two(), map[]);
    Claims(s, 0, Span(2, 3), true);
    var a := State(Two(), s.ops[0 := Publishing(Span(2, 3), Opened)]);
    Drops(a, 0, true);
    assert a.ops - {0} == map[];
    SecondNames(map[]);
    assert map[][1 := Second()] == Lapsed().ops;
  }

  /** The intent gone, the register leaves a published file that neither the watermark
      nor an intent covers: compaction may merge across it. */
  ghost predicate Uncovers(s: State) {
    && Enabled(s, CommitPush(1, 2))
    && var u := Apply(s, CommitPush(1, 2));
    && Reachable(u)
    && F2() in u.d.published && !MaybePublished(u.d, F2().start)
    && MergeCandidate(u.d, F2())
  }

  lemma RegisterUncovers(ops: map<nat, Op>)
    requires 1 in ops && ops[1] == Second() && 2 !in ops && Reachable(State(Two(), ops))
    ensures Uncovers(State(Two(), ops))
  {
    hide Reachable;
    Spans();
    var t := State(Two(), ops);
    ReachedOn(t, CommitPush(1, 2));
    var u := Apply(t, CommitPush(1, 2));
    assert u.d.published == {F1(), F2()};
    assert !MaybePublished(u.d, 2);
    assert !CoveredWithIntents(u.d, F2()) by { assert F2().start <= 2 < F2().end; }
    assert F2() in u.d.staging;
    assert !InClaimedPrefix(u.d, F2());
  }

  /** A publish that still holds its claim, over a range the published end has passed. */
  lemma StaleForgetUncovers()
    ensures
      var s, step := Stale(), Forget(0, AsIntent(F2()));
      && ReachableInOrder(s) && !NamesIn(s.d.published, F2().path)
      && Enabled(s, step) && !Fresh(s.d, s.ops[0].range) && RestsOn(s, AsIntent(F2()))
      && Uncovers(Apply(s, step))
  {
    hide ReachableInOrder, Reachable;
    StaleReached();
    var s, step := Stale(), Forget(0, AsIntent(F2()));
    Resting(s);
    OrderedIsReached(s);
    ReachedOn(s, step);
    Unnamed();
    var t := Apply(s, step);
    assert t.d == Two() && t.ops == s.ops[0 := t.ops[0]];
    RegisterUncovers(t.ops);
  }

  /** A publish whose claim lapsed before it forgot, its range as fresh as ever. */
  lemma LapsedForgetUncovers()
    ensures
      var s, step := Lapsed(), StrayForget(AsIntent(F2()));
      && ReachableInOrder(s) && !NamesIn(s.d.published, F2().path)
      && Enabled(s, step) && Fresh(s.d, Span(2, 3)) && RestsOn(s, AsIntent(F2()))
      && Uncovers(Apply(s, step))
  {
    hide ReachableInOrder, Reachable;
    LapsedReached();
    var s, step := Lapsed(), StrayForget(AsIntent(F2()));
    Resting(s);
    OrderedIsReached(s);
    ReachedOn(s, step);
    Unnamed();
    RegisterUncovers(s.ops);
  }

  lemma Unnamed()
    ensures Forgotten(Two().(intents := {AsIntent(F2())}), AsIntent(F2())) == Two()
  {
  }

  lemma Resting(s: State)
    requires s.d == Two().(intents := {AsIntent(F2())}) && 1 in s.ops && s.ops[1] == Second()
    ensures RestsOn(s, AsIntent(F2())) && !NamesIn(s.d.published, F2().path)
    ensures Base(s.d) == 2
  {
    Spans();
    assert F2() in s.ops[1].phase.files;
    assert UploadsUnder(s.d, s.ops[1], AsIntent(F2()));
  }

  // ----- a publish that swaps in what another has merged again -----

  ghost function Both(): File { File(3, 1, 3, {1, 2}) }
  ghost function F3(): File { File(4, 3, 4, {3}) }
  ghost function All(): File { File(5, 1, 4, {1, 2, 3}) }
  ghost function Remnant(): File { File(6, 3, 4, {3}) }

  /** `rows` rows, every one still buffered, the watermark at the first. */
  ghost predicate Holding(d: Tables, rows: nat, staging: set<File>, published: set<File>, paths: nat) {
    && d.next == rows + 1 && d.committed == Sequence(1, rows) && d.buffer == Sequence(1, rows)
    && d.low == 0 && d.staging == staging && d.published == published && d.through == 1
    && d.tier.Some? && staging <= d.written && published <= d.written
    && (forall p :: p in d.names ==> p < paths)
  }

  /** With nothing in flight, every staging file may be merged. */
  lemma NoIntentsCandidate(d: Tables, f: File)
    requires d.intents == {} && forall g :: g in d.staging ==> g.start < g.end
    ensures MergeCandidate(d, f)
  {
    forall g | g in d.staging && CoveredWithIntents(d, g) ensures CoveredByWatermark(d, g) {
      assert MaybePublished(d, g.end - 1);
    }
  }

  lemma Widths()
    ensures Sequence(1, 3) == {1, 2, 3} && Sequence(1, 2) == {1, 2}
    ensures End({Both()}) == 3 && Start({Both()}) == 1 && End({All()}) == 4 && Start({All()}) == 1
    ensures End({Both(), F3()}) == 4 && Start({Both(), F3()}) == 1
    ensures End({F1()}) == 2 && End({F1(), F2()}) == 3 && Start({F1(), F2()}) == 1
  {
    Spans();
    assert Both() in {Both()} && All() in {All()} && Both() in {Both(), F3()} && F3() in {Both(), F3()};
  }

  lemma Merged2() returns (s: State)
    ensures Reached(s, true) && s.ops == map[] && Holding(s.d, 2, {Both()}, {F1()}, 4) && s.d.intents == {}
  {
    hide Reached, Reachable, ReachableInOrder, Whole, Rewrites, MergeCandidate;
    Sealed2();
    var t := State(Two(), map[]);
    assert Reached(t, true) by { TidyReached(t); }
    Widths();
    var run := {F1(), F2()};
    TwoWhole(t.d, F1(), F2());
    assert Rewrites(t.d, run, 2, {Both()}) by { RunOfTwo(t.d, run, F1(), F2(), Both()); }
    forall f | f in run ensures MergeCandidate(t.d, f) { NoIntentsCandidate(t.d, f); }
    MergesInto(t, 5, run, Both(), true);
    s := State(ReplaceRun(FilesAdded(t.d, {Both()}, {3}), run, {Both()}), map[]);
    assert Outside(run, 1, 3) == {};
  }

  lemma TidyReached(s: State)
    requires ReachableInOrder(s)
    ensures Reached(s, true)
  {
  }

  lemma PlainReached(s: State)
    requires Reached(s, true)
    ensures Reached(s, false)
  {
    OrderedIsReached(s);
  }

  lemma TwoWhole(d: Tables, f: File, g: File)
    requires f in d.written && g in d.written && f.end <= g.start && f.start < f.end && g.start < g.end
    requires forall r :: r in d.committed && f.start <= r < g.end ==> r in f.rows || r in g.rows
    ensures Whole(d, {f, g})
  {
    var run := {f, g};
    assert f in run && g in run;
    assert Start(run) == f.start && End(run) == g.end;
    forall r | r in d.committed && Start(run) <= r < End(run) ensures Holds(run, r) { }
  }

  lemma RunOfTwo(d: Tables, run: set<File>, f: File, g: File, m: File)
    requires run == {f, g} && m.path !in d.names && m.start < m.end
    requires m.rows == f.rows + g.rows && m.start in m.rows && m.end - 1 in m.rows
    requires forall r :: r in m.rows ==> m.start <= r < m.end
    requires d.through + 1 <= m.end
    ensures Rewrites(d, run, d.through + 1, {m})
  {
    forall r ensures Holds(run, r) <==> Holds({m}, r) {
      assert r in f.rows ==> f in run;
      assert r in g.rows ==> g in run;
      assert m in {m};
    }
  }

  /** A flushing publish whose claim covers `[0, 1)`: it means to swap in the merged file,
      which straddles the published end, and stalls once it has uploaded it. */
  ghost function Stalled(): Op {
    Publishing(Span(0, 1), Swapping(Both(), 2, {}, FLUSH))
  }

  /** The merged file lines up, and under a flush is to be swapped in. */
  lemma BothLines(d: Tables)
    requires d.staging == {Both()} && d.published == {F1()}
    ensures LinedUp(d, d.staging) == {Both()} && End(d.published) == 2
    ensures MayList(d, {Both()}, FLUSH)
  {
    Spans();
    assert F1() in d.published && !Apart(F1(), Both());
  }

  lemma Stalls() returns (s: State)
    ensures Reached(s, false) && s.ops == map[0 := Stalled()] && Holding(s.d, 2, {Both()}, {F1()}, 4)
    ensures s.d.intents == {AsIntent(Both())}
  {
    hide Reached, MayList;
    var t := Merged2();
    PlainReached(t);
    Widths();
    BothLines(t.d);
    Opens(t, 0, Span(0, 1), {Both()}, FLUSH, false);
    var a := State(t.d, map[0 := Publishing(Span(0, 1), Working(2, {Both()}, FLUSH))]);
    assert t.ops[0 := a.ops[0]] == a.ops;
    On(a, IntendSwap(0, Both()), false);
    s := Apply(a, IntendSwap(0, Both()));
    assert {Both()} - {Both()} == {};
    assert s.ops == map[0 := Stalled()];
  }

  /** Another publish takes its own range, forgets the copy it does not find landed, and
      has nothing settled to push. */
  lemma Forgets() returns (s: State)
    ensures Reached(s, false) && s.ops == map[0 := Stalled()] && Holding(s.d, 2, {Both()}, {F1()}, 4)
    ensures s.d.intents == {}
  {
    hide Reached, LinedUp;
    var t := Stalls();
    Widths();
    Claims(t, 1, Span(2, 3), false);
    var claimed := Publishing(Span(2, 3), Opened);
    Reads(State(t.d, t.ops[1 := claimed]), 1, Span(2, 3), false);
    Restated(t.ops, 1, claimed, Cleared(t.d, Span(2, 3)));
    s := ForgetsBoth(t);
  }

  lemma ForgetsBoth(t: State) returns (s: State)
    requires t.ops == map[0 := Stalled()] && Holding(t.d, 2, {Both()}, {F1()}, 4) && t.d.intents == {AsIntent(Both())}
    requires Reached(State(t.d, t.ops[1 := Cleared(t.d, Span(2, 3))]), false)
    ensures Reached(s, false) && s.ops == map[0 := Stalled()] && Holding(s.d, 2, {Both()}, {F1()}, 4)
    ensures s.d.intents == {}
  {
    hide Reached, LinedUp;
    var a := State(t.d, t.ops[1 := Cleared(t.d, Span(2, 3))]);
    On(a, Forget(1, AsIntent(Both())), false);
    var b := Apply(a, Forget(1, AsIntent(Both())));
    Drops(b, 1, false);
    s := State(b.d, b.ops - {1});
    assert s.ops == map[0 := Stalled()];
  }

  lemma Sealed3() returns (s: State)
    ensures Reached(s, false) && s.ops == map[0 := Stalled()] && Holding(s.d, 3, {Both(), F3()}, {F1()}, 5)
    ensures s.d.intents == {}
  {
    hide Reached;
    var t := Forgets();
    Widths();
    Appends(t, false);
    var a := State(Appended(t.d, 1), t.ops);
    assert Sequence(1, 2) + Sequence(3, 1) == Sequence(1, 3);
    SealOne(a, 5, 3, F3(), false);
    s := State(a.d.(staging := a.d.staging + {F3()}, written := a.d.written + {F3()},
                    names := a.d.names + {4}), a.ops);
    assert {Both()} + {F3()} == {Both(), F3()};
  }

  lemma Merged3() returns (s: State)
    ensures Reached(s, false) && s.ops == map[0 := Stalled()] && Holding(s.d, 3, {All()}, {F1()}, 6)
    ensures s.d.intents == {}
  {
    hide Reached, Whole, Rewrites, MergeCandidate;
    var t := Sealed3();
    Widths();
    var run := {Both(), F3()};
    TwoWhole(t.d, Both(), F3());
    assert Rewrites(t.d, run, 2, {All()}) by { RunOfTwo(t.d, run, Both(), F3(), All()); }
    forall f | f in run ensures MergeCandidate(t.d, f) { NoIntentsCandidate(t.d, f); }
    MergesInto(t, 5, run, All(), false);
    s := State(ReplaceRun(FilesAdded(t.d, {All()}, {5}), run, {All()}), t.ops);
    assert Outside(run, 1, 4) == {};
  }

  lemma Swapped3() returns (s: State)
    ensures Reached(s, false) && 0 in s.ops && s.ops[0] == Stalled() && 3 !in s.ops
    ensures Holding(s.d, 3, {All()}, {All()}, 6)
  {
    hide Reached, MayList;
    var t := Merged3();
    Widths();
    AllLines(t.d);
    Opens(t, 1, Span(2, 4), {All()}, FLUSH, false);
    var a := State(t.d, t.ops[1 := Publishing(Span(2, 4), Working(2, {All()}, FLUSH))]);
    On(a, IntendSwap(1, All()), false);
    var b := Apply(a, IntendSwap(1, All()));
    Replaces3(b);
    s := Apply(b, CommitSwap(1, 2, {}));
  }

  lemma AllLines(d: Tables)
    requires d.staging == {All()} && d.published == {F1()}
    ensures End(d.published) == 2 && MayList(d, {All()}, FLUSH)
  {
    Spans();
    assert F1() in d.published && !Apart(F1(), All());
    assert LinedUp(d, d.staging) == {All()};
  }

  lemma Replaces3(b: State)
    requires Reached(b, false) && 0 in b.ops && b.ops[0] == Stalled() && 2 !in b.ops && 3 !in b.ops
    requires 1 in b.ops && b.ops[1].Publishing? && b.ops[1].phase == Swapping(All(), 2, {}, FLUSH)
    requires Holding(b.d, 3, {All()}, {F1()}, 6) && All() in b.d.written
    ensures Enabled(b, CommitSwap(1, 2, {}))
    ensures var s := Apply(b, CommitSwap(1, 2, {}));
      && Reached(s, false) && 0 in s.ops && s.ops[0] == Stalled() && 3 !in s.ops
      && Holding(s.d, 3, {All()}, {All()}, 6)
  {
    hide Reached;
    assert 1 in F1().rows && Touches(F1(), All());
    assert Torn({F1()}, All()) == {} && Untouched({F1()}, All()) == {};
    assert CutsOk(b.d, All(), {});
    On(b, CommitSwap(1, 2, {}), false);
    assert Paths({}) == {};
  }

  /** The stalled publish, its claim over `[0, 1)` still held, commits its swap: the file
      over `[1, 4)` is cut, and the part above the swap written anew. */
  ghost predicate SwapCuts(s: State) {
    && Reachable(s)
    && 0 in s.ops && s.ops[0] == Stalled() && !Fresh(s.d, Span(0, 1))
    && s.d.published == {All()} && s.d.published <= s.d.written
    && Enabled(s, CommitSwap(0, 3, {Remnant()}))
    && Apply(s, CommitSwap(0, 3, {Remnant()})).d.published == {Remnant(), Both()}
  }

  lemma StaleSwapCuts()
    ensures exists s :: SwapCuts(s)
  {
    hide Reached, Holding, SwapCuts;
    var s := Swapped3();
    CutsAll(s);
    assert SwapCuts(s);
  }

  lemma CutsAll(s: State)
    requires Reached(s, false) && 0 in s.ops && s.ops[0] == Stalled() && 3 !in s.ops
    requires Holding(s.d, 3, {All()}, {All()}, 6)
    ensures SwapCuts(s)
  {
    hide Reachable, CutsOk, Untouched, Enabled, Apply;
    Widths();
    RemnantCut(s.d);
    CommitsCut(s);
  }

  lemma CommitsCut(s: State)
    requires 0 in s.ops && s.ops[0] == Stalled() && 3 !in s.ops
    requires CutsOk(s.d, Both(), {Remnant()}) && Untouched(s.d.published, Both()) == {}
    ensures Enabled(s, CommitSwap(0, 3, {Remnant()}))
    ensures Apply(s, CommitSwap(0, 3, {Remnant()})).d.published == {Remnant(), Both()}
  {
    hide CutsOk, Untouched;
    assert {} + {Remnant()} + {Both()} == {Remnant(), Both()};
  }

  lemma RemnantCut(d: Tables)
    requires d.published == {All()} && 6 !in d.names
    ensures CutsOk(d, Both(), {Remnant()}) && Untouched(d.published, Both()) == {}
  {
    var cuts := {Remnant()};
    assert Remnant() in cuts && All() in d.published;
    assert 1 in All().rows && 3 in All().rows && Touches(All(), Both()) && Beyond(All(), Both());
    assert Torn(d.published, Both()) == {All()};
    forall r: nat ensures Holds(cuts, r) <==> Holds({All()}, r) && !(1 <= r < 3) {
      assert All() in {All()};
    }
  }

  // ----- a push refused under a claim that holds -----

  /** A plain publish: compaction is not finished with the one staging file. */
  const PLAIN := Choice(false, 1)

  /** Where the push is listed: an intent covers the file by then, or compaction has
      finished with it, the target being lowered since. */
  ghost function Found(stray: bool): Listing {
    if stray then Listing(1, 3) else Listing(3, 0)
  }

  ghost function Refusing(stray: bool): Op {
    Publishing(Span(2, 3), Pushing({Both()}, 3, PLAIN, Found(stray)))
  }

  /** A flushing publish lists the merged file's swap, and stalls before it names the copy;
      its claim lapses, and a plain publish takes the range, and leaves the file out. */
  lemma LeavesOut() returns (s: State)
    ensures Reached(s, true) && Holding(s.d, 2, {Both()}, {F1()}, 4) && s.d.intents == {}
    ensures s.ops == map[1 := Publishing(Span(2, 3), Working(2, {}, PLAIN))]
  {
    hide Reached, MayList;
    var t := Merged2();
    Widths();
    BothLines(t.d);
    Opens(t, 0, Span(2, 3), {Both()}, FLUSH, true);
    var a := State(t.d, t.ops[0 := Publishing(Span(2, 3), Working(2, {Both()}, FLUSH))]);
    Drops(a, 0, true);
    assert a.ops - {0} == map[];
    assert MayList(t.d, {}, PLAIN) by { BothLeftOut(t.d); }
    Opens(State(t.d, map[]), 1, Span(2, 3), {}, PLAIN, true);
    s := State(t.d, map[1 := Publishing(Span(2, 3), Working(2, {}, PLAIN))]);
    assert map[][1 := s.ops[1]] == s.ops;
  }

  lemma BothLeftOut(d: Tables)
    requires d.staging == {Both()} && d.published == {F1()}
    ensures MayList(d, {}, PLAIN)
  {
    BothLines(d);
  }

  /** The stalled publish wakes, and names its copy; or compaction's target is lowered. */
  lemma FindsDue(stray: bool) returns (s: State)
    ensures Reached(s, true) && Holding(s.d, 2, {Both()}, {F1()}, 4)
    ensures s.d.intents == if stray then {AsIntent(Both())} else {}
    ensures s.ops == map[1 := Publishing(Span(2, 3), Chosen(2, PLAIN, Found(stray)))]
  {
    hide Reached, ReadsFrozen;
    var t := LeavesOut();
    Widths();
    if stray {
      On(t, StrayIntent(Both()), true);
      t := Apply(t, StrayIntent(Both()));
    }
    FoundFrozen(t.d, stray);
    Lists(t, 1, Span(2, 3), PLAIN, Found(stray), true);
    s := State(t.d, map[1 := Publishing(Span(2, 3), Chosen(2, PLAIN, Found(stray)))]);
    assert t.ops[1 := s.ops[1]] == s.ops;
  }

  lemma FoundFrozen(d: Tables, stray: bool)
    requires d.staging == {Both()} && d.through == 1 && d.intents == if stray then {AsIntent(Both())} else {}
    ensures ReadsFrozen(d, 2, Found(stray).frozen)
  {
    if stray {
      assert AsIntent(Both()) in d.intents;
      assert CoveredWithIntents(d, Both());
    } else {
      assert !MaybePublished(d, 2);
      assert !CoveredWithIntents(d, Both()) by { assert Both().start <= 2 < Both().end; }
    }
  }

  /** A publish that holds its claim, which reaches past the published end, is refused. */
  ghost predicate PushRefused(s: State, stray: bool) {
    && ReachableInOrder(s)
    && s.ops == map[1 := Refusing(stray)] && Fresh(s.d, Span(2, 3))
    && Enabled(s, CommitPush(1, 2)) && Refused(s.d, {Both()}, 3)
  }

  /** Once by an intent a stalled publish writes, its claim long lapsed; once by a target
      lowered between two reads of the policy. */
  lemma StraddlerRefused(stray: bool)
    ensures exists s :: PushRefused(s, stray)
  {
    hide Reached, PushRefused;
    var t := FindsDue(stray);
    var s := Refuses(t, stray);
    assert PushRefused(s, stray);
  }

  lemma Refuses(t: State, stray: bool) returns (s: State)
    requires Reached(t, true) && Holding(t.d, 2, {Both()}, {F1()}, 4)
    requires t.d.intents == if stray then {AsIntent(Both())} else {}
    requires t.ops == map[1 := Publishing(Span(2, 3), Chosen(2, PLAIN, Found(stray)))]
    ensures PushRefused(s, stray)
  {
    hide Reached, Holding, Enabled, Write, Refused, Fresh, Intended;
    BothIntended(t, stray);
    On(t, IntendPush(1, Both()), true);
    s := Apply(t, IntendPush(1, Both()));
    RefusingIs(t, s, stray);
    TidyIsOrdered(s);
  }

  lemma TidyIsOrdered(s: State)
    requires Reached(s, true)
    ensures ReachableInOrder(s)
  {
  }

  lemma BothIntended(t: State, stray: bool)
    requires Holding(t.d, 2, {Both()}, {F1()}, 4)
    requires t.ops == map[1 := Publishing(Span(2, 3), Chosen(2, PLAIN, Found(stray)))]
    ensures Enabled(t, IntendPush(1, Both())) && Orderly(t, IntendPush(1, Both()))
    ensures Write(t, IntendPush(1, Both())) == Intended(t.d, Both())
    ensures Advance(t, IntendPush(1, Both())) == map[1 := Refusing(stray)]
  {
    assert {} + {Both()} == {Both()};
  }

  lemma RefusingIs(t: State, s: State, stray: bool)
    requires Holding(t.d, 2, {Both()}, {F1()}, 4)
    requires s == State(Intended(t.d, Both()), map[1 := Refusing(stray)])
    ensures Enabled(s, CommitPush(1, 2)) && Fresh(s.d, Span(2, 3)) && Refused(s.d, {Both()}, 3)
    ensures AsIntent(Both()) in s.d.intents
  {
    Widths();
    Spans();
  }

  // ----- a query that returns a truncated row -----

  ghost function TruncatedLog(): State {
    State(Log(1, {F1()}, {}, 1, {}).(staging := {}, low := 2, buffer := {}, queued := {1}, tier := Some({1})), map[])
  }

  lemma CutDown()
    ensures ReachableInOrder(State(Log(1, {F1()}, {F1()}, 1, {}).(buffer := {}), map[0 := Truncating(2, 1)]))
  {
    hide ReachableInOrder;
    Published1();
    var s := State(Log(1, {F1()}, {F1()}, 1, {}), map[]);
    OrderedOn(s, ClaimTruncate(0, 2));
    var a := State(s.d, map[0 := Truncating(2, 0)]);
    assert Apply(s, ClaimTruncate(0, 2)).ops == a.ops;
    CutBuffer(a);
  }

  lemma CutBuffer(a: State)
    requires ReachableInOrder(a) && a.ops == map[0 := Truncating(2, 0)] && forall r :: r in a.d.buffer ==> r < 2
    ensures ReachableInOrder(State(a.d.(buffer := {}), map[0 := Truncating(2, 1)]))
  {
    hide ReachableInOrder;
    OrderedOn(a, TruncateBuffer(0));
    var b := Apply(a, TruncateBuffer(0));
    assert b.d.buffer == {};
    assert b.ops == map[0 := Truncating(2, 1)];
  }

  lemma CutStaging()
    ensures ReachableInOrder(State(Log(1, {F1()}, {F1()}, 1, {}).(buffer := {}, staging := {}, queued := {1},
                                                                 tier := Some({1})),
                                   map[0 := Truncating(2, 2)]))
  {
    hide ReachableInOrder;
    Spans();
    CutDown();
    var b := State(Log(1, {F1()}, {F1()}, 1, {}).(buffer := {}), map[0 := Truncating(2, 1)]);
    CutsStaging(b);
  }

  lemma CutsStaging(b: State)
    requires ReachableInOrder(b) && b.ops == map[0 := Truncating(2, 1)]
    requires b.d.staging == {F1()} && b.d.queued == {} && b.d.tier == Some({})
    ensures ReachableInOrder(State(b.d.(staging := {}, queued := {1}, tier := Some({1})), map[0 := Truncating(2, 2)]))
  {
    hide ReachableInOrder, Leaving, Above;
    LeavingOne(b.d);
    OrderedOn(b, TruncateStaging(0));
    assert Apply(b, TruncateStaging(0)).ops == map[0 := Truncating(2, 2)];
  }

  lemma LeavingOne(d: Tables)
    requires d.staging == {F1()} && d.queued == {} && d.tier == Some({})
    ensures Leaving(d, 2) == d.(queued := {1}, tier := Some({1})) && Above(d.staging, 2) == {}
  {
    assert Dropped(d, 2) == {F1()};
    assert {} + Paths({F1()}) == {1};
    assert RowsOf({F1()}) == {1} by { assert F1() in {F1()}; assert Holds({F1()}, 1); }
    assert {} + RowsOf({F1()}) == {1};
  }

  lemma TruncatedReached()
    ensures ReachableInOrder(TruncatedLog())
  {
    hide ReachableInOrder;
    Spans();
    CutStaging();
    var c := State(Log(1, {F1()}, {F1()}, 1, {}).(buffer := {}, staging := {}, queued := {1}, tier := Some({1})),
                   map[0 := Truncating(2, 2)]);
    CutAll(c);
    var e := State(TruncatedLog().d, map[0 := Truncating(2, 3)]);
    Drops(e, 0, true);
    assert e.ops - {0} == map[];
  }

  lemma CutAll(c: State)
    requires ReachableInOrder(c) && c.ops == map[0 := Truncating(2, 2)] && c.d.low == 0
    requires c.d.published == {F1()} && c.d.queued == {1}
    ensures ReachableInOrder(State(c.d.(published := {}, low := 2), map[0 := Truncating(2, 3)]))
  {
    hide ReachableInOrder;
    OrderedOn(c, TruncatePublished(0));
    assert Above({F1()}, 2) == {};
    assert {F1()} - {} == {F1()};
    assert {1} + Paths({F1()}) == {1};
    assert Apply(c, TruncatePublished(0)).ops == map[0 := Truncating(2, 3)];
  }

  /** What an earlier query left in the cache, when nothing was filed yet. */
  ghost function StaleTail(): Seen {
    Seen(0, {1}, {}, {}, true, true)
  }

  ghost function EveryRow(): nat -> bool {
    r => true
  }

  /** One row appended, sealed, published and truncated away: nothing holds it any
      more, yet the cached tail of an earlier query returns it. */
  lemma TruncatedRowReturned()
    ensures ReachableInOrder(TruncatedLog())
    ensures var s := TruncatedLog(); Query(s, s, s, s, s, StaleTail(), EveryRow())
    ensures var d := TruncatedLog().d;
      && !Holds(d.staging, 1) && !Holds(d.published, 1) && 1 !in d.buffer
      && Returned(StaleTail(), 1) == 1 && Due(d, StaleTail(), Top(d.committed), 1) == 0
  {
    Spans();
    TruncatedReached();
    var s := TruncatedLog();
    assert Legal(s, []) && After(s, []) == s;
    assert Reaches(s, s);
    assert TailRead(s.d, 0, {1});
  }
}
