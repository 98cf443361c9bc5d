/** What one durable step does to the tiers, and when an operation may take it.

    A commit is enabled only for an operation still in `ops`, whose claim is
    held: each operation renews its claim right before it commits, and losing
    the claim or dying is `Drop`. What an operation may still do without its claim
    (queueing a path, naming an intent or forgetting one, confirming what it saw
    published, widening the tier row) is a step anyone may take at any time.
 */
module TierSteps {
  import opened Options
  import opened TierState

  datatype Step =
    | Append(count: nat)
    | Reserve(count: nat)
    | ClaimSeal(id: nat, lo: nat, hi: nat)
    | WriteSeal(id: nat, path: nat)
    | RegisterSeal(id: nat)
    | ClaimIngest(id: nat)
    | RegisterIngest(id: nat, path: nat, start: nat, end: nat)
    | ClaimMerge(id: nat, run: set<File>)
    | CheckMerge(id: nat)
    | ReadFloor(id: nat)
    | WriteMerge(id: nat, outputs: set<File>)
    | CommitMerge(id: nat)
    | ClaimEvict(id: nat, hi: nat)
    | DecideEvict(id: nat, below: nat)
    | CommitEvict(id: nat)
    | ClaimPublish(id: nat, range: Range)
    | ReadStaging(id: nat)
    | Look(id: nat)
    | ReadIntents(id: nat)
    | SawPublished(confirm: nat, landed: set<nat>)
    | Reconcile(id: nat)
    | Forget(id: nat, intent: Intent)
    | StrayForget(intent: Intent)
    | ListSwaps(id: nat, swaps: set<File>, choice: Choice)
    | IntendSwap(id: nat, merged: File)
    | CommitSwap(id: nat, confirm: nat, cuts: set<File>)
    | ListPush(id: nat, listing: Listing)
    | IntendPush(id: nat, file: File)
    | CommitPush(id: nat, confirm: nat)
    | Confirm(id: nat)
    | StrayIntent(file: File)
    | WidenTier(rows: set<nat>)
    | NarrowTier(id: nat)
    | EvictBuffer(start: nat, below: nat)
    | ClaimTruncate(id: nat, floor: nat)
    | TruncateBuffer(id: nat)
    | TruncateStaging(id: nat)
    | TruncatePublished(id: nat)
    | Enqueue(path: nat)
    | Drain(path: nat)
    | Drop(id: nat)

  // ----- what compaction asks of coverage -----

  ghost predicate CoveredByWatermark(d: Tables, f: File) {
    f.end <= d.through + 1
  }

  ghost predicate MaybePublished(d: Tables, o: nat) {
    o <= d.through || exists i :: i in d.intents && i.start <= o < i.end
  }

  ghost predicate CoveredWithIntents(d: Tables, f: File) {
    forall o: nat :: f.start <= o < f.end ==> MaybePublished(d, o)
  }

  /** `f` is in the longest prefix of the staging files that is all published. */
  ghost predicate InLandedPrefix(d: Tables, f: File) {
    forall g :: g in d.staging && g.start <= f.start ==> CoveredByWatermark(d, g)
  }

  ghost predicate InClaimedPrefix(d: Tables, f: File) {
    forall g :: g in d.staging && g.start <= f.start ==> CoveredWithIntents(d, g)
  }

  /** When intents reach past the watermark, only files above all coverage merge. */
  ghost predicate MergeCandidate(d: Tables, f: File) {
    (exists g :: g in d.staging && InClaimedPrefix(d, g) && !InLandedPrefix(d, g))
      ==> !InClaimedPrefix(d, f)
  }

  // ----- effects -----

  ghost predicate Between(start: nat, r: nat, end: nat) {
    start <= r < end
  }

  ghost function Sequence(start: nat, count: nat): (rows: set<nat>)
    ensures forall r :: r in rows <==> start <= r < start + count
  {
    var end := start + count;
    set r: nat | r < end && Between(start, r, end)
  }

  /** `evict_below`: only what lies at or above `below` stays. */
  ghost function Above(fs: set<File>, below: nat): (kept: set<File>)
    ensures forall f :: f in kept <==> f in fs && below < f.end
  {
    set f | f in fs && below < f.end
  }

  /** `replace_range` over `[start, end)`, before the new files go in. */
  ghost function Outside(fs: set<File>, start: nat, end: nat): (kept: set<File>)
    ensures forall f :: f in kept <==> f in fs && (f.end <= start || end <= f.start)
  {
    set f | f in fs && (f.end <= start || end <= f.start)
  }

  ghost function Paths(fs: set<File>): (paths: set<nat>)
    ensures forall f :: f in fs ==> f.path in paths
    ensures forall p :: p in paths ==> exists f :: f in fs && f.path == p
  {
    set f | f in fs :: f.path
  }

  ghost function RowsOf(fs: set<File>): (rows: set<nat>)
    ensures forall r :: r in rows <==> Holds(fs, r)
  {
    set f, r | f in fs && r in f.rows :: r
  }

  ghost function Widened(tier: Option<set<nat>>, rows: set<nat>): Option<set<nat>> {
    match tier
    case None => None
    case Some(described) => Some(described + rows)
  }

  /** The published rows a read can reach through the published leg. */
  ghost function ReachablePublished(d: Tables): (rows: set<nat>)
    ensures forall p, r :: p in d.published && r in p.rows && BelowStaging(d, r) ==> r in rows
  {
    set p, r | p in d.published && r in p.rows && BelowStaging(d, r) :: r
  }

  ghost function Later(a: nat, b: nat): nat {
    if a < b then b else a
  }

  // ----- guards -----

  ghost predicate FreshPath(d: Tables, path: nat) {
    path !in d.names
  }

  ghost predicate CanPublish(s: State, id: nat) {
    id in s.ops && s.ops[id].Publishing?
  }

  /** The outputs of a merge are new files holding exactly the run's rows. */
  ghost predicate Rewrites(d: Tables, run: set<File>, floor: nat, outputs: set<File>) {
    && outputs != {}
    && (forall o :: o in outputs ==> FreshPath(d, o.path))
    && UniquePaths(outputs)
    && Disjoint(outputs)
    && (forall o :: o in outputs ==> o.start < o.end && o.start in o.rows && o.end - 1 in o.rows)
    && (forall o, r :: o in outputs && r in o.rows ==> o.start <= r < o.end)
    && (forall r :: Holds(run, r) <==> Holds(outputs, r))
    && (forall o :: o in outputs ==> floor <= o.end || exists f :: f in run && f.end == o.end)
  }

  /** `file` is the first staging file that reaches past `from`. */
  ghost predicate NextPending(d: Tables, from: nat, file: File) {
    && file in d.staging
    && from < file.end
    && (forall g :: g in d.staging ==> g.end <= from || g == file || file.end <= g.start)
  }

  ghost predicate WithinBound(range: Range, end: nat) {
    range.Span? ==> end <= range.hi
  }

  /** Where a push goes on from: what was published as it began, or its own uploads. */
  ghost function PushedTo(phase: Phase): nat
    requires phase.Chosen? || phase.Pushing?
  {
    if phase.Chosen? then phase.floor else phase.upTo
  }

  ghost function PushedFiles(phase: Phase): set<File> {
    if phase.Pushing? then phase.files else {}
  }

  /** The staging files seen that line up with published ones and are not published. */
  ghost function LinedUp(d: Tables, files: set<File>): (lined: set<File>)
    ensures forall m :: m in lined <==> m in files && LinesUp(d, m) && m !in d.published
  {
    set m | m in files && LinesUp(d, m) && m !in d.published
  }

  /** The published copies a publish looks at: those not wholly below what it saw staged. */
  ghost function HeldPaths(d: Tables, files: set<File>): (paths: set<nat>)
    ensures paths <= Paths(d.published)
  {
    set p | p in d.published && Start(files) < p.end :: p.path
  }

  ghost function LandedPaths(d: Tables, held: set<nat>): (paths: set<nat>)
    ensures paths <= held
    ensures forall i :: i in d.intents && i.path in held ==> i.path in paths
  {
    set i | i in d.intents && i.path in held :: i.path
  }

  ghost function DeadIntents(d: Tables, held: set<nat>): (dead: set<Intent>)
    ensures forall i :: i in dead <==> i in d.intents && i.path !in held
  {
    set i | i in d.intents && i.path !in held
  }

  /** `_swap_merged`: finished files, and under a flush one that straddles the floor. */
  ghost predicate Ready(choice: Choice, floor: nat, m: File) {
    m.end <= choice.limit || (choice.flush && m.start < floor < m.end)
  }

  /** Of the files lined up, each ready one that straddles the floor is listed; one that
      does not is listed if it is owed a swap, which is not modelled. */
  ghost predicate SwapsListed(lined: set<File>, floor: nat, swaps: set<File>, choice: Choice) {
    && swaps <= lined
    && (forall m :: m in swaps ==> Ready(choice, floor, m))
    && (forall m :: m in lined && m.start < floor < m.end && Ready(choice, floor, m) ==> m in swaps)
  }

  /** `f` is in the prefix of the files past `floor` that watermark and intents cover. */
  ghost predicate InFrozenPrefix(d: Tables, floor: nat, f: File) {
    forall g :: g in d.staging && floor < g.end && g.start <= f.start ==> CoveredWithIntents(d, g)
  }

  /** `frozen` is the end of that prefix. */
  ghost predicate ReadsFrozen(d: Tables, floor: nat, frozen: nat) {
    forall f :: f in d.staging && floor < f.end ==> (f.end <= frozen <==> InFrozenPrefix(d, floor, f))
  }

  /** `register` adds the copies: it declines a range the published table covers, and
      refuses one that starts inside its span. */
  ghost predicate PushRegisters(d: Tables, files: set<File>) {
    End(d.published) <= Start(files)
  }

  /** The published files a swap's range leaves alone, and those it cuts. */
  ghost predicate Touches(p: File, m: File) {
    exists r :: r in p.rows && m.start <= r < m.end
  }

  ghost predicate Beyond(p: File, m: File) {
    exists r :: r in p.rows && !(m.start <= r < m.end)
  }

  ghost function Untouched(fs: set<File>, m: File): (kept: set<File>)
    ensures forall p :: p in kept <==> p in fs && !Touches(p, m)
  {
    set p | p in fs && !Touches(p, m)
  }

  ghost function Torn(fs: set<File>, m: File): (torn: set<File>)
    ensures forall p :: p in torn <==> p in fs && Touches(p, m) && Beyond(p, m)
  {
    set p | p in fs && Touches(p, m) && Beyond(p, m)
  }

  /** What the delete of a swap's range writes anew: the other rows of the files it cuts. */
  ghost predicate CutsOk(d: Tables, m: File, cuts: set<File>) {
    && (forall c :: c in cuts ==> FreshPath(d, c.path))
    && (forall c :: c in cuts ==> c.start < c.end && c.start in c.rows && c.end - 1 in c.rows)
    && (forall c, r :: c in cuts && r in c.rows ==> c.start <= r < c.end)
    && UniquePaths(cuts)
    && RowsApart(cuts)
    && (forall r: nat :: Holds(cuts, r) <==> Holds(Torn(d.published, m), r) && !(m.start <= r < m.end))
  }

  ghost predicate Enabled(s: State, step: Step) {
    match step
    case Append(count) =>
      // One writer, and it is the one that calls `ingest`.
      forall id :: id in s.ops ==> !s.ops[id].Ingesting?
    case Reserve(count) => true
    case ClaimSeal(id, lo, hi) =>
      && id !in s.ops && Unclaimed(s, Span(lo, hi))
      && GroupOk(s.d, lo, hi)
    case WriteSeal(id, path) => id in s.ops && s.ops[id].Sealing? && FreshPath(s.d, path)
    case RegisterSeal(id) => id in s.ops && s.ops[id].Sealed?
    case ClaimIngest(id) =>
      && id !in s.ops && Unclaimed(s, Everything)
      && (forall r :: r in s.d.committed && s.d.low <= r ==> r < Frontier(s.d))
    case RegisterIngest(id, path, start, end) =>
      && id in s.ops && s.ops[id].Ingesting? && FreshPath(s.d, path)
      && 1 <= start < end <= s.d.next
      && s.d.low <= start
      && (forall r :: r in s.d.committed ==> r < start)
    case ClaimMerge(id, run) =>
      && id !in s.ops && Whole(s.d, run) && Unclaimed(s, Span(Start(run), End(run)))
    case CheckMerge(id) =>
      && id in s.ops && s.ops[id].Compacting?
      && s.ops[id].run <= s.d.staging
      && (forall f :: f in s.ops[id].run ==> MergeCandidate(s.d, f))
    case ReadFloor(id) => id in s.ops && s.ops[id].Checked?
    case WriteMerge(id, outputs) =>
      && id in s.ops && s.ops[id].Merging?
      && Rewrites(s.d, s.ops[id].run, s.ops[id].floor, outputs)
    case CommitMerge(id) => id in s.ops && s.ops[id].Merged?
    case ClaimEvict(id, hi) => id !in s.ops && Unclaimed(s, Span(0, hi))
    case DecideEvict(id, below) =>
      && id in s.ops && s.ops[id].Evicting?
      && below <= s.ops[id].hi
      && below <= s.d.through + 1
      && (exists f :: f in s.d.staging && f.end == below)
    case CommitEvict(id) => id in s.ops && s.ops[id].Dropping?
    case ClaimPublish(id, range) =>
      // The range begins at a published end read before, which truncation may have passed.
      && id !in s.ops && Unclaimed(s, range) && RangeOk(s.d, range)
    case ReadStaging(id) => CanPublish(s, id) && s.ops[id].phase.Opened?
    case Look(id) =>
      // Without a tier row a publish writes one first, or under a range does nothing.
      CanPublish(s, id) && s.ops[id].phase.Staged? && s.d.tier.Some?
    case ReadIntents(id) => CanPublish(s, id) && s.ops[id].phase.Looked?
    case SawPublished(confirm, landed) => confirm !in s.ops && landed <= Paths(s.d.published)
    case Reconcile(id) => CanPublish(s, id) && s.ops[id].phase.Noted?
    case Forget(id, intent) =>
      CanPublish(s, id) && s.ops[id].phase.Reconciled? && intent in s.ops[id].phase.dead
    case StrayForget(intent) => true
    case ListSwaps(id, swaps, choice) =>
      && CanPublish(s, id) && s.ops[id].phase.Reconciled? && s.ops[id].phase.dead == {}
      && SwapsListed(s.ops[id].phase.swaps, s.ops[id].phase.floor, swaps, choice)
    case IntendSwap(id, m) =>
      && CanPublish(s, id) && s.ops[id].phase.Working?
      && m in s.ops[id].phase.swaps
    case CommitSwap(id, confirm, cuts) =>
      && CanPublish(s, id) && s.ops[id].phase.Swapping? && confirm !in s.ops
      && CutsOk(s.d, s.ops[id].phase.merged, cuts)
    case ListPush(id, listing) =>
      && CanPublish(s, id) && s.ops[id].phase.Working? && s.ops[id].phase.swaps == {}
      && ReadsFrozen(s.d, s.ops[id].phase.floor, listing.frozen)
    case IntendPush(id, f) =>
      && CanPublish(s, id) && (s.ops[id].phase.Chosen? || s.ops[id].phase.Pushing?)
      && NextPending(s.d, PushedTo(s.ops[id].phase), f)
      && WithinBound(s.ops[id].range, f.end)
      && PushDue(s.ops[id].phase.choice, s.ops[id].phase.listing, f)
    case CommitPush(id, confirm) =>
      && CanPublish(s, id) && s.ops[id].phase.Pushing? && confirm !in s.ops
    case Confirm(id) => id in s.ops && s.ops[id].Confirming?
    case StrayIntent(f) => f in s.d.written
    case WidenTier(rows) => true
    case NarrowTier(id) =>
      && id in s.ops
      && ((s.ops[id].Publishing? && s.ops[id].range.Everything?) || s.ops[id].Truncating?)
    case EvictBuffer(start, below) => below <= s.d.through + 1
    case ClaimTruncate(id, floor) =>
      && id !in s.ops && Unclaimed(s, Everything)
      && floor <= s.d.through + 1
      && (forall f :: f in s.d.staging + s.d.published ==> f.end <= floor || floor <= f.start)
    case TruncateBuffer(id) => id in s.ops && s.ops[id].Truncating? && s.ops[id].stage == 0
    case TruncateStaging(id) => id in s.ops && s.ops[id].Truncating? && s.ops[id].stage == 1
    case TruncatePublished(id) => id in s.ops && s.ops[id].Truncating? && s.ops[id].stage == 2
    case Enqueue(path) => true
    case Drain(path) => !NamesIn(s.d.staging, path) && !NamesIn(s.d.published, path)
    case Drop(id) => id in s.ops
  }

  // ----- the larger transitions -----

  ghost function RegisterFile(d: Tables, f: File): Tables {
    if Filed(d, f.end) then d.(queued := d.queued + {f.path})
    else d.(staging := d.staging + {f})
  }

  ghost function Appended(d: Tables, count: nat): Tables {
    var rows := Sequence(d.next, count);
    d.(next := d.next + count, committed := d.committed + rows, buffer := d.buffer + rows)
  }

  ghost function SealFile(d: Tables, op: Op, path: nat): File
    requires op.Sealing?
  {
    File(path, op.lo, op.hi, set r | r in d.buffer && op.lo <= r < op.hi)
  }

  /** A group filed before is written again from what the buffer still holds, a
      file `register` will decline. */
  ghost function SealWritten(d: Tables, op: Op, path: nat): Tables
    requires op.Sealing?
  {
    d.(written := if Filed(d, op.hi) then d.written else d.written + {SealFile(d, op, path)},
       names := d.names + {path})
  }

  ghost function Intended(d: Tables, f: File): Tables {
    d.(intents := d.intents + {AsIntent(f)})
  }

  ghost function Forgotten(d: Tables, intent: Intent): Tables {
    d.(intents := d.intents - {intent})
  }

  /** What an eviction writes before its commit: the tier row, then the queue. */
  ghost function Leaving(d: Tables, below: nat): Tables {
    d.(queued := d.queued + Paths(Dropped(d, below)),
       tier := Widened(d.tier, RowsOf(Dropped(d, below))))
  }

  ghost function CutPublished(d: Tables, floor: nat): Tables {
    d.(published := Above(d.published, floor), low := Later(d.low, floor),
       queued := d.queued + Paths(d.published - Above(d.published, floor)))
  }

  ghost function IngestFile(d: Tables, f: File): Tables {
    d.(staging := d.staging + {f}, written := d.written + {f}, names := d.names + {f.path},
       committed := d.committed + f.rows)
  }

  ghost function ReplaceRun(d: Tables, run: set<File>, outputs: set<File>): Tables {
    d.(staging := Outside(d.staging, Start(run), End(run)) + outputs,
       queued := d.queued + Paths(run))
  }

  ghost function SwapIn(d: Tables, m: File, cuts: set<File>): Tables {
    d.(published := Untouched(d.published, m) + cuts + {m}, names := d.names + Paths(cuts))
  }

  ghost function PushIn(d: Tables, files: set<File>): Tables {
    if PushRegisters(d, files) then d.(published := d.published + files) else d
  }

  ghost function Dropped(d: Tables, below: nat): (fs: set<File>)
    ensures forall f :: f in fs <==> f in d.staging && f.end <= below
  {
    set f | f in d.staging && f.end <= below
  }

  /** `confirm_published`: everything below `end` is published. */
  ghost function ConfirmedTo(d: Tables, end: nat, paths: set<nat>): Tables {
    d.(through := Later(d.through, if end == 0 then 0 else end - 1),
       intents := set i | i in d.intents && i.path !in paths)
  }

  /** The durable tables after `step`. */
  ghost function Write(s: State, step: Step): Tables
    requires Enabled(s, step)
  {
    var d := s.d;
    match step
    case Append(count) => Appended(d, count)
    case Reserve(count) => d.(next := d.next + count)
    case WriteSeal(id, path) => SealWritten(d, s.ops[id], path)
    case RegisterSeal(id) => RegisterFile(d, s.ops[id].file)
    case RegisterIngest(id, path, start, end) =>
      IngestFile(d, File(path, start, end, Sequence(start, end - start)))
    case WriteMerge(id, outputs) =>
      d.(written := d.written + outputs, names := d.names + Paths(outputs))
    case CommitMerge(id) => ReplaceRun(d, s.ops[id].run, s.ops[id].outputs)
    case DecideEvict(id, below) => Leaving(d, below)
    case CommitEvict(id) => d.(staging := Above(d.staging, s.ops[id].below))
    case Reconcile(id) => ConfirmedTo(d, s.ops[id].phase.floor, s.ops[id].phase.landed)
    case Forget(id, intent) => Forgotten(d, intent)
    case StrayForget(intent) => Forgotten(d, intent)
    case IntendSwap(id, m) => Intended(d, m)
    case CommitSwap(id, confirm, cuts) => SwapIn(d, s.ops[id].phase.merged, cuts)
    case IntendPush(id, f) => Intended(d, f)
    case CommitPush(id, confirm) => PushIn(d, s.ops[id].phase.files)
    case Confirm(id) => ConfirmedTo(d, s.ops[id].end, s.ops[id].paths)
    case StrayIntent(f) => Intended(d, f)
    case WidenTier(rows) => d.(tier := Widened(d.tier, rows))
    case NarrowTier(id) => d.(tier := Some(ReachablePublished(d)))
    case EvictBuffer(start, below) =>
      d.(buffer := set r | r in d.buffer && !(start <= r < below))
    case TruncateBuffer(id) => d.(buffer := set r | r in d.buffer && s.ops[id].floor <= r)
    case TruncateStaging(id) =>
      var floor := s.ops[id].floor;
      Leaving(d, floor).(staging := Above(d.staging, floor))
    case TruncatePublished(id) => CutPublished(d, s.ops[id].floor)
    case Enqueue(path) => d.(queued := d.queued + {path})
    case Drain(path) => d.(queued := d.queued - {path})
    case _ => d
  }

  /** The operations in flight after `step`. */
  ghost function Advance(s: State, step: Step): map<nat, Op>
    requires Enabled(s, step)
  {
    match step
    case ClaimSeal(id, lo, hi) => s.ops[id := Sealing(lo, hi)]
    case WriteSeal(id, path) => s.ops[id := Sealed(SealFile(s.d, s.ops[id], path))]
    case RegisterSeal(id) => s.ops - {id}
    case ClaimIngest(id) => s.ops[id := Ingesting]
    case ClaimMerge(id, run) => s.ops[id := Compacting(run)]
    case CheckMerge(id) => s.ops[id := Checked(s.ops[id].run)]
    case ReadFloor(id) => s.ops[id := Merging(s.ops[id].run, s.d.through + 1)]
    case WriteMerge(id, outputs) => s.ops[id := Merged(s.ops[id].run, s.ops[id].floor, outputs)]
    case CommitMerge(id) => s.ops - {id}
    case ClaimEvict(id, hi) => s.ops[id := Evicting(hi)]
    case DecideEvict(id, below) => s.ops[id := Dropping(s.ops[id].hi, below)]
    case CommitEvict(id) => s.ops - {id}
    case ClaimPublish(id, range) => s.ops[id := Publishing(range, Opened)]
    case ReadStaging(id) => s.ops[id := s.ops[id].(phase := Staged(s.d.staging))]
    case Look(id) =>
      var files := s.ops[id].phase.files;
      s.ops[id := s.ops[id].(phase := Looked(End(s.d.published), HeldPaths(s.d, files), LinedUp(s.d, files)))]
    case ReadIntents(id) =>
      var phase := s.ops[id].phase;
      s.ops[id := s.ops[id].(phase := Noted(phase.floor, LandedPaths(s.d, phase.held),
                                            DeadIntents(s.d, phase.held), phase.swaps))]
    case SawPublished(confirm, landed) => s.ops[confirm := Confirming(End(s.d.published), landed)]
    case Reconcile(id) =>
      var phase := s.ops[id].phase;
      s.ops[id := s.ops[id].(phase := Reconciled(phase.floor, phase.dead, phase.swaps))]
    case Forget(id, intent) =>
      var phase := s.ops[id].phase;
      s.ops[id := s.ops[id].(phase := Reconciled(phase.floor, phase.dead - {intent}, phase.swaps))]
    case ListSwaps(id, swaps, choice) =>
      s.ops[id := s.ops[id].(phase := Working(s.ops[id].phase.floor, swaps, choice))]
    case IntendSwap(id, m) =>
      var phase := s.ops[id].phase;
      s.ops[id := s.ops[id].(phase := Swapping(m, phase.floor, phase.swaps - {m}, phase.choice))]
    case CommitSwap(id, confirm, cuts) =>
      var phase := s.ops[id].phase;
      s.ops[id := s.ops[id].(phase := Working(Later(phase.floor, phase.merged.end), phase.swaps, phase.choice))]
           [confirm := Confirming(phase.merged.end, {phase.merged.path})]
    case ListPush(id, listing) =>
      var phase := s.ops[id].phase;
      s.ops[id := s.ops[id].(phase := Chosen(phase.floor, phase.choice, listing))]
    case IntendPush(id, f) =>
      var phase := s.ops[id].phase;
      s.ops[id := s.ops[id].(phase := Pushing(PushedFiles(phase) + {f}, f.end, phase.choice, phase.listing))]
    case CommitPush(id, confirm) =>
      if PushRegisters(s.d, s.ops[id].phase.files) then
        (s.ops - {id})[confirm := Confirming(s.ops[id].phase.upTo, Paths(s.ops[id].phase.files))]
      else
        s.ops - {id}
    case Confirm(id) => s.ops - {id}
    case ClaimTruncate(id, floor) => s.ops[id := Truncating(floor, 0)]
    case TruncateBuffer(id) => s.ops[id := Truncating(s.ops[id].floor, 1)]
    case TruncateStaging(id) => s.ops[id := Truncating(s.ops[id].floor, 2)]
    case TruncatePublished(id) => s.ops[id := Truncating(s.ops[id].floor, 3)]
    case Drop(id) => s.ops - {id}
    case _ => s.ops
  }

  ghost function Apply(s: State, step: Step): State
    requires Enabled(s, step)
  {
    State(Write(s, step), Advance(s, step))
  }

  // ----- the steps that keep every published file whole and covered -----

  /** A publish under its claim is about to register a copy named by `intent`. */
  ghost predicate Uploads(s: State, intent: Intent) {
    exists id :: id in s.ops && UploadsUnder(s.d, s.ops[id], intent)
  }

  ghost predicate UploadsUnder(d: Tables, op: Op, intent: Intent) {
    && op.Publishing?
    && Fresh(d, op.range)
    && ((op.phase.Swapping? && AsIntent(op.phase.merged) == intent)
        || (op.phase.Pushing? && exists u :: u in op.phase.files && AsIntent(u) == intent))
  }

  /** A registered file the watermark does not cover yet, or a staging file below the
      published end, has no other name. */
  ghost predicate Landed(d: Tables, intent: Intent) {
    || (exists p :: p in d.published && AsIntent(p) == intent)
    || (d.through + 1 < End(d.published) &&
          exists g :: g in d.staging && g.start < End(d.published) && AsIntent(g) == intent)
  }

  /** Whether anything rests on `intent`. */
  ghost predicate RestsOn(s: State, intent: Intent) {
    && s.d.through + 1 < intent.end
    && (Uploads(s, intent) || Landed(s.d, intent))
  }

  /** A step that drops no intent anything rests on, and begins a swap only while its
      claim reaches past the published end. */
  ghost predicate Orderly(s: State, step: Step)
    requires Enabled(s, step)
  {
    match step
    case Forget(id, intent) => !RestsOn(s, intent)
    case StrayForget(intent) => !RestsOn(s, intent)
    case IntendSwap(id, m) => Fresh(s.d, s.ops[id].range)
    case _ => true
  }
}
