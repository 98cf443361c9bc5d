/** The durable state of a log's three tiers, and the operations in flight on it.

    Rows are immutable once committed, so an offset stands for its row. `Tables` is
    durable: a crash removes an operation from `ops` and leaves the tables as
    they are. One SQLite transaction, one Iceberg commit or one
    file write is one step (module `TierSteps`).
 */
module TierState {
  import opened Options

  /** A data file: the offsets it spans, `[start, end)`, and the rows it holds. */
  datatype File = File(path: nat, start: nat, end: nat, rows: set<nat>)

  /** A copy a push is about to register with the published table. */
  datatype Intent = Intent(path: nat, start: nat, end: nat)

  /** The offsets an operation claims: half-open, or the whole log. */
  datatype Range = Span(lo: nat, hi: nat) | Everything

  /** What decides which merged files a publish swaps in: whether it flushes, and up to
      where compaction was finished with the staging files as it listed them. */
  datatype Choice = Choice(flush: bool, limit: nat)

  /** What decides which files it pushes then: up to where compaction is finished with
      them by now, and up to where watermark and intents cover them. */
  datatype Listing = Listing(limit: nat, frozen: nat)

  /** How far a publish has got under its claim. It reads each table once: `files` are the
      staging files it saw; `floor` the published end it saw, raised by its own swaps, and
      `held` the copies it saw there; `landed` and `dead` the intents it read, registered
      and not; `swaps` the files lined up with published ones, and from `Working` on those
      of them it has yet to swap. */
  datatype Phase =
    | Opened
    | Staged(files: set<File>)
    | Looked(floor: nat, held: set<nat>, swaps: set<File>)
    | Noted(floor: nat, landed: set<nat>, dead: set<Intent>, swaps: set<File>)
    | Reconciled(floor: nat, dead: set<Intent>, swaps: set<File>)
    | Working(floor: nat, swaps: set<File>, choice: Choice)
    | Swapping(merged: File, floor: nat, swaps: set<File>, choice: Choice)
    | Chosen(floor: nat, choice: Choice, listing: Listing)
    | Pushing(files: set<File>, upTo: nat, choice: Choice, listing: Listing)

  /** An operation in flight: what one process holds in memory. */
  datatype Op =
    | Sealing(lo: nat, hi: nat)
    | Sealed(file: File)
    | Ingesting
    | Compacting(run: set<File>)
    | Checked(run: set<File>)
    | Merging(run: set<File>, floor: nat)
    | Merged(run: set<File>, floor: nat, outputs: set<File>)
    | Evicting(hi: nat)
    | Dropping(hi: nat, below: nat)
    | Publishing(range: Range, phase: Phase)
    | Truncating(floor: nat, stage: nat)
    | Confirming(end: nat, paths: set<nat>)

  datatype Tables = Tables(
    next: nat,                   // the next offset the log issues
    committed: set<nat>,         // every row ever committed
    low: nat,                    // truncation removed every row below it
    buffer: set<nat>,            // rows in the SQLite buffer
    staging: set<File>,          // the staging table's current snapshot
    published: set<File>,        // the published table's current snapshot
    through: nat,                // the watermark: last offset published, 0 for none
    intents: set<Intent>,        // `extent_intent`
    tier: Option<set<nat>>,      // rows the published tier row's statistics describe
    queued: set<nat>,            // `pending_delete`
    written: set<File>,          // every file written holding all the rows it spans
    names: set<nat>)             // every path ever given to a file

  /** The durable tables, and the operations in flight, by the claim's owner. */
  datatype State = State(d: Tables, ops: map<nat, Op>)

  // ----- files and spans -----

  /** A file spans exactly its rows, and holds every committed row it spans. */
  ghost predicate Tight(f: File, committed: set<nat>) {
    && f.start < f.end
    && f.start in f.rows
    && f.end - 1 in f.rows
    && (forall r :: r in f.rows <==> r in committed && f.start <= r < f.end)
  }

  // Triggered only where it is asked for: a file names rows, and those name files.
  ghost predicate AllTight(fs: set<File>, committed: set<nat>) {
    forall f {:trigger Tight(f, committed)} :: f in fs ==> Tight(f, committed)
  }

  /** What is left of a file a commit's range cut: its span is that of its rows, but
      it need not hold every committed row there. */
  ghost predicate Loose(f: File, committed: set<nat>) {
    && f.start < f.end
    && f.start in f.rows
    && f.end - 1 in f.rows
    && (forall r :: r in f.rows ==> r in committed && f.start <= r < f.end)
  }

  ghost predicate AllLoose(fs: set<File>, committed: set<nat>) {
    forall f {:trigger Loose(f, committed)} :: f in fs ==> Loose(f, committed)
  }

  /** No row is in two files. */
  ghost predicate RowsApart(fs: set<File>) {
    forall f, g, r :: f in fs && g in fs && r in f.rows && r in g.rows ==> f == g
  }

  ghost predicate Apart(f: File, g: File) {
    f.end <= g.start || g.end <= f.start
  }

  ghost predicate Disjoint(fs: set<File>) {
    forall f, g :: f in fs && g in fs && f != g ==> Apart(f, g)
  }

  ghost predicate UniquePaths(fs: set<File>) {
    forall f, g :: f in fs && g in fs && f.path == g.path ==> f == g
  }

  ghost predicate Holds(fs: set<File>, r: nat) {
    exists f :: f in fs && r in f.rows
  }

  ghost predicate NamesIn(fs: set<File>, path: nat) {
    exists f :: f in fs && f.path == path
  }

  lemma TopExists(fs: set<File>)
    requires fs != {}
    ensures exists f :: f in fs && forall g :: g in fs ==> g.end <= f.end
    decreases |fs|
  {
    var x :| x in fs;
    if fs != {x} {
      var rest := fs - {x};
      assert fs == rest + {x};
      TopExists(rest);
      var f :| f in rest && forall g :: g in rest ==> g.end <= f.end;
      var top := if f.end < x.end then x else f;
      assert forall g :: g in fs ==> g == x || g in rest;
      assert forall g :: g in fs ==> g.end <= top.end;
    }
  }

  /** The exclusive end of a table's span; 0 when it is empty. */
  ghost function End(fs: set<File>): (e: nat)
    ensures fs == {} ==> e == 0
    ensures forall f :: f in fs ==> f.end <= e
    ensures fs != {} ==> exists f :: f in fs && f.end == e
  {
    if fs == {} then 0
    else
      TopExists(fs);
      var f :| f in fs && forall g :: g in fs ==> g.end <= f.end;
      f.end
  }

  lemma BottomExists(fs: set<File>)
    requires fs != {}
    ensures exists f :: f in fs && forall g :: g in fs ==> f.start <= g.start
    decreases |fs|
  {
    var x :| x in fs;
    if fs != {x} {
      var rest := fs - {x};
      assert fs == rest + {x};
      BottomExists(rest);
      var f :| f in rest && forall g :: g in rest ==> f.start <= g.start;
      var bottom := if x.start < f.start then x else f;
      assert forall g :: g in fs ==> g == x || g in rest;
      assert forall g :: g in fs ==> bottom.start <= g.start;
    }
  }

  /** The first offset of a table's span; 0 when it is empty. */
  ghost function Start(fs: set<File>): (e: nat)
    ensures forall f :: f in fs ==> e <= f.start
    ensures fs != {} ==> exists f :: f in fs && f.start == e
  {
    if fs == {} then 0
    else
      BottomExists(fs);
      var f :| f in fs && forall g :: g in fs ==> f.start <= g.start;
      f.start
  }

  /** Every row below it has been filed; every row from it up is only buffered. */
  ghost function Frontier(d: Tables): nat {
    if End(d.staging) < End(d.published) then End(d.published) else End(d.staging)
  }

  /** Every row below it is published or truncated. */
  ghost function Base(d: Tables): nat {
    if End(d.published) < d.low then d.low else End(d.published)
  }

  /** Whether `r` lies below the staging table, where reads use the published one. */
  ghost predicate BelowStaging(d: Tables, r: nat) {
    d.staging == {} || r < Start(d.staging)
  }

  ghost function AsIntent(f: File): Intent {
    Intent(f.path, f.start, f.end)
  }

  // ----- claims -----

  ghost predicate Clashes(a: Range, b: Range) {
    a.Everything? || b.Everything? || (a.lo < b.hi && b.lo < a.hi)
  }

  /** The range an operation's claim covers; a push confirms after its commit
      with nothing left to protect, and needs none. */
  ghost function ClaimOf(op: Op): Option<Range> {
    match op
    case Sealing(lo, hi) => Some(Span(lo, hi))
    case Sealed(f) => Some(Span(f.start, f.end))
    case Ingesting => Some(Everything)
    case Compacting(run) => Some(Span(Start(run), End(run)))
    case Checked(run) => Some(Span(Start(run), End(run)))
    case Merging(run, _) => Some(Span(Start(run), End(run)))
    case Merged(run, _, _) => Some(Span(Start(run), End(run)))
    case Evicting(hi) => Some(Span(0, hi))
    case Dropping(hi, _) => Some(Span(0, hi))
    case Publishing(range, _) => Some(range)
    case Truncating(_, _) => Some(Everything)
    case Confirming(_, _) => None
  }

  ghost predicate Conflict(a: Op, b: Op) {
    ClaimOf(a).Some? && ClaimOf(b).Some? && Clashes(ClaimOf(a).value, ClaimOf(b).value)
  }

  /** No operation in flight claims a range overlapping `r`. */
  ghost predicate Unclaimed(s: State, r: Range) {
    forall id :: id in s.ops && ClaimOf(s.ops[id]).Some?
      ==> !Clashes(r, ClaimOf(s.ops[id]).value)
  }

  /** Whether a publish's claim still reaches past what is published. */
  ghost predicate Fresh(d: Tables, range: Range) {
    range.Everything? || Base(d) < range.hi
  }

  // ----- what every run keeps of the tables -----

  ghost predicate FilesOk(d: Tables) {
    && 1 <= d.next
    && d.low <= d.next
    && (forall r :: r in d.committed ==> 1 <= r < d.next)
    && d.buffer <= d.committed
    && (forall r :: r in d.buffer ==> d.low <= r)
    && (forall f :: f in d.written ==> f.path in d.names)
    && (forall f :: f in d.published ==> f.path in d.names)
    && d.staging <= d.written
    && (forall f :: f in d.written ==> f.start < f.end)
    && (forall f :: f in d.published ==> f.start < f.end)
    && AllTight(d.written, d.committed)
    && AllLoose(d.published, d.committed)
    && UniquePaths(d.written)
    && Disjoint(d.staging)
    && RowsApart(d.published)
    && (forall f :: f in d.staging ==> d.low <= f.start)
    && (forall f :: f in d.published ==> d.low <= f.start)
    && (d.through == 0 || d.through in d.committed)
  }

  /** The published table has no gap: below its end, only truncated rows are missing. */
  ghost predicate PublishedWhole(d: Tables) {
    forall r {:trigger Holds(d.published, r)} ::
      r in d.committed && d.low <= r < End(d.published) ==> Holds(d.published, r)
  }

  /** Each untruncated row is in the leg a read takes it from. */
  ghost predicate Legs(d: Tables) {
    && (forall r :: r in d.committed && d.low <= r && Frontier(d) <= r ==> r in d.buffer)
    && PublishedWhole(d)
    && (d.staging != {} ==>
          && End(d.published) <= End(d.staging)
          && (forall r {:trigger Holds(d.published, r)} ::
                r in d.committed && d.low <= r < Start(d.staging) ==> Holds(d.published, r))
          && (forall r {:trigger Holds(d.staging, r)} ::
                r in d.committed && Start(d.staging) <= r < End(d.staging) ==> Holds(d.staging, r)))
  }

  /** The watermark claims only rows the published table holds. */
  ghost predicate Watermark(d: Tables) {
    && (forall r {:trigger Holds(d.published, r)} ::
          r in d.committed && d.low <= r <= d.through ==> Holds(d.published, r))
    && (d.published != {} ==> d.through < End(d.published))
    && (End(d.published) <= End(d.staging) || End(d.published) <= d.through + 1)
  }

  /** The published tier row describes every published row a read may take from there. */
  ghost predicate TierRow(d: Tables) {
    d.tier.Some? ==>
      forall p, r :: p in d.published && r in p.rows && BelowStaging(d, r) ==> r in d.tier.value
  }

  /** What every reachable set of durable tables satisfies. */
  ghost predicate SafeOk(d: Tables) {
    && FilesOk(d)
    && Legs(d)
    && Watermark(d)
    && TierRow(d)
  }

  // ----- what orderly runs keep of them besides -----

  /** No published file was ever cut: each copies a file written here, and no two overlap. */
  ghost predicate Uncut(d: Tables) {
    && d.published <= d.written
    && Disjoint(d.published)
  }

  /** Watermark and intents together cover everything registered, so compaction
      sees every staging file the published table may hold. */
  ghost predicate Covered(d: Tables) {
    && (forall p :: p in d.published ==> p.end <= d.through + 1 || AsIntent(p) in d.intents)
    && (d.through + 1 < End(d.published) ==>
          forall g :: g in d.staging ==>
            g.end <= d.through + 1 || End(d.published) <= g.start || AsIntent(g) in d.intents)
  }

  ghost predicate Inside(offset: nat, p: File) {
    p.start < offset < p.end
  }

  /** No staging boundary lies strictly inside a published file. */
  ghost predicate Aligned(staging: set<File>, published: set<File>) {
    forall f, p :: f in staging && p in published ==> !Inside(f.start, p) && !Inside(f.end, p)
  }

  ghost predicate Neat(d: Tables) {
    && Uncut(d)
    && Covered(d)
    && Aligned(d.staging, d.published)
  }

  ghost predicate TablesOk(d: Tables) {
    SafeOk(d) && Neat(d)
  }

  // ----- what each operation in flight may rely on, in every run -----

  ghost predicate GroupOk(d: Tables, lo: nat, hi: nat) {
    && lo < hi
    && lo in d.committed
    && hi - 1 in d.committed
    && (Filed(d, hi) || Head(d, lo))
  }

  /** The rows below `end` are in a table already, so `register` declines them. */
  ghost predicate Filed(d: Tables, end: nat) {
    end <= End(d.staging) || end <= d.through + 1
  }

  /** `lo` is the first row no file holds. */
  ghost predicate Head(d: Tables, lo: nat) {
    && d.low <= lo
    && Frontier(d) <= lo
    && (forall r :: r in d.committed && d.low <= r && Frontier(d) <= r ==> lo <= r)
  }

  /** The files of `run` hold every committed row their span covers. */
  ghost predicate Whole(d: Tables, run: set<File>) {
    && run != {}
    && run <= d.written
    && Disjoint(run)
    && (forall r {:trigger Holds(run, r)} ::
          r in d.committed && Start(run) <= r < End(run) ==> Holds(run, r))
  }

  /** `outputs` hold the rows of `run`, in its span. */
  ghost predicate Rewritten(d: Tables, run: set<File>, outputs: set<File>) {
    && outputs != {}
    && outputs <= d.written
    && Disjoint(outputs)
    && (forall o :: o in outputs ==> Start(run) <= o.start && o.end <= End(run))
    && (forall r {:trigger Holds(run, r)} {:trigger Holds(outputs, r)} ::
          Holds(run, r) ==> Holds(outputs, r))
  }

  /** What stays true of a file once seen in the staging table, meeting a published one. */
  ghost predicate SwapSeen(d: Tables, m: File) {
    && m in d.written
    && d.low <= m.start
    && m.start < End(d.published)
    && m.end <= Frontier(d)
  }

  ghost predicate AllSeen(d: Tables, swaps: set<File>) {
    forall m :: m in swaps ==> SwapSeen(d, m)
  }

  /** The claim begins no higher than the floor the publish goes by. */
  ghost predicate FloorOk(d: Tables, range: Range, floor: nat) {
    && floor <= End(d.published)
    && (range.Span? ==> range.lo <= floor || range.lo <= d.low)
  }

  /** Every row below `end` is published. */
  ghost predicate AllPublished(d: Tables, end: nat) {
    && (end == 0 || end - 1 in d.committed)
    && (forall r {:trigger Holds(d.published, r)} ::
          r in d.committed && d.low <= r < end ==> Holds(d.published, r))
    && (d.published != {} ==> end <= End(d.published))
  }

  ghost predicate PhaseSafe(d: Tables, range: Range, phase: Phase) {
    match phase
    case Opened => true
    case Staged(files) =>
      files <= d.written && forall f :: f in files ==> d.low <= f.start && f.end <= Frontier(d)
    case Looked(floor, held, swaps) =>
      FloorOk(d, range, floor) && AllSeen(d, swaps) && AllPublished(d, floor)
    case Noted(floor, landed, dead, swaps) =>
      FloorOk(d, range, floor) && AllSeen(d, swaps) && AllPublished(d, floor)
    case Reconciled(floor, dead, swaps) => FloorOk(d, range, floor) && AllSeen(d, swaps)
    case Working(floor, swaps, choice) => FloorOk(d, range, floor) && AllSeen(d, swaps)
    case Swapping(m, floor, swaps, choice) => FloorOk(d, range, floor) && AllSeen(d, swaps) && SwapSeen(d, m)
    case Chosen(floor, choice, listing) => FloorOk(d, range, floor)
    case Pushing(files, upTo, choice, listing) =>
      && files != {}
      && files <= d.staging
      && upTo == End(files)
      && (range.Span? ==> upTo <= range.hi && forall u :: u in files ==> range.lo < u.end)
      && (forall g :: g in d.staging ==> g.end <= Base(d) || g in files || upTo <= g.start)
  }

  ghost predicate RangeOk(d: Tables, range: Range) {
    range.Span? ==> range.lo <= Base(d) && range.lo < range.hi
  }

  ghost predicate OpSafe(d: Tables, op: Op) {
    match op
    case Sealing(lo, hi) => GroupOk(d, lo, hi)
    case Sealed(f) => GroupOk(d, f.start, f.end) && (f in d.written || Filed(d, f.end))
    case Ingesting => forall r :: r in d.committed && d.low <= r ==> r < Frontier(d)
    case Compacting(run) => Whole(d, run)
    case Checked(run) => Whole(d, run) && run <= d.staging
    case Merging(run, _) => Whole(d, run) && run <= d.staging
    case Merged(run, _, outputs) => Whole(d, run) && run <= d.staging && Rewritten(d, run, outputs)
    case Evicting(hi) => true
    case Dropping(hi, below) =>
      && below <= hi
      && below <= d.through + 1
      && below <= End(d.staging)
      && (forall f :: f in d.staging ==> f.end <= below || below <= f.start)
      && (forall f :: f in d.staging && f.end <= below ==>
            f.path in d.queued && (d.tier.Some? ==> f.rows <= d.tier.value))
    case Publishing(range, phase) => RangeOk(d, range) && PhaseSafe(d, range, phase)
    case Truncating(floor, stage) =>
      && floor <= d.through + 1
      && (forall f :: f in d.staging ==> f.end <= floor || floor <= f.start)
      && (forall f :: f in d.published ==> f.end <= floor || floor <= f.start)
      && (1 <= stage ==> forall r :: r in d.buffer ==> floor <= r)
      && (2 <= stage ==> forall f :: f in d.staging ==> floor <= f.start)
    case Confirming(end, paths) => AllPublished(d, end)
  }

  ghost predicate NoneClash(s: State) {
    forall i, j :: i in s.ops && j in s.ops && i != j ==> !Conflict(s.ops[i], s.ops[j])
  }

  /** What every run keeps. */
  ghost predicate Safe(s: State) {
    && SafeOk(s.d)
    && (forall id :: id in s.ops ==> OpSafe(s.d, s.ops[id]))
    && NoneClash(s)
  }

  // ----- what it may rely on besides, in orderly runs -----

  /** Every published file the run overlaps ends at or below `floor`. */
  ghost predicate Settled(d: Tables, run: set<File>, floor: nat) {
    forall p, f :: p in d.published && f in run && !Apart(p, f) ==> p.end <= floor
  }

  /** Below `floor`, outputs end only where an input ended. */
  ghost predicate CutsAtEnds(run: set<File>, floor: nat, outputs: set<File>) {
    forall o :: o in outputs ==> floor <= o.end || exists f :: f in run && f.end == o.end
  }

  ghost predicate Protected(d: Tables, f: File) {
    AsIntent(f) in d.intents || f.end <= d.through + 1
  }

  /** Whether a file meets published files, all of them wholly inside it. */
  ghost predicate LinesUp(d: Tables, m: File) {
    && (exists p :: p in d.published && !Apart(p, m))
    && (forall p :: p in d.published ==> Apart(p, m) || (m.start <= p.start && p.end <= m.end))
  }

  /** A file whose swap removes whole published files and cuts no staging file. */
  ghost predicate SwapFits(d: Tables, m: File) {
    && m in d.written
    && d.low <= m.start
    && (m in d.staging || m.end <= End(d.published))
    && LinesUp(d, m)
    && (forall g :: g in d.staging ==> !Inside(g.start, m) && !Inside(g.end, m))
  }

  ghost predicate AllFit(d: Tables, swaps: set<File>) {
    && Disjoint(swaps)
    && forall m :: m in swaps ==> SwapFits(d, m)
  }

  /** No file written ends past `end` under a path in `paths`. */
  ghost predicate PathsBelow(d: Tables, end: nat, paths: set<nat>) {
    && paths <= d.names
    && (forall f :: f in d.written && f.path in paths ==> f.end <= end)
  }

  /** A staging file with rows both below and above the published end. */
  ghost predicate Straddles(d: Tables, g: File) {
    g in d.staging && g.start < End(d.published) < g.end
  }

  /** Neither flushed nor finished with when swaps were listed. */
  ghost predicate LeftOut(choice: Choice, g: File) {
    !choice.flush && choice.limit < g.end
  }

  /** Taken by a push: it flushes, or the file is covered already, or finished with. */
  ghost predicate PushDue(choice: Choice, listing: Listing, f: File) {
    choice.flush || f.end <= listing.frozen || f.end <= listing.limit
  }

  ghost predicate SnapshotNeat(d: Tables, files: set<File>) {
    && Disjoint(files)
    && (forall m :: m in files && LinesUp(d, m) ==> SwapFits(d, m))
    && (forall g :: Straddles(d, g) ==> g in files)
  }

  /** What it has to swap fits, and is every straddler but those left out. */
  ghost predicate ViewNeat(d: Tables, range: Range, floor: nat, swaps: set<File>, choice: Option<Choice>) {
    Fresh(d, range) ==>
      && floor == End(d.published)
      && AllFit(d, swaps)
      && forall g :: Straddles(d, g) ==> g in swaps || (choice.Some? && LeftOut(choice.value, g))
  }

  ghost predicate PhaseNeat(d: Tables, range: Range, phase: Phase) {
    match phase
    case Opened => true
    case Staged(files) => Fresh(d, range) ==> SnapshotNeat(d, files)
    case Looked(floor, held, swaps) =>
      ViewNeat(d, range, floor, swaps, None) && PathsBelow(d, floor, held)
    case Noted(floor, landed, dead, swaps) =>
      ViewNeat(d, range, floor, swaps, None) && PathsBelow(d, floor, landed)
    case Reconciled(floor, dead, swaps) =>
      && ViewNeat(d, range, floor, swaps, None)
      && (Fresh(d, range) ==> End(d.published) <= d.through + 1)
    case Working(floor, swaps, choice) => ViewNeat(d, range, floor, swaps, Some(choice))
    case Swapping(m, floor, swaps, choice) =>
      && Fresh(d, range)
      && m !in swaps
      && ViewNeat(d, range, floor, swaps + {m}, Some(choice))
      && Protected(d, m)
    case Chosen(floor, choice, listing) => ViewNeat(d, range, floor, {}, Some(choice))
    case Pushing(files, upTo, choice, listing) =>
      && (forall u :: u in files ==> PushDue(choice, listing, u))
      && (Fresh(d, range) ==>
            && (forall u :: u in files ==> End(d.published) < u.end && Protected(d, u))
            && forall g :: Straddles(d, g) ==> LeftOut(choice, g))
  }

  ghost predicate OpNeat(d: Tables, op: Op) {
    match op
    case Checked(run) => Settled(d, run, d.through + 1)
    case Merging(run, floor) => Settled(d, run, floor) && floor <= d.through + 1
    case Merged(run, floor, outputs) =>
      Settled(d, run, floor) && floor <= d.through + 1 && CutsAtEnds(run, floor, outputs)
    case Publishing(range, phase) => PhaseNeat(d, range, phase)
    case Confirming(end, paths) => PathsBelow(d, end, paths)
    case _ => true
  }

  /** What orderly runs keep besides. */
  ghost predicate Tidy(s: State) {
    && Neat(s.d)
    && forall id :: id in s.ops ==> OpNeat(s.d, s.ops[id])
  }

  ghost predicate Inv(s: State) {
    Safe(s) && Tidy(s)
  }
}
