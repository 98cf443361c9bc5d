/** The seal queue and the tiers together: what a sealer takes from the queue is the first
    row no file holds, and a log whose queue owes nothing has every row filed. So the
    guards of the tiers' seal and bulk-load steps are what the queue's reads deliver. */
module TierQueue {
  import opened Options
  import opened TierState
  import opened TierSteps
  import opened TierTables
  import opened TierMerge
  import opened TierPublish
  import opened TierEvict
  import opened TierOps
  import opened TierRuns
  import opened TierTheorems
  import opened TierHistory
  import Q = SealQueue

  /** The queue's groups, as `SealQueue` keeps them: an entry each, and the rows of each. */
  datatype Groups = Groups(entries: seq<Q.Entry>, parts: seq<seq<Q.Row>>, next: nat)

  ghost predicate Queued(g: Groups) {
    Q.Queue(g.entries, g.parts, g.next)
  }

  ghost predicate InGroup(g: Groups, i: nat, r: nat) {
    i < |g.parts| && exists row :: row in g.parts[i] && row.offset == r
  }

  ghost predicate Owed(g: Groups, r: nat) {
    exists i: nat :: InGroup(g, i, r)
  }

  ghost predicate IsGroup(g: Groups, i: nat, lo: nat, hi: nat) {
    i < |g.entries| && g.entries[i].start == Some(lo) && g.entries[i].end == Some(hi)
  }

  /** A group's rows are filed, or all lie past what is. */
  ghost predicate FiledOrPast(d: Tables, g: Groups, i: nat)
    requires i < |g.entries|
  {
    g.entries[i].start.None?
    || Past(d) <= g.entries[i].start.value
    || (g.entries[i].end.Some? && Filed(d, g.entries[i].end.value))
  }

  /** The queue owes every unfiled row, and no group straddles what is filed. */
  ghost predicate Agrees(d: Tables, g: Groups) {
    && Queued(g) && g.next == d.next
    && (forall r :: r in d.committed && Past(d) <= r ==> Owed(g, r))
    && (forall i: nat, r: nat :: InGroup(g, i, r) ==> r in d.committed)
    && (forall i: nat :: i < |g.entries| ==> FiledOrPast(d, g, i))
    && (forall i: nat :: i < |g.entries| && g.entries[i].name.Some? && g.entries[i].end.Some? ==>
          Filed(d, g.entries[i].end.value))
  }

  // ----- what the queue's entries say of its rows -----

  /** A group's first and last rows, and where its rows lie. */
  lemma GroupSpan(g: Groups, i: nat)
    requires Queued(g) && i < |g.entries|
    ensures |g.parts| == |g.entries|
    ensures g.entries[i].start.None? <==> g.parts[i] == []
    ensures g.entries[i].start.Some? ==> InGroup(g, i, g.entries[i].start.value)
    ensures g.entries[i].end.Some? ==>
      && g.entries[i].start.Some? && 1 <= g.entries[i].end.value && InGroup(g, i, g.entries[i].end.value - 1)
    ensures forall r: nat :: InGroup(g, i, r) ==>
      && g.entries[i].start.Some? && g.entries[i].start.value <= r
      && 1 <= r < g.next
      && (g.entries[i].end.Some? ==> r < g.entries[i].end.value)
  {
    hide Q.Concat, Q.Increasing, Q.Cost;
    assert Q.Describes(g.entries[i], g.parts[i]);
    var part := g.parts[i];
    Q.PartIn(g.parts, i);
    forall row | row in part ensures Q.Covers(g.entries[i], row.offset) {
      Q.GroupCovers(g.entries, g.parts, g.next, row, i);
    }
    if part != [] {
      assert part[0] in part && part[|part| - 1] in part;
    }
  }

  /** Rows of an earlier group come before those of a later one. */
  lemma GroupOrder(g: Groups, i: nat, j: nat, a: nat, b: nat)
    requires Queued(g) && i < j && InGroup(g, i, a) && InGroup(g, j, b)
    ensures a < b
  {
    hide Q.Concat, Q.Increasing;
    Q.PartsApart(g.parts, i, j);
  }

  /** What is filed lies below `Past`. */
  lemma FiledBelow(d: Tables, end: nat)
    requires FilesOk(d) && Watermark(d) && Filed(d, end) && 2 <= end
    ensures end <= Past(d)
  {
    hide Disjoint, UniquePaths, RowsApart, Tight, Loose;
    if End(d.staging) < end && d.published == {} {
      assert d.low <= d.through ==> Holds(d.published, d.through);
    }
  }

  /** A row of a group that has its file is below `Past`. */
  lemma NamedBelow(d: Tables, g: Groups, i: nat, r: nat)
    requires FilesOk(d) && Watermark(d) && Agrees(d, g) && InGroup(g, i, r)
    requires i < |g.entries| && g.entries[i].end.Some? && Filed(d, g.entries[i].end.value)
    ensures r < Past(d)
  {
    hide Q.Queue, Filed, FilesOk, Watermark;
    GroupSpan(g, i);
    FiledBelow(d, g.entries[i].end.value);
  }

  // ----- what the queue's reads deliver -----

  /** The queue's oldest group awaiting a file is one a seal may take: it is filed
      already, or begins at the first row no file holds. */
  lemma OldestMaySeal(d: Tables, g: Groups, i: nat, range: (nat, nat))
    requires FilesOk(d) && Watermark(d) && Agrees(d, g) && Q.Oldest(g.entries, i, range)
    ensures GroupOk(d, range.0, range.1)
  {
    hide FilesOk, Watermark, Q.Queue;
    GroupSpan(g, i);
    assert FiledOrPast(d, g, i);
    assert range.0 in d.committed && range.1 - 1 in d.committed;
    if !Filed(d, range.1) {
      forall r | r in d.committed && d.low <= r && Frontier(d) <= r ensures range.0 <= r {
        assert Owed(g, r);
        var j: nat :| InGroup(g, j, r);
        OldestFirst(d, g, i, range, j, r);
      }
    }
  }

  lemma OldestFirst(d: Tables, g: Groups, i: nat, range: (nat, nat), j: nat, r: nat)
    requires FilesOk(d) && Watermark(d) && Agrees(d, g) && Q.Oldest(g.entries, i, range)
    requires InGroup(g, j, r) && Past(d) <= r
    ensures range.0 <= r
  {
    hide FilesOk, Watermark, Past;
    GroupSpan(g, i);
    GroupSpan(g, j);
    if j < i {
      assert g.entries[j].end.Some? && !Q.Awaits(g.entries[j]);
      NamedBelow(d, g, j, r);
    } else if i < j {
      GroupOrder(g, i, j, range.0, r);
    }
  }

  /** No group awaiting a file, and the open one not started: every row is filed, as a
      bulk load needs. */
  lemma NothingOwedMayLoad(d: Tables, g: Groups)
    requires FilesOk(d) && Watermark(d) && Agrees(d, g)
    requires forall entry :: entry in g.entries ==> !Q.Awaits(entry)
    requires g.entries[|g.entries| - 1].start.None?
    ensures forall r :: r in d.committed && d.low <= r ==> r < Frontier(d)
  {
    hide FilesOk, Watermark;
    forall r | r in d.committed && d.low <= r ensures r < Frontier(d) {
      if Past(d) <= r {
        assert Owed(g, r);
        var j: nat :| InGroup(g, j, r);
        GroupSpan(g, j);
        assert j < |g.entries| && j != |g.entries| - 1;
        assert g.entries[j] in g.entries && g.entries[j].name.Some?;
        NamedBelow(d, g, j, r);
      }
    }
  }

  // ----- every move of the queue and the tiers keeps them together -----

  /** How far the filed rows reach; it never falls back. */
  ghost function FiledTo(d: Tables): nat {
    Later(End(d.staging), d.through + 1)
  }

  lemma FiledIs(d: Tables, end: nat)
    ensures Filed(d, end) <==> end <= FiledTo(d)
  {
  }

  /** The steps that file no row. */
  ghost predicate FilesNothing(step: Step) {
    !step.Append? && !step.Reserve? && !step.RegisterSeal? && !step.RegisterIngest?
  }

  lemma StepFiledTo(s: State, step: Step)
    requires Safe(s) && Enabled(s, step) && FilesNothing(step)
    ensures FiledTo(s.d) <= FiledTo(Write(s, step))
    ensures Past(Write(s, step)) <= Later(Past(s.d), 1)
    ensures Write(s, step).committed == s.d.committed && Write(s, step).next == s.d.next
  {
    hide Safe, Enabled, Write, SafeOk, OpSafe;
    if step.CommitMerge? || step.CommitEvict? || step.TruncateStaging? {
      StagingFiledTo(s, step);
    } else if step.CommitSwap? || step.CommitPush? || step.TruncatePublished? {
      PublishedFiledTo(s, step);
    } else {
      OtherFiledTo(s, step);
    }
  }

  lemma OtherFiledTo(s: State, step: Step)
    requires Enabled(s, step) && FilesNothing(step) && !FileStep(step)
    ensures var e := Write(s, step);
      && e.staging == s.d.staging && e.published == s.d.published && e.low == s.d.low
      && s.d.through <= e.through && e.committed == s.d.committed && e.next == s.d.next
  {
  }

  lemma StagingFiledTo(s: State, step: Step)
    requires Safe(s) && Enabled(s, step)
    requires step.CommitMerge? || step.CommitEvict? || step.TruncateStaging?
    ensures var e := Write(s, step);
      && FiledTo(s.d) <= FiledTo(e) && Past(e) <= Past(s.d)
      && e.committed == s.d.committed && e.next == s.d.next
  {
    hide Safe, Write, Enabled, FilesOk, Watermark, MergeOk, OpSafe;
    StagingAfter(s, step);
    InFlight(s, step.id);
    SafeParts(s);
    match step
    case CommitMerge(id) =>
      MergedIsOk(s.d, s.ops[id]);
      ReplacedSpan(s.d, s.ops[id].run, s.ops[id].outputs);
    case CommitEvict(id) =>
      DroppingIsOk(s.d, s.ops[id]);
      EvictFiledTo(s.d, s.ops[id].below);
    case TruncateStaging(id) =>
      TruncateMayEvict(s.d, s.ops[id].floor);
      EvictFiledTo(Leaving(s.d, s.ops[id].floor), s.ops[id].floor);
  }

  lemma TruncateMayEvict(d: Tables, floor: nat)
    requires SafeOk(d) && OpSafe(d, Truncating(floor, 1))
    ensures var e := Leaving(d, floor);
      && FilesOk(e) && Watermark(e) && EvictOk(e, floor)
      && e == d.(queued := e.queued, tier := e.tier)
  {
    hide Legs, Tight, Loose, Disjoint, UniquePaths, RowsApart;
    LeavingKeeps(d, floor);
  }

  lemma EvictFiledTo(d: Tables, below: nat)
    requires FilesOk(d) && Watermark(d) && EvictOk(d, below)
    ensures var e := Evicted(d, below);
      && FiledTo(d) <= FiledTo(e) && Past(e) == Past(d)
      && e.committed == d.committed && e.next == d.next
  {
    hide FilesOk, Watermark;
    EvictedFrontier(d, below);
    EndAbove(d.staging, below);
  }

  lemma PublishedFiledTo(s: State, step: Step)
    requires Safe(s) && Enabled(s, step)
    requires step.CommitSwap? || step.CommitPush? || step.TruncatePublished?
    ensures var e := Write(s, step);
      && FiledTo(s.d) <= FiledTo(e) && Past(e) <= Later(Past(s.d), 1)
      && e.committed == s.d.committed && e.next == s.d.next
  {
    hide Safe, SafeOk, OpSafe, FilesOk, Legs, Watermark, Grown, PushOk, SwapSeen, CutsOk, SwapIn, CutPublished;
    SafeParts(s);
    InFlight(s, step.id);
    match step
    case CommitSwap(id, confirm, cuts) =>
      SwappingIs(s.d, s.ops[id]);
      SwapGrown(s.d, s.ops[id].phase.merged, cuts);
      GrownFiledTo(s.d, Write(s, step));
    case CommitPush(id, confirm) =>
      if PushRegisters(s.d, s.ops[id].phase.files) {
        PushingIs(s.d, s.ops[id]);
        PushedGrown(s.d, s.ops[id].phase.files, s.ops[id].phase.upTo);
        GrownFiledTo(s.d, Write(s, step));
      }
    case TruncatePublished(id) => CutFiledTo(s.d, s.ops[id].floor);
  }

  lemma GrownFiledTo(d: Tables, e: Tables)
    requires Grown(d, e)
    ensures FiledTo(e) == FiledTo(d) && Past(e) == Past(d) && e.committed == d.committed && e.next == d.next
  {
  }

  lemma CutFiledTo(d: Tables, floor: nat)
    requires FilesOk(d) && Watermark(d) && OpSafe(d, Truncating(floor, 2))
    ensures var e := CutPublished(d, floor);
      && FiledTo(e) == FiledTo(d) && Past(e) <= Later(Past(d), 1)
      && e.committed == d.committed && e.next == d.next
  {
    hide Disjoint, UniquePaths, RowsApart, Tight, Loose;
    EndAbove(d.published, floor);
    if d.published == {} {
      assert d.low <= d.through && d.through in d.committed ==> Holds(d.published, d.through);
    }
  }

  /** A step that files nothing leaves the queue and the tiers agreeing. */
  lemma StepAgrees(s: State, step: Step, g: Groups)
    requires Safe(s) && Enabled(s, step) && FilesNothing(step) && Agrees(s.d, g)
    ensures Agrees(Write(s, step), g)
  {
    hide Safe, Enabled, Write, Past, FiledTo, Filed, Q.Queue;
    var e := Write(s, step);
    StepFiledTo(s, step);
    assert Past(s.d) <= Past(e) by { StepEvolves(s, step); EvolvesPast(s.d, e); }
    forall end ensures Filed(s.d, end) ==> Filed(e, end) { FiledIs(s.d, end); FiledIs(e, end); }
    forall i: nat | i < |g.entries| ensures FiledOrPast(e, g, i) {
      GroupSpan(g, i);
      assert FiledOrPast(s.d, g, i);
    }
  }

  lemma EvolvesPast(d: Tables, e: Tables)
    requires Evolves(d, e)
    ensures Past(d) <= Past(e)
  {
  }

  /** A group's file registered: it is filed, and every later group lies past it. */
  lemma SealAgrees(d: Tables, g: Groups, i: nat, f: File)
    requires SafeOk(d) && OpSafe(d, Sealed(f)) && Agrees(d, g) && IsGroup(g, i, f.start, f.end)
    ensures Agrees(RegisterFile(d, f), g)
  {
    hide Q.Queue, Legs, Watermark, TierRow, Tight, Loose, Disjoint, UniquePaths, RowsApart;
    var e := RegisterFile(d, f);
    if !Filed(d, f.end) {
      StagingSpans(d);
      StagedSpan(d, f);
      assert Past(e) == f.end;
      forall j: nat | j < |g.entries| ensures FiledOrPast(e, g, j) {
        assert FiledOrPast(d, g, j);
        if g.entries[j].start.Some? && Past(d) <= g.entries[j].start.value { SealPasses(d, g, i, f, j); }
      }
    } else {
      assert Past(e) == Past(d);
      forall j: nat | j < |g.entries| ensures FiledOrPast(e, g, j) { assert FiledOrPast(d, g, j); }
    }
  }

  lemma SealPasses(d: Tables, g: Groups, i: nat, f: File, j: nat)
    requires Agrees(d, g) && IsGroup(g, i, f.start, f.end) && j < |g.entries|
    requires Head(d, f.start) && f.start < f.end && g.entries[j].start.Some? && Past(d) <= g.entries[j].start.value
    ensures j == i || f.end <= g.entries[j].start.value
  {
    hide Q.Queue;
    GroupSpan(g, i);
    GroupSpan(g, j);
    if j < i {
      GroupOrder(g, j, i, g.entries[j].start.value, f.start);
    } else if i < j {
      GroupOrder(g, i, j, f.end - 1, g.entries[j].start.value);
    }
  }

  /** A bulk load finds every row filed, so no group is left behind it. */
  lemma LoadAgrees(d: Tables, g: Groups, f: File)
    requires SafeOk(d) && LoadOk(d, f) && Agrees(d, g)
    ensures Agrees(IngestFile(d, f), g)
  {
    hide Q.Queue, Legs, TierRow, Tight, Loose, Disjoint, UniquePaths, RowsApart;
    var e := IngestFile(d, f);
    LoadAbove(d, f);
    StagingSpans(d);
    StagedSpan(d, f);
    assert Past(e) == f.end;
    forall j: nat | j < |g.entries| ensures FiledOrPast(e, g, j) {
      GroupSpan(g, j);
      assert FiledOrPast(d, g, j);
      if g.entries[j].start.Some? { assert g.entries[j].start.value in d.committed; }
    }
  }

  /** Offsets reserved are issued to no row. */
  lemma ReserveAgrees(d: Tables, g: Groups, count: nat)
    requires Agrees(d, g)
    ensures Agrees(d.(next := d.next + count), g.(next := g.next + count))
  {
    hide Q.Concat, Q.Increasing, Q.Describes;
    var e, h := d.(next := d.next + count), g.(next := g.next + count);
    SameRows(g, h);
    forall i: nat | i < |h.entries| ensures FiledOrPast(e, h, i) { assert FiledOrPast(d, g, i); }
  }

  lemma SameRows(g: Groups, h: Groups)
    requires h.parts == g.parts
    ensures forall i: nat, r: nat :: InGroup(h, i, r) <==> InGroup(g, i, r)
    ensures forall r: nat :: Owed(h, r) <==> Owed(g, r)
  {
    forall i: nat, r: nat ensures InGroup(h, i, r) <==> InGroup(g, i, r) { }
    forall r: nat ensures Owed(h, r) <==> Owed(g, r) {
      if i: nat :| InGroup(g, i, r) { assert InGroup(h, i, r); }
      if i: nat :| InGroup(h, i, r) { assert InGroup(g, i, r); }
    }
  }

  /** A group named, its file being in the table. */
  ghost function Named(g: Groups, end: nat, path: nat): Groups {
    g.(entries := seq(|g.entries|, i requires 0 <= i < |g.entries| =>
      if g.entries[i].end == Some(end) && g.entries[i].name.None? then g.entries[i].(name := Some(path))
      else g.entries[i]))
  }

  lemma NameAgrees(d: Tables, g: Groups, end: nat, path: nat)
    requires Agrees(d, g) && Filed(d, end)
    ensures Agrees(d, Named(g, end, path))
  {
    hide Q.Concat, Q.Increasing, Q.Cost;
    var h := Named(g, end, path);
    forall i: nat | i < |g.entries| ensures Q.Describes(h.entries[i], h.parts[i]) {
      assert Q.Describes(g.entries[i], g.parts[i]);
    }
    forall i: nat | i < |h.entries| ensures FiledOrPast(d, h, i) { assert FiledOrPast(d, g, i); }
    SameRows(g, h);
  }

  /** Rows appended, and the queue as the append leaves it: what was closed is as it was,
      and the rows are all owed. */
  ghost predicate Appends(g: Groups, h: Groups, count: nat) {
    var n := |g.entries| - 1;
    && Queued(g) && Queued(h) && h.next == g.next + count
    && n < |h.entries| && h.entries[..n] == g.entries[..n] && h.parts[..n] == g.parts[..n]
    && (forall i :: n <= i < |h.entries| ==> h.entries[i].name.None?)
    && (forall r: nat :: Owed(h, r) <==> Owed(g, r) || g.next <= r < g.next + count)
    && (g.parts[n] <= h.parts[n])
  }

  lemma AppendAgrees(d: Tables, g: Groups, h: Groups, count: nat)
    requires FilesOk(d) && Agrees(d, g) && Appends(g, h, count)
    ensures Agrees(Appended(d, count), h)
  {
    hide Q.Queue, Tight, Loose, Disjoint, UniquePaths, RowsApart, Owed;
    var e := Appended(d, count);
    var n := |g.entries| - 1;
    FrontierIssued(d);
    assert Past(e) == Past(d) <= d.next;
    forall i: nat, r: nat | InGroup(h, i, r) ensures r in e.committed { RowOwed(h, i, r); RowCommitted(d, g, r); }
    forall i: nat | i < |h.entries|
      ensures FiledOrPast(e, h, i)
      ensures h.entries[i].name.Some? && h.entries[i].end.Some? ==> Filed(e, h.entries[i].end.value)
    {
      if i < n {
        assert h.entries[..n][i] == g.entries[..n][i];
        assert FiledOrPast(d, g, i);
      } else {
        OpenStaysPast(d, g, h, count, i);
      }
    }
  }

  lemma RowOwed(g: Groups, i: nat, r: nat)
    requires InGroup(g, i, r)
    ensures Owed(g, r)
  {
  }

  lemma RowCommitted(d: Tables, g: Groups, r: nat)
    requires Agrees(d, g)
    ensures Owed(g, r) ==> r in d.committed
  {
  }

  /** A group appended to, or after, starts where the open one did or at a new row. */
  lemma OpenStaysPast(d: Tables, g: Groups, h: Groups, count: nat, i: nat)
    requires Agrees(d, g) && Appends(g, h, count) && Past(d) <= d.next
    requires |g.entries| - 1 <= i < |h.entries|
    ensures FiledOrPast(d, h, i)
  {
    hide Q.Concat, Q.Increasing, Q.Cost, Past;
    var n := |g.entries| - 1;
    GroupSpan(h, i);
    GroupSpan(g, n);
    assert FiledOrPast(d, g, n);
    if h.entries[i].start.Some? {
      var start := h.entries[i].start.value;
      RowOwed(h, i, start);
      if start < g.next {
        var j: nat :| InGroup(g, j, start);
        GroupSpan(g, j);
        if j < n {
          assert h.parts[..n][j] == g.parts[..n][j];
          assert InGroup(h, j, start);
          GroupOrder(h, j, i, start, start);
        }
        assert Q.Describes(h.entries[i], h.parts[i]) && Q.Describes(g.entries[n], g.parts[n]);
      }
    }
  }

  /** The open group closed early, and another opened. */
  ghost function CutShort(g: Groups, end: nat): Groups
    requires |g.entries| > 0
  {
    var n := |g.entries| - 1;
    g.(entries := g.entries[..n] + [g.entries[n].(end := Some(end)), Q.Entry(None, None, 0, None)],
       parts := g.parts + [[]])
  }

  lemma CutAgrees(d: Tables, g: Groups, end: nat)
    requires Agrees(d, g) && |g.entries| > 0 && Queued(CutShort(g, end))
    ensures Agrees(d, CutShort(g, end))
  {
    hide Q.Queue;
    var h, n := CutShort(g, end), |g.entries| - 1;
    assert |g.parts| == |g.entries| by { GroupSpan(g, n); }
    forall i: nat, r: nat ensures InGroup(h, i, r) <==> InGroup(g, i, r) {
      if i < |g.parts| { assert h.parts[i] == g.parts[i]; }
    }
    forall r: nat | Owed(g, r) ensures Owed(h, r) { var i: nat :| InGroup(g, i, r); assert InGroup(h, i, r); }
    OpenIsPast(d, g);
    forall i: nat | i < |h.entries| ensures FiledOrPast(d, h, i) {
      if i <= n { assert FiledOrPast(d, g, i); }
    }
  }

  lemma OpenIsPast(d: Tables, g: Groups)
    requires Agrees(d, g)
    ensures |g.entries| > 0
    ensures var open := g.entries[|g.entries| - 1];
      open.end.None? && open.name.None? && (open.start.Some? ==> Past(d) <= open.start.value)
  {
    hide Q.Concat, Q.Increasing;
    assert FiledOrPast(d, g, |g.entries| - 1);
  }
}
