/** What each pass may come to: from any state a run reaches, with no claim in its way, it
    can be run to its end, and then this is so. Orderly runs stay orderly. */
module TierProgress {
  import opened Options
  import opened TierState
  import opened TierSteps
  import opened TierTables
  import opened TierRuns
  import opened TierTheorems
  import opened TierFailures

  lemma ReachedSafe(s: State, tidy: bool)
    requires Reached(s, tidy)
    ensures Safe(s)
  {
    hide Safe;
    if tidy { OrderedIsReached(s); }
    ReachableSafe(s);
  }

  lemma Ended(ops: map<nat, Op>, id: nat, op: Op)
    requires id !in ops
    ensures ops[id := op] - {id} == ops
  {
  }

  // ----- a bulk load -----

  /** A load of `count` rows, once every row is filed, lands as one staging file. */
  lemma LoadMayFinish(s: State, id: nat, path: nat, count: nat, tidy: bool) returns (t: State)
    requires Reached(s, tidy) && id !in s.ops && Unclaimed(s, Everything)
    requires count > 0 && path !in s.d.names
    requires forall r :: r in s.d.committed && s.d.low <= r ==>
      (exists f :: f in s.d.staging && r < f.end) || exists p :: p in s.d.published && r < p.end
    ensures Reached(t, tidy) && t.ops == s.ops && t.d.published == s.d.published && t.d.buffer == s.d.buffer
    ensures t.d.next == s.d.next + count
    ensures forall r :: r in t.d.committed <==> r in s.d.committed || s.d.next <= r < s.d.next + count
    ensures forall f :: f in t.d.staging <==> (f in s.d.staging || IsLoad(f, path, s.d.next, s.d.next + count))
  {
    hide Reached, Unclaimed, IsLoad, IngestFile;
    ReachedSafe(s, tidy);
    NextAbove(s);
    AllFiled(s.d);
    On(s, Reserve(count), tidy);
    var a := State(s.d.(next := s.d.next + count), s.ops);
    assert Apply(s, Reserve(count)) == a;
    UnclaimedSame(s, a, Everything);
    SameFrontier(s.d, a.d);
    LoadsAt(a, id, path, s.d.next, a.d.next, tidy);
    t := State(IngestFile(a.d, File(path, s.d.next, a.d.next, Sequence(s.d.next, count))), s.ops);
    IngestedIs(a.d, path, s.d.next, a.d.next);
  }

  lemma NextAbove(s: State)
    requires Safe(s)
    ensures 1 <= s.d.next && s.d.low <= s.d.next && forall r :: r in s.d.committed ==> r < s.d.next
  {
  }

  /** A file of a load: every offset of its range is a row of it. */
  ghost predicate IsLoad(f: File, path: nat, start: nat, end: nat) {
    f.path == path && f.start == start && f.end == end && forall r :: r in f.rows <==> start <= r < end
  }

  lemma IngestedIs(d: Tables, path: nat, start: nat, end: nat)
    requires start <= end
    ensures var t := IngestFile(d, File(path, start, end, Sequence(start, end - start)));
      && t.published == d.published && t.buffer == d.buffer && t.next == d.next
      && (forall r :: r in t.committed <==> r in d.committed || start <= r < end)
      && forall f :: f in t.staging <==> (f in d.staging || IsLoad(f, path, start, end))
  {
    forall f ensures f == File(path, start, end, Sequence(start, end - start)) <==> IsLoad(f, path, start, end) {
      if IsLoad(f, path, start, end) { assert f.rows == Sequence(start, end - start); }
    }
    hide IsLoad;
  }

  lemma LoadsAt(s: State, id: nat, path: nat, start: nat, end: nat, tidy: bool)
    requires Reached(s, tidy) && id !in s.ops && Unclaimed(s, Everything) && path !in s.d.names
    requires forall r :: r in s.d.committed && s.d.low <= r ==> r < Frontier(s.d)
    requires 1 <= start < end <= s.d.next && s.d.low <= start && forall r :: r in s.d.committed ==> r < start
    ensures Reached(State(IngestFile(s.d, File(path, start, end, Sequence(start, end - start))), s.ops), tidy)
  {
    hide Reached, Unclaimed, IngestFile;
    var f := File(path, start, end, Sequence(start, end - start));
    On(s, ClaimIngest(id), tidy);
    var b := State(s.d, s.ops[id := Ingesting]);
    assert Apply(s, ClaimIngest(id)) == b;
    On(b, RegisterIngest(id, path, start, end), tidy);
    var c := State(IngestFile(s.d, f), b.ops);
    assert Apply(b, RegisterIngest(id, path, start, end)) == c;
    Drops(c, id, tidy);
    Ended(s.ops, id, Ingesting);
  }

  lemma AllFiled(d: Tables)
    requires forall r :: r in d.committed && d.low <= r ==>
      (exists f :: f in d.staging && r < f.end) || exists p :: p in d.published && r < p.end
    ensures forall r :: r in d.committed && d.low <= r ==> r < Frontier(d)
  {
  }

  lemma SameFrontier(a: Tables, b: Tables)
    requires a.staging == b.staging && a.published == b.published
    ensures Frontier(a) == Frontier(b)
  {
  }

  lemma UnclaimedSame(a: State, b: State, range: Range)
    requires a.ops == b.ops && Unclaimed(a, range)
    ensures Unclaimed(b, range)
  {
  }

  // ----- evictions -----

  /** An eviction up to a published file's end leaves the staging files past it, and the
      others' names queued. */
  lemma EvictionMayFinish(s: State, id: nat, top: File, tidy: bool) returns (t: State)
    requires Reached(s, tidy) && id !in s.ops && Unclaimed(s, Span(0, top.end))
    requires top in s.d.staging && top.end <= s.d.through + 1
    ensures Reached(t, tidy) && t.ops == s.ops && t.d.published == s.d.published && t.d.buffer == s.d.buffer
    ensures forall f :: f in t.d.staging <==> f in s.d.staging && top.end < f.end
    ensures forall f :: f in s.d.staging && f.end <= top.end ==> f.path in t.d.queued
  {
    hide Reached, Unclaimed, Leaving;
    On(s, ClaimEvict(id, top.end), tidy);
    var a := State(s.d, s.ops[id := Evicting(top.end)]);
    assert Apply(s, ClaimEvict(id, top.end)) == a;
    On(a, DecideEvict(id, top.end), tidy);
    var b := State(Leaving(s.d, top.end), s.ops[id := Dropping(top.end, top.end)]);
    assert Apply(a, DecideEvict(id, top.end)) == b;
    t := Evicts(s.d, b, id, top.end, tidy);
    Ended(s.ops, id, Dropping(top.end, top.end));
  }

  lemma Evicts(d: Tables, s: State, id: nat, below: nat, tidy: bool) returns (t: State)
    requires Reached(s, tidy) && id in s.ops && s.ops[id] == Dropping(below, below) && s.d == Leaving(d, below)
    ensures Reached(t, tidy) && t.ops == s.ops - {id} && t.d.published == d.published && t.d.buffer == d.buffer
    ensures forall f :: f in t.d.staging <==> f in d.staging && below < f.end
    ensures forall f :: f in d.staging && f.end <= below ==> f.path in t.d.queued
  {
    hide Reached;
    On(s, CommitEvict(id), tidy);
    t := Apply(s, CommitEvict(id));
  }

  /** The buffer may lose every row the watermark covers, and only those. */
  lemma BufferMayEmpty(s: State, tidy: bool) returns (t: State)
    requires Reached(s, tidy)
    ensures Reached(t, tidy) && t.ops == s.ops && t.d.staging == s.d.staging && t.d.published == s.d.published
    ensures forall r :: r in t.d.buffer <==> r in s.d.buffer && s.d.through < r
  {
    hide Reached;
    On(s, EvictBuffer(0, s.d.through + 1), tidy);
    t := Apply(s, EvictBuffer(0, s.d.through + 1));
  }

  // ----- the watermark -----

  /** Whoever looks at the published table may raise the watermark to its last row, and
      forget the intents of the copies seen there. */
  lemma WatermarkMayCatchUp(s: State, id: nat, landed: set<nat>, tidy: bool) returns (t: State)
    requires Reached(s, tidy) && id !in s.ops && landed <= Paths(s.d.published)
    ensures Reached(t, tidy) && t.ops == s.ops && t.d.staging == s.d.staging && t.d.published == s.d.published
    ensures t.d.through >= s.d.through && forall p :: p in t.d.published ==> p.end <= t.d.through + 1
    ensures forall i :: i in t.d.intents <==> i in s.d.intents && i.path !in landed
  {
    hide Reached, ConfirmedTo;
    On(s, SawPublished(id, landed), tidy);
    var a := State(s.d, s.ops[id := Confirming(End(s.d.published), landed)]);
    assert Apply(s, SawPublished(id, landed)) == a;
    On(a, Confirm(id), tidy);
    t := State(ConfirmedTo(s.d, End(s.d.published), landed), a.ops - {id});
    assert Apply(a, Confirm(id)) == t;
    Ended(s.ops, id, Confirming(End(s.d.published), landed));
    CaughtUp(s.d, landed);
  }

  lemma CaughtUp(d: Tables, landed: set<nat>)
    ensures var t := ConfirmedTo(d, End(d.published), landed);
      && t.staging == d.staging && t.published == d.published
      && t.through >= d.through && (forall p :: p in t.published ==> p.end <= t.through + 1)
      && forall i :: i in t.intents <==> i in d.intents && i.path !in landed
  {
  }

  // ----- a truncation -----

  /** A truncation at a floor no file straddles ends with nothing below it anywhere. */
  lemma TruncationMayFinish(s: State, id: nat, floor: nat, tidy: bool) returns (t: State)
    requires Reached(s, tidy) && id !in s.ops && Unclaimed(s, Everything) && floor <= s.d.through + 1
    requires forall f :: f in s.d.staging + s.d.published ==> f.end <= floor || floor <= f.start
    ensures Reached(t, tidy) && t.ops == s.ops && t.d.low >= floor
    ensures forall r :: r in t.d.buffer <==> r in s.d.buffer && floor <= r
    ensures forall f :: f in t.d.staging <==> f in s.d.staging && floor < f.end
    ensures forall f :: f in t.d.published <==> f in s.d.published && floor < f.end
  {
    hide Reached, Unclaimed, Cut;
    On(s, ClaimTruncate(id, floor), tidy);
    var a := State(s.d, s.ops[id := Truncating(floor, 0)]);
    assert Apply(s, ClaimTruncate(id, floor)) == a;
    var b := CutsBuffer(a, id, floor, tidy);
    var c := CutsTables(b, id, floor, tidy);
    Drops(c, id, tidy);
    t := State(c.d, c.ops - {id});
    Ended(s.ops, id, Truncating(floor, 3));
    CutIs(s.d, b.d, c.d, floor);
  }

  /** Each table without what ends by the floor, and the buffer without what is below it. */
  ghost predicate Cut(d: Tables, t: Tables, floor: nat) {
    && t.low >= floor
    && (forall f :: f in t.staging <==> f in d.staging && floor < f.end)
    && (forall f :: f in t.published <==> f in d.published && floor < f.end)
  }

  lemma CutsBuffer(s: State, id: nat, floor: nat, tidy: bool) returns (t: State)
    requires Reached(s, tidy) && id in s.ops && s.ops[id] == Truncating(floor, 0)
    ensures Reached(t, tidy) && t.ops == s.ops[id := Truncating(floor, 1)]
    ensures t.d.staging == s.d.staging && t.d.published == s.d.published
    ensures forall r :: r in t.d.buffer <==> r in s.d.buffer && floor <= r
  {
    hide Reached;
    On(s, TruncateBuffer(id), tidy);
    t := Apply(s, TruncateBuffer(id));
  }

  lemma CutsTables(s: State, id: nat, floor: nat, tidy: bool) returns (t: State)
    requires Reached(s, tidy) && id in s.ops && s.ops[id] == Truncating(floor, 1)
    ensures Reached(t, tidy) && t.ops == s.ops[id := Truncating(floor, 3)]
    ensures t.d.buffer == s.d.buffer && Cut(s.d, t.d, floor)
  {
    var a := CutsStaging(s, id, floor, tidy);
    t := CutsPublished(a, id, floor, tidy);
    hide Reached;
  }

  lemma CutsStaging(s: State, id: nat, floor: nat, tidy: bool) returns (t: State)
    requires Reached(s, tidy) && id in s.ops && s.ops[id] == Truncating(floor, 1)
    ensures Reached(t, tidy) && t.ops == s.ops[id := Truncating(floor, 2)]
    ensures t.d.buffer == s.d.buffer && t.d.published == s.d.published
    ensures forall f :: f in t.d.staging <==> f in s.d.staging && floor < f.end
  {
    hide Reached;
    On(s, TruncateStaging(id), tidy);
    t := Apply(s, TruncateStaging(id));
  }

  lemma CutsPublished(s: State, id: nat, floor: nat, tidy: bool) returns (t: State)
    requires Reached(s, tidy) && id in s.ops && s.ops[id] == Truncating(floor, 2)
    ensures Reached(t, tidy) && t.ops == s.ops[id := Truncating(floor, 3)]
    ensures t.d.buffer == s.d.buffer && t.d.staging == s.d.staging && t.d.low >= floor
    ensures forall f :: f in t.d.published <==> f in s.d.published && floor < f.end
  {
    hide Reached;
    On(s, TruncatePublished(id), tidy);
    t := Apply(s, TruncatePublished(id));
  }

  lemma CutIs(a: Tables, b: Tables, c: Tables, floor: nat)
    requires b.staging == a.staging && b.published == a.published && Cut(b, c, floor)
    ensures c.low >= floor
    ensures forall f :: f in c.staging <==> f in a.staging && floor < f.end
    ensures forall f :: f in c.published <==> f in a.published && floor < f.end
  {
  }

  // ----- the deletion queue -----

  lemma Widens(s: State, rows: set<nat>, tidy: bool)
    requires Reached(s, tidy)
    ensures Reached(State(s.d.(tier := Widened(s.d.tier, rows)), s.ops), tidy)
  {
    hide Reached;
    On(s, WidenTier(rows), tidy);
  }

  lemma Queues(s: State, path: nat, tidy: bool)
    requires Reached(s, tidy)
    ensures Reached(State(s.d.(queued := s.d.queued + {path}), s.ops), tidy)
  {
    hide Reached;
    On(s, Enqueue(path), tidy);
  }

  lemma Drains(s: State, path: nat, tidy: bool)
    requires Reached(s, tidy) && !NamesIn(s.d.staging, path) && !NamesIn(s.d.published, path)
    ensures Reached(State(s.d.(queued := s.d.queued - {path}), s.ops), tidy)
  {
    hide Reached, NamesIn;
    On(s, Drain(path), tidy);
  }

  /** A name queued by anyone, at any time, is drained once no table refers to it; and the
      tier row may be widened at any time. */
  lemma QueueMayDrain(s: State, path: nat, rows: set<nat>, tidy: bool) returns (t: State)
    requires Reached(s, tidy)
    ensures Reached(t, tidy) && t.ops == s.ops && t.d.staging == s.d.staging && t.d.published == s.d.published
    ensures t.d.tier.Some? <==> s.d.tier.Some?
    ensures t.d.tier.Some? ==> t.d.tier.value == s.d.tier.value + rows
    ensures path in t.d.queued <==> exists f :: (f in s.d.staging || f in s.d.published) && f.path == path
  {
    hide Reached;
    Widens(s, rows, tidy);
    var a := State(s.d.(tier := Widened(s.d.tier, rows)), s.ops);
    Queues(a, path, tidy);
    t := State(a.d.(queued := a.d.queued + {path}), a.ops);
    if !NamesIn(s.d.staging, path) && !NamesIn(s.d.published, path) {
      Drains(t, path, tidy);
      t := State(t.d.(queued := t.d.queued - {path}), t.ops);
    }
  }
}
