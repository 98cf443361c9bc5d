/** Rows arriving, appended, sealed or bulk loaded, keep what the durable tables promise. */
module TierTables {
  import opened TierState
  import opened TierSteps

  // ----- spans of changed tables -----

  lemma EndOfUnion(a: set<File>, b: set<File>)
    ensures End(a + b) == Later(End(a), End(b))
  {
    if a + b == {} {
      assert a == {} && b == {};
    } else {
      var f :| f in a + b && f.end == End(a + b);
      if a != {} { var g :| g in a && g.end == End(a); assert g in a + b; }
      if b != {} { var g :| g in b && g.end == End(b); assert g in a + b; }
    }
  }

  lemma StartKept(a: set<File>, b: set<File>)
    requires a != {}
    requires forall g :: g in b ==> Start(a) <= g.start
    ensures Start(a + b) == Start(a)
  {
    var f :| f in a && f.start == Start(a);
    assert f in a + b;
    var g :| g in a + b && g.start == Start(a + b);
  }

  lemma EndAbove(fs: set<File>, below: nat)
    ensures Above(fs, below) != {} ==> End(Above(fs, below)) == End(fs)
    ensures Above(fs, below) == {} ==> End(fs) <= below
  {
    if fs != {} {
      var f :| f in fs && f.end == End(fs);
      if below < f.end { assert f in Above(fs, below); }
    }
  }

  /** A table's rows lie in its span. */
  lemma HeldInSpan(fs: set<File>, committed: set<nat>, r: nat)
    requires AllLoose(fs, committed)
    ensures Holds(fs, r) ==> Start(fs) <= r < End(fs) && r in committed
  {
    if Holds(fs, r) {
      var f :| f in fs && r in f.rows;
      assert Loose(f, committed);
    }
  }

  /** A whole file is a loose one. */
  lemma TightIsLoose(fs: set<File>, committed: set<nat>)
    requires forall f :: f in fs ==> Tight(f, committed)
    ensures AllLoose(fs, committed)
  {
    forall f | f in fs ensures Loose(f, committed) {
      assert Tight(f, committed);
    }
  }

  lemma WrittenLoose(d: Tables, fs: set<File>)
    requires AllTight(d.written, d.committed) && fs <= d.written
    ensures AllLoose(fs, d.committed)
  {
    forall f | f in fs ensures Tight(f, d.committed) { }
    TightIsLoose(fs, d.committed);
  }

  lemma LooseAfterGrowth(fs: set<File>, committed: set<nat>, rows: set<nat>)
    requires AllLoose(fs, committed)
    ensures AllLoose(fs, committed + rows)
  {
    forall f | f in fs ensures Loose(f, committed + rows) {
      assert Loose(f, committed);
    }
  }

  lemma PublishedIssued(d: Tables)
    requires FilesOk(d)
    ensures End(d.published) <= d.next
  {
    if d.published != {} {
      var p :| p in d.published && p.end == End(d.published);
      assert Loose(p, d.committed);
    }
  }

  /** What orderly runs keep besides reads only the files, the watermark and the intents. */
  lemma NeatAlike(d: Tables, e: Tables)
    requires Neat(d)
    requires e.staging == d.staging && e.published == d.published && d.written <= e.written
    requires e.through == d.through && d.intents <= e.intents
    ensures Neat(e)
  {
  }

  // ----- rows arriving -----

  lemma AppendKeeps(d: Tables, count: nat)
    requires SafeOk(d)
    ensures SafeOk(Appended(d, count))
  {
    FrontierIssued(d);
    AppendFiles(d, count);
    AppendLegs(d, count);
  }

  lemma AppendFiles(d: Tables, count: nat)
    requires FilesOk(d)
    ensures FilesOk(Appended(d, count))
  {
    FrontierIssued(d);
    TightAfterGrowth(d, Sequence(d.next, count));
    LooseAfterGrowth(d.published, d.committed, Sequence(d.next, count));
  }

  lemma AppendLegs(d: Tables, count: nat)
    requires FilesOk(d) && Legs(d)
    ensures Legs(Appended(d, count))
  {
    FrontierIssued(d);
    var e := Appended(d, count);
    assert Frontier(e) == Frontier(d);
    forall r | r in e.committed ensures r in d.committed || (d.next <= r && r in e.buffer) { }
    forall r | r in e.committed && r < d.next ensures r in d.committed { }
    assert End(d.staging) <= d.next && End(d.published) <= d.next;
    if d.staging != {} {
      var f :| f in d.staging && f.start == Start(d.staging);
      assert Tight(f, d.committed);
    }
  }

  lemma ReserveKeeps(d: Tables, count: nat)
    requires SafeOk(d)
    ensures SafeOk(d.(next := d.next + count))
  {
    UnfiledUnread(d, d.(next := d.next + count));
  }

  lemma TightAfterGrowth(d: Tables, rows: set<nat>)
    requires FilesOk(d)
    requires forall r :: r in rows ==> forall f :: f in d.written ==> f.end <= r
    ensures forall f :: f in d.written ==> Tight(f, d.committed + rows)
  {
    forall f | f in d.written ensures Tight(f, d.committed + rows) {
      assert Tight(f, d.committed);
    }
  }

  lemma FrontierIssued(d: Tables)
    requires FilesOk(d)
    ensures Frontier(d) <= d.next
    ensures d.low <= d.next
    ensures forall f :: f in d.written ==> f.end <= d.next
  {
    PublishedIssued(d);
    forall f | f in d.written ensures f.end <= d.next {
      assert Tight(f, d.committed);
    }
  }

  // ----- a seal -----

  /** New files, each holding the committed rows it spans. */
  ghost function FilesAdded(d: Tables, fs: set<File>, names: set<nat>): Tables {
    d.(written := d.written + fs, names := d.names + names)
  }

  ghost predicate NewFiles(d: Tables, fs: set<File>, names: set<nat>) {
    && (forall f :: f in fs ==> Tight(f, d.committed) && f.path !in d.names && f.path in names)
    && UniquePaths(fs)
  }

  lemma UniqueWith(written: set<File>, fs: set<File>, names: set<nat>)
    requires UniquePaths(written) && UniquePaths(fs)
    requires forall f :: f in written ==> f.path in names
    requires forall f :: f in fs ==> f.path !in names
    ensures UniquePaths(written + fs)
  {
  }

  lemma DisjointWith(fs: set<File>, f: File)
    requires Disjoint(fs)
    requires forall g :: g in fs ==> Apart(f, g)
    ensures Disjoint(fs + {f})
  {
  }

  lemma FilesAddedOk(d: Tables, fs: set<File>, names: set<nat>)
    requires FilesOk(d) && NewFiles(d, fs, names)
    ensures FilesOk(FilesAdded(d, fs, names))
  {
    var e := FilesAdded(d, fs, names);
    UniqueWith(d.written, fs, d.names);
    forall f | f in e.written ensures f.start < f.end && Tight(f, e.committed) && f.path in e.names {
      assert Tight(f, d.committed);
    }
  }

  lemma FilesAddedKeeps(d: Tables, fs: set<File>, names: set<nat>)
    requires SafeOk(d) && NewFiles(d, fs, names)
    ensures SafeOk(FilesAdded(d, fs, names))
  {
    FilesAddedOk(d, fs, names);
    UnfiledUnread(d, FilesAdded(d, fs, names));
  }

  /** Beside `FilesOk`, the tables' promises read only what two tables share. */
  lemma UnfiledUnread(d: Tables, e: Tables)
    requires Legs(d) && Watermark(d) && TierRow(d)
    requires e.committed == d.committed && e.low == d.low && e.buffer == d.buffer
    requires e.staging == d.staging && e.published == d.published
    requires e.through == d.through && e.tier == d.tier
    ensures Legs(e) && Watermark(e) && TierRow(e)
  {
  }

  lemma SealWrittenKeeps(d: Tables, op: Op, path: nat)
    requires SafeOk(d) && op.Sealing? && GroupOk(d, op.lo, op.hi) && path !in d.names
    ensures SafeOk(SealWritten(d, op, path))
  {
    if Filed(d, op.hi) {
      FilesAddedKeeps(d, {}, {path});
      assert d.written + {} == d.written;
    } else {
      SealFileTight(d, op, path);
      FilesAddedKeeps(d, {SealFile(d, op, path)}, {path});
    }
  }

  lemma SealFileTight(d: Tables, op: Op, path: nat)
    requires SafeOk(d) && op.Sealing? && GroupOk(d, op.lo, op.hi) && !Filed(d, op.hi)
    ensures Tight(SealFile(d, op, path), d.committed)
  {
    BufferedWhole(d, op.lo, op.hi);
  }

  /** From the first unfiled row up, the buffer holds every committed row. */
  lemma BufferedWhole(d: Tables, lo: nat, hi: nat)
    requires d.buffer <= d.committed && Legs(d) && Head(d, lo)
    ensures forall r :: r in d.buffer && lo <= r < hi <==> r in d.committed && lo <= r < hi
  {
  }

  /** A file added on top of everything filed so far. */
  lemma StagedFiles(d: Tables, f: File)
    requires FilesOk(d) && f in d.written && d.low <= f.start && Frontier(d) <= f.start
    ensures FilesOk(d.(staging := d.staging + {f}))
  {
  }

  lemma StagedSpan(d: Tables, f: File)
    requires f.start < f.end && Frontier(d) <= f.start
    requires forall g :: g in d.staging ==> g.start < g.end
    ensures End(d.staging + {f}) == f.end
    ensures d.staging != {} ==> Start(d.staging + {f}) == Start(d.staging)
    ensures d.staging == {} ==> Start(d.staging + {f}) == f.start
  {
    EndOfUnion(d.staging, {f});
    if d.staging == {} {
      assert d.staging + {f} == {f};
    } else {
      var g :| g in d.staging && g.start == Start(d.staging);
      StartKept(d.staging, {f});
    }
  }

  lemma RegisterKeeps(d: Tables, f: File)
    requires SafeOk(d) && GroupOk(d, f.start, f.end) && (f in d.written || Filed(d, f.end))
    ensures SafeOk(RegisterFile(d, f))
  {
    if !Filed(d, f.end) {
      StagedSpan(d, f);
      StagedLegs(d, f);
      StagedFiles(d, f);
      StagedWatermark(d, f);
    }
  }

  lemma RegisterNeat(d: Tables, f: File)
    requires Neat(d) && f.start < f.end && (Filed(d, f.end) || Frontier(d) <= f.start)
    ensures Neat(RegisterFile(d, f))
  {
    if !Filed(d, f.end) { StagedNeat(d, f); }
  }

  lemma StagedLegs(d: Tables, f: File)
    requires FilesOk(d) && Legs(d) && Head(d, f.start) && f in d.written
    ensures Legs(d.(staging := d.staging + {f}))
  {
    var e := d.(staging := d.staging + {f});
    StagedSpan(d, f);
    assert Tight(f, d.committed);
    assert Frontier(e) == f.end;
    forall r | r in e.committed && Start(e.staging) <= r < End(e.staging)
      ensures Holds(e.staging, r)
    {
      if f.start <= r {
        assert r in f.rows && f in e.staging;
      } else {
        assert d.staging != {} && r < Frontier(d);
        if r < End(d.staging) {
          assert Holds(d.staging, r);
          var g :| g in d.staging && r in g.rows;
          assert g in e.staging;
        }
      }
    }
    forall r | r in e.committed && e.low <= r < Start(e.staging)
      ensures Holds(e.published, r)
    {
      if d.staging == {} { assert r < End(d.published); }
    }
  }

  lemma StagedWatermark(d: Tables, f: File)
    requires SafeOk(d) && f in d.written && Frontier(d) <= f.start
    ensures var e := d.(staging := d.staging + {f});
      Watermark(e) && TierRow(e)
  {
    hide Legs, Tight, Loose, UniquePaths, Disjoint, RowsApart, Holds;
    StagedSpan(d, f);
    var e := d.(staging := d.staging + {f});
    forall p, r | p in d.published && r in p.rows && BelowStaging(e, r) ensures BelowStaging(d, r) { }
  }

  lemma StagedNeat(d: Tables, f: File)
    requires Neat(d) && f.start < f.end && Frontier(d) <= f.start
    ensures Neat(d.(staging := d.staging + {f}))
  {
    hide Disjoint;
  }

  // ----- a bulk load -----

  ghost predicate LoadOk(d: Tables, f: File) {
    && f.path !in d.names
    && 1 <= f.start < f.end <= d.next
    && d.low <= f.start
    && f.rows == Sequence(f.start, f.end - f.start)
    && (forall r :: r in d.committed ==> r < f.start)
    && (forall r :: r in d.committed && d.low <= r ==> r < Frontier(d))
  }

  lemma LoadAbove(d: Tables, f: File)
    requires FilesOk(d) && LoadOk(d, f)
    ensures Frontier(d) <= f.start
    ensures forall g :: g in d.written ==> g.end <= f.start
  {
    forall g | g in d.written ensures g.end <= f.start {
      assert Tight(g, d.committed);
    }
    if d.published != {} {
      var p :| p in d.published && p.end == End(d.published);
      assert Loose(p, d.committed);
    }
  }

  lemma LoadTight(d: Tables, f: File)
    requires FilesOk(d) && LoadOk(d, f)
    ensures forall g :: g in IngestFile(d, f).written ==> Tight(g, IngestFile(d, f).committed)
  {
    LoadAbove(d, f);
    forall g | g in IngestFile(d, f).written ensures Tight(g, d.committed + f.rows) {
      if g != f { assert Tight(g, d.committed); }
    }
  }

  lemma LoadFiles(d: Tables, f: File)
    requires FilesOk(d) && LoadOk(d, f)
    ensures FilesOk(IngestFile(d, f))
  {
    LoadAbove(d, f);
    LoadTight(d, f);
    LooseAfterGrowth(d.published, d.committed, f.rows);
    UniqueWith(d.written, {f}, d.names);
    DisjointWith(d.staging, f);
  }

  lemma LoadLegs(d: Tables, f: File)
    requires FilesOk(d) && Legs(d) && LoadOk(d, f)
    ensures Legs(IngestFile(d, f))
  {
    var e := IngestFile(d, f);
    LoadAbove(d, f);
    StagedSpan(d, f);
    assert f in e.staging;
    assert Frontier(e) == f.end;
    forall r | r in e.committed && Start(e.staging) <= r < End(e.staging)
      ensures Holds(e.staging, r)
    {
      if r in d.committed {
        if d.staging != {} {
          if d.low <= r && r < End(d.staging) {
            assert Holds(d.staging, r);
            var g :| g in d.staging && r in g.rows;
            assert g in e.staging;
          }
          var g :| g in d.staging && g.start == Start(d.staging);
        }
      } else {
        assert r in f.rows;
      }
    }
    forall r | r in e.committed && e.low <= r < Start(e.staging)
      ensures Holds(e.published, r)
    {
      assert r in d.committed;
      if d.staging == {} { assert r < End(d.published); }
    }
    forall r | r in e.committed && e.low <= r < End(e.published)
      ensures Holds(e.published, r)
    {
      assert r < f.start;
      assert r in d.committed;
    }
  }

  lemma LoadWatermark(d: Tables, f: File)
    requires SafeOk(d) && LoadOk(d, f)
    ensures Watermark(IngestFile(d, f))
  {
    hide Legs, Tight, Loose, UniquePaths, Disjoint, RowsApart, TierRow, Holds;
    LoadAbove(d, f);
    StagedSpan(d, f);
    ThroughBelow(d, f);
  }

  lemma ThroughBelow(d: Tables, f: File)
    requires SafeOk(d) && LoadOk(d, f)
    ensures d.through < f.start
  {
    hide Legs, Tight, Loose, UniquePaths, Disjoint, RowsApart, TierRow;
    LoadAbove(d, f);
  }

  lemma LoadTier(d: Tables, f: File)
    requires SafeOk(d) && LoadOk(d, f)
    ensures TierRow(IngestFile(d, f))
  {
    hide Legs, Tight, Loose, UniquePaths, Disjoint, RowsApart, Watermark, Holds;
    LoadAbove(d, f);
    StagedSpan(d, f);
    var e := IngestFile(d, f);
    forall p, r | p in d.published && r in p.rows && BelowStaging(e, r) ensures BelowStaging(d, r) { }
  }

  lemma LoadNeat(d: Tables, f: File)
    requires FilesOk(d) && Neat(d) && LoadOk(d, f)
    ensures Neat(IngestFile(d, f))
  {
    LoadAbove(d, f);
    StagedNeat(d, f);
    NeatAlike(d.(staging := d.staging + {f}), IngestFile(d, f));
  }

  lemma LoadKeeps(d: Tables, f: File)
    requires SafeOk(d) && LoadOk(d, f)
    ensures SafeOk(IngestFile(d, f))
  {
    LoadFiles(d, f);
    LoadLegs(d, f);
    LoadWatermark(d, f);
    LoadTier(d, f);
  }
}
