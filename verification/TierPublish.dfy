/** Publishing keeps what the durable tables promise: a push adds whole staging files
    on top, and a swap loses no row and files none twice, whatever its range cuts. A
    swap that still lines up replaces whole published files. */
module TierPublish {
  import opened Options
  import opened TierState
  import opened TierSteps
  import opened TierTables

  // ----- a push -----

  ghost predicate PushOk(d: Tables, files: set<File>, upTo: nat) {
    && files != {}
    && files <= d.staging
    && upTo == End(files)
    && (forall u :: u in files ==> End(d.published) <= u.start)
    && (forall g :: g in d.staging ==> g.end <= Base(d) || g in files || upTo <= g.start)
  }

  /** `register` adds files none of which starts inside the span. */
  lemma RegistersOk(d: Tables, range: Range, phase: Phase)
    requires phase.Pushing? && PhaseSafe(d, range, phase) && PushRegisters(d, phase.files)
    ensures PushOk(d, phase.files, phase.upTo) && PushIn(d, phase.files) == Pushed(d, phase.files)
  {
  }

  ghost predicate AllProtected(d: Tables, files: set<File>) {
    forall u :: u in files ==> Protected(d, u)
  }

  ghost function Pushed(d: Tables, files: set<File>): Tables {
    d.(published := d.published + files)
  }

  lemma PushedSpan(d: Tables, files: set<File>, upTo: nat)
    requires FilesOk(d) && PushOk(d, files, upTo)
    ensures End(Pushed(d, files).published) == upTo
    ensures End(d.published) < upTo <= End(d.staging)
  {
    EndOfUnion(d.published, files);
    var u :| u in files && u.end == End(files);
  }

  lemma PushedFilesOk(d: Tables, files: set<File>, upTo: nat)
    requires FilesOk(d) && PushOk(d, files, upTo)
    ensures FilesOk(Pushed(d, files))
  {
    WrittenLoose(d, files);
    PushedLoose(d, files);
    PushedApart(d, files);
  }

  lemma PushedLoose(d: Tables, files: set<File>)
    requires AllLoose(d.published, d.committed) && AllLoose(files, d.committed)
    ensures AllLoose(d.published + files, d.committed)
  {
  }

  lemma PushedApart(d: Tables, files: set<File>)
    requires RowsApart(d.published) && Disjoint(files)
    requires AllLoose(d.published, d.committed) && AllLoose(files, d.committed)
    requires forall u :: u in files ==> End(d.published) <= u.start
    ensures RowsApart(d.published + files)
  {
    forall f, g, r | f in d.published + files && g in d.published + files && r in f.rows && r in g.rows
      ensures f == g
    {
      assert Loose(f, d.committed) && Loose(g, d.committed);
      assert f in files && g in files ==> f == g || Apart(f, g);
    }
  }

  lemma PushedDisjoint(published: set<File>, staging: set<File>, files: set<File>)
    requires Disjoint(published) && Disjoint(staging) && files <= staging
    requires forall u :: u in files ==> End(published) <= u.start
    ensures Disjoint(published + files)
  {
  }

  /** Between the old end and the new one, a push leaves no committed row behind. */
  lemma PushedRow(d: Tables, files: set<File>, upTo: nat, r: nat)
    requires FilesOk(d) && Legs(d) && PushOk(d, files, upTo)
    requires r in d.committed && d.low <= r && End(d.published) <= r < upTo
    ensures Holds(files, r)
  {
    PushedSpan(d, files, upTo);
    assert Start(d.staging) <= r by {
      if r < Start(d.staging) {
        assert Holds(d.published, r);
        HeldInSpan(d.published, d.committed, r);
      }
    }
    assert Holds(d.staging, r);
    var g :| g in d.staging && r in g.rows;
    assert Tight(g, d.committed);
    assert d.low <= r && End(d.published) <= r < g.end;
  }

  lemma PushedLegs(d: Tables, files: set<File>, upTo: nat)
    requires FilesOk(d) && Legs(d) && PushOk(d, files, upTo)
    ensures Legs(Pushed(d, files))
  {
    var e := Pushed(d, files);
    PushedSpan(d, files, upTo);
    forall r | r in e.committed && e.low <= r < End(e.published) ensures Holds(e.published, r) {
      if r < End(d.published) {
        assert Holds(d.published, r);
      } else {
        PushedRow(d, files, upTo, r);
      }
    }
    forall r | r in e.committed && e.low <= r < Start(e.staging) ensures Holds(e.published, r) {
      assert Holds(d.published, r);
    }
  }

  lemma PushedWatermark(d: Tables, files: set<File>, upTo: nat)
    requires FilesOk(d) && Watermark(d) && PushOk(d, files, upTo)
    ensures Watermark(Pushed(d, files))
  {
    var e := Pushed(d, files);
    PushedSpan(d, files, upTo);
    forall r | r in e.committed && e.low <= r <= e.through ensures Holds(e.published, r) {
      assert Holds(d.published, r);
    }
    assert e.through < upTo by {
      var u :| u in files;
      assert Tight(u, d.committed);
      assert u.start <= d.through ==> Holds(d.published, u.start);
    }
  }

  lemma PushedCovered(d: Tables, files: set<File>, upTo: nat)
    requires FilesOk(d) && Covered(d) && PushOk(d, files, upTo) && AllProtected(d, files)
    ensures Covered(Pushed(d, files))
  {
    PushedSpan(d, files, upTo);
  }

  lemma PushedAligned(d: Tables, files: set<File>)
    requires FilesOk(d) && Aligned(d.staging, d.published) && files <= d.staging
    ensures Aligned(d.staging, d.published + files)
  {
    forall f, u | f in d.staging && u in files ensures !Inside(f.start, u) && !Inside(f.end, u) {
      assert f == u || Apart(f, u);
    }
  }

  lemma PushedTier(d: Tables, files: set<File>)
    requires AllTight(d.written, d.committed) && d.staging <= d.written
    requires TierRow(d) && files <= d.staging
    ensures TierRow(Pushed(d, files))
  {
    var e := Pushed(d, files);
    forall u, r | u in files && r in u.rows ensures !BelowStaging(e, r) {
      assert Tight(u, d.committed);
    }
  }

  lemma PushKeeps(d: Tables, files: set<File>, upTo: nat)
    requires SafeOk(d) && PushOk(d, files, upTo)
    ensures SafeOk(Pushed(d, files))
  {
    PushedFilesOk(d, files, upTo);
    PushedLegs(d, files, upTo);
    PushedWatermark(d, files, upTo);
    PushedTier(d, files);
  }

  lemma PushKeepsNeat(d: Tables, files: set<File>, upTo: nat)
    requires FilesOk(d) && Neat(d) && PushOk(d, files, upTo) && AllProtected(d, files)
    ensures Neat(Pushed(d, files))
  {
    PushedDisjoint(d.published, d.staging, files);
    PushedCovered(d, files, upTo);
    PushedAligned(d, files);
  }

  // ----- a swap -----

  /** After a swap the published table holds just what it did, and the file's rows. */
  lemma SwapRows(d: Tables, m: File, cuts: set<File>, r: nat)
    requires AllLoose(d.published, d.committed) && Tight(m, d.committed) && CutsOk(d, m, cuts)
    ensures Holds(SwapIn(d, m, cuts).published, r) <==> Holds(d.published, r) || r in m.rows
  {
    var e := SwapIn(d, m, cuts);
    if Holds(d.published, r) {
      var p :| p in d.published && r in p.rows;
      assert Loose(p, d.committed);
      KeptRow(d, m, cuts, p, r);
    }
    if r in m.rows { assert m in e.published; }
    if Holds(e.published, r) {
      var p :| p in e.published && r in p.rows;
      if p in cuts { assert Holds(cuts, r); }
    }
  }

  lemma KeptRow(d: Tables, m: File, cuts: set<File>, p: File, r: nat)
    requires Tight(m, d.committed) && CutsOk(d, m, cuts)
    requires p in d.published && r in p.rows && r in d.committed
    ensures Holds(SwapIn(d, m, cuts).published, r)
  {
    var e := SwapIn(d, m, cuts);
    if m.start <= r < m.end {
      assert m in e.published && r in m.rows;
    } else if Touches(p, m) {
      assert Beyond(p, m);
      assert p in Torn(d.published, m);
      assert Holds(cuts, r);
      var c :| c in cuts && r in c.rows;
      assert c in e.published;
    } else {
      assert p in e.published;
    }
  }

  lemma CutRow(d: Tables, m: File, cuts: set<File>, c: File, r: nat)
    requires CutsOk(d, m, cuts) && c in cuts && r in c.rows
    ensures Holds(Torn(d.published, m), r) && Holds(d.published, r) && !(m.start <= r < m.end)
  {
    assert Holds(cuts, r);
    var p :| p in Torn(d.published, m) && r in p.rows;
  }

  lemma SwappedLoose(d: Tables, m: File, cuts: set<File>)
    requires FilesOk(d) && SwapSeen(d, m) && CutsOk(d, m, cuts)
    ensures AllLoose(SwapIn(d, m, cuts).published, d.committed)
    ensures forall c :: c in cuts ==> d.low <= c.start
  {
    var e := SwapIn(d, m, cuts);
    assert Tight(m, d.committed);
    forall p | p in e.published ensures Loose(p, d.committed) && (p in cuts ==> d.low <= p.start) {
      if p in cuts {
        CutIsLoose(d, m, cuts, p);
      } else if p == m {
        TightIsLoose({m}, d.committed);
      }
    }
  }

  lemma CutIsLoose(d: Tables, m: File, cuts: set<File>, c: File)
    requires AllLoose(d.published, d.committed) && CutsOk(d, m, cuts) && c in cuts
    requires forall p :: p in d.published ==> d.low <= p.start
    ensures Loose(c, d.committed) && d.low <= c.start
  {
    forall r | r in c.rows ensures r in d.committed {
      CutRow(d, m, cuts, c, r);
      HeldInSpan(d.published, d.committed, r);
    }
    CutRow(d, m, cuts, c, c.start);
    var p :| p in d.published && c.start in p.rows;
    assert Loose(p, d.committed);
  }

  lemma SwappedApart(d: Tables, m: File, cuts: set<File>)
    requires FilesOk(d) && SwapSeen(d, m) && CutsOk(d, m, cuts)
    ensures RowsApart(SwapIn(d, m, cuts).published)
  {
    var e := SwapIn(d, m, cuts);
    assert Tight(m, d.committed);
    forall f, g, r | f in e.published && g in e.published && r in f.rows && r in g.rows
      ensures f == g
    {
      if f in cuts { CutMeets(d, m, cuts, f, g, r); }
      else if g in cuts { CutMeets(d, m, cuts, g, f, r); }
      else if f == m || g == m { assert r in m.rows; }
    }
  }

  lemma CutMeets(d: Tables, m: File, cuts: set<File>, c: File, g: File, r: nat)
    requires RowsApart(d.published) && Tight(m, d.committed) && CutsOk(d, m, cuts)
    requires c in cuts && g in SwapIn(d, m, cuts).published && r in c.rows && r in g.rows
    ensures g == c
  {
    CutRow(d, m, cuts, c, r);
    TornRow(d.published, m, g, r);
  }

  /** A row of a file that was cut is in no file left alone. */
  lemma TornRow(fs: set<File>, m: File, g: File, r: nat)
    requires RowsApart(fs) && Holds(Torn(fs, m), r) && r in g.rows
    ensures g !in Untouched(fs, m)
  {
    var p :| p in Torn(fs, m) && r in p.rows;
    if g in fs { assert p == g; }
  }

  lemma TopHeld(fs: set<File>, committed: set<nat>)
    requires AllLoose(fs, committed) && fs != {}
    ensures 1 <= End(fs) && Holds(fs, End(fs) - 1)
  {
    var p :| p in fs && p.end == End(fs);
    assert Loose(p, committed);
  }

  lemma SwappedSpan(d: Tables, m: File, cuts: set<File>)
    requires FilesOk(d) && SwapSeen(d, m) && CutsOk(d, m, cuts)
    ensures End(SwapIn(d, m, cuts).published) == Later(End(d.published), m.end)
  {
    hide CutsOk, SwapIn, Tight, Loose, RowsApart, UniquePaths, Disjoint;
    var e := SwapIn(d, m, cuts);
    SwappedLoose(d, m, cuts);
    SwappedIn(d, m, cuts);
    EndByRows(d.published, e.published, m, d.committed);
  }

  lemma SwappedIn(d: Tables, m: File, cuts: set<File>)
    requires FilesOk(d) && SwapSeen(d, m) && CutsOk(d, m, cuts)
    ensures m in SwapIn(d, m, cuts).published && d.published != {}
    ensures Tight(m, d.committed)
    ensures forall r: nat {:trigger Holds(d.published, r)} ::
      Holds(SwapIn(d, m, cuts).published, r) <==> Holds(d.published, r) || r in m.rows
  {
    assert Tight(m, d.committed);
    forall r: nat ensures Holds(SwapIn(d, m, cuts).published, r) <==> Holds(d.published, r) || r in m.rows {
      SwapRows(d, m, cuts, r);
    }
  }

  /** A table's end is that of its rows. */
  lemma EndByRows(before: set<File>, after: set<File>, m: File, committed: set<nat>)
    requires AllLoose(before, committed) && AllLoose(after, committed) && Tight(m, committed)
    requires before != {} && m in after
    requires forall r: nat {:trigger Holds(before, r)} :: Holds(after, r) <==> Holds(before, r) || r in m.rows
    ensures End(after) == Later(End(before), m.end)
  {
    TopHeld(before, committed);
    TopHeld(after, committed);
    var b, a := End(before) - 1, End(after) - 1;
    HeldInSpan(after, committed, b);
    HeldInSpan(before, committed, a);
    assert Holds(before, b) && (Holds(before, a) || a in m.rows);
  }

  lemma SwappedFiles(d: Tables, m: File, cuts: set<File>)
    requires FilesOk(d) && SwapSeen(d, m) && CutsOk(d, m, cuts)
    ensures FilesOk(SwapIn(d, m, cuts))
  {
    hide Tight, Loose, CutsOk, RowsApart, Disjoint, UniquePaths;
    SwappedLoose(d, m, cuts);
    SwappedApart(d, m, cuts);
    CutNames(d, m, cuts);
  }

  lemma CutNames(d: Tables, m: File, cuts: set<File>)
    requires CutsOk(d, m, cuts)
    ensures forall c :: c in cuts ==> c.start < c.end && c.path in Paths(cuts)
  {
  }

  lemma SwappedLegs(d: Tables, m: File, cuts: set<File>)
    requires FilesOk(d) && Legs(d) && SwapSeen(d, m) && CutsOk(d, m, cuts)
    ensures Legs(SwapIn(d, m, cuts))
  {
    hide CutsOk, SwapIn, Tight, Loose, RowsApart, UniquePaths, Disjoint, AllTight, AllLoose, FilesOk;
    var e := SwapIn(d, m, cuts);
    SwapKeepsRest(d, m, cuts);
    SwappedSpan(d, m, cuts);
    assert Frontier(e) == Frontier(d);
    forall r | r in e.committed && e.low <= r < End(e.published) ensures Holds(e.published, r) {
      SwappedLeg(d, m, cuts, r);
    }
    forall r | r in e.committed && d.staging != {} && e.low <= r < Start(e.staging)
      ensures Holds(e.published, r)
    {
      SwappedLeg(d, m, cuts, r);
    }
  }

  lemma SwappedLeg(d: Tables, m: File, cuts: set<File>, r: nat)
    requires FilesOk(d) && Legs(d) && SwapSeen(d, m) && CutsOk(d, m, cuts)
    requires r in d.committed && d.low <= r
    requires r < Later(End(d.published), m.end) || (d.staging != {} && r < Start(d.staging))
    ensures Holds(SwapIn(d, m, cuts).published, r)
  {
    hide CutsOk, SwapIn, Loose, RowsApart, UniquePaths, Disjoint;
    assert Tight(m, d.committed);
    SwapRows(d, m, cuts, r);
    assert r < End(d.published) ==> Holds(d.published, r);
    assert d.staging != {} && r < Start(d.staging) ==> Holds(d.published, r);
  }

  lemma SwappedWatermark(d: Tables, m: File, cuts: set<File>)
    requires FilesOk(d) && Legs(d) && Watermark(d) && SwapSeen(d, m) && CutsOk(d, m, cuts)
    ensures Watermark(SwapIn(d, m, cuts))
  {
    hide CutsOk, RowsApart, Disjoint, UniquePaths;
    var e := SwapIn(d, m, cuts);
    SwappedSpan(d, m, cuts);
    assert Tight(m, d.committed);
    forall r | r in e.committed && e.low <= r <= e.through ensures Holds(e.published, r) {
      assert Holds(d.published, r);
      SwapRows(d, m, cuts, r);
    }
  }

  lemma SwappedTier(d: Tables, m: File, cuts: set<File>)
    requires FilesOk(d) && Legs(d) && TierRow(d) && SwapSeen(d, m) && CutsOk(d, m, cuts)
    ensures TierRow(SwapIn(d, m, cuts))
  {
    hide CutsOk, RowsApart, Disjoint, UniquePaths, SwapIn;
    var e := SwapIn(d, m, cuts);
    assert e.staging == d.staging && e.tier == d.tier by { SwapKeepsRest(d, m, cuts); }
    assert Tight(m, d.committed);
    forall p, r | p in e.published && r in p.rows && BelowStaging(e, r) && e.tier.Some?
      ensures r in e.tier.value
    {
      assert Holds(e.published, r);
      SwapRows(d, m, cuts, r);
      assert Holds(d.published, r);
      var q :| q in d.published && r in q.rows;
    }
  }

  lemma SwapKeepsRest(d: Tables, m: File, cuts: set<File>)
    ensures var e := SwapIn(d, m, cuts);
      e == d.(published := e.published, names := e.names) && d.names <= e.names
  {
  }

  lemma SwapKeeps(d: Tables, m: File, cuts: set<File>)
    requires SafeOk(d) && SwapSeen(d, m) && CutsOk(d, m, cuts)
    ensures SafeOk(SwapIn(d, m, cuts))
  {
    hide FilesOk, Legs, Watermark, TierRow, SwapSeen, CutsOk, SwapIn;
    SwappedFiles(d, m, cuts);
    SwappedLegs(d, m, cuts);
    SwappedWatermark(d, m, cuts);
    SwappedTier(d, m, cuts);
  }

  // ----- a swap that lines up -----

  ghost function Swapped(d: Tables, m: File): set<File> {
    Outside(d.published, m.start, m.end) + {m}
  }

  /** A whole published file has rows on both sides of a boundary of `m` just when it
      straddles that boundary. */
  lemma TornStraddles(d: Tables, m: File, p: File)
    requires Tight(m, d.committed) && Tight(p, d.committed)
    ensures Touches(p, m) <==> !Apart(p, m)
    ensures Beyond(p, m) <==> !(m.start <= p.start && p.end <= m.end)
  {
    if !Apart(p, m) {
      var r := if m.start <= p.start then p.start else m.start;
      assert r in p.rows && m.start <= r < m.end;
    }
    if p.start < m.start { assert p.start in p.rows; }
    if m.end < p.end { assert p.end - 1 in p.rows; }
  }

  lemma NothingTorn(d: Tables, m: File, cuts: set<File>)
    requires Torn(d.published, m) == {} && CutsOk(d, m, cuts)
    ensures cuts == {}
  {
    forall c ensures c !in cuts {
      if c in cuts { CutRow(d, m, cuts, c, c.start); }
    }
  }

  lemma FitCutsNothing(d: Tables, m: File, cuts: set<File>)
    requires FilesOk(d) && Uncut(d) && SwapFits(d, m) && CutsOk(d, m, cuts)
    ensures cuts == {} && SwapIn(d, m, cuts) == d.(published := Swapped(d, m))
  {
    assert Tight(m, d.committed);
    forall p | p in d.published ensures Touches(p, m) <==> !Apart(p, m)
      ensures Touches(p, m) ==> !Beyond(p, m)
    {
      assert Tight(p, d.committed);
      TornStraddles(d, m, p);
    }
    assert Torn(d.published, m) == {};
    NothingTorn(d, m, cuts);
    assert Untouched(d.published, m) == Outside(d.published, m.start, m.end);
    assert Paths({}) == {};
  }

  /** A straddler in the staging table is the only file there past the old end. */
  lemma SwappedCovered(d: Tables, m: File)
    requires FilesOk(d) && Covered(d) && SwapFits(d, m) && Protected(d, m)
    requires End(Swapped(d, m)) == Later(End(d.published), m.end)
    ensures Covered(d.(published := Swapped(d, m)))
  {
    var e := d.(published := Swapped(d, m));
    if e.through + 1 < End(e.published) {
      forall g | g in e.staging
        ensures g.end <= e.through + 1 || End(e.published) <= g.start || AsIntent(g) in e.intents
      {
        if End(d.published) < m.end && g != m && m in d.staging {
          assert Apart(g, m);
        }
      }
    }
  }

  lemma SwappedAligned(d: Tables, m: File)
    requires Uncut(d) && Aligned(d.staging, d.published) && SwapFits(d, m)
    ensures Aligned(d.staging, Swapped(d, m)) && Disjoint(Swapped(d, m)) && Swapped(d, m) <= d.written
  {
    DisjointWith(Outside(d.published, m.start, m.end), m);
  }

  lemma SwapKeepsNeat(d: Tables, m: File, cuts: set<File>)
    requires FilesOk(d) && Neat(d) && SwapSeen(d, m) && SwapFits(d, m) && Protected(d, m)
    requires CutsOk(d, m, cuts)
    ensures Neat(SwapIn(d, m, cuts))
  {
    hide FilesOk, Disjoint, CutsOk, Protected, SwapIn, SwapFits, SwapSeen, Aligned, Covered;
    FitCutsNothing(d, m, cuts);
    SwappedSpan(d, m, cuts);
    SwappedCovered(d, m);
    SwappedAligned(d, m);
  }
}
