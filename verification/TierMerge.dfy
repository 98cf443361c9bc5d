/** A merge keeps what the durable tables promise: the same rows in the same span,
    cut where no published file is cut. */
module TierMerge {
  import opened TierState
  import opened TierSteps
  import opened TierTables

  /** Staging files that share a row are one file. */
  lemma SharedRow(d: Tables, f: File, g: File, r: nat)
    requires FilesOk(d) && f in d.staging && g in d.staging && r in f.rows && r in g.rows
    ensures f == g
  {
    assert Tight(f, d.committed) && Tight(g, d.committed);
  }

  /** A run holds whatever row of its span another staging file would. */
  lemma InRun(d: Tables, run: set<File>, g: File, r: nat)
    requires FilesOk(d) && Whole(d, run) && run <= d.staging
    requires g in d.staging && r in g.rows && Start(run) <= r < End(run)
    ensures g in run
  {
    assert Tight(g, d.committed);
    assert Holds(run, r);
    var f :| f in run && r in f.rows;
    SharedRow(d, f, g, r);
  }

  /** Every other staging file lies wholly outside the run's span. */
  lemma RunApart(d: Tables, run: set<File>)
    requires FilesOk(d) && Whole(d, run) && run <= d.staging
    ensures forall g :: g in d.staging ==> g in run || g.end <= Start(run) || End(run) <= g.start
    ensures forall g :: g in run ==> Start(run) <= g.start && g.end <= End(run)
    ensures Start(run) < End(run)
  {
    var first :| first in run && first.start == Start(run);
    assert Tight(first, d.committed);
    forall g | g in d.staging && Start(run) < g.end && g.start < End(run) ensures g in run {
      assert Tight(g, d.committed);
      if Start(run) <= g.start {
        InRun(d, run, g, g.start);
      } else {
        SharedRow(d, first, g, first.start);
      }
    }
  }

  lemma RecutSpan(d: Tables, run: set<File>, outputs: set<File>)
    requires AllTight(d.written, d.committed) && Whole(d, run) && Rewritten(d, run, outputs)
    ensures Start(outputs) == Start(run) && End(outputs) == End(run)
  {
    hide Disjoint, Apart;
    var first :| first in run && first.start == Start(run);
    assert Tight(first, d.committed);
    assert Holds(run, first.start);
    var o :| o in outputs && first.start in o.rows;
    assert Tight(o, d.committed);
    var last :| last in run && last.end == End(run);
    assert Tight(last, d.committed);
    assert Holds(run, last.end - 1);
    var q :| q in outputs && last.end - 1 in q.rows;
    assert Tight(q, d.committed);
  }

  lemma RecutRows(d: Tables, run: set<File>, outputs: set<File>)
    requires AllTight(d.written, d.committed) && Whole(d, run) && Rewritten(d, run, outputs)
    ensures forall r :: Holds(outputs, r) ==> Holds(run, r)
  {
    forall r | Holds(outputs, r) ensures Holds(run, r) {
      var p :| p in outputs && r in p.rows;
      assert Tight(p, d.committed);
    }
  }

  /** The staging table after the run gave way to its outputs. */
  ghost function Replaced(d: Tables, run: set<File>, outputs: set<File>): set<File> {
    Outside(d.staging, Start(run), End(run)) + outputs
  }

  ghost predicate MergeOk(d: Tables, run: set<File>, outputs: set<File>) {
    Whole(d, run) && run <= d.staging && Rewritten(d, run, outputs)
  }

  ghost predicate MergeNeat(d: Tables, run: set<File>, floor: nat, outputs: set<File>) {
    && MergeOk(d, run, outputs)
    && Settled(d, run, floor) && floor <= d.through + 1
    && CutsAtEnds(run, floor, outputs)
  }

  lemma ReplacedIs(d: Tables, run: set<File>, outputs: set<File>)
    requires FilesOk(d) && MergeOk(d, run, outputs)
    ensures Outside(d.staging, Start(run), End(run)) == d.staging - run
    ensures forall g :: g in Replaced(d, run, outputs) <==> (g in d.staging && g !in run) || g in outputs
  {
    RunApart(d, run);
  }

  lemma ReplacedSpan(d: Tables, run: set<File>, outputs: set<File>)
    requires FilesOk(d) && MergeOk(d, run, outputs)
    ensures Start(Replaced(d, run, outputs)) == Start(d.staging)
    ensures End(Replaced(d, run, outputs)) == End(d.staging)
    ensures Replaced(d, run, outputs) != {}
  {
    ReplacedIs(d, run, outputs);
    RecutSpan(d, run, outputs);
    RunApart(d, run);
    SpanOf(d.staging, run, outputs, Replaced(d, run, outputs));
  }

  lemma SpanOf(fs: set<File>, run: set<File>, outputs: set<File>, after: set<File>)
    requires run != {} && run <= fs && outputs != {}
    requires Start(outputs) == Start(run) && End(outputs) == End(run)
    requires forall g :: g in after <==> (g in fs && g !in run) || g in outputs
    ensures after != {} && Start(after) == Start(fs) && End(after) == End(fs)
  {
    var o :| o in outputs && o.start == Start(outputs);
    var q :| q in outputs && q.end == End(outputs);
    assert o in after && q in after;
    var a :| a in fs && a.start == Start(fs);
    var b :| b in fs && b.end == End(fs);
    var c :| c in run && c.start == Start(run);
    var e :| e in run && e.end == End(run);
    assert a in run || a in after;
    assert b in run || b in after;
    var x :| x in after && x.start == Start(after);
    var y :| y in after && y.end == End(after);
  }

  lemma ReplacedRows(d: Tables, run: set<File>, outputs: set<File>)
    requires FilesOk(d) && MergeOk(d, run, outputs)
    ensures forall r :: Holds(Replaced(d, run, outputs), r) <==> Holds(d.staging, r)
  {
    ReplacedIs(d, run, outputs);
    RecutRows(d, run, outputs);
    var s := Replaced(d, run, outputs);
    forall r ensures Holds(s, r) <==> Holds(d.staging, r) {
      if Holds(s, r) {
        var g :| g in s && r in g.rows;
        if g in outputs { assert Holds(outputs, r); assert Holds(run, r); }
      }
      if Holds(d.staging, r) {
        var g :| g in d.staging && r in g.rows;
        if g in run { assert Holds(run, r); assert Holds(outputs, r); } else { assert g in s; }
      }
    }
  }

  lemma MergedDisjoint(d: Tables, run: set<File>, outputs: set<File>)
    requires FilesOk(d) && MergeOk(d, run, outputs)
    ensures Disjoint(Replaced(d, run, outputs))
    ensures forall g :: g in Replaced(d, run, outputs) ==> d.low <= g.start && g in d.written
  {
    ReplacedIs(d, run, outputs);
    RunApart(d, run);
    var first :| first in run && first.start == Start(run);
  }

  /** A cut at or above the floor lies in no published file the run overlaps; one
      below it is where an input ended, and no input ends inside one. */
  lemma MergedAligned(d: Tables, run: set<File>, floor: nat, outputs: set<File>)
    requires FilesOk(d) && Uncut(d) && Aligned(d.staging, d.published) && MergeNeat(d, run, floor, outputs)
    ensures Aligned(Replaced(d, run, outputs), d.published)
  {
    ReplacedIs(d, run, outputs);
    forall o, p | o in outputs && p in d.published ensures !Inside(o.start, p) && !Inside(o.end, p) {
      OutputEndAligned(d, run, floor, outputs, o, p);
      OutputStartAligned(d, run, floor, outputs, o, p);
    }
  }

  lemma OutputEndAligned(d: Tables, run: set<File>, floor: nat, outputs: set<File>, o: File, p: File)
    requires FilesOk(d) && Aligned(d.staging, d.published) && MergeNeat(d, run, floor, outputs)
    requires o in outputs && p in d.published
    ensures !Inside(o.end, p)
  {
    assert Tight(o, d.committed);
    if Inside(o.end, p) {
      OutputOverlap(d, run, floor, outputs, o, p, o.end - 1);
    }
  }

  /** A published file sharing a row with an output overlaps an input. */
  lemma OutputOverlap(d: Tables, run: set<File>, floor: nat, outputs: set<File>, o: File, p: File, r: nat)
    requires FilesOk(d) && MergeNeat(d, run, floor, outputs)
    requires o in outputs && p in d.published && r in d.committed
    requires o.start <= r < o.end && p.start <= r < p.end
    ensures p.end <= floor
  {
    assert Tight(o, d.committed);
    assert Holds(outputs, r);
    RecutRows(d, run, outputs);
    SettledRow(d, run, floor, p, r);
  }

  lemma SettledRow(d: Tables, run: set<File>, floor: nat, p: File, r: nat)
    requires Settled(d, run, floor) && Holds(run, r)
    requires forall f {:trigger Tight(f, d.committed)} :: f in run ==> Tight(f, d.committed)
    requires p in d.published && p.start <= r < p.end
    ensures p.end <= floor
  {
    var f :| f in run && r in f.rows;
    assert Tight(f, d.committed);
  }

  lemma OutputStartAligned(d: Tables, run: set<File>, floor: nat, outputs: set<File>, o: File, p: File)
    requires FilesOk(d) && Uncut(d) && Aligned(d.staging, d.published) && MergeNeat(d, run, floor, outputs)
    requires o in outputs && p in d.published
    ensures !Inside(o.start, p)
  {
    if Inside(o.start, p) {
      assert Tight(o, d.committed) && Tight(p, d.committed);
      RecutSpan(d, run, outputs);
      var first :| first in run && first.start == Start(run);
      assert first in d.staging && !Inside(first.start, p);
      assert Start(run) <= p.start < End(run);
      assert Holds(run, p.start);
      assert Holds(outputs, p.start);
      var q :| q in outputs && p.start in q.rows;
      assert Tight(q, d.committed);
      assert Apart(o, q);
      OutputEndAligned(d, run, floor, outputs, q, p);
      assert false;
    }
  }

  lemma MergedCovered(d: Tables, run: set<File>, floor: nat, outputs: set<File>)
    requires TablesOk(d) && MergeNeat(d, run, floor, outputs)
    ensures d.through + 1 < End(d.published) ==>
      forall o :: o in outputs ==> o.end <= d.through + 1 || End(d.published) <= o.start
  {
    if d.through + 1 < End(d.published) {
      forall o | o in outputs ensures o.end <= d.through + 1 || End(d.published) <= o.start {
        if o.start < End(d.published) && d.through + 1 < o.end {
          OutputSettled(d, run, floor, outputs, o);
          assert false;
        }
      }
    }
  }

  lemma OutputSettled(d: Tables, run: set<File>, floor: nat, outputs: set<File>, o: File)
    requires TablesOk(d) && MergeNeat(d, run, floor, outputs)
    requires o in outputs && o.start < End(d.published) && d.through + 1 < End(d.published)
    ensures o.end <= d.through + 1
  {
    MergedAboveLow(d, run, outputs, o);
    OutputEndsPublished(d, run, floor, outputs, o);
    if End(d.published) < o.end {
      TopSettled(d, run, floor, outputs, o);
    }
  }

  lemma OutputEndsPublished(d: Tables, run: set<File>, floor: nat, outputs: set<File>, o: File)
    requires FilesOk(d) && PublishedWhole(d) && MergeNeat(d, run, floor, outputs)
    requires o in outputs && d.low <= o.start < End(d.published)
    ensures o.end <= End(d.published) ==> o.end <= d.through + 1
  {
    assert Tight(o, d.committed);
    if o.end <= End(d.published) {
      OutputRowPublished(d, run, floor, outputs, o, o.end - 1);
    }
  }

  lemma MergedAboveLow(d: Tables, run: set<File>, outputs: set<File>, o: File)
    requires FilesOk(d) && MergeOk(d, run, outputs) && o in outputs
    ensures d.low <= o.start
  {
    var first :| first in run && first.start == Start(run);
  }

  /** The top published file would end inside the output's span, past the floor. */
  lemma TopSettled(d: Tables, run: set<File>, floor: nat, outputs: set<File>, o: File)
    requires FilesOk(d) && MergeNeat(d, run, floor, outputs)
    requires o in outputs && o.start < End(d.published) < o.end
    ensures End(d.published) <= floor
  {
    var top :| top in d.published && top.end == End(d.published);
    assert Loose(top, d.committed);
    OutputOverlap(d, run, floor, outputs, o, top, top.end - 1);
  }

  lemma OutputRowPublished(d: Tables, run: set<File>, floor: nat, outputs: set<File>, o: File, r: nat)
    requires FilesOk(d) && PublishedWhole(d) && MergeNeat(d, run, floor, outputs)
    requires o in outputs && r in o.rows && d.low <= r < End(d.published)
    ensures r <= d.through
  {
    assert Tight(o, d.committed);
    assert Holds(d.published, r);
    var p :| p in d.published && r in p.rows;
    assert Loose(p, d.committed);
    OutputOverlap(d, run, floor, outputs, o, p, r);
  }

  lemma MergedFiles(d: Tables, run: set<File>, outputs: set<File>)
    requires FilesOk(d) && MergeOk(d, run, outputs)
    ensures FilesOk(ReplaceRun(d, run, outputs))
  {
    MergedDisjoint(d, run, outputs);
  }

  lemma MergedLegs(d: Tables, run: set<File>, outputs: set<File>)
    requires FilesOk(d) && Legs(d) && MergeOk(d, run, outputs)
    ensures Legs(ReplaceRun(d, run, outputs))
  {
    ReplacedSpan(d, run, outputs);
    ReplacedRows(d, run, outputs);
    assert d.staging != {};
  }

  lemma MergedWatermark(d: Tables, run: set<File>, outputs: set<File>)
    requires SafeOk(d) && MergeOk(d, run, outputs)
    ensures var e := ReplaceRun(d, run, outputs); Watermark(e) && TierRow(e)
  {
    ReplacedIs(d, run, outputs);
    ReplacedSpan(d, run, outputs);
  }

  lemma MergeKeeps(d: Tables, run: set<File>, outputs: set<File>)
    requires SafeOk(d) && MergeOk(d, run, outputs)
    ensures SafeOk(ReplaceRun(d, run, outputs))
  {
    MergedFiles(d, run, outputs);
    MergedLegs(d, run, outputs);
    MergedWatermark(d, run, outputs);
  }

  lemma MergeKeepsNeat(d: Tables, run: set<File>, floor: nat, outputs: set<File>)
    requires TablesOk(d) && MergeNeat(d, run, floor, outputs)
    ensures Neat(ReplaceRun(d, run, outputs))
  {
    hide Legs, Watermark, TierRow, Tight, Loose, Disjoint, UniquePaths, RowsApart, Settled, Rewritten, CutsAtEnds;
    ReplacedIs(d, run, outputs);
    ReplacedSpan(d, run, outputs);
    MergedCovered(d, run, floor, outputs);
    MergedAligned(d, run, floor, outputs);
  }
}
