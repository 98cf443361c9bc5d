/** Eviction, truncation and the watermark keep what the durable tables promise:
    a row leaves a tier only below the watermark. */
module TierEvict {
  import opened Options
  import opened TierState
  import opened TierSteps
  import opened TierTables

  // ----- eviction from staging -----

  ghost predicate EvictOk(d: Tables, below: nat) {
    && below <= d.through + 1
    && (forall f :: f in d.staging ==> f.end <= below || below <= f.start)
    && (forall f :: f in d.staging && f.end <= below && d.tier.Some? ==> f.rows <= d.tier.value)
  }

  ghost function Evicted(d: Tables, below: nat): Tables {
    d.(staging := Above(d.staging, below))
  }

  /** Where the staging table starts after it. */
  lemma EvictedStart(d: Tables, below: nat)
    requires FilesOk(d) && EvictOk(d, below) && Above(d.staging, below) != {}
    ensures d.staging != {} && below <= Start(Above(d.staging, below))
    ensures Start(d.staging) <= Start(Above(d.staging, below))
    ensures forall f :: f in d.staging && below < f.end ==> Start(Above(d.staging, below)) <= f.start
  {
    var a :| a in Above(d.staging, below) && a.start == Start(Above(d.staging, below));
  }

  /** A row the staging table gave up is one the published table holds. */
  lemma EvictedRow(d: Tables, below: nat, r: nat)
    requires AllTight(d.written, d.committed) && d.staging <= d.written
    requires Watermark(d) && EvictOk(d, below)
    requires Holds(d.staging, r) && !Holds(Above(d.staging, below), r) && d.low <= r
    ensures r <= d.through && r in d.committed && Holds(d.published, r)
    ensures d.tier.Some? ==> r in d.tier.value
  {
    var f :| f in d.staging && r in f.rows;
    assert Tight(f, d.committed);
    assert f !in Above(d.staging, below);
  }

  lemma EvictedLegs(d: Tables, below: nat)
    requires FilesOk(d) && Legs(d) && Watermark(d) && EvictOk(d, below)
    ensures Legs(Evicted(d, below))
  {
    var e := Evicted(d, below);
    EndAbove(d.staging, below);
    if e.staging == {} {
      forall r | r in e.committed && e.low <= r && Frontier(e) <= r ensures r in e.buffer {
        EmptiedRow(d, below, r);
      }
    } else {
      EvictedStart(d, below);
      forall r | r in e.committed && e.low <= r < Start(e.staging) ensures Holds(e.published, r) {
        GivenUp(d, below, r);
      }
      forall r | r in e.committed && Start(e.staging) <= r < End(e.staging)
        ensures Holds(e.staging, r)
      {
        Retained(d, below, r);
      }
    }
  }

  lemma EmptiedRow(d: Tables, below: nat, r: nat)
    requires FilesOk(d) && Legs(d) && Watermark(d) && EvictOk(d, below)
    requires Above(d.staging, below) == {}
    requires r in d.committed && d.low <= r && End(d.published) <= r
    ensures r in d.buffer
  {
    EndAbove(d.staging, below);
    HeldInSpan(d.published, d.committed, r);
    assert r <= d.through ==> Holds(d.published, r);
  }

  lemma GivenUp(d: Tables, below: nat, r: nat)
    requires FilesOk(d) && Legs(d) && Watermark(d) && EvictOk(d, below)
    requires Above(d.staging, below) != {}
    requires r in d.committed && d.low <= r < Start(Above(d.staging, below))
    ensures Holds(d.published, r)
  {
    EvictedStart(d, below);
    EndAbove(d.staging, below);
    if Start(d.staging) <= r {
      assert Holds(d.staging, r);
      WrittenLoose(d, Above(d.staging, below));
      HeldInSpan(Above(d.staging, below), d.committed, r);
      EvictedRow(d, below, r);
    } else {
      assert Holds(d.published, r);
    }
  }

  lemma Retained(d: Tables, below: nat, r: nat)
    requires FilesOk(d) && Legs(d) && EvictOk(d, below)
    requires Above(d.staging, below) != {}
    requires r in d.committed && Start(Above(d.staging, below)) <= r < End(d.staging)
    ensures Holds(Above(d.staging, below), r)
  {
    EvictedStart(d, below);
    assert Holds(d.staging, r);
    var f :| f in d.staging && r in f.rows;
    assert Tight(f, d.committed);
    assert f in Above(d.staging, below);
  }

  lemma EvictedWatermark(d: Tables, below: nat)
    requires FilesOk(d) && Legs(d) && Watermark(d) && EvictOk(d, below)
    ensures Watermark(Evicted(d, below))
  {
    EndAbove(d.staging, below);
  }

  lemma EvictedTier(d: Tables, below: nat)
    requires FilesOk(d) && Legs(d) && TierRow(d) && EvictOk(d, below)
    ensures TierRow(Evicted(d, below))
  {
    var e := Evicted(d, below);
    forall p, r | p in e.published && r in p.rows && BelowStaging(e, r) && e.tier.Some?
      ensures r in e.tier.value
    {
      if !BelowStaging(d, r) {
        assert Loose(p, d.committed);
        assert Holds(d.staging, r);
        var f :| f in d.staging && r in f.rows;
        assert Tight(f, d.committed);
        assert f !in e.staging;
      }
    }
  }

  lemma EvictKeeps(d: Tables, below: nat)
    requires SafeOk(d) && EvictOk(d, below)
    ensures SafeOk(Evicted(d, below))
  {
    EvictedLegs(d, below);
    EvictedWatermark(d, below);
    EvictedTier(d, below);
  }

  lemma EvictKeepsNeat(d: Tables, below: nat)
    requires Neat(d)
    ensures Neat(Evicted(d, below))
  {
  }

  // ----- the tier row and the queue -----

  lemma LeavingKeeps(d: Tables, below: nat)
    requires SafeOk(d)
    ensures SafeOk(Leaving(d, below))
    ensures forall f :: f in d.staging && f.end <= below && d.tier.Some? ==>
              Leaving(d, below).tier.Some? && f.rows <= Leaving(d, below).tier.value
    ensures forall f :: f in d.staging && f.end <= below ==> f.path in Leaving(d, below).queued
  {
    forall f, r | f in d.staging && f.end <= below && r in f.rows ensures r in RowsOf(Dropped(d, below)) {
      assert f in Dropped(d, below);
      assert Holds(Dropped(d, below), r);
    }
    forall f | f in d.staging && f.end <= below ensures f.path in Paths(Dropped(d, below)) {
      assert f in Dropped(d, below);
    }
  }

  // ----- truncation -----

  lemma CutBufferKeeps(d: Tables, floor: nat)
    requires SafeOk(d) && floor <= d.through + 1
    ensures SafeOk(d.(buffer := set r | r in d.buffer && floor <= r))
  {
    var e := d.(buffer := set r | r in d.buffer && floor <= r);
    forall r | r in e.committed && e.low <= r && Frontier(e) <= r ensures r in e.buffer {
      UnfiledAboveWatermark(d, r);
    }
  }

  lemma EvictBufferKeeps(d: Tables, start: nat, below: nat)
    requires SafeOk(d) && below <= d.through + 1
    ensures SafeOk(d.(buffer := set r | r in d.buffer && !(start <= r < below)))
  {
    var e := d.(buffer := set r | r in d.buffer && !(start <= r < below));
    forall r | r in e.committed && e.low <= r && Frontier(e) <= r ensures r in e.buffer {
      UnfiledAboveWatermark(d, r);
    }
  }

  /** The watermark never reaches a row that is only buffered. */
  lemma UnfiledAboveWatermark(d: Tables, r: nat)
    requires FilesOk(d) && Watermark(d)
    requires r in d.committed && d.low <= r && Frontier(d) <= r
    ensures d.through < r
  {
    HeldInSpan(d.published, d.committed, r);
    assert r <= d.through ==> Holds(d.published, r);
  }

  ghost predicate CutOk(d: Tables, floor: nat) {
    && floor <= d.through + 1
    && (forall f :: f in d.published ==> f.end <= floor || floor <= f.start)
    && (forall f :: f in d.staging ==> floor <= f.start)
    && (forall r :: r in d.buffer ==> floor <= r)
  }

  lemma CutHolds(d: Tables, floor: nat, r: nat)
    requires AllLoose(d.published, d.committed)
    requires Holds(d.published, r) && floor <= r
    ensures Holds(Above(d.published, floor), r)
  {
    var p :| p in d.published && r in p.rows;
    assert Loose(p, d.committed);
    assert p in Above(d.published, floor);
  }

  lemma CutFiles(d: Tables, floor: nat)
    requires FilesOk(d) && CutOk(d, floor)
    ensures FilesOk(CutPublished(d, floor))
  {
  }

  lemma CutLegs(d: Tables, floor: nat)
    requires FilesOk(d) && Legs(d) && CutOk(d, floor)
    ensures Legs(CutPublished(d, floor))
  {
    var e := CutPublished(d, floor);
    EndAbove(d.published, floor);
    forall r | r in e.committed && e.low <= r < End(d.published) ensures Holds(e.published, r) {
      assert Holds(d.published, r);
      CutHolds(d, floor, r);
    }
    forall r | r in e.committed && e.low <= r && Frontier(e) <= r ensures r in e.buffer {
      HeldInSpan(e.published, d.committed, r);
    }
    forall r | r in e.committed && d.staging != {} && e.low <= r < Start(e.staging)
      ensures Holds(e.published, r)
    {
      assert Holds(d.published, r);
      CutHolds(d, floor, r);
    }
  }

  lemma CutWatermark(d: Tables, floor: nat)
    requires FilesOk(d) && Watermark(d) && TierRow(d) && CutOk(d, floor)
    ensures var e := CutPublished(d, floor); Watermark(e) && TierRow(e)
  {
    var e := CutPublished(d, floor);
    EndAbove(d.published, floor);
    forall r | r in e.committed && e.low <= r <= e.through ensures Holds(e.published, r) {
      assert Holds(d.published, r);
      CutHolds(d, floor, r);
    }
  }

  lemma CutKeeps(d: Tables, floor: nat)
    requires SafeOk(d) && CutOk(d, floor)
    ensures SafeOk(CutPublished(d, floor))
  {
    CutFiles(d, floor);
    CutLegs(d, floor);
    CutWatermark(d, floor);
  }

  lemma CutKeepsNeat(d: Tables, floor: nat)
    requires Neat(d)
    ensures Neat(CutPublished(d, floor))
  {
    EndAbove(d.published, floor);
  }

  // ----- the watermark and the intents -----

  /** Raising the watermark to a published row claims nothing that is not published. */
  lemma ConfirmKeeps(d: Tables, end: nat, paths: set<nat>)
    requires SafeOk(d) && AllPublished(d, end)
    ensures SafeOk(ConfirmedTo(d, end, paths))
  {
  }

  /** Raising it and retiring the intents together leaves nothing uncovered. */
  lemma ConfirmKeepsNeat(d: Tables, end: nat, paths: set<nat>)
    requires FilesOk(d) && Neat(d) && PathsBelow(d, end, paths)
    ensures Neat(ConfirmedTo(d, end, paths))
  {
    var e := ConfirmedTo(d, end, paths);
    forall f | f in d.written && AsIntent(f) in d.intents
      ensures AsIntent(f) in e.intents || f.end <= e.through + 1
    {
    }
  }

  lemma ProtectedAfterConfirm(d: Tables, end: nat, paths: set<nat>, f: File)
    requires PathsBelow(d, end, paths) && f in d.written && Protected(d, f)
    ensures Protected(ConfirmedTo(d, end, paths), f)
  {
  }

  /** What a publish finds in the manifest, it may confirm up to the span's end. */
  lemma SpanPublished(d: Tables)
    requires FilesOk(d) && PublishedWhole(d)
    ensures AllPublished(d, End(d.published))
  {
    if d.published != {} {
      var top :| top in d.published && top.end == End(d.published);
      assert Loose(top, d.committed);
    }
  }

  lemma LandedBelow(d: Tables, landed: set<nat>)
    requires FilesOk(d) && Uncut(d) && landed <= Paths(d.published)
    ensures PathsBelow(d, End(d.published), landed)
  {
    forall f | f in d.written && f.path in landed ensures f.end <= End(d.published) {
      var p :| p in d.published && p.path == f.path;
    }
    forall path | path in landed ensures path in d.names {
      var p :| p in d.published && p.path == path;
    }
  }
}
