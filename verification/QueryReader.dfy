/** One query, reading the three tiers at three different moments while appends,
    bulk loads, seals, merges, publishes, evictions, truncations and crashes go on
    in between.

    The order is the reader's: the staging span, the buffer above it, the staging
    snapshot, the published tier row, the published snapshot.
 */
module QueryReader {
  import opened Options
  import opened TierState
  import opened TierSteps
  import opened TierTables
  import opened TierOps
  import opened TierRuns
  import opened TierTheorems
  import opened TierHistory

  /** What a query resolved, and which of the two tables it reads. */
  datatype Seen = Seen(
    boundary: nat,          // the staging span's end, before the buffer was read
    tail: set<nat>,         // the rows the buffer answered with
    staging: set<File>,     // the staging snapshot
    published: set<File>,   // the published snapshot, resolved after it
    useStaging: bool,
    usePublished: bool)

  ghost function Copies(fs: set<File>, r: nat): nat {
    |set f | f in fs && r in f.rows|
  }

  ghost function Once(condition: bool): nat {
    if condition then 1 else 0
  }

  ghost predicate ReadsPublished(q: Seen) {
    q.usePublished && q.published != {}
  }

  /** How many times the union the reader builds returns row `r`. */
  ghost function Returned(q: Seen, r: nat): nat {
    if q.staging == {} then
      if ReadsPublished(q) then Copies(q.published, r) + Once(r in q.tail && End(q.published) <= r)
      else Once(r in q.tail)
    else
      (if ReadsPublished(q) && r < Start(q.staging) then Copies(q.published, r) else 0)
      + (if q.useStaging then Copies(q.staging, r) else 0)
      + Once(r in q.tail && End(q.staging) <= r)
  }

  /** Whether some table the query reads cuts what the buffer answered. */
  ghost predicate TailCut(q: Seen) {
    q.staging != {} || ReadsPublished(q)
  }

  /** The least offset above every row. */
  ghost function Top(rows: set<nat>): (t: nat)
    ensures forall r :: r in rows ==> r < t
    ensures t > 0 ==> t - 1 in rows
  {
    if rows == {} then 0
    else
      GreatestExists(rows);
      var r :| r in rows && forall x :: x in rows ==> x <= r;
      r + 1
  }

  lemma {:induction false} GreatestExists(rows: set<nat>)
    requires rows != {}
    ensures exists r :: r in rows && forall x :: x in rows ==> x <= r
    decreases |rows|
  {
    var x :| x in rows;
    if rows != {x} {
      var rest := rows - {x};
      assert rows == rest + {x};
      GreatestExists(rest);
      var r :| r in rest && forall y :: y in rest ==> y <= r;
      var top := if r < x then x else r;
      assert forall y :: y in rows ==> y == x || y in rest;
      assert top in rows && forall y :: y in rows ==> y <= top;
    }
  }

  /** Everything committed below this offset comes back: `top` is past whatever was
      committed when the buffer was read. */
  ghost function Cut(q: Seen, top: nat): nat {
    if q.staging != {} then Later(top, End(q.staging))
    else if ReadsPublished(q) then Later(top, End(q.published))
    else top
  }

  // ----- what each read may answer -----

  /** `rows_from(boundary)`: every row buffered from there up. What was cached and
      evicted since may come too. */
  ghost predicate TailRead(d: Tables, boundary: nat, tail: set<nat>) {
    && tail <= d.committed
    && (forall r :: r in tail ==> boundary <= r)
    && (forall r :: r in d.buffer && boundary <= r ==> r in tail)
  }

  /** The buffer ruled out by offset: no row from its floor up can match. */
  ghost predicate TailSkipped(d: Tables, boundary: nat, tail: set<nat>, matches: nat -> bool) {
    && tail == {}
    && exists lowest ::
         && lowest in d.buffer && (forall r :: r in d.buffer ==> lowest <= r)
         && (forall r :: Later(lowest, boundary) <= r ==> !matches(r))
  }

  /** The published table ruled out by its tier row. */
  ghost predicate PublishedSkipped(d: Tables, matches: nat -> bool) {
    d.tier.Some? && forall r :: r in d.tier.value ==> !matches(r)
  }

  /** The staging table ruled out by the statistics of the snapshot itself. */
  ghost predicate StagingSkipped(staging: set<File>, matches: nat -> bool) {
    forall r :: Holds(staging, r) ==> !matches(r)
  }

  /** The query's reads: `s0` to `s4` are the states its five reads fell in. */
  ghost predicate Query(s0: State, s1: State, s2: State, s3: State, s4: State,
                        q: Seen, matches: nat -> bool) {
    && Reaches(s0, s1) && Reaches(s1, s2) && Reaches(s2, s3) && Reaches(s3, s4)
    && q.boundary == End(s0.d.staging)
    && (TailRead(s1.d, q.boundary, q.tail) || TailSkipped(s1.d, q.boundary, q.tail, matches))
    && q.staging == s2.d.staging
    && (q.useStaging || StagingSkipped(q.staging, matches))
    && (q.usePublished || PublishedSkipped(s3.d, matches))
    && q.published == s4.d.published
  }

  // ----- proofs -----

  lemma CopiesOnce(fs: set<File>, r: nat)
    requires RowsApart(fs)
    ensures Copies(fs, r) == Once(Holds(fs, r))
  {
    var holding := set f | f in fs && r in f.rows;
    if Holds(fs, r) {
      var f :| f in fs && r in f.rows;
      assert holding == {f};
    } else {
      assert holding == {};
    }
  }

  /** What the proof needs of a table's promises. */
  ghost predicate Steady(d: Tables) {
    && AllLoose(d.staging, d.committed) && RowsApart(d.staging)
    && AllLoose(d.published, d.committed) && RowsApart(d.published)
    && (forall f :: f in d.staging ==> d.low <= f.start < f.end)
    && (forall f :: f in d.published ==> d.low <= f.start < f.end)
    && (d.staging != {} ==> End(d.published) <= End(d.staging))
  }

  lemma DisjointApart(fs: set<File>, committed: set<nat>)
    requires AllTight(fs, committed) && Disjoint(fs)
    ensures RowsApart(fs)
  {
    forall f, g, r | f in fs && g in fs && r in f.rows && r in g.rows ensures f == g {
      assert Tight(f, committed) && Tight(g, committed);
    }
  }

  lemma SafeSteady(s: State)
    requires Safe(s)
    ensures Steady(s.d)
  {
    hide Watermark, TierRow, OpSafe, Tight, Loose;
    WrittenLoose(s.d, s.d.staging);
    assert AllTight(s.d.staging, s.d.committed) by { StagingTight(s.d); }
    DisjointApart(s.d.staging, s.d.committed);
  }

  lemma StagingTight(d: Tables)
    requires FilesOk(d)
    ensures AllTight(d.staging, d.committed)
  {
  }

  /** The first and last rows a table spans are committed. */
  lemma SpanCommitted(fs: set<File>, committed: set<nat>)
    requires AllLoose(fs, committed)
    ensures fs != {} ==> Start(fs) in committed && 1 <= End(fs) && End(fs) - 1 in committed
  {
    if fs != {} {
      var f :| f in fs && f.start == Start(fs);
      var g :| g in fs && g.end == End(fs);
      assert Loose(f, committed) && Loose(g, committed);
    }
  }

  /** The facts that join the five reads. */
  ghost predicate Joined(d0: Tables, d1: Tables, d2: Tables, d3: Tables, d4: Tables) {
    && Evolves(d0, d1) && Evolves(d1, d2) && Evolves(d2, d3) && Evolves(d3, d4)
    && Evolves(d1, d4) && Evolves(d2, d4)
    && Steady(d1) && Steady(d2) && Steady(d3) && Steady(d4)
  }

  lemma QueryJoined(s0: State, s1: State, s2: State, s3: State, s4: State, q: Seen, matches: nat -> bool)
    requires Safe(s0) && Query(s0, s1, s2, s3, s4, q, matches)
    ensures Safe(s1) && Safe(s2) && Safe(s3) && Safe(s4)
    ensures Joined(s0.d, s1.d, s2.d, s3.d, s4.d)
  {
    hide Evolves, Reaches, Safe, TailRead, TailSkipped, StagingSkipped, PublishedSkipped;
    ReachesEvolves(s0, s1);
    ReachesEvolves(s1, s2);
    ReachesEvolves(s2, s3);
    ReachesEvolves(s3, s4);
    SafeSteady(s1); SafeSteady(s2); SafeSteady(s3); SafeSteady(s4);
    EvolvesOn(s2.d, s3.d, s4.d);
    EvolvesOn(s1.d, s2.d, s4.d);
  }

  /** A row no higher than one committed before was committed before. */
  lemma CommittedBefore(d: Tables, e: Tables, r: nat, x: nat)
    requires Evolves(d, e) && r in e.committed && x in d.committed && r <= x
    ensures r in d.committed
  {
    assert r !in d.committed ==> AboveAll(d.committed, r);
  }

  /** The tail holds every row that was only buffered when it was read, and matches. */
  lemma TailComplete(d0: Tables, d1: Tables, q: Seen, matches: nat -> bool, r: nat)
    requires Evolves(d0, d1) && Legs(d1) && q.boundary == End(d0.staging)
    requires TailRead(d1, q.boundary, q.tail) || TailSkipped(d1, q.boundary, q.tail, matches)
    requires r in d1.committed && Past(d1) <= r && matches(r)
    ensures r in q.tail
  {
    assert q.boundary <= Past(d0) <= r;
    assert r in d1.buffer;
  }

  lemma TailCommitted(d1: Tables, q: Seen, matches: nat -> bool)
    requires TailRead(d1, q.boundary, q.tail) || TailSkipped(d1, q.boundary, q.tail, matches)
    ensures q.tail <= d1.committed
  {
  }

  /** The rows a skipped published table would have given match nothing. */
  lemma SkippedPublished(d2: Tables, d3: Tables, matches: nat -> bool, r: nat)
    requires Legs(d2) && TierRow(d3) && Evolves(d2, d3)
    requires PublishedSkipped(d3, matches)
    requires r in d2.committed && d3.low <= r && r < Frontier(d2)
    requires d2.staging == {} || r < Start(d2.staging)
    ensures !matches(r)
  {
    assert Holds(d2.published, r);
    assert Holds(d3.published, r);
    var p :| p in d3.published && r in p.rows;
    assert BelowStaging(d3, r);
  }

  // ----- the cases -----

  /** What a query should return of row `r`: once, if it is committed and below the cut. */
  ghost function Due(d: Tables, q: Seen, top: nat, r: nat): nat {
    Once(r in d.committed && d.low <= r < Cut(q, top))
  }

  /** The reads, seen from the tables alone. */
  ghost predicate Reads(d0: Tables, d1: Tables, d2: Tables, d3: Tables, d4: Tables,
                        q: Seen, matches: nat -> bool) {
    && Joined(d0, d1, d2, d3, d4)
    && Legs(d1) && Legs(d2) && Legs(d4) && TierRow(d3)
    && q.boundary == End(d0.staging)
    && (TailRead(d1, q.boundary, q.tail) || TailSkipped(d1, q.boundary, q.tail, matches))
    && q.staging == d2.staging
    && (q.useStaging || StagingSkipped(q.staging, matches))
    && (q.usePublished || PublishedSkipped(d3, matches))
    && q.published == d4.published
  }

  lemma PublishedCopies(d: Tables, r: nat)
    requires Steady(d)
    ensures Copies(d.published, r) == Once(Holds(d.published, r))
    ensures Copies(d.staging, r) == Once(Holds(d.staging, r))
    ensures Holds(d.published, r) ==> r in d.committed && d.low <= r < End(d.published)
    ensures Holds(d.staging, r) ==> r in d.committed && Start(d.staging) <= r < End(d.staging)
  {
    CopiesOnce(d.published, r);
    CopiesOnce(d.staging, r);
    HeldInSpan(d.published, d.committed, r);
    HeldInSpan(d.staging, d.committed, r);
    if Holds(d.published, r) {
      var p :| p in d.published && p.start == Start(d.published);
    }
  }

  lemma BelowLeg(d0: Tables, d1: Tables, d2: Tables, d3: Tables, d4: Tables,
                 q: Seen, matches: nat -> bool, r: nat)
    requires Reads(d0, d1, d2, d3, d4, q, matches) && matches(r) && d4.low <= r
    requires q.staging != {} && r < Start(q.staging)
    ensures (if ReadsPublished(q) then Once(Holds(q.published, r)) else 0) == Once(r in d4.committed)
  {
    hide TierRow, TailRead, TailSkipped, StagingSkipped, PublishedSkipped, Loose, RowsApart;
    PublishedCopies(d4, r);
    SpanNonempty(d2.staging);
    if r in d4.committed {
      SpanCommitted(d2.staging, d2.committed);
      CommittedBefore(d2, d4, r, Start(d2.staging));
      assert Holds(d2.published, r);
      assert Holds(d4.published, r);
      if !q.usePublished { SkippedPublished(d2, d3, matches, r); }
    }
  }

  lemma StagingLeg(d0: Tables, d1: Tables, d2: Tables, d3: Tables, d4: Tables,
                   q: Seen, matches: nat -> bool, r: nat)
    requires Reads(d0, d1, d2, d3, d4, q, matches) && matches(r) && d4.low <= r
    requires q.staging != {} && Start(q.staging) <= r < End(q.staging)
    ensures (if q.useStaging then Once(Holds(q.staging, r)) else 0) == Once(r in d4.committed)
  {
    hide TierRow, TailRead, TailSkipped, PublishedSkipped, Evolves, Steady, Legs;
    StagingHeld(d2, d4, r);
  }

  /** A later table has no row in the span of an earlier staging snapshot that it missed. */
  lemma StagingHeld(d2: Tables, d4: Tables, r: nat)
    requires Steady(d2) && Legs(d2) && Evolves(d2, d4)
    requires d2.staging != {} && Start(d2.staging) <= r < End(d2.staging)
    ensures Holds(d2.staging, r) <==> r in d4.committed
  {
    hide Loose, RowsApart, PublishedWhole;
    PublishedCopies(d2, r);
    if r in d4.committed {
      SpanCommitted(d2.staging, d2.committed);
      CommittedBefore(d2, d4, r, End(d2.staging) - 1);
      assert Holds(d2.staging, r);
    }
  }

  lemma TailLeg(d0: Tables, d1: Tables, d2: Tables, d3: Tables, d4: Tables,
                q: Seen, matches: nat -> bool, r: nat)
    requires Reads(d0, d1, d2, d3, d4, q, matches) && matches(r)
    requires Past(d2) <= r
    ensures r in q.tail <==> r in d4.committed && r < Top(d1.committed)
  {
    hide Legs, TierRow, TailRead, TailSkipped, PublishedSkipped, StagingSkipped, Steady, Frontier, Holds;
    TailCommitted(d1, q, matches);
    if r in d4.committed && r < Top(d1.committed) {
      CommittedBefore(d1, d4, r, Top(d1.committed) - 1);
      TailComplete(d0, d1, q, matches, r);
    }
  }

  lemma StagedUnion(d0: Tables, d1: Tables, d2: Tables, d3: Tables, d4: Tables,
                    q: Seen, matches: nat -> bool, r: nat)
    requires Reads(d0, d1, d2, d3, d4, q, matches) && matches(r) && q.staging != {} && d4.low <= r
    ensures Returned(q, r) == Due(d4, q, Top(d1.committed), r)
  {
    hide Legs, TierRow, TailRead, TailSkipped, PublishedSkipped, StagingSkipped, Evolves, Loose, RowsApart;
    PublishedCopies(d2, r);
    PublishedCopies(d4, r);
    SpanNonempty(d2.staging);
    if r < Start(q.staging) {
      BelowLeg(d0, d1, d2, d3, d4, q, matches, r);
    } else if r < End(q.staging) {
      StagingLeg(d0, d1, d2, d3, d4, q, matches, r);
    } else {
      LowRises(d0, d1, d2, d3, d4);
      TailLeg(d0, d1, d2, d3, d4, q, matches, r);
    }
  }

  lemma LowRises(d0: Tables, d1: Tables, d2: Tables, d3: Tables, d4: Tables)
    requires Joined(d0, d1, d2, d3, d4)
    ensures d1.low <= d2.low <= d4.low && Base(d2) <= Base(d4)
    ensures d2.staging != {} ==> d2.low <= Start(d2.staging) < End(d2.staging)
    ensures d4.published != {} ==> d4.low < End(d4.published)
    ensures d1.committed <= d4.committed
  {
    SpanNonempty(d2.staging);
    if d4.published != {} {
      var p :| p in d4.published && p.end == End(d4.published);
    }
  }

  lemma PublishedUnion(d0: Tables, d1: Tables, d2: Tables, d3: Tables, d4: Tables,
                       q: Seen, matches: nat -> bool, r: nat)
    requires Reads(d0, d1, d2, d3, d4, q, matches) && matches(r) && d4.low <= r
    requires q.staging == {} && ReadsPublished(q)
    ensures Returned(q, r) == Due(d4, q, Top(d1.committed), r)
  {
    hide TierRow, TailRead, TailSkipped, PublishedSkipped, StagingSkipped, Evolves, Loose, RowsApart;
    PublishedCopies(d4, r);
    LowRises(d0, d1, d2, d3, d4);
    if r < End(q.published) {
      assert r in d4.committed ==> Holds(d4.published, r);
    } else {
      TailLeg(d0, d1, d2, d3, d4, q, matches, r);
    }
  }

  /** With no table to cut it, the tail is the answer. */
  lemma TailUnion(d0: Tables, d1: Tables, d2: Tables, d3: Tables, d4: Tables,
                  q: Seen, matches: nat -> bool, r: nat)
    requires Reads(d0, d1, d2, d3, d4, q, matches) && matches(r) && !TailCut(q) && d4.low <= r
    ensures Returned(q, r) == Due(d4, q, Top(d1.committed), r)
  {
    hide TierRow, TailRead, TailSkipped, PublishedSkipped, StagingSkipped, Evolves, Legs, Loose, RowsApart;
    LowRises(d0, d1, d2, d3, d4);
    TailCommitted(d1, q, matches);
    if Past(d2) <= r {
      TailLeg(d0, d1, d2, d3, d4, q, matches, r);
    } else {
      NoFiledMatch(d0, d1, d2, d3, d4, q, matches, r);
    }
  }

  /** With nothing staged, what is filed and committed is published, and stays so. */
  lemma FiledIsPublished(d: Tables, e: Tables, r: nat)
    requires Legs(d) && AllLoose(d.published, d.committed) && d.staging == {} && Evolves(d, e)
    requires r in e.committed && e.low <= r < Past(d)
    ensures Holds(d.published, r) && Holds(e.published, r) && e.published != {}
    ensures r in d.committed && r < Frontier(d)
  {
    hide Loose;
    SpanCommitted(d.published, d.committed);
    CommittedBefore(d, e, r, End(d.published) - 1);
  }

  /** What is filed below the tail, and left out with the published table, matches nothing. */
  lemma NoFiledMatch(d0: Tables, d1: Tables, d2: Tables, d3: Tables, d4: Tables,
                     q: Seen, matches: nat -> bool, r: nat)
    requires Reads(d0, d1, d2, d3, d4, q, matches) && matches(r) && !TailCut(q)
    requires d4.low <= r < Past(d2)
    ensures r !in d4.committed && r !in q.tail
  {
    hide TailRead, TailSkipped, PublishedSkipped, StagingSkipped, Loose, RowsApart, TierRow, Legs;
    hide AllLoose, Holds, Frontier, Past;
    TailCommitted(d1, q, matches);
    if r in d4.committed {
      FiledIsPublished(d2, d4, r);
      if !q.usePublished { SkippedPublished(d2, d3, matches, r); }
    }
  }

  /** A row truncated before the snapshots comes back only from a tail nothing cuts. */
  lemma TruncatedUnion(d0: Tables, d1: Tables, d2: Tables, d3: Tables, d4: Tables,
                       q: Seen, matches: nat -> bool, r: nat)
    requires Reads(d0, d1, d2, d3, d4, q, matches) && r < d2.low
    ensures Returned(q, r) == Once(!TailCut(q) && r in q.tail)
  {
    hide TierRow, TailRead, TailSkipped, PublishedSkipped, StagingSkipped, Evolves, Legs, Loose, RowsApart;
    LowRises(d0, d1, d2, d3, d4);
    PublishedCopies(d2, r);
    PublishedCopies(d4, r);
  }

  lemma NeverTwice(d0: Tables, d1: Tables, d2: Tables, d3: Tables, d4: Tables,
                   q: Seen, matches: nat -> bool, r: nat)
    requires Reads(d0, d1, d2, d3, d4, q, matches)
    ensures Returned(q, r) <= 1
  {
    hide TierRow, TailRead, TailSkipped, PublishedSkipped, StagingSkipped, Evolves, Legs, Loose, RowsApart;
    LowRises(d0, d1, d2, d3, d4);
    PublishedCopies(d2, r);
    PublishedCopies(d4, r);
  }

  lemma ExactRow(d0: Tables, d1: Tables, d2: Tables, d3: Tables, d4: Tables,
                 q: Seen, matches: nat -> bool, r: nat)
    requires Reads(d0, d1, d2, d3, d4, q, matches) && matches(r) && d4.low <= r
    ensures Returned(q, r) == Due(d4, q, Top(d1.committed), r)
  {
    hide Reads, Returned, Due;
    if q.staging != {} {
      StagedUnion(d0, d1, d2, d3, d4, q, matches, r);
    } else if ReadsPublished(q) {
      PublishedUnion(d0, d1, d2, d3, d4, q, matches, r);
    } else {
      TailUnion(d0, d1, d2, d3, d4, q, matches, r);
    }
  }

  // ----- the theorem -----

  /** A query returns each matching row that is committed and not truncated, below
      one cut, exactly once, whatever moved between its reads and whichever tiers
      it left out; the cut is past every row committed when the buffer was read. No
      row comes back twice, and one truncated before the snapshots were taken comes
      back just when no table cuts the tail and the buffer's cache still has it. */
  lemma QueryExact(s0: State, s1: State, s2: State, s3: State, s4: State, q: Seen, matches: nat -> bool)
    requires Reachable(s0) && Query(s0, s1, s2, s3, s4, q, matches)
    ensures forall r: nat :: r in s1.d.committed ==> r < Cut(q, Top(s1.d.committed))
    ensures forall r: nat :: matches(r) && s4.d.low <= r ==> Returned(q, r) == Due(s4.d, q, Top(s1.d.committed), r)
    ensures forall r: nat :: r < s2.d.low ==> Returned(q, r) == Once(!TailCut(q) && r in q.tail)
    ensures forall r: nat :: Returned(q, r) <= 1
  {
    hide Reachable, Reads, Returned, Due, TailRead, TailSkipped, Reaches;
    QueryReads(s0, s1, s2, s3, s4, q, matches);
    forall r: nat | matches(r) && s4.d.low <= r
      ensures Returned(q, r) == Due(s4.d, q, Top(s1.d.committed), r)
    {
      ExactRow(s0.d, s1.d, s2.d, s3.d, s4.d, q, matches, r);
    }
    forall r: nat | r < s2.d.low ensures Returned(q, r) == Once(!TailCut(q) && r in q.tail) {
      TruncatedUnion(s0.d, s1.d, s2.d, s3.d, s4.d, q, matches, r);
    }
    forall r: nat ensures Returned(q, r) <= 1 {
      NeverTwice(s0.d, s1.d, s2.d, s3.d, s4.d, q, matches, r);
    }
  }

  lemma QueryReads(s0: State, s1: State, s2: State, s3: State, s4: State, q: Seen, matches: nat -> bool)
    requires Reachable(s0) && Query(s0, s1, s2, s3, s4, q, matches)
    ensures Reads(s0.d, s1.d, s2.d, s3.d, s4.d, q, matches)
  {
    hide Reachable, Reaches, OpSafe, NoneClash, FilesOk, Watermark, Evolves, Joined, Legs, TierRow;
    ReachableSafe(s0);
    QueryJoined(s0, s1, s2, s3, s4, q, matches);
  }

  /** Where no truncation finishes between the snapshots, the whole answer is exact
      just when a table cuts the tail or the tail holds no truncated match. */
  lemma QueryExactWhen(s0: State, s1: State, s2: State, s3: State, s4: State, q: Seen, matches: nat -> bool)
    requires Reachable(s0) && Query(s0, s1, s2, s3, s4, q, matches) && s2.d.low == s4.d.low
    ensures (forall r: nat :: matches(r) ==> Returned(q, r) == Due(s4.d, q, Top(s1.d.committed), r))
            <==> (TailCut(q) || forall r: nat :: matches(r) && r in q.tail ==> s4.d.low <= r)
  {
    hide Reachable, Query, Returned, Cut, Top, TailCut;
    QueryExact(s0, s1, s2, s3, s4, q, matches);
    forall r: nat | r < s2.d.low ensures Due(s4.d, q, Top(s1.d.committed), r) == 0 { }
    if !TailCut(q) && !(forall r: nat :: matches(r) && r in q.tail ==> s4.d.low <= r) {
      var r: nat :| matches(r) && r in q.tail && r < s4.d.low;
      assert Returned(q, r) == 1;
    }
  }
}
