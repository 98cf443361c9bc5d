/** A query leaves out a tier by its statistics and its WHERE: what it then misses, it was
    not asked for. So the reader's answer is exact for every WHERE. */
module TierSkips {
  import opened Options
  import opened TierState
  import opened TierSteps
  import opened TierTheorems
  import opened QueryReader
  import P = Prune
  import S = Statistics
  import E = PruneExact

  /** Each offset's row, which has that offset. */
  ghost predicate RowsAt(contents: nat -> P.Row, floating: string -> bool) {
    forall o: nat :: contents(o)(P.OFFSET) == P.Num(o as real) && S.Typed(contents(o), floating)
  }

  /** The rows a query asks for. */
  ghost function Asked(w: P.World, where: P.Expr, contents: nat -> P.Row): nat -> bool {
    (r: nat) => P.Means(w, where, contents(r)) == P.True
  }

  /** A stored row is true of rows among which are those at `offsets`. */
  ghost predicate Describes(stored: S.Stored, offsets: set<nat>, contents: nat -> P.Row) {
    exists rows :: S.StoredTrue(stored, rows) && Among(offsets, rows, contents)
  }

  ghost predicate Among(offsets: set<nat>, rows: seq<P.Row>, contents: nat -> P.Row) {
    forall o :: o in offsets ==> contents(o) in rows
  }

  /** The published tier's row stands for the rows the protocol's does. */
  ghost predicate RowFor(tier: Option<set<nat>>, stored: Option<S.Stored>, contents: nat -> P.Row) {
    && (tier.Some? <==> stored.Some?)
    && (tier.Some? ==> Describes(stored.value, tier.value, contents))
  }

  function EntryOf(stored: Option<S.Stored>, floating: string -> bool): Option<P.Unit> {
    if stored.None? then None else Some(S.Entry(stored.value, floating))
  }

  /** Eviction's widening keeps it so: no row stays no row. */
  lemma WidenedFor(tier: Option<set<nat>>, held: Option<S.Stored>, offsets: set<nat>, added: S.Stored, row: S.Stored,
                   names: seq<string>, contents: nat -> P.Row)
    requires RowFor(tier, held, contents) && Describes(added, offsets, contents)
    requires held.Some? ==>
      && (row.start, row.end) == S.Spanning(held.value, added)
      && row.summary.count == S.Total([held.value.summary, added.summary])
      && forall name :: name in row.summary.columns ==>
           row.summary.columns[name] == S.Result(S.FoldOf([held.value.summary, added.summary], name))
    ensures RowFor(Widened(tier, offsets), if held.Some? then Some(row) else None, contents)
  {
    hide S.StoredTrue, S.FoldOf, S.Total, S.Spanning;
    if held.Some? {
      var a :| S.StoredTrue(held.value, a) && Among(tier.value, a, contents);
      var b :| S.StoredTrue(added, b) && Among(offsets, b, contents);
      S.WidenTrue(names, held.value, a, added, b, row);
      assert Among(tier.value + offsets, a + b, contents);
    }
  }

  /** A stored row rules a term out: no offset of its range, and no number between its
      bounds for the column, meets it. */
  ghost predicate Excludes(stored: S.Stored, floating: string -> bool, term: P.Term) {
    if term.column == P.OFFSET then
      || stored.end <= stored.start
      || (E.Numeric(term) && E.NoneMeets(term, stored.start as real, Some((stored.end - 1) as real)))
    else
      && term.column in stored.summary.columns
      && var c := stored.summary.columns[term.column];
        && c.min.Some? && c.max.Some? && (floating(term.column) ==> c.nans == Some(0))
        && E.Numeric(term) && E.NoneMeets(term, c.min.value, c.max)
  }

  /** A tier is left out exactly when its stored row counts no rows, or excludes what a
      conjunct of WHERE says of a column. */
  lemma TierLeftOutIff(w: P.World, where: P.Expr, stored: Option<S.Stored>, floating: string -> bool)
    requires stored.Some? ==> forall name <- stored.value.summary.columns ::
      var c := stored.value.summary.columns[name]; c.min.Some? && c.max.Some? ==> c.min.value <= c.max.value
    ensures !P.Kept(EntryOf(stored, floating), P.Terms(w, where)) <==>
      && stored.Some?
      && (|| stored.value.summary.count == Some(0)
          || exists c, term :: E.Part(c, where) && E.Tells(w, c, term) && Excludes(stored.value, floating, term))
  {
    hide P.Kept, P.Terms, E.Part, E.Tells;
    E.LeftOutIff(w, where, EntryOf(stored, floating));
    if stored.Some? {
      forall term ensures E.RulesOut(S.Entry(stored.value, floating), term) <==> Excludes(stored.value, floating, term) {
        EntryRulesOut(stored.value, floating, term);
      }
    }
  }

  lemma EntryRulesOut(stored: S.Stored, floating: string -> bool, term: P.Term)
    ensures E.RulesOut(S.Entry(stored, floating), term) <==> Excludes(stored, floating, term)
  {
    hide E.Numeric, E.NoneMeets;
  }

  /** A tier left out holds none of the rows asked for. */
  lemma LeftOutUnasked(w: P.World, where: P.Expr, stored: S.Stored, offsets: set<nat>, contents: nat -> P.Row,
                       floating: string -> bool, o: nat)
    requires RowsAt(contents, floating) && Describes(stored, offsets, contents) && o in offsets
    requires !P.Kept(Some(S.Entry(stored, floating)), P.Terms(w, where))
    ensures !Asked(w, where, contents)(o)
  {
    hide S.StoredTrue, P.Kept, P.Terms, P.Means, P.Describes, S.Typed;
    var rows :| S.StoredTrue(stored, rows) && Among(offsets, rows, contents);
    assert contents(o) in rows;
    var i :| 0 <= i < |rows| && rows[i] == contents(o);
    S.TrueDescribes(stored, rows, floating, i);
    if P.Means(w, where, contents(o)) == P.True {
      P.SkipSound(w, where, Some(S.Entry(stored, floating)), contents(o));
    }
  }

  lemma PublishedUnasked(w: P.World, where: P.Expr, d: Tables, stored: Option<S.Stored>, contents: nat -> P.Row,
                         floating: string -> bool)
    requires RowsAt(contents, floating) && RowFor(d.tier, stored, contents)
    requires !P.Kept(EntryOf(stored, floating), P.Terms(w, where))
    ensures PublishedSkipped(d, Asked(w, where, contents))
  {
    hide P.Terms, Describes, RowsAt, Asked;
    forall r | d.tier.Some? && r in d.tier.value ensures !Asked(w, where, contents)(r) {
      LeftOutUnasked(w, where, stored.value, d.tier.value, contents, floating, r);
    }
  }

  lemma StagingUnasked(w: P.World, where: P.Expr, staging: set<File>, stored: S.Stored, contents: nat -> P.Row,
                       floating: string -> bool)
    requires RowsAt(contents, floating) && Describes(stored, RowsOf(staging), contents)
    requires !P.Kept(Some(S.Entry(stored, floating)), P.Terms(w, where))
    ensures StagingSkipped(staging, Asked(w, where, contents))
  {
    hide P.Terms, P.Kept, Describes, RowsAt, Asked;
    forall r | Holds(staging, r) ensures !Asked(w, where, contents)(r) {
      LeftOutUnasked(w, where, stored, RowsOf(staging), contents, floating, r);
    }
  }

  /** The staging table's end, as the reader has it: none for an empty table. */
  ghost function Boundary(staging: set<File>): Option<int> {
    if staging == {} then None else Some(End(staging))
  }

  lemma TailUnasked(w: P.World, where: P.Expr, d: Tables, staging: set<File>, lowest: nat, contents: nat -> P.Row,
                    floating: string -> bool)
    requires RowsAt(contents, floating)
    requires lowest in d.buffer && forall r :: r in d.buffer ==> lowest <= r
    requires !P.BufferCouldMatch(P.Terms(w, where), Some(lowest), Boundary(staging), None)
    ensures TailSkipped(d, End(staging), {}, Asked(w, where, contents))
  {
    hide P.Terms, P.Kept, P.Means, S.Typed;
    var floor := Later(lowest, End(staging));
    var unit := P.Unit(None, Some(floor), None, map[]);
    forall r | floor <= r ensures !Asked(w, where, contents)(r) {
      assert P.OffsetAt(unit, contents(r), r);
      if P.Means(w, where, contents(r)) == P.True {
        P.SkipSound(w, where, Some(unit), contents(r));
      }
    }
  }

  /** A query as the reader runs it: what it leaves out, it leaves out by its WHERE and the
      statistics it reads. */
  ghost predicate Asks(s0: State, s1: State, s2: State, s3: State, s4: State, q: Seen, w: P.World, where: P.Expr,
                       contents: nat -> P.Row, floating: string -> bool, lowest: nat, local: Option<S.Stored>,
                       stored: Option<S.Stored>) {
    && Reaches(s0, s1) && Reaches(s1, s2) && Reaches(s2, s3) && Reaches(s3, s4)
    && q.boundary == End(s0.d.staging)
    && (TailRead(s1.d, q.boundary, q.tail)
        || (&& q.tail == {}
            && lowest in s1.d.buffer && (forall r :: r in s1.d.buffer ==> lowest <= r)
            && !P.BufferCouldMatch(P.Terms(w, where), Some(lowest), Boundary(s0.d.staging), None)))
    && q.staging == s2.d.staging
    && (local.Some? ==> Describes(local.value, RowsOf(q.staging), contents))
    && q.useStaging == P.Kept(EntryOf(local, floating), P.Terms(w, where))
    && RowFor(s3.d.tier, stored, contents)
    && q.usePublished == P.Kept(EntryOf(stored, floating), P.Terms(w, where))
    && q.published == s4.d.published
  }

  /** Whatever its WHERE, and whichever tiers it lets the reader leave out, each committed
      row for which it is true, not truncated and below the query's cut, comes back exactly
      once. */
  lemma WhereExact(s0: State, s1: State, s2: State, s3: State, s4: State, q: Seen, w: P.World, where: P.Expr,
                   contents: nat -> P.Row, floating: string -> bool, lowest: nat, local: Option<S.Stored>,
                   stored: Option<S.Stored>)
    requires Reachable(s0) && RowsAt(contents, floating)
    requires Asks(s0, s1, s2, s3, s4, q, w, where, contents, floating, lowest, local, stored)
    ensures Query(s0, s1, s2, s3, s4, q, Asked(w, where, contents))
    ensures forall r: nat :: Asked(w, where, contents)(r) && s4.d.low <= r ==>
      Returned(q, r) == Due(s4.d, q, Top(s1.d.committed), r)
  {
    AsksQuery(s0, s1, s2, s3, s4, q, w, where, contents, floating, lowest, local, stored);
    hide Reachable, Query, Asks, RowsAt, Asked, Returned, Due;
    QueryExact(s0, s1, s2, s3, s4, q, Asked(w, where, contents));
  }

  lemma AsksQuery(s0: State, s1: State, s2: State, s3: State, s4: State, q: Seen, w: P.World, where: P.Expr,
                  contents: nat -> P.Row, floating: string -> bool, lowest: nat, local: Option<S.Stored>,
                  stored: Option<S.Stored>)
    requires RowsAt(contents, floating)
    requires Asks(s0, s1, s2, s3, s4, q, w, where, contents, floating, lowest, local, stored)
    ensures Query(s0, s1, s2, s3, s4, q, Asked(w, where, contents))
  {
    hide Reaches, RowsAt, Asked, TailRead, TailSkipped, PublishedSkipped, StagingSkipped, Describes, RowFor, P.Terms,
         P.BufferCouldMatch;
    if !TailRead(s1.d, q.boundary, q.tail) { TailUnasked(w, where, s1.d, s0.d.staging, lowest, contents, floating); }
    if !q.useStaging { StagingUnasked(w, where, q.staging, local.value, contents, floating); }
    if !q.usePublished { PublishedUnasked(w, where, s3.d, stored, contents, floating); }
  }
}
