/** What `MergeWriter` writes is what the tier protocol takes a merge to be: new files
    holding exactly the run's rows, cut below the watermark only where a staging file ends. */
module MergeRewrites {
  import opened Options
  import opened RowGroups
  import opened MergeWriter
  import T = TierState
  import S = TierSteps

  function Offsets(rows: seq<Row>): set<nat> {
    set row <- rows :: row.offset
  }

  /** The file an output is, under the path it was given. */
  function FileOf(output: Output, path: nat): T.File {
    T.File(path, output.start, output.end, Offsets(Flat(output.groups)))
  }

  function FilesOf(outputs: seq<Output>, paths: seq<nat>): set<T.File>
    requires |outputs| == |paths|
  {
    set i | 0 <= i < |outputs| :: FileOf(outputs[i], paths[i])
  }

  /** Every slice ends right after its last row: a row group's statistics say so, and a
      file's extent does. */
  ghost predicate Tight(slices: seq<Slice>) {
    forall i :: 0 <= i < |slices| ==> EndsAtRow(slices[i])
  }

  ghost predicate EndsAtRow(slice: Slice) {
    exists row <- Concat(slice.batches) :: row.offset == slice.hi - 1
  }

  /** What a merge's outputs are known to be. */
  ghost predicate Merged(run: seq<DataFile>, slices: seq<Slice>, plan: Plan, outputs: seq<Output>) {
    && run != []
    && multiset(Written(outputs)) == multiset(RowsOf(Inputs(slices)))
    && (forall output <- outputs :: Extends(output, plan.ordered))
    && outputs != [] && outputs[0].start == run[0].start && outputs[|outputs| - 1].end == run[|run| - 1].end
    && (forall i :: 0 <= i < |outputs| - 1 ==> EndsBetween(His(slices), RunEnds(run), plan, outputs[i], outputs[i + 1]))
  }

  lemma {:induction false} InOutput(outputs: seq<Output>, row: Row)
    ensures row in Written(outputs) <==> exists i :: 0 <= i < |outputs| && row in Flat(outputs[i].groups)
  {
    hide Flat;
    if outputs != [] {
      InOutput(outputs[1..], row);
      if i :| 0 <= i < |outputs| && row in Flat(outputs[i].groups) {
        if i > 0 { assert outputs[1..][i - 1] == outputs[i]; }
      }
      if i :| 0 <= i < |outputs[1..]| && row in Flat(outputs[1..][i].groups) {
        assert outputs[1..][i] == outputs[i + 1];
      }
    }
  }

  lemma {:induction false} InSlice(slices: seq<Slice>, row: Row)
    ensures row in RowsOf(Inputs(slices)) <==> exists i :: 0 <= i < |slices| && row in Concat(slices[i].batches)
  {
    hide Concat;
    if slices != [] {
      assert Inputs(slices)[1..] == Inputs(slices[1..]);
      InSlice(slices[1..], row);
      if i :| 0 <= i < |slices| && row in Concat(slices[i].batches) {
        if i > 0 { assert slices[1..][i - 1] == slices[i]; }
      }
      if i :| 0 <= i < |slices[1..]| && row in Concat(slices[1..][i].batches) {
        assert slices[1..][i] == slices[i + 1];
      }
    }
  }

  /** The outputs' ranges are in order. */
  lemma {:induction false} InSequence(run: seq<DataFile>, slices: seq<Slice>, plan: Plan, outputs: seq<Output>, i: nat, j: nat)
    requires Merged(run, slices, plan, outputs) && i < j < |outputs|
    ensures outputs[i].end <= outputs[j].start
    decreases j - i
  {
    hide EndAfter, Flat, AllInOrder, RowsOf, Written;
    assert EndsBetween(His(slices), RunEnds(run), plan, outputs[i], outputs[i + 1]);
    if i + 1 < j {
      InSequence(run, slices, plan, outputs, i + 1, j);
      assert outputs[i + 1] in outputs;
    }
  }

  /** A row written is one of the slices', and the other way about. */
  lemma SameRows(run: seq<DataFile>, slices: seq<Slice>, plan: Plan, outputs: seq<Output>, row: Row)
    requires Merged(run, slices, plan, outputs)
    ensures (exists i :: 0 <= i < |outputs| && row in Flat(outputs[i].groups))
       <==> (exists i :: 0 <= i < |slices| && row in Concat(slices[i].batches))
  {
    hide Flat, Concat, Extends, EndsBetween, RunEnds;
    InOutput(outputs, row);
    InSlice(slices, row);
    assert row in Written(outputs) <==> row in multiset(Written(outputs));
    assert row in RowsOf(Inputs(slices)) <==> row in multiset(RowsOf(Inputs(slices)));
  }

  /** The first slice to end past an offset a slice holds ends where that slice does. */
  lemma {:induction false} EndAfterIn(slices: seq<Slice>, offset: nat, j: nat)
    requires Readable(slices) && j < |slices| && slices[j].lo <= offset < slices[j].hi
    ensures EndAfter(His(slices), offset) == Some(slices[j].hi)
  {
    var rest := slices[1..];
    assert His(slices)[1..] == His(rest) && His(slices)[0] == slices[0].hi;
    if j > 0 {
      ReadableRest(slices);
      hide Readable;
      assert rest[j - 1] == slices[j] && slices[j] in rest;
      EndAfterIn(rest, offset, j - 1);
    }
  }

  /** The slice an output's last row came from. */
  lemma LastSlice(run: seq<DataFile>, slices: seq<Slice>, plan: Plan, outputs: seq<Output>, i: nat) returns (j: nat)
    requires Readable(slices) && Merged(run, slices, plan, outputs) && i < |outputs|
    ensures outputs[i].end > 0 && j < |slices| && slices[j].lo <= outputs[i].end - 1 < slices[j].hi
  {
    hide EndsBetween, Concat, Flat, RunEnds, AllInOrder, Written, RowsOf;
    assert outputs[i] in outputs;
    var final: Row :| final in Flat(outputs[i].groups) && final.offset == outputs[i].end - 1;
    SameRows(run, slices, plan, outputs, final);
    j :| 0 <= j < |slices| && final in Concat(slices[j].batches);
  }

  /** The output a slice's last row went to. */
  lemma EdgeOutput(run: seq<DataFile>, slices: seq<Slice>, plan: Plan, outputs: seq<Output>, j: nat) returns (k: nat)
    requires Tight(slices) && Merged(run, slices, plan, outputs) && j < |slices| && slices[j].hi > 0
    ensures k < |outputs| && outputs[k].start <= slices[j].hi - 1 < outputs[k].end
  {
    hide EndsBetween, Concat, Flat, RunEnds, AllInOrder, Written, RowsOf;
    var edge: Row :| edge in Concat(slices[j].batches) && edge.offset == slices[j].hi - 1;
    SameRows(run, slices, plan, outputs, edge);
    k :| 0 <= k < |outputs| && edge in Flat(outputs[k].groups);
    assert outputs[k] in outputs;
  }

  /** Tight slices make tight cuts: a file not the last ends exactly where a slice does. */
  lemma CutExact(run: seq<DataFile>, slices: seq<Slice>, plan: Plan, outputs: seq<Output>, i: nat)
    requires Readable(slices) && Tight(slices) && Merged(run, slices, plan, outputs) && i < |outputs| - 1
    ensures plan.floor <= outputs[i].end || outputs[i].end in RunEnds(run)
  {
    CutBetween(run, slices, plan, outputs, i);
    hide *;
    var j := LastSlice(run, slices, plan, outputs, i);
    EndAfterIn(slices, outputs[i].end - 1, j);
    var k := EdgeOutput(run, slices, plan, outputs, j);
    if i + 1 < k { InSequence(run, slices, plan, outputs, i + 1, k); }
    if k < i { InSequence(run, slices, plan, outputs, k, i); }
  }

  lemma CutBetween(run: seq<DataFile>, slices: seq<Slice>, plan: Plan, outputs: seq<Output>, i: nat)
    requires Merged(run, slices, plan, outputs) && i < |outputs| - 1
    ensures outputs[i].start < outputs[i].end && outputs[i + 1].start < outputs[i + 1].end
    ensures var at := EndAfter(His(slices), outputs[i].end - 1);
      && at.Some? && outputs[i].end <= at.value <= outputs[i + 1].start
      && (at.value >= plan.floor || at.value in RunEnds(run))
  {
    hide Flat, AllInOrder, Written, RowsOf, RunEnds, EndAfter;
    assert outputs[i] in outputs && outputs[i + 1] in outputs;
    assert EndsBetween(His(slices), RunEnds(run), plan, outputs[i], outputs[i + 1]);
  }

  /** Any cut, and the last file's end. */
  lemma EndAllowed(run: seq<DataFile>, slices: seq<Slice>, plan: Plan, outputs: seq<Output>, i: nat)
    requires Readable(slices) && Tight(slices) && Merged(run, slices, plan, outputs) && i < |outputs|
    ensures plan.floor <= outputs[i].end || outputs[i].end in RunEnds(run)
  {
    if i < |outputs| - 1 {
      CutExact(run, slices, plan, outputs, i);
    } else {
      hide *;
      LastEnd(run, slices, plan, outputs);
    }
  }

  lemma LastEnd(run: seq<DataFile>, slices: seq<Slice>, plan: Plan, outputs: seq<Output>)
    requires Merged(run, slices, plan, outputs)
    ensures outputs != [] && outputs[|outputs| - 1].end in RunEnds(run)
  {
    hide Extends, EndsBetween, Written, RowsOf;
    assert run[|run| - 1] in run;
  }

  /** The run's files, as the protocol has them. */
  ghost predicate SameRun(run: seq<DataFile>, slices: seq<Slice>, files: set<T.File>) {
    && (forall f <- run :: exists g :: g in files && g.end == f.end)
    && (forall r :: T.Holds(files, r) <==> r in Offsets(RowsOf(Inputs(slices))))
  }

  lemma HoldsSame(run: seq<DataFile>, slices: seq<Slice>, plan: Plan, outputs: seq<Output>, paths: seq<nat>,
                  files: set<T.File>, r: nat)
    requires |outputs| == |paths| && Merged(run, slices, plan, outputs) && SameRun(run, slices, files)
    ensures T.Holds(files, r) <==> T.Holds(FilesOf(outputs, paths), r)
  {
    hide Extends, EndsBetween, Concat, Flat, RunEnds;
    var made, rows := FilesOf(outputs, paths), RowsOf(Inputs(slices));
    if T.Holds(files, r) {
      var row: Row :| row in rows && row.offset == r;
      InSlice(slices, row);
      SameRows(run, slices, plan, outputs, row);
      var i :| 0 <= i < |outputs| && row in Flat(outputs[i].groups);
      assert FileOf(outputs[i], paths[i]) in made && r in FileOf(outputs[i], paths[i]).rows;
    }
    if T.Holds(made, r) {
      var f :| f in made && r in f.rows;
      var i :| 0 <= i < |outputs| && f == FileOf(outputs[i], paths[i]);
      var row: Row :| row in Flat(outputs[i].groups) && row.offset == r;
      SameRows(run, slices, plan, outputs, row);
      InSlice(slices, row);
    }
  }

  /** Every file written is a file a merge may write. */
  lemma FileSound(run: seq<DataFile>, slices: seq<Slice>, plan: Plan, outputs: seq<Output>, path: nat, i: nat)
    requires i < |outputs| && Merged(run, slices, plan, outputs)
    ensures var o := FileOf(outputs[i], path);
      && o.start < o.end && o.start in o.rows && o.end - 1 in o.rows
      && (forall r :: r in o.rows ==> o.start <= r < o.end)
  {
    hide EndsBetween, Concat, Flat, RunEnds, AllInOrder, Written;
    assert outputs[i] in outputs;
  }

  /** Two files written are apart, under paths of their own. */
  lemma FilesApart(run: seq<DataFile>, slices: seq<Slice>, plan: Plan, outputs: seq<Output>, paths: seq<nat>,
                   f: T.File, g: T.File)
    requires Merged(run, slices, plan, outputs) && |paths| == |outputs|
    requires forall i, j :: 0 <= i < j < |paths| ==> paths[i] != paths[j]
    requires f in FilesOf(outputs, paths) && g in FilesOf(outputs, paths) && f != g
    ensures f.path != g.path && T.Apart(f, g)
  {
    hide Merged, Offsets, Flat;
    var i :| 0 <= i < |outputs| && f == FileOf(outputs[i], paths[i]);
    var j :| 0 <= j < |outputs| && g == FileOf(outputs[j], paths[j]);
    if i < j { InSequence(run, slices, plan, outputs, i, j); }
    if j < i { InSequence(run, slices, plan, outputs, j, i); }
  }

  lemma FileAllowed(d: T.Tables, run: seq<DataFile>, slices: seq<Slice>, plan: Plan, outputs: seq<Output>,
                    paths: seq<nat>, files: set<T.File>, o: T.File)
    requires Readable(slices) && Tight(slices) && Merged(run, slices, plan, outputs) && SameRun(run, slices, files)
    requires |paths| == |outputs| && o in FilesOf(outputs, paths)
    requires forall i :: 0 <= i < |paths| ==> S.FreshPath(d, paths[i])
    ensures S.FreshPath(d, o.path)
    ensures o.start < o.end && o.start in o.rows && o.end - 1 in o.rows
    ensures forall r :: r in o.rows ==> o.start <= r < o.end
    ensures plan.floor <= o.end || exists f :: f in files && f.end == o.end
  {
    hide Merged, Readable, Tight, Offsets, Flat, RowsOf, T.Holds;
    var i :| 0 <= i < |outputs| && o == FileOf(outputs[i], paths[i]);
    FileSound(run, slices, plan, outputs, paths[i], i);
    EndAllowed(run, slices, plan, outputs, i);
  }

  /** The merge's files are what the protocol's `WriteMerge` step allows. */
  lemma MergeRewritesRun(d: T.Tables, run: seq<DataFile>, slices: seq<Slice>, plan: Plan, outputs: seq<Output>,
                         paths: seq<nat>, files: set<T.File>)
    requires Readable(slices) && Tight(slices) && Merged(run, slices, plan, outputs) && SameRun(run, slices, files)
    requires |paths| == |outputs|
    requires forall i :: 0 <= i < |paths| ==> S.FreshPath(d, paths[i])
    requires forall i, j :: 0 <= i < j < |paths| ==> paths[i] != paths[j]
    ensures S.Rewrites(d, files, plan.floor, FilesOf(outputs, paths))
  {
    hide Merged, Readable, Tight, SameRun, FilesOf, T.Holds, T.Apart, S.FreshPath;
    FirstMade(run, slices, plan, outputs, paths);
    forall r ensures T.Holds(files, r) <==> T.Holds(FilesOf(outputs, paths), r) {
      HoldsSame(run, slices, plan, outputs, paths, files, r);
    }
    MadeAllowed(d, run, slices, plan, outputs, paths, files);
    MadeApart(run, slices, plan, outputs, paths);
  }

  lemma MadeAllowed(d: T.Tables, run: seq<DataFile>, slices: seq<Slice>, plan: Plan, outputs: seq<Output>,
                    paths: seq<nat>, files: set<T.File>)
    requires Readable(slices) && Tight(slices) && Merged(run, slices, plan, outputs) && SameRun(run, slices, files)
    requires |paths| == |outputs|
    requires forall i :: 0 <= i < |paths| ==> S.FreshPath(d, paths[i])
    ensures forall o :: o in FilesOf(outputs, paths) ==> S.FreshPath(d, o.path)
    ensures forall o :: o in FilesOf(outputs, paths) ==> o.start < o.end && o.start in o.rows && o.end - 1 in o.rows
    ensures forall o, r :: o in FilesOf(outputs, paths) && r in o.rows ==> o.start <= r < o.end
    ensures forall o :: o in FilesOf(outputs, paths) ==> plan.floor <= o.end || exists f :: f in files && f.end == o.end
  {
    hide *;
    forall o | o in FilesOf(outputs, paths)
      ensures S.FreshPath(d, o.path)
      ensures o.start < o.end && o.start in o.rows && o.end - 1 in o.rows
      ensures forall r :: r in o.rows ==> o.start <= r < o.end
      ensures plan.floor <= o.end || exists f :: f in files && f.end == o.end
    {
      FileAllowed(d, run, slices, plan, outputs, paths, files, o);
    }
  }

  lemma MadeApart(run: seq<DataFile>, slices: seq<Slice>, plan: Plan, outputs: seq<Output>, paths: seq<nat>)
    requires Merged(run, slices, plan, outputs) && |paths| == |outputs|
    requires forall i, j :: 0 <= i < j < |paths| ==> paths[i] != paths[j]
    ensures T.UniquePaths(FilesOf(outputs, paths)) && T.Disjoint(FilesOf(outputs, paths))
  {
    hide Merged, FilesOf, T.Apart;
    forall f, g | f in FilesOf(outputs, paths) && g in FilesOf(outputs, paths) && f != g
      ensures f.path != g.path && T.Apart(f, g)
    {
      FilesApart(run, slices, plan, outputs, paths, f, g);
    }
  }

  lemma FirstMade(run: seq<DataFile>, slices: seq<Slice>, plan: Plan, outputs: seq<Output>, paths: seq<nat>)
    requires Merged(run, slices, plan, outputs) && |paths| == |outputs|
    ensures FilesOf(outputs, paths) != {}
  {
    hide Offsets, Flat, Written, RowsOf, Extends, EndsBetween;
    assert FileOf(outputs[0], paths[0]) in FilesOf(outputs, paths);
  }
}
