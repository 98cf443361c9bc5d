/** What a publish lists, from the staging files it saw, is what the tier protocol has it
    swap and push: the files compaction is finished with, those covered already, and under
    a flush every one. */
module PushPlans {
  import opened TierState
  import opened TierSteps
  import opened TierTables
  import opened C = CompactionPlan
  import opened MergePlans
  import SettledFiles

  /** `files` lists `fs`, in offset order. */
  ghost predicate Shows(fs: set<File>, files: seq<DataFile>) {
    && C.InOrder(files)
    && (forall f :: f in fs ==> Listed(files, f))
    && (forall x :: x in files ==> InTable(fs, x))
  }

  /** Where the first file compaction may still merge begins; past every file, if none. */
  function FinishedTo(files: seq<DataFile>, policy: Policy): nat {
    var settled := C.Settled(files, policy);
    if settled < |files| then files[settled].start
    else if files == [] then 0
    else files[|files| - 1].end
  }

  lemma FinishedIff(files: seq<DataFile>, policy: Policy, i: nat)
    requires C.InOrder(files) && 2 <= policy.minFiles && i < |files|
    ensures files[i].end <= FinishedTo(files, policy) <==> i < C.Settled(files, policy)
  {
    hide C.Settled;
    SettledEndsFull(files, policy);
    var settled := C.Settled(files, policy);
    if settled < |files| {
      assert i < settled ==> files[i].end <= files[settled].start;
      assert settled < i ==> files[settled].end <= files[i].start;
    } else {
      assert i < |files| - 1 ==> files[i].end <= files[|files| - 1].start;
    }
  }

  // ----- the swaps -----

  predicate Straddling(f: DataFile, floor: nat) {
    f.start < floor < f.end
  }

  /** Owed a swap or straddling the floor, and finished with or, straddling it, flushed. */
  predicate Candidate(files: seq<DataFile>, i: nat, policy: Policy, owed: set<nat>, floor: nat, flush: bool)
    requires i < |files|
  {
    && (files[i].path in owed || Straddling(files[i], floor))
    && (i < C.Settled(files, policy) || (flush && Straddling(files[i], floor)))
  }

  /** The files lined up with published ones that are candidates. */
  ghost function SwapsOf(lined: set<File>, files: seq<DataFile>, policy: Policy, owed: set<nat>, floor: nat,
                         flush: bool): (swaps: set<File>)
    ensures forall m :: m in swaps <==> m in lined && IsCandidate(m, files, policy, owed, floor, flush)
  {
    set m | m in lined && IsCandidate(m, files, policy, owed, floor, flush)
  }

  ghost predicate IsCandidate(m: File, files: seq<DataFile>, policy: Policy, owed: set<nat>, floor: nat, flush: bool) {
    exists i: nat :: i < |files| && Same(files[i], m) && Candidate(files, i, policy, owed, floor, flush)
  }

  /** Whatever files are owed a swap, what the publish lists is what the protocol asks. */
  lemma SwapsAreListed(lined: set<File>, seen: set<File>, files: seq<DataFile>, policy: Policy, owed: set<nat>,
                       floor: nat, flush: bool)
    requires Shows(seen, files) && lined <= seen && 2 <= policy.minFiles
    ensures SwapsListed(lined, floor, SwapsOf(lined, files, policy, owed, floor, flush),
                        Choice(flush, FinishedTo(files, policy)))
  {
    hide C.Settled, FinishedTo, Shows, Ready, IsCandidate;
    var choice := Choice(flush, FinishedTo(files, policy));
    assert C.InOrder(files) by { ShowsInOrder(seen, files); }
    forall m | m in lined && IsCandidate(m, files, policy, owed, floor, flush) ensures Ready(choice, floor, m) {
      CandidateReady(m, files, policy, owed, floor, flush);
    }
    forall m | m in lined && m.start < floor < m.end && Ready(choice, floor, m)
      ensures IsCandidate(m, files, policy, owed, floor, flush)
    {
      ReadyCandidate(m, seen, files, policy, owed, floor, flush);
    }
  }

  lemma ShowsInOrder(fs: set<File>, files: seq<DataFile>)
    requires Shows(fs, files)
    ensures C.InOrder(files)
  {
  }

  lemma CandidateReady(m: File, files: seq<DataFile>, policy: Policy, owed: set<nat>, floor: nat, flush: bool)
    requires C.InOrder(files) && 2 <= policy.minFiles && IsCandidate(m, files, policy, owed, floor, flush)
    ensures Ready(Choice(flush, FinishedTo(files, policy)), floor, m)
  {
    hide C.Settled, FinishedTo, C.InOrder;
    var i: nat :| i < |files| && Same(files[i], m) && Candidate(files, i, policy, owed, floor, flush);
    FinishedIff(files, policy, i);
  }

  lemma ReadyCandidate(m: File, seen: set<File>, files: seq<DataFile>, policy: Policy, owed: set<nat>, floor: nat,
                       flush: bool)
    requires Shows(seen, files) && m in seen && 2 <= policy.minFiles && m.start < floor < m.end
    requires Ready(Choice(flush, FinishedTo(files, policy)), floor, m)
    ensures IsCandidate(m, files, policy, owed, floor, flush)
  {
    hide C.Settled, FinishedTo, C.InOrder;
    assert Listed(files, m);
    var x :| x in files && Same(x, m);
    var i: nat :| i < |files| && files[i] == x;
    FinishedIff(files, policy, i);
    assert Candidate(files, i, policy, owed, floor, flush);
  }

  /** Compaction is finished with file `i`: the files up to some point past it are
      settled by themselves. */
  ghost predicate FinishedWith(files: seq<DataFile>, policy: Policy, i: nat) {
    exists k: nat :: i < k <= |files| && SettledFiles.Stable(files[..k], policy)
  }

  lemma FinishedWithIff(files: seq<DataFile>, policy: Policy, i: nat)
    requires 2 <= policy.minFiles && i < |files|
    ensures FinishedWith(files, policy, i) <==> i < C.Settled(files, policy)
  {
    hide C.Settled, SettledFiles.Stable;
    SettledFiles.SettledIsStable(files, policy);
    if k: nat :| i < k <= |files| && SettledFiles.Stable(files[..k], policy) {
      SettledFiles.StableIsSettled(files, k, policy);
    }
  }

  /** Listed are exactly the files lined up that are owed a swap or straddle the floor, and
      that compaction is finished with, or that straddle it under a flush. */
  lemma SwapListedIff(lined: set<File>, files: seq<DataFile>, policy: Policy, owed: set<nat>, floor: nat, flush: bool,
                      m: File)
    requires 2 <= policy.minFiles
    ensures m in SwapsOf(lined, files, policy, owed, floor, flush) <==>
      && m in lined
      && exists i: nat :: i < |files| && Same(files[i], m)
           && ((FinishedWith(files, policy, i) && (m.path in owed || m.start < floor < m.end))
               || (flush && m.start < floor < m.end))
  {
    hide C.Settled, FinishedWith;
    forall i: nat | i < |files| ensures FinishedWith(files, policy, i) <==> i < C.Settled(files, policy) {
      FinishedWithIff(files, policy, i);
    }
  }

  // ----- the push -----

  /** How many leading files end by `floor`: those past it are the rest. */
  function UpTo(files: seq<DataFile>, floor: nat): (n: nat)
    ensures n <= |files|
    ensures n > 0 ==> files[n - 1].end <= floor
    ensures n < |files| ==> floor < files[n].end
  {
    if files == [] || floor < files[0].end then 0 else 1 + UpTo(files[1..], floor)
  }

  ghost predicate Takes(choice: Choice, listing: Listing, range: Range, f: DataFile) {
    && (choice.flush || f.end <= listing.frozen || f.end <= listing.limit)
    && WithinBound(range, f.end)
  }

  /** The longest prefix of the files past the floor that is due and inside the claim. */
  ghost function Taken(pending: seq<DataFile>, choice: Choice, listing: Listing, range: Range): (plan: seq<DataFile>)
    ensures plan <= pending && forall x :: x in plan ==> Takes(choice, listing, range, x)
    ensures |plan| < |pending| ==> !Takes(choice, listing, range, pending[|plan|])
  {
    if pending == [] || !Takes(choice, listing, range, pending[0]) then []
    else [pending[0]] + Taken(pending[1..], choice, listing, range)
  }

  /** The next file past an offset is the one listed there. */
  lemma NextListed(d: Tables, files: seq<DataFile>, n: nat, from: nat, f: File)
    requires FilesOk(d) && Shows(d.staging, files) && n <= |files|
    requires n > 0 ==> files[n - 1].end <= from
    requires n < |files| ==> from < files[n].end
    ensures NextPending(d, from, f) <==> n < |files| && f in d.staging && Same(files[n], f)
  {
    hide FilesOk, C.InOrder, Shows;
    assert C.InOrder(files) by { ShowsInOrder(d.staging, files); }
    if NextPending(d, from, f) {
      var k := Place(d, files, f);
      NotBefore(files, n, k, from);
      var g := Shown(d, files, n);
      if n < k { Ordered(files, n, k); }
    }
    if n < |files| && f in d.staging && Same(files[n], f) {
      forall g | g in d.staging ensures g.end <= from || g == f || f.end <= g.start {
        var k := Place(d, files, g);
        if k < n { NotPast(files, n, k, from); }
        if n < k { Ordered(files, n, k); }
        if k == n { SameFile(d, f, g); }
      }
    }
  }

  lemma Ordered(files: seq<DataFile>, a: nat, b: nat)
    requires C.InOrder(files) && a < b < |files|
    ensures files[a].start < files[a].end <= files[b].start < files[b].end
  {
  }

  lemma NotPast(files: seq<DataFile>, n: nat, k: nat, from: nat)
    requires C.InOrder(files) && k < n <= |files| && files[n - 1].end <= from
    ensures files[k].end <= from
  {
    if k < n - 1 { Ordered(files, k, n - 1); }
  }

  /** A file that ends past an offset is not among those up to it. */
  lemma NotBefore(files: seq<DataFile>, n: nat, k: nat, from: nat)
    requires C.InOrder(files) && n <= |files| && k < |files| && from < files[k].end
    requires n > 0 ==> files[n - 1].end <= from
    ensures n <= k
  {
    hide C.InOrder;
    if k < n { NotPast(files, n, k, from); }
  }

  lemma Place(d: Tables, files: seq<DataFile>, f: File) returns (k: nat)
    requires Shows(d.staging, files) && f in d.staging
    ensures k < |files| && Same(files[k], f)
  {
    assert Listed(files, f);
    var x :| x in files && Same(x, f);
    k :| 0 <= k < |files| && files[k] == x;
  }

  lemma Shown(d: Tables, files: seq<DataFile>, n: nat) returns (g: File)
    requires Shows(d.staging, files) && n < |files|
    ensures g in d.staging && Same(files[n], g)
  {
    assert files[n] in files;
    g :| g in d.staging && Same(files[n], g);
  }

  lemma SameFile(d: Tables, f: File, g: File)
    requires FilesOk(d) && f in d.staging && g in d.staging && f.path == g.path
    ensures f == g
  {
  }

  /** A publish pushes just the files it lists, one after another: at each point the one the
      protocol lets it push next is the plan's next, and none once the plan is done. */
  lemma PushedInTurn(d: Tables, files: seq<DataFile>, floor: nat, choice: Choice, listing: Listing, range: Range, j: nat,
                     f: File)
    requires FilesOk(d) && Shows(d.staging, files)
    requires j <= |Taken(files[UpTo(files, floor)..], choice, listing, range)|
    ensures var plan := Taken(files[UpTo(files, floor)..], choice, listing, range);
      (&& NextPending(d, if j == 0 then floor else plan[j - 1].end, f)
       && WithinBound(range, f.end) && PushDue(choice, listing, f))
      <==> j < |plan| && f in d.staging && Same(plan[j], f)
  {
    hide FilesOk, UpTo, Taken, NextPending, WithinBound;
    var k := UpTo(files, floor);
    var pending := files[k..];
    var plan := Taken(pending, choice, listing, range);
    assert |plan| <= |pending| && plan == pending[..|plan|];
    assert j > 0 ==> plan[j - 1] == files[k + j - 1];
    var from := if j == 0 then floor else plan[j - 1].end;
    if j > 0 && k + j < |files| {
      assert files[k + j - 1].end <= files[k + j].start < files[k + j].end;
    }
    NextListed(d, files, k + j, from, f);
    if k + j < |files| {
      assert pending[j] == files[k + j];
      if j < |plan| {
        assert plan[j] == pending[j] && plan[j] in plan;
      }
      TakesSame(choice, listing, range, pending[j], f);
    }
  }

  lemma TakesSame(choice: Choice, listing: Listing, range: Range, x: DataFile, f: File)
    ensures Same(x, f) ==>
      (Takes(choice, listing, range, x) <==> WithinBound(range, f.end) && PushDue(choice, listing, f))
  {
  }

  // ----- what coverage adds -----

  /** The watermark's range and the intents', as one read of them gives them. */
  ghost predicate Ranges(d: Tables, ranges: seq<C.Span>) {
    forall o: nat :: d.low <= o ==> (C.Reached(ranges, o) <==> MaybePublished(d, o))
  }

  /** The prefix walked over those ranges is the one the protocol goes by. */
  lemma FrozenIsRead(d: Tables, files: seq<DataFile>, floor: nat, ranges: seq<C.Span>, frozen: nat)
    requires FilesOk(d) && Shows(d.staging, files) && Ranges(d, ranges)
    requires var pending := files[UpTo(files, floor)..];
      forall i :: 0 <= i < |pending| ==>
        (pending[i].end <= frozen <==> forall j :: 0 <= j <= i ==> C.HeldBy(ranges, pending[j]))
    ensures ReadsFrozen(d, floor, frozen)
  {
    hide FilesOk, UpTo, C.HeldBy, Ranges, InFrozenPrefix, Shows, C.InOrder;
    assert C.InOrder(files) by { ShowsInOrder(d.staging, files); }
    var k := UpTo(files, floor);
    var pending := files[k..];
    forall f | f in d.staging && floor < f.end ensures f.end <= frozen <==> InFrozenPrefix(d, floor, f) {
      var n := Place(d, files, f);
      NotBefore(files, k, n, floor);
      assert pending[n - k] == files[n];
      PrefixHeld(d, files, floor, ranges, n, f);
      HeldPrefix(d, files, floor, ranges, n, f);
    }
  }

  /** The files from the first past the floor to the `n`th are all held. */
  ghost predicate HeldTo(files: seq<DataFile>, floor: nat, ranges: seq<C.Span>, n: nat)
    requires UpTo(files, floor) <= n < |files|
  {
    var pending := files[UpTo(files, floor)..];
    forall j :: 0 <= j <= n - UpTo(files, floor) ==> C.HeldBy(ranges, pending[j])
  }

  lemma HeldPrefix(d: Tables, files: seq<DataFile>, floor: nat, ranges: seq<C.Span>, n: nat, f: File)
    requires FilesOk(d) && Shows(d.staging, files) && Ranges(d, ranges)
    requires UpTo(files, floor) <= n < |files| && Same(files[n], f)
    ensures HeldTo(files, floor, ranges, n) ==> InFrozenPrefix(d, floor, f)
  {
    hide FilesOk, UpTo, C.HeldBy, Ranges, CoveredWithIntents, Shows, C.InOrder;
    assert C.InOrder(files) by { ShowsInOrder(d.staging, files); }
    var k := UpTo(files, floor);
    var pending := files[k..];
    if HeldTo(files, floor, ranges, n) {
      forall g | g in d.staging && floor < g.end && g.start <= f.start ensures CoveredWithIntents(d, g) {
        var m := Place(d, files, g);
        NotBefore(files, k, m, floor);
        if n < m { Ordered(files, n, m); }
        assert pending[m - k] == files[m];
        HeldIsCovered(d, ranges, files[m], g);
      }
    }
  }

  lemma PrefixHeld(d: Tables, files: seq<DataFile>, floor: nat, ranges: seq<C.Span>, n: nat, f: File)
    requires FilesOk(d) && Shows(d.staging, files) && Ranges(d, ranges)
    requires UpTo(files, floor) <= n < |files| && Same(files[n], f)
    ensures InFrozenPrefix(d, floor, f) ==> HeldTo(files, floor, ranges, n)
  {
    hide FilesOk, UpTo, C.HeldBy, Ranges, CoveredWithIntents, Shows, C.InOrder;
    assert C.InOrder(files) by { ShowsInOrder(d.staging, files); }
    var k := UpTo(files, floor);
    var pending := files[k..];
    if InFrozenPrefix(d, floor, f) {
      forall j | 0 <= j <= n - k ensures C.HeldBy(ranges, pending[j]) {
        var g := Shown(d, files, k + j);
        if j > 0 { Ordered(files, k, k + j); }
        if k + j < n { Ordered(files, k + j, n); }
        HeldIsCovered(d, ranges, files[k + j], g);
      }
    }
  }

  lemma HeldIsCovered(d: Tables, ranges: seq<C.Span>, x: DataFile, g: File)
    requires FilesOk(d) && Ranges(d, ranges) && g in d.staging && Same(x, g)
    ensures C.HeldBy(ranges, x) <==> CoveredWithIntents(d, g)
  {
    hide C.Reached, MaybePublished;
    assert d.low <= g.start;
  }
}
