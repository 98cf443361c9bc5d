/** What compaction is finished with stays as it is, but for runs chosen before: a merge
    tests its files once, under its claim, and commits what it has written however the
    table has grown meanwhile. */
module SettledFiles {
  import opened CompactionPlan

  // ----- the settled prefix, without its stretches -----

  /** `minFiles` files in a row, none of them full. */
  ghost predicate Mergeable(files: seq<DataFile>, i: nat, policy: Policy)
    requires i + policy.minFiles <= |files|
  {
    forall j :: i <= j < i + policy.minFiles ==> !Full(files[j], policy.target)
  }

  /** Settled by itself, whatever comes after it: it ends on a full file, and nowhere has
      as many files in a row as compaction merges. */
  ghost predicate Stable(prefix: seq<DataFile>, policy: Policy) {
    && (prefix == [] || Full(prefix[|prefix| - 1], policy.target))
    && forall i: nat :: i + policy.minFiles <= |prefix| ==> !Mergeable(prefix, i, policy)
  }

  lemma {:induction false} StableIsKept(prefix: seq<DataFile>, policy: Policy)
    requires 2 <= policy.minFiles
    requires prefix == [] || Full(prefix[|prefix| - 1], policy.target)
    ensures Stable(prefix, policy)
            <==> forall s :: s in StretchesOf(prefix, policy.target) ==> Kept(s, policy.minFiles)
    decreases |prefix|
  {
    var target, min := policy.target, policy.minFiles;
    if prefix != [] {
      var all := StretchesOf(prefix, target);
      if Full(prefix[0], target) {
        if |prefix| > 1 { assert Full(prefix[1..][|prefix| - 2], target); }
        StableIsKept(prefix[1..], policy);
        DropFull(prefix, 1, policy);
        assert all == [Stretch([prefix[0]], false)] + StretchesOf(prefix[1..], target);
      } else {
        var n := SmallPrefix(prefix, target);
        SmallPrefixThenFull(prefix, [], target);
        assert prefix + [] == prefix;
        assert Full(prefix[n..][|prefix| - n - 1], target);
        StableIsKept(prefix[n..], policy);
        assert all == [Stretch(prefix[..n], false)] + StretchesOf(prefix[n..], target);
        if n < min {
          DropFull(prefix, n, policy);
        } else {
          forall j | 0 <= j < min ensures !Full(prefix[j], target) {
            assert prefix[j] == prefix[..n][j];
          }
          assert Mergeable(prefix, 0, policy);
          assert all[0] == Stretch(prefix[..n], false) && all[0] in StretchesOf(prefix, target);
          assert !Kept(all[0], min);
          assert !Stable(prefix, policy);
        }
      }
    }
  }

  /** Fewer files than a merge takes, before a full one, make nothing mergeable. */
  lemma DropFull(prefix: seq<DataFile>, n: nat, policy: Policy)
    requires 2 <= policy.minFiles && prefix != [] && Full(prefix[|prefix| - 1], policy.target)
    requires n <= |prefix| && n < policy.minFiles
    requires (n == 1 && Full(prefix[0], policy.target)) || (n < |prefix| && Full(prefix[n], policy.target))
    ensures Stable(prefix, policy) <==> Stable(prefix[n..], policy)
  {
    var rest, min := prefix[n..], policy.minFiles;
    forall i: nat | i + min <= |rest| ensures Mergeable(rest, i, policy) <==> Mergeable(prefix, n + i, policy) {
      WindowSuffix(prefix, n, i, policy);
    }
    var at := if n == 1 && Full(prefix[0], policy.target) then 0 else n;
    assert Full(prefix[at], policy.target);
    forall i: nat | i + min <= |prefix| && n <= i
      ensures Mergeable(prefix, i, policy) <==> Mergeable(rest, i - n, policy)
    {
      WindowSuffix(prefix, n, i - n, policy);
    }
  }

  lemma WindowSuffix(files: seq<DataFile>, n: nat, i: nat, policy: Policy)
    requires n + i + policy.minFiles <= |files|
    ensures Mergeable(files[n..], i, policy) <==> Mergeable(files, n + i, policy)
  {
    forall j | n + i <= j < n + i + policy.minFiles ensures files[j] == files[n..][j - n] { }
    if Mergeable(files[n..], i, policy) {
      forall j | n + i <= j < n + i + policy.minFiles ensures !Full(files[j], policy.target) {
        assert !Full(files[n..][j - n], policy.target);
      }
    }
    if Mergeable(files, n + i, policy) {
      forall j | i <= j < i + policy.minFiles ensures !Full(files[n..][j], policy.target) {
        assert !Full(files[n + j], policy.target);
      }
    }
  }

  lemma SettledIsStable(files: seq<DataFile>, policy: Policy)
    requires 2 <= policy.minFiles
    ensures Settled(files, policy) <= |files| && Stable(files[..Settled(files, policy)], policy)
  {
    SettledEndsFull(files, policy);
    StableIsKept(files[..Settled(files, policy)], policy);
  }

  lemma StableIsSettled(files: seq<DataFile>, k: nat, policy: Policy)
    requires 2 <= policy.minFiles && k <= |files| && Stable(files[..k], policy)
    ensures k <= Settled(files, policy) <= |files|
  {
    SettledEndsFull(files, policy);
    StableIsKept(files[..k], policy);
    SettledWhatever(files[..k], files[k..], policy);
    assert files[..k] + files[k..] == files;
  }

  lemma StableSuffix(prefix: seq<DataFile>, count: nat, policy: Policy)
    requires count <= |prefix| && Stable(prefix, policy)
    ensures Stable(prefix[count..], policy)
  {
    var rest, min := prefix[count..], policy.minFiles;
    forall i: nat | i + min <= |rest| ensures !Mergeable(rest, i, policy) {
      WindowSuffix(prefix, count, i, policy);
      assert !Mergeable(prefix, count + i, policy);
    }
  }

  /** A merge inside a stable prefix leaves it stable: fewer files in a row than before. */
  lemma StableMerged(before: seq<DataFile>, run: seq<DataFile>, outputs: seq<DataFile>,
                     after: seq<DataFile>, policy: Policy)
    requires 2 <= policy.minFiles && Stable(before + run + after, policy)
    requires |run| >= 2 && AllSmall(run, policy.target) && CutAtTarget(outputs, policy.target)
    ensures Stable(before + outputs + after, policy)
  {
    var was, all := before + run + after, before + outputs + after;
    assert Full(was[|was| - 1], policy.target);
    LastOf(before, run, after);
    LastOf(before, outputs, after);
    forall i: nat | i + policy.minFiles <= |all| ensures !Mergeable(all, i, policy) {
      MergedWindow(before, run, outputs, after, policy, i);
    }
  }

  lemma LastOf(a: seq<DataFile>, b: seq<DataFile>, c: seq<DataFile>)
    requires b != []
    ensures var all := a + b + c; all[|all| - 1] == if c == [] then b[|b| - 1] else c[|c| - 1]
  {
  }

  /** Files in a row that may be merged afterwards were so before, with the run among them. */
  lemma MergedWindow(before: seq<DataFile>, run: seq<DataFile>, outputs: seq<DataFile>,
                     after: seq<DataFile>, policy: Policy, i: nat)
    requires 2 <= policy.minFiles
    requires |run| >= 2 && AllSmall(run, policy.target) && CutAtTarget(outputs, policy.target)
    requires i + policy.minFiles <= |before + outputs + after|
    ensures Mergeable(before + outputs + after, i, policy) ==>
      exists w: nat :: w + policy.minFiles <= |before + run + after| && Mergeable(before + run + after, w, policy)
  {
    var was, all := before + run + after, before + outputs + after;
    var min, target := policy.minFiles, policy.target;
    if Mergeable(all, i, policy) {
      var last := |before| + |outputs| - 1;
      forall j | |before| <= j < last ensures Full(all[j], target) {
        assert all[j] == outputs[j - |before|];
      }
      assert !Full(all[i], target);
      if i < |before| < i + min { assert !Full(all[|before|], target); }
      var w := if i + min <= |before| then i
               else if |before| + |outputs| <= i then i - |outputs| + |run|
               else if |before| <= i then |before| + |run| - 1
               else i;
      assert w + min <= |was|;
      forall j | w <= j < w + min ensures !Full(was[j], target) {
        if j < |before| {
          assert was[j] == all[j];
        } else if j < |before| + |run| {
          assert was[j] == run[j - |before|];
        } else {
          assert was[j] == after[j - |before| - |run|] == all[j - |run| + |outputs|];
        }
      }
      assert Mergeable(was, w, policy);
    }
  }

  // ----- the table, and the runs in flight on it -----

  /** The staging table's files in offset order, the runs claimed and being merged, and
      every path a file ever had. */
  datatype Table = Table(files: seq<DataFile>, chosen: map<nat, seq<DataFile>>, used: set<nat>)

  datatype Event =
    | Seal(file: DataFile)                                  // a new file on top
    | Choose(id: nat, lo: nat, hi: nat)                     // files[lo..hi] claimed and tested
    | Commit(id: nat, lo: nat, outputs: seq<DataFile>)      // the run, from `lo`, rewritten
    | Drop(id: nat)                                         // the claim released or lost
    | Evict(count: nat)                                     // a prefix dropped

  ghost predicate Unique(files: seq<DataFile>) {
    forall i, j :: 0 <= i < j < |files| ==> files[i].path != files[j].path
  }

  ghost function PathsOf(files: seq<DataFile>): (paths: set<nat>)
    ensures forall f :: f in files ==> f.path in paths
    ensures forall p :: p in paths ==> exists f :: f in files && f.path == p
  {
    set f | f in files :: f.path
  }

  /** Whether some run in flight holds `f`. */
  ghost predicate InFlight(t: Table, f: DataFile) {
    exists id :: id in t.chosen && f in t.chosen[id]
  }

  /** What an event needs when it happens. A run is tested as it is claimed, and its
      claim keeps off every other; a commit needs nothing but that claim. */
  ghost predicate Allowed(t: Table, policy: Policy, event: Event) {
    match event
    case Seal(f) => f.path !in t.used
    case Choose(id, lo, hi) =>
      && id !in t.chosen
      && Settled(t.files, policy) <= lo && lo + 2 <= hi <= |t.files|
      && AllSmall(t.files[lo..hi], policy.target)
      && (forall f :: f in t.files[lo..hi] ==> !InFlight(t, f))
    case Commit(id, lo, outputs) =>
      && id in t.chosen
      && RunAt(t.files, lo, t.chosen[id])
      && CutAtTarget(outputs, policy.target)
      && Unique(outputs) && (forall o :: o in outputs ==> o.path !in t.used)
    case Drop(id) => id in t.chosen
    case Evict(count) => count <= |t.files| && forall f :: f in t.files[..count] ==> !InFlight(t, f)
  }

  ghost function Happen(t: Table, policy: Policy, event: Event): Table
    requires Allowed(t, policy, event)
  {
    match event
    case Seal(f) => t.(files := t.files + [f], used := t.used + {f.path})
    case Choose(id, lo, hi) => t.(chosen := t.chosen[id := t.files[lo..hi]])
    case Commit(id, lo, outputs) =>
      Table(t.files[..lo] + outputs + t.files[lo + |t.chosen[id]|..], t.chosen - {id},
            t.used + PathsOf(outputs))
    case Drop(id) => t.(chosen := t.chosen - {id})
    case Evict(count) => t.(files := t.files[count..])
  }

  ghost predicate AllAllowed(t: Table, policy: Policy, events: seq<Event>)
    decreases |events|
  {
    events == [] || (Allowed(t, policy, events[0]) && AllAllowed(Happen(t, policy, events[0]), policy, events[1..]))
  }

  ghost function Outcome(t: Table, policy: Policy, events: seq<Event>): Table
    requires AllAllowed(t, policy, events)
    decreases |events|
  {
    if events == [] then t else Outcome(Happen(t, policy, events[0]), policy, events[1..])
  }

  /** Whether some merge among `events` rewrites `f`. */
  ghost predicate Rewrites(t: Table, policy: Policy, events: seq<Event>, f: DataFile)
    requires AllAllowed(t, policy, events)
    decreases |events|
  {
    events != [] &&
    ((events[0].Commit? && f in t.chosen[events[0].id])
     || Rewrites(Happen(t, policy, events[0]), policy, events[1..], f))
  }

  ghost predicate RunAt(files: seq<DataFile>, lo: nat, run: seq<DataFile>) {
    IsSlice(files, lo, lo + |run|, run)
  }

  /** Runs in flight are adjacent files of the table, none full. */
  ghost predicate RunOk(files: seq<DataFile>, policy: Policy, run: seq<DataFile>) {
    && |run| >= 2 && AllSmall(run, policy.target)
    && exists lo: nat :: RunAt(files, lo, run)
  }

  ghost predicate Fits(t: Table, policy: Policy) {
    && Unique(t.files)
    && (forall f :: f in t.files ==> f.path in t.used)
    && (forall id :: id in t.chosen ==> RunOk(t.files, policy, t.chosen[id]))
    && (forall i, j, f :: i in t.chosen && j in t.chosen && f in t.chosen[i] && f in t.chosen[j] ==> i == j)
  }

  // ----- every event keeps the table's shape -----

  lemma UniqueAppend(a: seq<DataFile>, b: seq<DataFile>)
    requires Unique(a) && Unique(b) && forall f, g :: f in b && g in a ==> f.path != g.path
    ensures Unique(a + b)
  {
  }

  lemma UniqueReplaced(files: seq<DataFile>, lo: nat, hi: nat, outputs: seq<DataFile>)
    requires lo <= hi <= |files| && Unique(files) && Unique(outputs)
    requires forall o, f :: o in outputs && f in files ==> o.path != f.path
    ensures Unique(files[..lo] + outputs + files[hi..])
  {
    UniqueAppend(files[..lo], outputs);
    var front, back := files[..lo] + outputs, files[hi..];
    forall f, g | f in back && g in front ensures f.path != g.path {
      var k :| 0 <= k < |back| && back[k] == f;
      assert files[hi + k] == f;
      if g in files[..lo] {
        var i :| 0 <= i < lo && files[i] == g;
      } else {
        assert g in outputs && f in files;
      }
    }
    UniqueAppend(front, back);
  }

  lemma MeetIn(files: seq<DataFile>, lo: nat, hi: nat, k: nat, run: seq<DataFile>, x: nat)
    requires lo <= x < hi <= |files| && RunAt(files, k, run) && k <= x < k + |run|
    ensures files[x] in files[lo..hi] && files[x] in run
  {
    assert files[lo..hi][x - lo] == files[x] && files[k..k + |run|][x - k] == files[x];
  }

  /** A run apart from what an event takes out is still adjacent files of the table. */
  lemma RunStays(files: seq<DataFile>, lo: nat, hi: nat, outputs: seq<DataFile>, policy: Policy, run: seq<DataFile>)
    requires lo <= hi <= |files| && RunOk(files, policy, run)
    requires forall f :: f in files[lo..hi] ==> f !in run
    requires lo < hi
    ensures RunOk(files[..lo] + outputs + files[hi..], policy, run)
  {
    var k: nat :| RunAt(files, k, run);
    if k < hi && lo < k + |run| { MeetIn(files, lo, hi, k, run, if k < lo then lo else k); }
    var after := files[..lo] + outputs + files[hi..];
    if k + |run| <= lo {
      assert after[k..k + |run|] == run;
      assert RunAt(after, k, run);
    } else {
      var m := k - hi + lo + |outputs|;
      assert after[m..m + |run|] == run by {
        forall i | 0 <= i < |run| ensures after[m + i] == run[i] {
          assert after[m + i] == files[k + i] == files[k..k + |run|][i];
        }
      }
      assert RunAt(after, m, run);
    }
  }

  lemma RunGrows(files: seq<DataFile>, f: DataFile, policy: Policy, run: seq<DataFile>)
    requires RunOk(files, policy, run)
    ensures RunOk(files + [f], policy, run)
  {
    var k: nat :| RunAt(files, k, run);
    assert (files + [f])[k..k + |run|] == run;
    assert RunAt(files + [f], k, run);
  }

  lemma CommitFits(t: Table, policy: Policy, id: nat, lo: nat, outputs: seq<DataFile>)
    requires Fits(t, policy) && Allowed(t, policy, Commit(id, lo, outputs))
    ensures Fits(Happen(t, policy, Commit(id, lo, outputs)), policy)
  {
    hide Unique, RunOk, CutAtTarget;
    var run := t.chosen[id];
    RunParts(t.files, policy, run);
    UniqueReplaced(t.files, lo, lo + |run|, outputs);
    forall i | i in t.chosen && i != id
      ensures RunOk(t.files[..lo] + outputs + t.files[lo + |run|..], policy, t.chosen[i])
    {
      RunStays(t.files, lo, lo + |run|, outputs, policy, t.chosen[i]);
    }
  }

  lemma EvictFits(t: Table, policy: Policy, count: nat)
    requires Fits(t, policy) && Allowed(t, policy, Evict(count))
    ensures Fits(Happen(t, policy, Evict(count)), policy)
  {
    assert t.files[..0] + [] + t.files[count..] == t.files[count..];
    forall i | i in t.chosen ensures RunOk(t.files[count..], policy, t.chosen[i]) {
      if count == 0 {
        assert t.files[0..] == t.files;
      } else {
        forall f | f in t.files[0..count] ensures f !in t.chosen[i] { assert !InFlight(t, f); }
        RunStays(t.files, 0, count, [], policy, t.chosen[i]);
      }
    }
  }

  lemma ChooseFits(t: Table, policy: Policy, id: nat, lo: nat, hi: nat)
    requires Fits(t, policy) && Allowed(t, policy, Choose(id, lo, hi))
    ensures Fits(Happen(t, policy, Choose(id, lo, hi)), policy)
  {
    var run := t.files[lo..hi];
    assert RunAt(t.files, lo, run);
    forall j, f | j in t.chosen && f in t.chosen[j] ensures f !in run { assert InFlight(t, f); }
  }

  lemma EventFits(t: Table, policy: Policy, event: Event)
    requires Fits(t, policy) && Allowed(t, policy, event)
    ensures Fits(Happen(t, policy, event), policy)
  {
    match event
    case Seal(f) =>
      UniqueAppend(t.files, [f]);
      forall i | i in t.chosen ensures RunOk(t.files + [f], policy, t.chosen[i]) {
        RunGrows(t.files, f, policy, t.chosen[i]);
      }
    case Choose(id, lo, hi) => ChooseFits(t, policy, id, lo, hi);
    case Commit(id, lo, outputs) => CommitFits(t, policy, id, lo, outputs);
    case Drop(id) =>
    case Evict(count) => EvictFits(t, policy, count);
  }

  // ----- settled for ever -----

  /** Settled, and in no run in flight. */
  ghost predicate Final(t: Table, policy: Policy, f: DataFile) {
    && !InFlight(t, f)
    && exists k: nat :: FinalAt(t.files, k, policy, f)
  }

  ghost predicate FinalAt(files: seq<DataFile>, k: nat, policy: Policy, f: DataFile) {
    k <= |files| && f in files[..k] && Stable(files[..k], policy)
  }

  /** An event drops `f`: an eviction that reaches it. */
  ghost predicate Evicts(t: Table, event: Event, f: DataFile) {
    event.Evict? && event.count <= |t.files| && f in t.files[..event.count]
  }

  lemma SealFinal(files: seq<DataFile>, k: nat, policy: Policy, f: DataFile, g: DataFile)
    requires FinalAt(files, k, policy, f)
    ensures FinalAt(files + [g], k, policy, f)
  {
    assert (files + [g])[..k] == files[..k];
  }

  lemma EvictFinal(files: seq<DataFile>, k: nat, policy: Policy, f: DataFile, count: nat)
    requires FinalAt(files, k, policy, f) && count <= |files| && f !in files[..count]
    ensures count < k && FinalAt(files[count..], k - count, policy, f)
  {
    var i :| 0 <= i < k && files[i] == f;
    forall x | 0 <= x < count ensures files[x] != f { assert files[..count][x] == files[x]; }
    StableSuffix(files[..k], count, policy);
    assert files[count..][..k - count] == files[..k][count..];
    assert files[count..][..k - count][i - count] == f;
  }

  lemma CommitFinal(files: seq<DataFile>, k: nat, policy: Policy, f: DataFile, lo: nat, run: seq<DataFile>,
                    outputs: seq<DataFile>) returns (m: nat)
    requires 2 <= policy.minFiles && FinalAt(files, k, policy, f) && f !in run
    requires RunAt(files, lo, run) && |run| >= 2 && AllSmall(run, policy.target)
    requires CutAtTarget(outputs, policy.target)
    ensures FinalAt(files[..lo] + outputs + files[lo + |run|..], m, policy, f)
  {
    var hi := lo + |run|;
    var after := files[..lo] + outputs + files[hi..];
    var i :| 0 <= i < k && files[i] == f;
    forall x | lo <= x < hi ensures files[x] in run && !Full(files[x], policy.target) {
      assert files[lo..hi][x - lo] == files[x];
    }
    assert Full(files[..k][k - 1], policy.target);
    if k <= lo {
      m := k;
      assert after[..m] == files[..k];
      assert after[..m][i] == f;
    } else {
      m := k - |run| + |outputs|;
      assert files[..k] == files[..lo] + run + files[hi..k];
      StableMerged(files[..lo], run, outputs, files[hi..k], policy);
      assert after[..m] == files[..lo] + outputs + files[hi..k];
      assert after[if i < lo then i else i - |run| + |outputs|] == f;
      assert f in after[..m];
    }
  }

  /** Nothing but eviction touches a settled file no run in flight holds. */
  lemma EventFinal(t: Table, policy: Policy, event: Event, f: DataFile)
    requires 2 <= policy.minFiles && Fits(t, policy) && Allowed(t, policy, event) && Final(t, policy, f)
    ensures !(event.Commit? && f in t.chosen[event.id])
    ensures Evicts(t, event, f) || Final(Happen(t, policy, event), policy, f)
  {
    hide Settled, Stable, FinalAt, CutAtTarget, Unique, RunOk;
    var k: nat :| FinalAt(t.files, k, policy, f);
    match event
    case Seal(g) => SealFinal(t.files, k, policy, f, g);
    case Choose(id, lo, hi) => ChooseFinal(t, policy, id, lo, hi, k, f);
    case Commit(id, lo, outputs) =>
      assert f !in t.chosen[id];
      RunParts(t.files, policy, t.chosen[id]);
      var m := CommitFinal(t.files, k, policy, f, lo, t.chosen[id], outputs);
    case Drop(id) =>
    case Evict(count) =>
      if f !in t.files[..count] { EvictFinal(t.files, k, policy, f, count); }
  }

  lemma RunParts(files: seq<DataFile>, policy: Policy, run: seq<DataFile>)
    requires RunOk(files, policy, run)
    ensures |run| >= 2 && AllSmall(run, policy.target)
  {
  }

  lemma ChooseFinal(t: Table, policy: Policy, id: nat, lo: nat, hi: nat, k: nat, f: DataFile)
    requires 2 <= policy.minFiles && Unique(t.files) && Allowed(t, policy, Choose(id, lo, hi))
    requires !InFlight(t, f) && FinalAt(t.files, k, policy, f)
    ensures !InFlight(Happen(t, policy, Choose(id, lo, hi)), f)
  {
    hide Settled, Stable, Unique;
    StableIsSettled(t.files, k, policy);
    ApartInOrder(t.files, k, lo, hi, f);
  }

  lemma ApartInOrder(files: seq<DataFile>, k: nat, lo: nat, hi: nat, f: DataFile)
    requires Unique(files) && k <= lo <= hi <= |files| && f in files[..k]
    ensures f !in files[lo..hi]
  {
    var i :| 0 <= i < k && files[i] == f;
    forall j | lo <= j < hi ensures files[j] != f { }
  }

  /** Whether some eviction among `events` drops `f`. */
  ghost predicate Evicted(t: Table, policy: Policy, events: seq<Event>, f: DataFile)
    requires AllAllowed(t, policy, events)
    decreases |events|
  {
    events != [] &&
    (Evicts(t, events[0], f) || Evicted(Happen(t, policy, events[0]), policy, events[1..], f))
  }

  /** After any seals, choices, commits and evictions, in any order: a settled file that
      no run in flight holds is settled still, unless eviction has dropped it. No merge
      rewrote it, and compaction chooses it in none. */
  lemma {:induction false} SettledForEver(t: Table, policy: Policy, events: seq<Event>, f: DataFile)
    requires 2 <= policy.minFiles && Fits(t, policy) && AllAllowed(t, policy, events) && Final(t, policy, f)
    requires !Evicted(t, policy, events, f)
    ensures var u := Outcome(t, policy, events);
      && Fits(u, policy) && Final(u, policy, f)
      && Settled(u.files, policy) <= |u.files| && f in u.files[..Settled(u.files, policy)]
    ensures !Rewrites(t, policy, events, f)
    decreases |events|
  {
    hide Allowed, Happen, Fits, Final;
    if events == [] {
      FinalSettled(t, policy, f);
    } else {
      EventFits(t, policy, events[0]);
      EventFinal(t, policy, events[0], f);
      SettledForEver(Happen(t, policy, events[0]), policy, events[1..], f);
    }
  }

  lemma FinalSettled(t: Table, policy: Policy, f: DataFile)
    requires 2 <= policy.minFiles && Final(t, policy, f)
    ensures Settled(t.files, policy) <= |t.files| && f in t.files[..Settled(t.files, policy)]
  {
    var k: nat :| FinalAt(t.files, k, policy, f);
    StableIsSettled(t.files, k, policy);
    var i :| 0 <= i < k && t.files[i] == f;
    assert t.files[..Settled(t.files, policy)][i] == f;
  }

  lemma SettledFinal(t: Table, policy: Policy, f: DataFile)
    requires 2 <= policy.minFiles && Settled(t.files, policy) <= |t.files|
    requires f in t.files[..Settled(t.files, policy)] && !InFlight(t, f)
    ensures Final(t, policy, f)
  {
    SettledIsStable(t.files, policy);
    assert FinalAt(t.files, Settled(t.files, policy), policy, f);
  }

  // ----- exactly when a settled file is rewritten -----

  /** Evicted, and no run in flight holds it. */
  ghost predicate Gone(t: Table, f: DataFile) {
    f.path in t.used && f !in t.files && !InFlight(t, f)
  }

  lemma GoneStays(t: Table, policy: Policy, event: Event, f: DataFile)
    requires Allowed(t, policy, event) && Gone(t, f)
    ensures Gone(Happen(t, policy, event), f)
    ensures !(event.Commit? && f in t.chosen[event.id])
  {
    match event
    case Seal(g) =>
    case Choose(id, lo, hi) => assert f !in t.files[lo..hi];
    case Commit(id, lo, outputs) => assert f !in t.chosen[id];
    case Drop(id) =>
    case Evict(count) =>
  }

  lemma EvictsGone(t: Table, policy: Policy, event: Event, f: DataFile)
    requires Fits(t, policy) && Allowed(t, policy, event) && Evicts(t, event, f)
    ensures Gone(Happen(t, policy, event), f)
  {
    var i :| 0 <= i < event.count && t.files[i] == f;
    forall j | event.count <= j < |t.files| ensures t.files[j] != f { }
    assert !InFlight(t, f);
  }

  /** Once settled and in no run in flight, or evicted, a file is rewritten by no merge. */
  lemma {:induction false} NeverRewritten(t: Table, policy: Policy, events: seq<Event>, f: DataFile)
    requires 2 <= policy.minFiles && Fits(t, policy) && AllAllowed(t, policy, events)
    requires Final(t, policy, f) || Gone(t, f)
    ensures !Rewrites(t, policy, events, f)
    decreases |events|
  {
    hide Allowed, Happen, Fits, Final, Gone, Evicts;
    if events != [] {
      EventFits(t, policy, events[0]);
      if Gone(t, f) {
        GoneStays(t, policy, events[0], f);
      } else {
        EventFinal(t, policy, events[0], f);
        if Evicts(t, events[0], f) { EvictsGone(t, policy, events[0], f); }
      }
      NeverRewritten(Happen(t, policy, events[0]), policy, events[1..], f);
    }
  }

  /** Whether some run of events has a merge rewrite `f`. */
  ghost predicate EverRewritten(t: Table, policy: Policy, f: DataFile) {
    exists events :: AllAllowed(t, policy, events) && Rewrites(t, policy, events, f)
  }

  /** A settled file is ever rewritten just when some run in flight holds it: a run chosen
      before the file settled, since none chosen after may hold it. */
  lemma SettledRewrittenIff(t: Table, policy: Policy, f: DataFile)
    requires 2 <= policy.minFiles && Fits(t, policy)
    requires Settled(t.files, policy) <= |t.files| && f in t.files[..Settled(t.files, policy)]
    ensures EverRewritten(t, policy, f) <==> InFlight(t, f)
  {
    if InFlight(t, f) {
      var id :| id in t.chosen && f in t.chosen[id];
      var events := CommitsNow(t, policy, id, f);
    } else {
      SettledFinal(t, policy, f);
      forall events | AllAllowed(t, policy, events) ensures !Rewrites(t, policy, events, f) {
        NeverRewritten(t, policy, events, f);
      }
    }
  }

  lemma CommitsNow(t: Table, policy: Policy, id: nat, f: DataFile) returns (events: seq<Event>)
    requires Fits(t, policy) && id in t.chosen && f in t.chosen[id]
    ensures AllAllowed(t, policy, events) && Rewrites(t, policy, events, f)
  {
    var run := t.chosen[id];
    var lo: nat :| RunAt(t.files, lo, run);
    var path := Unused(t.used);
    var event := Commit(id, lo, [DataFile(path, 0, 0, 0, 0)]);
    assert Allowed(t, policy, event);
    events := [event];
    assert events[1..] == [];
    assert AllAllowed(Happen(t, policy, event), policy, []);
  }

  lemma {:induction false} Unused(used: set<nat>) returns (path: nat)
    ensures path !in used && forall p :: p in used ==> p < path
    decreases |used|
  {
    if used == {} {
      path := 0;
    } else {
      var x :| x in used;
      var below := Unused(used - {x});
      path := if below <= x then x + 1 else below;
      assert forall p :: p in used ==> p == x || p in used - {x};
    }
  }

  // ----- what a publish pushes -----

  /** The ranges of the runs in flight, each its claim, are apart from `[start, end)`. */
  ghost predicate ClaimApart(t: Table, start: nat, end: nat) {
    forall id :: id in t.chosen && t.chosen[id] != [] ==>
      t.chosen[id][|t.chosen[id]| - 1].end <= start || end <= t.chosen[id][0].start
  }

  /** A file pushed because it is settled, under a claim that meets its range, is in no run
      in flight: so whatever happens from then on, no merge rewrites it. */
  lemma PushedNeverRewritten(t: Table, policy: Policy, start: nat, end: nat, f: DataFile, events: seq<Event>)
    requires 2 <= policy.minFiles && Fits(t, policy) && InOrder(t.files)
    requires Settled(t.files, policy) <= |t.files| && f in t.files[..Settled(t.files, policy)]
    requires start < f.end && f.start < end && ClaimApart(t, start, end)
    requires AllAllowed(t, policy, events)
    ensures !Rewrites(t, policy, events, f)
    ensures !Evicted(t, policy, events, f) ==>
      Final(Outcome(t, policy, events), policy, f)
  {
    hide Settled;
    forall id | id in t.chosen ensures f !in t.chosen[id] {
      if f in t.chosen[id] { RunMeets(t, policy, id, f); }
    }
    SettledFinal(t, policy, f);
    NeverRewritten(t, policy, events, f);
    if !Evicted(t, policy, events, f) { SettledForEver(t, policy, events, f); }
  }

  lemma RunMeets(t: Table, policy: Policy, id: nat, f: DataFile)
    requires Fits(t, policy) && InOrder(t.files) && id in t.chosen && f in t.chosen[id]
    ensures t.chosen[id][0].start <= f.start && f.end <= t.chosen[id][|t.chosen[id]| - 1].end
  {
    hide InOrder, Unique;
    var run := t.chosen[id];
    var lo: nat :| RunAt(t.files, lo, run);
    var i :| 0 <= i < |run| && run[i] == f;
    OrderAt(t.files, lo, lo + i);
    OrderAt(t.files, lo + i, lo + |run| - 1);
  }

  lemma OrderAt(files: seq<DataFile>, a: nat, b: nat)
    requires InOrder(files) && a <= b < |files|
    ensures files[a].start <= files[b].start && files[a].end <= files[b].end
  {
    assert files[a].start < files[a].end && files[b].start < files[b].end;
    assert a < b ==> files[a].end <= files[b].start;
  }

  /** And no run the plan holds then has it. */
  lemma FinalNotPlanned(t: Table, policy: Policy, f: DataFile, landed: nat, claimed: nat, floor: nat, flush: bool,
                        run: seq<DataFile>)
    requires 2 <= policy.minFiles && Fits(t, policy) && Final(t, policy, f)
    requires run in Plan(t.files, policy, landed, claimed, floor, flush)
    ensures f !in run
  {
    hide Plan, Settled;
    FinalSettled(t, policy, f);
    PlanLeavesSettled(t.files, policy, landed, claimed, floor, flush, run);
    var k := Settled(t.files, policy);
    ApartInOrder(t.files, k, k, |t.files|, f);
    assert t.files[k..|t.files|] == t.files[k..];
  }

  /** Each run the plan holds may be chosen, once no run in flight meets it. */
  lemma PlannedMayBeChosen(t: Table, policy: Policy, landed: nat, claimed: nat, floor: nat, flush: bool,
                           run: seq<DataFile>, id: nat)
    requires 2 <= policy.minFiles && InOrder(t.files) && id !in t.chosen
    requires run in Plan(t.files, policy, landed, claimed, floor, flush)
    requires forall f :: f in run ==> !InFlight(t, f)
    ensures exists lo, hi :: Allowed(t, policy, Choose(id, lo, hi)) && IsSlice(t.files, lo, hi, run)
  {
    hide Plan, Settled;
    PlanContiguous(t.files, policy, landed, claimed, floor, flush, run);
    var lo, hi :| Settled(t.files, policy) <= lo && lo + 2 <= hi && IsSlice(t.files, lo, hi, run);
    assert Allowed(t, policy, Choose(id, lo, hi));
  }

  // ----- a settled file rewritten -----

  ghost function Limits(): Policy { Policy(10, 1, 4) }
  ghost function Little(path: nat): DataFile { DataFile(path, 1, 1, path, path + 1) }
  ghost function Large(): DataFile { DataFile(3, 10, 1, 3, 4) }
  ghost function Made(): DataFile { DataFile(4, 2, 2, 1, 3) }

  ghost function Pair(): Table { Table([Little(1), Little(2)], map[], {1, 2}) }

  /** Two small files chosen to be merged; while they are, another merge leaves a full
      file on top, so they are settled; and the first merge commits. */
  ghost function Overtaken(): seq<Event> {
    [Choose(0, 0, 2), Seal(Large()), Commit(0, 0, [Made()])]
  }

  ghost function Claimed(): Table { Table([Little(1), Little(2)], map[0 := [Little(1), Little(2)]], {1, 2}) }

  ghost function Grown(): Table {
    Table([Little(1), Little(2), Large()], map[0 := [Little(1), Little(2)]], {1, 2, 3})
  }

  /** The settled files are rewritten: the run was chosen before they settled. */
  lemma SettledThenRewritten()
    ensures Fits(Pair(), Limits()) && Settled(Pair().files, Limits()) == 0
    ensures [Little(1), Little(2)] in Plan(Pair().files, Limits(), 0, 0, 0, false)
    ensures AllAllowed(Pair(), Limits(), Overtaken()[..2])
    ensures Outcome(Pair(), Limits(), Overtaken()[..2]) == Grown()
    ensures Settled(Grown().files, Limits()) == 3 && Little(1) in Grown().files[..3]
    ensures AllAllowed(Pair(), Limits(), Overtaken()) && Rewrites(Pair(), Limits(), Overtaken(), Little(1))
  {
    hide Settled, Allowed, Happen, Plan;
    SmallPair();
    FullTriple();
    PairChosen();
    LargeSealed();
    RunCommits();
    var policy, steps, commit := Limits(), Overtaken(), Commit(0, 0, [Made()]);
    assert steps[..2] == [Choose(0, 0, 2), Seal(Large())];
    assert steps[..2][1..] == [Seal(Large())] && [Seal(Large())][1..] == [];
    assert steps[1..] == [Seal(Large()), commit] && steps[1..][1..] == [commit] && [commit][1..] == [];
    assert Grown().files[..3][0] == Little(1);
    assert AllAllowed(Grown(), policy, []) && AllAllowed(Happen(Grown(), policy, commit), policy, []);
    assert AllAllowed(Grown(), policy, [commit]);
    assert AllAllowed(Claimed(), policy, steps[1..]) && AllAllowed(Claimed(), policy, [Seal(Large())]);
  }

  lemma PairChosen()
    ensures Allowed(Pair(), Limits(), Choose(0, 0, 2)) && Happen(Pair(), Limits(), Choose(0, 0, 2)) == Claimed()
    ensures Fits(Pair(), Limits())
  {
    hide Settled;
    SmallPair();
    var files := Pair().files;
    assert files[0..2] == files;
    assert Settled(files, Limits()) == 0;
    forall f ensures !InFlight(Pair(), f) { }
    assert map[][0 := files] == map[0 := [Little(1), Little(2)]];
  }

  lemma LargeSealed()
    ensures Allowed(Claimed(), Limits(), Seal(Large())) && Happen(Claimed(), Limits(), Seal(Large())) == Grown()
  {
    assert {1, 2} + {3} == {1, 2, 3};
  }

  lemma RunCommits()
    ensures Allowed(Grown(), Limits(), Commit(0, 0, [Made()])) && Little(1) in Grown().chosen[0]
  {
    assert Grown().files[0..2] == [Little(1), Little(2)];
    assert RunAt(Grown().files, 0, [Little(1), Little(2)]);
  }

  lemma SmallPair()
    ensures Settled(Pair().files, Limits()) == 0
    ensures [Little(1), Little(2)] in Plan(Pair().files, Limits(), 0, 0, 0, false)
  {
    var files := Pair().files;
    GatherSmall(files, [], 10);
    assert files + [] == files && files[0..] == files;
    assert StretchesOf(files, 10) == [Stretch(files, true)];
    assert files[1..] == [Little(2)];
    assert Sizes([Little(2)]) == 1 + Sizes([]);
    assert Merges(Stretch(files, true), Limits(), 0, false) == [files];
  }

  lemma FullTriple()
    ensures Settled([Little(1), Little(2), Large()], Limits()) == 3
  {
    var small := [Little(1), Little(2)];
    assert small + [Large()] == [Little(1), Little(2), Large()];
    AfterSmall(small, [Large()], 10);
    FullFirst(Large(), [], 10);
    assert [Large()] + [] == [Large()];
    var all := StretchesOf(small + [Large()], 10);
    assert all == [Stretch(small, false), Stretch([Large()], false)];
    assert all[1..] == [Stretch([Large()], false)] && all[1..][1..] == [];
  }
}
