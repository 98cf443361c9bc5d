/** A log's queue and its tiers running together: sealers take only what the queue reads
    as due, a bulk load starts only once the queue owes nothing, and every step of every
    such run is one the tier protocol allows. */
module QueueRuns {
  import opened Options
  import opened TierState
  import opened TierSteps
  import opened TierTables
  import opened TierOps
  import opened TierRuns
  import opened TierTheorems
  import opened TierHistory
  import opened TierQueue
  import Q = SealQueue

  /** The tiers, the queue, and the ends of the groups whose register has returned. */
  datatype Log = Log(tiers: State, queue: Groups, registered: set<nat>)

  datatype Move =
    | Append(costs: seq<nat>, limits: Q.Limits, entries: seq<Q.Entry>)
    | Reserve(count: nat)
    | CloseOpenGroup(end: nat)
    | TakeGroup(id: nat, i: nat, range: (nat, nat))
    | RegisterGroup(id: nat)
    | FinishSeal(end: nat, path: nat)
    | StartLoad(id: nat)
    | LoadFile(id: nat, path: nat, start: nat, end: nat)
    | Other(step: Step)

  /** The queue after an append, as `SealQueue.Append` leaves it. */
  ghost function Longer(g: Groups, move: Move): Groups
    requires move.Append? && g.parts != []
  {
    var n := |g.parts| - 1;
    Groups(move.entries, g.parts[..n] + Q.Cuts(g.parts[n], Q.Rows(g.next, move.costs), move.limits),
           g.next + |move.costs|)
  }

  /** The tiers' step a move takes, if it takes one. */
  ghost function StepOf(move: Move): Option<Step> {
    match move
    case Append(costs, _, _) => Some(Step.Append(|costs|))
    case Reserve(count) => Some(Step.Reserve(count))
    case CloseOpenGroup(_) => None
    case TakeGroup(id, _, range) => Some(ClaimSeal(id, range.0, range.1))
    case RegisterGroup(id) => Some(RegisterSeal(id))
    case FinishSeal(_, _) => None
    case StartLoad(id) => Some(ClaimIngest(id))
    case LoadFile(id, path, start, end) => Some(RegisterIngest(id, path, start, end))
    case Other(step) => Some(step)
  }

  /** When a move may be made. A sealer takes the queue's oldest group awaiting a file, and
      a load starts on no group awaiting one and none begun: what they read, no more. */
  ghost predicate MayMove(l: Log, move: Move) {
    match move
    case Append(costs, limits, entries) =>
      && Enabled(l.tiers, Step.Append(|costs|))
      && l.queue.parts != [] && Queued(Longer(l.queue, move)) && Q.Kept(l.queue.entries, entries)
    case Reserve(count) => true
    case CloseOpenGroup(end) => |l.queue.entries| > 0 && Queued(CutShort(l.queue, end))
    case TakeGroup(id, i, range) =>
      && id !in l.tiers.ops && Unclaimed(l.tiers, Span(range.0, range.1))
      && Q.Oldest(l.queue.entries, i, range)
    case RegisterGroup(id) => Enabled(l.tiers, RegisterSeal(id))
    case FinishSeal(end, path) => end in l.registered
    case StartLoad(id) =>
      && id !in l.tiers.ops && Unclaimed(l.tiers, Everything)
      && (forall entry :: entry in l.queue.entries ==> !Q.Awaits(entry))
      && |l.queue.entries| > 0 && l.queue.entries[|l.queue.entries| - 1].start.None?
    case LoadFile(id, path, start, end) => Enabled(l.tiers, RegisterIngest(id, path, start, end))
    case Other(step) =>
      FilesNothing(step) && !step.ClaimSeal? && !step.ClaimIngest? && Enabled(l.tiers, step)
  }

  ghost predicate StepAllowed(l: Log, move: Move) {
    StepOf(move).Some? ==> Enabled(l.tiers, StepOf(move).value)
  }

  ghost function QueueAfter(g: Groups, move: Move): Groups
    requires move.Append? ==> g.parts != []
    requires move.CloseOpenGroup? ==> |g.entries| > 0
  {
    match move
    case Append(_, _, _) => Longer(g, move)
    case Reserve(count) => g.(next := g.next + count)
    case CloseOpenGroup(end) => CutShort(g, end)
    case FinishSeal(end, path) => Named(g, end, path)
    case _ => g
  }

  ghost function Moved(l: Log, move: Move): Log
    requires MayMove(l, move) && StepAllowed(l, move)
  {
    Log(if StepOf(move).Some? then Apply(l.tiers, StepOf(move).value) else l.tiers,
        QueueAfter(l.queue, move),
        if move.RegisterGroup? then l.registered + {l.tiers.ops[move.id].file.end} else l.registered)
  }

  // ----- the invariant -----

  ghost predicate SealsGroup(g: Groups, op: Op) {
    match op
    case Sealing(lo, hi) => exists i: nat :: IsGroup(g, i, lo, hi)
    case Sealed(f) => exists i: nat :: IsGroup(g, i, f.start, f.end)
    case _ => true
  }

  /** The tiers keep what every run keeps; the queue agrees with them; each seal in flight
      is of one of its groups; and a group whose register has returned is filed. */
  ghost predicate Together(l: Log) {
    && Safe(l.tiers)
    && Agrees(l.tiers.d, l.queue)
    && (forall id :: id in l.tiers.ops ==> SealsGroup(l.queue, l.tiers.ops[id]))
    && (forall end :: end in l.registered ==> Filed(l.tiers.d, end))
  }

  /** Every move is one the tier protocol allows: so what it promises of its runs, it
      promises of these. */
  lemma MovesAreSteps(l: Log, move: Move)
    requires Together(l) && MayMove(l, move)
    ensures StepAllowed(l, move)
  {
    hide Agrees, Safe;
    if move.TakeGroup? || move.StartLoad? { SafeParts(l.tiers); }
    match move
    case TakeGroup(id, i, range) => OldestMaySeal(l.tiers.d, l.queue, i, range);
    case StartLoad(id) => NothingOwedMayLoad(l.tiers.d, l.queue);
    case _ =>
  }

  /** The queue a move leaves, of the one it found, as `SealQueue`'s methods leave it. */
  ghost predicate Turns(was: Groups, now: Groups, move: Move)
    requires move.CloseOpenGroup? ==> |was.entries| > 0
  {
    match move
    case Append(costs, limits, entries) =>
      && now.entries == entries && now.next == was.next + |costs|
      && Q.Concat(now.parts) == Q.Concat(was.parts) + Q.Rows(was.next, costs)
    case Reserve(count) => now == was.(next := was.next + count)
    case CloseOpenGroup(end) =>
      var n := |was.entries| - 1;
      && now.entries == was.entries[..n] + [was.entries[n].(end := Some(end)), Q.Entry(None, None, 0, None)]
      && now.parts == was.parts + [[]] && now.next == was.next
    case FinishSeal(end, path) =>
      && now.parts == was.parts && now.next == was.next && |now.entries| == |was.entries|
      && forall i :: 0 <= i < |was.entries| ==>
           now.entries[i] == if was.entries[i].end == Some(end) && was.entries[i].name.None?
                             then was.entries[i].(name := Some(path)) else was.entries[i]
    case _ => now == was
  }

  lemma QueueTurns(was: Groups, move: Move)
    requires (move.Append? ==> was.parts != []) && (move.CloseOpenGroup? ==> |was.entries| > 0)
    ensures Turns(was, QueueAfter(was, move), move)
  {
    hide Q.Cuts, Q.Concat, Q.Rows;
    if move.Append? { Q.Grown(was.parts, Q.Rows(was.next, move.costs), move.limits, was.next); }
  }

  /** What each move does to the queue. */
  lemma QueueChanges(l: Log, move: Move)
    requires Together(l) && MayMove(l, move)
    ensures StepAllowed(l, move) && (move.CloseOpenGroup? ==> |l.queue.entries| > 0)
    ensures Turns(l.queue, Moved(l, move).queue, move)
  {
    MovesAreSteps(l, move);
    hide Together, Enabled, Apply, StepOf, StepAllowed, QueueAfter, Turns;
    QueueTurns(l.queue, move);
  }

  // ----- an append, as the queue makes it -----

  lemma {:induction false} CutsExtend(open: seq<Q.Row>, rows: seq<Q.Row>, limits: Q.Limits)
    ensures open <= Q.Cuts(open, rows, limits)[0]
    decreases |rows|
  {
    if rows != [] {
      hide Q.Full;
      CutsExtend(open + [rows[0]], rows[1..], limits);
    }
  }

  /** A row is owed just when it is one of the groups' rows. */
  lemma OwedIn(g: Groups, r: nat)
    ensures Owed(g, r) <==> exists row :: row in Q.Concat(g.parts) && row.offset == r
  {
    if i: nat :| InGroup(g, i, r) {
      Q.PartIn(g.parts, i);
    }
    if row :| row in Q.Concat(g.parts) && row.offset == r {
      Q.InConcat(g.parts, row);
      var i :| 0 <= i < |g.parts| && row in g.parts[i];
      assert InGroup(g, i, r);
    }
  }

  lemma AppendIs(g: Groups, move: Move)
    requires move.Append? && Queued(g) && g.parts != [] && Queued(Longer(g, move))
    requires Q.Kept(g.entries, move.entries)
    ensures Appends(g, Longer(g, move), |move.costs|)
  {
    hide Q.Queue, Q.Cuts;
    var h, n, rows := Longer(g, move), |g.parts| - 1, Q.Rows(g.next, move.costs);
    SameLength(g);
    SameLength(h);
    CutsExtend(g.parts[n], rows, move.limits);
    assert h.parts[n] == Q.Cuts(g.parts[n], rows, move.limits)[0];
    assert h.parts[..n] == g.parts[..n];
    Q.Grown(g.parts, rows, move.limits, g.next);
    forall r: nat ensures Owed(h, r) <==> Owed(g, r) || g.next <= r < g.next + |move.costs| {
      OwedIn(h, r);
      OwedIn(g, r);
      RowsIn(Q.Concat(g.parts), rows, g.next, move.costs, r);
    }
  }

  lemma SameLength(g: Groups)
    requires Queued(g)
    ensures |g.entries| == |g.parts| > 0
  {
    hide Q.Concat, Q.Increasing, Q.Describes;
  }

  lemma RowsIn(before: seq<Q.Row>, rows: seq<Q.Row>, next: nat, costs: seq<nat>, r: nat)
    requires rows == Q.Rows(next, costs)
    ensures (exists row :: row in before + rows && row.offset == r)
       <==> (exists row :: row in before && row.offset == r) || next <= r < next + |costs|
  {
    if next <= r < next + |costs| {
      assert rows[r - next] in before + rows;
    }
    if row :| row in before && row.offset == r { assert row in before + rows; }
    if row :| row in before + rows && row.offset == r {
      if row !in before {
        assert row in rows;
        var k :| 0 <= k < |rows| && rows[k] == row;
      }
    }
  }

  // ----- every move keeps it -----

  lemma QueueAgrees(l: Log, move: Move)
    requires Together(l) && MayMove(l, move) && StepAllowed(l, move)
    ensures Agrees(Moved(l, move).tiers.d, Moved(l, move).queue)
  {
    hide Safe, OpSafe, Agrees, Appends, Queued, Filed, Longer, RegisterFile, LoadOk;
    var s, g := l.tiers, l.queue;
    SafeParts(s);
    match move
    case Append(costs, limits, entries) =>
      AgreeQueued(s.d, g);
      AppendIs(g, move);
      AppendAgrees(s.d, g, Longer(g, move), |costs|);
    case Reserve(count) => ReserveAgrees(s.d, g, count);
    case CloseOpenGroup(end) => CutAgrees(s.d, g, end);
    case TakeGroup(id, i, range) => StepAgrees(s, ClaimSeal(id, range.0, range.1), g);
    case RegisterGroup(id) =>
      InFlight(s, id);
      var i: nat :| IsGroup(g, i, s.ops[id].file.start, s.ops[id].file.end);
      SealAgrees(s.d, g, i, s.ops[id].file);
    case FinishSeal(end, path) => NameAgrees(s.d, g, end, path);
    case StartLoad(id) => StepAgrees(s, ClaimIngest(id), g);
    case LoadFile(id, path, start, end) =>
      LoadIsOk(s, id, path, start, end);
      LoadAgrees(s.d, g, File(path, start, end, Sequence(start, end - start)));
    case Other(step) => StepAgrees(s, step, g);
  }

  lemma AgreeQueued(d: Tables, g: Groups)
    requires Agrees(d, g)
    ensures Queued(g)
  {
  }

  /** A closed group keeps its range. */
  lemma GroupStays(g: Groups, move: Move, i: nat, lo: nat, hi: nat)
    requires Queued(g) && IsGroup(g, i, lo, hi)
    requires move.Append? ==> g.parts != [] && Q.Kept(g.entries, move.entries)
    requires move.CloseOpenGroup? ==> |g.entries| > 0
    ensures IsGroup(QueueAfter(g, move), i, lo, hi)
  {
    hide Q.Concat, Q.Increasing, Q.Describes, Q.Cuts, Q.Rows;
    assert i < |g.entries| - 1;
    if move.Append? {
      assert move.entries[..|g.entries| - 1][i] == g.entries[..|g.entries| - 1][i];
    }
  }

  lemma SealStays(g: Groups, move: Move, op: Op)
    requires Queued(g) && SealsGroup(g, op)
    requires move.Append? ==> g.parts != [] && Q.Kept(g.entries, move.entries)
    requires move.CloseOpenGroup? ==> |g.entries| > 0
    ensures SealsGroup(QueueAfter(g, move), op)
  {
    hide Q.Queue, IsGroup, QueueAfter;
    match op
    case Sealing(lo, hi) =>
      var i: nat :| IsGroup(g, i, lo, hi);
      GroupStays(g, move, i, lo, hi);
    case Sealed(f) =>
      var i: nat :| IsGroup(g, i, f.start, f.end);
      GroupStays(g, move, i, f.start, f.end);
    case _ =>
  }

  /** Each operation in flight afterwards was in flight before, seals the same group or
      none, or is the claim just taken. */
  lemma OpsAfter(s: State, step: Step, id: nat)
    requires Enabled(s, step) && id in Advance(s, step)
    ensures var op := Advance(s, step)[id];
      || (op.Sealing? && step.ClaimSeal? && step.id == id && op == Sealing(step.lo, step.hi))
      || (op.Sealing? && id in s.ops && s.ops[id] == op)
      || (op.Sealed? && id in s.ops && s.ops[id] == op)
      || (op.Sealed? && id in s.ops && s.ops[id] == Sealing(op.file.start, op.file.end))
      || (!op.Sealing? && !op.Sealed?)
  {
    hide Write, GroupOk, Whole, Unclaimed, Rewrites, CutsOk, MergeCandidate, RangeOk, SwapsListed, ReadsFrozen, NextPending,
         WithinBound, PushDue, FreshPath, NamesIn, PushRegisters,
         LinedUp, HeldPaths, LandedPaths, DeadIntents, End;
  }

  lemma SealsKept(l: Log, move: Move, id: nat)
    requires Together(l) && MayMove(l, move) && StepAllowed(l, move) && id in Moved(l, move).tiers.ops
    ensures SealsGroup(Moved(l, move).queue, Moved(l, move).tiers.ops[id])
  {
    hide Safe, Agrees, Filed, Enabled, Advance, Write, Queued, IsGroup, Longer;
    AgreeQueued(l.tiers.d, l.queue);
    if StepOf(move).Some? {
      OpsAfter(l.tiers, StepOf(move).value, id);
      if move.TakeGroup? {
        OldestIsGroup(l.queue, move.i, move.range);
        GroupStays(l.queue, move, move.i, move.range.0, move.range.1);
      }
    }
    if id in l.tiers.ops { SealStays(l.queue, move, l.tiers.ops[id]); }
  }

  lemma OldestIsGroup(g: Groups, i: nat, range: (nat, nat))
    requires Q.Oldest(g.entries, i, range)
    ensures IsGroup(g, i, range.0, range.1)
  {
  }

  /** What is filed stays filed. */
  lemma StaysFiled(s: State, step: Step, end: nat)
    requires Safe(s) && Enabled(s, step) && Filed(s.d, end)
    ensures Filed(Write(s, step), end)
  {
    hide Safe, OpSafe, FiledTo;
    if FilesNothing(step) {
      hide Enabled, Write, Filed;
      StepFiledTo(s, step);
      FiledIs(s.d, end);
      FiledIs(Write(s, step), end);
    } else {
      FiledGrows(s, step, end);
    }
  }

  lemma FiledGrows(s: State, step: Step, end: nat)
    requires Enabled(s, step) && !FilesNothing(step) && Filed(s.d, end)
    ensures Filed(Write(s, step), end)
  {
    if step.RegisterSeal? {
      EndOfUnion(s.d.staging, {s.ops[step.id].file});
    } else if step.RegisterIngest? {
      EndOfUnion(s.d.staging, {File(step.path, step.start, step.end, Sequence(step.start, step.end - step.start))});
    }
  }

  /** Once `register` has returned, whatever it answered, the group is filed. */
  lemma RegisterFiles(d: Tables, f: File)
    ensures Filed(RegisterFile(d, f), f.end)
  {
    if !Filed(d, f.end) { assert f in RegisterFile(d, f).staging; }
  }

  lemma RegisteredFiled(l: Log, move: Move, end: nat)
    requires Together(l) && MayMove(l, move) && StepAllowed(l, move) && end in Moved(l, move).registered
    ensures Filed(Moved(l, move).tiers.d, end)
  {
    hide Safe, Agrees, Filed, Write, Advance, SealsGroup, Queued;
    if end in l.registered {
      if StepOf(move).Some? { StaysFiled(l.tiers, StepOf(move).value, end); }
    } else {
      RegisterIs(l.tiers, move.id);
      RegisterFiles(l.tiers.d, l.tiers.ops[move.id].file);
    }
  }

  lemma RegisterIs(s: State, id: nat)
    requires Enabled(s, RegisterSeal(id))
    ensures id in s.ops && s.ops[id].Sealed? && Write(s, RegisterSeal(id)) == RegisterFile(s.d, s.ops[id].file)
  {
  }

  /** Every move keeps the queue and the tiers together, and is a step of the tiers'. */
  lemma MoveKeeps(l: Log, move: Move)
    requires Together(l) && MayMove(l, move)
    ensures StepAllowed(l, move) && Together(Moved(l, move))
  {
    hide Safe, Agrees, Filed, MayMove, SealsGroup, Enabled, Write, Advance, QueueAfter;
    MovesAreSteps(l, move);
    if StepOf(move).Some? { StepSafe(l.tiers, StepOf(move).value); }
    QueueAgrees(l, move);
    forall id | id in Moved(l, move).tiers.ops
      ensures SealsGroup(Moved(l, move).queue, Moved(l, move).tiers.ops[id])
    {
      SealsKept(l, move, id);
    }
    forall end | end in Moved(l, move).registered ensures Filed(Moved(l, move).tiers.d, end) {
      RegisteredFiled(l, move, end);
    }
  }

  // ----- whole runs -----

  /** A new log and its queue: one group, open and empty. */
  ghost predicate NewLogAndQueue(l: Log) {
    NewLog(l.tiers) && l.queue == Groups([Q.Entry(None, None, 0, None)], [[]], 1) && l.registered == {}
  }

  lemma NewTogether(l: Log)
    requires NewLogAndQueue(l)
    ensures Together(l)
  {
    NewLogOk(l.tiers);
    assert Q.Concat([[]]) == Q.Concat([[]][..0]) + [];
    assert Past(l.tiers.d) == 0;
  }

  ghost predicate MayMoveAll(l: Log, moves: seq<Move>)
    decreases |moves|
  {
    moves == [] ||
    (MayMove(l, moves[0]) && StepAllowed(l, moves[0]) && MayMoveAll(Moved(l, moves[0]), moves[1..]))
  }

  ghost function Outcome(l: Log, moves: seq<Move>): Log
    requires MayMoveAll(l, moves)
    decreases |moves|
  {
    if moves == [] then l else Outcome(Moved(l, moves[0]), moves[1..])
  }

  /** Whatever moves a new log and its queue make, the tiers' state is one its own steps
      reach, and the queue agrees with it: each group waiting is filed or lies past what
      is, and every unfiled row is in one of them. */
  lemma {:induction false} QueueRuns(l: Log, moves: seq<Move>)
    requires Together(l) && MayMoveAll(l, moves)
    ensures Together(Outcome(l, moves)) && Reaches(l.tiers, Outcome(l, moves).tiers)
    decreases |moves|
  {
    hide Together, MayMove, StepAllowed, Moved, Enabled, Write, Advance;
    if moves == [] {
      assert Legal(l.tiers, []) && After(l.tiers, []) == l.tiers;
    } else {
      var m := Moved(l, moves[0]);
      MoveKeeps(l, moves[0]);
      QueueRuns(m, moves[1..]);
      var steps :| Legal(m.tiers, steps) && After(m.tiers, steps) == Outcome(l, moves).tiers;
      Prepends(l, moves[0], steps);
    }
  }

  lemma Prepends(l: Log, move: Move, steps: seq<Step>)
    requires MayMove(l, move) && StepAllowed(l, move) && Legal(Moved(l, move).tiers, steps)
    ensures Reaches(l.tiers, After(Moved(l, move).tiers, steps))
  {
    hide MayMove, Enabled, Write, Advance, QueueAfter;
    if StepOf(move).Some? {
      var step := StepOf(move).value;
      assert ([step] + steps)[1..] == steps;
      assert Legal(l.tiers, [step] + steps);
    } else {
      assert Legal(l.tiers, steps);
    }
  }

  /** So every promise the tiers make of a reachable state is kept by a log and its queue. */
  lemma QueueRunsReach(l: Log, moves: seq<Move>)
    requires NewLogAndQueue(l) && MayMoveAll(l, moves)
    ensures Reachable(Outcome(l, moves).tiers) && Agrees(Outcome(l, moves).tiers.d, Outcome(l, moves).queue)
  {
    hide MayMoveAll, Outcome, Safe, Agrees, Reaches;
    NewTogether(l);
    QueueRuns(l, moves);
    assert NewLog(l.tiers);
  }
}
