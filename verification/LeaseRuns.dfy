/** The writer lease: one record in a compare-and-swap store, handles that read, write,
    renew and release it, each by its own clock.

    A version stands for the bytes it is the hash of; a fresh token makes every record
    written different. The expiry is computed before the write is sent. A write whose
    answer never came may still land, at any later time, whatever its handle has done by
    then. */
module LeaseRuns {
  import opened Options

  /** What the store holds: an owner's record, or a tombstone with none. */
  datatype Record = Record(version: nat, owner: Option<nat>, expires: int)

  datatype Kind = Take | Extend | Drop

  /** What a handle is in the middle of, under its lock. */
  datatype Op =
    | Idle
    | Chosen(kind: Kind, expected: Option<nat>)
    | Sending(kind: Kind, expected: Option<nat>, expires: int)

  /** A handle: the expiry and version of the last record it knows it wrote. */
  datatype Handle = Handle(held: Option<int>, version: Option<nat>, op: Op)

  datatype Config = Config(ttl: int, skew: int)

  datatype State = State(
    record: Option<Record>,
    versions: nat,                   // versions written so far
    handles: map<nat, Handle>,
    clocks: map<nat, int>,           // what each handle's clock now reads
    late: set<Write>)                // writes given up as failed that may still land

  /** A write no answer came for. */
  datatype Write = Write(id: nat, kind: Kind, expected: Option<nat>, expires: int)

  datatype Step =
    | Open(id: nat, clock: int)
    | Tick(clocks: map<nat, int>)
    | Look(id: nat)                  // `acquire` reads the record, and may be refused
    | Check(id: nat, kind: Kind)     // `renew` or `release` asks whether it is still held
    | Send(id: nat)                  // the new expiry computed
    | Land(id: nat)                  // the store answers the write
    | GiveUp(id: nat)                // no answer came
    | Late(write: Write)             // and the write reaches the store after all

  function VersionOf(record: Option<Record>): Option<nat> {
    if record.Some? then Some(record.value.version) else None
  }

  /** A record still to be respected, by this clock. */
  predicate Refuses(record: Option<Record>, now: int, skew: int) {
    record.Some? && record.value.owner.Some? && now < record.value.expires + skew
  }

  /** `_require_held`: authority to write, by the handle's own clock. */
  predicate Holds(handle: Handle, now: int, skew: int) {
    handle.held.Some? && now < handle.held.value - skew
  }

  ghost predicate Near(clocks: map<nat, int>, skew: int) {
    forall i, j :: i in clocks && j in clocks ==> clocks[i] - clocks[j] <= 2 * skew
  }

  ghost predicate Enabled(c: Config, s: State, step: Step) {
    match step
    case Open(id, clock) => id !in s.handles && id !in s.clocks
    case Tick(clocks) => clocks.Keys == s.clocks.Keys
    case Look(id) => id in s.handles && id in s.clocks && s.handles[id].op.Idle? && s.handles[id].held.None?
    case Check(id, kind) => id in s.handles && id in s.clocks && s.handles[id].op.Idle? && kind != Take
    case Send(id) => id in s.handles && id in s.clocks && s.handles[id].op.Chosen?
    case Land(id) => id in s.handles && s.handles[id].op.Sending?
    case GiveUp(id) => id in s.handles && s.handles[id].op.Sending?
    case Late(write) => write in s.late
  }

  /** No clock is set back. */
  ghost predicate Forward(s: State, step: Step) {
    step.Tick? ==> forall i :: i in step.clocks && i in s.clocks ==> s.clocks[i] <= step.clocks[i]
  }

  /** The clocks are at most twice the margin apart. */
  ghost predicate InStep(c: Config, s: State, step: Step) {
    && (step.Tick? ==> Near(step.clocks, c.skew))
    && (step.Open? ==> Near(s.clocks[step.id := step.clock], c.skew))
  }

  function With(s: State, id: nat, handle: Handle): State {
    s.(handles := s.handles[id := handle])
  }

  /** The record a write leaves. */
  function Wrote(s: State, write: Write): Record {
    if write.kind.Drop? then Record(s.versions, None, 0) else Record(s.versions, Some(write.id), write.expires)
  }

  /** The store replaces its record if it is the one expected. */
  function Stored(s: State, write: Write): State {
    if VersionOf(s.record) != write.expected then s
    else s.(record := Some(Wrote(s, write)), versions := s.versions + 1)
  }

  function Sent(s: State, id: nat): Write
    requires id in s.handles && s.handles[id].op.Sending?
  {
    var op := s.handles[id].op;
    Write(id, op.kind, op.expected, op.expires)
  }

  function Apply(c: Config, s: State, step: Step): State
    requires Enabled(c, s, step)
  {
    match step
    case Open(id, clock) => With(s.(clocks := s.clocks[id := clock]), id, Handle(None, None, Idle))
    case Tick(clocks) => s.(clocks := clocks)
    case Look(id) =>
      if Refuses(s.record, s.clocks[id], c.skew) then s
      else With(s, id, s.handles[id].(op := Chosen(Take, VersionOf(s.record))))
    case Check(id, kind) =>
      if Holds(s.handles[id], s.clocks[id], c.skew)
      then With(s, id, s.handles[id].(op := Chosen(kind, s.handles[id].version)))
      else With(s, id, Handle(None, None, Idle))
    case Send(id) =>
      var op := s.handles[id].op;
      With(s, id, s.handles[id].(op := Sending(op.kind, op.expected, s.clocks[id] + c.ttl)))
    case Land(id) => Landed(s, id)
    case GiveUp(id) =>
      var write := Sent(s, id);
      With(s.(late := s.late + {write}), id,
        if write.kind.Drop? then Handle(None, None, Idle) else s.handles[id].(op := Idle))
    case Late(write) => Stored(s, write).(late := s.late - {write})
  }

  /** A conflict costs a renewal or a release its authority; a release lets go whatever
      the answer. */
  function Landed(s: State, id: nat): State
    requires id in s.handles && s.handles[id].op.Sending?
  {
    var write := Sent(s, id);
    var gone := Handle(None, None, Idle);
    With(Stored(s, write), id,
      if write.kind.Drop? then gone
      else if VersionOf(s.record) == write.expected then Handle(Some(write.expires), Some(s.versions), Idle)
      else if write.kind.Take? then s.handles[id].(op := Idle)
      else gone)
  }

  // ----- one holder -----

  /** Past its expiry less the margin, by its own clock: it will never hold again. */
  ghost predicate Spent(handle: Handle, clock: int, skew: int) {
    handle.held.Some? && clock >= handle.held.value - skew
  }

  /** The record is the handle's own, good for at least as long as it believes. */
  ghost predicate Own(s: State, id: nat, handle: Handle) {
    && handle.held.Some? && s.record.Some? && s.record.value.owner == Some(id)
    && handle.held.value <= s.record.value.expires
  }

  ghost predicate OpOk(c: Config, s: State, id: nat)
    requires id in s.handles && id in s.clocks
  {
    var handle, now := s.handles[id], s.clocks[id];
    var op := handle.op;
    match op
    case Idle => true
    case Chosen(kind, expected) => ChoiceOk(c, s, id, kind, expected)
    case Sending(kind, expected, expires) =>
      && ChoiceOk(c, s, id, kind, expected)
      && expires <= now + c.ttl
      && (kind.Extend? && handle.held.Some? ==> handle.held.value <= expires)
  }

  /** Taking: if the record is still the one read, it is still not to be respected.
      Otherwise: the version expected is the handle's own. */
  ghost predicate ChoiceOk(c: Config, s: State, id: nat, kind: Kind, expected: Option<nat>)
    requires id in s.handles && id in s.clocks
  {
    if kind.Take? then
      && s.handles[id].held.None?
      && (expected.Some? ==> expected.value < s.versions)
      && (VersionOf(s.record) == expected ==> !Refuses(s.record, s.clocks[id], c.skew))
    else expected == s.handles[id].version && expected.Some?
  }

  ghost predicate HandleOk(c: Config, s: State, id: nat)
    requires id in s.handles && id in s.clocks
  {
    var handle, now := s.handles[id], s.clocks[id];
    && (handle.held.Some? <==> handle.version.Some?)
    && (handle.held.Some? ==> handle.held.value <= now + c.ttl)
    && (handle.held.Some? ==> Own(s, id, handle) || Spent(handle, now, c.skew))
    && (handle.version.Some? && VersionOf(s.record) == handle.version ==> s.record.value.owner == Some(id))
    && (handle.version.Some? ==> handle.version.value < s.versions)
    && OpOk(c, s, id)
  }

  /** A write still in flight: should the record yet be the one it expects, it is not to
      be respected, or is the writer's own and believed in for no longer than the write
      would make it. */
  ghost predicate LateOk(c: Config, s: State, write: Write)
    requires s.handles.Keys <= s.clocks.Keys
  {
    var id := write.id;
    && id in s.handles
    && (write.expected.Some? ==> write.expected.value < s.versions)
    && (!write.kind.Take? ==> write.expected.Some?)
    && (VersionOf(s.record) == write.expected ==>
          if write.kind.Take? then !Refuses(s.record, s.clocks[id], c.skew)
          else && s.record.value.owner == Some(id)
               && (s.handles[id].held.Some? ==> write.kind.Extend? && s.handles[id].held.value <= write.expires))
  }

  ghost predicate Inv(c: Config, s: State) {
    && s.handles.Keys <= s.clocks.Keys && Near(s.clocks, c.skew)
    && (s.record.Some? ==> s.record.value.version < s.versions)
    && (forall id :: id in s.handles ==> HandleOk(c, s, id))
    && (forall write <- s.late :: LateOk(c, s, write))
  }

  const START := State(None, 0, map[], map[], {})

  /** At most one handle has authority. */
  lemma OneHolder(c: Config, s: State, i: nat, j: nat)
    requires Inv(c, s) && i in s.handles && j in s.handles
    requires Holds(s.handles[i], s.clocks[i], c.skew) && Holds(s.handles[j], s.clocks[j], c.skew)
    ensures i == j
  {
    hide OpOk, Near;
    assert HandleOk(c, s, i) && HandleOk(c, s, j);
  }

  lemma TickKeeps(c: Config, s: State, clocks: map<nat, int>)
    requires Inv(c, s) && Enabled(c, s, Tick(clocks)) && Forward(s, Tick(clocks)) && InStep(c, s, Tick(clocks))
    ensures Inv(c, Apply(c, s, Tick(clocks)))
  {
    hide Near;
    var t := Apply(c, s, Tick(clocks));
    forall id | id in t.handles ensures HandleOk(c, t, id) {
      assert HandleOk(c, s, id) && s.clocks[id] <= clocks[id];
    }
    forall write <- t.late ensures LateOk(c, t, write) {
      assert LateOk(c, s, write) && s.clocks[write.id] <= clocks[write.id];
    }
  }

  /** A step of one handle that leaves the record alone. */
  lemma OthersSame(c: Config, s: State, t: State, id: nat)
    requires Inv(c, s) && s.record == t.record && s.versions <= t.versions
    requires forall i :: i in t.handles && i != id ==> i in s.handles && t.handles[i] == s.handles[i]
    requires forall i :: i in s.clocks ==> i in t.clocks && t.clocks[i] == s.clocks[i]
    ensures forall i :: i in t.handles && i != id ==> HandleOk(c, t, i)
  {
    hide Near, Refuses, LateOk;
    forall i | i in t.handles && i != id ensures HandleOk(c, t, i) {
      assert HandleOk(c, s, i);
    }
  }

  /** The writes in flight do not mind a handle that learns nothing new. */
  lemma LateSame(c: Config, s: State, t: State, id: nat)
    requires Inv(c, s) && s.record == t.record && s.versions <= t.versions && t.handles.Keys <= t.clocks.Keys
    requires s.handles.Keys <= t.handles.Keys
    requires forall i :: i in s.handles && i != id ==> t.handles[i] == s.handles[i]
    requires id in s.handles && t.handles[id].held.Some? ==> t.handles[id].held == s.handles[id].held
    requires forall i :: i in s.clocks ==> i in t.clocks && t.clocks[i] == s.clocks[i]
    ensures forall write <- s.late :: LateOk(c, t, write)
  {
    hide Near, Refuses, HandleOk;
    forall write <- s.late ensures LateOk(c, t, write) {
      assert LateOk(c, s, write);
    }
  }

  lemma LocalKeeps(c: Config, s: State, step: Step)
    requires Inv(c, s) && Enabled(c, s, step)
    requires InStep(c, s, step) && (step.Open? || step.Look? || step.Check? || step.Send?)
    ensures Inv(c, Apply(c, s, step))
  {
    hide Near, LateOk;
    var t, id := Apply(c, s, step), step.id;
    OthersSame(c, s, t, id);
    LateSame(c, s, t, id);
    if id in s.handles { assert HandleOk(c, s, id); }
  }

  lemma GiveUpKeeps(c: Config, s: State, id: nat)
    requires Inv(c, s) && Enabled(c, s, GiveUp(id))
    ensures Inv(c, Apply(c, s, GiveUp(id)))
  {
    hide Near, Refuses;
    var t := Apply(c, s, GiveUp(id));
    OthersSame(c, s, t, id);
    LateSame(c, s, t, id);
    assert HandleOk(c, s, id);
    assert LateOk(c, t, Sent(s, id));
  }

  /** What a write that lands finds: every other handle past its time. */
  ghost predicate OthersSpent(s: State, id: nat, skew: int)
    requires s.handles.Keys <= s.clocks.Keys
  {
    forall i :: i in s.handles && i != id && s.handles[i].held.Some? ==> Spent(s.handles[i], s.clocks[i], skew)
  }

  /** Where one clock finds the record no longer to be respected, every handle is spent:
      their clocks are at most twice the margin apart. */
  lemma TakeFindsSpent(c: Config, s: State, id: nat, i: nat)
    requires Inv(c, s) && id in s.handles && !Refuses(s.record, s.clocks[id], c.skew)
    requires i in s.handles && s.handles[i].held.Some?
    ensures Spent(s.handles[i], s.clocks[i], c.skew)
  {
    hide OpOk, LateOk;
    assert HandleOk(c, s, i);
    assert s.clocks[id] - s.clocks[i] <= 2 * c.skew;
  }

  lemma OwnFindsSpent(c: Config, s: State, id: nat)
    requires Inv(c, s) && id in s.handles
    requires s.record.Some? && s.record.value.owner == Some(id)
    ensures OthersSpent(s, id, c.skew)
  {
    hide OpOk, Near, LateOk;
    forall i | i in s.handles && i != id && s.handles[i].held.Some?
      ensures Spent(s.handles[i], s.clocks[i], c.skew)
    {
      assert HandleOk(c, s, i);
    }
  }

  /** A new record, every other handle spent: they stay as they should be, and no write in
      flight expects the new record. */
  lemma OthersAfter(c: Config, s: State, t: State, id: nat)
    requires Inv(c, s) && OthersSpent(s, id, c.skew)
    requires t.record.Some? && t.record.value.version == s.versions && t.versions == s.versions + 1
    requires t.clocks == s.clocks && t.handles.Keys == s.handles.Keys
    requires forall i :: i in t.handles && i != id ==> t.handles[i] == s.handles[i]
    ensures forall i :: i in t.handles && i != id ==> HandleOk(c, t, i)
    ensures forall write <- s.late :: LateOk(c, t, write)
  {
    hide Near, Refuses, Own;
    forall i | i in t.handles && i != id ensures HandleOk(c, t, i) {
      assert HandleOk(c, s, i);
    }
    forall write <- s.late ensures LateOk(c, t, write) {
      assert LateOk(c, s, write);
    }
  }

  lemma WriteFindsSpent(c: Config, s: State, write: Write)
    requires Inv(c, s) && write.id in s.handles && VersionOf(s.record) == write.expected
    requires if write.kind.Take? then !Refuses(s.record, s.clocks[write.id], c.skew)
             else s.record.Some? && s.record.value.owner == Some(write.id)
    ensures OthersSpent(s, write.id, c.skew)
  {
    hide HandleOk, LateOk, Near, Refuses, Own, Spent;
    if write.kind.Take? {
      forall i | i in s.handles && i != write.id && s.handles[i].held.Some?
        ensures Spent(s.handles[i], s.clocks[i], c.skew)
      {
        TakeFindsSpent(c, s, write.id, i);
      }
    } else {
      OwnFindsSpent(c, s, write.id);
    }
  }

  lemma LandKeeps(c: Config, s: State, id: nat)
    requires Inv(c, s) && Enabled(c, s, Land(id))
    ensures Inv(c, Apply(c, s, Land(id)))
  {
    var t := Apply(c, s, Land(id));
    hide Near, LateOk;
    assert HandleOk(c, s, id);
    if VersionOf(s.record) != s.handles[id].op.expected {
      OthersSame(c, s, t, id);
      LateSame(c, s, t, id);
    } else {
      WriteFindsSpent(c, s, Sent(s, id));
      OthersAfter(c, s, t, id);
    }
  }

  /** The writer's own handle, after a write of its that it gave up on has landed. */
  lemma WriterAfter(c: Config, s: State, write: Write)
    requires Inv(c, s) && write in s.late && VersionOf(s.record) == write.expected
    requires write.id in s.handles
    ensures HandleOk(c, Apply(c, s, Late(write)), write.id)
  {
    hide Near;
    assert LateOk(c, s, write) && HandleOk(c, s, write.id);
    if write.kind.Take? && s.handles[write.id].held.Some? {
      hide Refuses;
      TakeFindsSpent(c, s, write.id, write.id);
    }
  }

  lemma LateKeeps(c: Config, s: State, write: Write)
    requires Inv(c, s) && Enabled(c, s, Late(write))
    ensures Inv(c, Apply(c, s, Late(write)))
  {
    hide Near, HandleOk, Refuses;
    var t := Apply(c, s, Late(write));
    assert LateOk(c, s, write);
    if VersionOf(s.record) == write.expected {
      WriteFindsSpent(c, s, write);
      OthersAfter(c, s, t, write.id);
      WriterAfter(c, s, write);
    } else {
      SameAfter(c, s, t);
    }
  }

  lemma SameAfter(c: Config, s: State, t: State)
    requires Inv(c, s) && t.late <= s.late && t.(late := {}) == s.(late := {})
    ensures Inv(c, t)
  {
    hide Near, Refuses, Spent;
    assert t.record == s.record && t.versions == s.versions && t.handles == s.handles && t.clocks == s.clocks;
    forall id | id in t.handles ensures HandleOk(c, t, id) {
      assert HandleOk(c, s, id);
    }
    forall write <- t.late ensures LateOk(c, t, write) {
      assert LateOk(c, s, write);
    }
  }

  lemma StepKeeps(c: Config, s: State, step: Step)
    requires Inv(c, s) && Enabled(c, s, step) && Forward(s, step) && InStep(c, s, step)
    ensures Inv(c, Apply(c, s, step))
  {
    hide Inv, Enabled, Apply, Forward, InStep;
    match step
    case Tick(clocks) => TickKeeps(c, s, clocks);
    case Land(id) => LandKeeps(c, s, id);
    case GiveUp(id) => GiveUpKeeps(c, s, id);
    case Late(write) => LateKeeps(c, s, write);
    case _ => LocalKeeps(c, s, step);
  }

  // ----- runs -----

  ghost predicate Legal(c: Config, s: State, steps: seq<Step>)
    decreases |steps|
  {
    steps == [] || (Enabled(c, s, steps[0]) && Legal(c, Apply(c, s, steps[0]), steps[1..]))
  }

  ghost function After(c: Config, s: State, steps: seq<Step>): State
    requires Legal(c, s, steps)
    decreases |steps|
  {
    if steps == [] then s else After(c, Apply(c, s, steps[0]), steps[1..])
  }

  /** No clock is set back in the run. */
  ghost predicate Monotone(c: Config, s: State, steps: seq<Step>)
    requires Legal(c, s, steps)
    decreases |steps|
  {
    steps == [] || (Forward(s, steps[0]) && Monotone(c, Apply(c, s, steps[0]), steps[1..]))
  }

  /** Nor do the clocks drift further apart than twice the margin. */
  ghost predicate Synchronised(c: Config, s: State, steps: seq<Step>)
    requires Legal(c, s, steps)
    decreases |steps|
  {
    steps == [] || (InStep(c, s, steps[0]) && Synchronised(c, Apply(c, s, steps[0]), steps[1..]))
  }

  lemma {:induction false} RunKeeps(c: Config, s: State, steps: seq<Step>)
    requires Inv(c, s) && Legal(c, s, steps) && Monotone(c, s, steps) && Synchronised(c, s, steps)
    ensures Inv(c, After(c, s, steps))
    decreases |steps|
  {
    hide Inv, Enabled, Apply, Forward, InStep;
    if steps != [] {
      StepKeeps(c, s, steps[0]);
      RunKeeps(c, Apply(c, s, steps[0]), steps[1..]);
    }
  }

  /** In every run in which no clock is set back or strays, at most one handle has
      authority, whatever writes lost their answers and whenever they land. */
  lemma AtMostOneHolder(c: Config, steps: seq<Step>, i: nat, j: nat)
    requires Legal(c, START, steps) && Monotone(c, START, steps) && Synchronised(c, START, steps)
    ensures var s := After(c, START, steps);
      s.handles.Keys <= s.clocks.Keys
      && (i in s.handles && j in s.handles && Holds(s.handles[i], s.clocks[i], c.skew) && Holds(s.handles[j], s.clocks[j], c.skew)
          ==> i == j)
  {
    hide Legal, After, Monotone, Synchronised, HandleOk, LateOk, Holds;
    RunKeeps(c, START, steps);
    var s := After(c, START, steps);
    if i in s.handles && j in s.handles && Holds(s.handles[i], s.clocks[i], c.skew) && Holds(s.handles[j], s.clocks[j], c.skew) {
      OneHolder(c, s, i, j);
    }
  }

  /** A step at which the store takes a write. */
  ghost predicate Takes(s: State, step: Step, write: Write) {
    || (step.Land? && step.id in s.handles && s.handles[step.id].op.Sending? && write == Sent(s, step.id))
    || (step == Late(write) && write in s.late)
  }

  /** A renewal or a release changes the record only while it is the handle's own, however
      late it lands: a stale one never touches a successor's. */
  lemma StaleHarmless(c: Config, steps: seq<Step>, step: Step, write: Write)
    requires Legal(c, START, steps) && Monotone(c, START, steps) && Synchronised(c, START, steps)
    requires Enabled(c, After(c, START, steps), step)
    requires Takes(After(c, START, steps), step, write) && !write.kind.Take?
    ensures var s := After(c, START, steps);
      var t := Apply(c, s, step);
      t.record != s.record ==> s.record.Some? && s.record.value.owner == Some(write.id)
  {
    hide Legal, After, Monotone, Synchronised, Own, Refuses;
    RunKeeps(c, START, steps);
    var s := After(c, START, steps);
    if step.Land? { assert HandleOk(c, s, write.id); } else { assert LateOk(c, s, write); }
  }

  /** A record is taken from another only once it is past its expiry and the margin, by
      the taker's clock at that moment. */
  lemma TakenExpired(c: Config, steps: seq<Step>, step: Step, write: Write)
    requires Legal(c, START, steps) && Monotone(c, START, steps) && Synchronised(c, START, steps)
    requires Enabled(c, After(c, START, steps), step)
    requires Takes(After(c, START, steps), step, write) && write.kind.Take?
    ensures var s := After(c, START, steps);
      var t := Apply(c, s, step);
      write.id in s.clocks && (t.record != s.record ==> !Refuses(s.record, s.clocks[write.id], c.skew))
  {
    hide Legal, After, Monotone, Synchronised, Own, Refuses;
    RunKeeps(c, START, steps);
    var s := After(c, START, steps);
    if step.Land? { assert HandleOk(c, s, write.id); } else { assert LateOk(c, s, write); }
  }

  // ----- what a call comes to -----

  /** A renewal, or a release, by a handle with authority, answered or not. Answered, it
      replaces the record if that is the one last written, and costs the handle its
      authority if not. Unanswered, a renewal leaves the handle as it was; and the write
      may land later, to the same record. */
  lemma CallComes(c: Config, s: State, id: nat, kind: Kind)
    requires id in s.handles && id in s.clocks && s.handles[id].op.Idle? && kind != Take
    requires Holds(s.handles[id], s.clocks[id], c.skew)
    ensures var expires := s.clocks[id] + c.ttl;
      var own := VersionOf(s.record) == s.handles[id].version;
      var write := Write(id, kind, s.handles[id].version, expires);
      var record := if !own then s.record
                    else Some(if kind.Drop? then Record(s.versions, None, 0) else Record(s.versions, Some(id), expires));
      && Legal(c, s, [Check(id, kind), Send(id), Land(id)])
      && var t := After(c, s, [Check(id, kind), Send(id), Land(id)]);
      && t.record == record && id in t.handles
      && t.handles[id] == (if own && !kind.Drop? then Handle(Some(expires), Some(s.versions), Idle)
                           else Handle(None, None, Idle))
      && Legal(c, s, [Check(id, kind), Send(id), GiveUp(id)])
      && var u := After(c, s, [Check(id, kind), Send(id), GiveUp(id)]);
      && u.record == s.record && id in u.handles
      && u.handles[id] == (if kind.Drop? then Handle(None, None, Idle) else s.handles[id])
      && Enabled(c, u, Late(write)) && Apply(c, u, Late(write)).record == record
  {
    var a := Apply(c, s, Check(id, kind));
    var b := Apply(c, a, Send(id));
    Three(c, s, Check(id, kind), Send(id), Land(id));
    Three(c, s, Check(id, kind), Send(id), GiveUp(id));
  }

  /** An acquisition: refused by a record still to be respected; and its write, when it is
      answered, takes the lease if the record it read is still there, and otherwise leaves
      the handle free to try again. */
  lemma TakeComes(c: Config, s: State, id: nat)
    requires id in s.handles && id in s.clocks
    ensures s.handles[id] == Handle(None, None, Idle) ==>
      && Enabled(c, s, Look(id))
      && var t := Apply(c, s, Look(id));
        if s.record.Some? && s.record.value.owner.Some? && s.clocks[id] < s.record.value.expires + c.skew then t == s
        else t == s.(handles := s.handles[id := Handle(None, None, Chosen(Take, VersionOf(s.record)))])
    ensures s.handles[id].op.Sending? && s.handles[id].op.kind.Take? && s.handles[id].held.None? ==>
      && Enabled(c, s, Land(id))
      && var op, t := s.handles[id].op, Apply(c, s, Land(id));
        if VersionOf(s.record) == op.expected then
          && t.record == Some(Record(s.versions, Some(id), op.expires))
          && t.handles == s.handles[id := Handle(Some(op.expires), Some(s.versions), Idle)]
        else t.record == s.record && t.handles == s.handles[id := s.handles[id].(op := Idle)]
  {
  }

  lemma Three(c: Config, s: State, x: Step, y: Step, z: Step)
    requires Enabled(c, s, x) && Enabled(c, Apply(c, s, x), y) && Enabled(c, Apply(c, Apply(c, s, x), y), z)
    ensures Legal(c, s, [x, y, z])
    ensures After(c, s, [x, y, z]) == Apply(c, Apply(c, Apply(c, s, x), y), z)
  {
    hide Enabled, Apply;
    var a := Apply(c, s, x);
    var b := Apply(c, a, y);
    assert [x, y, z][1..] == [y, z] && [y, z][1..] == [z] && [z][1..] == [];
    assert Legal(c, b, [z]) && After(c, b, [z]) == Apply(c, b, z);
    assert Legal(c, a, [y, z]) && After(c, a, [y, z]) == After(c, b, [z]);
  }

  // ----- clocks that stray -----

  /** One step more at the front of a run. */
  lemma Cons(c: Config, s: State, step: Step, t: State, rest: seq<Step>)
    requires Enabled(c, s, step) && Forward(s, step) && Apply(c, s, step) == t
    requires Legal(c, t, rest) && Monotone(c, t, rest)
    ensures Legal(c, s, [step] + rest) && Monotone(c, s, [step] + rest)
    ensures After(c, s, [step] + rest) == After(c, t, rest)
    ensures InStep(c, s, step) && Synchronised(c, t, rest) ==> Synchronised(c, s, [step] + rest)
  {
    assert ([step] + rest)[1..] == rest;
  }

  const NOBODY := Handle(None, None, Idle)

  /** The first handle takes the lease at 0; the second, its clock at `there`, once the
      clocks read `a` and `b`. */
  function TwoTakes(there: int, a: int, b: int): seq<Step> {
    [Open(0, 0)] + ([Open(1, there)] + ([Look(0)] + ([Send(0)] + ([Land(0)] + SecondTake(a, b)))))
  }

  function SecondTake(a: int, b: int): seq<Step> {
    [Tick(map[0 := a, 1 := b])] + ([Look(1)] + ([Send(1)] + ([Land(1)] + [])))
  }

  function Held(c: Config, there: int): State {
    State(Some(Record(0, Some(0), c.ttl)), 1, map[0 := Handle(Some(c.ttl), Some(0), Idle), 1 := NOBODY],
          map[0 := 0, 1 := there], {})
  }

  function BothHeld(c: Config, a: int, b: int): State {
    State(Some(Record(1, Some(1), b + c.ttl)), 2,
          map[0 := Handle(Some(c.ttl), Some(0), Idle), 1 := Handle(Some(b + c.ttl), Some(1), Idle)],
          map[0 := a, 1 := b], {})
  }

  ghost predicate Close(c: Config, x: int, y: int) {
    x - y <= 2 * c.skew && y - x <= 2 * c.skew && 0 <= c.skew
  }

  lemma FirstTakes(c: Config, there: int, rest: seq<Step>)
    requires Legal(c, Held(c, there), rest) && Monotone(c, Held(c, there), rest)
    ensures var steps := [Open(0, 0)] + ([Open(1, there)] + ([Look(0)] + ([Send(0)] + ([Land(0)] + rest))));
      && Legal(c, START, steps) && Monotone(c, START, steps)
      && After(c, START, steps) == After(c, Held(c, there), rest)
      && (Close(c, 0, there) && Synchronised(c, Held(c, there), rest) ==> Synchronised(c, START, steps))
  {
    hide Legal, After, Monotone, Synchronised;
    var s1 := State(None, 0, map[0 := NOBODY], map[0 := 0], {});
    var s2 := State(None, 0, map[0 := NOBODY, 1 := NOBODY], map[0 := 0, 1 := there], {});
    var s3 := s2.(handles := map[0 := Handle(None, None, Chosen(Take, None)), 1 := NOBODY]);
    var s4 := s2.(handles := map[0 := Handle(None, None, Sending(Take, None, c.ttl)), 1 := NOBODY]);
    var r4 := [Land(0)] + rest;
    Cons(c, s4, Land(0), Held(c, there), rest);
    Cons(c, s3, Send(0), s4, r4);
    Cons(c, s2, Look(0), s3, [Send(0)] + r4);
    Cons(c, s1, Open(1, there), s2, [Look(0)] + ([Send(0)] + r4));
    Cons(c, START, Open(0, 0), s1, [Open(1, there)] + ([Look(0)] + ([Send(0)] + r4)));
  }

  lemma SecondTakes(c: Config, there: int, a: int, b: int)
    requires 0 <= a && there <= b && c.ttl + c.skew <= b
    ensures var s, steps := Held(c, there), SecondTake(a, b);
      && Legal(c, s, steps) && Monotone(c, s, steps) && After(c, s, steps) == BothHeld(c, a, b)
      && (Close(c, a, b) ==> Synchronised(c, s, steps))
  {
    Ended(c, a, b);
    hide Legal, After, Monotone, Synchronised;
    var s5 := Held(c, there);
    var s6 := s5.(clocks := map[0 := a, 1 := b]);
    var s7 := s6.(handles := s5.handles[1 := Handle(None, None, Chosen(Take, Some(0)))]);
    var s8 := s6.(handles := s5.handles[1 := Handle(None, None, Sending(Take, Some(0), b + c.ttl))]);
    Cons(c, s8, Land(1), BothHeld(c, a, b), []);
    Cons(c, s7, Send(1), s8, [Land(1)] + []);
    Cons(c, s6, Look(1), s7, [Send(1)] + ([Land(1)] + []));
    Cons(c, s5, Tick(map[0 := a, 1 := b]), s6, [Look(1)] + ([Send(1)] + ([Land(1)] + [])));
  }

  lemma Ended(c: Config, a: int, b: int)
    ensures var s := BothHeld(c, a, b);
      Legal(c, s, []) && Monotone(c, s, []) && Synchronised(c, s, []) && After(c, s, []) == s
  {
  }

  lemma TwoTake(c: Config, there: int, a: int, b: int)
    requires 0 <= a && there <= b && c.ttl + c.skew <= b
    ensures var steps := TwoTakes(there, a, b);
      && Legal(c, START, steps) && Monotone(c, START, steps) && After(c, START, steps) == BothHeld(c, a, b)
      && (Close(c, 0, there) && Close(c, a, b) ==> Synchronised(c, START, steps))
  {
    hide Legal, After, Monotone, Synchronised, SecondTake;
    SecondTakes(c, there, a, b);
    FirstTakes(c, there, SecondTake(a, b));
  }

  ghost predicate TwoHolders(c: Config, s: State) {
    && 0 in s.handles && 1 in s.handles && 0 in s.clocks && 1 in s.clocks
    && Holds(s.handles[0], s.clocks[0], c.skew) && Holds(s.handles[1], s.clocks[1], c.skew)
  }

  /** Whatever the lease's time and margin: a run whose clocks agree throughout, and after
      it one step that sets both back, by which the first handle has authority again,
      beside the second. */
  lemma SetBackHolds(c: Config)
    requires 0 <= c.skew < c.ttl
    ensures var steps, back := TwoTakes(0, c.ttl + c.skew, c.ttl + c.skew), Tick(map[0 := 0, 1 := 0]);
      && Legal(c, START, steps) && Monotone(c, START, steps) && Synchronised(c, START, steps)
      && (var s := After(c, START, steps);
          && Enabled(c, s, back) && InStep(c, s, back) && !Forward(s, back)
          && TwoHolders(c, Apply(c, s, back)))
  {
    hide Legal, After, Monotone, Synchronised, TwoTakes;
    var now := c.ttl + c.skew;
    TwoTake(c, 0, now, now);
    assert 0 in BothHeld(c, now, now).clocks && map[0 := 0, 1 := 0][0] == 0;
  }

  /** And the margin is exact: clocks never set back, and never more than one past twice
      the margin apart, can leave two handles with authority. */
  lemma FarApartHolds(c: Config)
    requires 0 <= c.skew < c.ttl
    ensures var steps := TwoTakes(2 * c.skew + 1, c.ttl - c.skew - 1, c.ttl + c.skew);
      && Legal(c, START, steps) && Monotone(c, START, steps)
      && TwoHolders(c, After(c, START, steps))
      && forall step <- steps :: step.Tick? ==> step.clocks == map[0 := c.ttl - c.skew - 1, 1 := c.ttl + c.skew]
  {
    hide Legal, After, Monotone, Synchronised;
    TwoTake(c, 2 * c.skew + 1, c.ttl - c.skew - 1, c.ttl + c.skew);
  }
}
