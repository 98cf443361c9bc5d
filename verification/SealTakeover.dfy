/** Several sealers, claims that lapse, and crashes: how each queued group gets its one
    file, and how every file written stays named.

    A group is its place in the queue. One SQLite transaction, one Iceberg commit or one
    file write is one step, and a sealer may stop for ever between any two of its steps.
    A claim lapses when another owner takes an overlapping range, which deletes it. */
module SealTakeover {
  import opened Options

  /** A seal file: the group it was written for, and whether it holds all its rows. */
  datatype File = File(path: nat, group: nat, whole: bool)

  datatype Scope = One(group: nat) | All

  /** How far a sealer has got. */
  datatype Phase =
    | Claimed(group: nat)                  // its claim taken, the queue not read again
    | Confirmed(group: nat)                // the group is still the queue's head
    | Unrecorded(group: nat)               // `sealing` names no seal of it
    | Looking                              // a recovery, about to read `sealing`
    | Found(group: nat, path: nat)         // the seal `sealing` names
    | Landed(group: nat, path: nat)        // the table has its file
    | Missing(group: nat, path: nat)       // the table does not
    | Requeued(group: nat)                 // the abandoned name queued for deletion
    | Recorded(group: nat, path: nat)      // a first attempt recorded in `sealing`
    | Writing(group: nat, path: nat)
    | Written(group: nat, path: nat)
    | Ready(group: nat, path: nat)         // renewed, about to commit
    | Committed(group: nat, path: nat)

  datatype State = State(
    made: map<nat, nat>,                   // every name given to a seal file, and its group
    named: set<nat>,                       // groups whose extent has a file's name
    covered: nat,                          // groups the table's span or the watermark covers
    buffered: set<nat>,                    // groups whose rows are all in the buffer
    issued: nat,                           // groups cut so far
    table: set<File>,
    history: set<File>,                    // every file ever registered
    disk: set<File>,
    sealing: Option<(nat, nat)>,           // the one row of `sealing`: group and name
    pending: set<nat>,                     // `pending_delete`
    claims: map<nat, Scope>,               // the claim rows, by owner
    sealers: map<nat, Phase>)

  datatype Step =
    | Cut                                  // another group queued
    | EvictBuffer(group: nat)
    | Supersede(file: File)                // merged or evicted away, its name queued
    | Drain(path: nat)
    | Acquire(id: nat, group: nat)
    | AcquireAll(id: nat)
    | Confirm(id: nat)
    | Look(id: nat)
    | Resolve(id: nat)
    | Requeue(id: nat)
    | ClaimSeal(id: nat, path: nat)
    | Renew(id: nat)
    | Write(id: nat)
    | RenewWritten(id: nat)
    | Register(id: nat)
    | Finish(id: nat)
    | Release(id: nat)
    | Stop(id: nat)                        // a crash: what it had claimed stays claimed

  predicate Overlap(a: Scope, b: Scope) {
    a.All? || b.All? || a == b
  }

  function Paths(files: set<File>): set<nat> {
    set f <- files :: f.path
  }

  function Without(files: set<File>, path: nat): set<File> {
    set f | f in files && f.path != path
  }

  /** The queue's head: the oldest group with no name. */
  ghost predicate Head(s: State, group: nat) {
    group < s.issued && group !in s.named && forall g | 0 <= g < group :: g in s.named
  }

  ghost predicate At(s: State, id: nat) {
    id in s.sealers
  }

  ghost predicate Enabled(s: State, step: Step) {
    match step
    case Cut => true
    case EvictBuffer(group) => group < s.covered
    case Supersede(file) => file in s.table
    case Drain(path) => path in s.pending && path !in Paths(s.table)
    case Acquire(id, group) => id !in s.claims && !At(s, id)
    case AcquireAll(id) => id !in s.claims && !At(s, id)
    case Confirm(id) => At(s, id) && s.sealers[id].Claimed? && Head(s, s.sealers[id].group)
    case Look(id) => At(s, id) && (s.sealers[id].Confirmed? || (s.sealers[id].Looking? && s.sealing.Some?))
    case Resolve(id) => At(s, id) && s.sealers[id].Found?
    case Requeue(id) => At(s, id) && s.sealers[id].Missing?
    case ClaimSeal(id, path) => At(s, id) && (s.sealers[id].Unrecorded? || s.sealers[id].Requeued?) && path !in s.made
    case Renew(id) => At(s, id) && s.sealers[id].Recorded? && id in s.claims
    case Write(id) => At(s, id) && s.sealers[id].Writing?
    case RenewWritten(id) => At(s, id) && s.sealers[id].Written?
    case Register(id) => At(s, id) && s.sealers[id].Ready? && exists f <- s.disk :: f.path == s.sealers[id].path
    case Finish(id) => At(s, id) && (s.sealers[id].Committed? || s.sealers[id].Landed?)
    case Release(id) => id in s.claims
    case Stop(id) => At(s, id)
  }

  /** Taking a range deletes the lapsed rows it overlaps. */
  function Taken(claims: map<nat, Scope>, id: nat, scope: Scope): map<nat, Scope> {
    (map other | other in claims && !Overlap(claims[other], scope) :: claims[other])[id := scope]
  }

  function To(s: State, id: nat, phase: Phase): State {
    s.(sealers := s.sealers[id := phase])
  }

  function Gone(s: State, id: nat): State {
    s.(sealers := s.sealers - {id})
  }

  ghost function FileAt(s: State, path: nat): File
    requires exists f <- s.disk :: f.path == path
  {
    var f :| f in s.disk && f.path == path; f
  }

  ghost function Apply(s: State, step: Step): State
    requires Enabled(s, step)
  {
    match step
    case Cut => s.(issued := s.issued + 1, buffered := s.buffered + {s.issued})
    case EvictBuffer(group) => s.(buffered := s.buffered - {group})
    case Supersede(file) => s.(table := s.table - {file}, pending := s.pending + {file.path})
    case Drain(path) => s.(disk := Without(s.disk, path), pending := s.pending - {path})
    case Acquire(id, group) => To(s.(claims := Taken(s.claims, id, One(group))), id, Claimed(group))
    case AcquireAll(id) => To(s.(claims := Taken(s.claims, id, All)), id, Looking)
    case Confirm(id) => To(s, id, Confirmed(s.sealers[id].group))
    case Look(id) =>
      if s.sealers[id].Looking? then To(s, id, Found(s.sealing.value.0, s.sealing.value.1))
      else if s.sealing.Some? && s.sealing.value.0 == s.sealers[id].group then To(s, id, Looking)
      else To(s, id, Unrecorded(s.sealers[id].group))
    case Resolve(id) =>
      var path := s.sealers[id].path;
      if path in Paths(s.table) then To(s, id, Landed(s.sealers[id].group, path))
      else To(s, id, Missing(s.sealers[id].group, path))
    case Requeue(id) =>
      To(s.(pending := s.pending + {s.sealers[id].path}), id, Requeued(s.sealers[id].group))
    case ClaimSeal(id, path) =>
      var group := s.sealers[id].group;
      To(s.(made := s.made[path := group], sealing := Some((group, path))), id,
         if s.sealers[id].Requeued? then Writing(group, path) else Recorded(group, path))
    case Renew(id) => To(s, id, Writing(s.sealers[id].group, s.sealers[id].path))
    case Write(id) =>
      var group, path := s.sealers[id].group, s.sealers[id].path;
      To(s.(disk := s.disk + {File(path, group, group in s.buffered)}), id, Written(group, path))
    case RenewWritten(id) =>
      if id in s.claims then To(s, id, Ready(s.sealers[id].group, s.sealers[id].path))
      else Gone(s.(pending := s.pending + {s.sealers[id].path}), id)
    case Register(id) =>
      var group, path := s.sealers[id].group, s.sealers[id].path;
      if group < s.covered then To(s.(pending := s.pending + {path}), id, Committed(group, path))
      else
        var file := FileAt(s, path);
        To(s.(table := s.table + {file}, history := s.history + {file}, covered := group + 1), id, Committed(group, path))
    case Finish(id) =>
      var group, path := s.sealers[id].group, s.sealers[id].path;
      if s.sealing.Some? && s.sealing.value.1 == path
      then Gone(s.(sealing := None, named := s.named + {group}), id)
      else Gone(s, id)
    case Release(id) => Gone(s.(claims := s.claims - {id}), id)
    case Stop(id) => Gone(s, id)
  }

  const START := State(map[], {}, 0, {}, 0, {}, {}, {}, None, {}, map[], map[])

  // ----- every group once, and whole -----

  /** What a sealer's phase says of its group: nothing below it is uncovered. */
  ghost predicate GroupKnown(s: State, group: nat) {
    group <= s.covered && group < s.issued
  }

  ghost predicate PathKnown(s: State, group: nat, path: nat) {
    path in s.made && s.made[path] == group && GroupKnown(s, group)
  }

  ghost predicate PhaseOk(s: State, phase: Phase) {
    match phase
    case Claimed(_) => true
    case Looking => true
    case Confirmed(group) => GroupKnown(s, group)
    case Unrecorded(group) => GroupKnown(s, group)
    case Requeued(group) => GroupKnown(s, group)
    case Found(group, path) => PathKnown(s, group, path)
    case Missing(group, path) => PathKnown(s, group, path)
    case Recorded(group, path) => PathKnown(s, group, path)
    case Writing(group, path) => PathKnown(s, group, path)
    case Written(group, path) => PathKnown(s, group, path)
    case Ready(group, path) => PathKnown(s, group, path)
    case Landed(group, path) => PathKnown(s, group, path) && group < s.covered
    case Committed(group, path) => PathKnown(s, group, path) && group < s.covered
  }

  ghost predicate FilesOk(s: State) {
    && (forall f :: f in s.disk ==> PathKnown(s, f.group, f.path) && (f.whole || f.group < s.covered))
    && (forall f :: f in s.table ==> f in s.history)
    && (forall f :: f in s.history ==> f.whole && f.group < s.covered && f.path in s.made && s.made[f.path] == f.group)
  }

  ghost predicate Registered(s: State, group: nat) {
    exists f :: f in s.history && f.group == group
  }

  /** Each covered group has been registered, and just once. */
  ghost predicate Once(s: State) {
    && (forall g | 0 <= g < s.covered :: Registered(s, g))
    && (forall f, h :: f in s.history && h in s.history && f.group == h.group ==> f == h)
  }

  ghost predicate QueueOk(s: State) {
    && (forall g :: g in s.named ==> g < s.covered)
    && (forall g | s.covered <= g < s.issued :: g in s.buffered)
    && s.covered <= s.issued
    && (s.sealing.Some? ==> PathKnown(s, s.sealing.value.0, s.sealing.value.1))
  }

  ghost predicate Inv(s: State) {
    && FilesOk(s) && Once(s) && QueueOk(s)
    && (forall id :: id in s.sealers ==> PhaseOk(s, s.sealers[id]))
  }

  /** Nothing a sealer relies on is undone: names keep their groups, what is covered stays covered. */
  ghost predicate Grows(s: State, t: State) {
    && s.covered <= t.covered && s.issued <= t.issued
    && (forall p :: p in s.made ==> p in t.made && t.made[p] == s.made[p])
  }

  lemma PhaseGrows(s: State, t: State, phase: Phase)
    requires Grows(s, t) && PhaseOk(s, phase)
    ensures PhaseOk(t, phase)
  {
  }

  lemma {:induction false} SealersKept(s: State, t: State, id: nat)
    requires Grows(s, t) && (forall i :: i in s.sealers ==> PhaseOk(s, s.sealers[i]))
    requires t.sealers.Keys <= s.sealers.Keys + {id}
    requires forall i :: i in t.sealers && i != id ==> i in s.sealers && t.sealers[i] == s.sealers[i]
    requires id in t.sealers ==> PhaseOk(t, t.sealers[id])
    ensures forall i :: i in t.sealers ==> PhaseOk(t, t.sealers[i])
  {
    hide PhaseOk, Grows;
    forall i | i in t.sealers ensures PhaseOk(t, t.sealers[i]) {
      if i != id { PhaseGrows(s, t, s.sealers[i]); }
    }
  }

  /** The sealer a step is of. */
  function Mover(step: Step): nat {
    match step
    case Cut => 0
    case EvictBuffer(_) => 0
    case Supersede(_) => 0
    case Drain(_) => 0
    case Acquire(id, _) => id
    case AcquireAll(id) => id
    case Confirm(id) => id
    case Look(id) => id
    case Resolve(id) => id
    case Requeue(id) => id
    case ClaimSeal(id, _) => id
    case Renew(id) => id
    case Write(id) => id
    case RenewWritten(id) => id
    case Register(id) => id
    case Finish(id) => id
    case Release(id) => id
    case Stop(id) => id
  }

  lemma StepGrows(s: State, step: Step)
    requires Enabled(s, step)
    ensures Grows(s, Apply(s, step))
  {
  }

  lemma StepMoves(s: State, step: Step)
    requires Enabled(s, step)
    ensures var t, id := Apply(s, step), Mover(step);
      && t.sealers.Keys <= s.sealers.Keys + {id}
      && (forall i :: i in t.sealers && i != id ==> i in s.sealers && t.sealers[i] == s.sealers[i])
  {
  }

  lemma HeadCovered(s: State, group: nat)
    requires QueueOk(s) && Head(s, group)
    ensures group <= s.covered
  {
    if group > 0 { assert group - 1 in s.named; }
  }

  /** The sealer that moved knows what its new phase says. */
  lemma StepPhase(s: State, step: Step)
    requires Inv(s) && Enabled(s, step)
    ensures var t, id := Apply(s, step), Mover(step);
      id in t.sealers ==> PhaseOk(t, t.sealers[id])
  {
    var t, id := Apply(s, step), Mover(step);
    hide Once;
    if id in s.sealers { assert PhaseOk(s, s.sealers[id]); }
    match step
    case Confirm(_) => HeadCovered(s, s.sealers[id].group);
    case Resolve(_) =>
    case _ =>
  }

  lemma StepFiles(s: State, step: Step)
    requires Inv(s) && Enabled(s, step)
    ensures FilesOk(Apply(s, step))
  {
    hide Once;
    var id := Mover(step);
    if id in s.sealers { assert PhaseOk(s, s.sealers[id]); }
  }

  /** A file is registered only for a group not covered, so never twice; and the group
      is the next one, so none is passed over. */
  lemma StepOnce(s: State, step: Step)
    requires Inv(s) && Enabled(s, step)
    ensures Once(Apply(s, step))
  {
    var t, id := Apply(s, step), Mover(step);
    if step.Register? && s.sealers[id].group >= s.covered {
      RegisterOnce(s, id);
    } else {
      assert t.history == s.history && t.covered == s.covered;
      assert forall g :: Registered(s, g) ==> Registered(t, g);
    }
  }

  lemma RegisterOnce(s: State, id: nat)
    requires Inv(s) && Enabled(s, Register(id)) && s.sealers[id].group >= s.covered
    ensures Once(Apply(s, Register(id)))
  {
    hide QueueOk;
    var t, phase := Apply(s, Register(id)), s.sealers[id];
    assert PhaseOk(s, phase);
    var file := FileAt(s, phase.path);
    assert file.group == phase.group == s.covered;
    forall g | 0 <= g < t.covered ensures Registered(t, g) {
      if g < s.covered {
        assert Registered(s, g);
        var f :| f in s.history && f.group == g;
        assert f in t.history;
      } else {
        assert file in t.history;
      }
    }
  }

  lemma StepQueue(s: State, step: Step)
    requires Inv(s) && Enabled(s, step)
    ensures QueueOk(Apply(s, step))
  {
    hide Once;
    var id := Mover(step);
    if id in s.sealers { assert PhaseOk(s, s.sealers[id]); }
  }

  /** Whatever sealers interleave, lapse or stop, each step keeps the invariant. */
  lemma StepKeeps(s: State, step: Step)
    requires Inv(s) && Enabled(s, step)
    ensures Inv(Apply(s, step))
  {
    hide FilesOk, Once, QueueOk, PhaseOk, Grows, Enabled, Apply;
    StepFiles(s, step);
    StepOnce(s, step);
    StepQueue(s, step);
    StepPhase(s, step);
    StepGrows(s, step);
    StepMoves(s, step);
    SealersKept(s, Apply(s, step), Mover(step));
  }

  // ----- runs -----

  ghost predicate Legal(s: State, steps: seq<Step>)
    decreases |steps|
  {
    steps == [] || (Enabled(s, steps[0]) && Legal(Apply(s, steps[0]), steps[1..]))
  }

  ghost function After(s: State, steps: seq<Step>): State
    requires Legal(s, steps)
    decreases |steps|
  {
    if steps == [] then s else After(Apply(s, steps[0]), steps[1..])
  }

  lemma {:induction false} RunKeeps(s: State, steps: seq<Step>)
    requires Inv(s) && Legal(s, steps)
    ensures Inv(After(s, steps))
    decreases |steps|
  {
    hide Inv, Enabled, Apply;
    if steps != [] {
      StepKeeps(s, steps[0]);
      RunKeeps(Apply(s, steps[0]), steps[1..]);
    }
  }

  /** Each group's range is registered at most once, whole and in queue order, and its
      rows are in the buffer until it is; however the sealers stall, stop or take over. */
  lemma SealedOnce(steps: seq<Step>)
    requires Legal(START, steps)
    ensures var s := After(START, steps);
      && (forall f, h :: f in s.history && h in s.history && f.group == h.group ==> f == h)
      && (forall f :: f in s.history ==> f.whole && f.group < s.covered)
      && (forall g | 0 <= g < s.covered :: Registered(s, g))
      && (forall g | s.covered <= g < s.issued :: g in s.buffered)
      && (forall g :: g in s.named ==> g < s.covered)
  {
    hide Legal, After;
    RunKeeps(START, steps);
  }

  // ----- every file named -----

  /** A path a file is at, or may yet be written at. */
  ghost predicate Live(s: State, path: nat) {
    || path in Paths(s.disk)
    || exists id :: id in s.sealers && Aims(s.sealers[id], path)
  }

  /** A sealer that has recorded its file, and not written it. */
  predicate Aims(phase: Phase, path: nat) {
    (phase.Recorded? || phase.Writing?) && phase.path == path
  }

  ghost predicate Kept(s: State, path: nat) {
    path in Paths(s.table) || path in s.pending
  }

  ghost predicate Named(s: State, path: nat) {
    Kept(s, path) || (s.sealing.Some? && s.sealing.value.1 == path)
  }

  /** What a sealer that still holds its claim can rely on. */
  ghost predicate Holding(s: State, scope: Scope, phase: Phase) {
    match phase
    case Claimed(group) => scope == One(group)
    case Looking => scope.One? ==> Head(s, scope.group)
    case Unrecorded(group) => Head(s, group) && Within(scope, group) && s.sealing.None?
    case Requeued(group) =>
      && Head(s, group) && Within(scope, group)
      && (s.sealing.Some? && Live(s, s.sealing.value.1) ==> Kept(s, s.sealing.value.1))
    case Found(group, path) => Head(s, group) && Within(scope, group) && s.sealing == Some((group, path))
    case Missing(group, path) => Head(s, group) && Within(scope, group) && s.sealing == Some((group, path))
    case Landed(group, path) => Head(s, group) && Within(scope, group) && (Live(s, path) ==> Kept(s, path))
    case Committed(group, path) => Head(s, group) && Within(scope, group) && (Live(s, path) ==> Kept(s, path))
    case Confirmed(group) => Head(s, group) && Within(scope, group)
    case Recorded(group, _) => Head(s, group) && Within(scope, group)
    case Writing(group, _) => Head(s, group) && Within(scope, group)
    case Written(group, _) => Head(s, group) && Within(scope, group)
    case Ready(group, _) => Head(s, group) && Within(scope, group)
  }

  predicate Within(scope: Scope, group: nat) {
    scope == All || scope == One(group)
  }

  ghost predicate ClaimsApart(claims: map<nat, Scope>) {
    forall a, b :: a in claims && b in claims && a != b ==> !Overlap(claims[a], claims[b])
  }

  ghost predicate Tidy(s: State) {
    && ClaimsApart(s.claims)
    && (forall p :: Live(s, p) ==> Named(s, p))
    && (s.sealing.Some? ==> Head(s, s.sealing.value.0))
    && (forall id :: id in s.sealers && id in s.claims ==> Holding(s, s.claims[id], s.sealers[id]))
  }

  /** `sealing` is written and cleared only under a claim still held, and a queued name
      is not forgotten while a file may yet be written there. */
  ghost predicate Ordinary(s: State, step: Step) {
    match step
    case ClaimSeal(id, _) => id in s.claims
    case Finish(id) => id in s.claims
    case Drain(path) => forall id :: id in s.sealers ==> !Aims(s.sealers[id], path)
    case _ => true
  }

  lemma TakenApart(claims: map<nat, Scope>, id: nat, scope: Scope)
    requires ClaimsApart(claims) && id !in claims
    ensures ClaimsApart(Taken(claims, id, scope))
  {
  }

  lemma StepClaims(s: State, step: Step)
    requires Tidy(s) && Enabled(s, step)
    ensures var t := Apply(s, step);
      ClaimsApart(t.claims) && forall i :: i in t.claims && i != Mover(step) ==> i in s.claims && t.claims[i] == s.claims[i]
  {
    match step
    case Acquire(id, group) => TakenApart(s.claims, id, One(group));
    case AcquireAll(id) => TakenApart(s.claims, id, All);
    case _ =>
  }

  /** A step that touches neither `sealing` nor a group's name: nothing comes alive, and
      what was kept, and lives, still is. */
  ghost predicate Still(s: State, t: State) {
    && t.named == s.named && s.issued <= t.issued && t.sealing == s.sealing
    && (forall p :: Live(t, p) ==> Live(s, p) && (Kept(s, p) ==> Kept(t, p)))
  }

  predicate Seals(step: Step) {
    step.ClaimSeal? || step.Finish?
  }

  /** A sealer's step to a phase that aims where it did, or nowhere. */
  lemma LiveStill(s: State, t: State, id: nat)
    requires Paths(t.disk) <= Paths(s.disk)
    requires forall i :: i in t.sealers && i != id ==> i in s.sealers && t.sealers[i] == s.sealers[i]
    requires id in t.sealers ==> forall p :: Aims(t.sealers[id], p) ==> id in s.sealers && Aims(s.sealers[id], p)
    ensures forall p :: Live(t, p) ==> Live(s, p)
  {
    hide Aims;
    forall p | Live(t, p) ensures Live(s, p) {
      if p !in Paths(t.disk) {
        var i :| i in t.sealers && Aims(t.sealers[i], p);
        assert i in s.sealers && Aims(s.sealers[i], p);
      }
    }
  }

  lemma StepStill(s: State, step: Step)
    requires Enabled(s, step) && Ordinary(s, step) && !Seals(step)
    ensures Still(s, Apply(s, step))
  {
    var t, id := Apply(s, step), Mover(step);
    match step
    case Write(_) => WriteStill(s, id);
    case Drain(path) => DrainStill(s, path);
    case Register(_) =>
      LiveStill(s, t, id);
      assert forall f :: f in s.table ==> f in t.table;
      TableKept(s, t);
    case Supersede(file) =>
      LiveStill(s, t, id);
      SupersedeKept(s, file);
    case _ =>
      LiveStill(s, t, id);
  }

  lemma TableKept(s: State, t: State)
    requires s.table <= t.table && s.pending <= t.pending
    ensures forall p :: Kept(s, p) ==> Kept(t, p)
  {
    assert forall f :: f in s.table ==> f in t.table;
  }

  lemma SupersedeKept(s: State, file: File)
    ensures var t := s.(table := s.table - {file}, pending := s.pending + {file.path});
      forall p :: Kept(s, p) ==> Kept(t, p)
  {
    var t := s.(table := s.table - {file}, pending := s.pending + {file.path});
    forall p | Kept(s, p) ensures Kept(t, p) {
      if p in Paths(s.table) {
        var f :| f in s.table && f.path == p;
        if f != file { assert f in t.table; }
      }
    }
  }

  lemma WriteStill(s: State, id: nat)
    requires Enabled(s, Write(id))
    ensures Still(s, Apply(s, Write(id)))
  {
    var t, path := Apply(s, Write(id)), s.sealers[id].path;
    assert Aims(s.sealers[id], path);
    forall p | Live(t, p) ensures Live(s, p) {
      if p in Paths(t.disk) {
        var f :| f in t.disk && f.path == p;
        assert f in s.disk || p == path;
      } else {
        var i :| i in t.sealers && Aims(t.sealers[i], p);
        assert i in s.sealers && Aims(s.sealers[i], p);
      }
    }
  }

  lemma DrainStill(s: State, path: nat)
    requires Enabled(s, Drain(path)) && Ordinary(s, Drain(path))
    ensures Still(s, Apply(s, Drain(path)))
  {
    var t := Apply(s, Drain(path));
    assert path !in Paths(t.disk);
    LiveStill(s, t, 0);
    assert !Live(t, path);
  }

  lemma HoldingStill(s: State, t: State, scope: Scope, phase: Phase)
    requires Still(s, t) && Holding(s, scope, phase)
    ensures Holding(t, scope, phase)
  {
    hide Live, Kept;
  }

  lemma HeadOne(s: State, g: nat, h: nat)
    requires Head(s, g) && Head(s, h)
    ensures g == h
  {
  }

  /** Where one sealer holds the head's claim, any other that holds one has only just taken it. */
  lemma Alone(s: State, id: nat, other: nat, group: nat)
    requires Tidy(s) && id != other
    requires id in s.claims && Head(s, group) && Within(s.claims[id], group)
    requires other in s.sealers && other in s.claims
    ensures s.sealers[other].Claimed?
  {
    hide Live, Kept, Named, Head;
    assert Holding(s, s.claims[other], s.sealers[other]);
    assert !Overlap(s.claims[id], s.claims[other]);
    var phase := s.sealers[other];
    match phase
    case Claimed(_) =>
    case Looking => if s.claims[other].One? { HeadOne(s, group, s.claims[other].group); }
    case Confirmed(g) => HeadOne(s, group, g);
    case Unrecorded(g) => HeadOne(s, group, g);
    case Requeued(g) => HeadOne(s, group, g);
    case Found(g, _) => HeadOne(s, group, g);
    case Missing(g, _) => HeadOne(s, group, g);
    case Landed(g, _) => HeadOne(s, group, g);
    case Committed(g, _) => HeadOne(s, group, g);
    case Recorded(g, _) => HeadOne(s, group, g);
    case Writing(g, _) => HeadOne(s, group, g);
    case Written(g, _) => HeadOne(s, group, g);
    case Ready(g, _) => HeadOne(s, group, g);
  }

  lemma RegisterKept(s: State, id: nat)
    requires Enabled(s, Register(id))
    ensures Kept(Apply(s, Register(id)), s.sealers[id].path)
  {
    var t, path := Apply(s, Register(id)), s.sealers[id].path;
    if s.sealers[id].group >= s.covered {
      assert FileAt(s, path) in t.table && FileAt(s, path).path == path;
    }
  }

  /** The sealer that moved, if it still holds its claim. */
  lemma MoverHolds(s: State, step: Step)
    requires Tidy(s) && Enabled(s, step) && Ordinary(s, step) && !Seals(step)
    ensures var t, id := Apply(s, step), Mover(step);
      id in t.sealers && id in t.claims ==> Holding(t, t.claims[id], t.sealers[id])
  {
    hide Live, Kept, Named, ClaimsApart;
    var t, id := Apply(s, step), Mover(step);
    StepStill(s, step);
    if id in s.sealers && id in s.claims { assert Holding(s, s.claims[id], s.sealers[id]); }
    match step
    case Register(_) => RegisterKept(s, id);
    case Look(_) =>
      if id in s.claims && s.sealing.Some? && s.sealers[id].Confirmed? {
        HeadOne(s, s.sealers[id].group, s.sealing.value.0);
      }
    case Resolve(_) => KeptInTable(s, s.sealers[id].path);
    case Requeue(_) => KeptQueued(t, s.sealers[id].path);
    case Acquire(_, group) => assert t.claims[id] == One(group);
    case AcquireAll(_) => assert t.claims[id] == All;
    case _ =>
  }

  lemma KeptInTable(s: State, path: nat)
    ensures path in Paths(s.table) ==> Kept(s, path)
  {
  }

  lemma KeptQueued(s: State, path: nat)
    ensures path in s.pending ==> Kept(s, path)
  {
  }

  /** A step that leaves `sealing` alone keeps every file named. */
  lemma QuietStep(s: State, step: Step)
    requires Tidy(s) && Enabled(s, step) && Ordinary(s, step) && !Seals(step)
    ensures Tidy(Apply(s, step))
  {
    var t, id := Apply(s, step), Mover(step);
    StepClaims(s, step);
    StepStill(s, step);
    StepMoves(s, step);
    MoverHolds(s, step);
    hide Live, Kept, ClaimsApart, Holding, Enabled, Apply, Ordinary;
    forall i | i in t.sealers && i in t.claims ensures Holding(t, t.claims[i], t.sealers[i]) {
      if i != id { HoldingStill(s, t, s.claims[i], s.sealers[i]); }
    }
  }

  lemma OthersHold(s: State, t: State, id: nat, group: nat)
    requires Tidy(s) && id in s.claims && Head(s, group) && Within(s.claims[id], group)
    requires t.claims == s.claims && t.sealers.Keys <= s.sealers.Keys
    requires forall i :: i in t.sealers && i != id ==> t.sealers[i] == s.sealers[i]
    ensures forall i :: i in t.sealers && i in t.claims && i != id ==> Holding(t, t.claims[i], t.sealers[i])
  {
    hide Live, Kept, Named, Head, ClaimsApart;
    forall i | i in t.sealers && i in t.claims && i != id ensures Holding(t, t.claims[i], t.sealers[i]) {
      Alone(s, id, i, group);
      assert Holding(s, s.claims[i], s.sealers[i]);
    }
  }

  lemma ClaimSealTidy(s: State, id: nat, path: nat)
    requires Inv(s) && Tidy(s) && Enabled(s, ClaimSeal(id, path)) && id in s.claims
    ensures Tidy(Apply(s, ClaimSeal(id, path)))
  {
    hide Inv, ClaimsApart;
    var t, group := Apply(s, ClaimSeal(id, path)), s.sealers[id].group;
    assert Holding(s, s.claims[id], s.sealers[id]);
    OthersHold(s, t, id, group);
    forall p | Live(t, p) ensures Named(t, p) {
      if p != path {
        assert Live(s, p) by {
          if p !in Paths(s.disk) {
            var i :| i in t.sealers && Aims(t.sealers[i], p);
            assert i in s.sealers && Aims(s.sealers[i], p);
          }
        }
      }
    }
  }

  lemma FinishTidy(s: State, id: nat)
    requires Tidy(s) && Enabled(s, Finish(id)) && id in s.claims
    ensures Tidy(Apply(s, Finish(id)))
  {
    hide ClaimsApart;
    var t, group := Apply(s, Finish(id)), s.sealers[id].group;
    assert Holding(s, s.claims[id], s.sealers[id]);
    OthersHold(s, t, id, group);
    LiveStill(s, t, id);
  }

  // ----- every file named, over whole runs -----

  ghost predicate OrdinaryRun(s: State, steps: seq<Step>)
    decreases |steps|
  {
    steps == [] || (Enabled(s, steps[0]) && Ordinary(s, steps[0]) && OrdinaryRun(Apply(s, steps[0]), steps[1..]))
  }

  lemma {:induction false} OrdinaryTidy(s: State, steps: seq<Step>)
    requires Inv(s) && Tidy(s) && OrdinaryRun(s, steps)
    ensures Legal(s, steps) && Inv(After(s, steps)) && Tidy(After(s, steps))
    decreases |steps|
  {
    hide Inv, Tidy, Enabled, Apply;
    if steps != [] {
      StepKeeps(s, steps[0]);
      TidyStep(s, steps[0]);
      OrdinaryTidy(Apply(s, steps[0]), steps[1..]);
    }
  }

  lemma TidyStep(s: State, step: Step)
    requires Inv(s) && Tidy(s) && Enabled(s, step) && Ordinary(s, step)
    ensures Tidy(Apply(s, step))
  {
    hide Inv, Tidy, Enabled, Apply;
    match step
    case ClaimSeal(id, path) => ClaimSealTidy(s, id, path);
    case Finish(id) => FinishTidy(s, id);
    case _ => QuietStep(s, step);
  }

  /** Every seal file on disk is named by the table, `sealing` or `pending_delete`, after
      any crash, while `sealing` changes only under a claim still held. */
  lemma FilesNamed(steps: seq<Step>)
    requires OrdinaryRun(START, steps)
    ensures Legal(START, steps)
    ensures var s := After(START, steps);
      forall f :: f in s.disk ==> Named(s, f.path)
  {
    hide Legal, After, OrdinaryRun;
    OrdinaryTidy(START, steps);
    var s := After(START, steps);
    forall f | f in s.disk ensures Named(s, f.path) {
      assert Live(s, f.path);
    }
  }

  // ----- exactly when every file stays named -----

  ghost predicate AllNamed(s: State) {
    forall f :: f in s.disk ==> Named(s, f.path)
  }

  /** Recording a seal, claim held or not, leaves every file named exactly when the row it
      replaces was not the only name of a file on disk. */
  lemma RecordNames(s: State, id: nat, path: nat)
    requires Inv(s) && AllNamed(s) && Enabled(s, ClaimSeal(id, path))
    ensures AllNamed(Apply(s, ClaimSeal(id, path))) <==> RecordKeeps(s)
  {
    hide Once, QueueOk, PhaseOk;
    var t := Apply(s, ClaimSeal(id, path));
    if s.sealing.Some? && s.sealing.value.1 in Paths(s.disk) && AllNamed(t) {
      var f :| f in s.disk && f.path == s.sealing.value.1;
      assert f in t.disk && Named(t, f.path) && f.path in s.made;
    }
  }

  /** The name `sealing` would lose is kept elsewhere, or is of no file on disk. */
  ghost predicate RecordKeeps(s: State) {
    s.sealing.Some? && s.sealing.value.1 in Paths(s.disk) ==> Kept(s, s.sealing.value.1)
  }

  /** When a step leaves every file named: a record, as above; a write, when the path it
      writes still has its name; any other step, always. */
  ghost predicate NamesAll(s: State, step: Step)
    requires Enabled(s, step)
  {
    match step
    case ClaimSeal(_, _) => RecordKeeps(s)
    case Write(id) => Named(s, s.sealers[id].path)
    case _ => true
  }

  /** A sealer that recorded `path` itself, and has not finished with it. */
  predicate Owns(phase: Phase, path: nat) {
    (phase.Recorded? || phase.Writing? || phase.Written? || phase.Ready? || phase.Committed?) && phase.path == path
  }

  /** A path is one sealer's, who writes it once; and what has landed has its name kept. */
  ghost predicate Owned(s: State) {
    && (forall i, j, p :: i in s.sealers && j in s.sealers && Owns(s.sealers[i], p) && Owns(s.sealers[j], p) ==> i == j)
    && (forall i, p :: i in s.sealers && Aims(s.sealers[i], p) ==> p !in Paths(s.disk) && p !in Paths(s.history))
    && (forall i :: i in s.sealers && s.sealers[i].Landed? ==> s.sealers[i].path in Paths(s.history))
    && (forall i :: i in s.sealers && Ended(s.sealers[i]) && s.sealers[i].path in Paths(s.disk) ==>
          Kept(s, s.sealers[i].path))
  }

  predicate Ended(phase: Phase) {
    phase.Committed? || phase.Landed?
  }

  ghost predicate OnePath(s: State) {
    forall i, j, p :: i in s.sealers && j in s.sealers && Owns(s.sealers[i], p) && Owns(s.sealers[j], p) ==> i == j
  }

  ghost predicate Unwritten(s: State) {
    forall i, p :: i in s.sealers && Aims(s.sealers[i], p) ==> p !in Paths(s.disk) && p !in Paths(s.history)
  }

  /** Every name a sealer, the disk or the table's history has was given out. */
  lemma PathsMade(s: State)
    requires Inv(s)
    ensures forall p :: p in Paths(s.disk) || p in Paths(s.history) ==> p in s.made
    ensures forall i, p :: i in s.sealers && Owns(s.sealers[i], p) ==> p in s.made
  {
    hide Once, QueueOk;
    forall i, p | i in s.sealers && Owns(s.sealers[i], p) ensures p in s.made {
      assert PhaseOk(s, s.sealers[i]);
    }
  }

  lemma StepOnePath(s: State, step: Step)
    requires Inv(s) && OnePath(s) && Enabled(s, step)
    ensures OnePath(Apply(s, step))
  {
    PathsMade(s);
    hide Inv, Apply, Enabled;
    var t, id := Apply(s, step), Mover(step);
    StepMoves(s, step);
    MoverPath(s, step);
    EnabledPhases(s, step);
  }

  /** The sealer that moved owns what it did, nothing, or a path just given out. */
  lemma MoverPath(s: State, step: Step)
    requires Enabled(s, step)
    ensures var t, id := Apply(s, step), Mover(step);
      forall p :: id in t.sealers && Owns(t.sealers[id], p) ==>
        || (id in s.sealers && Owns(s.sealers[id], p))
        || (step.ClaimSeal? && step.path == p)
  {
  }

  /** And it aims where it did, nowhere, or at that path. */
  lemma MoverAims(s: State, step: Step)
    requires Enabled(s, step)
    ensures var t, id := Apply(s, step), Mover(step);
      forall p :: id in t.sealers && Aims(t.sealers[id], p) ==>
        || (id in s.sealers && Aims(s.sealers[id], p) && !step.Write?)
        || (step.ClaimSeal? && step.path == p)
  {
  }

  /** A file comes to the disk only where its sealer aimed, and to the history only where
      its sealer stood ready. */
  lemma PathsAfter(s: State, step: Step, p: nat)
    requires Enabled(s, step)
    ensures var t := Apply(s, step);
      && (p in Paths(t.disk) ==> p in Paths(s.disk) || (step.Write? && Aims(s.sealers[step.id], p)))
      && (p in Paths(t.history) ==>
            p in Paths(s.history) || (step.Register? && s.sealers[step.id].Ready? && s.sealers[step.id].path == p))
      && (p in Paths(s.history) ==> p in Paths(t.history))
  {
    var t := Apply(s, step);
    assert s.history <= t.history;
    if p in Paths(t.disk) {
      var f :| f in t.disk && f.path == p;
      assert f in s.disk || step.Write?;
    }
    if p in Paths(t.history) {
      var f :| f in t.history && f.path == p;
      assert f in s.history || step.Register?;
    }
    if p in Paths(s.history) {
      var f :| f in s.history && f.path == p;
      assert f in t.history;
    }
  }

  lemma StepUnwritten(s: State, step: Step)
    requires Inv(s) && OnePath(s) && Unwritten(s) && Enabled(s, step)
    ensures Unwritten(Apply(s, step))
  {
    PathsMade(s);
    hide Inv, Apply, Enabled;
    var t, id := Apply(s, step), Mover(step);
    StepMoves(s, step);
    MoverAims(s, step);
    forall i, p | i in t.sealers && Aims(t.sealers[i], p) ensures p !in Paths(t.disk) && p !in Paths(t.history) {
      PathsAfter(s, step, p);
      EnabledPhases(s, step);
      if i == id && !(id in s.sealers && Aims(s.sealers[id], p)) {
        assert step.ClaimSeal? && p !in s.made;
      } else {
        assert i in s.sealers && Aims(s.sealers[i], p) && Owns(s.sealers[i], p);
      }
    }
  }

  lemma EnabledPhases(s: State, step: Step)
    requires Enabled(s, step)
    ensures step.Write? ==> step.id in s.sealers && s.sealers[step.id].Writing?
    ensures step.Register? ==> step.id in s.sealers && s.sealers[step.id].Ready?
    ensures step.ClaimSeal? ==> step.path !in s.made
    ensures step.Finish? ==> step.id in s.sealers && Ended(s.sealers[step.id])
  {
  }

  /** A sealer that has ended: it ended before, or found its file in the table, or has
      just committed. */
  lemma EndedBefore(s: State, step: Step, i: nat)
    requires Inv(s) && Enabled(s, step) && i in Apply(s, step).sealers && Ended(Apply(s, step).sealers[i])
    ensures var t := Apply(s, step);
      || (i in s.sealers && s.sealers[i] == t.sealers[i])
      || (Kept(t, t.sealers[i].path) && (t.sealers[i].Landed? ==> t.sealers[i].path in Paths(t.history)))
  {
    hide Once, QueueOk, PhaseOk;
    StepMoves(s, step);
    if i == Mover(step) {
      match step
      case Register(_) => RegisterKept(s, i);
      case Resolve(_) =>
        var p := s.sealers[i].path;
        if p in Paths(s.table) {
          var f :| f in s.table && f.path == p;
          assert f in s.history;
        }
      case _ =>
    }
  }

  /** What is kept, and stays on disk, stays kept. */
  lemma KeptStays(s: State, step: Step, p: nat)
    requires Enabled(s, step) && Kept(s, p)
    ensures Kept(Apply(s, step), p) || (step.Drain? && step.path == p)
  {
    match step
    case Supersede(file) => SupersedeKept(s, file);
    case Register(id) => TableKept(s, Apply(s, step));
    case Drain(path) =>
    case _ =>
  }

  lemma StepOwned(s: State, step: Step)
    requires Inv(s) && Owned(s) && Enabled(s, step)
    ensures Owned(Apply(s, step))
  {
    StepOnePath(s, step);
    StepUnwritten(s, step);
    hide Inv, Apply, Enabled, Kept;
    var t := Apply(s, step);
    forall i | i in t.sealers && Ended(t.sealers[i])
      ensures t.sealers[i].Landed? ==> t.sealers[i].path in Paths(t.history)
      ensures t.sealers[i].path in Paths(t.disk) ==> Kept(t, t.sealers[i].path)
    {
      EndedBefore(s, step, i);
      if i in s.sealers && s.sealers[i] == t.sealers[i] {
        EndedStays(s, step, i);
      }
    }
  }

  lemma EndedStays(s: State, step: Step, i: nat)
    requires Inv(s) && Owned(s) && Enabled(s, step)
    requires i in s.sealers && Ended(s.sealers[i])
    ensures var t, p := Apply(s, step), s.sealers[i].path;
      && (s.sealers[i].Landed? ==> p in Paths(t.history))
      && (p in Paths(t.disk) ==> Kept(t, p))
  {
    hide Inv, Apply, Enabled, Kept;
    var t, p := Apply(s, step), s.sealers[i].path;
    PathsAfter(s, step, p);
    EnabledPhases(s, step);
    assert s.sealers[i].Committed? ==> Owns(s.sealers[i], p);
    assert forall j :: j in s.sealers && Aims(s.sealers[j], p) ==> Owns(s.sealers[j], p);
    DrainedGone(s, step);
    if p in Paths(t.disk) && p in Paths(s.disk) { KeptStays(s, step, p); }
  }

  lemma DrainedGone(s: State, step: Step)
    requires Enabled(s, step)
    ensures step.Drain? ==> step.path !in Paths(Apply(s, step).disk)
  {
  }

  /** The whole step, claim held or not: it leaves every file named just when it meets its
      condition. */
  lemma StepNames(s: State, step: Step)
    requires Inv(s) && Owned(s) && AllNamed(s) && Enabled(s, step)
    ensures AllNamed(Apply(s, step)) <==> NamesAll(s, step)
  {
    hide Inv, Owned, Apply, Enabled;
    match step
    case ClaimSeal(id, path) => RecordNames(s, id, path);
    case Write(id) => WriteNames(s, id);
    case Finish(id) => FinishNames(s, id);
    case _ => OthersName(s, step);
  }

  lemma WriteNames(s: State, id: nat)
    requires AllNamed(s) && Enabled(s, Write(id))
    ensures AllNamed(Apply(s, Write(id))) <==> Named(s, s.sealers[id].path)
  {
    var t, path := Apply(s, Write(id)), s.sealers[id].path;
    var file := File(path, s.sealers[id].group, s.sealers[id].group in s.buffered);
    assert file in t.disk && file.path == path;
    forall p ensures Named(t, p) <==> Named(s, p) { }
  }

  lemma FinishNames(s: State, id: nat)
    requires Owned(s) && AllNamed(s) && Enabled(s, Finish(id))
    ensures AllNamed(Apply(s, Finish(id)))
  {
    var t := Apply(s, Finish(id));
    forall f | f in t.disk ensures Named(t, f.path) {
      assert Named(s, f.path);
      assert f.path in Paths(s.disk);
    }
  }

  lemma OthersName(s: State, step: Step)
    requires AllNamed(s) && Enabled(s, step) && !Seals(step) && !step.Write?
    ensures AllNamed(Apply(s, step))
  {
    hide Enabled, Apply, Kept;
    var t := Apply(s, step);
    OthersKeepRecord(s, step);
    forall f | f in t.disk ensures Named(t, f.path) {
      assert f.path in Paths(t.disk) && Named(s, f.path);
      DrainedGone(s, step);
      if Kept(s, f.path) { KeptStays(s, step, f.path); }
    }
  }

  lemma OthersKeepRecord(s: State, step: Step)
    requires Enabled(s, step) && !Seals(step) && !step.Write?
    ensures Apply(s, step).sealing == s.sealing && Apply(s, step).disk <= s.disk
  {
  }

  // ----- and over whole runs -----

  /** Every file is named at each point of the run. */
  ghost predicate AllNamedAlong(s: State, steps: seq<Step>)
    requires Legal(s, steps)
    decreases |steps|
  {
    AllNamed(s) && (steps == [] || AllNamedAlong(Apply(s, steps[0]), steps[1..]))
  }

  /** Each step of the run meets its condition. */
  ghost predicate NamesAllAlong(s: State, steps: seq<Step>)
    requires Legal(s, steps)
    decreases |steps|
  {
    steps == [] || (NamesAll(s, steps[0]) && NamesAllAlong(Apply(s, steps[0]), steps[1..]))
  }

  lemma {:induction false} RunNames(s: State, steps: seq<Step>)
    requires Inv(s) && Owned(s) && AllNamed(s) && Legal(s, steps)
    ensures AllNamedAlong(s, steps) <==> NamesAllAlong(s, steps)
    decreases |steps|
  {
    hide Inv, Owned, AllNamed, NamesAll, Enabled, Apply;
    if steps != [] {
      var t := Apply(s, steps[0]);
      StepNames(s, steps[0]);
      if AllNamed(t) {
        StepKeeps(s, steps[0]);
        StepOwned(s, steps[0]);
        RunNames(t, steps[1..]);
      }
    }
  }

  /** Over every run of sealers that stall, lapse, stop and take over: every file on disk is
      named at each point of it just when each record and each write met its condition. */
  lemma FilesNamedIff(steps: seq<Step>)
    requires Legal(START, steps)
    ensures AllNamedAlong(START, steps) <==> NamesAllAlong(START, steps)
  {
    hide Legal, AllNamedAlong, NamesAllAlong;
    RunNames(START, steps);
  }

  // ----- runs that leave a file with no name -----

  lemma {:induction false} OneMore(s: State, steps: seq<Step>, step: Step)
    requires Legal(s, steps) && Enabled(After(s, steps), step)
    ensures Legal(s, steps + [step]) && After(s, steps + [step]) == Apply(After(s, steps), step)
    decreases |steps|
  {
    hide Enabled, Apply;
    if steps == [] {
      assert [] + [step] == [step];
      assert After(Apply(s, step), []) == Apply(s, step);
    } else {
      assert (steps + [step])[1..] == steps[1..] + [step];
      OneMore(Apply(s, steps[0]), steps[1..], step);
    }
  }

  /** Every record, and every finish, under a claim still held. */
  ghost predicate Held(s: State, steps: seq<Step>)
    requires Legal(s, steps)
    decreases |steps|
  {
    steps == [] || ((Seals(steps[0]) ==> Mover(steps[0]) in s.claims) && Held(Apply(s, steps[0]), steps[1..]))
  }

  lemma {:induction false} HeldMore(s: State, steps: seq<Step>, step: Step)
    requires Legal(s, steps + [step]) && Legal(s, steps) && Held(s, steps)
    requires Seals(step) ==> Mover(step) in After(s, steps).claims
    ensures Held(s, steps + [step])
    decreases |steps|
  {
    hide Enabled, Apply;
    if steps == [] {
      assert [] + [step] == [step] && [step][1..] == [];
    } else {
      assert (steps + [step])[1..] == steps[1..] + [step];
      HeldMore(Apply(s, steps[0]), steps[1..], step);
    }
  }

  /** Reached by some run; if `held`, by one that records only under claims still held. */
  ghost predicate Reached(s: State, held: bool) {
    exists steps :: Legal(START, steps) && After(START, steps) == s && (held ==> Held(START, steps))
  }

  lemma ReachedOn(s: State, step: Step, held: bool)
    requires Reached(s, held) && Enabled(s, step)
    requires held && Seals(step) ==> Mover(step) in s.claims
    ensures Reached(Apply(s, step), held)
  {
    hide Enabled, Apply, Legal, After;
    var steps :| Legal(START, steps) && After(START, steps) == s && (held ==> Held(START, steps));
    OneMore(START, steps, step);
    if held { HeldMore(START, steps, step); }
  }

  lemma Started(held: bool)
    ensures Reached(START, held)
  {
    assert Legal(START, []) && After(START, []) == START && Held(START, []);
  }

  /** A sealer `id` that takes the first group and finds no seal of it recorded. */
  lemma Opens(s: State, id: nat, held: bool)
    requires Reached(s, held) && id !in s.claims && id !in s.sealers && s.sealing.None? && Head(s, 0)
    ensures Reached(To(s.(claims := Taken(s.claims, id, One(0))), id, Unrecorded(0)), held)
  {
    var t := Apply(s, Acquire(id, 0));
    ReachedOn(s, Acquire(id, 0), held);
    assert Enabled(t, Confirm(id));
    var u := Apply(t, Confirm(id));
    ReachedOn(t, Confirm(id), held);
    var v := Apply(u, Look(id));
    ReachedOn(u, Look(id), held);
    assert v.sealers == To(s.(claims := Taken(s.claims, id, One(0))), id, Unrecorded(0)).sealers;
  }

  /** A sealer that recorded its seal, wrote the file, and has not yet committed. */
  lemma Writes(s: State, id: nat, path: nat, held: bool)
    requires Reached(s, held) && id in s.claims && id in s.sealers && s.sealers[id] == Unrecorded(0) && path !in s.made
    ensures Reached(To(s.(made := s.made[path := 0], sealing := Some((0, path)),
                          disk := s.disk + {File(path, 0, 0 in s.buffered)}), id, Written(0, path)), held)
  {
    var t := Apply(s, ClaimSeal(id, path));
    ReachedOn(s, ClaimSeal(id, path), held);
    var u := Apply(t, Renew(id));
    ReachedOn(t, Renew(id), held);
    var v := Apply(u, Write(id));
    ReachedOn(u, Write(id), held);
    assert v.sealers == To(s, id, Written(0, path)).sealers;
  }

  /** A sealer that stalled before recording its seal wipes the record of the one that
      took over, whose file then has no name anywhere once it has stopped. */
  lemma StaleRecordUnnames()
    ensures exists s :: Reached(s, false) && exists f :: f in s.disk && !Named(s, f.path)
  {
    var held := false;
    var d := TakenOver();
    var e := Apply(d, Stop(2));
    ReachedOn(d, Stop(2), held);
    assert e.sealers[1] == Unrecorded(0) && 10 !in e.made;
    var f := Apply(e, ClaimSeal(1, 10));
    ReachedOn(e, ClaimSeal(1, 10), held);
    var file :| file in d.disk && file.path == 20;
    assert file in f.disk && !Named(f, file.path);
  }

  /** Sealer 1 has yet to record its seal; sealer 2 has taken over, recorded and written. */
  lemma TakenOver() returns (s: State)
    ensures Reached(s, false) && 1 in s.sealers && s.sealers[1] == Unrecorded(0) && 2 in s.sealers
    ensures s.sealing == Some((0, 20)) && 10 !in s.made && s.table == {} && s.pending == {}
    ensures exists f :: f in s.disk && f.path == 20
  {
    var held := false;
    Started(held);
    var a := Apply(START, Cut);
    ReachedOn(START, Cut, held);
    Opens(a, 1, held);
    var b := To(a.(claims := Taken(a.claims, 1, One(0))), 1, Unrecorded(0));
    Opens(b, 2, held);
    var c := To(b.(claims := Taken(b.claims, 2, One(0))), 2, Unrecorded(0));
    Writes(c, 2, 20, held);
    var file := File(20, 0, 0 in c.buffered);
    s := To(c.(made := c.made[20 := 0], sealing := Some((0, 20)), disk := c.disk + {file}), 2, Written(0, 20));
    assert file in s.disk;
  }

  /** A recovery looks at the seal recorded for the first group, and queues its name. */
  lemma Recovers(s: State, id: nat, path: nat, held: bool)
    requires Reached(s, held) && id !in s.claims && id !in s.sealers && s.sealing == Some((0, path)) && Head(s, 0)
    requires path !in Paths(s.table)
    ensures Reached(To(s.(claims := Taken(s.claims, id, All), pending := s.pending + {path}), id, Requeued(0)), held)
  {
    hide Reached;
    ReachedOn(s, AcquireAll(id), held);
    var t := Apply(s, AcquireAll(id));
    ReachedOn(t, Look(id), held);
    var u := Apply(t, Look(id));
    assert u.sealers == s.sealers[id := Found(0, path)];
    Requeues(u, id, path, held);
    assert u.sealers[id := Requeued(0)] == s.sealers[id := Requeued(0)];
  }

  lemma Requeues(u: State, id: nat, path: nat, held: bool)
    requires Reached(u, held) && id in u.sealers && u.sealers[id] == Found(0, path) && path !in Paths(u.table)
    ensures Reached(To(u.(pending := u.pending + {path}), id, Requeued(0)), held)
  {
    hide Reached;
    ReachedOn(u, Resolve(id), held);
    var v := Apply(u, Resolve(id));
    ReachedOn(v, Requeue(id), held);
    assert Apply(v, Requeue(id)).sealers == To(u, id, Requeued(0)).sealers;
  }

  /** A name queued, and referenced by nothing, that a sealer's commit refers to again. */
  ghost predicate ComesBack(s: State, path: nat, id: nat) {
    && path in s.pending && path !in Paths(s.table)
    && Enabled(s, Register(id)) && path in Paths(Apply(s, Register(id)).table)
  }

  /** A queued name becomes referenced by one step only: a sealer that has written its file
      there registers it, nothing covering its group yet. */
  lemma QueuedReferencedIff(s: State, step: Step, path: nat)
    requires Enabled(s, step) && path in s.pending && path !in Paths(s.table)
    ensures path in Paths(Apply(s, step).table)
       <==> step.Register? && s.sealers[step.id].path == path && s.covered <= s.sealers[step.id].group
  {
    if step.Register? {
      var t, p := Apply(s, step), s.sealers[step.id].path;
      var file := FileAt(s, p);
      if s.covered <= s.sealers[step.id].group { assert file in t.table && file.path == p; }
    }
  }

  /** A name queued for deletion can become referenced after it was queued: a stalled
      owner commits the file a recovery gave up. The drain's own look at the table is
      what keeps the file. */
  lemma QueuedThenReferenced()
    ensures exists s, p, id :: Reached(s, false) && ComesBack(s, p, id)
  {
    hide Reached;
    var held := false;
    var d := Stands();
    Recovers(d, 2, 10, held);
    var e := To(d.(claims := Taken(d.claims, 2, All), pending := d.pending + {10}), 2, Requeued(0));
    assert e.sealers[1] == Ready(0, 10) && Enabled(e, Register(1));
    assert FileAt(e, 10) in Apply(e, Register(1)).table;
    assert ComesBack(e, 10, 1);
  }

  /** Sealer 1 has written its file, renewed, and is about to commit. */
  lemma Stands() returns (s: State)
    ensures Reached(s, false) && 1 in s.sealers && s.sealers[1] == Ready(0, 10) && 2 !in s.sealers && 2 !in s.claims
    ensures s.sealing == Some((0, 10)) && Head(s, 0) && s.table == {} && s.covered == 0
    ensures exists f <- s.disk :: f.path == 10
  {
    var held := false;
    Started(held);
    var a := Apply(START, Cut);
    ReachedOn(START, Cut, held);
    Opens(a, 1, held);
    var b := To(a.(claims := Taken(a.claims, 1, One(0))), 1, Unrecorded(0));
    Writes(b, 1, 10, held);
    var file := File(10, 0, 0 in b.buffered);
    var c := To(b.(made := b.made[10 := 0], sealing := Some((0, 10)), disk := b.disk + {file}), 1, Written(0, 10));
    ReachedOn(c, RenewWritten(1), held);
    s := Apply(c, RenewWritten(1));
    assert file in s.disk;
  }

  /** A sealer records its seal and renews; a recovery takes over, queues the name, records
      another and the queue is drained, the name being of no file yet; then the first one
      writes. Every record was made under a claim still held, and kept every name. */
  lemma DrainedThenWritten()
    ensures exists s :: Reached(s, true) && exists f :: f in s.disk && !Named(s, f.path)
  {
    var a := Recording();
    var b := Replacing(a);
    var held := true;
    var c := Apply(b, Drain(10));
    ReachedOn(b, Drain(10), held);
    var d := Apply(c, Write(1));
    ReachedOn(c, Write(1), held);
    var file := File(10, 0, 0 in c.buffered);
    assert file in d.disk && !Named(d, file.path);
  }

  /** Sealer 1 holds the first group and is about to write at path 10. */
  lemma Recording() returns (s: State)
    ensures Reached(s, true) && s.sealing == Some((0, 10)) && Head(s, 0) && 2 !in s.claims && 20 !in s.made
    ensures s.sealers == map[1 := Writing(0, 10)] && s.table == {} && s.disk == {} && s.pending == {}
  {
    var held := true;
    Started(held);
    var a := Apply(START, Cut);
    ReachedOn(START, Cut, held);
    Opens(a, 1, held);
    var b := To(a.(claims := Taken(a.claims, 1, One(0))), 1, Unrecorded(0));
    var c := Apply(b, ClaimSeal(1, 10));
    ReachedOn(b, ClaimSeal(1, 10), held);
    ReachedOn(c, Renew(1), held);
    s := Apply(c, Renew(1));
    assert s.sealers == map[1 := Writing(0, 10)];
  }

  /** Recovery 2 gives that path up and records another. */
  lemma Replacing(a: State) returns (s: State)
    requires Reached(a, true) && a.sealing == Some((0, 10)) && Head(a, 0) && 2 !in a.claims && 20 !in a.made
    requires a.sealers == map[1 := Writing(0, 10)] && a.table == {} && a.disk == {} && a.pending == {}
    ensures Reached(s, true) && s.sealing == Some((0, 20)) && s.table == {} && s.disk == {} && s.pending == {10}
    ensures 1 in s.sealers && s.sealers[1] == Writing(0, 10)
  {
    var held := true;
    Recovers(a, 2, 10, held);
    var b := To(a.(claims := Taken(a.claims, 2, All), pending := a.pending + {10}), 2, Requeued(0));
    ReachedOn(b, ClaimSeal(2, 20), held);
    s := Apply(b, ClaimSeal(2, 20));
  }
}
