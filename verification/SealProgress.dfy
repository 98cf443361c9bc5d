/** What a seal may come to: a sealer nobody interrupts files its group and names it, one
    that takes over a seal abandoned half way does too, and a file done with may go. */
module SealProgress {
  import opened Options
  import opened SealTakeover

  lemma ReachedOk(s: State, held: bool)
    requires Reached(s, held)
    ensures Inv(s)
  {
    hide Inv, Legal, After, Held;
    var steps :| Legal(START, steps) && After(START, steps) == s;
    StartsOk();
    RunKeeps(START, steps);
  }

  lemma StartsOk()
    ensures Inv(START)
  {
  }

  /** The claim taken, the queue read again, and no seal of the group found recorded. */
  lemma Begins(s: State, id: nat, group: nat, held: bool) returns (t: State)
    requires Reached(s, held) && id !in s.claims && id !in s.sealers && s.sealing.None? && Head(s, group)
    ensures Reached(t, held) && id in t.claims
    ensures t == s.(claims := t.claims, sealers := s.sealers[id := Unrecorded(group)])
  {
    hide Reached;
    var a := Apply(s, Acquire(id, group));
    ReachedOn(s, Acquire(id, group), held);
    assert Enabled(a, Confirm(id));
    var b := Apply(a, Confirm(id));
    ReachedOn(a, Confirm(id), held);
    t := Apply(b, Look(id));
    ReachedOn(b, Look(id), held);
    assert t.sealers == s.sealers[id := Unrecorded(group)];
  }

  /** A seal recorded by a recovery given up on: its name queued. */
  lemma TakesOver(s: State, id: nat, group: nat, path: nat, held: bool) returns (t: State)
    requires Reached(s, held) && id !in s.claims && id !in s.sealers
    requires s.sealing == Some((group, path)) && path !in Paths(s.table)
    ensures Reached(t, held) && id in t.claims
    ensures t == s.(claims := t.claims, sealers := s.sealers[id := Requeued(group)], pending := s.pending + {path})
  {
    hide Reached;
    var a := Apply(s, AcquireAll(id));
    ReachedOn(s, AcquireAll(id), held);
    var b := Apply(a, Look(id));
    ReachedOn(a, Look(id), held);
    assert b.sealers == s.sealers[id := Found(group, path)];
    t := GivesUp(b, id, group, path, held);
    assert t.sealers == s.sealers[id := Requeued(group)];
  }

  lemma GivesUp(s: State, id: nat, group: nat, path: nat, held: bool) returns (t: State)
    requires Reached(s, held) && id in s.sealers && s.sealers[id] == Found(group, path) && path !in Paths(s.table)
    ensures Reached(t, held)
    ensures t == s.(sealers := s.sealers[id := Requeued(group)], pending := s.pending + {path})
  {
    hide Reached;
    var a := Apply(s, Resolve(id));
    ReachedOn(s, Resolve(id), held);
    assert a.sealers == s.sealers[id := Missing(group, path)];
    t := Apply(a, Requeue(id));
    ReachedOn(a, Requeue(id), held);
    assert t.sealers == s.sealers[id := Requeued(group)];
  }

  /** The seal recorded, and renewed if it is a first attempt. */
  lemma Records(s: State, id: nat, group: nat, path: nat, held: bool) returns (t: State)
    requires Reached(s, held) && id in s.claims && id in s.sealers && path !in s.made
    requires s.sealers[id] == Unrecorded(group) || s.sealers[id] == Requeued(group)
    ensures Reached(t, held)
    ensures t == s.(made := s.made[path := group], sealing := Some((group, path)),
                    sealers := s.sealers[id := Writing(group, path)])
  {
    hide Reached;
    t := Apply(s, ClaimSeal(id, path));
    ReachedOn(s, ClaimSeal(id, path), held);
    if s.sealers[id].Unrecorded? {
      var a := t;
      ReachedOn(a, Renew(id), held);
      t := Apply(a, Renew(id));
    }
    assert t.sealers == s.sealers[id := Writing(group, path)];
  }

  /** The file written, the claim renewed, and the file registered. */
  lemma Registers(s: State, id: nat, group: nat, path: nat, held: bool) returns (t: State)
    requires Reached(s, held) && id in s.claims && id in s.sealers && s.sealers[id] == Writing(group, path)
    requires s.covered <= group && forall f :: f in s.disk ==> f.path != path
    ensures Reached(t, held)
    ensures var file := File(path, group, group in s.buffered);
      t == s.(disk := s.disk + {file}, table := s.table + {file}, history := s.history + {file}, covered := group + 1,
              sealers := s.sealers[id := Committed(group, path)])
  {
    hide Reached;
    var file := File(path, group, group in s.buffered);
    var a := Apply(s, Write(id));
    ReachedOn(s, Write(id), held);
    var b := Apply(a, RenewWritten(id));
    ReachedOn(a, RenewWritten(id), held);
    assert file in b.disk && forall f :: f in b.disk && f.path == path ==> f == file;
    assert Enabled(b, Register(id));
    t := Apply(b, Register(id));
    ReachedOn(b, Register(id), held);
    assert t.sealers == s.sealers[id := Committed(group, path)];
  }

  /** The group named, and the claim let go. */
  lemma Finishes(s: State, id: nat, group: nat, path: nat, held: bool) returns (t: State)
    requires Reached(s, held) && id in s.claims && id in s.sealers && s.sealers[id] == Committed(group, path)
    requires s.sealing == Some((group, path))
    ensures Reached(t, held)
    ensures t == s.(sealing := None, named := s.named + {group}, sealers := s.sealers - {id}, claims := s.claims - {id})
  {
    hide Reached;
    var a := Apply(s, Finish(id));
    ReachedOn(s, Finish(id), held);
    t := Apply(a, Release(id));
    ReachedOn(a, Release(id), held);
    assert a.sealers - {id} == a.sealers;
  }

  /** A seal not named yet, in a new file that holds all its group's rows. */
  ghost predicate Seals(s: State, t: State, group: nat, path: nat) {
    && t.named == s.named + {group} && t.sealing.None? && t.covered == group + 1
    && t.disk == s.disk + {File(path, group, true)} && t.table == s.table + {File(path, group, true)}
  }

  lemma PathFresh(s: State, path: nat)
    requires Inv(s) && path !in s.made
    ensures forall f :: f in s.disk ==> f.path != path
  {
  }

  lemma HeadBuffered(s: State, group: nat)
    requires Inv(s) && s.covered <= group < s.issued
    ensures group in s.buffered
  {
  }

  /** The queue's head, unfiled, with no seal recorded: a sealer may file it, whole, and
      name it. */
  lemma SealMayFinish(s: State, id: nat, group: nat, path: nat, held: bool) returns (t: State)
    requires Reached(s, held) && id !in s.claims && id !in s.sealers && path !in s.made
    requires s.sealing.None? && Head(s, group) && s.covered <= group
    ensures Reached(t, held) && Seals(s, t, group, path) && t.pending == s.pending
  {
    hide Reached, Inv;
    ReachedOk(s, held);
    PathFresh(s, path);
    HeadBuffered(s, group);
    var a := Begins(s, id, group, held);
    var b := Records(a, id, group, path, held);
    var c := Registers(b, id, group, path, held);
    t := Finishes(c, id, group, path, held);
  }

  /** One whose seal was recorded and abandoned: a recovery queues the old name, and files
      the group under a new one. */
  lemma RecoveryMayFinish(s: State, id: nat, group: nat, former: nat, path: nat, held: bool) returns (t: State)
    requires Reached(s, held) && id !in s.claims && id !in s.sealers && path !in s.made
    requires s.sealing == Some((group, former)) && former !in Paths(s.table) && s.covered <= group
    ensures Reached(t, held) && Seals(s, t, group, path) && t.pending == s.pending + {former}
  {
    hide Reached;
    ReachedOk(s, held);
    PathFresh(s, path);
    assert group < s.issued;
    HeadBuffered(s, group);
    hide Inv;
    var a := TakesOver(s, id, group, former, held);
    var b := Records(a, id, group, path, held);
    var c := Registers(b, id, group, path, held);
    t := Finishes(c, id, group, path, held);
  }

  /** One whose file is in the table already: a recovery only names it. */
  lemma LandedMayFinish(s: State, id: nat, group: nat, path: nat, held: bool) returns (t: State)
    requires Reached(s, held) && id !in s.claims && id !in s.sealers
    requires s.sealing == Some((group, path)) && path in Paths(s.table)
    ensures Reached(t, held) && t.named == s.named + {group} && t.sealing.None?
    ensures t.table == s.table && t.disk == s.disk && t.pending == s.pending
  {
    hide Reached;
    var a := Apply(s, AcquireAll(id));
    ReachedOn(s, AcquireAll(id), held);
    var b := Apply(a, Look(id));
    ReachedOn(a, Look(id), held);
    assert b.sealers == s.sealers[id := Found(group, path)];
    var c := Apply(b, Resolve(id));
    ReachedOn(b, Resolve(id), held);
    assert c.sealers == s.sealers[id := Landed(group, path)];
    t := Apply(c, Finish(id));
    ReachedOn(c, Finish(id), held);
  }

  /** A file merged or evicted away, once drained, is nowhere; a covered group's rows may
      leave the buffer. */
  lemma FilesMayGo(s: State, file: File, held: bool) returns (t: State)
    requires Reached(s, held) && file in s.table
    ensures Reached(t, held) && t.table == s.table - {file} && t.pending == s.pending - {file.path}
    ensures forall f :: f in t.disk <==> f in s.disk && f.path != file.path
  {
    hide Reached;
    ReachedOk(s, held);
    OnePath(s, file);
    hide Inv;
    var a := Apply(s, Supersede(file));
    ReachedOn(s, Supersede(file), held);
    assert Enabled(a, Drain(file.path));
    t := Apply(a, Drain(file.path));
    ReachedOn(a, Drain(file.path), held);
    assert t.pending == s.pending - {file.path};
  }

  lemma OnePath(s: State, file: File)
    requires Inv(s) && file in s.table
    ensures forall f :: f in s.table && f.path == file.path ==> f == file
  {
  }

  lemma RowsMayGo(s: State, group: nat, held: bool) returns (t: State)
    requires Reached(s, held) && group < s.covered
    ensures Reached(t, held) && t == s.(buffered := s.buffered - {group})
  {
    hide Reached;
    t := Apply(s, EvictBuffer(group));
    ReachedOn(s, EvictBuffer(group), held);
  }

  /** A sealer that wrote its file and then lost its claim queues the file's name, and
      stops. */
  lemma LapsedWriteQueued(s: State, id: nat, group: nat, path: nat, held: bool) returns (t: State)
    requires Reached(s, held) && id in s.sealers && s.sealers[id] == Written(group, path) && id !in s.claims
    ensures Reached(t, held)
    ensures t == s.(pending := s.pending + {path}, sealers := s.sealers - {id})
  {
    hide Reached;
    t := Apply(s, RenewWritten(id));
    ReachedOn(s, RenewWritten(id), held);
  }
}
