/** The lease as its holder has it, over a store that replaces a record only if it is
    still the one expected.

    `token` is the fresh token of a write, which makes its version; `outcome` says
    whether the write was answered; `others` is what other processes left in the store
    since the last look at it. */
module Lease {
  import opened Options
  import opened LeaseRuns

  datatype Result<+T> = Ok(value: T) | Err(error: Error)
  datatype Error = AlreadyHeld | Leased(holder: Record) | Lost | Conflict | Unanswered

  /** How a write ended: answered; done with the answer lost; or not done. */
  datatype Outcome = Acked | Unacked | Failed

  class FileStore {
    var record: Option<Record>

    constructor ()
      ensures record.None?
    {
      record := None;
    }

    /** Replaces the record, if its version is the one expected. */
    method Write(data: Record, expected: Option<nat>, outcome: Outcome) returns (r: Result<nat>)
      modifies this
      ensures var conflict := VersionOf(old(record)) != expected;
        && record == (if conflict || outcome.Failed? then old(record) else Some(data))
        && r == (if !outcome.Acked? then Err(Unanswered) else if conflict then Err(Conflict) else Ok(data.version))
    {
      if outcome.Failed? { return Err(Unanswered); }
      var conflict := VersionOf(record) != expected;
      if !conflict { record := Some(data); }
      return if outcome.Unacked? then Err(Unanswered) else if conflict then Err(Conflict) else Ok(data.version);
    }
  }

  /** One try at the record: when it was read and written, and what happened between. */
  datatype Try = Try(read: int, write: int, token: nat, outcome: Outcome, others: Option<Option<Record>>)

  /** What a handle has, once its write was answered. */
  ghost predicate Answered(store: FileStore, handle: Handle, record: Record)
    reads store
  {
    store.record == Some(record) && handle == Handle(Some(record.expires), Some(record.version), Idle)
  }

  /** A record to be respected: an owner's, not past its expiry and the margin. */
  predicate Unexpired(record: Option<Record>, now: int, config: Config) {
    record.Some? && record.value.owner.Some? && now < record.value.expires + config.skew
  }

  /** What try `k` reads, when others replaced the record under every try before it. */
  function Seen(record: Option<Record>, tries: seq<Try>, k: nat): Option<Record>
    requires k <= |tries|
  {
    if k > 0 && tries[k - 1].others.Some? then tries[k - 1].others.value else record
  }

  /** Try `j` is answered with a conflict: the record it expects has been replaced. */
  predicate PassedOver(record: Option<Record>, tries: seq<Try>, config: Config, j: nat)
    requires j < |tries|
  {
    var at, seen := tries[j], Seen(record, tries, j);
    && !Unexpired(seen, at.read, config) && at.outcome.Acked?
    && at.others.Some? && VersionOf(at.others.value) != VersionOf(seen)
  }

  /** What try `k` comes to, if it is not passed over: a refusal, the record written, or
      no answer, with the record written or not. */
  predicate Decides(record: Option<Record>, tries: seq<Try>, config: Config, owner: nat, k: nat,
                    r: Result<Record>, left: Option<Record>)
    requires k < |tries|
  {
    var at, seen := tries[k], Seen(record, tries, k);
    var before := if at.others.Some? then at.others.value else seen;
    var data := Record(at.token, Some(owner), at.write + config.ttl);
    if Unexpired(seen, at.read, config) then r == Err(Leased(seen.value)) && left == seen
    else if at.outcome.Acked? then VersionOf(before) == VersionOf(seen) && r == Ok(data) && left == Some(data)
    else && r == Err(Unanswered)
         && left == if at.outcome.Unacked? && VersionOf(before) == VersionOf(seen) then Some(data) else before
  }

  /** The first `k` tries are passed over, and the next decides; with all four, it is lost. */
  ghost predicate Comes(record: Option<Record>, tries: seq<Try>, config: Config, owner: nat, k: nat,
                        r: Result<Record>, left: Option<Record>)
    requires k <= 4 <= |tries|
  {
    && (forall j: nat :: j < k ==> PassedOver(record, tries, config, j))
    && if k == 4 then r == Err(Lost) && left == Seen(record, tries, 4)
       else Decides(record, tries, config, owner, k, r, left)
  }

  class Lease {
    const store: FileStore
    const owner: nat
    const config: Config
    var held: Option<int>
    var version: Option<nat>

    constructor (store: FileStore, owner: nat, config: Config)
      ensures this.store == store && this.owner == owner && this.config == config && held.None? && version.None?
    {
      this.store, this.owner, this.config := store, owner, config;
      held, version := None, None;
    }

    function AsHandle(): Handle reads this {
      Handle(held, version, Idle)
    }

    /** Creates the record, or replaces one no longer to be respected; a conflict looks
        again, four times at most. */
    method Acquire(tries: seq<Try>) returns (r: Result<Record>)
      requires |tries| >= 4
      modifies this, store
      ensures old(held).Some? ==> r == Err(AlreadyHeld) && store.record == old(store.record)
      ensures r.Ok? ==> Answered(store, AsHandle(), r.value)
      ensures !r.Ok? ==> AsHandle() == old(AsHandle())
      ensures old(held).None? ==>
        exists k: nat :: k <= 4 && Comes(old(store.record), tries, config, owner, k, r, store.record)
    {
      if held.Some? { return Err(AlreadyHeld); }
      for k := 0 to 4
        invariant AsHandle() == old(AsHandle()) && held.None?
        invariant forall j: nat :: j < k ==> PassedOver(old(store.record), tries, config, j)
        invariant store.record == Seen(old(store.record), tries, k)
      {
        var seen := store.record;
        if Refuses(seen, tries[k].read, config.skew) {
          assert Comes(old(store.record), tries, config, owner, k, Err(Leased(seen.value)), store.record);
          return Err(Leased(seen.value));
        }
        if tries[k].others.Some? { store.record := tries[k].others.value; }
        var data := Record(tries[k].token, Some(owner), tries[k].write + config.ttl);
        var w := store.Write(data, VersionOf(seen), tries[k].outcome);
        if w.Ok? {
          held, version := Some(data.expires), Some(data.version);
          assert Comes(old(store.record), tries, config, owner, k, Ok(data), store.record);
          return Ok(data);
        }
        if w == Err(Unanswered) {
          assert Comes(old(store.record), tries, config, owner, k, Err(Unanswered), store.record);
          return Err(Unanswered);
        }
      }
      assert Comes(old(store.record), tries, config, owner, 4, Err(Lost), store.record);
      return Err(Lost);
    }

    /** Whether authority is still held; if not, it is given up. */
    method RequireHeld(now: int) returns (ok: bool)
      modifies this
      ensures ok <==> Holds(old(AsHandle()), now, config.skew)
      ensures AsHandle() == if ok then old(AsHandle()) else Handle(None, None, Idle)
    {
      ok := held.Some? && now < held.value - config.skew;
      if !ok { held, version := None, None; }
    }

    /** Extends the record last written, if nobody replaced it. */
    method Renew(now: int, at: Try) returns (r: Result<Record>)
      modifies this, store
      ensures !Holds(old(AsHandle()), now, config.skew) ==>
        r == Err(Lost) && store.record == old(store.record) && AsHandle() == Handle(None, None, Idle)
      ensures Holds(old(AsHandle()), now, config.skew) ==>
        var before := if at.others.Some? then at.others.value else old(store.record);
        var conflict, data := VersionOf(before) != old(version), Record(at.token, Some(owner), at.write + config.ttl);
        if !at.outcome.Acked? then
          && r == Err(Unanswered) && AsHandle() == old(AsHandle())
          && store.record == (if conflict || at.outcome.Failed? then before else Some(data))
        else if conflict then r == Err(Lost) && store.record == before && AsHandle() == Handle(None, None, Idle)
        else r == Ok(data) && Answered(store, AsHandle(), data)
    {
      var ok := RequireHeld(now);
      if !ok { return Err(Lost); }
      if at.others.Some? { store.record := at.others.value; }
      var data := Record(at.token, Some(owner), at.write + config.ttl);
      var w := store.Write(data, version, at.outcome);
      if w.Ok? {
        held, version := Some(data.expires), Some(data.version);
        return Ok(data);
      }
      if w == Err(Conflict) {
        held, version := None, None;
        return Err(Lost);
      }
      return Err(Unanswered);
    }

    /** Leaves a tombstone, if nobody replaced the record; the handle lets go either way. */
    method Release(now: int, at: Try) returns (r: Result<()>)
      modifies this, store
      ensures AsHandle() == Handle(None, None, Idle)
      ensures !Holds(old(AsHandle()), now, config.skew) ==> r == Err(Lost) && store.record == old(store.record)
      ensures Holds(old(AsHandle()), now, config.skew) ==>
        var before := if at.others.Some? then at.others.value else old(store.record);
        var conflict := VersionOf(before) != old(version);
        && store.record == (if conflict || at.outcome.Failed? then before else Some(Record(at.token, None, 0)))
        && r == (if !at.outcome.Acked? then Err(Unanswered) else if conflict then Err(Lost) else Ok(()))
    {
      var ok := RequireHeld(now);
      if !ok { return Err(Lost); }
      if at.others.Some? { store.record := at.others.value; }
      var w := store.Write(Record(at.token, None, 0), version, at.outcome);
      held, version := None, None;
      match w {
        case Ok(_) => return Ok(());
        case Err(Conflict) => return Err(Lost);
        case Err(_) => return Err(Unanswered);
      }
    }
  }
}
