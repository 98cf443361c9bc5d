/** Claims on offset ranges: rows of one table, checked and inserted in one transaction.

    The clock is whatever `now` each call is given: nothing here takes it to move forward. */
module ClaimTable {
  import opened Options

  datatype Result<+T> = Ok(value: T) | Err

  /** A claim on `[start, end)`. */
  datatype Row = Row(owner: nat, expires: int, start: nat, end: nat)

  /** The claim table. Row ids are never used twice. */
  datatype Table = Table(rows: map<nat, Row>, next: nat)

  predicate Overlap(a: Row, start: nat, end: nat) {
    a.start < end && a.end > start
  }

  /** A live row of another owner, over some of the range. */
  predicate Clash(t: Table, owner: nat, start: nat, end: nat, now: int) {
    exists id :: id in t.rows && t.rows[id].expires > now && t.rows[id].owner != owner
                 && Overlap(t.rows[id], start, end)
  }

  /** The table once a range is taken: lapsed rows over it gone, a row of its own added. */
  function Taken(t: Table, row: Row, now: int): Table {
    var kept := map id | id in t.rows && !(t.rows[id].expires <= now && Overlap(t.rows[id], row.start, row.end)) :: t.rows[id];
    Table(kept[t.next := row], t.next + 1)
  }

  /** Rows of one owner over one exact range removed: how an attempt that failed cleans up. */
  function Cleared(t: Table, owner: nat, start: nat, end: nat): Table {
    t.(rows := map id | id in t.rows && !(t.rows[id].owner == owner && t.rows[id].start == start && t.rows[id].end == end)
                 :: t.rows[id])
  }

  ghost predicate Ids(t: Table) {
    forall id :: id in t.rows ==> id < t.next
  }

  /** Rows of different owners never overlap, lapsed rows included. */
  ghost predicate Apart(t: Table) {
    forall i, j :: i in t.rows && j in t.rows && t.rows[i].owner != t.rows[j].owner
      ==> !Overlap(t.rows[i], t.rows[j].start, t.rows[j].end)
  }

  ghost predicate Sound(t: Table) {
    Ids(t) && Apart(t)
  }

  lemma TakenOk(t: Table, row: Row, now: int)
    requires Sound(t) && !Clash(t, row.owner, row.start, row.end, now)
    ensures Sound(Taken(t, row, now))
  {
  }

  /** A claim table row's life is over once a range over it is taken while it is lapsed. */
  lemma TakenEnds(t: Table, row: Row, now: int, id: nat)
    requires Sound(t) && id in t.rows && !Clash(t, row.owner, row.start, row.end, now)
    requires t.rows[id].owner != row.owner && Overlap(t.rows[id], row.start, row.end)
    ensures id !in Taken(t, row, now).rows
  {
  }

  // ----- the claim, as its holder has it -----

  /** Whether a claim's row is still there. */
  predicate Renewable(t: Table, id: nat, owner: nat) {
    id in t.rows && t.rows[id].owner == owner
  }

  /** How a transaction ended: as it should, refused before it committed, or committed
      with the acknowledgement lost. */
  datatype Outcome = Done | NotCommitted | Unacknowledged

  class Store {
    var table: Table

    constructor ()
      ensures table == Table(map[], 0)
    {
      table := Table(map[], 0);
    }
  }

  class Claim {
    const store: Store
    const owner: nat
    const start: nat
    const end: nat
    const ttl: int
    var rowId: Option<nat>

    constructor (store: Store, owner: nat, start: nat, end: nat, ttl: int)
      ensures this.store == store && this.owner == owner && this.start == start && this.end == end
      ensures this.ttl == ttl && rowId.None?
    {
      this.store, this.owner, this.start, this.end, this.ttl := store, owner, start, end, ttl;
      rowId := None;
    }

    /** Take the range, unless a live claim of another owner overlaps it. After an error
        the claim is not held, and a row it may have left is removed if it can be. */
    method Acquire(now: int, outcome: Outcome, cleans: bool) returns (r: Result<bool>)
      requires Sound(store.table)
      modifies this`rowId, store`table
      ensures Sound(store.table)
      // granted exactly when no live row of another owner overlaps the range
      ensures var was := old(store.table).rows;
        outcome.Done? ==>
          r == Ok(forall id :: id in was && was[id].owner != owner && was[id].expires > now
                    ==> was[id].end <= start || end <= was[id].start)
      ensures r == Ok(false) ==> store.table == old(store.table) && rowId == old(rowId)
      // granted: one new row, the claim's; of the rows that were there, each is there as it
      // was just when it was live or did not overlap
      ensures var was, after := old(store.table).rows, store.table.rows;
        r == Ok(true) ==>
          && rowId.Some? && rowId.value !in was && rowId.value in after
          && after[rowId.value] == Row(owner, now + ttl, start, end)
          && (forall id :: id in after ==> id in was || id == rowId.value)
          && (forall id :: id in was ==>
                (id in after && after[id] == was[id] <==>
                   was[id].expires > now || was[id].end <= start || end <= was[id].start))
      ensures !outcome.Done? ==> r.Err? && rowId.None?
      // after an error: what it may have left is there or, cleaned up, it is not; and its
      // own range is all it cleans
      ensures var was, after := old(store.table).rows, store.table.rows;
        r.Err? ==>
          && (forall id :: id in after && id !in was ==>
                !cleans && outcome.Unacknowledged? && after[id] == Row(owner, now + ttl, start, end))
          && (forall id :: id in was && id !in after ==>
                (cleans && was[id].owner == owner && was[id].start == start && was[id].end == end)
                || (outcome.Unacknowledged? && was[id].expires <= now && was[id].start < end && start < was[id].end))
          && (forall id :: id in was && id in after ==>
                after[id] == was[id] && !(cleans && was[id].owner == owner && was[id].start == start && was[id].end == end))
    {
      var t := store.table;
      var row := Row(owner, now + ttl, start, end);
      var clash := Clash(t, owner, start, end, now);
      if !clash { TakenOk(t, row, now); }
      match outcome {
        case Done =>
          if clash { return Ok(false); }
          store.table := Taken(t, row, now);
          rowId := Some(t.next);
          return Ok(true);
        case NotCommitted =>
        case Unacknowledged => if !clash { store.table := Taken(t, row, now); }
      }
      rowId := None;
      if cleans { store.table := Cleared(store.table, owner, start, end); }
      return Err;
    }

    /** Extend the claim. False means it was lost. */
    method Renew(now: int) returns (held: bool)
      requires Sound(store.table)
      modifies store`table
      ensures Sound(store.table)
      ensures held <==> rowId.Some? && rowId.value in old(store.table).rows && old(store.table).rows[rowId.value].owner == owner
      ensures !held ==> store.table == old(store.table)
      ensures var was := old(store.table).rows;
        held ==>
          && store.table.rows == was[rowId.value := Row(owner, now + ttl, was[rowId.value].start, was[rowId.value].end)]
          && store.table.next == old(store.table).next
    {
      held := rowId.Some? && Renewable(store.table, rowId.value, owner);
      if held { store.table := Renewed(store.table, rowId.value, now + ttl); }
    }

    method Held(now: int) returns (held: bool)
      ensures held <==> rowId.Some? && Renewable(store.table, rowId.value, owner)
                        && store.table.rows[rowId.value].expires > now
    {
      held := rowId.Some? && rowId.value in store.table.rows && store.table.rows[rowId.value].owner == owner
              && store.table.rows[rowId.value].expires > now;
    }

    method Release()
      requires Sound(store.table)
      modifies this`rowId, store`table
      ensures Sound(store.table) && rowId.None?
      ensures store.table.next == old(store.table).next
      ensures var was, after := old(store.table).rows, store.table.rows;
        && (forall id :: id in after ==> id in was && after[id] == was[id])
        && (forall id :: id in was ==> (id !in after <==> old(rowId) == Some(id) && was[id].owner == owner))
    {
      if rowId.None? { return; }
      store.table := Released(store.table, rowId.value, owner);
      rowId := None;
    }
  }

  function Renewed(t: Table, id: nat, expires: int): Table
    requires id in t.rows
  {
    t.(rows := t.rows[id := t.rows[id].(expires := expires)])
  }

  function Released(t: Table, id: nat, owner: nat): Table {
    if id in t.rows && t.rows[id].owner == owner then t.(rows := t.rows - {id}) else t
  }

  // ----- runs -----

  /** A transaction on the table, by any process at any clock. */
  datatype Event =
    | Acquire(row: Row, now: int)
    | Renew(id: nat, owner: nat, expires: int)
    | Release(id: nat, owner: nat)
    | Clear(owner: nat, start: nat, end: nat)

  function Apply(t: Table, e: Event): Table {
    match e
    case Acquire(row, now) => if Clash(t, row.owner, row.start, row.end, now) then t else Taken(t, row, now)
    case Renew(id, owner, expires) =>
      if id in t.rows && t.rows[id].owner == owner then Renewed(t, id, expires) else t
    case Release(id, owner) => Released(t, id, owner)
    case Clear(owner, start, end) => Cleared(t, owner, start, end)
  }

  function After(t: Table, events: seq<Event>): Table
    decreases |events|
  {
    if events == [] then t else After(Apply(t, events[0]), events[1..])
  }

  lemma ApplyOk(t: Table, e: Event)
    requires Sound(t)
    ensures Sound(Apply(t, e))
  {
    if e.Acquire? && !Clash(t, e.row.owner, e.row.start, e.row.end, e.now) { TakenOk(t, e.row, e.now); }
  }

  /** In every table a run can reach, rows of different owners never overlap. */
  lemma {:induction false} OwnersApart(t: Table, events: seq<Event>)
    requires Sound(t)
    ensures Sound(After(t, events))
    decreases |events|
  {
    hide Sound, Apply;
    if events != [] {
      ApplyOk(t, events[0]);
      OwnersApart(Apply(t, events[0]), events[1..]);
    }
  }

  // ----- when a row goes -----

  /** The range is free to an owner: whoever else's row it meets has lapsed. */
  ghost predicate Free(t: Table, row: Row, now: int) {
    forall id :: id in t.rows && t.rows[id].owner != row.owner && t.rows[id].expires > now
      ==> t.rows[id].end <= row.start || row.end <= t.rows[id].start
  }

  /** What removes a row: its range, or some of it, taken after it lapsed; its owner's
      release; and the clearing of its own attempt. Nothing else does, and no acquire of
      another's removes a live claim, or one apart from it. */
  ghost predicate Removes(t: Table, e: Event, id: nat)
    requires id in t.rows
  {
    var row := t.rows[id];
    match e
    case Acquire(taken, now) =>
      Free(t, taken, now) && row.expires <= now && row.start < taken.end && taken.start < row.end
    case Renew(_, _, _) => false
    case Release(i, owner) => i == id && owner == row.owner
    case Clear(owner, start, end) => owner == row.owner && start == row.start && end == row.end
  }

  /** Until then a row is as it was, but for its own renewals. */
  lemma RemovedIff(t: Table, e: Event, id: nat)
    requires Ids(t) && id in t.rows
    ensures id !in Apply(t, e).rows <==> Removes(t, e, id)
    ensures id in Apply(t, e).rows ==>
      Apply(t, e).rows[id] == if e.Renew? && e.id == id && e.owner == t.rows[id].owner
                              then t.rows[id].(expires := e.expires) else t.rows[id]
    ensures Ids(Apply(t, e))
  {
    if e.Acquire? { FreeIs(t, e.row, e.now); }
  }

  lemma FreeIs(t: Table, row: Row, now: int)
    ensures Free(t, row, now) <==> !Clash(t, row.owner, row.start, row.end, now)
  {
  }

  /** An acquire adds one row, if the range is free, and no other event adds any. */
  lemma AddedIff(t: Table, e: Event, id: nat)
    requires Ids(t) && id !in t.rows
    ensures id in Apply(t, e).rows <==> e.Acquire? && Free(t, e.row, e.now) && id == t.next
    ensures id in Apply(t, e).rows ==> Apply(t, e).rows[id] == e.row
  {
    if e.Acquire? { FreeIs(t, e.row, e.now); }
  }

  /** Nothing in the run removes the row. */
  ghost predicate Spared(t: Table, events: seq<Event>, id: nat)
    requires id in t.rows
    decreases |events|
  {
    events == [] ||
    (!Removes(t, events[0], id) && id in Apply(t, events[0]).rows && Spared(Apply(t, events[0]), events[1..], id))
  }

  /** Over every run a row is still there just when nothing removed it: once gone, its id
      never comes back. */
  lemma {:induction false} StaysIff(t: Table, events: seq<Event>, id: nat)
    requires Ids(t) && id in t.rows
    ensures id in After(t, events).rows <==> Spared(t, events, id)
    decreases |events|
  {
    hide Removes, Apply, Ids;
    if events != [] {
      RemovedIff(t, events[0], id);
      if id in Apply(t, events[0]).rows {
        StaysIff(Apply(t, events[0]), events[1..], id);
      } else {
        NextGrows(t, events[0], id);
        GoneStays(Apply(t, events[0]), events[1..], id);
      }
    }
  }

  lemma NextGrows(t: Table, e: Event, id: nat)
    requires Ids(t) && id in t.rows
    ensures id < Apply(t, e).next
  {
  }

  lemma {:induction false} GoneStays(t: Table, events: seq<Event>, id: nat)
    requires Ids(t) && id < t.next && id !in t.rows
    ensures id !in After(t, events).rows
    decreases |events|
  {
    if events != [] {
      GoneStays(Apply(t, events[0]), events[1..], id);
    }
  }

  // ----- what a row still there proves -----

  /** Whether an event takes a range over a row, for an owner not the row's. */
  predicate Takes(t: Table, e: Event, row: Row) {
    && e.Acquire? && e.row.owner != row.owner && Overlap(row, e.row.start, e.row.end)
    && !Clash(t, e.row.owner, e.row.start, e.row.end, e.now)
  }

  /** A row never changes hands or range. */
  predicate SameClaim(a: Row, b: Row) {
    a.owner == b.owner && a.start == b.start && a.end == b.end
  }

  lemma ApplyKeeps(t: Table, e: Event, id: nat)
    requires Sound(t) && id < t.next
    ensures var u := Apply(t, e);
      && t.next <= u.next
      && (id in u.rows ==> id in t.rows && SameClaim(t.rows[id], u.rows[id]) && !Takes(t, e, t.rows[id]))
  {
    if e.Acquire? && id in t.rows && Takes(t, e, t.rows[id]) { TakenEnds(t, e.row, e.now, id); }
  }

  /** A row still there proves that no other owner has taken a range over it since,
      lapsed or not: so a renewal that finds its row has lost nothing. */
  lemma {:induction false} StillThere(t: Table, events: seq<Event>, id: nat, i: nat)
    requires Sound(t) && id < t.next && id in After(t, events).rows && i < |events|
    ensures id in t.rows && SameClaim(t.rows[id], After(t, events).rows[id])
    ensures !Takes(After(t, events[..i]), events[i], t.rows[id])
    decreases |events|
  {
    hide Sound, Apply;
    var u := Apply(t, events[0]);
    ApplyOk(t, events[0]);
    ApplyKeeps(t, events[0], id);
    if |events| > 1 {
      StillThere(u, events[1..], id, if i == 0 then 0 else i - 1);
    }
    if i == 0 {
      assert events[..0] == [];
    } else {
      assert events[..i][0] == events[0] && events[..i][1..] == events[1..][..i - 1];
      assert SameClaim(t.rows[id], u.rows[id]);
      TakesSame(After(t, events[..i]), events[i], u.rows[id], t.rows[id]);
    }
  }

  lemma TakesSame(t: Table, e: Event, a: Row, b: Row)
    requires SameClaim(a, b)
    ensures Takes(t, e, a) <==> Takes(t, e, b)
  {
  }

  /** A renewal that succeeds, however long after expiry, proves nobody else took any of
      the range since its row went in. */
  lemma {:induction false} RenewalProves(t: Table, row: Row, now: int, events: seq<Event>)
    requires Sound(t) && !Clash(t, row.owner, row.start, row.end, now)
    requires Renewable(After(Taken(t, row, now), events), t.next, row.owner)
    ensures forall i :: 0 <= i < |events| ==> !Takes(After(Taken(t, row, now), events[..i]), events[i], row)
  {
    hide Sound, Apply, After, Takes;
    var u := Taken(t, row, now);
    TakenOk(t, row, now);
    forall i | 0 <= i < |events| ensures !Takes(After(u, events[..i]), events[i], row) {
      StillThere(u, events, t.next, i);
    }
  }
}
