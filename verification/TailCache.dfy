/** The unsealed tail a query reads, kept from one query to the next.

    A row is its offset. Rows are immutable, are appended above every one before, and
    may leave the buffer at any time. */
module TailCache {
  import opened Options

  predicate Increasing(rows: seq<nat>) {
    forall i, j :: 0 <= i < j < |rows| ==> rows[i] < rows[j]
  }

  /** The rows a `SELECT ... WHERE offset >= start` gives. */
  function From(rows: seq<nat>, start: nat): seq<nat> {
    if rows == [] then []
    else (if rows[0] >= start then [rows[0]] else []) + From(rows[1..], start)
  }

  lemma {:induction false} FromIn(rows: seq<nat>, start: nat)
    ensures forall o :: o in From(rows, start) <==> o in rows && o >= start
  {
    if rows != [] {
      FromIn(rows[1..], start);
      assert rows == [rows[0]] + rows[1..];
    }
  }

  lemma {:induction false} FromIncreasing(rows: seq<nat>, start: nat)
    requires Increasing(rows)
    ensures Increasing(From(rows, start))
  {
    if rows != [] {
      FromIncreasing(rows[1..], start);
      FromIn(rows[1..], start);
      var rest := From(rows[1..], start);
      assert forall k :: 0 <= k < |rest| ==> rest[k] in rest;
    }
  }

  lemma {:induction false} SameRows(a: seq<nat>, b: seq<nat>)
    requires Increasing(a) && Increasing(b) && forall o :: o in a <==> o in b
    ensures a == b
    decreases |a|
  {
    if a == [] {
      assert forall k :: 0 <= k < |b| ==> b[k] in b;
    } else {
      assert a[0] in b && b != [] && b[0] in a;
      assert a[0] == b[0];
      assert a == [a[0]] + a[1..] && b == [b[0]] + b[1..];
      forall o ensures o in a[1..] <==> o in b[1..] {
        if o in a[1..] { assert o in a && o > a[0]; }
        if o in b[1..] { assert o in b && o > b[0]; }
      }
      SameRows(a[1..], b[1..]);
    }
  }

  /** What of the cached tail answers a read from `start`: found by arithmetic on the
      offsets, and checked, since a reserved range is a hole the arithmetic does not see. */
  function Reusable(tail: Option<seq<nat>>, tailStart: nat, tailEnd: nat, completeFrom: nat, start: nat): Option<seq<nat>> {
    if tail.None? || !(completeFrom <= start <= tailEnd) then None
    else
      var base := if start > tailStart then start else tailStart;
      var drop := if base - tailStart < |tail.value| then base - tailStart else |tail.value|;
      var kept := tail.value[drop..];
      if kept != [] then
        if kept[0] == base then Some(kept) else None
      else if tailEnd > start then None
      else Some(kept)
  }

  /** What a read from `start` gives: the cached rows topped up, or a fresh read. */
  function Answer(tail: Option<seq<nat>>, tailStart: nat, tailEnd: nat, completeFrom: nat, rows: seq<nat>, start: nat): seq<nat> {
    var cached := Reusable(tail, tailStart, tailEnd, completeFrom, start);
    if cached.None? then From(rows, start) else cached.value + From(rows, tailEnd)
  }

  /** What the cache fields promise. */
  ghost predicate Sound(tail: seq<nat>, tailStart: nat, tailEnd: nat, completeFrom: nat, buffer: seq<nat>) {
    && Increasing(tail)
    && (tail != [] ==> tailStart == tail[0] && tailEnd == tail[|tail| - 1] + 1)
    && (tail == [] ==> tailStart == tailEnd)
    && (forall o <- tail :: completeFrom <= o)
    && (forall o <- buffer :: completeFrom <= o < tailEnd ==> o in tail)
  }

  /** What is reused is exactly what the cache holds at or above `start`. */
  lemma {:induction false} ReusableExact(tail: seq<nat>, tailStart: nat, tailEnd: nat, completeFrom: nat, buffer: seq<nat>,
                                         start: nat)
    requires Sound(tail, tailStart, tailEnd, completeFrom, buffer)
    requires Reusable(Some(tail), tailStart, tailEnd, completeFrom, start).Some?
    ensures var kept := Reusable(Some(tail), tailStart, tailEnd, completeFrom, start).value;
      && Increasing(kept) && (forall o :: o in kept <==> o in tail && o >= start)
      && (forall o <- kept :: o < tailEnd)
  {
    hide Increasing;
    var base := if start > tailStart then start else tailStart;
    var drop := if base - tailStart < |tail| then base - tailStart else |tail|;
    ReusableIs(tail, tailStart, tailEnd, completeFrom, start, base, drop);
    DropIncreasing(tail, drop);
    TailBelow(tail, tailStart, tailEnd);
    if drop < |tail| { DropFrom(tail, drop, base); }
  }

  lemma ReusableIs(tail: seq<nat>, tailStart: nat, tailEnd: nat, completeFrom: nat, start: nat, base: nat, drop: nat)
    requires base == (if start > tailStart then start else tailStart)
    requires drop == if base - tailStart < |tail| then base - tailStart else |tail|
    requires Reusable(Some(tail), tailStart, tailEnd, completeFrom, start).Some?
    ensures Reusable(Some(tail), tailStart, tailEnd, completeFrom, start) == Some(tail[drop..])
    ensures if drop < |tail| then tail[drop] == base else tailEnd <= start
  {
    if drop < |tail| { assert tail[drop..][0] == tail[drop]; }
  }

  lemma TailBelow(tail: seq<nat>, tailStart: nat, tailEnd: nat)
    requires Increasing(tail)
    requires tail != [] ==> tailStart == tail[0] && tailEnd == tail[|tail| - 1] + 1
    ensures forall o <- tail :: tailStart <= o < tailEnd
  {
    forall o <- tail ensures tailStart <= o < tailEnd {
      var k :| 0 <= k < |tail| && tail[k] == o;
    }
  }

  lemma DropIncreasing(tail: seq<nat>, drop: nat)
    requires Increasing(tail) && drop <= |tail|
    ensures Increasing(tail[drop..]) && forall o <- tail[drop..] :: o in tail
  {
  }

  /** Of rows in order, those from a row's place on are those at or above it. */
  lemma DropFrom(tail: seq<nat>, drop: nat, base: nat)
    requires Increasing(tail) && drop < |tail| && tail[drop] == base
    ensures forall o :: o in tail[drop..] <==> o in tail && o >= base
  {
    var kept := tail[drop..];
    forall o ensures o in kept <==> o in tail && o >= base {
      if o in kept {
        var k :| 0 <= k < |kept| && kept[k] == o;
        assert tail[drop + k] == o;
      }
      if o in tail && o >= base {
        var k :| 0 <= k < |tail| && tail[k] == o;
        assert kept[k - drop] == o;
      }
    }
  }

  class Buffer {
    var rows: seq<nat>                 // the buffer's rows
    var next: nat
    var shape: nat                     // the schema in force
    var tail: Option<seq<nat>>
    var tailStart: nat
    var tailEnd: nat
    var completeFrom: nat
    var tailShape: nat
    ghost var committed: set<nat>      // every row ever appended

    ghost predicate Valid() reads this {
      && Increasing(rows) && next >= 1
      && (forall o <- rows :: o in committed)
      && (forall o <- committed :: 1 <= o < next)
      && (tail.Some? ==>
            && Sound(tail.value, tailStart, tailEnd, completeFrom, rows)
            && (tail.value != [] ==> tailEnd <= next)
            && (tail.value == [] ==> tailEnd <= completeFrom)
            && forall o <- tail.value :: o in committed)
    }

    constructor ()
      ensures Valid() && rows == [] && committed == {} && tail.None? && next == 1
    {
      rows, next, shape, tail, committed := [], 1, 0, None, {};
      tailStart, tailEnd, completeFrom, tailShape := 0, 0, 0, 0;
    }

    method Append() returns (offset: nat)
      requires Valid()
      modifies this`rows, this`next, this`committed
      ensures Valid()
      ensures offset == old(next) && next == offset + 1
      ensures rows == old(rows) + [offset] && committed == old(committed) + {offset}
    {
      offset := next;
      AddAbove(rows, next);
      rows, next, committed := rows + [offset], next + 1, committed + {offset};
    }

    /** Offsets taken that no buffered row will have. */
    method Reserve(n: nat)
      requires Valid()
      modifies this`next
      ensures Valid() && next == old(next) + n
    {
      next := next + n;
    }

    /** Rows of a range gone from the buffer: evicted, or truncated. */
    method Evict(from: nat, to: nat)
      requires Valid()
      modifies this`rows
      ensures Valid()
      ensures forall o :: o in rows <==> o in old(rows) && !(from <= o < to)
    {
      var kept: seq<nat> := [];
      for i := 0 to |rows|
        invariant Increasing(kept)
        invariant forall o :: o in kept <==> o in rows[..i] && !(from <= o < to)
      {
        assert rows[..i + 1] == rows[..i] + [rows[i]];
        assert forall k :: 0 <= k < |kept| ==> kept[k] in kept;
        if !(from <= rows[i] < to) { kept := kept + [rows[i]]; }
      }
      assert rows[..|rows|] == rows;
      rows := kept;
    }

    method ChangeSchema()
      requires Valid()
      modifies this`shape
      ensures Valid()
    {
      shape := shape + 1;
    }

    /** The tail from `start`: a cached answer topped up, or a fresh read.

        It is in order, starts nowhere below `start`, leaves out no row still buffered, and
        holds no row never committed; where no row at or above `start` has left the
        buffer, it is exactly what a plain read gives. */
    method RowsFrom(boundary: Option<nat>) returns (table: seq<nat>)
      requires Valid()
      modifies this`tail, this`tailStart, this`tailEnd, this`completeFrom, this`tailShape
      ensures Valid()
      ensures var start := if boundary.None? then 0 else boundary.value;
        var cached := if old(tailShape) != shape then None else old(tail);
        && table == Answer(cached, old(tailStart), old(tailEnd), old(completeFrom), rows, start)
        && Answers(table, rows, start, committed)
      ensures tail == Some(table) && tailShape == shape && completeFrom == (if boundary.None? then 0 else boundary.value)
      ensures if table == [] then tailStart == tailEnd == completeFrom
              else tailStart == table[0] && tailEnd == table[|table| - 1] + 1
    {
      hide From, Reusable, Increasing, Sound, Answers;
      var start := if boundary.None? then 0 else boundary.value;
      ReusableNone(tailStart, tailEnd, completeFrom, start);
      if tailShape != shape {
        tail := None;
        tailStart, tailEnd, completeFrom := 0, 0, 0;
        tailShape := shape;
      }
      ReusableNone(tailStart, tailEnd, completeFrom, start);
      var cached := Reusable(tail, tailStart, tailEnd, completeFrom, start);
      if cached.None? {
        FreshAnswers(rows, start, committed);
        table := From(rows, start);
      } else {
        CachedAnswers(tail, tailStart, tailEnd, completeFrom, rows, start, committed);
        table := cached.value + From(rows, tailEnd);
      }
      AnswerSound(table, rows, start, committed);
      AnswerCommitted(table, rows, start, committed);
      completeFrom := start;
      tail := Some(table);
      if table != [] {
        tailStart, tailEnd := table[0], table[|table| - 1] + 1;
      } else {
        tailStart, tailEnd := start, start;
      }
    }
  }

  lemma AnswerCommitted(table: seq<nat>, rows: seq<nat>, start: nat, committed: set<nat>)
    requires Answers(table, rows, start, committed)
    ensures forall o <- table :: o in committed
  {
  }

  lemma AddAbove(rows: seq<nat>, next: nat)
    requires Increasing(rows) && forall o <- rows :: o < next
    ensures Increasing(rows + [next])
  {
    assert forall k :: 0 <= k < |rows| ==> rows[k] in rows;
  }

  /** The answer a read from `start` gives, against the rows it answers for. */
  ghost predicate Answers(table: seq<nat>, rows: seq<nat>, start: nat, committed: set<nat>) {
    && Increasing(table)
    && (forall o <- table :: start <= o && o in committed)
    && (forall o <- rows :: o >= start ==> o in table)
    && ((forall o <- committed :: o >= start ==> o in rows) ==> table == From(rows, start))
  }

  lemma FreshAnswers(rows: seq<nat>, start: nat, committed: set<nat>)
    requires Increasing(rows) && forall o <- rows :: o in committed
    ensures Answers(From(rows, start), rows, start, committed)
  {
    FromIn(rows, start);
    FromIncreasing(rows, start);
  }

  lemma CachedAnswers(tail: Option<seq<nat>>, tailStart: nat, tailEnd: nat, completeFrom: nat, rows: seq<nat>,
                      start: nat, committed: set<nat>)
    requires tail.Some? ==> Sound(tail.value, tailStart, tailEnd, completeFrom, rows)
    requires tail.Some? ==> forall o <- tail.value :: o in committed
    requires Reusable(tail, tailStart, tailEnd, completeFrom, start).Some?
    requires Increasing(rows) && forall o <- rows :: o in committed
    ensures Answers(Reusable(tail, tailStart, tailEnd, completeFrom, start).value + From(rows, tailEnd), rows, start, committed)
  {
    CachedTail(tail, tailStart, tailEnd, completeFrom, rows, start);
    FromIn(rows, tailEnd);
    FromIncreasing(rows, tailEnd);
    hide From, Reusable, Increasing;
    var kept, added := Reusable(tail, tailStart, tailEnd, completeFrom, start).value, From(rows, tailEnd);
    JoinIncreasing(kept, added, tailEnd);
    ExactWhenKept(kept + added, rows, start, committed);
  }

  /** The cache the answer leaves behind. */
  lemma AnswerSound(table: seq<nat>, rows: seq<nat>, start: nat, committed: set<nat>)
    requires Answers(table, rows, start, committed)
    ensures if table == [] then Sound(table, start, start, start, rows)
            else table[0] <= table[|table| - 1] && table[|table| - 1] in committed
                 && Sound(table, table[0], table[|table| - 1] + 1, start, rows)
  {
    hide From;
    assert forall k :: 0 <= k < |table| ==> table[k] in table;
  }

  lemma ReusableNone(tailStart: nat, tailEnd: nat, completeFrom: nat, start: nat)
    ensures Reusable(None, tailStart, tailEnd, completeFrom, start).None?
  {
  }

  lemma CachedTail(tail: Option<seq<nat>>, tailStart: nat, tailEnd: nat, completeFrom: nat, buffer: seq<nat>, start: nat)
    requires tail.Some? ==> Sound(tail.value, tailStart, tailEnd, completeFrom, buffer)
    requires Reusable(tail, tailStart, tailEnd, completeFrom, start).Some?
    ensures tail.Some? && completeFrom <= start <= tailEnd
    ensures var kept := Reusable(tail, tailStart, tailEnd, completeFrom, start).value;
      && Increasing(kept) && (forall o :: o in kept <==> o in tail.value && o >= start)
      && (forall o <- kept :: o < tailEnd)
  {
    ReusableExact(tail.value, tailStart, tailEnd, completeFrom, buffer, start);
  }

  lemma JoinIncreasing(a: seq<nat>, b: seq<nat>, mid: nat)
    requires Increasing(a) && Increasing(b) && (forall o <- a :: o < mid) && (forall o <- b :: o >= mid)
    ensures Increasing(a + b)
  {
    forall i, j | 0 <= i < j < |a + b| ensures (a + b)[i] < (a + b)[j] {
      if i < |a| <= j { assert a[i] in a && b[j - |a|] in b; }
    }
  }

  lemma ExactWhenKept(table: seq<nat>, rows: seq<nat>, start: nat, committed: set<nat>)
    requires Increasing(table) && Increasing(rows)
    requires forall o <- table :: start <= o && o in committed
    requires forall o <- rows :: o >= start ==> o in table
    ensures (forall o <- committed :: o >= start ==> o in rows) ==> table == From(rows, start)
  {
    if forall o <- committed :: o >= start ==> o in rows {
      FromIn(rows, start);
      FromIncreasing(rows, start);
      SameRows(table, From(rows, start));
    }
  }

  // ----- rows that have left the buffer -----

  /** No offset is missing from the cached rows on the way to `start`. */
  ghost predicate Unbroken(tail: seq<nat>, tailStart: nat, start: nat) {
    forall o :: tailStart <= o <= start ==> o in tail
  }

  /** Rows in order and without a hole sit at their distance from the first. */
  lemma {:induction false} DenseAt(tail: seq<nat>, k: nat)
    requires Increasing(tail) && tail != [] && Unbroken(tail, tail[0], tail[0] + k)
    ensures k < |tail| && tail[k] == tail[0] + k
  {
    if k > 0 {
      DenseAt(tail, k - 1);
      assert tail[0] + k in tail;
      var m :| 0 <= m < |tail| && tail[m] == tail[0] + k;
    }
  }

  /** And rows in order that sit at their distance from the first have no hole. */
  lemma {:induction false} AtDense(tail: seq<nat>, k: nat)
    requires Increasing(tail) && k < |tail| && tail[k] == tail[0] + k
    ensures Unbroken(tail, tail[0], tail[0] + k)
  {
    if k > 0 {
      Apart(tail, k - 1);
      AtDense(tail, k - 1);
    }
  }

  lemma {:induction false} Apart(tail: seq<nat>, k: nat)
    requires Increasing(tail) && k < |tail|
    ensures tail[k] >= tail[0] + k
  {
    if k > 0 { Apart(tail, k - 1); }
  }

  /** The cache serves a read below its end exactly when it is complete from there and
      its rows have no hole on the way. */
  lemma {:induction false} ReusableIff(tail: seq<nat>, tailStart: nat, tailEnd: nat, completeFrom: nat, buffer: seq<nat>, start: nat)
    requires Sound(tail, tailStart, tailEnd, completeFrom, buffer)
    requires tail != [] && start < tailEnd
    ensures Reusable(Some(tail), tailStart, tailEnd, completeFrom, start).Some?
            <==> completeFrom <= start && Unbroken(tail, tailStart, start)
  {
    hide Increasing;
    if start > tailStart {
      var k := start - tailStart;
      if k < |tail| {
        assert tail[k..][0] == tail[k];
        if tail[k] == start { AtDense(tail, k); }
      }
      if Unbroken(tail, tailStart, start) { DenseAt(tail, k); }
    } else {
      assert tail[0..] == tail;
      assert tailStart in tail;
    }
  }

  /** A row no longer in the buffer is answered exactly when it is cached, is at or above
      the start, and the cache is complete from the start with no hole up to it. */
  lemma {:induction false} GoneAnswered(tail: seq<nat>, tailStart: nat, tailEnd: nat, completeFrom: nat, rows: seq<nat>,
                                        start: nat, o: nat)
    requires Sound(tail, tailStart, tailEnd, completeFrom, rows)
    requires tail == [] ==> tailEnd <= completeFrom
    requires Increasing(rows) && o !in rows
    ensures o in Answer(Some(tail), tailStart, tailEnd, completeFrom, rows, start)
            <==> o in tail && o >= start && completeFrom <= start && Unbroken(tail, tailStart, start)
  {
    FromIn(rows, start);
    FromIn(rows, tailEnd);
    TailBelow(tail, tailStart, tailEnd);
    hide Increasing, From, Unbroken;
    if Reusable(Some(tail), tailStart, tailEnd, completeFrom, start).Some? {
      ReusableExact(tail, tailStart, tailEnd, completeFrom, rows, start);
    }
    if tail != [] && start < tailEnd {
      hide Reusable, Sound;
      ReusableIff(tail, tailStart, tailEnd, completeFrom, rows, start);
    }
  }

  /** Whatever leaves the buffer between two reads from one boundary, the second answers
      as the first did: rows gone by then are answered again. */
  method EvictedAnswered(buffer: Buffer, boundary: Option<nat>, from: nat, to: nat) returns (first: seq<nat>, again: seq<nat>)
    requires buffer.Valid()
    modifies buffer
    ensures buffer.Valid()
    ensures forall o :: o in buffer.rows <==> o in old(buffer.rows) && !(from <= o < to)
    ensures forall o <- old(buffer.rows) :: o >= (if boundary.None? then 0 else boundary.value) ==> o in again
    ensures again == first
  {
    hide Increasing, From, Reusable, Answer, Sound;
    first := buffer.RowsFrom(boundary);
    ghost var start := if boundary.None? then 0 else boundary.value;
    buffer.Evict(from, to);
    SameAgain(first, start, buffer.rows);
    hide Answers;
    again := buffer.RowsFrom(boundary);
  }

  /** A cache just filled from `start` answers a read from `start` with itself. */
  lemma {:induction false} SameAgain(table: seq<nat>, start: nat, rows: seq<nat>)
    requires Increasing(table) && (forall o <- table :: start <= o)
    requires forall o <- rows :: o >= start ==> o in table
    ensures if table == [] then Answer(Some(table), start, start, start, rows, start) == table
            else Answer(Some(table), table[0], table[|table| - 1] + 1, start, rows, start) == table
  {
    var first := if table == [] then start else table[0];
    var end := if table == [] then start else table[|table| - 1] + 1;
    assert table != [] ==> table[0] in table;
    NoneAbove(table, start, end, rows);
    hide From, Increasing;
    assert table[0..] == table && table + [] == table;
    assert Reusable(Some(table), first, end, start, start) == Some(table);
  }

  lemma NoneAbove(table: seq<nat>, start: nat, end: nat, rows: seq<nat>)
    requires Increasing(table) && start <= end && (table != [] ==> end == table[|table| - 1] + 1)
    requires table == [] ==> end == start
    requires forall o <- rows :: o >= start ==> o in table
    ensures From(rows, end) == []
  {
    forall o <- rows ensures o < end {
      if o >= start {
        var k :| 0 <= k < |table| && table[k] == o;
      }
    }
    FromNone(rows, end);
  }

  lemma {:induction false} FromNone(rows: seq<nat>, end: nat)
    requires forall o <- rows :: o < end
    ensures From(rows, end) == []
  {
    if rows != [] {
      assert rows[0] in rows && forall o <- rows[1..] :: o in rows;
      FromNone(rows[1..], end);
    }
  }
}
