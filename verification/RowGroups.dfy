/** Rows cut into row groups: by `Chunks` anywhere, by `RowGroups` between inputs
    wherever an input is small enough to stay whole.

    `weigh` is the size in memory of a table holding some rows.
 */
module RowGroups {
  import opened Options

  datatype Row = Row(offset: nat, key: int, payload: nat)

  function Concat<T>(parts: seq<seq<T>>): seq<T> {
    if parts == [] then [] else parts[0] + Concat(parts[1..])
  }

  lemma {:induction false} ConcatAppend<T>(a: seq<seq<T>>, b: seq<seq<T>>)
    ensures Concat(a + b) == Concat(a) + Concat(b)
  {
    if a == [] {
      assert a + b == b;
    } else {
      assert (a + b)[1..] == a[1..] + b;
      ConcatAppend(a[1..], b);
    }
  }

  lemma ConcatOne<T>(a: seq<seq<T>>, part: seq<T>)
    ensures Concat(a + [part]) == Concat(a) + part
  {
    ConcatAppend(a, [part]);
    assert Concat([part]) == part + Concat([]);
  }

  // ----- a row at a time -----

  predicate Reached(measured: nat, count: nat, size: nat, cap: Option<nat>) {
    measured >= size || (cap.Some? && count >= cap.value)
  }

  /** Row groups cut where a row at a time would cut them: on the first row that
      brings the group to `size`, or to `cap` rows. */
  function Greedy(rows: seq<Row>, costs: seq<nat>, size: nat, cap: Option<nat>,
                  held: seq<Row>, measured: nat): seq<seq<Row>>
    requires |rows| == |costs|
  {
    if rows == [] then
      if held == [] then [] else [held]
    else
      var held' := held + [rows[0]];
      var measured' := measured + costs[0];
      if Reached(measured', |held'|, size, cap)
      then [held'] + Greedy(rows[1..], costs[1..], size, cap, [], 0)
      else Greedy(rows[1..], costs[1..], size, cap, held', measured')
  }

  function Sum(costs: seq<nat>): nat {
    if costs == [] then 0 else costs[0] + Sum(costs[1..])
  }

  lemma {:induction false} SumAppend(a: seq<nat>, b: seq<nat>)
    ensures Sum(a + b) == Sum(a) + Sum(b)
  {
    if a == [] {
      assert a + b == b;
    } else {
      assert (a + b)[1..] == a[1..] + b;
      SumAppend(a[1..], b);
    }
  }

  /** A group holds some rows, no more than the cap, and without its last row it is
      within the budget: so it overshoots by less than that row. */
  ghost predicate Within(group: seq<Row>, costs: seq<nat>, size: nat, cap: Option<nat>) {
    && |group| == |costs| > 0
    && (cap.Some? ==> |group| <= cap.value)
    && (|group| == 1 || Sum(costs[..|costs| - 1]) < size)
  }

  /** Every group but the last is full: it reached the budget or the cap. */
  ghost predicate Complete(group: seq<Row>, costs: seq<nat>, size: nat, cap: Option<nat>) {
    Reached(Sum(costs), |group|, size, cap)
  }

  lemma {:induction false} GreedyKeepsRows(rows: seq<Row>, costs: seq<nat>, size: nat, cap: Option<nat>,
                                           held: seq<Row>, measured: nat)
    requires |rows| == |costs|
    ensures Concat(Greedy(rows, costs, size, cap, held, measured)) == held + rows
    decreases |rows|
  {
    if rows == [] {
      if held != [] { assert Concat([held]) == held + Concat([]); }
    } else {
      var held' := held + [rows[0]];
      if Reached(measured + costs[0], |held'|, size, cap) {
        GreedyKeepsRows(rows[1..], costs[1..], size, cap, [], 0);
      } else {
        GreedyKeepsRows(rows[1..], costs[1..], size, cap, held', measured + costs[0]);
      }
      assert held + rows == held' + rows[1..];
    }
  }

  /** The costs of the rows each group took. */
  function GreedyCosts(rows: seq<Row>, costs: seq<nat>, size: nat, cap: Option<nat>,
                       held: seq<Row>, paid: seq<nat>): seq<seq<nat>>
    requires |rows| == |costs|
  {
    if rows == [] then
      if held == [] then [] else [paid]
    else
      var held' := held + [rows[0]];
      var paid' := paid + [costs[0]];
      if Reached(Sum(paid'), |held'|, size, cap)
      then [paid'] + GreedyCosts(rows[1..], costs[1..], size, cap, [], [])
      else GreedyCosts(rows[1..], costs[1..], size, cap, held', paid')
  }

  /** Every group is within its limits, and every one but the last is full. */
  ghost predicate Tallied(groups: seq<seq<Row>>, spent: seq<seq<nat>>, size: nat, cap: Option<nat>) {
    && |groups| == |spent|
    && (groups == [] || (
          && Within(groups[0], spent[0], size, cap)
          && (|groups| > 1 ==> Complete(groups[0], spent[0], size, cap))
          && Tallied(groups[1..], spent[1..], size, cap)))
  }

  lemma TallyOne(held: seq<Row>, paid: seq<nat>, row: Row, cost: nat, size: nat, cap: Option<nat>)
    requires |held| == |paid| && (cap.Some? ==> cap.value >= 1)
    requires held == [] || !Reached(Sum(paid), |held|, size, cap)
    ensures Sum(paid + [cost]) == Sum(paid) + cost
    ensures Within(held + [row], paid + [cost], size, cap)
  {
    SumAppend(paid, [cost]);
    assert Sum([cost]) == cost + Sum([]);
    assert (paid + [cost])[..|paid|] == paid;
  }

  lemma TallyLast(held: seq<Row>, paid: seq<nat>, size: nat, cap: Option<nat>)
    requires |held| == |paid| && held != [] && !Reached(Sum(paid), |held|, size, cap)
    ensures Tallied([held], [paid], size, cap)
  {
    SumButLast(paid);
    assert Tallied([], [], size, cap);
  }

  lemma {:induction false} GreedyWithin(rows: seq<Row>, costs: seq<nat>, size: nat, cap: Option<nat>,
                                        held: seq<Row>, paid: seq<nat>)
    requires |rows| == |costs| && |held| == |paid|
    requires cap.Some? ==> cap.value >= 1
    requires held == [] || !Reached(Sum(paid), |held|, size, cap)
    ensures var groups, spent := Greedy(rows, costs, size, cap, held, Sum(paid)),
                                 GreedyCosts(rows, costs, size, cap, held, paid);
      Tallied(groups, spent, size, cap) && Concat(spent) == paid + costs
    decreases |rows|
  {
    hide Within, Sum, Reached;
    if rows == [] {
      if held != [] {
        TallyLast(held, paid, size, cap);
        assert Concat([paid]) == paid + Concat([]);
      }
    } else {
      var held', paid' := held + [rows[0]], paid + [costs[0]];
      TallyOne(held, paid, rows[0], costs[0], size, cap);
      assert paid + costs == paid' + costs[1..];
      if Reached(Sum(paid'), |held'|, size, cap) {
        NoSum();
        GreedyWithin(rows[1..], costs[1..], size, cap, [], []);
        assert [] + costs[1..] == costs[1..];
      } else {
        GreedyWithin(rows[1..], costs[1..], size, cap, held', paid');
      }
    }
  }

  lemma NoSum()
    ensures Sum([]) == 0
  {
  }

  lemma SumButLast(costs: seq<nat>)
    requires costs != []
    ensures Sum(costs[..|costs| - 1]) <= Sum(costs)
  {
    assert costs == costs[..|costs| - 1] + [costs[|costs| - 1]];
    SumAppend(costs[..|costs| - 1], [costs[|costs| - 1]]);
  }

  // ----- a slice at a time -----

  function Repeat(cost: nat, n: nat): (costs: seq<nat>)
    ensures |costs| == n
    ensures forall i :: 0 <= i < n ==> costs[i] == cost
  {
    seq(n, i => cost)
  }

  /** A batch's rows each cost its average, and never nothing. */
  function PerRow(batch: seq<Row>, weigh: seq<Row> -> nat): nat
    requires batch != []
  {
    var average := weigh(batch) / |batch|;
    if average < 1 then 1 else average
  }

  function Costs(batches: seq<seq<Row>>, weigh: seq<Row> -> nat): (costs: seq<nat>)
    ensures |costs| == |Concat(batches)|
  {
    if batches == [] then []
    else (if batches[0] == [] then [] else Repeat(PerRow(batches[0], weigh), |batches[0]|))
         + Costs(batches[1..], weigh)
  }

  /** Taking rows that stop short of the limits only gathers them. */
  lemma {:induction false} Gather(taken: seq<Row>, cost: nat, rows: seq<Row>, costs: seq<nat>, size: nat,
                                  cap: Option<nat>, held: seq<Row>, measured: nat)
    requires |rows| == |costs|
    requires taken == [] || !Reached(measured + cost * |taken|, |held| + |taken|, size, cap)
    ensures Greedy(taken + rows, Repeat(cost, |taken|) + costs, size, cap, held, measured)
            == Greedy(rows, costs, size, cap, held + taken, measured + cost * |taken|)
    decreases |taken|
  {
    if taken == [] {
      assert taken + rows == rows && Repeat(cost, 0) + costs == costs && held + taken == held;
    } else {
      var rest := taken[1..];
      assert (taken + rows)[1..] == rest + rows;
      assert (Repeat(cost, |taken|) + costs)[1..] == Repeat(cost, |rest|) + costs;
      assert held + taken == (held + [taken[0]]) + rest;
      assert cost * |taken| == cost + cost * |rest|;
      assert cost * 1 <= cost * |taken| by { if |rest| > 0 { assert cost * |rest| >= 0; } }
      Gather(rest, cost, rows, costs, size, cap, held + [taken[0]], measured + cost);
    }
  }

  /** How many rows a slice takes: to the end of the batch, the cap or the budget,
      whichever is first, and always one. */
  function Take(left: nat, per: nat, size: nat, cap: Option<nat>, count: nat, measured: nat): (take: nat)
    requires left > 0 && per > 0 && measured <= size && (cap.Some? ==> count < cap.value)
    ensures 1 <= take <= left
  {
    var capped := if cap.Some? && cap.value - count < left then cap.value - count else left;
    var fit := (size - measured) / per;
    var least := if fit < 1 then 1 else fit;
    if least < capped then least else capped
  }

  /** What stops a slice is reached on its last row, never before. */
  lemma TakeStops(left: nat, per: nat, size: nat, cap: Option<nat>, count: nat, measured: nat)
    requires left > 0 && per > 0 && measured <= size && (cap.Some? ==> count < cap.value)
    ensures var take := Take(left, per, size, cap, count, measured);
      take == 1 || !Reached(measured + per * (take - 1), count + take - 1, size, cap)
  {
    var take := Take(left, per, size, cap, count, measured);
    var fit := (size - measured) / per;
    if take > 1 {
      assert take <= fit;
      assert per * take <= per * fit <= size - measured by { Scale(per, take, fit); }
      assert per * (take - 1) == per * take - per;
    }
  }

  lemma Scale(a: nat, b: nat, c: nat)
    requires b <= c
    ensures a * b <= a * c
  {
  }

  /** One slice, whole: its rows gathered, and the group closed if they reached a limit. */
  lemma SliceStep(slice: seq<Row>, cost: nat, rows: seq<Row>, costs: seq<nat>, size: nat,
                  cap: Option<nat>, held: seq<Row>, measured: nat)
    requires |rows| == |costs| && slice != []
    requires |slice| == 1 || !Reached(measured + cost * (|slice| - 1), |held| + |slice| - 1, size, cap)
    ensures
      var held', measured' := held + slice, measured + cost * |slice|;
      Greedy(slice + rows, Repeat(cost, |slice|) + costs, size, cap, held, measured)
      == if Reached(measured', |held'|, size, cap)
         then [held'] + Greedy(rows, costs, size, cap, [], 0)
         else Greedy(rows, costs, size, cap, held', measured')
  {
    hide Greedy, Reached;
    var n := |slice| - 1;
    var first, last := slice[..n], slice[n];
    assert slice + rows == first + ([last] + rows);
    assert Repeat(cost, |slice|) + costs == Repeat(cost, n) + ([cost] + costs);
    Gather(first, cost, [last] + rows, [cost] + costs, size, cap, held, measured);
    assert (held + first) + [last] == held + slice;
    OneMoreCost(cost, n);
    TakeOne(last, cost, rows, costs, size, cap, held + first, measured + cost * n);
  }

  lemma OneMoreCost(cost: nat, n: nat)
    ensures cost * (n + 1) == cost * n + cost
  {
  }

  /** One row taken. */
  lemma TakeOne(row: Row, cost: nat, rows: seq<Row>, costs: seq<nat>, size: nat, cap: Option<nat>,
                held: seq<Row>, measured: nat)
    requires |rows| == |costs|
    ensures var held', measured' := held + [row], measured + cost;
      Greedy([row] + rows, [cost] + costs, size, cap, held, measured)
      == if Reached(measured', |held'|, size, cap)
         then [held'] + Greedy(rows, costs, size, cap, [], 0)
         else Greedy(rows, costs, size, cap, held', measured')
  {
    assert ([row] + rows)[1..] == rows && ([cost] + costs)[1..] == costs;
  }

  /** What `Chunks` yields for an input. */
  function ChunksOf(batches: seq<seq<Row>>, weigh: seq<Row> -> nat, size: nat, cap: Option<nat>): seq<seq<Row>> {
    Greedy(Concat(batches), Costs(batches, weigh), size, cap, [], 0)
  }

  /** What is left to cut, once the rows before `cursor` of the first batch are. */
  ghost predicate Left(whole: seq<seq<Row>>, groups: seq<seq<Row>>, batches: seq<seq<Row>>,
                       weigh: seq<Row> -> nat, cursor: nat, size: nat, cap: Option<nat>,
                       held: seq<Row>, measured: nat)
  {
    && batches != [] && batches[0] != [] && cursor <= |batches[0]|
    && var rest := batches[0][cursor..];
      whole == groups + Greedy(rest + Concat(batches[1..]),
                               Repeat(PerRow(batches[0], weigh), |rest|) + Costs(batches[1..], weigh),
                               size, cap, held, measured)
  }

  /** One turn of the loop over a batch. */
  lemma LeftStep(whole: seq<seq<Row>>, groups: seq<seq<Row>>, batches: seq<seq<Row>>, weigh: seq<Row> -> nat,
                 cursor: nat, take: nat, size: nat, cap: Option<nat>, held: seq<Row>, measured: nat)
    requires Left(whole, groups, batches, weigh, cursor, size, cap, held, measured)
    requires 1 <= take <= |batches[0]| - cursor
    requires var per := PerRow(batches[0], weigh);
      take == 1 || !Reached(measured + per * (take - 1), |held| + take - 1, size, cap)
    ensures var held', measured' := held + batches[0][cursor..cursor + take],
                                    measured + PerRow(batches[0], weigh) * take;
      if Reached(measured', |held'|, size, cap)
      then Left(whole, groups + [held'], batches, weigh, cursor + take, size, cap, [], 0)
      else Left(whole, groups, batches, weigh, cursor + take, size, cap, held', measured')
  {
    hide Greedy, Costs;
    var per, rest := PerRow(batches[0], weigh), batches[0][cursor..];
    var slice, after := batches[0][cursor..cursor + take], batches[0][cursor + take..];
    var rows, costs := after + Concat(batches[1..]), Repeat(per, |after|) + Costs(batches[1..], weigh);
    assert rest + Concat(batches[1..]) == slice + rows;
    assert Repeat(per, |rest|) + Costs(batches[1..], weigh) == Repeat(per, |slice|) + costs;
    SliceStep(slice, per, rows, costs, size, cap, held, measured);
    if Reached(measured + per * take, |held + slice|, size, cap) {
      assert groups + ([held + slice] + Greedy(rows, costs, size, cap, [], 0))
          == (groups + [held + slice]) + Greedy(rows, costs, size, cap, [], 0);
    }
  }

  /** A batch used up gives way to the next. */
  lemma LeftDone(whole: seq<seq<Row>>, groups: seq<seq<Row>>, batches: seq<seq<Row>>, weigh: seq<Row> -> nat,
                 size: nat, cap: Option<nat>, held: seq<Row>, measured: nat)
    requires batches != [] && batches[0] != []
    requires Left(whole, groups, batches, weigh, |batches[0]|, size, cap, held, measured)
    ensures whole == groups + Greedy(Concat(batches[1..]), Costs(batches[1..], weigh), size, cap, held, measured)
  {
    hide Greedy, Costs, Concat;
    var per := PerRow(batches[0], weigh);
    assert batches[0][|batches[0]|..] + Concat(batches[1..]) == Concat(batches[1..]);
    assert Repeat(per, 0) + Costs(batches[1..], weigh) == Costs(batches[1..], weigh);
  }

  lemma LeftOpens(whole: seq<seq<Row>>, groups: seq<seq<Row>>, batches: seq<seq<Row>>, weigh: seq<Row> -> nat,
                  size: nat, cap: Option<nat>, held: seq<Row>, measured: nat)
    requires batches != []
    requires whole == groups + Greedy(Concat(batches), Costs(batches, weigh), size, cap, held, measured)
    ensures if batches[0] == []
      then whole == groups + Greedy(Concat(batches[1..]), Costs(batches[1..], weigh), size, cap, held, measured)
      else Left(whole, groups, batches, weigh, 0, size, cap, held, measured)
  {
    hide Greedy;
    assert Concat(batches) == batches[0] + Concat(batches[1..]);
    if batches[0] == [] {
      assert Concat(batches) == Concat(batches[1..]);
      assert Costs(batches, weigh) == [] + Costs(batches[1..], weigh) == Costs(batches[1..], weigh);
    }
    assert batches[0][0..] == batches[0];
  }

  /** What a row costs: its batch's bytes shared out over the batch's rows, and never
      nothing. Row `p` counts from the first batch's first. */
  function RowCost(batches: seq<seq<Row>>, weigh: seq<Row> -> nat, p: nat): nat
    requires p < |Concat(batches)|
  {
    if p >= |batches[0]| then RowCost(batches[1..], weigh, p - |batches[0]|)
    else if weigh(batches[0]) >= |batches[0]| then weigh(batches[0]) / |batches[0]|
    else 1
  }

  /** What rows `from` to `to` cost together. */
  function Spent(batches: seq<seq<Row>>, weigh: seq<Row> -> nat, from: nat, to: nat): nat
    requires from <= to <= |Concat(batches)|
  {
    if from == to then 0 else Spent(batches, weigh, from, to - 1) + RowCost(batches, weigh, to - 1)
  }

  /** A group of rows `from` to `to`: no more than the cap, within the budget without its
      last row, and at the one or the other with it, unless no rows follow. */
  ghost predicate Budgeted(batches: seq<seq<Row>>, weigh: seq<Row> -> nat, size: nat, cap: Option<nat>, from: nat, to: nat) {
    && from < to <= |Concat(batches)|
    && (cap.Some? ==> to - from <= cap.value)
    && (to - from == 1 || Spent(batches, weigh, from, to - 1) < size)
    && (to == |Concat(batches)| || Spent(batches, weigh, from, to) >= size || (cap.Some? && to - from == cap.value))
  }

  lemma {:induction false} CostAt(batches: seq<seq<Row>>, weigh: seq<Row> -> nat, p: nat)
    requires p < |Concat(batches)|
    ensures Costs(batches, weigh)[p] == RowCost(batches, weigh, p)
  {
    hide Concat;
    assert Concat(batches) == batches[0] + Concat(batches[1..]) by { ConcatFirst(batches); }
    if p >= |batches[0]| {
      CostAt(batches[1..], weigh, p - |batches[0]|);
    } else {
      Average(weigh(batches[0]), |batches[0]|);
    }
  }

  lemma ConcatFirst<T>(parts: seq<seq<T>>)
    ensures parts == [] ==> Concat(parts) == []
    ensures parts != [] ==> Concat(parts) == parts[0] + Concat(parts[1..])
  {
  }

  lemma Average(bytes: nat, n: nat)
    requires n > 0
    ensures bytes / n >= 1 <==> bytes >= n
  {
    var whole := bytes / n;
    assert bytes == n * whole + bytes % n;
    if whole >= 1 { Scale(n, 1, whole); }
  }

  lemma {:induction false} SpentIs(batches: seq<seq<Row>>, weigh: seq<Row> -> nat, from: nat, to: nat)
    requires from <= to <= |Concat(batches)|
    ensures Sum(Costs(batches, weigh)[from..to]) == Spent(batches, weigh, from, to)
  {
    hide RowCost, Concat, Costs;
    var costs := Costs(batches, weigh);
    if from < to {
      SpentIs(batches, weigh, from, to - 1);
      CostAt(batches, weigh, to - 1);
      assert costs[from..to] == costs[from..to - 1] + [costs[to - 1]];
      SumAppend(costs[from..to - 1], [costs[to - 1]]);
      assert Sum([costs[to - 1]]) == costs[to - 1] + Sum([]);
    }
  }

  /** What group `i` took of the costs. */
  lemma {:induction false} TalliedAt(groups: seq<seq<Row>>, spent: seq<seq<nat>>, size: nat, cap: Option<nat>, i: nat)
    requires Tallied(groups, spent, size, cap) && i < |groups|
    ensures Within(groups[i], spent[i], size, cap) && (i < |groups| - 1 ==> Complete(groups[i], spent[i], size, cap))
    ensures var from := |Concat(groups[..i])|;
      && from + |groups[i]| <= |Concat(spent)| && spent[i] == Concat(spent)[from..from + |groups[i]|]
      && (i == |groups| - 1 ==> from + |groups[i]| == |Concat(spent)|)
  {
    hide Concat, Complete, Sum;
    ConcatFirst(spent);
    ConcatFirst(groups[..i]);
    if i > 0 {
      TalliedAt(groups[1..], spent[1..], size, cap, i - 1);
      assert groups[..i][1..] == groups[1..][..i - 1];
    } else {
      ConcatFirst(spent[1..]);
    }
  }

  lemma ChunkBudgeted(batches: seq<seq<Row>>, weigh: seq<Row> -> nat, size: nat, cap: Option<nat>,
                      groups: seq<seq<Row>>, i: nat)
    requires (cap.Some? ==> cap.value >= 1) && groups == ChunksOf(batches, weigh, size, cap) && i < |groups|
    ensures var from := |Concat(groups[..i])|;
      Budgeted(batches, weigh, size, cap, from, from + |groups[i]|)
  {
    hide Greedy, GreedyCosts, Costs, Concat, Sum, Tallied, Spent;
    var rows, costs := Concat(batches), Costs(batches, weigh);
    var spent := GreedyCosts(rows, costs, size, cap, [], []);
    NoSum();
    GreedyWithin(rows, costs, size, cap, [], []);
    assert [] + costs == costs;
    TalliedAt(groups, spent, size, cap, i);
    var from := |Concat(groups[..i])|;
    var to := from + |groups[i]|;
    assert costs[from..to][..to - from - 1] == costs[from..to - 1];
    SpentIs(batches, weigh, from, to);
    SpentIs(batches, weigh, from, to - 1);
  }

  lemma ChunksBudgeted(batches: seq<seq<Row>>, weigh: seq<Row> -> nat, size: nat, cap: Option<nat>,
                       groups: seq<seq<Row>>)
    requires (cap.Some? ==> cap.value >= 1) && groups == ChunksOf(batches, weigh, size, cap)
    ensures Concat(groups) == Concat(batches)
    ensures forall i :: 0 <= i < |groups| ==>
      var from := |Concat(groups[..i])|; Budgeted(batches, weigh, size, cap, from, from + |groups[i]|)
  {
    hide Budgeted, Concat, ChunksOf;
    ChunksKeepRows(batches, weigh, size, cap);
    forall i | 0 <= i < |groups|
      ensures var from := |Concat(groups[..i])|; Budgeted(batches, weigh, size, cap, from, from + |groups[i]|)
    {
      ChunkBudgeted(batches, weigh, size, cap, groups, i);
    }
  }

  /** Groups cut a slice at a time are those a row at a time would give: the rows in order,
      each group within the budget and the cap, and none cut short of both. */
  method Chunks(batches: seq<seq<Row>>, weigh: seq<Row> -> nat, size: nat, cap: Option<nat>)
    returns (groups: seq<seq<Row>>)
    requires cap.Some? ==> cap.value >= 1
    ensures groups == ChunksOf(batches, weigh, size, cap)
    ensures Concat(groups) == Concat(batches)
    ensures forall i :: 0 <= i < |groups| ==>
      var from := |Concat(groups[..i])|; Budgeted(batches, weigh, size, cap, from, from + |groups[i]|)
  {
    hide Greedy, Costs, Concat, Left, Budgeted, Reached, Take, PerRow;
    ghost var whole := ChunksOf(batches, weigh, size, cap);
    groups := [];
    var held, measured: nat := [], 0;
    assert batches[0..] == batches;
    for i := 0 to |batches|
      invariant held == [] ==> measured == 0
      invariant held == [] || !Reached(measured, |held|, size, cap)
      invariant whole == groups + Greedy(Concat(batches[i..]), Costs(batches[i..], weigh), size, cap, held, measured)
    {
      var batch := batches[i];
      assert batches[i..][0] == batch && batches[i..][1..] == batches[i + 1..];
      LeftOpens(whole, groups, batches[i..], weigh, size, cap, held, measured);
      if batch == [] { continue; }
      var per := PerRow(batch, weigh);
      Positive(batch, weigh);
      var cursor := 0;
      while cursor < |batch|
        invariant cursor <= |batch|
        invariant held == [] ==> measured == 0
        invariant held == [] || !Reached(measured, |held|, size, cap)
        invariant Left(whole, groups, batches[i..], weigh, cursor, size, cap, held, measured)
      {
        Room(held, measured, size, cap);
        var take := Take(|batch| - cursor, per, size, cap, |held|, measured);
        TakeStops(|batch| - cursor, per, size, cap, |held|, measured);
        LeftStep(whole, groups, batches[i..], weigh, cursor, take, size, cap, held, measured);
        held := held + batch[cursor..cursor + take];
        measured := measured + per * take;
        cursor := cursor + take;
        if Reached(measured, |held|, size, cap) {
          groups := groups + [held];
          held, measured := [], 0;
        }
      }
      LeftDone(whole, groups, batches[i..], weigh, size, cap, held, measured);
    }
    assert batches[|batches|..] == [];
    Ending(weigh, size, cap, held, measured);
    if held != [] { groups := groups + [held]; }
    ChunksBudgeted(batches, weigh, size, cap, groups);
  }

  lemma Positive(batch: seq<Row>, weigh: seq<Row> -> nat)
    requires batch != []
    ensures PerRow(batch, weigh) > 0
  {
  }

  lemma Room(held: seq<Row>, measured: nat, size: nat, cap: Option<nat>)
    requires (cap.Some? ==> cap.value >= 1) && (held == [] ==> measured == 0)
    requires held == [] || !Reached(measured, |held|, size, cap)
    ensures measured <= size && (cap.Some? ==> |held| < cap.value)
  {
  }

  lemma Ending(weigh: seq<Row> -> nat, size: nat, cap: Option<nat>, held: seq<Row>, measured: nat)
    ensures Greedy(Concat([]), Costs([], weigh), size, cap, held, measured) == if held == [] then [] else [held]
  {
  }

  // ----- row groups -----

  /** A row group, and whether it ends at an input's end. */
  datatype Group = Group(rows: seq<Row>, endsInput: bool)

  type Input = seq<seq<Row>>

  /** The row limit that stands for none. */
  const NO_ROW_LIMIT: nat := 0x4000_0000_0000_0000

  function Limit(cap: Option<nat>): nat {
    if cap.Some? then cap.value else NO_ROW_LIMIT
  }

  /** Several pieces of one input: only the last ends it. */
  function Pieces(pieces: seq<seq<Row>>): (groups: seq<Group>)
    ensures |groups| == |pieces|
  {
    if pieces == [] then [] else [Group(pieces[0], |pieces| == 1)] + Pieces(pieces[1..])
  }

  function Flush(held: seq<Row>): seq<Group> {
    if held == [] then [] else [Group(held, true)]
  }

  /** Whole inputs gathered while they fit; an input of several pieces stands alone. */
  function Gathered(inputs: seq<Input>, weigh: seq<Row> -> nat, size: nat, cap: Option<nat>,
                    held: seq<Row>, measured: nat): seq<Group>
  {
    if inputs == [] then Flush(held)
    else
      var pieces := ChunksOf(inputs[0], weigh, size, cap);
      if |pieces| == 0 then Gathered(inputs[1..], weigh, size, cap, held, measured)
      else if |pieces| == 1 then
        var bytes := weigh(pieces[0]);
        if measured + bytes > size || |held| + |pieces[0]| > Limit(cap)
        then Flush(held) + Gathered(inputs[1..], weigh, size, cap, pieces[0], bytes)
        else Gathered(inputs[1..], weigh, size, cap, held + pieces[0], measured + bytes)
      else
        Flush(held) + Pieces(pieces) + Gathered(inputs[1..], weigh, size, cap, [], 0)
  }

  predicate Over(piece: seq<Row>, weigh: seq<Row> -> nat, size: nat, cap: Option<nat>, held: seq<Row>, measured: nat) {
    measured + weigh(piece) > size || |held| + |piece| > Limit(cap)
  }

  /** One turn of the loop over inputs. */
  lemma GatherTurn(groups: seq<Group>, inputs: seq<Input>, weigh: seq<Row> -> nat, size: nat, cap: Option<nat>,
                   held: seq<Row>, measured: nat)
    requires inputs != [] && (held == [] ==> measured == 0)
    ensures
      var left := groups + Gathered(inputs, weigh, size, cap, held, measured);
      var pieces, rest := ChunksOf(inputs[0], weigh, size, cap), inputs[1..];
      left == if |pieces| == 0 then groups + Gathered(rest, weigh, size, cap, held, measured)
              else if |pieces| > 1 then
                (groups + Flush(held)) + Pieces(pieces) + Gathered(rest, weigh, size, cap, [], 0)
              else if held != [] && Over(pieces[0], weigh, size, cap, held, measured) then
                (groups + [Group(held, true)]) + Gathered(rest, weigh, size, cap, [] + pieces[0], 0 + weigh(pieces[0]))
              else groups + Gathered(rest, weigh, size, cap, held + pieces[0], measured + weigh(pieces[0]))
  {
    hide ChunksOf, Pieces, Limit, Gathered;
    OneTurn(inputs, weigh, size, cap, held, measured);
    var pieces, rest := ChunksOf(inputs[0], weigh, size, cap), inputs[1..];
    if |pieces| == 1 {
      assert [] + pieces[0] == pieces[0];
    }
  }

  lemma OneTurn(inputs: seq<Input>, weigh: seq<Row> -> nat, size: nat, cap: Option<nat>,
                   held: seq<Row>, measured: nat)
    requires inputs != []
    ensures var pieces, rest := ChunksOf(inputs[0], weigh, size, cap), inputs[1..];
      Gathered(inputs, weigh, size, cap, held, measured)
      == if |pieces| == 0 then Gathered(rest, weigh, size, cap, held, measured)
         else if |pieces| > 1 then Flush(held) + Pieces(pieces) + Gathered(rest, weigh, size, cap, [], 0)
         else if Over(pieces[0], weigh, size, cap, held, measured) then
           Flush(held) + Gathered(rest, weigh, size, cap, pieces[0], weigh(pieces[0]))
         else Gathered(rest, weigh, size, cap, held + pieces[0], measured + weigh(pieces[0]))
  {
    hide ChunksOf, Pieces, Limit, Flush;
  }

  method RowGroups(inputs: seq<Input>, weigh: seq<Row> -> nat, size: nat, cap: Option<nat>)
    returns (groups: seq<Group>)
    requires cap.Some? ==> cap.value >= 1
    ensures groups == Gathered(inputs, weigh, size, cap, [], 0)
    // The rows in order, broken only where they may be; each group within its limits, and
    // no two in a row that could have been one.
    ensures Rows(groups) == RowsOf(inputs) && Fits(groups, 0, InputEnds(inputs, 0))
    ensures AllSized(groups, inputs, weigh, size, cap) && AllApart(groups, inputs, weigh, size, cap)
  {
    hide Gathered, ChunksOf, Over, Rows, RowsOf, Fits, InputEnds, AllSized, AllApart;
    ghost var whole := Gathered(inputs, weigh, size, cap, [], 0);
    groups := [];
    var held, measured: nat := [], 0;
    assert inputs[0..] == inputs;
    for i := 0 to |inputs|
      invariant held == [] ==> measured == 0
      invariant whole == groups + Gathered(inputs[i..], weigh, size, cap, held, measured)
    {
      assert inputs[i..][0] == inputs[i] && inputs[i..][1..] == inputs[i + 1..];
      GatherTurn(groups, inputs[i..], weigh, size, cap, held, measured);
      var pieces := Chunks(inputs[i], weigh, size, cap);
      if |pieces| == 0 { continue; }
      if |pieces| == 1 {
        PieceHeld(inputs[i], weigh, size, cap);
        var piece := pieces[0];
        assert piece in pieces;
        if held != [] && Over(piece, weigh, size, cap, held, measured) {
          groups := groups + [Group(held, true)];
          held, measured := [], 0;
        }
        held := held + piece;
        measured := measured + weigh(piece);
        continue;
      }
      if held != [] {
        groups := groups + [Group(held, true)];
        held, measured := [], 0;
      }
      var cut := EndLast(pieces);
      groups := groups + cut;
    }
    assert inputs[|inputs|..] == [];
    Closing(weigh, size, cap, held, measured);
    if held != [] { groups := groups + [Group(held, true)]; }
    GroupsSound(inputs, weigh, size, cap);
    GroupsSized(inputs, weigh, size, cap);
  }

  /** Each piece but the last goes out unflagged, the last flagged. */
  method EndLast(pieces: seq<seq<Row>>) returns (groups: seq<Group>)
    ensures groups == Pieces(pieces)
  {
    groups := [];
    for j := 0 to |pieces|
      invariant Pieces(pieces) == groups + Pieces(pieces[j..])
    {
      groups := groups + [Group(pieces[j], j + 1 == |pieces|)];
    }
  }

  lemma Closing(weigh: seq<Row> -> nat, size: nat, cap: Option<nat>, held: seq<Row>, measured: nat)
    ensures Gathered([], weigh, size, cap, held, measured) == Flush(held)
  {
  }

  /** No piece is empty. */
  lemma {:induction false} PieceHeld(batches: seq<seq<Row>>, weigh: seq<Row> -> nat, size: nat, cap: Option<nat>)
    requires cap.Some? ==> cap.value >= 1
    ensures forall piece <- ChunksOf(batches, weigh, size, cap) :: piece != []
  {
    var rows, costs := Concat(batches), Costs(batches, weigh);
    GreedyWithin(rows, costs, size, cap, [], []);
    TalliedHeld(Greedy(rows, costs, size, cap, [], 0), GreedyCosts(rows, costs, size, cap, [], []), size, cap);
  }

  lemma {:induction false} TalliedHeld(groups: seq<seq<Row>>, spent: seq<seq<nat>>, size: nat, cap: Option<nat>)
    requires Tallied(groups, spent, size, cap)
    ensures forall group <- groups :: group != []
  {
    if groups != [] {
      TalliedHeld(groups[1..], spent[1..], size, cap);
      assert groups == [groups[0]] + groups[1..];
    }
  }

  // ----- what the groups are -----

  function Rows(groups: seq<Group>): seq<Row> {
    if groups == [] then [] else groups[0].rows + Rows(groups[1..])
  }

  function RowsOf(inputs: seq<Input>): seq<Row> {
    if inputs == [] then [] else Concat(inputs[0]) + RowsOf(inputs[1..])
  }

  lemma {:induction false} RowsAppend(a: seq<Group>, b: seq<Group>)
    ensures Rows(a + b) == Rows(a) + Rows(b)
  {
    if a == [] {
      assert a + b == b;
    } else {
      assert (a + b)[1..] == a[1..] + b;
      RowsAppend(a[1..], b);
    }
  }

  /** How far into the rows each input ends. */
  function InputEnds(inputs: seq<Input>, from: nat): set<nat> {
    if inputs == [] then {}
    else {from + |Concat(inputs[0])|} + InputEnds(inputs[1..], from + |Concat(inputs[0])|)
  }

  lemma {:induction false} EndsBeyond(inputs: seq<Input>, from: nat)
    ensures forall e <- InputEnds(inputs, from) :: from <= e
  {
    if inputs != [] { EndsBeyond(inputs[1..], from + |Concat(inputs[0])|); }
  }

  /** A group from `from` rows in is not empty; a flagged one ends where an input ends
      and an unflagged one never does; and one that runs past an input's end starts at
      one and ends at one. */
  ghost predicate Fit(group: Group, from: nat, ends: set<nat>) {
    var to := from + |group.rows|;
    && from < to
    && (group.endsInput <==> to in ends)
    && (forall e <- ends | from < e < to :: group.endsInput && (from == 0 || from in ends))
  }

  ghost predicate Fits(groups: seq<Group>, from: nat, ends: set<nat>) {
    groups == [] || (Fit(groups[0], from, ends) && Fits(groups[1..], from + |groups[0].rows|, ends))
  }

  lemma {:induction false} FitsAppend(a: seq<Group>, b: seq<Group>, from: nat, ends: set<nat>)
    requires Fits(a, from, ends) && Fits(b, from + |Rows(a)|, ends)
    ensures Fits(a + b, from, ends)
  {
    hide Fit;
    if a == [] {
      assert a + b == b;
    } else {
      assert (a + b)[1..] == a[1..] + b;
      FitsAppend(a[1..], b, from + |a[0].rows|, ends);
    }
  }

  lemma {:induction false} PiecesFit(pieces: seq<seq<Row>>, from: nat, ends: set<nat>)
    requires forall piece <- pieces :: piece != []
    requires pieces != [] ==> from + |Concat(pieces)| in ends
    requires forall e <- ends :: e <= from || from + |Concat(pieces)| <= e
    ensures Fits(Pieces(pieces), from, ends) && Rows(Pieces(pieces)) == Concat(pieces)
  {
    if pieces != [] {
      assert pieces[0] in pieces;
      var to := from + |pieces[0]|;
      assert Concat(pieces) == pieces[0] + Concat(pieces[1..]);
      assert |pieces| > 1 ==> Concat(pieces[1..]) != [] by {
        if |pieces| > 1 { assert pieces[1] in pieces && Concat(pieces[1..]) == pieces[1] + Concat(pieces[1..][1..]); }
      }
      assert forall piece <- pieces[1..] :: piece in pieces;
      PiecesFit(pieces[1..], to, ends);
    }
  }

  lemma {:induction false} PiecesRows(pieces: seq<seq<Row>>)
    ensures Rows(Pieces(pieces)) == Concat(pieces)
  {
    if pieces != [] { PiecesRows(pieces[1..]); }
  }

  lemma ChunksKeepRows(batches: seq<seq<Row>>, weigh: seq<Row> -> nat, size: nat, cap: Option<nat>)
    ensures Concat(ChunksOf(batches, weigh, size, cap)) == Concat(batches)
  {
    GreedyKeepsRows(Concat(batches), Costs(batches, weigh), size, cap, [], 0);
  }

  lemma FlushRows(held: seq<Row>)
    ensures Rows(Flush(held)) == held
  {
    if held != [] { assert Rows([Group(held, true)]) == held + Rows([]); }
  }

  /** The three ways an input joins what is gathered. */
  lemma {:induction false} GatherStep(inputs: seq<Input>, weigh: seq<Row> -> nat, size: nat, cap: Option<nat>,
                                      held: seq<Row>, measured: nat)
    requires inputs != [] && (cap.Some? ==> cap.value >= 1)
    ensures
      var groups, rest := Gathered(inputs, weigh, size, cap, held, measured), inputs[1..];
      var piece := Concat(inputs[0]);
      var pieces := ChunksOf(inputs[0], weigh, size, cap);
      if piece == [] then groups == Gathered(rest, weigh, size, cap, held, measured)
      else if |pieces| > 1 then
        && groups == Flush(held) + Pieces(pieces) + Gathered(rest, weigh, size, cap, [], 0)
        && Rows(Pieces(pieces)) == piece
      else if Over(piece, weigh, size, cap, held, measured)
      then groups == Flush(held) + Gathered(rest, weigh, size, cap, piece, weigh(piece))
      else groups == Gathered(rest, weigh, size, cap, held + piece, measured + weigh(piece))
  {
    hide ChunksOf, Limit, Flush, Rows;
    var pieces := ChunksOf(inputs[0], weigh, size, cap);
    ChunksKeepRows(inputs[0], weigh, size, cap);
    PieceHeld(inputs[0], weigh, size, cap);
    PiecesRows(pieces);
    if |pieces| == 1 { assert pieces[0] in pieces && Concat(pieces) == pieces[0] + Concat(pieces[1..]) == pieces[0]; }
    if |pieces| > 1 { assert pieces[0] in pieces && Concat(pieces) == pieces[0] + Concat(pieces[1..]); }
  }

  lemma Regroup(held: seq<Row>, piece: seq<Row>, rest: seq<Row>)
    ensures (held + piece) + rest == held + (piece + rest)
  {
  }

  /** The groups hold the inputs' rows, in order. */
  lemma {:induction false} GatheredKeepsRows(inputs: seq<Input>, weigh: seq<Row> -> nat, size: nat, cap: Option<nat>,
                                             held: seq<Row>, measured: nat)
    requires cap.Some? ==> cap.value >= 1
    ensures Rows(Gathered(inputs, weigh, size, cap, held, measured)) == held + RowsOf(inputs)
    decreases |inputs|
  {
    hide ChunksOf, Flush, Rows, Concat, Pieces, Over, Limit;
    FlushRows(held);
    if inputs == [] {
      assert held + RowsOf(inputs) == held;
    } else {
      hide Gathered;
      var pieces, rest, piece := ChunksOf(inputs[0], weigh, size, cap), inputs[1..], Concat(inputs[0]);
      GatherStep(inputs, weigh, size, cap, held, measured);
      Regroup(held, piece, RowsOf(rest));
      hide RowsOf;
      if piece == [] {
        GatheredKeepsRows(rest, weigh, size, cap, held, measured);
        assert held + piece == held;
      } else if |pieces| > 1 {
        GatheredKeepsRows(rest, weigh, size, cap, [], 0);
        var tail := Gathered(rest, weigh, size, cap, [], 0);
        RowsAppend(Flush(held) + Pieces(pieces), tail);
        RowsAppend(Flush(held), Pieces(pieces));
        assert [] + RowsOf(rest) == RowsOf(rest);
      } else if Over(piece, weigh, size, cap, held, measured) {
        GatheredKeepsRows(rest, weigh, size, cap, piece, weigh(piece));
        RowsAppend(Flush(held), Gathered(rest, weigh, size, cap, piece, weigh(piece)));
      } else {
        GatheredKeepsRows(rest, weigh, size, cap, held + piece, measured + weigh(piece));
      }
    }
  }

  lemma FlushFits(held: seq<Row>, from: nat, ends: set<nat>)
    requires |held| <= from && (held != [] ==> from in ends)
    requires from == |held| || from - |held| in ends
    ensures Fits(Flush(held), from - |held|, ends)
  {
    if held != [] { assert Fits([], from, ends); }
  }

  lemma {:induction false} AfterPieces(input: Input, weigh: seq<Row> -> nat, size: nat, cap: Option<nat>,
                                       held: seq<Row>, tail: seq<Group>, from: nat, ends: set<nat>)
    requires cap.Some? ==> cap.value >= 1
    requires |held| <= from && Fits(Flush(held), from - |held|, ends)
    requires var to := from + |Concat(input)|;
      to in ends && (forall e <- ends :: e <= from || to <= e) && Fits(tail, to, ends)
    ensures Fits(Flush(held) + Pieces(ChunksOf(input, weigh, size, cap)) + tail, from - |held|, ends)
  {
    hide ChunksOf, Rows, Concat, Pieces, Over, Fits, Flush;
    var pieces := ChunksOf(input, weigh, size, cap);
    FlushRows(held);
    ChunksKeepRows(input, weigh, size, cap);
    PieceHeld(input, weigh, size, cap);
    PiecesFit(pieces, from, ends);
    FitsAppend(Pieces(pieces), tail, from, ends);
    FitsAppend(Flush(held), Pieces(pieces) + tail, from - |held|, ends);
    assert Flush(held) + Pieces(pieces) + tail == Flush(held) + (Pieces(pieces) + tail);
  }

  /** The ends not yet passed at `from` are those of the inputs still to come. */
  ghost predicate Ahead(inputs: seq<Input>, from: nat, ends: set<nat>) {
    && InputEnds(inputs, from) <= ends
    && (forall e <- ends :: e <= from || e in InputEnds(inputs, from))
  }

  lemma {:induction false} AheadNext(inputs: seq<Input>, from: nat, ends: set<nat>)
    requires inputs != [] && Ahead(inputs, from, ends)
    ensures var to := from + |Concat(inputs[0])|;
      to in ends && Ahead(inputs[1..], to, ends) && (forall e <- ends :: e <= from || to <= e)
  {
    hide Concat;
    EndsBeyond(inputs[1..], from + |Concat(inputs[0])|);
  }

  /** Groups broken only between inputs, or inside one. `held` ends at `from`. */
  lemma {:induction false} GatheredFits(inputs: seq<Input>, weigh: seq<Row> -> nat, size: nat, cap: Option<nat>,
                                        held: seq<Row>, measured: nat, from: nat, ends: set<nat>)
    requires cap.Some? ==> cap.value >= 1
    requires |held| <= from && (held != [] ==> from in ends)
    requires from == |held| || from - |held| in ends
    requires Ahead(inputs, from, ends)
    ensures Fits(Gathered(inputs, weigh, size, cap, held, measured), from - |held|, ends)
    decreases |inputs|
  {
    hide ChunksOf, Rows, Concat, Pieces, Over, Fits, Flush, InputEnds;
    FlushFits(held, from, ends);
    FlushRows(held);
    if inputs == [] {
    } else {
      hide Gathered;
      var pieces, rest, piece := ChunksOf(inputs[0], weigh, size, cap), inputs[1..], Concat(inputs[0]);
      var to := from + |piece|;
      AheadNext(inputs, from, ends);
      hide Ahead;
      GatherStep(inputs, weigh, size, cap, held, measured);
      if piece == [] {
        GatheredFits(rest, weigh, size, cap, held, measured, to, ends);
      } else if |pieces| > 1 {
        GatheredFits(rest, weigh, size, cap, [], 0, to, ends);
        AfterPieces(inputs[0], weigh, size, cap, held, Gathered(rest, weigh, size, cap, [], 0), from, ends);
      } else if Over(piece, weigh, size, cap, held, measured) {
        GatheredFits(rest, weigh, size, cap, piece, weigh(piece), to, ends);
        FitsAppend(Flush(held), Gathered(rest, weigh, size, cap, piece, weigh(piece)), from - |held|, ends);
      } else {
        GatheredFits(rest, weigh, size, cap, held + piece, measured + weigh(piece), to, ends);
      }
    }
  }

  /** What `RowGroups` promises: the rows kept in order, and broken only where it may. */
  lemma GroupsSound(inputs: seq<Input>, weigh: seq<Row> -> nat, size: nat, cap: Option<nat>)
    requires cap.Some? ==> cap.value >= 1
    ensures var groups := Gathered(inputs, weigh, size, cap, [], 0);
      && Rows(groups) == RowsOf(inputs)
      && Fits(groups, 0, InputEnds(inputs, 0))
  {
    hide Gathered, Fits, Rows;
    EndsBeyond(inputs, 0);
    GatheredKeepsRows(inputs, weigh, size, cap, [], 0);
    GatheredFits(inputs, weigh, size, cap, [], 0, 0, InputEnds(inputs, 0));
    assert [] + RowsOf(inputs) == RowsOf(inputs);
  }

  // ----- how large a group is -----

  /** What inputs weigh, each on its own. */
  function Weight(inputs: seq<Input>, weigh: seq<Row> -> nat): nat {
    if inputs == [] then 0
    else (if Concat(inputs[0]) == [] then 0 else weigh(Concat(inputs[0]))) + Weight(inputs[1..], weigh)
  }

  lemma {:induction false} JoinOne(inputs: seq<Input>, input: Input, weigh: seq<Row> -> nat)
    ensures Weight(inputs + [input], weigh)
         == Weight(inputs, weigh) + if Concat(input) == [] then 0 else weigh(Concat(input))
    ensures RowsOf(inputs + [input]) == RowsOf(inputs) + Concat(input)
  {
    hide Concat;
    if inputs == [] {
      assert RowsOf([input]) == Concat(input) + RowsOf([]);
    } else {
      assert (inputs + [input])[1..] == inputs[1..] + [input];
      JoinOne(inputs[1..], input, weigh);
    }
  }

  /** A group of whole inputs: within both limits, or all one input's. */
  ghost predicate Whole(rows: seq<Row>, part: seq<Input>, weigh: seq<Row> -> nat, size: nat, cap: Option<nat>) {
    && rows == RowsOf(part)
    && ((Weight(part, weigh) <= size && |rows| <= Limit(cap)) || exists input <- part :: rows == Concat(input))
  }

  /** A group is whole inputs within both limits, one input, or a piece of one input
      that does not fit in one group. */
  ghost predicate Sized(group: Group, inputs: seq<Input>, weigh: seq<Row> -> nat, size: nat, cap: Option<nat>) {
    || (group.endsInput && exists a, b :: 0 <= a <= b <= |inputs| && Whole(group.rows, inputs[a..b], weigh, size, cap))
    || (exists input <- inputs :: |ChunksOf(input, weigh, size, cap)| > 1
                                  && group.rows in ChunksOf(input, weigh, size, cap))
  }

  /** What is held so far is the rows of inputs `a` to `k`, and fits. */
  ghost predicate Holding(all: seq<Input>, a: nat, k: nat, weigh: seq<Row> -> nat, size: nat, cap: Option<nat>,
                          held: seq<Row>, measured: nat)
  {
    && a <= k <= |all|
    && measured == Weight(all[a..k], weigh) && held == RowsOf(all[a..k])
    && (held == [] || Whole(held, all[a..k], weigh, size, cap))
  }

  lemma {:induction false} HoldMore(all: seq<Input>, a: nat, k: nat, weigh: seq<Row> -> nat, size: nat,
                                    cap: Option<nat>, held: seq<Row>, measured: nat)
    requires k < |all| && Holding(all, a, k, weigh, size, cap, held, measured)
    ensures var piece := Concat(all[k]);
      if piece == [] then Holding(all, a, k + 1, weigh, size, cap, held, measured)
      else
        && Holding(all, k, k + 1, weigh, size, cap, piece, weigh(piece))
        && (Over(piece, weigh, size, cap, held, measured)
            || Holding(all, a, k + 1, weigh, size, cap, held + piece, measured + weigh(piece)))
  {
    hide Concat, Limit;
    var piece := Concat(all[k]);
    assert all[a..k + 1] == all[a..k] + [all[k]];
    JoinOne(all[a..k], all[k], weigh);
    if piece == [] {
      assert held + piece == held;
      if held != [] && !(Weight(all[a..k], weigh) <= size && |held| <= Limit(cap)) {
        var input :| input in all[a..k] && held == Concat(input);
        assert input in all[a..k + 1];
      }
    } else {
      assert all[k..k + 1] == [] + [all[k]];
      JoinOne([], all[k], weigh);
      assert RowsOf([]) + piece == piece;
      assert all[k] in all[k..k + 1];
    }
  }

  ghost predicate AllSized(groups: seq<Group>, all: seq<Input>, weigh: seq<Row> -> nat, size: nat, cap: Option<nat>) {
    forall group <- groups :: Sized(group, all, weigh, size, cap)
  }

  lemma SizedAppend(a: seq<Group>, b: seq<Group>, all: seq<Input>, weigh: seq<Row> -> nat, size: nat, cap: Option<nat>)
    requires AllSized(a, all, weigh, size, cap) && AllSized(b, all, weigh, size, cap)
    ensures AllSized(a + b, all, weigh, size, cap)
  {
    hide Sized;
  }

  lemma HoldNone(all: seq<Input>, k: nat, weigh: seq<Row> -> nat, size: nat, cap: Option<nat>)
    requires k <= |all|
    ensures Holding(all, k, k, weigh, size, cap, [], 0)
  {
    assert all[k..k] == [];
  }

  lemma HeldSized(all: seq<Input>, a: nat, k: nat, weigh: seq<Row> -> nat, size: nat, cap: Option<nat>,
                  held: seq<Row>, measured: nat)
    requires Holding(all, a, k, weigh, size, cap, held, measured)
    ensures AllSized(Flush(held), all, weigh, size, cap)
  {
    hide Whole, Limit;
  }

  lemma {:induction false} PiecesIn(pieces: seq<seq<Row>>)
    ensures forall group <- Pieces(pieces) :: group.rows in pieces
  {
    if pieces != [] {
      PiecesIn(pieces[1..]);
      assert forall piece <- pieces[1..] :: piece in pieces;
    }
  }

  lemma {:induction false} PiecesSized(all: seq<Input>, k: nat, weigh: seq<Row> -> nat, size: nat, cap: Option<nat>)
    requires k < |all| && |ChunksOf(all[k], weigh, size, cap)| > 1
    ensures AllSized(Pieces(ChunksOf(all[k], weigh, size, cap)), all, weigh, size, cap)
  {
    hide Pieces, Whole, ChunksOf;
    PiecesIn(ChunksOf(all[k], weigh, size, cap));
    assert all[k] in all;
  }

  /** Every group fits its limits, unless it is one input, or a piece of one. */
  lemma {:induction false} GatheredSized(all: seq<Input>, a: nat, k: nat, weigh: seq<Row> -> nat, size: nat,
                                         cap: Option<nat>, held: seq<Row>, measured: nat)
    requires cap.Some? ==> cap.value >= 1
    requires k <= |all| && Holding(all, a, k, weigh, size, cap, held, measured)
    ensures AllSized(Gathered(all[k..], weigh, size, cap, held, measured), all, weigh, size, cap)
    decreases |all| - k
  {
    hide ChunksOf, Rows, Concat, Pieces, Over, Flush, AllSized, Limit, Holding, RowsOf, Weight;
    HeldSized(all, a, k, weigh, size, cap, held, measured);
    if k < |all| {
      var pieces, piece := ChunksOf(all[k], weigh, size, cap), Concat(all[k]);
      assert all[k..][0] == all[k] && all[k..][1..] == all[k + 1..];
      GatherStep(all[k..], weigh, size, cap, held, measured);
      hide Gathered;
      HoldMore(all, a, k, weigh, size, cap, held, measured);
      HoldNone(all, k + 1, weigh, size, cap);
      if piece == [] {
        GatheredSized(all, a, k + 1, weigh, size, cap, held, measured);
      } else if |pieces| > 1 {
        PiecesSized(all, k, weigh, size, cap);
        GatheredSized(all, k + 1, k + 1, weigh, size, cap, [], 0);
        SizedAppend(Flush(held), Pieces(pieces), all, weigh, size, cap);
        SizedAppend(Flush(held) + Pieces(pieces), Gathered(all[k + 1..], weigh, size, cap, [], 0), all, weigh, size, cap);
      } else if Over(piece, weigh, size, cap, held, measured) {
        GatheredSized(all, k, k + 1, weigh, size, cap, piece, weigh(piece));
        SizedAppend(Flush(held), Gathered(all[k + 1..], weigh, size, cap, piece, weigh(piece)), all, weigh, size, cap);
      } else {
        GatheredSized(all, a, k + 1, weigh, size, cap, held + piece, measured + weigh(piece));
      }
    }
  }

  lemma GroupsSized(inputs: seq<Input>, weigh: seq<Row> -> nat, size: nat, cap: Option<nat>)
    requires cap.Some? ==> cap.value >= 1
    ensures var groups := Gathered(inputs, weigh, size, cap, [], 0);
      AllSized(groups, inputs, weigh, size, cap) && AllApart(groups, inputs, weigh, size, cap)
  {
    HoldNone(inputs, 0, weigh, size, cap);
    hide *;
    assert inputs[0..] == inputs;
    GatheredSized(inputs, 0, 0, weigh, size, cap, [], 0);
    GatheredApart(inputs, 0, 0, weigh, size, cap, [], 0);
  }

  // ----- that no group stops short -----

  /** A piece of an input too large for one group. */
  ghost predicate InPieces(group: Group, inputs: seq<Input>, weigh: seq<Row> -> nat, size: nat, cap: Option<nat>) {
    exists input <- inputs :: |ChunksOf(input, weigh, size, cap)| > 1 && group.rows in ChunksOf(input, weigh, size, cap)
  }

  /** The first of some whole inputs would take those gathered before it past a limit:
      the bytes, or the rows where the configuration sets a cap. */
  ghost predicate Parted(before: Group, after: Group, inputs: seq<Input>, weigh: seq<Row> -> nat, size: nat, cap: Option<nat>) {
    exists a: nat, b: nat, c: nat :: PartedAt(before, after, inputs, weigh, size, cap, a, b, c)
  }

  ghost predicate PartedAt(before: Group, after: Group, inputs: seq<Input>, weigh: seq<Row> -> nat, size: nat,
                           cap: Option<nat>, a: nat, b: nat, c: nat)
  {
    && a <= b < c <= |inputs|
    && before.rows == RowsOf(inputs[a..b]) && after.rows == RowsOf(inputs[b..c])
    && var rows := |before.rows| + |Concat(inputs[b])|;
      || Weight(inputs[a..b], weigh) + weigh(Concat(inputs[b])) > size
      || rows > (if cap.Some? then cap.value else 0x4000_0000_0000_0000)
  }

  /** Two groups in a row could not have been one, unless an input had to be cut. */
  ghost predicate Apart(before: Group, after: Group, inputs: seq<Input>, weigh: seq<Row> -> nat, size: nat, cap: Option<nat>) {
    || InPieces(before, inputs, weigh, size, cap)
    || InPieces(after, inputs, weigh, size, cap)
    || Parted(before, after, inputs, weigh, size, cap)
  }

  ghost predicate AllApart(groups: seq<Group>, inputs: seq<Input>, weigh: seq<Row> -> nat, size: nat, cap: Option<nat>) {
    forall i :: 0 <= i < |groups| - 1 ==> Apart(groups[i], groups[i + 1], inputs, weigh, size, cap)
  }

  lemma ApartAppend(a: seq<Group>, b: seq<Group>, inputs: seq<Input>, weigh: seq<Row> -> nat, size: nat, cap: Option<nat>)
    requires AllApart(a, inputs, weigh, size, cap) && AllApart(b, inputs, weigh, size, cap)
    requires a != [] && b != [] ==> Apart(a[|a| - 1], b[0], inputs, weigh, size, cap)
    ensures AllApart(a + b, inputs, weigh, size, cap)
  {
    hide Apart;
  }

  /** The group that what is held goes out in: it, and any whole inputs after it. */
  lemma {:induction false} FirstGathered(all: seq<Input>, a: nat, k: nat, weigh: seq<Row> -> nat, size: nat,
                                         cap: Option<nat>, held: seq<Row>, measured: nat)
    returns (c: nat)
    requires cap.Some? ==> cap.value >= 1
    requires k <= |all| && Holding(all, a, k, weigh, size, cap, held, measured) && held != []
    ensures var groups := Gathered(all[k..], weigh, size, cap, held, measured);
      k <= c <= |all| && groups != [] && groups[0].rows == RowsOf(all[a..c])
    decreases |all| - k
  {
    hide ChunksOf, Rows, Concat, Pieces, Over, Limit, RowsOf, Weight;
    c := k;
    if k < |all| {
      var pieces, piece := ChunksOf(all[k], weigh, size, cap), Concat(all[k]);
      assert all[k..][0] == all[k] && all[k..][1..] == all[k + 1..];
      GatherStep(all[k..], weigh, size, cap, held, measured);
      hide Gathered;
      HoldMore(all, a, k, weigh, size, cap, held, measured);
      if piece == [] {
        c := FirstGathered(all, a, k + 1, weigh, size, cap, held, measured);
      } else if |pieces| <= 1 && !Over(piece, weigh, size, cap, held, measured) {
        c := FirstGathered(all, a, k + 1, weigh, size, cap, held + piece, measured + weigh(piece));
      }
    }
  }

  lemma OverParts(all: seq<Input>, a: nat, k: nat, weigh: seq<Row> -> nat, size: nat, cap: Option<nat>,
                  held: seq<Row>, measured: nat, after: Group, c: nat)
    requires k < c <= |all| && Holding(all, a, k, weigh, size, cap, held, measured) && after.rows == RowsOf(all[k..c])
    requires Over(Concat(all[k]), weigh, size, cap, held, measured)
    ensures Apart(Group(held, true), after, all, weigh, size, cap)
  {
    hide Concat, RowsOf, Weight, Whole, ChunksOf;
    assert PartedAt(Group(held, true), after, all, weigh, size, cap, a, k, c);
  }

  lemma PiecesApart(all: seq<Input>, k: nat, weigh: seq<Row> -> nat, size: nat, cap: Option<nat>)
    requires k < |all| && |ChunksOf(all[k], weigh, size, cap)| > 1
    ensures var pieces := Pieces(ChunksOf(all[k], weigh, size, cap));
      && (forall group <- pieces :: InPieces(group, all, weigh, size, cap))
      && AllApart(pieces, all, weigh, size, cap)
  {
    hide Pieces, ChunksOf;
    PiecesIn(ChunksOf(all[k], weigh, size, cap));
    assert all[k] in all;
  }

  lemma FlushApart(held: seq<Row>, all: seq<Input>, weigh: seq<Row> -> nat, size: nat, cap: Option<nat>)
    ensures AllApart(Flush(held), all, weigh, size, cap) && (held != [] ==> Flush(held) == [Group(held, true)])
  {
  }

  lemma {:induction false} GatheredApart(all: seq<Input>, a: nat, k: nat, weigh: seq<Row> -> nat, size: nat,
                                         cap: Option<nat>, held: seq<Row>, measured: nat)
    requires cap.Some? ==> cap.value >= 1
    requires k <= |all| && Holding(all, a, k, weigh, size, cap, held, measured)
    ensures AllApart(Gathered(all[k..], weigh, size, cap, held, measured), all, weigh, size, cap)
    decreases |all| - k
  {
    hide ChunksOf, Rows, Concat, Pieces, Over, Flush, AllApart, Apart, InPieces, Parted, Limit, Holding, RowsOf, Weight;
    FlushApart(held, all, weigh, size, cap);
    if k < |all| {
      var pieces, piece, flush := ChunksOf(all[k], weigh, size, cap), Concat(all[k]), Flush(held);
      assert all[k..][0] == all[k] && all[k..][1..] == all[k + 1..];
      GatherStep(all[k..], weigh, size, cap, held, measured);
      hide Gathered;
      HoldMore(all, a, k, weigh, size, cap, held, measured);
      HoldNone(all, k + 1, weigh, size, cap);
      if piece == [] {
        GatheredApart(all, a, k + 1, weigh, size, cap, held, measured);
      } else if |pieces| > 1 {
        PiecesApart(all, k, weigh, size, cap);
        GatheredApart(all, k + 1, k + 1, weigh, size, cap, [], 0);
        AroundPieces(flush, Pieces(pieces), Gathered(all[k + 1..], weigh, size, cap, [], 0), all, weigh, size, cap);
      } else if Over(piece, weigh, size, cap, held, measured) {
        GatheredApart(all, k, k + 1, weigh, size, cap, piece, weigh(piece));
        var c := FirstGathered(all, k, k + 1, weigh, size, cap, piece, weigh(piece));
        var after := Gathered(all[k + 1..], weigh, size, cap, piece, weigh(piece));
        OverParts(all, a, k, weigh, size, cap, held, measured, after[0], c);
        FlushLast(held);
        ApartAppend(flush, after, all, weigh, size, cap);
      } else {
        GatheredApart(all, a, k + 1, weigh, size, cap, held + piece, measured + weigh(piece));
      }
    }
  }

  lemma FlushLast(held: seq<Row>)
    ensures Flush(held) == [] || (held != [] && Flush(held)[|Flush(held)| - 1] == Group(held, true))
  {
  }

  lemma AroundPieces(flush: seq<Group>, pieces: seq<Group>, after: seq<Group>, all: seq<Input>, weigh: seq<Row> -> nat,
                     size: nat, cap: Option<nat>)
    requires AllApart(flush, all, weigh, size, cap) && AllApart(pieces, all, weigh, size, cap)
    requires AllApart(after, all, weigh, size, cap)
    requires pieces != [] && forall group <- pieces :: InPieces(group, all, weigh, size, cap)
    ensures AllApart(flush + pieces + after, all, weigh, size, cap)
  {
    hide AllApart, InPieces, Parted;
    assert pieces[0] in pieces && pieces[|pieces| - 1] in pieces;
    ApartAppend(flush, pieces, all, weigh, size, cap);
    assert (flush + pieces)[|flush + pieces| - 1] == pieces[|pieces| - 1];
    ApartAppend(flush + pieces, after, all, weigh, size, cap);
  }
}
