/** The equipped-tool table: rows stamped with the time of last use, cut back to a cap by
    deleting the oldest. With a strictly increasing clock it is a move-to-front list. */
module Equipped {
  import opened Wrappers

  datatype Row = Row(schema: string, equippedAt: nat, lastUsedAt: nat)

  type Table = map<string, Row>

  /** Loading again refreshes the schema and the recency, and keeps the first load's time. */
  function EquipRow(t: Table, tool: string, schema: string, now: nat): Table {
    t[tool := Row(schema, if tool in t then t[tool].equippedAt else now, now)]
  }

  function TouchRow(t: Table, tool: string, now: nat): Table {
    if tool in t then t[tool := t[tool].(lastUsedAt := now)] else t
  }

  /** An order the eviction's SELECT may return: every row once, by ascending last use. */
  ghost predicate OldestFirst(t: Table, order: seq<string>) {
    && (forall tool :: tool in order <==> tool in t)
    && (forall i, j :: 0 <= i < j < |order| ==>
          order[i] != order[j] && t[order[i]].lastUsedAt <= t[order[j]].lastUsedAt)
  }

  /** How many rows go: a negative cap empties the table. */
  function Excess(rows: nat, cap: int): nat {
    if rows - cap < 0 then 0 else if rows - cap > rows then rows else rows - cap
  }

  function Cut(t: Table, order: seq<string>, n: nat): Table
    requires n <= |order|
  {
    map tool | tool in t && tool !in order[..n] :: t[tool]
  }

  datatype Event =
    | Equip(tool: string, schema: string, now: nat)
    | Touch(tool: string, now: nat)
    | Evict(order: seq<string>)

  function Step(t: Table, e: Event, cap: int): Table {
    match e
    case Equip(tool, schema, now) => EquipRow(t, tool, schema, now)
    case Touch(tool, now) => TouchRow(t, tool, now)
    case Evict(order) => Cut(t, order, Excess(|order|, cap))
  }

  function Run(t: Table, es: seq<Event>, cap: int): Table {
    if es == [] then t else Step(Run(t, es[..|es| - 1], cap), es[|es| - 1], cap)
  }

  /** Every eviction sees an order the database may return, and the clock strictly increases. */
  ghost predicate Proper(t: Table, es: seq<Event>, cap: int) {
    es != [] ==>
      var before, last := es[..|es| - 1], es[|es| - 1];
      && Proper(t, before, cap)
      && (last.Evict? ==> OldestFirst(Run(t, before, cap), last.order))
      && (!last.Evict? ==> forall tool :: tool in Run(t, before, cap) ==>
                             Run(t, before, cap)[tool].lastUsedAt < last.now)
  }

  // The reference: a list, most recent first.

  function Without(l: seq<string>, tool: string): seq<string> {
    if l == [] then []
    else (if l[0] == tool then [] else [l[0]]) + Without(l[1..], tool)
  }

  function MoveToFront(l: seq<string>, tool: string): seq<string> {
    [tool] + Without(l, tool)
  }

  function Truncate(l: seq<string>, cap: int): seq<string> {
    if cap <= 0 then [] else if |l| <= cap then l else l[..cap]
  }

  function ListStep(l: seq<string>, e: Event, cap: int): seq<string> {
    match e
    case Equip(tool, _, _) => MoveToFront(l, tool)
    case Touch(tool, _) => if tool in l then MoveToFront(l, tool) else l
    case Evict(_) => Truncate(l, cap)
  }

  function ListRun(l: seq<string>, es: seq<Event>, cap: int): seq<string> {
    if es == [] then l else ListStep(ListRun(l, es[..|es| - 1], cap), es[|es| - 1], cap)
  }

  /** The table holds exactly the listed tools, each used strictly later than the next. */
  ghost predicate Refines(t: Table, l: seq<string>) {
    && (forall tool :: tool in l <==> tool in t)
    && NewestFirst(t, l)
  }

  ghost predicate NewestFirst(t: Table, l: seq<string>) {
    && (forall x :: x in l ==> x in t)
    && (forall i, j :: 0 <= i < j < |l| ==> l[i] != l[j] && t[l[i]].lastUsedAt > t[l[j]].lastUsedAt)
  }

  lemma {:induction false} WithoutRemoves(l: seq<string>, tool: string)
    ensures forall x :: x in Without(l, tool) <==> x in l && x != tool
  {
    if l != [] {
      WithoutRemoves(l[1..], tool);
      assert forall x :: x in l <==> x == l[0] || x in l[1..];
    }
  }

  lemma NewestFirstCons(t: Table, x: string, l: seq<string>)
    requires x in t && NewestFirst(t, l) && forall y :: y in l ==> x != y && t[x].lastUsedAt > t[y].lastUsedAt
    ensures NewestFirst(t, [x] + l)
  {
    var m := [x] + l;
    forall i, j | 0 <= i < j < |m| ensures m[i] != m[j] && t[m[i]].lastUsedAt > t[m[j]].lastUsedAt {
      assert m[j] == l[j - 1] && m[j] in l;
      assert i > 0 ==> m[i] == l[i - 1];
    }
  }

  lemma {:induction false} WithoutKeepsTheRest(t: Table, l: seq<string>, tool: string)
    requires NewestFirst(t, l)
    ensures NewestFirst(t, Without(l, tool))
  {
    if l != [] {
      assert NewestFirst(t, l[1..]);
      WithoutKeepsTheRest(t, l[1..], tool);
      if l[0] != tool {
        var rest := Without(l[1..], tool);
        WithoutRemoves(l[1..], tool);
        forall y | y in rest ensures l[0] != y && t[l[0]].lastUsedAt > t[y].lastUsedAt {
          var k :| 0 <= k < |l[1..]| && l[1..][k] == y;
          assert l[k + 1] == y;
        }
        NewestFirstCons(t, l[0], rest);
      }
    }
  }

  lemma NewestFirstDependsOn(t: Table, u: Table, l: seq<string>)
    requires NewestFirst(t, l) && forall x :: x in l ==> x in u && u[x] == t[x]
    ensures NewestFirst(u, l)
  {
  }

  lemma UseRefines(t: Table, l: seq<string>, tool: string, row: Row)
    requires Refines(t, l) && forall x :: x in t ==> t[x].lastUsedAt < row.lastUsedAt
    ensures Refines(t[tool := row], MoveToFront(l, tool))
  {
    WithoutRemoves(l, tool);
    WithoutKeepsTheRest(t, l, tool);
    var rest, u := Without(l, tool), t[tool := row];
    NewestFirstDependsOn(t, u, rest);
    NewestFirstCons(u, tool, rest);
  }

  /** With distinct times there is only one order: the list, backwards. */
  lemma OrderIsTheListBackwards(t: Table, l: seq<string>, order: seq<string>)
    requires Refines(t, l) && OldestFirst(t, order)
    ensures |order| == |l| && forall i :: 0 <= i < |l| ==> order[|l| - 1 - i] == l[i]
  {
    SameLength(l, order);
    BackwardsFrom(t, l, order, 0);
  }

  lemma {:induction false} DistinctCount(l: seq<string>)
    requires forall i, j :: 0 <= i < j < |l| ==> l[i] != l[j]
    ensures |set x | x in l| == |l|
  {
    if l != [] {
      DistinctCount(l[1..]);
      assert (set x | x in l) == {l[0]} + (set x | x in l[1..]);
    }
  }

  lemma SameLength(a: seq<string>, b: seq<string>)
    requires forall x :: x in a <==> x in b
    requires forall i, j :: 0 <= i < j < |a| ==> a[i] != a[j]
    requires forall i, j :: 0 <= i < j < |b| ==> b[i] != b[j]
    ensures |a| == |b|
  {
    DistinctCount(a);
    DistinctCount(b);
    assert (set x | x in a) == (set x | x in b);
  }

  /** If the last n of the order are the first n of the list, so is the next. */
  lemma NextIsTheNewest(t: Table, l: seq<string>, order: seq<string>, n: nat)
    requires Refines(t, l) && OldestFirst(t, order) && n < |l| == |order|
    requires forall i :: 0 <= i < n ==> order[|l| - 1 - i] == l[i]
    ensures order[|l| - 1 - n] == l[n]
  {
    var x, y := l[n], order[|l| - 1 - n];
    assert x in order && y in l;
    var a :| 0 <= a < |l| && order[a] == x;
    var b :| 0 <= b < |l| && l[b] == y;
    forall k | |l| - 1 - n < k < |l| ensures order[k] != x {
      assert order[|l| - 1 - (|l| - 1 - k)] == l[|l| - 1 - k];
    }
    forall i | 0 <= i < n ensures l[i] != y {
      assert order[|l| - 1 - i] == l[i];
    }
  }

  /** The newest `n` of the list are the last `n` of the order, for every `n`. */
  lemma {:induction false} BackwardsFrom(t: Table, l: seq<string>, order: seq<string>, n: nat)
    requires Refines(t, l) && OldestFirst(t, order) && |order| == |l| && n <= |l|
    requires forall i :: 0 <= i < n ==> order[|l| - 1 - i] == l[i]
    ensures forall i :: 0 <= i < |l| ==> order[|l| - 1 - i] == l[i]
    decreases |l| - n
  {
    if n < |l| {
      NextIsTheNewest(t, l, order, n);
      BackwardsFrom(t, l, order, n + 1);
    }
  }

  lemma EvictRefines(t: Table, l: seq<string>, order: seq<string>, cap: int)
    requires Refines(t, l) && OldestFirst(t, order)
    ensures Refines(Cut(t, order, Excess(|order|, cap)), Truncate(l, cap))
  {
    OrderIsTheListBackwards(t, l, order);
    var n, kept := Excess(|order|, cap), Truncate(l, cap);
    assert kept == l[..|l| - n];
    forall tool ensures tool in kept <==> tool in t && tool !in order[..n] {
      if tool in t {
        KeptIffNotCut(l, order, n, tool);
      }
    }
    CutIsNewestFirst(t, l, order, n);
  }

  lemma CutIsNewestFirst(t: Table, l: seq<string>, order: seq<string>, n: nat)
    requires NewestFirst(t, l) && n <= |l| == |order|
    requires forall x :: x in l[..|l| - n] ==> x in Cut(t, order, n)
    ensures NewestFirst(Cut(t, order, n), l[..|l| - n])
  {
  }

  lemma KeptIffNotCut(l: seq<string>, order: seq<string>, n: nat, tool: string)
    requires n <= |l| == |order| && tool in l
    requires forall i :: 0 <= i < |l| ==> order[|l| - 1 - i] == l[i]
    requires forall i, j :: 0 <= i < j < |order| ==> order[i] != order[j]
    ensures tool in l[..|l| - n] <==> tool !in order[..n]
  {
    var i :| 0 <= i < |l| && l[i] == tool;
    var p := |l| - 1 - i;
    assert order[p] == tool;
    if i < |l| - n {
      assert l[..|l| - n][i] == tool;
      assert tool !in order[..n] by {
        assert forall k :: 0 <= k < n ==> order[..n][k] == order[k] != order[p];
      }
    } else {
      assert order[..n][p] == tool;
      var kept := l[..|l| - n];
      forall k | 0 <= k < |kept| ensures kept[k] != tool {
        assert order[|l| - 1 - k] == l[k];
      }
    }
  }

  /** For any sequence of loads, evictions and uses, the stamped table is the move-to-front list
      truncated to the cap. */
  lemma {:induction false} TableRefinesList(es: seq<Event>, cap: int)
    requires Proper(map[], es, cap)
    ensures Refines(Run(map[], es, cap), ListRun([], es, cap))
  {
    if es != [] {
      var before, last := es[..|es| - 1], es[|es| - 1];
      TableRefinesList(before, cap);
      var t, l := Run(map[], before, cap), ListRun([], before, cap);
      match last
      case Equip(tool, schema, now) =>
        UseRefines(t, l, tool, EquipRow(t, tool, schema, now)[tool]);
      case Touch(tool, now) =>
        if tool in t {
          UseRefines(t, l, tool, t[tool].(lastUsedAt := now));
        }
      case Evict(order) => EvictRefines(t, l, order, cap);
    }
  }

  /** A load that is not interrupted. */
  function Load(t: Table, tool: string, schema: string, now: nat, order: seq<string>, cap: int): Table {
    Step(Step(t, Equip(tool, schema, now), cap), Evict(order), cap)
  }

  lemma RefinementCounts(t: Table, l: seq<string>)
    requires Refines(t, l)
    ensures |t| == |l|
  {
    DistinctCount(l);
    assert t.Keys == set x | x in l;
  }

  /** What a truncated list dropped is older than everything it kept. */
  lemma DroppedIsOlder(t: Table, m: seq<string>, cap: int, kept: string, gone: string)
    requires Refines(t, m) && kept in Truncate(m, cap) && gone in m && gone !in Truncate(m, cap)
    ensures kept in t && gone in t && t[gone].lastUsedAt < t[kept].lastUsedAt
  {
    var r := Truncate(m, cap);
    var i :| 0 <= i < |r| && r[i] == kept;
    var j :| 0 <= j < |m| && m[j] == gone;
    assert m[i] == kept && forall k :: 0 <= k < |r| ==> r[k] == m[k];
  }

  /** After each load at most `cap` tools are equipped, the tool just loaded is one of them
      whenever the cap allows any, and the others that remain are the most recently used. */
  lemma LoadKeepsTheMostRecent(
    t: Table, l: seq<string>, tool: string, schema: string, now: nat, order: seq<string>, cap: int)
    requires Refines(t, l) && forall x :: x in t ==> t[x].lastUsedAt < now
    requires OldestFirst(EquipRow(t, tool, schema, now), order)
    ensures var t' := Load(t, tool, schema, now, order, cap);
      && Refines(t', Truncate(MoveToFront(l, tool), cap))
      && |t'| <= (if cap < 0 then 0 else cap)
      && (cap >= 1 ==> tool in t' && t'[tool].schema == schema)
      && (forall kept, gone :: kept in t' && gone in t && gone !in t' ==>
            EquipRow(t, tool, schema, now)[gone].lastUsedAt < t'[kept].lastUsedAt)
  {
    var u, m := EquipRow(t, tool, schema, now), MoveToFront(l, tool);
    UseRefines(t, l, tool, u[tool]);
    EvictRefines(u, m, order, cap);
    var t' := Load(t, tool, schema, now, order, cap);
    RefinementCounts(t', Truncate(m, cap));
    assert cap >= 1 ==> Truncate(m, cap)[0] == tool;
    forall kept, gone | kept in t' && gone in t && gone !in t'
      ensures u[gone].lastUsedAt < t'[kept].lastUsedAt
    {
      DroppedIsOlder(u, m, cap, kept, gone);
    }
  }

  // Times that do not increase: JavaScript dates count milliseconds, and clocks are set back.

  /** Some row was used last no earlier than every other. */
  lemma {:induction false} NewestExists(t: Table) returns (newest: string)
    requires t != map[]
    ensures newest in t && forall x :: x in t ==> t[x].lastUsedAt <= t[newest].lastUsedAt
    decreases |t|
  {
    var x :| x in t;
    var rest := t - {x};
    if rest == map[] {
      newest := x;
      forall y | y in t ensures y == x {
        assert y != x ==> y in rest;
      }
    } else {
      assert rest.Keys == t.Keys - {x};
      newest := NewestExists(rest);
      if t[newest].lastUsedAt < t[x].lastUsedAt {
        newest := x;
      }
      forall y | y in t ensures t[y].lastUsedAt <= t[newest].lastUsedAt {
        assert y != x ==> y in rest;
      }
    }
  }

  lemma OldestFirstSnoc(t: Table, order: seq<string>, x: string)
    requires x in t && OldestFirst(t - {x}, order)
    requires forall y :: y in t ==> t[y].lastUsedAt <= t[x].lastUsedAt
    ensures OldestFirst(t, order + [x])
  {
    var all := order + [x];
    forall i, j | 0 <= i < j < |all|
      ensures all[i] != all[j] && all[i] in t && all[j] in t && t[all[i]].lastUsedAt <= t[all[j]].lastUsedAt
    {
      assert all[i] in order;
      assert j < |order| ==> all[j] in order;
    }
    forall y ensures y in all <==> y in t {
      assert y in t <==> y == x || y in t - {x};
    }
  }

  /** The SELECT always has an order to return. */
  lemma {:induction false} AnOrderExists(t: Table) returns (order: seq<string>)
    ensures OldestFirst(t, order)
    decreases |t|
  {
    if t == map[] {
      order := [];
    } else {
      var x := NewestExists(t);
      assert (t - {x}).Keys == t.Keys - {x};
      var before := AnOrderExists(t - {x});
      OldestFirstSnoc(t, before, x);
      order := before + [x];
    }
  }

  /** The other tools whose stored time is not before the load's: used in the same millisecond, or
      stamped by a clock that was ahead. */
  function NotBefore(t: Table, tool: string, now: nat): set<string> {
    set x | x in t && x != tool && t[x].lastUsedAt >= now
  }

  /** Each list distinct and ascending by last use, the one before the tool, the other not. */
  lemma SortedAround(u: Table, tool: string, first: seq<string>, others: seq<string>)
    requires tool in u && (forall x :: x in first + others ==> x in u)
    requires forall x :: x in first ==> u[x].lastUsedAt < u[tool].lastUsedAt
    requires forall x :: x in others ==> x != tool && u[tool].lastUsedAt <= u[x].lastUsedAt
    requires forall l, i, j :: l in [first, others] && 0 <= i < j < |l| ==>
               l[i] != l[j] && u[l[i]].lastUsedAt <= u[l[j]].lastUsedAt
    ensures var order := first + [tool] + others;
      forall i, j :: 0 <= i < j < |order| ==>
        order[i] in u && order[j] in u && order[i] != order[j] && u[order[i]].lastUsedAt <= u[order[j]].lastUsedAt
  {
    var order := first + [tool] + others;
    forall i, j | 0 <= i < j < |order|
      ensures order[i] in u && order[j] in u
      ensures order[i] != order[j] && u[order[i]].lastUsedAt <= u[order[j]].lastUsedAt
    {
      PlaceInOrder(first, tool, others, i);
      PlaceInOrder(first, tool, others, j);
    }
  }

  /** An order of the table, from an order of the rows before the tool and one of the others. */
  lemma AroundTheTool(u: Table, tool: string, newer: set<string>, first: seq<string>, others: seq<string>)
    requires tool in u && newer == NotBefore(u, tool, u[tool].lastUsedAt)
    requires OldestFirst(u - newer - {tool}, first) && OldestFirst(u - (u.Keys - newer), others)
    ensures OldestFirst(u, first + [tool] + others) && |others| == |newer|
  {
    var before, after := u - newer - {tool}, u - (u.Keys - newer);
    assert forall x :: x in u <==> x in before || x == tool || x in after;
    assert forall x :: x in before ==> u[x] == before[x] && u[x].lastUsedAt < u[tool].lastUsedAt;
    assert forall x :: x in after ==> u[x] == after[x] && x in newer;
    SortedAround(u, tool, first, others);
    DistinctCount(others);
    assert (set x | x in others) == newer;
  }

  lemma PlaceInOrder(first: seq<string>, tool: string, others: seq<string>, i: nat)
    requires i < |first + [tool] + others|
    ensures var x := (first + [tool] + others)[i];
      if i < |first| then x in first && x == first[i]
      else if i == |first| then x == tool
      else x in others && x == others[i - |first| - 1]
  {
  }

  /** Whatever order the SELECT returns, the rows after the loaded tool are not before it. */
  lemma RowsAfterAreNotBefore(u: Table, tool: string, order: seq<string>, p: nat)
    requires tool in u && OldestFirst(u, order) && p < |order| && order[p] == tool
    ensures |order| - 1 - p <= |NotBefore(u, tool, u[tool].lastUsedAt)|
  {
    var after := order[p + 1..];
    DistinctCount(after);
    forall x | x in after ensures x in NotBefore(u, tool, u[tool].lastUsedAt) {
      var i :| 0 <= i < |after| && after[i] == x;
      assert order[p + 1 + i] == x;
    }
    SubsetSize((set x | x in after), NotBefore(u, tool, u[tool].lastUsedAt));
  }

  lemma SubsetSize(a: set<string>, b: set<string>)
    requires a <= b
    ensures |a| <= |b|
  {
    assert b == a + (b - a);
  }

  lemma CutAt(u: Table, order: seq<string>, tool: string, cap: int, p: nat)
    requires OldestFirst(u, order) && p < |order| && order[p] == tool
    ensures tool !in Cut(u, order, Excess(|order|, cap)) <==> |order| - 1 - p >= cap
  {
    var n := Excess(|order|, cap);
    assert p < n ==> order[..n][p] == tool;
    assert p >= n ==> forall k :: 0 <= k < n ==> order[..n][k] != tool;
  }

  lemma EvictedMeansCrowded(u: Table, tool: string, order: seq<string>, cap: int)
    requires OldestFirst(u, order) && tool in u && tool !in Cut(u, order, Excess(|order|, cap))
    ensures |NotBefore(u, tool, u[tool].lastUsedAt)| >= cap
  {
    var p :| 0 <= p < |order| && order[p] == tool;
    RowsAfterAreNotBefore(u, tool, order, p);
    CutAt(u, order, tool, cap, p);
  }

  lemma AnEvictingOrder(u: Table, tool: string, newer: set<string>, cap: int) returns (order: seq<string>)
    requires tool in u && newer == NotBefore(u, tool, u[tool].lastUsedAt) && |newer| >= cap
    ensures OldestFirst(u, order) && tool !in Cut(u, order, Excess(|order|, cap))
  {
    var first := AnOrderExists(u - newer - {tool});
    var others := AnOrderExists(u - (u.Keys - newer));
    order := first + [tool] + others;
    AroundTheTool(u, tool, newer, first, others);
    CutAt(u, order, tool, cap, |first|);
  }

  /** Exactly when a load can evict the very tool it loaded, for some order the database may
      return: when at least as many other rows as the cap allows are not before it. No clock is
      assumed; a cap of zero or less always evicts it. */
  lemma LoadMayEvictItselfIff(t: Table, tool: string, schema: string, now: nat, cap: int)
    ensures (exists order :: OldestFirst(EquipRow(t, tool, schema, now), order)
                             && tool !in Load(t, tool, schema, now, order, cap))
            <==> |NotBefore(t, tool, now)| >= cap
  {
    var u := EquipRow(t, tool, schema, now);
    var newer := NotBefore(u, tool, now);
    assert newer == NotBefore(t, tool, now);
    if order :| OldestFirst(u, order) && tool !in Load(t, tool, schema, now, order, cap) {
      EvictedMeansCrowded(u, tool, order, cap);
    }
    if |newer| >= cap {
      var order := AnEvictingOrder(u, tool, newer, cap);
      assert tool !in Load(t, tool, schema, now, order, cap);
    }
  }

  /** Two loads, at these times, into an empty table with room for one tool. */
  function TwoLoads(once: nat, again: nat): seq<Event> {
    [Equip("a", "s", once), Evict(["a"]), Equip("b", "s", again), Evict(["b", "a"])]
  }

  /** Unless the second is later, both evictions see an order the database may return and the
      second load evicts itself. */
  lemma SecondLoadEvictsItself(once: nat, again: nat)
    requires again <= once
    ensures var es := TwoLoads(once, again);
      && OldestFirst(Run(map[], es[..1], 1), ["a"]) && OldestFirst(Run(map[], es[..3], 1), ["b", "a"])
      && Run(map[], es[..3], 1) == map["a" := Row("s", once, once), "b" := Row("s", again, again)]
      && Run(map[], es, 1) == map["a" := Row("s", once, once)]
  {
    var es := TwoLoads(once, again);
    var t1: Table := map["a" := Row("s", once, once)];
    var t3: Table := t1["b" := Row("s", again, again)];
    RunNext(es, 0, 1);
    RunNext(es, 1, 1);
    RunNext(es, 2, 1);
    RunNext(es, 3, 1);
    assert es[..0] == [] && es[..4] == es;
    assert Run(map[], es[..1], 1) == t1;
    assert ["a"][0] == "a" && ["b", "a"][0] == "b" && ["b", "a"][1] == "a";
    assert ["a"][..0] == [] && ["b", "a"][..1] == ["b"];
    assert Run(map[], es[..2], 1) == t1;
    assert Run(map[], es[..3], 1) == t3 && t3.Keys == {"a", "b"};
    assert Cut(t3, ["b", "a"], 1) == t1;
  }

  lemma OrdersOfTwo(t: Table, order: seq<string>)
    requires t == map["a" := Row("s", 10, 10), "b" := Row("s", 5, 5)] && OldestFirst(t, order)
    ensures order == ["b", "a"]
  {
    var l := ["a", "b"];
    assert l[0] == "a" && l[1] == "b";
    OrderIsTheListBackwards(t, l, order);
    assert order[|l| - 1 - 0] == l[0] && order[|l| - 1 - 1] == l[1];
  }

  /** In one millisecond. */
  lemma TiedLoadMayEvictItself()
    ensures Run(map[], TwoLoads(5, 5), 1) == map["a" := Row("s", 5, 5)]
    ensures OldestFirst(Run(map[], TwoLoads(5, 5)[..3], 1), ["b", "a"])
  {
    SecondLoadEvictsItself(5, 5);
  }

  /** With a clock set back, or on a node whose clock is behind: nothing is tied, and there is no
      other order. */
  lemma LoadBehindTheClockEvictsItself()
    ensures Run(map[], TwoLoads(10, 5), 1) == map["a" := Row("s", 10, 10)]
    ensures forall order :: OldestFirst(Run(map[], TwoLoads(10, 5)[..3], 1), order) <==> order == ["b", "a"]
  {
    SecondLoadEvictsItself(10, 5);
    forall order | OldestFirst(Run(map[], TwoLoads(10, 5)[..3], 1), order)
      ensures order == ["b", "a"]
    {
      OrdersOfTwo(Run(map[], TwoLoads(10, 5)[..3], 1), order);
    }
  }

  lemma RunNext(es: seq<Event>, k: nat, cap: int)
    requires k < |es|
    ensures Run(map[], es[..k + 1], cap) == Step(Run(map[], es[..k], cap), es[k], cap)
  {
    assert es[..k + 1][..k] == es[..k];
  }

  // A row's history, by the events of a run alone.

  predicate Loads(e: Event, tool: string) {
    e.Equip? && e.tool == tool
  }

  predicate Uses(e: Event, tool: string) {
    !e.Evict? && e.tool == tool
  }

  /** An eviction that deletes the tool: it stands among the excess of the order. */
  predicate Drops(e: Event, tool: string, cap: int) {
    e.Evict? && tool in e.order[..Excess(|e.order|, cap)]
  }

  predicate LoadedIn(es: seq<Event>, tool: string, cap: int) {
    && es != []
    && (Loads(es[|es| - 1], tool) || (LoadedIn(es[..|es| - 1], tool, cap) && !Drops(es[|es| - 1], tool, cap)))
  }

  /** When a tool that is loaded became so. */
  function LoadedSince(es: seq<Event>, tool: string, cap: int): nat {
    if es == [] then 0
    else
      var before, e := es[..|es| - 1], es[|es| - 1];
      if Loads(e, tool) && !LoadedIn(before, tool, cap) then e.now else LoadedSince(before, tool, cap)
  }

  /** The schema of its last load. */
  function LastSchema(es: seq<Event>, tool: string): string {
    if es == [] then ""
    else if Loads(es[|es| - 1], tool) then es[|es| - 1].schema
    else LastSchema(es[..|es| - 1], tool)
  }

  /** The time of its last load or use. */
  function LastUse(es: seq<Event>, tool: string): nat {
    if es == [] then 0
    else if Uses(es[|es| - 1], tool) then es[|es| - 1].now
    else LastUse(es[..|es| - 1], tool)
  }

  /** Over every run, whatever the clock: a tool is equipped exactly from a load until an eviction
      that lists it among the excess, with the schema of its last load, the time it was first
      loaded since it was last absent, and the time of its last load or use. */
  lemma {:induction false} RowIsItsHistory(es: seq<Event>, tool: string, cap: int)
    ensures var t := Run(map[], es, cap);
      && (tool in t <==> LoadedIn(es, tool, cap))
      && (tool in t ==> t[tool] == Row(LastSchema(es, tool), LoadedSince(es, tool, cap), LastUse(es, tool)))
  {
    if es != [] {
      RowIsItsHistory(es[..|es| - 1], tool, cap);
    }
  }

  /** One companion's rows. */
  class EquippedToolStore {
    var rows: Table

    constructor ()
      ensures rows == map[]
    {
      rows := map[];
    }

    method Equip(tool: string, schema: string, now: nat)
      modifies this
      ensures rows == EquipRow(old(rows), tool, schema, now)
    {
      if tool in rows {
        rows := rows[tool := rows[tool].(schema := schema, lastUsedAt := now)];
      } else {
        rows := rows[tool := Row(schema, now, now)];
      }
    }

    method Touch(tool: string, now: nat)
      modifies this
      ensures rows == TouchRow(old(rows), tool, now)
    {
      if tool in rows {
        rows := rows[tool := rows[tool].(lastUsedAt := now)];
      }
    }

    /** `order` is what the SELECT returned; the database fails after `upTo` deletes, if the
        excess is not gone by then. */
    method EvictToMaxEquipped(cap: int, order: seq<string>, upTo: nat) returns (evicted: nat)
      modifies this
      ensures evicted == if upTo < Excess(|order|, cap) then upTo else Excess(|order|, cap)
      ensures evicted <= |order| && rows == Cut(old(rows), order, evicted)
    {
      var excess := Excess(|order|, cap);
      evicted := 0;
      assert rows == Cut(rows, order, 0);
      while evicted < excess && evicted < upTo
        invariant evicted <= excess && evicted <= upTo
        invariant rows == Cut(old(rows), order, evicted)
      {
        assert order[..evicted + 1] == order[..evicted] + [order[evicted]];
        rows := map tool | tool in rows && tool != order[evicted] :: rows[tool];
        evicted := evicted + 1;
      }
    }
  }

  datatype LoadResult =
    | NeedsToolId
    | NotInCatalog
    | NoLongerAvailable
    | NoLongerOffered
    | LoadError
    | Loaded(evicted: nat)

  /** What the collaborators answer: any of them may throw. */
  datatype Fault = NoFault | BeforeEquip | DuringEvict(deletes: nat)

  /** `load_tool`: only a tool the catalogue lists, whose source still trusts and offers it, is
      equipped; then the cap is enforced. Every refusal leaves the table as it was. */
  method LoadTool(store: EquippedToolStore, toolId: Option<string>, catalog: set<string>, admissible: bool,
                  schema: Option<string>, now: nat, order: seq<string>, cap: int, fault: Fault)
    returns (result: LoadResult)
    requires toolId.Some? && schema.Some? ==> OldestFirst(EquipRow(store.rows, toolId.value, schema.value, now), order)
    requires fault.DuringEvict? ==> fault.deletes < Excess(|order|, cap)
    modifies store
    ensures result.Loaded? <==>
            toolId.Some? && fault.NoFault? && toolId.value in catalog && admissible && schema.Some?
    ensures result.Loaded? ==>
              && store.rows == Load(old(store.rows), toolId.value, schema.value, now, order, cap)
              && result.evicted == Excess(|order|, cap)
    ensures fault.DuringEvict? && toolId.Some? && toolId.value in catalog && admissible && schema.Some? ==>
              && result.LoadError? && fault.deletes <= |order|
              && store.rows == Cut(EquipRow(old(store.rows), toolId.value, schema.value, now), order, fault.deletes)
    ensures !result.Loaded? && !fault.DuringEvict? ==> store.rows == old(store.rows)
    ensures result.NeedsToolId? <==> toolId.None?
    ensures toolId.Some? && !fault.BeforeEquip? ==>
              && (result.NotInCatalog? <==> toolId.value !in catalog)
              && (result.NoLongerAvailable? <==> toolId.value in catalog && !admissible)
              && (result.NoLongerOffered? <==> toolId.value in catalog && admissible && schema.None?)
  {
    if toolId.None? {
      return NeedsToolId;
    }
    if fault.BeforeEquip? {
      return LoadError;
    }
    if toolId.value !in catalog {
      return NotInCatalog;
    }
    if !admissible {
      return NoLongerAvailable;
    }
    if schema.None? {
      return NoLongerOffered;
    }
    store.Equip(toolId.value, schema.value, now);
    var upTo := if fault.DuringEvict? then fault.deletes else Excess(|order|, cap);
    var evicted := store.EvictToMaxEquipped(cap, order, upTo);
    if fault.DuringEvict? {
      return LoadError;
    }
    result := Loaded(evicted);
  }
}
