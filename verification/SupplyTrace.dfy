/** Upstream trace and what-if as the code answers them (backend/src/domain/supplyTrace.js). */
module SupplyTrace {
  import opened Common
  import opened NetworkGraph
  import opened NetworkWalk
  import opened SupplyTheory

  // ---- upstream trace ----

  datatype Element = Equipment(dev: Dev) | Through(node: Node)

  datatype Upstream =
    | NotFound
    | NoPath(componentSize: nat, truncated: bool)
    | Path(path: seq<Element>, source: Node, hops: nat, truncated: bool)

  /** A substation bus node device d sits on. */
  function BusNode(g: Graph, bus: set<Node>, d: Dev, i: nat): Option<Node>
    requires i <= |g.terminals|
  {
    if i == 0 then None
    else
      var best, t := BusNode(g, bus, d, i - 1), g.terminals[i - 1];
      if t.dev != d || t.node !in bus then best
      else if best.None? || t.node < best.value then Some(t.node) else best
  }

  ghost predicate OnBus(g: Graph, bus: set<Node>, d: Dev) { exists n :: n in bus && Touches(g, d, n) }

  lemma {:induction false} BusNodeRight(g: Graph, bus: set<Node>, d: Dev, i: nat)
    requires i <= |g.terminals|
    ensures var b := BusNode(g, bus, d, i);
      && (b.Some? ==> b.value in bus && Touches(g, d, b.value))
      && (b.None? ==> forall k :: 0 <= k < i && g.terminals[k].dev == d ==> g.terminals[k].node !in bus)
  {
    if i > 0 { BusNodeRight(g, bus, d, i - 1); }
  }

  /** Of several bus nodes of a device it is the first. */
  lemma {:induction false} BusNodeFirst(g: Graph, bus: set<Node>, d: Dev, i: nat, k: nat)
    requires k < i <= |g.terminals| && g.terminals[k].dev == d && g.terminals[k].node in bus
    ensures BusNode(g, bus, d, i).Some? && BusNode(g, bus, d, i).value <= g.terminals[k].node
  {
    if k < i - 1 { BusNodeFirst(g, bus, d, i - 1, k); }
  }

  ghost predicate FirstNode(g: Graph, bus: set<Node>, d: Dev, n: Node) {
    n in bus && Touches(g, d, n) && forall m :: m in bus && Touches(g, d, m) ==> n <= m
  }

  lemma BusNodeIs(g: Graph, bus: set<Node>, d: Dev)
    requires OnBus(g, bus, d)
    ensures BusNode(g, bus, d, |g.terminals|).Some? && FirstNode(g, bus, d, BusNode(g, bus, d, |g.terminals|).value)
  {
    BusNodeIff(g, bus, d);
    var n := BusNode(g, bus, d, |g.terminals|).value;
    forall m | m in bus && Touches(g, d, m) ensures n <= m {
      var k :| 0 <= k < |g.terminals| && g.terminals[k].dev == d && g.terminals[k].node == m;
      BusNodeFirst(g, bus, d, |g.terminals|, k);
    }
  }

  // ---- limits do not depend on how the walk is told to pass everything ----

  lemma SameWithin(g: Graph, S: set<Dev>, p: Dev -> bool, q: Dev -> bool, k: nat)
    requires forall d :: p(d) == q(d)
    ensures Within(g, S, p, k) == Within(g, S, q, k)
  {
    PassMore(g, S, S, p, q, k);
    PassMore(g, S, S, q, p, k);
  }

  lemma SameLimitAt(g: Graph, S: set<Dev>, p: Dev -> bool, q: Dev -> bool, maxHops: nat, maxNodes: nat, D: nat)
    requires forall d :: p(d) == q(d)
    ensures LimitAt(g, S, p, maxHops, maxNodes, D) <==> LimitAt(g, S, q, maxHops, maxNodes, D)
  {
    hide Within;
    SameWithin(g, S, p, q, D);
    if D > 0 { SameWithin(g, S, p, q, D - 1); }
    assert forall d :: AtDepth(g, S, p, d, D) == AtDepth(g, S, q, d, D);
    hide AtDepth;
  }

  lemma SameLimits(g: Graph, S: set<Dev>, p: Dev -> bool, q: Dev -> bool, maxHops: nat, maxNodes: nat)
    requires forall d :: p(d) == q(d)
    ensures Limited(g, S, p, maxHops, maxNodes) <==> Limited(g, S, q, maxHops, maxNodes)
  {
    hide LimitAt;
    forall D: nat ensures LimitAt(g, S, p, maxHops, maxNodes, D) <==> LimitAt(g, S, q, maxHops, maxNodes, D) {
      SameLimitAt(g, S, p, q, maxHops, maxNodes, D);
    }
  }

  lemma BusNodeIff(g: Graph, bus: set<Node>, d: Dev)
    ensures BusNode(g, bus, d, |g.terminals|).Some? <==> OnBus(g, bus, d)
    ensures BusNode(g, bus, d, |g.terminals|).Some? ==> BusNode(g, bus, d, |g.terminals|).value in bus && Touches(g, d, BusNode(g, bus, d, |g.terminals|).value)
  {
    BusNodeRight(g, bus, d, |g.terminals|);
  }

  /** Devices one hop apart, each named with the node towards the one before it, from the origin outwards. */
  ghost predicate Chain(g: Graph, chain: seq<Row>) {
    && chain != [] && chain[0].depth == 0
    && (forall i :: 0 <= i < |chain| ==> chain[i].depth == i)
    && (forall i :: 0 < i < |chain| ==> chain[i].via.Some? && Meet(g, chain[i - 1].dev, chain[i].dev, chain[i].via.value))
  }

  /** The tail of a chain: from some device outwards. */
  ghost predicate Links(g: Graph, chain: seq<Row>)
    ensures Links(g, chain) ==> chain != []
  {
    && chain != []
    && (forall i :: 0 <= i < |chain| ==> chain[i].depth == chain[0].depth + i)
    && (forall i :: 0 < i < |chain| ==> chain[i].via.Some? && Meet(g, chain[i - 1].dev, chain[i].dev, chain[i].via.value))
  }

  lemma LinkOne(g: Graph, row: Row, chain: seq<Row>)
    requires Links(g, chain) && row.depth + 1 == chain[0].depth && chain[0].via.Some? && Meet(g, row.dev, chain[0].dev, chain[0].via.value)
    ensures Links(g, [row] + chain)
  {
    hide Meet;
  }

  lemma PreviousRow(g: Graph, S: set<Dev>, pass: Dev -> bool, rows: seq<Row>, at: nat, j: nat)
    requires RowsOk(g, S, pass, rows) && at < |rows| && rows[at].from_.Some? && j < |rows| && rows[j].dev == rows[at].from_.value
    ensures rows[j].depth + 1 == rows[at].depth && rows[at].via.Some? && Meet(g, rows[j].dev, rows[at].dev, rows[at].via.value)
  {
    hide AtDepth, Meet;
    assert ReachedFrom(g, pass, rows, at);
    var i :| 0 <= i < at && rows[i].dev == rows[at].from_.value && rows[i].depth + 1 == rows[at].depth;
    SameRow(g, S, pass, rows, i, j);
  }

  lemma SameRow(g: Graph, S: set<Dev>, pass: Dev -> bool, rows: seq<Row>, i: nat, j: nat)
    requires RowsOk(g, S, pass, rows) && i < |rows| && j < |rows| && rows[i].dev == rows[j].dev
    ensures i == j
  {
    hide AtDepth, ReachedFrom;
    assert !(i < j) && !(j < i);
  }

  lemma HasPrevious(g: Graph, S: set<Dev>, pass: Dev -> bool, rows: seq<Row>, at: nat)
    requires RowsOk(g, S, pass, rows) && at < |rows|
    ensures rows[at].from_.Some? ==> rows[at].from_.value in Devs(rows)
    ensures rows[at].from_.None? ==> rows[at].depth == 0 && rows[at].dev in S
  {
    if rows[at].depth > 0 { assert ReachedFrom(g, pass, rows, at); } else { assert AtDepth(g, S, pass, rows[at].dev, 0); }
  }

  /** Back from row k to the origin, following where each device was reached from. */
  method ChainBack(g: Graph, ghost S: set<Dev>, ghost pass: Dev -> bool, rows: seq<Row>, k: nat) returns (chain: seq<Row>)
    requires RowsOk(g, S, pass, rows) && k < |rows|
    ensures Chain(g, chain) && chain[|chain| - 1] == rows[k] && |chain| == rows[k].depth + 1 && chain[0].dev in S
  {
    var row := rows[k];
    chain := [row];
    hide RowsOk, Meet, Links, Devs;
    OneLink(g, row);
    HasPrevious(g, S, pass, rows, k);
    while row.from_.Some?
      invariant Links(g, chain) && chain[0] == row && chain[|chain| - 1] == rows[k] && |chain| + row.depth == rows[k].depth + 1
      invariant row.from_.Some? ==> row.from_.value in Devs(rows)
      invariant Known(rows, row)
      invariant row.from_.None? ==> row.depth == 0 && row.dev in S
      decreases row.depth
    {
      row := StepBack(g, S, pass, rows, chain);
      chain := [row] + chain;
    }
    LinksChain(g, chain);
  }

  ghost predicate Known(rows: seq<Row>, row: Row) { exists at :: 0 <= at < |rows| && rows[at] == row }

  /** The row the head of the chain was reached from. */
  method StepBack(g: Graph, ghost S: set<Dev>, ghost pass: Dev -> bool, rows: seq<Row>, chain: seq<Row>) returns (row: Row)
    requires RowsOk(g, S, pass, rows) && Links(g, chain) && Known(rows, chain[0]) && chain[0].from_.Some? && chain[0].from_.value in Devs(rows)
    ensures Known(rows, row) && Links(g, [row] + chain) && row.depth + 1 == chain[0].depth
    ensures row.from_.Some? ==> row.from_.value in Devs(rows)
    ensures row.from_.None? ==> row.depth == 0 && row.dev in S
  {
    hide RowsOk, Meet, Links, Devs;
    var j := FindRow(rows, chain[0].from_.value);
    row := rows[j];
    ghost var at :| 0 <= at < |rows| && rows[at] == chain[0];
    PreviousRow(g, S, pass, rows, at, j);
    LinkOne(g, row, chain);
    HasPrevious(g, S, pass, rows, j);
  }

  /** The row of a device the walk visited. */
  method FindRow(rows: seq<Row>, d: Dev) returns (j: nat)
    requires d in Devs(rows)
    ensures j < |rows| && rows[j].dev == d
  {
    j := 0;
    while rows[j].dev != d
      invariant j < |rows| && exists k :: j <= k < |rows| && rows[k].dev == d
      decreases |rows| - j
    {
      j := j + 1;
    }
  }

  lemma OneLink(g: Graph, row: Row)
    ensures Links(g, [row])
  {
  }

  lemma LinksChain(g: Graph, chain: seq<Row>)
    requires Links(g, chain) && chain[0].depth == 0
    ensures Chain(g, chain)
  {
  }

  /** The path as the answer lists it: device, node, device, ..., bus node. */
  function Elements(chain: seq<Row>, source: Node): (p: seq<Element>)
    requires chain != [] && forall i :: 0 < i < |chain| ==> chain[i].via.Some?
    ensures |p| == 2 * |chain|
    ensures forall i :: 0 <= i < |chain| ==> p[2 * i] == Equipment(chain[i].dev)
    ensures forall i :: 0 < i < |chain| ==> p[2 * i - 1] == Through(chain[i].via.value)
    ensures p[2 * |chain| - 1] == Through(source)
  {
    if |chain| == 1 then [Equipment(chain[0].dev), Through(source)]
    else Elements(chain[..|chain| - 1], chain[|chain| - 1].via.value) + [Equipment(chain[|chain| - 1].dev), Through(source)]
  }

  /** A path from device d to a bus node: devices and the nodes between them in turn, each node shared by the two devices
    * around it through different terminals, the last one a bus node the last device sits on. */
  ghost predicate IsPath(g: Graph, bus: set<Node>, d: Dev, path: seq<Element>, hops: nat) {
    && |path| == 2 * hops + 2 && path[0] == Equipment(d)
    && (forall i :: 0 <= i <= hops ==> path[2 * i].Equipment? && path[2 * i + 1].Through?)
    && (forall i :: 0 <= i < hops ==> path[2 * i + 2].Equipment? && Meet(g, path[2 * i].dev, path[2 * i + 2].dev, path[2 * i + 1].node))
    && path[2 * hops + 1].node in bus && Touches(g, path[2 * hops].dev, path[2 * hops + 1].node)
  }

  lemma ElementsPath(g: Graph, bus: set<Node>, chain: seq<Row>, source: Node)
    requires Chain(g, chain) && source in bus && Touches(g, chain[|chain| - 1].dev, source)
    ensures IsPath(g, bus, chain[0].dev, Elements(chain, source), |chain| - 1)
  {
    var p, n := Elements(chain, source), |chain|;
    hide Elements, Meet, Touches;
    forall i | 0 <= i < n - 1 ensures p[2 * i].Equipment? && p[2 * i + 1].Through? && p[2 * i + 2].Equipment?
      && Meet(g, p[2 * i].dev, p[2 * i + 2].dev, p[2 * i + 1].node) {
      assert p[2 * (i + 1)] == Equipment(chain[i + 1].dev) && p[2 * (i + 1) - 1] == Through(chain[i + 1].via.value);
      assert Meet(g, chain[i + 1 - 1].dev, chain[i + 1].dev, chain[i + 1].via.value);
    }
  }

  /** The nearest device on a substation bus, by hops: no device on a bus is closer. */
  ghost predicate Nearest(g: Graph, bus: set<Node>, d: Dev, hops: nat) {
    forall e, k :: OnBus(g, bus, e) && e in Within(g, {d}, AllClosed(), k) ==> hops <= k
  }

  method FirstOnBus(g: Graph, bus: set<Node>, rows: seq<Row>) returns (k: nat)
    ensures k <= |rows| && (forall j :: 0 <= j < k ==> !OnBus(g, bus, rows[j].dev)) && (k < |rows| ==> OnBus(g, bus, rows[k].dev))
  {
    k := 0;
    while k < |rows|
      invariant k <= |rows| && forall j :: 0 <= j < k ==> !OnBus(g, bus, rows[j].dev)
    {
      BusNodeIff(g, bus, rows[k].dev);
      if BusNode(g, bus, rows[k].dev, |g.terminals|).Some? { return; }
      k := k + 1;
    }
  }

  lemma FirstIsNearest(g: Graph, bus: set<Node>, d: Dev, pass: Dev -> bool, rows: seq<Row>, k: nat, e: Dev, j: nat)
    requires (forall x :: pass(x) == AllClosed()(x)) && RowsOk(g, {d}, pass, rows) && k < |rows|
    requires exists D: nat :: Devs(rows) == Within(g, {d}, pass, D)
    requires forall i :: 0 <= i < k ==> !OnBus(g, bus, rows[i].dev)
    requires OnBus(g, bus, e) && e in Within(g, {d}, AllClosed(), j)
    ensures rows[k].depth <= j
  {
    hide OnBus, Within, Devs, RowsOk;
    if j < rows[k].depth {
      PassMore(g, {d}, {d}, AllClosed(), pass, j);
      var D: nat :| Devs(rows) == Within(g, {d}, pass, D);
      RowDepth(g, {d}, pass, rows, k);
      RowInDevs(rows, k);
      var i := RowOf(g, {d}, pass, rows, rows[k], e, j, D);
      RowOrder(g, {d}, pass, rows, i, k);
    }
  }

  lemma RowInDevs(rows: seq<Row>, k: nat)
    requires k < |rows|
    ensures rows[k].dev in Devs(rows)
  {
  }

  lemma RowOrder(g: Graph, S: set<Dev>, pass: Dev -> bool, rows: seq<Row>, i: nat, k: nat)
    requires RowsOk(g, S, pass, rows) && i < |rows| && k < |rows| && rows[i].depth < rows[k].depth
    ensures i < k
  {
  }

  /** A device closer than some row of the walk has a row of its own, no deeper. */
  lemma RowOf(g: Graph, S: set<Dev>, pass: Dev -> bool, rows: seq<Row>, deep: Row, e: Dev, j: nat, D: nat) returns (i: nat)
    requires RowsOk(g, S, pass, rows) && Devs(rows) == Within(g, S, pass, D)
    requires AtDepth(g, S, pass, deep.dev, deep.depth) && deep.dev in Devs(rows) && e in Within(g, S, pass, j) && j < deep.depth
    ensures i < |rows| && rows[i].dev == e && rows[i].depth <= j
  {
    if D < deep.depth { assert false by { DepthIsShortest(g, S, pass, deep.dev, deep.depth, D); } }
    WithinGrows(g, S, pass, j, D);
    hide Within, RowsOk;
    i := IndexOfRow(rows, e);
    RowDepth(g, S, pass, rows, i);
    DepthIsShortest(g, S, pass, e, rows[i].depth, j);
  }

  lemma IndexOfRow(rows: seq<Row>, e: Dev) returns (i: nat)
    requires e in Devs(rows)
    ensures i < |rows| && rows[i].dev == e
  {
    i :| 0 <= i < |rows| && rows[i].dev == e;
  }

  lemma NoneOnBus(g: Graph, bus: set<Node>, d: Dev, pass: Dev -> bool, rows: seq<Row>)
    requires (forall x :: pass(x) == AllClosed()(x)) && Walked(g, {d}, pass, rows, false)
    requires forall j :: 0 <= j < |rows| ==> !OnBus(g, bus, rows[j].dev)
    ensures forall e :: Reaches(g, {d}, AllClosed(), e) ==> !OnBus(g, bus, e)
  {
    hide OnBus, RowsOk, Within, Devs;
    forall e | Reaches(g, {d}, AllClosed(), e) ensures !OnBus(g, bus, e) {
      ReachesMore(g, {d}, {d}, AllClosed(), pass, e);
      var i := IndexOfRow(rows, e);
    }
  }

  lemma FirstRowNearest(g: Graph, bus: set<Node>, d: Dev, pass: Dev -> bool, rows: seq<Row>, k: nat)
    requires (forall x :: pass(x) == AllClosed()(x)) && RowsOk(g, {d}, pass, rows) && k < |rows|
    requires exists D: nat :: Devs(rows) == Within(g, {d}, pass, D)
    requires forall i :: 0 <= i < k ==> !OnBus(g, bus, rows[i].dev)
    ensures Nearest(g, bus, d, rows[k].depth)
  {
    hide OnBus, Within, Devs, RowsOk;
    forall e, j | OnBus(g, bus, e) && e in Within(g, {d}, AllClosed(), j) ensures rows[k].depth <= j {
      FirstIsNearest(g, bus, d, pass, rows, k, e, j);
    }
  }

  /** The walk past every device, from one. */
  method WalkAll(g: Graph, d: Dev, maxHops: nat, maxNodes: nat) returns (rows: seq<Row>, truncated: bool, ghost pass: Dev -> bool)
    requires Wellformed(g)
    ensures (forall x :: pass(x) == AllClosed()(x)) && Walked(g, {d}, pass, rows, truncated)
    ensures RowsOk(g, {d}, pass, rows) && exists D: nat :: Devs(rows) == Within(g, {d}, pass, D)
    ensures truncated <==> Limited(g, {d}, AllClosed(), maxHops, maxNodes)
    ensures StopsAt(g, {d}, AllClosed(), rows, truncated, maxHops, maxNodes) && |Devs(rows)| == |rows|
  {
    rows, truncated := Walk(g, [d], AllClosed(), true, maxHops, maxNodes);
    pass := Passes(AllClosed(), true, SetOf([d]));
    assert SetOf([d]) == {d};
    SameLimits(g, {d}, pass, AllClosed(), maxHops, maxNodes);
    SameStops(g, {d}, pass, AllClosed(), rows, truncated, maxHops, maxNodes);
    DevsCount(rows);
    hide RowsOk, Devs, Within, Limited, StopsAt;
  }

  lemma SameStops(g: Graph, S: set<Dev>, p: Dev -> bool, q: Dev -> bool, rows: seq<Row>, truncated: bool, maxHops: nat, maxNodes: nat)
    requires (forall d :: p(d) == q(d)) && StopsAt(g, S, p, rows, truncated, maxHops, maxNodes)
    ensures StopsAt(g, S, q, rows, truncated, maxHops, maxNodes)
  {
    hide LimitAt, Within, Devs;
    var D: nat :| Devs(rows) == Within(g, S, p, D) && (truncated <==> LimitAt(g, S, p, maxHops, maxNodes, D));
    SameWithin(g, S, p, q, D);
    SameLimitAt(g, S, p, q, maxHops, maxNodes, D);
  }

  /** The devices within some number of hops of d, so many, are on no bus; and the walk met a limit there exactly if it says so. */
  ghost predicate NoBusWithin(g: Graph, bus: set<Node>, d: Dev, size: nat, truncated: bool, maxHops: nat, maxNodes: nat) {
    exists D: nat :: |Within(g, {d}, AllClosed(), D)| == size && (truncated <==> LimitAt(g, {d}, AllClosed(), maxHops, maxNodes, D))
      && forall e :: e in Within(g, {d}, AllClosed(), D) ==> !OnBus(g, bus, e)
  }

  lemma NoneWithin(g: Graph, bus: set<Node>, d: Dev, rows: seq<Row>, truncated: bool, maxHops: nat, maxNodes: nat)
    requires StopsAt(g, {d}, AllClosed(), rows, truncated, maxHops, maxNodes) && |Devs(rows)| == |rows|
    requires forall j :: 0 <= j < |rows| ==> !OnBus(g, bus, rows[j].dev)
    ensures NoBusWithin(g, bus, d, |rows|, truncated, maxHops, maxNodes)
  {
    hide LimitAt, Within, OnBus;
    var D: nat :| Devs(rows) == Within(g, {d}, AllClosed(), D) && (truncated <==> LimitAt(g, {d}, AllClosed(), maxHops, maxNodes, D));
    assert forall e :: e in Within(g, {d}, AllClosed(), D) ==> !OnBus(g, bus, e);
  }

  /** A path of devices and the nodes between them to a bus node, its last device's first; and no device on a bus is closer. */
  ghost predicate Traced(g: Graph, bus: set<Node>, d: Dev, path: seq<Element>, hops: nat, source: Node) {
    && IsPath(g, bus, d, path, hops) && Nearest(g, bus, d, hops) && path[2 * hops + 1] == Through(source)
    && path[2 * hops].Equipment? && FirstNode(g, bus, path[2 * hops].dev, source)
  }

  /** traceUpstream: walking through every device, since switch states are unknown. */
  method TraceUpstream(g: Graph, bus: set<Node>, d: Dev, maxHops: nat, maxNodes: nat) returns (up: Upstream)
    requires Wellformed(g)
    ensures up.NotFound? <==> d !in g.devices
    ensures up.Path? ==> Traced(g, bus, d, up.path, up.hops, up.source)
    ensures up.NoPath? && !up.truncated ==> forall e :: Reaches(g, {d}, AllClosed(), e) ==> !OnBus(g, bus, e)
    ensures up.NoPath? ==> NoBusWithin(g, bus, d, up.componentSize, up.truncated, maxHops, maxNodes)
    ensures up.Path? || up.NoPath? ==> (up.truncated <==> Limited(g, {d}, AllClosed(), maxHops, maxNodes))
  {
    if d !in g.devices { return NotFound; }
    var rows, truncated;
    ghost var pass;
    rows, truncated, pass := WalkAll(g, d, maxHops, maxNodes);
    hide AllClosed, Within, OnBus, Devs, RowsOk, Walked, Limited, StopsAt, NoBusWithin, Traced;
    var k := FirstOnBus(g, bus, rows);
    if k == |rows| {
      if !truncated { NoneOnBus(g, bus, d, pass, rows); }
      NoneWithin(g, bus, d, rows, truncated, maxHops, maxNodes);
      return NoPath(|rows|, truncated);
    }
    var path, source := PathTo(g, bus, d, pass, rows, k);
    up := Path(path, source, rows[k].depth, truncated);
  }

  /** The path to the first row on a bus, which is the nearest one. */
  method PathTo(g: Graph, bus: set<Node>, d: Dev, ghost pass: Dev -> bool, rows: seq<Row>, k: nat) returns (path: seq<Element>, source: Node)
    requires (forall x :: pass(x) == AllClosed()(x)) && RowsOk(g, {d}, pass, rows) && k < |rows|
    requires exists D: nat :: Devs(rows) == Within(g, {d}, pass, D)
    requires (forall j :: 0 <= j < k ==> !OnBus(g, bus, rows[j].dev)) && OnBus(g, bus, rows[k].dev)
    ensures Traced(g, bus, d, path, rows[k].depth, source)
  {
    FirstRowNearest(g, bus, d, pass, rows, k);
    BusNodeIs(g, bus, rows[k].dev);
    hide Within, OnBus, Devs, RowsOk, Nearest, Touches, Meet;
    var chain := ChainBack(g, {d}, pass, rows, k);
    source := BusNode(g, bus, rows[k].dev, |g.terminals|).value;
    ElementsPath(g, bus, chain, source);
    path := Elements(chain, source);
  }
}
