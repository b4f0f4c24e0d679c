/** The breadth-first walk as the code runs it (backend/src/domain/networkGraph.js, walk). */
module NetworkWalk {
  import opened Common
  import opened NetworkGraph

  datatype Row = Row(dev: Dev, depth: nat, from_: Option<Dev>, via: Option<Node>)

  function Devs(rows: seq<Row>): set<Dev> { set k | 0 <= k < |rows| :: rows[k].dev }

  function SetOf(s: seq<Dev>): set<Dev> { set d | d in s }

  /** Whether the walk goes on past a device: the origins always, unless the caller says otherwise. */
  function Passes(expand: Dev -> bool, expandOrigins: bool, S: set<Dev>): Dev -> bool {
    (d: Dev) => expand(d) || (expandOrigins && d in S)
  }

  /** A row reached from an earlier one, one hop closer, through a shared node. */
  ghost predicate ReachedFrom(g: Graph, pass: Dev -> bool, rows: seq<Row>, k: nat)
    requires k < |rows|
  {
    rows[k].from_.Some? && rows[k].via.Some? && pass(rows[k].from_.value) && Meet(g, rows[k].from_.value, rows[k].dev, rows[k].via.value)
    && exists j :: 0 <= j < k && rows[j].dev == rows[k].from_.value && rows[j].depth + 1 == rows[k].depth
  }

  /** Rows in visit order: each device once, nearest first, at its true depth, with a way back. */
  ghost predicate RowsOk(g: Graph, S: set<Dev>, pass: Dev -> bool, rows: seq<Row>) {
    && (forall i, j :: 0 <= i < j < |rows| ==> rows[i].dev != rows[j].dev && rows[i].depth <= rows[j].depth)
    && (forall k :: 0 <= k < |rows| ==> AtDepth(g, S, pass, rows[k].dev, rows[k].depth))
    && (forall k :: 0 <= k < |rows| ==> if rows[k].depth == 0 then rows[k].from_.None? else ReachedFrom(g, pass, rows, k))
  }

  lemma AppendRow(g: Graph, S: set<Dev>, pass: Dev -> bool, rows: seq<Row>, row: Row)
    requires RowsOk(g, S, pass, rows) && row.dev !in Devs(rows) && AtDepth(g, S, pass, row.dev, row.depth)
    requires forall k :: 0 <= k < |rows| ==> rows[k].depth <= row.depth
    requires row.depth == 0 ==> row.from_.None?
    requires row.depth > 0 ==> row.from_.Some? && row.via.Some? && pass(row.from_.value) && Meet(g, row.from_.value, row.dev, row.via.value)
    requires row.depth > 0 ==> exists j :: 0 <= j < |rows| && rows[j].dev == row.from_.value && rows[j].depth + 1 == row.depth
    ensures RowsOk(g, S, pass, rows + [row]) && Devs(rows + [row]) == Devs(rows) + {row.dev}
  {
    DevsAppend(rows, row);
    hide AtDepth, Devs;
    forall k | 0 <= k < |rows + [row]| && (rows + [row])[k].depth > 0 ensures ReachedFrom(g, pass, rows + [row], k) {
      if k < |rows| { StillReached(g, pass, rows, row, k); } else { NowReached(g, pass, rows, row); }
    }
    hide ReachedFrom, Meet;
    assert forall k :: 0 <= k < |rows| ==> rows[k].dev in Devs(rows) by { RowsInDevs(rows); }
  }

  lemma RowsInDevs(rows: seq<Row>)
    ensures forall k :: 0 <= k < |rows| ==> rows[k].dev in Devs(rows)
  {
  }

  lemma DevsAppend(rows: seq<Row>, row: Row)
    ensures Devs(rows + [row]) == Devs(rows) + {row.dev}
  {
    var rows' := rows + [row];
    assert rows'[|rows|].dev == row.dev;
    assert forall k :: 0 <= k < |rows| ==> rows'[k].dev == rows[k].dev;
  }

  lemma StillReached(g: Graph, pass: Dev -> bool, rows: seq<Row>, row: Row, k: nat)
    requires k < |rows| && ReachedFrom(g, pass, rows, k)
    ensures ReachedFrom(g, pass, rows + [row], k)
  {
    hide Meet;
    var j :| 0 <= j < k && rows[j].dev == rows[k].from_.value && rows[j].depth + 1 == rows[k].depth;
    assert (rows + [row])[j] == rows[j];
  }

  lemma NowReached(g: Graph, pass: Dev -> bool, rows: seq<Row>, row: Row)
    requires row.from_.Some? && row.via.Some? && pass(row.from_.value) && Meet(g, row.from_.value, row.dev, row.via.value)
    requires exists j :: 0 <= j < |rows| && rows[j].dev == row.from_.value && rows[j].depth + 1 == row.depth
    ensures ReachedFrom(g, pass, rows + [row], |rows|)
  {
    hide Meet;
    var j :| 0 <= j < |rows| && rows[j].dev == row.from_.value && rows[j].depth + 1 == row.depth;
    assert (rows + [row])[j] == rows[j];
  }

  /** The devices first reached at depth D that the walk goes on from. */
  ghost predicate Frontier(g: Graph, S: set<Dev>, pass: Dev -> bool, F: set<Dev>, D: nat) {
    forall d :: d in F <==> pass(d) && AtDepth(g, S, pass, d, D)
  }

  /** One hop further: only the newest devices can reach anything new. */
  lemma NextLevel(g: Graph, S: set<Dev>, pass: Dev -> bool, F: set<Dev>, D: nat)
    requires Frontier(g, S, pass, F, D)
    ensures Within(g, S, pass, D + 1) == Within(g, S, pass, D) + Around(g, F)
  {
    var W := Within(g, S, pass, D);
    forall d | d in Around(g, Passing(W, pass)) && d !in Around(g, F) ensures d in W {
      var a :| a in Passing(W, pass) && Adjacent(g, a, d);
      assert a !in F;
      assert D > 0 && a in Within(g, S, pass, D - 1);
      assert a in Passing(Within(g, S, pass, D - 1), pass);
      assert d in Around(g, Passing(Within(g, S, pass, D - 1), pass));
    }
    forall d | d in Around(g, F) ensures d in Around(g, Passing(W, pass)) {
      var a :| a in F && Adjacent(g, a, d);
      assert a in Passing(W, pass);
    }
  }

  lemma {:induction false} DevsCount(rows: seq<Row>)
    requires forall i, j :: 0 <= i < j < |rows| ==> rows[i].dev != rows[j].dev
    ensures |Devs(rows)| == |rows|
  {
    if rows != [] {
      var n := |rows| - 1;
      DevsCount(rows[..n]);
      assert Devs(rows) == Devs(rows[..n]) + {rows[n].dev} by {
        assert forall d :: d in Devs(rows) <==> d in Devs(rows[..n]) || d == rows[n].dev by { DevsLast(rows); }
      }
      assert rows[n].dev !in Devs(rows[..n]);
    }
  }

  lemma DevsLast(rows: seq<Row>)
    requires rows != []
    ensures forall d :: d in Devs(rows) <==> d in Devs(rows[..|rows| - 1]) || d == rows[|rows| - 1].dev
  {
    var n := |rows| - 1;
    forall d | d in Devs(rows) ensures d in Devs(rows[..n]) || d == rows[n].dev {
      var k :| 0 <= k < |rows| && rows[k].dev == d;
      if k < n { assert rows[..n][k].dev == d; }
    }
    forall d | d in Devs(rows[..n]) ensures d in Devs(rows) {
      var k :| 0 <= k < n && rows[..n][k].dev == d;
      assert rows[k].dev == d;
    }
    assert rows[n].dev in Devs(rows);
  }

  /** The walk comes to a hop at which it still has somewhere to go on from but has gone as many hops, or visited as many
    * devices, as it may. */
  ghost predicate Limited(g: Graph, S: set<Dev>, pass: Dev -> bool, maxHops: nat, maxNodes: nat) {
    exists D: nat :: LimitAt(g, S, pass, maxHops, maxNodes, D)
  }

  ghost predicate LimitAt(g: Graph, S: set<Dev>, pass: Dev -> bool, maxHops: nat, maxNodes: nat, D: nat) {
    (exists d :: pass(d) && AtDepth(g, S, pass, d, D)) && (D >= maxHops || |Within(g, S, pass, D)| >= maxNodes)
  }

  /** The rows are all devices within some number of hops, at which the walk met a limit exactly if it says so. */
  ghost predicate StopsAt(g: Graph, S: set<Dev>, pass: Dev -> bool, rows: seq<Row>, truncated: bool, maxHops: nat, maxNodes: nat) {
    exists D: nat :: Devs(rows) == Within(g, S, pass, D) && (truncated <==> LimitAt(g, S, pass, maxHops, maxNodes, D))
  }

  /** Nothing to go on from at hop D, and no limit before it: no limit at all. */
  lemma NeverLimited(g: Graph, S: set<Dev>, pass: Dev -> bool, maxHops: nat, maxNodes: nat, D: nat)
    requires Frontier(g, S, pass, {}, D) && forall j: nat :: j < D ==> !LimitAt(g, S, pass, maxHops, maxNodes, j)
    ensures !Limited(g, S, pass, maxHops, maxNodes)
  {
    forall j: nat ensures !LimitAt(g, S, pass, maxHops, maxNodes, j) {
      if j > D {
        forall d | pass(d) ensures !AtDepth(g, S, pass, d, j) { NothingLater(g, S, pass, D, d, j); }
      } else if j == D {
        hide AtDepth;
      }
    }
  }

  lemma NothingLater(g: Graph, S: set<Dev>, pass: Dev -> bool, D: nat, d: Dev, j: nat)
    requires Frontier(g, S, pass, {}, D) && j > D
    ensures !AtDepth(g, S, pass, d, j)
  {
    hide Within, Frontier;
    Stuck(g, S, pass, D);
    WalkEnds(g, S, pass, D, j);
    WalkEnds(g, S, pass, D, j - 1);
  }

  /** In a network of fewer devices than both limits no walk from one of them is ever cut short. */
  lemma SmallIsNeverLimited(g: Graph, S: set<Dev>, pass: Dev -> bool, maxHops: nat, maxNodes: nat, all: set<Dev>)
    requires S <= all && (forall d :: d in g.devices ==> d in all) && |all| < maxNodes && |all| <= maxHops
    ensures !Limited(g, S, pass, maxHops, maxNodes)
  {
    forall D: nat ensures !LimitAt(g, S, pass, maxHops, maxNodes, D) {
      AllWithin(g, S, pass, all, D);
      SubsetCount(Within(g, S, pass, D), all);
      forall d ensures AtDepth(g, S, pass, d, D) ==> D < |all| {
        if AtDepth(g, S, pass, d, D) { DeeperIsMore(g, S, pass, d, D); }
      }
      hide Within, AtDepth;
    }
  }

  lemma {:induction false} AllWithin(g: Graph, S: set<Dev>, pass: Dev -> bool, all: set<Dev>, D: nat)
    requires S <= all && forall d :: d in g.devices ==> d in all
    ensures Within(g, S, pass, D) <= all
  {
    if D > 0 {
      AllWithin(g, S, pass, all, D - 1);
      AroundAll(g, Passing(Within(g, S, pass, D - 1), pass), all);
      hide Around, Passing;
    }
  }

  lemma AroundAll(g: Graph, F: set<Dev>, all: set<Dev>)
    requires forall d :: d in g.devices ==> d in all
    ensures Around(g, F) <= all
  {
    hide Adjacent;
  }

  lemma SubsetCount(a: set<Dev>, b: set<Dev>)
    requires a <= b
    ensures |a| <= |b|
  {
    assert b == a + (b - a);
  }

  lemma NewMeans(g: Graph, S: set<Dev>, pass: Dev -> bool, d: Dev, D: nat)
    ensures AtDepth(g, S, pass, d, D) <==> d in Within(g, S, pass, D) && (D > 0 ==> d !in Within(g, S, pass, D - 1))
    ensures Within(g, S, pass, 0) == S
  {
    hide Around, Passing;
  }

  lemma NextTo(g: Graph, S: set<Dev>, pass: Dev -> bool, a: Dev, d: Dev, D: nat)
    requires a in Within(g, S, pass, D) && pass(a) && Adjacent(g, a, d) && d in g.devices
    ensures d in Within(g, S, pass, D + 1)
  {
    assert a in Passing(Within(g, S, pass, D), pass);
    assert d in Around(g, Passing(Within(g, S, pass, D), pass));
    hide Around, Passing, Adjacent;
  }

  lemma CameFrom(g: Graph, S: set<Dev>, pass: Dev -> bool, d: Dev, D: nat) returns (a: Dev)
    requires d in Within(g, S, pass, D + 1) && d !in Within(g, S, pass, D)
    ensures a in Within(g, S, pass, D) && pass(a) && Adjacent(g, a, d) && d in g.devices
  {
    assert d in Around(g, Passing(Within(g, S, pass, D), pass)) by { hide Around, Passing; }
    hide Within, Adjacent;
    a :| a in Passing(Within(g, S, pass, D), pass) && Adjacent(g, a, d);
  }

  /** A device new at hop D + 1 was reached from one new at hop D. */
  lemma FromNewOne(g: Graph, S: set<Dev>, pass: Dev -> bool, d: Dev, D: nat) returns (a: Dev)
    requires AtDepth(g, S, pass, d, D + 1)
    ensures AtDepth(g, S, pass, a, D)
  {
    hide *;
    NewMeans(g, S, pass, d, D + 1);
    a := CameFrom(g, S, pass, d, D);
    NewMeans(g, S, pass, a, D);
    if D > 0 && a in Within(g, S, pass, D - 1) { NextTo(g, S, pass, a, d, D - 1); }
  }

  /** Where something is new at hop D, each hop before added something. */
  lemma {:induction false} DeeperIsMore(g: Graph, S: set<Dev>, pass: Dev -> bool, d: Dev, D: nat)
    requires AtDepth(g, S, pass, d, D)
    ensures |Within(g, S, pass, D)| > D
    decreases D
  {
    hide *;
    NewMeans(g, S, pass, d, D);
    if D == 0 {
      SubsetCount({d}, S);
    } else {
      var a := FromNewOne(g, S, pass, d, D - 1);
      DeeperIsMore(g, S, pass, a, D - 1);
      WithinGrows(g, S, pass, D - 1, D);
      SubsetCount(Within(g, S, pass, D - 1) + {d}, Within(g, S, pass, D));
    }
  }

  /** What the walk's answer means. */
  ghost predicate Walked(g: Graph, S: set<Dev>, pass: Dev -> bool, rows: seq<Row>, truncated: bool) {
    && RowsOk(g, S, pass, rows)
    && (forall d :: d in Devs(rows) ==> Reaches(g, S, pass, d))
    && (!truncated ==> forall d :: Reaches(g, S, pass, d) ==> d in Devs(rows))
    && (exists D :: Devs(rows) == Within(g, S, pass, D))
  }

  lemma Stuck(g: Graph, S: set<Dev>, pass: Dev -> bool, D: nat)
    requires Frontier(g, S, pass, {}, D)
    ensures Within(g, S, pass, D + 1) == Within(g, S, pass, D)
  {
    hide Within;
    NextLevel(g, S, pass, {}, D);
    assert Around(g, {}) == {};
  }

  lemma NothingNew(g: Graph, S: set<Dev>, pass: Dev -> bool, D: nat, d: Dev)
    requires Frontier(g, S, pass, {}, D) && Reaches(g, S, pass, d)
    ensures d in Within(g, S, pass, D)
  {
    hide Within, Frontier;
    Stuck(g, S, pass, D);
    var k: nat :| d in Within(g, S, pass, k);
    if k <= D { WithinGrows(g, S, pass, k, D); } else { WalkEnds(g, S, pass, D, k); }
  }

  lemma WalkDone(g: Graph, S: set<Dev>, pass: Dev -> bool, rows: seq<Row>, D: nat, truncated: bool)
    requires RowsOk(g, S, pass, rows) && Devs(rows) == Within(g, S, pass, D)
    requires !truncated ==> Frontier(g, S, pass, {}, D)
    ensures Walked(g, S, pass, rows, truncated)
  {
    hide RowsOk, Devs, Within, Frontier;
    if !truncated {
      forall d | Reaches(g, S, pass, d) ensures d in Devs(rows) { NothingNew(g, S, pass, D, d); }
    }
  }

  /** The origins, each once, at depth 0. */
  method Origins(g: Graph, pass: Dev -> bool, origins: seq<Dev>) returns (rows: seq<Row>)
    ensures RowsOk(g, SetOf(origins), pass, rows) && Devs(rows) == SetOf(origins) && forall k :: 0 <= k < |rows| ==> rows[k].depth == 0
  {
    rows := [];
    var seen: set<Dev> := {};
    for i := 0 to |origins|
      invariant seen == Devs(rows) == SetOf(origins[..i])
      invariant RowsOk(g, SetOf(origins), pass, rows) && forall k :: 0 <= k < |rows| ==> rows[k].depth == 0
    {
      assert origins[..i + 1] == origins[..i] + [origins[i]];
      if origins[i] !in seen {
        AppendRow(g, SetOf(origins), pass, rows, Row(origins[i], 0, None, None));
        rows := rows + [Row(origins[i], 0, None, None)];
        seen := seen + {origins[i]};
      }
    }
    assert origins[..|origins|] == origins;
  }

  lemma AddRow(g: Graph, S: set<Dev>, pass: Dev -> bool, rows: seq<Row>, F: set<Dev>, D: nat, h: Hop)
    requires RowsOk(g, S, pass, rows) && Frontier(g, S, pass, F, D) && Within(g, S, pass, D) <= Devs(rows)
    requires Within(g, S, pass, D + 1) == Within(g, S, pass, D) + Around(g, F)
    requires IsHop(g, F, h.dev, h) && h.dev in Around(g, F) && h.dev !in Devs(rows)
    requires forall k :: 0 <= k < |rows| ==> rows[k].depth <= D + 1
    ensures var rows' := rows + [Row(h.dev, D + 1, Some(h.from_), Some(h.via))];
      RowsOk(g, S, pass, rows') && Devs(rows') == Devs(rows) + {h.dev}
  {
    assert AtDepth(g, S, pass, h.from_, D) && AtDepth(g, S, pass, h.dev, D + 1);
    hide Within, Around, Frontier, RowsOk, AtDepth;
    OwnRow(g, S, pass, rows, h.from_, D) by { assert h.from_ in Within(g, S, pass, D) by { DepthWithin(g, S, pass, h.from_, D); } }
    AppendRow(g, S, pass, rows, Row(h.dev, D + 1, Some(h.from_), Some(h.via)));
  }

  lemma DepthWithin(g: Graph, S: set<Dev>, pass: Dev -> bool, d: Dev, D: nat)
    requires AtDepth(g, S, pass, d, D)
    ensures d in Within(g, S, pass, D)
  {
  }

  ghost predicate AllIn(hops: seq<Hop>, n: nat, seen: set<Dev>)
    requires n <= |hops|
  {
    forall k :: 0 <= k < n ==> hops[k].dev in seen
  }

  lemma AllInStep(hops: seq<Hop>, n: nat, seen: set<Dev>)
    requires n < |hops| && AllIn(hops, n, seen)
    ensures AllIn(hops, n + 1, seen + {hops[n].dev})
  {
  }

  /** One hop: the new devices around the frontier get their rows; those that pass form the next frontier. */
  method Hop1(g: Graph, S: set<Dev>, pass: Dev -> bool, rows: seq<Row>, F: set<Dev>, D: nat) returns (rows': seq<Row>, next: set<Dev>)
    requires Wellformed(g) && RowsOk(g, S, pass, rows) && Devs(rows) == Within(g, S, pass, D) && Frontier(g, S, pass, F, D)
    requires forall k :: 0 <= k < |rows| ==> rows[k].depth <= D
    ensures RowsOk(g, S, pass, rows') && Devs(rows') == Within(g, S, pass, D + 1) && Frontier(g, S, pass, next, D + 1)
    ensures forall k :: 0 <= k < |rows'| ==> rows'[k].depth <= D + 1
  {
    var hops := Hops(g, F, |g.devices|);
    NextLevel(g, S, pass, F, D);
    rows', next := rows, {};
    assert AllIn(hops, 0, Devs(rows));
    hide Within, Hops, Around, RowsOk, Frontier, Devs, IsHop, Wellformed, AllIn;
    for i := 0 to |hops|
      invariant RowsOk(g, S, pass, rows')
      invariant Within(g, S, pass, D) <= Devs(rows') <= Within(g, S, pass, D + 1)
      invariant AllIn(hops, i, Devs(rows'))
      invariant forall k :: 0 <= k < |rows'| ==> rows'[k].depth <= D + 1
      invariant forall d :: d in next <==> pass(d) && d in Devs(rows') && d !in Within(g, S, pass, D)
    {
      HopsSound(g, F, |g.devices|, i);
      AllInStep(hops, i, Devs(rows'));
      rows', next := Visit(g, S, pass, rows', next, F, D, hops[i]);
    }
    AllSeen(g, F, Devs(rows'));
    assert Devs(rows') == Within(g, S, pass, D + 1);
    NewFrontier(g, S, pass, next, D);
  }

  /** One row of the query's answer: a device seen before is skipped. */
  method Visit(g: Graph, S: set<Dev>, pass: Dev -> bool, rows: seq<Row>, next: set<Dev>, F: set<Dev>, D: nat, h: Hop)
    returns (rows': seq<Row>, next': set<Dev>)
    requires RowsOk(g, S, pass, rows) && Frontier(g, S, pass, F, D) && Within(g, S, pass, D) <= Devs(rows) <= Within(g, S, pass, D + 1)
    requires Within(g, S, pass, D + 1) == Within(g, S, pass, D) + Around(g, F)
    requires IsHop(g, F, h.dev, h) && h.dev in Around(g, F)
    requires forall k :: 0 <= k < |rows| ==> rows[k].depth <= D + 1
    ensures RowsOk(g, S, pass, rows') && Devs(rows') == Devs(rows) + {h.dev}
    ensures Within(g, S, pass, D) <= Devs(rows') <= Within(g, S, pass, D + 1)
    ensures forall k :: 0 <= k < |rows'| ==> rows'[k].depth <= D + 1
    ensures next' == if pass(h.dev) && h.dev !in Devs(rows) then next + {h.dev} else next
  {
    hide Within, Around, RowsOk, Frontier, Devs, IsHop;
    rows', next' := rows, next;
    if h.dev !in Devs(rows) {
      AddRow(g, S, pass, rows, F, D, h);
      rows' := rows + [Row(h.dev, D + 1, Some(h.from_), Some(h.via))];
      if pass(h.dev) { next' := next + {h.dev}; }
    }
  }

  lemma NewFrontier(g: Graph, S: set<Dev>, pass: Dev -> bool, next: set<Dev>, D: nat)
    requires forall d :: d in next <==> pass(d) && d in Within(g, S, pass, D + 1) && d !in Within(g, S, pass, D)
    ensures Frontier(g, S, pass, next, D + 1)
  {
    hide Within;
  }

  lemma AllSeen(g: Graph, F: set<Dev>, seen: set<Dev>)
    requires Wellformed(g) && AllIn(Hops(g, F, |g.devices|), |Hops(g, F, |g.devices|)|, seen)
    ensures Around(g, F) <= seen
  {
    hide Around, Hops, Wellformed;
    forall d | d in Around(g, F) ensures d in seen {
      AroundDevices(g, F, d);
      var i :| 0 <= i < |g.devices| && g.devices[i] == d;
      HopsComplete(g, F, |g.devices|, i);
    }
  }

  lemma AroundDevices(g: Graph, F: set<Dev>, d: Dev)
    requires d in Around(g, F)
    ensures d in g.devices
  {
  }

  lemma OwnRow(g: Graph, S: set<Dev>, pass: Dev -> bool, rows: seq<Row>, d: Dev, D: nat)
    requires RowsOk(g, S, pass, rows) && d in Devs(rows) && AtDepth(g, S, pass, d, D)
    ensures exists j :: 0 <= j < |rows| && rows[j].dev == d && rows[j].depth == D
  {
    var j :| 0 <= j < |rows| && rows[j].dev == d;
    hide RowsOk;
    assert AtDepth(g, S, pass, rows[j].dev, rows[j].depth) by { RowDepth(g, S, pass, rows, j); }
    hide AtDepth;
    SameDepth(g, S, pass, d, D, rows[j].depth);
  }

  lemma RowDepth(g: Graph, S: set<Dev>, pass: Dev -> bool, rows: seq<Row>, j: nat)
    requires RowsOk(g, S, pass, rows) && j < |rows|
    ensures AtDepth(g, S, pass, rows[j].dev, rows[j].depth)
  {
  }

  lemma SameDepth(g: Graph, S: set<Dev>, pass: Dev -> bool, d: Dev, j: nat, k: nat)
    requires AtDepth(g, S, pass, d, j) && AtDepth(g, S, pass, d, k)
    ensures j == k
  {
    DepthIsShortest(g, S, pass, d, j, k);
    DepthIsShortest(g, S, pass, d, k, j);
  }

  /** walk: outward hop by hop, each device once; a safety limit stops it and says so. */
  method Walk(g: Graph, origins: seq<Dev>, expand: Dev -> bool, expandOrigins: bool, maxHops: nat, maxNodes: nat)
    returns (rows: seq<Row>, truncated: bool)
    requires Wellformed(g)
    ensures Walked(g, SetOf(origins), Passes(expand, expandOrigins, SetOf(origins)), rows, truncated)
    ensures truncated <==> Limited(g, SetOf(origins), Passes(expand, expandOrigins, SetOf(origins)), maxHops, maxNodes)
    ensures StopsAt(g, SetOf(origins), Passes(expand, expandOrigins, SetOf(origins)), rows, truncated, maxHops, maxNodes)
  {
    var S := SetOf(origins);
    var pass := Passes(expand, expandOrigins, S);
    rows := Origins(g, pass, origins);
    var frontier := set d | d in S && pass(d);
    var depth := 0;
    truncated := false;
    Starts(g, S, pass, rows, frontier, maxHops, maxNodes);
    hide *;
    while frontier != {}
      invariant Going(g, S, pass, rows, frontier, depth, maxHops, maxNodes)
      invariant depth <= maxHops
      decreases maxHops - depth
    {
      LimitHere(g, S, pass, rows, frontier, maxHops, maxNodes, depth);
      if depth >= maxHops || |rows| >= maxNodes {
        truncated := true;
        break;
      }
      rows, frontier := OneHop(g, S, pass, rows, frontier, depth, maxHops, maxNodes);
      depth := depth + 1;
    }
    Ends(g, S, pass, rows, frontier, depth, maxHops, maxNodes, truncated);
  }

  /** Where the walk is after `depth` hops, having met no limit yet. */
  ghost predicate Going(g: Graph, S: set<Dev>, pass: Dev -> bool, rows: seq<Row>, frontier: set<Dev>, depth: nat, maxHops: nat, maxNodes: nat) {
    && RowsOk(g, S, pass, rows) && Devs(rows) == Within(g, S, pass, depth) && Frontier(g, S, pass, frontier, depth)
    && (forall k :: 0 <= k < |rows| ==> rows[k].depth <= depth)
    && (forall j: nat :: j < depth ==> !LimitAt(g, S, pass, maxHops, maxNodes, j))
  }

  lemma Starts(g: Graph, S: set<Dev>, pass: Dev -> bool, rows: seq<Row>, frontier: set<Dev>, maxHops: nat, maxNodes: nat)
    requires RowsOk(g, S, pass, rows) && Devs(rows) == S && (forall k :: 0 <= k < |rows| ==> rows[k].depth == 0)
    requires forall d :: d in frontier <==> d in S && pass(d)
    ensures Going(g, S, pass, rows, frontier, 0, maxHops, maxNodes)
  {
    assert Within(g, S, pass, 0) == S;
    hide RowsOk, Devs;
  }

  method OneHop(g: Graph, S: set<Dev>, pass: Dev -> bool, rows: seq<Row>, frontier: set<Dev>, depth: nat, ghost maxHops: nat, ghost maxNodes: nat)
    returns (rows': seq<Row>, frontier': set<Dev>)
    requires Wellformed(g) && Going(g, S, pass, rows, frontier, depth, maxHops, maxNodes) && !LimitAt(g, S, pass, maxHops, maxNodes, depth)
    ensures Going(g, S, pass, rows', frontier', depth + 1, maxHops, maxNodes)
  {
    hide RowsOk, Devs, Within, Frontier, LimitAt, Wellformed;
    rows', frontier' := Hop1(g, S, pass, rows, frontier, depth);
  }

  lemma Ends(g: Graph, S: set<Dev>, pass: Dev -> bool, rows: seq<Row>, frontier: set<Dev>, depth: nat, maxHops: nat, maxNodes: nat, truncated: bool)
    requires Going(g, S, pass, rows, frontier, depth, maxHops, maxNodes)
    requires if truncated then LimitAt(g, S, pass, maxHops, maxNodes, depth) else frontier == {}
    ensures Walked(g, S, pass, rows, truncated) && (truncated <==> Limited(g, S, pass, maxHops, maxNodes))
    ensures StopsAt(g, S, pass, rows, truncated, maxHops, maxNodes)
  {
    assert frontier == {} ==> !LimitAt(g, S, pass, maxHops, maxNodes, depth) by { hide AtDepth, Within; }
    hide RowsOk, Devs, Within, Frontier, LimitAt, Limited, Walked;
    WalkDone(g, S, pass, rows, depth, truncated);
    if truncated { LimitedAt(g, S, pass, maxHops, maxNodes, depth); } else { NeverLimited(g, S, pass, maxHops, maxNodes, depth); }
  }

  /** At a hop with somewhere to go on from. */
  lemma LimitHere(g: Graph, S: set<Dev>, pass: Dev -> bool, rows: seq<Row>, F: set<Dev>, maxHops: nat, maxNodes: nat, D: nat)
    requires Going(g, S, pass, rows, F, D, maxHops, maxNodes) && F != {}
    ensures LimitAt(g, S, pass, maxHops, maxNodes, D) <==> D >= maxHops || |rows| >= maxNodes
  {
    DevsCount(rows);
    var d :| d in F;
    assert pass(d) && AtDepth(g, S, pass, d, D);
    hide RowsOk, Within, Devs, Frontier, AtDepth;
  }

  lemma LimitedAt(g: Graph, S: set<Dev>, pass: Dev -> bool, maxHops: nat, maxNodes: nat, D: nat)
    requires LimitAt(g, S, pass, maxHops, maxNodes, D)
    ensures Limited(g, S, pass, maxHops, maxNodes)
  {
    hide LimitAt;
  }
}
