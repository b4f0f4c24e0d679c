/** The what-if as the code computes it (backend/src/domain/supplyTrace.js, simulateOpen). */
module WhatIf {
  import opened Common
  import opened NetworkGraph
  import opened NetworkWalk
  import opened SupplyTheory
  import opened SupplyTrace

  /** A source the caller names by its mRID: the connectivity node and the device of that name, if there are any. */
  datatype SourceRef = SourceRef(node: Option<Node>, dev: Option<Dev>)

  /** Where supply is taken to come from, or why from nowhere. */
  datatype Choice = Chosen(sources: seq<Dev>) | UnknownName | NoBus(truncated: bool)

  datatype Answer =
    | BadInput
    | EquipmentNotFound
    | SourceNotFound
    | NoSource(truncated: bool)
    | Simulated(sources: seq<Dev>, lost: seq<Dev>, effective: seq<bool>, baseline: nat, truncated: bool)

  function DevicesOnNode(g: Graph, n: Node, i: nat): seq<Dev>
    requires i <= |g.terminals|
  {
    if i == 0 then [] else DevicesOnNode(g, n, i - 1) + (if g.terminals[i - 1].node == n then [g.terminals[i - 1].dev] else [])
  }

  lemma {:induction false} OnNodeRight(g: Graph, n: Node, d: Dev, i: nat)
    requires i <= |g.terminals|
    ensures d in DevicesOnNode(g, n, i) <==> exists k :: 0 <= k < i && g.terminals[k].dev == d && g.terminals[k].node == n
  {
    if i > 0 { OnNodeRight(g, n, d, i - 1); }
  }

  lemma NodeSources(g: Graph, n: Node)
    ensures OnNodes(g, {n}, SetOf(DevicesOnNode(g, n, |g.terminals|)))
  {
    forall d ensures d in SetOf(DevicesOnNode(g, n, |g.terminals|)) <==> exists m :: m in {n} && Touches(g, d, m) {
      OnNodeRight(g, n, d, |g.terminals|);
      assert Touches(g, d, n) <==> exists m :: m in {n} && Touches(g, d, m);
    }
  }

  /** How many terminals a device has. */
  function TerminalCount(g: Graph, d: Dev, i: nat): nat
    requires i <= |g.terminals|
  {
    if i == 0 then 0 else TerminalCount(g, d, i - 1) + (if g.terminals[i - 1].dev == d then 1 else 0)
  }

  lemma {:induction false} CountRight(g: Graph, d: Dev, i: nat)
    requires i <= |g.terminals|
    ensures TerminalCount(g, d, i) == 0 <==> forall k :: 0 <= k < i ==> g.terminals[k].dev != d
    ensures TerminalCount(g, d, i) < 2 <==> forall j, k :: 0 <= j < i && 0 <= k < i && g.terminals[j].dev == d && g.terminals[k].dev == d ==> j == k
  {
    if i > 0 { CountRight(g, d, i - 1); }
  }

  /** What a finished walk reached, each device once. */
  ghost predicate Exactly(g: Graph, S: set<Dev>, pass: Dev -> bool, rows: seq<Row>) {
    && |Devs(rows)| == |rows|
    && (forall i, j :: 0 <= i < j < |rows| ==> rows[i].dev != rows[j].dev)
    && forall d :: d in Devs(rows) <==> Reaches(g, S, pass, d)
  }

  lemma FinishedWalk(g: Graph, S: set<Dev>, p: Dev -> bool, q: Dev -> bool, rows: seq<Row>)
    requires Walked(g, S, p, rows, false) && forall d :: p(d) == q(d)
    ensures Exactly(g, S, q, rows)
  {
    DevsCount(rows);
    hide RowsOk, Within, Devs;
    forall d ensures d in Devs(rows) <==> Reaches(g, S, q, d) {
      if Reaches(g, S, q, d) { ReachesMore(g, S, S, q, p, d); }
      if Reaches(g, S, p, d) { ReachesMore(g, S, S, p, q, d); }
    }
  }

  /** The origins are always walked past, unless the caller says otherwise, and then as any other device. */
  lemma OriginsGoOn(g: Graph, S: set<Dev>, expand: Dev -> bool, o: Dev, d: Dev)
    requires o in S && Adjacent(g, o, d) && d in g.devices
    ensures Reaches(g, S, Passes(expand, true, S), d)
    ensures expand(o) ==> Reaches(g, S, Passes(expand, false, S), d)
    ensures (forall a :: a in S ==> !expand(a)) ==> (Reaches(g, S, Passes(expand, false, S), d) <==> d in S)
  {
    hide Within, Adjacent;
    Origin(g, S, Passes(expand, true, S), o);
    StepOn(g, S, Passes(expand, true, S), o, d);
    Origin(g, S, Passes(expand, false, S), o);
    if expand(o) { StepOn(g, S, Passes(expand, false, S), o, d); }
    if d in S { Origin(g, S, Passes(expand, false, S), d); }
    if (forall a :: a in S ==> !expand(a)) && Reaches(g, S, Passes(expand, false, S), d) {
      var k: nat :| d in Within(g, S, Passes(expand, false, S), k);
      NoneGoOn(g, S, Passes(expand, false, S), k);
    }
  }

  /** Where no origin is walked past, nothing else is reached. */
  lemma {:induction false} NoneGoOn(g: Graph, S: set<Dev>, pass: Dev -> bool, k: nat)
    requires forall a :: a in S ==> !pass(a)
    ensures Within(g, S, pass, k) == S
  {
    if k > 0 {
      NoneGoOn(g, S, pass, k - 1);
      assert Passing(S, pass) == {};
    }
  }

  method BaselineWalk(g: Graph, sources: seq<Dev>, maxHops: nat, maxNodes: nat) returns (rows: seq<Row>, truncated: bool)
    requires Wellformed(g)
    ensures !truncated ==> Exactly(g, SetOf(sources), AllClosed(), rows)
    ensures truncated <==> Limited(g, SetOf(sources), AllClosed(), maxHops, maxNodes)
  {
    rows, truncated := Walk(g, sources, AllClosed(), true, maxHops, maxNodes);
    hide Walked, Limited, StopsAt;
    SameLimits(g, SetOf(sources), Passes(AllClosed(), true, SetOf(sources)), AllClosed(), maxHops, maxNodes);
    if !truncated { FinishedWalk(g, SetOf(sources), Passes(AllClosed(), true, SetOf(sources)), AllClosed(), rows); }
  }

  method CutWalk(g: Graph, sources: seq<Dev>, open: set<Dev>, maxHops: nat, maxNodes: nat) returns (rows: seq<Row>, truncated: bool)
    requires Wellformed(g)
    ensures !truncated ==> Exactly(g, SetOf(sources), Cut(open), rows)
    ensures truncated <==> Limited(g, SetOf(sources), Cut(open), maxHops, maxNodes)
  {
    rows, truncated := Walk(g, sources, Cut(open), false, maxHops, maxNodes);
    hide Walked, Limited, StopsAt;
    SameLimits(g, SetOf(sources), Passes(Cut(open), false, SetOf(sources)), Cut(open), maxHops, maxNodes);
    if !truncated { FinishedWalk(g, SetOf(sources), Passes(Cut(open), false, SetOf(sources)), Cut(open), rows); }
  }

  // ---- does opening one device, on its own, separate anything? ----

  lemma {:induction false} NeverReached(g: Graph, S: set<Dev>, d: Dev, e: Dev, k: nat)
    requires !Reaches(g, S, AllClosed(), d) && e in Within(g, S, AllClosed(), k)
    ensures Reaches(g, S, Cut({d}), e)
    decreases k
  {
    hide Within, Meet;
    if e in S {
      Origin(g, S, Cut({d}), e);
    } else {
      var j, a, n := Came(g, S, AllClosed(), e, k);
      NeverReached(g, S, d, a, j);
      assert Reaches(g, S, AllClosed(), a);
      assert Adjacent(g, a, e);
      StepOn(g, S, Cut({d}), a, e);
    }
  }

  lemma UnreachedLosesNothing(g: Graph, S: set<Dev>, d: Dev, e: Dev)
    requires !Reaches(g, S, AllClosed(), d)
    ensures !IsLost(g, S, {d}, e)
  {
    hide Within;
    if Reaches(g, S, AllClosed(), e) {
      var k: nat :| e in Within(g, S, AllClosed(), k);
      NeverReached(g, S, d, e, k);
    }
  }

  /** As many devices supplied with d open as with everything closed: nothing was lost. */
  lemma SameCountNothingLost(g: Graph, S: set<Dev>, open: set<Dev>, base: seq<Row>, alone: seq<Row>)
    requires Exactly(g, S, AllClosed(), base) && Exactly(g, S, Cut(open), alone)
    ensures |alone| == |base| <==> forall e :: !IsLost(g, S, open, e)
  {
    hide Devs, Reaches;
    forall e | e in Devs(alone) ensures e in Devs(base) { ReachesMore(g, S, S, Cut(open), AllClosed(), e); }
    SubsetSize(Devs(alone), Devs(base));
    forall e ensures IsLost(g, S, open, e) <==> e in Devs(base) && e !in Devs(alone) {}
  }

  lemma SubsetSize(a: set<Dev>, b: set<Dev>)
    requires a <= b
    ensures |a| == |b| <==> forall e :: e in b ==> e in a
  {
    assert b == a + (b - a);
    assert |b| == |a| + |b - a|;
    if |a| == |b| { assert b - a == {}; }
    if forall e :: e in b ==> e in a { assert a == b; }
  }

  /** Opening d on its own is worth reporting. */
  ghost predicate Effective(g: Graph, S: set<Dev>, d: Dev) { !OneTerminal(g, d) && exists e :: IsLost(g, S, {d}, e) }

  method IsEffective(g: Graph, sources: seq<Dev>, d: Dev, base: seq<Row>, ghost exact: bool, maxHops: nat, maxNodes: nat) returns (effective: bool, truncated: bool)
    requires Wellformed(g) && (exact ==> Exactly(g, SetOf(sources), AllClosed(), base))
    ensures exact && !truncated ==> (effective <==> Effective(g, SetOf(sources), d))
    ensures truncated ==> Limited(g, SetOf(sources), Cut({d}), maxHops, maxNodes)
  {
    var S := SetOf(sources);
    effective, truncated := false, false;
    CountRight(g, d, |g.terminals|);
    hide Exactly, Wellformed, IsLost, Limited;
    if TerminalCount(g, d, |g.terminals|) < 2 { return; }
    if d !in Devs(base) {
      if exact {
        NotInBase(g, S, base, d);
        forall e ensures !IsLost(g, S, {d}, e) { UnreachedLosesNothing(g, S, d, e); }
      }
      return;
    }
    var alone;
    alone, truncated := CutWalk(g, sources, {d}, maxHops, maxNodes);
    effective := |alone| != |base|;
    if exact && !truncated { SameCountNothingLost(g, S, {d}, base, alone); }
  }

  lemma NotInBase(g: Graph, S: set<Dev>, base: seq<Row>, d: Dev)
    requires Exactly(g, S, AllClosed(), base) && d !in Devs(base)
    ensures !Reaches(g, S, AllClosed(), d)
  {
  }

  // ---- the sources ----

  /** The mRID stands for every device on its node; without such a node, or with none on it, for the device of that name. */
  ghost predicate Names(g: Graph, r: SourceRef, d: Dev) {
    if r.node.Some? && exists e :: Touches(g, e, r.node.value) then Touches(g, d, r.node.value)
    else r.dev == Some(d) && d in g.devices
  }

  ghost predicate NamesNothing(g: Graph, r: SourceRef) { forall d :: !Names(g, r, d) }

  /** The devices one mRID stands for, none if it is unknown. */
  function Named(g: Graph, r: SourceRef): seq<Dev> {
    var on := if r.node.Some? then DevicesOnNode(g, r.node.value, |g.terminals|) else [];
    if on != [] then on else if r.dev.Some? && r.dev.value in g.devices then [r.dev.value] else []
  }

  lemma NamedRight(g: Graph, r: SourceRef)
    ensures forall d :: d in Named(g, r) <==> Names(g, r, d)
    ensures Named(g, r) == [] <==> NamesNothing(g, r)
  {
    if r.node.Some? {
      var on := DevicesOnNode(g, r.node.value, |g.terminals|);
      forall d ensures d in on <==> Touches(g, d, r.node.value) { OnNodeRight(g, r.node.value, d, |g.terminals|); }
      hide Touches, DevicesOnNode;
      if on != [] { assert on[0] in on && Touches(g, on[0], r.node.value); }
    }
    hide Touches, DevicesOnNode;
    if Named(g, r) != [] { assert Named(g, r)[0] in Named(g, r); }
  }

  /** The sources are exactly the devices that the caller's mRIDs stand for. */
  ghost predicate NamedByCaller(g: Graph, given: seq<SourceRef>, n: nat, sources: seq<Dev>)
    requires n <= |given|
  {
    forall d :: d in sources <==> exists i :: 0 <= i < n && Names(g, given[i], d)
  }

  lemma NamedNext(g: Graph, given: seq<SourceRef>, n: nat, sources: seq<Dev>)
    requires n < |given| && NamedByCaller(g, given, n, sources)
    ensures NamedByCaller(g, given, n + 1, sources + Named(g, given[n]))
  {
    NamedRight(g, given[n]);
    hide Named, Names;
    var all := sources + Named(g, given[n]);
    forall d ensures d in all <==> exists i :: 0 <= i < n + 1 && Names(g, given[i], d) {
      assert d in all <==> d in sources || d in Named(g, given[n]);
    }
  }

  /** A substation bus is connected to this device. */
  ghost predicate BusConnected(g: Graph, bus: set<Node>, d: Dev) { exists e :: Reaches(g, {d}, AllClosed(), e) && OnBus(g, bus, e) }

  /** n is the bus node of a device to which no device on a bus is closer from d. */
  ghost predicate NearestBus(g: Graph, bus: set<Node>, d: Dev, n: Node) {
    n in bus && exists e, k :: e in Within(g, {d}, AllClosed(), k) && Touches(g, e, n) && Nearest(g, bus, d, k)
  }

  /** The sources are the devices on one bus node nearest to d. */
  ghost predicate OnNearestBus(g: Graph, bus: set<Node>, d: Dev, sources: seq<Dev>) {
    exists n :: NearestBus(g, bus, d, n) && OnNodes(g, {n}, SetOf(sources))
  }

  lemma PathAt(g: Graph, bus: set<Node>, d: Dev, path: seq<Element>, hops: nat, i: nat)
    requires IsPath(g, bus, d, path, hops) && i <= hops
    ensures |path| == 2 * hops + 2 && path[2 * i].Equipment? && path[2 * i + 1].Through? && (i == 0 ==> path[2 * i].dev == d)
    ensures i < hops ==> path[2 * (i + 1)].Equipment? && Meet(g, path[2 * i].dev, path[2 * (i + 1)].dev, path[2 * i + 1].node)
  {
    assert 2 * (i + 1) == 2 * i + 2;
    hide Meet, Touches;
  }

  lemma {:induction false} PathWithin(g: Graph, bus: set<Node>, d: Dev, path: seq<Element>, hops: nat, i: nat)
    requires Wellformed(g) && IsPath(g, bus, d, path, hops) && i <= hops
    ensures |path| == 2 * hops + 2 && path[2 * i].Equipment? && path[2 * i].dev in Within(g, {d}, AllClosed(), i)
  {
    hide *;
    PathAt(g, bus, d, path, hops, i);
    if i == 0 {
      NewMeans(g, {d}, AllClosed(), d, 0);
    } else {
      PathWithin(g, bus, d, path, hops, i - 1);
      PathAt(g, bus, d, path, hops, i - 1);
      OneFurther(g, d, path[2 * (i - 1)].dev, path[2 * i].dev, path[2 * (i - 1) + 1].node, i - 1);
    }
  }

  lemma OneFurther(g: Graph, d: Dev, a: Dev, e: Dev, n: Node, k: nat)
    requires Wellformed(g) && a in Within(g, {d}, AllClosed(), k) && Meet(g, a, e, n)
    ensures e in Within(g, {d}, AllClosed(), k + 1)
  {
    assert e in g.devices;
    hide Meet, Wellformed;
    assert Adjacent(g, a, e);
    assert a in Passing(Within(g, {d}, AllClosed(), k), AllClosed());
  }

  lemma PathIsNearest(g: Graph, bus: set<Node>, d: Dev, path: seq<Element>, hops: nat, n: Node)
    requires Wellformed(g) && IsPath(g, bus, d, path, hops) && Nearest(g, bus, d, hops) && path[2 * hops + 1] == Through(n)
    ensures NearestBus(g, bus, d, n) && BusConnected(g, bus, d)
  {
    PathWithin(g, bus, d, path, hops, hops);
    hide Within, Wellformed, Nearest, Touches, Meet;
    var e := path[2 * hops].dev;
    assert Touches(g, e, n) && n in bus;
    assert OnBus(g, bus, e) && Reaches(g, {d}, AllClosed(), e);
  }

  /** Without a source named: the bus node nearest to the first device. */
  method DefaultSource(g: Graph, bus: set<Node>, first: Dev, maxHops: nat, maxNodes: nat) returns (r: Choice)
    requires Wellformed(g) && first in g.devices
    ensures r.Chosen? || r.NoBus?
    ensures r.Chosen? ==> BusConnected(g, bus, first) && OnNearestBus(g, bus, first, r.sources)
    ensures r.NoBus? && !r.truncated ==> !BusConnected(g, bus, first)
    ensures r.NoBus? ==> (r.truncated <==> Limited(g, {first}, AllClosed(), maxHops, maxNodes))
  {
    var up := TraceUpstream(g, bus, first, maxHops, maxNodes);
    hide IsPath, Nearest, Within, NearestBus, Reaches, OnNodes, Limited, NoBusWithin, FirstNode;
    if !up.Path? { return NoBus(up.truncated); }
    NodeSources(g, up.source);
    PathIsNearest(g, bus, first, up.path, up.hops, up.source);
    r := Chosen(DevicesOnNode(g, up.source, |g.terminals|));
  }

  /** Where the sources come from: all the devices the caller's mRIDs stand for, or the devices on the bus node nearest to
    * the first device. */
  method Sources(g: Graph, bus: set<Node>, first: Dev, given: seq<SourceRef>, maxHops: nat, maxNodes: nat) returns (r: Choice)
    requires Wellformed(g) && first in g.devices
    ensures r.UnknownName? <==> exists i :: 0 <= i < |given| && NamesNothing(g, given[i])
    ensures r.NoBus? ==> given == [] && (!r.truncated ==> !BusConnected(g, bus, first))
    ensures r.NoBus? ==> (r.truncated <==> Limited(g, {first}, AllClosed(), maxHops, maxNodes))
    ensures r.Chosen? && given == [] ==> BusConnected(g, bus, first) && OnNearestBus(g, bus, first, r.sources)
    ensures r.Chosen? && given != [] ==> NamedByCaller(g, given, |given|, r.sources)
  {
    hide BusConnected, OnNearestBus, NamesNothing, Wellformed, Names, Named, Limited;
    if given == [] {
      r := DefaultSource(g, bus, first, maxHops, maxNodes);
      return;
    }
    var sources: seq<Dev> := [];
    for i := 0 to |given|
      invariant NamedByCaller(g, given, i, sources)
      invariant forall k :: 0 <= k < i ==> !NamesNothing(g, given[k])
    {
      var named := Named(g, given[i]);
      NamedRight(g, given[i]);
      if named == [] { return UnknownName; }
      NamedNext(g, given, i, sources);
      sources := sources + named;
    }
    r := Chosen(sources);
  }

  // ---- the answer ----

  /** The devices to open are named, and all known. */
  ghost predicate CanOpen(g: Graph, open: seq<Dev>) { open != [] && forall i :: 0 <= i < |open| ==> open[i] in g.devices }

  /** How many devices are supplied with every switch closed. */
  ghost predicate Supplies(g: Graph, S: set<Dev>, n: nat) {
    exists base: seq<Row> :: Exactly(g, S, AllClosed(), base) && |base| == n
  }

  /** Exactly the devices that lose supply, each once; which of those opened separates anything alone; and how many devices
    * there were to lose. */
  ghost predicate Exact(g: Graph, open: seq<Dev>, a: Answer)
    requires a.Simulated?
  {
    && (forall d :: d in a.lost <==> IsLost(g, SetOf(a.sources), SetOf(open), d)) && Distinct(a.lost)
    && |a.effective| == |open| && (forall i :: 0 <= i < |open| ==> (a.effective[i] <==> Effective(g, SetOf(a.sources), open[i])))
    && Supplies(g, SetOf(a.sources), a.baseline)
  }

  /** The walk of the baseline or that of the scenario meets a limit. */
  ghost predicate WalksLimited(g: Graph, S: set<Dev>, open: set<Dev>, maxHops: nat, maxNodes: nat) {
    Limited(g, S, AllClosed(), maxHops, maxNodes) || Limited(g, S, Cut(open), maxHops, maxNodes)
  }

  /** The walk with one of the devices open alone does. */
  ghost predicate OneLimited(g: Graph, S: set<Dev>, open: seq<Dev>, maxHops: nat, maxNodes: nat) {
    exists i :: 0 <= i < |open| && Limited(g, S, Cut({open[i]}), maxHops, maxNodes)
  }

  /** simulateOpen: which devices lose supply when the assumed-open devices are opened, and which of those separate
    * anything on their own. Unless a safety limit cut a walk short, both are exact; and it says so only when a limit did. Errors
    * come in the code's order. */
  method SimulateOpen(g: Graph, bus: set<Node>, open: seq<Dev>, given: seq<SourceRef>, maxHops: nat, maxNodes: nat) returns (a: Answer)
    requires Wellformed(g)
    ensures a.BadInput? <==> open == []
    ensures a.EquipmentNotFound? <==> open != [] && exists i :: 0 <= i < |open| && open[i] !in g.devices
    ensures a.SourceNotFound? <==> CanOpen(g, open) && exists i :: 0 <= i < |given| && NamesNothing(g, given[i])
    ensures a.NoSource? ==> CanOpen(g, open) && given == [] && (!a.truncated ==> !BusConnected(g, bus, open[0]))
    ensures a.NoSource? ==> (a.truncated <==> Limited(g, {open[0]}, AllClosed(), maxHops, maxNodes))
    ensures a.Simulated? ==> CanOpen(g, open) && if given == [] then BusConnected(g, bus, open[0]) && OnNearestBus(g, bus, open[0], a.sources)
                             else NamedByCaller(g, given, |given|, a.sources)
    ensures a.Simulated? && !a.truncated ==> Exact(g, open, a)
    ensures a.Simulated? ==> (WalksLimited(g, SetOf(a.sources), SetOf(open), maxHops, maxNodes) ==> a.truncated)
    ensures a.Simulated? && a.truncated ==> WalksLimited(g, SetOf(a.sources), SetOf(open), maxHops, maxNodes)
                                            || OneLimited(g, SetOf(a.sources), open, maxHops, maxNodes)
  {
    if open == [] { return BadInput; }
    if i :| 0 <= i < |open| && open[i] !in g.devices { return EquipmentNotFound; }
    assert CanOpen(g, open);
    hide Wellformed, OnNearestBus, BusConnected, NamesNothing, NamedByCaller, Effective, IsLost, Exactly, CanOpen, Distinct, Limited;
    var found := Sources(g, bus, open[0], given, maxHops, maxNodes);
    if found.UnknownName? { return SourceNotFound; }
    if found.NoBus? { return NoSource(found.truncated); }
    var sources := found.sources;
    var base, cutShort := BaselineWalk(g, sources, maxHops, maxNodes);
    var lost, cutShort2 := LostFrom(g, sources, open, base, !cutShort, maxHops, maxNodes);
    var effective, cutShort3 := EffectiveOnes(g, sources, open, base, !cutShort, maxHops, maxNodes);
    a := Simulated(sources, lost, effective, |base|, cutShort || cutShort2 || cutShort3);
  }

  method LostFrom(g: Graph, sources: seq<Dev>, open: seq<Dev>, base: seq<Row>, ghost exact: bool, maxHops: nat, maxNodes: nat)
    returns (lost: seq<Dev>, truncated: bool)
    requires Wellformed(g) && (exact ==> Exactly(g, SetOf(sources), AllClosed(), base))
    ensures exact && !truncated ==> forall d :: d in lost <==> IsLost(g, SetOf(sources), SetOf(open), d)
    ensures exact ==> Distinct(lost)
    ensures truncated <==> Limited(g, SetOf(sources), Cut(SetOf(open)), maxHops, maxNodes)
  {
    var live;
    live, truncated := CutWalk(g, sources, SetOf(open), maxHops, maxNodes);
    hide Limited;
    lost := [];
    for i := 0 to |base|
      invariant forall d :: d in lost <==> d !in Devs(live) && exists k :: 0 <= k < i && base[k].dev == d
      invariant exact ==> Distinct(lost)
    {
      if base[i].dev !in Devs(live) { lost := lost + [base[i].dev]; }
    }
    if exact && !truncated {
      forall d ensures d in lost <==> IsLost(g, SetOf(sources), SetOf(open), d) {
        assert d in Devs(base) <==> exists k :: 0 <= k < |base| && base[k].dev == d;
        LostIs(g, SetOf(sources), SetOf(open), base, live, d);
      }
    }
  }

  lemma LostIs(g: Graph, S: set<Dev>, open: set<Dev>, base: seq<Row>, live: seq<Row>, d: Dev)
    requires Exactly(g, S, AllClosed(), base) && Exactly(g, S, Cut(open), live)
    ensures IsLost(g, S, open, d) <==> d in Devs(base) && d !in Devs(live)
  {
    hide Devs, Reaches;
  }

  method EffectiveOnes(g: Graph, sources: seq<Dev>, open: seq<Dev>, base: seq<Row>, ghost exact: bool, maxHops: nat, maxNodes: nat)
    returns (effective: seq<bool>, truncated: bool)
    requires Wellformed(g) && (exact ==> Exactly(g, SetOf(sources), AllClosed(), base))
    ensures exact && !truncated ==>
      |effective| == |open| && forall i :: 0 <= i < |open| ==> (effective[i] <==> Effective(g, SetOf(sources), open[i]))
    ensures truncated ==> OneLimited(g, SetOf(sources), open, maxHops, maxNodes)
  {
    effective, truncated := [], false;
    hide Wellformed, Exactly, Effective, Limited;
    for i := 0 to |open|
      invariant |effective| == i
      invariant truncated ==> OneLimited(g, SetOf(sources), open, maxHops, maxNodes)
      invariant exact && !truncated ==> forall k :: 0 <= k < i ==> (effective[k] <==> Effective(g, SetOf(sources), open[k]))
    {
      var e, cutShort := IsEffective(g, sources, open[i], base, exact, maxHops, maxNodes);
      effective := effective + [e];
      truncated := truncated || cutShort;
    }
  }

  /** The per-device verdict is right about what opening the device loses, except for a one-terminal device named as a
    * source that some neighbour depends on: that one is always reported as separating nothing. */
  lemma VerdictIsRightExactly(g: Graph, S: set<Dev>, d: Dev)
    requires Wellformed(g)
    ensures (Effective(g, S, d) <==> exists e :: IsLost(g, S, {d}, e))
      <==> !(OneTerminal(g, d) && d in S && exists a :: a in g.devices && Adjacent(g, d, a) && a != d && !Reaches(g, S - {d}, AllClosed(), a))
  {
    hide IsLost, Adjacent, Reaches;
    if OneTerminal(g, d) { OneTerminalLosesSomething(g, S, d); }
  }
}
