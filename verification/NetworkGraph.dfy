/** The equipment / terminal / connectivity-node graph and its breadth-first walk (backend/src/domain/networkGraph.js). */
module NetworkGraph {
  import opened Common

  type Dev = nat
  type Node = nat

  datatype Terminal = Terminal(id: nat, dev: Dev, node: Node)

  /** `devices` is the equipment table in id order; `terminals` ties each device to the nodes it touches. */
  datatype Graph = Graph(devices: seq<Dev>, terminals: seq<Terminal>)

  ghost predicate Wellformed(g: Graph) {
    && (forall i, j :: 0 <= i < j < |g.devices| ==> g.devices[i] < g.devices[j])
    && (forall i :: 0 <= i < |g.terminals| ==> g.terminals[i].dev in g.devices)
    && (forall i, j :: 0 <= i < j < |g.terminals| ==> g.terminals[i].id != g.terminals[j].id)
  }

  // ---- hops ----

  /** Two different terminals of a and d meet at node n. */
  ghost predicate Meet(g: Graph, a: Dev, d: Dev, n: Node) {
    exists i, j :: 0 <= i < |g.terminals| && 0 <= j < |g.terminals| && g.terminals[i].id != g.terminals[j].id
      && g.terminals[i].dev == a && g.terminals[j].dev == d && g.terminals[i].node == n && g.terminals[j].node == n
  }

  ghost predicate Adjacent(g: Graph, a: Dev, d: Dev) { exists n :: Meet(g, a, d, n) }

  /** The devices one hop away from any of F. */
  ghost function Around(g: Graph, F: set<Dev>): set<Dev> {
    set d | d in g.devices && exists a :: a in F && Adjacent(g, a, d)
  }

  ghost function Passing(S: set<Dev>, pass: Dev -> bool): set<Dev> { set d | d in S && pass(d) }

  /** The devices at most k hops from S, walking on only past devices that pass. */
  ghost function Within(g: Graph, S: set<Dev>, pass: Dev -> bool, k: nat): set<Dev> {
    if k == 0 then S else Within(g, S, pass, k - 1) + Around(g, Passing(Within(g, S, pass, k - 1), pass))
  }

  ghost predicate Reaches(g: Graph, S: set<Dev>, pass: Dev -> bool, d: Dev) { exists k :: d in Within(g, S, pass, k) }

  /** d is exactly k hops away: no shorter walk gets there. */
  ghost predicate AtDepth(g: Graph, S: set<Dev>, pass: Dev -> bool, d: Dev, k: nat) {
    d in Within(g, S, pass, k) && (k > 0 ==> d !in Within(g, S, pass, k - 1))
  }

  lemma {:induction false} WithinGrows(g: Graph, S: set<Dev>, pass: Dev -> bool, j: nat, k: nat)
    requires j <= k
    ensures Within(g, S, pass, j) <= Within(g, S, pass, k)
  {
    hide Around, Passing;
    if j < k { WithinGrows(g, S, pass, j, k - 1); }
  }

  /** Depth is the true shortest hop count. */
  lemma DepthIsShortest(g: Graph, S: set<Dev>, pass: Dev -> bool, d: Dev, k: nat, j: nat)
    requires AtDepth(g, S, pass, d, k) && d in Within(g, S, pass, j)
    ensures k <= j
  {
    hide Within;
    if j < k { WithinGrows(g, S, pass, j, k - 1); }
  }

  /** Once a hop adds nothing, nothing further is ever reached. */
  lemma {:induction false} WalkEnds(g: Graph, S: set<Dev>, pass: Dev -> bool, k: nat, j: nat)
    requires Within(g, S, pass, k + 1) == Within(g, S, pass, k) && k <= j
    ensures Within(g, S, pass, j) == Within(g, S, pass, k)
  {
    hide Around, Passing;
    if k < j { WalkEnds(g, S, pass, k, j - 1); }
  }

  // ---- one query per hop ----

  /** One row of the hop query: the device reached, from which frontier device, through which node. */
  datatype Hop = Hop(dev: Dev, from_: Dev, via: Node)

  predicate Sooner(a: Hop, b: Hop) { a.from_ < b.from_ || (a.from_ == b.from_ && a.via <= b.via) }

  function Better(a: Option<Hop>, b: Option<Hop>): Option<Hop> {
    if a.None? then b else if b.None? || Sooner(a.value, b.value) then a else b
  }

  /** The best hop into terminal t from the first i terminals. */
  function BestInto(g: Graph, F: set<Dev>, t: Terminal, i: nat): Option<Hop>
    requires i <= |g.terminals|
  {
    if i == 0 then None
    else
      var u := g.terminals[i - 1];
      Better(BestInto(g, F, t, i - 1),
             if u.dev in F && u.id != t.id && u.node == t.node then Some(Hop(t.dev, u.dev, u.node)) else None)
  }

  /** The best hop to device d over its first j terminals. */
  function BestTo(g: Graph, F: set<Dev>, d: Dev, j: nat): Option<Hop>
    requires j <= |g.terminals|
  {
    if j == 0 then None
    else Better(BestTo(g, F, d, j - 1), if g.terminals[j - 1].dev == d then BestInto(g, F, g.terminals[j - 1], |g.terminals|) else None)
  }

  /** DISTINCT ON device, ordered by device: one hop for every device next to the frontier. */
  function Hops(g: Graph, F: set<Dev>, n: nat): seq<Hop>
    requires n <= |g.devices|
  {
    if n == 0 then []
    else Hops(g, F, n - 1) + (match BestTo(g, F, g.devices[n - 1], |g.terminals|) case None => [] case Some(h) => [h])
  }

  ghost predicate IsHop(g: Graph, F: set<Dev>, d: Dev, h: Hop) { h.dev == d && h.from_ in F && Meet(g, h.from_, d, h.via) }

  lemma {:induction false} BestIntoRight(g: Graph, F: set<Dev>, j: nat, i: nat)
    requires j < |g.terminals| && i <= |g.terminals|
    ensures var t := g.terminals[j]; var b := BestInto(g, F, t, i);
      && (b.Some? ==> IsHop(g, F, t.dev, b.value))
      && (b.None? ==> forall k :: 0 <= k < i ==> !(g.terminals[k].dev in F && g.terminals[k].id != t.id && g.terminals[k].node == t.node))
  {
    if i > 0 {
      BestIntoRight(g, F, j, i - 1);
      var u, t := g.terminals[i - 1], g.terminals[j];
      if u.dev in F && u.id != t.id && u.node == t.node { assert Meet(g, u.dev, t.dev, u.node); }
    }
  }

  lemma {:induction false} BestToRight(g: Graph, F: set<Dev>, d: Dev, j: nat)
    requires j <= |g.terminals|
    ensures var b := BestTo(g, F, d, j);
      && (b.Some? ==> IsHop(g, F, d, b.value))
      && (b.None? ==> forall k :: 0 <= k < j && g.terminals[k].dev == d ==> BestInto(g, F, g.terminals[k], |g.terminals|).None?)
  {
    if j > 0 {
      BestToRight(g, F, d, j - 1);
      BestIntoRight(g, F, j - 1, |g.terminals|);
    }
  }

  /** A device has a hop exactly when it is next to the frontier. */
  lemma BestToIffAround(g: Graph, F: set<Dev>, d: Dev)
    requires Wellformed(g) && d in g.devices
    ensures BestTo(g, F, d, |g.terminals|).Some? <==> d in Around(g, F)
    ensures BestTo(g, F, d, |g.terminals|).Some? ==> IsHop(g, F, d, BestTo(g, F, d, |g.terminals|).value)
  {
    BestToRight(g, F, d, |g.terminals|);
    if BestTo(g, F, d, |g.terminals|).None? {
      forall a, n | a in F ensures !Meet(g, a, d, n) {
        forall i, j | 0 <= i < |g.terminals| && 0 <= j < |g.terminals| && g.terminals[j].dev == d && g.terminals[i].id != g.terminals[j].id
          && g.terminals[i].dev == a ensures g.terminals[i].node != g.terminals[j].node {
          BestIntoRight(g, F, j, |g.terminals|);
        }
      }
    }
  }

  /** No worse than any other: by the device it comes from, then by the node. */
  predicate AtLeast(h: Hop, from_: Dev, via: Node) { h.from_ < from_ || (h.from_ == from_ && h.via <= via) }

  lemma {:induction false} BestIntoFirst(g: Graph, F: set<Dev>, t: Terminal, i: nat, k: nat)
    requires k < i <= |g.terminals| && g.terminals[k].dev in F && g.terminals[k].id != t.id && g.terminals[k].node == t.node
    ensures BestInto(g, F, t, i).Some? && AtLeast(BestInto(g, F, t, i).value, g.terminals[k].dev, g.terminals[k].node)
  {
    if k < i - 1 { BestIntoFirst(g, F, t, i - 1, k); }
  }

  lemma {:induction false} BestToFirst(g: Graph, F: set<Dev>, d: Dev, j: nat, k: nat, i: nat)
    requires k < j <= |g.terminals| && i < |g.terminals| && g.terminals[k].dev == d
    requires g.terminals[i].dev in F && g.terminals[i].id != g.terminals[k].id && g.terminals[i].node == g.terminals[k].node
    ensures BestTo(g, F, d, j).Some? && AtLeast(BestTo(g, F, d, j).value, g.terminals[i].dev, g.terminals[i].node)
  {
    if k < j - 1 { BestToFirst(g, F, d, j - 1, k, i); } else { BestIntoFirst(g, F, g.terminals[k], |g.terminals|, i); }
  }

  /** Of several ways to a device its row names the one from the first frontier device, through the first node. */
  lemma {:induction false} HopsFirst(g: Graph, F: set<Dev>, n: nat, k: nat, from_: Dev, via: Node)
    requires n <= |g.devices| && k < |Hops(g, F, n)| && from_ in F && Meet(g, from_, Hops(g, F, n)[k].dev, via)
    requires Wellformed(g)
    ensures var h := Hops(g, F, n)[k]; h.from_ < from_ || (h.from_ == from_ && h.via <= via)
  {
    var h := Hops(g, F, n)[k];
    if k < |Hops(g, F, n - 1)| {
      HopsFirst(g, F, n - 1, k, from_, via);
    } else {
      BestToIffAround(g, F, g.devices[n - 1]);
      var i, j :| 0 <= i < |g.terminals| && 0 <= j < |g.terminals| && g.terminals[i].id != g.terminals[j].id
        && g.terminals[i].dev == from_ && g.terminals[j].dev == h.dev && g.terminals[i].node == via && g.terminals[j].node == via;
      BestToFirst(g, F, h.dev, |g.terminals|, j, i);
    }
  }

  lemma {:induction false} HopsSound(g: Graph, F: set<Dev>, n: nat, k: nat)
    requires Wellformed(g) && n <= |g.devices| && k < |Hops(g, F, n)|
    ensures var h := Hops(g, F, n)[k]; IsHop(g, F, h.dev, h) && h.dev in Around(g, F)
    ensures n > 0 && Hops(g, F, n)[k].dev <= g.devices[n - 1]
  {
    hide IsHop, Around, Meet;
    BestToIffAround(g, F, g.devices[n - 1]);
    if k < |Hops(g, F, n - 1)| { HopsSound(g, F, n - 1, k); }
  }

  lemma {:induction false} HopsComplete(g: Graph, F: set<Dev>, n: nat, i: nat)
    requires Wellformed(g) && i < n <= |g.devices| && g.devices[i] in Around(g, F)
    ensures exists k :: 0 <= k < |Hops(g, F, n)| && Hops(g, F, n)[k].dev == g.devices[i]
  {
    hide Around;
    BestToIffAround(g, F, g.devices[n - 1]);
    if i < n - 1 {
      HopsComplete(g, F, n - 1, i);
      var k :| 0 <= k < |Hops(g, F, n - 1)| && Hops(g, F, n - 1)[k].dev == g.devices[i];
      assert Hops(g, F, n)[k].dev == g.devices[i];
    } else {
      assert Hops(g, F, n)[|Hops(g, F, n)| - 1].dev == g.devices[i];
    }
  }

  /** Every device appears at most once in a query's answer. */
  lemma {:induction false} HopsOrdered(g: Graph, F: set<Dev>, n: nat, i: nat, j: nat)
    requires Wellformed(g) && n <= |g.devices| && i < j < |Hops(g, F, n)|
    ensures Hops(g, F, n)[i].dev < Hops(g, F, n)[j].dev
  {
    hide Around, Meet;
    BestToIffAround(g, F, g.devices[n - 1]);
    if j < |Hops(g, F, n - 1)| { HopsOrdered(g, F, n - 1, i, j); } else { HopsSound(g, F, n - 1, i); }
  }
}
