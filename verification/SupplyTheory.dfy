/** What opening devices means for supply (backend/src/domain/supplyTrace.js): the facts behind the what-if answer. */
module SupplyTheory {
  import opened Common
  import opened NetworkGraph

  /** Every switch treated as closed. */
  function AllClosed(): Dev -> bool { (d: Dev) => true }

  /** The walk stops at devices assumed open. */
  function Cut(open: set<Dev>): Dev -> bool { (d: Dev) => d !in open }

  /** Supplied from S with every switch closed, and not once these devices are open. */
  ghost predicate IsLost(g: Graph, S: set<Dev>, open: set<Dev>, d: Dev) { Reaches(g, S, AllClosed(), d) && !Reaches(g, S, Cut(open), d) }

  lemma {:induction false} PassMore(g: Graph, S: set<Dev>, T: set<Dev>, p: Dev -> bool, q: Dev -> bool, k: nat)
    requires S <= T && forall d :: p(d) ==> q(d)
    ensures Within(g, S, p, k) <= Within(g, T, q, k)
  {
    hide Around, Passing;
    if k > 0 {
      PassMore(g, S, T, p, q, k - 1);
      PassingMore(Within(g, S, p, k - 1), Within(g, T, q, k - 1), p, q);
      AroundMore(g, Passing(Within(g, S, p, k - 1), p), Passing(Within(g, T, q, k - 1), q));
    }
  }

  lemma PassingMore(W: set<Dev>, V: set<Dev>, p: Dev -> bool, q: Dev -> bool)
    requires W <= V && forall d :: p(d) ==> q(d)
    ensures Passing(W, p) <= Passing(V, q)
  {
  }

  lemma AroundMore(g: Graph, F: set<Dev>, H: set<Dev>)
    requires F <= H
    ensures Around(g, F) <= Around(g, H)
  {
  }

  lemma ReachesMore(g: Graph, S: set<Dev>, T: set<Dev>, p: Dev -> bool, q: Dev -> bool, d: Dev)
    requires S <= T && (forall d :: p(d) ==> q(d)) && Reaches(g, S, p, d)
    ensures Reaches(g, T, q, d)
  {
    var k: nat :| d in Within(g, S, p, k);
    PassMore(g, S, T, p, q, k);
  }

  /** Opening more devices only ever loses more. */
  lemma LossGrows(g: Graph, S: set<Dev>, open: set<Dev>, more: set<Dev>, d: Dev)
    requires open <= more && IsLost(g, S, open, d)
    ensures IsLost(g, S, more, d)
  {
    if Reaches(g, S, Cut(more), d) { ReachesMore(g, S, S, Cut(more), Cut(open), d); }
  }

  lemma StepOn(g: Graph, S: set<Dev>, p: Dev -> bool, a: Dev, d: Dev)
    requires Reaches(g, S, p, a) && p(a) && Adjacent(g, a, d) && d in g.devices
    ensures Reaches(g, S, p, d)
  {
    var k: nat :| a in Within(g, S, p, k);
    assert a in Passing(Within(g, S, p, k), p);
    assert d in Around(g, Passing(Within(g, S, p, k), p));
    assert d in Within(g, S, p, k + 1);
  }

  lemma Origin(g: Graph, S: set<Dev>, p: Dev -> bool, d: Dev)
    requires d in S
    ensures Reaches(g, S, p, d)
  {
    assert d in Within(g, S, p, 0);
  }

  lemma Newly(g: Graph, W: set<Dev>, p: Dev -> bool, d: Dev) returns (a: Dev, n: Node)
    requires d in Around(g, Passing(W, p))
    ensures a in W && p(a) && Meet(g, a, d, n) && d in g.devices
  {
    hide Meet;
    a :| a in Passing(W, p) && Adjacent(g, a, d);
    n :| Meet(g, a, d, n);
  }

  /** How a device was first reached. */
  lemma {:induction false} Came(g: Graph, S: set<Dev>, p: Dev -> bool, d: Dev, k: nat) returns (j: nat, a: Dev, n: Node)
    requires d in Within(g, S, p, k)
    ensures d in S || (j < k && a in Within(g, S, p, j) && p(a) && Meet(g, a, d, n) && d in g.devices)
    decreases k
  {
    hide Around, Meet;
    j, a, n := 0, 0, 0;
    if d !in S {
      if d in Within(g, S, p, k - 1) {
        j, a, n := Came(g, S, p, d, k - 1);
      } else {
        j := k - 1;
        a, n := Newly(g, Within(g, S, p, j), p, d);
      }
    }
  }

  // ---- the reference: opening a device separates its terminals ----

  ghost predicate Touches(g: Graph, d: Dev, n: Node) { exists i :: 0 <= i < |g.terminals| && g.terminals[i].dev == d && g.terminals[i].node == n }

  /** A device not open ties the nodes it touches together. */
  ghost predicate Ties(g: Graph, open: set<Dev>, m: Node, n: Node) { exists d :: d !in open && Touches(g, d, m) && Touches(g, d, n) }

  /** Node n is live: tied to a source node by at most k devices in a row. */
  ghost predicate Live(g: Graph, src: set<Node>, open: set<Dev>, n: Node, k: nat)
    decreases k
  {
    n in src || (k > 0 && exists m :: Live(g, src, open, m, k - 1) && Ties(g, open, m, n))
  }

  /** A device is supplied when it touches a live node. */
  ghost predicate Supplied(g: Graph, src: set<Node>, open: set<Dev>, d: Dev) { exists n, k: nat :: Live(g, src, open, n, k) && Touches(g, d, n) }

  /** The devices on the source nodes: where the walk starts. */
  ghost predicate OnNodes(g: Graph, src: set<Node>, S: set<Dev>) { forall d :: d in S <==> exists n :: n in src && Touches(g, d, n) }

  lemma MeetTouches(g: Graph, a: Dev, d: Dev, n: Node)
    requires Meet(g, a, d, n)
    ensures Touches(g, a, n) && Touches(g, d, n)
  {
  }

  lemma TouchesMeet(g: Graph, a: Dev, d: Dev, n: Node)
    requires Wellformed(g) && Touches(g, a, n) && Touches(g, d, n) && a != d
    ensures Meet(g, a, d, n) && Adjacent(g, a, d) && d in g.devices && a in g.devices
  {
    var i :| 0 <= i < |g.terminals| && g.terminals[i].dev == a && g.terminals[i].node == n;
    var j :| 0 <= j < |g.terminals| && g.terminals[j].dev == d && g.terminals[j].node == n;
    assert i < j || j < i;
    assert Meet(g, a, d, n);
  }

  lemma {:induction false} LiveLater(g: Graph, src: set<Node>, open: set<Dev>, n: Node, j: nat, k: nat)
    requires Live(g, src, open, n, j) && j <= k
    ensures Live(g, src, open, n, k)
    decreases j
  {
    hide Ties;
    if n !in src {
      var m :| Live(g, src, open, m, j - 1) && Ties(g, open, m, n);
      LiveLater(g, src, open, m, j - 1, k - 1);
    }
  }

  lemma {:induction false} WithinIsLive(g: Graph, src: set<Node>, S: set<Dev>, open: set<Dev>, d: Dev, k: nat) returns (n: Node)
    requires OnNodes(g, src, S) && d in Within(g, S, Cut(open), k)
    ensures Live(g, src, open, n, k) && Touches(g, d, n)
    decreases k
  {
    hide Within, Meet, Touches;
    if d in S {
      n :| n in src && Touches(g, d, n);
    } else {
      var j, a;
      j, a, n := Came(g, S, Cut(open), d, k);
      var m := WithinIsLive(g, src, S, open, a, j);
      MeetTouches(g, a, d, n);
      assert Ties(g, open, m, n);
      assert Live(g, src, open, n, j + 1);
      LiveLater(g, src, open, n, j + 1, k);
    }
  }

  lemma {:induction false} LiveIsReached(g: Graph, src: set<Node>, S: set<Dev>, open: set<Dev>, d: Dev, n: Node, k: nat)
    requires Wellformed(g) && OnNodes(g, src, S) && Live(g, src, open, n, k) && Touches(g, d, n)
    ensures Reaches(g, S, Cut(open), d)
    decreases k
  {
    hide Touches, Wellformed, Reaches, Adjacent, Meet;
    if n in src {
      Origin(g, S, Cut(open), d);
    } else {
      var m :| Live(g, src, open, m, k - 1) && Ties(g, open, m, n);
      var a :| a !in open && Touches(g, a, m) && Touches(g, a, n);
      LiveIsReached(g, src, S, open, a, m, k - 1);
      if a != d {
        TouchesMeet(g, a, d, n);
        StepOn(g, S, Cut(open), a, d);
      }
    }
  }

  /** The walk that stops at open devices reaches exactly the devices still tied to the source nodes when each open
    * device's terminals are separated. */
  lemma WalkIsTerminalSeparation(g: Graph, src: set<Node>, S: set<Dev>, open: set<Dev>, d: Dev)
    requires Wellformed(g) && OnNodes(g, src, S)
    ensures Reaches(g, S, Cut(open), d) <==> Supplied(g, src, open, d)
  {
    if Reaches(g, S, Cut(open), d) {
      var k: nat :| d in Within(g, S, Cut(open), k);
      var n := WithinIsLive(g, src, S, open, d, k);
    }
    if Supplied(g, src, open, d) {
      var n, k: nat :| Live(g, src, open, n, k) && Touches(g, d, n);
      LiveIsReached(g, src, S, open, d, n, k);
    }
  }

  /** Lost supply, from source nodes: supplied with nothing open, and not once these devices' terminals are separated. */
  lemma LostMeansSeparated(g: Graph, src: set<Node>, S: set<Dev>, open: set<Dev>, d: Dev)
    requires Wellformed(g) && OnNodes(g, src, S)
    ensures IsLost(g, S, open, d) <==> Supplied(g, src, {}, d) && !Supplied(g, src, open, d)
  {
    WalkIsTerminalSeparation(g, src, S, open, d);
    WalkIsTerminalSeparation(g, src, S, {}, d);
    if Reaches(g, S, AllClosed(), d) { ReachesMore(g, S, S, AllClosed(), Cut({}), d); }
    if Reaches(g, S, Cut({}), d) { ReachesMore(g, S, S, Cut({}), AllClosed(), d); }
  }

  // ---- the same reference for sources that are devices ----

  /** The nodes a source device feeds: those it touches, unless it is open itself. */
  ghost predicate FedBy(g: Graph, S: set<Dev>, open: set<Dev>, src: set<Node>) {
    forall n :: n in src <==> exists s :: s in S && s !in open && Touches(g, s, n)
  }

  lemma {:induction false} WithinIsFed(g: Graph, S: set<Dev>, open: set<Dev>, src: set<Node>, d: Dev, k: nat) returns (n: Node)
    requires FedBy(g, S, open, src) && d in Within(g, S, Cut(open), k)
    ensures d in S || (Live(g, src, open, n, k) && Touches(g, d, n))
    decreases k
  {
    hide Within, Meet, Touches;
    n := 0;
    if d !in S {
      var j, a;
      j, a, n := Came(g, S, Cut(open), d, k);
      MeetTouches(g, a, d, n);
      if a !in S {
        var m := WithinIsFed(g, S, open, src, a, j);
        assert Ties(g, open, m, n);
        assert Live(g, src, open, n, j + 1);
        LiveLater(g, src, open, n, j + 1, k);
      }
    }
  }

  lemma {:induction false} FedIsReached(g: Graph, S: set<Dev>, open: set<Dev>, src: set<Node>, d: Dev, n: Node, k: nat)
    requires Wellformed(g) && FedBy(g, S, open, src) && Live(g, src, open, n, k) && Touches(g, d, n)
    ensures Reaches(g, S, Cut(open), d)
    decreases k
  {
    hide Touches, Wellformed, Reaches, Adjacent, Meet;
    var a: Dev;
    if n in src {
      a :| a in S && a !in open && Touches(g, a, n);
      Origin(g, S, Cut(open), a);
    } else {
      var m :| Live(g, src, open, m, k - 1) && Ties(g, open, m, n);
      a :| a !in open && Touches(g, a, m) && Touches(g, a, n);
      FedIsReached(g, S, open, src, a, m, k - 1);
    }
    if a != d {
      TouchesMeet(g, a, d, n);
      StepOn(g, S, Cut(open), a, d);
    }
  }

  /** Supplied from devices: one of them, or tied to a node that one of them feeds. */
  ghost predicate SuppliedFrom(g: Graph, S: set<Dev>, open: set<Dev>, d: Dev) {
    d in S || exists src :: FedBy(g, S, open, src) && Supplied(g, src, open, d)
  }

  function NodesFed(ts: seq<Terminal>, S: set<Dev>, open: set<Dev>): set<Node> {
    set i | 0 <= i < |ts| && ts[i].dev in S && ts[i].dev !in open :: ts[i].node
  }

  lemma SomeNodesFed(g: Graph, S: set<Dev>, open: set<Dev>) returns (src: set<Node>)
    ensures FedBy(g, S, open, src)
  {
    src := NodesFed(g.terminals, S, open);
    forall n | exists s :: s in S && s !in open && Touches(g, s, n) ensures n in src {
      var s :| s in S && s !in open && Touches(g, s, n);
      var i :| 0 <= i < |g.terminals| && g.terminals[i].dev == s && g.terminals[i].node == n;
    }
    forall n | n in src ensures exists s :: s in S && s !in open && Touches(g, s, n) {
      var i :| 0 <= i < |g.terminals| && g.terminals[i].dev in S && g.terminals[i].dev !in open && g.terminals[i].node == n;
      assert Touches(g, g.terminals[i].dev, n);
    }
  }

  /** For sources of any kind: the walk that stops at open devices reaches the source devices themselves, and exactly the
    * devices still tied to a node that a closed one of them touches when each open device's terminals are separated. */
  lemma WalkFromDevices(g: Graph, S: set<Dev>, open: set<Dev>, d: Dev)
    requires Wellformed(g)
    ensures Reaches(g, S, Cut(open), d) <==> SuppliedFrom(g, S, open, d)
  {
    hide Wellformed, Touches, Live, Within;
    if Reaches(g, S, Cut(open), d) {
      var k: nat :| d in Within(g, S, Cut(open), k);
      var src := SomeNodesFed(g, S, open);
      var n := WithinIsFed(g, S, open, src, d, k);
      assert d in S || Supplied(g, src, open, d);
    }
    if d in S { Origin(g, S, Cut(open), d); }
    if src, n, k: nat :| FedBy(g, S, open, src) && Live(g, src, open, n, k) && Touches(g, d, n) {
      FedIsReached(g, S, open, src, d, n, k);
    }
  }

  /** Lost supply, from sources of any kind. */
  lemma LostFromDevices(g: Graph, S: set<Dev>, open: set<Dev>, d: Dev)
    requires Wellformed(g)
    ensures IsLost(g, S, open, d) <==> SuppliedFrom(g, S, {}, d) && !SuppliedFrom(g, S, open, d)
  {
    hide SuppliedFrom, Reaches;
    WalkFromDevices(g, S, open, d);
    WalkFromDevices(g, S, {}, d);
    if Reaches(g, S, AllClosed(), d) { ReachesMore(g, S, S, AllClosed(), Cut({}), d); }
    if Reaches(g, S, Cut({}), d) { ReachesMore(g, S, S, Cut({}), AllClosed(), d); }
  }

  // ---- devices with one terminal ----

  ghost predicate OneTerminal(g: Graph, d: Dev) {
    forall i, j :: 0 <= i < |g.terminals| && 0 <= j < |g.terminals| && g.terminals[i].dev == d && g.terminals[j].dev == d ==> i == j
  }

  lemma OneNode(g: Graph, d: Dev, m: Node, n: Node)
    requires OneTerminal(g, d) && Touches(g, d, m) && Touches(g, d, n)
    ensures m == n
  {
  }

  /** A one-terminal device that is not itself a source is never needed on the way to another. */
  lemma {:induction false} AroundIt(g: Graph, S: set<Dev>, d: Dev, e: Dev, k: nat)
    requires Wellformed(g) && OneTerminal(g, d) && d !in S && e in Within(g, S, AllClosed(), k)
    ensures Reaches(g, S, Cut({d}), e)
    decreases k
  {
    hide Within, Wellformed, OneTerminal, Meet, Reaches;
    if e in S {
      Origin(g, S, Cut({d}), e);
    } else {
      var j, a, n := Came(g, S, AllClosed(), e, k);
      if a != d {
        AroundIt(g, S, d, a, j);
        assert Adjacent(g, a, e);
        StepOn(g, S, Cut({d}), a, e);
      } else {
        ThroughIt(g, S, d, e, n, j);
      }
    }
  }

  /** Whatever is next to d's single node is next to the device d itself was reached from. */
  lemma {:induction false} ThroughIt(g: Graph, S: set<Dev>, d: Dev, e: Dev, n: Node, k: nat)
    requires Wellformed(g) && OneTerminal(g, d) && d !in S && d in Within(g, S, AllClosed(), k) && Meet(g, d, e, n) && e in g.devices
    ensures Reaches(g, S, Cut({d}), e)
    decreases k
  {
    var j, b, m := Came(g, S, AllClosed(), d, k);
    MeetTouches(g, b, d, m);
    MeetTouches(g, d, e, n);
    OneNode(g, d, m, n);
    assert b != d;
    hide Within, Wellformed, OneTerminal, Meet, Reaches, Touches, Adjacent;
    AroundIt(g, S, d, b, j);
    if b != e {
      TouchesMeet(g, b, e, n);
      StepOn(g, S, Cut({d}), b, e);
    }
  }

  /** Opening a one-terminal device that is not a source loses nothing. */
  lemma OneTerminalSeparatesNothing(g: Graph, S: set<Dev>, d: Dev, e: Dev)
    requires Wellformed(g) && OneTerminal(g, d) && d !in S
    ensures !IsLost(g, S, {d}, e)
  {
    hide Within;
    if Reaches(g, S, AllClosed(), e) {
      var k: nat :| e in Within(g, S, AllClosed(), k);
      AroundIt(g, S, d, e, k);
    }
  }

  lemma {:induction false} WithoutSource(g: Graph, S: set<Dev>, d: Dev, e: Dev, k: nat)
    requires e in Within(g, S, Cut({d}), k)
    ensures e == d || Reaches(g, S - {d}, AllClosed(), e)
    decreases k
  {
    hide Within, Meet, Reaches;
    if e in S {
      if e != d { Origin(g, S - {d}, AllClosed(), e); }
    } else {
      var j, a, n := Came(g, S, Cut({d}), e, k);
      WithoutSource(g, S, d, a, j);
      assert Adjacent(g, a, e);
      StepOn(g, S - {d}, AllClosed(), a, e);
    }
  }

  /** Opening a one-terminal source device leaves itself and what the other sources still supply. */
  lemma OpenSource(g: Graph, S: set<Dev>, d: Dev, e: Dev)
    requires Wellformed(g) && OneTerminal(g, d) && d in S
    ensures Reaches(g, S, Cut({d}), e) <==> e == d || Reaches(g, S - {d}, AllClosed(), e)
  {
    hide Within;
    if Reaches(g, S, Cut({d}), e) {
      var k: nat :| e in Within(g, S, Cut({d}), k);
      WithoutSource(g, S, d, e, k);
    }
    if e == d { Origin(g, S, Cut({d}), e); }
    if Reaches(g, S - {d}, AllClosed(), e) {
      OneTerminalSeparatesNothing(g, S - {d}, d, e);
      ReachesMore(g, S - {d}, S, Cut({d}), Cut({d}), e);
    }
  }

  lemma {:induction false} OnlyThroughSource(g: Graph, S: set<Dev>, d: Dev, e: Dev, k: nat)
    requires d in S && e in Within(g, S, AllClosed(), k)
    requires forall a :: a in g.devices && Adjacent(g, d, a) && a != d ==> Reaches(g, S - {d}, AllClosed(), a)
    ensures e == d || Reaches(g, S - {d}, AllClosed(), e)
    decreases k
  {
    hide Within, Meet, Reaches;
    if e in S {
      if e != d { Origin(g, S - {d}, AllClosed(), e); }
    } else {
      var j, a, n := Came(g, S, AllClosed(), e, k);
      assert Adjacent(g, a, e);
      OnlyThroughSource(g, S, d, a, j);
      if a != d { StepOn(g, S - {d}, AllClosed(), a, e); }
    }
  }

  /** "A one-terminal device separates nothing" holds exactly unless the device is itself one of the sources and the
    * other sources do not supply all of its neighbours. */
  lemma OneTerminalLosesSomething(g: Graph, S: set<Dev>, d: Dev)
    requires Wellformed(g) && OneTerminal(g, d)
    ensures (exists e :: IsLost(g, S, {d}, e))
      <==> d in S && exists a :: a in g.devices && Adjacent(g, d, a) && a != d && !Reaches(g, S - {d}, AllClosed(), a)
  {
    hide Within, Wellformed, OneTerminal, Adjacent;
    if d !in S {
      forall e ensures !IsLost(g, S, {d}, e) { OneTerminalSeparatesNothing(g, S, d, e); }
    } else {
      if a :| a in g.devices && Adjacent(g, d, a) && a != d && !Reaches(g, S - {d}, AllClosed(), a) {
        Origin(g, S, AllClosed(), d);
        StepOn(g, S, AllClosed(), d, a);
        OpenSource(g, S, d, a);
        assert IsLost(g, S, {d}, a);
      } else {
        forall e ensures !IsLost(g, S, {d}, e) {
          OpenSource(g, S, d, e);
          if Reaches(g, S, AllClosed(), e) {
            var k: nat :| e in Within(g, S, AllClosed(), k);
            OnlyThroughSource(g, S, d, e, k);
          }
        }
      }
    }
  }

  /** A one-terminal device named as the only source: opening it cuts off all its neighbours. */
  lemma OpenedSoleSource(g: Graph, d: Dev, a: Dev)
    requires Wellformed(g) && OneTerminal(g, d) && a in g.devices && Adjacent(g, d, a) && a != d
    ensures IsLost(g, {d}, {d}, a)
  {
    hide Within, Wellformed, OneTerminal, Adjacent;
    Origin(g, {d}, AllClosed(), d);
    StepOn(g, {d}, AllClosed(), d, a);
    OpenSource(g, {d}, d, a);
    if Reaches(g, {d} - {d}, AllClosed(), a) {
      var k: nat :| a in Within(g, {d} - {d}, AllClosed(), k);
      assert {d} - {d} == {};
      NoSource(g, AllClosed(), k);
    }
  }

  /** For instance two one-terminal devices on one node, with one of them both source and opened. */
  lemma OpenedSoleSourceExample()
    ensures var g := Graph([0, 1], [Terminal(0, 0, 5), Terminal(1, 1, 5)]);
      Wellformed(g) && OneTerminal(g, 0) && 1 in g.devices && Adjacent(g, 0, 1) && IsLost(g, {0}, {0}, 1)
  {
    var g := Graph([0, 1], [Terminal(0, 0, 5), Terminal(1, 1, 5)]);
    TwoOnANode(g);
    hide IsLost, Adjacent, OneTerminal, Wellformed;
    OpenedSoleSource(g, 0, 1);
  }

  lemma TwoOnANode(g: Graph)
    requires g == Graph([0, 1], [Terminal(0, 0, 5), Terminal(1, 1, 5)])
    ensures Wellformed(g) && OneTerminal(g, 0) && 1 in g.devices && Adjacent(g, 0, 1)
  {
    assert g.terminals[0].dev == 0 && g.terminals[1].dev == 1 && g.devices[0] == 0 && g.devices[1] == 1;
    assert Meet(g, 0, 1, 5);
  }

  lemma {:induction false} NoSource(g: Graph, p: Dev -> bool, k: nat)
    ensures Within(g, {}, p, k) == {}
  {
    if k > 0 {
      NoSource(g, p, k - 1);
      assert Passing({}, p) == {} && Around(g, {}) == {};
    }
  }
}
