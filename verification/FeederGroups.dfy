/** Which heads a main-lane claim picks: whole feeder groups, the one with the oldest head first
  * (backend/src/infra/intakeQueue.js, claimGroups). */
module FeederGroups {
  import opened Common

  function First(s: seq<nat>, k: nat): seq<nat> { if |s| <= k then s else s[..k] }

  function InGroup(group: nat -> nat, g: nat): nat -> bool { (id: nat) => group(id) == g }

  /** The heads of one group, oldest first. */
  function Members(heads: seq<nat>, group: nat -> nat, g: nat): seq<nat> { Filter(InGroup(group, g), heads) }

  /** The groups, in the order of their oldest heads. */
  function Groups(heads: seq<nat>, group: nat -> nat): seq<nat> {
    if heads == [] then []
    else
      var gs, g := Groups(heads[..|heads| - 1], group), group(heads[|heads| - 1]);
      if g in gs then gs else gs + [g]
  }

  /** At most groupMax heads of each group, group after group. */
  function Ranked(heads: seq<nat>, group: nat -> nat, gs: seq<nat>, groupMax: nat): seq<nat> {
    if gs == [] then []
    else Ranked(heads, group, gs[..|gs| - 1], groupMax) + First(Members(heads, group, gs[|gs| - 1]), groupMax)
  }

  function Picks(heads: seq<nat>, group: nat -> nat, groupMax: nat, limit: nat): seq<nat> {
    First(Ranked(heads, group, Groups(heads, group), groupMax), limit)
  }

  // ---- what is picked ----

  lemma MembersRight(heads: seq<nat>, group: nat -> nat, g: nat)
    requires Increasing(heads)
    ensures Increasing(Members(heads, group, g))
    ensures forall x: nat :: x in Members(heads, group, g) <==> x in heads && group(x) == g
  {
    FilterIncreasing(InGroup(group, g), heads);
  }

  lemma {:induction false} GroupsRight(heads: seq<nat>, group: nat -> nat)
    ensures Distinct(Groups(heads, group))
    ensures forall k :: 0 <= k < |heads| ==> group(heads[k]) in Groups(heads, group)
  {
    if heads != [] {
      GroupsRight(heads[..|heads| - 1], group);
    }
  }

  /** Which of the picked heads are whose. */
  ghost predicate AllOf(s: seq<nat>, group: nat -> nat, gs: seq<nat>) { forall k :: 0 <= k < |s| ==> group(s[k]) in gs }

  lemma FirstOf(heads: seq<nat>, group: nat -> nat, g: nat, groupMax: nat)
    requires Increasing(heads)
    ensures var f := First(Members(heads, group, g), groupMax);
      Distinct(f) && Contained(f, heads) && (forall k :: 0 <= k < |f| ==> group(f[k]) == g)
  {
    var m := Members(heads, group, g);
    MembersRight(heads, group, g);
    var f := First(m, groupMax);
    forall k | 0 <= k < |f| ensures f[k] in heads && group(f[k]) == g { assert f[k] == m[k] && m[k] in m; }
  }

  lemma {:induction false} RankedRight(heads: seq<nat>, group: nat -> nat, gs: seq<nat>, groupMax: nat)
    requires Increasing(heads) && Distinct(gs)
    ensures var r := Ranked(heads, group, gs, groupMax); Distinct(r) && Contained(r, heads) && AllOf(r, group, gs)
  {
    if gs != [] {
      var gs0, g := gs[..|gs| - 1], gs[|gs| - 1];
      assert g !in gs0;
      RankedRight(heads, group, gs0, groupMax);
      FirstOf(heads, group, g, groupMax);
      var r0, f := Ranked(heads, group, gs0, groupMax), First(Members(heads, group, g), groupMax);
      assert Ranked(heads, group, gs, groupMax) == r0 + f;
      Appended(r0, f, group, gs0, g);
      forall k | 0 <= k < |r0 + f| ensures (r0 + f)[k] in heads { assert (r0 + f)[k] == if k < |r0| then r0[k] else f[k - |r0|]; }
    }
  }

  lemma Appended(r: seq<nat>, f: seq<nat>, group: nat -> nat, gs: seq<nat>, g: nat)
    requires Distinct(r) && Distinct(f) && AllOf(r, group, gs) && g !in gs && forall k :: 0 <= k < |f| ==> group(f[k]) == g
    ensures Distinct(r + f) && AllOf(r + f, group, gs + [g])
  {
    var t := r + f;
    forall i, j | 0 <= i < j < |t| ensures t[i] != t[j] {
      if i < |r| <= j { assert group(r[i]) in gs && group(f[j - |r|]) == g; }
    }
    assert g in gs + [g] && forall x :: x in gs ==> x in gs + [g];
  }

  /** How many of s belong to group g. */
  function Count(s: seq<nat>, group: nat -> nat, g: nat): nat {
    if s == [] then 0 else Count(s[..|s| - 1], group, g) + (if group(s[|s| - 1]) == g then 1 else 0)
  }

  lemma {:induction false} CountAppend(a: seq<nat>, b: seq<nat>, group: nat -> nat, g: nat)
    ensures Count(a + b, group, g) == Count(a, group, g) + Count(b, group, g)
    decreases |b|
  {
    if b == [] {
      assert a + b == a;
    } else {
      assert (a + b)[..|a + b| - 1] == a + b[..|b| - 1];
      CountAppend(a, b[..|b| - 1], group, g);
    }
  }

  lemma {:induction false} CountNone(s: seq<nat>, group: nat -> nat, g: nat)
    ensures Count(s, group, g) <= |s|
    ensures (forall k :: 0 <= k < |s| ==> group(s[k]) != g) ==> Count(s, group, g) == 0
  {
    if s != [] { CountNone(s[..|s| - 1], group, g); }
  }

  lemma {:induction false} FewOfEach(heads: seq<nat>, group: nat -> nat, gs: seq<nat>, groupMax: nat, g: nat)
    requires Increasing(heads) && Distinct(gs)
    ensures Count(Ranked(heads, group, gs, groupMax), group, g) <= groupMax
    ensures g !in gs ==> Count(Ranked(heads, group, gs, groupMax), group, g) == 0
  {
    if gs != [] {
      var gs0, h := gs[..|gs| - 1], gs[|gs| - 1];
      assert gs == gs0 + [h] && h !in gs0;
      var f := First(Members(heads, group, h), groupMax);
      FewOfEach(heads, group, gs0, groupMax, g);
      FirstOf(heads, group, h, groupMax);
      CountAppend(Ranked(heads, group, gs0, groupMax), f, group, g);
      CountNone(f, group, g);
    }
  }

  lemma CountFirst(s: seq<nat>, k: nat, group: nat -> nat, g: nat)
    ensures Count(First(s, k), group, g) <= Count(s, group, g)
  {
    if |s| > k {
      assert s == s[..k] + s[k..];
      CountAppend(s[..k], s[k..], group, g);
    }
  }

  lemma {:induction false} OldestFirst(p: nat -> bool, s: seq<nat>)
    requires s != [] && p(s[0])
    ensures Filter(p, s) != [] && Filter(p, s)[0] == s[0]
  {
    if |s| > 1 { OldestFirst(p, s[..|s| - 1]); }
  }

  lemma {:induction false} OldestGroupFirst(heads: seq<nat>, group: nat -> nat)
    requires heads != []
    ensures Groups(heads, group) != [] && Groups(heads, group)[0] == group(heads[0])
  {
    if |heads| > 1 { OldestGroupFirst(heads[..|heads| - 1], group); }
  }

  lemma {:induction false} OldestRankedFirst(heads: seq<nat>, group: nat -> nat, gs: seq<nat>, groupMax: nat)
    requires heads != [] && gs != [] && gs[0] == group(heads[0]) && groupMax > 0
    ensures var r := Ranked(heads, group, gs, groupMax); r != [] && r[0] == heads[0]
  {
    if |gs| == 1 {
      OldestFirst(InGroup(group, gs[0]), heads);
      assert gs[..0] == [] && Ranked(heads, group, [], groupMax) == [];
    } else {
      OldestRankedFirst(heads, group, gs[..|gs| - 1], groupMax);
    }
  }

  /** Each group is picked from its oldest head on: what is ranked of group g are its first groupMax heads. */
  lemma {:induction false} WholeGroups(heads: seq<nat>, group: nat -> nat, gs: seq<nat>, groupMax: nat, g: nat)
    requires g in gs
    ensures forall x :: x in First(Members(heads, group, g), groupMax) ==> x in Ranked(heads, group, gs, groupMax)
  {
    var gs0, h := gs[..|gs| - 1], gs[|gs| - 1];
    assert gs == gs0 + [h];
    if g != h { WholeGroups(heads, group, gs0, groupMax, g); }
  }

  lemma FirstKeeps(s: seq<nat>, k: nat, heads: seq<nat>)
    requires Distinct(s) && Contained(s, heads)
    ensures Distinct(First(s, k)) && Contained(First(s, k), heads) && |First(s, k)| <= k
    ensures s != [] && k > 0 ==> First(s, k) != [] && First(s, k)[0] == s[0]
  {
    assert forall i :: 0 <= i < |First(s, k)| ==> First(s, k)[i] == s[i];
  }

  lemma NothingLeftOut(heads: seq<nat>, group: nat -> nat, groupMax: nat, g: nat)
    requires Increasing(heads)
    ensures forall x :: x in First(Members(heads, group, g), groupMax) ==> x in Ranked(heads, group, Groups(heads, group), groupMax)
  {
    var f := First(Members(heads, group, g), groupMax);
    if f != [] {
      FirstOf(heads, group, g, groupMax);
      GroupsRight(heads, group);
      assert f[0] in heads && group(f[0]) == g;
      var j :| 0 <= j < |heads| && heads[j] == f[0];
      assert group(heads[j]) in Groups(heads, group);
      WholeGroups(heads, group, Groups(heads, group), groupMax, g);
    }
  }

  /** A claim takes distinct heads, no more than its limit and no more than groupMax of any group, the oldest head of all
    * first, so none is ever passed over for good; and a claim not filled left out nothing but what groupMax cut off. */
  lemma PicksRight(heads: seq<nat>, group: nat -> nat, groupMax: nat, limit: nat, g: nat)
    requires Increasing(heads)
    ensures var p := Picks(heads, group, groupMax, limit);
      && Distinct(p) && Contained(p, heads) && |p| <= limit
      && Count(p, group, g) <= groupMax
      && (heads != [] && groupMax > 0 && limit > 0 ==> p != [] && p[0] == heads[0])
      && (|p| < limit ==> forall x :: x in First(Members(heads, group, g), groupMax) ==> x in p)
  {
    var gs := Groups(heads, group);
    var r := Ranked(heads, group, gs, groupMax);
    GroupsRight(heads, group);
    RankedRight(heads, group, gs, groupMax);
    FewOfEach(heads, group, gs, groupMax, g);
    CountFirst(r, limit, group, g);
    FirstKeeps(r, limit, heads);
    NothingLeftOut(heads, group, groupMax, g);
    assert |First(r, limit)| < limit ==> First(r, limit) == r;
    hide Groups, Ranked, Members, Distinct, Contained, Count, Increasing, First, AllOf;
    if heads != [] && groupMax > 0 && limit > 0 {
      OldestGroupFirst(heads, group);
      OldestRankedFirst(heads, group, gs, groupMax);
    }
  }

  // ---- exactly which, and in which order ----

  /** x is claimed before y: its group has the older oldest head, or they are of one group and x is older. */
  ghost predicate Before(heads: seq<nat>, group: nat -> nat, x: nat, y: nat) {
    if group(x) == group(y) then x < y else OlderGroup(heads, group, group(x), group(y))
  }

  /** Some head of group g is older than every head of group h. */
  ghost predicate OlderGroup(heads: seq<nat>, group: nat -> nat, g: nat, h: nat) {
    exists i :: 0 <= i < |heads| && group(heads[i]) == g && forall j :: 0 <= j < |heads| && group(heads[j]) == h ==> heads[i] < heads[j]
  }

  /** How many heads of its own group are before the k-th head. */
  function Rank(heads: seq<nat>, group: nat -> nat, k: nat): nat
    requires k < |heads|
  {
    Count(heads[..k], group, group(heads[k]))
  }

  lemma OlderStill(heads: seq<nat>, group: nat -> nat, g: nat, h: nat)
    requires Increasing(heads) && heads != [] && OlderGroup(heads[..|heads| - 1], group, g, h)
    ensures OlderGroup(heads, group, g, h)
  {
    var n := |heads| - 1;
    var i :| 0 <= i < n && group(heads[..n][i]) == g && forall j :: 0 <= j < n && group(heads[..n][j]) == h ==> heads[..n][i] < heads[..n][j];
    assert group(heads[i]) == g;
    forall j | 0 <= j < |heads| && group(heads[j]) == h ensures heads[i] < heads[j] {
      if j < n { assert heads[..n][j] == heads[j]; }
    }
  }

  lemma NewestGroup(heads: seq<nat>, group: nat -> nat, g: nat)
    requires Increasing(heads) && heads != [] && g in Groups(heads[..|heads| - 1], group)
    requires group(heads[|heads| - 1]) !in Groups(heads[..|heads| - 1], group)
    ensures OlderGroup(heads, group, g, group(heads[|heads| - 1]))
  {
    var n := |heads| - 1;
    GroupsRight(heads[..n], group);
    GroupsOnly(heads[..n], group, g);
    var i :| 0 <= i < n && group(heads[..n][i]) == g;
    assert forall j :: 0 <= j < n ==> heads[..n][j] == heads[j] && group(heads[..n][j]) in Groups(heads[..n], group);
    assert forall j :: 0 <= j < |heads| && group(heads[j]) == group(heads[n]) ==> heads[i] < heads[j];
    assert group(heads[i]) == g;
  }

  lemma {:induction false} GroupsOnly(heads: seq<nat>, group: nat -> nat, g: nat)
    requires g in Groups(heads, group)
    ensures exists i :: 0 <= i < |heads| && group(heads[i]) == g
  {
    var n := |heads| - 1;
    if group(heads[n]) != g {
      GroupsOnly(heads[..n], group, g);
      var i :| 0 <= i < n && group(heads[..n][i]) == g;
      assert group(heads[i]) == g;
    }
  }

  ghost predicate InOrder(heads: seq<nat>, group: nat -> nat, gs: seq<nat>) {
    forall i, j :: 0 <= i < j < |gs| ==> OlderGroup(heads, group, gs[i], gs[j])
  }

  /** The groups come in the order of their oldest heads. */
  lemma {:induction false} GroupsInOrder(heads: seq<nat>, group: nat -> nat)
    requires Increasing(heads)
    ensures InOrder(heads, group, Groups(heads, group))
  {
    if heads != [] {
      var n := |heads| - 1;
      var gs0, gs := Groups(heads[..n], group), Groups(heads, group);
      GroupsInOrder(heads[..n], group);
      hide OlderGroup, Groups, Increasing;
      assert gs == gs0 || (gs == gs0 + [group(heads[n])] && group(heads[n]) !in gs0) by { hide *; GroupsNext(heads, group); }
      assert Increasing(heads);
      forall i, j | 0 <= i < j < |gs| ensures OlderGroup(heads, group, gs[i], gs[j]) {
        assert i < |gs0| && gs[i] == gs0[i];
        if j < |gs0| {
          assert gs[j] == gs0[j];
          OlderStill(heads, group, gs[i], gs[j]);
        } else {
          assert gs[i] in gs0;
          NewestGroup(heads, group, gs[i]);
        }
      }
    }
  }

  lemma GroupsNext(heads: seq<nat>, group: nat -> nat)
    requires heads != []
    ensures var n := |heads| - 1; var gs0, gs := Groups(heads[..n], group), Groups(heads, group);
      gs == gs0 || (gs == gs0 + [group(heads[n])] && group(heads[n]) !in gs0)
  {
  }

  /** The k-th head stands at its rank among the members of its group. */
  lemma {:induction false} RankIsPosition(heads: seq<nat>, group: nat -> nat, g: nat, k: nat)
    requires k <= |heads|
    ensures |Members(heads, group, g)| == Count(heads, group, g)
    ensures k < |heads| && group(heads[k]) == g ==>
      Rank(heads, group, k) < |Members(heads, group, g)| && Members(heads, group, g)[Rank(heads, group, k)] == heads[k]
  {
    if heads != [] {
      var n := |heads| - 1;
      RankIsPosition(heads[..n], group, g, if k < n then k else n);
      if k < n { assert heads[..n][..k] == heads[..k] && heads[..n][k] == heads[k]; }
    }
  }

  /** Ranked of a group are exactly those of rank below groupMax. */
  lemma RankedExactly(heads: seq<nat>, group: nat -> nat, groupMax: nat, k: nat)
    requires Increasing(heads) && k < |heads|
    ensures heads[k] in First(Members(heads, group, group(heads[k])), groupMax) <==> Rank(heads, group, k) < groupMax
  {
    var g := group(heads[k]);
    var m, r := Members(heads, group, g), Rank(heads, group, k);
    RankIsPosition(heads, group, g, k);
    MembersRight(heads, group, g);
    var f := First(m, groupMax);
    if r < groupMax { assert f[r] == heads[k]; }
    if heads[k] in f {
      var i :| 0 <= i < |f| && f[i] == heads[k];
      assert m[i] == m[r];
    }
  }

  ghost predicate Ordered(heads: seq<nat>, group: nat -> nat, s: seq<nat>) {
    forall i, j :: 0 <= i < j < |s| ==> Before(heads, group, s[i], s[j])
  }

  lemma {:induction false} RankedInOrder(heads: seq<nat>, group: nat -> nat, gs: seq<nat>, groupMax: nat)
    requires Increasing(heads) && Distinct(gs) && InOrder(heads, group, gs)
    ensures Ordered(heads, group, Ranked(heads, group, gs, groupMax))
  {
    if gs != [] {
      var n := |gs| - 1;
      var gs0, g := gs[..n], gs[n];
      assert Distinct(gs0) && g !in gs0;
      RankedInOrder(heads, group, gs0, groupMax);
      RankedRight(heads, group, gs0, groupMax);
      FirstOf(heads, group, g, groupMax);
      MembersRight(heads, group, g);
      var r0, f := Ranked(heads, group, gs0, groupMax), First(Members(heads, group, g), groupMax);
      assert Ranked(heads, group, gs, groupMax) == r0 + f;
      forall i, j | 0 <= i < j < |r0 + f| ensures Before(heads, group, (r0 + f)[i], (r0 + f)[j]) {
        if i < |r0| <= j {
          assert group(r0[i]) in gs0;
          var h :| 0 <= h < n && gs0[h] == group(r0[i]);
          assert OlderGroup(heads, group, gs[h], gs[n]);
        }
      }
    }
  }

  /** A claim takes, of the heads it scanned, the first `limit` of those that are among the first groupMax of their group, where
    * groups come in the order of their oldest heads and a group's heads by age; and nothing else. */
  lemma PicksExactly(heads: seq<nat>, group: nat -> nat, groupMax: nat, limit: nat, k: nat)
    requires Increasing(heads) && k < |heads|
    ensures var p := Picks(heads, group, groupMax, limit);
      && Ordered(heads, group, p)
      && (heads[k] in p ==> Rank(heads, group, k) < groupMax)
      && (heads[k] !in p ==> Rank(heads, group, k) >= groupMax || (|p| == limit && forall i :: 0 <= i < |p| ==> Before(heads, group, p[i], heads[k])))
  {
    var gs := Groups(heads, group);
    var r, p := Ranked(heads, group, gs, groupMax), Picks(heads, group, groupMax, limit);
    GroupsRight(heads, group);
    GroupsInOrder(heads, group);
    RankedInOrder(heads, group, gs, groupMax);
    RankedExactly(heads, group, groupMax, k);
    assert group(heads[k]) in gs;
    WholeGroups(heads, group, gs, groupMax, group(heads[k]));
    if heads[k] in r { OnlyRanked(heads, group, gs, groupMax, heads[k]); }
    assert forall i :: 0 <= i < |p| ==> p[i] == r[i];
    assert heads[k] in r <==> Rank(heads, group, k) < groupMax;
    hide Before, Ranked, Rank, Groups, Members, Increasing;
    if heads[k] in r && heads[k] !in p {
      var i :| 0 <= i < |r| && r[i] == heads[k];
      assert i >= limit;
    }
  }

  lemma {:induction false} OnlyRanked(heads: seq<nat>, group: nat -> nat, gs: seq<nat>, groupMax: nat, x: nat)
    requires Increasing(heads) && x in Ranked(heads, group, gs, groupMax)
    ensures x in First(Members(heads, group, group(x)), groupMax)
  {
    var n := |gs| - 1;
    var f := First(Members(heads, group, gs[n]), groupMax);
    if x in f {
      FirstOf(heads, group, gs[n], groupMax);
    } else {
      OnlyRanked(heads, group, gs[..n], groupMax, x);
    }
  }
}
