/** The checks a restart run must pass: every acknowledged complaint stored exactly once under the qid it was given
  * (backend/src/selftest-restarts.js). */
module RestartCheck {
  import opened Common

  /** An answer as the sender kept it: the complaint's own key, the HTTP status, and the qid answered, if any. */
  datatype Answered = Answered(key: nat, status: nat, qid: Option<nat>)

  /** A stored complaint of the run. */
  datatype Row = Row(externalId: nat, qid: nat)

  predicate Acked(a: Answered) { a.status == 200 || a.status == 201 || a.status == 202 }

  /** The qids stored under a key, in row order. */
  function Stored(rows: seq<Row>, key: nat): seq<nat> {
    if rows == [] then []
    else Stored(rows[..|rows| - 1], key) + (if rows[|rows| - 1].externalId == key then [rows[|rows| - 1].qid] else [])
  }

  // ---- what acceptance means ----

  ghost predicate StoredOnce(a: Answered, rows: seq<Row>) { |Stored(rows, a.key)| == 1 }

  /** Stored once, and, unless it was answered as a duplicate, under the qid answered. */
  ghost predicate Kept(a: Answered, rows: seq<Row>) {
    StoredOnce(a, rows) && (a.qid.Some? && a.status != 200 ==> Stored(rows, a.key)[0] == a.qid.value)
  }

  ghost predicate AllKept(s: seq<Answered>, rows: seq<Row>) { forall k :: 0 <= k < |s| && s[k].status in {200, 201, 202} ==> Kept(s[k], rows) }

  ghost predicate SameQid(a: Answered, b: Answered) {
    a.status in {200, 201, 202} && b.status in {200, 201, 202} && a.qid.Some? && a.qid == b.qid
  }

  ghost predicate QidsApart(s: seq<Answered>) {
    forall j, k :: 0 <= j < |s| && 0 <= k < |s| && SameQid(s[j], s[k]) ==> s[j].key == s[k].key
  }

  ghost predicate NoRowTwice(rows: seq<Row>) { forall key :: |Stored(rows, key)| <= 1 }

  function Somes(table: seq<Option<nat>>): seq<nat> {
    if table == [] then []
    else Somes(table[..|table| - 1]) + (if table[|table| - 1].Some? then [table[|table| - 1].value] else [])
  }

  // ---- the loops ----

  /** The stored qids by complaint key. */
  ghost predicate ByKey(m: map<nat, seq<nat>>, rows: seq<Row>) {
    forall key :: (key in m <==> Stored(rows, key) != []) && (key in m ==> m[key] == Stored(rows, key))
  }

  method Group(rows: seq<Row>) returns (m: map<nat, seq<nat>>)
    ensures ByKey(m, rows)
  {
    m := map[];
    for i := 0 to |rows|
      invariant ByKey(m, rows[..i])
    {
      var r := rows[i];
      assert rows[..i + 1] == rows[..i] + [r] && rows[..i + 1][..i] == rows[..i];
      m := m[r.externalId := (if r.externalId in m then m[r.externalId] else []) + [r.qid]];
    }
    assert rows[..|rows|] == rows;
  }

  method CountTwice(m: map<nat, seq<nat>>) returns (n: nat)
    ensures n == 0 <==> forall key :: key in m ==> |m[key]| <= 1
  {
    n := 0;
    var left := m.Keys;
    while left != {}
      invariant left <= m.Keys
      invariant n == 0 <==> forall key :: key in m && key !in left ==> |m[key]| <= 1
      decreases left
    {
      var key :| key in left;
      if |m[key]| > 1 { n := n + 1; }
      left := left - {key};
    }
  }

  /** Who holds each qid answered so far: the first complaint it was answered for. */
  ghost predicate Owners(owner: map<nat, nat>, s: seq<Answered>) {
    && (forall k :: 0 <= k < |s| && Acked(s[k]) && s[k].qid.Some? ==> s[k].qid.value in owner)
    && (forall q :: q in owner ==> exists k :: 0 <= k < |s| && Acked(s[k]) && s[k].qid == Some(q) && s[k].key == owner[q])
  }

  /** Every answer so far names the owner of its qid. */
  ghost predicate Agree(owner: map<nat, nat>, s: seq<Answered>) {
    forall k :: 0 <= k < |s| && Acked(s[k]) && s[k].qid.Some? && s[k].qid.value in owner ==> s[k].key == owner[s[k].qid.value]
  }

  lemma AgreeMeansApart(owner: map<nat, nat>, s: seq<Answered>)
    requires Owners(owner, s)
    ensures Agree(owner, s) <==> QidsApart(s)
  {
    if QidsApart(s) {
      forall k | 0 <= k < |s| && Acked(s[k]) && s[k].qid.Some? && s[k].qid.value in owner ensures s[k].key == owner[s[k].qid.value] {
        var j :| 0 <= j < |s| && Acked(s[j]) && s[j].qid == s[k].qid && s[j].key == owner[s[k].qid.value];
        assert SameQid(s[j], s[k]);
      }
    }
  }

  method SharedQids(s: seq<Answered>) returns (shared: nat)
    ensures shared == 0 <==> QidsApart(s)
  {
    shared := 0;
    var owner: map<nat, nat> := map[];
    for i := 0 to |s|
      invariant Owners(owner, s[..i]) && (shared == 0 <==> Agree(owner, s[..i]))
    {
      var c := s[i];
      assert s[..i + 1] == s[..i] + [c];
      if Acked(c) && c.qid.Some? {
        var q := c.qid.value;
        if q in owner && owner[q] != c.key { shared := shared + 1; } else { owner := owner[q := c.key]; }
      }
    }
    assert s[..|s|] == s;
    AgreeMeansApart(owner, s);
  }

  /** What the two counters of the answer loop look at: under a key with one row, that row's qid. */
  ghost predicate Found(a: Answered, rows: seq<Row>) {
    Stored(rows, a.key) != [] && (StoredOnce(a, rows) ==> Kept(a, rows))
  }

  ghost predicate AllFound(s: seq<Answered>, rows: seq<Row>) { forall k :: 0 <= k < |s| && Acked(s[k]) ==> Found(s[k], rows) }

  method LostAndWrong(s: seq<Answered>, rows: seq<Row>, m: map<nat, seq<nat>>) returns (lost: nat, wrong: nat)
    requires ByKey(m, rows)
    ensures lost == 0 && wrong == 0 <==> AllFound(s, rows)
  {
    lost, wrong := 0, 0;
    for i := 0 to |s|
      invariant lost == 0 && wrong == 0 <==> AllFound(s[..i], rows)
    {
      var c := s[i];
      assert s[..i + 1] == s[..i] + [c];
      if Acked(c) {
        if c.key !in m { lost := lost + 1; }
        if c.qid.Some? && c.key in m && |m[c.key]| == 1 && c.status != 200 && m[c.key][0] != c.qid.value { wrong := wrong + 1; }
      }
    }
    assert s[..|s|] == s;
  }

  function Elements(s: seq<nat>): set<nat> { set x | x in s }

  lemma DistinctLast(s: seq<nat>, x: nat)
    ensures Elements(s + [x]) == Elements(s) + {x}
    ensures Distinct(s + [x]) <==> Distinct(s) && x !in s
  {
    var t := s + [x];
    forall k | 0 <= k < |s| ensures t[k] == s[k] {}
    if x in s {
      var k :| 0 <= k < |s| && s[k] == x;
      assert t[k] == t[|s|];
    }
  }

  /** Counting the distinct elements tells whether any is repeated. */
  lemma {:induction false} DistinctBySize(s: seq<nat>)
    ensures |Elements(s)| <= |s|
    ensures |Elements(s)| == |s| <==> Distinct(s)
  {
    if s != [] {
      var s0, x := s[..|s| - 1], s[|s| - 1];
      assert s == s0 + [x];
      DistinctBySize(s0);
      DistinctLast(s0, x);
      assert x in s0 <==> x in Elements(s0);
      hide Elements, Distinct;
      assert x in s0 ==> Elements(s) == Elements(s0);
    }
  }

  /** The verdict on the complaints of a run: accepted exactly if nothing is left in the queue or the dead letter, every
    * acknowledged complaint is stored once and under the qid answered, no complaint is stored twice, no qid was answered for
    * two complaints, and no qid is stored twice in the whole table. */
  method Accept(s: seq<Answered>, rows: seq<Row>, table: seq<Option<nat>>, dead: nat, depth: nat) returns (accepted: bool)
    ensures accepted <==>
      dead == 0 && depth == 0 && AllKept(s, rows) && NoRowTwice(rows) && QidsApart(s) && Distinct(Somes(table))
  {
    var m := Group(rows);
    var twice := CountTwice(m);
    var lost, wrong := LostAndWrong(s, rows, m);
    var shared := SharedQids(s);
    var qids := Somes(table);
    DistinctBySize(qids);
    assert twice == 0 <==> NoRowTwice(rows);
    assert NoRowTwice(rows) ==> (AllFound(s, rows) <==> AllKept(s, rows)) by {
      if NoRowTwice(rows) {
        assert forall k :: 0 <= k < |s| && Found(s[k], rows) ==> |Stored(rows, s[k].key)| <= 1;
      }
    }
    accepted := dead == 0 && depth == 0 && twice == 0 && lost == 0 && wrong == 0 && shared == 0
                && |Elements(qids)| == |qids|;
  }

  // ---- what acceptance promises ----

  /** What the check announces of an acknowledged complaint: it exists once, under the qid it was given. */
  ghost predicate UnderItsQid(a: Answered, rows: seq<Row>) {
    exists q :: Stored(rows, a.key) == [q] && (a.qid.Some? ==> a.qid.value == q)
  }

  /** In an accepted run that is so of every acknowledged complaint exactly if it is of those answered as duplicates, whose
    * qid is not compared. */
  lemma AcceptedKeepsItsPromise(s: seq<Answered>, rows: seq<Row>)
    requires AllKept(s, rows)
    ensures (forall k :: 0 <= k < |s| && s[k].status in {200, 201, 202} ==> UnderItsQid(s[k], rows)) <==>
            (forall k :: 0 <= k < |s| && s[k].status == 200 && s[k].qid.Some? ==> s[k].qid.value in Stored(rows, s[k].key))
  {
    forall k | 0 <= k < |s| && Acked(s[k])
      ensures UnderItsQid(s[k], rows) <==>
              (s[k].status == 200 && s[k].qid.Some? ==> s[k].qid.value in Stored(rows, s[k].key))
    {
      assert Kept(s[k], rows);
      var q := Stored(rows, s[k].key)[0];
      assert Stored(rows, s[k].key) == [q];
    }
  }

  /** It happens: a resent complaint answered 200 with a qid nobody stored still passes. */
  method WrongDuplicateExample() returns (accepted: bool)
    ensures accepted && !UnderItsQid(Answered(1, 200, Some(8)), [Row(1, 7)])
  {
    var s, rows := [Answered(1, 200, Some(8))], [Row(1, 7)];
    assert rows[..0] == [] && Stored([], 1) == [];
    assert Stored(rows, 1) == [7];
    forall key ensures |Stored(rows, key)| <= 1 { assert Stored(rows[..0], key) == []; }
    assert [Some(7)][..0] == [] && Somes([]) == [] && Somes([Some(7)]) == [7];
    accepted := Accept(s, rows, [Some(7)], 0, 0);
  }

  /** In an accepted run the qid answered for a complaint newly taken is that of its row, and no other complaint was ever
    * answered with it, as a duplicate or not. */
  lemma QidNamesOneComplaint(s: seq<Answered>, rows: seq<Row>, j: nat, k: nat)
    requires AllKept(s, rows) && QidsApart(s) && j < |s| && k < |s|
    requires Acked(s[j]) && Acked(s[k]) && s[j].status != 200 && s[j].qid.Some? && s[j].key != s[k].key
    ensures s[k].qid != s[j].qid && Stored(rows, s[j].key) == [s[j].qid.value]
  {
    assert Kept(s[j], rows);
    var same := SameQid(s[j], s[k]);
  }
}
