/** The intake queue as its code runs it (backend/src/infra/intakeQueue.js): the table changed in place, statement by
  * statement. Every method is proved to take only steps the machine allows, so all that holds of the machine's runs holds
  * of the code's. */
module QueueTable {
  import opened Common
  import opened IntakeQueue
  import opened Coalescing
  import opened QueueRuns
  import opened QueueDrain
  import FeederGroups

  // ---- one item ----

  /** processOne: an item out of attempts is buried unrun, one that is no longer ours is skipped, any other is run. */
  function AfterOne(c: Config, s: State, t: Token, id: Id, v: Verdict): State
    requires t in s.held && id in s.held[t]
  {
    var att := s.held[t][id];
    if !(id in s.rows && s.rows[id].claimedBy == Some(t)) then s
    else if att > c.maxAttempts then AsDead(s, id, Exhausted)
    else match v
      case Succeeds => AfterRun(s, t, id)
      case Refuses => AsDead(s, id, Rejected)
      case Fails =>
        if att >= c.maxAttempts then AsDead(s, id, Failed)
        else s.(rows := s.rows[id := Released(s.rows[id], s.now + Backoff(c, att))])
      case Crashes => s
  }

  function AsDead(s: State, id: Id, why: Reason): State
    requires id in s.rows
  {
    s.(rows := s.rows - {id}, gone := s.gone[id := Gone(s.rows[id], Dead(why))])
  }

  lemma AsDeadIsDeadLetter(s: State, t: Token, id: Id, why: Reason)
    ensures DeadLetter(s, t, id, why) == if MineNow(s, t, id) then AsDead(s, id, why) else s
  {
    if MineNow(s, t, id) {
      var g := map[id := Gone(s.rows[id], Dead(why))];
      assert g.Keys == {id} && s.gone + g == s.gone[id := Gone(s.rows[id], Dead(why))];
    }
  }

  lemma One(c: Config, s: State, e: Step)
    requires Enabled(c, s, e)
    ensures Valid(c, s, [e]) && Exec(c, s, [e]) == Apply(c, s, e)
  {
    hide Enabled, Apply;
    assert Exec(c, s, []) == s;
    Then(c, s, [], e);
    assert [] + [e] == [e];
  }

  lemma Nothing(c: Config, s: State)
    ensures Valid(c, s, []) && Exec(c, s, []) == s
  {
  }

  /** What processOne does is a sequence of steps the machine allows. */
  lemma OneIsSteps(c: Config, s: State, t: Token, id: Id, v: Verdict) returns (es: seq<Step>)
    requires Core(c, s) && Idle(s, t, id) && !v.Crashes?
    ensures Valid(c, s, es) && Exec(c, s, es) == AfterOne(c, s, t, id, v)
  {
    if !MineNow(s, t, id) {
      es := [];
      Nothing(c, s);
      return;
    }
    assert CountedFor(s.rows, t, s.held[t]);
    assert Holds(c, s, t, id);
    hide Core, CountedFor, Valid, Exec, Holds;
    if s.held[t][id] > c.maxAttempts {
      es := [Exhaust(t, id)];
      AsDeadIsDeadLetter(s, t, id, Exhausted);
      One(c, s, Exhaust(t, id));
    } else if v.Succeeds? {
      hide Enabled, Apply;
      es := RunIt(c, s, t, id);
    } else {
      es := GiveUp(c, s, t, id, v);
    }
  }

  lemma GiveUp(c: Config, s: State, t: Token, id: Id, v: Verdict) returns (es: seq<Step>)
    requires Holds(c, s, t, id) && s.held[t][id] <= c.maxAttempts && (v.Refuses? || v.Fails?)
    ensures Valid(c, s, es) && Exec(c, s, es) == AfterOne(c, s, t, id, v)
  {
    var e := if v.Refuses? then Reject(t, id) else Fail(t, id);
    AsDeadIsDeadLetter(s, t, id, Rejected);
    AsDeadIsDeadLetter(s, t, id, Failed);
    assert Enabled(c, s, e) && Apply(c, s, e) == AfterOne(c, s, t, id, v) by { hide Core, DeadLetter, AsDead; }
    hide Core, Apply, Enabled, AfterOne, Holds;
    var fs := RollBack(c, s, t, id);
    Then(c, s, fs, e);
    es := fs + [e];
  }
  // ---- a group of items in one transaction ----

  /** The items of live leave as the next runs of claim t, in that order. */
  function AfterRuns(s: State, t: Token, live: seq<Id>): State {
    if live == [] then s
    else
      var s1 := AfterRuns(s, t, live[..|live| - 1]);
      var id := live[|live| - 1];
      if id in s1.rows then AfterRun(s1, t, id) else s1
  }

  /** The items of ids that still carry claim t, in order. */
  function StillOurs(rows: map<Id, Row>, t: Token, ids: seq<Id>): seq<Id> {
    if ids == [] then []
    else
      var id := ids[|ids| - 1];
      StillOurs(rows, t, ids[..|ids| - 1]) + (if id in rows && rows[id].claimedBy == Some(t) then [id] else [])
  }

  lemma {:induction false} LiveIff(rows: map<Id, Row>, t: Token, ids: seq<Id>, id: Id)
    ensures id in StillOurs(rows, t, ids) <==> id in ids && id in rows && rows[id].claimedBy == Some(t)
  {
    if ids != [] {
      LiveIff(rows, t, ids[..|ids| - 1], id);
      assert ids == ids[..|ids| - 1] + [ids[|ids| - 1]];
    }
  }

  lemma {:induction false} LiveIn(rows: map<Id, Row>, t: Token, ids: seq<Id>)
    ensures AllIn(StillOurs(rows, t, ids), rows)
  {
    if ids != [] { LiveIn(rows, t, ids[..|ids| - 1]); }
  }

  lemma {:induction false} LiveDistinct(rows: map<Id, Row>, t: Token, ids: seq<Id>)
    requires Distinct(ids)
    ensures Distinct(StillOurs(rows, t, ids))
  {
    if ids != [] {
      var ids0, id := ids[..|ids| - 1], ids[|ids| - 1];
      DistinctInit(ids);
      LiveDistinct(rows, t, ids0);
      LiveIff(rows, t, ids0, id);
    }
  }

  lemma {:induction false} IndexOfLast(s: seq<Id>, id: Id, x: Id)
    requires x in s + [id] && id !in s
    ensures IndexOf(s + [id], x) == if x in s then IndexOf(s, x) else |s|
  {
    if s == [] {
      assert s + [id] == [id];
    } else if s[0] != x {
      assert (s + [id])[1..] == s[1..] + [id];
      assert x in s <==> x in s[1..];
      IndexOfLast(s[1..], id, x);
    }
  }

  lemma LeaveLast(rows: map<Id, Row>, n: nat, live: seq<Id>, id: Id, t: Token)
    requires id !in live && id in rows && forall k :: 0 <= k < |live| ==> live[k] in rows
    ensures Leave(rows, n, live + [id], t) == Leave(rows, n, live, t)[id := Gone(rows[id], Ran(n + |live|, t))]
  {
    forall x | x in live + [id] ensures IndexOf(live + [id], x) == if x in live then IndexOf(live, x) else |live| {
      IndexOfLast(live, id, x);
    }
  }

  lemma RetireMore(s: State, left: map<Id, Gone>, live: seq<Id>, id: Id, t: Token)
    requires id !in left && id in s.rows
    ensures id in Retire(s, left, live).rows
    ensures AfterRun(Retire(s, left, live), t, id)
            == Retire(s, left[id := Gone(s.rows[id], Ran(|s.runs| + |live|, t))], live + [id])
  {
    var g := Gone(s.rows[id], Ran(|s.runs| + |live|, t));
    assert left[id := g].Keys == left.Keys + {id};
    assert s.rows - (left.Keys + {id}) == s.rows - left.Keys - {id};
    assert s.gone + left[id := g] == (s.gone + left)[id := g];
    assert s.runs + (live + [id]) == s.runs + live + [id];
  }

  lemma RetireNone(s: State, t: Token)
    ensures Retire(s, Leave(s.rows, |s.runs|, [], t), []) == s
  {
    assert Leave(s.rows, |s.runs|, [], t) == map[];
    assert s.rows - {} == s.rows && s.gone + map[] == s.gone && s.runs + [] == s.runs;
  }

  lemma DistinctInit(s: seq<Id>)
    requires Distinct(s) && s != []
    ensures Distinct(s[..|s| - 1]) && s[|s| - 1] !in s[..|s| - 1]
  {
    var s0 := s[..|s| - 1];
    assert forall k :: 0 <= k < |s0| ==> s0[k] == s[k] && s[k] != s[|s| - 1];
  }

  ghost predicate AllIn(s: seq<Id>, rows: map<Id, Row>) { forall k :: 0 <= k < |s| ==> s[k] in rows }

  lemma RunsLast(s: State, t: Token, live: seq<Id>, id: Id)
    requires id in AfterRuns(s, t, live).rows
    ensures AfterRuns(s, t, live + [id]) == AfterRun(AfterRuns(s, t, live), t, id)
  {
    assert (live + [id])[..|live|] == live;
  }

  ghost function RetireAll(s: State, t: Token, live: seq<Id>): State { Retire(s, Leave(s.rows, |s.runs|, live, t), live) }

  lemma RetireLast(s: State, t: Token, live: seq<Id>, id: Id)
    requires id !in live && id in s.rows && AllIn(live, s.rows)
    ensures id in RetireAll(s, t, live).rows
    ensures RetireAll(s, t, live + [id]) == AfterRun(RetireAll(s, t, live), t, id)
  {
    var left := Leave(s.rows, |s.runs|, live, t);
    assert id !in left;
    LeaveLast(s.rows, |s.runs|, live, id, t);
    RetireMore(s, left, live, id, t);
    hide Retire, Leave, AfterRun, AllIn;
  }

  /** Committing the group is committing its items one after the other. */
  lemma {:induction false} RunsAtOnce(s: State, t: Token, live: seq<Id>)
    requires Distinct(live) && AllIn(live, s.rows)
    ensures RetireAll(s, t, live) == AfterRuns(s, t, live)
  {
    if live == [] {
      RetireNone(s, t);
    } else {
      var live0, id := live[..|live| - 1], live[|live| - 1];
      assert live == live0 + [id];
      DistinctInit(live);
      assert AllIn(live0, s.rows) && id in s.rows;
      hide RetireAll, AfterRun, AfterRuns, Distinct, AllIn;
      RunsAtOnce(s, t, live0);
      RetireLast(s, t, live0, id);
      RunsLast(s, t, live0, id);
    }
  }

  ghost predicate AllIdle(c: Config, s: State, t: Token, ids: seq<Id>) {
    forall k :: 0 <= k < |ids| ==> Idle(s, t, ids[k]) && s.held[t][ids[k]] <= c.maxAttempts
  }

  function Elements(ids: seq<Id>): set<Id> { set id | id in ids }

  /** The group's transaction is open: its rows are locked, and the live ones are being processed. */
  ghost function GroupOpen(s: State, t: Token, ids: seq<Id>): State {
    s.(open := s.open[t := Elements(StillOurs(s.rows, t, ids))], locks := s.locks + LockAll(Elements(ids) * s.rows.Keys, t))
  }

  lemma OpenGroup(c: Config, s: State, t: Token, ids: seq<Id>)
    requires AllIdle(c, s, t, ids) && StillOurs(s.rows, t, ids) != []
    ensures Enabled(c, s, Begin(t, Elements(ids))) && ApplyBegin(s, t, Elements(ids)) == GroupOpen(s, t, ids)
  {
    var live := StillOurs(s.rows, t, ids);
    assert live[0] in live;
    LiveIff(s.rows, t, ids, live[0]);
    forall id ensures id in Mine(s, t, Elements(ids)) <==> id in Elements(live) { LiveIff(s.rows, t, ids, id); }
    assert Mine(s, t, Elements(ids)) == Elements(live);
    forall id | id in Elements(ids) ensures Idle(s, t, id) && s.held[t][id] <= c.maxAttempts {
      var k :| 0 <= k < |ids| && ids[k] == id;
    }
    assert live[0] in Elements(live);
  }

  lemma CloseGroup(s: State, t: Token, ids: seq<Id>)
    requires t !in s.open && forall j :: j in s.locks ==> s.locks[j] in s.open
    requires forall k :: 0 <= k < |ids| ==> ids[k] !in s.locks
    ensures Release(GroupOpen(s, t, ids), {t}) == s
  {
    var s1 := GroupOpen(s, t, ids);
    assert forall id :: id in Elements(ids) ==> id !in s.locks;
    assert Unlock(s1.locks, {t}) == s.locks;
    assert s1.open - {t} == s.open;
  }

  lemma BeginGroup(c: Config, s: State, t: Token, ids: seq<Id>)
    requires Core(c, s) && AllIdle(c, s, t, ids) && StillOurs(s.rows, t, ids) != []
    ensures Enabled(c, s, Begin(t, Elements(ids))) && Apply(c, s, Begin(t, Elements(ids))) == GroupOpen(s, t, ids)
    ensures Release(GroupOpen(s, t, ids), {t}) == s
  {
    assert forall j :: j in s.locks ==> s.locks[j] in s.open;
    hide Core;
    var first := StillOurs(s.rows, t, ids)[0];
    assert first in StillOurs(s.rows, t, ids);
    LiveIff(s.rows, t, ids, first);
    var k :| 0 <= k < |ids| && ids[k] == first;
    assert Idle(s, t, ids[k]);
    OpenGroup(c, s, t, ids);
    CloseGroup(s, t, ids);
    hide AllIdle, Idle, StillOurs, GroupOpen, ApplyBegin, Release;
  }

  lemma MayCommitGroup(c: Config, s: State, t: Token, ids: seq<Id>)
    requires Distinct(StillOurs(s.rows, t, ids))
    ensures var s1, e := GroupOpen(s, t, ids), Commit(t, StillOurs(s.rows, t, ids));
      Enabled(c, s1, e) && Apply(c, s1, e) == ApplyCommit(s1, t, StillOurs(s.rows, t, ids))
  {
    hide Distinct, StillOurs, ApplyCommit;
  }

  lemma CommitGroup(s: State, t: Token, ids: seq<Id>)
    requires Release(GroupOpen(s, t, ids), {t}) == s && Distinct(StillOurs(s.rows, t, ids))
    ensures ApplyCommit(GroupOpen(s, t, ids), t, StillOurs(s.rows, t, ids)) == AfterRuns(s, t, StillOurs(s.rows, t, ids))
  {
    var live := StillOurs(s.rows, t, ids);
    LiveIn(s.rows, t, ids);
    hide Release, Leave, Retire, AfterRuns, Distinct, StillOurs, AllIn;
    RunsAtOnce(s, t, live);
  }

  /** A group that commits is one transaction of the machine. */
  lemma GroupIsSteps(c: Config, s: State, t: Token, ids: seq<Id>) returns (es: seq<Step>)
    requires Core(c, s) && AllIdle(c, s, t, ids) && Distinct(ids)
    ensures Valid(c, s, es) && Exec(c, s, es) == AfterRuns(s, t, StillOurs(s.rows, t, ids))
  {
    LiveDistinct(s.rows, t, ids);
    var live := StillOurs(s.rows, t, ids);
    hide Core, AllIdle, Distinct, StillOurs;
    if live == [] {
      es := [];
      Nothing(c, s);
    } else {
      BeginGroup(c, s, t, ids);
      MayCommitGroup(c, s, t, ids);
      CommitGroup(s, t, ids);
      es := [Begin(t, Elements(ids)), Commit(t, live)];
      hide Release, GroupOpen, ApplyCommit, AfterRuns, Enabled, Elements, Apply;
      Two(c, s, Begin(t, Elements(ids)), Commit(t, live), GroupOpen(s, t, ids));
    }
  }
  // ---- what becomes of each item of a claim ----

  /** The row of an item, and its end. */
  datatype Slot = Slot(row: Option<Row>, end: Option<Gone>)

  function At(s: State, id: Id): Slot {
    Slot(if id in s.rows then Some(s.rows[id]) else None, if id in s.gone then Some(s.gone[id]) else None)
  }

  /** From slot a to slot b: an item that is no longer this claim's is left alone; one out of attempts is buried unrun; any
    * other ends as its handler decides, or waits for its next try. */
  predicate Dealt(c: Config, now: nat, t: Token, att: nat, v: Verdict, a: Slot, b: Slot) {
    if a.row.None? || a.row.value.claimedBy != Some(t) then b == a
    else
      var r := a.row.value;
      if att > c.maxAttempts then b == Slot(None, Some(Gone(r, Dead(Exhausted))))
      else match v
        case Succeeds => b.row.None? && b.end.Some? && b.end.value.row == r && b.end.value.how.Ran? && b.end.value.how.under == t
        case Refuses => b == Slot(None, Some(Gone(r, Dead(Rejected))))
        case Fails =>
          if att == c.maxAttempts then b == Slot(None, Some(Gone(r, Dead(Failed))))
          else b == Slot(Some(Released(r, now + Backoff(c, att))), a.end)
        case Crashes => b == a
  }

  /** Nothing but rows and their ends has changed. */
  predicate OnlyItems(s: State, s': State) { s' == s.(rows := s'.rows, runs := s'.runs, gone := s'.gone) }

  /** From s to s' exactly the items of done were dealt with. */
  ghost predicate DealtWith(c: Config, s: State, t: Token, verdict: Id -> Verdict, done: set<Id>, s': State) {
    && OnlyItems(s, s') && t in s.held && done <= s.held[t].Keys
    && (forall id :: id in done ==> Dealt(c, s.now, t, s.held[t][id], verdict(id), At(s, id), At(s', id)))
    && (forall id: Id :: id !in done ==> At(s', id) == At(s, id))
  }

  lemma NoneDealtWith(c: Config, s: State, t: Token, verdict: Id -> Verdict)
    requires t in s.held
    ensures DealtWith(c, s, t, verdict, {}, s)
  {
  }

  lemma OneDealt(c: Config, s: State, t: Token, id: Id, v: Verdict)
    requires t in s.held && id in s.held[t]
    ensures var s' := AfterOne(c, s, t, id, v);
      OnlyItems(s, s') && Dealt(c, s.now, t, s.held[t][id], v, At(s, id), At(s', id))
  {
    hide Backoff, Released;
  }

  lemma OneElsewhere(c: Config, s: State, t: Token, id: Id, v: Verdict, other: Id)
    requires t in s.held && id in s.held[t] && other != id
    ensures At(AfterOne(c, s, t, id, v), other) == At(s, other)
  {
    hide Backoff, Released;
  }

  lemma OneDealtWith(c: Config, s: State, t: Token, id: Id, verdict: Id -> Verdict)
    requires t in s.held && id in s.held[t]
    ensures DealtWith(c, s, t, verdict, {id}, AfterOne(c, s, t, id, verdict(id)))
  {
    OneDealt(c, s, t, id, verdict(id));
    forall other: Id | other != id ensures At(AfterOne(c, s, t, id, verdict(id)), other) == At(s, other) {
      OneElsewhere(c, s, t, id, verdict(id), other);
    }
    hide AfterOne, Dealt, At, OnlyItems;
  }

  lemma DealtThen(c: Config, s: State, s1: State, s2: State, t: Token, verdict: Id -> Verdict, a: set<Id>, b: set<Id>)
    requires DealtWith(c, s, t, verdict, a, s1) && DealtWith(c, s1, t, verdict, b, s2) && a !! b
    ensures DealtWith(c, s, t, verdict, a + b, s2)
  {
    hide Dealt, At;
  }

  /** A committed group dealt with all its items. */
  lemma {:induction false} GroupDealtWith(c: Config, s: State, t: Token, ids: seq<Id>, verdict: Id -> Verdict)
    requires Distinct(ids) && t in s.held && Elements(ids) <= s.held[t].Keys
    requires forall k :: 0 <= k < |ids| ==> s.held[t][ids[k]] <= c.maxAttempts
    requires forall k :: 0 <= k < |ids| && ids[k] in StillOurs(s.rows, t, ids) ==> verdict(ids[k]).Succeeds?
    ensures DealtWith(c, s, t, verdict, Elements(ids), AfterRuns(s, t, StillOurs(s.rows, t, ids)))
  {
    if ids == [] {
      NoneDealtWith(c, s, t, verdict);
    } else {
      var ids0, id := ids[..|ids| - 1], ids[|ids| - 1];
      DistinctInit(ids);
      assert ids == ids0 + [id];
      assert Elements(ids) == Elements(ids0) + {id};
      forall k | 0 <= k < |ids0| && ids0[k] in StillOurs(s.rows, t, ids0) ensures verdict(ids0[k]).Succeeds? {
        LiveIff(s.rows, t, ids0, ids0[k]);
        LiveIff(s.rows, t, ids, ids[k]);
      }
      LiveIff(s.rows, t, ids, id);
      hide Distinct;
      GroupDealtWith(c, s, t, ids0, verdict);
      var s1 := AfterRuns(s, t, StillOurs(s.rows, t, ids0));
      assert At(s1, id) == At(s, id);
      LastRuns(c, s, s1, t, ids0, id, verdict);
      OneDealtWith(c, s1, t, id, verdict);
      hide DealtWith, AfterRuns, AfterOne, StillOurs, At;
      DealtThen(c, s, s1, AfterOne(c, s1, t, id, verdict(id)), t, verdict, Elements(ids0), {id});
    }
  }

  lemma LastRuns(c: Config, s: State, s1: State, t: Token, ids: seq<Id>, id: Id, verdict: Id -> Verdict)
    requires s1 == AfterRuns(s, t, StillOurs(s.rows, t, ids)) && At(s1, id) == At(s, id)
    requires t in s1.held && id in s1.held[t] && s1.held[t][id] <= c.maxAttempts
    requires id in s.rows && s.rows[id].claimedBy == Some(t) ==> verdict(id).Succeeds?
    ensures AfterRuns(s, t, StillOurs(s.rows, t, ids + [id])) == AfterOne(c, s1, t, id, verdict(id))
  {
    assert (ids + [id])[..|ids|] == ids;
    if id in s.rows && s.rows[id].claimedBy == Some(t) {
      assert id in s1.rows && s1.rows[id] == s.rows[id];
      RunsLast(s, t, StillOurs(s.rows, t, ids), id);
    } else {
      assert StillOurs(s.rows, t, ids + [id]) == StillOurs(s.rows, t, ids);
      assert !(id in s1.rows && s1.rows[id].claimedBy == Some(t));
    }
  }
  // ---- keeping the invariant along the way ----

  lemma {:induction false} KeepCores(c: Config, s: State, es: seq<Step>)
    requires Core(c, s) && Valid(c, s, es)
    ensures Core(c, Exec(c, s, es))
    decreases |es|
  {
    if es != [] {
      KeepCore(c, s, es[0]);
      hide Core, Enabled, Apply;
      KeepCores(c, Apply(c, s, es[0]), es[1..]);
    }
  }

  /** The claim t has its items, in a state the machine can be in. */
  ghost predicate Ready(c: Config, s: State, t: Token) { Core(c, s) && t in s.held && t !in s.open }

  ghost predicate Held(s: State, t: Token, ids: set<Id>) {
    t in s.held && ids <= s.held[t].Keys && forall id :: id in ids ==> id !in s.locks
  }

  /** Steps allowed by the machine lead from s to s', and deal with exactly the items of done. */
  ghost predicate Did(c: Config, s: State, es: seq<Step>, t: Token, verdict: Id -> Verdict, done: set<Id>, s': State) {
    Valid(c, s, es) && Exec(c, s, es) == s' && DealtWith(c, s, t, verdict, done, s')
  }

  lemma DidKeeps(c: Config, s: State, es: seq<Step>, t: Token, verdict: Id -> Verdict, done: set<Id>, s': State, ids: set<Id>)
    requires Did(c, s, es, t, verdict, done, s') && Ready(c, s, t) && Held(s, t, ids)
    ensures Ready(c, s', t) && Held(s', t, ids) && s'.held == s.held
  {
    KeepCores(c, s, es);
    hide Core, Valid, Exec;
  }

  lemma DidThen(c: Config, s: State, es: seq<Step>, s1: State, fs: seq<Step>, s2: State, t: Token, verdict: Id -> Verdict, a: set<Id>, b: set<Id>)
    requires Did(c, s, es, t, verdict, a, s1) && Did(c, s1, fs, t, verdict, b, s2) && a !! b
    ensures Did(c, s, es + fs, t, verdict, a + b, s2)
  {
    Join(c, s, es, fs);
    DealtThen(c, s, s1, s2, t, verdict, a, b);
    hide DealtWith, Valid, Exec;
  }

  /** Did so far, and ready to go on with ids. */
  ghost predicate SoFar(c: Config, s: State, es: seq<Step>, t: Token, verdict: Id -> Verdict, done: set<Id>, s': State, ids: set<Id>) {
    Did(c, s, es, t, verdict, done, s') && Ready(c, s', t) && Held(s', t, ids) && s'.held == s.held
  }

  lemma GoOn(c: Config, s: State, es: seq<Step>, s1: State, fs: seq<Step>, s2: State, t: Token, verdict: Id -> Verdict,
             a: set<Id>, b: set<Id>, ids: set<Id>)
    requires SoFar(c, s, es, t, verdict, a, s1, ids) && Did(c, s1, fs, t, verdict, b, s2) && a !! b
    ensures SoFar(c, s, es + fs, t, verdict, a + b, s2, ids)
  {
    DidKeeps(c, s1, fs, t, verdict, b, s2, ids);
    DidThen(c, s, es, s1, fs, s2, t, verdict, a, b);
    hide Did, Ready, Held;
  }

  lemma SetOut(c: Config, s: State, t: Token, verdict: Id -> Verdict, ids: set<Id>)
    requires Ready(c, s, t) && Held(s, t, ids)
    ensures SoFar(c, s, [], t, verdict, {}, s, ids)
  {
    DidNothing(c, s, t, verdict);
    hide Did, Ready;
  }

  lemma NextItem(c: Config, s: State, es: seq<Step>, t: Token, verdict: Id -> Verdict, done: set<Id>, s1: State, items: seq<Id>, i: nat)
    requires SoFar(c, s, es, t, verdict, done, s1, Elements(items)) && i < |items|
    ensures Ready(c, s1, t) && Held(s1, t, {items[i]}) && s1.held == s.held && t in s1.held && items[i] in s1.held[t]
  {
    assert items[i] in Elements(items);
    hide Did, Ready;
  }

  lemma DidNothing(c: Config, s: State, t: Token, verdict: Id -> Verdict)
    requires t in s.held
    ensures Did(c, s, [], t, verdict, {}, s)
  {
    Nothing(c, s);
    NoneDealtWith(c, s, t, verdict);
  }

  lemma DidOne(c: Config, s: State, t: Token, id: Id, verdict: Id -> Verdict) returns (es: seq<Step>)
    requires Ready(c, s, t) && Held(s, t, {id}) && !verdict(id).Crashes?
    ensures Did(c, s, es, t, verdict, {id}, AfterOne(c, s, t, id, verdict(id)))
  {
    assert id in {id};
    OneDealtWith(c, s, t, id, verdict);
    hide Core, AfterOne, DealtWith;
    es := OneIsSteps(c, s, t, id, verdict(id));
  }

  lemma DidGroup(c: Config, s: State, t: Token, ids: seq<Id>, verdict: Id -> Verdict) returns (es: seq<Step>)
    requires Ready(c, s, t) && Held(s, t, Elements(ids)) && Distinct(ids)
    requires forall k :: 0 <= k < |ids| ==> s.held[t][ids[k]] <= c.maxAttempts
    requires forall k :: 0 <= k < |ids| && ids[k] in StillOurs(s.rows, t, ids) ==> verdict(ids[k]).Succeeds?
    ensures Did(c, s, es, t, verdict, Elements(ids), AfterRuns(s, t, StillOurs(s.rows, t, ids)))
  {
    GroupDealtWith(c, s, t, ids, verdict);
    forall k | 0 <= k < |ids| ensures Idle(s, t, ids[k]) && s.held[t][ids[k]] <= c.maxAttempts { assert ids[k] in Elements(ids); }
    hide Core, AfterRuns, DealtWith, StillOurs, Distinct;
    es := GroupIsSteps(c, s, t, ids);
  }

  // ---- sorting the items of a claim into groups ----

  /** All items in these groups. */
  function UnionOf(keys: seq<nat>, members: map<nat, seq<Id>>): set<Id> {
    if keys == [] then {}
    else (if keys[0] in members then Elements(members[keys[0]]) else {}) + UnionOf(keys[1..], members)
  }

  /** No item is in two of these groups. */
  ghost predicate Apart(keys: seq<nat>, members: map<nat, seq<Id>>) {
    keys == [] || (keys[0] in members && Elements(members[keys[0]]) !! UnionOf(keys[1..], members) && Apart(keys[1..], members))
  }

  lemma {:induction false} OtherGroup(keys: seq<nat>, members: map<nat, seq<Id>>, k: nat, g: seq<Id>)
    requires k !in keys
    ensures UnionOf(keys, members[k := g]) == UnionOf(keys, members)
    ensures Apart(keys, members) ==> Apart(keys, members[k := g])
  {
    if keys != [] { OtherGroup(keys[1..], members, k, g); }
  }

  lemma {:induction false} AddToGroup(keys: seq<nat>, members: map<nat, seq<Id>>, k: nat, id: Id)
    requires k in keys && k in members && Distinct(keys) && Apart(keys, members) && id !in UnionOf(keys, members)
    ensures UnionOf(keys, members[k := members[k] + [id]]) == UnionOf(keys, members) + {id}
    ensures Apart(keys, members[k := members[k] + [id]])
  {
    var g := members[k] + [id];
    assert Elements(g) == Elements(members[k]) + {id};
    if keys[0] == k {
      assert k !in keys[1..] by { assert forall i :: 0 <= i < |keys[1..]| ==> keys[1..][i] == keys[i + 1]; }
      OtherGroup(keys[1..], members, k, g);
    } else {
      assert Distinct(keys[1..]) && k in keys[1..] by { assert forall i :: 0 <= i < |keys[1..]| ==> keys[1..][i] == keys[i + 1]; }
      AddToGroup(keys[1..], members, k, id);
    }
  }

  lemma {:induction false} AddGroup(keys: seq<nat>, members: map<nat, seq<Id>>, k: nat, id: Id)
    requires k !in keys && Apart(keys, members) && id !in UnionOf(keys, members)
    ensures UnionOf(keys + [k], members[k := [id]]) == UnionOf(keys, members) + {id}
    ensures Apart(keys + [k], members[k := [id]])
  {
    assert Elements([id]) == {id};
    if keys == [] {
      assert [k][1..] == [] && keys + [k] == [k];
      assert UnionOf([], members[k := [id]]) == {};
    } else {
      assert (keys + [k])[1..] == keys[1..] + [k];
      AddGroup(keys[1..], members, k, id);
    }
  }

  /** None of these items is out of attempts. */
  ghost predicate Unspent(c: Config, held: map<Token, map<Id, nat>>, t: Token, ids: seq<Id>) {
    forall k :: 0 <= k < |ids| ==> t in held && ids[k] in held[t] && held[t][ids[k]] <= c.maxAttempts
  }

  ghost predicate GroupOk(c: Config, held: map<Token, map<Id, nat>>, t: Token, all: set<Id>, ids: seq<Id>) {
    ids != [] && Distinct(ids) && Unspent(c, held, t, ids) && Elements(ids) <= all
  }

  ghost predicate GroupsOk(c: Config, held: map<Token, map<Id, nat>>, t: Token, all: set<Id>, keys: seq<nat>, members: map<nat, seq<Id>>) {
    forall i :: 0 <= i < |keys| ==> keys[i] in members && GroupOk(c, held, t, all, members[keys[i]])
  }

  ghost predicate Parted(all: set<Id>, done: set<Id>, singles: set<Id>, grouped: set<Id>) {
    done !! singles && done !! grouped && singles !! grouped && done + singles + grouped == all
  }

  /** The items so far, each in one place: dealt with, on its own, or in one group. */
  ghost predicate Sorted(c: Config, held: map<Token, map<Id, nat>>, t: Token, all: set<Id>,
                         singles: seq<Id>, keys: seq<nat>, members: map<nat, seq<Id>>, done: set<Id>) {
    && Distinct(singles) && Distinct(keys) && Apart(keys, members) && GroupsOk(c, held, t, all, keys, members)
    && Parted(all, done, Elements(singles), UnionOf(keys, members))
  }

  lemma DistinctAdd(s: seq<Id>, id: Id)
    requires Distinct(s) && id !in s
    ensures Distinct(s + [id]) && Elements(s + [id]) == Elements(s) + {id}
  {
  }

  lemma WiderGroups(c: Config, held: map<Token, map<Id, nat>>, t: Token, all: set<Id>, keys: seq<nat>, members: map<nat, seq<Id>>, id: Id)
    requires GroupsOk(c, held, t, all, keys, members)
    ensures GroupsOk(c, held, t, all + {id}, keys, members)
  {
  }

  lemma SortDone(c: Config, held: map<Token, map<Id, nat>>, t: Token, all: set<Id>,
                 singles: seq<Id>, keys: seq<nat>, members: map<nat, seq<Id>>, done: set<Id>, id: Id)
    requires Sorted(c, held, t, all, singles, keys, members, done) && id !in all
    ensures Sorted(c, held, t, all + {id}, singles, keys, members, done + {id}) && id !in done
  {
    WiderGroups(c, held, t, all, keys, members, id);
    hide GroupsOk, Apart, UnionOf, Elements, Distinct;
  }

  lemma SortSingle(c: Config, held: map<Token, map<Id, nat>>, t: Token, all: set<Id>,
                   singles: seq<Id>, keys: seq<nat>, members: map<nat, seq<Id>>, done: set<Id>, id: Id)
    requires Sorted(c, held, t, all, singles, keys, members, done) && id !in all
    ensures Sorted(c, held, t, all + {id}, singles + [id], keys, members, done)
  {
    assert id !in singles by { assert id !in Elements(singles); }
    DistinctAdd(singles, id);
    WiderGroups(c, held, t, all, keys, members, id);
    hide GroupsOk, Apart, UnionOf, Elements, Distinct;
  }

  lemma SortNewGroup(c: Config, held: map<Token, map<Id, nat>>, t: Token, all: set<Id>,
                     singles: seq<Id>, keys: seq<nat>, members: map<nat, seq<Id>>, done: set<Id>, id: Id, k: nat)
    requires Sorted(c, held, t, all, singles, keys, members, done) && id !in all && k !in keys
    requires t in held && id in held[t] && held[t][id] <= c.maxAttempts
    ensures Sorted(c, held, t, all + {id}, singles, keys + [k], members[k := [id]], done)
  {
    AddGroup(keys, members, k, id);
    DistinctAdd(keys, k);
    WiderGroups(c, held, t, all, keys, members, id);
    assert GroupOk(c, held, t, all + {id}, [id]);
    assert GroupsOk(c, held, t, all + {id}, keys + [k], members[k := [id]]) by { hide GroupOk, Apart, UnionOf, Parted; }
    hide GroupsOk, GroupOk, Apart, UnionOf, Elements, Distinct;
  }

  lemma SortOldGroup(c: Config, held: map<Token, map<Id, nat>>, t: Token, all: set<Id>,
                     singles: seq<Id>, keys: seq<nat>, members: map<nat, seq<Id>>, done: set<Id>, id: Id, k: nat)
    requires Sorted(c, held, t, all, singles, keys, members, done) && id !in all && k in keys
    requires t in held && id in held[t] && held[t][id] <= c.maxAttempts
    ensures k in members && Sorted(c, held, t, all + {id}, singles, keys, members[k := members[k] + [id]], done)
  {
    assert k in members && GroupOk(c, held, t, all, members[k]);
    AddToGroup(keys, members, k, id);
    assert id !in members[k] by { assert id !in Elements(members[k]); }
    DistinctAdd(members[k], id);
    WiderGroups(c, held, t, all, keys, members, id);
    assert GroupOk(c, held, t, all + {id}, members[k] + [id]);
    assert GroupsOk(c, held, t, all + {id}, keys, members[k := members[k] + [id]]) by { hide GroupOk, Apart, UnionOf, Parted; }
    hide GroupsOk, GroupOk, Apart, UnionOf, Elements, Distinct;
  }

  lemma NextGroup(c: Config, held: map<Token, map<Id, nat>>, t: Token, all: set<Id>,
                  singles: seq<Id>, keys: seq<nat>, members: map<nat, seq<Id>>, done: set<Id>)
    requires Sorted(c, held, t, all, singles, keys, members, done) && keys != []
    ensures keys[0] in members && GroupOk(c, held, t, all, members[keys[0]])
    ensures Sorted(c, held, t, all, singles, keys[1..], members, done + Elements(members[keys[0]]))
    ensures |members[keys[0]]| == 1 ==> Sorted(c, held, t, all, singles + members[keys[0]], keys[1..], members, done)
    ensures done !! Elements(members[keys[0]])
  {
    var g := members[keys[0]];
    assert GroupOk(c, held, t, all, g);
    assert forall i :: 0 <= i < |keys[1..]| ==> keys[1..][i] == keys[i + 1];
    assert Distinct(keys[1..]) && GroupsOk(c, held, t, all, keys[1..], members);
    assert UnionOf(keys, members) == Elements(g) + UnionOf(keys[1..], members);
    assert Apart(keys[1..], members);
    if |g| == 1 {
      assert g == [g[0]] && g[0] in Elements(g);
      assert g[0] !in Elements(singles);
      DistinctAdd(singles, g[0]);
      assert Elements(g) == {g[0]};
    }
    hide GroupsOk, GroupOk, Apart, UnionOf, Elements, Distinct;
  }

  /** The ids in increasing order. */
  function InsertById(s: seq<Id>, id: Id): seq<Id> {
    if s == [] || s[|s| - 1] < id then s + [id] else InsertById(s[..|s| - 1], id) + [s[|s| - 1]]
  }

  ghost predicate Below(s: seq<Id>, x: Id) { forall i :: 0 <= i < |s| ==> s[i] < x }

  lemma IncreasingAdd(s: seq<Id>, x: Id)
    requires Increasing(s)
    ensures Increasing(s + [x]) <==> Below(s, x)
    ensures Elements(s + [x]) == Elements(s) + {x}
  {
    assert forall i :: 0 <= i < |s| ==> (s + [x])[i] == s[i];
    assert (s + [x])[|s|] == x;
  }

  lemma {:induction false} InsertBelow(s: seq<Id>, id: Id, x: Id)
    requires Below(s, x) && id < x
    ensures Below(InsertById(s, id), x)
  {
    if s != [] && s[|s| - 1] >= id { InsertBelow(s[..|s| - 1], id, x); }
  }

  lemma {:induction false} InsertKeeps(s: seq<Id>, id: Id)
    requires Increasing(s) && id !in s
    ensures Increasing(InsertById(s, id)) && Elements(InsertById(s, id)) == Elements(s) + {id}
  {
    if s == [] || s[|s| - 1] < id {
      IncreasingAdd(s, id);
    } else {
      var s0, x := s[..|s| - 1], s[|s| - 1];
      assert s == s0 + [x] && x != id;
      assert Increasing(s0) && id !in s0;
      hide Elements, Below, Increasing;
      InsertKeeps(s0, id);
      IncreasingAdd(s0, x);
      InsertBelow(s0, id, x);
      IncreasingAdd(InsertById(s0, id), x);
    }
  }

  /** A fresh claim takes all of ids. */
  function AfterClaims(c: Config, s: State, ids: set<Id>): State {
    s.(rows := TakeRows(s.rows, ids, s.nextToken, s.now + c.leaseMs), nextToken := s.nextToken + 1,
       held := if ids == {} then s.held else s.held[s.nextToken := Copies(s.rows, ids)])
  }

  /** From rows to rows' exactly these items were claimed, each with one attempt more and a lease of its own. */
  ghost predicate Leased(c: Config, rows: map<Id, Row>, rows': map<Id, Row>, now: nat, t: Token, items: seq<Id>) {
    && rows'.Keys == rows.Keys
    && (forall id :: id in rows && id !in items ==> rows'[id] == rows[id])
    && (forall id :: id in items ==> id in rows && rows'[id] == Claimed(rows[id], now + c.leaseMs, t))
  }

  /** The row with one attempt more, out of reach until then, under this claim. */
  function Claimed(r: Row, until: nat, t: Token): Row { Row(r.key, r.coalesceKey, r.payload, r.absorbed, r.attempts + 1, until, Some(t)) }

  lemma ClaimLeases(c: Config, s: State, items: seq<Id>)
    requires AllClaimable(s, items)
    ensures Leased(c, s.rows, AfterClaims(c, s, Elements(items)).rows, s.now, s.nextToken, items)
  {
    var ids := Elements(items);
    forall id | id in items ensures id in ids && id in s.rows {
      var k :| 0 <= k < |items| && items[k] == id;
      assert Claimable(s, items[k]);
    }
    assert forall id :: id in ids ==> id in items;
    hide Claimable, AllClaimable, Elements, Copies;
  }

  ghost predicate AllClaimable(s: State, items: seq<Id>) { forall k :: 0 <= k < |items| ==> Claimable(s, items[k]) }

  /** At most `limit` claimable items, oldest first, and none left out that is as old or that would still fit. */
  ghost predicate OldestClaimable(s: State, items: seq<Id>, limit: nat) {
    && |items| <= limit && Increasing(items) && AllClaimable(s, items)
    && forall id: Id :: Claimable(s, id) && id !in items ==> |items| == limit && Below(items, id)
  }

  /** An available head, locked or not. */
  ghost predicate Due(s: State, id: Id) { id in s.rows && Head(s.rows, id) && s.rows[id].availableAt <= s.now }

  ghost predicate AllDue(s: State, items: seq<Id>) { forall k :: 0 <= k < |items| ==> Due(s, items[k]) }

  ghost predicate OldestDue(s: State, items: seq<Id>, limit: nat) {
    && |items| <= limit && Increasing(items) && AllDue(s, items)
    && forall id: Id :: Due(s, id) && id !in items ==> |items| == limit && Below(items, id)
  }

  function Unlocked(ids: set<Id>, locks: map<Id, Token>): set<Id> { set id | id in ids && id !in locks }

  /** Those not locked, in order. */
  function Free(ids: seq<Id>, locks: map<Id, Token>): seq<Id> {
    if ids == [] then []
    else Free(ids[..|ids| - 1], locks) + (if ids[|ids| - 1] in locks then [] else [ids[|ids| - 1]])
  }

  lemma {:induction false} FreeElements(ids: seq<Id>, locks: map<Id, Token>)
    ensures Elements(Free(ids, locks)) == Unlocked(Elements(ids), locks)
  {
    if ids != [] {
      var ids0, id := ids[..|ids| - 1], ids[|ids| - 1];
      FreeElements(ids0, locks);
      assert Elements(ids) == Elements(ids0) + {id} by { assert ids == ids0 + [id]; }
      assert Elements(Free(ids0, locks) + [id]) == Elements(Free(ids0, locks)) + {id};
      assert Free(ids0, locks) + [] == Free(ids0, locks);
    }
  }

  lemma {:induction false} FreeRight(s: State, ids: seq<Id>)
    requires AllDue(s, ids) && Distinct(ids)
    ensures Distinct(Free(ids, s.locks)) && AllClaimable(s, Free(ids, s.locks))
  {
    if ids != [] {
      var ids0, id := ids[..|ids| - 1], ids[|ids| - 1];
      DistinctInit(ids);
      assert AllDue(s, ids0) && Due(s, id);
      hide Distinct, AllDue, Due;
      FreeRight(s, ids0);
      FreeElements(ids0, s.locks);
      assert id !in Free(ids0, s.locks) by { assert id !in Elements(ids0) && id !in Elements(Free(ids0, s.locks)); }
      if id !in s.locks {
        DistinctAdd(Free(ids0, s.locks), id);
        ClaimableAdd(s, Free(ids0, s.locks), id);
      }
    }
  }

  lemma ClaimableAdd(s: State, ids: seq<Id>, id: Id)
    requires AllClaimable(s, ids) && id !in s.locks && Due(s, id)
    ensures AllClaimable(s, ids + [id])
  {
  }

  lemma PickDue(c: Config, s: State, ids: seq<Id>)
    requires AllDue(s, ids)
    ensures var e, t := Pick(Elements(ids)), s.nextToken;
      Enabled(c, s, e) && Apply(c, s, e) == s.(picks := s.picks[t := Elements(ids)], nextToken := t + 1)
  {
  }

  lemma TakeUnlocked(c: Config, s: State, ids: seq<Id>)
    requires AllDue(s, ids) && s.nextToken !in s.picks
    ensures var t := s.nextToken; var s1 := s.(picks := s.picks[t := Elements(ids)], nextToken := t + 1);
      Enabled(c, s1, Take(t)) && Apply(c, s1, Take(t)) == AfterClaims(c, s, Unlocked(Elements(ids), s.locks))
  {
    var t := s.nextToken;
    var s1 := s.(picks := s.picks[t := Elements(ids)], nextToken := t + 1);
    assert Taken(s1, t) == Unlocked(Elements(ids), s.locks) && s1.picks - {t} == s.picks;
    hide Taken, TakeRows, Copies, Elements, Due, Unlocked;
  }

  lemma GroupClaimIsSteps(c: Config, s: State, ids: seq<Id>)
    requires Core(c, s) && AllDue(s, ids)
    ensures var es := [Pick(Elements(ids)), Take(s.nextToken)];
      Valid(c, s, es) && Exec(c, s, es) == AfterClaims(c, s, Unlocked(Elements(ids), s.locks))
  {
    assert s.nextToken !in s.picks;
    hide Core, Elements;
    PickDue(c, s, ids);
    TakeUnlocked(c, s, ids);
    hide AllDue, Enabled, Apply, AfterClaims, Unlocked;
    var t := s.nextToken;
    Two(c, s, Pick(Elements(ids)), Take(t), s.(picks := s.picks[t := Elements(ids)], nextToken := t + 1));
  }

  lemma PickedAreDue(s: State, heads: seq<Id>, picks: seq<Id>)
    requires AllDue(s, heads) && Contained(picks, heads)
    ensures AllDue(s, picks)
  {
  }

  lemma PickAll(c: Config, s: State, items: seq<Id>)
    requires AllClaimable(s, items)
    ensures var e, t := Pick(Elements(items)), s.nextToken;
      Enabled(c, s, e) && Apply(c, s, e) == s.(picks := s.picks[t := Elements(items)], nextToken := t + 1)
  {
  }

  lemma TakeAll(c: Config, s: State, items: seq<Id>)
    requires AllClaimable(s, items)
    requires s.nextToken !in s.picks
    ensures var t := s.nextToken; var s1 := s.(picks := s.picks[t := Elements(items)], nextToken := t + 1);
      Enabled(c, s1, Take(t)) && ApplyTake(c, s1, t) == AfterClaims(c, s, Elements(items))
  {
    var t := s.nextToken;
    var s1 := s.(picks := s.picks[t := Elements(items)], nextToken := t + 1);
    assert Taken(s1, t) == Elements(items) && s1.picks - {t} == s.picks;
    hide Taken, TakeRows, Copies, Elements, Claimable;
  }

  lemma ClaimIsSteps(c: Config, s: State, items: seq<Id>)
    requires Core(c, s) && AllClaimable(s, items)
    ensures var es := [Pick(Elements(items)), Take(s.nextToken)];
      Valid(c, s, es) && Exec(c, s, es) == AfterClaims(c, s, Elements(items))
  {
    assert s.nextToken !in s.picks;
    hide Core, Claimable, Elements;
    PickAll(c, s, items);
    TakeAll(c, s, items);
    var t := s.nextToken;
    var s1 := s.(picks := s.picks[t := Elements(items)], nextToken := t + 1);
    assert Apply(c, s1, Take(t)) == ApplyTake(c, s1, t);
    hide Enabled, Apply, ApplyTake, AfterClaims;
    Two(c, s, Pick(Elements(items)), Take(t), s1);
  }

  /** The newest row of the event's key, if it may absorb it: not locked, never claimed, and of the event's state. */
  ghost predicate Absorbs(c: Config, s: State, ev: Event, j: Id) {
    && c.coalesce && ev.key.Some? && ev.coalesceKey.Some?
    && j in s.rows && s.rows[j].key == ev.key && (forall i :: i in s.rows && s.rows[i].key == ev.key ==> i <= j)
    && j !in s.locks && s.rows[j].attempts == 0 && s.rows[j].coalesceKey == ev.coalesceKey
  }

  /** The event is the newest of row id, which is the row that may absorb it, or a new one if there is none; no other row changed. */
  ghost predicate Stored(c: Config, s: State, s': State, ev: Event, id: Id) {
    && id in s'.rows && s'.rows.Keys == s.rows.Keys + {id} && (forall j :: j in s.rows && j != id ==> s'.rows[j] == s.rows[j])
    && s'.rows[id].payload.latest == ev && s'.rows[id].key == ev.key && s'.rows[id].coalesceKey == ev.coalesceKey
    && s'.rows[id].attempts == 0 && s'.rows[id].claimedBy.None?
    && if id in s.rows
       then Absorbs(c, s, ev, id) && s'.rows[id].absorbed == s.rows[id].absorbed + [ev] && s'.nextId == s.nextId
       else (forall j :: !Absorbs(c, s, ev, j)) && s'.rows[id].absorbed == [ev] && s'.rows[id].availableAt == s.now
            && id == s.nextId && s'.nextId == id + 1
  }

  lemma StoredIn(c: Config, s: State, ev: Event, id: Id)
    requires Core(c, s) && CanAbsorb(c, s, ev, id)
    ensures Stored(c, s, Apply(c, s, Enqueue(ev, Some(id))), ev, id)
  {
    assert Counted(s.rows, s.held);
    hide Core, Apply;
    assert Apply(c, s, Enqueue(ev, Some(id))) == ApplyEnqueue(s, ev, Some(id)) by { hide CanAbsorb, ApplyEnqueue; }
  }

  lemma StoredNew(c: Config, s: State, ev: Event)
    requires s.nextId !in s.rows && forall j :: j in s.rows ==> !CanAbsorb(c, s, ev, j)
    ensures Stored(c, s, ApplyEnqueue(s, ev, None), ev, s.nextId)
  {
    forall j ensures !Absorbs(c, s, ev, j) { assert Absorbs(c, s, ev, j) ==> CanAbsorb(c, s, ev, j); }
    hide CanAbsorb, Absorbs;
  }

  /** A worker's table and what it holds in memory. */
  class IntakeTable {
    const c: Config
    var now: nat
    var nextId: Id
    var nextToken: Token
    var rows: map<Id, Row>
    var locks: map<Id, Token>
    var open: map<Token, set<Id>>
    var picks: map<Token, set<Id>>
    var held: map<Token, map<Id, nat>>
    var runs: seq<Id>
    var gone: map<Id, Gone>
    ghost var log: seq<Event>

    ghost function State(): State
      reads this
    {
      IntakeQueue.State(now, nextId, nextToken, rows, locks, open, picks, held, runs, gone, log)
    }

    constructor (c: Config)
      ensures this.c == c && State() == Init()
    {
      this.c, now, nextId, nextToken, rows, locks, open, picks := c, 0, 0, 0, map[], map[], map[], map[];
      held, runs, gone, log := map[], [], map[], [];
    }

    /** The newest row of an order key. */
    method Tail(key: Option<string>) returns (tail: Option<Id>)
      requires forall id :: id in rows ==> id < nextId
      ensures tail.Some? ==> tail.value in rows && rows[tail.value].key == key
                             && forall j :: j in rows && rows[j].key == key ==> j <= tail.value
      ensures tail.None? ==> forall j :: j in rows ==> rows[j].key != key
    {
      var i := nextId;
      while i > 0
        invariant forall j :: j in rows && rows[j].key == key ==> j < i
      {
        i := i - 1;
        if i in rows && rows[i].key == key { return Some(i); }
      }
      return None;
    }

    /** enqueue: absorbed into the newest row of its key if that may still absorb it, else a row of its own. */
    method Enqueue(ev: Event) returns (id: Id)
      requires Core(c, State())
      modifies this
      ensures var e := Step.Enqueue(ev, if id < old(nextId) then Some(id) else None);
        Enabled(c, old(State()), e) && State() == Apply(c, old(State()), e)
      ensures Stored(c, old(State()), State(), ev, id)
    {
      assert forall id :: id in rows ==> id < nextId;
      hide Core;
      ghost var s0 := State();
      if c.coalesce && ev.coalesceKey.Some? && ev.key.Some? {
        var tail := Tail(ev.key);
        if tail.Some? && tail.value !in locks && rows[tail.value].coalesceKey == ev.coalesceKey && rows[tail.value].attempts == 0 {
          id := tail.value;
          assert CanAbsorb(c, s0, ev, id);
          StoredIn(c, s0, ev, id);
          hide CanAbsorb, Absorb, Stored;
          rows, log := rows[id := Absorb(rows[id], ev)], log + [ev];
          return;
        }
      }
      assert forall j :: j in s0.rows ==> !CanAbsorb(c, s0, ev, j);
      StoredNew(c, s0, ev);
      hide CanAbsorb, Stored;
      id := nextId;
      rows, nextId, log := rows[id := Row(ev.key, ev.coalesceKey, Payload(ev, []), [ev], 0, now, None)], id + 1, log + [ev];
    }

    /** Is this the oldest row of its order key? */
    method IsHead(id: Id) returns (head: bool)
      requires id in rows
      ensures head <==> Head(rows, id)
    {
      if rows[id].key.None? { return true; }
      for j := 0 to id
        invariant forall i: Id :: i < j && i in rows ==> rows[i].key != rows[id].key
      {
        if j in rows && rows[j].key == rows[id].key { return false; }
      }
      return true;
    }

    /** claimHeads: up to `limit` heads that are due and not locked, oldest first, each with one more attempt and a lease. */
    method ClaimHeads(limit: nat) returns (t: Token, items: seq<Id>)
      requires Core(c, State())
      modifies this
      ensures OldestClaimable(old(State()), items, limit)
      ensures Leased(c, old(rows), rows, now, t, items) && now == old(now)
      ensures t == old(nextToken) && State() == AfterClaims(c, old(State()), Elements(items))
      ensures var e, f := Pick(Elements(items)), Take(t);
        Valid(c, old(State()), [e, f]) && Exec(c, old(State()), [e, f]) == State()
    {
      assert forall id :: id in rows ==> id < nextId;
      hide Core;
      items := Available(limit);
      t := nextToken;
      assert AllClaimable(State(), items);
      hide OldestClaimable, AllClaimable, Valid, Exec, AfterClaims, Elements;
      ClaimIsSteps(c, State(), items);
      ClaimLeases(c, State(), items);
      hide Leased;
      Claim(Elements(items));
    }

    method Available(limit: nat) returns (items: seq<Id>)
      requires forall id :: id in rows ==> id < nextId
      ensures OldestClaimable(State(), items, limit)
    {
      items := [];
      for i := 0 to nextId
        invariant |items| <= limit && Increasing(items) && Below(items, i)
        invariant AllClaimable(State(), items)
        invariant forall id: Id :: id < i && Claimable(State(), id) && id !in items ==> |items| == limit && Below(items, id)
      {
        if |items| < limit && i in rows && rows[i].availableAt <= now && i !in locks {
          var head := IsHead(i);
          if head { items := items + [i]; }
        }
      }
    }

    method DueHeads(limit: nat) returns (items: seq<Id>)
      requires forall id :: id in rows ==> id < nextId
      ensures OldestDue(State(), items, limit)
    {
      items := [];
      for i := 0 to nextId
        invariant |items| <= limit && Increasing(items) && Below(items, i)
        invariant AllDue(State(), items)
        invariant forall id: Id :: id < i && Due(State(), id) && id !in items ==> |items| == limit && Below(items, id)
      {
        if |items| < limit && i in rows && rows[i].availableAt <= now {
          var head := IsHead(i);
          if head { items := items + [i]; }
        }
      }
    }

    /** claimGroups: whole feeder groups out of the oldest `scan` heads, then those of them no other loop locked meanwhile. */
    method ClaimGroups(limit: nat, scan: nat, groupMax: nat, group: Id -> nat) returns (t: Token, picks: seq<Id>, items: seq<Id>)
      requires Core(c, State())
      modifies this
      ensures exists heads :: OldestDue(old(State()), heads, scan) && picks == FeederGroups.Picks(heads, group, groupMax, limit)
                              && (heads != [] && groupMax > 0 && limit > 0 ==> picks != [])
      ensures items == Free(picks, old(locks)) && Distinct(items) && AllClaimable(old(State()), items)
      ensures Elements(items) == Unlocked(Elements(picks), old(locks))
      ensures Leased(c, old(rows), rows, now, t, items) && now == old(now)
      ensures t == old(nextToken) && State() == AfterClaims(c, old(State()), Elements(items))
      ensures var e, f := Pick(Elements(picks)), Take(t);
        Valid(c, old(State()), [e, f]) && Exec(c, old(State()), [e, f]) == State()
    {
      assert forall id :: id in rows ==> id < nextId;
      hide Core;
      var heads := DueHeads(scan);
      picks := FeederGroups.Picks(heads, group, groupMax, limit);
      FeederGroups.PicksRight(heads, group, groupMax, limit, 0);
      t := nextToken;
      PickedAreDue(State(), heads, picks);
      items := Free(picks, locks);
      FreeRight(State(), picks);
      FreeElements(picks, locks);
      hide AllDue, Valid, Exec, AfterClaims, Elements, OldestDue, AllClaimable, Distinct;
      GroupClaimIsSteps(c, State(), picks);
      ClaimLeases(c, State(), items);
      hide Leased;
      Claim(Elements(items));
    }

    /** The UPDATE of a claim, under a token of its own. */
    method Claim(ids: set<Id>)
      modifies this
      ensures now == old(now) && State() == AfterClaims(c, old(State()), ids)
    {
      var t := nextToken;
      nextToken := t + 1;
      if ids != {} { held := held[t := Copies(rows, ids)]; }
      rows := TakeRows(rows, ids, t, now + c.leaseMs);
    }

    /** The lease heartbeat: every claim this process still works on is renewed. */
    method Heartbeat(mine: set<Token>)
      requires mine <= held.Keys
      modifies this
      ensures Enabled(c, old(State()), Step.Heartbeat(mine)) && State() == Apply(c, old(State()), Step.Heartbeat(mine))
    {
      rows := map id | id in rows ::
        if id !in locks && rows[id].claimedBy.Some? && rows[id].claimedBy.value in mine
        then rows[id].(availableAt := now + c.leaseMs) else rows[id];
    }

    /** deadLetter: only the claim that holds the item may bury it. */
    method DeadLetter(id: Id, why: Reason, t: Token) returns (ok: bool)
      modifies this
      ensures ok <==> MineNow(old(State()), t, id)
      ensures State() == if ok then AsDead(old(State()), id, why) else old(State())
    {
      if id !in rows || rows[id].claimedBy != Some(t) { return false; }
      gone := gone[id := Gone(rows[id], Dead(why))];
      rows := rows - {id};
      return true;
    }

    /** failed: the dead letter after the last attempt, else the claim released until the back-off is over. */
    method Failed(t: Token, id: Id)
      requires t in held && id in held[t] && held[t][id] <= c.maxAttempts
      modifies this
      ensures State() == AfterOne(c, old(State()), t, id, Fails)
    {
      var att := held[t][id];
      if att >= c.maxAttempts {
        var _ := DeadLetter(id, Reason.Failed, t);
      } else if id in rows && rows[id].claimedBy == Some(t) {
        rows := rows[id := rows[id].(availableAt := now + Backoff(c, att), claimedBy := None)];
      }
    }

    /** exhausted: an item that used up its attempts is buried without being run again. */
    method TryExhausted(t: Token, id: Id, ghost v: Verdict) returns (yes: bool)
      requires t in held && id in held[t]
      modifies this
      ensures yes <==> old(held[t][id]) > c.maxAttempts
      ensures State() == if yes then AfterOne(c, old(State()), t, id, v) else old(State())
    {
      if held[t][id] <= c.maxAttempts { return false; }
      var _ := DeadLetter(id, Exhausted, t);
      return true;
    }

    /** processOne: run by its handler in one transaction, if the row still carries this claim. */
    method ProcessOne(t: Token, id: Id, v: Verdict)
      requires t in held && id in held[t] && !v.Crashes?
      modifies this
      ensures State() == AfterOne(c, old(State()), t, id, v)
    {
      var done := TryExhausted(t, id, v);
      if done { return; }
      if id !in rows || rows[id].claimedBy != Some(t) { return; }
      match v {
        case Succeeds =>
          runs, gone := runs + [id], gone[id := Gone(rows[id], Ran(|runs|, t))];
          rows := rows - {id};
        case Refuses =>
          var _ := DeadLetter(id, Rejected, t);
        case Fails => Failed(t, id);
      }
    }
    /** These items, one after the other. */
    method ProcessEach(t: Token, ids: seq<Id>, verdict: Id -> Verdict) returns (ghost es: seq<Step>)
      requires Ready(c, State(), t) && Held(State(), t, Elements(ids)) && Distinct(ids)
      requires forall id :: !verdict(id).Crashes?
      modifies this
      ensures Did(c, old(State()), es, t, verdict, Elements(ids), State())
    {
      ghost var s0 := State();
      es := [];
      SetOut(c, s0, t, verdict, Elements(ids));
      assert Elements(ids[..0]) == {};
      for k := 0 to |ids|
        invariant SoFar(c, s0, es, t, verdict, Elements(ids[..k]), State(), Elements(ids))
      {
        hide Did, Ready, AfterOne, SoFar, Held, Elements;
        ghost var s1, id := State(), ids[k];
        OneMore(ids, k);
        NextItem(c, s0, es, t, verdict, Elements(ids[..k]), s1, ids, k);
        ghost var fs := DidOne(c, s1, t, id, verdict);
        ProcessOne(t, ids[k], verdict(ids[k]));
        GoOn(c, s0, es, s1, fs, State(), t, verdict, Elements(ids[..k]), {id}, Elements(ids));
        es := es + fs;
      }
      assert ids[..|ids|] == ids;
    }

    /** processGroup: all items that still carry this claim in one transaction; if it fails, each of them on its own. */
    method ProcessGroup(t: Token, ids: seq<Id>, verdict: Id -> Verdict, batchFails: bool) returns (ghost es: seq<Step>)
      requires Ready(c, State(), t) && Held(State(), t, Elements(ids)) && Distinct(ids)
      requires forall id :: !verdict(id).Crashes?
      requires Unspent(c, held, t, ids)
      modifies this
      ensures Did(c, old(State()), es, t, verdict, Elements(ids), State())
    {
      var live := StillOurs(rows, t, ids);
      var fails := batchFails;
      for k := 0 to |live|
        invariant !fails ==> forall j :: 0 <= j < k ==> verdict(live[j]).Succeeds?
      {
        if !verdict(live[k]).Succeeds? { fails := true; }
      }
      if fails {
        es := ProcessEach(t, ids, verdict);
        return;
      }
      es := DidGroup(c, State(), t, ids, verdict);
      RunAll(t, live);
    }

    /** The runs of a group, and the deletion of their rows. */
    method RunAll(t: Token, live: seq<Id>)
      modifies this
      ensures State() == AfterRuns(old(State()), t, live)
    {
      ghost var s0 := State();
      for k := 0 to |live|
        invariant State() == AfterRuns(s0, t, live[..k])
      {
        assert live[..k + 1][..k] == live[..k];
        var id := live[k];
        if id in rows {
          runs, gone := runs + [id], gone[id := Gone(rows[id], Ran(|runs|, t))];
          rows := rows - {id};
        }
      }
      assert live[..|live|] == live;
    }

    /** exhausted, in terms of the machine. */
    method Exhausts(t: Token, id: Id, verdict: Id -> Verdict) returns (yes: bool, ghost fs: seq<Step>)
      requires Ready(c, State(), t) && Held(State(), t, {id}) && !verdict(id).Crashes?
      modifies this
      ensures yes <==> old(t in held && id in held[t] && held[t][id] > c.maxAttempts)
      ensures if yes then Did(c, old(State()), fs, t, verdict, {id}, State()) else State() == old(State())
    {
      assert id in {id};
      fs := DidOne(c, State(), t, id, verdict);
      hide Did, Ready, AfterOne;
      yes := TryExhausted(t, id, verdict(id));
    }

    /** The first loop of processClaimed: items out of attempts are buried, the others collected. */
    method SortOut(t: Token, items: seq<Id>, verdict: Id -> Verdict, group: Id -> Option<nat>)
      returns (singles: seq<Id>, keys: seq<nat>, members: map<nat, seq<Id>>, ghost es: seq<Step>, ghost done: set<Id>)
      requires Ready(c, State(), t) && Held(State(), t, Elements(items)) && Distinct(items)
      requires forall id :: !verdict(id).Crashes?
      modifies this
      ensures SoFar(c, old(State()), es, t, verdict, done, State(), Elements(items))
      ensures Sorted(c, old(held), t, Elements(items), singles, keys, members, done)
    {
      ghost var s0 := State();
      singles, keys, members, es, done := [], [], map[], [], {};
      SetOut(c, s0, t, verdict, Elements(items));
      assert Elements(items[..0]) == {};
      for i := 0 to |items|
        invariant SoFar(c, s0, es, t, verdict, done, State(), Elements(items))
        invariant members.Keys == set k | k in keys
        invariant Sorted(c, s0.held, t, Elements(items[..i]), singles, keys, members, done)
      {
        var id := items[i];
        ghost var s1, soFar := State(), Elements(items[..i]);
        hide Sorted, Did, Ready, Distinct, SoFar, Held, Elements;
        OneMore(items, i);
        NextItem(c, s0, es, t, verdict, done, s1, items, i);
        ghost var fs: seq<Step>;
        var over;
        over, fs := Exhausts(t, id, verdict);
        if over {
          SortDone(c, s0.held, t, soFar, singles, keys, members, done, id);
          GoOn(c, s0, es, s1, fs, State(), t, verdict, done, {id}, Elements(items));
          es, done := es + fs, done + {id};
        } else {
          singles, keys, members := Collect(t, id, group(id), soFar, singles, keys, members, done);
        }
      }
      assert items[..|items|] == items;
    }

    /** An item joins its group, which it may open, or stays on its own. */
    method Collect(t: Token, id: Id, g: Option<nat>, ghost soFar: set<Id>,
                   singles0: seq<Id>, keys0: seq<nat>, members0: map<nat, seq<Id>>, ghost done: set<Id>)
      returns (singles: seq<Id>, keys: seq<nat>, members: map<nat, seq<Id>>)
      requires Sorted(c, held, t, soFar, singles0, keys0, members0, done) && id !in soFar
      requires t in held && id in held[t] && held[t][id] <= c.maxAttempts
      requires members0.Keys == set k | k in keys0
      ensures Sorted(c, held, t, soFar + {id}, singles, keys, members, done)
      ensures members.Keys == set k | k in keys
    {
      singles, keys, members := singles0, keys0, members0;
      hide Sorted;
      if g.Some? {
        var k := g.value;
        if k !in members {
          SortNewGroup(c, held, t, soFar, singles, keys, members, done, id, k);
          keys, members := keys + [k], members[k := [id]];
        } else {
          SortOldGroup(c, held, t, soFar, singles, keys, members, done, id, k);
          members := members[k := members[k] + [id]];
        }
      } else {
        SortSingle(c, held, t, soFar, singles, keys, members, done, id);
        singles := singles + [id];
      }
    }

    /** The second loop of processClaimed: a group of one is left to the singles. */
    method ProcessGroups(t: Token, verdict: Id -> Verdict, batchFails: nat -> bool, ghost s0: State, ghost es0: seq<Step>, ghost all: set<Id>,
                         singles0: seq<Id>, keys: seq<nat>, members: map<nat, seq<Id>>, ghost done0: set<Id>)
      returns (singles: seq<Id>, ghost es: seq<Step>, ghost done: set<Id>)
      requires SoFar(c, s0, es0, t, verdict, done0, State(), all) && Sorted(c, s0.held, t, all, singles0, keys, members, done0)
      requires forall id :: !verdict(id).Crashes?
      modifies this
      ensures SoFar(c, s0, es, t, verdict, done, State(), all)
      ensures Sorted(c, s0.held, t, all, singles, [], members, done)
    {
      singles, es, done := singles0, es0, done0;
      assert keys[0..] == keys;
      for j := 0 to |keys|
        invariant SoFar(c, s0, es, t, verdict, done, State(), all)
        invariant Sorted(c, s0.held, t, all, singles, keys[j..], members, done)
      {
        ghost var s1 := State();
        var k := keys[j];
        assert Ready(c, s1, t) && Held(s1, t, all) && s1.held == s0.held;
        hide Did, Ready, SoFar;
        NextGroup(c, s0.held, t, all, singles, keys[j..], members, done);
        hide Sorted;
        assert keys[j..][1..] == keys[j + 1..];
        if |members[k]| == 1 {
          singles := singles + members[k];
        } else {
          ghost var fs := ProcessGroup(t, members[k], verdict, batchFails(k));
          GoOn(c, s0, es, s1, fs, State(), t, verdict, done, Elements(members[k]), all);
          es, done := es + fs, done + Elements(members[k]);
        }
      }
      assert keys[|keys|..] == [];
    }

    /** processClaimed: items out of attempts first, then the groups of batchable items, then all others by id. */
    method ProcessClaimed(t: Token, items: seq<Id>, verdict: Id -> Verdict, group: Id -> Option<nat>, batchFails: nat -> bool)
      returns (ghost es: seq<Step>)
      requires Ready(c, State(), t) && Held(State(), t, Elements(items)) && Distinct(items)
      requires forall id :: !verdict(id).Crashes?
      modifies this
      ensures Did(c, old(State()), es, t, verdict, Elements(items), State())
    {
      ghost var s0, all := State(), Elements(items);
      var singles, keys, members;
      ghost var done;
      hide Did, Ready, SoFar, Sorted, Held;
      singles, keys, members, es, done := SortOut(t, items, verdict, group);
      singles, es, done := ProcessGroups(t, verdict, batchFails, s0, es, all, singles, keys, members, done);
      ghost var s1 := State();
      LastSingles(c, s0, es, t, verdict, done, s1, all, singles, members);
      var byId := SortById(singles);
      ghost var fs := ProcessEach(t, byId, verdict);
      DidThen(c, s0, es, s1, fs, State(), t, verdict, done, Elements(byId));
      es := es + fs;
    }
  }

  lemma LastSingles(c: Config, s0: State, es: seq<Step>, t: Token, verdict: Id -> Verdict, done: set<Id>, s1: State, all: set<Id>,
                    singles: seq<Id>, members: map<nat, seq<Id>>)
    requires SoFar(c, s0, es, t, verdict, done, s1, all) && Sorted(c, s0.held, t, all, singles, [], members, done)
    ensures done !! Elements(singles) && done + Elements(singles) == all && Distinct(singles)
    ensures Ready(c, s1, t) && Held(s1, t, Elements(singles)) && Did(c, s0, es, t, verdict, done, s1)
  {
    hide Did, Ready;
  }

  method SortById(s: seq<Id>) returns (r: seq<Id>)
    requires Distinct(s)
    ensures Increasing(r) && Distinct(r) && Elements(r) == Elements(s)
  {
    r := [];
    for k := 0 to |s|
      invariant Increasing(r) && Elements(r) == Elements(s[..k])
    {
      OneMore(s, k);
      assert s[k] !in r by { assert s[k] !in Elements(r); }
      InsertKeeps(r, s[k]);
      r := InsertById(r, s[k]);
    }
    assert s[..|s|] == s;
  }

  lemma OneMore(ids: seq<Id>, k: nat)
    requires k < |ids| && Distinct(ids)
    ensures ids[k] in Elements(ids) && Elements(ids[..k]) !! {ids[k]} && Elements(ids[..k + 1]) == Elements(ids[..k]) + {ids[k]}
  {
    assert ids[..k + 1] == ids[..k] + [ids[k]];
  }
}
