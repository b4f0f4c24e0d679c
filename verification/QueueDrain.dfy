/** Progress of the intake queue: an available head can run at once whatever happens to other keys, and one live
  * worker empties any queue any crash left behind.
  */
module QueueDrain {
  import opened Common
  import opened IntakeQueue
  import opened Coalescing
  import opened QueueRuns

  /** What a handler does with an item it is given. */
  datatype Verdict = Succeeds | Fails | Refuses | Crashes

  lemma Then(c: Config, s: State, es: seq<Step>, e: Step)
    requires Valid(c, s, es) && Enabled(c, Exec(c, s, es), e)
    ensures Valid(c, s, es + [e]) && Exec(c, s, es + [e]) == Apply(c, Exec(c, s, es), e)
  {
    var s1 := Exec(c, s, es);
    assert [e][1..] == [];
    assert Valid(c, s1, [e]) && Exec(c, s1, [e]) == Apply(c, s1, e) by { hide Enabled, Apply; }
    Join(c, s, es, [e]);
  }

  lemma Two(c: Config, s: State, e: Step, f: Step, s1: State)
    requires Enabled(c, s, e) && Apply(c, s, e) == s1 && Enabled(c, s1, f)
    ensures Valid(c, s, [e, f]) && Exec(c, s, [e, f]) == Apply(c, s1, f)
  {
    hide Enabled, Apply;
    Then(c, s, [], e);
    Then(c, s, [] + [e], f);
    assert [] + [e] + [f] == [e, f];
  }

  /** The row as the claim leaves it. */
  function Claimed(c: Config, r: Row, now: nat, t: Token): Row {
    r.(attempts := NextAttempt(r), availableAt := now + c.leaseMs, claimedBy := Some(t))
  }

  /** One item claimed by a fresh token. */
  ghost function AfterClaim(c: Config, s: State, id: Id): State
    requires id in s.rows
  {
    var t := s.nextToken;
    s.(rows := s.rows[id := Claimed(c, s.rows[id], s.now, t)], nextToken := t + 1,
       held := s.held[t := map[id := NextAttempt(s.rows[id])]])
  }

  /** A fresh claim has picked id and not yet written its UPDATE. */
  ghost function Picked(s: State, id: Id): State {
    s.(picks := s.picks[s.nextToken := {id}], nextToken := s.nextToken + 1)
  }

  lemma PickOne(c: Config, s: State, id: Id)
    requires Claimable(s, id)
    ensures Enabled(c, s, Pick({id})) && Apply(c, s, Pick({id})) == Picked(s, id)
  {
  }

  lemma TakeOne(c: Config, s: State, id: Id)
    requires Claimable(s, id) && s.nextToken !in s.picks
    ensures var s2 := Picked(s, id); Enabled(c, s2, Take(s.nextToken)) && Apply(c, s2, Take(s.nextToken)) == AfterClaim(c, s, id)
  {
    var s2, t := Picked(s, id), s.nextToken;
    assert Taken(s2, t) == {id} && s2.picks - {t} == s.picks;
    assert TakeRows(s.rows, {id}, t, s.now + c.leaseMs) == s.rows[id := Claimed(c, s.rows[id], s.now, t)];
    assert Copies(s.rows, {id}) == map[id := NextAttempt(s.rows[id])];
    hide Taken, TakeRows, Copies, Claimed, NextAttempt, Claimable;
  }

  lemma BeginOne(c: Config, s: State, t: Token, id: Id)
    requires Idle(s, t, id) && s.held[t][id] <= c.maxAttempts && MineNow(s, t, id)
    ensures Enabled(c, s, Begin(t, {id}))
    ensures Apply(c, s, Begin(t, {id})) == Opened(s, t, id)
  {
    assert Mine(s, t, {id}) == {id};
    assert s.locks + LockAll({id} * s.rows.Keys, t) == s.locks[id := t];
  }

  /** The row leaves the queue; nothing else about rows, locks and transactions differs from s. */
  ghost predicate Left(s: State, id: Id, s': State) {
    && id in s.rows && s'.rows == s.rows - {id} && s'.locks == s.locks && s'.open == s.open
    && id in s'.gone && s'.gone == s.gone[id := s'.gone[id]] && s'.nextId == s.nextId
  }

  /** The row stays, one attempt further; nothing else about rows, locks and transactions differs from s. */
  ghost predicate Stayed(s: State, id: Id, s': State) {
    && id in s.rows && id in s'.rows && s'.rows == s.rows[id := s'.rows[id]] && s'.locks == s.locks && s'.open == s.open
    && s'.rows[id].attempts == s.rows[id].attempts + 1
    && s'.gone == s.gone && s'.nextId == s.nextId
  }

  /** The row leaves as the next run of claim t. */
  function AfterRun(s: State, t: Token, id: Id): State
    requires id in s.rows
  {
    s.(rows := s.rows - {id}, gone := s.gone[id := Gone(s.rows[id], Ran(|s.runs|, t))], runs := s.runs + [id])
  }

  lemma LeaveOne(rows: map<Id, Row>, n: nat, id: Id, t: Token)
    requires id in rows
    ensures Leave(rows, n, [id], t) == map[id := Gone(rows[id], Ran(n, t))]
  {
    assert IndexOf([id], id) == 0;
  }

  /** Claim t runs the processing transaction of id alone. */
  function Opened(s: State, t: Token, id: Id): State { s.(open := s.open[t := {id}], locks := s.locks[id := t]) }

  lemma MayCommit(c: Config, s: State, t: Token, id: Id)
    ensures Enabled(c, Opened(s, t, id), Commit(t, [id]))
  {
  }

  lemma RetireOne(s: State, id: Id, g: Gone)
    ensures Retire(s, map[id := g], [id]) == s.(rows := s.rows - {id}, gone := s.gone[id := g], runs := s.runs + [id])
  {
    assert map[id := g].Keys == {id};
    assert s.gone + map[id := g] == s.gone[id := g];
  }

  lemma CommitOne(c: Config, s: State, t: Token, id: Id)
    requires t !in s.open && id !in s.locks && id in s.rows && forall j :: j in s.locks ==> s.locks[j] in s.open
    ensures ApplyCommit(Opened(s, t, id), t, [id]) == AfterRun(s, t, id)
  {
    UnlockOne(s, t, id);
    LeaveOne(s.rows, |s.runs|, id, t);
    RetireOne(s, id, Gone(s.rows[id], Ran(|s.runs|, t)));
    hide Release, Leave, Retire;
  }

  lemma UnlockOne(s: State, t: Token, id: Id)
    requires t !in s.open && id !in s.locks && forall j :: j in s.locks ==> s.locks[j] in s.open
    ensures Release(Opened(s, t, id), {t}) == s
  {
    assert Unlock(s.locks[id := t], {t}) == s.locks;
    assert s.open[t := {id}] - {t} == s.open;
  }

  /** A claim that holds id and has started nothing yet. */
  ghost predicate Holds(c: Config, s: State, t: Token, id: Id) {
    Core(c, s) && Idle(s, t, id) && MineNow(s, t, id) && s.held[t][id] == s.rows[id].attempts
  }

  lemma ClaimOne(c: Config, s: State, id: Id) returns (es: seq<Step>)
    requires Core(c, s) && Claimable(s, id)
    ensures es == [Pick({id}), Take(s.nextToken)]
    ensures Valid(c, s, es) && Exec(c, s, es) == AfterClaim(c, s, id)
    ensures Holds(c, AfterClaim(c, s, id), s.nextToken, id)
  {
    assert s.nextToken !in s.picks && s.nextToken !in s.open;
    PickOne(c, s, id);
    TakeOne(c, s, id);
    assert Idle(AfterClaim(c, s, id), s.nextToken, id) && MineNow(AfterClaim(c, s, id), s.nextToken, id);
    assert AfterClaim(c, s, id).held[s.nextToken][id] == AfterClaim(c, s, id).rows[id].attempts;
    hide Core, Enabled, Apply, Picked, AfterClaim, Claimable, Idle, MineNow;
    KeepCore(c, s, Pick({id}));
    KeepCore(c, Picked(s, id), Take(s.nextToken));
    Two(c, s, Pick({id}), Take(s.nextToken), Picked(s, id));
    es := [Pick({id}), Take(s.nextToken)];
  }

  /** The processing transaction commits. */
  lemma RunIt(c: Config, s: State, t: Token, id: Id) returns (es: seq<Step>)
    requires Holds(c, s, t, id) && s.held[t][id] <= c.maxAttempts
    ensures Valid(c, s, es) && es == [Begin(t, {id}), Commit(t, [id])]
    ensures Exec(c, s, es) == AfterRun(s, t, id)
    ensures Left(s, id, AfterRun(s, t, id))
  {
    assert forall j :: j in s.locks ==> s.locks[j] in s.open;
    hide Core;
    assert Left(s, id, AfterRun(s, t, id));
    BeginOne(c, s, t, id);
    CommitOne(c, s, t, id);
    MayCommit(c, s, t, id);
    hide MineNow, Idle, Enabled, ApplyCommit, Left, AfterRun, Opened;
    es := [Begin(t, {id}), Commit(t, [id])];
    Two(c, s, Begin(t, {id}), Commit(t, [id]), Opened(s, t, id));
  }

  /** Its transaction rolls back. */
  lemma RollBack(c: Config, s: State, t: Token, id: Id) returns (es: seq<Step>)
    requires Holds(c, s, t, id) && s.held[t][id] <= c.maxAttempts
    ensures Valid(c, s, es) && Exec(c, s, es) == s
  {
    BeginOne(c, s, t, id);
    UnlockOne(s, t, id);
    es := [Begin(t, {id}), Abort(t)];
    hide Core, Idle, MineNow;
    Two(c, s, Begin(t, {id}), Abort(t), Opened(s, t, id));
  }

  /** Its worker dies in the middle. */
  lemma CrashIt(c: Config, s: State, t: Token, id: Id) returns (es: seq<Step>)
    requires Holds(c, s, t, id) && s.held[t][id] <= c.maxAttempts
    ensures Valid(c, s, es)
    ensures var s' := Exec(c, s, es); s' == s.(held := s'.held, picks := s'.picks)
  {
    BeginOne(c, s, t, id);
    UnlockOne(s, t, id);
    es := [Begin(t, {id}), Kill({t})];
    hide Core, Idle, MineNow;
    Two(c, s, Begin(t, {id}), Kill({t}), Opened(s, t, id));
  }

  ghost predicate EndsAs(v: Verdict, how: Ending) {
    match v
    case Succeeds => how.Ran?
    case Fails => how == Dead(Failed)
    case Refuses => how == Dead(Rejected)
    case Crashes => how == Dead(Exhausted)
  }

  /** How one claim of an item ends: `tries` counts this claim. */
  ghost predicate Handled(c: Config, v: Verdict, s: State, id: Id, s': State) {
    && id in s.rows
    && var tries := s.rows[id].attempts + 1;
      (Left(s, id, s') && EndsAs(if tries > c.maxAttempts then Crashes else v, s'.gone[id].how))
      || (Stayed(s, id, s') && tries <= c.maxAttempts && (v.Crashes? || (v.Fails? && tries < c.maxAttempts)))
  }

  lemma BuryIt(c: Config, s: State, t: Token, id: Id, why: Reason)
    requires MineNow(s, t, id)
    ensures var s' := DeadLetter(s, t, id, why); Left(s, id, s') && s'.gone[id].how == Dead(why)
  {
  }

  lemma FailIt(c: Config, s: State, t: Token, id: Id)
    requires Holds(c, s, t, id) && s.held[t][id] <= c.maxAttempts
    ensures Enabled(c, s, Fail(t, id))
    ensures var s' := Apply(c, s, Fail(t, id));
      if s.held[t][id] == c.maxAttempts then Left(s, id, s') && s'.gone[id].how == Dead(Failed)
      else id in s'.rows && s' == s.(rows := s.rows[id := s'.rows[id]]) && s'.rows[id].attempts == s.held[t][id]
  {
    BuryIt(c, s, t, id, Failed);
    hide Core, Left, DeadLetter;
  }

  ghost predicate Kept(s: State, id: Id, s': State) {
    && id in s.rows && id in s'.rows && s'.rows == s.rows[id := s'.rows[id]] && s'.rows[id].attempts == s.rows[id].attempts
    && s'.locks == s.locks && s'.open == s.open && s'.gone == s.gone && s'.nextId == s.nextId
  }

  /** The worker that holds id deals with it. */
  lemma Process(c: Config, s: State, t: Token, id: Id, v: Verdict) returns (es: seq<Step>)
    requires Holds(c, s, t, id)
    ensures Valid(c, s, es)
    ensures var s' := Exec(c, s, es); var tries := s.rows[id].attempts;
      (Left(s, id, s') && EndsAs(if tries > c.maxAttempts then Crashes else v, s'.gone[id].how))
      || (Kept(s, id, s') && tries <= c.maxAttempts && (v.Crashes? || (v.Fails? && tries < c.maxAttempts)))
  {
    hide Core;
    if s.held[t][id] > c.maxAttempts {
      BuryIt(c, s, t, id, Exhausted);
      es := [] + [Exhaust(t, id)];
      Then(c, s, [], Exhaust(t, id));
    } else {
      hide Apply, Enabled, Left, DeadLetter;
      match v
      case Succeeds => es := RunIt(c, s, t, id);
      case Crashes => es := CrashIt(c, s, t, id); assert s.rows[id := s.rows[id]] == s.rows;
      case Fails =>
        var fs := RollBack(c, s, t, id);
        FailIt(c, s, t, id);
        Then(c, s, fs, Fail(t, id));
        es := fs + [Fail(t, id)];
      case Refuses =>
        var fs := RollBack(c, s, t, id);
        RejectIt(c, s, t, id);
        Then(c, s, fs, Reject(t, id));
        es := fs + [Reject(t, id)];
    }
  }

  lemma RejectIt(c: Config, s: State, t: Token, id: Id)
    requires Holds(c, s, t, id) && s.held[t][id] <= c.maxAttempts
    ensures Enabled(c, s, Reject(t, id))
    ensures var s' := Apply(c, s, Reject(t, id)); Left(s, id, s') && s'.gone[id].how == Dead(Rejected)
  {
    BuryIt(c, s, t, id, Rejected);
    hide Core, Left, DeadLetter;
  }

  lemma SinceClaim(c: Config, s: State, id: Id, s': State)
    requires id in s.rows
    ensures AfterClaim(c, s, id).rows[id].attempts == s.rows[id].attempts + 1
    ensures Left(AfterClaim(c, s, id), id, s') ==> Left(s, id, s')
    ensures Kept(AfterClaim(c, s, id), id, s') ==> Stayed(s, id, s')
  {
    assert AfterClaim(c, s, id).rows - {id} == s.rows - {id};
  }

  /** One turn of the worker on an available head. */
  lemma Round(c: Config, s: State, id: Id, v: Verdict) returns (es: seq<Step>)
    requires Core(c, s) && Claimable(s, id)
    ensures Valid(c, s, es) && Handled(c, v, s, id, Exec(c, s, es))
  {
    var claim := ClaimOne(c, s, id);
    hide Core, Claimable, Holds, AfterClaim, Left, Kept, Stayed, EndsAs;
    var work := Process(c, AfterClaim(c, s, id), s.nextToken, id, v);
    es := claim + work;
    Join(c, s, claim, work);
    SinceClaim(c, s, id, Exec(c, s, es));
  }

  /** Whatever other keys are doing -- failing, backing off, running -- an available head with attempts left can be
    * claimed, run and committed right away, and no other row is touched. */
  lemma HeadRunsAtOnce(c: Config, s: State, id: Id)
    requires Inv(c, s) && Claimable(s, id) && s.rows[id].attempts < c.maxAttempts
    ensures var t := s.nextToken; var es := [Pick({id}), Take(t)] + [Begin(t, {id}), Commit(t, [id])];
      && Valid(c, s, es) && Left(s, id, Exec(c, s, es)) && Exec(c, s, es).gone[id].how == Ran(|s.runs|, t)
      && Exec(c, s, es).runs == s.runs + [id] && Exec(c, s, es).now == s.now
  {
    var claim := ClaimOne(c, s, id);
    assert Holds(c, AfterClaim(c, s, id), s.nextToken, id);
    hide Inv, Claimable, Left, Kept, Stayed, Holds;
    SinceClaim(c, s, id, s);
    var work := RunIt(c, AfterClaim(c, s, id), s.nextToken, id);
    Join(c, s, claim, work);
    SinceClaim(c, s, id, Exec(c, s, claim + work));
  }

  // ---- draining ----

  /** Claims an item can still use up before it must leave. */
  function Weight(c: Config, r: Row): nat { 1 + (if r.attempts <= c.maxAttempts then c.maxAttempts + 1 - r.attempts else 0) }

  /** The decreasing measure: attempts left, over the items in the queue. */
  ghost function Budget(c: Config, rows: map<Id, Row>, n: Id): nat {
    if n == 0 then 0 else Budget(c, rows, n - 1) + (if n - 1 in rows then Weight(c, rows[n - 1]) else 0)
  }

  lemma {:induction false} BudgetSame(c: Config, rows: map<Id, Row>, rows': map<Id, Row>, n: Id)
    requires forall j :: 0 <= j < n ==> (j in rows <==> j in rows') && (j in rows ==> Weight(c, rows'[j]) == Weight(c, rows[j]))
    ensures Budget(c, rows', n) == Budget(c, rows, n)
  {
    if n > 0 { BudgetSame(c, rows, rows', n - 1); }
  }

  lemma {:induction false} BudgetDrops(c: Config, rows: map<Id, Row>, rows': map<Id, Row>, id: Id, n: Id)
    requires id in rows && id < n
    requires id in rows' ==> Weight(c, rows'[id]) < Weight(c, rows[id])
    requires forall j :: j != id ==> (j in rows <==> j in rows') && (j in rows ==> rows'[j] == rows[j])
    ensures Budget(c, rows', n) < Budget(c, rows, n)
  {
    if id == n - 1 { BudgetSame(c, rows, rows', n - 1); } else { BudgetDrops(c, rows, rows', id, n - 1); }
  }

  ghost predicate Quiet(s: State) { s.locks == map[] && s.open == map[] }

  /** An item whose outcome its handler alone decides: it has attempts left, or it kills every worker that runs it. */
  ghost predicate Decided(c: Config, v: Verdict, r: Row) { v.Crashes? || r.attempts < c.maxAttempts }

  /** From s to s', items only leave, each the way its handler decides. */
  ghost predicate Progress(c: Config, verdict: Id -> Verdict, s: State, s': State) {
    && s'.rows.Keys <= s.rows.Keys
    && (forall id :: id in s.gone ==> id in s'.gone && s'.gone[id] == s.gone[id])
    && (forall id :: id in s.rows && Decided(c, verdict(id), s.rows[id]) ==>
        if id in s'.rows then Decided(c, verdict(id), s'.rows[id]) else id in s'.gone && EndsAs(verdict(id), s'.gone[id].how))
  }

  lemma Wait(c: Config, s: State, id: Id) returns (es: seq<Step>)
    requires Core(c, s) && Quiet(s) && id in s.rows && Head(s.rows, id)
    ensures Valid(c, s, es)
    ensures var s' := Exec(c, s, es); s' == s.(now := s'.now) && Claimable(s', id)
  {
    var ms := if s.rows[id].availableAt <= s.now then 0 else s.rows[id].availableAt - s.now;
    es := [] + [Tick(ms)];
    Then(c, s, [], Tick(ms));
  }

  /** One turn on the oldest item: it moves towards the exit it deserves, and the measure drops. */
  lemma Turn(c: Config, s: State, verdict: Id -> Verdict, id: Id) returns (es: seq<Step>)
    requires Inv(c, s) && Quiet(s) && id in s.rows && Head(s.rows, id)
    ensures Valid(c, s, es)
    ensures var s' := Exec(c, s, es);
      && Quiet(s') && Progress(c, verdict, s, s') && s'.nextId == s.nextId
      && Budget(c, s'.rows, s'.nextId) < Budget(c, s.rows, s.nextId)
  {
    assert id < s.nextId && id !in s.gone;
    var wait := Wait(c, s, id);
    var s1 := Exec(c, s, wait);
    KeepInvs(c, s, wait);
    var work := Round(c, s1, id, verdict(id));
    es := wait + work;
    Join(c, s, wait, work);
    hide Inv, Claimable, Valid, Exec, Head;
    HandledProgress(c, verdict, s1, id, Exec(c, s1, work));
    var s' := Exec(c, s, es);
    BudgetDrops(c, s.rows, s'.rows, id, s.nextId);
  }

  lemma HandledProgress(c: Config, verdict: Id -> Verdict, s: State, id: Id, s': State)
    requires Handled(c, verdict(id), s, id, s') && id !in s.gone
    ensures Progress(c, verdict, s, s') && s'.nextId == s.nextId && s'.locks == s.locks && s'.open == s.open
    ensures id in s'.rows ==> Weight(c, s'.rows[id]) < Weight(c, s.rows[id])
    ensures forall j :: j != id ==> (j in s.rows <==> j in s'.rows) && (j in s.rows ==> s'.rows[j] == s.rows[j])
  {
  }

  lemma {:induction false} Drain(c: Config, s: State, verdict: Id -> Verdict) returns (es: seq<Step>)
    requires Inv(c, s) && Quiet(s)
    ensures Valid(c, s, es) && Exec(c, s, es).rows == map[] && Progress(c, verdict, s, Exec(c, s, es))
    decreases Budget(c, s.rows, s.nextId)
  {
    if s.rows == map[] {
      es := [];
    } else {
      var id := Oldest(s.rows.Keys);
      var turn := Turn(c, s, verdict, id);
      KeepInvs(c, s, turn);
      var s1 := Exec(c, s, turn);
      hide Inv, Exec, Valid, Quiet;
      var rest := Drain(c, s1, verdict);
      es := turn + rest;
      Join(c, s, turn, rest);
      ProgressJoins(c, verdict, s, s1, Exec(c, s1, rest));
    }
  }

  lemma ProgressJoins(c: Config, verdict: Id -> Verdict, s: State, s1: State, s2: State)
    requires Progress(c, verdict, s, s1) && Progress(c, verdict, s1, s2)
    ensures Progress(c, verdict, s, s2)
  {
  }

  lemma {:induction false} Oldest(ids: set<Id>) returns (id: Id)
    requires ids != {}
    ensures id in ids && forall j :: j in ids ==> id <= j
    decreases |ids|
  {
    var first :| first in ids;
    id := first;
    if ids != {first} {
      var other := Oldest(ids - {first});
      if other < first { id := other; }
      assert forall j :: j in ids ==> j == first || j in ids - {first};
    }
  }

  /** Whatever workers and crashes did before, one live worker can empty the queue: every item with attempts left
    * ends the way its handler decides -- committed, or dead-lettered after its failures or crashes. */
  lemma LiveWorkerDrains(c: Config, es: seq<Step>, verdict: Id -> Verdict) returns (fs: seq<Step>)
    requires Valid(c, Init(), es)
    ensures Valid(c, Init(), es + fs)
    ensures var s, s' := Exec(c, Init(), es), Exec(c, Init(), es + fs);
      && s'.rows == map[]
      && (forall id :: id in s.gone ==> id in s'.gone && s'.gone[id] == s.gone[id])
      && (forall id :: id in s.rows && Decided(c, verdict(id), s.rows[id]) ==> id in s'.gone && EndsAs(verdict(id), s'.gone[id].how))
  {
    var s := Exec(c, Init(), es);
    ReachableInv(c, es);
    var ts := s.open.Keys;
    var s1 := Apply(c, s, Kill(ts));
    assert s1.open == map[];
    assert Unlock(s.locks, ts) == map[] by { assert forall id :: id in s.locks ==> s.locks[id] in ts; }
    KeepInv(c, s, Kill(ts));
    var rest := Drain(c, s1, verdict);
    hide Inv, Progress;
    Then(c, s, [], Kill(ts));
    Join(c, s, [] + [Kill(ts)], rest);
    fs := [] + [Kill(ts)] + rest;
    Join(c, Init(), es, fs);
    assert Progress(c, verdict, s1, Exec(c, s1, rest));
  }
}
