/** The worker's own loop on the intake queue (backend/src/infra/intakeQueue.js, loop): claim, process, nap; and why it drains
  * any queue. */
module QueueLoop {
  import opened Common
  import opened IntakeQueue
  import opened Coalescing
  import opened QueueRuns
  import opened QueueDrain
  import opened QueueTable

  // ---- the measure ----

  lemma {:induction false} BudgetLower(c: Config, rows: map<Id, Row>, rows': map<Id, Row>, n: Id)
    requires forall j :: 0 <= j < n && j in rows' ==> j in rows && Weight(c, rows'[j]) <= Weight(c, rows[j])
    ensures Budget(c, rows', n) <= Budget(c, rows, n)
    ensures (exists j :: 0 <= j < n && j in rows && (j in rows' ==> Weight(c, rows'[j]) < Weight(c, rows[j])))
            ==> Budget(c, rows', n) < Budget(c, rows, n)
  {
    if n > 0 { BudgetLower(c, rows, rows', n - 1); }
  }

  // ---- one claim, dealt with ----

  /** A fresh claim of items nobody has locked. */
  ghost predicate Claims(c: Config, s: State, items: seq<Id>) {
    Core(c, s) && AllClaimable(s, items) && Distinct(items) && items != []
  }

  lemma ClaimedRow(c: Config, s: State, ids: set<Id>, id: Id)
    requires id in ids && id in s.rows
    ensures var s1, t := AfterClaims(c, s, ids), s.nextToken;
      && id in s1.rows && s1.rows[id].attempts == s.rows[id].attempts + 1 && s1.rows[id].claimedBy == Some(t)
      && t in s1.held && id in s1.held[t] && s1.held[t][id] == s.rows[id].attempts + 1
  {
  }

  lemma UnclaimedRow(c: Config, s: State, ids: set<Id>, id: Id)
    requires id !in ids
    ensures At(AfterClaims(c, s, ids), id) == At(s, id)
  {
  }

  lemma ClaimCore(c: Config, s: State, items: seq<Id>)
    requires Core(c, s) && AllClaimable(s, items)
    ensures Core(c, AfterClaims(c, s, Elements(items)))
  {
    ClaimIsSteps(c, s, items);
    hide Core, AfterClaims, Elements, AllClaimable;
    KeepCores(c, s, [Pick(Elements(items)), Take(s.nextToken)]);
  }

  /** The claim may start on its items. */
  lemma ClaimReady(c: Config, s: State, items: seq<Id>)
    requires Claims(c, s, items)
    ensures var s1 := AfterClaims(c, s, Elements(items)); Ready(c, s1, s.nextToken) && Held(s1, s.nextToken, Elements(items))
  {
    ClaimCore(c, s, items);
    assert s.nextToken !in s.open;
    assert items[0] in Elements(items);
    forall id | id in Elements(items) ensures id in s.rows && id !in s.locks {
      var k :| 0 <= k < |items| && items[k] == id;
      assert Claimable(s, items[k]);
    }
    hide Core, Claimable, AllClaimable;
  }

  /** What the handler does with an item on each of its attempts, counted from 1. */
  type Outcome = (Id, nat) -> Verdict

  /** What the handlers do in one claim, whose attempts its rows already count. */
  function Tries(outcome: Outcome, rows: map<Id, Row>): Id -> Verdict {
    (id: Id) => outcome(id, if id in rows then rows[id].attempts else 0)
  }

  /** What becomes of an item that has had so many attempts: the first attempt still allowed that does not fail decides; if all
    * of them fail it has failed; if none is allowed it leaves unrun. */
  ghost function Eventually(c: Config, outcome: Outcome, id: Id, attempts: nat): Verdict
    decreases if attempts < c.maxAttempts then c.maxAttempts - attempts else 0
  {
    if attempts >= c.maxAttempts then Crashes
    else if !outcome(id, attempts + 1).Fails? then outcome(id, attempts + 1)
    else if attempts + 1 == c.maxAttempts then Fails
    else Eventually(c, outcome, id, attempts + 1)
  }

  /** From s to s' items only leave, each as it must, and those that stay do not change their prospects. */
  ghost predicate Fate(c: Config, outcome: Outcome, id: Id, a: Slot, b: Slot) {
    if a.row.None? then b == a
    else if b.row.Some? then
      b.end == a.end && Eventually(c, outcome, id, b.row.value.attempts) == Eventually(c, outcome, id, a.row.value.attempts)
    else b.end.Some? && EndsAs(Eventually(c, outcome, id, a.row.value.attempts), b.end.value.how)
  }

  ghost predicate Fates(c: Config, outcome: Outcome, s: State, s': State) {
    forall id: Id :: Fate(c, outcome, id, At(s, id), At(s', id))
  }

  lemma FatesThen(c: Config, outcome: Outcome, s: State, s1: State, s2: State)
    requires Fates(c, outcome, s, s1) && Fates(c, outcome, s1, s2)
    requires forall id: Id :: At(s, id).row.None? || At(s, id).end.None?
    requires forall id: Id :: At(s1, id).row.None? || At(s1, id).end.None?
    ensures Fates(c, outcome, s, s2)
  {
    hide At, EndsAs, Eventually;
    forall id: Id ensures Fate(c, outcome, id, At(s, id), At(s2, id)) {
      assert Fate(c, outcome, id, At(s, id), At(s1, id)) && Fate(c, outcome, id, At(s1, id), At(s2, id));
    }
  }

  /** One claimed item, dealt with: it has left as it must, or it is nearer its end. */
  lemma ItemDealt(c: Config, now: nat, t: Token, outcome: Outcome, id: Id, r: Row, a: Slot, b: Slot)
    requires a == Slot(Some(r), None) && r.claimedBy == Some(t) && r.attempts >= 1 && !outcome(id, r.attempts).Crashes?
    requires Dealt(c, now, t, r.attempts, outcome(id, r.attempts), a, b)
    ensures b.row.Some? ==> r.attempts < c.maxAttempts && b.row.value.attempts == r.attempts && b.end.None?
    ensures b.row.Some? ==> Eventually(c, outcome, id, r.attempts) == Eventually(c, outcome, id, r.attempts - 1)
    ensures b.row.None? ==> b.end.Some? && EndsAs(Eventually(c, outcome, id, r.attempts - 1), b.end.value.how)
  {
  }

  lemma SlotsApart(c: Config, s: State, id: Id)
    requires Core(c, s)
    ensures At(s, id).row.None? || At(s, id).end.None?
    ensures id in s.rows ==> id < s.nextId
  {
  }

  /** What dealing with a claim does to any one item of the queue. */
  lemma RoundItem(c: Config, s: State, ids: set<Id>, outcome: Outcome, s2: State, id: Id)
    requires DealtWith(c, AfterClaims(c, s, ids), s.nextToken, Tries(outcome, AfterClaims(c, s, ids).rows), ids, s2)
    requires (At(s, id).row.None? || At(s, id).end.None?) && (forall n :: !outcome(id, n).Crashes?) && (id in ids ==> id in s.rows)
    ensures Fate(c, outcome, id, At(s, id), At(s2, id))
    ensures id in s2.rows ==> id in s.rows && Weight(c, s2.rows[id]) <= Weight(c, s.rows[id])
    ensures id in ids ==> (id in s2.rows ==> Weight(c, s2.rows[id]) < Weight(c, s.rows[id]))
  {
    var s1, t := AfterClaims(c, s, ids), s.nextToken;
    if id in ids {
      ClaimedRow(c, s, ids, id);
      var r := s1.rows[id];
      assert At(s1, id) == Slot(Some(r), None);
      assert Dealt(c, s1.now, t, s1.held[t][id], Tries(outcome, s1.rows)(id), At(s1, id), At(s2, id));
      assert Tries(outcome, s1.rows)(id) == outcome(id, r.attempts);
      hide AfterClaims, DealtWith, Dealt, EndsAs, Eventually;
      ItemDealt(c, s1.now, t, outcome, id, r, At(s1, id), At(s2, id));
    } else {
      UnclaimedRow(c, s, ids, id);
      assert At(s2, id) == At(s, id);
    }
  }

  /** No row is new or weighs more, and those of ids weigh less or are gone. */
  ghost predicate Lighter(c: Config, rows: map<Id, Row>, rows': map<Id, Row>, ids: set<Id>) {
    && (forall id :: id in rows' ==> id in rows && Weight(c, rows'[id]) <= Weight(c, rows[id]))
    && (forall id :: id in ids && id in rows' ==> id in rows && Weight(c, rows'[id]) < Weight(c, rows[id]))
  }

  lemma RoundItems(c: Config, s: State, ids: set<Id>, outcome: Outcome, s2: State)
    requires Core(c, s) && (forall id :: id in ids ==> id in s.rows) && (forall id, n :: !outcome(id, n).Crashes?)
    requires DealtWith(c, AfterClaims(c, s, ids), s.nextToken, Tries(outcome, AfterClaims(c, s, ids).rows), ids, s2)
    ensures Fates(c, outcome, s, s2) && Lighter(c, s.rows, s2.rows, ids)
  {
    hide Core, AfterClaims, DealtWith, Weight, Fate, Tries;
    forall id: Id
      ensures Fate(c, outcome, id, At(s, id), At(s2, id))
      ensures id in s2.rows ==> id in s.rows && Weight(c, s2.rows[id]) <= Weight(c, s.rows[id])
      ensures id in ids ==> (id in s2.rows ==> Weight(c, s2.rows[id]) < Weight(c, s.rows[id]))
    {
      SlotsApart(c, s, id);
      RoundItem(c, s, ids, outcome, s2, id);
    }
  }

  lemma LighterBudget(c: Config, rows: map<Id, Row>, rows': map<Id, Row>, ids: set<Id>, id: Id, n: Id)
    requires Lighter(c, rows, rows', ids) && id in ids && id in rows && id < n
    ensures Budget(c, rows', n) < Budget(c, rows, n)
  {
    hide Weight, Budget;
    BudgetLower(c, rows, rows', n);
  }

  lemma ClaimsItems(c: Config, s: State, items: seq<Id>)
    requires Claims(c, s, items)
    ensures Core(c, s) && (forall id :: id in Elements(items) ==> id in s.rows) && items[0] in Elements(items)
  {
    hide Core, Distinct;
    assert items[0] in Elements(items);
    forall id | id in Elements(items) ensures id in s.rows {
      var k :| 0 <= k < |items| && items[k] == id;
      assert Claimable(s, items[k]);
    }
  }

  /** Whatever heads a claim takes, of whatever groups, and whatever other workers have locked: once its items are dealt with
    * the budget is lower, and every item has gone the way it must. */
  lemma RoundLowersBudget(c: Config, s: State, items: seq<Id>, outcome: Outcome, s2: State)
    requires Claims(c, s, items) && (forall id, n :: !outcome(id, n).Crashes?)
    requires var s1 := AfterClaims(c, s, Elements(items));
      DealtWith(c, s1, s.nextToken, Tries(outcome, s1.rows), Elements(items), s2)
    ensures s2.nextId == s.nextId && Budget(c, s2.rows, s.nextId) < Budget(c, s.rows, s.nextId)
    ensures Fates(c, outcome, s, s2)
  {
    assert s2.nextId == s.nextId;
    ClaimsItems(c, s, items);
    hide *;
    RoundItems(c, s, Elements(items), outcome, s2);
    SlotsApart(c, s, items[0]);
    LighterBudget(c, s.rows, s2.rows, Elements(items), items[0], s.nextId);
  }

  // ---- and no other process's statement ever raises the budget ----

  /** Rows only leave, or keep or raise their attempts. */
  ghost predicate Spent(rows: map<Id, Row>, rows': map<Id, Row>) {
    forall id :: id in rows' ==> id in rows && rows[id].attempts <= rows'[id].attempts
  }

  lemma TakeSpends(c: Config, s: State, t: Token)
    requires t in s.picks
    ensures Spent(s.rows, ApplyTake(c, s, t).rows) && ApplyTake(c, s, t).nextId == s.nextId
  {
    hide Taken, Copies;
  }

  lemma HeartbeatSpends(c: Config, s: State, ts: set<Token>)
    ensures Spent(s.rows, ApplyHeartbeat(c, s, ts).rows) && ApplyHeartbeat(c, s, ts).nextId == s.nextId
  {
  }

  lemma BuriedSpends(s: State, t: Token, id: Id, why: Reason)
    ensures Spent(s.rows, DeadLetter(s, t, id, why).rows) && DeadLetter(s, t, id, why).nextId == s.nextId
  {
  }

  lemma FailSpends(c: Config, s: State, t: Token, id: Id, att: nat)
    ensures Spent(s.rows, ApplyFail(c, s, t, id, att).rows) && ApplyFail(c, s, t, id, att).nextId == s.nextId
  {
    BuriedSpends(s, t, id, Failed);
    hide DeadLetter, Backoff;
  }

  lemma StepSpends(c: Config, s: State, e: Step)
    requires Enabled(c, s, e) && !e.Enqueue?
    ensures Spent(s.rows, Apply(c, s, e).rows) && Apply(c, s, e).nextId == s.nextId
  {
    if e.Take? { TakeSpends(c, s, e.token); }
    if e.Heartbeat? { HeartbeatSpends(c, s, e.tokens); }
    if e.Fail? { FailSpends(c, s, e.token, e.id, s.held[e.token][e.id]); }
    if e.Reject? { BuriedSpends(s, e.token, e.id, Rejected); }
    if e.Exhaust? { BuriedSpends(s, e.token, e.id, Exhausted); }
    hide Head, ApplyTake, ApplyHeartbeat, DeadLetter, ApplyFail, Leave, Unlock, Mine, LockAll;
  }

  lemma SpentBudget(c: Config, rows: map<Id, Row>, rows': map<Id, Row>, n: Id)
    requires Spent(rows, rows')
    ensures Budget(c, rows', n) <= Budget(c, rows, n)
    ensures (exists j :: 0 <= j < n && j in rows && rows[j].attempts <= c.maxAttempts && (j in rows' ==> rows[j].attempts < rows'[j].attempts))
            ==> Budget(c, rows', n) < Budget(c, rows, n)
  {
    forall j | 0 <= j < n && j in rows'
      ensures j in rows && Weight(c, rows'[j]) <= Weight(c, rows[j])
    {
    }
    BudgetLower(c, rows, rows', n);
    if j :| 0 <= j < n && j in rows && rows[j].attempts <= c.maxAttempts && (j in rows' ==> rows[j].attempts < rows'[j].attempts) {
      assert j in rows' ==> Weight(c, rows'[j]) < Weight(c, rows[j]);
    }
  }

  /** In every interleaving no statement of anybody but a producer raises the budget, and each claim that gets an item with
    * attempts left lowers it. */
  lemma BudgetNeverRises(c: Config, s: State, e: Step)
    requires Core(c, s) && Enabled(c, s, e) && !e.Enqueue?
    ensures var s' := Apply(c, s, e);
      && Budget(c, s'.rows, s'.nextId) <= Budget(c, s.rows, s.nextId)
      && ((e.Take? && exists id :: id in Taken(s, e.token) && s.rows[id].attempts <= c.maxAttempts) ==>
          Budget(c, s'.rows, s'.nextId) < Budget(c, s.rows, s.nextId))
  {
    StepSpends(c, s, e);
    SpentBudget(c, s.rows, Apply(c, s, e).rows, s.nextId);
    if e.Take? {
      if id :| id in Taken(s, e.token) && s.rows[id].attempts <= c.maxAttempts {
        SlotsApart(c, s, id);
        hide Core, Weight, Budget, Spent;
        assert id in Apply(c, s, e).rows && Apply(c, s, e).rows[id].attempts == s.rows[id].attempts + 1;
      }
    }
  }

  // ---- the loop ----

  ghost predicate NothingDue(s: State) { forall id: Id :: !Due(s, id) }

  lemma NoHeads(s: State, items: seq<Id>, limit: nat)
    requires OldestClaimable(s, items, limit) && limit > 0 && items == [] && s.locks == map[]
    ensures NothingDue(s)
  {
    forall id: Id ensures !Due(s, id) { assert Claimable(s, id) <==> Due(s, id); }
  }

  lemma NoGroups(s: State, heads: seq<Id>, scan: nat, picks: seq<Id>)
    requires OldestDue(s, heads, scan) && scan > 0 && s.locks == map[]
    requires (heads != [] ==> picks != []) && Free(picks, s.locks) == []
    ensures NothingDue(s)
  {
    FreeElements(picks, s.locks);
    assert Unlocked(Elements(picks), s.locks) == Elements(picks);
    NoElements(picks);
    NoElements(Free(picks, s.locks));
  }

  lemma NoElements(s: seq<Id>)
    ensures Elements(s) == {} <==> s == []
  {
    if s != [] { assert s[0] in Elements(s); }
  }

  lemma IncreasingDistinct(s: seq<Id>)
    requires Increasing(s)
    ensures Distinct(s)
  {
  }

  /** The claim of a lane: by heads, or by feeder groups. */
  method ClaimSome(q: IntakeTable, main: bool, limit: nat, scan: nat, groupMax: nat, feeder: Id -> nat)
    returns (t: Token, items: seq<Id>, ghost claim: seq<Step>)
    requires Core(q.c, q.State()) && limit > 0 && scan > 0 && groupMax > 0
    modifies q
    ensures t == old(q.nextToken) && Distinct(items) && AllClaimable(old(q.State()), items)
    ensures q.State() == AfterClaims(q.c, old(q.State()), Elements(items))
    ensures Valid(q.c, old(q.State()), claim) && Exec(q.c, old(q.State()), claim) == q.State()
    ensures items == [] && old(q.locks) == map[] ==> NothingDue(old(q.State()))
  {
    ghost var s0 := q.State();
    hide Core, Valid, Exec, AfterClaims, Elements, AllClaimable, NothingDue, Distinct, Increasing;
    if main {
      var picks;
      t, picks, items := q.ClaimGroups(limit, scan, groupMax, feeder);
      claim := [Pick(Elements(picks)), Take(t)];
      ghost var heads :| OldestDue(s0, heads, scan) && (heads != [] && groupMax > 0 && limit > 0 ==> picks != []);
      if items == [] && s0.locks == map[] { NoGroups(s0, heads, scan, picks); }
    } else {
      t, items := q.ClaimHeads(limit);
      claim := [Pick(Elements(items)), Take(t)];
      assert Increasing(items) && AllClaimable(s0, items);
      IncreasingDistinct(items);
      if items == [] && s0.locks == map[] { NoHeads(s0, items, limit); }
    }
  }

  /** One turn: claim, deal with what was claimed, let the claim go. */
  method Turn(q: IntakeTable, main: bool, limit: nat, scan: nat, groupMax: nat, feeder: Id -> nat,
              group: Id -> Option<nat>, batchFails: nat -> bool, outcome: Outcome)
    returns (claimed: bool, ghost es: seq<Step>)
    requires Core(q.c, q.State()) && limit > 0 && scan > 0 && groupMax > 0
    requires forall id, n :: !outcome(id, n).Crashes?
    modifies q
    ensures Worked(q.c, outcome, old(q.State()), es, q.State())
    ensures claimed ==> Lower(q.c, old(q.State()), q.State())
    ensures !claimed ==> q.rows == old(q.rows)
    ensures !claimed && old(q.locks) == map[] ==> NothingDue(old(q.State()))
  {
    ghost var s0 := q.State();
    var t, items;
    ghost var claim;
    t, items, claim := ClaimSome(q, main, limit, scan, groupMax, feeder);
    claimed := items != [];
    hide Core, AllClaimable, Valid, Exec, Elements, Distinct, NothingDue, AfterClaims, Worked, Lower;
    if claimed {
      es := Work(q, s0, claim, t, items, outcome, group, batchFails);
    } else {
      es := claim;
      Idles(q.c, s0, items, claim, q.State(), outcome);
    }
  }

  /** What a turn achieves: allowed steps, the queue's invariant, and every item gone the way it must. */
  ghost predicate Worked(c: Config, outcome: Outcome, s: State, es: seq<Step>, s': State) {
    Valid(c, s, es) && Exec(c, s, es) == s' && Core(c, s') && SameFrame(s, s') && Fates(c, outcome, s, s')
  }

  ghost predicate Lower(c: Config, s: State, s': State) { Budget(c, s'.rows, s'.nextId) < Budget(c, s.rows, s.nextId) }

  lemma Finished(c: Config, s0: State, claim: seq<Step>, items: seq<Id>, work: seq<Step>, s2: State, t: Token, outcome: Outcome)
    returns (es: seq<Step>)
    requires Claims(c, s0, items) && (forall id, n :: !outcome(id, n).Crashes?) && t == s0.nextToken
    requires Valid(c, s0, claim) && Exec(c, s0, claim) == AfterClaims(c, s0, Elements(items))
    requires var s1 := AfterClaims(c, s0, Elements(items)); Did(c, s1, work, t, Tries(outcome, s1.rows), Elements(items), s2)
    ensures Worked(c, outcome, s0, es, s2.(held := s2.held - {t})) && Lower(c, s0, s2.(held := s2.held - {t}))
  {
    hide Core, Claims, Valid, Exec, Fates, Budget, Ready, Elements, AfterClaims, Did, SameFrame, Tries;
    AfterWork(c, s0, items, work, s2, t, outcome);
    es := LetGo(c, s0, claim, AfterClaims(c, s0, Elements(items)), work, s2, t);
    SameWithoutClaim(s0, s2, t);
  }

  lemma ClaimStarts(c: Config, s: State, items: seq<Id>)
    requires Claims(c, s, items)
    ensures var s1 := AfterClaims(c, s, Elements(items)); Ready(c, s1, s.nextToken) && Held(s1, s.nextToken, Elements(items))
    ensures Distinct(items)
  {
    ClaimReady(c, s, items);
    hide Core, AllClaimable, Ready, Held, AfterClaims;
  }

  lemma NoneCrash(outcome: Outcome, rows: map<Id, Row>)
    requires forall id, n :: !outcome(id, n).Crashes?
    ensures forall id :: !Tries(outcome, rows)(id).Crashes?
  {
  }

  /** The items of a claim are dealt with, and the claim is let go. */
  method Work(q: IntakeTable, ghost s0: State, ghost claim: seq<Step>, t: Token, items: seq<Id>,
              outcome: Outcome, group: Id -> Option<nat>, batchFails: nat -> bool)
    returns (ghost es: seq<Step>)
    requires Claims(q.c, s0, items) && t == s0.nextToken && q.State() == AfterClaims(q.c, s0, Elements(items))
    requires Valid(q.c, s0, claim) && Exec(q.c, s0, claim) == q.State() && (forall id, n :: !outcome(id, n).Crashes?)
    modifies q
    ensures Worked(q.c, outcome, s0, es, q.State()) && Lower(q.c, s0, q.State())
  {
    hide Core, Claims, Valid, Exec, Ready, Held, Elements, Distinct, AfterClaims, Did, Worked, Lower, Tries;
    NoneCrash(outcome, q.rows);
    ClaimStarts(q.c, s0, items);
    ghost var work := q.ProcessClaimed(t, items, Tries(outcome, q.rows), group, batchFails);
    es := Finished(q.c, s0, claim, items, work, q.State(), t, outcome);
    q.held := q.held - {t};
  }

  lemma SameWithoutClaim(s: State, s': State, t: Token)
    requires SameFrame(s, s')
    ensures SameFrame(s, s'.(held := s'.held - {t}))
  {
  }

  /** Nothing but rows, their ends and the worker's memory has changed. */
  predicate SameFrame(s: State, s': State) {
    s'.nextId == s.nextId && s'.now == s.now && s'.locks == s.locks && s'.open == s.open
  }

  lemma LetGoSlots(c: Config, outcome: Outcome, s0: State, s2: State, t: Token)
    requires Fates(c, outcome, s0, s2)
    ensures Fates(c, outcome, s0, s2.(held := s2.held - {t}))
  {
    assert forall id: Id :: At(s2.(held := s2.held - {t}), id) == At(s2, id);
    hide Fate;
  }

  lemma DidIt(c: Config, s: State, es: seq<Step>, t: Token, verdict: Id -> Verdict, done: set<Id>, s': State)
    requires Did(c, s, es, t, verdict, done, s')
    ensures Valid(c, s, es) && Exec(c, s, es) == s' && DealtWith(c, s, t, verdict, done, s')
  {
  }

  lemma WorkFrame(c: Config, s: State, ids: set<Id>, t: Token, verdict: Id -> Verdict, s': State)
    requires DealtWith(c, AfterClaims(c, s, ids), t, verdict, ids, s')
    ensures SameFrame(s, s')
  {
    hide Dealt, At;
  }

  lemma AfterWork(c: Config, s0: State, items: seq<Id>, work: seq<Step>, s2: State, t: Token, outcome: Outcome)
    requires Claims(c, s0, items) && (forall id, n :: !outcome(id, n).Crashes?) && t == s0.nextToken
    requires var s1 := AfterClaims(c, s0, Elements(items)); Did(c, s1, work, t, Tries(outcome, s1.rows), Elements(items), s2)
    ensures var s1 := AfterClaims(c, s0, Elements(items)); Ready(c, s2, t) && Valid(c, s1, work) && Exec(c, s1, work) == s2
    ensures Budget(c, s2.rows, s2.nextId) < Budget(c, s0.rows, s0.nextId)
    ensures Fates(c, outcome, s0, s2.(held := s2.held - {t})) && SameFrame(s0, s2)
  {
    var s1 := AfterClaims(c, s0, Elements(items));
    ClaimReady(c, s0, items);
    var verdict := Tries(outcome, s1.rows);
    DidKeeps(c, s1, work, t, verdict, Elements(items), s2, Elements(items));
    hide Did, Ready, Held, AfterClaims, Elements, Claims, DealtWith, Fates, Valid, Exec, Budget, SameFrame, Tries;
    DidIt(c, s1, work, t, verdict, Elements(items), s2);
    RoundLowersBudget(c, s0, items, outcome, s2);
    WorkFrame(c, s0, Elements(items), t, verdict, s2);
    LetGoSlots(c, outcome, s0, s2, t);
  }

  lemma Idles(c: Config, s: State, items: seq<Id>, claim: seq<Step>, s1: State, outcome: Outcome)
    requires Core(c, s) && items == [] && s1 == AfterClaims(c, s, Elements(items))
    requires Valid(c, s, claim) && Exec(c, s, claim) == s1
    ensures Worked(c, outcome, s, claim, s1) && s1.rows == s.rows
  {
    KeepCores(c, s, claim);
    hide Core, Valid, Exec;
    Nobody(c, s, items);
    hide AfterClaims;
  }

  lemma Nobody(c: Config, s: State, items: seq<Id>)
    requires items == []
    ensures AfterClaims(c, s, Elements(items)) == s.(nextToken := s.nextToken + 1)
  {
    assert Elements(items) == {};
    assert TakeRows(s.rows, {}, s.nextToken, s.now + c.leaseMs) == s.rows;
  }

  lemma LetGo(c: Config, s0: State, claim: seq<Step>, s1: State, work: seq<Step>, s2: State, t: Token) returns (es: seq<Step>)
    requires Valid(c, s0, claim) && Exec(c, s0, claim) == s1 && Valid(c, s1, work) && Exec(c, s1, work) == s2
    requires Ready(c, s2, t)
    ensures Valid(c, s0, es) && Exec(c, s0, es) == s2.(held := s2.held - {t}) && Core(c, s2.(held := s2.held - {t}))
  {
    assert Enabled(c, s2, Drop(t)) && Apply(c, s2, Drop(t)) == s2.(held := s2.held - {t});
    assert Core(c, s2);
    hide Core, Ready, Enabled, Apply;
    Join(c, s0, claim, work);
    Then(c, s0, claim + work, Drop(t));
    KeepCore(c, s2, Drop(t));
    es := claim + work + [Drop(t)];
  }
  // ---- the loop ----

  /** What the loop has achieved so far: as a turn does, but time may have passed. */
  ghost predicate Drained(c: Config, outcome: Outcome, s: State, es: seq<Step>, s': State) {
    Valid(c, s, es) && Exec(c, s, es) == s' && Core(c, s') && s'.locks == s.locks && s'.nextId == s.nextId && Fates(c, outcome, s, s')
  }

  lemma FatesNone(c: Config, outcome: Outcome, s: State, s': State)
    requires s'.rows == s.rows && s'.gone == s.gone
    ensures Fates(c, outcome, s, s')
  {
    forall id: Id ensures At(s', id) == At(s, id) {}
    hide At, EndsAs, Eventually;
  }

  lemma SlotsOf(c: Config, s: State)
    requires Core(c, s)
    ensures forall id: Id :: At(s, id).row.None? || At(s, id).end.None?
  {
    forall id: Id ensures At(s, id).row.None? || At(s, id).end.None? { SlotsApart(c, s, id); }
  }

  lemma DrainedThen(c: Config, outcome: Outcome, s: State, es: seq<Step>, s1: State, fs: seq<Step>, s2: State)
    requires Core(c, s) && Drained(c, outcome, s, es, s1) && Drained(c, outcome, s1, fs, s2)
    ensures Drained(c, outcome, s, es + fs, s2)
  {
    Join(c, s, es, fs);
    SlotsOf(c, s);
    SlotsOf(c, s1);
    hide Core, Valid, Exec, Fates, At;
    FatesThen(c, outcome, s, s1, s2);
  }

  lemma WorkedDrains(c: Config, outcome: Outcome, s: State, es: seq<Step>, s': State)
    requires Worked(c, outcome, s, es, s')
    ensures Drained(c, outcome, s, es, s')
  {
    hide Core, Valid, Exec, Fates;
  }

  lemma NapDrains(c: Config, outcome: Outcome, s: State, ms: nat)
    requires Core(c, s)
    ensures Drained(c, outcome, s, [Tick(ms)], s.(now := s.now + ms))
  {
    One(c, s, Tick(ms));
    KeepCore(c, s, Tick(ms));
    FatesNone(c, outcome, s, s.(now := s.now + ms));
    hide Core, Fates, Valid, Exec;
  }

  lemma NothingYet(c: Config, outcome: Outcome, s: State)
    requires Core(c, s)
    ensures Drained(c, outcome, s, [], s)
  {
    Nothing(c, s);
    FatesNone(c, outcome, s, s);
    hide Core, Fates, Valid, Exec;
  }

  /** How long until the oldest row is due. */
  ghost function OldestWait(rows: map<Id, Row>, now: nat, i: Id, n: Id): nat
    decreases if i < n then n - i else 0
  {
    if i >= n then 0
    else if i in rows then if rows[i].availableAt > now then rows[i].availableAt - now else 0
    else OldestWait(rows, now, i + 1, n)
  }

  lemma {:induction false} NapShortens(s: State, i: Id, ms: nat)
    requires NothingDue(s) && ms > 0 && (forall j :: j in s.rows ==> i <= j < s.nextId) && s.rows != map[]
    ensures OldestWait(s.rows, s.now + ms, i, s.nextId) < OldestWait(s.rows, s.now, i, s.nextId)
    decreases if i < s.nextId then s.nextId - i else 0
  {
    var any :| any in s.rows;
    assert i < s.nextId;
    if i in s.rows {
      assert Head(s.rows, i);
      assert !Due(s, i);
    } else {
      forall j | j in s.rows ensures i + 1 <= j { assert j != i; }
      NapShortens(s, i + 1, ms);
    }
  }

  lemma NapIsShorter(c: Config, s: State, s1: State, ms: nat)
    requires Core(c, s) && NothingDue(s) && s.rows != map[] && ms > 0
    requires s1.rows == s.rows && s1.nextId == s.nextId && s1.now == s.now + ms
    ensures Budget(c, s1.rows, s1.nextId) == Budget(c, s.rows, s.nextId)
    ensures OldestWait(s1.rows, s1.now, 0, s1.nextId) < OldestWait(s.rows, s.now, 0, s.nextId)
  {
    forall j | j in s.rows ensures 0 <= j < s.nextId { SlotsApart(c, s, j); }
    hide Core;
    NapShortens(s, 0, ms);
  }

  lemma TurnFrame(c: Config, outcome: Outcome, s: State, es: seq<Step>, s': State)
    requires Worked(c, outcome, s, es, s')
    ensures Core(c, s') && SameFrame(s, s')
  {
  }

  lemma NapCore(c: Config, outcome: Outcome, s: State, es: seq<Step>, s': State)
    requires Drained(c, outcome, s, es, s')
    ensures Core(c, s')
  {
  }

  /** A turn on top of what the loop has achieved so far. */
  lemma AfterTurn(c: Config, outcome: Outcome, s0: State, es: seq<Step>, s1: State, fs: seq<Step>, s2: State)
    requires Core(c, s0) && Drained(c, outcome, s0, es, s1) && Worked(c, outcome, s1, fs, s2)
    ensures Drained(c, outcome, s0, es + fs, s2) && Core(c, s2) && SameFrame(s1, s2)
  {
    hide *;
    WorkedDrains(c, outcome, s1, fs, s2);
    TurnFrame(c, outcome, s1, fs, s2);
    DrainedThen(c, outcome, s0, es, s1, fs, s2);
  }

  /** A nap after a claim that found nothing. */
  lemma AfterNap(c: Config, outcome: Outcome, s0: State, es: seq<Step>, s1: State, s2: State, ms: nat)
    requires Core(c, s0) && Drained(c, outcome, s0, es, s2) && Core(c, s1) && Core(c, s2) && SameFrame(s1, s2)
    requires s2.rows == s1.rows && s1.rows != map[] && NothingDue(s1) && ms > 0
    ensures var s3 := s2.(now := s2.now + ms);
      && Drained(c, outcome, s0, es + [Tick(ms)], s3) && Core(c, s3)
      && Budget(c, s3.rows, s3.nextId) == Budget(c, s1.rows, s1.nextId)
      && OldestWait(s3.rows, s3.now, 0, s3.nextId) < OldestWait(s1.rows, s1.now, 0, s1.nextId)
  {
    var s3 := s2.(now := s2.now + ms);
    assert s2.now == s1.now && s2.nextId == s1.nextId;
    hide *;
    NapDrains(c, outcome, s2, ms);
    DrainedThen(c, outcome, s0, es, s2, [Tick(ms)], s3);
    NapIsShorter(c, s1, s3, ms);
    NapCore(c, outcome, s2, [Tick(ms)], s3);
  }

  /** The budget is lower, or it is the same and the oldest row is due sooner. */
  ghost predicate Nearer(c: Config, s: State, s': State) {
    var a, b := Budget(c, s.rows, s.nextId), Budget(c, s'.rows, s'.nextId);
    b < a || (b == a && OldestWait(s'.rows, s'.now, 0, s'.nextId) < OldestWait(s.rows, s.now, 0, s.nextId))
  }

  /** The body of the loop: a turn, and a nap if it claimed nothing. */
  method Pass(q: IntakeTable, main: bool, limit: nat, scan: nat, groupMax: nat, feeder: Id -> nat,
              group: Id -> Option<nat>, batchFails: nat -> bool, outcome: Outcome, pollMs: nat, ghost s0: State, ghost es0: seq<Step>)
    returns (ghost es: seq<Step>)
    requires Core(q.c, s0) && Drained(q.c, outcome, s0, es0, q.State()) && Core(q.c, q.State()) && q.locks == map[] && q.rows != map[]
    requires limit > 0 && scan > 0 && groupMax > 0 && pollMs > 0 && forall id, n :: !outcome(id, n).Crashes?
    modifies q
    ensures Drained(q.c, outcome, s0, es, q.State()) && Core(q.c, q.State()) && q.locks == map[]
    ensures Nearer(q.c, old(q.State()), q.State())
  {
    hide Core, Drained, Worked, Budget, OldestWait, NothingDue, Fates, Valid, Exec;
    ghost var c, s1 := q.c, q.State();
    var claimed;
    claimed, es := Turn(q, main, limit, scan, groupMax, feeder, group, batchFails, outcome);
    ghost var s2 := q.State();
    AfterTurn(c, outcome, s0, es0, s1, es, s2);
    es := es0 + es;
    if !claimed {
      q.now := q.now + pollMs;
      AfterNap(c, outcome, s0, es, s1, s2, pollMs);
      es := es + [Tick(pollMs)];
    }
  }

  /** The loop of one live worker, once every other transaction has ended: it empties the queue, whichever heads and groups
    * its claims take, whichever groups fail at whichever turn, and however long items back off or other workers' leases run; an
    * item that had used up its attempts is buried unrun, and every other ends as the first of its remaining attempts that does
    * not fail decides. All it does is steps of the machine. */
  method Loop(q: IntakeTable, main: bool, limit: nat, scan: nat, groupMax: nat, feeder: Id -> nat,
              group: Id -> Option<nat>, batchFails: (nat, nat) -> bool, outcome: Outcome, pollMs: nat)
    returns (ghost es: seq<Step>)
    requires Core(q.c, q.State()) && q.locks == map[]
    requires limit > 0 && scan > 0 && groupMax > 0 && pollMs > 0 && forall id, n :: !outcome(id, n).Crashes?
    modifies q
    ensures q.rows == map[] && Drained(q.c, outcome, old(q.State()), es, q.State())
  {
    ghost var s0 := q.State();
    es := [];
    var turn: nat := 0;
    NothingYet(q.c, outcome, s0);
    hide Core, Drained, Budget, OldestWait;
    while q.rows != map[]
      invariant Drained(q.c, outcome, s0, es, q.State()) && Core(q.c, q.State()) && q.locks == map[]
      decreases Budget(q.c, q.rows, q.nextId), OldestWait(q.rows, q.now, 0, q.nextId)
    {
      es := Pass(q, main, limit, scan, groupMax, feeder, group, (k: nat) => batchFails(turn, k), outcome, pollMs, s0, es);
      turn := turn + 1;
    }
  }

  /** The item's attempts from the one after `attempts` to `n` all fail. */
  ghost predicate FailsUpTo(outcome: Outcome, id: Id, attempts: nat, n: nat) {
    forall m :: attempts < m <= n ==> outcome(id, m).Fails?
  }

  /** Without the recursion: the attempt that decides, or that there is none. */
  lemma {:induction false} EventuallyIs(c: Config, outcome: Outcome, id: Id, attempts: nat)
    requires attempts < c.maxAttempts && forall n :: !outcome(id, n).Crashes?
    ensures var v := Eventually(c, outcome, id, attempts);
      && (v.Fails? <==> FailsUpTo(outcome, id, attempts, c.maxAttempts))
      && (!v.Fails? ==> exists n :: attempts < n <= c.maxAttempts && v == outcome(id, n) && FailsUpTo(outcome, id, attempts, n - 1))
    decreases c.maxAttempts - attempts
  {
    var next := outcome(id, attempts + 1);
    if !next.Fails? {
      assert FailsUpTo(outcome, id, attempts, attempts);
    } else if attempts + 1 < c.maxAttempts {
      EventuallyIs(c, outcome, id, attempts + 1);
      var v := Eventually(c, outcome, id, attempts);
      if !v.Fails? {
        var n :| attempts + 1 < n <= c.maxAttempts && v == outcome(id, n) && FailsUpTo(outcome, id, attempts + 1, n - 1);
        assert FailsUpTo(outcome, id, attempts, n - 1);
      }
    }
  }

  /** So whatever the queue went through before, once its last item has left each of them ended as it must: none is lost. An
    * item with attempts left was run or refused under the first of them that did not fail, and has failed only if all of them
    * failed. */
  lemma EveryItemEnded(c: Config, outcome: Outcome, s: State, es: seq<Step>, s': State, id: Id)
    requires Drained(c, outcome, s, es, s') && s'.rows == map[] && id in s.rows && forall n :: !outcome(id, n).Crashes?
    ensures id in s'.gone
    ensures var a, how := s.rows[id].attempts, s'.gone[id].how;
      if a >= c.maxAttempts then how == Dead(Exhausted)
      else if FailsUpTo(outcome, id, a, c.maxAttempts) then how == Dead(Failed)
      else exists n :: a < n <= c.maxAttempts && FailsUpTo(outcome, id, a, n - 1) && !outcome(id, n).Fails? && EndsAs(outcome(id, n), how)
  {
    assert Fate(c, outcome, id, At(s, id), At(s', id));
    var a := s.rows[id].attempts;
    if a < c.maxAttempts { EventuallyIs(c, outcome, id, a); }
  }
}
