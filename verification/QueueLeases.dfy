/** What a claim, a failure and a heartbeat mean on the clock (backend/src/infra/intakeQueue.js): how long an item is out of
  * reach, and when it is back; and that what was claimed is what is run. */
module QueueLeases {
  import opened Common
  import opened IntakeQueue
  import opened Coalescing
  import opened QueueRuns
  import opened QueueDrain

  // ---- a claim is a lease ----

  /** The row as its claim leaves it. */
  lemma ClaimedRow(c: Config, s: State, t: Token, id: Id)
    requires t in s.picks && id in Taken(s, t)
    ensures var r, r' := s.rows[id], Apply(c, s, Take(t)).rows[id];
      r' == Row(r.key, r.coalesceKey, r.payload, r.absorbed, r.attempts + 1, s.now + c.leaseMs, Some(t))
  {
  }

  /** A claim keeps an item out of other workers' reach for a whole lease, whatever they do, unless its own claim gives it up. */
  lemma ClaimKeepsOthersOut(c: Config, s: State, t: Token, id: Id, es: seq<Step>)
    requires Core(c, s) && t in s.picks && id in Taken(s, t)
    requires Valid(c, Apply(c, s, Take(t)), es) && Exec(c, Apply(c, s, Take(t)), es).now < s.now + c.leaseMs
    requires forall e :: e in es ==> !GivesUp(e, Some(t))
    ensures Claims(c, Apply(c, s, Take(t)), es, id) == 0
  {
    var s1, until := Apply(c, s, Take(t)), s.now + c.leaseMs;
    ClaimedRow(c, s, t, id);
    assert id < s.nextId && s1.nextId == s.nextId && s1.now == s.now;
    assert Guarded(s1, id, Some(t), until);
    hide Core, Enabled, Apply, Guarded;
    NotClaimedBefore(c, s1, es, id, Some(t), until);
  }

  /** Two claims at one moment never get the same item. */
  lemma ClaimsAreApart(c: Config, s: State, t: Token, u: Token, id: Id)
    requires t in s.picks && u in s.picks && t != u && id in Taken(s, t) && c.leaseMs > 0
    ensures var s1 := Apply(c, s, Take(t)); u in s1.picks && id !in Taken(s1, u)
  {
    ClaimedRow(c, s, t, id);
  }

  /** The claim, then its process dies, then so much time goes by. */
  function Abandoned(t: Token, ms: nat): seq<Step> { [Take(t), Kill({t})] + [Tick(ms)] }

  lemma AbandonedRun(c: Config, s: State, t: Token, ms: nat)
    requires t in s.picks
    ensures Valid(c, s, Abandoned(t, ms))
    ensures var s1, s' := Apply(c, s, Take(t)), Exec(c, s, Abandoned(t, ms));
      s'.rows == s1.rows && s'.now == s.now + ms && forall id :: id in s'.locks ==> id in s.locks
  {
    var s1 := Apply(c, s, Take(t));
    assert Enabled(c, s, Take(t)) && Enabled(c, s1, Kill({t}));
    var s2 := Apply(c, s1, Kill({t}));
    assert s2.rows == s1.rows && s2.now == s.now && forall id :: id in s2.locks ==> id in s.locks;
    assert Enabled(c, s2, Tick(ms)) && Apply(c, s2, Tick(ms)) == s2.(now := s2.now + ms);
    hide Enabled, Apply;
    Two(c, s, Take(t), Kill({t}), s1);
    Then(c, s, [Take(t), Kill({t})], Tick(ms));
  }

  /** Its rows are heads still: a claim changes neither keys nor ids. */
  lemma HeadsStay(c: Config, s: State, t: Token, id: Id)
    requires Core(c, s) && t in s.picks && id in Taken(s, t)
    ensures id in Apply(c, s, Take(t)).rows && Head(Apply(c, s, Take(t)).rows, id)
  {
    assert StillHeads(s.rows, s.picks[t], s.nextId);
    hide Possession, AllEndedWell, Accounted, RunsInOrder, OldestFirst;
  }

  /** When its worker dies, an item is claimable again exactly from one lease after the claim. */
  lemma AbandonedIsBackExactly(c: Config, s: State, t: Token, id: Id, ms: nat)
    requires Core(c, s) && t in s.picks && id in Taken(s, t)
    ensures Valid(c, s, Abandoned(t, ms)) && (Claimable(Exec(c, s, Abandoned(t, ms)), id) <==> ms >= c.leaseMs)
  {
    AbandonedRun(c, s, t, ms);
    ClaimedRow(c, s, t, id);
    HeadsStay(c, s, t, id);
    assert id !in s.locks;
    hide Core, Exec, Valid, Head, Apply, Enabled;
  }

  // ---- a failure waits ----

  lemma FailedRow(c: Config, s: State, t: Token, id: Id)
    requires Core(c, s) && Idle(s, t, id) && MineNow(s, t, id) && s.rows[id].attempts < c.maxAttempts
    ensures Head(s.rows, id) && s.rows[id].attempts >= 1 && Enabled(c, s, Fail(t, id))
    ensures var wait := Min(c.backoffMaxMs, c.backoffBaseMs * Pow2(s.rows[id].attempts - 1));
      Apply(c, s, Fail(t, id)) == s.(rows := s.rows[id := s.rows[id].(availableAt := s.now + wait, claimedBy := None)])
  {
    assert CountedFor(s.rows, t, s.held[t]) && s.held[t][id] == s.rows[id].attempts >= 1;
    assert Head(s.rows, id);
    hide Core, Pow2, Head;
  }

  lemma WaitedFor(c: Config, s: State, id: Id, until: nat, ms: nat)
    requires id in s.rows && Head(s.rows, id) && id !in s.locks
    ensures var s' := s.(rows := s.rows[id := s.rows[id].(availableAt := until, claimedBy := None)], now := s.now + ms);
      Claimable(s', id) <==> s.now + ms >= until
  {
  }

  /** After a failed attempt an item is claimable again exactly from its back-off on: the base time, doubled for each attempt
    * after the first, up to the longest. */
  lemma FailedIsBackExactly(c: Config, s: State, t: Token, id: Id, ms: nat)
    requires Core(c, s) && Idle(s, t, id) && MineNow(s, t, id) && s.rows[id].attempts < c.maxAttempts
    ensures Valid(c, s, [Fail(t, id), Tick(ms)]) && s.rows[id].attempts >= 1
    ensures Claimable(Exec(c, s, [Fail(t, id), Tick(ms)]), id) <==>
            ms >= Min(c.backoffMaxMs, c.backoffBaseMs * Pow2(s.rows[id].attempts - 1))
  {
    FailedRow(c, s, t, id);
    var wait := Min(c.backoffMaxMs, c.backoffBaseMs * Pow2(s.rows[id].attempts - 1));
    var s1 := s.(rows := s.rows[id := s.rows[id].(availableAt := s.now + wait, claimedBy := None)]);
    assert Enabled(c, s1, Tick(ms)) && Apply(c, s1, Tick(ms)) == s1.(now := s1.now + ms);
    WaitedFor(c, s, id, s.now + wait, ms);
    hide Core, Enabled, Apply, Valid, Exec, Claimable, Head, Pow2;
    Two(c, s, Fail(t, id), Tick(ms), s1);
  }

  // ---- a heartbeat renews its own ----

  /** A heartbeat moves the lease of exactly the rows its claims still carry, unless they are locked just then, to one lease
    * from now. */
  lemma HeartbeatRenewsExactly(c: Config, s: State, ts: set<Token>, id: Id)
    requires ts <= s.held.Keys && id in s.rows
    ensures var r, r' := s.rows[id], Apply(c, s, Heartbeat(ts)).rows[id];
      && r' == r.(availableAt := r'.availableAt)
      && (id !in s.locks && (exists t :: t in ts && r.claimedBy == Some(t)) ==> r'.availableAt == s.now + c.leaseMs)
      && (id in s.locks || (forall t :: t in ts ==> r.claimedBy != Some(t)) ==> r'.availableAt == r.availableAt)
  {
  }

  /** Claim t has no process any more; if id still carries it, its lease ends at `until`. */
  ghost predicate Orphan(s: State, t: Token, id: Id, until: nat) {
    t < s.nextToken && t !in s.picks && t !in s.held && id < s.nextId && (MineNow(s, t, id) ==> s.rows[id].availableAt == until)
  }

  lemma OrphanClaiming(c: Config, s: State, e: Step, t: Token, id: Id, until: nat)
    requires Enabled(c, s, e) && Claiming(e) && Orphan(s, t, id, until) && s.nextId !in s.rows
    ensures Orphan(Apply(c, s, e), t, id, until)
  {
    hide Head;
  }

  lemma OrphanClosing(c: Config, s: State, e: Step, t: Token, id: Id, until: nat)
    requires Enabled(c, s, e) && Closing(e) && Orphan(s, t, id, until)
    ensures Orphan(Apply(c, s, e), t, id, until)
  {
    hide Unlock, Mine, Leave, LockAll, IndexOf, Distinct;
  }

  lemma OrphanGivingUp(c: Config, s: State, e: Step, t: Token, id: Id, until: nat)
    requires Enabled(c, s, e) && GivingUp(e) && Orphan(s, t, id, until)
    ensures Orphan(Apply(c, s, e), t, id, until)
  {
    assert e.token != t;
    hide Enabled, Apply, MineNow;
    GivingUpEffect(c, s, e);
    StillOrphan(s, e.id, Apply(c, s, e), t, id, until);
  }

  lemma StillOrphan(s: State, at: Id, s': State, t: Token, id: Id, until: nat)
    requires Orphan(s, t, id, until) && (s' == s || PutBack(s, at, s') || Buried(s, at, s'))
    ensures Orphan(s', t, id, until)
  {
  }

  lemma {:induction false} StaysOrphan(c: Config, s: State, es: seq<Step>, t: Token, id: Id, until: nat)
    requires Inv(c, s) && Valid(c, s, es) && Orphan(s, t, id, until)
    ensures Orphan(Exec(c, s, es), t, id, until) && Inv(c, Exec(c, s, es))
    decreases |es|
  {
    if es != [] {
      assert s.nextId !in s.rows;
      hide Inv, Enabled, Apply, Orphan, Claiming, Closing, GivingUp;
      KeepInv(c, s, es[0]);
      Families(es[0]);
      if Claiming(es[0]) {
        OrphanClaiming(c, s, es[0], t, id, until);
      } else if Closing(es[0]) {
        OrphanClosing(c, s, es[0], t, id, until);
      } else {
        OrphanGivingUp(c, s, es[0], t, id, until);
      }
      StaysOrphan(c, Apply(c, s, es[0]), es[1..], t, id, until);
    }
  }

  lemma Families(e: Step)
    ensures Claiming(e) || Closing(e) || GivingUp(e)
  {
  }

  /** Whatever the others do, nobody renews the lease of a dead worker: as long as its item is still there under its claim, it is
    * claimable exactly from the end of that lease, unless another worker's transaction has it locked just then. */
  lemma DeadWorkersItemsComeBack(c: Config, s: State, es: seq<Step>, t: Token, id: Id)
    requires Inv(c, s) && Valid(c, s, es) && MineNow(s, t, id) && t !in s.held && MineNow(Exec(c, s, es), t, id)
    ensures Claimable(Exec(c, s, es), id) <==> Exec(c, s, es).now >= s.rows[id].availableAt && id !in Exec(c, s, es).locks
  {
    assert TokenUsed(s.rows[id].claimedBy, s.nextToken, s.picks) && id < s.nextId;
    var s' := Exec(c, s, es);
    assert Orphan(s, t, id, s.rows[id].availableAt);
    hide Exec, Valid, Inv;
    StaysOrphan(c, s, es, t, id, s.rows[id].availableAt);
    OrphanHead(c, s', t, id);
  }

  lemma OrphanHead(c: Config, s: State, t: Token, id: Id)
    requires Inv(c, s) && MineNow(s, t, id)
    ensures Head(s.rows, id)
  {
    assert HeadsOnly(s.rows, s.picks, s.nextId);
    hide Inv;
  }

  // ---- what was claimed is what is run ----

  lemma ContentStep(c: Config, s: State, e: Step, id: Id)
    requires Inv(c, s) && Enabled(c, s, e) && (id in s.rows || id in s.gone) && Attempts(s, id) > 0
    ensures var s' := Apply(c, s, e);
      (id in s'.rows || id in s'.gone) && Attempts(s', id) > 0 && SameContent(Item(s.rows, s.gone, id), Item(s'.rows, s'.gone, id))
  {
    assert s.rows.Keys !! s.gone.Keys && s.nextId !in s.rows && s.nextId !in s.gone;
    AttemptsStep(c, s, e, id);
    if e.Enqueue? {
      hide Inv, Head;
    } else {
      hide Inv, Enabled, Apply, SameContent, Attempts;
      StepItems(c, s, e);
    }
  }

  /** From its first claim on nothing is added to an item: what it stands for when it leaves the queue is what the worker that
    * ran it read with its claim. */
  lemma {:induction false} ContentFixedOnceClaimed(c: Config, s: State, es: seq<Step>, id: Id)
    requires Inv(c, s) && Valid(c, s, es) && id in s.rows && s.rows[id].attempts > 0
    ensures var s' := Exec(c, s, es);
      (id in s'.rows || id in s'.gone) && SameContent(s.rows[id], Item(s'.rows, s'.gone, id))
  {
    assert id !in s.gone;
    hide Inv;
    ContentFixed(c, s, es, id);
  }

  lemma {:induction false} ContentFixed(c: Config, s: State, es: seq<Step>, id: Id)
    requires Inv(c, s) && Valid(c, s, es) && (id in s.rows || id in s.gone) && Attempts(s, id) > 0
    ensures var s' := Exec(c, s, es);
      (id in s'.rows || id in s'.gone) && SameContent(Item(s.rows, s.gone, id), Item(s'.rows, s'.gone, id))
    decreases |es|
  {
    if es != [] {
      ContentStep(c, s, es[0], id);
      KeepInv(c, s, es[0]);
      hide Inv, Enabled, Apply, Attempts, Item;
      ContentFixed(c, Apply(c, s, es[0]), es[1..], id);
    }
  }

  ghost predicate AllSingle(s: State) { forall id :: id in s.rows || id in s.gone ==> |Item(s.rows, s.gone, id).absorbed| == 1 }

  lemma SingleAdded(c: Config, s: State, ev: Event, into: Option<Id>)
    requires !c.coalesce && AllSingle(s) && Enabled(c, s, Enqueue(ev, into)) && s.nextId !in s.gone
    ensures AllSingle(Apply(c, s, Enqueue(ev, into)))
  {
  }

  lemma SingleMoved(s: State, s': State)
    requires AllSingle(s) && SameItems(s.rows, s.gone, s'.rows, s'.gone)
    ensures AllSingle(s')
  {
    hide Item;
    forall id | id in s'.rows || id in s'.gone ensures |Item(s'.rows, s'.gone, id).absorbed| == 1 {
      assert SameContent(Item(s.rows, s.gone, id), Item(s'.rows, s'.gone, id));
    }
  }

  /** With coalescing switched off every item stands for one event. */
  lemma {:induction false} OffMeansApart(c: Config, s: State, es: seq<Step>)
    requires !c.coalesce && Inv(c, s) && Valid(c, s, es) && AllSingle(s)
    ensures AllSingle(Exec(c, s, es))
    decreases |es|
  {
    if es != [] {
      var e, s1 := es[0], Apply(c, s, es[0]);
      assert s.rows.Keys !! s.gone.Keys && s.nextId !in s.gone;
      hide Inv, Enabled, Apply, AllSingle;
      KeepInv(c, s, e);
      if e.Enqueue? {
        SingleAdded(c, s, e.ev, e.into);
      } else {
        StepItems(c, s, e);
        SingleMoved(s, s1);
      }
      OffMeansApart(c, s1, es[1..]);
    }
  }
}
