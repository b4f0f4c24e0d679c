/** What holds over every interleaving of producers and workers: the guarantees the intake queue is for. */
module QueueRuns {
  import opened Common
  import opened IntakeQueue
  import opened Coalescing

  ghost predicate Valid(c: Config, s: State, es: seq<Step>)
    decreases |es|
  {
    es == [] || (Enabled(c, s, es[0]) && Valid(c, Apply(c, s, es[0]), es[1..]))
  }

  /** The state at the end of an interleaving. */
  ghost function Exec(c: Config, s: State, es: seq<Step>): State
    requires Valid(c, s, es)
    decreases |es|
  {
    if es == [] then s else Exec(c, Apply(c, s, es[0]), es[1..])
  }

  lemma InitInv(c: Config)
    ensures Inv(c, Init())
  {
    assert forall key :: Collected(map[], map[], key, 0) == Filter(OfKey(key), []);
  }

  lemma {:induction false} KeepInvs(c: Config, s: State, es: seq<Step>)
    requires Inv(c, s) && Valid(c, s, es)
    ensures Inv(c, Exec(c, s, es))
    decreases |es|
  {
    if es != [] {
      KeepInv(c, s, es[0]);
      hide Inv, Enabled, Apply;
      KeepInvs(c, Apply(c, s, es[0]), es[1..]);
    }
  }

  lemma ReachableInv(c: Config, es: seq<Step>)
    requires Valid(c, Init(), es)
    ensures Inv(c, Exec(c, Init(), es))
  {
    InitInv(c);
    KeepInvs(c, Init(), es);
  }

  // ---- safety ----

  /** Exactly once: every id handed out is in the queue, committed once, or dead-lettered, and never two of these. */
  lemma ExactlyOnce(c: Config, es: seq<Step>)
    requires Valid(c, Init(), es)
    ensures var s := Exec(c, Init(), es);
      && Distinct(s.runs)
      && (forall id :: 0 <= id < s.nextId ==> (id in s.rows) != (id in s.gone))
      && (forall id :: id in s.rows || id in s.gone ==> id < s.nextId)
      && (forall id :: id in s.runs <==> id in s.gone && s.gone[id].how.Ran?)
  {
    ReachableInv(c, es);
    var s := Exec(c, Init(), es);
    assert Accounted(s.nextId, s.rows.Keys, s.runs, s.gone);
    hide Faithful, Possession, AllEndedWell, OldestFirst, RunsInOrder, HeadsOnly, Exec, Valid;
    forall i, j | 0 <= i < j < |s.runs| ensures s.runs[i] != s.runs[j] {
      assert s.gone[s.runs[i]].how.pos == i && s.gone[s.runs[j]].how.pos == j;
    }
  }

  /** A worker commits only items that still carry its own claim and its own lock, that never ran before, and that
    * no other running transaction is processing. */
  lemma CommitsOnlyItsOwn(c: Config, es: seq<Step>, t: Token, order: seq<Id>)
    requires Valid(c, Init(), es + [Commit(t, order)])
    ensures Valid(c, Init(), es)
    ensures var s := Exec(c, Init(), es);
      && (forall id :: id in order ==> id in s.rows && s.rows[id].claimedBy == Some(t) && s.rows[id].attempts <= c.maxAttempts)
      && (forall id :: id in order ==> id in s.locks && s.locks[id] == t && id !in s.runs)
      && (forall u, id :: u in s.open && u != t && id in order ==> id !in s.open[u])
  {
    Split(c, Init(), es, [Commit(t, order)]);
    ReachableInv(c, es);
    var s := Exec(c, Init(), es);
    assert Running(s.rows, s.locks, t, s.open[t]) && CountedFor(s.rows, t, s.held[t]);
    forall u, id | u in s.open && u != t && id in order ensures id !in s.open[u] {
      assert Running(s.rows, s.locks, u, s.open[u]);
    }
    assert Accounted(s.nextId, s.rows.Keys, s.runs, s.gone);
    hide Faithful, Head, AllEndedWell, OldestFirst, RunsInOrder, HeadsOnly, Exec, Tokens;
  }

  lemma {:induction false} Split(c: Config, s: State, es: seq<Step>, fs: seq<Step>)
    requires Valid(c, s, es + fs)
    ensures Valid(c, s, es) && Valid(c, Exec(c, s, es), fs)
    ensures Exec(c, s, es + fs) == Exec(c, Exec(c, s, es), fs)
    decreases |es|
  {
    if es == [] {
      assert es + fs == fs;
    } else {
      assert (es + fs)[1..] == es[1..] + fs && (es + fs)[0] == es[0];
      hide Enabled, Apply;
      Split(c, Apply(c, s, es[0]), es[1..], fs);
    }
  }

  lemma {:induction false} Join(c: Config, s: State, es: seq<Step>, fs: seq<Step>)
    requires Valid(c, s, es) && Valid(c, Exec(c, s, es), fs)
    ensures Valid(c, s, es + fs) && Exec(c, s, es + fs) == Exec(c, Exec(c, s, es), fs)
    decreases |es|
  {
    if es == [] {
      assert es + fs == fs;
    } else {
      assert (es + fs)[1..] == es[1..] + fs && (es + fs)[0] == es[0];
      hide Enabled, Apply;
      Join(c, Apply(c, s, es[0]), es[1..], fs);
    }
  }

  predicate Claiming(e: Step) { e.Enqueue? || e.Pick? || e.Take? || e.Heartbeat? || e.Drop? || e.Tick? }

  predicate Closing(e: Step) { e.Begin? || e.Commit? || e.Abort? || e.Kill? }

  predicate GivingUp(e: Step) { e.Fail? || e.Reject? || e.Exhaust? }

  ghost predicate Buried(s: State, id: Id, s': State) {
    && id in s.rows && id in s'.gone && s'.gone[id].how.Dead? && s'.gone[id].row == s.rows[id]
    && s' == s.(rows := s.rows - {id}, gone := s.gone[id := s'.gone[id]])
  }

  ghost predicate PutBack(s: State, id: Id, s': State) {
    && id in s.rows && id in s'.rows && s'.rows[id].claimedBy.None? && s'.rows[id].attempts == s.rows[id].attempts
    && s' == s.(rows := s.rows[id := s'.rows[id]])
  }

  lemma DeadLetterEffect(s: State, t: Token, id: Id, why: Reason)
    ensures var s' := DeadLetter(s, t, id, why); s' == s || Buried(s, id, s')
  {
    if MineNow(s, t, id) {
      var s' := DeadLetter(s, t, id, why);
      assert s.runs + [] == s.runs;
      assert s'.gone == s.gone[id := s'.gone[id]];
    }
  }

  /** Giving up on an item touches no other item: it is released, or it leaves as a dead letter, or nothing happens. */
  lemma GivingUpEffect(c: Config, s: State, e: Step)
    requires Enabled(c, s, e) && GivingUp(e)
    ensures var s' := Apply(c, s, e); s' == s || PutBack(s, e.id, s') || Buried(s, e.id, s')
  {
    hide Buried, DeadLetter;
    DeadLetterEffect(s, e.token, e.id, if e.Fail? then Failed else if e.Reject? then Rejected else Exhausted);
  }

  /** Does e end the transaction of claim t? */
  ghost predicate Ends(e: Step, t: Token) {
    match e
    case Commit(u, _) => u == t
    case Abort(u) => u == t
    case Kill(us) => t in us
    case _ => false
  }

  /** Row id of s is still there, untouched and still locked by t, in s'. */
  ghost predicate Frozen(s: State, s': State, t: Token, id: Id) {
    id in s.rows && id in s'.rows && s'.rows[id] == s.rows[id] && id in s'.locks && s'.locks[id] == t
  }

  ghost predicate LockedBy(s: State, t: Token, id: Id) { id in s.rows && id in s.locks && s.locks[id] == t && id < s.nextId }

  lemma FrozenEnqueue(c: Config, s: State, ev: Event, into: Option<Id>, t: Token, id: Id)
    requires LockedBy(s, t, id) && Enabled(c, s, Enqueue(ev, into))
    ensures Frozen(s, ApplyEnqueue(s, ev, into), t, id)
  {
  }

  lemma FrozenTake(c: Config, s: State, u: Token, t: Token, id: Id)
    requires LockedBy(s, t, id) && u in s.picks
    ensures Frozen(s, ApplyTake(c, s, u), t, id)
  {
  }

  lemma FrozenHeartbeat(c: Config, s: State, us: set<Token>, t: Token, id: Id)
    requires LockedBy(s, t, id)
    ensures Frozen(s, ApplyHeartbeat(c, s, us), t, id)
  {
  }

  lemma FrozenBegin(s: State, u: Token, ids: set<Id>, t: Token, id: Id)
    requires LockedBy(s, t, id) && id !in ids
    ensures Frozen(s, ApplyBegin(s, u, ids), t, id)
  {
  }

  lemma FrozenRelease(s: State, us: set<Token>, t: Token, id: Id)
    requires LockedBy(s, t, id) && t !in us
    ensures Frozen(s, Release(s, us), t, id)
  {
  }

  lemma FrozenCommit(s: State, u: Token, order: seq<Id>, t: Token, id: Id)
    requires LockedBy(s, t, id) && u != t && id !in order
    ensures Frozen(s, ApplyCommit(s, u, order), t, id)
  {
  }

  lemma FrozenGivingUp(c: Config, s: State, e: Step, t: Token, id: Id)
    requires LockedBy(s, t, id) && Enabled(c, s, e) && GivingUp(e)
    ensures Frozen(s, Apply(c, s, e), t, id)
  {
    assert id != e.id;
    hide Apply, Enabled;
    GivingUpEffect(c, s, e);
  }

  lemma LockedClaiming(c: Config, s: State, e: Step, t: Token, id: Id)
    requires LockedBy(s, t, id) && Enabled(c, s, e) && Claiming(e)
    ensures Frozen(s, Apply(c, s, e), t, id)
  {
    hide ApplyEnqueue, ApplyTake, ApplyHeartbeat, CanAbsorb, Head;
    if e.Enqueue? {
      FrozenEnqueue(c, s, e.ev, e.into, t, id);
    } else if e.Take? {
      FrozenTake(c, s, e.token, t, id);
    } else if e.Heartbeat? {
      FrozenHeartbeat(c, s, e.tokens, t, id);
    }
  }

  lemma LockedClosing(c: Config, s: State, e: Step, t: Token, id: Id)
    requires LockedBy(s, t, id) && Enabled(c, s, e) && Closing(e) && !Ends(e, t)
    requires e.Commit? ==> id !in s.open[e.token]
    ensures Frozen(s, Apply(c, s, e), t, id)
  {
    hide ApplyBegin, ApplyCommit, Release, Frozen, Distinct;
    if e.Begin? {
      FrozenBegin(s, e.token, e.ids, t, id);
    } else if e.Commit? {
      FrozenCommit(s, e.token, e.order, t, id);
    } else if e.Abort? {
      FrozenRelease(s, {e.token}, t, id);
    } else {
      FrozenRelease(s, e.tokens, t, id);
      SameRowsFrozen(s, Release(s, e.tokens), Apply(c, s, e), t, id);
    }
  }

  lemma LockedStep(c: Config, s: State, e: Step, t: Token, id: Id)
    requires Core(c, s) && Enabled(c, s, e) && id in s.locks && s.locks[id] == t && !Ends(e, t)
    ensures Frozen(s, Apply(c, s, e), t, id)
  {
    assert LockedBy(s, t, id);
    if e.Commit? { assert Running(s.rows, s.locks, e.token, s.open[e.token]) && id !in s.open[e.token]; }
    hide Core, Apply, Enabled, Ends, Frozen, LockedBy;
    if Claiming(e) {
      LockedClaiming(c, s, e, t, id);
    } else if Closing(e) {
      LockedClosing(c, s, e, t, id);
    } else {
      FrozenGivingUp(c, s, e, t, id);
    }
  }

  lemma SameRowsFrozen(s: State, s1: State, s2: State, t: Token, id: Id)
    requires LockedBy(s, t, id) && s2.rows == s1.rows && s2.locks == s1.locks && (s1 == s || Frozen(s, s1, t, id))
    ensures Frozen(s, s2, t, id)
  {
  }

  /** An item locked in a running transaction is out of every other worker's reach, however long it takes and
    * however many leases run out, until that transaction itself commits, rolls back or dies. */
  lemma {:induction false} LockedUntilTransactionEnds(c: Config, s: State, es: seq<Step>, t: Token, id: Id)
    requires Inv(c, s) && Valid(c, s, es) && id in s.locks && s.locks[id] == t
    requires forall e :: e in es ==> !Ends(e, t)
    ensures Frozen(s, Exec(c, s, es), t, id)
    decreases |es|
  {
    if es != [] {
      LockedStep(c, s, es[0], t, id);
      KeepInv(c, s, es[0]);
      hide Inv, Enabled, Apply;
      LockedUntilTransactionEnds(c, Apply(c, s, es[0]), es[1..], t, id);
    }
  }

  ghost predicate Spent(s: State, t: Token) { t < s.nextToken && t !in s.picks }

  ghost predicate RanUnder(s: State, t: Token, id: Id) {
    id in s.gone && s.gone[id].how.Ran? && s.gone[id].how.under == t
  }

  lemma LostClaimClaiming(c: Config, s: State, e: Step, t: Token, id: Id)
    requires Core(c, s) && Enabled(c, s, e) && Claiming(e) && Spent(s, t) && id < s.nextId && !MineNow(s, t, id) && !RanUnder(s, t, id)
    ensures var s' := Apply(c, s, e); Spent(s', t) && id < s'.nextId && !MineNow(s', t, id) && !RanUnder(s', t, id)
  {
    assert s.nextId !in s.rows && s.nextId !in s.gone;
    hide Core, Head;
  }

  lemma LostClaimClosing(c: Config, s: State, e: Step, t: Token, id: Id)
    requires Core(c, s) && Enabled(c, s, e) && Closing(e) && Spent(s, t) && id < s.nextId && !MineNow(s, t, id) && !RanUnder(s, t, id)
    ensures var s' := Apply(c, s, e); Spent(s', t) && id < s'.nextId && !MineNow(s', t, id) && !RanUnder(s', t, id)
  {
    assert s.nextId !in s.rows && s.nextId !in s.gone;
    if e.Commit? { assert Running(s.rows, s.locks, e.token, s.open[e.token]); }
    hide Accounted, History, Counted, Tokens, Live, IndexOf;
  }

  lemma StillLost(s: State, at: Id, s': State, t: Token, id: Id)
    requires s' == s || PutBack(s, at, s') || Buried(s, at, s')
    requires Spent(s, t) && id < s.nextId && !MineNow(s, t, id) && !RanUnder(s, t, id)
    ensures Spent(s', t) && id < s'.nextId && !MineNow(s', t, id) && !RanUnder(s', t, id)
  {
  }

  lemma LostClaimGivingUp(c: Config, s: State, e: Step, t: Token, id: Id)
    requires Core(c, s) && Enabled(c, s, e) && GivingUp(e) && Spent(s, t) && id < s.nextId && !MineNow(s, t, id) && !RanUnder(s, t, id)
    ensures var s' := Apply(c, s, e); Spent(s', t) && id < s'.nextId && !MineNow(s', t, id) && !RanUnder(s', t, id)
  {
    hide Core, Apply, Buried, PutBack, MineNow, RanUnder, Spent;
    GivingUpEffect(c, s, e);
    StillLost(s, e.id, Apply(c, s, e), t, id);
  }

  lemma LostClaimStep(c: Config, s: State, e: Step, t: Token, id: Id)
    requires Core(c, s) && Enabled(c, s, e) && Spent(s, t) && id < s.nextId && !MineNow(s, t, id) && !RanUnder(s, t, id)
    ensures var s' := Apply(c, s, e); Spent(s', t) && id < s'.nextId && !MineNow(s', t, id) && !RanUnder(s', t, id)
  {
    hide Core, Enabled, Apply, Attempts, Ends, MineNow, RanUnder, Spent;
    if Claiming(e) { LostClaimClaiming(c, s, e, t, id); } else if Closing(e) { LostClaimClosing(c, s, e, t, id); } else { LostClaimGivingUp(c, s, e, t, id); }
  }

  /** A worker that stalled and lost an item (its lease ran out and another claim took it, or it was released) never
    * gets that item back under the old claim, and never commits it, whatever happens afterwards. */
  lemma {:induction false} LostClaimNeverCommits(c: Config, s: State, es: seq<Step>, t: Token, id: Id)
    requires Inv(c, s) && Valid(c, s, es) && Spent(s, t) && id < s.nextId && !MineNow(s, t, id) && !RanUnder(s, t, id)
    ensures !MineNow(Exec(c, s, es), t, id) && !RanUnder(Exec(c, s, es), t, id)
    decreases |es|
  {
    if es != [] {
      LostClaimStep(c, s, es[0], t, id);
      KeepInv(c, s, es[0]);
      hide Inv, Enabled, Apply, MineNow, RanUnder, Spent;
      LostClaimNeverCommits(c, Apply(c, s, es[0]), es[1..], t, id);
    }
  }

  /** i's one run comes before j's. */
  ghost predicate RunsBefore(runs: seq<Id>, i: Id, j: Id) {
    exists m, n :: 0 <= m < n < |runs| && runs[m] == i && runs[n] == j
  }

  /** Per order key: a younger item leaves or is even claimed only once every older one has left, and committed
    * runs are in enqueue order -- a reclose never runs before the trip queued ahead of it. */
  lemma KeysRunInOrder(c: Config, es: seq<Step>, i: Id, j: Id)
    requires Valid(c, Init(), es)
    requires var s := Exec(c, Init(), es); i < j < s.nextId
    ensures var s := Exec(c, Init(), es);
      && (i in s.rows || i in s.gone) && (j in s.rows || j in s.gone)
      && (SameKey(Item(s.rows, s.gone, i), Item(s.rows, s.gone, j)) ==>
        && (j in s.gone ==> i in s.gone)
        && (j in s.rows && s.rows[j].claimedBy.Some? ==> i in s.gone)
        && (i in s.gone && j in s.gone && RanAlike(s.gone[i], s.gone[j]) ==> RunsBefore(s.runs, i, j)))
  {
    ReachableInv(c, es);
    ExactlyOnce(c, es);
    var s := Exec(c, Init(), es);
    assert Accounted(s.nextId, s.rows.Keys, s.runs, s.gone) && OldestFirst(s.rows, s.gone) && RunsInOrder(s.gone) && HeadsOnly(s.rows, s.picks, s.nextId);
    hide Core, Faithful, Exec, Valid;
    if i in s.gone && j in s.gone && RanAlike(s.gone[i], s.gone[j]) {
      assert s.runs[s.gone[i].how.pos] == i && s.runs[s.gone[j].how.pos] == j;
    }
  }

  // ---- attempts ----

  ghost function Attempts(s: State, id: Id): nat {
    if id in s.rows then s.rows[id].attempts else if id in s.gone then s.gone[id].row.attempts else 0
  }

  /** How often an interleaving claimed id. */
  ghost function Claims(c: Config, s: State, es: seq<Step>, id: Id): nat
    requires Valid(c, s, es)
    decreases |es|
  {
    if es == [] then 0
    else (if es[0].Take? && id in Taken(s, es[0].token) then 1 else 0) + Claims(c, Apply(c, s, es[0]), es[1..], id)
  }

  lemma AttemptsClaiming(c: Config, s: State, e: Step, id: Id)
    requires Core(c, s) && Enabled(c, s, e) && Claiming(e)
    ensures Attempts(Apply(c, s, e), id) == Attempts(s, id) + (if e.Take? && id in Taken(s, e.token) then 1 else 0)
  {
    assert s.nextId !in s.gone && s.nextId !in s.rows && s.gone.Keys !! s.rows.Keys;
    hide Core, Head;
  }

  lemma AttemptsClosing(c: Config, s: State, e: Step, id: Id)
    requires Core(c, s) && Enabled(c, s, e) && Closing(e)
    ensures Attempts(Apply(c, s, e), id) == Attempts(s, id) + (if e.Take? && id in Taken(s, e.token) then 1 else 0)
  {
    assert s.nextId !in s.gone && s.nextId !in s.rows && s.gone.Keys !! s.rows.Keys;
    if e.Commit? { assert Running(s.rows, s.locks, e.token, s.open[e.token]); }
    hide Accounted, History, Counted, Tokens, Live, IndexOf;
  }

  lemma SameAttempts(s: State, at: Id, s': State, id: Id)
    requires s.gone.Keys !! s.rows.Keys && (s' == s || PutBack(s, at, s') || Buried(s, at, s'))
    ensures Attempts(s', id) == Attempts(s, id)
  {
  }

  lemma AttemptsGivingUp(c: Config, s: State, e: Step, id: Id)
    requires Core(c, s) && Enabled(c, s, e) && GivingUp(e)
    ensures Attempts(Apply(c, s, e), id) == Attempts(s, id) + (if e.Take? && id in Taken(s, e.token) then 1 else 0)
  {
    assert s.gone.Keys !! s.rows.Keys;
    hide Core, Apply, Attempts, Buried, PutBack;
    GivingUpEffect(c, s, e);
    SameAttempts(s, e.id, Apply(c, s, e), id);
  }

  lemma AttemptsStep(c: Config, s: State, e: Step, id: Id)
    requires Core(c, s) && Enabled(c, s, e)
    ensures Attempts(Apply(c, s, e), id) == Attempts(s, id) + (if e.Take? && id in Taken(s, e.token) then 1 else 0)
  {
    hide Core, Enabled, Apply, Attempts, Ends, MineNow, RanUnder, Spent;
    if Claiming(e) { AttemptsClaiming(c, s, e, id); } else if Closing(e) { AttemptsClosing(c, s, e, id); } else { AttemptsGivingUp(c, s, e, id); }
  }

  lemma {:induction false} AttemptsCountClaims(c: Config, s: State, es: seq<Step>, id: Id)
    requires Inv(c, s) && Valid(c, s, es)
    ensures Attempts(Exec(c, s, es), id) == Attempts(s, id) + Claims(c, s, es, id)
    decreases |es|
  {
    if es != [] {
      AttemptsStep(c, s, es[0], id);
      KeepInv(c, s, es[0]);
      hide Inv, Enabled, Apply, Attempts, Taken;
      AttemptsCountClaims(c, Apply(c, s, es[0]), es[1..], id);
    }
  }

  /** A failing item is dead-lettered after exactly maxAttempts claims; an item that kept killing its worker, after
    * more, without being run again; nothing runs on more than maxAttempts. */
  lemma DeadAfterExactlyMaxAttempts(c: Config, es: seq<Step>, id: Id)
    requires Valid(c, Init(), es) && id in Exec(c, Init(), es).gone
    ensures var n, how := Claims(c, Init(), es, id), Exec(c, Init(), es).gone[id].how;
      && (how == Dead(Failed) ==> n == c.maxAttempts)
      && (how == Dead(Exhausted) ==> c.maxAttempts < n)
      && (how.Ran? || how == Dead(Rejected) ==> 1 <= n <= c.maxAttempts)
  {
    InitInv(c);
    ReachableInv(c, es);
    AttemptsCountClaims(c, Init(), es, id);
    var s := Exec(c, Init(), es);
    assert EndedWell(c, s.gone[id]) && id !in s.rows;
  }

  // ---- leases and back-off ----

  /** id has left, or still carries `claim` and is not available before `until`. */
  ghost predicate Guarded(s: State, id: Id, claim: Option<Token>, until: nat) {
    && id < s.nextId
    && (id in s.rows ==> s.rows[id].claimedBy == claim && 0 < s.rows[id].attempts && until <= s.rows[id].availableAt)
  }

  ghost predicate GivesUp(e: Step, claim: Option<Token>) { GivingUp(e) && claim == Some(e.token) }

  lemma GuardedClaiming(c: Config, s: State, e: Step, id: Id, claim: Option<Token>, until: nat)
    requires Enabled(c, s, e) && Claiming(e) && Guarded(s, id, claim, until) && s.now < until
    requires claim.Some? ==> until <= s.now + c.leaseMs
    ensures Guarded(Apply(c, s, e), id, claim, until)
    ensures e.Take? ==> id !in Taken(s, e.token)
  {
    hide Head;
  }

  lemma GuardedClosing(c: Config, s: State, e: Step, id: Id, claim: Option<Token>, until: nat)
    requires Enabled(c, s, e) && Closing(e) && Guarded(s, id, claim, until)
    ensures Guarded(Apply(c, s, e), id, claim, until)
  {
    hide Unlock, Mine, Leave, LockAll, IndexOf, Distinct;
  }

  lemma GuardedGivingUp(c: Config, s: State, e: Step, id: Id, claim: Option<Token>, until: nat)
    requires Enabled(c, s, e) && GivingUp(e) && Guarded(s, id, claim, until) && !GivesUp(e, claim)
    ensures Guarded(Apply(c, s, e), id, claim, until)
  {
    if MineNow(s, e.token, e.id) {
      assert e.id != id;
      hide Enabled, Apply, MineNow;
      GivingUpEffect(c, s, e);
    }
  }

  lemma NowStep(c: Config, s: State, e: Step)
    requires Enabled(c, s, e)
    ensures s.now <= Apply(c, s, e).now
  {
    hide Head, CanAbsorb, Idle, Taken, Copies, TakeRows, Mine, MineNow, LockAll, Unlock, Leave, Absorb, Backoff;
  }

  lemma {:induction false} NowGrows(c: Config, s: State, es: seq<Step>)
    requires Valid(c, s, es)
    ensures s.now <= Exec(c, s, es).now
    decreases |es|
  {
    if es != [] {
      NowStep(c, s, es[0]);
      hide Enabled, Apply;
      NowGrows(c, Apply(c, s, es[0]), es[1..]);
    }
  }

  /** Until its time comes, no worker claims the item again. */
  lemma {:induction false} NotClaimedBefore(c: Config, s: State, es: seq<Step>, id: Id, claim: Option<Token>, until: nat)
    requires Valid(c, s, es) && Guarded(s, id, claim, until) && Exec(c, s, es).now < until
    requires claim.Some? ==> until <= s.now + c.leaseMs
    requires forall e :: e in es ==> !GivesUp(e, claim)
    ensures Claims(c, s, es, id) == 0
    decreases |es|
  {
    NowGrows(c, s, es);
    if es != [] {
      var s1 := Apply(c, s, es[0]);
      NowGrows(c, s, [es[0]]);
      if Claiming(es[0]) {
        GuardedClaiming(c, s, es[0], id, claim, until);
      } else if Closing(es[0]) {
        GuardedClosing(c, s, es[0], id, claim, until);
      } else {
        GuardedGivingUp(c, s, es[0], id, claim, until);
      }
      hide Guarded, Enabled, Apply, Taken;
      NotClaimedBefore(c, s1, es[1..], id, claim, until);
    }
  }

  lemma FailGuards(c: Config, s: State, t: Token, id: Id)
    requires Idle(s, t, id) && MineNow(s, t, id) && 1 <= s.held[t][id] < c.maxAttempts && id < s.nextId && s.rows[id].attempts >= 1
    ensures Enabled(c, s, Fail(t, id)) && Guarded(Apply(c, s, Fail(t, id)), id, None, s.now + Backoff(c, s.held[t][id]))
  {
    hide Backoff;
  }

  /** The back-off doubles with every attempt up to its cap. */
  lemma BackoffDoubles(c: Config, n: nat)
    ensures Backoff(c, 1) == Min(c.backoffMaxMs, c.backoffBaseMs)
    ensures 1 <= n ==> Backoff(c, n + 1) == Min(c.backoffMaxMs, 2 * Backoff(c, n))
  {
    if 1 <= n { assert Pow2(n) == 2 * Pow2(n - 1); }
  }

  /** After a failed attempt the item waits out its back-off. No heartbeat shortens
    * it, no other worker takes the item early. */
  lemma FailureBacksOff(c: Config, s: State, t: Token, id: Id, es: seq<Step>)
    requires Core(c, s) && Idle(s, t, id) && MineNow(s, t, id) && s.held[t][id] < c.maxAttempts
    requires Valid(c, s, [Fail(t, id)] + es)
    requires Exec(c, s, [Fail(t, id)] + es).now < s.now + Backoff(c, s.held[t][id])
    ensures Claims(c, s, [Fail(t, id)] + es, id) == 0
  {
    var e := Fail(t, id);
    assert 1 <= s.rows[id].attempts == s.held[t][id] by { assert CountedFor(s.rows, t, s.held[t]); }
    var s1, until := Apply(c, s, e), s.now + Backoff(c, s.held[t][id]);
    hide Core, Backoff, Claims, Exec, Valid, Apply, Guarded, Enabled;
    FailGuards(c, s, t, id);
    NotClaimedAfter(c, s, e, es, id, until);
  }

  lemma NotClaimedAfter(c: Config, s: State, e: Step, es: seq<Step>, id: Id, until: nat)
    requires Valid(c, s, [e] + es) && Exec(c, s, [e] + es).now < until && !e.Take?
    requires Enabled(c, s, e) && Guarded(Apply(c, s, e), id, None, until)
    ensures Claims(c, s, [e] + es, id) == 0
  {
    var s1 := Apply(c, s, e);
    assert ([e] + es)[0] == e && ([e] + es)[1..] == es;
    hide Enabled, Apply, Guarded;
    NotClaimedBefore(c, s1, es, id, None, until);
  }

  /** A heartbeat keeps an item out of other workers' reach for a whole lease. */
  lemma HeartbeatKeepsOthersOut(c: Config, s: State, ts: set<Token>, t: Token, id: Id, es: seq<Step>)
    requires Core(c, s) && t in ts && MineNow(s, t, id) && id !in s.locks
    requires Valid(c, s, [Heartbeat(ts)] + es) && Exec(c, s, [Heartbeat(ts)] + es).now < s.now + c.leaseMs
    requires forall e :: e in es ==> !GivesUp(e, Some(t))
    ensures Claims(c, s, [Heartbeat(ts)] + es, id) == 0
  {
    var e := Heartbeat(ts);
    assert id < s.nextId && s.rows[id].attempts >= 1;
    var s1, until := Apply(c, s, e), s.now + c.leaseMs;
    assert Guarded(s1, id, Some(t), until);
    assert ([e] + es)[0] == e && ([e] + es)[1..] == es;
    assert s1.now == s.now;
    hide Core, Enabled, Apply, Guarded;
    NotClaimedBefore(c, s1, es, id, Some(t), until);
  }
}
