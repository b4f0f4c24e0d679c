/** The durable intake queue (backend/src/infra/intakeQueue.js) as a step machine.
  *
  * One `State` is the whole database table plus what every worker process holds in memory. Each `Step` is
  * one committed SQL statement or transaction, or the opening / rollback of the processing transaction, so a
  * sequence of steps is one interleaving of all producers and workers. Row locks are the `locks` map;
  * `FOR UPDATE` waits by being disabled, `SKIP LOCKED` skips.
  */
module IntakeQueue {
  import opened Common

  type Id = nat
  type Token = nat

  datatype Config = Config(leaseMs: nat, maxAttempts: nat, backoffBaseMs: nat, backoffMaxMs: nat, coalesce: bool)

  /** One submitted event; `alarm` is the payload's own id, when it has one. */
  datatype Event = Event(key: Option<string>, coalesceKey: Option<string>, alarm: Option<nat>, body: string)

  /** The stored payload: the newest event plus the ids of the events it absorbed. */
  datatype Payload = Payload(latest: Event, coalescedIds: seq<nat>)

  /** A queue row. `absorbed` is history, not a column: every event this row stands for, oldest first. */
  datatype Row = Row(
    key: Option<string>, coalesceKey: Option<string>, payload: Payload, absorbed: seq<Event>,
    attempts: nat, availableAt: nat, claimedBy: Option<Token>)

  datatype Reason = Rejected | Failed | Exhausted

  /** How an item left the queue: committed by a claim's transaction, as the pos-th run, or dead-lettered. */
  datatype Ending = Ran(pos: nat, under: Token) | Dead(why: Reason)

  /** A row as it was when it left the queue. */
  datatype Gone = Gone(row: Row, how: Ending)

  datatype State = State(
    now: nat,
    nextId: Id,
    nextToken: Token,
    rows: map<Id, Row>,
    locks: map<Id, Token>,             // rows locked by a running transaction
    open: map<Token, set<Id>>,         // running transactions and the items they are processing
    picks: map<Token, set<Id>>,        // claims between their snapshot and their UPDATE
    held: map<Token, map<Id, nat>>,    // live claims: item -> attempts as the worker read them
    runs: seq<Id>,                     // committed runs, in commit order
    gone: map<Id, Gone>,               // intake_dead_letter, and history of the committed items
    log: seq<Event>)                   // history: every event accepted, in arrival order

  datatype Step =
    | Enqueue(ev: Event, into: Option<Id>)
    | Pick(ids: set<Id>)
    | Take(token: Token)
    | Heartbeat(tokens: set<Token>)
    | Begin(token: Token, ids: set<Id>)
    | Commit(token: Token, order: seq<Id>)
    | Abort(token: Token)
    | Fail(token: Token, id: Id)
    | Reject(token: Token, id: Id)
    | Exhaust(token: Token, id: Id)
    | Drop(token: Token)
    | Kill(tokens: set<Token>)
    | Tick(ms: nat)

  ghost function Init(): State {
    State(0, 0, 0, map[], map[], map[], map[], map[], [], map[], [])
  }

  // ---- the queue's own notions ----

  /** Only the oldest row of an order key may ever be claimed. */
  ghost predicate Head(rows: map<Id, Row>, id: Id)
    requires id in rows
  {
    rows[id].key.None? || forall j :: j in rows && rows[j].key == rows[id].key ==> id <= j
  }

  ghost predicate Claimable(s: State, id: Id) {
    id in s.rows && Head(s.rows, id) && s.rows[id].availableAt <= s.now && id !in s.locks
  }

  /** The newest row of ev's order key can absorb ev: same state, never claimed, not locked. */
  ghost predicate CanAbsorb(c: Config, s: State, ev: Event, id: Id) {
    && c.coalesce && ev.key.Some? && ev.coalesceKey.Some?
    && id in s.rows && s.rows[id].key == ev.key
    && (forall j :: j in s.rows && s.rows[j].key == ev.key ==> j <= id)
    && s.rows[id].coalesceKey == ev.coalesceKey && s.rows[id].attempts == 0 && id !in s.locks
  }

  function Absorb(r: Row, ev: Event): Row {
    r.(payload := Payload(ev, r.payload.coalescedIds + (if r.payload.latest.alarm.Some? then [r.payload.latest.alarm.value] else [])),
       absorbed := r.absorbed + [ev])
  }

  function IndexOf(s: seq<Id>, id: Id): (i: nat)
    requires id in s
    ensures i < |s| && s[i] == id
  {
    if s[0] == id then 0 else 1 + IndexOf(s[1..], id)
  }

  ghost predicate MineNow(s: State, token: Token, id: Id) {
    id in s.rows && s.rows[id].claimedBy == Some(token)
  }

  ghost function Mine(s: State, token: Token, ids: set<Id>): set<Id> {
    set id | id in ids && MineNow(s, token, id)
  }

  function Backoff(c: Config, attempts: nat): nat {
    Min(c.backoffMaxMs, c.backoffBaseMs * Pow2(if attempts == 0 then 0 else attempts - 1))
  }

  ghost function Unlock(locks: map<Id, Token>, tokens: set<Token>): map<Id, Token> {
    map id | id in locks && locks[id] !in tokens :: locks[id]
  }

  /** Items leave the queue: `endings` says how, `order` lists the committed ones. */
  function Retire(s: State, endings: map<Id, Gone>, order: seq<Id>): State {
    s.(rows := s.rows - endings.Keys, gone := s.gone + endings, runs := s.runs + order)
  }

  /** deadLetter(id, reason, token): only the claim that holds the item may bury it. */
  ghost function DeadLetter(s: State, token: Token, id: Id, why: Reason): State {
    if MineNow(s, token, id) then Retire(s, map[id := Gone(s.rows[id], Dead(why))], []) else s
  }

  /** The transactions of these claims end: their row locks are released. */
  ghost function Release(s: State, ts: set<Token>): State {
    s.(open := s.open - ts, locks := Unlock(s.locks, ts))
  }

  /** A claim between statements: it holds id and has no transaction running. */
  ghost predicate Idle(s: State, token: Token, id: Id) {
    token in s.held && id in s.held[token] && token !in s.open && id !in s.locks
  }

  ghost predicate Enabled(c: Config, s: State, e: Step) {
    match e
    case Enqueue(ev, into) => into.Some? ==> CanAbsorb(c, s, ev, into.value)   // into None: two producers may both find nothing to absorb into
    case Pick(ids) => forall id :: id in ids ==> id in s.rows && Head(s.rows, id) && s.rows[id].availableAt <= s.now
    case Take(t) => t in s.picks
    case Heartbeat(ts) => ts <= s.held.Keys
    case Begin(t, ids) => ids != {} && forall id :: id in ids ==> Idle(s, t, id) && s.held[t][id] <= c.maxAttempts
    case Commit(t, order) => t in s.open && Distinct(order) && forall id :: id in order <==> id in s.open[t]
    case Abort(t) => t in s.open
    case Fail(t, id) => Idle(s, t, id) && s.held[t][id] <= c.maxAttempts
    case Reject(t, id) => Idle(s, t, id) && s.held[t][id] <= c.maxAttempts
    case Exhaust(t, id) => Idle(s, t, id) && c.maxAttempts < s.held[t][id]
    case Drop(t) => t in s.held && t !in s.open
    case Kill(_) => true
    case Tick(_) => true
  }

  ghost function Taken(s: State, t: Token): set<Id>
    requires t in s.picks
  {
    set id | id in s.picks[t] && id in s.rows && id !in s.locks && s.rows[id].availableAt <= s.now
  }

  function TakeRows(rows: map<Id, Row>, taken: set<Id>, t: Token, until: nat): map<Id, Row> {
    map id | id in rows ::
      if id in taken
      then rows[id].(attempts := NextAttempt(rows[id]), availableAt := until, claimedBy := Some(t))
      else rows[id]
  }

  function NextAttempt(r: Row): nat { r.attempts + 1 }

  /** What the claim returns to the worker: each item with its new attempt number. */
  function Copies(rows: map<Id, Row>, taken: set<Id>): map<Id, nat> {
    map id | id in taken && id in rows :: NextAttempt(rows[id])
  }

  ghost function ApplyTake(c: Config, s: State, t: Token): State
    requires t in s.picks
  {
    var taken := Taken(s, t);
    s.(rows := TakeRows(s.rows, taken, t, s.now + c.leaseMs),
       picks := s.picks - {t},
       held := if taken == {} then s.held else s.held[t := Copies(s.rows, taken)])
  }

  /** The lease of every row these claims still carry moves forward; a row locked right now is skipped. */
  ghost function ApplyHeartbeat(c: Config, s: State, ts: set<Token>): State {
    s.(rows := map id | id in s.rows ::
      if id !in s.locks && s.rows[id].claimedBy.Some? && s.rows[id].claimedBy.value in ts
      then s.rows[id].(availableAt := s.now + c.leaseMs) else s.rows[id])
  }

  function LockAll(ids: set<Id>, t: Token): map<Id, Token> { map id | id in ids :: t }

  /** Opens the processing transaction: re-locks the rows and keeps only those that still carry this claim. */
  ghost function ApplyBegin(s: State, t: Token, ids: set<Id>): State
  {
    var live := Mine(s, t, ids);
    if live == {} then s
    else s.(open := s.open[t := live], locks := s.locks + LockAll(ids * s.rows.Keys, t))
  }

  /** The committed items as they leave: order[k] is the run number n + k. */
  ghost function Leave(rows: map<Id, Row>, n: nat, order: seq<Id>, t: Token): map<Id, Gone> {
    map id | id in rows && id in order :: Gone(rows[id], Ran(n + IndexOf(order, id), t))
  }

  /** COMMIT of a processing transaction: the runs and the DELETE of their rows, in one step. */
  ghost function ApplyCommit(s: State, t: Token, order: seq<Id>): State {
    Retire(Release(s, {t}), Leave(s.rows, |s.runs|, order, t), order)
  }

  function Released(r: Row, until: nat): Row { r.(availableAt := until, claimedBy := None) }

  /** failed(item, msg): back-off and release the claim, or dead-letter after the last attempt. */
  ghost function ApplyFail(c: Config, s: State, t: Token, id: Id, att: nat): State {
    if att >= c.maxAttempts then DeadLetter(s, t, id, Failed)
    else if MineNow(s, t, id) then s.(rows := s.rows[id := Released(s.rows[id], s.now + Backoff(c, att))])
    else s
  }

  ghost function ApplyEnqueue(s: State, ev: Event, into: Option<Id>): State
    requires into.Some? ==> into.value in s.rows
  {
    if into.Some?
    then s.(rows := s.rows[into.value := Absorb(s.rows[into.value], ev)], log := s.log + [ev])
    else s.(rows := s.rows[s.nextId := Row(ev.key, ev.coalesceKey, Payload(ev, []), [ev], 0, s.now, None)],
            nextId := s.nextId + 1, log := s.log + [ev])
  }

  /** The state after one enabled step. */
  ghost function Apply(c: Config, s: State, e: Step): State
    requires Enabled(c, s, e)
  {
    match e
    case Enqueue(ev, into) => ApplyEnqueue(s, ev, into)
    case Pick(ids) => s.(picks := s.picks[s.nextToken := ids], nextToken := s.nextToken + 1)
    case Take(t) => ApplyTake(c, s, t)
    case Heartbeat(ts) => ApplyHeartbeat(c, s, ts)
    case Begin(t, ids) => ApplyBegin(s, t, ids)
    case Commit(t, order) => ApplyCommit(s, t, order)
    case Abort(t) => Release(s, {t})
    case Fail(t, id) => ApplyFail(c, s, t, id, s.held[t][id])
    case Reject(t, id) => DeadLetter(s, t, id, Rejected)
    case Exhaust(t, id) => DeadLetter(s, t, id, Exhausted)
    case Drop(t) => s.(held := s.held - {t})
    case Kill(ts) => Release(s, ts).(held := s.held - ts, picks := s.picks - ts)
    case Tick(ms) => s.(now := s.now + ms)
  }

  // ---- what every step keeps ----

  /** Conservation: every id handed out is in the queue or has left it, once; `runs` lists exactly the
    * committed items, each once. */
  ghost predicate Accounted(nextId: Id, queued: set<Id>, runs: seq<Id>, gone: map<Id, Gone>) {
    && (forall id :: id in queued ==> id < nextId && id !in gone)
    && (forall id :: id in gone ==> id < nextId)
    && (forall id :: 0 <= id < nextId ==> id in queued || id in gone)
    && (forall id :: id in gone && gone[id].how.Ran? ==> gone[id].how.pos < |runs| && runs[gone[id].how.pos] == id)
    && (forall i :: 0 <= i < |runs| ==> runs[i] in gone && gone[runs[i]].how.Ran? && gone[runs[i]].how.pos == i)
  }

  /** A running transaction t still has its rows locked and carrying its claim. */
  ghost predicate Running(rows: map<Id, Row>, locks: map<Id, Token>, t: Token, ids: set<Id>) {
    forall id :: id in ids ==> id in locks && locks[id] == t && id in rows && rows[id].claimedBy == Some(t)
  }

  /** Locks belong to running transactions of live claims. */
  ghost predicate Locked(rows: map<Id, Row>, locks: map<Id, Token>, open: map<Token, set<Id>>) {
    && (forall id :: id in locks ==> id in rows && locks[id] in open)
    && (forall t :: t in open ==> Running(rows, locks, t, open[t]))
  }

  ghost predicate Live(open: map<Token, set<Id>>, held: map<Token, map<Id, nat>>, maxAttempts: nat) {
    forall t :: t in open ==> t in held && forall id :: id in open[t] ==> id in held[t] && held[t][id] <= maxAttempts
  }

  /** Every claim has its own token. */
  ghost predicate Tokens(rows: map<Id, Row>, nextToken: Token, picks: map<Token, set<Id>>, held: map<Token, map<Id, nat>>) {
    && (forall id :: id in rows ==> TokenUsed(rows[id].claimedBy, nextToken, picks))
    && (forall t :: t in picks ==> t < nextToken && t !in held)
    && (forall t :: t in held ==> t < nextToken)
  }

  ghost predicate TokenUsed(claim: Option<Token>, nextToken: Token, picks: map<Token, set<Id>>) {
    claim.Some? ==> claim.value < nextToken && claim.value !in picks
  }

  ghost predicate CountedFor(rows: map<Id, Row>, t: Token, held: map<Id, nat>) {
    forall id :: id in held && id in rows && rows[id].claimedBy == Some(t) ==> rows[id].attempts == held[id]
  }

  /** A worker's copy of the attempts is right as long as the row still carries its claim. */
  ghost predicate Counted(rows: map<Id, Row>, held: map<Token, map<Id, nat>>) {
    && (forall t :: t in held ==> CountedFor(rows, t, held[t]))
    && (forall id :: id in rows && rows[id].claimedBy.Some? ==> 1 <= rows[id].attempts)
  }

  /** A run or a rejection used at most maxAttempts claims, a failing item exactly that many, an item that
    * kept killing its worker more; and a run was committed by the claim the row carried. */
  ghost predicate EndedWell(c: Config, g: Gone) {
    match g.how
    case Ran(_, t) => 1 <= g.row.attempts <= c.maxAttempts && g.row.claimedBy == Some(t)
    case Dead(Failed) => g.row.attempts == c.maxAttempts
    case Dead(Exhausted) => c.maxAttempts < g.row.attempts
    case Dead(Rejected) => 1 <= g.row.attempts <= c.maxAttempts
  }

  ghost predicate AllEndedWell(c: Config, gone: map<Id, Gone>) {
    forall id :: id in gone ==> EndedWell(c, gone[id])
  }

  ghost predicate SameKey(a: Row, b: Row) { a.key.Some? && a.key == b.key }

  ghost predicate RanAlike(a: Gone, b: Gone) { SameKey(a.row, b.row) && a.how.Ran? && b.how.Ran? }

  /** Per order key, whatever left the queue is older than whatever is still in it. */
  ghost predicate OldestFirst(rows: map<Id, Row>, gone: map<Id, Gone>) {
    forall i, j :: i in gone && j in rows && SameKey(gone[i].row, rows[j]) ==> i < j
  }

  /** Per order key, committed runs are in enqueue order. */
  ghost predicate RunsInOrder(gone: map<Id, Gone>) {
    forall i, j :: i in gone && j in gone && i < j && RanAlike(gone[i], gone[j]) ==> gone[i].how.pos < gone[j].how.pos
  }

  ghost predicate StillHeads(rows: map<Id, Row>, ids: set<Id>, nextId: Id) {
    forall id :: id in ids ==> id < nextId && (id in rows ==> Head(rows, id))
  }

  /** Only heads are claimed, and a picked row stays a head until it leaves. */
  ghost predicate HeadsOnly(rows: map<Id, Row>, picks: map<Token, set<Id>>, nextId: Id) {
    && (forall t :: t in picks ==> StillHeads(rows, picks[t], nextId))
    && (forall id :: id in rows && rows[id].claimedBy.Some? ==> Head(rows, id))
  }

  ghost predicate Possession(c: Config, s: State) {
    && Locked(s.rows, s.locks, s.open)
    && Live(s.open, s.held, c.maxAttempts)
    && Tokens(s.rows, s.nextToken, s.picks, s.held)
    && Counted(s.rows, s.held)
  }

  ghost predicate History(c: Config, s: State) {
    && Accounted(s.nextId, s.rows.Keys, s.runs, s.gone)
    && AllEndedWell(c, s.gone)
    && OldestFirst(s.rows, s.gone)
    && RunsInOrder(s.gone)
    && HeadsOnly(s.rows, s.picks, s.nextId)
  }

  ghost predicate Core(c: Config, s: State) { Possession(c, s) && History(c, s) }

  // ---- every step keeps it ----

  /** The same rows under the same keys, possibly with other leases, attempts and payloads. */
  ghost predicate SameShape(rows: map<Id, Row>, rows': map<Id, Row>) {
    rows'.Keys == rows.Keys && forall id :: id in rows ==> rows'[id].key == rows[id].key
  }

  lemma ReshapeHistory(c: Config, s: State, s': State)
    requires History(c, s) && SameShape(s.rows, s'.rows)
    requires s'.nextId == s.nextId && s'.runs == s.runs && s'.gone == s.gone
    requires forall id :: id in s'.rows && s'.rows[id].claimedBy.Some? ==> Head(s.rows, id)
    requires forall t :: t in s'.picks ==> t in s.picks && s'.picks[t] == s.picks[t]
    ensures History(c, s')
  {
    forall id | id in s.rows && Head(s.rows, id) ensures Head(s'.rows, id) {}
    forall t | t in s'.picks ensures StillHeads(s'.rows, s'.picks[t], s'.nextId) {
      assert StillHeads(s.rows, s.picks[t], s.nextId);
    }
  }

  ghost predicate SameClaims(rows: map<Id, Row>, rows': map<Id, Row>) {
    rows'.Keys == rows.Keys
    && forall id :: id in rows ==> rows'[id].claimedBy == rows[id].claimedBy && rows'[id].attempts == rows[id].attempts
  }

  lemma ReshapePossession(c: Config, s: State, s': State)
    requires Possession(c, s) && SameClaims(s.rows, s'.rows)
    requires s' == s.(rows := s'.rows, log := s'.log)
    ensures Possession(c, s')
  {
  }

  lemma KeepAbsorb(c: Config, s: State, ev: Event, id: Id)
    requires Core(c, s) && CanAbsorb(c, s, ev, id)
    ensures Core(c, ApplyEnqueue(s, ev, Some(id)))
  {
    var s' := ApplyEnqueue(s, ev, Some(id));
    ReshapeHistory(c, s, s');
    ReshapePossession(c, s, s');
  }

  lemma InsertPossession(c: Config, s: State, ev: Event)
    requires Possession(c, s) && s.nextId !in s.rows
    ensures Possession(c, ApplyEnqueue(s, ev, None))
  {
    var s' := ApplyEnqueue(s, ev, None);
    forall u | u in s'.open ensures Running(s'.rows, s'.locks, u, s'.open[u]) {
      assert Running(s.rows, s.locks, u, s.open[u]);
    }
    forall u | u in s'.held ensures CountedFor(s'.rows, u, s'.held[u]) {
      assert CountedFor(s.rows, u, s.held[u]);
    }
  }

  lemma InsertHistory(c: Config, s: State, ev: Event)
    requires History(c, s)
    ensures History(c, ApplyEnqueue(s, ev, None))
  {
    var s' := ApplyEnqueue(s, ev, None);
    forall id | id in s.rows && Head(s.rows, id) ensures Head(s'.rows, id) {}
    forall t | t in s'.picks ensures StillHeads(s'.rows, s'.picks[t], s'.nextId) {
      assert StillHeads(s.rows, s.picks[t], s.nextId);
    }
  }

  lemma KeepInsert(c: Config, s: State, ev: Event)
    requires Core(c, s)
    ensures Core(c, ApplyEnqueue(s, ev, None))
  {
    InsertPossession(c, s, ev);
    InsertHistory(c, s, ev);
  }

  lemma TakeLocked(s: State, t: Token, until: nat)
    requires Locked(s.rows, s.locks, s.open) && t in s.picks
    ensures Locked(TakeRows(s.rows, Taken(s, t), t, until), s.locks, s.open)
  {
    forall u | u in s.open ensures Running(TakeRows(s.rows, Taken(s, t), t, until), s.locks, u, s.open[u]) {
      assert Running(s.rows, s.locks, u, s.open[u]);
    }
  }

  lemma TakeCounted(rows: map<Id, Row>, held: map<Token, map<Id, nat>>, taken: set<Id>, t: Token, until: nat)
    requires Counted(rows, held) && t !in held
    ensures Counted(TakeRows(rows, taken, t, until), held)
    ensures Counted(TakeRows(rows, taken, t, until), held[t := Copies(rows, taken)])
  {
    var rows' := TakeRows(rows, taken, t, until);
    forall u | u in held ensures CountedFor(rows', u, held[u]) {
      assert CountedFor(rows, u, held[u]);
    }
    forall id | id in rows && rows[id].claimedBy == Some(t) && id !in taken ensures CountedFor(rows', t, Copies(rows, taken)) {}
  }

  lemma TakeTokens(rows: map<Id, Row>, nextToken: Token, picks: map<Token, set<Id>>, held: map<Token, map<Id, nat>>,
                   taken: set<Id>, t: Token, until: nat)
    requires Tokens(rows, nextToken, picks, held) && t in picks
    ensures Tokens(TakeRows(rows, taken, t, until), nextToken, picks - {t}, held)
    ensures Tokens(TakeRows(rows, taken, t, until), nextToken, picks - {t}, held[t := Copies(rows, taken)])
  {
  }

  lemma TakeLive(s: State, t: Token, copies: map<Id, nat>, maxAttempts: nat)
    requires Live(s.open, s.held, maxAttempts) && t !in s.held
    ensures Live(s.open, s.held[t := copies], maxAttempts)
  {
  }

  lemma TakeKeepsPossession(c: Config, s: State, t: Token)
    requires Possession(c, s) && t in s.picks
    ensures Possession(c, ApplyTake(c, s, t))
  {
    var taken, until, s' := Taken(s, t), s.now + c.leaseMs, ApplyTake(c, s, t);
    assert t !in s.held;
    assert s' == s.(rows := TakeRows(s.rows, taken, t, until), picks := s'.picks, held := s'.held);
    assert s'.picks == s.picks - {t} && (s'.held == s.held || s'.held == s.held[t := Copies(s.rows, taken)]);
    hide Locked, Counted, Tokens, TakeRows, Taken, Copies, Live, ApplyTake;
    TakeLocked(s, t, until);
    TakeCounted(s.rows, s.held, taken, t, until);
    TakeTokens(s.rows, s.nextToken, s.picks, s.held, taken, t, until);
    TakeLive(s, t, Copies(s.rows, taken), c.maxAttempts);
  }

  lemma TakeKeepsHistory(c: Config, s: State, t: Token)
    requires History(c, s) && t in s.picks
    ensures History(c, ApplyTake(c, s, t))
  {
    var s' := ApplyTake(c, s, t);
    assert StillHeads(s.rows, s.picks[t], s.nextId);
    forall id | id in s'.rows && s'.rows[id].claimedBy.Some? ensures Head(s.rows, id) {}
    hide Head, HeadsOnly, History;
    ReshapeHistory(c, s, s');
  }

  lemma KeepTake(c: Config, s: State, t: Token)
    requires Core(c, s) && t in s.picks
    ensures Core(c, ApplyTake(c, s, t))
  {
    hide Possession, History, ApplyTake;
    TakeKeepsPossession(c, s, t);
    TakeKeepsHistory(c, s, t);
  }

  lemma KeepHeartbeat(c: Config, s: State, ts: set<Token>)
    requires Core(c, s)
    ensures Core(c, ApplyHeartbeat(c, s, ts))
  {
    ReshapeHistory(c, s, ApplyHeartbeat(c, s, ts));
    ReshapePossession(c, s, ApplyHeartbeat(c, s, ts));
  }

  lemma KeepOpen(c: Config, s: State, t: Token, live: set<Id>, locked: set<Id>)
    requires Core(c, s) && t in s.held && t !in s.open && live <= locked <= s.rows.Keys
    requires forall id :: id in live ==> MineNow(s, t, id) && id in s.held[t] && s.held[t][id] <= c.maxAttempts
    requires forall id :: id in locked ==> id !in s.locks
    ensures Core(c, s.(open := s.open[t := live], locks := s.locks + LockAll(locked, t)))
  {
    hide Tokens, Counted, Accounted, AllEndedWell, OldestFirst, RunsInOrder, HeadsOnly;
    var locks', open' := s.locks + LockAll(locked, t), s.open[t := live];
    forall u | u in open' ensures Running(s.rows, locks', u, open'[u]) {
      if u != t { assert Running(s.rows, s.locks, u, s.open[u]); }
    }
  }

  lemma KeepBegin(c: Config, s: State, t: Token, ids: set<Id>)
    requires Core(c, s) && Enabled(c, s, Begin(t, ids))
    ensures Core(c, ApplyBegin(s, t, ids))
  {
    var live := Mine(s, t, ids);
    if live != {} { KeepOpen(c, s, t, live, ids * s.rows.Keys); }
  }

  /** Rows that leave the queue as they are, each a head of its key and no two of one key. */
  ghost predicate Departing(rows: map<Id, Row>, endings: map<Id, Gone>) {
    forall id :: id in endings ==> id in rows && Head(rows, id) && endings[id].row == rows[id]
  }

  lemma RetireOldestFirst(rows: map<Id, Row>, gone: map<Id, Gone>, endings: map<Id, Gone>)
    requires OldestFirst(rows, gone) && Departing(rows, endings)
    ensures OldestFirst(rows - endings.Keys, gone + endings)
  {
  }

  lemma RetireRuns(rows: map<Id, Row>, gone: map<Id, Gone>, endings: map<Id, Gone>, n: nat)
    requires OldestFirst(rows, gone) && RunsInOrder(gone) && Departing(rows, endings)
    requires forall id :: id in gone && gone[id].how.Ran? ==> gone[id].how.pos < n
    requires forall id :: id in endings && endings[id].how.Ran? ==> n <= endings[id].how.pos
    ensures RunsInOrder(gone + endings)
  {
  }

  lemma RetireHeads(rows: map<Id, Row>, picks: map<Token, set<Id>>, nextId: Id, out: set<Id>)
    requires HeadsOnly(rows, picks, nextId)
    ensures HeadsOnly(rows - out, picks, nextId)
  {
    forall id | id in rows - out && Head(rows, id) ensures Head(rows - out, id) {}
    forall t | t in picks ensures StillHeads(rows - out, picks[t], nextId) {
      assert StillHeads(rows, picks[t], nextId);
    }
  }

  lemma RetireHistory(c: Config, s: State, endings: map<Id, Gone>, order: seq<Id>)
    requires History(c, s) && Departing(s.rows, endings)
    requires forall id :: id in endings && endings[id].how.Ran? ==> |s.runs| <= endings[id].how.pos
    requires var s' := Retire(s, endings, order); Accounted(s'.nextId, s'.rows.Keys, s'.runs, s'.gone) && AllEndedWell(c, s'.gone)
    ensures History(c, Retire(s, endings, order))
  {
    RetireRuns(s.rows, s.gone, endings, |s.runs|);
    hide Accounted, AllEndedWell, RunsInOrder;
    RetireOldestFirst(s.rows, s.gone, endings);
    RetireHeads(s.rows, s.picks, s.nextId, endings.Keys);
    hide OldestFirst, HeadsOnly, Departing;
  }

  lemma RetirePossession(c: Config, s: State, endings: map<Id, Gone>, order: seq<Id>)
    requires Possession(c, s) && forall id :: id in endings ==> id !in s.locks
    ensures Possession(c, Retire(s, endings, order))
  {
    var rows' := s.rows - endings.Keys;
    assert Retire(s, endings, order).rows == rows';
    hide Live;
    forall u | u in s.open ensures Running(rows', s.locks, u, s.open[u]) {
      assert Running(s.rows, s.locks, u, s.open[u]);
    }
    forall u | u in s.held ensures CountedFor(rows', u, s.held[u]) {
      assert CountedFor(s.rows, u, s.held[u]);
    }
  }

  lemma AppendRuns(nextId: Id, rows: map<Id, Row>, runs: seq<Id>, gone: map<Id, Gone>, order: seq<Id>, t: Token)
    requires Accounted(nextId, rows.Keys, runs, gone)
    requires Distinct(order) && forall id :: id in order ==> id in rows
    ensures var out := Leave(rows, |runs|, order, t); Accounted(nextId, (rows - out.Keys).Keys, runs + order, gone + out)
  {
    var runs' := runs + order;
    var gone' := gone + Leave(rows, |runs|, order, t);
    forall i | 0 <= i < |runs'| ensures runs'[i] in gone' && gone'[runs'[i]].how.Ran? && gone'[runs'[i]].how.pos == i {
      if |runs| <= i {
        assert IndexOf(order, order[i - |runs|]) == i - |runs|;
      } else {
        assert runs[i] in gone;
      }
    }
  }

  lemma ReleaseLocked(rows: map<Id, Row>, locks: map<Id, Token>, open: map<Token, set<Id>>, ts: set<Token>)
    requires Locked(rows, locks, open)
    ensures Locked(rows, Unlock(locks, ts), open - ts)
  {
    forall u | u in open - ts ensures Running(rows, Unlock(locks, ts), u, open[u]) {
      assert Running(rows, locks, u, open[u]);
    }
  }

  /** Ending transactions (open - ts, their locks) and forgetting claims (held - us, picks - us) loses nothing. */
  lemma KeepRelease(c: Config, s: State, ts: set<Token>, us: set<Token>)
    requires Core(c, s) && us <= ts
    ensures Core(c, Release(s, ts).(held := s.held - us, picks := s.picks - us))
  {
    ReleaseLocked(s.rows, s.locks, s.open, ts);
    hide Locked, Unlock, Accounted, AllEndedWell, OldestFirst, RunsInOrder, Head;
  }

  lemma CommitOut(c: Config, s: State, t: Token, order: seq<Id>)
    requires Core(c, s) && Enabled(c, s, Commit(t, order))
    ensures var out := Leave(s.rows, |s.runs|, order, t);
      && out.Keys == s.open[t] && Departing(s.rows, out)
      && (forall id :: id in out ==> out[id].how.Ran? && |s.runs| <= out[id].how.pos && id !in Release(s, {t}).locks)
  {
    hide Accounted, OldestFirst, RunsInOrder, Head, Tokens, Live, Counted, AllEndedWell;
    assert Running(s.rows, s.locks, t, s.open[t]);
  }

  lemma CommitEndedWell(c: Config, s: State, t: Token, order: seq<Id>)
    requires Core(c, s) && Enabled(c, s, Commit(t, order))
    ensures AllEndedWell(c, s.gone + Leave(s.rows, |s.runs|, order, t))
  {
    hide Accounted, OldestFirst, RunsInOrder, HeadsOnly, Tokens;
    assert Running(s.rows, s.locks, t, s.open[t]) && CountedFor(s.rows, t, s.held[t]);
  }

  lemma CommitAccounted(c: Config, s: State, t: Token, order: seq<Id>)
    requires Core(c, s) && Enabled(c, s, Commit(t, order))
    ensures var s' := ApplyCommit(s, t, order); Accounted(s'.nextId, s'.rows.Keys, s'.runs, s'.gone)
  {
    assert forall id :: id in order ==> id in s.rows by { assert Running(s.rows, s.locks, t, s.open[t]); }
    AppendRuns(s.nextId, s.rows, s.runs, s.gone, order, t);
    hide Accounted, Possession, AllEndedWell, OldestFirst, RunsInOrder, HeadsOnly, Leave;
  }

  lemma KeepCommit(c: Config, s: State, t: Token, order: seq<Id>)
    requires Core(c, s) && Enabled(c, s, Commit(t, order))
    ensures Core(c, ApplyCommit(s, t, order))
  {
    var s1, out := Release(s, {t}), Leave(s.rows, |s.runs|, order, t);
    CommitOut(c, s, t, order);
    CommitEndedWell(c, s, t, order);
    CommitAccounted(c, s, t, order);
    assert s1.rows == s.rows && s1.gone == s.gone && s1.runs == s.runs && s1.nextId == s.nextId;
    assert s1.(held := s.held - {}, picks := s.picks - {}) == s1;
    assert ApplyCommit(s, t, order) == Retire(s1, out, order);
    hide Accounted, AllEndedWell, Possession, History, Release, Leave, Departing, ApplyCommit, Enabled;
    KeepRelease(c, s, {t}, {});
    RetireHistory(c, s1, out, order);
    RetirePossession(c, s1, out, order);
  }

  lemma KeepBury(c: Config, s: State, t: Token, id: Id, why: Reason)
    requires Core(c, s) && id !in s.locks
    requires MineNow(s, t, id) ==> EndedWell(c, Gone(s.rows[id], Dead(why)))
    ensures Core(c, DeadLetter(s, t, id, why))
  {
    if MineNow(s, t, id) {
      var out := map[id := Gone(s.rows[id], Dead(why))];
      assert DeadLetter(s, t, id, why) == Retire(s, out, []);
      BuryOut(c, s, id, out[id]);
      hide Accounted, AllEndedWell, Departing, Possession, History, DeadLetter, EndedWell, Head, Retire;
      RetireHistory(c, s, out, []);
      RetirePossession(c, s, out, []);
    }
  }

  lemma BuryOut(c: Config, s: State, id: Id, g: Gone)
    requires History(c, s) && id in s.rows && s.rows[id].claimedBy.Some?
    requires g.row == s.rows[id] && g.how.Dead? && EndedWell(c, g)
    ensures Departing(s.rows, map[id := g])
    ensures var s' := Retire(s, map[id := g], []);
      Accounted(s'.nextId, s'.rows.Keys, s'.runs, s'.gone) && AllEndedWell(c, s'.gone)
  {
    BuryAccounted(s, id, g);
    hide Accounted, OldestFirst, RunsInOrder, EndedWell, Head;
  }

  lemma BuryAccounted(s: State, id: Id, g: Gone)
    requires Accounted(s.nextId, s.rows.Keys, s.runs, s.gone) && id in s.rows && g.how.Dead?
    ensures var s' := Retire(s, map[id := g], []); Accounted(s'.nextId, s'.rows.Keys, s'.runs, s'.gone)
  {
    assert s.runs + [] == s.runs;
  }

  lemma KeepBackoff(c: Config, s: State, id: Id, until: nat)
    requires Core(c, s) && id in s.rows && id !in s.locks
    ensures Core(c, s.(rows := s.rows[id := Released(s.rows[id], until)]))
  {
    var s' := s.(rows := s.rows[id := Released(s.rows[id], until)]);
    assert forall i :: i in s'.rows && s'.rows[i].claimedBy.Some? ==> Head(s.rows, i);
    assert History(c, s') by {
      hide Possession, Accounted, AllEndedWell, OldestFirst, RunsInOrder, Head, HeadsOnly, History;
      ReshapeHistory(c, s, s');
    }
    BackoffPossession(c, s, id, until);
  }

  lemma BackoffPossession(c: Config, s: State, id: Id, until: nat)
    requires Possession(c, s) && id in s.rows && id !in s.locks
    ensures Possession(c, s.(rows := s.rows[id := Released(s.rows[id], until)]))
  {
    var rows' := s.rows[id := Released(s.rows[id], until)];
    hide Live;
    forall u | u in s.open ensures Running(rows', s.locks, u, s.open[u]) {
      assert Running(s.rows, s.locks, u, s.open[u]);
    }
    forall u | u in s.held ensures CountedFor(rows', u, s.held[u]) {
      assert CountedFor(s.rows, u, s.held[u]);
    }
  }

  lemma KeepPick(c: Config, s: State, ids: set<Id>)
    requires Core(c, s) && Enabled(c, s, Pick(ids))
    ensures Core(c, Apply(c, s, Pick(ids)))
  {
  }

  lemma KeepFail(c: Config, s: State, t: Token, id: Id, att: nat)
    requires Core(c, s) && id !in s.locks && att <= c.maxAttempts
    requires MineNow(s, t, id) ==> s.rows[id].attempts == att
    ensures Core(c, ApplyFail(c, s, t, id, att))
  {
    hide Core;
    if att >= c.maxAttempts {
      KeepBury(c, s, t, id, Failed);
    } else if MineNow(s, t, id) {
      KeepBackoff(c, s, id, s.now + Backoff(c, att));
    }
  }

  lemma KeepGivingUp(c: Config, s: State, e: Step)
    requires Core(c, s) && Enabled(c, s, e) && (e.Fail? || e.Reject? || e.Exhaust?)
    ensures Core(c, Apply(c, s, e))
  {
    assert CountedFor(s.rows, e.token, s.held[e.token]);
    assert MineNow(s, e.token, e.id) ==> 1 <= s.rows[e.id].attempts == s.held[e.token][e.id];
    hide Core, Head;
    match e
    case Fail(t, id) => KeepFail(c, s, t, id, s.held[t][id]);
    case Reject(t, id) => KeepBury(c, s, t, id, Rejected);
    case Exhaust(t, id) => KeepBury(c, s, t, id, Exhausted);
  }

  lemma KeepDrop(c: Config, s: State, t: Token)
    requires Core(c, s) && t !in s.open
    ensures Core(c, s.(held := s.held - {t}))
  {
    hide Locked, Accounted, AllEndedWell, OldestFirst, RunsInOrder, HeadsOnly, CountedFor;
  }

  /** Every step of every producer and worker keeps the invariant. */
  lemma KeepCore(c: Config, s: State, e: Step)
    requires Core(c, s) && Enabled(c, s, e)
    ensures Core(c, Apply(c, s, e))
  {
    hide Core, Head, ApplyTake, ApplyBegin, ApplyCommit, ApplyHeartbeat, ApplyEnqueue;
    match e
    case Enqueue(ev, into) => if into.Some? { KeepAbsorb(c, s, ev, into.value); } else { KeepInsert(c, s, ev); }
    case Pick(ids) => KeepPick(c, s, ids);
    case Take(t) => KeepTake(c, s, t);
    case Heartbeat(ts) => KeepHeartbeat(c, s, ts);
    case Begin(t, ids) => KeepBegin(c, s, t, ids);
    case Commit(t, order) => KeepCommit(c, s, t, order);
    case Abort(t) =>
      KeepRelease(c, s, {t}, {});
      assert Release(s, {t}).(held := s.held - {}, picks := s.picks - {}) == Release(s, {t});
    case Fail(_, _) => KeepGivingUp(c, s, e);
    case Reject(_, _) => KeepGivingUp(c, s, e);
    case Exhaust(_, _) => KeepGivingUp(c, s, e);
    case Drop(t) => KeepDrop(c, s, t);
    case Kill(ts) => KeepRelease(c, s, ts, ts);
    case Tick(ms) => KeepTick(c, s, ms);
  }

  lemma KeepTick(c: Config, s: State, ms: nat)
    requires Core(c, s)
    ensures Core(c, s.(now := s.now + ms))
  {
    hide Locked, Live, Tokens, Counted, Accounted, AllEndedWell, OldestFirst, RunsInOrder, HeadsOnly;
  }
}
