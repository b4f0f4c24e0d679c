/** Enqueue-time coalescing (backend/src/infra/intakeQueue.js): what a stored row says about the events it
  * stands for, and that running one payload per row means the same as running every event.
  */
module Coalescing {
  import opened Common
  import opened IntakeQueue

  /** The alarm ids the events carry, oldest first. */
  function AlarmIds(evs: seq<Event>): seq<nat> {
    if evs == [] then []
    else AlarmIds(evs[..|evs| - 1]) + (if evs[|evs| - 1].alarm.Some? then [evs[|evs| - 1].alarm.value] else [])
  }

  /** The payload is the newest absorbed event and the alarm ids of all the earlier ones, and everything a row
    * absorbed has its order key and its state. */
  ghost predicate RowFaithful(r: Row) {
    && |r.absorbed| > 0
    && r.payload.latest == r.absorbed[|r.absorbed| - 1]
    && r.payload.coalescedIds == AlarmIds(r.absorbed[..|r.absorbed| - 1])
    && (forall i :: 0 <= i < |r.absorbed| ==> r.absorbed[i].key == r.key && r.absorbed[i].coalesceKey == r.coalesceKey)
    && (|r.absorbed| > 1 ==> r.key.Some? && r.coalesceKey.Some?)
  }

  ghost predicate Covers(rows: map<Id, Row>, gone: map<Id, Gone>, n: Id) {
    forall id :: 0 <= id < n ==> id in rows || id in gone
  }

  ghost function Item(rows: map<Id, Row>, gone: map<Id, Gone>, id: Id): Row
    requires id in rows || id in gone
  {
    if id in rows then rows[id] else gone[id].row
  }

  function Part(r: Row, key: Option<string>): seq<Event> { if r.key == key then r.absorbed else [] }

  /** Everything the items below n of one order key stand for, oldest item first. */
  ghost function Collected(rows: map<Id, Row>, gone: map<Id, Gone>, key: Option<string>, n: Id): seq<Event>
    requires Covers(rows, gone, n)
  {
    if n == 0 then []
    else Collected(rows, gone, key, n - 1) + Part(Item(rows, gone, n - 1), key)
  }

  function OfKey(key: Option<string>): Event -> bool { (ev: Event) => ev.key == key }

  ghost predicate RowsFaithful(rows: map<Id, Row>, gone: map<Id, Gone>) {
    && (forall id :: id in rows ==> RowFaithful(rows[id]))
    && (forall id :: id in gone ==> RowFaithful(gone[id].row))
  }

  ghost predicate LogKept(nextId: Id, rows: map<Id, Row>, gone: map<Id, Gone>, log: seq<Event>) {
    && Covers(rows, gone, nextId)
    && forall key :: Collected(rows, gone, key, nextId) == Filter(OfKey(key), log)
  }

  /** No accepted event is lost or reordered within its key, whatever was coalesced. */
  ghost predicate Faithful(s: State) {
    RowsFaithful(s.rows, s.gone) && LogKept(s.nextId, s.rows, s.gone, s.log)
  }

  ghost predicate Inv(c: Config, s: State) { Core(c, s) && Faithful(s) }

  // ---- every step keeps it ----

  ghost predicate SameContent(a: Row, b: Row) {
    a.key == b.key && a.coalesceKey == b.coalesceKey && a.payload == b.payload && a.absorbed == b.absorbed
  }

  /** Claims, leases, retries and departures move rows about but never touch what they stand for. */
  ghost predicate SameItems(rows: map<Id, Row>, gone: map<Id, Gone>, rows': map<Id, Row>, gone': map<Id, Gone>) {
    && (forall id :: id in rows || id in gone <==> id in rows' || id in gone')
    && (forall id :: id in rows || id in gone ==> SameContent(Item(rows, gone, id), Item(rows', gone', id)))
  }

  lemma {:induction false} SameCollected(rows: map<Id, Row>, gone: map<Id, Gone>, rows': map<Id, Row>, gone': map<Id, Gone>,
                                         key: Option<string>, n: Id)
    requires Covers(rows, gone, n) && SameItems(rows, gone, rows', gone')
    ensures Covers(rows', gone', n) && Collected(rows', gone', key, n) == Collected(rows, gone, key, n)
  {
    if n > 0 {
      SameCollected(rows, gone, rows', gone', key, n - 1);
      assert SameContent(Item(rows, gone, n - 1), Item(rows', gone', n - 1));
    }
  }

  lemma KeepRowsFaithful(rows: map<Id, Row>, gone: map<Id, Gone>, rows': map<Id, Row>, gone': map<Id, Gone>)
    requires RowsFaithful(rows, gone) && SameItems(rows, gone, rows', gone') && gone'.Keys !! rows'.Keys
    ensures RowsFaithful(rows', gone')
  {
    forall id | id in rows' || id in gone' ensures RowFaithful(Item(rows', gone', id)) {
      assert SameContent(Item(rows, gone, id), Item(rows', gone', id));
      assert RowFaithful(Item(rows, gone, id));
    }
  }

  lemma KeepFaithfulItems(s: State, s': State)
    requires Faithful(s) && SameItems(s.rows, s.gone, s'.rows, s'.gone) && s'.nextId == s.nextId && s'.log == s.log
    requires s'.gone.Keys !! s'.rows.Keys
    ensures Faithful(s')
  {
    KeepRowsFaithful(s.rows, s.gone, s'.rows, s'.gone);
    hide RowsFaithful, SameItems;
    forall key ensures Covers(s'.rows, s'.gone, s'.nextId) && Collected(s'.rows, s'.gone, key, s'.nextId) == Filter(OfKey(key), s'.log) {
      SameCollected(s.rows, s.gone, s'.rows, s'.gone, key, s.nextId);
    }
  }

  lemma {:induction false} CollectedBefore(rows: map<Id, Row>, gone: map<Id, Gone>, id: Id, r: Row, key: Option<string>, n: Id)
    requires Covers(rows, gone, n) && n <= id
    ensures Collected(rows[id := r], gone, key, n) == Collected(rows, gone, key, n)
  {
    if n > 0 { CollectedBefore(rows, gone, id, r, key, n - 1); }
  }

  lemma InsertLogKept(nextId: Id, rows: map<Id, Row>, gone: map<Id, Gone>, log: seq<Event>, r: Row, ev: Event)
    requires LogKept(nextId, rows, gone, log) && nextId !in gone && r.key == ev.key && r.absorbed == [ev]
    ensures LogKept(nextId + 1, rows[nextId := r], gone, log + [ev])
  {
    var rows' := rows[nextId := r];
    forall key ensures Covers(rows', gone, nextId + 1)
      && Collected(rows', gone, key, nextId + 1) == Filter(OfKey(key), log + [ev]) {
      CollectedBefore(rows, gone, nextId, r, key, nextId);
      FilterAppend(OfKey(key), log, ev);
    }
  }

  /** Ids handed out are below the next one, and what left the queue is older than what is in it. */
  lemma Ids(c: Config, s: State)
    requires Core(c, s)
    ensures (forall id :: id in s.rows || id in s.gone ==> id < s.nextId) && OldestFirst(s.rows, s.gone)
  {
    hide Possession, AllEndedWell, RunsInOrder, HeadsOnly, OldestFirst;
  }

  lemma InsertRowsFaithful(rows: map<Id, Row>, gone: map<Id, Gone>, id: Id, r: Row, ev: Event)
    requires RowsFaithful(rows, gone) && r.key == ev.key && r.coalesceKey == ev.coalesceKey && r.payload == Payload(ev, []) && r.absorbed == [ev]
    ensures RowsFaithful(rows[id := r], gone)
  {
    assert r.absorbed[..0] == [];
    assert RowFaithful(r);
    hide RowFaithful;
  }

  lemma KeepFaithfulInsert(c: Config, s: State, ev: Event)
    requires Core(c, s) && Faithful(s)
    ensures Faithful(ApplyEnqueue(s, ev, None))
  {
    var s' := ApplyEnqueue(s, ev, None);
    var r := Row(ev.key, ev.coalesceKey, Payload(ev, []), [ev], 0, s.now, None);
    assert s' == s.(rows := s.rows[s.nextId := r], nextId := s.nextId + 1, log := s.log + [ev]);
    hide Core, ApplyEnqueue, LogKept, RowsFaithful, OldestFirst;
    Ids(c, s);
    InsertLogKept(s.nextId, s.rows, s.gone, s.log, r, ev);
    InsertRowsFaithful(s.rows, s.gone, s.nextId, r, ev);
  }

  /** The absorbing row is the youngest item of its key, so the event lands at the end of what the key collected. */
  lemma {:induction false} CollectedAbsorb(rows: map<Id, Row>, gone: map<Id, Gone>, id: Id, ev: Event, key: Option<string>, n: Id)
    requires Covers(rows, gone, n) && id in rows && id < n && rows[id].key == ev.key
    requires forall j :: id < j < n ==> Item(rows, gone, j).key != ev.key
    ensures Collected(rows[id := Absorb(rows[id], ev)], gone, key, n)
         == Collected(rows, gone, key, n) + (if key == ev.key then [ev] else [])
  {
    var r := Absorb(rows[id], ev);
    assert r.key == ev.key && r.absorbed == rows[id].absorbed + [ev];
    var rows' := rows[id := r];
    hide Absorb;
    if n - 1 == id {
      CollectedBefore(rows, gone, id, r, key, id);
      hide Collected, Covers;
      Rejoin(Collected(rows, gone, key, id), rows[id].absorbed, [ev]);
      LastPart(rows, gone, key, n);
      LastPart(rows', gone, key, n);
    } else {
      CollectedAbsorb(rows, gone, id, ev, key, n - 1);
      LastPart(rows, gone, key, n);
      LastPart(rows', gone, key, n);
      assert Item(rows', gone, n - 1) == Item(rows, gone, n - 1);
      hide Collected, Covers;
      if key == ev.key { Rejoin(Collected(rows, gone, key, n - 1), [], [ev]); }
    }
  }

  lemma Rejoin(a: seq<Event>, b: seq<Event>, c: seq<Event>)
    ensures a + (b + c) == (a + b) + c && a + [] == a && [] + c == c && (a + c) + [] == a + c
  {
  }

  lemma LastPart(rows: map<Id, Row>, gone: map<Id, Gone>, key: Option<string>, n: Id)
    requires Covers(rows, gone, n) && n > 0
    ensures Covers(rows, gone, n - 1) && Collected(rows, gone, key, n) == Collected(rows, gone, key, n - 1) + Part(Item(rows, gone, n - 1), key)
  {
  }

  lemma AbsorbRowFaithful(r: Row, ev: Event)
    requires RowFaithful(r) && ev.key == r.key && ev.coalesceKey == r.coalesceKey && ev.key.Some? && ev.coalesceKey.Some?
    ensures RowFaithful(Absorb(r, ev))
  {
    var r' := Absorb(r, ev);
    assert r'.absorbed[..|r'.absorbed| - 1] == r.absorbed;
  }

  lemma AbsorbLogKept(nextId: Id, rows: map<Id, Row>, gone: map<Id, Gone>, log: seq<Event>, id: Id, ev: Event)
    requires LogKept(nextId, rows, gone, log) && id in rows && id < nextId && rows[id].key == ev.key
    requires forall j :: id < j < nextId ==> Item(rows, gone, j).key != ev.key
    ensures LogKept(nextId, rows[id := Absorb(rows[id], ev)], gone, log + [ev])
  {
    var rows' := rows[id := Absorb(rows[id], ev)];
    forall key ensures Covers(rows', gone, nextId) && Collected(rows', gone, key, nextId) == Filter(OfKey(key), log + [ev]) {
      CollectedAbsorb(rows, gone, id, ev, key, nextId);
      FilterAppend(OfKey(key), log, ev);
    }
  }

  lemma KeepFaithfulAbsorb(c: Config, s: State, ev: Event, id: Id)
    requires Core(c, s) && Faithful(s) && CanAbsorb(c, s, ev, id)
    ensures Faithful(ApplyEnqueue(s, ev, Some(id)))
  {
    Ids(c, s);
    hide Core;
    AbsorberIsLast(c, s, ev, id);
    AbsorbRowFaithful(s.rows[id], ev);
    hide CanAbsorb, RowFaithful, LogKept, OldestFirst;
    AbsorbLogKept(s.nextId, s.rows, s.gone, s.log, id, ev);
  }

  /** No item of the key is younger than the row that absorbs. */
  lemma AbsorberIsLast(c: Config, s: State, ev: Event, id: Id)
    requires CanAbsorb(c, s, ev, id) && OldestFirst(s.rows, s.gone) && Covers(s.rows, s.gone, s.nextId)
    ensures forall j :: id < j < s.nextId ==> Item(s.rows, s.gone, j).key != ev.key
  {
    forall j | id < j < s.nextId ensures Item(s.rows, s.gone, j).key != ev.key {
      assert j in s.gone ==> (SameKey(s.gone[j].row, s.rows[id]) ==> j < id);
    }
  }

  /** Items leave with the row they had. */
  lemma LeaveItems(rows: map<Id, Row>, gone: map<Id, Gone>, out: map<Id, Gone>)
    requires forall id :: id in out ==> id in rows && out[id].row == rows[id]
    requires gone.Keys !! rows.Keys
    ensures SameItems(rows, gone, rows - out.Keys, gone + out)
  {
  }

  ghost predicate SameStory(s: State, s': State) {
    SameItems(s.rows, s.gone, s'.rows, s'.gone) && s'.nextId == s.nextId && s'.log == s.log
  }

  lemma SameRows(s: State, s': State)
    requires s'.gone == s.gone && s'.nextId == s.nextId && s'.log == s.log && s'.rows.Keys == s.rows.Keys
    requires forall id :: id in s.rows ==> SameContent(s.rows[id], s'.rows[id])
    ensures SameStory(s, s')
  {
  }

  lemma BuryItems(s: State, t: Token, id: Id, why: Reason)
    requires s.gone.Keys !! s.rows.Keys
    ensures SameStory(s, DeadLetter(s, t, id, why))
  {
    if MineNow(s, t, id) {
      hide SameItems;
      LeaveItems(s.rows, s.gone, map[id := Gone(s.rows[id], Dead(why))]);
    }
  }

  lemma CommitItems(s: State, t: Token, order: seq<Id>)
    requires s.gone.Keys !! s.rows.Keys
    ensures SameStory(s, ApplyCommit(s, t, order))
  {
    hide SameItems, Unlock;
    LeaveItems(s.rows, s.gone, Leave(s.rows, |s.runs|, order, t));
  }

  lemma StepItems(c: Config, s: State, e: Step)
    requires s.gone.Keys !! s.rows.Keys && Enabled(c, s, e) && !e.Enqueue?
    ensures SameStory(s, Apply(c, s, e))
  {
    hide SameStory, Head, Claimable, CanAbsorb, ApplyCommit, DeadLetter, Unlock, Taken;
    if e.Commit? {
      CommitItems(s, e.token, e.order);
    } else if e.Reject? || e.Exhaust? {
      BuryItems(s, e.token, e.id, if e.Reject? then Rejected else Exhausted);
    } else if e.Fail? && s.held[e.token][e.id] >= c.maxAttempts {
      BuryItems(s, e.token, e.id, Failed);
    } else {
      SameRows(s, Apply(c, s, e));
    }
  }

  /** Every step keeps both halves of the queue's invariant. */
  lemma KeepInv(c: Config, s: State, e: Step)
    requires Inv(c, s) && Enabled(c, s, e)
    ensures Inv(c, Apply(c, s, e))
  {
    KeepCore(c, s, e);
    if e.Enqueue? {
      if e.into.Some? { KeepFaithfulAbsorb(c, s, e.ev, e.into.value); } else { KeepFaithfulInsert(c, s, e.ev); }
    } else {
      assert s.gone.Keys !! s.rows.Keys by { hide Possession, AllEndedWell, OldestFirst, RunsInOrder, HeadsOnly, Faithful; }
      StepItems(c, s, e);
      assert Apply(c, s, e).gone.Keys !! Apply(c, s, e).rows.Keys by { hide Apply, Possession, AllEndedWell, OldestFirst, RunsInOrder, HeadsOnly; }
      hide Core, Apply, Faithful, SameItems, Enabled;
      KeepFaithfulItems(s, Apply(c, s, e));
    }
  }
}
