/** Running one payload per queue item means the same as running every submitted event. */
module QueueMeaning {
  import opened Common
  import opened IntakeQueue
  import opened Coalescing
  import opened QueueRuns

  /** What a tag's state becomes when a handler sees the events one after the other. */
  function Play<S>(handle: (S, Event) -> S, start: S, evs: seq<Event>): S {
    if evs == [] then start else handle(Play(handle, start, evs[..|evs| - 1]), evs[|evs| - 1])
  }

  /** A repeat of the same state on the same tag overwrites the one before it: what coalescing relies on. */
  ghost predicate Overwrites<S(!new)>(handle: (S, Event) -> S) {
    forall st: S, a: Event, b: Event :: a.key == b.key && a.coalesceKey == b.coalesceKey && b.key.Some? && b.coalesceKey.Some?
      ==> handle(handle(st, a), b) == handle(st, b)
  }

  /** The events handlers saw: the newest event of each item. */
  ghost function Seen(gone: map<Id, Gone>, ids: seq<Id>): seq<Event>
    requires forall id :: id in ids ==> id in gone
  {
    if ids == [] then []
    else Seen(gone, ids[..|ids| - 1]) + [gone[ids[|ids| - 1]].row.payload.latest]
  }

  /** The events those items stand for. */
  ghost function StoodFor(gone: map<Id, Gone>, ids: seq<Id>): seq<Event>
    requires forall id :: id in ids ==> id in gone
  {
    if ids == [] then []
    else StoodFor(gone, ids[..|ids| - 1]) + gone[ids[|ids| - 1]].row.absorbed
  }

  /** The alarms a handler links for one item: the coalesced ones, then the newest event's own. */
  function Linked(p: Payload): seq<nat> {
    p.coalescedIds + (if p.latest.alarm.Some? then [p.latest.alarm.value] else [])
  }

  ghost function LinkedBy(gone: map<Id, Gone>, ids: seq<Id>): seq<nat>
    requires forall id :: id in ids ==> id in gone
  {
    if ids == [] then []
    else LinkedBy(gone, ids[..|ids| - 1]) + Linked(gone[ids[|ids| - 1]].row.payload)
  }

  ghost function Keyed(gone: map<Id, Gone>, key: Option<string>): Id -> bool {
    (id: Id) => id in gone && gone[id].row.key == key
  }

  /** The runs of one order key, in commit order. */
  ghost function RunsOf(s: State, key: Option<string>): seq<Id> { Filter(Keyed(s.gone, key), s.runs) }

  lemma {:induction false} PlayJoin<S>(handle: (S, Event) -> S, start: S, a: seq<Event>, b: seq<Event>)
    ensures Play(handle, start, a + b) == Play(handle, Play(handle, start, a), b)
  {
    if b == [] {
      assert a + b == a;
    } else {
      assert (a + b)[..|a + b| - 1] == a + b[..|b| - 1];
      PlayJoin(handle, start, a, b[..|b| - 1]);
    }
  }

  /** One item: its newest event does what all the events it absorbed would have done. */
  lemma {:induction false} PlayItem<S(!new)>(handle: (S, Event) -> S, st: S, r: Row, n: nat)
    requires Overwrites(handle) && RowFaithful(r) && 1 <= n <= |r.absorbed|
    ensures Play(handle, st, r.absorbed[..n]) == handle(st, r.absorbed[n - 1])
  {
    var evs := r.absorbed[..n];
    assert evs[..n - 1] == r.absorbed[..n - 1];
    if n == 1 {
      assert Play(handle, st, evs[..0]) == st;
    } else {
      PlayItem(handle, st, r, n - 1);
      assert handle(handle(st, r.absorbed[n - 2]), r.absorbed[n - 1]) == handle(st, r.absorbed[n - 1]);
    }
  }

  lemma {:induction false} SeenMeansStoodFor<S(!new)>(handle: (S, Event) -> S, start: S, gone: map<Id, Gone>, ids: seq<Id>)
    requires Overwrites(handle) && forall id :: id in ids ==> id in gone && RowFaithful(gone[id].row)
    ensures Play(handle, start, Seen(gone, ids)) == Play(handle, start, StoodFor(gone, ids))
  {
    if ids != [] {
      var n := |ids| - 1;
      var r, st := gone[ids[n]].row, Play(handle, start, StoodFor(gone, ids[..n]));
      SeenMeansStoodFor(handle, start, gone, ids[..n]);
      PlayItem(handle, st, r, |r.absorbed|);
      assert r.absorbed[..|r.absorbed|] == r.absorbed;
      PlayJoin(handle, start, StoodFor(gone, ids[..n]), r.absorbed);
      var seen := Seen(gone, ids);
      assert seen[..|seen| - 1] == Seen(gone, ids[..n]);
    }
  }

  lemma {:induction false} AlarmIdsJoin(a: seq<Event>, b: seq<Event>)
    ensures AlarmIds(a + b) == AlarmIds(a) + AlarmIds(b)
  {
    if b == [] {
      assert a + b == a;
    } else {
      assert (a + b)[..|a + b| - 1] == a + b[..|b| - 1];
      AlarmIdsJoin(a, b[..|b| - 1]);
    }
  }

  lemma {:induction false} LinksConserved(gone: map<Id, Gone>, ids: seq<Id>)
    requires forall id :: id in ids ==> id in gone && RowFaithful(gone[id].row)
    ensures LinkedBy(gone, ids) == AlarmIds(StoodFor(gone, ids))
  {
    if ids != [] {
      var n := |ids| - 1;
      LinksConserved(gone, ids[..n]);
      AlarmIdsJoin(StoodFor(gone, ids[..n]), gone[ids[n]].row.absorbed);
    }
  }

  /** The ids below n under one order key, oldest first. */
  ghost function KeyIds(rows: map<Id, Row>, gone: map<Id, Gone>, key: Option<string>, n: Id): seq<Id>
    requires Covers(rows, gone, n)
  {
    if n == 0 then []
    else KeyIds(rows, gone, key, n - 1) + (if Item(rows, gone, n - 1).key == key then [n - 1] else [])
  }

  lemma {:induction false} KeyIdsMembers(rows: map<Id, Row>, gone: map<Id, Gone>, key: Option<string>, n: Id)
    requires Covers(rows, gone, n)
    ensures var ids := KeyIds(rows, gone, key, n);
      Increasing(ids) && forall id :: id in ids <==> 0 <= id < n && Item(rows, gone, id).key == key
  {
    if n > 0 {
      KeyIdsMembers(rows, gone, key, n - 1);
      var ids := KeyIds(rows, gone, key, n - 1);
      assert forall i :: 0 <= i < |ids| ==> ids[i] in ids;
    }
  }

  lemma {:induction false} StoodForCollected(rows: map<Id, Row>, gone: map<Id, Gone>, key: Option<string>, n: Id)
    requires Covers(rows, gone, n) && rows.Keys !! gone.Keys
    requires forall id :: 0 <= id < n && Item(rows, gone, id).key == key ==> id in gone
    ensures (forall id :: id in KeyIds(rows, gone, key, n) ==> id in gone)
      && StoodFor(gone, KeyIds(rows, gone, key, n)) == Collected(rows, gone, key, n)
  {
    KeyIdsMembers(rows, gone, key, n);
    if n > 0 {
      StoodForCollected(rows, gone, key, n - 1);
      var ids, ids0 := KeyIds(rows, gone, key, n), KeyIds(rows, gone, key, n - 1);
      if Item(rows, gone, n - 1).key == key {
        assert ids == ids0 + [n - 1] && ids[..|ids| - 1] == ids0;
      } else {
        assert ids == ids0;
        assert Collected(rows, gone, key, n) == Collected(rows, gone, key, n - 1) + [];
      }
    }
  }

  lemma KeyedIncreasing(nextId: Id, queued: set<Id>, runs: seq<Id>, gone: map<Id, Gone>, key: Option<string>)
    requires Accounted(nextId, queued, runs, gone) && RunsInOrder(gone) && key.Some?
    ensures forall i, j :: 0 <= i < j < |runs| && Keyed(gone, key)(runs[i]) && Keyed(gone, key)(runs[j]) ==> runs[i] < runs[j]
  {
    forall i, j | 0 <= i < j < |runs| && Keyed(gone, key)(runs[i]) && Keyed(gone, key)(runs[j])
      ensures runs[i] < runs[j]
    {
      assert RanAlike(gone[runs[j]], gone[runs[i]]);
    }
  }

  /** The runs of a key are its items in enqueue order. */
  lemma RunsOfIncreasing(c: Config, s: State, key: Option<string>)
    requires Core(c, s) && key.Some?
    ensures Increasing(RunsOf(s, key))
    ensures forall id :: id in RunsOf(s, key) <==> id in s.gone && s.gone[id].how.Ran? && s.gone[id].row.key == key
  {
    KeyedIncreasing(s.nextId, s.rows.Keys, s.runs, s.gone, key);
    assert Accounted(s.nextId, s.rows.Keys, s.runs, s.gone);
    hide Core, Head;
    FilterIncreasing(Keyed(s.gone, key), s.runs);
    forall id | id in s.gone && s.gone[id].how.Ran? ensures id in s.runs {
      assert s.runs[s.gone[id].how.pos] == id;
    }
  }

  /** When every item of a key has run, its runs are all of its items, oldest first. */
  lemma RunsAreKeyIds(c: Config, s: State, key: Option<string>)
    requires Inv(c, s) && key.Some?
    requires forall id :: id in s.rows ==> s.rows[id].key != key
    requires forall id :: id in s.gone && s.gone[id].row.key == key ==> s.gone[id].how.Ran?
    ensures s.rows.Keys !! s.gone.Keys
    ensures RunsOf(s, key) == KeyIds(s.rows, s.gone, key, s.nextId)
  {
    assert s.rows.Keys !! s.gone.Keys && forall id :: id in s.gone ==> id < s.nextId;
    RunsOfIncreasing(c, s, key);
    hide Core, Faithful, RunsOf;
    KeyIdsMembers(s.rows, s.gone, key, s.nextId);
    hide KeyIds;
    SameMembers(s.rows, s.gone, key, s.nextId, RunsOf(s, key), KeyIds(s.rows, s.gone, key, s.nextId));
    hide Contained;
    IncreasingUnique(RunsOf(s, key), KeyIds(s.rows, s.gone, key, s.nextId));
  }

  lemma SameMembers(rows: map<Id, Row>, gone: map<Id, Gone>, key: Option<string>, n: Id, runs: seq<Id>, ids: seq<Id>)
    requires Covers(rows, gone, n) && rows.Keys !! gone.Keys && forall id :: id in gone ==> id < n
    requires forall id :: id in rows ==> rows[id].key != key
    requires forall id :: id in gone && gone[id].row.key == key ==> gone[id].how.Ran?
    requires forall id :: id in runs <==> id in gone && gone[id].how.Ran? && gone[id].row.key == key
    requires forall id :: id in ids <==> 0 <= id < n && Item(rows, gone, id).key == key
    ensures Contained(runs, ids) && Contained(ids, runs)
  {
    forall i | 0 <= i < |ids| ensures ids[i] in runs {
      assert ids[i] in ids;
      assert ids[i] in rows || ids[i] in gone;
    }
  }

  /** At every moment, the handlers of a tag have left it in the state, and linked the alarms, that processing every
    * event behind those runs one by one would have. */
  lemma RunsMeanTheirEvents<S(!new)>(c: Config, es: seq<Step>, key: Option<string>, handle: (S, Event) -> S, start: S)
    requires Valid(c, Init(), es) && key.Some? && Overwrites(handle)
    ensures var s := Exec(c, Init(), es); var ids := RunsOf(s, key);
      && (forall id :: id in ids ==> id in s.gone)
      && Play(handle, start, Seen(s.gone, ids)) == Play(handle, start, StoodFor(s.gone, ids))
      && LinkedBy(s.gone, ids) == AlarmIds(StoodFor(s.gone, ids))
  {
    ReachableInv(c, es);
    var s := Exec(c, Init(), es);
    RunsOfIncreasing(c, s, key);
    hide Core, Valid, Exec, RunsOf, LogKept;
    SeenMeansStoodFor(handle, start, s.gone, RunsOf(s, key));
    LinksConserved(s.gone, RunsOf(s, key));
  }

  /** Once every item of a tag has run, its handlers have done exactly what the full log of that tag's accepted
    * events, in arrival order, would have done: same final state, same alarms linked. */
  lemma CoalescingPreservesMeaning<S(!new)>(c: Config, es: seq<Step>, key: Option<string>, handle: (S, Event) -> S, start: S)
    requires Valid(c, Init(), es) && key.Some? && Overwrites(handle)
    requires var s := Exec(c, Init(), es);
      (forall id :: id in s.rows ==> s.rows[id].key != key) && (forall id :: id in s.gone && s.gone[id].row.key == key ==> s.gone[id].how.Ran?)
    ensures var s := Exec(c, Init(), es); var ids := RunsOf(s, key);
      && (forall id :: id in ids ==> id in s.gone)
      && Play(handle, start, Seen(s.gone, ids)) == Play(handle, start, Filter(OfKey(key), s.log))
      && LinkedBy(s.gone, ids) == AlarmIds(Filter(OfKey(key), s.log))
  {
    RunsMeanTheirEvents(c, es, key, handle, start);
    ReachableInv(c, es);
    var s := Exec(c, Init(), es);
    hide Valid, Exec;
    RunsAreKeyIds(c, s, key);
    StoodForCollected(s.rows, s.gone, key, s.nextId);
  }
}
