/** When running one coalesced item means running every event it stands for: the SCADA handlers behind the queue
  * (backend/src/realtime/scada.js, backend/src/infra/intakeQueue.js). */
module ScadaMeaning {
  import opened Common
  import Q = IntakeQueue
  import K = Coalescing
  import R = QueueRuns
  import M = QueueMeaning
  import opened ScadaIncidents

  /** What a queued event asks for: a trip or a reclose of its device, or nothing but an entry in the tag cache. */
  datatype Signal = TripOf(trip: Trip) | RecloseOf(tag: nat) | Quiet

  function Handle(read: Q.Event -> Signal, now: int): (seq<Incident>, Q.Event) -> seq<Incident> {
    (rows: seq<Incident>, e: Q.Event) =>
      match read(e)
      case TripOf(t) => ApplyTrip(rows, t, now)
      case RecloseOf(tag) => ApplyReclose(rows, tag, now)
      case Quiet => rows
  }

  predicate Coalescable(a: Q.Event, b: Q.Event) {
    a.key == b.key && a.coalesceKey == b.coalesceKey && b.key.Some? && b.coalesceKey.Some?
  }

  /** What the coalesce key fixes: the device and the kind of event. */
  predicate Alike(a: Signal, b: Signal) {
    if a.TripOf? && b.TripOf? then a.trip.tag == b.trip.tag else a == b
  }

  ghost predicate KeyFixesKind(read: Q.Event -> Signal) {
    forall a: Q.Event, b: Q.Event :: Coalescable(a, b) ==> Alike(read(a), read(b))
  }

  predicate PlacedAlike(a: Signal, b: Signal) {
    a.TripOf? && b.TripOf? ==> a.trip.scope == b.trip.scope && Known(b.trip.scope)
  }

  /** Trips that can be coalesced are known to be at the same place. */
  ghost predicate TripsPlaced(read: Q.Event -> Signal) {
    forall a: Q.Event, b: Q.Event :: Coalescable(a, b) ==> PlacedAlike(read(a), read(b))
  }

  /** The same trip again adds nothing exactly when its place is known: an unplaced trip opens a second incident. */
  lemma RepeatedTripExactly(rows: seq<Incident>, e: Trip, now: int)
    ensures ApplyTrip(ApplyTrip(rows, e, now), e, now) == ApplyTrip(rows, e, now) <==> Known(e.scope)
  {
    var once := ApplyTrip(rows, e, now);
    if Known(e.scope) {
      NextJoinsIt(rows, once, e, now);
      var k := BatchTarget(rows, e, now);
      assert AddTag(once[k], e.tag) == once[k];
    } else {
      UnlocatedOneByOne(once, [e], now);
      assert ApplyTrips(once, [e], now) == ApplyTrip(ApplyTrips(once, [e][..0], now), e, now);
      assert ApplyTrips(once, [e][..0], now) == once;
    }
  }

  /** On an empty list already, a trip leaves no trace of the one before it only if both are known to be at one place. */
  lemma FirstTripsPlaced(a: Trip, b: Trip, now: int)
    requires ApplyTrip(ApplyTrip([], a, now), b, now) == ApplyTrip([], b, now)
    ensures a.scope == b.scope && Known(b.scope)
  {
    var one := ApplyTrip([], a, now);
    assert one == [NewIncident(a, now)] && ApplyTrip([], b, now) == [NewIncident(b, now)];
    assert Match(b.scope, one, now, 1).Some?;
    assert ApplyTrip(one, b, now) == [AddTag(one[0], b.tag)];
    assert AddTag(one[0], b.tag) == NewIncident(b, now);
  }

  lemma RepeatedReclose(rows: seq<Incident>, tag: nat, now: int)
    ensures ApplyReclose(ApplyReclose(rows, tag, now), tag, now) == ApplyReclose(rows, tag, now)
  {
    RetryRestoresNothing(rows, tag, now, |rows|, now);
  }

  /** The SCADA handlers have the property coalescing relies on exactly when trips that can be coalesced are known to be at
    * the same place; otherwise they may be one incident coalesced and two one by one. */
  lemma OverwritesExactly(read: Q.Event -> Signal, now: int)
    requires KeyFixesKind(read)
    ensures M.Overwrites(Handle(read, now)) <==> TripsPlaced(read)
  {
    var h := Handle(read, now);
    hide ApplyTrip, ApplyReclose, Known;
    if TripsPlaced(read) {
      forall rows: seq<Incident>, a: Q.Event, b: Q.Event | Coalescable(a, b) ensures h(h(rows, a), b) == h(rows, b) {
        assert Alike(read(a), read(b)) && PlacedAlike(read(a), read(b));
        match read(b)
        case TripOf(t) => RepeatedTripExactly(rows, t, now);
        case RecloseOf(tag) => RepeatedReclose(rows, tag, now);
        case Quiet =>
      }
    }
    if M.Overwrites(h) {
      forall a: Q.Event, b: Q.Event | Coalescable(a, b) ensures PlacedAlike(read(a), read(b)) {
        assert h(h([], a), b) == h([], b);
        if read(a).TripOf? && read(b).TripOf? { FirstTripsPlaced(read(a).trip, read(b).trip, now); }
      }
    }
  }

  /** So once every item of a device has run, the incidents are what all its events, one by one in arrival order, would have
    * made of them. */
  lemma CoalescedIncidents(c: Q.Config, es: seq<Q.Step>, key: Option<string>, read: Q.Event -> Signal, now: int, start: seq<Incident>)
    requires R.Valid(c, Q.Init(), es) && key.Some? && KeyFixesKind(read) && TripsPlaced(read)
    requires var s := R.Exec(c, Q.Init(), es);
      (forall id :: id in s.rows ==> s.rows[id].key != key) && (forall id :: id in s.gone && s.gone[id].row.key == key ==> s.gone[id].how.Ran?)
    ensures var s := R.Exec(c, Q.Init(), es); var ids := M.RunsOf(s, key); var h := Handle(read, now);
      (forall id :: id in ids ==> id in s.gone) && M.Play(h, start, M.Seen(s.gone, ids)) == M.Play(h, start, Filter(K.OfKey(key), s.log))
  {
    OverwritesExactly(read, now);
    hide M.Overwrites, KeyFixesKind, TripsPlaced, Handle;
    M.CoalescingPreservesMeaning(c, es, key, Handle(read, now), start);
  }

  // ---- all devices together ----

  ghost predicate AllGone(gone: map<Q.Id, Q.Gone>, ids: seq<Q.Id>) { forall k :: 0 <= k < |ids| ==> ids[k] in gone }

  /** The incidents as the runs left them: run n gave the newest event of its item to the handler, at its own time. */
  ghost function AsRun(read: Q.Event -> Signal, start: seq<Incident>, gone: map<Q.Id, Q.Gone>, ids: seq<Q.Id>, times: seq<int>): seq<Incident>
    requires AllGone(gone, ids) && |times| == |ids|
  {
    if ids == [] then start
    else
      var n := |ids| - 1;
      Handle(read, times[n])(AsRun(read, start, gone, ids[..n], times[..n]), gone[ids[n]].row.payload.latest)
  }

  /** The same with every event an item stands for given to the handler, one by one, where the item ran. */
  ghost function AsSent(read: Q.Event -> Signal, start: seq<Incident>, gone: map<Q.Id, Q.Gone>, ids: seq<Q.Id>, times: seq<int>): seq<Incident>
    requires AllGone(gone, ids) && |times| == |ids|
  {
    if ids == [] then start
    else
      var n := |ids| - 1;
      M.Play(Handle(read, times[n]), AsSent(read, start, gone, ids[..n], times[..n]), gone[ids[n]].row.absorbed)
  }

  lemma {:induction false} RunsMeanWhatWasSent(read: Q.Event -> Signal, start: seq<Incident>, gone: map<Q.Id, Q.Gone>, ids: seq<Q.Id>,
                                               times: seq<int>)
    requires AllGone(gone, ids) && |times| == |ids| && KeyFixesKind(read) && TripsPlaced(read)
    requires forall k :: 0 <= k < |ids| ==> K.RowFaithful(gone[ids[k]].row)
    ensures AsRun(read, start, gone, ids, times) == AsSent(read, start, gone, ids, times)
  {
    if ids != [] {
      var n := |ids| - 1;
      var r, h := gone[ids[n]].row, Handle(read, times[n]);
      assert K.RowFaithful(r) && r.absorbed[..|r.absorbed|] == r.absorbed;
      RunsMeanWhatWasSent(read, start, gone, ids[..n], times[..n]);
      OverwritesExactly(read, times[n]);
      hide KeyFixesKind, TripsPlaced, Handle, M.Overwrites;
      M.PlayItem(h, AsSent(read, start, gone, ids[..n], times[..n]), r, |r.absorbed|);
    }
  }

  /** The trips and recloses of all devices, run by any number of workers in any interleaving and each at its own time, make of
    * the incidents what every single event behind those runs, given to the handlers in the same places, would have made. */
  lemma InterleavedIncidents(c: Q.Config, es: seq<Q.Step>, read: Q.Event -> Signal, times: seq<int>, start: seq<Incident>)
    requires R.Valid(c, Q.Init(), es) && KeyFixesKind(read) && TripsPlaced(read) && |times| == |R.Exec(c, Q.Init(), es).runs|
    ensures var s := R.Exec(c, Q.Init(), es);
      AllGone(s.gone, s.runs) && AsRun(read, start, s.gone, s.runs, times) == AsSent(read, start, s.gone, s.runs, times)
  {
    var s := R.Exec(c, Q.Init(), es);
    R.ReachableInv(c, es);
    RunsGone(c, s);
    hide *;
    RunsMeanWhatWasSent(read, start, s.gone, s.runs, times);
  }

  lemma RunsGone(c: Q.Config, s: Q.State)
    requires K.Inv(c, s)
    ensures AllGone(s.gone, s.runs) && forall k :: 0 <= k < |s.runs| ==> K.RowFaithful(s.gone[s.runs[k]].row)
  {
    assert Q.Accounted(s.nextId, s.rows.Keys, s.runs, s.gone) && K.RowsFaithful(s.rows, s.gone);
    hide K.RowFaithful, Q.Core;
  }

  lemma {:induction false} KeyOfAll(key: Option<string>, r: Q.Row, n: nat)
    requires K.RowFaithful(r) && n <= |r.absorbed|
    ensures Filter(K.OfKey(key), r.absorbed[..n]) == if r.key == key then r.absorbed[..n] else []
  {
    if n > 0 {
      KeyOfAll(key, r, n - 1);
      assert r.absorbed[..n][..n - 1] == r.absorbed[..n - 1];
      assert r.absorbed[..n] == r.absorbed[..n - 1] + [r.absorbed[n - 1]];
    }
  }

  lemma {:induction false} StoodForByKey(gone: map<Q.Id, Q.Gone>, ids: seq<Q.Id>, key: Option<string>)
    requires forall id :: id in ids ==> id in gone && K.RowFaithful(gone[id].row)
    ensures (forall id :: id in Filter(M.Keyed(gone, key), ids) ==> id in gone)
      && Filter(K.OfKey(key), M.StoodFor(gone, ids)) == M.StoodFor(gone, Filter(M.Keyed(gone, key), ids))
  {
    if ids != [] {
      var n := |ids| - 1;
      var r := gone[ids[n]].row;
      assert ids[n] in ids;
      StoodForByKey(gone, ids[..n], key);
      KeyOfAll(key, r, |r.absorbed|);
      assert r.absorbed[..|r.absorbed|] == r.absorbed;
      hide K.RowFaithful, K.OfKey;
      FilterJoin(K.OfKey(key), M.StoodFor(gone, ids[..n]), r.absorbed);
      var mine, mine0 := Filter(M.Keyed(gone, key), ids), Filter(M.Keyed(gone, key), ids[..n]);
      if r.key == key {
        assert mine == mine0 + [ids[n]] && mine[..|mine| - 1] == mine0;
      } else {
        assert mine == mine0 + [] == mine0;
      }
    }
  }

  lemma {:induction false} FilterJoin<T>(f: T -> bool, a: seq<T>, b: seq<T>)
    ensures Filter(f, a + b) == Filter(f, a) + Filter(f, b)
  {
    if b == [] {
      assert a + b == a;
    } else {
      assert (a + b)[..|a + b| - 1] == a + b[..|b| - 1];
      FilterJoin(f, a, b[..|b| - 1]);
    }
  }

  /** No item of the device is queued, and none was dead-lettered. */
  ghost predicate AllHaveRun(s: Q.State, key: Option<string>) {
    (forall id :: id in s.rows ==> s.rows[id].key != key) && (forall id :: id in s.gone && s.gone[id].row.key == key ==> s.gone[id].how.Ran?)
  }

  lemma AllRan(c: Q.Config, s: Q.State, key: Option<string>)
    requires K.Inv(c, s) && AllHaveRun(s, key)
    ensures K.Covers(s.rows, s.gone, s.nextId) && s.rows.Keys !! s.gone.Keys
    ensures forall id :: 0 <= id < s.nextId && K.Item(s.rows, s.gone, id).key == key ==> id in s.gone
    ensures K.Collected(s.rows, s.gone, key, s.nextId) == Filter(K.OfKey(key), s.log)
  {
    assert s.rows.Keys !! s.gone.Keys;
    hide Q.Core, K.RowsFaithful, K.Collected;
  }

  lemma RunsSeen(c: Q.Config, s: Q.State, key: Option<string>)
    requires K.Inv(c, s)
    ensures forall id :: id in s.runs ==> id in s.gone && K.RowFaithful(s.gone[id].row)
    ensures M.RunsOf(s, key) == Filter(M.Keyed(s.gone, key), s.runs)
  {
    RunsGone(c, s);
    hide K.Inv, K.RowFaithful, M.Keyed;
  }

  lemma AllRanEvents(c: Q.Config, s: Q.State, key: Option<string>)
    requires K.Inv(c, s) && key.Some? && AllHaveRun(s, key)
    ensures (forall id :: id in s.runs ==> id in s.gone)
      && Filter(K.OfKey(key), M.StoodFor(s.gone, s.runs)) == Filter(K.OfKey(key), s.log)
  {
    hide K.Inv, M.StoodFor, Filter, K.OfKey, M.RunsOf, M.Keyed, K.Collected, M.KeyIds, K.Covers, K.Item;
    RunsSeen(c, s, key);
    AllRan(c, s, key);
    StoodForByKey(s.gone, s.runs, key);
    M.RunsAreKeyIds(c, s, key);
    M.StoodForCollected(s.rows, s.gone, key, s.nextId);
  }

  /** And of each device whose items have all run, those events are exactly the ones accepted, in arrival order. */
  lemma InterleavedEvents(c: Q.Config, es: seq<Q.Step>, key: Option<string>)
    requires R.Valid(c, Q.Init(), es) && key.Some? && AllHaveRun(R.Exec(c, Q.Init(), es), key)
    ensures var s := R.Exec(c, Q.Init(), es);
      && (forall id :: id in s.runs ==> id in s.gone)
      && Filter(K.OfKey(key), M.StoodFor(s.gone, s.runs)) == Filter(K.OfKey(key), s.log)
  {
    var s := R.Exec(c, Q.Init(), es);
    R.ReachableInv(c, es);
    hide K.Inv, R.Exec, R.Valid, M.StoodFor, AllHaveRun;
    AllRanEvents(c, s, key);
  }
}
