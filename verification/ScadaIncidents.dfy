/** SCADA trips and recloses on the incident list (backend/src/realtime/scada.js, backend/src/infra/repo.js). */
module ScadaIncidents {
  import opened Common

  /** Fault statuses; `Planned` stands for the planned-outage statuses, which SCADA never restores. */
  datatype Status = Open | Dispatched | InProgress | Pending | Resolved | Closed | Cancelled | Planned

  /** Canonical feeder and substation, each possibly unknown. */
  datatype Scope = Scope(feeder: Option<nat>, substation: Option<nat>)

  /** `tags`: tripped devices still open on the incident; `tripped`: history, whether it ever had one. */
  datatype Incident = Incident(scope: Scope, status: Status, planned: bool, scada: bool, openedAt: int, tags: set<nat>, tripped: bool, restored: bool)

  datatype Trip = Trip(scope: Scope, tag: Option<nat>)

  const WINDOW_MIN := 240
  const MOMENTARY_MAX_MIN := 5

  predicate Active(i: Incident) { i.status !in {Resolved, Closed, Cancelled} }

  predicate CanScadaRestore(s: Status) { s in {Open, Dispatched, InProgress, Pending} }

  predicate Known(s: Scope) { s.feeder.Some? || s.substation.Some? }

  /** A trip joins an active fault incident on its feeder, or one whose feeder is unknown at its substation; a trip
    * without a feeder joins any at its substation; only incidents of the last four hours. */
  predicate Joins(s: Scope, i: Incident, now: int) {
    && Active(i) && now - WINDOW_MIN <= i.openedAt && !i.planned
    && (if s.feeder.Some? then i.scope.feeder == s.feeder || (i.scope.feeder.None? && s.substation.Some? && i.scope.substation == s.substation)
        else s.substation.Some? && i.scope.substation == s.substation)
  }

  /** Same feeder first, then the most recent. */
  predicate Ahead(s: Scope, a: Incident, b: Incident) {
    var fa, fb := a.scope.feeder == s.feeder, b.scope.feeder == s.feeder;
    if fa == fb then a.openedAt > b.openedAt else fa
  }

  /** The incident a trip joins among the first n, if any. */
  function Match(s: Scope, incidents: seq<Incident>, now: int, n: nat): (r: Option<nat>)
    requires n <= |incidents|
    ensures r.Some? ==> r.value < n && Joins(s, incidents[r.value], now)
    ensures r.None? ==> forall k :: 0 <= k < n ==> !Joins(s, incidents[k], now)
  {
    if n == 0 then None
    else
      var best := Match(s, incidents, now, n - 1);
      if !Joins(s, incidents[n - 1], now) then best
      else if best.None? || Ahead(s, incidents[n - 1], incidents[best.value]) then Some(n - 1) else best
  }

  function AddTag(i: Incident, tag: Option<nat>): Incident {
    if tag.None? then i else i.(tags := i.tags + {tag.value}, tripped := true)
  }

  function NewIncident(e: Trip, now: int): Incident { AddTag(Incident(e.scope, Open, false, true, now, {}, false, false), e.tag) }

  /** One trip: join or open. */
  function ApplyTrip(incidents: seq<Incident>, e: Trip, now: int): seq<Incident> {
    match Match(e.scope, incidents, now, |incidents|)
    case Some(k) => incidents[k := AddTag(incidents[k], e.tag)]
    case None => incidents + [NewIncident(e, now)]
  }

  function ApplyTrips(incidents: seq<Incident>, es: seq<Trip>, now: int): seq<Incident> {
    if es == [] then incidents else ApplyTrip(ApplyTrips(incidents, es[..|es| - 1], now), es[|es| - 1], now)
  }

  // ---- reclose ----

  /** removeTripTag, on one row: only an active incident holding the tag changes. */
  function Removed(i: Incident, tag: nat): Incident { if Active(i) then i.(tags := i.tags - {tag}) else i }

  predicate Touched(i: Incident, tag: nat) { Active(i) && tag in i.tags }

  predicate Momentary(i: Incident, now: int) { now - i.openedAt <= MOMENTARY_MAX_MIN }

  /** Restored once no tripped device remains open on it; closed at once when the interruption was momentary. */
  function Restored(i: Incident, now: int): Incident {
    i.(status := if Momentary(i, now) then Closed else Resolved, restored := true)
  }

  function Restore(i: Incident, now: int): Incident {
    if !CanScadaRestore(i.status) || i.planned then i else Restored(i, now)
  }

  /** What a whole reclose does to one incident. */
  function Reclosed(i: Incident, tag: nat, now: int): Incident {
    if Touched(i, tag) && i.tags - {tag} == {} then Restore(Removed(i, tag), now) else Removed(i, tag)
  }

  /** The reclose after the tag was removed everywhere and the first n incidents were dealt with. */
  function RecloseUpTo(incidents: seq<Incident>, tag: nat, now: int, n: nat): (r: seq<Incident>)
    ensures |r| == |incidents|
    ensures forall k :: 0 <= k < |r| ==> r[k] == (if k < n then Reclosed(incidents[k], tag, now) else Removed(incidents[k], tag))
  {
    seq(|incidents|, k requires 0 <= k < |incidents| => if k < n then Reclosed(incidents[k], tag, now) else Removed(incidents[k], tag))
  }

  function ApplyReclose(incidents: seq<Incident>, tag: nat, now: int): seq<Incident> { RecloseUpTo(incidents, tag, now, |incidents|) }

  // ---- the two halves of a reclose ----

  /** The reclose of this tag will restore an incident: it took the last tag of an active fault incident. */
  predicate TakesLast(i: Incident, tag: nat) { Touched(i, tag) && i.tags - {tag} == {} && CanScadaRestore(i.status) && !i.planned }

  /** The incidents among the first n that the reclose of this tag will restore. */
  function DueFor(rows: seq<Incident>, tag: nat, n: nat): seq<nat>
    requires n <= |rows|
  {
    if n == 0 then [] else DueFor(rows, tag, n - 1) + (if TakesLast(rows[n - 1], tag) then [n - 1] else [])
  }

  function RemovedAll(rows: seq<Incident>, tag: nat): (r: seq<Incident>)
    ensures |r| == |rows| && forall k :: 0 <= k < |r| ==> r[k] == Removed(rows[k], tag)
  {
    seq(|rows|, k requires 0 <= k < |rows| => Removed(rows[k], tag))
  }

  lemma {:induction false} DueForIff(rows: seq<Incident>, tag: nat, n: nat, k: nat)
    requires n <= |rows|
    ensures k in DueFor(rows, tag, n) <==> k < n && TakesLast(rows[k], tag)
  {
    if n > 0 { DueForIff(rows, tag, n - 1, k); }
  }

  // ---- the handlers, changing rows in place ----

  class IncidentTable {
    var rows: seq<Incident>

    constructor ()
      ensures rows == []
    {
      rows := [];
    }

    /** scadaTripTx: the locked check-and-create for one trip; returns the incident it joined or opened. */
    method TripTx(e: Trip, now: int) returns (id: nat)
      modifies this
      ensures rows == ApplyTrip(old(rows), e, now)
      ensures id < |rows| && id == (match Match(e.scope, old(rows), now, |old(rows)|) case Some(k) => k case None => |old(rows)|)
    {
      var open := Match(e.scope, rows, now, |rows|);
      if open.Some? {
        id := open.value;
        rows := rows[id := AddTag(rows[id], e.tag)];
      } else {
        id := |rows|;
        rows := rows + [NewIncident(e, now)];
      }
    }

    /** handleScadaBatch: the first trip joins or opens, the rest are merged into that same incident. */
    method TripBatch(es: seq<Trip>, now: int)
      requires es != [] && forall k :: 0 <= k < |es| ==> es[k].scope == es[0].scope
      modifies this
      ensures rows == Batched(old(rows), es, now)
    {
      var id := TripTx(es[0], now);
      var i := 1;
      while i < |es|
        invariant 1 <= i <= |es| && id < |rows|
        invariant rows == Batched(old(rows), es[..i], now)
        invariant id == BatchTarget(old(rows), es[0], now)
      {
        assert es[..i + 1][..i] == es[..i] && es[..i + 1][i] == es[i];
        rows := rows[id := AddTag(rows[id], es[i].tag)];
        i := i + 1;
      }
      assert es[..|es|] == es;
    }

    /** removeTripTag: the tag is off every active incident; returns those it left without one, as they were then. */
    method RemoveTripTag(tag: nat) returns (due: seq<nat>)
      modifies this
      ensures rows == RemovedAll(old(rows), tag) && due == DueFor(old(rows), tag, |old(rows)|)
    {
      var before := rows;
      due := [];
      for n := 0 to |before|
        invariant |rows| == |before| && forall k :: 0 <= k < |before| ==> rows[k] == if k < n then Removed(before[k], tag) else before[k]
        invariant due == DueFor(before, tag, n)
      {
        if TakesLast(before[n], tag) { due := due + [n]; }
        rows := rows[n := Removed(before[n], tag)];
      }
    }

    /** restoreFromScada: resolved, and closed by a second statement if the interruption was momentary. */
    method RestoreFromScada(k: nat, now: int)
      requires k < |rows|
      modifies this
      ensures rows == old(rows)[k := Restored(old(rows)[k], now)]
      ensures rows[k].restored && rows[k].status == if now - old(rows)[k].openedAt <= 5 then Closed else Resolved
    {
      var momentary := Momentary(rows[k], now);
      rows := rows[k := rows[k].(status := Resolved, restored := true)];
      if momentary { rows := rows[k := rows[k].(status := Closed)]; }
    }

    /** handleReclose, when nothing runs in between: remove the tag everywhere, then restore what has no tag left, one
      * incident after the other. */
    method Reclose(tag: nat, now: int)
      modifies this
      ensures rows == ApplyReclose(old(rows), tag, now)
    {
      ghost var before := rows;
      var due := RemoveTripTag(tag);
      ghost var all := rows;
      for n := 0 to |due|
        invariant |rows| == |before|
        invariant forall k :: 0 <= k < |rows| ==> rows[k] == if k in due[..n] then Restored(all[k], now) else all[k]
      {
        DueForIncreasing(before, tag, |before|);
        assert due[n] in due;
        DueForIff(before, tag, |before|, due[n]);
        assert due[..n + 1] == due[..n] + [due[n]];
        assert due[n] !in due[..n] by { assert forall j :: 0 <= j < n ==> due[..n][j] == due[j] && due[j] < due[n]; }
        RestoreFromScada(due[n], now);
      }
      assert due[..|due|] == due;
      forall k | 0 <= k < |rows| ensures rows[k] == ApplyReclose(before, tag, now)[k] { DueForIff(before, tag, |before|, k); }
    }
  }

  lemma {:induction false} DueForIncreasing(rows: seq<Incident>, tag: nat, n: nat)
    requires n <= |rows|
    ensures Increasing(DueFor(rows, tag, n)) && forall i :: 0 <= i < |DueFor(rows, tag, n)| ==> DueFor(rows, tag, n)[i] < n
  {
    if n > 0 { DueForIncreasing(rows, tag, n - 1); }
  }

  /** Which incident a batch goes to: the one its first trip joined or opened. */
  function BatchTarget(incidents: seq<Incident>, first: Trip, now: int): nat {
    match Match(first.scope, incidents, now, |incidents|) case Some(k) => k case None => |incidents|
  }

  function Batched(incidents: seq<Incident>, es: seq<Trip>, now: int): (r: seq<Incident>)
    requires es != []
    ensures BatchTarget(incidents, es[0], now) < |r|
  {
    if |es| == 1 then ApplyTrip(incidents, es[0], now)
    else
      var rows, id := Batched(incidents, es[..|es| - 1], now), BatchTarget(incidents, es[0], now);
      rows[id := AddTag(rows[id], es[|es| - 1].tag)]
  }

  // ---- a batch against one trip at a time ----

  /** The incident a trip joined or opened is the one the next trip of the same, known, scope joins. */
  lemma {:induction false} SameMatch(s: Scope, a: seq<Incident>, b: seq<Incident>, now: int, n: nat)
    requires n <= |a| && n <= |b|
    requires forall k :: 0 <= k < n ==> b[k] == a[k].(tags := b[k].tags, tripped := b[k].tripped)
    ensures Match(s, b, now, n) == Match(s, a, now, n)
  {
    if n > 0 { SameMatch(s, a, b, now, n - 1); }
  }

  lemma NextJoinsIt(incidents: seq<Incident>, rows: seq<Incident>, e: Trip, now: int)
    requires Known(e.scope) && |rows| == |ApplyTrip(incidents, e, now)|
    requires forall k :: 0 <= k < |rows| ==> var i := ApplyTrip(incidents, e, now)[k]; rows[k] == i.(tags := rows[k].tags, tripped := rows[k].tripped)
    ensures Match(e.scope, rows, now, |rows|) == Some(BatchTarget(incidents, e, now))
  {
    var applied := ApplyTrip(incidents, e, now);
    SameMatch(e.scope, applied, rows, now, |rows|);
    var n := |incidents|;
    SameMatch(e.scope, incidents, applied, now, n);
    if Match(e.scope, incidents, now, n).None? { assert Joins(e.scope, applied[n], now); }
  }

  lemma {:induction false} BatchIsOneByOne(incidents: seq<Incident>, es: seq<Trip>, now: int)
    requires es != [] && (forall k :: 0 <= k < |es| ==> es[k].scope == es[0].scope) && Known(es[0].scope)
    ensures Batched(incidents, es, now) == ApplyTrips(incidents, es, now)
    ensures |Batched(incidents, es, now)| == |ApplyTrip(incidents, es[0], now)|
    ensures forall k :: 0 <= k < |Batched(incidents, es, now)| ==>
      var i, b := ApplyTrip(incidents, es[0], now)[k], Batched(incidents, es, now)[k]; b == i.(tags := b.tags, tripped := b.tripped)
  {
    var n := |es| - 1;
    if n == 0 {
      assert ApplyTrips(incidents, es[..0], now) == incidents;
    } else {
      BatchIsOneByOne(incidents, es[..n], now);
      NextJoinsIt(incidents, Batched(incidents, es[..n], now), Trip(es[0].scope, es[n].tag), now);
      NextJoinsIt(incidents, Batched(incidents, es[..n], now), es[0], now);
      SameTarget(incidents, es[0], es[n], now);
    }
  }

  lemma SameTarget(incidents: seq<Incident>, a: Trip, b: Trip, now: int)
    requires a.scope == b.scope
    ensures BatchTarget(incidents, a, now) == BatchTarget(incidents, b, now)
  {
  }

  lemma {:induction false} UnlocatedOneByOne(incidents: seq<Incident>, es: seq<Trip>, now: int)
    requires forall k :: 0 <= k < |es| ==> !Known(es[k].scope)
    ensures |ApplyTrips(incidents, es, now)| == |incidents| + |es|
  {
    if es != [] { UnlocatedOneByOne(incidents, es[..|es| - 1], now); }
  }

  lemma {:induction false} BatchLength(incidents: seq<Incident>, es: seq<Trip>, now: int)
    requires es != []
    ensures |Batched(incidents, es, now)| == |ApplyTrip(incidents, es[0], now)|
  {
    if |es| > 1 { BatchLength(incidents, es[..|es| - 1], now); }
  }

  /** Running a group of trips as one transaction gives what running them one by one gives exactly when their feeder or
    * substation is known, or there is only one: trips with no known location are merged by the batch, and by nothing
    * else. */
  lemma BatchFaithfulExactly(incidents: seq<Incident>, es: seq<Trip>, now: int)
    requires es != [] && forall k :: 0 <= k < |es| ==> es[k].scope == es[0].scope
    ensures Batched(incidents, es, now) == ApplyTrips(incidents, es, now) <==> Known(es[0].scope) || |es| == 1
  {
    if Known(es[0].scope) {
      BatchIsOneByOne(incidents, es, now);
    } else {
      UnlocatedOneByOne(incidents, es, now);
      BatchLength(incidents, es, now);
      if |es| == 1 { assert ApplyTrips(incidents, es[..0], now) == incidents; }
    }
  }

  /** A trip opens a new incident exactly when no active fault incident of its scope was opened in the last four hours. */
  lemma OpensNewExactly(incidents: seq<Incident>, e: Trip, now: int)
    ensures |ApplyTrip(incidents, e, now)| == |incidents| + 1 <==> forall k :: 0 <= k < |incidents| ==> !Joins(e.scope, incidents[k], now)
  {
  }

  // ---- restored exactly when its last open tag recloses ----

  lemma RestoredOnLastTagExactly(incidents: seq<Incident>, tag: nat, now: int, k: nat)
    requires k < |incidents| && !incidents[k].restored
    ensures ApplyReclose(incidents, tag, now)[k].restored
      <==> incidents[k].tags == {tag} && CanScadaRestore(incidents[k].status) && !incidents[k].planned
  {
    var i := incidents[k];
    assert tag in i.tags && i.tags - {tag} == {} ==> i.tags == {tag};
  }

  /** A reclose cut off after its tag was removed and n incidents were dealt with is not completed by any retry: the tag
    * is no longer there to be found. */
  lemma RetryRestoresNothing(incidents: seq<Incident>, tag: nat, now: int, n: nat, later: int)
    ensures ApplyReclose(RecloseUpTo(incidents, tag, now, n), tag, later) == RecloseUpTo(incidents, tag, now, n)
  {
    var s := RecloseUpTo(incidents, tag, now, n);
    forall k | 0 <= k < |s| ensures Reclosed(s[k], tag, later) == s[k] {
      var i := incidents[k];
      assert Active(i) ==> Removed(i, tag).tags == i.tags - {tag};
      assert tag !in i.tags - {tag} && (i.tags - {tag}) - {tag} == i.tags - {tag};
    }
  }

  /** So after an interruption and any retry, an incident the reclose should restore is restored exactly if it had been
    * reached before the interruption. */
  lemma InterruptedRecloseExactly(incidents: seq<Incident>, tag: nat, now: int, n: nat, later: int, k: nat)
    requires k < |incidents| && !incidents[k].restored && ApplyReclose(incidents, tag, now)[k].restored
    ensures ApplyReclose(RecloseUpTo(incidents, tag, now, n), tag, later)[k].restored <==> k < n
  {
    RetryRestoresNothing(incidents, tag, now, n, later);
  }

  // ---- which incident a trip takes, and what a reclose makes of each, in the rows' own fields ----

  /** The trip may join: an incident that is not finished and not planned, opened no more than 240 minutes ago, on the trip's
    * feeder, or at its substation with no feeder known on one side. */
  ghost predicate MayJoin(s: Scope, i: Incident, now: int) {
    && i.status != Resolved && i.status != Closed && i.status != Cancelled && !i.planned && i.openedAt + 240 >= now
    && match s.feeder
       case Some(f) => i.scope.feeder == Some(f) || (i.scope.feeder == None && s.substation.Some? && i.scope.substation == s.substation)
       case None => s.substation.Some? && i.scope.substation == s.substation
  }

  /** It takes a rather than b: the one on its feeder, else the one opened later; of equals the first. */
  ghost predicate Preferred(s: Scope, rows: seq<Incident>, a: nat, b: nat)
    requires a < |rows| && b < |rows|
  {
    var onA, onB := rows[a].scope.feeder == s.feeder, rows[b].scope.feeder == s.feeder;
    (onA && !onB) || (onA == onB && (rows[a].openedAt > rows[b].openedAt || (rows[a].openedAt == rows[b].openedAt && a <= b)))
  }

  lemma {:induction false} TakesExactly(s: Scope, rows: seq<Incident>, now: int, n: nat)
    requires n <= |rows|
    ensures Match(s, rows, now, n).None? <==> forall j :: 0 <= j < n ==> !MayJoin(s, rows[j], now)
    ensures Match(s, rows, now, n).Some? ==>
      var k := Match(s, rows, now, n).value;
      MayJoin(s, rows[k], now) && forall j :: 0 <= j < n && MayJoin(s, rows[j], now) ==> Preferred(s, rows, k, j)
  {
    if n > 0 { TakesExactly(s, rows, now, n - 1); }
  }

  /** A trip adds its device to the incident it prefers of those it may join; if there is none it opens one of its own, and
    * changes nothing else. */
  lemma TripExactly(rows: seq<Incident>, e: Trip, now: int)
    ensures var after := ApplyTrip(rows, e, now);
      if exists k :: 0 <= k < |rows| && MayJoin(e.scope, rows[k], now) then
        exists k :: 0 <= k < |rows| && MayJoin(e.scope, rows[k], now)
          && (forall j :: 0 <= j < |rows| && MayJoin(e.scope, rows[j], now) ==> Preferred(e.scope, rows, k, j))
          && after == rows[k := WithDevice(rows[k], e.tag)]
      else after == rows + [WithDevice(Incident(e.scope, Open, false, true, now, {}, false, false), e.tag)]
  {
    TakesExactly(e.scope, rows, now, |rows|);
    hide Match, MayJoin, Preferred;
  }

  /** The incident with this device open on it, if the trip names one. */
  function WithDevice(i: Incident, tag: Option<nat>): Incident {
    match tag
    case None => i
    case Some(g) => Incident(i.scope, i.status, i.planned, i.scada, i.openedAt, i.tags + {g}, true, i.restored)
  }

  /** A reclose takes the device off every incident that is not finished; one that is left without any is restored, unless it is
    * planned, and then ends closed if it lasted at most five minutes and resolved if longer. */
  lemma RecloseExactly(rows: seq<Incident>, tag: nat, now: int, k: nat)
    requires k < |rows|
    ensures var i, i' := rows[k], ApplyReclose(rows, tag, now)[k];
      var finished := i.status == Resolved || i.status == Closed || i.status == Cancelled;
      if finished || tag !in i.tags then i' == i
      else if i.tags != {tag} || i.planned || i.status == Planned then i' == i.(tags := i.tags - {tag})
      else i' == i.(tags := {}, restored := true, status := if now - i.openedAt <= 5 then Closed else Resolved)
  {
    var i := rows[k];
    if tag in i.tags {
      assert i.tags - {tag} == {} <==> i.tags == {tag};
    } else {
      assert i.tags - {tag} == i.tags;
    }
  }

  /** A batch leaves all its devices open on the one incident its first trip takes or opens. */
  lemma {:induction false} BatchExactly(rows: seq<Incident>, es: seq<Trip>, now: int)
    requires es != []
    ensures var after, id := Batched(rows, es, now), BatchTarget(rows, es[0], now);
      && id < |after| == |ApplyTrip(rows, es[0], now)|
      && (forall j :: 0 <= j < |after| && j != id ==> after[j] == rows[j])
      && (forall g :: g in after[id].tags <==> (id < |rows| && g in rows[id].tags) || exists n :: 0 <= n < |es| && es[n].tag == Some(g))
  {
    if |es| == 1 {
      assert forall g :: es[0].tag == Some(g) <==> exists n :: 0 <= n < |es| && es[n].tag == Some(g);
      hide Match;
    } else {
      var n := |es| - 1;
      BatchExactly(rows, es[..n], now);
      forall g ensures (exists m :: 0 <= m < |es| && es[m].tag == Some(g)) <==> es[n].tag == Some(g) || exists m :: 0 <= m < n && es[..n][m].tag == Some(g) {
        if m :| 0 <= m < |es| && es[m].tag == Some(g) { assert m < n ==> es[..n][m].tag == Some(g); }
        if m :| 0 <= m < n && es[..n][m].tag == Some(g) { assert es[m].tag == Some(g); }
      }
      hide Match;
    }
  }

  // ---- a second incident on the feeder ----

  /** Two active incidents SCADA opened on one feeder. */
  predicate Rivals(a: Incident, b: Incident) {
    a.scada && b.scada && Active(a) && Active(b) && a.scope.feeder.Some? && a.scope.feeder == b.scope.feeder
  }

  /** A trip opens an incident beside an active one of its feeder exactly when there is one and the search of its scope finds
    * none to join: none active, on the feeder or unplaced at the substation, of the last four hours. */
  lemma SecondIncidentExactly(incidents: seq<Incident>, e: Trip, now: int)
    requires e.scope.feeder.Some?
    ensures var r := ApplyTrip(incidents, e, now);
      (|r| == |incidents| + 1 && exists i :: 0 <= i < |incidents| && Rivals(r[i], r[|incidents|])) <==>
      (exists i :: 0 <= i < |incidents| && Rivals(incidents[i], NewIncident(e, now)))
      && (forall k :: 0 <= k < |incidents| ==> !Joins(e.scope, incidents[k], now))
  {
    var r := ApplyTrip(incidents, e, now);
    if Match(e.scope, incidents, now, |incidents|).None? {
      assert r[|incidents|] == NewIncident(e, now);
      assert forall i :: 0 <= i < |incidents| ==> r[i] == incidents[i];
    }
  }
}
