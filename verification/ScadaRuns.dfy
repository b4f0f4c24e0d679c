/** SCADA, staff and crews on the incident list, statement by statement: every interleaving of trips, recloses, control-room
  * decisions and crew reports (backend/src/realtime/scada.js, backend/src/routes/api.js, backend/src/infra/repo.js).
  *
  * A trip selects its incident and writes it in one transaction under its scope's lock; a reclose removes its tag and then
  * restores one incident after the other, each by a statement of its own; a control-room or crew request reads an incident
  * and writes its status later, unchecked against what happened meanwhile. */
module ScadaRuns {
  import opened Common
  import opened ScadaIncidents

  /** A trip transaction after its select: the tags to write, the incident it found, and when it looked. */
  datatype Flight = Flight(scope: Scope, tags: set<nat>, target: Option<nat>, since: int)

  /** A reclose after its tag was removed: incidents still to restore, and the one restored but not yet auto-closed. */
  datatype Reclose = Reclose(due: seq<nat>, closing: Option<nat>)

  /** A request that read incident k in this status and has not written yet. */
  datatype Look = Look(k: nat, read: Status)

  datatype World = World(rows: seq<Incident>, now: int, flights: map<nat, Flight>, recloses: map<nat, Reclose>, looks: map<nat, Look>)

  datatype Event =
    | Select(f: nat, scope: Scope, tags: set<nat>)
    | Commit(f: nat, openedAt: int)
    | Rollback(f: nat)
    | RemoveTag(p: nat, tag: nat)
    | RestoreNext(p: nat)
    | CloseNext(p: nat)
    | Die(p: nat)
    | Read(o: nat, k: nat)
    | Write(o: nat, status: Status)
    | CrewCompletes(k: nat)
    | Rebalance(k: nat, status: Status)
    | Report(scope: Scope, planned: bool)
    | Tick(minutes: nat)

  function Init(now: int): World { World([], now, map[], map[], map[]) }

  /** The fault lifecycle (backend/src/domain/lifecycle.js). */
  predicate FaultMove(a: Status, b: Status) {
    match a
    case Open => b == Dispatched || b == Cancelled
    case Dispatched => b == InProgress || b == Open || b == Cancelled
    case InProgress => b == Pending || b == Cancelled
    case Pending => b == Resolved || b == InProgress
    case Resolved => b == Closed
    case _ => false
  }

  /** Its moves, one by one. */
  lemma FaultMovesExactly(a: Status, b: Status)
    ensures FaultMove(a, b) <==> (a, b) in {
      (Open, Dispatched), (Open, Cancelled), (Dispatched, InProgress), (Dispatched, Open), (Dispatched, Cancelled),
      (InProgress, Pending), (InProgress, Cancelled), (Pending, Resolved), (Pending, InProgress), (Resolved, Closed)}
  {
  }

  /** What a request may write after reading a status: a move of the lifecycle (status route, undo, return for correction,
    * a finished switching plan), the status itself (assignment of a crew), or work started straight from open. */
  predicate MayWrite(read: Status, to: Status) { FaultMove(read, to) || to == read || (read == Open && to == InProgress) }

  /** Two trips that wait for each other's scope lock. */
  predicate Excludes(a: Scope, b: Scope) {
    if a.feeder.Some? && b.feeder.Some? then a.feeder == b.feeder else a.substation.Some? && a.substation == b.substation
  }

  predicate Fault(w: World, k: nat) { k < |w.rows| && !w.rows[k].planned }

  predicate Possible(w: World, e: Event) {
    match e
    case Select(f, scope, _) => f !in w.flights && forall g :: g in w.flights ==> !Excludes(scope, w.flights[g].scope)
    case Commit(f, at) => f in w.flights && w.flights[f].since <= at <= w.now
                          && (w.flights[f].target.Some? ==> w.flights[f].target.value < |w.rows|)
    case Rollback(f) => f in w.flights
    case RemoveTag(p, _) => p !in w.recloses
    case RestoreNext(p) => p in w.recloses && w.recloses[p].closing.None? && w.recloses[p].due != [] && w.recloses[p].due[0] < |w.rows|
    case CloseNext(p) => p in w.recloses && w.recloses[p].closing.Some? && w.recloses[p].closing.value < |w.rows|
    case Die(p) => p in w.recloses
    case Read(o, k) => o !in w.looks && Fault(w, k)
    case Write(o, to) => o in w.looks && Fault(w, w.looks[o].k) && MayWrite(w.looks[o].read, to)
    case CrewCompletes(k) => Fault(w, k)
    case Rebalance(k, to) => Fault(w, k) && (w.rows[k].status, to) in {(Open, Dispatched), (Dispatched, Open)}
    case Report(_, _) => true
    case Tick(_) => true
  }

  function AddTags(i: Incident, tags: set<nat>): Incident {
    if tags == {} then i else i.(tags := i.tags + tags, tripped := true)
  }

  function Opened(f: Flight, at: int): Incident { AddTags(Incident(f.scope, Open, false, true, at, {}, false, false), f.tags) }

  function SetStatus(rows: seq<Incident>, k: nat, to: Status): seq<Incident>
    requires k < |rows|
  {
    rows[k := rows[k].(status := to)]
  }

  function Next(w: World, e: Event): World
    requires Possible(w, e)
  {
    match e
    case Select(f, scope, tags) => w.(flights := w.flights[f := Flight(scope, tags, Match(scope, w.rows, w.now, |w.rows|), w.now)])
    case Commit(f, at) =>
      var t := w.flights[f];
      w.(flights := w.flights - {f},
         rows := if t.target.Some? then w.rows[t.target.value := AddTags(w.rows[t.target.value], t.tags)] else w.rows + [Opened(t, at)])
    case Rollback(f) => w.(flights := w.flights - {f})
    case RemoveTag(p, tag) =>
      w.(rows := RemovedAll(w.rows, tag), recloses := w.recloses[p := Reclose(DueFor(w.rows, tag, |w.rows|), None)])
    case RestoreNext(p) =>
      var r := w.recloses[p];
      var k := r.due[0];
      w.(rows := w.rows[k := w.rows[k].(status := Resolved, restored := true)],
         recloses := w.recloses[p := Reclose(r.due[1..], if Momentary(w.rows[k], w.now) then Some(k) else None)])
    case CloseNext(p) =>
      w.(rows := SetStatus(w.rows, w.recloses[p].closing.value, Closed), recloses := w.recloses[p := w.recloses[p].(closing := None)])
    case Die(p) => w.(recloses := w.recloses - {p})
    case Read(o, k) => w.(looks := w.looks[o := Look(k, w.rows[k].status)])
    case Write(o, to) => w.(rows := SetStatus(w.rows, w.looks[o].k, to), looks := w.looks - {o})
    case CrewCompletes(k) => w.(rows := SetStatus(w.rows, k, Pending))
    case Rebalance(k, to) => w.(rows := SetStatus(w.rows, k, to))
    case Report(scope, planned) =>
      w.(rows := w.rows + [Incident(scope, if planned then Planned else Open, planned, false, w.now, {}, false, false)])
    case Tick(m) => w.(now := w.now + m)
  }

  // ---- runs ----

  ghost predicate PossibleRun(w: World, es: seq<Event>)
    decreases |es|
  {
    es == [] || (Possible(w, es[0]) && PossibleRun(Next(w, es[0]), es[1..]))
  }

  ghost function After(w: World, es: seq<Event>): World
    requires PossibleRun(w, es)
    decreases |es|
  {
    if es == [] then w else After(Next(w, es[0]), es[1..])
  }

  ghost predicate RowsSane(rows: seq<Incident>) {
    forall k :: 0 <= k < |rows| ==> (rows[k].planned <==> rows[k].status == Planned) && (rows[k].scada ==> !rows[k].planned)
  }

  ghost predicate FaultRow(rows: seq<Incident>, k: nat) { k < |rows| && !rows[k].planned }

  ghost predicate FlightsSane(rows: seq<Incident>, now: int, flights: map<nat, Flight>) {
    forall f :: f in flights ==> flights[f].since <= now && (flights[f].target.Some? ==> FaultRow(rows, flights[f].target.value))
  }

  ghost predicate ReclosesSane(rows: seq<Incident>, recloses: map<nat, Reclose>) {
    forall p :: p in recloses ==> RecloseSane(rows, recloses[p])
  }

  ghost predicate LooksSane(rows: seq<Incident>, looks: map<nat, Look>) {
    forall o :: o in looks ==> FaultRow(rows, looks[o].k) && looks[o].read != Planned
  }

  /** What every interleaving keeps: planned incidents apart, and references to incidents that exist. */
  ghost predicate Sane(w: World) {
    RowsSane(w.rows) && FlightsSane(w.rows, w.now, w.flights) && ReclosesSane(w.rows, w.recloses) && LooksSane(w.rows, w.looks)
  }

  /** A trip waits exactly while another trip is under way on its feeder, or, where one of the two names no feeder, in its
    * substation. */
  lemma TripWaitsExactly(w: World, f: nat, scope: Scope, tags: set<nat>)
    requires f !in w.flights
    ensures !Possible(w, Select(f, scope, tags)) <==>
      exists g :: g in w.flights && (var other := w.flights[g].scope;
        || (scope.feeder.Some? && other.feeder == scope.feeder)
        || ((scope.feeder.None? || other.feeder.None?) && scope.substation.Some? && other.substation == scope.substation))
  {
  }

  /** Nothing else waits: in every sane world a trip under way may commit or roll back, a reclose goes on with its next
    * statement or dies, and control room and crews may read, write back or complete whatever fault they look at. */
  lemma NothingElseWaits(w: World, id: nat, k: nat, tag: nat)
    requires Sane(w)
    ensures id in w.flights ==> Possible(w, Commit(id, w.now)) && Possible(w, Rollback(id))
    ensures id !in w.recloses <==> Possible(w, RemoveTag(id, tag))
    ensures id in w.recloses ==> Possible(w, Die(id))
    ensures id in w.recloses && w.recloses[id].closing.Some? <==> Possible(w, CloseNext(id))
    ensures id in w.recloses && w.recloses[id].closing.None? && w.recloses[id].due != [] <==> Possible(w, RestoreNext(id))
    ensures k < |w.rows| && !w.rows[k].planned ==> Possible(w, CrewCompletes(k)) && (id !in w.looks <==> Possible(w, Read(id, k)))
    ensures forall scope, planned :: Possible(w, Report(scope, planned))
    ensures forall m :: Possible(w, Tick(m))
    ensures id in w.looks ==>
      forall to :: to == w.looks[id].read || FaultMove(w.looks[id].read, to) || (w.looks[id].read == Open && to == InProgress) ==> Possible(w, Write(id, to))
  {
    hide RowsSane, FaultMove;
  }

  ghost predicate RecloseSane(rows: seq<Incident>, r: Reclose) {
    (forall i :: 0 <= i < |r.due| ==> FaultRow(rows, r.due[i])) && (r.closing.Some? ==> FaultRow(rows, r.closing.value))
  }

  /** Rows are only ever appended, and keep their scope, their kind and when they were opened. */
  ghost predicate SameKinds(a: seq<Incident>, b: seq<Incident>) {
    |a| <= |b| && forall k :: 0 <= k < |a| ==>
      b[k].scope == a[k].scope && b[k].planned == a[k].planned && b[k].scada == a[k].scada && b[k].openedAt == a[k].openedAt
      && (a[k].planned ==> b[k].status == a[k].status)
  }

  lemma NextSameKinds(w: World, e: Event)
    requires Sane(w) && Possible(w, e)
    ensures SameKinds(w.rows, Next(w, e).rows)
  {
  }

  lemma RemoveTagSane(rows: seq<Incident>, tag: nat)
    ensures RecloseSane(RemovedAll(rows, tag), Reclose(DueFor(rows, tag, |rows|), None))
  {
    var due := DueFor(rows, tag, |rows|);
    forall i | 0 <= i < |due| ensures due[i] < |rows| && !rows[due[i]].planned {
      assert due[i] in due;
      DueForIff(rows, tag, |rows|, due[i]);
    }
  }

  lemma GrowsSane(a: seq<Incident>, b: seq<Incident>, now: int, later: int, flights: map<nat, Flight>, recloses: map<nat, Reclose>,
                  looks: map<nat, Look>)
    requires SameKinds(a, b) && now <= later
    ensures FlightsSane(a, now, flights) ==> FlightsSane(b, later, flights)
    ensures ReclosesSane(a, recloses) ==> ReclosesSane(b, recloses)
    ensures LooksSane(a, looks) ==> LooksSane(b, looks)
  {
  }

  lemma NextSane(w: World, e: Event)
    requires Sane(w) && Possible(w, e)
    ensures Sane(Next(w, e))
  {
    var w' := Next(w, e);
    NextSameKinds(w, e);
    assert RowsSane(w'.rows) by { hide FlightsSane, ReclosesSane, LooksSane; }
    if e.RemoveTag? { RemoveTagSane(w.rows, e.tag); }
    GrowsSane(w.rows, w'.rows, w.now, w'.now, w.flights, w.recloses, w.looks);
    hide RowsSane, SameKinds, DueFor, Opened, AddTags, Removed, MayWrite;
  }
}
