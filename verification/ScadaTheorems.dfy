/** What every interleaving of SCADA, the control room and the crews leaves on the incident list, and exactly which events
  * break it. */
module ScadaTheorems {
  import opened Common
  import opened ScadaIncidents
  import opened ScadaRuns

  // ---- status writes that make a finished incident active again ----

  predicate IsWrite(e: Event) { e.Write? || e.CrewCompletes? }

  function Target(w: World, e: Event): nat
    requires Possible(w, e) && IsWrite(e)
  {
    if e.Write? then w.looks[e.o].k else e.k
  }

  function Written(e: Event): Status
    requires IsWrite(e)
  {
    if e.Write? then e.status else Pending
  }

  predicate Finished(s: Status) { s in {Resolved, Closed, Cancelled} }

  /** The incident is resolved, closed or cancelled when the write lands, and active after it. */
  predicate Revives(w: World, e: Event)
    requires Possible(w, e)
  {
    IsWrite(e) && Fault(w, Target(w, e)) && Finished(w.rows[Target(w, e)].status) && !Finished(Written(e))
  }

  // ---- no active incident is left without its devices ----

  /** An active fault incident that had a tripped device and has none open. */
  predicate Stuck(i: Incident) { !i.planned && i.tripped && Active(i) && i.tags == {} }

  ghost predicate UnderWay(recloses: map<nat, Reclose>, k: nat) { exists p :: p in recloses && k in recloses[p].due }

  /** Whatever active incident has no tripped device open any more is about to be restored. */
  ghost predicate AllTagged(w: World) { forall k :: 0 <= k < |w.rows| && Stuck(w.rows[k]) ==> UnderWay(w.recloses, k) }

  ghost predicate Strands(w: World, p: nat, k: nat) {
    p in w.recloses && k < |w.rows| && Stuck(w.rows[k]) && k in w.recloses[p].due && !UnderWay(w.recloses - {p}, k)
  }

  /** The two ways to leave an incident active with nothing to restore it: a write that revives it, or the death of the
    * reclose that took its last tag. */
  ghost predicate BreaksTagged(w: World, e: Event)
    requires Possible(w, e)
  {
    || (Revives(w, e) && Stuck(w.rows[Target(w, e)].(status := Written(e))) && !UnderWay(w.recloses, Target(w, e)))
    || (e.Die? && exists k :: Strands(w, e.p, k))
  }

  lemma StatusTagged(w: World, w': World, k: nat, to: Status)
    requires AllTagged(w) && k < |w.rows| && w'.rows == SetStatus(w.rows, k, to) && w'.recloses == w.recloses
    ensures AllTagged(w') <==> (Stuck(w'.rows[k]) ==> UnderWay(w.recloses, k))
  {
    hide UnderWay;
    forall j | 0 <= j < |w.rows| && j != k ensures w'.rows[j] == w.rows[j] {}
  }

  lemma WriteTagged(w: World, e: Event)
    requires Sane(w) && AllTagged(w) && Possible(w, e) && IsWrite(e)
    ensures AllTagged(Next(w, e)) <==> !BreaksTagged(w, e)
  {
    var k, to := Target(w, e), Written(e);
    StatusTagged(w, Next(w, e), k, to);
    assert w.rows[k].status != Planned;
    if e.Write? { assert LooksSane(w.rows, w.looks) && to != Planned; }
    hide UnderWay, AllTagged, Sane;
  }

  lemma MoreUnderWay(a: map<nat, Reclose>, p: nat, r: Reclose, k: nat)
    requires p !in a
    ensures UnderWay(a[p := r], k) <==> UnderWay(a, k) || k in r.due
  {
    if UnderWay(a, k) {
      var q :| q in a && k in a[q].due;
      assert a[p := r][q] == a[q];
    }
    if k in r.due { assert a[p := r][p] == r; }
  }

  lemma RemoveTagged(w: World, p: nat, tag: nat)
    requires Sane(w) && AllTagged(w) && Possible(w, RemoveTag(p, tag))
    ensures AllTagged(Next(w, RemoveTag(p, tag)))
  {
    var w' := Next(w, RemoveTag(p, tag));
    var r := w'.recloses[p];
    forall k | 0 <= k < |w'.rows| && Stuck(w'.rows[k]) ensures UnderWay(w'.recloses, k) {
      MoreUnderWay(w.recloses, p, r, k);
      DueForIff(w.rows, tag, |w.rows|, k);
      var i := w.rows[k];
      assert Stuck(i) || TakesLast(i, tag);
    }
  }

  lemma RestoreTagged(w: World, p: nat)
    requires Sane(w) && AllTagged(w) && Possible(w, RestoreNext(p))
    ensures AllTagged(Next(w, RestoreNext(p)))
  {
    var w' := Next(w, RestoreNext(p));
    var r := w.recloses[p];
    forall k | 0 <= k < |w'.rows| && Stuck(w'.rows[k]) ensures UnderWay(w'.recloses, k) {
      assert k != r.due[0] && w'.rows[k] == w.rows[k];
      var q :| q in w.recloses && k in w.recloses[q].due;
      if q == p {
        assert k in r.due[1..] by { var j :| 0 <= j < |r.due| && r.due[j] == k; assert r.due[1..][j - 1] == k; }
        assert w'.recloses[p].due == r.due[1..];
      } else {
        assert w'.recloses[q] == w.recloses[q];
      }
    }
  }

  lemma DieTagged(w: World, p: nat)
    requires Sane(w) && AllTagged(w) && Possible(w, Die(p))
    ensures AllTagged(Next(w, Die(p))) <==> !BreaksTagged(w, Die(p))
  {
    var w' := Next(w, Die(p));
    forall k | 0 <= k < |w.rows| && Stuck(w.rows[k]) ensures Strands(w, p, k) <==> !UnderWay(w'.recloses, k) {
      var q :| q in w.recloses && k in w.recloses[q].due;
      if q != p { assert q in w'.recloses && w'.recloses[q] == w.recloses[q]; }
    }
    hide UnderWay;
  }

  lemma SameTagged(w: World, w': World)
    requires AllTagged(w) && |w.rows| <= |w'.rows|
    requires forall k :: 0 <= k < |w'.rows| && Stuck(w'.rows[k]) ==> k < |w.rows| && Stuck(w.rows[k])
    requires forall p :: p in w.recloses ==> p in w'.recloses && w'.recloses[p].due == w.recloses[p].due
    ensures AllTagged(w')
  {
    forall k | 0 <= k < |w'.rows| && Stuck(w'.rows[k]) ensures UnderWay(w'.recloses, k) {
      var p :| p in w.recloses && k in w.recloses[p].due;
      assert p in w'.recloses && k in w'.recloses[p].due;
    }
  }

  /** One event, exactly. */
  lemma StepTagged(w: World, e: Event)
    requires Sane(w) && AllTagged(w) && Possible(w, e)
    ensures AllTagged(Next(w, e)) <==> !BreaksTagged(w, e)
  {
    if IsWrite(e) {
      WriteTagged(w, e);
    } else if e.RemoveTag? {
      RemoveTagged(w, e.p, e.tag);
    } else if e.RestoreNext? {
      RestoreTagged(w, e.p);
    } else if e.Die? {
      DieTagged(w, e.p);
    } else {
      hide AllTagged, Sane, UnderWay;
      SameTagged(w, Next(w, e));
    }
  }

  /** It holds after every event of a run. */
  ghost predicate AlwaysTagged(w: World, es: seq<Event>)
    requires PossibleRun(w, es)
    decreases |es|
  {
    AllTagged(w) && (es != [] ==> AlwaysTagged(Next(w, es[0]), es[1..]))
  }

  ghost predicate SomeBreaksTagged(w: World, es: seq<Event>)
    requires PossibleRun(w, es)
    decreases |es|
  {
    es != [] && (BreaksTagged(w, es[0]) || SomeBreaksTagged(Next(w, es[0]), es[1..]))
  }

  lemma {:induction false} RunTagged(w: World, es: seq<Event>)
    requires Sane(w) && AllTagged(w) && PossibleRun(w, es)
    ensures AlwaysTagged(w, es) <==> !SomeBreaksTagged(w, es)
    decreases |es|
  {
    if es != [] {
      StepTagged(w, es[0]);
      NextSane(w, es[0]);
      if AllTagged(Next(w, es[0])) { RunTagged(Next(w, es[0]), es[1..]); }
    }
  }

  /** In every interleaving an active fault incident that had a tripped device always has one still open, or is about to be
    * restored, exactly if no status write of the run lands on such an incident after it was resolved, closed or cancelled and
    * makes it active again, and no reclose dies between taking its last tag and restoring it. */
  lemma NothingLeftOpenExactly(start: int, es: seq<Event>)
    requires PossibleRun(Init(start), es)
    ensures AlwaysTagged(Init(start), es) <==> !SomeBreaksTagged(Init(start), es)
  {
    RunTagged(Init(start), es);
  }

  /** A crew's Work Complete, by the incident's status when it arrives. */
  lemma CompletionTagsExactly(w: World, k: nat)
    requires Sane(w) && AllTagged(w) && Possible(w, CrewCompletes(k))
    ensures var i := w.rows[k];
      AllTagged(Next(w, CrewCompletes(k))) <==> !Finished(i.status) || !i.tripped || i.tags != {} || UnderWay(w.recloses, k)
  {
    StepTagged(w, CrewCompletes(k));
    hide UnderWay, AllTagged, Sane;
  }

  // ---- one active incident per feeder ----

  predicate Far(a: Incident, b: Incident) { a.openedAt + WINDOW_MIN < b.openedAt || b.openedAt + WINDOW_MIN < a.openedAt }

  /** Every two active incidents SCADA opened on one feeder were opened more than four hours apart. */
  ghost predicate AllApart(w: World) {
    forall i, j :: 0 <= i < |w.rows| && 0 <= j < |w.rows| && i != j && Rivals(w.rows[i], w.rows[j]) ==> Far(w.rows[i], w.rows[j])
  }

  /** Some other row stands beside i, active on its feeder, within four hours. */
  ghost predicate Beside(rows: seq<Incident>, i: Incident, k: nat) {
    exists j :: 0 <= j < |rows| && j != k && Rivals(rows[j], i) && !Far(rows[j], i)
  }

  ghost predicate BreaksApart(w: World, e: Event)
    requires Possible(w, e)
  {
    || (Revives(w, e) && Beside(w.rows, w.rows[Target(w, e)].(status := Written(e)), Target(w, e)))
    || (e.Commit? && w.flights[e.f].target.None? && Beside(w.rows, Opened(w.flights[e.f], e.openedAt), |w.rows|))
  }

  /** Row k changed, or is new; nobody else became active. */
  lemma OneRowApart(w: World, w': World, k: nat)
    requires AllApart(w) && k < |w'.rows| && |w.rows| <= |w'.rows| <= |w.rows| + 1 && (|w'.rows| > |w.rows| ==> k == |w.rows|)
    requires forall j :: 0 <= j < |w.rows| && j != k ==> w'.rows[j] == w.rows[j]
    ensures AllApart(w') <==> !Beside(w.rows, w'.rows[k], k)
  {
    hide Rivals, Far;
    RivalsMutual();
    if AllApart(w') {
      forall j | 0 <= j < |w.rows| && j != k && Rivals(w.rows[j], w'.rows[k]) ensures Far(w.rows[j], w'.rows[k]) {
        assert w'.rows[j] == w.rows[j];
      }
    }
    if !Beside(w.rows, w'.rows[k], k) {
      forall i, j | 0 <= i < |w'.rows| && 0 <= j < |w'.rows| && i != j && Rivals(w'.rows[i], w'.rows[j]) ensures Far(w'.rows[i], w'.rows[j]) {
        if i != k && j != k { assert w'.rows[i] == w.rows[i] && w'.rows[j] == w.rows[j]; }
      }
    }
  }

  lemma RivalsMutual()
    ensures forall a, b :: Rivals(a, b) == Rivals(b, a) && Far(a, b) == Far(b, a)
  {
  }

  lemma FewerActiveApart(w: World, w': World)
    requires AllApart(w) && |w'.rows| == |w.rows|
    requires forall j :: 0 <= j < |w.rows| ==>
      w'.rows[j].scope == w.rows[j].scope && w'.rows[j].scada == w.rows[j].scada && w'.rows[j].openedAt == w.rows[j].openedAt
      && (Active(w'.rows[j]) ==> Active(w.rows[j]))
    ensures AllApart(w')
  {
    forall i, j | 0 <= i < |w'.rows| && 0 <= j < |w'.rows| && i != j && Rivals(w'.rows[i], w'.rows[j]) ensures Far(w'.rows[i], w'.rows[j]) {
      assert Rivals(w.rows[i], w.rows[j]);
    }
  }

  lemma WriteApart(w: World, e: Event)
    requires Sane(w) && AllApart(w) && Possible(w, e) && IsWrite(e)
    ensures AllApart(Next(w, e)) <==> !BreaksApart(w, e)
  {
    var w', k := Next(w, e), Target(w, e);
    assert w'.rows[k] == w.rows[k].(status := Written(e));
    if Revives(w, e) {
      hide AllApart, Beside, Sane;
      OneRowApart(w, w', k);
    } else {
      assert Active(w'.rows[k]) ==> Active(w.rows[k]);
      hide AllApart, Beside, Sane;
      FewerActiveApart(w, w');
    }
  }

  lemma CommitApart(w: World, f: nat, at: int)
    requires Sane(w) && AllApart(w) && Possible(w, Commit(f, at))
    ensures AllApart(Next(w, Commit(f, at))) <==> !BreaksApart(w, Commit(f, at))
  {
    var w', t := Next(w, Commit(f, at)), w.flights[f];
    hide AllApart, Beside, Sane;
    if t.target.Some? {
      FewerActiveApart(w, w');
    } else {
      OneRowApart(w, w', |w.rows|);
    }
  }

  lemma StepApart(w: World, e: Event)
    requires Sane(w) && AllApart(w) && Possible(w, e)
    ensures AllApart(Next(w, e)) <==> !BreaksApart(w, e)
  {
    if IsWrite(e) {
      WriteApart(w, e);
    } else if e.Commit? {
      CommitApart(w, e.f, e.openedAt);
    } else if e.Report? {
      hide AllApart;
      OneRowApart(w, Next(w, e), |w.rows|);
    } else {
      hide AllApart, Sane;
      FewerActiveApart(w, Next(w, e));
    }
  }

  ghost predicate AlwaysApart(w: World, es: seq<Event>)
    requires PossibleRun(w, es)
    decreases |es|
  {
    AllApart(w) && (es != [] ==> AlwaysApart(Next(w, es[0]), es[1..]))
  }

  ghost predicate SomeBreaksApart(w: World, es: seq<Event>)
    requires PossibleRun(w, es)
    decreases |es|
  {
    es != [] && (BreaksApart(w, es[0]) || SomeBreaksApart(Next(w, es[0]), es[1..]))
  }

  lemma {:induction false} RunApart(w: World, es: seq<Event>)
    requires Sane(w) && AllApart(w) && PossibleRun(w, es)
    ensures AlwaysApart(w, es) <==> !SomeBreaksApart(w, es)
    decreases |es|
  {
    if es != [] {
      StepApart(w, es[0]);
      NextSane(w, es[0]);
      if AllApart(Next(w, es[0])) { RunApart(Next(w, es[0]), es[1..]); }
    }
  }

  /** In every interleaving two active SCADA incidents of one feeder are always more than four hours apart, exactly if no
    * status write of the run makes a finished one active again beside another, and no trip opens one beside another. */
  lemma OneActivePerFeederExactly(start: int, es: seq<Event>)
    requires PossibleRun(Init(start), es)
    ensures AlwaysApart(Init(start), es) <==> !SomeBreaksApart(Init(start), es)
  {
    RunApart(Init(start), es);
  }

  /** A crew's Work Complete, by the incident's status when it arrives. */
  lemma CompletionDoublesExactly(w: World, k: nat)
    requires Sane(w) && AllApart(w) && Possible(w, CrewCompletes(k))
    ensures AllApart(Next(w, CrewCompletes(k))) <==>
            !Finished(w.rows[k].status) || !Beside(w.rows, w.rows[k].(status := Pending), k)
  {
    StepApart(w, CrewCompletes(k));
    hide AllApart, Beside, Sane;
  }

  // ---- and a trip opens one beside another only after such a write ----

  /** Trips on the way wait for each other on a feeder, and one that found no incident to join is four hours past every
    * active one of its feeder. */
  ghost predicate Ahead(rows: seq<Incident>, t: Flight) {
    t.target.None? && t.scope.feeder.Some? ==>
      forall j :: 0 <= j < |rows| && rows[j].scada && Active(rows[j]) && rows[j].scope.feeder == t.scope.feeder ==>
        rows[j].openedAt + WINDOW_MIN < t.since
  }

  ghost predicate AllAhead(w: World) {
    && (forall f :: f in w.flights ==> Ahead(w.rows, w.flights[f]))
    && (forall f, g :: f in w.flights && g in w.flights && f != g ==> !Excludes(w.flights[f].scope, w.flights[g].scope))
  }

  lemma SelectAhead(w: World, scope: Scope, tags: set<nat>)
    requires RowsSane(w.rows)
    ensures Ahead(w.rows, Flight(scope, tags, Match(scope, w.rows, w.now, |w.rows|), w.now))
  {
  }

  lemma StillAhead(rows: seq<Incident>, rows': seq<Incident>, t: Flight)
    requires Ahead(rows, t) && |rows| <= |rows'|
    requires forall j :: 0 <= j < |rows| ==>
      rows'[j].scope == rows[j].scope && rows'[j].scada == rows[j].scada && rows'[j].openedAt == rows[j].openedAt
      && (Active(rows'[j]) ==> Active(rows[j]))
    requires forall j :: |rows| <= j < |rows'| && rows'[j].scada && t.scope.feeder.Some? ==> rows'[j].scope.feeder != t.scope.feeder
    ensures Ahead(rows', t)
  {
  }

  /** No write revived anything: nobody became active but by being opened. */
  lemma NoOneRevived(w: World, e: Event)
    requires Sane(w) && Possible(w, e) && !Revives(w, e)
    ensures |w.rows| <= |Next(w, e).rows| && forall j :: 0 <= j < |w.rows| ==>
      var a, b := w.rows[j], Next(w, e).rows[j];
      b.scope == a.scope && b.scada == a.scada && b.openedAt == a.openedAt && (Active(b) ==> Active(a))
  {
    if e.Write? { assert LooksSane(w.rows, w.looks); }
  }

  lemma StepAhead(w: World, e: Event)
    requires Sane(w) && AllAhead(w) && Possible(w, e) && !Revives(w, e)
    ensures AllAhead(Next(w, e))
  {
    var w' := Next(w, e);
    NoOneRevived(w, e);
    if e.Select? { SelectAhead(w, e.scope, e.tags); }
    forall f | f in w'.flights && f in w.flights ensures Ahead(w'.rows, w'.flights[f]) {
      assert w'.flights[f] == w.flights[f];
      if e.Commit? { assert f != e.f && !Excludes(w.flights[e.f].scope, w.flights[f].scope); }
      hide Sane, AllAhead, Ahead, Match;
      StillAhead(w.rows, w'.rows, w.flights[f]);
    }
    hide Ahead, Sane, Match, RemovedAll, SetStatus;
  }

  lemma OpensApart(w: World, f: nat, at: int)
    requires AllAhead(w) && Possible(w, Commit(f, at))
    ensures !BreaksApart(w, Commit(f, at))
  {
    assert Ahead(w.rows, w.flights[f]);
  }

  ghost predicate NoneRevives(w: World, es: seq<Event>)
    requires PossibleRun(w, es)
    decreases |es|
  {
    es != [] ==> !Revives(w, es[0]) && NoneRevives(Next(w, es[0]), es[1..])
  }

  lemma {:induction false} UnrevivedApart(w: World, es: seq<Event>)
    requires Sane(w) && AllAhead(w) && PossibleRun(w, es) && NoneRevives(w, es)
    ensures !SomeBreaksApart(w, es)
    decreases |es|
  {
    if es != [] {
      if es[0].Commit? { OpensApart(w, es[0].f, es[0].openedAt); }
      StepAhead(w, es[0]);
      NextSane(w, es[0]);
      hide Sane, AllAhead, Possible, Next;
      UnrevivedApart(Next(w, es[0]), es[1..]);
    }
  }

  /** So as long as every status write of a run finds its incident still active, a feeder has at most one active SCADA
    * incident of any four hours, however trips, recloses, requests and crashes interleave. */
  lemma OneActiveIncidentPerFeeder(start: int, es: seq<Event>)
    requires PossibleRun(Init(start), es) && NoneRevives(Init(start), es)
    ensures AlwaysApart(Init(start), es)
  {
    UnrevivedApart(Init(start), es);
    RunApart(Init(start), es);
  }

  ghost predicate NoReclosesDie(es: seq<Event>) { forall k :: 0 <= k < |es| ==> !es[k].Die? }

  lemma {:induction false} UnrevivedTagged(w: World, es: seq<Event>)
    requires PossibleRun(w, es) && NoneRevives(w, es) && NoReclosesDie(es)
    ensures !SomeBreaksTagged(w, es)
    decreases |es|
  {
    if es != [] {
      assert NoReclosesDie(es[1..]);
      UnrevivedTagged(Next(w, es[0]), es[1..]);
    }
  }

  /** And if no reclose dies either, no active incident is left without its tripped devices. */
  lemma NothingLeftOpen(start: int, es: seq<Event>)
    requires PossibleRun(Init(start), es) && NoneRevives(Init(start), es) && NoReclosesDie(es)
    ensures AlwaysTagged(Init(start), es)
  {
    UnrevivedTagged(Init(start), es);
    RunTagged(Init(start), es);
  }
}
