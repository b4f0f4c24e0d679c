/** What an incident's restoration means when trips run beside the reclose (backend/src/realtime/scada.js). */
module ScadaRestores {
  import opened Common
  import opened ScadaIncidents
  import opened ScadaRuns
  import opened ScadaTheorems

  /** A trip writes tag g on incident k. */
  predicate Adds(w: World, e: Event, k: nat, g: nat)
    requires Possible(w, e)
  {
    e.Commit? && g in w.flights[e.f].tags && (match w.flights[e.f].target case Some(t) => t == k case None => k == |w.rows|)
  }

  /** A reclose takes tag g from incident k, which it does only while the incident is active. */
  predicate Takes(w: World, e: Event, k: nat, g: nat) { e.RemoveTag? && e.tag == g && k < |w.rows| && Active(w.rows[k]) }

  ghost predicate TakenLater(w: World, es: seq<Event>, k: nat, g: nat)
    requires PossibleRun(w, es)
    decreases |es|
  {
    es != [] && (Takes(w, es[0], k, g) || TakenLater(Next(w, es[0]), es[1..], k, g))
  }

  /** During the run a trip joined incident k with tag g, and nothing took that tag off again. */
  ghost predicate Joined(w: World, es: seq<Event>, k: nat, g: nat)
    requires PossibleRun(w, es)
    decreases |es|
  {
    es != [] && ((Adds(w, es[0], k, g) && !TakenLater(Next(w, es[0]), es[1..], k, g)) || Joined(Next(w, es[0]), es[1..], k, g))
  }

  lemma StepTag(w: World, e: Event, k: nat, g: nat)
    requires Possible(w, e) && k < |w.rows|
    ensures k < |Next(w, e).rows|
    ensures g in Next(w, e).rows[k].tags <==> (g in w.rows[k].tags && !Takes(w, e, k, g)) || Adds(w, e, k, g)
  {
  }

  /** A tag is open on an incident exactly if it was and was not taken, or if a trip joined with it since. */
  lemma {:induction false} RunTag(w: World, es: seq<Event>, k: nat, g: nat)
    requires PossibleRun(w, es) && k < |w.rows|
    ensures k < |After(w, es).rows|
    ensures g in After(w, es).rows[k].tags <==> (g in w.rows[k].tags && !TakenLater(w, es, k, g)) || Joined(w, es, k, g)
    decreases |es|
  {
    if es != [] {
      StepTag(w, es[0], k, g);
      hide Adds, Takes, Possible, Next;
      RunTag(Next(w, es[0]), es[1..], k, g);
    }
  }

  /** A reclose goes on to restore exactly the active fault incidents on which its tag was the last one open. */
  lemma RestoresItsLastTagExactly(w: World, p: nat, tag: nat, k: nat)
    requires Sane(w) && Possible(w, RemoveTag(p, tag)) && k < |w.rows|
    ensures var w' := Next(w, RemoveTag(p, tag));
      k in w'.recloses[p].due <==> w.rows[k].tags == {tag} && Active(w.rows[k]) && !w.rows[k].planned
  {
    DueForIff(w.rows, tag, |w.rows|, k);
    var i := w.rows[k];
    assert tag in i.tags && i.tags - {tag} == {} <==> i.tags == {tag};
  }

  /** When the restore of an incident lands, whatever ran since the reclose took its last tag, the incident is restored with a
    * tripped device still open exactly if a trip joined it meanwhile whose device has not reclosed. */
  lemma RestoredWithOpenTagExactly(w: World, p: nat, tag: nat, es: seq<Event>, k: nat)
    requires Sane(w) && Possible(w, RemoveTag(p, tag)) && k < |w.rows| && k in Next(w, RemoveTag(p, tag)).recloses[p].due
    requires PossibleRun(Next(w, RemoveTag(p, tag)), es)
    requires var u := After(Next(w, RemoveTag(p, tag)), es);
      Possible(u, RestoreNext(p)) && u.recloses[p].due[0] == k
    ensures var v := Next(w, RemoveTag(p, tag)); var u := Next(After(v, es), RestoreNext(p));
      && k < |u.rows| && u.rows[k].restored && u.rows[k].status == Resolved
      && (u.rows[k].tags != {} <==> exists g :: Joined(v, es, k, g))
  {
    var v := Next(w, RemoveTag(p, tag));
    OpenTagSinceExactly(w, p, tag, es, k);
    hide Next, Possible, Sane;
    RestoreWrites(After(v, es), p, k);
  }

  lemma RestoreWrites(u: World, p: nat, k: nat)
    requires Possible(u, RestoreNext(p)) && u.recloses[p].due[0] == k
    ensures k < |u.rows| && Next(u, RestoreNext(p)).rows == u.rows[k := u.rows[k].(status := Resolved, restored := true)]
  {
  }

  /** At any moment after a reclose took an incident's last tag, before the restore lands or long after it, the incident holds an
    * open tag exactly if a trip joined it since then whose device has not reclosed from it: joined before the restore, or
    * selected before it and committed after it. */
  lemma OpenTagSinceExactly(w: World, p: nat, tag: nat, es: seq<Event>, k: nat)
    requires Sane(w) && Possible(w, RemoveTag(p, tag)) && k < |w.rows| && k in Next(w, RemoveTag(p, tag)).recloses[p].due
    requires PossibleRun(Next(w, RemoveTag(p, tag)), es)
    ensures var v := Next(w, RemoveTag(p, tag)); var u := After(v, es);
      k < |u.rows| && (u.rows[k].tags != {} <==> exists g :: Joined(v, es, k, g))
  {
    var v := Next(w, RemoveTag(p, tag));
    RestoresItsLastTagExactly(w, p, tag, k);
    assert v.rows[k].tags == {};
    var u := After(v, es);
    hide Next, Possible, Sane;
    forall g ensures k < |u.rows| && (g in u.rows[k].tags <==> Joined(v, es, k, g)) { RunTag(v, es, k, g); }
    if u.rows[k].tags != {} {
      var g :| g in u.rows[k].tags;
      assert Joined(v, es, k, g);
    }
  }

  /** A restore resolves its incident; if it was opened at most five minutes before, and only then, the reclose goes on to close
    * it. */
  lemma RestoreExactly(w: World, p: nat)
    requires Possible(w, RestoreNext(p))
    ensures var k := w.recloses[p].due[0]; var v := Next(w, RestoreNext(p));
      && v.rows == w.rows[k := w.rows[k].(status := Resolved, restored := true)]
      && (Possible(v, CloseNext(p)) <==> w.now - w.rows[k].openedAt <= 5)
      && (Possible(v, CloseNext(p)) ==> Next(v, CloseNext(p)).rows == w.rows[k := w.rows[k].(status := Closed, restored := true)])
  {
  }

  // ---- no device on a finished incident ----

  predicate Forgotten(i: Incident) { Finished(i.status) && i.tags != {} }

  /** Every device still open stands on an active incident. */
  ghost predicate NoneForgotten(w: World) { forall k :: 0 <= k < |w.rows| ==> !Forgotten(w.rows[k]) }

  /** The event finishes an incident that has a device open, or adds a device to one that is finished. */
  predicate Forgets(w: World, e: Event)
    requires Possible(w, e)
  {
    match e
    case Commit(f, _) => var t := w.flights[f]; t.target.Some? && t.tags != {} && Finished(w.rows[t.target.value].status)
    case RestoreNext(p) => w.rows[w.recloses[p].due[0]].tags != {}
    case CloseNext(p) => w.rows[w.recloses[p].closing.value].tags != {}
    case Write(o, to) => Finished(to) && w.rows[w.looks[o].k].tags != {}
    case _ => false
  }

  lemma StepForgotten(w: World, e: Event)
    requires NoneForgotten(w) && Possible(w, e)
    ensures NoneForgotten(Next(w, e)) <==> !Forgets(w, e)
  {
    var w' := Next(w, e);
    match e
    case Commit(f, at) =>
      if w.flights[f].target.Some? { OneForgotten(w, w', w.flights[f].target.value); } else { assert !Forgotten(w'.rows[|w.rows|]); }
    case RestoreNext(p) => OneForgotten(w, w', w.recloses[p].due[0]);
    case CloseNext(p) => OneForgotten(w, w', w.recloses[p].closing.value);
    case Write(o, _) => OneForgotten(w, w', w.looks[o].k);
    case CrewCompletes(k) => OneForgotten(w, w', k);
    case Rebalance(k, _) => OneForgotten(w, w', k);
    case _ =>
  }

  lemma OneForgotten(w: World, w': World, k: nat)
    requires NoneForgotten(w) && k < |w.rows| && |w'.rows| == |w.rows|
    requires forall j :: 0 <= j < |w.rows| && j != k ==> w'.rows[j] == w.rows[j]
    ensures NoneForgotten(w') <==> !Forgotten(w'.rows[k])
  {
  }

  ghost predicate NeverForgotten(w: World, es: seq<Event>)
    requires PossibleRun(w, es)
    decreases |es|
  {
    NoneForgotten(w) && (es != [] ==> NeverForgotten(Next(w, es[0]), es[1..]))
  }

  ghost predicate SomeForgets(w: World, es: seq<Event>)
    requires PossibleRun(w, es)
    decreases |es|
  {
    es != [] && (Forgets(w, es[0]) || SomeForgets(Next(w, es[0]), es[1..]))
  }

  lemma {:induction false} RunForgotten(w: World, es: seq<Event>)
    requires NoneForgotten(w) && PossibleRun(w, es)
    ensures NeverForgotten(w, es) <==> !SomeForgets(w, es)
    decreases |es|
  {
    if es != [] {
      StepForgotten(w, es[0]);
      hide Next, Possible, Forgets, NoneForgotten;
      if NoneForgotten(Next(w, es[0])) { RunForgotten(Next(w, es[0]), es[1..]); }
    }
  }

  /** In every interleaving each device still open stands on an active incident, exactly if no restore, closing or status write
    * of the run finishes an incident while a device is open on it, and no trip commits on an incident finished since it
    * selected it. */
  lemma NoneForgottenExactly(start: int, es: seq<Event>)
    requires PossibleRun(Init(start), es)
    ensures NeverForgotten(Init(start), es) <==> !SomeForgets(Init(start), es)
  {
    RunForgotten(Init(start), es);
  }

  // ---- a reclose that nothing disturbs ----

  predicate InRange(rows: seq<Incident>, due: seq<nat>) { forall i :: 0 <= i < |due| ==> due[i] < |rows| }

  /** The statements a reclose still has to run, one after the other with nothing in between. */
  function Rest(w: World, p: nat): World
    requires p in w.recloses && InRange(w.rows, w.recloses[p].due)
    requires w.recloses[p].closing.Some? ==> w.recloses[p].closing.value < |w.rows|
    decreases |w.recloses[p].due|, if w.recloses[p].closing.Some? then 1 else 0
  {
    var r := w.recloses[p];
    if r.closing.Some? then Rest(Next(w, CloseNext(p)), p)
    else if r.due != [] then
      assert InRange(Next(w, RestoreNext(p)).rows, r.due[1..]);
      Rest(Next(w, RestoreNext(p)), p)
    else w
  }

  lemma RestOne(w: World, p: nat)
    requires p in w.recloses && InRange(w.rows, w.recloses[p].due) && w.recloses[p].closing.None? && w.recloses[p].due != []
    ensures var r := w.recloses[p]; var k := r.due[0];
      var w' := w.(rows := w.rows[k := Restored(w.rows[k], w.now)], recloses := w.recloses[p := Reclose(r.due[1..], None)]);
      InRange(w'.rows, r.due[1..]) && Rest(w, p) == Rest(w', p)
  {
    var r := w.recloses[p];
    var k := r.due[0];
    var w' := w.(rows := w.rows[k := Restored(w.rows[k], w.now)], recloses := w.recloses[p := Reclose(r.due[1..], None)]);
    var w1 := Next(w, RestoreNext(p));
    assert InRange(w1.rows, r.due[1..]);
    if Momentary(w.rows[k], w.now) {
      assert Next(w1, CloseNext(p)).rows == w'.rows && Next(w1, CloseNext(p)).recloses == w'.recloses;
      assert Rest(w1, p) == Rest(Next(w1, CloseNext(p)), p);
    } else {
      assert w1 == w';
    }
  }

  lemma {:induction false} RestLength(w: World, p: nat)
    requires p in w.recloses && InRange(w.rows, w.recloses[p].due) && w.recloses[p].closing.None?
    ensures |Rest(w, p).rows| == |w.rows|
    decreases |w.recloses[p].due|
  {
    var due := w.recloses[p].due;
    if due != [] {
      RestOne(w, p);
      RestLength(w.(rows := w.rows[due[0] := Restored(w.rows[due[0]], w.now)], recloses := w.recloses[p := Reclose(due[1..], None)]), p);
    }
  }

  lemma {:induction false} RestRestores(w: World, p: nat, k: nat)
    requires p in w.recloses && InRange(w.rows, w.recloses[p].due) && w.recloses[p].closing.None? && k < |w.rows|
    ensures |Rest(w, p).rows| == |w.rows|
    ensures Rest(w, p).rows[k] == if k in w.recloses[p].due then Restored(w.rows[k], w.now) else w.rows[k]
    decreases |w.recloses[p].due|
  {
    var due := w.recloses[p].due;
    if due != [] {
      var j := due[0];
      var w' := w.(rows := w.rows[j := Restored(w.rows[j], w.now)], recloses := w.recloses[p := Reclose(due[1..], None)]);
      RestOne(w, p);
      assert k in due <==> k == j || k in due[1..];
      hide Rest;
      RestRestores(w', p, k);
    }
  }

  /** Undisturbed, the statements of a reclose do what the reclose is meant to do at once. */
  lemma UndisturbedReclose(w: World, p: nat, tag: nat)
    requires Sane(w) && Possible(w, RemoveTag(p, tag))
    ensures var v := Next(w, RemoveTag(p, tag));
      InRange(v.rows, v.recloses[p].due) && Rest(v, p).rows == ApplyReclose(w.rows, tag, w.now)
  {
    var v := Next(w, RemoveTag(p, tag));
    RemoveTagSane(w.rows, tag);
    assert InRange(v.rows, v.recloses[p].due) && v.recloses[p].due == DueFor(w.rows, tag, |w.rows|);
    hide Rest, Sane, Possible;
    forall k | 0 <= k < |w.rows|
      ensures |Rest(v, p).rows| == |w.rows| && Rest(v, p).rows[k] == ApplyReclose(w.rows, tag, w.now)[k]
    {
      DueForIff(w.rows, tag, |w.rows|, k);
      RestRestores(v, p, k);
    }
    RestLength(v, p);
  }
}
