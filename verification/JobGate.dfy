/** A crew job's status beside the planned-outage requests: the route reads the job's permit and the outage, checks them, and
  * writes the job later, on condition of its crew only (backend/src/routes/plannedOutages.js, PATCH /mobile/jobs/:id/status).
  */
module JobGate {
  import opened Common
  import opened SwitchingRules
  import opened SwitchingMachine
  import opened PlannedOutageTheorems
  import opened OfflineOrder

  datatype Job = Job(crew: CrewId, status: JobStatus)

  /** A request that passed the gate: its job, that job's crew and latest permit when it read them, and what it will write. */
  datatype Gate = Gate(job: nat, crew: CrewId, permit: Option<nat>, status: JobStatus)

  /** A planned-outage request, the assignment of a job to a crew, or one of the two statements of job-status request g; one
    * that is refused never writes. */
  datatype Event =
    | Request(cmd: Cmd)
    | Assign(job: nat, crew: CrewId)
    | ReadGate(g: nat, job: nat, status: JobStatus)
    | WriteJob(g: nat)

  datatype World = World(o: Outage, jobs: map<nat, Job>, gates: map<nat, Gate>)

  /** The job's latest permit. */
  function Latest(permits: seq<Permit>, job: nat): (r: Option<nat>)
    ensures r.Some? ==> r.value < |permits| && permits[r.value].jobId == job
    ensures forall i :: (if r.Some? then r.value + 1 else 0) <= i < |permits| ==> permits[i].jobId != job
  {
    if permits == [] then None
    else if permits[|permits| - 1].jobId == job then Some(|permits| - 1)
    else Latest(permits[..|permits| - 1], job)
  }

  function PermitOf(o: Outage, job: nat): Option<Permit> {
    match Latest(o.permits, job) case None => None case Some(i) => Some(o.permits[i])
  }

  /** The request passes the gate now. */
  predicate Passes(w: World, job: nat, status: JobStatus) {
    job in w.jobs && CheckJobStatus(status, PermitOf(w.o, job), w.o.status).Allowed?
  }

  function Next(w: World, e: Event): World {
    match e
    case Request(cmd) => w.(o := Apply(w.o, cmd))
    case Assign(job, crew) => w.(jobs := w.jobs[job := Job(crew, if job in w.jobs then w.jobs[job].status else OtherStatus)])
    case ReadGate(g, job, status) =>
      if Passes(w, job, status) then w.(gates := w.gates[g := Gate(job, w.jobs[job].crew, Latest(w.o.permits, job), status)])
      else w.(gates := w.gates - {g})
    case WriteJob(g) =>
      if g in w.gates then World(w.o, Written(w.jobs, w.gates[g]), w.gates - {g}) else w
  }

  /** updateJobForCrew: lands only while the job is still that crew's. */
  function Written(jobs: map<nat, Job>, gate: Gate): map<nat, Job> {
    if gate.job in jobs && jobs[gate.job].crew == gate.crew then jobs[gate.job := Job(gate.crew, gate.status)] else jobs
  }

  function After(es: seq<Event>): World {
    if es == [] then World(Init(), map[], map[]) else Next(After(es[..|es| - 1]), es[|es| - 1])
  }

  function OutageAt(es: seq<Event>, n: nat): Outage
    requires n <= |es|
  {
    After(es[..n]).o
  }

  lemma Step(es: seq<Event>, n: nat)
    requires n < |es|
    ensures After(es[..n + 1]) == Next(After(es[..n]), es[n])
  {
    hide Next;
    assert es[..n + 1][..n] == es[..n];
  }

  predicate Of(e: Event, g: nat) { (e.ReadGate? || e.WriteJob?) && e.g == g }

  /** Event j writes what passed the gate at event i. */
  ghost predicate PassedFor(es: seq<Event>, i: nat, j: nat) {
    && i < j < |es| && es[j].WriteJob? && es[i].ReadGate? && es[i].g == es[j].g
    && Passes(After(es[..i]), es[i].job, es[i].status)
    && forall k :: i < k < j ==> !Of(es[k], es[j].g)
  }

  /** The line is fully isolated and nothing of it is switched back. */
  ghost predicate Dead(o: Outage) { AllDone(o.steps, Isolate) && !AnyDone(o.steps, Restore) }

  /** The request confirms a restore step. */
  predicate RestoreBy(o: Outage, cmd: Cmd) {
    cmd.Confirm? && Check(o, cmd).Allowed? && o.steps[Find(o.steps, cmd.step).value].phase == Restore
  }

  /** The request returns permit p. */
  predicate ReturnBy(o: Outage, cmd: Cmd, p: nat) { cmd.ReturnPermit? && cmd.permit == p && Check(o, cmd).Allowed? }

  ghost predicate Restores(es: seq<Event>, n: nat)
    requires n < |es|
  {
    es[n].Request? && RestoreBy(OutageAt(es, n), es[n].cmd)
  }

  ghost predicate Returns(es: seq<Event>, n: nat, p: nat)
    requires n < |es|
  {
    es[n].Request? && ReturnBy(OutageAt(es, n), es[n].cmd, p)
  }

  // ---- what the outage keeps ----

  lemma {:induction false} RunKeeps(es: seq<Event>)
    ensures Inv(After(es).o)
  {
    if es != [] {
      RunKeeps(es[..|es| - 1]);
      if es[|es| - 1].Request? { KeepInv(After(es[..|es| - 1]).o, es[|es| - 1].cmd); }
      hide Inv, Apply, Passes;
    } else {
      RunInv([]);
      hide Inv;
    }
  }

  /** A permit is issued only on a dead line, while the outage is in progress. */
  lemma IssuedIsDead(o: Outage, p: nat)
    requires Inv(o) && p < |o.permits| && o.permits[p].state == Issued
    ensures o.status == InProgress && Dead(o) && AnyDone(o.steps, Isolate)
  {
    assert AnyState(o.permits, Issued);
    PermitsMeanNoRestore(o);
    hide Prefix, Ids, CheckDraftSteps, Safe;
    assert o.plan == Approved && Has(o.steps, Isolate);
    var k :| 0 <= k < |o.steps| && o.steps[k].phase == Isolate;
    assert Done(o.steps[k]);
  }

  /** Once isolated, the line stays isolated as far as its plan goes. */
  ghost predicate Isolated(o: Outage) { AllDone(o.steps, Isolate) && AnyDone(o.steps, Isolate) }

  lemma SamePlanApply(o: Outage, cmd: Cmd)
    requires Inv(o) && AnyDone(o.steps, Isolate)
    ensures SamePlan(o.steps, Apply(o, cmd).steps)
  {
    ApplyMoves(o, cmd);
    assert Ids(o);
    var i :| 0 <= i < |o.steps| && o.steps[i].phase == Isolate && Done(o.steps[i]);
    ConfirmationStays(o, cmd, i);
    hide Inv, Apply;
    assert Apply(o, cmd).steps[i].id < o.nextStepId;
  }

  lemma IsolatedStays(o: Outage, cmd: Cmd)
    requires Inv(o) && Isolated(o)
    ensures Isolated(Apply(o, cmd))
  {
    SamePlanApply(o, cmd);
    hide Inv, Apply;
    var o' := Apply(o, cmd);
    forall k | 0 <= k < |o'.steps| && o'.steps[k].phase == Isolate ensures Done(o'.steps[k]) { assert o.steps[k].phase == Isolate; }
    var i :| 0 <= i < |o.steps| && o.steps[i].phase == Isolate && Done(o.steps[i]);
    assert o'.steps[i] == o.steps[i];
  }

  /** The first restore step of a plan is confirmed by confirming one. */
  lemma FirstRestore(o: Outage, cmd: Cmd)
    requires Inv(o) && Isolated(o)
    ensures AnyDone(Apply(o, cmd).steps, Restore) <==> AnyDone(o.steps, Restore) || RestoreBy(o, cmd)
  {
    SamePlanApply(o, cmd);
    var o' := Apply(o, cmd);
    if AnyDone(o.steps, Restore) {
      var k :| 0 <= k < |o.steps| && o.steps[k].phase == Restore && Done(o.steps[k]);
      assert o'.steps[k] == o.steps[k] by { hide Apply, Inv, Check; }
    }
    if cmd.Confirm? && Check(o, cmd).Allowed? {
      ConfirmedNow(o, cmd);
      hide Apply, Inv, Check;
      assert o'.steps[Find(o.steps, cmd.step).value].phase == o.steps[Find(o.steps, cmd.step).value].phase;
    }
    if AnyDone(o'.steps, Restore) && !AnyDone(o.steps, Restore) {
      hide Inv;
      var k :| 0 <= k < |o'.steps| && o'.steps[k].phase == Restore && Done(o'.steps[k]);
      OnlyConfirms(o, cmd, k);
    }
  }

  lemma ConfirmedNow(o: Outage, cmd: Cmd)
    requires cmd.Confirm? && Check(o, cmd).Allowed?
    ensures Find(o.steps, cmd.step).Some? && var i := Find(o.steps, cmd.step).value; i < |Apply(o, cmd).steps| && Done(Apply(o, cmd).steps[i])
  {
    assert Changed(o, cmd).steps[Find(o.steps, cmd.step).value].confirmation.Some?;
    hide Check, Changed, Conclude;
    ConcludeSettles(Check(o, cmd), o, Changed(o, cmd));
  }

  /** What is newly done was confirmed by this very request. */
  lemma OnlyConfirms(o: Outage, cmd: Cmd, k: nat)
    requires SamePlan(o.steps, Apply(o, cmd).steps) && k < |o.steps| && Done(Apply(o, cmd).steps[k]) && !Done(o.steps[k])
    ensures cmd.Confirm? && Check(o, cmd).Allowed? && Find(o.steps, cmd.step) == Some(k)
  {
    var changed := Changed(o, cmd);
    assert Check(o, cmd).Allowed? && Done(changed.steps[k]) by {
      assert !Check(o, cmd).Allowed? ==> changed == o;
      hide Check, Changed, Conclude;
      ConcludeSettles(Check(o, cmd), o, changed);
    }
    hide CheckDraftSteps, AllDone, AnyDone, PredecessorsDone, StepIdTaken, AnyOpen, Conclude;
  }

  // ---- from the gate to the write ----

  ghost predicate LineIsolated(es: seq<Event>, n: nat)
    requires n <= |es|
  {
    Inv(OutageAt(es, n)) && Isolated(OutageAt(es, n))
  }

  lemma AtGate(es: seq<Event>, i: nat, j: nat)
    requires PassedFor(es, i, j) && es[i].status == WorkStarted
    ensures LineIsolated(es, i) && Dead(OutageAt(es, i))
    ensures var p := Latest(OutageAt(es, i).permits, es[i].job); p.Some? && OutageAt(es, i).permits[p.value].state == Issued
  {
    RunKeeps(es[..i]);
    hide Inv, After;
    IssuedIsDead(OutageAt(es, i), Latest(OutageAt(es, i).permits, es[i].job).value);
  }

  lemma OutageStep(es: seq<Event>, n: nat)
    requires n < |es|
    ensures OutageAt(es, n + 1) == if es[n].Request? then Apply(OutageAt(es, n), es[n].cmd) else OutageAt(es, n)
  {
    Step(es, n);
    hide Apply, Passes, After, Written;
  }

  ghost predicate RestoredIn(es: seq<Event>, i: nat, n: nat)
    requires n <= |es|
  {
    exists k :: i <= k < n && Restores(es, k)
  }

  lemma RestoredInOneMore(es: seq<Event>, i: nat, n: nat)
    requires i < n <= |es|
    ensures RestoredIn(es, i, n) <==> RestoredIn(es, i, n - 1) || (es[n - 1].Request? && RestoreBy(OutageAt(es, n - 1), es[n - 1].cmd))
  {
    hide RestoreBy, OutageAt;
    assert Restores(es, n - 1) <==> es[n - 1].Request? && RestoreBy(OutageAt(es, n - 1), es[n - 1].cmd);
  }

  lemma Keeps(es: seq<Event>, n: nat)
    requires n <= |es|
    ensures Inv(OutageAt(es, n))
  {
    RunKeeps(es[..n]);
    hide After, Inv;
  }

  /** What is known of the line some events after the gate. */
  ghost predicate SinceGate(es: seq<Event>, i: nat, n: nat)
    requires n <= |es|
  {
    LineIsolated(es, n) && (AnyDone(OutageAt(es, n).steps, Restore) <==> RestoredIn(es, i, n))
  }

  lemma SinceGateNext(es: seq<Event>, i: nat, n: nat)
    requires i < n <= |es| && SinceGate(es, i, n - 1)
    ensures SinceGate(es, i, n)
  {
    hide Apply, RestoreBy, Inv, Isolated, AnyDone, OutageAt, RestoredIn;
    Keeps(es, n);
    OutageStep(es, n - 1);
    RestoredInOneMore(es, i, n);
    if es[n - 1].Request? { IsolatedAndRestored(OutageAt(es, n - 1), es[n - 1].cmd); }
  }

  lemma SinceGateFirst(es: seq<Event>, i: nat)
    requires i <= |es| && LineIsolated(es, i) && !AnyDone(OutageAt(es, i).steps, Restore)
    ensures SinceGate(es, i, i)
  {
    hide LineIsolated, OutageAt, AnyDone, Restores;
  }

  lemma {:induction false} RestoredSince(es: seq<Event>, i: nat, n: nat)
    requires i <= n <= |es| && LineIsolated(es, i) && !AnyDone(OutageAt(es, i).steps, Restore)
    ensures SinceGate(es, i, n)
  {
    hide *;
    if i < n {
      RestoredSince(es, i, n - 1);
      SinceGateNext(es, i, n);
    } else {
      SinceGateFirst(es, i);
    }
  }

  lemma IsolatedAndRestored(o: Outage, cmd: Cmd)
    requires Inv(o) && Isolated(o)
    ensures Isolated(Apply(o, cmd))
    ensures AnyDone(Apply(o, cmd).steps, Restore) <==> AnyDone(o.steps, Restore) || RestoreBy(o, cmd)
  {
    IsolatedStays(o, cmd);
    FirstRestore(o, cmd);
  }

  /** When Work Started lands the line is dead exactly if no restore step was confirmed since the gate. */
  lemma StartedOnADeadLineExactly(es: seq<Event>, i: nat, j: nat)
    requires PassedFor(es, i, j) && es[i].status == WorkStarted
    ensures Dead(OutageAt(es, j)) <==> !RestoredIn(es, i, j)
  {
    AtGate(es, i, j);
    hide Passes, OutageAt, Inv, RestoredIn, AllDone, AnyDone;
    RestoredSince(es, i, j);
  }

  ghost predicate ReturnedIn(es: seq<Event>, i: nat, n: nat, p: nat)
    requires n <= |es|
  {
    exists k :: i <= k < n && Returns(es, k, p)
  }

  lemma ReturnedInOneMore(es: seq<Event>, i: nat, n: nat, p: nat)
    requires i < n <= |es|
    ensures ReturnedIn(es, i, n, p) <==> ReturnedIn(es, i, n - 1, p) || (es[n - 1].Request? && ReturnBy(OutageAt(es, n - 1), es[n - 1].cmd, p))
  {
    hide ReturnBy, OutageAt;
    assert Returns(es, n - 1, p) <==> es[n - 1].Request? && ReturnBy(OutageAt(es, n - 1), es[n - 1].cmd, p);
  }

  ghost predicate PermitKnown(es: seq<Event>, i: nat, n: nat, p: nat)
    requires n <= |es|
  {
    p < |OutageAt(es, n).permits| && OutageAt(es, n).permits[p].state == if ReturnedIn(es, i, n, p) then Returned else Issued
  }

  lemma PermitKnownNext(es: seq<Event>, i: nat, n: nat, p: nat)
    requires i < n <= |es| && PermitKnown(es, i, n - 1, p)
    ensures PermitKnown(es, i, n, p)
  {
    hide Apply, ReturnBy, OutageAt, ReturnedIn;
    OutageStep(es, n - 1);
    ReturnedInOneMore(es, i, n, p);
    if es[n - 1].Request? { PermitStep(OutageAt(es, n - 1), es[n - 1].cmd, p); }
  }

  lemma PermitKnownFirst(es: seq<Event>, i: nat, p: nat)
    requires i <= |es| && p < |OutageAt(es, i).permits| && OutageAt(es, i).permits[p].state == Issued
    ensures PermitKnown(es, i, i, p)
  {
    hide OutageAt, Returns;
  }

  lemma {:induction false} PermitSince(es: seq<Event>, i: nat, n: nat, p: nat)
    requires i <= n <= |es| && p < |OutageAt(es, i).permits| && OutageAt(es, i).permits[p].state == Issued
    ensures PermitKnown(es, i, n, p)
  {
    hide *;
    if i < n {
      PermitSince(es, i, n - 1, p);
      PermitKnownNext(es, i, n, p);
    } else {
      PermitKnownFirst(es, i, p);
    }
  }

  /** An issued permit is only ever returned, and a returned one stays so. */
  lemma PermitStep(o: Outage, cmd: Cmd, p: nat)
    requires p < |o.permits| && (o.permits[p].state == Issued || o.permits[p].state == Returned)
    ensures p < |Apply(o, cmd).permits|
    ensures Apply(o, cmd).permits[p].state == if ReturnBy(o, cmd, p) then Returned else o.permits[p].state
  {
    PermitChanged(o, cmd, p);
    hide Check, Changed, Conclude;
    ConcludeSettles(Check(o, cmd), o, Changed(o, cmd));
  }

  lemma PermitChanged(o: Outage, cmd: Cmd, p: nat)
    requires p < |o.permits| && (o.permits[p].state == Issued || o.permits[p].state == Returned)
    ensures p < |Changed(o, cmd).permits|
    ensures Changed(o, cmd).permits[p].state == if ReturnBy(o, cmd, p) then Returned else o.permits[p].state
  {
    hide CheckDraftSteps, AllDone, AnyDone, PredecessorsDone, StepIdTaken, AnyOpen, NoneDone, Conclude;
  }

  /** Work Started lands under the permit it was let through for, and so on a dead line of an outage in progress, exactly if
    * that permit was not returned since the gate. */
  lemma StartedUnderItsPermitExactly(es: seq<Event>, i: nat, j: nat)
    requires PassedFor(es, i, j) && es[i].status == WorkStarted
    ensures var p := Latest(OutageAt(es, i).permits, es[i].job).value; var o := OutageAt(es, j);
      && Latest(OutageAt(es, i).permits, es[i].job).Some? && p < |o.permits|
      && (o.permits[p].state == Issued <==> !ReturnedIn(es, i, j, p))
      && (o.permits[p].state == Issued ==> o.status == InProgress && Dead(o))
  {
    AtGate(es, i, j);
    var p := Latest(OutageAt(es, i).permits, es[i].job).value;
    Keeps(es, j);
    hide Passes, OutageAt, Inv, ReturnedIn, AllDone, AnyDone;
    PermitSince(es, i, j, p);
    if OutageAt(es, j).permits[p].state == Issued { IssuedIsDead(OutageAt(es, j), p); }
  }

  /** The write lands exactly if the job is still its crew's, and then the job has the status asked for. */
  lemma LandsExactly(es: seq<Event>, i: nat, j: nat)
    requires PassedFor(es, i, j)
    ensures var w, w', job := After(es[..j]), After(es[..j + 1]), es[i].job;
      && job in After(es[..i]).jobs && w'.o == w.o
      && w'.jobs == if job in w.jobs && w.jobs[job].crew == After(es[..i]).jobs[job].crew
                    then w.jobs[job := Job(w.jobs[job].crew, es[i].status)] else w.jobs
  {
    hide Apply, After;
    Kept(es, i, j, es[j].g);
    Step(es, j);
  }

  lemma {:induction false} Kept(es: seq<Event>, i: nat, n: nat, g: nat)
    requires i < n <= |es| && es[i].ReadGate? && es[i].g == g && Passes(After(es[..i]), es[i].job, es[i].status)
    requires forall k :: i < k < n ==> !Of(es[k], g)
    ensures var w := After(es[..i]);
      g in After(es[..n]).gates && After(es[..n]).gates[g] == Gate(es[i].job, w.jobs[es[i].job].crew, Latest(w.o.permits, es[i].job), es[i].status)
  {
    hide Apply, After, Passes, Written;
    Step(es, n - 1);
    if i < n - 1 { Kept(es, i, n - 1, g); }
  }
}
