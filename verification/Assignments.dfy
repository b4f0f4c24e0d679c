/** Crew assignment beside the planned-outage requests: it reads the outage's status and writes it back later, unlocked,
  * unchecked and unlogged (backend/src/routes/api.js, POST /incidents/:id/assign).
  */
module Assignments {
  import opened Common
  import opened SwitchingRules
  import opened SwitchingMachine
  import opened PlannedOutageTheorems

  /** A planned-outage request, or one of the two statements of assignment a: the read of the incident, the write of the
    * status read. An assignment answered before its write simply never writes. */
  datatype Event = Request(cmd: Cmd) | ReadStatus(a: nat) | WriteBack(a: nat)

  datatype World = World(o: Outage, seen: map<nat, Status>)

  function Next(w: World, e: Event): World {
    match e
    case Request(cmd) => w.(o := Apply(w.o, cmd))
    case ReadStatus(a) => w.(seen := w.seen[a := w.o.status])
    case WriteBack(a) => if a in w.seen then World(w.o.(status := w.seen[a]), w.seen - {a}) else w
  }

  function After(es: seq<Event>): World {
    if es == [] then World(Init(), map[]) else Next(After(es[..|es| - 1]), es[|es| - 1])
  }

  function StatusAt(es: seq<Event>, n: nat): Status
    requires n <= |es|
  {
    After(es[..n]).o.status
  }

  /** The requests of a run, without the assignments. */
  function Requests(es: seq<Event>): seq<Cmd> {
    if es == [] then []
    else Requests(es[..|es| - 1]) + (if es[|es| - 1].Request? then [es[|es| - 1].cmd] else [])
  }

  predicate Of(e: Event, a: nat) { !e.Request? && e.a == a }

  /** Event j writes what event i read. */
  ghost predicate ReadFor(es: seq<Event>, i: nat, j: nat) {
    && i < j < |es| && es[j].WriteBack? && es[i] == ReadStatus(es[j].a)
    && forall k :: i < k < j ==> !Of(es[k], es[j].a)
  }

  /** No assignment writes over another status than the one it read. */
  ghost predicate Undisturbed(es: seq<Event>) {
    forall i: nat, j: nat :: ReadFor(es, i, j) ==> StatusAt(es, i) == StatusAt(es, j)
  }

  lemma Step(es: seq<Event>, n: nat)
    requires n < |es|
    ensures After(es[..n + 1]) == Next(After(es[..n]), es[n])
    ensures Requests(es[..n + 1]) == Requests(es[..n]) + (if es[n].Request? then [es[n].cmd] else [])
  {
    hide Next;
    assert es[..n + 1][..n] == es[..n];
  }

  // ---- what is remembered is what was read ----

  /** Event i is the last one of assignment a before n, and a read. */
  ghost predicate LastRead(es: seq<Event>, i: nat, n: nat, a: nat) {
    i < n <= |es| && es[i] == ReadStatus(a) && forall k :: i < k < n ==> !Of(es[k], a)
  }

  lemma {:induction false} Remembered(es: seq<Event>, n: nat, a: nat) returns (i: nat)
    requires n <= |es| && a in After(es[..n]).seen
    ensures LastRead(es, i, n, a) && After(es[..n]).seen[a] == StatusAt(es, i)
  {
    hide Apply;
    if n > 0 {
      Step(es, n - 1);
      hide After;
      if es[n - 1] == ReadStatus(a) { i := n - 1; } else { i := Remembered(es, n - 1, a); }
    }
  }

  lemma {:induction false} Remembers(es: seq<Event>, i: nat, n: nat, a: nat)
    requires LastRead(es, i, n, a)
    ensures a in After(es[..n]).seen && After(es[..n]).seen[a] == StatusAt(es, i)
  {
    hide Apply, After;
    Step(es, n - 1);
    if i < n - 1 { Remembers(es, i, n - 1, a); }
  }

  lemma Written(es: seq<Event>, i: nat, j: nat)
    requires ReadFor(es, i, j)
    ensures After(es[..j + 1]).o == After(es[..j]).o.(status := StatusAt(es, i))
  {
    hide Apply, After;
    Remembers(es, i, j, es[j].a);
    Step(es, j);
  }

  // ---- undisturbed assignments change nothing ----

  lemma RunStep(cmds: seq<Cmd>, cmd: Cmd)
    ensures Run(Init(), cmds + [cmd]) == Apply(Run(Init(), cmds), cmd)
  {
    hide Apply;
    assert (cmds + [cmd])[..|cmds|] == cmds;
  }

  lemma {:induction false} ChangeNothing(es: seq<Event>, n: nat)
    requires Undisturbed(es) && n <= |es|
    ensures After(es[..n]).o == Run(Init(), Requests(es[..n]))
  {
    if n > 0 {
      hide *;
      ChangeNothing(es, n - 1);
      NothingChanged(es, n - 1);
    } else {
      hide Undisturbed, Apply;
    }
  }

  lemma NothingChanged(es: seq<Event>, n: nat)
    requires Undisturbed(es) && n < |es|
    requires After(es[..n]).o == Run(Init(), Requests(es[..n]))
    ensures After(es[..n + 1]).o == Run(Init(), Requests(es[..n + 1]))
  {
    hide Undisturbed, After, Requests, Apply, Run;
    Step(es, n);
    match es[n]
    case Request(cmd) => RunStep(Requests(es[..n]), cmd);
    case ReadStatus(_) => assert Requests(es[..n + 1]) == Requests(es[..n]);
    case WriteBack(a) =>
      assert Requests(es[..n + 1]) == Requests(es[..n]);
      if a in After(es[..n]).seen { SameStatus(es, n); }
  }

  lemma SameStatus(es: seq<Event>, n: nat)
    requires Undisturbed(es) && n < |es| && es[n].WriteBack? && es[n].a in After(es[..n]).seen
    ensures After(es[..n]).seen[es[n].a] == StatusAt(es, n)
  {
    hide After;
    var i := Remembered(es, n, es[n].a);
    assert ReadFor(es, i, n);
  }

  /** As long as no assignment writes over another status than the one it read, the outage is exactly what the requests
    * alone make of it: everything proved about runs of requests holds. */
  lemma AssignmentsChangeNothing(es: seq<Event>)
    requires Undisturbed(es)
    ensures After(es).o == Run(Init(), Requests(es))
  {
    hide Undisturbed, After, Requests;
    ChangeNothing(es, |es|);
    assert es[..|es|] == es;
  }

  lemma {:induction false} OneStatusPerLog(log: seq<Entry>, a: Status, b: Status)
    requires LegalLog(log, a) && LegalLog(log, b)
    ensures a == b
  {
    if log != [] && !log[|log| - 1].Moved? { OneStatusPerLog(log[..|log| - 1], a, b); }
  }

  /** The safety log explains the status the outage has before event n. */
  ghost predicate Explained(es: seq<Event>, n: nat)
    requires n <= |es|
  {
    LegalLog(After(es[..n]).o.log, StatusAt(es, n))
  }

  lemma UndisturbedIsExplained(es: seq<Event>, n: nat)
    requires Undisturbed(es) && n <= |es|
    ensures Explained(es, n)
  {
    hide Undisturbed, After, Requests, LegalLog, Run;
    ChangeNothing(es, n);
    StatusHistoryIsLegal(Requests(es[..n]));
  }

  lemma ExplainedIsUndisturbed(es: seq<Event>, i: nat, j: nat)
    requires ReadFor(es, i, j) && Explained(es, j) && Explained(es, j + 1)
    ensures StatusAt(es, i) == StatusAt(es, j)
  {
    hide After, LegalLog;
    Written(es, i, j);
    OneStatusPerLog(After(es[..j]).o.log, StatusAt(es, i), StatusAt(es, j));
  }

  /** The safety log explains the outage's status at every moment of a run exactly if no assignment writes over another
    * status than the one it read. */
  lemma StatusLoggedExactly(es: seq<Event>)
    ensures Undisturbed(es) <==> forall n: nat :: n <= |es| ==> Explained(es, n)
  {
    hide Explained;
    if Undisturbed(es) {
      forall n: nat | n <= |es| ensures Explained(es, n) { UndisturbedIsExplained(es, n); }
    }
    if forall n: nat :: n <= |es| ==> Explained(es, n) {
      forall i: nat, j: nat | ReadFor(es, i, j) ensures StatusAt(es, i) == StatusAt(es, j) {
        assert Explained(es, j) && Explained(es, j + 1);
        ExplainedIsUndisturbed(es, i, j);
      }
    }
  }

  // ---- the safety rules hold whatever is written back ----

  /** The safety rules as far as they do not depend on the status: switching order, no restoring under a permit, no work
    * on a live line; and nothing looks started before a step is confirmed. */
  ghost predicate Core(o: Outage) {
    && Prefix(o.steps) && Safe(o) && Ids(o) && PermitsFit(o)
    && (o.plan == Draft ==> NoneDone(o.steps))
    && (Underway(o.status) ==> AnyDone(o.steps, Isolate))
  }

  ghost predicate PermitsFit(o: Outage) {
    && (o.permits != [] ==> AnyDone(o.steps, Isolate))
    && (AnyState(o.permits, Issued) ==> AllDone(o.steps, Isolate) && !AnyDone(o.steps, Restore))
  }

  lemma DoneAppears(o: Outage, i: nat, clientId: nat)
    requires i < |o.steps|
    ensures var o' := ConfirmAt(o, i, clientId);
      && AnyDone(o'.steps, o.steps[i].phase)
      && (forall phase :: AnyDone(o.steps, phase) ==> AnyDone(o'.steps, phase))
      && (forall phase :: AnyDone(o'.steps, phase) && phase != o.steps[i].phase ==> AnyDone(o.steps, phase))
      && (forall phase :: AllDone(o.steps, phase) ==> AllDone(o'.steps, phase))
  {
    var o' := ConfirmAt(o, i, clientId);
    assert Done(o'.steps[i]) && o'.steps[i].phase == o.steps[i].phase;
    forall phase | AnyDone(o.steps, phase) ensures AnyDone(o'.steps, phase) {
      var k :| 0 <= k < |o.steps| && o.steps[k].phase == phase && Done(o.steps[k]);
      assert o'.steps[k].phase == phase && Done(o'.steps[k]);
    }
    forall phase | AnyDone(o'.steps, phase) && phase != o.steps[i].phase ensures AnyDone(o.steps, phase) {
      var k :| 0 <= k < |o.steps| && o'.steps[k].phase == phase && Done(o'.steps[k]);
      assert o.steps[k] == o'.steps[k];
    }
    forall phase | AllDone(o.steps, phase) ensures AllDone(o'.steps, phase) {
      forall k | 0 <= k < |o'.steps| && o'.steps[k].phase == phase ensures Done(o'.steps[k]) { assert k == i || o'.steps[k] == o.steps[k]; }
    }
  }

  /** A confirmation the rules allow. */
  lemma ConfirmCore(o: Outage, i: nat, clientId: nat)
    requires Core(o) && i < |o.steps| && !Done(o.steps[i]) && o.plan == Approved
    requires o.steps[i].phase == Restore ==> AllDone(o.steps, Isolate) && !AnyOpen(o.permits) && Underway(o.status)
    ensures var o' := ConfirmAt(o, i, clientId);
      Safe(o') && PermitsFit(o') && (Underway(o'.status) ==> AnyDone(o'.steps, Isolate))
  {
    DoneAppears(o, i, clientId);
    var o' := ConfirmAt(o, i, clientId);
    assert forall k :: 0 <= k < |o.permits| && o.permits[k].state == Issued ==> OpenPermit(o.permits[k]);
    if o.steps[i].phase == Isolate { assert !AllDone(o.steps, Isolate); }
    hide Prefix, Ids, AnyDone, AllDone, AnyOpen, AnyState, ConfirmAt;
    assert o'.permits == o.permits && o'.status == o.status by { EffectOfConfirm(o, i, clientId); }
  }

  lemma EffectOfConfirm(o: Outage, i: nat, clientId: nat)
    requires i < |o.steps|
    ensures var o' := ConfirmAt(o, i, clientId); o'.permits == o.permits && o'.status == o.status && o'.plan == o.plan
  {
  }

  /** A permit changes hands: fewer open permits, or one issued on a dead line. */
  lemma PermitCore(o: Outage, i: nat, p: Permit)
    requires Safe(o) && PermitsFit(o) && i < |o.permits|
    requires OpenPermit(p) ==> OpenPermit(o.permits[i])
    requires p.state == Issued ==> AllDone(o.steps, Isolate) && !AnyDone(o.steps, Restore)
    ensures Safe(SetPermit(o, i, p)) && PermitsFit(SetPermit(o, i, p))
  {
    var permits' := o.permits[i := p];
    hide AllDone, AnyDone;
    if AnyOpen(permits') {
      var k :| 0 <= k < |permits'| && OpenPermit(permits'[k]);
      assert OpenPermit(o.permits[k]);
    }
    if AnyState(permits', Issued) && p.state != Issued {
      var k :| 0 <= k < |permits'| && permits'[k].state == Issued;
      assert o.permits[k].state == Issued;
    }
  }

  lemma RequestCore(o: Outage, p: Permit)
    requires Safe(o) && PermitsFit(o) && p.state == Requested && AnyDone(o.steps, Isolate) && !AnyDone(o.steps, Restore)
    ensures var o' := o.(permits := o.permits + [p], log := o.log + [Other]); Safe(o') && PermitsFit(o')
  {
    hide AllDone, AnyDone;
    var permits' := o.permits + [p];
    if AnyState(permits', Issued) {
      var k :| 0 <= k < |permits'| && permits'[k].state == Issued;
      assert o.permits[k].state == Issued;
    }
  }

  lemma EffectCore(o: Outage, cmd: Cmd)
    requires Core(o) && Check(o, cmd).Allowed?
    ensures var o' := Effect(o, cmd); Safe(o') && PermitsFit(o') && (Underway(o'.status) ==> AnyDone(o'.steps, Isolate))
    ensures Effect(o, cmd).plan == Draft ==> NoneDone(Effect(o, cmd).steps)
  {
    hide Prefix, Ids, CheckDraftSteps;
    match cmd
    case Confirm(_, id, clientId, _, _) => ConfirmCore(o, Find(o.steps, id).value, clientId.value);
    case Issue(_, i, _, _) => PermitCore(o, i, o.permits[i].(state := Issued));
    case RefusePermit(_, i, _) => PermitCore(o, i, o.permits[i].(state := Refused));
    case WithdrawPermit(_, i) => PermitCore(o, i, o.permits[i].(state := Withdrawn));
    case ReturnPermit(_, i, _, clientId, _, _) => PermitCore(o, i, o.permits[i].(state := Returned, returnId := Some(clientId.value)));
    case RequestPermit(_, jobId, jobCrew, requestId, _) => RequestCore(o, Permit(jobId, jobCrew, Requested, requestId.value, None));
    case _ =>
  }

  lemma {:induction false} SettleCore(o: Outage, n: nat)
    requires Core(o)
    ensures Core(Settle(o, n))
    decreases n
  {
    hide Prefix, Ids, Safe, PermitsFit, NoneDone;
    if n > 0 && NextAutomatic(o).Some? {
      SameCore(o, Move(o, NextAutomatic(o).value));
      SettleCore(Move(o, NextAutomatic(o).value), n - 1);
    }
  }

  /** Only the status can matter to Core beside the plan and the permits. */
  lemma SameCore(o: Outage, o': Outage)
    requires Core(o) && o' == o.(status := o'.status, log := o'.log)
    requires Underway(o'.status) ==> AnyDone(o.steps, Isolate)
    ensures Core(o')
  {
    assert Ids(o') && Safe(o') && PermitsFit(o');
    hide Prefix, Ids, Safe, PermitsFit, NoneDone, AnyDone;
  }

  lemma ChangedCore(o: Outage, cmd: Cmd)
    requires Core(o)
    ensures Core(Changed(o, cmd))
  {
    if Check(o, cmd).Allowed? {
      EffectPrefix(o, cmd);
      EffectIds(o, cmd);
      EffectCore(o, cmd);
    }
    hide Check, Effect, Prefix, Ids, Safe, PermitsFit, NoneDone, AnyDone;
  }

  /** Every request keeps the safety rules, whatever status the outage was given. */
  lemma KeepCore(o: Outage, cmd: Cmd)
    requires Core(o)
    ensures Core(Apply(o, cmd))
  {
    ChangedCore(o, cmd);
    var v := Check(o, cmd);
    if v.Rejected? { SameCore(o, o.(log := o.log + [Refusal(v.code)])); }
    hide Check, Changed, Core, Settle;
    SettleCore(Changed(o, cmd), MAX_MOVES);
    SettleCore(o, MAX_MOVES);
  }

  /** Once a step of the isolation is confirmed one stays so. */
  lemma StartedStays(o: Outage, cmd: Cmd)
    requires Core(o) && AnyDone(o.steps, Isolate)
    ensures AnyDone(Apply(o, cmd).steps, Isolate)
  {
    hide Apply, Prefix, Ids, Safe, PermitsFit;
    var i :| 0 <= i < |o.steps| && o.steps[i].phase == Isolate && Done(o.steps[i]);
    DoneStays(o, cmd, i);
  }

  /** A status that was read and not yet written back is one the plan has got to. */
  ghost predicate WorldCore(w: World) {
    Core(w.o) && forall a :: a in w.seen && Underway(w.seen[a]) ==> AnyDone(w.o.steps, Isolate)
  }

  lemma StepCore(w: World, e: Event)
    requires WorldCore(w)
    ensures WorldCore(Next(w, e))
  {
    match e
    case Request(cmd) =>
      KeepCore(w.o, cmd);
      if AnyDone(w.o.steps, Isolate) { StartedStays(w.o, cmd); }
      hide Core, Apply, AnyDone;
    case ReadStatus(a) =>
      hide Prefix, Ids, Safe, PermitsFit, NoneDone, AnyDone;
    case WriteBack(a) =>
      if a in w.seen { SameCore(w.o, w.o.(status := w.seen[a])); }
      hide Core, AnyDone;
  }

  lemma {:induction false} RunCore(es: seq<Event>)
    ensures WorldCore(After(es))
  {
    if es != [] {
      RunCore(es[..|es| - 1]);
      hide WorldCore, Next;
      StepCore(After(es[..|es| - 1]), es[|es| - 1]);
    } else {
      hide After;
      assert Core(Init());
      assert After([]) == World(Init(), map[]) by { AtFirst(); }
    }
  }

  lemma AtFirst()
    ensures After([]) == World(Init(), map[])
  {
  }

  /** Whatever statuses assignments write back, and whenever: no restore step is confirmed while a permit is open, work is
    * permitted only on a fully isolated line of which nothing is switched back, and steps are confirmed in order. */
  lemma SafeWhateverIsWrittenBack(es: seq<Event>)
    ensures var o := After(es).o;
      && !(AnyDone(o.steps, Restore) && AnyOpen(o.permits))
      && (AnyState(o.permits, Issued) ==> AllDone(o.steps, Isolate) && !AnyDone(o.steps, Restore))
      && (forall i, j :: 0 <= i < |o.steps| && 0 <= j < |o.steps| && Before(o.steps[i], o.steps[j]) && Done(o.steps[j]) ==> Done(o.steps[i]))
  {
    RunCore(es);
  }

  // ---- what a stale write can do ----

  /** A cancelled outage of which a step was carried out: supply may be off, and nothing leads out of cancelled. */
  ghost predicate Stranded(o: Outage) { o.status == Cancelled && !NoneDone(o.steps) }

  lemma {:induction false} SettleCancels(o: Outage, n: nat)
    ensures Settle(o, n).status == Cancelled <==> o.status == Cancelled
    decreases n
  {
    if n > 0 && NextAutomatic(o).Some? { SettleCancels(Move(o, NextAutomatic(o).value), n - 1); }
  }

  lemma EffectCancels(o: Outage, cmd: Cmd)
    requires Check(o, cmd).Allowed? && !Stranded(o) && Effect(o, cmd).status == Cancelled
    ensures NoneDone(Effect(o, cmd).steps)
  {
    hide CheckDraftSteps, AllDone, PredecessorsDone, StepIdTaken, AnyOpen;
  }

  /** No request strands an outage: cancelling is refused once a step is confirmed, and confirming once it is cancelled. */
  lemma RequestsStrandNothing(o: Outage, cmd: Cmd)
    requires !Stranded(o)
    ensures !Stranded(Apply(o, cmd))
  {
    var v, changed := Check(o, cmd), Changed(o, cmd);
    if v.Allowed? && changed.status == Cancelled { EffectCancels(o, cmd); }
    assert v.Allowed? && changed.status == Cancelled ==> NoneDone(changed.steps);
    assert !v.Allowed? ==> changed == o;
    hide Check, Changed, Conclude, NoneDone;
    ConcludeSettles(v, o, changed);
    SettleCancels(changed, MAX_MOVES);
    SettleCancels(o, MAX_MOVES);
    ConcludeStatus(v, o, changed);
  }

  lemma ConcludeStatus(v: Verdict, o: Outage, changed: Outage)
    ensures Conclude(v, o, changed).status
      == match v case Allowed => Settle(changed, MAX_MOVES).status case Replay => Settle(o, MAX_MOVES).status case Rejected(_) => o.status
  {
  }

  /** An outage is cancelled with a step carried out exactly when an assignment that read it as cancelled writes that back
    * after a step was confirmed. */
  lemma StrandedExactly(w: World, e: Event)
    requires !Stranded(w.o)
    ensures Stranded(Next(w, e).o) <==> e.WriteBack? && e.a in w.seen && w.seen[e.a] == Cancelled && !NoneDone(w.o.steps)
  {
    hide Apply, NoneDone;
    if e.Request? { RequestsStrandNothing(w.o, e.cmd); }
  }

  /** Nothing leads out of cancelled: no request changes the status of a stranded outage or confirms one of its steps. */
  lemma StrandedForGood(o: Outage, cmd: Cmd)
    requires Stranded(o) && o.plan == Approved
    ensures Stranded(Apply(o, cmd)) && Apply(o, cmd).steps == o.steps
  {
    var v, changed := Check(o, cmd), Changed(o, cmd);
    assert changed.status == Cancelled && changed.steps == o.steps by {
      hide CheckDraftSteps, AllDone, PredecessorsDone, StepIdTaken, AnyOpen, AnyDone;
    }
    assert o.status == Cancelled;
    hide Check, Changed, Conclude, NoneDone;
    ConcludeSettles(v, o, changed);
    SettleCancels(changed, MAX_MOVES);
    SettleCancels(o, MAX_MOVES);
    ConcludeStatus(v, o, changed);
  }
}
