/** A planned outage under every possible sequence of requests: each request is one transaction that locks the outage,
  * checks, changes and then applies the automatic status moves (backend/src/infra/repo.js, withPlan).
  */
module SwitchingMachine {
  import opened Common
  import opened SwitchingRules

  datatype Cmd =
    | EditPlan(actor: Actor, draft: seq<Step>)
    | ApprovePlan(actor: Actor)
    | UnapprovePlan(actor: Actor)
    | Notify(actor: Actor, skip: bool, reason: Text)
    | Reschedule(actor: Actor, start: Option<int>, end: Option<int>, now: int, work: Text)
    | Cancel(actor: Actor, reason: Text)
    | Close(actor: Actor, jobsOpen: bool, force: bool, reason: Text, reasonLongEnough: bool)
    | Confirm(actor: Actor, step: nat, clientId: Text, note: Text, elsewhere: set<nat>)
    | RequestPermit(actor: Actor, jobId: nat, jobCrew: CrewId, requestId: Text, elsewhere: set<nat>)
    | Issue(actor: Actor, permit: nat, isolation: Text, earthing: Text)
    | RefusePermit(actor: Actor, permit: nat, reason: Text)
    | WithdrawPermit(actor: Actor, permit: nat)
    | ReturnPermit(actor: Actor, permit: nat, declaration: Declaration, clientId: Text, note: Text, elsewhere: set<nat>)

  function Init(): Outage { Outage(Scheduled, Draft, [], [], 0, []) }

  /** Position of the step with this id. */
  function Find(steps: seq<Step>, id: nat): (r: Option<nat>)
    ensures r.Some? ==> r.value < |steps| && steps[r.value].id == id
  {
    if steps == [] then None
    else if steps[0].id == id then Some(0)
    else match Find(steps[1..], id) case None => None case Some(i) => Some(i + 1)
  }

  /** The client id is already on another step of this plan, or on a record elsewhere. */
  predicate StepIdTaken(steps: seq<Step>, clientId: nat, elsewhere: set<nat>) {
    clientId in elsewhere || exists i :: 0 <= i < |steps| && steps[i].confirmation == Some(clientId)
  }

  predicate RequestIdTaken(permits: seq<Permit>, requestId: nat, elsewhere: set<nat>) {
    requestId in elsewhere || exists i :: 0 <= i < |permits| && permits[i].requestId == requestId
  }

  predicate ReturnIdTaken(permits: seq<Permit>, clientId: nat, elsewhere: set<nat>) {
    clientId in elsewhere || exists i :: 0 <= i < |permits| && permits[i].returnId == Some(clientId)
  }

  function CheckConfirm(o: Outage, cmd: Cmd): Verdict
    requires cmd.Confirm?
  {
    match Find(o.steps, cmd.step)
    case None => Rejected(NotFound)
    case Some(i) =>
      var v := CheckConfirmStep(o, o.steps[i], cmd.actor, cmd.clientId, cmd.note);
      if v.Allowed? && cmd.clientId.Given? && StepIdTaken(o.steps, cmd.clientId.value, cmd.elsewhere)
      then Rejected(ClientIdReused) else v
  }

  function CheckRequest(o: Outage, cmd: Cmd): Verdict
    requires cmd.RequestPermit?
  {
    var v := CheckRequestPermit(o, cmd.jobId, cmd.jobCrew, cmd.actor, cmd.requestId);
    if v.Allowed? && cmd.requestId.Given? && RequestIdTaken(o.permits, cmd.requestId.value, cmd.elsewhere)
    then Rejected(ClientIdReused) else v
  }

  function CheckReturn(o: Outage, cmd: Cmd): Verdict
    requires cmd.ReturnPermit? && cmd.permit < |o.permits|
  {
    var v := CheckReturnPermit(o.permits[cmd.permit], cmd.actor, cmd.declaration, cmd.clientId, cmd.note);
    if v.Allowed? && cmd.clientId.Given? && ReturnIdTaken(o.permits, cmd.clientId.value, cmd.elsewhere)
    then Rejected(ClientIdReused) else v
  }

  function Check(o: Outage, cmd: Cmd): Verdict {
    match cmd
    case EditPlan(a, draft) => if CheckEditPlan(o, a).Allowed? then CheckDraftSteps(draft) else CheckEditPlan(o, a)
    case ApprovePlan(a) => CheckApprovePlan(o, a)
    case UnapprovePlan(a) => CheckUnapprovePlan(o, a)
    case Notify(a, skip, reason) => CheckNotify(o, a, skip, reason)
    case Reschedule(a, start, end, now, work) => CheckReschedule(o, a, start, end, now, work)
    case Cancel(a, reason) => CheckCancel(o, a, reason)
    case Close(a, open, force, reason, long) => CheckClose(o, a, open, force, reason, long)
    case Confirm(_, _, _, _, _) => CheckConfirm(o, cmd)
    case RequestPermit(_, _, _, _, _) => CheckRequest(o, cmd)
    case Issue(a, i, iso, earth) => if i < |o.permits| then CheckIssuePermit(o, o.permits[i], a, iso, earth) else Rejected(NotFound)
    case RefusePermit(a, i, reason) => if i < |o.permits| then CheckRefusePermit(o.permits[i], a, reason) else Rejected(NotFound)
    case WithdrawPermit(a, i) => if i < |o.permits| then CheckWithdrawPermit(o.permits[i], a) else Rejected(NotFound)
    case ReturnPermit(_, i, _, _, _, _) => if i < |o.permits| then CheckReturn(o, cmd) else Rejected(NotFound)
  }

  /** The saved draft: fresh ids, nothing confirmed. */
  function Saved(draft: seq<Step>, nextId: nat): (steps: seq<Step>)
    ensures |steps| == |draft|
    ensures forall i :: 0 <= i < |draft| ==> steps[i] == draft[i].(id := nextId + i, confirmation := None)
  {
    seq(|draft|, i requires 0 <= i < |draft| => draft[i].(id := nextId + i, confirmation := None))
  }

  /** moveIncident: the new status, and a line in the safety log. */
  function Move(o: Outage, to: Status): Outage { o.(status := to, log := o.log + [Moved(o.status, to)]) }

  function SetPermit(o: Outage, i: nat, p: Permit): Outage
    requires i < |o.permits|
  {
    o.(permits := o.permits[i := p], log := o.log + [Other])
  }

  function ConfirmAt(o: Outage, i: nat, clientId: nat): Outage
    requires i < |o.steps|
  {
    o.(steps := o.steps[i := o.steps[i].(confirmation := Some(clientId))], log := o.log + [Confirmed(o.steps[i].id, clientId)])
  }

  /** What an allowed request writes, before the automatic moves. */
  function Effect(o: Outage, cmd: Cmd): Outage
    requires Check(o, cmd).Allowed?
  {
    match cmd
    case EditPlan(_, draft) =>
      o.(steps := Saved(draft, o.nextStepId), nextStepId := o.nextStepId + |draft|, log := o.log + [Other])
    case ApprovePlan(_) => o.(plan := Approved, log := o.log + [Other])
    case UnapprovePlan(_) => o.(plan := Draft, log := o.log + [Other])
    case Notify(_, _, _) => Move(o.(log := o.log + [Other]), Notified)
    case Reschedule(_, _, _, _, _) =>
      var o' := o.(log := o.log + [Other]);
      if o.status == Notified then Move(o', Scheduled) else o'
    case Cancel(_, _) => Move(o, Cancelled)
    case Close(_, open, _, _, _) => Move(if open then o.(log := o.log + [Other]) else o, Closed)
    case Confirm(_, id, clientId, _, _) => ConfirmAt(o, Find(o.steps, id).value, clientId.value)
    case RequestPermit(a, jobId, jobCrew, requestId, _) =>
      o.(permits := o.permits + [Permit(jobId, jobCrew, Requested, requestId.value, None)], log := o.log + [Other])
    case Issue(_, i, _, _) => SetPermit(o, i, o.permits[i].(state := Issued))
    case RefusePermit(_, i, _) => SetPermit(o, i, o.permits[i].(state := Refused))
    case WithdrawPermit(_, i) => SetPermit(o, i, o.permits[i].(state := Withdrawn))
    case ReturnPermit(_, i, _, clientId, _, _) =>
      SetPermit(o, i, o.permits[i].(state := Returned, returnId := Some(clientId.value)))
  }

  const MAX_MOVES := 6

  /** The automatic moves, at most n of them. */
  function Settle(o: Outage, n: nat): Outage
    decreases n
  {
    if n == 0 then o
    else match NextAutomatic(o) case None => o case Some(to) => Settle(Move(o, to), n - 1)
  }

  /** How a request ends: a refusal only adds a line to the safety log (nothing at all when the step or permit does
    * not exist); a replay writes nothing of its own. */
  function Conclude(v: Verdict, o: Outage, changed: Outage): Outage {
    match v
    case Allowed => Settle(changed, MAX_MOVES)
    case Replay => Settle(o, MAX_MOVES)
    case Rejected(code) => if code == NotFound then o else o.(log := o.log + [Refusal(code)])
  }

  /** What the request itself writes: nothing unless it is allowed. */
  function Changed(o: Outage, cmd: Cmd): Outage { if Check(o, cmd).Allowed? then Effect(o, cmd) else o }

  /** One request. */
  function Apply(o: Outage, cmd: Cmd): Outage { Conclude(Check(o, cmd), o, Changed(o, cmd)) }

  function Run(o: Outage, cmds: seq<Cmd>): Outage {
    if cmds == [] then o else Apply(Run(o, cmds[..|cmds| - 1]), cmds[|cmds| - 1])
  }

  // ---- the automatic moves ----

  /** Moves still possible from a status: the planned lifecycle only runs forward from here. */
  function Ahead(st: Status): nat {
    match st
    case Notified => 4
    case Isolating => 3
    case InProgress => 2
    case Restoring => 1
    case _ => 0
  }

  /** Whatever the plan and permits imply is a legal move: the lifecycle table never stops one. */
  lemma ImpliedIsLegal(o: Outage)
    ensures NextAutomatic(o) == Implied(o)
    ensures Implied(o).Some? ==> CanTransition(o.status, Implied(o).value) && Ahead(Implied(o).value) < Ahead(o.status)
  {
  }

  /** Six moves always reach the end of the automatic chain, from any state at all; only the status and the log change. */
  lemma {:induction false} SettleSettles(o: Outage, n: nat)
    requires Ahead(o.status) <= n
    ensures NextAutomatic(Settle(o, n)).None?
    ensures Settle(o, n) == o.(status := Settle(o, n).status, log := Settle(o, n).log)
    decreases n
  {
    ImpliedIsLegal(o);
    if n > 0 && NextAutomatic(o).Some? { SettleSettles(Move(o, NextAutomatic(o).value), n - 1); }
  }

  /** The automatic moves touch neither the plan nor the permits. */
  lemma ConcludeSettles(v: Verdict, o: Outage, changed: Outage)
    ensures !v.Rejected? ==> NextAutomatic(Conclude(v, o, changed)).None?
    ensures var before, after := if v.Allowed? then changed else o, Conclude(v, o, changed);
      after == before.(status := after.status, log := after.log) && (v.Rejected? ==> after.status == o.status)
  {
    SettleSettles(changed, MAX_MOVES);
    SettleSettles(o, MAX_MOVES);
  }

  // ---- what every request keeps ----

  /** Lexicographic order of a plan: isolation by number, then restoration by number. */
  predicate Before(a: Step, b: Step) { if a.phase == b.phase then a.seq_ < b.seq_ else a.phase == Isolate }

  /** Confirmed steps are a prefix of the plan. */
  ghost predicate Prefix(steps: seq<Step>) {
    forall i, j :: 0 <= i < |steps| && 0 <= j < |steps| && Before(steps[i], steps[j]) && Done(steps[j]) ==> Done(steps[i])
  }

  /** The central safety rule: supply is never being switched back on while a permit is requested or issued. */
  ghost predicate Safe(o: Outage) { AnyDone(o.steps, Restore) ==> AllDone(o.steps, Isolate) && !AnyOpen(o.permits) }

  /** What each status says about the plan and the permits. */
  ghost predicate StatusFits(o: Outage) {
    match o.status
    case Scheduled => NoneDone(o.steps) && o.permits == []
    case Notified => NoneDone(o.steps) && o.permits == []
    case Cancelled => NoneDone(o.steps) && o.permits == []
    case Isolating => AnyDone(o.steps, Isolate) && !AnyDone(o.steps, Restore) && !AnyState(o.permits, Issued) && !AnyState(o.permits, Returned)
    case InProgress => AnyOpen(o.permits) && AllDone(o.steps, Isolate) && !AnyDone(o.steps, Restore)
      && (AnyState(o.permits, Issued) || AnyState(o.permits, Returned))
    case Restoring => AllDone(o.steps, Isolate) && !AllDone(o.steps, Restore) && !AnyOpen(o.permits)
    case _ => AllDone(o.steps, Isolate) && AllDone(o.steps, Restore) && !AnyOpen(o.permits)
  }

  predicate Underway(st: Status) { st in {Isolating, InProgress, Restoring, Resolved, Closed} }

  ghost predicate PlanFits(o: Outage) {
    && (Underway(o.status) ==> o.plan == Approved)
    && (o.plan == Approved ==> Has(o.steps, Isolate) && Has(o.steps, Restore) && CheckDraftSteps(o.steps).Allowed?)
    && (o.plan == Draft ==> NoneDone(o.steps))
  }

  ghost predicate Ids(o: Outage) {
    && (forall i :: 0 <= i < |o.steps| ==> o.steps[i].id < o.nextStepId)
    && (forall i, j :: 0 <= i < j < |o.steps| ==> o.steps[i].id != o.steps[j].id)
    && (forall i, j :: 0 <= i < j < |o.steps| && Done(o.steps[i]) ==> o.steps[i].confirmation != o.steps[j].confirmation)
  }

  ghost predicate Inv(o: Outage) {
    Prefix(o.steps) && Safe(o) && StatusFits(o) && PlanFits(o) && Ids(o)
  }

  /** StatusFits between two automatic moves. */
  ghost predicate Settling(o: Outage) {
    match o.status
    case Notified => !AnyDone(o.steps, Restore) && o.permits == []
    case Isolating => AnyDone(o.steps, Isolate) && !AnyState(o.permits, Returned) && (AnyState(o.permits, Issued) ==> AllDone(o.steps, Isolate))
    case InProgress => AllDone(o.steps, Isolate) && !AnyDone(o.steps, Restore) && (AnyState(o.permits, Issued) || AnyState(o.permits, Returned))
    case Restoring => AllDone(o.steps, Isolate) && !AnyOpen(o.permits)
    case _ => StatusFits(o)
  }

  ghost predicate MidInv(o: Outage) { Prefix(o.steps) && Safe(o) && Settling(o) && PlanFits(o) && Ids(o) }

  lemma MoveKeeps(o: Outage)
    requires MidInv(o) && NextAutomatic(o).Some?
    ensures MidInv(Move(o, NextAutomatic(o).value))
  {
    hide Prefix, CheckDraftSteps;
    var o' := Move(o, NextAutomatic(o).value);
    assert o'.steps == o.steps && o'.permits == o.permits && o'.plan == o.plan;
    assert Ids(o');
    hide Ids;
    assert Settling(o');
    assert PlanFits(o');
  }

  lemma {:induction false} SettleInv(o: Outage, n: nat)
    requires MidInv(o) && Ahead(o.status) <= n
    ensures Inv(Settle(o, n))
    decreases n
  {
    ImpliedIsLegal(o);
    hide Prefix, Ids, CheckDraftSteps;
    if NextAutomatic(o).Some? {
      MoveKeeps(o);
      SettleInv(Move(o, NextAutomatic(o).value), n - 1);
    } else {
      assert n > 0 ==> Settle(o, n) == o;
      assert forall i :: 0 <= i < |o.permits| && o.permits[i].state == Issued ==> OpenPermit(o.permits[i]);
    }
  }

  lemma InvSettling(o: Outage)
    requires Inv(o)
    ensures MidInv(o)
  {
    hide Prefix, Ids, CheckDraftSteps;
  }

  /** Confirming a step keeps the prefix: everything before it was done. */
  lemma ConfirmKeepsPrefix(steps: seq<Step>, i: nat, clientId: nat)
    requires Prefix(steps) && i < |steps| && PredecessorsDone(steps, steps[i])
    requires steps[i].phase == Restore ==> AllDone(steps, Isolate)
    ensures Prefix(steps[i := steps[i].(confirmation := Some(clientId))])
  {
  }

  lemma EffectPrefix(o: Outage, cmd: Cmd)
    requires Prefix(o.steps) && Check(o, cmd).Allowed?
    ensures Prefix(Effect(o, cmd).steps)
  {
    if cmd.Confirm? {
      var i := Find(o.steps, cmd.step).value;
      ConfirmKeepsPrefix(o.steps, i, cmd.clientId.value);
    }
  }

  /** Permit requests and issues only happen while no restore step is confirmed. */
  lemma PermitsMeanNoRestore(o: Outage)
    requires StatusFits(o)
    ensures o.status == Isolating || o.status == InProgress || AnyState(o.permits, Requested) || AnyState(o.permits, Issued)
      ==> !AnyDone(o.steps, Restore)
    ensures AnyState(o.permits, Requested) || AnyState(o.permits, Issued) ==> o.status == Isolating || o.status == InProgress
  {
    assert forall i :: 0 <= i < |o.permits| && (o.permits[i].state == Requested || o.permits[i].state == Issued) ==> OpenPermit(o.permits[i]);
  }

  lemma EffectIds(o: Outage, cmd: Cmd)
    requires Ids(o) && Check(o, cmd).Allowed?
    ensures Ids(Effect(o, cmd))
  {
    hide CheckDraftSteps;
  }

  lemma UnstartedNotUnderway(o: Outage)
    requires Inv(o) && NoneDone(o.steps)
    ensures !Underway(o.status)
  {
    hide Prefix, Ids, CheckDraftSteps, Safe;
  }

  lemma EditFits(o: Outage, cmd: Cmd)
    requires Inv(o) && Check(o, cmd).Allowed? && (cmd.EditPlan? || cmd.ApprovePlan? || cmd.UnapprovePlan?)
    ensures PlanFits(Effect(o, cmd))
  {
    if cmd.UnapprovePlan? { UnstartedNotUnderway(o); }
    hide Prefix, Ids, Safe, StatusFits, Numbered;
  }

  lemma EffectPlanFits(o: Outage, cmd: Cmd)
    requires Inv(o) && Check(o, cmd).Allowed?
    ensures PlanFits(Effect(o, cmd))
  {
    if cmd.EditPlan? || cmd.ApprovePlan? || cmd.UnapprovePlan? {
      EditFits(o, cmd);
    } else {
      hide Prefix, Ids, Safe, StatusFits, CheckDraftSteps, CheckEditPlan, CheckApprovePlan, CheckUnapprovePlan, AllDone;
      if cmd.Confirm? {
        ConfirmKeepsPlan(o.steps, Find(o.steps, cmd.step).value, cmd.clientId.value);
      }
    }
  }

  lemma {:induction false} SameSeqs(a: seq<Step>, b: seq<Step>, phase: Phase)
    requires |a| == |b| && forall i :: 0 <= i < |a| ==> b[i].phase == a[i].phase && b[i].seq_ == a[i].seq_
    ensures Seqs(a, phase) == Seqs(b, phase)
  {
    if a != [] { SameSeqs(a[1..], b[1..], phase); }
  }

  lemma ConfirmKeepsPlan(steps: seq<Step>, i: nat, clientId: nat)
    requires i < |steps| && CheckDraftSteps(steps).Allowed?
    ensures var steps' := steps[i := steps[i].(confirmation := Some(clientId))];
      && CheckDraftSteps(steps').Allowed?
      && (forall phase :: Has(steps, phase) ==> Has(steps', phase))
  {
    var steps' := steps[i := steps[i].(confirmation := Some(clientId))];
    SameSeqs(steps, steps', Isolate);
    SameSeqs(steps, steps', Restore);
    assert forall k :: 0 <= k < |steps| ==> StepShapeOk(steps[k]);
    hide Seqs, OneTo, StepShapeOk;
    assert forall k :: 0 <= k < |steps| ==> StepShapeOk(steps'[k]) by { SameShapes(steps[i], steps'[i]); }
    forall phase | Has(steps, phase) ensures Has(steps', phase) {
      var k :| 0 <= k < |steps| && steps[k].phase == phase;
      assert steps'[k].phase == phase;
    }
  }

  lemma SameShapes(a: Step, b: Step)
    requires b == a.(confirmation := b.confirmation)
    ensures StepShapeOk(b) == StepShapeOk(a)
  {
  }

  /** A permit that was open moves on: other permits keep their state. */
  lemma PermitMoves(o: Outage, i: nat, p: Permit)
    requires Inv(o) && i < |o.permits| && OpenPermit(o.permits[i]) && p.state != Requested
    requires o.permits[i].state == Issued <==> p.state == Returned
    requires p.state == Issued ==> AllDone(o.steps, Isolate)
    ensures var o' := SetPermit(o, i, p); Safe(o') && Settling(o')
  {
    hide Prefix, Ids, CheckDraftSteps, PlanFits;
    var st, permits' := p.state, SetPermit(o, i, p).permits;
    assert permits'[i].state == st;
    assert AnyState(o.permits, o.permits[i].state);
    PermitsMeanNoRestore(o);
    forall t | AnyState(o.permits, t) && t != o.permits[i].state ensures AnyState(permits', t) {
      var k :| 0 <= k < |o.permits| && o.permits[k].state == t;
      assert permits'[k].state == t;
    }
    forall k | 0 <= k < |permits'| ensures permits'[k].state == st || permits'[k].state == o.permits[k].state {}
  }

  lemma ConfirmSafe(o: Outage, i: nat, clientId: nat)
    requires Inv(o) && i < |o.steps| && PhaseActive(o.steps[i].phase, o.status)
    requires o.steps[i].phase == Restore ==> AllDone(o.steps, Isolate) && !AnyOpen(o.permits)
    ensures var o' := ConfirmAt(o, i, clientId); Safe(o') && Settling(o')
  {
    hide Prefix, Ids, CheckDraftSteps, PlanFits;
    var o' := ConfirmAt(o, i, clientId);
    assert Done(o'.steps[i]) && o'.steps[i].phase == o.steps[i].phase;
    forall phase | AnyDone(o.steps, phase) ensures AnyDone(o'.steps, phase) {
      var k :| 0 <= k < |o.steps| && o.steps[k].phase == phase && Done(o.steps[k]);
      assert Done(o'.steps[k]) && o'.steps[k].phase == phase;
    }
  }

  lemma EffectSafe(o: Outage, cmd: Cmd)
    requires Inv(o) && Check(o, cmd).Allowed?
    ensures Safe(Effect(o, cmd)) && Settling(Effect(o, cmd))
  {
    hide Prefix, Ids, CheckDraftSteps;
    match cmd
    case Confirm(_, id, clientId, _, _) => ConfirmSafe(o, Find(o.steps, id).value, clientId.value);
    case Issue(_, i, _, _) => PermitMoves(o, i, o.permits[i].(state := Issued));
    case RefusePermit(_, i, _) => PermitMoves(o, i, o.permits[i].(state := Refused));
    case WithdrawPermit(_, i) => PermitMoves(o, i, o.permits[i].(state := Withdrawn));
    case ReturnPermit(_, i, _, clientId, _, _) => PermitMoves(o, i, o.permits[i].(state := Returned, returnId := Some(clientId.value)));
    case RequestPermit(_, jobId, jobCrew, requestId, _) =>
      RequestSafe(o, Permit(jobId, jobCrew, Requested, requestId.value, None));
    case _ =>
  }

  lemma RequestSafe(o: Outage, p: Permit)
    requires Inv(o) && p.state == Requested && (o.status == Isolating || o.status == InProgress)
    ensures var o' := o.(permits := o.permits + [p], log := o.log + [Other]); Safe(o') && Settling(o')
  {
    hide Prefix, Ids, CheckDraftSteps, PlanFits;
    var permits' := o.permits + [p];
    forall t | AnyState(o.permits, t) ensures AnyState(permits', t) {
      var k :| 0 <= k < |o.permits| && o.permits[k].state == t;
      assert permits'[k].state == t;
    }
  }

  lemma ChangedInv(o: Outage, cmd: Cmd)
    requires Inv(o)
    ensures MidInv(Changed(o, cmd))
  {
    if Check(o, cmd).Allowed? {
      EffectPrefix(o, cmd);
      EffectSafe(o, cmd);
      EffectPlanFits(o, cmd);
      EffectIds(o, cmd);
    } else {
      InvSettling(o);
    }
    hide Check, Effect, Prefix, Ids, StatusFits, PlanFits, Safe, Settling;
  }

  lemma NoteInv(o: Outage, e: Entry)
    requires Inv(o)
    ensures Inv(o.(log := o.log + [e]))
  {
    hide CheckDraftSteps;
  }

  lemma ConcludeInv(v: Verdict, o: Outage, changed: Outage)
    requires Inv(o) && MidInv(changed)
    ensures Inv(Conclude(v, o, changed))
  {
    InvSettling(o);
    if v.Rejected? { NoteInv(o, Refusal(v.code)); }
    SettleInv(changed, MAX_MOVES);
    SettleInv(o, MAX_MOVES);
    hide Inv, MidInv, Settle;
  }

  /** Every request keeps the invariant. */
  lemma KeepInv(o: Outage, cmd: Cmd)
    requires Inv(o)
    ensures Inv(Apply(o, cmd))
  {
    ChangedInv(o, cmd);
    hide Check, Changed, Inv, MidInv, Conclude;
    ConcludeInv(Check(o, cmd), o, Changed(o, cmd));
  }

  lemma {:induction false} RunInv(cmds: seq<Cmd>)
    ensures Inv(Run(Init(), cmds))
  {
    if cmds != [] {
      RunInv(cmds[..|cmds| - 1]);
      KeepInv(Run(Init(), cmds[..|cmds| - 1]), cmds[|cmds| - 1]);
    }
  }
}
