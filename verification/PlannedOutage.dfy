/** The planned outage as repo.js keeps it: rows changed in place, one method per request, each proved to do exactly
  * what the machine's Apply says (backend/src/infra/repo.js).
  */
module PlannedOutages {
  import opened Common
  import opened SwitchingRules
  import opened SwitchingMachine

  /** One INSERT per drafted step, each with an id never used before. */
  method InsertSteps(draft: seq<Step>, nextId: nat) returns (saved: seq<Step>)
    ensures saved == Saved(draft, nextId)
  {
    saved := [];
    for i := 0 to |draft|
      invariant saved == Saved(draft, nextId)[..i]
    {
      saved := saved + [draft[i].(id := nextId + i, confirmation := None)];
    }
  }

  class PlannedOutage {
    var status: Status
    var plan: PlanState
    var steps: seq<Step>
    var permits: seq<Permit>
    var nextStepId: nat
    var log: seq<Entry>

    function State(): Outage
      reads this
    {
      Outage(status, plan, steps, permits, nextStepId, log)
    }

    constructor ()
      ensures State() == Init()
    {
      status, plan, steps, permits, nextStepId, log := Scheduled, Draft, [], [], 0, [];
    }

    /** moveIncident refuses an illegal move by throwing, so callers must only ask for legal ones. */
    method MoveIncident(to: Status)
      requires CanTransition(status, to)
      modifies this
      ensures State() == Move(old(State()), to)
    {
      log := log + [Moved(status, to)];
      status := to;
    }

    /** The automatic moves the plan and permits now imply: at most six, and never more needed. */
    method ApplyAutomatic()
      modifies this
      ensures State() == Settle(old(State()), MAX_MOVES)
      ensures NextAutomatic(State()).None?
    {
      SettleSettles(State(), MAX_MOVES);
      var i := 0;
      while i < MAX_MOVES
        invariant 0 <= i <= MAX_MOVES
        invariant Settle(State(), MAX_MOVES - i) == Settle(old(State()), MAX_MOVES)
      {
        var to := NextAutomatic(State());
        if to.None? { break; }
        MoveIncident(to.value);
        i := i + 1;
      }
    }

    /** A refusal is part of the safety record, unless there is nothing to file it under. */
    method LogRefusal(v: Verdict)
      requires v.Rejected?
      modifies this`log
      ensures log == if v.code == NotFound then old(log) else old(log) + [Refusal(v.code)]
    {
      if v.code != NotFound { log := log + [Refusal(v.code)]; }
    }

    method ReplaceDraftSteps(actor: Actor, draft: seq<Step>) returns (v: Verdict)
      modifies this
      ensures v == Check(old(State()), EditPlan(actor, draft))
      ensures State() == Apply(old(State()), EditPlan(actor, draft))
    {
      hide CheckDraftSteps, Settle, Saved;
      v := CheckEditPlan(State(), actor);
      if v.Allowed? { v := CheckDraftSteps(draft); }
      if v.Rejected? { LogRefusal(v); return; }
      steps := InsertSteps(draft, nextStepId);
      nextStepId := nextStepId + |draft|;
      log := log + [Other];
      ApplyAutomatic();
    }

    method ApprovePlan(actor: Actor) returns (v: Verdict)
      modifies this
      ensures v == Check(old(State()), SwitchingMachine.ApprovePlan(actor))
      ensures State() == Apply(old(State()), SwitchingMachine.ApprovePlan(actor))
    {
      v := CheckApprovePlan(State(), actor);
      if v.Rejected? { LogRefusal(v); return; }
      plan := Approved;
      log := log + [Other];
      ApplyAutomatic();
    }

    method UnapprovePlan(actor: Actor) returns (v: Verdict)
      modifies this
      ensures v == Check(old(State()), SwitchingMachine.UnapprovePlan(actor))
      ensures State() == Apply(old(State()), SwitchingMachine.UnapprovePlan(actor))
    {
      v := CheckUnapprovePlan(State(), actor);
      if v.Rejected? { LogRefusal(v); return; }
      plan := Draft;
      log := log + [Other];
      ApplyAutomatic();
    }

    /** Notice sent by the notifier, or skipped by an operator with a reason. */
    method MarkNotified(actor: Actor, skip: bool, reason: Text) returns (v: Verdict)
      modifies this
      ensures v == Check(old(State()), Notify(actor, skip, reason))
      ensures State() == Apply(old(State()), Notify(actor, skip, reason))
    {
      v := CheckNotify(State(), actor, skip, reason);
      if v.Rejected? { LogRefusal(v); return; }
      log := log + [Other];
      MoveIncident(Notified);
      ApplyAutomatic();
    }

    /** A notified outage goes back to scheduled, so that it is notified again. */
    method ReschedulePlannedOutage(actor: Actor, start: Option<int>, end: Option<int>, now: int, work: Text) returns (v: Verdict)
      modifies this
      ensures v == Check(old(State()), Reschedule(actor, start, end, now, work))
      ensures State() == Apply(old(State()), Reschedule(actor, start, end, now, work))
    {
      v := CheckReschedule(State(), actor, start, end, now, work);
      if v.Rejected? { LogRefusal(v); return; }
      log := log + [Other];
      if status == Notified { MoveIncident(Scheduled); }
      ApplyAutomatic();
    }

    method CancelPlannedOutage(actor: Actor, reason: Text) returns (v: Verdict)
      modifies this
      ensures v == Check(old(State()), Cancel(actor, reason))
      ensures State() == Apply(old(State()), Cancel(actor, reason))
    {
      v := CheckCancel(State(), actor, reason);
      if v.Rejected? { LogRefusal(v); return; }
      MoveIncident(Cancelled);
      ApplyAutomatic();
    }

    method ClosePlannedOutage(actor: Actor, jobsOpen: bool, force: bool, reason: Text, reasonLongEnough: bool) returns (v: Verdict)
      modifies this
      ensures v == Check(old(State()), Close(actor, jobsOpen, force, reason, reasonLongEnough))
      ensures State() == Apply(old(State()), Close(actor, jobsOpen, force, reason, reasonLongEnough))
    {
      v := CheckClose(State(), actor, jobsOpen, force, reason, reasonLongEnough);
      if v.Rejected? { LogRefusal(v); return; }
      if jobsOpen { log := log + [Other]; }
      MoveIncident(Closed);
      ApplyAutomatic();
    }

    method ConfirmSwitchingStep(stepId: nat, actor: Actor, clientId: Text, note: Text, elsewhere: set<nat>) returns (v: Verdict)
      modifies this
      ensures v == Check(old(State()), Confirm(actor, stepId, clientId, note, elsewhere))
      ensures State() == Apply(old(State()), Confirm(actor, stepId, clientId, note, elsewhere))
    {
      hide Settle, StepIdTaken;
      var at := Find(steps, stepId);
      if at.None? {
        v := Rejected(NotFound);
        LogRefusal(v);
        return;
      }
      var i := at.value;
      v := CheckConfirmStep(State(), steps[i], actor, clientId, note);
      if v.Allowed? && clientId.Given? && StepIdTaken(steps, clientId.value, elsewhere) { v := Rejected(ClientIdReused); }
      if v.Rejected? { LogRefusal(v); return; }
      if v.Allowed? {
        log := log + [Confirmed(steps[i].id, clientId.value)];
        steps := steps[i := steps[i].(confirmation := Some(clientId.value))];
      }
      ApplyAutomatic();
    }

    method AskForPermit(jobId: nat, jobCrew: CrewId, actor: Actor, requestId: Text, elsewhere: set<nat>) returns (v: Verdict)
      modifies this
      ensures v == Check(old(State()), RequestPermit(actor, jobId, jobCrew, requestId, elsewhere))
      ensures State() == Apply(old(State()), RequestPermit(actor, jobId, jobCrew, requestId, elsewhere))
    {
      v := CheckRequestPermit(State(), jobId, jobCrew, actor, requestId);
      if v.Allowed? && requestId.Given? && RequestIdTaken(permits, requestId.value, elsewhere) { v := Rejected(ClientIdReused); }
      if v.Rejected? { LogRefusal(v); return; }
      if v.Allowed? {
        permits := permits + [Permit(jobId, jobCrew, Requested, requestId.value, None)];
        log := log + [Other];
      }
      ApplyAutomatic();
    }

    /** The shared shape of the permit moves after the request: checked, written, logged, then the automatic moves. */
    method MovePermit(i: nat, p: Permit)
      requires i < |permits|
      modifies this
      ensures State() == Settle(SetPermit(old(State()), i, p), MAX_MOVES)
    {
      permits := permits[i := p];
      log := log + [Other];
      ApplyAutomatic();
    }

    method IssuePermit(i: nat, actor: Actor, isolation: Text, earthing: Text) returns (v: Verdict)
      modifies this
      ensures v == Check(old(State()), Issue(actor, i, isolation, earthing))
      ensures State() == Apply(old(State()), Issue(actor, i, isolation, earthing))
    {
      v := if i < |permits| then CheckIssuePermit(State(), permits[i], actor, isolation, earthing) else Rejected(NotFound);
      if v.Rejected? { LogRefusal(v); return; }
      MovePermit(i, permits[i].(state := Issued));
    }

    method RefuseThePermit(i: nat, actor: Actor, reason: Text) returns (v: Verdict)
      modifies this
      ensures v == Check(old(State()), RefusePermit(actor, i, reason))
      ensures State() == Apply(old(State()), RefusePermit(actor, i, reason))
    {
      v := if i < |permits| then CheckRefusePermit(permits[i], actor, reason) else Rejected(NotFound);
      if v.Rejected? { LogRefusal(v); return; }
      MovePermit(i, permits[i].(state := Refused));
    }

    method WithdrawThePermit(i: nat, actor: Actor) returns (v: Verdict)
      modifies this
      ensures v == Check(old(State()), WithdrawPermit(actor, i))
      ensures State() == Apply(old(State()), WithdrawPermit(actor, i))
    {
      v := if i < |permits| then CheckWithdrawPermit(permits[i], actor) else Rejected(NotFound);
      if v.Rejected? { LogRefusal(v); return; }
      if v.Replay? { ApplyAutomatic(); return; }
      MovePermit(i, permits[i].(state := Withdrawn));
    }

    method ReturnThePermit(i: nat, actor: Actor, d: Declaration, clientId: Text, note: Text, elsewhere: set<nat>) returns (v: Verdict)
      modifies this
      ensures v == Check(old(State()), ReturnPermit(actor, i, d, clientId, note, elsewhere))
      ensures State() == Apply(old(State()), ReturnPermit(actor, i, d, clientId, note, elsewhere))
    {
      v := if i < |permits| then CheckReturnPermit(permits[i], actor, d, clientId, note) else Rejected(NotFound);
      if v.Allowed? && clientId.Given? && ReturnIdTaken(permits, clientId.value, elsewhere) { v := Rejected(ClientIdReused); }
      if v.Rejected? { LogRefusal(v); return; }
      if v.Replay? { ApplyAutomatic(); return; }
      MovePermit(i, permits[i].(state := Returned, returnId := Some(clientId.value)));
    }
  }
}
