/** The planned-outage safety rules (backend/src/domain/plannedOutage.js): switching-plan order, work permits and the
  * automatic status moves. Every check is a pure function of the rows it is given.
  */
module SwitchingRules {
  import opened Common

  datatype Status = Scheduled | Notified | Isolating | InProgress | Restoring | Resolved | Closed | Cancelled

  datatype PlanState = Draft | Approved

  datatype Phase = Isolate | Restore

  datatype PermitState = Requested | Issued | Returned | Refused | Withdrawn

  datatype Role = OmsOperator | SystemAdmin | FieldCrew | System

  type CrewId = nat

  /** A text field of a request: missing or only spaces, over its length limit, or usable. */
  datatype Text = Blank | TooLong | Given(value: nat)

  datatype Actor = Actor(roles: set<Role>, crewId: Option<CrewId>)

  datatype Assignee = ControlRoom | Crew(crew: Option<CrewId>)

  /** One switching step; `confirmation` holds the client id it was confirmed with. */
  datatype Step = Step(id: nat, phase: Phase, seq_: int, assignee: Assignee, device: Text, location: Text, confirmation: Option<nat>)

  datatype Permit = Permit(jobId: nat, crewId: CrewId, state: PermitState, requestId: nat, returnId: Option<nat>)

  /** One line of the safety log. */
  datatype Entry = Confirmed(step: nat, clientId: nat) | Moved(before: Status, after: Status) | Refusal(code: Code) | Other

  datatype Outage = Outage(status: Status, plan: PlanState, steps: seq<Step>, permits: seq<Permit>, nextStepId: nat, log: seq<Entry>)

  datatype Code =
    | Forbidden | BadInput | BadSteps | PlanNotDraft | PlanIncomplete | PlanNotApproved | SwitchingStarted
    | ClientIdRequired | AlreadyConfirmed | OutageNotActive | WrongAssignee | PredecessorUnconfirmed | IsolationIncomplete
    | PermitOutstanding | NotYourJob | PermitAlreadyOpen | OutageNotIsolating | OutageRestoring | PermitNotRequested
    | DetailsRequired | ReasonRequired | NotYourPermit | PermitNotIssued | DeclarationIncomplete | NotScheduled
    | NotResolved | JobsOpen | PermitNotReturned | ClientIdReused | NotFound

  datatype Verdict = Allowed | Replay | Rejected(code: Code)

  // ---- actors, steps, permits ----

  predicate IsOperator(a: Actor) { OmsOperator in a.roles || SystemAdmin in a.roles }

  predicate IsCrew(a: Actor) { FieldCrew in a.roles && a.crewId.Some? }

  predicate IsSystem(a: Actor) { System in a.roles }

  predicate Done(s: Step) { s.confirmation.Some? }

  predicate OpenPermit(p: Permit) { p.state == Requested || p.state == Issued }

  predicate AnyOpen(permits: seq<Permit>) { exists i :: 0 <= i < |permits| && OpenPermit(permits[i]) }

  predicate AnyState(permits: seq<Permit>, st: PermitState) { exists i :: 0 <= i < |permits| && permits[i].state == st }

  predicate AllDone(steps: seq<Step>, phase: Phase) {
    forall i :: 0 <= i < |steps| && steps[i].phase == phase ==> Done(steps[i])
  }

  predicate AnyDone(steps: seq<Step>, phase: Phase) {
    exists i :: 0 <= i < |steps| && steps[i].phase == phase && Done(steps[i])
  }

  predicate NoneDone(steps: seq<Step>) { !AnyDone(steps, Isolate) && !AnyDone(steps, Restore) }

  predicate Has(steps: seq<Step>, phase: Phase) { exists i :: 0 <= i < |steps| && steps[i].phase == phase }

  // ---- status table (backend/src/domain/lifecycle.js) ----

  predicate CanTransition(from_: Status, to: Status) {
    match from_
    case Scheduled => to == Notified || to == Cancelled
    case Notified => to == Isolating || to == Scheduled || to == Cancelled
    case Isolating => to == InProgress || to == Restoring
    case InProgress => to == Restoring
    case Restoring => to == Resolved
    case Resolved => to == Closed
    case _ => false
  }

  // ---- switching plan ----

  function Seqs(steps: seq<Step>, phase: Phase): multiset<int> {
    if steps == [] then multiset{}
    else Seqs(steps[1..], phase) + (if steps[0].phase == phase then multiset{steps[0].seq_} else multiset{})
  }

  function OneTo(n: nat): multiset<int> { if n == 0 then multiset{} else OneTo(n - 1) + multiset{n as int} }

  /** Steps of a phase are numbered 1..n with no gap or repeat. */
  predicate Numbered(steps: seq<Step>, phase: Phase) { Seqs(steps, phase) == OneTo(|Seqs(steps, phase)|) }

  predicate StepShapeOk(s: Step) {
    (s.assignee.Crew? ==> s.assignee.crew.Some?) && s.device.Given? && s.location.Given?
  }

  function CheckDraftSteps(steps: seq<Step>): (v: Verdict)
    ensures !v.Replay?
  {
    if exists i :: 0 <= i < |steps| && !StepShapeOk(steps[i]) then Rejected(BadSteps)
    else if !Numbered(steps, Isolate) || !Numbered(steps, Restore) then Rejected(BadSteps)
    else Allowed
  }

  function CheckEditPlan(o: Outage, a: Actor): Verdict {
    if !IsOperator(a) then Rejected(Forbidden)
    else if o.plan != Draft then Rejected(PlanNotDraft)
    else Allowed
  }

  function CheckApprovePlan(o: Outage, a: Actor): Verdict {
    if !IsOperator(a) then Rejected(Forbidden)
    else if o.plan != Draft then Rejected(PlanNotDraft)
    else if !Has(o.steps, Isolate) || !Has(o.steps, Restore) then Rejected(PlanIncomplete)
    else CheckDraftSteps(o.steps)
  }

  function CheckUnapprovePlan(o: Outage, a: Actor): Verdict {
    if !IsOperator(a) then Rejected(Forbidden)
    else if o.plan != Approved then Rejected(PlanNotApproved)
    else if !NoneDone(o.steps) then Rejected(SwitchingStarted)
    else Allowed
  }

  predicate PhaseActive(phase: Phase, st: Status) {
    match phase
    case Isolate => st == Notified || st == Isolating
    case Restore => st == Isolating || st == InProgress || st == Restoring
  }

  predicate PredecessorsDone(steps: seq<Step>, s: Step) {
    forall i :: 0 <= i < |steps| && steps[i].phase == s.phase && steps[i].seq_ < s.seq_ ==> Done(steps[i])
  }

  /** Confirming one switching step. The order of the checks matters: a replay succeeds whatever came later. */
  function CheckConfirmStep(o: Outage, s: Step, a: Actor, clientId: Text, note: Text): Verdict {
    if clientId.Blank? then Rejected(ClientIdRequired)
    else if clientId.TooLong? || note.TooLong? then Rejected(BadInput)
    else if Done(s) then (if s.confirmation == Some(clientId.value) then Replay else Rejected(AlreadyConfirmed))
    else if o.plan != Approved then Rejected(PlanNotApproved)
    else if !PhaseActive(s.phase, o.status) then Rejected(OutageNotActive)
    else if s.assignee.Crew? && !(IsCrew(a) && a.crewId == s.assignee.crew) && !(IsOperator(a) && note.Given?) then Rejected(WrongAssignee)
    else if s.assignee.ControlRoom? && !IsOperator(a) then Rejected(WrongAssignee)
    else if !PredecessorsDone(o.steps, s) then Rejected(PredecessorUnconfirmed)
    else if s.phase == Restore && !AllDone(o.steps, Isolate) then Rejected(IsolationIncomplete)
    else if s.phase == Restore && AnyOpen(o.permits) then Rejected(PermitOutstanding)
    else Allowed
  }

  // ---- work permits ----

  predicate OwnOpen(permits: seq<Permit>, jobId: nat) {
    exists i :: 0 <= i < |permits| && permits[i].jobId == jobId && OpenPermit(permits[i])
  }

  predicate RequestedBefore(permits: seq<Permit>, jobId: nat, requestId: nat) {
    exists i :: 0 <= i < |permits| && permits[i].jobId == jobId && permits[i].requestId == requestId
  }

  predicate OwnIsolationDone(steps: seq<Step>, crew: Option<CrewId>) {
    forall i :: 0 <= i < |steps| && steps[i].phase == Isolate && steps[i].assignee == Crew(crew) ==> Done(steps[i])
  }

  function CheckRequestPermit(o: Outage, jobId: nat, jobCrew: CrewId, a: Actor, requestId: Text): Verdict {
    if requestId.Blank? then Rejected(ClientIdRequired)
    else if requestId.TooLong? then Rejected(BadInput)
    else if !IsCrew(a) || a.crewId != Some(jobCrew) then Rejected(NotYourJob)
    else if RequestedBefore(o.permits, jobId, requestId.value) then Replay
    else if OwnOpen(o.permits, jobId) then Rejected(PermitAlreadyOpen)
    else if o.status != Isolating && o.status != InProgress then Rejected(OutageNotIsolating)
    else if AnyDone(o.steps, Restore) then Rejected(OutageRestoring)
    else if !OwnIsolationDone(o.steps, a.crewId) then Rejected(IsolationIncomplete)
    else Allowed
  }

  function CheckIssuePermit(o: Outage, p: Permit, a: Actor, isolation: Text, earthing: Text): Verdict {
    if !IsOperator(a) then Rejected(Forbidden)
    else if p.state != Requested then Rejected(PermitNotRequested)
    else if !AllDone(o.steps, Isolate) then Rejected(IsolationIncomplete)
    else if AnyDone(o.steps, Restore) then Rejected(OutageRestoring)
    else if isolation.Blank? || earthing.Blank? then Rejected(DetailsRequired)
    else if isolation.TooLong? || earthing.TooLong? then Rejected(BadInput)
    else Allowed
  }

  function CheckRefusePermit(p: Permit, a: Actor, reason: Text): Verdict {
    if !IsOperator(a) then Rejected(Forbidden)
    else if p.state != Requested then Rejected(PermitNotRequested)
    else if reason.Blank? then Rejected(ReasonRequired)
    else if reason.TooLong? then Rejected(BadInput)
    else Allowed
  }

  function CheckWithdrawPermit(p: Permit, a: Actor): Verdict {
    if p.state == Withdrawn then Replay
    else if !IsCrew(a) || a.crewId != Some(p.crewId) then Rejected(NotYourPermit)
    else if p.state != Requested then Rejected(PermitNotRequested)
    else Allowed
  }

  datatype Declaration = Declaration(menWithdrawn: bool, earthsRemoved: bool, toolsClear: bool, remarks: Text)

  function CheckReturnPermit(p: Permit, a: Actor, d: Declaration, clientId: Text, note: Text): Verdict {
    if clientId.Blank? then Rejected(ClientIdRequired)
    else if clientId.TooLong? || note.TooLong? || d.remarks.TooLong? then Rejected(BadInput)
    else if p.state == Returned then (if p.returnId == Some(clientId.value) then Replay else Rejected(PermitNotIssued))
    else if p.state != Issued then Rejected(PermitNotIssued)
    else if !(IsCrew(a) && a.crewId == Some(p.crewId)) && !(IsOperator(a) && note.Given?) then Rejected(NotYourPermit)
    else if !d.menWithdrawn || !d.earthsRemoved || !d.toolsClear then Rejected(DeclarationIncomplete)
    else Allowed
  }

  // ---- outage-level actions ----

  function CheckNotify(o: Outage, a: Actor, skip: bool, reason: Text): Verdict {
    if !IsOperator(a) && !(IsSystem(a) && !skip) then Rejected(Forbidden)
    else if o.status != Scheduled then Rejected(NotScheduled)
    else if o.plan != Approved then Rejected(PlanNotApproved)
    else if skip && reason.Blank? then Rejected(ReasonRequired)
    else if reason.TooLong? then Rejected(BadInput)
    else Allowed
  }

  const PAST_TOLERANCE_MIN := 5
  const MAX_WINDOW_HOURS := 72

  /** A planned window starts now or later and lasts at most 72 hours (times in minutes; None = not a date). */
  predicate WindowOk(start: Option<int>, end: Option<int>, now: int) {
    start.Some? && end.Some? && start.value < end.value && now - PAST_TOLERANCE_MIN <= start.value
    && end.value - start.value <= MAX_WINDOW_HOURS * 60
  }

  function CheckReschedule(o: Outage, a: Actor, start: Option<int>, end: Option<int>, now: int, work: Text): Verdict {
    if !IsOperator(a) then Rejected(Forbidden)
    else if !WindowOk(start, end, now) || work.TooLong? then Rejected(BadInput)
    else if o.status != Scheduled && o.status != Notified then Rejected(SwitchingStarted)
    else if !NoneDone(o.steps) then Rejected(SwitchingStarted)
    else Allowed
  }

  function CheckCancel(o: Outage, a: Actor, reason: Text): Verdict {
    if !IsOperator(a) then Rejected(Forbidden)
    else if (o.status != Scheduled && o.status != Notified) || !NoneDone(o.steps) then Rejected(SwitchingStarted)
    else if reason.Blank? then Rejected(ReasonRequired)
    else if reason.TooLong? then Rejected(BadInput)
    else Allowed
  }

  /** `reasonLongEnough`: at least ten characters once trimmed. */
  function CheckClose(o: Outage, a: Actor, jobsOpen: bool, force: bool, reason: Text, reasonLongEnough: bool): Verdict {
    if !IsOperator(a) then Rejected(Forbidden)
    else if o.status != Resolved then Rejected(NotResolved)
    else if jobsOpen && !force then Rejected(JobsOpen)
    else if jobsOpen && (reason.Blank? || !reasonLongEnough) then Rejected(ReasonRequired)
    else if reason.TooLong? then Rejected(BadInput)
    else Allowed
  }

  datatype JobStatus = WorkStarted | WorkComplete | OtherStatus

  /** A crew job's status on a planned outage; `permit` is the job's latest permit, if any. */
  function CheckJobStatus(status: JobStatus, permit: Option<Permit>, outage: Status): Verdict {
    if status == WorkStarted && !(permit.Some? && permit.value.state == Issued) then Rejected(PermitNotIssued)
    else if status == WorkComplete && !(permit.Some? && permit.value.state == Returned) then
      if (permit.None? || !OpenPermit(permit.value)) && outage in {Restoring, Resolved, Closed, Cancelled} then Allowed
      else Rejected(PermitNotReturned)
    else Allowed
  }

  // ---- automatic status moves ----

  /** The status the plan and permits now imply, one move at a time, before the legality check. */
  function Implied(o: Outage): Option<Status> {
    match o.status
    case Notified => if AnyDone(o.steps, Isolate) then Some(Isolating) else None
    case Isolating =>
      if AnyDone(o.steps, Restore) then Some(Restoring)
      else if AllDone(o.steps, Isolate) && AnyState(o.permits, Issued) then Some(InProgress)
      else None
    case InProgress =>
      if !AnyOpen(o.permits) && (AnyState(o.permits, Returned) || AnyDone(o.steps, Restore)) then Some(Restoring) else None
    case Restoring => if Has(o.steps, Restore) && AllDone(o.steps, Restore) then Some(Resolved) else None
    case _ => None
  }

  function NextAutomatic(o: Outage): Option<Status> {
    var to := Implied(o);
    if to.Some? && CanTransition(o.status, to.value) then to else None
  }
}
