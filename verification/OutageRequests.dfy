/** Who may do what to a planned outage, and when, said in the fields of the request and the rows it meets
  * (backend/src/domain/plannedOutage.js): for every change, exactly the requests that make it. */
module OutageRequests {
  import opened Common
  import opened SwitchingRules
  import opened SwitchingMachine

  /** The control room: an operator or a system administrator. */
  predicate FromControlRoom(a: Actor) { OmsOperator in a.roles || SystemAdmin in a.roles }

  /** A login of this very crew. */
  predicate FromCrew(a: Actor, crew: CrewId) { FieldCrew in a.roles && a.crewId == Some(crew) }

  /** By the crew itself, or by the control room with a note saying who reported it. */
  predicate ByOrFor(a: Actor, crew: CrewId, note: Text) { FromCrew(a, crew) || (FromControlRoom(a) && note.Given?) }

  /** The automatic moves touch neither plan, steps nor permits, and a refused or replayed request touches nothing else. */
  lemma Writes(o: Outage, cmd: Cmd)
    ensures var after, changed := Apply(o, cmd), Changed(o, cmd);
      after.plan == changed.plan && after.steps == changed.steps && after.permits == changed.permits && after.nextStepId == changed.nextStepId
    ensures !Check(o, cmd).Allowed? ==> Changed(o, cmd) == o
  {
    ConcludeSettles(Check(o, cmd), o, Changed(o, cmd));
    hide Check, Effect, Settle, NextAutomatic;
  }

  // ---- permits ----

  ghost predicate ReturnIdFree(permits: seq<Permit>, clientId: nat, elsewhere: set<nat>) {
    clientId !in elsewhere && forall i :: 0 <= i < |permits| ==> permits[i].returnId != Some(clientId)
  }

  /** The request returns permit p: issued, by or for its crew, and declared in full: all men withdrawn, all earths removed,
    * tools clear. */
  ghost predicate Returns(o: Outage, cmd: Cmd, p: nat)
    requires p < |o.permits|
  {
    && cmd.ReturnPermit? && cmd.permit == p && o.permits[p].state == Issued
    && ByOrFor(cmd.actor, o.permits[p].crewId, cmd.note)
    && cmd.declaration.menWithdrawn && cmd.declaration.earthsRemoved && cmd.declaration.toolsClear
    && cmd.clientId.Given? && !cmd.note.TooLong? && !cmd.declaration.remarks.TooLong?
    && ReturnIdFree(o.permits, cmd.clientId.value, cmd.elsewhere)
  }

  /** The request issues permit p: requested, by the control room, with isolation and earthing points, every isolation step
    * confirmed and no restore step. */
  ghost predicate Issues(o: Outage, cmd: Cmd, p: nat)
    requires p < |o.permits|
  {
    && cmd.Issue? && cmd.permit == p && o.permits[p].state == Requested && FromControlRoom(cmd.actor)
    && cmd.isolation.Given? && cmd.earthing.Given?
    && (forall i :: 0 <= i < |o.steps| && o.steps[i].phase == Isolate ==> o.steps[i].confirmation.Some?)
    && (forall i :: 0 <= i < |o.steps| && o.steps[i].phase == Restore ==> o.steps[i].confirmation.None?)
  }

  ghost predicate Refuses(o: Outage, cmd: Cmd, p: nat)
    requires p < |o.permits|
  {
    cmd.RefusePermit? && cmd.permit == p && o.permits[p].state == Requested && FromControlRoom(cmd.actor) && cmd.reason.Given?
  }

  ghost predicate Withdraws(o: Outage, cmd: Cmd, p: nat)
    requires p < |o.permits|
  {
    cmd.WithdrawPermit? && cmd.permit == p && o.permits[p].state == Requested && FromCrew(cmd.actor, o.permits[p].crewId)
  }

  /** What a request makes of permit p. */
  lemma PermitExactly(o: Outage, cmd: Cmd, p: nat)
    requires p < |o.permits|
    ensures p < |Apply(o, cmd).permits|
    ensures var q, q' := o.permits[p], Apply(o, cmd).permits[p];
      && q'.jobId == q.jobId && q'.crewId == q.crewId && q'.requestId == q.requestId
      && q'.returnId == (if Returns(o, cmd, p) then Some(cmd.clientId.value) else q.returnId)
      && q'.state == (if Returns(o, cmd, p) then Returned else if Issues(o, cmd, p) then Issued
                      else if Refuses(o, cmd, p) then Refused else if Withdraws(o, cmd, p) then Withdrawn else q.state)
  {
    Writes(o, cmd);
    hide Apply, CheckDraftSteps;
  }

  /** The request opens a permit for its job: by the job's own crew while the line is isolated or worked on, its own isolation
    * steps confirmed, nothing restored, and no permit of the job requested or issued. */
  ghost predicate Opens(o: Outage, cmd: Cmd) {
    && cmd.RequestPermit? && cmd.requestId.Given? && FromCrew(cmd.actor, cmd.jobCrew)
    && (o.status == Isolating || o.status == InProgress)
    && (forall i :: 0 <= i < |o.permits| && o.permits[i].jobId == cmd.jobId ==> o.permits[i].state != Requested && o.permits[i].state != Issued)
    && (forall i :: 0 <= i < |o.steps| && o.steps[i].phase == Restore ==> o.steps[i].confirmation.None?)
    && (forall i :: 0 <= i < |o.steps| && o.steps[i].phase == Isolate && o.steps[i].assignee == Crew(Some(cmd.jobCrew)) ==>
          o.steps[i].confirmation.Some?)
    && cmd.requestId.value !in cmd.elsewhere && (forall i :: 0 <= i < |o.permits| ==> o.permits[i].requestId != cmd.requestId.value)
  }

  lemma PermitsExactly(o: Outage, cmd: Cmd)
    ensures var permits := Apply(o, cmd).permits;
      && |permits| == |o.permits| + (if Opens(o, cmd) then 1 else 0)
      && (Opens(o, cmd) ==> permits[|o.permits|] == Permit(cmd.jobId, cmd.jobCrew, Requested, cmd.requestId.value, None))
  {
    Writes(o, cmd);
    hide Apply, CheckDraftSteps, WindowOk;
  }

  ghost predicate ReturnedAt(cmds: seq<Cmd>, p: nat, k: nat) {
    k < |cmds| && p < |Run(Init(), cmds[..k]).permits| && Returns(Run(Init(), cmds[..k]), cmds[k], p)
  }

  lemma ReturnStep(o: Outage, cmd: Cmd, p: nat)
    requires p < |Apply(o, cmd).permits| && Apply(o, cmd).permits[p].state == Returned
    ensures p < |o.permits| && (o.permits[p].state == Returned || Returns(o, cmd, p))
  {
    PermitsExactly(o, cmd);
    if p < |o.permits| { PermitExactly(o, cmd, p); }
    hide Returns, Issues, Refuses, Withdraws, Opens, Apply;
  }

  lemma Earlier(cmds: seq<Cmd>, p: nat, k: nat)
    requires cmds != [] && ReturnedAt(cmds[..|cmds| - 1], p, k)
    ensures ReturnedAt(cmds, p, k)
  {
    assert cmds[..|cmds| - 1][..k] == cmds[..k];
    hide Returns, Run;
  }

  /** Every returned permit of a run was issued, and then declared safe in full by its crew or on its behalf. */
  lemma {:induction false} ReturnedUnderFullDeclaration(cmds: seq<Cmd>, p: nat)
    requires p < |Run(Init(), cmds).permits| && Run(Init(), cmds).permits[p].state == Returned
    ensures exists k: nat :: ReturnedAt(cmds, p, k)
  {
    hide Returns, Apply;
    if cmds != [] {
      var n := |cmds| - 1;
      var o := Run(Init(), cmds[..n]);
      ReturnStep(o, cmds[n], p);
      if o.permits[p].state == Returned {
        ReturnedUnderFullDeclaration(cmds[..n], p);
        var k: nat :| ReturnedAt(cmds[..n], p, k);
        Earlier(cmds, p, k);
      } else {
        assert ReturnedAt(cmds, p, n);
      }
    }
  }

  // ---- steps ----

  ghost predicate StepIdFree(steps: seq<Step>, clientId: nat, elsewhere: set<nat>) {
    clientId !in elsewhere && forall j :: 0 <= j < |steps| ==> steps[j].confirmation != Some(clientId)
  }

  /** A step of the control room is confirmed by the control room, a crew's by or for that crew. */
  predicate MayConfirm(s: Step, a: Actor, note: Text) {
    match s.assignee
    case ControlRoom => FromControlRoom(a)
    case Crew(None) => FromControlRoom(a) && note.Given?
    case Crew(Some(crew)) => ByOrFor(a, crew, note)
  }

  /** The request confirms step i: of an approved plan, by or for its crew or by the control room, in its phase's turn, all steps
    * before it done; a restore step only once the isolation is complete and no permit is requested or issued. */
  ghost predicate ConfirmsStep(o: Outage, cmd: Cmd, i: nat)
    requires i < |o.steps|
  {
    var s := o.steps[i];
    && cmd.Confirm? && cmd.step == s.id && (forall j :: 0 <= j < i ==> o.steps[j].id != s.id)
    && s.confirmation.None? && o.plan == Approved
    && MayConfirm(s, cmd.actor, cmd.note)
    && (s.phase == Isolate ==> o.status == Notified || o.status == Isolating)
    && (s.phase == Restore ==> o.status == Isolating || o.status == InProgress || o.status == Restoring)
    && (forall j :: 0 <= j < |o.steps| && o.steps[j].phase == s.phase && o.steps[j].seq_ < s.seq_ ==> o.steps[j].confirmation.Some?)
    && (s.phase == Restore ==> forall j :: 0 <= j < |o.steps| && o.steps[j].phase == Isolate ==> o.steps[j].confirmation.Some?)
    && (s.phase == Restore ==> forall j :: 0 <= j < |o.permits| ==> o.permits[j].state != Requested && o.permits[j].state != Issued)
    && cmd.clientId.Given? && !cmd.note.TooLong? && StepIdFree(o.steps, cmd.clientId.value, cmd.elsewhere)
  }

  lemma {:induction false} FindsFirst(steps: seq<Step>, i: nat)
    requires i < |steps|
    ensures Find(steps, steps[i].id).Some? && Find(steps, steps[i].id).value <= i
    ensures (forall j :: 0 <= j < i ==> steps[j].id != steps[i].id) <==> Find(steps, steps[i].id) == Some(i)
  {
    if i > 0 && steps[0].id != steps[i].id {
      FindsFirst(steps[1..], i - 1);
      assert forall j :: 0 < j < i ==> steps[j] == steps[1..][j - 1];
      assert forall j :: 0 <= j < i - 1 ==> steps[1..][j] == steps[j + 1];
    }
  }

  lemma ConfirmExactly(o: Outage, cmd: Cmd, i: nat)
    requires i < |o.steps| && cmd.Confirm?
    ensures Find(o.steps, cmd.step) == Some(i) && Check(o, cmd).Allowed? <==> ConfirmsStep(o, cmd, i)
  {
    if cmd.step == o.steps[i].id {
      FindsFirst(o.steps, i);
      hide Find;
    } else {
      hide CheckConfirmStep;
    }
  }

  /** What a request makes of step i, unless it replaces the draft. */
  lemma StepExactly(o: Outage, cmd: Cmd, i: nat)
    requires i < |o.steps| && !cmd.EditPlan?
    ensures |Apply(o, cmd).steps| == |o.steps|
    ensures Apply(o, cmd).steps[i] == if ConfirmsStep(o, cmd, i) then o.steps[i].(confirmation := Some(cmd.clientId.value)) else o.steps[i]
  {
    Writes(o, cmd);
    if cmd.Confirm? {
      ConfirmExactly(o, cmd, i);
      hide Apply, CheckConfirmStep, ConfirmsStep, Find, CheckConfirm;
    } else {
      hide Apply, Check;
    }
  }

  // ---- the plan ----

  /** How many steps of a phase have this number. */
  function CountOf(steps: seq<Step>, phase: Phase, k: int): nat {
    if steps == [] then 0 else CountOf(steps[1..], phase, k) + (if steps[0].phase == phase && steps[0].seq_ == k then 1 else 0)
  }

  function CountPhase(steps: seq<Step>, phase: Phase): nat {
    if steps == [] then 0 else CountPhase(steps[1..], phase) + (if steps[0].phase == phase then 1 else 0)
  }

  lemma {:induction false} SeqsCount(steps: seq<Step>, phase: Phase, k: int)
    ensures Seqs(steps, phase)[k] == CountOf(steps, phase, k) && |Seqs(steps, phase)| == CountPhase(steps, phase)
  {
    if steps != [] { SeqsCount(steps[1..], phase, k); }
  }

  lemma {:induction false} OneToCount(n: nat, k: int)
    ensures OneTo(n)[k] == (if 1 <= k <= n then 1 else 0) && |OneTo(n)| == n
  {
    if n > 0 { OneToCount(n - 1, k); }
  }

  /** Of the n steps of the phase, each of the numbers 1 to n is on exactly one. */
  ghost predicate OneOfEach(steps: seq<Step>, phase: Phase) {
    forall k: int :: CountOf(steps, phase, k) == if 1 <= k <= CountPhase(steps, phase) then 1 else 0
  }

  lemma SameMultiset(a: multiset<int>, b: multiset<int>)
    requires forall k: int :: a[k] == b[k]
    ensures a == b
  {
    forall k: int ensures a[k] == b[k] {}
  }

  lemma NumberedExactly(steps: seq<Step>, phase: Phase)
    ensures Numbered(steps, phase) <==> OneOfEach(steps, phase)
  {
    var n := CountPhase(steps, phase);
    forall k: int ensures Seqs(steps, phase)[k] == CountOf(steps, phase, k) && |Seqs(steps, phase)| == n
                      && OneTo(n)[k] == (if 1 <= k <= n then 1 else 0) {
      SeqsCount(steps, phase, k);
      OneToCount(n, k);
    }
    if OneOfEach(steps, phase) {
      assert forall k: int :: Seqs(steps, phase)[k] == CountOf(steps, phase, k) == OneTo(n)[k];
      SameMultiset(Seqs(steps, phase), OneTo(n));
    }
  }

  /** A usable draft: each step has its device and place and, if it is a crew's, the crew; and each phase counts from 1. */
  ghost predicate Draftable(steps: seq<Step>) {
    && (forall i :: 0 <= i < |steps| ==> steps[i].device.Given? && steps[i].location.Given? && steps[i].assignee != Crew(None))
    && OneOfEach(steps, Isolate) && OneOfEach(steps, Restore)
  }

  lemma DraftExactly(steps: seq<Step>)
    ensures CheckDraftSteps(steps) == if Draftable(steps) then Allowed else Rejected(BadSteps)
  {
    NumberedExactly(steps, Isolate);
    NumberedExactly(steps, Restore);
    hide Numbered, OneOfEach;
  }

  ghost predicate NothingDone(o: Outage) { forall i :: 0 <= i < |o.steps| ==> o.steps[i].confirmation.None? }

  ghost predicate Edits(o: Outage, cmd: Cmd) { cmd.EditPlan? && FromControlRoom(cmd.actor) && o.plan == Draft && Draftable(cmd.draft) }

  ghost predicate Approves(o: Outage, cmd: Cmd) {
    && cmd.ApprovePlan? && FromControlRoom(cmd.actor) && o.plan == Draft && Draftable(o.steps)
    && (exists i :: 0 <= i < |o.steps| && o.steps[i].phase == Isolate) && (exists i :: 0 <= i < |o.steps| && o.steps[i].phase == Restore)
  }

  ghost predicate Unapproves(o: Outage, cmd: Cmd) { cmd.UnapprovePlan? && FromControlRoom(cmd.actor) && o.plan == Approved && NothingDone(o) }

  lemma EditAllowed(o: Outage, cmd: Cmd)
    requires cmd.EditPlan?
    ensures Check(o, cmd).Allowed? <==> Edits(o, cmd)
  {
    DraftExactly(cmd.draft);
    hide Draftable, CheckDraftSteps;
  }

  lemma ApproveAllowed(o: Outage, cmd: Cmd)
    requires cmd.ApprovePlan?
    ensures Check(o, cmd).Allowed? <==> Approves(o, cmd)
  {
    DraftExactly(o.steps);
    hide Draftable, CheckDraftSteps;
  }

  lemma PlanAllowed(o: Outage, cmd: Cmd)
    ensures cmd.EditPlan? ==> (Check(o, cmd).Allowed? <==> Edits(o, cmd))
    ensures cmd.ApprovePlan? ==> (Check(o, cmd).Allowed? <==> Approves(o, cmd))
    ensures cmd.UnapprovePlan? ==> (Check(o, cmd).Allowed? <==> Unapproves(o, cmd))
  {
    if cmd.EditPlan? { EditAllowed(o, cmd); }
    if cmd.ApprovePlan? { ApproveAllowed(o, cmd); }
    hide Draftable, CheckDraftSteps, Edits, Approves, CheckApprovePlan, CheckEditPlan;
  }

  /** What a request makes of the plan: approved, back to draft, or its steps replaced by the draft, under new ids and with
    * nothing confirmed. */
  lemma PlanExactly(o: Outage, cmd: Cmd)
    ensures var o' := Apply(o, cmd);
      && o'.plan == (if Approves(o, cmd) then Approved else if Unapproves(o, cmd) then Draft else o.plan)
      && (Edits(o, cmd) ==> |o'.steps| == |cmd.draft| && o'.nextStepId == o.nextStepId + |cmd.draft|)
      && (Edits(o, cmd) ==> forall i :: 0 <= i < |cmd.draft| ==> o'.steps[i] == cmd.draft[i].(id := o.nextStepId + i, confirmation := None))
      && (cmd.EditPlan? && !Edits(o, cmd) ==> o'.steps == o.steps)
  {
    Writes(o, cmd);
    PlanAllowed(o, cmd);
    hide Apply, Check, Draftable, Find;
  }

  // ---- the status ----

  /** A window of real dates that ends after it starts, starts no more than five minutes ago and lasts at most 72 hours. */
  predicate Bookable(start: Option<int>, end: Option<int>, now: int) {
    start.Some? && end.Some? && start.value < end.value && start.value >= now - 5 && end.value - start.value <= 4320
  }

  ghost predicate Notifies(o: Outage, cmd: Cmd) {
    && cmd.Notify? && (FromControlRoom(cmd.actor) || (System in cmd.actor.roles && !cmd.skip))
    && o.status == Scheduled && o.plan == Approved && !cmd.reason.TooLong? && (cmd.skip ==> cmd.reason.Given?)
  }

  ghost predicate Reschedules(o: Outage, cmd: Cmd) {
    && cmd.Reschedule? && FromControlRoom(cmd.actor) && Bookable(cmd.start, cmd.end, cmd.now) && !cmd.work.TooLong?
    && (o.status == Scheduled || o.status == Notified) && NothingDone(o)
  }

  ghost predicate Cancels(o: Outage, cmd: Cmd) {
    cmd.Cancel? && FromControlRoom(cmd.actor) && (o.status == Scheduled || o.status == Notified) && NothingDone(o) && cmd.reason.Given?
  }

  ghost predicate Closes(o: Outage, cmd: Cmd) {
    && cmd.Close? && FromControlRoom(cmd.actor) && o.status == Resolved && !cmd.reason.TooLong?
    && (cmd.jobsOpen ==> cmd.force && cmd.reason.Given? && cmd.reasonLongEnough)
  }

  lemma ConfirmAllowed(o: Outage, cmd: Cmd)
    requires cmd.Confirm?
    ensures Check(o, cmd).Allowed? <==> exists i :: 0 <= i < |o.steps| && ConfirmsStep(o, cmd, i)
  {
    hide ConfirmsStep, CheckConfirmStep;
    forall i | 0 <= i < |o.steps| ensures Find(o.steps, cmd.step) == Some(i) && Check(o, cmd).Allowed? <==> ConfirmsStep(o, cmd, i) {
      ConfirmExactly(o, cmd, i);
    }
    hide Find;
  }

  lemma PermitAllowed(o: Outage, cmd: Cmd)
    ensures cmd.RequestPermit? ==> (Check(o, cmd).Allowed? <==> Opens(o, cmd))
    ensures cmd.Issue? ==> (Check(o, cmd).Allowed? <==> cmd.permit < |o.permits| && Issues(o, cmd, cmd.permit))
    ensures cmd.RefusePermit? ==> (Check(o, cmd).Allowed? <==> cmd.permit < |o.permits| && Refuses(o, cmd, cmd.permit))
    ensures cmd.WithdrawPermit? ==> (Check(o, cmd).Allowed? <==> cmd.permit < |o.permits| && Withdraws(o, cmd, cmd.permit))
    ensures cmd.ReturnPermit? ==> (Check(o, cmd).Allowed? <==> cmd.permit < |o.permits| && Returns(o, cmd, cmd.permit))
  {
  }

  lemma StatusAllowed(o: Outage, cmd: Cmd)
    ensures cmd.Notify? ==> (Check(o, cmd).Allowed? <==> Notifies(o, cmd))
    ensures cmd.Reschedule? ==> (Check(o, cmd).Allowed? <==> Reschedules(o, cmd))
    ensures cmd.Cancel? ==> (Check(o, cmd).Allowed? <==> Cancels(o, cmd))
    ensures cmd.Close? ==> (Check(o, cmd).Allowed? <==> Closes(o, cmd))
  {
  }

  /** Which requests are allowed. */
  lemma AllowedExactly(o: Outage, cmd: Cmd)
    ensures Check(o, cmd).Allowed? <==>
      match cmd
      case EditPlan(_, _) => Edits(o, cmd)
      case ApprovePlan(_) => Approves(o, cmd)
      case UnapprovePlan(_) => Unapproves(o, cmd)
      case Notify(_, _, _) => Notifies(o, cmd)
      case Reschedule(_, _, _, _, _) => Reschedules(o, cmd)
      case Cancel(_, _) => Cancels(o, cmd)
      case Close(_, _, _, _, _) => Closes(o, cmd)
      case Confirm(_, _, _, _, _) => exists i :: 0 <= i < |o.steps| && ConfirmsStep(o, cmd, i)
      case RequestPermit(_, _, _, _, _) => Opens(o, cmd)
      case Issue(_, p, _, _) => p < |o.permits| && Issues(o, cmd, p)
      case RefusePermit(_, p, _) => p < |o.permits| && Refuses(o, cmd, p)
      case WithdrawPermit(_, p) => p < |o.permits| && Withdraws(o, cmd, p)
      case ReturnPermit(_, p, _, _, _, _) => p < |o.permits| && Returns(o, cmd, p)
  {
    hide *;
    PlanAllowed(o, cmd);
    StatusAllowed(o, cmd);
    PermitAllowed(o, cmd);
    if cmd.Confirm? { ConfirmAllowed(o, cmd); }
  }

  lemma {:induction false} MovesOn(o: Outage, n: nat)
    ensures var st := Settle(o, n).status; st == o.status || st == Isolating || st == InProgress || st == Restoring || st == Resolved
    ensures NextAutomatic(o).None? ==> Settle(o, n) == o
    decreases n
  {
    if n > 0 && NextAutomatic(o).Some? { MovesOn(Move(o, NextAutomatic(o).value), n - 1); }
  }

  lemma Settles(o: Outage)
    ensures var st := Settle(o, MAX_MOVES).status; st == o.status || st == Isolating || st == InProgress || st == Restoring || st == Resolved
    ensures NextAutomatic(o).None? || o.status == Scheduled || o.status == Cancelled || o.status == Closed ==> Settle(o, MAX_MOVES) == o
  {
    MovesOn(o, MAX_MOVES);
    assert o.status == Scheduled || o.status == Cancelled || o.status == Closed ==> NextAutomatic(o).None?;
    hide Settle, NextAutomatic;
  }

  lemma Kinds(o: Outage, cmd: Cmd)
    ensures Notifies(o, cmd) ==> cmd.Notify? && o.status == Scheduled
    ensures Reschedules(o, cmd) ==> cmd.Reschedule? && (o.status == Scheduled || o.status == Notified)
    ensures Cancels(o, cmd) ==> cmd.Cancel? && (o.status == Scheduled || o.status == Notified)
    ensures Closes(o, cmd) ==> cmd.Close? && o.status == Resolved
  {
  }

  lemma ConcludeStatus(o: Outage, cmd: Cmd)
    ensures Apply(o, cmd).status == (if Check(o, cmd).Rejected? then o.status else Settle(Changed(o, cmd), MAX_MOVES).status)
    ensures Check(o, cmd).Rejected? ==> Changed(o, cmd) == o
  {
    hide Check, Effect, Settle;
  }

  lemma NotifiedStays(o: Outage, cmd: Cmd)
    requires Inv(o) && Notifies(o, cmd)
    ensures NextAutomatic(Changed(o, cmd)).None?
  {
    ChangedStatus(o, cmd);
    hide Check, Changed;
  }

  /** What the request itself makes of the status. */
  lemma ChangedStatus(o: Outage, cmd: Cmd)
    ensures var st := Changed(o, cmd).status;
      st == if Notifies(o, cmd) then Notified else if Reschedules(o, cmd) && o.status == Notified then Scheduled
            else if Cancels(o, cmd) then Cancelled else if Closes(o, cmd) then Closed else o.status
    ensures Notifies(o, cmd) ==> Changed(o, cmd).steps == o.steps
  {
    StatusAllowed(o, cmd);
    Kinds(o, cmd);
    hide Check, Notifies, Reschedules, Cancels, Closes, Saved, Find, SetPermit, ConfirmAt;
    if cmd.Notify? || cmd.Reschedule? || cmd.Cancel? || cmd.Close? {} else { NotThese(o, cmd); }
  }

  lemma NotThese(o: Outage, cmd: Cmd)
    requires !cmd.Notify? && !cmd.Reschedule? && !cmd.Cancel? && !cmd.Close?
    ensures !Notifies(o, cmd) && !Reschedules(o, cmd) && !Cancels(o, cmd) && !Closes(o, cmd) && Changed(o, cmd).status == o.status
  {
    hide Check;
  }

  /** When the outage changes status by a request itself: notified, back to scheduled, cancelled and closed. The other moves are
    * the automatic ones. */
  lemma StatusExactly(o: Outage, cmd: Cmd)
    requires Inv(o)
    ensures var st := Apply(o, cmd).status;
      && (st == Notified && o.status != Notified <==> Notifies(o, cmd))
      && (st == Scheduled && o.status != Scheduled <==> Reschedules(o, cmd) && o.status == Notified)
      && (st == Cancelled && o.status != Cancelled <==> Cancels(o, cmd))
      && (st == Closed && o.status != Closed <==> Closes(o, cmd))
  {
    hide *;
    ChangedStatus(o, cmd);
    Kinds(o, cmd);
    ConcludeStatus(o, cmd);
    Settles(Changed(o, cmd));
    if Notifies(o, cmd) { NotifiedStays(o, cmd); }
  }

  /** The planned lifecycle, move by move. */
  lemma PlannedMovesExactly(a: Status, b: Status)
    ensures CanTransition(a, b) <==> (a, b) in {
      (Scheduled, Notified), (Scheduled, Cancelled), (Notified, Isolating), (Notified, Scheduled), (Notified, Cancelled),
      (Isolating, InProgress), (Isolating, Restoring), (InProgress, Restoring), (Restoring, Resolved), (Resolved, Closed)}
  {
  }

  // ---- the automatic moves ----

  /** The next automatic move, from the steps and permits alone. */
  lemma MoveExactly(o: Outage)
    ensures NextAutomatic(o) ==
      var isolating := exists i :: 0 <= i < |o.steps| && o.steps[i].phase == Isolate && o.steps[i].confirmation.Some?;
      var isolated := forall i :: 0 <= i < |o.steps| && o.steps[i].phase == Isolate ==> o.steps[i].confirmation.Some?;
      var restoring := exists i :: 0 <= i < |o.steps| && o.steps[i].phase == Restore && o.steps[i].confirmation.Some?;
      var restored := (exists i :: 0 <= i < |o.steps| && o.steps[i].phase == Restore)
        && forall i :: 0 <= i < |o.steps| && o.steps[i].phase == Restore ==> o.steps[i].confirmation.Some?;
      var requested := exists i :: 0 <= i < |o.permits| && o.permits[i].state == Requested;
      var issued := exists i :: 0 <= i < |o.permits| && o.permits[i].state == Issued;
      var returned := exists i :: 0 <= i < |o.permits| && o.permits[i].state == Returned;
      if o.status == Notified && isolating then Some(Isolating)
      else if o.status == Isolating && restoring then Some(Restoring)
      else if o.status == Isolating && isolated && issued then Some(InProgress)
      else if o.status == InProgress && !requested && !issued && (returned || restoring) then Some(Restoring)
      else if o.status == Restoring && restored then Some(Resolved)
      else None
  {
    assert AnyOpen(o.permits) <==> AnyState(o.permits, Requested) || AnyState(o.permits, Issued) by {
      if i :| 0 <= i < |o.permits| && (o.permits[i].state == Requested || o.permits[i].state == Issued) { assert OpenPermit(o.permits[i]); }
    }
  }

  // ---- a refusal says what is the case ----

  ghost predicate SomeStep(steps: seq<Step>, phase: Phase, done: bool) {
    exists i :: 0 <= i < |steps| && steps[i].phase == phase && steps[i].confirmation.Some? == done
  }

  ghost predicate SomePermit(permits: seq<Permit>, state: PermitState) { exists i :: 0 <= i < |permits| && permits[i].state == state }

  /** What a confirmation is told is true of the plan it met. */
  lemma ConfirmRefusedTruly(o: Outage, cmd: Cmd)
    requires cmd.Confirm? && Check(o, cmd).Rejected? && Check(o, cmd).code != NotFound
    ensures Find(o.steps, cmd.step).Some?
    ensures var s := o.steps[Find(o.steps, cmd.step).value];
      match Check(o, cmd).code
      case ClientIdRequired => cmd.clientId.Blank?
      case BadInput => cmd.clientId.TooLong? || cmd.note.TooLong?
      case AlreadyConfirmed => s.confirmation.Some? && cmd.clientId.Given? && s.confirmation != Some(cmd.clientId.value)
      case PlanNotApproved => o.plan == Draft
      case OutageNotActive => s.confirmation.None? && (if s.phase == Isolate then o.status != Notified && o.status != Isolating
                              else o.status != Isolating && o.status != InProgress && o.status != Restoring)
      case WrongAssignee => !MayConfirm(s, cmd.actor, cmd.note)
      case PredecessorUnconfirmed => exists i :: 0 <= i < |o.steps| && o.steps[i].phase == s.phase && o.steps[i].seq_ < s.seq_ && o.steps[i].confirmation.None?
      case IsolationIncomplete => s.phase == Restore && SomeStep(o.steps, Isolate, false)
      case PermitOutstanding => s.phase == Restore && (SomePermit(o.permits, Requested) || SomePermit(o.permits, Issued))
      case ClientIdReused => cmd.clientId.Given? && !StepIdFree(o.steps, cmd.clientId.value, cmd.elsewhere)
      case _ => false
  {
    hide CheckDraftSteps;
  }

  /** A permit of this job is requested or issued. */
  ghost predicate OpenFor(permits: seq<Permit>, jobId: nat) {
    exists i :: 0 <= i < |permits| && permits[i].jobId == jobId && (permits[i].state == Requested || permits[i].state == Issued)
  }

  /** What a request for, or about, a permit is told is true of it. */
  lemma PermitRefusedTruly(o: Outage, cmd: Cmd)
    requires Check(o, cmd).Rejected? && Check(o, cmd).code != NotFound
    requires cmd.RequestPermit? || cmd.Issue? || cmd.RefusePermit? || cmd.WithdrawPermit? || cmd.ReturnPermit?
    ensures !cmd.RequestPermit? ==> cmd.permit < |o.permits|
    ensures
      match Check(o, cmd).code
      case ClientIdRequired => if cmd.RequestPermit? then cmd.requestId.Blank? else cmd.ReturnPermit? && cmd.clientId.Blank?
      case NotYourJob => cmd.RequestPermit? && !FromCrew(cmd.actor, cmd.jobCrew)
      case PermitAlreadyOpen => cmd.RequestPermit? && OpenFor(o.permits, cmd.jobId)
      case OutageNotIsolating => cmd.RequestPermit? && o.status != Isolating && o.status != InProgress
      case OutageRestoring => SomeStep(o.steps, Restore, true)
      case IsolationIncomplete => SomeStep(o.steps, Isolate, false)
      case Forbidden => (cmd.Issue? || cmd.RefusePermit?) && !FromControlRoom(cmd.actor)
      case PermitNotRequested => !cmd.RequestPermit? && o.permits[cmd.permit].state != Requested
      case DetailsRequired => cmd.Issue? && (cmd.isolation.Blank? || cmd.earthing.Blank?)
      case ReasonRequired => cmd.RefusePermit? && cmd.reason.Blank?
      case NotYourPermit => !cmd.RequestPermit? && !FromCrew(cmd.actor, o.permits[cmd.permit].crewId)
      case PermitNotIssued => cmd.ReturnPermit? && o.permits[cmd.permit].state != Issued
      case DeclarationIncomplete => cmd.ReturnPermit? && !(cmd.declaration.menWithdrawn && cmd.declaration.earthsRemoved && cmd.declaration.toolsClear)
      case ClientIdReused => if cmd.RequestPermit? then cmd.requestId.Given? else cmd.ReturnPermit? && cmd.clientId.Given?
      case BadInput => true
      case _ => false
  {
    hide CheckDraftSteps;
  }

  /** What a request about the plan is told is true of it. */
  lemma PlanRefusedTruly(o: Outage, cmd: Cmd)
    requires Check(o, cmd).Rejected? && (cmd.EditPlan? || cmd.ApprovePlan? || cmd.UnapprovePlan?)
    ensures
      match Check(o, cmd).code
      case Forbidden => !FromControlRoom(cmd.actor)
      case PlanNotDraft => !cmd.UnapprovePlan? && o.plan == Approved
      case PlanNotApproved => cmd.UnapprovePlan? && o.plan == Draft
      case PlanIncomplete => (forall i :: 0 <= i < |o.steps| ==> o.steps[i].phase == Restore) || (forall i :: 0 <= i < |o.steps| ==> o.steps[i].phase == Isolate)
      case BadSteps => !Draftable(if cmd.EditPlan? then cmd.draft else o.steps)
      case SwitchingStarted => !NothingDone(o)
      case _ => false
  {
    DraftExactly(o.steps);
    if cmd.EditPlan? { DraftExactly(cmd.draft); }
    hide CheckDraftSteps, Draftable;
  }

  /** What any other request is told is true of the outage. */
  lemma RefusedTruly(o: Outage, cmd: Cmd)
    requires Check(o, cmd).Rejected? && (cmd.Notify? || cmd.Reschedule? || cmd.Cancel? || cmd.Close?)
    ensures
      match Check(o, cmd).code
      case Forbidden => !FromControlRoom(cmd.actor)
      case PlanNotApproved => cmd.Notify? && o.plan == Draft
      case SwitchingStarted => !NothingDone(o) || (o.status != Scheduled && o.status != Notified)
      case NotScheduled => cmd.Notify? && o.status != Scheduled
      case NotResolved => cmd.Close? && o.status != Resolved
      case JobsOpen => cmd.Close? && cmd.jobsOpen && !cmd.force
      case ReasonRequired => !cmd.Reschedule? && (cmd.reason.Blank? || (cmd.Close? && cmd.jobsOpen && !cmd.reasonLongEnough))
      case BadInput => if cmd.Reschedule? then cmd.work.TooLong? || !Bookable(cmd.start, cmd.end, cmd.now) else cmd.reason.TooLong?
      case _ => false
  {
    hide CheckConfirm, CheckRequest, CheckReturn, CheckDraftSteps;
  }

  // ---- replays ----

  /** A request is answered as already done exactly if it is: the step confirmed, the permit asked for or returned under the same
    * client id, or the permit withdrawn. */
  lemma ReplayExactly(o: Outage, cmd: Cmd)
    ensures Check(o, cmd).Replay? <==>
      || (cmd.Confirm? && cmd.clientId.Given? && !cmd.note.TooLong?
          && var at := Find(o.steps, cmd.step); at.Some? && o.steps[at.value].confirmation == Some(cmd.clientId.value))
      || (cmd.RequestPermit? && cmd.requestId.Given? && FromCrew(cmd.actor, cmd.jobCrew)
          && exists i :: 0 <= i < |o.permits| && o.permits[i].jobId == cmd.jobId && o.permits[i].requestId == cmd.requestId.value)
      || (cmd.WithdrawPermit? && cmd.permit < |o.permits| && o.permits[cmd.permit].state == Withdrawn)
      || (cmd.ReturnPermit? && cmd.permit < |o.permits| && o.permits[cmd.permit].state == Returned && cmd.clientId.Given?
          && !cmd.note.TooLong? && !cmd.declaration.remarks.TooLong? && o.permits[cmd.permit].returnId == Some(cmd.clientId.value))
  {
    hide Numbered, StepShapeOk, WindowOk;
  }

  // ---- the job ----

  /** The status of a crew's job on a planned outage: work starts only under an issued permit; it is complete once the permit is
    * returned, or, without one requested or issued, once supply is coming back or the outage is over. */
  lemma JobStatusExactly(status: JobStatus, permit: Option<Permit>, outage: Status)
    ensures CheckJobStatus(status, permit, outage).Allowed? <==>
      match status
      case WorkStarted => permit.Some? && permit.value.state == Issued
      case WorkComplete =>
        || (permit.Some? && permit.value.state == Returned)
        || ((permit.None? || permit.value.state == Refused || permit.value.state == Withdrawn)
            && outage != Scheduled && outage != Notified && outage != Isolating && outage != InProgress)
      case OtherStatus => true
  {
  }
}
