/** What the planned-outage machine guarantees over every run. */
module PlannedOutageTheorems {
  import opened Common
  import opened SwitchingRules
  import opened SwitchingMachine

  /** In no reachable state is a restore step confirmed while any permit is requested or issued, and the confirmed
    * steps are always a prefix of the plan: isolation in order, then restoration in order. */
  lemma NeverRestoredUnderAPermit(cmds: seq<Cmd>)
    ensures var o := Run(Init(), cmds);
      && !(AnyDone(o.steps, Restore) && AnyOpen(o.permits))
      && (forall i, j :: 0 <= i < |o.steps| && 0 <= j < |o.steps| && Before(o.steps[i], o.steps[j]) && Done(o.steps[j]) ==> Done(o.steps[i]))
  {
    RunInv(cmds);
  }

  /** Work starts only on a line that is fully isolated and of which nothing has been switched back. */
  lemma WorkOnlyOnADeadLine(cmds: seq<Cmd>, i: nat)
    requires i < |Run(Init(), cmds).permits|
    ensures var o := Run(Init(), cmds); var p := o.permits[i];
      CheckJobStatus(WorkStarted, Some(p), o.status).Allowed? <==> p.state == Issued
    ensures var o := Run(Init(), cmds);
      o.permits[i].state == Issued ==> o.status == InProgress && AllDone(o.steps, Isolate) && !AnyDone(o.steps, Restore)
  {
    RunInv(cmds);
    var o := Run(Init(), cmds);
    if o.permits[i].state == Issued {
      assert AnyState(o.permits, Issued);
      PermitsMeanNoRestore(o);
    }
  }

  lemma RestoringRefused(o: Outage, cmd: Cmd)
    requires Check(o, cmd) == Rejected(OutageRestoring)
    ensures AnyDone(o.steps, Restore)
    ensures o.status == Isolating || o.status == InProgress || AnyState(o.permits, Requested)
  {
    hide Numbered, StepShapeOk, AllDone, OwnIsolationDone, OwnOpen, RequestedBefore, PredecessorsDone, NoneDone, WindowOk;
    assert cmd.RequestPermit? || cmd.Issue?;
    if cmd.Issue? { assert o.permits[cmd.permit].state == Requested; }
  }

  /** The "restoration has started" refusals never happen: the automatic moves leave isolating and in_progress before
    * a permit could still be asked for or issued. */
  lemma RestoringRefusalNeverHappens(cmds: seq<Cmd>, cmd: Cmd)
    ensures Check(Run(Init(), cmds), cmd) != Rejected(OutageRestoring)
  {
    RunInv(cmds);
    var o := Run(Init(), cmds);
    hide Run, Check, Prefix, Safe, PlanFits, Ids;
    PermitsMeanNoRestore(o);
    if Check(o, cmd) == Rejected(OutageRestoring) { RestoringRefused(o, cmd); }
  }

  lemma RefusedInProgress(o: Outage, cmd: Cmd)
    requires StatusFits(o) && o.status == InProgress && cmd.Confirm?
    ensures !Check(o, cmd).Allowed?
  {
    assert AnyOpen(o.permits);
    hide AnyOpen, AllDone, AnyDone, AnyState, PredecessorsDone, StepIdTaken, StatusFits;
  }

  /** While work is in progress some permit is open, so no restore step can be confirmed there at all. */
  lemma NothingRestoredInProgress(cmds: seq<Cmd>, cmd: Cmd)
    requires cmd.Confirm? && Run(Init(), cmds).status == InProgress
    ensures !Check(Run(Init(), cmds), cmd).Allowed?
  {
    RunInv(cmds);
    hide Run;
    RefusedInProgress(Run(Init(), cmds), cmd);
  }

  // ---- the safety log ----

  /** The moves in the log lead from scheduled to st, each one legal. */
  ghost predicate LegalLog(log: seq<Entry>, st: Status) {
    if log == [] then st == Scheduled
    else match log[|log| - 1]
      case Moved(before, after) => after == st && CanTransition(before, after) && LegalLog(log[..|log| - 1], before)
      case _ => LegalLog(log[..|log| - 1], st)
  }

  lemma LogNote(log: seq<Entry>, st: Status, e: Entry)
    requires LegalLog(log, st) && !e.Moved?
    ensures LegalLog(log + [e], st)
  {
    assert (log + [e])[..|log|] == log;
  }

  lemma LogMove(o: Outage, to: Status)
    requires LegalLog(o.log, o.status) && CanTransition(o.status, to)
    ensures LegalLog(Move(o, to).log, to)
  {
    assert Move(o, to).log[..|o.log|] == o.log;
  }

  lemma {:induction false} SettleLog(o: Outage, n: nat)
    requires LegalLog(o.log, o.status)
    ensures LegalLog(Settle(o, n).log, Settle(o, n).status)
    decreases n
  {
    if n > 0 && NextAutomatic(o).Some? {
      LogMove(o, NextAutomatic(o).value);
      SettleLog(Move(o, NextAutomatic(o).value), n - 1);
    }
  }

  lemma EffectLog(o: Outage, cmd: Cmd)
    requires LegalLog(o.log, o.status) && Check(o, cmd).Allowed?
    ensures LegalLog(Effect(o, cmd).log, Effect(o, cmd).status)
  {
    var noted := o.(log := o.log + [Other]);
    LogNote(o.log, o.status, Other);
    match cmd
    case Notify(_, _, _) => LogMove(noted, Notified);
    case Reschedule(_, _, _, _, _) => if o.status == Notified { LogMove(noted, Scheduled); }
    case Cancel(_, _) => LogMove(o, Cancelled);
    case Close(_, open, _, _, _) => LogMove(if open then noted else o, Closed);
    case Confirm(_, id, clientId, _, _) => LogNote(o.log, o.status, Confirmed(o.steps[Find(o.steps, id).value].id, clientId.value));
    case _ =>
  }

  lemma ConcludeLog(v: Verdict, o: Outage, changed: Outage)
    requires LegalLog(o.log, o.status) && LegalLog(changed.log, changed.status)
    ensures LegalLog(Conclude(v, o, changed).log, Conclude(v, o, changed).status)
  {
    match v
    case Allowed => SettleLog(changed, MAX_MOVES);
    case Replay => SettleLog(o, MAX_MOVES);
    case Rejected(code) => LogNote(o.log, o.status, Refusal(code));
  }

  /** Every status change of a planned outage, by request or automatic, follows the planned lifecycle table, and the
    * safety log holds the whole chain. */
  lemma {:induction false} StatusHistoryIsLegal(cmds: seq<Cmd>)
    ensures LegalLog(Run(Init(), cmds).log, Run(Init(), cmds).status)
  {
    if cmds != [] {
      var o, cmd := Run(Init(), cmds[..|cmds| - 1]), cmds[|cmds| - 1];
      StatusHistoryIsLegal(cmds[..|cmds| - 1]);
      if Check(o, cmd).Allowed? { EffectLog(o, cmd); }
      assert LegalLog(Changed(o, cmd).log, Changed(o, cmd).status);
      hide Check, Changed, Conclude, LegalLog;
      ConcludeLog(Check(o, cmd), o, Changed(o, cmd));
    }
  }

  /** How often the log records a confirmation of step id. */
  function Recorded(log: seq<Entry>, id: nat): nat {
    if log == [] then 0
    else Recorded(log[..|log| - 1], id) + (if log[|log| - 1].Confirmed? && log[|log| - 1].step == id then 1 else 0)
  }

  lemma RecordedAppend(log: seq<Entry>, e: Entry, id: nat)
    ensures Recorded(log + [e], id) == Recorded(log, id) + (if e.Confirmed? && e.step == id then 1 else 0)
  {
    assert (log + [e])[..|log|] == log;
  }

  /** The log records each confirmed step once and no other step of the plan. */
  ghost predicate LogFits(o: Outage) {
    && (forall i :: 0 <= i < |o.steps| ==> Recorded(o.log, o.steps[i].id) == if Done(o.steps[i]) then 1 else 0)
    && (forall id :: o.nextStepId <= id ==> Recorded(o.log, id) == 0)
  }

  lemma NoteFits(o: Outage, e: Entry)
    requires LogFits(o) && !e.Confirmed?
    ensures LogFits(o.(log := o.log + [e]))
    ensures forall id :: Recorded(o.log + [e], id) == Recorded(o.log, id)
  {
    forall id ensures Recorded(o.log + [e], id) == Recorded(o.log, id) { RecordedAppend(o.log, e, id); }
  }

  lemma {:induction false} SettleFits(o: Outage, n: nat)
    requires LogFits(o)
    ensures LogFits(Settle(o, n))
    decreases n
  {
    if n > 0 && NextAutomatic(o).Some? {
      NoteFits(o, Moved(o.status, NextAutomatic(o).value));
      SettleFits(Move(o, NextAutomatic(o).value), n - 1);
    }
  }

  lemma ConfirmFits(o: Outage, i: nat, clientId: nat)
    requires LogFits(o) && Ids(o) && i < |o.steps| && !Done(o.steps[i])
    ensures LogFits(ConfirmAt(o, i, clientId))
  {
    var e, o' := Confirmed(o.steps[i].id, clientId), ConfirmAt(o, i, clientId);
    assert o'.log == o.log + [e];
    hide Recorded;
    forall k | 0 <= k < |o'.steps| ensures Recorded(o'.log, o'.steps[k].id) == if Done(o'.steps[k]) then 1 else 0 {
      RecordedAppend(o.log, e, o.steps[k].id);
    }
    forall id | o.nextStepId <= id ensures Recorded(o'.log, id) == 0 {
      RecordedAppend(o.log, e, id);
    }
  }

  lemma EffectFits(o: Outage, cmd: Cmd)
    requires Inv(o) && LogFits(o) && Check(o, cmd).Allowed?
    ensures LogFits(Effect(o, cmd))
  {
    var noted := o.(log := o.log + [Other]);
    NoteFits(o, Other);
    hide Prefix, Safe, StatusFits, PlanFits, CheckDraftSteps;
    match cmd
    case Notify(_, _, _) => NoteFits(noted, Moved(o.status, Notified));
    case Reschedule(_, _, _, _, _) => NoteFits(noted, Moved(o.status, Scheduled));
    case Cancel(_, _) => NoteFits(o, Moved(o.status, Cancelled));
    case Close(_, _, _, _, _) => NoteFits(o, Moved(o.status, Closed)); NoteFits(noted, Moved(o.status, Closed));
    case Confirm(_, id, clientId, _, _) => ConfirmFits(o, Find(o.steps, id).value, clientId.value);
    case _ =>
  }

  lemma ConcludeFits(v: Verdict, o: Outage, changed: Outage)
    requires LogFits(o) && LogFits(changed)
    ensures LogFits(Conclude(v, o, changed))
  {
    match v
    case Allowed => SettleFits(changed, MAX_MOVES);
    case Replay => SettleFits(o, MAX_MOVES);
    case Rejected(code) => NoteFits(o, Refusal(code));
  }

  /** The safety log records every confirmed step of the plan exactly once, whatever was resent or refused. */
  lemma {:induction false} EachStepRecordedOnce(cmds: seq<Cmd>)
    ensures LogFits(Run(Init(), cmds))
  {
    if cmds != [] {
      var o, cmd := Run(Init(), cmds[..|cmds| - 1]), cmds[|cmds| - 1];
      EachStepRecordedOnce(cmds[..|cmds| - 1]);
      RunInv(cmds[..|cmds| - 1]);
      if Check(o, cmd).Allowed? { EffectFits(o, cmd); }
      assert LogFits(Changed(o, cmd));
      hide Inv, Check, Changed, Conclude, LogFits;
      ConcludeFits(Check(o, cmd), o, Changed(o, cmd));
    }
  }

  /** What one request adds to the log: at most one confirmation, its own, and only when it was allowed. */
  ghost predicate Grows(o: Outage, cmd: Cmd, log: seq<Entry>) {
    && |o.log| <= |log| && log[..|o.log|] == o.log
    && (forall p :: |o.log| <= p < |log| && log[p].Confirmed? ==>
        p == |o.log| && cmd.Confirm? && Check(o, cmd).Allowed? && cmd.clientId.Given? && log[p] == Confirmed(cmd.step, cmd.clientId.value))
    && (cmd.Confirm? && Check(o, cmd).Allowed? && cmd.clientId.Given? ==> |o.log| < |log| && log[|o.log|] == Confirmed(cmd.step, cmd.clientId.value))
  }

  lemma {:induction false} SettleGrows(o: Outage, n: nat)
    ensures var log := Settle(o, n).log;
      |o.log| <= |log| && log[..|o.log|] == o.log && forall p :: |o.log| <= p < |log| ==> log[p].Moved?
    decreases n
  {
    if n > 0 && NextAutomatic(o).Some? {
      SettleGrows(Move(o, NextAutomatic(o).value), n - 1);
      assert Move(o, NextAutomatic(o).value).log[..|o.log|] == o.log;
    }
  }

  lemma EffectGrows(o: Outage, cmd: Cmd)
    requires Check(o, cmd).Allowed?
    ensures Grows(o, cmd, Effect(o, cmd).log)
  {
    hide CheckDraftSteps, AllDone, AnyDone, PredecessorsDone;
  }

  lemma ConcludeGrows(v: Verdict, o: Outage, changed: Outage)
    ensures var log, base := Conclude(v, o, changed).log, if v.Allowed? then changed.log else o.log;
      |base| <= |log| && log[..|base|] == base && forall p :: |base| <= p < |log| ==> !log[p].Confirmed?
  {
    SettleGrows(o, MAX_MOVES);
    SettleGrows(changed, MAX_MOVES);
  }

  lemma ApplyGrows(o: Outage, cmd: Cmd)
    ensures Grows(o, cmd, Apply(o, cmd).log)
  {
    if Check(o, cmd).Allowed? { EffectGrows(o, cmd); }
    var changed := Changed(o, cmd);
    assert Check(o, cmd).Allowed? ==> Grows(o, cmd, changed.log);
    hide Check, Changed, Conclude;
    ConcludeGrows(Check(o, cmd), o, changed);
    var log := Apply(o, cmd).log;
    if Check(o, cmd).Allowed? {
      assert log[..|o.log|] == changed.log[..|o.log|];
      assert forall p :: 0 <= p < |changed.log| ==> log[p] == changed.log[p];
    }
  }

  /** A step of the plan carries this confirmation. */
  ghost predicate Carries(steps: seq<Step>, id: nat, clientId: nat) {
    exists i :: 0 <= i < |steps| && steps[i].id == id && steps[i].confirmation == Some(clientId)
  }

  /** Whatever the log says was confirmed is still confirmed, with that client id. */
  ghost predicate LogHolds(o: Outage) {
    forall p :: 0 <= p < |o.log| && o.log[p].Confirmed? ==> Carries(o.steps, o.log[p].step, o.log[p].clientId)
  }

  lemma ApplyConfirms(o: Outage, cmd: Cmd)
    requires cmd.Confirm? && Check(o, cmd).Allowed? && cmd.clientId.Given?
    ensures Carries(Apply(o, cmd).steps, cmd.step, cmd.clientId.value)
  {
    var i := Find(o.steps, cmd.step).value;
    assert Changed(o, cmd).steps[i].confirmation == Some(cmd.clientId.value) && Changed(o, cmd).steps[i].id == cmd.step;
    hide Check, Changed, Conclude;
    ConcludeSettles(Check(o, cmd), o, Changed(o, cmd));
  }

  lemma LogHoldsStep(o: Outage, cmd: Cmd)
    requires Inv(o) && LogHolds(o)
    ensures LogHolds(Apply(o, cmd))
  {
    ApplyGrows(o, cmd);
    if cmd.Confirm? && Check(o, cmd).Allowed? && cmd.clientId.Given? { ApplyConfirms(o, cmd); }
    forall i | 0 <= i < |o.steps| && Done(o.steps[i]) ensures i < |Apply(o, cmd).steps| && Apply(o, cmd).steps[i] == o.steps[i] {
      ConfirmationStays(o, cmd, i);
    }
    var o' := Apply(o, cmd);
    hide Check, Apply, Inv;
    forall p | 0 <= p < |o'.log| && o'.log[p].Confirmed? ensures Carries(o'.steps, o'.log[p].step, o'.log[p].clientId) {
      if p < |o.log| {
        assert o'.log[p] == o.log[p];
        var i :| 0 <= i < |o.steps| && o.steps[i].id == o.log[p].step && o.steps[i].confirmation == Some(o.log[p].clientId);
        assert o'.steps[i] == o.steps[i];
      }
    }
  }

  /** The log records this confirmation. */
  ghost predicate Logs(log: seq<Entry>, id: nat, clientId: nat) {
    exists p :: 0 <= p < |log| && log[p] == Confirmed(id, clientId)
  }

  /** Every confirmed step is in the log, with its client id. */
  ghost predicate StepsLogged(o: Outage) {
    forall i :: 0 <= i < |o.steps| && Done(o.steps[i]) ==> Logs(o.log, o.steps[i].id, o.steps[i].confirmation.value)
  }

  lemma EffectSteps(o: Outage, cmd: Cmd, i: nat)
    requires Check(o, cmd).Allowed? && i < |Effect(o, cmd).steps| && Done(Effect(o, cmd).steps[i])
    ensures (i < |o.steps| && Effect(o, cmd).steps[i] == o.steps[i])
      || (cmd.Confirm? && cmd.clientId.Given? && Effect(o, cmd).steps[i].id == cmd.step
          && Effect(o, cmd).steps[i].confirmation == Some(cmd.clientId.value))
  {
    hide CheckDraftSteps, AllDone, AnyDone, PredecessorsDone, StepIdTaken;
  }

  lemma StepsLoggedStep(o: Outage, cmd: Cmd)
    requires StepsLogged(o)
    ensures StepsLogged(Apply(o, cmd))
  {
    ApplyGrows(o, cmd);
    var changed, o' := Changed(o, cmd), Apply(o, cmd);
    if Check(o, cmd).Allowed? {
      forall i | 0 <= i < |changed.steps| && Done(changed.steps[i])
        ensures (i < |o.steps| && changed.steps[i] == o.steps[i])
          || (cmd.Confirm? && cmd.clientId.Given? && changed.steps[i].id == cmd.step && changed.steps[i].confirmation == Some(cmd.clientId.value))
      {
        EffectSteps(o, cmd, i);
      }
    }
    assert !Check(o, cmd).Allowed? ==> changed == o;
    hide Check, Changed, Conclude;
    ConcludeSettles(Check(o, cmd), o, changed);
    forall i | 0 <= i < |o'.steps| && Done(o'.steps[i]) ensures Logs(o'.log, o'.steps[i].id, o'.steps[i].confirmation.value) {
      if i < |o.steps| && o'.steps[i] == o.steps[i] {
        var p :| 0 <= p < |o.log| && o.log[p] == Confirmed(o.steps[i].id, o.steps[i].confirmation.value);
        assert o'.log[p] == o.log[p];
      } else {
        assert o'.log[|o.log|] == Confirmed(cmd.step, cmd.clientId.value);
      }
    }
  }

  // ---- replays ----

  lemma {:induction false} FindAt(steps: seq<Step>, i: nat)
    requires i < |steps| && forall k :: 0 <= k < i ==> steps[k].id != steps[i].id
    ensures Find(steps, steps[i].id) == Some(i)
  {
    if i > 0 {
      assert steps[1..][i - 1] == steps[i];
      FindAt(steps[1..], i - 1);
    }
  }

  lemma EffectKeepsDone(o: Outage, cmd: Cmd, i: nat)
    requires o.plan == Approved && i < |o.steps| && Done(o.steps[i]) && Check(o, cmd).Allowed?
    ensures i < |Effect(o, cmd).steps| && Effect(o, cmd).steps[i] == o.steps[i]
  {
    hide CheckDraftSteps;
  }

  /** Under an approved plan no request touches a confirmed step. */
  lemma DoneStays(o: Outage, cmd: Cmd, i: nat)
    requires o.plan == Approved && i < |o.steps| && Done(o.steps[i])
    ensures i < |Apply(o, cmd).steps| && Apply(o, cmd).steps[i] == o.steps[i]
  {
    if Check(o, cmd).Allowed? { EffectKeepsDone(o, cmd, i); }
    assert i < |Changed(o, cmd).steps| && Changed(o, cmd).steps[i] == o.steps[i];
    hide Check, Changed, Conclude;
    ConcludeSettles(Check(o, cmd), o, Changed(o, cmd));
  }

  /** A confirmed step is never edited, replaced or confirmed again. */
  lemma ConfirmationStays(o: Outage, cmd: Cmd, i: nat)
    requires Inv(o) && i < |o.steps| && Done(o.steps[i])
    ensures i < |Apply(o, cmd).steps| && Apply(o, cmd).steps[i] == o.steps[i]
  {
    assert o.plan == Approved by { hide Prefix, Safe, StatusFits, Ids, CheckDraftSteps; }
    hide Apply, Inv;
    DoneStays(o, cmd, i);
  }

  lemma {:induction false} ConfirmationStaysForever(cmds: seq<Cmd>, more: seq<Cmd>, i: nat)
    requires i < |Run(Init(), cmds).steps| && Done(Run(Init(), cmds).steps[i])
    ensures i < |Run(Init(), cmds + more).steps| && Run(Init(), cmds + more).steps[i] == Run(Init(), cmds).steps[i]
  {
    if more == [] {
      assert cmds + more == cmds;
    } else {
      var before := cmds + more[..|more| - 1];
      ConfirmationStaysForever(cmds, more[..|more| - 1], i);
      assert (cmds + more)[..|cmds + more| - 1] == before;
      RunInv(before);
      hide Inv, Apply;
      ConfirmationStays(Run(Init(), before), more[|more| - 1], i);
    }
  }

  /** Resending a recorded confirmation, at any later time and from anyone, is answered as a replay and changes nothing. */
  lemma ResendIsReplay(cmds: seq<Cmd>, more: seq<Cmd>, i: nat, cmd: Cmd)
    requires i < |Run(Init(), cmds).steps| && Done(Run(Init(), cmds).steps[i])
    requires var st := Run(Init(), cmds).steps[i];
      cmd.Confirm? && cmd.step == st.id && cmd.clientId == Given(st.confirmation.value) && !cmd.note.TooLong?
    ensures Check(Run(Init(), cmds + more), cmd) == Replay
    ensures Apply(Run(Init(), cmds + more), cmd) == Run(Init(), cmds + more)
  {
    ConfirmationStaysForever(cmds, more, i);
    RunInv(cmds + more);
    var o := Run(Init(), cmds + more);
    SettledRun(cmds + more);
    FindAt(o.steps, i);
    hide Run, Inv;
  }

  lemma SettledApply(o: Outage, cmd: Cmd)
    requires NextAutomatic(o).None?
    ensures NextAutomatic(Apply(o, cmd)).None?
  {
    hide Check, Changed, Conclude;
    ConcludeSettles(Check(o, cmd), o, Changed(o, cmd));
  }

  /** Between requests nothing more is implied: every run is at the end of its automatic chain. */
  lemma {:induction false} SettledRun(cmds: seq<Cmd>)
    ensures NextAutomatic(Run(Init(), cmds)).None?
  {
    if cmds != [] {
      SettledRun(cmds[..|cmds| - 1]);
      SettledApply(Run(Init(), cmds[..|cmds| - 1]), cmds[|cmds| - 1]);
      hide Apply;
    }
  }

  // ---- the control room alone can always bring supply back ----

  function OpenCount(permits: seq<Permit>): nat {
    if permits == [] then 0 else OpenCount(permits[..|permits| - 1]) + (if OpenPermit(permits[|permits| - 1]) then 1 else 0)
  }

  function PendingCount(steps: seq<Step>): nat {
    if steps == [] then 0 else PendingCount(steps[..|steps| - 1]) + (if Done(steps[|steps| - 1]) then 0 else 1)
  }

  lemma {:induction false} OpenDrops(permits: seq<Permit>, i: nat, p: Permit)
    requires i < |permits| && OpenPermit(permits[i]) && !OpenPermit(p)
    ensures OpenCount(permits[i := p]) == OpenCount(permits) - 1
  {
    var n := |permits| - 1;
    if i == n {
      assert permits[i := p][..n] == permits[..n];
    } else {
      assert permits[i := p][..n] == permits[..n][i := p];
      OpenDrops(permits[..n], i, p);
    }
  }

  lemma {:induction false} PendingDrops(steps: seq<Step>, i: nat, st: Step)
    requires i < |steps| && !Done(steps[i]) && Done(st)
    ensures PendingCount(steps[i := st]) == PendingCount(steps) - 1
  {
    var n := |steps| - 1;
    if i == n {
      assert steps[i := st][..n] == steps[..n];
    } else {
      assert steps[i := st][..n] == steps[..n][i := st];
      PendingDrops(steps[..n], i, st);
    }
  }

  /** The first step of a phase still to do. */
  lemma {:induction false} FirstPending(steps: seq<Step>, phase: Phase, n: nat) returns (i: nat)
    requires n <= |steps| && exists k :: 0 <= k < n && steps[k].phase == phase && !Done(steps[k])
    ensures i < n && steps[i].phase == phase && !Done(steps[i])
    ensures forall k :: 0 <= k < n && steps[k].phase == phase && steps[k].seq_ < steps[i].seq_ ==> Done(steps[k])
    decreases n
  {
    if exists k :: 0 <= k < n - 1 && steps[k].phase == phase && !Done(steps[k]) {
      i := FirstPending(steps, phase, n - 1);
      if steps[n - 1].phase == phase && !Done(steps[n - 1]) && steps[n - 1].seq_ < steps[i].seq_ { i := n - 1; }
    } else {
      i := n - 1;
    }
  }

  lemma {:induction false} FreshStepId(steps: seq<Step>) returns (id: nat)
    ensures !StepIdTaken(steps, id, {})
    ensures forall i :: 0 <= i < |steps| && steps[i].confirmation.Some? ==> steps[i].confirmation.value < id
  {
    if steps == [] {
      id := 0;
    } else {
      id := FreshStepId(steps[1..]);
      if steps[0].confirmation.Some? && id <= steps[0].confirmation.value { id := steps[0].confirmation.value + 1; }
      assert forall i :: 1 <= i < |steps| ==> steps[i] == steps[1..][i - 1];
    }
  }

  lemma {:induction false} FreshReturnId(permits: seq<Permit>) returns (id: nat)
    ensures !ReturnIdTaken(permits, id, {})
    ensures forall i :: 0 <= i < |permits| && permits[i].returnId.Some? ==> permits[i].returnId.value < id
  {
    if permits == [] {
      id := 0;
    } else {
      id := FreshReturnId(permits[1..]);
      if permits[0].returnId.Some? && id <= permits[0].returnId.value { id := permits[0].returnId.value + 1; }
      assert forall i :: 1 <= i < |permits| ==> permits[i] == permits[1..][i - 1];
    }
  }

  function Left(o: Outage): nat { OpenCount(o.permits) + PendingCount(o.steps) }

  ghost predicate SupplyOff(o: Outage) { o.status == Isolating || o.status == InProgress || o.status == Restoring }

  lemma ClearPermit(o: Outage, op: Actor) returns (cmd: Cmd)
    requires Inv(o) && IsOperator(op) && AnyOpen(o.permits)
    ensures cmd.actor == op && Check(o, cmd).Allowed? && Left(Effect(o, cmd)) < Left(o) && !cmd.Close?
  {
    var i :| 0 <= i < |o.permits| && OpenPermit(o.permits[i]);
    if o.permits[i].state == Requested {
      cmd := RefusePermit(op, i, Given(0));
      OpenDrops(o.permits, i, o.permits[i].(state := Refused));
    } else {
      var id := FreshReturnId(o.permits);
      cmd := ReturnPermit(op, i, Declaration(true, true, true, Blank), Given(id), Given(0), {});
      OpenDrops(o.permits, i, o.permits[i].(state := Returned, returnId := Some(id)));
    }
  }

  lemma SwitchNext(o: Outage, op: Actor, phase: Phase) returns (cmd: Cmd)
    requires Inv(o) && IsOperator(op) && !AnyOpen(o.permits) && PhaseActive(phase, o.status) && o.plan == Approved
    requires !AllDone(o.steps, phase) && (phase == Restore ==> AllDone(o.steps, Isolate))
    ensures cmd.actor == op && Check(o, cmd).Allowed? && Left(Effect(o, cmd)) < Left(o) && !cmd.Close?
  {
    var i := FirstPending(o.steps, phase, |o.steps|);
    var id := FreshStepId(o.steps);
    FindAt(o.steps, i);
    cmd := Confirm(op, o.steps[i].id, Given(id), Given(0), {});
    PendingDrops(o.steps, i, o.steps[i].(confirmation := Some(id)));
    hide Inv;
  }

  /** Something the control room alone can do now, whoever was meant to do it. */
  lemma OperatorCanAct(o: Outage, op: Actor) returns (cmd: Cmd)
    requires Inv(o) && IsOperator(op) && SupplyOff(o)
    ensures cmd.actor == op && Check(o, cmd).Allowed? && Left(Effect(o, cmd)) < Left(o) && !cmd.Close?
  {
    if AnyOpen(o.permits) {
      cmd := ClearPermit(o, op);
    } else if !AllDone(o.steps, Isolate) {
      cmd := SwitchNext(o, op, Isolate);
    } else {
      assert !AllDone(o.steps, Restore);
      cmd := SwitchNext(o, op, Restore);
    }
  }

  function RunOn(o: Outage, cmds: seq<Cmd>): Outage
    decreases |cmds|
  {
    if cmds == [] then o else RunOn(Apply(o, cmds[0]), cmds[1..])
  }

  lemma StillUnderway(o: Outage, cmd: Cmd)
    requires Inv(o) && SupplyOff(o) && Check(o, cmd).Allowed? && !cmd.Close?
    ensures SupplyOff(Apply(o, cmd)) || Apply(o, cmd).status == Resolved
    ensures Left(Apply(o, cmd)) == Left(Effect(o, cmd))
  {
    var o1 := Effect(o, cmd);
    assert SupplyOff(o1) by { hide Inv, CheckDraftSteps; }
    SettleSettles(o1, MAX_MOVES);
    StaysOff(o1, MAX_MOVES);
  }

  lemma {:induction false} StaysOff(o: Outage, n: nat)
    requires SupplyOff(o) || o.status == Resolved
    ensures SupplyOff(Settle(o, n)) || Settle(o, n).status == Resolved
    decreases n
  {
    if n > 0 && NextAutomatic(o).Some? { StaysOff(Move(o, NextAutomatic(o).value), n - 1); }
  }

  lemma OperatorStep(o: Outage, op: Actor) returns (cmd: Cmd, o1: Outage)
    requires Inv(o) && IsOperator(op) && SupplyOff(o)
    ensures cmd.actor == op && o1 == Apply(o, cmd) && Inv(o1) && Left(o1) < Left(o)
    ensures SupplyOff(o1) || o1.status == Resolved
  {
    cmd := OperatorCanAct(o, op);
    hide Apply, Check, Effect;
    KeepInv(o, cmd);
    StillUnderway(o, cmd);
    o1 := Apply(o, cmd);
  }

  /** Once supply is off, the control room acting alone -- on the crews' behalf where needed -- can always bring the
    * outage to resolved, with every permit cleared and every step confirmed on the way. */
  lemma {:induction false} OperatorCanAlwaysFinish(o: Outage, op: Actor) returns (cmds: seq<Cmd>)
    requires Inv(o) && IsOperator(op) && SupplyOff(o)
    ensures AllBy(cmds, op)
    ensures RunOn(o, cmds).status == Resolved && Inv(RunOn(o, cmds))
    decreases Left(o)
  {
    var cmd, o1 := OperatorStep(o, op);
    hide Inv, Apply, RunOn, AllBy;
    if SupplyOff(o1) {
      var rest := OperatorCanAlwaysFinish(o1, op);
      cmds := [cmd] + rest;
      RunOnStep(o, cmd, rest);
    } else {
      cmds := [cmd] + [];
      RunOnStep(o, cmd, []);
    }
  }

  ghost predicate AllBy(cmds: seq<Cmd>, op: Actor) { forall k :: 0 <= k < |cmds| ==> cmds[k].actor == op }

  lemma RunOnStep(o: Outage, cmd: Cmd, rest: seq<Cmd>)
    ensures AllBy(rest, cmd.actor) ==> AllBy([cmd] + rest, cmd.actor)
    ensures AllBy([], cmd.actor)
    ensures RunOn(o, [cmd] + rest) == RunOn(Apply(o, cmd), rest)
    ensures RunOn(o, []) == o && RunOn(Apply(o, cmd), []) == Apply(o, cmd)
  {
    assert ([cmd] + rest)[1..] == rest;
  }
}
