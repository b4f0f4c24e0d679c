/** A crew's job started on a line that is being switched back: the permit is returned and a restore step confirmed between
  * the gate and the write. */
module JobGateExamples {
  import opened Common
  import opened SwitchingRules
  import opened SwitchingMachine
  import opened PlannedOutageTheorems
  import opened JobGate
  import opened SampleOutage

  const PERMIT := Permit(3, 7, Requested, 1, None)
  const ASK := RequestPermit(CREW, 3, 7, Given(1), {})
  const ISSUE := Issue(OPERATOR, 0, Given(0), Given(0))
  const RETURN := ReturnPermit(OPERATOR, 0, Declaration(true, true, true, Blank), Given(2), Given(0), {})
  const CLOSE_IT := Confirm(OPERATOR, 1, Given(8), Blank, {})

  function Permitted(status: Status, p: Permit, log: seq<Entry>): Outage {
    Outage(status, Approved, Open(), [p], 2, log)
  }

  /** The steps once the breaker is opened. */
  function Open(): seq<Step> { Plan(CREW, Some(7)) }

  lemma LineIsOpen()
    ensures AllDone(Open(), Isolate) && !AnyDone(Open(), Restore) && !AllDone(Open(), Restore)
  {
    var s := Open();
    assert s[0].phase == Isolate && Done(s[0]) && s[1].phase == Restore && !Done(s[1]);
  }

  lemma OwnIsolated()
    ensures OwnIsolationDone(Open(), Some(7)) && IsCrew(CREW) && CREW.crewId == Some(7)
  {
    LineIsOpen();
    hide Plan, Open;
  }

  lemma SecondIsNext(a: Step, b: Step)
    requires a.id != b.id && a.phase == Isolate && b.phase == Restore
    ensures Find([a, b], b.id) == Some(1) && PredecessorsDone([a, b], b)
  {
    assert [a, b][1..] == [b];
  }

  lemma RestoreIsNext()
    ensures |Open()| == 2 && Open()[1] == Step(1, Restore, 1, ControlRoom, Given(0), Given(0), None)
    ensures Find(Open(), 1) == Some(1) && PredecessorsDone(Open(), Open()[1])
  {
    hide Find, PredecessorsDone;
    SecondIsNext(Open()[0], Open()[1]);
    assert Open() == [Open()[0], Open()[1]];
  }

  lemma EightIsFree()
    ensures !StepIdTaken(Open(), 8, {})
  {
  }

  lemma Asking(log: seq<Entry>)
    ensures Apply(Outage(Isolating, Approved, Open(), [], 2, log), ASK) == Permitted(Isolating, PERMIT, log + [Other])
  {
    var o := Outage(Isolating, Approved, Open(), [], 2, log);
    LineIsOpen();
    OwnIsolated();
    hide Open, AllDone, AnyDone, OwnIsolationDone, IsCrew;
    assert Check(o, ASK).Allowed?;
    var o1 := Permitted(Isolating, PERMIT, log + [Other]);
    assert Effect(o, ASK) == o1;
    assert NextAutomatic(o1) == None;
    hide Check, Effect;
  }

  lemma Issuing(log: seq<Entry>)
    ensures Apply(Permitted(Isolating, PERMIT, log), ISSUE)
      == Permitted(InProgress, PERMIT.(state := Issued), log + [Other] + [Moved(Isolating, InProgress)])
  {
    var o := Permitted(Isolating, PERMIT, log);
    LineIsOpen();
    hide Open, AllDone, AnyDone;
    assert Check(o, ISSUE).Allowed?;
    var p := PERMIT.(state := Issued);
    var o1 := Permitted(Isolating, p, log + [Other]);
    assert o.permits[0 := p] == [p];
    assert Effect(o, ISSUE) == o1;
    assert o1.permits[0].state == Issued;
    var o2 := Move(o1, InProgress);
    assert NextAutomatic(o1) == Some(InProgress);
    assert OpenPermit(o2.permits[0]);
    assert NextAutomatic(o2) == None;
    assert Settle(o2, MAX_MOVES - 1) == o2;
    hide Check, Effect;
  }

  lemma Returning(log: seq<Entry>)
    ensures Apply(Permitted(InProgress, PERMIT.(state := Issued), log), RETURN)
      == Permitted(Restoring, PERMIT.(state := Returned, returnId := Some(2)), log + [Other] + [Moved(InProgress, Restoring)])
    ensures Check(Permitted(InProgress, PERMIT.(state := Issued), log), RETURN).Allowed?
  {
    var o := Permitted(InProgress, PERMIT.(state := Issued), log);
    LineIsOpen();
    hide Open, AllDone, AnyDone;
    assert Check(o, RETURN).Allowed?;
    var p := PERMIT.(state := Returned, returnId := Some(2));
    var o1 := Permitted(InProgress, p, log + [Other]);
    assert o.permits[0 := p] == [p];
    assert Effect(o, RETURN) == o1;
    assert o1.permits[0].state == Returned;
    var o2 := Move(o1, Restoring);
    assert NextAutomatic(o1) == Some(Restoring);
    assert NextAutomatic(o2) == None;
    assert Settle(o2, MAX_MOVES - 1) == o2;
    hide Check, Effect;
  }

  lemma RestoreAllowed(o: Outage, op: Actor, id: nat)
    requires |o.steps| == 2 && o.plan == Approved && o.status == Restoring && !AnyOpen(o.permits) && IsOperator(op)
    requires Find(o.steps, 1) == Some(1) && o.steps[1].assignee == ControlRoom && o.steps[1].phase == Restore && !Done(o.steps[1])
    requires PredecessorsDone(o.steps, o.steps[1]) && AllDone(o.steps, Isolate) && !StepIdTaken(o.steps, id, {})
    ensures Check(o, Confirm(op, 1, Given(id), Blank, {})).Allowed?
  {
    hide AllDone, AnyOpen, PredecessorsDone, StepIdTaken, IsOperator, Find;
  }

  lemma ClosingAllowed(o: Outage)
    requires o.steps == Open() && o.plan == Approved && o.status == Restoring && !AnyOpen(o.permits)
    ensures |o.steps| == 2 && o.steps[1].phase == Restore && Find(o.steps, 1) == Some(1) && Check(o, CLOSE_IT).Allowed?
  {
    assert IsOperator(OPERATOR);
    hide *;
    LineIsOpen();
    RestoreIsNext();
    EightIsFree();
    NotDone(Open()[1]);
    RestoreAllowed(o, OPERATOR, 8);
  }

  lemma NotDone(s: Step)
    requires s.confirmation == None
    ensures !Done(s)
  {
  }

  /** The restore step is confirmed; whatever moves on automatically, the step stays confirmed. */
  lemma Closing(log: seq<Entry>)
    ensures AnyDone(Apply(Permitted(Restoring, PERMIT.(state := Returned, returnId := Some(2)), log), CLOSE_IT).steps, Restore)
  {
    var o := Permitted(Restoring, PERMIT.(state := Returned, returnId := Some(2)), log);
    assert !AnyOpen(o.permits);
    hide Open, AnyOpen, Check, Apply, AnyDone, Find;
    ClosingAllowed(o);
    SamePhase(o);
  }

  lemma SamePhase(o: Outage)
    requires |o.steps| == 2 && o.steps[1].phase == Restore && Check(o, CLOSE_IT).Allowed? && Find(o.steps, 1) == Some(1)
    ensures AnyDone(Apply(o, CLOSE_IT).steps, Restore)
  {
    ConfirmedNow(o, CLOSE_IT);
    var changed := Changed(o, CLOSE_IT);
    assert changed.steps[1].phase == Restore && |changed.steps| == 2;
    hide Check, Changed, Conclude;
    ConcludeSettles(Check(o, CLOSE_IT), o, changed);
    assert Done(Apply(o, CLOSE_IT).steps[1]);
  }

  lemma Extend(es: seq<Event>, e: Event)
    ensures After(es + [e]) == Next(After(es), e)
  {
    hide Next;
    assert (es + [e])[..|es|] == es;
  }

  /** Planned, isolated, permitted, and the job assigned. */
  function Permitting(): seq<Event> {
    [] + [Request(Preparing(CREW)[0])] + [Request(Preparing(CREW)[1])] + [Request(Preparing(CREW)[2])]
    + [Request(Confirm(CREW, 0, Given(7), Blank, {}))] + [Request(ASK)] + [Request(ISSUE)] + [Assign(3, 7)]
  }

  function OpenLog(): seq<Entry> { NoticeLog() + [Confirmed(0, 7)] + [Moved(Notified, Isolating)] }

  function IssuedLog(): seq<Entry> { OpenLog() + [Other] + [Other] + [Moved(Isolating, InProgress)] }

  function InWork(): Outage { Permitted(InProgress, PERMIT.(state := Issued), IssuedLog()) }

  lemma AfterPermitting()
    ensures After(Permitting()) == World(InWork(), map[3 := Job(7, OtherStatus)], map[])
  {
    var c := Preparing(CREW);
    var e1 := [] + [Request(c[0])];
    var e2 := e1 + [Request(c[1])];
    var e3 := e2 + [Request(c[2])];
    var e4 := e3 + [Request(Confirm(CREW, 0, Given(7), Blank, {}))];
    var e5 := e4 + [Request(ASK)];
    var e6 := e5 + [Request(ISSUE)];
    Drafting(CREW);
    Approving(CREW);
    Noticing(CREW);
    Opening(CREW, 7, {}, NoticeLog());
    Asking(OpenLog());
    Issuing(OpenLog() + [Other]);
    hide Apply, Check, Preparing;
    Extend([], Request(c[0]));
    Extend(e1, Request(c[1]));
    Extend(e2, Request(c[2]));
    Extend(e3, Request(Confirm(CREW, 0, Given(7), Blank, {})));
    hide After;
    Extend(e4, Request(ASK));
    Extend(e5, Request(ISSUE));
    Extend(e6, Assign(3, 7));
  }

  /** The crew's request passes the gate; the control room returns the permit on its behalf and closes the breaker; then Work
    * Started is written: the job has started on a line switched back. */
  lemma StartedOnALiveLine()
    ensures var es := Permitting() + [ReadGate(0, 3, WorkStarted)] + [Request(RETURN)] + [Request(CLOSE_IT)];
      && PassedFor(es + [WriteJob(0)], |Permitting()|, |es|)
      && var w := After(es + [WriteJob(0)]); 3 in w.jobs && w.jobs[3].status == WorkStarted && !Dead(w.o)
  {
    var e0 := Permitting();
    var e1 := e0 + [ReadGate(0, 3, WorkStarted)];
    var e2 := e1 + [Request(RETURN)];
    var e3 := e2 + [Request(CLOSE_IT)];
    AfterPermitting();
    Returning(IssuedLog());
    Closing(IssuedLog() + [Other] + [Moved(InProgress, Restoring)]);
    assert Latest(InWork().permits, 3) == Some(0);
    assert Passes(After(e0), 3, WorkStarted);
    hide Apply, Check, Permitting, After, Latest;
    Extend(e0, ReadGate(0, 3, WorkStarted));
    Extend(e1, Request(RETURN));
    Extend(e2, Request(CLOSE_IT));
    Extend(e3, WriteJob(0));
    InOrder(e0, e1, e2, e3);
  }

  lemma InOrder(e0: seq<Event>, e1: seq<Event>, e2: seq<Event>, e3: seq<Event>)
    requires e1 == e0 + [ReadGate(0, 3, WorkStarted)] && e2 == e1 + [Request(RETURN)] && e3 == e2 + [Request(CLOSE_IT)]
    requires Passes(After(e0), 3, WorkStarted)
    ensures PassedFor(e3 + [WriteJob(0)], |e0|, |e3|)
  {
    hide After, Passes;
    assert (e3 + [WriteJob(0)])[..|e0|] == e0;
  }
}
