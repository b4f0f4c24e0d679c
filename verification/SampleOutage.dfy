/** One small planned outage, used by the examples: a crew opens a breaker, the control room closes it again. */
module SampleOutage {
  import opened Common
  import opened SwitchingRules
  import opened SwitchingMachine
  import opened PlannedOutageTheorems

  const CREW := Actor({FieldCrew}, Some(7))
  const OPERATOR := Actor({OmsOperator}, None)

  function Plan(crew: Actor, confirmed: Option<nat>): seq<Step> {
    [Step(0, Isolate, 1, Crew(crew.crewId), Given(0), Given(0), confirmed), Step(1, Restore, 1, ControlRoom, Given(0), Given(0), None)]
  }

  function Planned(crew: Actor, status: Status, plan: PlanState, log: seq<Entry>): Outage {
    Outage(status, plan, Plan(crew, None), [], 2, log)
  }

  function NoticeLog(): seq<Entry> { [Other, Other, Other, Moved(Scheduled, Notified)] }

  /** Planned, approved and announced: the crew may open the breaker. */
  function Announced(crew: Actor): Outage { Planned(crew, Notified, Approved, NoticeLog()) }

  function Opened(crew: Actor, id: nat, log: seq<Entry>): Outage {
    Outage(Isolating, Approved, Plan(crew, Some(id)), [], 2, log + [Confirmed(0, id)] + [Moved(Notified, Isolating)])
  }

  function Preparing(crew: Actor): seq<Cmd> {
    [EditPlan(OPERATOR, Plan(crew, None)), ApprovePlan(OPERATOR), Notify(OPERATOR, false, Blank)]
  }

  lemma Numbers(crew: Actor, phase: Phase)
    ensures Numbered(Plan(crew, None), phase)
  {
    var a := Plan(crew, None);
    assert a[1..] == [a[1]] && [a[1]][1..] == [];
    assert Seqs([], phase) == multiset{};
    assert Seqs([a[1]], phase) == if phase == Restore then multiset{1} else multiset{};
    assert Seqs(a, phase) == multiset{1};
    assert OneTo(1) == multiset{1};
  }

  lemma Drafting(crew: Actor)
    requires crew.crewId.Some?
    ensures Apply(Init(), Preparing(crew)[0]) == Planned(crew, Scheduled, Draft, [Other])
  {
    Numbers(crew, Isolate);
    Numbers(crew, Restore);
    hide Numbered;
    assert Saved(Plan(crew, None), 0) == Plan(crew, None);
  }

  lemma Approving(crew: Actor)
    requires crew.crewId.Some?
    ensures Apply(Planned(crew, Scheduled, Draft, [Other]), Preparing(crew)[1]) == Planned(crew, Scheduled, Approved, [Other, Other])
  {
    Numbers(crew, Isolate);
    Numbers(crew, Restore);
    hide Numbered;
    assert Plan(crew, None)[0].phase == Isolate && Plan(crew, None)[1].phase == Restore;
  }

  lemma Noticing(crew: Actor)
    ensures Apply(Planned(crew, Scheduled, Approved, [Other, Other]), Preparing(crew)[2]) == Announced(crew)
  {
    hide Numbered;
    assert [Other, Other] + [Other] + [Moved(Scheduled, Notified)] == NoticeLog();
  }

  lemma Prepared(crew: Actor)
    requires crew.crewId.Some?
    ensures RunOn(Init(), Preparing(crew)) == Announced(crew)
  {
    var cmds := Preparing(crew);
    Drafting(crew);
    Approving(crew);
    Noticing(crew);
    hide Apply;
    var o1, o2 := Planned(crew, Scheduled, Draft, [Other]), Planned(crew, Scheduled, Approved, [Other, Other]);
    RunOnStep(o2, cmds[2], []);
    RunOnStep(o1, cmds[1], [cmds[2]] + []);
    RunOnStep(Init(), cmds[0], [cmds[1]] + ([cmds[2]] + []));
    assert cmds == [cmds[0]] + ([cmds[1]] + ([cmds[2]] + []));
  }

  /** The crew's confirmation of the first step is accepted, and the outage is isolating. */
  lemma Opening(crew: Actor, id: nat, elsewhere: set<nat>, log: seq<Entry>)
    requires IsCrew(crew) && id !in elsewhere
    ensures var o, cmd := Planned(crew, Notified, Approved, log), Confirm(crew, 0, Given(id), Blank, elsewhere);
      Check(o, cmd).Allowed? && Apply(o, cmd) == Opened(crew, id, log)
  {
    var o, cmd := Planned(crew, Notified, Approved, log), Confirm(crew, 0, Given(id), Blank, elsewhere);
    hide Numbered;
    assert Find(o.steps, 0) == Some(0);
    assert Check(o, cmd).Allowed?;
    var o1 := Outage(Notified, Approved, Plan(crew, Some(id)), [], 2, log + [Confirmed(0, id)]);
    assert Effect(o, cmd) == o1;
    assert o1.steps[0].phase == Isolate && Done(o1.steps[0]);
    var o2 := Move(o1, Isolating);
    assert NextAutomatic(o1) == Some(Isolating);
    assert NextAutomatic(o2) == None;
    assert Settle(o2, MAX_MOVES - 1) == o2;
    hide Check, Effect;
  }
}
