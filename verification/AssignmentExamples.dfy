/** Two runs in which an assignment writes an old status over a newer one. */
module AssignmentExamples {
  import opened Common
  import opened SwitchingRules
  import opened SwitchingMachine
  import opened Assignments
  import opened SampleOutage

  function Announcing(): seq<Event> { [Request(Preparing(CREW)[0]), Request(Preparing(CREW)[1]), Request(Preparing(CREW)[2])] }

  const OPEN_IT := Confirm(CREW, 0, Given(7), Blank, {})

  lemma Extend(es: seq<Event>, e: Event)
    ensures After(es + [e]) == Next(After(es), e)
  {
    hide Next;
    assert (es + [e])[..|es|] == es;
  }

  lemma AfterNotice()
    ensures After(Announcing()) == World(Announced(CREW), map[])
  {
    var es := Announcing();
    Drafting(CREW);
    Approving(CREW);
    Noticing(CREW);
    hide Apply, Preparing;
    assert es[..1] == [] + [es[0]] && es[..2] == es[..1] + [es[1]] && es == es[..2] + [es[2]];
    Extend([], es[0]);
    Extend(es[..1], es[1]);
    Extend(es[..2], es[2]);
  }

  /** Read at notified, written after the breaker was opened: the outage is notified again with a step confirmed, and the
    * safety log no longer explains it. Cancelling it is still refused. */
  lemma ConfirmationUndone()
    ensures var es := Announcing() + [ReadStatus(0)] + [Request(OPEN_IT)] + [WriteBack(0)];
      && After(es).o.status == Notified && AnyDone(After(es).o.steps, Isolate)
      && !Undisturbed(es)
      && Check(After(es).o, Cancel(OPERATOR, Given(0))) == Rejected(SwitchingStarted)
  {
    var es0 := Announcing();
    var es1 := es0 + [ReadStatus(0)];
    var es2 := es1 + [Request(OPEN_IT)];
    var es := es2 + [WriteBack(0)];
    AfterNotice();
    Opening(CREW, 7, {}, NoticeLog());
    hide Apply, Announcing, Undisturbed, After, Check;
    Extend(es0, ReadStatus(0));
    Extend(es1, Request(OPEN_IT));
    Extend(es2, WriteBack(0));
    var o := After(es).o;
    assert o.steps[0].phase == Isolate && Done(o.steps[0]);
    Refused(o);
    Disturbed(es0, es1, es2);
  }

  lemma Refused(o: Outage)
    requires !NoneDone(o.steps)
    ensures Check(o, Cancel(OPERATOR, Given(0))) == Rejected(SwitchingStarted)
  {
  }

  lemma Disturbed(es0: seq<Event>, es1: seq<Event>, es2: seq<Event>)
    requires es1 == es0 + [ReadStatus(0)] && es2 == es1 + [Request(OPEN_IT)]
    requires After(es0).o.status != After(es2).o.status
    ensures !Undisturbed(es2 + [WriteBack(0)])
  {
    hide After;
    var es, i, j := es2 + [WriteBack(0)], |es0|, |es2|;
    assert ReadFor(es, i, j);
    assert es[..i] == es0 && es[..j] == es2;
  }

  lemma Cancelling()
    ensures Apply(Announced(CREW), Cancel(OPERATOR, Given(0))) == Planned(CREW, Cancelled, Approved, NoticeLog() + [Moved(Notified, Cancelled)])
  {
    hide Numbered;
  }

  /** Two assignments beside a cancellation: the first revives the cancelled outage, the breaker is opened, and the second
    * cancels it again with supply off, which nothing can undo. */
  lemma CancelledWithSupplyOff()
    ensures var es := Announcing() + [ReadStatus(0)] + [Request(Cancel(OPERATOR, Given(0)))] + [ReadStatus(1)] + [WriteBack(0)]
        + [Request(OPEN_IT)] + [WriteBack(1)];
      Stranded(After(es).o) && After(es).o.plan == Approved && !AllDone(After(es).o.steps, Restore)
  {
    var es0 := Announcing();
    var es1 := es0 + [ReadStatus(0)];
    var es2 := es1 + [Request(Cancel(OPERATOR, Given(0)))];
    var es3 := es2 + [ReadStatus(1)];
    var es4 := es3 + [WriteBack(0)];
    var es5 := es4 + [Request(OPEN_IT)];
    AfterNotice();
    Cancelling();
    Opening(CREW, 7, {}, NoticeLog() + [Moved(Notified, Cancelled)]);
    hide Apply, Announcing, After;
    Extend(es0, ReadStatus(0));
    Extend(es1, Request(Cancel(OPERATOR, Given(0))));
    Extend(es2, ReadStatus(1));
    Extend(es3, WriteBack(0));
    assert After(es4).o == Planned(CREW, Notified, Approved, NoticeLog() + [Moved(Notified, Cancelled)]);
    Extend(es4, Request(OPEN_IT));
    Extend(es5, WriteBack(1));
    var o := After(es5 + [WriteBack(1)]).o;
    assert o.steps[0].phase == Isolate && Done(o.steps[0]);
    assert o.steps[1].phase == Restore && !Done(o.steps[1]);
  }
}
