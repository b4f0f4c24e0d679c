/** Runs that reach the limits of the SCADA theorems. */
module ScadaExamples {
  import opened Common
  import opened ScadaIncidents
  import opened ScadaRuns
  import opened ScadaTheorems
  import opened ScadaRestores

  function Feeder(): Scope { Scope(Some(7), Some(1)) }

  /** An incident of the feeder that SCADA opened at `at`. */
  function Row(at: int, status: Status, tags: set<nat>, restored: bool): Incident {
    Incident(Feeder(), status, false, true, at, tags, true, restored)
  }

  lemma Step(w: World, e: Event, w': World, es: seq<Event>)
    requires Possible(w, e) && Next(w, e) == w' && PossibleRun(w', es)
    ensures PossibleRun(w, [e] + es) && After(w, [e] + es) == After(w', es)
  {
    assert ([e] + es)[1..] == es && ([e] + es)[0] == e;
  }

  /** A first trip of device 3 at minute 0. */
  function Tripped(): World { World([Row(0, Open, {3}, false)], 0, map[], map[], map[]) }

  function Trip3(): seq<Event> { [Select(0, Feeder(), {3}), Commit(0, 0)] }

  lemma TripRuns(es: seq<Event>)
    requires PossibleRun(Tripped(), es)
    ensures PossibleRun(Init(0), Trip3() + es) && After(Init(0), Trip3() + es) == After(Tripped(), es)
  {
    var w0 := Init(0);
    var w1 := World([], 0, map[0 := Flight(Feeder(), {3}, None, 0)], map[], map[]);
    assert Next(w0, Select(0, Feeder(), {3})) == w1;
    assert Opened(w1.flights[0], 0) == Row(0, Open, {3}, false) by { assert {} + {3} == {3}; }
    assert w1.flights - {0} == map[];
    assert Next(w1, Commit(0, 0)) == Tripped();
    hide Next, PossibleRun, After;
    Step(w1, Commit(0, 0), Tripped(), es);
    Step(w0, Select(0, Feeder(), {3}), w1, [Commit(0, 0)] + es);
    assert [Select(0, Feeder(), {3})] + ([Commit(0, 0)] + es) == Trip3() + es;
  }

  /** Then dispatched, and recloses: restored and closed as momentary. */
  function Reclosed3(): World { World([Row(0, Closed, {}, true)], 0, map[], map[2 := Reclose([], None)], map[]) }

  function Dispatch(): seq<Event> { [Read(1, 0), Write(1, Dispatched)] }

  function RecloseAll(): seq<Event> { [RemoveTag(2, 3), RestoreNext(2), CloseNext(2)] }

  lemma RecloseRuns(es: seq<Event>)
    requires PossibleRun(Reclosed3(), es)
    ensures PossibleRun(Tripped(), Dispatch() + RecloseAll() + es)
    ensures After(Tripped(), Dispatch() + RecloseAll() + es) == After(Reclosed3(), es)
  {
    var w0 := Tripped();
    var w1 := w0.(looks := map[1 := Look(0, Open)]);
    var w2 := w0.(rows := [Row(0, Dispatched, {3}, false)]);
    var w3 := w0.(rows := [Row(0, Dispatched, {}, false)], recloses := map[2 := Reclose([0], None)]);
    var w4 := w0.(rows := [Row(0, Resolved, {}, true)], recloses := map[2 := Reclose([], Some(0))]);
    assert Next(w0, Read(1, 0)) == w1;
    assert w1.looks - {1} == map[];
    assert Next(w1, Write(1, Dispatched)) == w2;
    RemoveLast();
    assert Next(w2, RemoveTag(2, 3)) == w3;
    assert [0][1..] == [];
    assert Next(w3, RestoreNext(2)) == w4;
    assert Next(w4, CloseNext(2)) == Reclosed3();
    hide Next, PossibleRun, After;
    Step(w4, CloseNext(2), Reclosed3(), es);
    Step(w3, RestoreNext(2), w4, [CloseNext(2)] + es);
    Step(w2, RemoveTag(2, 3), w3, [RestoreNext(2)] + ([CloseNext(2)] + es));
    Step(w1, Write(1, Dispatched), w2, [RemoveTag(2, 3)] + ([RestoreNext(2)] + ([CloseNext(2)] + es)));
    Step(w0, Read(1, 0), w1, [Write(1, Dispatched)] + ([RemoveTag(2, 3)] + ([RestoreNext(2)] + ([CloseNext(2)] + es))));
    assert [Read(1, 0)] + ([Write(1, Dispatched)] + ([RemoveTag(2, 3)] + ([RestoreNext(2)] + ([CloseNext(2)] + es))))
        == Dispatch() + RecloseAll() + es;
  }

  lemma RemoveLast()
    ensures var rows := [Row(0, Dispatched, {3}, false)];
      RemovedAll(rows, 3) == [Row(0, Dispatched, {}, false)] && DueFor(rows, 3, 1) == [0]
  {
    var rows := [Row(0, Dispatched, {3}, false)];
    assert {3} - {3} == {};
    assert DueFor(rows, 3, 0) == [];
  }

  /** The crew reports Work Complete after SCADA restored the incident: it is active again, with no device open and nothing to
    * restore it. */
  lemma CompletionAfterReclose()
    ensures var es := Trip3() + (Dispatch() + RecloseAll() + [CrewCompletes(0)]);
      && PossibleRun(Init(0), es) && !AllTagged(After(Init(0), es))
      && After(Init(0), es).rows == [Row(0, Pending, {}, true)]
  {
    var w := Reclosed3();
    var end := w.(rows := [Row(0, Pending, {}, true)]);
    assert Next(w, CrewCompletes(0)) == end;
    assert PossibleRun(end, []) && After(end, []) == end;
    assert [CrewCompletes(0)] + [] == [CrewCompletes(0)];
    assert !UnderWay(end.recloses, 0);
    assert Stuck(end.rows[0]);
    hide Next, PossibleRun, After, UnderWay;
    Step(w, CrewCompletes(0), end, []);
    RecloseRuns([CrewCompletes(0)]);
    TripRuns(Dispatch() + RecloseAll() + [CrewCompletes(0)]);
  }

  lemma SecondTripRuns(es: seq<Event>)
    requires var w := Reclosed3().(now := 1, rows := [Row(0, Closed, {}, true), Row(1, Open, {5}, false)]); PossibleRun(w, es)
    ensures var w := Reclosed3().(now := 1, rows := [Row(0, Closed, {}, true), Row(1, Open, {5}, false)]);
      && PossibleRun(Reclosed3(), [Tick(1), Select(4, Feeder(), {5}), Commit(4, 1)] + es)
      && After(Reclosed3(), [Tick(1), Select(4, Feeder(), {5}), Commit(4, 1)] + es) == After(w, es)
  {
    var w0 := Reclosed3();
    var w1 := w0.(now := 1);
    var w2 := w1.(flights := map[4 := Flight(Feeder(), {5}, None, 1)]);
    var w3 := w1.(rows := [Row(0, Closed, {}, true), Row(1, Open, {5}, false)]);
    assert Next(w0, Tick(1)) == w1;
    assert Match(Feeder(), w1.rows, 1, 1) == None;
    assert Next(w1, Select(4, Feeder(), {5})) == w2;
    assert {} + {5} == {5} && Opened(w2.flights[4], 1) == Row(1, Open, {5}, false) && w2.flights - {4} == map[];
    assert Next(w2, Commit(4, 1)) == w3;
    hide Next, PossibleRun, After;
    Step(w2, Commit(4, 1), w3, es);
    Step(w1, Select(4, Feeder(), {5}), w2, [Commit(4, 1)] + es);
    Step(w0, Tick(1), w1, [Select(4, Feeder(), {5})] + ([Commit(4, 1)] + es));
    assert [Tick(1)] + ([Select(4, Feeder(), {5})] + ([Commit(4, 1)] + es)) == [Tick(1), Select(4, Feeder(), {5}), Commit(4, 1)] + es;
  }

  /** The same with another device of the feeder tripping a minute after the reclose: two active incidents of one feeder. */
  lemma CompletionBesideSecondTrip()
    ensures var es := Trip3() + (Dispatch() + RecloseAll() + ([Tick(1), Select(4, Feeder(), {5}), Commit(4, 1)] + [CrewCompletes(0)]));
      && PossibleRun(Init(0), es) && !AllApart(After(Init(0), es))
      && After(Init(0), es).rows == [Row(0, Pending, {}, true), Row(1, Open, {5}, false)]
  {
    var w3 := Reclosed3().(now := 1, rows := [Row(0, Closed, {}, true), Row(1, Open, {5}, false)]);
    var w4 := w3.(rows := [Row(0, Pending, {}, true), Row(1, Open, {5}, false)]);
    assert Next(w3, CrewCompletes(0)) == w4;
    assert PossibleRun(w4, []) && After(w4, []) == w4;
    assert Rivals(w4.rows[0], w4.rows[1]) && !Far(w4.rows[0], w4.rows[1]);
    hide Next, PossibleRun, After;
    Step(w3, CrewCompletes(0), w4, []);
    assert [CrewCompletes(0)] + [] == [CrewCompletes(0)];
    SecondTripRuns([CrewCompletes(0)]);
    var tail := [Tick(1), Select(4, Feeder(), {5}), Commit(4, 1)] + [CrewCompletes(0)];
    RecloseRuns(tail);
    TripRuns(Dispatch() + RecloseAll() + tail);
  }

  /** A dispatcher's assignment read before the reclose and written after it does the same. */
  lemma StaleAssignment()
    ensures var es := Trip3() + [Read(1, 0), RemoveTag(2, 3), RestoreNext(2), CloseNext(2), Write(1, Dispatched)];
      PossibleRun(Init(0), es) && !AllTagged(After(Init(0), es)) && After(Init(0), es).rows == [Row(0, Dispatched, {}, true)]
  {
    var w0 := Tripped();
    var look := map[1 := Look(0, Open)];
    var w1 := w0.(looks := look);
    var w2 := w1.(rows := [Row(0, Open, {}, false)], recloses := map[2 := Reclose([0], None)]);
    var w3 := w1.(rows := [Row(0, Resolved, {}, true)], recloses := map[2 := Reclose([], Some(0))]);
    var w4 := w1.(rows := [Row(0, Closed, {}, true)], recloses := map[2 := Reclose([], None)]);
    var w5 := w0.(rows := [Row(0, Dispatched, {}, true)], recloses := map[2 := Reclose([], None)]);
    assert Next(w0, Read(1, 0)) == w1;
    RemoveLastOpen();
    assert Next(w1, RemoveTag(2, 3)) == w2;
    assert [0][1..] == [];
    assert Next(w2, RestoreNext(2)) == w3;
    assert Next(w3, CloseNext(2)) == w4;
    assert look - {1} == map[];
    assert Next(w4, Write(1, Dispatched)) == w5;
    assert PossibleRun(w5, []) && After(w5, []) == w5;
    assert !UnderWay(w5.recloses, 0);
    assert Stuck(w5.rows[0]);
    hide Next, PossibleRun, After, UnderWay;
    Step(w4, Write(1, Dispatched), w5, []);
    Step(w3, CloseNext(2), w4, [Write(1, Dispatched)] + []);
    Step(w2, RestoreNext(2), w3, [CloseNext(2)] + ([Write(1, Dispatched)] + []));
    Step(w1, RemoveTag(2, 3), w2, [RestoreNext(2)] + ([CloseNext(2)] + ([Write(1, Dispatched)] + [])));
    Step(w0, Read(1, 0), w1, [RemoveTag(2, 3)] + ([RestoreNext(2)] + ([CloseNext(2)] + ([Write(1, Dispatched)] + []))));
    var tail := [Read(1, 0), RemoveTag(2, 3), RestoreNext(2), CloseNext(2), Write(1, Dispatched)];
    assert [Read(1, 0)] + ([RemoveTag(2, 3)] + ([RestoreNext(2)] + ([CloseNext(2)] + ([Write(1, Dispatched)] + [])))) == tail;
    TripRuns(tail);
  }

  lemma RemoveLastOpen()
    ensures var rows := [Row(0, Open, {3}, false)];
      RemovedAll(rows, 3) == [Row(0, Open, {}, false)] && DueFor(rows, 3, 1) == [0]
  {
    var rows := [Row(0, Open, {3}, false)];
    assert {3} - {3} == {};
    assert DueFor(rows, 3, 0) == [];
  }

  /** A reclose that dies after taking the tag leaves the incident open for good. */
  lemma InterruptedReclose()
    ensures var es := Trip3() + [RemoveTag(2, 3), Die(2)];
      PossibleRun(Init(0), es) && !AllTagged(After(Init(0), es)) && After(Init(0), es).rows == [Row(0, Open, {}, false)]
  {
    var w0 := Tripped();
    var w1 := w0.(rows := [Row(0, Open, {}, false)], recloses := map[2 := Reclose([0], None)]);
    var w2 := w0.(rows := [Row(0, Open, {}, false)]);
    RemoveLastOpen();
    assert Next(w0, RemoveTag(2, 3)) == w1;
    assert w1.recloses - {2} == map[];
    assert Next(w1, Die(2)) == w2;
    assert PossibleRun(w2, []) && After(w2, []) == w2;
    assert !UnderWay(w2.recloses, 0);
    assert Stuck(w2.rows[0]);
    hide Next, PossibleRun, After, UnderWay;
    Step(w1, Die(2), w2, []);
    Step(w0, RemoveTag(2, 3), w1, [Die(2)] + []);
    assert [RemoveTag(2, 3)] + ([Die(2)] + []) == [RemoveTag(2, 3), Die(2)];
    TripRuns([RemoveTag(2, 3), Die(2)]);
  }

  /** The tag taken, the restore still to come; and then another device of the feeder trips. */
  function TagTaken(tags: set<nat>): World {
    World([Row(0, Open, tags, false)], 0, map[], map[2 := Reclose([0], None)], map[])
  }

  lemma JoinRuns(es: seq<Event>)
    requires PossibleRun(TagTaken({4}), es)
    ensures PossibleRun(TagTaken({}), [Select(4, Feeder(), {4}), Commit(4, 0)] + es)
    ensures After(TagTaken({}), [Select(4, Feeder(), {4}), Commit(4, 0)] + es) == After(TagTaken({4}), es)
  {
    var w1 := TagTaken({});
    var w2 := w1.(flights := map[4 := Flight(Feeder(), {4}, Some(0), 0)]);
    assert Match(Feeder(), w1.rows, 0, 0) == None && Match(Feeder(), w1.rows, 0, 1) == Some(0);
    assert Next(w1, Select(4, Feeder(), {4})) == w2;
    assert {} + {4} == {4} && w2.flights - {4} == map[];
    assert Next(w2, Commit(4, 0)) == TagTaken({4});
    hide Next, PossibleRun, After, TagTaken;
    Step(w2, Commit(4, 0), TagTaken({4}), es);
    Step(w1, Select(4, Feeder(), {4}), w2, [Commit(4, 0)] + es);
    assert [Select(4, Feeder(), {4})] + ([Commit(4, 0)] + es) == [Select(4, Feeder(), {4}), Commit(4, 0)] + es;
  }

  /** A trip of another device joins between the removal of the tag and the restore: the incident is closed with that device
    * still open. */
  lemma TripDuringReclose()
    ensures var es := Trip3() + ([RemoveTag(2, 3)] + ([Select(4, Feeder(), {4}), Commit(4, 0)] + [RestoreNext(2), CloseNext(2)]));
      PossibleRun(Init(0), es) && After(Init(0), es).rows == [Row(0, Closed, {4}, true)]
  {
    var w3 := TagTaken({4});
    var w4 := w3.(rows := [Row(0, Resolved, {4}, true)], recloses := map[2 := Reclose([], Some(0))]);
    var w5 := w3.(rows := [Row(0, Closed, {4}, true)], recloses := map[2 := Reclose([], None)]);
    RemoveLastOpen();
    assert Next(Tripped(), RemoveTag(2, 3)) == TagTaken({});
    assert [0][1..] == [];
    assert Next(w3, RestoreNext(2)) == w4;
    assert Next(w4, CloseNext(2)) == w5;
    assert PossibleRun(w5, []) && After(w5, []) == w5;
    hide Next, PossibleRun, After, TagTaken, Tripped;
    Step(w4, CloseNext(2), w5, []);
    Step(w3, RestoreNext(2), w4, [CloseNext(2)] + []);
    assert [RestoreNext(2)] + ([CloseNext(2)] + []) == [RestoreNext(2), CloseNext(2)];
    JoinRuns([RestoreNext(2), CloseNext(2)]);
    var tail := [Select(4, Feeder(), {4}), Commit(4, 0)] + [RestoreNext(2), CloseNext(2)];
    Step(Tripped(), RemoveTag(2, 3), TagTaken({}), tail);
    TripRuns([RemoveTag(2, 3)] + tail);
  }

  /** The other device's trip has selected the incident and not committed. */
  function Across(row: Incident, due: seq<nat>, closing: Option<nat>): World {
    World([row], 0, map[4 := Flight(Feeder(), {4}, Some(0), 0)], map[2 := Reclose(due, closing)], map[])
  }

  lemma AcrossRuns(es: seq<Event>)
    requires PossibleRun(Across(Row(0, Open, {}, false), [0], None), es)
    ensures PossibleRun(Tripped(), [Select(4, Feeder(), {4}), RemoveTag(2, 3)] + es)
    ensures After(Tripped(), [Select(4, Feeder(), {4}), RemoveTag(2, 3)] + es) == After(Across(Row(0, Open, {}, false), [0], None), es)
  {
    var w0 := Tripped();
    var w1 := w0.(flights := map[4 := Flight(Feeder(), {4}, Some(0), 0)]);
    var w2 := Across(Row(0, Open, {}, false), [0], None);
    assert Match(Feeder(), w0.rows, 0, 0) == None && Match(Feeder(), w0.rows, 0, 1) == Some(0);
    assert Next(w0, Select(4, Feeder(), {4})) == w1;
    RemoveLastOpen();
    assert Next(w1, RemoveTag(2, 3)) == w2;
    hide Next, PossibleRun, After, Across;
    Step(w1, RemoveTag(2, 3), w2, es);
    Step(w0, Select(4, Feeder(), {4}), w1, [RemoveTag(2, 3)] + es);
    assert [Select(4, Feeder(), {4})] + ([RemoveTag(2, 3)] + es) == [Select(4, Feeder(), {4}), RemoveTag(2, 3)] + es;
  }

  lemma LateCommit()
    ensures var w, es := Across(Row(0, Open, {}, false), [0], None), [RestoreNext(2), CloseNext(2), Commit(4, 0)];
      && PossibleRun(w, es) && After(w, es) == Reclosed3().(rows := [Row(0, Closed, {4}, true)])
  {
    var w2 := Across(Row(0, Open, {}, false), [0], None);
    var w3 := Across(Row(0, Resolved, {}, true), [], Some(0));
    var w4 := Across(Row(0, Closed, {}, true), [], None);
    var w5 := Reclosed3().(rows := [Row(0, Closed, {4}, true)]);
    assert [0][1..] == [];
    assert Next(w2, RestoreNext(2)) == w3;
    assert Next(w3, CloseNext(2)) == w4;
    assert {} + {4} == {4} && w4.flights - {4} == map[];
    assert Next(w4, Commit(4, 0)) == w5;
    assert PossibleRun(w5, []) && After(w5, []) == w5;
    hide Next, PossibleRun, After, Across;
    Step(w4, Commit(4, 0), w5, []);
    Step(w3, CloseNext(2), w4, [Commit(4, 0)] + []);
    Step(w2, RestoreNext(2), w3, [CloseNext(2)] + ([Commit(4, 0)] + []));
    assert [RestoreNext(2)] + ([CloseNext(2)] + ([Commit(4, 0)] + [])) == [RestoreNext(2), CloseNext(2), Commit(4, 0)];
  }

  /** A trip that selected the incident before the reclose commits after it: the incident was closed meanwhile, and is the only
    * one that holds the device. */
  lemma TripAcrossReclose()
    ensures var es := Trip3() + ([Select(4, Feeder(), {4}), RemoveTag(2, 3)] + [RestoreNext(2), CloseNext(2), Commit(4, 0)]);
      && PossibleRun(Init(0), es) && !NoneForgotten(After(Init(0), es))
      && After(Init(0), es).rows == [Row(0, Closed, {4}, true)]
  {
    var tail := [RestoreNext(2), CloseNext(2), Commit(4, 0)];
    assert 4 in Row(0, Closed, {4}, true).tags && Forgotten([Row(0, Closed, {4}, true)][0]);
    hide Next, PossibleRun, After, Across, Forgotten;
    LateCommit();
    AcrossRuns(tail);
    TripRuns([Select(4, Feeder(), {4}), RemoveTag(2, 3)] + tail);
  }

  /** A device that recloses after half an hour: the interruption was sustained, and its incident stays resolved. */
  lemma SustainedReclose()
    ensures var es := Trip3() + [Tick(30), RemoveTag(2, 3), RestoreNext(2)];
      && PossibleRun(Init(0), es) && After(Init(0), es).rows == [Row(0, Resolved, {}, true)]
      && !Possible(After(Init(0), es), CloseNext(2))
  {
    var w0 := Tripped();
    var w1 := w0.(now := 30);
    var w2 := w1.(rows := [Row(0, Open, {}, false)], recloses := map[2 := Reclose([0], None)]);
    var w3 := w1.(rows := [Row(0, Resolved, {}, true)], recloses := map[2 := Reclose([], None)]);
    assert Next(w0, Tick(30)) == w1;
    RemoveLastOpen();
    assert Next(w1, RemoveTag(2, 3)) == w2;
    assert [0][1..] == [];
    assert Next(w2, RestoreNext(2)) == w3;
    assert PossibleRun(w3, []) && After(w3, []) == w3;
    hide Next, PossibleRun, After;
    Step(w2, RestoreNext(2), w3, []);
    Step(w1, RemoveTag(2, 3), w2, [RestoreNext(2)] + []);
    Step(w0, Tick(30), w1, [RemoveTag(2, 3)] + ([RestoreNext(2)] + []));
    var tail := [Tick(30), RemoveTag(2, 3), RestoreNext(2)];
    assert [Tick(30)] + ([RemoveTag(2, 3)] + ([RestoreNext(2)] + [])) == tail;
    TripRuns(tail);
  }

  /** A trip four hours and a minute after the first opens a second incident on the feeder. */
  lemma SecondAfterFourHours()
    ensures var es := Trip3() + [Tick(241), Select(4, Feeder(), {4}), Commit(4, 241)];
      && PossibleRun(Init(0), es) && After(Init(0), es).rows == [Row(0, Open, {3}, false), Row(241, Open, {4}, false)]
      && Rivals(After(Init(0), es).rows[0], After(Init(0), es).rows[1])
  {
    var w0 := Tripped();
    var w1 := w0.(now := 241);
    var w2 := w1.(flights := map[4 := Flight(Feeder(), {4}, None, 241)]);
    var w3 := w1.(rows := [Row(0, Open, {3}, false), Row(241, Open, {4}, false)]);
    assert Next(w0, Tick(241)) == w1;
    assert Match(Feeder(), w1.rows, 241, 1) == None;
    assert Next(w1, Select(4, Feeder(), {4})) == w2;
    assert {} + {4} == {4} && Opened(w2.flights[4], 241) == Row(241, Open, {4}, false) && w2.flights - {4} == map[];
    assert Next(w2, Commit(4, 241)) == w3;
    assert PossibleRun(w3, []) && After(w3, []) == w3;
    hide Next, PossibleRun, After;
    Step(w2, Commit(4, 241), w3, []);
    Step(w1, Select(4, Feeder(), {4}), w2, [Commit(4, 241)] + []);
    Step(w0, Tick(241), w1, [Select(4, Feeder(), {4})] + ([Commit(4, 241)] + []));
    var tail := [Tick(241), Select(4, Feeder(), {4}), Commit(4, 241)];
    assert [Tick(241)] + ([Select(4, Feeder(), {4})] + ([Commit(4, 241)] + [])) == tail;
    TripRuns(tail);
  }
}
