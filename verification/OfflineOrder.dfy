/** In which order a phone's confirmations come to be recorded: within an outage always the crew's own, across outages unless
  * one was discarded while its request was under way.
  */
module OfflineOrder {
  import opened Common
  import opened SwitchingRules
  import opened SwitchingMachine
  import opened PlannedOutageTheorems
  import opened OfflineConfirmations
  import opened OfflineRuns

  // ---- how a plan moves on ----

  /** The same plan, with whatever was confirmed still confirmed. */
  ghost predicate SamePlan(a: seq<Step>, b: seq<Step>) {
    |a| == |b| && forall k :: 0 <= k < |a| ==> b[k] == a[k].(confirmation := b[k].confirmation) && (Done(a[k]) ==> b[k] == a[k])
  }

  ghost predicate AllFrom(steps: seq<Step>, id: nat) { forall k :: 0 <= k < |steps| ==> id <= steps[k].id }

  /** One request: the plan is the same, or a new one with ids never used before. */
  ghost predicate Moves(o: Outage, o': Outage) {
    o.nextStepId <= o'.nextStepId && (SamePlan(o.steps, o'.steps) || AllFrom(o'.steps, o.nextStepId))
  }

  ghost predicate NoneOf(a: seq<Step>, b: seq<Step>) { forall k, m :: 0 <= k < |a| && 0 <= m < |b| ==> a[k].id != b[m].id }

  /** What has become of a plan seen earlier. */
  ghost predicate Evolved(v: Outage, o: Outage) {
    v.nextStepId <= o.nextStepId && (SamePlan(v.steps, o.steps) || NoneOf(v.steps, o.steps))
  }

  /** The step is confirmed, or of a plan that has been replaced: it can never be confirmed again. */
  ghost predicate Dead(o: Outage, id: nat) {
    id < o.nextStepId && forall k :: 0 <= k < |o.steps| && o.steps[k].id == id ==> Done(o.steps[k])
  }

  lemma EffectMoves(o: Outage, cmd: Cmd)
    requires Check(o, cmd).Allowed?
    ensures Moves(o, Effect(o, cmd))
  {
    hide CheckDraftSteps, AllDone, AnyDone, PredecessorsDone, StepIdTaken, AnyOpen, NoneDone;
  }

  lemma ApplyMoves(o: Outage, cmd: Cmd)
    ensures Moves(o, Apply(o, cmd))
  {
    if Check(o, cmd).Allowed? { EffectMoves(o, cmd); }
    assert Moves(o, Changed(o, cmd));
    hide Check, Changed, Conclude;
    ConcludeSettles(Check(o, cmd), o, Changed(o, cmd));
  }

  lemma EvolvedMoves(v: Outage, o: Outage, o': Outage)
    requires Evolved(v, o) && Moves(o, o') && Ids(v)
    ensures Evolved(v, o')
  {
  }

  lemma DeadStays(o: Outage, o': Outage, id: nat)
    requires Dead(o, id) && Moves(o, o')
    ensures Dead(o', id)
  {
  }

  lemma DeadRefuses(o: Outage, cmd: Cmd)
    requires cmd.Confirm? && Dead(o, cmd.step)
    ensures !Confirms(o, cmd)
  {
    hide AllDone, AnyDone, PredecessorsDone, StepIdTaken, AnyOpen;
  }

  lemma LoggedIsDead(o: Outage, x: nat)
    requires ServerFits(o) && x < |o.log| && o.log[x].Confirmed?
    ensures Dead(o, o.log[x].step)
  {
    assert Carries(o.steps, o.log[x].step, o.log[x].clientId);
    assert Ids(o);
    hide Inv, LogHolds, StepsLogged;
  }

  // ---- two steps offered are never both open ----

  lemma {:induction false} CountedTwice(steps: seq<Step>, phase: Phase, i: nat, j: nat)
    requires i < |steps| && j < |steps| && i != j
    requires steps[i].phase == phase && steps[j].phase == phase && steps[i].seq_ == steps[j].seq_
    ensures Seqs(steps, phase)[steps[i].seq_] >= 2
  {
    if i == 0 || j == 0 {
      var k := if i == 0 then j else i;
      CountedOnce(steps[1..], phase, k - 1);
      assert steps[1..][k - 1] == steps[k];
    } else {
      assert steps[1..][i - 1] == steps[i] && steps[1..][j - 1] == steps[j];
      CountedTwice(steps[1..], phase, i - 1, j - 1);
    }
  }

  lemma {:induction false} CountedOnce(steps: seq<Step>, phase: Phase, i: nat)
    requires i < |steps| && steps[i].phase == phase
    ensures Seqs(steps, phase)[steps[i].seq_] >= 1
  {
    if i > 0 {
      assert steps[1..][i - 1] == steps[i];
      CountedOnce(steps[1..], phase, i - 1);
    }
  }

  lemma {:induction false} OneOfEach(n: nat, x: int)
    ensures OneTo(n)[x] == if 1 <= x <= n then 1 else 0
  {
    if n > 0 { OneOfEach(n - 1, x); }
  }

  /** In an approved plan one of any two steps comes before the other. */
  lemma OneIsFirst(steps: seq<Step>, i: nat, j: nat)
    requires CheckDraftSteps(steps).Allowed? && i < |steps| && j < |steps| && i != j
    ensures Before(steps[i], steps[j]) || Before(steps[j], steps[i])
  {
    var phase := steps[i].phase;
    assert Numbered(steps, phase);
    if steps[j].phase == phase && steps[i].seq_ == steps[j].seq_ {
      CountedTwice(steps, phase, i, j);
      OneOfEach(|Seqs(steps, phase)|, steps[i].seq_);
    }
  }

  /** Where an offered step stands, and that all before it is done. */
  lemma OfferedNext(v: Outage, crew: Actor, id: nat) returns (at: nat)
    requires Inv(v) && Offers(v, crew, id)
    ensures at < |v.steps| && v.steps[at].id == id && v.plan == Approved && CheckDraftSteps(v.steps).Allowed?
    ensures forall k :: 0 <= k < |v.steps| && Before(v.steps[k], v.steps[at]) ==> Done(v.steps[k])
  {
    at := Find(v.steps, id).value;
    assert PlanFits(v);
    hide Inv, CheckDraftSteps, AnyOpen, StepIdTaken;
  }

  lemma GoneIsDead(v: Outage, o: Outage, i: nat)
    requires Ids(v) && i < |v.steps| && v.nextStepId <= o.nextStepId && NoneOf(v.steps, o.steps)
    ensures Dead(o, v.steps[i].id)
  {
  }

  lemma DoneIsDead(o: Outage, i: nat)
    requires Ids(o) && i < |o.steps| && Done(o.steps[i])
    ensures Dead(o, o.steps[i].id)
  {
  }

  /** Two steps offered, whenever: by now one of them is done, or its plan gone. */
  lemma OfferedApart(v: Outage, a: nat, w: Outage, b: nat, o: Outage, crew: Actor)
    requires Inv(v) && Evolved(v, o) && Offers(v, crew, a)
    requires Inv(w) && Evolved(w, o) && Offers(w, crew, b)
    requires Ids(o) && a != b
    ensures Dead(o, a) || Dead(o, b)
  {
    var i := OfferedNext(v, crew, a);
    var j := OfferedNext(w, crew, b);
    assert Ids(v) && Ids(w);
    assert SamePlan(v.steps, o.steps) ==> i < |o.steps| && o.steps[i].id == a;
    assert SamePlan(w.steps, o.steps) ==> j < |o.steps| && o.steps[j].id == b;
    hide Inv, Offers, Before, CheckDraftSteps, SamePlan, NoneOf, Dead, Ids;
    if NoneOf(v.steps, o.steps) {
      GoneIsDead(v, o, i);
    } else if NoneOf(w.steps, o.steps) {
      GoneIsDead(w, o, j);
    } else {
      SameOrder(v.steps, w.steps, o.steps, i, j);
      if Done(o.steps[i]) { DoneIsDead(o, i); } else { DoneIsDead(o, j); }
    }
  }

  lemma SameOrder(v: seq<Step>, w: seq<Step>, o: seq<Step>, i: nat, j: nat)
    requires SamePlan(v, o) && SamePlan(w, o) && i < |o| && j < |o| && i != j && CheckDraftSteps(v).Allowed?
    requires forall k :: 0 <= k < |v| && Before(v[k], v[i]) ==> Done(v[k])
    requires forall k :: 0 <= k < |w| && Before(w[k], w[j]) ==> Done(w[k])
    ensures Done(o[i]) || Done(o[j])
  {
    OneIsFirst(v, i, j);
    hide CheckDraftSteps;
    assert Before(v[i], v[j]) == Before(w[i], w[j]) && Before(v[j], v[i]) == Before(w[j], w[i]);
    if Before(v[j], v[i]) { assert Done(v[j]); } else { assert Done(w[i]); }
  }

  // ---- what every run keeps ----

  ghost predicate ViewOk(servers: map<nat, Outage>, p: nat, v: Outage) { p in servers && Inv(v) && Evolved(v, servers[p]) }

  ghost predicate SeenOk(seen: set<(nat, Outage)>, servers: map<nat, Outage>) { forall x :: x in seen ==> ViewOk(servers, x.0, x.1) }

  /** Each confirmation was made for a step offered in an earlier state of its outage. */
  ghost predicate BasesOk(stored: seq<Item>, bases: seq<Outage>, servers: map<nat, Outage>, crew: Actor) {
    |bases| == |stored| && forall k :: 0 <= k < |stored| ==> ViewOk(servers, stored[k].outage, bases[k]) && Offers(bases[k], crew, stored[k].step)
  }

  /** Of two confirmations of one outage the first can no longer be recorded, or the second never will be, unless both are
    * for one step. */
  ghost predicate PairOk(o: Outage, log: seq<Rec>, a: Item, b: Item) {
    a.step == b.step || Dead(o, a.step) || (Dead(o, b.step) && RecOf(b) !in log)
  }

  ghost predicate PairsOk(stored: seq<Item>, servers: map<nat, Outage>, log: seq<Rec>) {
    forall i, j :: 0 <= i < j < |stored| && stored[i].outage == stored[j].outage && stored[i].outage in servers ==>
      PairOk(servers[stored[i].outage], log, stored[i], stored[j])
  }

  /** Recorded in the order they were made, except a stray behind one of another outage. */
  ghost predicate OrderOk(stored: seq<Item>, strays: set<nat>, log: seq<Rec>) {
    forall x, y, i, j :: 0 <= x < y < |log| && 0 <= i < |stored| && 0 <= j < |stored| && log[x] == RecOf(stored[i]) && log[y] == RecOf(stored[j]) ==>
      i < j || (stored[i].outage != stored[j].outage && j in strays)
  }

  ghost predicate StraysOk(wire: set<nat>, fates: seq<Fate>, strays: set<nat>) {
    forall k :: k in wire && k < |fates| && fates[k] == Discarded ==> k in strays
  }

  ghost predicate History(s: Sys, crew: Actor) {
    && SeenOk(s.seen, s.servers) && BasesOk(s.stored, s.bases, s.servers, crew)
    && PairsOk(s.stored, s.servers, s.log) && OrderOk(s.stored, s.strays, s.log) && StraysOk(s.wire, s.fates, s.strays)
  }

  ghost predicate OrderInv(s: Sys, crew: Actor) { PhoneInv(s) && History(s, crew) }

  lemma ViewsMove(s: Sys, crew: Actor, p: nat, o': Outage)
    requires SeenOk(s.seen, s.servers) && BasesOk(s.stored, s.bases, s.servers, crew) && p in s.servers && Moves(s.servers[p], o')
    ensures SeenOk(s.seen, s.servers[p := o']) && BasesOk(s.stored, s.bases, s.servers[p := o'], crew)
  {
    forall q, v | ViewOk(s.servers, q, v) ensures ViewOk(s.servers[p := o'], q, v) {
      assert Ids(v);
      hide Inv, Moves, Evolved;
      if q == p { EvolvedMoves(v, s.servers[p], o'); }
    }
    hide ViewOk, Offers;
  }

  lemma PairMoves(o: Outage, o': Outage, log: seq<Rec>, log': seq<Rec>, a: Item, b: Item)
    requires PairOk(o, log, a, b) && Moves(o, o') && (RecOf(b) in log' ==> RecOf(b) in log || !Dead(o, b.step))
    ensures PairOk(o', log', a, b)
  {
    hide Dead, Moves;
    if Dead(o, a.step) { DeadStays(o, o', a.step); }
    if Dead(o, b.step) { DeadStays(o, o', b.step); }
  }

  /** A request at some outage, of which the log may grow by its own confirmation. */
  lemma PairsMove(s: Sys, p: nat, cmd: Cmd)
    requires PairsOk(s.stored, s.servers, s.log) && p in s.servers && Proper(s.stored, p, cmd)
    ensures var s' := Applied(s, p, cmd); PairsOk(s.stored, s'.servers, s'.log)
  {
    var o, s' := s.servers[p], Applied(s, p, cmd);
    ApplyMoves(o, cmd);
    assert s'.servers == s.servers[p := Apply(o, cmd)];
    hide Apply, Moves, Dead, PairOk;
    forall i, j | 0 <= i < j < |s.stored| && s.stored[i].outage == s.stored[j].outage && s.stored[i].outage in s'.servers
      ensures PairOk(s'.servers[s.stored[i].outage], s'.log, s.stored[i], s.stored[j])
    {
      var a, b := s.stored[i], s.stored[j];
      DeadNotRecorded(s, p, cmd, j);
      hide Applied, Proper, PairsOk;
      if a.outage == p { PairMoves(o, Apply(o, cmd), s.log, s'.log, a, b); } else { SamePair(s.servers[a.outage], s.log, s'.log, a, b); }
    }
  }

  lemma SamePair(o: Outage, log: seq<Rec>, log': seq<Rec>, a: Item, b: Item)
    requires PairOk(o, log, a, b) && (RecOf(b) in log' ==> RecOf(b) in log || !Dead(o, b.step))
    ensures PairOk(o, log', a, b)
  {
    hide Dead;
  }

  lemma DeadNotRecorded(s: Sys, p: nat, cmd: Cmd, j: nat)
    requires p in s.servers && Proper(s.stored, p, cmd) && j < |s.stored| && s.stored[j].outage in s.servers
    ensures RecOf(s.stored[j]) in Applied(s, p, cmd).log ==> RecOf(s.stored[j]) in s.log || !Dead(s.servers[s.stored[j].outage], s.stored[j].step)
  {
    var item := s.stored[j];
    Appended(s, p, cmd, item.outage, item.clientId);
    if cmd.Confirm? && item.outage == p && cmd.step == item.step && Dead(s.servers[p], item.step) { DeadRefuses(s.servers[p], cmd); }
    assert Confirms(s.servers[p], cmd) ==> cmd.Confirm? && cmd.clientId.Given?;
    hide Applied, Dead, Confirms;
  }

  lemma OrderAppend(stored: seq<Item>, strays: set<nat>, log: seq<Rec>, j: nat)
    requires OrderOk(stored, strays, log) && j < |stored|
    requires forall k :: 0 <= k < |stored| && RecOf(stored[k]) == RecOf(stored[j]) ==> k == j
    requires forall i :: 0 <= i < |stored| && RecOf(stored[i]) in log ==> i < j || (stored[i].outage != stored[j].outage && j in strays)
    ensures OrderOk(stored, strays, log + [RecOf(stored[j])])
  {
    hide RecOf;
  }

  lemma OrderSkip(stored: seq<Item>, strays: set<nat>, log: seq<Rec>, r: Rec)
    requires OrderOk(stored, strays, log) && forall k :: 0 <= k < |stored| ==> RecOf(stored[k]) != r
    ensures OrderOk(stored, strays, log + [r])
  {
    hide RecOf;
  }

  /** A confirmation newly recorded comes behind what was made before it, or it is a stray behind others of other outages. */
  lemma NewInOrder(s: Sys, crew: Actor, j: nat, i: nat)
    requires OrderInv(s, crew) && j < |s.stored| && (j == |s.fates| || j in s.wire) && i < |s.stored|
    requires s.stored[j].outage in s.servers && Confirms(s.servers[s.stored[j].outage], CmdFor(s.servers, crew, s.stored[j]))
    requires RecOf(s.stored[i]) in s.log
    ensures i < j || (s.stored[i].outage != s.stored[j].outage && j in s.strays)
  {
    var p := s.stored[j].outage;
    NotYetRecorded(s, crew, j);
    assert i != j && i <= |s.fates|;
    if i > j {
      assert j in s.strays;
      if s.stored[i].outage == p {
        RecordedIsDead(s, i);
        assert PairOk(s.servers[p], s.log, s.stored[j], s.stored[i]);
        if Dead(s.servers[p], s.stored[j].step) { DeadRefuses(s.servers[p], CmdFor(s.servers, crew, s.stored[j])); }
      }
    }
  }

  lemma NotYetRecorded(s: Sys, crew: Actor, j: nat)
    requires PhoneInv(s) && j < |s.stored| && s.stored[j].outage in s.servers
    requires Confirms(s.servers[s.stored[j].outage], CmdFor(s.servers, crew, s.stored[j]))
    ensures RecOf(s.stored[j]) !in s.log
  {
    AskedIffRecorded(s, crew, j);
    hide Reaches, PhoneInv;
  }

  lemma RecordedIsDead(s: Sys, i: nat)
    requires Books(s) && i < |s.stored| && RecOf(s.stored[i]) in s.log
    ensures s.stored[i].outage in s.servers && Dead(s.servers[s.stored[i].outage], s.stored[i].step)
  {
    var p := s.stored[i].outage;
    assert p in s.servers && InLog(s.servers[p].log, s.stored[i].clientId);
    var x :| 0 <= x < |s.servers[p].log| && s.servers[p].log[x].Confirmed? && s.servers[p].log[x].clientId == s.stored[i].clientId;
    assert Is(s.servers[p].log[x], s.stored[i].clientId);
    assert ServerFits(s.servers[p]);
    hide ServerFits, OneLog, Distinct, Dead;
    LoggedIsDead(s.servers[p], x);
  }

  /** One of this phone's requests reaches the server. */
  lemma ReachesHistory(s: Sys, crew: Actor, j: nat)
    requires OrderInv(s, crew) && j < |s.stored| && (j == |s.fates| || j in s.wire)
    ensures History(Reaches(s, crew, s.stored[j]), crew)
  {
    var item := s.stored[j];
    var p, s' := item.outage, Reaches(s, crew, item);
    ReachesLeaves(s, crew, item);
    if p in s.servers {
      var cmd := CmdFor(s.servers, crew, item);
      OwnIsProper(s, crew, j);
      ApplyMoves(s.servers[p], cmd);
      assert s'.servers == s.servers[p := Apply(s.servers[p], cmd)];
      assert s'.log == if Confirms(s.servers[p], cmd) then s.log + [RecOf(item)] else s.log;
      hide Apply, Check, Moves, SeenOk, BasesOk;
      ViewsMove(s, crew, p, Apply(s.servers[p], cmd));
      PairsMove(s, p, cmd);
      OwnOrder(s, crew, j);
      hide PairsOk, OrderOk, StraysOk, PhoneInv, Confirms;
    }
  }

  lemma OwnOrder(s: Sys, crew: Actor, j: nat)
    requires OrderInv(s, crew) && j < |s.stored| && (j == |s.fates| || j in s.wire) && s.stored[j].outage in s.servers
    ensures Confirms(s.servers[s.stored[j].outage], CmdFor(s.servers, crew, s.stored[j])) ==>
      OrderOk(s.stored, s.strays, s.log + [RecOf(s.stored[j])])
  {
    if Confirms(s.servers[s.stored[j].outage], CmdFor(s.servers, crew, s.stored[j])) {
      assert OrderOk(s.stored, s.strays, s.log) && DistinctIds(s.stored);
      hide OrderInv, Confirms, CmdFor;
      forall i | 0 <= i < |s.stored| && RecOf(s.stored[i]) in s.log
        ensures i < j || (s.stored[i].outage != s.stored[j].outage && j in s.strays)
      {
        NewInOrder(s, crew, j, i);
      }
      OnlyOne(s.stored, j);
      hide DistinctIds;
      OrderAppend(s.stored, s.strays, s.log, j);
    }
  }

  lemma OnlyOne(stored: seq<Item>, j: nat)
    requires DistinctIds(stored) && j < |stored|
    ensures forall k :: 0 <= k < |stored| && RecOf(stored[k]) == RecOf(stored[j]) ==> k == j
  {
  }

  lemma OthersOrder(s: Sys, p: nat, cmd: Cmd)
    requires OrderOk(s.stored, s.strays, s.log) && p in s.servers && Others(s.stored, cmd)
    ensures OrderOk(s.stored, s.strays, Applied(s, p, cmd).log)
  {
    if Confirms(s.servers[p], cmd) {
      assert forall k :: 0 <= k < |s.stored| ==> Stored(s.stored, s.stored[k].clientId);
      assert Applied(s, p, cmd).log == s.log + [Rec(p, cmd.clientId.value)];
      hide Applied, Confirms, Stored, OrderOk;
      OrderSkip(s.stored, s.strays, s.log, Rec(p, cmd.clientId.value));
    }
  }

  lemma ElsewhereHistory(s: Sys, crew: Actor, p: nat, cmd: Cmd)
    requires OrderInv(s, crew) && p in s.servers && Others(s.stored, cmd)
    ensures History(Applied(s, p, cmd), crew)
  {
    OthersAreProper(s.stored, p, cmd);
    ApplyMoves(s.servers[p], cmd);
    hide Check, Moves, SeenOk, BasesOk, PhoneInv, Others;
    ViewsMove(s, crew, p, Apply(s.servers[p], cmd));
    PairsMove(s, p, cmd);
    OthersOrder(s, p, cmd);
    hide Apply, PairsOk, OrderOk, StraysOk;
  }

  lemma LoadHistory(s: Sys, crew: Actor, p: nat)
    requires OrderInv(s, crew) && p in s.servers
    ensures History(Next(s, crew, Load(p)), crew)
  {
    assert ServerFits(s.servers[p]);
    assert ViewOk(s.servers, p, s.servers[p]);
    hide ViewOk, ServerFits, BasesOk, PairsOk, OrderOk, StraysOk;
  }

  lemma RecordPairs(s: Sys, crew: Actor, item: Item, view: Outage)
    requires BasesOk(s.stored, s.bases, s.servers, crew) && PairsOk(s.stored, s.servers, s.log)
    requires ViewOk(s.servers, item.outage, view) && Offers(view, crew, item.step) && RecOf(item) !in s.log && AllFit(s.servers)
    ensures PairsOk(s.stored + [item], s.servers, s.log)
  {
    var o := s.servers[item.outage];
    assert Ids(o) by { assert ServerFits(o); }
    hide Inv, Evolved, Offers, Dead, AllFit;
    forall i | 0 <= i < |s.stored| && s.stored[i].outage == item.outage ensures PairOk(o, s.log, s.stored[i], item) {
      if s.stored[i].step != item.step { OfferedApart(s.bases[i], s.stored[i].step, view, item.step, o, crew); }
    }
    hide PairOk, ViewOk;
  }

  lemma RecordOrder(stored: seq<Item>, strays: set<nat>, log: seq<Rec>, item: Item)
    requires OrderOk(stored, strays, log) && RecOf(item) !in log
    ensures OrderOk(stored + [item], strays, log)
  {
    hide RecOf;
  }

  lemma RecordBases(s: Sys, crew: Actor, item: Item, view: Outage)
    requires BasesOk(s.stored, s.bases, s.servers, crew) && ViewOk(s.servers, item.outage, view) && Offers(view, crew, item.step)
    ensures BasesOk(s.stored + [item], s.bases + [view], s.servers, crew)
  {
    hide ViewOk, Offers;
  }

  lemma SeenView(s: Sys, p: nat, view: Outage)
    requires SeenOk(s.seen, s.servers) && (p, view) in s.seen
    ensures ViewOk(s.servers, p, view)
  {
    hide ViewOk;
  }

  lemma RecordHistory(s: Sys, crew: Actor, a: Act)
    requires OrderInv(s, crew) && a.Record? && Possible(s, crew, a)
    ensures History(Next(s, crew, a), crew)
  {
    var item := Item(a.clientId, a.outage, a.step, false, 0);
    assert AllFit(s.servers) by { hide AllFit; }
    hide ViewOk, Offers, AllFit, PhoneInv, SeenOk, BasesOk, PairsOk, OrderOk, StraysOk, Stored, Pending;
    SeenView(s, a.outage, a.view);
    RecordBases(s, crew, item, a.view);
    RecordPairs(s, crew, item, a.view);
    RecordOrder(s.stored, s.strays, s.log, item);
  }

  lemma CreateViews(s: Sys, crew: Actor, p: nat, o: Outage)
    requires SeenOk(s.seen, s.servers) && BasesOk(s.stored, s.bases, s.servers, crew) && p !in s.servers
    ensures SeenOk(s.seen, s.servers[p := o]) && BasesOk(s.stored, s.bases, s.servers[p := o], crew)
    ensures forall i :: 0 <= i < |s.stored| ==> s.stored[i].outage in s.servers
  {
    forall q, v | ViewOk(s.servers, q, v) ensures ViewOk(s.servers[p := o], q, v) && q in s.servers { hide Inv, Evolved; }
    hide ViewOk, Offers;
  }

  lemma CreatePairs(stored: seq<Item>, servers: map<nat, Outage>, log: seq<Rec>, p: nat, o: Outage)
    requires PairsOk(stored, servers, log) && p !in servers && forall i :: 0 <= i < |stored| ==> stored[i].outage in servers
    ensures PairsOk(stored, servers[p := o], log)
  {
    hide PairOk;
  }

  lemma CreateHistory(s: Sys, crew: Actor, p: nat)
    requires OrderInv(s, crew) && Possible(s, crew, Create(p))
    ensures History(Next(s, crew, Create(p)), crew)
  {
    hide PhoneInv, SeenOk, BasesOk, PairsOk, OrderOk, StraysOk;
    CreateViews(s, crew, p, Init());
    CreatePairs(s.stored, s.servers, s.log, p, Init());
  }

  lemma DiscardHistory(s: Sys, crew: Actor)
    requires History(s, crew) && Possible(s, crew, Discard)
    ensures History(Next(s, crew, Discard), crew)
  {
    hide SeenOk, BasesOk, PairsOk, RecOf;
  }

  lemma HistorySame(s: Sys, s': Sys, crew: Actor)
    requires History(s, crew) && s' == s.(phone := s'.phone, fates := s'.fates, wire := s'.wire)
    requires StraysOk(s'.wire, s'.fates, s'.strays)
    ensures History(s', crew)
  {
    hide SeenOk, BasesOk, PairsOk, OrderOk, StraysOk;
  }

  lemma HeadReaches(s: Sys, crew: Actor)
    requires OrderInv(s, crew) && s.phone != []
    ensures History(Reaches(s, crew, s.phone[0]), crew)
  {
    var h := |s.fates|;
    HeadIsStored(s);
    hide OrderInv, History, Reaches;
    SameRequest(s, crew, s.phone[0], s.stored[h]);
    ReachesHistory(s, crew, h);
  }

  lemma SettledStrays(wire: set<nat>, fates: seq<Fate>, strays: set<nat>, net: Net, a: Answer)
    requires StraysOk(wire, fates, strays)
    ensures StraysOk(if net.NoRequest? then wire + {|fates|} else wire, if a.Acknowledged? then fates + [Acked] else fates, strays)
  {
  }

  lemma SendHistory(s: Sys, crew: Actor, net: Net)
    requires OrderInv(s, crew) && Possible(s, crew, SendHead(net))
    ensures History(Next(s, crew, SendHead(net)), crew)
  {
    hide Reaches, Deliver, Next, PhoneInv, There, SeenOk, BasesOk, PairsOk, OrderOk, StraysOk, Settle1;
    HeadReaches(s, crew);
    var there, on, a := SendShape(s, crew, net);
    SettledStrays(s.wire, s.fates, s.strays, net, a);
    hide History;
    ThereHistory(s, crew, net);
    HistorySame(there, Settled(on, a), crew);
  }

  lemma ThereHistory(s: Sys, crew: Actor, net: Net)
    requires s.phone != [] && History(s, crew) && History(Reaches(s, crew, s.phone[0]), crew)
    ensures History(There(s, crew, net), crew)
  {
  }

  lemma OrderStep(s: Sys, crew: Actor, a: Act)
    requires OrderInv(s, crew) && Possible(s, crew, a)
    ensures OrderInv(Next(s, crew, a), crew)
  {
    PhoneStep(s, crew, a);
    match a
    case Load(p) => LoadHistory(s, crew, p);
    case Record(_, _, _, _) => RecordHistory(s, crew, a);
    case Discard => DiscardHistory(s, crew);
    case SendHead(net) => SendHistory(s, crew, net);
    case Arrive(k) => ReachesHistory(s, crew, k);
    case Lose(k) => hide SeenOk, BasesOk, PairsOk, OrderOk, PhoneInv;
    case Create(p) => CreateHistory(s, crew, p);
    case Elsewhere(p, cmd) => ElsewhereHistory(s, crew, p, cmd);
  }

  lemma {:induction false} OrderRun(s: Sys, crew: Actor, acts: seq<Act>)
    requires OrderInv(s, crew) && PossibleRun(s, crew, acts)
    ensures OrderInv(After(s, crew, acts), crew)
    decreases |acts|
  {
    if acts != [] {
      OrderStep(s, crew, acts[0]);
      hide OrderInv, Next, Possible;
      OrderRun(Next(s, crew, acts[0]), crew, acts[1..]);
    }
  }

  lemma FromStart(crew: Actor, acts: seq<Act>)
    requires PossibleRun(Start(), crew, acts)
    ensures OrderInv(After(Start(), crew, acts), crew)
  {
    assert OrderInv(Start(), crew) by { hide Inv; }
    hide OrderInv, Start;
    OrderRun(Start(), crew, acts);
  }

  // ---- the promises ----

  /** Confirmation i was recorded before confirmation j. */
  ghost predicate RecordedBefore(s: Sys, i: nat, j: nat)
    requires i < |s.stored| && j < |s.stored|
  {
    exists x, y :: 0 <= x < y < |s.log| && s.log[x] == RecOf(s.stored[i]) && s.log[y] == RecOf(s.stored[j])
  }

  lemma OrderSays(s: Sys, i: nat, j: nat)
    requires OrderOk(s.stored, s.strays, s.log) && Distinct(s.log) && i < |s.stored| && j < |s.stored| && RecordedBefore(s, i, j)
    ensures i != j && (i < j || (s.stored[i].outage != s.stored[j].outage && j in s.strays))
  {
    hide RecOf;
  }

  /** Through any pattern of lost, late and repeated requests, lost replies, refusals, discards, kills and other people's work
    * at any number of outages: within an outage the confirmations are recorded in the order the crew made them. */
  lemma InOrderWithinAnOutage(crew: Actor, acts: seq<Act>, i: nat, j: nat)
    requires PossibleRun(Start(), crew, acts)
    requires var s := After(Start(), crew, acts);
      i < |s.stored| && j < |s.stored| && s.stored[i].outage == s.stored[j].outage && RecordedBefore(s, i, j)
    ensures i < j
  {
    FromStart(crew, acts);
    hide After, Frame, AllFit, OneLog, OwnSteps, Reached, SeenOk, BasesOk, PairsOk, StraysOk, OrderOk, RecordedBefore, Distinct;
    OrderSays(After(Start(), crew, acts), i, j);
  }

  /** And across outages too, except behind a confirmation that the crew discarded while its request was under way: for each
    * two recorded out of order, the one recorded late was, and the other is for another outage. */
  lemma OnlyStraysAreOvertaken(crew: Actor, acts: seq<Act>, i: nat, j: nat)
    requires PossibleRun(Start(), crew, acts)
    requires var s := After(Start(), crew, acts); j <= i < |s.stored| && RecordedBefore(s, i, j)
    ensures var s := After(Start(), crew, acts);
      j < i && j in s.strays && s.stored[i].outage != s.stored[j].outage
  {
    FromStart(crew, acts);
    hide After, Frame, AllFit, OneLog, OwnSteps, Reached, SeenOk, BasesOk, PairsOk, StraysOk, OrderOk, RecordedBefore, Distinct;
    OrderSays(After(Start(), crew, acts), i, j);
  }

  ghost predicate InOrder(s: Sys) {
    forall i, j :: 0 <= i < |s.stored| && 0 <= j < |s.stored| && RecordedBefore(s, i, j) ==> i < j
  }

  /** The log is out of order exactly if a stray was recorded behind one made after it. */
  lemma InOrderExactly(crew: Actor, acts: seq<Act>)
    requires PossibleRun(Start(), crew, acts)
    ensures var s := After(Start(), crew, acts);
      InOrder(s) <==> forall j, i :: j in s.strays && j < i < |s.stored| && s.stored[i].outage != s.stored[j].outage ==> !RecordedBefore(s, i, j)
  {
    var s := After(Start(), crew, acts);
    hide After, RecordedBefore;
    forall i: nat, j: nat | i < |s.stored| && j <= i && RecordedBefore(s, i, j) ensures j < i && j in s.strays && s.stored[i].outage != s.stored[j].outage {
      OnlyStraysAreOvertaken(crew, acts, i, j);
    }
  }
}
