/** How a confirmation comes to be recorded behind a later one: it is discarded while its request is under way. */
module OfflineStrays {
  import opened Common
  import opened SwitchingRules
  import opened SwitchingMachine
  import opened PlannedOutageTheorems
  import opened OfflineConfirmations
  import opened OfflineRuns
  import opened OfflineOrder
  import opened SampleOutage

  // ---- running on ----

  lemma {:induction false} Join(s: Sys, crew: Actor, a: seq<Act>, b: seq<Act>)
    requires PossibleRun(s, crew, a) && PossibleRun(After(s, crew, a), crew, b)
    ensures PossibleRun(s, crew, a + b) && After(s, crew, a + b) == After(After(s, crew, a), crew, b)
    decreases |a|
  {
    if a == [] {
      assert a + b == b;
    } else {
      assert (a + b)[0] == a[0] && (a + b)[1..] == a[1..] + b;
      hide Possible, Next;
      Join(Next(s, crew, a[0]), crew, a[1..], b);
    }
  }

  lemma One(s: Sys, crew: Actor, a: Act)
    requires Possible(s, crew, a)
    ensures PossibleRun(s, crew, [a]) && After(s, crew, [a]) == Next(s, crew, a)
  {
    hide Possible, Next;
    assert [a][1..] == [];
    assert PossibleRun(Next(s, crew, a), crew, []);
  }

  /** One more event at the end of a run. */
  lemma Then(s: Sys, crew: Actor, acts: seq<Act>, a: Act)
    requires PossibleRun(s, crew, acts) && Possible(After(s, crew, acts), crew, a)
    ensures PossibleRun(s, crew, acts + [a]) && After(s, crew, acts + [a]) == Next(After(s, crew, acts), crew, a)
  {
    hide Possible, Next, PossibleRun, After;
    One(After(s, crew, acts), crew, a);
    Join(s, crew, acts, [a]);
  }

  lemma Nothing(s: Sys, crew: Actor)
    ensures PossibleRun(s, crew, []) && After(s, crew, []) == s
  {
  }

  // ---- an outage whose first step is this crew's ----

  lemma Offered(crew: Actor)
    requires IsCrew(crew)
    ensures Offers(Announced(crew), crew, 0)
  {
    assert Find(Plan(crew, None), 0) == Some(0);
  }

  // ---- what others do at one outage ----

  function ByOthers(p: nat, cmds: seq<Cmd>): seq<Act> { seq(|cmds|, i requires 0 <= i < |cmds| => Elsewhere(p, cmds[i])) }

  ghost predicate AllOthers(stored: seq<Item>, cmds: seq<Cmd>) { forall i :: 0 <= i < |cmds| ==> Others(stored, cmds[i]) }

  /** The same phone, with another outage and log; what of this phone is recorded is the same. */
  ghost predicate SamePhone(s: Sys, s': Sys) {
    && s' == s.(servers := s'.servers, log := s'.log)
    && forall k :: 0 <= k < |s.stored| ==> (RecOf(s.stored[k]) in s'.log <==> RecOf(s.stored[k]) in s.log)
  }

  lemma AppliedSame(s: Sys, p: nat, cmd: Cmd)
    requires p in s.servers && Others(s.stored, cmd)
    ensures SamePhone(s, Applied(s, p, cmd)) && Applied(s, p, cmd).servers == s.servers[p := Apply(s.servers[p], cmd)]
  {
    forall k | 0 <= k < |s.stored| ensures RecOf(s.stored[k]) in Applied(s, p, cmd).log <==> RecOf(s.stored[k]) in s.log {
      hide Applied, Others;
      OthersRecord(s, p, cmd, k);
    }
    hide RecOf, Apply, Check, Others;
  }

  lemma ElsewhereSame(s: Sys, crew: Actor, p: nat, cmd: Cmd)
    requires PhoneInv(s) && p in s.servers && Others(s.stored, cmd)
    ensures Possible(s, crew, Elsewhere(p, cmd)) && Next(s, crew, Elsewhere(p, cmd)).servers == s.servers[p := Apply(s.servers[p], cmd)]
    ensures PhoneInv(Next(s, crew, Elsewhere(p, cmd))) && SamePhone(s, Next(s, crew, Elsewhere(p, cmd)))
  {
    hide PhoneInv, Applied, Others, SamePhone, Apply;
    ElsewhereKeeps(s, p, cmd);
    AppliedSame(s, p, cmd);
  }

  lemma AtFirst(p: nat, cmds: seq<Cmd>)
    requires cmds != []
    ensures ByOthers(p, cmds) == [Elsewhere(p, cmds[0])] + ByOthers(p, cmds[1..]) && cmds == [cmds[0]] + cmds[1..]
  {
  }

  lemma OthersFirst(stored: seq<Item>, cmds: seq<Cmd>)
    requires AllOthers(stored, cmds) && cmds != []
    ensures Others(stored, cmds[0]) && AllOthers(stored, cmds[1..])
  {
    hide Others;
  }

  lemma {:induction false} RunElsewhere(s: Sys, crew: Actor, p: nat, cmds: seq<Cmd>)
    requires PhoneInv(s) && p in s.servers && AllOthers(s.stored, cmds)
    ensures PossibleRun(s, crew, ByOthers(p, cmds))
    ensures var s' := After(s, crew, ByOthers(p, cmds)); PhoneInv(s') && SamePhone(s, s') && s'.servers == s.servers[p := RunOn(s.servers[p], cmds)]
    decreases |cmds|
  {
    if cmds != [] {
      hide *;
      AtFirst(p, cmds);
      OthersFirst(s.stored, cmds);
      ElsewhereSame(s, crew, p, cmds[0]);
      One(s, crew, Elsewhere(p, cmds[0]));
      var s1 := Next(s, crew, Elsewhere(p, cmds[0]));
      StillStored(s, s1);
      RunElsewhere(s1, crew, p, cmds[1..]);
      Join(s, crew, [Elsewhere(p, cmds[0])], ByOthers(p, cmds[1..]));
      SameAgain(s, s1, After(s1, crew, ByOthers(p, cmds[1..])));
      RunOnStep(s.servers[p], cmds[0], cmds[1..]);
    } else {
      hide PhoneInv, RecOf;
      assert s.servers[p := s.servers[p]] == s.servers;
    }
  }

  lemma StillStored(s: Sys, s': Sys)
    requires SamePhone(s, s')
    ensures s'.stored == s.stored && s'.fates == s.fates && s'.wire == s.wire && s'.phone == s.phone
  {
  }

  lemma SameAgain(s: Sys, s1: Sys, s2: Sys)
    requires SamePhone(s, s1) && SamePhone(s1, s2)
    ensures SamePhone(s, s2)
  {
    hide RecOf;
  }

  /** The server may still take this confirmation, after anything others might do. */
  ghost predicate Wanted(s: Sys, crew: Actor, h: nat) {
    h < |s.stored| && s.stored[h].outage in s.servers
    && exists cmds :: AllOthers(s.stored, cmds) && Check(RunOn(s.servers[s.stored[h].outage], cmds), ConfirmCmd(crew, s.stored[h], {})).Allowed?
  }

  lemma AllowedAnywhere(o: Outage, crew: Actor, item: Item, elsewhere: set<nat>)
    requires Check(o, ConfirmCmd(crew, item, {})).Allowed? && item.clientId !in elsewhere
    ensures Check(o, ConfirmCmd(crew, item, elsewhere)).Allowed?
  {
    hide CheckConfirmStep;
  }

  lemma UsedIsLogged(s: Sys, q: nat, id: nat)
    requires Books(s) && q in s.servers && id in UsedIn(s.servers[q].steps)
    ensures Rec(q, id) in s.log && exists x :: 0 <= x < |s.servers[q].log| && Is(s.servers[q].log[x], id)
  {
    var o := s.servers[q];
    var i :| 0 <= i < |o.steps| && o.steps[i].confirmation == Some(id);
    assert ServerFits(o);
    assert Logs(o.log, o.steps[i].id, id);
    var x :| 0 <= x < |o.log| && o.log[x] == Confirmed(o.steps[i].id, id);
    assert Is(o.log[x], id) && InLog(o.log, id);
  }

  /** No step of another outage carries this phone's client id. */
  lemma OwnIdUnused(s: Sys, k: nat)
    requires Books(s) && k < |s.stored|
    ensures s.stored[k].clientId !in Used(s.servers, s.stored[k].outage)
  {
    var id, p := s.stored[k].clientId, s.stored[k].outage;
    forall q | q in s.servers && q != p ensures id !in UsedIn(s.servers[q].steps) {
      if id in UsedIn(s.servers[q].steps) {
        UsedIsLogged(s, q, id);
        hide AllFit, OneLog, Distinct, UsedIn;
      }
    }
    hide Books, UsedIn;
  }

  // ---- a discarded confirmation not under way is never recorded ----

  ghost predicate Gone(s: Sys, h: nat) { h < |s.fates| && h < |s.stored| && h !in s.wire && RecOf(s.stored[h]) !in s.log }

  lemma GoneStep(s: Sys, crew: Actor, a: Act, h: nat)
    requires PhoneInv(s) && Possible(s, crew, a) && Gone(s, h)
    ensures Gone(Next(s, crew, a), h) && Next(s, crew, a).stored[h] == s.stored[h]
  {
    match a
    case SendHead(net) =>
      HeadIsStored(s);
      SameRequest(s, crew, s.phone[0], s.stored[|s.fates|]);
      ReachesKeeps(s, crew, |s.fates|);
      var there, on, answer := SendShape(s, crew, net);
      hide Reaches, PhoneInv, Deliver, Next, RecOf;
    case Arrive(k) =>
      ReachesKeeps(s, crew, k);
      ReachesLeaves(s, crew, s.stored[k]);
      hide Reaches, PhoneInv, RecOf;
    case Elsewhere(p, cmd) =>
      OthersRecord(s, p, cmd, h);
      hide PhoneInv, Apply, Check, RecOf;
    case _ => hide PhoneInv, Offers, Stored, Pending;
  }

  lemma {:induction false} GoneForGood(s: Sys, crew: Actor, acts: seq<Act>, h: nat)
    requires PhoneInv(s) && PossibleRun(s, crew, acts) && Gone(s, h)
    ensures Gone(After(s, crew, acts), h) && After(s, crew, acts).stored[h] == s.stored[h]
    decreases |acts|
  {
    if acts != [] {
      GoneStep(s, crew, acts[0], h);
      PhoneStep(s, crew, acts[0]);
      hide PhoneInv, Next, Possible, Gone;
      GoneForGood(Next(s, crew, acts[0]), crew, acts[1..], h);
    }
  }

  lemma {:induction false} StillLogged(o: Outage, cmds: seq<Cmd>, id: nat)
    requires ServerFits(o)
    ensures ServerFits(RunOn(o, cmds)) && (InLog(o.log, id) ==> InLog(RunOn(o, cmds).log, id))
    decreases |cmds|
  {
    if cmds != [] {
      ApplyFits(o, cmds[0]);
      ApplyGrows(o, cmds[0]);
      GrowsInLog(o, cmds[0], Apply(o, cmds[0]).log, id);
      hide Apply, ServerFits, InLog, Confirms, Grows;
      StillLogged(Apply(o, cmds[0]), cmds[1..], id);
    }
  }

  lemma WantedIsNew(s: Sys, crew: Actor, h: nat)
    requires PhoneInv(s) && Wanted(s, crew, h)
    ensures RecOf(s.stored[h]) !in s.log
  {
    var o, item := s.servers[s.stored[h].outage], s.stored[h];
    assert ServerFits(o) && (RecOf(item) in s.log <==> InLog(o.log, item.clientId));
    var cmds :| AllOthers(s.stored, cmds) && Check(RunOn(o, cmds), ConfirmCmd(crew, item, {})).Allowed?;
    StillLogged(o, cmds, item.clientId);
    hide PhoneInv, Check, Inv, StepsLogged, InLog;
    AllowedIsNew(RunOn(o, cmds), ConfirmCmd(crew, item, {}));
  }

  // ---- one under way can still be recorded behind a later one ----

  /** Some confirmation made after h is recorded. */
  ghost predicate LaterRecorded(s: Sys, h: nat) { exists j :: h < j < |s.stored| && RecOf(s.stored[j]) in s.log }

  /** What stays while the rest of the phone is dealt with: h is under way, and nothing happens at its outage. */
  ghost predicate Waits(s: Sys, h: nat, o: Outage) {
    && h < |s.fates| && h < |s.stored| && h in s.wire && RecOf(s.stored[h]) !in s.log
    && s.stored[h].outage in s.servers && s.servers[s.stored[h].outage] == o && !Pending(s.phone, s.stored[h].outage)
  }

  lemma OtherServer(s: Sys, crew: Actor, item: Item, p: nat)
    requires item.outage != p && p in s.servers
    ensures p in Reaches(s, crew, item).servers && Reaches(s, crew, item).servers[p] == s.servers[p]
  {
    hide Apply, Check;
  }

  /** The answer is 2xx or a refusal, never a failure to reach the server. */
  lemma Answered(s: Sys, crew: Actor)
    requires Possible(s, crew, SendHead(Reply))
    ensures There(s, crew, Reply) == Reaches(s, crew, s.phone[0])
    ensures var a := Deliver(s.servers, crew, s.phone[0], Reply).1;
      (a.Acknowledged? <==> !Asked(s.servers, crew, s.phone[0]).Rejected?) && (a.Failed? ==> !IsUnreachable(a.status))
  {
    hide Reaches, Asked;
  }

  /** What the send makes of the queue, given the answer. */
  lemma HeadSettles(on: Sys, a: Answer, h: nat, o: Outage, n: nat)
    requires Waits(on, h, o) && on.phone != [] && n == |on.fates| < |on.stored| && (a.Failed? ==> !IsUnreachable(a.status))
    requires a.Acknowledged? ==> RecOf(on.stored[n]) in on.log
    ensures var s' := Settled(on, a);
      Waits(s', h, o) && s'.stored == on.stored && (LaterRecorded(s', h) || (s'.phone != [] && s'.phone[0].rejected && |s'.phone| == |on.phone|))
  {
    FewerPending(on.phone, a, on.stored[h].outage);
    hide Pending, RecOf;
  }

  lemma WaitsOn(s: Sys, on: Sys, h: nat, o: Outage)
    requires Waits(s, h, o) && on == s.(servers := on.servers, log := on.log)
    requires s.stored[h].outage in on.servers && on.servers[s.stored[h].outage] == o && RecOf(s.stored[h]) !in on.log
    ensures Waits(on, h, o)
  {
    hide Pending, RecOf;
  }

  lemma ElsewhereHead(s: Sys, crew: Actor, h: nat, o: Outage)
    requires PhoneInv(s) && Waits(s, h, o) && Possible(s, crew, SendHead(Reply))
    ensures var s' := Next(s, crew, SendHead(Reply));
      && Waits(s', h, o) && s'.stored == s.stored
      && (LaterRecorded(s', h) || (s'.phone != [] && s'.phone[0].rejected && |s'.phone| == |s.phone|))
  {
    var n := |s.fates|;
    assert s.phone != [] && Frame(s) && h < n && h < |s.stored| && RecOf(s.stored[h]) !in s.log;
    assert s.stored[h].outage in s.servers && s.servers[s.stored[h].outage] == o;
    assert s.phone[0].outage != s.stored[h].outage by { assert Pending(s.phone, s.phone[0].outage); }
    hide *;
    HeadIsStored(s);
    SameRequest(s, crew, s.phone[0], s.stored[n]);
    AskedIffRecorded(s, crew, n);
    ReachesKeeps(s, crew, n);
    OtherServer(s, crew, s.phone[0], s.stored[h].outage);
    Answered(s, crew);
    var there, on, a := SendShape(s, crew, Reply);
    WaitsOn(s, on, h, o);
    HeadSettles(on, a, h, o, n);
  }

  lemma FewerPending(phone: seq<Item>, a: Answer, p: nat)
    requires phone != [] && !Pending(phone, p)
    ensures !Pending(Settle1(phone, a), p) && !Pending(phone[1..], p)
  {
    assert forall k :: 0 <= k < |phone| ==> phone[k].outage != p;
    assert forall k :: 0 <= k < |phone[1..]| ==> phone[1..][k] == phone[k + 1];
  }

  lemma DiscardWaits(s: Sys, crew: Actor, h: nat, o: Outage)
    requires PhoneInv(s) && Waits(s, h, o) && Possible(s, crew, Discard)
    ensures var s' := Next(s, crew, Discard); Waits(s', h, o) && s'.stored == s.stored && |s'.phone| < |s.phone|
  {
    FewerPending(s.phone, Acknowledged, s.stored[h].outage);
    hide PhoneInv, Pending;
  }

  /** The rest of the phone is sent: one of it is recorded, or none of it is left. */
  lemma {:induction false} Drain(s: Sys, crew: Actor, h: nat, o: Outage) returns (acts: seq<Act>)
    requires PhoneInv(s) && Waits(s, h, o)
    ensures PossibleRun(s, crew, acts)
    ensures var s' := After(s, crew, acts);
      PhoneInv(s') && Waits(s', h, o) && s'.stored == s.stored && (LaterRecorded(s', h) || s'.phone == [])
    decreases |s.phone|, s.phone != [] && !s.phone[0].rejected
  {
    hide PhoneInv, Waits, LaterRecorded;
    if s.phone == [] || LaterRecorded(s, h) {
      acts := [];
      Nothing(s, crew);
    } else {
      var a := if s.phone[0].rejected then Discard else SendHead(Reply);
      assert Possible(s, crew, a);
      PhoneStep(s, crew, a);
      if a.Discard? { DiscardWaits(s, crew, h, o); } else { ElsewhereHead(s, crew, h, o); }
      var s1 := Next(s, crew, a);
      hide Possible, Next;
      One(s, crew, a);
      if LaterRecorded(s1, h) {
        acts := [a];
      } else {
        var rest := Drain(s1, crew, h, o);
        Join(s, crew, [a], rest);
        acts := [a] + rest;
      }
    }
  }

  lemma {:induction false} FreshNumber(s: set<nat>) returns (n: nat)
    ensures n !in s && forall x :: x in s ==> x < n
    decreases s
  {
    if s == {} {
      n := 0;
    } else {
      var x :| x in s;
      n := FreshNumber(s - {x});
      assert forall y :: y in s ==> y == x || y in s - {x};
      if n <= x { n := x + 1; }
    }
  }

  lemma FreshId(s: Sys) returns (id: nat)
    ensures !Stored(s.stored, id) && forall q :: Rec(q, id) !in s.log
  {
    var used := (set k | 0 <= k < |s.stored| :: s.stored[k].clientId) + (set x | 0 <= x < |s.log| :: s.log[x].clientId);
    id := FreshNumber(used);
    forall x | 0 <= x < |s.log| ensures s.log[x].clientId != id { assert s.log[x].clientId in used; }
    forall k | 0 <= k < |s.stored| ensures s.stored[k].clientId != id { assert s.stored[k].clientId in used; }
  }

  lemma CreateSame(s: Sys, crew: Actor, q: nat)
    requires PhoneInv(s) && q !in s.servers
    ensures Possible(s, crew, Create(q)) && Next(s, crew, Create(q)).servers == s.servers[q := Init()]
    ensures PhoneInv(Next(s, crew, Create(q))) && SamePhone(s, Next(s, crew, Create(q)))
  {
    PhoneStep(s, crew, Create(q));
    hide PhoneInv, RecOf;
  }

  lemma NothingConfirmed(stored: seq<Item>, crew: Actor)
    ensures AllOthers(stored, Preparing(crew))
  {
  }

  /** An outage is planned and announced. */
  lemma SetUp(s: Sys, crew: Actor, q: nat) returns (acts: seq<Act>)
    requires PhoneInv(s) && q !in s.servers && crew.crewId.Some?
    ensures acts == [Create(q)] + ByOthers(q, Preparing(crew))
    ensures PossibleRun(s, crew, acts)
    ensures var s' := After(s, crew, acts); PhoneInv(s') && SamePhone(s, s') && s'.servers == s.servers[q := Announced(crew)]
  {
    hide *;
    var cmds := Preparing(crew);
    NothingConfirmed(s.stored, crew);
    Prepared(crew);
    CreateSame(s, crew, q);
    var s1 := Next(s, crew, Create(q));
    StillStored(s, s1);
    One(s, crew, Create(q));
    RunElsewhere(s1, crew, q, cmds);
    Join(s, crew, [Create(q)], ByOthers(q, cmds));
    acts := [Create(q)] + ByOthers(q, cmds);
    SameAgain(s, s1, After(s, crew, acts));
    assert s1.servers[q := Announced(crew)] == s.servers[q := Announced(crew)];
  }

  /** The phone has loaded the outage and the crew has ticked its first step. */
  lemma Made(s: Sys, crew: Actor, q: nat, id: nat)
    requires PhoneInv(s) && IsCrew(crew) && q in s.servers && s.servers[q] == Announced(crew) && !Pending(s.phone, q)
    requires !Stored(s.stored, id) && forall p :: Rec(p, id) !in s.log
    ensures Possible(s, crew, Load(q)) && Possible(Next(s, crew, Load(q)), crew, Record(id, q, 0, Announced(crew)))
    ensures var s' := Next(Next(s, crew, Load(q)), crew, Record(id, q, 0, Announced(crew))); var item := Item(id, q, 0, false, 0);
      && PhoneInv(s')
      && s' == s.(seen := s.seen + {(q, Announced(crew))}, phone := s.phone + [item], stored := s.stored + [item], bases := s.bases + [Announced(crew)])
  {
    var load, rec := Load(q), Record(id, q, 0, Announced(crew));
    PhoneStep(s, crew, load);
    Offered(crew);
    hide PhoneInv, Offers, Announced, Stored, Pending;
    PhoneStep(Next(s, crew, load), crew, rec);
  }

  /** And it is sent, from the head. */
  lemma Sent(s: Sys, crew: Actor, q: nat, id: nat)
    requires PhoneInv(s) && IsCrew(crew) && q in s.servers && s.servers[q] == Announced(crew)
    requires s.phone == [Item(id, q, 0, false, 0)] && s.stored != [] && s.stored[|s.stored| - 1] == s.phone[0]
    ensures Possible(s, crew, SendHead(Reply)) && |s.fates| == |s.stored| - 1
    ensures var s' := Next(s, crew, SendHead(Reply)); var n := |s.stored| - 1;
      && PhoneInv(s') && s'.phone == [] && s'.stored == s.stored && s'.wire == s.wire && s'.fates == s.fates + [Acked]
      && (forall p :: p in s.servers && p != q ==> p in s'.servers && s'.servers[p] == s.servers[p])
      && RecOf(s.stored[n]) in s'.log
      && (forall k :: 0 <= k < n ==> (RecOf(s.stored[k]) in s'.log <==> RecOf(s.stored[k]) in s.log))
  {
    var n, send := |s.stored| - 1, SendHead(Reply);
    assert |s.fates| == n by { hide Books, Reached; }
    assert Possible(s, crew, send);
    hide *;
    Accepted(s, crew, q, id);
    PhoneStep(s, crew, send);
    AskedIffRecorded(s, crew, n);
    ReachesKeeps(s, crew, n);
    forall p | p in s.servers && p != q ensures p in Reaches(s, crew, s.phone[0]).servers && Reaches(s, crew, s.phone[0]).servers[p] == s.servers[p] {
      OtherServer(s, crew, s.phone[0], p);
    }
    Answered(s, crew);
    var there, on, a := SendShape(s, crew, Reply);
    LastSettles(on, a);
  }

  lemma LastSettles(on: Sys, a: Answer)
    requires |on.phone| == 1 && a.Acknowledged?
    ensures Settled(on, a) == on.(phone := [], fates := on.fates + [Acked])
  {
  }

  /** One confirmation more, made and recorded; nothing else of this phone or of the other outages has changed. */
  ghost predicate OneMore(s: Sys, s': Sys, item: Item) {
    && s'.wire == s.wire && s'.stored == s.stored + [item] && s.fates <= s'.fates && s'.phone == []
    && (forall p :: p in s.servers && p != item.outage ==> p in s'.servers && s'.servers[p] == s.servers[p])
    && RecOf(item) in s'.log
    && (forall k :: 0 <= k < |s.stored| ==> (RecOf(s.stored[k]) in s'.log <==> RecOf(s.stored[k]) in s.log))
  }

  lemma NowOneMore(s: Sys, s2: Sys, s3: Sys, item: Item)
    requires s2 == s.(seen := s2.seen, phone := s2.phone, stored := s.stored + [item], bases := s2.bases)
    requires s3.phone == [] && s3.stored == s2.stored && s3.wire == s2.wire && s3.fates == s2.fates + [Acked]
    requires forall p :: p in s2.servers && p != item.outage ==> p in s3.servers && s3.servers[p] == s2.servers[p]
    requires RecOf(s2.stored[|s.stored|]) in s3.log
    requires forall k :: 0 <= k < |s.stored| ==> (RecOf(s2.stored[k]) in s3.log <==> RecOf(s2.stored[k]) in s2.log)
    ensures OneMore(s, s3, item)
  {
    hide RecOf;
    assert forall k :: 0 <= k < |s.stored| ==> s2.stored[k] == s.stored[k];
  }

  /** A confirmation made for such an outage while the phone is empty, and sent. */
  lemma MadeAndSent(s: Sys, crew: Actor, q: nat, id: nat) returns (acts: seq<Act>)
    requires PhoneInv(s) && IsCrew(crew) && q in s.servers && s.servers[q] == Announced(crew) && s.phone == []
    requires !Stored(s.stored, id) && forall p :: Rec(p, id) !in s.log
    ensures PossibleRun(s, crew, acts)
    ensures PhoneInv(After(s, crew, acts)) && OneMore(s, After(s, crew, acts), Item(id, q, 0, false, 0))
  {
    var load, rec, send := Load(q), Record(id, q, 0, Announced(crew)), SendHead(Reply);
    assert !Pending(s.phone, q);
    hide *;
    Made(s, crew, q, id);
    var s2 := Next(Next(s, crew, load), crew, rec);
    assert s2.phone == [Item(id, q, 0, false, 0)];
    Sent(s2, crew, q, id);
    NowOneMore(s, s2, Next(s2, crew, send), Item(id, q, 0, false, 0));
    Three(s, crew, load, rec, send);
    acts := [load, rec, send];
  }

  lemma Three(s: Sys, crew: Actor, a: Act, b: Act, c: Act)
    requires Possible(s, crew, a) && Possible(Next(s, crew, a), crew, b) && Possible(Next(Next(s, crew, a), crew, b), crew, c)
    ensures PossibleRun(s, crew, [a, b, c]) && After(s, crew, [a, b, c]) == Next(Next(Next(s, crew, a), crew, b), crew, c)
  {
    hide Possible, Next;
    One(s, crew, a);
    Then(s, crew, [a], b);
    Then(s, crew, [a] + [b], c);
    assert [a] + [b] + [c] == [a, b, c];
  }

  /** A fresh confirmation of an announced outage's first step is accepted. */
  lemma Accepted(s: Sys, crew: Actor, q: nat, id: nat)
    requires PhoneInv(s) && IsCrew(crew) && q in s.servers && s.servers[q] == Announced(crew)
    requires s.phone != [] && s.phone[0] == Item(id, q, 0, false, 0) && s.stored != [] && s.stored[|s.stored| - 1] == s.phone[0]
    ensures Asked(s.servers, crew, s.phone[0]).Allowed?
  {
    assert Books(s);
    hide PhoneInv, Announced;
    OwnIdUnused(s, |s.stored| - 1);
    Opening(crew, id, Used(s.servers, q), NoticeLog());
    hide Used, Check, Apply;
  }

  /** Whatever else waits on the phone, some confirmation made after h can be recorded before its request arrives. */
  lemma LaterOne(s: Sys, crew: Actor, h: nat, o: Outage) returns (acts: seq<Act>)
    requires PhoneInv(s) && IsCrew(crew) && Waits(s, h, o)
    ensures PossibleRun(s, crew, acts)
    ensures var s' := After(s, crew, acts);
      PhoneInv(s') && Waits(s', h, o) && s.stored <= s'.stored && LaterRecorded(s', h)
  {
    hide PhoneInv, PossibleRun, After, LaterRecorded, Waits, SamePhone, RecOf;
    var first := Drain(s, crew, h, o);
    var s1 := After(s, crew, first);
    if LaterRecorded(s1, h) {
      acts := first;
    } else {
      var q := FreshNumber(s1.servers.Keys);
      var second := SetUp(s1, crew, q);
      var s2 := After(s1, crew, second);
      Join(s, crew, first, second);
      StillStored(s1, s2);
      var id := FreshId(s2);
      var third := MadeAndSent(s2, crew, q, id);
      Join(s, crew, first + second, third);
      acts := first + second + third;
      NowLater(s1, s2, After(s2, crew, third), h, o, crew, Item(id, q, 0, false, 0));
      AppendExtends(s.stored, Item(id, q, 0, false, 0));
    }
  }

  lemma AppendExtends(stored: seq<Item>, item: Item)
    ensures stored <= stored + [item]
  {
  }

  lemma NowLater(s1: Sys, s2: Sys, s3: Sys, h: nat, o: Outage, crew: Actor, item: Item)
    requires Waits(s1, h, o) && SamePhone(s1, s2) && item.outage !in s1.servers && s2.servers == s1.servers[item.outage := Announced(crew)]
    requires OneMore(s2, s3, item)
    ensures Waits(s3, h, o) && LaterRecorded(s3, h) && s3.stored == s1.stored + [item]
  {
    hide RecOf, Announced;
    assert s3.stored[h] == s1.stored[h] && s2.stored[h] == s1.stored[h];
    assert s3.stored[|s1.stored|] == item;
  }

  lemma AcceptedLate(s: Sys, crew: Actor, h: nat)
    requires Books(s) && h < |s.stored| && s.stored[h].outage in s.servers
    requires Check(s.servers[s.stored[h].outage], ConfirmCmd(crew, s.stored[h], {})).Allowed?
    ensures Reaches(s, crew, s.stored[h]).log == s.log + [RecOf(s.stored[h])]
  {
    var item := s.stored[h];
    OwnIdUnused(s, h);
    AllowedAnywhere(s.servers[item.outage], crew, item, Used(s.servers, item.outage));
    hide Check, Apply, Used, Books;
  }

  lemma WaitsSays(s: Sys, crew: Actor, h: nat, o: Outage)
    requires PhoneInv(s) && Waits(s, h, o)
    ensures Books(s) && h < |s.stored| && s.stored[h].outage in s.servers && s.servers[s.stored[h].outage] == o
    ensures Possible(s, crew, Arrive(h)) && Next(s, crew, Arrive(h)) == Reaches(s, crew, s.stored[h])
  {
    hide Books, Reached, Frame, Pending, RecOf, Reaches;
  }

  /** The late request arrives behind it. */
  lemma ArrivesBehind(s: Sys, crew: Actor, h: nat, o: Outage)
    requires PhoneInv(s) && Waits(s, h, o) && LaterRecorded(s, h) && Check(o, ConfirmCmd(crew, s.stored[h], {})).Allowed?
    ensures Possible(s, crew, Arrive(h)) && Behind(Next(s, crew, Arrive(h)), h)
  {
    var j :| h < j < |s.stored| && RecOf(s.stored[j]) in s.log;
    hide *;
    WaitsSays(s, crew, h, o);
    AcceptedLate(s, crew, h);
    ReachesLeaves(s, crew, s.stored[h]);
    LastBehind(s, Next(s, crew, Arrive(h)), h, j);
  }

  lemma LastBehind(s: Sys, s': Sys, h: nat, j: nat)
    requires h < j < |s.stored| && s'.stored == s.stored && s'.log == s.log + [RecOf(s.stored[h])] && RecOf(s.stored[j]) in s.log
    ensures Behind(s', h)
  {
    hide RecOf;
    var x :| 0 <= x < |s.log| && s.log[x] == RecOf(s.stored[j]);
    assert s'.log[x] == s.log[x] && s'.log[|s.log|] == RecOf(s.stored[h]);
    assert RecordedBefore(s', j, h);
  }

  /** Confirmation h is recorded behind one made after it. */
  ghost predicate Behind(s: Sys, h: nat) { exists j :: h < j < |s.stored| && RecordedBefore(s, j, h) }

  ghost predicate CanFallBehind(s: Sys, crew: Actor, h: nat) {
    exists acts :: PossibleRun(s, crew, acts) && Behind(After(s, crew, acts), h)
  }

  lemma DiscardStart(s: Sys, crew: Actor)
    requires PhoneInv(s) && Possible(s, crew, Discard) && Wanted(s, crew, |s.fates|)
    ensures var s1, h := Next(s, crew, Discard), |s.fates|;
      && PhoneInv(s1) && h < |s.stored| && s.stored[h].outage in s.servers && !Pending(s1.phone, s.stored[h].outage)
      && s1.stored == s.stored && s1.servers == s.servers && s1.log == s.log && s1.wire == s.wire && |s1.fates| == h + 1
  {
    PhoneStep(s, crew, Discard);
    hide Books, Reached, Check;
  }

  lemma NowWaits(s1: Sys, s2: Sys, h: nat, p: nat, o: Outage)
    requires SamePhone(s1, s2) && h < |s1.fates| && h < |s1.stored| && h in s1.wire && RecOf(s1.stored[h]) !in s1.log && s1.stored[h].outage == p
    requires p in s1.servers && s2.servers == s1.servers[p := o] && !Pending(s1.phone, p)
    ensures Waits(s2, h, o)
  {
    hide RecOf, Pending;
  }

  lemma StrayFallsBehind(s: Sys, crew: Actor)
    requires PhoneInv(s) && IsCrew(crew) && Possible(s, crew, Discard) && Wanted(s, crew, |s.fates|) && |s.fates| in s.wire
    ensures CanFallBehind(Next(s, crew, Discard), crew, |s.fates|)
  {
    var h, s1 := |s.fates|, Next(s, crew, Discard);
    WantedIsNew(s, crew, h);
    DiscardStart(s, crew);
    var item := s.stored[h];
    var p := item.outage;
    var cmds :| AllOthers(s.stored, cmds) && Check(RunOn(s.servers[p], cmds), ConfirmCmd(crew, item, {})).Allowed?;
    hide *;
    RunElsewhere(s1, crew, p, cmds);
    var o, s2 := RunOn(s.servers[p], cmds), After(s1, crew, ByOthers(p, cmds));
    NowWaits(s1, s2, h, p, o);
    StillStored(s1, s2);
    var rest := LaterOne(s2, crew, h, o);
    var s3 := After(s2, crew, rest);
    assert s3.stored[h] == item;
    ArrivesBehind(s3, crew, h, o);
    Join(s1, crew, ByOthers(p, cmds), rest);
    Then(s1, crew, ByOthers(p, cmds) + rest, Arrive(h));
    CanBy(s1, crew, ByOthers(p, cmds) + rest + [Arrive(h)], h);
  }

  lemma CanBy(s: Sys, crew: Actor, acts: seq<Act>, h: nat)
    requires PossibleRun(s, crew, acts) && Behind(After(s, crew, acts), h)
    ensures CanFallBehind(s, crew, h)
  {
    hide Behind, PossibleRun, After;
  }

  /** The crew discards a refused confirmation that the server might still take: it can come to be recorded behind a later one
    * exactly if a request for it is still under way; otherwise it is never recorded at all. */
  lemma DiscardExactly(s: Sys, crew: Actor)
    requires PhoneInv(s) && IsCrew(crew) && Possible(s, crew, Discard) && Wanted(s, crew, |s.fates|)
    ensures CanFallBehind(Next(s, crew, Discard), crew, |s.fates|) <==> |s.fates| in s.wire
    ensures |s.fates| !in s.wire ==> forall acts :: PossibleRun(Next(s, crew, Discard), crew, acts) ==>
      RecOf(s.stored[|s.fates|]) !in After(Next(s, crew, Discard), crew, acts).log
  {
    var h, s1 := |s.fates|, Next(s, crew, Discard);
    if h in s.wire {
      StrayFallsBehind(s, crew);
    } else {
      WantedIsNew(s, crew, h);
      PhoneStep(s, crew, Discard);
      assert Gone(s1, h) && s1.stored == s.stored;
      hide PhoneInv, Possible, Next, Wanted;
      forall acts | PossibleRun(s1, crew, acts)
        ensures RecOf(s.stored[h]) !in After(s1, crew, acts).log && !Behind(After(s1, crew, acts), h)
      {
        GoneForGood(s1, crew, acts, h);
        hide RecOf, PossibleRun, After;
      }
    }
  }
}
