/** Two outages on one phone: a discarded confirmation of the first is recorded behind one of the second. */
module OfflineExamples {
  import opened Common
  import opened SwitchingRules
  import opened SwitchingMachine
  import opened OfflineConfirmations
  import opened OfflineRuns
  import opened OfflineOrder
  import opened OfflineStrays
  import opened SampleOutage

  /** Outages 0 and 1 are planned and announced. */
  function TwoOutages(): seq<Act> { ([Create(0)] + ByOthers(0, Preparing(CREW))) + ([Create(1)] + ByOthers(1, Preparing(CREW))) }

  /** The crew ticks the first step of outage 0, then of outage 1, with no signal. */
  function TwoTicked(): seq<Act> {
    ([Load(0)] + [Record(5, 0, 0, Announced(CREW))]) + ([Load(1)] + [Record(6, 1, 0, Announced(CREW))])
  }

  /** The first is sent and delayed, then turned away (401), and discarded; the second is sent; then the first arrives. */
  function OneDelayed(): seq<Act> {
    [SendHead(NoRequest)] + [SendHead(TurnedAway(401))] + [Discard] + [SendHead(Reply)] + [Arrive(0)]
  }

  lemma NothingRecorded(s: Sys)
    requires Books(s) && forall p :: p in s.servers ==> s.servers[p] == Announced(CREW)
    ensures forall q, id :: Rec(q, id) !in s.log
  {
    assert forall x :: 0 <= x < |Announced(CREW).log| ==> !Announced(CREW).log[x].Confirmed?;
    hide AllFit, OwnSteps, Announced;
  }

  lemma Begins(acts: seq<Act>)
    requires acts == TwoOutages()
    ensures PossibleRun(Start(), CREW, acts)
    ensures var s := After(Start(), CREW, acts);
      && PhoneInv(s) && SamePhone(Start(), s) && s.servers == map[0 := Announced(CREW), 1 := Announced(CREW)]
  {
    assert PhoneInv(Start());
    hide *;
    var a := SetUp(Start(), CREW, 0);
    var s1 := After(Start(), CREW, a);
    var b := SetUp(s1, CREW, 1);
    Join(Start(), CREW, a, b);
    SameAgain(Start(), s1, After(s1, CREW, b));
    assert s1.servers == map[0 := Announced(CREW)];
    Both(a, b, acts);
  }

  lemma Both(a: seq<Act>, b: seq<Act>, acts: seq<Act>)
    requires a == [Create(0)] + ByOthers(0, Preparing(CREW)) && b == [Create(1)] + ByOthers(1, Preparing(CREW)) && acts == TwoOutages()
    ensures acts == a + b
  {
  }

  /** Both on the phone, nothing sent. */
  ghost predicate Ticked(s: Sys) {
    var a, b := Item(5, 0, 0, false, 0), Item(6, 1, 0, false, 0);
    && s.phone == s.stored == [a, b] && s.fates == [] && s.wire == {} && s.strays == {}
    && s.servers == map[0 := Announced(CREW), 1 := Announced(CREW)]
  }

  ghost predicate BothAnnounced(s: Sys) {
    && s.phone == s.stored == [] && s.bases == [] && s.fates == [] && s.wire == {} && s.strays == {}
    && s.servers == map[0 := Announced(CREW), 1 := Announced(CREW)] && forall q, id :: Rec(q, id) !in s.log
  }

  lemma Ready(s: Sys)
    requires PhoneInv(s) && SamePhone(Start(), s) && s.servers == map[0 := Announced(CREW), 1 := Announced(CREW)]
    ensures BothAnnounced(s)
  {
    Parts(s);
    hide PhoneInv, Announced, Books, RecOf;
    NothingRecorded(s);
  }

  /** The first step of outage q ticked. */
  lemma Tick(s: Sys, q: nat, id: nat) returns (s': Sys)
    requires PhoneInv(s) && q in s.servers && s.servers[q] == Announced(CREW) && !Pending(s.phone, q)
    requires !Stored(s.stored, id) && forall p :: Rec(p, id) !in s.log
    ensures var acts := [Load(q)] + [Record(id, q, 0, Announced(CREW))]; PossibleRun(s, CREW, acts) && s' == After(s, CREW, acts)
    ensures var item := Item(id, q, 0, false, 0);
      PhoneInv(s') && s' == s.(seen := s'.seen, phone := s.phone + [item], stored := s.stored + [item], bases := s'.bases)
  {
    assert IsCrew(CREW);
    hide *;
    Made(s, CREW, q, id);
    One(s, CREW, Load(q));
    Then(s, CREW, [Load(q)], Record(id, q, 0, Announced(CREW)));
    s' := After(s, CREW, [Load(q)] + [Record(id, q, 0, Announced(CREW))]);
  }

  lemma Ticking(s: Sys)
    requires PhoneInv(s) && BothAnnounced(s)
    ensures PossibleRun(s, CREW, TwoTicked())
    ensures PhoneInv(After(s, CREW, TwoTicked())) && Ticked(After(s, CREW, TwoTicked()))
  {
    hide PhoneInv, Announced, After, PossibleRun;
    var s2 := Tick(s, 0, 5);
    assert s2.phone == s2.stored == [Item(5, 0, 0, false, 0)];
    var s4 := Tick(s2, 1, 6);
    Join(s, CREW, [Load(0)] + [Record(5, 0, 0, Announced(CREW))], [Load(1)] + [Record(6, 1, 0, Announced(CREW))]);
  }

  /** The first given up, its request under way. */
  ghost predicate GivenUp(s: Sys) {
    var a, b := Item(5, 0, 0, false, 0), Item(6, 1, 0, false, 0);
    && s.phone == [b] && s.stored == [a, b] && s.fates == [Discarded] && s.wire == {0} && s.strays == {0}
    && s.servers == map[0 := Announced(CREW), 1 := Announced(CREW)]
  }

  lemma GivingUp(s: Sys) returns (s3: Sys)
    requires PhoneInv(s) && Ticked(s)
    ensures Possible(s, CREW, SendHead(NoRequest)) && Possible(Next(s, CREW, SendHead(NoRequest)), CREW, SendHead(TurnedAway(401)))
    ensures Possible(Next(Next(s, CREW, SendHead(NoRequest)), CREW, SendHead(TurnedAway(401))), CREW, Discard)
    ensures s3 == Next(Next(Next(s, CREW, SendHead(NoRequest)), CREW, SendHead(TurnedAway(401))), CREW, Discard)
    ensures PhoneInv(s3) && GivenUp(s3)
  {
    hide PhoneInv, Announced, Check, Apply;
    PhoneStep(s, CREW, SendHead(NoRequest));
    var s1 := Next(s, CREW, SendHead(NoRequest));
    assert s1.phone[0] == Item(5, 0, 0, false, 1) && s1.wire == {0};
    PhoneStep(s1, CREW, SendHead(TurnedAway(401)));
    var s2 := Next(s1, CREW, SendHead(TurnedAway(401)));
    assert s2.phone[0].rejected && s2.phone[1..] == [Item(6, 1, 0, false, 0)];
    PhoneStep(s2, CREW, Discard);
    s3 := Next(s2, CREW, Discard);
  }

  lemma StraysKept(s: Sys)
    requires Possible(s, CREW, SendHead(Reply))
    ensures Next(s, CREW, SendHead(Reply)).strays == s.strays
  {
    var there, on, a := SendShape(s, CREW, Reply);
    hide Reaches, Next, Deliver;
  }

  lemma ArriveIs(s: Sys, k: nat)
    requires k in s.wire && k < |s.stored|
    ensures Possible(s, CREW, Arrive(k)) && Next(s, CREW, Arrive(k)) == Reaches(s, CREW, s.stored[k])
  {
    hide Reaches;
  }

  lemma FirstStillTaken(item: Item)
    requires item == Item(5, 0, 0, false, 0)
    ensures Check(Announced(CREW), ConfirmCmd(CREW, item, {})).Allowed? && IsCrew(CREW)
  {
    Opening(CREW, 5, {}, NoticeLog());
    hide Check, Apply, Announced;
  }

  lemma ArrivingLate(s: Sys) returns (u: Sys)
    requires PhoneInv(s) && GivenUp(s)
    ensures Possible(s, CREW, SendHead(Reply)) && Possible(Next(s, CREW, SendHead(Reply)), CREW, Arrive(0))
    ensures u == Next(Next(s, CREW, SendHead(Reply)), CREW, Arrive(0))
    ensures u.stored == s.stored && u.strays == {0} && Behind(u, 0)
  {
    assert s.phone == [Item(6, 1, 0, false, 0)] && s.stored == [Item(5, 0, 0, false, 0), s.phone[0]] && s.wire == {0} && s.strays == {0};
    assert s.servers[0] == Announced(CREW) && s.servers[1] == Announced(CREW);
    hide *;
    FirstStillTaken(s.stored[0]);
    Sent(s, CREW, 1, 6);
    StraysKept(s);
    var s1 := Next(s, CREW, SendHead(Reply));
    assert s1.stored == s.stored && s1.wire == {0} && 0 in s1.servers && s1.servers[0] == Announced(CREW);
    Parts(s1);
    AcceptedLate(s1, CREW, 0);
    ReachesLeaves(s1, CREW, s1.stored[0]);
    ArriveIs(s1, 0);
    u := Next(s1, CREW, Arrive(0));
    LastBehind(s1, u, 0, 1);
  }

  lemma Parts(s: Sys)
    requires PhoneInv(s)
    ensures Books(s)
  {
    hide Frame, Books, Reached;
  }

  /** Of two outages, neither of whose steps was ever confirmed out of its plan's order: the crew's first confirmation is
    * recorded second. */
  lemma RecordedBehind()
    ensures var acts := TwoOutages() + TwoTicked() + OneDelayed();
      && PossibleRun(Start(), CREW, acts)
      && (var s := After(Start(), CREW, acts);
          s.stored == [Item(5, 0, 0, false, 0), Item(6, 1, 0, false, 0)] && s.strays == {0} && Behind(s, 0))
  {
    hide *;
    var s0 := Start();
    Begins(TwoOutages());
    var s1 := After(s0, CREW, TwoOutages());
    Ready(s1);
    Ticking(s1);
    var s2 := After(s1, CREW, TwoTicked());
    Join(s0, CREW, TwoOutages(), TwoTicked());
    var s3 := GivingUp(s2);
    var u := ArrivingLate(s3);
    Delayed(s2);
    Join(s0, CREW, TwoOutages() + TwoTicked(), OneDelayed());
    StoredThen(s3);
  }

  lemma StoredThen(s: Sys)
    requires GivenUp(s)
    ensures s.stored == [Item(5, 0, 0, false, 0), Item(6, 1, 0, false, 0)]
  {
  }

  lemma Delayed(s: Sys)
    requires Possible(s, CREW, SendHead(NoRequest)) && var s1 := Next(s, CREW, SendHead(NoRequest));
      Possible(s1, CREW, SendHead(TurnedAway(401))) && var s2 := Next(s1, CREW, SendHead(TurnedAway(401)));
      Possible(s2, CREW, Discard) && var s3 := Next(s2, CREW, Discard);
      Possible(s3, CREW, SendHead(Reply)) && Possible(Next(s3, CREW, SendHead(Reply)), CREW, Arrive(0))
    ensures PossibleRun(s, CREW, OneDelayed())
    ensures After(s, CREW, OneDelayed())
      == Next(Next(Next(Next(Next(s, CREW, SendHead(NoRequest)), CREW, SendHead(TurnedAway(401))), CREW, Discard), CREW, SendHead(Reply)), CREW, Arrive(0))
  {
    hide Possible, Next, PossibleRun, After;
    var a, b, c, d, e := SendHead(NoRequest), SendHead(TurnedAway(401)), Discard, SendHead(Reply), Arrive(0);
    One(s, CREW, a);
    Then(s, CREW, [a], b);
    Then(s, CREW, [a] + [b], c);
    Then(s, CREW, [a] + [b] + [c], d);
    Then(s, CREW, [a] + [b] + [c] + [d], e);
  }
}
