/** What the crew and the control room can rely on (src/lib/plannedOutage.js, src/lib/safetyStore.js). */
module OfflineTheorems {
  import opened Common
  import opened SwitchingRules
  import opened SwitchingMachine
  import opened OfflineConfirmations
  import opened OfflineRuns

  lemma PhoneFromStart(crew: Actor, acts: seq<Act>)
    requires PossibleRun(Start(), crew, acts)
    ensures PhoneInv(After(Start(), crew, acts))
  {
    assert PhoneInv(Start());
    hide PhoneInv, Start;
    PhoneRun(Start(), crew, acts);
  }

  /** Whatever is lost, late or repeated: no confirmation, of anybody, is recorded twice; everything the phone dropped as
    * acknowledged is recorded; and nothing behind the phone's head is. */
  lemma RecordedOnce(crew: Actor, acts: seq<Act>)
    requires PossibleRun(Start(), crew, acts)
    ensures var s := After(Start(), crew, acts);
      && Distinct(s.log) && |s.fates| + |s.phone| == |s.stored|
      && (forall k :: 0 <= k < |s.fates| && s.fates[k] == Acked ==> RecOf(s.stored[k]) in s.log)
      && (forall k :: |s.fates| < k < |s.stored| ==> RecOf(s.stored[k]) !in s.log)
  {
    PhoneFromStart(crew, acts);
    hide After, AllFit, OneLog, OwnSteps, DistinctIds, Wired, Distinct, RecOf;
  }

  /** Each recorded confirmation is the one made for that step of that outage. */
  lemma RecordedAsMade(crew: Actor, acts: seq<Act>, k: nat, p: nat, x: nat)
    requires PossibleRun(Start(), crew, acts)
    requires var s := After(Start(), crew, acts);
      k < |s.stored| && p in s.servers && x < |s.servers[p].log| && Is(s.servers[p].log[x], s.stored[k].clientId)
    ensures var s := After(Start(), crew, acts);
      p == s.stored[k].outage && s.servers[p].log[x].step == s.stored[k].step && RecOf(s.stored[k]) in s.log
  {
    PhoneFromStart(crew, acts);
    hide After, AllFit, Frame, Reached, Distinct;
  }

  /** A confirmation leaves the phone only after the server recorded it, or by the crew discarding a refused one. */
  lemma LeavesOnlyRecordedOrDiscarded(s: Sys, crew: Actor, a: Act)
    requires PhoneInv(s) && Possible(s, crew, a) && s.phone != []
    ensures var s' := Next(s, crew, a);
      (s'.phone != [] && s'.phone[0].clientId == s.phone[0].clientId)
      || (a.Discard? && s.phone[0].rejected)
      || (a.SendHead? && RecOf(s.phone[0]) in s'.log)
  {
    if a.SendHead? {
      ThereKeeps(s, crew, a.net);
      HeadIsStored(s);
      var there, on, answer := SendShape(s, crew, a.net);
      hide There, Reaches, Deliver, Next, PhoneInv;
    } else if a.Arrive? {
      ReachesLeaves(s, crew, s.stored[a.k]);
      hide Reaches, PhoneInv;
    } else {
      hide PhoneInv, Apply, Check;
    }
  }

  lemma BlockedStep(s: Sys, crew: Actor, a: Act)
    requires s.phone != [] && s.phone[0].rejected && Possible(s, crew, a) && !a.Discard?
    ensures var s' := Next(s, crew, a);
      s'.phone != [] && s'.phone[0] == s.phone[0] && s'.fates == s.fates && s.stored <= s'.stored
  {
    if a.Arrive? { ReachesLeaves(s, crew, s.stored[a.k]); }
    hide Reaches, Apply, Check;
  }

  /** A refused confirmation at the head blocks everything behind it, of whatever outage, until the crew discards it. */
  lemma {:induction false} RefusedHeadBlocks(s: Sys, crew: Actor, acts: seq<Act>, k: nat)
    requires PhoneInv(s) && s.phone != [] && s.phone[0].rejected && PossibleRun(s, crew, acts) && |s.fates| < k < |s.stored|
    requires forall a :: a in acts ==> !a.Discard?
    ensures var s' := After(s, crew, acts);
      && s'.phone != [] && s'.phone[0] == s.phone[0]
      && k < |s'.stored| && s'.stored[k] == s.stored[k] && RecOf(s.stored[k]) !in s'.log
    decreases |acts|
  {
    if acts != [] {
      BlockedStep(s, crew, acts[0]);
      PhoneStep(s, crew, acts[0]);
      hide PhoneInv, Next, Possible;
      RefusedHeadBlocks(Next(s, crew, acts[0]), crew, acts[1..], k);
    } else {
      hide Frame, Books;
    }
  }

  /** When does a send mark as refused a confirmation that the server holds? Exactly when it is turned away, with a
    * status the phone takes for a refusal, after an earlier send reached the server and only its reply was lost. A
    * refusal by the safety rules always means the server does not hold it. */
  lemma RefusedYetRecorded(s: Sys, crew: Actor, net: Net)
    requires PhoneInv(s) && Possible(s, crew, SendHead(net))
    ensures var s', item := Next(s, crew, SendHead(net)), s.phone[0];
      (s'.phone != [] && s'.phone[0].clientId == item.clientId && s'.phone[0].rejected && RecOf(item) in s'.log)
      <==> (net.TurnedAway? && !IsUnreachable(Some(net.status)) && RecOf(item) in s.log)
  {
    var h := |s.fates|;
    HeadIsStored(s);
    SameRequest(s, crew, s.phone[0], s.stored[h]);
    AskedIffRecorded(s, crew, h);
    var there, on, a := SendShape(s, crew, net);
    assert |s.phone| > 1 ==> s.phone[1].clientId != s.phone[0].clientId;
    assert Asked(s.servers, crew, s.phone[0]).Rejected? ==> RecOf(s.phone[0]) !in Reaches(s, crew, s.phone[0]).log;
    hide Reaches, Asked, Next, PhoneInv, RecOf;
  }

  lemma ReplyLost(s: Sys, crew: Actor) returns (s1: Sys)
    requires PhoneInv(s) && s.phone != [] && !s.phone[0].rejected && Asked(s.servers, crew, s.phone[0]).Allowed?
    ensures Possible(s, crew, SendHead(NoReply)) && s1 == Next(s, crew, SendHead(NoReply))
    ensures RecOf(s.phone[0]) in s1.log && s1.phone != [] && s1.phone[0] == s.phone[0].(attempts := s.phone[0].attempts + 1)
  {
    HeadIsStored(s);
    SameRequest(s, crew, s.phone[0], s.stored[|s.fates|]);
    AskedIffRecorded(s, crew, |s.fates|);
    var there, on, _ := SendShape(s, crew, NoReply);
    s1 := Next(s, crew, SendHead(NoReply));
    hide PhoneInv, Reaches, Asked, RecOf, Next;
  }

  lemma LoginExpired(s: Sys, crew: Actor) returns (s1: Sys)
    requires s.phone != [] && !s.phone[0].rejected
    ensures Possible(s, crew, SendHead(TurnedAway(401))) && s1 == Next(s, crew, SendHead(TurnedAway(401)))
    ensures s1.log == s.log && s1.phone != [] && s1.phone[0].rejected && s1.phone[0].clientId == s.phone[0].clientId
  {
    s1 := Next(s, crew, SendHead(TurnedAway(401)));
    var there, on, _ := SendShape(s, crew, TurnedAway(401));
    hide Next, Reaches;
  }

  /** It does happen: the reply to an accepted confirmation is lost, then the crew's login has expired (401). */
  lemma ExpiredLoginAfterLostReply(s: Sys, crew: Actor)
    requires PhoneInv(s) && s.phone != [] && !s.phone[0].rejected && Asked(s.servers, crew, s.phone[0]).Allowed?
    ensures var acts := [SendHead(NoReply), SendHead(TurnedAway(401))];
      && PossibleRun(s, crew, acts)
      && var u := After(s, crew, acts); u.phone != [] && u.phone[0].rejected && RecOf(s.phone[0]) in u.log
  {
    hide Asked, PhoneInv, Possible, Next, RecOf;
    var a, b := SendHead(NoReply), SendHead(TurnedAway(401));
    var s1 := ReplyLost(s, crew);
    var s2 := LoginExpired(s1, crew);
    assert [a, b][1..] == [b] && [b][1..] == [];
    assert PossibleRun(s2, crew, []) && PossibleRun(s1, crew, [b]);
    assert After(s1, crew, [b]) == s2;
  }
}
