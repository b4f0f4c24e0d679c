/** Every run of one phone, an unreliable network, several planned outages and everyone else (src/lib/safetyStore.js,
  * src/lib/plannedOutage.js, src/components/PlannedOutagePanel.js): a request without an answer may be lost, or arrive at
  * any later time, or several times.
  */
module OfflineRuns {
  import opened Common
  import opened SwitchingRules
  import opened SwitchingMachine
  import opened PlannedOutageTheorems
  import opened OfflineConfirmations

  datatype Fate = Acked | Discarded

  /** A confirmation as the safety log records it. */
  datatype Rec = Rec(outage: nat, clientId: nat)

  /** `wire` holds the confirmations, by their place in `stored`, of which a request may still arrive; `seen` the views the
    * phone has loaded; `log` the recorded confirmations of all outages in the order of the one safety log.
    *
    * History: `stored`, every confirmation recorded on this phone, in order, with the view its step was offered in (`bases`)
    * and how those that have left it left (`fates`); `strays`, those discarded while a request was under way. */
  datatype Sys = Sys(
    phone: seq<Item>, stored: seq<Item>, bases: seq<Outage>, fates: seq<Fate>, wire: set<nat>, strays: set<nat>,
    seen: set<(nat, Outage)>, servers: map<nat, Outage>, log: seq<Rec>)

  datatype Act =
    | Load(p: nat)
    | Record(clientId: nat, outage: nat, step: nat, view: Outage)
    | Discard
    | SendHead(net: Net)
    | Arrive(k: nat)
    | Lose(k: nat)
    | Create(p: nat)
    | Elsewhere(p: nat, cmd: Cmd)

  function Start(): Sys { Sys([], [], [], [], {}, {}, {}, map[], []) }

  function RecOf(item: Item): Rec { Rec(item.outage, item.clientId) }

  ghost predicate Stored(stored: seq<Item>, clientId: nat) { exists k :: 0 <= k < |stored| && stored[k].clientId == clientId }

  ghost predicate Pending(phone: seq<Item>, p: nat) { exists k :: 0 <= k < |phone| && phone[k].outage == p }

  /** The app offers a step for confirmation: it is this crew's own, and the server's check passes in the view at hand. */
  predicate Offers(view: Outage, crew: Actor, stepId: nat) {
    var at := Find(view.steps, stepId);
    at.Some? && view.steps[at.value].assignee == Crew(crew.crewId) && CheckConfirmStep(view, view.steps[at.value], crew, Given(0), Blank).Allowed?
  }

  predicate Confirms(o: Outage, cmd: Cmd) { cmd.Confirm? && cmd.clientId.Given? && Check(o, cmd).Allowed? }

  /** Nobody else uses this phone's client ids. */
  ghost predicate Others(stored: seq<Item>, cmd: Cmd) { cmd.Confirm? && cmd.clientId.Given? ==> !Stored(stored, cmd.clientId.value) }

  /** Client ids are fresh random ids. A step is offered in a view loaded at some time, and not while a confirmation of its
    * outage waits on the phone; only a refused head can be discarded, and only an unrefused head is sent. */
  ghost predicate Possible(s: Sys, crew: Actor, a: Act) {
    match a
    case Load(p) => p in s.servers
    case Record(id, p, step, view) =>
      !Stored(s.stored, id) && (forall q :: Rec(q, id) !in s.log) && !Pending(s.phone, p) && (p, view) in s.seen && Offers(view, crew, step)
    case Discard => s.phone != [] && s.phone[0].rejected
    case SendHead(_) => s.phone != [] && !s.phone[0].rejected
    case Arrive(k) => k in s.wire && k < |s.stored|
    case Lose(k) => k in s.wire
    case Create(p) => p !in s.servers
    case Elsewhere(p, cmd) => p in s.servers && Others(s.stored, cmd)
  }

  /** A request at outage p, by anyone. */
  ghost function Applied(s: Sys, p: nat, cmd: Cmd): Sys
    requires p in s.servers
  {
    s.(servers := s.servers[p := Apply(s.servers[p], cmd)], log := if Confirms(s.servers[p], cmd) then s.log + [Rec(p, cmd.clientId.value)] else s.log)
  }

  /** A confirmation of this phone reaches the server. */
  ghost function Reaches(s: Sys, crew: Actor, item: Item): Sys {
    if item.outage in s.servers then Applied(s, item.outage, CmdFor(s.servers, crew, item)) else s
  }

  /** The phone's side of a send, once it knows the answer. */
  ghost function Settled(s: Sys, a: Answer): Sys
    requires s.phone != []
  {
    s.(phone := Settle1(s.phone, a), fates := if a.Acknowledged? then s.fates + [Acked] else s.fates)
  }

  ghost function Next(s: Sys, crew: Actor, a: Act): Sys
    requires Possible(s, crew, a)
  {
    match a
    case Load(p) => s.(seen := s.seen + {(p, s.servers[p])})
    case Record(id, p, step, view) =>
      var item := Item(id, p, step, false, 0);
      s.(phone := s.phone + [item], stored := s.stored + [item], bases := s.bases + [view])
    case Discard =>
      s.(phone := s.phone[1..], fates := s.fates + [Discarded], strays := if |s.fates| in s.wire then s.strays + {|s.fates|} else s.strays)
    case SendHead(net) =>
      var item := s.phone[0];
      var there := if net.NoReply? || net.Reply? then Reaches(s, crew, item) else s;
      Settled(there.(wire := if net.NoRequest? then s.wire + {|s.fates|} else s.wire), Deliver(s.servers, crew, item, net).1)
    case Arrive(k) => Reaches(s, crew, s.stored[k])
    case Lose(k) => s.(wire := s.wire - {k})
    case Create(p) => s.(servers := s.servers[p := Init()])
    case Elsewhere(p, cmd) => Applied(s, p, cmd)
  }

  /** The server's side of a send is what the flush makes of it. */
  lemma SendDelivers(s: Sys, crew: Actor, net: Net)
    requires Possible(s, crew, SendHead(net))
    ensures (Next(s, crew, SendHead(net)).servers, Next(s, crew, SendHead(net)).phone)
      == (var d := Deliver(s.servers, crew, s.phone[0], net); (d.0, Settle1(s.phone, d.1)))
  {
    hide Apply, Check;
  }

  ghost predicate PossibleRun(s: Sys, crew: Actor, acts: seq<Act>)
    decreases |acts|
  {
    acts == [] || (Possible(s, crew, acts[0]) && PossibleRun(Next(s, crew, acts[0]), crew, acts[1..]))
  }

  ghost function After(s: Sys, crew: Actor, acts: seq<Act>): Sys
    requires PossibleRun(s, crew, acts)
    decreases |acts|
  {
    if acts == [] then s else After(Next(s, crew, acts[0]), crew, acts[1..])
  }

  // ---- the servers and the log ----

  ghost predicate InLog(log: seq<Entry>, clientId: nat) {
    exists p :: 0 <= p < |log| && log[p].Confirmed? && log[p].clientId == clientId
  }

  predicate Is(e: Entry, clientId: nat) { e.Confirmed? && e.clientId == clientId }

  ghost predicate ServerFits(o: Outage) { Inv(o) && LogHolds(o) && StepsLogged(o) }

  ghost predicate AllFit(servers: map<nat, Outage>) { forall p :: p in servers ==> ServerFits(servers[p]) }

  /** The one log holds what the outages' logs hold. */
  ghost predicate OneLog(servers: map<nat, Outage>, log: seq<Rec>) {
    forall p, id :: Rec(p, id) in log <==> p in servers && InLog(servers[p].log, id)
  }

  /** An entry with a client id of this phone is for the outage and step it was made for. */
  ghost predicate OwnSteps(stored: seq<Item>, servers: map<nat, Outage>) {
    forall k, p, x :: 0 <= k < |stored| && p in servers && 0 <= x < |servers[p].log| && Is(servers[p].log[x], stored[k].clientId) ==>
      p == stored[k].outage && servers[p].log[x].step == stored[k].step
  }

  ghost predicate Books(s: Sys) {
    AllFit(s.servers) && OneLog(s.servers, s.log) && Distinct(s.log) && OwnSteps(s.stored, s.servers)
  }

  lemma GrowsInLog(o: Outage, cmd: Cmd, log: seq<Entry>, id: nat)
    requires Grows(o, cmd, log)
    ensures InLog(log, id) <==> InLog(o.log, id) || (Confirms(o, cmd) && cmd.clientId.value == id)
  {
    hide Check;
    if InLog(o.log, id) {
      var p :| 0 <= p < |o.log| && o.log[p].Confirmed? && o.log[p].clientId == id;
      assert log[p] == o.log[p];
    }
    if InLog(log, id) {
      var p :| 0 <= p < |log| && log[p].Confirmed? && log[p].clientId == id;
      if p < |o.log| { assert log[p] == o.log[p]; }
    }
  }

  /** A confirmation the rules accept is one the server has never recorded. */
  lemma AllowedIsNew(o: Outage, cmd: Cmd)
    requires LogHolds(o) && Confirms(o, cmd)
    ensures !InLog(o.log, cmd.clientId.value)
  {
    var id := cmd.clientId.value;
    assert !StepIdTaken(o.steps, id, cmd.elsewhere) by { hide CheckConfirmStep; }
    hide Check, CheckConfirm;
    forall p | 0 <= p < |o.log| && o.log[p].Confirmed? ensures o.log[p].clientId != id {
      assert Carries(o.steps, o.log[p].step, o.log[p].clientId);
    }
  }

  lemma ApplyFits(o: Outage, cmd: Cmd)
    requires ServerFits(o)
    ensures ServerFits(Apply(o, cmd))
  {
    SwitchingMachine.KeepInv(o, cmd);
    LogHoldsStep(o, cmd);
    StepsLoggedStep(o, cmd);
    hide Apply, Inv, LogHolds, StepsLogged;
  }

  ghost predicate Proper(stored: seq<Item>, p: nat, cmd: Cmd) {
    cmd.Confirm? && cmd.clientId.Given? ==>
      forall k :: 0 <= k < |stored| && stored[k].clientId == cmd.clientId.value ==> p == stored[k].outage && cmd.step == stored[k].step
  }

  lemma AppliedLog(s: Sys, p: nat, cmd: Cmd)
    requires p in s.servers && ServerFits(s.servers[p]) && OneLog(s.servers, s.log) && Distinct(s.log)
    ensures var s' := Applied(s, p, cmd); OneLog(s'.servers, s'.log) && Distinct(s'.log)
  {
    var o := s.servers[p];
    ApplyGrows(o, cmd);
    if Confirms(o, cmd) { AllowedIsNew(o, cmd); }
    var s' := Applied(s, p, cmd);
    hide Apply, Confirms, ServerFits, InLog;
    forall q, id ensures Rec(q, id) in s'.log <==> q in s'.servers && InLog(s'.servers[q].log, id) {
      GrowsInLog(o, cmd, s'.servers[p].log, id);
      assert Rec(q, id) in s'.log <==> Rec(q, id) in s.log || (Confirms(o, cmd) && q == p && cmd.clientId.value == id) by { Appended(s, p, cmd, q, id); }
    }
    if Confirms(o, cmd) { assert Rec(p, cmd.clientId.value) !in s.log; }
  }

  lemma Appended(s: Sys, p: nat, cmd: Cmd, q: nat, id: nat)
    requires p in s.servers
    ensures Rec(q, id) in Applied(s, p, cmd).log <==> Rec(q, id) in s.log || (Confirms(s.servers[p], cmd) && q == p && cmd.clientId.value == id)
  {
    hide Apply, Check;
  }

  lemma AppliedOwn(s: Sys, p: nat, cmd: Cmd)
    requires p in s.servers && OwnSteps(s.stored, s.servers) && Proper(s.stored, p, cmd)
    ensures OwnSteps(s.stored, Applied(s, p, cmd).servers)
  {
    var o := s.servers[p];
    ApplyGrows(o, cmd);
    var servers := Applied(s, p, cmd).servers;
    hide Apply, Check;
    forall k, q, x | 0 <= k < |s.stored| && q in servers && 0 <= x < |servers[q].log| && Is(servers[q].log[x], s.stored[k].clientId)
      ensures q == s.stored[k].outage && servers[q].log[x].step == s.stored[k].step
    {
      if q == p && x < |o.log| { assert servers[q].log[x] == o.log[x]; }
    }
  }

  lemma AppliedBooks(s: Sys, p: nat, cmd: Cmd)
    requires Books(s) && p in s.servers && Proper(s.stored, p, cmd)
    ensures Books(Applied(s, p, cmd))
  {
    ApplyFits(s.servers[p], cmd);
    AppliedLog(s, p, cmd);
    AppliedOwn(s, p, cmd);
    hide Apply, Check, ServerFits, OneLog, OwnSteps, Distinct, Confirms;
  }

  // ---- the phone ----

  /** What is on the phone is the tail of what was stored, only its head can be refused, and each is for an outage of its
    * own. */
  ghost predicate Queue(phone: seq<Item>, stored: seq<Item>, left: nat) {
    && left + |phone| == |stored|
    && (forall k :: 0 <= k < |phone| ==> phone[k] == stored[left + k].(rejected := phone[k].rejected, attempts := phone[k].attempts))
    && (forall k :: 0 < k < |phone| ==> !phone[k].rejected)
    && (forall i, j :: 0 <= i < j < |phone| ==> phone[i].outage != phone[j].outage)
  }

  ghost predicate DistinctIds(stored: seq<Item>) {
    forall i, j :: 0 <= i < j < |stored| ==> stored[i].clientId != stored[j].clientId
  }

  /** What may still arrive was sent from the head. */
  ghost predicate Wired(wire: set<nat>, left: nat, n: nat) { forall k :: k in wire ==> k <= left && k < n }

  ghost predicate Frame(s: Sys) {
    |s.bases| == |s.stored| && Queue(s.phone, s.stored, |s.fates|) && DistinctIds(s.stored) && Wired(s.wire, |s.fates|, |s.stored|)
  }

  /** Nothing behind the head has reached the server; everything acknowledged has. */
  ghost predicate Reached(stored: seq<Item>, fates: seq<Fate>, log: seq<Rec>) {
    && (forall k :: |fates| < k < |stored| ==> RecOf(stored[k]) !in log)
    && (forall k :: 0 <= k < |fates| && k < |stored| && fates[k] == Acked ==> RecOf(stored[k]) in log)
  }

  ghost predicate PhoneInv(s: Sys) { Frame(s) && Books(s) && Reached(s.stored, s.fates, s.log) }

  lemma OwnIsProper(s: Sys, crew: Actor, k: nat)
    requires Frame(s) && k < |s.stored|
    ensures Proper(s.stored, s.stored[k].outage, CmdFor(s.servers, crew, s.stored[k]))
  {
  }

  lemma OthersAreProper(stored: seq<Item>, p: nat, cmd: Cmd)
    requires Others(stored, cmd)
    ensures Proper(stored, p, cmd)
  {
    if cmd.Confirm? && cmd.clientId.Given? {
      forall k | 0 <= k < |stored| && stored[k].clientId == cmd.clientId.value ensures false { assert Stored(stored, cmd.clientId.value); }
    }
  }

  /** What another's request adds to the log is no confirmation of this phone. */
  lemma OthersRecord(s: Sys, p: nat, cmd: Cmd, k: nat)
    requires p in s.servers && Others(s.stored, cmd) && k < |s.stored|
    ensures RecOf(s.stored[k]) in Applied(s, p, cmd).log <==> RecOf(s.stored[k]) in s.log
  {
    hide Apply, Check;
    assert Stored(s.stored, s.stored[k].clientId);
  }

  /** One of this phone's requests reaches the server, awaited or late. */
  lemma ReachesKeeps(s: Sys, crew: Actor, k: nat)
    requires PhoneInv(s) && k < |s.stored| && k <= |s.fates|
    ensures PhoneInv(Reaches(s, crew, s.stored[k]))
    ensures forall i :: 0 <= i < |s.stored| && i != k ==> (RecOf(s.stored[i]) in Reaches(s, crew, s.stored[k]).log <==> RecOf(s.stored[i]) in s.log)
    ensures s.log <= Reaches(s, crew, s.stored[k]).log
  {
    var s' := Reaches(s, crew, s.stored[k]);
    OwnIsProper(s, crew, k);
    if s.stored[k].outage in s.servers {
      AppliedBooks(s, s.stored[k].outage, CmdFor(s.servers, crew, s.stored[k]));
      forall i | 0 <= i < |s.stored| && i != k ensures RecOf(s.stored[i]) in s'.log <==> RecOf(s.stored[i]) in s.log {
        Appended(s, s.stored[k].outage, CmdFor(s.servers, crew, s.stored[k]), s.stored[i].outage, s.stored[i].clientId);
      }
    }
    hide Apply, Check, Books, CmdFor;
  }

  lemma ReplayShape(o: Outage, cmd: Cmd)
    requires cmd.Confirm? && cmd.clientId.Given? && cmd.note.Blank?
    ensures Check(o, cmd).Replay? <==> Find(o.steps, cmd.step).Some? && o.steps[Find(o.steps, cmd.step).value].confirmation == Some(cmd.clientId.value)
  {
    hide AnyOpen, AllDone, PredecessorsDone, StepIdTaken, PhaseActive;
  }

  /** A replay answers what the server already holds; a recorded confirmation is always answered as a replay. */
  lemma ReplayIffLogged(o: Outage, cmd: Cmd)
    requires ServerFits(o) && cmd.Confirm? && cmd.clientId.Given? && cmd.note.Blank?
    requires forall p :: 0 <= p < |o.log| && Is(o.log[p], cmd.clientId.value) ==> o.log[p].step == cmd.step
    ensures Check(o, cmd).Replay? <==> InLog(o.log, cmd.clientId.value)
  {
    ReplayShape(o, cmd);
    var at := Find(o.steps, cmd.step);
    assert forall i, j :: 0 <= i < j < |o.steps| ==> o.steps[i].id != o.steps[j].id;
    hide Check, Inv;
    if at.Some? && o.steps[at.value].confirmation == Some(cmd.clientId.value) {
      assert Logs(o.log, cmd.step, cmd.clientId.value);
    }
    if InLog(o.log, cmd.clientId.value) {
      var p :| 0 <= p < |o.log| && o.log[p].Confirmed? && o.log[p].clientId == cmd.clientId.value;
      assert Is(o.log[p], cmd.clientId.value);
      var i :| 0 <= i < |o.steps| && o.steps[i].id == cmd.step && o.steps[i].confirmation == Some(cmd.clientId.value);
      FindAt(o.steps, i);
    }
  }

  /** A confirmation that reaches the server is recorded afterwards exactly if it is not refused. */
  lemma AskedIffRecorded(s: Sys, crew: Actor, k: nat)
    requires PhoneInv(s) && k < |s.stored|
    ensures RecOf(s.stored[k]) in Reaches(s, crew, s.stored[k]).log <==> !Asked(s.servers, crew, s.stored[k]).Rejected?
    ensures RecOf(s.stored[k]) in s.log <==> Asked(s.servers, crew, s.stored[k]).Replay?
  {
    var item := s.stored[k];
    var cmd := CmdFor(s.servers, crew, item);
    hide Check, Apply, ServerFits, InLog;
    if item.outage in s.servers {
      var log := s.servers[item.outage].log;
      assert forall x :: 0 <= x < |log| && Is(log[x], item.clientId) ==> log[x].step == item.step;
      ReplayIffLogged(s.servers[item.outage], cmd);
      Appended(s, item.outage, cmd, item.outage, item.clientId);
    } else {
      assert RecOf(item) !in s.log;
    }
  }

  /** The server's side of a send: nothing, or the request reaches it. */
  ghost function There(s: Sys, crew: Actor, net: Net): Sys
    requires s.phone != []
  {
    if net.NoReply? || net.Reply? then Reaches(s, crew, s.phone[0]) else s
  }

  /** What of the phone's own state a request at the server leaves alone. */
  lemma ReachesLeaves(s: Sys, crew: Actor, item: Item)
    ensures var s' := Reaches(s, crew, item); s' == s.(servers := s'.servers, log := s'.log)
  {
    hide Apply, Check;
  }

  lemma ThereKeeps(s: Sys, crew: Actor, net: Net)
    requires PhoneInv(s) && Possible(s, crew, SendHead(net))
    ensures PhoneInv(There(s, crew, net)) && |s.fates| < |s.stored|
    ensures Deliver(s.servers, crew, s.phone[0], net).1.Acknowledged? ==> RecOf(s.stored[|s.fates|]) in There(s, crew, net).log
  {
    var h := |s.fates|;
    HeadIsStored(s);
    SameRequest(s, crew, s.phone[0], s.stored[h]);
    ReachesKeeps(s, crew, h);
    AskedIffRecorded(s, crew, h);
    hide Reaches, Asked, PhoneInv, CmdFor, Frame;
  }

  /** A send: the server's side, the wire, and then the phone's. */
  lemma SendShape(s: Sys, crew: Actor, net: Net) returns (there: Sys, on: Sys, a: Answer)
    requires Possible(s, crew, SendHead(net))
    ensures there == There(s, crew, net) && a == Deliver(s.servers, crew, s.phone[0], net).1
    ensures there == s.(servers := there.servers, log := there.log)
    ensures on == there.(wire := if net.NoRequest? then s.wire + {|s.fates|} else s.wire)
    ensures Next(s, crew, SendHead(net)) == Settled(on, a)
  {
    there, a := There(s, crew, net), Deliver(s.servers, crew, s.phone[0], net).1;
    on := there.(wire := if net.NoRequest? then s.wire + {|s.fates|} else s.wire);
    ReachesLeaves(s, crew, s.phone[0]);
    hide Reaches, Deliver;
  }

  lemma SendKeeps(s: Sys, crew: Actor, net: Net)
    requires PhoneInv(s) && Possible(s, crew, SendHead(net))
    ensures PhoneInv(Next(s, crew, SendHead(net)))
  {
    ThereKeeps(s, crew, net);
    var there, on, a := SendShape(s, crew, net);
    hide Deliver, Reaches, Next, There;
    BooksSame(there, on);
    hide Books, Queue, Reached, DistinctIds;
    SettledKeeps(on, a);
  }

  lemma BooksSame(s: Sys, s': Sys)
    requires s'.stored == s.stored && s'.servers == s.servers && s'.log == s.log
    ensures Books(s') == Books(s)
  {
  }

  lemma HeadIsStored(s: Sys)
    requires Frame(s) && s.phone != []
    ensures |s.fates| < |s.stored| && s.phone[0] == s.stored[|s.fates|].(rejected := s.phone[0].rejected, attempts := s.phone[0].attempts)
  {
  }

  lemma SameRequest(s: Sys, crew: Actor, a: Item, b: Item)
    requires a.outage == b.outage && a.step == b.step && a.clientId == b.clientId
    ensures CmdFor(s.servers, crew, a) == CmdFor(s.servers, crew, b) && RecOf(a) == RecOf(b)
    ensures Asked(s.servers, crew, a) == Asked(s.servers, crew, b) && Reaches(s, crew, a) == Reaches(s, crew, b)
  {
    hide Check, Apply;
  }

  lemma HeadMarked(phone: seq<Item>, stored: seq<Item>, left: nat, item: Item)
    requires Queue(phone, stored, left) && phone != [] && item == phone[0].(rejected := item.rejected, attempts := item.attempts)
    ensures Queue(phone[0 := item], stored, left)
  {
  }

  lemma HeadLeaves(phone: seq<Item>, stored: seq<Item>, fates: seq<Fate>, fate: Fate, log: seq<Rec>)
    requires Queue(phone, stored, |fates|) && Reached(stored, fates, log) && phone != []
    requires fate == Acked ==> RecOf(stored[|fates|]) in log
    ensures Queue(phone[1..], stored, |fates + [fate]|) && Reached(stored, fates + [fate], log)
  {
    var rest, n := phone[1..], |fates| + 1;
    assert forall k :: 0 <= k < |rest| ==> rest[k] == phone[k + 1];
    hide RecOf;
  }

  lemma SettledKeeps(s: Sys, a: Answer)
    requires PhoneInv(s) && s.phone != [] && |s.fates| < |s.stored| && (a.Acknowledged? ==> RecOf(s.stored[|s.fates|]) in s.log)
    ensures PhoneInv(Settled(s, a))
  {
    BooksSame(s, Settled(s, a));
    match a
    case Acknowledged => HeadLeaves(s.phone, s.stored, s.fates, Acked, s.log);
    case Failed(_) => HeadMarked(s.phone, s.stored, |s.fates|, Settle1(s.phone, a)[0]);
    hide Books, Queue, Reached, DistinctIds;
  }

  lemma DiscardKeeps(s: Sys, crew: Actor)
    requires PhoneInv(s) && Possible(s, crew, Discard)
    ensures PhoneInv(Next(s, crew, Discard))
  {
    BooksSame(s, Next(s, crew, Discard));
    HeadLeaves(s.phone, s.stored, s.fates, Discarded, s.log);
    hide Books, Queue, Reached, DistinctIds;
  }

  lemma RecordOwn(stored: seq<Item>, servers: map<nat, Outage>, log: seq<Rec>, item: Item)
    requires OwnSteps(stored, servers) && OneLog(servers, log) && forall q :: Rec(q, item.clientId) !in log
    ensures OwnSteps(stored + [item], servers)
  {
    forall k, p, x | 0 <= k < |stored + [item]| && p in servers && 0 <= x < |servers[p].log| && Is(servers[p].log[x], (stored + [item])[k].clientId)
      ensures k < |stored| && (stored + [item])[k] == stored[k]
    {
      if k == |stored| { assert InLog(servers[p].log, item.clientId); }
    }
  }

  lemma RecordQueue(phone: seq<Item>, stored: seq<Item>, fates: seq<Fate>, log: seq<Rec>, item: Item)
    requires Queue(phone, stored, |fates|) && DistinctIds(stored) && Reached(stored, fates, log)
    requires !Stored(stored, item.clientId) && RecOf(item) !in log && !item.rejected && !Pending(phone, item.outage)
    ensures Queue(phone + [item], stored + [item], |fates|) && DistinctIds(stored + [item]) && Reached(stored + [item], fates, log)
  {
    assert forall k :: 0 <= k < |stored| ==> Stored(stored, stored[k].clientId);
    assert forall k :: 0 <= k < |phone| ==> Pending(phone, phone[k].outage);
    hide Stored, Pending, RecOf;
  }

  lemma RecordKeeps(s: Sys, crew: Actor, a: Act)
    requires PhoneInv(s) && a.Record? && Possible(s, crew, a)
    ensures PhoneInv(Next(s, crew, a))
  {
    var item := Item(a.clientId, a.outage, a.step, false, 0);
    hide Offers;
    RecordQueue(s.phone, s.stored, s.fates, s.log, item);
    RecordOwn(s.stored, s.servers, s.log, item);
    hide Queue, Reached, DistinctIds, AllFit, OneLog, OwnSteps, Distinct;
  }

  lemma CreateKeeps(s: Sys, crew: Actor, p: nat)
    requires PhoneInv(s) && Possible(s, crew, Create(p))
    ensures PhoneInv(Next(s, crew, Create(p)))
  {
    RunInv([]);
    assert ServerFits(Init());
    assert forall id :: !InLog(Init().log, id);
    hide ServerFits, Reached, Frame;
  }

  lemma OthersKeepReached(s: Sys, p: nat, cmd: Cmd)
    requires p in s.servers && Others(s.stored, cmd) && Reached(s.stored, s.fates, s.log)
    ensures Reached(s.stored, s.fates, Applied(s, p, cmd).log)
  {
    hide Applied, Others;
    forall k | 0 <= k < |s.stored| ensures RecOf(s.stored[k]) in Applied(s, p, cmd).log <==> RecOf(s.stored[k]) in s.log { OthersRecord(s, p, cmd, k); }
    hide RecOf;
  }

  lemma ElsewhereKeeps(s: Sys, p: nat, cmd: Cmd)
    requires PhoneInv(s) && p in s.servers && Others(s.stored, cmd)
    ensures PhoneInv(Applied(s, p, cmd))
  {
    OthersAreProper(s.stored, p, cmd);
    AppliedBooks(s, p, cmd);
    OthersKeepReached(s, p, cmd);
    hide Apply, Check, Books, Reached, Queue, DistinctIds, Others;
  }

  lemma PhoneStep(s: Sys, crew: Actor, a: Act)
    requires PhoneInv(s) && Possible(s, crew, a)
    ensures PhoneInv(Next(s, crew, a))
  {
    match a
    case Load(p) => BooksSame(s, Next(s, crew, a)); hide Books;
    case Record(_, _, _, _) => RecordKeeps(s, crew, a);
    case Discard => DiscardKeeps(s, crew);
    case SendHead(net) => SendKeeps(s, crew, net);
    case Arrive(k) => ReachesKeeps(s, crew, k);
    case Lose(k) => BooksSame(s, Next(s, crew, a)); hide Books;
    case Create(p) => CreateKeeps(s, crew, p);
    case Elsewhere(p, cmd) => ElsewhereKeeps(s, p, cmd);
  }

  lemma {:induction false} PhoneRun(s: Sys, crew: Actor, acts: seq<Act>)
    requires PhoneInv(s) && PossibleRun(s, crew, acts)
    ensures PhoneInv(After(s, crew, acts))
    decreases |acts|
  {
    if acts != [] {
      PhoneStep(s, crew, acts[0]);
      hide PhoneInv, Next, Possible;
      PhoneRun(Next(s, crew, acts[0]), crew, acts[1..]);
    }
  }
}
