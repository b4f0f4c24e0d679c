/** Switching confirmations made with no signal (src/lib/plannedOutage.js, src/lib/safetyStore.js): stored on the phone for any
  * number of outages, sent oldest first, kept until the server acknowledges them.
  */
module OfflineConfirmations {
  import opened Common
  import opened SwitchingRules
  import opened SwitchingMachine
  import opened PlannedOutages

  datatype Item = Item(clientId: nat, outage: nat, step: nat, rejected: bool, attempts: nat)

  /** What becomes of one send: no answer and not delivered so far, delivered but its reply lost, answered by the rules, or
    * turned away in front of them with an HTTP status (an expired login, an overloaded gateway). */
  datatype Net = NoRequest | NoReply | Reply | TurnedAway(status: nat)

  /** The reply the phone sees: 2xx, or an error with a status when there was one. */
  datatype Answer = Acknowledged | Failed(status: Option<nat>)

  /** Server not reached, or failed on its side: keep the item and try again later. */
  predicate IsUnreachable(status: Option<nat>) {
    status.None? || status.value == 0 || status.value >= 500 || status.value == 408 || status.value == 429
  }

  /** Status of a refusal by the rules. */
  function StatusOf(code: Code): nat {
    match code
    case NotFound => 404
    case ClientIdRequired => 400
    case BadInput => 400
    case WrongAssignee => 403
    case _ => 409
  }

  function AnswerOf(v: Verdict): Answer { if v.Rejected? then Failed(Some(StatusOf(v.code))) else Acknowledged }

  /** Client ids on the steps of a plan. */
  function UsedIn(steps: seq<Step>): set<nat> {
    set i | 0 <= i < |steps| && steps[i].confirmation.Some? :: steps[i].confirmation.value
  }

  /** Client ids on the steps of the other outages' plans. */
  ghost function Used(servers: map<nat, Outage>, p: nat): set<nat> {
    set q, id | q in servers && q != p && id in UsedIn(servers[q].steps) :: id
  }

  /** A client id counts as used elsewhere exactly if it stands on a confirmed step of another outage's plan. */
  lemma UsedExactly(servers: map<nat, Outage>, p: nat, id: nat)
    ensures id in Used(servers, p) <==>
      exists q, i :: q in servers && q != p && 0 <= i < |servers[q].steps| && servers[q].steps[i].confirmation == Some(id)
  {
    if q, i :| q in servers && q != p && 0 <= i < |servers[q].steps| && servers[q].steps[i].confirmation == Some(id) {
      assert id in UsedIn(servers[q].steps);
    }
  }

  function ConfirmCmd(crew: Actor, item: Item, elsewhere: set<nat>): Cmd {
    Confirm(crew, item.step, Given(item.clientId), Blank, elsewhere)
  }

  ghost function CmdFor(servers: map<nat, Outage>, crew: Actor, item: Item): Cmd { ConfirmCmd(crew, item, Used(servers, item.outage)) }

  /** How the server answers a confirmation that reaches it. */
  ghost function Asked(servers: map<nat, Outage>, crew: Actor, item: Item): Verdict {
    if item.outage in servers then Check(servers[item.outage], CmdFor(servers, crew, item)) else Rejected(NotFound)
  }

  ghost function Arrived(servers: map<nat, Outage>, crew: Actor, item: Item): map<nat, Outage> {
    if item.outage in servers then servers[item.outage := Apply(servers[item.outage], CmdFor(servers, crew, item))] else servers
  }

  ghost function Deliver(servers: map<nat, Outage>, crew: Actor, item: Item, net: Net): (map<nat, Outage>, Answer) {
    match net
    case NoRequest => (servers, Failed(None))
    case NoReply => (Arrived(servers, crew, item), Failed(None))
    case Reply => (Arrived(servers, crew, item), AnswerOf(Asked(servers, crew, item)))
    case TurnedAway(status) => (servers, Failed(Some(status)))
  }

  /** The store after the oldest item's send: removed, marked rejected, or kept for another try. */
  function Settle1(items: seq<Item>, a: Answer): seq<Item>
    requires items != []
  {
    match a
    case Acknowledged => items[1..]
    case Failed(status) =>
      items[0 := if IsUnreachable(status) then items[0].(attempts := items[0].attempts + 1) else items[0].(rejected := true, attempts := items[0].attempts + 1)]
  }

  /** What an answer makes of the oldest item: acknowledged it leaves; a refusal marks it and so blocks the rest; but no answer at
    * all, a failure of the server and the answers 408 and 429 only count as an attempt. */
  lemma RefusedExactly(items: seq<Item>, a: Answer)
    requires items != [] && !items[0].rejected
    ensures a.Acknowledged? ==> Settle1(items, a) == items[1..]
    ensures a.Failed? ==>
      var r := Settle1(items, a);
      && |r| == |items| && r[1..] == items[1..] && r[0] == items[0].(attempts := items[0].attempts + 1, rejected := r[0].rejected)
      && (r[0].rejected <==> exists n :: a.status == Some(n) && 0 < n < 500 && n != 408 && n != 429)
  {
  }

  /** Every refusal by the switching rules marks the item. */
  lemma RulesRefuse(items: seq<Item>, code: Code)
    requires items != []
    ensures |Settle1(items, AnswerOf(Rejected(code)))| == |items| && Settle1(items, AnswerOf(Rejected(code)))[0].rejected
  {
  }

  /** flushConfirmations: oldest first, stopping at the first refused or undelivered item. */
  ghost function Flushed(items: seq<Item>, servers: map<nat, Outage>, crew: Actor, nets: seq<Net>): (seq<Item>, map<nat, Outage>)
    requires |items| <= |nets|
    decreases |items|
  {
    if items == [] || items[0].rejected then (items, servers)
    else
      var (servers', a) := Deliver(servers, crew, items[0], nets[0]);
      if a.Acknowledged? then Flushed(items[1..], servers', crew, nets[1..]) else (Settle1(items, a), servers')
  }

  // ---- the store and its flush, in place ----

  /** Where the confirmation with this client id is stored. */
  function At(items: seq<Item>, clientId: nat): (r: Option<nat>)
    ensures r.Some? ==> r.value < |items| && items[r.value].clientId == clientId
    ensures r.None? ==> forall k :: 0 <= k < |items| ==> items[k].clientId != clientId
  {
    if items == [] then None
    else if items[0].clientId == clientId then Some(0)
    else match At(items[1..], clientId) case None => None case Some(k) => Some(k + 1)
  }

  class SafetyStore {
    var items: seq<Item>

    /** The client id is the table's primary key. */
    ghost predicate Valid()
      reads this
    {
      forall i, j :: 0 <= i < j < |items| ==> items[i].clientId != items[j].clientId
    }

    constructor ()
      ensures Valid() && items == []
    {
      items := [];
    }

    method Remove(clientId: nat)
      requires Valid()
      modifies this
      ensures Valid()
      ensures match At(old(items), clientId) case None => items == old(items) case Some(k) => items == old(items[..k] + items[k + 1..])
    {
      var at := At(items, clientId);
      if at.Some? { items := items[..at.value] + items[at.value + 1..]; }
    }

    method MarkRejected(clientId: nat)
      requires Valid()
      modifies this
      ensures Valid()
      ensures match At(old(items), clientId) case None => items == old(items)
        case Some(k) => items == old(items[k := items[k].(rejected := true, attempts := items[k].attempts + 1)])
    {
      var at := At(items, clientId);
      if at.Some? { items := items[at.value := items[at.value].(rejected := true, attempts := items[at.value].attempts + 1)]; }
    }

    method MarkAttempt(clientId: nat)
      requires Valid()
      modifies this
      ensures Valid()
      ensures match At(old(items), clientId) case None => items == old(items)
        case Some(k) => items == old(items[k := items[k].(attempts := items[k].attempts + 1)])
    {
      var at := At(items, clientId);
      if at.Some? { items := items[at.value := items[at.value].(attempts := items[at.value].attempts + 1)]; }
    }
  }

  /** The outages on the server, each an object of its own. */
  ghost predicate Separate(servers: map<nat, PlannedOutage>) {
    forall p, q :: p in servers && q in servers && p != q ==> servers[p] != servers[q]
  }

  ghost function States(servers: map<nat, PlannedOutage>): map<nat, Outage>
    reads servers.Values
  {
    map p | p in servers :: servers[p].State()
  }

  /** The other outages' client ids, as the server looks them up. */
  method LookUp(servers: map<nat, PlannedOutage>, p: nat) returns (used: set<nat>)
    ensures used == Used(States(servers), p)
  {
    used := {};
    var left := servers.Keys;
    while left != {}
      invariant left <= servers.Keys
      invariant used == set q, id | q in servers.Keys - left && q != p && id in UsedIn(servers[q].steps) :: id
      decreases left
    {
      var q :| q in left;
      if q != p { used := used + UsedIn(servers[q].steps); }
      left := left - {q};
    }
    assert servers.Keys - left == servers.Keys;
    hide UsedIn;
    forall id ensures id in used <==> id in Used(States(servers), p) {
      assert forall q :: q in servers ==> States(servers)[q].steps == servers[q].steps;
    }
  }

  /** One confirmation over the wire. */
  method Send(servers: map<nat, PlannedOutage>, crew: Actor, item: Item, net: Net) returns (a: Answer)
    requires Separate(servers)
    modifies servers.Values
    ensures (States(servers), a) == Deliver(old(States(servers)), crew, item, net)
  {
    hide Check, Apply;
    match net {
      case NoRequest => a := Failed(None);
      case TurnedAway(status) => a := Failed(Some(status));
      case _ =>
        var v := Rejected(NotFound);
        if item.outage in servers {
          var used := LookUp(servers, item.outage);
          var server := servers[item.outage];
          v := server.ConfirmSwitchingStep(item.step, crew, Given(item.clientId), Blank, used);
        }
        assert States(servers) == Arrived(old(States(servers)), crew, item);
        a := if net.Reply? then AnswerOf(v) else Failed(None);
    }
  }

  lemma FlushedNext(items: seq<Item>, servers: map<nat, Outage>, crew: Actor, nets: seq<Net>)
    requires items != [] && |items| <= |nets|
    ensures items[0].rejected ==> Flushed(items, servers, crew, nets) == (items, servers)
    ensures !items[0].rejected ==> var (servers', a) := Deliver(servers, crew, items[0], nets[0]);
      Flushed(items, servers, crew, nets) == if a.Acknowledged? then Flushed(items[1..], servers', crew, nets[1..]) else (Settle1(items, a), servers')
  {
    hide Deliver;
  }

  lemma FlushedEnd(servers: map<nat, Outage>, crew: Actor, nets: seq<Net>)
    ensures Flushed([], servers, crew, nets) == ([], servers)
  {
  }

  /** flushConfirmations. */
  method FlushConfirmations(store: SafetyStore, servers: map<nat, PlannedOutage>, crew: Actor, nets: seq<Net>) returns (sent: nat)
    requires store.Valid() && |store.items| <= |nets| && Separate(servers)
    modifies store, servers.Values
    ensures store.Valid()
    ensures (store.items, States(servers)) == Flushed(old(store.items), old(States(servers)), crew, nets)
    ensures sent + |store.items| == |old(store.items)|
  {
    hide Deliver, Flushed, Separate;
    var items := store.items;
    sent := 0;
    while sent < |items|
      invariant sent <= |items| <= |nets|
      invariant store.Valid() && store.items == items[sent..]
      invariant Flushed(store.items, States(servers), crew, nets[sent..]) == Flushed(items, old(States(servers)), crew, nets)
    {
      var item := items[sent];
      assert store.items[0] == item && store.items[1..] == items[sent + 1..] && nets[sent..][1..] == nets[sent + 1..];
      FlushedNext(store.items, States(servers), crew, nets[sent..]);
      if item.rejected { return; }
      var a := Send(servers, crew, item, nets[sent]);
      if a.Acknowledged? {
        store.Remove(item.clientId);
        sent := sent + 1;
      } else {
        if IsUnreachable(a.status) { store.MarkAttempt(item.clientId); } else { store.MarkRejected(item.clientId); }
        return;
      }
    }
    FlushedEnd(States(servers), crew, nets[sent..]);
  }
}
