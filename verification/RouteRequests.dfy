/** Asynchronous route requests with stale answers discarded (src/components/CrewMap.js, the route effect). */
module RouteRequests {
  import opened Common

  /** What a route is for: the target, whether the phone is online, and the downloaded road graph. */
  datatype Key = Key(target: nat, online: bool, roads: nat)

  /** A route as held on screen: the request it answers and that request's key. */
  datatype Route = Route(request: nat, key: Key)

  /** History of requests and of the times the site was deselected. */
  datatype Entry = Asked(request: nat, key: Key, at: int) | Cleared

  /** `located`: whether the phone ever had a position. */
  datatype Map = Map(key: Option<Key>, at: int, seq_: nat, route: Option<Route>, inFlight: map<nat, Key>, now: int, located: bool,
                     log: seq<Entry>)

  datatype Event =
    | Effect(site: Option<Key>, here: bool, farOff: bool, now: int)
    | Answer(request: nat)
    | Failure(request: nat)

  const REROUTE_GAP_MS := 10000

  /** Nothing is held or asked at first. */
  function Init(now: int): Map { Map(None, 0, 0, None, map[], now, false, []) }

  /** The clock never runs back, a position once known stays known, and an answer or failure is to a request still in
    * flight. */
  predicate Possible(m: Map, e: Event) {
    match e
    case Effect(_, here, _, now) => m.now <= now && (m.located ==> here)
    case Answer(n) => n in m.inFlight
    case Failure(n) => n in m.inFlight
  }

  /** Off the route: only known while a route is held. */
  predicate OffRoute(m: Map, farOff: bool) { m.route.Some? && farOff }

  function Ask(m: Map, key: Key, now: int): Map {
    m.(route := if m.key == Some(key) then m.route else None, key := Some(key), at := now, seq_ := m.seq_ + 1,
       inFlight := m.inFlight[m.seq_ + 1 := key], now := now, log := m.log + [Asked(m.seq_ + 1, key, now)])
  }

  function Next(m: Map, e: Event): Map
    requires Possible(m, e)
  {
    match e
    case Effect(site, here, farOff, now) =>
      var m' := m.(now := now, located := here);
      if site.None? then m'.(key := None, route := None, log := m.log + [Cleared])
      else if !here then m'
      else if m.key == site && !(OffRoute(m, farOff) && now - m.at > REROUTE_GAP_MS) then m'
      else Ask(m', site.value, now)
    case Answer(n) =>
      m.(inFlight := m.inFlight - {n}, route := if n == m.seq_ then Some(Route(n, m.inFlight[n])) else m.route)
    case Failure(n) => m.(inFlight := m.inFlight - {n})
  }

  /** The map component as the effect changes it. */
  class RouteState {
    var key: Option<Key>
    var at: int
    var seq_: nat
    var route: Option<Route>
    var inFlight: map<nat, Key>
    var now: int
    var located: bool
    ghost var log: seq<Entry>

    ghost function State(): Map
      reads this
    {
      Map(key, at, seq_, route, inFlight, now, located, log)
    }

    constructor (t: int)
      ensures State() == Init(t)
    {
      key, at, seq_, route, inFlight, now, located, log := None, 0, 0, None, map[], t, false, [];
    }

    /** The effect: clear without a site, keep what is asked for already, else ask again. */
    method RunEffect(site: Option<Key>, here: bool, farOff: bool, t: int)
      requires now <= t && (located ==> here)
      modifies this
      ensures State() == Next(old(State()), Effect(site, here, farOff, t))
    {
      now, located := t, here;
      if site.None? {
        key, route, log := None, None, log + [Cleared];
        return;
      }
      if !here { return; }
      var offRoute := route.Some? && farOff;
      if key == site && !(offRoute && t - at > REROUTE_GAP_MS) { return; }
      if key != site { route := None; }
      key, at := site, t;
      seq_ := seq_ + 1;
      inFlight := inFlight[seq_ := site.value];
      log := log + [Asked(seq_, site.value, t)];
    }

    /** A route arrives: taken only if no newer request was made meanwhile. */
    method Answered(n: nat)
      requires n in inFlight
      modifies this
      ensures State() == Next(old(State()), Answer(n))
    {
      if n == seq_ { route := Some(Route(n, inFlight[n])); }
      inFlight := inFlight - {n};
    }

    method Failed(n: nat)
      requires n in inFlight
      modifies this
      ensures State() == Next(old(State()), Failure(n))
    {
      inFlight := inFlight - {n};
    }
  }

  // ---- what every order of requests, answers, failures and clears keeps ----

  /** The last request made, if any, and whether the site was deselected since. */
  ghost predicate Tail(m: Map) {
    match m.key
    case Some(k) => m.log != [] && m.log[|m.log| - 1] == Asked(m.seq_, k, m.at)
    case None => m.log == [] || m.log[|m.log| - 1] == Cleared
  }

  ghost predicate Gap(log: seq<Entry>) {
    forall i :: 0 <= i && i + 1 < |log| && log[i].Asked? && log[i + 1].Asked? && log[i].key == log[i + 1].key
      ==> log[i + 1].at - log[i].at > REROUTE_GAP_MS
  }

  /** Requests are logged in the order of their times. */
  ghost predicate Timed(log: seq<Entry>, now: int) {
    && (forall i, j :: 0 <= i < j < |log| && log[i].Asked? && log[j].Asked? ==> log[i].at <= log[j].at)
    && (forall i :: 0 <= i < |log| && log[i].Asked? ==> log[i].at <= now)
  }

  ghost predicate Logged(m: Map) { Tail(m) && Gap(m.log) && Timed(m.log, m.now) }

  ghost predicate UpTo(inFlight: map<nat, Key>, last: nat) { forall n :: n in inFlight ==> n <= last }

  /** What is held and awaited is for the current key, and before the first position nothing is. */
  ghost predicate Holds(m: Map) {
    && (m.key.Some? && m.route.Some? ==> m.route.value.key == m.key.value)
    && (m.key.Some? && m.seq_ in m.inFlight ==> m.inFlight[m.seq_] == m.key.value)
    && (m.route.Some? ==> m.route.value.request <= m.seq_)
    && UpTo(m.inFlight, m.seq_)
    && (!m.located ==> m.key.None? && m.route.None? && m.inFlight == map[])
  }

  ghost predicate Inv(m: Map) { Logged(m) && Holds(m) }

  lemma MoreTimed(log: seq<Entry>, now: int, later: int, e: Entry)
    requires Timed(log, now) && now <= later && (e.Asked? ==> e.at == later)
    ensures Timed(log, later) && Timed(log + [e], later)
  {
  }

  lemma MoreGap(log: seq<Entry>, e: Entry)
    requires Gap(log)
    requires log != [] && log[|log| - 1].Asked? && e.Asked? && log[|log| - 1].key == e.key ==> e.at - log[|log| - 1].at > REROUTE_GAP_MS
    ensures Gap(log + [e])
  {
    var t := log + [e];
    assert forall i :: 0 <= i < |log| ==> t[i] == log[i];
  }

  lemma KeepLogged(m: Map, e: Event)
    requires Logged(m) && Possible(m, e)
    ensures Logged(Next(m, e))
  {
    if e.Effect? {
      MoreTimed(m.log, m.now, e.now, Cleared);
      MoreGap(m.log, Cleared);
      if e.site.Some? && e.here && Next(m, e).log != m.log {
        var asked := Asked(m.seq_ + 1, e.site.value, e.now);
        MoreTimed(m.log, m.now, e.now, asked);
        MoreGap(m.log, asked);
      }
    }
    hide Gap, Timed;
  }

  lemma KeepInv(m: Map, e: Event)
    requires Inv(m) && Possible(m, e)
    ensures Inv(Next(m, e))
  {
    KeepLogged(m, e);
    hide Logged;
  }

  ghost predicate PossibleRun(m: Map, es: seq<Event>)
    decreases |es|
  {
    es == [] || (Possible(m, es[0]) && PossibleRun(Next(m, es[0]), es[1..]))
  }

  ghost function After(m: Map, es: seq<Event>): Map
    requires PossibleRun(m, es)
    decreases |es|
  {
    if es == [] then m else After(Next(m, es[0]), es[1..])
  }

  lemma {:induction false} RunInv(m: Map, es: seq<Event>)
    requires Inv(m) && PossibleRun(m, es)
    ensures Inv(After(m, es))
    decreases |es|
  {
    if es != [] {
      KeepInv(m, es[0]);
      RunInv(Next(m, es[0]), es[1..]);
    }
  }

  /** After every run of the effect with a site selected, a route held answers a request with that site's key. */
  lemma RouteIsForTheSite(t: int, es: seq<Event>, e: Event)
    requires PossibleRun(Init(t), es) && e.Effect? && e.site.Some? && Possible(After(Init(t), es), e)
    ensures var m := Next(After(Init(t), es), e); m.route.Some? ==> m.key == e.site && m.route.value.key == e.site.value
  {
    RunInv(Init(t), es);
    KeepInv(After(Init(t), es), e);
  }

  /** A late answer never replaces one from a newer request. */
  lemma NeverReplacedByOlder(t: int, es: seq<Event>, n: nat)
    requires PossibleRun(Init(t), es) && n in After(Init(t), es).inFlight && After(Init(t), es).route.Some?
    ensures var m := After(Init(t), es); var m' := Next(m, Answer(n));
      m'.route.Some? && m.route.value.request <= m'.route.value.request
  {
    RunInv(Init(t), es);
  }

  /** When a route is asked for: once the phone has its place, for a site whose key is not the last one asked for, or again for
    * the same one when the crew is off a route held and more than ten seconds have gone by. */
  lemma AskedExactly(m: Map, site: Key, here: bool, farOff: bool, now: int)
    requires Possible(m, Effect(Some(site), here, farOff, now))
    ensures var m' := Next(m, Effect(Some(site), here, farOff, now));
      (m'.log == m.log + [Asked(m.seq_ + 1, site, now)] && m'.seq_ == m.seq_ + 1) || (m'.log == m.log && m'.seq_ == m.seq_)
    ensures Next(m, Effect(Some(site), here, farOff, now)).seq_ == m.seq_ + 1 <==>
      here && (m.key != Some(site) || (m.route.Some? && farOff && now - m.at > 10000))
  {
  }

  /** Nothing but requests for this key from i to j. */
  ghost predicate OnlyFor(log: seq<Entry>, key: Key, i: nat, j: nat) {
    forall k :: i <= k <= j && k < |log| ==> log[k].Asked? && log[k].key == key
  }

  lemma {:induction false} GapsAddUp(m: Map, key: Key, i: nat, j: nat)
    requires Inv(m) && i < j < |m.log| && OnlyFor(m.log, key, i, j)
    ensures m.log[j].at - m.log[i].at > 10000
  {
    assert m.log[j - 1].Asked? && m.log[j].Asked? && m.log[j - 1].key == m.log[j].key;
    if i < j - 1 { GapsAddUp(m, key, i, j - 1); }
  }

  /** Of any two requests for the same key, however far apart in the run, the second comes within ten seconds of the first
    * only if the site was cleared or another key asked for in between. */
  lemma RepeatsAreApart(t: int, es: seq<Event>, i: nat, j: nat)
    requires PossibleRun(Init(t), es)
    requires var log := After(Init(t), es).log;
      i < j < |log| && log[i].Asked? && log[j].Asked? && log[i].key == log[j].key && log[j].at - log[i].at <= 10000
    ensures var log := After(Init(t), es).log;
      exists k :: i < k < j && (log[k].Cleared? || log[k].key != log[i].key)
  {
    RunInv(Init(t), es);
    var m := After(Init(t), es);
    var key := m.log[i].key;
    if OnlyFor(m.log, key, i, j) {
      GapsAddUp(m, key, i, j);
      assert false;
    }
    var k :| i <= k <= j && k < |m.log| && !(m.log[k].Asked? && m.log[k].key == key);
    assert k != i && k != j;
  }

  /** It happens: deselect the site and select it again, and it is asked for again at once. */
  lemma RepeatAfterClearing()
    ensures var a := Key(1, true, 0);
      var es := [Effect(Some(a), true, false, 0), Effect(None, true, false, 1), Effect(Some(a), true, false, 2)];
      PossibleRun(Init(0), es) && After(Init(0), es).log == [Asked(1, a, 0), Cleared, Asked(2, a, 2)]
  {
    var a := Key(1, true, 0);
    var m1 := Next(Init(0), Effect(Some(a), true, false, 0));
    var m2 := Next(m1, Effect(None, true, false, 1));
    var m3 := Next(m2, Effect(Some(a), true, false, 2));
    var e3 := [Effect(Some(a), true, false, 2)];
    var e2 := [Effect(None, true, false, 1)] + e3;
    var e1 := [Effect(Some(a), true, false, 0)] + e2;
    assert e3[1..] == [] && e2[1..] == e3 && e1[1..] == e2;
    assert PossibleRun(m3, []) && After(m3, []) == m3;
    assert PossibleRun(m2, e3) && After(m2, e3) == m3;
    assert PossibleRun(m1, e2) && After(m1, e2) == m3;
    assert e1 == [Effect(Some(a), true, false, 0), Effect(None, true, false, 1), Effect(Some(a), true, false, 2)];
  }

  predicate NoEffects(es: seq<Event>) { forall k :: 0 <= k < |es| ==> !es[k].Effect? }

  predicate NoSites(es: seq<Event>) { forall k :: 0 <= k < |es| && es[k].Effect? ==> es[k].site.None? }

  /** The answer to request n arrives, and the effect does not run after it. */
  predicate ArrivesLast(es: seq<Event>, n: nat) {
    es != [] && ((es[0] == Answer(n) && NoEffects(es[1..])) || ArrivesLast(es[1..], n))
  }

  lemma {:induction false} RouteThroughNoSites(m: Map, es: seq<Event>)
    requires PossibleRun(m, es) && NoSites(es) && m.key.None?
    ensures After(m, es).key.None?
    ensures After(m, es).route.Some? <==> (m.route.Some? && NoEffects(es)) || ArrivesLast(es, m.seq_)
    decreases |es|
  {
    if es != [] {
      assert es == [es[0]] + es[1..];
      assert NoSites(es[1..]) && (NoEffects(es) <==> !es[0].Effect? && NoEffects(es[1..]));
      RouteThroughNoSites(Next(m, es[0]), es[1..]);
    }
  }

  /** Once the site is deselected, and until one is selected again, a route is held exactly if the answer to the last request
    * arrives and the effect does not run once more: deselecting discards what is held, not what is on its way. */
  lemma RouteWithoutSite(m: Map, here: bool, farOff: bool, now: int, es: seq<Event>)
    requires Possible(m, Effect(None, here, farOff, now))
    requires PossibleRun(Next(m, Effect(None, here, farOff, now)), es) && NoSites(es)
    ensures var c := Next(m, Effect(None, here, farOff, now));
      After(c, es).key.None? && (After(c, es).route.Some? <==> ArrivesLast(es, m.seq_))
  {
    RouteThroughNoSites(Next(m, Effect(None, here, farOff, now)), es);
  }

  /** It happens: select a site, deselect it, and then its route arrives. */
  lemma LateRouteExample()
    ensures var a := Key(1, true, 0);
      var es := [Effect(Some(a), true, false, 0), Effect(None, true, false, 1), Answer(1)];
      PossibleRun(Init(0), es) && After(Init(0), es).key == None && After(Init(0), es).route == Some(Route(1, a))
  {
    var a := Key(1, true, 0);
    var m1 := Next(Init(0), Effect(Some(a), true, false, 0));
    var m2 := Next(m1, Effect(None, true, false, 1));
    var m3 := Next(m2, Answer(1));
    var e3 := [Answer(1)];
    var e2 := [Effect(None, true, false, 1)] + e3;
    var e1 := [Effect(Some(a), true, false, 0)] + e2;
    assert e3[1..] == [] && e2[1..] == e3 && e1[1..] == e2;
    assert PossibleRun(m3, []) && After(m3, []) == m3;
    assert PossibleRun(m2, e3) && After(m2, e3) == m3;
    assert PossibleRun(m1, e2) && After(m1, e2) == m3;
    assert e1 == [Effect(Some(a), true, false, 0), Effect(None, true, false, 1), Answer(1)];
  }
}
