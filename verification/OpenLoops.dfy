/** The load sender of the restart test: open loops that share one cap on requests in flight
  * (backend/src/selftest-restarts.js). */
module OpenLoops {
  import opened Common

  datatype Answer = Answer(key: nat, status: nat)

  /** One loop: the next key, how many requests are in flight and how many were not sent; then which keys were sent, which
    * of them are still open, and the answers recorded. */
  datatype Loop = Loop(i: nat, inFlight: nat, notSent: nat, sent: seq<nat>, open: multiset<nat>, answers: seq<Answer>)

  /** What the loops share. */
  datatype Tally = Tally(sending: bool, inFlightAll: nat, peak: nat)

  datatype Sender = Sender(cap: nat, tally: Tally, loops: seq<Loop>)

  datatype Event =
    | Tick(l: nat, due: nat)
    | Recorded(l: nat, answer: Answer)
    | Stop

  const IDLE := Loop(0, 0, 0, [], multiset{}, [])

  function Init(cap: nat, n: nat): Sender { Sender(cap, Tally(true, 0, 0), seq(n, _ => IDLE)) }

  /** How many of the requests due at a tick fit under the cap. */
  function Fits(l: Loop, t: Tally, cap: nat, due: nat): nat {
    if l.i < due && t.inFlightAll < cap then Min(due - l.i, cap - t.inFlightAll) else 0
  }

  function Consecutive(first: nat, n: nat): seq<nat> { seq(n, k requires 0 <= k => first + k) }

  /** The next n requests sent. */
  function Sent(l: Loop, n: nat): Loop {
    Loop(l.i + n, l.inFlight + n, l.notSent, l.sent + Consecutive(l.i, n), l.open + multiset(Consecutive(l.i, n)), l.answers)
  }

  function SentTally(t: Tally, n: nat): Tally {
    t.(inFlightAll := t.inFlightAll + n, peak := if n > 0 && t.inFlightAll + n > t.peak then t.inFlightAll + n else t.peak)
  }

  /** A tick at once: the first requests due are sent as far as they fit, the rest are counted and passed over. */
  function Ticked(l: Loop, t: Tally, cap: nat, due: nat): Loop {
    if due <= l.i then l
    else
      var l' := Sent(l, Fits(l, t, cap, due));
      l'.(i := due, notSent := l.notSent + (due - l'.i))
  }

  function TickedTally(l: Loop, t: Tally, cap: nat, due: nat): Tally { SentTally(t, Fits(l, t, cap, due)) }

  lemma SendNone(l: Loop, t: Tally)
    ensures Sent(l, 0) == l && SentTally(t, 0) == t
  {
    assert Consecutive(l.i, 0) == [];
  }

  lemma SendOne(l: Loop, t: Tally, n: nat)
    requires t.inFlightAll <= t.peak
    ensures Sent(Sent(l, n), 1) == Sent(l, n + 1) && SentTally(SentTally(t, n), 1) == SentTally(t, n + 1)
  {
    assert Consecutive(l.i, n + 1) == Consecutive(l.i, n) + Consecutive(l.i + n, 1);
  }

  function Answered(l: Loop, a: Answer): Loop
    requires l.inFlight > 0
  {
    l.(inFlight := l.inFlight - 1, open := l.open - multiset{a.key}, answers := l.answers + [a])
  }

  class Counters {
    const cap: nat
    var sending: bool
    var inFlightAll: nat
    var peakInFlight: nat

    ghost function State(): Tally
      reads this
    {
      Tally(sending, inFlightAll, peakInFlight)
    }

    constructor (cap: nat)
      ensures this.cap == cap && State() == Tally(true, 0, 0)
    {
      this.cap, sending, inFlightAll, peakInFlight := cap, true, 0, 0;
    }
  }

  /** A loop over the shared counters. */
  class OpenLoop {
    const shared: Counters
    var i: nat
    var inFlight: nat
    var notSent: nat
    var into: seq<Answer>
    ghost var sent: seq<nat>
    ghost var open: multiset<nat>

    ghost function State(): Loop
      reads this
    {
      Loop(i, inFlight, notSent, sent, open, into)
    }

    constructor (c: Counters)
      ensures shared == c && State() == IDLE
    {
      shared, i, inFlight, notSent, into, sent, open := c, 0, 0, 0, [], [], multiset{};
    }

    /** One request: made, counted and sent. */
    method Send()
      modifies this, shared
      ensures State() == Sent(old(State()), 1) && shared.State() == SentTally(old(shared.State()), 1)
    {
      assert Consecutive(i, 1) == [i];
      sent, open := sent + [i], open + multiset{i};
      i, inFlight := i + 1, inFlight + 1;
      shared.inFlightAll := shared.inFlightAll + 1;
      if shared.inFlightAll > shared.peakInFlight { shared.peakInFlight := shared.inFlightAll; }
    }

    /** The inner loop of one tick, request by request. */
    method Tick(due: nat)
      requires shared.inFlightAll <= shared.peakInFlight
      modifies this, shared
      ensures State() == Ticked(old(State()), old(shared.State()), shared.cap, due)
      ensures shared.State() == TickedTally(old(State()), old(shared.State()), shared.cap, due)
    {
      ghost var l0, t0 := State(), shared.State();
      ghost var n := 0;
      SendNone(l0, t0);
      while i < due
        invariant i == l0.i + n && n <= Fits(l0, t0, shared.cap, due)
        invariant State() == Sent(l0, n) && shared.State() == SentTally(t0, n)
      {
        if shared.inFlightAll >= shared.cap {
          notSent := notSent + (due - i);
          i := due;
          break;
        }
        SendOne(l0, t0, n);
        hide Sent, SentTally;
        Send();
        n := n + 1;
      }
    }

    /** The last try of a request has an answer. */
    method Record(a: Answer)
      requires a.key in open && inFlight > 0 && shared.inFlightAll > 0
      modifies this, shared
      ensures State() == Answered(old(State()), a)
      ensures shared.State() == old(shared.State()).(inFlightAll := old(shared.inFlightAll) - 1)
    {
      into, inFlight, open := into + [a], inFlight - 1, open - multiset{a.key};
      shared.inFlightAll := shared.inFlightAll - 1;
    }
  }

  // ---- the invariant ----

  function Keys(s: seq<Answer>): seq<nat> { seq(|s|, k requires 0 <= k < |s| => s[k].key) }

  function InFlights(loops: seq<Loop>): nat {
    if loops == [] then 0 else InFlights(loops[..|loops| - 1]) + loops[|loops| - 1].inFlight
  }

  ghost predicate SentBelow(l: Loop) { forall k :: 0 <= k < |l.sent| ==> l.sent[k] < l.i }

  /** Due is sent plus not sent, keys never repeat, and a key sent is either open or answered. */
  ghost predicate LoopInv(l: Loop) {
    && l.i == |l.sent| + l.notSent
    && Increasing(l.sent) && SentBelow(l)
    && l.inFlight == |l.open|
    && multiset(l.sent) == l.open + multiset(Keys(l.answers))
  }

  ghost predicate LoopsInv(loops: seq<Loop>) { forall k :: 0 <= k < |loops| ==> LoopInv(loops[k]) }

  ghost predicate Inv(s: Sender) {
    LoopsInv(s.loops) && s.tally.inFlightAll == InFlights(s.loops) && s.tally.inFlightAll <= s.tally.peak <= s.cap
  }

  predicate Possible(s: Sender, e: Event) {
    match e
    case Tick(l, _) => l < |s.loops| && s.tally.sending
    case Recorded(l, a) => l < |s.loops| && a.key in s.loops[l].open && s.loops[l].inFlight > 0 && s.tally.inFlightAll > 0
    case Stop => true
  }

  function Next(s: Sender, e: Event): Sender
    requires Possible(s, e)
  {
    match e
    case Tick(l, due) =>
      s.(loops := s.loops[l := Ticked(s.loops[l], s.tally, s.cap, due)], tally := TickedTally(s.loops[l], s.tally, s.cap, due))
    case Recorded(l, a) =>
      s.(loops := s.loops[l := Answered(s.loops[l], a)], tally := s.tally.(inFlightAll := s.tally.inFlightAll - 1))
    case Stop => s.(tally := s.tally.(sending := false))
  }

  lemma {:induction false} InFlightsUpdate(loops: seq<Loop>, k: nat, l: Loop)
    requires k < |loops|
    ensures InFlights(loops[k := l]) == InFlights(loops) - loops[k].inFlight + l.inFlight
  {
    var n := |loops| - 1;
    if k == n {
      assert loops[k := l][..n] == loops[..n];
    } else {
      InFlightsUpdate(loops[..n], k, l);
      assert loops[k := l][..n] == loops[..n][k := l];
    }
  }

  lemma {:induction false} NoneInFlight(cap: nat, n: nat)
    ensures InFlights(Init(cap, n).loops) == 0
  {
    if n > 0 {
      assert Init(cap, n).loops[..n - 1] == Init(cap, n - 1).loops;
      NoneInFlight(cap, n - 1);
    }
  }

  lemma TickKeeps(l: Loop, t: Tally, cap: nat, due: nat)
    requires LoopInv(l)
    ensures LoopInv(Ticked(l, t, cap, due))
    ensures Ticked(l, t, cap, due).inFlight == l.inFlight + Fits(l, t, cap, due)
  {
    if l.i < due {
      var c := Consecutive(l.i, Fits(l, t, cap, due));
      assert multiset(l.sent + c) == multiset(l.sent) + multiset(c);
      assert |multiset(c)| == |c|;
    }
  }

  lemma AnswerKeeps(l: Loop, a: Answer)
    requires LoopInv(l) && a.key in l.open && l.inFlight > 0
    ensures LoopInv(Answered(l, a))
  {
    var l' := Answered(l, a);
    assert Keys(l'.answers) == Keys(l.answers) + [a.key];
    assert multiset(Keys(l'.answers)) == multiset(Keys(l.answers)) + multiset{a.key};
    assert l.open == l'.open + multiset{a.key};
  }

  lemma LoopsUpdate(loops: seq<Loop>, k: nat, l: Loop)
    requires LoopsInv(loops) && k < |loops| && LoopInv(l)
    ensures LoopsInv(loops[k := l])
    ensures InFlights(loops[k := l]) == InFlights(loops) - loops[k].inFlight + l.inFlight
  {
    InFlightsUpdate(loops, k, l);
  }

  lemma KeepTick(s: Sender, l: nat, due: nat)
    requires Inv(s) && Possible(s, Tick(l, due))
    ensures Inv(Next(s, Tick(l, due)))
  {
    TickKeeps(s.loops[l], s.tally, s.cap, due);
    hide LoopInv, LoopsInv, InFlights, Ticked;
    LoopsUpdate(s.loops, l, Ticked(s.loops[l], s.tally, s.cap, due));
  }

  lemma KeepRecorded(s: Sender, l: nat, a: Answer)
    requires Inv(s) && Possible(s, Recorded(l, a))
    ensures Inv(Next(s, Recorded(l, a)))
  {
    AnswerKeeps(s.loops[l], a);
    hide LoopInv, LoopsInv, InFlights;
    LoopsUpdate(s.loops, l, Answered(s.loops[l], a));
  }

  lemma KeepInv(s: Sender, e: Event)
    requires Inv(s) && Possible(s, e)
    ensures Inv(Next(s, e))
  {
    match e
    case Tick(l, due) => KeepTick(s, l, due);
    case Recorded(l, a) => KeepRecorded(s, l, a);
    case Stop =>
  }

  lemma {:induction false} InFlightsCover(loops: seq<Loop>, k: nat)
    requires k < |loops|
    ensures loops[k].inFlight <= InFlights(loops)
  {
    if k < |loops| - 1 { InFlightsCover(loops[..|loops| - 1], k); }
  }

  /** The counters never fall short: a request still open can always be answered. */
  lemma OpenIsCounted(s: Sender, l: nat, a: Answer)
    requires Inv(s) && l < |s.loops| && a.key in s.loops[l].open
    ensures Possible(s, Recorded(l, a))
  {
    assert LoopInv(s.loops[l]);
    InFlightsCover(s.loops, l);
  }

  // ---- whole runs ----

  ghost predicate PossibleRun(s: Sender, es: seq<Event>)
    decreases |es|
  {
    es == [] || (Possible(s, es[0]) && PossibleRun(Next(s, es[0]), es[1..]))
  }

  ghost function After(s: Sender, es: seq<Event>): Sender
    requires PossibleRun(s, es)
    decreases |es|
  {
    if es == [] then s else After(Next(s, es[0]), es[1..])
  }

  lemma {:induction false} RunInv(s: Sender, es: seq<Event>)
    requires Inv(s) && PossibleRun(s, es)
    ensures Inv(After(s, es)) && After(s, es).cap == s.cap && |After(s, es).loops| == |s.loops|
    decreases |es|
  {
    if es != [] {
      KeepInv(s, es[0]);
      RunInv(Next(s, es[0]), es[1..]);
    }
  }

  lemma FromStart(cap: nat, n: nat, es: seq<Event>)
    requires PossibleRun(Init(cap, n), es)
    ensures Inv(After(Init(cap, n), es)) && After(Init(cap, n), es).cap == cap && |After(Init(cap, n), es).loops| == n
  {
    NoneInFlight(cap, n);
    RunInv(Init(cap, n), es);
  }

  /** However ticks and answers of all loops interleave, requests in flight never exceed the cap and the shared count is the
    * sum of the loops' own. */
  lemma CapHolds(cap: nat, n: nat, es: seq<Event>)
    requires PossibleRun(Init(cap, n), es)
    ensures var s := After(Init(cap, n), es); InFlights(s.loops) == s.tally.inFlightAll <= s.tally.peak <= cap
  {
    FromStart(cap, n, es);
  }

  /** The most requests in flight after any event of a run. */
  ghost function Highest(s: Sender, es: seq<Event>): nat
    requires PossibleRun(s, es)
    decreases |es|
  {
    if es == [] then s.tally.inFlightAll
    else var h := Highest(Next(s, es[0]), es[1..]); if h > s.tally.inFlightAll then h else s.tally.inFlightAll
  }

  lemma {:induction false} PeakGrows(s: Sender, es: seq<Event>)
    requires PossibleRun(s, es) && s.tally.inFlightAll <= s.tally.peak
    ensures After(s, es).tally.peak == if Highest(s, es) > s.tally.peak then Highest(s, es) else s.tally.peak
    decreases |es|
  {
    if es != [] { PeakGrows(Next(s, es[0]), es[1..]); }
  }

  /** The peak reported is the most requests that were ever in flight, not a bound on it. */
  lemma PeakIsTheHighest(cap: nat, n: nat, es: seq<Event>)
    requires PossibleRun(Init(cap, n), es)
    ensures After(Init(cap, n), es).tally.peak == Highest(Init(cap, n), es)
  {
    PeakGrows(Init(cap, n), es);
  }

  lemma IncreasingCounts(s: seq<nat>, x: nat)
    requires Increasing(s)
    ensures multiset(s)[x] == if x in s then 1 else 0
  {
    if x in s {
      var k :| 0 <= k < |s| && s[k] == x;
      assert s == s[..k] + [x] + s[k + 1..];
      assert x !in multiset(s[..k]) && x !in multiset(s[k + 1..]);
      assert multiset(s) == multiset(s[..k]) + multiset{x} + multiset(s[k + 1..]);
    } else {
      assert x !in multiset(s);
    }
  }

  /** When a loop returns, everything that fell due was sent or counted as not sent, and each key sent has exactly one
    * recorded answer, a key not sent none. */
  lemma ReturnsWithEveryAnswer(cap: nat, n: nat, es: seq<Event>, k: nat, key: nat)
    requires PossibleRun(Init(cap, n), es) && k < n
    ensures |After(Init(cap, n), es).loops| == n
    ensures var l := After(Init(cap, n), es).loops[k];
      && l.i == |l.sent| + l.notSent
      && multiset(l.sent)[key] <= 1
      && (l.inFlight == 0 ==> |l.answers| == l.i - l.notSent && multiset(Keys(l.answers))[key] == if key in l.sent then 1 else 0)
  {
    FromStart(cap, n, es);
    var l := After(Init(cap, n), es).loops[k];
    assert LoopInv(l);
    IncreasingCounts(l.sent, key);
    if l.inFlight == 0 {
      assert l.open == multiset{};
      assert multiset(l.sent) == multiset(Keys(l.answers));
      assert |multiset(l.sent)| == |l.sent| && |multiset(Keys(l.answers))| == |Keys(l.answers)|;
    }
  }

  function AnswersTo(es: seq<Event>, k: nat): nat {
    if es == [] then 0 else (if es[0].Recorded? && es[0].l == k then 1 else 0) + AnswersTo(es[1..], k)
  }

  /** Once sending has stopped a loop can return as soon as each request then in flight was answered: nothing is sent any
    * more. */
  lemma {:induction false} StopsAfterItsAnswers(s: Sender, es: seq<Event>, k: nat)
    requires PossibleRun(s, es) && !s.tally.sending && k < |s.loops|
    ensures |After(s, es).loops| == |s.loops| && After(s, es).loops[k].sent == s.loops[k].sent
    ensures After(s, es).loops[k].inFlight + AnswersTo(es, k) == s.loops[k].inFlight
    decreases |es|
  {
    if es != [] { StopsAfterItsAnswers(Next(s, es[0]), es[1..], k); }
  }

  /** From the start on a tick sends: the first keys due, in order, as many as the cap lets through; and sending may be
    * stopped at any time. */
  lemma FirstTick(cap: nat, n: nat, k: nat, due: nat)
    requires k < n
    ensures Possible(Init(cap, n), Tick(k, due)) && forall s :: Possible(s, Stop)
    ensures Next(Init(cap, n), Tick(k, due)).loops[k].sent == seq(Min(due, cap), (j: int) => j)
  {
    assert Init(cap, n).loops[k] == IDLE;
    assert [] + Consecutive(0, Min(due, cap)) == seq(Min(due, cap), (j: int) => j);
  }

  /** Requests go unsent at a tick exactly when more are due than fit, and then the cap is reached; without that, every key
    * up to the last due is sent. */
  lemma UnsentOnlyAtTheCap(s: Sender, k: nat, due: nat)
    requires Inv(s) && k < |s.loops| && Possible(s, Tick(k, due))
    ensures var s' := Next(s, Tick(k, due)); var l, l' := s.loops[k], s'.loops[k];
      && (l'.notSent > l.notSent <==> due - l.i > s.cap - s.tally.inFlightAll)
      && (l'.notSent > l.notSent ==> s'.tally.inFlightAll == s.cap)
      && (l'.notSent == l.notSent ==> forall key :: l.i <= key < due ==> key in l'.sent)
  {
    var l, l' := s.loops[k], Next(s, Tick(k, due)).loops[k];
    if l'.notSent == l.notSent {
      forall key | l.i <= key < due ensures key in l'.sent {
        assert l'.sent[|l.sent| + (key - l.i)] == key;
      }
    }
  }
}
