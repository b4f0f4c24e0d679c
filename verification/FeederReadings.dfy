/** What the feeder indices say about the readings themselves: which side of which limit each one measures, over which
  * rows, and for how long (backend/src/domain/feederKpi.js), in percent of the feeder's nominal values.
  */
module FeederReadings {
  import opened Common
  import opened FeederKpi
  import opened FeederKpiLoop

  /** An interruption: all three voltages known and each under a tenth of nominal. */
  predicate Interrupted(r: Rating, s: Sample) {
    && R in s.v && Y in s.v && B in s.v
    && s.v[R] * 10.0 < r.vNominal && s.v[Y] * 10.0 < r.vNominal && s.v[B] * 10.0 < r.vNominal
  }

  lemma DeadExactly(r: Rating, s: Sample)
    ensures Dead(r, s) <==> Interrupted(r, s)
  {
    assert VDead(r) * 10.0 == r.vNominal;
  }

  /** Which side of which limit each kind measures: high is above and low is below its own percentage of nominal, for
    * volts and for amps, a reading at the limit is in neither, and an interruption is in none. */
  lemma BreachExactly(r: Rating, s: Sample, p: Phase)
    ensures Excess(r, Key(VH, Of(p)), s) <==> !Interrupted(r, s) && p in s.v && s.v[p] * 100.0 > r.vNominal * r.vHiPct
    ensures Excess(r, Key(VL, Of(p)), s) <==> !Interrupted(r, s) && p in s.v && s.v[p] * 100.0 < r.vNominal * r.vLoPct
    ensures Excess(r, Key(CH, Of(p)), s) <==> !Interrupted(r, s) && p in s.i && s.i[p] * 100.0 > r.iNominal * r.iHiPct
    ensures Excess(r, Key(CL, Of(p)), s) <==> !Interrupted(r, s) && p in s.i && s.i[p] * 100.0 < r.iNominal * r.iLoPct
  {
    DeadExactly(r, s);
    hide Dead, Interrupted;
  }

  /** The feeder is in excess exactly if one of its three phases is. */
  lemma FeederBreachExactly(r: Rating, k: Kind, s: Sample)
    ensures Excess(r, Key(k, Total), s) <==>
      Excess(r, Key(k, Of(R)), s) || Excess(r, Key(k, Of(Y)), s) || Excess(r, Key(k, Of(B)), s)
  {
    hide Dead, PhaseBreach;
    assert forall p :: p in {R, Y, B} && PhaseBreach(r, k, s, p) ==> p == R || p == Y || p == B;
    assert R in {R, Y, B} && Y in {R, Y, B} && B in {R, Y, B};
  }

  // ---- how often ----

  /** The row before row j, or the last sample before the period. */
  function Before(prior: Option<Sample>, rows: seq<Sample>, j: nat): Option<Sample>
    requires j <= |rows|
  {
    if j == 0 then prior else Some(rows[j - 1])
  }

  /** An excursion starts at row j: it is in excess, and the sample before it is missing, more than a gap away, or not in
    * excess. */
  predicate StartsAt(r: Rating, gap: nat, key: Key, prior: Option<Sample>, rows: seq<Sample>, j: nat)
    requires j < |rows|
  {
    var before := Before(prior, rows, j);
    && Excess(r, key, rows[j])
    && (before.None? || rows[j].t - before.value.t > gap || !Excess(r, key, before.value))
  }

  function Starts(r: Rating, gap: nat, key: Key, prior: Option<Sample>, rows: seq<Sample>): set<nat> {
    set j: nat | j < |rows| && StartsAt(r, gap, key, prior, rows, j)
  }

  lemma SameStart(r: Rating, gap: nat, key: Key, prior: Option<Sample>, rows: seq<Sample>, j: nat)
    requires j + 1 < |rows|
    ensures StartsAt(r, gap, key, prior, rows, j) == StartsAt(r, gap, key, prior, rows[..|rows| - 1], j)
  {
    hide Excess;
  }

  lemma LastStart(r: Rating, gap: nat, key: Key, prior: Option<Sample>, rows: seq<Sample>)
    requires rows != []
    ensures var n := |rows| - 1;
      |Starts(r, gap, key, prior, rows)| ==
      |Starts(r, gap, key, prior, rows[..n])| + (if StartsAt(r, gap, key, prior, rows, n) then 1 else 0)
  {
    hide StartsAt;
    var n := |rows| - 1;
    var all, rest := Starts(r, gap, key, prior, rows), Starts(r, gap, key, prior, rows[..n]);
    forall j: nat | j < n ensures StartsAt(r, gap, key, prior, rows, j) == StartsAt(r, gap, key, prior, rows[..n], j) {
      SameStart(r, gap, key, prior, rows, j);
    }
    assert n !in rest;
    if StartsAt(r, gap, key, prior, rows, n) {
      assert all == rest + {n};
    } else {
      assert all == rest;
    }
  }

  /** The incidents of a period are its rows at which an excursion starts. */
  lemma {:induction false} IncidentsExactly(r: Rating, gap: nat, key: Key, prior: Option<Sample>, rows: seq<Sample>)
    ensures Incidents(r, gap, key, prior, rows) == |Starts(r, gap, key, prior, rows)|
    decreases |rows|
  {
    if rows == [] {
      assert Starts(r, gap, key, prior, rows) == {};
    } else {
      var n := |rows| - 1;
      hide Excess, Starts;
      assert rows == rows[..n] + [rows[n]];
      IncidentsSplit(r, gap, key, prior, rows[..n], [rows[n]]);
      IncidentsExactly(r, gap, key, prior, rows[..n]);
      LastStart(r, gap, key, prior, rows);
      assert Last(prior, rows[..n]) == Before(prior, rows, n);
      OneIncident(r, gap, key, prior, rows, n);
    }
  }

  lemma OneIncident(r: Rating, gap: nat, key: Key, prior: Option<Sample>, rows: seq<Sample>, n: nat)
    requires n < |rows|
    ensures Incidents(r, gap, key, Before(prior, rows, n), [rows[n]]) == if StartsAt(r, gap, key, prior, rows, n) then 1 else 0
  {
    hide Excess;
    assert [rows[n]][1..] == [];
    assert Incidents(r, gap, key, Some(rows[n]), []) == 0;
  }

  // ---- for how long ----

  /** At instant u the newest row is j, it is less than a gap old and the period is not over. */
  predicate Showing(gap: nat, rows: seq<Sample>, end: int, j: nat, u: int)
    requires j < |rows|
  {
    rows[j].t <= u < end && u - rows[j].t < gap && (j + 1 < |rows| ==> u < rows[j + 1].t)
  }

  /** At instant u the row shown satisfies w. */
  ghost predicate ShownAt(w: Sample -> bool, gap: nat, rows: seq<Sample>, end: int, u: int) {
    exists j: nat :: j < |rows| && Showing(gap, rows, end, j, u) && w(rows[j])
  }

  /** The milliseconds of the period at which the row shown satisfies w. */
  ghost function Moments(w: Sample -> bool, gap: nat, rows: seq<Sample>, start: int, end: int): set<int> {
    set u | start <= u < end && ShownAt(w, gap, rows, end, u)
  }

  function OneIf(w: Sample -> bool): Sample -> real { s => if w(s) then 1.0 else 0.0 }

  predicate Within(lo: int, n: nat, u: int) { lo <= u < lo + n }

  function Span(lo: int, n: nat): set<int> { set u | lo <= u < lo + n && Within(lo, n, u) }

  lemma {:induction false} SpanSize(lo: int, n: nat)
    ensures |Span(lo, n)| == n
  {
    if n == 0 {
      assert Span(lo, n) == {};
    } else {
      SpanSize(lo, n - 1);
      assert Span(lo, n) == Span(lo, n - 1) + {lo + n - 1};
    }
  }

  /** Rows of the period, in time order. */
  ghost predicate InPeriod(rows: seq<Sample>, start: int, end: int) {
    Sorted(rows) && forall k :: 0 <= k < |rows| ==> start <= rows[k].t < end
  }

  /** When the first row is shown. */
  lemma FirstShown(gap: nat, rows: seq<Sample>, start: int, end: int, u: int)
    requires rows != [] && InPeriod(rows, start, end)
    ensures Showing(gap, rows, end, 0, u) <==> u in Span(rows[0].t, HoldMs(gap, rows[0].t, NextTime(rows, end), end))
  {
  }

  /** Every other row is shown as it is in the rest, from the second row's time on. */
  lemma LaterShown(gap: nat, rows: seq<Sample>, start: int, end: int, j: nat, u: int)
    requires InPeriod(rows, start, end) && 0 < j < |rows|
    ensures Showing(gap, rows, end, j, u) <==> Showing(gap, rows[1..], end, j - 1, u)
    ensures Showing(gap, rows, end, j, u) ==> NextTime(rows, end) <= u
  {
  }

  lemma ShownFirstOrLater(w: Sample -> bool, gap: nat, rows: seq<Sample>, start: int, end: int, u: int)
    requires rows != [] && InPeriod(rows, start, end)
    ensures var first := Span(rows[0].t, HoldMs(gap, rows[0].t, NextTime(rows, end), end));
      && (ShownAt(w, gap, rows, end, u) <==> (u in first && w(rows[0])) || ShownAt(w, gap, rows[1..], end, u))
      && !(u in first && ShownAt(w, gap, rows[1..], end, u))
  {
    FirstShown(gap, rows, start, end, u);
    forall j: nat | 0 < j < |rows|
      ensures Showing(gap, rows, end, j, u) <==> Showing(gap, rows[1..], end, j - 1, u)
      ensures Showing(gap, rows, end, j, u) ==> NextTime(rows, end) <= u
    {
      LaterShown(gap, rows, start, end, j, u);
    }
    assert u in Span(rows[0].t, HoldMs(gap, rows[0].t, NextTime(rows, end), end)) ==> u < NextTime(rows, end);
    hide Span, HoldMs, NextTime;
    assert forall j: nat :: j < |rows[1..]| ==> rows[1..][j] == rows[j + 1];
    hide Showing;
    LaterOnly(w, gap, rows, end, u);
  }

  /** Shown by the first row, or by one of the rest. */
  lemma LaterOnly(w: Sample -> bool, gap: nat, rows: seq<Sample>, end: int, u: int)
    requires rows != []
    requires forall j: nat :: 0 < j < |rows| ==> (Showing(gap, rows, end, j, u) <==> Showing(gap, rows[1..], end, j - 1, u))
    ensures ShownAt(w, gap, rows, end, u) <==> (Showing(gap, rows, end, 0, u) && w(rows[0])) || ShownAt(w, gap, rows[1..], end, u)
    ensures ShownAt(w, gap, rows[1..], end, u) ==> exists j: nat :: 0 < j < |rows| && Showing(gap, rows, end, j, u)
  {
    hide Showing;
    if ShownAt(w, gap, rows, end, u) {
      var j: nat :| j < |rows| && Showing(gap, rows, end, j, u) && w(rows[j]);
      if j > 0 { assert Showing(gap, rows[1..], end, j - 1, u) && w(rows[1..][j - 1]); }
    }
    if ShownAt(w, gap, rows[1..], end, u) {
      var j: nat :| j < |rows[1..]| && Showing(gap, rows[1..], end, j, u) && w(rows[1..][j]);
      assert j + 1 < |rows| && Showing(gap, rows[1..], end, (j + 1) - 1, u);
      assert Showing(gap, rows, end, j + 1, u) && w(rows[j + 1]);
    }
  }

  lemma MomentsSplit(w: Sample -> bool, gap: nat, rows: seq<Sample>, start: int, end: int)
    requires rows != [] && InPeriod(rows, start, end)
    ensures |Moments(w, gap, rows, start, end)| == |Moments(w, gap, rows[1..], start, end)| +
      (if w(rows[0]) then HoldMs(gap, rows[0].t, NextTime(rows, end), end) else 0)
  {
    var hold := HoldMs(gap, rows[0].t, NextTime(rows, end), end);
    var first, rest := Span(rows[0].t, hold), Moments(w, gap, rows[1..], start, end);
    SpanSize(rows[0].t, hold);
    forall u
      ensures ShownAt(w, gap, rows, end, u) <==> (u in first && w(rows[0])) || ShownAt(w, gap, rows[1..], end, u)
      ensures !(u in first && ShownAt(w, gap, rows[1..], end, u))
    {
      ShownFirstOrLater(w, gap, rows, start, end, u);
    }
    assert forall u :: u in first ==> start <= u < end;
    hide ShownAt, Span, HoldMs;
    if w(rows[0]) {
      assert Moments(w, gap, rows, start, end) == first + rest && first !! rest;
    } else {
      assert Moments(w, gap, rows, start, end) == rest;
    }
  }

  /** A time-weighted sum of ones is the number of milliseconds at which such a row is shown, in minutes. */
  lemma {:induction false} MomentsExactly(w: Sample -> bool, gap: nat, rows: seq<Sample>, start: int, end: int)
    requires InPeriod(rows, start, end)
    ensures Weighted(OneIf(w), gap, rows, end) * 60000.0 == |Moments(w, gap, rows, start, end)| as real
  {
    if rows == [] {
      assert Moments(w, gap, rows, start, end) == {};
    } else {
      MomentsExactly(w, gap, rows[1..], start, end);
      MomentsSplit(w, gap, rows, start, end);
      hide Moments, HoldMs, NextTime;
    }
  }

  lemma {:induction false} SameWeights(v: Sample -> real, w: Sample -> real, gap: nat, rows: seq<Sample>, end: int)
    requires forall s :: v(s) == w(s)
    ensures Weighted(v, gap, rows, end) == Weighted(w, gap, rows, end)
  {
    if rows != [] { SameWeights(v, w, gap, rows[1..], end); }
  }

  /** The minutes of an index are the milliseconds of the period at which the newest sample, less than a gap old, is in
    * excess; the covered time is those at which there is such a sample at all. */
  lemma MinutesExactly(r: Rating, gap: nat, key: Key, samples: seq<Sample>, start: int, end: int)
    ensures var rows := Rows(samples, start, end);
      && Minutes(r, gap, key, rows, end) * 60000.0 == |Moments(s => Excess(r, key, s), gap, rows, start, end)| as real
      && Covered(gap, rows, end) * 60000.0 == |Moments(s => true, gap, rows, start, end)| as real
  {
    var rows := Rows(samples, start, end);
    RowsWithin(samples, start, end);
    RowsSorted(samples, start, end);
    hide Rows, Excess, Moments;
    MomentsExactly(s => Excess(r, key, s), gap, rows, start, end);
    MomentsExactly(s => true, gap, rows, start, end);
    SameWeights(ExcessWeight(r, key), OneIf(s => Excess(r, key, s)), gap, rows, end);
    SameWeights(Unit(), OneIf(s => true), gap, rows, end);
  }

  lemma {:induction false} InsertKeeps(s: Sample, rows: seq<Sample>)
    ensures multiset(Insert(s, rows)) == multiset(rows) + multiset{s}
  {
    if rows == [] || s.t <= rows[0].t {
    } else {
      InsertKeeps(s, rows[1..]);
      assert rows == [rows[0]] + rows[1..];
    }
  }

  /** The rows of a period are its samples, each as often as it was given, and no others. */
  lemma {:induction false} RowsExactly(samples: seq<Sample>, start: int, end: int, s: Sample)
    ensures multiset(Rows(samples, start, end))[s] == if start <= s.t < end then multiset(samples)[s] else 0
  {
    if samples != [] {
      RowsExactly(samples[1..], start, end, s);
      assert samples == [samples[0]] + samples[1..];
      InsertKeeps(samples[0], Rows(samples[1..], start, end));
    }
  }

  // ---- how far ----

  function Nom(r: Rating, q: Quantity): real { if q.Volts? then r.vNominal else r.iNominal }

  function HiPct(r: Rating, q: Quantity): real { if q.Volts? then r.vHiPct else r.iHiPct }

  /** Stress is measured from the high limit: what a live reading is above it, and nothing at or below it. */
  lemma AboveExactly(r: Rating, q: Quantity, p: Phase, s: Sample)
    ensures var x, live := if q.Volts? then s.v else s.i, !Interrupted(r, s);
      && (Above(r, q, p, s) > 0.0 <==> live && p in x && x[p] * 100.0 > Nom(r, q) * HiPct(r, q))
      && (Above(r, q, p, s) > 0.0 ==> (x[p] - Above(r, q, p, s)) * 100.0 == Nom(r, q) * HiPct(r, q))
      && Above(r, q, p, s) >= 0.0
  {
    DeadExactly(r, s);
    hide Dead, Interrupted;
    if q.Volts? {
      assert VHi(r) * 100.0 == r.vNominal * r.vHiPct;
    } else {
      assert IHi(r) * 100.0 == r.iNominal * r.iHiPct;
    }
  }

  /** x is pct percent of nominal. */
  predicate IsPct(pct: real, x: real, nominal: real) { pct * nominal == x * 100.0 }

  lemma PctExactly(r: Rating, q: Quantity, x: real)
    requires Nominal(r)
    ensures IsPct(Pct(r, q, x), x, Nom(r, q))
  {
    var n := Nom(r, q);
    assert x / n * n == x;
    assert x / n * 100.0 * n == x / n * n * 100.0;
  }

  /** A live reading is taken in percent of its own nominal value. */
  lemma LivePctExactly(r: Rating, q: Quantity, p: Phase, s: Sample)
    requires Nominal(r)
    ensures var x := if q.Volts? then s.v else s.i;
      && (LivePct(r, q, p, s).Some? <==> !Interrupted(r, s) && p in x)
      && (LivePct(r, q, p, s).Some? ==> IsPct(LivePct(r, q, p, s).value, x[p], Nom(r, q)))
  {
    DeadExactly(r, s);
    if p in Reading(q, s) { PctExactly(r, q, Reading(q, s)[p]); }
    hide Dead, Interrupted, Pct;
  }

  /** A voltage sag is a residual voltage from a tenth of nominal up to, and not including, the sag limit. */
  lemma SagVoltsExactly(r: Rating, p: Phase, s: Sample)
    requires Nominal(r)
    ensures SagVolts(r, p, s).Some? <==>
      !Interrupted(r, s) && p in s.v && s.v[p] * 10.0 >= r.vNominal && s.v[p] * 100.0 < r.vNominal * r.vSagPct
    ensures SagVolts(r, p, s).Some? ==> IsPct(SagVolts(r, p, s).value, s.v[p], r.vNominal)
  {
    DeadExactly(r, s);
    assert VDead(r) * 10.0 == r.vNominal && VSag(r) * 100.0 == r.vNominal * r.vSagPct;
    if p in s.v { PctExactly(r, Volts, s.v[p]); }
    hide Dead, Interrupted, Pct, VDead, VSag;
  }

  /** A current sag is a fall by more than the drop limit from a flowing current at most a gap before, both samples live,
    * and not to zero. */
  lemma SagAmpsExactly(r: Rating, gap: nat, p: Phase, prev: Option<Sample>, s: Sample)
    requires Nominal(r)
    ensures SagAmps(r, gap, p, prev, s).Some? <==>
      && prev.Some? && s.t - prev.value.t <= gap && !Interrupted(r, prev.value) && !Interrupted(r, s)
      && p in prev.value.i && p in s.i && prev.value.i[p] > 0.0 && s.i[p] > 0.0
      && (prev.value.i[p] - s.i[p]) * 100.0 > prev.value.i[p] * r.iSagDropPct
    ensures SagAmps(r, gap, p, prev, s).Some? ==> IsPct(SagAmps(r, gap, p, prev, s).value, s.i[p], r.iNominal)
  {
    DeadExactly(r, s);
    if prev.Some? { DeadExactly(r, prev.value); }
    if p in s.i { PctExactly(r, Amps, s.i[p]); }
    if prev.Some? && p in prev.value.i { DropScaled(prev.value.i[p], r.iSagDropPct); }
    hide Dead, Interrupted, Pct;
  }

  lemma DropScaled(x: real, drop: real)
    ensures x * (1.0 - drop / 100.0) * 100.0 == x * 100.0 - x * drop
  {
    var d := drop / 100.0;
    assert d * 100.0 == drop;
    assert x * (1.0 - d) == x - x * d;
    assert x * d * 100.0 == x * drop;
  }

  /** f percent is the largest current over the smallest. */
  ghost predicate IsImbalance(f: real, i: map<Phase, real>)
    requires {R, Y, B} <= i.Keys
  {
    && (forall p, q :: p in {R, Y, B} && q in {R, Y, B} ==> i[p] * 100.0 <= Times(f, i[q]))
    && (exists p, q :: p in {R, Y, B} && q in {R, Y, B} && i[p] * 100.0 == Times(f, i[q]))
  }

  /** Imbalance is taken exactly where a live feeder carries current in all three phases and at least a twentieth of
    * nominal in one. */
  lemma ImbalanceExactly(r: Rating, s: Sample)
    requires Nominal(r)
    ensures Imbalance(r, s).Some? <==>
      && !Interrupted(r, s) && {R, Y, B} <= s.i.Keys && s.i[R] > 0.0 && s.i[Y] > 0.0 && s.i[B] > 0.0
      && (s.i[R] * 20.0 >= r.iNominal || s.i[Y] * 20.0 >= r.iNominal || s.i[B] * 20.0 >= r.iNominal)
    ensures Imbalance(r, s).Some? ==> IsImbalance(Imbalance(r, s).value, s.i)
  {
    DeadExactly(r, s);
    hide Dead, Interrupted;
    if !Dead(r, s) && (forall p :: p in {R, Y, B} ==> p in s.i && s.i[p] > 0.0) {
      assert R in s.i && Y in s.i && B in s.i && s.i[R] > 0.0 && s.i[Y] > 0.0 && s.i[B] > 0.0;
      var hi, lo := MaxR(MaxR(s.i[R], s.i[Y]), s.i[B]), MinR(MinR(s.i[R], s.i[Y]), s.i[B]);
      EnoughLoad(r, hi);
      Ratio(hi, lo);
      Largest(s.i, hi, lo, hi / lo * 100.0);
    } else {
      assert !({R, Y, B} <= s.i.Keys && s.i[R] > 0.0 && s.i[Y] > 0.0 && s.i[B] > 0.0 && !Dead(r, s));
    }
  }

  lemma EnoughLoad(r: Rating, x: real)
    requires Nominal(r)
    ensures Pct(r, Amps, x) >= FLIF_MIN_LOAD_PCT <==> x * 20.0 >= r.iNominal
  {
    PctExactly(r, Amps, x);
    var p := Pct(r, Amps, x);
    hide Pct;
    if p >= 5.0 {
      assert p * r.iNominal >= 5.0 * r.iNominal;
    } else {
      assert p * r.iNominal < 5.0 * r.iNominal;
    }
  }

  lemma Scaled(f: real, x: real, y: real)
    requires f > 0.0 && x <= y
    ensures Times(f, x) <= Times(f, y)
  {
  }

  lemma LargestAt(i: map<Phase, real>, hi: real)
    requires {R, Y, B} <= i.Keys && hi == MaxR(MaxR(i[R], i[Y]), i[B])
    ensures (forall p :: p in {R, Y, B} ==> i[p] <= hi) && exists p :: p in {R, Y, B} && i[p] == hi
  {
    assert R in {R, Y, B} && Y in {R, Y, B} && B in {R, Y, B};
  }

  lemma SmallestAt(i: map<Phase, real>, lo: real)
    requires {R, Y, B} <= i.Keys && lo == MinR(MinR(i[R], i[Y]), i[B])
    ensures (forall p :: p in {R, Y, B} ==> lo <= i[p]) && exists p :: p in {R, Y, B} && i[p] == lo
  {
    assert R in {R, Y, B} && Y in {R, Y, B} && B in {R, Y, B};
  }

  lemma Ratio(hi: real, lo: real)
    requires hi > 0.0 && lo > 0.0
    ensures hi / lo * 100.0 > 0.0 && hi / lo * 100.0 * lo == hi * 100.0
  {
    var x := hi / lo;
    assert x * lo == hi;
    assert x > 0.0;
  }

  lemma Largest(i: map<Phase, real>, hi: real, lo: real, f: real)
    requires {R, Y, B} <= i.Keys && f > 0.0 && Times(f, lo) == hi * 100.0
    requires hi == MaxR(MaxR(i[R], i[Y]), i[B]) && lo == MinR(MinR(i[R], i[Y]), i[B])
    ensures IsImbalance(f, i)
  {
    LargestAt(i, hi);
    SmallestAt(i, lo);
    hide MaxR, MinR, Times;
    forall p, q | p in {R, Y, B} && q in {R, Y, B} ensures i[p] * 100.0 <= Times(f, i[q]) {
      Scaled(f, lo, i[q]);
    }
    var p :| p in {R, Y, B} && i[p] == hi;
    var q :| q in {R, Y, B} && i[q] == lo;
    assert i[p] * 100.0 == Times(f, i[q]);
  }

  // ---- over the period ----

  /** x is the largest of the values found at the rows, None if there is none. */
  ghost predicate IsLargest(x: Option<real>, found: seq<Option<real>>) {
    && (x.Some? ==> x in found)
    && forall y :: y in found && y.Some? ==> x.Some? && y.value <= x.value
  }

  ghost predicate IsSmallest(x: Option<real>, found: seq<Option<real>>) {
    && (x.Some? ==> x in found)
    && forall y :: y in found && y.Some? ==> x.Some? && x.value <= y.value
  }

  lemma LargestNext(x: Option<real>, y: Option<real>, found: seq<Option<real>>)
    requires IsLargest(y, found)
    ensures IsLargest(Highest(x, y), [x] + found)
  {
  }

  lemma SmallestNext(x: Option<real>, y: Option<real>, found: seq<Option<real>>)
    requires IsSmallest(y, found)
    ensures IsSmallest(Lowest(x, y), [x] + found)
  {
  }

  ghost function LivePcts(r: Rating, q: Quantity, p: Phase, rows: seq<Sample>): (f: seq<Option<real>>)
    requires Nominal(r)
  {
    seq(|rows|, (j: int) requires 0 <= j < |rows| => LivePct(r, q, p, rows[j]))
  }

  ghost function Imbalances(r: Rating, rows: seq<Sample>): (f: seq<Option<real>>)
    requires Nominal(r)
  {
    seq(|rows|, (j: int) requires 0 <= j < |rows| => Imbalance(r, rows[j]))
  }

  ghost function Sags(r: Rating, gap: nat, q: Quantity, p: Phase, prior: Option<Sample>, rows: seq<Sample>): (f: seq<Option<real>>)
    requires Nominal(r)
  {
    seq(|rows|, (j: int) requires 0 <= j < |rows| =>
      if q == Volts then SagVolts(r, p, rows[j]) else SagAmps(r, gap, p, Before(prior, rows, j), rows[j]))
  }

  /** The highest and lowest values of a period are the largest and smallest live readings of its rows. */
  lemma {:induction false} PeakExactly(r: Rating, q: Quantity, p: Phase, rows: seq<Sample>)
    requires Nominal(r)
    ensures IsLargest(Peak(r, q, p, rows), LivePcts(r, q, p, rows))
    ensures IsSmallest(Trough(r, q, p, rows), LivePcts(r, q, p, rows))
  {
    hide LivePct;
    if rows != [] {
      PeakExactly(r, q, p, rows[1..]);
      var x, found := LivePct(r, q, p, rows[0]), LivePcts(r, q, p, rows[1..]);
      assert LivePcts(r, q, p, rows) == [x] + found;
      hide IsLargest, IsSmallest, Highest, Lowest, LivePcts;
      LargestNext(x, Peak(r, q, p, rows[1..]), found);
      SmallestNext(x, Trough(r, q, p, rows[1..]), found);
    }
  }

  /** The period's imbalance is the worst of its rows. */
  lemma {:induction false} WorstImbalanceExactly(r: Rating, rows: seq<Sample>)
    requires Nominal(r)
    ensures IsLargest(WorstImbalance(r, rows), Imbalances(r, rows))
  {
    hide Imbalance;
    if rows != [] {
      WorstImbalanceExactly(r, rows[1..]);
      var x, found := Imbalance(r, rows[0]), Imbalances(r, rows[1..]);
      assert Imbalances(r, rows) == [x] + found;
      hide IsLargest, Highest, Imbalances;
      LargestNext(x, WorstImbalance(r, rows[1..]), found);
    }
  }

  /** The period's sag is the deepest of its rows, each taken after the row before it. */
  lemma {:induction false} DeepestSagExactly(r: Rating, gap: nat, q: Quantity, p: Phase, prior: Option<Sample>, rows: seq<Sample>)
    requires Nominal(r)
    ensures IsSmallest(DeepestSag(r, gap, q, p, prior, rows), Sags(r, gap, q, p, prior, rows))
    decreases |rows|
  {
    hide SagVolts, SagAmps;
    if rows != [] {
      var next := Some(rows[0]);
      DeepestSagExactly(r, gap, q, p, next, rows[1..]);
      var x, found := if q == Volts then SagVolts(r, p, rows[0]) else SagAmps(r, gap, p, prior, rows[0]), Sags(r, gap, q, p, next, rows[1..]);
      assert Sags(r, gap, q, p, prior, rows) == [x] + found;
      hide IsSmallest, Lowest, Sags;
      SmallestNext(x, DeepestSag(r, gap, q, p, next, rows[1..]), found);
    }
  }

  /** Which index of the report is which: what the one-pass computation returns for a period, index by index. */
  lemma ReportExactly(r: Rating, gap: nat, key: Key, q: Quantity, p: Phase, prior: Option<Sample>, samples: seq<Sample>, start: int, end: int)
    requires Nominal(r)
    ensures var rows := Rows(samples, start, end);
      var k := KpisOf(r, gap, prior, rows, end);
      && key in k.excursions && (q, p) in k.series
      && k.excursions[key].incidents == |Starts(r, gap, key, prior, rows)|
      && k.excursions[key].minutes * 60000.0 == |Moments(s => Excess(r, key, s), gap, rows, start, end)| as real
      && IsLargest(k.series[(q, p)].peak, LivePcts(r, q, p, rows))
      && IsSmallest(k.series[(q, p)].trough, LivePcts(r, q, p, rows))
      && IsSmallest(k.series[(q, p)].sag, Sags(r, gap, q, p, prior, rows))
      && k.series[(q, p)].stress == Weighted(AboveWeight(r, q, p), gap, rows, end)
      && IsLargest(k.flif, Imbalances(r, rows))
      && k.covered * 60000.0 == |Moments(s => true, gap, rows, start, end)| as real
  {
    var rows := Rows(samples, start, end);
    KeysHeld(key, q, p);
    IncidentsExactly(r, gap, key, prior, rows);
    MinutesExactly(r, gap, key, samples, start, end);
    PeakExactly(r, q, p, rows);
    WorstImbalanceExactly(r, rows);
    DeepestSagExactly(r, gap, q, p, prior, rows);
    hide Rows, Incidents, Minutes, Peak, Trough, DeepestSag, WorstImbalance, Weighted, Moments, Starts, IsLargest, IsSmallest, LivePcts, Sags, Imbalances, AllKeys, AllSeries, Excess;
  }

  lemma KeysHeld(key: Key, q: Quantity, p: Phase)
    ensures key in AllKeys() && (q, p) in AllSeries()
  {
    var k, s := key.kind, key.sfx;
    assert k == VH || k == VL || k == CH || k == CL;
    match s {
      case Total =>
      case Of(x) => assert x == R || x == Y || x == B;
    }
    assert k in {VH, VL, CH, CL} && s in {Of(R), Of(Y), Of(B), Total};
    assert key == Key(k, s);
  }
}
