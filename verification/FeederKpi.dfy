/** Feeder power-quality KPIs over sampled, gappy time series (backend/src/domain/feederKpi.js). Values are exact reals;
  * what rounding them to two decimals changes is stated in FeederKpiDays.
  */
module FeederKpi {
  import opened Common

  datatype Phase = R | Y | B

  /** A phase, or the whole feeder. */
  datatype Suffix = Of(phase: Phase) | Total

  /** The four excursion kinds: voltage high and low, current high and low. */
  datatype Kind = VH | VL | CH | CL

  datatype Key = Key(kind: Kind, sfx: Suffix)

  /** Every excursion index: four kinds, each for three phases and the feeder. */
  function AllKeys(): set<Key> { set k <- {VH, VL, CH, CL}, s <- {Of(R), Of(Y), Of(B), Total} :: Key(k, s) }

  /** One telemetry row: milliseconds, phase-to-neutral volts, amps; a missing reading is None. */
  datatype Sample = Sample(t: int, v: map<Phase, real>, i: map<Phase, real>)

  datatype Rating = Rating(vNominal: real, iNominal: real, vHiPct: real, vLoPct: real, iHiPct: real, iLoPct: real, vSagPct: real, iSagDropPct: real)

  const DEAD_PCT := 10.0
  const FLIF_MIN_LOAD_PCT := 5.0

  function VHi(r: Rating): real { r.vNominal * r.vHiPct / 100.0 }
  function VLo(r: Rating): real { r.vNominal * r.vLoPct / 100.0 }
  function VSag(r: Rating): real { r.vNominal * r.vSagPct / 100.0 }
  function VDead(r: Rating): real { r.vNominal * DEAD_PCT / 100.0 }
  function IHi(r: Rating): real { r.iNominal * r.iHiPct / 100.0 }
  function ILo(r: Rating): real { r.iNominal * r.iLoPct / 100.0 }

  predicate Nominal(r: Rating) { r.vNominal > 0.0 && r.iNominal > 0.0 }

  /** A de-energised feeder: all three voltages known and below 10 % of nominal. */
  predicate Dead(r: Rating, s: Sample) { forall p :: p in {R, Y, B} ==> p in s.v && s.v[p] < VDead(r) }

  predicate PhaseBreach(r: Rating, k: Kind, s: Sample, p: Phase) {
    match k
    case VH => p in s.v && s.v[p] > VHi(r)
    case VL => p in s.v && s.v[p] < VLo(r)
    case CH => p in s.i && s.i[p] > IHi(r)
    case CL => p in s.i && s.i[p] < ILo(r)
  }

  predicate Breach(r: Rating, key: Key, s: Sample) {
    match key.sfx
    case Of(p) => PhaseBreach(r, key.kind, s, p)
    case Total => exists p :: p in {R, Y, B} && PhaseBreach(r, key.kind, s, p)
  }

  /** In breach and not an interruption. */
  predicate Excess(r: Rating, key: Key, s: Sample) { !Dead(r, s) && Breach(r, key, s) }

  // ---- what the indices mean ----

  /** s follows prev without a data gap. */
  predicate Continuous(gap: nat, prev: Option<Sample>, s: Sample) { prev.Some? && s.t - prev.value.t <= gap }

  /** A new incident: in excess now, and not already in excess just before. */
  predicate Edge(r: Rating, gap: nat, key: Key, prev: Option<Sample>, s: Sample) {
    Excess(r, key, s) && !(Continuous(gap, prev, s) && Excess(r, key, prev.value))
  }

  function Incidents(r: Rating, gap: nat, key: Key, prev: Option<Sample>, rows: seq<Sample>): nat
    decreases |rows|
  {
    if rows == [] then 0
    else (if Edge(r, gap, key, prev, rows[0]) then 1 else 0) + Incidents(r, gap, key, Some(rows[0]), rows[1..])
  }

  /** How long a sample holds, in milliseconds: until the next one, the gap limit or the period end. */
  function HoldMs(gap: nat, t: int, next: int, end: int): nat { if Min(Min(next - t, gap), end - t) < 0 then 0 else Min(Min(next - t, gap), end - t) }

  function NextTime(rows: seq<Sample>, end: int): int { if |rows| > 1 then rows[1].t else end }

  /** How long the first row holds, in minutes. */
  function Hold(gap: nat, rows: seq<Sample>, end: int): real
    requires rows != []
  {
    HoldMs(gap, rows[0].t, NextTime(rows, end), end) as real / 60000.0
  }

  function Times(x: real, minutes: real): real { x * minutes }

  /** Time-weighted sum of a per-sample value over the period. */
  function Weighted(w: Sample -> real, gap: nat, rows: seq<Sample>, end: int): real {
    if rows == [] then 0.0 else Times(w(rows[0]), Hold(gap, rows, end)) + Weighted(w, gap, rows[1..], end)
  }

  function ExcessWeight(r: Rating, key: Key): Sample -> real { s => if Excess(r, key, s) then 1.0 else 0.0 }

  /** Minutes in excess. */
  function Minutes(r: Rating, gap: nat, key: Key, rows: seq<Sample>, end: int): real { Weighted(ExcessWeight(r, key), gap, rows, end) }

  datatype Quantity = Volts | Amps

  function Reading(q: Quantity, s: Sample): map<Phase, real> { if q.Volts? then s.v else s.i }

  function HighLimit(r: Rating, q: Quantity): real { if q.Volts? then VHi(r) else IHi(r) }

  /** How far a live reading is above the high limit. */
  function Above(r: Rating, q: Quantity, p: Phase, s: Sample): real {
    if !Dead(r, s) && p in Reading(q, s) && Reading(q, s)[p] > HighLimit(r, q) then Reading(q, s)[p] - HighLimit(r, q) else 0.0
  }

  function AboveWeight(r: Rating, q: Quantity, p: Phase): Sample -> real { s => Above(r, q, p, s) }

  /** Volt-minutes or amp-minutes above the high limit. */
  function Stress(r: Rating, gap: nat, q: Quantity, p: Phase, rows: seq<Sample>, end: int): real {
    Weighted(AboveWeight(r, q, p), gap, rows, end)
  }

  function Pct(r: Rating, q: Quantity, x: real): real
    requires Nominal(r)
  {
    x / (if q.Volts? then r.vNominal else r.iNominal) * 100.0
  }

  function Highest(a: Option<real>, b: Option<real>): Option<real> {
    if a.None? then b else if b.None? then a else Some(MaxR(a.value, b.value))
  }

  function Lowest(a: Option<real>, b: Option<real>): Option<real> {
    if a.None? then b else if b.None? then a else Some(MinR(a.value, b.value))
  }

  /** The live reading in percent of nominal. */
  function LivePct(r: Rating, q: Quantity, p: Phase, s: Sample): Option<real>
    requires Nominal(r)
  {
    if !Dead(r, s) && p in Reading(q, s) then Some(Pct(r, q, Reading(q, s)[p])) else None
  }

  function Peak(r: Rating, q: Quantity, p: Phase, rows: seq<Sample>): Option<real>
    requires Nominal(r)
  {
    if rows == [] then None else Highest(LivePct(r, q, p, rows[0]), Peak(r, q, p, rows[1..]))
  }

  function Trough(r: Rating, q: Quantity, p: Phase, rows: seq<Sample>): Option<real>
    requires Nominal(r)
  {
    if rows == [] then None else Lowest(LivePct(r, q, p, rows[0]), Trough(r, q, p, rows[1..]))
  }

  /** A voltage sag: residual voltage between the dead and the sag limits. */
  function SagVolts(r: Rating, p: Phase, s: Sample): Option<real>
    requires Nominal(r)
  {
    if !Dead(r, s) && p in s.v && VDead(r) <= s.v[p] < VSag(r) then Some(Pct(r, Volts, s.v[p])) else None
  }

  /** A current sag: a sudden drop from the sample just before, not to zero. */
  function SagAmps(r: Rating, gap: nat, p: Phase, prev: Option<Sample>, s: Sample): Option<real>
    requires Nominal(r)
  {
    if !Dead(r, s) && p in s.i && Continuous(gap, prev, s) && !Dead(r, prev.value) && p in prev.value.i
      && prev.value.i[p] > 0.0 && 0.0 < s.i[p] < prev.value.i[p] * (1.0 - r.iSagDropPct / 100.0)
    then Some(Pct(r, Amps, s.i[p])) else None
  }

  function DeepestSag(r: Rating, gap: nat, q: Quantity, p: Phase, prev: Option<Sample>, rows: seq<Sample>): Option<real>
    requires Nominal(r)
    decreases |rows|
  {
    if rows == [] then None
    else Lowest(if q.Volts? then SagVolts(r, p, rows[0]) else SagAmps(r, gap, p, prev, rows[0]),
                DeepestSag(r, gap, q, p, Some(rows[0]), rows[1..]))
  }

  /** Load imbalance at one instant, in percent. */
  function Imbalance(r: Rating, s: Sample): Option<real>
    requires Nominal(r)
  {
    if !Dead(r, s) && (forall p :: p in {R, Y, B} ==> p in s.i && s.i[p] > 0.0) then
      var hi, lo := MaxR(MaxR(s.i[R], s.i[Y]), s.i[B]), MinR(MinR(s.i[R], s.i[Y]), s.i[B]);
      if Pct(r, Amps, hi) >= FLIF_MIN_LOAD_PCT then Some(hi / lo * 100.0) else None
    else None
  }

  function WorstImbalance(r: Rating, rows: seq<Sample>): Option<real>
    requires Nominal(r)
  {
    if rows == [] then None else Highest(Imbalance(r, rows[0]), WorstImbalance(r, rows[1..]))
  }

  function Unit(): Sample -> real { s => 1.0 }

  function Covered(gap: nat, rows: seq<Sample>, end: int): real { Weighted(Unit(), gap, rows, end) }

  // ---- rows of a period, in time order ----

  function Insert(s: Sample, rows: seq<Sample>): seq<Sample> {
    if rows == [] || s.t <= rows[0].t then [s] + rows else [rows[0]] + Insert(s, rows[1..])
  }

  /** The samples of [start, end) in time order, equal times in their given order. */
  function Rows(samples: seq<Sample>, start: int, end: int): seq<Sample> {
    if samples == [] then []
    else if start <= samples[0].t < end then Insert(samples[0], Rows(samples[1..], start, end))
    else Rows(samples[1..], start, end)
  }

  function Last(prior: Option<Sample>, rows: seq<Sample>): Option<Sample> { if rows == [] then prior else Some(rows[|rows| - 1]) }

  // ---- splitting a period ----

  lemma {:induction false} InsertBefore(s: Sample, a: seq<Sample>, b: seq<Sample>)
    requires forall k :: 0 <= k < |b| ==> s.t <= b[k].t
    ensures Insert(s, a + b) == Insert(s, a) + b
  {
    if a == [] {
      assert a + b == b;
    } else {
      assert (a + b)[1..] == a[1..] + b;
      InsertBefore(s, a[1..], b);
    }
  }

  lemma {:induction false} InsertAfter(s: Sample, a: seq<Sample>, b: seq<Sample>)
    requires forall k :: 0 <= k < |a| ==> a[k].t < s.t
    ensures Insert(s, a + b) == a + Insert(s, b)
  {
    if a == [] {
      assert a + b == b;
    } else {
      assert (a + b)[1..] == a[1..] + b;
      InsertAfter(s, a[1..], b);
    }
  }

  lemma {:induction false} InsertWithin(s: Sample, rows: seq<Sample>, lo: int, hi: int)
    requires lo <= s.t < hi && forall k :: 0 <= k < |rows| ==> lo <= rows[k].t < hi
    ensures forall k :: 0 <= k < |Insert(s, rows)| ==> lo <= Insert(s, rows)[k].t < hi
  {
    if rows != [] { InsertWithin(s, rows[1..], lo, hi); }
  }

  lemma {:induction false} RowsWithin(samples: seq<Sample>, start: int, end: int)
    ensures forall k :: 0 <= k < |Rows(samples, start, end)| ==> start <= Rows(samples, start, end)[k].t < end
  {
    if samples != [] {
      RowsWithin(samples[1..], start, end);
      if start <= samples[0].t < end { InsertWithin(samples[0], Rows(samples[1..], start, end), start, end); }
    }
  }

  /** The rows of a period are the rows of its two parts, one after the other. */
  lemma {:induction false} RowsSplit(samples: seq<Sample>, start: int, mid: int, end: int)
    requires start <= mid <= end
    ensures Rows(samples, start, end) == Rows(samples, start, mid) + Rows(samples, mid, end)
  {
    if samples != [] {
      var s, rest := samples[0], samples[1..];
      RowsSplit(rest, start, mid, end);
      RowsWithin(rest, start, mid);
      RowsWithin(rest, mid, end);
      if start <= s.t < mid {
        InsertBefore(s, Rows(rest, start, mid), Rows(rest, mid, end));
      } else if mid <= s.t < end {
        InsertAfter(s, Rows(rest, start, mid), Rows(rest, mid, end));
      }
    }
  }

  lemma {:induction false} IncidentsSplit(r: Rating, gap: nat, key: Key, prior: Option<Sample>, a: seq<Sample>, b: seq<Sample>)
    ensures Incidents(r, gap, key, prior, a + b) == Incidents(r, gap, key, prior, a) + Incidents(r, gap, key, Last(prior, a), b)
    decreases |a|
  {
    if a == [] {
      assert a + b == b;
    } else {
      assert (a + b)[1..] == a[1..] + b;
      IncidentsSplit(r, gap, key, Some(a[0]), a[1..], b);
    }
  }

  lemma {:induction false} PeakSplit(r: Rating, q: Quantity, p: Phase, a: seq<Sample>, b: seq<Sample>)
    requires Nominal(r)
    ensures Peak(r, q, p, a + b) == Highest(Peak(r, q, p, a), Peak(r, q, p, b))
    ensures Trough(r, q, p, a + b) == Lowest(Trough(r, q, p, a), Trough(r, q, p, b))
  {
    if a == [] {
      assert a + b == b;
    } else {
      assert (a + b)[1..] == a[1..] + b;
      PeakSplit(r, q, p, a[1..], b);
    }
  }

  lemma {:induction false} SagSplit(r: Rating, gap: nat, q: Quantity, p: Phase, prior: Option<Sample>, a: seq<Sample>, b: seq<Sample>)
    requires Nominal(r)
    ensures DeepestSag(r, gap, q, p, prior, a + b) == Lowest(DeepestSag(r, gap, q, p, prior, a), DeepestSag(r, gap, q, p, Last(prior, a), b))
    decreases |a|
  {
    if a == [] {
      assert a + b == b;
    } else {
      assert (a + b)[1..] == a[1..] + b;
      SagSplit(r, gap, q, p, Some(a[0]), a[1..], b);
    }
  }

  lemma {:induction false} ImbalanceSplit(r: Rating, a: seq<Sample>, b: seq<Sample>)
    requires Nominal(r)
    ensures WorstImbalance(r, a + b) == Highest(WorstImbalance(r, a), WorstImbalance(r, b))
  {
    if a == [] {
      assert a + b == b;
    } else {
      assert (a + b)[1..] == a[1..] + b;
      ImbalanceSplit(r, a[1..], b);
    }
  }

  /** Hold time the split loses: the first part's last sample stops at the boundary instead of running on to the next
    * sample, the gap limit or the period end. */
  function LostMinutes(gap: nat, a: seq<Sample>, mid: int, b: seq<Sample>, end: int): real {
    if a == [] then 0.0
    else
      var t, next := a[|a| - 1].t, if b == [] then end else b[0].t;
      HoldMs(gap, t, next, end) as real / 60000.0 - HoldMs(gap, t, mid, mid) as real / 60000.0
  }

  /** The last sample of the first part is in excess. */
  predicate EndsInExcess(r: Rating, key: Key, a: seq<Sample>) { a != [] && Excess(r, key, a[|a| - 1]) }

  /** a before the boundary, b at or after it, both inside the period. */
  ghost predicate Parts(a: seq<Sample>, mid: int, b: seq<Sample>, end: int) {
    && mid <= end
    && (forall k :: 0 <= k < |a| ==> a[k].t < mid)
    && (forall k :: 0 <= k < |b| ==> mid <= b[k].t < end)
    && Sorted(a)
  }

  /** Only the last sample before the boundary holds differently in the two parts than in the whole. */
  lemma HoldSplit(gap: nat, a: seq<Sample>, mid: int, b: seq<Sample>, end: int)
    requires Parts(a, mid, b, end) && a != []
    ensures |a| > 1 ==> Hold(gap, a + b, end) == Hold(gap, a, mid)
    ensures |a| == 1 ==> Hold(gap, a + b, end) == Hold(gap, a, mid) + LostMinutes(gap, a, mid, b, end)
  {
  }

  lemma TimesSplit(x: real, whole: real, part: real, lost: real)
    requires whole == part + lost
    ensures Times(x, whole) == Times(x, part) + Times(x, lost)
  {
  }

  lemma {:induction false} WeightedSplit(w: Sample -> real, gap: nat, a: seq<Sample>, mid: int, b: seq<Sample>, end: int)
    requires Parts(a, mid, b, end)
    ensures Weighted(w, gap, a + b, end) == Weighted(w, gap, a, mid) + Weighted(w, gap, b, end)
      + (if a == [] then 0.0 else Times(w(a[|a| - 1]), LostMinutes(gap, a, mid, b, end)))
  {
    if a == [] {
      assert a + b == b;
    } else {
      assert (a + b)[1..] == a[1..] + b;
      HoldSplit(gap, a, mid, b, end);
      WeightedSplit(w, gap, a[1..], mid, b, end);
      hide Hold, LostMinutes, Times;
      if |a| == 1 {
        TimesSplit(w(a[0]), Hold(gap, a + b, end), Hold(gap, a, mid), LostMinutes(gap, a, mid, b, end));
      } else {
        assert a[1..][|a[1..]| - 1] == a[|a| - 1];
        SameLoss(gap, a, mid, b, end);
      }
    }
  }

  lemma SameLoss(gap: nat, a: seq<Sample>, mid: int, b: seq<Sample>, end: int)
    requires |a| > 1
    ensures LostMinutes(gap, a[1..], mid, b, end) == LostMinutes(gap, a, mid, b, end)
  {
  }

  ghost predicate Sorted(rows: seq<Sample>) { forall j, k :: 0 <= j < k < |rows| ==> rows[j].t <= rows[k].t }

  lemma {:induction false} InsertAtLeast(s: Sample, rows: seq<Sample>, lo: int)
    requires lo <= s.t && forall k :: 0 <= k < |rows| ==> lo <= rows[k].t
    ensures forall k :: 0 <= k < |Insert(s, rows)| ==> lo <= Insert(s, rows)[k].t
  {
    if rows != [] { InsertAtLeast(s, rows[1..], lo); }
  }

  lemma {:induction false} InsertSorted(s: Sample, rows: seq<Sample>)
    requires Sorted(rows)
    ensures Sorted(Insert(s, rows))
  {
    if rows == [] || s.t <= rows[0].t {
      assert Insert(s, rows) == [s] + rows;
    } else {
      InsertSorted(s, rows[1..]);
      InsertAtLeast(s, rows[1..], rows[0].t);
    }
  }

  lemma {:induction false} RowsSorted(samples: seq<Sample>, start: int, end: int)
    ensures Sorted(Rows(samples, start, end))
  {
    if samples != [] {
      RowsSorted(samples[1..], start, end);
      if start <= samples[0].t < end { InsertSorted(samples[0], Rows(samples[1..], start, end)); }
    }
  }

  lemma RowsParts(samples: seq<Sample>, start: int, mid: int, end: int)
    requires start <= mid <= end
    ensures Parts(Rows(samples, start, mid), mid, Rows(samples, mid, end), end)
  {
    RowsWithin(samples, start, mid);
    RowsWithin(samples, mid, end);
    RowsSorted(samples, start, mid);
  }

  /** Incident counts add over any split of a period, when the second part starts from the last sample before it: an
    * excursion running over the boundary counts once. */
  lemma IncidentsAdd(r: Rating, gap: nat, key: Key, prior: Option<Sample>, samples: seq<Sample>, start: int, mid: int, end: int)
    requires start <= mid <= end
    ensures var a, b := Rows(samples, start, mid), Rows(samples, mid, end);
      Incidents(r, gap, key, prior, Rows(samples, start, end)) == Incidents(r, gap, key, prior, a) + Incidents(r, gap, key, Last(prior, a), b)
  {
    RowsSplit(samples, start, mid, end);
    IncidentsSplit(r, gap, key, prior, Rows(samples, start, mid), Rows(samples, mid, end));
  }

  /** Highest, lowest, deepest sag and worst imbalance of a period are those of its parts combined. */
  lemma ExtremesCombine(r: Rating, gap: nat, q: Quantity, p: Phase, prior: Option<Sample>, samples: seq<Sample>, start: int, mid: int, end: int)
    requires Nominal(r) && start <= mid <= end
    ensures var a, b, whole := Rows(samples, start, mid), Rows(samples, mid, end), Rows(samples, start, end);
      && Peak(r, q, p, whole) == Highest(Peak(r, q, p, a), Peak(r, q, p, b))
      && Trough(r, q, p, whole) == Lowest(Trough(r, q, p, a), Trough(r, q, p, b))
      && DeepestSag(r, gap, q, p, prior, whole) == Lowest(DeepestSag(r, gap, q, p, prior, a), DeepestSag(r, gap, q, p, Last(prior, a), b))
      && WorstImbalance(r, whole) == Highest(WorstImbalance(r, a), WorstImbalance(r, b))
  {
    var a, b := Rows(samples, start, mid), Rows(samples, mid, end);
    RowsSplit(samples, start, mid, end);
    PeakSplit(r, q, p, a, b);
    SagSplit(r, gap, q, p, prior, a, b);
    ImbalanceSplit(r, a, b);
  }

  /** Durations and stress add over a split up to exactly the hold time the boundary cuts off, and only when the last
    * sample before it is in excess; nothing is cut off exactly when the boundary is at a sample, or at least a whole
    * gap limit after the last one. */
  lemma DurationsAddUpToTheLoss(r: Rating, gap: nat, key: Key, q: Quantity, p: Phase, samples: seq<Sample>, start: int, mid: int, end: int)
    requires start <= mid <= end
    ensures var a, b, whole := Rows(samples, start, mid), Rows(samples, mid, end), Rows(samples, start, end);
      var lost := LostMinutes(gap, a, mid, b, end);
      && Minutes(r, gap, key, whole, end) ==
          Minutes(r, gap, key, a, mid) + Minutes(r, gap, key, b, end) + (if EndsInExcess(r, key, a) then lost else 0.0)
      && Stress(r, gap, q, p, whole, end) ==
          Stress(r, gap, q, p, a, mid) + Stress(r, gap, q, p, b, end) + (if a == [] then 0.0 else Times(Above(r, q, p, a[|a| - 1]), lost))
      && Covered(gap, whole, end) == Covered(gap, a, mid) + Covered(gap, b, end) + lost
      && 0.0 <= lost
      && (lost == 0.0 <==> a == [] || gap <= mid - a[|a| - 1].t || (if b == [] then end else b[0].t) == mid)
  {
    var a, b := Rows(samples, start, mid), Rows(samples, mid, end);
    RowsSplit(samples, start, mid, end);
    RowsParts(samples, start, mid, end);
    hide Rows, LostMinutes;
    WeightedSplit(ExcessWeight(r, key), gap, a, mid, b, end);
    WeightedSplit(AboveWeight(r, q, p), gap, a, mid, b, end);
    CoveredSplit(gap, a, mid, b, end);
    LossSize(gap, a, mid, b, end);
  }

  lemma {:induction false} CoveredSplit(gap: nat, a: seq<Sample>, mid: int, b: seq<Sample>, end: int)
    requires Parts(a, mid, b, end)
    ensures Covered(gap, a + b, end) == Covered(gap, a, mid) + Covered(gap, b, end) + LostMinutes(gap, a, mid, b, end)
  {
    WeightedSplit(Unit(), gap, a, mid, b, end);
  }

  lemma LossSize(gap: nat, a: seq<Sample>, mid: int, b: seq<Sample>, end: int)
    requires Parts(a, mid, b, end)
    ensures 0.0 <= LostMinutes(gap, a, mid, b, end)
    ensures LostMinutes(gap, a, mid, b, end) == 0.0
      <==> a == [] || gap <= mid - a[|a| - 1].t || (if b == [] then end else b[0].t) == mid
  {
    if a != [] {
      var t, next := a[|a| - 1].t, if b == [] then end else b[0].t;
      var whole, part := HoldMs(gap, t, next, end), HoldMs(gap, t, mid, mid);
      assert t < mid <= next <= end;
      assert whole >= part && (whole == part <==> gap <= mid - t || next == mid);
      assert LostMinutes(gap, a, mid, b, end) == (whole as real - part as real) / 60000.0;
    }
  }

  /** Two samples at minutes 0 and 2, in excess, split at minute 1: a minute of the excursion is in neither half. */
  lemma SplitBetweenSamplesLoses(r: Rating)
    requires VHi(r) < 1200.0 && VDead(r) <= 1200.0
    ensures var s, u := Sample(0, map[R := 1200.0], map[]), Sample(120000, map[R := 1200.0], map[]);
      var key := Key(VH, Of(R));
      && Minutes(r, 600000, key, Rows([s, u], 0, 180000), 180000) == 3.0
      && Minutes(r, 600000, key, Rows([s, u], 0, 60000), 60000) + Minutes(r, 600000, key, Rows([s, u], 60000, 180000), 180000) == 2.0
  {
    var s, u := Sample(0, map[R := 1200.0], map[]), Sample(120000, map[R := 1200.0], map[]);
    assert [s, u][1..] == [u] && [u][1..] == [] && [s][1..] == [];
    assert Rows([], 0, 180000) == [] && Rows([], 0, 60000) == [] && Rows([], 60000, 180000) == [];
    assert Rows([u], 0, 180000) == [u] && Rows([u], 0, 60000) == [] && Rows([u], 60000, 180000) == [u];
    assert Rows([s, u], 0, 180000) == [s, u] && Rows([s, u], 0, 60000) == [s] && Rows([s, u], 60000, 180000) == [u];
    assert Y !in s.v && Y !in u.v;
    var w := ExcessWeight(r, Key(VH, Of(R)));
    assert w(s) == 1.0 && w(u) == 1.0;
    assert Weighted(w, 600000, [u], 180000) == 1.0 && Weighted(w, 600000, [s], 60000) == 1.0;
  }

  // ---- the feeder as a whole ----

  lemma {:induction false} TotalIncidents(r: Rating, gap: nat, k: Kind, prev: Option<Sample>, rows: seq<Sample>)
    ensures Incidents(r, gap, Key(k, Total), prev, rows) <=
      Incidents(r, gap, Key(k, Of(R)), prev, rows) + Incidents(r, gap, Key(k, Of(Y)), prev, rows) + Incidents(r, gap, Key(k, Of(B)), prev, rows)
    decreases |rows|
  {
    if rows != [] {
      TotalIncidents(r, gap, k, Some(rows[0]), rows[1..]);
      if Edge(r, gap, Key(k, Total), prev, rows[0]) {
        var p :| p in {R, Y, B} && PhaseBreach(r, k, rows[0], p);
        assert Edge(r, gap, Key(k, Of(p)), prev, rows[0]);
      }
    }
  }

  /** A larger per-sample value gives a larger time-weighted sum. */
  lemma {:induction false} WeightedMonotone(v: Sample -> real, w: Sample -> real, gap: nat, rows: seq<Sample>, end: int)
    requires forall s :: v(s) <= w(s)
    ensures Weighted(v, gap, rows, end) <= Weighted(w, gap, rows, end)
  {
    if rows != [] {
      WeightedMonotone(v, w, gap, rows[1..], end);
      assert 0.0 <= Hold(gap, rows, end);
      hide Times, Hold;
      TimesMonotone(v(rows[0]), w(rows[0]), Hold(gap, rows, end));
    }
  }

  lemma TimesMonotone(x: real, y: real, h: real)
    requires x <= y && 0.0 <= h
    ensures Times(x, h) <= Times(y, h)
  {
  }

  lemma TimesSum(x: real, y: real, z: real, h: real)
    ensures Times(x + y + z, h) == Times(x, h) + Times(y, h) + Times(z, h)
  {
  }

  lemma {:induction false} WeightedSum(u: Sample -> real, v: Sample -> real, w: Sample -> real, gap: nat, rows: seq<Sample>, end: int)
    ensures Weighted(s => u(s) + v(s) + w(s), gap, rows, end) ==
      Weighted(u, gap, rows, end) + Weighted(v, gap, rows, end) + Weighted(w, gap, rows, end)
  {
    if rows != [] {
      WeightedSum(u, v, w, gap, rows[1..], end);
      hide Times, Hold;
      TimesSum(u(rows[0]), v(rows[0]), w(rows[0]), Hold(gap, rows, end));
    }
  }

  lemma TotalMinutes(r: Rating, gap: nat, k: Kind, p: Phase, rows: seq<Sample>, end: int)
    ensures Minutes(r, gap, Key(k, Total), rows, end) <=
      Minutes(r, gap, Key(k, Of(R)), rows, end) + Minutes(r, gap, Key(k, Of(Y)), rows, end) + Minutes(r, gap, Key(k, Of(B)), rows, end)
    ensures Minutes(r, gap, Key(k, Of(p)), rows, end) <= Minutes(r, gap, Key(k, Total), rows, end)
  {
    var wr, wy, wb, wt := ExcessWeight(r, Key(k, Of(R))), ExcessWeight(r, Key(k, Of(Y))), ExcessWeight(r, Key(k, Of(B))), ExcessWeight(r, Key(k, Total));
    forall s ensures wt(s) <= wr(s) + wy(s) + wb(s) && ExcessWeight(r, Key(k, Of(p)))(s) <= wt(s) {
      assert p == R || p == Y || p == B;
      assert PhaseBreach(r, k, s, p) ==> Breach(r, Key(k, Total), s);
    }
    WeightedSum(wr, wy, wb, gap, rows, end);
    WeightedMonotone(wt, s => wr(s) + wy(s) + wb(s), gap, rows, end);
    WeightedMonotone(ExcessWeight(r, Key(k, Of(p))), wt, gap, rows, end);
  }

  /** Feeder-level excursions are the union of the phases'. */
  lemma FeederIsUnionOfPhases(r: Rating, gap: nat, k: Kind, prior: Option<Sample>, rows: seq<Sample>, end: int, p: Phase)
    ensures Minutes(r, gap, Key(k, Of(p)), rows, end) <= Minutes(r, gap, Key(k, Total), rows, end)
    ensures Minutes(r, gap, Key(k, Total), rows, end) <=
      Minutes(r, gap, Key(k, Of(R)), rows, end) + Minutes(r, gap, Key(k, Of(Y)), rows, end) + Minutes(r, gap, Key(k, Of(B)), rows, end)
    ensures Incidents(r, gap, Key(k, Total), prior, rows) <=
      Incidents(r, gap, Key(k, Of(R)), prior, rows) + Incidents(r, gap, Key(k, Of(Y)), prior, rows) + Incidents(r, gap, Key(k, Of(B)), prior, rows)
  {
    TotalMinutes(r, gap, k, p, rows, end);
    TotalIncidents(r, gap, k, prior, rows);
  }

  /** The same feeder with other readings while it was dead. */
  ghost predicate SameWhileLive(r: Rating, a: seq<Sample>, b: seq<Sample>) {
    |a| == |b| && forall k :: 0 <= k < |a| ==> a[k].t == b[k].t && (a[k] == b[k] || (Dead(r, a[k]) && Dead(r, b[k])))
  }

  ghost predicate SameState(r: Rating, a: Option<Sample>, b: Option<Sample>) {
    a == b || (a.Some? && b.Some? && a.value.t == b.value.t && Dead(r, a.value) && Dead(r, b.value))
  }

  lemma {:induction false} WeightedSame(r: Rating, w: Sample -> real, gap: nat, a: seq<Sample>, b: seq<Sample>, end: int)
    requires SameWhileLive(r, a, b) && forall s :: Dead(r, s) ==> w(s) == 0.0
    ensures Weighted(w, gap, a, end) == Weighted(w, gap, b, end)
  {
    if a != [] {
      assert w(a[0]) == w(b[0]);
      WeightedSame(r, w, gap, a[1..], b[1..], end);
    }
  }

  lemma {:induction false} ExtremesSame(r: Rating, q: Quantity, p: Phase, a: seq<Sample>, b: seq<Sample>)
    requires Nominal(r) && SameWhileLive(r, a, b)
    ensures Peak(r, q, p, a) == Peak(r, q, p, b) && Trough(r, q, p, a) == Trough(r, q, p, b)
    ensures WorstImbalance(r, a) == WorstImbalance(r, b)
  {
    if a != [] {
      ExtremesSame(r, q, p, a[1..], b[1..]);
      assert LivePct(r, q, p, a[0]) == LivePct(r, q, p, b[0]);
      assert Imbalance(r, a[0]) == Imbalance(r, b[0]);
    }
  }

  lemma {:induction false} SagsSame(r: Rating, gap: nat, q: Quantity, p: Phase, prevA: Option<Sample>, a: seq<Sample>, prevB: Option<Sample>, b: seq<Sample>)
    requires Nominal(r) && SameWhileLive(r, a, b) && SameState(r, prevA, prevB)
    ensures DeepestSag(r, gap, q, p, prevA, a) == DeepestSag(r, gap, q, p, prevB, b)
    decreases |a|
  {
    if a != [] {
      SagsSame(r, gap, q, p, Some(a[0]), a[1..], Some(b[0]), b[1..]);
      assert SagVolts(r, p, a[0]) == SagVolts(r, p, b[0]) && SagAmps(r, gap, p, prevA, a[0]) == SagAmps(r, gap, p, prevB, b[0]) by { hide Pct; }
    }
  }

  lemma {:induction false} IncidentsSame(r: Rating, gap: nat, key: Key, prevA: Option<Sample>, a: seq<Sample>, prevB: Option<Sample>, b: seq<Sample>)
    requires SameWhileLive(r, a, b) && SameState(r, prevA, prevB)
    ensures Incidents(r, gap, key, prevA, a) == Incidents(r, gap, key, prevB, b)
    decreases |a|
  {
    if a != [] {
      IncidentsSame(r, gap, key, Some(a[0]), a[1..], Some(b[0]), b[1..]);
      assert Edge(r, gap, key, prevA, a[0]) == Edge(r, gap, key, prevB, b[0]) by { hide Breach; }
    }
  }

  /** An interruption contributes to no index, whatever it reads: not to incidents, durations, stress, extremes or sags. */
  lemma DeadSamplesDoNotCount(r: Rating, gap: nat, key: Key, q: Quantity, p: Phase, prior: Option<Sample>, a: seq<Sample>, b: seq<Sample>, end: int)
    requires Nominal(r) && SameWhileLive(r, a, b)
    ensures Incidents(r, gap, key, prior, a) == Incidents(r, gap, key, prior, b)
    ensures Minutes(r, gap, key, a, end) == Minutes(r, gap, key, b, end)
    ensures Stress(r, gap, q, p, a, end) == Stress(r, gap, q, p, b, end)
    ensures Peak(r, q, p, a) == Peak(r, q, p, b) && Trough(r, q, p, a) == Trough(r, q, p, b)
    ensures DeepestSag(r, gap, q, p, prior, a) == DeepestSag(r, gap, q, p, prior, b)
    ensures WorstImbalance(r, a) == WorstImbalance(r, b)
  {
    WeightedSame(r, ExcessWeight(r, key), gap, a, b, end);
    WeightedSame(r, AboveWeight(r, q, p), gap, a, b, end);
    hide SameWhileLive;
    IncidentsSame(r, gap, key, prior, a, prior, b);
    ExtremesSame(r, q, p, a, b);
    SagsSame(r, gap, q, p, prior, a, prior, b);
  }
}
