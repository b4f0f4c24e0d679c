/** The KPI computation as the code runs it, one pass with running trackers, and how two parts of a
  * period combine (backend/src/domain/feederKpi.js computeFeederKpis, aggregateKpis).
  */
module FeederKpiLoop {
  import opened Common
  import opened FeederKpi

  /** A running excursion: whether one is open, how many were opened, how long they lasted. */
  datatype Tracker = Tracker(inExc: bool, incidents: nat, minutes: real)

  type Series = (Quantity, Phase)

  function AllSeries(): set<Series> { {(Volts, R), (Volts, Y), (Volts, B), (Amps, R), (Amps, Y), (Amps, B)} }

  /** Incidents and minutes of one excursion kind. */
  datatype Excursions = Excursions(incidents: nat, minutes: real)

  /** Stress, highest and lowest value and deepest sag of one measured series. */
  datatype Running = Running(stress: real, peak: Option<real>, trough: Option<real>, sag: Option<real>)

  datatype Kpis = Kpis(excursions: map<Key, Excursions>, series: map<Series, Running>, flif: Option<real>, covered: real)

  function ExcursionsOf(r: Rating, gap: nat, key: Key, prior: Option<Sample>, rows: seq<Sample>, end: int): Excursions {
    Excursions(Incidents(r, gap, key, prior, rows), Minutes(r, gap, key, rows, end))
  }

  function SeriesOf(r: Rating, gap: nat, x: Series, prior: Option<Sample>, rows: seq<Sample>, end: int): Running
    requires Nominal(r)
  {
    Running(Stress(r, gap, x.0, x.1, rows, end), Peak(r, x.0, x.1, rows), Trough(r, x.0, x.1, rows), DeepestSag(r, gap, x.0, x.1, prior, rows))
  }

  /** Every index of a period, by its meaning. */
  function KpisOf(r: Rating, gap: nat, prior: Option<Sample>, rows: seq<Sample>, end: int): Kpis
    requires Nominal(r)
  {
    Kpis(AllExcursions(r, gap, prior, rows, end), AllSeriesOf(r, gap, prior, rows, end), WorstImbalance(r, rows), Covered(gap, rows, end))
  }

  function AllExcursions(r: Rating, gap: nat, prior: Option<Sample>, rows: seq<Sample>, end: int): map<Key, Excursions> {
    map key | key in AllKeys() :: ExcursionsOf(r, gap, key, prior, rows, end)
  }

  function AllSeriesOf(r: Rating, gap: nat, prior: Option<Sample>, rows: seq<Sample>, end: int): map<Series, Running>
    requires Nominal(r)
  {
    map x: Series | x in AllSeries() :: SeriesOf(r, gap, x, prior, rows, end)
  }

  /** One sample seen by one tracker. */
  function StepTracker(tr: Tracker, breach: bool, continuous: bool, dtMin: real): Tracker {
    var open := tr.inExc && continuous;
    if breach then Tracker(true, if open then tr.incidents else tr.incidents + 1, tr.minutes + dtMin)
    else tr.(inExc := false)
  }

  /** The tracker holds what the rows before n amount to. */
  ghost predicate Tracks(r: Rating, gap: nat, key: Key, prior: Option<Sample>, rows: seq<Sample>, end: int, n: nat, prev: Option<Sample>, tr: Tracker)
    requires n <= |rows|
  {
    && (tr.inExc <==> prev.Some? && Excess(r, key, prev.value))
    && tr.incidents + Incidents(r, gap, key, prev, rows[n..]) == Incidents(r, gap, key, prior, rows)
    && tr.minutes + Minutes(r, gap, key, rows[n..], end) == Minutes(r, gap, key, rows, end)
  }

  lemma TrackStep(r: Rating, gap: nat, key: Key, prior: Option<Sample>, rows: seq<Sample>, end: int, n: nat, prev: Option<Sample>, tr: Tracker)
    requires n < |rows| && Tracks(r, gap, key, prior, rows, end, n, prev, tr)
    ensures var s := rows[n];
      Tracks(r, gap, key, prior, rows, end, n + 1, Some(s),
        if Dead(r, s) then tr.(inExc := false)
        else StepTracker(tr, Breach(r, key, s), Continuous(gap, prev, s), Hold(gap, rows[n..], end)))
  {
    assert rows[n..][1..] == rows[n + 1..] && rows[n..][0] == rows[n];
    hide Breach, Dead, Hold;
  }

  /** A prior sample too old to be continuous is no prior sample. */
  lemma PriorTooOld(r: Rating, gap: nat, key: Key, x: Series, prior: Option<Sample>, rows: seq<Sample>)
    requires Nominal(r) && (rows == [] || !Continuous(gap, prior, rows[0]))
    ensures Incidents(r, gap, key, prior, rows) == Incidents(r, gap, key, None, rows)
    ensures DeepestSag(r, gap, x.0, x.1, prior, rows) == DeepestSag(r, gap, x.0, x.1, None, rows)
  {
    hide Excess, SagVolts, Pct, Dead;
  }

  /** What a series has accumulated before row n, combined with the rest, is the whole. */
  ghost predicate Accumulates(r: Rating, gap: nat, x: Series, prior: Option<Sample>, rows: seq<Sample>, end: int, n: nat, prev: Option<Sample>, run: Running)
    requires Nominal(r) && n <= |rows|
  {
    && run.stress + Stress(r, gap, x.0, x.1, rows[n..], end) == Stress(r, gap, x.0, x.1, rows, end)
    && Highest(run.peak, Peak(r, x.0, x.1, rows[n..])) == Peak(r, x.0, x.1, rows)
    && Lowest(run.trough, Trough(r, x.0, x.1, rows[n..])) == Trough(r, x.0, x.1, rows)
    && Lowest(run.sag, DeepestSag(r, gap, x.0, x.1, prev, rows[n..])) == DeepestSag(r, gap, x.0, x.1, prior, rows)
  }

  function SagAt(r: Rating, gap: nat, x: Series, prev: Option<Sample>, s: Sample): Option<real>
    requires Nominal(r)
  {
    if x.0.Volts? then SagVolts(r, x.1, s) else SagAmps(r, gap, x.1, prev, s)
  }

  /** One live sample added to one series. */
  function StepSeries(r: Rating, gap: nat, x: Series, run: Running, prev: Option<Sample>, s: Sample, dtMin: real): Running
    requires Nominal(r)
  {
    Running(run.stress + Times(Above(r, x.0, x.1, s), dtMin), Highest(run.peak, LivePct(r, x.0, x.1, s)),
            Lowest(run.trough, LivePct(r, x.0, x.1, s)), Lowest(run.sag, SagAt(r, gap, x, prev, s)))
  }

  lemma ExtremesStep(r: Rating, x: Series, rows: seq<Sample>, rest: seq<Sample>, run: Running)
    requires Nominal(r) && rest != []
    requires Highest(run.peak, Peak(r, x.0, x.1, rest)) == Peak(r, x.0, x.1, rows)
    requires Lowest(run.trough, Trough(r, x.0, x.1, rest)) == Trough(r, x.0, x.1, rows)
    ensures Highest(Highest(run.peak, LivePct(r, x.0, x.1, rest[0])), Peak(r, x.0, x.1, rest[1..])) == Peak(r, x.0, x.1, rows)
    ensures Lowest(Lowest(run.trough, LivePct(r, x.0, x.1, rest[0])), Trough(r, x.0, x.1, rest[1..])) == Trough(r, x.0, x.1, rows)
  {
    hide LivePct;
  }

  lemma SagStep(r: Rating, gap: nat, x: Series, prev: Option<Sample>, rest: seq<Sample>, sag: Option<real>, all: Option<real>)
    requires Nominal(r) && rest != [] && Lowest(sag, DeepestSag(r, gap, x.0, x.1, prev, rest)) == all
    ensures Lowest(Lowest(sag, SagAt(r, gap, x, prev, rest[0])), DeepestSag(r, gap, x.0, x.1, Some(rest[0]), rest[1..])) == all
  {
    hide SagVolts, SagAmps;
  }

  lemma AccumulateStep(r: Rating, gap: nat, x: Series, prior: Option<Sample>, rows: seq<Sample>, end: int, n: nat, prev: Option<Sample>, run: Running)
    requires Nominal(r) && n < |rows| && Accumulates(r, gap, x, prior, rows, end, n, prev, run)
    ensures Accumulates(r, gap, x, prior, rows, end, n + 1, Some(rows[n]), StepSeries(r, gap, x, run, prev, rows[n], Hold(gap, rows[n..], end)))
  {
    assert rows[n..][1..] == rows[n + 1..] && rows[n..][0] == rows[n];
    ExtremesStep(r, x, rows, rows[n..], run);
    SagStep(r, gap, x, prev, rows[n..], run.sag, DeepestSag(r, gap, x.0, x.1, prior, rows));
    hide Above, Times, Hold, LivePct, SagAt, Peak, Trough, DeepestSag, Highest, Lowest;
  }

  /** A dead sample adds nothing to any series. */
  lemma DeadAdds(r: Rating, gap: nat, x: Series, run: Running, prev: Option<Sample>, s: Sample, h: real)
    requires Nominal(r) && Dead(r, s)
    ensures StepSeries(r, gap, x, run, prev, s, h) == run && Imbalance(r, s) == None
  {
  }

  lemma FeederStep(r: Rating, gap: nat, rows: seq<Sample>, end: int, n: nat, flif: Option<real>, covered: real)
    requires Nominal(r) && n < |rows|
    requires Highest(flif, WorstImbalance(r, rows[n..])) == WorstImbalance(r, rows)
    requires covered + Covered(gap, rows[n..], end) == Covered(gap, rows, end)
    ensures Highest(Highest(flif, Imbalance(r, rows[n])), WorstImbalance(r, rows[n + 1..])) == WorstImbalance(r, rows)
    ensures covered + Hold(gap, rows[n..], end) + Covered(gap, rows[n + 1..], end) == Covered(gap, rows, end)
  {
    assert rows[n..][1..] == rows[n + 1..] && rows[n..][0] == rows[n];
    hide Imbalance, Hold;
  }

  function StepTrackers(r: Rating, gap: nat, trk: map<Key, Tracker>, prev: Option<Sample>, s: Sample, dtMin: real): map<Key, Tracker> {
    map key | key in trk :: StepTracker(trk[key], Breach(r, key, s), Continuous(gap, prev, s), dtMin)
  }

  /** An interruption ends every excursion. */
  function EndAll(trk: map<Key, Tracker>): map<Key, Tracker> { map key | key in trk :: trk[key].(inExc := false) }

  function StepAll(r: Rating, gap: nat, runs: map<Series, Running>, prev: Option<Sample>, s: Sample, dtMin: real): map<Series, Running>
    requires Nominal(r)
  {
    map x: Series | x in runs :: StepSeries(r, gap, x, runs[x], prev, s, dtMin)
  }

  ghost predicate Progress(r: Rating, gap: nat, prior: Option<Sample>, rows: seq<Sample>, end: int, n: nat, prev: Option<Sample>,
                           trk: map<Key, Tracker>, runs: map<Series, Running>, flif: Option<real>, covered: real)
    requires Nominal(r) && n <= |rows|
  {
    && trk.Keys == AllKeys() && runs.Keys == AllSeries()
    && (forall key :: key in trk ==> Tracks(r, gap, key, prior, rows, end, n, prev, trk[key]))
    && (forall x: Series :: x in runs ==> Accumulates(r, gap, x, prior, rows, end, n, prev, runs[x]))
    && Highest(flif, WorstImbalance(r, rows[n..])) == WorstImbalance(r, rows)
    && covered + Covered(gap, rows[n..], end) == Covered(gap, rows, end)
  }

  /** One turn of the loop. */
  lemma Advance(r: Rating, gap: nat, prior: Option<Sample>, rows: seq<Sample>, end: int, n: nat, prev: Option<Sample>,
                trk: map<Key, Tracker>, runs: map<Series, Running>, flif: Option<real>, covered: real)
    requires Nominal(r) && n < |rows| && Progress(r, gap, prior, rows, end, n, prev, trk, runs, flif, covered)
    ensures var s, h := rows[n], Hold(gap, rows[n..], end);
      if Dead(r, s) then Progress(r, gap, prior, rows, end, n + 1, Some(s), EndAll(trk), runs, flif, covered + h)
      else Progress(r, gap, prior, rows, end, n + 1, Some(s), StepTrackers(r, gap, trk, prev, s, h), StepAll(r, gap, runs, prev, s, h),
                    Highest(flif, Imbalance(r, s)), covered + h)
  {
    var s, h := rows[n], Hold(gap, rows[n..], end);
    hide AllKeys, AllSeries, Breach, Dead, Hold, StepSeries, StepTracker, Imbalance, Tracks, Accumulates;
    FeederStep(r, gap, rows, end, n, flif, covered);
    forall key | key in trk ensures Tracks(r, gap, key, prior, rows, end, n + 1, Some(s),
        if Dead(r, s) then trk[key].(inExc := false) else StepTracker(trk[key], Breach(r, key, s), Continuous(gap, prev, s), h)) {
      TrackStep(r, gap, key, prior, rows, end, n, prev, trk[key]);
    }
    forall x: Series | x in runs ensures Accumulates(r, gap, x, prior, rows, end, n + 1, Some(s), StepSeries(r, gap, x, runs[x], prev, s, h))
      && (Dead(r, s) ==> StepSeries(r, gap, x, runs[x], prev, s, h) == runs[x]) {
      AccumulateStep(r, gap, x, prior, rows, end, n, prev, runs[x]);
      if Dead(r, s) { DeadAdds(r, gap, x, runs[x], prev, s, h); }
    }
    if Dead(r, s) { DeadAdds(r, gap, (Volts, R), Running(0.0, None, None, None), prev, s, h); }
  }

  lemma StartsRight(r: Rating, gap: nat, prior: Option<Sample>, rows: seq<Sample>, end: int, prev: Option<Sample>, key: Key, x: Series)
    requires Nominal(r) && prev == if rows != [] && Continuous(gap, prior, rows[0]) then prior else None
    ensures rows[0..] == rows
    ensures Tracks(r, gap, key, prior, rows, end, 0, prev, Tracker(prev.Some? && Excess(r, key, prev.value), 0, 0.0))
    ensures Accumulates(r, gap, x, prior, rows, end, 0, prev, Running(0.0, None, None, None))
  {
    assert rows[0..] == rows;
    if prev.None? { PriorTooOld(r, gap, key, x, prior, rows); }
  }

  /** An excursion already running at the start continues rather than counting as a new incident. */
  function StartTrackers(r: Rating, prev: Option<Sample>): map<Key, Tracker> {
    map key | key in AllKeys() :: Tracker(prev.Some? && Excess(r, key, prev.value), 0, 0.0)
  }

  function StartSeries(): map<Series, Running> { map x: Series | x in AllSeries() :: Running(0.0, None, None, None) }

  lemma Initial(r: Rating, gap: nat, prior: Option<Sample>, rows: seq<Sample>, end: int, prev: Option<Sample>)
    requires Nominal(r) && prev == if rows != [] && Continuous(gap, prior, rows[0]) then prior else None
    ensures Progress(r, gap, prior, rows, end, 0, prev, StartTrackers(r, prev), StartSeries(), None, 0.0)
  {
    assert rows[0..] == rows;
    hide AllKeys, AllSeries, Excess, Tracks, Accumulates;
    forall key, x: Series ensures Tracks(r, gap, key, prior, rows, end, 0, prev, Tracker(prev.Some? && Excess(r, key, prev.value), 0, 0.0))
      && Accumulates(r, gap, x, prior, rows, end, 0, prev, Running(0.0, None, None, None)) && rows[0..] == rows {
      StartsRight(r, gap, prior, rows, end, prev, key, x);
    }
  }

  lemma TrackerDone(r: Rating, gap: nat, key: Key, prior: Option<Sample>, rows: seq<Sample>, end: int, prev: Option<Sample>, tr: Tracker)
    requires Tracks(r, gap, key, prior, rows, end, |rows|, prev, tr)
    ensures Result(tr) == ExcursionsOf(r, gap, key, prior, rows, end)
  {
    assert rows[|rows|..] == [];
  }

  lemma SeriesDone(r: Rating, gap: nat, prior: Option<Sample>, rows: seq<Sample>, end: int, prev: Option<Sample>, x: Series, run: Running)
    requires Nominal(r) && Accumulates(r, gap, x, prior, rows, end, |rows|, prev, run)
    ensures run == SeriesOf(r, gap, x, prior, rows, end)
  {
    assert rows[|rows|..] == [];
  }

  function Result(tr: Tracker): Excursions { Excursions(tr.incidents, tr.minutes) }

  function Collect(trk: map<Key, Tracker>, runs: map<Series, Running>, flif: Option<real>, covered: real): Kpis {
    Kpis(map key | key in trk :: Result(trk[key]), runs, flif, covered)
  }

  lemma ProgressDone(r: Rating, gap: nat, prior: Option<Sample>, rows: seq<Sample>, end: int, prev: Option<Sample>,
                     trk: map<Key, Tracker>, runs: map<Series, Running>, flif: Option<real>, covered: real)
    requires Nominal(r) && Progress(r, gap, prior, rows, end, |rows|, prev, trk, runs, flif, covered)
    ensures KpisOf(r, gap, prior, rows, end) == Collect(trk, runs, flif, covered)
  {
    assert rows[|rows|..] == [];
    assert flif == WorstImbalance(r, rows) && covered == Covered(gap, rows, end);
    hide AllKeys, AllSeries, Tracks, Accumulates, WorstImbalance, Covered;
    AllTrackersDone(r, gap, prior, rows, end, prev, trk);
    AllSeriesDone(r, gap, prior, rows, end, prev, runs);
    hide AllExcursions, AllSeriesOf;
  }

  lemma AllTrackersDone(r: Rating, gap: nat, prior: Option<Sample>, rows: seq<Sample>, end: int, prev: Option<Sample>, trk: map<Key, Tracker>)
    requires trk.Keys == AllKeys() && forall key :: key in trk ==> Tracks(r, gap, key, prior, rows, end, |rows|, prev, trk[key])
    ensures AllExcursions(r, gap, prior, rows, end) == map key | key in trk :: Result(trk[key])
  {
    hide AllKeys, Tracks, ExcursionsOf, Result;
    forall key | key in trk ensures Result(trk[key]) == ExcursionsOf(r, gap, key, prior, rows, end) {
      TrackerDone(r, gap, key, prior, rows, end, prev, trk[key]);
    }
  }

  lemma AllSeriesDone(r: Rating, gap: nat, prior: Option<Sample>, rows: seq<Sample>, end: int, prev: Option<Sample>, runs: map<Series, Running>)
    requires Nominal(r) && runs.Keys == AllSeries()
    requires forall x: Series :: x in runs ==> Accumulates(r, gap, x, prior, rows, end, |rows|, prev, runs[x])
    ensures AllSeriesOf(r, gap, prior, rows, end) == runs
  {
    hide AllSeries, Accumulates, SeriesOf;
    forall x: Series | x in runs ensures runs[x] == SeriesOf(r, gap, x, prior, rows, end) {
      SeriesDone(r, gap, prior, rows, end, prev, x, runs[x]);
    }
  }

  /** What one sample does to every tracker and series: an interruption ends every excursion and adds to nothing. */
  method TakeSample(r: Rating, gap: nat, trk: map<Key, Tracker>, runs: map<Series, Running>, flif: Option<real>, prev: Option<Sample>, s: Sample, dtMin: real)
    returns (trk': map<Key, Tracker>, runs': map<Series, Running>, flif': Option<real>)
    requires Nominal(r)
    ensures if Dead(r, s) then trk' == EndAll(trk) && runs' == runs && flif' == flif
      else trk' == StepTrackers(r, gap, trk, prev, s, dtMin) && runs' == StepAll(r, gap, runs, prev, s, dtMin) && flif' == Highest(flif, Imbalance(r, s))
  {
    trk', runs', flif' := trk, runs, flif;
    if Dead(r, s) {
      trk' := map key | key in trk :: trk[key].(inExc := false);
    } else {
      trk' := map key | key in trk :: StepTracker(trk[key], Breach(r, key, s), Continuous(gap, prev, s), dtMin);
      runs' := map x: Series | x in runs :: StepSeries(r, gap, x, runs[x], prev, s, dtMin);
      flif' := Highest(flif, Imbalance(r, s));
    }
  }

  /** computeFeederKpis: one pass over the period's rows with sixteen trackers and six series. */
  method ComputeFeederKpis(samples: seq<Sample>, r: Rating, start: int, end: int, prior: Option<Sample>, gap: nat) returns (k: Kpis)
    requires Nominal(r)
    ensures k == KpisOf(r, gap, prior, Rows(samples, start, end), end)
  {
    hide *;
    var rows := Rows(samples, start, end);
    var prev := if rows != [] && Continuous(gap, prior, rows[0]) then prior else None;
    var trk := StartTrackers(r, prev);
    var runs := StartSeries();
    var flif: Option<real> := None;
    var covered := 0.0;
    Initial(r, gap, prior, rows, end, prev);
    var n := 0;
    while n < |rows|
      invariant 0 <= n <= |rows|
      invariant Progress(r, gap, prior, rows, end, n, prev, trk, runs, flif, covered)
    {
      var s, dtMin := rows[n], Hold(gap, rows[n..], end);
      Advance(r, gap, prior, rows, end, n, prev, trk, runs, flif, covered);
      covered := covered + dtMin;
      trk, runs, flif := TakeSample(r, gap, trk, runs, flif, prev, s, dtMin);
      prev := Some(s);
      n := n + 1;
    }
    ProgressDone(r, gap, prior, rows, end, prev, trk, runs, flif, covered);
    k := Collect(trk, runs, flif, covered);
  }

  // ---- longer periods ----

  function AddExcursions(a: Excursions, b: Excursions): Excursions { Excursions(a.incidents + b.incidents, a.minutes + b.minutes) }

  function CombineSeries(a: Running, b: Running): Running {
    Running(a.stress + b.stress, Highest(a.peak, b.peak), Lowest(a.trough, b.trough), Lowest(a.sag, b.sag))
  }

  /** Sums of counts, durations and stress; highest of maxima; lowest of minima and sags. */
  function Combine(a: Kpis, b: Kpis): Kpis
    requires a.excursions.Keys == b.excursions.Keys && a.series.Keys == b.series.Keys
  {
    Kpis(AddAll(a.excursions, b.excursions), CombineAll(a.series, b.series), Highest(a.flif, b.flif), a.covered + b.covered)
  }

  function AddAll(a: map<Key, Excursions>, b: map<Key, Excursions>): map<Key, Excursions>
    requires a.Keys == b.Keys
  {
    map key | key in a :: AddExcursions(a[key], b[key])
  }

  function CombineAll(a: map<Series, Running>, b: map<Series, Running>): map<Series, Running>
    requires a.Keys == b.Keys
  {
    map x: Series | x in a :: CombineSeries(a[x], b[x])
  }

  /** The boundary cuts no hold time off the last sample before it: it falls on a sample, or at least a whole gap limit
    * after the last one. */
  predicate CleanBoundary(gap: nat, a: seq<Sample>, mid: int, b: seq<Sample>, end: int) {
    a == [] || gap <= mid - a[|a| - 1].t || (if b == [] then end else b[0].t) == mid
  }

  lemma ExcursionsSplit(r: Rating, gap: nat, key: Key, prior: Option<Sample>, samples: seq<Sample>, start: int, mid: int, end: int)
    requires start <= mid <= end && CleanBoundary(gap, Rows(samples, start, mid), mid, Rows(samples, mid, end), end)
    ensures var a, b := Rows(samples, start, mid), Rows(samples, mid, end);
      ExcursionsOf(r, gap, key, prior, Rows(samples, start, end), end)
        == AddExcursions(ExcursionsOf(r, gap, key, prior, a, mid), ExcursionsOf(r, gap, key, Last(prior, a), b, end))
  {
    IncidentsAdd(r, gap, key, prior, samples, start, mid, end);
    DurationsAddUpToTheLoss(r, gap, key, Volts, R, samples, start, mid, end);
    hide Rows, Incidents, Minutes, Stress, LostMinutes, Covered;
  }

  lemma SeriesSplit(r: Rating, gap: nat, x: Series, prior: Option<Sample>, samples: seq<Sample>, start: int, mid: int, end: int)
    requires Nominal(r) && start <= mid <= end && CleanBoundary(gap, Rows(samples, start, mid), mid, Rows(samples, mid, end), end)
    ensures var a, b := Rows(samples, start, mid), Rows(samples, mid, end);
      SeriesOf(r, gap, x, prior, Rows(samples, start, end), end)
        == CombineSeries(SeriesOf(r, gap, x, prior, a, mid), SeriesOf(r, gap, x, Last(prior, a), b, end))
  {
    ExtremesCombine(r, gap, x.0, x.1, prior, samples, start, mid, end);
    DurationsAddUpToTheLoss(r, gap, Key(VH, Total), x.0, x.1, samples, start, mid, end);
    var a := Rows(samples, start, mid);
    assert a != [] ==> Times(Above(r, x.0, x.1, a[|a| - 1]), 0.0) == 0.0;
    hide Rows, Peak, Trough, DeepestSag, Stress, Minutes, LostMinutes, Covered, WorstImbalance, Times;
  }

  lemma AllExcursionsSplit(r: Rating, gap: nat, prior: Option<Sample>, samples: seq<Sample>, start: int, mid: int, end: int)
    requires start <= mid <= end && CleanBoundary(gap, Rows(samples, start, mid), mid, Rows(samples, mid, end), end)
    ensures var a, b := Rows(samples, start, mid), Rows(samples, mid, end);
      AllExcursions(r, gap, prior, Rows(samples, start, end), end) == AddAll(AllExcursions(r, gap, prior, a, mid), AllExcursions(r, gap, Last(prior, a), b, end))
  {
    hide Rows, AllKeys, ExcursionsOf, AddExcursions, CleanBoundary;
    var a, b := Rows(samples, start, mid), Rows(samples, mid, end);
    forall key ensures ExcursionsOf(r, gap, key, prior, Rows(samples, start, end), end)
      == AddExcursions(ExcursionsOf(r, gap, key, prior, a, mid), ExcursionsOf(r, gap, key, Last(prior, a), b, end)) {
      ExcursionsSplit(r, gap, key, prior, samples, start, mid, end);
    }
  }

  lemma AllSeriesSplit(r: Rating, gap: nat, prior: Option<Sample>, samples: seq<Sample>, start: int, mid: int, end: int)
    requires Nominal(r) && start <= mid <= end && CleanBoundary(gap, Rows(samples, start, mid), mid, Rows(samples, mid, end), end)
    ensures var a, b := Rows(samples, start, mid), Rows(samples, mid, end);
      AllSeriesOf(r, gap, prior, Rows(samples, start, end), end) == CombineAll(AllSeriesOf(r, gap, prior, a, mid), AllSeriesOf(r, gap, Last(prior, a), b, end))
  {
    hide Rows, AllSeries, SeriesOf, CombineSeries, CleanBoundary;
    var a, b := Rows(samples, start, mid), Rows(samples, mid, end);
    forall x: Series ensures SeriesOf(r, gap, x, prior, Rows(samples, start, end), end)
      == CombineSeries(SeriesOf(r, gap, x, prior, a, mid), SeriesOf(r, gap, x, Last(prior, a), b, end)) {
      SeriesSplit(r, gap, x, prior, samples, start, mid, end);
    }
  }

  /** A period is its two parts combined, when the second starts from the last sample of the first. */
  lemma PeriodIsItsParts(r: Rating, gap: nat, prior: Option<Sample>, samples: seq<Sample>, start: int, mid: int, end: int)
    requires Nominal(r) && start <= mid <= end && CleanBoundary(gap, Rows(samples, start, mid), mid, Rows(samples, mid, end), end)
    ensures var a, b := Rows(samples, start, mid), Rows(samples, mid, end);
      KpisOf(r, gap, prior, Rows(samples, start, end), end) == Combine(KpisOf(r, gap, prior, a, mid), KpisOf(r, gap, Last(prior, a), b, end))
  {
    ExtremesCombine(r, gap, Volts, R, prior, samples, start, mid, end);
    DurationsAddUpToTheLoss(r, gap, Key(VH, Total), Volts, R, samples, start, mid, end);
    AllExcursionsSplit(r, gap, prior, samples, start, mid, end);
    AllSeriesSplit(r, gap, prior, samples, start, mid, end);
    hide Rows, AllKeys, AllSeries, WorstImbalance, Covered, LostMinutes, Minutes, Stress, Peak, Trough, DeepestSag, AddAll, CombineAll;
  }
}
