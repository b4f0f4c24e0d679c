/** Weeks, months and years out of stored days (backend/src/domain/feederKpi.js aggregateKpis): exactly when they are what the
  * whole period would have given, and what rounding every day to two decimals changes. */
module FeederKpiDays {
  import opened Common
  import opened FeederKpi
  import opened FeederKpiLoop

  /** The i-th day, computed with the last sample before it as its prior. */
  function Day(r: Rating, gap: nat, prior: Option<Sample>, samples: seq<Sample>, days: seq<int>, i: nat): Kpis
    requires Nominal(r) && i + 1 < |days|
  {
    KpisOf(r, gap, Last(prior, Rows(samples, days[0], days[i])), Rows(samples, days[i], days[i + 1]), days[i + 1])
  }

  /** aggregateKpis over the first n days. */
  function Aggregate(r: Rating, gap: nat, prior: Option<Sample>, samples: seq<Sample>, days: seq<int>, n: nat): (k: Kpis)
    requires Nominal(r) && 1 <= n < |days|
    ensures k.excursions.Keys == AllKeys() && k.series.Keys == AllSeries()
    decreases n
  {
    if n == 1 then Day(r, gap, prior, samples, days, 0)
    else Combine(Aggregate(r, gap, prior, samples, days, n - 1), Day(r, gap, prior, samples, days, n - 1))
  }

  lemma {:induction false} EmptyPeriod(samples: seq<Sample>, t: int)
    ensures Rows(samples, t, t) == []
  {
    if samples != [] { EmptyPeriod(samples[1..], t); }
  }

  ghost predicate InOrder(days: seq<int>) { forall i, j :: 0 <= i <= j < |days| ==> days[i] <= days[j] }

  /** The midnight that starts day i cuts no hold short. */
  predicate CleanMidnight(gap: nat, samples: seq<Sample>, days: seq<int>, i: nat)
    requires i + 1 < |days|
  {
    CleanBoundary(gap, Rows(samples, days[0], days[i]), days[i], Rows(samples, days[i], days[i + 1]), days[i + 1])
  }

  /** The minutes that midnight cuts off. */
  function CutOff(gap: nat, samples: seq<Sample>, days: seq<int>, i: nat): real
    requires i + 1 < |days|
  {
    LostMinutes(gap, Rows(samples, days[0], days[i]), days[i], Rows(samples, days[i], days[i + 1]), days[i + 1])
  }

  ghost predicate AllClean(gap: nat, samples: seq<Sample>, days: seq<int>, n: nat)
    requires n < |days|
  {
    forall i :: 1 <= i < n ==> CleanMidnight(gap, samples, days, i)
  }

  /** The minutes all midnights inside the first n days cut off. */
  function AllCutOff(gap: nat, samples: seq<Sample>, days: seq<int>, n: nat): real
    requires 1 <= n < |days|
  {
    if n == 1 then 0.0 else AllCutOff(gap, samples, days, n - 1) + CutOff(gap, samples, days, n - 1)
  }

  /** The covered minutes from day i to day j. */
  function CoveredOver(gap: nat, samples: seq<Sample>, days: seq<int>, i: nat, j: nat): real
    requires i < |days| && j < |days|
  {
    Covered(gap, Rows(samples, days[i], days[j]), days[j])
  }

  lemma OneMidnight(r: Rating, gap: nat, samples: seq<Sample>, days: seq<int>, i: nat)
    requires InOrder(days) && i + 1 < |days|
    ensures CoveredOver(gap, samples, days, 0, i + 1) ==
            CoveredOver(gap, samples, days, 0, i) + CoveredOver(gap, samples, days, i, i + 1) + CutOff(gap, samples, days, i)
    ensures CutOff(gap, samples, days, i) >= 0.0 && (CutOff(gap, samples, days, i) == 0.0 <==> CleanMidnight(gap, samples, days, i))
  {
    assert days[0] <= days[i] <= days[i + 1];
    DurationsAddUpToTheLoss(r, gap, Key(VH, Total), Volts, R, samples, days[0], days[i], days[i + 1]);
    hide Rows, Covered, LostMinutes, Minutes, Stress;
  }

  lemma AddedUp(r: Rating, gap: nat, prior: Option<Sample>, samples: seq<Sample>, days: seq<int>, n: nat)
    requires Nominal(r) && 1 <= n < |days|
    ensures n == 1 ==> Aggregate(r, gap, prior, samples, days, n).covered == CoveredOver(gap, samples, days, 0, 1)
    ensures n > 1 ==> Aggregate(r, gap, prior, samples, days, n).covered ==
                      Aggregate(r, gap, prior, samples, days, n - 1).covered + CoveredOver(gap, samples, days, n - 1, n)
  {
    hide Covered, Rows, AddAll, CombineAll, AllExcursions, AllSeriesOf, AllKeys, AllSeries;
  }

  lemma AllCleanNext(gap: nat, samples: seq<Sample>, days: seq<int>, n: nat)
    requires 1 <= n < |days|
    ensures AllClean(gap, samples, days, 1)
    ensures n > 1 ==> (AllClean(gap, samples, days, n) <==> AllClean(gap, samples, days, n - 1) && CleanMidnight(gap, samples, days, n - 1))
  {
    hide CleanMidnight;
  }

  lemma CutOffNext(gap: nat, samples: seq<Sample>, days: seq<int>, n: nat)
    requires 1 <= n < |days|
    ensures n == 1 ==> AllCutOff(gap, samples, days, n) == 0.0
    ensures n > 1 ==> AllCutOff(gap, samples, days, n) == AllCutOff(gap, samples, days, n - 1) + CutOff(gap, samples, days, n - 1)
  {
    hide CutOff;
  }

  /** The covered time of the whole period is that of its days and what the midnights between them cut off. */
  lemma {:induction false} CoveredIsDaysAndCutOff(r: Rating, gap: nat, prior: Option<Sample>, samples: seq<Sample>, days: seq<int>, n: nat)
    requires Nominal(r) && InOrder(days) && 1 <= n < |days|
    ensures CoveredOver(gap, samples, days, 0, n) == Aggregate(r, gap, prior, samples, days, n).covered + AllCutOff(gap, samples, days, n)
    ensures AllCutOff(gap, samples, days, n) >= 0.0
    ensures AllCutOff(gap, samples, days, n) == 0.0 <==> AllClean(gap, samples, days, n)
    decreases n
  {
    hide *;
    AddedUp(r, gap, prior, samples, days, n);
    AllCleanNext(gap, samples, days, n);
    CutOffNext(gap, samples, days, n);
    if n > 1 {
      CoveredIsDaysAndCutOff(r, gap, prior, samples, days, n - 1);
      OneMidnight(r, gap, samples, days, n - 1);
    }
  }

  lemma FirstDay(r: Rating, gap: nat, prior: Option<Sample>, samples: seq<Sample>, days: seq<int>)
    requires Nominal(r) && 1 < |days|
    ensures Aggregate(r, gap, prior, samples, days, 1) == KpisOf(r, gap, prior, Rows(samples, days[0], days[1]), days[1])
  {
    EmptyPeriod(samples, days[0]);
    hide KpisOf, Rows;
  }

  /** A clean midnight joins the whole period before it and the day after it. */
  lemma DayJoins(r: Rating, gap: nat, prior: Option<Sample>, samples: seq<Sample>, days: seq<int>, n: nat)
    requires Nominal(r) && InOrder(days) && 2 <= n < |days| && CleanMidnight(gap, samples, days, n - 1)
    requires Aggregate(r, gap, prior, samples, days, n - 1) == KpisOf(r, gap, prior, Rows(samples, days[0], days[n - 1]), days[n - 1])
    ensures Aggregate(r, gap, prior, samples, days, n) == KpisOf(r, gap, prior, Rows(samples, days[0], days[n]), days[n])
  {
    assert days[0] <= days[n - 1] <= days[n];
    hide KpisOf, Rows, Combine, CleanBoundary;
    PeriodIsItsParts(r, gap, prior, samples, days[0], days[n - 1], days[n]);
  }

  /** Days aggregated one after the other give what the whole period would have given at once, as long as no midnight cuts a
    * sample's hold short. */
  lemma {:induction false} DaysAggregate(r: Rating, gap: nat, prior: Option<Sample>, samples: seq<Sample>, days: seq<int>, n: nat)
    requires Nominal(r) && InOrder(days) && 1 <= n < |days| && AllClean(gap, samples, days, n)
    ensures Aggregate(r, gap, prior, samples, days, n) == KpisOf(r, gap, prior, Rows(samples, days[0], days[n]), days[n])
    decreases n
  {
    hide *;
    if n == 1 {
      FirstDay(r, gap, prior, samples, days);
    } else {
      AllCleanNext(gap, samples, days, n);
      DaysAggregate(r, gap, prior, samples, days, n - 1);
      DayJoins(r, gap, prior, samples, days, n);
    }
  }

  lemma WholeCovered(r: Rating, gap: nat, prior: Option<Sample>, samples: seq<Sample>, days: seq<int>, n: nat)
    requires Nominal(r) && n < |days|
    ensures KpisOf(r, gap, prior, Rows(samples, days[0], days[n]), days[n]).covered == CoveredOver(gap, samples, days, 0, n)
  {
    hide Rows, Covered, AllExcursions, AllSeriesOf;
  }

  /** Weeks, months and years are exact, in every index, exactly when no midnight between their days cuts a hold short; and
    * already the covered time tells. */
  lemma DaysAggregateExactly(r: Rating, gap: nat, prior: Option<Sample>, samples: seq<Sample>, days: seq<int>, n: nat)
    requires Nominal(r) && InOrder(days) && 1 <= n < |days|
    ensures var total, whole := Aggregate(r, gap, prior, samples, days, n), KpisOf(r, gap, prior, Rows(samples, days[0], days[n]), days[n]);
      && (total == whole <==> AllClean(gap, samples, days, n))
      && (total.covered == whole.covered <==> AllClean(gap, samples, days, n))
      && whole.covered == total.covered + AllCutOff(gap, samples, days, n)
  {
    hide *;
    CoveredIsDaysAndCutOff(r, gap, prior, samples, days, n);
    WholeCovered(r, gap, prior, samples, days, n);
    if AllClean(gap, samples, days, n) { DaysAggregate(r, gap, prior, samples, days, n); }
  }

  // ---- two decimals ----

  /** Math.round to two decimals: half up. */
  function Round2(x: real): real { (x * 100.0 + 0.5).Floor as real / 100.0 }

  function RoundAny(x: Option<real>): Option<real> { if x.None? then None else Some(Round2(x.value)) }

  function AbsR(x: real): real { if x < 0.0 then -x else x }

  lemma RoundNear(x: real)
    ensures x - 0.005 <= Round2(x) <= x + 0.005
  {
  }

  lemma RoundGrows(x: real, y: real)
    requires x <= y
    ensures Round2(x) <= Round2(y)
  {
    assert (x * 100.0 + 0.5).Floor <= (y * 100.0 + 0.5).Floor;
  }

  lemma RoundTwice(x: real)
    ensures Round2(Round2(x)) == Round2(x)
  {
    var k := (x * 100.0 + 0.5).Floor;
    assert Round2(x) * 100.0 == k as real;
    assert (k as real + 0.5).Floor == k;
  }

  /** The indices that are added up over days, and those of which the highest or the lowest is taken. */
  datatype Sum = MinutesOf(key: Key) | StressOf(series: Series) | CoveredTime
  datatype Extreme = PeakOf(of: Series) | TroughOf(of: Series) | SagOf(of: Series) | Flif

  ghost predicate Complete(k: Kpis) { k.excursions.Keys == AllKeys() && k.series.Keys == AllSeries() }

  ghost predicate Counted(what: Sum) {
    match what
    case MinutesOf(key) => key in AllKeys()
    case StressOf(x) => x in AllSeries()
    case CoveredTime => true
  }

  ghost function Amount(k: Kpis, what: Sum): real
    requires Complete(k) && Counted(what)
  {
    match what
    case MinutesOf(key) => k.excursions[key].minutes
    case StressOf(x) => k.series[x].stress
    case CoveredTime => k.covered
  }

  ghost predicate Measured(what: Extreme) { what.Flif? || what.of in AllSeries() }

  ghost function Level(k: Kpis, what: Extreme): Option<real>
    requires Complete(k) && Measured(what)
  {
    match what
    case PeakOf(x) => k.series[x].peak
    case TroughOf(x) => k.series[x].trough
    case SagOf(x) => k.series[x].sag
    case Flif => k.flif
  }

  function Worse(what: Extreme, a: Option<real>, b: Option<real>): Option<real> {
    if what.PeakOf? || what.Flif? then Highest(a, b) else Lowest(a, b)
  }

  lemma DayComplete(r: Rating, gap: nat, prior: Option<Sample>, samples: seq<Sample>, days: seq<int>, i: nat)
    requires Nominal(r) && i + 1 < |days|
    ensures Complete(Day(r, gap, prior, samples, days, i))
  {
    hide Rows, AllKeys, AllSeries;
  }

  /** The stored days as aggregateKpis adds them up, each rounded. */
  ghost function AddedRounded(r: Rating, gap: nat, prior: Option<Sample>, samples: seq<Sample>, days: seq<int>, n: nat, what: Sum): real
    requires Nominal(r) && n < |days| && Counted(what)
  {
    if n == 0 then 0.0
    else
      DayComplete(r, gap, prior, samples, days, n - 1);
      AddedRounded(r, gap, prior, samples, days, n - 1, what) + Round2(Amount(Day(r, gap, prior, samples, days, n - 1), what))
  }

  /** The worst of the stored days, each rounded. */
  ghost function WorstRounded(r: Rating, gap: nat, prior: Option<Sample>, samples: seq<Sample>, days: seq<int>, n: nat, what: Extreme): Option<real>
    requires Nominal(r) && n < |days| && Measured(what)
  {
    if n == 0 then None
    else
      DayComplete(r, gap, prior, samples, days, n - 1);
      Worse(what, WorstRounded(r, gap, prior, samples, days, n - 1, what), RoundAny(Level(Day(r, gap, prior, samples, days, n - 1), what)))
  }

  lemma CombineParts(a: Kpis, b: Kpis, what: Sum, which: Extreme)
    requires Complete(a) && Complete(b) && Counted(what) && Measured(which)
    ensures Complete(Combine(a, b)) && Amount(Combine(a, b), what) == Amount(a, what) + Amount(b, what)
    ensures Level(Combine(a, b), which) == Worse(which, Level(a, which), Level(b, which))
  {
    hide AllKeys, AllSeries, Highest, Lowest;
  }

  lemma RoundWorse(what: Extreme, a: Option<real>, b: Option<real>)
    ensures RoundAny(Worse(what, a, b)) == Worse(what, RoundAny(a), RoundAny(b))
  {
    if a.Some? && b.Some? {
      if a.value <= b.value { RoundGrows(a.value, b.value); } else { RoundGrows(b.value, a.value); }
    }
    hide Round2;
  }

  /** The sum of the rounded days is this close to the exact total, and their worst is the exact worst rounded. */
  ghost predicate RoundedRight(r: Rating, gap: nat, prior: Option<Sample>, samples: seq<Sample>, days: seq<int>, n: nat, what: Sum, which: Extreme,
                               total: Kpis)
    requires Nominal(r) && 1 <= n < |days| && Counted(what) && Measured(which)
  {
    && Complete(total) && WorstRounded(r, gap, prior, samples, days, n, which) == RoundAny(Level(total, which))
    && AbsR(AddedRounded(r, gap, prior, samples, days, n, what) - Amount(total, what)) <= 0.005 * n as real
  }

  lemma FirstRounded(r: Rating, gap: nat, prior: Option<Sample>, samples: seq<Sample>, days: seq<int>, what: Sum, which: Extreme)
    requires Nominal(r) && 1 < |days| && Counted(what) && Measured(which)
    ensures RoundedRight(r, gap, prior, samples, days, 1, what, which, Day(r, gap, prior, samples, days, 0))
  {
    var day := Day(r, gap, prior, samples, days, 0);
    DayComplete(r, gap, prior, samples, days, 0);
    RoundNear(Amount(day, what));
    assert AddedRounded(r, gap, prior, samples, days, 0, what) == 0.0;
    assert WorstRounded(r, gap, prior, samples, days, 0, which) == None;
    hide Day, Round2, Complete, Amount, Level;
  }

  lemma AbsAdds(sum: real, before: real, part: real, day: real, n: nat)
    requires AbsR(sum - before) <= 0.005 * (n - 1) as real && day - 0.005 <= part <= day + 0.005
    ensures AbsR(sum + part - (before + day)) <= 0.005 * n as real
  {
  }

  lemma NextRounded(r: Rating, gap: nat, prior: Option<Sample>, samples: seq<Sample>, days: seq<int>, n: nat, what: Sum, which: Extreme, before: Kpis)
    requires Nominal(r) && 2 <= n < |days| && Counted(what) && Measured(which)
    requires RoundedRight(r, gap, prior, samples, days, n - 1, what, which, before)
    ensures Complete(Day(r, gap, prior, samples, days, n - 1))
      && RoundedRight(r, gap, prior, samples, days, n, what, which, Combine(before, Day(r, gap, prior, samples, days, n - 1)))
  {
    var day := Day(r, gap, prior, samples, days, n - 1);
    DayComplete(r, gap, prior, samples, days, n - 1);
    CombineParts(before, day, what, which);
    var sum, part := AddedRounded(r, gap, prior, samples, days, n - 1, what), Round2(Amount(day, what));
    RoundNear(Amount(day, what));
    AbsAdds(sum, Amount(before, what), part, Amount(day, what), n);
    RoundWorse(which, Level(before, which), Level(day, which));
    hide Day, Round2, Complete, Amount, Level, Combine, Worse, Counted, Measured, RoundAny, AbsR;
  }

  lemma {:induction false} RoundedSoFar(r: Rating, gap: nat, prior: Option<Sample>, samples: seq<Sample>, days: seq<int>, n: nat,
                                        what: Sum, which: Extreme)
    requires Nominal(r) && 1 <= n < |days| && Counted(what) && Measured(which)
    ensures RoundedRight(r, gap, prior, samples, days, n, what, which, Aggregate(r, gap, prior, samples, days, n))
    decreases n
  {
    hide Day, Combine, RoundedRight, Complete, Counted, Measured;
    if n == 1 {
      FirstRounded(r, gap, prior, samples, days, what, which);
    } else {
      RoundedSoFar(r, gap, prior, samples, days, n - 1, what, which);
      NextRounded(r, gap, prior, samples, days, n, what, which, Aggregate(r, gap, prior, samples, days, n - 1));
    }
  }

  lemma RoundedParts(r: Rating, gap: nat, prior: Option<Sample>, samples: seq<Sample>, days: seq<int>, n: nat, what: Sum, which: Extreme, total: Kpis)
    requires Nominal(r) && 1 <= n < |days| && Counted(what) && Measured(which)
    requires RoundedRight(r, gap, prior, samples, days, n, what, which, total)
    ensures Complete(total) && WorstRounded(r, gap, prior, samples, days, n, which) == RoundAny(Level(total, which))
    ensures AbsR(AddedRounded(r, gap, prior, samples, days, n, what) - Amount(total, what)) <= 0.005 * n as real
  {
    hide Complete, Amount, Level, AddedRounded, WorstRounded, AbsR;
  }

  lemma RoundedOnce(sum: real, exact: real, n: nat)
    requires AbsR(sum - exact) <= 0.005 * n as real
    ensures AbsR(Round2(sum) - exact) <= 0.005 * (n + 1) as real
  {
    RoundNear(sum);
    hide Round2;
  }

  lemma RoundAnyTwice(x: Option<real>)
    ensures RoundAny(RoundAny(x)) == RoundAny(x)
  {
    if x.Some? { RoundTwice(x.value); }
    hide Round2;
  }

  /** Rounding every day first: the published maxima, minima, sags and imbalance are the ones of the whole period rounded
    * once, and a published sum is off by at most half a hundredth for each day and one more, as long as the midnights are
    * clean. */
  lemma RoundedDays(r: Rating, gap: nat, prior: Option<Sample>, samples: seq<Sample>, days: seq<int>, n: nat, what: Sum, which: Extreme)
    requires Nominal(r) && InOrder(days) && 1 <= n < |days| && Counted(what) && Measured(which) && AllClean(gap, samples, days, n)
    ensures var whole := KpisOf(r, gap, prior, Rows(samples, days[0], days[n]), days[n]);
      && Complete(whole)
      && RoundAny(WorstRounded(r, gap, prior, samples, days, n, which)) == RoundAny(Level(whole, which))
      && AbsR(Round2(AddedRounded(r, gap, prior, samples, days, n, what)) - Amount(whole, what)) <= 0.005 * (n + 1) as real
  {
    hide *;
    DaysAggregate(r, gap, prior, samples, days, n);
    RoundedSoFar(r, gap, prior, samples, days, n, what, which);
    var total := Aggregate(r, gap, prior, samples, days, n);
    RoundedParts(r, gap, prior, samples, days, n, what, which, total);
    RoundedOnce(AddedRounded(r, gap, prior, samples, days, n, what), Amount(total, what), n);
    RoundAnyTwice(Level(total, which));
  }
}
