/**
  Ensemble extraction. After every scenario has run, the builder reads, for each
  timeline index, the scenario-days present at that index, sorts them by actual daily
  new cases and keeps three of them: the first of the ascending sort (lower bound),
  the one at position floor(n / 2) (baseline) and the first of the descending sort
  (upper bound). For the most recent day it also ranges the scenarios' global
  aggregates.
 */
module Build {
  import opened Numerics
  import opened Base
  import opened Parameters
  import opened Selection
  import opened Scenarios

  // ---------------------------------------------------------------------------
  // What the builder reads of the scenarios
  // ---------------------------------------------------------------------------

  /**
    The state of one run scenario as the builder reads it: its run-up days, its days
    with aggregates, and its global aggregates.
   */
  datatype Outcome = Outcome(
    runUp: seq<RunUpDay>,
    days: seq<Day>,
    currentGrowthRate: real,
    currentREff: real,
    projectedTotalSeroprev: real,
    projectedTotalMortality: int)

  function Snapshot(s: Scenario): Outcome
    reads s
  {
    Outcome(s.runUp, s.days, s.currentGrowthRate, s.currentREff,
      s.projectedTotalSeroprev, s.projectedTotalMortality)
  }

  function Snapshots(ss: seq<Scenario>): (r: seq<Outcome>)
    reads ss
    ensures |r| == |ss|
  {
    if ss == [] then [] else Snapshots(ss[..|ss| - 1]) + [Snapshot(ss[|ss| - 1])]
  }

  /**
    A scenario-day found at some timeline index, with the position of its scenario in
    the scenario list (the day's back-reference to its parent scenario).
   */
  datatype Candidate<T> = Candidate(scenario: nat, day: T)

  function RunUpIndex(d: RunUpDay): int { d.timelineIndex }
  function DayIndex(d: Day): int { d.rolling.raw.timelineIndex }

  /** The sort keys: `OrderBy(day => day.ActualDNC)`. */
  function RunUpKey(c: Candidate<RunUpDay>): real { c.day.actualDNC as real }
  function DayKey(c: Candidate<Day>): real { c.day.actualDNC as real }

  /** The days of scenario `s` whose timeline index is `i`, in list order. */
  function Matching<T>(xs: seq<T>, s: nat, i: int, index: T -> int): seq<Candidate<T>>
  {
    if xs == [] then []
    else (if index(xs[0]) == i then [Candidate(s, xs[0])] else []) + Matching(xs[1..], s, i, index)
  }

  /**
    `SelectMany` over the scenarios followed by `Where(index == i)`: the days at index
    `i`, scenario by scenario in list order.
   */
  function Gathered<T>(groups: seq<seq<T>>, i: int, index: T -> int): seq<Candidate<T>>
  {
    if groups == [] then []
    else
      var last := |groups| - 1;
      Gathered(groups[..last], i, index) + Matching(groups[last], last, i, index)
  }

  /** Exactly the days of the list that carry index `i` appear, each tagged with `s`. */
  lemma {:induction false} MatchingExact<T>(xs: seq<T>, s: nat, i: int, index: T -> int)
    ensures var c := Matching(xs, s, i, index);
      && (forall k :: 0 <= k < |c| ==> c[k].scenario == s && c[k].day in xs && index(c[k].day) == i)
      && (forall x :: x in xs && index(x) == i ==> Candidate(s, x) in c)
  {
    if xs != [] {
      MatchingExact(xs[1..], s, i, index);
      assert forall x :: x in xs ==> x == xs[0] || x in xs[1..];
      var head: seq<Candidate<T>> := if index(xs[0]) == i then [Candidate(s, xs[0])] else [];
      var c := Matching(xs, s, i, index);
      assert c == head + Matching(xs[1..], s, i, index);
      forall k | 0 <= k < |c|
        ensures c[k].scenario == s && c[k].day in xs && index(c[k].day) == i
      {
        if k >= |head| {
          assert c[k] == Matching(xs[1..], s, i, index)[k - |head|];
        }
      }
    }
  }

  lemma MatchingAt<T>(xs: seq<T>, s: nat, i: int, index: T -> int, j: int)
    requires 0 <= j < |Matching(xs, s, i, index)|
    ensures var d := Matching(xs, s, i, index)[j]; d.scenario == s && d.day in xs && index(d.day) == i
  {
    MatchingExact(xs, s, i, index);
  }

  /**
    The days gathered at `i` are exactly the days of any scenario that carry index `i`,
    each tagged with its own scenario.
   */
  lemma {:induction false} GatheredExact<T>(groups: seq<seq<T>>, i: int, index: T -> int)
    ensures var c := Gathered(groups, i, index);
      && (forall k :: 0 <= k < |c| ==>
           c[k].scenario < |groups| && c[k].day in groups[c[k].scenario] && index(c[k].day) == i)
      && (forall s, x :: 0 <= s < |groups| && x in groups[s] && index(x) == i ==> Candidate(s, x) in c)
  {
    if groups != [] {
      var last := |groups| - 1;
      var front := Gathered(groups[..last], i, index);
      var back := Matching(groups[last], last, i, index);
      GatheredExact(groups[..last], i, index);
      MatchingExact(groups[last], last, i, index);
      assert forall s :: 0 <= s < last ==> groups[..last][s] == groups[s];
      var c := Gathered(groups, i, index);
      assert c == front + back;
      forall k | 0 <= k < |c|
        ensures c[k].scenario < |groups| && c[k].day in groups[c[k].scenario] && index(c[k].day) == i
      {
        if k < |front| {
          var e := front[k];
          assert c[k] == e;
          assert e.scenario < last && e.day in groups[..last][e.scenario] && index(e.day) == i;
          assert groups[..last][e.scenario] == groups[e.scenario];
        } else {
          var j := k - |front|;
          MatchingAt(groups[last], last, i, index, j);
          assert c[k] == back[j];
        }
      }
    }
  }

  function RunUps(outs: seq<Outcome>): (g: seq<seq<RunUpDay>>)
    ensures |g| == |outs|
  {
    seq(|outs|, s requires 0 <= s < |outs| => outs[s].runUp)
  }

  function DayLists(outs: seq<Outcome>): (g: seq<seq<Day>>)
    ensures |g| == |outs|
  {
    seq(|outs|, s requires 0 <= s < |outs| => outs[s].days)
  }

  /** The run-up days of all scenarios at index `i`. */
  function RunUpAt(outs: seq<Outcome>, i: int): seq<Candidate<RunUpDay>>
  {
    Gathered(RunUps(outs), i, RunUpIndex)
  }

  /** The days with aggregates of all scenarios at index `i`. */
  function DaysAt(outs: seq<Outcome>, i: int): seq<Candidate<Day>>
  {
    Gathered(DayLists(outs), i, DayIndex)
  }

  // ---------------------------------------------------------------------------
  // The range of timeline indices
  // ---------------------------------------------------------------------------

  function MinOf(xs: seq<int>): (m: int)
    requires xs != []
    ensures m in xs && forall k :: 0 <= k < |xs| ==> m <= xs[k]
  {
    if |xs| == 1 then xs[0]
    else
      var m := MinOf(xs[1..]);
      assert forall k :: 1 <= k < |xs| ==> xs[k] == xs[1..][k - 1];
      if xs[0] <= m then xs[0] else m
  }

  function MaxOf(xs: seq<int>): (m: int)
    requires xs != []
    ensures m in xs && forall k :: 0 <= k < |xs| ==> xs[k] <= m
  {
    if |xs| == 1 then xs[0]
    else
      var m := MaxOf(xs[1..]);
      assert forall k :: 1 <= k < |xs| ==> xs[k] == xs[1..][k - 1];
      if xs[0] >= m then xs[0] else m
  }

  /** The timeline indices of every run-up day of every scenario, scenario by scenario. */
  function RunUpIndices(outs: seq<Outcome>): seq<int>
  {
    if outs == [] then []
    else
      var r := outs[|outs| - 1].runUp;
      RunUpIndices(outs[..|outs| - 1]) + seq(|r|, k requires 0 <= k < |r| => r[k].timelineIndex)
  }

  function RawIndices(raws: seq<DayRaw>): seq<int>
  {
    seq(|raws|, k requires 0 <= k < |raws| => raws[k].timelineIndex)
  }

  /** The last timeline index of the raw days (`Max()` of their indices). */
  function LastIndex(raws: seq<DayRaw>): int
    requires raws != []
  {
    MaxOf(RawIndices(raws))
  }

  /** When raw days carry their position, the largest index is the last position. */
  lemma LastIndexIsLast(raws: seq<DayRaw>)
    requires raws != [] && Indexed(raws)
    ensures LastIndex(raws) == |raws| - 1
  {
    var xs := RawIndices(raws);
    assert xs[|raws| - 1] == |raws| - 1;
  }

  // ---------------------------------------------------------------------------
  // One result day
  // ---------------------------------------------------------------------------

  /** The fields copied from one selected scenario-day. */
  datatype Estimate = Estimate(
    sourcedOn: SourcedOn,
    admissionsWithChurn: int,
    actualDNC: int,
    rolling9DayDeltaCDeltaT: real,
    growthRate: real,
    rEff: real,
    doublingTime: real)

  /** A result day: the observed data of the day, and the lower, baseline and upper estimates. */
  datatype ResultsDay = ResultsDay(
    timelineIndex: int,
    mortality: int,
    hospitalizations: int,
    tests: int,
    positivity: real,
    rolling5DayMortality: real,
    rolling5DayHospitalizations: real,
    rolling5DayTests: real,
    rolling5DayPositivity: real,
    estimates: Band<Estimate>)

  /** A run-up day gives only its source and its cases; the rest keeps its default. */
  function RunUpEstimate(d: RunUpDay): Estimate
  {
    Estimate(d.sourcedOn, 0, d.actualDNC, 0.0, 0.0, 0.0, 0.0)
  }

  function DayEstimate(d: Day): Estimate
  {
    Estimate(d.sourcedOn, d.admissionsWithChurn, d.actualDNC, d.rolling9DayDeltaCDeltaT,
      d.growthRate, d.rEff, d.doublingTime)
  }

  /** A run-up result day: no observed data, estimates from the picked run-up days. */
  function RunUpResult(i: int, p: Band<Candidate<RunUpDay>>): ResultsDay
  {
    ResultsDay(i, 0, 0, 0, 0.0, 0.0, 0.0, 0.0, 0.0,
      Band(RunUpEstimate(p.lower.day), RunUpEstimate(p.baseline.day), RunUpEstimate(p.upper.day)))
  }

  /** An observed result day: the raw and rolling data of the day, estimates from the picked days. */
  function ObservedResult(i: int, raw: DayRaw, rolling: DayRolling, p: Band<Candidate<Day>>): ResultsDay
  {
    ResultsDay(i, raw.mortality, raw.hospitalizations, raw.tests, raw.positivity,
      rolling.rolling5DayMortality, rolling.rolling5DayHospitalizations,
      rolling.rolling5DayTests, rolling.rolling5DayPositivity,
      Band(DayEstimate(p.lower.day), DayEstimate(p.baseline.day), DayEstimate(p.upper.day)))
  }

  /** What the computation of result day `i` needs; without it `First()` or an index fails. */
  predicate Selectable(outs: seq<Outcome>, raws: seq<DayRaw>, rollings: seq<DayRolling>, i: int, median: nat)
  {
    if i < 0 then median < |RunUpAt(outs, i)|
    else i < |raws| && i < |rollings| && median < |DaysAt(outs, i)|
  }

  /**
    The result day for index `i`, picking position `median` as the baseline: from the
    run-up days before index 0, from the days with aggregates from index 0 on. The
    cases of the three estimates are in order.
   */
  function ResultDay(outs: seq<Outcome>, raws: seq<DayRaw>, rollings: seq<DayRolling>, i: int, median: nat): (r: ResultsDay)
    requires Selectable(outs, raws, rollings, i, median)
    ensures r.timelineIndex == i
    ensures r.estimates.lower.actualDNC <= r.estimates.baseline.actualDNC <= r.estimates.upper.actualDNC
  {
    if i < 0 then RunUpResult(i, Pick(RunUpAt(outs, i), RunUpKey, median))
    else ObservedResult(i, raws[i], rollings[i], Pick(DaysAt(outs, i), DayKey, median))
  }

  /**
    An observed result day holds the day's raw and rolling data; its lower estimate is
    the first scenario-day, in scenario order, with the fewest cases; its baseline the
    one at position `median` of the stable ascending sort; its upper estimate the first
    one, in scenario order, with the most cases. Every field of an estimate comes from
    that one scenario-day.
   */
  lemma ObservedDay(outs: seq<Outcome>, raws: seq<DayRaw>, rollings: seq<DayRolling>, i: int, median: nat)
    requires 0 <= i && Selectable(outs, raws, rollings, i, median)
    ensures var r := ResultDay(outs, raws, rollings, i, median);
      var c := DaysAt(outs, i);
      && r.mortality == raws[i].mortality && r.hospitalizations == raws[i].hospitalizations
      && r.tests == raws[i].tests && r.positivity == raws[i].positivity
      && r.rolling5DayMortality == rollings[i].rolling5DayMortality
      && r.rolling5DayHospitalizations == rollings[i].rolling5DayHospitalizations
      && r.rolling5DayTests == rollings[i].rolling5DayTests
      && r.rolling5DayPositivity == rollings[i].rolling5DayPositivity
      && r.estimates.lower == DayEstimate(c[FirstExtreme(c, DayKey, false)].day)
      && r.estimates.baseline == DayEstimate(SortBy(c, DayKey, false)[median].day)
      && r.estimates.upper == DayEstimate(c[FirstExtreme(c, DayKey, true)].day)
  {
    PickExtremes(DaysAt(outs, i), DayKey, median);
  }

  /**
    A run-up result day holds no observed data; its estimates give the source and
    cases of the first fewest-cases, the median and the first most-cases run-up day.
   */
  lemma RunUpDayResult(outs: seq<Outcome>, raws: seq<DayRaw>, rollings: seq<DayRolling>, i: int, median: nat)
    requires i < 0 && Selectable(outs, raws, rollings, i, median)
    ensures var r := ResultDay(outs, raws, rollings, i, median);
      var c := RunUpAt(outs, i);
      && r.mortality == 0 && r.hospitalizations == 0 && r.tests == 0 && r.positivity == 0.0
      && r.estimates.lower == RunUpEstimate(c[FirstExtreme(c, RunUpKey, false)].day)
      && r.estimates.baseline == RunUpEstimate(SortBy(c, RunUpKey, false)[median].day)
      && r.estimates.upper == RunUpEstimate(c[FirstExtreme(c, RunUpKey, true)].day)
  {
    PickExtremes(RunUpAt(outs, i), RunUpKey, median);
  }

  // ---------------------------------------------------------------------------
  // All result days
  // ---------------------------------------------------------------------------

  /** The first index from which days with aggregates are read. */
  function FirstObserved(lo: int): int
  {
    if lo > 0 then lo else 0
  }

  /**
    The baseline position used at index `i` when the loop starts at `lo`: half the
    number of run-up days at `i` before index 0, and from index 0 on half the number
    of days at the first observed index, counted once and reused.
   */
  function MedianAt(outs: seq<Outcome>, lo: int, i: int): nat
  {
    if i < 0 then |RunUpAt(outs, i)| / 2 else |DaysAt(outs, FirstObserved(lo))| / 2
  }

  function FirstIndex(outs: seq<Outcome>): int
    requires RunUpIndices(outs) != []
  {
    MinOf(RunUpIndices(outs))
  }

  /**
    What the extraction needs: some run-up day (`Min()` of an empty list fails), raw
    days numbered by position with a rolling day each, and every result day computable.
   */
  ghost predicate Extractable(outs: seq<Outcome>, raws: seq<DayRaw>, rollings: seq<DayRolling>)
  {
    && RunUpIndices(outs) != [] && raws != [] && Indexed(raws) && |rollings| == |raws|
    && forall i :: FirstIndex(outs) <= i < |raws| ==>
      Selectable(outs, raws, rollings, i, MedianAt(outs, FirstIndex(outs), i))
  }

  lemma SelectableAt(outs: seq<Outcome>, raws: seq<DayRaw>, rollings: seq<DayRolling>, i: int)
    requires Extractable(outs, raws, rollings) && FirstIndex(outs) <= i < |raws|
    ensures Selectable(outs, raws, rollings, i, MedianAt(outs, FirstIndex(outs), i))
  {
  }

  lemma ResultDaysAt(outs: seq<Outcome>, raws: seq<DayRaw>, rollings: seq<DayRolling>, k: int)
    requires Extractable(outs, raws, rollings) && 0 <= k < |ResultDays(outs, raws, rollings)|
    ensures var i := FirstIndex(outs) + k;
      && Selectable(outs, raws, rollings, i, MedianAt(outs, FirstIndex(outs), i))
      && ResultDays(outs, raws, rollings)[k] == ResultDay(outs, raws, rollings, i, MedianAt(outs, FirstIndex(outs), i))
  {
    LastIndexIsLast(raws);
    SelectableAt(outs, raws, rollings, FirstIndex(outs) + k);
  }

  /** The result days, one per index from the first run-up index to the last raw index. */
  function ResultDays(outs: seq<Outcome>, raws: seq<DayRaw>, rollings: seq<DayRolling>): (r: seq<ResultsDay>)
    requires Extractable(outs, raws, rollings)
    ensures var lo, hi := FirstIndex(outs), LastIndex(raws);
      |r| == (if lo <= hi then hi - lo + 1 else 0)
  {
    LastIndexIsLast(raws);
    var lo, hi := FirstIndex(outs), |raws| - 1;
    var n := if lo <= hi then hi - lo + 1 else 0;
    seq(n, k requires 0 <= k < n =>
      SelectableAt(outs, raws, rollings, lo + k);
      ResultDay(outs, raws, rollings, lo + k, MedianAt(outs, lo, lo + k)))
  }

  /** The result days run over contiguous ascending indices, each with its estimates in order. */
  lemma ResultDaysOrdered(outs: seq<Outcome>, raws: seq<DayRaw>, rollings: seq<DayRolling>)
    requires Extractable(outs, raws, rollings)
    ensures var r := ResultDays(outs, raws, rollings);
      forall k :: 0 <= k < |r| ==>
        && r[k].timelineIndex == FirstIndex(outs) + k
        && r[k].estimates.lower.actualDNC <= r[k].estimates.baseline.actualDNC <= r[k].estimates.upper.actualDNC
  {
    var r := ResultDays(outs, raws, rollings);
    forall k | 0 <= k < |r|
      ensures r[k].timelineIndex == FirstIndex(outs) + k
      ensures r[k].estimates.lower.actualDNC <= r[k].estimates.baseline.actualDNC <= r[k].estimates.upper.actualDNC
    {
      ResultDaysAt(outs, raws, rollings, k);
    }
  }

  /**
    The loop of `ExtractResultDays`: one result day per index. Before index 0 the
    number of run-up days is counted at each index; at the first index from 0 on the
    number of days is counted once, and that baseline position is kept for every
    later index.
   */
  method Extract(outs: seq<Outcome>, raws: seq<DayRaw>, rollings: seq<DayRolling>) returns (res: seq<ResultsDay>)
    requires Extractable(outs, raws, rollings)
    ensures res == ResultDays(outs, raws, rollings)
  {
    var lo := MinOf(RunUpIndices(outs));
    var hi := MaxOf(RawIndices(raws));
    ghost var all := ResultDays(outs, raws, rollings);
    ResultDaysLength(outs, raws, rollings);
    var median := 0;
    var foundMaxElements := false;
    res := [];
    var i := lo;
    while i <= hi
      invariant lo <= i && (i <= hi + 1 || i == lo)
      invariant foundMaxElements == (i > FirstObserved(lo))
      invariant foundMaxElements ==> median == MedianAt(outs, lo, FirstObserved(lo))
      invariant res == all[..i - lo]
    {
      median, foundMaxElements := Baseline(outs, lo, i, median, foundMaxElements);
      ResultDayStep(outs, raws, rollings, i, median, all, res);
      res := res + [ResultDay(outs, raws, rollings, i, median)];
      i := i + 1;
    }
  }

  /**
    The baseline position the loop holds at index `i`: recounted at every index before 0,
    counted once at the first index from 0 on and kept afterwards.
   */
  method Baseline(outs: seq<Outcome>, lo: int, i: int, median: nat, foundMaxElements: bool)
    returns (median': nat, foundMaxElements': bool)
    requires lo <= i && foundMaxElements == (i > FirstObserved(lo))
    requires foundMaxElements ==> median == MedianAt(outs, lo, FirstObserved(lo))
    ensures median' == MedianAt(outs, lo, i)
    ensures foundMaxElements' == (i + 1 > FirstObserved(lo))
  {
    median', foundMaxElements' := median, foundMaxElements;
    if i < 0 {
      var elements := |RunUpAt(outs, i)|;
      median' := elements / 2;
    } else if !foundMaxElements {
      var elements := |DaysAt(outs, i)|;
      median' := elements / 2;
      foundMaxElements' := true;
    }
  }

  lemma ResultDaysLength(outs: seq<Outcome>, raws: seq<DayRaw>, rollings: seq<DayRolling>)
    requires Extractable(outs, raws, rollings)
    ensures MaxOf(RawIndices(raws)) == |raws| - 1
    ensures var lo := MinOf(RunUpIndices(outs));
      |ResultDays(outs, raws, rollings)| == if lo <= |raws| - 1 then |raws| - lo else 0
  {
    LastIndexIsLast(raws);
  }

  /** The result day computed at index `i` with the baseline position the loop holds extends the days before `i`. */
  lemma ResultDayStep(outs: seq<Outcome>, raws: seq<DayRaw>, rollings: seq<DayRolling>, i: int, median: nat,
                      all: seq<ResultsDay>, res: seq<ResultsDay>)
    requires Extractable(outs, raws, rollings) && all == ResultDays(outs, raws, rollings)
    requires FirstIndex(outs) <= i < |raws| && median == MedianAt(outs, FirstIndex(outs), i)
    requires res == all[..i - FirstIndex(outs)]
    ensures Selectable(outs, raws, rollings, i, median)
    ensures res + [ResultDay(outs, raws, rollings, i, median)] == all[..(i + 1) - FirstIndex(outs)]
  {
    var k := i - FirstIndex(outs);
    LastIndexIsLast(raws);
    ResultDaysAt(outs, raws, rollings, k);
    Extended(all, res, k, all[k]);
  }

  lemma Extended<T>(all: seq<T>, prefix: seq<T>, k: nat, x: T)
    requires k < |all| && prefix == all[..k] && all[k] == x
    ensures prefix + [x] == all[..k + 1]
  {
    assert all[..k + 1] == all[..k] + [all[k]];
  }

  // ---------------------------------------------------------------------------
  // When the reused count is the true count
  // ---------------------------------------------------------------------------

  /** Every scenario has exactly `n` days, each carrying its position as its index. */
  ghost predicate EveryDayPresent(outs: seq<Outcome>, n: nat)
  {
    forall s :: 0 <= s < |outs| ==>
      |outs[s].days| == n && forall k :: 0 <= k < n ==> outs[s].days[k].rolling.raw.timelineIndex == k
  }

  /** A list whose days carry consecutive indices from `base` holds one day at each such index. */
  lemma {:induction false} MatchingOne<T>(xs: seq<T>, s: nat, i: int, index: T -> int, base: int)
    requires forall k :: 0 <= k < |xs| ==> index(xs[k]) == base + k
    requires base <= i < base + |xs|
    ensures Matching(xs, s, i, index) == [Candidate(s, xs[i - base])]
  {
    if index(xs[0]) == i {
      MatchingNone(xs[1..], s, i, index);
    } else {
      MatchingOne(xs[1..], s, i, index, base + 1);
    }
  }

  lemma {:induction false} MatchingNone<T>(xs: seq<T>, s: nat, i: int, index: T -> int)
    requires forall k :: 0 <= k < |xs| ==> index(xs[k]) != i
    ensures Matching(xs, s, i, index) == []
  {
    if xs != [] {
      MatchingNone(xs[1..], s, i, index);
    }
  }

  /** With every day present everywhere, the days at `i` are the `i`-th day of each scenario. */
  lemma {:induction false} GatheredAll<T>(groups: seq<seq<T>>, i: int, index: T -> int, n: nat)
    requires 0 <= i < n
    requires forall s :: 0 <= s < |groups| ==>
      |groups[s]| == n && forall k :: 0 <= k < n ==> index(groups[s][k]) == k
    ensures var c := Gathered(groups, i, index);
      |c| == |groups| && forall s :: 0 <= s < |groups| ==> c[s] == Candidate(s, groups[s][i])
  {
    if groups != [] {
      var last := |groups| - 1;
      GatheredAll(groups[..last], i, index, n);
      MatchingOne(groups[last], last, i, index, 0);
    }
  }

  /**
    When every scenario holds every observed day, the days at each observed index are
    one per scenario, in scenario order, and the count made once at the first observed
    index is the count at every observed index: the baseline is the true median.
   */
  lemma MedianIsTrue(outs: seq<Outcome>, n: nat, lo: int)
    requires EveryDayPresent(outs, n)
    ensures forall i :: 0 <= i < n ==>
      |DaysAt(outs, i)| == |outs| && forall s :: 0 <= s < |outs| ==> DaysAt(outs, i)[s] == Candidate(s, outs[s].days[i])
    ensures forall i :: FirstObserved(lo) <= i < n ==> MedianAt(outs, lo, i) == |DaysAt(outs, i)| / 2
  {
    forall i | 0 <= i < n
      ensures |DaysAt(outs, i)| == |outs|
      ensures forall s :: 0 <= s < |outs| ==> DaysAt(outs, i)[s] == Candidate(s, outs[s].days[i])
    {
      GatheredAll(DayLists(outs), i, DayIndex, n);
    }
  }

  /**
    Scenarios run over the same rolling days hold every observed day, so the reused
    count is right for them.
   */
  lemma RunScenariosHaveEveryDay(outs: seq<Outcome>, rs: seq<DayRolling>, ps: seq<ScenarioParameters>,
                                 log: real -> real, exp: real -> real)
    requires |ps| == |outs|
    requires forall s :: 0 <= s < |outs| ==>
      Runnable(rs, ps[s], log) && outs[s].days == ScenarioDays(rs, ps[s], log, exp)
    ensures EveryDayPresent(outs, |rs|)
  {
    forall s, k | 0 <= s < |outs| && 0 <= k < |rs|
      ensures outs[s].days[k].rolling.raw.timelineIndex == k
    {
      ScenarioDay(rs, ps[s], log, exp, k);
    }
  }

  // ---------------------------------------------------------------------------
  // Global aggregates
  // ---------------------------------------------------------------------------

  /** The ranged global aggregates of the ensemble. */
  datatype Aggregates = Aggregates(
    currentREff: Band<real>,
    currentDoublingTime: Band<int>,
    currentDoublingTimeUnstable: bool,
    projectedTotalSeroprev: Band<real>,
    projectedTotalMortality: Band<int>)

  const NoAggregates: Aggregates :=
    Aggregates(Band(0.0, 0.0, 0.0), Band(0, 0, 0), false, Band(0.0, 0.0, 0.0), Band(0, 0, 0))

  /**
    `(int)Math.Round(Math.Log(2) / Math.Log(1 + g))` where the growth rate is in
    [-0.9, -0.02] or above 0.02, and 0 elsewhere.
   */
  function DoublingBound(g: real, log: real -> real): (d: int)
    requires LogSound(log)
    ensures !Doubling(g) ==> d == 0
    ensures Doubling(g) ==> -0.5 <= d as real - DoublingTimeOf(g, log) <= 0.5
  {
    if !Doubling(g) then 0 else Round(DoublingTimeOf(g, log))
  }

  /** The doubling time is unstable unless R-eff is clearly above or below 1 and no bound is 0. */
  predicate Unstable(rEff: Band<real>, dt: Band<int>)
  {
    !(rEff.lower >= 1.1 || rEff.upper <= 0.9)
    || dt.lower == 0 || dt.baseline == 0 || dt.upper == 0
  }

  /** What the aggregates need: days at the last raw index (`First()` fails on none). */
  predicate Aggregable(outs: seq<Outcome>, raws: seq<DayRaw>)
  {
    raws != [] && DaysAt(outs, LastIndex(raws)) != []
  }

  /**
    The scenarios of the lower, baseline and upper days at the last raw index: the
    days there are sorted by cases and position floor(n / 2) is the baseline.
   */
  function Parents(outs: seq<Outcome>, raws: seq<DayRaw>): (p: Band<nat>)
    requires Aggregable(outs, raws)
    ensures p.lower < |outs| && p.baseline < |outs| && p.upper < |outs|
  {
    var candidates := DaysAt(outs, LastIndex(raws));
    GatheredExact(DayLists(outs), LastIndex(raws), DayIndex);
    assert candidates == Gathered(DayLists(outs), LastIndex(raws), DayIndex);
    assert |DayLists(outs)| == |outs|;
    assert forall k :: 0 <= k < |candidates| ==> candidates[k].scenario < |outs|;
    var elements := |candidates|;
    var median := elements / 2;
    var picks := Pick(candidates, DayKey, median);
    BelowEvery(candidates, |outs|, picks);
    Band(picks.lower.scenario, picks.baseline.scenario, picks.upper.scenario)
  }

  lemma BelowEvery(c: seq<Candidate<Day>>, n: nat, p: Band<Candidate<Day>>)
    requires forall k :: 0 <= k < |c| ==> c[k].scenario < n
    requires p.lower in c && p.baseline in c && p.upper in c
    ensures p.lower.scenario < n && p.baseline.scenario < n && p.upper.scenario < n
  {
  }

  /**
    The parents are the scenarios of three days at the last raw index. Lower is the
    first such day, in scenario order, with the fewest cases. Baseline is the day at
    position floor(n / 2) of the stable ascending sort by cases. Upper is the first day
    with the most cases.
   */
  lemma ParentsPicked(outs: seq<Outcome>, raws: seq<DayRaw>)
    requires Aggregable(outs, raws)
    ensures var c := DaysAt(outs, LastIndex(raws));
      var p := Parents(outs, raws);
      && p.lower == c[FirstExtreme(c, DayKey, false)].scenario
      && p.baseline == SortBy(c, DayKey, false)[|c| / 2].scenario
      && p.upper == c[FirstExtreme(c, DayKey, true)].scenario
  {
    var c := DaysAt(outs, LastIndex(raws));
    PickExtremes(c, DayKey, |c| / 2);
  }

  /** The aggregates after `ExtractAggregates`, from those before. */
  function Aggregated(outs: seq<Outcome>, raws: seq<DayRaw>, log: real -> real, before: Aggregates): Aggregates
    requires Aggregable(outs, raws) && LogSound(log)
  {
    var p := Parents(outs, raws);
    var lower, baseline, upper := outs[p.lower], outs[p.baseline], outs[p.upper];
    var mortality := Ranged(Band(lower.projectedTotalMortality, baseline.projectedTotalMortality,
                                 upper.projectedTotalMortality), IntKey);
    var seroprev := Ranged(Band(lower.projectedTotalSeroprev, baseline.projectedTotalSeroprev,
                                upper.projectedTotalSeroprev), RealKey);
    var growth := Ranged(Band(lower.currentGrowthRate, baseline.currentGrowthRate,
                              upper.currentGrowthRate), RealKey);
    var ranged := Ranged(Band(lower.currentREff, baseline.currentREff, upper.currentREff), RealKey);
    var rEff := Band(RoundTo(ranged.lower, 2), RoundTo(ranged.baseline, 2), RoundTo(ranged.upper, 2));
    var dt := Band(DoublingBound(growth.lower, log), DoublingBound(growth.baseline, log),
                   DoublingBound(growth.upper, log));
    Aggregates(rEff, dt, before.currentDoublingTimeUnstable || Unstable(rEff, dt), seroprev, mortality)
  }

  /** The growth-rate bounds: the parents' current growth rates, sorted. */
  function GrowthBounds(outs: seq<Outcome>, raws: seq<DayRaw>): Band<real>
    requires Aggregable(outs, raws)
  {
    var p := Parents(outs, raws);
    Ranged(Band(outs[p.lower].currentGrowthRate, outs[p.baseline].currentGrowthRate,
                outs[p.upper].currentGrowthRate), RealKey)
  }

  /**
    Each of the four triples read from the three parent scenarios is sorted on its
    own: mortality, seroprevalence and growth rate become a permutation of the
    parents' values in order; R-eff is sorted and then rounded to two places, so it
    stays in order; each doubling-time bound is 0 where the guard on its growth-rate
    bound fails. The flag is set when the doubling time is unstable, and is never
    cleared.
   */
  lemma AggregatesRanged(outs: seq<Outcome>, raws: seq<DayRaw>, log: real -> real, before: Aggregates)
    requires Aggregable(outs, raws) && LogSound(log)
    ensures var a := Aggregated(outs, raws, log, before);
      var p := Parents(outs, raws);
      var lower, baseline, upper := outs[p.lower], outs[p.baseline], outs[p.upper];
      var m, sp := a.projectedTotalMortality, a.projectedTotalSeroprev;
      && multiset{m.lower, m.baseline, m.upper}
         == multiset{lower.projectedTotalMortality, baseline.projectedTotalMortality, upper.projectedTotalMortality}
      && m.lower <= m.baseline <= m.upper
      && multiset{sp.lower, sp.baseline, sp.upper}
         == multiset{lower.projectedTotalSeroprev, baseline.projectedTotalSeroprev, upper.projectedTotalSeroprev}
      && sp.lower <= sp.baseline <= sp.upper
    ensures var p := Parents(outs, raws);
      var g := GrowthBounds(outs, raws);
      && multiset{g.lower, g.baseline, g.upper}
         == multiset{outs[p.lower].currentGrowthRate, outs[p.baseline].currentGrowthRate, outs[p.upper].currentGrowthRate}
      && g.lower <= g.baseline <= g.upper
    ensures var a := Aggregated(outs, raws, log, before);
      a.currentREff.lower <= a.currentREff.baseline <= a.currentREff.upper
    ensures var a, g := Aggregated(outs, raws, log, before), GrowthBounds(outs, raws);
      && (!Doubling(g.lower) ==> a.currentDoublingTime.lower == 0)
      && (!Doubling(g.baseline) ==> a.currentDoublingTime.baseline == 0)
      && (!Doubling(g.upper) ==> a.currentDoublingTime.upper == 0)
    ensures var a := Aggregated(outs, raws, log, before);
      a.currentDoublingTimeUnstable <==> before.currentDoublingTimeUnstable || Unstable(a.currentREff, a.currentDoublingTime)
  {
    var p := Parents(outs, raws);
    var lower, baseline, upper := outs[p.lower], outs[p.baseline], outs[p.upper];
    var ranged := Ranged(Band(lower.currentREff, baseline.currentREff, upper.currentREff), RealKey);
    RoundToMonotone(ranged.lower, ranged.baseline, 2);
    RoundToMonotone(ranged.baseline, ranged.upper, 2);
  }

  /**
    Each scenario's current R-eff is already rounded to two places, so rounding the
    sorted triple again changes nothing: the R-eff bounds are the parents' values.
   */
  lemma REffBoundsUnchanged(outs: seq<Outcome>, raws: seq<DayRaw>, log: real -> real, before: Aggregates)
    requires Aggregable(outs, raws) && LogSound(log)
    requires forall s :: 0 <= s < |outs| ==> exists x :: outs[s].currentREff == RoundTo(x, 2)
    ensures var p := Parents(outs, raws);
      var r := Aggregated(outs, raws, log, before).currentREff;
      multiset{r.lower, r.baseline, r.upper}
        == multiset{outs[p.lower].currentREff, outs[p.baseline].currentREff, outs[p.upper].currentREff}
  {
    var p := Parents(outs, raws);
    RoundedREff(outs, p.lower);
    RoundedREff(outs, p.baseline);
    RoundedREff(outs, p.upper);
    RoundedRanged(Band(outs[p.lower].currentREff, outs[p.baseline].currentREff, outs[p.upper].currentREff));
  }

  lemma RoundedREff(outs: seq<Outcome>, s: nat)
    requires s < |outs| && exists x :: outs[s].currentREff == RoundTo(x, 2)
    ensures RoundTo(outs[s].currentREff, 2) == outs[s].currentREff
  {
    var x :| outs[s].currentREff == RoundTo(x, 2);
    RoundToIdempotent(x, 2);
  }

  /** Ranging values that are already rounded to two places and rounding again leaves them as they are. */
  lemma RoundedRanged(b: Band<real>)
    requires RoundTo(b.lower, 2) == b.lower && RoundTo(b.baseline, 2) == b.baseline && RoundTo(b.upper, 2) == b.upper
    ensures var r := Ranged(b, RealKey);
      && RoundTo(r.lower, 2) == r.lower && RoundTo(r.baseline, 2) == r.baseline && RoundTo(r.upper, 2) == r.upper
  {
    var r := Ranged(b, RealKey);
    assert r.lower in multiset{b.lower, b.baseline, b.upper};
    assert r.baseline in multiset{b.lower, b.baseline, b.upper};
    assert r.upper in multiset{b.lower, b.baseline, b.upper};
  }

  /** The body of `ExtractAggregates`, on the scenarios' state. */
  method Aggregate(outs: seq<Outcome>, raws: seq<DayRaw>, log: real -> real, before: Aggregates) returns (a: Aggregates)
    requires Aggregable(outs, raws) && LogSound(log)
    ensures a == Aggregated(outs, raws, log, before)
  {
    var parents := Parents(outs, raws);
    var lower, baseline, upper := outs[parents.lower], outs[parents.baseline], outs[parents.upper];

    var rangedMortality := Ranged(Band(lower.projectedTotalMortality, baseline.projectedTotalMortality,
                                       upper.projectedTotalMortality), IntKey);
    var rangedSeroprev := Ranged(Band(lower.projectedTotalSeroprev, baseline.projectedTotalSeroprev,
                                      upper.projectedTotalSeroprev), RealKey);
    var rangedGrowth := Ranged(Band(lower.currentGrowthRate, baseline.currentGrowthRate,
                                    upper.currentGrowthRate), RealKey);
    var rangedREff := Ranged(Band(lower.currentREff, baseline.currentREff, upper.currentREff), RealKey);

    var rEff := Band(RoundTo(rangedREff.lower, 2), RoundTo(rangedREff.baseline, 2), RoundTo(rangedREff.upper, 2));
    var dt := Band(DoublingBound(rangedGrowth.lower, log), DoublingBound(rangedGrowth.baseline, log),
                   DoublingBound(rangedGrowth.upper, log));
    var unstable := before.currentDoublingTimeUnstable;
    if Unstable(rEff, dt) {
      unstable := true;
    }
    a := Aggregates(rEff, dt, unstable, rangedSeroprev, rangedMortality);
  }

  // ---------------------------------------------------------------------------
  // The builder
  // ---------------------------------------------------------------------------

  class Builder {
    const baseDays: BaseDays
    const scenarios: seq<Scenario>
    var resultsDays: seq<ResultsDay>
    var aggregates: Aggregates

    constructor (baseDays: BaseDays, scenarios: seq<Scenario>)
      ensures this.baseDays == baseDays && this.scenarios == scenarios
      ensures resultsDays == [] && aggregates == NoAggregates
    {
      this.baseDays := baseDays;
      this.scenarios := scenarios;
      resultsDays := [];
      aggregates := NoAggregates;
    }

    /** Appends one result day per timeline index, from the first run-up index to the last raw index. */
    method ExtractResultDays()
      requires Extractable(Snapshots(scenarios), baseDays.daysRaw, baseDays.daysRolling)
      modifies this`resultsDays
      ensures resultsDays
        == old(resultsDays + ResultDays(Snapshots(scenarios), baseDays.daysRaw, baseDays.daysRolling))
    {
      var outs := Snapshots(scenarios);
      var extracted := Extract(outs, baseDays.daysRaw, baseDays.daysRolling);
      resultsDays := resultsDays + extracted;
    }

    /** Ranges the global aggregates of the parent scenarios of the most recent day. */
    method ExtractAggregates(log: real -> real)
      requires Aggregable(Snapshots(scenarios), baseDays.daysRaw) && LogSound(log)
      modifies this`aggregates
      ensures aggregates == old(Aggregated(Snapshots(scenarios), baseDays.daysRaw, log, aggregates))
    {
      var outs := Snapshots(scenarios);
      aggregates := Aggregate(outs, baseDays.daysRaw, log, aggregates);
    }
  }
}
