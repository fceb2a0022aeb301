/**
  One scenario of the reconstruction: for one parameter set, the list of per-day
  records is filled in eight phases, each a pass over the days that writes some of
  their fields in place, followed by the scenario-wide aggregates.

  Each phase is a method of `Scenario` proved against a function on the day list
  (`WithAdmissions`, `RunUp`, `Classified`, `Calibrated`, `Reconstructed`,
  `WithDeltas`, `Projected`, and the linear aggregates); the properties of the
  reconstruction are stated about those functions.

  Days are addressed by position, which is their timeline index. The `Where`
  filters on the timeline index are taken as slices of the day list.
  `Math.Log` and `Math.Exp` are parameters `log` and `exp`.
 */
module Scenarios {
  import opened Numerics
  import opened Base
  import opened Parameters

  /** Which source a day's reconstructed cases come from. */
  datatype SourcedOn =
    | Unknown
    | MortalityOnly
    | MortalityAndAdmissions
    | AdmissionsOnly
    | TestResults
    | ProjectedCases

  /**
    A day with its aggregates. The back-reference to the owning scenario is left
    out; the raw day is `rolling.raw`.
   */
  datatype Day = Day(
    rolling: DayRolling,
    sourcedOn: SourcedOn,
    admissionsWithChurn: int,
    admissionsWithChurnSmooth: int,
    actualDNC: int,
    casesPerAdmission: int,
    rolling9DayDeltaCDeltaT: real,
    growthRate: real,
    doublingTime: real,
    rEff: real)

  /** A run-up day before the first observed day; its calendar date is left out. */
  datatype RunUpDay = RunUpDay(timelineIndex: int, sourcedOn: SourcedOn, actualDNC: int)

  /** A new day: every aggregate at its default, source unknown. */
  function Fresh(r: DayRolling): (d: Day)
    ensures d.rolling == r && d.sourcedOn == Unknown
  {
    Day(r, Unknown, 0, 0, 0, 0, 0.0, 0.0, 0.0, 0.0)
  }

  /** Rolling days carry their position as their timeline index. */
  ghost predicate RollingIndexed(rs: seq<DayRolling>)
  {
    forall k :: 0 <= k < |rs| ==> rs[k].raw.timelineIndex == k
  }

  /** The days wrap the rolling days one to one, in order. */
  ghost predicate Aligned(days: seq<Day>, rs: seq<DayRolling>)
  {
    |days| == |rs| && forall k :: 0 <= k < |days| ==> days[k].rolling == rs[k]
  }

  // ---------------------------------------------------------------------------
  // Phase 1: admissions with churn
  // ---------------------------------------------------------------------------

  /** Bed occupancy on the 5-day channel, or on the "101-day" channel when `smooth`. */
  function Occupancy(r: DayRolling, smooth: bool): real
  {
    if smooth then r.rolling101DayHospitalizations else r.rolling5DayHospitalizations
  }

  function OccupancySum(rs: seq<DayRolling>, smooth: bool): real
  {
    if rs == [] then 0.0 else Occupancy(rs[0], smooth) + OccupancySum(rs[1..], smooth)
  }

  /**
    Discharges on day `k` for a median stay of `duration` days: a flat share of the
    occupancy while fewer than `duration` days precede, otherwise the occupancy summed
    over days k - duration .. k divided by duration squared.
   */
  function Churn(rs: seq<DayRolling>, k: int, duration: int, smooth: bool): int
    requires 0 <= k < |rs| && duration > 0
  {
    if k < duration then Round(Occupancy(rs[k], smooth) / duration as real)
    else Round(OccupancySum(rs[k - duration..k + 1], smooth) / (duration * duration) as real)
  }

  /** The change in occupancy since the day before plus the churn. */
  function NetAdmissions(rs: seq<DayRolling>, k: int, duration: int, smooth: bool): int
    requires 1 <= k < |rs| && duration > 0
  {
    Round(Occupancy(rs[k], smooth) - Occupancy(rs[k - 1], smooth)) + Churn(rs, k, duration, smooth)
  }

  /** `Math.Max(net, 0)`. */
  function Admissions(rs: seq<DayRolling>, k: int, duration: int, smooth: bool): (a: int)
    requires 1 <= k < |rs| && duration > 0
    ensures a >= 0 && a >= NetAdmissions(rs, k, duration, smooth)
    ensures a == 0 || a == NetAdmissions(rs, k, duration, smooth)
  {
    var net := NetAdmissions(rs, k, duration, smooth);
    if net > 0 then net else 0
  }

  /** Day `k` as the first loop of phase 1 leaves it; day 0 has no delta yet. */
  function Admitted(rs: seq<DayRolling>, k: int, duration: int): (d: Day)
    requires 0 <= k < |rs| && duration > 0
    ensures d.rolling == rs[k] && d.sourcedOn == Unknown
    ensures d.admissionsWithChurn >= 0 && d.admissionsWithChurnSmooth >= 0
  {
    if k == 0 then Fresh(rs[0])
    else
      Fresh(rs[k]).(
        admissionsWithChurn := Admissions(rs, k, duration, false),
        admissionsWithChurnSmooth := Admissions(rs, k, duration, true))
  }

  /**
    Phase 1: one day per rolling day, admissions clamped at zero, and day 0
    back-filled from day 1 on both channels.
   */
  function WithAdmissions(rs: seq<DayRolling>, duration: int): (days: seq<Day>)
    requires 2 <= |rs| && duration > 0
    ensures Aligned(days, rs)
    ensures forall k :: 0 <= k < |days| ==> days[k].sourcedOn == Unknown
    ensures forall k :: 0 <= k < |days| ==>
      days[k].admissionsWithChurn >= 0 && days[k].admissionsWithChurnSmooth >= 0
    ensures days[0].admissionsWithChurn == days[1].admissionsWithChurn
    ensures days[0].admissionsWithChurnSmooth == days[1].admissionsWithChurnSmooth
  {
    var all := seq(|rs|, k requires 0 <= k < |rs| => Admitted(rs, k, duration));
    all[0 := all[0].(
      admissionsWithChurn := all[1].admissionsWithChurn,
      admissionsWithChurnSmooth := all[1].admissionsWithChurnSmooth)]
  }

  /** The body of phase 1's first loop for rolling day `k`. */
  method AdmitDay(rs: seq<DayRolling>, k: int, duration: int) returns (day: Day)
    requires RollingIndexed(rs) && 0 <= k < |rs| && duration > 0
    ensures day == Admitted(rs, k, duration)
  {
    var rolling := rs[k];
    day := Fresh(rolling);
    var index := rolling.raw.timelineIndex;
    if index != 0 {
      var deltaH := Round(rolling.rolling5DayHospitalizations - rs[index - 1].rolling5DayHospitalizations);
      var deltaHSmooth := Round(rolling.rolling101DayHospitalizations - rs[index - 1].rolling101DayHospitalizations);
      var churn, churnSmooth;
      if index < duration {
        churn := Round(rolling.rolling5DayHospitalizations / duration as real);
        churnSmooth := Round(rolling.rolling101DayHospitalizations / duration as real);
      } else {
        var recent := rs[index - duration..index + 1];
        churn := Round(OccupancySum(recent, false) / (duration * duration) as real);
        churnSmooth := Round(OccupancySum(recent, true) / (duration * duration) as real);
      }
      assert churn == Churn(rs, k, duration, false) && churnSmooth == Churn(rs, k, duration, true);
      var net := deltaH + churn;
      var netSmooth := deltaHSmooth + churnSmooth;
      day := day.(
        admissionsWithChurn := if net > 0 then net else 0,
        admissionsWithChurnSmooth := if netSmooth > 0 then netSmooth else 0);
    }
  }

  /** Phase 1: one day per rolling day, then day 0 back-filled from day 1. */
  method Admit(rs: seq<DayRolling>, duration: int) returns (days: seq<Day>)
    requires 2 <= |rs| && RollingIndexed(rs) && duration > 0
    ensures days == WithAdmissions(rs, duration)
  {
    var all: seq<Day> := [];
    var k := 0;
    while k < |rs|
      invariant 0 <= k <= |rs| && |all| == k
      invariant forall j {:trigger all[j]} :: 0 <= j < k ==> all[j] == Admitted(rs, j, duration)
    {
      var day := AdmitDay(rs, k, duration);
      all := all + [day];
      k := k + 1;
    }
    all := all[0 := all[0].(admissionsWithChurn := all[1].admissionsWithChurn)];
    all := all[0 := all[0].(admissionsWithChurnSmooth := all[1].admissionsWithChurnSmooth)];
    days := all;
  }

  // ---------------------------------------------------------------------------
  // Phase 2: run-up days
  // ---------------------------------------------------------------------------

  /** How many run-up days the loop creates: it stops at `mortality` or at the last day. */
  function RunUpCount(count: int, mortality: int): (n: int)
    ensures 0 <= n
    ensures n <= count || n == 0
    ensures n <= mortality || n == 0
  {
    if mortality <= 0 || count <= 0 then 0
    else if count < mortality then count
    else mortality
  }

  /** Cases implied by a day's 5-day mortality through the IFR. */
  function CasesFromMortality(r: DayRolling, ifr: real): int
    requires ifr != 0.0
  {
    Round(r.rolling5DayMortality / ifr)
  }

  /** The run-up day created while visiting observed day `k`. */
  function RunUpEntry(days: seq<Day>, k: int, p: ScenarioParameters): RunUpDay
    requires 0 <= k < |days| && p.ifr != 0.0
  {
    RunUpDay(k - p.medianTimeToMortality, MortalityOnly, CasesFromMortality(days[k].rolling, p.ifr))
  }

  /**
    Phase 2: the run-up days. They have negative, ascending, consecutive timeline
    indices ending at -1, are all sourced on mortality only, and the run-up day with
    index j takes its cases from observed day j + mortality delay, via the IFR.
   */
  function RunUp(days: seq<Day>, p: ScenarioParameters): (r: seq<RunUpDay>)
    requires p.ifr != 0.0
    ensures |r| == RunUpCount(|days|, p.medianTimeToMortality)
    ensures |days| >= p.medianTimeToMortality > 0 ==>
      |r| == p.medianTimeToMortality && r[0].timelineIndex == -p.medianTimeToMortality
      && r[|r| - 1].timelineIndex == -1
    ensures forall k :: 0 <= k < |r| ==>
      r[k].sourcedOn == MortalityOnly && -p.medianTimeToMortality <= r[k].timelineIndex < 0
    ensures forall k :: 0 < k < |r| ==> r[k].timelineIndex == r[k - 1].timelineIndex + 1
    ensures forall k :: 0 <= k < |r| ==>
      0 <= r[k].timelineIndex + p.medianTimeToMortality < |days| &&
      r[k].actualDNC == CasesFromMortality(days[r[k].timelineIndex + p.medianTimeToMortality].rolling, p.ifr)
  {
    var n := RunUpCount(|days|, p.medianTimeToMortality);
    seq(n, k requires 0 <= k < n => RunUpEntry(days, k, p))
  }

  // ---------------------------------------------------------------------------
  // Phase 3: source regions
  // ---------------------------------------------------------------------------

  /** The region of day `k` among `count` days, counted back from the last day. */
  function Region(k: int, count: int, p: ScenarioParameters): SourcedOn
  {
    if k < count - p.medianTimeToMortality then MortalityAndAdmissions
    else if k < count - p.medianTimeToAdmission then AdmissionsOnly
    else if k < count - p.medianTimeFromExposureToTest then TestResults
    else ProjectedCases
  }

  /**
    The delays the pipeline needs: non-negative, strictly ordered as the grid filter
    keeps them, and shorter than the observed timeline.
   */
  predicate DelaysFit(p: ScenarioParameters, count: int)
  {
    0 <= p.medianTimeFromExposureToTest && Admissible(p) && p.medianTimeToMortality < count
  }

  /** Every day is tagged with its region. */
  ghost predicate Tagged(days: seq<Day>, p: ScenarioParameters)
  {
    forall k :: 0 <= k < |days| ==> days[k].sourcedOn == Region(k, |days|, p)
  }

  /** Phase 3: tag each day with its region; nothing else changes. */
  function Classified(days: seq<Day>, p: ScenarioParameters): (r: seq<Day>)
    ensures |r| == |days| && Tagged(r, p)
    ensures forall k :: 0 <= k < |r| ==> r[k] == days[k].(sourcedOn := r[k].sourcedOn)
  {
    seq(|days|, k requires 0 <= k < |days| => days[k].(sourcedOn := Region(k, |days|, p)))
  }

  /**
    The four regions are contiguous and in this order: mortality and admissions on
    [0, count - mortality), admissions only on [count - mortality, count - admission),
    test results on [count - admission, count - test), projected on [count - test, count).
   */
  lemma RegionPartition(k: int, count: int, p: ScenarioParameters)
    requires DelaysFit(p, count) && 0 <= k < count
    ensures Region(k, count, p) == MortalityAndAdmissions <==> k < count - p.medianTimeToMortality
    ensures Region(k, count, p) == AdmissionsOnly <==>
      count - p.medianTimeToMortality <= k < count - p.medianTimeToAdmission
    ensures Region(k, count, p) == TestResults <==>
      count - p.medianTimeToAdmission <= k < count - p.medianTimeFromExposureToTest
    ensures Region(k, count, p) == ProjectedCases <==> count - p.medianTimeFromExposureToTest <= k
  {
  }

  /** None of the four regions is empty. */
  lemma RegionsPresent(count: int, p: ScenarioParameters)
    requires DelaysFit(p, count)
    ensures Region(0, count, p) == MortalityAndAdmissions
    ensures Region(count - p.medianTimeToMortality, count, p) == AdmissionsOnly
    ensures Region(count - p.medianTimeToAdmission, count, p) == TestResults
    ensures p.medianTimeFromExposureToTest > 0 ==>
      Region(count - p.medianTimeFromExposureToTest, count, p) == ProjectedCases
  {
  }

  /**
    The look-ahead days of a mortality-and-admissions day (k + mortality delay,
    k + admission delay) and of an admissions-only day (k + admission delay) exist.
   */
  lemma LookAheadInRange(k: int, count: int, p: ScenarioParameters)
    requires DelaysFit(p, count) && 0 <= k < count
    ensures Region(k, count, p) == MortalityAndAdmissions ==>
      k + p.medianTimeToAdmission < k + p.medianTimeToMortality < count
    ensures Region(k, count, p) == AdmissionsOnly ==> k + p.medianTimeToAdmission < count
  {
  }

  /** `Where(d => d.SourcedOn == tag).First()`: the first day with the tag. */
  function FirstTagged(days: seq<Day>, tag: SourcedOn): (i: nat)
    requires exists k :: 0 <= k < |days| && days[k].sourcedOn == tag
    ensures i < |days| && days[i].sourcedOn == tag
    ensures forall k :: 0 <= k < i ==> days[k].sourcedOn != tag
  {
    if days[0].sourcedOn == tag then 0
    else
      assert forall k :: 1 <= k < |days| ==> days[k] == days[1..][k - 1];
      1 + FirstTagged(days[1..], tag)
  }

  /** `Where(d => d.SourcedOn == tag).Last()`: the last day with the tag. */
  function LastTagged(days: seq<Day>, tag: SourcedOn): (i: nat)
    requires exists k :: 0 <= k < |days| && days[k].sourcedOn == tag
    ensures i < |days| && days[i].sourcedOn == tag
    ensures forall k :: i < k < |days| ==> days[k].sourcedOn != tag
  {
    if days[|days| - 1].sourcedOn == tag then |days| - 1
    else
      assert forall k :: 0 <= k < |days| - 1 ==> days[k] == days[..|days| - 1][k];
      LastTagged(days[..|days| - 1], tag)
  }

  /** On tagged days the last mortality-and-admissions day is count - mortality - 1. */
  lemma LastMortalityAndAdmissionsDay(days: seq<Day>, p: ScenarioParameters)
    requires Tagged(days, p) && DelaysFit(p, |days|)
    ensures days[|days| - p.medianTimeToMortality - 1].sourcedOn == MortalityAndAdmissions
    ensures LastTagged(days, MortalityAndAdmissions) == |days| - p.medianTimeToMortality - 1
  {
    RegionPartition(|days| - p.medianTimeToMortality - 1, |days|, p);
    var last := LastTagged(days, MortalityAndAdmissions);
    RegionPartition(last, |days|, p);
  }

  /** On tagged days the first test-results day is count - admission. */
  lemma FirstTestResultsDay(days: seq<Day>, p: ScenarioParameters)
    requires Tagged(days, p) && DelaysFit(p, |days|)
    ensures days[|days| - p.medianTimeToAdmission].sourcedOn == TestResults
    ensures FirstTagged(days, TestResults) == |days| - p.medianTimeToAdmission
  {
    RegionPartition(|days| - p.medianTimeToAdmission, |days|, p);
    var first := FirstTagged(days, TestResults);
    RegionPartition(first, |days|, p);
  }

  /** On tagged days the last test-results day is count - test - 1. */
  lemma LastTestResultsDay(days: seq<Day>, p: ScenarioParameters)
    requires Tagged(days, p) && DelaysFit(p, |days|)
    ensures days[|days| - p.medianTimeFromExposureToTest - 1].sourcedOn == TestResults
    ensures LastTagged(days, TestResults) == |days| - p.medianTimeFromExposureToTest - 1
  {
    RegionPartition(|days| - p.medianTimeFromExposureToTest - 1, |days|, p);
    var last := LastTagged(days, TestResults);
    RegionPartition(last, |days|, p);
  }

  // ---------------------------------------------------------------------------
  // Phase 4: cases per admission
  // ---------------------------------------------------------------------------

  /**
    Day `k`'s cases per admission before the floor: on a mortality-and-admissions day
    whose admission look-ahead has smoothed admissions, the long-window mortality at the
    mortality look-ahead over IFR times those admissions; otherwise the value it holds.
   */
  function CasesPerAdmissionEstimate(days: seq<Day>, k: int, p: ScenarioParameters): int
    requires Tagged(days, p) && DelaysFit(p, |days|) && p.ifr != 0.0 && 0 <= k < |days|
  {
    var admissionsWhen := k + p.medianTimeToAdmission;
    var mortalityWhen := k + p.medianTimeToMortality;
    if days[k].sourcedOn == MortalityAndAdmissions && days[admissionsWhen].admissionsWithChurnSmooth > 0 then
      CasesPerAdmissionFrom(days[mortalityWhen].rolling, p.ifr, days[admissionsWhen].admissionsWithChurnSmooth)
    else days[k].casesPerAdmission
  }

  /** Long-window mortality through the IFR, per smoothed admission. */
  function CasesPerAdmissionFrom(r: DayRolling, ifr: real, admissionsSmooth: int): int
    requires ifr != 0.0 && admissionsSmooth > 0
  {
    Round(r.rolling101DayMortality / (ifr * admissionsSmooth as real))
  }

  /** The estimate with the floor of 5 applied. */
  function FlooredCasesPerAdmission(days: seq<Day>, k: int, p: ScenarioParameters): (c: int)
    requires Tagged(days, p) && DelaysFit(p, |days|) && p.ifr != 0.0 && 0 <= k < |days|
    ensures c >= 5 && c >= CasesPerAdmissionEstimate(days, k, p)
    ensures c == 5 || c == CasesPerAdmissionEstimate(days, k, p)
  {
    var estimate := CasesPerAdmissionEstimate(days, k, p);
    if estimate < 5 then 5 else estimate
  }

  /** The first loop of phase 4: every day gets its floored estimate. */
  function Floored(days: seq<Day>, p: ScenarioParameters): (r: seq<Day>)
    requires Tagged(days, p) && DelaysFit(p, |days|) && p.ifr != 0.0
    ensures |r| == |days| && Tagged(r, p)
    ensures forall k :: 0 <= k < |r| ==>
      r[k] == days[k].(casesPerAdmission := FlooredCasesPerAdmission(days, k, p))
  {
    seq(|days|, k requires 0 <= k < |days| =>
      days[k].(casesPerAdmission := FlooredCasesPerAdmission(days, k, p)))
  }

  /** The second loop of phase 4: admissions-only days take `final`. */
  function CarriedForward(days: seq<Day>, final: int): (r: seq<Day>)
    ensures |r| == |days|
    ensures forall k :: 0 <= k < |r| ==>
      r[k] == if days[k].sourcedOn == AdmissionsOnly then days[k].(casesPerAdmission := final) else days[k]
  {
    seq(|days|, k requires 0 <= k < |days| =>
      if days[k].sourcedOn == AdmissionsOnly then days[k].(casesPerAdmission := final) else days[k])
  }

  /**
    Phase 4: every day gets its floored estimate, then every admissions-only day
    takes the value of the last mortality-and-admissions day. Only the cases per
    admission change.
   */
  function Calibrated(days: seq<Day>, p: ScenarioParameters): (r: seq<Day>)
    requires Tagged(days, p) && DelaysFit(p, |days|) && p.ifr != 0.0
    ensures |r| == |days|
    ensures forall k :: 0 <= k < |r| ==> r[k] == days[k].(casesPerAdmission := r[k].casesPerAdmission)
    ensures forall k :: 0 <= k < |r| ==> r[k].casesPerAdmission >= 5
    ensures forall k :: 0 <= k < |r| && days[k].sourcedOn != AdmissionsOnly ==>
      r[k].casesPerAdmission == FlooredCasesPerAdmission(days, k, p)
    ensures forall k :: 0 <= k < |r| && days[k].sourcedOn == AdmissionsOnly ==>
      r[k].casesPerAdmission == r[|days| - p.medianTimeToMortality - 1].casesPerAdmission
  {
    var floored := Floored(days, p);
    LastMortalityAndAdmissionsDay(floored, p);
    var last := |days| - p.medianTimeToMortality - 1;
    var r := CarriedForward(floored, floored[LastTagged(floored, MortalityAndAdmissions)].casesPerAdmission);
    assert r[last] == floored[last];
    forall k | 0 <= k < |r|
      ensures r[k] == days[k].(casesPerAdmission := r[k].casesPerAdmission)
      ensures r[k].casesPerAdmission >= 5
      ensures days[k].sourcedOn != AdmissionsOnly ==> r[k].casesPerAdmission == FlooredCasesPerAdmission(days, k, p)
      ensures days[k].sourcedOn == AdmissionsOnly ==> r[k].casesPerAdmission == r[last].casesPerAdmission
    {
      var c := FlooredCasesPerAdmission(days, k, p);
      assert floored[k] == days[k].(casesPerAdmission := c);
    }
    r
  }

  // ---------------------------------------------------------------------------
  // Phase 5: cases before projection
  // ---------------------------------------------------------------------------

  /** Sum of reconstructed cases over a list of days. */
  function CasesSum(days: seq<Day>): int
  {
    if days == [] then 0 else days[0].actualDNC + CasesSum(days[1..])
  }

  /** Sum of the 5-day reported cases over a list of rolling days. */
  function ReportedSum(rs: seq<DayRolling>): real
  {
    if rs == [] then 0.0 else rs[0].rolling5DayDNC + ReportedSum(rs[1..])
  }

  /** The last day of the reported-cases window at the handover day: two days on, clamped. */
  function HandoverEnd(t0: int, count: int): int
  {
    if t0 + 2 < count - 1 then t0 + 2 else count - 1
  }

  /** The first day of the reconstructed-cases window before the handover day: three days back, clamped. */
  function HandoverStart(t0: int): int
  {
    if t0 - 3 > 0 then t0 - 3 else 0
  }

  /**
    What the test-results region needs of the data: at its first day
    (count - admission) non-zero positivity and a non-zero reported-cases sum over the
    handover window, and non-zero test volumes on all its days.
   */
  predicate TestDataUsable(rs: seq<DayRolling>, p: ScenarioParameters)
    requires DelaysFit(p, |rs|)
  {
    var t0 := |rs| - p.medianTimeToAdmission;
    rs[t0].rolling5DayPositivity != 0.0
    && ReportedSum(rs[t0..HandoverEnd(t0, |rs|) + 1]) != 0.0
    && forall k :: t0 <= k < |rs| - p.medianTimeFromExposureToTest ==> rs[k].rolling5DayTests != 0.0
  }

  /**
    `scale` maps the mean reported 5-day cases of `after` onto the mean reconstructed
    cases of `before`.
   */
  predicate ScalesMeans(scale: real, before: seq<Day>, after: seq<DayRolling>)
    requires before != [] && after != []
  {
    scale * (ReportedSum(after) / |after| as real) == CasesSum(before) as real / |before| as real
  }

  /** The calibration fixed at the first test-results day. */
  datatype Handover = Handover(scale: real, positivity: real, tests: real)

  /**
    The handover from the reconstructed days before the first test-results day
    (`before`), the rolling days from it on (`after`) and the rolling day itself
    (`r0`): the scale is the mean reconstructed cases of `before` divided by the mean
    reported cases of `after`; positivity and tests are those of `r0`.
   */
  function HandoverAt(before: seq<Day>, after: seq<DayRolling>, r0: DayRolling): (h: Handover)
    requires before != [] && after != [] && ReportedSum(after) != 0.0
    ensures h.positivity == r0.rolling5DayPositivity && h.tests == r0.rolling5DayTests
    ensures ScalesMeans(h.scale, before, after)
    ensures h.scale == 0.0 <==> CasesSum(before) == 0
  {
    var n := |before| as real;
    var m := |after| as real;
    var reported := ReportedSum(after);
    assert reported / m != 0.0 by {
      assert (reported / m) * m == reported;
    }
    var mean := CasesSum(before) as real / n;
    assert mean == 0.0 <==> CasesSum(before) == 0 by {
      assert mean * n == CasesSum(before) as real;
    }
    Handover(mean / (reported / m), r0.rolling5DayPositivity, r0.rolling5DayTests)
  }

  /**
    A test-results day's cases: the reported cases scaled by the handover scale, by the
    positivity relative to the handover day and by the handover day's tests relative to
    the day's own.
   */
  function TestResultCases(r: DayRolling, h: Handover): int
    requires h.positivity != 0.0 && r.rolling5DayTests != 0.0
  {
    Round(TestResultEstimate(r, h))
  }

  /** The unrounded test-results estimate. */
  function TestResultEstimate(r: DayRolling, h: Handover): real
    requires h.positivity != 0.0 && r.rolling5DayTests != 0.0
  {
    (r.rolling5DayPositivity / h.positivity) * (h.tests / r.rolling5DayTests) * h.scale * r.rolling5DayDNC
  }

  /** The cases implied by a day's 5-day mortality under the infection fatality rate. */
  function ImpliedCases(r: DayRolling, ifr: real): real
    requires ifr != 0.0
  {
    r.rolling5DayMortality / ifr
  }

  /** The mean of two estimates of a day's cases, rounded to the nearest integer. */
  function MeanCases(byMortality: real, byAdmissions: real): (c: int)
    ensures byMortality <= byAdmissions ==> byMortality - 1.0 / 2.0 <= c as real <= byAdmissions + 1.0 / 2.0
    ensures byAdmissions <= byMortality ==> byAdmissions - 1.0 / 2.0 <= c as real <= byMortality + 1.0 / 2.0
  {
    Round((byMortality + byAdmissions) / 2.0)
  }

  /** The cases by admissions: the admissions of the look-ahead day times cases per admission. */
  function AdmissionCases(admissionsAhead: Day, casesPerAdmission: int): int
  {
    admissionsAhead.admissionsWithChurn * casesPerAdmission
  }

  /**
    A mortality-and-admissions day: the mean of the cases implied by mortality at the
    mortality look-ahead and of the cases by admissions at the admission look-ahead.
   */
  function ByMortalityAndAdmissions(day: Day, admissionsAhead: Day, mortalityAhead: DayRolling, ifr: real): (d: Day)
    requires ifr != 0.0
    ensures d == day.(actualDNC := d.actualDNC)
  {
    var byMortality := ImpliedCases(mortalityAhead, ifr);
    var byAdmissions := AdmissionCases(admissionsAhead, day.casesPerAdmission) as real;
    day.(actualDNC := MeanCases(byMortality, byAdmissions))
  }

  /** An admissions-only day: the cases by admissions at the admission look-ahead. */
  function ByAdmissions(day: Day, admissionsAhead: Day): (d: Day)
    ensures d == day.(actualDNC := d.actualDNC)
  {
    day.(actualDNC := AdmissionCases(admissionsAhead, day.casesPerAdmission))
  }

  /** A test-results day: its cases scaled from the handover `h`. */
  function ByTestResults(day: Day, h: Handover): (d: Day)
    requires h.positivity != 0.0 && day.rolling.rolling5DayTests != 0.0
    ensures d == day.(actualDNC := d.actualDNC)
  {
    day.(actualDNC := TestResultCases(day.rolling, h))
  }

  /**
    A day of a lagged region, from the look-ahead days (k + mortality delay,
    k + admission delay); other days are unchanged.
   */
  function Lagged(days: seq<Day>, rs: seq<DayRolling>, k: int, p: ScenarioParameters): (d: Day)
    requires Tagged(days, p) && DelaysFit(p, |days|) && p.ifr != 0.0
    requires |rs| == |days| && 0 <= k < |days|
    ensures d == days[k].(actualDNC := d.actualDNC)
  {
    if days[k].sourcedOn == MortalityAndAdmissions then
      ByMortalityAndAdmissions(days[k], days[k + p.medianTimeToAdmission], rs[k + p.medianTimeToMortality], p.ifr)
    else if days[k].sourcedOn == AdmissionsOnly then
      ByAdmissions(days[k], days[k + p.medianTimeToAdmission])
    else days[k]
  }

  /** The lagged regions of phase 5, every other day unchanged. */
  function LaggedDays(days: seq<Day>, rs: seq<DayRolling>, p: ScenarioParameters): (r: seq<Day>)
    requires Tagged(days, p) && DelaysFit(p, |days|) && p.ifr != 0.0 && |rs| == |days|
    ensures |r| == |days|
  {
    seq(|days|, k requires 0 <= k < |days| => Lagged(days, rs, k, p))
  }

  /**
    The handover of phase 5, taken at the first test-results day (count - admission,
    as `FirstTestResultsDay` shows) from the lagged days before it.
   */
  function HandoverOf(days: seq<Day>, rs: seq<DayRolling>, p: ScenarioParameters): (h: Handover)
    requires Tagged(days, p) && DelaysFit(p, |days|) && p.ifr != 0.0
    requires Aligned(days, rs) && TestDataUsable(rs, p)
    ensures h.positivity != 0.0
    ensures h.positivity == rs[|days| - p.medianTimeToAdmission].rolling5DayPositivity
    ensures h.tests == rs[|days| - p.medianTimeToAdmission].rolling5DayTests
  {
    var lagged := LaggedDays(days, rs, p);
    var t0 := |days| - p.medianTimeToAdmission;
    HandoverAt(lagged[HandoverStart(t0)..t0], rs[t0..HandoverEnd(t0, |rs|) + 1], rs[t0])
  }

  /**
    The scale of the handover at t0 = count - admission: times the mean reported cases
    over [t0, min(t0 + 2, count - 1)] it gives the mean reconstructed cases over
    [max(t0 - 3, 0), t0); each window holds one to three days.
   */
  lemma HandoverScale(days: seq<Day>, rs: seq<DayRolling>, p: ScenarioParameters)
    requires Tagged(days, p) && DelaysFit(p, |days|) && p.ifr != 0.0
    requires Aligned(days, rs) && TestDataUsable(rs, p)
    ensures var t0 := |days| - p.medianTimeToAdmission;
            var before := LaggedDays(days, rs, p)[HandoverStart(t0)..t0];
            var after := rs[t0..HandoverEnd(t0, |rs|) + 1];
            && 1 <= |before| <= 3 && 1 <= |after| <= 3
            && ScalesMeans(HandoverOf(days, rs, p).scale, before, after)
  {
    var t0 := |days| - p.medianTimeToAdmission;
    HandoverWindows(t0, |rs|);
    var before := LaggedDays(days, rs, p)[HandoverStart(t0)..t0];
    var after := rs[t0..HandoverEnd(t0, |rs|) + 1];
    assert HandoverOf(days, rs, p) == HandoverAt(before, after, rs[t0]);
  }

  /** Both handover windows around a day t0 in [1, count) hold one to three days. */
  lemma HandoverWindows(t0: int, count: int)
    requires 1 <= t0 < count
    ensures 1 <= t0 - HandoverStart(t0) <= 3 && 1 <= HandoverEnd(t0, count) + 1 - t0 <= 3
  {
  }

  /** A day of phase 5 under the handover `h`. */
  function ReconstructedDay(days: seq<Day>, rs: seq<DayRolling>, p: ScenarioParameters, h: Handover, k: int): Day
    requires Tagged(days, p) && DelaysFit(p, |days|) && p.ifr != 0.0
    requires Aligned(days, rs) && TestDataUsable(rs, p) && h.positivity != 0.0
    requires 0 <= k < |days|
  {
    if days[k].sourcedOn == TestResults then
      RegionPartition(k, |days|, p);
      ByTestResults(days[k], h)
    else Lagged(days, rs, k, p)
  }

  /**
    Phase 5: the lagged regions, and every test-results day scaled from the handover
    taken at the first test-results day.
   */
  function Reconstructed(days: seq<Day>, rs: seq<DayRolling>, p: ScenarioParameters): (r: seq<Day>)
    requires Tagged(days, p) && DelaysFit(p, |days|) && p.ifr != 0.0
    requires Aligned(days, rs) && TestDataUsable(rs, p)
    ensures |r| == |days|
  {
    var h := HandoverOf(days, rs, p);
    seq(|days|, k requires 0 <= k < |days| => ReconstructedDay(days, rs, p, h, k))
  }

  /**
    Phase 5 changes only the cases of a day: a mortality-and-admissions day gets the
    mean of the cases implied by mortality at the mortality look-ahead and of the
    admissions at the admission look-ahead times cases per admission, an
    admissions-only day the latter, a test-results day its scaled reported cases,
    and a projected day is unchanged.
   */
  lemma ReconstructedCases(days: seq<Day>, rs: seq<DayRolling>, p: ScenarioParameters, k: int)
    requires Tagged(days, p) && DelaysFit(p, |days|) && p.ifr != 0.0
    requires Aligned(days, rs) && TestDataUsable(rs, p)
    requires 0 <= k < |days|
    ensures var r := Reconstructed(days, rs, p)[k];
      var d := days[k];
      && r == d.(actualDNC := r.actualDNC)
      && (d.sourcedOn == MortalityAndAdmissions ==>
            r.actualDNC == MeanCases(rs[k + p.medianTimeToMortality].rolling5DayMortality / p.ifr,
                                     (days[k + p.medianTimeToAdmission].admissionsWithChurn * d.casesPerAdmission) as real))
      && (d.sourcedOn == AdmissionsOnly ==>
            r.actualDNC == days[k + p.medianTimeToAdmission].admissionsWithChurn * d.casesPerAdmission)
      && (d.sourcedOn == TestResults ==> r.actualDNC == TestResultCases(rs[k], HandoverOf(days, rs, p)))
      && (d.sourcedOn == ProjectedCases ==> r == d)
  {
    RegionPartition(k, |days|, p);
  }

  /** Phase 5 keeps the sources and the rolling data of every day. */
  lemma ReconstructedKeeps(days: seq<Day>, rs: seq<DayRolling>, p: ScenarioParameters)
    requires Tagged(days, p) && DelaysFit(p, |days|) && p.ifr != 0.0
    requires Aligned(days, rs) && TestDataUsable(rs, p)
    ensures var r := Reconstructed(days, rs, p);
      && Tagged(r, p) && Aligned(r, rs)
      && forall k :: 0 <= k < |r| ==> r[k].casesPerAdmission == days[k].casesPerAdmission
  {
    var r := Reconstructed(days, rs, p);
    forall k | 0 <= k < |days|
      ensures r[k] == days[k].(actualDNC := r[k].actualDNC)
    {
      ReconstructedCases(days, rs, p, k);
    }
  }

  /**
    On the handover day itself the positivity and test ratios are one, so a day whose
    positivity and tests are the handover's gets the handover scale times its reported cases.
   */
  lemma TestResultCasesAtHandover(r: DayRolling, h: Handover)
    requires h.positivity == r.rolling5DayPositivity && h.positivity != 0.0
    requires h.tests == r.rolling5DayTests && h.tests != 0.0
    ensures TestResultCases(r, h) == Round(h.scale * r.rolling5DayDNC)
  {
    EstimateAtHandover(r, h);
    RoundOfEqual(TestResultEstimate(r, h), h.scale * r.rolling5DayDNC);
  }

  lemma EstimateAtHandover(r: DayRolling, h: Handover)
    requires h.positivity == r.rolling5DayPositivity && h.positivity != 0.0
    requires h.tests == r.rolling5DayTests && h.tests != 0.0
    ensures TestResultEstimate(r, h) == h.scale * r.rolling5DayDNC
  {
    UnitRatios(r.rolling5DayPositivity / h.positivity, h.tests / r.rolling5DayTests, h.scale, r.rolling5DayDNC);
  }

  lemma UnitRatios(a: real, b: real, scale: real, reported: real)
    requires a == 1.0 && b == 1.0
    ensures a * b * scale * reported == scale * reported
  {
  }

  /** The first loop of phase 4, over the days in order. */
  method FloorCasesPerAdmission(days: seq<Day>, rs: seq<DayRolling>, p: ScenarioParameters) returns (ds: seq<Day>)
    requires Tagged(days, p) && DelaysFit(p, |days|) && p.ifr != 0.0
    requires Aligned(days, rs) && RollingIndexed(rs)
    ensures ds == Floored(days, p)
  {
    ds := days;
    var i := 0;
    while i < |ds|
      invariant 0 <= i <= |ds| && |ds| == |days|
      invariant forall k {:trigger ds[k]} :: 0 <= k < i ==>
        ds[k] == days[k].(casesPerAdmission := FlooredCasesPerAdmission(days, k, p))
      invariant forall k {:trigger ds[k]} :: i <= k < |ds| ==> ds[k] == days[k]
    {
      var day := FloorDay(days, ds, rs, p, i);
      ds := ds[i := day];
      i := i + 1;
    }
  }

  /** One day of the first loop of phase 4: day `i` of the days `ds` floored so far. */
  method FloorDay(ghost days: seq<Day>, ds: seq<Day>, rs: seq<DayRolling>, p: ScenarioParameters, i: int)
    returns (day: Day)
    requires Tagged(days, p) && DelaysFit(p, |days|) && p.ifr != 0.0
    requires Aligned(days, rs) && RollingIndexed(rs)
    requires |ds| == |days| && 0 <= i < |ds| && ds[i] == days[i]
    requires i + p.medianTimeToAdmission < |ds| ==>
      ds[i + p.medianTimeToAdmission] == days[i + p.medianTimeToAdmission]
    requires i + p.medianTimeToMortality < |ds| ==>
      ds[i + p.medianTimeToMortality] == days[i + p.medianTimeToMortality]
    ensures day == days[i].(casesPerAdmission := FlooredCasesPerAdmission(days, i, p))
  {
    var mortality := p.medianTimeToMortality;
    var admission := p.medianTimeToAdmission;
    RegionPartition(i, |days|, p);
    day := ds[i];
    var index := day.rolling.raw.timelineIndex;
    if day.sourcedOn == MortalityAndAdmissions && ds[index + admission].admissionsWithChurnSmooth > 0 {
      day := day.(casesPerAdmission := CasesPerAdmissionFrom(
        ds[index + mortality].rolling, p.ifr, ds[index + admission].admissionsWithChurnSmooth));
    }
    if day.casesPerAdmission < 5 {
      day := day.(casesPerAdmission := 5);
    }
  }

  /** The second loop of phase 4: admissions-only days take `final`. */
  method CarryForward(days: seq<Day>, final: int) returns (ds: seq<Day>)
    ensures ds == CarriedForward(days, final)
  {
    ds := days;
    var i := 0;
    while i < |ds|
      invariant 0 <= i <= |ds| && |ds| == |days|
      invariant forall k :: 0 <= k < i ==> ds[k] == CarriedForward(days, final)[k]
      invariant forall k :: i <= k < |ds| ==> ds[k] == days[k]
    {
      if ds[i].sourcedOn == AdmissionsOnly {
        ds := ds[i := ds[i].(casesPerAdmission := final)];
      }
      i := i + 1;
    }
  }

  /** Two lists that agree on positions [lo, hi) have equal slices there. */
  lemma SameSlice<T>(a: seq<T>, b: seq<T>, lo: int, hi: int)
    requires 0 <= lo <= hi <= |a| && hi <= |b|
    requires forall k :: lo <= k < hi ==> a[k] == b[k]
    ensures a[lo..hi] == b[lo..hi]
  {
  }

  /**
    One day of the loop of phase 5: day `i` of the days `ds` reconstructed so far,
    taking the handover at the first test-results day.
   */
  method ReconstructDay(ghost days: seq<Day>, ds: seq<Day>, rs: seq<DayRolling>, p: ScenarioParameters, i: int,
                        handedOver: bool, handover: Handover)
    returns (day: Day, handedOver': bool, handover': Handover)
    requires Tagged(days, p) && DelaysFit(p, |days|) && p.ifr != 0.0
    requires Aligned(days, rs) && RollingIndexed(rs) && TestDataUsable(rs, p)
    requires |ds| == |days| && 0 <= i < |ds| && ds[i] == days[i]
    requires i + p.medianTimeToAdmission < |ds| ==> ds[i + p.medianTimeToAdmission] == days[i + p.medianTimeToAdmission]
    requires handedOver <==> i > |days| - p.medianTimeToAdmission
    requires handedOver ==> handover == HandoverOf(days, rs, p)
    requires i == |days| - p.medianTimeToAdmission ==>
      ds[HandoverStart(i)..i] == LaggedDays(days, rs, p)[HandoverStart(i)..i]
    ensures day == ReconstructedDay(days, rs, p, HandoverOf(days, rs, p), i)
    ensures handedOver' <==> i + 1 > |days| - p.medianTimeToAdmission
    ensures handedOver' ==> handover' == HandoverOf(days, rs, p)
  {
    var mortality := p.medianTimeToMortality;
    var admission := p.medianTimeToAdmission;
    RegionPartition(i, |days|, p);
    handedOver', handover' := handedOver, handover;
    day := ds[i];
    var index := day.rolling.raw.timelineIndex;
    if day.sourcedOn == MortalityAndAdmissions {
      day := ByMortalityAndAdmissions(day, ds[index + admission], rs[index + mortality], p.ifr);
    } else if day.sourcedOn == AdmissionsOnly {
      day := ByAdmissions(day, ds[index + admission]);
    } else if day.sourcedOn == TestResults {
      if !handedOver' {
        handover' := TakeHandover(days, ds, rs, p, index);
        handedOver' := true;
      }
      day := ByTestResults(day, handover');
    }
  }

  /**
    The handover at the first test-results day `index`: the reconstructed days from
    three days back and the rolling days up to two days on, both clamped.
   */
  method TakeHandover(ghost days: seq<Day>, ds: seq<Day>, rs: seq<DayRolling>, p: ScenarioParameters, index: int)
    returns (handover: Handover)
    requires Tagged(days, p) && DelaysFit(p, |days|) && p.ifr != 0.0
    requires Aligned(days, rs) && TestDataUsable(rs, p)
    requires |ds| == |days| && index == |days| - p.medianTimeToAdmission
    requires ds[HandoverStart(index)..index] == LaggedDays(days, rs, p)[HandoverStart(index)..index]
    ensures handover == HandoverOf(days, rs, p)
  {
    var minIndex := if index - 3 > 0 then index - 3 else 0;
    var maxIndex := if index + 2 < |ds| - 1 then index + 2 else |ds| - 1;
    handover := HandoverAt(ds[minIndex..index], rs[index..maxIndex + 1], rs[index]);
  }

  /**
    The loop of phase 5, over the days in order. The handover is taken once, at the
    first test-results day met; `rs` are the rolling days the days wrap.
   */
  method Reconstruct(days: seq<Day>, rs: seq<DayRolling>, p: ScenarioParameters) returns (ds: seq<Day>)
    requires Tagged(days, p) && DelaysFit(p, |days|) && p.ifr != 0.0
    requires Aligned(days, rs) && RollingIndexed(rs) && TestDataUsable(rs, p)
    ensures ds == Reconstructed(days, rs, p)
  {
    ghost var lagged := LaggedDays(days, rs, p);
    ghost var h := HandoverOf(days, rs, p);
    ghost var t0 := |days| - p.medianTimeToAdmission;
    forall k | 0 <= k < t0
      ensures ReconstructedDay(days, rs, p, h, k) == lagged[k]
    {
      RegionPartition(k, |days|, p);
    }
    var handedOver := false;
    var handover := Handover(0.0, 0.0, 0.0);
    ds := days;
    var i := 0;
    while i < |ds|
      invariant 0 <= i <= |ds| && |ds| == |days|
      invariant forall k {:trigger ds[k]} :: 0 <= k < i ==> ds[k] == ReconstructedDay(days, rs, p, h, k)
      invariant forall k {:trigger ds[k]} :: i <= k < |ds| ==> ds[k] == days[k]
      invariant handedOver <==> i > t0
      invariant handedOver ==> handover == h
    {
      if i == t0 {
        SameSlice(ds, lagged, HandoverStart(i), i);
      }
      var day;
      day, handedOver, handover := ReconstructDay(days, ds, rs, p, i, handedOver, handover);
      ds := ds[i := day];
      i := i + 1;
    }
  }

  // ---------------------------------------------------------------------------
  // Phase 6: daily change, growth rate, doubling time and effective reproduction
  // ---------------------------------------------------------------------------

  /** `Where(d => d.SourcedOn == tag).Count()`, counted from the back. */
  function CountTagged(days: seq<Day>, tag: SourcedOn): (n: nat)
    ensures n <= |days|
  {
    if days == [] then 0
    else CountTagged(days[..|days| - 1], tag) + (if days[|days| - 1].sourcedOn == tag then 1 else 0)
  }

  /** On tagged days the first `k` days hold max(0, k - (count - test)) projected days. */
  lemma {:induction false} ProjectedPrefixCount(days: seq<Day>, p: ScenarioParameters, k: int)
    requires Tagged(days, p) && DelaysFit(p, |days|) && 0 <= k <= |days|
    ensures CountTagged(days[..k], ProjectedCases) ==
      if k <= |days| - p.medianTimeFromExposureToTest then 0 else k - (|days| - p.medianTimeFromExposureToTest)
  {
    if k > 0 {
      ProjectedPrefixCount(days, p, k - 1);
      assert days[..k][..k - 1] == days[..k - 1];
      RegionPartition(k - 1, |days|, p);
    }
  }

  /** The number of days that are not projected. */
  function NonProjectedCount(days: seq<Day>): (n: int)
    ensures 0 <= n <= |days|
  {
    |days| - CountTagged(days, ProjectedCases)
  }

  /** On tagged days the days that are not projected are the first count - test. */
  lemma NonProjectedIsRegion(days: seq<Day>, p: ScenarioParameters)
    requires Tagged(days, p) && DelaysFit(p, |days|)
    ensures NonProjectedCount(days) == |days| - p.medianTimeFromExposureToTest
    ensures NonProjectedCount(days) >= 3
  {
    ProjectedPrefixCount(days, p, |days|);
    assert days[..|days|] == days;
  }

  /** `Sum()` over a list of integers. */
  function IntSum(xs: seq<int>): int
  {
    if xs == [] then 0 else xs[0] + IntSum(xs[1..])
  }

  /** `days.Zip(days.Skip(1), (current, next) => next.ActualDNC - current.ActualDNC)`. */
  function Differences(days: seq<Day>): (r: seq<int>)
    ensures |r| == if days == [] then 0 else |days| - 1
  {
    if |days| < 2 then [] else [days[1].actualDNC - days[0].actualDNC] + Differences(days[1..])
  }

  /** The day-to-day differences add up to the change from the first day to the last. */
  lemma {:induction false} DifferencesTelescope(days: seq<Day>)
    requires days != []
    ensures IntSum(Differences(days)) == days[|days| - 1].actualDNC - days[0].actualDNC
  {
    if |days| >= 2 {
      DifferencesTelescope(days[1..]);
      assert ([days[1].actualDNC - days[0].actualDNC] + Differences(days[1..]))[1..] == Differences(days[1..]);
    }
  }

  /** The differences depend on the cases of the days only. */
  lemma {:induction false} DifferencesOfCases(a: seq<Day>, b: seq<Day>)
    requires |a| == |b|
    requires forall k :: 0 <= k < |a| ==> a[k].actualDNC == b[k].actualDNC
    ensures Differences(a) == Differences(b)
  {
    if |a| >= 2 {
      assert forall k :: 0 <= k < |a[1..]| ==> a[1..][k] == a[k + 1] && b[1..][k] == b[k + 1];
      DifferencesOfCases(a[1..], b[1..]);
    }
  }

  /** The window of day `i`: four days either side, clamped to the days before projection. */
  function DeltaWindow(i: int, nonProjected: int): (w: Span)
    requires 0 <= i < nonProjected
    ensures 0 <= w.lo <= i <= w.hi < nonProjected
    ensures nonProjected >= 2 ==> w.Size() >= 2
  {
    var w := Centred(i, 4, nonProjected - 1);
    assert i > 0 ==> w.Contains(i - 1);
    assert i + 1 < nonProjected ==> w.Contains(i + 1);
    w
  }

  /**
    `Rolling9DayDeltaCDeltaT` of day `i`: the mean of the day-to-day differences of
    cases over its window.
   */
  function DeltaAt(days: seq<Day>, i: int, nonProjected: int): real
    requires 0 <= i < nonProjected <= |days| && 2 <= nonProjected
  {
    var w := DeltaWindow(i, nonProjected);
    var deltas := Differences(days[w.lo..w.hi + 1]);
    IntSum(deltas) as real / |deltas| as real
  }

  /**
    The mean daily change is the change across the window divided by the number of
    steps in it: the ends of the window are all that matter.
   */
  lemma DeltaTelescopes(days: seq<Day>, i: int, nonProjected: int)
    requires 0 <= i < nonProjected <= |days| && 2 <= nonProjected
    ensures var w := DeltaWindow(i, nonProjected);
      DeltaAt(days, i, nonProjected) ==
        (days[w.hi].actualDNC - days[w.lo].actualDNC) as real / (w.hi - w.lo) as real
  {
    var w := DeltaWindow(i, nonProjected);
    var s := days[w.lo..w.hi + 1];
    DifferencesTelescope(s);
    assert s[0] == days[w.lo] && s[|s| - 1] == days[w.hi];
  }

  /** The growth rate: the daily change relative to the day's cases, zero when there are none. */
  function GrowthOf(delta: real, cases: int): (g: real)
    ensures cases == 0 ==> g == 0.0
    ensures cases != 0 ==> g * cases as real == delta
  {
    if cases == 0 then 0.0 else delta / cases as real
  }

  /** The growth rates for which a doubling (or halving) time is reported. */
  predicate Doubling(g: real)
  {
    (g >= -0.9 && g <= -0.02) || g > 0.02
  }

  /** `log` vanishes only at one among the positive numbers. */
  ghost predicate LogSound(log: real -> real)
  {
    forall x :: 0.0 < x && x != 1.0 ==> log(x) != 0.0
  }

  /**
    The doubling time `log 2 / log (1 + g)`, the time after which growth at rate `g`
    doubles the cases (halves them for a negative rate: the time is negative), and
    zero where the rate is too close to zero or too negative.
   */
  function DoublingTimeOf(g: real, log: real -> real): (t: real)
    requires LogSound(log)
    ensures !Doubling(g) ==> t == 0.0
    ensures Doubling(g) ==> t * log(1.0 + g) == log(2.0)
  {
    if !Doubling(g) then 0.0 else log(2.0) / log(1.0 + g)
  }

  /** The second-order approximation 1 + x + c x^2, for x = g SI and c = w (1 - w). */
  function REffApprox(x: real, c: real): real
  {
    1.0 + x + c * (x * x)
  }

  /**
    The effective reproduction number from the growth rate `g`, the serial interval SI
    and the transmissibility window w: the approximation, set to zero when it is
    negative or when the rate is below -0.35, where it does not hold.
   */
  function REffOf(g: real, si: real, tw: real): (r: real)
    ensures r >= 0.0
    ensures g < -0.35 ==> r == 0.0
    ensures REffApprox(g * si, tw * (1.0 - tw)) < 0.0 ==> r == 0.0
    ensures g >= -0.35 && REffApprox(g * si, tw * (1.0 - tw)) >= 0.0 ==> r == REffApprox(g * si, tw * (1.0 - tw))
  {
    var e := REffApprox(g * si, tw * (1.0 - tw));
    if e < 0.0 || g < -0.35 then 0.0 else e
  }

  /**
    For every serial interval up to 11 days and every window fraction, the effective
    reproduction number exceeds one exactly when the growth rate is positive, and is
    one when there is no growth.
   */
  lemma REffAboveOne(g: real, si: real, tw: real)
    requires 0.0 < si <= 11.0 && 0.0 <= tw <= 1.0
    ensures REffOf(g, si, tw) > 1.0 <==> g > 0.0
    ensures g == 0.0 ==> REffOf(g, si, tw) == 1.0
  {
    var x := g * si;
    var c := tw * (1.0 - tw);
    Spread(tw);
    if g > 0.0 {
      Positive(g, si);
      Growing(x, c);
    } else if -0.35 <= g < 0.0 {
      ScaledRate(g, si);
      Shrinking(x, c);
    } else if g == 0.0 {
      assert x == 0.0;
      assert REffApprox(x, c) == 1.0;
    }
  }

  lemma Spread(tw: real)
    requires 0.0 <= tw <= 1.0
    ensures 0.0 <= tw * (1.0 - tw) <= 0.25
  {
    NonNegative(tw, 1.0 - tw);
    Square(tw - 0.5);
    assert 0.25 - tw * (1.0 - tw) == (tw - 0.5) * (tw - 0.5);
  }

  lemma Square(y: real)
    ensures y * y >= 0.0
  {
    if y < 0.0 {
      Positive(-y, -y);
      assert y * y == (-y) * (-y);
    } else {
      NonNegative(y, y);
    }
  }

  lemma Positive(a: real, b: real)
    requires a > 0.0 && b > 0.0
    ensures a * b > 0.0
  {
  }

  lemma NonNegative(a: real, b: real)
    requires a >= 0.0 && b >= 0.0
    ensures a * b >= 0.0
  {
  }

  /** For -0.35 <= g < 0 and a serial interval up to 11 days, -3.85 <= g SI < 0. */
  lemma ScaledRate(g: real, si: real)
    requires -0.35 <= g < 0.0 && 0.0 < si <= 11.0
    ensures -3.85 <= g * si < 0.0
  {
    NonNegative(g + 0.35, si);
    assert (g + 0.35) * si == g * si + 0.35 * si;
    Positive(-g, si);
    assert (-g) * si == -(g * si);
  }

  /** For -3.85 <= x < 0 the approximation is below one. */
  lemma Shrinking(x: real, c: real)
    requires -3.85 <= x < 0.0 && 0.0 <= c <= 0.25
    ensures REffApprox(x, c) < 1.0
  {
    ShrinkingSteps(x, c);
  }

  /** x + c x^2 = x (1 + c x) with x < 0 and 1 + c x > 0. */
  lemma ShrinkingSteps(x: real, c: real)
    requires -3.85 <= x < 0.0 && 0.0 <= c <= 0.25
    ensures x + c * (x * x) < 0.0
  {
    NonNegative(0.25 - c, -x);
    assert (0.25 - c) * (-x) == c * x - 0.25 * x;
    var y := 1.0 + c * x;
    assert y > 0.0;
    Positive(-x, y);
    assert (-x) * y == -(x + c * (x * x));
  }

  /** For x > 0 the approximation is above one. */
  lemma Growing(x: real, c: real)
    requires x > 0.0 && c >= 0.0
    ensures REffApprox(x, c) > 1.0
  {
    Square(x);
    NonNegative(c, x * x);
  }

  /** Phase 6 on one day that is not projected, from the day's mean daily change. */
  function WithDelta(d: Day, delta: real, p: ScenarioParameters, log: real -> real): (r: Day)
    requires LogSound(log)
    ensures r.rolling == d.rolling && r.sourcedOn == d.sourcedOn && r.actualDNC == d.actualDNC
  {
    var g := GrowthOf(delta, d.actualDNC);
    d.(rolling9DayDeltaCDeltaT := delta,
       growthRate := g,
       doublingTime := DoublingTimeOf(g, log),
       rEff := REffOf(g, p.medianSerialInterval, p.transmissibilityWindowToSI))
  }

  /** Day `k` after phase 6: projected days are skipped. */
  function DeltaDay(days: seq<Day>, p: ScenarioParameters, log: real -> real, nonProjected: int, k: int): (r: Day)
    requires Tagged(days, p) && DelaysFit(p, |days|) && LogSound(log)
    requires nonProjected == |days| - p.medianTimeFromExposureToTest
    requires 0 <= k < |days|
    ensures r.rolling == days[k].rolling && r.sourcedOn == days[k].sourcedOn && r.actualDNC == days[k].actualDNC
  {
    if days[k].sourcedOn == ProjectedCases then days[k]
    else
      RegionPartition(k, |days|, p);
      WithDelta(days[k], DeltaAt(days, k, nonProjected), p, log)
  }

  /**
    Phase 6: every day that is not projected gets its mean daily change, growth rate,
    doubling time and effective reproduction number; the cases, the sources and the
    projected days are unchanged.
   */
  function WithDeltas(days: seq<Day>, p: ScenarioParameters, log: real -> real): (r: seq<Day>)
    requires Tagged(days, p) && DelaysFit(p, |days|) && LogSound(log)
    ensures |r| == |days|
  {
    var nonProjected := NonProjectedCount(days);
    NonProjectedIsRegion(days, p);
    seq(|days|, k requires 0 <= k < |days| => DeltaDay(days, p, log, nonProjected, k))
  }

  /**
    Phase 6 keeps the cases, the sources and the rolling data of every day, leaves the
    projected days as they were, and never gives a negative effective reproduction number.
   */
  lemma DeltasKeep(days: seq<Day>, p: ScenarioParameters, log: real -> real)
    requires Tagged(days, p) && DelaysFit(p, |days|) && LogSound(log)
    ensures var r := WithDeltas(days, p, log);
      && Tagged(r, p)
      && (forall k :: 0 <= k < |r| ==>
            && r[k].rolling == days[k].rolling && r[k].sourcedOn == days[k].sourcedOn
            && r[k].actualDNC == days[k].actualDNC && r[k].casesPerAdmission == days[k].casesPerAdmission)
      && (forall k :: 0 <= k < |r| && days[k].sourcedOn == ProjectedCases ==> r[k] == days[k])
      && (forall k :: 0 <= k < |r| && days[k].sourcedOn != ProjectedCases ==> r[k].rEff >= 0.0)
  {
    NonProjectedIsRegion(days, p);
  }

  /**
    A day that is not projected: its mean daily change is its window's change over the
    window's steps, and its growth rate, doubling time and effective reproduction number
    follow from that change.
   */
  lemma DeltaDayFields(days: seq<Day>, p: ScenarioParameters, log: real -> real, k: int)
    requires Tagged(days, p) && DelaysFit(p, |days|) && LogSound(log)
    requires 0 <= k < |days| && days[k].sourcedOn != ProjectedCases
    ensures var r := WithDeltas(days, p, log)[k];
      var w := DeltaWindow(k, |days| - p.medianTimeFromExposureToTest);
      && r == days[k].(rolling9DayDeltaCDeltaT := r.rolling9DayDeltaCDeltaT, growthRate := r.growthRate,
                       doublingTime := r.doublingTime, rEff := r.rEff)
      && r.rolling9DayDeltaCDeltaT == (days[w.hi].actualDNC - days[w.lo].actualDNC) as real / (w.hi - w.lo) as real
      && r.growthRate == GrowthOf(r.rolling9DayDeltaCDeltaT, days[k].actualDNC)
      && r.doublingTime == DoublingTimeOf(r.growthRate, log)
      && r.rEff == REffOf(r.growthRate, p.medianSerialInterval, p.transmissibilityWindowToSI)
  {
    var nonProjected := |days| - p.medianTimeFromExposureToTest;
    NonProjectedIsRegion(days, p);
    RegionPartition(k, |days|, p);
    var delta := DeltaAt(days, k, nonProjected);
    DeltaTelescopes(days, k, nonProjected);
    assert WithDeltas(days, p, log)[k] == WithDelta(days[k], delta, p, log);
  }

  /** Phase 6 on one day keeps its source and its cases per admission, and gives it a non-negative R-Eff. */
  lemma DeltaDayKeeps(days: seq<Day>, p: ScenarioParameters, log: real -> real, k: int)
    requires Tagged(days, p) && DelaysFit(p, |days|) && LogSound(log) && 0 <= k < |days|
    ensures var r := WithDeltas(days, p, log)[k];
      && r.sourcedOn == days[k].sourcedOn && r.casesPerAdmission == days[k].casesPerAdmission
      && (days[k].sourcedOn != ProjectedCases ==> r.rEff >= 0.0)
  {
    NonProjectedIsRegion(days, p);
    assert WithDeltas(days, p, log)[k] == DeltaDay(days, p, log, |days| - p.medianTimeFromExposureToTest, k);
  }

  /** One day of the phase 6 loop, reading the window from the days as the loop left them. */
  method DeltaStep(ghost days: seq<Day>, ds: seq<Day>, p: ScenarioParameters, log: real -> real,
                   nonProjected: int, i: int) returns (day: Day)
    requires Tagged(days, p) && DelaysFit(p, |days|) && LogSound(log)
    requires nonProjected == |days| - p.medianTimeFromExposureToTest
    requires |ds| == |days| && 0 <= i < |ds| && ds[i] == days[i] && days[i].sourcedOn != ProjectedCases
    requires forall k :: 0 <= k < |ds| ==> ds[k].actualDNC == days[k].actualDNC
    ensures day == DeltaDay(days, p, log, nonProjected, i)
  {
    RegionPartition(i, |days|, p);
    var minIndex := if i - 4 > 0 then i - 4 else 0;
    var maxIndex := if i + 4 < nonProjected - 1 then i + 4 else nonProjected - 1;
    var window := ds[minIndex..maxIndex + 1];
    DifferencesOfCases(window, days[minIndex..maxIndex + 1]);
    var deltas := Differences(window);
    var delta := IntSum(deltas) as real / |deltas| as real;
    assert delta == DeltaAt(days, i, nonProjected);
    day := WithDelta(ds[i], delta, p, log);
  }

  /** The phase 6 loop over the days, skipping projected days. */
  method ComputeDeltas(days: seq<Day>, p: ScenarioParameters, log: real -> real) returns (ds: seq<Day>)
    requires Tagged(days, p) && DelaysFit(p, |days|) && LogSound(log)
    ensures ds == WithDeltas(days, p, log)
  {
    var nonProjected := NonProjectedCount(days);
    NonProjectedIsRegion(days, p);
    ds := days;
    var i := 0;
    while i < |ds|
      invariant 0 <= i <= |ds| && |ds| == |days|
      invariant forall k {:trigger ds[k]} :: 0 <= k < i ==> ds[k] == DeltaDay(days, p, log, nonProjected, k)
      invariant forall k {:trigger ds[k]} :: i <= k < |ds| ==> ds[k] == days[k]
      invariant forall k {:trigger ds[k]} :: 0 <= k < |ds| ==> ds[k].actualDNC == days[k].actualDNC
    {
      if ds[i].sourcedOn != ProjectedCases {
        var day := DeltaStep(days, ds, p, log, nonProjected, i);
        ds := ds[i := day];
      } else {
        assert ds[i] == DeltaDay(days, p, log, nonProjected, i);
      }
      i := i + 1;
    }
  }

  // ---------------------------------------------------------------------------
  // Phase 7: current growth rate and effective reproduction number, projection
  // ---------------------------------------------------------------------------

  /** The most recent days before projection: the last three, or all of them if fewer. */
  function RecentWindow(nonProjected: int): (w: Span)
    requires nonProjected >= 1
    ensures w.hi == nonProjected - 1 && 0 <= w.lo <= w.hi
    ensures w.Size() == if nonProjected >= 3 then 3 else nonProjected
  {
    var maxIndex := nonProjected - 1;
    Span(if maxIndex - 2 > 0 then maxIndex - 2 else 0, maxIndex)
  }

  /** `Select(day => day.GrowthRate)`. */
  function Growths(days: seq<Day>): (r: seq<real>)
    ensures |r| == |days|
  {
    seq(|days|, k requires 0 <= k < |days| => days[k].growthRate)
  }

  /** `Select(day => day.REff)`. */
  function REffs(days: seq<Day>): (r: seq<real>)
    ensures |r| == |days|
  {
    seq(|days|, k requires 0 <= k < |days| => days[k].rEff)
  }

  /** `CurrentGrowthRate`: the mean growth rate of the recent days. */
  function CurrentGrowth(days: seq<Day>): real
    requires NonProjectedCount(days) >= 1
  {
    var w := RecentWindow(NonProjectedCount(days));
    var recent := Growths(days[w.lo..w.hi + 1]);
    RealSum(recent) / |recent| as real
  }

  /** `CurrentREff`: the mean effective reproduction number of the recent days, to two places. */
  function CurrentREff(days: seq<Day>): real
    requires NonProjectedCount(days) >= 1
  {
    var w := RecentWindow(NonProjectedCount(days));
    var recent := REffs(days[w.lo..w.hi + 1]);
    RoundTo(RealSum(recent) / |recent| as real, 2)
  }

  /** The current growth rate lies between any bounds on the growth rates of the recent days. */
  lemma CurrentGrowthBetween(days: seq<Day>, a: real, b: real)
    requires NonProjectedCount(days) >= 1
    requires var w := RecentWindow(NonProjectedCount(days));
      forall k :: w.lo <= k <= w.hi ==> a <= days[k].growthRate <= b
    ensures a <= CurrentGrowth(days) <= b
  {
    var w := RecentWindow(NonProjectedCount(days));
    var recent := Growths(days[w.lo..w.hi + 1]);
    forall k | 0 <= k < |recent|
      ensures a <= recent[k] <= b
    {
      assert recent[k] == days[w.lo + k].growthRate;
    }
    MeanWithin(recent, a, b);
  }

  /**
    The current effective reproduction number is within 0.005 of the mean of the recent
    days, and is not negative when theirs are not.
   */
  lemma CurrentREffNear(days: seq<Day>)
    requires NonProjectedCount(days) >= 1
    ensures var w := RecentWindow(NonProjectedCount(days));
      var mean := RealSum(REffs(days[w.lo..w.hi + 1])) / w.Size() as real;
      -0.005 <= CurrentREff(days) - mean <= 0.005
    ensures (forall k :: 0 <= k < NonProjectedCount(days) ==> days[k].rEff >= 0.0) ==> CurrentREff(days) >= 0.0
  {
    var w := RecentWindow(NonProjectedCount(days));
    var recent := REffs(days[w.lo..w.hi + 1]);
    var mean := RealSum(recent) / |recent| as real;
    if forall k :: 0 <= k < NonProjectedCount(days) ==> days[k].rEff >= 0.0 {
      forall k | 0 <= k < |recent|
        ensures recent[k] >= 0.0
      {
        assert recent[k] == days[w.lo + k].rEff;
      }
      MeanNonNegative(recent);
      RoundToNonNegative(mean, 2);
    }
  }

  /** Phase 7, first pass: the projected days take the current effective reproduction number. */
  function WithProjectedREff(days: seq<Day>, rEff: real): (r: seq<Day>)
    ensures |r| == |days|
  {
    seq(|days|, k requires 0 <= k < |days| =>
      if days[k].sourcedOn == ProjectedCases then days[k].(rEff := rEff) else days[k])
  }

  /** The cases cast for the `j`-th projected day: `zero` cases grown at rate `g` for `j` days. */
  function CastCases(zero: int, g: real, j: int, exp: real -> real): int
  {
    Round(zero as real * exp(g * j as real))
  }

  /**
    Phase 7, second pass: the projected days, in order and counted from one, get the
    cases cast from `zero`.
   */
  function Cast(days: seq<Day>, zero: int, g: real, exp: real -> real): (r: seq<Day>)
    ensures |r| == |days|
  {
    seq(|days|, k requires 0 <= k < |days| =>
      if days[k].sourcedOn == ProjectedCases
      then days[k].(actualDNC := CastCases(zero, g, CountTagged(days[..k], ProjectedCases) + 1, exp))
      else days[k])
  }

  /**
    Phase 7: the projected days take the current effective reproduction number, and
    their cases are cast from the cases of the last test-results day at the current
    growth rate.
   */
  function Projected(days: seq<Day>, p: ScenarioParameters, exp: real -> real): (r: seq<Day>)
    requires Tagged(days, p) && DelaysFit(p, |days|)
    ensures |r| == |days|
  {
    NonProjectedIsRegion(days, p);
    LastTestResultsDay(days, p);
    var zero := days[LastTagged(days, TestResults)].actualDNC;
    Cast(WithProjectedREff(days, CurrentREff(days)), zero, CurrentGrowth(days), exp)
  }

  /** The first pass keeps the sources of the days. */
  lemma ProjectedREffTagged(days: seq<Day>, p: ScenarioParameters, rEff: real)
    requires Tagged(days, p)
    ensures Tagged(WithProjectedREff(days, rEff), p)
  {
  }

  /**
    Phase 7 leaves every day before projection as it was; the `j`-th projected day
    (counting from one at count - test) takes the current effective reproduction number
    and the cases of the last test-results day grown at the current growth rate for
    `j` days.
   */
  lemma ProjectedDay(days: seq<Day>, p: ScenarioParameters, exp: real -> real, k: int)
    requires Tagged(days, p) && DelaysFit(p, |days|) && 0 <= k < |days|
    ensures NonProjectedCount(days) >= 1
    ensures var r := Projected(days, p, exp)[k];
      var start := |days| - p.medianTimeFromExposureToTest;
      && (k < start ==> r == days[k])
      && (k >= start ==>
            r == days[k].(rEff := CurrentREff(days),
                          actualDNC := CastCases(days[start - 1].actualDNC, CurrentGrowth(days), k - start + 1, exp)))
  {
    NonProjectedIsRegion(days, p);
    LastTestResultsDay(days, p);
    RegionPartition(k, |days|, p);
    var start := |days| - p.medianTimeFromExposureToTest;
    var withREff := WithProjectedREff(days, CurrentREff(days));
    assert Projected(days, p, exp) == Cast(withREff, days[start - 1].actualDNC, CurrentGrowth(days), exp);
    if k >= start {
      ProjectedOrdinal(days, p, CurrentREff(days), k);
    }
  }

  /** After the first pass, `k - (count - test)` projected days precede projected day `k`. */
  lemma ProjectedOrdinal(days: seq<Day>, p: ScenarioParameters, rEff: real, k: int)
    requires Tagged(days, p) && DelaysFit(p, |days|)
    requires |days| - p.medianTimeFromExposureToTest <= k < |days|
    ensures CountTagged(WithProjectedREff(days, rEff)[..k], ProjectedCases) == k - (|days| - p.medianTimeFromExposureToTest)
  {
    ProjectedREffTagged(days, p, rEff);
    ProjectedPrefixCount(WithProjectedREff(days, rEff), p, k);
  }

  /** The first pass of phase 7 over the days. */
  method SetProjectedREff(days: seq<Day>, rEff: real) returns (ds: seq<Day>)
    ensures ds == WithProjectedREff(days, rEff)
  {
    ds := days;
    var i := 0;
    while i < |ds|
      invariant 0 <= i <= |ds| && |ds| == |days|
      invariant forall k {:trigger ds[k]} :: 0 <= k < i ==> ds[k] == WithProjectedREff(days, rEff)[k]
      invariant forall k {:trigger ds[k]} :: i <= k < |ds| ==> ds[k] == days[k]
    {
      if ds[i].sourcedOn == ProjectedCases {
        ds := ds[i := ds[i].(rEff := rEff)];
      }
      i := i + 1;
    }
  }

  /** The second pass of phase 7 over the days, counting the projected days from one. */
  method CastProjection(days: seq<Day>, zero: int, g: real, exp: real -> real) returns (ds: seq<Day>)
    ensures ds == Cast(days, zero, g, exp)
  {
    ds := days;
    var j := 1;
    var i := 0;
    while i < |ds|
      invariant 0 <= i <= |ds| && |ds| == |days|
      invariant j == CountTagged(days[..i], ProjectedCases) + 1
      invariant forall k {:trigger ds[k]} :: 0 <= k < i ==> ds[k] == Cast(days, zero, g, exp)[k]
      invariant forall k {:trigger ds[k]} :: i <= k < |ds| ==> ds[k] == days[k]
    {
      assert days[..i + 1][..i] == days[..i];
      if ds[i].sourcedOn == ProjectedCases {
        CastCasesAt(zero, g, j, exp);
        ds := ds[i := ds[i].(actualDNC := Round(zero as real * exp(g * j as real)))];
        j := j + 1;
      }
      i := i + 1;
    }
  }

  lemma CastCasesAt(zero: int, g: real, j: int, exp: real -> real)
    ensures CastCases(zero, g, j, exp) == Round(zero as real * exp(g * j as real))
  {
  }

  /**
    Phase 7 over the days: the current growth rate and effective reproduction number
    from the recent days, then the two passes over the projected days.
   */
  method Project(days: seq<Day>, p: ScenarioParameters, exp: real -> real)
    returns (ds: seq<Day>, growth: real, rEff: real)
    requires Tagged(days, p) && DelaysFit(p, |days|)
    ensures NonProjectedCount(days) >= 1
    ensures growth == CurrentGrowth(days) && rEff == CurrentREff(days)
    ensures ds == Projected(days, p, exp)
  {
    NonProjectedIsRegion(days, p);
    var maxIndex := NonProjectedCount(days) - 1;
    var minIndex := if maxIndex - 2 > 0 then maxIndex - 2 else 0;
    var recentGrowth := Growths(days[minIndex..maxIndex + 1]);
    var recentREff := REffs(days[minIndex..maxIndex + 1]);
    growth := RealSum(recentGrowth) / |recentGrowth| as real;
    rEff := RoundTo(RealSum(recentREff) / |recentREff| as real, 2);
    var withREff := SetProjectedREff(days, rEff);
    ProjectedREffTagged(days, p, rEff);
    LastTestResultsDay(withREff, p);
    LastTestResultsDay(days, p);
    var zero := withREff[LastTagged(withREff, TestResults)].actualDNC;
    ds := CastProjection(withREff, zero, growth, exp);
  }

  // ---------------------------------------------------------------------------
  // Phase 8: seroprevalence and mortality
  // ---------------------------------------------------------------------------

  /** `daysRaw.Sum(raw => raw.Mortality)`. */
  function MortalitySum(raws: seq<DayRaw>): int
  {
    if raws == [] then 0 else raws[0].mortality + MortalitySum(raws[1..])
  }

  /** `RunUpDays.Sum(day => day.ActualDNC)`. */
  function RunUpSum(runUp: seq<RunUpDay>): int
  {
    if runUp == [] then 0 else runUp[0].actualDNC + RunUpSum(runUp[1..])
  }

  /** The days whose cases have not yet shown up as deaths: admissions only, test results, projected. */
  predicate Late(d: Day)
  {
    d.sourcedOn == AdmissionsOnly || d.sourcedOn == TestResults || d.sourcedOn == ProjectedCases
  }

  /** Sum of the cases of the late days. */
  function LateCasesSum(days: seq<Day>): int
  {
    if days == [] then 0 else (if Late(days[0]) then days[0].actualDNC else 0) + LateCasesSum(days[1..])
  }

  /**
    On tagged days the late days are the suffix from count - mortality: their cases are
    the cases of the last mortality-delay days.
   */
  lemma LateCasesAreRecent(days: seq<Day>, p: ScenarioParameters)
    requires Tagged(days, p) && DelaysFit(p, |days|)
    ensures LateCasesSum(days) == CasesSum(days[|days| - p.medianTimeToMortality..])
  {
    LateSuffix(days, p, 0);
  }

  lemma {:induction false} LateSuffix(days: seq<Day>, p: ScenarioParameters, j: int)
    requires Tagged(days, p) && DelaysFit(p, |days|) && 0 <= j <= |days|
    ensures var first := |days| - p.medianTimeToMortality;
      LateCasesSum(days[j..]) == CasesSum(days[if j < first then first else j..])
    decreases |days| - j
  {
    if j < |days| {
      LateSuffix(days, p, j + 1);
      assert days[j..][1..] == days[j + 1..];
      RegionPartition(j, |days|, p);
    }
  }

  /** `ProjectedTotalSeroprev`: the total cases as a percentage of the population, to one place. */
  function Seroprevalence(totalCases: int): (r: real)
    ensures -0.05 <= r - 100.0 * (totalCases as real / Population as real) <= 0.05
  {
    RoundTo(100.0 * (totalCases as real / Population as real), 1)
  }

  /**
    `ProjectedTotalMortality`: the observed deaths plus the deaths still to come from
    the cases of the late days at the infection fatality rate, rounded.
   */
  function ProjectedMortality(raws: seq<DayRaw>, days: seq<Day>, ifr: real): (m: int)
    ensures -0.5 <= (m - MortalitySum(raws)) as real - LateCasesSum(days) as real * ifr <= 0.5
  {
    MortalitySum(raws) + Round(LateCasesSum(days) as real * ifr)
  }

  // ---------------------------------------------------------------------------
  // The phases composed
  // ---------------------------------------------------------------------------

  /**
    What a scenario run needs: at least two rolling days indexed by position, a positive
    hospitalization duration, a non-zero fatality rate, delays that fit the timeline,
    usable test data and a sound logarithm.
   */
  ghost predicate Runnable(rs: seq<DayRolling>, p: ScenarioParameters, log: real -> real)
  {
    2 <= |rs| && RollingIndexed(rs) && p.medianHospitalizationDuration > 0 && p.ifr != 0.0
    && DelaysFit(p, |rs|) && TestDataUsable(rs, p) && LogSound(log)
  }

  /** The days after phases 1 to 6: every day estimated, nothing projected yet. */
  function Estimated(rs: seq<DayRolling>, p: ScenarioParameters, log: real -> real): (r: seq<Day>)
    requires Runnable(rs, p, log)
    ensures Tagged(r, p) && Aligned(r, rs)
  {
    var admitted := WithAdmissions(rs, p.medianHospitalizationDuration);
    var classified := Classified(admitted, p);
    ClassifiedKeeps(admitted, rs, p);
    var calibrated := Calibrated(classified, p);
    CalibratedKeeps(classified, rs, p);
    var reconstructed := Reconstructed(calibrated, rs, p);
    ReconstructedKeeps(calibrated, rs, p);
    DeltasKeep(reconstructed, p, log);
    WithDeltas(reconstructed, p, log)
  }

  /** Phase 3 keeps the rolling data of every day. */
  lemma ClassifiedKeeps(days: seq<Day>, rs: seq<DayRolling>, p: ScenarioParameters)
    requires Aligned(days, rs)
    ensures Aligned(Classified(days, p), rs)
  {
  }

  /** Phase 4 keeps the sources and the rolling data of every day. */
  lemma CalibratedKeeps(days: seq<Day>, rs: seq<DayRolling>, p: ScenarioParameters)
    requires Tagged(days, p) && DelaysFit(p, |days|) && p.ifr != 0.0 && Aligned(days, rs)
    ensures Tagged(Calibrated(days, p), p) && Aligned(Calibrated(days, p), rs)
  {
  }

  /**
    After phases 1 to 6 every day has at least five cases per admission, and every day
    before projection a non-negative effective reproduction number.
   */
  lemma EstimatedDay(rs: seq<DayRolling>, p: ScenarioParameters, log: real -> real, k: int)
    requires Runnable(rs, p, log) && 0 <= k < |rs|
    ensures var r := Estimated(rs, p, log)[k];
      r.casesPerAdmission >= 5 && (r.sourcedOn != ProjectedCases ==> r.rEff >= 0.0)
  {
    var admitted := WithAdmissions(rs, p.medianHospitalizationDuration);
    var classified := Classified(admitted, p);
    ClassifiedKeeps(admitted, rs, p);
    var calibrated := Calibrated(classified, p);
    CalibratedKeeps(classified, rs, p);
    assert calibrated[k].casesPerAdmission >= 5;
    var reconstructed := Reconstructed(calibrated, rs, p);
    ReconstructedCases(calibrated, rs, p, k);
    ReconstructedKeeps(calibrated, rs, p);
    DeltaDayKeeps(reconstructed, p, log, k);
    assert Estimated(rs, p, log) == WithDeltas(reconstructed, p, log);
  }

  /** The days of a scenario after phase 7. */
  function ScenarioDays(rs: seq<DayRolling>, p: ScenarioParameters, log: real -> real, exp: real -> real): (r: seq<Day>)
    requires Runnable(rs, p, log)
    ensures |r| == |rs|
  {
    Projected(Estimated(rs, p, log), p, exp)
  }

  /**
    Every day of a scenario keeps its rolling data, is tagged with its region, and has
    at least five cases per admission and a non-negative effective reproduction number.
   */
  lemma ScenarioDay(rs: seq<DayRolling>, p: ScenarioParameters, log: real -> real, exp: real -> real, k: int)
    requires Runnable(rs, p, log) && 0 <= k < |rs|
    ensures var r := ScenarioDays(rs, p, log, exp)[k];
      && r.rolling == rs[k] && r.sourcedOn == Region(k, |rs|, p)
      && r.casesPerAdmission >= 5 && r.rEff >= 0.0
  {
    var estimated := Estimated(rs, p, log);
    EstimatedDay(rs, p, log, k);
    ProjectedDay(estimated, p, exp, k);
    NonProjectedIsRegion(estimated, p);
    forall j | 0 <= j < NonProjectedCount(estimated)
      ensures estimated[j].rEff >= 0.0
    {
      RegionPartition(j, |rs|, p);
      EstimatedDay(rs, p, log, j);
    }
    CurrentREffNear(estimated);
  }

  // ---------------------------------------------------------------------------
  // The scenario
  // ---------------------------------------------------------------------------

  class Scenario {
    const params: ScenarioParameters
    const daysRaw: seq<DayRaw>
    const daysRolling: seq<DayRolling>

    var days: seq<Day>
    var runUp: seq<RunUpDay>
    var currentGrowthRate: real
    var currentREff: real
    var projectedTotalSeroprev: real
    var projectedTotalMortality: int

    /** A scenario over the base days, with empty day lists. */
    constructor(raws: seq<DayRaw>, rollings: seq<DayRolling>, p: ScenarioParameters)
      ensures params == p && daysRaw == raws && daysRolling == rollings
      ensures days == [] && runUp == []
    {
      params := p;
      daysRaw := raws;
      daysRolling := rollings;
      days := [];
      runUp := [];
      currentGrowthRate := 0.0;
      currentREff := 0.0;
      projectedTotalSeroprev := 0.0;
      projectedTotalMortality := 0;
    }

    /** Phase 1 (`computeAdmissionsWithChurnAndPopulateDaysWithAggregates`). */
    method ComputeAdmissionsWithChurn()
      requires days == [] && 2 <= |daysRolling| && RollingIndexed(daysRolling)
      requires params.medianHospitalizationDuration > 0
      modifies this
      ensures days == WithAdmissions(daysRolling, params.medianHospitalizationDuration)
      ensures runUp == old(runUp) && currentGrowthRate == old(currentGrowthRate)
      ensures currentREff == old(currentREff) && projectedTotalSeroprev == old(projectedTotalSeroprev)
      ensures projectedTotalMortality == old(projectedTotalMortality)
    {
      days := Admit(daysRolling, params.medianHospitalizationDuration);
    }

    /** Phase 2 (`computeAndPopulateRunUpDays`). */
    method ComputeRunUp()
      requires runUp == [] && params.ifr != 0.0
      modifies this
      ensures runUp == RunUp(days, params)
      ensures days == old(days) && currentGrowthRate == old(currentGrowthRate)
      ensures currentREff == old(currentREff) && projectedTotalSeroprev == old(projectedTotalSeroprev)
      ensures projectedTotalMortality == old(projectedTotalMortality)
    {
      var mortality := params.medianTimeToMortality;
      var added: seq<RunUpDay> := [];
      var i := 0;
      while i < |days|
        invariant 0 <= i <= RunUpCount(|days|, mortality) || i == 0
        invariant |added| == i
        invariant forall k :: 0 <= k < i ==> added[k] == RunUpEntry(days, k, params)
      {
        if i >= mortality { break; }
        added := added + [RunUpDay(i - mortality, MortalityOnly, 0)];
        added := added[i := added[i].(actualDNC := Round(days[i].rolling.rolling5DayMortality / params.ifr))];
        i := i + 1;
      }
      runUp := added;
    }

    /** Phase 3 (`computeActualDNCSourcedOn`). */
    method ComputeSourcedOn()
      modifies this
      ensures days == Classified(old(days), params)
      ensures runUp == old(runUp) && currentGrowthRate == old(currentGrowthRate)
      ensures currentREff == old(currentREff) && projectedTotalSeroprev == old(projectedTotalSeroprev)
      ensures projectedTotalMortality == old(projectedTotalMortality)
    {
      var ds := days;
      var i := 0;
      while i < |ds|
        invariant 0 <= i <= |ds| && |ds| == |days|
        invariant forall k :: 0 <= k < i ==> ds[k] == days[k].(sourcedOn := Region(k, |days|, params))
        invariant forall k :: i <= k < |ds| ==> ds[k] == days[k]
      {
        var tag;
        if i < |ds| - params.medianTimeToMortality {
          tag := MortalityAndAdmissions;
        } else if i < |ds| - params.medianTimeToAdmission {
          tag := AdmissionsOnly;
        } else if i < |ds| - params.medianTimeFromExposureToTest {
          tag := TestResults;
        } else {
          tag := ProjectedCases;
        }
        ds := ds[i := ds[i].(sourcedOn := tag)];
        i := i + 1;
      }
      days := ds;
    }

    /** Phase 4 (`autocalibrateCasesPerAdmission`). */
    method AutocalibrateCasesPerAdmission()
      requires Tagged(days, params) && DelaysFit(params, |days|) && params.ifr != 0.0
      requires Aligned(days, daysRolling) && RollingIndexed(daysRolling)
      modifies this
      ensures days == Calibrated(old(days), params)
      ensures runUp == old(runUp) && currentGrowthRate == old(currentGrowthRate)
      ensures currentREff == old(currentREff) && projectedTotalSeroprev == old(projectedTotalSeroprev)
      ensures projectedTotalMortality == old(projectedTotalMortality)
    {
      var floored := FloorCasesPerAdmission(days, daysRolling, params);
      LastMortalityAndAdmissionsDay(floored, params);
      var final := floored[LastTagged(floored, MortalityAndAdmissions)].casesPerAdmission;
      days := CarryForward(floored, final);
    }

    /** Phase 5 (`computeActualDNCWithoutProjection`). */
    method ComputeActualDNCWithoutProjection()
      requires Tagged(days, params) && DelaysFit(params, |days|) && params.ifr != 0.0
      requires Aligned(days, daysRolling) && RollingIndexed(daysRolling)
      requires TestDataUsable(daysRolling, params)
      modifies this
      ensures days == Reconstructed(old(days), daysRolling, params)
      ensures runUp == old(runUp) && currentGrowthRate == old(currentGrowthRate)
      ensures currentREff == old(currentREff) && projectedTotalSeroprev == old(projectedTotalSeroprev)
      ensures projectedTotalMortality == old(projectedTotalMortality)
    {
      days := Reconstruct(days, daysRolling, params);
    }

    /** Phase 6 (`computeDeltasWithoutProjection`). */
    method ComputeDeltasWithoutProjection(log: real -> real)
      requires Tagged(days, params) && DelaysFit(params, |days|) && LogSound(log)
      modifies this
      ensures days == WithDeltas(old(days), params, log)
      ensures runUp == old(runUp) && currentGrowthRate == old(currentGrowthRate)
      ensures currentREff == old(currentREff) && projectedTotalSeroprev == old(projectedTotalSeroprev)
      ensures projectedTotalMortality == old(projectedTotalMortality)
    {
      days := ComputeDeltas(days, params, log);
    }

    /** Phase 7 (`extractGlobalGrowthAggregatesAndCastProjection`). */
    method ExtractGlobalGrowthAggregatesAndCastProjection(exp: real -> real)
      requires Tagged(days, params) && DelaysFit(params, |days|)
      modifies this
      ensures NonProjectedCount(old(days)) >= 1
      ensures currentGrowthRate == CurrentGrowth(old(days)) && currentREff == CurrentREff(old(days))
      ensures days == Projected(old(days), params, exp)
      ensures runUp == old(runUp) && projectedTotalSeroprev == old(projectedTotalSeroprev)
      ensures projectedTotalMortality == old(projectedTotalMortality)
    {
      days, currentGrowthRate, currentREff := Project(days, params, exp);
    }

    /** Phase 8 (`extractGlobalLinearAggregates`). */
    method ExtractGlobalLinearAggregates()
      modifies this
      ensures projectedTotalSeroprev == Seroprevalence(RunUpSum(runUp) + CasesSum(days))
      ensures projectedTotalMortality == ProjectedMortality(daysRaw, days, params.ifr)
      ensures days == old(days) && runUp == old(runUp)
      ensures currentGrowthRate == old(currentGrowthRate) && currentREff == old(currentREff)
    {
      var totalCases := RunUpSum(runUp) + CasesSum(days);
      projectedTotalSeroprev := Seroprevalence(totalCases);
      projectedTotalMortality := ProjectedMortality(daysRaw, days, params.ifr);
    }

    /** `RunScenario`: the eight phases in order, on a new scenario. */
    method RunScenario(log: real -> real, exp: real -> real)
      requires days == [] && runUp == [] && Runnable(daysRolling, params, log)
      modifies this
      ensures days == ScenarioDays(daysRolling, params, log, exp)
      ensures runUp == RunUp(WithAdmissions(daysRolling, params.medianHospitalizationDuration), params)
      ensures currentGrowthRate == CurrentGrowth(Estimated(daysRolling, params, log))
      ensures currentREff == CurrentREff(Estimated(daysRolling, params, log))
      ensures projectedTotalSeroprev == Seroprevalence(RunUpSum(runUp) + CasesSum(days))
      ensures projectedTotalMortality == ProjectedMortality(daysRaw, days, params.ifr)
    {
      ComputeAdmissionsWithChurn();
      ghost var admitted := days;
      ComputeRunUp();
      ComputeSourcedOn();
      ClassifiedKeeps(admitted, daysRolling, params);
      ghost var classified := days;
      AutocalibrateCasesPerAdmission();
      CalibratedKeeps(classified, daysRolling, params);
      ghost var calibrated := days;
      ComputeActualDNCWithoutProjection();
      ReconstructedKeeps(calibrated, daysRolling, params);
      ghost var reconstructed := days;
      ComputeDeltasWithoutProjection(log);
      DeltasKeep(reconstructed, params, log);
      assert days == Estimated(daysRolling, params, log);
      ExtractGlobalGrowthAggregatesAndCastProjection(exp);
      ExtractGlobalLinearAggregates();
    }
  }
}
