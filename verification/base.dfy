/**
  The base layer: raw daily observations, their short and long centred rolling
  averages, and the population of both lists once the feed has been parsed.
  Parsing itself (dates, integers, doubles from CSV text) is outside the model:
  `ReadDaysRaw` receives the already parsed rows.
 */
module Base {
  import opened Numerics

  /** One parsed row of the source feed. The calendar date is not modelled. */
  datatype Row = Row(dnc: int, tests: int, positivity: real, mortality: int, hospitalizations: int)

  /** A raw observed day: a parsed row tagged with its timeline index. */
  datatype DayRaw = DayRaw(
    timelineIndex: int,
    dnc: int,
    tests: int,
    positivity: real,
    mortality: int,
    hospitalizations: int)

  /** The five observed channels of a raw day. */
  datatype Channel = DNC | Tests | Positivity | Mortality | Hospitalizations

  function Value(d: DayRaw, c: Channel): real
  {
    match c
    case DNC => d.dnc as real
    case Tests => d.tests as real
    case Positivity => d.positivity
    case Mortality => d.mortality as real
    case Hospitalizations => d.hospitalizations as real
  }

  /** Sum of one channel over a list of raw days (LINQ `Select(...).Sum()`). */
  function Sum(s: seq<DayRaw>, c: Channel): real
  {
    if s == [] then 0.0 else Value(s[0], c) + Sum(s[1..], c)
  }

  /** Raw days carry their position in the list as their timeline index. */
  ghost predicate Indexed(raws: seq<DayRaw>)
  {
    forall k :: 0 <= k < |raws| ==> raws[k].timelineIndex == k
  }

  /** An inclusive range of timeline indices. */
  datatype Span = Span(lo: int, hi: int)
  {
    function Size(): int { hi - lo + 1 }
    predicate Contains(i: int) { lo <= i <= hi }
  }

  /**
    The window of `radius` days either side of `i`, clamped to the timeline [0, last]:
    `(i - r) > 0 ? (i - r) : 0` and `(i + r) < last ? (i + r) : last`.
   */
  function Centred(i: int, radius: nat, last: int): (s: Span)
    requires 0 <= i <= last
    ensures s.Contains(i) && 0 <= s.lo && s.hi <= last
    ensures forall j :: s.Contains(j) <==> 0 <= j <= last && i - radius <= j <= i + radius
    ensures 1 <= s.Size() <= 2 * radius + 1
  {
    Span(if i - radius > 0 then i - radius else 0, if i + radius < last then i + radius else last)
  }

  /** A wider radius gives a window that contains the narrower one. */
  lemma CentredNested(i: int, r1: nat, r2: nat, last: int)
    requires 0 <= i <= last && r1 <= r2
    ensures Centred(i, r2, last).lo <= Centred(i, r1, last).lo
    ensures Centred(i, r1, last).hi <= Centred(i, r2, last).hi
  {
  }

  /** LINQ `Where(raw => lo <= raw.TimelineIndex <= hi)`. */
  function WhereIndexIn(raws: seq<DayRaw>, s: Span): (r: seq<DayRaw>)
    ensures |r| <= |raws|
  {
    if raws == [] then []
    else (if s.Contains(raws[0].timelineIndex) then [raws[0]] else []) + WhereIndexIn(raws[1..], s)
  }

  /** Filtering raw days by index is a slice when every index equals its position. */
  lemma WhereIndexInIsSlice(raws: seq<DayRaw>, s: Span)
    requires Indexed(raws)
    requires 0 <= s.lo <= s.hi < |raws|
    ensures WhereIndexIn(raws, s) == raws[s.lo..s.hi + 1]
  {
    var before, inside, after := raws[..s.lo], raws[s.lo..s.hi + 1], raws[s.hi + 1..];
    assert raws == before + inside + after;
    forall k | 0 <= k < |before|
      ensures !s.Contains(before[k].timelineIndex)
    {
      assert before[k] == raws[k];
    }
    forall k | 0 <= k < |inside|
      ensures s.Contains(inside[k].timelineIndex)
    {
      assert inside[k] == raws[s.lo + k];
    }
    forall k | 0 <= k < |after|
      ensures !s.Contains(after[k].timelineIndex)
    {
      assert after[k] == raws[s.hi + 1 + k];
    }
    WhereAppend(before + inside, after, s);
    WhereAppend(before, inside, s);
    WhereKeeps(inside, s, true);
    WhereKeeps(before, s, false);
    WhereKeeps(after, s, false);
    assert WhereIndexIn(raws, s) == [] + inside + [];
  }

  lemma {:induction false} WhereAppend(a: seq<DayRaw>, b: seq<DayRaw>, s: Span)
    ensures WhereIndexIn(a + b, s) == WhereIndexIn(a, s) + WhereIndexIn(b, s)
  {
    if a == [] {
      assert a + b == b;
    } else {
      assert (a + b)[0] == a[0];
      assert (a + b)[1..] == a[1..] + b;
      WhereAppend(a[1..], b, s);
    }
  }

  /** A list whose days all fall inside (or all outside) the span is kept whole (or dropped). */
  lemma {:induction false} WhereKeeps(a: seq<DayRaw>, s: Span, inside: bool)
    requires forall k :: 0 <= k < |a| ==> s.Contains(a[k].timelineIndex) == inside
    ensures WhereIndexIn(a, s) == if inside then a else []
  {
    if a != [] {
      WhereKeeps(a[1..], s, inside);
      if inside {
        assert a == [a[0]] + a[1..];
      }
    }
  }

  /** A raw day together with its centred rolling averages. */
  datatype DayRolling = DayRolling(
    raw: DayRaw,
    rolling5DayDNC: real,
    rolling5DayTests: real,
    rolling5DayPositivity: real,
    rolling5DayMortality: real,
    rolling5DayHospitalizations: real,
    rolling101DayMortality: real,
    rolling101DayHospitalizations: real)

  /** The short (5-day) average of a channel. */
  function Short(r: DayRolling, c: Channel): real
  {
    match c
    case DNC => r.rolling5DayDNC
    case Tests => r.rolling5DayTests
    case Positivity => r.rolling5DayPositivity
    case Mortality => r.rolling5DayMortality
    case Hospitalizations => r.rolling5DayHospitalizations
  }

  /** The short window of day `i`: two days either side, clamped to the timeline. */
  function ShortWindow(i: int, count: int): Span
    requires 0 <= i < count
  {
    Centred(i, 2, count - 1)
  }

  /** The long window of day `i`: fifty days either side, clamped to the timeline. */
  function LongWindow(i: int, count: int): Span
    requires 0 <= i < count
  {
    Centred(i, 50, count - 1)
  }

  /**
    The `DayRolling` constructor. The short averages divide the short-window sum by
    the short-window count m. The two "101-day" fields divide the SHORT-window sum by
    the LONG-window count n, exactly as the code is written. The two `Where` filters
    on the timeline index are taken as slices, which `WhereIndexInIsSlice` justifies.
   */
  function MakeRolling(i: int, raws: seq<DayRaw>): (r: DayRolling)
    requires Indexed(raws) && 0 <= i < |raws|
    ensures r.raw == raws[i]
  {
    var short := ShortWindow(i, |raws|);
    var long := LongWindow(i, |raws|);
    var daysShort := raws[short.lo..short.hi + 1];
    var daysLong := raws[long.lo..long.hi + 1];
    var m := |daysShort| as real;
    var n := |daysLong| as real;
    DayRolling(
      raws[i],
      Sum(daysShort, DNC) / m,
      Sum(daysShort, Tests) / m,
      Sum(daysShort, Positivity) / m,
      Sum(daysShort, Mortality) / m,
      Sum(daysShort, Hospitalizations) / m,
      Sum(daysShort, Mortality) / n,
      Sum(daysShort, Hospitalizations) / n)
  }

  /** Sum of a channel is bounded by the channel's bounds times the length. */
  lemma {:induction false} SumBetween(s: seq<DayRaw>, c: Channel, a: real, b: real)
    requires forall k :: 0 <= k < |s| ==> a <= Value(s[k], c) <= b
    ensures Times(|s|, a) <= Sum(s, c) <= Times(|s|, b)
  {
    if s != [] {
      assert forall k :: 0 <= k < |s[1..]| ==> s[1..][k] == s[k + 1];
      SumBetween(s[1..], c, a, b);
    }
  }

  /**
    Each short average is the mean of its channel over the short window, and each
    "101-day" field is the short-window sum divided by the long-window size.
   */
  lemma RollingMeans(i: int, raws: seq<DayRaw>, c: Channel)
    requires Indexed(raws) && 0 <= i < |raws|
    ensures var r := MakeRolling(i, raws);
            var w := ShortWindow(i, |raws|);
            var s := raws[w.lo..w.hi + 1];
            && Short(r, c) == Sum(s, c) / w.Size() as real
            && r.rolling101DayMortality == Sum(s, Mortality) / LongWindow(i, |raws|).Size() as real
            && r.rolling101DayHospitalizations == Sum(s, Hospitalizations) / LongWindow(i, |raws|).Size() as real
  {
  }

  /**
    Each short average lies between any bounds that hold for every raw value of its
    channel in the short window.
   */
  lemma ShortAverageBetween(i: int, raws: seq<DayRaw>, c: Channel, a: real, b: real)
    requires Indexed(raws) && 0 <= i < |raws|
    requires forall k :: ShortWindow(i, |raws|).Contains(k) ==> a <= Value(raws[k], c) <= b
    ensures a <= Short(MakeRolling(i, raws), c) <= b
  {
    var w := ShortWindow(i, |raws|);
    var s := raws[w.lo..w.hi + 1];
    SliceBetween(raws, w, s, c, a, b);
    MeanBetween(s, c, a, b);
    RollingMeans(i, raws, c);
  }

  lemma SliceBetween(raws: seq<DayRaw>, w: Span, s: seq<DayRaw>, c: Channel, a: real, b: real)
    requires 0 <= w.lo <= w.hi < |raws| && s == raws[w.lo..w.hi + 1]
    requires forall k :: w.Contains(k) ==> a <= Value(raws[k], c) <= b
    ensures forall k :: 0 <= k < |s| ==> a <= Value(s[k], c) <= b
  {
    forall k | 0 <= k < |s|
      ensures a <= Value(s[k], c) <= b
    {
      assert s[k] == raws[w.lo + k] && w.Contains(w.lo + k);
    }
  }

  /** The mean of a non-empty list lies between any bounds on its values. */
  lemma MeanBetween(s: seq<DayRaw>, c: Channel, a: real, b: real)
    requires s != []
    requires forall k :: 0 <= k < |s| ==> a <= Value(s[k], c) <= b
    ensures a <= Sum(s, c) / |s| as real <= b
  {
    SumBetween(s, c, a, b);
    DivBetween(Sum(s, c), |s|, a, b);
  }

  /**
    As written, the "101-day" fields divide the short-window sum by the long-window
    size, so for non-negative data they never exceed the 5-day averages.
   */
  lemma LongFieldsAtMostShort(i: int, raws: seq<DayRaw>)
    requires Indexed(raws) && 0 <= i < |raws|
    requires forall k :: 0 <= k < |raws| ==> raws[k].mortality >= 0 && raws[k].hospitalizations >= 0
    ensures 0.0 <= MakeRolling(i, raws).rolling101DayMortality <= MakeRolling(i, raws).rolling5DayMortality
    ensures 0.0 <= MakeRolling(i, raws).rolling101DayHospitalizations
                <= MakeRolling(i, raws).rolling5DayHospitalizations
  {
    var w := ShortWindow(i, |raws|);
    var l := LongWindow(i, |raws|);
    CentredNested(i, 2, 50, |raws| - 1);
    RollingMeans(i, raws, Mortality);
    RollingMeans(i, raws, Hospitalizations);
    var s := raws[w.lo..w.hi + 1];
    assert forall k :: 0 <= k < |s| ==> s[k] == raws[w.lo + k];
    SumNonNegative(s, Mortality);
    SumNonNegative(s, Hospitalizations);
    DivMonotone(Sum(s, Mortality), w.Size() as real, l.Size() as real);
    DivMonotone(Sum(s, Hospitalizations), w.Size() as real, l.Size() as real);
  }

  lemma {:induction false} SumNonNegative(s: seq<DayRaw>, c: Channel)
    requires forall k :: 0 <= k < |s| ==> Value(s[k], c) >= 0.0
    ensures Sum(s, c) >= 0.0
  {
    if s != [] {
      SumNonNegative(s[1..], c);
    }
  }

  lemma DivMonotone(x: real, m: real, n: real)
    requires x >= 0.0 && 0.0 < m <= n
    ensures 0.0 <= x / n <= x / m
  {
    assert x / m - x / n == x * (n - m) / (m * n);
    assert x * (n - m) >= 0.0;
  }

  /** The daily store: raw days in read order and one rolling record per raw day. */
  class BaseDays {
    var daysRaw: seq<DayRaw>
    var daysRolling: seq<DayRolling>

    constructor ()
      ensures daysRaw == [] && daysRolling == []
    {
      daysRaw := [];
      daysRolling := [];
    }

    /**
      The part of `ReadDaysRaw` after the file has been parsed: number the rows 0, 1,
      2, ... in read order, then append one rolling record per raw day.
     */
    method ReadDaysRaw(rows: seq<Row>)
      requires daysRaw == [] && daysRolling == []
      modifies this
      ensures |daysRaw| == |rows| && Indexed(daysRaw)
      ensures forall k :: 0 <= k < |rows| ==> daysRaw[k] == FromRow(k, rows[k])
      ensures |daysRolling| == |daysRaw|
      ensures forall k :: 0 <= k < |daysRaw| ==> daysRolling[k] == MakeRolling(k, daysRaw)
    {
      var index := 0;
      while index < |rows|
        invariant 0 <= index <= |rows|
        invariant |daysRaw| == index
        invariant forall k :: 0 <= k < index ==> daysRaw[k] == FromRow(k, rows[k])
        invariant daysRolling == []
      {
        daysRaw := daysRaw + [FromRow(index, rows[index])];
        index := index + 1;
      }
      ghost var raws := daysRaw;
      assert Indexed(raws);
      var j := 0;
      while j < |daysRaw|
        invariant daysRaw == raws
        invariant 0 <= j <= |daysRaw|
        invariant |daysRolling| == j
        invariant forall k :: 0 <= k < j ==> daysRolling[k] == MakeRolling(k, daysRaw)
      {
        var raw := daysRaw[j];
        daysRolling := daysRolling + [MakeRolling(raw.timelineIndex, daysRaw)];
        j := j + 1;
      }
    }
  }

  function FromRow(index: int, row: Row): (d: DayRaw)
    ensures d.timelineIndex == index
  {
    DayRaw(index, row.dnc, row.tests, row.positivity, row.mortality, row.hospitalizations)
  }
}
