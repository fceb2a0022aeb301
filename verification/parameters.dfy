/**
  The scenario parameter grid: seven value lists, their Cartesian product in
  nested enumeration order, and the ordering filter that keeps only parameter
  sets with a gap from test to admission and from admission to mortality.
 */
module Parameters {

  /** Civic population size of the dataset. */
  const Population: int := 10000000

  /** One scenario's parameters, each drawn unchanged from its value list. */
  datatype ScenarioParameters = ScenarioParameters(
    ifr: real,
    medianTimeToAdmission: int,
    medianHospitalizationDuration: int,
    medianTimeToMortality: int,
    medianTimeFromExposureToTest: int,
    medianSerialInterval: real,
    transmissibilityWindowToSI: real)

  /** The filter: time to mortality > time to admission > time from exposure to test. */
  predicate Admissible(p: ScenarioParameters)
  {
    p.medianTimeToMortality > p.medianTimeToAdmission
    && p.medianTimeToAdmission > p.medianTimeFromExposureToTest
  }

  /** The seven value lists, in enumeration order (first is outermost). */
  datatype Grid = Grid(
    ifr: seq<real>,
    admission: seq<int>,
    duration: seq<int>,
    mortality: seq<int>,
    test: seq<int>,
    serialInterval: seq<real>,
    window: seq<real>)

  /** The value lists of the literature review. */
  const DefaultGrid: Grid := Grid(
    [0.006, 0.008, 0.01],
    [7, 10, 14],
    [7, 10, 14],
    [26, 30, 34],
    [4, 5, 7],
    [3.5, 4.5, 7.0],
    [0.8, 0.6, 0.5])

  // ---------------------------------------------------------------------------
  // The query comprehension: `from a in A from b in B ... select` is a nested
  // FlatMap, each level enumerating its list in order.
  // ---------------------------------------------------------------------------

  function FlatMap<A, B>(xs: seq<A>, f: A -> seq<B>): seq<B>
  {
    if xs == [] then [] else f(xs[0]) + FlatMap(xs[1..], f)
  }

  function Product(g: Grid): seq<ScenarioParameters>
  {
    FlatMap(g.ifr, IfrStep(g))
  }

  function IfrStep(g: Grid): real -> seq<ScenarioParameters>
  {
    x => ByAdmission(g, x)
  }

  function ByAdmission(g: Grid, x: real): seq<ScenarioParameters>
  {
    FlatMap(g.admission, AdmissionStep(g, x))
  }

  function AdmissionStep(g: Grid, x: real): int -> seq<ScenarioParameters>
  {
    a => ByDuration(g, x, a)
  }

  function ByDuration(g: Grid, x: real, a: int): seq<ScenarioParameters>
  {
    FlatMap(g.duration, DurationStep(g, x, a))
  }

  function DurationStep(g: Grid, x: real, a: int): int -> seq<ScenarioParameters>
  {
    d => ByMortality(g, x, a, d)
  }

  function ByMortality(g: Grid, x: real, a: int, d: int): seq<ScenarioParameters>
  {
    FlatMap(g.mortality, MortalityStep(g, x, a, d))
  }

  function MortalityStep(g: Grid, x: real, a: int, d: int): int -> seq<ScenarioParameters>
  {
    m => ByTest(g, x, a, d, m)
  }

  function ByTest(g: Grid, x: real, a: int, d: int, m: int): seq<ScenarioParameters>
  {
    FlatMap(g.test, TestStep(g, x, a, d, m))
  }

  function TestStep(g: Grid, x: real, a: int, d: int, m: int): int -> seq<ScenarioParameters>
  {
    t => BySerialInterval(g, x, a, d, m, t)
  }

  function BySerialInterval(g: Grid, x: real, a: int, d: int, m: int, t: int): seq<ScenarioParameters>
  {
    FlatMap(g.serialInterval, SerialIntervalStep(x, a, d, m, t, g.window))
  }

  function SerialIntervalStep(x: real, a: int, d: int, m: int, t: int, ws: seq<real>): real -> seq<ScenarioParameters>
  {
    si => FlatMap(ws, WindowStep(x, a, d, m, t, si))
  }

  function WindowStep(x: real, a: int, d: int, m: int, t: int, si: real): real -> seq<ScenarioParameters>
  {
    w => [ScenarioParameters(x, a, d, m, t, si, w)]
  }

  /** The `foreach` with its `if`: the admissible sets, in order. */
  function Filter(s: seq<ScenarioParameters>): (r: seq<ScenarioParameters>)
    ensures |r| <= |s|
    ensures forall p :: p in r ==> Admissible(p) && p in s
  {
    if s == [] then []
    else (if Admissible(s[0]) then [s[0]] else []) + Filter(s[1..])
  }

  // ---------------------------------------------------------------------------
  // Generic facts about FlatMap
  // ---------------------------------------------------------------------------

  /** When every block has length `len`, the flattening has |xs| * len elements. */
  lemma {:induction false} FlatMapLength<A, B>(xs: seq<A>, f: A -> seq<B>, len: nat)
    requires forall x :: x in xs ==> |f(x)| == len
    ensures |FlatMap(xs, f)| == |xs| * len
  {
    if xs != [] {
      assert xs[0] in xs;
      assert forall x :: x in xs[1..] ==> x in xs;
      FlatMapLength(xs[1..], f, len);
      assert |FlatMap(xs, f)| == len + |xs[1..]| * len;
      MulSucc(|xs[1..]|, len);
    }
  }

  lemma MulSucc(n: nat, len: nat)
    ensures (n + 1) * len == len + n * len
  {
  }

  /** Element j of block i sits at position i * len + j. */
  lemma {:induction false} FlatMapAt<A, B>(xs: seq<A>, f: A -> seq<B>, len: nat, i: nat, j: nat)
    requires forall x :: x in xs ==> |f(x)| == len
    requires i < |xs| && j < len
    ensures i * len + j < |FlatMap(xs, f)|
    ensures FlatMap(xs, f)[i * len + j] == f(xs[i])[j]
  {
    FlatMapLength(xs, f, len);
    Below(i, |xs|, len, j);
    if i > 0 {
      FlatMapAt(xs[1..], f, len, i - 1, j);
      assert i * len + j == len + ((i - 1) * len + j);
    }
  }

  /** If a < n and r < len then a * len + r < n * len. */
  lemma Below(a: nat, n: nat, len: nat, r: nat)
    requires a < n && r < len
    ensures a * len + r < n * len
  {
    assert a * len + len == (a + 1) * len;
    assert (a + 1) * len <= n * len;
  }

  /**
    If only the block of `key` can hold `p`, then `p` occurs in the flattening as
    often as `key` occurs in `xs` times as often as `p` occurs in that block.
   */
  lemma {:induction false} FlatMapCount<A, B>(xs: seq<A>, f: A -> seq<B>, p: B, key: A)
    requires forall x :: x in xs && x != key ==> multiset(f(x))[p] == 0
    ensures multiset(FlatMap(xs, f))[p] == multiset(xs)[key] * multiset(f(key))[p]
  {
    if xs != [] {
      var k := multiset(f(key))[p];
      var head := multiset(f(xs[0]))[p];
      var rest := FlatMap(xs[1..], f);
      assert forall x :: x in xs[1..] ==> x in xs;
      FlatMapCount(xs[1..], f, p, key);
      assert FlatMap(xs, f) == f(xs[0]) + rest;
      assert multiset(FlatMap(xs, f))[p] == head + multiset(rest)[p];
      assert xs == [xs[0]] + xs[1..];
      var r := multiset(xs[1..])[key];
      if xs[0] == key {
        assert head == k;
        assert multiset(xs)[key] == r + 1;
        MulSucc(r, k);
        assert multiset(FlatMap(xs, f))[p] == (r + 1) * k;
      } else {
        assert xs[0] in xs;
        assert head == 0;
        assert multiset(xs)[key] == r;
        assert multiset(FlatMap(xs, f))[p] == r * k;
      }
    } else {
      assert multiset(xs)[key] == 0;
    }
  }

  /** If no block holds `p`, neither does the flattening. */
  lemma {:induction false} FlatMapNone<A, B>(xs: seq<A>, f: A -> seq<B>, p: B)
    requires forall x :: x in xs ==> multiset(f(x))[p] == 0
    ensures multiset(FlatMap(xs, f))[p] == 0
  {
    if xs != [] {
      assert xs[0] in xs;
      assert forall x :: x in xs[1..] ==> x in xs;
      FlatMapNone(xs[1..], f, p);
      assert FlatMap(xs, f) == f(xs[0]) + FlatMap(xs[1..], f);
    }
  }

  lemma {:induction false} FilterAppend(a: seq<ScenarioParameters>, b: seq<ScenarioParameters>)
    ensures Filter(a + b) == Filter(a) + Filter(b)
  {
    if a == [] {
      assert a + b == b;
    } else {
      assert (a + b)[0] == a[0];
      assert (a + b)[1..] == a[1..] + b;
      FilterAppend(a[1..], b);
    }
  }

  /** Sum of a weight over a list. */
  function SumOver<A>(xs: seq<A>, w: A -> int): int
  {
    if xs == [] then 0 else w(xs[0]) + SumOver(xs[1..], w)
  }

  /** The filter of a flattening keeps, block by block, the filter of each block. */
  lemma {:induction false} FilterFlatMap<A>(xs: seq<A>, f: A -> seq<ScenarioParameters>, w: A -> int)
    requires forall x :: x in xs ==> |Filter(f(x))| == w(x)
    ensures |Filter(FlatMap(xs, f))| == SumOver(xs, w)
  {
    if xs != [] {
      FilterAppend(f(xs[0]), FlatMap(xs[1..], f));
      FilterFlatMap(xs[1..], f, w);
    }
  }

  lemma {:induction false} SumOverConstant<A>(xs: seq<A>, w: A -> int, c: int)
    requires forall x :: x in xs ==> w(x) == c
    ensures SumOver(xs, w) == |xs| * c
  {
    if xs != [] {
      SumOverConstant(xs[1..], w, c);
    }
  }

  /** Number of values in `xs` above `a`. */
  function CountAbove(xs: seq<int>, a: int): nat
  {
    if xs == [] then 0 else (if xs[0] > a then 1 else 0) + CountAbove(xs[1..], a)
  }

  /** Number of values in `xs` below `a`. */
  function CountBelow(xs: seq<int>, a: int): nat
  {
    if xs == [] then 0 else (if xs[0] < a then 1 else 0) + CountBelow(xs[1..], a)
  }

  lemma {:induction false} SumOverAbove(xs: seq<int>, w: int -> int, a: int, c: int)
    requires forall x :: x in xs ==> w(x) == if x > a then c else 0
    ensures SumOver(xs, w) == CountAbove(xs, a) * c
  {
    if xs != [] {
      SumOverAbove(xs[1..], w, a, c);
    }
  }

  lemma {:induction false} SumOverBelow(xs: seq<int>, w: int -> int, a: int, c: int)
    requires forall x :: x in xs ==> w(x) == if x < a then c else 0
    ensures SumOver(xs, w) == CountBelow(xs, a) * c
  {
    if xs != [] {
      SumOverBelow(xs[1..], w, a, c);
    }
  }

  // ---------------------------------------------------------------------------
  // Size and order of the product
  // ---------------------------------------------------------------------------

  /** Lengths of the blocks at each level, innermost first. */
  function WindowBlock(g: Grid): nat { |g.window| }
  function SerialIntervalBlock(g: Grid): nat { |g.serialInterval| * WindowBlock(g) }
  function TestBlock(g: Grid): nat { |g.test| * SerialIntervalBlock(g) }
  function MortalityBlock(g: Grid): nat { |g.mortality| * TestBlock(g) }
  function DurationBlock(g: Grid): nat { |g.duration| * MortalityBlock(g) }
  function AdmissionBlock(g: Grid): nat { |g.admission| * DurationBlock(g) }

  lemma SerialIntervalBlocks(g: Grid, x: real, a: int, d: int, m: int, t: int)
    ensures forall si :: |SerialIntervalStep(x, a, d, m, t, g.window)(si)| == WindowBlock(g)
  {
    forall si
      ensures |SerialIntervalStep(x, a, d, m, t, g.window)(si)| == WindowBlock(g)
    {
      FlatMapLength(g.window, WindowStep(x, a, d, m, t, si), 1);
    }
  }

  lemma TestBlocks(g: Grid, x: real, a: int, d: int, m: int)
    ensures forall t :: |TestStep(g, x, a, d, m)(t)| == SerialIntervalBlock(g)
  {
    forall t
      ensures |TestStep(g, x, a, d, m)(t)| == SerialIntervalBlock(g)
    {
      SerialIntervalBlocks(g, x, a, d, m, t);
      FlatMapLength(g.serialInterval, SerialIntervalStep(x, a, d, m, t, g.window), WindowBlock(g));
    }
  }

  lemma MortalityBlocks(g: Grid, x: real, a: int, d: int)
    ensures forall m :: |MortalityStep(g, x, a, d)(m)| == TestBlock(g)
  {
    forall m
      ensures |MortalityStep(g, x, a, d)(m)| == TestBlock(g)
    {
      TestBlocks(g, x, a, d, m);
      FlatMapLength(g.test, TestStep(g, x, a, d, m), SerialIntervalBlock(g));
    }
  }

  lemma DurationBlocks(g: Grid, x: real, a: int)
    ensures forall d :: |DurationStep(g, x, a)(d)| == MortalityBlock(g)
  {
    forall d
      ensures |DurationStep(g, x, a)(d)| == MortalityBlock(g)
    {
      MortalityBlocks(g, x, a, d);
      FlatMapLength(g.mortality, MortalityStep(g, x, a, d), TestBlock(g));
    }
  }

  lemma AdmissionBlocks(g: Grid, x: real)
    ensures forall a :: |AdmissionStep(g, x)(a)| == DurationBlock(g)
  {
    forall a
      ensures |AdmissionStep(g, x)(a)| == DurationBlock(g)
    {
      DurationBlocks(g, x, a);
      FlatMapLength(g.duration, DurationStep(g, x, a), MortalityBlock(g));
    }
  }

  lemma IfrBlocks(g: Grid)
    ensures forall x :: |IfrStep(g)(x)| == AdmissionBlock(g)
  {
    forall x
      ensures |IfrStep(g)(x)| == AdmissionBlock(g)
    {
      AdmissionBlocks(g, x);
      FlatMapLength(g.admission, AdmissionStep(g, x), DurationBlock(g));
    }
  }

  /** The product has one element per combination of the seven lists. */
  lemma ProductLength(g: Grid)
    ensures |Product(g)| == |g.ifr| * AdmissionBlock(g)
    ensures |Product(g)| == |g.ifr| * (|g.admission| * (|g.duration| * (|g.mortality|
                          * (|g.test| * (|g.serialInterval| * |g.window|)))))
  {
    IfrBlocks(g);
    FlatMapLength(g.ifr, IfrStep(g), AdmissionBlock(g));
  }

  /** A choice of one position in each of the seven lists. */
  datatype Choice = Choice(i: nat, a: nat, d: nat, m: nat, t: nat, s: nat, w: nat)
  {
    ghost predicate Valid(g: Grid)
    {
      i < |g.ifr| && a < |g.admission| && d < |g.duration| && m < |g.mortality|
      && t < |g.test| && s < |g.serialInterval| && w < |g.window|
    }

    /** The parameter set the choice picks. */
    function Pick(g: Grid): ScenarioParameters
      requires Valid(g)
    {
      ScenarioParameters(g.ifr[i], g.admission[a], g.duration[d], g.mortality[m],
                         g.test[t], g.serialInterval[s], g.window[w])
    }

    /** Offsets of the choice inside the blocks of each level, innermost first. */
    function InSerialInterval(g: Grid): nat { s * WindowBlock(g) + w }
    function InTest(g: Grid): nat { t * SerialIntervalBlock(g) + InSerialInterval(g) }
    function InMortality(g: Grid): nat { m * TestBlock(g) + InTest(g) }
    function InDuration(g: Grid): nat { d * MortalityBlock(g) + InMortality(g) }
    function InAdmission(g: Grid): nat { a * DurationBlock(g) + InDuration(g) }

    /** Mixed-radix position: IFR is the most significant digit, the window the least. */
    function Position(g: Grid): nat { i * AdmissionBlock(g) + InAdmission(g) }
  }

  lemma SerialIntervalAt(g: Grid, c: Choice)
    requires c.Valid(g)
    ensures |BySerialInterval(g, g.ifr[c.i], g.admission[c.a], g.duration[c.d], g.mortality[c.m], g.test[c.t])|
         == SerialIntervalBlock(g)
    ensures c.InSerialInterval(g) < SerialIntervalBlock(g)
    ensures BySerialInterval(g, g.ifr[c.i], g.admission[c.a], g.duration[c.d], g.mortality[c.m], g.test[c.t])
              [c.InSerialInterval(g)] == c.Pick(g)
  {
    var x, a, d, m, t := g.ifr[c.i], g.admission[c.a], g.duration[c.d], g.mortality[c.m], g.test[c.t];
    var si := g.serialInterval[c.s];
    FlatMapAt(g.window, WindowStep(x, a, d, m, t, si), 1, c.w, 0);
    SerialIntervalBlocks(g, x, a, d, m, t);
    FlatMapLength(g.serialInterval, SerialIntervalStep(x, a, d, m, t, g.window), WindowBlock(g));
    FlatMapAt(g.serialInterval, SerialIntervalStep(x, a, d, m, t, g.window), WindowBlock(g), c.s, c.w);
  }

  lemma TestAt(g: Grid, c: Choice)
    requires c.Valid(g)
    ensures |ByTest(g, g.ifr[c.i], g.admission[c.a], g.duration[c.d], g.mortality[c.m])| == TestBlock(g)
    ensures c.InTest(g) < TestBlock(g)
    ensures ByTest(g, g.ifr[c.i], g.admission[c.a], g.duration[c.d], g.mortality[c.m])[c.InTest(g)] == c.Pick(g)
  {
    var x, a, d, m := g.ifr[c.i], g.admission[c.a], g.duration[c.d], g.mortality[c.m];
    SerialIntervalAt(g, c);
    TestBlocks(g, x, a, d, m);
    FlatMapLength(g.test, TestStep(g, x, a, d, m), SerialIntervalBlock(g));
    FlatMapAt(g.test, TestStep(g, x, a, d, m), SerialIntervalBlock(g), c.t, c.InSerialInterval(g));
  }

  lemma MortalityAt(g: Grid, c: Choice)
    requires c.Valid(g)
    ensures |ByMortality(g, g.ifr[c.i], g.admission[c.a], g.duration[c.d])| == MortalityBlock(g)
    ensures c.InMortality(g) < MortalityBlock(g)
    ensures ByMortality(g, g.ifr[c.i], g.admission[c.a], g.duration[c.d])[c.InMortality(g)] == c.Pick(g)
  {
    var x, a, d := g.ifr[c.i], g.admission[c.a], g.duration[c.d];
    TestAt(g, c);
    MortalityBlocks(g, x, a, d);
    FlatMapLength(g.mortality, MortalityStep(g, x, a, d), TestBlock(g));
    FlatMapAt(g.mortality, MortalityStep(g, x, a, d), TestBlock(g), c.m, c.InTest(g));
  }

  lemma DurationAt(g: Grid, c: Choice)
    requires c.Valid(g)
    ensures |ByDuration(g, g.ifr[c.i], g.admission[c.a])| == DurationBlock(g)
    ensures c.InDuration(g) < DurationBlock(g)
    ensures ByDuration(g, g.ifr[c.i], g.admission[c.a])[c.InDuration(g)] == c.Pick(g)
  {
    var x, a := g.ifr[c.i], g.admission[c.a];
    MortalityAt(g, c);
    DurationBlocks(g, x, a);
    FlatMapLength(g.duration, DurationStep(g, x, a), MortalityBlock(g));
    FlatMapAt(g.duration, DurationStep(g, x, a), MortalityBlock(g), c.d, c.InMortality(g));
  }

  lemma AdmissionAt(g: Grid, c: Choice)
    requires c.Valid(g)
    ensures |ByAdmission(g, g.ifr[c.i])| == AdmissionBlock(g)
    ensures c.InAdmission(g) < AdmissionBlock(g)
    ensures ByAdmission(g, g.ifr[c.i])[c.InAdmission(g)] == c.Pick(g)
  {
    var x := g.ifr[c.i];
    DurationAt(g, c);
    AdmissionBlocks(g, x);
    FlatMapLength(g.admission, AdmissionStep(g, x), DurationBlock(g));
    FlatMapAt(g.admission, AdmissionStep(g, x), DurationBlock(g), c.a, c.InDuration(g));
  }

  /**
    Enumeration order: the parameter set at a choice's mixed-radix position is
    exactly the values the choice picks, with IFR outermost and the
    transmissibility window innermost.
   */
  lemma ProductAt(g: Grid, c: Choice)
    requires c.Valid(g)
    ensures c.Position(g) < |Product(g)|
    ensures Product(g)[c.Position(g)] == c.Pick(g)
  {
    AdmissionAt(g, c);
    IfrBlocks(g);
    FlatMapAt(g.ifr, IfrStep(g), AdmissionBlock(g), c.i, c.InAdmission(g));
  }

  // ---------------------------------------------------------------------------
  // Multiplicity: every combination appears as often as its values occur
  // ---------------------------------------------------------------------------

  lemma WindowCount(x: real, a: int, d: int, m: int, t: int, si: real, ws: seq<real>, p: ScenarioParameters)
    ensures multiset(FlatMap(ws, WindowStep(x, a, d, m, t, si)))[p]
         == if (x, a, d, m, t, si) == (p.ifr, p.medianTimeToAdmission, p.medianHospitalizationDuration,
                                       p.medianTimeToMortality, p.medianTimeFromExposureToTest, p.medianSerialInterval)
            then multiset(ws)[p.transmissibilityWindowToSI]
            else 0
  {
    var q := ScenarioParameters(x, a, d, m, t, si, p.transmissibilityWindowToSI);
    assert WindowStep(x, a, d, m, t, si)(p.transmissibilityWindowToSI) == [q];
    assert multiset([q])[p] == if q == p then 1 else 0;
    FlatMapCount(ws, WindowStep(x, a, d, m, t, si), p, p.transmissibilityWindowToSI);
  }

  lemma BySerialIntervalCount(g: Grid, x: real, a: int, d: int, m: int, t: int, p: ScenarioParameters)
    ensures multiset(BySerialInterval(g, x, a, d, m, t))[p]
         == if (x, a, d, m, t) == (p.ifr, p.medianTimeToAdmission, p.medianHospitalizationDuration,
                                   p.medianTimeToMortality, p.medianTimeFromExposureToTest)
            then multiset(g.serialInterval)[p.medianSerialInterval] * multiset(g.window)[p.transmissibilityWindowToSI]
            else 0
  {
    if (x, a, d, m, t) == (p.ifr, p.medianTimeToAdmission, p.medianHospitalizationDuration,
                                   p.medianTimeToMortality, p.medianTimeFromExposureToTest) {
      forall si | si in g.serialInterval && si != p.medianSerialInterval
        ensures multiset(SerialIntervalStep(x, a, d, m, t, g.window)(si))[p] == 0
      {
        WindowCount(x, a, d, m, t, si, g.window, p);
      }
      WindowCount(x, a, d, m, t, p.medianSerialInterval, g.window, p);
      FlatMapCount(g.serialInterval, SerialIntervalStep(x, a, d, m, t, g.window), p, p.medianSerialInterval);
    } else {
      forall si | si in g.serialInterval
        ensures multiset(SerialIntervalStep(x, a, d, m, t, g.window)(si))[p] == 0
      {
        WindowCount(x, a, d, m, t, si, g.window, p);
      }
      FlatMapNone(g.serialInterval, SerialIntervalStep(x, a, d, m, t, g.window), p);
    }
  }

  lemma ByTestCount(g: Grid, x: real, a: int, d: int, m: int, p: ScenarioParameters)
    ensures multiset(ByTest(g, x, a, d, m))[p]
         == if (x, a, d, m) == (p.ifr, p.medianTimeToAdmission, p.medianHospitalizationDuration, p.medianTimeToMortality)
            then multiset(g.test)[p.medianTimeFromExposureToTest]
                 * (multiset(g.serialInterval)[p.medianSerialInterval] * multiset(g.window)[p.transmissibilityWindowToSI])
            else 0
  {
    if (x, a, d, m) == (p.ifr, p.medianTimeToAdmission, p.medianHospitalizationDuration, p.medianTimeToMortality) {
      forall t | t in g.test && t != p.medianTimeFromExposureToTest
        ensures multiset(TestStep(g, x, a, d, m)(t))[p] == 0
      {
        BySerialIntervalCount(g, x, a, d, m, t, p);
      }
      BySerialIntervalCount(g, x, a, d, m, p.medianTimeFromExposureToTest, p);
      FlatMapCount(g.test, TestStep(g, x, a, d, m), p, p.medianTimeFromExposureToTest);
    } else {
      forall t | t in g.test
        ensures multiset(TestStep(g, x, a, d, m)(t))[p] == 0
      {
        BySerialIntervalCount(g, x, a, d, m, t, p);
      }
      FlatMapNone(g.test, TestStep(g, x, a, d, m), p);
    }
  }

  lemma ByMortalityCount(g: Grid, x: real, a: int, d: int, p: ScenarioParameters)
    ensures multiset(ByMortality(g, x, a, d))[p]
         == if (x, a, d) == (p.ifr, p.medianTimeToAdmission, p.medianHospitalizationDuration)
            then multiset(g.mortality)[p.medianTimeToMortality] * (multiset(g.test)[p.medianTimeFromExposureToTest]
                 * (multiset(g.serialInterval)[p.medianSerialInterval] * multiset(g.window)[p.transmissibilityWindowToSI]))
            else 0
  {
    if (x, a, d) == (p.ifr, p.medianTimeToAdmission, p.medianHospitalizationDuration) {
      forall m | m in g.mortality && m != p.medianTimeToMortality
        ensures multiset(MortalityStep(g, x, a, d)(m))[p] == 0
      {
        ByTestCount(g, x, a, d, m, p);
      }
      ByTestCount(g, x, a, d, p.medianTimeToMortality, p);
      FlatMapCount(g.mortality, MortalityStep(g, x, a, d), p, p.medianTimeToMortality);
    } else {
      forall m | m in g.mortality
        ensures multiset(MortalityStep(g, x, a, d)(m))[p] == 0
      {
        ByTestCount(g, x, a, d, m, p);
      }
      FlatMapNone(g.mortality, MortalityStep(g, x, a, d), p);
    }
  }

  lemma ByDurationCount(g: Grid, x: real, a: int, p: ScenarioParameters)
    ensures multiset(ByDuration(g, x, a))[p]
         == if (x, a) == (p.ifr, p.medianTimeToAdmission)
            then multiset(g.duration)[p.medianHospitalizationDuration] * (multiset(g.mortality)[p.medianTimeToMortality]
                 * (multiset(g.test)[p.medianTimeFromExposureToTest]
                 * (multiset(g.serialInterval)[p.medianSerialInterval] * multiset(g.window)[p.transmissibilityWindowToSI])))
            else 0
  {
    if (x, a) == (p.ifr, p.medianTimeToAdmission) {
      forall d | d in g.duration && d != p.medianHospitalizationDuration
        ensures multiset(DurationStep(g, x, a)(d))[p] == 0
      {
        ByMortalityCount(g, x, a, d, p);
      }
      ByMortalityCount(g, x, a, p.medianHospitalizationDuration, p);
      FlatMapCount(g.duration, DurationStep(g, x, a), p, p.medianHospitalizationDuration);
    } else {
      forall d | d in g.duration
        ensures multiset(DurationStep(g, x, a)(d))[p] == 0
      {
        ByMortalityCount(g, x, a, d, p);
      }
      FlatMapNone(g.duration, DurationStep(g, x, a), p);
    }
  }

  lemma ByAdmissionCount(g: Grid, x: real, p: ScenarioParameters)
    ensures multiset(ByAdmission(g, x))[p]
         == if x == p.ifr
            then multiset(g.admission)[p.medianTimeToAdmission] * (multiset(g.duration)[p.medianHospitalizationDuration]
                 * (multiset(g.mortality)[p.medianTimeToMortality] * (multiset(g.test)[p.medianTimeFromExposureToTest]
                 * (multiset(g.serialInterval)[p.medianSerialInterval] * multiset(g.window)[p.transmissibilityWindowToSI]))))
            else 0
  {
    if x == p.ifr {
      forall a | a in g.admission && a != p.medianTimeToAdmission
        ensures multiset(AdmissionStep(g, x)(a))[p] == 0
      {
        ByDurationCount(g, x, a, p);
      }
      ByDurationCount(g, x, p.medianTimeToAdmission, p);
      FlatMapCount(g.admission, AdmissionStep(g, x), p, p.medianTimeToAdmission);
    } else {
      forall a | a in g.admission
        ensures multiset(AdmissionStep(g, x)(a))[p] == 0
      {
        ByDurationCount(g, x, a, p);
      }
      FlatMapNone(g.admission, AdmissionStep(g, x), p);
    }
  }

  /** Every element of the product carries values drawn from the seven lists. */
  lemma ProductMembers(g: Grid, p: ScenarioParameters)
    requires p in Product(g)
    ensures p.ifr in g.ifr && p.medianTimeToAdmission in g.admission
    ensures p.medianHospitalizationDuration in g.duration && p.medianTimeToMortality in g.mortality
    ensures p.medianTimeFromExposureToTest in g.test && p.medianSerialInterval in g.serialInterval
    ensures p.transmissibilityWindowToSI in g.window
  {
    ProductCount(g, p);
    var n := multiset(Product(g))[p];
    assert n > 0;
    NonZeroFactors(multiset(g.ifr)[p.ifr], multiset(g.admission)[p.medianTimeToAdmission],
      multiset(g.duration)[p.medianHospitalizationDuration], multiset(g.mortality)[p.medianTimeToMortality],
      multiset(g.test)[p.medianTimeFromExposureToTest], multiset(g.serialInterval)[p.medianSerialInterval],
      multiset(g.window)[p.transmissibilityWindowToSI]);
  }

  lemma NonZeroFactors(a: nat, b: nat, c: nat, d: nat, e: nat, f: nat, h: nat)
    requires a * (b * (c * (d * (e * (f * h))))) > 0
    ensures a > 0 && b > 0 && c > 0 && d > 0 && e > 0 && f > 0 && h > 0
  {
  }

  /**
    Each parameter set occurs in the product exactly as many times as the
    product of the multiplicities of its seven values in their lists: once
    when the lists have no repeated values and it is a combination of them,
    and never otherwise.
   */
  lemma ProductCount(g: Grid, p: ScenarioParameters)
    ensures multiset(Product(g))[p]
         == multiset(g.ifr)[p.ifr] * (multiset(g.admission)[p.medianTimeToAdmission]
            * (multiset(g.duration)[p.medianHospitalizationDuration]
            * (multiset(g.mortality)[p.medianTimeToMortality]
            * (multiset(g.test)[p.medianTimeFromExposureToTest]
            * (multiset(g.serialInterval)[p.medianSerialInterval]
            * multiset(g.window)[p.transmissibilityWindowToSI])))))
  {
    forall x | x in g.ifr && x != p.ifr
      ensures multiset(IfrStep(g)(x))[p] == 0
    {
      ByAdmissionCount(g, x, p);
    }
    ByAdmissionCount(g, p.ifr, p);
    FlatMapCount(g.ifr, IfrStep(g), p, p.ifr);
  }

  // ---------------------------------------------------------------------------
  // The filter
  // ---------------------------------------------------------------------------

  /** The filter keeps every admissible set as often as it occurs and drops the rest. */
  lemma {:induction false} FilterCount(s: seq<ScenarioParameters>, p: ScenarioParameters)
    ensures multiset(Filter(s))[p] == if Admissible(p) then multiset(s)[p] else 0
  {
    if s != [] {
      FilterCount(s[1..], p);
      assert s == [s[0]] + s[1..];
    }
  }

  lemma FilterSnoc(s: seq<ScenarioParameters>, k: nat)
    requires k < |s|
    ensures Filter(s[..k + 1]) == Filter(s[..k]) + if Admissible(s[k]) then [s[k]] else []
  {
    assert s[..k + 1] == s[..k] + [s[k]];
    FilterAppend(s[..k], [s[k]]);
    assert Filter([s[k]]) == (if Admissible(s[k]) then [s[k]] else []) + Filter([]);
  }

  /** A list without repeated values. */
  predicate NoRepeats<T(==)>(s: seq<T>)
  {
    forall i, j :: 0 <= i < j < |s| ==> s[i] != s[j]
  }

  lemma {:induction false} NoRepeatsCount<T>(s: seq<T>, x: T)
    requires NoRepeats(s)
    ensures multiset(s)[x] == if x in s then 1 else 0
  {
    if s != [] {
      assert NoRepeats(s[1..]) by {
        forall i, j | 0 <= i < j < |s[1..]|
          ensures s[1..][i] != s[1..][j]
        {
          assert s[1..][i] == s[i + 1] && s[1..][j] == s[j + 1];
        }
      }
      NoRepeatsCount(s[1..], x);
      assert s == [s[0]] + s[1..];
      if s[0] == x {
        assert x !in s[1..] by {
          forall j | 0 <= j < |s[1..]|
            ensures s[1..][j] != x
          {
            assert s[1..][j] == s[j + 1];
          }
        }
      }
    }
  }

  /** Every value list of the grid is free of repeats. */
  ghost predicate Distinct(g: Grid)
  {
    NoRepeats(g.ifr) && NoRepeats(g.admission) && NoRepeats(g.duration) && NoRepeats(g.mortality)
    && NoRepeats(g.test) && NoRepeats(g.serialInterval) && NoRepeats(g.window)
  }

  /** The parameter set draws each of its values from the corresponding list. */
  ghost predicate Drawn(g: Grid, p: ScenarioParameters)
  {
    p.ifr in g.ifr && p.medianTimeToAdmission in g.admission
    && p.medianHospitalizationDuration in g.duration && p.medianTimeToMortality in g.mortality
    && p.medianTimeFromExposureToTest in g.test && p.medianSerialInterval in g.serialInterval
    && p.transmissibilityWindowToSI in g.window
  }

  /**
    On a grid without repeated values, every admissible combination of the lists
    is generated exactly once, and nothing else is generated.
   */
  lemma GeneratedOnce(g: Grid, p: ScenarioParameters)
    requires Distinct(g)
    ensures multiset(Filter(Product(g)))[p] == if Admissible(p) && Drawn(g, p) then 1 else 0
  {
    FilterCount(Product(g), p);
    ProductCount(g, p);
    NoRepeatsCount(g.ifr, p.ifr);
    NoRepeatsCount(g.admission, p.medianTimeToAdmission);
    NoRepeatsCount(g.duration, p.medianHospitalizationDuration);
    NoRepeatsCount(g.mortality, p.medianTimeToMortality);
    NoRepeatsCount(g.test, p.medianTimeFromExposureToTest);
    NoRepeatsCount(g.serialInterval, p.medianSerialInterval);
    NoRepeatsCount(g.window, p.transmissibilityWindowToSI);
  }

  // ---------------------------------------------------------------------------
  // How many sets survive the filter
  // ---------------------------------------------------------------------------

  lemma WindowFilterLength(x: real, a: int, d: int, m: int, t: int, si: real, ws: seq<real>)
    ensures |Filter(FlatMap(ws, WindowStep(x, a, d, m, t, si)))| == if m > a && a > t then |ws| else 0
  {
    var c := if m > a && a > t then 1 else 0;
    var weight := (w: real) => c;
    FilterFlatMap(ws, WindowStep(x, a, d, m, t, si), weight);
    SumOverConstant(ws, weight, c);
  }

  lemma SerialIntervalFilterLength(g: Grid, x: real, a: int, d: int, m: int, t: int)
    ensures |Filter(BySerialInterval(g, x, a, d, m, t))| == if m > a && a > t then SerialIntervalBlock(g) else 0
  {
    var c := if m > a && a > t then WindowBlock(g) else 0;
    var weight := (si: real) => c;
    forall si | si in g.serialInterval
      ensures |Filter(SerialIntervalStep(x, a, d, m, t, g.window)(si))| == weight(si)
    {
      WindowFilterLength(x, a, d, m, t, si, g.window);
    }
    FilterFlatMap(g.serialInterval, SerialIntervalStep(x, a, d, m, t, g.window), weight);
    SumOverConstant(g.serialInterval, weight, c);
  }

  lemma TestFilterLength(g: Grid, x: real, a: int, d: int, m: int)
    ensures |Filter(ByTest(g, x, a, d, m))| == if m > a then CountBelow(g.test, a) * SerialIntervalBlock(g) else 0
  {
    var c := if m > a then SerialIntervalBlock(g) else 0;
    var weight := (t: int) => if t < a then c else 0;
    forall t | t in g.test
      ensures |Filter(TestStep(g, x, a, d, m)(t))| == weight(t)
    {
      SerialIntervalFilterLength(g, x, a, d, m, t);
    }
    FilterFlatMap(g.test, TestStep(g, x, a, d, m), weight);
    SumOverBelow(g.test, weight, a, c);
  }

  lemma MortalityFilterLength(g: Grid, x: real, a: int, d: int)
    ensures |Filter(ByMortality(g, x, a, d))|
         == CountAbove(g.mortality, a) * (CountBelow(g.test, a) * SerialIntervalBlock(g))
  {
    var c := CountBelow(g.test, a) * SerialIntervalBlock(g);
    var weight := (m: int) => if m > a then c else 0;
    forall m | m in g.mortality
      ensures |Filter(MortalityStep(g, x, a, d)(m))| == weight(m)
    {
      TestFilterLength(g, x, a, d, m);
    }
    FilterFlatMap(g.mortality, MortalityStep(g, x, a, d), weight);
    SumOverAbove(g.mortality, weight, a, c);
  }

  /** How many admissible sets each admission delay contributes, per IFR value. */
  function AdmissionWeight(g: Grid): int -> int
  {
    a => |g.duration| * (CountAbove(g.mortality, a) * (CountBelow(g.test, a) * SerialIntervalBlock(g)))
  }

  lemma AdmissionFilterLength(g: Grid, x: real)
    ensures |Filter(ByAdmission(g, x))| == SumOver(g.admission, AdmissionWeight(g))
  {
    forall a | a in g.admission
      ensures |Filter(AdmissionStep(g, x)(a))| == AdmissionWeight(g)(a)
    {
      var c := CountAbove(g.mortality, a) * (CountBelow(g.test, a) * SerialIntervalBlock(g));
      var weight := (d: int) => c;
      forall d | d in g.duration
        ensures |Filter(DurationStep(g, x, a)(d))| == weight(d)
      {
        MortalityFilterLength(g, x, a, d);
      }
      FilterFlatMap(g.duration, DurationStep(g, x, a), weight);
      SumOverConstant(g.duration, weight, c);
    }
    FilterFlatMap(g.admission, AdmissionStep(g, x), AdmissionWeight(g));
  }

  /**
    The number of generated scenarios: for every IFR, duration, serial interval
    and window value, each admission delay pairs with every larger mortality
    delay and every smaller test delay.
   */
  lemma FilterProductLength(g: Grid)
    ensures |Filter(Product(g))| == |g.ifr| * SumOver(g.admission, AdmissionWeight(g))
  {
    var c := SumOver(g.admission, AdmissionWeight(g));
    var weight := (x: real) => c;
    forall x | x in g.ifr
      ensures |Filter(IfrStep(g)(x))| == weight(x)
    {
      AdmissionFilterLength(g, x);
    }
    FilterFlatMap(g.ifr, IfrStep(g), weight);
    SumOverConstant(g.ifr, weight, c);
  }

  // ---------------------------------------------------------------------------
  // The default grid
  // ---------------------------------------------------------------------------

  /** The default lists give 3^7 = 2187 combinations. */
  lemma DefaultProductLength()
    ensures |Product(DefaultGrid)| == 2187
  {
    var g := DefaultGrid;
    assert |g.ifr| == 3 && |g.admission| == 3 && |g.duration| == 3 && |g.mortality| == 3;
    assert |g.test| == 3 && |g.serialInterval| == 3 && |g.window| == 3;
    ProductLength(g);
    ThreeToTheSeventh(|g.ifr|, |g.admission|, |g.duration|, |g.mortality|, |g.test|, |g.serialInterval|, |g.window|);
  }

  lemma ThreeToTheSeventh(a: nat, b: nat, c: nat, d: nat, e: nat, f: nat, h: nat)
    requires a == 3 && b == 3 && c == 3 && d == 3 && e == 3 && f == 3 && h == 3
    ensures a * (b * (c * (d * (e * (f * h))))) == 2187
  {
  }

  /** Per IFR value, the default admission delays 7, 10 and 14 contribute 162, 243 and 243 sets. */
  lemma DefaultAdmissionWeights()
    ensures SumOver(DefaultGrid.admission, AdmissionWeight(DefaultGrid)) == 648
  {
    var g := DefaultGrid;
    var w := AdmissionWeight(g);
    assert CountAbove(g.mortality, 7) == 3 && CountBelow(g.test, 7) == 2;
    assert CountAbove(g.mortality, 10) == 3 && CountBelow(g.test, 10) == 3;
    assert CountAbove(g.mortality, 14) == 3 && CountBelow(g.test, 14) == 3;
    assert w(7) == 162 && w(10) == 243 && w(14) == 243;
    assert SumOver(g.admission[1..][1..][1..], w) == 0;
  }

  /** Of the 2187 default combinations, 1944 are admissible. */
  lemma DefaultScenarioCount()
    ensures |Filter(Product(DefaultGrid))| == 1944
  {
    FilterProductLength(DefaultGrid);
    DefaultAdmissionWeights();
  }

  /**
    On the default grid the only combinations the filter drops are those with
    admission delay 7 and test delay 7. The combinations are the parameter sets drawn
    from the lists (`ProductMembers`, `GeneratedOnce`).
   */
  lemma DefaultExclusions(p: ScenarioParameters)
    requires Drawn(DefaultGrid, p)
    ensures !Admissible(p) <==> p.medianTimeToAdmission == 7 && p.medianTimeFromExposureToTest == 7
  {
  }

  lemma DefaultDistinct()
    ensures Distinct(DefaultGrid)
  {
  }

  /** The `foreach` over the product: each admissible set is appended to `scenarios`, in order. */
  method AppendAdmissible(scenarios: seq<ScenarioParameters>, all: seq<ScenarioParameters>)
    returns (r: seq<ScenarioParameters>)
    ensures r == scenarios + Filter(all)
  {
    r := scenarios;
    var k := 0;
    while k < |all|
      invariant 0 <= k <= |all|
      invariant r == scenarios + Filter(all[..k])
    {
      FilterSnoc(all, k);
      if Admissible(all[k]) {
        r := r + [all[k]];
      }
      k := k + 1;
    }
    assert all[..k] == all;
  }

  /** The scenario set: the value lists and the parameter sets generated from them. */
  class AllScenarios {
    const grid: Grid
    var scenarios: seq<ScenarioParameters>

    constructor ()
      ensures grid == DefaultGrid && scenarios == []
    {
      grid := DefaultGrid;
      scenarios := [];
    }

    /** Walk the product in order and append every admissible parameter set. */
    method GenerateScenarioParameters()
      modifies this
      ensures scenarios == old(scenarios) + Filter(Product(grid))
    {
      scenarios := AppendAdmissible(scenarios, Product(grid));
    }
  }
}
