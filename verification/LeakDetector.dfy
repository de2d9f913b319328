/**
 Growth detection on one resource total: the series of comparable observations, the
 shape checks a window must pass, and the choice of the alert among the windows.
 Values and times are reals; rounding is not modelled.
 */
module LeakDetector {

  import opened Wrappers

  const MIN_WINDOW_POINTS := 4
  const MIN_WINDOW_COVERAGE := 0.85
  const MIN_MONOTONIC_RATIO := 0.65
  const MAX_DROP_RATIO := 0.15

  // ----- Shape ratios -----

  /** The steps that do not fall. */
  function Rises(values: seq<real>): nat {
    if |values| < 2 then 0
    else
      var n := |values| - 1;
      Rises(values[..n]) + if values[n] >= values[n - 1] then 1 else 0
  }

  function Peak(values: seq<real>): real
    requires values != []
  {
    var n := |values| - 1;
    if n == 0 then values[0] else Larger(Peak(values[..n]), values[n])
  }

  function Larger(a: real, b: real): real {
    if a < b then b else a
  }

  /** The values below everything's peak before them. */
  function Drops(values: seq<real>): nat {
    if |values| < 2 then 0
    else
      var n := |values| - 1;
      Drops(values[..n]) + if values[n] < Peak(values[..n]) then 1 else 0
  }

  function Ratio(part: nat, values: seq<real>): real {
    if |values| < 2 then 0.0 else part as real / (|values| - 1) as real
  }

  function MonotonicRatio(values: seq<real>): real {
    Ratio(Rises(values), values)
  }

  method MonotonicIncreaseRatio(values: seq<real>) returns (ratio: real)
    ensures ratio == MonotonicRatio(values)
  {
    if |values| < 2 {
      return 0.0;
    }
    var increases := 0;
    for i := 1 to |values|
      invariant increases == Rises(values[..i])
    {
      assert values[..i + 1][..i] == values[..i];
      if values[i] >= values[i - 1] {
        increases := increases + 1;
      }
    }
    assert values[..|values|] == values;
    ratio := increases as real / (|values| - 1) as real;
  }

  method DropRatio(values: seq<real>) returns (ratio: real)
    ensures ratio == Ratio(Drops(values), values)
  {
    if |values| < 2 {
      return 0.0;
    }
    var peak := values[0];
    var drops := 0;
    for i := 1 to |values|
      invariant peak == Peak(values[..i]) && drops == Drops(values[..i])
    {
      assert values[..i + 1][..i] == values[..i];
      if values[i] < peak {
        drops := drops + 1;
      }
      peak := Larger(peak, values[i]);
    }
    assert values[..|values|] == values;
    ratio := drops as real / (|values| - 1) as real;
  }

  lemma {:induction false} PeakBounds(values: seq<real>, i: nat)
    requires i < |values|
    ensures values[i] <= Peak(values)
  {
    if i < |values| - 1 {
      PeakBounds(values[..|values| - 1], i);
    }
  }

  /** A step that falls leaves a value below the peak: every step rises or drops. */
  lemma {:induction false} RisesAndDrops(values: seq<real>)
    requires |values| >= 1
    ensures Rises(values) + Drops(values) >= |values| - 1
  {
    if |values| >= 2 {
      var n := |values| - 1;
      RisesAndDrops(values[..n]);
      PeakBounds(values[..n], n - 1);
    }
  }

  /** The drop check alone already implies the check on monotonic steps. */
  lemma FewDropsAreMonotonic(values: seq<real>)
    requires |values| >= 2
    ensures MonotonicRatio(values) + Ratio(Drops(values), values) >= 1.0
    ensures Ratio(Drops(values), values) <= MAX_DROP_RATIO ==> MonotonicRatio(values) >= MIN_MONOTONIC_RATIO
  {
    RisesAndDrops(values);
    var r, d, n := Rises(values) as real, Drops(values) as real, (|values| - 1) as real;
    assert r + d >= n;
    hide Rises, Drops;
    SharesReachOne(r, d, n);
  }

  lemma ScaledLess(x: real, y: real, d: real)
    requires x < y && d > 0.0
    ensures x * d < y * d
  {
  }

  lemma SharesReachOne(r: real, d: real, n: real)
    requires n > 0.0 && r + d >= n
    ensures r / n + d / n >= 1.0
  {
    var q := r / n + d / n;
    assert q * n == r / n * n + d / n * n == r + d;
    if q < 1.0 {
      ScaledLess(q, 1.0, n);
    }
  }

  // ----- Least squares -----

  function Sum(xs: seq<real>): real {
    if xs == [] then 0.0 else Sum(xs[..|xs| - 1]) + xs[|xs| - 1]
  }

  function Mean(xs: seq<real>): real
    requires xs != []
  {
    Sum(xs) / |xs| as real
  }

  /** The sum of the products of what is left of xs and ys after a and b. */
  function Cross(xs: seq<real>, ys: seq<real>, a: real, b: real): real
    requires |xs| == |ys|
  {
    if xs == [] then 0.0
    else
      var n := |xs| - 1;
      Cross(xs[..n], ys[..n], a, b) + Times(xs[n] - a, ys[n] - b)
  }

  function Times(x: real, y: real): real {
    x * y
  }

  function Shifted(times: seq<real>): (r: seq<real>)
    requires times != []
    ensures |r| == |times| && forall i | 0 <= i < |r| :: r[i] == times[i] - times[0]
  {
    seq(|times|, i requires 0 <= i < |times| => times[i] - times[0])
  }

  function Slope(times: seq<real>, values: seq<real>): real {
    if |values| < 2 || |times| != |values| then 0.0
    else
      var xs := Shifted(times);
      var square := Cross(xs, xs, Mean(xs), Mean(xs));
      if square == 0.0 then 0.0 else Cross(xs, values, Mean(xs), Mean(values)) / square
  }

  ghost predicate Ascending(xs: seq<real>) {
    forall i, j | 0 <= i < j < |xs| :: xs[i] < xs[j]
  }

  ghost predicate NonDecreasing(ys: seq<real>) {
    forall i, j | 0 <= i < j < |ys| :: ys[i] <= ys[j]
  }

  ghost predicate NonIncreasing(ys: seq<real>) {
    forall i, j | 0 <= i < j < |ys| :: ys[i] >= ys[j]
  }

  function Deviation(xs: seq<real>, a: real): real {
    if xs == [] then 0.0 else Deviation(xs[..|xs| - 1], a) + (xs[|xs| - 1] - a)
  }

  lemma {:induction false} DeviationIs(xs: seq<real>, a: real)
    ensures Deviation(xs, a) == Sum(xs) - |xs| as real * a
  {
    if xs != [] {
      var n := |xs| - 1;
      DeviationIs(xs[..n], a);
      assert |xs| as real * a == n as real * a + a;
    }
  }

  lemma DeviationFromMean(xs: seq<real>)
    requires xs != []
    ensures Deviation(xs, Mean(xs)) == 0.0
  {
    DeviationIs(xs, Mean(xs));
  }

  lemma TimesDistributes(u: real, x: real, y: real)
    ensures Times(u, x + y) == Times(u, x) + Times(u, y)
  {
  }

  lemma TimesShift(x: real, y: real, b: real, c: real)
    ensures Times(x, y - b) == Times(x, y - c) + Times(c - b, x)
  {
  }

  /** Moving what the values are measured against costs a multiple of the deviation. */
  lemma {:induction false} CrossShift(xs: seq<real>, ys: seq<real>, a: real, b: real, c: real)
    requires |xs| == |ys|
    ensures Cross(xs, ys, a, b) == Cross(xs, ys, a, c) + Times(c - b, Deviation(xs, a))
  {
    if xs != [] {
      var n := |xs| - 1;
      CrossShift(xs[..n], ys[..n], a, b, c);
      TimesDistributes(c - b, Deviation(xs[..n], a), xs[n] - a);
      TimesShift(xs[n] - a, ys[n], b, c);
      hide Times;
    }
  }

  /** Against the mean, the values may be measured from anywhere. */
  lemma CrossPivot(xs: seq<real>, ys: seq<real>, b: real, c: real)
    requires |xs| == |ys| && xs != []
    ensures Cross(xs, ys, Mean(xs), b) == Cross(xs, ys, Mean(xs), c)
  {
    CrossShift(xs, ys, Mean(xs), b, c);
    DeviationFromMean(xs);
    hide Mean, Cross, Deviation;
  }

  lemma {:induction false} DeviationAbove(xs: seq<real>, a: real)
    requires xs != [] && Ascending(xs) && a <= xs[0]
    ensures Deviation(xs, a) >= 0.0 && (|xs| > 1 ==> Deviation(xs, a) > 0.0)
  {
    if |xs| > 1 {
      DeviationAbove(xs[..|xs| - 1], a);
    }
  }

  lemma {:induction false} DeviationBelow(xs: seq<real>, a: real)
    requires xs != [] && Ascending(xs) && a >= xs[|xs| - 1]
    ensures Deviation(xs, a) <= 0.0 && (|xs| > 1 ==> Deviation(xs, a) < 0.0)
  {
    if |xs| > 1 {
      DeviationBelow(xs[..|xs| - 1], a);
    }
  }

  /** The mean of ascending numbers lies strictly between the first and the last. */
  lemma MeanBetween(xs: seq<real>)
    requires |xs| >= 2 && Ascending(xs)
    ensures xs[0] < Mean(xs) < xs[|xs| - 1]
  {
    DeviationFromMean(xs);
    hide Mean, Deviation;
    if Mean(xs) <= xs[0] {
      DeviationAbove(xs, Mean(xs));
    }
    if Mean(xs) >= xs[|xs| - 1] {
      DeviationBelow(xs, Mean(xs));
    }
  }

  /** Each product's sign; the sum's follows. */
  lemma {:induction false} CrossSign(xs: seq<real>, ys: seq<real>, a: real, b: real)
    requires |xs| == |ys| && forall i | 0 <= i < |xs| :: Times(xs[i] - a, ys[i] - b) >= 0.0
    ensures Cross(xs, ys, a, b) >= 0.0
    ensures forall i | 0 <= i < |xs| :: Cross(xs, ys, a, b) >= Times(xs[i] - a, ys[i] - b)
  {
    hide Times;
    if xs != [] {
      var n := |xs| - 1;
      assert forall i | 0 <= i < n :: xs[..n][i] == xs[i] && ys[..n][i] == ys[i];
      CrossSign(xs[..n], ys[..n], a, b);
    }
  }

  lemma ProductSign(x: real, y: real)
    ensures (x <= 0.0 && y <= 0.0) || (x >= 0.0 && y >= 0.0) ==> Times(x, y) >= 0.0
    ensures (x < 0.0 && y < 0.0) || (x > 0.0 && y > 0.0) ==> Times(x, y) > 0.0
  {
  }

  /** The first position at or beyond the mean. */
  lemma Pivot(xs: seq<real>) returns (k: nat)
    requires |xs| >= 2 && Ascending(xs)
    ensures 0 < k < |xs| && (forall i | 0 <= i < k :: xs[i] < Mean(xs)) && (forall i | k <= i < |xs| :: xs[i] >= Mean(xs))
  {
    MeanBetween(xs);
    hide Mean;
    k := 1;
    while xs[k] < Mean(xs)
      invariant 0 < k < |xs| && forall i | 0 <= i < k :: xs[i] < Mean(xs)
      decreases |xs| - k
    {
      k := k + 1;
    }
  }

  /** Chebyshev's argument: values that never fall over ascending times do not correlate negatively. */
  lemma RisingCross(xs: seq<real>, ys: seq<real>)
    requires |xs| == |ys| >= 2 && Ascending(xs) && NonDecreasing(ys)
    ensures Cross(xs, ys, Mean(xs), Mean(ys)) >= 0.0
    ensures ys[0] < ys[|ys| - 1] ==> Cross(xs, ys, Mean(xs), Mean(ys)) > 0.0
  {
    hide *;
    var m, n := Mean(xs), |xs| - 1;
    var k := Pivot(xs);
    MeanBetween(xs);
    CrossPivot(xs, ys, Mean(ys), ys[k]);
    ProductsRise(xs, ys, m, k);
    CrossSign(xs, ys, m, ys[k]);
    if ys[0] < ys[n] {
      EndsAround(ys, k);
      ProductSign(xs[0] - m, ys[0] - ys[k]);
      ProductSign(xs[n] - m, ys[n] - ys[k]);
    }
  }

  lemma EndsAround(ys: seq<real>, k: nat)
    requires NonDecreasing(ys) && k < |ys|
    ensures ys[0] <= ys[k] <= ys[|ys| - 1]
  {
  }

  /** On either side of the pivot, both factors have the same sign. */
  lemma ProductsRise(xs: seq<real>, ys: seq<real>, m: real, k: nat)
    requires |xs| == |ys| && k < |xs| && NonDecreasing(ys)
    requires (forall i | 0 <= i < k :: xs[i] < m) && (forall i | k <= i < |xs| :: xs[i] >= m)
    ensures forall i | 0 <= i < |xs| :: Times(xs[i] - m, ys[i] - ys[k]) >= 0.0
  {
    hide Times;
    forall i | 0 <= i < |xs|
      ensures Times(xs[i] - m, ys[i] - ys[k]) >= 0.0
    {
      ProductSign(xs[i] - m, ys[i] - ys[k]);
    }
  }

  function Negated(ys: seq<real>): (r: seq<real>)
    ensures |r| == |ys| && forall i | 0 <= i < |r| :: r[i] == -ys[i]
  {
    seq(|ys|, i requires 0 <= i < |ys| => -ys[i])
  }

  lemma TimesNegated(x: real, y: real, b: real)
    ensures Times(x, -y + b) == -Times(x, y - b)
  {
  }

  lemma {:induction false} CrossNegated(xs: seq<real>, ys: seq<real>, a: real, b: real)
    requires |xs| == |ys|
    ensures Cross(xs, Negated(ys), a, -b) == -Cross(xs, ys, a, b)
  {
    if xs != [] {
      var n := |xs| - 1;
      assert Negated(ys)[..n] == Negated(ys[..n]);
      CrossNegated(xs[..n], ys[..n], a, b);
      TimesNegated(xs[n] - a, ys[n], b);
      hide Times;
    }
  }

  lemma SquarePositive(xs: seq<real>)
    requires |xs| >= 2 && Ascending(xs)
    ensures Cross(xs, xs, Mean(xs), Mean(xs)) > 0.0
  {
    RisingCross(xs, xs);
  }

  lemma ShiftedAscending(times: seq<real>)
    requires times != [] && Ascending(times)
    ensures Ascending(Shifted(times))
  {
  }

  /** The slope's sign on values that only rise, or only fall. */
  lemma SlopeSign(times: seq<real>, values: seq<real>)
    requires |times| == |values| >= 2 && Ascending(times)
    ensures NonDecreasing(values) && values[0] < values[|values| - 1] ==> Slope(times, values) > 0.0
    ensures NonIncreasing(values) ==> Slope(times, values) <= 0.0
  {
    var xs := Shifted(times);
    var square, cross := Cross(xs, xs, Mean(xs), Mean(xs)), Cross(xs, values, Mean(xs), Mean(values));
    ShiftedAscending(times);
    SquarePositive(xs);
    if NonDecreasing(values) {
      RisingCross(xs, values);
    }
    if NonIncreasing(values) {
      var down := Negated(values);
      RisingCross(xs, down);
      CrossPivot(xs, down, Mean(down), -Mean(values));
      CrossNegated(xs, values, Mean(xs), Mean(values));
    }
    assert Slope(times, values) == cross / square;
    hide Cross, Mean;
    if cross > 0.0 {
      assert cross / square > 0.0;
    } else {
      assert cross / square <= 0.0;
    }
  }

  // ----- The series -----

  datatype Point = Point(stamp: real, value: real)

  /** One sample's view of a resource: unavailable when nothing was measured; segment names the unreadable PIDs. */
  datatype Observation = Observation(stamp: real, available: bool, segment: set<nat>, value: real)

  ghost predicate Stamped(points: seq<Point>) {
    forall i, j | 0 <= i < j < |points| :: points[i].stamp < points[j].stamp
  }

  predicate Matches(p: Point, segment: Option<set<nat>>, o: Observation) {
    o.available && segment == Some(o.segment) && p == Point(o.stamp, o.value)
  }

  /** The points are the newest observations, all of one segment and at increasing times. */
  ghost predicate NewestOf(points: seq<Point>, segment: Option<set<nat>>, log: seq<Observation>) {
    && |points| <= |log|
    && Stamped(points)
    && forall i | 0 <= i < |points| :: Matches(points[i], segment, log[|log| - |points| + i])
  }

  /** What came just before the points does not compare with them, or is too old. */
  ghost predicate Maximal(points: seq<Point>, segment: Option<set<nat>>, log: seq<Observation>, maxAge: real) {
    points != [] && |points| < |log| ==>
      var before := log[|log| - |points| - 1];
      || !before.available || segment != Some(before.segment)
      || before.stamp >= points[0].stamp || before.stamp < points[|points| - 1].stamp - maxAge
  }

  lemma StampedNext(points: seq<Point>, p: Point)
    requires Stamped(points)
    ensures Stamped([p])
    ensures (points == [] || points[|points| - 1].stamp < p.stamp) ==> Stamped(points + [p])
  {
  }

  lemma StampedRest(points: seq<Point>)
    requires Stamped(points) && points != []
    ensures Stamped(points[1..])
  {
  }

  class ResourceSeries {
    var points: seq<Point>
    var segment: Option<set<nat>>
    ghost var log: seq<Observation>

    constructor ()
      ensures points == [] && log == [] && segment == None
    {
      points, segment, log := [], None, [];
    }

    ghost predicate Valid(maxAge: real)
      reads this
    {
      SeriesOk(points, segment, log, maxAge)
    }

    /** A failed measurement costs the series all its points. */
    method Interrupt()
      modifies `points, `segment
      ensures points == [] && segment == None
    {
      points := [];
      segment := None;
    }

    /** Points of another set of processes are not comparable: they go. */
    method ContinueSegment(next: set<nat>) returns (kept: bool)
      modifies `points, `segment
      ensures kept <==> old(segment) == Some(next)
      ensures segment == Some(next) && points == if kept then old(points) else []
    {
      if segment == Some(next) {
        return true;
      }
      points := [];
      segment := Some(next);
      kept := false;
    }

    /** Append a point; a clock that did not advance costs all older ones, age those it has passed. */
    method Add(stamp: real, value: real, maxAge: real) returns (ghost cut: nat)
      requires maxAge >= 0.0 && Stamped(points)
      modifies `points
      ensures cut <= |old(points)| && points == old(points)[cut..] + [Point(stamp, value)] && Stamped(points)
      ensures points[0].stamp >= stamp - maxAge
      ensures old(points) != [] && old(points)[|old(points)| - 1].stamp >= stamp ==> cut == |old(points)|
      ensures cut > 0 ==>
        old(points)[|old(points)| - 1].stamp >= stamp || old(points)[cut - 1].stamp < stamp - maxAge
    {
      ghost var before, p := points, Point(stamp, value);
      cut := 0;
      StampedNext(before, p);
      hide Stamped;
      if points != [] && stamp <= points[|points| - 1].stamp {
        points := [];
        cut := |before|;
      }
      points := points + [Point(stamp, value)];
      assert points == before[cut..] + [p];
      while points != [] && points[0].stamp < stamp - maxAge
        invariant cut <= |before| && points == before[cut..] + [Point(stamp, value)]
        invariant Stamped(points)
        invariant before != [] && before[|before| - 1].stamp >= stamp ==> cut == |before|
        invariant cut > 0 ==> before[|before| - 1].stamp >= stamp || before[cut - 1].stamp < stamp - maxAge
        decreases |points|
      {
        assert cut < |before| && points[0] == before[cut];
        StampedRest(points);
        points := points[1..];
        cut := cut + 1;
      }
    }

    /** One sample's observation joins the series, breaks it, or starts it over. */
    method Extend(o: Observation, maxAge: real)
      requires Valid(maxAge) && maxAge >= 0.0
      modifies this
      ensures Valid(maxAge) && log == old(log) + [o]
      ensures !o.available ==> points == []
      ensures o.available ==> points != [] && points[|points| - 1] == Point(o.stamp, o.value)
      ensures o.available ==> points[0].stamp >= o.stamp - maxAge
    {
      ghost var was, kept, past := points, segment, log;
      log := log + [o];
      if !o.available {
        Interrupt();
        return;
      }
      var same := ContinueSegment(o.segment);
      ghost var cut := Add(o.stamp, o.value, maxAge);
      ExtendKeeps(was, kept, past, o, if same then was else [], cut, points, maxAge);
    }
  }

  /** Recorded observations, and the segment the last of them belongs to. */
  ghost predicate SeriesOk(points: seq<Point>, segment: Option<set<nat>>, log: seq<Observation>, maxAge: real) {
    && NewestOf(points, segment, log) && Maximal(points, segment, log, maxAge)
    && (points == [] && log != [] ==> !log[|log| - 1].available)
    && (log != [] && log[|log| - 1].available ==> segment == Some(log[|log| - 1].segment))
  }

  lemma ExtendKeeps(was: seq<Point>, segment: Option<set<nat>>, log: seq<Observation>, o: Observation,
                    before: seq<Point>, cut: nat, points: seq<Point>, maxAge: real)
    requires SeriesOk(was, segment, log, maxAge) && o.available
    requires before == if segment == Some(o.segment) then was else []
    requires cut <= |before| && points == before[cut..] + [Point(o.stamp, o.value)] && Stamped(points)
    requires before != [] && before[|before| - 1].stamp >= o.stamp ==> cut == |before|
    requires cut > 0 ==> before[|before| - 1].stamp >= o.stamp || before[cut - 1].stamp < o.stamp - maxAge
    ensures SeriesOk(points, Some(o.segment), log + [o], maxAge)
  {
    assert NewestOf(before, Some(o.segment), log);
    NewestExtended(before, log, o, cut);
    assert before == [] || before == was;
    assert before != [] ==> Maximal(before, Some(o.segment), log, maxAge);
    assert before == [] && log != [] ==> !log[|log| - 1].available || log[|log| - 1].segment != o.segment;
    hide SeriesOk;
    StillMaximal(log, o, before, cut, points, maxAge);
    hide NewestOf, Maximal;
    SeriesBegun(points, log, o, maxAge);
  }

  lemma SeriesBegun(points: seq<Point>, log: seq<Observation>, o: Observation, maxAge: real)
    requires NewestOf(points, Some(o.segment), log + [o]) && Maximal(points, Some(o.segment), log + [o], maxAge)
    requires points != []
    ensures SeriesOk(points, Some(o.segment), log + [o], maxAge)
  {
    hide NewestOf, Maximal;
  }

  /** What now comes just before the points was cut off for its age or clock, or did not compare before. */
  lemma StillMaximal(log: seq<Observation>, o: Observation, before: seq<Point>, cut: nat, points: seq<Point>, maxAge: real)
    requires NewestOf(before, Some(o.segment), log)
    requires if before != [] then Maximal(before, Some(o.segment), log, maxAge)
             else log != [] ==> !log[|log| - 1].available || log[|log| - 1].segment != o.segment
    requires cut <= |before| && points == before[cut..] + [Point(o.stamp, o.value)] && Stamped(points)
    requires before != [] && before[|before| - 1].stamp >= o.stamp ==> cut == |before|
    requires cut > 0 ==> before[|before| - 1].stamp >= o.stamp || before[cut - 1].stamp < o.stamp - maxAge
    ensures Maximal(points, Some(o.segment), log + [o], maxAge)
  {
    var n, after := |points| - 1, log + [o];
    if |points| < |after| {
      assert after[|after| - |points| - 1] == log[|log| - n - 1];
      if cut > 0 {
        var dropped := log[|log| - |before| + (cut - 1)];
        assert Matches(before[cut - 1], Some(o.segment), dropped);
        hide NewestOf, Stamped;
        if cut == |before| {
          assert points[0].stamp == o.stamp;
        }
      } else if before != [] {
        hide NewestOf, Stamped;
        assert points[0] == before[0];
      }
    }
  }

  lemma NewestExtended(before: seq<Point>, log: seq<Observation>, o: Observation, cut: nat)
    requires NewestOf(before, Some(o.segment), log) && cut <= |before| && o.available
    requires Stamped(before[cut..] + [Point(o.stamp, o.value)])
    ensures NewestOf(before[cut..] + [Point(o.stamp, o.value)], Some(o.segment), log + [o])
  {
    var points, after := before[cut..] + [Point(o.stamp, o.value)], log + [o];
    forall i | 0 <= i < |points|
      ensures Matches(points[i], Some(o.segment), after[|after| - |points| + i])
    {
      if i < |points| - 1 {
        assert Matches(before[cut + i], Some(o.segment), log[|log| - |before| + (cut + i)]);
      }
    }
  }

  // ----- Judging windows -----

  datatype Severity = NoSeverity | Low | Medium | High | Critical

  function Rank(s: Severity): nat {
    match s
    case NoSeverity => 0
    case Low => 1
    case Medium => 2
    case High => 3
    case Critical => 4
  }

  /** What is critical for one resource: so much more, or so much more a second. */
  datatype Thresholds = Thresholds(criticalDelta: real, criticalSlope: real)

  type Windows = w: seq<real> | |w| > 0 && w[0] > 0.0 && forall i, j | 0 <= i < j < |w| :: w[i] < w[j] witness [10.0]

  function Smaller(a: real, b: real): real {
    if b < a then b else a
  }

  function SeverityScore(slope: real, delta: real, monotonic: real, window: real, limits: Thresholds): real
    requires limits.criticalDelta > 0.0 && limits.criticalSlope > 0.0
  {
    Smaller(delta / limits.criticalDelta, 3.0) + Smaller(slope / limits.criticalSlope, 3.0) + monotonic
    + if window >= 60.0 then 0.5 else if window >= 30.0 then 0.25 else 0.0
  }

  function SeverityForScore(score: real): Severity {
    if score >= 4.5 then Critical
    else if score >= 3.5 then High
    else if score >= 2.5 then Medium
    else if score >= 1.8 then Low
    else NoSeverity
  }

  datatype Verdict = TooFewSamples | ShortSpan | NoUpwardTrend | NotMonotonic | TooManyDrops | BelowThresholds | Qualified

  datatype Evaluation = Evaluation(window: real, verdict: Verdict, severity: Severity, points: nat)

  datatype Alert = Alert(severity: Severity, window: real, slope: real, current: real, baseline: real, since: real)

  function InWindow(points: seq<Point>, cutoff: real): (r: seq<Point>)
    ensures |r| <= |points|
  {
    if points == [] then []
    else
      InWindow(points[..|points| - 1], cutoff)
      + if points[|points| - 1].stamp >= cutoff then [points[|points| - 1]] else []
  }

  function Stamps(points: seq<Point>): (r: seq<real>)
    ensures |r| == |points| && forall i | 0 <= i < |r| :: r[i] == points[i].stamp
  {
    seq(|points|, i requires 0 <= i < |points| => points[i].stamp)
  }

  function ValuesOf(points: seq<Point>): (r: seq<real>)
    ensures |r| == |points| && forall i | 0 <= i < |r| :: r[i] == points[i].value
  {
    seq(|points|, i requires 0 <= i < |points| => points[i].value)
  }

  predicate Eligible(ps: seq<Point>, window: real) {
    |ps| >= MIN_WINDOW_POINTS && ps[|ps| - 1].stamp - ps[0].stamp >= window * MIN_WINDOW_COVERAGE
  }

  /** Why a judged window signals growth, or does not; the first failing check names the reason. */
  function Judged(ps: seq<Point>, current: real, window: real, limits: Thresholds): (Verdict, Severity)
    requires ps != [] && limits.criticalDelta > 0.0 && limits.criticalSlope > 0.0
  {
    var values := ValuesOf(ps);
    var slope, monotonic := Slope(Stamps(ps), values), MonotonicRatio(values);
    if slope <= 0.0 then (NoUpwardTrend, NoSeverity)
    else if monotonic < MIN_MONOTONIC_RATIO then (NotMonotonic, NoSeverity)
    else if Ratio(Drops(values), values) > MAX_DROP_RATIO then (TooManyDrops, NoSeverity)
    else
      var severity := SeverityForScore(SeverityScore(slope, current - values[0], monotonic, window, limits));
      (if severity == NoSeverity then BelowThresholds else Qualified, severity)
  }

  function Evaluated(points: seq<Point>, now: real, current: real, window: real, limits: Thresholds): Evaluation
    requires limits.criticalDelta > 0.0 && limits.criticalSlope > 0.0
  {
    var ps := InWindow(points, now - window);
    if |ps| < MIN_WINDOW_POINTS then Evaluation(window, TooFewSamples, NoSeverity, |ps|)
    else if !Eligible(ps, window) then Evaluation(window, ShortSpan, NoSeverity, |ps|)
    else
      var (verdict, severity) := Judged(ps, current, window, limits);
      Evaluation(window, verdict, severity, |ps|)
  }

  /** The alert of a qualified window. */
  function AlertOf(points: seq<Point>, now: real, current: real, window: real, severity: Severity): Alert {
    var ps := InWindow(points, now - window);
    if ps == [] then Alert(severity, window, 0.0, current, current, now)
    else Alert(severity, window, Slope(Stamps(ps), ValuesOf(ps)), current, ps[0].value, ps[0].stamp)
  }

  /** The strongest window, and among equals the shortest: the first of the ascending windows. */
  ghost predicate Best(alert: Option<Alert>, evaluations: seq<Evaluation>, points: seq<Point>, now: real, current: real) {
    match alert
    case None => forall i | 0 <= i < |evaluations| :: evaluations[i].verdict != Qualified
    case Some(a) =>
      exists i | 0 <= i < |evaluations| ::
        && evaluations[i].verdict == Qualified
        && a == AlertOf(points, now, current, evaluations[i].window, evaluations[i].severity)
        && (forall j | 0 <= j < |evaluations| && evaluations[j].verdict == Qualified ::
              Rank(evaluations[j].severity) <= Rank(evaluations[i].severity))
        && (forall j | 0 <= j < i && evaluations[j].verdict == Qualified ::
              Rank(evaluations[j].severity) < Rank(evaluations[i].severity))
  }

  /** One evaluation per window, and the alert of the worst of them, if any is bad enough. */
  method EvaluateWindows(windows: Windows, points: seq<Point>, now: real, current: real, limits: Thresholds)
    returns (best: Option<Alert>, evaluations: seq<Evaluation>)
    requires limits.criticalDelta > 0.0 && limits.criticalSlope > 0.0
    ensures |evaluations| == |windows|
    ensures forall i | 0 <= i < |windows| :: evaluations[i] == Evaluated(points, now, current, windows[i], limits)
    ensures Best(best, evaluations, points, now, current)
  {
    hide Slope, Drops, Rises, SeverityScore, InWindow;
    best, evaluations := None, [];
    ghost var at := 0;
    for k := 0 to |windows|
      invariant |evaluations| == k
      invariant forall i | 0 <= i < k :: evaluations[i] == Evaluated(points, now, current, windows[i], limits)
      invariant best.None? ==> forall i | 0 <= i < k :: evaluations[i].verdict != Qualified
      invariant best.Some? ==>
        && 0 <= at < k && evaluations[at].verdict == Qualified
        && best.value == AlertOf(points, now, current, windows[at], evaluations[at].severity)
        && (forall j | 0 <= j < k && evaluations[j].verdict == Qualified ::
              Rank(evaluations[j].severity) <= Rank(evaluations[at].severity))
        && (forall j | 0 <= j < at && evaluations[j].verdict == Qualified ::
              Rank(evaluations[j].severity) < Rank(evaluations[at].severity))
    {
      var window := windows[k];
      var ps := InWindow(points, now - window);
      if !Eligible(ps, window) {
        evaluations := evaluations
          + [Evaluation(window, if |ps| < MIN_WINDOW_POINTS then TooFewSamples else ShortSpan, NoSeverity, |ps|)];
        continue;
      }
      var values := ValuesOf(ps);
      var slope := Slope(Stamps(ps), values);
      var monotonic := MonotonicIncreaseRatio(values);
      var drop := DropRatio(values);
      if slope <= 0.0 || monotonic < MIN_MONOTONIC_RATIO {
        evaluations := evaluations
          + [Evaluation(window, if slope <= 0.0 then NoUpwardTrend else NotMonotonic, NoSeverity, |ps|)];
        continue;
      }
      if drop > MAX_DROP_RATIO {
        evaluations := evaluations + [Evaluation(window, TooManyDrops, NoSeverity, |ps|)];
        continue;
      }
      var score := SeverityScore(slope, current - values[0], monotonic, window, limits);
      var severity := SeverityForScore(score);
      if severity == NoSeverity {
        evaluations := evaluations + [Evaluation(window, BelowThresholds, NoSeverity, |ps|)];
        continue;
      }
      evaluations := evaluations + [Evaluation(window, Qualified, severity, |ps|)];
      var candidate := Alert(severity, window, slope, current, values[0], ps[0].stamp);
      if best.None? || Rank(severity) > Rank(best.value.severity) {
        best, at := Some(candidate), k;
      }
    }
    if best.Some? {
      assert evaluations[at].window == windows[at];
    }
  }

  lemma {:induction false} InWindowStamped(points: seq<Point>, cutoff: real)
    requires Stamped(points)
    ensures Stamped(InWindow(points, cutoff))
    ensures forall p :: p in InWindow(points, cutoff) <==> p in points && p.stamp >= cutoff
  {
    if points != [] {
      var n := |points| - 1;
      InWindowStamped(points[..n], cutoff);
      assert points == points[..n] + [points[n]];
      var rest := InWindow(points[..n], cutoff);
      assert forall i | 0 <= i < |rest| :: rest[i] in points[..n];
    }
  }

  lemma {:induction false} RisingShape(values: seq<real>)
    requires |values| >= 1 && NonDecreasing(values)
    ensures Rises(values) == |values| - 1 && Drops(values) == 0 && Peak(values) == values[|values| - 1]
  {
    if |values| >= 2 {
      RisingShape(values[..|values| - 1]);
    }
  }

  /** Values that never rise never qualify. */
  lemma FallingNeverQualifies(points: seq<Point>, now: real, current: real, window: real, limits: Thresholds)
    requires Stamped(points) && limits.criticalDelta > 0.0 && limits.criticalSlope > 0.0
    requires NonIncreasing(ValuesOf(InWindow(points, now - window)))
    ensures Evaluated(points, now, current, window, limits).verdict in {TooFewSamples, ShortSpan, NoUpwardTrend}
  {
    var ps := InWindow(points, now - window);
    InWindowStamped(points, now - window);
    if Eligible(ps, window) {
      SlopeSign(Stamps(ps), ValuesOf(ps));
      hide Slope, SeverityScore, SeverityForScore, InWindow;
    }
  }

  /** Values that never fall, and rise, pass every shape check: only the thresholds decide. */
  lemma RisingPassesShape(points: seq<Point>, now: real, current: real, window: real, limits: Thresholds)
    requires Stamped(points) && limits.criticalDelta > 0.0 && limits.criticalSlope > 0.0
    requires var ps := InWindow(points, now - window);
      Eligible(ps, window) && NonDecreasing(ValuesOf(ps)) && ps[0].value < ps[|ps| - 1].value
    ensures Evaluated(points, now, current, window, limits).verdict in {BelowThresholds, Qualified}
  {
    var ps := InWindow(points, now - window);
    InWindowStamped(points, now - window);
    hide InWindow, Judged;
    RisingShapeOf(ps);
    PassingShape(ps, current, window, limits);
  }

  lemma RisingShapeOf(ps: seq<Point>)
    requires |ps| >= 2 && Stamped(ps) && NonDecreasing(ValuesOf(ps)) && ps[0].value < ps[|ps| - 1].value
    ensures Slope(Stamps(ps), ValuesOf(ps)) > 0.0
    ensures MonotonicRatio(ValuesOf(ps)) == 1.0 && Ratio(Drops(ValuesOf(ps)), ValuesOf(ps)) == 0.0
  {
    hide Slope, Rises, Drops, Peak, Ratio, MonotonicRatio;
    SlopeSign(Stamps(ps), ValuesOf(ps));
    RisingShape(ValuesOf(ps));
    FullRatio(ValuesOf(ps));
  }

  lemma PassingShape(ps: seq<Point>, current: real, window: real, limits: Thresholds)
    requires ps != [] && limits.criticalDelta > 0.0 && limits.criticalSlope > 0.0
    requires Slope(Stamps(ps), ValuesOf(ps)) > 0.0
    requires MonotonicRatio(ValuesOf(ps)) >= MIN_MONOTONIC_RATIO
    requires Ratio(Drops(ValuesOf(ps)), ValuesOf(ps)) <= MAX_DROP_RATIO
    ensures Judged(ps, current, window, limits).0 in {BelowThresholds, Qualified}
  {
    hide Slope, MonotonicRatio, Drops, Ratio, SeverityScore, SeverityForScore, Stamps, ValuesOf;
  }

  lemma FullRatio(values: seq<real>)
    requires |values| >= 2 && Rises(values) == |values| - 1 && Drops(values) == 0
    ensures MonotonicRatio(values) == 1.0 && Ratio(Drops(values), values) == 0.0
  {
    hide Rises, Drops;
    var n := (|values| - 1) as real;
    QuotientTimes(n, n);
    QuotientTimes(0.0, n);
    ScaledBack(n / n, 1.0, n);
    ScaledBack(1.0, n / n, n);
    ScaledBack(0.0 / n, 0.0, n);
    ScaledBack(0.0, 0.0 / n, n);
  }

  lemma ScaledBack(x: real, y: real, d: real)
    requires d > 0.0 && x * d <= y * d
    ensures x <= y
  {
    if x > y {
      ScaledLess(y, x, d);
    }
  }

  lemma QuotientTimes(a: real, d: real)
    requires d > 0.0
    ensures a / d * d == a
  {
  }

  lemma DivideMonotone(a: real, b: real, d: real)
    requires a <= b && d > 0.0
    ensures a / d <= b / d
  {
    QuotientTimes(a, d);
    QuotientTimes(b, d);
    ScaledBack(a / d, b / d, d);
  }

  /** More growth, a steeper or steadier rise, or a longer window never lowers the severity. */
  lemma MoreGrowthIsNoMilder(slope: real, delta: real, monotonic: real, window: real, limits: Thresholds,
                             slope': real, delta': real, monotonic': real, window': real)
    requires limits.criticalDelta > 0.0 && limits.criticalSlope > 0.0
    requires slope <= slope' && delta <= delta' && monotonic <= monotonic' && window <= window'
    ensures Rank(SeverityForScore(SeverityScore(slope, delta, monotonic, window, limits)))
         <= Rank(SeverityForScore(SeverityScore(slope', delta', monotonic', window', limits)))
  {
    DivideMonotone(delta, delta', limits.criticalDelta);
    DivideMonotone(slope, slope', limits.criticalSlope);
  }
}
