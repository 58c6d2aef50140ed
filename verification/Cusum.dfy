/** src/seerflow/detection/cusum.py: two-sided CUSUM over standardised minute counts.
    Reals stand for floats, and `math.sqrt` is the parameter `sqrt`. */
module Cusum {
  import Bucketing

  const MAX_GAP_FILL := 100
  const MIN_STD := 0.0000000001

  datatype Params = Params(drift: real, threshold: real, alpha: real, warmup: nat)
  {
    predicate Valid() {
      drift > 0.0 && threshold > 0.0 && 0.0 < alpha < 1.0 && warmup >= 1
    }
  }

  datatype State = State(mean: real, variance: real, upper: real, lower: real, score: real, t: nat)

  const INITIAL := State(0.0, 1.0, 0.0, 0.0, 0.0, 0)

  type Sqrt = real -> real

  ghost predicate IsSqrt(sqrt: Sqrt) {
    forall x: real :: x >= 0.0 ==> sqrt(x) >= 0.0 && sqrt(x) * sqrt(x) == x
  }

  function Max(a: real, b: real): real { if a >= b then a else b }
  function Min(a: real, b: real): real { if a <= b then a else b }

  // ---- one model update -----------------------------------------------------------------

  function NextVariance(p: Params, s: State, count: real): real {
    p.alpha * ((count - s.mean) * (count - s.mean)) + (1.0 - p.alpha) * s.variance
  }

  function Deviation(sqrt: Sqrt, variance: real): (r: real)
    ensures r > 0.0
  {
    Max(sqrt(variance), MIN_STD)
  }

  /** The count against the mean before it and the deviation after it. */
  function Standardised(p: Params, sqrt: Sqrt, s: State, count: real): real {
    (count - s.mean) / Deviation(sqrt, NextVariance(p, s, count))
  }

  function Observe(p: Params, s: State, count: real): State {
    s.(t := s.t + 1,
       mean := p.alpha * count + (1.0 - p.alpha) * s.mean,
       variance := NextVariance(p, s, count))
  }

  /** Accumulates both sums, scores them, and starts over on a confirmed change. */
  function Accumulate(p: Params, s: State, z: real): State
    requires p.threshold > 0.0
  {
    var upper := Max(0.0, s.upper + z - p.drift);
    var lower := Max(0.0, s.lower - z - p.drift);
    var score := Min(Max(upper, lower) / p.threshold, 1.0);
    if score >= 1.0 then s.(upper := 0.0, lower := 0.0, score := 0.0)
    else s.(upper := upper, lower := lower, score := score)
  }

  function Update(p: Params, sqrt: Sqrt, s: State, count: real): State
    requires p.threshold > 0.0
  {
    if s.t == 0 then s.(t := 1, mean := count, variance := 1.0)
    else if s.t + 1 <= p.warmup then Observe(p, s, count).(score := 0.0)
    else Accumulate(p, Observe(p, s, count), Standardised(p, sqrt, s, count))
  }

  function Run(p: Params, sqrt: Sqrt, counts: seq<nat>): State
    requires p.threshold > 0.0
  {
    if counts == [] then INITIAL
    else Update(p, sqrt, Run(p, sqrt, counts[..|counts| - 1]), counts[|counts| - 1] as real)
  }

  // ---- the simple form: best suffix sums since the last reset ------------------------------

  predicate Scores(p: Params, s: State) { s.t >= 1 && s.t + 1 > p.warmup }

  function Sum(xs: seq<real>): real {
    if xs == [] then 0.0 else Sum(xs[..|xs| - 1]) + xs[|xs| - 1]
  }

  /** The term of the upward or the downward sum. */
  function Term(z: real, up: bool, drift: real): real {
    if up then z - drift else -z - drift
  }

  function Terms(zs: seq<real>, up: bool, drift: real): (r: seq<real>)
    ensures |r| == |zs| && forall i :: 0 <= i < |zs| ==> r[i] == Term(zs[i], up, drift)
  {
    seq(|zs|, i requires 0 <= i < |zs| => Term(zs[i], up, drift))
  }

  function SuffixSum(zs: seq<real>, up: bool, drift: real, k: nat): real
    requires k <= |zs|
  {
    Sum(Terms(zs[k..], up, drift))
  }

  /** `g` is the largest suffix sum; the empty suffix counts as 0. */
  ghost predicate BestSuffix(g: real, zs: seq<real>, up: bool, drift: real) {
    && (exists k :: 0 <= k <= |zs| && g == SuffixSum(zs, up, drift, k))
    && (forall k :: 0 <= k <= |zs| ==> SuffixSum(zs, up, drift, k) <= g)
  }

  ghost predicate Alarm(p: Params, zs: seq<real>) {
    exists k :: 0 <= k <= |zs|
      && (SuffixSum(zs, true, p.drift, k) >= p.threshold || SuffixSum(zs, false, p.drift, k) >= p.threshold)
  }

  /** The standardised counts since warmup or the last alarm, whichever is later. */
  ghost function Trail(p: Params, sqrt: Sqrt, counts: seq<nat>): seq<real>
    requires p.threshold > 0.0
  {
    if counts == [] then []
    else
      var init := counts[..|counts| - 1];
      var s := Run(p, sqrt, init);
      if !Scores(p, s) then []
      else
        var zs := Trail(p, sqrt, init) + [Standardised(p, sqrt, s, counts[|counts| - 1] as real)];
        if Alarm(p, zs) then [] else zs
  }

  lemma SuffixAppend(zs: seq<real>, z: real, up: bool, drift: real, k: nat)
    requires k <= |zs|
    ensures SuffixSum(zs + [z], up, drift, k) == SuffixSum(zs, up, drift, k) + Term(z, up, drift)
  {
    var longer := (zs + [z])[k..];
    assert longer == zs[k..] + [z];
    var terms := Terms(longer, up, drift);
    assert terms[..|terms| - 1] == Terms(zs[k..], up, drift);
  }

  lemma EmptySuffix(zs: seq<real>, up: bool, drift: real)
    ensures SuffixSum(zs, up, drift, |zs|) == 0.0
  {
    assert zs[|zs|..] == [];
  }

  /** The recursion max(0, g + x) keeps the best suffix sum. */
  lemma BestSuffixNext(g: real, zs: seq<real>, up: bool, drift: real, z: real)
    requires BestSuffix(g, zs, up, drift)
    ensures BestSuffix(Max(0.0, g + Term(z, up, drift)), zs + [z], up, drift)
  {
    var longer, h := zs + [z], Max(0.0, g + Term(z, up, drift));
    EmptySuffix(longer, up, drift);
    forall k | 0 <= k <= |zs|
      ensures SuffixSum(longer, up, drift, k) == SuffixSum(zs, up, drift, k) + Term(z, up, drift)
    {
      SuffixAppend(zs, z, up, drift, k);
    }
    hide SuffixSum;
    var k :| 0 <= k <= |zs| && g == SuffixSum(zs, up, drift, k);
    if g + Term(z, up, drift) >= 0.0 {
      assert h == SuffixSum(longer, up, drift, k);
    } else {
      assert h == SuffixSum(longer, up, drift, |longer|);
    }
  }

  lemma BestEmpty(up: bool, drift: real)
    ensures BestSuffix(0.0, [], up, drift)
  {
    EmptySuffix([], up, drift);
  }

  lemma BestReaches(g: real, zs: seq<real>, up: bool, drift: real, threshold: real)
    requires BestSuffix(g, zs, up, drift)
    ensures g >= threshold <==> exists k :: 0 <= k <= |zs| && SuffixSum(zs, up, drift, k) >= threshold
  {
    hide SuffixSum;
  }

  ghost predicate Agrees(p: Params, s: State, zs: seq<real>) {
    && BestSuffix(s.upper, zs, true, p.drift)
    && BestSuffix(s.lower, zs, false, p.drift)
    && 0.0 <= s.upper < p.threshold && 0.0 <= s.lower < p.threshold
    && s.score == Max(s.upper, s.lower) / p.threshold
  }

  lemma ScoreCases(p: Params, upper: real, lower: real)
    requires p.threshold > 0.0
    ensures var ratio := Max(upper, lower) / p.threshold;
            && (Min(ratio, 1.0) >= 1.0 <==> upper >= p.threshold || lower >= p.threshold)
            && (Min(ratio, 1.0) < 1.0 ==> Min(ratio, 1.0) == ratio)
  {
    RatioAtLeastOne(Max(upper, lower), p.threshold);
  }

  lemma AccumulateAgrees(p: Params, s: State, zs: seq<real>, z: real)
    requires p.threshold > 0.0
    requires BestSuffix(s.upper, zs, true, p.drift) && BestSuffix(s.lower, zs, false, p.drift)
    ensures Agrees(p, Accumulate(p, s, z), if Alarm(p, zs + [z]) then [] else zs + [z])
    ensures Alarm(p, zs + [z]) ==> Accumulate(p, s, z).score == 0.0
  {
    hide BestSuffix, Alarm;
    var longer := zs + [z];
    var upper, lower := Max(0.0, s.upper + z - p.drift), Max(0.0, s.lower - z - p.drift);
    BestSuffixNext(s.upper, zs, true, p.drift, z);
    BestSuffixNext(s.lower, zs, false, p.drift, z);
    AlarmIff(p, upper, lower, longer);
    BestEmpty(true, p.drift);
    BestEmpty(false, p.drift);
    ScoreCases(p, upper, lower);
  }

  lemma AlarmIff(p: Params, upper: real, lower: real, zs: seq<real>)
    requires BestSuffix(upper, zs, true, p.drift) && BestSuffix(lower, zs, false, p.drift)
    ensures Alarm(p, zs) <==> upper >= p.threshold || lower >= p.threshold
  {
    BestReaches(upper, zs, true, p.drift, p.threshold);
    BestReaches(lower, zs, false, p.drift, p.threshold);
    AlarmSides(p, zs);
    hide BestSuffix, Alarm, SuffixSum;
  }

  lemma AlarmSides(p: Params, zs: seq<real>)
    ensures Alarm(p, zs) <==>
      || (exists k :: 0 <= k <= |zs| && SuffixSum(zs, true, p.drift, k) >= p.threshold)
      || (exists k :: 0 <= k <= |zs| && SuffixSum(zs, false, p.drift, k) >= p.threshold)
  {
    hide SuffixSum;
  }

  lemma RatioAtLeastOne(a: real, b: real)
    requires b > 0.0
    ensures a / b >= 1.0 <==> a >= b
  {
    assert (a / b) * b == a;
    if a / b >= 1.0 { MulMono(1.0, a / b, b); }
    if a / b < 1.0 { MulStrict(a / b, 1.0, b); }
  }

  lemma MulMono(x: real, y: real, b: real)
    requires x <= y && b >= 0.0
    ensures x * b <= y * b
  {
    assert (y - x) * b >= 0.0;
  }

  lemma MulStrict(x: real, y: real, b: real)
    requires x < y && b > 0.0
    ensures x * b < y * b
  {
    assert (y - x) * b > 0.0;
  }

  /** CUSUM is what it claims to be: at every point the two sums are the largest
      suffix sums of the standardised counts since the last reset, they stay in
      [0, threshold), and the score is the larger one over the threshold. */
  lemma {:induction false} RecursionIsBestSuffix(p: Params, sqrt: Sqrt, counts: seq<nat>)
    requires p.Valid()
    ensures Agrees(p, Run(p, sqrt, counts), Trail(p, sqrt, counts))
    ensures !Scores(p, Run(p, sqrt, counts)) ==> Trail(p, sqrt, counts) == [] && Run(p, sqrt, counts).score == 0.0
    ensures Run(p, sqrt, counts).t == |counts|
  {
    hide BestSuffix, Alarm, Standardised, NextVariance;
    BestEmpty(true, p.drift);
    BestEmpty(false, p.drift);
    if counts != [] {
      var init := counts[..|counts| - 1];
      RecursionIsBestSuffix(p, sqrt, init);
      var s := Run(p, sqrt, init);
      if Scores(p, s) {
        var count := counts[|counts| - 1] as real;
        AccumulateAgrees(p, Observe(p, s, count), Trail(p, sqrt, init), Standardised(p, sqrt, s, count));
      } else {
        ZeroBest(p, s);
      }
    }
  }

  /** Counts are scored once `warmup` of them, and at least one, have gone before; until then
      there is no trail and no score. */
  lemma ScoringStarts(p: Params, sqrt: Sqrt, counts: seq<nat>)
    requires p.Valid()
    ensures Scores(p, Run(p, sqrt, counts)) <==> |counts| >= p.warmup && counts != []
    ensures |counts| <= p.warmup ==> Run(p, sqrt, counts).score == 0.0 && Trail(p, sqrt, counts) == []
  {
    RecursionIsBestSuffix(p, sqrt, counts);
    if counts != [] { RecursionIsBestSuffix(p, sqrt, counts[..|counts| - 1]); }
    hide Standardised, NextVariance, BestSuffix, Alarm;
  }

  /** A part of the way from one value to another. */
  function Toward(from: real, to: real, share: real): real { from + share * (to - from) }

  function Square(x: real): real { x * x }

  lemma ObserveCorrects(p: Params, s: State, count: real)
    ensures Observe(p, s, count).mean == Toward(s.mean, count, p.alpha)
    ensures Observe(p, s, count).variance == Toward(s.variance, Square(count - s.mean), p.alpha)
  {
    MixIs(p.alpha, count, s.mean);
    MixIs(p.alpha, Square(count - s.mean), s.variance);
  }

  lemma MixIs(alpha: real, x: real, y: real)
    ensures alpha * x + (1.0 - alpha) * y == y + alpha * (x - y)
  {
  }

  /** The running mean moves the share alpha of the way to every count after the first, in
      warmup and later, and the variance to every squared error. The first count is the
      mean, with variance 1. */
  lemma EstimatesFollowCounts(p: Params, sqrt: Sqrt, counts: seq<nat>, count: nat)
    requires p.Valid()
    ensures var s, r := Run(p, sqrt, counts), Run(p, sqrt, counts + [count]);
            if counts == [] then r.mean == count as real && r.variance == 1.0
            else
              && r.mean == Toward(s.mean, count as real, p.alpha)
              && r.variance == Toward(s.variance, Square(count as real - s.mean), p.alpha)
  {
    hide Standardised, NextVariance, Toward, Square, Agrees, Trail;
    assert (counts + [count])[..|counts|] == counts;
    RecursionIsBestSuffix(p, sqrt, counts);
    ObserveCorrects(p, Run(p, sqrt, counts), count as real);
  }

  /** A standardised count is its error in units of the deviation, which is that after the
      count and no less than 1e-10. */
  lemma StandardisedIsError(p: Params, sqrt: Sqrt, s: State, count: real)
    ensures var v := NextVariance(p, s, count);
            var unit := if sqrt(v) >= 0.0000000001 then sqrt(v) else 0.0000000001;
            Standardised(p, sqrt, s, count) * unit == count - s.mean
  {
    hide NextVariance;
  }

  lemma ZeroBest(p: Params, s: State)
    requires Agrees(p, s, [])
    ensures s.upper == 0.0 && s.lower == 0.0 && s.score == 0.0
  {
    EmptySuffix([], true, p.drift);
    EmptySuffix([], false, p.drift);
  }

  /** The model is hard-reset at a scored count exactly when some suffix since the
      last reset, in one of the directions, has reached the threshold. */
  lemma ResetsExactlyOnAlarm(p: Params, sqrt: Sqrt, counts: seq<nat>, count: nat)
    requires p.Valid() && Scores(p, Run(p, sqrt, counts))
    ensures var s := Run(p, sqrt, counts);
            var zs := Trail(p, sqrt, counts) + [Standardised(p, sqrt, s, count as real)];
            var t := Run(p, sqrt, counts + [count]);
            && (Alarm(p, zs) ==> t.upper == 0.0 && t.lower == 0.0 && t.score == 0.0)
            && (!Alarm(p, zs) ==> Trail(p, sqrt, counts + [count]) == zs && Agrees(p, t, zs))
  {
    var all := counts + [count];
    assert all[..|all| - 1] == counts;
    RecursionIsBestSuffix(p, sqrt, all);
    hide Alarm, Standardised, BestSuffix;
    if Trail(p, sqrt, all) == [] { ZeroBest(p, Run(p, sqrt, all)); }
  }

  // ---- how fast an alarm can come -----------------------------------------------------------

  lemma {:induction false} VarianceNonNegative(p: Params, sqrt: Sqrt, counts: seq<nat>)
    requires p.Valid()
    ensures Run(p, sqrt, counts).variance >= 0.0
  {
    if counts != [] {
      var init := counts[..|counts| - 1];
      VarianceNonNegative(p, sqrt, init);
      NextVarianceAtLeast(p, Run(p, sqrt, init), counts[|counts| - 1] as real);
      hide NextVariance, Standardised;
    }
  }

  lemma NextVarianceAtLeast(p: Params, s: State, count: real)
    requires p.Valid() && s.variance >= 0.0
    ensures NextVariance(p, s, count) >= p.alpha * ((count - s.mean) * (count - s.mean)) >= 0.0
  {
    SquareNonNegative(count - s.mean);
    MulMono(0.0, (count - s.mean) * (count - s.mean), p.alpha);
    MulMono(0.0, s.variance, 1.0 - p.alpha);
  }

  lemma SquareNonNegative(x: real)
    ensures x * x >= 0.0
  {
    if x < 0.0 { assert (-x) * (-x) >= 0.0; }
  }

  lemma SquareMono(x: real, y: real)
    requires 0.0 <= x <= y
    ensures x * x <= y * y
  {
    MulMono(x, y, x);
    MulMono(x, y, y);
  }

  // Multiplication under a name, so that the steps below can hide it.
  function Times(x: real, y: real): real { x * y }

  lemma TimesSquares(alpha: real, z: real, dev: real)
    ensures Times(alpha, Times(Times(z, dev), Times(z, dev))) == Times(Times(alpha, Times(z, z)), Times(dev, dev))
  {
  }

  lemma TimesQuotient(d: real, dev: real)
    requires dev > 0.0
    ensures Times(d / dev, dev) == d
  {
  }

  lemma TimesPositive(x: real, y: real)
    requires x > 0.0 && y > 0.0
    ensures Times(x, y) > 0.0
  {
  }

  lemma TimesAtMostOne(a: real, b: real)
    requires b > 0.0 && Times(a, b) <= b
    ensures a <= 1.0
  {
    if a > 1.0 { MulStrict(1.0, a, b); }
  }

  lemma QuotientBound(alpha: real, d: real, dev: real)
    requires dev > 0.0
    requires Times(alpha, Times(d, d)) <= Times(dev, dev)
    ensures Times(alpha, Times(d / dev, d / dev)) <= 1.0
  {
    hide Times;
    var z := d / dev;
    TimesQuotient(d, dev);
    TimesSquares(alpha, z, dev);
    TimesPositive(dev, dev);
    TimesAtMostOne(Times(alpha, Times(z, z)), Times(dev, dev));
  }

  lemma DeviationCovers(sqrt: Sqrt, v: real)
    requires IsSqrt(sqrt) && v >= 0.0
    ensures v <= Times(Deviation(sqrt, v), Deviation(sqrt, v))
  {
    SquareMono(sqrt(v), Deviation(sqrt, v));
  }

  lemma VarianceCovers(p: Params, s: State, count: real)
    requires p.Valid() && s.variance >= 0.0
    ensures 0.0 <= Times(p.alpha, Times(count - s.mean, count - s.mean)) <= NextVariance(p, s, count)
  {
    NextVarianceAtLeast(p, s, count);
  }

  /** The variance takes the new count in before it divides: alpha * z * z <= 1. */
  lemma StandardisedIsBounded(p: Params, sqrt: Sqrt, s: State, count: real)
    requires p.Valid() && IsSqrt(sqrt) && s.variance >= 0.0
    ensures var z := Standardised(p, sqrt, s, count); p.alpha * (z * z) <= 1.0
  {
    var v, z := NextVariance(p, s, count), Standardised(p, sqrt, s, count);
    var d, dev := count - s.mean, Deviation(sqrt, v);
    assert Times(p.alpha, Times(z, z)) == p.alpha * (z * z);
    assert z == d / dev;
    hide Times, NextVariance, Deviation, Standardised, IsSqrt;
    VarianceCovers(p, s, count);
    DeviationCovers(sqrt, v);
    QuotientBound(p.alpha, d, dev);
  }

  /** Hence a standardised count is at most c in size once alpha * c * c >= 1. */
  lemma SizeBound(alpha: real, z: real, c: real)
    requires alpha > 0.0 && alpha * (z * z) <= 1.0
    requires c > 0.0 && alpha * (c * c) >= 1.0
    ensures -c <= z <= c
  {
    var w := if z >= 0.0 then z else -z;
    assert w * w == z * z;
    if w > c {
      MulStrict(c, w, c);
      MulStrict(c, w, w);
      MulStrict(c * c, w * w, alpha);
    }
  }

  lemma NextIsBounded(p: Params, sqrt: Sqrt, counts: seq<nat>, count: real, c: real)
    requires p.Valid() && IsSqrt(sqrt)
    requires c > 0.0 && p.alpha * (c * c) >= 1.0
    ensures -c <= Standardised(p, sqrt, Run(p, sqrt, counts), count) <= c
  {
    hide Standardised, IsSqrt, Run;
    var s := Run(p, sqrt, counts);
    VarianceNonNegative(p, sqrt, counts);
    StandardisedIsBounded(p, sqrt, s, count);
    SizeBound(p.alpha, Standardised(p, sqrt, s, count), c);
  }

  lemma {:induction false} TrailIsBounded(p: Params, sqrt: Sqrt, counts: seq<nat>, c: real)
    requires p.Valid() && IsSqrt(sqrt)
    requires c > 0.0 && p.alpha * (c * c) >= 1.0
    ensures forall i :: 0 <= i < |Trail(p, sqrt, counts)| ==> -c <= Trail(p, sqrt, counts)[i] <= c
  {
    hide Standardised, Alarm, IsSqrt, Run, Scores;
    if counts != [] {
      var init := counts[..|counts| - 1];
      TrailIsBounded(p, sqrt, init, c);
      NextIsBounded(p, sqrt, init, counts[|counts| - 1] as real, c);
    }
  }

  lemma {:induction false} SumBound(zs: seq<real>, up: bool, drift: real, c: real)
    requires forall i :: 0 <= i < |zs| ==> -c <= zs[i] <= c
    ensures Sum(Terms(zs, up, drift)) <= |zs| as real * (c - drift)
  {
    if zs != [] {
      var n := |zs| - 1;
      SumBound(zs[..n], up, drift, c);
      assert Terms(zs, up, drift)[..n] == Terms(zs[..n], up, drift);
      assert (n + 1) as real * (c - drift) == n as real * (c - drift) + (c - drift);
    }
  }

  lemma SuffixBound(zs: seq<real>, up: bool, drift: real, c: real, k: nat)
    requires k <= |zs| && forall i :: 0 <= i < |zs| ==> -c <= zs[i] <= c
    ensures SuffixSum(zs, up, drift, k) <= (|zs| - k) as real * (c - drift)
  {
    SumBound(zs[k..], up, drift, c);
  }

  /** Detection delay: a count that raises the alarm n counts after warmup or the last
      reset shows that n * (c - drift) >= threshold, for any c with alpha * c * c >= 1. */
  lemma AlarmTakesTime(p: Params, sqrt: Sqrt, counts: seq<nat>, count: nat, c: real)
    requires p.Valid() && IsSqrt(sqrt) && Scores(p, Run(p, sqrt, counts))
    requires c > 0.0 && p.alpha * (c * c) >= 1.0
    requires Alarm(p, Trail(p, sqrt, counts) + [Standardised(p, sqrt, Run(p, sqrt, counts), count as real)])
    ensures (|Trail(p, sqrt, counts)| + 1) as real * (c - p.drift) >= p.threshold
  {
    hide Trail, Run, Standardised, Alarm, IsSqrt, Scores;
    var z := Standardised(p, sqrt, Run(p, sqrt, counts), count as real);
    TrailIsBounded(p, sqrt, counts, c);
    NextIsBounded(p, sqrt, counts, count as real, c);
    AlarmNeedsLength(p, Trail(p, sqrt, counts) + [z], c);
  }

  lemma AlarmNeedsLength(p: Params, zs: seq<real>, c: real)
    requires p.Valid() && Alarm(p, zs)
    requires forall i :: 0 <= i < |zs| ==> -c <= zs[i] <= c
    ensures |zs| as real * (c - p.drift) >= p.threshold
  {
    hide SuffixSum;
    var k :| 0 <= k <= |zs|
      && (SuffixSum(zs, true, p.drift, k) >= p.threshold || SuffixSum(zs, false, p.drift, k) >= p.threshold);
    SuffixBound(zs, true, p.drift, c, k);
    SuffixBound(zs, false, p.drift, c, k);
    LongerIsEnough(|zs| - k, |zs|, c - p.drift, p.threshold);
  }

  lemma LongerIsEnough(m: nat, n: nat, gain: real, threshold: real)
    requires m <= n && threshold > 0.0 && m as real * gain >= threshold
    ensures n as real * gain >= threshold
  {
    if gain > 0.0 {
      MulMono(m as real, n as real, gain);
    } else {
      MulMono(gain, 0.0, m as real);
    }
  }

  // ---- the detector ------------------------------------------------------------------------

  function Counted(p: Params, sqrt: Sqrt, s: State, fed: seq<nat>): State
    requires p.threshold > 0.0
  {
    if fed == [] then s
    else Update(p, sqrt, Counted(p, sqrt, s, fed[..|fed| - 1]), fed[|fed| - 1] as real)
  }

  lemma {:induction false} CountedRun(p: Params, sqrt: Sqrt, counts: seq<nat>, fed: seq<nat>)
    requires p.threshold > 0.0
    ensures Counted(p, sqrt, Run(p, sqrt, counts), fed) == Run(p, sqrt, counts + fed)
  {
    if fed == [] {
      assert counts + fed == counts;
    } else {
      CountedRun(p, sqrt, counts, fed[..|fed| - 1]);
      assert (counts + fed)[..|counts + fed| - 1] == counts + fed[..|fed| - 1];
    }
  }

  class CUSUMDetector {
    const params: Params
    const sqrt: Sqrt
    var mean: real
    var variance: real
    var upper: real
    var lower: real
    var score: real
    var t: nat
    var currentBucket: int
    var currentCount: nat
    ghost var events: seq<nat>

    ghost function Model(): State
      reads this
    {
      State(mean, variance, upper, lower, score, t)
    }

    /** The detector is the model run over everything bucketed so far. */
    ghost predicate Valid()
      reads this
    {
      && params.Valid()
      && Bucketing.Buckets(currentBucket, currentCount) == Bucketing.Run(events)
      && Model() == Run(params, sqrt, Bucketing.Fed(events, 100))
    }

    constructor (params: Params, sqrt: Sqrt)
      requires params.Valid()
      ensures Valid() && events == [] && this.params == params && this.sqrt == sqrt
    {
      this.params, this.sqrt := params, sqrt;
      mean, variance, upper, lower, score, t := 0.0, 1.0, 0.0, 0.0, 0.0, 0;
      currentBucket, currentCount := -1, 0;
      events := [];
    }

    method Learn(ts: nat)
      requires Valid()
      modifies this
      ensures Valid() && events == old(events) + [Bucketing.BucketOf(ts)]
    {
      hide Update, Run, Bucketing.Run, Bucketing.Fed, Bucketing.Histogram, Bucketing.Newest;
      var bucket := Bucketing.BucketOf(ts);
      ghost var fed := Bucketing.Fed(events, MAX_GAP_FILL);
      Bucketing.RunIsNewest(events);
      Bucketing.OneMore(events, bucket, MAX_GAP_FILL);
      assert fed + [] == fed;
      events := events + [bucket];
      if currentBucket == -1 {
        currentBucket, currentCount := bucket, 1;
        return;
      }
      if bucket == currentBucket {
        currentCount := currentCount + 1;
        return;
      }
      if bucket < currentBucket { return; }
      ghost var batch := [currentCount] + Bucketing.Zeros(Bucketing.Min(bucket - currentBucket - 1, MAX_GAP_FILL));
      CountedRun(params, sqrt, fed, batch);
      Complete(bucket - currentBucket - 1);
      currentBucket, currentCount := bucket, 1;
    }

    /** Feeds the current count and then the empty buckets of the gap. */
    method Complete(gap: nat)
      requires params.Valid()
      modifies this`mean, this`variance, this`upper, this`lower, this`score, this`t
      ensures Model() == Counted(params, sqrt, old(Model()),
                                 [currentCount] + Bucketing.Zeros(Bucketing.Min(gap, MAX_GAP_FILL)))
    {
      hide Update;
      ghost var batch := [currentCount];
      assert batch[..0] == [];
      UpdateModel(currentCount as real);
      for n := 0 to Bucketing.Min(gap, MAX_GAP_FILL)
        invariant Model() == Counted(params, sqrt, old(Model()), batch)
        invariant batch == [currentCount] + Bucketing.Zeros(n)
      {
        assert (batch + [0])[..|batch|] == batch;
        batch := batch + [0];
        UpdateModel(0.0);
      }
    }

    method UpdateModel(count: real)
      requires params.Valid()
      modifies this`mean, this`variance, this`upper, this`lower, this`score, this`t
      ensures Model() == Update(params, sqrt, old(Model()), count)
    {
      t := t + 1;
      if t == 1 {
        mean, variance := count, 1.0;
        return;
      }
      var prevMean := mean;
      mean := params.alpha * count + (1.0 - params.alpha) * mean;
      variance := params.alpha * ((count - prevMean) * (count - prevMean)) + (1.0 - params.alpha) * variance;
      assert variance == NextVariance(params, old(Model()), count);
      var std := Max(sqrt(variance), MIN_STD);
      if t <= params.warmup {
        score := 0.0;
        return;
      }
      var z := (count - prevMean) / std;
      assert z == Standardised(params, sqrt, old(Model()), count);
      hide Standardised, NextVariance;
      upper := Max(0.0, upper + z - params.drift);
      lower := Max(0.0, lower - z - params.drift);
      score := Min(Max(upper, lower) / params.threshold, 1.0);
      if score >= 1.0 {
        upper, lower, score := 0.0, 0.0, 0.0;
      }
    }
  }
}
