/** src/seerflow/detection/holtwinters.py: triple exponential smoothing of minute counts.
    Reals stand for floats, and `statistics.stdev` is the parameter `stdev`. */
module HoltWinters {
  import Bucketing
  import Divisions
  import Seqs

  const MAX_RESIDUALS := 100
  const MIN_SCALE := 0.0000000001

  datatype Params = Params(period: nat, alpha: real, beta: real, gamma: real, nStd: real)
  {
    predicate Valid() {
      period >= 2 && 0.0 < alpha < 1.0 && 0.0 < beta < 1.0 && 0.0 < gamma < 1.0 && nStd > 0.0
    }
  }

  datatype State = State(
    level: real,
    trend: real,
    seasonals: seq<real>,
    residuals: seq<real>,
    t: nat,
    score: real,
    initialized: bool)

  type Stdev = seq<real> -> real

  function Initial(p: Params): State {
    State(0.0, 0.0, seq(p.period, i => 0.0), [], 0, 0.0, false)
  }

  function Max(a: real, b: real): real { if a >= b then a else b }
  function Min(a: real, b: real): real { if a <= b then a else b }
  function Abs(a: real): real { if a >= 0.0 then a else -a }

  /** One step of exponential smoothing. */
  function Blend(w: real, latest: real, before: real): real {
    w * latest + (1.0 - w) * before
  }

  /** The mean of `t + 1` counts from the mean of the first `t`. */
  function NextMean(level: real, t: nat, count: real): real {
    (level * t as real + count) / (t + 1) as real
  }

  // ---- one model update -------------------------------------------------------------------

  function Score(p: Params, stdev: Stdev, residuals: seq<real>, residual: real): real {
    if |residuals| > 1 then Min(Abs(residual) / Max(p.nStd * stdev(residuals), MIN_SCALE), 1.0) else 0.0
  }

  function WarmUp(p: Params, s: State, count: real): State
    requires s.t < |s.seasonals|
  {
    s.(seasonals := s.seasonals[s.t := count - s.level],
       level := NextMean(s.level, s.t, count),
       t := s.t + 1,
       score := 0.0)
  }

  function Smooth(p: Params, stdev: Stdev, s: State, count: real): State
    requires 0 < p.period == |s.seasonals|
  {
    var idx := s.t % p.period;
    var residual := count - (s.level + s.trend + s.seasonals[idx]);
    var level := Blend(p.alpha, count - s.seasonals[idx], s.level + s.trend);
    var trend := Blend(p.beta, level - s.level, s.trend);
    var season := Blend(p.gamma, count - s.level - trend, s.seasonals[idx]);
    var residuals := Seqs.LastN(s.residuals + [residual], MAX_RESIDUALS);
    State(level, trend, s.seasonals[idx := season], residuals, s.t + 1,
          Score(p, stdev, residuals, residual), true)
  }

  function Update(p: Params, stdev: Stdev, s: State, count: real): (r: State)
    requires 0 < p.period == |s.seasonals|
    ensures |r.seasonals| == p.period
  {
    if !s.initialized then s.(level := count, initialized := true, t := s.t + 1)
    else if s.t < p.period then WarmUp(p, s, count)
    else Smooth(p, stdev, s, count)
  }

  function Run(p: Params, stdev: Stdev, counts: seq<nat>): (r: State)
    requires p.period > 0
    ensures |r.seasonals| == p.period
  {
    if counts == [] then Initial(p)
    else Update(p, stdev, Run(p, stdev, counts[..|counts| - 1]), counts[|counts| - 1] as real)
  }

  // ---- what holds in every state -------------------------------------------------------------

  lemma ScoreInRange(p: Params, stdev: Stdev, residuals: seq<real>, residual: real)
    ensures 0.0 <= Score(p, stdev, residuals, residual) <= 1.0
    ensures residual == 0.0 ==> Score(p, stdev, residuals, residual) == 0.0
  {
    var scale := Max(p.nStd * stdev(residuals), MIN_SCALE);
    assert scale > 0.0;
    QuotientSign(Abs(residual), scale);
  }

  lemma QuotientSign(a: real, b: real)
    requires a >= 0.0 && b > 0.0
    ensures a / b >= 0.0
    ensures a == 0.0 ==> a / b == 0.0
  {
  }

  /** Scores stay within [0, 1], at most 100 residuals are kept, and there is one
      update per count. */
  lemma {:induction false} RunStaysInRange(p: Params, stdev: Stdev, counts: seq<nat>)
    requires p.Valid()
    ensures var s := Run(p, stdev, counts);
            && 0.0 <= s.score <= 1.0 && |s.residuals| <= MAX_RESIDUALS
            && s.t == |counts| && s.initialized == (counts != [])
  {
    if counts != [] {
      var init, count := counts[..|counts| - 1], counts[|counts| - 1] as real;
      RunStaysInRange(p, stdev, init);
      var s := Run(p, stdev, init);
      var residual := count - (s.level + s.trend + s.seasonals[s.t % p.period]);
      ScoreInRange(p, stdev, Seqs.LastN(s.residuals + [residual], MAX_RESIDUALS), residual);
      hide Score;
    }
  }

  // ---- warmup ----------------------------------------------------------------------------------

  lemma MeanNext(level: real, t: nat, count: real, sum: real)
    requires t >= 1 && level * t as real == sum
    ensures NextMean(level, t, count) * (t + 1) as real == sum + count
  {
  }

  lemma WarmupLevel(p: Params, stdev: Stdev, counts: seq<nat>)
    requires p.Valid() && 1 <= |counts| <= p.period
    ensures var init, count := counts[..|counts| - 1], counts[|counts| - 1];
            Run(p, stdev, counts).level ==
              if init == [] then count as real else NextMean(Run(p, stdev, init).level, |init|, count as real)
  {
    hide NextMean, Smooth;
    RunStaysInRange(p, stdev, counts[..|counts| - 1]);
  }

  /** Throughout warmup the level is the mean of all counts so far. */
  lemma {:induction false} WarmupLevelIsMean(p: Params, stdev: Stdev, counts: seq<nat>)
    requires p.Valid() && |counts| <= p.period
    ensures Run(p, stdev, counts).level * |counts| as real == Bucketing.Sum(counts) as real
  {
    hide NextMean, Run;
    if counts != [] {
      var init, count := counts[..|counts| - 1], counts[|counts| - 1];
      WarmupLevelIsMean(p, stdev, init);
      WarmupLevel(p, stdev, counts);
      if init != [] {
        MeanNext(Run(p, stdev, init).level, |init|, count as real, Bucketing.Sum(init) as real);
      }
    }
  }

  /** Warmup stores, for every minute after the first, its deviation from the mean of
      the minutes before it. */
  lemma {:induction false} WarmupSeasonals(p: Params, stdev: Stdev, counts: seq<nat>, i: nat)
    requires p.Valid() && |counts| <= p.period && 1 <= i < |counts|
    ensures Run(p, stdev, counts).seasonals[i] == counts[i] as real - Run(p, stdev, counts[..i]).level
    ensures Run(p, stdev, counts).seasonals[0] == 0.0
  {
    var n := |counts| - 1;
    RunStaysInRange(p, stdev, counts[..n]);
    if i < n {
      WarmupSeasonals(p, stdev, counts[..n], i);
      assert counts[..n][..i] == counts[..i];
    }
    FirstSeasonal(p, stdev, counts[..n]);
  }

  lemma {:induction false} FirstSeasonal(p: Params, stdev: Stdev, counts: seq<nat>)
    requires p.Valid() && |counts| <= p.period
    ensures Run(p, stdev, counts).seasonals[0] == 0.0
  {
    if counts != [] {
      FirstSeasonal(p, stdev, counts[..|counts| - 1]);
      RunStaysInRange(p, stdev, counts[..|counts| - 1]);
    }
  }

  // ---- smoothing ---------------------------------------------------------------------------------

  /** Smoothing in error-correction form: every component moves from its forecast in
      proportion to the residual. */
  lemma SmoothingCorrectsErrors(p: Params, stdev: Stdev, s: State, count: real)
    requires p.Valid() && |s.seasonals| == p.period
    ensures var r, idx := Smooth(p, stdev, s, count), s.t % p.period;
            var e := count - (s.level + s.trend + s.seasonals[idx]);
            && r.level == s.level + s.trend + p.alpha * e
            && r.trend == s.trend + p.beta * (p.alpha * e)
            && r.seasonals[idx] == s.seasonals[idx] + p.gamma * (e - p.beta * (p.alpha * e))
            && (forall j :: 0 <= j < p.period && j != idx ==> r.seasonals[j] == s.seasonals[j])
  {
    var idx := s.t % p.period;
    var season := s.seasonals[idx];
    var e := count - (s.level + s.trend + season);
    var r := Smooth(p, stdev, s, count);
    Mix(p.alpha, count - season, s.level + s.trend);
    Mix(p.beta, r.level - s.level, s.trend);
    Mix(p.gamma, count - s.level - r.trend, season);
    assert count - season - (s.level + s.trend) == e;
    assert r.level - s.level - s.trend == p.alpha * e;
    assert count - s.level - r.trend - season == e - p.beta * (p.alpha * e);
  }

  lemma Mix(w: real, a: real, b: real)
    ensures Blend(w, a, b) == b + w * (a - b)
  {
  }

  ghost predicate Steady(p: Params, s: State, c: real) {
    && s.level == c && s.trend == 0.0 && s.score == 0.0
    && |s.seasonals| == p.period && forall j :: 0 <= j < p.period ==> s.seasonals[j] == 0.0
  }

  lemma MeanOfSame(c: real, t: real)
    requires t >= 0.0
    ensures (c * t + c) / (t + 1.0) == c
  {
    assert c * t + c == c * (t + 1.0);
  }

  lemma SmoothKeepsSteady(p: Params, stdev: Stdev, s: State, c: real)
    requires p.Valid() && Steady(p, s, c)
    ensures Steady(p, Smooth(p, stdev, s, c), c)
  {
    var idx := s.t % p.period;
    var e := c - (s.level + s.trend + s.seasonals[idx]);
    SmoothingCorrectsErrors(p, stdev, s, c);
    ScoreInRange(p, stdev, Seqs.LastN(s.residuals + [e], MAX_RESIDUALS), e);
    TimesZero(p.alpha, e);
    TimesZero(p.beta, p.alpha * e);
    TimesZero(p.gamma, e - p.beta * (p.alpha * e));
    hide Score, Blend, Seqs.LastN;
  }

  lemma TimesZero(x: real, e: real)
    requires e == 0.0
    ensures x * e == 0.0
  {
  }

  /** A source with a constant count is a fixed point, for every run length and all
      smoothing factors: no trend, no season, and never a score. */
  lemma {:induction false} ConstantSourceIsSteady(p: Params, stdev: Stdev, counts: seq<nat>, c: nat)
    requires p.Valid() && counts != []
    requires forall i :: 0 <= i < |counts| ==> counts[i] == c
    ensures Steady(p, Run(p, stdev, counts), c as real)
  {
    var init := counts[..|counts| - 1];
    RunStaysInRange(p, stdev, init);
    if init != [] {
      ConstantSourceIsSteady(p, stdev, init, c);
      var s := Run(p, stdev, init);
      if s.t < p.period {
        MeanOfSame(c as real, s.t as real);
      } else {
        SmoothKeepsSteady(p, stdev, s, c as real);
      }
    }
  }

  // ---- the score -----------------------------------------------------------------------------------

  /** What the model expects of the next count. */
  function Forecast(p: Params, stdev: Stdev, counts: seq<nat>): real
    requires p.Valid()
  {
    var s := Run(p, stdev, counts);
    s.level + s.trend + s.seasonals[|counts| % p.period]
  }

  lemma SmoothScores(p: Params, stdev: Stdev, s: State, count: real)
    requires p.Valid() && |s.seasonals| == p.period
    ensures var residual := count - (s.level + s.trend + s.seasonals[s.t % p.period]);
            var r := Smooth(p, stdev, s, count);
            && r.residuals == Seqs.LastN(s.residuals + [residual], MAX_RESIDUALS)
            && r.score == Score(p, stdev, r.residuals, residual)
  {
    hide Score, Blend, Seqs.LastN;
  }

  lemma RunSmooths(p: Params, stdev: Stdev, counts: seq<nat>, count: nat)
    requires p.Valid() && |counts| >= p.period
    ensures Run(p, stdev, counts).t == |counts|
    ensures Run(p, stdev, counts + [count]) == Smooth(p, stdev, Run(p, stdev, counts), count as real)
  {
    hide Smooth, WarmUp;
    RunStaysInRange(p, stdev, counts);
    assert (counts + [count])[..|counts|] == counts;
  }

  lemma SmoothedNext(p: Params, stdev: Stdev, counts: seq<nat>, count: nat)
    requires p.Valid() && |counts| >= p.period
    ensures var s, r := Run(p, stdev, counts), Run(p, stdev, counts + [count]);
            var residual := count as real - Forecast(p, stdev, counts);
            && r.residuals == Seqs.LastN(s.residuals + [residual], MAX_RESIDUALS)
            && r.score == Score(p, stdev, r.residuals, residual)
  {
    hide Smooth, Run, Score, Seqs.LastN;
    RunSmooths(p, stdev, counts, count);
    SmoothScores(p, stdev, Run(p, stdev, counts), count as real);
  }

  /** Warmup has no trend, keeps no residual and never scores. */
  lemma {:induction false} WarmupIsSilent(p: Params, stdev: Stdev, counts: seq<nat>)
    requires p.Valid() && |counts| <= p.period
    ensures var s := Run(p, stdev, counts); s.trend == 0.0 && s.residuals == [] && s.score == 0.0
  {
    hide NextMean, Smooth;
    if counts != [] {
      WarmupIsSilent(p, stdev, counts[..|counts| - 1]);
      RunStaysInRange(p, stdev, counts[..|counts| - 1]);
    }
  }

  /** The residuals kept are the forecast errors of the latest counts, at most 100 of
      them, and none of warmup. */
  lemma {:induction false} ResidualsAreErrors(p: Params, stdev: Stdev, counts: seq<nat>, j: nat)
    requires p.Valid() && |counts| >= p.period
    ensures var residuals, n := Run(p, stdev, counts).residuals, |counts|;
            && |residuals| == (if n - p.period <= 100 then n - p.period else 100)
            && (j < |residuals| ==>
                  residuals[|residuals| - 1 - j] == counts[n - 1 - j] as real - Forecast(p, stdev, counts[..n - 1 - j]))
  {
    hide Run, Forecast;
    var n := |counts|;
    if n == p.period {
      WarmupIsSilent(p, stdev, counts);
    } else {
      var init := counts[..n - 1];
      assert counts == init + [counts[n - 1]];
      SmoothedNext(p, stdev, init, counts[n - 1]);
      ResidualsAreErrors(p, stdev, init, if j > 0 then j - 1 else 0);
      if j > 0 && j < n { assert counts[..n - 1 - j] == init[..n - 1 - j]; }
    }
  }

  /** The unit of the score: nStd deviations of the residuals, but no less than 1e-10. */
  function Unit(p: Params, stdev: Stdev, residuals: seq<real>): real {
    var spread := p.nStd * stdev(residuals);
    if spread >= 0.0000000001 then spread else 0.0000000001
  }

  /** With two residuals or more, the score is 1 if and only if the error is at least one
      unit, above or below, and otherwise the size of the error in units; else it is 0. */
  predicate Measures(score: real, kept: nat, error: real, unit: real) {
    && (kept <= 1 ==> score == 0.0)
    && (kept >= 2 ==>
          && (score == 1.0 <==> error >= unit || error <= -unit)
          && (score != 1.0 && error >= 0.0 ==> score * unit == error)
          && (score != 1.0 && error <= 0.0 ==> score * unit == -error))
  }

  /** After warmup the score of a count measures how far it is from its forecast. */
  lemma ScoreIsDistance(p: Params, stdev: Stdev, counts: seq<nat>, count: nat)
    requires p.Valid() && |counts| >= p.period
    ensures var r := Run(p, stdev, counts + [count]);
            Measures(r.score, |r.residuals|, count as real - Forecast(p, stdev, counts), Unit(p, stdev, r.residuals))
  {
    hide Run, Forecast, Score, Measures, Unit;
    SmoothedNext(p, stdev, counts, count);
    var r := Run(p, stdev, counts + [count]);
    ScoreFacts(p, stdev, r.residuals, count as real - Forecast(p, stdev, counts));
  }

  lemma ScoreFacts(p: Params, stdev: Stdev, residuals: seq<real>, residual: real)
    ensures Measures(Score(p, stdev, residuals, residual), |residuals|, residual, Unit(p, stdev, residuals))
  {
    var scale := Max(p.nStd * stdev(residuals), MIN_SCALE);
    assert scale > 0.0;
    ClippedQuotient(Abs(residual), scale);
  }

  lemma ClippedQuotient(a: real, b: real)
    requires b > 0.0
    ensures Min(a / b, 1.0) == 1.0 <==> a >= b
    ensures Min(a / b, 1.0) < 1.0 ==> Min(a / b, 1.0) * b == a
  {
    var q := a / b;
    assert q * b == a;
    if q < 1.0 { TimesLess(q, b); } else { TimesMore(q, b); }
  }

  lemma TimesLess(q: real, b: real)
    requires b > 0.0 && q < 1.0
    ensures q * b < b
  {
  }

  lemma TimesMore(q: real, b: real)
    requires b > 0.0 && q >= 1.0
    ensures q * b >= b
  {
  }

  // ---- the detector --------------------------------------------------------------------------------

  /** Seasonal phase: while no gap exceeds the period, update number i is fed the
      histogram count of minute first + i and works on season i mod period, and the
      minute being counted will work on (current - first) mod period. */
  lemma SeasonsStayAligned(p: Params, stdev: Stdev, events: seq<nat>, i: nat)
    requires p.Valid() && events != [] && Bucketing.GapsWithin(events, p.period)
    requires i < |Bucketing.Fed(events, p.period)|
    ensures var fed, first := Bucketing.Fed(events, p.period), events[0];
            && fed[i] == Bucketing.Histogram(events, first + i)
            && Run(p, stdev, fed[..i]).t % p.period == i % p.period
            && Run(p, stdev, fed).t == Bucketing.Run(events).current - first
  {
    hide Run, Bucketing.Fed, Bucketing.Run, Bucketing.Histogram, Bucketing.GapsWithin;
    Bucketing.FedIsHistogram(events, p.period);
    Bucketing.UpdatesAreDistance(events, p.period);
    var fed := Bucketing.Fed(events, p.period);
    RunStaysInRange(p, stdev, fed[..i]);
    RunStaysInRange(p, stdev, fed);
  }

  predicate InPhase(p: Params, stdev: Stdev, events: seq<nat>)
    requires p.Valid() && events != []
  {
    var t := Run(p, stdev, Bucketing.Fed(events, p.period)).t;
    Bucketing.RunIsNewest(events);
    t % p.period == (Bucketing.Run(events).current - events[0]) % p.period
  }

  /** Exactly when the season of the bucket being counted is (current - first) mod period:
      when the buckets lost to the cap are a multiple of the period. */
  lemma LongGapsShiftSeasons(p: Params, stdev: Stdev, events: seq<nat>)
    requires p.Valid() && events != []
    ensures InPhase(p, stdev, events) <==> Bucketing.Lost(events, p.period) % p.period == 0
  {
    hide Run, Bucketing.Fed, Bucketing.Run, Bucketing.Lost;
    Bucketing.UpdatesAndLostAreDistance(events, p.period);
    RunStaysInRange(p, stdev, Bucketing.Fed(events, p.period));
    Divisions.SameRemainder(Run(p, stdev, Bucketing.Fed(events, p.period)).t, Bucketing.Lost(events, p.period),
                            p.period);
  }

  /** So one bucket beyond the cap shifts every later season, and a whole period does not. */
  lemma OneMinuteTooLongShifts(p: Params, stdev: Stdev, first: nat)
    requires p.Valid() && p.period >= 2
    ensures !InPhase(p, stdev, [first, first + p.period + 2])
    ensures InPhase(p, stdev, [first, first + 2 * p.period + 1])
  {
    hide Run, InPhase;
    assert [first, first + p.period + 2][..1] == [first] && [first, first + 2 * p.period + 1][..1] == [first];
    assert [first][..0] == [];
    assert Bucketing.Lost([first], p.period) == 0;
    assert Bucketing.Lost([first, first + p.period + 2], p.period) == 1;
    assert Bucketing.Lost([first, first + 2 * p.period + 1], p.period) == p.period;
    LongGapsShiftSeasons(p, stdev, [first, first + p.period + 2]);
    LongGapsShiftSeasons(p, stdev, [first, first + 2 * p.period + 1]);
  }

  function Counted(p: Params, stdev: Stdev, s: State, fed: seq<nat>): (r: State)
    requires 0 < p.period == |s.seasonals|
    ensures |r.seasonals| == p.period
  {
    if fed == [] then s
    else Update(p, stdev, Counted(p, stdev, s, fed[..|fed| - 1]), fed[|fed| - 1] as real)
  }

  lemma {:induction false} CountedRun(p: Params, stdev: Stdev, counts: seq<nat>, fed: seq<nat>)
    requires p.period > 0
    ensures Counted(p, stdev, Run(p, stdev, counts), fed) == Run(p, stdev, counts + fed)
  {
    if fed == [] {
      assert counts + fed == counts;
    } else {
      CountedRun(p, stdev, counts, fed[..|fed| - 1]);
      assert (counts + fed)[..|counts + fed| - 1] == counts + fed[..|fed| - 1];
    }
  }

  class HoltWintersDetector {
    const params: Params
    const stdev: Stdev
    const seasonals: array<real>
    var level: real
    var trend: real
    var residuals: seq<real>
    var t: nat
    var score: real
    var initialized: bool
    var currentBucket: int
    var currentCount: nat
    ghost var events: seq<nat>

    ghost function Model(): State
      reads this, seasonals
    {
      State(level, trend, seasonals[..], residuals, t, score, initialized)
    }

    /** The detector is the model run over everything bucketed so far. */
    ghost predicate Valid()
      reads this, seasonals
    {
      && params.Valid() && seasonals.Length == params.period
      && Bucketing.Buckets(currentBucket, currentCount) == Bucketing.Run(events)
      && Model() == Run(params, stdev, Bucketing.Fed(events, params.period))
    }

    constructor (params: Params, stdev: Stdev)
      requires params.Valid()
      ensures Valid() && events == [] && fresh(seasonals)
      ensures this.params == params && this.stdev == stdev
    {
      this.params, this.stdev := params, stdev;
      seasonals := new real[params.period](i => 0.0);
      level, trend, residuals, t, score, initialized := 0.0, 0.0, [], 0, 0.0, false;
      currentBucket, currentCount := -1, 0;
      events := [];
      new;
      assert seasonals[..] == Initial(params).seasonals;
    }

    method Learn(ts: nat)
      requires Valid()
      modifies this, seasonals
      ensures Valid() && events == old(events) + [Bucketing.BucketOf(ts)]
    {
      hide Update, Counted, Run, Bucketing.Run, Bucketing.Fed, Bucketing.Histogram, Bucketing.Newest;
      var bucket := Bucketing.BucketOf(ts);
      ghost var fed := Bucketing.Fed(events, params.period);
      Bucketing.RunIsNewest(events);
      Bucketing.OneMore(events, bucket, params.period);
      assert fed + [] == fed;
      events := events + [bucket];
      if currentBucket == -1 {
        currentBucket, currentCount := bucket, 1;
        return;
      }
      if bucket == currentBucket {
        currentCount := currentCount + 1;
        return;
      }
      if bucket < currentBucket { return; }
      ghost var batch := [currentCount] + Bucketing.Zeros(Bucketing.Min(bucket - currentBucket - 1, params.period));
      CountedRun(params, stdev, fed, batch);
      Complete(bucket - currentBucket - 1);
      currentBucket, currentCount := bucket, 1;
    }

    /** Feeds the current count and then the empty buckets of the gap. */
    method Complete(gap: nat)
      requires params.Valid() && seasonals.Length == params.period
      modifies this`level, this`trend, this`residuals, this`t, this`score, this`initialized, seasonals
      ensures Model() == Counted(params, stdev, old(Model()),
                                 [currentCount] + Bucketing.Zeros(Bucketing.Min(gap, params.period)))
    {
      hide Update;
      ghost var batch := [currentCount];
      assert batch[..0] == [];
      UpdateModel(currentCount as real);
      for n := 0 to Bucketing.Min(gap, params.period)
        invariant Model() == Counted(params, stdev, old(Model()), batch)
        invariant batch == [currentCount] + Bucketing.Zeros(n)
      {
        assert (batch + [0])[..|batch|] == batch;
        batch := batch + [0];
        UpdateModel(0.0);
      }
    }

    method UpdateModel(count: real)
      requires params.Valid() && seasonals.Length == params.period
      modifies this`level, this`trend, this`residuals, this`t, this`score, this`initialized, seasonals
      ensures Model() == Update(params, stdev, old(Model()), count)
    {
      hide WarmUp, Smooth;
      if !initialized {
        level, initialized, t := count, true, t + 1;
        return;
      }
      if t < params.period {
        WarmUpModel(count);
      } else {
        SmoothModel(count);
      }
    }

    method WarmUpModel(count: real)
      requires seasonals.Length == params.period && t < params.period
      modifies this`level, this`t, this`score, seasonals
      ensures Model() == WarmUp(params, old(Model()), count)
    {
      hide NextMean;
      var idx := t % params.period;
      assert idx == t;
      seasonals[idx] := count - level;
      level := NextMean(level, t, count);
      t, score := t + 1, 0.0;
      assert seasonals[..] == old(seasonals[..])[idx := count - old(level)];
    }

    method SmoothModel(count: real)
      requires seasonals.Length == params.period > 0 && initialized
      modifies this`level, this`trend, this`residuals, this`t, this`score, seasonals
      ensures Model() == Smooth(params, stdev, old(Model()), count)
    {
      hide Seqs.LastN, Score, Blend;
      var idx := t % params.period;
      var prediction := level + trend + seasonals[idx];
      var residual := count - prediction;
      var prevLevel := level;
      level := Blend(params.alpha, count - seasonals[idx], prevLevel + trend);
      trend := Blend(params.beta, level - prevLevel, trend);
      seasonals[idx] := Blend(params.gamma, count - prevLevel - trend, seasonals[idx]);
      assert seasonals[..] == old(seasonals[..])[idx := seasonals[idx]];
      residuals := Seqs.LastN(residuals + [residual], MAX_RESIDUALS);
      score := Score(params, stdev, residuals, residual);
      t := t + 1;
    }
  }
}
