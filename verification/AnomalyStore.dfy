/** frontend/src/stores/anomaly.ts: the dashboard's dense series of anomaly buckets, kept
    current by streamed scores and by clock ticks. Reals stand for floats. */
module AnomalyStores {
  import opened Options
  import opened Seqs

  const MAX_ITEMS := 2016

  datatype Resolution = OneMinute | FiveMinutes | FifteenMinutes | OneHour
  {
    function Ns(): (r: nat)
      ensures r > 0
    {
      match this
      case OneMinute => 60 * 1_000_000_000
      case FiveMinutes => 5 * 60 * 1_000_000_000
      case FifteenMinutes => 15 * 60 * 1_000_000_000
      case OneHour => 3600 * 1_000_000_000
    }
  }

  datatype Event = Event(ts: nat, score: real, threshold: Option<real>, source: string)

  datatype Bucket = Bucket(
    start: nat,
    max: Option<real>,
    avg: Option<real>,
    count: nat,
    threshold: Option<real>,
    alerts: nat)

  datatype Store = Store(items: seq<Bucket>, resolution: Resolution, source: Option<string>, known: set<string>)

  predicate IsUnit(res: nat): (unit: bool)
    ensures unit ==> res > 0
  {
    res == OneMinute.Ns() || res == FiveMinutes.Ns() || res == FifteenMinutes.Ns() || res == OneHour.Ns()
  }

  predicate Aligned(x: nat, res: nat)
    requires res > 0
  {
    x % res == 0
  }

  function BucketStart(ts: nat, res: nat): (b: nat)
    requires IsUnit(res)
    ensures b <= ts < b + res && Aligned(b, res)
  {
    Floors(ts, res);
    ts / res * res
  }

  lemma Floors(ts: nat, res: nat)
    requires IsUnit(res)
    ensures var b := ts / res * res; b <= ts < b + res && Aligned(b, res)
  {
    if res == 60_000_000_000 {
      assert ts / res * res == ts / 60_000_000_000 * 60_000_000_000;
    } else if res == 300_000_000_000 {
      assert ts / res * res == ts / 300_000_000_000 * 300_000_000_000;
    } else if res == 900_000_000_000 {
      assert ts / res * res == ts / 900_000_000_000 * 900_000_000_000;
    } else {
      assert ts / res * res == ts / 3_600_000_000_000 * 3_600_000_000_000;
    }
  }

  lemma NextMultiple(a: nat, b: nat, res: nat)
    requires IsUnit(res) && Aligned(a, res) && Aligned(b, res)
    ensures Aligned(a + res, res) && (a < b ==> a + res <= b)
  {
  }

  // ---- the actions ----------------------------------------------------------------------------

  function Gap(start: nat, threshold: Option<real>): Bucket {
    Bucket(start, None, None, 0, threshold, 0)
  }

  /** Empty buckets from `b` on, a resolution apart, below `end`. */
  function Fill(b: nat, end: nat, res: nat, threshold: Option<real>): seq<Bucket>
    requires res > 0
    decreases if b < end then end - b else 0
  {
    if b >= end then [] else [Gap(b, threshold)] + Fill(b + res, end, res, threshold)
  }

  function OrElse(a: Option<real>, b: Option<real>): Option<real> {
    if a.Some? then a else b
  }

  function Larger(a: Option<real>, x: real): Option<real> {
    if a.None? || x >= a.value then Some(x) else a
  }

  function SumOf(b: Bucket): real {
    if b.avg.None? then 0.0 else b.avg.value * b.count as real
  }

  function MergeInto(last: Bucket, e: Event): Bucket {
    var n := last.count + 1;
    last.(count := n, max := Larger(last.max, e.score), avg := Some((SumOf(last) + e.score) / n as real),
          threshold := OrElse(e.threshold, last.threshold))
  }

  function First(start: nat, last: Bucket, e: Event): Bucket {
    Bucket(start, Some(e.score), Some(e.score), 1, OrElse(e.threshold, last.threshold), 0)
  }

  function AppendItems(items: seq<Bucket>, res: nat, e: Event): seq<Bucket>
    requires IsUnit(res)
  {
    if items == [] then []
    else
      var n := |items| - 1;
      var last, target := items[n], BucketStart(e.ts, res);
      if target < last.start then items
      else if target == last.start then items[..n] + [MergeInto(last, e)]
      else LastN(items + (Fill(last.start + res, target, res, last.threshold) + [First(target, last, e)]), MAX_ITEMS)
  }

  function TickItems(items: seq<Bucket>, res: nat, now: nat): seq<Bucket>
    requires IsUnit(res)
  {
    if items == [] || now - items[|items| - 1].start < res then items
    else
      var last := items[|items| - 1];
      LastN(items + Fill(last.start + res, BucketStart(now, res) + 1, res, last.threshold), MAX_ITEMS)
  }

  predicate Accepts(source: Option<string>, e: Event) {
    source.None? || source.value == e.source
  }

  function Append(s: Store, e: Event): Store {
    s.(known := s.known + {e.source},
       items := if Accepts(s.source, e) then AppendItems(s.items, s.resolution.Ns(), e) else s.items)
  }

  function Tick(s: Store, now: nat): Store {
    s.(items := TickItems(s.items, s.resolution.Ns(), now))
  }

  datatype Op = Score(event: Event) | Clock(now: nat)

  function Step(s: Store, op: Op): Store {
    match op
    case Score(e) => Append(s, e)
    case Clock(now) => Tick(s, now)
  }

  /** From a series the server sent, under one resolution and source filter. */
  function Run(s: Store, ops: seq<Op>): Store {
    if ops == [] then s else Step(Run(s, ops[..|ops| - 1]), ops[|ops| - 1])
  }

  // ---- the series stays dense ----------------------------------------------------------------------

  predicate Dense(items: seq<Bucket>, res: nat)
    requires res > 0
  {
    && (forall i :: 0 <= i < |items| ==> Aligned(items[i].start, res))
    && (forall i :: 0 < i < |items| ==> items[i].start == items[i - 1].start + res)
  }

  ghost predicate Good(items: seq<Bucket>, res: nat)
    requires res > 0
  {
    Dense(items, res) && |items| <= MAX_ITEMS
  }

  lemma DenseJoin(a: seq<Bucket>, b: seq<Bucket>, res: nat)
    requires res > 0 && Dense(a, res) && Dense(b, res)
    requires a != [] && b != [] ==> b[0].start == a[|a| - 1].start + res
    ensures Dense(a + b, res)
  {
    var s := a + b;
    forall i | 0 < i < |s|
      ensures s[i].start == s[i - 1].start + res
    {
      if i > |a| { assert s[i] == b[i - |a|] && s[i - 1] == b[i - 1 - |a|]; }
    }
  }

  lemma OneIsDense(b: Bucket, res: nat)
    requires IsUnit(res) && Aligned(b.start, res)
    ensures Dense([b], res)
  {
  }

  lemma {:induction false} FillIsDense(b: nat, end: nat, res: nat, threshold: Option<real>)
    requires IsUnit(res) && Aligned(b, res)
    ensures var f := Fill(b, end, res, threshold);
            && Dense(f, res) && (f != [] ==> f[0].start == b && f[|f| - 1].start < end <= f[|f| - 1].start + res)
            && (f == [] <==> b >= end)
    decreases if b < end then end - b else 0
  {
    hide Aligned, IsUnit;
    if b < end {
      NextMultiple(b, b, res);
      FillIsDense(b + res, end, res, threshold);
      OneIsDense(Gap(b, threshold), res);
      hide Dense;
      DenseJoin([Gap(b, threshold)], Fill(b + res, end, res, threshold), res);
    }
  }

  lemma {:induction false} FillIsGaps(b: nat, end: nat, res: nat, threshold: Option<real>)
    requires res > 0
    ensures forall x :: x in Fill(b, end, res, threshold) ==> x == Gap(x.start, threshold) && b <= x.start < end
    decreases if b < end then end - b else 0
  {
    if b < end { FillIsGaps(b + res, end, res, threshold); }
  }

  lemma DenseLastN(s: seq<Bucket>, res: nat, n: nat)
    requires res > 0 && Dense(s, res)
    ensures Dense(LastN(s, n), res)
  {
    var r := LastN(s, n);
    forall i | 0 < i < |r|
      ensures r[i].start == r[i - 1].start + res
    {
      assert r[i] == s[|s| - |r| + i] && r[i - 1] == s[|s| - |r| + i - 1];
    }
  }

  lemma LastAligned(items: seq<Bucket>, res: nat)
    requires IsUnit(res) && Good(items, res) && items != []
    ensures Aligned(items[|items| - 1].start, res) && Aligned(items[|items| - 1].start + res, res)
  {
    assert Aligned(items[|items| - 1].start, res);
    hide Aligned;
    NextMultiple(items[|items| - 1].start, items[|items| - 1].start, res);
  }

  lemma TickIsGood(items: seq<Bucket>, res: nat, now: nat)
    requires IsUnit(res) && Good(items, res)
    ensures Good(TickItems(items, res, now), res)
  {
    hide Aligned, IsUnit, Dense, BucketStart, Fill, LastN;
    if items != [] {
      var last := items[|items| - 1];
      LastAligned(items, res);
      FillIsDense(last.start + res, BucketStart(now, res) + 1, res, last.threshold);
      var f := Fill(last.start + res, BucketStart(now, res) + 1, res, last.threshold);
      DenseJoin(items, f, res);
      DenseLastN(items + f, res, MAX_ITEMS);
    }
  }

  lemma AppendIsGood(items: seq<Bucket>, res: nat, e: Event)
    requires IsUnit(res) && Good(items, res)
    ensures Good(AppendItems(items, res, e), res)
  {
    hide Aligned, IsUnit, BucketStart, LastN;
    if items != [] {
      var last, target := items[|items| - 1], BucketStart(e.ts, res);
      if target > last.start {
        LastAligned(items, res);
        NewIsDense(last, target, res, First(target, last, e));
        hide Dense, Fill;
        var more := Fill(last.start + res, target, res, last.threshold) + [First(target, last, e)];
        DenseJoin(items, more, res);
        DenseLastN(items + more, res, MAX_ITEMS);
      }
    }
  }

  lemma NewIsDense(last: Bucket, target: nat, res: nat, x: Bucket)
    requires IsUnit(res) && Aligned(last.start, res) && Aligned(target, res) && last.start < target && x.start == target
    ensures var more := Fill(last.start + res, target, res, last.threshold) + [x];
            Dense(more, res) && more[0].start == last.start + res
  {
    NextMultiple(last.start, target, res);
    hide Aligned, IsUnit;
    var f := Fill(last.start + res, target, res, last.threshold);
    FillIsDense(last.start + res, target, res, last.threshold);
    if f != [] { NextMultiple(f[|f| - 1].start, target, res); }
    hide Fill;
    OneIsDense(x, res);
    DenseJoin(f, [x], res);
  }

  /** From a dense series, under one resolution, the series stays dense, aligned and
      within the cap, whatever is streamed and whenever the clock ticks. */
  lemma {:induction false} SeriesStaysDense(s: Store, ops: seq<Op>)
    requires Good(s.items, s.resolution.Ns())
    ensures Good(Run(s, ops).items, s.resolution.Ns())
    ensures |Run(s, ops).items| <= 2016
    ensures Run(s, ops).resolution == s.resolution && Run(s, ops).source == s.source
  {
    if ops != [] {
      var init, op := ops[..|ops| - 1], ops[|ops| - 1];
      SeriesStaysDense(s, init);
      var res := s.resolution.Ns();
      hide Good, AppendItems, TickItems, Resolution.Ns;
      assert IsUnit(res) by { UnitIs(s.resolution); }
      match op
      case Score(e) => AppendIsGood(Run(s, init).items, res, e);
      case Clock(now) => TickIsGood(Run(s, init).items, res, now);
    }
  }

  lemma UnitIs(r: Resolution)
    ensures IsUnit(r.Ns())
  {
  }

  // ---- ticks are transparent -----------------------------------------------------------------------------

  lemma {:induction false} FillSplit(b: nat, t: nat, end: nat, res: nat, threshold: Option<real>)
    requires IsUnit(res) && Aligned(b, res) && Aligned(t, res) && b <= t + res && t < end
    ensures Fill(b, t + 1, res, threshold) + Fill(t + res, end, res, threshold) == Fill(b, end, res, threshold)
    decreases t + res - b
  {
    if b > t {
      NextMultiple(t, b, res);
    } else {
      NextMultiple(b, t, res);
      hide Aligned, IsUnit;
      FillSplit(b + res, t, end, res, threshold);
    }
  }

  lemma {:induction false} FillLast(b: nat, t: nat, res: nat, threshold: Option<real>)
    requires IsUnit(res) && Aligned(b, res) && Aligned(t, res) && b <= t
    ensures Fill(b, t + 1, res, threshold) == Fill(b, t, res, threshold) + [Gap(t, threshold)]
    decreases t - b
  {
    NextMultiple(b, t, res);
    if b < t {
      hide Aligned;
      FillLast(b + res, t, res, threshold);
    }
  }

  function Later(a: nat, b: nat): nat { if a >= b then a else b }

  /** `items` extended with empty buckets up to the bucket at `t`. */
  function RollTo(items: seq<Bucket>, res: nat, t: nat): seq<Bucket>
    requires res > 0
  {
    if items == [] then []
    else
      var last := items[|items| - 1];
      LastN(items + Fill(last.start + res, t + 1, res, last.threshold), MAX_ITEMS)
  }

  lemma TickIsRoll(items: seq<Bucket>, res: nat, now: nat)
    requires IsUnit(res) && Good(items, res)
    ensures TickItems(items, res, now) == RollTo(items, res, BucketStart(now, res))
  {
    if items != [] && now - items[|items| - 1].start < res {
      RollBack(items, res, BucketStart(now, res));
    }
  }

  lemma RollBack(items: seq<Bucket>, res: nat, t: nat)
    requires res > 0 && |items| <= MAX_ITEMS && (items != [] ==> t < items[|items| - 1].start + res)
    ensures RollTo(items, res, t) == items
  {
    assert items + [] == items;
  }

  lemma RollForward(items: seq<Bucket>, res: nat, t: nat)
    requires IsUnit(res) && Good(items, res) && items != [] && Aligned(t, res) && t > items[|items| - 1].start
    ensures var last, r := items[|items| - 1], RollTo(items, res, t);
            && r == LastN(items + Fill(last.start + res, t, res, last.threshold) + [Gap(t, last.threshold)], MAX_ITEMS)
            && r[|r| - 1] == Gap(t, last.threshold)
  {
    hide Aligned, IsUnit, Fill, Good;
    var last := items[|items| - 1];
    LastAligned(items, res);
    NextMultiple(last.start, t, res);
    FillLast(last.start + res, t, res, last.threshold);
    assert items + (Fill(last.start + res, t, res, last.threshold) + [Gap(t, last.threshold)])
        == items + Fill(last.start + res, t, res, last.threshold) + [Gap(t, last.threshold)];
  }

  /** Rolling on from a rolled series: the empty buckets of both parts line up. */
  lemma RollFurther(items: seq<Bucket>, res: nat, t: nat, end: nat, more: seq<Bucket>)
    requires IsUnit(res) && items != [] && Aligned(items[|items| - 1].start, res) && Aligned(t, res)
    requires items[|items| - 1].start < t < end
    ensures var last := items[|items| - 1];
            LastN(RollTo(items, res, t) + (Fill(t + res, end, res, last.threshold) + more), MAX_ITEMS)
            == LastN(items + (Fill(last.start + res, end, res, last.threshold) + more), MAX_ITEMS)
  {
    hide Aligned, Fill, LastN;
    var last := items[|items| - 1];
    NextMultiple(last.start, t, res);
    FillSplit(last.start + res, t, end, res, last.threshold);
    var f, g := Fill(last.start + res, t + 1, res, last.threshold), Fill(t + res, end, res, last.threshold);
    LastNAppend(items + f, g + more, MAX_ITEMS);
    assert items + f + (g + more) == items + (f + g + more);
  }

  lemma RollTwiceForward(items: seq<Bucket>, res: nat, t: nat, u: nat)
    requires IsUnit(res) && Good(items, res) && Aligned(t, res) && Aligned(u, res)
    requires items != [] && items[|items| - 1].start < t < u
    ensures RollTo(RollTo(items, res, t), res, u) == RollTo(items, res, u)
  {
    hide Good, Aligned, IsUnit, Fill, LastN;
    var last := items[|items| - 1];
    LastAligned(items, res);
    RollForward(items, res, t);
    RollFurther(items, res, t, u + 1, []);
    assert Fill(t + res, u + 1, res, last.threshold) + [] == Fill(t + res, u + 1, res, last.threshold);
    var f := Fill(last.start + res, u + 1, res, last.threshold);
    assert f + [] == f;
  }

  lemma RollTwice(items: seq<Bucket>, res: nat, t: nat, u: nat)
    requires IsUnit(res) && Good(items, res) && Aligned(t, res) && Aligned(u, res)
    ensures RollTo(RollTo(items, res, t), res, u) == RollTo(items, res, Later(t, u))
  {
    if items != [] {
      var last := items[|items| - 1];
      if t > last.start && u > t { RollTwiceForward(items, res, t, u); }
      if t > last.start { RollForward(items, res, t); }
      hide Fill, Good, Aligned, LastN;
      if t <= last.start {
        RollBack(items, res, t);
        if u < t { RollBack(items, res, u); }
      } else if u <= t {
        RollBack(RollTo(items, res, t), res, u);
      }
    }
  }

  lemma RollThenAppendLater(items: seq<Bucket>, res: nat, t: nat, e: Event)
    requires IsUnit(res) && Good(items, res) && Aligned(t, res) && items != []
    requires items[|items| - 1].start < t < BucketStart(e.ts, res)
    ensures AppendItems(RollTo(items, res, t), res, e) == AppendItems(items, res, e)
  {
    hide Good, Aligned, IsUnit, Fill, LastN, RollTo, BucketStart;
    var last, target := items[|items| - 1], BucketStart(e.ts, res);
    LastAligned(items, res);
    RollForward(items, res, t);
    RollFurther(items, res, t, target, [First(target, last, e)]);
  }

  lemma RollThenAppend(items: seq<Bucket>, res: nat, t: nat, e: Event)
    requires IsUnit(res) && Good(items, res) && Aligned(t, res) && t <= BucketStart(e.ts, res)
    ensures AppendItems(RollTo(items, res, t), res, e) == AppendItems(items, res, e)
  {
    if items != [] {
      hide Aligned, Fill, LastN, AppendItems, Dense;
      var last, target := items[|items| - 1], BucketStart(e.ts, res);
      if t <= last.start {
        RollBack(items, res, t);
      } else if target == t {
        MergeIntoGap(items, res, e);
      } else {
        RollThenAppendLater(items, res, t, e);
      }
    }
  }

  lemma MergeIntoGap(items: seq<Bucket>, res: nat, e: Event)
    requires IsUnit(res) && Good(items, res) && items != [] && BucketStart(e.ts, res) > items[|items| - 1].start
    ensures AppendItems(RollTo(items, res, BucketStart(e.ts, res)), res, e) == AppendItems(items, res, e)
  {
    var last, target := items[|items| - 1], BucketStart(e.ts, res);
    RollForward(items, res, target);
    hide Good, Aligned, Fill;
    var before := items + Fill(last.start + res, target, res, last.threshold);
    var x, y := Gap(target, last.threshold), First(target, last, e);
    assert (0.0 + e.score) / 1.0 == e.score;
    assert MergeInto(x, e) == y;
    hide MergeInto, First, Gap;
    ReplaceLast(before, x, y);
    assert items + (Fill(last.start + res, target, res, last.threshold) + [y]) == before + [y];
  }

  lemma ReplaceLast(s: seq<Bucket>, x: Bucket, y: Bucket)
    ensures var r := LastN(s + [x], MAX_ITEMS); r[..|r| - 1] + [y] == LastN(s + [y], MAX_ITEMS)
  {
  }

  function Scores(ops: seq<Op>): seq<Op> {
    if ops == [] then []
    else Scores(ops[..|ops| - 1]) + if ops[|ops| - 1].Score? then [ops[|ops| - 1]] else []
  }

  /** The series the scores alone make. */
  function Plain(s: Store, ops: seq<Op>): seq<Bucket> {
    Run(s, Scores(ops)).items
  }

  function NewestStart(items: seq<Bucket>): nat {
    if items == [] then 0 else items[|items| - 1].start
  }

  /** Whether the operation is a score that is in time for the series of the scores alone. */
  predicate InTime(s: Store, before: seq<Op>, op: Op) {
    UnitIs(s.resolution);
    && op.Score? && Accepts(s.source, op.event) && Plain(s, before) != []
    && BucketStart(op.event.ts, s.resolution.Ns()) >= NewestStart(Plain(s, before))
  }

  /** The furthest bucket the clock reached since the last score in time. */
  function Behind(s: Store, ops: seq<Op>): nat {
    if ops == [] then 0
    else
      var init, op := ops[..|ops| - 1], ops[|ops| - 1];
      if op.Clock? then UnitIs(s.resolution); Later(Behind(s, init), BucketStart(op.now, s.resolution.Ns()))
      else if InTime(s, init, op) then 0 else Behind(s, init)
  }

  /** A score in time whose bucket the clock has already passed. */
  predicate Overtaken(s: Store, before: seq<Op>, op: Op) {
    UnitIs(s.resolution);
    InTime(s, before, op) && BucketStart(op.event.ts, s.resolution.Ns()) < Behind(s, before)
  }

  predicate Timely(s: Store, ops: seq<Op>) {
    forall n :: 0 <= n < |ops| ==> !Overtaken(s, ops[..n], ops[n])
  }

  lemma BehindIsAligned(s: Store, ops: seq<Op>)
    ensures Aligned(Behind(s, ops), s.resolution.Ns())
  {
    hide IsUnit, BucketStart, InTime;
    if ops != [] {
      BehindIsAligned(s, ops[..|ops| - 1]);
      UnitIs(s.resolution);
      hide Aligned, Resolution.Ns;
    }
  }

  lemma {:induction false} ScoresKeepGood(s: Store, ops: seq<Op>)
    requires Good(s.items, s.resolution.Ns())
    ensures var r := Run(s, Scores(ops));
            Good(r.items, s.resolution.Ns()) && r.resolution == s.resolution && r.source == s.source
  {
    SeriesStaysDense(s, Scores(ops));
  }

  lemma RunOneMore(s: Store, ops: seq<Op>, op: Op)
    ensures Run(s, ops + [op]) == Step(Run(s, ops), op)
  {
    hide Step;
    assert (ops + [op])[..|ops|] == ops;
  }

  lemma ScoresOneMore(s: Store, init: seq<Op>, op: Op)
    ensures Run(s, Scores(init + [op])) ==
      if op.Score? then Step(Run(s, Scores(init)), op) else Run(s, Scores(init))
  {
    hide Step, Run;
    assert (init + [op])[..|init|] == init;
    assert Scores(init) + [] == Scores(init);
    if op.Score? { RunOneMore(s, Scores(init), op); }
  }

  lemma TimelyBefore(s: Store, ops: seq<Op>, m: nat)
    requires m <= |ops| && Timely(s, ops)
    ensures Timely(s, ops[..m])
  {
    hide Overtaken;
    assert forall i :: 0 <= i < m ==> ops[..m][..i] == ops[..i] && ops[..m][i] == ops[i];
  }

  lemma RollNowhere(items: seq<Bucket>, res: nat)
    requires IsUnit(res) && Good(items, res)
    ensures RollTo(items, res, 0) == items
  {
    RollBack(items, res, 0);
  }

  lemma RollNewest(items: seq<Bucket>, res: nat, t: nat)
    requires IsUnit(res) && Good(items, res) && items != [] && Aligned(t, res)
    ensures var r := RollTo(items, res, t); r != [] && NewestStart(r) == Later(NewestStart(items), t)
  {
    hide Dense, Aligned, IsUnit, Fill;
    if t > items[|items| - 1].start { RollForward(items, res, t); } else { RollBack(items, res, t); }
  }

  /** A stale score changes neither the ticked series nor that of the scores alone. */
  lemma StaleTwice(items: seq<Bucket>, res: nat, t: nat, e: Event)
    requires IsUnit(res) && Good(items, res) && Aligned(t, res)
    requires items != [] ==> BucketStart(e.ts, res) < NewestStart(items)
    ensures AppendItems(items, res, e) == items && AppendItems(RollTo(items, res, t), res, e) == RollTo(items, res, t)
  {
    hide Good, Aligned, IsUnit, Fill;
    if items != [] { RollNewest(items, res, t); }
  }

  lemma TickRolls(items: seq<Bucket>, res: nat, t: nat, now: nat)
    requires IsUnit(res) && Good(items, res) && Aligned(t, res) && Good(RollTo(items, res, t), res)
    ensures TickItems(RollTo(items, res, t), res, now) == RollTo(items, res, Later(t, BucketStart(now, res)))
  {
    hide Good, Aligned, IsUnit, RollTo, TickItems, BucketStart;
    TickIsRoll(RollTo(items, res, t), res, now);
    RollTwice(items, res, t, BucketStart(now, res));
  }

  lemma ScoreRolls(items: seq<Bucket>, res: nat, t: nat, e: Event)
    requires IsUnit(res) && Good(items, res) && Aligned(t, res)
    requires items != [] && BucketStart(e.ts, res) >= NewestStart(items) ==> t <= BucketStart(e.ts, res)
    ensures AppendItems(RollTo(items, res, t), res, e) ==
      RollTo(AppendItems(items, res, e), res,
             if items != [] && BucketStart(e.ts, res) >= NewestStart(items) then 0 else t)
  {
    hide Good, Aligned, IsUnit, RollTo, AppendItems, BucketStart;
    if items != [] && BucketStart(e.ts, res) >= NewestStart(items) {
      RollThenAppend(items, res, t, e);
      AppendIsGood(items, res, e);
      RollNowhere(AppendItems(items, res, e), res);
    } else {
      StaleTwice(items, res, t, e);
    }
  }

  /** While no score was overtaken, the ticked series is that of the scores alone, rolled
      to where the clock is. */
  lemma {:induction false} TicksOnlyRoll(s: Store, ops: seq<Op>)
    requires Good(s.items, s.resolution.Ns()) && Timely(s, ops)
    ensures Run(s, ops).items == RollTo(Plain(s, ops), s.resolution.Ns(), Behind(s, ops))
  {
    var res := s.resolution.Ns();
    hide Good, RollTo, AppendItems, TickItems, Resolution.Ns, IsUnit, Aligned, Accepts;
    hide NewestStart, Timely, BucketStart;
    UnitIs(s.resolution);
    if ops == [] {
      RollNowhere(s.items, res);
    } else {
      var n := |ops| - 1;
      var init, op := ops[..n], ops[n];
      TimelyBefore(s, ops, n);
      NotOvertaken(s, ops, n);
      TicksOnlyRoll(s, init);
      SeriesStaysDense(s, init);
      ScoresKeepGood(s, init);
      BehindIsAligned(s, init);
      assert ops == init + [op];
      ScoresOneMore(s, init, op);
      hide Scores;
      match op
      case Clock(now) => TickRolls(Plain(s, init), res, Behind(s, init), now);
      case Score(e) => if Accepts(s.source, e) { ScoreRolls(Plain(s, init), res, Behind(s, init), e); }
    }
  }

  lemma NotOvertaken(s: Store, ops: seq<Op>, n: nat)
    requires n < |ops| && Timely(s, ops)
    ensures !Overtaken(s, ops[..n], ops[n])
  {
    hide Overtaken;
  }

  lemma {:induction false} SameKnown(s: Store, ops: seq<Op>)
    ensures Run(s, ops).known == Run(s, Scores(ops)).known
    ensures Run(s, ops).resolution == s.resolution == Run(s, Scores(ops)).resolution
    ensures Run(s, ops).source == s.source == Run(s, Scores(ops)).source
  {
    if ops != [] {
      var init, op := ops[..|ops| - 1], ops[|ops| - 1];
      SameKnown(s, init);
      assert ops == init + [op];
      ScoresOneMore(s, init, op);
      UnitIs(s.resolution);
      hide Scores, AppendItems, TickItems, Accepts, IsUnit, Resolution.Ns;
    }
  }

  lemma RollsNowhereIff(items: seq<Bucket>, res: nat, t: nat)
    requires IsUnit(res) && Good(items, res) && items != [] && Aligned(t, res)
    ensures RollTo(items, res, t) == items <==> t <= NewestStart(items)
  {
    hide Dense, Aligned, IsUnit, RollTo;
    RollNewest(items, res, t);
    if t <= NewestStart(items) { RollBack(items, res, t); }
  }

  lemma NothingBehind(s: Store, ops: seq<Op>)
    requires ops != [] && InTime(s, ops[..|ops| - 1], ops[|ops| - 1])
    ensures Behind(s, ops) == 0
  {
    hide Accepts, Plain, BucketStart, NewestStart;
  }

  /** Clock ticks leave no trace: while no score was overtaken, the store is what the
      scores alone make of it, truncation included, if and only if the clock is not
      ahead of the newest bucket. After every score in time it is not. */
  lemma TicksAreTransparent(s: Store, ops: seq<Op>)
    requires Good(s.items, s.resolution.Ns()) && s.items != [] && Timely(s, ops)
    ensures Run(s, ops) == Run(s, Scores(ops)) <==> Behind(s, ops) <= NewestStart(Plain(s, ops))
    ensures ops != [] && InTime(s, ops[..|ops| - 1], ops[|ops| - 1]) ==> Run(s, ops) == Run(s, Scores(ops))
  {
    hide Run, Scores, Good, RollTo, Resolution.Ns, IsUnit, Aligned, InTime, Timely, NewestStart, BucketStart;
    if ops != [] && InTime(s, ops[..|ops| - 1], ops[|ops| - 1]) { NothingBehind(s, ops); }
    hide Behind;
    TicksOnlyRoll(s, ops);
    ScoresKeepGood(s, ops);
    SameKnown(s, ops);
    UnitIs(s.resolution);
    OnlyFullSeriesForget(s, Scores(ops));
    BehindIsAligned(s, ops);
    RollsNowhereIff(Plain(s, ops), s.resolution.Ns(), Behind(s, ops));
  }

  /** At a score in time, the ticked series is that of the scores alone. */
  predicate AgreesAt(s: Store, ops: seq<Op>, n: nat)
    requires n < |ops|
  {
    InTime(s, ops[..n], ops[n]) ==> Run(s, ops[..n + 1]).items == Plain(s, ops[..n + 1])
  }

  lemma OvertakenDiffers(s: Store, ops: seq<Op>, n: nat)
    requires Good(s.items, s.resolution.Ns()) && s.items != []
    requires n < |ops| && Timely(s, ops[..n]) && Overtaken(s, ops[..n], ops[n])
    ensures !AgreesAt(s, ops, n)
  {
    hide Good, RollTo, AppendItems, Resolution.Ns, IsUnit, Aligned, Timely, BucketStart, Scores, Run, Behind;
    var res, init, op := s.resolution.Ns(), ops[..n], ops[n];
    UnitIs(s.resolution);
    TicksOnlyRoll(s, init);
    SeriesStaysDense(s, init);
    ScoresKeepGood(s, init);
    BehindIsAligned(s, init);
    RollNewest(Plain(s, init), res, Behind(s, init));
    StaleAppend(Run(s, init).items, res, op.event);
    AppendLast(Plain(s, init), res, op.event);
    assert ops[..n + 1] == init + [op];
    ScoresOneMore(s, init, op);
    RunOneMore(s, init, op);
  }

  lemma {:induction false} AgreeingIsTimely(s: Store, ops: seq<Op>, n: nat)
    requires Good(s.items, s.resolution.Ns()) && s.items != []
    requires n <= |ops| && forall m :: 0 <= m < |ops| ==> AgreesAt(s, ops, m)
    ensures Timely(s, ops[..n])
  {
    hide Good, AgreesAt, Overtaken;
    if n > 0 {
      AgreeingIsTimely(s, ops, n - 1);
      assert AgreesAt(s, ops, n - 1);
      if Overtaken(s, ops[..n - 1], ops[n - 1]) { OvertakenDiffers(s, ops, n - 1); }
      forall i | 0 <= i < n
        ensures !Overtaken(s, ops[..n][..i], ops[..n][i])
      {
        assert ops[..n][..i] == ops[..i];
        if i < n - 1 {
          assert ops[..n - 1][..i] == ops[..i] && ops[..n - 1][i] == ops[i];
          assert !Overtaken(s, ops[..n - 1][..i], ops[..n - 1][i]);
        }
      }
    }
  }

  /** Exactly when ticks leave no trace at any score of the run: when none is overtaken. */
  lemma TransparentIff(s: Store, ops: seq<Op>)
    requires Good(s.items, s.resolution.Ns()) && s.items != []
    ensures (forall n :: 0 <= n < |ops| ==> AgreesAt(s, ops, n)) <==> Timely(s, ops)
  {
    hide Good, AgreesAt, Timely;
    assert ops[..|ops|] == ops;
    if Timely(s, ops) {
      forall n | 0 <= n < |ops|
        ensures AgreesAt(s, ops, n)
      {
        TimelyAgrees(s, ops, n);
      }
    }
    if forall n :: 0 <= n < |ops| ==> AgreesAt(s, ops, n) { AgreeingIsTimely(s, ops, |ops|); }
  }

  lemma TimelyAgrees(s: Store, ops: seq<Op>, n: nat)
    requires Good(s.items, s.resolution.Ns()) && s.items != [] && n < |ops| && Timely(s, ops)
    ensures AgreesAt(s, ops, n)
  {
    hide Good, Timely, Run, InTime;
    TimelyBefore(s, ops, n + 1);
    TicksAreTransparent(s, ops[..n + 1]);
    assert ops[..n + 1][..n] == ops[..n];
  }

  /** A score the clock has overtaken is dropped. */
  lemma OvertakenScoreIsDropped(items: seq<Bucket>, res: nat, t: nat, e: Event)
    requires IsUnit(res) && Good(items, res) && items != [] && Aligned(t, res)
    requires t > items[|items| - 1].start && BucketStart(e.ts, res) < t
    ensures AppendItems(RollTo(items, res, t), res, e) == RollTo(items, res, t)
  {
    hide Good, Aligned, IsUnit, BucketStart, Fill;
    RollForward(items, res, t);
  }

  // ---- a change of resolution ----------------------------------------------------------------------------

  lemma {:induction false} FillSteps(b: nat, end: nat, res: nat, threshold: Option<real>)
    requires res > 0
    ensures var f := Fill(b, end, res, threshold);
            && (f != [] <==> b < end) && (f != [] ==> f[0].start == b)
            && forall i :: 0 < i < |f| ==> f[i].start == f[i - 1].start + res
    decreases if b < end then end - b else 0
  {
    if b < end {
      FillSteps(b + res, end, res, threshold);
      var rest := Fill(b + res, end, res, threshold);
      var f := [Gap(b, threshold)] + rest;
      forall i | 0 < i < |f|
        ensures f[i].start == f[i - 1].start + res
      {
        if i > 1 { assert f[i] == rest[i - 1] && f[i - 1] == rest[i - 2]; }
      }
    }
  }

  lemma NotDense(s: seq<Bucket>, res: nat, i: nat)
    requires res > 0 && 0 < i < |s| && s[i].start != s[i - 1].start + res
    ensures !Dense(s, res)
  {
  }

  /** With empty buckets in between, the new series has a step of the new resolution. */
  lemma GapsBreakDensity(items: seq<Bucket>, f: seq<Bucket>, x: Bucket, was: nat, res: nat)
    requires was > 0 && res > 0 && was != res && items != [] && |items| <= MAX_ITEMS && f != []
    requires f[0].start == items[|items| - 1].start + res
    requires forall i :: 0 < i < |f| ==> f[i].start == f[i - 1].start + res
    ensures !Dense(LastN(items + (f + [x]), MAX_ITEMS), was)
  {
    var raw := items + (f + [x]);
    var r := LastN(raw, MAX_ITEMS);
    if |f| + 1 < MAX_ITEMS {
      var i := |r| - |f| - 1;
      assert r[i] == f[0] && r[i - 1] == items[|items| - 1];
      NotDense(r, was, i);
    } else {
      assert r[MAX_ITEMS - 2] == f[|f| - 1] && r[MAX_ITEMS - 3] == f[|f| - 2];
      NotDense(r, was, MAX_ITEMS - 2);
    }
  }

  lemma DirectStep(items: seq<Bucket>, x: Bucket, res: nat)
    requires IsUnit(res) && Good(items, res) && items != []
    ensures Dense(LastN(items + [x], MAX_ITEMS), res) <==> x.start == items[|items| - 1].start + res
  {
    var r := LastN(items + [x], MAX_ITEMS);
    assert r[|r| - 1] == x && r[|r| - 2] == items[|items| - 1];
    hide IsUnit, LastN;
    if x.start == items[|items| - 1].start + res {
      LastAligned(items, res);
      OneIsDense(x, res);
      hide Dense;
      DenseJoin(items, [x], res);
      DenseLastN(items + [x], res, MAX_ITEMS);
    } else {
      NotDense(r, res, |r| - 1);
    }
  }

  /** A score that arrives after a change of resolution and before the next series keeps
      the series dense exactly when it adds no bucket, or adds just the one that is next
      at the old resolution, with no shorter step to fill. */
  lemma ResolutionChangeKeepsDenseIff(items: seq<Bucket>, was: nat, res: nat, e: Event)
    requires IsUnit(was) && IsUnit(res) && was != res && Good(items, was) && items != []
    ensures var last, target := items[|items| - 1].start, BucketStart(e.ts, res);
            Dense(AppendItems(items, res, e), was) <==> target <= last || (target == last + was && was < res)
  {
    hide IsUnit, LastN, BucketStart, Fill, Dense, Aligned, First, MergeInto;
    var last, target := items[|items| - 1], BucketStart(e.ts, res);
    AppendCases(items, res, e);
    if target < last.start {
    } else if target == last.start {
      MergeKeepsDense(items, was, e);
    } else {
      var f, x := Fill(last.start + res, target, res, last.threshold), First(target, last, e);
      FillSteps(last.start + res, target, res, last.threshold);
      FirstStart(target, last, e);
      if f == [] {
        assert [] + [x] == [x];
        DirectStep(items, x, was);
      } else {
        GapsBreakDensity(items, f, x, was, res);
      }
    }
  }

  lemma TickBreaksDensity(items: seq<Bucket>, f: seq<Bucket>, was: nat, res: nat)
    requires was > 0 && res > 0 && was != res && items != [] && |items| <= MAX_ITEMS && f != []
    requires f[0].start == items[|items| - 1].start + res
    requires forall i :: 0 < i < |f| ==> f[i].start == f[i - 1].start + res
    ensures !Dense(LastN(items + f, MAX_ITEMS), was)
  {
    var r := LastN(items + f, MAX_ITEMS);
    if |f| < MAX_ITEMS {
      var i := |r| - |f|;
      assert r[i] == f[0] && r[i - 1] == items[|items| - 1];
      NotDense(r, was, i);
    } else {
      assert r[MAX_ITEMS - 1] == f[|f| - 1] && r[MAX_ITEMS - 2] == f[|f| - 2];
      NotDense(r, was, MAX_ITEMS - 1);
    }
  }

  /** A tick that comes then keeps the series dense exactly when it adds no bucket. */
  lemma TickKeepsDenseIff(items: seq<Bucket>, was: nat, res: nat, now: nat)
    requires IsUnit(was) && IsUnit(res) && was != res && Good(items, was) && items != []
    ensures Dense(TickItems(items, res, now), was) <==> BucketStart(now, res) < items[|items| - 1].start + res
  {
    hide IsUnit, LastN, Fill, Dense, Aligned, BucketStart;
    var last, end := items[|items| - 1], BucketStart(now, res) + 1;
    FillSteps(last.start + res, end, res, last.threshold);
    if now - last.start >= res {
      var f := Fill(last.start + res, end, res, last.threshold);
      if f == [] {
        assert items + [] == items;
        NoCut(items);
      } else {
        TickBreaksDensity(items, f, was, res);
      }
    }
  }

  lemma NoCut(items: seq<Bucket>)
    requires |items| <= MAX_ITEMS
    ensures LastN(items, MAX_ITEMS) == items
  {
  }

  lemma FirstStart(target: nat, last: Bucket, e: Event)
    ensures First(target, last, e).start == target && MergeInto(last, e).start == last.start
  {
  }

  lemma MergeKeepsDense(items: seq<Bucket>, res: nat, e: Event)
    requires res > 0 && Dense(items, res) && items != []
    ensures Dense(items[..|items| - 1] + [MergeInto(items[|items| - 1], e)], res)
  {
    hide Aligned;
  }

  /** Two buckets of five minutes, the resolution changed to one minute, and a score or a
      tick two minutes after the second: the steps are five minutes and one minute. */
  lemma ResolutionChangeBreaksDensity(a: Bucket, b: Bucket, score: real, source: string)
    requires a.start == 0 && b.start == FiveMinutes.Ns()
    ensures var s, t := Store([a, b], OneMinute, None, {}), 7 * OneMinute.Ns();
            var scored, ticked := Append(s, Event(t, score, None, source)).items, Tick(s, t).items;
            && Dense([a, b], FiveMinutes.Ns())
            && !Dense(scored, FiveMinutes.Ns()) && !Dense(scored, OneMinute.Ns())
            && !Dense(ticked, FiveMinutes.Ns()) && !Dense(ticked, OneMinute.Ns())
  {
    var e, res := Event(7 * OneMinute.Ns(), score, None, source), OneMinute.Ns();
    assert Dense([a, b], FiveMinutes.Ns());
    assert BucketStart(e.ts, res) == 7 * res;
    ResolutionChangeKeepsDenseIff([a, b], FiveMinutes.Ns(), res, e);
    TickKeepsDenseIff([a, b], FiveMinutes.Ns(), res, e.ts);
    TwoStay(a, b, e);
    hide Dense, AppendItems, TickItems;
    FiveIsNotOne(AppendItems([a, b], res, e));
    FiveIsNotOne(TickItems([a, b], res, e.ts));
  }

  lemma FiveIsNotOne(items: seq<Bucket>)
    requires |items| >= 2 && items[0].start == 0 && items[1].start == FiveMinutes.Ns()
    ensures !Dense(items, OneMinute.Ns())
  {
    NotDense(items, OneMinute.Ns(), 1);
  }

  lemma TwoStay(a: Bucket, b: Bucket, e: Event)
    requires b.start == 5 * OneMinute.Ns() && e.ts == 7 * OneMinute.Ns()
    ensures var items := AppendItems([a, b], OneMinute.Ns(), e); |items| >= 2 && items[0] == a && items[1] == b
    ensures var items := TickItems([a, b], OneMinute.Ns(), e.ts); |items| >= 2 && items[0] == a && items[1] == b
  {
    var res := OneMinute.Ns();
    assert BucketStart(e.ts, res) == 7 * res;
    assert Fill(7 * res, 7 * res, res, b.threshold) == [];
    assert Fill(6 * res, 7 * res, res, b.threshold) == [Gap(6 * res, b.threshold)];
    FillLast(6 * res, 7 * res, res, b.threshold);
  }

  // ---- whole sessions --------------------------------------------------------------------------------------

  /** What happens to the store of one dashboard: the stream, the user's choice of a
      resolution or source, and the series the server sends, each in one resolution. */
  datatype Act =
    | Stream(op: Op)
    | Choose(to: Resolution)
    | Narrow(source: Option<string>)
    | Serve(series: seq<Bucket>, unit: Resolution)

  /** `unit` is the resolution of the last series served. */
  datatype Session = Session(store: Store, unit: Resolution)

  function Next(x: Session, act: Act): Session {
    match act
    case Stream(op) => x.(store := Step(x.store, op))
    case Choose(to) => x.(store := x.store.(resolution := to))
    case Narrow(source) => x.(store := x.store.(source := source))
    case Serve(series, unit) => Session(x.store.(items := LastN(series, MAX_ITEMS)), unit)
  }

  function Live(x: Session, acts: seq<Act>): Session {
    if acts == [] then x else Next(Live(x, acts[..|acts| - 1]), acts[|acts| - 1])
  }

  predicate InOwn(x: Session) {
    Dense(x.store.items, x.unit.Ns())
  }

  /** The server's part: every series it sends is dense. */
  predicate Served(acts: seq<Act>) {
    forall n :: 0 <= n < |acts| && acts[n].Serve? ==> Dense(acts[n].series, acts[n].unit.Ns())
  }

  /** While the series waits to be replaced by one of the chosen resolution, a score may
      only fall in the newest bucket or the one after it, and a tick may not be due. */
  predicate Harmless(x: Session, act: Act) {
    var items, was, res := x.store.items, x.unit.Ns(), x.store.resolution.Ns();
    UnitIs(x.store.resolution);
    act.Stream? && was != res && items != [] ==>
      var last := items[|items| - 1].start;
      match act.op
      case Clock(now) => BucketStart(now, res) < last + res
      case Score(e) =>
        Accepts(x.store.source, e) ==>
          var target := BucketStart(e.ts, res);
          target <= last || (target == last + was && was < res)
  }

  lemma StreamKeepsDenseIff(x: Session, op: Op)
    requires Good(x.store.items, x.unit.Ns())
    ensures InOwn(Next(x, Stream(op))) <==> Harmless(x, Stream(op))
  {
    hide BucketStart, IsUnit, Dense, AppendItems, TickItems, Resolution.Ns;
    var items, was, res := x.store.items, x.unit.Ns(), x.store.resolution.Ns();
    UnitIs(x.unit);
    UnitIs(x.store.resolution);
    match op
    case Clock(now) =>
      if items == [] { TickNone(res, now); }
      else if was == res { TickIsGood(items, res, now); }
      else { TickKeepsDenseIff(items, was, res, now); }
    case Score(e) =>
      if items == [] { NothingToAppendTo(res, e); }
      else if was == res { AppendIsGood(items, res, e); }
      else { ResolutionChangeKeepsDenseIff(items, was, res, e); }
  }

  lemma TickNone(res: nat, now: nat)
    requires IsUnit(res)
    ensures TickItems([], res, now) == []
  {
  }

  lemma NextKeepsDenseIff(x: Session, act: Act)
    requires Good(x.store.items, x.unit.Ns()) && Served([act])
    ensures InOwn(Next(x, act)) <==> Harmless(x, act)
  {
    hide Dense, Step, Resolution.Ns;
    match act
    case Stream(op) => StreamKeepsDenseIff(x, op);
    case Choose(to) =>
    case Narrow(source) =>
    case Serve(series, unit) =>
      assert [act][0] == act;
      DenseLastN(series, unit.Ns(), MAX_ITEMS);
  }

  lemma {:induction false} LiveWithinCap(x: Session, acts: seq<Act>)
    requires |x.store.items| <= MAX_ITEMS
    ensures |Live(x, acts).store.items| <= MAX_ITEMS
  {
    if acts != [] {
      LiveWithinCap(x, acts[..|acts| - 1]);
      hide Fill, BucketStart, IsUnit, Resolution.Ns;
    }
  }

  lemma LiveNext(x: Session, acts: seq<Act>, n: nat)
    requires n < |acts|
    ensures Live(x, acts[..n + 1]) == Next(Live(x, acts[..n]), acts[n])
  {
    assert acts[..n + 1][..n] == acts[..n];
  }

  lemma {:induction false} HarmlessKeepsDense(x: Session, acts: seq<Act>, n: nat)
    requires Good(x.store.items, x.unit.Ns()) && Served(acts) && n <= |acts|
    requires forall i :: 0 <= i < n ==> Harmless(Live(x, acts[..i]), acts[i])
    ensures InOwn(Live(x, acts[..n]))
  {
    hide Dense, Live, Next, Harmless;
    if n == 0 {
      LiveNone(x);
      assert acts[..0] == [];
    } else {
      HarmlessKeepsDense(x, acts, n - 1);
      LiveWithinCap(x, acts[..n - 1]);
      LiveNext(x, acts, n - 1);
      assert Harmless(Live(x, acts[..n - 1]), acts[n - 1]);
      NextKeepsDenseIff(Live(x, acts[..n - 1]), acts[n - 1]);
    }
  }

  lemma LiveNone(x: Session)
    ensures Live(x, []) == x
  {
  }

  /** Throughout a session, with any changes of resolution, the series is dense in the
      resolution it was served in if and only if every score and tick was harmless. */
  lemma SessionStaysDenseIff(x: Session, acts: seq<Act>)
    requires Good(x.store.items, x.unit.Ns()) && Served(acts)
    ensures (forall n :: 0 <= n <= |acts| ==> InOwn(Live(x, acts[..n])))
       <==> (forall n :: 0 <= n < |acts| ==> Harmless(Live(x, acts[..n]), acts[n]))
  {
    hide Dense, Live, Next, Harmless, InOwn;
    if forall n :: 0 <= n < |acts| ==> Harmless(Live(x, acts[..n]), acts[n]) {
      forall n | 0 <= n <= |acts|
        ensures InOwn(Live(x, acts[..n]))
      {
        HarmlessKeepsDense(x, acts, n);
      }
    }
    if forall n :: 0 <= n <= |acts| ==> InOwn(Live(x, acts[..n])) {
      forall n | 0 <= n < |acts|
        ensures Harmless(Live(x, acts[..n]), acts[n])
      {
        DenseWasHarmless(x, acts, n);
      }
    }
  }

  lemma DenseWasHarmless(x: Session, acts: seq<Act>, n: nat)
    requires Good(x.store.items, x.unit.Ns()) && Served(acts) && n < |acts|
    requires InOwn(Live(x, acts[..n])) && InOwn(Live(x, acts[..n + 1]))
    ensures Harmless(Live(x, acts[..n]), acts[n])
  {
    hide Dense, Live, Next, Harmless;
    LiveWithinCap(x, acts[..n]);
    LiveNext(x, acts, n);
    NextKeepsDenseIff(Live(x, acts[..n]), acts[n]);
  }

  /** In particular, it stays dense when nothing is streamed between a change of
      resolution and the series that answers it. */
  lemma PromptSeriesStaysDense(x: Session, acts: seq<Act>, n: nat)
    requires Good(x.store.items, x.unit.Ns()) && Served(acts) && n <= |acts|
    requires forall i :: 0 <= i < |acts| && acts[i].Stream? ==>
               Live(x, acts[..i]).store.resolution == Live(x, acts[..i]).unit
    ensures InOwn(Live(x, acts[..n]))
  {
    hide Dense, Live, InOwn, Good, Resolution.Ns;
    SessionStaysDenseIff(x, acts);
  }

  // ---- the buckets hold exactly what arrived -----------------------------------------------------------

  datatype Totals = Totals(count: nat, sum: real, max: Option<real>)

  const NOTHING := Totals(0, 0.0, None)

  function TotalOf(b: Bucket): Totals { Totals(b.count, SumOf(b), b.max) }

  function Plus(t: Totals, e: Event): Totals {
    Totals(t.count + 1, t.sum + e.score, Larger(t.max, e.score))
  }

  /** What the series held for a bucket to begin with. */
  function BaseTotal(items: seq<Bucket>, start: nat): Totals {
    if items == [] then NOTHING
    else if items[|items| - 1].start == start then TotalOf(items[|items| - 1])
    else BaseTotal(items[..|items| - 1], start)
  }

  /** `base` with every event of the log that lies in the bucket added. */
  function AddAll(base: Totals, log: seq<Event>, start: nat, res: nat): Totals
    requires IsUnit(res)
  {
    if log == [] then base
    else
      var before, e := AddAll(base, log[..|log| - 1], start, res), log[|log| - 1];
      if BucketStart(e.ts, res) == start then Plus(before, e) else before
  }

  /** The scores that were in time for the series, in order of arrival. */
  function Taken(s: Store, ops: seq<Op>): seq<Event> {
    if ops == [] then []
    else
      var before, items, op := Taken(s, ops[..|ops| - 1]), Run(s, ops[..|ops| - 1]).items, ops[|ops| - 1];
      UnitIs(s.resolution);
      if op.Score? && Accepts(s.source, op.event) && items != []
         && BucketStart(op.event.ts, s.resolution.Ns()) >= items[|items| - 1].start
      then before + [op.event] else before
  }

  /** Of the wanted source, or of any when none is chosen, exactly the scores not behind the
      newest bucket are taken; every other one leaves the series as it is. */
  lemma TakenNext(s: Store, ops: seq<Op>, e: Event)
    requires Good(s.items, s.resolution.Ns())
    ensures IsUnit(s.resolution.Ns())
    ensures var items, next := Run(s, ops).items, Run(s, ops + [Score(e)]);
            var wanted := s.source == None || s.source == Some(e.source);
            var takes := wanted && items != [] && BucketStart(e.ts, s.resolution.Ns()) >= items[|items| - 1].start;
            && Taken(s, ops + [Score(e)]) == Taken(s, ops) + (if takes then [e] else [])
            && (!takes ==> next.items == items)
  {
    hide Good, BucketStart, IsUnit, Resolution.Ns, Run;
    UnitIs(s.resolution);
    SeriesStaysDense(s, ops);
    RunOneMore(s, ops, Score(e));
    assert (ops + [Score(e)])[..|ops|] == ops;
    var items, res := Run(s, ops).items, s.resolution.Ns();
    if items == [] { NothingToAppendTo(res, e); }
    else if BucketStart(e.ts, res) < items[|items| - 1].start { StaleAppend(items, res, e); }
    hide AppendItems;
  }

  /** The known sources are those of all scores streamed, filtered out or not. */
  lemma {:induction false} KnownAreStreamed(s: Store, ops: seq<Op>, source: string)
    ensures source in Run(s, ops).known <==>
            source in s.known || exists i :: 0 <= i < |ops| && ops[i].Score? && ops[i].event.source == source
  {
    hide AppendItems, TickItems, Accepts, Resolution.Ns;
    if ops != [] {
      var n := |ops| - 1;
      KnownAreStreamed(s, ops[..n], source);
      assert forall i :: 0 <= i < n ==> ops[..n][i] == ops[i];
    }
  }

  ghost predicate Exact(base: seq<Bucket>, log: seq<Event>, res: nat, x: Bucket)
    requires IsUnit(res)
  {
    && TotalOf(x) == AddAll(BaseTotal(base, x.start), log, x.start, res)
    && (IsNew(base, x.start) ==> (x.avg.None? <==> x.count == 0))
  }

  /** Whether the bucket was not part of the series to begin with. */
  ghost predicate IsNew(base: seq<Bucket>, start: nat) {
    forall i :: 0 <= i < |base| ==> base[i].start != start
  }

  ghost predicate AllExact(base: seq<Bucket>, log: seq<Event>, res: nat, items: seq<Bucket>)
    requires IsUnit(res)
  {
    forall x :: x in items ==> Exact(base, log, res, x)
  }

  /** Nothing lies behind the newest bucket. */
  ghost predicate UpTo(base: seq<Bucket>, log: seq<Event>, res: nat, t: nat)
    requires IsUnit(res)
  {
    && (forall i :: 0 <= i < |base| ==> base[i].start <= t)
    && (forall i :: 0 <= i < |log| ==> BucketStart(log[i].ts, res) <= t)
  }

  lemma {:induction false} NoBase(base: seq<Bucket>, start: nat)
    requires forall i :: 0 <= i < |base| ==> base[i].start < start
    ensures BaseTotal(base, start) == NOTHING
  {
    if base != [] { NoBase(base[..|base| - 1], start); }
  }

  lemma {:induction false} NoneInBucket(base: Totals, log: seq<Event>, start: nat, res: nat)
    requires IsUnit(res) && forall i :: 0 <= i < |log| ==> BucketStart(log[i].ts, res) < start
    ensures AddAll(base, log, start, res) == base
  {
    hide BucketStart, IsUnit;
    if log != [] { NoneInBucket(base, log[..|log| - 1], start, res); }
  }

  lemma GapIsExact(base: seq<Bucket>, log: seq<Event>, res: nat, t: nat, x: Bucket)
    requires IsUnit(res) && UpTo(base, log, res, t) && x.start > t && x == Gap(x.start, x.threshold)
    ensures Exact(base, log, res, x)
  {
    hide BucketStart, IsUnit;
    NoBase(base, x.start);
    NoneInBucket(NOTHING, log, x.start, res);
  }

  lemma ElsewhereIsExact(base: seq<Bucket>, log: seq<Event>, res: nat, e: Event, x: Bucket)
    requires IsUnit(res) && Exact(base, log, res, x) && BucketStart(e.ts, res) != x.start
    ensures Exact(base, log + [e], res, x)
  {
    hide BucketStart, IsUnit;
    assert (log + [e])[..|log|] == log;
  }

  lemma Quotient(x: real, n: nat)
    requires n > 0
    ensures x / n as real * n as real == x
  {
  }

  lemma MergedIsExact(base: seq<Bucket>, log: seq<Event>, res: nat, e: Event, x: Bucket)
    requires IsUnit(res) && Exact(base, log, res, x) && BucketStart(e.ts, res) == x.start
    ensures Exact(base, log + [e], res, MergeInto(x, e))
  {
    hide BucketStart, IsUnit;
    assert (log + [e])[..|log|] == log;
    Quotient(SumOf(x) + e.score, x.count + 1);
    assert TotalOf(MergeInto(x, e)) == Plus(TotalOf(x), e);
  }

  lemma FirstIsExact(base: seq<Bucket>, log: seq<Event>, res: nat, t: nat, e: Event, last: Bucket)
    requires IsUnit(res) && UpTo(base, log, res, t) && BucketStart(e.ts, res) > t
    ensures Exact(base, log + [e], res, First(BucketStart(e.ts, res), last, e))
  {
    var gap := Gap(BucketStart(e.ts, res), None);
    GapIsExact(base, log, res, t, gap);
    MergedIsExact(base, log, res, e, gap);
    hide BucketStart, IsUnit, AddAll;
    assert TotalOf(First(gap.start, last, e)) == TotalOf(MergeInto(gap, e));
  }

  lemma LastNMembers(s: seq<Bucket>, n: nat)
    ensures forall x :: x in LastN(s, n) ==> x in s
  {
  }

  lemma FillIsExact(base: seq<Bucket>, log: seq<Event>, res: nat, b: nat, end: nat, threshold: Option<real>, t: nat)
    requires IsUnit(res) && UpTo(base, log, res, t) && b > t
    ensures AllExact(base, log, res, Fill(b, end, res, threshold))
  {
    hide BucketStart, IsUnit, UpTo, Fill;
    FillIsGaps(b, end, res, threshold);
    forall x | x in Fill(b, end, res, threshold)
      ensures Exact(base, log, res, x)
    {
      GapIsExact(base, log, res, t, x);
    }
  }

  lemma TickIsExact(base: seq<Bucket>, log: seq<Event>, res: nat, items: seq<Bucket>, now: nat)
    requires IsUnit(res) && AllExact(base, log, res, items)
    requires items != [] ==> UpTo(base, log, res, items[|items| - 1].start)
    ensures AllExact(base, log, res, TickItems(items, res, now))
  {
    hide BucketStart, IsUnit, UpTo, Exact, Fill, LastN;
    if items != [] {
      var last := items[|items| - 1];
      var f := Fill(last.start + res, BucketStart(now, res) + 1, res, last.threshold);
      FillIsExact(base, log, res, last.start + res, BucketStart(now, res) + 1, last.threshold, last.start);
      LastNMembers(items + f, MAX_ITEMS);
    }
  }

  lemma {:induction false} DenseAscends(items: seq<Bucket>, res: nat, i: nat, j: nat)
    requires IsUnit(res) && Dense(items, res) && i < j < |items|
    ensures items[i].start < items[j].start
    decreases j
  {
    hide IsUnit, Aligned;
    assert items[j].start == items[j - 1].start + res;
    if i < j - 1 { DenseAscends(items, res, i, j - 1); }
  }

  lemma AppendMergeIsExact(base: seq<Bucket>, log: seq<Event>, res: nat, items: seq<Bucket>, e: Event)
    requires IsUnit(res) && Good(items, res) && AllExact(base, log, res, items) && items != []
    requires BucketStart(e.ts, res) == items[|items| - 1].start
    ensures AllExact(base, log + [e], res, AppendItems(items, res, e))
  {
    hide BucketStart, IsUnit, Exact, Dense, MergeInto;
    var n := |items| - 1;
    forall x | x in items[..n] + [MergeInto(items[n], e)]
      ensures Exact(base, log + [e], res, x)
    {
      if x in items[..n] {
        var i :| 0 <= i < n && x == items[i];
        DenseAscends(items, res, i, n);
        ElsewhereIsExact(base, log, res, e, x);
      } else {
        assert items[n] in items;
        MergedIsExact(base, log, res, e, items[n]);
      }
    }
  }

  lemma EarlierStayExact(base: seq<Bucket>, log: seq<Event>, res: nat, items: seq<Bucket>, e: Event)
    requires IsUnit(res) && AllExact(base, log, res, items)
    requires forall x :: x in items ==> x.start < BucketStart(e.ts, res)
    ensures AllExact(base, log + [e], res, items)
  {
    hide BucketStart, IsUnit, Exact;
    forall x | x in items
      ensures Exact(base, log + [e], res, x)
    {
      ElsewhereIsExact(base, log, res, e, x);
    }
  }

  lemma AppendNewIsExact(base: seq<Bucket>, log: seq<Event>, res: nat, items: seq<Bucket>, e: Event)
    requires IsUnit(res) && Good(items, res) && AllExact(base, log, res, items) && items != []
    requires UpTo(base, log, res, items[|items| - 1].start) && BucketStart(e.ts, res) > items[|items| - 1].start
    ensures AllExact(base, log + [e], res, AppendItems(items, res, e))
  {
    hide BucketStart, IsUnit, UpTo, Exact, Fill, LastN, Dense;
    var last, target := items[|items| - 1], BucketStart(e.ts, res);
    var f := Fill(last.start + res, target, res, last.threshold);
    FillIsExact(base, log, res, last.start + res, target, last.threshold, last.start);
    FillIsGaps(last.start + res, target, res, last.threshold);
    EarlierStayExact(base, log, res, f, e);
    LastIsNewest(items, res);
    EarlierStayExact(base, log, res, items, e);
    FirstIsExact(base, log, res, last.start, e, last);
    LastNMembers(items + (f + [First(target, last, e)]), MAX_ITEMS);
  }

  lemma LastIsNewest(items: seq<Bucket>, res: nat)
    requires IsUnit(res) && Good(items, res) && items != []
    ensures forall x :: x in items ==> x.start <= items[|items| - 1].start
  {
    hide IsUnit;
    forall x | x in items
      ensures x.start <= items[|items| - 1].start
    {
      var i :| 0 <= i < |items| && x == items[i];
      if i < |items| - 1 { DenseAscends(items, res, i, |items| - 1); }
    }
  }

  lemma {:induction false} BaseIsExact(base: seq<Bucket>, res: nat, i: nat)
    requires IsUnit(res) && Dense(base, res) && i < |base|
    ensures BaseTotal(base, base[i].start) == TotalOf(base[i])
  {
    hide IsUnit, TotalOf;
    var n := |base| - 1;
    if i < n {
      DenseAscends(base, res, i, n);
      BaseIsExact(base[..n], res, i);
    }
  }

  lemma StartIsExact(base: seq<Bucket>, res: nat)
    requires IsUnit(res) && Good(base, res)
    ensures AllExact(base, [], res, base)
    ensures base != [] ==> UpTo(base, [], res, base[|base| - 1].start)
  {
    hide IsUnit, Dense, BucketStart;
    forall x | x in base
      ensures Exact(base, [], res, x)
    {
      var i :| 0 <= i < |base| && x == base[i];
      BaseIsExact(base, res, i);
    }
    if base != [] {
      LastIsNewest(base, res);
      assert forall i :: 0 <= i < |base| ==> base[i] in base;
    }
  }

  lemma AppendLast(items: seq<Bucket>, res: nat, e: Event)
    requires IsUnit(res) && items != []
    ensures var r := AppendItems(items, res, e);
            r != [] && r[|r| - 1].start == Later(items[|items| - 1].start, BucketStart(e.ts, res))
  {
    hide IsUnit, BucketStart, Fill;
  }

  lemma TickLast(items: seq<Bucket>, res: nat, now: nat)
    requires IsUnit(res) && Good(items, res) && items != []
    ensures var r := TickItems(items, res, now);
            r != [] && r[|r| - 1].start == Later(items[|items| - 1].start, BucketStart(now, res))
  {
    hide IsUnit, BucketStart, Fill, Good, Aligned;
    TickIsRoll(items, res, now);
    if BucketStart(now, res) > items[|items| - 1].start {
      RollForward(items, res, BucketStart(now, res));
    } else {
      RollBack(items, res, BucketStart(now, res));
    }
  }

  lemma UpToLater(base: seq<Bucket>, log: seq<Event>, res: nat, t: nat, u: nat)
    requires IsUnit(res) && UpTo(base, log, res, t) && t <= u
    ensures UpTo(base, log, res, u)
  {
    hide IsUnit, BucketStart;
  }

  lemma UpToWith(base: seq<Bucket>, log: seq<Event>, res: nat, t: nat, e: Event)
    requires IsUnit(res) && UpTo(base, log, res, t) && t <= BucketStart(e.ts, res)
    ensures UpTo(base, log + [e], res, BucketStart(e.ts, res))
  {
    hide IsUnit, BucketStart;
  }

  lemma ScoreIsExact(s: Store, init: seq<Op>, e: Event)
    requires var items, res := Run(s, init).items, s.resolution.Ns();
             && IsUnit(res) && items != [] && Good(items, res) && Accepts(s.source, e)
             && AllExact(s.items, Taken(s, init), res, items)
             && UpTo(s.items, Taken(s, init), res, items[|items| - 1].start)
    ensures var items, res := AppendItems(Run(s, init).items, s.resolution.Ns(), e), s.resolution.Ns();
            && AllExact(s.items, Taken(s, init + [Score(e)]), res, items)
            && items != [] && UpTo(s.items, Taken(s, init + [Score(e)]), res, items[|items| - 1].start)
  {
    hide IsUnit, BucketStart, Good, AllExact, UpTo, Run, Resolution.Ns, AppendItems;
    assert (init + [Score(e)])[..|init|] == init;
    var items, res := Run(s, init).items, s.resolution.Ns();
    AppendLast(items, res, e);
    var target, last := BucketStart(e.ts, res), items[|items| - 1].start;
    if target >= last {
      UpToWith(s.items, Taken(s, init), res, last, e);
      if target == last {
        AppendMergeIsExact(s.items, Taken(s, init), res, items, e);
      } else {
        AppendNewIsExact(s.items, Taken(s, init), res, items, e);
      }
    } else {
      StaleAppend(items, res, e);
    }
  }

  lemma StaleAppend(items: seq<Bucket>, res: nat, e: Event)
    requires IsUnit(res) && items != [] && BucketStart(e.ts, res) < items[|items| - 1].start
    ensures AppendItems(items, res, e) == items
  {
  }

  lemma {:induction false} SeriesIsExact(s: Store, ops: seq<Op>)
    requires Good(s.items, s.resolution.Ns()) && s.items != []
    ensures IsUnit(s.resolution.Ns()) && Run(s, ops).items != []
    ensures AllExact(s.items, Taken(s, ops), s.resolution.Ns(), Run(s, ops).items)
    ensures UpTo(s.items, Taken(s, ops), s.resolution.Ns(), Run(s, ops).items[|Run(s, ops).items| - 1].start)
  {
    var res := s.resolution.Ns();
    UnitIs(s.resolution);
    hide IsUnit, BucketStart, Good, AllExact, UpTo, Resolution.Ns, AppendItems, TickItems, Accepts;
    if ops == [] {
      StartIsExact(s.items, res);
    } else {
      var init, op := ops[..|ops| - 1], ops[|ops| - 1];
      assert ops == init + [op];
      SeriesIsExact(s, init);
      SeriesStaysDense(s, init);
      var items := Run(s, init).items;
      match op
      case Clock(now) =>
        TickIsExact(s.items, Taken(s, init), res, items, now);
        TickLast(items, res, now);
        var newest := items[|items| - 1].start;
        UpToLater(s.items, Taken(s, init), res, newest, Later(newest, BucketStart(now, res)));
      case Score(e) =>
        if Accepts(s.source, e) { ScoreIsExact(s, init, e); }
    }
  }

  /** Every bucket of the series holds what the server sent for it plus exactly the
      scores that arrived for it in time: their number, their sum (as average times
      number) and their maximum. The average of a bucket that was built live is the
      true mean of its scores. */
  lemma BucketsAreExact(s: Store, ops: seq<Op>, i: nat)
    requires Good(s.items, s.resolution.Ns()) && s.items != [] && i < |Run(s, ops).items|
    ensures IsUnit(s.resolution.Ns())
    ensures var x := Run(s, ops).items[i];
            TotalOf(x) == AddAll(BaseTotal(s.items, x.start), Taken(s, ops), x.start, s.resolution.Ns())
    ensures var x := Run(s, ops).items[i];
            var t := AddAll(NOTHING, Taken(s, ops), x.start, s.resolution.Ns());
            IsNew(s.items, x.start) ==>
              && x.count == t.count && x.max == t.max
              && x.avg == if t.count == 0 then None else Some(t.sum / t.count as real)
  {
    hide Good, Resolution.Ns, Run, Taken, AddAll;
    SeriesIsExact(s, ops);
    var x := Run(s, ops).items[i];
    assert Exact(s.items, Taken(s, ops), s.resolution.Ns(), x);
    if IsNew(s.items, x.start) {
      NewHasNoBase(s.items, x.start);
      if x.count > 0 { Mean(x.avg.value, x.count, SumOf(x)); }
    }
  }

  lemma Mean(avg: real, n: nat, sum: real)
    requires n > 0 && sum == avg * n as real
    ensures sum / n as real == avg
  {
  }

  lemma {:induction false} NewHasNoBase(base: seq<Bucket>, start: nat)
    requires IsNew(base, start)
    ensures BaseTotal(base, start) == NOTHING
  {
    if base != [] {
      NewHasNoBase(base[..|base| - 1], start);
    }
  }

  // ---- what leaves the series, and the threshold line -------------------------------------------------

  lemma CutKeepsFirst(items: seq<Bucket>, more: seq<Bucket>)
    requires items != []
    ensures var r := LastN(items + more, MAX_ITEMS); r[0] == items[0] || |r| == MAX_ITEMS
  {
  }

  lemma StepKeepsFirst(s: Store, op: Op)
    requires s.items != [] && |s.items| <= MAX_ITEMS
    ensures var items := Step(s, op).items;
            items != [] && (|items| == MAX_ITEMS || items[0].start == s.items[0].start)
  {
    var res := s.resolution.Ns();
    UnitIs(s.resolution);
    hide Fill, BucketStart, IsUnit, Resolution.Ns, LastN;
    var last := s.items[|s.items| - 1];
    match op
    case Clock(now) => CutKeepsFirst(s.items, Fill(last.start + res, BucketStart(now, res) + 1, res, last.threshold));
    case Score(e) =>
      CutKeepsFirst(s.items, Fill(last.start + res, BucketStart(e.ts, res), res, last.threshold)
                             + [First(BucketStart(e.ts, res), last, e)]);
  }

  /** Buckets leave a series only when it is full. */
  lemma {:induction false} OnlyFullSeriesForget(s: Store, ops: seq<Op>)
    requires Good(s.items, s.resolution.Ns()) && s.items != []
    ensures Run(s, ops).items != []
    ensures |Run(s, ops).items| == 2016 || Run(s, ops).items[0].start == s.items[0].start
  {
    if ops != [] {
      var init := ops[..|ops| - 1];
      OnlyFullSeriesForget(s, init);
      SeriesStaysDense(s, init);
      StepKeepsFirst(Run(s, init), ops[|ops| - 1]);
      StepNeverShrinks(Run(s, init), ops[|ops| - 1]);
      hide Step, Good;
    }
  }

  lemma StepNeverShrinks(s: Store, op: Op)
    requires |s.items| <= MAX_ITEMS
    ensures |Step(s, op).items| >= |s.items|
  {
    UnitIs(s.resolution);
    hide Fill, BucketStart, IsUnit, Resolution.Ns;
  }

  /** The threshold last reported, in order of arrival. */
  function LatestThreshold(start: Option<real>, log: seq<Event>): Option<real> {
    if log == [] then start
    else if log[|log| - 1].threshold.Some? then log[|log| - 1].threshold
    else LatestThreshold(start, log[..|log| - 1])
  }

  lemma AppendThreshold(items: seq<Bucket>, res: nat, e: Event)
    requires IsUnit(res) && items != []
    ensures var r, last := AppendItems(items, res, e), items[|items| - 1];
            && r != []
            && r[|r| - 1].threshold ==
                 if BucketStart(e.ts, res) >= last.start then OrElse(e.threshold, last.threshold) else last.threshold
  {
    hide IsUnit, BucketStart, Fill;
  }

  lemma TickThreshold(items: seq<Bucket>, res: nat, now: nat)
    requires IsUnit(res) && Good(items, res) && items != []
    ensures var r := TickItems(items, res, now); r != [] && r[|r| - 1].threshold == items[|items| - 1].threshold
  {
    hide IsUnit, BucketStart, Fill, Good, Aligned;
    TickIsRoll(items, res, now);
    if BucketStart(now, res) > items[|items| - 1].start {
      RollForward(items, res, BucketStart(now, res));
    } else {
      RollBack(items, res, BucketStart(now, res));
    }
  }

  /** A bucket that nothing was scored in, with the threshold carried over. */
  predicate IsEmpty(x: Bucket, threshold: Option<real>) {
    x.max == None && x.avg == None && x.count == 0 && x.alerts == 0 && x.threshold == threshold
  }

  /** Filling up adds empty buckets only, with the threshold of the newest one before; a
      score adds its own as well. */
  lemma FilledAreEmpty(items: seq<Bucket>, res: nat, now: nat, e: Event, x: Bucket)
    requires IsUnit(res) && items != []
    ensures var last := items[|items| - 1];
            x in TickItems(items, res, now) ==> x in items || (x.start > last.start && IsEmpty(x, last.threshold))
    ensures var last := items[|items| - 1];
            x in AppendItems(items, res, e) && x.start != BucketStart(e.ts, res) ==>
              x in items || (x.start > last.start && IsEmpty(x, last.threshold))
  {
    hide IsUnit, BucketStart, Fill, LastN, MergeInto, First;
    var last := items[|items| - 1];
    var ticked := Fill(last.start + res, BucketStart(now, res) + 1, res, last.threshold);
    var filled := Fill(last.start + res, BucketStart(e.ts, res), res, last.threshold);
    FillIsGaps(last.start + res, BucketStart(now, res) + 1, res, last.threshold);
    FillIsGaps(last.start + res, BucketStart(e.ts, res), res, last.threshold);
    LastNMembers(items + ticked, MAX_ITEMS);
    LastNMembers(items + (filled + [First(BucketStart(e.ts, res), last, e)]), MAX_ITEMS);
    FirstStart(BucketStart(e.ts, res), last, e);
    AppendCases(items, res, e);
  }

  /** The newest bucket always shows the threshold last reported. */
  lemma {:induction false} ThresholdIsLatest(s: Store, ops: seq<Op>)
    requires Good(s.items, s.resolution.Ns()) && s.items != []
    ensures var items := Run(s, ops).items;
            && items != []
            && items[|items| - 1].threshold == LatestThreshold(s.items[|s.items| - 1].threshold, Taken(s, ops))
  {
    hide IsUnit, BucketStart, Good, Resolution.Ns, AppendItems, TickItems, Accepts, OrElse, Aligned, LatestThreshold;
    NoThresholdYet(s.items[|s.items| - 1].threshold);
    var res := s.resolution.Ns();
    UnitIs(s.resolution);
    if ops != [] {
      var init, op := ops[..|ops| - 1], ops[|ops| - 1];
      ThresholdIsLatest(s, init);
      SeriesStaysDense(s, init);
      match op
      case Clock(now) => TickThreshold(Run(s, init).items, res, now);
      case Score(e) =>
        AppendThreshold(Run(s, init).items, res, e);
        OneMoreThreshold(s.items[|s.items| - 1].threshold, Taken(s, init), e);
    }
  }

  lemma NoThresholdYet(start: Option<real>)
    ensures LatestThreshold(start, []) == start
  {
  }

  lemma OneMoreThreshold(start: Option<real>, log: seq<Event>, e: Event)
    ensures LatestThreshold(start, log + [e]) == OrElse(e.threshold, LatestThreshold(start, log))
  {
    assert (log + [e])[..|log|] == log;
  }

  lemma NothingToAppendTo(res: nat, e: Event)
    requires IsUnit(res)
    ensures AppendItems([], res, e) == []
  {
  }

  lemma AppendCases(items: seq<Bucket>, res: nat, e: Event)
    requires IsUnit(res) && items != []
    ensures var n, target := |items| - 1, BucketStart(e.ts, res);
            AppendItems(items, res, e) ==
              if target < items[n].start then items
              else if target == items[n].start then items[..n] + [MergeInto(items[n], e)]
              else LastN(items + (Fill(items[n].start + res, target, res, items[n].threshold)
                                  + [First(target, items[n], e)]), MAX_ITEMS)
  {
  }

  // ---- the store itself -----------------------------------------------------------------------------------

  lemma CutIsLastN(raw: seq<Bucket>)
    ensures LastN(raw, MAX_ITEMS) == if |raw| <= MAX_ITEMS then raw else raw[|raw| - MAX_ITEMS..]
    ensures |LastN(raw, MAX_ITEMS)| <= MAX_ITEMS
  {
  }

  class AnomalyStore {
    var items: seq<Bucket>
    var resolution: Resolution
    var source: Option<string>
    var knownSources: set<string>

    ghost function Model(): Store
      reads this
    {
      Store(items, resolution, source, knownSources)
    }

    ghost predicate Valid()
      reads this
    {
      |items| <= MAX_ITEMS
    }

    constructor ()
      ensures Valid() && Model() == Store([], OneMinute, None, {})
    {
      items, resolution, source, knownSources := [], OneMinute, None, {};
    }

    method SetResolution(r: Resolution)
      modifies this`resolution
      ensures Model() == old(Model()).(resolution := r)
    {
      resolution := r;
    }

    method SetSource(s: Option<string>)
      modifies this`source
      ensures Model() == old(Model()).(source := s)
    {
      source := s;
    }

    method ReplaceSeries(series: seq<Bucket>)
      modifies this`items
      ensures Model() == old(Model()).(items := LastN(series, MAX_ITEMS)) && Valid()
    {
      items := LastN(series, MAX_ITEMS);
    }

    method AppendScore(e: Event)
      requires Valid()
      modifies this
      ensures Valid() && Model() == Append(old(Model()), e)
    {
      hide BucketStart, IsUnit, Resolution.Ns, Fill, AppendItems, MergeInto, First, LastN;
      UnitIs(resolution);
      if e.source !in knownSources { knownSources := knownSources + {e.source}; }
      if source.Some? && source.value != e.source { return; }
      if items == [] {
        NothingToAppendTo(resolution.Ns(), e);
        return;
      }
      var resNs := resolution.Ns();
      AppendCases(items, resNs, e);
      var target := BucketStart(e.ts, resNs);
      var last := items[|items| - 1];
      if target < last.start { return; }
      if target == last.start {
        items := items[..|items| - 1] + [MergeInto(last, e)];
        return;
      }
      var more := Intermediates(last.start + resNs, target, resNs, last.threshold);
      var raw := items + (more + [First(target, last, e)]);
      CutIsLastN(raw);
      items := if |raw| <= MAX_ITEMS then raw else raw[|raw| - MAX_ITEMS..];
    }

    method RolloverIfStale(now: nat)
      requires Valid()
      modifies this
      ensures Valid() && Model() == Tick(old(Model()), now)
    {
      hide BucketStart, IsUnit, Resolution.Ns, Fill;
      UnitIs(resolution);
      if items == [] { return; }
      var last, resNs := items[|items| - 1], resolution.Ns();
      if now - last.start < resNs { return; }
      var more := Intermediates(last.start + resNs, BucketStart(now, resNs) + 1, resNs, last.threshold);
      if more == [] {
        assert items + more == items;
        return;
      }
      var raw := items + more;
      items := if |raw| <= MAX_ITEMS then raw else raw[|raw| - MAX_ITEMS..];
    }

    static method Intermediates(start: nat, end: nat, resNs: nat, threshold: Option<real>) returns (more: seq<Bucket>)
      requires resNs > 0
      ensures more == Fill(start, end, resNs, threshold)
    {
      var b := start;
      more := [];
      assert [] + Fill(start, end, resNs, threshold) == Fill(start, end, resNs, threshold);
      while b < end
        invariant more + Fill(b, end, resNs, threshold) == Fill(start, end, resNs, threshold)
        decreases if b < end then end - b else 0
      {
        assert more + [Gap(b, threshold)] + Fill(b + resNs, end, resNs, threshold)
            == more + ([Gap(b, threshold)] + Fill(b + resNs, end, resNs, threshold));
        more, b := more + [Gap(b, threshold)], b + resNs;
      }
      assert more + [] == more;
    }
  }
}
