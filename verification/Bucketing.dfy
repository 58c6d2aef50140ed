/** The minute bucketing that src/seerflow/detection/cusum.py and
    src/seerflow/detection/holtwinters.py share: events are counted per bucket, and a
    completed count, then a capped number of empty buckets, goes to the model. */
module Bucketing {

  const BUCKET_NS := 60 * 1_000_000_000

  /** `current` is -1 until the first event. */
  datatype Buckets = Buckets(current: int, count: nat)

  const FRESH := Buckets(-1, 0)

  function BucketOf(ts: nat): nat { ts / BUCKET_NS }

  function Zeros(n: nat): (r: seq<nat>)
    ensures |r| == n && forall i :: 0 <= i < n ==> r[i] == 0
  {
    seq(n, i => 0)
  }

  function Min(a: nat, b: nat): nat { if a <= b then a else b }

  function Learn(b: Buckets, bucket: nat): Buckets {
    if b.current == -1 || bucket > b.current then Buckets(bucket, 1)
    else if bucket == b.current then b.(count := b.count + 1)
    else b
  }

  /** A bucket is one minute. */
  lemma BucketIsMinute(ts: nat)
    ensures BucketOf(ts) * 60_000_000_000 <= ts < (BucketOf(ts) + 1) * 60_000_000_000
  {
  }

  /** The counts one event completes. */
  function Completes(b: Buckets, bucket: nat, cap: nat): seq<nat> {
    if b.current == -1 || bucket <= b.current then []
    else [b.count] + Zeros(Min(bucket - b.current - 1, cap))
  }

  function Run(events: seq<nat>): Buckets {
    if events == [] then FRESH else Learn(Run(events[..|events| - 1]), events[|events| - 1])
  }

  function Fed(events: seq<nat>, cap: nat): seq<nat> {
    if events == [] then []
    else
      var init := events[..|events| - 1];
      Fed(init, cap) + Completes(Run(init), events[|events| - 1], cap)
  }

  // ---- the same, said over all events at once ------------------------------------------

  function Newest(events: seq<nat>): int {
    if events == [] then -1
    else
      var before := Newest(events[..|events| - 1]);
      if events[|events| - 1] > before then events[|events| - 1] else before
  }

  /** How many events in bucket `b` were not behind the newest bucket so far. */
  function Histogram(events: seq<nat>, b: int): nat {
    if events == [] then 0
    else
      var init, e := events[..|events| - 1], events[|events| - 1];
      Histogram(init, b) + if e == b && e >= Newest(init) then 1 else 0
  }

  function OnTime(events: seq<nat>): nat {
    if events == [] then 0
    else
      var init, e := events[..|events| - 1], events[|events| - 1];
      OnTime(init) + if e >= Newest(init) then 1 else 0
  }

  predicate GapsWithin(events: seq<nat>, cap: nat) {
    forall n :: 1 <= n < |events| ==> events[n] - Newest(events[..n]) - 1 <= cap
  }

  function Sum(s: seq<nat>): nat {
    if s == [] then 0 else Sum(s[..|s| - 1]) + s[|s| - 1]
  }

  lemma {:induction false} SumConcat(a: seq<nat>, b: seq<nat>)
    ensures Sum(a + b) == Sum(a) + Sum(b)
  {
    if b == [] {
      assert a + b == a;
    } else {
      assert (a + b)[..|a + b| - 1] == a + b[..|b| - 1];
      SumConcat(a, b[..|b| - 1]);
    }
  }

  lemma {:induction false} SumZeros(n: nat)
    ensures Sum(Zeros(n)) == 0
  {
    if n > 0 {
      assert Zeros(n)[..n - 1] == Zeros(n - 1);
      SumZeros(n - 1);
    }
  }

  lemma {:induction false} RunIsNewest(events: seq<nat>)
    ensures Run(events).current == Newest(events)
    ensures events != [] ==> Newest(events) >= 0
    ensures Run(events).count == Histogram(events, Newest(events))
    ensures forall b :: b > Newest(events) ==> Histogram(events, b) == 0
  {
    if events != [] {
      RunIsNewest(events[..|events| - 1]);
    }
  }

  lemma OneMore(events: seq<nat>, bucket: nat, cap: nat)
    ensures Run(events + [bucket]) == Learn(Run(events), bucket)
    ensures Fed(events + [bucket], cap) == Fed(events, cap) + Completes(Run(events), bucket, cap)
  {
    assert (events + [bucket])[..|events|] == events;
  }

  /** Every event that was not behind is either fed to the model or still counted. */
  lemma {:induction false} CountsAreConserved(events: seq<nat>, cap: nat)
    ensures Sum(Fed(events, cap)) + Run(events).count == OnTime(events)
  {
    if events != [] {
      var init, e := events[..|events| - 1], events[|events| - 1];
      CountsAreConserved(init, cap);
      RunIsNewest(init);
      var b := Run(init);
      var zeros := Zeros(Min(if e > b.current then e - b.current - 1 else 0, cap));
      SumConcat(Fed(init, cap), Completes(b, e, cap));
      SumConcat([b.count], zeros);
      SumZeros(|zeros|);
      assert [b.count][..0] == [];
    }
  }

  lemma GapsWithinPrefix(events: seq<nat>, cap: nat)
    requires |events| > 1
    ensures var n := |events| - 1;
            GapsWithin(events, cap) <==>
            GapsWithin(events[..n], cap) && events[n] - Newest(events[..n]) - 1 <= cap
  {
    var n := |events| - 1;
    assert forall m :: 0 <= m < n ==> events[..n][..m] == events[..m];
    if GapsWithin(events, cap) {
      forall m | 1 <= m < n
        ensures events[..n][m] - Newest(events[..n][..m]) - 1 <= cap
      {
        assert events[m] - Newest(events[..m]) - 1 <= cap;
      }
    }
    if GapsWithin(events[..n], cap) && events[n] - Newest(events[..n]) - 1 <= cap {
      forall m | 1 <= m < |events|
        ensures events[m] - Newest(events[..m]) - 1 <= cap
      {
        if m < n { assert events[..n][m] - Newest(events[..n][..m]) - 1 <= cap; }
      }
    }
  }

  /** The number of model updates is the distance from the first to the current
      bucket exactly when no gap was longer than the cap; else it is smaller. */
  lemma {:induction false} UpdatesAreDistance(events: seq<nat>, cap: nat)
    requires events != []
    ensures |Fed(events, cap)| <= Run(events).current - events[0]
    ensures |Fed(events, cap)| == Run(events).current - events[0] <==> GapsWithin(events, cap)
  {
    var n := |events| - 1;
    if n == 0 {
      assert events[..0] == [];
    } else {
      UpdatesAreDistance(events[..n], cap);
      GapsWithinPrefix(events, cap);
      RunIsNewest(events[..n]);
      hide GapsWithin;
    }
  }

  /** The empty buckets one event skips beyond the cap. */
  function Skipped(b: Buckets, bucket: nat, cap: nat): nat {
    if b.current == -1 || bucket <= b.current then 0
    else bucket - b.current - 1 - Min(bucket - b.current - 1, cap)
  }

  /** All empty buckets that were never fed: for every gap, its excess over the cap. */
  function Lost(events: seq<nat>, cap: nat): nat {
    if events == [] then 0
    else
      var init := events[..|events| - 1];
      Lost(init, cap) + Skipped(Run(init), events[|events| - 1], cap)
  }

  /** Updates and lost buckets together are the distance from the first to the current bucket. */
  lemma {:induction false} UpdatesAndLostAreDistance(events: seq<nat>, cap: nat)
    requires events != []
    ensures |Fed(events, cap)| + Lost(events, cap) == Run(events).current - events[0]
  {
    var n := |events| - 1;
    if n == 0 {
      assert events[..0] == [];
    } else {
      UpdatesAndLostAreDistance(events[..n], cap);
      RunIsNewest(events[..n]);
    }
  }

  /** Within the cap, what is fed is the dense histogram of the on-time events. */
  lemma {:induction false} FedIsHistogram(events: seq<nat>, cap: nat)
    requires events != [] && GapsWithin(events, cap)
    ensures forall i :: 0 <= i < |Fed(events, cap)| ==> Fed(events, cap)[i] == Histogram(events, events[0] + i)
  {
    hide GapsWithin, Fed, Run, Histogram;
    var n := |events| - 1;
    if n == 0 {
      NothingFedYet(events, cap);
    } else {
      var init := events[..n];
      GapsWithinPrefix(events, cap);
      FedIsHistogram(init, cap);
      UpdatesAreDistance(init, cap);
      RunIsNewest(init);
      var before, more := Fed(init, cap), Completes(Run(init), events[n], cap);
      FedNext(events, cap);
      forall i | 0 <= i < |before + more|
        ensures (before + more)[i] == Histogram(events, events[0] + i)
      {
        HistogramNext(events, events[0] + i);
      }
    }
  }

  lemma NothingFedYet(events: seq<nat>, cap: nat)
    requires |events| == 1
    ensures Fed(events, cap) == []
  {
    assert events[..0] == [];
  }

  lemma FedNext(events: seq<nat>, cap: nat)
    requires events != []
    ensures var init := events[..|events| - 1];
            Fed(events, cap) == Fed(init, cap) + Completes(Run(init), events[|events| - 1], cap)
  {
  }

  lemma HistogramNext(events: seq<nat>, b: int)
    requires events != []
    ensures var init, e := events[..|events| - 1], events[|events| - 1];
            Histogram(events, b) == Histogram(init, b) + if e == b && e >= Newest(init) then 1 else 0
  {
  }
}
