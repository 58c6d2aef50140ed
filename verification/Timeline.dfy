/** src/seerflow/api/anomaly_timeline.py: a fixed ring of minute buckets of scores per
    source, and the downsampled series served from it. Reals stand for floats. */
module Timeline {
  import opened Options
  import opened Divisions
  import opened Seqs
  import opened Dicts

  const BUCKET_NS := 60 * 1_000_000_000

  datatype Record = Record(ts: nat, score: real, threshold: Option<real>, source: string)

  datatype SourceBucket = SourceBucket(max: real, sum: real, count: nat, threshold: Option<real>)

  datatype BaseBucket = BaseBucket(start: int, sources: Dict<string, SourceBucket>)

  type Slots = seq<Option<BaseBucket>>

  datatype Config = Config(capacity: nat, maxSources: nat)
  {
    predicate Valid() { capacity >= 1 && maxSources >= 1 }
  }

  const NO_SOURCES: Dict<string, SourceBucket> := Dict([], map[])
  const NO_SCORES := SourceBucket(0.0, 0.0, 0, None)

  // ---- recording ------------------------------------------------------------------------

  function BucketIndex(ts: nat): nat { ts / BUCKET_NS }

  predicate SourceChar(c: char) {
    'A' <= c <= 'Z' || 'a' <= c <= 'z' || '0' <= c <= '9' || c == '_' || c == '.' || c == '-'
  }

  predicate SourceName(s: string) {
    1 <= |s| <= 64 && forall i :: 0 <= i < |s| ==> SourceChar(s[i])
  }

  /** The pattern's `$` also matches before one final line feed. */
  predicate ValidSource(s: string) {
    SourceName(s) || (s != [] && s[|s| - 1] == '\n' && SourceName(s[..|s| - 1]))
  }

  function AddScore(b: SourceBucket, r: Record): SourceBucket {
    SourceBucket(
      if r.score > b.max then r.score else b.max,
      b.sum + r.score,
      b.count + 1,
      if r.threshold.Some? then r.threshold else b.threshold)
  }

  /** Merges a record into its bucket's sources, of which the least recently scored
      gives way when there are too many. */
  function AddSource(c: Config, d: Dict<string, SourceBucket>, r: Record): (e: Dict<string, SourceBucket>)
    requires d.Valid() && c.Valid()
    ensures e.Valid()
  {
    if d.Has(r.source) then d.ToEnd(r.source).Put(r.source, AddScore(d.vals[r.source], r))
    else
      var room := if |d.keys| >= c.maxSources then d.Remove(d.keys[0]) else d;
      room.Put(r.source, AddScore(NO_SCORES, r))
  }

  ghost predicate WellFormed(c: Config, slots: Slots) {
    |slots| == c.capacity && forall s :: 0 <= s < |slots| && slots[s].Some? ==> slots[s].value.sources.Valid()
  }

  function SlotOf(c: Config, idx: int): (s: nat)
    requires c.Valid()
    ensures s < c.capacity
  {
    idx % c.capacity
  }

  function RecordScore(c: Config, slots: Slots, r: Record): (t: Slots)
    requires c.Valid() && WellFormed(c, slots)
    ensures WellFormed(c, t)
  {
    if !ValidSource(r.source) then slots
    else
      var idx := BucketIndex(r.ts);
      var s := SlotOf(c, idx);
      var fits := slots[s].Some? && slots[s].value.start == idx * BUCKET_NS;
      var sources := if fits then slots[s].value.sources else NO_SOURCES;
      slots[s := Some(BaseBucket(idx * BUCKET_NS, AddSource(c, sources, r)))]
  }

  function Run(c: Config, log: seq<Record>): (slots: Slots)
    requires c.Valid()
    ensures WellFormed(c, slots)
  {
    if log == [] then seq(c.capacity, i => None)
    else RecordScore(c, Run(c, log[..|log| - 1]), log[|log| - 1])
  }

  // ---- the unbounded log, bucket by bucket -------------------------------------------------

  predicate In(r: Record, idx: int) {
    ValidSource(r.source) && BucketIndex(r.ts) == idx
  }

  /** The sources of bucket `idx` had it never shared its slot. */
  function SourcesAt(c: Config, log: seq<Record>, idx: int): (d: Dict<string, SourceBucket>)
    requires c.Valid()
    ensures d.Valid()
  {
    if log == [] then NO_SOURCES
    else
      var before, r := SourcesAt(c, log[..|log| - 1], idx), log[|log| - 1];
      if In(r, idx) then AddSource(c, before, r) else before
  }

  /** The largest bucket index recorded so far in slot `s`, or -1. */
  function NewestIn(c: Config, log: seq<Record>, s: nat): int
    requires c.Valid()
  {
    if log == [] then -1
    else
      var before, r := NewestIn(c, log[..|log| - 1], s), log[|log| - 1];
      var idx := BucketIndex(r.ts);
      if ValidSource(r.source) && SlotOf(c, idx) == s && idx > before then idx else before
  }

  function Newest(log: seq<Record>): int {
    if log == [] then -1
    else
      var before, r := Newest(log[..|log| - 1]), log[|log| - 1];
      if ValidSource(r.source) && BucketIndex(r.ts) > before then BucketIndex(r.ts) else before
  }

  ghost predicate SlotExact(c: Config, slots: Slots, log: seq<Record>, s: nat)
    requires c.Valid() && WellFormed(c, slots) && s < c.capacity
  {
    var idx := NewestIn(c, log, s);
    slots[s] == if idx < 0 then None else Some(BaseBucket(idx * BUCKET_NS, SourcesAt(c, log, idx)))
  }

  ghost predicate Exact(c: Config, slots: Slots, log: seq<Record>)
    requires c.Valid() && WellFormed(c, slots)
  {
    forall s :: 0 <= s < c.capacity ==> SlotExact(c, slots, log, s)
  }

  /** No record comes for a bucket whose slot has already gone to a newer one. */
  ghost predicate NoneStale(c: Config, log: seq<Record>)
    requires c.Valid()
  {
    forall n :: 0 <= n < |log| && ValidSource(log[n].source) ==>
      BucketIndex(log[n].ts) >= NewestIn(c, log[..n], SlotOf(c, BucketIndex(log[n].ts)))
  }

  lemma {:induction false} NothingAboveNewest(c: Config, log: seq<Record>, s: nat, idx: int)
    requires c.Valid() && idx > NewestIn(c, log, s) && idx >= 0 && SlotOf(c, idx) == s
    ensures SourcesAt(c, log, idx) == NO_SOURCES
  {
    if log != [] { NothingAboveNewest(c, log[..|log| - 1], s, idx); }
  }

  lemma {:induction false} NewestIsInSlot(c: Config, log: seq<Record>, s: nat)
    requires c.Valid() && NewestIn(c, log, s) >= 0
    ensures SlotOf(c, NewestIn(c, log, s)) == s
  {
    if NewestIn(c, log[..|log| - 1], s) >= 0 { NewestIsInSlot(c, log[..|log| - 1], s); }
  }

  lemma NextRecord(c: Config, log: seq<Record>, r: Record, s: nat, i: int)
    requires c.Valid()
    ensures SourcesAt(c, log + [r], i) ==
      if In(r, i) then AddSource(c, SourcesAt(c, log, i), r) else SourcesAt(c, log, i)
    ensures var idx, newest := BucketIndex(r.ts), NewestIn(c, log, s);
            NewestIn(c, log + [r], s) ==
              if ValidSource(r.source) && SlotOf(c, idx) == s && idx > newest then idx else newest
  {
    assert (log + [r])[..|log|] == log;
  }

  lemma RecordedSlot(c: Config, slots: Slots, r: Record, s: nat)
    requires c.Valid() && WellFormed(c, slots) && s < c.capacity
    ensures var idx, t := BucketIndex(r.ts), RecordScore(c, slots, r);
            if !ValidSource(r.source) || s != SlotOf(c, idx) then t[s] == slots[s]
            else
              var fits := slots[s].Some? && slots[s].value.start == idx * BUCKET_NS;
              var sources := if fits then slots[s].value.sources else NO_SOURCES;
              t[s] == Some(BaseBucket(idx * BUCKET_NS, AddSource(c, sources, r)))
  {
    hide AddSource, Dict.Valid, ValidSource;
  }

  lemma StepExact(c: Config, slots: Slots, log: seq<Record>, r: Record, s: nat)
    requires c.Valid() && WellFormed(c, slots) && s < c.capacity
    requires SlotExact(c, slots, log, s)
    requires ValidSource(r.source) ==> BucketIndex(r.ts) >= NewestIn(c, log, SlotOf(c, BucketIndex(r.ts)))
    ensures SlotExact(c, RecordScore(c, slots, r), log + [r], s)
  {
    hide AddSource, Dict.Valid, ValidSource, SlotOf, BucketIndex, SourcesAt, NewestIn, RecordScore, WellFormed;
    var idx, newest := BucketIndex(r.ts), NewestIn(c, log, s);
    if newest >= 0 { NewestIsInSlot(c, log, s); }
    if s == SlotOf(c, idx) && idx > newest { NothingAboveNewest(c, log, s, idx); }
    NextRecord(c, log, r, s, idx);
    NextRecord(c, log, r, s, newest);
    RecordedSlot(c, slots, r, s);
  }

  ghost predicate AlwaysExact(c: Config, log: seq<Record>)
    requires c.Valid()
  {
    forall n :: 0 <= n <= |log| ==> Exact(c, Run(c, log[..n]), log[..n])
  }

  lemma AlwaysExactPrefix(c: Config, log: seq<Record>)
    requires c.Valid() && log != []
    ensures AlwaysExact(c, log) <==> AlwaysExact(c, log[..|log| - 1]) && Exact(c, Run(c, log), log)
    ensures AlwaysExact(c, log[..|log| - 1]) ==> Exact(c, Run(c, log[..|log| - 1]), log[..|log| - 1])
  {
    hide Exact, Run, WellFormed;
    var m := |log| - 1;
    var init := log[..m];
    assert forall n :: 0 <= n <= m ==> init[..n] == log[..n];
    assert log[..|log|] == log && init[..m] == init;
    if AlwaysExact(c, log) {
      forall n | 0 <= n <= m
        ensures Exact(c, Run(c, init[..n]), init[..n])
      {
        assert Exact(c, Run(c, log[..n]), log[..n]);
      }
      assert Exact(c, Run(c, log[..|log|]), log[..|log|]);
    }
    if AlwaysExact(c, init) {
      assert Exact(c, Run(c, init[..m]), init[..m]);
      if Exact(c, Run(c, log), log) {
        forall n | 0 <= n <= |log|
          ensures Exact(c, Run(c, log[..n]), log[..n])
        {
          if n <= m { assert Exact(c, Run(c, init[..n]), init[..n]); }
        }
      }
    }
  }

  /** The ring refines the unbounded log: every slot holds, after every record, exactly
      what the log says about the newest bucket in it, if and only if no record was
      stale for its slot. */
  lemma {:induction false} RingIsExactIff(c: Config, log: seq<Record>)
    requires c.Valid()
    ensures NoneStale(c, log) <==> AlwaysExact(c, log)
  {
    if log == [] {
      EmptyIsExact(c);
    } else {
      hide Exact, NoneStale, AlwaysExact, Run, StaleLast;
      RingIsExactIff(c, log[..|log| - 1]);
      AlwaysExactPrefix(c, log);
      NoneStalePrefix(c, log);
      if AlwaysExact(c, log[..|log| - 1]) { LastRecord(c, log); }
    }
  }

  lemma EmptyIsExact(c: Config)
    requires c.Valid()
    ensures AlwaysExact(c, [])
  {
    var none: seq<Record> := [];
    assert none[..0] == none;
    forall s | 0 <= s < c.capacity
      ensures SlotExact(c, Run(c, none), none, s)
    {
    }
  }

  predicate StaleLast(c: Config, log: seq<Record>)
    requires c.Valid() && log != []
  {
    var m := |log| - 1;
    ValidSource(log[m].source)
    && BucketIndex(log[m].ts) < NewestIn(c, log[..m], SlotOf(c, BucketIndex(log[m].ts)))
  }

  lemma NoneStalePrefix(c: Config, log: seq<Record>)
    requires c.Valid() && log != []
    ensures NoneStale(c, log) <==> NoneStale(c, log[..|log| - 1]) && !StaleLast(c, log)
  {
    var m := |log| - 1;
    var init := log[..m];
    assert forall n :: 0 <= n < m ==> init[..n] == log[..n];
    hide NewestIn, ValidSource, SlotOf;
    if NoneStale(c, init) && !StaleLast(c, log) {
      forall n | 0 <= n < |log| && ValidSource(log[n].source)
        ensures BucketIndex(log[n].ts) >= NewestIn(c, log[..n], SlotOf(c, BucketIndex(log[n].ts)))
      {
        if n < m { assert init[n] == log[n]; }
      }
    }
    if NoneStale(c, log) {
      forall n | 0 <= n < m && ValidSource(init[n].source)
        ensures BucketIndex(init[n].ts) >= NewestIn(c, init[..n], SlotOf(c, BucketIndex(init[n].ts)))
      {
        assert init[n] == log[n];
      }
    }
  }

  lemma LastRecord(c: Config, log: seq<Record>)
    requires c.Valid() && log != []
    requires Exact(c, Run(c, log[..|log| - 1]), log[..|log| - 1])
    ensures Exact(c, Run(c, log), log) <==> !StaleLast(c, log)
  {
    var m := |log| - 1;
    var init, r := log[..m], log[m];
    assert log == init + [r];
    if StaleLast(c, log) {
      StaleIsInexact(c, log);
    } else {
      forall s | 0 <= s < c.capacity
        ensures SlotExact(c, Run(c, log), log, s)
      {
        assert SlotExact(c, Run(c, init), init, s);
        assert Run(c, log) == RecordScore(c, Run(c, init), r);
        hide SlotExact, RecordScore, Run;
        StepExact(c, Run(c, init), init, r, s);
      }
    }
  }

  lemma StaleSlotDiffers(c: Config, slots: Slots, init: seq<Record>, r: Record)
    requires c.Valid() && WellFormed(c, slots) && ValidSource(r.source)
    requires BucketIndex(r.ts) < NewestIn(c, init, SlotOf(c, BucketIndex(r.ts)))
    ensures !SlotExact(c, RecordScore(c, slots, r), init + [r], SlotOf(c, BucketIndex(r.ts)))
  {
    hide NewestIn, AddSource, ValidSource, SlotOf, RecordScore, SourcesAt, BucketIndex, Dict.Valid, WellFormed;
    var s := SlotOf(c, BucketIndex(r.ts));
    NextRecord(c, init, r, s, BucketIndex(r.ts));
    RecordedSlot(c, slots, r, s);
  }

  lemma StaleIsInexact(c: Config, log: seq<Record>)
    requires c.Valid() && log != [] && StaleLast(c, log)
    ensures !Exact(c, Run(c, log), log)
  {
    hide SlotExact, NewestIn, RecordScore, ValidSource, BucketIndex, WellFormed;
    var m := |log| - 1;
    assert log == log[..m] + [log[m]];
    StaleSlotDiffers(c, Run(c, log[..m]), log[..m], log[m]);
    assert Run(c, log) == RecordScore(c, Run(c, log[..m]), log[m]);
  }

  lemma SameSlotApart(c: Config, a: nat, b: nat)
    requires c.Valid() && SlotOf(c, a) == SlotOf(c, b) && a < b
    ensures b - a >= c.capacity
  {
    var n, d := c.capacity, b - a;
    var q, r := a / n, a % n;
    if d < n {
      if r + d < n {
        Remainder(b, n, q, r + d);
      } else {
        assert (q + 1) * n == q * n + n;
        Remainder(b, n, q + 1, r + d - n);
      }
    }
  }

  lemma {:induction false} NewestInBelowNewest(c: Config, log: seq<Record>, s: nat)
    requires c.Valid()
    ensures NewestIn(c, log, s) <= Newest(log)
  {
    if log != [] { NewestInBelowNewest(c, log[..|log| - 1], s); }
  }

  /** Records less than `capacity` buckets behind the newest one are never stale. */
  lemma SmallLagIsNeverStale(c: Config, log: seq<Record>)
    requires c.Valid()
    requires forall n :: 0 <= n < |log| && ValidSource(log[n].source) ==>
               BucketIndex(log[n].ts) > Newest(log[..n]) - c.capacity
    ensures NoneStale(c, log)
  {
    hide ValidSource, SlotOf, NewestIn, BucketIndex;
    forall n | 0 <= n < |log| && ValidSource(log[n].source)
      ensures BucketIndex(log[n].ts) >= NewestIn(c, log[..n], SlotOf(c, BucketIndex(log[n].ts)))
    {
      var idx := BucketIndex(log[n].ts);
      var newest := NewestIn(c, log[..n], SlotOf(c, idx));
      NewestInBelowNewest(c, log[..n], SlotOf(c, idx));
      if newest > idx {
        NewestIsInSlot(c, log[..n], SlotOf(c, idx));
        SameSlotApart(c, idx, newest);
      }
    }
  }

  // ---- one bucket: its sources against the records ----------------------------------------------

  function Seen(log: seq<Record>, idx: int): set<string> {
    if log == [] then {}
    else Seen(log[..|log| - 1], idx) + if In(log[|log| - 1], idx) then {log[|log| - 1].source} else {}
  }

  /** All records of one source in one bucket. */
  function Aggregate(log: seq<Record>, idx: int, source: string): SourceBucket {
    if log == [] then NO_SCORES
    else
      var before, r := Aggregate(log[..|log| - 1], idx, source), log[|log| - 1];
      if In(r, idx) && r.source == source then AddScore(before, r) else before
  }

  lemma {:induction false} UnseenIsEmpty(log: seq<Record>, idx: int, source: string)
    requires source !in Seen(log, idx)
    ensures Aggregate(log, idx, source) == NO_SCORES
  {
    if log != [] { UnseenIsEmpty(log[..|log| - 1], idx, source); }
  }

  lemma AddSourceFacts(c: Config, d: Dict<string, SourceBucket>, r: Record)
    requires d.Valid() && c.Valid()
    requires d.Has(r.source) || |d.vals| < c.maxSources
    ensures AddSource(c, d, r).vals
         == d.vals[r.source := AddScore(if d.Has(r.source) then d.vals[r.source] else NO_SCORES, r)]
  {
    d.SizeIs();
    hide Dict.Valid;
  }

  lemma SeenGrows(log: seq<Record>, idx: int)
    requires log != []
    ensures |Seen(log[..|log| - 1], idx)| <= |Seen(log, idx)|
    ensures In(log[|log| - 1], idx) && log[|log| - 1].source !in Seen(log[..|log| - 1], idx) ==>
            |Seen(log[..|log| - 1], idx)| < |Seen(log, idx)|
  {
    var before, r := Seen(log[..|log| - 1], idx), log[|log| - 1];
    assert Seen(log, idx) == if In(r, idx) then before + {r.source} else before + {};
    hide Seen, In;
    assert before + {} == before;
    if r.source in before { assert before + {r.source} == before; }
  }

  lemma SeenNext(log: seq<Record>, idx: int)
    requires log != []
    ensures var r := log[|log| - 1];
            Seen(log, idx) == Seen(log[..|log| - 1], idx) + if In(r, idx) then {r.source} else {}
  {
  }

  lemma AggregateNext(log: seq<Record>, idx: int)
    requires log != []
    ensures var init, r := log[..|log| - 1], log[|log| - 1];
            forall source :: Aggregate(log, idx, source) ==
              if In(r, idx) && r.source == source then AddScore(Aggregate(init, idx, source), r)
              else Aggregate(init, idx, source)
  {
    hide In, AddScore;
  }

  /** While a bucket sees at most `maxSources` sources, it holds every one exactly. */
  lemma {:induction false} FewSourcesAreExact(c: Config, log: seq<Record>, idx: int)
    requires c.Valid() && |Seen(log, idx)| <= c.maxSources
    ensures SourcesAt(c, log, idx).vals == map source | source in Seen(log, idx) :: Aggregate(log, idx, source)
  {
    hide AddSource, AddScore, Dict.Valid, In;
    if log != [] {
      var init, r := log[..|log| - 1], log[|log| - 1];
      SeenGrows(log, idx);
      FewSourcesAreExact(c, init, idx);
      SeenNext(log, idx);
      AggregateNext(log, idx);
      hide Seen, Aggregate;
      if In(r, idx) {
        var d := SourcesAt(c, init, idx);
        assert d.vals.Keys == Seen(init, idx);
        assert |d.vals| == |d.vals.Keys|;
        AddSourceFacts(c, d, r);
        if r.source !in Seen(init, idx) { UnseenIsEmpty(init, idx, r.source); }
      }
    }
  }

  ghost predicate NonNegative(log: seq<Record>) {
    forall n :: 0 <= n < |log| ==> log[n].score >= 0.0
  }

  ghost predicate Within(a: SourceBucket, b: SourceBucket) {
    a.count <= b.count && a.sum <= b.sum && a.max <= b.max && 0.0 <= a.max && 0.0 <= b.sum
  }

  lemma AddSourceWithin(c: Config, d: Dict<string, SourceBucket>, r: Record, source: string)
    requires d.Valid() && c.Valid() && source in AddSource(c, d, r).vals
    ensures AddSource(c, d, r).vals[source] ==
      if source == r.source then AddScore(if d.Has(source) then d.vals[source] else NO_SCORES, r)
      else if source in d.vals then d.vals[source] else NO_SCORES
    ensures source != r.source ==> source in d.vals
  {
    hide Dict.Valid;
  }

  lemma {:induction false} AggregateNonNegative(log: seq<Record>, idx: int, source: string)
    requires NonNegative(log)
    ensures Aggregate(log, idx, source).sum >= 0.0 && Aggregate(log, idx, source).max >= 0.0
  {
    if log != [] { AggregateNonNegative(log[..|log| - 1], idx, source); }
  }

  /** However many sources a bucket sees, no source it holds is over-counted. */
  lemma {:induction false} SourcesNeverOvercount(c: Config, log: seq<Record>, idx: int, source: string)
    requires c.Valid() && NonNegative(log) && source in SourcesAt(c, log, idx).vals
    ensures Within(SourcesAt(c, log, idx).vals[source], Aggregate(log, idx, source))
  {
    var init, r := log[..|log| - 1], log[|log| - 1];
    AggregateNonNegative(init, idx, source);
    var d := SourcesAt(c, init, idx);
    if In(r, idx) { AddSourceWithin(c, d, r, source); }
    if source in d.vals { SourcesNeverOvercount(c, init, idx, source); }
    hide AddSource, Dict.Valid, In;
  }

  lemma {:induction false} SourcesStayBounded(c: Config, log: seq<Record>, idx: int)
    requires c.Valid()
    ensures |SourcesAt(c, log, idx).keys| <= c.maxSources
  {
    if log != [] {
      SourcesStayBounded(c, log[..|log| - 1], idx);
      var d, r := SourcesAt(c, log[..|log| - 1], idx), log[|log| - 1];
      RemoveKeyFacts(d.keys, r.source);
      d.Member(r.source);
      if d.keys != [] { RemoveKeyFacts(d.keys, d.keys[0]); }
      hide Dict.Valid, AddScore, In, RemoveKey;
    }
  }

  /** The sources of a bucket by their latest record, all of them. */
  function BySource(log: seq<Record>, idx: int): seq<string> {
    if log == [] then []
    else
      var before, r := BySource(log[..|log| - 1], idx), log[|log| - 1];
      if In(r, idx) then Touch(before, r.source) else before
  }

  lemma AddSourceKeys(c: Config, d: Dict<string, SourceBucket>, r: Record)
    requires d.Valid() && c.Valid() && |d.keys| <= c.maxSources
    ensures AddSource(c, d, r).keys == LastN(Touch(d.keys, r.source), c.maxSources)
  {
    hide RemoveKey, LastN, Touch, AddScore;
    d.Member(r.source);
    TouchCases(d.keys, r.source, c.maxSources);
    hide Dict.Valid;
  }

  /** A bucket keeps the `maxSources` most recently scored of its sources, in that order. */
  lemma {:induction false} KeepsRecentSources(c: Config, log: seq<Record>, idx: int)
    requires c.Valid()
    ensures NoneTwice(BySource(log, idx))
    ensures SourcesAt(c, log, idx).keys == LastN(BySource(log, idx), c.maxSources)
  {
    if log != [] {
      var init, r := log[..|log| - 1], log[|log| - 1];
      KeepsRecentSources(c, init, idx);
      SourcesStayBounded(c, init, idx);
      AddSourceKeys(c, SourcesAt(c, init, idx), r);
      TouchKeepsNoneTwice(BySource(init, idx), r.source);
      TouchThenCut(BySource(init, idx), r.source, c.maxSources);
      hide AddSource, LastN, Touch, In, NoneTwice, Dict.Valid;
    }
  }

  /** The records of one source in one bucket since the source last gave way. */
  function Kept(c: Config, log: seq<Record>, idx: int, source: string): seq<Record>
    requires c.Valid()
  {
    if log == [] then []
    else
      var init, r := log[..|log| - 1], log[|log| - 1];
      var before := Kept(c, init, idx, source);
      if In(r, idx) && r.source == source then before + [r]
      else if source in SourcesAt(c, log, idx).vals then before
      else []
  }

  /** However many sources a bucket sees, each one it holds has exactly the aggregate of
      its records since it last gave way. */
  lemma {:induction false} HeldSourceIsExact(c: Config, log: seq<Record>, idx: int, source: string)
    requires c.Valid()
    ensures source in SourcesAt(c, log, idx).vals ==>
            SourcesAt(c, log, idx).vals[source] == Aggregate(Kept(c, log, idx, source), idx, source)
    ensures source !in SourcesAt(c, log, idx).vals ==> Kept(c, log, idx, source) == []
  {
    hide AddSource, AddScore, Dict.Valid, In;
    if log != [] {
      var init, r := log[..|log| - 1], log[|log| - 1];
      HeldSourceIsExact(c, init, idx, source);
      var d, before := SourcesAt(c, init, idx), Kept(c, init, idx, source);
      assert (before + [r])[..|before|] == before;
      if In(r, idx) {
        AddSourceHolds(c, d, r);
        if source in AddSource(c, d, r).vals { AddSourceWithin(c, d, r, source); }
      }
      hide SourcesAt;
    }
  }

  /** The record is one of the source in the bucket. */
  predicate IsOf(r: Record, idx: int, source: string) {
    ValidSource(r.source) && r.ts / 60_000_000_000 == idx && r.source == source
  }

  /** The n-th record is the last one with a threshold among those of the source in the bucket. */
  predicate LastThreshold(log: seq<Record>, n: nat, idx: int, source: string)
    requires n < |log|
  {
    && IsOf(log[n], idx, source) && log[n].threshold.Some?
    && forall m :: n < m < |log| && IsOf(log[m], idx, source) ==> log[m].threshold.None?
  }

  /** Of those records an aggregate has the last threshold that came with one. */
  lemma {:induction false} AggregateThreshold(log: seq<Record>, idx: int, source: string)
    ensures var t := Aggregate(log, idx, source).threshold;
            && (t.None? <==> forall n :: 0 <= n < |log| && IsOf(log[n], idx, source) ==> log[n].threshold.None?)
            && (t.Some? ==> exists n :: 0 <= n < |log| && LastThreshold(log, n, idx, source) && log[n].threshold == t)
  {
    hide ValidSource;
    if log != [] {
      var k := |log| - 1;
      AggregateThreshold(log[..k], idx, source);
      assert forall n :: 0 <= n < k ==> log[..k][n] == log[n];
      var before, after := Aggregate(log[..k], idx, source).threshold, Aggregate(log, idx, source).threshold;
      if IsOf(log[k], idx, source) && log[k].threshold.Some? {
        assert after == log[k].threshold && LastThreshold(log, k, idx, source);
      } else {
        assert after == before;
        if before.Some? {
          var n :| 0 <= n < k && LastThreshold(log[..k], n, idx, source) && log[..k][n].threshold == before;
          assert LastThreshold(log, n, idx, source) && log[n].threshold == after;
        }
      }
    }
  }

  lemma AddSourceHolds(c: Config, d: Dict<string, SourceBucket>, r: Record)
    requires d.Valid() && c.Valid()
    ensures r.source in AddSource(c, d, r).vals
  {
    hide Dict.Valid;
  }

  // ---- totals over several sources and buckets -----------------------------------------------------

  datatype Totals = Totals(count: nat, sum: real, max: Option<real>, threshold: Option<real>)

  const NOTHING := Totals(0, 0.0, None, None)

  function MaxOption(a: Option<real>, b: Option<real>): Option<real> {
    if a.None? then b else if b.None? then a else if b.value > a.value then b else a
  }

  function Plus(a: Totals, b: Totals): Totals {
    Totals(a.count + b.count, a.sum + b.sum, MaxOption(a.max, b.max), MaxOption(a.threshold, b.threshold))
  }

  lemma PlusLaws(a: Totals, b: Totals, d: Totals)
    ensures Plus(a, b) == Plus(b, a)
    ensures Plus(a, Plus(b, d)) == Plus(Plus(a, b), d)
    ensures Plus(a, NOTHING) == a && Plus(NOTHING, a) == a
  {
  }

  function OfSource(b: SourceBucket): Totals {
    Totals(b.count, b.sum, Some(b.max), b.threshold)
  }

  function OfKeys(keys: seq<string>, vals: map<string, SourceBucket>): Totals {
    if keys == [] then NOTHING
    else
      var k := keys[|keys| - 1];
      Plus(OfKeys(keys[..|keys| - 1], vals), if k in vals then OfSource(vals[k]) else NOTHING)
  }

  /** One bucket, for one source or, with None, for all of them. */
  function OfBucket(d: Dict<string, SourceBucket>, source: Option<string>): Totals {
    if source.None? then OfKeys(d.keys, d.vals)
    else if d.Has(source.value) then OfSource(d.vals[source.value])
    else NOTHING
  }

  predicate Counts(r: Record, lo: int, hi: int, source: Option<string>) {
    ValidSource(r.source) && lo <= BucketIndex(r.ts) < hi && (source.Some? ==> r.source == source.value)
  }

  function OfRecord(r: Record): Totals {
    Totals(1, r.score, Some(if r.score > 0.0 then r.score else 0.0), None)
  }

  /** The scores of all records with a bucket index in [lo, hi). */
  function OfRecords(log: seq<Record>, lo: int, hi: int, source: Option<string>): Totals {
    if log == [] then NOTHING
    else
      var before, r := OfRecords(log[..|log| - 1], lo, hi, source), log[|log| - 1];
      if Counts(r, lo, hi, source) then Plus(before, OfRecord(r)) else before
  }

  function Scores(t: Totals): Totals { t.(threshold := None) }

  lemma {:induction false} RecordsSplit(log: seq<Record>, lo: int, mid: int, hi: int, source: Option<string>)
    requires lo <= mid <= hi
    ensures OfRecords(log, lo, hi, source) == Plus(OfRecords(log, lo, mid, source), OfRecords(log, mid, hi, source))
  {
    if log != [] {
      var init := log[..|log| - 1];
      RecordsSplit(init, lo, mid, hi, source);
      var a, b, r := OfRecords(init, lo, mid, source), OfRecords(init, mid, hi, source), OfRecord(log[|log| - 1]);
      PlusLaws(a, b, r);
      PlusLaws(a, r, b);
      PlusLaws(b, r, a);
      hide Plus, ValidSource;
    }
  }

  lemma {:induction false} RecordsConcat(a: seq<Record>, b: seq<Record>, lo: int, hi: int, source: Option<string>)
    ensures OfRecords(a + b, lo, hi, source) == Plus(OfRecords(a, lo, hi, source), OfRecords(b, lo, hi, source))
  {
    if b == [] {
      assert a + b == a;
      PlusLaws(OfRecords(a, lo, hi, source), NOTHING, NOTHING);
    } else {
      var n := |b| - 1;
      assert (a + b)[..|a + b| - 1] == a + b[..n];
      RecordsConcat(a, b[..n], lo, hi, source);
      PlusLaws(OfRecords(a, lo, hi, source), OfRecords(b[..n], lo, hi, source), OfRecord(b[n]));
      hide Plus, ValidSource;
    }
  }

  /** What the totals of records are: one record counts once, with its score, in its own
      minute and for its own source alone; and the totals of two logs add up. */
  lemma RecordsMean(a: seq<Record>, b: seq<Record>, r: Record, lo: int, hi: int, source: Option<string>)
    ensures var t := OfRecords([r], lo, hi, source);
            if ValidSource(r.source) && lo * 60_000_000_000 <= r.ts < hi * 60_000_000_000
               && (source == None || source == Some(r.source))
            then t.count == 1 && t.sum == r.score else t.count == 0 && t.sum == 0.0
    ensures var x, y := OfRecords(a, lo, hi, source), OfRecords(b, lo, hi, source);
            var both := OfRecords(a + b, lo, hi, source);
            both.count == x.count + y.count && both.sum == x.sum + y.sum
  {
    RecordsConcat(a, b, lo, hi, source);
    hide ValidSource;
    assert [r][..0] == [];
  }

  /** What names a source: up to 64 letters, digits, or one of `_.-`, and perhaps a final
      line feed. */
  lemma ValidSourceIff(s: string)
    ensures ValidSource(s) <==> exists name :: SourceName(name) && (s == name || s == name + "\n")
    ensures SourceName(s) <==>
            && 1 <= |s| <= 64
            && forall i :: 0 <= i < |s| ==>
                 var c := s[i] as int;
                 65 <= c <= 90 || 97 <= c <= 122 || 48 <= c <= 57 || c == 95 || c == 46 || c == 45
  {
    if ValidSource(s) && !SourceName(s) { assert s == s[..|s| - 1] + "\n"; }
    if name :| SourceName(name) && s == name + "\n" { assert s[..|s| - 1] == name; }
  }

  lemma {:induction false} NoRecords(log: seq<Record>, lo: int, source: Option<string>)
    ensures OfRecords(log, lo, lo, source) == NOTHING
  {
    if log != [] { NoRecords(log[..|log| - 1], lo, source); }
  }

  /** With non-negative scores, the maximum reported for the records is attained by one
      of them and exceeded by none. */
  lemma {:induction false} RecordMaxIsTrue(log: seq<Record>, lo: int, hi: int, source: Option<string>)
    requires NonNegative(log)
    ensures var t := OfRecords(log, lo, hi, source);
            && (t.max.None? <==> t.count == 0)
            && (forall n :: 0 <= n < |log| && Counts(log[n], lo, hi, source) ==>
                  t.max.Some? && log[n].score <= t.max.value)
            && (t.max.Some? ==>
                  exists n :: 0 <= n < |log| && Counts(log[n], lo, hi, source) && log[n].score == t.max.value)
  {
    if log != [] {
      var m := |log| - 1;
      RecordMaxIsTrue(log[..m], lo, hi, source);
      hide Counts;
      var before, t := OfRecords(log[..m], lo, hi, source), OfRecords(log, lo, hi, source);
      if before.max.Some? {
        var n :| 0 <= n < m && Counts(log[..m][n], lo, hi, source) && log[..m][n].score == before.max.value;
        assert log[n] == log[..m][n];
      }
      forall n | 0 <= n < |log| && Counts(log[n], lo, hi, source)
        ensures t.max.Some? && log[n].score <= t.max.value
      {
        if n < m { assert log[..m][n] == log[n]; }
      }
    }
  }

  // ---- a bucket's totals are its records' totals -------------------------------------------------------

  lemma {:induction false} AggregateIsRecords(log: seq<Record>, idx: int, source: string)
    ensures Aggregate(log, idx, source).max >= 0.0
    ensures source in Seen(log, idx) ==>
            Scores(OfSource(Aggregate(log, idx, source))) == OfRecords(log, idx, idx + 1, Some(source))
    ensures source !in Seen(log, idx) ==> OfRecords(log, idx, idx + 1, Some(source)) == NOTHING
  {
    if log != [] {
      AggregateIsRecords(log[..|log| - 1], idx, source);
      if source !in Seen(log[..|log| - 1], idx) { UnseenIsEmpty(log[..|log| - 1], idx, source); }
    }
  }

  lemma {:induction false} OfKeysRemove(keys: seq<string>, vals: map<string, SourceBucket>, k: string)
    requires k in keys
    ensures OfKeys(keys, vals)
         == Plus(OfKeys(RemoveKey(keys, k), vals), if k in vals then OfSource(vals[k]) else NOTHING)
  {
    var n := |keys| - 1;
    var last, rest := keys[n], keys[..n];
    var lastTotals := if last in vals then OfSource(vals[last]) else NOTHING;
    assert keys == rest + [last];
    RemoveKeyLast(rest, last, k);
    if k in rest {
      OfKeysRemove(rest, vals, k);
      var r := RemoveKey(rest, k) + [last];
      assert r[..|r| - 1] == RemoveKey(rest, k);
      var kTotals := if k in vals then OfSource(vals[k]) else NOTHING;
      var others := OfKeys(RemoveKey(rest, k), vals);
      PlusLaws(others, kTotals, lastTotals);
      PlusLaws(others, lastTotals, kTotals);
      PlusLaws(kTotals, lastTotals, others);
    }
    hide Plus, OfSource, RemoveKey;
  }

  lemma {:induction false} RemoveKeyLast(rest: seq<string>, last: string, k: string)
    ensures RemoveKey(rest + [last], k) ==
            if k in rest then RemoveKey(rest, k) + [last] else if last == k then rest else rest + [last]
  {
    if rest != [] {
      assert (rest + [last])[1..] == rest[1..] + [last];
      RemoveKeyLast(rest[1..], last, k);
    }
  }

  lemma {:induction false} OfKeysAgree(keys: seq<string>, a: map<string, SourceBucket>, b: map<string, SourceBucket>)
    requires forall i :: 0 <= i < |keys| ==>
               (keys[i] in a <==> keys[i] in b) && (keys[i] in a ==> a[keys[i]] == b[keys[i]])
    ensures OfKeys(keys, a) == OfKeys(keys, b)
  {
    if keys != [] { OfKeysAgree(keys[..|keys| - 1], a, b); }
  }

  function KeyTotals(vals: map<string, SourceBucket>, k: string): Totals {
    if k in vals then OfSource(vals[k]) else NOTHING
  }

  lemma OfKeysWithout(d: Dict<string, SourceBucket>, k: string)
    requires d.Valid()
    ensures OfKeys(d.keys, d.vals) == Plus(OfKeys(RemoveKey(d.keys, k), d.vals), KeyTotals(d.vals, k))
  {
    d.Member(k);
    if k in d.keys {
      OfKeysRemove(d.keys, d.vals, k);
    } else {
      RemoveAbsent(d.keys, k);
      PlusLaws(OfKeys(d.keys, d.vals), NOTHING, NOTHING);
    }
    hide Dict.Valid, Plus, OfKeys, RemoveKey;
  }

  /** Storing under `k` at the end adds its totals to those of the other keys. */
  lemma OfKeysStore(d: Dict<string, SourceBucket>, k: string, b: SourceBucket)
    requires d.Valid()
    ensures var rest := RemoveKey(d.keys, k);
            OfKeys(rest + [k], d.vals[k := b]) == Plus(OfKeys(rest, d.vals), OfSource(b))
  {
    var rest := RemoveKey(d.keys, k);
    RemoveKeyFacts(d.keys, k);
    assert multiset(d.keys)[k] <= 1;
    assert k !in multiset(rest);
    assert (rest + [k])[..|rest|] == rest;
    hide Dict.Valid, RemoveKey, OfSource, Plus;
    OfKeysAgree(rest, d.vals, d.vals[k := b]);
  }

  lemma ScoresOfPlus(a: Totals, b: Totals)
    ensures Scores(Plus(a, b)) == Plus(Scores(a), Scores(b))
  {
  }

  // The totals after one record, with and without a source giving way.

  lemma AddSourceTotals(c: Config, d: Dict<string, SourceBucket>, r: Record)
    requires d.Valid() && c.Valid()
    requires d.Has(r.source) ==> d.vals[r.source].max >= 0.0
    requires d.Has(r.source) || |d.vals| < c.maxSources
    ensures Scores(OfBucket(AddSource(c, d, r), None)) == Plus(Scores(OfBucket(d, None)), OfRecord(r))
  {
    hide *;
    hide Dict.Valid;
    var k := r.source;
    var b := Stored(d, r);
    var rest := OfKeys(RemoveKey(d.keys, k), d.vals);
    AddSourceStores(c, d, r);
    OfKeysWithout(d, k);
    OfKeysStore(d, k, b);
    StoredTotals(d, r);
    ScoresOfPlus(rest, OfSource(b));
    ScoresOfPlus(rest, KeyTotals(d.vals, k));
    PlusLaws(Scores(rest), Scores(KeyTotals(d.vals, k)), OfRecord(r));
    AllSources(d);
    AllSources(AddSource(c, d, r));
  }

  lemma AllSources(d: Dict<string, SourceBucket>)
    requires d.Valid()
    ensures OfBucket(d, None) == OfKeys(d.keys, d.vals)
  {
  }

  function Stored(d: Dict<string, SourceBucket>, r: Record): SourceBucket {
    AddScore(if d.Has(r.source) then d.vals[r.source] else NO_SCORES, r)
  }

  lemma StoredTotals(d: Dict<string, SourceBucket>, r: Record)
    requires d.Has(r.source) ==> d.vals[r.source].max >= 0.0
    ensures Scores(OfSource(Stored(d, r))) == Plus(Scores(KeyTotals(d.vals, r.source)), OfRecord(r))
  {
  }

  lemma AddSourceStores(c: Config, d: Dict<string, SourceBucket>, r: Record)
    requires d.Valid() && c.Valid()
    requires d.Has(r.source) || |d.vals| < c.maxSources
    ensures var k, e := r.source, AddSource(c, d, r);
            && e.keys == RemoveKey(d.keys, k) + [k]
            && e.vals == d.vals[k := Stored(d, r)]
  {
    d.SizeIs();
    d.Member(r.source);
    if !d.Has(r.source) { RemoveAbsent(d.keys, r.source); }
    hide Dict.Valid, AddScore, RemoveKey;
  }

  /** For one source or for all, a bucket with few sources totals exactly its records. */
  lemma {:induction false} BucketIsRecords(c: Config, log: seq<Record>, idx: int, source: Option<string>)
    requires c.Valid() && |Seen(log, idx)| <= c.maxSources
    ensures Scores(OfBucket(SourcesAt(c, log, idx), source)) == OfRecords(log, idx, idx + 1, source)
  {
    FewSourcesAreExact(c, log, idx);
    if source.Some? {
      AggregateIsRecords(log, idx, source.value);
    } else if log != [] {
      var init, r := log[..|log| - 1], log[|log| - 1];
      SeenGrows(log, idx);
      BucketIsRecords(c, init, idx, source);
      if In(r, idx) {
        var d := SourcesAt(c, init, idx);
        FewSourcesAreExact(c, init, idx);
        AggregateIsRecords(init, idx, r.source);
        assert d.vals.Keys == Seen(init, idx);
        assert |d.vals| == |d.vals.Keys|;
        AddSourceTotals(c, d, r);
      }
      hide AddSource, Plus, Scores, Dict.Valid, OfBucket, Aggregate;
    }
  }

  // ---- a crowded bucket loses records, but never invents any -----------------------------------------

  /** No more events, no larger sum, and no larger maximum. */
  ghost predicate AtMost(a: Totals, b: Totals) {
    && a.count <= b.count && a.sum <= b.sum
    && (a.max.Some? ==> b.max.Some? && a.max.value <= b.max.value)
  }

  lemma AtMostPlus(a: Totals, b: Totals, d: Totals, e: Totals)
    requires AtMost(a, b) && AtMost(d, e)
    ensures AtMost(Plus(a, d), Plus(b, e))
  {
  }

  ghost predicate NoneNegative(d: Dict<string, SourceBucket>) {
    forall k :: k in d.vals ==> d.vals[k].sum >= 0.0 && d.vals[k].max >= 0.0
  }

  lemma {:induction false} HeldFacts(c: Config, log: seq<Record>, idx: int)
    requires c.Valid() && NonNegative(log)
    ensures NoneNegative(SourcesAt(c, log, idx))
    ensures forall source :: source in SourcesAt(c, log, idx).vals ==> source in Seen(log, idx)
  {
    if log != [] {
      var init, r := log[..|log| - 1], log[|log| - 1];
      HeldFacts(c, init, idx);
      SeenGrows(log, idx);
      if In(r, idx) {
        var d := SourcesAt(c, init, idx);
        forall source | source in AddSource(c, d, r).vals
          ensures AddSource(c, d, r).vals[source].sum >= 0.0 && AddSource(c, d, r).vals[source].max >= 0.0
          ensures source == r.source || source in d.vals
        {
          AddSourceWithin(c, d, r, source);
        }
      }
      hide AddSource, Dict.Valid, In;
    }
  }

  lemma AddSourceAtMost(c: Config, d: Dict<string, SourceBucket>, r: Record)
    requires d.Valid() && c.Valid() && |d.keys| <= c.maxSources && NoneNegative(d)
    ensures AtMost(Scores(OfBucket(AddSource(c, d, r), None)), Plus(Scores(OfBucket(d, None)), OfRecord(r)))
  {
    hide OfBucket, RemoveKey, AddScore, Plus, Scores;
    d.SizeIs();
    if d.Has(r.source) || |d.keys| < c.maxSources {
      AddSourceTotals(c, d, r);
    } else {
      var room := d.Remove(d.keys[0]);
      RemoveKeyFacts(d.keys, d.keys[0]);
      d.Member(d.keys[0]);
      assert d.keys[0] in d.keys;
      room.SizeIs();
      RemovedAtMost(d, d.keys[0]);
      hide Dict.Valid;
      assert AddSource(c, d, r) == AddSource(c, room, r);
      AddSourceTotals(c, room, r);
      AtMostPlus(Scores(OfBucket(room, None)), Scores(OfBucket(d, None)), OfRecord(r), OfRecord(r));
    }
  }

  lemma RemovedAtMost(d: Dict<string, SourceBucket>, k: string)
    requires d.Valid() && NoneNegative(d)
    ensures AtMost(Scores(OfBucket(d.Remove(k), None)), Scores(OfBucket(d, None)))
  {
    hide OfKeys, RemoveKey;
    var rest := RemoveKey(d.keys, k);
    OfKeysWithout(d, k);
    RemoveKeyFacts(d.keys, k);
    assert multiset(d.keys)[k] <= 1;
    assert k !in multiset(rest);
    hide Dict.Valid;
    OfKeysAgree(rest, d.vals, d.vals - {k});
  }

  /** Of the records of a bucket the ring reports no more events, no larger sum and no
      larger maximum than there were. */
  lemma {:induction false} BucketNeverOvercounts(c: Config, log: seq<Record>, idx: int, source: Option<string>)
    requires c.Valid() && NonNegative(log)
    ensures AtMost(Scores(OfBucket(SourcesAt(c, log, idx), source)), OfRecords(log, idx, idx + 1, source))
  {
    hide AddSource, OfKeys, Dict.Valid;
    if source.Some? {
      AggregateIsRecords(log, idx, source.value);
      AggregateNonNegative(log, idx, source.value);
      HeldFacts(c, log, idx);
      if source.value in SourcesAt(c, log, idx).vals { SourcesNeverOvercount(c, log, idx, source.value); }
      hide SourcesAt, OfRecords, Aggregate, Seen;
    } else if log != [] {
      var init, r := log[..|log| - 1], log[|log| - 1];
      hide OfBucket, ValidSource, BucketIndex, Plus, Scores;
      BucketNeverOvercounts(c, init, idx, source);
      SourcesStayBounded(c, init, idx);
      HeldFacts(c, init, idx);
      if In(r, idx) {
        AddSourceAtMost(c, SourcesAt(c, init, idx), r);
        var before := Scores(OfBucket(SourcesAt(c, init, idx), None));
        AtMostPlus(before, OfRecords(init, idx, idx + 1, source), OfRecord(r), OfRecord(r));
      }
      hide NoneNegative, AtMost;
    } else {
      NoSourcesTotal(source);
    }
  }

  // ---- queries -------------------------------------------------------------------------------------

  /** The sources of minute `idx`, unless its slot holds another minute. */
  function Cell(c: Config, slots: Slots, idx: int): (d: Dict<string, SourceBucket>)
    requires c.Valid() && WellFormed(c, slots)
    ensures d.Valid()
  {
    if idx < 0 then NO_SOURCES
    else
      var b := slots[SlotOf(c, idx)];
      if b.None? || b.value.start != idx * BUCKET_NS then NO_SOURCES else b.value.sources
  }

  /** The totals of `n` minutes from `lo` on. */
  function Span(c: Config, slots: Slots, source: Option<string>, lo: int, n: nat): Totals
    requires c.Valid() && WellFormed(c, slots)
  {
    if n == 0 then NOTHING
    else Plus(Span(c, slots, source, lo, n - 1), OfBucket(Cell(c, slots, lo + n - 1), source))
  }

  datatype TimelineBucket = TimelineBucket(
    start: int,
    maxScore: Option<real>,
    avgScore: Option<real>,
    eventCount: nat,
    upperThreshold: Option<real>,
    alertCount: nat)

  /** The threshold of output bucket `i`, carried over from earlier ones if it has none. */
  function Carried(c: Config, slots: Slots, source: Option<string>, lo: int, step: nat, i: nat): Option<real>
    requires c.Valid() && WellFormed(c, slots)
  {
    var own := Span(c, slots, source, lo + i * step, step).threshold;
    if own.Some? then own else if i == 0 then None else Carried(c, slots, source, lo, step, i - 1)
  }

  function Average(t: Totals): Option<real> {
    if t.count == 0 then None else Some(t.sum / t.count as real)
  }

  function OutBucket(c: Config, slots: Slots, source: Option<string>, lo: int, step: nat, i: nat): TimelineBucket
    requires c.Valid() && WellFormed(c, slots)
  {
    var t := Span(c, slots, source, lo + i * step, step);
    TimelineBucket((lo + i * step) * BUCKET_NS, t.max, Average(t), t.count, Carried(c, slots, source, lo, step, i), 0)
  }

  function Series(c: Config, slots: Slots, source: Option<string>, lo: int, step: nat, n: nat): (r: seq<TimelineBucket>)
    requires c.Valid() && WellFormed(c, slots)
    ensures |r| == n && forall i :: 0 <= i < n ==> r[i] == OutBucket(c, slots, source, lo, step, i)
  {
    seq(n, i requires 0 <= i < n => OutBucket(c, slots, source, lo, step, i))
  }

  predicate ValidQuery(range: int, resolution: int) {
    resolution >= BUCKET_NS && resolution % BUCKET_NS == 0 && range >= resolution && range % resolution == 0
  }

  /** First minute, minutes per output bucket, and number of output buckets. */
  function Layout(range: int, resolution: int, now: nat): (r: (int, nat, nat))
    requires ValidQuery(range, resolution)
    ensures r.1 >= 1 && r.2 >= 1
  {
    var n := range / resolution;
    var step := resolution / BUCKET_NS;
    var end := (BucketIndex(now) + 1) / step * step;
    (end - n * step, step, n)
  }

  /** The series ends at the last full output bucket, less than one bucket before now. */
  lemma LayoutIsAligned(range: int, resolution: int, now: nat)
    requires ValidQuery(range, resolution)
    ensures var (lo, step, n) := Layout(range, resolution, now);
            var end := lo + n * step;
            && end % step == 0
            && end <= BucketIndex(now) + 1 < end + step
            && step * BUCKET_NS == resolution && n * resolution == range
  {
    var (lo, step, n) := Layout(range, resolution, now);
    var q := (BucketIndex(now) + 1) / step;
    assert resolution == BUCKET_NS * (resolution / BUCKET_NS) + resolution % BUCKET_NS;
    assert range == resolution * (range / resolution) + range % resolution;
    assert BucketIndex(now) + 1 == step * q + (BucketIndex(now) + 1) % step;
    assert step * q == q * step;
    if q >= 0 { Remainder(q * step, step, q, 0); }
  }

  // ---- the threshold of an output bucket ----------------------------------------------------------------

  /** A threshold that source `k` holds in minute `idx`. */
  predicate Candidate(c: Config, slots: Slots, source: Option<string>, idx: int, k: string)
    requires c.Valid() && WellFormed(c, slots)
  {
    && k in Cell(c, slots, idx).vals && (source == None || source == Some(k))
    && Cell(c, slots, idx).vals[k].threshold.Some?
  }

  lemma {:induction false} OfKeysThreshold(keys: seq<string>, vals: map<string, SourceBucket>)
    requires forall k :: k in keys ==> k in vals
    ensures var t := OfKeys(keys, vals).threshold;
            && (forall k :: k in keys && vals[k].threshold.Some? ==> t.Some? && vals[k].threshold.value <= t.value)
            && (t.Some? ==> exists k :: k in keys && vals[k].threshold == t)
  {
    if keys != [] {
      var n := |keys| - 1;
      OfKeysThreshold(keys[..n], vals);
      assert keys == keys[..n] + [keys[n]];
    }
  }

  lemma BucketThreshold(c: Config, slots: Slots, source: Option<string>, idx: int)
    requires c.Valid() && WellFormed(c, slots)
    ensures var t, d := OfBucket(Cell(c, slots, idx), source).threshold, Cell(c, slots, idx);
            && (forall k :: Candidate(c, slots, source, idx, k) ==> t.Some? && d.vals[k].threshold.value <= t.value)
            && (t.Some? ==> exists k :: Candidate(c, slots, source, idx, k) && d.vals[k].threshold == t)
  {
    var d := Cell(c, slots, idx);
    hide Cell, WellFormed, OfKeys;
    forall k
      ensures k in d.keys <==> k in d.vals
    {
      d.Member(k);
    }
    hide Dict.Valid;
    OfKeysThreshold(d.keys, d.vals);
  }

  /** The threshold of an output bucket, before any is carried over, is the largest that a
      source holds in one of its minutes. */
  lemma {:induction false} SpanThresholdIsLargest(c: Config, slots: Slots, source: Option<string>, lo: int, n: nat)
    requires c.Valid() && WellFormed(c, slots)
    ensures var t := Span(c, slots, source, lo, n).threshold;
            && (forall idx, k :: lo <= idx < lo + n && Candidate(c, slots, source, idx, k) ==>
                  t.Some? && Cell(c, slots, idx).vals[k].threshold.value <= t.value)
            && (t.Some? ==>
                  exists idx, k :: lo <= idx < lo + n && Candidate(c, slots, source, idx, k)
                                   && Cell(c, slots, idx).vals[k].threshold == t)
  {
    if n > 0 {
      SpanThresholdIsLargest(c, slots, source, lo, n - 1);
      BucketThreshold(c, slots, source, lo + n - 1);
      hide Cell, WellFormed, OfBucket;
    }
  }

  // ---- the ring's answers against the log ---------------------------------------------------------------

  lemma SlotIsExact(c: Config, log: seq<Record>, s: nat)
    requires c.Valid() && NoneStale(c, log) && s < c.capacity
    ensures SlotExact(c, Run(c, log), log, s)
  {
    hide Run, SlotExact, NoneStale;
    RingIsExactIff(c, log);
    assert log[..|log|] == log;
    assert Exact(c, Run(c, log[..|log|]), log[..|log|]);
  }

  lemma InWindow(c: Config, log: seq<Record>, idx: nat)
    requires c.Valid() && idx > Newest(log) - c.capacity
    ensures NewestIn(c, log, SlotOf(c, idx)) <= idx
    ensures NewestIn(c, log, SlotOf(c, idx)) < idx ==> SourcesAt(c, log, idx) == NO_SOURCES
  {
    hide NewestIn, SourcesAt, SlotOf, Newest;
    var s := SlotOf(c, idx);
    var newest := NewestIn(c, log, s);
    if newest < idx {
      NothingAboveNewest(c, log, s, idx);
    } else if newest > idx {
      NewestIsInSlot(c, log, s);
      NewestInBelowNewest(c, log, s);
      SameSlotApart(c, idx, newest);
    }
  }

  /** In the window, the ring has lost nothing: minute for minute it holds what the
      unbounded log holds. */
  lemma CellIsLog(c: Config, log: seq<Record>, idx: int)
    requires c.Valid() && NoneStale(c, log)
    requires idx > Newest(log) - c.capacity
    ensures Cell(c, Run(c, log), idx) == if idx < 0 then NO_SOURCES else SourcesAt(c, log, idx)
  {
    hide Run, NewestIn, SourcesAt, Dict.Valid, NoneStale, Newest, WellFormed;
    if idx >= 0 {
      SlotIsExact(c, log, SlotOf(c, idx));
      InWindow(c, log, idx);
    }
  }

  /** Some record was made for the minute. */
  ghost predicate Recorded(log: seq<Record>, idx: int) {
    exists n :: 0 <= n < |log| && In(log[n], idx)
  }

  /** Some record was made for a later minute of the same slot. */
  ghost predicate Overwritten(c: Config, log: seq<Record>, idx: nat)
    requires c.Valid()
  {
    exists n :: 0 <= n < |log| && ValidSource(log[n].source) && BucketIndex(log[n].ts) > idx
             && SlotOf(c, BucketIndex(log[n].ts)) == SlotOf(c, idx)
  }

  lemma {:induction false} OverwrittenIff(c: Config, log: seq<Record>, idx: nat)
    requires c.Valid()
    ensures Overwritten(c, log, idx) <==> NewestIn(c, log, SlotOf(c, idx)) > idx
  {
    hide ValidSource, SlotOf, BucketIndex;
    if log != [] {
      var m := |log| - 1;
      OverwrittenIff(c, log[..m], idx);
      assert forall n :: 0 <= n < m ==> log[..m][n] == log[n];
      var other := BucketIndex(log[m].ts);
      if ValidSource(log[m].source) && other > idx && SlotOf(c, other) == SlotOf(c, idx) {
        assert Overwritten(c, log, idx);
      }
    }
  }

  lemma AddSourceNotEmpty(c: Config, d: Dict<string, SourceBucket>, r: Record)
    requires d.Valid() && c.Valid()
    ensures AddSource(c, d, r).vals != map[]
  {
    hide Dict.Valid;
    assert r.source in AddSource(c, d, r).vals;
  }

  lemma {:induction false} RecordedIff(c: Config, log: seq<Record>, idx: int)
    requires c.Valid()
    ensures Recorded(log, idx) <==> SourcesAt(c, log, idx) != NO_SOURCES
  {
    hide In, AddSource, Dict.Valid;
    if log != [] {
      var m := |log| - 1;
      RecordedIff(c, log[..m], idx);
      AddSourceNotEmpty(c, SourcesAt(c, log[..m], idx), log[m]);
      assert forall n :: 0 <= n < m ==> log[..m][n] == log[n];
      if In(log[m], idx) { assert Recorded(log, idx); }
    }
  }

  /** Exactly when the ring still holds a minute: unless it had records and a later minute
      of its slot had some too. */
  lemma CellIsLogIff(c: Config, log: seq<Record>, idx: nat)
    requires c.Valid() && NoneStale(c, log)
    ensures Cell(c, Run(c, log), idx) == SourcesAt(c, log, idx) <==> !(Recorded(log, idx) && Overwritten(c, log, idx))
    ensures Overwritten(c, log, idx) ==> Cell(c, Run(c, log), idx) == NO_SOURCES
  {
    hide Run, NewestIn, SourcesAt, Dict.Valid, NoneStale, WellFormed, Recorded, Overwritten, SlotOf;
    var s := SlotOf(c, idx);
    SlotIsExact(c, log, s);
    OverwrittenIff(c, log, idx);
    RecordedIff(c, log, idx);
    if NewestIn(c, log, s) < idx { NothingAboveNewest(c, log, s, idx); }
  }

  lemma {:induction false} NegativeIsEmpty(log: seq<Record>, lo: int, hi: int, source: Option<string>)
    requires hi <= 0
    ensures OfRecords(log, lo, hi, source) == NOTHING
  {
    if log != [] { NegativeIsEmpty(log[..|log| - 1], lo, hi, source); }
  }

  lemma NoSourcesTotal(source: Option<string>)
    ensures Scores(OfBucket(NO_SOURCES, source)) == NOTHING
  {
  }

  // ---- what the ring still knows, after any log ---------------------------------------------------------

  /** The record gives the slot of minute `idx` to another minute. */
  predicate Takes(c: Config, r: Record, idx: nat)
    requires c.Valid()
  {
    ValidSource(r.source) && BucketIndex(r.ts) != idx && SlotOf(c, BucketIndex(r.ts)) == SlotOf(c, idx)
  }

  /** The records of minute `idx` since its slot last went to another one. */
  function Held(c: Config, log: seq<Record>, idx: nat): seq<Record>
    requires c.Valid()
  {
    if log == [] then []
    else
      var before, r := Held(c, log[..|log| - 1], idx), log[|log| - 1];
      if In(r, idx) then before + [r] else if Takes(c, r, idx) then [] else before
  }

  /** Some later record took the slot from the n-th one. */
  ghost predicate Displaced(c: Config, log: seq<Record>, n: nat)
    requires c.Valid() && n < |log|
  {
    exists m :: n < m < |log| && Takes(c, log[m], BucketIndex(log[n].ts))
  }

  /** A record of the minutes in [lo, hi) was displaced. */
  ghost predicate LosesSome(c: Config, log: seq<Record>, lo: int, hi: int, source: Option<string>)
    requires c.Valid()
  {
    exists n :: 0 <= n < |log| && Counts(log[n], lo, hi, source) && Displaced(c, log, n)
  }

  lemma RecordedCell(c: Config, slots: Slots, r: Record, idx: nat)
    requires c.Valid() && WellFormed(c, slots)
    ensures Cell(c, RecordScore(c, slots, r), idx) ==
      if In(r, idx) then AddSource(c, Cell(c, slots, idx), r)
      else if Takes(c, r, idx) then NO_SOURCES
      else Cell(c, slots, idx)
  {
    hide AddSource, Dict.Valid, ValidSource, SlotOf, BucketIndex, RecordScore;
    RecordedSlot(c, slots, r, SlotOf(c, idx));
  }

  /** After any log, stale records included, the ring holds of every minute what the
      records since its slot last changed hands make of it. */
  lemma {:induction false} CellIsHeld(c: Config, log: seq<Record>, idx: nat)
    requires c.Valid()
    ensures Cell(c, Run(c, log), idx) == SourcesAt(c, Held(c, log, idx), idx)
  {
    hide AddSource, Dict.Valid, RecordScore, Takes, In, SlotOf, WellFormed;
    if log != [] {
      var init, r := log[..|log| - 1], log[|log| - 1];
      CellIsHeld(c, init, idx);
      RecordedCell(c, Run(c, init), r, idx);
      var before := Held(c, init, idx);
      assert (before + [r])[..|before|] == before;
      hide Cell;
    } else {
      EmptyCell(c, idx);
    }
  }

  lemma EmptyCell(c: Config, idx: nat)
    requires c.Valid()
    ensures Cell(c, Run(c, []), idx) == NO_SOURCES
  {
    hide SlotOf, Dict.Valid;
  }

  /** And of every source it holds, its records since the source last gave way. */
  lemma RingSourceIsExact(c: Config, log: seq<Record>, idx: nat, source: string)
    requires c.Valid() && source in Cell(c, Run(c, log), idx).vals
    ensures Cell(c, Run(c, log), idx).vals[source]
         == Aggregate(Kept(c, Held(c, log, idx), idx, source), idx, source)
  {
    hide Run, Cell, SourcesAt, Aggregate, Kept, Held, WellFormed, Dict.Valid;
    CellIsHeld(c, log, idx);
    HeldSourceIsExact(c, Held(c, log, idx), idx, source);
  }

  lemma {:induction false} AnyCounted(log: seq<Record>, lo: int, hi: int, source: Option<string>)
    ensures OfRecords(log, lo, hi, source).count > 0 <==>
            exists n :: 0 <= n < |log| && Counts(log[n], lo, hi, source)
    ensures OfRecords(log, lo, hi, source).count == 0 ==> OfRecords(log, lo, hi, source) == NOTHING
  {
    hide Counts;
    if log != [] {
      var m := |log| - 1;
      AnyCounted(log[..m], lo, hi, source);
      assert forall n :: 0 <= n < m ==> log[..m][n] == log[n];
      if Counts(log[m], lo, hi, source) { assert exists n :: 0 <= n < |log| && Counts(log[n], lo, hi, source); }
    }
  }

  lemma DisplacedNext(c: Config, log: seq<Record>, r: Record, n: nat)
    requires c.Valid() && n < |log|
    ensures Displaced(c, log + [r], n) <==> Displaced(c, log, n) || Takes(c, r, BucketIndex(log[n].ts))
  {
    hide Takes, BucketIndex;
    var more := log + [r];
    if Takes(c, r, BucketIndex(log[n].ts)) { assert Takes(c, more[|log|], BucketIndex(more[n].ts)); }
    if Displaced(c, log, n) {
      var m :| n < m < |log| && Takes(c, log[m], BucketIndex(log[n].ts));
      assert Takes(c, more[m], BucketIndex(more[n].ts));
    }
  }

  lemma LosesNext(c: Config, log: seq<Record>, r: Record, idx: nat, source: Option<string>)
    requires c.Valid()
    ensures LosesSome(c, log + [r], idx, idx + 1, source) <==>
            LosesSome(c, log, idx, idx + 1, source)
            || (Takes(c, r, idx) && OfRecords(log, idx, idx + 1, source).count > 0)
  {
    hide Takes, Displaced, OfRecords, ValidSource, BucketIndex;
    var more := log + [r];
    AnyCounted(log, idx, idx + 1, source);
    forall n | 0 <= n < |log|
      ensures Displaced(c, more, n) <==> Displaced(c, log, n) || Takes(c, r, BucketIndex(log[n].ts))
      ensures more[n] == log[n]
    {
      DisplacedNext(c, log, r, n);
    }
    LastStays(c, more);
    if LosesSome(c, log, idx, idx + 1, source) {
      var n :| 0 <= n < |log| && Counts(log[n], idx, idx + 1, source) && Displaced(c, log, n);
      assert Counts(more[n], idx, idx + 1, source) && Displaced(c, more, n);
    }
    if Takes(c, r, idx) && OfRecords(log, idx, idx + 1, source).count > 0 {
      var n :| 0 <= n < |log| && Counts(log[n], idx, idx + 1, source);
      assert Counts(more[n], idx, idx + 1, source) && Displaced(c, more, n);
    }
  }

  lemma LastStays(c: Config, log: seq<Record>)
    requires c.Valid() && log != []
    ensures !Displaced(c, log, |log| - 1)
  {
  }

  /** The held records of a minute are all its records if and only if none was displaced,
      and fewer otherwise. */
  lemma {:induction false} HeldIsAllIff(c: Config, log: seq<Record>, idx: nat, source: Option<string>)
    requires c.Valid()
    ensures var held, all := OfRecords(Held(c, log, idx), idx, idx + 1, source), OfRecords(log, idx, idx + 1, source);
            && held.count <= all.count
            && (held.count == all.count <==> !LosesSome(c, log, idx, idx + 1, source))
            && (held.count == all.count ==> held == all)
            && (NonNegative(log) ==> AtMost(held, all) && all.sum >= 0.0)
  {
    if log != [] {
      var init, r := log[..|log| - 1], log[|log| - 1];
      HeldIsAllIff(c, init, idx, source);
      hide *;
      assert log == init + [r];
      LosesNext(c, init, r, idx, source);
      HeldNext(c, init, r, idx);
      var before, all := Held(c, init, idx), OfRecords(init, idx, idx + 1, source);
      RecordsNext(before, r, idx, source);
      RecordsNext(init, r, idx, source);
      AnyCounted(init, idx, idx + 1, source);
      NoneOfNone(idx, source);
      LastIsPositive(init, r);
      PlusRecord(OfRecords(before, idx, idx + 1, source), all, r);
      TakesAnother(c, r, idx);
    } else {
      NothingLostYet(c, idx, source);
    }
  }

  lemma HeldNext(c: Config, log: seq<Record>, r: Record, idx: nat)
    requires c.Valid()
    ensures Held(c, log + [r], idx) ==
      if In(r, idx) then Held(c, log, idx) + [r] else if Takes(c, r, idx) then [] else Held(c, log, idx)
  {
    hide In, Takes;
    assert (log + [r])[..|log|] == log;
  }

  lemma RecordsNext(log: seq<Record>, r: Record, idx: int, source: Option<string>)
    ensures OfRecords(log + [r], idx, idx + 1, source) ==
      if In(r, idx) && (source.None? || r.source == source.value)
      then Plus(OfRecords(log, idx, idx + 1, source), OfRecord(r))
      else OfRecords(log, idx, idx + 1, source)
  {
    hide ValidSource, BucketIndex, Plus;
    assert (log + [r])[..|log|] == log;
  }

  lemma NoneOfNone(idx: int, source: Option<string>)
    ensures OfRecords([], idx, idx + 1, source) == NOTHING && NOTHING.count == 0
    ensures forall t: Totals :: t.sum >= 0.0 ==> AtMost(NOTHING, t)
  {
  }

  lemma LastIsPositive(log: seq<Record>, r: Record)
    ensures NonNegative(log + [r]) ==> NonNegative(log) && r.score >= 0.0
  {
    if NonNegative(log + [r]) {
      assert (log + [r])[|log|] == r;
      assert forall n :: 0 <= n < |log| ==> (log + [r])[n] == log[n];
    }
  }

  lemma NothingLostYet(c: Config, idx: nat, source: Option<string>)
    requires c.Valid()
    ensures !LosesSome(c, [], idx, idx + 1, source)
  {
  }

  lemma TakesAnother(c: Config, r: Record, idx: nat)
    requires c.Valid()
    ensures !(In(r, idx) && Takes(c, r, idx))
  {
  }

  lemma PlusRecord(a: Totals, b: Totals, r: Record)
    ensures Plus(a, OfRecord(r)).count == a.count + 1 && Plus(b, OfRecord(r)).count == b.count + 1
    ensures AtMost(a, b) ==> AtMost(Plus(a, OfRecord(r)), Plus(b, OfRecord(r)))
    ensures r.score >= 0.0 && b.sum >= 0.0 ==> Plus(b, OfRecord(r)).sum >= 0.0
  {
  }

  lemma {:induction false} HeldFewer(c: Config, log: seq<Record>, idx: nat)
    requires c.Valid()
    ensures Seen(Held(c, log, idx), idx) <= Seen(log, idx)
    ensures NonNegative(log) ==> NonNegative(Held(c, log, idx))
  {
    if log != [] {
      var init, r := log[..|log| - 1], log[|log| - 1];
      HeldFewer(c, init, idx);
      hide *;
      assert log == init + [r];
      var before := Held(c, init, idx);
      HeldNext(c, init, r, idx);
      SeenOneMore(init, r, idx);
      SeenOneMore(before, r, idx);
      LastIsPositive(init, r);
      OneMorePositive(before, r);
      NothingSeen(idx);
    }
  }

  lemma SeenOneMore(log: seq<Record>, r: Record, idx: int)
    ensures Seen(log + [r], idx) == Seen(log, idx) + if In(r, idx) then {r.source} else {}
  {
    hide In;
    assert (log + [r])[..|log|] == log;
  }

  lemma OneMorePositive(log: seq<Record>, r: Record)
    ensures NonNegative(log) && r.score >= 0.0 ==> NonNegative(log + [r])
  {
  }

  lemma NothingSeen(idx: int)
    ensures Seen([], idx) == {} && NonNegative([])
  {
  }

  lemma {:induction false} FewerSources(a: set<string>, b: set<string>)
    requires a <= b
    ensures |a| <= |b|
  {
    assert b == a + (b - a);
  }

  /** One minute of the ring against the log: it reports all of its records if and only if
      none was displaced, provided it saw few sources. */
  lemma MinuteIsTrueIff(c: Config, log: seq<Record>, idx: int, source: Option<string>)
    requires c.Valid() && |Seen(log, idx)| <= c.maxSources
    ensures var t, truth := Scores(OfBucket(Cell(c, Run(c, log), idx), source)), OfRecords(log, idx, idx + 1, source);
            && t.count <= truth.count
            && (t.count == truth.count <==> !LosesSome(c, log, idx, idx + 1, source))
            && (t.count == truth.count ==> t == truth)
  {
    hide Run, Cell, Seen, OfRecords, OfBucket, Dict.Valid, SourcesAt, WellFormed, LosesSome, Held, Scores;
    if idx < 0 {
      NothingBelowZero(c, log, idx, source);
      NegativeCell(c, Run(c, log), idx);
      NoSourcesTotal(source);
    } else {
      CellIsHeld(c, log, idx);
      HeldFewer(c, log, idx);
      FewerSources(Seen(Held(c, log, idx), idx), Seen(log, idx));
      BucketIsRecords(c, Held(c, log, idx), idx, source);
      HeldIsAllIff(c, log, idx, source);
    }
  }

  lemma NegativeCell(c: Config, slots: Slots, idx: int)
    requires c.Valid() && WellFormed(c, slots) && idx < 0
    ensures Cell(c, slots, idx) == NO_SOURCES
  {
  }

  lemma NothingBelowZero(c: Config, log: seq<Record>, idx: int, source: Option<string>)
    requires c.Valid() && idx < 0
    ensures OfRecords(log, idx, idx + 1, source) == NOTHING && !LosesSome(c, log, idx, idx + 1, source)
  {
    hide Displaced, OfRecords;
    NegativeIsEmpty(log, idx, idx + 1, source);
  }

  lemma LosesSplit(c: Config, log: seq<Record>, lo: int, mid: int, hi: int, source: Option<string>)
    requires c.Valid() && lo <= mid <= hi
    ensures LosesSome(c, log, lo, hi, source) <==>
            LosesSome(c, log, lo, mid, source) || LosesSome(c, log, mid, hi, source)
  {
    hide Displaced, ValidSource, BucketIndex;
    if LosesSome(c, log, lo, hi, source) {
      var n :| 0 <= n < |log| && Counts(log[n], lo, hi, source) && Displaced(c, log, n);
      assert Counts(log[n], lo, mid, source) || Counts(log[n], mid, hi, source);
    }
    if LosesSome(c, log, lo, mid, source) {
      var n :| 0 <= n < |log| && Counts(log[n], lo, mid, source) && Displaced(c, log, n);
      assert Counts(log[n], lo, hi, source);
    }
    if LosesSome(c, log, mid, hi, source) {
      var n :| 0 <= n < |log| && Counts(log[n], mid, hi, source) && Displaced(c, log, n);
      assert Counts(log[n], lo, hi, source);
    }
  }

  lemma NoneLost(c: Config, log: seq<Record>, lo: int, source: Option<string>)
    requires c.Valid()
    ensures !LosesSome(c, log, lo, lo, source)
  {
    hide Displaced;
  }

  lemma {:induction false} SpanIsTrueIff(c: Config, log: seq<Record>, source: Option<string>, lo: int, n: nat)
    requires c.Valid()
    requires forall idx :: lo <= idx < lo + n ==> |Seen(log, idx)| <= c.maxSources
    ensures var t, truth := Scores(Span(c, Run(c, log), source, lo, n)), OfRecords(log, lo, lo + n, source);
            && t.count <= truth.count
            && (t.count == truth.count <==> !LosesSome(c, log, lo, lo + n, source))
            && (t.count == truth.count ==> t == truth)
  {
    hide Run, Cell, Seen, Plus, OfRecords, OfBucket, Dict.Valid, WellFormed, LosesSome;
    if n == 0 {
      NoRecords(log, lo, source);
      NoneLost(c, log, lo, source);
    } else {
      var idx := lo + n - 1;
      SpanIsTrueIff(c, log, source, lo, n - 1);
      MinuteIsTrueIff(c, log, idx, source);
      RecordsSplit(log, lo, idx, idx + 1, source);
      LosesSplit(c, log, lo, idx, idx + 1, source);
      var before, last := Span(c, Run(c, log), source, lo, n - 1), OfBucket(Cell(c, Run(c, log), idx), source);
      ScoresOfPlus(before, last);
      CountsAdd(Scores(before), Scores(last));
      CountsAdd(OfRecords(log, lo, idx, source), OfRecords(log, idx, idx + 1, source));
      hide Scores;
    }
  }

  lemma CountsAdd(a: Totals, b: Totals)
    ensures Plus(a, b).count == a.count + b.count
  {
  }

  lemma AtMostTwice(a: Totals, b: Totals, d: Totals)
    requires AtMost(a, b) && AtMost(b, d)
    ensures AtMost(a, d)
  {
  }

  lemma MinuteNeverOvercounts(c: Config, log: seq<Record>, idx: int, source: Option<string>)
    requires c.Valid() && NonNegative(log)
    ensures AtMost(Scores(OfBucket(Cell(c, Run(c, log), idx), source)), OfRecords(log, idx, idx + 1, source))
  {
    hide Run, Cell, OfRecords, OfBucket, Dict.Valid, SourcesAt, WellFormed, NonNegative, AtMost, LosesSome, Held;
    if idx < 0 {
      NothingBelowZero(c, log, idx, source);
      NegativeCell(c, Run(c, log), idx);
      NoSourcesTotal(source);
      NothingAtMost();
    } else {
      var held := Held(c, log, idx);
      CellIsHeld(c, log, idx);
      HeldFewer(c, log, idx);
      BucketNeverOvercounts(c, held, idx, source);
      HeldIsAllIff(c, log, idx, source);
      AtMostTwice(Scores(OfBucket(SourcesAt(c, held, idx), source)), OfRecords(held, idx, idx + 1, source),
                  OfRecords(log, idx, idx + 1, source));
    }
  }

  /** After any log, however many sources there are and whatever was displaced, the ring
      never reports more events, a larger sum or a larger maximum than were recorded. */
  lemma {:induction false} SpanNeverOvercounts(c: Config, log: seq<Record>, source: Option<string>, lo: int, n: nat)
    requires c.Valid() && NonNegative(log)
    ensures AtMost(Scores(Span(c, Run(c, log), source, lo, n)), OfRecords(log, lo, lo + n, source))
  {
    hide Run, Cell, OfRecords, OfBucket, Dict.Valid, WellFormed, NonNegative, Plus, AtMost;
    if n == 0 {
      NoRecords(log, lo, source);
      NothingAtMost();
    } else {
      var idx := lo + n - 1;
      SpanNeverOvercounts(c, log, source, lo, n - 1);
      MinuteNeverOvercounts(c, log, idx, source);
      RecordsSplit(log, lo, idx, idx + 1, source);
      var before, last := Span(c, Run(c, log), source, lo, n - 1), OfBucket(Cell(c, Run(c, log), idx), source);
      ScoresOfPlus(before, last);
      AtMostPlus(Scores(before), OfRecords(log, lo, idx, source), Scores(last), OfRecords(log, idx, idx + 1, source));
    }
  }

  lemma NothingAtMost()
    ensures AtMost(NOTHING, NOTHING) && Scores(NOTHING) == NOTHING
  {
  }

  lemma AverageFacts(t: Totals)
    ensures Average(t).None? <==> t.count == 0
    ensures t.count > 0 ==> Average(t).value * t.count as real == t.sum
  {
  }

  /** The output bucket has the exact count, sum and maximum. */
  ghost predicate IsTrue(b: TimelineBucket, truth: Totals) {
    && b.eventCount == truth.count && b.maxScore == truth.max
    && (b.avgScore.None? <==> truth.count == 0)
    && (b.avgScore.Some? ==> b.avgScore.value * truth.count as real == truth.sum)
  }

  ghost predicate FewSources(c: Config, log: seq<Record>, lo: int, hi: int) {
    forall idx :: lo <= idx < hi ==> |Seen(log, idx)| <= c.maxSources
  }

  /** Exactly when the served series is the truth about the whole log, after any log: an
      output bucket whose minutes saw few sources has the exact count, sum and maximum of
      all records ever made for them, if and only if none of these was displaced; else it
      reports too few. */
  lemma SeriesIsTrueIff(c: Config, log: seq<Record>, source: Option<string>, lo: int, step: nat, n: nat, i: nat)
    requires c.Valid() && i < n && FewSources(c, log, lo + i * step, lo + (i + 1) * step)
    ensures var b := Series(c, Run(c, log), source, lo, step, n)[i];
            var truth := OfRecords(log, lo + i * step, lo + (i + 1) * step, source);
            && b.start == (lo + i * step) * BUCKET_NS
            && b.eventCount <= truth.count
            && (IsTrue(b, truth) <==> !LosesSome(c, log, lo + i * step, lo + (i + 1) * step, source))
            && (IsTrue(b, truth) <==> b.eventCount == truth.count)
  {
    hide Run, Seen, OfRecords, Carried, Span, WellFormed, Average, LosesSome;
    var from := lo + i * step;
    ProductOrder(i, n, step);
    assert from + step == lo + (i + 1) * step;
    SpanIsTrueIff(c, log, source, from, step);
    AverageFacts(Span(c, Run(c, log), source, from, step));
  }

  /** While no record was stale, nothing of the ring's window is displaced. */
  lemma WindowIsKept(c: Config, log: seq<Record>, lo: int, hi: int, source: Option<string>)
    requires c.Valid() && NoneStale(c, log) && lo > Newest(log) - c.capacity
    ensures !LosesSome(c, log, lo, hi, source)
  {
    hide Newest, NewestIn, ValidSource, SlotOf, BucketIndex;
    if LosesSome(c, log, lo, hi, source) {
      var n :| 0 <= n < |log| && Counts(log[n], lo, hi, source) && Displaced(c, log, n);
      var idx := BucketIndex(log[n].ts);
      var m :| n < m < |log| && Takes(c, log[m], idx);
      var other := BucketIndex(log[m].ts);
      RecordedBelowNewest(c, log[..m], n);
      RecordedBelowNewest(c, log, m);
      NewestInBelowNewest(c, log, SlotOf(c, other));
      if other > idx { SameSlotApart(c, idx, other); }
    }
  }

  lemma {:induction false} RecordedBelowNewest(c: Config, log: seq<Record>, n: nat)
    requires c.Valid() && n < |log| && ValidSource(log[n].source)
    ensures BucketIndex(log[n].ts) <= NewestIn(c, log, SlotOf(c, BucketIndex(log[n].ts)))
  {
    hide ValidSource, SlotOf, BucketIndex;
    if n < |log| - 1 { RecordedBelowNewest(c, log[..|log| - 1], n); }
  }

  /** So an output bucket whose minutes lie in the window and saw few sources is true. */
  lemma SeriesIsTrue(c: Config, log: seq<Record>, source: Option<string>, lo: int, step: nat, n: nat, i: nat)
    requires c.Valid() && NoneStale(c, log) && i < n
    requires lo + i * step > Newest(log) - c.capacity
    requires FewSources(c, log, lo + i * step, lo + (i + 1) * step)
    ensures IsTrue(Series(c, Run(c, log), source, lo, step, n)[i],
                   OfRecords(log, lo + i * step, lo + (i + 1) * step, source))
  {
    hide *;
    SeriesIsTrueIff(c, log, source, lo, step, n, i);
    WindowIsKept(c, log, lo + i * step, lo + (i + 1) * step, source);
  }

  // ---- which series fit the ring ---------------------------------------------------------------------------

  /** Every output bucket of the query is true. */
  ghost predicate AllTrue(c: Config, log: seq<Record>, source: Option<string>, layout: (int, nat, nat))
    requires c.Valid()
  {
    var (lo, step, n) := layout;
    forall i :: 0 <= i < n ==>
      IsTrue(Series(c, Run(c, log), source, lo, step, n)[i],
             OfRecords(log, lo + i * step, lo + (i + 1) * step, source))
  }

  /** No stale record, none from after the query, and few sources everywhere. */
  ghost predicate Orderly(c: Config, log: seq<Record>, now: nat)
    requires c.Valid()
  {
    && NoneStale(c, log) && Newest(log) <= BucketIndex(now)
    && forall idx :: |Seen(log, idx)| <= c.maxSources
  }

  /** Exactly which queries can be trusted: for every orderly log, at every time, the
      whole series is true, if and only if range and resolution together exceed the
      capacity by one minute at most, or the filter names no possible source. */
  lemma SeriesFitsIff(c: Config, range: int, resolution: int, source: Option<string>)
    requires c.Valid() && ValidQuery(range, resolution)
    ensures (forall log: seq<Record>, now: nat :: Orderly(c, log, now) ==>
               AllTrue(c, log, source, Layout(range, resolution, now)))
       <==> range + resolution <= (c.capacity + 1) * BUCKET_NS || (source.Some? && !ValidSource(source.value))
  {
    hide AllTrue, Orderly, Layout, ValidSource, BucketIndex;
    if source.Some? && !ValidSource(source.value) {
      forall log: seq<Record>, now: nat | Orderly(c, log, now)
        ensures AllTrue(c, log, source, Layout(range, resolution, now))
      {
        NoSuchSource(c, log, source, now, Layout(range, resolution, now));
      }
    } else if range + resolution <= (c.capacity + 1) * BUCKET_NS {
      forall log: seq<Record>, now: nat | Orderly(c, log, now)
        ensures AllTrue(c, log, source, Layout(range, resolution, now))
      {
        FittingSeriesIsTrue(c, range, resolution, source, log, now);
      }
    } else {
      LongSeriesFails(c, range, resolution, source);
    }
  }

  lemma NoSuchSource(c: Config, log: seq<Record>, source: Option<string>, now: nat, layout: (int, nat, nat))
    requires c.Valid() && source.Some? && !ValidSource(source.value) && Orderly(c, log, now)
    ensures AllTrue(c, log, source, layout)
  {
    hide Run, NoneStale, Newest, Seen, OfRecords, WellFormed, IsTrue, Series, ValidSource, Displaced;
    var (lo, step, n) := layout;
    forall i | 0 <= i < n
      ensures IsTrue(Series(c, Run(c, log), source, lo, step, n)[i],
                     OfRecords(log, lo + i * step, lo + (i + 1) * step, source))
    {
      SeriesIsTrueIff(c, log, source, lo, step, n, i);
    }
  }

  lemma FittingSeriesIsTrue(
    c: Config, range: int, resolution: int, source: Option<string>, log: seq<Record>, now: nat)
    requires c.Valid() && ValidQuery(range, resolution) && Orderly(c, log, now)
    requires range + resolution <= (c.capacity + 1) * BUCKET_NS
    ensures AllTrue(c, log, source, Layout(range, resolution, now))
  {
    hide Run, NoneStale, Newest, Seen, OfRecords, WellFormed, IsTrue, Layout, BucketIndex, Series;
    var (lo, step, n) := Layout(range, resolution, now);
    LayoutMinutes(range, resolution, now);
    LayoutIsAligned(range, resolution, now);
    forall i | 0 <= i < n
      ensures IsTrue(Series(c, Run(c, log), source, lo, step, n)[i],
                     OfRecords(log, lo + i * step, lo + (i + 1) * step, source))
    {
      ProductOrder(i, n, step);
      SeriesIsTrue(c, log, source, lo, step, n, i);
    }
  }

  lemma LayoutMinutes(range: int, resolution: int, now: nat)
    requires ValidQuery(range, resolution)
    ensures var (lo, step, n) := Layout(range, resolution, now);
            && step == resolution / BUCKET_NS && n == range / resolution
            && step * BUCKET_NS == resolution && (n * step) * BUCKET_NS == range
  {
    LayoutIsAligned(range, resolution, now);
    var step, n := resolution / BUCKET_NS, range / resolution;
    assert n * (step * BUCKET_NS) == (n * step) * BUCKET_NS;
  }

  /** One record for minute `idx`, and one for the next minute of its slot. */
  function Pair(c: Config, idx: nat, source: string, a: real, b: real): seq<Record> {
    [Record(idx * BUCKET_NS, a, None, source), Record((idx + c.capacity) * BUCKET_NS, b, None, source)]
  }

  lemma PairFacts(c: Config, idx: nat, source: string, a: real, b: real, lo: int, hi: int, only: Option<string>)
    requires c.Valid() && ValidSource(source) && lo <= idx < hi && (only.None? || only.value == source)
    ensures var log := Pair(c, idx, source, a, b);
            && Orderly(c, log, (idx + c.capacity) * BUCKET_NS)
            && LosesSome(c, log, lo, hi, only)
            && (hi <= idx + c.capacity ==> OfRecords(log, lo, hi, only).count == 1)
  {
    hide ValidSource, SlotOf;
    var log := Pair(c, idx, source, a, b);
    assert BucketIndex(log[0].ts) == idx && BucketIndex(log[1].ts) == idx + c.capacity;
    hide BucketIndex;
    assert log[..0] == [] && log[..1] == [log[0]] && [log[0]][..0] == [];
    NextTurn(c, idx);
    PairIsOrderly(c, log, idx);
    assert Takes(c, log[1], idx);
    assert Displaced(c, log, 0);
    assert Counts(log[0], lo, hi, only);
    if hi <= idx + c.capacity {
      assert OfRecords([log[0]], lo, hi, only).count == 1;
    }
  }

  lemma NextTurn(c: Config, idx: nat)
    requires c.Valid()
    ensures SlotOf(c, idx + c.capacity) == SlotOf(c, idx)
  {
    OnePeriod(idx, c.capacity);
  }

  lemma PairIsOrderly(c: Config, log: seq<Record>, idx: nat)
    requires c.Valid() && |log| == 2 && log[0].source == log[1].source && ValidSource(log[0].source)
    requires BucketIndex(log[0].ts) == idx && BucketIndex(log[1].ts) == idx + c.capacity
    ensures NoneStale(c, log) && Newest(log) == idx + c.capacity
    ensures forall i :: |Seen(log, i)| <= c.maxSources
  {
    hide BucketIndex, ValidSource, SlotOf;
    assert log[..0] == [] && log[..1] == [log[0]] && [log[0]][..0] == [];
    forall n | 0 <= n < 2 && ValidSource(log[n].source)
      ensures BucketIndex(log[n].ts) >= NewestIn(c, log[..n], SlotOf(c, BucketIndex(log[n].ts)))
    {
      if n == 0 { assert log[..n] == []; } else { assert log[..n] == [log[0]]; }
    }
    forall i
      ensures |Seen(log, i)| <= c.maxSources
    {
      assert Seen([log[0]], i) <= {log[0].source};
      assert Seen(log, i) <= {log[0].source};
      FewerSources(Seen(log, i), {log[0].source});
    }
  }

  /** The later record of the pair takes the slot: of the earlier one, nothing is left. */
  lemma PairIsLost(
    c: Config, idx: nat, source: string, a: real, b: real, only: Option<string>, lo: int, step: nat, n: nat)
    requires c.Valid() && ValidSource(source) && lo <= idx < lo + step && n >= 1
    requires only.None? || only.value == source
    ensures var log := Pair(c, idx, source, a, b);
            && Orderly(c, log, (idx + c.capacity) * BUCKET_NS)
            && !AllTrue(c, log, only, (lo, step, n))
            && (lo + step <= idx + c.capacity ==>
                  && Series(c, Run(c, log), only, lo, step, n)[0].eventCount == 0
                  && OfRecords(log, lo, lo + step, only).count == 1)
  {
    hide Run, NoneStale, Newest, Seen, OfRecords, WellFormed, IsTrue, BucketIndex, Series, LosesSome, Pair, ValidSource;
    var log := Pair(c, idx, source, a, b);
    PairFacts(c, idx, source, a, b, lo, lo + step, only);
    SeriesIsTrueIff(c, log, only, lo, step, n, 0);
    assert lo + 0 * step == lo && lo + (0 + 1) * step == lo + step;
  }

  /** At the worst moment the current output bucket lacks just its last minute, and the
      series starts with minute 0. */
  lemma WorstLayout(range: int, resolution: int)
    requires ValidQuery(range, resolution)
    ensures var step, n := resolution / BUCKET_NS, range / resolution;
            var minute := (n + 1) * step - 2;
            minute >= 0 && Layout(range, resolution, minute * BUCKET_NS) == (0, step, n)
  {
    var step, n := resolution / BUCKET_NS, range / resolution;
    LayoutMinutes(range, resolution, 0);
    ProductOrder(n, n + 1, step);
    ProductOrder(0, n, step);
    var minute: nat := (n + 1) * step - 2;
    assert BucketIndex(minute * BUCKET_NS) == minute;
    assert minute + 1 == n * step + (step - 1);
    Remainder(minute + 1, step, n, step - 1);
    QuotientIs(minute + 1, step, n, step - 1);
  }

  lemma QuotientIs(x: nat, n: nat, q: nat, r: nat)
    requires r < n && x == q * n + r
    ensures x / n == q
  {
    Remainder(x, n, q, r);
    assert x == (x / n) * n + x % n;
    assert (x / n) * n == q * n + (x / n - q) * n;
    TimesSize(x / n - q, n);
  }

  lemma LongSeriesFails(c: Config, range: int, resolution: int, source: Option<string>)
    requires c.Valid() && ValidQuery(range, resolution) && (source.Some? ==> ValidSource(source.value))
    requires range + resolution > (c.capacity + 1) * BUCKET_NS
    ensures exists log: seq<Record>, now: nat ::
              Orderly(c, log, now) && !AllTrue(c, log, source, Layout(range, resolution, now))
  {
    hide AllTrue, ValidSource, Layout, BucketIndex, NoneStale, Newest, Seen, Pair;
    var step, n := resolution / BUCKET_NS, range / resolution;
    LayoutMinutes(range, resolution, 0);
    WorstLayout(range, resolution);
    ProductOrder(n, n + 1, step);
    var minute: nat := (n + 1) * step - 2;
    var now := minute * BUCKET_NS;
    assert minute >= c.capacity;
    var name := if source.Some? then source.value else "a";
    AName();
    var log := Pair(c, 0, name, 0.0, 0.0);
    PairIsLost(c, 0, name, 0.0, 0.0, source, 0, step, n);
    MinuteOf(minute);
    MinuteOf(0 + c.capacity);
    assert Orderly(c, log, now);
  }

  lemma AName()
    ensures ValidSource("a")
  {
  }

  lemma MinuteOf(idx: nat)
    ensures BucketIndex(idx * BUCKET_NS) == idx
  {
  }

  /** If the range alone fits, only the oldest output bucket can reach behind the ring. */
  lemma OnlyTheOldestIsCut(c: Config, range: int, resolution: int, now: nat, i: nat)
    requires c.Valid() && ValidQuery(range, resolution) && range <= c.capacity * BUCKET_NS && i >= 1
    ensures var (lo, step, n) := Layout(range, resolution, now);
            lo + i * step > BucketIndex(now) - c.capacity
  {
    LayoutIsAligned(range, resolution, now);
    LayoutMinutes(range, resolution, now);
    var (lo, step, n) := Layout(range, resolution, now);
    ProductOrder(0, i, step);
    hide BucketIndex, Layout;
  }

  const WEEK := 10080

  /** With room for a week of minutes, a week by the hour has lost the first minute of its
      oldest hour as soon as the current hour has a record in its own first minute. */
  lemma WeekLosesItsOldestMinute(maxSources: nat, source: string, a: real, b: real)
    requires maxSources >= 1 && ValidSource(source)
    ensures var c := Config(WEEK, maxSources);
            var log, now := Pair(c, 0, source, a, b), WEEK * BUCKET_NS;
            var range, resolution := WEEK * BUCKET_NS, 60 * BUCKET_NS;
            && ValidQuery(range, resolution) && Orderly(c, log, now)
            && Layout(range, resolution, now) == (0, 60, 168)
            && Series(c, Run(c, log), None, 0, 60, 168)[0].eventCount == 0
            && OfRecords(log, 0, 60, None).count == 1
  {
    hide Run, Series, OfRecords, Orderly, AllTrue, ValidSource, Pair, Layout, ValidQuery;
    WeekLayout();
    PairIsLost(Config(WEEK, maxSources), 0, source, a, b, None, 0, 60, 168);
  }

  lemma WeekLayout()
    ensures ValidQuery(WEEK * BUCKET_NS, 60 * BUCKET_NS)
    ensures Layout(WEEK * BUCKET_NS, 60 * BUCKET_NS, WEEK * BUCKET_NS) == (0, 60, 168)
  {
  }

  /** A record from the future does the same to any query: with a ring of any size, the
      minute that the query is made in has a record, and is reported empty. */
  lemma FutureRecordOverwrites(c: Config, idx: nat, source: string, a: real, b: real)
    requires c.Valid() && ValidSource(source)
    ensures var log, now := Pair(c, idx, source, a, b), idx * BUCKET_NS;
            && ValidQuery(BUCKET_NS, BUCKET_NS) && NoneStale(c, log)
            && BUCKET_NS + BUCKET_NS <= (c.capacity + 1) * BUCKET_NS
            && Layout(BUCKET_NS, BUCKET_NS, now) == (idx, 1, 1)
            && Series(c, Run(c, log), None, idx, 1, 1)[0].eventCount == 0
            && OfRecords(log, idx, idx + 1, None).count == 1
  {
    hide Run, Series, OfRecords, NoneStale, Newest, Seen, AllTrue, ValidSource, Pair;
    PairIsLost(c, idx, source, a, b, None, idx, 1, 1);
    MinuteOf(idx);
  }

  lemma ProductOrder(i: nat, n: nat, step: nat)
    requires i < n
    ensures 0 <= i * step && (i + 1) * step == i * step + step && (i + 1) * step <= n * step
  {
    assert n * step == (i + 1) * step + (n - i - 1) * step;
  }

  // ---- downsampling ------------------------------------------------------------------------------------

  lemma {:induction false} SpanSplit(c: Config, slots: Slots, source: Option<string>, lo: int, m: nat, n: nat)
    requires c.Valid() && WellFormed(c, slots)
    ensures Span(c, slots, source, lo, m + n) == Plus(Span(c, slots, source, lo, m), Span(c, slots, source, lo + m, n))
  {
    if n == 0 {
      PlusLaws(Span(c, slots, source, lo, m), NOTHING, NOTHING);
    } else {
      SpanSplit(c, slots, source, lo, m, n - 1);
      var last := OfBucket(Cell(c, slots, lo + m + n - 1), source);
      PlusLaws(Span(c, slots, source, lo, m), Span(c, slots, source, lo + m, n - 1), last);
      hide Plus, OfBucket, Cell;
    }
  }

  /** The event count, score sum and maximum a list of output buckets stands for. */
  function Folded(buckets: seq<TimelineBucket>): Totals {
    if buckets == [] then NOTHING
    else Plus(Folded(buckets[..|buckets| - 1]), Share(buckets[|buckets| - 1]))
  }

  lemma {:induction false} EmptySpanSum(c: Config, slots: Slots, source: Option<string>, lo: int, n: nat)
    requires c.Valid() && WellFormed(c, slots)
    requires forall j :: lo <= j < lo + n ==>
               (OfBucket(Cell(c, slots, j), source).count == 0 ==> OfBucket(Cell(c, slots, j), source).sum == 0.0)
    ensures Span(c, slots, source, lo, n).count == 0 ==> Span(c, slots, source, lo, n).sum == 0.0
  {
    if n > 0 { EmptySpanSum(c, slots, source, lo, n - 1); }
    hide OfBucket, Cell;
  }

  /** Buckets that hold a source hold at least one score of it. */
  ghost predicate Scored(slots: Slots) {
    forall s, k :: 0 <= s < |slots| && slots[s].Some? && k in slots[s].value.sources.vals ==>
      slots[s].value.sources.vals[k].count > 0
  }

  lemma {:induction false} RunIsScored(c: Config, log: seq<Record>)
    requires c.Valid()
    ensures Scored(Run(c, log))
  {
    if log != [] {
      var r := log[|log| - 1];
      var slots := Run(c, log[..|log| - 1]);
      RunIsScored(c, log[..|log| - 1]);
      var t := RecordScore(c, slots, r);
      forall s, k | 0 <= s < |t| && t[s].Some? && k in t[s].value.sources.vals
        ensures t[s].value.sources.vals[k].count > 0
      {
        RecordedSlot(c, slots, r, s);
        var fits := slots[s].Some? && slots[s].value.start == BucketIndex(r.ts) * BUCKET_NS;
        var sources := if fits then slots[s].value.sources else NO_SOURCES;
        if k in AddSource(c, sources, r).vals { AddSourceWithin(c, sources, r, k); }
        hide AddSource, RecordScore, Dict.Valid, ValidSource, SlotOf;
      }
      hide RecordScore;
    }
  }

  lemma {:induction false} ScoredKeys(keys: seq<string>, vals: map<string, SourceBucket>)
    requires forall k :: k in vals ==> vals[k].count > 0
    ensures OfKeys(keys, vals).count == 0 ==> OfKeys(keys, vals).sum == 0.0
  {
    if keys != [] { ScoredKeys(keys[..|keys| - 1], vals); }
  }

  lemma SpanSum(c: Config, slots: Slots, source: Option<string>, lo: int, n: nat)
    requires c.Valid() && WellFormed(c, slots) && Scored(slots)
    ensures Span(c, slots, source, lo, n).count == 0 ==> Span(c, slots, source, lo, n).sum == 0.0
  {
    forall j | lo <= j < lo + n
      ensures OfBucket(Cell(c, slots, j), source).count == 0 ==> OfBucket(Cell(c, slots, j), source).sum == 0.0
    {
      var d := Cell(c, slots, j);
      ScoredKeys(d.keys, d.vals);
    }
    EmptySpanSum(c, slots, source, lo, n);
    hide Span, OfBucket, Cell;
  }

  /** What one output bucket contributes to a fold. */
  function Share(b: TimelineBucket): Totals {
    Totals(b.eventCount, if b.avgScore.Some? then b.avgScore.value * b.eventCount as real else 0.0, b.maxScore, None)
  }

  lemma ShareIsSpan(c: Config, slots: Slots, source: Option<string>, lo: int, step: nat, i: nat)
    requires c.Valid() && WellFormed(c, slots) && Scored(slots)
    ensures Share(OutBucket(c, slots, source, lo, step, i)) == Scores(Span(c, slots, source, lo + i * step, step))
  {
    hide Span, Carried, Scored, WellFormed, Average;
    var t := Span(c, slots, source, lo + i * step, step);
    SpanSum(c, slots, source, lo + i * step, step);
    AverageFacts(t);
  }

  lemma EmptyScores(c: Config, slots: Slots, source: Option<string>, lo: int)
    requires c.Valid() && WellFormed(c, slots)
    ensures Scores(Span(c, slots, source, lo, 0)) == NOTHING
  {
  }

  lemma {:induction false} FoldedIsSpan(c: Config, slots: Slots, source: Option<string>, lo: int, step: nat, n: nat)
    requires c.Valid() && WellFormed(c, slots) && Scored(slots)
    ensures Folded(Series(c, slots, source, lo, step, n)) == Scores(Span(c, slots, source, lo, n * step))
  {
    hide Plus, Carried, Scored, WellFormed, OutBucket, Share, Span, Scores;
    if n == 0 {
      EmptyScores(c, slots, source, lo);
    } else {
      var all := Series(c, slots, source, lo, step, n);
      assert all[..n - 1] == Series(c, slots, source, lo, step, n - 1);
      FoldedIsSpan(c, slots, source, lo, step, n - 1);
      ProductOrder(n - 1, n, step);
      SpanSplit(c, slots, source, lo, (n - 1) * step, step);
      ScoresOfPlus(Span(c, slots, source, lo, (n - 1) * step), Span(c, slots, source, lo + (n - 1) * step, step));
      ShareIsSpan(c, slots, source, lo, step, n - 1);
    }
  }

  /** Downsampling is a homomorphism: each coarse bucket has the count, sum and maximum
      of its fine buckets, so nothing is counted twice or lost over the whole series. */
  lemma DownsamplingFolds(c: Config, log: seq<Record>, source: Option<string>, lo: int, step: nat, n: nat, i: nat)
    requires c.Valid() && i < n
    ensures var coarse := Series(c, Run(c, log), source, lo, step, n);
            var fine := Series(c, Run(c, log), source, lo, 1, n * step);
            && i * step <= (i + 1) * step <= |fine|
            && Folded([coarse[i]]) == Folded(fine[i * step..(i + 1) * step])
            && Folded(coarse) == Folded(fine)
  {
    hide Run, Span, OutBucket, Folded, Scored, WellFormed, Scores;
    var slots := Run(c, log);
    RunIsScored(c, log);
    ProductOrder(i, n, step);
    var coarse := Series(c, slots, source, lo, step, n);
    var from := lo + i * step;
    SliceOfFine(c, slots, source, lo, i * step, step, n * step);
    FoldedIsSpan(c, slots, source, from, 1, step);
    FoldedIsSpan(c, slots, source, lo, step, n);
    FoldedIsSpan(c, slots, source, lo, 1, n * step);
    ShareIsSpan(c, slots, source, lo, step, i);
    FoldedOne(coarse[i]);
  }

  lemma FoldedOne(b: TimelineBucket)
    ensures Folded([b]) == Share(b)
  {
    assert [b][..0] == [];
    PlusLaws(Share(b), NOTHING, NOTHING);
    hide Plus;
  }

  /** The thresholds of fine buckets depend on what precedes them; the folded scores do not. */
  lemma SliceOfFine(c: Config, slots: Slots, source: Option<string>, lo: int, k: nat, m: nat, total: nat)
    requires c.Valid() && WellFormed(c, slots) && k + m <= total
    ensures Folded(Series(c, slots, source, lo, 1, total)[k..k + m]) == Folded(Series(c, slots, source, lo + k, 1, m))
  {
    var a, b := Series(c, slots, source, lo, 1, total)[k..k + m], Series(c, slots, source, lo + k, 1, m);
    forall j | 0 <= j < m
      ensures a[j].eventCount == b[j].eventCount && a[j].avgScore == b[j].avgScore && a[j].maxScore == b[j].maxScore
    {
      assert lo + (k + j) * 1 == lo + k + j * 1;
    }
    FoldedAgree(a, b);
  }

  lemma {:induction false} FoldedAgree(a: seq<TimelineBucket>, b: seq<TimelineBucket>)
    requires |a| == |b|
    requires forall j :: 0 <= j < |a| ==>
      a[j].eventCount == b[j].eventCount && a[j].avgScore == b[j].avgScore && a[j].maxScore == b[j].maxScore
    ensures Folded(a) == Folded(b)
  {
    if a != [] { FoldedAgree(a[..|a| - 1], b[..|b| - 1]); }
  }

  /** The threshold of a bucket is that of the latest one at or before it with any
      candidate, and none if there is no such bucket. */
  lemma {:induction false} ThresholdIsLatest(
    c: Config, slots: Slots, source: Option<string>, lo: int, step: nat, i: nat, k: nat)
    requires c.Valid() && WellFormed(c, slots) && k <= i
    requires forall j :: k < j <= i ==> Span(c, slots, source, lo + j * step, step).threshold == None
    ensures var own := Span(c, slots, source, lo + k * step, step).threshold;
            && (own.Some? ==> Carried(c, slots, source, lo, step, i) == own)
            && (own.None? && k == 0 ==> Carried(c, slots, source, lo, step, i) == None)
  {
    hide Span;
    if k < i { ThresholdIsLatest(c, slots, source, lo, step, i - 1, k); }
  }

  lemma OutBucketNext(
    c: Config, slots: Slots, source: Option<string>, lo: int, step: nat, i: nat, carried: Option<real>)
    requires c.Valid() && WellFormed(c, slots)
    requires carried == if i == 0 then None else Carried(c, slots, source, lo, step, i - 1)
    ensures var t := Span(c, slots, source, lo + i * step, step);
            var threshold := if t.threshold.Some? then t.threshold else carried;
            && Carried(c, slots, source, lo, step, i) == threshold
            && OutBucket(c, slots, source, lo, step, i)
               == TimelineBucket((lo + i * step) * BUCKET_NS, t.max, Average(t), t.count, threshold, 0)
  {
    hide Span, Average;
  }

  // ---- the ring itself -----------------------------------------------------------------------------------

  class AnomalyTimelineRing {
    const capacity: nat
    const maxSources: nat
    const buckets: array<Option<BaseBucket>>

    function Settings(): Config { Config(capacity, maxSources) }

    ghost predicate Usable()
      reads this, buckets
    {
      Settings().Valid() && WellFormed(Settings(), buckets[..])
    }

    constructor (capacity: nat, maxSources: nat)
      requires capacity >= 1 && maxSources >= 1
      ensures Usable() && buckets[..] == Run(Config(capacity, maxSources), [])
      ensures Settings() == Config(capacity, maxSources) && fresh(buckets)
    {
      this.capacity, this.maxSources := capacity, maxSources;
      buckets := new Option<BaseBucket>[capacity](i => None);
      new;
      assert buckets[..] == Run(Config(capacity, maxSources), []);
    }

    method Score(r: Record)
      requires Usable()
      modifies buckets
      ensures Usable() && buckets[..] == RecordScore(Settings(), old(buckets[..]), r)
    {
      if !ValidSource(r.source) { return; }
      var idx := BucketIndex(r.ts);
      var slot := idx % capacity;
      var existing := buckets[slot];
      var start := idx * BUCKET_NS;
      if existing.None? || existing.value.start != start {
        existing := Some(BaseBucket(start, NO_SOURCES));
      }
      var sources := Merged(existing.value.sources, r);
      buckets[slot] := Some(BaseBucket(start, sources));
      assert buckets[..] == old(buckets[..])[slot := Some(BaseBucket(start, sources))];
    }

    /** The source's place in the order and its aggregates, updated one by one. */
    method Merged(held: Dict<string, SourceBucket>, r: Record) returns (sources: Dict<string, SourceBucket>)
      requires held.Valid() && Settings().Valid()
      ensures sources.Valid() && sources == AddSource(Settings(), held, r)
    {
      hide Dict.Valid, RemoveKey;
      sources := held;
      if !sources.Has(r.source) {
        if |sources.keys| >= maxSources { sources := sources.Remove(sources.keys[0]); }
        sources := sources.Put(r.source, NO_SCORES);
      } else {
        sources := sources.ToEnd(r.source);
      }
      var sb := sources.vals[r.source];
      sb := sb.(count := sb.count + 1, sum := sb.sum + r.score);
      if r.score > sb.max { sb := sb.(max := r.score); }
      if r.threshold.Some? { sb := sb.(threshold := r.threshold); }
      sources := sources.Put(r.source, sb);
    }

    /** None stands for the ValueError of a range or resolution that is no multiple. */
    method Query(range: int, resolution: int, source: Option<string>, now: nat)
      returns (out: Option<seq<TimelineBucket>>)
      requires Usable()
      ensures out.None? <==> !ValidQuery(range, resolution)
      ensures out.Some? ==>
        var (lo, step, n) := Layout(range, resolution, now);
        out.value == Series(Settings(), buckets[..], source, lo, step, n)
    {
      hide WellFormed, Span, Carried, OutBucket, Average;
      if resolution < BUCKET_NS || resolution % BUCKET_NS != 0 { return None; }
      if range < resolution || range % resolution != 0 { return None; }
      ghost var c, slots := Settings(), buckets[..];
      var (lo, step, n) := Layout(range, resolution, now);
      hide Layout;
      var series: seq<TimelineBucket> := [];
      var carried: Option<real> := None;
      for i := 0 to n
        invariant series == Series(c, slots, source, lo, step, n)[..i]
        invariant carried == if i == 0 then None else Carried(c, slots, source, lo, step, i - 1)
      {
        var t := Total(source, lo + i * step, step);
        OutBucketNext(c, slots, source, lo, step, i, carried);
        if t.threshold.Some? { carried := t.threshold; }
        series := series + [TimelineBucket((lo + i * step) * BUCKET_NS, t.max, Average(t), t.count, carried, 0)];
      }
      out := Some(series);
    }

    /** The inner loops: all sources asked for, minute by minute. */
    method Total(source: Option<string>, from: int, step: nat) returns (t: Totals)
      requires Usable()
      ensures t == Span(Settings(), buckets[..], source, from, step)
    {
      hide WellFormed, OfBucket, Cell, Plus;
      t := NOTHING;
      for j := 0 to step
        invariant t == Span(Settings(), buckets[..], source, from, j)
      {
        var d := Minute(from + j);
        t := Plus(t, OfBucket(d, source));
      }
    }

    method Minute(idx: int) returns (d: Dict<string, SourceBucket>)
      requires Usable()
      ensures d == Cell(Settings(), buckets[..], idx)
    {
      if idx < 0 { return NO_SOURCES; }
      var b := buckets[idx % capacity];
      if b.None? || b.value.start != idx * BUCKET_NS { return NO_SOURCES; }
      d := b.value.sources;
    }
  }
}
