/** frontend/src/stores/events.ts: the live event list of the dashboard, newest first,
    with a pause that buffers what arrives meanwhile. */
module EventStores {

  const MAX_EVENTS := 1000
  const MAX_PAUSED_BUFFER := 5000

  datatype LiveEvent = LiveEvent(id: string, source: string)

  datatype State = State(
    events: seq<LiveEvent>,
    pausedBuffer: seq<LiveEvent>,
    paused: bool,
    known: set<string>,
    droppedFromRing: nat,
    droppedFromPausedBuffer: nat)

  const EMPTY := State([], [], false, {}, 0, 0)

  function Reversed<T>(s: seq<T>): (r: seq<T>)
    ensures |r| == |s|
  {
    if s == [] then [] else Reversed(s[1..]) + [s[0]]
  }

  /** The first `n` entries: `slice(0, n)`. */
  function FirstN<T>(s: seq<T>, n: nat): (r: seq<T>)
    ensures |r| == if |s| < n then |s| else n
  {
    if |s| <= n then s else s[..n]
  }

  function Overflow(length: nat, max: nat): nat {
    if length > max then length - max else 0
  }

  function Sources(batch: seq<LiveEvent>): set<string> {
    set e | e in batch :: e.source
  }

  datatype Op = Ingest(batch: seq<LiveEvent>) | Backfill(batch: seq<LiveEvent>) | Pause | Resume

  function PutInFront(s: State, batch: seq<LiveEvent>): State {
    s.(events := FirstN(batch + s.events, MAX_EVENTS),
       droppedFromRing := s.droppedFromRing + Overflow(|batch + s.events|, MAX_EVENTS))
  }

  function Hold(s: State, batch: seq<LiveEvent>): State {
    s.(pausedBuffer := FirstN(batch + s.pausedBuffer, MAX_PAUSED_BUFFER),
       droppedFromPausedBuffer := s.droppedFromPausedBuffer + Overflow(|batch + s.pausedBuffer|, MAX_PAUSED_BUFFER))
  }

  function Step(s: State, op: Op): State {
    match op
    case Ingest(batch) =>
      var t := s.(known := s.known + Sources(batch));
      if s.paused then Hold(t, Reversed(batch)) else PutInFront(t, Reversed(batch))
    case Backfill(batch) => PutInFront(s.(known := s.known + Sources(batch)), batch)
    case Pause => s.(paused := true)
    case Resume => PutInFront(s, s.pausedBuffer).(pausedBuffer := [], paused := false)
  }

  function Run(ops: seq<Op>): State {
    if ops == [] then EMPTY else Step(Run(ops[..|ops| - 1]), ops[|ops| - 1])
  }

  // ---- conservation ---------------------------------------------------------------------------

  function Received(ops: seq<Op>): nat {
    if ops == [] then 0
    else
      var op := ops[|ops| - 1];
      Received(ops[..|ops| - 1]) + if op.Ingest? || op.Backfill? then |op.batch| else 0
  }

  /** Every event received is shown, buffered, or counted as dropped by one of the two
      counters; and both lists stay within their caps. */
  lemma {:induction false} NothingVanishes(ops: seq<Op>)
    ensures var s := Run(ops);
            && |s.events| + |s.pausedBuffer| + s.droppedFromRing + s.droppedFromPausedBuffer == Received(ops)
            && |s.events| <= 1000 && |s.pausedBuffer| <= 5000
            && (!s.paused ==> s.pausedBuffer == [])
  {
    if ops != [] {
      NothingVanishes(ops[..|ops| - 1]);
    }
  }

  /** The list is paused exactly since a pause that no resume followed. */
  lemma {:induction false} PausedIff(ops: seq<Op>)
    ensures Run(ops).paused <==> exists i :: 0 <= i < |ops| && ops[i].Pause? && NoResume(ops, i)
  {
    hide Reversed, FirstN, Sources, Overflow;
    if ops != [] {
      var n := |ops| - 1;
      PausedIff(ops[..n]);
      if i :| 0 <= i < n && ops[..n][i].Pause? && NoResume(ops[..n], i) && !ops[n].Resume? {
        assert ops[i].Pause? && NoResume(ops, i);
      }
      if i :| 0 <= i < n && ops[i].Pause? && NoResume(ops, i) {
        assert ops[..n][i].Pause? && NoResume(ops[..n], i);
      }
      if ops[n].Pause? { assert NoResume(ops, n); }
    }
  }

  predicate NoResume(ops: seq<Op>, i: nat) {
    forall j :: i < j < |ops| ==> !ops[j].Resume?
  }

  lemma {:induction false} KnownAreAllSources(ops: seq<Op>, source: string)
    ensures source in Run(ops).known
       <==> exists i, e :: 0 <= i < |ops| && (ops[i].Ingest? || ops[i].Backfill?) && e in ops[i].batch
                           && e.source == source
  {
    hide Reversed, FirstN, Overflow;
    if ops != [] {
      var init := ops[..|ops| - 1];
      KnownAreAllSources(init, source);
      forall i | 0 <= i < |init|
        ensures init[i] == ops[i]
      {
      }
    }
  }

  // ---- newest first -----------------------------------------------------------------------------

  lemma {:induction false} ReversedAt<T>(s: seq<T>, k: nat)
    requires k < |s|
    ensures Reversed(s)[k] == s[|s| - 1 - k]
  {
    if k < |s| - 1 { ReversedAt(s[1..], k); }
  }

  /** The ingested events numbered by arrival: batch after batch, each as it came. */
  function Arrivals(ops: seq<Op>): seq<LiveEvent> {
    if ops == [] then []
    else Arrivals(ops[..|ops| - 1]) + if ops[|ops| - 1].Ingest? then ops[|ops| - 1].batch else []
  }

  lemma {:induction false} FeedIsArrivals(ops: seq<Op>, k: nat)
    requires forall i :: 0 <= i < |ops| ==> !ops[i].Backfill?
    ensures |Feed(ops)| == |Arrivals(ops)|
    ensures k < |Feed(ops)| ==> Feed(ops)[k] == Arrivals(ops)[|Arrivals(ops)| - 1 - k]
  {
    hide Reversed;
    if ops != [] {
      var init, op := ops[..|ops| - 1], ops[|ops| - 1];
      FeedIsArrivals(init, k);
      if op.Ingest? {
        if k < |op.batch| {
          ReversedAt(op.batch, k);
        } else {
          FeedIsArrivals(init, k - |op.batch|);
        }
      }
    }
  }

  /** Newest first: whenever nothing is paused, wherever it was paused before, the list
      shows the ingested events in strictly descending order of their arrival, from the
      last one down to the oldest the cap has room for. */
  lemma ListIsNewestFirst(ops: seq<Op>, k: nat)
    requires (forall i :: 0 <= i < |ops| ==> !ops[i].Backfill?) && !Run(ops).paused
    ensures var all, shown := Arrivals(ops), Run(ops).events;
            && |shown| == (if |all| <= 1000 then |all| else 1000)
            && (k < |shown| ==> shown[k] == all[|all| - 1 - k])
  {
    hide Run, Feed, Arrivals;
    PausingIsTransparent(ops);
    FeedIsArrivals(ops, k);
  }

  /** During a pause, a batch arrives in the same way on top of what is held back. */
  lemma BatchIsHeld(s: State, batch: seq<LiveEvent>, k: nat)
    requires s.paused
    ensures var held := Step(s, Ingest(batch)).pausedBuffer;
            && |held| == (if |batch| + |s.pausedBuffer| <= 5000 then |batch| + |s.pausedBuffer| else 5000)
            && (k < |held| ==> held[k] == if k < |batch| then batch[|batch| - 1 - k] else s.pausedBuffer[k - |batch|])
  {
    if k < |batch| { ReversedAt(batch, k); }
    hide Reversed;
  }

  /** A batch arrives on top: an ingested one turned around, a backfilled one as it is;
      below it, or below its part that fits, the list stays as it was. */
  lemma BatchOnTop(s: State, batch: seq<LiveEvent>, k: nat)
    requires !s.paused
    ensures var shown := Step(s, Ingest(batch)).events;
            k < |shown| ==> shown[k] == if k < |batch| then batch[|batch| - 1 - k] else s.events[k - |batch|]
    ensures var shown := Step(s, Backfill(batch)).events;
            k < |shown| ==> shown[k] == if k < |batch| then batch[k] else s.events[k - |batch|]
  {
    if k < |batch| { ReversedAt(batch, k); }
    hide Reversed;
  }

  // ---- pausing is transparent -----------------------------------------------------------------------

  /** Everything received, newest first, as if nothing had ever been paused or cut. */
  function Feed(ops: seq<Op>): seq<LiveEvent> {
    if ops == [] then []
    else
      var before, op := Feed(ops[..|ops| - 1]), ops[|ops| - 1];
      match op
      case Ingest(batch) => Reversed(batch) + before
      case Backfill(batch) => batch + before
      case _ => before
  }

  /** No backfilled event arrives while ingested events are held back. */
  predicate BackfillsFirst(ops: seq<Op>) {
    forall i :: 0 <= i < |ops| && ops[i].Backfill? && ops[i].batch != [] ==> Run(ops[..i]).pausedBuffer == []
  }

  lemma CutTwice<T>(a: seq<T>, b: seq<T>, n: nat)
    ensures FirstN(a + FirstN(b, n), n) == FirstN(a + b, n)
  {
    if |b| > n {
      assert a + b == a + b[..n] + b[n..];
    }
  }

  lemma CutFront<T>(a: seq<T>, b: seq<T>, n: nat, m: nat)
    requires n <= m
    ensures FirstN(FirstN(a, m) + b, n) == FirstN(a + b, n)
  {
  }

  lemma Associate<T>(a: seq<T>, b: seq<T>, c: seq<T>)
    ensures a + b + c == a + (b + c)
  {
  }

  /** What is held back in front of what is shown is always the newest part of the feed. */
  lemma {:induction false} HeldAndShown(ops: seq<Op>)
    requires BackfillsFirst(ops)
    ensures FirstN(Run(ops).pausedBuffer + Run(ops).events, MAX_EVENTS) == FirstN(Feed(ops), MAX_EVENTS)
  {
    if ops != [] {
      var n := |ops| - 1;
      var init, op := ops[..n], ops[n];
      var s := Run(init);
      assert BackfillsFirst(init) by {
        forall i | 0 <= i < n
          ensures init[..i] == ops[..i]
        {
        }
      }
      hide FirstN, Reversed, Sources, Overflow;
      HeldAndShown(init);
      NothingVanishes(init);
      var held := s.pausedBuffer + s.events;
      match op
      case Ingest(batch) =>
        InFront(Reversed(batch), held, Feed(init));
        if s.paused {
          CutFront(Reversed(batch) + s.pausedBuffer, s.events, MAX_EVENTS, MAX_PAUSED_BUFFER);
          Associate(Reversed(batch), s.pausedBuffer, s.events);
        } else {
          ShownOnly(Reversed(batch), s.events);
        }
      case Backfill(batch) =>
        assert ops[n].Backfill? && ops[..n] == init;
        if batch == [] {
          EmptyBackfill(s, batch);
          assert [] + Feed(init) == Feed(init);
        } else {
          InFront(batch, held, Feed(init));
          ShownOnly(batch, s.events);
        }
      case Resume => ShownOnly(s.pausedBuffer, s.events);
      case Pause =>
    }
  }

  lemma EmptyBackfill(s: State, batch: seq<LiveEvent>)
    requires batch == [] && |s.events| <= MAX_EVENTS
    ensures PutInFront(s, batch).events == s.events
  {
    assert batch + s.events == s.events;
  }

  lemma InFront<T>(batch: seq<T>, a: seq<T>, b: seq<T>)
    requires FirstN(a, MAX_EVENTS) == FirstN(b, MAX_EVENTS)
    ensures FirstN(batch + a, MAX_EVENTS) == FirstN(batch + b, MAX_EVENTS)
  {
    CutTwice(batch, a, MAX_EVENTS);
    CutTwice(batch, b, MAX_EVENTS);
  }

  lemma ShownOnly<T>(batch: seq<T>, events: seq<T>)
    ensures FirstN([] + FirstN(batch + events, MAX_EVENTS), MAX_EVENTS) == FirstN(batch + events, MAX_EVENTS)
    ensures [] + events == events
  {
    assert [] + FirstN(batch + events, MAX_EVENTS) == FirstN(batch + events, MAX_EVENTS);
  }

  /** Pausing leaves no trace: whenever nothing is paused, the list shows exactly the
      newest `MAX_EVENTS` events received, wherever and however long it was paused
      before, even if the paused buffer overflowed. */
  lemma PausingIsTransparent(ops: seq<Op>)
    requires BackfillsFirst(ops) && !Run(ops).paused
    ensures Run(ops).events == FirstN(Feed(ops), MAX_EVENTS)
  {
    HeldAndShown(ops);
    NothingVanishes(ops);
    assert [] + Run(ops).events == Run(ops).events;
    hide Run, Feed;
  }

  /** In particular a run shows what the same run without pausing shows. */
  function Unpaused(ops: seq<Op>): seq<Op> {
    if ops == [] then []
    else
      var before, op := Unpaused(ops[..|ops| - 1]), ops[|ops| - 1];
      if op.Pause? || op.Resume? then before else before + [op]
  }

  lemma {:induction false} UnpausedFeed(ops: seq<Op>)
    ensures Feed(Unpaused(ops)) == Feed(ops)
    ensures forall i :: 0 <= i < |Unpaused(ops)| ==> !Unpaused(ops)[i].Pause? && !Unpaused(ops)[i].Resume?
  {
    if ops != [] {
      var before, op := Unpaused(ops[..|ops| - 1]), ops[|ops| - 1];
      UnpausedFeed(ops[..|ops| - 1]);
      assert (before + [op])[..|before|] == before;
    }
  }

  lemma {:induction false} NeverPaused(ops: seq<Op>)
    requires forall i :: 0 <= i < |ops| ==> !ops[i].Pause? && !ops[i].Resume?
    ensures !Run(ops).paused && Run(ops).pausedBuffer == []
  {
    hide Reversed, FirstN, Sources, Overflow;
    if ops != [] { NeverPaused(ops[..|ops| - 1]); }
  }

  lemma SameAsUnpaused(ops: seq<Op>)
    requires BackfillsFirst(ops) && !Run(ops).paused
    ensures Run(ops).events == Run(Unpaused(ops)).events
  {
    var plain := Unpaused(ops);
    UnpausedFeed(ops);
    hide Unpaused;
    forall i | 0 <= i <= |plain|
      ensures Run(plain[..i]).pausedBuffer == [] && !Run(plain[..i]).paused
    {
      NeverPaused(plain[..i]);
    }
    assert plain[..|plain|] == plain;
    hide Run, Feed;
    PausingIsTransparent(ops);
    PausingIsTransparent(plain);
  }

  // ---- exactly when it is transparent ------------------------------------------------------------------

  /** Resuming now would show the newest events received. */
  predicate ResumesRight(ops: seq<Op>) {
    Run(ops + [Resume]).events == FirstN(Feed(ops), MAX_EVENTS)
  }

  /** No event was received twice. */
  predicate AllDifferent(feed: seq<LiveEvent>) {
    forall i, j :: 0 <= i < j < |feed| ==> feed[i] != feed[j]
  }

  lemma ResumeShows(ops: seq<Op>)
    ensures Run(ops + [Resume]).events == FirstN(Run(ops).pausedBuffer + Run(ops).events, MAX_EVENTS)
  {
    assert (ops + [Resume])[..|ops|] == ops;
  }

  lemma ReversedMembers<T>(s: seq<T>)
    ensures forall x :: x in Reversed(s) ==> x in s
  {
    if s != [] { ReversedMembers(s[1..]); }
  }

  /** Whatever is held back was received. */
  lemma {:induction false} HeldIsFed(ops: seq<Op>)
    ensures forall x :: x in Run(ops).pausedBuffer ==> x in Feed(ops)
  {
    if ops != [] {
      hide Reversed, Sources, Overflow;
      HeldIsFed(ops[..|ops| - 1]);
    }
  }

  lemma NewestFirst(batch: seq<LiveEvent>, rest: seq<LiveEvent>, held: seq<LiveEvent>, shown: seq<LiveEvent>)
    requires batch != [] && held != [] && held[0] in rest && AllDifferent(batch + rest)
    ensures FirstN(held + shown, MAX_EVENTS) != FirstN(batch + rest, MAX_EVENTS)
  {
    var i :| 0 <= i < |rest| && rest[i] == held[0];
    assert (batch + rest)[|batch| + i] == held[0] && (batch + rest)[0] == batch[0];
    assert FirstN(held + shown, MAX_EVENTS)[0] == held[0];
  }

  lemma LateBackfillShows(ops: seq<Op>)
    requires ops != [] && AllDifferent(Feed(ops))
    requires var n := |ops| - 1; ops[n].Backfill? && ops[n].batch != [] && Run(ops[..n]).pausedBuffer != []
    ensures !ResumesRight(ops)
  {
    hide Sources, Overflow, AllDifferent, FirstN;
    var n := |ops| - 1;
    var s := Run(ops[..n]);
    HeldIsFed(ops[..n]);
    assert s.pausedBuffer[0] in s.pausedBuffer;
    ResumeShows(ops);
    NewestFirst(ops[n].batch, Feed(ops[..n]), s.pausedBuffer, Run(ops).events);
  }

  lemma {:induction false} FeedGrows(ops: seq<Op>, n: nat)
    requires n <= |ops| && AllDifferent(Feed(ops))
    ensures AllDifferent(Feed(ops[..n]))
    decreases |ops|
  {
    if n == |ops| {
      assert ops[..n] == ops;
    } else {
      var m := |ops| - 1;
      FeedIsSuffix(ops);
      FeedGrows(ops[..m], n);
      assert ops[..m][..n] == ops[..n];
    }
  }

  lemma FeedIsSuffix(ops: seq<Op>)
    requires ops != [] && AllDifferent(Feed(ops))
    ensures AllDifferent(Feed(ops[..|ops| - 1]))
  {
    var before, after := Feed(ops[..|ops| - 1]), Feed(ops);
    assert after[|after| - |before|..] == before;
    forall i, j | 0 <= i < j < |before|
      ensures before[i] != before[j]
    {
      assert after[|after| - |before| + i] == before[i] && after[|after| - |before| + j] == before[j];
    }
  }

  lemma PrefixBackfillsFirst(ops: seq<Op>, n: nat)
    requires n <= |ops| && BackfillsFirst(ops)
    ensures BackfillsFirst(ops[..n])
  {
    hide Run;
    forall i | 0 <= i < n
      ensures ops[..n][..i] == ops[..i] && ops[..n][i] == ops[i]
    {
    }
  }

  predicate LateBackfill(ops: seq<Op>, i: nat)
    requires i < |ops|
  {
    ops[i].Backfill? && ops[i].batch != [] && Run(ops[..i]).pausedBuffer != []
  }

  lemma LateIsWrong(ops: seq<Op>, i: nat)
    requires i < |ops| && LateBackfill(ops, i) && AllDifferent(Feed(ops))
    ensures !ResumesRight(ops[..i + 1])
  {
    hide Run, Feed, AllDifferent, ResumesRight;
    FeedGrows(ops, i + 1);
    assert ops[..i + 1][..i] == ops[..i];
    LateBackfillShows(ops[..i + 1]);
  }

  /** Pausing is transparent at every moment of a run of different events if and only if
      no backfilled event arrives while ingested ones are held back. */
  lemma TransparentIff(ops: seq<Op>)
    requires AllDifferent(Feed(ops))
    ensures (forall n :: 0 <= n <= |ops| ==> ResumesRight(ops[..n])) <==> BackfillsFirst(ops)
  {
    hide Run, Feed, AllDifferent, ResumesRight, BackfillsFirst;
    if BackfillsFirst(ops) {
      forall n | 0 <= n <= |ops|
        ensures ResumesRight(ops[..n])
      {
        PrefixBackfillsFirst(ops, n);
        RightWhenFirst(ops[..n]);
      }
    } else {
      var i := FirstLate(ops);
      LateIsWrong(ops, i);
    }
  }

  lemma FirstLate(ops: seq<Op>) returns (i: nat)
    requires !BackfillsFirst(ops)
    ensures i < |ops| && LateBackfill(ops, i)
  {
    hide Run;
    i :| 0 <= i < |ops| && ops[i].Backfill? && ops[i].batch != [] && Run(ops[..i]).pausedBuffer != [];
  }

  lemma RightWhenFirst(ops: seq<Op>)
    requires BackfillsFirst(ops)
    ensures ResumesRight(ops)
  {
    hide Run, Feed;
    ResumeShows(ops);
    HeldAndShown(ops);
  }

  /** A backfill during a pause ends up behind what was held back, although it came later. */
  lemma BackfillDuringPauseIsReordered(x: LiveEvent, y: LiveEvent)
    requires x != y
    ensures Run([Pause, Ingest([x]), Backfill([y]), Resume]).events == [x, y]
    ensures FirstN(Feed([Pause, Ingest([x]), Backfill([y]), Resume]), MAX_EVENTS) == [y, x]
  {
    var ops := [Pause, Ingest([x]), Backfill([y]), Resume];
    assert ops[..3][..2] == [Pause, Ingest([x])] && ops[..3][..2][..1] == [Pause] && ops[..3][..2][..1][..0] == [];
    assert [x][1..] == [] && Reversed([x]) == [] + [x] == [x];
    assert [x] + [] == [x] && [y] + [] == [y];
    assert Run(ops[..3][..2][..1]) == EMPTY.(paused := true);
    assert Run(ops[..3][..2]).pausedBuffer == [x] && Run(ops[..3][..2]).events == [];
    assert Run(ops[..3]).pausedBuffer == [x] && Run(ops[..3]).events == [y];
    assert Feed(ops[..3][..2][..1]) == [];
    assert Feed(ops[..3][..2]) == [x];
    assert Feed(ops[..3]) == [y] + [x];
  }

  // ---- the store itself ------------------------------------------------------------------------------

  class EventStore {
    var events: seq<LiveEvent>
    var pausedBuffer: seq<LiveEvent>
    var paused: bool
    var knownSources: set<string>
    var droppedFromRing: nat
    var droppedFromPausedBuffer: nat

    ghost function Model(): State
      reads this
    {
      State(events, pausedBuffer, paused, knownSources, droppedFromRing, droppedFromPausedBuffer)
    }

    constructor ()
      ensures Model() == EMPTY
    {
      events, pausedBuffer, paused, knownSources := [], [], false, {};
      droppedFromRing, droppedFromPausedBuffer := 0, 0;
    }

    method IngestBatch(batch: seq<LiveEvent>)
      modifies this
      ensures Model() == Step(old(Model()), Ingest(batch))
    {
      TrackSources(batch);
      if paused {
        var merged := Reversed(batch) + pausedBuffer;
        var overflow := Overflow(|merged|, MAX_PAUSED_BUFFER);
        pausedBuffer := if overflow > 0 then merged[..MAX_PAUSED_BUFFER] else merged;
        droppedFromPausedBuffer := droppedFromPausedBuffer + overflow;
        return;
      }
      PutBefore(Reversed(batch));
    }

    method BackfillBatch(batch: seq<LiveEvent>)
      modifies this
      ensures Model() == Step(old(Model()), Backfill(batch))
    {
      TrackSources(batch);
      PutBefore(batch);
    }

    method SetPaused()
      modifies this
      ensures Model() == Step(old(Model()), Pause)
    {
      paused := true;
    }

    method EndPause()
      modifies this
      ensures Model() == Step(old(Model()), Resume)
    {
      PutBefore(pausedBuffer);
      pausedBuffer, paused := [], false;
    }

    method PutBefore(batch: seq<LiveEvent>)
      modifies this
      ensures Model() == PutInFront(old(Model()), batch)
    {
      var merged := batch + events;
      var overflow := Overflow(|merged|, MAX_EVENTS);
      events := if overflow > 0 then merged[..MAX_EVENTS] else merged;
      droppedFromRing := droppedFromRing + overflow;
    }

    method TrackSources(batch: seq<LiveEvent>)
      modifies this`knownSources
      ensures knownSources == old(knownSources) + Sources(batch)
    {
      for i := 0 to |batch|
        invariant knownSources == old(knownSources) + Sources(batch[..i])
      {
        assert batch[..i + 1] == batch[..i] + [batch[i]];
        if batch[i].source !in knownSources { knownSources := knownSources + {batch[i].source}; }
      }
      assert batch[..|batch|] == batch;
    }
  }
}
