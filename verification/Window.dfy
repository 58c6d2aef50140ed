/** Normalised log events, as the correlation state sees them. */
module Events {

  /** What `getattr(event, field, None)` can yield. */
  datatype FieldValue = Missing | Scalar(text: string) | Many(items: seq<string>)

  datatype Event = Event(
    id: nat,
    ts: nat,
    source: string,
    entityType: string,
    fields: map<string, FieldValue>)

  function Stamp(e: Event): int { e.ts }
}

/** src/seerflow/correlation/window.py: per-entity sliding windows, as values. */
module Windows {
  import opened Events
  import opened Seqs
  import opened Dicts

  datatype Config = Config(windowNs: nat, maxEvents: nat, maxEntities: nat)

  datatype Window = Window(buffers: Dict<string, seq<Event>>, evictions: nat)
  {
    function Buffer(k: string): seq<Event> {
      if buffers.Has(k) then buffers.vals[k] else []
    }
  }

  datatype TimeRange = AnyTime | Between(startNs: int, endNs: int)
  datatype Sources = AnySource | OneOf(names: seq<string>)

  const EMPTY := Window(Dict([], map[]), 0)

  ghost predicate Valid(c: Config, w: Window) {
    && w.buffers.Valid()
    && |w.buffers.keys| <= c.maxEntities
    && forall k :: k in w.buffers.vals ==> |w.buffers.vals[k]| <= c.maxEvents
  }

  // ---- the three operations ---------------------------------------------------

  function EvictWhileFull(c: Config, w: Window): (r: Window)
    requires w.buffers.Valid() && c.maxEntities >= 1
    ensures r.buffers.Valid()
    decreases |w.buffers.keys|
  {
    if |w.buffers.keys| >= c.maxEntities then
      RemoveKeyFacts(w.buffers.keys, w.buffers.keys[0]);
      EvictWhileFull(c, Window(w.buffers.Remove(w.buffers.keys[0]), w.evictions + 1))
    else w
  }

  function Add(c: Config, w: Window, k: string, e: Event): (r: Window)
    requires w.buffers.Valid() && c.maxEntities >= 1
    ensures r.buffers.Valid()
  {
    var room := if w.buffers.Has(k) then w.(buffers := w.buffers.ToEnd(k)) else EvictWhileFull(c, w);
    room.(buffers := room.buffers.Put(k, LastN(room.Buffer(k) + [e], c.maxEvents)))
  }

  /** Pops expired events from the left only. */
  function DropExpired(buf: seq<Event>, cutoff: int): seq<Event> {
    if buf != [] && buf[0].ts < cutoff then DropExpired(buf[1..], cutoff) else buf
  }

  lemma {:induction false} DropFacts(buf: seq<Event>, cutoff: int)
    ensures var r := DropExpired(buf, cutoff);
            && |r| <= |buf| && r == buf[|buf| - |r|..]
            && (forall i :: 0 <= i < |buf| - |r| ==> buf[i].ts < cutoff)
            && (r != [] ==> r[0].ts >= cutoff)
  {
    if buf != [] && buf[0].ts < cutoff { DropFacts(buf[1..], cutoff); }
  }

  function PruneOne(w: Window, k: string, cutoff: int): (r: Window)
    requires w.buffers.Valid()
    ensures r.buffers.Valid()
  {
    if !w.buffers.Has(k) then w
    else
      var kept := DropExpired(w.buffers.vals[k], cutoff);
      w.(buffers := if kept == [] then w.buffers.Remove(k) else w.buffers.Put(k, kept))
  }

  function Survives(w: Window, cutoff: int): string -> bool {
    k => k in w.buffers.vals && DropExpired(w.buffers.vals[k], cutoff) != []
  }

  function PrunedDict(w: Window, cutoff: int): Dict<string, seq<Event>> {
    Dict(
      Filter(Survives(w, cutoff), w.buffers.keys),
      map k | k in w.buffers.vals && Survives(w, cutoff)(k) :: DropExpired(w.buffers.vals[k], cutoff))
  }

  function PruneAll(w: Window, cutoff: int): (r: Window)
    requires w.buffers.Valid()
    ensures r.buffers.Valid()
  {
    PruneKeepsDict(w, cutoff);
    w.(buffers := PrunedDict(w, cutoff))
  }

  predicate Selected(e: Event, range: TimeRange, sources: Sources) {
    && (range.Between? ==> range.startNs <= e.ts <= range.endNs)
    && (sources.OneOf? ==> e.source in sources.names)
  }

  function Select(range: TimeRange, sources: Sources): Event -> bool {
    (e: Event) => Selected(e, range, sources)
  }

  /** The events of `buf` a query returns, oldest first. */
  function Answer(buf: seq<Event>, range: TimeRange, sources: Sources): seq<Event> {
    SortBy(Stamp, Filter(Select(range, sources), buf))
  }

  // ---- runs -------------------------------------------------------------------

  datatype Op =
    | AddOp(entity: string, event: Event)
    | QueryOp(entity: string, now: int)
    | PruneOp(now: int)

  function Step(c: Config, w: Window, op: Op): (r: Window)
    requires w.buffers.Valid() && c.maxEntities >= 1
    ensures r.buffers.Valid()
  {
    match op
    case AddOp(k, e) => Add(c, w, k, e)
    case QueryOp(k, now) => PruneOne(w, k, now - c.windowNs)
    case PruneOp(now) => PruneAll(w, now - c.windowNs)
  }

  function Run(c: Config, ops: seq<Op>): (w: Window)
    requires c.maxEntities >= 1
    ensures w.buffers.Valid()
  {
    if ops == [] then EMPTY
    else
      var w := Run(c, ops[..|ops| - 1]);
      Step(c, w, ops[|ops| - 1])
  }

  lemma PruneKeepsDict(w: Window, cutoff: int)
    requires w.buffers.Valid()
    ensures PrunedDict(w, cutoff).Valid()
  {
    var r := PrunedDict(w, cutoff);
    forall k: string
      ensures multiset(r.keys)[k] == multiset(r.vals.Keys)[k]
    {
      FilterMultiset(Survives(w, cutoff), w.buffers.keys, k);
      assert multiset(w.buffers.keys)[k] == multiset(w.buffers.vals.Keys)[k];
    }
  }

  /** Everything ever added for `k`, in arrival order. */
  function Added(ops: seq<Op>, k: string): seq<Event> {
    if ops == [] then []
    else
      var before := Added(ops[..|ops| - 1], k);
      var op := ops[|ops| - 1];
      if op.AddOp? && op.entity == k then before + [op.event] else before
  }

  predicate Evicts(c: Config, w: Window, op: Op, k: string)
    requires w.buffers.Valid() && c.maxEntities >= 1
  {
    op.AddOp? && w.buffers.Has(k) && !Step(c, w, op).buffers.Has(k)
  }

  function Carry(history: seq<Event>, op: Op, k: string, evicted: bool): seq<Event> {
    if op.AddOp? && op.entity == k then history + [op.event]
    else if evicted then []
    else history
  }

  /** What was added for `k` after its last LRU eviction. */
  function Since(c: Config, ops: seq<Op>, k: string): seq<Event>
    requires c.maxEntities >= 1
  {
    if ops == [] then []
    else
      var init := ops[..|ops| - 1];
      Carry(Since(c, init, k), ops[|ops| - 1], k, Evicts(c, Run(c, init), ops[|ops| - 1], k))
  }

  /** No earlier reading of the clock exceeds `now`. */
  predicate ClockUpTo(ops: seq<Op>, now: int) {
    forall i :: 0 <= i < |ops| && !ops[i].AddOp? ==> ops[i].now <= now
  }

  /** `buf` is the newest part of `history`; whatever it lacks is either beyond
      the event cap or expired at `now`. */
  ghost predicate Covers(c: Config, buf: seq<Event>, history: seq<Event>, now: int) {
    && |buf| <= |history| && |buf| <= c.maxEvents
    && buf == history[|history| - |buf|..]
    && forall i :: 0 <= i < |history| - |buf| && |history| - c.maxEvents <= i ==> history[i].ts < now - c.windowNs
  }

  /** Eviction only removes buffers, one per count, until there is room. */
  lemma {:induction false} EvictFacts(c: Config, w: Window)
    requires w.buffers.Valid() && c.maxEntities >= 1
    ensures var r := EvictWhileFull(c, w);
            && |r.buffers.keys| < c.maxEntities
            && |r.buffers.keys| <= |w.buffers.keys|
            && (forall k :: k in r.buffers.vals ==> k in w.buffers.vals && r.buffers.vals[k] == w.buffers.vals[k])
            && r.evictions - w.evictions == |w.buffers.keys| - |r.buffers.keys|
    decreases |w.buffers.keys|
  {
    if |w.buffers.keys| >= c.maxEntities {
      var oldest := w.buffers.keys[0];
      RemoveKeyFacts(w.buffers.keys, oldest);
      EvictFacts(c, Window(w.buffers.Remove(oldest), w.evictions + 1));
    }
  }

  /** Within capacity, a new entity costs at most the oldest one its place. */
  lemma EvictOne(c: Config, w: Window)
    requires Valid(c, w) && c.maxEntities >= 1
    ensures EvictWhileFull(c, w) ==
      if |w.buffers.keys| < c.maxEntities then w
      else Window(w.buffers.Remove(w.buffers.keys[0]), w.evictions + 1)
  {
    if |w.buffers.keys| == c.maxEntities {
      RemoveKeyFacts(w.buffers.keys, w.buffers.keys[0]);
    }
  }

  /** One entity's buffer depends on the other entities through eviction only. */
  function NextBuffer(c: Config, buf: seq<Event>, op: Op, k: string, evicted: bool): seq<Event> {
    match op
    case AddOp(j, e) => if j == k then LastN(buf + [e], c.maxEvents) else if evicted then [] else buf
    case QueryOp(j, t) => if j == k then DropExpired(buf, t - c.windowNs) else buf
    case PruneOp(t) => DropExpired(buf, t - c.windowNs)
  }

  lemma AddBuffer(c: Config, w: Window, j: string, e: Event, k: string)
    requires w.buffers.Valid() && c.maxEntities >= 1
    ensures Add(c, w, j, e).Buffer(k) ==
      if j == k then LastN(w.Buffer(k) + [e], c.maxEvents)
      else if Evicts(c, w, AddOp(j, e), k) then [] else w.Buffer(k)
  {
    hide RemoveKey, LastN, EvictWhileFull, Dict.Valid;
    EvictFacts(c, w);
    NothingBack(c, w, j);
  }

  lemma NothingBack(c: Config, w: Window, j: string)
    requires w.buffers.Valid() && c.maxEntities >= 1
    ensures !w.buffers.Has(j) ==> !EvictWhileFull(c, w).buffers.Has(j)
  {
    hide EvictWhileFull, Dict.Valid;
    EvictFacts(c, w);
  }

  lemma NothingToDrop()
    ensures forall cutoff :: DropExpired([], cutoff) == []
  {
  }

  lemma StepBuffer(c: Config, w: Window, op: Op, k: string)
    requires w.buffers.Valid() && c.maxEntities >= 1
    ensures Step(c, w, op).Buffer(k) == NextBuffer(c, w.Buffer(k), op, k, Evicts(c, w, op, k))
  {
    hide Add, DropExpired, LastN, Dict.Valid, Filter;
    NothingToDrop();
    match op
    case AddOp(j, e) => AddBuffer(c, w, j, e, k);
    case QueryOp(j, now) =>
    case PruneOp(now) =>
  }

  lemma PruneBuffer(c: Config, w: Window, op: Op, k: string)
    requires w.buffers.Valid() && c.maxEntities >= 1
    requires op.PruneOp? || (op.QueryOp? && op.entity == k)
    ensures Step(c, w, op).Buffer(k) == DropExpired(w.Buffer(k), op.now - c.windowNs)
  {
    StepBuffer(c, w, op, k);
    hide Dict.Valid, Step;
  }

  lemma CoversAppend(c: Config, buf: seq<Event>, history: seq<Event>, now: int, e: Event)
    requires Covers(c, buf, history, now)
    ensures Covers(c, LastN(buf + [e], c.maxEvents), history + [e], now)
  {
    var h := history + [e];
    var r := LastN(buf + [e], c.maxEvents);
    assert buf + [e] == h[|h| - |buf| - 1..];
    assert r == h[|h| - |r|..];
    forall i | 0 <= i < |h| - |r| && |h| - c.maxEvents <= i
      ensures h[i].ts < now - c.windowNs
    {
      assert h[i] == history[i];
    }
  }

  lemma CoversDrop(c: Config, buf: seq<Event>, history: seq<Event>, now: int, cutoff: int)
    requires Covers(c, buf, history, now) && cutoff <= now - c.windowNs
    ensures Covers(c, DropExpired(buf, cutoff), history, now)
  {
    DropFacts(buf, cutoff);
    var r := DropExpired(buf, cutoff);
    forall i | 0 <= i < |history| - |r| && |history| - c.maxEvents <= i
      ensures history[i].ts < now - c.windowNs
    {
      if i >= |history| - |buf| {
        assert history[i] == buf[i - (|history| - |buf|)];
      }
    }
  }

  lemma AddKeys(c: Config, w: Window, j: string, e: Event)
    requires Valid(c, w) && c.maxEntities >= 1
    ensures var keys, keys' := w.buffers.keys, Add(c, w, j, e).buffers.keys;
            if w.buffers.Has(j) then keys' == RemoveKey(keys, j) + [j]
            else if |keys| < c.maxEntities then keys' == keys + [j]
            else keys' == keys[1..] + [j]
  {
    EvictOne(c, w);
    if |w.buffers.keys| == c.maxEntities {
      assert RemoveKey(w.buffers.keys, w.buffers.keys[0]) == w.buffers.keys[1..];
    }
  }

  lemma StepKeepsCount(c: Config, w: Window, op: Op)
    requires Valid(c, w) && c.maxEntities >= 1
    ensures |Step(c, w, op).buffers.keys| <= c.maxEntities
  {
    match op
    case AddOp(j, e) =>
      AddKeys(c, w, j, e);
      w.buffers.Member(j);
      RemoveKeyFacts(w.buffers.keys, j);
      hide Add;
    case QueryOp(j, t) => RemoveKeyFacts(w.buffers.keys, j);
    case PruneOp(t) => FilterSize(Survives(w, t - c.windowNs), w.buffers.keys);
  }

  lemma {:induction false} FilterSize(p: string -> bool, s: seq<string>)
    ensures |Filter(p, s)| <= |s|
  {
    if s != [] { FilterSize(p, s[..|s| - 1]); }
  }

  lemma StepKeepsValid(c: Config, w: Window, op: Op)
    requires Valid(c, w) && c.maxEntities >= 1
    ensures Valid(c, Step(c, w, op))
  {
    hide Dict.Valid, Step, DropExpired, LastN, Evicts;
    StepKeepsCount(c, w, op);
    var r := Step(c, w, op);
    forall k | k in r.buffers.vals
      ensures |r.buffers.vals[k]| <= c.maxEvents
    {
      StepBuffer(c, w, op, k);
      if !op.AddOp? { DropFacts(w.Buffer(k), op.now - c.windowNs); }
    }
  }

  /** Capacity is never exceeded, neither of entities nor of events per entity. */
  lemma {:induction false} RunStaysBounded(c: Config, ops: seq<Op>)
    requires c.maxEntities >= 1
    ensures Valid(c, Run(c, ops))
  {
    if ops != [] {
      RunStaysBounded(c, ops[..|ops| - 1]);
      StepKeepsValid(c, Run(c, ops[..|ops| - 1]), ops[|ops| - 1]);
    }
  }

  lemma CoversNext(c: Config, buf: seq<Event>, history: seq<Event>, op: Op, k: string, evicted: bool, now: int)
    requires Covers(c, buf, history, now)
    requires !op.AddOp? ==> op.now <= now
    requires evicted ==> op.AddOp?
    ensures Covers(c, NextBuffer(c, buf, op, k, evicted), Carry(history, op, k, evicted), now)
  {
    if op.AddOp? {
      if op.entity == k { CoversAppend(c, buf, history, now, op.event); }
    } else {
      CoversDrop(c, buf, history, now, op.now - c.windowNs);
    }
  }

  /** Lazy, left-only, capped pruning loses nothing that is still wanted: whatever
      the arrival order and the earlier queries and prunes, the buffer is the
      newest part of the history since the last eviction, and everything missing
      from it is beyond the cap or expired. */
  lemma {:induction false} BufferCoversHistory(c: Config, ops: seq<Op>, k: string, now: int)
    requires c.maxEntities >= 1 && ClockUpTo(ops, now)
    ensures Covers(c, Run(c, ops).Buffer(k), Since(c, ops, k), now)
  {
    if ops != [] {
      var init, op := ops[..|ops| - 1], ops[|ops| - 1];
      BufferCoversHistory(c, init, k, now);
      StepBuffer(c, Run(c, init), op, k);
      CoversNext(c, Run(c, init).Buffer(k), Since(c, init, k), op, k, Evicts(c, Run(c, init), op, k), now);
    }
  }

  /** The entries a covering buffer lacks cannot pass a range that starts at the cutoff. */
  lemma CoveredAnswer(c: Config, buf: seq<Event>, history: seq<Event>, now: int, range: TimeRange, sources: Sources)
    requires Covers(c, buf, history, now)
    requires range.Between? && range.startNs >= now - c.windowNs
    ensures Answer(buf, range, sources) == Answer(LastN(history, c.maxEvents), range, sources)
  {
    hide Filter, SortBy;
    var recent := LastN(history, c.maxEvents);
    var gone := recent[..|recent| - |buf|];
    var p := Select(range, sources);
    assert Filter(p, recent) == Filter(p, gone) + Filter(p, buf) by {
      assert recent == gone + buf;
      FilterConcat(p, gone, buf);
    }
    forall x | x in gone
      ensures !p(x)
    {
      var i :| 0 <= i < |gone| && gone[i] == x;
      assert x == history[|history| - |recent| + i];
    }
    FilterNone(p, gone);
    assert [] + Filter(p, buf) == Filter(p, buf);
  }

  /** A query answers with exactly the events in range and of a wanted source, oldest first. */
  lemma AnswerIs(buf: seq<Event>, range: TimeRange, sources: Sources, e: Event)
    ensures multiset(Answer(buf, range, sources))[e] ==
      if (range.Between? ==> range.startNs <= e.ts <= range.endNs) && (sources.OneOf? ==> e.source in sources.names)
      then multiset(buf)[e] else 0
    ensures var r := Answer(buf, range, sources);
            forall i, j :: 0 <= i < j < |r| ==> r[i].ts <= r[j].ts
  {
    FilterMultiset(Select(range, sources), buf, e);
    SortBySorted(Stamp, Filter(Select(range, sources), buf));
    hide Filter, SortBy;
  }

  lemma QueryPrunes(c: Config, w: Window, k: string, now: int)
    requires w.buffers.Valid() && c.maxEntities >= 1
    ensures Step(c, w, QueryOp(k, now)) == PruneOne(w, k, now - c.windowNs)
  {
  }

  /** A query whose range starts no earlier than the buffer cutoff answers from the
      full history: the entity's last `maxEvents` events, in range, by time. */
  lemma QueryIsExact(c: Config, ops: seq<Op>, k: string, now: int, range: TimeRange, sources: Sources)
    requires c.maxEntities >= 1 && ClockUpTo(ops, now)
    requires range.Between? && range.startNs >= now - c.windowNs
    ensures Answer(PruneOne(Run(c, ops), k, now - c.windowNs).Buffer(k), range, sources)
         == Answer(LastN(Since(c, ops, k), c.maxEvents), range, sources)
  {
    hide Dict.Valid, Run, Since, Covers, Answer, LastN, DropExpired, PruneOne, Step, ClockUpTo;
    var w := Run(c, ops);
    BufferCoversHistory(c, ops, k, now);
    PruneBuffer(c, w, QueryOp(k, now), k);
    QueryPrunes(c, w, k, now);
    CoversDrop(c, w.Buffer(k), Since(c, ops, k), now, now - c.windowNs);
    CoveredAnswer(c, PruneOne(w, k, now - c.windowNs).Buffer(k), Since(c, ops, k), now, range, sources);
  }

  lemma PrunedIsSuffix(c: Config, ops: seq<Op>, k: string, now: int)
    requires c.maxEntities >= 1 && ClockUpTo(ops, now)
    ensures var buf := PruneOne(Run(c, ops), k, now - c.windowNs).Buffer(k);
            var recent := LastN(Since(c, ops, k), c.maxEvents);
            |buf| <= |recent| && buf == recent[|recent| - |buf|..]
  {
    hide Dict.Valid, Run, Since, DropExpired, PruneOne, Step, ClockUpTo;
    var w := Run(c, ops);
    BufferCoversHistory(c, ops, k, now);
    PruneBuffer(c, w, QueryOp(k, now), k);
    QueryPrunes(c, w, k, now);
    CoversDrop(c, w.Buffer(k), Since(c, ops, k), now, now - c.windowNs);
  }

  /** Events of one time are answered in the order of their arrival. */
  lemma TiesKeepArrivalOrder(c: Config, ops: seq<Op>, k: string, now: int, range: TimeRange, sources: Sources, t: int)
    requires c.maxEntities >= 1 && ClockUpTo(ops, now)
    requires range.Between? && range.startNs >= now - c.windowNs
    ensures Filter(HasKey(Stamp, t), Answer(PruneOne(Run(c, ops), k, now - c.windowNs).Buffer(k), range, sources))
         == Filter(HasKey(Stamp, t), Filter(Select(range, sources), LastN(Since(c, ops, k), c.maxEvents)))
  {
    hide Run, Since, PruneOne, Filter, SortBy, LastN, Dict.Valid, HasKey;
    QueryIsExact(c, ops, k, now, range, sources);
    SortByStable(Stamp, Filter(Select(range, sources), LastN(Since(c, ops, k), c.maxEvents)), t);
  }

  // ---- who gets evicted -------------------------------------------------------

  function NextRivals(before: set<string>, op: Op, k: string): set<string> {
    if !op.AddOp? then before else if op.entity == k then {} else before + {op.entity}
  }

  /** The other entities that were added since `k` was last added. */
  function Rivals(ops: seq<Op>, k: string): set<string> {
    if ops == [] then {} else NextRivals(Rivals(ops[..|ops| - 1], k), ops[|ops| - 1], k)
  }

  ghost predicate BehindIn(keys: seq<string>, k: string, s: set<string>) {
    forall i, j :: 0 <= i < j < |keys| && keys[i] == k ==> keys[j] in s
  }

  lemma {:induction false} RemoveKeepsBehind(keys: seq<string>, x: string, k: string, s: set<string>)
    requires BehindIn(keys, k, s)
    ensures BehindIn(RemoveKey(keys, x), k, s)
  {
    if keys != [] && keys[0] != x {
      var t := keys[1..];
      assert forall i :: 0 <= i < |t| ==> t[i] == keys[i + 1];
      RemoveKeepsBehind(t, x, k, s);
      RemoveKeyMembers(t, x);
      var r := RemoveKey(t, x);
      forall j | 0 <= j < |r| && keys[0] == k
        ensures r[j] in s
      {
        assert r[j] in t;
      }
    }
  }

  lemma {:induction false} FilterKeepsBehind(keys: seq<string>, p: string -> bool, k: string, s: set<string>)
    requires BehindIn(keys, k, s)
    ensures BehindIn(Filter(p, keys), k, s)
  {
    if keys != [] {
      var n := |keys| - 1;
      FilterKeepsBehind(keys[..n], p, k, s);
      var t := Filter(p, keys[..n]);
      FilterMembers(p, keys[..n]);
      forall i | 0 <= i < |t| && t[i] == k
        ensures keys[n] in s
      {
        assert t[i] in keys[..n];
      }
    }
  }

  lemma AppendKeepsBehind(rest: seq<string>, j: string, k: string, s: set<string>)
    requires BehindIn(rest, k, s) && j !in rest
    ensures BehindIn(rest + [j], k, if j == k then {} else s + {j})
  {
  }

  lemma AddKeepsBehind(c: Config, w: Window, j: string, e: Event, k: string, s: set<string>)
    requires Valid(c, w) && c.maxEntities >= 1
    requires BehindIn(w.buffers.keys, k, s)
    ensures BehindIn(Add(c, w, j, e).buffers.keys, k, if j == k then {} else s + {j})
  {
    var keys := w.buffers.keys;
    AddKeys(c, w, j, e);
    w.buffers.Member(j);
    if w.buffers.Has(j) {
      RemoveKeepsBehind(keys, j, k, s);
      NotTwice(w.buffers, j);
      AppendKeepsBehind(RemoveKey(keys, j), j, k, s);
    } else if |keys| < c.maxEntities {
      AppendKeepsBehind(keys, j, k, s);
    } else {
      assert forall i :: 0 <= i < |keys[1..]| ==> keys[1..][i] == keys[i + 1];
      AppendKeepsBehind(keys[1..], j, k, s);
    }
  }

  lemma NotTwice(d: Dict<string, seq<Event>>, j: string)
    requires d.Valid()
    ensures j !in RemoveKey(d.keys, j)
  {
    RemoveKeyFacts(d.keys, j);
    assert multiset(d.keys)[j] <= 1;
    assert j !in multiset(RemoveKey(d.keys, j));
  }

  lemma StepKeepsBehind(c: Config, w: Window, op: Op, k: string, s: set<string>)
    requires Valid(c, w) && c.maxEntities >= 1
    requires BehindIn(w.buffers.keys, k, s)
    ensures BehindIn(Step(c, w, op).buffers.keys, k, NextRivals(s, op, k))
  {
    match op
    case AddOp(j, e) => AddKeepsBehind(c, w, j, e, k, s);
    case QueryOp(j, t) => RemoveKeepsBehind(w.buffers.keys, j, k, s);
    case PruneOp(t) => FilterKeepsBehind(w.buffers.keys, Survives(w, t - c.windowNs), k, s);
  }

  /** Keys behind `k` in the dictionary were all added after it. */
  lemma {:induction false} NewerKeysAreRivals(c: Config, ops: seq<Op>, k: string)
    requires c.maxEntities >= 1
    ensures BehindIn(Run(c, ops).buffers.keys, k, Rivals(ops, k))
  {
    if ops != [] {
      var init := ops[..|ops| - 1];
      NewerKeysAreRivals(c, init, k);
      RunStaysBounded(c, init);
      StepKeepsBehind(c, Run(c, init), ops[|ops| - 1], k, Rivals(init, k));
    }
  }

  /** An entity is evicted only when `maxEntities` distinct other entities were
      added since it was last added. */
  lemma EvictionNeedsRivals(c: Config, init: seq<Op>, op: Op, k: string)
    requires c.maxEntities >= 1
    requires Evicts(c, Run(c, init), op, k)
    ensures |Rivals(init + [op], k)| >= c.maxEntities
  {
    var w := Run(c, init);
    var keys := w.buffers.keys;
    RunStaysBounded(c, init);
    NewerKeysAreRivals(c, init, k);
    assert (init + [op])[..|init|] == init;
    var after := Add(c, w, op.entity, op.event).buffers;
    EvictedIsOldest(c, w, op, k);
    after.SizeIs();
    forall x | x in after.vals
      ensures x in Rivals(init, k) + {op.entity}
    {
      after.Member(x);
      if x != op.entity {
        assert x in keys[1..];
        var i :| 0 <= i < |keys[1..]| && keys[1..][i] == x;
        assert keys[i + 1] == x;
      }
    }
    assert |after.vals| == |after.vals.Keys|;
    SubsetSize(after.vals.Keys, Rivals(init, k) + {op.entity});
  }

  lemma EvictedIsOldest(c: Config, w: Window, op: Op, k: string)
    requires Valid(c, w) && c.maxEntities >= 1
    requires Evicts(c, w, op, k)
    ensures |w.buffers.keys| == c.maxEntities && w.buffers.keys[0] == k && op.entity != k
    ensures Step(c, w, op).buffers.keys == w.buffers.keys[1..] + [op.entity]
  {
    AddKeys(c, w, op.entity, op.event);
    EvictOne(c, w);
  }

  lemma {:induction false} SubsetSize(a: set<string>, b: set<string>)
    requires a <= b
    ensures |a| <= |b|
  {
    if a != {} {
      var x :| x in a;
      SubsetSize(a - {x}, b - {x});
    }
  }

  /** No operation of the run evicted `k`. */
  ghost predicate NeverEvicted(c: Config, ops: seq<Op>, k: string)
    requires c.maxEntities >= 1
  {
    forall n :: 0 <= n < |ops| ==> !Evicts(c, Run(c, ops[..n]), ops[n], k)
  }

  lemma NeverEvictedPrefix(c: Config, ops: seq<Op>, k: string)
    requires c.maxEntities >= 1 && ops != []
    ensures var n := |ops| - 1;
            NeverEvicted(c, ops, k) <==> NeverEvicted(c, ops[..n], k) && !Evicts(c, Run(c, ops[..n]), ops[n], k)
  {
    hide Run, Evicts;
    var n := |ops| - 1;
    assert forall m :: 0 <= m < n ==> ops[..n][..m] == ops[..m] && ops[..n][m] == ops[m];
  }

  lemma {:induction false} TrackedHasHistory(c: Config, ops: seq<Op>, k: string)
    requires c.maxEntities >= 1
    ensures Run(c, ops).buffers.Has(k) ==> Since(c, ops, k) != []
    ensures |Since(c, ops, k)| <= |Added(ops, k)|
  {
    if ops != [] {
      var init, op := ops[..|ops| - 1], ops[|ops| - 1];
      TrackedHasHistory(c, init, k);
      if Run(c, ops).buffers.Has(k) { OnlyAddsTrack(c, Run(c, init), op, k); }
      hide Step, Dict.Valid;
    }
  }

  lemma OnlyAddsTrack(c: Config, w: Window, op: Op, k: string)
    requires w.buffers.Valid() && c.maxEntities >= 1 && Step(c, w, op).buffers.Has(k)
    ensures w.buffers.Has(k) || (op.AddOp? && op.entity == k)
  {
    hide Dict.Valid, EvictWhileFull, DropExpired;
    EvictFacts(c, w);
  }

  lemma CarryLoses(since: seq<Event>, added: seq<Event>, op: Op, k: string, evicted: bool)
    requires |since| <= |added| && (evicted ==> since != [] && op.AddOp? && op.entity != k)
    ensures Carry(since, op, k, evicted) == Carry(added, op, k, false) <==> since == added && !evicted
  {
    if op.AddOp? && op.entity == k {
      assert (since + [op.event])[..|since|] == since && (added + [op.event])[..|added|] == added;
    }
  }

  /** The whole history is what was added since the last eviction if and only if `k`
      was never evicted. */
  lemma {:induction false} UnevictedIff(c: Config, ops: seq<Op>, k: string)
    requires c.maxEntities >= 1
    ensures Since(c, ops, k) == Added(ops, k) <==> NeverEvicted(c, ops, k)
  {
    if ops != [] {
      hide Run, NeverEvicted, Carry, Step, Dict.Valid, Evicts, Since, Added;
      var init, op := ops[..|ops| - 1], ops[|ops| - 1];
      UnevictedIff(c, init, k);
      NeverEvictedPrefix(c, ops, k);
      TrackedHasHistory(c, init, k);
      var evicted := Evicts(c, Run(c, init), op, k);
      if evicted { AddedStays(c, Run(c, init), op, k); }
      CarryLoses(Since(c, init, k), Added(init, k), op, k, evicted);
      BothCarry(c, ops, k);
    } else {
      hide Run;
    }
  }

  lemma BothCarry(c: Config, ops: seq<Op>, k: string)
    requires c.maxEntities >= 1 && ops != []
    ensures var init, op := ops[..|ops| - 1], ops[|ops| - 1];
            && Since(c, ops, k) == Carry(Since(c, init, k), op, k, Evicts(c, Run(c, init), op, k))
            && Added(ops, k) == Carry(Added(init, k), op, k, false)
  {
    hide Run, Evicts;
  }

  lemma AddedStays(c: Config, w: Window, op: Op, k: string)
    requires w.buffers.Valid() && c.maxEntities >= 1 && Evicts(c, w, op, k)
    ensures w.buffers.Has(k) && op.AddOp? && op.entity != k
  {
    hide Dict.Valid, EvictWhileFull;
  }

  /** Ever since `k` was first added, it had fewer than `maxEntities` rivals. */
  ghost predicate NeverCrowded(c: Config, ops: seq<Op>, k: string) {
    forall n :: 0 <= n <= |ops| && Added(ops[..n], k) != [] ==> |Rivals(ops[..n], k)| < c.maxEntities
  }

  /** Then it was never evicted. */
  lemma {:induction false} UncrowdedKeepsAll(c: Config, ops: seq<Op>, k: string)
    requires c.maxEntities >= 1 && NeverCrowded(c, ops, k)
    ensures NeverEvicted(c, ops, k) && Since(c, ops, k) == Added(ops, k)
  {
    hide Rivals, Evicts, Run, Added, Since;
    forall n | 0 <= n < |ops|
      ensures !Evicts(c, Run(c, ops[..n]), ops[n], k)
    {
      if Evicts(c, Run(c, ops[..n]), ops[n], k) { EvictedWasCrowded(c, ops, n, k); }
    }
    UnevictedIff(c, ops, k);
  }

  lemma EvictedWasCrowded(c: Config, ops: seq<Op>, n: nat, k: string)
    requires c.maxEntities >= 1 && n < |ops| && Evicts(c, Run(c, ops[..n]), ops[n], k)
    ensures Added(ops[..n + 1], k) != [] && |Rivals(ops[..n + 1], k)| >= c.maxEntities
  {
    hide Rivals, Step, Dict.Valid;
    EvictionNeedsRivals(c, ops[..n], ops[n], k);
    TrackedHasHistory(c, ops[..n], k);
    assert ops[..n] + [ops[n]] == ops[..n + 1];
    assert ops[..n + 1][..n] == ops[..n];
  }

  // ---- the buffer itself ------------------------------------------------------

  lemma NothingThere(range: TimeRange, sources: Sources)
    ensures Answer([], range, sources) == []
  {
  }

  class EntityWindowBuffer {
    const windowNs: nat
    const maxEvents: nat
    const maxEntities: nat
    var buffers: Dict<string, seq<Event>>
    var evictionCount: nat

    function Settings(): Config { Config(windowNs, maxEvents, maxEntities) }

    ghost function Model(): Window
      reads this
    {
      Window(buffers, evictionCount)
    }

    ghost predicate Usable()
      reads this
    {
      maxEntities >= 1 && buffers.Valid()
    }

    constructor (windowNs: nat, maxEvents: nat, maxEntities: nat)
      requires maxEntities >= 1
      ensures Usable() && Model() == EMPTY
      ensures Settings() == Config(windowNs, maxEvents, maxEntities)
    {
      this.windowNs, this.maxEvents, this.maxEntities := windowNs, maxEvents, maxEntities;
      buffers, evictionCount := Dict([], map[]), 0;
    }

    method AddEvent(k: string, e: Event)
      requires Usable()
      modifies this
      ensures Usable()
      ensures Model() == Step(Settings(), old(Model()), AddOp(k, e))
    {
      hide Dict.Valid;
      ghost var c, before := Settings(), Model();
      if buffers.Has(k) {
        buffers := buffers.ToEnd(k);
      } else {
        while |buffers.keys| >= maxEntities
          invariant buffers.Valid()
          invariant EvictWhileFull(c, Model()) == EvictWhileFull(c, before)
          invariant buffers.Has(k) ==> before.buffers.Has(k)
          decreases |buffers.keys|
        {
          RemoveKeyFacts(buffers.keys, buffers.keys[0]);
          buffers, evictionCount := buffers.Remove(buffers.keys[0]), evictionCount + 1;
        }
        buffers := buffers.Put(k, []);
      }
      buffers := buffers.Put(k, LastN(buffers.vals[k] + [e], maxEvents));
      assert Model() == Add(c, before, k, e);
    }

    /** `now` is the reading of the injected clock. */
    method Query(k: string, range: TimeRange, sources: Sources, now: int) returns (found: seq<Event>)
      requires Usable()
      modifies this
      ensures Usable()
      ensures Model() == Step(Settings(), old(Model()), QueryOp(k, now))
      ensures found == Answer(Model().Buffer(k), range, sources)
    {
      hide Dict.Valid, Answer, RemoveKey;
      if !buffers.Has(k) {
        NothingThere(range, sources);
        return [];
      }
      ghost var before := Model();
      var cutoff := now - windowNs;
      var buf := DropLeft(buffers.vals[k], cutoff);
      if buf == [] {
        buffers := buffers.Remove(k);
        NothingThere(range, sources);
        return [];
      }
      buffers := buffers.Put(k, buf);
      found := Answer(buf, range, sources);
    }

    method Prune(now: int)
      requires Usable()
      modifies this
      ensures Usable()
      ensures Model() == Step(Settings(), old(Model()), PruneOp(now))
    {
      hide Dict.Valid, Filter, DropExpired;
      ghost var before := Model();
      var cutoff := now - windowNs;
      var empty := ShortenAll(cutoff);
      PrunedAll(before, buffers, cutoff);
      DeleteAll(empty);
      assert Model() == PruneAll(before, cutoff);
    }

    /** First pass: drops what expired in every buffer and lists those it emptied. */
    method ShortenAll(cutoff: int) returns (empty: seq<string>)
      requires Usable()
      modifies this
      ensures Usable() && evictionCount == old(evictionCount)
      ensures buffers.keys == old(buffers.keys)
      ensures buffers.vals == ShortVals(old(Model()), cutoff)
      ensures empty == Filter(Expires(old(Model()), cutoff), old(buffers.keys))
    {
      hide Dict.Valid, DropExpired;
      ghost var before := Model();
      var keys := buffers.keys;
      empty := [];
      for n := 0 to |keys|
        invariant buffers.Valid() && evictionCount == before.evictions
        invariant HalfPruned(before, buffers, n, cutoff)
        invariant empty == Filter(Expires(before, cutoff), keys[..n])
      {
        assert keys[..n + 1][..n] == keys[..n];
        buffers.Member(keys[n]);
        before.buffers.Member(keys[n]);
        var buf := DropLeft(buffers.vals[keys[n]], cutoff);
        PruneNext(before, buffers, n, cutoff, buf);
        buffers := buffers.Put(keys[n], buf);
        if buf == [] { empty := empty + [keys[n]]; }
      }
      assert keys[..|keys|] == keys;
      AllPruned(before, buffers, cutoff);
    }

    /** Second pass. */
    method DeleteAll(empty: seq<string>)
      requires Usable()
      modifies this
      ensures Usable() && evictionCount == old(evictionCount)
      ensures buffers.keys == Filter(NotIn(empty), old(buffers.keys))
      ensures buffers.vals == map k | k in old(buffers.vals) && k !in empty :: old(buffers.vals)[k]
    {
      hide Dict.Valid;
      ghost var before := buffers;
      AllNotIn(buffers.keys);
      for n := 0 to |empty|
        invariant buffers.Valid() && evictionCount == old(evictionCount)
        invariant buffers.keys == Filter(NotIn(empty[..n]), before.keys)
        invariant buffers.vals == map k | k in before.vals && k !in empty[..n] :: before.vals[k]
      {
        RemoveNext(before, buffers, empty, n);
        buffers := buffers.Remove(empty[n]);
      }
      assert empty[..|empty|] == empty;
    }
  }

  /** The `popleft` loop both `query` and `prune` run on one buffer. */
  method DropLeft(all: seq<Event>, cutoff: int) returns (buf: seq<Event>)
    ensures buf == DropExpired(all, cutoff)
  {
    buf := all;
    while buf != [] && buf[0].ts < cutoff
      invariant DropExpired(buf, cutoff) == DropExpired(all, cutoff)
      decreases |buf|
    {
      buf := buf[1..];
    }
  }

  // The two passes of `Prune`: shorten every buffer in place, then delete the empty ones.

  function Expires(w: Window, cutoff: int): string -> bool {
    k => k in w.buffers.vals && DropExpired(w.buffers.vals[k], cutoff) == []
  }

  function NotIn(s: seq<string>): string -> bool {
    k => k !in s
  }

  ghost predicate HalfPruned(w: Window, d: Dict<string, seq<Event>>, n: nat, cutoff: int) {
    && d.keys == w.buffers.keys && n <= |d.keys|
    && d.vals.Keys == w.buffers.vals.Keys
    && (forall i :: 0 <= i < |d.keys| && d.keys[i] in d.vals ==>
          d.vals[d.keys[i]] ==
            if i < n then DropExpired(w.buffers.vals[d.keys[i]], cutoff) else w.buffers.vals[d.keys[i]])
  }

  lemma PruneNext(w: Window, d: Dict<string, seq<Event>>, n: nat, cutoff: int, buf: seq<Event>)
    requires w.buffers.Valid() && d.Valid()
    requires HalfPruned(w, d, n, cutoff) && n < |d.keys| && d.keys[n] in d.vals
    requires buf == DropExpired(w.buffers.vals[d.keys[n]], cutoff)
    ensures HalfPruned(w, d.Put(d.keys[n], buf), n + 1, cutoff)
  {
    forall i | 0 <= i < |d.keys| && i != n
      ensures d.keys[i] != d.keys[n]
    {
      if i < n { d.Distinct(i, n); } else { d.Distinct(n, i); }
    }
    hide Dict.Valid, DropExpired;
  }

  function ShortVals(w: Window, cutoff: int): map<string, seq<Event>> {
    map k | k in w.buffers.vals :: DropExpired(w.buffers.vals[k], cutoff)
  }

  lemma AllPruned(w: Window, d: Dict<string, seq<Event>>, cutoff: int)
    requires w.buffers.Valid() && HalfPruned(w, d, |d.keys|, cutoff)
    ensures d.vals == ShortVals(w, cutoff)
  {
    forall k | k in d.vals
      ensures d.vals[k] == DropExpired(w.buffers.vals[k], cutoff)
    {
      w.buffers.Member(k);
      var i :| 0 <= i < |d.keys| && d.keys[i] == k;
    }
  }

  lemma AllNotIn(keys: seq<string>)
    ensures Filter(NotIn([]), keys) == keys
  {
    FilterAll(NotIn([]), keys);
  }

  lemma RemoveNext(pruned: Dict<string, seq<Event>>, d: Dict<string, seq<Event>>, empty: seq<string>, n: nat)
    requires d.Valid() && n < |empty|
    requires d.keys == Filter(NotIn(empty[..n]), pruned.keys)
    requires d.vals == map k | k in pruned.vals && k !in empty[..n] :: pruned.vals[k]
    ensures d.Remove(empty[n]).keys == Filter(NotIn(empty[..n + 1]), pruned.keys)
    ensures d.Remove(empty[n]).vals == map k | k in pruned.vals && k !in empty[..n + 1] :: pruned.vals[k]
  {
    hide Filter;
    var x := empty[n];
    assert empty[..n + 1] == empty[..n] + [x];
    assert multiset(d.keys)[x] <= 1;
    RemoveKeyIsFilter(d.keys, x);
    hide Dict.Valid;
    FilterTwice(NotIn(empty[..n]), OtherThan(x), NotIn(empty[..n + 1]), pruned.keys);
  }

  lemma PrunedAll(w: Window, pruned: Dict<string, seq<Event>>, cutoff: int)
    requires w.buffers.Valid()
    requires pruned == Dict(w.buffers.keys, ShortVals(w, cutoff))
    ensures var empty := Filter(Expires(w, cutoff), pruned.keys);
            PruneAll(w, cutoff).buffers ==
              Dict(Filter(NotIn(empty), pruned.keys),
                   map k | k in pruned.vals && k !in empty :: pruned.vals[k])
  {
    hide Dict.Valid, DropExpired;
    var empty := Filter(Expires(w, cutoff), pruned.keys);
    FilterMembers(Expires(w, cutoff), pruned.keys);
    forall k
      ensures k in w.buffers.keys <==> k in w.buffers.vals
    {
      w.buffers.Member(k);
    }
    assert forall k :: k in pruned.vals ==> (Survives(w, cutoff)(k) <==> k !in empty);
    FilterAgree(NotIn(empty), Survives(w, cutoff), pruned.keys);
  }
}
