/** src/seerflow/correlation/kill_chain.py: per-entity progression through ATT&CK tactics. */
module KillChain {
  import opened Options
  import opened Seqs
  import opened Dicts

  const MAX_TACTICS := 14

  datatype Config = Config(enabled: bool, threshold: nat, windowNs: nat, maxEntities: nat)

  datatype Alert = Alert(id: string, ts: int, entity: string, tactics: seq<string>)

  /** When, and by which alert, an entity was first seen using a tactic. */
  datatype Seen = Seen(ts: int, alert: string)
  datatype Sighting = Sighting(tactic: string, seen: Seen)

  type Tactics = Dict<string, Seen>

  const NO_TACTICS: Tactics := Dict([], map[])

  /** `lru` is an ordered dictionary without values. */
  datatype Tracker = Tracker(tactics: map<string, Tactics>, lru: seq<string>, fired: set<string>, evictions: nat)
  {
    function Known(e: string): Tactics {
      if e in tactics then tactics[e] else NO_TACTICS
    }
  }

  const EMPTY := Tracker(map[], [], {}, 0)

  datatype Report = NoReport | Report(entity: string, ts: int, entries: seq<Sighting>)
  datatype Outcome = Outcome(tracker: Tracker, report: Report)

  // ---- recording an alert -----------------------------------------------------------------

  function IsLive(d: Tactics, cutoff: int): string -> bool {
    t => t in d.vals && d.vals[t].ts >= cutoff
  }

  function Live(d: Tactics, cutoff: int): Tactics {
    Dict(Filter(IsLive(d, cutoff), d.keys), map t | t in d.vals && d.vals[t].ts >= cutoff :: d.vals[t])
  }

  predicate HasStale(d: Tactics, cutoff: int) {
    exists t :: t in d.vals && d.vals[t].ts < cutoff
  }

  function EvictStale(s: Tracker, e: string, cutoff: int): Tracker {
    if e !in s.tactics then s
    else s.(tactics := s.tactics[e := Live(s.tactics[e], cutoff)],
            fired := if HasStale(s.tactics[e], cutoff) then s.fired - {e} else s.fired)
  }

  /** A tactic already known keeps its first sighting; a full entity learns no more. */
  function NoteOne(d: Tactics, t: string, seen: Seen): (r: Tactics)
    requires d.Valid()
    ensures r.Valid()
  {
    if !d.Has(t) && |d.keys| < MAX_TACTICS then d.Put(t, seen) else d
  }

  function NoteAll(d: Tactics, tactics: seq<string>, seen: Seen): (r: Tactics)
    requires d.Valid()
    ensures r.Valid()
  {
    if tactics == [] then d
    else NoteOne(NoteAll(d, tactics[..|tactics| - 1], seen), tactics[|tactics| - 1], seen)
  }

  function Learned(s: Tracker, a: Alert): Tracker
    requires s.Known(a.entity).Valid()
  {
    s.(tactics := s.tactics[a.entity := NoteAll(s.Known(a.entity), a.tactics, Seen(a.ts, a.id))])
  }

  function TouchEntity(s: Tracker, e: string): Tracker {
    s.(lru := Touch(s.lru, e))
  }

  function Drop(s: Tracker, e: string): Tracker {
    Tracker(s.tactics - {e}, RemoveKey(s.lru, e), s.fired - {e}, s.evictions + 1)
  }

  function EnforceMax(c: Config, s: Tracker): (r: Tracker)
    decreases |s.lru|
  {
    if |s.lru| > c.maxEntities then
      RemoveKeyFacts(s.lru, s.lru[0]);
      EnforceMax(c, Drop(s, s.lru[0]))
    else s
  }

  function FirstSeen(x: Sighting): int { x.seen.ts }

  function Sightings(d: Tactics): seq<Sighting> {
    seq(|d.keys|, i requires 0 <= i < |d.keys| =>
      Sighting(d.keys[i], if d.Has(d.keys[i]) then d.vals[d.keys[i]] else Seen(0, "")))
  }

  predicate Reached(c: Config, s: Tracker, e: string) {
    |s.Known(e).keys| >= c.threshold
  }

  function Check(c: Config, s: Tracker, e: string, now: int): Outcome {
    if !Reached(c, s, e) || e in s.fired then Outcome(s, NoReport)
    else Outcome(s.(fired := s.fired + {e}), Report(e, now, SortBy(FirstSeen, Sightings(s.Known(e)))))
  }

  /** Whether the tracker looks at the alert at all. */
  predicate Counts(c: Config, a: Alert) {
    c.enabled && a.tactics != [] && a.entity != ""
  }

  function Cutoff(c: Config, a: Alert): int { a.ts - c.windowNs }

  ghost predicate AllValid(s: Tracker) {
    forall e :: e in s.tactics ==> s.tactics[e].Valid() && |s.tactics[e].keys| <= MAX_TACTICS
  }

  lemma KnownValid(s: Tracker, e: string)
    requires AllValid(s)
    ensures s.Known(e).Valid() && |s.Known(e).keys| <= MAX_TACTICS
  {
  }

  /** The tracker after an alert was taken in and before the threshold is checked. */
  function Absorb(c: Config, s: Tracker, a: Alert): Tracker
    requires AllValid(s)
  {
    KnownValid(s, a.entity);
    LiveValid(s.Known(a.entity), Cutoff(c, a));
    EnforceMax(c, TouchEntity(Learned(EvictStale(s, a.entity, Cutoff(c, a)), a), a.entity))
  }

  function Record(c: Config, s: Tracker, a: Alert): Outcome
    requires AllValid(s)
  {
    if !Counts(c, a) then Outcome(s, NoReport) else Check(c, Absorb(c, s, a), a.entity, a.ts)
  }

  lemma LiveValid(d: Tactics, cutoff: int)
    requires d.Valid()
    ensures Live(d, cutoff).Valid() && |Live(d, cutoff).keys| <= |d.keys|
  {
    var r := Live(d, cutoff);
    forall k: string
      ensures multiset(r.keys)[k] == multiset(r.vals.Keys)[k]
    {
      FilterMultiset(IsLive(d, cutoff), d.keys, k);
      assert multiset(d.keys)[k] == multiset(d.vals.Keys)[k];
    }
  }

  // ---- what every step keeps ------------------------------------------------------------------

  ghost predicate LruMatches(s: Tracker) {
    && NoneTwice(s.lru)
    && forall e :: e in s.lru <==> e in s.tactics
  }

  ghost predicate FiredReached(c: Config, s: Tracker) {
    forall e :: e in s.fired ==> e in s.tactics && Reached(c, s, e)
  }

  /** Every entity that reached the threshold has fired, with one possible exception. */
  ghost predicate ReachedFired(c: Config, s: Tracker, but: string) {
    forall e :: e in s.tactics && e != but && Reached(c, s, e) ==> e in s.fired
  }

  /** The invariant of every reachable state. */
  ghost predicate Consistent(c: Config, s: Tracker) {
    && LruMatches(s) && |s.lru| <= c.maxEntities
    && AllValid(s)
    && forall e :: e in s.fired <==> e in s.tactics && Reached(c, s, e)
  }

  lemma EvictStaleKeeps(c: Config, s: Tracker, e: string, cutoff: int)
    requires AllValid(s) && LruMatches(s) && FiredReached(c, s) && ReachedFired(c, s, e)
    ensures var r := EvictStale(s, e, cutoff);
            AllValid(r) && LruMatches(r) && FiredReached(c, r) && ReachedFired(c, r, e)
  {
    hide Live, Dict.Valid, NoneTwice;
    if e in s.tactics {
      LiveValid(s.tactics[e], cutoff);
      if !HasStale(s.tactics[e], cutoff) { NothingStale(s.tactics[e], cutoff); }
    }
  }

  lemma NothingStale(d: Tactics, cutoff: int)
    requires d.Valid() && !HasStale(d, cutoff)
    ensures Live(d, cutoff) == d
  {
    hide Dict.Valid;
    forall t | t in d.keys
      ensures IsLive(d, cutoff)(t)
    {
      d.Member(t);
    }
    FilterAll(IsLive(d, cutoff), d.keys);
  }

  lemma {:induction false} NoteAllGrows(d: Tactics, tactics: seq<string>, seen: Seen)
    requires d.Valid() && |d.keys| <= MAX_TACTICS
    ensures |d.keys| <= |NoteAll(d, tactics, seen).keys| <= MAX_TACTICS
  {
    hide Dict.Valid;
    if tactics != [] { NoteAllGrows(d, tactics[..|tactics| - 1], seen); }
  }

  lemma LearnKeeps(c: Config, s: Tracker, a: Alert)
    requires AllValid(s) && LruMatches(s) && FiredReached(c, s) && ReachedFired(c, s, a.entity)
    ensures var r := TouchEntity(Learned(s, a), a.entity);
            AllValid(r) && LruMatches(r) && FiredReached(c, r) && ReachedFired(c, r, a.entity)
  {
    var e := a.entity;
    hide Dict.Valid, NoteAll;
    KnownValid(s, e);
    NoteAllGrows(s.Known(e), a.tactics, Seen(a.ts, a.id));
    TouchKeepsNoneTwice(s.lru, e);
    TouchMembers(s.lru, e);
    hide NoneTwice, Touch;
  }

  lemma TouchMembers(names: seq<string>, e: string)
    ensures forall x :: x in Touch(names, e) <==> x in names || x == e
  {
    forall x | x in names && x != e
      ensures x in RemoveKey(names, e)
    {
      RemoveKeyFacts(names, e);
      assert x in multiset(names);
      assert x in multiset(RemoveKey(names, e));
    }
    RemoveKeyMembers(names, e);
  }

  lemma DropKeeps(c: Config, s: Tracker, but: string)
    requires s.lru != [] && AllValid(s) && LruMatches(s) && FiredReached(c, s) && ReachedFired(c, s, but)
    ensures var r := Drop(s, s.lru[0]);
            AllValid(r) && LruMatches(r) && FiredReached(c, r) && ReachedFired(c, r, but)
  {
    hide Dict.Valid;
    var e := s.lru[0];
    RemoveFirst(s.lru);
    hide RemoveKey;
    assert s.lru == [e] + s.lru[1..];
    assert e !in s.lru[1..] by {
      assert multiset(s.lru)[e] == 1 + multiset(s.lru[1..])[e];
    }
    forall k: string
      ensures multiset(s.lru[1..])[k] <= 1
    {
      assert multiset(s.lru)[k] >= multiset(s.lru[1..])[k];
    }
  }

  lemma {:induction false} EnforceKeeps(c: Config, s: Tracker, but: string)
    requires AllValid(s) && LruMatches(s) && FiredReached(c, s) && ReachedFired(c, s, but)
    ensures var r := EnforceMax(c, s);
            && AllValid(r) && LruMatches(r) && FiredReached(c, r) && ReachedFired(c, r, but)
            && |r.lru| <= c.maxEntities
    decreases |s.lru|
  {
    if |s.lru| > c.maxEntities {
      DropKeeps(c, s, but);
      RemoveKeyFacts(s.lru, s.lru[0]);
      hide AllValid, LruMatches, FiredReached, ReachedFired, RemoveKey;
      EnforceKeeps(c, Drop(s, s.lru[0]), but);
    }
  }

  lemma AbsorbKeeps(c: Config, s: Tracker, a: Alert)
    requires Consistent(c, s)
    ensures var r := Absorb(c, s, a);
            && AllValid(r) && LruMatches(r) && FiredReached(c, r) && ReachedFired(c, r, a.entity)
            && |r.lru| <= c.maxEntities
  {
    var e := a.entity;
    assert FiredReached(c, s) && ReachedFired(c, s, e);
    hide AllValid, LruMatches, FiredReached, ReachedFired, EvictStale, Learned, TouchEntity, EnforceMax, Tracker.Known;
    EvictStaleKeeps(c, s, e, Cutoff(c, a));
    var s1 := EvictStale(s, e, Cutoff(c, a));
    KnownValid(s1, e);
    LearnKeeps(c, s1, a);
    EnforceKeeps(c, TouchEntity(Learned(s1, a), e), e);
  }

  lemma CheckKeeps(c: Config, s: Tracker, e: string, now: int)
    requires AllValid(s) && LruMatches(s) && FiredReached(c, s) && ReachedFired(c, s, e)
    requires |s.lru| <= c.maxEntities && c.threshold >= 1
    ensures Consistent(c, Check(c, s, e, now).tracker)
  {
    hide Dict.Valid, NoneTwice;
  }

  lemma RecordKeeps(c: Config, s: Tracker, a: Alert)
    requires Consistent(c, s) && c.threshold >= 1
    ensures Consistent(c, Record(c, s, a).tracker)
  {
    if Counts(c, a) {
      AbsorbKeeps(c, s, a);
      hide AllValid, LruMatches, FiredReached, ReachedFired, Absorb, Consistent, Check;
      CheckKeeps(c, Absorb(c, s, a), a.entity, a.ts);
    }
  }

  // ---- runs -------------------------------------------------------------------------------------

  function Run(c: Config, alerts: seq<Alert>): (s: Tracker)
    requires c.threshold >= 1
    ensures Consistent(c, s)
  {
    if alerts == [] then EMPTY
    else
      var s := Run(c, alerts[..|alerts| - 1]);
      RecordKeeps(c, s, alerts[|alerts| - 1]);
      Record(c, s, alerts[|alerts| - 1]).tracker
  }

  /** What the tracker reports for the `i`th alert. */
  function Reported(c: Config, alerts: seq<Alert>, i: nat): Report
    requires c.threshold >= 1 && i < |alerts|
  {
    Record(c, Run(c, alerts[..i]), alerts[i]).report
  }

  // ---- evicting the least recently active entities --------------------------------------------

  /** Every entity ever looked at, the most recently active last. */
  function Activity(c: Config, alerts: seq<Alert>): seq<string> {
    if alerts == [] then []
    else
      var before, a := Activity(c, alerts[..|alerts| - 1]), alerts[|alerts| - 1];
      if Counts(c, a) then Touch(before, a.entity) else before
  }

  lemma {:induction false} EnforceCuts(c: Config, s: Tracker)
    ensures EnforceMax(c, s).lru == LastN(s.lru, c.maxEntities)
    decreases |s.lru|
  {
    if |s.lru| > c.maxEntities {
      RemoveFirst(s.lru);
      EnforceCuts(c, Drop(s, s.lru[0]));
    }
  }

  lemma RecordCuts(c: Config, s: Tracker, a: Alert)
    requires AllValid(s) && Counts(c, a)
    ensures Record(c, s, a).tracker.lru == LastN(Touch(s.lru, a.entity), c.maxEntities)
  {
    hide Touch, LastN, EnforceMax, NoteAll, AllValid, Live;
    KnownValid(s, a.entity);
    LiveValid(s.Known(a.entity), Cutoff(c, a));
    EnforceCuts(c, TouchEntity(Learned(EvictStale(s, a.entity, Cutoff(c, a)), a), a.entity));
  }

  lemma {:induction false} ActivityHasNoneTwice(c: Config, alerts: seq<Alert>)
    ensures NoneTwice(Activity(c, alerts))
  {
    if alerts != [] {
      ActivityHasNoneTwice(c, alerts[..|alerts| - 1]);
      if Counts(c, alerts[|alerts| - 1]) {
        TouchKeepsNoneTwice(Activity(c, alerts[..|alerts| - 1]), alerts[|alerts| - 1].entity);
      }
      hide NoneTwice, Touch;
    }
  }

  /** The tracked entities are always the `maxEntities` most recently active ones. */
  lemma {:induction false} TrackedAreMostRecent(c: Config, alerts: seq<Alert>)
    requires c.threshold >= 1
    ensures Run(c, alerts).lru == LastN(Activity(c, alerts), c.maxEntities)
    ensures forall e :: e in Run(c, alerts).tactics <==> e in LastN(Activity(c, alerts), c.maxEntities)
  {
    if alerts != [] {
      var init, a := alerts[..|alerts| - 1], alerts[|alerts| - 1];
      TrackedAreMostRecent(c, init);
      if Counts(c, a) {
        ActivityHasNoneTwice(c, init);
        RecordCuts(c, Run(c, init), a);
        hide Record, Touch, NoneTwice;
        if c.maxEntities >= 1 { TouchThenCut(Activity(c, init), a.entity, c.maxEntities); }
      }
    }
    assert LruMatches(Run(c, alerts));
    hide Run, LastN, NoneTwice, Activity;
  }

  // ---- what one alert does to one entity ------------------------------------------------------

  lemma {:induction false} EnforceOnlyDrops(c: Config, s: Tracker, e: string)
    requires e in EnforceMax(c, s).tactics
    ensures e in s.tactics && EnforceMax(c, s).tactics[e] == s.tactics[e]
    ensures e in EnforceMax(c, s).fired <==> e in s.fired
    decreases |s.lru|
  {
    if |s.lru| > c.maxEntities {
      RemoveKeyFacts(s.lru, s.lru[0]);
      EnforceOnlyDrops(c, Drop(s, s.lru[0]), e);
    }
  }

  // ---- evictions are counted ----------------------------------------------------------------------

  lemma {:induction false} EnforceCounts(c: Config, s: Tracker)
    ensures EnforceMax(c, s).evictions + |EnforceMax(c, s).lru| == s.evictions + |s.lru|
    decreases |s.lru|
  {
    if |s.lru| > c.maxEntities {
      RemoveKeyFacts(s.lru, s.lru[0]);
      EnforceCounts(c, Drop(s, s.lru[0]));
    }
  }

  lemma TouchCounts(names: seq<string>, e: string)
    requires NoneTwice(names)
    ensures |Touch(names, e)| == |names| + if e in names then 0 else 1
  {
    RemoveKeyFacts(names, e);
    assert e in names <==> e in multiset(names);
  }

  lemma RecordCounts(c: Config, s: Tracker, a: Alert)
    requires Consistent(c, s)
    ensures var t := Record(c, s, a).tracker;
            t.evictions + |t.lru| == s.evictions + |s.lru| + if Counts(c, a) && a.entity !in s.tactics then 1 else 0
  {
    if Counts(c, a) {
      hide Live, NoteAll, Dict.Valid, EnforceMax, Touch, NoneTwice;
      KnownValid(s, a.entity);
      LiveValid(s.Known(a.entity), Cutoff(c, a));
      TouchCounts(s.lru, a.entity);
      EnforceCounts(c, TouchEntity(Learned(EvictStale(s, a.entity, Cutoff(c, a)), a), a.entity));
    }
  }

  /** How many alerts found their entity untracked. */
  function Newcomers(c: Config, alerts: seq<Alert>): nat
    requires c.threshold >= 1
  {
    if alerts == [] then 0
    else
      var init, a := alerts[..|alerts| - 1], alerts[|alerts| - 1];
      Newcomers(c, init) + if Counts(c, a) && a.entity !in Run(c, init).tactics then 1 else 0
  }

  /** Every entity that ever came in is tracked or counted as evicted. */
  lemma {:induction false} EvictionsAreCounted(c: Config, alerts: seq<Alert>)
    requires c.threshold >= 1
    ensures Run(c, alerts).evictions + |Run(c, alerts).lru| == Newcomers(c, alerts)
  {
    if alerts != [] {
      EvictionsAreCounted(c, alerts[..|alerts| - 1]);
      hide Consistent, Record;
      RecordCounts(c, Run(c, alerts[..|alerts| - 1]), alerts[|alerts| - 1]);
    }
  }

  function After(c: Config, d: Tactics, a: Alert): (r: Tactics)
    requires d.Valid()
    ensures r.Valid()
  {
    LiveValid(d, Cutoff(c, a));
    NoteAll(Live(d, Cutoff(c, a)), a.tactics, Seen(a.ts, a.id))
  }

  /** Whether the alert makes a tactic of `e` expire. */
  predicate Expires(c: Config, s: Tracker, a: Alert, e: string) {
    Counts(c, a) && a.entity == e && HasStale(s.Known(e), Cutoff(c, a))
  }

  lemma AbsorbOf(c: Config, s: Tracker, a: Alert, e: string)
    requires AllValid(s) && Counts(c, a) && e in Absorb(c, s, a).tactics && s.Known(e).Valid()
    ensures e in s.tactics || e == a.entity
    ensures Absorb(c, s, a).tactics[e] == if e == a.entity then After(c, s.Known(e), a) else s.Known(e)
    ensures e in Absorb(c, s, a).fired <==> e in s.fired && !(e in s.tactics && Expires(c, s, a, e))
  {
    hide Dict.Valid, Live, NoteAll, EnforceMax, Touch, AllValid, HasStale;
    KnownValid(s, a.entity);
    LiveValid(s.Known(a.entity), Cutoff(c, a));
    NothingKnown(Cutoff(c, a));
    EnforceOnlyDrops(c, TouchEntity(Learned(EvictStale(s, a.entity, Cutoff(c, a)), a), a.entity), e);
  }

  lemma NothingKnown(cutoff: int)
    ensures NO_TACTICS.Valid() && Live(NO_TACTICS, cutoff) == NO_TACTICS
  {
    var none := Live(NO_TACTICS, cutoff);
    assert none.vals == map[];
  }

  // ---- reports are sound ----------------------------------------------------------------------

  /** Some alert for `e` did show the tactic at that time. */
  ghost predicate Sighted(c: Config, alerts: seq<Alert>, e: string, x: Sighting) {
    exists i :: 0 <= i < |alerts| && Shows(c, alerts[i], e, x)
  }

  predicate Shows(c: Config, a: Alert, e: string, x: Sighting) {
    Counts(c, a) && a.entity == e && x.tactic in a.tactics && x.seen == Seen(a.ts, a.id)
  }

  lemma {:induction false} NoteAllSources(d: Tactics, tactics: seq<string>, seen: Seen, t: string)
    requires d.Valid() && t in NoteAll(d, tactics, seen).vals
    ensures var r := NoteAll(d, tactics, seen);
            (t in d.vals && r.vals[t] == d.vals[t]) || (t in tactics && r.vals[t] == seen)
  {
    hide Dict.Valid;
    if tactics != [] && t in NoteAll(d, tactics[..|tactics| - 1], seen).vals {
      NoteAllSources(d, tactics[..|tactics| - 1], seen, t);
    }
  }

  lemma AfterSources(c: Config, d: Tactics, a: Alert, t: string)
    requires d.Valid() && t in After(c, d, a).vals
    ensures var r := After(c, d, a);
            && (|| (t in d.vals && r.vals[t] == d.vals[t])
                || (t in a.tactics && r.vals[t] == Seen(a.ts, a.id)))
            && r.vals[t].ts >= Cutoff(c, a)
  {
    hide Dict.Valid, NoteAll;
    LiveValid(d, Cutoff(c, a));
    NoteAllSources(Live(d, Cutoff(c, a)), a.tactics, Seen(a.ts, a.id), t);
  }

  lemma SightedLonger(c: Config, alerts: seq<Alert>, a: Alert, e: string, x: Sighting)
    requires Sighted(c, alerts, e, x) || Shows(c, a, e, x)
    ensures Sighted(c, alerts + [a], e, x)
  {
    hide Shows;
    if Shows(c, a, e, x) {
      assert (alerts + [a])[|alerts|] == a;
    } else {
      var i :| 0 <= i < |alerts| && Shows(c, alerts[i], e, x);
      assert (alerts + [a])[i] == alerts[i];
    }
  }

  /** Whatever is stored was once seen. */
  lemma {:induction false} StoredWasSighted(c: Config, alerts: seq<Alert>, e: string, t: string)
    requires c.threshold >= 1 && e in Run(c, alerts).tactics && t in Run(c, alerts).tactics[e].vals
    ensures Sighted(c, alerts, e, Sighting(t, Run(c, alerts).tactics[e].vals[t]))
    decreases |alerts|, 0
  {
    if alerts != [] {
      var init, a := alerts[..|alerts| - 1], alerts[|alerts| - 1];
      var s := Run(c, init);
      assert alerts == init + [a];
      if Counts(c, a) {
        AbsorbedWasSighted(c, init, a, e, t);
      } else {
        StoredWasSighted(c, init, e, t);
        SightedLonger(c, init, a, e, Sighting(t, s.tactics[e].vals[t]));
      }
    }
  }

  lemma {:induction false} AbsorbedWasSighted(c: Config, init: seq<Alert>, a: Alert, e: string, t: string)
    requires c.threshold >= 1 && Counts(c, a)
    requires var r := Absorb(c, Run(c, init), a); e in r.tactics && t in r.tactics[e].vals
    ensures Sighted(c, init + [a], e, Sighting(t, Absorb(c, Run(c, init), a).tactics[e].vals[t]))
    decreases |init|, 1
  {
    var s := Run(c, init);
    hide Run, Absorb, After, Sighted, AllValid;
    KnownValid(s, e);
    AbsorbOf(c, s, a, e);
    if e == a.entity { AfterSources(c, s.Known(e), a, t); }
    var x := Sighting(t, Absorb(c, s, a).tactics[e].vals[t]);
    if !Shows(c, a, e, x) {
      StoredWasSighted(c, init, e, t);
    }
    SightedLonger(c, init, a, e, x);
  }

  lemma {:induction false} OncePerKey(d: Tactics, n: nat, x: Sighting)
    requires n <= |d.keys|
    ensures multiset(Sightings(d)[..n])[x] <= multiset(d.keys[..n])[x.tactic]
  {
    if n > 0 {
      OncePerKey(d, n - 1, x);
      assert Sightings(d)[..n] == Sightings(d)[..n - 1] + [Sightings(d)[n - 1]];
      assert d.keys[..n] == d.keys[..n - 1] + [d.keys[n - 1]];
    }
  }

  lemma Twice<T>(s: seq<T>, i: nat, j: nat)
    requires i < j < |s| && s[i] == s[j]
    ensures multiset(s)[s[i]] >= 2
  {
    assert s == s[..j] + [s[j]] + s[j + 1..];
    assert s[i] in s[..j];
  }

  lemma AtMostOnce(d: Tactics, x: Sighting)
    requires d.Valid()
    ensures multiset(Sightings(d))[x] <= 1
  {
    OncePerKey(d, |d.keys|, x);
    assert Sightings(d)[..|d.keys|] == Sightings(d) && d.keys[..|d.keys|] == d.keys;
    hide Sightings;
  }

  lemma SightingOf(d: Tactics, x: Sighting)
    requires d.Valid() && x in Sightings(d)
    ensures x.tactic in d.vals && x.seen == d.vals[x.tactic]
  {
    var i :| 0 <= i < |d.keys| && x == Sightings(d)[i];
    d.Member(d.keys[i]);
  }

  /** The entries of a report are the stored sightings, each tactic once, by first sighting. */
  lemma SortedSightings(d: Tactics)
    requires d.Valid()
    ensures var r := SortBy(FirstSeen, Sightings(d));
            && |r| == |d.keys| && SortedBy(FirstSeen, r)
            && (forall x :: x in r ==> x.tactic in d.vals && x.seen == d.vals[x.tactic])
            && (forall i, j :: 0 <= i < j < |r| ==> r[i].tactic != r[j].tactic)
  {
    var all := Sightings(d);
    var r := SortBy(FirstSeen, all);
    SortBySorted(FirstSeen, all);
    MultisetMember(r, all);
    forall x | x in r
      ensures x.tactic in d.vals && x.seen == d.vals[x.tactic]
    {
      SightingOf(d, x);
    }
    hide SortBy, Sightings, Dict.Valid, SortedBy;
    forall i, j | 0 <= i < j < |r|
      ensures r[i].tactic != r[j].tactic
    {
      assert r[i] in r && r[j] in r;
      AtMostOnce(d, r[i]);
      if r[i].tactic == r[j].tactic { Twice(r, i, j); }
    }
  }

  predicate InWindow(c: Config, a: Alert, x: Sighting) { x.seen.ts >= a.ts - c.windowNs }

  lemma KnownInWindow(c: Config, s: Tracker, a: Alert, t: string)
    requires Consistent(c, s) && Counts(c, a)
    requires var r := Absorb(c, s, a); a.entity in r.tactics && t in r.tactics[a.entity].vals
    ensures Absorb(c, s, a).tactics[a.entity].vals[t].ts >= Cutoff(c, a)
  {
    hide Absorb, After;
    KnownValid(s, a.entity);
    AbsorbOf(c, s, a, a.entity);
    AfterSources(c, s.Known(a.entity), a, t);
  }

  /** Every report lists, for the alert's entity, at least `threshold` different tactics
      in the order of their first sighting; each was really seen in an alert of the
      run, and none before the window that ends with the alert. */
  lemma ReportIsSound(c: Config, alerts: seq<Alert>, i: nat)
    requires c.threshold >= 1 && i < |alerts| && Reported(c, alerts, i).Report?
    ensures var r, a := Reported(c, alerts, i), alerts[i];
            && r.entity == a.entity && r.ts == a.ts
            && |r.entries| >= c.threshold
            && SortedBy(FirstSeen, r.entries)
            && (forall j, k :: 0 <= j < k < |r.entries| ==> r.entries[j].tactic != r.entries[k].tactic)
            && (forall x :: x in r.entries ==> InWindow(c, a, x) && Sighted(c, alerts[..i] + [a], a.entity, x))
  {
    var s, a := Run(c, alerts[..i]), alerts[i];
    var mid := Absorb(c, s, a);
    hide Absorb, Sighted, Run, Sightings, SortBy;
    AbsorbKeeps(c, s, a);
    KnownValid(mid, a.entity);
    SortedSightings(mid.Known(a.entity));
    hide SortedBy;
    var r := Reported(c, alerts, i);
    forall x | x in r.entries
      ensures InWindow(c, a, x) && Sighted(c, alerts[..i] + [a], a.entity, x)
    {
      KnownInWindow(c, s, a, x.tactic);
      AbsorbedWasSighted(c, alerts[..i], a, a.entity, x.tactic);
    }
  }

  // ---- between two reports ------------------------------------------------------------------------

  /** The alert makes a tactic of `e` expire, or evicts `e`. */
  predicate Loses(c: Config, s: Tracker, a: Alert, e: string)
    requires AllValid(s)
  {
    Expires(c, s, a, e) || (e in s.tactics && e !in Record(c, s, a).tracker.tactics)
  }

  lemma FiredStays(c: Config, s: Tracker, a: Alert, e: string)
    requires Consistent(c, s) && e in s.fired && !Loses(c, s, a, e)
    ensures e in Record(c, s, a).tracker.fired
    ensures var r := Record(c, s, a).report; r.Report? ==> r.entity != e
  {
    if Counts(c, a) {
      hide Absorb, AllValid, Expires;
      KnownValid(s, e);
      AbsorbOf(c, s, a, e);
    }
  }

  predicate LosesAt(c: Config, alerts: seq<Alert>, e: string, m: nat)
    requires c.threshold >= 1 && m < |alerts|
  {
    Loses(c, Run(c, alerts[..m]), alerts[m], e)
  }

  lemma RunOneMore(c: Config, alerts: seq<Alert>, m: nat)
    requires c.threshold >= 1 && m < |alerts|
    ensures Run(c, alerts[..m + 1]) == Record(c, Run(c, alerts[..m]), alerts[m]).tracker
  {
    hide Record;
    assert alerts[..m + 1][..m] == alerts[..m];
  }

  lemma ReportFires(c: Config, alerts: seq<Alert>, i: nat)
    requires c.threshold >= 1 && i < |alerts| && Reported(c, alerts, i).Report?
    ensures alerts[i].entity in Run(c, alerts[..i + 1]).fired
  {
    RunOneMore(c, alerts, i);
    hide Run, Absorb, Consistent, Reached;
  }

  lemma {:induction false} FiredWhileNothingLost(c: Config, alerts: seq<Alert>, i: nat, m: nat)
    requires c.threshold >= 1 && i < m <= |alerts| && Reported(c, alerts, i).Report?
    requires forall n :: i < n < m ==> !LosesAt(c, alerts, alerts[i].entity, n)
    ensures alerts[i].entity in Run(c, alerts[..m]).fired
  {
    hide Run, Record, Loses, Consistent, Reported;
    if m == i + 1 {
      ReportFires(c, alerts, i);
    } else {
      FiredWhileNothingLost(c, alerts, i, m - 1);
      RunOneMore(c, alerts, m - 1);
      assert !LosesAt(c, alerts, alerts[i].entity, m - 1);
      FiredStays(c, Run(c, alerts[..m - 1]), alerts[m - 1], alerts[i].entity);
    }
  }

  /** An entity is reported again only after one of its tactics expired or it was evicted. */
  lemma BetweenReports(c: Config, alerts: seq<Alert>, i: nat, j: nat)
    requires c.threshold >= 1 && i < j < |alerts|
    requires Reported(c, alerts, i).Report? && Reported(c, alerts, j).Report?
    requires alerts[i].entity == alerts[j].entity
    ensures exists m :: i < m <= j && LosesAt(c, alerts, alerts[i].entity, m)
  {
    if forall m :: i < m <= j ==> !LosesAt(c, alerts, alerts[i].entity, m) {
      FiredWhileNothingLost(c, alerts, i, j);
      assert !LosesAt(c, alerts, alerts[i].entity, j);
      FiredStays(c, Run(c, alerts[..j]), alerts[j], alerts[i].entity);
      assert false;
    }
  }

  // ---- exactly what is remembered -------------------------------------------------------------------

  function Lookup(d: Tactics, t: string): Option<Seen> {
    if t in d.vals then Some(d.vals[t]) else None
  }

  function NextAnchor(c: Config, kept: Option<Seen>, a: Alert, t: string): Option<Seen> {
    var live := if kept.Some? && kept.value.ts >= Cutoff(c, a) then kept else None;
    if live.None? && t in a.tactics then Some(Seen(a.ts, a.id)) else live
  }

  /** The first sighting of a tactic since its last one expired, over the alerts of one entity. */
  function Anchor(c: Config, heard: seq<Alert>, t: string): Option<Seen> {
    if heard == [] then None
    else NextAnchor(c, Anchor(c, heard[..|heard| - 1], t), heard[|heard| - 1], t)
  }

  /** The alerts of `e` since it was last evicted. */
  function Heard(c: Config, alerts: seq<Alert>, e: string): seq<Alert>
    requires c.threshold >= 1
  {
    if alerts == [] || e !in Run(c, alerts).tactics then []
    else
      var before, a := Heard(c, alerts[..|alerts| - 1], e), alerts[|alerts| - 1];
      if Counts(c, a) && a.entity == e then before + [a] else before
  }

  lemma RoomLeft(d: Tactics, names: set<string>, t: string)
    requires d.Valid() && d.vals.Keys <= names && |names| <= MAX_TACTICS && t in names && t !in d.vals
    ensures |d.keys| < MAX_TACTICS
  {
    d.SizeIs();
    assert |d.vals| == |d.vals.Keys|;
    assert t !in d.vals.Keys && names == (d.vals.Keys + {t}) + (names - (d.vals.Keys + {t}));
    assert |d.vals.Keys + {t}| == |d.vals.Keys| + 1;
  }

  lemma {:induction false} NoteAllLooksUp(d: Tactics, tactics: seq<string>, seen: Seen, names: set<string>)
    requires d.Valid() && d.vals.Keys <= names && |names| <= MAX_TACTICS && forall t :: t in tactics ==> t in names
    ensures var r := NoteAll(d, tactics, seen);
            && r.vals.Keys <= names
            && forall t :: Lookup(r, t) ==
                 if t in d.vals then Some(d.vals[t]) else if t in tactics then Some(seen) else None
  {
    hide Dict.Valid;
    if tactics != [] {
      var n := |tactics| - 1;
      NoteAllLooksUp(d, tactics[..n], seen, names);
      assert tactics == tactics[..n] + [tactics[n]];
      var before := NoteAll(d, tactics[..n], seen);
      if tactics[n] !in before.vals { RoomLeft(before, names, tactics[n]); }
      assert forall t :: t in d.vals ==> Lookup(before, t) == Some(d.vals[t]);
      assert forall t :: t in tactics[..n] ==> Lookup(before, t).Some?;
    }
  }

  lemma AfterLooksUp(c: Config, d: Tactics, a: Alert, names: set<string>, t: string)
    requires d.Valid() && Live(d, Cutoff(c, a)).vals.Keys <= names && |names| <= MAX_TACTICS
    requires forall x :: x in a.tactics ==> x in names
    ensures Lookup(After(c, d, a), t) == NextAnchor(c, Lookup(d, t), a, t)
  {
    hide Dict.Valid, NoteAll;
    LiveValid(d, Cutoff(c, a));
    NoteAllLooksUp(Live(d, Cutoff(c, a)), a.tactics, Seen(a.ts, a.id), names);
  }

  /** What is stored about an entity is exactly the anchor of every tactic. */
  ghost predicate Anchored(c: Config, d: Tactics, heard: seq<Alert>) {
    forall t :: Lookup(d, t) == Anchor(c, heard, t)
  }

  function Used(heard: seq<Alert>): set<string> {
    set a, t | a in heard && t in a.tactics :: t
  }

  lemma {:induction false} AnchorIsUsed(c: Config, heard: seq<Alert>, t: string)
    ensures Anchor(c, heard, t).Some? ==> t in Used(heard)
  {
    if heard != [] {
      var n := |heard| - 1;
      AnchorIsUsed(c, heard[..n], t);
      assert heard == heard[..n] + [heard[n]];
      assert t in Used(heard) <==> t in Used(heard[..n]) || t in heard[n].tactics;
    }
  }

  /** The tactics with an anchor. */
  function Standing(c: Config, heard: seq<Alert>): set<string> {
    set t | t in Used(heard) && Anchor(c, heard, t).Some?
  }

  lemma StandingIff(c: Config, heard: seq<Alert>, t: string)
    ensures t in Standing(c, heard) <==> Anchor(c, heard, t).Some?
  {
    AnchorIsUsed(c, heard, t);
  }

  lemma AnchoredSize(c: Config, d: Tactics, heard: seq<Alert>)
    requires d.Valid() && Anchored(c, d, heard)
    ensures |Standing(c, heard)| == |d.keys|
  {
    hide Standing, Anchor, Dict.Valid;
    forall t
      ensures t in d.vals.Keys <==> t in Standing(c, heard)
    {
      StandingIff(c, heard, t);
      assert Lookup(d, t) == Anchor(c, heard, t);
    }
    assert d.vals.Keys == Standing(c, heard);
    d.SizeIs();
    assert |d.vals| == |d.vals.Keys|;
  }

  lemma AnchoredNext(c: Config, d: Tactics, heard: seq<Alert>, a: Alert)
    requires d.Valid() && Anchored(c, d, heard) && |Standing(c, heard + [a])| <= MAX_TACTICS
    ensures Anchored(c, After(c, d, a), heard + [a])
  {
    hide After, Dict.Valid, Standing;
    assert (heard + [a])[..|heard|] == heard;
    var names := Standing(c, heard + [a]);
    forall t | t in Live(d, Cutoff(c, a)).vals.Keys || t in a.tactics
      ensures t in names
    {
      StandingIff(c, heard + [a], t);
      assert Lookup(d, t) == Anchor(c, heard, t);
    }
    forall t
      ensures Lookup(After(c, d, a), t) == Anchor(c, heard + [a], t)
    {
      AfterLooksUp(c, d, a, names, t);
      assert Lookup(d, t) == Anchor(c, heard, t);
    }
  }

  /** At no moment of the run would more than 14 tactics of `e` have an anchor. */
  ghost predicate Roomy(c: Config, alerts: seq<Alert>, e: string)
    requires c.threshold >= 1
  {
    forall n :: 0 <= n <= |alerts| ==> |Standing(c, Heard(c, alerts[..n], e))| <= 14
  }

  lemma RoomyBefore(c: Config, alerts: seq<Alert>, e: string)
    requires c.threshold >= 1 && alerts != [] && Roomy(c, alerts, e)
    ensures Roomy(c, alerts[..|alerts| - 1], e) && |Standing(c, Heard(c, alerts, e))| <= MAX_TACTICS
  {
    RoomyPrefix(c, alerts, e, |alerts| - 1);
    hide Heard, Standing;
    assert |Standing(c, Heard(c, alerts[..|alerts|], e))| <= MAX_TACTICS;
    assert alerts[..|alerts|] == alerts;
  }

  /** The tracker remembers of a tracked entity exactly the anchors of the alerts since
      it was last evicted, as long as they never exceed the cap on tactics. */
  lemma {:induction false} TrackedIsAnchored(c: Config, alerts: seq<Alert>, e: string)
    requires c.threshold >= 1 && Roomy(c, alerts, e) && e in Run(c, alerts).tactics
    ensures Anchored(c, Run(c, alerts).tactics[e], Heard(c, alerts, e))
    decreases |alerts|, 0
  {
    if alerts != [] {
      var n := |alerts| - 1;
      var init, a := alerts[..n], alerts[n];
      RoomyBefore(c, alerts, e);
      var s := Run(c, init);
      if Counts(c, a) {
        hide Absorb, Anchored, After, Roomy, Standing;
        KnownValid(s, e);
        AbsorbOf(c, s, a, e);
        KnownIsAnchored(c, init, e);
        if e == a.entity { AnchoredNext(c, s.Known(e), Heard(c, init, e), a); }
      } else {
        TrackedIsAnchored(c, init, e);
      }
    }
  }

  lemma {:induction false} KnownIsAnchored(c: Config, alerts: seq<Alert>, e: string)
    requires c.threshold >= 1 && Roomy(c, alerts, e)
    ensures Anchored(c, Run(c, alerts).Known(e), Heard(c, alerts, e))
    decreases |alerts|, 1
  {
    hide Run, Roomy;
    if e in Run(c, alerts).tactics { TrackedIsAnchored(c, alerts, e); }
  }

  ghost predicate AnchoredAt(c: Config, alerts: seq<Alert>, e: string, n: nat)
    requires c.threshold >= 1 && n <= |alerts|
  {
    Anchored(c, Run(c, alerts[..n]).Known(e), Heard(c, alerts[..n], e))
  }

  /** Exactly when it remembers the anchors at every moment. */
  lemma AnchoredIff(c: Config, alerts: seq<Alert>, e: string)
    requires c.threshold >= 1
    ensures (forall n :: 0 <= n <= |alerts| ==> AnchoredAt(c, alerts, e, n)) <==> Roomy(c, alerts, e)
  {
    hide Run, Anchored, Heard, Standing;
    if Roomy(c, alerts, e) {
      forall n | 0 <= n <= |alerts|
        ensures AnchoredAt(c, alerts, e, n)
      {
        RoomyPrefix(c, alerts, e, n);
        KnownIsAnchored(c, alerts[..n], e);
      }
    }
    if forall n :: 0 <= n <= |alerts| ==> AnchoredAt(c, alerts, e, n) {
      forall n | 0 <= n <= |alerts|
        ensures |Standing(c, Heard(c, alerts[..n], e))| <= MAX_TACTICS
      {
        assert AnchoredAt(c, alerts, e, n);
        KnownValid(Run(c, alerts[..n]), e);
        AnchoredSize(c, Run(c, alerts[..n]).Known(e), Heard(c, alerts[..n], e));
      }
    }
  }

  lemma RoomyPrefix(c: Config, alerts: seq<Alert>, e: string, n: nat)
    requires c.threshold >= 1 && n <= |alerts| && Roomy(c, alerts, e)
    ensures Roomy(c, alerts[..n], e)
  {
    hide Heard, Standing;
    assert forall m :: 0 <= m <= n ==> alerts[..n][..m] == alerts[..m];
  }

  /** ATT&CK has 14 tactics: with at most as many names the cap never binds. */
  predicate FewTactics(alerts: seq<Alert>, names: set<string>) {
    |names| <= 14 && forall a :: a in alerts ==> forall t :: t in a.tactics ==> t in names
  }

  lemma FewTacticsAreRoomy(c: Config, alerts: seq<Alert>, names: set<string>, e: string)
    requires c.threshold >= 1 && FewTactics(alerts, names)
    ensures Roomy(c, alerts, e)
  {
    hide Run, Heard, Anchor;
    forall n | 0 <= n <= |alerts|
      ensures |Standing(c, Heard(c, alerts[..n], e))| <= MAX_TACTICS
    {
      HeardIn(c, alerts[..n], e);
      var standing := Standing(c, Heard(c, alerts[..n], e));
      assert standing <= names;
      assert names == standing + (names - standing);
    }
  }

  /** An entity has fired if and only if it is tracked and enough tactics are anchored. */
  lemma FiredIff(c: Config, alerts: seq<Alert>, e: string)
    requires c.threshold >= 1 && Roomy(c, alerts, e)
    ensures e in Run(c, alerts).fired
       <==> e in Run(c, alerts).tactics && |Standing(c, Heard(c, alerts, e))| >= c.threshold
  {
    var s := Run(c, alerts);
    hide Run, Anchor, Heard, Standing, Roomy;
    if e in s.tactics {
      TrackedIsAnchored(c, alerts, e);
      AnchoredSize(c, s.tactics[e], Heard(c, alerts, e));
    }
  }

  /** No alert is so late that an earlier sighting has left the window. */
  predicate Unexpired(c: Config, heard: seq<Alert>) {
    forall i, j :: 0 <= i < j < |heard| ==> heard[i].ts >= Cutoff(c, heard[j])
  }

  lemma {:induction false} UnexpiredAnchor(c: Config, heard: seq<Alert>, t: string)
    requires Unexpired(c, heard)
    ensures Anchor(c, heard, t).Some? <==> t in Used(heard)
    ensures Anchor(c, heard, t).Some? ==> exists i :: 0 <= i < |heard| && Anchor(c, heard, t).value.ts == heard[i].ts
  {
    if heard != [] {
      var n := |heard| - 1;
      UnexpiredAnchor(c, heard[..n], t);
      assert heard == heard[..n] + [heard[n]];
      var before := Anchor(c, heard[..n], t);
      if before.Some? {
        var i :| 0 <= i < n && before.value.ts == heard[..n][i].ts;
        assert heard[i].ts >= Cutoff(c, heard[n]);
      }
      assert t in Used(heard) <==> t in Used(heard[..n]) || t in heard[n].tactics;
    }
  }

  /** While nothing has expired, firing is exact: the entity has fired if and only if
      its alerts since the last eviction show at least `threshold` tactics. */
  lemma UnexpiredFiresIff(c: Config, alerts: seq<Alert>, e: string)
    requires c.threshold >= 1 && Roomy(c, alerts, e)
    requires e in Run(c, alerts).tactics && Unexpired(c, Heard(c, alerts, e))
    ensures e in Run(c, alerts).fired <==> |Used(Heard(c, alerts, e))| >= c.threshold
  {
    var heard := Heard(c, alerts, e);
    FiredIff(c, alerts, e);
    hide Run, Heard, Anchor, Unexpired, Roomy;
    forall t
      ensures t in Standing(c, heard) <==> t in Used(heard)
    {
      UnexpiredAnchor(c, heard, t);
      StandingIff(c, heard, t);
    }
    assert Standing(c, heard) == Used(heard);
  }

  // ---- every firing is reported -------------------------------------------------------------------

  lemma RecordReports(c: Config, s: Tracker, a: Alert)
    requires AllValid(s)
    ensures var r := Record(c, s, a);
            r.report.Report? <==> Counts(c, a) && a.entity in r.tracker.fired && a.entity !in Absorb(c, s, a).fired
  {
    hide Absorb, AllValid;
  }

  lemma AbsorbedFired(c: Config, s: Tracker, a: Alert)
    requires Consistent(c, s) && c.threshold >= 1 && Counts(c, a) && a.entity in Record(c, s, a).tracker.fired
    ensures a.entity in Absorb(c, s, a).fired <==> a.entity in s.fired && !Expires(c, s, a, a.entity)
  {
    RecordKeeps(c, s, a);
    hide Absorb, AllValid, Expires, LruMatches;
    KnownValid(s, a.entity);
    AbsorbOf(c, s, a, a.entity);
  }

  /** An alert is reported if and only if after it its entity has fired, and before it the
      entity had not, or one of its tactics expired with this alert. */
  lemma ReportedIff(c: Config, alerts: seq<Alert>, i: nat)
    requires c.threshold >= 1 && i < |alerts|
    ensures var e := alerts[i].entity;
            Reported(c, alerts, i).Report? <==>
              && c.enabled && alerts[i].tactics != [] && e != ""
              && e in Run(c, alerts[..i + 1]).fired
              && (e !in Run(c, alerts[..i]).fired || LosesAt(c, alerts, e, i))
  {
    hide Absorb, Run, Expires, Loses;
    var s, a := Run(c, alerts[..i]), alerts[i];
    RunOneMore(c, alerts, i);
    RecordReports(c, s, a);
    if Counts(c, a) && a.entity in Record(c, s, a).tracker.fired {
      AbsorbedFired(c, s, a);
      FiredLosesOnlyTactics(c, s, a);
    }
    hide Record;
  }

  lemma FiredLosesOnlyTactics(c: Config, s: Tracker, a: Alert)
    requires Consistent(c, s) && c.threshold >= 1 && a.entity in Record(c, s, a).tracker.fired
    ensures Loses(c, s, a, a.entity) <==> Expires(c, s, a, a.entity)
  {
    RecordKeeps(c, s, a);
    hide Record, Expires, AllValid, LruMatches, Reached;
  }

  /** And the report shows all that stands: one entry for every standing tactic, with its
      anchor. */
  lemma ReportShowsStanding(c: Config, alerts: seq<Alert>, i: nat, t: string)
    requires c.threshold >= 1 && i < |alerts| && Reported(c, alerts, i).Report?
    requires Roomy(c, alerts[..i + 1], alerts[i].entity)
    ensures var heard, entries := Heard(c, alerts[..i + 1], alerts[i].entity), Reported(c, alerts, i).entries;
            && |entries| == |Standing(c, heard)|
            && (t in Standing(c, heard) <==> exists x :: x in entries && x.tactic == t)
            && forall x :: x in entries && x.tactic == t ==> Anchor(c, heard, t) == Some(x.seen)
  {
    var e, d := alerts[i].entity, Run(c, alerts[..i + 1]).Known(alerts[i].entity);
    ReportLists(c, alerts, i);
    hide Run, Heard, Standing, Anchor, Roomy, Reported, Sightings, SortBy;
    KnownValid(Run(c, alerts[..i + 1]), e);
    KnownIsAnchored(c, alerts[..i + 1], e);
    AnchoredSize(c, d, Heard(c, alerts[..i + 1], e));
    StandingIff(c, Heard(c, alerts[..i + 1], e), t);
    assert Lookup(d, t) == Anchor(c, Heard(c, alerts[..i + 1], e), t);
    SightingsLookUp(d, t);
    SameMembers(SortBy(FirstSeen, Sightings(d)), Sightings(d));
  }

  lemma ReportLists(c: Config, alerts: seq<Alert>, i: nat)
    requires c.threshold >= 1 && i < |alerts| && Reported(c, alerts, i).Report?
    ensures Reported(c, alerts, i).entries
         == SortBy(FirstSeen, Sightings(Run(c, alerts[..i + 1]).Known(alerts[i].entity)))
  {
    RunOneMore(c, alerts, i);
    hide Run, Absorb, Consistent, Sightings, SortBy, Reached;
  }

  lemma SameMembers(a: seq<Sighting>, b: seq<Sighting>)
    requires multiset(a) == multiset(b)
    ensures forall x :: x in a <==> x in b
  {
    MultisetMember(a, b);
    MultisetMember(b, a);
  }

  lemma SightingsLookUp(d: Tactics, t: string)
    requires d.Valid()
    ensures |Sightings(d)| == |d.keys|
    ensures Lookup(d, t).Some? <==> exists x :: x in Sightings(d) && x.tactic == t
    ensures forall x :: x in Sightings(d) && x.tactic == t ==> Lookup(d, t) == Some(x.seen)
  {
    d.Member(t);
    hide Dict.Valid;
    if t in d.keys {
      var i :| 0 <= i < |d.keys| && d.keys[i] == t;
      assert Sightings(d)[i].tactic == t;
      assert Sightings(d)[i] in Sightings(d);
    }
  }

  // ---- firing against the tactics seen inside the window --------------------------------------------

  /** The tactics seen within the window that ends with the latest alert. */
  function Recent(c: Config, heard: seq<Alert>): set<string> {
    if heard == [] then {}
    else set a, t | a in heard && a.ts >= Cutoff(c, heard[|heard| - 1]) && t in a.tactics :: t
  }

  /** At the k-th alert, the anchor of the tactic has left the window. */
  predicate AnchorExpires(c: Config, heard: seq<Alert>, k: nat, t: string)
    requires k < |heard|
  {
    var anchor := Anchor(c, heard[..k], t);
    anchor.Some? && anchor.value.ts < Cutoff(c, heard[k])
  }

  /** The tactic expired at some alert and was not seen there or later. */
  ghost predicate Lapsed(c: Config, heard: seq<Alert>, t: string) {
    exists k :: 0 <= k < |heard| && AnchorExpires(c, heard, k, t) && Unseen(heard, k, t)
  }

  predicate Unseen(heard: seq<Alert>, k: nat, t: string)
    requires k <= |heard|
  {
    forall m :: k <= m < |heard| ==> t !in heard[m].tactics
  }

  lemma LapsedNext(c: Config, init: seq<Alert>, a: Alert, t: string)
    ensures Lapsed(c, init + [a], t) <==>
            t !in a.tactics && (Lapsed(c, init, t) || AnchorExpires(c, init + [a], |init|, t))
  {
    hide Anchor;
    var n, heard := |init|, init + [a];
    assert heard[n] == a && heard[..n] == init;
    assert forall k :: 0 <= k < n ==> heard[..k] == init[..k];
    if Lapsed(c, heard, t) {
      var k :| 0 <= k < |heard| && AnchorExpires(c, heard, k, t) && Unseen(heard, k, t);
      if k < n {
        assert AnchorExpires(c, init, k, t);
        assert forall m :: k <= m < n ==> heard[m] == init[m];
        assert Unseen(init, k, t);
      }
    }
    if t !in a.tactics && Lapsed(c, init, t) {
      var k :| 0 <= k < n && AnchorExpires(c, init, k, t) && Unseen(init, k, t);
      assert AnchorExpires(c, heard, k, t) && Unseen(heard, k, t);
    }
    if t !in a.tactics && AnchorExpires(c, heard, n, t) { assert Unseen(heard, n, t); }
  }

  /** A tactic that was ever seen stands if and only if it has not lapsed. */
  lemma {:induction false} SeenStandsIff(c: Config, heard: seq<Alert>, t: string)
    ensures t in Used(heard) ==> (Anchor(c, heard, t).Some? <==> !Lapsed(c, heard, t))
  {
    hide Lapsed;
    if heard != [] {
      var n := |heard| - 1;
      SeenStandsIff(c, heard[..n], t);
      assert heard == heard[..n] + [heard[n]];
      LapsedNext(c, heard[..n], heard[n], t);
      assert t in Used(heard) <==> t in Used(heard[..n]) || t in heard[n].tactics;
      AnchorIsUsed(c, heard[..n], t);
    }
  }

  lemma {:induction false} AnchorWasSeen(c: Config, heard: seq<Alert>, t: string)
    requires Anchor(c, heard, t).Some?
    ensures exists a :: a in heard && t in a.tactics && a.ts == Anchor(c, heard, t).value.ts
    ensures Anchor(c, heard, t).value.ts >= Cutoff(c, heard[|heard| - 1])
  {
    var n := |heard| - 1;
    assert heard == heard[..n] + [heard[n]];
    if Anchor(c, heard[..n], t).Some? {
      AnchorWasSeen(c, heard[..n], t);
      var a :| a in heard[..n] && t in a.tactics && a.ts == Anchor(c, heard[..n], t).value.ts;
      assert a in heard;
    }
    assert heard[n] in heard;
  }

  /** What stands was seen inside the window. Exactly when no tactic seen there has
      lapsed, all of it stands. */
  lemma StandingIsRecentIff(c: Config, heard: seq<Alert>)
    ensures Standing(c, heard) <= Recent(c, heard)
    ensures Standing(c, heard) == Recent(c, heard) <==> forall t :: t in Recent(c, heard) ==> !Lapsed(c, heard, t)
  {
    hide Anchor, Lapsed, Standing, Used, Recent;
    forall t
      ensures t in Standing(c, heard) ==> t in Recent(c, heard)
      ensures t in Recent(c, heard) ==> (t in Standing(c, heard) <==> !Lapsed(c, heard, t))
    {
      StandingIff(c, heard, t);
      SeenStandsIff(c, heard, t);
      RecentIsUsed(c, heard, t);
      if t in Standing(c, heard) { StandsInWindow(c, heard, t); }
    }
  }

  lemma RecentIsUsed(c: Config, heard: seq<Alert>, t: string)
    ensures t in Recent(c, heard) ==> t in Used(heard)
  {
  }

  lemma StandsInWindow(c: Config, heard: seq<Alert>, t: string)
    requires Anchor(c, heard, t).Some?
    ensures t in Recent(c, heard)
  {
    AnchorWasSeen(c, heard, t);
  }

  /** Whoever has fired showed `threshold` tactics inside the window; and whoever shows as
      many has fired, unless one of them has lapsed. */
  lemma FiresWithinWindow(c: Config, alerts: seq<Alert>, e: string)
    requires c.threshold >= 1 && Roomy(c, alerts, e)
    ensures var recent := Recent(c, Heard(c, alerts, e));
            && (e in Run(c, alerts).fired ==> |recent| >= c.threshold)
            && ((forall t :: t in recent ==> !Lapsed(c, Heard(c, alerts, e), t)) ==>
                  (e in Run(c, alerts).fired <==> e in Run(c, alerts).tactics && |recent| >= c.threshold))
  {
    hide Run, Heard, Standing, Recent, Lapsed, Roomy;
    var heard := Heard(c, alerts, e);
    FiredIff(c, alerts, e);
    StandingIsRecentIff(c, heard);
    var standing, recent := Standing(c, heard), Recent(c, heard);
    assert recent == standing + (recent - standing);
  }

  lemma {:induction false} HeardIn(c: Config, alerts: seq<Alert>, e: string)
    requires c.threshold >= 1
    ensures forall a :: a in Heard(c, alerts, e) ==> a in alerts
  {
    if alerts != [] {
      hide Run;
      HeardIn(c, alerts[..|alerts| - 1], e);
    }
  }

  function Missed(c: Config, e: string): seq<Alert> {
    [Alert("1", 0, e, ["execution"]), Alert("2", c.windowNs, e, ["execution"]),
     Alert("3", c.windowNs + 1, e, ["impact"])]
  }

  /** In general it is not: a tactic seen twice is forgotten with its first sighting, so
      two tactics seen within one window of each other need not be reported. */
  lemma CombinationIsMissed(c: Config, e: string)
    requires c.enabled && c.threshold == 2 && c.windowNs >= 1 && c.maxEntities >= 1 && e != ""
    ensures var alerts := Missed(c, e);
            && alerts[1].ts >= Cutoff(c, alerts[2]) && alerts[1].tactics != alerts[2].tactics
            && Reported(c, alerts, 2) == NoReport && e !in Run(c, alerts).fired
  {
    var alerts, names := Missed(c, e), {"execution", "impact"};
    assert FewTactics(alerts, names);
    OneStanding(c, e);
    assert alerts[..3] == alerts;
    hide Run, Heard, Standing, FewTactics, Reported, Roomy;
    AllHeard(c, alerts, e);
    FewTacticsAreRoomy(c, alerts, names, e);
    FiredIff(c, alerts, e);
    if Reported(c, alerts, 2).Report? { ReportFires(c, alerts, 2); }
  }

  lemma OneStanding(c: Config, e: string)
    requires c.windowNs >= 1
    ensures |Standing(c, Missed(c, e))| <= 1
  {
    var alerts := Missed(c, e);
    assert alerts[..2][..1][..0] == [];
    assert Anchor(c, alerts[..2][..1], "execution") == Some(Seen(0, "1"));
    assert Anchor(c, alerts[..2], "execution") == Some(Seen(0, "1"));
    assert Anchor(c, alerts, "execution") == None;
    hide Anchor;
    SubsetSize(Standing(c, alerts), "impact");
  }

  lemma SubsetSize(names: set<string>, t: string)
    requires names <= {t}
    ensures |names| <= 1
  {
    if t in names { assert names == {t}; } else { assert names == {}; }
  }

  predicate AllFrom(c: Config, alerts: seq<Alert>, e: string) {
    forall i :: 0 <= i < |alerts| ==> Counts(c, alerts[i]) && alerts[i].entity == e
  }

  lemma {:induction false} AllHeard(c: Config, alerts: seq<Alert>, e: string)
    requires c.threshold >= 1 && c.maxEntities >= 1 && AllFrom(c, alerts, e)
    ensures Heard(c, alerts, e) == alerts
  {
    hide Run, Counts;
    if alerts != [] {
      var n := |alerts| - 1;
      var init := alerts[..n];
      OnlyTracked(c, alerts, e);
      AllHeard(c, init, e);
      assert Heard(c, alerts, e) == init + [alerts[n]];
    }
  }

  lemma OnlyTracked(c: Config, alerts: seq<Alert>, e: string)
    requires c.threshold >= 1 && c.maxEntities >= 1 && AllFrom(c, alerts, e) && alerts != []
    ensures e in Run(c, alerts).tactics
  {
    hide Run, RemoveKey, NoneTwice;
    TrackedAreMostRecent(c, alerts);
    assert Activity(c, alerts) == RemoveKey(Activity(c, alerts[..|alerts| - 1]), e) + [e];
    var cut := LastN(Activity(c, alerts), c.maxEntities);
    assert cut[|cut| - 1] == e;
  }

  // ---- the tracker itself -----------------------------------------------------------------------------

  function IsStale(d: Tactics, cutoff: int): string -> bool {
    t => t in d.vals && d.vals[t].ts < cutoff
  }

  function NotAmong(gone: seq<string>): string -> bool {
    t => t !in gone
  }

  function Without(d: Tactics, gone: seq<string>): Tactics {
    Dict(Filter(NotAmong(gone), d.keys), map t | t in d.vals && t !in gone :: d.vals[t])
  }

  lemma OneMoreKeys(keys: seq<string>, gone: seq<string>, t: string)
    requires multiset(Filter(NotAmong(gone), keys))[t] <= 1
    ensures Filter(NotAmong(gone + [t]), keys) == RemoveKey(Filter(NotAmong(gone), keys), t)
  {
    hide RemoveKey, Filter;
    RemoveKeyIsFilter(Filter(NotAmong(gone), keys), t);
    forall x | x in keys
      ensures NotAmong(gone + [t])(x) == (NotAmong(gone)(x) && OtherThan(t)(x))
    {
    }
    FilterTwice(NotAmong(gone), OtherThan(t), NotAmong(gone + [t]), keys);
  }

  lemma WithoutOneMore(d: Tactics, gone: seq<string>, t: string)
    requires Without(d, gone).Valid()
    ensures Without(d, gone + [t]) == Without(d, gone).Remove(t)
  {
    hide RemoveKey, Filter;
    assert multiset(Without(d, gone).keys)[t] <= 1;
    OneMoreKeys(d.keys, gone, t);
    hide Dict.Valid;
    assert (map x | x in d.vals && x !in gone + [t] :: d.vals[x])
        == (map x | x in d.vals && x !in gone :: d.vals[x]) - {t};
  }

  lemma WithoutNone(d: Tactics)
    ensures Without(d, []) == d
  {
    FilterAll(NotAmong([]), d.keys);
  }

  lemma WithoutStale(d: Tactics, cutoff: int)
    requires d.Valid()
    ensures Without(d, Filter(IsStale(d, cutoff), d.keys)) == Live(d, cutoff)
    ensures Filter(IsStale(d, cutoff), d.keys) != [] <==> HasStale(d, cutoff)
  {
    hide Dict.Valid;
    var stale := Filter(IsStale(d, cutoff), d.keys);
    FilterMembers(IsStale(d, cutoff), d.keys);
    forall t
      ensures t in d.keys <==> t in d.vals
    {
      d.Member(t);
    }
    FilterAgree(NotAmong(stale), IsLive(d, cutoff), d.keys);
    if stale == [] {
      forall t | t in d.vals
        ensures d.vals[t].ts >= cutoff
      {
        assert t in d.keys && t !in stale;
      }
    } else {
      assert stale[0] in stale;
    }
  }

  lemma AbsorbIs(c: Config, s: Tracker, a: Alert)
    requires AllValid(s)
    ensures a.entity in s.tactics ==> s.tactics[a.entity].Valid()
    ensures var s1 := EvictStale(s, a.entity, Cutoff(c, a));
            && s1.Known(a.entity).Valid()
            && Absorb(c, s, a) == EnforceMax(c, TouchEntity(Learned(s1, a), a.entity))
  {
    hide Dict.Valid, NoteAll, EnforceMax, Touch, Live, HasStale;
    KnownValid(s, a.entity);
    LiveValid(s.Known(a.entity), Cutoff(c, a));
  }

  lemma FiredIsQuiet(c: Config, s: Tracker, e: string, now: int)
    ensures e in s.fired ==> Check(c, s, e, now) == Outcome(s, NoReport)
  {
  }

  class KillChainTracker {
    const config: Config
    var entityTactics: map<string, Tactics>
    var lru: seq<string>
    var firedEntities: set<string>
    var evictionCount: nat

    ghost function Model(): Tracker
      reads this
    {
      Tracker(entityTactics, lru, firedEntities, evictionCount)
    }

    constructor (config: Config)
      ensures Model() == EMPTY && Consistent(config, Model()) && this.config == config
    {
      this.config := config;
      entityTactics, lru, firedEntities, evictionCount := map[], [], {}, 0;
    }

    /** Recording an alert, step by step in place. */
    method RecordAlert(a: Alert) returns (report: Report)
      requires AllValid(Model())
      modifies this
      ensures Outcome(Model(), report) == Record(config, old(Model()), a)
    {
      hide Dict.Valid, AllValid, NoteAll, EnforceMax, RemoveKey, Live, HasStale, EvictStale, Absorb, Check;
      if !config.enabled || a.tactics == [] || a.entity == "" { return NoReport; }
      var e := a.entity;
      AbsorbIs(config, Model(), a);
      EvictStaleTactics(e, a.ts - config.windowNs);
      ghost var s := Model();
      var tactics := if e in entityTactics then entityTactics[e] else NO_TACTICS;
      var changed;
      tactics, changed := Learn(tactics, a);
      entityTactics := entityTactics[e := tactics];
      lru := RemoveKey(lru, e) + [e];
      assert Model() == TouchEntity(Learned(s, a), e);
      EnforceMaxEntities();
      FiredIsQuiet(config, Model(), e, a.ts);
      if !changed && e in firedEntities { return NoReport; }
      report := CheckThreshold(e, a.ts);
    }

    method Learn(known: Tactics, a: Alert) returns (tactics: Tactics, changed: bool)
      requires known.Valid()
      ensures tactics == NoteAll(known, a.tactics, Seen(a.ts, a.id))
    {
      hide Dict.Valid;
      tactics, changed := known, false;
      for i := 0 to |a.tactics|
        invariant tactics == NoteAll(known, a.tactics[..i], Seen(a.ts, a.id))
      {
        assert a.tactics[..i + 1][..i] == a.tactics[..i];
        if !tactics.Has(a.tactics[i]) && |tactics.keys| < MAX_TACTICS {
          tactics := tactics.Put(a.tactics[i], Seen(a.ts, a.id));
          changed := true;
        }
      }
      assert a.tactics[..|a.tactics|] == a.tactics;
    }

    method EvictStaleTactics(e: string, cutoff: int)
      requires e in entityTactics ==> entityTactics[e].Valid()
      modifies this
      ensures Model() == EvictStale(old(Model()), e, cutoff)
    {
      if e !in entityTactics { return; }
      hide Dict.Valid, Live, HasStale, Without;
      var tactics := entityTactics[e];
      var stale := Filter(IsStale(tactics, cutoff), tactics.keys);
      WithoutStale(tactics, cutoff);
      tactics := RemoveAll(tactics, stale);
      entityTactics := entityTactics[e := tactics];
      if stale != [] && e in firedEntities { firedEntities := firedEntities - {e}; }
    }

    static method RemoveAll(d: Tactics, gone: seq<string>) returns (tactics: Tactics)
      requires d.Valid()
      ensures tactics.Valid() && tactics == Without(d, gone)
    {
      WithoutNone(d);
      hide Dict.Valid, Without;
      tactics := d;
      for i := 0 to |gone|
        invariant tactics.Valid() && tactics == Without(d, gone[..i])
      {
        WithoutOneMore(d, gone[..i], gone[i]);
        assert gone[..i + 1] == gone[..i] + [gone[i]];
        tactics := tactics.Remove(gone[i]);
      }
      assert gone[..|gone|] == gone;
    }

    method EnforceMaxEntities()
      modifies this
      ensures Model() == EnforceMax(config, old(Model()))
    {
      while |lru| > config.maxEntities
        invariant EnforceMax(config, Model()) == EnforceMax(config, old(Model()))
        decreases |lru|
      {
        var oldest := lru[0];
        RemoveFirst(lru);
        lru := lru[1..];
        entityTactics := entityTactics - {oldest};
        firedEntities := firedEntities - {oldest};
        evictionCount := evictionCount + 1;
      }
    }

    method CheckThreshold(e: string, now: int) returns (report: Report)
      modifies this
      ensures Outcome(Model(), report) == Check(config, old(Model()), e, now)
    {
      var tactics := if e in entityTactics then entityTactics[e] else NO_TACTICS;
      if |tactics.keys| < config.threshold { return NoReport; }
      if e in firedEntities { return NoReport; }
      firedEntities := firedEntities + {e};
      report := Report(e, now, SortBy(FirstSeen, Sightings(tactics)));
    }
  }
}
