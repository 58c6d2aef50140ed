/** src/seerflow/correlation/engine.py: correlation rules evaluated over the windows.
    `re.search` is the parameter `search(pattern, text)`. */
module Engine {
  import opened Options
  import opened Events
  import opened Seqs
  import opened Dicts
  import opened Windows

  type Search = (string, string) -> bool

  const MAX_MATCH_INPUT := 4096
  const MAX_TUPLE_ENTRIES := 20
  const NS_PER_SECOND := 1_000_000_000

  datatype Source = Source(sourceType: string, conditions: map<string, string>, minCount: int)

  datatype Rule = Rule(
    name: string,
    entityType: string,
    windowSeconds: nat,
    sources: seq<Source>,
    minSources: int,
    severity: nat)
  {
    /** What rule_loader.py and the rule's own constructor guarantee. */
    predicate Loaded() {
      && windowSeconds > 0 && 1 <= minSources <= |sources| && severity <= 6
      && forall i :: 0 <= i < |sources| ==> sources[i].minCount >= 1
    }
  }

  datatype Alert = Alert(
    ruleName: string,
    entity: string,
    ts: nat,
    severity: nat,
    contributing: seq<nat>,
    risk: real)

  // ---- matching one event -------------------------------------------------------

  function Cut(s: string): string { if |s| <= MAX_MATCH_INPUT then s else s[..MAX_MATCH_INPUT] }

  predicate FieldMatches(search: Search, pattern: string, v: FieldValue) {
    match v
    case Missing => false
    case Scalar(text) => search(pattern, Cut(text))
    case Many(items) => exists i :: 0 <= i < |items| && i < MAX_TUPLE_ENTRIES && search(pattern, Cut(items[i]))
  }

  function Field(e: Event, name: string): FieldValue {
    if name in e.fields then e.fields[name] else Missing
  }

  predicate MatchEvent(search: Search, conditions: map<string, string>, e: Event) {
    forall f :: f in conditions ==> FieldMatches(search, conditions[f], Field(e, f))
  }

  function Hits(search: Search, source: Source): Event -> bool {
    (e: Event) => e.source == source.sourceType && MatchEvent(search, source.conditions, e)
  }

  // ---- the verdict of one rule on a list of events --------------------------------

  /** 0.6 for the severity and 0.4 for up to ten contributing events. */
  function RiskScore(severity: nat, events: nat): real {
    var eventWeight := if events as real / 10.0 < 1.0 then events as real / 10.0 else 1.0;
    var blend := (severity as real / 6.0) * 0.6 + eventWeight * 0.4;
    if blend > 1.0 then 1.0 else if blend < 0.0 then 0.0 else blend
  }

  /** For the rule's severities the clamp never acts; only ten events of the highest
      severity reach 1, and every further event counts until there are ten. */
  lemma RiskScoreShape(severity: nat, events: nat)
    requires severity <= 6
    ensures 0.0 <= RiskScore(severity, events) <= 1.0
    ensures RiskScore(severity, events) == 1.0 <==> severity == 6 && events >= 10
    ensures events < 10 ==> RiskScore(severity, events) < RiskScore(severity, events + 1)
    ensures events >= 10 ==> RiskScore(severity, events) == RiskScore(severity, 10)
  {
    assert (severity as real / 6.0) * 0.6 == severity as real / 10.0;
  }

  function Ids(events: seq<Event>): seq<nat> {
    if events == [] then [] else Ids(events[..|events| - 1]) + [events[|events| - 1].id]
  }

  function SourceHits(search: Search, rule: Rule, i: nat, events: seq<Event>): seq<Event>
    requires i < |rule.sources|
  {
    Filter(Hits(search, rule.sources[i]), events)
  }

  predicate Satisfied(search: Search, rule: Rule, i: nat, events: seq<Event>)
    requires i < |rule.sources|
  {
    |SourceHits(search, rule, i, events)| >= rule.sources[i].minCount
  }

  function SatisfiedSources(search: Search, rule: Rule, events: seq<Event>, n: nat): set<nat>
    requires n <= |rule.sources|
  {
    set i: nat | i < n && Satisfied(search, rule, i, events)
  }

  /** The ids of the events behind the satisfied sources among the first `n`. */
  function Contributing(search: Search, rule: Rule, events: seq<Event>, n: nat): seq<nat>
    requires n <= |rule.sources|
  {
    if n == 0 then []
    else
      var before := Contributing(search, rule, events, n - 1);
      if Satisfied(search, rule, n - 1, events) then before + Ids(SourceHits(search, rule, n - 1, events))
      else before
  }

  function RangeOf(rule: Rule, trigger: Event): TimeRange {
    Between(trigger.ts - rule.windowSeconds * NS_PER_SECOND, trigger.ts)
  }

  /** What a rule says about one entity, given the events to be considered by time. */
  function Verdict(search: Search, rule: Rule, entity: string, trigger: Event, events: seq<Event>): Option<Alert> {
    if trigger.entityType != rule.entityType || events == [] then None
    else if |SatisfiedSources(search, rule, events, |rule.sources|)| < rule.minSources then None
    else
      var ids := Contributing(search, rule, events, |rule.sources|);
      Some(Alert(rule.name, entity, trigger.ts, rule.severity, ids, RiskScore(rule.severity, |ids|)))
  }

  lemma {:induction false} SatisfiedSize(search: Search, rule: Rule, events: seq<Event>, n: nat)
    requires n < |rule.sources|
    ensures |SatisfiedSources(search, rule, events, n + 1)|
         == |SatisfiedSources(search, rule, events, n)| + if Satisfied(search, rule, n, events) then 1 else 0
  {
    hide Satisfied;
    var s, t := SatisfiedSources(search, rule, events, n), SatisfiedSources(search, rule, events, n + 1);
    if Satisfied(search, rule, n, events) {
      assert t == s + {n};
    } else {
      assert t == s;
    }
  }

  lemma SatisfiedMeans(search: Search, rule: Rule, n: nat, events: seq<Event>)
    requires n < |rule.sources|
    ensures Satisfied(search, rule, n, events) <==>
            |SourceHits(search, rule, n, events)| >= rule.sources[n].minCount
  {
  }

  lemma NoneSatisfied(search: Search, rule: Rule, events: seq<Event>)
    ensures |SatisfiedSources(search, rule, events, 0)| == 0
  {
    assert SatisfiedSources(search, rule, events, 0) == {};
  }

  // ---- what a hit is, and what a verdict says --------------------------------------------

  /** `text` is the part of `whole` that is searched: all of it, or its first 4096 characters. */
  predicate Front(whole: string, text: string) {
    text <= whole && |text| == if |whole| < 4096 then |whole| else 4096
  }

  /** The texts of a field that are searched: of a tuple, those of its first 20 items. */
  predicate Examined(v: FieldValue, text: string) {
    || (v.Scalar? && Front(v.text, text))
    || (v.Many? && exists i :: 0 <= i < 20 && i < |v.items| && Front(v.items[i], text))
  }

  /** The event has the field, and the pattern is found in it. */
  ghost predicate Meets(search: Search, e: Event, field: string, pattern: string) {
    field in e.fields && exists text :: Examined(e.fields[field], text) && search(pattern, text)
  }

  ghost predicate IsHit(search: Search, source: Source, e: Event) {
    && e.source == source.sourceType
    && forall f :: f in source.conditions ==> Meets(search, e, f, source.conditions[f])
  }

  lemma FrontIsCut(whole: string, text: string)
    ensures Front(whole, text) <==> text == Cut(whole)
  {
  }

  lemma MeetsIffMatches(search: Search, e: Event, field: string, pattern: string)
    ensures Meets(search, e, field, pattern) <==> FieldMatches(search, pattern, Field(e, field))
  {
    hide Front, Cut;
    if field in e.fields {
      match e.fields[field]
      case Missing =>
      case Scalar(text) => FrontIsCut(text, Cut(text));
        if Meets(search, e, field, pattern) {
          var t :| Examined(e.fields[field], t) && search(pattern, t);
          FrontIsCut(text, t);
        } else {
          assert FieldMatches(search, pattern, e.fields[field]) ==> Examined(e.fields[field], Cut(text));
        }
      case Many(items) =>
        forall i, t | 0 <= i < |items|
          ensures Front(items[i], t) <==> t == Cut(items[i])
        {
          FrontIsCut(items[i], t);
        }
        if FieldMatches(search, pattern, e.fields[field]) {
          var i :| 0 <= i < |items| && i < MAX_TUPLE_ENTRIES && search(pattern, Cut(items[i]));
          assert Front(items[i], Cut(items[i]));
          assert Examined(e.fields[field], Cut(items[i]));
        }
    }
  }

  lemma HitsAreHits(search: Search, source: Source, e: Event)
    ensures Hits(search, source)(e) <==> IsHit(search, source, e)
  {
    hide Meets, FieldMatches, Field;
    forall f | f in source.conditions
      ensures Meets(search, e, f, source.conditions[f])
          <==> FieldMatches(search, source.conditions[f], Field(e, f))
    {
      MeetsIffMatches(search, e, f, source.conditions[f]);
    }
  }

  /** The hits of a source are exactly the events of its type that have every conditioned
      field and show the pattern of each, as often as the list has them. */
  lemma SourceHitsAreHits(search: Search, rule: Rule, i: nat, events: seq<Event>, e: Event)
    requires i < |rule.sources|
    ensures multiset(SourceHits(search, rule, i, events))[e]
         == if IsHit(search, rule.sources[i], e) then multiset(events)[e] else 0
  {
    HitsAreHits(search, rule.sources[i], e);
    FilterMultiset(Hits(search, rule.sources[i]), events, e);
    hide IsHit, Hits, Filter;
  }

  function OfRule(rule: Rule): Event -> bool {
    (e: Event) => exists i :: 0 <= i < |rule.sources| && e.source == rule.sources[i].sourceType
  }

  /** Events of other source types never change what a rule says. */
  lemma OtherSourcesDoNotMatter(
    search: Search, rule: Rule, k: string, trigger: Event, events: seq<Event>)
    requires rule.Loaded()
    ensures Verdict(search, rule, k, trigger, events)
         == Verdict(search, rule, k, trigger, Filter(OfRule(rule), events))
  {
    hide Filter, MatchEvent;
    var own := Filter(OfRule(rule), events);
    forall i | 0 <= i < |rule.sources|
      ensures SourceHits(search, rule, i, events) == SourceHits(search, rule, i, own)
    {
      FilterTwice(OfRule(rule), Hits(search, rule.sources[i]), Hits(search, rule.sources[i]), events);
    }
    SameHits(search, rule, events, own, |rule.sources|);
    NoEvents(search, rule);
    hide Contributing, SatisfiedSources;
  }

  lemma {:induction false} SameHits(search: Search, rule: Rule, a: seq<Event>, b: seq<Event>, n: nat)
    requires n <= |rule.sources|
    requires forall i :: 0 <= i < |rule.sources| ==> SourceHits(search, rule, i, a) == SourceHits(search, rule, i, b)
    ensures SatisfiedSources(search, rule, a, n) == SatisfiedSources(search, rule, b, n)
    ensures Contributing(search, rule, a, n) == Contributing(search, rule, b, n)
  {
    hide SourceHits;
    forall i: nat | i < |rule.sources|
      ensures Satisfied(search, rule, i, a) == Satisfied(search, rule, i, b)
    {
      SatisfiedMeans(search, rule, i, a);
      SatisfiedMeans(search, rule, i, b);
    }
    if n > 0 { SameHits(search, rule, a, b, n - 1); }
  }

  lemma NoEvents(search: Search, rule: Rule)
    requires rule.Loaded()
    ensures SatisfiedSources(search, rule, [], |rule.sources|) == {}
  {
  }

  lemma {:induction false} IdsAre(events: seq<Event>, id: nat)
    ensures id in Ids(events) <==> exists e :: e in events && e.id == id
    ensures |Ids(events)| == |events|
  {
    if events != [] {
      var n := |events| - 1;
      IdsAre(events[..n], id);
      assert events == events[..n] + [events[n]];
    }
  }

  lemma {:induction false} ContributingAre(search: Search, rule: Rule, events: seq<Event>, n: nat, id: nat)
    requires n <= |rule.sources|
    ensures id in Contributing(search, rule, events, n) <==>
            exists i, e :: 0 <= i < n && |SourceHits(search, rule, i, events)| >= rule.sources[i].minCount
                           && e in SourceHits(search, rule, i, events) && e.id == id
  {
    hide SourceHits;
    if n > 0 {
      ContributingAre(search, rule, events, n - 1, id);
      SatisfiedMeans(search, rule, n - 1, events);
      IdsAre(SourceHits(search, rule, n - 1, events), id);
    }
  }

  /** A rule fires if and only if the entity type matches and some `minSources` of its
      sources have `minCount` hits each; and what it then reports. */
  lemma VerdictMeans(search: Search, rule: Rule, k: string, trigger: Event, events: seq<Event>)
    requires rule.Loaded()
    ensures var v := Verdict(search, rule, k, trigger, events);
            && (v.Some? <==>
                trigger.entityType == rule.entityType
                && exists chosen: set<nat> :: |chosen| == rule.minSources && AllHit(search, rule, events, chosen))
            && (v.Some? ==>
                && v.value.ruleName == rule.name && v.value.entity == k && v.value.ts == trigger.ts
                && v.value.severity == rule.severity
                && forall id :: id in v.value.contributing <==>
                     exists i, e :: 0 <= i < |rule.sources|
                                    && |SourceHits(search, rule, i, events)| >= rule.sources[i].minCount
                                    && e in SourceHits(search, rule, i, events) && e.id == id)
  {
    hide SourceHits, AllHit, Contributing;
    NoEvents(search, rule);
    SatisfiedIff(search, rule, events);
    hide SatisfiedSources;
    forall id: nat
      ensures id in Contributing(search, rule, events, |rule.sources|) <==>
              exists i, e :: 0 <= i < |rule.sources|
                             && |SourceHits(search, rule, i, events)| >= rule.sources[i].minCount
                             && e in SourceHits(search, rule, i, events) && e.id == id
    {
      ContributingAre(search, rule, events, |rule.sources|, id);
    }
  }

  ghost predicate AllHit(search: Search, rule: Rule, events: seq<Event>, chosen: set<nat>) {
    forall i :: i in chosen ==>
      i < |rule.sources| && |SourceHits(search, rule, i, events)| >= rule.sources[i].minCount
  }

  lemma SatisfiedIff(search: Search, rule: Rule, events: seq<Event>)
    requires rule.minSources >= 1
    ensures |SatisfiedSources(search, rule, events, |rule.sources|)| >= rule.minSources <==>
            exists chosen: set<nat> :: |chosen| == rule.minSources && AllHit(search, rule, events, chosen)
  {
    hide SourceHits;
    var all := SatisfiedSources(search, rule, events, |rule.sources|);
    if |all| >= rule.minSources {
      var chosen := SomeOf(all, rule.minSources);
      assert AllHit(search, rule, events, chosen);
    }
    if chosen: set<nat> :| |chosen| == rule.minSources && AllHit(search, rule, events, chosen) {
      assert chosen <= all;
      assert all == chosen + (all - chosen);
    }
  }

  lemma {:induction false} SomeOf(all: set<nat>, n: nat) returns (some: set<nat>)
    requires n <= |all|
    ensures some <= all && |some| == n
  {
    if n == 0 {
      some := {};
    } else {
      var x :| x in all;
      var rest := SomeOf(all - {x}, n - 1);
      some := rest + {x};
    }
  }

  /** The blend in closed form: a tenth for every step of severity, and a twenty-fifth for
      every contributing event up to ten. */
  lemma RiskScoreIs(severity: nat, events: nat)
    requires severity <= 6
    ensures 50.0 * RiskScore(severity, events) == (5 * severity + 2 * if events < 10 then events else 10) as real
  {
    RiskScoreShape(severity, events);
    assert (severity as real / 6.0) * 0.6 == severity as real / 10.0;
  }

  // ---- exactness against the whole history ----------------------------------------

  /** The events a rule should look at: the entity's newest `maxEvents`, in range. */
  function Considered(c: Config, rule: Rule, trigger: Event, history: seq<Event>): seq<Event> {
    Filter(Select(RangeOf(rule, trigger), AnySource), LastN(history, c.maxEvents))
  }

  /** They are the events within the rule's seconds before the event, both ends included. */
  lemma ConsideredAre(c: Config, rule: Rule, trigger: Event, history: seq<Event>, e: Event)
    ensures multiset(Considered(c, rule, trigger, history))[e] ==
      if trigger.ts - rule.windowSeconds * 1_000_000_000 <= e.ts <= trigger.ts
      then multiset(LastN(history, c.maxEvents))[e] else 0
  {
    FilterMultiset(Select(RangeOf(rule, trigger), AnySource), LastN(history, c.maxEvents), e);
    hide Filter, LastN;
  }

  /** What a rule asks for: the entity type, and enough sources with enough hits each. */
  ghost predicate CalledFor(search: Search, rule: Rule, trigger: Event, events: seq<Event>) {
    && trigger.entityType == rule.entityType
    && |SatisfiedSources(search, rule, events, |rule.sources|)| >= rule.minSources
  }

  /** The rule's window, which counts back from the event, reaches no further than the
      buffer's, which counts back from the clock. No event is older than time 0. */
  predicate Fits(c: Config, rule: Rule, trigger: Event, now: int) {
    var start := RangeOf(rule, trigger).startNs;
    (if start < 0 then 0 else start) >= now - c.windowNs
  }

  /** What the pruned buffer answers to a rule. */
  function Answered(c: Config, ops: seq<Op>, rule: Rule, k: string, trigger: Event, now: int): seq<Event>
    requires c.maxEntities >= 1
  {
    Answer(PruneOne(Run(c, ops), k, now - c.windowNs).Buffer(k), RangeOf(rule, trigger), AnySource)
  }

  /** Times are not negative, so a range may as well start at 0. */
  lemma SinceTheEpoch(events: seq<Event>, start: int, end: int)
    ensures Answer(events, Between(start, end), AnySource)
         == Answer(events, Between(if start < 0 then 0 else start, end), AnySource)
  {
    hide SortBy, Filter;
    FilterAgree(Select(Between(start, end), AnySource),
                Select(Between(if start < 0 then 0 else start, end), AnySource), events);
  }

  /** Rule firing is exact: after any run, a rule that fits the buffer fires on what the
      bounded, lazily pruned buffer answers if and only if the entity type matches and
      `minSources` sources have `minCount` hits each in everything the entity added since
      its last eviction, which is all of its history if and only if it was never evicted. */
  lemma RuleFiringIsExact(search: Search, c: Config, ops: seq<Op>, rule: Rule, k: string, trigger: Event, now: int)
    requires c.maxEntities >= 1 && rule.Loaded() && ClockUpTo(ops, now) && Fits(c, rule, trigger, now)
    ensures var events := Answered(c, ops, rule, k, trigger, now);
            var considered := Considered(c, rule, trigger, Since(c, ops, k));
            && events == SortBy(Stamp, considered)
            && (Verdict(search, rule, k, trigger, events).Some? <==> CalledFor(search, rule, trigger, considered))
    ensures Since(c, ops, k) == Added(ops, k) <==> NeverEvicted(c, ops, k)
  {
    UnevictedIff(c, ops, k);
    FittingAnswer(c, ops, rule, k, trigger, now);
    hide Dict.Valid, Run, PruneOne, Filter, SortBy, NeverEvicted, Since, Added, Verdict;
    FiringIgnoresOrder(search, rule, k, trigger, Considered(c, rule, trigger, Since(c, ops, k)));
  }

  lemma FittingAnswer(c: Config, ops: seq<Op>, rule: Rule, k: string, trigger: Event, now: int)
    requires c.maxEntities >= 1 && ClockUpTo(ops, now) && Fits(c, rule, trigger, now)
    ensures Answered(c, ops, rule, k, trigger, now)
         == SortBy(Stamp, Considered(c, rule, trigger, Since(c, ops, k)))
  {
    hide Dict.Valid, Run, PruneOne, Filter, SortBy, Since, LastN, ClockUpTo;
    var start := RangeOf(rule, trigger).startNs;
    var range := Between(if start < 0 then 0 else start, trigger.ts);
    QueryIsExact(c, ops, k, now, range, AnySource);
    SinceTheEpoch(PruneOne(Run(c, ops), k, now - c.windowNs).Buffer(k), start, trigger.ts);
    SinceTheEpoch(LastN(Since(c, ops, k), c.maxEvents), start, trigger.ts);
  }

  // ---- rules that reach behind the buffer ---------------------------------------------

  lemma {:induction false} FilterWeaker(p: Event -> bool, q: Event -> bool, s: seq<Event>)
    requires forall e :: p(e) ==> q(e)
    ensures |Filter(p, s)| <= |Filter(q, s)|
  {
    if s != [] { FilterWeaker(p, q, s[..|s| - 1]); }
  }

  function Both(p: Event -> bool, q: Event -> bool): Event -> bool {
    (e: Event) => p(e) && q(e)
  }

  /** Fewer events, chosen by a stronger condition or from fewer, satisfy fewer sources. */
  ghost predicate Fewer(search: Search, rule: Rule, a: seq<Event>, b: seq<Event>) {
    forall i :: 0 <= i < |rule.sources| ==> |SourceHits(search, rule, i, a)| <= |SourceHits(search, rule, i, b)|
  }

  lemma FewerCallsForLess(search: Search, rule: Rule, trigger: Event, a: seq<Event>, b: seq<Event>)
    requires Fewer(search, rule, a, b) && CalledFor(search, rule, trigger, a)
    ensures CalledFor(search, rule, trigger, b)
  {
    hide SourceHits;
    var n := |rule.sources|;
    var x, y := SatisfiedSources(search, rule, a, n), SatisfiedSources(search, rule, b, n);
    forall i | i in x
      ensures i in y
    {
      assert |SourceHits(search, rule, i, a)| <= |SourceHits(search, rule, i, b)|;
    }
    assert x <= y;
    SubsetCount(x, y);
  }

  lemma SubsetCount(x: set<nat>, y: set<nat>)
    requires x <= y
    ensures |x| <= |y|
  {
    assert y == x + (y - x);
  }

  lemma StrongerIsFewer(search: Search, rule: Rule, p: Event -> bool, q: Event -> bool, s: seq<Event>)
    requires forall e :: p(e) ==> q(e)
    ensures Fewer(search, rule, Filter(p, s), Filter(q, s))
  {
    hide Filter;
    forall i | 0 <= i < |rule.sources|
      ensures |SourceHits(search, rule, i, Filter(p, s))| <= |SourceHits(search, rule, i, Filter(q, s))|
    {
      var hits := Hits(search, rule.sources[i]);
      FilterTwice(p, hits, Both(p, hits), s);
      FilterTwice(q, hits, Both(q, hits), s);
      FilterWeaker(Both(p, hits), Both(q, hits), s);
    }
  }

  lemma SuffixIsFewer(search: Search, rule: Rule, p: Event -> bool, a: seq<Event>, b: seq<Event>)
    ensures Fewer(search, rule, Filter(p, b), Filter(p, a + b))
  {
    hide Filter;
    FilterConcat(p, a, b);
    forall i | 0 <= i < |rule.sources|
      ensures |SourceHits(search, rule, i, Filter(p, b))| <= |SourceHits(search, rule, i, Filter(p, a + b))|
    {
      FilterConcat(Hits(search, rule.sources[i]), Filter(p, a), Filter(p, b));
    }
  }

  /** The part of a rule's window the buffer still answers for. */
  function Clipped(rule: Rule, trigger: Event, cutoff: int): TimeRange {
    var range := RangeOf(rule, trigger);
    if range.startNs >= cutoff then range else Between(cutoff, range.endNs)
  }

  lemma AnswerIsFewer(search: Search, rule: Rule, trigger: Event, cutoff: int, buf: seq<Event>, recent: seq<Event>)
    requires |buf| <= |recent| && buf == recent[|recent| - |buf|..]
    ensures Fewer(search, rule, Filter(Select(Clipped(rule, trigger, cutoff), AnySource), buf),
                  Filter(Select(RangeOf(rule, trigger), AnySource), buf))
    ensures Fewer(search, rule, Filter(Select(RangeOf(rule, trigger), AnySource), buf),
                  Filter(Select(RangeOf(rule, trigger), AnySource), recent))
  {
    hide Filter, Fewer;
    StrongerIsFewer(search, rule, Select(Clipped(rule, trigger, cutoff), AnySource),
                    Select(RangeOf(rule, trigger), AnySource), buf);
    var gone := recent[..|recent| - |buf|];
    assert recent == gone + buf;
    SuffixIsFewer(search, rule, Select(RangeOf(rule, trigger), AnySource), gone, buf);
  }

  lemma SortedVerdict(search: Search, rule: Rule, k: string, trigger: Event, chosen: seq<Event>, answer: seq<Event>)
    requires rule.Loaded() && answer == SortBy(Stamp, chosen)
    ensures Verdict(search, rule, k, trigger, answer).Some? <==> CalledFor(search, rule, trigger, chosen)
  {
    FiringIgnoresOrder(search, rule, k, trigger, chosen);
    hide Verdict, SatisfiedSources, SortBy;
  }

  /** For a rule of any window: what the events within the buffer's window call for is
      reported, and whatever is reported is called for by the entity's last `maxEvents`
      events in the rule's window. For a window within the buffer's the two coincide. */
  lemma RuleFiringIsBounded(search: Search, c: Config, ops: seq<Op>, rule: Rule, k: string, trigger: Event, now: int)
    requires c.maxEntities >= 1 && rule.Loaded() && ClockUpTo(ops, now)
    ensures var cutoff := now - c.windowNs;
            var recent := LastN(Since(c, ops, k), c.maxEvents);
            var inside := Filter(Select(Clipped(rule, trigger, cutoff), AnySource), recent);
            var whole := Filter(Select(RangeOf(rule, trigger), AnySource), recent);
            var fires := Verdict(search, rule, k, trigger, Answered(c, ops, rule, k, trigger, now)).Some?;
            && (CalledFor(search, rule, trigger, inside) ==> fires)
            && (fires ==> CalledFor(search, rule, trigger, whole))
  {
    hide Dict.Valid, Run, PruneOne, Filter, SortBy, Since, Verdict, CalledFor, Fewer, Covers, LastN;
    var cutoff, range := now - c.windowNs, RangeOf(rule, trigger);
    var buf, recent := PruneOne(Run(c, ops), k, cutoff).Buffer(k), LastN(Since(c, ops, k), c.maxEvents);
    var clipped := Filter(Select(Clipped(rule, trigger, cutoff), AnySource), recent);
    QueryIsExact(c, ops, k, now, Clipped(rule, trigger, cutoff), AnySource);
    PrunedIsSuffix(c, ops, k, now);
    AnswerIsFewer(search, rule, trigger, cutoff, buf, recent);
    var inClip := Filter(Select(Clipped(rule, trigger, cutoff), AnySource), buf);
    var inRange := Filter(Select(range, AnySource), buf);
    SortedVerdict(search, rule, k, trigger, inRange, Answer(buf, range, AnySource));
    SortedVerdict(search, rule, k, trigger, clipped, SortBy(Stamp, clipped));
    SortedVerdict(search, rule, k, trigger, inClip, SortBy(Stamp, inClip));
    if CalledFor(search, rule, trigger, inClip) { FewerCallsForLess(search, rule, trigger, inClip, inRange); }
    if CalledFor(search, rule, trigger, inRange) {
      FewerCallsForLess(search, rule, trigger, inRange, Filter(Select(range, AnySource), recent));
    }
  }

  // ---- exactly when firing is exact ---------------------------------------------------

  /** After this run the rule fires if and only if the history calls for it. */
  ghost predicate FiresRight(
    search: Search, c: Config, ops: seq<Op>, rule: Rule, k: string, trigger: Event, now: int)
    requires c.maxEntities >= 1
  {
    Verdict(search, rule, k, trigger, Answered(c, ops, rule, k, trigger, now)).Some?
    <==> CalledFor(search, rule, trigger, Considered(c, rule, trigger, Since(c, ops, k)))
  }

  /** Some list of events that the buffer has room for calls for the rule. */
  ghost predicate Satisfiable(search: Search, c: Config, rule: Rule, trigger: Event) {
    exists events: seq<Event> :: |events| <= c.maxEvents && CalledFor(search, rule, trigger, events)
  }

  function Restamped(events: seq<Event>, t: nat): (r: seq<Event>)
    ensures |r| == |events|
    ensures forall i :: 0 <= i < |r| ==> r[i].ts == t
  {
    if events == [] then [] else Restamped(events[..|events| - 1], t) + [events[|events| - 1].(ts := t)]
  }

  lemma {:induction false} RestampedHits(search: Search, source: Source, events: seq<Event>, t: nat)
    ensures |Filter(Hits(search, source), Restamped(events, t))| == |Filter(Hits(search, source), events)|
  {
    hide MatchEvent;
    if events != [] {
      var e := events[|events| - 1];
      RestampedHits(search, source, events[..|events| - 1], t);
      OtherTime(search, source.conditions, e, t);
      assert Restamped(events, t)[..|events| - 1] == Restamped(events[..|events| - 1], t);
    }
  }

  lemma OtherTime(search: Search, conditions: map<string, string>, e: Event, t: nat)
    ensures MatchEvent(search, conditions, e.(ts := t)) == MatchEvent(search, conditions, e)
  {
    hide FieldMatches;
    assert forall f :: Field(e.(ts := t), f) == Field(e, f);
  }

  lemma RestampedCallsFor(search: Search, rule: Rule, trigger: Event, events: seq<Event>, t: nat)
    requires CalledFor(search, rule, trigger, events)
    ensures CalledFor(search, rule, trigger, Restamped(events, t))
  {
    hide CalledFor, Restamped, Filter;
    forall i | 0 <= i < |rule.sources|
      ensures |SourceHits(search, rule, i, events)| <= |SourceHits(search, rule, i, Restamped(events, t))|
    {
      RestampedHits(search, rule.sources[i], events, t);
    }
    FewerCallsForLess(search, rule, trigger, events, Restamped(events, t));
  }

  /** Each event added for `k`, in order. */
  function Adds(k: string, events: seq<Event>): (ops: seq<Op>)
    ensures |ops| == |events| && ClockUpTo(ops, 0)
    ensures forall now :: ClockUpTo(ops, now)
    ensures forall i :: 0 <= i < |ops| ==> ops[i].AddOp?
  {
    if events == [] then [] else Adds(k, events[..|events| - 1]) + [AddOp(k, events[|events| - 1])]
  }

  lemma {:induction false} AddsFillTheBuffer(c: Config, k: string, events: seq<Event>)
    requires c.maxEntities >= 1
    ensures Since(c, Adds(k, events), k) == events
    ensures Run(c, Adds(k, events)).Buffer(k) == LastN(events, c.maxEvents)
  {
    hide Dict.Valid, Step, LastN, Evicts;
    if events != [] {
      var n := |events| - 1;
      var init, op := Adds(k, events[..n]), AddOp(k, events[n]);
      AddsFillTheBuffer(c, k, events[..n]);
      assert Adds(k, events)[..n] == init;
      StepBuffer(c, Run(c, init), op, k);
      LastNAppend(events[..n], [events[n]], c.maxEvents);
      assert events[..n] + [events[n]] == events;
    } else {
      assert LastN<Event>([], c.maxEvents) == [];
    }
  }

  lemma {:induction false} AllExpire(buf: seq<Event>, cutoff: int)
    requires forall i :: 0 <= i < |buf| ==> buf[i].ts < cutoff
    ensures DropExpired(buf, cutoff) == []
  {
    if buf != [] { AllExpire(buf[1..], cutoff); }
  }

  lemma NoAnswer(search: Search, rule: Rule, k: string, trigger: Event)
    ensures Verdict(search, rule, k, trigger, Answer([], RangeOf(rule, trigger), AnySource)).None?
  {
  }

  /** Events at the very start of a window that does not fit are called for and expired. */
  lemma TooOldIsMissed(
    search: Search, c: Config, rule: Rule, k: string, trigger: Event, now: int, events: seq<Event>)
    requires c.maxEntities >= 1 && !Fits(c, rule, trigger, now)
    requires |events| <= c.maxEvents && CalledFor(search, rule, trigger, events)
    ensures var start := RangeOf(rule, trigger).startNs;
            !FiresRight(search, c, Adds(k, Restamped(events, if start < 0 then 0 else start)), rule, k, trigger, now)
  {
    hide Dict.Valid, Run, Since, Adds, Restamped, Verdict, CalledFor, Answer, Filter, DropExpired, Step;
    var start := RangeOf(rule, trigger).startNs;
    var t: nat := if start < 0 then 0 else start;
    var ancient := Restamped(events, t);
    var ops := Adds(k, ancient);
    RestampedCallsFor(search, rule, trigger, events, t);
    AddsFillTheBuffer(c, k, ancient);
    assert LastN(ancient, c.maxEvents) == ancient;
    FilterAll(Select(RangeOf(rule, trigger), AnySource), ancient);
    AllExpire(ancient, now - c.windowNs);
    PruneBuffer(c, Run(c, ops), QueryOp(k, now), k);
    QueryPrunes(c, Run(c, ops), k, now);
    NoAnswer(search, rule, k, trigger);
  }

  lemma UnsatisfiableIsRight(
    search: Search, c: Config, ops: seq<Op>, rule: Rule, k: string, trigger: Event, now: int)
    requires c.maxEntities >= 1 && rule.Loaded() && ClockUpTo(ops, now) && !Satisfiable(search, c, rule, trigger)
    ensures FiresRight(search, c, ops, rule, k, trigger, now)
  {
    hide Dict.Valid, Run, Since, Verdict, CalledFor, Answer, Filter, ClockUpTo, LastN, Answered;
    RuleFiringIsBounded(search, c, ops, rule, k, trigger, now);
    var recent := LastN(Since(c, ops, k), c.maxEvents);
    assert |Filter(Select(RangeOf(rule, trigger), AnySource), recent)| <= c.maxEvents;
  }

  /** Exactly when a rule can be trusted at a reading of the clock: it fires right after
      every run if and only if it fits, or asks for more than the buffer could ever hold. */
  lemma RuleFiringIsExactIff(search: Search, c: Config, rule: Rule, k: string, trigger: Event, now: int)
    requires c.maxEntities >= 1 && rule.Loaded()
    ensures (forall ops: seq<Op> :: ClockUpTo(ops, now) ==> FiresRight(search, c, ops, rule, k, trigger, now))
       <==> Fits(c, rule, trigger, now) || !Satisfiable(search, c, rule, trigger)
  {
    hide FiresRight, Fits, ClockUpTo, CalledFor;
    if Fits(c, rule, trigger, now) || !Satisfiable(search, c, rule, trigger) {
      forall ops: seq<Op> | ClockUpTo(ops, now)
        ensures FiresRight(search, c, ops, rule, k, trigger, now)
      {
        if Fits(c, rule, trigger, now) {
          FittingIsRight(search, c, ops, rule, k, trigger, now);
        } else {
          UnsatisfiableIsRight(search, c, ops, rule, k, trigger, now);
        }
      }
    } else {
      var events: seq<Event> :| |events| <= c.maxEvents && CalledFor(search, rule, trigger, events);
      TooOldIsMissed(search, c, rule, k, trigger, now, events);
    }
  }

  lemma FittingIsRight(
    search: Search, c: Config, ops: seq<Op>, rule: Rule, k: string, trigger: Event, now: int)
    requires c.maxEntities >= 1 && rule.Loaded() && ClockUpTo(ops, now) && Fits(c, rule, trigger, now)
    ensures FiresRight(search, c, ops, rule, k, trigger, now)
  {
    hide Dict.Valid, Run, Since, Verdict, CalledFor, Considered, Answered, ClockUpTo, Fits, NeverEvicted, Added;
    RuleFiringIsExact(search, c, ops, rule, k, trigger, now);
  }

  const DEFAULTS := Config(1800 * NS_PER_SECOND, 1000, 10_000)

  function Beaconing(pattern: string): Rule {
    Rule("c2-beaconing", "ip", 1800, [Source("syslog", map["message" := pattern], 5)], 1, 5)
  }

  /** One connection every 450 seconds. */
  function Beacon(message: string, i: nat): Event {
    Event(i, i * 450 * NS_PER_SECOND, "syslog", "ip", map["message" := Scalar(message)])
  }

  function Beacons(message: string): seq<Event> {
    [Beacon(message, 0), Beacon(message, 1), Beacon(message, 2), Beacon(message, 3), Beacon(message, 4)]
  }

  lemma BeaconsHit(search: Search, pattern: string, message: string)
    requires search(pattern, Cut(message))
    ensures Filter(Hits(search, Beaconing(pattern).sources[0]), Beacons(message)) == Beacons(message)
  {
    var hits := Hits(search, Beaconing(pattern).sources[0]);
    assert forall i :: hits(Beacon(message, i));
    FilterAll(hits, Beacons(message));
  }

  lemma OneSource(search: Search, rule: Rule, events: seq<Event>)
    requires |rule.sources| == 1
    ensures |SatisfiedSources(search, rule, events, 1)| >= 1 <==> Satisfied(search, rule, 0, events)
  {
    hide Satisfied;
    NoneSatisfied(search, rule, events);
    SatisfiedSize(search, rule, events, 0);
  }

  lemma FourLeft(search: Search, pattern: string, message: string, k: string, lag: nat)
    requires lag >= 1
    ensures var trigger := Beacon(message, 4);
            |Answered(DEFAULTS, Adds(k, Beacons(message)), Beaconing(pattern), k, trigger, trigger.ts + lag)| <= 4
  {
    hide Dict.Valid, Run, Since, SortBy, Filter, Step, Adds;
    var ops, now := Adds(k, Beacons(message)), Beacon(message, 4).ts + lag;
    AddsFillTheBuffer(DEFAULTS, k, Beacons(message));
    PruneBuffer(DEFAULTS, Run(DEFAULTS, ops), QueryOp(k, now), k);
    QueryPrunes(DEFAULTS, Run(DEFAULTS, ops), k, now);
    DropFacts(Beacons(message)[1..], lag);
  }

  /** The shipped beaconing rule on the default buffer: five beacons over half an hour,
      the last one evaluated any time after it happened, and the rule does not fire. */
  lemma BeaconingIsMissed(search: Search, pattern: string, message: string, k: string, lag: nat)
    requires lag >= 1 && search(pattern, Cut(message))
    ensures var rule, trigger, ops := Beaconing(pattern), Beacon(message, 4), Adds(k, Beacons(message));
            && rule.Loaded() && !Fits(DEFAULTS, rule, trigger, trigger.ts + lag)
            && CalledFor(search, rule, trigger, Considered(DEFAULTS, rule, trigger, Since(DEFAULTS, ops, k)))
            && Verdict(search, rule, k, trigger, Answered(DEFAULTS, ops, rule, k, trigger, trigger.ts + lag)).None?
  {
    hide Dict.Valid, Run, Since, Answered, Adds, Filter, SatisfiedSources, Hits;
    var rule, trigger := Beaconing(pattern), Beacon(message, 4);
    AddsFillTheBuffer(DEFAULTS, k, Beacons(message));
    FilterAll(Select(RangeOf(rule, trigger), AnySource), Beacons(message));
    BeaconsHit(search, pattern, message);
    OneSource(search, rule, Beacons(message));
    FourLeft(search, pattern, message, k, lag);
    OneSource(search, rule, Answered(DEFAULTS, Adds(k, Beacons(message)), rule, k, trigger, trigger.ts + lag));
  }

  lemma FiringIgnoresOrder(search: Search, rule: Rule, k: string, trigger: Event, considered: seq<Event>)
    requires rule.Loaded()
    ensures Verdict(search, rule, k, trigger, SortBy(Stamp, considered)).Some? <==>
            CalledFor(search, rule, trigger, considered)
  {
    var sorted := SortBy(Stamp, considered);
    forall i | 0 <= i < |rule.sources|
      ensures Satisfied(search, rule, i, sorted) == Satisfied(search, rule, i, considered)
      ensures considered == [] ==> !Satisfied(search, rule, i, considered)
    {
      SortByFilterSize(Stamp, Hits(search, rule.sources[i]), considered);
    }
    var n := |rule.sources|;
    assert SatisfiedSources(search, rule, sorted, n) == SatisfiedSources(search, rule, considered, n);
    if considered == [] {
      assert SatisfiedSources(search, rule, considered, n) == {};
    }
  }

  // ---- the engine ------------------------------------------------------------------

  ghost predicate UniqueNames(rules: seq<Rule>) {
    forall i, j :: 0 <= i < j < |rules| ==> rules[i].name != rules[j].name
  }

  function Conditions(rule: Rule): seq<map<string, string>> {
    seq(|rule.sources|, i requires 0 <= i < |rule.sources| => rule.sources[i].conditions)
  }

  /** The (entity, rule) pairs in the order `evaluate` visits them. */
  function Visits(refs: seq<string>, rules: seq<Rule>): seq<(string, Rule)> {
    if refs == [] then []
    else Visits(refs[..|refs| - 1], rules) + VisitsOf(refs[|refs| - 1], rules)
  }

  function VisitsOf(k: string, rules: seq<Rule>): seq<(string, Rule)> {
    seq(|rules|, i requires 0 <= i < |rules| => (k, rules[i]))
  }

  /** Every rule is visited for every entity: the entities in order, and for each of them
      the rules in order. */
  lemma {:induction false} VisitsAre(refs: seq<string>, rules: seq<Rule>, i: nat, j: nat)
    requires i < |refs| && j < |rules|
    ensures |Visits(refs, rules)| == |refs| * |rules| && i * |rules| + j < |Visits(refs, rules)|
    ensures Visits(refs, rules)[i * |rules| + j] == (refs[i], rules[j])
  {
    var n := |refs| - 1;
    VisitsLength(refs[..n], rules);
    VisitsLength(refs, rules);
    if i < n {
      VisitsAre(refs[..n], rules, i, j);
    }
  }

  lemma {:induction false} VisitsLength(refs: seq<string>, rules: seq<Rule>)
    ensures |Visits(refs, rules)| == |refs| * |rules|
  {
    if refs != [] {
      VisitsLength(refs[..|refs| - 1], rules);
      assert |refs| * |rules| == (|refs| - 1) * |rules| + |rules|;
    }
  }

  /** Only a rule of the event's entity type reads the buffer. */
  function Reads(c: Config, w: Window, rule: Rule, k: string, trigger: Event, now: int): (r: Window)
    requires w.buffers.Valid()
    ensures r.buffers.Valid()
  {
    if trigger.entityType == rule.entityType then PruneOne(w, k, now - c.windowNs) else w
  }

  function VerdictOn(search: Search, w: Window, rule: Rule, k: string, trigger: Event): Option<Alert> {
    Verdict(search, rule, k, trigger, Answer(w.Buffer(k), RangeOf(rule, trigger), AnySource))
  }

  function Optional(alert: Option<Alert>): seq<Alert> {
    if alert.Some? then [alert.value] else []
  }

  /** Window and alerts after the first `|visits|` evaluations; the n-th of them
      reads `clock(n)`. */
  function Evaluated(
    search: Search, c: Config, w: Window, visits: seq<(string, Rule)>, trigger: Event, clock: nat -> int)
    : (r: (Window, seq<Alert>))
    requires w.buffers.Valid()
    ensures r.0.buffers.Valid()
  {
    if visits == [] then (w, [])
    else
      var n := |visits| - 1;
      var (w1, alerts) := Evaluated(search, c, w, visits[..n], trigger, clock);
      var (k, rule) := visits[n];
      var w2 := Reads(c, w1, rule, k, trigger, clock(n));
      (w2, alerts + Optional(VerdictOn(search, w2, rule, k, trigger)))
  }

  class CorrelationEngine {
    const rules: seq<Rule>
    const window: EntityWindowBuffer
    const search: Search
    const compiled: map<string, seq<map<string, string>>>

    ghost predicate Compiled() {
      forall i :: 0 <= i < |rules| ==>
        rules[i].name in compiled && compiled[rules[i].name] == Conditions(rules[i])
    }

    constructor (rules: seq<Rule>, window: EntityWindowBuffer, search: Search)
      requires UniqueNames(rules)
      ensures Compiled()
      ensures this.rules == rules && this.window == window && this.search == search
    {
      var table: map<string, seq<map<string, string>>> := map[];
      for n := 0 to |rules|
        invariant forall i :: 0 <= i < n ==> rules[i].name in table && table[rules[i].name] == Conditions(rules[i])
      {
        var patterns: seq<map<string, string>> := [];
        for i := 0 to |rules[n].sources|
          invariant patterns == Conditions(rules[n])[..i]
        {
          patterns := patterns + [rules[n].sources[i].conditions];
        }
        table := table[rules[n].name := patterns];
      }
      this.rules, this.window, this.search := rules, window, search;
      compiled := table;
    }

    method EvaluateRule(rule: Rule, k: string, trigger: Event, now: int) returns (alert: Option<Alert>)
      requires Compiled() && rule in rules && window.Usable()
      modifies window
      ensures window.Usable()
      ensures window.Model() == Reads(window.Settings(), old(window.Model()), rule, k, trigger, now)
      ensures alert == VerdictOn(search, window.Model(), rule, k, trigger)
    {
      hide Dict.Valid, PruneOne, SortBy, Filter, Satisfied, SatisfiedSources, RiskScore;
      if trigger.entityType != rule.entityType { return None; }
      var events := window.Query(k, RangeOf(rule, trigger), AnySource, now);
      ghost var after := window.Model();
      if events == [] { return None; }
      var matchedSources := 0;
      NoneSatisfied(search, rule, events);
      var ids: seq<nat> := [];
      for n := 0 to |rule.sources|
        invariant window.Usable() && window.Model() == after
        invariant matchedSources == |SatisfiedSources(search, rule, events, n)|
        invariant ids == Contributing(search, rule, events, n)
      {
        SatisfiedSize(search, rule, events, n);
        SatisfiedMeans(search, rule, n, events);
        var matching := MatchingEvents(rule, n, events);
        if |matching| >= rule.sources[n].minCount {
          matchedSources := matchedSources + 1;
          ids := ids + Ids(matching);
        }
      }
      if matchedSources < rule.minSources { return None; }
      alert := Some(Alert(rule.name, k, trigger.ts, rule.severity, ids, RiskScore(rule.severity, |ids|)));
    }

    /** Filters by source type, then by the compiled conditions of that source. */
    function MatchingEvents(rule: Rule, n: nat, events: seq<Event>): (r: seq<Event>)
      requires Compiled() && rule in rules && n < |rule.sources|
      ensures r == SourceHits(search, rule, n, events)
    {
      var patterns := compiled[rule.name][n];
      var ofType := (e: Event) => e.source == rule.sources[n].sourceType;
      var matches := (e: Event) => MatchEvent(search, patterns, e);
      FilterTwice(ofType, matches, Hits(search, rule.sources[n]), events);
      Filter(matches, Filter(ofType, events))
    }

    method Evaluate(trigger: Event, refs: seq<string>, clock: nat -> int) returns (alerts: seq<Alert>)
      requires Compiled() && window.Usable()
      modifies window
      ensures window.Usable()
      ensures (window.Model(), alerts) ==
        Evaluated(search, window.Settings(), old(window.Model()), Visits(refs, rules), trigger, clock)
    {
      hide Dict.Valid, Reads, VerdictOn, Evaluated;
      alerts := [];
      ghost var w0 := window.Model();
      if rules == [] || refs == [] {
        NoVisits(refs, rules);
        EvaluatedNone(search, window.Settings(), w0, trigger, clock);
        return;
      }
      ghost var visits: seq<(string, Rule)> := [];
      EvaluatedNone(search, window.Settings(), w0, trigger, clock);
      for i := 0 to |refs|
        invariant window.Usable()
        invariant visits == Visits(refs[..i], rules) && |visits| == i * |rules|
        invariant (window.Model(), alerts) == Evaluated(search, window.Settings(), w0, visits, trigger, clock)
      {
        ghost var earlier := visits;
        for j := 0 to |rules|
          invariant window.Usable()
          invariant visits == earlier + VisitsOf(refs[i], rules)[..j] && |earlier| == i * |rules|
          invariant (window.Model(), alerts) == Evaluated(search, window.Settings(), w0, visits, trigger, clock)
        {
          var alert := EvaluateRule(rules[j], refs[i], trigger, clock(i * |rules| + j));
          assert |visits| == i * |rules| + j;
          EvaluatedNext(search, window.Settings(), w0, visits, refs[i], rules[j], trigger, clock);
          visits := visits + [(refs[i], rules[j])];
          assert alerts + [] == alerts;
          if alert.Some? { alerts := alerts + [alert.value]; }
        }
        assert refs[..i + 1][..i] == refs[..i];
        assert VisitsOf(refs[i], rules)[..|rules|] == VisitsOf(refs[i], rules);
      }
      assert refs[..|refs|] == refs;
    }
  }

  lemma EvaluatedNone(search: Search, c: Config, w: Window, trigger: Event, clock: nat -> int)
    requires w.buffers.Valid()
    ensures Evaluated(search, c, w, [], trigger, clock) == (w, [])
  {
  }

  lemma EvaluatedNext(
    search: Search, c: Config, w: Window, visits: seq<(string, Rule)>, k: string, rule: Rule, trigger: Event,
    clock: nat -> int)
    requires w.buffers.Valid()
    ensures var (w1, alerts) := Evaluated(search, c, w, visits, trigger, clock);
            var w2 := Reads(c, w1, rule, k, trigger, clock(|visits|));
            Evaluated(search, c, w, visits + [(k, rule)], trigger, clock)
              == (w2, alerts + Optional(VerdictOn(search, w2, rule, k, trigger)))
  {
    hide Dict.Valid, Reads, VerdictOn;
    var more := visits + [(k, rule)];
    assert more[..|visits|] == visits && more[|visits|] == (k, rule);
  }

  lemma {:induction false} NoVisits(refs: seq<string>, rules: seq<Rule>)
    requires rules == [] || refs == []
    ensures Visits(refs, rules) == []
  {
    if refs != [] {
      NoVisits(refs[..|refs| - 1], rules);
    }
  }

  // ---- evaluation, end to end ----------------------------------------------------------

  /** The queries an evaluation leaves behind in the run of the buffer. */
  function QueriesOf(visits: seq<(string, Rule)>, trigger: Event, clock: nat -> int): seq<Op> {
    if visits == [] then []
    else
      var n := |visits| - 1;
      var (k, rule) := visits[n];
      QueriesOf(visits[..n], trigger, clock)
      + if trigger.entityType == rule.entityType then [QueryOp(k, clock(n))] else []
  }

  /** What the last visit should say. Where the rule fits the buffer, the history since
      the last eviction decides, with no buffer involved; elsewhere, what the buffer still
      holds. */
  function Judged(
    search: Search, c: Config, ops: seq<Op>, visits: seq<(string, Rule)>, trigger: Event, clock: nat -> int)
    : Option<Alert>
    requires c.maxEntities >= 1 && visits != []
  {
    var n := |visits| - 1;
    var (k, rule) := visits[n];
    if Fits(c, rule, trigger, clock(n)) then
      Verdict(search, rule, k, trigger, SortBy(Stamp, Considered(c, rule, trigger, Since(c, ops, k))))
    else VerdictOn(search, Run(c, ops + QueriesOf(visits, trigger, clock)), rule, k, trigger)
  }

  function Expected(
    search: Search, c: Config, ops: seq<Op>, visits: seq<(string, Rule)>, trigger: Event, clock: nat -> int)
    : seq<Alert>
    requires c.maxEntities >= 1
  {
    if visits == [] then []
    else
      Expected(search, c, ops, visits[..|visits| - 1], trigger, clock)
      + Optional(Judged(search, c, ops, visits, trigger, clock))
  }

  predicate Matches(visits: seq<(string, Rule)>, trigger: Event, n: nat)
    requires n < |visits|
  {
    trigger.entityType == visits[n].1.entityType
  }

  /** The clock is read by rules of the event's entity type only, and does not go back. */
  ghost predicate Timely(ops: seq<Op>, visits: seq<(string, Rule)>, trigger: Event, clock: nat -> int) {
    && (forall n :: 0 <= n < |visits| && Matches(visits, trigger, n) ==> ClockUpTo(ops, clock(n)))
    && (forall m, n :: 0 <= m < n < |visits| && Matches(visits, trigger, m) && Matches(visits, trigger, n) ==>
          clock(m) <= clock(n))
  }

  lemma {:induction false} QueriesFacts(ops: seq<Op>, visits: seq<(string, Rule)>, trigger: Event, clock: nat -> int,
                                        now: int)
    requires ClockUpTo(ops, now)
    requires forall n :: 0 <= n < |visits| && Matches(visits, trigger, n) ==> clock(n) <= now
    ensures ClockUpTo(ops + QueriesOf(visits, trigger, clock), now)
    ensures forall i :: 0 <= i < |QueriesOf(visits, trigger, clock)| ==> QueriesOf(visits, trigger, clock)[i].QueryOp?
  {
    if visits != [] {
      var n := |visits| - 1;
      assert forall i :: 0 <= i < n ==> Matches(visits[..n], trigger, i) == Matches(visits, trigger, i);
      QueriesFacts(ops, visits[..n], trigger, clock, now);
      assert Matches(visits, trigger, n) ==> clock(n) <= now;
      var queries := QueriesOf(visits[..n], trigger, clock);
      var all := ops + QueriesOf(visits, trigger, clock);
      forall i | 0 <= i < |all| && !all[i].AddOp?
        ensures all[i].now <= now
      {
        if i < |ops + queries| {
          assert all[i] == (ops + queries)[i];
        }
      }
    }
  }

  lemma {:induction false} QueriesKeepSince(c: Config, ops: seq<Op>, queries: seq<Op>, k: string)
    requires c.maxEntities >= 1
    requires forall i :: 0 <= i < |queries| ==> queries[i].QueryOp?
    ensures Since(c, ops + queries, k) == Since(c, ops, k)
  {
    hide Run, Step, Dict.Valid;
    if queries == [] {
      assert ops + queries == ops;
    } else {
      QueriesKeepSince(c, ops, queries[..|queries| - 1], k);
      assert (ops + queries)[..|ops + queries| - 1] == ops + queries[..|queries| - 1];
    }
  }

  /** End to end: evaluating every rule for every entity of an event yields, visit by
      visit and in order, the alert that the history since the entity's last eviction
      calls for, although each evaluation prunes the buffers the later ones read. A rule
      that does not fit the buffer is judged on what the buffer holds, and does not
      affect the others. */
  lemma {:induction false} EvaluationIsExact(
    search: Search, c: Config, ops: seq<Op>, visits: seq<(string, Rule)>, trigger: Event, clock: nat -> int)
    requires c.maxEntities >= 1 && Timely(ops, visits, trigger, clock)
    ensures Evaluated(search, c, Run(c, ops), visits, trigger, clock)
         == (Run(c, ops + QueriesOf(visits, trigger, clock)), Expected(search, c, ops, visits, trigger, clock))
  {
    if visits == [] {
      assert ops + [] == ops;
    } else {
      TimelyUpTo(ops, visits, trigger, clock, |visits| - 1);
      EvaluationIsExact(search, c, ops, visits[..|visits| - 1], trigger, clock);
      VisitIsExact(search, c, ops, visits, trigger, clock);
      hide Timely, Run, Reads, VerdictOn, Judged, Since, QueriesOf;
    }
  }

  /** The window a visit leaves behind is that of the run with its query. */
  lemma VisitReads(
    c: Config, ops: seq<Op>, visits: seq<(string, Rule)>, trigger: Event, clock: nat -> int)
    requires c.maxEntities >= 1 && visits != []
    ensures var n := |visits| - 1;
            var (k, rule) := visits[n];
            Reads(c, Run(c, ops + QueriesOf(visits[..n], trigger, clock)), rule, k, trigger, clock(n))
              == Run(c, ops + QueriesOf(visits, trigger, clock))
  {
    hide Dict.Valid, PruneOne, Step;
    var n := |visits| - 1;
    var (k, rule) := visits[n];
    var all := ops + QueriesOf(visits[..n], trigger, clock);
    if trigger.entityType == rule.entityType {
      assert ops + QueriesOf(visits, trigger, clock) == all + [QueryOp(k, clock(n))];
      assert (all + [QueryOp(k, clock(n))])[..|all|] == all;
      hide QueriesOf;
      QueryPrunes(c, Run(c, all), k, clock(n));
    } else {
      assert ops + QueriesOf(visits, trigger, clock) == all;
    }
  }

  /** A visit of a rule of the event's type answers as a query after the earlier ones. */
  lemma VisitAnswers(
    c: Config, ops: seq<Op>, visits: seq<(string, Rule)>, trigger: Event, clock: nat -> int)
    requires c.maxEntities >= 1 && visits != [] && Timely(ops, visits, trigger, clock)
    requires Matches(visits, trigger, |visits| - 1)
    ensures var n := |visits| - 1;
            var (k, rule) := visits[n];
            var all := ops + QueriesOf(visits[..n], trigger, clock);
            && ClockUpTo(all, clock(n)) && Since(c, all, k) == Since(c, ops, k)
            && Answer(Run(c, ops + QueriesOf(visits, trigger, clock)).Buffer(k), RangeOf(rule, trigger), AnySource)
               == Answered(c, all, rule, k, trigger, clock(n))
  {
    hide Dict.Valid, PruneOne, Run, Since, ClockUpTo, QueriesOf, Answer;
    var n := |visits| - 1;
    assert forall i :: 0 <= i < n ==> Matches(visits[..n], trigger, i) == Matches(visits, trigger, i);
    QueriesFacts(ops, visits[..n], trigger, clock, clock(n));
    QueriesKeepSince(c, ops, QueriesOf(visits[..n], trigger, clock), visits[n].0);
    VisitReads(c, ops, visits, trigger, clock);
  }

  lemma VisitIsExact(
    search: Search, c: Config, ops: seq<Op>, visits: seq<(string, Rule)>, trigger: Event, clock: nat -> int)
    requires c.maxEntities >= 1 && visits != [] && Timely(ops, visits, trigger, clock)
    ensures var n := |visits| - 1;
            var (k, rule) := visits[n];
            var w := Reads(c, Run(c, ops + QueriesOf(visits[..n], trigger, clock)), rule, k, trigger, clock(n));
            && w == Run(c, ops + QueriesOf(visits, trigger, clock))
            && VerdictOn(search, w, rule, k, trigger) == Judged(search, c, ops, visits, trigger, clock)
  {
    hide Dict.Valid, Run, Since, ClockUpTo, QueriesOf, Answer, Answered, Timely, Reads, Considered, Fits;
    var n := |visits| - 1;
    var (k, rule) := visits[n];
    VisitReads(c, ops, visits, trigger, clock);
    if trigger.entityType == rule.entityType && Fits(c, rule, trigger, clock(n)) {
      VisitAnswers(c, ops, visits, trigger, clock);
      FittingAnswer(c, ops + QueriesOf(visits[..n], trigger, clock), rule, k, trigger, clock(n));
    }
  }

  /** Whatever the windows: every alert of an evaluation is called for by the history,
      and whatever the part of it within the buffer's window calls for is among the
      alerts. */
  lemma EvaluationIsBounded(
    search: Search, c: Config, ops: seq<Op>, visits: seq<(string, Rule)>, trigger: Event, clock: nat -> int, n: nat)
    requires c.maxEntities >= 1 && Timely(ops, visits, trigger, clock)
    requires n < |visits| && visits[n].1.Loaded() && Matches(visits, trigger, n)
    ensures var (k, rule) := visits[n];
            var recent := LastN(Since(c, ops, k), c.maxEvents);
            var alert := Judged(search, c, ops, visits[..n + 1], trigger, clock);
            && (CalledFor(search, rule, trigger,
                          Filter(Select(Clipped(rule, trigger, clock(n) - c.windowNs), AnySource), recent))
                ==> alert.Some?)
            && (alert.Some? ==>
                CalledFor(search, rule, trigger, Filter(Select(RangeOf(rule, trigger), AnySource), recent)))
  {
    hide Dict.Valid, Run, Since, ClockUpTo, QueriesOf, Answer, Answered, Timely, Reads, Fits, CalledFor, Verdict;
    hide Filter, SortBy, LastN;
    var (k, rule) := visits[n];
    TimelyUpTo(ops, visits, trigger, clock, n + 1);
    assert visits[..n + 1][..n] == visits[..n];
    assert Matches(visits[..n + 1], trigger, n);
    var all := ops + QueriesOf(visits[..n], trigger, clock);
    VisitAnswers(c, ops, visits[..n + 1], trigger, clock);
    RuleFiringIsBounded(search, c, all, rule, k, trigger, clock(n));
    if Fits(c, rule, trigger, clock(n)) {
      FittingAnswer(c, all, rule, k, trigger, clock(n));
    }
  }

  lemma TimelyUpTo(ops: seq<Op>, visits: seq<(string, Rule)>, trigger: Event, clock: nat -> int, m: nat)
    requires Timely(ops, visits, trigger, clock) && m <= |visits|
    ensures Timely(ops, visits[..m], trigger, clock)
  {
    hide ClockUpTo;
    assert forall i :: 0 <= i < m ==> Matches(visits[..m], trigger, i) == Matches(visits, trigger, i);
  }
}
