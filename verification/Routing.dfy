/** src/seerflow/alerting/router.py, the part that only computes: which rule an alert
    falls under, and whether a channel is in its quiet hours. */
module Routing {
  import opened Options

  datatype Alert = Alert(id: string, alertType: string, ruleName: string, entityType: string, severity: nat)

  datatype StrMatch = AnyStr | OneOf(names: seq<string>)

  datatype Match = Match(
    alertType: StrMatch,
    ruleName: Option<string>,
    entityType: StrMatch,
    minSeverity: Option<int>,
    maxSeverity: Option<int>)

  datatype Notify = Notify(channel: string, digest: bool)

  datatype Rule = Rule(cond: Match, notify: seq<Notify>)

  /** `fnmatch.fnmatchcase(name, pattern)`. */
  type Glob = (string, string) -> bool

  predicate StrMatches(m: StrMatch, value: string) {
    m.AnyStr? || value in m.names
  }

  predicate RuleMatches(glob: Glob, rule: Rule, a: Alert) {
    var m := rule.cond;
    && StrMatches(m.alertType, a.alertType)
    && (m.ruleName.Some? ==> glob(a.ruleName, m.ruleName.value))
    && StrMatches(m.entityType, a.entityType)
    && (m.minSeverity.Some? ==> a.severity >= m.minSeverity.value)
    && (m.maxSeverity.Some? ==> a.severity <= m.maxSeverity.value)
  }

  /** The index of the first matching rule at or after `from`, or -1. */
  function FirstMatch(glob: Glob, rules: seq<Rule>, a: Alert, from: nat): (i: int)
    requires from <= |rules|
    ensures i == -1 || from <= i < |rules|
    ensures i >= 0 ==> RuleMatches(glob, rules[i], a)
    ensures forall j :: from <= j < (if i >= 0 then i else |rules|) ==> !RuleMatches(glob, rules[j], a)
    decreases |rules| - from
  {
    if from == |rules| then -1
    else if RuleMatches(glob, rules[from], a) then from
    else FirstMatch(glob, rules, a, from + 1)
  }

  /** Rule index and notifications; the default has index -1 and notifies only if told to. */
  function Select(glob: Glob, rules: seq<Rule>, fallback: seq<Notify>, a: Alert): (int, seq<Notify>) {
    var i := FirstMatch(glob, rules, a, 0);
    if i >= 0 then (i, rules[i].notify) else (-1, fallback)
  }

  /** The first matching rule decides, and the default speaks only when none matches. */
  lemma SelectIs(glob: Glob, rules: seq<Rule>, fallback: seq<Notify>, a: Alert)
    ensures var (idx, notify) := Select(glob, rules, fallback, a);
            && (idx == -1 <==> forall j :: 0 <= j < |rules| ==> !RuleMatches(glob, rules[j], a))
            && (idx == -1 ==> notify == fallback)
            && (idx != -1 ==>
                  && 0 <= idx < |rules| && RuleMatches(glob, rules[idx], a) && notify == rules[idx].notify
                  && forall j :: 0 <= j < idx ==> !RuleMatches(glob, rules[j], a))
  {
    hide RuleMatches;
  }

  const MATCH_ALL := Match(AnyStr, None, AnyStr, None, None)

  /** What a rule asks for, one condition at a time: with none it matches every alert, and
      each condition present narrows it by just what it says, bounds included. */
  lemma RuleMatchesMeans(
    glob: Glob, m: Match, notify: seq<Notify>, a: Alert, names: seq<string>, pattern: string, bound: int)
    ensures RuleMatches(glob, Rule(MATCH_ALL, notify), a)
    ensures var plain := RuleMatches(glob, Rule(m.(alertType := AnyStr), notify), a);
            RuleMatches(glob, Rule(m.(alertType := OneOf(names)), notify), a) <==> plain && a.alertType in names
    ensures var plain := RuleMatches(glob, Rule(m.(entityType := AnyStr), notify), a);
            RuleMatches(glob, Rule(m.(entityType := OneOf(names)), notify), a) <==> plain && a.entityType in names
    ensures var plain := RuleMatches(glob, Rule(m.(ruleName := None), notify), a);
            RuleMatches(glob, Rule(m.(ruleName := Some(pattern)), notify), a) <==> plain && glob(a.ruleName, pattern)
    ensures var plain := RuleMatches(glob, Rule(m.(minSeverity := None), notify), a);
            RuleMatches(glob, Rule(m.(minSeverity := Some(bound)), notify), a) <==> plain && bound <= a.severity
    ensures var plain := RuleMatches(glob, Rule(m.(maxSeverity := None), notify), a);
            RuleMatches(glob, Rule(m.(maxSeverity := Some(bound)), notify), a) <==> plain && a.severity <= bound
  {
  }

  method SelectNotify(glob: Glob, rules: seq<Rule>, fallback: seq<Notify>, a: Alert)
    returns (idx: int, notify: seq<Notify>)
    ensures (idx, notify) == Select(glob, rules, fallback, a)
  {
    for i := 0 to |rules|
      invariant FirstMatch(glob, rules, a, i) == FirstMatch(glob, rules, a, 0)
    {
      if RuleMatches(glob, rules[i], a) { return i, rules[i].notify; }
    }
    return -1, fallback;
  }

  // ---- quiet hours ----------------------------------------------------------------------

  const DAY := 86_400

  /** `start` is inclusive, `end` exclusive, in seconds of the day. */
  datatype QuietHours = QuietHours(start: nat, end: nat, minSeverity: nat)

  predicate InQuietWindow(q: QuietHours, t: nat) {
    if q.start <= q.end then q.start <= t < q.end else t >= q.start || t < q.end
  }

  /** A window that wraps midnight is the same arc of the clock: the time since its start
      is shorter than the window. Equal ends make an empty window, not a whole day. */
  lemma QuietWindowIsAnArc(q: QuietHours, t: nat)
    requires q.start < DAY && q.end < DAY && t < DAY
    ensures InQuietWindow(q, t) <==> (t - q.start) % DAY < (q.end - q.start) % DAY
    ensures q.start != q.end ==> (InQuietWindow(q, t) <==> !InQuietWindow(QuietHours(q.end, q.start, q.minSeverity), t))
  {
    assert t < q.start ==> (t - q.start) % DAY == t - q.start + DAY;
    assert q.end < q.start ==> (q.end - q.start) % DAY == q.end - q.start + DAY;
  }

  /** A channel without quiet hours is never quiet; one with them is, inside the arc and for
      alerts below its severity. */
  lemma SuppressedIff(quiet: map<string, QuietHours>, channel: string, a: Alert, t: nat)
    requires t < 86_400 && (channel in quiet ==> quiet[channel].start < 86_400 && quiet[channel].end < 86_400)
    ensures Suppressed(quiet, channel, a, t) <==>
            channel in quiet
            && (t - quiet[channel].start) % 86_400 < (quiet[channel].end - quiet[channel].start) % 86_400
            && a.severity < quiet[channel].minSeverity
  {
    if channel in quiet { QuietWindowIsAnArc(quiet[channel], t); }
    hide InQuietWindow;
  }

  predicate Suppressed(quiet: map<string, QuietHours>, channel: string, a: Alert, t: nat) {
    channel in quiet && InQuietWindow(quiet[channel], t) && a.severity < quiet[channel].minSeverity
  }
}
