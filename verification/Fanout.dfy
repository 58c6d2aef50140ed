/** src/seerflow/api/ws.py: fan-out of events and alerts to filtered, bounded client queues. */
module Fanout {
  import opened Seqs

  const MAX_SOURCES := 50
  const MAX_TEMPLATE_IDS := 100
  const MAX_ALERT_TYPES := 10
  const SEVERITY_MIN := 0
  const SEVERITY_MAX := 6
  const ALERT_TYPES := {"ml", "sigma", "correlation", "ueba", "ioc"}

  datatype Event = Event(id: nat, source: string, severity: int, template: int)
  datatype Alert = Alert(id: nat, alertType: string, severity: int)

  // ---- filters ----------------------------------------------------------------------------

  /** Empty collections match everything. */
  datatype ClientFilter = ClientFilter(
    sources: set<string>,
    minSeverity: int,
    alertTypes: set<string>,
    templates: set<int>)
  {
    predicate MatchesEvent(e: Event) {
      && (sources == {} || e.source in sources)
      && e.severity >= minSeverity
      && (templates == {} || e.template in templates)
    }

    predicate MatchesAlert(a: Alert) {
      (alertTypes == {} || a.alertType in alertTypes) && a.severity >= minSeverity
    }

    predicate WithinCaps() {
      && |sources| <= MAX_SOURCES && |templates| <= MAX_TEMPLATE_IDS && |alertTypes| <= MAX_ALERT_TYPES
      && alertTypes <= ALERT_TYPES && SEVERITY_MIN <= minSeverity <= SEVERITY_MAX
    }
  }

  const MATCH_ALL := ClientFilter({}, 0, {}, {})

  /** A decoded JSON value; `hashable` tells arrays and objects from other scalars. */
  datatype Json = JStr(str: string) | JInt(num: int) | JList(items: seq<Json>) | JOther(hashable: bool)

  datatype FilterError =
    NotAList(field: string) | WrongItems(field: string) | UnknownAlertTypes | NotAnInteger | Throttled

  function Trim(items: seq<Json>, cap: nat): seq<Json> {
    if |items| <= cap then items else items[..cap]
  }

  function Get(msg: map<string, Json>, key: string, absent: Json): Json {
    if key in msg then msg[key] else absent
  }

  function Strings(items: seq<Json>): set<string> {
    set v | v in items && v.JStr? :: v.str
  }

  function Ints(items: seq<Json>): set<int> {
    set v | v in items && v.JInt? :: v.num
  }

  datatype Parsed<T> = Parsed(value: T, errors: seq<FilterError>)

  function ParseSources(msg: map<string, Json>): Parsed<set<string>> {
    var raw := Get(msg, "sources", JList([]));
    if !raw.JList? then Parsed({}, [NotAList("sources")])
    else
      var items := Trim(raw.items, MAX_SOURCES);
      if forall v :: v in items ==> v.JStr? then Parsed(Strings(items), []) else Parsed({}, [WrongItems("sources")])
  }

  function ParseTemplates(msg: map<string, Json>): Parsed<set<int>> {
    var raw := Get(msg, "template_ids", JList([]));
    if !raw.JList? then Parsed({}, [NotAList("template_ids")])
    else
      var items := Trim(raw.items, MAX_TEMPLATE_IDS);
      if forall v :: v in items ==> v.JInt? then Parsed(Ints(items), []) else Parsed({}, [WrongItems("template_ids")])
  }

  function AlertTypeItems(msg: map<string, Json>): seq<Json> {
    var raw := Get(msg, "alert_types", JList([]));
    if raw.JList? then Trim(raw.items, MAX_ALERT_TYPES) else []
  }

  predicate Hashable(v: Json) {
    match v
    case JList(_) => false
    case JOther(h) => h
    case _ => true
  }

  /** Looking an array or object up in the set of valid types raises a TypeError. */
  predicate Raises(msg: map<string, Json>) {
    exists v :: v in AlertTypeItems(msg) && !Hashable(v)
  }

  predicate KnownType(v: Json) { v.JStr? && v.str in ALERT_TYPES }

  function ParseAlertTypes(msg: map<string, Json>): Parsed<set<string>> {
    if !Get(msg, "alert_types", JList([])).JList? then Parsed({}, [NotAList("alert_types")])
    else
      var items := AlertTypeItems(msg);
      Parsed(set v | v in items && KnownType(v) :: v.str,
             if exists v :: v in items && !KnownType(v) then [UnknownAlertTypes] else [])
  }

  function ParseMinSeverity(msg: map<string, Json>): Parsed<int> {
    var raw := Get(msg, "min_severity", JInt(1));
    if !raw.JInt? then Parsed(1, [NotAnInteger])
    else
      var low := if raw.num < SEVERITY_MAX then raw.num else SEVERITY_MAX;
      Parsed(if low > SEVERITY_MIN then low else SEVERITY_MIN, [])
  }

  function ParseFilter(msg: map<string, Json>): Parsed<ClientFilter> {
    var sources, templates := ParseSources(msg), ParseTemplates(msg);
    var types, severity := ParseAlertTypes(msg), ParseMinSeverity(msg);
    Parsed(ClientFilter(sources.value, severity.value, types.value, templates.value),
           sources.errors + templates.errors + types.errors + severity.errors)
  }

  lemma {:induction false} FewValues<T>(items: seq<Json>, values: set<T>, of: Json -> T)
    requires forall x :: x in values ==> exists v :: v in items && of(v) == x
    ensures |values| <= |items|
  {
    if items == [] {
      assert values == {};
    } else {
      var n := |items| - 1;
      var rest := values - {of(items[n])};
      forall x | x in rest
        ensures exists v :: v in items[..n] && of(v) == x
      {
        var v :| v in items && of(v) == x;
        assert v in items[..n];
      }
      FewValues(items[..n], rest, of);
      assert values <= rest + {of(items[n])};
      SetSize(values, rest, of(items[n]));
    }
  }

  lemma SetSize<T>(values: set<T>, rest: set<T>, x: T)
    requires rest == values - {x}
    ensures |values| <= |rest| + 1
  {
    if x in values {
      assert values == rest + {x};
    } else {
      assert values == rest;
    }
  }

  function StrOf(v: Json): string { if v.JStr? then v.str else "" }
  function NumOf(v: Json): int { if v.JInt? then v.num else 0 }

  /** Whatever the message, an accepted filter is within its caps. */
  lemma ParsedIsWithinCaps(msg: map<string, Json>)
    ensures ParseFilter(msg).value.WithinCaps()
  {
    var sources := Get(msg, "sources", JList([]));
    var templates := Get(msg, "template_ids", JList([]));
    var f := ParseFilter(msg).value;
    if sources.JList? {
      var items := Trim(sources.items, MAX_SOURCES);
      forall x | x in f.sources
        ensures exists v :: v in items && StrOf(v) == x
      {
        var v :| v in items && v.JStr? && v.str == x;
        assert StrOf(v) == x;
      }
      FewValues(items, f.sources, StrOf);
    }
    if templates.JList? {
      var items := Trim(templates.items, MAX_TEMPLATE_IDS);
      forall x | x in f.templates
        ensures exists v :: v in items && NumOf(v) == x
      {
        var v :| v in items && v.JInt? && v.num == x;
        assert NumOf(v) == x;
      }
      FewValues(items, f.templates, NumOf);
    }
    var items := AlertTypeItems(msg);
    forall x | x in f.alertTypes
      ensures exists v :: v in items && StrOf(v) == x
    {
      var v :| v in items && KnownType(v) && v.str == x;
      assert StrOf(v) == x;
    }
    FewValues(items, f.alertTypes, StrOf);
  }

  // ---- one bounded queue and its history --------------------------------------------------------

  datatype Queue<T> = Queue(items: seq<T>, dropped: nat)

  /** `append` on a full deque discards its oldest entry, which is counted first. */
  function Push<T>(q: Queue<T>, max: nat, x: T): Queue<T> {
    Queue(LastN(q.items + [x], max), if |q.items| == max then q.dropped + 1 else q.dropped)
  }

  function Batch<T>(q: Queue<T>, batchMax: nat): seq<T> {
    if |q.items| <= batchMax then q.items else q.items[..batchMax]
  }

  function Pop<T>(q: Queue<T>, batchMax: nat): Queue<T> {
    q.(items := q.items[|Batch(q, batchMax)|..])
  }

  ghost predicate Subsequence<T>(a: seq<T>, b: seq<T>) {
    a == [] || (b != [] && (
      || (a[|a| - 1] == b[|b| - 1] && Subsequence(a[..|a| - 1], b[..|b| - 1]))
      || Subsequence(a, b[..|b| - 1])))
  }

  /** The queue ends what was matched; what was popped is a subsequence of the rest; and
      everything matched is popped, queued or counted as dropped. */
  ghost predicate Accounted<T>(q: Queue<T>, max: nat, matched: seq<T>, popped: seq<T>) {
    && |q.items| <= max && |q.items| <= |matched|
    && q.items == matched[|matched| - |q.items|..]
    && Subsequence(popped, matched[..|matched| - |q.items|])
    && |matched| == |popped| + |q.items| + q.dropped
  }

  lemma {:induction false} SubsequenceExtend<T>(a: seq<T>, b: seq<T>, more: seq<T>)
    requires Subsequence(a, b)
    ensures Subsequence(a + more, b + more)
  {
    if more == [] {
      assert a + more == a && b + more == b;
    } else {
      var n := |more| - 1;
      SubsequenceExtend(a, b, more[..n]);
      assert (a + more)[..|a + more| - 1] == a + more[..n];
      assert (b + more)[..|b + more| - 1] == b + more[..n];
    }
  }

  lemma SubsequenceWider<T>(a: seq<T>, b: seq<T>, x: T)
    requires Subsequence(a, b)
    ensures Subsequence(a, b + [x])
  {
    assert (b + [x])[..|b|] == b;
  }

  lemma PushAccounted<T>(q: Queue<T>, max: nat, matched: seq<T>, popped: seq<T>, x: T)
    requires Accounted(q, max, matched, popped)
    ensures Accounted(Push(q, max, x), max, matched + [x], popped)
  {
    var r := Push(q, max, x);
    var before := matched[..|matched| - |q.items|];
    var more := matched + [x];
    assert q.items + [x] == more[|before|..];
    if |q.items| == max {
      assert more[..|more| - |r.items|] == before + [more[|before|]];
      SubsequenceWider(popped, before, more[|before|]);
    } else {
      assert more[..|more| - |r.items|] == before;
    }
  }

  lemma PopAccounted<T>(q: Queue<T>, max: nat, matched: seq<T>, popped: seq<T>, batchMax: nat)
    requires Accounted(q, max, matched, popped)
    ensures Accounted(Pop(q, batchMax), max, matched, popped + Batch(q, batchMax))
  {
    var r, batch := Pop(q, batchMax), Batch(q, batchMax);
    var before := matched[..|matched| - |q.items|];
    SubsequenceExtend(popped, before, batch);
    assert matched[..|matched| - |r.items|] == before + batch;
  }

  /** So popped and queued together are a subsequence of what matched, oldest first. */
  lemma AccountedIsSubsequence<T>(q: Queue<T>, max: nat, matched: seq<T>, popped: seq<T>)
    requires Accounted(q, max, matched, popped)
    ensures Subsequence(popped + q.items, matched)
  {
    SubsequenceExtend(popped, matched[..|matched| - |q.items|], q.items);
    assert matched == matched[..|matched| - |q.items|] + q.items;
  }

  // ---- clients and the manager ----------------------------------------------------------------------

  datatype Config = Config(maxConnections: nat, queueMax: nat, batchMax: nat, filterIntervalNs: nat)

  datatype Client = Client(
    filter: ClientFilter,
    events: Queue<Event>,
    alerts: Queue<Alert>,
    lastFilterNs: int,
    dead: bool)

  const FRESH := Client(MATCH_ALL, Queue([], 0), Queue([], 0), 0, false)

  datatype FilterReply = Unknown | Refused(errors: seq<FilterError>) | TypeError | Accepted

  function FilterVerdict(c: Config, k: Client, msg: map<string, Json>, now: int): FilterReply {
    if k.lastFilterNs > 0 && now - k.lastFilterNs < c.filterIntervalNs then Refused([Throttled])
    else if Raises(msg) then TypeError
    else if ParseFilter(msg).errors != [] then Refused(ParseFilter(msg).errors)
    else Accepted
  }

  function FilterSet(c: Config, k: Client, msg: map<string, Json>, now: int): Client {
    if FilterVerdict(c, k, msg, now).Accepted? then k.(filter := ParseFilter(msg).value, lastFilterNs := now) else k
  }

  function OfferEvent(c: Config, k: Client, e: Event): Client {
    if !k.dead && k.filter.MatchesEvent(e) then k.(events := Push(k.events, c.queueMax, e)) else k
  }

  function OfferAlert(c: Config, k: Client, a: Alert): Client {
    if !k.dead && k.filter.MatchesAlert(a) then k.(alerts := Push(k.alerts, c.queueMax, a)) else k
  }

  // ---- what a message asks for, and what the filter it installs lets through -----------------------------

  /** The value is one of the first `cap` items a field of the message lists. */
  predicate Names(msg: map<string, Json>, field: string, cap: nat, v: Json) {
    field in msg && msg[field].JList? && exists i :: 0 <= i < cap && i < |msg[field].items| && msg[field].items[i] == v
  }

  predicate NamesNothing(msg: map<string, Json>, field: string) {
    field !in msg || msg[field] == JList([])
  }

  /** Absent, or a list whose first `cap` items are of the right kind. */
  predicate ListOf(msg: map<string, Json>, field: string, cap: nat, kind: Json -> bool) {
    field in msg ==>
      msg[field].JList? && forall i :: 0 <= i < cap && i < |msg[field].items| ==> kind(msg[field].items[i])
  }

  function IsStr(): Json -> bool { (v: Json) => v.JStr? }
  function IsInt(): Json -> bool { (v: Json) => v.JInt? }
  function IsAlertType(): Json -> bool {
    (v: Json) =>
      v == JStr("ml") || v == JStr("sigma") || v == JStr("correlation") || v == JStr("ueba") || v == JStr("ioc")
  }

  predicate AskedRight(msg: map<string, Json>) {
    && ListOf(msg, "sources", 50, IsStr()) && ListOf(msg, "template_ids", 100, IsInt())
    && ListOf(msg, "alert_types", 10, IsAlertType())
    && ("min_severity" in msg ==> msg["min_severity"].JInt?)
  }

  /** At least the severity asked for, 1 if none is, within the range from 0 to 6. */
  predicate SevereEnough(msg: map<string, Json>, severity: int) {
    if "min_severity" in msg && msg["min_severity"].JInt?
    then severity >= 0 && (severity >= msg["min_severity"].num || severity >= 6)
    else severity >= 1
  }

  /** One of the first ten alert types is an array or an object. */
  predicate NamesContainer(msg: map<string, Json>) {
    && "alert_types" in msg && msg["alert_types"].JList?
    && exists i :: 0 <= i < 10 && i < |msg["alert_types"].items| && IsContainer(msg["alert_types"].items[i])
  }

  predicate IsContainer(v: Json) { v.JList? || v == JOther(false) }

  lemma RaisesIff(msg: map<string, Json>)
    ensures Raises(msg) <==> NamesContainer(msg)
  {
    if "alert_types" in msg && msg["alert_types"].JList? {
      var items := msg["alert_types"].items;
      forall v
        ensures v in Trim(items, 10) <==> exists i :: 0 <= i < 10 && i < |items| && items[i] == v
      {
        TrimIs(items, 10, v);
      }
      if v :| v in AlertTypeItems(msg) && !Hashable(v) {
        var i :| 0 <= i < 10 && i < |items| && items[i] == v;
        assert IsContainer(items[i]);
      }
      if NamesContainer(msg) {
        var i :| 0 <= i < 10 && i < |items| && IsContainer(items[i]);
        assert items[i] in AlertTypeItems(msg) && !Hashable(items[i]);
      }
    }
  }

  /** A refusal names exactly what is wrong with the message. */
  lemma ErrorsAre(msg: map<string, Json>, x: FilterError)
    ensures x in ParseFilter(msg).errors <==>
      || (!ListOf(msg, "sources", 50, IsStr())
          && x == if msg["sources"].JList? then WrongItems("sources") else NotAList("sources"))
      || (!ListOf(msg, "template_ids", 100, IsInt())
          && x == if msg["template_ids"].JList? then WrongItems("template_ids") else NotAList("template_ids"))
      || (!ListOf(msg, "alert_types", 10, IsAlertType())
          && x == if msg["alert_types"].JList? then UnknownAlertTypes else NotAList("alert_types"))
      || ("min_severity" in msg && !msg["min_severity"].JInt? && x == NotAnInteger)
  {
    FieldErrors(msg);
    hide ParseSources, ParseTemplates, ParseAlertTypes, ParseMinSeverity, ListOf;
    var a, b := ParseSources(msg).errors, ParseTemplates(msg).errors;
    var c, d := ParseAlertTypes(msg).errors, ParseMinSeverity(msg).errors;
    assert x in a + b + c + d <==> x in a || x in b || x in c || x in d;
  }

  lemma FieldErrors(msg: map<string, Json>)
    ensures ParseSources(msg).errors ==
      if ListOf(msg, "sources", 50, IsStr()) then []
      else if msg["sources"].JList? then [WrongItems("sources")] else [NotAList("sources")]
    ensures ParseTemplates(msg).errors ==
      if ListOf(msg, "template_ids", 100, IsInt()) then []
      else if msg["template_ids"].JList? then [WrongItems("template_ids")] else [NotAList("template_ids")]
    ensures ParseAlertTypes(msg).errors ==
      if ListOf(msg, "alert_types", 10, IsAlertType()) then []
      else if msg["alert_types"].JList? then [UnknownAlertTypes] else [NotAList("alert_types")]
    ensures ParseMinSeverity(msg).errors ==
      if "min_severity" in msg && !msg["min_severity"].JInt? then [NotAnInteger] else []
  {
    SourcesAre(msg, "");
    TemplatesAre(msg, 0);
    AlertTypesAre(msg, "");
    hide Trim, Strings, Ints, KnownType, AlertTypeItems, IsStr, IsInt, IsAlertType;
  }

  lemma TrimIs(items: seq<Json>, cap: nat, v: Json)
    ensures v in Trim(items, cap) <==> exists i :: 0 <= i < cap && i < |items| && items[i] == v
  {
    if v in Trim(items, cap) {
      var i :| 0 <= i < |Trim(items, cap)| && Trim(items, cap)[i] == v;
      assert items[i] == v;
    }
    if i :| 0 <= i < cap && i < |items| && items[i] == v {
      assert Trim(items, cap)[i] == v;
    }
  }

  lemma SourcesAre(msg: map<string, Json>, x: string)
    ensures ParseSources(msg).errors == [] <==> ListOf(msg, "sources", 50, IsStr())
    ensures ParseSources(msg).errors == [] ==>
              && (x in ParseSources(msg).value <==> Names(msg, "sources", 50, JStr(x)))
              && (ParseSources(msg).value == {} <==> NamesNothing(msg, "sources"))
  {
    if "sources" in msg && msg["sources"].JList? {
      var items := msg["sources"].items;
      forall v
        ensures v in Trim(items, 50) <==> exists i :: 0 <= i < 50 && i < |items| && items[i] == v
      {
        TrimIs(items, 50, v);
      }
      if items != [] && items[0].JStr? {
        assert items[0] in Trim(items, 50);
        assert items[0].str in Strings(Trim(items, 50));
      }
    }
  }

  lemma TemplatesAre(msg: map<string, Json>, x: int)
    ensures ParseTemplates(msg).errors == [] <==> ListOf(msg, "template_ids", 100, IsInt())
    ensures ParseTemplates(msg).errors == [] ==>
              && (x in ParseTemplates(msg).value <==> Names(msg, "template_ids", 100, JInt(x)))
              && (ParseTemplates(msg).value == {} <==> NamesNothing(msg, "template_ids"))
  {
    if "template_ids" in msg && msg["template_ids"].JList? {
      var items := msg["template_ids"].items;
      forall v
        ensures v in Trim(items, 100) <==> exists i :: 0 <= i < 100 && i < |items| && items[i] == v
      {
        TrimIs(items, 100, v);
      }
      if items != [] && items[0].JInt? {
        assert items[0] in Trim(items, 100);
        assert items[0].num in Ints(Trim(items, 100));
      }
    }
  }

  lemma AlertTypesAre(msg: map<string, Json>, x: string)
    ensures ParseAlertTypes(msg).errors == [] <==> ListOf(msg, "alert_types", 10, IsAlertType())
    ensures ParseAlertTypes(msg).errors == [] ==>
              && !Raises(msg)
              && (x in ParseAlertTypes(msg).value <==> Names(msg, "alert_types", 10, JStr(x)))
              && (ParseAlertTypes(msg).value == {} <==> NamesNothing(msg, "alert_types"))
  {
    forall v
      ensures KnownType(v) <==> IsAlertType()(v)
    {
    }
    hide KnownType;
    assert forall v :: IsAlertType()(v) ==> v.JStr?;
    if "alert_types" in msg && msg["alert_types"].JList? {
      var items := msg["alert_types"].items;
      forall v
        ensures v in Trim(items, 10) <==> exists i :: 0 <= i < 10 && i < |items| && items[i] == v
      {
        TrimIs(items, 10, v);
      }
      if items != [] && KnownType(items[0]) {
        assert items[0] in Trim(items, 10);
        assert items[0].str in ParseAlertTypes(msg).value;
      }
    }
  }

  lemma SeverityIs(msg: map<string, Json>, severity: int)
    ensures ParseMinSeverity(msg).errors == [] <==> ("min_severity" in msg ==> msg["min_severity"].JInt?)
    ensures severity >= ParseMinSeverity(msg).value <==> SevereEnough(msg, severity)
  {
  }

  /** A filter update takes effect if and only if it is not too soon after the last one
      that did, and every field is absent or as it should be. */
  lemma FilterTakesEffectIff(c: Config, k: Client, msg: map<string, Json>, now: int)
    ensures FilterVerdict(c, k, msg, now).Accepted? <==>
            (k.lastFilterNs <= 0 || now >= k.lastFilterNs + c.filterIntervalNs) && AskedRight(msg)
    ensures !FilterVerdict(c, k, msg, now).Accepted? ==> FilterSet(c, k, msg, now) == k
    ensures FilterVerdict(c, k, msg, now).Accepted? ==> FilterSet(c, k, msg, now).lastFilterNs == now
    ensures FilterVerdict(c, k, msg, now).TypeError? <==>
            (k.lastFilterNs <= 0 || now >= k.lastFilterNs + c.filterIntervalNs) && NamesContainer(msg)
  {
    RaisesIff(msg);
    hide ParseSources, ParseTemplates, ParseAlertTypes, ParseMinSeverity, Raises, ListOf;
    SourcesAre(msg, "");
    TemplatesAre(msg, 0);
    AlertTypesAre(msg, "");
    SeverityIs(msg, 0);
  }

  /** The filter then lets through exactly what the message asks for: of an event, its
      source and its template among those named, unless none are, and its severity; of an
      alert, its type and its severity. */
  lemma FilterMeansMessage(c: Config, k: Client, msg: map<string, Json>, now: int, e: Event, a: Alert)
    requires FilterVerdict(c, k, msg, now).Accepted?
    ensures FilterSet(c, k, msg, now).filter.MatchesEvent(e) <==>
              && (NamesNothing(msg, "sources") || Names(msg, "sources", 50, JStr(e.source)))
              && (NamesNothing(msg, "template_ids") || Names(msg, "template_ids", 100, JInt(e.template)))
              && SevereEnough(msg, e.severity)
    ensures FilterSet(c, k, msg, now).filter.MatchesAlert(a) <==>
              && (NamesNothing(msg, "alert_types") || Names(msg, "alert_types", 10, JStr(a.alertType)))
              && SevereEnough(msg, a.severity)
  {
    hide ParseSources, ParseTemplates, ParseAlertTypes, ParseMinSeverity, Raises, SevereEnough, Names, NamesNothing;
    SourcesAre(msg, e.source);
    TemplatesAre(msg, e.template);
    AlertTypesAre(msg, a.alertType);
    SeverityIs(msg, e.severity);
    SeverityIs(msg, a.severity);
  }

  /** Before its first update a client gets everything of non-negative severity. */
  lemma FreshGetsAll(e: Event, a: Alert)
    ensures FRESH.filter.MatchesEvent(e) <==> e.severity >= 0
    ensures FRESH.filter.MatchesAlert(a) <==> a.severity >= 0
  {
  }

  /** `connect` checks the cap, awaits the handshake, and only then registers the
      client: `Knock` is the check and `Welcome` the registration. */
  datatype Op =
    | Knock
    | Welcome(id: string)
    | HandshakeFails
    | Disconnect(id: string)
    | Filter(id: string, msg: map<string, Json>, now: int)
    | BroadcastEvent(event: Event)
    | BroadcastAlert(alert: Alert)
    | DrainEvents(id: string)
    | DrainAlerts(id: string)
    | SenderFails(id: string)

  type Clients = map<string, Client>

  /** The registered clients and the number of handshakes being awaited. */
  datatype Hub = Hub(clients: Clients, pending: nat)

  const EMPTY := Hub(map[], 0)

  predicate Admits(c: Config, h: Hub) { |h.clients| < c.maxConnections }

  function EachClient(cs: Clients, f: Client -> Client): Clients {
    map id | id in cs :: f(cs[id])
  }

  function EventOffer(c: Config, e: Event): Client -> Client { k => OfferEvent(c, k, e) }
  function AlertOffer(c: Config, a: Alert): Client -> Client { k => OfferAlert(c, k, a) }

  function StepClients(c: Config, cs: Clients, op: Op): Clients {
    match op
    case Disconnect(id) => cs - {id}
    case BroadcastEvent(e) => EachClient(cs, EventOffer(c, e))
    case BroadcastAlert(a) => EachClient(cs, AlertOffer(c, a))
    case Filter(id, msg, now) => if id in cs then cs[id := FilterSet(c, cs[id], msg, now)] else cs
    case DrainEvents(id) => if id in cs then cs[id := cs[id].(events := Pop(cs[id].events, c.batchMax))] else cs
    case DrainAlerts(id) => if id in cs then cs[id := cs[id].(alerts := Pop(cs[id].alerts, c.batchMax))] else cs
    case SenderFails(id) => if id in cs then cs[id := cs[id].(dead := true)] else cs
    case _ => cs
  }

  /** Connection ids are fresh; a handshake ends only when one is being awaited. */
  function Step(c: Config, h: Hub, op: Op): Hub {
    match op
    case Knock => if Admits(c, h) then h.(pending := h.pending + 1) else h
    case Welcome(id) => if h.pending > 0 && id !in h.clients then Hub(h.clients[id := FRESH], h.pending - 1) else h
    case HandshakeFails => if h.pending > 0 then h.(pending := h.pending - 1) else h
    case _ => h.(clients := StepClients(c, h.clients, op))
  }

  function Run(c: Config, ops: seq<Op>): Hub {
    if ops == [] then EMPTY else Step(c, Run(c, ops[..|ops| - 1]), ops[|ops| - 1])
  }

  // ---- per-client histories -----------------------------------------------------------------------------

  /** Whether the step registers `id`, where its histories begin. */
  predicate Connects(h: Hub, op: Op, id: string) {
    op == Welcome(id) && h.pending > 0 && id !in h.clients
  }

  /** The events that matched the filter in force at their broadcast, since it was registered. */
  function MatchedEvents(c: Config, ops: seq<Op>, id: string): seq<Event> {
    if ops == [] then []
    else
      var init, op := ops[..|ops| - 1], ops[|ops| - 1];
      var h, before := Run(c, init), MatchedEvents(c, init, id);
      var cs := h.clients;
      if Connects(h, op, id) then []
      else if op.BroadcastEvent? && id in cs && !cs[id].dead && cs[id].filter.MatchesEvent(op.event)
      then before + [op.event] else before
  }

  function PoppedEvents(c: Config, ops: seq<Op>, id: string): seq<Event> {
    if ops == [] then []
    else
      var init, op := ops[..|ops| - 1], ops[|ops| - 1];
      var h, before := Run(c, init), PoppedEvents(c, init, id);
      var cs := h.clients;
      if Connects(h, op, id) then []
      else if op == DrainEvents(id) && id in cs then before + Batch(cs[id].events, c.batchMax) else before
  }

  function MatchedAlerts(c: Config, ops: seq<Op>, id: string): seq<Alert> {
    if ops == [] then []
    else
      var init, op := ops[..|ops| - 1], ops[|ops| - 1];
      var h, before := Run(c, init), MatchedAlerts(c, init, id);
      var cs := h.clients;
      if Connects(h, op, id) then []
      else if op.BroadcastAlert? && id in cs && !cs[id].dead && cs[id].filter.MatchesAlert(op.alert)
      then before + [op.alert] else before
  }

  function PoppedAlerts(c: Config, ops: seq<Op>, id: string): seq<Alert> {
    if ops == [] then []
    else
      var init, op := ops[..|ops| - 1], ops[|ops| - 1];
      var h, before := Run(c, init), PoppedAlerts(c, init, id);
      var cs := h.clients;
      if Connects(h, op, id) then []
      else if op == DrainAlerts(id) && id in cs then before + Batch(cs[id].alerts, c.batchMax) else before
  }

  ghost predicate ClientAccounted(c: Config, ops: seq<Op>, id: string)
    requires id in Run(c, ops).clients
  {
    var k := Run(c, ops).clients[id];
    && Accounted(k.events, c.queueMax, MatchedEvents(c, ops, id), PoppedEvents(c, ops, id))
    && Accounted(k.alerts, c.queueMax, MatchedAlerts(c, ops, id), PoppedAlerts(c, ops, id))
  }

  lemma EmptyAccounted<T>(max: nat)
    ensures Accounted<T>(Queue([], 0), max, [], [])
  {
  }

  /** What one step does to one registered client: only a step that names it or a
      broadcast touches it, whatever the others do. */
  function Touched(c: Config, k: Client, op: Op, id: string): Client {
    match op
    case BroadcastEvent(e) => OfferEvent(c, k, e)
    case BroadcastAlert(a) => OfferAlert(c, k, a)
    case Filter(j, msg, now) => if j == id then FilterSet(c, k, msg, now) else k
    case DrainEvents(j) => if j == id then k.(events := Pop(k.events, c.batchMax)) else k
    case DrainAlerts(j) => if j == id then k.(alerts := Pop(k.alerts, c.batchMax)) else k
    case SenderFails(j) => if j == id then k.(dead := true) else k
    case _ => k
  }

  lemma StepOfClient(c: Config, h: Hub, op: Op, id: string)
    requires id in Step(c, h, op).clients
    ensures if Connects(h, op, id) then Step(c, h, op).clients[id] == FRESH
      else id in h.clients && Step(c, h, op).clients[id] == Touched(c, h.clients[id], op, id)
  {
    hide OfferEvent, OfferAlert, FilterSet, Pop;
  }

  /** Conservation and order, for every client over every interleaving: events and
      alerts that matched are popped, queued or counted as dropped; the queue is the
      newest part of them; and the popped ones are a subsequence of the older part. */
  lemma {:induction false} NothingIsUnaccounted(c: Config, ops: seq<Op>, id: string)
    requires id in Run(c, ops).clients
    ensures ClientAccounted(c, ops, id)
  {
    if ops != [] {
      var init, op := ops[..|ops| - 1], ops[|ops| - 1];
      var h := Run(c, init);
      StepOfClient(c, h, op, id);
      hide Step, Accounted, Touched;
      if Connects(h, op, id) {
        EmptyAccounted<Event>(c.queueMax);
        EmptyAccounted<Alert>(c.queueMax);
      } else {
        NothingIsUnaccounted(c, init, id);
        assert ops == init + [op];
        EventsAccounted(c, init, op, id);
        AlertsAccounted(c, init, op, id);
      }
    }
  }

  lemma EventsAccounted(c: Config, init: seq<Op>, op: Op, id: string)
    requires id in Run(c, init).clients && id in Step(c, Run(c, init), op).clients && ClientAccounted(c, init, id)
    requires !Connects(Run(c, init), op, id)
    ensures Accounted(Step(c, Run(c, init), op).clients[id].events, c.queueMax,
                      MatchedEvents(c, init + [op], id), PoppedEvents(c, init + [op], id))
  {
    var all := init + [op];
    assert all[..|all| - 1] == init;
    var h := Run(c, init);
    StepOfClient(c, h, op, id);
    hide Step, Accounted, Push, Pop, Batch;
    var matched, popped := MatchedEvents(c, init, id), PoppedEvents(c, init, id);
    if op.BroadcastEvent? {
      PushAccounted(h.clients[id].events, c.queueMax, matched, popped, op.event);
    } else if op == DrainEvents(id) {
      PopAccounted(h.clients[id].events, c.queueMax, matched, popped, c.batchMax);
    }
  }

  lemma AlertsAccounted(c: Config, init: seq<Op>, op: Op, id: string)
    requires id in Run(c, init).clients && id in Step(c, Run(c, init), op).clients && ClientAccounted(c, init, id)
    requires !Connects(Run(c, init), op, id)
    ensures Accounted(Step(c, Run(c, init), op).clients[id].alerts, c.queueMax,
                      MatchedAlerts(c, init + [op], id), PoppedAlerts(c, init + [op], id))
  {
    var all := init + [op];
    assert all[..|all| - 1] == init;
    var h := Run(c, init);
    StepOfClient(c, h, op, id);
    hide Step, Accounted, Push, Pop, Batch;
    var matched, popped := MatchedAlerts(c, init, id), PoppedAlerts(c, init, id);
    if op.BroadcastAlert? {
      PushAccounted(h.clients[id].alerts, c.queueMax, matched, popped, op.alert);
    } else if op == DrainAlerts(id) {
      PopAccounted(h.clients[id].alerts, c.queueMax, matched, popped, c.batchMax);
    }
  }

  ghost predicate InstalledFilter(f: ClientFilter) { f == MATCH_ALL || f.WithinCaps() }

  /** At every moment every client's filter is the initial one or within its caps. */
  lemma {:induction false} FiltersStayWithinCaps(c: Config, ops: seq<Op>)
    ensures forall id :: id in Run(c, ops).clients ==> InstalledFilter(Run(c, ops).clients[id].filter)
  {
    if ops != [] {
      var init, op := ops[..|ops| - 1], ops[|ops| - 1];
      var h := Run(c, init);
      FiltersStayWithinCaps(c, init);
      forall id | id in Step(c, h, op).clients
        ensures InstalledFilter(Step(c, h, op).clients[id].filter)
      {
        StepOfClient(c, h, op, id);
        if op.Filter? { ParsedIsWithinCaps(op.msg); }
        hide ParseFilter, Step, FilterVerdict;
      }
    }
  }

  // ---- the connection cap ------------------------------------------------------------------------------

  function Load(h: Hub): nat { |h.clients| + h.pending }

  /** The guard of `connect` counts registered clients only. */
  predicate AdmitsPastCap(c: Config, h: Hub, op: Op) {
    op.Knock? && Admits(c, h) && Load(h) >= c.maxConnections
  }

  lemma ClientsShrink(c: Config, cs: Clients, op: Op)
    ensures |StepClients(c, cs, op)| <= |cs|
  {
    hide OfferEvent, OfferAlert, FilterSet, Pop;
    var t := StepClients(c, cs, op);
    assert t.Keys <= cs.Keys;
    Subset(t.Keys, cs.Keys);
    assert |t| == |t.Keys| && |cs| == |cs.Keys|;
  }

  lemma Subset<T>(a: set<T>, b: set<T>)
    requires a <= b
    ensures |a| <= |b|
  {
    assert b == a + (b - a);
  }

  /** One step raises the load by one handshake at most, and only past an open guard. */
  lemma StepLoad(c: Config, h: Hub, op: Op)
    ensures Load(Step(c, h, op)) <= if op.Knock? && Admits(c, h) then Load(h) + 1 else Load(h)
    ensures op.Knock? && Admits(c, h) ==> Load(Step(c, h, op)) == Load(h) + 1
  {
    ClientsShrink(c, h.clients, op);
    hide StepClients;
    if op.Welcome? && h.pending > 0 && op.id !in h.clients {
      assert h.clients[op.id := FRESH].Keys == h.clients.Keys + {op.id};
      assert |h.clients[op.id := FRESH]| == |h.clients| + 1;
    }
  }

  predicate WithinCapAt(c: Config, ops: seq<Op>, n: nat)
    requires n <= |ops|
  {
    Load(Run(c, ops[..n])) <= c.maxConnections
  }

  predicate AdmittedPastCapAt(c: Config, ops: seq<Op>, n: nat)
    requires n < |ops|
  {
    AdmitsPastCap(c, Run(c, ops[..n]), ops[n])
  }

  /** Clients and handshakes together stay within the cap throughout a run if and only
      if no connect was admitted while handshakes already filled it up. */
  lemma {:induction false} CapHoldsIff(c: Config, ops: seq<Op>)
    ensures (forall n :: 0 <= n <= |ops| ==> WithinCapAt(c, ops, n))
       <==> (forall n :: 0 <= n < |ops| ==> !AdmittedPastCapAt(c, ops, n))
  {
    hide WithinCapAt, AdmittedPastCapAt;
    if n :| 0 <= n < |ops| && AdmittedPastCapAt(c, ops, n) {
      PastCap(c, ops, n);
      assert !WithinCapAt(c, ops, n + 1);
    } else {
      forall n | 0 <= n <= |ops|
        ensures WithinCapAt(c, ops, n)
      {
        LoadWithin(c, ops, n);
      }
    }
  }

  lemma PastCap(c: Config, ops: seq<Op>, n: nat)
    requires n < |ops| && AdmittedPastCapAt(c, ops, n)
    ensures !WithinCapAt(c, ops, n + 1)
  {
    hide Step, Run, Load;
    RunOneMore(c, ops, n);
    StepLoad(c, Run(c, ops[..n]), ops[n]);
  }

  lemma RunOneMore(c: Config, ops: seq<Op>, n: nat)
    requires n < |ops|
    ensures Run(c, ops[..n + 1]) == Step(c, Run(c, ops[..n]), ops[n])
  {
    hide Step;
    assert ops[..n + 1][..n] == ops[..n];
  }

  lemma StaysWithin(c: Config, ops: seq<Op>, n: nat)
    requires n < |ops| && WithinCapAt(c, ops, n) && !AdmittedPastCapAt(c, ops, n)
    ensures WithinCapAt(c, ops, n + 1)
  {
    hide Step, Run, Load;
    RunOneMore(c, ops, n);
    StepLoad(c, Run(c, ops[..n]), ops[n]);
  }

  lemma {:induction false} LoadWithin(c: Config, ops: seq<Op>, n: nat)
    requires n <= |ops| && forall m :: 0 <= m < |ops| ==> !AdmittedPastCapAt(c, ops, m)
    ensures WithinCapAt(c, ops, n)
  {
    if n == 0 {
      assert ops[..0] == [];
    } else {
      hide WithinCapAt, AdmittedPastCapAt;
      LoadWithin(c, ops, n - 1);
      StaysWithin(c, ops, n - 1);
    }
  }

  // ---- the promised cap, on registered clients -----------------------------------------------------------

  /** No further connect is attempted. */
  predicate NoKnock(ops: seq<Op>) {
    forall i :: 0 <= i < |ops| ==> !ops[i].Knock?
  }

  lemma RunConcat(c: Config, ops: seq<Op>, more: seq<Op>)
    requires more != []
    ensures Run(c, ops + more) == Step(c, Run(c, ops + more[..|more| - 1]), more[|more| - 1])
  {
    hide Step;
    assert (ops + more)[..|ops + more| - 1] == ops + more[..|more| - 1];
  }

  lemma {:induction false} LoadOnlyFalls(c: Config, ops: seq<Op>, more: seq<Op>)
    requires NoKnock(more)
    ensures Load(Run(c, ops + more)) <= Load(Run(c, ops))
  {
    hide Step, Load, Run;
    if more == [] {
      assert ops + more == ops;
    } else {
      LoadOnlyFalls(c, ops, more[..|more| - 1]);
      RunConcat(c, ops, more);
      StepLoad(c, Run(c, ops + more[..|more| - 1]), more[|more| - 1]);
    }
  }

  lemma {:induction false} LongerThanAll(ids: set<string>) returns (n: nat)
    ensures forall id :: id in ids ==> |id| < n
    decreases |ids|
  {
    if ids == {} {
      n := 0;
    } else {
      var id :| id in ids;
      var m := LongerThanAll(ids - {id});
      n := if |id| < m then m else |id| + 1;
    }
  }

  lemma UnusedId(cs: Clients) returns (id: string)
    ensures id !in cs
  {
    var n := LongerThanAll(cs.Keys);
    id := seq(n, _ => 'x');
  }

  lemma Registered(c: Config, h: Hub, id: string)
    requires h.pending > 0 && id !in h.clients
    ensures var t := Step(c, h, Welcome(id)); |t.clients| == |h.clients| + 1 && t.pending == h.pending - 1
  {
    assert h.clients[id := FRESH].Keys == h.clients.Keys + {id};
  }

  /** The handshakes being awaited may all succeed. */
  lemma {:induction false} AllRegister(c: Config, ops: seq<Op>) returns (more: seq<Op>)
    ensures NoKnock(more) && |Run(c, ops + more).clients| == Load(Run(c, ops))
    decreases Run(c, ops).pending
  {
    hide Step;
    var h := Run(c, ops);
    if h.pending == 0 {
      more := [];
      assert ops + more == ops;
    } else {
      var id := UnusedId(h.clients);
      Registered(c, h, id);
      var next := ops + [Welcome(id)];
      assert next[..|ops|] == ops;
      var rest := AllRegister(c, next);
      more := [Welcome(id)] + rest;
      assert ops + more == next + rest;
    }
  }

  /** The promise, exactly: whatever happens before the next connect is attempted, the
      registered clients stay within the cap, if and only if clients and awaited
      handshakes together are within it now. */
  lemma CapIsSafeIff(c: Config, ops: seq<Op>)
    ensures (forall more :: NoKnock(more) ==> |Run(c, ops + more).clients| <= c.maxConnections)
       <==> Load(Run(c, ops)) <= c.maxConnections
  {
    hide Run, NoKnock;
    if Load(Run(c, ops)) <= c.maxConnections {
      forall more | NoKnock(more)
        ensures |Run(c, ops + more).clients| <= c.maxConnections
      {
        LoadOnlyFalls(c, ops, more);
      }
    } else {
      var more := AllRegister(c, ops);
      assert NoKnock(more) && |Run(c, ops + more).clients| > c.maxConnections;
    }
  }

  /** One handshake at a time. */
  predicate Serialised(c: Config, ops: seq<Op>) {
    forall n :: 0 <= n < |ops| && ops[n].Knock? ==> Run(c, ops[..n]).pending == 0
  }

  /** Callers that await every handshake before the next connect keep the cap throughout. */
  lemma SerialisedConnectsKeepCap(c: Config, ops: seq<Op>, n: nat)
    requires n <= |ops| && Serialised(c, ops)
    ensures |Run(c, ops[..n]).clients| <= c.maxConnections
  {
    hide Run, Step;
    forall m | 0 <= m < |ops|
      ensures !AdmittedPastCapAt(c, ops, m)
    {
    }
    LoadWithin(c, ops, n);
  }

  /** So overlapping handshakes exceed the cap: admitted before either is registered,
      two of them both get in where one was allowed. */
  lemma OverlappingHandshakesExceedCap(c: Config, a: string, b: string)
    requires c.maxConnections == 1 && a != b
    ensures |Run(c, [Knock, Knock, Welcome(a), Welcome(b)]).clients| == 2
  {
    var ops := [Knock, Knock, Welcome(a), Welcome(b)];
    assert ops[..3][..2] == [Knock, Knock] && ops[..3][..2][..1] == [Knock] && ops[..3][..2][..1][..0] == [];
    assert Run(c, ops[..3][..2][..1]) == Hub(map[], 1);
    assert Run(c, ops[..3][..2]) == Hub(map[], 2);
    assert Run(c, ops[..3]) == Hub(map[a := FRESH], 1);
    assert Run(c, ops) == Hub(map[a := FRESH, b := FRESH], 0);
  }

  lemma Drained<T>(q: Queue<T>, batchMax: nat, batch: seq<T>, rest: seq<T>)
    requires batch + rest == q.items && |batch| <= batchMax && (rest == [] || |batch| == batchMax)
    ensures Batch(q, batchMax) == batch && Pop(q, batchMax) == Queue(rest, q.dropped)
  {
    assert (batch + rest)[|batch|..] == rest;
  }

  // ---- the manager itself ------------------------------------------------------------------------------

  /** One connected client; its queues are deques bounded by `queueMax`. */
  class ClientState {
    var filter: ClientFilter
    var eventDeque: seq<Event>
    var alertDeque: seq<Alert>
    var droppedEvents: nat
    var droppedAlerts: nat
    var lastFilterNs: int
    var dead: bool

    constructor ()
      ensures Value() == FRESH
    {
      filter, eventDeque, alertDeque := MATCH_ALL, [], [];
      droppedEvents, droppedAlerts, lastFilterNs, dead := 0, 0, 0, false;
    }

    ghost function Value(): Client
      reads this
    {
      Client(filter, Queue(eventDeque, droppedEvents), Queue(alertDeque, droppedAlerts), lastFilterNs, dead)
    }
  }

  class ConnectionManager {
    const config: Config
    var clients: map<string, ClientState>
    ghost var pending: nat

    /** No two connections share their state. */
    ghost predicate Valid()
      reads this
    {
      forall i, j :: i in clients && j in clients && i != j ==> clients[i] != clients[j]
    }

    ghost function Model(): Hub
      reads this, clients.Values
    {
      Hub(map id | id in clients :: clients[id].Value(), pending)
    }

    constructor (config: Config)
      ensures Valid() && Model() == EMPTY && this.config == config && clients == map[]
    {
      this.config := config;
      clients, pending := map[], 0;
    }

    /** `connect` up to its await. */
    method BeginConnect() returns (admitted: bool)
      modifies this
      ensures clients == old(clients)
      ensures admitted == Admits(config, old(Model())) && Model() == Step(config, old(Model()), Knock)
    {
      assert Model().clients.Keys == clients.Keys;
      admitted := |clients| < config.maxConnections;
      if admitted { pending := pending + 1; }
    }

    /** `connect` after its await. */
    method EndConnect(id: string)
      requires Valid() && pending > 0 && id !in clients
      modifies this
      ensures Valid() && clients.Keys == old(clients.Keys) + {id} && fresh(clients[id])
      ensures Model() == Step(config, old(Model()), Welcome(id))
    {
      hide StepClients;
      ghost var before := Model();
      var client := new ClientState();
      assert client.Value() == FRESH && Model() == before;
      clients := clients[id := client];
      pending := pending - 1;
      assert Model().clients == before.clients[id := FRESH];
    }

    method Disconnect(id: string)
      requires Valid()
      modifies this
      ensures Valid() && Model() == Step(config, old(Model()), Op.Disconnect(id))
    {
      clients := clients - {id};
    }

    method SetFilter(id: string, msg: map<string, Json>, now: int) returns (reply: FilterReply)
      requires Valid()
      modifies clients.Values
      ensures Model() == Step(config, old(Model()), Filter(id, msg, now))
      ensures reply == if id in clients then FilterVerdict(config, old(clients[id].Value()), msg, now) else Unknown
    {
      hide ParseFilter, Raises, FilterVerdict, FilterSet;
      if id !in clients { return Unknown; }
      reply := ApplyFilter(clients[id], msg, now);
    }

    method ApplyFilter(client: ClientState, msg: map<string, Json>, now: int) returns (reply: FilterReply)
      modifies client
      ensures client.Value() == FilterSet(config, old(client.Value()), msg, now)
      ensures reply == FilterVerdict(config, old(client.Value()), msg, now)
    {
      hide ParseFilter, Raises;
      if client.lastFilterNs > 0 && now - client.lastFilterNs < config.filterIntervalNs {
        return Refused([Throttled]);
      }
      if Raises(msg) { return TypeError; }
      var parsed := ParseFilter(msg);
      if parsed.errors != [] { return Refused(parsed.errors); }
      client.filter, client.lastFilterNs := parsed.value, now;
      reply := Accepted;
    }

    method BroadcastEvent(e: Event)
      requires Valid()
      modifies clients.Values
      ensures Model() == Step(config, old(Model()), Op.BroadcastEvent(e))
    {
      hide OfferEvent;
      var todo := clients.Keys;
      while todo != {}
        invariant todo <= clients.Keys
        invariant forall id :: id in todo ==> clients[id].Value() == old(clients[id].Value())
        invariant forall id :: id in clients && id !in todo ==>
          clients[id].Value() == OfferEvent(config, old(clients[id].Value()), e)
      {
        var id :| id in todo;
        todo := todo - {id};
        OfferEventTo(clients[id], e);
      }
    }

    method OfferEventTo(client: ClientState, e: Event)
      modifies client
      ensures client.Value() == OfferEvent(config, old(client.Value()), e)
    {
      if client.dead || !client.filter.MatchesEvent(e) { return; }
      if |client.eventDeque| == config.queueMax { client.droppedEvents := client.droppedEvents + 1; }
      client.eventDeque := LastN(client.eventDeque + [e], config.queueMax);
    }

    method BroadcastAlert(a: Alert)
      requires Valid()
      modifies clients.Values
      ensures Model() == Step(config, old(Model()), Op.BroadcastAlert(a))
    {
      hide OfferAlert;
      var todo := clients.Keys;
      while todo != {}
        invariant todo <= clients.Keys
        invariant forall id :: id in todo ==> clients[id].Value() == old(clients[id].Value())
        invariant forall id :: id in clients && id !in todo ==>
          clients[id].Value() == OfferAlert(config, old(clients[id].Value()), a)
      {
        var id :| id in todo;
        todo := todo - {id};
        OfferAlertTo(clients[id], a);
      }
    }

    method OfferAlertTo(client: ClientState, a: Alert)
      modifies client
      ensures client.Value() == OfferAlert(config, old(client.Value()), a)
    {
      if client.dead || !client.filter.MatchesAlert(a) { return; }
      if |client.alertDeque| == config.queueMax { client.droppedAlerts := client.droppedAlerts + 1; }
      client.alertDeque := LastN(client.alertDeque + [a], config.queueMax);
    }

    method DrainEvents(id: string) returns (batch: seq<Event>)
      requires Valid() && id in clients
      modifies clients[id]
      ensures Model() == Step(config, old(Model()), Op.DrainEvents(id))
      ensures batch == Batch(old(clients[id].Value().events), config.batchMax)
    {
      hide Pop, Batch;
      batch := TakeEvents(clients[id]);
    }

    method TakeEvents(client: ClientState) returns (batch: seq<Event>)
      modifies client
      ensures client.Value() == old(client.Value()).(events := Pop(old(client.Value()).events, config.batchMax))
      ensures batch == Batch(old(client.Value().events), config.batchMax)
    {
      batch := [];
      while client.eventDeque != [] && |batch| < config.batchMax
        invariant |batch| <= config.batchMax && batch + client.eventDeque == old(client.eventDeque)
        invariant client.Value() == old(client.Value()).(events := Queue(client.eventDeque, old(client.droppedEvents)))
        decreases |client.eventDeque|
      {
        batch := batch + [client.eventDeque[0]];
        client.eventDeque := client.eventDeque[1..];
      }
      Drained(old(client.Value().events), config.batchMax, batch, client.eventDeque);
      hide Pop, Batch;
    }

    method DrainAlerts(id: string) returns (batch: seq<Alert>)
      requires Valid() && id in clients
      modifies clients[id]
      ensures Model() == Step(config, old(Model()), Op.DrainAlerts(id))
      ensures batch == Batch(old(clients[id].Value().alerts), config.batchMax)
    {
      hide Pop, Batch;
      batch := TakeAlerts(clients[id]);
    }

    method TakeAlerts(client: ClientState) returns (batch: seq<Alert>)
      modifies client
      ensures client.Value() == old(client.Value()).(alerts := Pop(old(client.Value()).alerts, config.batchMax))
      ensures batch == Batch(old(client.Value().alerts), config.batchMax)
    {
      batch := [];
      while client.alertDeque != [] && |batch| < config.batchMax
        invariant |batch| <= config.batchMax && batch + client.alertDeque == old(client.alertDeque)
        invariant client.Value() == old(client.Value()).(alerts := Queue(client.alertDeque, old(client.droppedAlerts)))
        decreases |client.alertDeque|
      {
        batch := batch + [client.alertDeque[0]];
        client.alertDeque := client.alertDeque[1..];
      }
      Drained(old(client.Value().alerts), config.batchMax, batch, client.alertDeque);
      hide Pop, Batch;
    }
  }
}
