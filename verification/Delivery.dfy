/** src/seerflow/alerting/dispatcher.py driving the router: the interleaved steps of the
    queue consumer, the flusher tasks, the deliveries and the shutdown, with what was
    accepted, routed, buffered and delivered kept as histories. A step that is not
    enabled changes nothing. */
module Delivery {
  import opened Options
  import opened Routing
  import opened Dicts
  import opened Digest

  datatype Config = Config(
    glob: Glob,
    rules: seq<Rule>,
    fallback: seq<Notify>,
    quiet: map<string, QuietHours>,
    targets: map<string, nat>,
    queueMax: nat)

  /** The alert `route` is working on, its rule, and the notifications still to handle. */
  datatype InRoute = InRoute(alert: Alert, rule: int, left: seq<Notify>)

  type Log = seq<(Key, Alert)>

  datatype Sys = Sys(
    queue: seq<Alert>,
    running: bool,
    dropped: nat,
    current: Option<InRoute>,
    router: Router,
    offered: nat,
    accepted: seq<Alert>,
    routed: seq<Alert>,
    immediate: seq<(string, Alert)>,
    buffered: Log,
    delivered: Log)

  const INITIAL := Sys([], true, 0, None, EMPTY, 0, [], [], [], [], [])

  datatype Op =
    | Offer(alert: Alert)
    | SignalStop
    | Take
    | Handle(time: nat)
    | Wake(key: Key)
    | Return(id: nat, taken: nat)
    | Exit
    | StartDrain
    | NextDrain
    | EndDrain

  function Tag(key: Key, list: seq<Alert>): Log {
    seq(|list|, i requires 0 <= i < |list| => (key, list[i]))
  }

  /** The alerts of one key, in order. */
  function Of(log: Log, key: Key): seq<Alert> {
    if log == [] then []
    else
      var before := Of(log[..|log| - 1], key);
      if log[|log| - 1].0 == key then before + [log[|log| - 1].1] else before
  }

  // ---- steps -------------------------------------------------------------------------------

  predicate Enabled(s: Sys, op: Op) {
    match op
    case Offer(_) => true
    case SignalStop => true
    case Take => s.router.drain.Running? && s.current.None? && s.queue != []
    case Handle(_) => s.router.drain.Running? && s.current.Some? && s.current.value.left != []
    case Wake(key) => key in s.router.tasks
    case Return(id, taken) =>
      id in s.router.flights && s.router.flights[id].begun <= taken <= |ListOf(s.router, s.router.flights[id])|
    case Exit => s.router.drain.Running? && !s.running && s.current.None? && s.queue == []
    case StartDrain => s.router.drain.Cancelled?
    case NextDrain => s.router.drain.Draining? && s.router.drain.todo != [] && !s.router.drain.busy
    case EndDrain => s.router.drain.Draining? && s.router.drain.todo != [] && s.router.drain.busy
  }

  predicate Full(c: Config, s: Sys) {
    c.queueMax > 0 && |s.queue| >= c.queueMax
  }

  predicate Passes(c: Config, n: Notify, a: Alert) {
    n.channel in c.targets && a.severity >= c.targets[n.channel]
  }

  function Route(c: Config, a: Alert): Option<InRoute> {
    var (rule, notify) := Select(c.glob, c.rules, c.fallback, a);
    if notify == [] then None else Some(InRoute(a, rule, notify))
  }

  function HandleOne(c: Config, s: Sys, time: nat): Sys
    requires s.router.buffers.Valid() && s.current.Some? && s.current.value.left != []
  {
    var w := s.current.value;
    var n, a, rest := w.left[0], w.alert, w.left[1..];
    var t := s.(current := if rest == [] then None else Some(w.(left := rest)));
    if !Passes(c, n, a) || Suppressed(c.quiet, n.channel, a, time) then t
    else if n.digest then
      var key := Key(w.rule, n.channel);
      t.(router := AddAlert(s.router, key, a), buffered := s.buffered + [(key, a)])
    else t.(immediate := s.immediate + [(n.channel, a)])
  }

  function Deliver(s: Sys, router: Router, key: Key, batch: seq<Alert>): Sys {
    s.(router := router, delivered := s.delivered + Tag(key, batch))
  }

  function Step(c: Config, s: Sys, op: Op): (t: Sys)
    requires s.router.buffers.Valid()
    ensures t.router.buffers.Valid()
  {
    var r := s.router;
    if !Enabled(s, op) then s
    else match op
      case Offer(a) =>
        var t := s.(offered := s.offered + 1);
        if Full(c, s) then t.(dropped := s.dropped + 1)
        else t.(queue := s.queue + [a], accepted := s.accepted + [a])
      case SignalStop => s.(running := false)
      case Take => s.(queue := s.queue[1..], routed := s.routed + [s.queue[0]], current := Route(c, s.queue[0]))
      case Handle(time) => HandleOne(c, s, time)
      case Wake(key) => Deliver(s, FlushBegin(r, key), key, Digest.Buffer(r, key))
      case Return(id, taken) =>
        var f := r.flights[id];
        Deliver(s, FlushEnd(r, id), f.key, ListOf(r, f)[f.begun..taken])
      case Exit => s.(router := StopBegin(r))
      case StartDrain => s.(router := DrainStart(r))
      case NextDrain =>
        var (key, list) := r.drain.todo[0];
        Deliver(s, DrainBegin(r, c.targets.Keys), key, if DrainDelivers(r, c.targets.Keys) then list else [])
      case EndDrain => s.(router := DrainNext(r))
  }

  function Run(c: Config, ops: seq<Op>): (s: Sys)
    ensures s.router.buffers.Valid()
  {
    if ops == [] then INITIAL else Step(c, Run(c, ops[..|ops| - 1]), ops[|ops| - 1])
  }

  lemma {:induction false} OfConcat(a: Log, b: Log, key: Key)
    ensures Of(a + b, key) == Of(a, key) + Of(b, key)
  {
    if b == [] {
      assert a + b == a;
    } else {
      assert (a + b)[..|a + b| - 1] == a + b[..|b| - 1];
      OfConcat(a, b[..|b| - 1], key);
    }
  }

  lemma {:induction false} OfTag(k: Key, list: seq<Alert>, key: Key)
    ensures Of(Tag(k, list), key) == if k == key then list else []
  {
    if list != [] {
      assert Tag(k, list)[..|list| - 1] == Tag(k, list[..|list| - 1]);
      OfTag(k, list[..|list| - 1], key);
    }
  }

  lemma DeliverOf(s: Sys, router: Router, k: Key, batch: seq<Alert>, key: Key)
    ensures Of(Deliver(s, router, k, batch).delivered, key)
         == Of(s.delivered, key) + if k == key then batch else []
  {
    OfConcat(s.delivered, Tag(k, batch), key);
    OfTag(k, batch, key);
  }

  // ---- the queue: first in, first routed -------------------------------------------------------

  lemma OtherStepsKeepQueue(c: Config, s: Sys, op: Op)
    requires s.router.buffers.Valid() && !op.Offer? && !(op.Take? && Enabled(s, op))
    ensures var t := Step(c, s, op);
            t.queue == s.queue && t.accepted == s.accepted && t.routed == s.routed
            && t.offered == s.offered && t.dropped == s.dropped
  {
    hide FlushBegin, FlushEnd, DrainBegin, DrainNext, DrainStart, StopBegin, AddAlert, DrainDelivers, Dict.Valid;
    hide ListOf, Tag, Passes, Suppressed;
  }

  lemma TakeRoutesFirst(c: Config, s: Sys)
    requires s.router.buffers.Valid() && Enabled(s, Take)
    ensures var t := Step(c, s, Take);
            t.routed + t.queue == s.routed + s.queue && t.accepted == s.accepted
            && |t.queue| == |s.queue| - 1 && |t.routed| == |s.routed| + 1
            && t.offered == s.offered && t.dropped == s.dropped
  {
    hide Route, Dict.Valid;
    assert s.queue == [s.queue[0]] + s.queue[1..];
  }

  lemma OfferIsCounted(c: Config, s: Sys, a: Alert)
    requires s.router.buffers.Valid()
    ensures var t := Step(c, s, Offer(a));
            if Full(c, s) then t == s.(offered := s.offered + 1, dropped := s.dropped + 1)
            else t == s.(offered := s.offered + 1, queue := s.queue + [a], accepted := s.accepted + [a])
  {
    hide Dict.Valid;
  }

  /** Everything offered is dropped, queued or routed, in order; the bound holds; and
      once the consumer has left its loop, every alert accepted until then was routed. */
  lemma {:induction false} QueueIsFifo(c: Config, ops: seq<Op>)
    ensures var s := Run(c, ops);
            && s.accepted == s.routed + s.queue
            && s.offered == |s.routed| + |s.queue| + s.dropped
            && (c.queueMax > 0 ==> |s.queue| <= c.queueMax)
  {
    hide Step, Dict.Valid;
    if ops != [] {
      var s, op := Run(c, ops[..|ops| - 1]), ops[|ops| - 1];
      QueueIsFifo(c, ops[..|ops| - 1]);
      if op.Offer? {
        OfferIsCounted(c, s, op.alert);
      } else if op.Take? && Enabled(s, op) {
        TakeRoutesFirst(c, s);
      } else {
        OtherStepsKeepQueue(c, s, op);
      }
    }
  }

  lemma ExitLeavesNothingQueued(c: Config, ops: seq<Op>)
    requires Enabled(Run(c, ops), Exit)
    ensures Run(c, ops).routed == Run(c, ops).accepted && Run(c, ops).current == None
  {
    QueueIsFifo(c, ops);
  }

  // ---- no digest is forgotten ----------------------------------------------------------------------

  /** What one step does to the router. */
  function NextRouter(c: Config, s: Sys, op: Op): Router
    requires s.router.buffers.Valid()
  {
    var r := s.router;
    if !Enabled(s, op) then r
    else match op
      case Handle(time) =>
        var w := s.current.value;
        var n := w.left[0];
        if Passes(c, n, w.alert) && !Suppressed(c.quiet, n.channel, w.alert, time) && n.digest
        then AddAlert(r, Key(w.rule, n.channel), w.alert) else r
      case Wake(key) => FlushBegin(r, key)
      case Return(id, _) => FlushEnd(r, id)
      case Exit => StopBegin(r)
      case StartDrain => DrainStart(r)
      case NextDrain => DrainBegin(r, c.targets.Keys)
      case EndDrain => DrainNext(r)
      case _ => r
  }

  lemma StepRouter(c: Config, s: Sys, op: Op)
    requires s.router.buffers.Valid()
    ensures Step(c, s, op).router == NextRouter(c, s, op)
  {
    hide FlushBegin, FlushEnd, DrainBegin, DrainNext, DrainStart, StopBegin, AddAlert, DrainDelivers, Dict.Valid;
    hide ListOf, Tag, Passes, Suppressed, Route;
  }

  lemma RouterKeepsNumbered(c: Config, s: Sys, op: Op)
    requires s.router.buffers.Valid() && Numbered(s.router)
    ensures Numbered(NextRouter(c, s, op))
  {
    hide Numbered, FlushBegin, FlushEnd, AddAlert, Dict.Valid, Passes, Suppressed, ListOf;
    var r := s.router;
    if Enabled(s, op) {
      match op
      case Handle(_) =>
        var routing := s.current.value;
        AddAlertFacts(r, Key(routing.rule, routing.left[0].channel), routing.alert);
      case Wake(key) => FlushBeginFacts(r, key);
      case Return(id, _) => FlushEndFacts(r, id);
      case Exit => OnlyDrains(r, {}, Cancelled);
      case StartDrain => OnlyDrains(r, r.tasks, DrainStart(r).drain);
      case NextDrain => DrainFacts(r, c.targets.Keys);
      case EndDrain => DrainFacts(r, c.targets.Keys);
      case _ =>
    }
  }

  lemma OnlyDrains(r: Router, tasks: set<Key>, drain: Drain)
    requires Numbered(r)
    ensures Numbered(r.(tasks := tasks, drain := drain))
  {
  }

  lemma DrainFacts(r: Router, targets: set<string>)
    requires r.buffers.Valid() && Numbered(r) && r.drain.Draining? && r.drain.todo != []
    ensures Numbered(DrainNext(r)) && Numbered(DrainBegin(r, targets))
  {
    hide Numbered, PopBuffer, Dict.Valid;
    var popped := PopBuffer(r, r.drain.todo[0].0);
    PopBufferFacts(r, r.drain.todo[0].0);
    OnlyDrains(popped, popped.tasks, DrainNext(r).drain);
    OnlyDrains(r, r.tasks, DrainBegin(r, targets).drain);
  }

  lemma RouterKeepsAttended(c: Config, s: Sys, op: Op)
    requires s.router.buffers.Valid() && Numbered(s.router) && Attended(s.router)
    requires NextRouter(c, s, op).drain.Running?
    ensures s.router.drain.Running? ==> Attended(NextRouter(c, s, op))
  {
    hide Numbered, Attended, FlushBegin, FlushEnd, AddAlert, Dict.Valid, Passes, Suppressed, ListOf;
    var r := s.router;
    if Enabled(s, op) && r.drain.Running? {
      match op
      case Handle(_) =>
        var routing := s.current.value;
        AddAlertFacts(r, Key(routing.rule, routing.left[0].channel), routing.alert);
      case Wake(key) => FlushBeginFacts(r, key);
      case Return(id, _) => FlushEndFacts(r, id);
      case _ =>
    }
  }

  lemma RunningStays(c: Config, s: Sys, op: Op)
    requires s.router.buffers.Valid()
    ensures NextRouter(c, s, op).drain.Running? ==> s.router.drain.Running?
  {
    hide Dict.Valid, Passes, Suppressed, ListOf, Orphaned;
  }

  /** In every interleaving, while the router runs, a buffered digest has a flusher that
      will wake up or a delivery under way that holds its list; and every delivery goes
      to the channel of its key. */
  lemma {:induction false} BuffersAreAttended(c: Config, ops: seq<Op>)
    ensures var r := Run(c, ops).router;
            && Numbered(r)
            && (r.drain.Running? ==> Attended(r))
  {
    if ops != [] {
      var s, op := Run(c, ops[..|ops| - 1]), ops[|ops| - 1];
      hide Numbered, Attended, Step, NextRouter, Dict.Valid;
      BuffersAreAttended(c, ops[..|ops| - 1]);
      StepRouter(c, s, op);
      RouterKeepsNumbered(c, s, op);
      RunningStays(c, s, op);
      if NextRouter(c, s, op).drain.Running? { RouterKeepsAttended(c, s, op); }
    }
  }

  // ---- one key at a time ------------------------------------------------------------------------------

  /** What concerns one key: its buffer and its deliveries under way. */
  datatype View = View(buf: seq<Alert>, flights: map<nat, Flight>)

  function ViewOf(r: Router, key: Key): View {
    View(Digest.Buffer(r, key), map id | id in r.flights && r.flights[id].key == key :: r.flights[id])
  }

  function Popped(v: View): View {
    View([], map id | id in v.flights ::
      if v.flights[id].live then v.flights[id].(live := false, list := v.buf) else v.flights[id])
  }

  lemma AddAlertView(r: Router, k: Key, a: Alert, key: Key)
    requires r.buffers.Valid()
    ensures ViewOf(AddAlert(r, k, a), key) ==
      if k == key then ViewOf(r, key).(buf := ViewOf(r, key).buf + [a]) else ViewOf(r, key)
  {
    hide Dict.Valid;
  }

  lemma PopView(r: Router, k: Key, key: Key)
    requires r.buffers.Valid()
    ensures ViewOf(PopBuffer(r, k), key) == if k == key then Popped(ViewOf(r, key)) else ViewOf(r, key)
  {
    hide Dict.Valid;
    assert Digest.Buffer(PopBuffer(r, k), key) == if k == key then [] else Digest.Buffer(r, key);
  }

  lemma FlushBeginView(r: Router, k: Key, key: Key)
    requires r.buffers.Valid() && r.started !in r.flights
    ensures var v := ViewOf(r, key);
            ViewOf(FlushBegin(r, k), key) ==
              if k != key then v
              else if v.buf == [] then Popped(v)
              else v.(flights := v.flights[r.started := Flight(key, key.channel, |v.buf|, true, [])])
  {
    hide Dict.Valid, PopBuffer, Popped;
    PopView(r.(tasks := r.tasks - {k}), k, key);
  }

  lemma FlushEndView(r: Router, id: nat, key: Key)
    requires r.buffers.Valid() && id in r.flights
    ensures var v := ViewOf(r, key);
            ViewOf(FlushEnd(r, id), key) ==
              if r.flights[id].key == key then Popped(v.(flights := v.flights - {id})) else v
  {
    hide Dict.Valid, PopBuffer, Popped;
    var without := r.(flights := r.flights - {id});
    PopView(without, r.flights[id].key, key);
    assert ViewOf(without, key) == if r.flights[id].key == key
      then ViewOf(r, key).(flights := ViewOf(r, key).flights - {id}) else ViewOf(r, key);
  }

  // ---- the drain's entries ------------------------------------------------------------------------------

  /** What the drain's remaining entries will deliver for a key. */
  function Left(entries: seq<(Key, seq<Alert>)>, key: Key): seq<Alert> {
    if entries == [] then []
    else (if entries[0].0 == key then entries[0].1 else []) + Left(entries[1..], key)
  }

  function LeftOf(r: Router, key: Key): seq<Alert> {
    if !r.drain.Draining? || r.drain.todo == [] then []
    else Left(if r.drain.busy then r.drain.todo[1..] else r.drain.todo, key)
  }

  lemma {:induction false} LeftAbsent(entries: seq<(Key, seq<Alert>)>, key: Key)
    requires forall i :: 0 <= i < |entries| ==> entries[i].0 != key
    ensures Left(entries, key) == []
  {
    if entries != [] { LeftAbsent(entries[1..], key); }
  }

  lemma {:induction false} LeftOnce(entries: seq<(Key, seq<Alert>)>, i: nat)
    requires i < |entries|
    requires forall j :: 0 <= j < |entries| && j != i ==> entries[j].0 != entries[i].0
    ensures Left(entries, entries[i].0) == entries[i].1
  {
    var key := entries[i].0;
    if i == 0 {
      LeftAbsent(entries[1..], key);
    } else {
      assert entries[1..][i - 1] == entries[i];
      LeftOnce(entries[1..], i - 1);
    }
  }

  lemma LeftOfItems(d: Dict<Key, seq<Alert>>, key: Key)
    requires d.Valid()
    ensures Left(Items(d), key) == if d.Has(key) then d.vals[key] else []
  {
    var items := Items(d);
    d.Member(key);
    if d.Has(key) {
      var i :| 0 <= i < |d.keys| && d.keys[i] == key;
      forall j | 0 <= j < |items| && j != i
        ensures items[j].0 != items[i].0
      {
        if j < i { d.Distinct(j, i); } else { d.Distinct(i, j); }
      }
      LeftOnce(items, i);
    } else {
      LeftAbsent(items, key);
    }
  }

  /** Every key in use names a known target. */
  ghost predicate Targeted(c: Config, r: Router) {
    && (forall key :: key in r.buffers.vals ==> key.channel in c.targets)
    && (r.drain.Draining? ==> forall i :: 0 <= i < |r.drain.todo| ==> r.drain.todo[i].0.channel in c.targets)
  }

  /** Flushers exist only while the router runs, and a drain under way has work left. */
  ghost predicate Phased(r: Router) {
    (!r.drain.Running? ==> r.tasks == {}) && (r.drain.Draining? ==> r.drain.todo != [])
  }

  ghost predicate Sound(c: Config, r: Router) {
    Numbered(r) && Targeted(c, r) && Phased(r)
  }

  lemma PopBufferKeys(r: Router, key: Key)
    requires r.buffers.Valid()
    ensures PopBuffer(r, key).buffers.vals.Keys <= r.buffers.vals.Keys
    ensures PopBuffer(r, key).tasks == r.tasks && PopBuffer(r, key).drain == r.drain
  {
    hide Dict.Valid;
  }

  lemma KeepsPhased(c: Config, s: Sys, op: Op)
    requires s.router.buffers.Valid() && Phased(s.router)
    ensures Phased(NextRouter(c, s, op))
  {
    hide Dict.Valid, Suppressed, Passes, ListOf, Orphaned;
  }

  lemma KeepsTargeted(c: Config, s: Sys, op: Op)
    requires s.router.buffers.Valid() && Targeted(c, s.router)
    ensures Targeted(c, NextRouter(c, s, op))
  {
    hide Dict.Valid, Suppressed, ListOf, PopBuffer, Items;
    var r := s.router;
    if Enabled(s, op) {
      match op
      case Handle(_) =>
        var routing := s.current.value;
        AddAlertKeys(r, Key(routing.rule, routing.left[0].channel), routing.alert);
      case Wake(key) => PopBufferKeys(r.(tasks := r.tasks - {key}), key);
      case Return(id, _) => PopBufferKeys(r.(flights := r.flights - {id}), r.flights[id].key);
      case StartDrain => ItemsKeys(r.buffers);
      case NextDrain => PopBufferKeys(r, r.drain.todo[0].0);
      case EndDrain => PopBufferKeys(r, r.drain.todo[0].0);
      case _ =>
    }
  }

  lemma AddAlertKeys(r: Router, key: Key, a: Alert)
    requires r.buffers.Valid()
    ensures AddAlert(r, key, a).buffers.vals.Keys == r.buffers.vals.Keys + {key}
    ensures AddAlert(r, key, a).drain == r.drain
  {
    hide Dict.Valid;
  }

  lemma StepKeepsSound(c: Config, s: Sys, op: Op)
    requires s.router.buffers.Valid() && Sound(c, s.router)
    ensures Sound(c, NextRouter(c, s, op))
  {
    hide Numbered, Targeted, Phased, NextRouter, Dict.Valid;
    RouterKeepsNumbered(c, s, op);
    KeepsTargeted(c, s, op);
    KeepsPhased(c, s, op);
  }

  lemma ItemsKeys(d: Dict<Key, seq<Alert>>)
    requires d.Valid()
    ensures forall i :: 0 <= i < |Items(d)| ==> Items(d)[i].0 in d.vals
  {
    forall i | 0 <= i < |Items(d)|
      ensures Items(d)[i].0 in d.vals
    {
      d.Member(d.keys[i]);
    }
  }

  lemma {:induction false} RunIsSound(c: Config, ops: seq<Op>)
    ensures Sound(c, Run(c, ops).router)
  {
    if ops != [] {
      var s, op := Run(c, ops[..|ops| - 1]), ops[|ops| - 1];
      hide Sound, Step, NextRouter, Dict.Valid;
      RunIsSound(c, ops[..|ops| - 1]);
      StepRouter(c, s, op);
      StepKeepsSound(c, s, op);
    }
  }

  // ---- the histories of one key ------------------------------------------------------------------------

  function NewlyBuffered(c: Config, s: Sys, op: Op, key: Key): seq<Alert> {
    if !op.Handle? || !Enabled(s, op) then []
    else
      var w := s.current.value;
      var n := w.left[0];
      if Passes(c, n, w.alert) && !Suppressed(c.quiet, n.channel, w.alert, op.time)
         && n.digest && Key(w.rule, n.channel) == key
      then [w.alert] else []
  }

  function NewlyDelivered(c: Config, s: Sys, op: Op, key: Key): seq<Alert> {
    var r := s.router;
    if !Enabled(s, op) then []
    else match op
      case Wake(k) => if k == key then Digest.Buffer(r, key) else []
      case Return(id, taken) =>
        if r.flights[id].key == key then ListOf(r, r.flights[id])[r.flights[id].begun..taken] else []
      case NextDrain =>
        if r.drain.todo[0].0 == key && DrainDelivers(r, c.targets.Keys) then r.drain.todo[0].1 else []
      case _ => []
  }

  lemma StepHistories(c: Config, s: Sys, op: Op, key: Key)
    requires s.router.buffers.Valid()
    ensures Of(Step(c, s, op).buffered, key) == Of(s.buffered, key) + NewlyBuffered(c, s, op, key)
    ensures Of(Step(c, s, op).delivered, key) == Of(s.delivered, key) + NewlyDelivered(c, s, op, key)
  {
    hide FlushBegin, FlushEnd, DrainBegin, DrainNext, DrainStart, StopBegin, AddAlert, Dict.Valid;
    hide ListOf, Passes, Suppressed, Route, Deliver;
    var r := s.router;
    assert Of(s.buffered, key) + [] == Of(s.buffered, key);
    assert Of(s.delivered, key) + [] == Of(s.delivered, key);
    if Enabled(s, op) {
      match op
      case Handle(_) => HandleHistories(c, s, op, key);
      case Wake(k) => Deliveries(s, FlushBegin(r, k), k, Digest.Buffer(r, k), key);
      case Return(id, taken) =>
        Deliveries(s, FlushEnd(r, id), r.flights[id].key, ListOf(r, r.flights[id])[r.flights[id].begun..taken], key);
      case NextDrain =>
        Deliveries(s, DrainBegin(r, c.targets.Keys), r.drain.todo[0].0,
                   if DrainDelivers(r, c.targets.Keys) then r.drain.todo[0].1 else [], key);
      case _ =>
    }
  }

  lemma Deliveries(s: Sys, router: Router, k: Key, batch: seq<Alert>, key: Key)
    ensures Of(Deliver(s, router, k, batch).delivered, key) == Of(s.delivered, key) + if k == key then batch else []
    ensures Deliver(s, router, k, batch).buffered == s.buffered
  {
    DeliverOf(s, router, k, batch, key);
  }

  lemma HandleHistories(c: Config, s: Sys, op: Op, key: Key)
    requires s.router.buffers.Valid() && op.Handle? && Enabled(s, op)
    ensures Of(Step(c, s, op).buffered, key) == Of(s.buffered, key) + NewlyBuffered(c, s, op, key)
    ensures Step(c, s, op).delivered == s.delivered
  {
    hide AddAlert, Dict.Valid, Passes, Suppressed, Of;
    var w := s.current.value;
    OneMore(s.buffered, Key(w.rule, w.left[0].channel), w.alert, key);
  }

  lemma OneMore(log: Log, k: Key, a: Alert, key: Key)
    ensures Of(log + [(k, a)], key) == Of(log, key) + if k == key then [a] else []
    ensures Of(log, key) + [] == Of(log, key)
  {
    assert (log + [(k, a)])[..|log|] == log;
  }

  // ---- exactly once ---------------------------------------------------------------------------------------

  function NextView(c: Config, s: Sys, op: Op, key: Key): View {
    var r := s.router;
    var v := ViewOf(r, key);
    if !Enabled(s, op) then v
    else match op
      case Handle(_) => v.(buf := v.buf + NewlyBuffered(c, s, op, key))
      case Wake(k) =>
        if k != key then v
        else if v.buf == [] then Popped(v)
        else v.(flights := v.flights[r.started := Flight(key, key.channel, |v.buf|, true, [])])
      case Return(id, _) => if r.flights[id].key == key then Popped(v.(flights := v.flights - {id})) else v
      case NextDrain =>
        if r.drain.todo[0].0 == key && !DrainDelivers(r, c.targets.Keys) then Popped(v) else v
      case EndDrain => if r.drain.todo[0].0 == key then Popped(v) else v
      case _ => v
  }

  lemma DrainKeepsView(r: Router, drain: Drain, key: Key)
    ensures ViewOf(r.(drain := drain), key) == ViewOf(r, key)
  {
  }

  lemma StepView(c: Config, s: Sys, op: Op, key: Key)
    requires s.router.buffers.Valid() && Numbered(s.router)
    ensures ViewOf(NextRouter(c, s, op), key) == NextView(c, s, op, key)
  {
    var r := s.router;
    assert r.started !in r.flights;
    hide Numbered, ViewOf, Popped, AddAlert, FlushBegin, FlushEnd, PopBuffer, Dict.Valid, ListOf, Passes, Suppressed,
      DrainDelivers;
    if Enabled(s, op) {
      match op
      case Handle(_) =>
        var w := s.current.value;
        AddAlertView(r, Key(w.rule, w.left[0].channel), w.alert, key);
        assert ViewOf(r, key).buf + [] == ViewOf(r, key).buf;
      case Wake(k) =>
        FlushBeginView(r, k, key);
      case Return(id, _) => FlushEndView(r, id, key);
      case Exit => StopKeepsView(r, key);
      case StartDrain => DrainKeepsView(r, DrainStart(r).drain, key);
      case NextDrain => DrainView(r, c.targets.Keys, key);
      case EndDrain => DrainView(r, c.targets.Keys, key);
      case _ =>
    }
  }

  lemma StopKeepsView(r: Router, key: Key)
    ensures ViewOf(StopBegin(r), key) == ViewOf(r, key)
  {
  }

  lemma DrainView(r: Router, targets: set<string>, key: Key)
    requires r.buffers.Valid() && r.drain.Draining? && r.drain.todo != []
    ensures ViewOf(DrainNext(r), key) == if r.drain.todo[0].0 == key then Popped(ViewOf(r, key)) else ViewOf(r, key)
    ensures ViewOf(DrainBegin(r, targets), key) ==
      if r.drain.todo[0].0 == key && !DrainDelivers(r, targets) then Popped(ViewOf(r, key)) else ViewOf(r, key)
  {
    hide ViewOf, Popped, PopBuffer, DrainDelivers, Dict.Valid;
    var popped := PopBuffer(r, r.drain.todo[0].0);
    PopView(r, r.drain.todo[0].0, key);
    DrainKeepsView(popped, DrainNext(r).drain, key);
    DrainKeepsView(r, DrainBegin(r, targets).drain, key);
  }

  /** What is left to the drain shrinks only by what it delivers. */
  lemma StepLeft(c: Config, s: Sys, op: Op, key: Key)
    requires s.router.buffers.Valid() && Sound(c, s.router)
    requires s.router.drain.Draining? || s.router.drain.Stopped?
    ensures var r, t := s.router, NextRouter(c, s, op);
            && (t.drain.Draining? || t.drain.Stopped?)
            && LeftOf(r, key) == (if op.NextDrain? then NewlyDelivered(c, s, op, key) else []) + LeftOf(t, key)
  {
    hide Numbered, Dict.Valid, PopBuffer, ListOf;
    var r := s.router;
    assert [] + LeftOf(r, key) == LeftOf(r, key);
    if Enabled(s, op) {
      match op
      case NextDrain =>
        PopBufferKeys(r, r.drain.todo[0].0);
        var rest := r.drain.todo[1..];
        var t := NextRouter(c, s, op);
        assert LeftOf(t, key) == Left(rest, key);
        assert [] + Left(rest, key) == Left(rest, key);
        assert NewlyDelivered(c, s, op, key) == if r.drain.todo[0].0 == key then r.drain.todo[0].1 else [];
      case EndDrain => PopBufferKeys(r, r.drain.todo[0].0);
      case Wake(k) => assert false;
      case Return(id, _) => PopBufferKeys(r.(flights := r.flights - {id}), r.flights[id].key);
      case _ =>
    }
  }

  lemma StartLeft(c: Config, s: Sys, key: Key)
    requires s.router.buffers.Valid() && Enabled(s, StartDrain)
    ensures LeftOf(NextRouter(c, s, StartDrain), key) == Digest.Buffer(s.router, key)
    ensures LeftOf(s.router, key) == []
  {
    var d := s.router.buffers;
    LeftOfItems(d, key);
    d.Member(key);
  }

  /** Exactly one delivery is under way; its list is the buffer, and the part the list
      had when it began was the last thing delivered. */
  ghost predicate Sole(v: View, delivered: seq<Alert>, id: nat) {
    && id in v.flights && v.flights == map[id := v.flights[id]] && v.flights[id].live
    && 1 <= v.flights[id].begun <= |v.buf| && v.flights[id].begun <= |delivered|
    && delivered[|delivered| - v.flights[id].begun..] == v.buf[..v.flights[id].begun]
  }

  ghost predicate CleanView(v: View, buffered: seq<Alert>, delivered: seq<Alert>) {
    if v.flights == map[] then delivered + v.buf == buffered
    else exists id :: Sole(v, delivered, id) && delivered + v.buf[v.flights[id].begun..] == buffered
  }

  predicate Closing(r: Router) { r.drain.Draining? || r.drain.Stopped? }

  /** Nothing of the key is lost or doubled: what was delivered, followed by what is
      still to come, is what was buffered. */
  ghost predicate Clean(s: Sys, key: Key) {
    var v, buffered, delivered := ViewOf(s.router, key), Of(s.buffered, key), Of(s.delivered, key);
    if Closing(s.router) then v.flights == map[] && delivered + LeftOf(s.router, key) == buffered
    else CleanView(v, buffered, delivered)
  }

  /** The step is harmless for the key: no delivery begins, and no drain takes its
      snapshot, while one is under way; and one that ends has taken its whole list. */
  predicate TidyStep(s: Sys, op: Op, key: Key) {
    var r := s.router;
    Enabled(s, op) ==>
      match op
      case Wake(k) => k == key && Digest.Buffer(r, key) != [] ==> !InFlight(r, key)
      case Return(id, taken) => r.flights[id].key == key ==> taken == |ListOf(r, r.flights[id])|
      case StartDrain => !InFlight(r, key)
      case _ => true
  }

  predicate Tidy(c: Config, ops: seq<Op>, key: Key) {
    ops == [] || (Tidy(c, ops[..|ops| - 1], key) && TidyStep(Run(c, ops[..|ops| - 1]), ops[|ops| - 1], key))
  }

  lemma InFlightIff(r: Router, key: Key)
    ensures InFlight(r, key) <==> ViewOf(r, key).flights != map[]
  {
    var flights := ViewOf(r, key).flights;
    if InFlight(r, key) {
      var id :| id in r.flights && r.flights[id].key == key;
      assert id in flights;
    } else {
      assert flights.Keys == {};
    }
  }

  lemma CleanGrow(v: View, buffered: seq<Alert>, delivered: seq<Alert>, more: seq<Alert>)
    requires CleanView(v, buffered, delivered)
    ensures CleanView(v.(buf := v.buf + more), buffered + more, delivered)
  {
    if v.flights == map[] {
      assert delivered + (v.buf + more) == delivered + v.buf + more;
    } else {
      var id :| Sole(v, delivered, id) && delivered + v.buf[v.flights[id].begun..] == buffered;
      var n := v.flights[id].begun;
      assert (v.buf + more)[..n] == v.buf[..n];
      assert (v.buf + more)[n..] == v.buf[n..] + more;
      assert Sole(v.(buf := v.buf + more), delivered, id);
      assert delivered + (v.buf[n..] + more) == buffered + more;
    }
  }

  lemma CleanBegin(v: View, buffered: seq<Alert>, delivered: seq<Alert>, id: nat, f: Flight)
    requires CleanView(v, buffered, delivered) && v.flights == map[] && v.buf != []
    requires f.live && f.begun == |v.buf|
    ensures CleanView(v.(flights := v.flights[id := f]), buffered, delivered + v.buf)
  {
    var t := v.(flights := v.flights[id := f]);
    assert v.buf[..|v.buf|] == v.buf && v.buf[|v.buf|..] == [];
    assert Sole(t, delivered + v.buf, id);
    assert (delivered + v.buf) + [] == buffered;
  }

  lemma CleanEnd(v: View, buffered: seq<Alert>, delivered: seq<Alert>, id: nat)
    requires CleanView(v, buffered, delivered) && id in v.flights
    ensures v.flights[id].live && v.flights[id].begun <= |v.buf|
    ensures CleanView(Popped(v.(flights := v.flights - {id})), buffered, delivered + v.buf[v.flights[id].begun..])
  {
    var j :| Sole(v, delivered, j) && delivered + v.buf[v.flights[j].begun..] == buffered;
    assert j == id;
    var t := Popped(v.(flights := v.flights - {id}));
    assert t.flights.Keys == {};
    assert t.flights == map[];
    assert buffered + [] == buffered;
  }

  lemma CleanPopEmpty(v: View, buffered: seq<Alert>, delivered: seq<Alert>)
    requires CleanView(v, buffered, delivered) && v.buf == []
    ensures CleanView(Popped(v), buffered, delivered)
  {
    if v.flights == map[] {
      assert Popped(v).flights.Keys == {};
      assert Popped(v).flights == map[];
    }
  }

  lemma OpenUntilDrain(c: Config, s: Sys, op: Op)
    requires s.router.buffers.Valid() && !Closing(s.router)
    ensures Closing(NextRouter(c, s, op)) <==> op.StartDrain? && Enabled(s, op)
  {
    hide Dict.Valid, ListOf, Passes, Suppressed, Orphaned;
  }

  lemma NothingNew(c: Config, s: Sys, op: Op, key: Key)
    requires !Enabled(s, op)
          || !(op.Handle? || op.NextDrain? || op.Wake? || op.Return?)
          || (op.Wake? && op.key != key)
          || (op.Return? && s.router.flights[op.id].key != key)
    ensures NewlyBuffered(c, s, op, key) == [] && NewlyDelivered(c, s, op, key) == []
  {
    hide ListOf, Passes, Suppressed, DrainDelivers;
  }

  lemma AddNothing(s: seq<Alert>)
    ensures s + [] == s && [] + s == s
  {
  }

  /** Before the drain, by cases on what the step does to the key. */
  lemma OpenKeepsClean(c: Config, s: Sys, op: Op, key: Key)
    requires s.router.buffers.Valid() && Sound(c, s.router) && !Closing(s.router)
    requires CleanView(ViewOf(s.router, key), Of(s.buffered, key), Of(s.delivered, key))
    requires TidyStep(s, op, key) && !(op.StartDrain? && Enabled(s, op))
    ensures CleanView(NextView(c, s, op, key), Of(s.buffered, key) + NewlyBuffered(c, s, op, key),
                      Of(s.delivered, key) + NewlyDelivered(c, s, op, key))
  {
    hide CleanView, Popped, Dict.Valid, Passes, Suppressed, Sound, DrainDelivers, Of;
    var r, v := s.router, ViewOf(s.router, key);
    var buffered, delivered := Of(s.buffered, key), Of(s.delivered, key);
    AddNothing(buffered);
    AddNothing(delivered);
    InFlightIff(r, key);
    if op.Handle? && Enabled(s, op) {
      hide ViewOf;
      assert NewlyDelivered(c, s, op, key) == [];
      CleanGrow(v, buffered, delivered, NewlyBuffered(c, s, op, key));
    } else if op.Wake? && Enabled(s, op) && op.key == key {
      assert NewlyBuffered(c, s, op, key) == [];
      assert NewlyDelivered(c, s, op, key) == v.buf;
      hide ViewOf, NewlyDelivered, NewlyBuffered;
      if v.buf == [] {
        CleanPopEmpty(v, buffered, delivered);
      } else {
        CleanBegin(v, buffered, delivered, r.started, Flight(key, key.channel, |v.buf|, true, []));
      }
    } else if op.Return? && Enabled(s, op) && r.flights[op.id].key == key {
      assert v.flights[op.id] == r.flights[op.id];
      CleanEnd(v, buffered, delivered, op.id);
      assert NewlyBuffered(c, s, op, key) == [];
      assert NewlyDelivered(c, s, op, key) == v.buf[v.flights[op.id].begun..];
    } else {
      NothingNew(c, s, op, key);
      assert NextView(c, s, op, key) == v;
    }
  }

  /** A tidy step keeps a key clean. */
  lemma TidyKeepsClean(c: Config, s: Sys, op: Op, key: Key)
    requires s.router.buffers.Valid() && Sound(c, s.router)
    requires Clean(s, key) && TidyStep(s, op, key)
    ensures Clean(Step(c, s, op), key)
  {
    hide Step, NextRouter, Dict.Valid, Sound, Of, CleanView, NewlyBuffered, NewlyDelivered, NextView, LeftOf;
    var r, t := s.router, Step(c, s, op);
    StepHistories(c, s, op, key);
    StepRouter(c, s, op);
    NumberedOf(c, r);
    StepView(c, s, op, key);
    if Closing(r) {
      ClosingKeepsClean(c, s, op, key);
    } else {
      OpenUntilDrain(c, s, op);
      if op.StartDrain? && Enabled(s, op) {
        InFlightIff(r, key);
        StartKeepsClean(c, s, key);
      } else {
        OpenKeepsClean(c, s, op, key);
      }
    }
  }

  lemma NumberedOf(c: Config, r: Router)
    requires Sound(c, r)
    ensures Numbered(r)
  {
    hide Numbered;
  }

  lemma StartKeepsClean(c: Config, s: Sys, key: Key)
    requires s.router.buffers.Valid() && Enabled(s, StartDrain) && !InFlight(s.router, key)
    requires CleanView(ViewOf(s.router, key), Of(s.buffered, key), Of(s.delivered, key))
    ensures NextView(c, s, StartDrain, key).flights == map[]
    ensures Of(s.delivered, key) + NewlyDelivered(c, s, StartDrain, key) + LeftOf(NextRouter(c, s, StartDrain), key)
         == Of(s.buffered, key) + NewlyBuffered(c, s, StartDrain, key)
  {
    hide Dict.Valid, Of, NextRouter, LeftOf;
    InFlightIff(s.router, key);
    StartLeft(c, s, key);
    NothingNew(c, s, StartDrain, key);
    AddNothing(Of(s.delivered, key));
    AddNothing(Of(s.buffered, key));
  }

  lemma ClosingKeepsClean(c: Config, s: Sys, op: Op, key: Key)
    requires s.router.buffers.Valid() && Sound(c, s.router) && Closing(s.router)
    requires ViewOf(s.router, key).flights == map[]
    requires Of(s.delivered, key) + LeftOf(s.router, key) == Of(s.buffered, key)
    ensures Closing(NextRouter(c, s, op))
    ensures NextView(c, s, op, key).flights == map[]
    ensures Of(s.delivered, key) + NewlyDelivered(c, s, op, key) + LeftOf(NextRouter(c, s, op), key)
         == Of(s.buffered, key) + NewlyBuffered(c, s, op, key)
  {
    hide Dict.Valid, Of, NextRouter, LeftOf, Passes, Suppressed, DrainDelivers, Numbered, Left;
    var r, v := s.router, ViewOf(s.router, key);
    var more := NewlyDelivered(c, s, op, key);
    InFlightIff(r, key);
    StepLeft(c, s, op, key);
    EmptyStaysEmpty(v);
    AddNothing(Of(s.buffered, key));
    AddNothing(Of(s.delivered, key));
    AddNothing(LeftOf(NextRouter(c, s, op), key));
    if op.NextDrain? && Enabled(s, op) {
      assert Of(s.delivered, key) + more + LeftOf(NextRouter(c, s, op), key)
          == Of(s.delivered, key) + (more + LeftOf(NextRouter(c, s, op), key));
    } else {
      NothingNewClosing(c, s, op, key);
    }
  }

  lemma EmptyStaysEmpty(v: View)
    requires v.flights == map[]
    ensures Popped(v).flights == map[]
  {
    assert Popped(v).flights.Keys == {};
  }

  lemma NothingNewClosing(c: Config, s: Sys, op: Op, key: Key)
    requires Sound(c, s.router) && Closing(s.router) && !InFlight(s.router, key)
    requires !(op.NextDrain? && Enabled(s, op))
    ensures NewlyBuffered(c, s, op, key) == [] && NewlyDelivered(c, s, op, key) == []
    ensures NextView(c, s, op, key).flights == ViewOf(s.router, key).flights
         || NextView(c, s, op, key).flights == Popped(ViewOf(s.router, key)).flights
  {
    hide Numbered, ViewOf, Popped, ListOf, Passes, Suppressed, DrainDelivers;
  }

  // ---- and what an untidy step does ----------------------------------------------------------------------

  ghost predicate NoRepeats(s: seq<Alert>) {
    forall i, j :: 0 <= i < j < |s| ==> s[i] != s[j]
  }

  /** `x` is gone: buffered, never delivered, and in no list that could still be. */
  ghost predicate Lost(s: Sys, key: Key, x: Alert) {
    && x in Of(s.buffered, key) && x !in Of(s.delivered, key)
    && x !in ViewOf(s.router, key).buf && x !in LeftOf(s.router, key)
    && forall id :: id in ViewOf(s.router, key).flights ==> x !in ViewOf(s.router, key).flights[id].list
  }

  /** `x` was delivered twice, or the drain is about to deliver it again. */
  ghost predicate Doubled(s: Sys, key: Key, x: Alert) {
    || multiset(Of(s.delivered, key))[x] >= 2
    || (x in Of(s.delivered, key) && x in LeftOf(s.router, key))
  }

  lemma MoreDelivered(before: seq<Alert>, more: seq<Alert>, x: Alert)
    ensures multiset(before + more)[x] == multiset(before)[x] + multiset(more)[x]
    ensures x in before + more <==> x in before || x in more
    ensures x in before <==> multiset(before)[x] >= 1
  {
  }

  /** Outside the drain, what it has left is nothing. */
  lemma LeftOnlyClosing(c: Config, s: Sys, op: Op, key: Key)
    requires s.router.buffers.Valid() && !Closing(s.router)
    ensures LeftOf(s.router, key) == []
    ensures !(op.StartDrain? && Enabled(s, op)) ==> LeftOf(NextRouter(c, s, op), key) == []
  {
    OpenUntilDrain(c, s, op);
    hide NextRouter, Dict.Valid, Left;
  }

  lemma StepMultiset(c: Config, s: Sys, op: Op, key: Key, x: Alert)
    requires s.router.buffers.Valid()
    ensures multiset(Of(Step(c, s, op).delivered, key))[x]
         == multiset(Of(s.delivered, key))[x] + multiset(NewlyDelivered(c, s, op, key))[x]
    ensures x in Of(s.delivered, key) ==> x in Of(Step(c, s, op).delivered, key)
  {
    hide Step, Of, NewlyDelivered, NewlyBuffered, Dict.Valid;
    StepHistories(c, s, op, key);
    MoreDelivered(Of(s.delivered, key), NewlyDelivered(c, s, op, key), x);
  }

  lemma DoubledStays(c: Config, s: Sys, op: Op, key: Key, x: Alert)
    requires s.router.buffers.Valid() && Sound(c, s.router) && Doubled(s, key, x)
    ensures Doubled(Step(c, s, op), key, x)
  {
    hide Step, NextRouter, Of, LeftOf, NewlyDelivered, Dict.Valid, Sound;
    var before, more := Of(s.delivered, key), NewlyDelivered(c, s, op, key);
    StepMultiset(c, s, op, key, x);
    StepRouter(c, s, op);
    if multiset(before)[x] < 2 {
      if !Closing(s.router) { LeftOnlyClosing(c, s, op, key); }
      StepLeft(c, s, op, key);
      MoreDelivered(before, more, x);
      MoreDelivered(if op.NextDrain? then more else [], LeftOf(NextRouter(c, s, op), key), x);
      MoreDelivered(more, [], x);
    }
  }

  /** The alerts a step delivers come from the lists `Lost` speaks of. */
  lemma DeliveredFromLists(c: Config, s: Sys, op: Op, key: Key, x: Alert)
    requires s.router.buffers.Valid() && Sound(c, s.router)
    requires x in NewlyDelivered(c, s, op, key)
    ensures x in ViewOf(s.router, key).buf || x in LeftOf(s.router, key)
         || exists id :: id in ViewOf(s.router, key).flights && x in ViewOf(s.router, key).flights[id].list
  {
    hide Numbered, Dict.Valid, Passes, Suppressed;
    var r, v := s.router, ViewOf(s.router, key);
    if op.Return? {
      var f := r.flights[op.id];
      assert v.flights[op.id] == f;
      assert x in ListOf(r, f);
    }
  }

  lemma LostView(c: Config, s: Sys, op: Op, key: Key, x: Alert)
    requires s.router.buffers.Valid() && Sound(c, s.router) && Lost(s, key, x)
    requires x !in NewlyBuffered(c, s, op, key)
    ensures x !in NextView(c, s, op, key).buf
    ensures forall id :: id in NextView(c, s, op, key).flights ==> x !in NextView(c, s, op, key).flights[id].list
  {
    hide ViewOf, Numbered, Dict.Valid, NewlyBuffered, DrainDelivers, ListOf, LeftOf, Of;
  }

  lemma LostLeft(c: Config, s: Sys, op: Op, key: Key, x: Alert)
    requires s.router.buffers.Valid() && Sound(c, s.router) && Lost(s, key, x)
    ensures x !in LeftOf(NextRouter(c, s, op), key)
  {
    hide NextRouter, Of, LeftOf, NewlyDelivered, Dict.Valid, Sound;
    if Closing(s.router) {
      StepLeft(c, s, op, key);
      MoreDelivered(if op.NextDrain? then NewlyDelivered(c, s, op, key) else [], LeftOf(NextRouter(c, s, op), key), x);
    } else if op.StartDrain? && Enabled(s, op) {
      StartLeft(c, s, key);
    } else {
      LeftOnlyClosing(c, s, op, key);
    }
  }

  lemma LostStays(c: Config, s: Sys, op: Op, key: Key, x: Alert)
    requires s.router.buffers.Valid() && Sound(c, s.router) && Lost(s, key, x)
    requires NoRepeats(Of(Step(c, s, op).buffered, key))
    ensures Lost(Step(c, s, op), key, x)
  {
    hide Step, NextRouter, NextView, Of, LeftOf, NewlyDelivered, NewlyBuffered, ViewOf, Dict.Valid, Sound;
    StepHistories(c, s, op, key);
    StepRouter(c, s, op);
    NumberedOf(c, s.router);
    StepView(c, s, op, key);
    MoreDelivered(Of(s.delivered, key), NewlyDelivered(c, s, op, key), x);
    MoreDelivered(Of(s.buffered, key), NewlyBuffered(c, s, op, key), x);
    NoRepeatAcross(Of(s.buffered, key), NewlyBuffered(c, s, op, key), x);
    LostView(c, s, op, key, x);
    LostLeft(c, s, op, key, x);
    if x in NewlyDelivered(c, s, op, key) { DeliveredFromLists(c, s, op, key, x); }
  }

  lemma NoRepeatAcross(a: seq<Alert>, b: seq<Alert>, x: Alert)
    requires NoRepeats(a + b) && x in a
    ensures x !in b
  {
    var i :| 0 <= i < |a| && a[i] == x;
    forall j | 0 <= j < |b|
      ensures b[j] != x
    {
      assert (a + b)[i] == x && (a + b)[|a| + j] == b[j];
    }
  }

  // The three ways to be untidy, each fatal.

  /** A second delivery begins while the first holds the list: its part goes out twice. */
  lemma OverlapDoubles(c: Config, s: Sys, op: Op, key: Key) returns (x: Alert)
    requires s.router.buffers.Valid() && Sound(c, s.router) && !Closing(s.router) && Clean(s, key)
    requires op.Wake? && Enabled(s, op) && !TidyStep(s, op, key)
    ensures Doubled(Step(c, s, op), key, x)
  {
    hide Step, NextRouter, Of, LeftOf, Dict.Valid, Sound;
    var v, delivered := ViewOf(s.router, key), Of(s.delivered, key);
    InFlightIff(s.router, key);
    var id :| Sole(v, delivered, id);
    x := v.buf[0];
    assert delivered[|delivered| - v.flights[id].begun] == v.buf[..v.flights[id].begun][0];
    StepMultiset(c, s, op, key, x);
    assert NewlyDelivered(c, s, op, key) == v.buf;
    MoreDelivered(delivered, v.buf, x);
    MoreDelivered(v.buf, [], x);
  }

  /** The drain takes its snapshot during a delivery: the part under way goes out again. */
  lemma SnapshotDoubles(c: Config, s: Sys, key: Key) returns (x: Alert)
    requires s.router.buffers.Valid() && Sound(c, s.router) && Clean(s, key)
    requires Enabled(s, StartDrain) && InFlight(s.router, key)
    ensures Doubled(Step(c, s, StartDrain), key, x)
  {
    hide Step, NextRouter, Of, LeftOf, Dict.Valid, Sound;
    var v, delivered := ViewOf(s.router, key), Of(s.delivered, key);
    InFlightIff(s.router, key);
    var id :| Sole(v, delivered, id);
    x := v.buf[0];
    assert delivered[|delivered| - v.flights[id].begun] == v.buf[..v.flights[id].begun][0];
    StepMultiset(c, s, StartDrain, key, x);
    StepRouter(c, s, StartDrain);
    StartLeft(c, s, key);
  }

  /** A delivery ends without having taken what was added to its list: that is dropped. */
  lemma ShortEndLoses(c: Config, s: Sys, op: Op, key: Key) returns (x: Alert)
    requires s.router.buffers.Valid() && Sound(c, s.router) && !Closing(s.router) && Clean(s, key)
    requires op.Return? && Enabled(s, op) && !TidyStep(s, op, key)
    requires NoRepeats(Of(s.buffered, key))
    ensures Lost(Step(c, s, op), key, x)
  {
    hide Step, NextRouter, LeftOf, Dict.Valid, Sound, Of, NextView, Passes, Suppressed, NewlyBuffered, NewlyDelivered;
    var v, buffered, delivered := ViewOf(s.router, key), Of(s.buffered, key), Of(s.delivered, key);
    assert v.flights[op.id] == s.router.flights[op.id];
    var id :| Sole(v, delivered, id) && delivered + v.buf[v.flights[id].begun..] == buffered;
    assert id == op.id;
    x := v.buf[op.taken];
    var begun := v.flights[id].begun;
    ShortEnd(v, buffered, delivered, begun, op.taken);
    StepHistories(c, s, op, key);
    ReturnHistories(c, s, op, key);
    AddNothing(buffered);
    StepRouter(c, s, op);
    NumberedOf(c, s.router);
    StepView(c, s, op, key);
    LeftOnlyClosing(c, s, op, key);
    SolePopped(v, id);
  }

  lemma ReturnHistories(c: Config, s: Sys, op: Op, key: Key)
    requires op.Return? && Enabled(s, op) && s.router.flights[op.id].key == key && s.router.flights[op.id].live
    ensures NewlyBuffered(c, s, op, key) == []
    ensures NewlyDelivered(c, s, op, key) == ViewOf(s.router, key).buf[s.router.flights[op.id].begun..op.taken]
    ensures NextView(c, s, op, key)
         == Popped(ViewOf(s.router, key).(flights := ViewOf(s.router, key).flights - {op.id}))
  {
    hide Passes, Suppressed, DrainDelivers, Popped;
  }

  lemma SolePopped(v: View, id: nat)
    requires id in v.flights && v.flights == map[id := v.flights[id]]
    ensures Popped(v.(flights := v.flights - {id})) == View([], map[])
  {
    assert Popped(v.(flights := v.flights - {id})).flights.Keys == {};
  }

  lemma ShortEnd(v: View, buffered: seq<Alert>, delivered: seq<Alert>, begun: nat, taken: nat)
    requires begun <= taken < |v.buf| && delivered + v.buf[begun..] == buffered && NoRepeats(buffered)
    ensures v.buf[taken] in buffered && v.buf[taken] !in delivered + v.buf[begun..taken]
  {
    var n := |delivered| + (taken - begun);
    assert buffered[n] == v.buf[taken];
    assert delivered + v.buf[begun..taken] == buffered[..n];
    assert forall i :: 0 <= i < n ==> buffered[..n][i] == buffered[i] && buffered[i] != buffered[n];
  }

  ghost predicate Doomed(s: Sys, key: Key) {
    exists x :: Lost(s, key, x) || Doubled(s, key, x)
  }

  lemma DoomedStays(c: Config, s: Sys, op: Op, key: Key)
    requires s.router.buffers.Valid() && Sound(c, s.router) && Doomed(s, key)
    requires NoRepeats(Of(Step(c, s, op).buffered, key))
    ensures Doomed(Step(c, s, op), key)
  {
    hide Lost, Doubled, Step, Sound, Dict.Valid, NoRepeats;
    var x :| Lost(s, key, x) || Doubled(s, key, x);
    if Lost(s, key, x) { LostStays(c, s, op, key, x); } else { DoubledStays(c, s, op, key, x); }
  }

  lemma UntidyDooms(c: Config, s: Sys, op: Op, key: Key)
    requires s.router.buffers.Valid() && Sound(c, s.router) && Clean(s, key)
    requires !TidyStep(s, op, key) && NoRepeats(Of(s.buffered, key))
    ensures Doomed(Step(c, s, op), key)
  {
    if op.StartDrain? {
      var x := SnapshotDoubles(c, s, key);
    } else if Closing(s.router) {
      ClosingIsTidy(c, s, op, key);
    } else if op.Wake? {
      var x := OverlapDoubles(c, s, op, key);
    } else {
      var x := ShortEndLoses(c, s, op, key);
    }
    hide Lost, Doubled, Step, Sound, Clean, Dict.Valid;
  }

  lemma ClosingIsTidy(c: Config, s: Sys, op: Op, key: Key)
    requires Sound(c, s.router) && Closing(s.router) && Clean(s, key)
    ensures TidyStep(s, op, key)
  {
    InFlightIff(s.router, key);
    hide Numbered, ViewOf, Of, LeftOf, ListOf;
  }

  lemma BufferedGrows(c: Config, s: Sys, op: Op, key: Key)
    requires s.router.buffers.Valid() && NoRepeats(Of(Step(c, s, op).buffered, key))
    ensures NoRepeats(Of(s.buffered, key))
  {
    StepHistories(c, s, op, key);
    hide Step, Of, Dict.Valid;
    var before, after := Of(s.buffered, key), Of(Step(c, s, op).buffered, key);
    assert forall i :: 0 <= i < |before| ==> before[i] == after[i];
  }

  lemma {:induction false} TidyOrDoomed(c: Config, ops: seq<Op>, key: Key)
    requires NoRepeats(Of(Run(c, ops).buffered, key))
    ensures if Tidy(c, ops, key) then Clean(Run(c, ops), key) else Doomed(Run(c, ops), key)
  {
    if ops == [] {
      assert ViewOf(EMPTY, key).flights.Keys == {};
      assert ViewOf(EMPTY, key).flights == map[];
      hide Doomed;
    } else {
      hide Clean, Doomed, Step, Sound, NoRepeats, TidyStep, Dict.Valid;
      var init, op := ops[..|ops| - 1], ops[|ops| - 1];
      var s := Run(c, init);
      RunIsSound(c, init);
      BufferedGrows(c, s, op, key);
      TidyOrDoomed(c, init, key);
      if !Tidy(c, init, key) {
        DoomedStays(c, s, op, key);
      } else if TidyStep(s, op, key) {
        TidyKeepsClean(c, s, op, key);
      } else {
        UntidyDooms(c, s, op, key);
      }
    }
  }

  /** Exactly once, in order: when the shutdown is over, what was delivered for a key is
      what was buffered for it, if and only if no delivery of the key began and no drain
      took its snapshot during another, and every one that ended had taken its whole
      list. (Alerts of one key are told apart by their ids.) */
  lemma DeliveredExactlyOnceIff(c: Config, ops: seq<Op>, key: Key)
    requires Run(c, ops).router.drain.Stopped? && NoRepeats(Of(Run(c, ops).buffered, key))
    ensures Of(Run(c, ops).delivered, key) == Of(Run(c, ops).buffered, key) <==> Tidy(c, ops, key)
  {
    TidyOrDoomed(c, ops, key);
    hide Run, Tidy, ViewOf, Of, NoRepeats;
    var s := Run(c, ops);
    assert LeftOf(s.router, key) == [];
    AddNothing(Of(s.delivered, key));
    if Doomed(s, key) {
      var x :| Lost(s, key, x) || Doubled(s, key, x);
      OnceEach(Of(s.buffered, key), x);
    }
  }

  lemma OnceEach(s: seq<Alert>, x: Alert)
    requires NoRepeats(s)
    ensures multiset(s)[x] <= 1
  {
    if x in s {
      var i :| 0 <= i < |s| && s[i] == x;
      assert s == s[..i] + [x] + s[i + 1..];
      assert x !in s[..i] && x !in s[i + 1..];
      assert x !in multiset(s[..i]) && x !in multiset(s[i + 1..]);
    }
  }

  // ---- a condition the caller can see ----------------------------------------------------------------------

  /** No alert is buffered for the key, and `stop` does not begin, during a delivery of it. */
  predicate QuietStep(c: Config, s: Sys, op: Op, key: Key) {
    (NewlyBuffered(c, s, op, key) != [] || (op.Exit? && Enabled(s, op))) ==> !InFlight(s.router, key)
  }

  predicate Quiet(c: Config, ops: seq<Op>, key: Key) {
    ops == [] || (Quiet(c, ops[..|ops| - 1], key) && QuietStep(c, Run(c, ops[..|ops| - 1]), ops[|ops| - 1], key))
  }

  /** During a delivery of the key its list stays as it was, no flusher is pending for
      it, and the shutdown has not begun. */
  ghost predicate Undisturbed(r: Router, key: Key) {
    (forall id :: id in r.flights && r.flights[id].key == key && r.flights[id].live ==>
       key !in r.tasks && r.flights[id].begun == |Digest.Buffer(r, key)|)
    && (r.drain.Cancelled? ==> !InFlight(r, key))
  }

  lemma SoleIsLive(s: Sys, key: Key) returns (id: nat)
    requires Clean(s, key) && InFlight(s.router, key)
    ensures !Closing(s.router)
    ensures id in s.router.flights && s.router.flights[id].key == key && s.router.flights[id].live
    ensures forall j :: j in s.router.flights && s.router.flights[j].key == key ==> j == id
  {
    hide Of, LeftOf;
    var r, v := s.router, ViewOf(s.router, key);
    InFlightIff(r, key);
    id :| Sole(v, Of(s.delivered, key), id);
    assert r.flights[id] == v.flights[id];
    forall j | j in r.flights && r.flights[j].key == key
      ensures j == id
    {
      assert j in v.flights;
    }
  }

  lemma UndisturbedIsTidy(c: Config, s: Sys, op: Op, key: Key)
    requires s.router.buffers.Valid() && Sound(c, s.router) && Clean(s, key) && Undisturbed(s.router, key)
    ensures TidyStep(s, op, key)
  {
    if InFlight(s.router, key) { var id := SoleIsLive(s, key); }
    hide Numbered, Of, LeftOf, Clean, Dict.Valid;
  }

  lemma QuietKeepsUndisturbed(c: Config, s: Sys, op: Op, key: Key)
    requires s.router.buffers.Valid() && Sound(c, s.router)
    requires Undisturbed(s.router, key) && QuietStep(c, s, op, key)
    ensures Undisturbed(NextRouter(c, s, op), key)
  {
    hide NextRouter, NextView, NewlyBuffered, Sound, Dict.Valid;
    var t := NextRouter(c, s, op);
    NumberedOf(c, s.router);
    StepView(c, s, op, key);
    NextTasks(c, s, op, key);
    forall id | id in t.flights && t.flights[id].key == key && t.flights[id].live
      ensures key !in t.tasks && t.flights[id].begun == |Digest.Buffer(t, key)|
    {
      assert ViewOf(t, key).flights[id] == t.flights[id];
      LiveFlight(c, s, op, key, id);
      AddNothing(ViewOf(s.router, key).buf);
    }
    if t.drain.Cancelled? {
      CancelledView(c, s, op, key);
      InFlightIff(t, key);
    }
  }

  /** A live flight of the next view either just began with the whole buffer, or was
      there before with the buffer it has now, unless an alert was just buffered. */
  lemma LiveFlight(c: Config, s: Sys, op: Op, key: Key, id: nat)
    requires s.router.buffers.Valid()
    requires id in NextView(c, s, op, key).flights && NextView(c, s, op, key).flights[id].live
    ensures var v, w := ViewOf(s.router, key), NextView(c, s, op, key);
            || (op.Wake? && op.key == key && w.flights[id].begun == |w.buf| && NewlyBuffered(c, s, op, key) == [])
            || (id in v.flights && v.flights[id] == w.flights[id] && id in s.router.flights
                && s.router.flights[id] == v.flights[id] && w.buf == v.buf + NewlyBuffered(c, s, op, key))
  {
    hide Dict.Valid, Passes, Suppressed, DrainDelivers, ListOf;
    AddNothing(ViewOf(s.router, key).buf);
  }

  lemma CancelledView(c: Config, s: Sys, op: Op, key: Key)
    requires s.router.buffers.Valid() && Sound(c, s.router)
    requires Undisturbed(s.router, key) && QuietStep(c, s, op, key)
    requires s.router.drain.Cancelled? || (op.Exit? && Enabled(s, op))
    ensures NextView(c, s, op, key).flights == map[]
  {
    hide Numbered, Dict.Valid, Passes, Suppressed, DrainDelivers, ListOf, NewlyBuffered;
    InFlightIff(s.router, key);
    EmptyStaysEmpty(ViewOf(s.router, key));
  }

  lemma NextTasks(c: Config, s: Sys, op: Op, key: Key)
    requires s.router.buffers.Valid()
    ensures key in NextRouter(c, s, op).tasks ==>
      (key in s.router.tasks && !(op.Wake? && op.key == key)) || NewlyBuffered(c, s, op, key) != []
    ensures NextRouter(c, s, op).drain.Cancelled? ==> s.router.drain.Cancelled? || (op.Exit? && Enabled(s, op))
  {
    hide Dict.Valid, Passes, Suppressed, DrainDelivers, ListOf, Orphaned;
  }

  /** If no alert is routed to a key, and `stop` does not begin, while the key's delivery
      is in flight, then whatever the targets do, everything buffered for it has been
      delivered exactly once, in routing order, by the end of `stop`. */
  lemma QuietDeliversAll(c: Config, ops: seq<Op>, key: Key)
    requires Run(c, ops).router.drain.Stopped? && Quiet(c, ops, key)
    ensures Of(Run(c, ops).delivered, key) == Of(Run(c, ops).buffered, key)
  {
    QuietIsTidy(c, ops, key);
    var s := Run(c, ops);
    hide Run, Tidy, Of, ViewOf;
    assert LeftOf(s.router, key) == [];
    AddNothing(Of(s.delivered, key));
  }

  lemma {:induction false} QuietIsTidy(c: Config, ops: seq<Op>, key: Key)
    requires Quiet(c, ops, key)
    ensures Tidy(c, ops, key) && Clean(Run(c, ops), key) && Undisturbed(Run(c, ops).router, key)
  {
    if ops == [] {
      assert ViewOf(EMPTY, key).flights.Keys == {};
      assert ViewOf(EMPTY, key).flights == map[];
    } else {
      hide Clean, Undisturbed, Step, NextRouter, Sound, Numbered, TidyStep, QuietStep, Dict.Valid;
      var init, op := ops[..|ops| - 1], ops[|ops| - 1];
      var s := Run(c, init);
      QuietIsTidy(c, init, key);
      RunIsSound(c, init);
      NumberedOf(c, s.router);
      UndisturbedIsTidy(c, s, op, key);
      TidyKeepsClean(c, s, op, key);
      QuietKeepsUndisturbed(c, s, op, key);
      StepRouter(c, s, op);
    }
  }

  // ---- from the queue to the digest -------------------------------------------------------------------------

  /** One notification to handle: an alert, the rule it falls under, and where it goes. */
  datatype Job = Job(alert: Alert, rule: int, notify: Notify)

  function JobsFor(a: Alert, rule: int, notify: seq<Notify>): (r: seq<Job>)
    ensures |r| == |notify|
  {
    seq(|notify|, i requires 0 <= i < |notify| => Job(a, rule, notify[i]))
  }

  function JobsOf(c: Config, a: Alert): seq<Job> {
    var (rule, notify) := Select(c.glob, c.rules, c.fallback, a);
    JobsFor(a, rule, notify)
  }

  /** Everything the rules ask for, alert by alert. */
  function Jobs(c: Config, alerts: seq<Alert>): seq<Job> {
    if alerts == [] then [] else Jobs(c, alerts[..|alerts| - 1]) + JobsOf(c, alerts[|alerts| - 1])
  }

  /** Whether a job, handled at a time of day, goes out: its channel has a target, the
      alert is severe enough for it, and no quiet hours suppress it. */
  predicate GoesOut(c: Config, j: Job, time: nat) {
    && j.notify.channel in c.targets && j.alert.severity >= c.targets[j.notify.channel]
    && !Suppressed(c.quiet, j.notify.channel, j.alert, time)
  }

  /** Whether it goes to the digest of a key. */
  predicate Wants(c: Config, j: Job, time: nat, key: Key) {
    GoesOut(c, j, time) && j.notify.digest && Key(j.rule, j.notify.channel) == key
  }

  /** What the first jobs, handled at the given times, contribute to a key. */
  function Wanted(c: Config, jobs: seq<Job>, times: seq<nat>, key: Key): seq<Alert>
    requires |times| <= |jobs|
  {
    if times == [] then []
    else
      var n := |times| - 1;
      Wanted(c, jobs, times[..n], key) + if Wants(c, jobs[n], times[n], key) then [jobs[n].alert] else []
  }

  /** The clock readings of the routing loop, one for each notification handled. */
  function Readings(c: Config, ops: seq<Op>): seq<nat> {
    if ops == [] then []
    else
      var init, op := ops[..|ops| - 1], ops[|ops| - 1];
      Readings(c, init) + if op.Handle? && Enabled(Run(c, init), op) then [op.time] else []
  }

  /** The jobs of the alert being routed that are still to be handled. */
  function Pending(s: Sys): seq<Job> {
    if s.current.None? then []
    else JobsFor(s.current.value.alert, s.current.value.rule, s.current.value.left)
  }

  ghost predicate InStep(c: Config, s: Sys, times: seq<nat>, key: Key) {
    var jobs := Jobs(c, s.routed);
    && |jobs| == |times| + |Pending(s)|
    && jobs[|times|..] == Pending(s)
    && Of(s.buffered, key) == Wanted(c, jobs, times, key)
  }

  lemma {:induction false} WantedOfMore(c: Config, jobs: seq<Job>, more: seq<Job>, times: seq<nat>, key: Key)
    requires |times| <= |jobs|
    ensures Wanted(c, jobs + more, times, key) == Wanted(c, jobs, times, key)
  {
    hide Wants;
    if times != [] {
      WantedOfMore(c, jobs, more, times[..|times| - 1], key);
    }
  }

  lemma StepCurrent(c: Config, s: Sys, op: Op)
    requires s.router.buffers.Valid()
    ensures var t := Step(c, s, op);
            if !Enabled(s, op) || !(op.Take? || op.Handle?) then t.current == s.current && t.routed == s.routed
            else if op.Take? then t.current == Route(c, s.queue[0]) && t.routed == s.routed + [s.queue[0]]
            else
              var rest := s.current.value.left[1..];
              t.routed == s.routed && t.current == if rest == [] then None else Some(s.current.value.(left := rest))
  {
    hide FlushBegin, FlushEnd, DrainBegin, DrainNext, DrainStart, StopBegin, AddAlert, DrainDelivers, Dict.Valid;
    hide ListOf, Tag, Passes, Suppressed, Route;
  }

  lemma RoutedJobs(c: Config, s: Sys)
    requires s.router.buffers.Valid() && Enabled(s, Take)
    ensures Pending(Step(c, s, Take)) == JobsOf(c, s.queue[0])
  {
    hide Step, Select, Dict.Valid;
    StepCurrent(c, s, Take);
  }

  lemma TakeKeepsInStep(c: Config, s: Sys, times: seq<nat>, key: Key)
    requires s.router.buffers.Valid() && Enabled(s, Take) && InStep(c, s, times, key)
    ensures InStep(c, Step(c, s, Take), times, key)
  {
    hide Step, Of, Dict.Valid, NewlyDelivered, Wants, Wanted, JobsOf;
    var t, a := Step(c, s, Take), s.queue[0];
    StepHistories(c, s, Take, key);
    NothingNew(c, s, Take, key);
    StepCurrent(c, s, Take);
    AddNothing(Of(s.buffered, key));
    RoutedJobs(c, s);
    assert (s.routed + [a])[..|s.routed|] == s.routed;
    var jobs := Jobs(c, s.routed);
    assert Jobs(c, t.routed) == jobs + JobsOf(c, a);
    assert Pending(s) == [];
    WantedOfMore(c, jobs, JobsOf(c, a), times, key);
    hide Jobs, Pending;
    assert (jobs + JobsOf(c, a))[|times|..] == JobsOf(c, a);
  }

  lemma HandledJob(c: Config, s: Sys, op: Op, key: Key)
    requires s.router.buffers.Valid() && op.Handle? && Enabled(s, op)
    ensures Pending(s) != [] && Pending(Step(c, s, op)) == Pending(s)[1..]
    ensures NewlyBuffered(c, s, op, key) == if Wants(c, Pending(s)[0], op.time, key) then [Pending(s)[0].alert] else []
  {
    hide Step, Dict.Valid, Suppressed;
    StepCurrent(c, s, op);
  }

  lemma HandledIsBuffered(c: Config, s: Sys, op: Op, key: Key)
    requires s.router.buffers.Valid() && op.Handle? && Enabled(s, op)
    ensures Step(c, s, op).routed == s.routed
    ensures Of(Step(c, s, op).buffered, key) == Of(s.buffered, key) + NewlyBuffered(c, s, op, key)
  {
    hide Step, Of, Dict.Valid, NewlyDelivered, NewlyBuffered, Enabled;
    StepHistories(c, s, op, key);
    StepCurrent(c, s, op);
  }

  lemma HandleKeepsInStep(c: Config, s: Sys, op: Op, times: seq<nat>, key: Key)
    requires s.router.buffers.Valid() && op.Handle? && Enabled(s, op) && InStep(c, s, times, key)
    ensures InStep(c, Step(c, s, op), times + [op.time], key)
  {
    hide Step, Of, Dict.Valid, NewlyDelivered, NewlyBuffered, Wants, Pending, Jobs, Enabled;
    HandledIsBuffered(c, s, op, key);
    HandledJob(c, s, op, key);
    var jobs := Jobs(c, s.routed);
    assert jobs[|times|] == Pending(s)[0];
    assert jobs[|times| + 1..] == Pending(s)[1..];
    assert (times + [op.time])[..|times|] == times;
    AddNothing(Of(s.buffered, key));
  }

  lemma StepKeepsInStep(c: Config, s: Sys, op: Op, times: seq<nat>, key: Key)
    requires s.router.buffers.Valid() && InStep(c, s, times, key)
    ensures InStep(c, Step(c, s, op), times + if op.Handle? && Enabled(s, op) then [op.time] else [], key)
  {
    assert times + [] == times;
    if op.Take? && Enabled(s, op) {
      TakeKeepsInStep(c, s, times, key);
    } else if op.Handle? && Enabled(s, op) {
      HandleKeepsInStep(c, s, op, times, key);
    } else {
      StepHistories(c, s, op, key);
      StepCurrent(c, s, op);
      hide Step, Of, Dict.Valid, Wanted, NewlyDelivered, Enabled, Jobs;
      AddNothing(Of(s.buffered, key));
    }
  }

  /** Every digest channel, with quiet hours or without, buffers exactly what the rules
      direct to it: in routing order, every notification handled so far that was not
      suppressed at the time it was handled. */
  lemma {:induction false} BuffersFollowRouting(c: Config, ops: seq<Op>, key: Key)
    ensures InStep(c, Run(c, ops), Readings(c, ops), key)
  {
    if ops != [] {
      BuffersFollowRouting(c, ops[..|ops| - 1], key);
      hide InStep, Step;
      StepKeepsInStep(c, Run(c, ops[..|ops| - 1]), ops[|ops| - 1], Readings(c, ops[..|ops| - 1]), key);
    }
  }

  /** End to end, from acceptance to delivery: a quiet run that reaches the end of `stop`
      has delivered, per rule and channel, exactly the alerts accepted before the
      consumer left its loop that the rules direct there and that no quiet hours
      suppressed when they were handled, once each and in order. */
  lemma AcceptedAlertsAreDelivered(c: Config, ops: seq<Op>, n: nat, key: Key)
    requires n < |ops| && ops[n].Exit? && Enabled(Run(c, ops[..n]), ops[n])
    requires Run(c, ops).router.drain.Stopped? && Quiet(c, ops, key)
    ensures var jobs, times := Jobs(c, Run(c, ops[..n]).accepted), Readings(c, ops);
            && |times| == |jobs|
            && Of(Run(c, ops).delivered, key) == Wanted(c, jobs, times, key)
  {
    hide Run, Wanted, Of, Quiet, NextRouter, Jobs, Readings;
    var s, t := Run(c, ops[..n]), Run(c, ops);
    ExitLeavesNothingQueued(c, ops[..n]);
    ExitEndsRouting(c, ops, n);
    QuietDeliversAll(c, ops, key);
    BuffersFollowRouting(c, ops, key);
  }

  lemma {:induction false} ExitEndsRouting(c: Config, ops: seq<Op>, n: nat)
    requires n < |ops| && ops[n].Exit? && Enabled(Run(c, ops[..n]), ops[n])
    ensures var s, t := Run(c, ops[..n]), Run(c, ops);
            t.routed == s.routed && t.current == s.current && !t.router.drain.Running?
  {
    var m := |ops| - 1;
    hide Step, NextRouter, Dict.Valid;
    StepCurrent(c, Run(c, ops[..m]), ops[m]);
    StepRouter(c, Run(c, ops[..m]), ops[m]);
    RunningStays(c, Run(c, ops[..m]), ops[m]);
    if n < m {
      assert ops[..m][..n] == ops[..n];
      ExitEndsRouting(c, ops[..m], n);
    } else {
      ExitCancels(c, Run(c, ops[..m]));
    }
  }

  lemma ExitCancels(c: Config, s: Sys)
    requires s.router.buffers.Valid() && Enabled(s, Exit)
    ensures NextRouter(c, s, Exit).drain.Cancelled?
  {
  }

  // ---- immediate notifications ------------------------------------------------------------------------------

  /** What went out at once on one channel, in order. */
  function SentOn(log: seq<(string, Alert)>, channel: string): seq<Alert> {
    if log == [] then []
    else
      var before := SentOn(log[..|log| - 1], channel);
      if log[|log| - 1].0 == channel then before + [log[|log| - 1].1] else before
  }

  /** What the first jobs, handled at the given times, call for on one channel at once. */
  function WantedNow(c: Config, jobs: seq<Job>, times: seq<nat>, channel: string): seq<Alert>
    requires |times| <= |jobs|
  {
    if times == [] then []
    else
      var n := |times| - 1;
      var j := jobs[n];
      WantedNow(c, jobs, times[..n], channel)
      + if GoesOut(c, j, times[n]) && !j.notify.digest && j.notify.channel == channel then [j.alert] else []
  }

  lemma {:induction false} WantedNowOfMore(c: Config, jobs: seq<Job>, more: seq<Job>, times: seq<nat>, channel: string)
    requires |times| <= |jobs|
    ensures WantedNow(c, jobs + more, times, channel) == WantedNow(c, jobs, times, channel)
  {
    hide GoesOut;
    if times != [] {
      WantedNowOfMore(c, jobs, more, times[..|times| - 1], channel);
    }
  }

  lemma StepImmediate(c: Config, s: Sys, op: Op)
    requires s.router.buffers.Valid()
    ensures Step(c, s, op).immediate == s.immediate +
      if op.Handle? && Enabled(s, op) && GoesOut(c, Pending(s)[0], op.time) && !Pending(s)[0].notify.digest
      then [(Pending(s)[0].notify.channel, Pending(s)[0].alert)] else []
  {
    hide FlushBegin, FlushEnd, DrainBegin, DrainNext, DrainStart, StopBegin, AddAlert, DrainDelivers, Dict.Valid;
    hide ListOf, Tag, Suppressed, Route;
    assert s.immediate + [] == s.immediate;
  }

  lemma SentOneMore(log: seq<(string, Alert)>, x: (string, Alert), channel: string)
    ensures SentOn(log + [x], channel) == SentOn(log, channel) + if x.0 == channel then [x.1] else []
  {
    assert (log + [x])[..|log|] == log;
    assert SentOn(log, channel) + [] == SentOn(log, channel);
  }

  lemma StepRouted(c: Config, s: Sys, op: Op)
    requires s.router.buffers.Valid()
    ensures var more := if op.Take? && Enabled(s, op) then JobsOf(c, s.queue[0]) else [];
            Jobs(c, Step(c, s, op).routed) == Jobs(c, s.routed) + more
  {
    hide Step, JobsOf, Dict.Valid;
    StepCurrent(c, s, op);
    assert Jobs(c, s.routed) + [] == Jobs(c, s.routed);
    if op.Take? && Enabled(s, op) { assert (s.routed + [s.queue[0]])[..|s.routed|] == s.routed; }
  }

  /** Every channel is sent at once, in routing order, exactly the alerts that the first
      matching rule directs to it for immediate delivery, that are severe enough for its
      target and that its quiet hours did not suppress when they were handled. */
  lemma {:induction false} ImmediateFollowsRouting(c: Config, ops: seq<Op>, channel: string)
    ensures var s, times := Run(c, ops), Readings(c, ops);
            && |times| <= |Jobs(c, s.routed)|
            && SentOn(s.immediate, channel) == WantedNow(c, Jobs(c, s.routed), times, channel)
  {
    BuffersFollowRouting(c, ops, Key(0, channel));
    if ops != [] {
      var init, op := ops[..|ops| - 1], ops[|ops| - 1];
      ImmediateFollowsRouting(c, init, channel);
      BuffersFollowRouting(c, init, Key(0, channel));
      hide Run, Readings;
      ReadingsNext(c, ops);
      ImmediateStep(c, Run(c, init), op, Readings(c, init), channel);
    }
  }

  lemma ReadingsNext(c: Config, ops: seq<Op>)
    requires ops != []
    ensures var init, op := ops[..|ops| - 1], ops[|ops| - 1];
            && Readings(c, ops) ==
                 Readings(c, init) + (if op.Handle? && Enabled(Run(c, init), op) then [op.time] else [])
            && Run(c, ops) == Step(c, Run(c, init), op)
  {
  }

  lemma ImmediateStep(c: Config, s: Sys, op: Op, times: seq<nat>, channel: string)
    requires s.router.buffers.Valid() && InStep(c, s, times, Key(0, channel))
    requires SentOn(s.immediate, channel) == WantedNow(c, Jobs(c, s.routed), times, channel)
    ensures var t, later := Step(c, s, op), times + if op.Handle? && Enabled(s, op) then [op.time] else [];
            && |later| <= |Jobs(c, t.routed)|
            && SentOn(t.immediate, channel) == WantedNow(c, Jobs(c, t.routed), later, channel)
  {
    hide Step, Dict.Valid, GoesOut, Wanted, Of, Jobs, JobsOf, SentOn;
    var jobs, none := Jobs(c, s.routed), WantedNow(c, Jobs(c, s.routed), times, channel);
    StepRouted(c, s, op);
    StepImmediate(c, s, op);
    assert times + [] == times && none + [] == none && s.immediate + [] == s.immediate;
    if op.Handle? && Enabled(s, op) {
      HandledJob(c, s, op, Key(0, channel));
      hide Pending;
      assert jobs + [] == jobs;
      assert jobs[|times|] == Pending(s)[0];
      assert (times + [op.time])[..|times|] == times;
      SentOneMore(s.immediate, (Pending(s)[0].notify.channel, Pending(s)[0].alert), channel);
    } else {
      hide Pending;
      WantedNowOfMore(c, jobs, if op.Take? && Enabled(s, op) then JobsOf(c, s.queue[0]) else [], times, channel);
    }
  }

  /** End to end: once the consumer has left its loop, every channel was sent at once,
      in order, exactly the accepted alerts that the rules direct to it in that way. */
  lemma AcceptedAlertsAreSent(c: Config, ops: seq<Op>, n: nat, channel: string)
    requires n < |ops| && ops[n].Exit? && Enabled(Run(c, ops[..n]), ops[n])
    ensures var jobs, times := Jobs(c, Run(c, ops[..n]).accepted), Readings(c, ops);
            && |times| == |jobs|
            && SentOn(Run(c, ops).immediate, channel) == WantedNow(c, jobs, times, channel)
  {
    hide Run, WantedNow, Wanted, SentOn, NextRouter, Jobs, Readings, Of;
    ExitLeavesNothingQueued(c, ops[..n]);
    ExitEndsRouting(c, ops, n);
    BuffersFollowRouting(c, ops, Key(0, channel));
    ImmediateFollowsRouting(c, ops, channel);
  }

  // ---- keys never mix ---------------------------------------------------------------------------------------

  predicate Directed(c: Config, key: Key, a: Alert) {
    var (rule, notify) := Select(c.glob, c.rules, c.fallback, a);
    rule == key.rule && Notify(key.channel, true) in notify && Passes(c, Notify(key.channel, true), a)
  }

  /** The alert being routed and the buffered ones are under the rule that matched. */
  ghost predicate WellDirected(c: Config, s: Sys) {
    && (forall i :: 0 <= i < |s.buffered| ==> Directed(c, s.buffered[i].0, s.buffered[i].1))
    && (s.current.Some? ==>
          var w := s.current.value;
          var (rule, notify) := Select(c.glob, c.rules, c.fallback, w.alert);
          rule == w.rule && forall n :: n in w.left ==> n in notify)
  }

  lemma StepBuffered(c: Config, s: Sys, op: Op)
    requires s.router.buffers.Valid()
    ensures var t := Step(c, s, op);
            || t.buffered == s.buffered
            || (op.Handle? && Enabled(s, op) && Passes(c, s.current.value.left[0], s.current.value.alert)
                && s.current.value.left[0].digest
                && t.buffered == s.buffered + [(Key(s.current.value.rule, s.current.value.left[0].channel),
                                                s.current.value.alert)])
  {
    hide FlushBegin, FlushEnd, DrainBegin, DrainNext, DrainStart, StopBegin, AddAlert, DrainDelivers, Dict.Valid;
    hide ListOf, Tag, Passes, Suppressed, Route;
  }

  lemma StepKeepsDirected(c: Config, s: Sys, op: Op)
    requires s.router.buffers.Valid() && WellDirected(c, s)
    ensures WellDirected(c, Step(c, s, op))
  {
    hide Step, Dict.Valid, Passes, Select;
    StepBuffered(c, s, op);
    StepCurrent(c, s, op);
    if op.Handle? && Enabled(s, op) {
      var w := s.current.value;
      assert w.left[0] in w.left;
      assert w.left[0].digest ==> w.left[0] == Notify(w.left[0].channel, true);
    }
  }

  /** In every interleaving, whatever is buffered under a rule and channel was matched
      by that rule first, and the rule notifies that channel by digest. */
  lemma {:induction false} BufferedIsDirected(c: Config, ops: seq<Op>)
    ensures WellDirected(c, Run(c, ops))
  {
    if ops != [] {
      BufferedIsDirected(c, ops[..|ops| - 1]);
      hide WellDirected, Step;
      StepKeepsDirected(c, Run(c, ops[..|ops| - 1]), ops[|ops| - 1]);
    }
  }

  /** Every list that is or may be delivered for a key holds alerts buffered for it. */
  ghost predicate OnlyBuffered(s: Sys, key: Key) {
    var all, v := Of(s.buffered, key), ViewOf(s.router, key);
    && (forall a :: a in v.buf ==> a in all)
    && (forall id, a :: id in v.flights && a in v.flights[id].list ==> a in all)
    && (forall a :: a in LeftOf(s.router, key) ==> a in all)
    && (forall a :: a in Of(s.delivered, key) ==> a in all)
  }

  lemma ViewListsGrow(c: Config, s: Sys, op: Op, key: Key, a: Alert)
    requires s.router.buffers.Valid()
    ensures var v, w := ViewOf(s.router, key), NextView(c, s, op, key);
            && (a in w.buf ==> a in v.buf || a in NewlyBuffered(c, s, op, key))
            && (forall id :: id in w.flights && a in w.flights[id].list ==>
                  a in v.buf || (id in v.flights && a in v.flights[id].list))
  {
    hide ViewOf, Dict.Valid, NewlyBuffered, DrainDelivers, ListOf;
  }

  lemma LeftShrinks(c: Config, s: Sys, op: Op, key: Key, a: Alert)
    requires s.router.buffers.Valid() && Sound(c, s.router) && a in LeftOf(NextRouter(c, s, op), key)
    ensures a in LeftOf(s.router, key) || a in ViewOf(s.router, key).buf
  {
    hide NextRouter, LeftOf, NewlyDelivered, Dict.Valid, Sound;
    if Closing(s.router) {
      StepLeft(c, s, op, key);
      MoreDelivered(if op.NextDrain? then NewlyDelivered(c, s, op, key) else [], LeftOf(NextRouter(c, s, op), key), a);
    } else if op.StartDrain? && Enabled(s, op) {
      StartLeft(c, s, key);
    } else {
      LeftOnlyClosing(c, s, op, key);
    }
  }

  lemma StepKeepsOnlyBuffered(c: Config, s: Sys, op: Op, key: Key)
    requires s.router.buffers.Valid() && Sound(c, s.router) && OnlyBuffered(s, key)
    ensures OnlyBuffered(Step(c, s, op), key)
  {
    hide Step, NextRouter, NextView, Of, LeftOf, NewlyDelivered, NewlyBuffered, ViewOf, Dict.Valid, Sound;
    var t := Step(c, s, op);
    StepHistories(c, s, op, key);
    StepRouter(c, s, op);
    NumberedOf(c, s.router);
    StepView(c, s, op, key);
    forall a | a in ViewOf(t.router, key).buf
      ensures a in Of(t.buffered, key)
    {
      ViewListsGrow(c, s, op, key, a);
    }
    forall id, a | id in ViewOf(t.router, key).flights && a in ViewOf(t.router, key).flights[id].list
      ensures a in Of(t.buffered, key)
    {
      ViewListsGrow(c, s, op, key, a);
    }
    forall a | a in LeftOf(t.router, key)
      ensures a in Of(t.buffered, key)
    {
      LeftShrinks(c, s, op, key, a);
    }
    forall a | a in Of(t.delivered, key)
      ensures a in Of(t.buffered, key)
    {
      MoreDelivered(Of(s.delivered, key), NewlyDelivered(c, s, op, key), a);
      if a in NewlyDelivered(c, s, op, key) { DeliveredFromLists(c, s, op, key, a); }
    }
  }

  /** Keys never mix: in every interleaving, tidy or not, a digest delivered for a rule
      and channel holds only alerts that were buffered for them. */
  lemma {:induction false} DeliveredWasBuffered(c: Config, ops: seq<Op>, key: Key)
    ensures OnlyBuffered(Run(c, ops), key)
  {
    if ops == [] {
      assert ViewOf(EMPTY, key).flights.Keys == {};
    } else {
      hide OnlyBuffered, Step, Sound;
      DeliveredWasBuffered(c, ops[..|ops| - 1], key);
      RunIsSound(c, ops[..|ops| - 1]);
      StepKeepsOnlyBuffered(c, Run(c, ops[..|ops| - 1]), ops[|ops| - 1], key);
    }
  }

  // ---- the dispatcher itself --------------------------------------------------------------------------------

  /** The queue consumer with its router. `model` is the system above, histories
      included; the methods keep the real fields in step with it. */
  class AlertDispatcher {
    const config: Config
    const router: NotificationRouter
    var queue: seq<Alert>
    var running: bool
    var dropped: nat
    var current: Option<InRoute>
    ghost var model: Sys

    ghost predicate Valid()
      reads this, router
    {
      && router.targets == config.targets.Keys && router.buffers.Valid()
      && model.router == router.Model()
      && model.queue == queue && model.running == running && model.dropped == dropped && model.current == current
    }

    constructor (config: Config, router: NotificationRouter)
      requires router.targets == config.targets.Keys && router.buffers.Valid() && router.Model() == EMPTY
      ensures Valid() && model == INITIAL && this.config == config && this.router == router
    {
      this.config, this.router := config, router;
      queue, running, dropped, current := [], true, 0, None;
      model := INITIAL;
    }

    method Enqueue(a: Alert)
      requires Valid()
      modifies this
      ensures Valid() && model == Step(config, old(model), Offer(a))
    {
      OfferIsCounted(config, model, a);
      if config.queueMax > 0 && |queue| >= config.queueMax {
        dropped := dropped + 1;
      } else {
        queue := queue + [a];
      }
      model := Step(config, model, Offer(a));
      hide Step, Dict.Valid;
    }

    method Stop()
      requires Valid()
      modifies this
      ensures Valid() && model == Step(config, old(model), SignalStop)
    {
      running := false;
      model := Step(config, model, SignalStop);
    }

    /** Gets the next alert and starts routing it. */
    method TakeNext()
      requires Valid() && Enabled(model, Take)
      modifies this
      ensures Valid() && model == Step(config, old(model), Take)
    {
      hide FirstMatch, Dict.Valid;
      var a := queue[0];
      queue := queue[1..];
      var rule, notify := SelectNotify(config.glob, config.rules, config.fallback, a);
      current := if notify == [] then None else Some(InRoute(a, rule, notify));
      model := Step(config, model, Take);
    }

    /** One pass of `route`'s loop; `time` is the reading of the clock. Returns the alert
        to deliver at once, if any. */
    method HandleNext(time: nat) returns (now: Option<(string, Alert)>)
      requires Valid() && Enabled(model, Handle(time))
      modifies this, router
      ensures Valid() && model == Step(config, old(model), Handle(time))
      ensures model.immediate == old(model.immediate) + if now.Some? then [now.value] else []
    {
      hide AddAlert, Dict.Valid;
      var w := current.value;
      var n := w.left[0];
      now := None;
      current := if w.left[1..] == [] then None else Some(w.(left := w.left[1..]));
      if n.channel in config.targets && w.alert.severity >= config.targets[n.channel]
         && !Suppressed(config.quiet, n.channel, w.alert, time)
      {
        if n.digest {
          router.BufferForDigest(w.rule, n.channel, w.alert);
        } else {
          now := Some((n.channel, w.alert));
        }
      }
      model := Step(config, model, Handle(time));
    }
  }

  // ---- a hazard, concretely --------------------------------------------------------------------------

  /** One digest channel "ops", no rules, and the default rule notifying it. */
  function OneChannel(glob: Glob): Config {
    Config(glob, [], [Notify("ops", true)], map[], map["ops" := 0], 0)
  }

  const OPS_KEY := Key(-1, "ops")

  function Steps(c: Config, s: Sys, ops: seq<Op>): (t: Sys)
    requires s.router.buffers.Valid()
    ensures t.router.buffers.Valid()
    decreases |ops|
  {
    if ops == [] then s else Steps(c, Step(c, s, ops[0]), ops[1..])
  }

  lemma {:induction false} StepsAreRun(c: Config, before: seq<Op>, after: seq<Op>)
    ensures Steps(c, Run(c, before), after) == Run(c, before + after)
    decreases |after|
  {
    if after == [] {
      assert before + after == before;
    } else {
      var longer := before + [after[0]];
      assert longer[..|longer| - 1] == before;
      assert longer + after[1..] == before + after;
      StepsAreRun(c, longer, after[1..]);
    }
  }

  /** Buffering one alert from an idle system: offered, taken and handled. */
  function Buffering(a: Alert): seq<Op> {
    [Offer(a), Take, Handle(0)]
  }

  /** What buffering does to a system whose consumer is waiting. */
  function Buffered(s: Sys, a: Alert): (t: Sys)
    requires s.router.buffers.Valid()
    ensures t.router.buffers.Valid()
  {
    s.(offered := s.offered + 1, accepted := s.accepted + [a], routed := s.routed + [a],
       router := AddAlert(s.router, OPS_KEY, a), buffered := s.buffered + [(OPS_KEY, a)])
  }

  lemma BufferingEffect(glob: Glob, s: Sys, a: Alert, rest: seq<Op>)
    requires s.router.buffers.Valid() && s.router.drain.Running? && s.queue == [] && s.current == None
    ensures Steps(OneChannel(glob), s, Buffering(a) + rest) == Steps(OneChannel(glob), Buffered(s, a), rest)
  {
    hide AddAlert, Dict.Valid;
    var c := OneChannel(glob);
    var s1 := Step(c, s, Offer(a));
    assert s1 == s.(offered := s.offered + 1, queue := [a], accepted := s.accepted + [a]);
    var s2 := Step(c, s1, Take);
    assert Route(c, a) == Some(InRoute(a, -1, [Notify("ops", true)]));
    assert s2 == s1.(queue := [], routed := s.routed + [a], current := Route(c, a));
    assert Step(c, s2, Handle(0)) == Buffered(s, a);
    StepsCons(c, s, Offer(a), [Take, Handle(0)] + rest);
    StepsCons(c, s1, Take, [Handle(0)] + rest);
    StepsCons(c, s2, Handle(0), rest);
    hide Step, Steps;
    assert [Offer(a)] + ([Take, Handle(0)] + rest) == Buffering(a) + rest;
    assert [Take] + ([Handle(0)] + rest) == [Take, Handle(0)] + rest;
  }

  lemma StepsCons(c: Config, s: Sys, op: Op, rest: seq<Op>)
    requires s.router.buffers.Valid()
    ensures Steps(c, s, [op] + rest) == Steps(c, Step(c, s, op), rest)
  {
    hide Step, Dict.Valid;
    assert ([op] + rest)[1..] == rest;
  }

  function Delivering(x: Alert): Sys {
    Sys([], true, 0, None,
        Router(Dict([OPS_KEY], map[OPS_KEY := [x]]), {}, map[0 := Flight(OPS_KEY, "ops", 1, true, [])], 1, Running),
        1, [x], [x], [], [(OPS_KEY, x)], [(OPS_KEY, x)])
  }

  lemma FirstBuffered(x: Alert)
    ensures Buffered(INITIAL, x) ==
      Sys([], true, 0, None, Router(Dict([OPS_KEY], map[OPS_KEY := [x]]), {OPS_KEY}, map[], 0, Running),
          1, [x], [x], [], [(OPS_KEY, x)], [])
  {
    var d: Dict<Key, seq<Alert>> := Dict([], map[]);
    assert d.Put(OPS_KEY, [x]) == Dict([OPS_KEY], map[OPS_KEY := [x]]);
    assert [] + [x] == [x];
  }

  lemma FirstWake(c: Config, x: Alert)
    ensures Step(c, Buffered(INITIAL, x), Wake(OPS_KEY)) == Delivering(x)
  {
    hide PopBuffer, Select, Passes, Suppressed;
    FirstBuffered(x);
    var s := Buffered(INITIAL, x);
    hide Buffered;
    assert Tag(OPS_KEY, [x]) == [(OPS_KEY, x)];
    assert FlushBegin(s.router, OPS_KEY) == Delivering(x).router;
  }

  /** The first delivery under way: buffered, woken up. */
  lemma DeliveryBegins(glob: Glob, x: Alert, rest: seq<Op>)
    ensures Delivering(x).router.buffers.Valid()
    ensures Steps(OneChannel(glob), INITIAL, Buffering(x) + ([Wake(OPS_KEY)] + rest))
         == Steps(OneChannel(glob), Delivering(x), rest)
  {
    hide Step, Steps, Buffered, Delivering;
    BufferingEffect(glob, INITIAL, x, [Wake(OPS_KEY)] + rest);
    FirstWake(OneChannel(glob), x);
    StepsCons(OneChannel(glob), Buffered(INITIAL, x), Wake(OPS_KEY), rest);
  }

  /** An alert routed during a delivery is lost when the target has already
      taken its list. Only the first of two accepted alerts is ever delivered. */
  lemma LateAlertIsLost(glob: Glob, x: Alert, y: Alert)
    ensures var ops := Buffering(x) + ([Wake(OPS_KEY)] + (Buffering(y) + [Return(0, 1), SignalStop, Exit, StartDrain]));
            var s := Run(OneChannel(glob), ops);
            && s.router.drain.Stopped?
            && Of(s.buffered, OPS_KEY) == [x, y]
            && Of(s.delivered, OPS_KEY) == [x]
  {
    var c := OneChannel(glob);
    var tail := [Return(0, 1), SignalStop, Exit, StartDrain];
    StepsAreRun(c, [], Buffering(x) + ([Wake(OPS_KEY)] + (Buffering(y) + tail)));
    var all := Buffering(x) + ([Wake(OPS_KEY)] + (Buffering(y) + tail));
    assert [] + all == all;
    DeliveryBegins(glob, x, Buffering(y) + tail);
    var s := Delivering(x);
    BufferingEffect(glob, s, y, tail);
    var s1 := Buffered(s, y);
    LateTail(c, s1, x, y);
    hide Steps, Step, Run;
  }

  /** The delivery ended, with nothing left to deliver and both alerts buffered. */
  function Ended(x: Alert, y: Alert, running: bool, drain: Drain): Sys {
    Sys([], running, 0, None, Router(Dict([], map[]), {}, map[], 1, drain),
        2, [x, y], [x, y], [], [(OPS_KEY, x), (OPS_KEY, y)], [(OPS_KEY, x)])
  }

  /** The router while the second alert waits behind the delivery, and after its end. */
  function Waiting(x: Alert, y: Alert): Router {
    Router(Dict([OPS_KEY], map[OPS_KEY := [x, y]]), {OPS_KEY}, map[0 := Flight(OPS_KEY, "ops", 1, true, [])], 1,
           Running)
  }

  function Emptied(): Router {
    Router(Dict([], map[]), {OPS_KEY}, map[], 1, Running)
  }

  lemma WaitingEnds(x: Alert, y: Alert)
    ensures Waiting(x, y).buffers.Valid() && FlushEnd(Waiting(x, y), 0) == Emptied()
    ensures ListOf(Waiting(x, y), Waiting(x, y).flights[0]) == [x, y]
  {
    var router := FlushEnd(Waiting(x, y), 0);
    assert router.flights.Keys == {};
    assert router.flights == map[];
    assert router.buffers == Dict([], map[]);
  }

  lemma SecondBuffered(x: Alert, y: Alert)
    requires Delivering(x).router.buffers.Valid()
    ensures var s := Buffered(Delivering(x), y);
            && s.router == Waiting(x, y) && s.buffered == [(OPS_KEY, x), (OPS_KEY, y)] && s.delivered == [(OPS_KEY, x)]
            && s.queue == [] && s.running && s.dropped == 0 && s.current == None && s.offered == 2
            && s.accepted == [x, y] && s.routed == [x, y] && s.immediate == []
  {
    var s := Buffered(Delivering(x), y);
    assert [x] + [y] == [x, y];
    assert s.router.buffers.vals == map[OPS_KEY := [x, y]];
    assert s.router == Waiting(x, y);
  }

  lemma LateReturn(c: Config, x: Alert, y: Alert)
    requires Delivering(x).router.buffers.Valid()
    ensures Step(c, Buffered(Delivering(x), y), Return(0, 1))
         == Ended(x, y, true, Running).(router := Emptied())
  {
    WaitingEnds(x, y);
    SecondBuffered(x, y);
    assert Waiting(x, y).flights[0].begun == 1 && Waiting(x, y).flights[0].key == OPS_KEY;
    hide Passes, Suppressed, Select, Buffered, Delivering, FlushEnd, ListOf, Dict.Valid;
    assert Tag(OPS_KEY, [x, y][1..1]) == [];
    assert [(OPS_KEY, x)] + [] == [(OPS_KEY, x)];
  }

  lemma LateTail(c: Config, s: Sys, x: Alert, y: Alert)
    requires Delivering(x).router.buffers.Valid() && s == Buffered(Delivering(x), y)
    ensures var t := Steps(c, s, [Return(0, 1), SignalStop, Exit, StartDrain]);
            t.router.drain.Stopped? && Of(t.buffered, OPS_KEY) == [x, y] && Of(t.delivered, OPS_KEY) == [x]
  {
    var s1 := Ended(x, y, true, Running).(router := Emptied());
    var s2, s3, s4 := s1.(running := false), Ended(x, y, false, Cancelled), Ended(x, y, false, Stopped);
    hide Step, Delivering, Buffered, Of;
    LateReturn(c, x, y);
    LateClosing(c, x, y);
    StepsCons(c, s, Return(0, 1), [SignalStop, Exit, StartDrain]);
    StepsCons(c, s1, SignalStop, [Exit, StartDrain]);
    StepsCons(c, s2, Exit, [StartDrain]);
    StepsCons(c, s3, StartDrain, []);
    assert [Return(0, 1)] + [SignalStop, Exit, StartDrain] == [Return(0, 1), SignalStop, Exit, StartDrain];
    assert [SignalStop] + [Exit, StartDrain] == [SignalStop, Exit, StartDrain];
    assert [Exit] + [StartDrain] == [Exit, StartDrain];
    assert [StartDrain] + [] == [StartDrain];
    assert Steps(c, s4, []) == s4;
    EndedHistories(x, y);
  }

  lemma EndedHistories(x: Alert, y: Alert)
    ensures Of([(OPS_KEY, x), (OPS_KEY, y)], OPS_KEY) == [x, y] && Of([(OPS_KEY, x)], OPS_KEY) == [x]
  {
    var none: Log := [];
    OneMore(none, OPS_KEY, x, OPS_KEY);
    OneMore([(OPS_KEY, x)], OPS_KEY, y, OPS_KEY);
    assert none + [(OPS_KEY, x)] == [(OPS_KEY, x)];
    assert [(OPS_KEY, x)] + [(OPS_KEY, y)] == [(OPS_KEY, x), (OPS_KEY, y)];
  }

  lemma LateClosing(c: Config, x: Alert, y: Alert)
    ensures var s1 := Ended(x, y, true, Running).(router := Emptied());
            var s2 := s1.(running := false);
            && Step(c, s1, SignalStop) == s2
            && Step(c, s2, Exit) == Ended(x, y, false, Cancelled)
            && Step(c, Ended(x, y, false, Cancelled), StartDrain) == Ended(x, y, false, Stopped)
  {
  }
}
