/** src/seerflow/alerting/router.py, the digest buffers: flusher tasks, deliveries in
    flight, and the drain at shutdown. An `await` splits a coroutine into two steps. */
module Digest {
  import opened Options
  import opened Routing
  import opened Dicts

  datatype Key = Key(rule: int, channel: string)

  /** A digest delivery that has begun. It holds a list object, not a copy: while `live`,
      that object is still the key's buffer and grows with it. `begun` is how long the
      list was when the delivery began. */
  datatype Flight = Flight(key: Key, target: string, begun: nat, live: bool, list: seq<Alert>)

  /** Shutdown: flushers cancelled, then the snapshot of buffers delivered one by one. */
  datatype Drain = Running | Cancelled | Draining(todo: seq<(Key, seq<Alert>)>, busy: bool) | Stopped

  datatype Router = Router(
    buffers: Dict<Key, seq<Alert>>,
    tasks: set<Key>,
    flights: map<nat, Flight>,
    started: nat,
    drain: Drain)

  const EMPTY := Router(Dict([], map[]), {}, map[], 0, Running)

  function Buffer(r: Router, key: Key): seq<Alert> {
    if r.buffers.Has(key) then r.buffers.vals[key] else []
  }

  /** The alerts a flight's list holds now. */
  function ListOf(r: Router, f: Flight): seq<Alert> {
    if f.live then Buffer(r, f.key) else f.list
  }

  predicate InFlight(r: Router, key: Key) {
    exists id :: id in r.flights && r.flights[id].key == key
  }

  // ---- steps ------------------------------------------------------------------------------

  function AddAlert(r: Router, key: Key, a: Alert): Router
    requires r.buffers.Valid()
  {
    r.(buffers := r.buffers.Put(key, Buffer(r, key) + [a]), tasks := r.tasks + {key})
  }

  /** Deletes the buffer entry; deliveries under way keep the list object. */
  function PopBuffer(r: Router, key: Key): Router
    requires r.buffers.Valid()
  {
    r.(buffers := r.buffers.Remove(key), flights := Orphaned(r.flights, key, Buffer(r, key)))
  }

  function Orphaned(flights: map<nat, Flight>, key: Key, list: seq<Alert>): map<nat, Flight> {
    map id | id in flights ::
      if flights[id].key == key && flights[id].live then flights[id].(live := false, list := list) else flights[id]
  }

  /** The flusher wakes up: its task entry goes first, then the delivery begins. */
  function FlushBegin(r: Router, key: Key): Router
    requires r.buffers.Valid()
  {
    var buf := Buffer(r, key);
    var woken := r.(tasks := r.tasks - {key});
    if buf == [] then PopBuffer(woken, key)
    else woken.(flights := r.flights[r.started := Flight(key, key.channel, |buf|, true, [])], started := r.started + 1)
  }

  /** The delivery returns or raises; either way the key's buffer is dropped. */
  function FlushEnd(r: Router, id: nat): Router
    requires r.buffers.Valid() && id in r.flights
  {
    var key := r.flights[id].key;
    PopBuffer(r.(flights := r.flights - {id}), key)
  }

  function StopBegin(r: Router): Router {
    r.(tasks := {}, drain := Cancelled)
  }

  function Items(d: Dict<Key, seq<Alert>>): seq<(Key, seq<Alert>)>
    requires d.Valid()
  {
    seq(|d.keys|, i requires 0 <= i < |d.keys| => d.Member(d.keys[i]); (d.keys[i], d.vals[d.keys[i]]))
  }

  function DrainStart(r: Router): Router
    requires r.buffers.Valid()
  {
    r.(drain := if r.buffers.keys == [] then Stopped else Draining(Items(r.buffers), false))
  }

  /** Whether the drain has something to deliver for its next key. */
  predicate DrainDelivers(r: Router, targets: set<string>) {
    r.drain.Draining? && r.drain.todo != [] && r.drain.todo[0].0.channel in targets && r.drain.todo[0].1 != []
  }

  function DrainNext(r: Router): Router
    requires r.buffers.Valid() && r.drain.Draining? && r.drain.todo != []
  {
    var rest := r.drain.todo[1..];
    PopBuffer(r, r.drain.todo[0].0).(drain := if rest == [] then Stopped else Draining(rest, false))
  }

  function DrainBegin(r: Router, targets: set<string>): Router
    requires r.buffers.Valid() && r.drain.Draining? && r.drain.todo != []
  {
    if DrainDelivers(r, targets) then r.(drain := r.drain.(busy := true)) else DrainNext(r)
  }

  // ---- no digest is forgotten while the router runs ---------------------------------------------

  /** A buffer is never empty, and someone will deliver it: a pending flusher, or a
      delivery under way that holds this very list. */
  ghost predicate Attended(r: Router) {
    forall key :: key in r.buffers.vals ==>
      && r.buffers.vals[key] != []
      && (key in r.tasks || exists id :: id in r.flights && r.flights[id].key == key && r.flights[id].live)
  }

  /** Flight numbers are never reused, deliveries hold non-empty lists, and they go to
      the channel of their key. */
  ghost predicate Numbered(r: Router) {
    forall id :: id in r.flights ==>
      && id < r.started
      && r.flights[id].target == r.flights[id].key.channel
      && 1 <= r.flights[id].begun <= |ListOf(r, r.flights[id])|
      && (r.flights[id].live ==> r.flights[id].key in r.buffers.vals)
  }

  lemma AddAlertFacts(r: Router, key: Key, a: Alert)
    requires r.buffers.Valid() && Numbered(r)
    ensures Numbered(AddAlert(r, key, a))
    ensures Attended(r) ==> Attended(AddAlert(r, key, a))
  {
    hide Dict.Valid;
  }

  lemma PopBufferFacts(r: Router, key: Key)
    requires r.buffers.Valid() && Numbered(r)
    ensures Numbered(PopBuffer(r, key))
    ensures Attended(r) ==> Attended(PopBuffer(r, key))
  {
    hide Dict.Valid;
    var s := PopBuffer(r, key);
    if Attended(r) {
      forall k | k in s.buffers.vals
        ensures k in s.tasks || exists id :: id in s.flights && s.flights[id].key == k && s.flights[id].live
      {
        if k !in s.tasks {
          var id :| id in r.flights && r.flights[id].key == k && r.flights[id].live;
          assert id in s.flights && s.flights[id] == r.flights[id];
        }
      }
    }
  }

  lemma FlushBeginFacts(r: Router, key: Key)
    requires r.buffers.Valid() && Numbered(r)
    ensures Numbered(FlushBegin(r, key))
    ensures Attended(r) ==> Attended(FlushBegin(r, key))
  {
    hide Dict.Valid;
    var buf := Buffer(r, key);
    var s := FlushBegin(r, key);
    if buf == [] {
      PopBufferFacts(r.(tasks := r.tasks - {key}), key) by {
        assert Numbered(r.(tasks := r.tasks - {key}));
      }
      EmptyPop(r, key);
    } else if Attended(r) {
      forall k | k in s.buffers.vals
        ensures k in s.tasks || exists id :: id in s.flights && s.flights[id].key == k && s.flights[id].live
      {
        if k == key {
          assert s.flights[r.started].key == k && s.flights[r.started].live;
        } else if k !in s.tasks {
          var id :| id in r.flights && r.flights[id].key == k && r.flights[id].live;
          assert id in s.flights && s.flights[id] == r.flights[id];
        }
      }
    }
  }

  lemma EmptyPop(r: Router, key: Key)
    requires r.buffers.Valid() && Numbered(r) && Buffer(r, key) == []
    ensures Attended(r) ==> Attended(FlushBegin(r, key))
  {
    hide Dict.Valid;
    var s := FlushBegin(r, key);
    if Attended(r) {
      forall k | k in s.buffers.vals
        ensures s.buffers.vals[k] != []
        ensures k in s.tasks || exists id :: id in s.flights && s.flights[id].key == k && s.flights[id].live
      {
        if k !in s.tasks {
          var id :| id in r.flights && r.flights[id].key == k && r.flights[id].live;
          assert id in s.flights && s.flights[id] == r.flights[id];
        }
      }
    }
  }

  lemma FlushEndFacts(r: Router, id: nat)
    requires r.buffers.Valid() && Numbered(r) && id in r.flights
    ensures Numbered(FlushEnd(r, id))
    ensures Attended(r) ==> Attended(FlushEnd(r, id))
  {
    hide Dict.Valid;
    var key := r.flights[id].key;
    var s := FlushEnd(r, id);
    if Attended(r) {
      forall k | k in s.buffers.vals
        ensures k in s.tasks || exists j :: j in s.flights && s.flights[j].key == k && s.flights[j].live
      {
        if k !in s.tasks {
          var j :| j in r.flights && r.flights[j].key == k && r.flights[j].live;
          assert j in s.flights && s.flights[j] == r.flights[j];
        }
      }
    }
  }

  // ---- the router itself ---------------------------------------------------------------------------

  class NotificationRouter {
    const targets: set<string>
    var buffers: Dict<Key, seq<Alert>>
    var tasks: set<Key>
    var flights: map<nat, Flight>
    var started: nat
    var drain: Drain

    ghost function Model(): Router
      reads this
    {
      Router(buffers, tasks, flights, started, drain)
    }

    constructor (targets: set<string>)
      ensures Model() == EMPTY && buffers.Valid() && this.targets == targets
    {
      this.targets := targets;
      buffers, tasks, flights, started, drain := Dict([], map[]), {}, map[], 0, Running;
    }

    method BufferForDigest(rule: int, channel: string, a: Alert)
      requires buffers.Valid()
      modifies this
      ensures buffers.Valid() && Model() == AddAlert(old(Model()), Key(rule, channel), a)
    {
      var key := Key(rule, channel);
      if !buffers.Has(key) { buffers := buffers.Put(key, []); }
      buffers := buffers.Put(key, buffers.vals[key] + [a]);
      if key !in tasks { tasks := tasks + {key}; }
      assert tasks == old(tasks) + {key};
      hide Dict.Valid;
    }

    /** `_flush_key` up to its await. */
    method BeginFlush(key: Key)
      requires buffers.Valid()
      modifies this
      ensures buffers.Valid() && Model() == FlushBegin(old(Model()), key)
    {
      var buf := if buffers.Has(key) then buffers.vals[key] else [];
      tasks := tasks - {key};
      if buf == [] {
        Pop(key);
        return;
      }
      flights := flights[started := Flight(key, key.channel, |buf|, true, [])];
      started := started + 1;
    }

    /** `_flush_key` after its await, whether the delivery succeeded or raised. */
    method EndFlush(id: nat)
      requires buffers.Valid() && id in flights
      modifies this
      ensures buffers.Valid() && Model() == FlushEnd(old(Model()), id)
    {
      var key := flights[id].key;
      flights := flights - {id};
      Pop(key);
    }

    method Pop(key: Key)
      requires buffers.Valid()
      modifies this
      ensures buffers.Valid() && Model() == PopBuffer(old(Model()), key)
    {
      hide Dict.Valid, Orphaned;
      flights := Orphaned(flights, key, if buffers.Has(key) then buffers.vals[key] else []);
      buffers := buffers.Remove(key);
    }

    /** `stop` up to the drain: pending flushers are cancelled, deliveries are not. */
    method CancelFlushers()
      modifies this
      ensures Model() == StopBegin(old(Model()))
    {
      tasks, drain := {}, Cancelled;
    }

    /** The drain works on the entries present when it starts. */
    method StartDrain()
      requires buffers.Valid()
      modifies this
      ensures buffers.Valid() && Model() == DrainStart(old(Model()))
    {
      drain := if buffers.keys == [] then Stopped else Draining(Items(buffers), false);
    }

    /** One entry of the drain up to its await; an entry with nothing to deliver is
        dropped at once. */
    method BeginDrain()
      requires buffers.Valid() && drain.Draining? && drain.todo != []
      modifies this
      ensures buffers.Valid() && Model() == DrainBegin(old(Model()), targets)
    {
      var (key, buf) := drain.todo[0];
      if key.channel !in targets || buf == [] {
        EndDrain();
        return;
      }
      drain := drain.(busy := true);
    }

    method EndDrain()
      requires buffers.Valid() && drain.Draining? && drain.todo != []
      modifies this
      ensures buffers.Valid() && Model() == DrainNext(old(Model()))
    {
      var rest := drain.todo[1..];
      Pop(drain.todo[0].0);
      drain := if rest == [] then Stopped else Draining(rest, false);
    }
  }
}
