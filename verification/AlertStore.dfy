/** frontend/src/stores/alerts.ts: the bounded, deduplicated, newest-first alert list. */
module AlertStores {
  import opened Options
  import opened Seqs
  import opened Dicts

  /** `fields` stands for the other properties an object spread copies. */
  datatype Alert = Alert(id: string, ts: int, dedup: nat, fields: map<string, string>)

  datatype Store = Store(alerts: seq<Alert>, dropped: nat)

  const EMPTY := Store([], 0)

  // ---- the store's actions --------------------------------------------------------

  function Max(a: int, b: int): int { if a >= b then a else b }

  /** The newer alert's properties win; the duplicate count never goes down. */
  function Merge(existing: Alert, incoming: Alert): Alert {
    var count := if existing.dedup >= incoming.dedup then existing.dedup else incoming.dedup;
    if incoming.ts >= existing.ts then
      Alert(incoming.id, incoming.ts, count, existing.fields + incoming.fields)
    else
      Alert(existing.id, existing.ts, count, incoming.fields + existing.fields)
  }

  /** `findIndex`, with the length for "none". */
  function FirstNotNewer(buf: seq<Alert>, ts: int): (i: nat)
    ensures i <= |buf|
    ensures forall j :: 0 <= j < i ==> buf[j].ts > ts
    ensures i < |buf| ==> buf[i].ts <= ts
  {
    if buf == [] || buf[0].ts <= ts then 0 else 1 + FirstNotNewer(buf[1..], ts)
  }

  function IndexOf(buf: seq<Alert>, id: string): (i: nat)
    ensures i <= |buf|
    ensures forall j :: 0 <= j < i ==> buf[j].id != id
    ensures i < |buf| ==> buf[i].id == id
  {
    if buf == [] || buf[0].id == id then 0 else 1 + IndexOf(buf[1..], id)
  }

  function InsertSorted(buf: seq<Alert>, a: Alert): seq<Alert> {
    var i := FirstNotNewer(buf, a.ts);
    buf[..i] + [a] + buf[i..]
  }

  function Merged(buf: seq<Alert>, incoming: Alert): seq<Alert> {
    var i := IndexOf(buf, incoming.id);
    if i < |buf| then InsertSorted(buf[..i] + buf[i + 1..], Merge(buf[i], incoming))
    else InsertSorted(buf, incoming)
  }

  function Cut(all: seq<Alert>, max: nat): seq<Alert> {
    if |all| <= max then all else all[..max]
  }

  function Excess(all: seq<Alert>, max: nat): nat {
    if |all| <= max then 0 else |all| - max
  }

  function Prepend(s: Store, a: Alert, max: nat): Store {
    var next := Merged(s.alerts, a);
    Store(Cut(next, max), s.dropped + Excess(next, max))
  }

  function Absorb(d: Dict<string, Alert>, a: Alert): (r: Dict<string, Alert>)
    requires d.Valid()
    ensures r.Valid()
  {
    d.Put(a.id, if d.Has(a.id) then Merge(d.vals[a.id], a) else a)
  }

  function ById(alerts: seq<Alert>): (d: Dict<string, Alert>)
    ensures d.Valid()
  {
    if alerts == [] then Dict([], map[])
    else
      var a := alerts[|alerts| - 1];
      ById(alerts[..|alerts| - 1]).Put(a.id, a)
  }

  function AbsorbAll(d: Dict<string, Alert>, list: seq<Alert>): (r: Dict<string, Alert>)
    requires d.Valid()
    ensures r.Valid()
  {
    if list == [] then d else Absorb(AbsorbAll(d, list[..|list| - 1]), list[|list| - 1])
  }

  function Values(keys: seq<string>, vals: map<string, Alert>): (r: seq<Alert>)
    requires forall k :: k in keys ==> k in vals
    ensures |r| == |keys| && forall i :: 0 <= i < |keys| ==> r[i] == vals[keys[i]]
  {
    seq(|keys|, i requires 0 <= i < |keys| => vals[keys[i]])
  }

  function Recency(a: Alert): int { -a.ts }

  function Listed(d: Dict<string, Alert>): seq<Alert>
    requires d.Valid()
  {
    KeysAreBound(d);
    SortBy(Recency, Values(d.keys, d.vals))
  }

  lemma KeysAreBound(d: Dict<string, Alert>)
    requires d.Valid()
    ensures forall k :: k in d.keys ==> k in d.vals
  {
    forall k | k in d.keys
      ensures k in d.vals
    {
      d.Member(k);
    }
  }

  function Backfill(s: Store, list: seq<Alert>, max: nat): Store {
    var sorted := Listed(AbsorbAll(ById(s.alerts), list));
    Store(Cut(sorted, max), s.dropped + Excess(sorted, max))
  }

  // ---- runs, and what was ever fed in -------------------------------------------------

  datatype Op = PrependOp(alert: Alert) | BackfillOp(list: seq<Alert>)

  function Step(s: Store, op: Op, max: nat): Store {
    match op
    case PrependOp(a) => Prepend(s, a, max)
    case BackfillOp(list) => Backfill(s, list, max)
  }

  function Run(ops: seq<Op>, max: nat): Store {
    if ops == [] then EMPTY else Step(Run(ops[..|ops| - 1], max), ops[|ops| - 1], max)
  }

  function Fed(op: Op): seq<Alert> {
    match op
    case PrependOp(a) => [a]
    case BackfillOp(list) => list
  }

  function Note(times: map<string, int>, a: Alert): map<string, int> {
    times[a.id := if a.id in times then Max(times[a.id], a.ts) else a.ts]
  }

  function NoteAll(times: map<string, int>, list: seq<Alert>): map<string, int> {
    if list == [] then times else Note(NoteAll(times, list[..|list| - 1]), list[|list| - 1])
  }

  /** The latest time ever fed in, for every id, with nothing forgotten. */
  function MaxTimes(ops: seq<Op>): map<string, int> {
    if ops == [] then map[] else NoteAll(MaxTimes(ops[..|ops| - 1]), Fed(ops[|ops| - 1]))
  }

  // ---- the invariant ---------------------------------------------------------------

  ghost predicate Unique(s: seq<Alert>) {
    forall i, j :: 0 <= i < j < |s| ==> s[i].id != s[j].id
  }

  ghost predicate NewestFirst(s: seq<Alert>) {
    forall i, j :: 0 <= i < j < |s| ==> s[i].ts >= s[j].ts
  }

  ghost predicate Lists(s: seq<Alert>, id: string, ts: int) {
    exists i :: 0 <= i < |s| && s[i].id == id && s[i].ts == ts
  }

  /** What is not listed at time `ts` is no newer than the last of `max` entries. */
  ghost predicate Beaten(s: seq<Alert>, max: nat, ts: int) {
    |s| == max && (max > 0 ==> ts <= s[max - 1].ts)
  }

  ghost predicate Top(s: seq<Alert>, times: map<string, int>, max: nat) {
    && |s| <= max && Unique(s) && NewestFirst(s)
    && (forall i :: 0 <= i < |s| ==> s[i].id in times && s[i].ts == times[s[i].id])
    && (forall id :: id in times ==> Lists(s, id, times[id]) || Beaten(s, max, times[id]))
  }

  /** A sorted list that continues `store` and absorbed what `times` has noted since. */
  ghost predicate Continues(store: seq<Alert>, all: seq<Alert>, times: map<string, int>, max: nat) {
    && Unique(all) && NewestFirst(all)
    && (forall i :: 0 <= i < |all| ==> all[i].id in times && all[i].ts <= times[all[i].id])
    && (forall id :: id in times ==> Lists(all, id, times[id]) || Beaten(store, max, times[id]))
    && (forall i :: 0 <= i < |store| ==> Kept(all, store[i]))
  }

  ghost predicate Kept(all: seq<Alert>, a: Alert) {
    exists j :: 0 <= j < |all| && all[j].id == a.id && all[j].ts >= a.ts
  }

  // ---- counting ----------------------------------------------------------------------

  function IdsOf(s: seq<Alert>): seq<string> {
    seq(|s|, i requires 0 <= i < |s| => s[i].id)
  }

  /** Distinct names drawn from a list are no more than the list is long. */
  lemma {:induction false} Pigeonhole(names: seq<string>, list: seq<string>)
    requires forall i, j :: 0 <= i < j < |names| ==> names[i] != names[j]
    requires forall i :: 0 <= i < |names| ==> names[i] in list
    ensures |names| <= |list|
  {
    if names != [] {
      var n := |names| - 1;
      var j :| 0 <= j < |list| && list[j] == names[n];
      var rest := list[..j] + list[j + 1..];
      forall i | 0 <= i < n
        ensures names[..n][i] in rest
      {
        var m :| 0 <= m < |list| && list[m] == names[i];
        assert rest[if m < j then m else m - 1] == names[i];
      }
      Pigeonhole(names[..n], rest);
    }
  }

  /** When `max` entries of `all` are as new as the store's last, its cut is too. */
  lemma CutStaysAbove(store: seq<Alert>, all: seq<Alert>, max: nat, i: nat)
    requires |store| == max && Unique(store) && NewestFirst(store) && NewestFirst(all)
    requires forall j :: 0 <= j < max ==> Kept(all, store[j])
    requires i < max
    ensures i < |all| && all[i].ts >= store[max - 1].ts
  {
    var names := IdsOf(store);
    Pigeonhole(names, IdsOf(all)) by {
      forall j | 0 <= j < |names|
        ensures names[j] in IdsOf(all)
      {
        var m :| 0 <= m < |all| && all[m].id == store[j].id && all[m].ts >= store[j].ts;
        assert IdsOf(all)[m] == names[j];
      }
    }
    if all[i].ts < store[max - 1].ts {
      var newer := IdsOf(all[..i]);
      forall j | 0 <= j < |names|
        ensures names[j] in newer
      {
        var m :| 0 <= m < |all| && all[m].id == store[j].id && all[m].ts >= store[j].ts;
        assert m < i;
        assert newer[m] == names[j];
      }
      Pigeonhole(names, newer);
    }
  }

  lemma CutIsTop(store: seq<Alert>, all: seq<Alert>, times: map<string, int>, max: nat)
    requires Unique(store) && NewestFirst(store)
    requires Continues(store, all, times, max)
    ensures Top(Cut(all, max), times, max)
  {
    var s := Cut(all, max);
    forall id | id in times
      ensures Lists(s, id, times[id]) || Beaten(s, max, times[id])
    {
      if Beaten(store, max, times[id]) {
        if max > 0 { CutStaysAbove(store, all, max, max - 1); }
      } else {
        var i :| 0 <= i < |all| && all[i].id == id && all[i].ts == times[id];
        assert i < |s| ==> s[i] == all[i];
      }
    }
    forall i | 0 <= i < |s|
      ensures s[i].ts == times[s[i].id]
    {
      var id := s[i].id;
      if Lists(all, id, times[id]) {
        var j :| 0 <= j < |all| && all[j].id == id && all[j].ts == times[id];
        assert i == j;
      } else {
        CutStaysAbove(store, all, max, i);
      }
    }
  }

  // ---- prepend -----------------------------------------------------------------------

  lemma InsertSortedOrder(buf: seq<Alert>, a: Alert)
    requires NewestFirst(buf)
    ensures |InsertSorted(buf, a)| == |buf| + 1 && NewestFirst(InsertSorted(buf, a))
  {
  }

  lemma InsertSortedMembers(buf: seq<Alert>, a: Alert)
    ensures var r := InsertSorted(buf, a);
            && (forall i :: 0 <= i < |r| ==> r[i] == a || r[i] in buf)
            && a in r && (forall i :: 0 <= i < |buf| ==> buf[i] in r)
  {
    var i := FirstNotNewer(buf, a.ts);
    var r := InsertSorted(buf, a);
    assert r[i] == a;
    forall j | 0 <= j < |buf|
      ensures buf[j] in r
    {
      assert buf[j] == r[if j < i then j else j + 1];
    }
  }

  lemma InsertSortedUnique(buf: seq<Alert>, a: Alert)
    requires Unique(buf) && forall i :: 0 <= i < |buf| ==> buf[i].id != a.id
    ensures Unique(InsertSorted(buf, a))
  {
  }

  lemma InsertSortedFacts(buf: seq<Alert>, a: Alert)
    requires NewestFirst(buf)
    ensures var r := InsertSorted(buf, a);
            && |r| == |buf| + 1 && NewestFirst(r)
            && (forall i :: 0 <= i < |r| ==> r[i] == a || r[i] in buf)
            && a in r && (forall i :: 0 <= i < |buf| ==> buf[i] in r)
    ensures Unique(buf) && (forall i :: 0 <= i < |buf| ==> buf[i].id != a.id) ==> Unique(InsertSorted(buf, a))
  {
    hide InsertSorted, NewestFirst, Unique;
    InsertSortedOrder(buf, a);
    InsertSortedMembers(buf, a);
    if Unique(buf) && forall i :: 0 <= i < |buf| ==> buf[i].id != a.id { InsertSortedUnique(buf, a); }
  }

  lemma ListsIff(s: seq<Alert>, a: Alert)
    requires a in s
    ensures Lists(s, a.id, a.ts) && Kept(s, a)
  {
    var i :| 0 <= i < |s| && s[i] == a;
  }

  /** What `prepend` puts into its place: the alert, merged if its id is listed. */
  function Placed(buf: seq<Alert>, a: Alert): Alert {
    var i := IndexOf(buf, a.id);
    if i < |buf| then Merge(buf[i], a) else a
  }

  lemma MergedSorted(buf: seq<Alert>, a: Alert)
    requires Unique(buf) && NewestFirst(buf)
    ensures Unique(Merged(buf, a)) && NewestFirst(Merged(buf, a))
    ensures forall x :: x in Merged(buf, a) ==> x == Placed(buf, a) || (x in buf && x.id != a.id)
  {
    hide Unique, NewestFirst, InsertSorted;
    var i := IndexOf(buf, a.id);
    if i < |buf| {
      WithoutFacts(buf, i);
      InsertSortedFacts(buf[..i] + buf[i + 1..], Merge(buf[i], a));
    } else {
      InsertSortedFacts(buf, a);
    }
  }

  lemma MergedKeeps(buf: seq<Alert>, a: Alert)
    requires Unique(buf) && NewestFirst(buf)
    ensures Placed(buf, a) in Merged(buf, a)
    ensures forall x :: x in buf && x.id != a.id ==> x in Merged(buf, a)
  {
    hide Unique, NewestFirst, InsertSorted;
    var i := IndexOf(buf, a.id);
    if i < |buf| {
      WithoutFacts(buf, i);
      InsertSortedFacts(buf[..i] + buf[i + 1..], Merge(buf[i], a));
    } else {
      InsertSortedFacts(buf, a);
    }
  }

  lemma PlacedFacts(buf: seq<Alert>, a: Alert, times: map<string, int>)
    requires Unique(buf)
    requires forall i :: 0 <= i < |buf| ==> buf[i].id in times && buf[i].ts == times[buf[i].id]
    ensures Placed(buf, a).id == a.id && a.ts <= Placed(buf, a).ts <= Note(times, a)[a.id]
    ensures forall j :: 0 <= j < |buf| && buf[j].id == a.id ==> Placed(buf, a).ts == Note(times, a)[a.id]
    ensures a.id !in times ==> Placed(buf, a).ts == Note(times, a)[a.id]
  {
  }

  lemma WithoutFacts(buf: seq<Alert>, i: nat)
    requires Unique(buf) && NewestFirst(buf) && i < |buf|
    ensures var rest := buf[..i] + buf[i + 1..];
            && Unique(rest) && NewestFirst(rest)
            && (forall j :: 0 <= j < |rest| ==> rest[j] in buf && rest[j].id != buf[i].id)
            && (forall j :: 0 <= j < |buf| && j != i ==> buf[j] in rest && buf[j].id != buf[i].id)
  {
    var rest := buf[..i] + buf[i + 1..];
    forall j | 0 <= j < |buf| && j != i
      ensures buf[j] in rest
    {
      assert buf[j] == rest[if j < i then j else j - 1];
    }
  }

  lemma PrependKeeps(buf: seq<Alert>, a: Alert, j: nat)
    requires Unique(buf) && NewestFirst(buf) && j < |buf|
    ensures Kept(Merged(buf, a), buf[j])
    ensures buf[j].id != a.id ==> Lists(Merged(buf, a), buf[j].id, buf[j].ts)
  {
    MergedKeeps(buf, a);
    var all, placed := Merged(buf, a), Placed(buf, a);
    if buf[j].id != a.id {
      ListsIff(all, buf[j]);
    } else {
      assert IndexOf(buf, a.id) == j;
      var p :| 0 <= p < |all| && all[p] == placed;
      assert all[p].id == buf[j].id && all[p].ts >= buf[j].ts;
    }
  }

  lemma PrependLists(buf: seq<Alert>, a: Alert, times: map<string, int>, max: nat, id: string)
    requires Top(buf, times, max) && id in Note(times, a)
    ensures Lists(Merged(buf, a), id, Note(times, a)[id]) || Beaten(buf, max, Note(times, a)[id])
  {
    PlacedFacts(buf, a, times);
    if id in times && Lists(buf, id, times[id]) {
      var j :| 0 <= j < |buf| && buf[j].id == id && buf[j].ts == times[id];
      PrependKeeps(buf, a, j);
    }
    MergedKeeps(buf, a);
    ListsIff(Merged(buf, a), Placed(buf, a));
    hide Merged, Placed, Unique, NewestFirst, Kept, Lists;
  }

  lemma PrependNoted(buf: seq<Alert>, a: Alert, times: map<string, int>, max: nat)
    requires Top(buf, times, max)
    ensures var all, times' := Merged(buf, a), Note(times, a);
            forall i :: 0 <= i < |all| ==> all[i].id in times' && all[i].ts <= times'[all[i].id]
  {
    MergedSorted(buf, a);
    PlacedFacts(buf, a, times);
    hide Merged, Placed, Unique, NewestFirst, Kept, Beaten, Lists;
    var all := Merged(buf, a);
    assert forall i :: 0 <= i < |all| ==> all[i] in all;
  }

  lemma PrependContinues(buf: seq<Alert>, a: Alert, times: map<string, int>, max: nat)
    requires Top(buf, times, max)
    ensures Continues(buf, Merged(buf, a), Note(times, a), max)
  {
    hide Merged, Placed, Unique, NewestFirst, Kept, Beaten, Lists, Note;
    var all, times' := Merged(buf, a), Note(times, a);
    MergedSorted(buf, a);
    PrependNoted(buf, a, times, max);
    forall id | id in times'
      ensures Lists(all, id, times'[id]) || Beaten(buf, max, times'[id])
    {
      PrependLists(buf, a, times, max, id);
    }
    forall j | 0 <= j < |buf|
      ensures Kept(all, buf[j])
    {
      PrependKeeps(buf, a, j);
    }
  }

  // ---- backfill ----------------------------------------------------------------------

  /** The dictionary's side of `Continues`. */
  ghost predicate Absorbing(store: seq<Alert>, d: Dict<string, Alert>, times: map<string, int>, max: nat) {
    && (forall id :: id in d.vals ==> d.vals[id].id == id && id in times && d.vals[id].ts <= times[id])
    && (forall id :: id in times ==>
          (id in d.vals && d.vals[id].ts == times[id]) || Beaten(store, max, times[id]))
    && (forall i :: 0 <= i < |store| ==> store[i].id in d.vals && d.vals[store[i].id].ts >= store[i].ts)
  }

  /** The dictionary holds exactly the listed alerts, under their ids. */
  ghost predicate Indexes(d: Dict<string, Alert>, alerts: seq<Alert>) {
    && (forall i :: 0 <= i < |alerts| ==> alerts[i].id in d.vals && d.vals[alerts[i].id] == alerts[i])
    && (forall id :: id in d.vals ==> d.vals[id].id == id && d.vals[id] in alerts)
    && |d.keys| == |alerts|
  }

  lemma IndexNext(d: Dict<string, Alert>, alerts: seq<Alert>, a: Alert)
    requires d.Valid() && Indexes(d, alerts)
    requires forall i :: 0 <= i < |alerts| ==> alerts[i].id != a.id
    ensures Indexes(d.Put(a.id, a), alerts + [a])
  {
    assert a.id !in d.vals;
    hide Dict.Valid;
    forall id | id in d.vals
      ensures d.vals[id] in alerts + [a]
    {
    }
  }

  lemma {:induction false} ByIdFacts(alerts: seq<Alert>)
    requires Unique(alerts)
    ensures Indexes(ById(alerts), alerts)
  {
    if alerts != [] {
      var n := |alerts| - 1;
      ByIdFacts(alerts[..n]);
      IndexNext(ById(alerts[..n]), alerts[..n], alerts[n]);
      assert alerts == alerts[..n] + [alerts[n]];
    }
  }

  lemma StoreIsAbsorbing(s: seq<Alert>, times: map<string, int>, max: nat)
    requires Top(s, times, max)
    ensures Absorbing(s, ById(s), times, max)
  {
    hide ById, Dict.Valid, Beaten, Unique, NewestFirst;
    ByIdFacts(s);
    forall id | id in times
      ensures (id in ById(s).vals && ById(s).vals[id].ts == times[id]) || Beaten(s, max, times[id])
    {
      if Lists(s, id, times[id]) {
        var i :| 0 <= i < |s| && s[i].id == id && s[i].ts == times[id];
      }
    }
  }

  lemma AbsorbKeepsAbsorbing(store: seq<Alert>, d: Dict<string, Alert>, times: map<string, int>, max: nat, a: Alert)
    requires d.Valid() && Absorbing(store, d, times, max)
    ensures Absorbing(store, Absorb(d, a), Note(times, a), max)
  {
    hide Dict.Valid, Beaten;
  }

  lemma {:induction false} AbsorbAllKeepsAbsorbing(
    store: seq<Alert>, d: Dict<string, Alert>, times: map<string, int>, max: nat, list: seq<Alert>)
    requires d.Valid() && Absorbing(store, d, times, max)
    ensures Absorbing(store, AbsorbAll(d, list), NoteAll(times, list), max)
  {
    hide Absorbing, Absorb, Dict.Valid;
    if list != [] {
      var n := |list| - 1;
      AbsorbAllKeepsAbsorbing(store, d, times, max, list[..n]);
      AbsorbKeepsAbsorbing(store, AbsorbAll(d, list[..n]), NoteAll(times, list[..n]), max, list[n]);
    }
  }

  lemma ListedFacts(d: Dict<string, Alert>)
    requires d.Valid() && forall id :: id in d.vals ==> d.vals[id].id == id
    ensures var all := Listed(d);
            && NewestFirst(all) && Unique(all) && |all| == |d.keys|
            && (forall i :: 0 <= i < |all| ==> all[i].id in d.vals && all[i] == d.vals[all[i].id])
            && (forall id :: id in d.vals ==> d.vals[id] in all)
  {
    hide Dict.Valid, SortBy;
    KeysAreBound(d);
    var vals := Values(d.keys, d.vals);
    var all := Listed(d);
    SortBySorted(Recency, vals);
    MultisetMember(all, vals);
    MultisetMember(vals, all);
    forall i | 0 <= i < |all|
      ensures all[i].id in d.vals && all[i] == d.vals[all[i].id]
    {
      assert all[i] in vals;
    }
    forall id | id in d.vals
      ensures d.vals[id] in all
    {
      d.Member(id);
      var i :| 0 <= i < |d.keys| && d.keys[i] == id;
      assert vals[i] == d.vals[id];
    }
    ListedIsUnique(d, vals, all);
  }

  lemma ListedIsUnique(d: Dict<string, Alert>, vals: seq<Alert>, all: seq<Alert>)
    requires d.Valid() && |vals| == |d.keys|
    requires forall i :: 0 <= i < |vals| ==> vals[i].id == d.keys[i]
    requires multiset(all) == multiset(vals)
    ensures Unique(all)
  {
    forall i, j | 0 <= i < j < |all|
      ensures all[i].id != all[j].id
    {
      if all[i].id == all[j].id {
        MultisetMember(all, vals);
        assert all[i] in vals && all[j] in vals;
        var m :| 0 <= m < |vals| && vals[m] == all[i];
        var n :| 0 <= n < |vals| && vals[n] == all[j];
        if m < n { d.Distinct(m, n); } else if n < m { d.Distinct(n, m); }
        TwiceIn(all, i, j);
        OnceIn(d, vals, m);
      }
    }
  }

  lemma TwiceIn(s: seq<Alert>, i: nat, j: nat)
    requires i < j < |s| && s[i] == s[j]
    ensures multiset(s)[s[i]] >= 2
  {
    assert s == s[..j] + [s[j]] + s[j + 1..];
    assert s[..j][i] in multiset(s[..j]);
  }

  lemma OnceIn(d: Dict<string, Alert>, vals: seq<Alert>, m: nat)
    requires d.Valid() && |vals| == |d.keys| && m < |vals|
    requires forall i :: 0 <= i < |vals| ==> vals[i].id == d.keys[i]
    ensures multiset(vals)[vals[m]] == 1
  {
    var a, b := vals[..m], vals[m + 1..];
    assert vals == a + [vals[m]] + b;
    forall i | 0 <= i < |vals| && i != m
      ensures vals[i] != vals[m]
    {
      if i < m { d.Distinct(i, m); } else { d.Distinct(m, i); }
    }
    assert vals[m] !in a && vals[m] !in b;
    assert vals[m] !in multiset(a) && vals[m] !in multiset(b);
  }

  lemma BackfillContinues(store: seq<Alert>, d: Dict<string, Alert>, times: map<string, int>, max: nat)
    requires d.Valid() && Absorbing(store, d, times, max)
    ensures Continues(store, Listed(d), times, max)
  {
    ListedFacts(d);
    hide Dict.Valid, Beaten, Listed;
    var all := Listed(d);
    forall id | id in times
      ensures Lists(all, id, times[id]) || Beaten(store, max, times[id])
    {
      if id in d.vals && d.vals[id].ts == times[id] { ListsIff(all, d.vals[id]); }
    }
    forall i | 0 <= i < |store|
      ensures Kept(all, store[i])
    {
      ListsIff(all, d.vals[store[i].id]);
    }
  }

  // ---- main results -------------------------------------------------------------------

  lemma StepKeepsTop(s: Store, times: map<string, int>, op: Op, max: nat)
    requires Top(s.alerts, times, max)
    ensures Top(Step(s, op, max).alerts, NoteAll(times, Fed(op)), max)
  {
    hide Continues, Absorbing, Lists, Beaten, Dict.Valid;
    match op
    case PrependOp(a) =>
      PrependContinues(s.alerts, a, times, max);
      CutIsTop(s.alerts, Merged(s.alerts, a), Note(times, a), max);
      assert [a][..0] == [];
    case BackfillOp(list) =>
      StoreIsAbsorbing(s.alerts, times, max);
      var d := AbsorbAll(ById(s.alerts), list);
      AbsorbAllKeepsAbsorbing(s.alerts, ById(s.alerts), times, max, list);
      BackfillContinues(s.alerts, d, NoteAll(times, list), max);
      CutIsTop(s.alerts, Listed(d), NoteAll(times, list), max);
  }

  lemma {:induction false} RunKeepsTop(ops: seq<Op>, max: nat)
    ensures Top(Run(ops, max).alerts, MaxTimes(ops), max)
  {
    if ops != [] {
      RunKeepsTop(ops[..|ops| - 1], max);
      hide Top, Step;
      StepKeepsTop(Run(ops[..|ops| - 1], max), MaxTimes(ops[..|ops| - 1]), ops[|ops| - 1], max);
    }
  }

  /** All ids ever fed in, newest first by their latest time. */
  ghost predicate Ranking(ids: seq<string>, times: map<string, int>) {
    && (forall i, j :: 0 <= i < j < |ids| ==> ids[i] != ids[j])
    && (forall i :: 0 <= i < |ids| ==> ids[i] in times)
    && (forall id :: id in times ==> id in ids)
    && (forall i, j :: 0 <= i < j < |ids| ==> times[ids[i]] >= times[ids[j]])
  }

  lemma {:induction false} OldestOf(times: map<string, int>) returns (oldest: string)
    requires times != map[]
    ensures oldest in times && forall id :: id in times ==> times[oldest] <= times[id]
    decreases |times|
  {
    oldest :| oldest in times;
    var others := times - {oldest};
    if others != map[] {
      Smaller(times, oldest);
      var other := OldestOf(others);
      assert forall id :: id in times && id != oldest ==> id in others;
      if times[other] < times[oldest] { oldest := other; }
    } else {
      assert forall id :: id in times && id != oldest ==> id in others;
    }
  }

  lemma Smaller(times: map<string, int>, id: string)
    requires id in times
    ensures |times - {id}| < |times|
  {
    assert |times| == |times.Keys| && |times - {id}| == |(times - {id}).Keys|;
    assert (times - {id}).Keys == times.Keys - {id};
  }

  /** There always is a ranking. */
  lemma {:induction false} RankingExists(times: map<string, int>)
    ensures exists ids :: Ranking(ids, times)
    decreases |times|
  {
    if times == map[] {
      assert Ranking([], times);
    } else {
      var oldest := OldestOf(times);
      var others := times - {oldest};
      Smaller(times, oldest);
      RankingExists(others);
      var ids :| Ranking(ids, others);
      assert forall id :: id in times && id != oldest ==> id in others && id in ids;
      assert Ranking(ids + [oldest], times);
    }
  }

  /** Streaming top-k: however prepends and backfills interleave, and even when an
      evicted id returns, the list is sorted, duplicate-free and holds exactly the
      `max` latest of all per-id latest times, entry by entry, for every ranking. */
  lemma StoreIsTopK(ops: seq<Op>, max: nat, ids: seq<string>)
    requires Ranking(ids, MaxTimes(ops))
    ensures var alerts, times := Run(ops, max).alerts, MaxTimes(ops);
            && Unique(alerts) && NewestFirst(alerts)
            && |alerts| == (if |ids| <= max then |ids| else max)
            && (forall i :: 0 <= i < |alerts| ==> alerts[i].id in times && alerts[i].ts == times[alerts[i].id])
            && (forall i :: 0 <= i < |alerts| ==> alerts[i].ts == times[ids[i]])
  {
    RunKeepsTop(ops, max);
    var s, times := Run(ops, max).alerts, MaxTimes(ops);
    TopLength(s, times, max, ids);
    forall i | 0 <= i < |s|
      ensures s[i].ts == times[ids[i]]
    {
      TopNotNewer(s, times, max, ids, i);
      TopNotOlder(s, times, max, ids, i);
    }
  }

  lemma TopLength(s: seq<Alert>, times: map<string, int>, max: nat, ids: seq<string>)
    requires Top(s, times, max) && Ranking(ids, times)
    ensures |s| == if |ids| <= max then |ids| else max
  {
    Pigeonhole(IdsOf(s), ids);
    if |s| < max {
      forall i | 0 <= i < |ids|
        ensures ids[i] in IdsOf(s)
      {
        assert Lists(s, ids[i], times[ids[i]]);
        var j :| 0 <= j < |s| && s[j].id == ids[i] && s[j].ts == times[ids[i]];
        assert IdsOf(s)[j] == ids[i];
      }
      Pigeonhole(ids, IdsOf(s));
    }
  }

  lemma TopNotNewer(s: seq<Alert>, times: map<string, int>, max: nat, ids: seq<string>, i: nat)
    requires Top(s, times, max) && Ranking(ids, times) && i < |s| && i < |ids|
    ensures s[i].ts <= times[ids[i]]
  {
    if s[i].ts > times[ids[i]] {
      var names := IdsOf(s[..i + 1]);
      forall j | 0 <= j < |names|
        ensures names[j] in ids[..i]
      {
        var m :| 0 <= m < |ids| && ids[m] == s[j].id;
        assert m < i;
        assert ids[..i][m] == names[j];
      }
      Pigeonhole(names, ids[..i]);
    }
  }

  lemma TopNotOlder(s: seq<Alert>, times: map<string, int>, max: nat, ids: seq<string>, i: nat)
    requires Top(s, times, max) && Ranking(ids, times) && i < |s| && i < |ids|
    ensures s[i].ts >= times[ids[i]]
  {
    if s[i].ts < times[ids[i]] {
      var names := ids[..i + 1];
      forall j | 0 <= j < |names|
        ensures names[j] in IdsOf(s[..i])
      {
        assert times[names[j]] >= times[ids[i]];
        assert Lists(s, names[j], times[names[j]]);
        var m :| 0 <= m < |s| && s[m].id == names[j] && s[m].ts == times[names[j]];
        assert m < i;
        assert IdsOf(s[..i])[m] == names[j];
      }
      Pigeonhole(names, IdsOf(s[..i]));
    }
  }

  // ---- conservation --------------------------------------------------------------------

  /** How many ids the action brought in that the list did not have. */
  function NewIds(d: Dict<string, Alert>, list: seq<Alert>): nat
    requires d.Valid()
  {
    if list == [] then 0
    else
      var n := |list| - 1;
      NewIds(d, list[..n]) + if AbsorbAll(d, list[..n]).Has(list[n].id) then 0 else 1
  }

  function Inserted(ops: seq<Op>, max: nat): nat {
    if ops == [] then 0
    else
      var init := ops[..|ops| - 1];
      Inserted(init, max) + NewIds(ById(Run(init, max).alerts), Fed(ops[|ops| - 1]))
  }

  lemma {:induction false} AbsorbAllSize(d: Dict<string, Alert>, list: seq<Alert>)
    requires d.Valid()
    ensures |AbsorbAll(d, list).keys| == |d.keys| + NewIds(d, list)
  {
    if list != [] { AbsorbAllSize(d, list[..|list| - 1]); }
  }

  lemma NewIdsOfOne(alerts: seq<Alert>, a: Alert)
    requires Unique(alerts)
    ensures NewIds(ById(alerts), [a]) == if IndexOf(alerts, a.id) < |alerts| then 0 else 1
  {
    ByIdFacts(alerts);
    var d := ById(alerts);
    assert d.Has(a.id) <==> IndexOf(alerts, a.id) < |alerts|;
    hide ById, Indexes, IndexOf, Dict.Valid;
    var none := [a][..0];
    assert none == [];
    assert AbsorbAll(d, none) == d && NewIds(d, none) == 0;
  }

  lemma PrependConserves(s: Store, a: Alert, max: nat)
    requires Unique(s.alerts)
    ensures var t := Prepend(s, a, max);
            |t.alerts| + t.dropped == |s.alerts| + s.dropped + NewIds(ById(s.alerts), [a])
  {
    NewIdsOfOne(s.alerts, a);
    hide ById, NewIds, Unique, Merge;
  }

  lemma BackfillConserves(s: Store, list: seq<Alert>, max: nat)
    requires Unique(s.alerts)
    ensures var t := Backfill(s, list, max);
            |t.alerts| + t.dropped == |s.alerts| + s.dropped + NewIds(ById(s.alerts), list)
  {
    hide ById, AbsorbAll, NewIds, Dict.Valid, Unique, SortBy;
    var d := ById(s.alerts);
    ByIdFacts(s.alerts);
    AbsorbAllSize(d, list);
    KeysAreBound(AbsorbAll(d, list));
  }

  lemma StepConserves(s: Store, op: Op, max: nat)
    requires Unique(s.alerts)
    ensures var t := Step(s, op, max);
            |t.alerts| + t.dropped == |s.alerts| + s.dropped + NewIds(ById(s.alerts), Fed(op))
  {
    hide Prepend, Backfill, ById, NewIds, Unique;
    match op
    case PrependOp(a) => PrependConserves(s, a, max);
    case BackfillOp(list) => BackfillConserves(s, list, max);
  }

  /** Nothing vanishes: every insertion of an absent id is still listed or counted
      as dropped. */
  lemma {:induction false} InsertionsAreConserved(ops: seq<Op>, max: nat)
    ensures |Run(ops, max).alerts| + Run(ops, max).dropped == Inserted(ops, max)
  {
    if ops != [] {
      var init := ops[..|ops| - 1];
      InsertionsAreConserved(init, max);
      RunKeepsTop(init, max);
      hide Step, NewIds, Dict.Valid, ById;
      StepConserves(Run(init, max), ops[|ops| - 1], max);
    }
  }

  /** Merging does not depend on arrival order unless the times are equal. */
  lemma MergeCommutes(a: Alert, b: Alert)
    requires a.id == b.id && a.ts != b.ts
    ensures Merge(a, b) == Merge(b, a)
    ensures Merge(a, b).ts == Max(a.ts, b.ts)
    ensures Merge(a, b).dedup == if a.dedup >= b.dedup then a.dedup else b.dedup
    ensures forall f :: f in (if a.ts > b.ts then a else b).fields ==>
              f in Merge(a, b).fields && Merge(a, b).fields[f] == (if a.ts > b.ts then a else b).fields[f]
  {
  }

  /** What merging keeps, whatever the times: of a property that both alerts have, the value
      of the newer one, and of the incoming one if the times are equal; of a property that
      only one has, that value; the later time; and the larger duplicate count. */
  lemma MergeMeans(existing: Alert, incoming: Alert, f: string)
    requires existing.id == incoming.id
    ensures var m := Merge(existing, incoming);
            && m.id == existing.id
            && m.ts >= existing.ts && m.ts >= incoming.ts && (m.ts == existing.ts || m.ts == incoming.ts)
            && m.dedup >= existing.dedup && m.dedup >= incoming.dedup
            && (m.dedup == existing.dedup || m.dedup == incoming.dedup)
            && (f in m.fields <==> f in existing.fields || f in incoming.fields)
            && (f in m.fields ==>
                  m.fields[f] ==
                    if f in incoming.fields && (f !in existing.fields || incoming.ts >= existing.ts)
                    then incoming.fields[f] else existing.fields[f])
  {
  }

  // ---- what is listed of an alert ---------------------------------------------------------

  /** The reports of one id in a list, merged into what was known of it. */
  function Told(before: Option<Alert>, list: seq<Alert>, id: string): Option<Alert> {
    if list == [] then before
    else
      var known, a := Told(before, list[..|list| - 1], id), list[|list| - 1];
      if a.id != id then known else if known.None? then Some(a) else Some(Merge(known.value, a))
  }

  /** Everything reported of an id since it was last not listed, merged in order. */
  function Story(ops: seq<Op>, max: nat, id: string): Option<Alert> {
    if ops == [] || id !in IdsOf(Run(ops, max).alerts) then None
    else Told(Story(ops[..|ops| - 1], max, id), Fed(ops[|ops| - 1]), id)
  }

  ghost predicate Tells(alerts: seq<Alert>, story: Option<Alert>, id: string) {
    && (story.Some? <==> id in IdsOf(alerts))
    && forall i :: 0 <= i < |alerts| && alerts[i].id == id ==> story == Some(alerts[i])
  }

  lemma IdListed(alerts: seq<Alert>, id: string)
    ensures id in IdsOf(alerts) <==> exists i :: 0 <= i < |alerts| && alerts[i].id == id
  {
    if i :| 0 <= i < |alerts| && alerts[i].id == id { assert IdsOf(alerts)[i] == id; }
  }

  lemma CutTells(all: seq<Alert>, max: nat, story: Option<Alert>, id: string)
    requires Tells(all, story, id)
    ensures Tells(Cut(all, max), if id in IdsOf(Cut(all, max)) then story else None, id)
  {
    IdListed(all, id);
    IdListed(Cut(all, max), id);
    hide IdsOf;
  }

  lemma MergedTells(buf: seq<Alert>, a: Alert, story: Option<Alert>, id: string)
    requires Unique(buf) && NewestFirst(buf) && Tells(buf, story, id)
    ensures Tells(Merged(buf, a), Told(story, [a], id), id)
  {
    assert [a][..0] == [];
    assert Told(story, [], id) == story;
    MergedSorted(buf, a);
    MergedKeeps(buf, a);
    IdListed(buf, id);
    IdListed(Merged(buf, a), id);
    var all := Merged(buf, a);
    PlacedIs(buf, a, story);
    hide Merged, IdsOf, Unique, NewestFirst, Merge, Placed;
    forall i | 0 <= i < |all| && all[i].id == id
      ensures Told(story, [a], id) == Some(all[i])
    {
      assert all[i] in all;
    }
    if story.Some? && id != a.id {
      var i :| 0 <= i < |buf| && buf[i].id == id;
      assert buf[i] in buf;
      assert buf[i] in all;
    }
  }

  lemma PlacedIs(buf: seq<Alert>, a: Alert, story: Option<Alert>)
    requires Unique(buf)
    ensures Placed(buf, a).id == a.id
    ensures Tells(buf, story, a.id) ==>
              Placed(buf, a) == if story.Some? then Merge(story.value, a) else a
  {
    IdListed(buf, a.id);
  }

  lemma {:induction false} AbsorbedTells(d: Dict<string, Alert>, list: seq<Alert>, id: string)
    requires d.Valid() && forall x :: x in d.vals ==> d.vals[x].id == x
    ensures var r := AbsorbAll(d, list);
            && (forall x :: x in r.vals ==> r.vals[x].id == x)
            && (if id in r.vals then Some(r.vals[id]) else None)
               == Told(if id in d.vals then Some(d.vals[id]) else None, list, id)
  {
    hide Dict.Valid;
    if list != [] {
      var n := |list| - 1;
      AbsorbedTells(d, list[..n], id);
    }
  }

  lemma BackfillTells(s: seq<Alert>, list: seq<Alert>, story: Option<Alert>, id: string)
    requires Unique(s) && Tells(s, story, id)
    ensures Tells(Listed(AbsorbAll(ById(s), list)), Told(story, list, id), id)
  {
    hide Dict.Valid, Listed, ById, AbsorbAll;
    ByIdFacts(s);
    IdListed(s, id);
    var d := AbsorbAll(ById(s), list);
    AbsorbedTells(ById(s), list, id);
    ListedFacts(d);
    IdListed(Listed(d), id);
    hide IdsOf, Unique, NewestFirst;
    if id in d.vals {
      var i :| 0 <= i < |Listed(d)| && Listed(d)[i] == d.vals[id];
      assert Listed(d)[i].id == id;
    }
    IndexedStory(ById(s), s, story, id);
  }

  lemma IndexedStory(d: Dict<string, Alert>, s: seq<Alert>, story: Option<Alert>, id: string)
    requires Indexes(d, s) && Tells(s, story, id)
    ensures (if id in d.vals then Some(d.vals[id]) else None) == story
    ensures forall x :: x in d.vals ==> d.vals[x].id == x
  {
    IdListed(s, id);
  }

  lemma StepTells(s: Store, op: Op, max: nat, story: Option<Alert>, id: string)
    requires Unique(s.alerts) && NewestFirst(s.alerts) && Tells(s.alerts, story, id)
    ensures var t := Step(s, op, max).alerts;
            Tells(t, if id in IdsOf(t) then Told(story, Fed(op), id) else None, id)
  {
    hide Merged, Listed, ById, AbsorbAll, Dict.Valid, Told, Tells, Unique, NewestFirst, Cut, IdsOf;
    match op
    case PrependOp(a) =>
      MergedTells(s.alerts, a, story, id);
      CutTells(Merged(s.alerts, a), max, Told(story, [a], id), id);
    case BackfillOp(list) =>
      BackfillTells(s.alerts, list, story, id);
      CutTells(Listed(AbsorbAll(ById(s.alerts), list)), max, Told(story, list, id), id);
  }

  /** Nothing reported of a listed alert is lost: it is everything reported of its id since
      the id was last not listed, merged in the order of arrival, whether prepended or
      backfilled. */
  lemma {:induction false} ListedIsItsStory(ops: seq<Op>, max: nat, id: string)
    ensures Tells(Run(ops, max).alerts, Story(ops, max, id), id)
  {
    if ops != [] {
      var init := ops[..|ops| - 1];
      ListedIsItsStory(init, max, id);
      RunKeepsTop(init, max);
      hide Step, Tells, Told, IdsOf;
      StepTells(Run(init, max), ops[|ops| - 1], max, Story(init, max, id), id);
    } else {
      IdListed([], id);
    }
  }

  // ---- the store itself ----------------------------------------------------------------

  class AlertStore {
    const max: nat
    var alerts: seq<Alert>
    var dropped: nat

    ghost function Model(): Store
      reads this
    {
      Store(alerts, dropped)
    }

    constructor (max: nat)
      ensures this.max == max && Model() == EMPTY
    {
      this.max, alerts, dropped := max, [], 0;
    }

    method PrependAlert(a: Alert)
      modifies this
      ensures Model() == Step(old(Model()), PrependOp(a), max)
    {
      var next := Merged(alerts, a);
      alerts, dropped := Cut(next, max), dropped + Excess(next, max);
    }

    method BackfillAlerts(list: seq<Alert>)
      modifies this
      ensures Model() == Step(old(Model()), BackfillOp(list), max)
    {
      hide Dict.Valid, Listed;
      var byId: Dict<string, Alert> := ById([]);
      for n := 0 to |alerts|
        invariant byId.Valid() && byId == ById(alerts[..n])
      {
        assert alerts[..n + 1][..n] == alerts[..n];
        byId := byId.Put(alerts[n].id, alerts[n]);
      }
      assert alerts[..|alerts|] == alerts;
      ghost var start := byId;
      for n := 0 to |list|
        invariant byId.Valid() && byId == AbsorbAll(start, list[..n])
      {
        assert list[..n + 1][..n] == list[..n];
        var a := list[n];
        if !byId.Has(a.id) {
          byId := byId.Put(a.id, a);
        } else {
          byId := byId.Put(a.id, Merge(byId.vals[a.id], a));
        }
      }
      assert list[..|list|] == list;
      var sorted := Listed(byId);
      alerts, dropped := Cut(sorted, max), dropped + Excess(sorted, max);
    }
  }
}
