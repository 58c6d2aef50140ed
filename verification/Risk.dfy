/** src/seerflow/correlation/risk.py: per-entity risk that decays with age. Reals stand
    for floats, and any decay that multiplies over ages stands for `exp`. */
module Risk {
  import opened Seqs
  import opened Dicts

  type Decay = nat -> real

  /** What `exp(-lambda * age)` satisfies and the register relies on. */
  ghost predicate IsDecay(d: Decay) {
    && d(0) == 1.0
    && (forall a: nat :: 0.0 < d(a) <= 1.0)
    && forall a: nat, b: nat :: Splits(d, a, b)
  }

  ghost predicate Splits(d: Decay, a: nat, b: nat) { d(a + b) == d(a) * d(b) }

  datatype Entry = Entry(ts: int, points: real, ruleName: string)

  function Age(e: Entry, now: int): nat { if now < e.ts then 0 else now - e.ts }

  function Product(x: real, y: real): real { x * y }

  function Part(d: Decay, e: Entry, now: int): real { Product(e.points, d(Age(e, now))) }

  function Score(d: Decay, entries: seq<Entry>, now: int): real {
    if entries == [] then 0.0
    else Score(d, entries[..|entries| - 1], now) + Part(d, entries[|entries| - 1], now)
  }

  // ---- decay ------------------------------------------------------------------------------------

  predicate NonNegative(entries: seq<Entry>) {
    forall i :: 0 <= i < |entries| ==> entries[i].points >= 0.0
  }

  predicate NoneInFuture(entries: seq<Entry>, now: int) {
    forall i :: 0 <= i < |entries| ==> entries[i].ts <= now
  }

  lemma ProductMono(x: real, y: real, z: real)
    requires x >= 0.0 && y <= z
    ensures Product(x, y) <= Product(x, z)
  {
  }

  lemma ProductStrict(x: real, y: real, z: real)
    requires x > 0.0 && y < z
    ensures Product(x, y) < Product(x, z)
  {
  }

  lemma ProductSwap(x: real, y: real, z: real)
    ensures Product(x, Product(y, z)) == Product(y, Product(x, z))
  {
  }

  lemma ProductSum(x: real, y: real, z: real)
    ensures Product(x, y + z) == Product(x, y) + Product(x, z)
  {
  }

  lemma DecayLaw(d: Decay, a: nat, b: nat)
    requires IsDecay(d)
    ensures d(a + b) == Product(d(a), d(b)) && 0.0 < d(a) <= 1.0 && 0.0 < d(b) <= 1.0 && d(0) == 1.0
  {
    assert Splits(d, a, b);
  }

  lemma DecaysBy(d: Decay, a: nat, b: nat)
    requires IsDecay(d)
    ensures d(a + b) == Product(d(b), d(a)) <= d(a)
  {
    hide IsDecay, Product;
    DecayLaw(d, a, b);
    ProductMono(d(a), d(b), 1.0);
    ProductOne(d(a), d(b));
  }

  /** With age, a contribution shrinks, but by no more than the decay of the time passed;
      by exactly that if it was not in the future. */
  lemma PartDecays(d: Decay, e: Entry, now: int, delta: nat)
    requires IsDecay(d) && e.points >= 0.0
    ensures Product(d(delta), Part(d, e, now)) <= Part(d, e, now + delta) <= Part(d, e, now)
    ensures e.ts <= now ==> Part(d, e, now + delta) == Product(d(delta), Part(d, e, now))
  {
    hide Product, IsDecay;
    var a, b := Age(e, now), Age(e, now + delta);
    DecaysBy(d, a, b - a);
    ProductMono(e.points, d(b), d(a));
    DecaysBy(d, a, delta);
    DecaysBy(d, b, a + delta - b);
    ProductMono(e.points, d(a + delta), d(b));
    ProductSwap(e.points, d(delta), d(a));
  }

  /** Without additions the risk never grows, and it keeps at least its decayed part. */
  lemma {:induction false} RiskDecays(d: Decay, entries: seq<Entry>, now: int, delta: nat)
    requires IsDecay(d) && NonNegative(entries)
    ensures Product(d(delta), Score(d, entries, now)) <= Score(d, entries, now + delta) <= Score(d, entries, now)
  {
    hide Product, Part, IsDecay;
    ProductZero(d(delta));
    if entries == [] {
    } else {
      var init, last := entries[..|entries| - 1], entries[|entries| - 1];
      RiskDecays(d, init, now, delta);
      PartDecays(d, last, now, delta);
      ProductSum(d(delta), Score(d, init, now), Part(d, last, now));
    }
  }

  /** Once no entry lies in the future, the whole risk decays like one contribution. */
  lemma {:induction false} RiskDecaysAsOne(d: Decay, entries: seq<Entry>, now: int, delta: nat)
    requires IsDecay(d) && NonNegative(entries) && NoneInFuture(entries, now)
    ensures Score(d, entries, now + delta) == Product(d(delta), Score(d, entries, now))
  {
    hide Product, Part, IsDecay;
    ProductZero(d(delta));
    if entries == [] {
    } else {
      var init, last := entries[..|entries| - 1], entries[|entries| - 1];
      RiskDecaysAsOne(d, init, now, delta);
      PartDecays(d, last, now, delta);
      ProductSum(d(delta), Score(d, init, now), Part(d, last, now));
    }
  }

  /** So it halves in every half-life. */
  lemma RiskHalves(d: Decay, entries: seq<Entry>, now: int, halfLife: nat)
    requires IsDecay(d) && d(halfLife) == 0.5 && NonNegative(entries) && NoneInFuture(entries, now)
    ensures Score(d, entries, now + halfLife) == Score(d, entries, now) / 2.0
  {
    hide IsDecay;
    RiskDecaysAsOne(d, entries, now, halfLife);
  }

  lemma {:induction false} StrictDecay(d: Decay, n: nat)
    requires IsDecay(d) && d(1) < 1.0 && n > 0
    ensures d(n) < 1.0
  {
    hide IsDecay, Product;
    DecaysBy(d, 1, n - 1);
    assert 1 + (n - 1) == n;
  }

  predicate SomeInFuture(entries: seq<Entry>, now: int) {
    exists i :: 0 <= i < |entries| && entries[i].ts > now && entries[i].points > 0.0
  }

  lemma PartInFuture(d: Decay, e: Entry, now: int, delta: nat)
    requires IsDecay(d) && d(1) < 1.0 && delta > 0 && e.ts > now && e.points > 0.0
    ensures Part(d, e, now + delta) > Product(d(delta), Part(d, e, now))
  {
    hide Product, IsDecay;
    var b := Age(e, now + delta);
    StrictDecay(d, delta - b);
    DecaysBy(d, b, delta - b);
    assert b + (delta - b) == delta;
    DecayLaw(d, 0, b);
    ProductStrict(d(b), d(delta - b), 1.0);
    ProductOne(d(b), d(delta - b));
    ProductStrict(e.points, d(delta), d(b));
    ProductSwap(e.points, d(delta), 1.0);
    ProductOne(d(delta), 1.0);
  }

  lemma ProductZero(x: real)
    ensures Product(x, 0.0) == 0.0
  {
  }

  lemma ProductOne(x: real, y: real)
    ensures Product(x, 1.0) == x && Product(x, y) == Product(y, x)
  {
  }

  lemma {:induction false} FutureHoldsUp(d: Decay, entries: seq<Entry>, now: int, delta: nat)
    requires IsDecay(d) && d(1) < 1.0 && delta > 0 && NonNegative(entries) && SomeInFuture(entries, now)
    ensures Score(d, entries, now + delta) > Product(d(delta), Score(d, entries, now))
  {
    hide Product, Part, IsDecay;
    ProductZero(d(delta));
    var n := |entries| - 1;
    var init, last := entries[..n], entries[n];
    PartDecays(d, last, now, delta);
    ProductSum(d(delta), Score(d, init, now), Part(d, last, now));
    if last.ts > now && last.points > 0.0 {
      PartInFuture(d, last, now, delta);
      RiskDecays(d, init, now, delta);
    } else {
      var i :| 0 <= i < |entries| && entries[i].ts > now && entries[i].points > 0.0;
      assert init[i] == entries[i];
      FutureHoldsUp(d, init, now, delta);
    }
  }

  /** Exactly when the risk decays as one: no entry with points lies in the future. */
  lemma DecaysAsOneIff(d: Decay, entries: seq<Entry>, now: int, delta: nat)
    requires IsDecay(d) && d(1) < 1.0 && delta > 0 && NonNegative(entries)
    ensures Score(d, entries, now + delta) == Product(d(delta), Score(d, entries, now)) <==> !SomeInFuture(entries, now)
  {
    hide IsDecay, Product, SomeInFuture;
    if SomeInFuture(entries, now) {
      FutureHoldsUp(d, entries, now, delta);
    } else {
      PointlessFuture(d, entries, now, delta);
    }
  }

  lemma {:induction false} PointlessFuture(d: Decay, entries: seq<Entry>, now: int, delta: nat)
    requires IsDecay(d) && NonNegative(entries) && !SomeInFuture(entries, now)
    ensures Score(d, entries, now + delta) == Product(d(delta), Score(d, entries, now))
  {
    hide Product, Part, IsDecay;
    ProductZero(d(delta));
    if entries == [] {
    } else {
      var n := |entries| - 1;
      var init, last := entries[..n], entries[n];
      forall i | 0 <= i < n && init[i].ts > now
        ensures init[i].points <= 0.0
      {
        assert init[i] == entries[i];
      }
      PointlessFuture(d, init, now, delta);
      PartDecays(d, last, now, delta);
      ProductSum(d(delta), Score(d, init, now), Part(d, last, now));
      if last.ts > now { PartZero(d, last, now, delta); }
    }
  }

  lemma PartZero(d: Decay, e: Entry, now: int, delta: nat)
    requires e.points == 0.0
    ensures Part(d, e, now) == 0.0 && Part(d, e, now + delta) == Product(d(delta), Part(d, e, now))
  {
  }

  // ---- the risk itself ----------------------------------------------------------------------------

  /** One contribution counts its points times the decay of its age, and all of them until
      it comes to pass. */
  lemma RiskOfOne(d: Decay, e: Entry, now: int)
    requires IsDecay(d)
    ensures e.ts <= now ==> Score(d, [e], now) == e.points * d(now - e.ts)
    ensures e.ts >= now ==> Score(d, [e], now) == e.points
  {
    hide IsDecay;
    DecayLaw(d, 0, 0);
    assert [e][..0] == [];
    assert Score(d, [], now) == 0.0;
  }

  /** Contributions add up. */
  lemma {:induction false} RiskAdds(d: Decay, a: seq<Entry>, b: seq<Entry>, now: int)
    ensures Score(d, a + b, now) == Score(d, a, now) + Score(d, b, now)
  {
    hide Part;
    if b == [] {
      assert a + b == a;
    } else {
      var n := |b| - 1;
      assert (a + b)[..|a + b| - 1] == a + b[..n];
      RiskAdds(d, a, b[..n], now);
    }
  }

  function SumPoints(entries: seq<Entry>): real {
    if entries == [] then 0.0 else entries[0].points + SumPoints(entries[1..])
  }

  /** So the risk of fresh contributions is the sum of their points, and it crosses the
      threshold from exactly that sum on. */
  lemma {:induction false} FreshRiskIsPoints(d: Decay, threshold: real, entries: seq<Entry>, now: int)
    requires IsDecay(d) && forall i :: 0 <= i < |entries| ==> entries[i].ts >= now
    ensures Score(d, entries, now) == SumPoints(entries)
    ensures Crosses(d, threshold, entries, now) <==> SumPoints(entries) >= threshold
  {
    hide IsDecay, Part;
    if entries != [] {
      FreshRiskIsPoints(d, threshold, entries[1..], now);
      assert entries == [entries[0]] + entries[1..];
      RiskAdds(d, [entries[0]], entries[1..], now);
      RiskOfOne(d, entries[0], now);
    }
  }

  predicate Crosses(d: Decay, threshold: real, entries: seq<Entry>, now: int) {
    Score(d, entries, now) >= threshold
  }

  /** Without additions the threshold is never crossed again. */
  lemma NeverCrossesAgain(d: Decay, threshold: real, entries: seq<Entry>, now: int, later: int)
    requires IsDecay(d) && NonNegative(entries) && now <= later
    requires !Crosses(d, threshold, entries, now)
    ensures !Crosses(d, threshold, entries, later)
  {
    hide IsDecay, Product;
    RiskDecays(d, entries, now, later - now);
    assert now + (later - now) == later;
  }

  // ---- the register, as a value --------------------------------------------------------------------

  datatype Config = Config(maxEntities: nat, maxEntries: nat)

  datatype Register = Register(entries: Dict<string, seq<Entry>>, evictions: nat)
  {
    function Of(k: string): seq<Entry> {
      if entries.Has(k) then entries.vals[k] else []
    }
  }

  const EMPTY := Register(Dict([], map[]), 0)

  /** The slice `[-n:]`, which for n = 0 keeps everything. */
  function Tail(s: seq<Entry>, n: nat): seq<Entry> {
    if n == 0 then s else LastN(s, n)
  }

  function EvictWhileFull(c: Config, r: Register): (t: Register)
    requires r.entries.Valid() && c.maxEntities >= 1
    ensures t.entries.Valid()
    decreases |r.entries.keys|
  {
    if |r.entries.keys| >= c.maxEntities then
      RemoveKeyFacts(r.entries.keys, r.entries.keys[0]);
      EvictWhileFull(c, Register(r.entries.Remove(r.entries.keys[0]), r.evictions + 1))
    else r
  }

  function Add(c: Config, r: Register, k: string, e: Entry): (t: Register)
    requires r.entries.Valid() && c.maxEntities >= 1
    ensures t.entries.Valid()
  {
    var room :=
      if r.entries.Has(k) then r.(entries := r.entries.ToEnd(k))
      else
        var s := EvictWhileFull(c, r);
        s.(entries := s.entries.Put(k, []));
    room.(entries := room.entries.Put(k, Tail(room.Of(k) + [e], c.maxEntries)))
  }

  datatype Op = Op(entity: string, entry: Entry)

  function Run(c: Config, ops: seq<Op>): (r: Register)
    requires c.maxEntities >= 1
    ensures r.entries.Valid()
  {
    if ops == [] then EMPTY
    else Add(c, Run(c, ops[..|ops| - 1]), ops[|ops| - 1].entity, ops[|ops| - 1].entry)
  }

  lemma {:induction false} EvictFacts(c: Config, r: Register)
    requires r.entries.Valid() && c.maxEntities >= 1
    ensures var t := EvictWhileFull(c, r);
            && |t.entries.keys| < c.maxEntities
            && (forall k :: k in t.entries.vals ==> k in r.entries.vals && t.entries.vals[k] == r.entries.vals[k])
            && t.evictions - r.evictions == |r.entries.keys| - |t.entries.keys|
    decreases |r.entries.keys|
  {
    hide Dict.Valid;
    if |r.entries.keys| >= c.maxEntities {
      var oldest := r.entries.keys[0];
      RemoveKeyFacts(r.entries.keys, oldest);
      EvictFacts(c, Register(r.entries.Remove(oldest), r.evictions + 1));
    }
  }

  lemma {:induction false} EvictedKeys(c: Config, r: Register)
    requires r.entries.Valid() && |r.entries.keys| <= c.maxEntities && c.maxEntities >= 1
    ensures EvictWhileFull(c, r).entries.keys ==
      if |r.entries.keys| < c.maxEntities then r.entries.keys else RemoveKey(r.entries.keys, r.entries.keys[0])
  {
    if |r.entries.keys| == c.maxEntities {
      RemoveKeyFacts(r.entries.keys, r.entries.keys[0]);
    }
  }

  lemma AddKeys(c: Config, r: Register, k: string, e: Entry)
    requires r.entries.Valid() && |r.entries.keys| <= c.maxEntities && c.maxEntities >= 1
    ensures Add(c, r, k, e).entries.keys == LastN(Touch(r.entries.keys, k), c.maxEntities)
  {
    r.entries.Member(k);
    TouchCases(r.entries.keys, k, c.maxEntities);
    EvictedKeys(c, r);
    EvictFacts(c, r);
    hide Dict.Valid, Touch, LastN, RemoveKey, EvictWhileFull, Tail;
  }

  /** Every entity that ever got risk, the latest last. */
  function Activity(ops: seq<Op>): seq<string> {
    if ops == [] then [] else Touch(Activity(ops[..|ops| - 1]), ops[|ops| - 1].entity)
  }

  lemma {:induction false} ActivityHasNoneTwice(ops: seq<Op>)
    ensures NoneTwice(Activity(ops))
  {
    if ops != [] {
      ActivityHasNoneTwice(ops[..|ops| - 1]);
      TouchKeepsNoneTwice(Activity(ops[..|ops| - 1]), ops[|ops| - 1].entity);
    }
  }

  /** The register tracks exactly the `maxEntities` entities that last got risk. */
  lemma {:induction false} TrackedAreMostRecent(c: Config, ops: seq<Op>)
    requires c.maxEntities >= 1
    ensures Run(c, ops).entries.keys == LastN(Activity(ops), c.maxEntities)
  {
    if ops != [] {
      var init, op := ops[..|ops| - 1], ops[|ops| - 1];
      hide Dict.Valid, Touch, LastN, Add, NoneTwice;
      TrackedAreMostRecent(c, init);
      ActivityHasNoneTwice(init);
      AddKeys(c, Run(c, init), op.entity, op.entry);
      TouchThenCut(Activity(init), op.entity, c.maxEntities);
    } else {
      hide Dict.Valid;
    }
  }

  /** The contributions of `k` since it was last evicted. */
  function Since(c: Config, ops: seq<Op>, k: string): seq<Entry>
    requires c.maxEntities >= 1
  {
    if ops == [] || !Run(c, ops).entries.Has(k) then []
    else
      var before, op := Since(c, ops[..|ops| - 1], k), ops[|ops| - 1];
      if op.entity == k then before + [op.entry] else before
  }

  lemma AddOf(c: Config, r: Register, j: string, e: Entry, k: string)
    requires r.entries.Valid() && c.maxEntities >= 1
    ensures var t := Add(c, r, j, e);
            && t.entries.Has(j) && (t.entries.Has(k) && k != j ==> r.entries.Has(k))
            && t.Of(k) == (if k == j then Tail(r.Of(k) + [e], c.maxEntries)
                           else if t.entries.Has(k) then r.Of(k) else [])
  {
    EvictFacts(c, r);
    EvictsOnlyFull(c, r, j);
    hide Dict.Valid, EvictWhileFull, Tail;
  }

  lemma {:induction false} EvictsOnlyFull(c: Config, r: Register, j: string)
    requires r.entries.Valid() && c.maxEntities >= 1
    ensures !r.entries.Has(j) ==> !EvictWhileFull(c, r).entries.Has(j)
  {
    EvictFacts(c, r);
  }

  lemma TailAppend(s: seq<Entry>, n: nat, e: Entry)
    ensures Tail(Tail(s, n) + [e], n) == Tail(s + [e], n)
  {
    if n > 0 { LastNAppend(s, [e], n); }
  }

  /** What is stored of a tracked entity is exactly its last `maxEntries` contributions
      since its last eviction; with a limit of 0 it is all of them. */
  lemma StoredAreTheLast(c: Config, ops: seq<Op>, k: string)
    requires c.maxEntities >= 1
    ensures var stored, all := Run(c, ops).Of(k), Since(c, ops, k);
            && |stored| == (if c.maxEntries == 0 || |all| <= c.maxEntries then |all| else c.maxEntries)
            && stored == all[|all| - |stored|..]
  {
    hide Dict.Valid, Run, Since;
    StoredIsTail(c, ops, k);
  }

  lemma {:induction false} StoredIsTail(c: Config, ops: seq<Op>, k: string)
    requires c.maxEntities >= 1
    ensures Run(c, ops).Of(k) == Tail(Since(c, ops, k), c.maxEntries)
  {
    if ops != [] {
      var init, op := ops[..|ops| - 1], ops[|ops| - 1];
      hide Dict.Valid, Add, Tail;
      StoredIsTail(c, init, k);
      AddOf(c, Run(c, init), op.entity, op.entry, k);
      TailAppend(Since(c, init, k), c.maxEntries, op.entry);
      TailNone(c.maxEntries);
    } else {
      hide Dict.Valid;
    }
  }

  lemma TailNone(n: nat)
    ensures Tail([], n) == []
  {
  }

  // ---- the register itself ---------------------------------------------------------------------------

  lemma EvictStep(c: Config, r: Register)
    requires r.entries.Valid() && c.maxEntities >= 1 && |r.entries.keys| >= c.maxEntities
    ensures var oldest := r.entries.keys[0];
            && EvictWhileFull(c, r) == EvictWhileFull(c, Register(r.entries.Remove(oldest), r.evictions + 1))
            && |r.entries.Remove(oldest).keys| < |r.entries.keys|
  {
    hide Dict.Valid, RemoveKey;
    RemoveKeyFacts(r.entries.keys, r.entries.keys[0]);
    assert r.entries.keys[0] in r.entries.keys;
  }

  lemma EvictDone(c: Config, r: Register)
    requires r.entries.Valid() && c.maxEntities >= 1 && |r.entries.keys| < c.maxEntities
    ensures EvictWhileFull(c, r) == r
  {
  }

  class RiskRegister {
    const config: Config
    const decay: Decay
    const threshold: real
    var entries: Dict<string, seq<Entry>>
    var evictionCount: nat

    ghost function Model(): Register
      reads this
    {
      Register(entries, evictionCount)
    }

    constructor (config: Config, decay: Decay, threshold: real)
      ensures Model() == EMPTY && entries.Valid()
      ensures this.config == config && this.decay == decay && this.threshold == threshold
    {
      this.config, this.decay, this.threshold := config, decay, threshold;
      entries, evictionCount := Dict([], map[]), 0;
    }

    /** The clock reading is a parameter. */
    method AddRisk(k: string, e: Entry, now: int) returns (score: real)
      requires entries.Valid() && config.maxEntities >= 1
      modifies this
      ensures entries.Valid() && Model() == Add(config, old(Model()), k, e)
      ensures score == Score(decay, Model().Of(k), now)
    {
      hide Dict.Valid, Dict.Remove;
      if entries.Has(k) {
        entries := entries.ToEnd(k);
      } else {
        EvictUntilRoom();
        entries := entries.Put(k, []);
      }
      entries := entries.Put(k, entries.vals[k] + [e]);
      var all := entries.vals[k];
      if |all| > config.maxEntries {
        entries := entries.Put(k, if config.maxEntries == 0 then all else all[|all| - config.maxEntries..]);
      }
      score := GetRisk(k, now);
    }

    method EvictUntilRoom()
      requires entries.Valid() && config.maxEntities >= 1
      modifies this
      ensures entries.Valid() && Model() == EvictWhileFull(config, old(Model()))
    {
      hide Dict.Valid, Dict.Remove, EvictWhileFull;
      while |entries.keys| >= config.maxEntities
        invariant entries.Valid() && EvictWhileFull(config, Model()) == EvictWhileFull(config, old(Model()))
        decreases |entries.keys|
      {
        EvictStep(config, Model());
        entries := entries.Remove(entries.keys[0]);
        evictionCount := evictionCount + 1;
      }
      EvictDone(config, Model());
    }

    method GetRisk(k: string, now: int) returns (total: real)
      ensures total == Score(decay, Model().Of(k), now)
    {
      if !entries.Has(k) { return 0.0; }
      var all := entries.vals[k];
      total := 0.0;
      for i := 0 to |all|
        invariant total == Score(decay, all[..i], now)
      {
        assert all[..i + 1][..i] == all[..i];
        var age := now - all[i].ts;
        if age < 0 { age := 0; }
        total := total + Product(all[i].points, decay(age));
      }
      assert all[..|all|] == all;
    }

    method CheckThreshold(k: string, now: int) returns (crossed: bool)
      ensures crossed <==> Crosses(decay, threshold, Model().Of(k), now)
    {
      var total := GetRisk(k, now);
      crossed := total >= threshold;
    }
  }
}
