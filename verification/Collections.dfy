/** An optional value: what Python writes as `None` or a value. */
module Options {
  datatype Option<T> = None | Some(value: T)
}

/** Quotients and remainders of numbers that are not constants. */
module Divisions {

  lemma Remainder(x: nat, n: nat, q: nat, r: nat)
    requires r < n && x == q * n + r
    ensures x % n == r
  {
    var d := x / n - q;
    assert x == (x / n) * n + x % n;
    assert (x / n) * n == q * n + d * n;
    TimesSize(d, n);
  }

  lemma TimesSize(d: int, n: nat)
    ensures d >= 1 ==> d * n >= n
    ensures d <= -1 ==> d * n <= -(n as int)
  {
  }

  lemma OnePeriod(x: nat, n: nat)
    requires n > 0
    ensures (x + n) % n == x % n
  {
    var q, r := x / n, x % n;
    assert x + n == (q + 1) * n + r;
    Remainder(x + n, n, q + 1, r);
  }

  lemma {:induction false} AddMultiples(t: nat, k: nat, n: nat)
    requires n > 0
    ensures (t + k * n) % n == t % n
  {
    if k > 0 {
      AddMultiples(t, k - 1, n);
      assert t + k * n == (t + (k - 1) * n) + n;
      OnePeriod(t + (k - 1) * n, n);
    }
  }

  lemma SumParts(a: nat, b: nat, n: nat)
    requires n > 0
    ensures a + b == (a % n + b % n) + (a / n + b / n) * n
  {
    assert a == (a / n) * n + a % n && b == (b / n) * n + b % n;
    assert (a / n + b / n) * n == (a / n) * n + (b / n) * n;
  }

  /** Adding `b` keeps the remainder if and only if `b` is a multiple. */
  lemma SameRemainder(a: nat, b: nat, n: nat)
    requires n > 0
    ensures (a + b) % n == a % n <==> b % n == 0
  {
    var r, s := a % n, b % n;
    SumParts(a, b, n);
    AddMultiples(r + s, a / n + b / n, n);
    if r + s < n {
      Remainder(r + s, n, 0, r + s);
    } else {
      Remainder(r + s, n, 1, r + s - n);
    }
  }
}

/** Sequence operations shared by the components: filtering, keeping the newest
    entries, and a stable sort by an integer key. */
module Seqs {

  function Filter<T>(p: T -> bool, s: seq<T>): (r: seq<T>)
    ensures |r| <= |s|
  {
    if s == [] then []
    else
      var rest := Filter(p, s[..|s| - 1]);
      if p(s[|s| - 1]) then rest + [s[|s| - 1]] else rest
  }

  lemma {:induction false} FilterMembers<T>(p: T -> bool, s: seq<T>)
    ensures forall x :: x in Filter(p, s) ==> x in s && p(x)
    ensures forall x :: x in s && p(x) ==> x in Filter(p, s)
  {
    if s != [] {
      FilterMembers(p, s[..|s| - 1]);
      assert s == s[..|s| - 1] + [s[|s| - 1]];
    }
  }

  lemma {:induction false} FilterMultiset<T>(p: T -> bool, s: seq<T>, x: T)
    ensures multiset(Filter(p, s))[x] == if p(x) then multiset(s)[x] else 0
  {
    if s != [] {
      FilterMultiset(p, s[..|s| - 1], x);
      assert s == s[..|s| - 1] + [s[|s| - 1]];
    }
  }

  lemma {:induction false} FilterConcat<T>(p: T -> bool, a: seq<T>, b: seq<T>)
    ensures Filter(p, a + b) == Filter(p, a) + Filter(p, b)
  {
    if b == [] {
      assert a + b == a;
    } else {
      assert (a + b)[..|a + b| - 1] == a + b[..|b| - 1];
      FilterConcat(p, a, b[..|b| - 1]);
    }
  }

  lemma {:induction false} FilterNone<T>(p: T -> bool, s: seq<T>)
    requires forall x :: x in s ==> !p(x)
    ensures Filter(p, s) == []
  {
    if s != [] {
      FilterNone(p, s[..|s| - 1]);
    }
  }

  lemma {:induction false} FilterAll<T>(p: T -> bool, s: seq<T>)
    requires forall x :: x in s ==> p(x)
    ensures Filter(p, s) == s
  {
    if s != [] {
      FilterAll(p, s[..|s| - 1]);
    }
  }

  lemma {:induction false} FilterAgree<T>(p: T -> bool, q: T -> bool, s: seq<T>)
    requires forall x :: x in s ==> p(x) == q(x)
    ensures Filter(p, s) == Filter(q, s)
  {
    if s != [] {
      FilterAgree(p, q, s[..|s| - 1]);
    }
  }

  /** Filtering by `p`, then by `q`, is filtering by `r` when `r` is both. */
  lemma {:induction false} FilterTwice<T>(p: T -> bool, q: T -> bool, r: T -> bool, s: seq<T>)
    requires forall x :: x in s ==> r(x) == (p(x) && q(x))
    ensures Filter(q, Filter(p, s)) == Filter(r, s)
  {
    if s != [] {
      var n := |s| - 1;
      FilterTwice(p, q, r, s[..n]);
      if p(s[n]) {
        assert (Filter(p, s[..n]) + [s[n]])[..|Filter(p, s[..n])|] == Filter(p, s[..n]);
      }
    }
  }

  /** The newest `n` entries of `s`: what a bounded deque keeps. */
  function LastN<T>(s: seq<T>, n: nat): (r: seq<T>)
    ensures |r| == if |s| < n then |s| else n
  {
    if |s| <= n then s else s[|s| - n..]
  }

  lemma LastNAppend<T>(a: seq<T>, b: seq<T>, n: nat)
    ensures LastN(LastN(a, n) + b, n) == LastN(a + b, n)
  {
    if |a| > n {
      var d := |a| - n;
      assert a + b == a[..d] + (a[d..] + b);
    }
  }

  // ---- stable sort ----------------------------------------------------------

  ghost predicate SortedBy<T>(key: T -> int, s: seq<T>) {
    forall i, j :: 0 <= i < j < |s| ==> key(s[i]) <= key(s[j])
  }

  /** Puts `x` behind every entry whose key is not larger. */
  function InsertBy<T>(key: T -> int, s: seq<T>, x: T): (r: seq<T>)
    ensures |r| == |s| + 1
    ensures multiset(r) == multiset(s) + multiset{x}
  {
    if s == [] then [x]
    else
      var n := |s| - 1;
      assert s == s[..n] + [s[n]];
      if key(s[n]) <= key(x) then s + [x]
      else InsertBy(key, s[..n], x) + [s[n]]
  }

  function SortBy<T>(key: T -> int, s: seq<T>): (r: seq<T>)
    ensures |r| == |s|
    ensures multiset(r) == multiset(s)
  {
    if s == [] then []
    else
      assert s == s[..|s| - 1] + [s[|s| - 1]];
      InsertBy(key, SortBy(key, s[..|s| - 1]), s[|s| - 1])
  }

  lemma MultisetMember<T>(a: seq<T>, b: seq<T>)
    requires multiset(a) == multiset(b)
    ensures forall x :: x in a ==> x in b
  {
    forall x | x in a
      ensures x in b
    {
      assert x in multiset(b);
    }
  }

  lemma {:induction false} InsertBySorted<T>(key: T -> int, s: seq<T>, x: T)
    requires SortedBy(key, s)
    ensures SortedBy(key, InsertBy(key, s, x))
  {
    if s != [] && key(s[|s| - 1]) > key(x) {
      var n := |s| - 1;
      InsertBySorted(key, s[..n], x);
      var r := InsertBy(key, s[..n], x);
      MultisetMember(r, s[..n] + [x]);
      forall i | 0 <= i < |r|
        ensures key(r[i]) <= key(s[n])
      {
        assert r[i] in s[..n] + [x];
      }
    }
  }

  lemma {:induction false} SortBySorted<T>(key: T -> int, s: seq<T>)
    ensures SortedBy(key, SortBy(key, s))
  {
    if s != [] {
      SortBySorted(key, s[..|s| - 1]);
      InsertBySorted(key, SortBy(key, s[..|s| - 1]), s[|s| - 1]);
    }
  }

  lemma {:induction false} InsertByFilterSize<T>(key: T -> int, p: T -> bool, s: seq<T>, x: T)
    ensures |Filter(p, InsertBy(key, s, x))| == |Filter(p, s)| + if p(x) then 1 else 0
  {
    if s != [] && key(s[|s| - 1]) > key(x) {
      InsertByFilterSize(key, p, s[..|s| - 1], x);
    } else {
      FilterConcat(p, s, [x]);
      assert [x][..0] == [];
    }
  }

  /** Sorting keeps how many entries satisfy a condition. */
  lemma {:induction false} SortByFilterSize<T>(key: T -> int, p: T -> bool, s: seq<T>)
    ensures |Filter(p, SortBy(key, s))| == |Filter(p, s)|
  {
    if s != [] {
      SortByFilterSize(key, p, s[..|s| - 1]);
      InsertByFilterSize(key, p, SortBy(key, s[..|s| - 1]), s[|s| - 1]);
    }
  }

  function HasKey<T>(key: T -> int, k: int): T -> bool {
    (e: T) => key(e) == k
  }

  lemma {:induction false} InsertByStable<T>(key: T -> int, s: seq<T>, x: T, k: int)
    requires SortedBy(key, s)
    ensures Filter(HasKey(key, k), InsertBy(key, s, x))
         == Filter(HasKey(key, k), s) + if key(x) == k then [x] else []
  {
    var p := HasKey(key, k);
    if s == [] {
      assert [x][..0] == [];
    } else if key(s[|s| - 1]) <= key(x) {
      FilterConcat(p, s, [x]);
      assert [x][..0] == [];
    } else {
      InsertByStable(key, s[..|s| - 1], x, k);
      if key(x) == k {
        var n := |s| - 1;
        assert key(s[n]) != k;
      }
    }
  }

  /** The sort is stable: entries of one key stay in their order. */
  lemma {:induction false} SortByStable<T>(key: T -> int, s: seq<T>, k: int)
    ensures Filter(HasKey(key, k), SortBy(key, s)) == Filter(HasKey(key, k), s)
  {
    if s != [] {
      SortByStable(key, s[..|s| - 1], k);
      SortBySorted(key, s[..|s| - 1]);
      InsertByStable(key, SortBy(key, s[..|s| - 1]), s[|s| - 1], k);
    }
  }
}

/** Insertion-ordered dictionaries, as Python's `dict` and `OrderedDict` and
    JavaScript's `Map` are. Values are replaced in place; a new key goes last. */
module Dicts {
  import opened Seqs

  datatype Dict<K(==), V> = Dict(keys: seq<K>, vals: map<K, V>)
  {
    /** `keys` lists every key of `vals` exactly once. */
    ghost predicate Valid() {
      multiset(keys) == multiset(vals.Keys)
    }

    predicate Has(k: K) { k in vals }

    function Put(k: K, v: V): (d: Dict<K, V>)
      requires Valid()
      ensures d.Valid()
    {
      assert vals[k := v].Keys == vals.Keys + {k};
      if k in vals then
        assert vals[k := v].Keys == vals.Keys;
        Dict(keys, vals[k := v])
      else Dict(keys + [k], vals[k := v])
    }

    function Remove(k: K): (d: Dict<K, V>)
      requires Valid()
      ensures d.Valid()
    {
      RemoveKeyFacts(keys, k);
      assert (vals - {k}).Keys == vals.Keys - {k};
      Dict(RemoveKey(keys, k), vals - {k})
    }

    /** Pops `k` and stores it again, which makes it the newest key. */
    function ToEnd(k: K): (d: Dict<K, V>)
      requires Valid() && Has(k)
      ensures d.Valid()
    {
      RemoveKeyFacts(keys, k);
      assert k in multiset(vals.Keys);
      Dict(RemoveKey(keys, k) + [k], vals)
    }

    lemma Member(k: K)
      requires Valid()
      ensures k in keys <==> k in vals
    {
      assert k in multiset(keys) <==> k in multiset(vals.Keys);
    }

    lemma Distinct(i: nat, j: nat)
      requires Valid() && i < j < |keys|
      ensures keys[i] != keys[j]
    {
      assert keys == keys[..j] + [keys[j]] + keys[j + 1..];
      assert keys[i] in multiset(keys[..j]);
      assert multiset(keys)[keys[j]] == multiset(keys[..j])[keys[j]] + 1 + multiset(keys[j + 1..])[keys[j]];
    }

    lemma SizeIs()
      requires Valid()
      ensures |keys| == |vals|
    {
      assert |multiset(keys)| == |multiset(vals.Keys)|;
    }
  }

  function RemoveKey<K(==)>(keys: seq<K>, k: K): seq<K> {
    if keys == [] then []
    else if keys[0] == k then keys[1..]
    else [keys[0]] + RemoveKey(keys[1..], k)
  }

  lemma {:induction false} RemoveKeyFacts<K>(keys: seq<K>, k: K)
    ensures multiset(RemoveKey(keys, k)) == multiset(keys) - multiset{k}
    ensures |RemoveKey(keys, k)| == if k in keys then |keys| - 1 else |keys|
  {
    if keys != [] {
      assert keys == [keys[0]] + keys[1..];
      RemoveKeyFacts(keys[1..], k);
    }
  }

  lemma {:induction false} RemoveKeyMembers<K>(keys: seq<K>, k: K)
    ensures forall x :: x in RemoveKey(keys, k) ==> x in keys
  {
    if keys != [] {
      RemoveKeyMembers(keys[1..], k);
    }
  }

  function OtherThan<K(==)>(k: K): K -> bool {
    x => x != k
  }

  lemma {:induction false} RemoveKeyIsFilter<K>(keys: seq<K>, k: K)
    requires multiset(keys)[k] <= 1
    ensures RemoveKey(keys, k) == Filter(OtherThan(k), keys)
  {
    var p := OtherThan(k);
    if keys != [] {
      var h, t := keys[0], keys[1..];
      assert keys == [h] + t;
      FilterConcat(p, [h], t);
      assert [h][..0] == [];
      if h == k {
        assert k !in multiset(t);
        FilterAll(p, t);
      } else {
        assert multiset(t)[k] <= 1;
        RemoveKeyIsFilter(t, k);
      }
    }
  }

  // ---- least-recently-used order ------------------------------------------------

  /** Makes `k` the most recent name. */
  function Touch<K(==)>(names: seq<K>, k: K): seq<K> {
    RemoveKey(names, k) + [k]
  }

  ghost predicate NoneTwice<K(!new)>(names: seq<K>) {
    forall k :: multiset(names)[k] <= 1
  }

  lemma TouchKeepsNoneTwice<K(!new)>(names: seq<K>, k: K)
    requires NoneTwice(names)
    ensures NoneTwice(Touch(names, k))
  {
    RemoveKeyFacts(names, k);
  }

  lemma {:induction false} RemoveKeyConcat<K>(a: seq<K>, b: seq<K>, k: K)
    ensures RemoveKey(a + b, k) == if k in a then RemoveKey(a, k) + b else a + RemoveKey(b, k)
  {
    if a == [] {
      assert a + b == b;
    } else {
      assert (a + b)[1..] == a[1..] + b;
      RemoveKeyConcat(a[1..], b, k);
    }
  }

  lemma {:induction false} RemoveAbsent<K>(names: seq<K>, k: K)
    requires k !in names
    ensures RemoveKey(names, k) == names
  {
    if names != [] { RemoveAbsent(names[1..], k); }
  }

  lemma LastNOfSuffix<K>(a: seq<K>, b: seq<K>, n: nat)
    requires |b| >= n
    ensures LastN(a + b, n) == LastN(b, n)
  {
  }

  /** Touching does not depend on how much of the older names is still remembered. */
  lemma TouchSuffix<K(!new)>(a: seq<K>, b: seq<K>, k: K) returns (older: seq<K>)
    requires NoneTwice(a + b)
    ensures Touch(a + b, k) == older + Touch(b, k)
  {
    hide RemoveKey;
    RemoveKeyConcat(a, b, k);
    assert multiset(a + b)[k] == multiset(a)[k] + multiset(b)[k] <= 1;
    if k in b {
      assert k in multiset(b);
      assert k !in multiset(a);
      older := a;
      assert a + RemoveKey(b, k) + [k] == a + (RemoveKey(b, k) + [k]);
    } else {
      RemoveAbsent(b, k);
      older := if k in a then RemoveKey(a, k) else a;
      assert older + b + [k] == older + (b + [k]);
    }
  }

  lemma LastNOver<K>(names: seq<K>, k: K, n: nat)
    requires n >= 1
    ensures |names| < n ==> LastN(names + [k], n) == names + [k]
    ensures |names| == n ==> LastN(names + [k], n) == names[1..] + [k]
  {
    if |names| == n {
      assert (names + [k])[1..] == names[1..] + [k];
    }
  }

  lemma RemoveFirst<K>(names: seq<K>)
    requires names != []
    ensures RemoveKey(names, names[0]) == names[1..]
  {
  }

  /** What touching and cutting does to names that were within the cut. */
  lemma TouchCases<K>(names: seq<K>, k: K, n: nat)
    requires |names| <= n && n >= 1
    ensures LastN(Touch(names, k), n) ==
      if k in names then RemoveKey(names, k) + [k]
      else if |names| < n then names + [k]
      else RemoveKey(names, names[0]) + [k]
  {
    hide RemoveKey, LastN;
    if k in names {
      RemoveKeyFacts(names, k);
      LastNOver(RemoveKey(names, k), k, n);
    } else {
      RemoveAbsent(names, k);
      LastNOver(names, k, n);
      if names != [] { RemoveFirst(names); }
    }
  }

  /** Keeping only the `n` most recent names all along keeps the right ones: evicting
      the least recently used name is the same as remembering all and cutting. */
  lemma TouchThenCut<K(!new)>(names: seq<K>, k: K, n: nat)
    requires NoneTwice(names) && n >= 1
    ensures LastN(Touch(LastN(names, n), k), n) == LastN(Touch(names, k), n)
  {
    if |names| > n {
      var a, b := names[..|names| - n], names[|names| - n..];
      assert names == a + b;
      var older := TouchSuffix(a, b, k);
      RemoveKeyFacts(b, k);
      assert LastN(names, n) == b && |Touch(b, k)| >= n;
      hide Touch, LastN, NoneTwice;
      LastNOfSuffix(older, Touch(b, k), n);
    }
  }
}
