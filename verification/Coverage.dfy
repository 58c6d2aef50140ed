/** src/seerflow/api/attack.py: the ATT&CK coverage matrix, aggregated from tagged rules
    and alerts. `parent` stands for the normalised parent technique of a tag. */
module Coverage {
  import opened Seqs

  /** What is collected: a Sigma rule, a correlation rule, or an alert (without a name). */
  datatype Tagged = Tagged(tactics: seq<string>, techniques: seq<string>, name: string)

  datatype Key = Key(tactic: string, technique: string)
  datatype CellData = CellData(count: nat, names: seq<string>)
  {
    function Add(name: string): CellData {
      CellData(count + 1, if name != "" then names + [name] else names)
    }

    function Plus(d: CellData): CellData { CellData(count + d.count, names + d.names) }
  }

  const NO_DATA := CellData(0, [])

  type Cells = map<Key, CellData>
  type Parent = string -> string

  function At(cells: Cells, k: Key): CellData {
    if k in cells then cells[k] else NO_DATA
  }

  // ---- collecting -----------------------------------------------------------------------------

  /** The parent techniques of the non-empty tags, each once. */
  function Parents(parent: Parent, techniques: seq<string>): seq<string> {
    if techniques == [] then []
    else
      var before, t := Parents(parent, techniques[..|techniques| - 1]), techniques[|techniques| - 1];
      if t == "" || parent(t) in before then before else before + [parent(t)]
  }

  /** How often a tactic is listed. */
  function Listed(tactics: seq<string>, t: string): nat {
    if tactics == [] then 0
    else Listed(tactics[..|tactics| - 1], t) + if tactics[|tactics| - 1] == t then 1 else 0
  }

  predicate Tags(parent: Parent, x: Tagged, technique: string) {
    exists i :: 0 <= i < |x.techniques| && x.techniques[i] != "" && parent(x.techniques[i]) == technique
  }

  /** How often one tagged thing counts for a cell: once per listing of the tactic,
      however many of its tags share the parent technique. */
  function Hits(parent: Parent, x: Tagged, k: Key): nat {
    if k.tactic != "" && Tags(parent, x, k.technique) then Listed(x.tactics, k.tactic) else 0
  }

  function AddTimes(d: CellData, name: string, n: nat): CellData {
    if n == 0 then d else AddTimes(d, name, n - 1).Add(name)
  }

  function KeysOf(parent: Parent, x: Tagged): set<Key> {
    set t, i | t in x.tactics && 0 <= i < |x.techniques| && t != "" && x.techniques[i] != "" ::
      Key(t, parent(x.techniques[i]))
  }

  function AddOne(parent: Parent, cells: Cells, x: Tagged): Cells {
    map k | k in cells.Keys + KeysOf(parent, x) :: AddTimes(At(cells, k), x.name, Hits(parent, x, k))
  }

  function Collect(parent: Parent, xs: seq<Tagged>): Cells {
    if xs == [] then map[] else AddOne(parent, Collect(parent, xs[..|xs| - 1]), xs[|xs| - 1])
  }

  function Merge(a: Cells, b: Cells): Cells {
    map k | k in a.Keys + b.Keys :: At(a, k).Plus(At(b, k))
  }

  function MergeAll(sources: seq<Cells>): Cells {
    if sources == [] then map[] else Merge(MergeAll(sources[..|sources| - 1]), sources[|sources| - 1])
  }

  lemma {:induction false} ParentsAreTags(parent: Parent, techniques: seq<string>, p: string)
    ensures p in Parents(parent, techniques)
       <==> exists i :: 0 <= i < |techniques| && techniques[i] != "" && parent(techniques[i]) == p
    ensures multiset(Parents(parent, techniques))[p] <= 1
  {
    if techniques != [] {
      var n := |techniques| - 1;
      ParentsAreTags(parent, techniques[..n], p);
      if i :| 0 <= i < n && techniques[i] != "" && parent(techniques[i]) == p {
        assert techniques[..n][i] == techniques[i];
      }
    }
  }

  lemma {:induction false} ListedPositive(tactics: seq<string>, t: string)
    ensures Listed(tactics, t) > 0 <==> t in tactics
  {
    if tactics != [] {
      ListedPositive(tactics[..|tactics| - 1], t);
      assert tactics == tactics[..|tactics| - 1] + [tactics[|tactics| - 1]];
    }
  }

  lemma HitIsKey(parent: Parent, x: Tagged, k: Key)
    ensures k in KeysOf(parent, x) <==> Hits(parent, x, k) > 0
  {
    ListedPositive(x.tactics, k.tactic);
  }

  lemma AddOneAt(parent: Parent, cells: Cells, x: Tagged, k: Key)
    ensures At(AddOne(parent, cells, x), k) == AddTimes(At(cells, k), x.name, Hits(parent, x, k))
  {
    HitIsKey(parent, x, k);
  }

  lemma {:induction false} AddTimesPlus(a: CellData, b: CellData, name: string, n: nat)
    ensures AddTimes(a.Plus(b), name, n) == a.Plus(AddTimes(b, name, n))
  {
    if n > 0 { AddTimesPlus(a, b, name, n - 1); }
  }

  lemma PlusNothing(d: CellData)
    ensures d.Plus(NO_DATA) == d
  {
    assert d.names + [] == d.names;
  }

  lemma MergeAt(a: Cells, b: Cells, k: Key)
    ensures At(Merge(a, b), k) == At(a, k).Plus(At(b, k))
  {
    hide CellData.Plus;
    PlusNothing(NO_DATA);
  }

  lemma SameCells(a: Cells, b: Cells)
    requires a.Keys == b.Keys && forall k :: At(a, k) == At(b, k)
    ensures a == b
  {
    forall k | k in a
      ensures a[k] == b[k]
    {
      assert At(a, k) == At(b, k);
    }
  }

  lemma AddAfterMerge(parent: Parent, a: Cells, b: Cells, x: Tagged)
    ensures AddOne(parent, Merge(a, b), x) == Merge(a, AddOne(parent, b, x))
  {
    hide AddTimes, Hits;
    var l, r := AddOne(parent, Merge(a, b), x), Merge(a, AddOne(parent, b, x));
    forall k
      ensures At(l, k) == At(r, k)
    {
      AddOneAt(parent, Merge(a, b), x, k);
      AddOneAt(parent, b, x, k);
      MergeAt(a, b, k);
      MergeAt(a, AddOne(parent, b, x), k);
      AddTimesPlus(At(a, k), At(b, k), x.name, Hits(parent, x, k));
    }
    assert l.Keys == r.Keys;
    SameCells(l, r);
  }

  lemma MergeNothing(a: Cells)
    ensures Merge(a, map[]) == a && Merge(map[], a) == a
  {
    var none: Cells := map[];
    forall k
      ensures At(Merge(a, none), k) == At(a, k) && At(Merge(none, a), k) == At(a, k)
    {
      assert At(a, k).names + [] == At(a, k).names && [] + At(a, k).names == At(a, k).names;
    }
    SameCells(Merge(a, none), a);
    SameCells(Merge(none, a), a);
  }

  /** Collecting over a concatenation is merging the two collections: counts are added,
      names concatenated in order. */
  lemma {:induction false} CollectIsHomomorphism(parent: Parent, xs: seq<Tagged>, ys: seq<Tagged>)
    ensures Collect(parent, xs + ys) == Merge(Collect(parent, xs), Collect(parent, ys))
  {
    hide AddOne, Merge;
    if ys == [] {
      assert xs + ys == xs;
      MergeNothing(Collect(parent, xs));
    } else {
      var n := |ys| - 1;
      assert (xs + ys)[..|xs + ys| - 1] == xs + ys[..n];
      CollectIsHomomorphism(parent, xs, ys[..n]);
      AddAfterMerge(parent, Collect(parent, xs), Collect(parent, ys[..n]), ys[n]);
    }
  }

  function CollectEach(parent: Parent, groups: seq<seq<Tagged>>): seq<Cells> {
    if groups == [] then []
    else CollectEach(parent, groups[..|groups| - 1]) + [Collect(parent, groups[|groups| - 1])]
  }

  function Concat(groups: seq<seq<Tagged>>): seq<Tagged> {
    if groups == [] then [] else Concat(groups[..|groups| - 1]) + groups[|groups| - 1]
  }

  /** So it does not matter how rules are grouped before their cells are merged. */
  lemma {:induction false} GroupingIsIrrelevant(parent: Parent, groups: seq<seq<Tagged>>)
    ensures MergeAll(CollectEach(parent, groups)) == Collect(parent, Concat(groups))
  {
    hide AddOne, Merge;
    if groups != [] {
      var n := |groups| - 1;
      var before := CollectEach(parent, groups[..n]);
      assert (before + [Collect(parent, groups[n])])[..|before|] == before;
      GroupingIsIrrelevant(parent, groups[..n]);
      CollectIsHomomorphism(parent, Concat(groups[..n]), groups[n]);
    }
  }

  function TotalHits(parent: Parent, xs: seq<Tagged>, k: Key): nat {
    if xs == [] then 0 else TotalHits(parent, xs[..|xs| - 1], k) + Hits(parent, xs[|xs| - 1], k)
  }

  lemma {:induction false} AddTimesCount(d: CellData, name: string, n: nat)
    ensures AddTimes(d, name, n).count == d.count + n
  {
    if n > 0 { AddTimesCount(d, name, n - 1); }
  }

  /** A cell exists if and only if something hits it, and counts exactly the hits. */
  lemma {:induction false} CountsAreHits(parent: Parent, xs: seq<Tagged>, k: Key)
    ensures At(Collect(parent, xs), k).count == TotalHits(parent, xs, k)
    ensures k in Collect(parent, xs) <==> TotalHits(parent, xs, k) > 0
  {
    hide Hits, AddTimes, KeysOf;
    if xs != [] {
      var n := |xs| - 1;
      CountsAreHits(parent, xs[..n], k);
      AddOneAt(parent, Collect(parent, xs[..n]), xs[n], k);
      HitIsKey(parent, xs[n], k);
      AddTimesCount(At(Collect(parent, xs[..n]), k), xs[n].name, Hits(parent, xs[n], k));
    }
  }

  // ---- the matrix ---------------------------------------------------------------------------------

  datatype Cell = Cell(key: Key, rules: CellData, alerts: nat)
  {
    predicate Covered() { rules.count > 0 }
    predicate Detected() { alerts > 0 }
  }

  datatype Row = Row(tactic: string, cells: seq<Cell>)

  datatype Summary = Summary(covered: nat, detected: nat, rules: nat, alerts: nat)
  datatype Matrix = Matrix(rows: seq<Row>, summary: Summary)

  function OfTactic(t: string): Key -> bool { (k: Key) => k.tactic == t }

  function CellFor(rules: Cells, alerts: Cells, k: Key): (x: Cell)
    ensures x.key == k
  {
    Cell(k, At(rules, k), At(alerts, k).count)
  }

  function CellsFor(rules: Cells, alerts: Cells, keys: seq<Key>): seq<Cell> {
    if keys == [] then []
    else CellsFor(rules, alerts, keys[..|keys| - 1]) + [CellFor(rules, alerts, keys[|keys| - 1])]
  }

  function Rows(rules: Cells, alerts: Cells, keys: seq<Key>, tactics: seq<string>): (r: seq<Row>)
    ensures |r| == |tactics|
  {
    if tactics == [] then []
    else
      var t := tactics[|tactics| - 1];
      Rows(rules, alerts, keys, tactics[..|tactics| - 1])
      + [Row(t, CellsFor(rules, alerts, Filter(OfTactic(t), keys)))]
  }

  function AllCells(rows: seq<Row>): seq<Cell> {
    if rows == [] then [] else AllCells(rows[..|rows| - 1]) + rows[|rows| - 1].cells
  }

  function Sum(f: Key -> nat, keys: seq<Key>): nat {
    if keys == [] then 0 else Sum(f, keys[..|keys| - 1]) + f(keys[|keys| - 1])
  }

  function CountIn(cells: Cells): Key -> nat { (k: Key) => At(cells, k).count }

  /** `s` lists the elements of `all`, each once: what `sorted` returns, in its order. */
  ghost predicate Lists<T>(s: seq<T>, all: set<T>) {
    multiset(s) == multiset(all)
  }

  function TacticsOf(keys: set<Key>): set<string> { set k | k in keys :: k.tactic }

  function Members(names: seq<string>): set<string> { set t | t in names }

  /** `known` are the names of the ATT&CK tactics, the keys of a dictionary; `keys` and
      `unknown` list the cell keys and the other tactics. */
  ghost predicate Listing(known: seq<string>, rules: Cells, alerts: Cells, keys: seq<Key>, unknown: seq<string>) {
    && Lists(known, Members(known))
    && Lists(keys, rules.Keys + alerts.Keys)
    && Lists(unknown, TacticsOf(rules.Keys + alerts.Keys) - Members(known))
  }

  function KeysIn(cells: seq<Cell>): seq<Key> {
    if cells == [] then [] else KeysIn(cells[..|cells| - 1]) + [cells[|cells| - 1].key]
  }

  lemma {:induction false} KeysInConcat(a: seq<Cell>, b: seq<Cell>)
    ensures KeysIn(a + b) == KeysIn(a) + KeysIn(b)
  {
    if b == [] {
      assert a + b == a;
    } else {
      assert (a + b)[..|a + b| - 1] == a + b[..|b| - 1];
      KeysInConcat(a, b[..|b| - 1]);
    }
  }

  lemma {:induction false} CellsForFacts(rules: Cells, alerts: Cells, keys: seq<Key>)
    ensures KeysIn(CellsFor(rules, alerts, keys)) == keys
    ensures forall x :: x in CellsFor(rules, alerts, keys) ==> x == CellFor(rules, alerts, x.key)
  {
    hide CellFor, KeysIn;
    if keys != [] {
      var n := |keys| - 1;
      CellsForFacts(rules, alerts, keys[..n]);
      OneKey(rules, alerts, keys[n]);
      KeysInConcat(CellsFor(rules, alerts, keys[..n]), [CellFor(rules, alerts, keys[n])]);
      assert keys == keys[..n] + [keys[n]];
    } else {
      assert KeysIn([]) == [] by { NoKeys(); }
    }
  }

  lemma OneKey(rules: Cells, alerts: Cells, key: Key)
    ensures KeysIn([CellFor(rules, alerts, key)]) == [key]
    ensures CellFor(rules, alerts, key).key == key
  {
    assert [CellFor(rules, alerts, key)][..0] == [];
  }

  lemma NoKeys()
    ensures KeysIn([]) == []
  {
  }

  lemma {:induction false} RowsHoldKeys(rules: Cells, alerts: Cells, keys: seq<Key>, tactics: seq<string>, k: Key)
    requires multiset(tactics)[k.tactic] <= 1
    ensures multiset(KeysIn(AllCells(Rows(rules, alerts, keys, tactics))))[k] ==
      if k.tactic in tactics then multiset(keys)[k] else 0
  {
    if tactics != [] {
      var n := |tactics| - 1;
      assert tactics == tactics[..n] + [tactics[n]];
      RowsHoldKeys(rules, alerts, keys, tactics[..n], k);
      var before := Rows(rules, alerts, keys, tactics[..n]);
      var own := Filter(OfTactic(tactics[n]), keys);
      assert (before + [Row(tactics[n], CellsFor(rules, alerts, own))])[..n] == before;
      KeysInConcat(AllCells(before), CellsFor(rules, alerts, own));
      CellsForFacts(rules, alerts, own);
      FilterMultiset(OfTactic(tactics[n]), keys, k);
      hide CellsFor, Filter, KeysIn;
      if k.tactic == tactics[n] { assert k.tactic !in multiset(tactics[..n]); }
    }
  }

  lemma {:induction false} RowCells(rules: Cells, alerts: Cells, keys: seq<Key>, tactics: seq<string>, x: Cell)
    requires x in AllCells(Rows(rules, alerts, keys, tactics))
    ensures x == CellFor(rules, alerts, x.key)
  {
    var n := |tactics| - 1;
    var before := Rows(rules, alerts, keys, tactics[..n]);
    var own := Filter(OfTactic(tactics[n]), keys);
    assert (before + [Row(tactics[n], CellsFor(rules, alerts, own))])[..n] == before;
    if x in AllCells(before) {
      RowCells(rules, alerts, keys, tactics[..n], x);
    } else {
      CellsForFacts(rules, alerts, own);
    }
  }

  lemma ListsOnce<T>(s: seq<T>, all: set<T>, x: T)
    requires Lists(s, all)
    ensures multiset(s)[x] == (if x in all then 1 else 0) && (x in s <==> x in all)
  {
    assert x in multiset(s) <==> x in multiset(all);
  }

  lemma RowNamesCover(known: seq<string>, all: set<Key>, unknown: seq<string>, k: Key)
    requires Lists(known, Members(known)) && Lists(unknown, TacticsOf(all) - Members(known))
    ensures multiset(known + unknown)[k.tactic] <= 1
    ensures k in all ==> k.tactic in known + unknown
  {
    hide TacticsOf, Lists;
    ListsOnce(known, Members(known), k.tactic);
    ListsOnce(unknown, TacticsOf(all) - Members(known), k.tactic);
    if k in all { TacticIn(all, k); }
  }

  lemma TacticIn(all: set<Key>, k: Key)
    requires k in all
    ensures k.tactic in TacticsOf(all)
  {
  }

  /** The known tactics first, each with its keys in sorted order, then the others. */
  function MatrixRows(known: seq<string>, rules: Cells, alerts: Cells, keys: seq<Key>, unknown: seq<string>): seq<Row> {
    Rows(rules, alerts, keys, known + unknown)
  }

  lemma CellsHoldKey(known: seq<string>, rules: Cells, alerts: Cells, keys: seq<Key>, unknown: seq<string>, k: Key)
    requires Listing(known, rules, alerts, keys, unknown)
    ensures multiset(KeysIn(AllCells(MatrixRows(known, rules, alerts, keys, unknown))))[k]
         == multiset(rules.Keys + alerts.Keys)[k]
  {
    hide Rows, AllCells, KeysIn, Lists, Members, TacticsOf;
    RowNamesCover(known, rules.Keys + alerts.Keys, unknown, k);
    RowsHoldKeys(rules, alerts, keys, known + unknown, k);
    ListsOnce(keys, rules.Keys + alerts.Keys, k);
  }

  /** Every key of either input is in exactly one cell, no other key is, and every cell
      shows what the inputs hold for its key. */
  lemma EveryKeyInOneCell(known: seq<string>, rules: Cells, alerts: Cells, keys: seq<Key>, unknown: seq<string>)
    requires Listing(known, rules, alerts, keys, unknown)
    ensures var cells := AllCells(MatrixRows(known, rules, alerts, keys, unknown));
            && multiset(KeysIn(cells)) == multiset(rules.Keys + alerts.Keys)
            && forall x :: x in cells ==>
                 && x == CellFor(rules, alerts, x.key)
                 && x.rules == At(rules, x.key) && x.alerts == At(alerts, x.key).count
  {
    hide Rows, AllCells, KeysIn, Listing;
    var cells := AllCells(MatrixRows(known, rules, alerts, keys, unknown));
    forall k: Key
      ensures multiset(KeysIn(cells))[k] == multiset(rules.Keys + alerts.Keys)[k]
    {
      CellsHoldKey(known, rules, alerts, keys, unknown, k);
    }
    forall x | x in cells
      ensures x == CellFor(rules, alerts, x.key)
    {
      RowCells(rules, alerts, keys, known + unknown, x);
    }
  }

  // ---- the totals -----------------------------------------------------------------------------------

  lemma {:induction false} SumConcat(f: Key -> nat, a: seq<Key>, b: seq<Key>)
    ensures Sum(f, a + b) == Sum(f, a) + Sum(f, b)
  {
    if b == [] {
      assert a + b == a;
    } else {
      assert (a + b)[..|a + b| - 1] == a + b[..|b| - 1];
      SumConcat(f, a, b[..|b| - 1]);
    }
  }

  lemma TakeOut(f: Key -> nat, b: seq<Key>, i: nat)
    requires i < |b|
    ensures var rest := b[..i] + b[i + 1..];
            multiset(b) == multiset(rest) + multiset{b[i]} && Sum(f, b) == Sum(f, rest) + f(b[i])
  {
    assert b == b[..i] + [b[i]] + b[i + 1..];
    SumConcat(f, b[..i] + [b[i]], b[i + 1..]);
    SumConcat(f, b[..i], [b[i]]);
    SumConcat(f, b[..i], b[i + 1..]);
    assert [b[i]][..0] == [];
  }

  lemma Cancel(a: multiset<Key>, b: multiset<Key>, x: Key)
    requires a + multiset{x} == b + multiset{x}
    ensures a == b
  {
    forall y: Key
      ensures a[y] == b[y]
    {
      assert (a + multiset{x})[y] == (b + multiset{x})[y];
    }
  }

  lemma {:induction false} SumPermuted(f: Key -> nat, a: seq<Key>, b: seq<Key>)
    requires multiset(a) == multiset(b)
    ensures Sum(f, a) == Sum(f, b)
  {
    if a == [] {
      assert |multiset(b)| == 0;
    } else {
      var n := |a| - 1;
      var x := a[n];
      assert a == a[..n] + [x];
      assert multiset(a) == multiset(a[..n]) + multiset{x};
      assert x in multiset(b);
      var i :| 0 <= i < |b| && b[i] == x;
      TakeOut(f, b, i);
      var rest := b[..i] + b[i + 1..];
      Cancel(multiset(a[..n]), multiset(rest), x);
      SumPermuted(f, a[..n], rest);
    }
  }

  function Inside(cells: Cells): Key -> bool { (k: Key) => k in cells }

  lemma {:induction false} SumInside(cells: Cells, keys: seq<Key>)
    ensures Sum(CountIn(cells), keys) == Sum(CountIn(cells), Filter(Inside(cells), keys))
  {
    if keys != [] {
      var n := |keys| - 1;
      SumInside(cells, keys[..n]);
      var before := Filter(Inside(cells), keys[..n]);
      assert (before + [keys[n]])[..|before|] == before;
    }
  }

  /** The sum over a listing of one input's own keys is the sum over all cells. */
  lemma SumOverCells(cells: Cells, own: seq<Key>, keys: seq<Key>, all: set<Key>)
    requires Lists(own, cells.Keys) && multiset(keys) == multiset(all) && cells.Keys <= all
    ensures Sum(CountIn(cells), own) == Sum(CountIn(cells), keys)
  {
    hide Sum, Filter;
    SumInside(cells, keys);
    var inside := Filter(Inside(cells), keys);
    forall k: Key
      ensures multiset(inside)[k] == multiset(own)[k]
    {
      FilterMultiset(Inside(cells), keys, k);
    }
    SumPermuted(CountIn(cells), own, inside);
  }

  predicate CoveredCell(x: Cell) { x.Covered() }
  predicate DetectedCell(x: Cell) { x.Detected() }

  function HowMany(p: Cell -> bool, cells: seq<Cell>): nat {
    if cells == [] then 0
    else HowMany(p, cells[..|cells| - 1]) + if p(cells[|cells| - 1]) then 1 else 0
  }

  /** `ruleKeys` and `alertKeys` list the two inputs' own keys. */
  function SummaryOf(rules: Cells, alerts: Cells, rows: seq<Row>, ruleKeys: seq<Key>, alertKeys: seq<Key>): Summary {
    Summary(HowMany(CoveredCell, AllCells(rows)), HowMany(DetectedCell, AllCells(rows)),
            Sum(CountIn(rules), ruleKeys), Sum(CountIn(alerts), alertKeys))
  }

  function RuleCount(x: Cell): nat { x.rules.count }
  function AlertCount(x: Cell): nat { x.alerts }

  function SumCells(f: Cell -> nat, cells: seq<Cell>): nat {
    if cells == [] then 0 else SumCells(f, cells[..|cells| - 1]) + f(cells[|cells| - 1])
  }

  lemma {:induction false} CellSums(rules: Cells, alerts: Cells, cells: seq<Cell>)
    requires forall x :: x in cells ==> x == CellFor(rules, alerts, x.key)
    ensures SumCells(RuleCount, cells) == Sum(CountIn(rules), KeysIn(cells))
    ensures SumCells(AlertCount, cells) == Sum(CountIn(alerts), KeysIn(cells))
  {
    if cells != [] {
      var n := |cells| - 1;
      assert cells[n] in cells;
      CellSums(rules, alerts, cells[..n]);
      var before := KeysIn(cells[..n]);
      assert (before + [cells[n].key])[..|before|] == before;
    }
  }

  /** The totals of the summary are the sums over the cells of the matrix. */
  lemma TotalsAreCellSums(known: seq<string>, rules: Cells, alerts: Cells, keys: seq<Key>, unknown: seq<string>,
                          ruleKeys: seq<Key>, alertKeys: seq<Key>)
    requires Listing(known, rules, alerts, keys, unknown)
    requires Lists(ruleKeys, rules.Keys) && Lists(alertKeys, alerts.Keys)
    ensures var rows := MatrixRows(known, rules, alerts, keys, unknown);
            var sums := SummaryOf(rules, alerts, rows, ruleKeys, alertKeys);
            && sums.rules == SumCells(RuleCount, AllCells(rows))
            && sums.alerts == SumCells(AlertCount, AllCells(rows))
  {
    var cells := AllCells(MatrixRows(known, rules, alerts, keys, unknown));
    EveryKeyInOneCell(known, rules, alerts, keys, unknown);
    hide MatrixRows, AllCells, KeysIn, Lists, Sum, SumCells, HowMany, Listing;
    CellSums(rules, alerts, cells);
    SumOverCells(rules, ruleKeys, KeysIn(cells), rules.Keys + alerts.Keys);
    SumOverCells(alerts, alertKeys, KeysIn(cells), rules.Keys + alerts.Keys);
  }

  // ---- what the totals and the cells count ---------------------------------------------------------------

  lemma {:induction false} HowManyAre(rules: Cells, alerts: Cells, cells: seq<Cell>)
    requires forall x :: x in cells ==> x.rules == At(rules, x.key) && x.alerts == At(alerts, x.key).count
    requires forall k :: multiset(KeysIn(cells))[k] <= 1
    ensures HowMany(CoveredCell, cells) == |set k | k in KeysIn(cells) && At(rules, k).count > 0|
    ensures HowMany(DetectedCell, cells) == |set k | k in KeysIn(cells) && At(alerts, k).count > 0|
  {
    if cells != [] {
      var n := |cells| - 1;
      var x, before := cells[n], KeysIn(cells[..n]);
      assert x in cells;
      assert KeysIn(cells) == before + [x.key];
      assert x.key !in before by { assert multiset(before + [x.key])[x.key] == multiset(before)[x.key] + 1; }
      forall k
        ensures multiset(before)[k] <= 1
      {
        assert multiset(before + [x.key])[k] >= multiset(before)[k];
      }
      HowManyAre(rules, alerts, cells[..n]);
      hide KeysIn;
      OneMoreKey(rules, before, x.key);
      OneMoreKey(alerts, before, x.key);
    }
  }

  lemma OneMoreKey(data: Cells, before: seq<Key>, key: Key)
    requires key !in before
    ensures |set k | k in before + [key] && At(data, k).count > 0|
         == |set k | k in before && At(data, k).count > 0| + if At(data, key).count > 0 then 1 else 0
  {
    var earlier := set k | k in before && At(data, k).count > 0;
    var now := set k | k in before + [key] && At(data, k).count > 0;
    assert now == if At(data, key).count > 0 then earlier + {key} else earlier;
  }

  /** The summary counts the techniques with a rule, and those with an alert. */
  lemma TotalsAreTechniques(known: seq<string>, rules: Cells, alerts: Cells, keys: seq<Key>, unknown: seq<string>)
    requires Listing(known, rules, alerts, keys, unknown)
    ensures var cells := AllCells(MatrixRows(known, rules, alerts, keys, unknown));
            && HowMany(CoveredCell, cells) == |set k | k in rules && rules[k].count > 0|
            && HowMany(DetectedCell, cells) == |set k | k in alerts && alerts[k].count > 0|
  {
    var cells := AllCells(MatrixRows(known, rules, alerts, keys, unknown));
    EveryKeyInOneCell(known, rules, alerts, keys, unknown);
    hide MatrixRows, AllCells, KeysIn, Lists, HowMany, Listing, At, CellFor;
    OnceEach(KeysIn(cells), rules.Keys + alerts.Keys);
    HowManyAre(rules, alerts, cells);
    Counted(rules, KeysIn(cells));
    Counted(alerts, KeysIn(cells));
  }

  lemma OnceEach(keys: seq<Key>, all: set<Key>)
    requires multiset(keys) == multiset(all)
    ensures forall k :: multiset(keys)[k] <= 1
    ensures forall k :: k in keys <==> k in all
  {
    forall k
      ensures multiset(keys)[k] <= 1 && (k in keys <==> k in all)
    {
      assert multiset(keys)[k] == multiset(all)[k];
      assert k in keys <==> k in multiset(keys);
    }
  }

  lemma Counted(data: Cells, keys: seq<Key>)
    requires forall k :: k in data ==> k in keys
    ensures |set k | k in keys && At(data, k).count > 0| == |set k | k in data && data[k].count > 0|
  {
    assert (set k | k in keys && At(data, k).count > 0) == set k | k in data && data[k].count > 0;
  }

  lemma {:induction false} ListedAre(tactics: seq<string>, t: string)
    ensures Listed(tactics, t) == |set i | 0 <= i < |tactics| && tactics[i] == t|
  {
    if tactics != [] {
      var n := |tactics| - 1;
      ListedAre(tactics[..n], t);
      var before := set i | 0 <= i < n && tactics[..n][i] == t;
      var now := set i | 0 <= i < |tactics| && tactics[i] == t;
      assert now == if tactics[n] == t then before + {n} else before;
    }
  }

  /** One thing hits a cell once for each time it lists the tactic, if some non-empty tag of
      it has the technique as its parent; an empty tactic is never hit. */
  lemma HitsAre(parent: Parent, x: Tagged, k: Key)
    ensures Hits(parent, x, k) ==
      if k.tactic != "" && exists t :: t in x.techniques && t != "" && parent(t) == k.technique
      then |set i | 0 <= i < |x.tactics| && x.tactics[i] == k.tactic| else 0
  {
    ListedAre(x.tactics, k.tactic);
    hide Listed;
    if t :| t in x.techniques && t != "" && parent(t) == k.technique {
      var i :| 0 <= i < |x.techniques| && x.techniques[i] == t;
      assert Tags(parent, x, k.technique);
    }
  }

  lemma {:induction false} AddTimesNames(d: CellData, name: string, n: nat, x: string)
    ensures x in AddTimes(d, name, n).names <==> x in d.names || (n > 0 && name != "" && x == name)
  {
    if n > 0 { AddTimesNames(d, name, n - 1, x); }
  }

  /** The names of a cell are those of the things that hit it. */
  lemma {:induction false} NamesAreHitters(parent: Parent, xs: seq<Tagged>, k: Key, name: string)
    ensures name in At(Collect(parent, xs), k).names <==>
            name != "" && exists x :: x in xs && x.name == name && Hits(parent, x, k) > 0
  {
    hide Hits, AddTimes, AddOne;
    if xs != [] {
      var n := |xs| - 1;
      NamesAreHitters(parent, xs[..n], k, name);
      AddOneAt(parent, Collect(parent, xs[..n]), xs[n], k);
      AddTimesNames(At(Collect(parent, xs[..n]), k), xs[n].name, Hits(parent, xs[n], k), name);
      assert xs == xs[..n] + [xs[n]];
    }
  }

  // ---- the aggregation loops ------------------------------------------------------------------------------

  /** Hits after the first `i` tactics, and of the next one the first `j` parents. */
  function PartialHits(parent: Parent, x: Tagged, i: nat, parents: seq<string>, k: Key): nat
    requires i < |x.tactics|
  {
    Hits(parent, x.(tactics := x.tactics[..i]), k)
    + if x.tactics[i] != "" && k.tactic == x.tactics[i] && k.technique in parents then 1 else 0
  }

  ghost predicate Holds(cells: Cells, name: string, hits: Key -> nat, r: Cells) {
    forall k :: At(r, k) == AddTimes(At(cells, k), name, hits(k)) && (k in r <==> k in cells || hits(k) > 0)
  }

  function HitsOf(parent: Parent, x: Tagged, i: nat): Key -> nat
    requires i <= |x.tactics|
  {
    k => Hits(parent, x.(tactics := x.tactics[..i]), k)
  }

  function PartialOf(parent: Parent, x: Tagged, i: nat, parents: seq<string>): Key -> nat
    requires i < |x.tactics|
  {
    k => PartialHits(parent, x, i, parents, k)
  }

  lemma HoldsSame(cells: Cells, name: string, f: Key -> nat, g: Key -> nat, r: Cells)
    requires Holds(cells, name, f, r) && forall k :: f(k) == g(k)
    ensures Holds(cells, name, g, r)
  {
    hide AddTimes, At;
    forall k
      ensures At(r, k) == AddTimes(At(cells, k), name, g(k)) && (k in r <==> k in cells || g(k) > 0)
    {
      assert f(k) == g(k);
    }
  }

  lemma HoldsOneMore(cells: Cells, name: string, f: Key -> nat, g: Key -> nat, r: Cells, key: Key)
    requires Holds(cells, name, f, r) && forall k :: g(k) == f(k) + if k == key then 1 else 0
    ensures Holds(cells, name, g, r[key := At(r, key).Add(name)])
  {
    hide CellData.Add;
    var t := r[key := At(r, key).Add(name)];
    forall k
      ensures At(t, k) == AddTimes(At(cells, k), name, g(k)) && (k in t <==> k in cells || g(k) > 0)
    {
      assert At(r, k) == AddTimes(At(cells, k), name, f(k));
      assert g(k) == f(k) + if k == key then 1 else 0;
    }
  }

  lemma HoldsAll(parent: Parent, cells: Cells, x: Tagged, r: Cells)
    requires Holds(cells, x.name, HitsOf(parent, x, |x.tactics|), r)
    ensures r == AddOne(parent, cells, x)
  {
    hide AddTimes, Hits;
    assert x.(tactics := x.tactics[..|x.tactics|]) == x;
    var all := AddOne(parent, cells, x);
    forall k
      ensures At(r, k) == At(all, k) && (k in r <==> k in all)
    {
      AddOneAt(parent, cells, x, k);
      HitIsKey(parent, x, k);
      assert HitsOf(parent, x, |x.tactics|)(k) == Hits(parent, x, k);
    }
    hide KeysOf;
    assert r.Keys == all.Keys;
    SameCells(r, all);
  }

  lemma NextTactic(parent: Parent, x: Tagged, i: nat, k: Key)
    requires i < |x.tactics|
    ensures Hits(parent, x.(tactics := x.tactics[..i + 1]), k)
         == if x.tactics[i] == "" then Hits(parent, x.(tactics := x.tactics[..i]), k)
            else PartialHits(parent, x, i, Parents(parent, x.techniques), k)
  {
    assert x.tactics[..i + 1][..i] == x.tactics[..i];
    ParentsAreTags(parent, x.techniques, k.technique);
    hide Parents;
  }

  lemma ParentOnce(parent: Parent, techniques: seq<string>, j: nat)
    requires j < |Parents(parent, techniques)|
    ensures Parents(parent, techniques)[j] !in Parents(parent, techniques)[..j]
  {
    var ps := Parents(parent, techniques);
    ParentsAreTags(parent, techniques, ps[j]);
    hide Parents;
    assert ps == ps[..j] + [ps[j]] + ps[j + 1..];
    assert multiset(ps)[ps[j]] == multiset(ps[..j])[ps[j]] + 1 + multiset(ps[j + 1..])[ps[j]];
  }

  /** `_collect_tag_pairs`: one cell at a time, over the listed tactics and the parents. */
  method CollectTagPairs(parent: Parent, x: Tagged, cells: Cells) returns (r: Cells)
    ensures r == AddOne(parent, cells, x)
  {
    hide Holds, Hits, Parents, AddTimes, PartialHits;
    var parents := Parents(parent, x.techniques);
    r := cells;
    StartHolds(parent, cells, x);
    for i := 0 to |x.tactics|
      invariant Holds(cells, x.name, HitsOf(parent, x, i), r)
    {
      if x.tactics[i] != "" {
        r := CollectTactic(parent, x, cells, r, i, parents);
      }
      TacticDone(parent, cells, x, i, r);
    }
    HoldsAll(parent, cells, x, r);
  }

  lemma TacticDone(parent: Parent, cells: Cells, x: Tagged, i: nat, r: Cells)
    requires i < |x.tactics|
    requires x.tactics[i] == "" ==> Holds(cells, x.name, HitsOf(parent, x, i), r)
    requires x.tactics[i] != "" ==> Holds(cells, x.name, PartialOf(parent, x, i, Parents(parent, x.techniques)), r)
    ensures Holds(cells, x.name, HitsOf(parent, x, i + 1), r)
  {
    hide Holds, Hits, PartialHits, Parents;
    forall k
      ensures HitsOf(parent, x, i + 1)(k) ==
        if x.tactics[i] == "" then HitsOf(parent, x, i)(k)
        else PartialOf(parent, x, i, Parents(parent, x.techniques))(k)
    {
      NextTactic(parent, x, i, k);
    }
    if x.tactics[i] == "" {
      HoldsSame(cells, x.name, HitsOf(parent, x, i), HitsOf(parent, x, i + 1), r);
    } else {
      HoldsSame(cells, x.name, PartialOf(parent, x, i, Parents(parent, x.techniques)), HitsOf(parent, x, i + 1), r);
    }
  }

  lemma StartHolds(parent: Parent, cells: Cells, x: Tagged)
    ensures Holds(cells, x.name, HitsOf(parent, x, 0), cells)
  {
    assert x.tactics[..0] == [];
  }

  method CollectTactic(parent: Parent, x: Tagged, ghost cells: Cells, start: Cells, i: nat, parents: seq<string>)
      returns (r: Cells)
    requires i < |x.tactics| && x.tactics[i] != "" && parents == Parents(parent, x.techniques)
    requires Holds(cells, x.name, HitsOf(parent, x, i), start)
    ensures Holds(cells, x.name, PartialOf(parent, x, i, parents), r)
  {
    hide Holds, Hits, Parents;
    r := start;
    HoldsSame(cells, x.name, HitsOf(parent, x, i), PartialOf(parent, x, i, []), r);
    assert parents[..0] == [];
    for j := 0 to |parents|
      invariant Holds(cells, x.name, PartialOf(parent, x, i, parents[..j]), r)
    {
      var key := Key(x.tactics[i], parents[j]);
      ParentOnce(parent, x.techniques, j);
      assert parents[..j + 1] == parents[..j] + [parents[j]];
      HoldsOneMore(cells, x.name, PartialOf(parent, x, i, parents[..j]), PartialOf(parent, x, i, parents[..j + 1]),
                   r, key);
      r := r[key := At(r, key).Add(x.name)];
    }
    assert parents[..|parents|] == parents;
  }

  /** The loop of the three `collect_*_cells` functions. */
  method CollectCells(parent: Parent, xs: seq<Tagged>) returns (cells: Cells)
    ensures cells == Collect(parent, xs)
  {
    hide AddOne;
    cells := map[];
    for i := 0 to |xs|
      invariant cells == Collect(parent, xs[..i])
    {
      assert xs[..i + 1][..i] == xs[..i];
      cells := CollectTagPairs(parent, xs[i], cells);
    }
    assert xs[..|xs|] == xs;
  }

  method MergeRuleData(sources: seq<Cells>) returns (merged: Cells)
    ensures merged == MergeAll(sources)
  {
    merged := map[];
    for i := 0 to |sources|
      invariant merged == MergeAll(sources[..i])
    {
      assert sources[..i + 1][..i] == sources[..i];
      hide CellData.Plus;
      var todo, start := sources[i].Keys, merged;
      NothingMergedYet(start, sources[i]);
      while todo != {}
        invariant todo <= sources[i].Keys
        invariant merged == Merge(start, sources[i] - todo)
      {
        var key :| key in todo;
        MergeOneMore(start, sources[i], todo, key);
        merged := merged[key := At(merged, key).Plus(sources[i][key])];
        todo := todo - {key};
      }
      assert sources[i] - todo == sources[i];
    }
    assert sources[..|sources|] == sources;
  }

  lemma NothingMergedYet(start: Cells, source: Cells)
    ensures Merge(start, source - source.Keys) == start
  {
    assert source - source.Keys == map[];
    MergeNothing(start);
  }

  lemma MergeOneMore(start: Cells, source: Cells, todo: set<Key>, key: Key)
    requires key in todo && todo <= source.Keys
    ensures var merged := Merge(start, source - todo);
            merged[key := At(merged, key).Plus(source[key])] == Merge(start, source - (todo - {key}))
  {
    var merged := Merge(start, source - todo);
    PlusNothing(At(start, key));
    hide CellData.Plus;
    var l, r := merged[key := At(merged, key).Plus(source[key])], Merge(start, source - (todo - {key}));
    assert l.Keys == r.Keys;
    forall k | k in l
      ensures l[k] == r[k]
    {
    }
  }

  /** The grouping loop of `build_matrix`. */
  method GroupByTactic(keys: seq<Key>) returns (groups: map<string, seq<Key>>)
    ensures forall t :: t in groups <==> Filter(OfTactic(t), keys) != []
    ensures forall t :: t in groups ==> groups[t] == Filter(OfTactic(t), keys)
  {
    groups := map[];
    for i := 0 to |keys|
      invariant forall t :: t in groups <==> Filter(OfTactic(t), keys[..i]) != []
      invariant forall t :: t in groups ==> groups[t] == Filter(OfTactic(t), keys[..i])
    {
      assert keys[..i + 1][..i] == keys[..i];
      var t := keys[i].tactic;
      groups := groups[t := (if t in groups then groups[t] else []) + [keys[i]]];
    }
    assert keys[..|keys|] == keys;
  }

  // ---- the order of cells and tactics ---------------------------------------------------------------------

  /** Strings by their characters, as Python compares them. */
  predicate StrLeq(a: string, b: string) {
    a == [] || (b != [] && (a[0] < b[0] || (a[0] == b[0] && StrLeq(a[1..], b[1..]))))
  }

  /** Pairs by their first component, then by their second. */
  predicate KeyLeq(a: Key, b: Key) {
    if a.tactic == b.tactic then StrLeq(a.technique, b.technique) else StrLeq(a.tactic, b.tactic)
  }

  ghost predicate IsOrder<T(!new)>(leq: (T, T) -> bool) {
    && (forall a, b :: leq(a, b) || leq(b, a))
    && (forall a, b, d :: leq(a, b) && leq(b, d) ==> leq(a, d))
  }

  ghost predicate Ascending<T>(leq: (T, T) -> bool, s: seq<T>) {
    forall i, j :: 0 <= i < j < |s| ==> leq(s[i], s[j])
  }

  lemma {:induction false} StrTotal(a: string, b: string)
    ensures StrLeq(a, b) || StrLeq(b, a)
    ensures StrLeq(a, b) && StrLeq(b, a) ==> a == b
  {
    if a != [] && b != [] {
      StrTotal(a[1..], b[1..]);
      assert a == [a[0]] + a[1..] && b == [b[0]] + b[1..];
    }
  }

  lemma {:induction false} StrTransitive(a: string, b: string, d: string)
    requires StrLeq(a, b) && StrLeq(b, d)
    ensures StrLeq(a, d)
  {
    if a != [] && a[0] == b[0] == d[0] { StrTransitive(a[1..], b[1..], d[1..]); }
  }

  lemma StrIsOrder()
    ensures IsOrder(StrLeq)
  {
    hide StrLeq;
    forall a, b
      ensures StrLeq(a, b) || StrLeq(b, a)
    {
      StrTotal(a, b);
    }
    forall a, b, d | StrLeq(a, b) && StrLeq(b, d)
      ensures StrLeq(a, d)
    {
      StrTransitive(a, b, d);
    }
  }

  lemma KeyTransitive(a: Key, b: Key, d: Key)
    requires KeyLeq(a, b) && KeyLeq(b, d)
    ensures KeyLeq(a, d)
  {
    hide StrLeq;
    if a.tactic == b.tactic == d.tactic {
      StrTransitive(a.technique, b.technique, d.technique);
    } else {
      if a.tactic != b.tactic && b.tactic != d.tactic { StrTransitive(a.tactic, b.tactic, d.tactic); }
      StrTotal(a.tactic, b.tactic);
    }
  }

  lemma KeyIsOrder()
    ensures IsOrder(KeyLeq)
  {
    forall a: Key, b: Key
      ensures KeyLeq(a, b) || KeyLeq(b, a)
    {
      StrTotal(a.tactic, b.tactic);
      StrTotal(a.technique, b.technique);
    }
    hide KeyLeq;
    forall a: Key, b: Key, d: Key | KeyLeq(a, b) && KeyLeq(b, d)
      ensures KeyLeq(a, d)
    {
      KeyTransitive(a, b, d);
    }
  }

  function Insert<T>(leq: (T, T) -> bool, s: seq<T>, x: T): (r: seq<T>)
    ensures multiset(r) == multiset(s) + multiset{x}
  {
    if s == [] || leq(s[|s| - 1], x) then s + [x]
    else
      assert s == s[..|s| - 1] + [s[|s| - 1]];
      Insert(leq, s[..|s| - 1], x) + [s[|s| - 1]]
  }

  /** `sorted`. */
  function InOrder<T>(leq: (T, T) -> bool, s: seq<T>): (r: seq<T>)
    ensures multiset(r) == multiset(s)
  {
    if s == [] then []
    else
      assert s == s[..|s| - 1] + [s[|s| - 1]];
      Insert(leq, InOrder(leq, s[..|s| - 1]), s[|s| - 1])
  }

  lemma {:induction false} InsertAscends<T(!new)>(leq: (T, T) -> bool, s: seq<T>, x: T)
    requires IsOrder(leq) && Ascending(leq, s)
    ensures Ascending(leq, Insert(leq, s, x))
  {
    if s != [] && !leq(s[|s| - 1], x) {
      var n := |s| - 1;
      InsertAscends(leq, s[..n], x);
      InsertBelow(leq, s, x);
      hide IsOrder;
      var r := Insert(leq, s[..n], x);
      assert Insert(leq, s, x) == r + [s[n]];
    } else if s != [] {
      AppendAscends(leq, s, x);
    }
  }

  lemma InsertBelow<T(!new)>(leq: (T, T) -> bool, s: seq<T>, x: T)
    requires IsOrder(leq) && Ascending(leq, s) && s != [] && !leq(s[|s| - 1], x)
    ensures var r := Insert(leq, s[..|s| - 1], x); forall i :: 0 <= i < |r| ==> leq(r[i], s[|s| - 1])
  {
    var n := |s| - 1;
    var r := Insert(leq, s[..n], x);
    assert leq(x, s[n]);
    hide IsOrder;
    MultisetMember(r, s[..n] + [x]);
    forall i | 0 <= i < |r|
      ensures leq(r[i], s[n])
    {
      assert r[i] in s[..n] + [x];
    }
  }

  lemma AppendAscends<T(!new)>(leq: (T, T) -> bool, s: seq<T>, x: T)
    requires IsOrder(leq) && Ascending(leq, s) && s != [] && leq(s[|s| - 1], x)
    ensures Ascending(leq, s + [x])
  {
    var n := |s| - 1;
    forall i | 0 <= i < |s|
      ensures leq(s[i], x)
    {
      if i < n { assert leq(s[i], s[n]) && leq(s[n], x); }
    }
    hide IsOrder;
  }

  lemma {:induction false} InOrderAscends<T(!new)>(leq: (T, T) -> bool, s: seq<T>)
    requires IsOrder(leq)
    ensures Ascending(leq, InOrder(leq, s))
  {
    hide IsOrder, Ascending, Insert;
    if s == [] {
      NoneAscends(leq);
    } else {
      InOrderAscends(leq, s[..|s| - 1]);
      InsertAscends(leq, InOrder(leq, s[..|s| - 1]), s[|s| - 1]);
    }
  }

  lemma NoneAscends<T>(leq: (T, T) -> bool)
    ensures Ascending(leq, [])
  {
  }

  /** Listed in the order of `sorted`. */
  ghost predicate Sorted(known: seq<string>, rules: Cells, alerts: Cells, keys: seq<Key>, unknown: seq<string>) {
    Listing(known, rules, alerts, keys, unknown) && Ascending(KeyLeq, keys) && Ascending(StrLeq, unknown)
  }

  lemma {:induction false} FilterAscends(p: Key -> bool, keys: seq<Key>)
    requires Ascending(KeyLeq, keys)
    ensures Ascending(KeyLeq, Filter(p, keys))
  {
    if keys != [] {
      var n := |keys| - 1;
      FilterAscends(p, keys[..n]);
      var before := Filter(p, keys[..n]);
      FilterMembers(p, keys[..n]);
      forall i | 0 <= i < |before|
        ensures KeyLeq(before[i], keys[n])
      {
        assert before[i] in keys[..n];
      }
    }
  }

  lemma {:induction false} RowAt(rules: Cells, alerts: Cells, keys: seq<Key>, tactics: seq<string>, i: nat)
    requires i < |tactics|
    ensures Rows(rules, alerts, keys, tactics)[i]
         == Row(tactics[i], CellsFor(rules, alerts, Filter(OfTactic(tactics[i]), keys)))
  {
    hide CellsFor, Filter;
    if i < |tactics| - 1 { RowAt(rules, alerts, keys, tactics[..|tactics| - 1], i); }
  }

  /** All keys are of one tactic, their techniques ascending. */
  ghost predicate OneTactic(keys: seq<Key>, t: string) {
    && (forall i :: 0 <= i < |keys| ==> keys[i].tactic == t)
    && (forall i, j :: 0 <= i < j < |keys| ==> StrLeq(keys[i].technique, keys[j].technique))
  }

  lemma CellsAscend(rules: Cells, alerts: Cells, keys: seq<Key>, t: string)
    requires Ascending(KeyLeq, keys)
    ensures var own := Filter(OfTactic(t), keys);
            KeysIn(CellsFor(rules, alerts, own)) == own && OneTactic(own, t)
  {
    var own := Filter(OfTactic(t), keys);
    CellsForFacts(rules, alerts, own);
    FilterAscends(OfTactic(t), keys);
    FilterMembers(OfTactic(t), keys);
    hide CellsFor, Filter, StrLeq, KeysIn;
    forall i | 0 <= i < |own|
      ensures own[i].tactic == t
    {
      assert own[i] in own;
    }
    forall i, j | 0 <= i < j < |own|
      ensures StrLeq(own[i].technique, own[j].technique)
    {
      assert KeyLeq(own[i], own[j]);
    }
  }

  /** The matrix is in a stable order: the known tactics in theirs, then the others in
      ascending order, and the techniques of every tactic in ascending order. */
  lemma RowsAreInOrder(known: seq<string>, rules: Cells, alerts: Cells, keys: seq<Key>, unknown: seq<string>, i: nat)
    requires Sorted(known, rules, alerts, keys, unknown) && i < |known| + |unknown|
    ensures var row := MatrixRows(known, rules, alerts, keys, unknown)[i];
            && row.tactic == (if i < |known| then known[i] else unknown[i - |known|])
            && OneTactic(KeysIn(row.cells), row.tactic)
    ensures forall j, k :: 0 <= j < k < |unknown| ==> StrLeq(unknown[j], unknown[k])
  {
    hide Rows, CellsFor, Filter, KeysIn, StrLeq, Listing, OneTactic;
    RowAt(rules, alerts, keys, known + unknown, i);
    CellsAscend(rules, alerts, keys, (known + unknown)[i]);
  }

  method Enumerate<T(==)>(all: set<T>) returns (s: seq<T>)
    ensures Lists(s, all)
  {
    var todo := all;
    s := [];
    while todo != {}
      invariant todo <= all && multiset(s) == multiset(all - todo)
    {
      var x :| x in todo;
      assert all - (todo - {x}) == (all - todo) + {x};
      s := s + [x];
      todo := todo - {x};
    }
    assert all - {} == all;
  }

  /** `build_matrix`, with the lists it sorts. */
  method BuildMatrix(known: seq<string>, rules: Cells, alerts: Cells)
      returns (m: Matrix, keys: seq<Key>, unknown: seq<string>)
    requires Lists(known, Members(known))
    ensures Sorted(known, rules, alerts, keys, unknown)
    ensures m.rows == MatrixRows(known, rules, alerts, keys, unknown)
    ensures m.summary.covered == HowMany(CoveredCell, AllCells(m.rows))
    ensures m.summary.detected == HowMany(DetectedCell, AllCells(m.rows))
    ensures m.summary.rules == SumCells(RuleCount, AllCells(m.rows))
    ensures m.summary.alerts == SumCells(AlertCount, AllCells(m.rows))
  {
    hide Lists, Filter, CellsFor, AllCells, SumCells, InOrder, KeyLeq, StrLeq, Ascending, HowMany;
    keys, unknown := SortedLists(known, rules, alerts);
    var byTactic := GroupByTactic(keys);
    var names := known + unknown;
    var rows := [];
    for i := 0 to |names|
      invariant rows == Rows(rules, alerts, keys, names[..i])
    {
      assert names[..i + 1][..i] == names[..i];
      var own := if names[i] in byTactic then byTactic[names[i]] else [];
      rows := rows + [Row(names[i], CellsFor(rules, alerts, own))];
    }
    assert names[..|names|] == names;
    var ruleKeys := Enumerate(rules.Keys);
    var alertKeys := Enumerate(alerts.Keys);
    hide Listing;
    TotalsAreCellSums(known, rules, alerts, keys, unknown, ruleKeys, alertKeys);
    m := Matrix(rows, SummaryOf(rules, alerts, rows, ruleKeys, alertKeys));
  }

  method SortedLists(known: seq<string>, rules: Cells, alerts: Cells) returns (keys: seq<Key>, unknown: seq<string>)
    requires Lists(known, Members(known))
    ensures Sorted(known, rules, alerts, keys, unknown)
  {
    hide KeyLeq, StrLeq, Ascending, IsOrder, InOrder;
    var all := Enumerate(rules.Keys + alerts.Keys);
    keys := InOrder(KeyLeq, all);
    var others := Enumerate(TacticsOf(rules.Keys + alerts.Keys) - Members(known));
    unknown := InOrder(StrLeq, others);
    KeyIsOrder();
    StrIsOrder();
    InOrderAscends(KeyLeq, all);
    InOrderAscends(StrLeq, others);
  }
}
