/**
 * The parts of the pipeline that all variants share: the normalisation loop
 * (project, stable sort, number), the ranking specification and the pass that
 * writes `gainer_rank` / `loser_rank`, and the market-summary building blocks
 * (Python's `max`/`min` with a key, the gainer/loser/neutral partition).
 * Each variant supplies its own projection and sort key.
 */
module Stages {
  import opened Wrappers
  import opened Sorting
  import opened Coins

  // ---------------------------------------------------------------------------
  // Normalisation

  /** Every record projected in order; the first projection that raises aborts the whole list. */
  function ProjectAll(ds: seq<RawData>, project: RawData -> Outcome<Record>): Outcome<seq<Record>> {
    if ds == [] then Ok([])
    else match ProjectAll(ds[..|ds| - 1], project)
      case Raised(e) => Raised(e)
      case Ok(ps) =>
        match project(ds[|ds| - 1])
        case Raised(e) => Raised(e)
        case Ok(p) => Ok(ps + [p])
  }

  /** Projecting a list succeeds exactly when every record projects, and then yields each projection at its position. */
  lemma {:induction false} ProjectAllOk(ds: seq<RawData>, project: RawData -> Outcome<Record>)
    ensures ProjectAll(ds, project).Ok? <==> forall i :: 0 <= i < |ds| ==> project(ds[i]).Ok?
    ensures ProjectAll(ds, project).Ok? ==>
      |ProjectAll(ds, project).value| == |ds| &&
      forall i :: 0 <= i < |ds| ==> project(ds[i]) == Ok(ProjectAll(ds, project).value[i])
  {
    if ds != [] {
      var init := ds[..|ds| - 1];
      ProjectAllOk(init, project);
      assert forall i :: 0 <= i < |init| ==> init[i] == ds[i];
    }
  }

  /** A list that raises raises the error of one of its records. */
  lemma {:induction false} ProjectAllRaised(ds: seq<RawData>, project: RawData -> Outcome<Record>)
    requires ProjectAll(ds, project).Raised?
    ensures exists i :: 0 <= i < |ds| && project(ds[i]) == Raised(ProjectAll(ds, project).error)
  {
    var init := ds[..|ds| - 1];
    if ProjectAll(init, project).Raised? {
      ProjectAllRaised(init, project);
      var i :| 0 <= i < |init| && project(init[i]) == Raised(ProjectAll(init, project).error);
      assert ds[i] == init[i];
    } else {
      assert project(ds[|ds| - 1]) == Raised(ProjectAll(ds, project).error);
    }
  }

  /**
   * The order `process_crypto_data` produces: the projected records rearranged,
   * sorted by the rank key, records with equal key in input order.
   */
  lemma NormalizedOrder(ps: seq<Record>, recordKey: Record -> Key)
    ensures var sorted := SortBy(ps, recordKey);
      && |sorted| == |ps|
      && multiset(sorted) == multiset(ps)
      && Sorted(sorted, recordKey)
      && forall k :: WithKey(sorted, recordKey, k) == WithKey(ps, recordKey, k)
  {
    SortByPermutes(ps, recordKey);
    SortBySorted(ps, recordKey);
    forall k
      ensures WithKey(SortBy(ps, recordKey), recordKey, k) == WithKey(ps, recordKey, k)
    {
      SortByStable(ps, recordKey, k);
    }
  }

  /** Once a prefix has raised, the whole list raises the same error. */
  lemma {:induction false} ProjectAllPrefixRaised(ds: seq<RawData>, n: nat, project: RawData -> Outcome<Record>)
    requires n <= |ds|
    requires ProjectAll(ds[..n], project).Raised?
    ensures ProjectAll(ds, project) == ProjectAll(ds[..n], project)
    decreases |ds| - n
  {
    if n < |ds| {
      var m := n + 1;
      assert ds[..m][..n] == ds[..n];
      ProjectAllPrefixRaised(ds, m, project);
    } else {
      assert ds[..n] == ds;
    }
  }

  /** The append loop of `process_crypto_data`: one fresh dict per record, in input order. */
  method ProjectRows(coins: seq<Coin>, project: RawData -> Outcome<Record>)
    returns (result: Outcome<seq<Row>>)
    ensures result.Raised? <==> ProjectAll(CoinDatas(coins), project).Raised?
    ensures result.Raised? ==> result.error == ProjectAll(CoinDatas(coins), project).error
    ensures result.Ok? ==> RowDatas(result.value) == ProjectAll(CoinDatas(coins), project).value
    ensures result.Ok? ==> Distinct(result.value)
    ensures result.Ok? ==> fresh(set r | r in result.value)
    ensures result.Ok? ==> forall r :: r in result.value ==>
      r.number == None && r.gainerRank == None && r.loserRank == None
  {
    ghost var ds := CoinDatas(coins);
    var created: seq<Row> := [];
    for i := 0 to |coins|
      invariant ProjectAll(ds[..i], project) == Ok(RowDatas(created))
      invariant Distinct(created)
      invariant forall r :: r in created ==> fresh(r)
      invariant forall r :: r in created ==> r.number == None && r.gainerRank == None && r.loserRank == None
    {
      assert ds[..i + 1][..i] == ds[..i];
      match project(coins[i].data)
      case Raised(e) =>
        ProjectAllPrefixRaised(ds, i + 1, project);
        return Raised(e);
      case Ok(p) =>
        var row := new Row(p);
        assert RowDatas(created + [row]) == RowDatas(created) + [p];
        created := created + [row];
    }
    assert ds[..|coins|] == ds;
    assert fresh(set r | r in created);
    result := Ok(created);
  }

  /** The numbering loop of `process_crypto_data`: `coin['number'] = i` for i = 1..n. */
  method NumberRows(rows: seq<Row>)
    requires Distinct(rows)
    modifies rows
    ensures forall i :: 0 <= i < |rows| ==> rows[i].number == Some(i + 1)
    ensures forall r :: r in rows ==> r.gainerRank == old(r.gainerRank) && r.loserRank == old(r.loserRank)
  {
    for i := 0 to |rows|
      invariant forall j :: 0 <= j < i ==> rows[j].number == Some(j + 1)
      invariant forall r :: r in rows ==> r.gainerRank == old(r.gainerRank) && r.loserRank == old(r.loserRank)
    {
      rows[i].number := Some(i + 1);
    }
  }

  /** The key of a dict is the key of the record it holds. */
  function ByRecord(recordKey: Record -> Key): Row -> Key {
    (r: Row) => recordKey(r.data)
  }

  /** Sorting the dicts by the key of their records sorts the records, and keeps the dicts distinct. */
  lemma SortedRows(rows: seq<Row>, recordKey: Record -> Key)
    requires Distinct(rows)
    ensures var sorted := SortBy(rows, ByRecord(recordKey));
      && RowDatas(sorted) == SortBy(RowDatas(rows), recordKey)
      && Distinct(sorted)
      && forall r :: r in sorted ==> r in rows
  {
    var rowKey := ByRecord(recordKey);
    var sorted := SortBy(rows, rowKey);
    SortByMap(rows, RowData, rowKey, recordKey);
    SortByPermutes(rows, rowKey);
    DistinctSubMultiset(rows, sorted);
    forall r | r in sorted
      ensures r in rows
    {
      assert r in multiset(sorted);
    }
  }

  /**
   * `process_crypto_data`: project every record into a fresh dict, sort the list
   * in place (stable) by `recordKey` of each dict, then number the dicts 1..n.
   */
  method Normalize(coins: seq<Coin>, project: RawData -> Outcome<Record>, recordKey: Record -> Key)
    returns (result: Outcome<seq<Row>>)
    ensures result.Raised? <==> ProjectAll(CoinDatas(coins), project).Raised?
    ensures result.Raised? ==> result.error == ProjectAll(CoinDatas(coins), project).error
    ensures result.Ok? ==> RowDatas(result.value) == SortBy(ProjectAll(CoinDatas(coins), project).value, recordKey)
    ensures result.Ok? ==> Distinct(result.value)
    ensures result.Ok? ==> forall i :: 0 <= i < |result.value| ==> result.value[i].number == Some(i + 1)
    ensures result.Ok? ==> forall r :: r in result.value ==> r.gainerRank == None && r.loserRank == None
    ensures result.Ok? ==> fresh(set r | r in result.value)
  {
    ghost var ds := CoinDatas(coins);
    ghost var all := ProjectAll(ds, project);
    var projected := ProjectRows(coins, project);
    if projected.Raised? {
      return Raised(projected.error);
    }
    var created := projected.value;
    var sorted := SortBy(created, ByRecord(recordKey));
    SortedRows(created, recordKey);
    assert (set r | r in sorted) <= (set r | r in created);
    assert RowDatas(sorted) == SortBy(all.value, recordKey);
    NumberRows(sorted);
    assert forall i :: 0 <= i < |coins| ==> coins[i].data == ds[i];
    assert CoinDatas(coins) == ds;
    result := Ok(sorted);
  }

  // ---------------------------------------------------------------------------
  // Ranking

  /** `sorted([c for c in rows if c is a gainer], key=change, reverse=True)[:limit]` */
  function Gainers(rows: seq<Row>, limit: int): seq<Row> {
    SliceTo(SortBy(Filter(rows, IsGainer), GainerKey), limit)
  }

  /** `sorted([c for c in rows if c is a loser], key=change)[:limit]` */
  function Losers(rows: seq<Row>, limit: int): seq<Row> {
    SliceTo(SortBy(Filter(rows, IsLoser), LoserKey), limit)
  }

  /** What a ranked subset is, for any filter and key: a prefix of the stable sort of the filtered rows. */
  lemma Ranked(rows: seq<Row>, p: Row -> bool, key: Row -> Key, limit: int)
    ensures var sorted := SortBy(Filter(rows, p), key);
      var top := SliceTo(sorted, limit);
      && (forall r :: r in top ==> r in rows && p(r))
      && Sorted(sorted, key) && top == sorted[..|top|]
      && |top| == SliceLength(|Filter(rows, p)|, limit)
      && (forall k :: WithKey(sorted, key, k) == WithKey(Filter(rows, p), key, k))
      && (Distinct(rows) ==> Distinct(top))
  {
    var filtered := Filter(rows, p);
    var sorted := SortBy(filtered, key);
    var top := SliceTo(sorted, limit);
    FilterMultiset(rows, p);
    SortByPermutes(filtered, key);
    SortBySorted(filtered, key);
    SliceToLength(sorted, limit);
    PrefixMultiset(sorted, |top|);
    forall r | r in top
      ensures r in rows && p(r)
    {
      assert r in multiset(top);
      assert r in multiset(filtered);
    }
    forall k
      ensures WithKey(sorted, key, k) == WithKey(filtered, key, k)
    {
      SortByStable(filtered, key, k);
    }
    if Distinct(rows) {
      DistinctSubMultiset(rows, filtered);
      DistinctSubMultiset(filtered, top);
    }
  }

  /**
   * `get_top_gainers`: only rows whose change is a positive number, largest change
   * first, and `limit` of them (Python slice semantics).
   */
  lemma GainersSpec(rows: seq<Row>, limit: int)
    ensures var g := Gainers(rows, limit);
      && (forall r :: r in g ==> r in rows && IsGainer(r))
      && (forall i, j :: 0 <= i < j < |g| ==> Change(g[i]) >= Change(g[j]))
      && |g| == SliceLength(|Filter(rows, IsGainer)|, limit)
      && (limit >= 0 ==> |g| == if limit <= |Filter(rows, IsGainer)| then limit else |Filter(rows, IsGainer)|)
      && (Distinct(rows) ==> Distinct(g))
  {
    var sorted := SortBy(Filter(rows, IsGainer), GainerKey);
    var g := Gainers(rows, limit);
    Ranked(rows, IsGainer, GainerKey, limit);
    forall i, j | 0 <= i < j < |g|
      ensures Change(g[i]) >= Change(g[j])
    {
      assert g[i] == sorted[i] && g[j] == sorted[j];
      assert KeyLe(GainerKey(sorted[i]), GainerKey(sorted[j]));
    }
  }

  /** Gainers with equal change appear in the order of `rows`, and every gainer left out changed no more than any kept. */
  lemma GainersStableAndLargest(rows: seq<Row>, limit: int)
    ensures var g := Gainers(rows, limit);
      && (forall k :: WithKey(g, GainerKey, k) <= WithKey(Filter(rows, IsGainer), GainerKey, k))
      && (forall r :: r in Filter(rows, IsGainer) && r !in g ==> forall i :: 0 <= i < |g| ==> Change(r) <= Change(g[i]))
  {
    var filtered := Filter(rows, IsGainer);
    var sorted := SortBy(filtered, GainerKey);
    var g := Gainers(rows, limit);
    Ranked(rows, IsGainer, GainerKey, limit);
    forall k
      ensures WithKey(g, GainerKey, k) <= WithKey(filtered, GainerKey, k)
    {
      WithKeyPrefix(sorted, |g|, GainerKey, k);
    }
    SortByPermutes(filtered, GainerKey);
    forall r, i | r in filtered && r !in g && 0 <= i < |g|
      ensures Change(r) <= Change(g[i])
    {
      assert r in multiset(sorted);
      var j :| 0 <= j < |sorted| && sorted[j] == r;
      assert r !in sorted[..|g|];
      assert j >= |g|;
      assert g[i] == sorted[i];
      assert KeyLe(GainerKey(sorted[i]), GainerKey(sorted[j]));
    }
  }

  /** `get_top_losers`: only rows whose change is a negative number, most negative first, `limit` of them. */
  lemma LosersSpec(rows: seq<Row>, limit: int)
    ensures var l := Losers(rows, limit);
      && (forall r :: r in l ==> r in rows && IsLoser(r))
      && (forall i, j :: 0 <= i < j < |l| ==> Change(l[i]) <= Change(l[j]))
      && |l| == SliceLength(|Filter(rows, IsLoser)|, limit)
      && (limit >= 0 ==> |l| == if limit <= |Filter(rows, IsLoser)| then limit else |Filter(rows, IsLoser)|)
      && (Distinct(rows) ==> Distinct(l))
  {
    var sorted := SortBy(Filter(rows, IsLoser), LoserKey);
    var l := Losers(rows, limit);
    Ranked(rows, IsLoser, LoserKey, limit);
    forall i, j | 0 <= i < j < |l|
      ensures Change(l[i]) <= Change(l[j])
    {
      assert l[i] == sorted[i] && l[j] == sorted[j];
      assert KeyLe(LoserKey(sorted[i]), LoserKey(sorted[j]));
    }
  }

  /** Losers with equal change appear in the order of `rows`, and every loser left out changed no less than any kept. */
  lemma LosersStableAndLargest(rows: seq<Row>, limit: int)
    ensures var l := Losers(rows, limit);
      && (forall k :: WithKey(l, LoserKey, k) <= WithKey(Filter(rows, IsLoser), LoserKey, k))
      && (forall r :: r in Filter(rows, IsLoser) && r !in l ==> forall i :: 0 <= i < |l| ==> Change(l[i]) <= Change(r))
  {
    var filtered := Filter(rows, IsLoser);
    var sorted := SortBy(filtered, LoserKey);
    var l := Losers(rows, limit);
    Ranked(rows, IsLoser, LoserKey, limit);
    forall k
      ensures WithKey(l, LoserKey, k) <= WithKey(filtered, LoserKey, k)
    {
      WithKeyPrefix(sorted, |l|, LoserKey, k);
    }
    SortByPermutes(filtered, LoserKey);
    forall r, i | r in filtered && r !in l && 0 <= i < |l|
      ensures Change(l[i]) <= Change(r)
    {
      assert r in multiset(sorted);
      var j :| 0 <= j < |sorted| && sorted[j] == r;
      assert r !in sorted[..|l|];
      assert j >= |l|;
      assert l[i] == sorted[i];
      assert KeyLe(LoserKey(sorted[i]), LoserKey(sorted[j]));
    }
  }

  lemma {:induction false} WithKeyPrefix<T>(s: seq<T>, n: nat, key: T -> Key, k: Key)
    requires n <= |s|
    ensures WithKey(s[..n], key, k) <= WithKey(s, key, k)
  {
    if n > 0 {
      assert s[..n][1..] == s[1..][..n - 1];
      WithKeyPrefix(s[1..], n - 1, key, k);
    }
  }

  /** A position holds the last occurrence of its element. */
  predicate LastAt<T(==)>(s: seq<T>, i: int) {
    0 <= i < |s| && forall j :: i < j < |s| ==> s[j] != s[i]
  }

  /** A last occurrence in a one-longer prefix is a last occurrence in the shorter one, and differs from the new element. */
  lemma LastAtExtend<T>(s: seq<T>, i: int)
    requires 0 <= i < |s|
    ensures forall j :: 0 <= j < i && LastAt(s[..i + 1], j) ==> LastAt(s[..i], j) && s[j] != s[i]
  {
  }

  /** `for i, coin in enumerate(top, 1): coin['gainer_rank'] = i` on the shared dicts. */
  method MarkGainerRanks(top: seq<Row>)
    modifies top
    ensures forall i :: 0 <= i < |top| && LastAt(top, i) ==> top[i].gainerRank == Some(i + 1)
    ensures forall r :: r in top ==> r.number == old(r.number) && r.loserRank == old(r.loserRank)
  {
    for i := 0 to |top|
      invariant forall j :: 0 <= j < i && LastAt(top[..i], j) ==> top[j].gainerRank == Some(j + 1)
      invariant forall r :: r in top ==> r.number == old(r.number) && r.loserRank == old(r.loserRank)
    {
      top[i].gainerRank := Some(i + 1);
      LastAtExtend(top, i);
    }
    assert top[..|top|] == top;
  }

  /** `for i, coin in enumerate(top, 1): coin['loser_rank'] = i` on the shared dicts. */
  method MarkLoserRanks(top: seq<Row>)
    modifies top
    ensures forall i :: 0 <= i < |top| && LastAt(top, i) ==> top[i].loserRank == Some(i + 1)
    ensures forall r :: r in top ==> r.number == old(r.number) && r.gainerRank == old(r.gainerRank)
  {
    for i := 0 to |top|
      invariant forall j :: 0 <= j < i && LastAt(top[..i], j) ==> top[j].loserRank == Some(j + 1)
      invariant forall r :: r in top ==> r.number == old(r.number) && r.gainerRank == old(r.gainerRank)
    {
      top[i].loserRank := Some(i + 1);
      LastAtExtend(top, i);
    }
    assert top[..|top|] == top;
  }

  /** In a list without repeated dicts every position is the last occurrence, so the ranks run 1..k. */
  lemma DistinctLastAt<T>(s: seq<T>)
    requires Distinct(s)
    ensures forall i :: 0 <= i < |s| ==> LastAt(s, i)
  {
  }

  // ---------------------------------------------------------------------------
  // Summary

  /** The market summary dict. */
  datatype MarketSummary = MarketSummary(
    totalCoins: nat,
    gainersCount: nat,
    losersCount: nat,
    neutralCount: nat,
    gainersPercentage: real,
    losersPercentage: real,
    topGainer: Row,
    topLoser: Row)

  /** Python's `max(xs)`: the first position holding the largest value (later equal values do not replace it). */
  function FirstMax(xs: seq<real>): (i: nat)
    requires |xs| > 0
    ensures i < |xs|
    ensures forall j :: 0 <= j < |xs| ==> xs[j] <= xs[i]
    ensures forall j :: 0 <= j < i ==> xs[j] < xs[i]
  {
    if |xs| == 1 then 0
    else
      var k := FirstMax(xs[..|xs| - 1]);
      if xs[|xs| - 1] > xs[k] then |xs| - 1 else k
  }

  /** Python's `min(xs)`: the first position holding the smallest value. */
  function FirstMin(xs: seq<real>): (i: nat)
    requires |xs| > 0
    ensures i < |xs|
    ensures forall j :: 0 <= j < |xs| ==> xs[i] <= xs[j]
    ensures forall j :: 0 <= j < i ==> xs[i] < xs[j]
  {
    if |xs| == 1 then 0
    else
      var k := FirstMin(xs[..|xs| - 1]);
      if xs[|xs| - 1] < xs[k] then |xs| - 1 else k
  }

  function Changes(rows: seq<Row>): seq<real> {
    Map(rows, Change)
  }

  /** `x` is the first row of `rows` with the largest change. */
  predicate IsTopGainer(rows: seq<Row>, x: Row) {
    exists i :: 0 <= i < |rows| && rows[i] == x
      && (forall j :: 0 <= j < |rows| ==> Change(rows[j]) <= Change(rows[i]))
      && (forall j :: 0 <= j < i ==> Change(rows[j]) < Change(rows[i]))
  }

  /** `x` is the first row of `rows` with the smallest change. */
  predicate IsTopLoser(rows: seq<Row>, x: Row) {
    exists i :: 0 <= i < |rows| && rows[i] == x
      && (forall j :: 0 <= j < |rows| ==> Change(rows[i]) <= Change(rows[j]))
      && (forall j :: 0 <= j < i ==> Change(rows[i]) < Change(rows[j]))
  }

  /** The first maximal row, as `max(rows, key=change)` picks it. */
  function TopGainerOf(rows: seq<Row>): (x: Row)
    requires |rows| > 0
    ensures IsTopGainer(rows, x)
  {
    rows[FirstMax(Changes(rows))]
  }

  /** The first minimal row, as `min(rows, key=change)` picks it. */
  function TopLoserOf(rows: seq<Row>): (x: Row)
    requires |rows| > 0
    ensures IsTopLoser(rows, x)
  {
    rows[FirstMin(Changes(rows))]
  }

  /** With every change a number, each row is exactly one of gainer, loser, neutral. */
  lemma {:induction false} PartitionCounts(rows: seq<Row>)
    requires AllKnown(rows)
    ensures |Filter(rows, IsGainer)| + |Filter(rows, IsLoser)| + |Filter(rows, IsNeutral)| == |rows|
  {
    if rows != [] {
      assert Known(rows[0]);
      assert forall r :: r in rows[1..] ==> r in rows;
      PartitionCounts(rows[1..]);
    }
  }

  /** `count / total * 100` in true division. */
  function Percentage(count: nat, total: nat): real
    requires total > 0
  {
    count as real / total as real * 100.0
  }

  /** A percentage lies between 0 and 100, and those of two disjoint counts add up to at most 100. */
  lemma PercentageBounds(a: nat, b: nat, total: nat)
    requires total > 0 && a + b <= total
    ensures 0.0 <= Percentage(a, total) <= 100.0
    ensures 0.0 <= Percentage(b, total) <= 100.0
    ensures Percentage(a, total) + Percentage(b, total) <= 100.0
  {
    var t := total as real;
    FractionBounds(a as real, t);
    FractionBounds(b as real, t);
    FractionBounds((a + b) as real, t);
    assert a as real / t + b as real / t == (a + b) as real / t;
  }

  lemma FractionBounds(x: real, t: real)
    requires 0.0 <= x <= t && t > 0.0
    ensures 0.0 <= x / t <= 1.0
  {
    assert x / t * t == x;
  }

  /** What `generate_market_summary` promises about a non-empty list whose changes are all numbers. */
  ghost predicate SummaryOf(s: MarketSummary, rows: seq<Row>) {
    && s.totalCoins == |rows| > 0
    && s.gainersCount == |Filter(rows, IsGainer)|
    && s.losersCount == |Filter(rows, IsLoser)|
    && s.neutralCount == |Filter(rows, IsNeutral)|
    && s.gainersCount + s.losersCount + s.neutralCount == s.totalCoins
    && s.gainersPercentage == Percentage(s.gainersCount, s.totalCoins)
    && s.losersPercentage == Percentage(s.losersCount, s.totalCoins)
    && 0.0 <= s.gainersPercentage && 0.0 <= s.losersPercentage
    && s.gainersPercentage + s.losersPercentage <= 100.0
    && IsTopGainer(rows, s.topGainer)
    && IsTopLoser(rows, s.topLoser)
  }

  /** A summary built from the counts, the percentages and the first extreme rows is the summary of the rows. */
  lemma SummaryOfParts(s: MarketSummary, rows: seq<Row>)
    requires AllKnown(rows) && rows != []
    requires s.totalCoins == |rows|
    requires s.gainersCount == |Filter(rows, IsGainer)| && s.losersCount == |Filter(rows, IsLoser)|
    requires s.neutralCount == |Filter(rows, IsNeutral)|
    requires s.gainersPercentage == Percentage(s.gainersCount, s.totalCoins)
    requires s.losersPercentage == Percentage(s.losersCount, s.totalCoins)
    requires s.topGainer == TopGainerOf(rows) && s.topLoser == TopLoserOf(rows)
    ensures SummaryOf(s, rows)
  {
    PartitionCounts(rows);
    PercentageBounds(s.gainersCount, s.losersCount, s.totalCoins);
  }
}
