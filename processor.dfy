/**
 * utils/processor.py: the enhancement and normalisation stages of the modular
 * pipeline. Both test values for truthiness rather than for `None`: a
 * percentage of 0 and a rank of 0 count as missing.
 */
module Processor {
  import opened Wrappers
  import opened Sorting
  import opened Coins
  import opened Stages
  import TrackerTop

  // ---------------------------------------------------------------------------
  // add_enhanced_columns

  /** Python truthiness of an optional number: `None` and zero are false. */
  predicate Truthy(x: Option<real>) {
    x.Some? && x.value != 0.0
  }

  /** One dict after `add_enhanced_columns`: a falsy percentage becomes `0.0`. */
  function EnhanceData(d: RawData, today: string): (e: RawData)
    ensures Enhanced(e, today)
  {
    var priceChange := d.priceChangePercentage24h.Get();
    var stored := if Truthy(priceChange) then priceChange.value else 0.0;
    d.(date := Present(today),
       priceChange24h := Present(stored),
       changeSymbol := Present(if stored > 0.0 then UP else DOWN))
  }

  /**
   * The truthiness test agrees with the `is None` test of the monolithic
   * tracker: a zero percentage stored as `0.0` or turned into `0.0` is the
   * same value.
   */
  lemma EnhanceAgrees(d: RawData, today: string)
    ensures EnhanceData(d, today) == TrackerTop.EnhanceData(d, today)
  {
  }

  /** The records of a list after enhancement, in list order. */
  function EnhanceAll(ds: seq<RawData>, today: string): (es: seq<RawData>)
    ensures |es| == |ds|
    ensures forall i :: 0 <= i < |ds| ==> es[i] == EnhanceData(ds[i], today)
  {
    if ds == [] then [] else [EnhanceData(ds[0], today)] + EnhanceAll(ds[1..], today)
  }

  /** `add_enhanced_columns`: stamps every dict of the list in place and returns the same list. */
  method AddEnhancedColumns(data: seq<Coin>, today: string) returns (result: seq<Coin>)
    modifies data
    ensures result == data
    ensures forall c :: c in data ==> c.data == EnhanceData(old(c.data), today)
  {
    for i := 0 to |data|
      invariant forall c :: c in data[..i] ==> c.data == EnhanceData(old(c.data), today)
      invariant forall c :: c in data && c !in data[..i] ==> c.data == old(c.data)
    {
      var coin := data[i];
      ghost var before := coin.data;
      var priceChange := coin.data.priceChangePercentage24h.Get();
      coin.data := coin.data.(date := Present(today));
      coin.data := coin.data.(priceChange24h := Present(if Truthy(priceChange) then priceChange.value else 0.0));
      coin.data := coin.data.(changeSymbol := Present(if coin.data.priceChange24h.value > 0.0 then UP else DOWN));
      assert coin.data == EnhanceData(before, today);
      EnhanceAgrees(before, today);
      EnhanceAgrees(old(coin.data), today);
      TrackerTop.EnhanceIdempotent(old(coin.data), today);
      assert data[..i + 1] == data[..i] + [coin];
    }
    assert data[..|data|] == data;
    result := data;
  }

  // ---------------------------------------------------------------------------
  // process_crypto_data

  /** The dict literal of `process_crypto_data`: `''` defaults, and a stored `None` change kept. */
  function Project(d: RawData): (r: Outcome<Record>)
    ensures r.Raised? <==> d.symbol.Null?
    ensures r.Raised? ==> r.error == AttributeError
  {
    if d.symbol.Null? then Raised(AttributeError)
    else
      Ok(Record(
        id := d.id.GetOr(""),
        rank := d.marketCapRank.Get(),
        name := d.name.GetOr(""),
        symbol := Upper(if d.symbol.Present? then d.symbol.value else ""),
        currentPrice := d.currentPrice.Get(),
        priceChange24h := d.priceChange24h.GetOr(0.0),
        changeSymbol := d.changeSymbol.GetOr(DOWN),
        marketCap := d.marketCap.Get(),
        volume24h := d.totalVolume.Get(),
        ath := d.ath.Get(),
        image := d.image.GetOr(""),
        date := d.date.GetOr(""),
        lastUpdated := d.lastUpdated.GetOr("")))
  }

  /** The modular and monolithic projections differ only on a stored `None` change, which the latter turns into 0. */
  lemma ProjectAgreement(d: RawData)
    ensures Project(d) == TrackerTop.Project(d) <==> d.symbol.Null? || !d.priceChange24h.Null?
  {
    if !d.symbol.Null? && Project(d) == TrackerTop.Project(d) {
      assert Project(d).value.priceChange24h == TrackerTop.Project(d).value.priceChange24h;
    }
  }

  /**
   * What this projection produces, field by field, against the monolithic one:
   * the same dict, except that a stored `None` change stays `None`.
   */
  lemma ProjectValues(d: RawData)
    requires !d.symbol.Null?
    ensures Project(d).value == TrackerTop.Project(d).value.(priceChange24h := d.priceChange24h.GetOr(0.0))
    ensures d.priceChange24h.Null? ==> Project(d).value.priceChange24h == None
  {
  }

  /** After enhancement every projected change is a number. */
  lemma ProjectEnhanced(d: RawData, today: string)
    requires Enhanced(d, today) && !d.symbol.Null?
    ensures Project(d).value.priceChange24h == Some(d.priceChange24h.value)
  {
  }

  /** `x['rank'] if x['rank'] else float('inf')`: a missing rank and a rank of 0 both sort last. */
  function FalsyLastKey(d: Record): Key {
    if d.rank.Some? && d.rank.value != 0 then Finite(d.rank.value as real) else Infinite
  }

  /** Without a rank of 0 the truthiness key orders records exactly as the `is None` key does. */
  lemma FalsyLastAgrees(ps: seq<Record>)
    requires forall p :: p in ps ==> p.rank != Some(0)
    ensures SortBy(ps, FalsyLastKey) == SortBy(ps, NoneLastKey)
  {
    SortByCongruent(ps, FalsyLastKey, NoneLastKey);
  }

  /** A record ranked 0 goes after one ranked 1 here, and before it under the `is None` key. */
  lemma RankZeroSortsLast(a: Record, b: Record)
    requires a.rank == Some(0) && b.rank == Some(1)
    ensures SortBy([a, b], FalsyLastKey) == [b, a]
    ensures SortBy([a, b], NoneLastKey) == [a, b]
  {
    assert [a, b][1..] == [b] && [b][1..] == [];
    assert SortBy([b], FalsyLastKey) == [b];
    assert SortBy([b], NoneLastKey) == [b];
    assert NoneLastKey(a) == Finite(0.0) && NoneLastKey(b) == Finite(1.0);
    assert FalsyLastKey(a) == Infinite && FalsyLastKey(b) == Finite(1.0);
    assert Insert(a, [b], FalsyLastKey) == [b] + Insert(a, [], FalsyLastKey);
  }

  /**
   * `process_crypto_data`: the projected dicts, sorted by truthy rank with
   * the rest last (stable), numbered 1..n; or `AttributeError` when a symbol
   * is `None`. The rows are new dicts.
   */
  method ProcessCryptoData(data: seq<Coin>) returns (result: Outcome<seq<Row>>)
    ensures result.Raised? <==> exists i :: 0 <= i < |data| && data[i].data.symbol.Null?
    ensures result.Raised? ==> result.error == AttributeError
    ensures result.Ok? ==>
      && |result.value| == |data|
      && ProjectAll(CoinDatas(data), Project).Ok?
      && RowDatas(result.value) == SortBy(ProjectAll(CoinDatas(data), Project).value, FalsyLastKey)
      && Distinct(result.value)
      && (forall i :: 0 <= i < |result.value| ==> result.value[i].number == Some(i + 1))
      && (forall r :: r in result.value ==> r.gainerRank == None && r.loserRank == None)
    ensures result.Ok? ==> fresh(set r | r in result.value)
  {
    ghost var ds := CoinDatas(data);
    ProjectAllOk(ds, Project);
    if ProjectAll(ds, Project).Raised? {
      ProjectAllRaised(ds, Project);
    }
    result := Normalize(data, Project, FalsyLastKey);
    if result.Ok? {
      SortByPermutes(ProjectAll(ds, Project).value, FalsyLastKey);
      assert |RowDatas(result.value)| == |result.value|;
    }
  }
}
