/**
 * crypto_tracker.py: the first, single-file tracker. Enhancement is the same
 * as the later tracker's; normalisation keeps `None` for every missing text
 * field and keeps a stored `None` change; the market summary is printed
 * rather than returned.
 */
module Tracker {
  import opened Wrappers
  import opened Sorting
  import opened Coins
  import opened Stages
  import TrackerTop

  // ---------------------------------------------------------------------------
  // add_columns

  /** One dict after `add_columns`: the percentage, `None` read as 0, decides the direction. */
  function AddColumnsData(d: RawData, today: string): (e: RawData)
    ensures Enhanced(e, today)
  {
    var priceChange := d.priceChangePercentage24h.Get().GetOr(0.0);
    d.(date := Present(today),
       priceChange24h := Present(priceChange),
       changeSymbol := Present(if priceChange > 0.0 then UP else DOWN))
  }

  /** `add_columns` writes exactly what `add_enhanced_columns` of the later tracker writes. */
  lemma AddColumnsAgrees(d: RawData, today: string)
    ensures AddColumnsData(d, today) == TrackerTop.EnhanceData(d, today)
  {
  }

  /** `add_columns`: stamps every dict of the list in place and returns the same list. */
  method AddColumns(data: seq<Coin>, today: string) returns (result: seq<Coin>)
    modifies data
    ensures result == data
    ensures forall c :: c in data ==> c.data == AddColumnsData(old(c.data), today)
  {
    for i := 0 to |data|
      invariant forall c :: c in data[..i] ==> c.data == AddColumnsData(old(c.data), today)
      invariant forall c :: c in data && c !in data[..i] ==> c.data == old(c.data)
    {
      var coin := data[i];
      ghost var before := coin.data;
      coin.data := coin.data.(date := Present(today));
      var priceChange := coin.data.priceChangePercentage24h.Get();
      coin.data := coin.data.(priceChange24h := Present(if priceChange.Some? then priceChange.value else 0.0));
      coin.data := coin.data.(changeSymbol := Present(if coin.data.priceChange24h.value > 0.0 then UP else DOWN));
      assert coin.data == AddColumnsData(before, today);
      AddColumnsAgrees(before, today);
      AddColumnsAgrees(old(coin.data), today);
      TrackerTop.EnhanceIdempotent(old(coin.data), today);
      assert data[..i + 1] == data[..i] + [coin];
    }
    assert data[..|data|] == data;
    result := data;
  }

  // ---------------------------------------------------------------------------
  // process_crypto_data

  /** The dict literal of `process_crypto_data`: `.get(k)` without defaults, except the symbol, change and direction. */
  function Project(d: RawData): (r: Outcome<Record>)
    ensures r.Raised? <==> d.symbol.Null?
    ensures r.Raised? ==> r.error == AttributeError
  {
    if d.symbol.Null? then Raised(AttributeError)
    else
      Ok(Record(
        id := d.id.Get(),
        rank := d.marketCapRank.Get(),
        name := d.name.Get(),
        symbol := Upper(if d.symbol.Present? then d.symbol.value else ""),
        currentPrice := d.currentPrice.Get(),
        priceChange24h := d.priceChange24h.GetOr(0.0),
        changeSymbol := d.changeSymbol.GetOr(DOWN),
        marketCap := d.marketCap.Get(),
        volume24h := d.totalVolume.Get(),
        ath := d.ath.Get(),
        image := d.image.Get(),
        date := d.date.Get(),
        lastUpdated := d.lastUpdated.Get()))
  }

  /**
   * The two trackers build the same dict exactly when none of the five text
   * fields they default differently is missing and the change is not a stored
   * `None` (or when both raise on a `None` symbol).
   */
  lemma ProjectAgreement(d: RawData)
    ensures Project(d) == TrackerTop.Project(d) <==>
      d.symbol.Null? ||
      (!d.id.Absent? && !d.name.Absent? && !d.image.Absent? && !d.date.Absent? && !d.lastUpdated.Absent?
       && !d.priceChange24h.Null?)
  {
    if !d.symbol.Null? && Project(d) == TrackerTop.Project(d) {
      assert Project(d).value.id == TrackerTop.Project(d).value.id;
      assert Project(d).value.name == TrackerTop.Project(d).value.name;
      assert Project(d).value.image == TrackerTop.Project(d).value.image;
      assert Project(d).value.date == TrackerTop.Project(d).value.date;
      assert Project(d).value.lastUpdated == TrackerTop.Project(d).value.lastUpdated;
      assert Project(d).value.priceChange24h == TrackerTop.Project(d).value.priceChange24h;
    }
  }

  /**
   * What this projection produces, field by field, against the monolithic one:
   * `None` for a missing id, name, image, date or last_updated, and a stored
   * `None` change kept as `None`; every other field is the same.
   */
  lemma ProjectValues(d: RawData)
    requires !d.symbol.Null?
    ensures Project(d).value == TrackerTop.Project(d).value.(
      id := d.id.Get(), name := d.name.Get(), image := d.image.Get(),
      date := d.date.Get(), lastUpdated := d.lastUpdated.Get(),
      priceChange24h := d.priceChange24h.GetOr(0.0))
    ensures d.id.Absent? ==> Project(d).value.id == None
    ensures d.priceChange24h.Null? ==> Project(d).value.priceChange24h == None
  {
  }

  /** On an enhanced dict the change is never a stored `None`, so only the missing text fields tell the trackers apart. */
  lemma ProjectEnhancedAgreement(d: RawData, today: string)
    requires Enhanced(d, today)
    ensures Project(d) == TrackerTop.Project(d) <==>
      d.symbol.Null? || (!d.id.Absent? && !d.name.Absent? && !d.image.Absent? && !d.lastUpdated.Absent?)
  {
    ProjectAgreement(d);
  }

  /**
   * `process_crypto_data`: the projected dicts, sorted by rank with `None`
   * last (stable), numbered 1..n; or `AttributeError` when a symbol is `None`.
   */
  method ProcessCryptoData(data: seq<Coin>) returns (result: Outcome<seq<Row>>)
    ensures result.Raised? <==> exists i :: 0 <= i < |data| && data[i].data.symbol.Null?
    ensures result.Raised? ==> result.error == AttributeError
    ensures result.Ok? ==>
      && |result.value| == |data|
      && ProjectAll(CoinDatas(data), Project).Ok?
      && RowDatas(result.value) == SortBy(ProjectAll(CoinDatas(data), Project).value, NoneLastKey)
      && (forall i :: 0 <= i < |result.value| ==> result.value[i].number == Some(i + 1))
      && (forall r :: r in result.value ==> r.gainerRank == None && r.loserRank == None)
  {
    ghost var ds := CoinDatas(data);
    ProjectAllOk(ds, Project);
    if ProjectAll(ds, Project).Raised? {
      ProjectAllRaised(ds, Project);
    }
    result := Normalize(data, Project, NoneLastKey);
    if result.Ok? {
      SortByPermutes(ProjectAll(ds, Project).value, NoneLastKey);
      assert |RowDatas(result.value)| == |result.value|;
    }
  }

  // ---------------------------------------------------------------------------
  // get_market_summary

  /** What `get_market_summary` reports: a message for an empty list, otherwise the printed figures. */
  datatype MarketReport =
    | NoData(message: string)
    | Report(totalCoins: nat, gainersCount: nat, losersCount: nat,
             gainersPercentage: real, losersPercentage: real,
             topGainer: Row, topLoser: Row)

  const NoDataMessage := "No data available for market summary."

  /**
   * `get_market_summary`: the message for an empty list; `TypeError` when a
   * change is `None`; otherwise the same figures as the later tracker's
   * summary (less the neutral count, which it does not compute).
   */
  function GetMarketSummary(processedData: seq<Row>): (r: Outcome<MarketReport>)
    ensures processedData == [] <==> r == Ok(NoData(NoDataMessage))
    ensures r.Raised? <==> processedData != [] && !AllKnown(processedData)
    ensures r.Raised? ==> r.error == TypeError
    ensures r.Ok? && r.value.Report? ==>
      var s := TrackerTop.GenerateMarketSummary(processedData).value.value;
      && SummaryOf(s, processedData)
      && r.value == Report(s.totalCoins, s.gainersCount, s.losersCount,
                           s.gainersPercentage, s.losersPercentage, s.topGainer, s.topLoser)
  {
    if processedData == [] then Ok(NoData(NoDataMessage))
    else if !AllKnown(processedData) then Raised(TypeError)
    else
      var totalCoins := |processedData|;
      var gainers := Filter(processedData, IsGainer);
      var losers := Filter(processedData, IsLoser);
      Ok(Report(
        totalCoins := totalCoins,
        gainersCount := |gainers|,
        losersCount := |losers|,
        gainersPercentage := Percentage(|gainers|, totalCoins),
        losersPercentage := Percentage(|losers|, totalCoins),
        topGainer := TopGainerOf(processedData),
        topLoser := TopLoserOf(processedData)))
  }
}
