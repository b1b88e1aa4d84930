/**
 * crypto_tracker_top.py: the monolithic tracker. Enhancement treats a missing
 * or `None` percentage as 0; normalisation defaults the text fields to `''`,
 * turns a `None` change into `0.0` and sorts ranks with `None` last; the
 * rankers skip a `None` change; the summary guards its divisions.
 */
module TrackerTop {
  import opened Wrappers
  import opened Sorting
  import opened Coins
  import opened Stages

  // ---------------------------------------------------------------------------
  // add_enhanced_columns

  /** One dict after `add_enhanced_columns`. */
  function EnhanceData(d: RawData, today: string): (e: RawData)
    ensures Enhanced(e, today)
    ensures e == d.(date := e.date, priceChange24h := e.priceChange24h, changeSymbol := e.changeSymbol)
    ensures d.priceChangePercentage24h.Present? ==>
      && e.priceChange24h == d.priceChangePercentage24h
      && (e.changeSymbol == Present(UP) <==> d.priceChangePercentage24h.value > 0.0)
    ensures !d.priceChangePercentage24h.Present? ==>
      e.priceChange24h == Present(0.0) && e.changeSymbol == Present(DOWN)
  {
    var stamped := d.(date := Present(today));
    match d.priceChangePercentage24h.Get()
    case None => stamped.(priceChange24h := Present(0.0), changeSymbol := Present(DOWN))
    case Some(p) => stamped.(priceChange24h := Present(p), changeSymbol := Present(if p > 0.0 then UP else DOWN))
  }

  /** Enhancing twice is enhancing once: the derived keys depend only on the percentage, which enhancement does not write. */
  lemma EnhanceIdempotent(d: RawData, today: string)
    ensures EnhanceData(EnhanceData(d, today), today) == EnhanceData(d, today)
  {
  }

  /**
   * `add_enhanced_columns`: stamps every dict of the list in place and returns
   * the same list. A dict listed twice is stamped twice, to the same effect.
   */
  method AddEnhancedColumns(data: seq<Coin>, today: string) returns (result: seq<Coin>)
    modifies data
    ensures result == data
    ensures forall c :: c in data ==> c.data == EnhanceData(old(c.data), today)
  {
    for i := 0 to |data|
      invariant forall c :: c in data[..i] ==> c.data == EnhanceData(old(c.data), today)
      invariant forall c :: c in data && c !in data[..i] ==> c.data == old(c.data)
    {
      var coin := data[i];
      ghost var before := coin.data;
      coin.data := coin.data.(date := Present(today));
      var priceChange := coin.data.priceChangePercentage24h.Get();
      if priceChange.None? {
        coin.data := coin.data.(priceChange24h := Present(0.0), changeSymbol := Present(DOWN));
      } else {
        coin.data := coin.data.(priceChange24h := Present(priceChange.value),
                                changeSymbol := Present(if priceChange.value > 0.0 then UP else DOWN));
      }
      assert coin.data == EnhanceData(before, today);
      EnhanceIdempotent(old(coin.data), today);
      assert data[..i + 1] == data[..i] + [coin];
    }
    assert data[..|data|] == data;
    result := data;
  }

  // ---------------------------------------------------------------------------
  // process_crypto_data

  /** The dict literal of `process_crypto_data`; `coin.get('symbol', '').upper()` raises on a stored `None`. */
  function Project(d: RawData): (r: Outcome<Record>)
    ensures r.Raised? <==> d.symbol.Null?
    ensures r.Raised? ==> r.error == AttributeError
    ensures r.Ok? ==> r.value.priceChange24h.Some?
  {
    if d.symbol.Null? then Raised(AttributeError)
    else
      var priceChange := d.priceChange24h.GetOr(0.0);
      Ok(Record(
        id := d.id.GetOr(""),
        rank := d.marketCapRank.Get(),
        name := d.name.GetOr(""),
        symbol := Upper(if d.symbol.Present? then d.symbol.value else ""),
        currentPrice := d.currentPrice.Get(),
        priceChange24h := Some(priceChange.GetOr(0.0)),
        changeSymbol := d.changeSymbol.GetOr(DOWN),
        marketCap := d.marketCap.Get(),
        volume24h := d.totalVolume.Get(),
        ath := d.ath.Get(),
        image := d.image.GetOr(""),
        date := d.date.GetOr(""),
        lastUpdated := d.lastUpdated.GetOr("")))
  }

  /** `.get(k, '')` on a text key: a value survives, a stored `None` stays `None`, a missing key becomes `''`. */
  predicate TextDefault(f: Field<string>, v: Option<string>) {
    && (f.Present? ==> v == Some(f.value))
    && (f.Null? ==> v == None)
    && (f.Absent? ==> v == Some(""))
  }

  /** `.get(k)`: a value survives; a stored `None` and a missing key both read as `None`. */
  predicate NoDefault<T(==)>(f: Field<T>, v: Option<T>) {
    && (f.Present? ==> v == Some(f.value))
    && (!f.Present? ==> v == None)
  }

  /**
   * What the projection keeps and what it defaults: values present in the
   * source survive (the symbol upper-cased), a stored `None` stays `None`, a
   * missing text field becomes `''`, a missing or `None` change becomes 0 and a
   * missing direction `DOWN`.
   */
  lemma ProjectDefaults(d: RawData)
    requires !d.symbol.Null?
    ensures var r := Project(d).value;
      && TextDefault(d.id, r.id) && TextDefault(d.name, r.name) && TextDefault(d.image, r.image)
      && TextDefault(d.date, r.date) && TextDefault(d.lastUpdated, r.lastUpdated)
      && r.symbol == Upper(if d.symbol.Present? then d.symbol.value else "")
      && (d.symbol.Absent? ==> r.symbol == "")
      && r.priceChange24h == Some(if d.priceChange24h.Present? then d.priceChange24h.value else 0.0)
      && (d.changeSymbol.Present? ==> r.changeSymbol == Some(d.changeSymbol.value))
      && (d.changeSymbol.Null? ==> r.changeSymbol == None)
      && (d.changeSymbol.Absent? ==> r.changeSymbol == Some(DOWN))
      && NoDefault(d.currentPrice, r.currentPrice) && NoDefault(d.marketCap, r.marketCap)
      && NoDefault(d.totalVolume, r.volume24h) && NoDefault(d.ath, r.ath)
      && NoDefault(d.marketCapRank, r.rank)
  {
  }

  /** The list projects unless some record has a `None` symbol, and then raises `AttributeError`. */
  lemma ProjectAllTop(ds: seq<RawData>)
    ensures ProjectAll(ds, Project).Raised? <==> exists i :: 0 <= i < |ds| && ds[i].symbol.Null?
    ensures ProjectAll(ds, Project).Raised? ==> ProjectAll(ds, Project).error == AttributeError
    ensures ProjectAll(ds, Project).Ok? ==>
      |ProjectAll(ds, Project).value| == |ds| &&
      forall i :: 0 <= i < |ds| ==> Project(ds[i]) == Ok(ProjectAll(ds, Project).value[i])
  {
    ProjectAllOk(ds, Project);
    if ProjectAll(ds, Project).Raised? {
      ProjectAllRaised(ds, Project);
    }
  }

  /**
   * `process_crypto_data`: the projected dicts, sorted by rank with `None`
   * last (stable), numbered 1..n; or `AttributeError` when a symbol is `None`.
   */
  method ProcessCryptoData(data: seq<Coin>) returns (result: Outcome<seq<Row>>)
    ensures result.Raised? <==> exists i :: 0 <= i < |data| && data[i].data.symbol.Null?
    ensures result.Raised? ==> result.error == AttributeError
    ensures result.Ok? ==>
      && |result.value| == |data|
      && ProjectAll(CoinDatas(data), Project).Ok?
      && RowDatas(result.value) == SortBy(ProjectAll(CoinDatas(data), Project).value, NoneLastKey)
      && (forall i :: 0 <= i < |result.value| ==> result.value[i].number == Some(i + 1))
      && (forall r :: r in result.value ==> r.gainerRank == None && r.loserRank == None)
  {
    ProjectAllTop(CoinDatas(data));
    result := Normalize(data, Project, NoneLastKey);
    if result.Ok? {
      SortByPermutes(ProjectAll(CoinDatas(data), Project).value, NoneLastKey);
      assert |RowDatas(result.value)| == |result.value|;
    }
  }

  // ---------------------------------------------------------------------------
  // get_top_gainers / get_top_losers

  /** The append loop of `get_top_gainers`: the rows whose change is a number above 0, in list order. */
  method SelectGainers(processedData: seq<Row>) returns (gainers: seq<Row>)
    ensures gainers == Filter(processedData, IsGainer)
  {
    gainers := [];
    for i := 0 to |processedData|
      invariant gainers == Filter(processedData[..i], IsGainer)
    {
      var coin := processedData[i];
      var priceChange := coin.data.priceChange24h;
      FilterConcat(processedData[..i], [coin], IsGainer);
      assert processedData[..i + 1] == processedData[..i] + [coin];
      if priceChange.Some? && priceChange.value > 0.0 {
        gainers := gainers + [coin];
      }
    }
    assert processedData[..|processedData|] == processedData;
  }

  /**
   * `get_top_gainers`: the gainers, `sorted(..., reverse=True)[:limit]`, then
   * `gainer_rank` is written into those very rows, which the processed list
   * shares.
   */
  method GetTopGainers(processedData: seq<Row>, limit: int) returns (topGainers: seq<Row>)
    modifies processedData
    ensures topGainers == Gainers(processedData, limit)
    ensures forall i :: 0 <= i < |topGainers| && LastAt(topGainers, i) ==> topGainers[i].gainerRank == Some(i + 1)
    ensures forall r :: r in processedData && r !in topGainers ==> r.gainerRank == old(r.gainerRank)
    ensures forall r :: r in processedData ==> r.number == old(r.number) && r.loserRank == old(r.loserRank)
  {
    var gainers := SelectGainers(processedData);
    topGainers := SliceTo(SortBy(gainers, GainerKey), limit);
    GainersSpec(processedData, limit);
    assert forall i :: 0 <= i < |topGainers| ==> topGainers[i] in processedData;
    MarkGainerRanks(topGainers);
  }

  /** The append loop of `get_top_losers`: the rows whose change is a number below 0, in list order. */
  method SelectLosers(processedData: seq<Row>) returns (losers: seq<Row>)
    ensures losers == Filter(processedData, IsLoser)
  {
    losers := [];
    for i := 0 to |processedData|
      invariant losers == Filter(processedData[..i], IsLoser)
    {
      var coin := processedData[i];
      var priceChange := coin.data.priceChange24h;
      FilterConcat(processedData[..i], [coin], IsLoser);
      assert processedData[..i + 1] == processedData[..i] + [coin];
      if priceChange.Some? && priceChange.value < 0.0 {
        losers := losers + [coin];
      }
    }
    assert processedData[..|processedData|] == processedData;
  }

  /** `get_top_losers`: as `GetTopGainers`, for changes below 0, most negative first. */
  method GetTopLosers(processedData: seq<Row>, limit: int) returns (topLosers: seq<Row>)
    modifies processedData
    ensures topLosers == Losers(processedData, limit)
    ensures forall i :: 0 <= i < |topLosers| && LastAt(topLosers, i) ==> topLosers[i].loserRank == Some(i + 1)
    ensures forall r :: r in processedData && r !in topLosers ==> r.loserRank == old(r.loserRank)
    ensures forall r :: r in processedData ==> r.number == old(r.number) && r.gainerRank == old(r.gainerRank)
  {
    var losers := SelectLosers(processedData);
    topLosers := SliceTo(SortBy(losers, LoserKey), limit);
    LosersSpec(processedData, limit);
    assert forall i :: 0 <= i < |topLosers| ==> topLosers[i] in processedData;
    MarkLoserRanks(topLosers);
  }

  // ---------------------------------------------------------------------------
  // generate_market_summary

  /**
   * `generate_market_summary`: `{}` for an empty list; `TypeError` when some
   * change is `None` (the comprehension `coin.get('price_change_24h', 0) > 0`
   * meets it before the `None`-tolerant key of `max`); otherwise the counts,
   * the guarded percentages and the first extreme rows.
   */
  function GenerateMarketSummary(processedData: seq<Row>): (r: Outcome<Option<MarketSummary>>)
    ensures processedData == [] <==> r == Ok(None)
    ensures r.Raised? <==> processedData != [] && !AllKnown(processedData)
    ensures r.Raised? ==> r.error == TypeError
    ensures r.Ok? && r.value.Some? ==> SummaryOf(r.value.value, processedData)
  {
    if processedData == [] then Ok(None)
    else if !AllKnown(processedData) then Raised(TypeError)
    else
      var totalCoins := |processedData|;
      var gainers := Filter(processedData, IsGainer);
      var losers := Filter(processedData, IsLoser);
      var neutral := Filter(processedData, IsNeutral);
      var summary := MarketSummary(
        totalCoins := totalCoins,
        gainersCount := |gainers|,
        losersCount := |losers|,
        neutralCount := |neutral|,
        gainersPercentage := if totalCoins > 0 then Percentage(|gainers|, totalCoins) else 0.0,
        losersPercentage := if totalCoins > 0 then Percentage(|losers|, totalCoins) else 0.0,
        topGainer := TopGainerOf(processedData),
        topLoser := TopLoserOf(processedData));
      SummaryOfParts(summary, processedData);
      Ok(Some(summary))
  }
}
