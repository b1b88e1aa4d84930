/**
 * main.py: the modular pipeline end to end, from the fetched list to the
 * ranked subsets and the summary. Fetching, display and saving are not part
 * of this model; the fetched list and today's date are parameters.
 */
module App {
  import opened Wrappers
  import opened Sorting
  import opened Coins
  import opened Stages
  import Processor
  import Analyzer

  /** `limit=10`, the rankers' default. */
  const DefaultLimit := 10

  /** What the pipeline hands to display and saving. */
  datatype Analysis = Analysis(
    processed: seq<Row>,
    topGainers: seq<Row>,
    topLosers: seq<Row>,
    summary: MarketSummary)

  /** Enhanced records project to rows whose change is a number. */
  lemma EnhancedProjectsKnown(ds: seq<RawData>, today: string)
    requires forall i :: 0 <= i < |ds| ==> Enhanced(ds[i], today)
    requires ProjectAll(ds, Processor.Project).Ok?
    ensures forall p :: p in ProjectAll(ds, Processor.Project).value ==> p.priceChange24h.Some?
  {
    ProjectAllOk(ds, Processor.Project);
    var ps := ProjectAll(ds, Processor.Project).value;
    forall i | 0 <= i < |ps|
      ensures ps[i].priceChange24h.Some?
    {
      Processor.ProjectEnhanced(ds[i], today);
    }
  }

  /** Rows built from records whose change is a number, in any order, all have a known change. */
  lemma RowsKnown(rows: seq<Row>, ps: seq<Record>)
    requires forall p :: p in ps ==> p.priceChange24h.Some?
    requires RowDatas(rows) == SortBy(ps, Processor.FalsyLastKey)
    ensures AllKnown(rows)
  {
    SortByPermutes(ps, Processor.FalsyLastKey);
    forall r | r in rows
      ensures Known(r)
    {
      var i :| 0 <= i < |rows| && rows[i] == r;
      assert RowDatas(rows)[i] == r.data;
      assert r.data in multiset(SortBy(ps, Processor.FalsyLastKey));
      assert r.data in ps;
    }
  }

  /**
   * What lines 23-24 of `main` produce from the enhanced records `es`: rows
   * holding their projections in truthy-rank order, each row once, each
   * with a change that is a number.
   */
  ghost predicate Normalised(rows: seq<Row>, es: seq<RawData>) {
    && ProjectAll(es, Processor.Project).Ok?
    && RowDatas(rows) == SortBy(ProjectAll(es, Processor.Project).value, Processor.FalsyLastKey)
    && |rows| == |es|
    && Distinct(rows)
    && AllKnown(rows)
  }

  /** The `number` column runs 1..n in list order. */
  predicate Numbered(rows: seq<Row>)
    reads rows
  {
    forall i :: 0 <= i < |rows| ==> rows[i].number == Some(i + 1)
  }

  /** No row carries a gainer or loser rank yet. */
  predicate Unranked(rows: seq<Row>)
    reads rows
  {
    forall r :: r in rows ==> r.gainerRank == None && r.loserRank == None
  }

  /**
   * Lines 23-24 of `main`: the fetched list enhanced in place, then
   * normalised into new rows. Only a `None` symbol raises: after enhancement
   * every change is a number.
   */
  method Prepare(rawData: seq<Coin>, today: string) returns (result: Outcome<seq<Row>>)
    modifies rawData
    ensures forall c :: c in rawData ==> c.data == Processor.EnhanceData(old(c.data), today)
    ensures result.Raised? <==> exists i :: 0 <= i < |rawData| && old(rawData[i].data).symbol.Null?
    ensures result.Raised? ==> result.error == AttributeError
    ensures result.Ok? ==>
      && Normalised(result.value, Processor.EnhanceAll(old(CoinDatas(rawData)), today))
      && Numbered(result.value)
      && Unranked(result.value)
    ensures result.Ok? ==> fresh(set r | r in result.value)
  {
    ghost var raw := CoinDatas(rawData);
    var enhanced := Processor.AddEnhancedColumns(rawData, today);
    assert CoinDatas(rawData) == Processor.EnhanceAll(raw, today);
    assert forall i :: 0 <= i < |rawData| ==> rawData[i].data.symbol == old(rawData[i].data).symbol;
    result := Processor.ProcessCryptoData(enhanced);
    if result.Ok? {
      EnhancedProjectsKnown(CoinDatas(enhanced), today);
      RowsKnown(result.value, ProjectAll(CoinDatas(enhanced), Processor.Project).value);
    }
  }

  /**
   * What lines 26-27 of `main` leave behind: each ranking is the stable,
   * truncated selection of the analyzer, its rows carry the ranks 1..k, and
   * rows outside a ranking carry no rank of that kind.
   */
  predicate RanksMarked(rows: seq<Row>, topGainers: seq<Row>, topLosers: seq<Row>)
    reads rows, topGainers, topLosers
  {
    && topGainers == Gainers(rows, DefaultLimit)
    && topLosers == Losers(rows, DefaultLimit)
    && (forall i :: 0 <= i < |topGainers| ==> topGainers[i].gainerRank == Some(i + 1))
    && (forall i :: 0 <= i < |topLosers| ==> topLosers[i].loserRank == Some(i + 1))
    && (forall r :: r in rows && r !in topGainers ==> r.gainerRank == None)
    && (forall r :: r in rows && r !in topLosers ==> r.loserRank == None)
  }

  /** What lines 26-28 of `main` leave behind: the marked rankings and the summary of the rows. */
  ghost predicate RankedAndSummarised(a: Analysis)
    reads a.processed, a.topGainers, a.topLosers
  {
    RanksMarked(a.processed, a.topGainers, a.topLosers) && SummaryOf(a.summary, a.processed)
  }

  /**
   * Lines 26-27 of `main`: both rankers on distinct rows whose changes are
   * numbers, so neither raises and the ranks run 1..k; the numbering stays.
   */
  method RankBoth(rows: seq<Row>) returns (topGainers: seq<Row>, topLosers: seq<Row>)
    requires Distinct(rows) && AllKnown(rows) && Numbered(rows) && Unranked(rows)
    modifies rows
    ensures RanksMarked(rows, topGainers, topLosers)
    ensures Numbered(rows)
  {
    var gainers := Analyzer.GetTopGainers(rows, DefaultLimit);
    GainersSpec(rows, DefaultLimit);
    DistinctLastAt(gainers.value);
    topGainers := gainers.value;
    assert forall i :: 0 <= i < |topGainers| ==> topGainers[i].gainerRank == Some(i + 1);
    var losers := Analyzer.GetTopLosers(rows, DefaultLimit);
    LosersSpec(rows, DefaultLimit);
    DistinctLastAt(losers.value);
    topLosers := losers.value;
  }

  /** Lines 26-28 of `main`: both rankers, then the summary of the same rows. */
  method Rank(rows: seq<Row>) returns (a: Analysis)
    requires Distinct(rows) && AllKnown(rows) && Numbered(rows) && Unranked(rows) && rows != []
    modifies rows
    ensures a.processed == rows
    ensures Numbered(rows)
    ensures RankedAndSummarised(a)
  {
    var topGainers, topLosers := RankBoth(rows);
    var summary := Analyzer.GenerateMarketSummary(rows);
    a := Analysis(rows, topGainers, topLosers, summary.value.value);
  }

  /**
   * Lines 18-28 of `main`: nothing for an empty fetch; otherwise the list is
   * enhanced in place and normalised, then ranked and summarised; ranking
   * writes only the new rows, so the fetched dicts stay enhanced.
   */
  method Analyse(rawData: seq<Coin>, today: string) returns (result: Outcome<Option<Analysis>>)
    modifies rawData
    ensures rawData == [] <==> result == Ok(None)
    ensures forall c :: c in rawData ==> c.data == Processor.EnhanceData(old(c.data), today)
    ensures result.Raised? <==> exists i :: 0 <= i < |rawData| && old(rawData[i].data).symbol.Null?
    ensures result.Raised? ==> result.error == AttributeError
    ensures result.Ok? && result.value.Some? ==>
      && Normalised(result.value.value.processed, Processor.EnhanceAll(old(CoinDatas(rawData)), today))
      && Numbered(result.value.value.processed)
      && RankedAndSummarised(result.value.value)
  {
    if rawData == [] {
      return Ok(None);
    }
    var processed := Prepare(rawData, today);
    if processed.Raised? {
      return Raised(processed.error);
    }
    var a := Rank(processed.value);
    result := Ok(Some(a));
  }
}
