/**
 * utils/analyzer.py: the rankers and the summary of the modular pipeline.
 * They compare `c['price_change_24h']` with 0 directly, so a `None` change
 * raises `TypeError` before anything is written; the summary does not guard
 * its divisions, which the empty-list test already makes safe.
 */
module Analyzer {
  import opened Wrappers
  import opened Sorting
  import opened Coins
  import opened Stages
  import TrackerTop

  /**
   * `[c for c in data if <c['price_change_24h'] ordered against 0>]`, for the
   * `> 0` and `< 0` tests: the rows satisfying `p`, or `TypeError` as soon as
   * a change is `None`. (The `== 0` test never raises; the summary builds it
   * with `Filter`.)
   */
  function Comprehension(data: seq<Row>, p: Row -> bool): (r: Outcome<seq<Row>>)
    ensures r.Ok? <==> AllKnown(data)
    ensures r.Raised? ==> r.error == TypeError
    ensures r.Ok? ==> r.value == Filter(data, p)
  {
    if data == [] then Ok([])
    else if !Known(data[0]) then Raised(TypeError)
    else
      match Comprehension(data[1..], p)
      case Raised(e) => Raised(e)
      case Ok(rest) => Ok((if p(data[0]) then [data[0]] else []) + rest)
  }

  /**
   * `get_top_gainers`: `TypeError`, with nothing written, when some change is
   * `None`; otherwise the gainers, `sorted(..., reverse=True)[:limit]`, with
   * `gainer_rank` written into those very rows.
   */
  method GetTopGainers(data: seq<Row>, limit: int) returns (result: Outcome<seq<Row>>)
    modifies data
    ensures result.Raised? <==> !AllKnown(data)
    ensures result.Raised? ==> result.error == TypeError && forall r :: r in data ==> r.gainerRank == old(r.gainerRank)
    ensures result.Ok? ==> result.value == Gainers(data, limit)
    ensures result.Ok? ==> forall i :: 0 <= i < |result.value| && LastAt(result.value, i) ==>
      result.value[i].gainerRank == Some(i + 1)
    ensures forall r :: r in data && (result.Raised? || r !in result.value) ==> r.gainerRank == old(r.gainerRank)
    ensures forall r :: r in data ==> r.number == old(r.number) && r.loserRank == old(r.loserRank)
  {
    var gainers := Comprehension(data, IsGainer);
    if gainers.Raised? {
      return Raised(gainers.error);
    }
    var top := SliceTo(SortBy(gainers.value, GainerKey), limit);
    GainersSpec(data, limit);
    assert forall i :: 0 <= i < |top| ==> top[i] in data;
    MarkGainerRanks(top);
    result := Ok(top);
  }

  /** `get_top_losers`: as `GetTopGainers`, for changes below 0, most negative first. */
  method GetTopLosers(data: seq<Row>, limit: int) returns (result: Outcome<seq<Row>>)
    modifies data
    ensures result.Raised? <==> !AllKnown(data)
    ensures result.Raised? ==> result.error == TypeError && forall r :: r in data ==> r.loserRank == old(r.loserRank)
    ensures result.Ok? ==> result.value == Losers(data, limit)
    ensures result.Ok? ==> forall i :: 0 <= i < |result.value| && LastAt(result.value, i) ==>
      result.value[i].loserRank == Some(i + 1)
    ensures forall r :: r in data && (result.Raised? || r !in result.value) ==> r.loserRank == old(r.loserRank)
    ensures forall r :: r in data ==> r.number == old(r.number) && r.gainerRank == old(r.gainerRank)
  {
    var losers := Comprehension(data, IsLoser);
    if losers.Raised? {
      return Raised(losers.error);
    }
    var top := SliceTo(SortBy(losers.value, LoserKey), limit);
    LosersSpec(data, limit);
    assert forall i :: 0 <= i < |top| ==> top[i] in data;
    MarkLoserRanks(top);
    result := Ok(top);
  }

  /**
   * `generate_market_summary`: `{}` for an empty list, `TypeError` when a
   * change is `None`, and otherwise exactly the summary of the monolithic
   * tracker, whose guards never fire on a non-empty list.
   */
  function GenerateMarketSummary(data: seq<Row>): (r: Outcome<Option<MarketSummary>>)
    ensures r == TrackerTop.GenerateMarketSummary(data)
    ensures r.Ok? && r.value.Some? ==> SummaryOf(r.value.value, data)
  {
    if data == [] then Ok(None)
    else
      match Comprehension(data, IsGainer)
      case Raised(e) => Raised(e)
      case Ok(gainers) =>
        var total := |data|;
        var losers := Comprehension(data, IsLoser).value;
        var neutral := Filter(data, IsNeutral);
        Ok(Some(MarketSummary(
          totalCoins := total,
          gainersCount := |gainers|,
          losersCount := |losers|,
          neutralCount := |neutral|,
          gainersPercentage := Percentage(|gainers|, total),
          losersPercentage := Percentage(|losers|, total),
          topGainer := TopGainerOf(data),
          topLoser := TopLoserOf(data))))
  }
}
