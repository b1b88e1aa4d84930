# Crypto price tracker: the enhance → normalise → rank → summarise pipeline

The tracker fetches a list of market entries from a price supplier, one
Python dict per coin. It then:

- **enhances** each dict in place, stamping today's date, the 24h change
  and an `UP`/`DOWN` direction;
- **normalises** the dicts into new fixed-shape dicts, sorted by market-cap
  rank and numbered 1..n;
- **ranks** the largest gainers and losers, writing `gainer_rank` and
  `loser_rank` into those shared dicts;
- **summarises** the market: counts, percentages, and the first row with the
  largest and the smallest change.

The repository has three variants of this pipeline:

- `crypto_tracker_top.py`, a monolithic tracker (module `TrackerTop`);
- `crypto_tracker.py`, the first single-file tracker (module `Tracker`);
- `utils/processor.py` and `utils/analyzer.py`, a modular version (modules
  `Processor` and `Analyzer`), chained by `main.py` (module `App`).

They differ in small ways, such as how they default missing keys and how
they treat `None` and 0. The model gives each variant its own definitions
and proves lemmas that state exactly where two variants agree and where
they part.

How the model represents the program:

- A supplier dict is a `Coin` object whose `data` field the enhancers
  reassign.
- A dict key may be missing, hold `None`, or hold a value. This is the
  `Field` type, and `Get`/`GetOr` model `dict.get(k)` and
  `dict.get(k, default)`.
- A normalised dict is a `Row` object. Its projected `Record` is constant,
  and `number`, `gainer_rank` and `loser_rank` are mutable fields. The
  processed list and the ranked subsets share the same `Row` objects, as
  the Python lists share their dicts.
- Python exceptions are an `Outcome` value: `TypeError` when `None` is
  compared with 0, `AttributeError` when `None.upper()` is called.
- `list.sort` and `sorted` are a stable insertion sort (`Sorting.SortBy`).
  `reverse=True` is a stable sort on the negated key. `s[:limit]` follows
  Python's slice rules, including a negative `limit`.
- `max` and `min` with a key return the first extreme element.
- Modules `Sorting`, `Coins` and `Stages` hold what the variants share.
  `Wrappers` holds `Option` and `Outcome`.

## Model

| member | source | states |
|---|---|---|
| TrackerTop.EnhanceData | crypto_tracker_top.py:59-70 | the result is enhanced (today's date, a change, and a direction that matches the change), and no other key changes; a present percentage is copied, and the direction is UP exactly when it is above 0; a missing or `None` percentage gives 0.0 and DOWN |
| TrackerTop.EnhanceIdempotent | crypto_tracker_top.py:59-70 | enhancing an already enhanced dict changes nothing |
| TrackerTop.AddEnhancedColumns | crypto_tracker_top.py:53-72 | the same list is returned; every dict in it now holds the enhancement of its old contents |
| TrackerTop.Project | crypto_tracker_top.py:82-100 | `AttributeError` exactly when the symbol is a stored `None`; otherwise the projected change is always a number |
| TrackerTop.ProjectDefaults | crypto_tracker_top.py:82-100 | for every key: a present value survives (the symbol upper-cased); a stored `None` stays `None`, except for the change, which becomes 0; a missing text key becomes `''`; a missing direction becomes DOWN; a missing change becomes 0; a missing price, market cap, volume, ath or rank becomes `None` |
| TrackerTop.ProjectAllTop | crypto_tracker_top.py:80-101 | the loop raises `AttributeError` exactly when some record has a `None` symbol; otherwise each record projects, in position |
| TrackerTop.ProcessCryptoData | crypto_tracker_top.py:74-110 | `AttributeError` iff a `None` symbol; otherwise one row per record, holding the projections stably sorted by rank with `None` last, numbered 1..n, unranked |
| TrackerTop.SelectGainers | crypto_tracker_top.py:121-125 | the append loop keeps exactly the rows whose change is a number above 0, in list order |
| TrackerTop.GetTopGainers | crypto_tracker_top.py:116-134 | the result is the specified gainer ranking; each row at its last position in it carries rank i+1; rows left out keep their rank; `number` and `loser_rank` are untouched |
| TrackerTop.SelectLosers | crypto_tracker_top.py:141-145 | the append loop keeps exactly the rows whose change is a number below 0, in list order |
| TrackerTop.GetTopLosers | crypto_tracker_top.py:136-154 | as for gainers, for the loser ranking and `loser_rank` |
| TrackerTop.GenerateMarketSummary | crypto_tracker_top.py:156-183 | `{}` exactly for the empty list; `TypeError` exactly when some change is `None`; otherwise a summary satisfying `SummaryOf` |
| Stages.ProjectAllOk | crypto_tracker_top.py:80-101 | projecting a list succeeds iff every record projects, and then yields each projection at its position |
| Stages.ProjectAllRaised | crypto_tracker_top.py:80-101 | a list that raises raises the error of one of its records |
| Stages.ProjectAllPrefixRaised | crypto_tracker_top.py:80-101 | once a prefix raises, the whole loop raises that same error |
| Stages.NormalizedOrder | crypto_tracker_top.py:104 | the sorted records are a permutation of the projections, sorted by key, with records of equal key in input order |
| Stages.ProjectRows | crypto_tracker_top.py:78-101 | one new, distinct dict per record, holding its projection in input order with no number or ranks; or the error of the first record that raises |
| Stages.NumberRows | crypto_tracker_top.py:106-108 | row i gets `number` i+1; the ranks are untouched |
| Stages.SortedRows | crypto_tracker_top.py:104 | sorting the dicts by their records' key sorts the records, and the dicts stay distinct and drawn from the list |
| Stages.Normalize | crypto_tracker_top.py:74-110 | the shared project–sort–number loop: raises exactly as the projection does; otherwise new distinct rows whose records are the sorted projections, numbered 1..n and unranked |
| Stages.Ranked | crypto_tracker_top.py:128 | a ranking is a prefix of the stable sort of the filtered rows; every member is a row of the list that passes the filter; its length follows the slice rule; it has no duplicates when the list has none |
| Stages.GainersSpec | crypto_tracker_top.py:120-128 | gainers are rows of the list with a positive change, in non-increasing order of change; there are `limit` of them, or all of them when fewer |
| Stages.GainersStableAndLargest | crypto_tracker_top.py:128 | gainers with equal change keep list order; every gainer left out changed no more than any gainer kept |
| Stages.LosersSpec | crypto_tracker_top.py:140-148 | losers are rows of the list with a negative change, in non-decreasing order of change; there are `limit` of them, or all of them when fewer |
| Stages.LosersStableAndLargest | crypto_tracker_top.py:148 | losers with equal change keep list order; every loser left out changed no less than any loser kept |
| Stages.MarkGainerRanks | crypto_tracker_top.py:130-132 | each row at its last position i in the ranking ends with `gainer_rank` i+1; `number` and `loser_rank` are untouched |
| Stages.MarkLoserRanks | crypto_tracker_top.py:150-152 | each row at its last position i in the ranking ends with `loser_rank` i+1; `number` and `gainer_rank` are untouched |
| Stages.DistinctLastAt | crypto_tracker_top.py:131-132 | in a list with no repeated dict, every position is the last one of its row, so the ranks run 1..k |
| Stages.FirstMax | crypto_tracker_top.py:169 | `max` returns a position holding the largest value, and no earlier position holds that value |
| Stages.FirstMin | crypto_tracker_top.py:170 | `min` returns a position holding the smallest value, and no earlier position holds that value |
| Stages.TopGainerOf | crypto_tracker_top.py:169 | the row picked is the first row with the largest change |
| Stages.TopLoserOf | crypto_tracker_top.py:170 | the row picked is the first row with the smallest change |
| Stages.PartitionCounts | crypto_tracker_top.py:164-166 | when every change is a number, the gainers, losers and neutral rows together account for the whole list |
| Coins.Field.Get | crypto_tracker_top.py:88 | `d.get(k)`: a present value as `Some`; a missing key and a stored `None` both as `None` |
| Coins.Field.GetOr | crypto_tracker_top.py:87 | `d.get(k, default)`: the default replaces only a missing key; a stored `None` stays `None` |
| Coins.NoneLastKey | crypto_tracker_top.py:104 | the sort key `rank if rank is not None else inf`; `Coins.NoneLastSorted` says what sorting by it means |
| Coins.GainerKey | crypto_tracker_top.py:128 | the negated change, so an ascending stable sort on it is `sorted(..., reverse=True)` on the change |
| Coins.LoserKey | crypto_tracker_top.py:148 | the change itself, for the ascending sort of the losers |
| Processor.Truthy | utils/processor.py:11 | Python truthiness of an optional number: false for `None` and for 0 |
| Processor.FalsyLastKey | utils/processor.py:33 | the sort key `rank if rank else inf`: a rank of 0 sorts with the missing ranks (`Processor.FalsyLastAgrees`, `Processor.RankZeroSortsLast`) |
| Sorting.SortBy | crypto_tracker_top.py:104 | `list.sort` and `sorted` with a key: a stable insertion sort, proved a permutation, sorted and stable, and the only function with all three properties (`Sorting.StableSortUnique`) |
| Sorting.Filter | crypto_tracker_top.py:121-125 | the append loops and comprehensions that keep the elements passing a test, in order (`Sorting.FilterMultiset`) |
| Sorting.SliceTo | crypto_tracker_top.py:128 | `s[:limit]` with Python's rules for a negative or too large limit; the result is a prefix of the list |
| Stages.ProjectAll | crypto_tracker_top.py:80-101 | the projection loop: every record projected in order, the first raising record aborting the list (`Stages.ProjectAllOk`, `Stages.ProjectAllRaised`) |
| Stages.Gainers | crypto_tracker_top.py:128 | the gainer ranking `sorted(gainers, key=change, reverse=True)[:limit]` (`Stages.GainersSpec`) |
| Stages.Losers | crypto_tracker_top.py:148 | the loser ranking `sorted(losers, key=change)[:limit]` (`Stages.LosersSpec`) |
| Stages.Percentage | crypto_tracker_top.py:177-178 | `count / total * 100` in true division (`Stages.PercentageBounds`) |
| Stages.PercentageBounds | crypto_tracker_top.py:177-178 | each percentage lies in [0, 100], and the gainer and loser percentages sum to at most 100 |
| Stages.SummaryOfParts | crypto_tracker_top.py:172-181 | a summary built from the counts, the percentages and the first extreme rows satisfies `SummaryOf` (counts partition the total; percentages are bounded; the top rows are the first extremes) |
| Coins.Upper | crypto_tracker_top.py:90 | `.upper()` keeps the length and upper-cases each character |
| Coins.UpperIsUpper | crypto_tracker_top.py:90 | an upper-cased symbol has no lower-case letter, and upper-casing it again changes nothing |
| Coins.NoneLastSorted | crypto_tracker_top.py:104 | sorted by the rank key means ranks ascend and no unranked record precedes a ranked one (both directions) |
| Sorting.SortByPermutes | crypto_tracker_top.py:104 | sorting is a permutation |
| Sorting.SortBySorted | crypto_tracker_top.py:104 | the result of sorting is ordered by the key |
| Sorting.SortByStable | crypto_tracker_top.py:104 | the elements with any given key keep their input order |
| Sorting.StableSortUnique | crypto_tracker_top.py:104 | any sorted permutation that keeps equal keys in input order equals `SortBy`, so it is Python's stable sort |
| Sorting.SortedUnique | crypto_tracker_top.py:104 | two sorted lists that have the same elements for every key are equal |
| Sorting.SortBySortedIsIdentity | crypto_tracker_top.py:104 | sorting an already sorted list changes nothing |
| Sorting.SortByCongruent | utils/processor.py:33 | two keys that agree on every element sort a list the same way |
| Sorting.SortByMap | crypto_tracker_top.py:104 | sorting objects by a key of what they hold, then reading what they hold, equals sorting those contents directly |
| Sorting.SliceToLength | crypto_tracker_top.py:128 | `s[:limit]` has the length given by Python's slice rule |
| Sorting.FilterConcat | crypto_tracker_top.py:121-125 | filtering a concatenation is concatenating the filtered parts |
| Sorting.FilterMultiset | crypto_tracker_top.py:164 | a filtered list holds exactly the elements that pass the test, and is no longer than the list |
| Sorting.DistinctMultiset | crypto_tracker_top.py:131-132 | a list has no repeats iff no element occurs twice in its multiset |
| Tracker.AddColumnsData | crypto_tracker.py:123-132 | the result is enhanced: today's date, a change, and a direction that matches the change |
| Tracker.AddColumnsAgrees | crypto_tracker.py:123-132 | `add_columns` writes exactly what the monolithic tracker's enhancer writes |
| Tracker.AddColumns | crypto_tracker.py:117-134 | the same list is returned; every dict in it holds `AddColumnsData` of its old contents |
| Tracker.Project | crypto_tracker.py:143-157 | `AttributeError` exactly when the symbol is a stored `None`; the values are stated by `Tracker.ProjectValues` |
| Tracker.ProjectValues | crypto_tracker.py:143-157 | the monolithic dict, except that a missing id, name, image, date or last_updated gives `None` (lines 144, 146, 150, 155, 156), and a stored `None` change stays `None` (line 153) |
| Tracker.ProjectAgreement | crypto_tracker.py:143-157 | this projection equals the monolithic one iff the symbol is `None`, or none of id, name, image, date and last_updated is missing and the change is not a stored `None` |
| Tracker.ProjectEnhancedAgreement | crypto_tracker.py:143-157 | on an enhanced dict, the two projections agree iff the symbol is `None` or none of id, name, image and last_updated is missing |
| Tracker.ProcessCryptoData | crypto_tracker.py:136-167 | `AttributeError` iff a `None` symbol; otherwise one row per record, holding the projections stably sorted by rank with `None` last, numbered 1..n |
| Tracker.GetMarketSummary | crypto_tracker.py:193-214 | the message exactly for the empty list; `TypeError` exactly when some change is `None`; otherwise the monolithic summary's figures, which satisfy `SummaryOf` |
| Processor.EnhanceData | utils/processor.py:8-12 | the result is enhanced: today's date, a change, and a direction that matches the change |
| Processor.EnhanceAgrees | utils/processor.py:11-12 | the truthiness test writes exactly what the `is None` test of the monolithic tracker writes |
| Processor.EnhanceAll | utils/processor.py:8-12 | the records of the list after enhancement, one per record, in order |
| Processor.AddEnhancedColumns | utils/processor.py:6-13 | the same list is returned; every dict in it holds the enhancement of its old contents |
| Processor.Project | utils/processor.py:18-32 | `AttributeError` exactly when the symbol is a stored `None`; the values are stated by `Processor.ProjectValues` |
| Processor.ProjectValues | utils/processor.py:18-32 | the monolithic dict, except that a stored `None` change stays `None` (line 24) |
| Processor.ProjectAgreement | utils/processor.py:18-32 | this projection equals the monolithic one iff the symbol is `None` or the change is not a stored `None` |
| Processor.ProjectEnhanced | utils/processor.py:24 | after enhancement the projected change is the stored number |
| Processor.FalsyLastAgrees | utils/processor.py:33 | when no rank is 0, the truthiness key sorts exactly as the `is None` key does |
| Processor.RankZeroSortsLast | utils/processor.py:33 | a record ranked 0 is sorted after one ranked 1 here, and before it under the `is None` key |
| Processor.ProcessCryptoData | utils/processor.py:15-36 | `AttributeError` iff a `None` symbol; otherwise new distinct rows holding the projections stably sorted by truthy rank, numbered 1..n, unranked |
| Analyzer.Comprehension | utils/analyzer.py:5 | the `> 0` and `< 0` comprehensions (lines 5, 12, 21, 22) succeed iff every change is a number, and then keep exactly the rows that pass; otherwise `TypeError` |
| Analyzer.GetTopGainers | utils/analyzer.py:4-9 | `TypeError` with nothing written iff some change is `None`; otherwise the specified gainer ranking, with ranks i+1 written and the other fields untouched |
| Analyzer.GetTopLosers | utils/analyzer.py:11-16 | `TypeError` with nothing written iff some change is `None`; otherwise the specified loser ranking, with ranks i+1 written and the other fields untouched |
| Analyzer.GenerateMarketSummary | utils/analyzer.py:18-35 | exactly the monolithic tracker's summary (the unguarded division is safe because the list is not empty); it satisfies `SummaryOf`; the `== 0` count of line 23, which cannot raise, is a plain filter |
| App.EnhancedProjectsKnown | utils/processor.py:24 | enhanced records project to records whose change is a number |
| App.RowsKnown | utils/processor.py:33 | rows holding those projections in any sorted order all have a known change |
| App.Prepare | main.py:23-24 | the fetched dicts are enhanced in place; `AttributeError` iff an original symbol is `None`; otherwise the rows are normalised, distinct, numbered 1..n, unranked and have known changes |
| App.RankBoth | main.py:26-27 | neither ranker raises; both rankings are the specified ones, with ranks 1..k; rows outside a ranking have no rank of that kind; the numbering stays |
| App.Rank | main.py:26-28 | the rankings as in `RankBoth`, and the summary of the same rows satisfies `SummaryOf` |
| App.Analyse | main.py:18-28 | nothing exactly for an empty fetch; the fetched dicts, which line 35 saves, end up holding the enhancement of their old contents; `AttributeError` iff a `None` symbol; otherwise normalised, numbered, ranked and summarised rows built from the enhanced fetch |

## Left out

- Fetching from the supplier, displaying and saving (`utils/fetcher.py`, `utils/display.py`, `utils/saver.py`, and the corresponding functions of both trackers) are not part of this model. Neither are the progress messages.
- The clock: `datetime.now().strftime('%d-%m-%Y')` is the parameter `today`.
- `float(price_change)`: values are modelled as numbers already, so a percentage that is not a number is not modelled. Such a value also splits the variants: `crypto_tracker_top.py:70` compares the raw value, while `utils/processor.py:12` compares the converted float.
- Tracker.GetMarketSummary: `get_market_summary` prints its figures and returns `None` (`crypto_tracker.py:209-214`); the model's `Report` stands for the printed figures, and the printing itself is not modelled.
- Python floats are modelled as exact reals. Rounding in the `len(...) / total * 100` percentages is not captured.
- `str.upper()` is modelled on ASCII letters only.
- A symbol that is present but not a string (so `.upper()` raises on something other than `None`) is not modelled. Only a stored `None` raises `AttributeError`.
- The analyzer's `c['price_change_24h']` would raise `KeyError` on a dict without that key. Normalisation always writes the key, so the model gives every row a change field and does not model the missing key.
- The `main` functions of both trackers, their `__main__` blocks and `setup_project.py` are not part of this model. `App.Analyse` models lines 18-28 of `main.py`.
- TrackerTop.GetTopGainers: states the rank only for each row at its last position in the ranking, since a dict listed twice would hold the later rank. On the distinct rows that normalisation builds, this covers every position (`Stages.DistinctLastAt`).
- TrackerTop.GetTopLosers: states the rank only for each row at its last position in the ranking, since a dict listed twice would hold the later rank. On the distinct rows that normalisation builds, this covers every position (`Stages.DistinctLastAt`).
- Analyzer.GetTopGainers: states the rank only for each row at its last position in the ranking, since a dict listed twice would hold the later rank. On the distinct rows that normalisation builds, this covers every position (`Stages.DistinctLastAt`).
- Analyzer.GetTopLosers: states the rank only for each row at its last position in the ranking, since a dict listed twice would hold the later rank. On the distinct rows that normalisation builds, this covers every position (`Stages.DistinctLastAt`).

### Behaviour a reader might not expect

- No variant checks the percentage's type. An unparseable value reaches `float(...)` or a comparison directly; there is no error of the tracker's own for it.
- A summary of an empty list never has percentages of 0. Every variant returns earlier: `{}` (`crypto_tracker_top.py:160-161`, `utils/analyzer.py:19`) or a message (`crypto_tracker.py:197-198`). The guards `if total_coins > 0 else 0` at `crypto_tracker_top.py:177-178` can never fire.
- The `None`-tolerant key of `max`/`min` at `crypto_tracker_top.py:169-170` never matters. The comprehension at line 164 raises `TypeError` on a `None` change first.
- The text fields default to `''` in `crypto_tracker_top.py` and `utils/processor.py`, but `crypto_tracker.py` keeps `None` for them and keeps a stored `None` change (`Tracker.ProjectValues`); `utils/processor.py:24` also keeps a stored `None` change (`Processor.ProjectValues`).
- The modular normaliser sorts on the truthiness of the rank (`utils/processor.py:33`), so a rank of 0 sorts with the missing ranks (`Processor.RankZeroSortsLast`). The enhancer's truthiness test on the percentage (`utils/processor.py:11`) has no visible effect, because 0 and 0.0 are the same value (`Processor.EnhanceAgrees`).
- The modular rankers (`utils/analyzer.py:5,12`) raise `TypeError` on a `None` change, where the monolithic ones skip it. After enhancement no change is `None`, so in `main.py` they never raise (`App.RankBoth`).
