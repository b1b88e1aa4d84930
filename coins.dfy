/**
 * The records the pipeline passes around.
 *
 * A market entry from the supplier is a mutable Python dict; enhancement adds
 * three keys to it in place. It is modelled as a `Coin` object holding one
 * `RawData` value, so that "the same dict, updated" is an assignment to
 * `Coin.data`. A key of such a dict may be missing, present with `None`, or
 * present with a value, and `dict.get(k, default)` tells the first two apart,
 * hence `Field`.
 *
 * Normalisation builds a new dict per entry with a fixed set of keys
 * (`Record`), then the numbering pass and the two rankers add `number`,
 * `gainer_rank` and `loser_rank` to those very dicts. That is a `Row`: the
 * projected fields never change after creation (a `const`), the three added
 * keys are mutable and `None` while absent.
 */
module Coins {
  import opened Wrappers
  import opened Sorting

  /** One key of a Python dict. */
  datatype Field<+T> = Absent | Null | Present(value: T) {
    /** `d.get(k)`: missing and `None` both read as `None`. */
    function Get(): Option<T> {
      if Present? then Some(value) else None
    }

    /** `d.get(k, default)`: the default replaces a missing key only; a stored `None` stays `None`. */
    function GetOr(default: T): Option<T> {
      match this
      case Absent => Some(default)
      case Null => None
      case Present(v) => Some(v)
    }
  }

  /** The two values of `change_symbol`. */
  datatype Direction = UP | DOWN

  /** One supplier record, including the three keys that enhancement writes. */
  datatype RawData = RawData(
    id: Field<string>,
    symbol: Field<string>,
    name: Field<string>,
    image: Field<string>,
    currentPrice: Field<real>,
    marketCap: Field<real>,
    marketCapRank: Field<int>,
    totalVolume: Field<real>,
    ath: Field<real>,
    priceChangePercentage24h: Field<real>,
    lastUpdated: Field<string>,
    date: Field<string>,
    priceChange24h: Field<real>,
    changeSymbol: Field<Direction>)

  /** A supplier dict: one object, updated in place. */
  class Coin {
    var data: RawData

    constructor (data: RawData)
      ensures this.data == data
    {
      this.data := data;
    }
  }

  function CoinDatas(coins: seq<Coin>): (ds: seq<RawData>)
    reads coins
    ensures |ds| == |coins| && forall i :: 0 <= i < |coins| ==> ds[i] == coins[i].data
  {
    if coins == [] then [] else [coins[0].data] + CoinDatas(coins[1..])
  }

  /** A record after enhancement: the capture date is stamped and the direction agrees with the stored change. */
  predicate Enhanced(e: RawData, today: string) {
    && e.date == Present(today)
    && e.priceChange24h.Present?
    && e.changeSymbol == Present(if e.priceChange24h.value > 0.0 then UP else DOWN)
  }

  /** The fixed-shape dict built by normalisation; no other key of the source record survives. */
  datatype Record = Record(
    id: Option<string>,
    rank: Option<int>,
    name: Option<string>,
    symbol: string,
    currentPrice: Option<real>,
    priceChange24h: Option<real>,
    changeSymbol: Option<Direction>,
    marketCap: Option<real>,
    volume24h: Option<real>,
    ath: Option<real>,
    image: Option<string>,
    date: Option<string>,
    lastUpdated: Option<string>)

  /** A normalised dict, shared by reference between the processed list and the ranked subsets. */
  class Row {
    const data: Record
    var number: Option<int>
    var gainerRank: Option<int>
    var loserRank: Option<int>

    constructor (data: Record)
      ensures this.data == data
      ensures number == None && gainerRank == None && loserRank == None
    {
      this.data := data;
      number, gainerRank, loserRank := None, None, None;
    }
  }

  function RowData(r: Row): Record {
    r.data
  }

  /** The records behind a list of rows. */
  function RowDatas(rows: seq<Row>): seq<Record> {
    Map(rows, RowData)
  }

  // ---------------------------------------------------------------------------
  // `str.upper()` on ASCII letters

  function UpperChar(c: char): char {
    if 'a' <= c <= 'z' then (c as int - 'a' as int + 'A' as int) as char else c
  }

  function Upper(s: string): (r: string)
    ensures |r| == |s|
    ensures forall i :: 0 <= i < |s| ==> r[i] == UpperChar(s[i])
  {
    if s == [] then [] else [UpperChar(s[0])] + Upper(s[1..])
  }

  /** An upper-cased symbol holds no lower-case letter, and upper-casing it again changes nothing. */
  lemma UpperIsUpper(s: string)
    ensures forall i :: 0 <= i < |Upper(s)| ==> !('a' <= Upper(s)[i] <= 'z')
    ensures Upper(Upper(s)) == Upper(s)
  {
  }

  // ---------------------------------------------------------------------------
  // Reading the 24h change of a normalised row

  /** `x.get('price_change_24h', 0)` with `None` read as 0, the key the rankers and `max`/`min` sort on. */
  function Change(r: Row): real {
    r.data.priceChange24h.GetOr(0.0)
  }

  /** The change is a number, so comparing it with 0 does not raise. */
  predicate Known(r: Row) {
    r.data.priceChange24h.Some?
  }

  predicate AllKnown(rows: seq<Row>) {
    forall r :: r in rows ==> Known(r)
  }

  predicate IsGainer(r: Row) {
    r.data.priceChange24h.Some? && r.data.priceChange24h.value > 0.0
  }

  predicate IsLoser(r: Row) {
    r.data.priceChange24h.Some? && r.data.priceChange24h.value < 0.0
  }

  predicate IsNeutral(r: Row) {
    r.data.priceChange24h.Some? && r.data.priceChange24h.value == 0.0
  }

  /** Gainers sort descending (`reverse=True`, which Python keeps stable): ascending on the negated change. */
  function GainerKey(r: Row): Key {
    Finite(-Change(r))
  }

  function LoserKey(r: Row): Key {
    Finite(Change(r))
  }

  /** `x['rank'] if x['rank'] is not None else float('inf')` */
  function NoneLastKey(d: Record): Key {
    if d.rank.Some? then Finite(d.rank.value as real) else Infinite
  }

  /** Sorted by `NoneLastKey` means: ranks ascend, and no record without a rank precedes one with a rank. */
  lemma NoneLastSorted(s: seq<Record>)
    ensures Sorted(s, NoneLastKey) <==>
      forall i, j :: 0 <= i < j < |s| ==>
        (s[i].rank.None? ==> s[j].rank.None?) &&
        (s[i].rank.Some? && s[j].rank.Some? ==> s[i].rank.value <= s[j].rank.value)
  {
    if Sorted(s, NoneLastKey) {
      forall i, j | 0 <= i < j < |s|
        ensures s[i].rank.None? ==> s[j].rank.None?
      {
        assert KeyLe(NoneLastKey(s[i]), NoneLastKey(s[j]));
      }
    }
  }
}
