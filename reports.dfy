/** The structured report the generator returns. The source reads it as a
    dictionary with `dict.get(key, default)`; here every key is an optional
    field, and the value of a present field is the text an f-string renders. */
module Reports {
  import opened Wrappers

  /** One stock pick; every field may be absent. */
  datatype Pick = Pick(
    symbol: Option<string>,
    exchange: Option<string>,
    sector: Option<string>,
    reason: Option<string>,
    entryLow: Option<string>,
    entryHigh: Option<string>,
    target: Option<string>,
    upside: Option<string>,
    stopLoss: Option<string>,
    riskReward: Option<string>,
    holdingPeriod: Option<string>)

  /** One generated report; every field may be absent. */
  datatype Report = Report(
    sentiment: Option<string>,
    niftyLevel: Option<string>,
    niftyOpenEstimate: Option<string>,
    theme: Option<string>,
    daySummary: Option<string>,
    nextDayOutlook: Option<string>,
    globalCues: Option<string>,
    keyEvents: Option<string>,
    disclaimer: Option<string>,
    stocks: Option<seq<Pick>>,
    sectorsToWatch: Option<seq<string>>,
    avoidSectors: Option<seq<string>>)

  /** Python truthiness of a text field read with `report.get(key)`: present and non-empty. */
  predicate Truthy(f: Option<string>) {
    f.Some? && f.value != ""
  }

  /** Python truthiness of a list field read with `report.get(key)`: present and non-empty. */
  predicate NonEmptyList(f: Option<seq<string>>) {
    f.Some? && f.value != []
  }

  /** `report.get("stocks", [])`. */
  function Stocks(r: Report): seq<Pick> {
    r.stocks.GetOr([])
  }

  function Min(a: int, b: int): int {
    if a <= b then a else b
  }

  /** Python's slice `s[:n]`: the first `n` elements, or all of them when there are fewer. */
  function Take<T>(s: seq<T>, n: nat): (r: seq<T>)
    ensures |r| == Min(|s|, n)
    ensures r == s[..|r|]
  {
    if |s| <= n then s else s[..n]
  }
}
