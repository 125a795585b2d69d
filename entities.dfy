/**
 * The market-data records (internal/api/types.go) reduced to what the core
 * looks at, and the names of the bulk collections and endpoints.
 */
module Entities {
  import opened Wrappers
  import opened Types

  /**
   * Every record kind (Security, Bond, Option, Future, Index, MarketSummary,
   * News, IncomeStatement) as its Symbol plus the remaining fields, which the
   * core only carries and never inspects. News has no Symbol: its symbol is "".
   */
  datatype Record = Record(symbol: string, payload: seq<int>)

  type Security = Record
  type Bond = Record

  /** The eleven bulk collections, one cache slot each. */
  datatype Category =
    | Bluechips | Cedears | Galpones
    | Bonds | ShortTermBonds | CorporateBonds
    | Options | Futures | Indices | MarketSummary | News

  /** What a fetch asks the exchange for: a bulk collection, or one ticker's income statements. */
  datatype Endpoint = Bulk(category: Category) | IncomeStatements(ticker: string)

  /** What a per-endpoint fetcher returns: the parsed records, or the error. */
  type FetchResult = Result<seq<Record>, Error>
}
