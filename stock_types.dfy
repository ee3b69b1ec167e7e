/** The shapes of src/types: a price point, the per-symbol record, the
    watch list, and the actions both reducers accept. */
module StockTypes {
  import opened Wrappers
  import opened Records

  type Symbol = string

  /** `StockDataPoint`: a price and its time in whole seconds. */
  datatype DataPoint = DataPoint(price: real, timestamp: int)

  /** `StockInfo`; an optional field that is `undefined` or absent is `None`. */
  datatype StockInfo = StockInfo(
    symbol: Symbol,
    alertPrice: Option<real>,
    latestPrice: Option<real>,
    data: seq<DataPoint>,
    lastUpdateTime: Option<int>)

  /** `State.stocks`: the watch list keyed by symbol. */
  type Stocks = Record<StockInfo>

  /** `Action`, the union both reducers switch on; `initialPrice` is the
      `price` field of `ADD_SYMBOL`. */
  datatype Action =
    | InitFromStorage(payload: Stocks)
    | AddSymbol(symbol: Symbol, alert: Option<real>, initialPrice: Option<real>)
    | RemoveSymbol(symbol: Symbol)
    | UpdatePrice(symbol: Symbol, price: real, timestamp: Option<int>)

  /** `Math.floor(ms / 1000)`: a millisecond clock reading in whole seconds. */
  function Seconds(ms: int): (s: int)
    ensures s * 1000 <= ms < s * 1000 + 1000
  {
    ms / 1000
  }

  /** A record whose history is non-empty reports its newest point as its
      latest price. */
  ghost predicate PriceConsistent(info: StockInfo) {
    info.data != [] ==> info.latestPrice == Some(info.data[|info.data| - 1].price)
  }

  /** Every record of the watch list is filed under its own symbol. */
  ghost predicate KeyedBySymbol(stocks: Stocks) {
    forall k :: k in stocks.entries ==> stocks.entries[k].symbol == k
  }
}
