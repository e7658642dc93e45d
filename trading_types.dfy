/** The shared trading value types: a price bar and a trade side. */
module TradingTypes {
  import opened Common

  /** One fixed-interval price bar. Times are epoch milliseconds; `closeTime` orders bars. */
  datatype Candle = Candle(
    openTime: int,
    open: real,
    high: real,
    low: real,
    close: real,
    volume: real,
    closeTime: int,
    quoteVolume: Option<real>,
    trades: Option<int>,
    takerBuyBaseVolume: Option<real>,
    takerBuyQuoteVolume: Option<real>)

  datatype Side = Long | Short
}
