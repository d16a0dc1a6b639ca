/**
 * The records the portfolio engine works on. Monetary amounts and share
 * quantities are exact reals; dates are whole day numbers.
 */
module Types {

  /** Direction of a transaction. */
  datatype TxnType = Buy | Sell

  /** One entry of the transaction log, as recorded by the user. */
  datatype Transaction = Transaction(
    id: string,
    symbol: string,
    name: string,
    kind: TxnType,
    quantity: real,
    pricePerShare: real,
    totalCost: real,
    date: int,
    exchange: string)

  /** A net position in one symbol, with its live-quote fields. */
  datatype Holding = Holding(
    symbol: string,
    name: string,
    quantity: real,
    bookCost: real,
    averageCostPerShare: real,
    currentPricePerShare: real,
    currentValue: real,
    gain: real,
    gainPercent: real,
    dayGain: real,
    dayGainPercent: real,
    annualizedGainPercent: real,
    firstPurchaseDate: int,
    exchange: string)

  /** A tracked symbol that is not held, measured against its price when added. */
  datatype WatchlistItem = WatchlistItem(
    symbol: string,
    name: string,
    dateAdded: int,
    priceWhenAdded: real,
    currentPrice: real,
    gainSinceAdded: real,
    gainSinceAddedPercent: real,
    dayGain: real,
    dayGainPercent: real,
    annualizedGainPercent: real,
    exchange: string)

  /** Portfolio-wide totals. */
  datatype PortfolioSummary = PortfolioSummary(
    totalValue: real,
    totalBookCost: real,
    totalGain: real,
    totalGainPercent: real,
    totalDayGain: real,
    totalDayGainPercent: real,
    annualizedGainPercent: real)

  /** The quote feed's entry for one symbol. */
  datatype Quote = Quote(price: real, previousClose: real)

  /** Current quotes by symbol. */
  type Prices = map<string, Quote>

  /** Math.pow, supplied by the caller. */
  type Pow = (real, real) -> real

  /** True when every live-quote field of a holding is still zero. */
  predicate LiveFieldsZero(h: Holding)
  {
    && h.currentPricePerShare == 0.0
    && h.currentValue == 0.0
    && h.gain == 0.0
    && h.gainPercent == 0.0
    && h.dayGain == 0.0
    && h.dayGainPercent == 0.0
    && h.annualizedGainPercent == 0.0
  }
}
