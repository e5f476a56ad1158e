/** The records of the tracker's data model. JavaScript numbers are modelled as exact
    reals (prices, amounts, percentages) and ISO timestamps as opaque strings. An
    optional property (`currentPrice?`, `triggeredAt?`, `sparkline?`) is an `Option`. */
module Types {
  import opened Seqs

  /** A coin as the coin list shows it. */
  datatype SimpleCoin = SimpleCoin(
    id: string,
    symbol: string,
    name: string,
    image: string,
    price: real,
    change24h: real,
    marketCap: real,
    rank: int,
    sparkline: Option<seq<real>>)

  /** One position the user holds; `currentPrice` is filled in by price refreshes. */
  datatype Holding = Holding(
    id: string,
    coinId: string,
    coinName: string,
    coinSymbol: string,
    coinImage: string,
    amount: real,
    buyPrice: real,
    buyDate: string,
    currentPrice: Option<real>)

  /** A holding together with its derived valuation. */
  datatype HoldingWithValue = HoldingWithValue(
    holding: Holding,
    currentValue: real,
    profitLoss: real,
    profitLossPercentage: real)

  datatype PortfolioSummary = PortfolioSummary(
    totalValue: real,
    totalCost: real,
    profitLoss: real,
    profitLossPercentage: real,
    holdings: seq<HoldingWithValue>)

  datatype Direction = Above | Below

  /** A price alert: `isActive` suspends it, `isTriggered` is sticky until reset. */
  datatype PriceAlert = PriceAlert(
    id: string,
    coinId: string,
    coinName: string,
    coinSymbol: string,
    coinImage: string,
    targetPrice: real,
    direction: Direction,
    isActive: bool,
    isTriggered: bool,
    createdAt: string,
    triggeredAt: Option<string>)

  /** A `Record<string, number>` from coin id to price. */
  type PriceMap = map<string, real>

  /** One entry of the prices endpoint's answer: `usd` and the optional `usd_24h_change`. */
  datatype PriceQuote = PriceQuote(usd: real, usd24hChange: Option<real>)
}
