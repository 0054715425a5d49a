/** The records of the arena dashboard (src/types/models.ts). Prices, values
    and percentages are JavaScript numbers and are modelled as `real`;
    nullable numbers are `Option<real>`. */
module ArenaTypes {

  import opened Options

  /** A model identifier; lookups accept any string, so it is not narrowed
      to the five fixture identifiers. */
  type ModelId = string

  datatype TradeSide = Long | Short

  datatype AIModel = AIModel(
    id: ModelId,
    name: string,
    color: string,
    glyph: string,
    accountValue: real,
    availableCash: real,
    totalPnL: real,
    totalFees: real,
    netRealized: real,
    returnPercentage: real,
    winRate: real,
    biggestWin: real,
    biggestLoss: real,
    sharpeRatio: real,
    maxDrawdown: real,
    totalTrades: int,
    avgLeverage: real,
    avgConfidence: real,
    isActivelyTrading: bool)

  datatype Trade = Trade(
    id: string,
    modelId: ModelId,
    side: TradeSide,
    coin: string,
    coinEmoji: string,
    entryPrice: real,
    exitPrice: Option<real>,
    quantity: real,
    leverage: real,
    entryTime: real,
    exitTime: Option<real>,
    holdingTimeMs: Option<real>,
    notionalEntry: real,
    notionalExit: Option<real>,
    totalFees: real,
    netPnL: Option<real>,
    isActive: bool)

  datatype ExitPlan = ExitPlan(takeProfit: real, stopLoss: real, invalidationNote: string)

  datatype Position = Position(
    id: string,
    modelId: ModelId,
    side: TradeSide,
    coin: string,
    coinEmoji: string,
    entryPrice: real,
    currentPrice: real,
    quantity: real,
    leverage: real,
    entryTime: real,
    liquidationPrice: real,
    margin: real,
    unrealizedPnL: real,
    exitPlan: Option<ExitPlan>)

  datatype EquityPoint = EquityPoint(
    timestamp: real,
    deepseek: real,
    gpt5: real,
    sonnet: real,
    gemini: real,
    grok: real,
    bitcoin: real)

  datatype MarketPrice = MarketPrice(symbol: string, price: real, change24h: real)

  /** `LeaderboardModel extends AIModel`: the model's own fields are kept
      whole in `model`, next to the computed rank and rank change. */
  datatype LeaderboardModel = LeaderboardModel(model: AIModel, rank: int, rankChange: int)

  datatype TimeRange = All | Hours72 | Days7 | Hours24
}
