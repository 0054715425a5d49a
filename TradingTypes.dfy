/** The records of the trading dashboard (src/types/index.ts). */
module TradingTypes {

  import opened Options

  datatype Personality = Personality(
    aggressiveness: real,
    confidence: real,
    riskTolerance: real,
    communicationStyle: string)

  datatype Agent = Agent(
    id: string,
    name: string,
    role: string,
    color: string,
    icon: string,
    isActive: bool,
    winRate: real,
    pnl: real,
    totalPnL: real,
    tradeCount: int,
    confidence: real,
    lastAction: string,
    personality: Personality)

  /** `Partial<Agent>`: each field is either given (`Some`) or absent. The
      nested `personality` record is replaced whole, as a shallow object
      spread does. */
  datatype AgentUpdate = AgentUpdate(
    id: Option<string>,
    name: Option<string>,
    role: Option<string>,
    color: Option<string>,
    icon: Option<string>,
    isActive: Option<bool>,
    winRate: Option<real>,
    pnl: Option<real>,
    totalPnL: Option<real>,
    tradeCount: Option<int>,
    confidence: Option<real>,
    lastAction: Option<string>,
    personality: Option<Personality>)

  datatype Position = Position(
    id: string,
    symbol: string,
    entryPrice: real,
    currentPrice: real,
    quantity: real,
    pnl: real,
    pnlPercentage: real,
    agentId: string)

  datatype ActivityType = Buy | Sell | Analyze | Info

  datatype Activity = Activity(
    id: string,
    time: real,
    kind: ActivityType,
    action: string,
    details: string,
    agentId: string)
}
