/** The constant fixtures the arena store starts from (src/data/mockModels.ts).
    The random generators of that file are not part of this model; the
    arrays they produce are parameters of the store's constructor. */
module MockModels {

  import opened ArenaTypes

  const Models: seq<AIModel> := [
    AIModel("gpt5", "GPT-5", "#10B981", "\U{1F9E0}",
      128450.82, 45200.30, 28450.82, 1240.50, 27210.32, 28.45, 68.5,
      4521.80, -1823.40, 1.85, -8.2, 127, 3.2, 82.0, true),
    AIModel("sonnet", "Sonnet-4.5", "#F97316", "\U{1F4DD}",
      115230.45, 38100.20, 15230.45, 980.25, 14250.20, 15.23, 71.2,
      3890.50, -1205.30, 1.62, -5.8, 98, 2.8, 79.0, true),
    AIModel("deepseek", "DeepSeek", "#0EA5E9", "\U{1F50D}",
      108920.30, 32450.15, 8920.30, 1120.40, 7799.90, 8.92, 64.8,
      2847.60, -1450.20, 1.42, -11.5, 142, 3.5, 75.0, false),
    AIModel("gemini", "Gemini 2.5 Pro", "#EC4899", "\U{1F48E}",
      97540.80, 28900.45, -2459.20, 1340.60, -3799.80, -2.46, 58.3,
      3120.70, -2890.40, 0.82, -15.3, 115, 4.1, 71.0, true),
    AIModel("grok", "Grok", "#8B5CF6", "\U{26A1}",
      92340.15, 25100.30, -7659.85, 1580.90, -9240.75, -7.66, 55.1,
      2650.30, -3240.80, 0.65, -18.9, 156, 4.8, 68.0, false)
  ]

  const MarketPrices: seq<MarketPrice> := [
    MarketPrice("BTC", 43720.50, 2.34),
    MarketPrice("ETH", 2284.80, -1.12),
    MarketPrice("SOL", 101.20, 5.67)
  ]
}
