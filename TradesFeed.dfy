/** The recent-trades panel (src/components/TradesFeed.tsx): the first 20
    trades of the store, each labelled with its model's colour and name,
    with fallbacks when the model is unknown. */
module TradesFeed {

  import opened Options
  import opened Seqs
  import opened ArenaTypes

  /** The panel shows at most this many trades. */
  const DisplayLimit: nat := 20

  /** The grey used for a trade whose model is unknown or has no colour. */
  const DefaultColor: string := "#6B7280"

  /** `allTrades.slice(0, 20)` */
  function DisplayedTrades(allTrades: seq<Trade>): (r: seq<Trade>)
    ensures |r| == Min(DisplayLimit, |allTrades|)
    ensures forall i :: 0 <= i < |r| ==> r[i] == allTrades[i]
  {
    Prefix(allTrades, DisplayLimit)
  }

  /** `m => m.id === modelId` */
  function HasId(modelId: ModelId): AIModel -> bool {
    (m: AIModel) => m.id == modelId
  }

  /** `models.find(m => m.id === modelId)?.color || '#6B7280'`: the colour of
      the first model with that id, unless there is none or it is empty. */
  function ModelColor(models: seq<AIModel>, modelId: ModelId): (c: string)
    ensures (forall i :: 0 <= i < |models| ==> models[i].id != modelId) ==> c == DefaultColor
    ensures forall i :: 0 <= i < |models| && models[i].id == modelId
                        && (forall j :: 0 <= j < i ==> models[j].id != modelId)
                        ==> c == (if models[i].color != "" then models[i].color else DefaultColor)
    ensures c != ""
  {
    match FindIndex(models, HasId(modelId))
    case Some(i) => if models[i].color != "" then models[i].color else DefaultColor
    case None => DefaultColor
  }

  /** `models.find(m => m.id === modelId)?.name || modelId`: the name of the
      first model with that id, falling back to the id itself. */
  function ModelName(models: seq<AIModel>, modelId: ModelId): (n: string)
    ensures (forall i :: 0 <= i < |models| ==> models[i].id != modelId) ==> n == modelId
    ensures forall i :: 0 <= i < |models| && models[i].id == modelId
                        && (forall j :: 0 <= j < i ==> models[j].id != modelId)
                        ==> n == (if models[i].name != "" then models[i].name else modelId)
  {
    match FindIndex(models, HasId(modelId))
    case Some(i) => if models[i].name != "" then models[i].name else modelId
    case None => modelId
  }
}
