/** The arena store (src/store/useArenaStore.ts): the model list, the
    leaderboard derived from it, the trade and position lists, market ticks
    and the UI selections, as one object whose actions replace its fields. */
module ArenaStore {

  import opened Options
  import opened Seqs
  import opened ArenaTypes
  import MockModels

  /* ---------------- Leaderboard ordering ---------------- */

  /** Returns never increase along `s`. */
  predicate NonIncreasing(s: seq<AIModel>) {
    forall i, j :: 0 <= i < j < |s| ==> s[i].returnPercentage >= s[j].returnPercentage
  }

  /** The models whose return is exactly `v`: the ones a stable sort by
      return must keep in input order. */
  function WithReturn(v: real): AIModel -> bool {
    (m: AIModel) => m.returnPercentage == v
  }

  /** The same ordering stated step by step: each return is at least the
      next one. The insertion sort is proved against this form, because
      one insertion step only compares neighbours; `NonIncreasing` is the
      form the leaderboard's contract states, and the two lemmas below
      show the two agree. */
  predicate Descending(s: seq<AIModel>) {
    |s| <= 1 || (s[0].returnPercentage >= s[1].returnPercentage && Descending(s[1..]))
  }

  lemma {:induction false} DescendingIsNonIncreasing(s: seq<AIModel>)
    requires Descending(s)
    ensures NonIncreasing(s)
  {
    if |s| > 1 {
      DescendingIsNonIncreasing(s[1..]);
      forall i, j | 0 <= i < j < |s|
        ensures s[i].returnPercentage >= s[j].returnPercentage
      {
        if i > 0 {
          assert s[i] == s[1..][i - 1] && s[j] == s[1..][j - 1];
        } else if j > 1 {
          assert s[1] == s[1..][0] && s[j] == s[1..][j - 1];
        }
      }
    }
  }

  lemma {:induction false} NonIncreasingIsDescending(s: seq<AIModel>)
    requires NonIncreasing(s)
    ensures Descending(s)
  {
    if |s| > 1 {
      NonIncreasingIsDescending(s[1..]);
    }
  }

  /** Places `m` before the first element whose return is not larger than
      its own. This is one step of a stable sort under the comparator
      `(a, b) => b.returnPercentage - a.returnPercentage`. */
  function InsertByReturn(m: AIModel, s: seq<AIModel>): (r: seq<AIModel>)
    ensures |r| == |s| + 1
  {
    if s == [] || m.returnPercentage >= s[0].returnPercentage then [m] + s
    else [s[0]] + InsertByReturn(m, s[1..])
  }

  /** One insertion adds exactly `m`, and keeps a descending list
      descending. */
  lemma {:induction false} InsertByReturnSpec(m: AIModel, s: seq<AIModel>)
    ensures multiset(InsertByReturn(m, s)) == multiset(s) + multiset{m}
    ensures InsertByReturn(m, s)[0] == m || (s != [] && InsertByReturn(m, s)[0] == s[0])
    ensures Descending(s) ==> Descending(InsertByReturn(m, s))
  {
    if s != [] && m.returnPercentage < s[0].returnPercentage {
      InsertByReturnSpec(m, s[1..]);
      assert s == [s[0]] + s[1..];
    }
  }

  /** `[...models].sort((a, b) => b.returnPercentage - a.returnPercentage)`.
      The engine's sort is stable, so models with equal returns keep their
      input order; an insertion sort has the same result. */
  function SortByReturn(s: seq<AIModel>): (r: seq<AIModel>)
    ensures |r| == |s|
  {
    if s == [] then [] else InsertByReturn(s[0], SortByReturn(s[1..]))
  }

  lemma {:induction false} SortByReturnDescending(s: seq<AIModel>)
    ensures multiset(SortByReturn(s)) == multiset(s)
    ensures Descending(SortByReturn(s))
  {
    if s != [] {
      SortByReturnDescending(s[1..]);
      InsertByReturnSpec(s[0], SortByReturn(s[1..]));
      assert s == [s[0]] + s[1..];
    }
  }

  /** The sorted copy is a permutation of the models whose returns never
      increase. */
  lemma SortByReturnSpec(s: seq<AIModel>)
    ensures multiset(SortByReturn(s)) == multiset(s)
    ensures NonIncreasing(SortByReturn(s))
  {
    SortByReturnDescending(s);
    DescendingIsNonIncreasing(SortByReturn(s));
  }

  lemma {:induction false} InsertByReturnFilter(m: AIModel, s: seq<AIModel>, v: real)
    ensures Filter(InsertByReturn(m, s), WithReturn(v))
         == (if m.returnPercentage == v then [m] else []) + Filter(s, WithReturn(v))
  {
    var p := WithReturn(v);
    if s == [] || m.returnPercentage >= s[0].returnPercentage {
      FilterAppend([m], s, p);
    } else {
      var tail := InsertByReturn(m, s[1..]);
      InsertByReturnFilter(m, s[1..], v);
      FilterAppend([s[0]], tail, p);
      FilterAppend([s[0]], s[1..], p);
      assert [s[0]] + s[1..] == s;
      if m.returnPercentage == v {
        assert Filter([s[0]], p) == [];
      }
    }
  }

  /** Stability: among models with the same return, the sorted order is the
      input order. */
  lemma {:induction false} SortByReturnStable(s: seq<AIModel>, v: real)
    ensures Filter(SortByReturn(s), WithReturn(v)) == Filter(s, WithReturn(v))
  {
    if s != [] {
      var p := WithReturn(v);
      SortByReturnStable(s[1..], v);
      InsertByReturnFilter(s[0], SortByReturn(s[1..]), v);
      assert Filter(s, p) == (if p(s[0]) then [s[0]] else []) + Filter(s[1..], p);
    }
  }

  /** A list already in non-increasing order of return is left as it is. */
  lemma {:induction false} SortByReturnOfSorted(s: seq<AIModel>)
    requires NonIncreasing(s)
    ensures SortByReturn(s) == s
  {
    NonIncreasingIsDescending(s);
    SortedIsFixed(s);
  }

  lemma {:induction false} SortedIsFixed(s: seq<AIModel>)
    requires Descending(s)
    ensures SortByReturn(s) == s
  {
    if s != [] {
      SortedIsFixed(s[1..]);
      assert [s[0]] + s[1..] == s;
    }
  }

  /* ---------------- Ranking ---------------- */

  /** `sorted.map((model, index) => ({ ...model, rank: index + 1, rankChange: 0 }))` */
  function Ranked(sorted: seq<AIModel>): (r: seq<LeaderboardModel>)
    ensures |r| == |sorted|
    ensures forall i :: 0 <= i < |r| ==> r[i].model == sorted[i] && r[i].rank == i + 1 && r[i].rankChange == 0
  {
    seq(|sorted|, i requires 0 <= i < |sorted| => LeaderboardModel(sorted[i], i + 1, 0))
  }

  /** The model records inside leaderboard entries, in leaderboard order. */
  function Unranked(entries: seq<LeaderboardModel>): (r: seq<AIModel>)
    ensures |r| == |entries|
  {
    seq(|entries|, i requires 0 <= i < |entries| => entries[i].model)
  }

  /** The leaderboard that `calculateLeaderboard` computes from `models`:
      a permutation of the models, best return first, densely ranked from 1,
      with every rank change 0. */
  function LeaderboardOf(models: seq<AIModel>): (r: seq<LeaderboardModel>)
    ensures |r| == |models|
    ensures multiset(Unranked(r)) == multiset(models)
    ensures forall i, j :: 0 <= i < j < |r| ==> r[i].model.returnPercentage >= r[j].model.returnPercentage
    ensures forall i :: 0 <= i < |r| ==> r[i].rank == i + 1 && r[i].rankChange == 0
  {
    var sorted := SortByReturn(models);
    SortByReturnSpec(models);
    UnrankedOfRanked(sorted);
    Ranked(sorted)
  }

  /** Ties in return keep the order the models have in the store. */
  lemma LeaderboardOfStable(models: seq<AIModel>, v: real)
    ensures Filter(Unranked(LeaderboardOf(models)), WithReturn(v)) == Filter(models, WithReturn(v))
  {
    var sorted := SortByReturn(models);
    assert Unranked(Ranked(sorted)) == sorted;
    SortByReturnStable(models, v);
  }

  /* ---------------- Account value ---------------- */

  /** `models.reduce((sum, m) => sum + m.accountValue, 0)` */
  function TotalAccountValue(models: seq<AIModel>): real {
    if models == [] then 0.0 else models[0].accountValue + TotalAccountValue(models[1..])
  }

  /** The sum splits over any cut of the model list, as a left fold of
      `+` from 0 does. */
  lemma {:induction false} TotalAccountValueAppend(a: seq<AIModel>, b: seq<AIModel>)
    ensures TotalAccountValue(a + b) == TotalAccountValue(a) + TotalAccountValue(b)
  {
    if a != [] {
      TotalAccountValueAppend(a[1..], b);
      assert (a + b)[1..] == a[1..] + b;
    } else {
      assert a + b == b;
    }
  }

  /* ---------------- Market ticks ---------------- */

  /** A value `Math.random()` can return. */
  predicate IsDraw(d: real) {
    0.0 <= d < 1.0
  }

  /** One tick's price: `price * (1 + (draw - 0.5) * 0.001)`, `draw` being
      the value of `Math.random()`. */
  function Jittered(price: real, draw: real): (r: real)
    ensures price > 0.0 ==> (r > price <==> draw > 0.5) && (r == price <==> draw == 0.5)
  {
    price * (1.0 + (draw - 0.5) * 0.001)
  }

  /** A tick moves a price by less than 0.05% either way, so a positive
      price stays positive. */
  lemma JitteredBounds(price: real, draw: real)
    requires price > 0.0 && IsDraw(draw)
    ensures 0.9995 * price <= Jittered(price, draw) < 1.0005 * price
    ensures Jittered(price, draw) > 0.0
  {
    var f := 1.0 + (draw - 0.5) * 0.001;
    assert 0.9995 <= f < 1.0005;
    assert price * 0.9995 <= price * f by {
      assert price * (f - 0.9995) >= 0.0;
    }
    assert price * f < price * 1.0005 by {
      assert price * (1.0005 - f) > 0.0;
    }
  }

  /** `latencyMs: Math.floor(Math.random() * 30) + 35` */
  function Latency(draw: real): (ms: int)
    requires IsDraw(draw)
    ensures 35 <= ms <= 64
  {
    (draw * 30.0).Floor + 35
  }

  predicate AllPositive(prices: seq<MarketPrice>) {
    forall i :: 0 <= i < |prices| ==> prices[i].price > 0.0
  }

  /** `marketPrices.map(price => ({ ...price, price: <jittered> }))`: the
      same symbols in the same order, each price moved by its own draw. */
  function JitterPrices(prices: seq<MarketPrice>, draws: seq<real>): (r: seq<MarketPrice>)
    requires |draws| == |prices|
    ensures |r| == |prices|
    ensures forall i :: 0 <= i < |r| ==> r[i].symbol == prices[i].symbol && r[i].change24h == prices[i].change24h
  {
    seq(|prices|, i requires 0 <= i < |prices| => prices[i].(price := Jittered(prices[i].price, draws[i])))
  }

  /** One tick keeps every price positive; by the postcondition of
      `UpdateMarketPrices`, so does any run of ticks. */
  lemma JitterPricesPositive(prices: seq<MarketPrice>, draws: seq<real>)
    requires |draws| == |prices|
    requires forall i :: 0 <= i < |draws| ==> IsDraw(draws[i])
    requires AllPositive(prices)
    ensures AllPositive(JitterPrices(prices, draws))
  {
    forall i | 0 <= i < |prices|
      ensures JitterPrices(prices, draws)[i].price > 0.0
    {
      JitteredBounds(prices[i].price, draws[i]);
    }
  }

  /* ---------------- The store ---------------- */

  class Store {
    var models: seq<AIModel>
    var leaderboard: seq<LeaderboardModel>
    var allTrades: seq<Trade>
    var positions: seq<Position>
    var equityCurve: seq<EquityPoint>
    var marketPrices: seq<MarketPrice>
    var blockHeight: int
    var latencyMs: int
    var selectedModelId: Option<ModelId>
    var timeRange: TimeRange
    var walletConnected: bool
    var totalAccountValue: real
    var total24hChange: real

    /** The initial state; `trades`, `openPositions` and `curve` are what the
        random fixture generators returned. The leaderboard starts empty
        until `CalculateLeaderboard` runs. */
    constructor (trades: seq<Trade>, openPositions: seq<Position>, curve: seq<EquityPoint>)
      ensures models == MockModels.Models && leaderboard == []
      ensures allTrades == trades && positions == openPositions && equityCurve == curve
      ensures marketPrices == MockModels.MarketPrices
      ensures blockHeight == 245678901 && latencyMs == 45
      ensures selectedModelId == None && timeRange == All && !walletConnected
      ensures totalAccountValue == TotalAccountValue(models) && total24hChange == 4.23
    {
      models := MockModels.Models;
      leaderboard := [];
      allTrades := trades;
      positions := openPositions;
      equityCurve := curve;
      marketPrices := MockModels.MarketPrices;
      blockHeight := 245678901;
      latencyMs := 45;
      selectedModelId := None;
      timeRange := All;
      walletConnected := false;
      totalAccountValue := TotalAccountValue(MockModels.Models);
      total24hChange := 4.23;
    }

    method SetSelectedModel(modelId: Option<ModelId>)
      modifies this`selectedModelId
      ensures selectedModelId == modelId
    {
      selectedModelId := modelId;
    }

    method SetTimeRange(range: TimeRange)
      modifies this`timeRange
      ensures timeRange == range
    {
      timeRange := range;
    }

    method SetWalletConnected(connected: bool)
      modifies this`walletConnected
      ensures walletConnected == connected
    {
      walletConnected := connected;
    }

    /** One market tick. `priceDraws` and `latencyDraw` are the values
        `Math.random()` returned for it. */
    method UpdateMarketPrices(priceDraws: seq<real>, latencyDraw: real)
      requires |priceDraws| == |marketPrices|
      requires forall i :: 0 <= i < |priceDraws| ==> IsDraw(priceDraws[i])
      requires IsDraw(latencyDraw)
      modifies this`marketPrices, this`latencyMs, this`blockHeight
      ensures blockHeight == old(blockHeight) + 1
      ensures marketPrices == JitterPrices(old(marketPrices), priceDraws)
      ensures 35 <= latencyMs <= 64 && latencyMs == Latency(latencyDraw)
      ensures old(AllPositive(marketPrices)) ==> AllPositive(marketPrices)
    {
      if AllPositive(marketPrices) {
        JitterPricesPositive(marketPrices, priceDraws);
      }
      marketPrices := JitterPrices(marketPrices, priceDraws);
      latencyMs := Latency(latencyDraw);
      blockHeight := blockHeight + 1;
    }

    /** Recomputes the leaderboard from scratch; the model list itself is
        not reordered (the sort works on a copy). */
    method CalculateLeaderboard()
      modifies this`leaderboard
      ensures leaderboard == LeaderboardOf(models)
      ensures multiset(Unranked(leaderboard)) == multiset(models)
      ensures forall i :: 0 <= i < |leaderboard| ==> leaderboard[i].rank == i + 1 && leaderboard[i].rankChange == 0
    {
      leaderboard := LeaderboardOf(models);
    }

    /** `allTrades.filter(trade => trade.modelId === modelId)` */
    function GetModelTrades(modelId: ModelId): (r: seq<Trade>)
      reads this
      ensures forall t :: t in r <==> t in allTrades && t.modelId == modelId
      ensures forall t :: multiset(r)[t] == if t.modelId == modelId then multiset(allTrades)[t] else 0
      ensures IsSubsequence(r, allTrades)
      ensures (forall t :: t in allTrades ==> t.modelId != modelId) ==> r == []
    {
      var byModel := (t: Trade) => t.modelId == modelId;
      FilterSpec(allTrades, byModel);
      Filter(allTrades, byModel)
    }

    /** `positions.filter(pos => pos.modelId === modelId)` */
    function GetModelPositions(modelId: ModelId): (r: seq<Position>)
      reads this
      ensures forall p :: p in r <==> p in positions && p.modelId == modelId
      ensures forall p :: multiset(r)[p] == if p.modelId == modelId then multiset(positions)[p] else 0
      ensures IsSubsequence(r, positions)
      ensures (forall p :: p in positions ==> p.modelId != modelId) ==> r == []
    {
      var byModel := (p: Position) => p.modelId == modelId;
      FilterSpec(positions, byModel);
      Filter(positions, byModel)
    }
  }

  /* ---------------- The fixture ---------------- */

  /** Each return at least the next one is enough for the whole list. */
  lemma {:induction false} AdjacentDescending(s: seq<AIModel>)
    requires forall i :: 0 <= i < |s| - 1 ==> s[i].returnPercentage >= s[i + 1].returnPercentage
    ensures Descending(s)
  {
    if |s| > 1 {
      AdjacentDescending(s[1..]);
    }
  }

  lemma MockModelsDescending()
    ensures Descending(MockModels.Models)
  {
    var s := MockModels.Models;
    assert s[0].returnPercentage == 28.45 && s[1].returnPercentage == 15.23;
    assert s[2].returnPercentage == 8.92 && s[3].returnPercentage == -2.46;
    assert s[4].returnPercentage == -7.66;
    AdjacentDescending(s);
  }

  /** The fixture is listed best return first (28.45, 15.23, 8.92, -2.46,
      -7.66), so its leaderboard keeps that order with ranks 1 to 5. */
  lemma MockLeaderboard()
    ensures Unranked(LeaderboardOf(MockModels.Models)) == MockModels.Models
    ensures |LeaderboardOf(MockModels.Models)| == 5
    ensures LeaderboardOf(MockModels.Models)[0].model.id == "gpt5"
    ensures LeaderboardOf(MockModels.Models)[4].model.id == "grok"
  {
    MockModelsDescending();
    SortedIsFixed(MockModels.Models);
    LeaderboardOfUnranked(MockModels.Models);
  }

  /** The initial total account value of the fixture. */
  lemma MockTotalAccountValue()
    ensures TotalAccountValue(MockModels.Models) == 542482.52
  {
    var s := MockModels.Models;
    assert s[1..][1..][1..][1..][1..] == [];
  }

  /** Three models listed with returns 10, 25 and -5 rank 25 first, then 10,
      then -5. */
  lemma ReorderingExample(a: AIModel, b: AIModel, c: AIModel)
    requires a.returnPercentage == 10.0 && b.returnPercentage == 25.0 && c.returnPercentage == -5.0
    ensures Unranked(LeaderboardOf([a, b, c])) == [b, a, c]
  {
    assert SortByReturn([c]) == [c] by {
      assert [c][1..] == [];
    }
    assert SortByReturn([b, c]) == [b, c] by {
      assert [b, c][1..] == [c];
    }
    assert InsertByReturn(a, [c]) == [a, c] by {
      assert [c][1..] == [];
    }
    assert SortByReturn([a, b, c]) == [b, a, c] by {
      assert [a, b, c][1..] == [b, c];
      assert [b, c][1..] == [c];
    }
    LeaderboardOfUnranked([a, b, c]);
  }

  lemma LeaderboardOfUnranked(models: seq<AIModel>)
    ensures Unranked(LeaderboardOf(models)) == SortByReturn(models)
  {
    UnrankedOfRanked(SortByReturn(models));
  }

  lemma UnrankedOfRanked(s: seq<AIModel>)
    ensures Unranked(Ranked(s)) == s
  {
  }
}
