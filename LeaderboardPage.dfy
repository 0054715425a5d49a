/** The leaderboard page's sorting controls and winner panel
    (src/pages/Leaderboard.tsx). The page keeps a sort key and a sort order;
    clicking a column header changes them, the header of the active column
    shows an arrow, and the winner is the first row of the sorted table. */
module LeaderboardPage {

  import opened Options
  import opened ArenaTypes
  import ArenaStore

  datatype SortKey = Rank | ReturnPercentage | TotalPnL | WinRate | SharpeRatio | TotalTrades
  datatype SortOrder = Asc | Desc
  datatype Arrow = Up | Down

  function Flip(o: SortOrder): SortOrder {
    if o == Asc then Desc else Asc
  }

  /** The order a newly chosen column starts in: rank ascending, every
      other column descending. */
  function FirstOrder(key: SortKey): SortOrder {
    if key == Rank then Asc else Desc
  }

  /** `handleSort(clicked)` as a transition on (key, order). */
  function NextSort(key: SortKey, order: SortOrder, clicked: SortKey): (r: (SortKey, SortOrder))
    ensures r.0 == clicked
    ensures clicked == key ==> r.1 != order
    ensures clicked != key ==> (r.1 == Asc <==> clicked == Rank)
  {
    if clicked == key then (key, Flip(order)) else (clicked, FirstOrder(clicked))
  }

  /** Clicking the active column twice gives back the state before the
      first click; clicking another column twice leaves it active in the
      order opposite to its first one. */
  lemma NextSortTwice(key: SortKey, order: SortOrder, clicked: SortKey)
    ensures var s := NextSort(key, order, clicked);
            NextSort(s.0, s.1, clicked)
            == if clicked == key then (key, order) else (clicked, Flip(FirstOrder(clicked)))
  {
  }

  /** `SortIcon` for the column `column` under the state (key, order). */
  function Icon(key: SortKey, order: SortOrder, column: SortKey): (r: Option<Arrow>)
    ensures r.Some? <==> column == key
    ensures r == Some(Up) <==> column == key && order == Asc
  {
    if key != column then None else if order == Asc then Some(Up) else Some(Down)
  }

  /** `winner = sortedLeaderboard[0]`, absent when the table is empty. */
  function Winner(sorted: seq<LeaderboardModel>): (w: Option<LeaderboardModel>)
    ensures w.None? <==> sorted == []
    ensures w.Some? ==> w.value == sorted[0]
  {
    if |sorted| == 0 then None else Some(sorted[0])
  }

  /** The table is sorted on a copy: whatever order the column comparator
      produces, the winner is absent exactly when the store's leaderboard is
      empty, and otherwise is one of its entries. */
  lemma WinnerOfAnyOrder(leaderboard: seq<LeaderboardModel>, sorted: seq<LeaderboardModel>)
    requires multiset(sorted) == multiset(leaderboard)
    ensures Winner(sorted).None? <==> leaderboard == []
    ensures Winner(sorted).Some? ==> Winner(sorted).value in leaderboard
  {
    if sorted != [] {
      assert sorted[0] in multiset(leaderboard);
    } else {
      assert |multiset(leaderboard)| == 0;
    }
  }

  /** In the initial state (rank, ascending), with the leaderboard the
      store computes, the winner is the rank-1 entry, which has the best
      return of all the models. */
  lemma WinnerByRank(models: seq<AIModel>, sorted: seq<LeaderboardModel>)
    requires multiset(sorted) == multiset(ArenaStore.LeaderboardOf(models))
    requires forall i, j :: 0 <= i < j < |sorted| ==> sorted[i].rank <= sorted[j].rank
    ensures models == [] ==> Winner(sorted) == None
    ensures models != [] ==> Winner(sorted) == Some(ArenaStore.LeaderboardOf(models)[0])
    ensures models != [] ==> forall m :: m in models ==> Winner(sorted).value.model.returnPercentage >= m.returnPercentage
  {
    var board := ArenaStore.LeaderboardOf(models);
    WinnerOfAnyOrder(board, sorted);
    if models != [] {
      assert |sorted| == |board| by {
        assert |multiset(sorted)| == |multiset(board)|;
      }
      // the rank-1 entry sits somewhere in the sorted table
      assert board[0] in multiset(sorted);
      var p :| 0 <= p < |sorted| && sorted[p] == board[0];
      // the first row's rank is at most 1, and only board[0] has rank 1
      assert sorted[0].rank <= 1;
      assert sorted[0] in multiset(board);
      var k :| 0 <= k < |board| && board[k] == sorted[0];
      assert k == 0;
      forall m | m in models
        ensures board[0].model.returnPercentage >= m.returnPercentage
      {
        assert m in multiset(ArenaStore.Unranked(board));
        var j :| 0 <= j < |board| && ArenaStore.Unranked(board)[j] == m;
        if j > 0 {
          assert board[0].model.returnPercentage >= board[j].model.returnPercentage;
        }
      }
    }
  }

  /** The page's sort state. */
  class SortState {
    var sortKey: SortKey
    var sortOrder: SortOrder

    /** `useState('rank')`, `useState('asc')` */
    constructor ()
      ensures sortKey == Rank && sortOrder == Asc
    {
      sortKey := Rank;
      sortOrder := Asc;
    }

    method HandleSort(key: SortKey)
      modifies this
      ensures (sortKey, sortOrder) == NextSort(old(sortKey), old(sortOrder), key)
      ensures sortKey == key
      ensures old(sortKey) == key ==> sortOrder == Flip(old(sortOrder))
      ensures old(sortKey) != key ==> sortOrder == FirstOrder(key)
    {
      if sortKey == key {
        sortOrder := Flip(sortOrder);
      } else {
        sortKey := key;
        sortOrder := FirstOrder(key);
      }
    }

    /** The arrow in a column header: only on the active column, pointing
        up exactly when the order is ascending. */
    function SortIcon(columnKey: SortKey): (r: Option<Arrow>)
      reads this
      ensures r.Some? <==> columnKey == sortKey
      ensures r == Some(Up) <==> columnKey == sortKey && sortOrder == Asc
    {
      Icon(sortKey, sortOrder, columnKey)
    }
  }
}
