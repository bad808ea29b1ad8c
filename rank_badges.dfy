/**
 * The row decorations both leaderboard screens share: the rank icon, the rank colour with
 * its fallback, the current-user mark, and the "Your Rank" card's lookup of the user's row.
 */
module RankBadges {
  import opened Wrappers
  import opened Entities

  const Trophy: string := "trophy"
  const Medal: string := "medal"
  const PlainRank: string := "chevron-forward"

  const Gold: string := "#FFD700"
  const Silver: string := "#C0C0C0"
  const Bronze: string := "#CD7F32"
  const DefaultRankColor: string := "#00BFFF"

  /** `getRankIcon`: a trophy for the first rank, a medal for the next two, a chevron otherwise. */
  function RankIcon(rank: int): (r: string)
    ensures r == Trophy <==> rank == 1
    ensures r == Medal <==> rank == 2 || rank == 3
    ensures r == PlainRank <==> rank != 1 && rank != 2 && rank != 3
  {
    match rank
    case 1 => Trophy
    case 2 => Medal
    case 3 => Medal
    case _ => PlainRank
  }

  /** `RANK_COLORS[rank] || '#00BFFF'`: gold, silver and bronze for the podium, the fallback otherwise. */
  function RankColor(rank: int): (r: string)
    ensures rank == 1 ==> r == Gold
    ensures rank == 2 ==> r == Silver
    ensures rank == 3 ==> r == Bronze
    ensures rank != 1 && rank != 2 && rank != 3 ==> r == DefaultRankColor
  {
    if rank == 1 then Gold else if rank == 2 then Silver else if rank == 3 then Bronze else DefaultRankColor
  }

  /** A row has a podium colour exactly when it has a trophy or medal, and each podium rank its own colour. */
  lemma ColorFollowsIcon(rank: int, other: int)
    ensures RankColor(rank) != DefaultRankColor <==> RankIcon(rank) != PlainRank
    ensures RankColor(rank) != DefaultRankColor && RankColor(rank) == RankColor(other) ==> rank == other
  {
  }

  /** On a board ranked 1, 2, ... in list order, as the server sends it, the trophy is on the first row and medals on the next two. */
  lemma PodiumOfRankedBoard(board: seq<LeaderboardEntry>)
    requires forall i :: 0 <= i < |board| ==> board[i].rank == i + 1
    ensures forall i :: 0 <= i < |board| ==> (RankIcon(board[i].rank) == Trophy <==> i == 0)
    ensures forall i :: 0 <= i < |board| ==> (RankIcon(board[i].rank) == Medal <==> i == 1 || i == 2)
  {
  }

  /** `user?.id === item.user_id`. */
  predicate IsCurrentUser(user: Option<User>, entry: LeaderboardEntry) {
    user.Some? && user.value.id == entry.userId
  }

  /** `leaderboard.find(entry => entry.user_id === userId)`: the first row of that user. */
  function FindUserEntry(board: seq<LeaderboardEntry>, userId: string): (r: Option<LeaderboardEntry>)
    ensures r.Some? ==> exists i :: 0 <= i < |board| && board[i] == r.value
                                    && forall j :: 0 <= j < i ==> board[j].userId != userId
    ensures r.Some? ==> r.value.userId == userId
    ensures r.None? <==> forall i :: 0 <= i < |board| ==> board[i].userId != userId
  {
    if board == [] then None
    else if board[0].userId == userId then Some(board[0])
    else
      var r := FindUserEntry(board[1..], userId);
      assert forall i :: 0 < i < |board| ==> board[i] == board[1..][i - 1];
      r
  }

  /** The "Your Rank" area: hidden, the user's own row, or the prompt to build a rank. */
  datatype RankCard = Hidden | YourRank(entry: LeaderboardEntry) | BuildYourRank

  /** Shown only with a user and a non-empty board; the user's first row when there is one. */
  function YourRankCard(user: Option<User>, board: seq<LeaderboardEntry>): (r: RankCard)
    ensures r.Hidden? <==> user.None? || board == []
    ensures r.YourRank? ==> IsCurrentUser(user, r.entry) && r.entry in board
  {
    if user.None? || board == [] then Hidden
    else
      match FindUserEntry(board, user.value.id)
      case Some(entry) => YourRank(entry)
      case None => BuildYourRank
  }

  /** The card shows the user's row exactly when some row of the list is marked as the user's. */
  lemma CardMatchesMarkedRows(user: Option<User>, board: seq<LeaderboardEntry>)
    requires user.Some? && board != []
    ensures YourRankCard(user, board).YourRank? <==> exists i :: 0 <= i < |board| && IsCurrentUser(user, board[i])
    ensures YourRankCard(user, board).BuildYourRank? <==> forall i :: 0 <= i < |board| ==> !IsCurrentUser(user, board[i])
  {
    if YourRankCard(user, board).BuildYourRank? {
      assert FindUserEntry(board, user.value.id).None?;
    }
  }
}
