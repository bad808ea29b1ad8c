/**
 * The leaderboard tab: a mount effect that seeds the demo user and loads the board, and a
 * load that falls back to a one-row demo board when the fetch fails.
 */
module LeaderboardTab {
  import opened Wrappers
  import opened Http
  import opened Entities
  import opened RankBadges
  import Api
  import UserStore

  /** The row shown when the board cannot be fetched. */
  const DemoEntry: LeaderboardEntry :=
    LeaderboardEntry(DemoUserId, "Winter Warrior", None, 0, 0, "Frozen Recruit", 1)

  /**
   * The fallback row is marked as the current user's exactly when the stored user is the
   * demo user; it is first place (trophy, gold) and carries the demo user's name and title.
   */
  lemma FallbackRowIsTheDemoUsers(user: Option<User>, now: string)
    ensures IsCurrentUser(user, DemoEntry) <==> user.Some? && user.value.id == DemoUserId
    ensures DemoEntry.rank == 1 && RankIcon(DemoEntry.rank) == Trophy && RankColor(DemoEntry.rank) == Gold
    ensures DemoEntry.name == DemoUser(DemoUserId, now).name
            && DemoEntry.winterTitle == DemoUser(DemoUserId, now).winterTitle
  {
  }

  class LeaderboardTab {
    const store: UserStore.Store
    var leaderboard: seq<LeaderboardEntry>
    var isLoading: bool

    constructor (store: UserStore.Store)
      ensures this.store == store && leaderboard == [] && !isLoading
    {
      this.store := store;
      leaderboard := [];
      isLoading := false;
    }

    /**
     * `loadLeaderboard`: a successful fetch replaces the board; a failed one replaces it with
     * the single demo row. Loading ends false either way.
     */
    method LoadLeaderboard(reply: Reply<seq<LeaderboardEntry>>) returns (sent: Api.Endpoint)
      modifies this`leaderboard, this`isLoading
      ensures sent == Api.GetLeaderboard(None)
      ensures Api.Request(reply).Ok? ==> leaderboard == Api.Request(reply).value
      ensures Api.Request(reply).Err? ==> leaderboard == [DemoEntry]
      ensures !isLoading
    {
      isLoading := true;
      sent := Api.GetLeaderboard(None);
      var data := Api.Request(reply);
      if data.Ok? {
        leaderboard := data.value;
      } else {
        leaderboard := [DemoEntry];
      }
      isLoading := false;
    }

    /** The mount effect: the demo user is stored only when there is none; then the board loads. */
    method Mount(now: string, reply: Reply<seq<LeaderboardEntry>>) returns (sent: Api.Endpoint)
      modifies store, this`leaderboard, this`isLoading
      ensures old(store.user).None? ==> store.user == Some(DemoUser(DemoUserId, now))
      ensures old(store.user).Some? ==> store.user == old(store.user)
      ensures sent == Api.GetLeaderboard(None)
      ensures Api.Request(reply).Ok? ==> leaderboard == Api.Request(reply).value
      ensures Api.Request(reply).Err? ==> leaderboard == [DemoEntry]
      // With no user at mount, a failed load shows one first-place row, the seeded user's own.
      ensures old(store.user).None? && Api.Request(reply).Err? ==>
                |leaderboard| == 1 && leaderboard[0].rank == 1 && IsCurrentUser(store.user, leaderboard[0])
      ensures !isLoading
      ensures store.habits == old(store.habits) && store.chatMessages == old(store.chatMessages)
      ensures store.isLoading == old(store.isLoading)
    {
      if store.user.None? {
        store.SetUser(DemoUser(DemoUserId, now));
      }
      sent := LoadLeaderboard(reply);
    }
  }
}
