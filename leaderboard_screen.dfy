/**
 * The stand-alone leaderboard screen: loading the board with the default limit, and the
 * pull-to-refresh that wraps the load. The `fetch` outcome is a parameter.
 */
module LeaderboardScreen {
  import opened Wrappers
  import opened Http
  import opened Entities
  import Api
  import UserStore

  class LeaderboardScreen {
    const store: UserStore.Store
    var leaderboard: seq<LeaderboardEntry>
    var isLoading: bool
    var refreshing: bool

    constructor (store: UserStore.Store)
      ensures this.store == store && leaderboard == [] && !isLoading && !refreshing
    {
      this.store := store;
      leaderboard := [];
      isLoading := false;
      refreshing := false;
    }

    /**
     * `loadLeaderboard` (also the mount effect): a successful fetch replaces the board, a
     * failed one leaves it as it was; loading ends false either way.
     */
    method LoadLeaderboard(reply: Reply<seq<LeaderboardEntry>>) returns (sent: Api.Endpoint)
      modifies this`leaderboard, this`isLoading
      ensures sent == Api.GetLeaderboard(None)
      ensures leaderboard == (if Api.Request(reply).Ok? then Api.Request(reply).value else old(leaderboard))
      ensures !isLoading
    {
      isLoading := true;
      sent := Api.GetLeaderboard(None);
      var data := Api.Request(reply);
      if data.Ok? {
        leaderboard := data.value;
      }
      isLoading := false;
    }

    /**
     * `onRefresh`: the refreshing flag is raised, the board is loaded as above, and the flag
     * is lowered once the load has finished.
     */
    method OnRefresh(reply: Reply<seq<LeaderboardEntry>>) returns (sent: Api.Endpoint, refreshingDuringLoad: bool)
      modifies this`leaderboard, this`isLoading, this`refreshing
      ensures refreshingDuringLoad && !refreshing
      ensures sent == Api.GetLeaderboard(None)
      ensures leaderboard == (if Api.Request(reply).Ok? then Api.Request(reply).value else old(leaderboard))
      ensures !isLoading
    {
      refreshing := true;
      refreshingDuringLoad := refreshing;
      sent := LoadLeaderboard(reply);
      refreshing := false;
    }
  }
}
