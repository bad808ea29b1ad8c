/**
 * The stand-alone profile screen: loading the user's stats, refreshing the score, and the
 * confirmed logout. The title guide, its unlock rule, the progress arithmetic and the emoji
 * live in the `Titles` module; this module holds the state the screen changes.
 */
module ProfileScreen {
  import opened Wrappers
  import opened Http
  import opened Entities
  import Api
  import UserStore

  /** The number of logs the stats load asks for. */
  const StatsLogLimit: nat := 1000

  /** The counters the stats card shows (the daily average is not modelled). */
  datatype Stats = Stats(totalHabits: nat, totalLogs: nat, bestStreak: int)

  /** What the screen shows after `refreshScore`: nothing, the success alert or the error alert. */
  datatype RefreshAlert = NoAlert | Updated | RefreshFailed

  /** What a stats load sends and leaves behind: the calls, the stored user and the stats. */
  datatype StatsLoad = StatsLoad(sent: seq<Api.Endpoint>, user: Option<User>, stats: Stats)

  /**
   * `loadUserStats` for a signed-in user `uid`: each call is sent only when the one before
   * succeeded; a fetched user is stored; the stats change only when all three succeed.
   */
  function LoadOutcome(uid: string, user: Option<User>, stats: Stats, userReply: Reply<User>,
                       habitsReply: Reply<seq<Habit>>, logsReply: Reply<seq<HabitLog>>): (r: StatsLoad)
    ensures var fetchedUser := Api.Request(userReply);
            var fetchedHabits := Api.Request(habitsReply);
            var fetchedLogs := Api.Request(logsReply);
            && (fetchedUser.Err? ==> r == StatsLoad([Api.GetUser(uid)], user, stats))
            && (fetchedUser.Ok? ==> r.user == Some(fetchedUser.value))
            && (fetchedUser.Ok? && fetchedHabits.Err? ==>
                  r.sent == [Api.GetUser(uid), Api.GetUserHabits(uid)] && r.stats == stats)
            && (fetchedUser.Ok? && fetchedHabits.Ok? ==>
                  r.sent == [Api.GetUser(uid), Api.GetUserHabits(uid), Api.GetHabitLogs(uid, Some(StatsLogLimit))])
            && (fetchedUser.Ok? && fetchedHabits.Ok? && fetchedLogs.Err? ==> r.stats == stats)
            && (fetchedUser.Ok? && fetchedHabits.Ok? && fetchedLogs.Ok? ==>
                  r.stats == Stats(|fetchedHabits.value|, |fetchedLogs.value|, fetchedUser.value.longestStreak))
  {
    var fetchedUser := Api.Request(userReply);
    var fetchedHabits := Api.Request(habitsReply);
    var fetchedLogs := Api.Request(logsReply);
    if fetchedUser.Err? then StatsLoad([Api.GetUser(uid)], user, stats)
    else if fetchedHabits.Err? then StatsLoad([Api.GetUser(uid), Api.GetUserHabits(uid)], Some(fetchedUser.value), stats)
    else
      var sent := [Api.GetUser(uid), Api.GetUserHabits(uid), Api.GetHabitLogs(uid, Some(StatsLogLimit))];
      if fetchedLogs.Err? then StatsLoad(sent, Some(fetchedUser.value), stats)
      else StatsLoad(sent, Some(fetchedUser.value),
                     Stats(|fetchedHabits.value|, |fetchedLogs.value|, fetchedUser.value.longestStreak))
  }

  class ProfileScreen {
    const store: UserStore.Store
    var isLoading: bool
    var stats: Stats

    constructor (store: UserStore.Store)
      ensures this.store == store && !isLoading && stats == Stats(0, 0, 0)
    {
      this.store := store;
      isLoading := false;
      stats := Stats(0, 0, 0);
    }

    /**
     * `loadUserStats`: nothing without a user. Otherwise the user is fetched and stored, then
     * the habits and up to 1000 logs are fetched; the stats are replaced only when all three
     * calls succeed. The first failure ends the load and is swallowed, so each call is sent
     * only when the previous one succeeded.
     */
    method LoadUserStats(userReply: Reply<User>, habitsReply: Reply<seq<Habit>>, logsReply: Reply<seq<HabitLog>>)
      returns (sent: seq<Api.Endpoint>)
      modifies store, this`stats
      ensures old(store.user).None? ==> sent == [] && store.user == old(store.user) && stats == old(stats)
      ensures old(store.user).Some? ==>
                StatsLoad(sent, store.user, stats)
                == LoadOutcome(old(store.user).value.id, old(store.user), old(stats), userReply, habitsReply, logsReply)
      ensures store.habits == old(store.habits) && store.chatMessages == old(store.chatMessages)
      ensures store.isLoading == old(store.isLoading)
    {
      if store.user.None? {
        return [];
      }
      var uid := store.user.value.id;
      sent := [Api.GetUser(uid)];
      var userData := Api.Request(userReply);
      if userData.Err? {
        return;
      }
      store.SetUser(userData.value);
      sent := sent + [Api.GetUserHabits(uid)];
      var habits := Api.Request(habitsReply);
      if habits.Err? {
        return;
      }
      sent := sent + [Api.GetHabitLogs(uid, Some(StatsLogLimit))];
      var logs := Api.Request(logsReply);
      if logs.Err? {
        return;
      }
      stats := Stats(|habits.value|, |logs.value|, userData.value.longestStreak);
    }

    /**
     * `refreshScore`: nothing without a user. Otherwise the score update is sent; when it
     * succeeds the stats are reloaded and the success alert shown, when it fails the error
     * alert is shown and nothing else happens. Loading ends false either way.
     */
    method RefreshScore<T>(scoreReply: Reply<T>, userReply: Reply<User>, habitsReply: Reply<seq<Habit>>,
                           logsReply: Reply<seq<HabitLog>>)
      returns (sent: seq<Api.Endpoint>, alert: RefreshAlert)
      modifies store, this`stats, this`isLoading
      ensures old(store.user).None? ==>
                sent == [] && alert == NoAlert && isLoading == old(isLoading)
                && store.user == old(store.user) && stats == old(stats)
      ensures old(store.user).Some? ==>
                && |sent| >= 1 && sent[0] == Api.UpdateUserScore(old(store.user).value.id)
                && !isLoading
                && (Api.Request(scoreReply).Ok? <==> alert == Updated)
                && (Api.Request(scoreReply).Err? ==>
                      alert == RefreshFailed && sent == sent[..1] && store.user == old(store.user) && stats == old(stats))
                && (Api.Request(scoreReply).Ok? ==>
                      StatsLoad(sent[1..], store.user, stats)
                      == LoadOutcome(old(store.user).value.id, old(store.user), old(stats),
                                     userReply, habitsReply, logsReply))
      ensures store.habits == old(store.habits) && store.chatMessages == old(store.chatMessages)
      ensures store.isLoading == old(store.isLoading)
    {
      if store.user.None? {
        return [], NoAlert;
      }
      var uid := store.user.value.id;
      isLoading := true;
      sent := [Api.UpdateUserScore(uid)];
      if Api.Request(scoreReply).Err? {
        alert := RefreshFailed;
      } else {
        var reloaded := LoadUserStats(userReply, habitsReply, logsReply);
        sent := sent + reloaded;
        alert := Updated;
      }
      isLoading := false;
    }

    /** `handleLogout`: a confirmed logout clears the store's user, habits and chat. */
    method HandleLogout(confirmed: bool)
      modifies store
      ensures confirmed ==> store.user.None? && store.habits == [] && store.chatMessages == []
      ensures !confirmed ==>
                store.user == old(store.user) && store.habits == old(store.habits)
                && store.chatMessages == old(store.chatMessages)
      ensures store.isLoading == old(store.isLoading)
    {
      if confirmed {
        store.ClearUser();
      }
    }
  }
}
