/**
 * The habits tab: the same add and log forms as the habits screen, except that the target,
 * unit and notes inputs are never wired to the UI, and a mount effect that seeds the demo
 * user. The loads that effect starts read the user of the first render, so after seeding
 * they still see no user and fetch nothing.
 */
module HabitsTab {
  import opened Wrappers
  import opened Text
  import opened Http
  import opened Entities
  import opened HabitCategories
  import Api
  import UserStore

  class HabitsTab {
    const store: UserStore.Store
    var selectedHabit: Option<Habit>
    var habitLogs: seq<HabitLog>
    var isLoading: bool
    var habitName: string
    var habitCategory: string
    var targetValue: string
    var unit: string
    var logValue: string
    var logNotes: string

    /** The inputs with no setter in the UI keep their initial empty text. */
    predicate Valid()
      reads this
    {
      targetValue == "" && unit == "" && logNotes == ""
    }

    constructor (store: UserStore.Store)
      ensures Valid()
      ensures this.store == store && selectedHabit.None? && habitLogs == [] && !isLoading
      ensures habitName == "" && habitCategory == "fitness" && logValue == ""
    {
      this.store := store;
      selectedHabit := None;
      habitLogs := [];
      isLoading := false;
      habitName := "";
      habitCategory := "fitness";
      targetValue := "";
      unit := "";
      logValue := "";
      logNotes := "";
    }

    method SetHabitName(text: string)
      modifies this`habitName
      ensures habitName == text
    {
      habitName := text;
    }

    method SetHabitCategory(key: string)
      modifies this`habitCategory
      ensures habitCategory == key
    {
      habitCategory := key;
    }

    method SetLogValue(text: string)
      modifies this`logValue
      ensures logValue == text
    {
      logValue := text;
    }

    method SelectHabit(habit: Habit)
      modifies this`selectedHabit
      ensures selectedHabit == Some(habit)
    {
      selectedHabit := Some(habit);
    }

    /** `loadHabits` as run with `user` from the render that created it. */
    method LoadHabits(user: Option<User>, reply: Reply<seq<Habit>>) returns (sent: Option<Api.Endpoint>)
      modifies store
      ensures user.None? ==> sent.None? && store.habits == old(store.habits)
      ensures user.Some? ==>
                sent == Some(Api.GetUserHabits(user.value.id))
                && store.habits == (if Api.Request(reply).Ok? then Api.Request(reply).value else old(store.habits))
      ensures store.user == old(store.user) && store.chatMessages == old(store.chatMessages)
      ensures store.isLoading == old(store.isLoading)
    {
      if user.None? {
        return None;
      }
      sent := Some(Api.GetUserHabits(user.value.id));
      var fetched := Api.Request(reply);
      if fetched.Ok? {
        store.SetHabits(fetched.value);
      }
    }

    /** `loadHabitLogs` as run with `user` from the render that created it. */
    method LoadHabitLogs(user: Option<User>, reply: Reply<seq<HabitLog>>) returns (sent: Option<Api.Endpoint>)
      modifies this`habitLogs
      ensures user.None? ==> sent.None? && habitLogs == old(habitLogs)
      ensures user.Some? ==>
                sent == Some(Api.GetHabitLogs(user.value.id, None))
                && habitLogs == (if Api.Request(reply).Ok? then Api.Request(reply).value else old(habitLogs))
    {
      if user.None? {
        return None;
      }
      sent := Some(Api.GetHabitLogs(user.value.id, None));
      var fetched := Api.Request(reply);
      if fetched.Ok? {
        habitLogs := fetched.value;
      }
    }

    /**
     * The mount effect: the demo user is stored only when there is none. Both loads then run
     * with the user of the first render, so they fetch only when a user was already there.
     */
    method Mount(now: string, habitsReply: Reply<seq<Habit>>, logsReply: Reply<seq<HabitLog>>)
      returns (habitsSent: Option<Api.Endpoint>, logsSent: Option<Api.Endpoint>)
      modifies store, this`habitLogs
      ensures old(store.user).None? ==>
                store.user == Some(DemoUser(DemoUserId, now))
                && habitsSent.None? && logsSent.None?
                && store.habits == old(store.habits) && habitLogs == old(habitLogs)
      ensures old(store.user).Some? ==>
                store.user == old(store.user)
                && habitsSent == Some(Api.GetUserHabits(old(store.user).value.id))
                && logsSent == Some(Api.GetHabitLogs(old(store.user).value.id, None))
                && store.habits == (if Api.Request(habitsReply).Ok? then Api.Request(habitsReply).value else old(store.habits))
                && habitLogs == (if Api.Request(logsReply).Ok? then Api.Request(logsReply).value else old(habitLogs))
      ensures store.chatMessages == old(store.chatMessages) && store.isLoading == old(store.isLoading)
    {
      var rendered := store.user;
      if store.user.None? {
        store.SetUser(DemoUser(DemoUserId, now));
      }
      habitsSent := LoadHabits(rendered, habitsReply);
      logsSent := LoadHabitLogs(rendered, logsReply);
    }

    /**
     * `handleAddHabit`: as on the habits screen, but the target and unit are always sent
     * absent, since their inputs stay empty.
     */
    method HandleAddHabit(reply: Reply<Habit>) returns (sent: Option<Api.Endpoint>)
      requires Valid()
      modifies store, this`isLoading, this`habitName, this`targetValue, this`unit
      ensures Valid()
      ensures sent == old(AddHabitRequest(store.user, habitName, habitCategory, "", ""))
      ensures sent.Some? ==> sent.value.targetValue.None? && sent.value.unit.None?
      ensures sent.None? ==>
                isLoading == old(isLoading) && habitName == old(habitName) && store.habits == old(store.habits)
      ensures sent.Some? ==>
                && !isLoading
                && (Api.Request(reply).Ok? ==>
                      store.habits == old(store.habits) + [Api.Request(reply).value] && habitName == "")
                && (Api.Request(reply).Err? ==>
                      store.habits == old(store.habits) && habitName == old(habitName))
      ensures store.user == old(store.user) && store.chatMessages == old(store.chatMessages)
      ensures store.isLoading == old(store.isLoading)
    {
      sent := AddHabitRequest(store.user, habitName, habitCategory, targetValue, unit);
      assert IsBlank("");
      if sent.Some? {
        PostHabit(reply);
      }
    }

    /** The part of `handleAddHabit` after its checks: on success the habit is appended and the form cleared. */
    method PostHabit(reply: Reply<Habit>)
      requires Valid()
      modifies store, this`isLoading, this`habitName, this`targetValue, this`unit
      ensures Valid() && !isLoading
      ensures Api.Request(reply).Ok? ==>
                store.habits == old(store.habits) + [Api.Request(reply).value] && habitName == ""
      ensures Api.Request(reply).Err? ==> store.habits == old(store.habits) && habitName == old(habitName)
      ensures store.user == old(store.user) && store.chatMessages == old(store.chatMessages)
      ensures store.isLoading == old(store.isLoading)
    {
      isLoading := true;
      var created := Api.Request(reply);
      if created.Ok? {
        store.AddHabit(created.value);
        habitName := "";
        targetValue := "";
        unit := "";
      }
      isLoading := false;
    }

    /**
     * `handleLogHabit`: as on the habits screen, but the notes are always sent absent. On
     * success the value and the selection are cleared and the logs reloaded for the user.
     */
    method HandleLogHabit(reply: Reply<HabitLog>, reload: Reply<seq<HabitLog>>)
      returns (sent: Option<Api.Endpoint>, coachSays: Option<string>, reloadSent: Option<Api.Endpoint>)
      requires Valid()
      modifies this`isLoading, this`logValue, this`logNotes, this`selectedHabit, this`habitLogs
      ensures Valid()
      ensures sent == old(LogHabitRequest(store.user, selectedHabit, logValue, ""))
      ensures sent.Some? ==> sent.value.notes.None?
      ensures sent.None? ==>
                coachSays.None? && reloadSent.None? && isLoading == old(isLoading)
                && logValue == old(logValue) && selectedHabit == old(selectedHabit) && habitLogs == old(habitLogs)
      ensures sent.Some? ==>
                && !isLoading
                && (Api.Request(reply).Ok? ==>
                      var log := Api.Request(reply).value;
                      && logValue == "" && selectedHabit.None?
                      && coachSays == (if log.aiResponse.Some? && log.aiResponse.value != "" then log.aiResponse else None)
                      && reloadSent == Some(Api.GetHabitLogs(store.user.value.id, None))
                      && habitLogs == (if Api.Request(reload).Ok? then Api.Request(reload).value else old(habitLogs)))
                && (Api.Request(reply).Err? ==>
                      logValue == old(logValue) && selectedHabit == old(selectedHabit)
                      && coachSays.None? && reloadSent.None? && habitLogs == old(habitLogs))
    {
      sent := LogHabitRequest(store.user, selectedHabit, logValue, logNotes);
      assert IsBlank("");
      coachSays, reloadSent := None, None;
      if sent.Some? {
        coachSays, reloadSent := PostLog(sent.value, reply, reload);
      }
    }

    /**
     * The part of `handleLogHabit` after its checks: on success the value and the selection
     * are cleared, the coach's reply kept and the logs reloaded.
     */
    method PostLog(payload: Api.Endpoint, reply: Reply<HabitLog>, reload: Reply<seq<HabitLog>>)
      returns (coachSays: Option<string>, reloadSent: Option<Api.Endpoint>)
      requires payload.LogHabit? && Valid()
      modifies this`isLoading, this`logValue, this`logNotes, this`selectedHabit, this`habitLogs
      ensures Valid() && !isLoading
      ensures Api.Request(reply).Ok? ==>
                var log := Api.Request(reply).value;
                && logValue == "" && selectedHabit.None?
                && coachSays == (if log.aiResponse.Some? && log.aiResponse.value != "" then log.aiResponse else None)
                && reloadSent == Some(Api.GetHabitLogs(payload.userId, None))
                && habitLogs == (if Api.Request(reload).Ok? then Api.Request(reload).value else old(habitLogs))
      ensures Api.Request(reply).Err? ==>
                logValue == old(logValue) && selectedHabit == old(selectedHabit)
                && coachSays.None? && reloadSent.None? && habitLogs == old(habitLogs)
    {
      coachSays, reloadSent := None, None;
      isLoading := true;
      var logged := Api.Request(reply);
      if logged.Ok? {
        logValue := "";
        logNotes := "";
        selectedHabit := None;
        var log := logged.value;
        if log.aiResponse.Some? && log.aiResponse.value != "" {
          coachSays := log.aiResponse;
        }
        reloadSent := Some(Api.GetHabitLogs(payload.userId, None));
        var reloaded := Api.Request(reload);
        if reloaded.Ok? {
          habitLogs := reloaded.value;
        }
      }
      isLoading := false;
    }
  }
}
