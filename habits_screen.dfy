/**
 * The stand-alone habits screen: loading the habits and logs, the add-habit and log-habit
 * forms, and the confirmed delete. The store changes only after the server call succeeds.
 * The `fetch` outcomes are parameters; modals and alerts other than the coach's reply are
 * not modelled.
 */
module HabitsScreen {
  import opened Wrappers
  import opened Text
  import opened Http
  import opened Entities
  import opened HabitCategories
  import Api
  import UserStore

  const DefaultCategory: string := "fitness"

  class HabitsScreen {
    const store: UserStore.Store
    var selectedHabit: Option<Habit>
    var habitLogs: seq<HabitLog>
    var isLoading: bool
    var habitName: string
    var habitCategory: string
    var targetValue: string
    var unit: string
    var logValue: string
    var logNotes: string

    constructor (store: UserStore.Store)
      ensures this.store == store && selectedHabit.None? && habitLogs == [] && !isLoading
      ensures habitName == "" && habitCategory == DefaultCategory && targetValue == "" && unit == ""
      ensures logValue == "" && logNotes == ""
    {
      this.store := store;
      selectedHabit := None;
      habitLogs := [];
      isLoading := false;
      habitName := "";
      habitCategory := DefaultCategory;
      targetValue := "";
      unit := "";
      logValue := "";
      logNotes := "";
    }

    method SetHabitName(text: string)
      modifies this`habitName
      ensures habitName == text
    {
      habitName := text;
    }

    method SetHabitCategory(key: string)
      modifies this`habitCategory
      ensures habitCategory == key
    {
      habitCategory := key;
    }

    method SetTargetValue(text: string)
      modifies this`targetValue
      ensures targetValue == text
    {
      targetValue := text;
    }

    method SetUnit(text: string)
      modifies this`unit
      ensures unit == text
    {
      unit := text;
    }

    method SetLogValue(text: string)
      modifies this`logValue
      ensures logValue == text
    {
      logValue := text;
    }

    method SetLogNotes(text: string)
      modifies this`logNotes
      ensures logNotes == text
    {
      logNotes := text;
    }

    /** The log button of a habit row selects that habit for the log form. */
    method SelectHabit(habit: Habit)
      modifies this`selectedHabit
      ensures selectedHabit == Some(habit)
    {
      selectedHabit := Some(habit);
    }

    /**
     * `loadHabits`: nothing without a user; otherwise a successful fetch replaces the store's
     * habits and a failed one changes nothing.
     */
    method LoadHabits(reply: Reply<seq<Habit>>) returns (sent: Option<Api.Endpoint>)
      modifies store
      ensures old(store.user).None? ==> sent.None? && store.habits == old(store.habits)
      ensures old(store.user).Some? ==>
                sent == Some(Api.GetUserHabits(old(store.user).value.id))
                && store.habits == (if Api.Request(reply).Ok? then Api.Request(reply).value else old(store.habits))
      ensures store.user == old(store.user) && store.chatMessages == old(store.chatMessages)
      ensures store.isLoading == old(store.isLoading)
    {
      if store.user.None? {
        return None;
      }
      sent := Some(Api.GetUserHabits(store.user.value.id));
      var fetched := Api.Request(reply);
      if fetched.Ok? {
        store.SetHabits(fetched.value);
      }
    }

    /** `loadHabitLogs`: the same, for the screen's own list of logs, with the default limit. */
    method LoadHabitLogs(reply: Reply<seq<HabitLog>>) returns (sent: Option<Api.Endpoint>)
      modifies this`habitLogs
      ensures store.user.None? ==> sent.None? && habitLogs == old(habitLogs)
      ensures store.user.Some? ==>
                sent == Some(Api.GetHabitLogs(store.user.value.id, None))
                && habitLogs == (if Api.Request(reply).Ok? then Api.Request(reply).value else old(habitLogs))
    {
      if store.user.None? {
        return None;
      }
      sent := Some(Api.GetHabitLogs(store.user.value.id, None));
      var fetched := Api.Request(reply);
      if fetched.Ok? {
        habitLogs := fetched.value;
      }
    }

    /** The mount effect: both loads, each as one step. */
    method Mount(habitsReply: Reply<seq<Habit>>, logsReply: Reply<seq<HabitLog>>)
      returns (habitsSent: Option<Api.Endpoint>, logsSent: Option<Api.Endpoint>)
      modifies store, this`habitLogs
      ensures old(store.user).None? ==>
                habitsSent.None? && logsSent.None? && store.habits == old(store.habits) && habitLogs == old(habitLogs)
      ensures old(store.user).Some? ==>
                var uid := old(store.user).value.id;
                && habitsSent == Some(Api.GetUserHabits(uid))
                && logsSent == Some(Api.GetHabitLogs(uid, None))
                && store.habits == (if Api.Request(habitsReply).Ok? then Api.Request(habitsReply).value else old(store.habits))
                && habitLogs == (if Api.Request(logsReply).Ok? then Api.Request(logsReply).value else old(habitLogs))
      ensures store.user == old(store.user) && store.chatMessages == old(store.chatMessages)
      ensures store.isLoading == old(store.isLoading)
    {
      habitsSent := LoadHabits(habitsReply);
      logsSent := LoadHabitLogs(logsReply);
    }

    /**
     * `handleAddHabit`: nothing for a blank name or without a user. Otherwise the trimmed
     * name, the category and the optional fields (absent when blank) are posted; on success
     * the returned habit is appended to the store and the name, target and unit are cleared;
     * on failure the store and the form are as they were. Loading ends false either way.
     */
    method HandleAddHabit(reply: Reply<Habit>) returns (sent: Option<Api.Endpoint>)
      modifies store, this`isLoading, this`habitName, this`targetValue, this`unit
      ensures sent == old(AddHabitRequest(store.user, habitName, habitCategory, targetValue, unit))
      ensures sent.None? ==>
                isLoading == old(isLoading) && habitName == old(habitName)
                && targetValue == old(targetValue) && unit == old(unit) && store.habits == old(store.habits)
      ensures sent.Some? ==>
                && !isLoading
                && (Api.Request(reply).Ok? ==>
                      store.habits == old(store.habits) + [Api.Request(reply).value]
                      && habitName == "" && targetValue == "" && unit == "")
                && (Api.Request(reply).Err? ==>
                      store.habits == old(store.habits)
                      && habitName == old(habitName) && targetValue == old(targetValue) && unit == old(unit))
      ensures store.user == old(store.user) && store.chatMessages == old(store.chatMessages)
      ensures store.isLoading == old(store.isLoading)
    {
      sent := AddHabitRequest(store.user, habitName, habitCategory, targetValue, unit);
      if sent.Some? {
        PostHabit(reply);
      }
    }

    /**
     * The part of `handleAddHabit` after its checks: on success the returned habit is
     * appended to the store and the name, target and unit are cleared.
     */
    method PostHabit(reply: Reply<Habit>)
      modifies store, this`isLoading, this`habitName, this`targetValue, this`unit
      ensures !isLoading
      ensures Api.Request(reply).Ok? ==>
                store.habits == old(store.habits) + [Api.Request(reply).value]
                && habitName == "" && targetValue == "" && unit == ""
      ensures Api.Request(reply).Err? ==>
                store.habits == old(store.habits)
                && habitName == old(habitName) && targetValue == old(targetValue) && unit == old(unit)
      ensures store.user == old(store.user) && store.chatMessages == old(store.chatMessages)
      ensures store.isLoading == old(store.isLoading)
    {
      isLoading := true;
      var created := Api.Request(reply);
      if created.Ok? {
        store.AddHabit(created.value);
        habitName := "";
        targetValue := "";
        unit := "";
      }
      isLoading := false;
    }

    /**
     * `handleDeleteHabit`: nothing unless the user confirms; then the delete is sent and the
     * habit leaves the store only when the server call succeeds.
     */
    method HandleDeleteHabit(habit: Habit, confirmed: bool, reply: Reply<()>) returns (sent: Option<Api.Endpoint>)
      modifies store
      ensures !confirmed ==> sent.None? && store.habits == old(store.habits)
      ensures confirmed ==>
                sent == Some(Api.DeleteHabit(habit.id))
                && store.habits == (if Api.Request(reply).Ok? then UserStore.WithoutHabit(old(store.habits), habit.id)
                                    else old(store.habits))
      ensures store.user == old(store.user) && store.chatMessages == old(store.chatMessages)
      ensures store.isLoading == old(store.isLoading)
    {
      if !confirmed {
        return None;
      }
      sent := Some(Api.DeleteHabit(habit.id));
      if Api.Request(reply).Ok? {
        store.RemoveHabit(habit.id);
      }
    }

    /**
     * `handleLogHabit`: nothing for a blank value, without a selected habit or without a
     * user. Otherwise the trimmed value and the optional notes are posted for the selected
     * habit. On success the log form is cleared, the coach's reply is shown when it is a
     * non-empty text, and the logs are reloaded; on failure the form is as it was. Loading
     * ends false either way and the store is never touched.
     */
    method HandleLogHabit(reply: Reply<HabitLog>, reload: Reply<seq<HabitLog>>)
      returns (sent: Option<Api.Endpoint>, coachSays: Option<string>, reloadSent: Option<Api.Endpoint>)
      modifies this`isLoading, this`logValue, this`logNotes, this`selectedHabit, this`habitLogs
      ensures sent == old(LogHabitRequest(store.user, selectedHabit, logValue, logNotes))
      ensures sent.None? ==>
                coachSays.None? && reloadSent.None? && isLoading == old(isLoading)
                && logValue == old(logValue) && logNotes == old(logNotes)
                && selectedHabit == old(selectedHabit) && habitLogs == old(habitLogs)
      ensures sent.Some? ==>
                && !isLoading
                && (Api.Request(reply).Ok? ==>
                      var log := Api.Request(reply).value;
                      && logValue == "" && logNotes == "" && selectedHabit.None?
                      && coachSays == (if log.aiResponse.Some? && log.aiResponse.value != "" then log.aiResponse else None)
                      && reloadSent == Some(Api.GetHabitLogs(store.user.value.id, None))
                      && habitLogs == (if Api.Request(reload).Ok? then Api.Request(reload).value else old(habitLogs)))
                && (Api.Request(reply).Err? ==>
                      logValue == old(logValue) && logNotes == old(logNotes) && selectedHabit == old(selectedHabit)
                      && coachSays.None? && reloadSent.None? && habitLogs == old(habitLogs))
    {
      sent := LogHabitRequest(store.user, selectedHabit, logValue, logNotes);
      coachSays, reloadSent := None, None;
      if sent.Some? {
        coachSays, reloadSent := PostLog(sent.value, reply, reload);
      }
    }

    /**
     * The part of `handleLogHabit` after its checks: the log is posted; on success the log
     * form is cleared, the coach's reply kept and the logs reloaded.
     */
    method PostLog(payload: Api.Endpoint, reply: Reply<HabitLog>, reload: Reply<seq<HabitLog>>)
      returns (coachSays: Option<string>, reloadSent: Option<Api.Endpoint>)
      requires payload.LogHabit?
      modifies this`isLoading, this`logValue, this`logNotes, this`selectedHabit, this`habitLogs
      ensures !isLoading
      ensures Api.Request(reply).Ok? ==>
                var log := Api.Request(reply).value;
                && logValue == "" && logNotes == "" && selectedHabit.None?
                && coachSays == (if log.aiResponse.Some? && log.aiResponse.value != "" then log.aiResponse else None)
                && reloadSent == Some(Api.GetHabitLogs(payload.userId, None))
                && habitLogs == (if Api.Request(reload).Ok? then Api.Request(reload).value else old(habitLogs))
      ensures Api.Request(reply).Err? ==>
                logValue == old(logValue) && logNotes == old(logNotes) && selectedHabit == old(selectedHabit)
                && coachSays.None? && reloadSent.None? && habitLogs == old(habitLogs)
    {
      coachSays, reloadSent := None, None;
      isLoading := true;
      var logged := Api.Request(reply);
      if logged.Ok? {
        logValue := "";
        logNotes := "";
        selectedHabit := None;
        var log := logged.value;
        if log.aiResponse.Some? && log.aiResponse.value != "" {
          coachSays := log.aiResponse;
        }
        reloadSent := Some(Api.GetHabitLogs(payload.userId, None));
        var reloaded := Api.Request(reload);
        if reloaded.Ok? {
          habitLogs := reloaded.value;
        }
      }
      isLoading := false;
    }
  }
}
