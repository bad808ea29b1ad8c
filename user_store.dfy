/**
 * The client's single state store (`useUserStore`): the logged-in user, that user's habits,
 * the chat history and a loading flag. Every action replaces some fields and leaves the rest.
 */
module UserStore {
  import opened Wrappers
  import opened Entities

  /** `habits.filter((h) => h.id !== habitId)`. */
  function WithoutHabit(hs: seq<Habit>, habitId: string): (r: seq<Habit>)
    ensures |r| <= |hs|
    ensures forall h :: h in r <==> h in hs && h.id != habitId
    ensures (forall i :: 0 <= i < |hs| ==> hs[i].id != habitId) ==> r == hs
  {
    if hs == [] then []
    else (if hs[0].id == habitId then [] else [hs[0]]) + WithoutHabit(hs[1..], habitId)
  }

  /** Filtering works piece by piece, so the surviving habits keep their order. */
  lemma {:induction false} WithoutHabitAppend(a: seq<Habit>, b: seq<Habit>, habitId: string)
    ensures WithoutHabit(a + b, habitId) == WithoutHabit(a, habitId) + WithoutHabit(b, habitId)
  {
    if a != [] {
      assert (a + b)[1..] == a[1..] + b;
      WithoutHabitAppend(a[1..], b, habitId);
    } else {
      assert a + b == b;
    }
  }

  /** Removing the one habit with a given id from a list leaves exactly the others, in order. */
  lemma RemoveListedHabit(before: seq<Habit>, h: Habit, after: seq<Habit>)
    requires forall i :: 0 <= i < |before| ==> before[i].id != h.id
    requires forall i :: 0 <= i < |after| ==> after[i].id != h.id
    ensures WithoutHabit(before + [h] + after, h.id) == before + after
  {
    WithoutHabitAppend(before + [h], after, h.id);
    WithoutHabitAppend(before, [h], h.id);
  }

  /** Removing twice is removing once. */
  lemma WithoutHabitIdempotent(hs: seq<Habit>, habitId: string)
    ensures WithoutHabit(WithoutHabit(hs, habitId), habitId) == WithoutHabit(hs, habitId)
  {
    var r := WithoutHabit(hs, habitId);
    assert forall i :: 0 <= i < |r| ==> r[i] in r;
  }

  class Store {
    var user: Option<User>
    var habits: seq<Habit>
    var chatMessages: seq<ChatMessage>
    var isLoading: bool

    constructor ()
      ensures user == None && habits == [] && chatMessages == [] && !isLoading
    {
      user, habits, chatMessages, isLoading := None, [], [], false;
    }

    method SetUser(u: User)
      modifies this
      ensures user == Some(u)
      ensures habits == old(habits) && chatMessages == old(chatMessages) && isLoading == old(isLoading)
    {
      user := Some(u);
    }

    method SetHabits(hs: seq<Habit>)
      modifies this
      ensures habits == hs
      ensures user == old(user) && chatMessages == old(chatMessages) && isLoading == old(isLoading)
    {
      habits := hs;
    }

    method AddHabit(h: Habit)
      modifies this
      ensures habits == old(habits) + [h]
      ensures user == old(user) && chatMessages == old(chatMessages) && isLoading == old(isLoading)
    {
      habits := habits + [h];
    }

    method RemoveHabit(habitId: string)
      modifies this
      ensures habits == WithoutHabit(old(habits), habitId)
      ensures user == old(user) && chatMessages == old(chatMessages) && isLoading == old(isLoading)
    {
      habits := WithoutHabit(habits, habitId);
    }

    method SetChatMessages(ms: seq<ChatMessage>)
      modifies this
      ensures chatMessages == ms
      ensures user == old(user) && habits == old(habits) && isLoading == old(isLoading)
    {
      chatMessages := ms;
    }

    method AddChatMessage(m: ChatMessage)
      modifies this
      ensures chatMessages == old(chatMessages) + [m]
      ensures user == old(user) && habits == old(habits) && isLoading == old(isLoading)
    {
      chatMessages := chatMessages + [m];
    }

    method SetLoading(loading: bool)
      modifies this
      ensures isLoading == loading
      ensures user == old(user) && habits == old(habits) && chatMessages == old(chatMessages)
    {
      isLoading := loading;
    }

    /** Logging out empties the store: no habit or message outlives its user. */
    method ClearUser()
      modifies this
      ensures user == None && habits == [] && chatMessages == []
      ensures isLoading == old(isLoading)
    {
      user, habits, chatMessages := None, [], [];
    }
  }

  /**
   * Any number of `addChatMessage` calls leave the messages in call order after the
   * existing history, whatever their timestamps.
   */
  method AddChatMessagesInOrder(s: Store, batch: seq<ChatMessage>)
    modifies s
    ensures s.chatMessages == old(s.chatMessages) + batch
    ensures s.user == old(s.user) && s.habits == old(s.habits) && s.isLoading == old(s.isLoading)
  {
    for i := 0 to |batch|
      invariant s.chatMessages == old(s.chatMessages) + batch[..i]
      invariant s.user == old(s.user) && s.habits == old(s.habits) && s.isLoading == old(s.isLoading)
    {
      s.AddChatMessage(batch[i]);
      assert batch[..i + 1] == batch[..i] + [batch[i]];
    }
  }
}
