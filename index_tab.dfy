/**
 * The chat tab: the same send as the chat screen with an extra guard while a send is in
 * flight, and a history load that runs whenever a user is present.
 */
module IndexTab {
  import opened Wrappers
  import opened Text
  import opened Http
  import opened Entities
  import opened ChatTurns
  import Api
  import UserStore

  const DemoIdPrefix: string := "demo-user-"

  class ChatTab {
    const store: UserStore.Store
    var message: string
    var isLoading: bool
    var isSpeaking: bool

    constructor (store: UserStore.Store)
      ensures this.store == store && message == "" && !isLoading && !isSpeaking
    {
      this.store := store;
      message := "";
      isLoading := false;
      isSpeaking := false;
    }

    method SetMessage(text: string)
      modifies this
      ensures message == text && isLoading == old(isLoading) && isSpeaking == old(isSpeaking)
    {
      message := text;
    }

    /**
     * `loadChatHistory`: without a user it stores a demo user whose id carries the clock
     * reading; otherwise a successful fetch replaces the history.
     */
    method LoadChatHistory(nowMillis: nat, now: string, history: Reply<seq<ChatMessage>>)
      returns (sent: Option<Api.Endpoint>)
      modifies store
      ensures old(store.user).None? ==>
                sent.None? && store.user == Some(DemoUser(DemoIdPrefix + NatToString(nowMillis), now))
                && store.chatMessages == old(store.chatMessages)
      ensures old(store.user).Some? ==>
                sent == Some(Api.GetChatHistory(old(store.user).value.id, None))
                && store.user == old(store.user)
                && store.chatMessages == (if Api.Request(history).Ok? then Api.Request(history).value
                                          else old(store.chatMessages))
      ensures store.habits == old(store.habits) && store.isLoading == old(store.isLoading)
    {
      if store.user.None? {
        store.SetUser(DemoUser(DemoIdPrefix + NatToString(nowMillis), now));
        return None;
      }
      sent := Some(Api.GetChatHistory(store.user.value.id, None));
      var fetched := Api.Request(history);
      if fetched.Ok? {
        store.SetChatMessages(fetched.value);
      }
    }

    /**
     * The effect on `user`: the history is loaded only when there is a user, so the demo
     * branch of the load is never taken from here and the user is never replaced.
     */
    method OnUserChanged(nowMillis: nat, now: string, history: Reply<seq<ChatMessage>>)
      returns (sent: Option<Api.Endpoint>)
      modifies store
      ensures store.user == old(store.user)
      ensures old(store.user).None? ==> sent.None? && store.chatMessages == old(store.chatMessages)
      ensures old(store.user).Some? ==>
                sent == Some(Api.GetChatHistory(old(store.user).value.id, None))
                && store.chatMessages == (if Api.Request(history).Ok? then Api.Request(history).value
                                          else old(store.chatMessages))
      ensures store.habits == old(store.habits) && store.isLoading == old(store.isLoading)
    {
      sent := None;
      if store.user.Some? {
        sent := LoadChatHistory(nowMillis, now, history);
      }
    }

    /**
     * `sendMessage`: nothing happens for blank input, while a send is in flight, or without a
     * user. Otherwise the trimmed text is both appended and sent, the input is cleared first,
     * and exactly one reply or error turn follows. Loading ends false.
     */
    method SendMessage(sentId: string, sentAt: string, reply: Reply<ChatMessage>, errorStamp: string, errorAt: string)
      returns (sent: Option<Api.Endpoint>)
      modifies this`message, this`isLoading, store
      ensures IsBlank(old(message)) || old(isLoading) || old(store.user).None? ==>
                sent.None? && message == old(message) && isLoading == old(isLoading)
                && store.chatMessages == old(store.chatMessages)
      ensures !IsBlank(old(message)) && !old(isLoading) && old(store.user).Some? ==>
                var uid := old(store.user).value.id;
                var userTurn := UserTurn(sentId, uid, old(message), sentAt);
                && sent == Some(Api.SendChatMessage(uid, Trim(old(message))))
                && store.chatMessages == old(store.chatMessages) + [userTurn, ReplyTurn(reply, errorStamp, uid, errorAt)]
                && message == "" && !isLoading
      ensures store.user == old(store.user) && store.habits == old(store.habits)
      ensures store.isLoading == old(store.isLoading) && isSpeaking == old(isSpeaking)
    {
      if IsBlank(message) || isLoading || store.user.None? {
        return None;
      }
      var text := Trim(message);
      var uid := store.user.value.id;
      var userTurn := UserTurn(sentId, uid, message, sentAt);
      sent := Some(Api.SendChatMessage(uid, text));
      PostTurn(userTurn, reply, errorStamp, uid, errorAt);
    }

    /**
     * The part of `sendMessage` after its checks: the input is cleared, the user's turn and
     * then the reply or error turn are appended, and loading ends false.
     */
    method PostTurn(userTurn: ChatMessage, reply: Reply<ChatMessage>, errorStamp: string, uid: string, errorAt: string)
      modifies this`message, this`isLoading, store
      ensures store.chatMessages == old(store.chatMessages) + [userTurn, ReplyTurn(reply, errorStamp, uid, errorAt)]
      ensures message == "" && !isLoading
      ensures store.user == old(store.user) && store.habits == old(store.habits)
      ensures store.isLoading == old(store.isLoading)
    {
      message := "";
      store.AddChatMessage(userTurn);
      isLoading := true;
      store.AddChatMessage(ReplyTurn(reply, errorStamp, uid, errorAt));
      isLoading := false;
    }

    /** `speakMessage`: while speaking it only stops; otherwise it starts speaking the text. */
    method SpeakMessage(text: string, speechThrew: bool) returns (spoken: Option<string>)
      modifies this
      ensures old(isSpeaking) ==> !isSpeaking && spoken.None?
      ensures !old(isSpeaking) ==> spoken == Some(text) && isSpeaking == !speechThrew
      ensures message == old(message) && isLoading == old(isLoading)
    {
      if isSpeaking {
        isSpeaking := false;
        return None;
      }
      isSpeaking := true;
      spoken := Some(text);
      if speechThrew {
        isSpeaking := false;
      }
    }

    method SpeechEnded()
      modifies this
      ensures !isSpeaking && message == old(message) && isLoading == old(isLoading)
    {
      isSpeaking := false;
    }
  }
}
