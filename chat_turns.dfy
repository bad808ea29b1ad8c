/** The chat turns both chat screens build around a send. */
module ChatTurns {
  import opened Wrappers
  import opened Text
  import opened Http
  import opened Entities
  import Api

  const FrozenWordsReply: string := "The winter has frozen my words. Try again, if you dare."
  const ErrorIdSuffix: string := "_error"

  /** The optimistic turn of the user: the trimmed text under a client-made id. */
  function UserTurn(id: string, userId: string, text: string, at: string): (m: ChatMessage)
    ensures m.isUser && m.userId == userId && m.message == Trim(text) && m.id == id
  {
    ChatMessage(id, userId, Trim(text), true, at)
  }

  /**
   * The turn that follows the user's: the server's reply when the send succeeded, otherwise
   * the fixed coach line under the id `<stamp>_error`.
   */
  function ReplyTurn(reply: Reply<ChatMessage>, stamp: string, userId: string, at: string): (m: ChatMessage)
    ensures Api.Request(reply).Ok? ==> m == Api.Request(reply).value
    ensures Api.Request(reply).Err? ==>
              !m.isUser && m.message == FrozenWordsReply && m.userId == userId && m.id == stamp + ErrorIdSuffix
  {
    match Api.Request(reply)
    case Ok(aiTurn) => aiTurn
    case Err(_) => ChatMessage(stamp + ErrorIdSuffix, userId, FrozenWordsReply, false, at)
  }
}
