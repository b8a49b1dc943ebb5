// The records the chat room passes around: log entries, the identity a tab
// announces, and the messages tabs exchange over the broadcast channel.

module ChatModel {

  datatype Option<+T> = None | Some(value: T)

  /** One entry of the log. `email` is absent (undefined) on system notices and,
      in the monolithic component, when the trimmed address is empty. */
  datatype Chat = Chat(
    id: string,
    name: string,
    color: string,
    message: string,
    time: int,
    system: bool,
    email: Option<string>)

  /** The identity carried by `join` and `leave`. */
  datatype User = User(id: string, name: string, color: string)

  /** The broadcast union: `chat`, `join`, `leave`, `req-presence`, `clear`. */
  datatype Msg =
    | ChatMsg(chat: Chat)
    | Join(user: User)
    | Leave(user: User)
    | ReqPresence
    | ClearMsg

  /** A recently active author, keyed by name. */
  datatype Participant = Participant(id: string, name: string, color: string)

  /** Author and colour of the room's own join and leave notices. */
  const NoticeName: string := "管理人"
  const NoticeColor: string := "#0000ff"

  /** A join or leave notice; its id is "sys-" followed by a random token. */
  function Notice(token: string, text: string, time: int): Chat {
    Chat("sys-" + token, NoticeName, NoticeColor, text, time, true, None)
  }
}
