/** What the handlers of both bot versions receive and send: decoded updates,
    reply messages with inline buttons, and the state of the text-edit conversation. */
module Chat {
  import opened Store

  /** An inline keyboard button: its caption and its callback data. */
  datatype Button = Button(caption: string, payload: string)

  /** A piece of a message: literal text, or the average of a window, whose
      rounding to one decimal is not modelled. */
  datatype Fragment = Lit(s: string) | Average(stats: Stats)

  /** A message sent with `reply_text`, with its keyboard (empty for none). */
  datatype Reply = Reply(text: seq<Fragment>, buttons: seq<Button>)

  function Plain(s: string): Reply {
    Reply([Lit(s)], [])
  }

  /** The kinds of update the handlers are registered for. A text message here is
      one that is not a command (`filters.TEXT & ~filters.COMMAND`). */
  datatype Kind =
    | CallbackQuery(payload: string)
    | TextMessage(text: string)
    | Command(name: string)
    | OtherUpdate

  /** An update, with the chat and the user it comes from. */
  datatype Update = Update(chat: int, user: int, kind: Kind)

  /** The state of one text-edit conversation: not in it, or in state TEXT_EDIT. */
  datatype ConvState = Idle | TextEdit

  /** What a conversation callback returns: TEXT_EDIT, ConversationHandler.END, or None. */
  datatype Returned = ToTextEdit | End | NoState

  /** The state after a callback returned: END leaves the conversation, None keeps
      whatever state there was. */
  function After(s: ConvState, r: Returned): ConvState {
    match r
    case ToTextEdit => TextEdit
    case End => Idle
    case NoState => s
  }

  /** Conversations are kept per (chat, user) pair; a pair without an entry is Idle. */
  type Sessions = map<(int, int), ConvState>

  function SessionOf(sessions: Sessions, chat: int, user: int): ConvState {
    if (chat, user) in sessions then sessions[(chat, user)] else Idle
  }
}
