/**
 The message record the chat UI renders, and the small enums around it
 (message type, origin, connection state). `UIMessage` itself lives in a
 file that is not part of this model; its fields are taken from the places
 that read them (the dictionary serialiser, the cells, the controller).
 */
module MessageModel {

  /** Which kind of placeholder a placeholder message stands for. */
  datatype PlaceholderKind = ForUser | ForBot | ForLoading

  /** `UIMessage.type`. The data source switches over exactly these three shapes. */
  datatype MessageType = User | Bot | Placeholder(kind: PlaceholderKind)

  /** `MessageOrigin`: the feed that produced a message. */
  datatype MessageOrigin = History | UpdateItem | Streaming

  /** The UI-side connection state (`ConnectionState`, seen by the controller as `UIConnectionState`). */
  datatype ConnectionState =
    | Connected
    | Disconnected
    | Loading
    | Loaded
    | Error(reason: string)
    | LoadingMore
    | LoadedMore

  /**
   A chat message as the UI holds it. `attributedText` is the plain string
   content of the attributed text.
   */
  datatype UIMessage = UIMessage(
    id: string,
    text: string,
    attributedText: string,
    messageType: MessageType,
    origin: MessageOrigin,
    messagePart: int,
    messageIndex: int,
    isBot: bool,
    isPlaceholder: bool,
    isFinished: bool,
    timestamp: string
  )

  /**
   `UIMessage.isUserOrBotPlaceholder`: the message is a user or a bot
   placeholder (a loading placeholder is neither). The property's body is
   not part of this model; this definition follows its name.
   */
  predicate IsUserOrBotPlaceholder(m: UIMessage)
  {
    m.messageType == Placeholder(ForUser) || m.messageType == Placeholder(ForBot)
  }
}
