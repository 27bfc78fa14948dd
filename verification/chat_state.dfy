/**
 The controller state of the iOS `ChatViewController` that the message and
 typing logic reads and writes, the effects its operations have on the
 world outside it (the unseen message manager, the views, notifications),
 and the two property observers: `currentBotID` and `isSendingEnabled`.
 */
module ChatState {
  import opened Wrappers
  import opened MessageModel

  /** Everything a controller operation does outside its own state, in order. */
  datatype Effect =
    // calls into the message manager, whose merge logic is not part of this model
    | ManagerClearMessages
    | ManagerProcessHistory(batch: seq<UIMessage>)
    | ManagerProcessStreaming(message: UIMessage)
    | ManagerProcessUpdated(message: UIMessage)
    // view updates
    | RefreshUI(animated: bool)
    | ApplyDataSourceSnapshot(animated: bool)
    | ShowLoadingIndicator
    | HideLoadingIndicator
    | ScrollToTop
    | ScrollToBottom
    | AddLoadingMessage
    | RemoveLoadingMessage
    | ShowSocketErrorAlert
    | AddUserPlaceholder(text: string)
    | AddBotPlaceholderLater
    | ClearTextField
    | DismissKeyboard
    | UserActionsEnabled(enabled: bool)
    // outgoing events
    | BotStartedTyping
    | BotFinishedTyping
    | ClearChatRequested

  /**
   `hasManager` is whether `messageManager` is set (it is from
   `viewDidLoad` on); the enabled flags of the send button and the text field
   are the controls `setUserActionsEnabled` writes.
   */
  datatype Controller = Controller(
    hasManager: bool,
    currentBotID: Option<string>,
    didRequestToClearChat: bool,
    isSendingEnabled: bool,
    sendButtonEnabled: bool,
    textFieldEnabled: bool
  )

  /** A controller operation's outcome: the state afterwards and the effects, in order. */
  datatype Step = Step(state: Controller, effects: seq<Effect>)

  /** The state after `viewDidLoad`: no bot composing, no clear pending, sending enabled. */
  const AfterViewDidLoad := Controller(true, None, false, true, true, true)

  /** The notification the `currentBotID` observer posts for a change from `before` to `after`. */
  function BotIDNotifications(before: Option<string>, after: Option<string>): (e: seq<Effect>)
    ensures e == [BotStartedTyping] <==> before.None? && after.Some?
    ensures e == [BotFinishedTyping] <==> before.Some? && after.None?
    ensures e == [] <==> before.Some? == after.Some?
  {
    if before.None? && after.Some? then [BotStartedTyping]
    else if before.Some? && after.None? then [BotFinishedTyping]
    else []
  }

  /** Assigning `currentBotID`, observer included. */
  function SetCurrentBotID(st: Controller, v: Option<string>): (r: Step)
    ensures r.state == st.(currentBotID := v)
    ensures r.effects == BotIDNotifications(st.currentBotID, v)
  {
    Step(st.(currentBotID := v), BotIDNotifications(st.currentBotID, v))
  }

  /** Moving from one bot id to another, or assigning the same value, posts nothing. */
  lemma SameOrSwitchedBotIDIsSilent(st: Controller, v: Option<string>)
    requires st.currentBotID.Some? == v.Some?
    ensures SetCurrentBotID(st, v).effects == []
  {
  }

  /** `setUserActionsEnabled(_:)`: the send button and the text field get the same value. */
  function SetUserActionsEnabled(st: Controller, enabled: bool): (r: Step)
    ensures r.state.sendButtonEnabled == enabled && r.state.textFieldEnabled == enabled
    ensures r.state.(sendButtonEnabled := st.sendButtonEnabled, textFieldEnabled := st.textFieldEnabled) == st
    ensures r.effects == [UserActionsEnabled(enabled)]
  {
    Step(st.(sendButtonEnabled := enabled, textFieldEnabled := enabled), [UserActionsEnabled(enabled)])
  }

  /** Assigning `isSendingEnabled`: the observer re-applies the controls only when the value changes. */
  function SetSendingEnabled(st: Controller, v: bool): (r: Step)
    ensures r.state.isSendingEnabled == v
    ensures r.state.currentBotID == st.currentBotID && r.state.didRequestToClearChat == st.didRequestToClearChat
    ensures v != st.isSendingEnabled ==> r.effects == [UserActionsEnabled(v)] && r.state.sendButtonEnabled == v && r.state.textFieldEnabled == v
    ensures v == st.isSendingEnabled ==> r == Step(st, [])
  {
    var stored := st.(isSendingEnabled := v);
    if st.isSendingEnabled != v then SetUserActionsEnabled(stored, v) else Step(stored, [])
  }
}
