/**
 How the iOS chat controller reacts to what the socket proxy delivers:
 connection-state changes, history batches, streaming messages and updated
 messages, and the placeholder guard when the user sends. The message
 manager's merge is not part of this model: its calls appear as effects, and
 its answer to `receivedMessagesAreOlder` enters as a flag.
 */
module ProxyMessages {
  import opened Wrappers
  import opened MessageModel
  import opened ChatState
  import opened Snapshot

  /** `handleConnectionStateChange(_:)`. */
  function HandleConnectionStateChange(st: Controller, c: ConnectionState): (r: Step)
    ensures r.state == st
    ensures c.Connected? || c.Disconnected? ==> r.effects == []
    ensures c.LoadingMore? <==> r.effects == [AddLoadingMessage]
    ensures c.LoadedMore? <==> r.effects == [RemoveLoadingMessage]
    ensures c.Loading? <==> r.effects == [ShowLoadingIndicator]
    ensures c.Loaded? <==> r.effects == [HideLoadingIndicator]
    ensures c.Error? <==> r.effects == [ShowSocketErrorAlert]
  {
    var effects := match c
      case Connected => []
      case Disconnected => []
      case Loading => [ShowLoadingIndicator]
      case Loaded => [HideLoadingIndicator]
      case Error(_) => [ShowSocketErrorAlert]
      case LoadingMore => [AddLoadingMessage]
      case LoadedMore => [RemoveLoadingMessage];
    Step(st, effects)
  }

  /**
   `processHistoryMessages(_:)`. An empty batch while a clear is pending is
   the confirmation of the clear: the flag resets and the manager is cleared,
   with no merge. Any other batch is merged and scrolled to the top when the
   manager reports it as older, to the bottom otherwise.
   */
  function ProcessHistoryMessages(st: Controller, batch: seq<UIMessage>, receivedAreOlder: bool): (r: Step)
    ensures !st.hasManager ==> r == Step(st, [])
    ensures st.hasManager && batch == [] && st.didRequestToClearChat ==>
              r == Step(st.(didRequestToClearChat := false), [ManagerClearMessages, RefreshUI(true), HideLoadingIndicator])
    ensures st.hasManager && !(batch == [] && st.didRequestToClearChat) ==>
              && r.state == st
              && ManagerClearMessages !in r.effects
              && ManagerProcessHistory(batch) in r.effects
              && (ScrollToTop in r.effects <==> receivedAreOlder)
              && (ScrollToBottom in r.effects <==> !receivedAreOlder)
    ensures r.state.currentBotID == st.currentBotID
  {
    if !st.hasManager then Step(st, [])
    else if batch == [] && st.didRequestToClearChat then
      Step(st.(didRequestToClearChat := false), [ManagerClearMessages, RefreshUI(true), HideLoadingIndicator])
    else
      Step(st, [ShowLoadingIndicator, ManagerProcessHistory(batch), RefreshUI(false),
                if receivedAreOlder then ScrollToTop else ScrollToBottom, HideLoadingIndicator])
  }

  /**
   `updateBotIDWithMessage(_:)`: a finished bot message with the id of the
   composing bot ends the composing; anything else leaves the state alone.
   */
  function UpdateBotIDWithMessage(st: Controller, m: UIMessage): (r: Step)
    ensures (m.messageType == Bot && m.isFinished && st.currentBotID == Some(m.id)) ==>
              r == Step(st.(currentBotID := None), [BotFinishedTyping])
    ensures !(m.messageType == Bot && m.isFinished && st.currentBotID == Some(m.id)) ==> r == Step(st, [])
  {
    if m.messageType == Bot && m.isFinished && st.currentBotID.Some? && m.id == st.currentBotID.value then
      SetCurrentBotID(st, None)
    else Step(st, [])
  }

  /**
   `processStreamingMessage(_:)`. The default empty message is skipped
   outright. Otherwise the manager merges the message; an idle controller
   takes the message's id as the composing bot (even if the message is
   already finished), and a composing one ends exactly when
   `updateBotIDWithMessage` says so.
   `isDefaultEmptyMessage` is computed by `UIMessage`, outside this model.
   */
  function ProcessStreamingMessage(st: Controller, m: UIMessage, isDefaultEmptyMessage: bool): (r: Step)
    ensures !st.hasManager || isDefaultEmptyMessage ==> r == Step(st, [])
    ensures st.hasManager && !isDefaultEmptyMessage ==>
              && |r.effects| >= 3
              && r.effects[..2] == [ManagerProcessStreaming(m), RefreshUI(false)]
              && r.effects[|r.effects| - 1] == ScrollToBottom
    ensures st.hasManager && !isDefaultEmptyMessage && st.currentBotID.None? ==>
              r.state.currentBotID == Some(m.id) && BotStartedTyping in r.effects
    ensures st.currentBotID.Some? ==> r.state.currentBotID in {st.currentBotID, None}
    ensures st.hasManager && !isDefaultEmptyMessage && st.currentBotID.Some? ==>
              r.state == UpdateBotIDWithMessage(st, m).state
    ensures r.state.didRequestToClearChat == st.didRequestToClearChat && r.state.isSendingEnabled == st.isSendingEnabled
  {
    if !st.hasManager || isDefaultEmptyMessage then Step(st, [])
    else
      var botID := if st.currentBotID.None? then SetCurrentBotID(st, Some(m.id)) else UpdateBotIDWithMessage(st, m);
      Step(botID.state, [ManagerProcessStreaming(m), RefreshUI(false)] + botID.effects + [ScrollToBottom])
  }

  /** `processUpdatedMessage(_:)`: the manager merges the update, then the composing bot may end. */
  function ProcessUpdatedMessage(st: Controller, m: UIMessage): (r: Step)
    ensures !st.hasManager ==> r == Step(st, [])
    ensures st.hasManager ==>
              && |r.effects| >= 2
              && r.effects[0] == ManagerProcessUpdated(m)
              && r.effects[|r.effects| - 1] == RefreshUI(false)
    ensures st.hasManager ==> r.state == UpdateBotIDWithMessage(st, m).state
    ensures st.currentBotID.Some? ==> r.state.currentBotID in {st.currentBotID, None}
    ensures st.currentBotID.None? ==> r.state.currentBotID.None?
  {
    if !st.hasManager then Step(st, [])
    else
      var botID := UpdateBotIDWithMessage(st, m);
      Step(botID.state, [ManagerProcessUpdated(m)] + botID.effects + [RefreshUI(false)])
  }

  /**
   `sendUIMessage(_:)`: adds the user placeholder, and later the bot
   placeholder, unless the snapshot on screen already holds a user or bot
   placeholder.
   */
  function SendUIMessage(st: Controller, onScreen: MessageSnapshot, text: string): (r: Step)
    ensures r.state == st
    ensures HasUserOrBotPlaceholders(onScreen) ==> r.effects == []
    ensures !HasUserOrBotPlaceholders(onScreen) ==> r.effects == [AddUserPlaceholder(text), AddBotPlaceholderLater]
  {
    if HasUserOrBotPlaceholders(onScreen) then Step(st, [])
    else Step(st, [AddUserPlaceholder(text), AddBotPlaceholderLater])
  }
}
