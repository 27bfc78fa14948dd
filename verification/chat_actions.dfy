/**
 The user-facing actions of the iOS chat controller: the send guards, the
 clear-chat button, scrolling, and appending a text message to the snapshot
 on screen.
 */
module ChatActions {
  import opened Wrappers
  import opened MessageModel
  import opened ChatState
  import opened Snapshot
  import opened ProxyMessages

  /** `placeholderText`, shown in the empty input. */
  const PlaceholderText := "Type your question here..."

  /** `usesTextView`: the controller uses the text field. */
  const UsesTextView := false

  /** `sendTextFieldMessage()`: the text passed on to be sent, if any. Nil and empty text send nothing. */
  function SendTextFieldMessage(text: Option<string>): (sent: Option<string>)
    ensures sent.Some? <==> text.Some? && text.value != ""
    ensures sent.Some? ==> sent == text
  {
    if text.Some? && text.value != "" then text else None
  }

  /** What `sendTextViewMessage()` does: the text it sends, and whether it resets the view to the placeholder. */
  datatype TextViewSend = TextViewSend(sent: Option<string>, resetsToPlaceholder: bool)

  /** `sendTextViewMessage()`: as the text-field path, and text equal to the placeholder is not sent either. */
  function SendTextViewMessage(text: Option<string>): (r: TextViewSend)
    ensures r.sent.Some? <==> text.Some? && text.value != "" && text.value != PlaceholderText
    ensures r.sent.Some? ==> r.sent == text
    ensures r.resetsToPlaceholder <==> r.sent.Some?
  {
    if text.Some? && text.value != "" && text.value != PlaceholderText then TextViewSend(text, true)
    else TextViewSend(None, false)
  }

  /** `sendMessage()`: the input in use decides the path. */
  function SendMessage(fieldText: Option<string>, viewText: Option<string>): (sent: Option<string>)
    ensures sent.Some? <==> fieldText.Some? && fieldText.value != ""
    ensures sent.Some? ==> sent == fieldText
  {
    if UsesTextView then SendTextViewMessage(viewText).sent else SendTextFieldMessage(fieldText)
  }

  /** The text-view path sends a subset of what the text-field path would send for the same text. */
  lemma TextViewSendsLess(text: Option<string>)
    ensures SendTextViewMessage(text).sent.Some? ==> SendTextFieldMessage(text) == SendTextViewMessage(text).sent
    ensures SendTextFieldMessage(text).Some? && text.value != PlaceholderText ==> SendTextViewMessage(text).sent.Some?
  {
  }

  /** `sendChatMessage(_:)`: dismiss the keyboard, then the placeholder path (`isDemo` is false). */
  function SendChatMessage(st: Controller, onScreen: MessageSnapshot, text: string): (r: Step)
    ensures r.state == st
    ensures |r.effects| >= 1 && r.effects[0] == DismissKeyboard
    ensures r.effects[1..] == SendUIMessage(st, onScreen, text).effects
  {
    var send := SendUIMessage(st, onScreen, text);
    Step(st, [DismissKeyboard] + send.effects)
  }

  /** `rightButtonTapped()`: announces the clear request and marks it pending; the message list is untouched. */
  function RightButtonTapped(st: Controller): (r: Step)
    ensures r.state.didRequestToClearChat
    ensures r.state.(didRequestToClearChat := st.didRequestToClearChat) == st
    ensures r.effects == [ClearChatRequested]
  {
    Step(st.(didRequestToClearChat := true), [ClearChatRequested])
  }

  /** The row `scrollToBottom()` scrolls to, when the section has `rows` rows. */
  function ScrollToBottomRow(rows: nat): (target: Option<nat>)
    ensures target.None? <==> rows == 0
    ensures target.Some? ==> target.value < rows && target.value + 1 == rows
  {
    if rows > 0 then Some(rows - 1) else None
  }

  /** The row `scrollToTop()` scrolls to. */
  function ScrollToTopRow(rows: nat): (target: Option<nat>)
    ensures target.None? <==> rows == 0
    ensures target.Some? ==> target.value < rows && target.value == 0
  {
    if rows > 0 then Some(0) else None
  }

  /** Top and bottom are the same row exactly when the section has one row. */
  lemma ScrollTargetsMeetOnSingleRow(rows: nat)
    requires rows > 0
    ensures ScrollToTopRow(rows) == ScrollToBottomRow(rows) <==> rows == 1
  {
  }

  /** A snapshot change and what goes with it. */
  datatype SnapshotStep = SnapshotStep(snapshot: MessageSnapshot, effects: seq<Effect>)

  /** Appends one message at the end of the main section, creating the section only if there is none. */
  function AppendChatText(onScreen: MessageSnapshot, newMessage: UIMessage): (r: MessageSnapshot)
    requires onScreen.sections == [] || Main in onScreen.sections
    ensures r.items == onScreen.items + [newMessage]
    ensures r.sections == (if onScreen.sections == [] then [Main] else onScreen.sections)
  {
    AppendItems(EnsureSectionExists(onScreen, Main), [newMessage])
  }

  /**
   `addUserChatText(_:)`. The new message is made by a `UIMessage` factory
   outside this model, so it is a parameter.
   */
  function AddUserChatText(onScreen: MessageSnapshot, newMessage: UIMessage): (r: SnapshotStep)
    requires onScreen.sections == [] || Main in onScreen.sections
    ensures |r.snapshot.items| == |onScreen.items| + 1
    ensures r.snapshot.items[..|onScreen.items|] == onScreen.items
    ensures r.snapshot.items[|onScreen.items|] == newMessage
    ensures r.effects == [ApplyDataSourceSnapshot(true), ClearTextField, ScrollToBottom]
  {
    SnapshotStep(AppendChatText(onScreen, newMessage), [ApplyDataSourceSnapshot(true), ClearTextField, ScrollToBottom])
  }

  /** `addChatbotChatText(_:)`: the same append, without clearing the text field. */
  function AddChatbotChatText(onScreen: MessageSnapshot, newMessage: UIMessage): (r: SnapshotStep)
    requires onScreen.sections == [] || Main in onScreen.sections
    ensures |r.snapshot.items| == |onScreen.items| + 1
    ensures r.snapshot.items[..|onScreen.items|] == onScreen.items
    ensures r.snapshot.items[|onScreen.items|] == newMessage
    ensures r.effects == [ApplyDataSourceSnapshot(true), ScrollToBottom]
  {
    SnapshotStep(AppendChatText(onScreen, newMessage), [ApplyDataSourceSnapshot(true), ScrollToBottom])
  }

  /** After appending, scrolling to the bottom lands on the new message. */
  lemma ScrollAfterAppendShowsNewMessage(onScreen: MessageSnapshot, newMessage: UIMessage)
    requires onScreen.sections == [] || Main in onScreen.sections
    ensures var after := AddUserChatText(onScreen, newMessage).snapshot;
      ScrollToBottomRow(|after.items|) == Some(|onScreen.items|)
      && after.items[|onScreen.items|] == newMessage
  {
  }
}
