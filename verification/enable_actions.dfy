/** The bot typing states and the rule that gates sending on them. */
module EnableActions {
  import opened ChatState

  datatype BotTypingState = Idle | PlaceholderTyping | PlaceholderTypingDone | Typing | TypingDone

  /** `isTyping`: only the placeholder counts as typing; a streaming bot (`typing`) does not. */
  function IsTyping(s: BotTypingState): (b: bool)
    ensures b <==> s == PlaceholderTyping
    ensures s == Typing ==> !b
  {
    match s
    case PlaceholderTyping => true
    case _ => false
  }

  /**
   `handleBotTypingState(_:)`: sending is enabled exactly when the state is
   not typing, and the controls are applied once more after the observer.
   */
  function HandleBotTypingState(st: Controller, s: BotTypingState): (r: Step)
    ensures r.state.isSendingEnabled == !IsTyping(s)
    ensures r.state.sendButtonEnabled == !IsTyping(s) && r.state.textFieldEnabled == !IsTyping(s)
    ensures r.state.currentBotID == st.currentBotID && r.state.didRequestToClearChat == st.didRequestToClearChat
    ensures r.state.hasManager == st.hasManager
    ensures st.isSendingEnabled != !IsTyping(s) ==> r.effects == [UserActionsEnabled(!IsTyping(s)), UserActionsEnabled(!IsTyping(s))]
    ensures st.isSendingEnabled == !IsTyping(s) ==> r.effects == [UserActionsEnabled(!IsTyping(s))]
  {
    var stored := SetSendingEnabled(st, !IsTyping(s));
    var applied := SetUserActionsEnabled(stored.state, stored.state.isSendingEnabled);
    Step(applied.state, stored.effects + applied.effects)
  }

  /** Every state but the placeholder one leaves sending enabled. */
  lemma OnlyPlaceholderDisablesSending(st: Controller, s: BotTypingState)
    ensures !HandleBotTypingState(st, s).state.isSendingEnabled <==> s == PlaceholderTyping
  {
  }

  /** Handling the same state twice changes nothing the second time but re-applying the controls. */
  lemma HandleBotTypingStateIdempotent(st: Controller, s: BotTypingState)
    ensures var once := HandleBotTypingState(st, s);
      HandleBotTypingState(once.state, s) == Step(once.state, [UserActionsEnabled(!IsTyping(s))])
  {
  }
}
