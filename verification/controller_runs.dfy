/**
 The iOS chat controller as an event-driven machine: every input it reacts
 to (proxy deliveries, the clear button, connection and typing changes, a
 user send) is a `ChatEvent`, and a run folds the events left to right. The
 lemmas here are the properties of whole runs: the composing notifications
 alternate, the composing bot is never switched to another id, and the
 message manager is cleared only when an empty history batch confirms a
 pending clear request, at most once per request.
 */
module ControllerRuns {
  import opened Wrappers
  import opened MessageModel
  import opened ChatState
  import opened Snapshot
  import opened ProxyMessages
  import opened EnableActions
  import opened ChatActions

  datatype ChatEvent =
    | HistoryArrived(batch: seq<UIMessage>, receivedAreOlder: bool)
    | StreamingArrived(message: UIMessage, isDefaultEmptyMessage: bool)
    | UpdateArrived(message: UIMessage)
    | ClearChatTapped
    | ConnectionChanged(connection: ConnectionState)
    | TypingStateChanged(typing: BotTypingState)
    | UserSent(onScreen: MessageSnapshot, text: string)

  /** The controller's reaction to one event. */
  function Apply(st: Controller, ev: ChatEvent): (r: Step)
    ensures r.state.hasManager == st.hasManager
  {
    match ev
    case HistoryArrived(batch, older) => ProcessHistoryMessages(st, batch, older)
    case StreamingArrived(m, isDefaultEmpty) => ProcessStreamingMessage(st, m, isDefaultEmpty)
    case UpdateArrived(m) => ProcessUpdatedMessage(st, m)
    case ClearChatTapped => RightButtonTapped(st)
    case ConnectionChanged(c) => HandleConnectionStateChange(st, c)
    case TypingStateChanged(s) => HandleBotTypingState(st, s)
    case UserSent(onScreen, text) => SendChatMessage(st, onScreen, text)
  }

  /** The events applied in order; the effects of each step follow those of the one before. */
  function Run(st: Controller, evs: seq<ChatEvent>): (r: Step)
    decreases |evs|
    ensures r.state.hasManager == st.hasManager
    ensures evs == [] ==> r == Step(st, [])
  {
    if evs == [] then Step(st, [])
    else
      var first := Apply(st, evs[0]);
      var rest := Run(first.state, evs[1..]);
      Step(rest.state, first.effects + rest.effects)
  }

  lemma RunCons(st: Controller, evs: seq<ChatEvent>)
    requires evs != []
    ensures Run(st, evs).state == Run(Apply(st, evs[0]).state, evs[1..]).state
    ensures Run(st, evs).effects == Apply(st, evs[0]).effects + Run(Apply(st, evs[0]).state, evs[1..]).effects
  {
  }

  // ----- Composing notifications -----

  /**
   Reads the started/finished notifications in `effects` as a two-state
   machine that begins `busy` or not: a start is only allowed when idle and a
   finish only when busy. The result is the state at the end, or `None` if
   the notifications do not alternate.
   */
  function TypingTrace(effects: seq<Effect>, busy: bool): (r: Option<bool>)
    decreases |effects|
    ensures BotStartedTyping !in effects && BotFinishedTyping !in effects ==> r == Some(busy)
  {
    if effects == [] then Some(busy)
    else if effects[0] == BotStartedTyping then (if busy then None else TypingTrace(effects[1..], true))
    else if effects[0] == BotFinishedTyping then (if busy then TypingTrace(effects[1..], false) else None)
    else TypingTrace(effects[1..], busy)
  }

  /** Reading two effect lists one after the other is reading their concatenation. */
  lemma {:induction false} TraceAppend(a: seq<Effect>, b: seq<Effect>, busy: bool)
    decreases |a|
    ensures TypingTrace(a + b, busy) == (match TypingTrace(a, busy) case None => None case Some(x) => TypingTrace(b, x))
  {
    if a == [] {
      assert a + b == b;
    } else {
      assert (a + b)[0] == a[0];
      assert (a + b)[1..] == a[1..] + b;
      if a[0] == BotStartedTyping {
        if !busy { TraceAppend(a[1..], b, true); }
      } else if a[0] == BotFinishedTyping {
        if busy { TraceAppend(a[1..], b, false); }
      } else {
        TraceAppend(a[1..], b, busy);
      }
    }
  }

  /** The `currentBotID` observer's notifications take the machine from the old value's state to the new one's. */
  lemma NotificationsTrace(before: Option<string>, after: Option<string>)
    ensures TypingTrace(BotIDNotifications(before, after), before.Some?) == Some(after.Some?)
  {
  }

  /** Events other than deliveries of messages post no composing notification and keep the bot id. */
  lemma QuietStep(st: Controller, ev: ChatEvent)
    requires !ev.StreamingArrived? && !ev.UpdateArrived?
    ensures BotStartedTyping !in Apply(st, ev).effects && BotFinishedTyping !in Apply(st, ev).effects
    ensures Apply(st, ev).state.currentBotID == st.currentBotID
  {
    match ev
    case HistoryArrived(batch, older) =>
    case ClearChatTapped =>
    case ConnectionChanged(c) =>
    case TypingStateChanged(s) =>
    case UserSent(onScreen, text) =>
  }

  /** The composing notifications of a delivered streaming message are those of its bot id change. */
  lemma StreamingNotifications(st: Controller, m: UIMessage, isDefaultEmpty: bool)
    requires st.hasManager && !isDefaultEmpty
    ensures var r := ProcessStreamingMessage(st, m, isDefaultEmpty);
      r.effects == [ManagerProcessStreaming(m), RefreshUI(false)]
                   + (BotIDNotifications(st.currentBotID, r.state.currentBotID) + [ScrollToBottom])
  {
  }

  /** The composing notifications of an updated message are those of its bot id change. */
  lemma UpdateNotifications(st: Controller, m: UIMessage)
    requires st.hasManager
    ensures var r := ProcessUpdatedMessage(st, m);
      r.effects == [ManagerProcessUpdated(m)] + (BotIDNotifications(st.currentBotID, r.state.currentBotID) + [RefreshUI(false)])
  {
  }

  /** The trace through `head + notifications + [tail]` when `head` and `tail` are no notifications. */
  lemma FramedNotificationsTrace(head: seq<Effect>, before: Option<string>, after: Option<string>, tail: Effect)
    requires BotStartedTyping !in head && BotFinishedTyping !in head
    requires tail != BotStartedTyping && tail != BotFinishedTyping
    ensures TypingTrace(head + (BotIDNotifications(before, after) + [tail]), before.Some?) == Some(after.Some?)
  {
    NotificationsTrace(before, after);
    TraceAppend(head, BotIDNotifications(before, after) + [tail], before.Some?);
    TraceAppend(BotIDNotifications(before, after), [tail], before.Some?);
  }

  /** Which notification `head + notifications + [tail]` holds, when `head` and `tail` are no notifications. */
  lemma FramedNotificationsMembership(head: seq<Effect>, before: Option<string>, after: Option<string>, tail: Effect)
    requires BotStartedTyping !in head && BotFinishedTyping !in head
    requires tail != BotStartedTyping && tail != BotFinishedTyping
    ensures BotFinishedTyping in head + (BotIDNotifications(before, after) + [tail]) <==> before.Some? && after.None?
    ensures BotStartedTyping in head + (BotIDNotifications(before, after) + [tail]) <==> before.None? && after.Some?
  {
  }

  /** A streaming message's notifications: they alternate, and each one marks the matching bot id change. */
  lemma StreamingFacts(st: Controller, m: UIMessage, isDefaultEmpty: bool)
    ensures var r := ProcessStreamingMessage(st, m, isDefaultEmpty);
      && TypingTrace(r.effects, st.currentBotID.Some?) == Some(r.state.currentBotID.Some?)
      && (BotFinishedTyping in r.effects <==> st.currentBotID.Some? && r.state.currentBotID.None?)
      && (BotStartedTyping in r.effects <==> st.currentBotID.None? && r.state.currentBotID.Some?)
  {
    if st.hasManager && !isDefaultEmpty {
      var r := ProcessStreamingMessage(st, m, isDefaultEmpty);
      var head := [ManagerProcessStreaming(m), RefreshUI(false)];
      StreamingNotifications(st, m, isDefaultEmpty);
      FramedNotificationsTrace(head, st.currentBotID, r.state.currentBotID, ScrollToBottom);
      FramedNotificationsMembership(head, st.currentBotID, r.state.currentBotID, ScrollToBottom);
    }
  }

  /** An updated message's notifications: they alternate, and each one marks the matching bot id change. */
  lemma UpdateFacts(st: Controller, m: UIMessage)
    ensures var r := ProcessUpdatedMessage(st, m);
      && TypingTrace(r.effects, st.currentBotID.Some?) == Some(r.state.currentBotID.Some?)
      && (BotFinishedTyping in r.effects <==> st.currentBotID.Some? && r.state.currentBotID.None?)
      && (BotStartedTyping in r.effects <==> st.currentBotID.None? && r.state.currentBotID.Some?)
  {
    if st.hasManager {
      var r := ProcessUpdatedMessage(st, m);
      var head := [ManagerProcessUpdated(m)];
      UpdateNotifications(st, m);
      FramedNotificationsTrace(head, st.currentBotID, r.state.currentBotID, RefreshUI(false));
      FramedNotificationsMembership(head, st.currentBotID, r.state.currentBotID, RefreshUI(false));
    }
  }

  /** One step's notifications lead from "a bot is composing" before the step to the same fact after it. */
  lemma StepTrace(st: Controller, ev: ChatEvent)
    ensures TypingTrace(Apply(st, ev).effects, st.currentBotID.Some?) == Some(Apply(st, ev).state.currentBotID.Some?)
  {
    if ev.StreamingArrived? {
      StreamingFacts(st, ev.message, ev.isDefaultEmptyMessage);
    } else if ev.UpdateArrived? {
      UpdateFacts(st, ev.message);
    } else {
      QuietStep(st, ev);
    }
  }

  /**
   Over any run the started and finished notifications alternate, starting
   from whether a bot was composing, and end in whether one is composing.
   */
  lemma {:induction false} RunAlternates(st: Controller, evs: seq<ChatEvent>)
    decreases |evs|
    ensures TypingTrace(Run(st, evs).effects, st.currentBotID.Some?) == Some(Run(st, evs).state.currentBotID.Some?)
  {
    if evs != [] {
      var first := Apply(st, evs[0]);
      RunCons(st, evs);
      StepTrace(st, evs[0]);
      RunAlternates(first.state, evs[1..]);
      TraceAppend(first.effects, Run(first.state, evs[1..]).effects, st.currentBotID.Some?);
    }
  }

  /** From the loaded state, the first composing notification of any run is a start. */
  lemma FromLoadedFirstNotificationIsStart(evs: seq<ChatEvent>)
    ensures TypingTrace(Run(AfterViewDidLoad, evs).effects, false).Some?
  {
    RunAlternates(AfterViewDidLoad, evs);
  }

  // ----- The composing bot id -----

  /** No single step replaces one composing bot id with another. */
  lemma StepNeverSwitchesBot(st: Controller, ev: ChatEvent)
    requires st.currentBotID.Some?
    ensures Apply(st, ev).state.currentBotID in {st.currentBotID, None}
    ensures Apply(st, ev).state.currentBotID.None? <==> BotFinishedTyping in Apply(st, ev).effects
  {
    if ev.StreamingArrived? {
      StreamingFacts(st, ev.message, ev.isDefaultEmptyMessage);
    } else if ev.UpdateArrived? {
      UpdateFacts(st, ev.message);
    } else {
      QuietStep(st, ev);
    }
  }

  /** While idle, only a start notification ends idleness. */
  lemma StepIdleUntilStarted(st: Controller, ev: ChatEvent)
    requires st.currentBotID.None?
    ensures Apply(st, ev).state.currentBotID.Some? <==> BotStartedTyping in Apply(st, ev).effects
  {
    if ev.StreamingArrived? {
      StreamingFacts(st, ev.message, ev.isDefaultEmptyMessage);
    } else if ev.UpdateArrived? {
      UpdateFacts(st, ev.message);
    } else {
      QuietStep(st, ev);
    }
  }

  /** Over a run with no finish notification, a composing bot keeps its id. */
  lemma {:induction false} RunKeepsBotUntilFinished(st: Controller, evs: seq<ChatEvent>)
    requires st.currentBotID.Some?
    requires BotFinishedTyping !in Run(st, evs).effects
    decreases |evs|
    ensures Run(st, evs).state.currentBotID == st.currentBotID
  {
    if evs != [] {
      var first := Apply(st, evs[0]);
      RunCons(st, evs);
      StepNeverSwitchesBot(st, evs[0]);
      assert BotFinishedTyping !in first.effects;
      RunKeepsBotUntilFinished(first.state, evs[1..]);
    }
  }

  // ----- Clearing the chat -----

  /** Number of clear-button taps among the events. */
  function Taps(evs: seq<ChatEvent>): nat
  {
    multiset(evs)[ClearChatTapped]
  }

  /** Number of manager clears among the effects. */
  function Clears(effects: seq<Effect>): nat
  {
    multiset(effects)[ManagerClearMessages]
  }

  /** Whether a step meets a pending clear request with the empty history batch that confirms it. */
  predicate ConfirmsClear(st: Controller, ev: ChatEvent)
  {
    st.hasManager && ev.HistoryArrived? && ev.batch == [] && st.didRequestToClearChat
  }

  /** A streaming message never clears the manager nor touches the clear request. */
  lemma StreamingKeepsClear(st: Controller, m: UIMessage, isDefaultEmpty: bool)
    ensures Clears(ProcessStreamingMessage(st, m, isDefaultEmpty).effects) == 0
    ensures ProcessStreamingMessage(st, m, isDefaultEmpty).state.didRequestToClearChat == st.didRequestToClearChat
  {
    if st.hasManager && !isDefaultEmpty {
      var r := ProcessStreamingMessage(st, m, isDefaultEmpty);
      StreamingNotifications(st, m, isDefaultEmpty);
      var notes := BotIDNotifications(st.currentBotID, r.state.currentBotID);
      assert ManagerClearMessages !in notes;
      assert ManagerClearMessages !in r.effects;
    }
  }

  /** An updated message never clears the manager nor touches the clear request. */
  lemma UpdateKeepsClear(st: Controller, m: UIMessage)
    ensures Clears(ProcessUpdatedMessage(st, m).effects) == 0
    ensures ProcessUpdatedMessage(st, m).state.didRequestToClearChat == st.didRequestToClearChat
  {
    if st.hasManager {
      var r := ProcessUpdatedMessage(st, m);
      UpdateNotifications(st, m);
      var notes := BotIDNotifications(st.currentBotID, r.state.currentBotID);
      assert ManagerClearMessages !in notes;
      assert ManagerClearMessages !in r.effects;
    }
  }

  /** A history batch clears the manager exactly when it confirms a pending request, and that consumes it. */
  lemma HistoryClears(st: Controller, ev: ChatEvent)
    requires ev.HistoryArrived?
    ensures Clears(Apply(st, ev).effects) == if ConfirmsClear(st, ev) then 1 else 0
    ensures Apply(st, ev).state.didRequestToClearChat == (st.didRequestToClearChat && !ConfirmsClear(st, ev))
  {
  }

  /** The remaining events never clear the manager; a tap sets the request. */
  lemma OtherEventClears(st: Controller, ev: ChatEvent)
    requires ev.ClearChatTapped? || ev.ConnectionChanged? || ev.TypingStateChanged? || ev.UserSent?
    ensures Clears(Apply(st, ev).effects) == 0
    ensures Apply(st, ev).state.didRequestToClearChat == (ev.ClearChatTapped? || st.didRequestToClearChat)
  {
    match ev
    case ClearChatTapped =>
    case ConnectionChanged(c) =>
    case TypingStateChanged(s) =>
    case UserSent(onScreen, text) =>
  }

  /**
   A step clears the manager exactly when an empty history batch meets a
   pending clear request; the request is then consumed, and only a tap sets it.
   */
  lemma StepClears(st: Controller, ev: ChatEvent)
    ensures Clears(Apply(st, ev).effects) == if ConfirmsClear(st, ev) then 1 else 0
    ensures Apply(st, ev).state.didRequestToClearChat
            == if ev.ClearChatTapped? then true
               else if ConfirmsClear(st, ev) then false
               else st.didRequestToClearChat
  {
    if ev.StreamingArrived? {
      StreamingKeepsClear(st, ev.message, ev.isDefaultEmptyMessage);
    } else if ev.UpdateArrived? {
      UpdateKeepsClear(st, ev.message);
    } else if ev.HistoryArrived? {
      HistoryClears(st, ev);
    } else {
      OtherEventClears(st, ev);
    }
  }

  lemma ClearsAppend(a: seq<Effect>, b: seq<Effect>)
    ensures Clears(a + b) == Clears(a) + Clears(b)
  {
    assert multiset(a + b) == multiset(a) + multiset(b);
  }

  lemma TapsCons(evs: seq<ChatEvent>)
    requires evs != []
    ensures Taps(evs) == (if evs[0].ClearChatTapped? then 1 else 0) + Taps(evs[1..])
  {
    assert evs == [evs[0]] + evs[1..];
    assert multiset(evs) == multiset([evs[0]]) + multiset(evs[1..]);
  }

  /**
   Each clear consumes one request: the clears of a run, plus the request
   still pending at its end, never exceed the taps plus the request pending
   at its start.
   */
  lemma {:induction false} RunClearsAtMostOncePerTap(st: Controller, evs: seq<ChatEvent>)
    decreases |evs|
    ensures Clears(Run(st, evs).effects) + (if Run(st, evs).state.didRequestToClearChat then 1 else 0)
            <= Taps(evs) + (if st.didRequestToClearChat then 1 else 0)
  {
    if evs != [] {
      var first := Apply(st, evs[0]);
      var rest := Run(first.state, evs[1..]);
      RunCons(st, evs);
      StepClears(st, evs[0]);
      RunClearsAtMostOncePerTap(first.state, evs[1..]);
      ClearsAppend(first.effects, rest.effects);
      TapsCons(evs);
    }
  }

  /** Without a pending request and without a tap, no run clears the manager. */
  lemma NoTapNoClear(st: Controller, evs: seq<ChatEvent>)
    requires !st.didRequestToClearChat
    requires ClearChatTapped !in evs
    ensures ManagerClearMessages !in Run(st, evs).effects
  {
    RunClearsAtMostOncePerTap(st, evs);
    assert Taps(evs) == 0;
  }

  // ----- Scenarios -----

  /**
   A tap, then a stale non-empty history batch, then the empty batch: the
   stale batch is merged as usual and only the empty one completes the clear.
   */
  lemma ClearChatWaitsForEmptyHistory(m: UIMessage)
    ensures var r := Run(AfterViewDidLoad, [ClearChatTapped, HistoryArrived([m], false), HistoryArrived([], false)]);
      && !r.state.didRequestToClearChat
      && r.effects == [ClearChatRequested,
                       ShowLoadingIndicator, ManagerProcessHistory([m]), RefreshUI(false), ScrollToBottom, HideLoadingIndicator,
                       ManagerClearMessages, RefreshUI(true), HideLoadingIndicator]
  {
    var evs := [ClearChatTapped, HistoryArrived([m], false), HistoryArrived([], false)];
    var s1 := Apply(AfterViewDidLoad, evs[0]).state;
    var s2 := Apply(s1, evs[1]).state;
    RunCons(AfterViewDidLoad, evs);
    RunCons(s1, evs[1..]);
    assert evs[1..][1..] == [HistoryArrived([], false)];
    RunCons(s2, evs[1..][1..]);
    assert evs[1..][1..][1..] == [];
  }

  /**
   A bot message streamed in two unfinished deltas and finished by an
   update: composing starts on the first delta and ends on the update.
   */
  lemma ComposingScenario(hel: UIMessage, hello: UIMessage, done: UIMessage)
    requires hel.id == "m1" && hello.id == "m1" && done.id == "m1"
    requires !hel.isFinished && !hello.isFinished
    requires done.messageType == Bot && done.isFinished
    ensures var r := Run(AfterViewDidLoad, [StreamingArrived(hel, false), StreamingArrived(hello, false), UpdateArrived(done)]);
      && r.state.currentBotID.None?
      && r.effects == [ManagerProcessStreaming(hel), RefreshUI(false), BotStartedTyping, ScrollToBottom,
                       ManagerProcessStreaming(hello), RefreshUI(false), ScrollToBottom,
                       ManagerProcessUpdated(done), BotFinishedTyping, RefreshUI(false)]
    ensures Apply(AfterViewDidLoad, StreamingArrived(hel, false)).state.currentBotID == Some("m1")
  {
    var evs := [StreamingArrived(hel, false), StreamingArrived(hello, false), UpdateArrived(done)];
    var s1 := Apply(AfterViewDidLoad, evs[0]).state;
    assert s1.currentBotID == Some("m1");
    var s2 := Apply(s1, evs[1]).state;
    assert s2.currentBotID == Some("m1");
    RunCons(AfterViewDidLoad, evs);
    RunCons(s1, evs[1..]);
    assert evs[1..][1..] == [UpdateArrived(done)];
    RunCons(s2, evs[1..][1..]);
    assert evs[1..][1..][1..] == [];
  }

  /**
   A delta that arrives already finished while idle still starts composing;
   only another finished bot message with the same id ends it.
   */
  lemma FinishedFirstDeltaStartsComposing(m: UIMessage)
    requires m.isFinished
    ensures var r := Apply(AfterViewDidLoad, StreamingArrived(m, false));
      r.state.currentBotID == Some(m.id) && BotStartedTyping in r.effects
    ensures var r := Apply(AfterViewDidLoad, StreamingArrived(m, false));
      Apply(r.state, StreamingArrived(m, false)).state.currentBotID.None? <==> m.messageType == Bot
  {
  }
}
