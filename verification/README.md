# ChatSDKUnified controller core in Dafny

This project models the decision logic that sits around the chat SDK's
message store, on iOS (UIKit) and macOS (AppKit), and proves properties of it:

- the iOS `ChatViewController` state machine: the composing bot id
  (`currentBotID`) and the notifications its observer posts; the pending
  clear-chat request (`didRequestToClearChat`), which only an empty history
  batch confirms; the skipping of the default empty streaming message; the
  guard against duplicate placeholders; the send guards; the scroll targets;
  appending a text message to the snapshot; and the typing-state rule that
  enables or disables sending;
- the traffic log's entry builders, and the `SocketEventReplayer` that reads
  a log back one dispatch at a time, with its skip set and the `"on "`
  prefix it strips;
- the adapters between the socket layer and the UI layer: connection
  states, message sources and origins, and the socket message seen through
  the message interface;
- the render decisions: message type to cell kind on both platforms, the
  macOS row lookup, and the three branches of a bot cell's `configure`,
  including its placeholder-animation flag;
- the dictionary renderings of `UIMessage` and `SocketMessage`, with their
  fixed key sets and their decimal and boolean spellings.

Each controller operation is a pure function from a `Controller` state to a
`Step`, which is the new state plus the ordered list of `Effect`s the
operation has outside the controller. Those effects are calls into the message
manager, view updates and posted events. `ControllerRuns` folds whole event
sequences and proves properties of complete runs.

Two behaviours of the code differ from what a reader might expect, and the
model follows the code in both:

- One might expect an empty history batch that confirms a pending clear to
  also reset `currentBotID`. The code only resets the request flag and
  clears the manager; `ProxyMessages.ProcessHistoryMessages` keeps
  `currentBotID` as it was.
- One might expect composing to start only on the first delta of an
  unfinished bot stream. The code starts composing on any streaming message
  that arrives while idle, even a finished one, and even one that is not
  from the bot (`ControllerRuns.FinishedFirstDeltaStartsComposing`).

## Model

| member | source | states |
|---|---|---|
| ChatState.BotIDNotifications | Packages/Sources/ResChatUIKit/Sources/ResChatUIKit/UI/ChatViewController.swift:123-143 | a start notification exactly for nil to some id, a finish exactly for some id to nil, and nothing when both sides are nil or both hold an id |
| ChatState.SetCurrentBotID | Packages/Sources/ResChatUIKit/Sources/ResChatUIKit/UI/ChatViewController.swift:123-143 | assigning the bot id stores the value and posts the observer's notifications for the old and new value |
| ChatState.SameOrSwitchedBotIDIsSilent | Packages/Sources/ResChatUIKit/Sources/ResChatUIKit/UI/ChatViewController.swift:126-141 | moving from one id to another, or reassigning the same value, posts no notification |
| ChatState.SetUserActionsEnabled | Packages/Sources/ResChatUIKit/Sources/ResChatUIKit/UI/ChatViewController+EnableActions.swift:29-36 | the send button and the text field both get the given value, whichever input is in use; nothing else changes |
| ChatState.SetSendingEnabled | Packages/Sources/ResChatUIKit/Sources/ResChatUIKit/UI/ChatViewController.swift:114-121 | the controls are re-applied only when the value actually changes; assigning the current value changes nothing |
| EnableActions.IsTyping | Packages/Sources/ResChatUIKit/Sources/ResChatUIKit/UI/ChatViewController+EnableActions.swift:19-26 | only the placeholder-typing state counts as typing; a streaming bot (`typing`) does not |
| EnableActions.HandleBotTypingState | Packages/Sources/ResChatUIKit/Sources/ResChatUIKit/UI/ChatViewController+EnableActions.swift:12-41 | afterwards sending and both controls are enabled exactly when the state is not typing; the controls are applied once, or twice when the flag changed |
| EnableActions.OnlyPlaceholderDisablesSending | Packages/Sources/ResChatUIKit/Sources/ResChatUIKit/UI/ChatViewController+EnableActions.swift:19-41 | sending ends up disabled if and only if the state is the placeholder-typing one; a streaming bot (`typing`) does not disable it |
| EnableActions.HandleBotTypingStateIdempotent | Packages/Sources/ResChatUIKit/Sources/ResChatUIKit/UI/ChatViewController+EnableActions.swift:38-41 | handling the same state a second time leaves the state alone and only re-applies the controls once |
| ProxyMessages.HandleConnectionStateChange | Sources/ResChatUIKit/Sources/ResChatUIKit/ChatProtocolImplementations/ChatViewController+ProxyMessages.swift:16-35 | loading more adds the loading message and loaded more removes it; loading and loaded show and hide the indicator; an error shows the alert; connected and disconnected do nothing |
| ProxyMessages.ProcessHistoryMessages | Sources/ResChatUIKit/Sources/ResChatUIKit/ChatProtocolImplementations/ChatViewController+ProxyMessages.swift:40-68 | with no manager nothing happens. An empty batch with a clear pending resets the flag and clears the manager, with no merge and no scroll. Any other batch never clears, keeps the flag, is merged, and scrolls to the top exactly when the manager calls it older |
| ProxyMessages.UpdateBotIDWithMessage | Sources/ResChatUIKit/Sources/ResChatUIKit/ChatProtocolImplementations/ChatViewController+ProxyMessages.swift:113-119 | the bot id becomes nil, posting the finish, if and only if the message is a finished bot message carrying the current id; otherwise nothing changes |
| ProxyMessages.ProcessStreamingMessage | Sources/ResChatUIKit/Sources/ResChatUIKit/ChatProtocolImplementations/ChatViewController+ProxyMessages.swift:70-93 | the default empty message and a missing manager are complete no-ops. Otherwise the message is merged and the view refreshed and scrolled to the bottom; an idle controller takes the message's id; an active id ends exactly as `updateBotIDWithMessage` says, that is for a finished bot message carrying that id, and otherwise stays |
| ProxyMessages.ProcessUpdatedMessage | Sources/ResChatUIKit/Sources/ResChatUIKit/ChatProtocolImplementations/ChatViewController+ProxyMessages.swift:95-107 | the update is merged first and the view refreshed last; the bot id changes as the finished-message rule says, and an update never starts composing |
| ProxyMessages.SendUIMessage | Sources/ResChatUIKit/Sources/ResChatUIKit/ChatProtocolImplementations/ChatViewController+ProxyMessages.swift:143-156 | no placeholder is added while the snapshot holds a user or bot placeholder; otherwise the user placeholder and, later, the bot placeholder |
| ChatActions.SendTextFieldMessage | Packages/Sources/ResChatUIKit/Sources/ResChatUIKit/UI/ChatViewController.swift:615-618 | text is sent if and only if it is present and not empty, and then unchanged |
| ChatActions.SendTextViewMessage | Packages/Sources/ResChatUIKit/Sources/ResChatUIKit/UI/ChatViewController.swift:620-626 | text is sent if and only if it is present, not empty and not the placeholder text; the view is reset exactly when it sends |
| ChatActions.SendMessage | Packages/Sources/ResChatUIKit/Sources/ResChatUIKit/UI/ChatViewController.swift:607-613 | with the text field in use (`usesTextView` is false), text is sent if and only if the field holds non-empty text, and then that text unchanged |
| ChatActions.TextViewSendsLess | Packages/Sources/ResChatUIKit/Sources/ResChatUIKit/UI/ChatViewController.swift:615-626 | whatever the text-view path sends, the text-field path sends too; the two differ only on the placeholder text |
| ChatActions.SendChatMessage | Packages/Sources/ResChatUIKit/Sources/ResChatUIKit/UI/ChatViewController.swift:629-636 | the keyboard is dismissed first, then the placeholder path runs; the state is untouched |
| ChatActions.RightButtonTapped | Packages/Sources/ResChatUIKit/Sources/ResChatUIKit/UI/ChatViewController.swift:642-646 | the clear request is announced and marked pending; no other state changes and the message list is not touched |
| ChatActions.ScrollToBottomRow | Packages/Sources/ResChatUIKit/Sources/ResChatUIKit/UI/ChatViewController.swift:656-664 | no scroll without rows; otherwise the last row |
| ChatActions.ScrollToTopRow | Packages/Sources/ResChatUIKit/Sources/ResChatUIKit/UI/ChatViewController.swift:666-674 | no scroll without rows; otherwise row 0 |
| ChatActions.ScrollTargetsMeetOnSingleRow | Packages/Sources/ResChatUIKit/Sources/ResChatUIKit/UI/ChatViewController.swift:656-674 | with rows present, top and bottom are the same row exactly when there is one row |
| ChatActions.AppendChatText | Packages/Sources/ResChatUIKit/Sources/ResChatUIKit/UI/ChatViewController.swift:575-582 | the items become the old items followed by the new message; a main section is created only when there are no sections |
| ChatActions.AddUserChatText | Packages/Sources/ResChatUIKit/Sources/ResChatUIKit/UI/ChatViewController.swift:572-585 | exactly one message is added, at the end, with the earlier items unchanged; then the snapshot is applied animated, the text field cleared and the view scrolled to the bottom |
| ChatActions.AddChatbotChatText | Packages/Sources/ResChatUIKit/Sources/ResChatUIKit/UI/ChatViewController.swift:587-599 | the same append as for the user, without clearing the text field |
| ChatActions.ScrollAfterAppendShowsNewMessage | Packages/Sources/ResChatUIKit/Sources/ResChatUIKit/UI/ChatViewController.swift:572-585 | after the append, the bottom row is the new message |
| Snapshot.AppendSection | Packages/Sources/ResChatUIKit/Sources/ResChatUIKit/DataSource/UIMessageSnapshot.swift:19 | the section goes at the end and the items stay |
| Snapshot.AppendItems | Packages/Sources/ResChatUIKit/Sources/ResChatUIKit/UI/ChatViewController.swift:582 | the items are added after the existing ones, which are unchanged; the sections stay |
| Snapshot.EnsureSectionExists | Packages/Sources/ResChatUIKit/Sources/ResChatUIKit/DataSource/UIMessageSnapshot.swift:17-21 | the section is appended only when there are no sections; the items never change |
| Snapshot.EnsureSectionExistsIdempotent | Packages/Sources/ResChatUIKit/Sources/ResChatUIKit/DataSource/UIMessageSnapshot.swift:17-21 | applying it twice is applying it once |
| Snapshot.AnyUserOrBotPlaceholder | Packages/Sources/ResChatUIKit/Sources/ResChatUIKit/DataSource/UIMessageSnapshot.swift:24 | the scan is true if and only if some item is a user or bot placeholder |
| Snapshot.HasUserOrBotPlaceholders | Packages/Sources/ResChatUIKit/Sources/ResChatUIKit/DataSource/UIMessageSnapshot.swift:23-25 | true if and only if some item of the snapshot is a user or bot placeholder |
| Snapshot.SnapshotOf | Packages/Sources/ResChatUIKit/Sources/ResChatUIKit/DataSource/UIMessageDataSource.swift:53-58 | a fresh snapshot with the main section only, holding the messages in order |
| DataSource.CellKindFor | Packages/Sources/ResChatUIKit/Sources/ResChatUIKit/DataSource/UIMessageDataSource.swift:20-44 | user messages and user placeholders get the user cell, bot messages and bot placeholders the bot cell, and the loading placeholder the loading cell, each if and only if |
| DataSource.IOSCellFor | Packages/Sources/ResChatUIKit/Sources/ResChatUIKit/DataSource/UIMessageDataSource.swift:20-44 | a cell is returned if and only if the dequeued cell has the kind the message type selects |
| DataSource.ApplySnapshot | Sources/ResChatAppKitUI/Sources/ResChatAppKitUI/UIMessageDataSource.swift:35-45 | the data source then holds the given snapshot |
| DataSource.NumberOfRows | Sources/ResChatAppKitUI/Sources/ResChatAppKitUI/UIMessageDataSource.swift:49-51 | the table has one row per item of the stored snapshot, and none exactly when the snapshot has no items |
| DataSource.MacViewFor | Sources/ResChatAppKitUI/Sources/ResChatAppKitUI/UIMessageDataSource.swift:53-86 | no view if and only if the row is out of range. Otherwise the view has the kind the row's type selects and always has an identifier; a made view of the wrong class is replaced by a fresh cell, and a missing identifier is assigned |
| DataSource.PlatformsAgreeOnCellKind | Sources/ResChatAppKitUI/Sources/ResChatAppKitUI/UIMessageDataSource.swift:61-73 | for a row in range, macOS always yields a view, and when iOS yields a cell the two have the same kind |
| DataSource.AppliedSnapshotRows | Sources/ResChatAppKitUI/Sources/ResChatAppKitUI/UIMessageDataSource.swift:35-51 | after applying a snapshot of the messages, there is one row per message and each row shows its message's kind |
| BotCell.IsEmptyBotHistory | Packages/Sources/ResChatUIKit/Sources/ResChatUIKit/UI/Cells/ChatBotMessageCell+Configure.swift:121-124 | true if and only if the message comes from history and the bot is waiting |
| BotCell.ShouldAnimatePlaceholder | Packages/Sources/ResChatUIKit/Sources/ResChatUIKit/UI/Cells/ChatBotMessageCell+Configure.swift:126-128 | true if and only if the message is a bot placeholder and the bot is waiting |
| BotCell.BranchFor | Packages/Sources/ResChatUIKit/Sources/ResChatUIKit/UI/Cells/ChatBotMessageCell+Configure.swift:22-39 | empty bot history if and only if the origin is history and the bot is waiting; the placeholder branch if and only if it is a waiting bot placeholder not from history; otherwise the normal branch |
| BotCell.HandlePlaceholderAnimation | Packages/Sources/ResChatUIKit/Sources/ResChatUIKit/UI/Cells/ChatBotMessageCell+Configure.swift:46-60 | afterwards the flag is set; the indicator and the fade start only if it was clear |
| BotCell.HandlePlaceholderAnimationIdempotent | Packages/Sources/ResChatUIKit/Sources/ResChatUIKit/UI/Cells/ChatBotMessageCell+Configure.swift:46-60 | a second call does nothing |
| BotCell.IOSStopPlaceholderAnimation | Packages/Sources/ResChatUIKit/Sources/ResChatUIKit/UI/Cells/ChatBotMessageCell+Configure.swift:62-64 | clears the flag and does nothing else |
| BotCell.MacStopPlaceholderAnimation | Sources/ResChatAppKitUI/Sources/ResChatAppKitUI/Cells/ChatBotMessageCell.swift:76-79 | clears the flag and also resets the label animation |
| BotCell.PulseEffects | Packages/Sources/ResChatUIKit/Sources/ResChatUIKit/UI/Cells/ChatBotMessageCell+Configure.swift:36-38 | a pulse if and only if the message is a finished update |
| BotCell.IOSConfigure | Packages/Sources/ResChatUIKit/Sources/ResChatUIKit/UI/Cells/ChatBotMessageCell+Configure.swift:11-40 | the label animation is reset first. Empty history only shows the text; the placeholder branch animates without showing the text; the normal branch stops the animation and shows the text. It pulses exactly for a finished update in the normal branch, and shows the indicator and starts the fade exactly when the placeholder branch meets a cell whose flag is clear |
| BotCell.MacConfigure | Sources/ResChatAppKitUI/Sources/ResChatAppKitUI/Cells/ChatBotMessageCell.swift:32-53 | the same branch decisions and outcomes as on iOS, including the fade starting exactly when the placeholder branch meets a cell whose flag is clear |
| BotCell.WithoutResets | Sources/ResChatAppKitUI/Sources/ResChatAppKitUI/Cells/ChatBotMessageCell.swift:76-79 | the effects with every label reset removed, and nothing else removed |
| BotCell.PlatformsAgree | Sources/ResChatAppKitUI/Sources/ResChatAppKitUI/Cells/ChatBotMessageCell.swift:32-53 | macOS and iOS leave the same flag and, label resets aside, have the same effects |
| BotCell.ReconfiguringPlaceholderIsQuiet | Packages/Sources/ResChatUIKit/Sources/ResChatUIKit/UI/Cells/ChatBotMessageCell+Configure.swift:27-60 | configuring the same waiting placeholder again starts no second indicator or fade |
| BotCell.ReconfiguredPlaceholderLosesFade | Packages/Sources/ResChatUIKit/Sources/ResChatUIKit/UI/Cells/ChatBotMessageCell+Configure.swift:20-47 | as written: after a second configure with the same streaming placeholder, the flag says animating while no fade runs |
| BotCell.IOSConfigureFixed | Packages/Sources/ResChatUIKit/Sources/ResChatUIKit/UI/Cells/ChatBotMessageCell+Configure.swift:11-40 | corrected configure: the flag is set exactly in the placeholder branch, with the fade started, and the pulse is decided as before |
| BotCell.FixedConfigureKeepsFlagHonest | Packages/Sources/ResChatUIKit/Sources/ResChatUIKit/UI/Cells/ChatBotMessageCell+Configure.swift:20-60 | with the corrected configure, the flag says animating exactly when the fade runs, after any configure from any state |
| BotCell.FixedConfigureSameDecision | Packages/Sources/ResChatUIKit/Sources/ResChatUIKit/UI/Cells/ChatBotMessageCell+Configure.swift:11-40 | the correction changes no branch decision: the same text and pulse, and identical effects from a clear flag |
| ConnectionStateAdapter.ToConnectionState | Sources/ResChatProxy/Sources/ResChatProxy/Model+External/Socket/ConnectionStateProviding+Socket.swift:12-31 | each socket state maps to the UI state of the same name, case for case, and an error keeps its reason |
| ConnectionStateAdapter.ToSocketConnectionState | Sources/ResChatProxy/Sources/ResChatProxy/Model+External/Socket/ConnectionStateProviding+Socket.swift:33-52 | each UI state maps to the socket state of the same name, case for case, and an error keeps its reason |
| ConnectionStateAdapter.SocketRoundTrip | Sources/ResChatProxy/Sources/ResChatProxy/Model+External/Socket/ConnectionStateProviding+Socket.swift:12-52 | socket to UI and back gives the original state |
| ConnectionStateAdapter.UIRoundTrip | Sources/ResChatProxy/Sources/ResChatProxy/Model+External/Socket/ConnectionStateProviding+Socket.swift:12-52 | UI to socket and back gives the original state |
| ConnectionStateAdapter.MappingIsBijective | Sources/ResChatProxy/Sources/ResChatProxy/Model+External/Socket/ConnectionStateProviding+Socket.swift:12-52 | the mapping is injective and every UI state is reached |
| MessageOriginAdapter.ToMessageOrigin | Packages/Sources/ResChatProxy/Sources/ResChatProxy/Model+External/Socket/MessageOriginProviding+Socket.swift:12-23 | history, history update item and streaming map to history, update item and streaming, each if and only if |
| MessageOriginAdapter.ToMessageOriginInjective | Packages/Sources/ResChatProxy/Sources/ResChatProxy/Model+External/Socket/MessageOriginProviding+Socket.swift:12-23 | different sources give different origins |
| MessageOriginAdapter.ToMessageOriginSurjective | Packages/Sources/ResChatProxy/Sources/ResChatProxy/Model+External/Socket/MessageOriginProviding+Socket.swift:12-23 | every origin comes from some source |
| MessageProvidingAdapter.ToMessage | Packages/Sources/ResChatProxy/Sources/ResChatProxy/Model+External/Socket/MessageProviding+Socket.swift:12-39 | the message interface shows the mapped origin, and the timestamp, part number, finished flag and bot flag of the socket message |
| MessageProvidingAdapter.ToMessageDeterminesFields | Packages/Sources/ResChatProxy/Sources/ResChatProxy/Model+External/Socket/MessageProviding+Socket.swift:12-33 | two socket messages with the same view agree on source, timestamp, part number and both flags |
| MessageProvidingAdapter.ViewAgreesWithDictionary | Packages/Sources/ResChatSocket/Sources/ResChatSocket/SocketMessage+DictionaryRepresentable.swift:12-25 | the dictionary's part number, finished flag, bot flag and timestamp read back as the view's values |
| SocketMessageModel.ToDictionary | Packages/Sources/ResChatSocket/Sources/ResChatSocket/SocketMessage+DictionaryRepresentable.swift:12-25 | exactly the eight fixed keys, and the source spelled by its raw value |
| SocketMessageModel.DictionaryRoundTrip | Packages/Sources/ResChatSocket/Sources/ResChatSocket/SocketMessage+DictionaryRepresentable.swift:12-25 | reading the dictionary back recovers every field, with a missing raw text read as the dash |
| SocketMessageModel.MissingRawTextLooksLikeDash | Packages/Sources/ResChatSocket/Sources/ResChatSocket/SocketMessage+DictionaryRepresentable.swift:13-16 | a missing raw text and a raw text of a single dash give the same dictionary |
| UIMessageDictionary.UIMessageKeyCount | Sources/ResChatUICommon/Sources/ResChatUICommon/Model/UIMessage+DictionaryRepresentable.swift:13-24 | the rendering has ten distinct keys |
| UIMessageDictionary.ToDictionary | Sources/ResChatUICommon/Sources/ResChatUICommon/Model/UIMessage+DictionaryRepresentable.swift:12-26 | exactly the fixed keys, with the type and origin spelled by their string values and the attributed text as is |
| UIMessageDictionary.DictionaryRoundTrip | Sources/ResChatUICommon/Sources/ResChatUICommon/Model/UIMessage+DictionaryRepresentable.swift:12-26 | reading the dictionary back recovers the message's text, numbers and flags |
| UIMessageDictionary.DictionarySeparatesFields | Sources/ResChatUICommon/Sources/ResChatUICommon/Model/UIMessage+DictionaryRepresentable.swift:12-26 | messages that differ in those fields give different dictionaries |
| Decimal.DigitChar | Sources/ResChatUICommon/Sources/ResChatUICommon/Model/UIMessage+DictionaryRepresentable.swift:18-19 | the character is a digit whose value is the given one |
| Decimal.DigitValue | Sources/ResChatUICommon/Sources/ResChatUICommon/Model/UIMessage+DictionaryRepresentable.swift:18-19 | a digit's value is below ten |
| Decimal.NatToString | Sources/ResChatUICommon/Sources/ResChatUICommon/Model/UIMessage+DictionaryRepresentable.swift:18-19 | a non-empty string of digits, with a leading zero only for zero |
| Decimal.IntToString | Sources/ResChatUICommon/Sources/ResChatUICommon/Model/UIMessage+DictionaryRepresentable.swift:18-19 | non-empty, and starts with a minus sign if and only if the number is negative |
| Decimal.ParseNatOfNatToString | Sources/ResChatUICommon/Sources/ResChatUICommon/Model/UIMessage+DictionaryRepresentable.swift:18-19 | parsing the digits of a natural number gives the number back |
| Decimal.NegativeRoundTrip | Sources/ResChatUICommon/Sources/ResChatUICommon/Model/UIMessage+DictionaryRepresentable.swift:18-19 | a minus sign followed by the digits of a positive number parses to its negation |
| Decimal.IntToStringRoundTrip | Sources/ResChatUICommon/Sources/ResChatUICommon/Model/UIMessage+DictionaryRepresentable.swift:18-19 | parsing the rendering of any integer gives it back |
| Decimal.IntToStringInjective | Sources/ResChatUICommon/Sources/ResChatUICommon/Model/UIMessage+DictionaryRepresentable.swift:18-19 | different integers render differently |
| Decimal.BoolToString | Sources/ResChatUICommon/Sources/ResChatUICommon/Model/UIMessage+DictionaryRepresentable.swift:20-22 | "true" or "false", and "true" exactly for true |
| Decimal.ParseBool | Sources/ResChatUICommon/Sources/ResChatUICommon/Model/UIMessage+DictionaryRepresentable.swift:20-22 | parses exactly the two spellings |
| Decimal.BoolToStringRoundTrip | Sources/ResChatUICommon/Sources/ResChatUICommon/Model/UIMessage+DictionaryRepresentable.swift:20-22 | parsing the rendering of a boolean gives it back |
| TrafficLog.EventName | Packages/Sources/ResChatLogging/Sources/ResChatLogging/Logs/TrafficLog.swift:146-152 | the entry's event if and only if it is present and a string |
| TrafficLog.ConnectEntry | Packages/Sources/ResChatLogging/Sources/ResChatLogging/Logs/TrafficLog.swift:66-79 | exactly the keys event and params, with the connect key as the event and the parameters as given |
| TrafficLog.DisconnectEntry | Packages/Sources/ResChatLogging/Sources/ResChatLogging/Logs/TrafficLog.swift:81-91 | only the event key, holding the disconnect key |
| TrafficLog.EmitMessageEntry | Packages/Sources/ResChatLogging/Sources/ResChatLogging/Logs/TrafficLog.swift:93-105 | exactly event, key and payload, with the event "emitMessage" |
| TrafficLog.SocketCallbackEntry | Packages/Sources/ResChatLogging/Sources/ResChatLogging/Logs/TrafficLog.swift:107-122 | exactly event, key, payload and response, with the event "callback" |
| TrafficLog.OnResponseEntry | Packages/Sources/ResChatLogging/Sources/ResChatLogging/Logs/TrafficLog.swift:124-140 | exactly event and data, with the event "on " followed by the name, and the data as given |
| TrafficLog.Log | Packages/Sources/ResChatLogging/Sources/ResChatLogging/Logs/TrafficLog.swift:66-140 | an inactive log appends nothing; an active one appends exactly the call's entry at the end |
| TrafficLog.InactiveLogsNothing | Packages/Sources/ResChatLogging/Sources/ResChatLogging/Logs/TrafficLog.swift:66-140 | any sequence of calls to an inactive log leaves the entries unchanged |
| TrafficLog.ActiveLogsInOrder | Packages/Sources/ResChatLogging/Sources/ResChatLogging/Logs/TrafficLog.swift:66-140 | an active log keeps the earlier entries and appends one entry per call, in call order |
| EventReplayer.CleanEventName | Sources/ResChatSocket/Sources/ResChatSocket/TrafficLog.swift:61-67 | exactly one leading "on " is stripped when present; any other name is kept |
| EventReplayer.CleanEventNameInvertsOnPrefix | Sources/ResChatSocket/Sources/ResChatSocket/TrafficLog.swift:61-67 | stripping undoes the logger's "on " naming |
| EventReplayer.KeyNamed | Sources/ResChatSocket/Sources/ResChatSocket/TrafficLog.swift:69-96 | a key is found only if its raw value is the name, and none is found only if no key has it |
| EventReplayer.Replay | Sources/ResChatSocket/Sources/ResChatSocket/TrafficLog.swift:56-97 | something is dispatched if and only if the entry has a string event whose cleaned name is a known key and has a data array; the handler is the one the switch assigns to that key, and the data is passed unchanged |
| EventReplayer.ReplayInvertsLogOnResponse | Sources/ResChatSocket/Sources/ResChatSocket/TrafficLog.swift:56-97 | replaying a logged response for a key dispatches that key's handler with the logged data |
| EventReplayer.LoggedConnectReplaysNothing | Sources/ResChatSocket/Sources/ResChatSocket/TrafficLog.swift:69-73 | a logged connect has no data array, so replaying it dispatches nothing |
| EventReplayer.HasMore | Sources/ResChatSocket/Sources/ResChatSocket/TrafficLog.swift:23-25 | more is left if and only if some entry remains |
| EventReplayer.NextConsumesWhileHasMore | Sources/ResChatSocket/Sources/ResChatSocket/TrafficLog.swift:35-54 | with nothing left `next()` changes nothing and replays nothing; otherwise it consumes at least one entry and moves the cursor |
| EventReplayer.Skipped | Sources/ResChatSocket/Sources/ResChatSocket/TrafficLog.swift:40-48 | an entry is passed over when it has no string event or when its raw event is in the skip set |
| EventReplayer.SkipChecksRawEventName | Sources/ResChatSocket/Sources/ResChatSocket/TrafficLog.swift:45-48 | a logged response is skipped if and only if its `"on "` name is in the skip set; the bare key name in the set does not skip it |
| EventReplayer.EntryWithoutEventIsSkipped | Sources/ResChatSocket/Sources/ResChatSocket/TrafficLog.swift:40-43 | an entry without a string event is passed over whatever the skip set holds |
| EventReplayer.NewReplayer | Sources/ResChatSocket/Sources/ResChatSocket/TrafficLog.swift:27-33 | the replayer starts with all entries, the skip set, and the cursor at -1 |
| EventReplayer.NextOf | Sources/ResChatSocket/Sources/ResChatSocket/TrafficLog.swift:35-54 | entries are consumed from the front only, the cursor advancing by one per entry; every consumed entry before the replayed one is skipped; at most one entry is replayed, and if none is, the queue ends empty |
| EventReplayer.Next | Sources/ResChatSocket/Sources/ResChatSocket/TrafficLog.swift:35-54 | the loop computes the same result as the reference, and dispatches exactly what replaying the replayed entry dispatches |
| EventReplayer.DrainReplaysNotSkipped | Sources/ResChatSocket/Sources/ResChatSocket/TrafficLog.swift:35-54 | calling next until the queue is empty replays exactly the entries that are not skipped, in order |
| EventReplayer.UsageLoopSpinsAfterDrain | Sources/ResChatSocket/Sources/ResChatSocket/TrafficLog.swift:100-111 | after draining, the cursor is one less than the log's length, so the documented loop's condition still holds while `next()` makes no progress |
| EventReplayer.ReplayAll | Sources/ResChatSocket/Sources/ResChatSocket/TrafficLog.swift:100-111 | calling `next()` while `hasMore` stops with nothing left and the cursor moved once per entry, having replayed exactly the entries that are not skipped, in order |
| EventReplayer.NextStep | Sources/ResChatSocket/Sources/ResChatSocket/TrafficLog.swift:35-54 | one `next()` with entries left consumes at least one entry, keeps the drained outcome, and replays at most the next entry of the drain |
| EventReplayer.DrainStep | Sources/ResChatSocket/Sources/ResChatSocket/TrafficLog.swift:35-54 | after one `next()`, the entries still to be replayed are the rest of the drain |
| EventReplayer.DrainedWhenEmpty | Sources/ResChatSocket/Sources/ResChatSocket/TrafficLog.swift:23-25 | once `hasMore` is false the replayer is already drained and replays nothing more |
| EventReplayer.DrainAdvancesCursorPerEntry | Sources/ResChatSocket/Sources/ResChatSocket/TrafficLog.swift:37 | draining moves the cursor by the number of entries |
| ControllerRuns.Apply | Sources/ResChatUIKit/Sources/ResChatUIKit/ChatProtocolImplementations/ChatViewController+ProxyMessages.swift:40-107 | no event changes whether the manager is set |
| ControllerRuns.Run | Sources/ResChatUIKit/Sources/ResChatUIKit/ChatProtocolImplementations/ChatViewController+ProxyMessages.swift:40-107 | no run changes whether the manager is set, and the empty run does nothing |
| ControllerRuns.TypingTrace | Packages/Sources/ResChatUIKit/Sources/ResChatUIKit/UI/ChatViewController.swift:123-143 | effects without notifications leave the composing state as it was |
| ControllerRuns.NotificationsTrace | Packages/Sources/ResChatUIKit/Sources/ResChatUIKit/UI/ChatViewController.swift:123-143 | the observer's notifications lead from the old value's composing state to the new one's |
| ControllerRuns.QuietStep | Sources/ResChatUIKit/Sources/ResChatUIKit/ChatProtocolImplementations/ChatViewController+ProxyMessages.swift:16-68 | connection changes, history batches, taps, typing changes and sends post no composing notification and keep the bot id |
| ControllerRuns.StreamingFacts | Sources/ResChatUIKit/Sources/ResChatUIKit/ChatProtocolImplementations/ChatViewController+ProxyMessages.swift:70-93 | a streaming message posts alternating notifications, a finish exactly when an active id ends and a start exactly when an idle controller takes an id |
| ControllerRuns.UpdateFacts | Sources/ResChatUIKit/Sources/ResChatUIKit/ChatProtocolImplementations/ChatViewController+ProxyMessages.swift:95-107 | the same for an updated message |
| ControllerRuns.StepTrace | Sources/ResChatUIKit/Sources/ResChatUIKit/ChatProtocolImplementations/ChatViewController+ProxyMessages.swift:70-119 | in every step the notifications alternate, starting from whether a bot was composing and ending in whether one is |
| ControllerRuns.RunAlternates | Packages/Sources/ResChatUIKit/Sources/ResChatUIKit/UI/ChatViewController.swift:123-143 | over any run, start and finish notifications alternate and end in the final composing state |
| ControllerRuns.FromLoadedFirstNotificationIsStart | Packages/Sources/ResChatUIKit/Sources/ResChatUIKit/UI/ChatViewController.swift:123 | from the initial state, no run posts a finish before a start |
| ControllerRuns.StepNeverSwitchesBot | Sources/ResChatUIKit/Sources/ResChatUIKit/ChatProtocolImplementations/ChatViewController+ProxyMessages.swift:86-119 | an active bot id is never replaced by another one; it ends if and only if a finish is posted |
| ControllerRuns.StepIdleUntilStarted | Sources/ResChatUIKit/Sources/ResChatUIKit/ChatProtocolImplementations/ChatViewController+ProxyMessages.swift:86-87 | an idle controller becomes composing if and only if a start is posted |
| ControllerRuns.RunKeepsBotUntilFinished | Sources/ResChatUIKit/Sources/ResChatUIKit/ChatProtocolImplementations/ChatViewController+ProxyMessages.swift:86-119 | over a run without a finish notification, the composing bot keeps its id |
| ControllerRuns.StreamingKeepsClear | Sources/ResChatUIKit/Sources/ResChatUIKit/ChatProtocolImplementations/ChatViewController+ProxyMessages.swift:70-93 | a streaming message never clears the manager and leaves the clear request alone |
| ControllerRuns.UpdateKeepsClear | Sources/ResChatUIKit/Sources/ResChatUIKit/ChatProtocolImplementations/ChatViewController+ProxyMessages.swift:95-107 | an updated message never clears the manager and leaves the clear request alone |
| ControllerRuns.HistoryClears | Sources/ResChatUIKit/Sources/ResChatUIKit/ChatProtocolImplementations/ChatViewController+ProxyMessages.swift:50-56 | a history batch clears the manager once exactly when it confirms a pending request, and that consumes the request |
| ControllerRuns.StepClears | Sources/ResChatUIKit/Sources/ResChatUIKit/ChatProtocolImplementations/ChatViewController+ProxyMessages.swift:50-56 | a step clears the manager once exactly when an empty history batch meets a pending request, and otherwise never; the request is then consumed, and only a tap sets it |
| ControllerRuns.RunClearsAtMostOncePerTap | Sources/ResChatUIKit/Sources/ResChatUIKit/ChatProtocolImplementations/ChatViewController+ProxyMessages.swift:50-56 | over any run, the clears plus the request still pending never exceed the taps plus the request pending at the start |
| ControllerRuns.NoTapNoClear | Packages/Sources/ResChatUIKit/Sources/ResChatUIKit/UI/ChatViewController.swift:642-646 | with no request pending and no tap, nothing ever clears the manager |
| ControllerRuns.ClearChatWaitsForEmptyHistory | Sources/ResChatUIKit/Sources/ResChatUIKit/ChatProtocolImplementations/ChatViewController+ProxyMessages.swift:50-67 | after a tap, a non-empty batch is merged as usual and only the following empty batch clears, with these exact effects |
| ControllerRuns.ComposingScenario | Sources/ResChatUIKit/Sources/ResChatUIKit/ChatProtocolImplementations/ChatViewController+ProxyMessages.swift:70-107 | two unfinished deltas and a finishing update of one bot message: composing starts on the first delta and ends on the update, with these exact effects |
| ControllerRuns.FinishedFirstDeltaStartsComposing | Sources/ResChatUIKit/Sources/ResChatUIKit/ChatProtocolImplementations/ChatViewController+ProxyMessages.swift:86-90 | a finished message arriving while idle still starts composing, and a second copy ends it if and only if it is a bot message |

## Left out

- The message manager (`UIMessageManager`) is not part of this model: its merge, `receivedMessagesAreOlder`, `clearMessages` and `uiMessages` appear as effects, and the older-or-newer answer enters as a flag. `updateUI` is therefore the effect `RefreshUI`, which rebuilds the snapshot from the manager's messages.
- `messagesArrived()`, which `updateUI` calls first, is not defined in the modelled files and is not part of this model. The model assumes it leaves `currentBotID`, `didRequestToClearChat` and `isSendingEnabled` as they are; the run properties in `ControllerRuns` rest on that assumption.
- `UIMessage.swift` is not part of this model. `isBotWaiting` and `isDefaultEmptyMessage` enter as flags. `isUserOrBotPlaceholder` is taken to mean a placeholder for the user or the bot, as its name says. The raw values of the message type, origin and socket source enter as spelling functions.
- The raw values of `SocketEventKey` are not part of this model. The replayer takes a table of them and, where it matters, the fact that Swift raw values are distinct.
- Logging I/O is left out because it only writes files and prints: `UILog`, the log file, `print`, and the replayer's "Replaying" lines.
- The notification layer is left out, namely posting and observing `Notification`s. The observer posts `BotStartedTyping` and `BotFinishedTyping` effects. `ChatViewController+Notifications.swift` posts the started name from the stopped-typing helper and registers the started observer twice. Its `subscribeToNotifications()` call is commented out, so no typing notification reaches `handleBotTypingState` in the code shown.
- Timing is left out. The 0.8 s delay before the bot placeholder is the single effect `AddBotPlaceholderLater`, and animation durations are not modelled. `StartPlaceholderFade` stands for both fades: the iOS one repeats, while the macOS one is a single 0.5 s animation group.
- View plumbing is left out: layout, colours and appearance providers, attributed-text construction, the timestamp label, debugging colours, the keyboard, and the actual scrolling or dequeuing.
- Speech recognition, the demo path `sendUIText` (`isDemo` is false), the macOS `ChatWiewController` stub and the airport variants are outside the controller core.
- `DataSource.MacViewFor`: the row is a `nat`. A negative row passes the source's bounds guard and would trap on indexing, and that case is not modelled.
- Identifier uniqueness of snapshot items, which the diffable data source demands, is not modelled. Appending keeps the earlier items but does not check that the new message's id is fresh.
- Strings are sequences of Unicode code points. Swift's `hasPrefix("on ")` and `dropFirst(3)` work on grapheme clusters, and its `switch` on strings and `Set<String>.contains` compare up to canonical equivalence. The model compares event names code point by code point, which agrees with Swift for ASCII event names such as the socket's keys but not, for example, for `"on \u{301}x"`.
- `ChatSection` is declared outside the modelled files. The model assumes it has the single case `.main`, the only one the controller uses.
- `ProxyMessages.ProcessHistoryMessages`: the order of the loading indicator and view effects is modelled, but what the manager does with the batch is not.

## Findings

| source | as written | input that shows it | evidently intended | confidence | as-written member | corrected member |
|---|---|---|---|---|---|---|
| Packages/Sources/ResChatUIKit/Sources/ResChatUIKit/UI/Cells/ChatBotMessageCell+Configure.swift:20-47 | `configure` removes the label's animations before branching, but leaves `isAnimatingPlaceholder` set; `handlePlaceholderAnimation` then returns early because the flag is still set | configure a cell with a waiting bot placeholder of streaming origin, then configure it again with the same message (a reload or cell reuse): the flag stays true and no fade runs | resetting the animations also clears the flag, so the placeholder fade restarts | not executed; medium | BotCell.ReconfiguredPlaceholderLosesFade | BotCell.IOSConfigureFixed, BotCell.FixedConfigureKeepsFlagHonest |
| Sources/ResChatSocket/Sources/ResChatSocket/TrafficLog.swift:100-111 | the documented usage loop runs `while eventReplayer.currentIndex < logEntries.count` | any log, for example an empty one: the cursor starts at -1 and, once every entry is consumed, stays at one less than the count, so the condition never becomes false and `next()` does nothing | loop `while eventReplayer.hasMore` | not executed; high | EventReplayer.UsageLoopSpinsAfterDrain | EventReplayer.ReplayAll |
