/**
 `SocketEventReplayer`: feeds a recorded traffic log back into the socket's
 handlers one entry at a time. The replayer holds the entries not yet
 consumed, a cursor, and a set of raw event names to skip. Each `next()`
 consumes entries from the front until one is replayed or none are left.
 */
module EventReplayer {
  import opened Wrappers
  import opened TrafficLog

  /** `ResChatSocket.SocketEventKey`, in the order the replayer's switch tests them. */
  datatype SocketEventKey = ConnectKey | DisconnectKey | ErrorKey | SendHistorySnapshotKey | StreamMessageKey | UpdateHistoryItemKey

  /**
   The raw values of `SocketEventKey`. They are declared with the socket
   client, which is not part of this model, so they are a parameter.
   */
  datatype EventKeyTable = EventKeyTable(
    connect: string,
    disconnect: string,
    error: string,
    sendHistorySnapshot: string,
    streamMessage: string,
    updateHistoryItem: string
  )

  function RawValue(keys: EventKeyTable, k: SocketEventKey): string
  {
    match k
    case ConnectKey => keys.connect
    case DisconnectKey => keys.disconnect
    case ErrorKey => keys.error
    case SendHistorySnapshotKey => keys.sendHistorySnapshot
    case StreamMessageKey => keys.streamMessage
    case UpdateHistoryItemKey => keys.updateHistoryItem
  }

  /** Raw values of a Swift enum are pairwise distinct. */
  predicate DistinctRawValues(keys: EventKeyTable)
  {
    forall a: SocketEventKey, b: SocketEventKey :: RawValue(keys, a) == RawValue(keys, b) ==> a == b
  }

  /** The socket handler a replayed event is delivered to. */
  datatype SocketHandler =
    | OnConnect
    | OnDisconnect
    | OnError
    | HandleReceivedConversations
    | HandleReceivedStreamMessages
    | HandleReceivedUpdateHistoryItems

  function HandlerFor(k: SocketEventKey): SocketHandler
  {
    match k
    case ConnectKey => OnConnect
    case DisconnectKey => OnDisconnect
    case ErrorKey => OnError
    case SendHistorySnapshotKey => HandleReceivedConversations
    case StreamMessageKey => HandleReceivedStreamMessages
    case UpdateHistoryItemKey => HandleReceivedUpdateHistoryItems
  }

  /** One call into the socket: which handler, with which `data` array. */
  datatype Dispatch = Dispatch(handler: SocketHandler, data: seq<Value>)

  /** The event name with one leading `"on "` removed, if it has one. */
  function CleanEventName(event: string): (r: string)
    ensures |OnPrefix| <= |event| && event[..|OnPrefix|] == OnPrefix ==> OnPrefix + r == event
    ensures !(|OnPrefix| <= |event| && event[..|OnPrefix|] == OnPrefix) ==> r == event
  {
    if |OnPrefix| <= |event| && event[..|OnPrefix|] == OnPrefix then event[|OnPrefix|..] else event
  }

  /** Stripping inverts the logger's naming: exactly one `"on "` comes off, even if the name itself starts with one. */
  lemma CleanEventNameInvertsOnPrefix(named: string)
    ensures CleanEventName(OnPrefix + named) == named
  {
    assert (OnPrefix + named)[..|OnPrefix|] == OnPrefix;
    assert (OnPrefix + named)[|OnPrefix|..] == named;
  }

  /** The first case of the replayer's switch whose raw value is `name`. */
  function KeyNamed(keys: EventKeyTable, name: string): (r: Option<SocketEventKey>)
    ensures r.Some? ==> RawValue(keys, r.value) == name
    ensures r.None? ==> forall k: SocketEventKey :: RawValue(keys, k) != name
  {
    if name == keys.connect then Some(ConnectKey)
    else if name == keys.disconnect then Some(DisconnectKey)
    else if name == keys.error then Some(ErrorKey)
    else if name == keys.sendHistorySnapshot then Some(SendHistorySnapshotKey)
    else if name == keys.streamMessage then Some(StreamMessageKey)
    else if name == keys.updateHistoryItem then Some(UpdateHistoryItemKey)
    else None
  }

  /** The entry's `data` value when it is an array. */
  function DataOf(entry: LogEntry): Option<seq<Value>>
  {
    if "data" in entry && entry["data"].VArray? then Some(entry["data"].items) else None
  }

  /**
   `replay(_:)`: the dispatch one entry causes. An entry without a string
   event, with an unknown name, or without a `data` array dispatches nothing.
   */
  function Replay(keys: EventKeyTable, entry: LogEntry): (r: Option<Dispatch>)
    ensures r.Some? <==> EventName(entry).Some? && KeyNamed(keys, CleanEventName(EventName(entry).value)).Some? && DataOf(entry).Some?
    ensures r.Some? ==> r.value.data == DataOf(entry).value
    ensures r.Some? ==> r.value.handler == HandlerFor(KeyNamed(keys, CleanEventName(EventName(entry).value)).value)
  {
    match EventName(entry)
    case None => None
    case Some(event) =>
      match KeyNamed(keys, CleanEventName(event))
      case None => None
      case Some(k) =>
        match DataOf(entry)
        case None => None
        case Some(data) => Some(Dispatch(HandlerFor(k), data))
  }

  /**
   A received event the logger recorded replays into the handler of that
   event, with the same data.
   */
  lemma ReplayInvertsLogOnResponse(keys: EventKeyTable, k: SocketEventKey, data: seq<Value>)
    requires DistinctRawValues(keys)
    ensures Replay(keys, OnResponseEntry(RawValue(keys, k), data)) == Some(Dispatch(HandlerFor(k), data))
  {
    CleanEventNameInvertsOnPrefix(RawValue(keys, k));
    var found := KeyNamed(keys, RawValue(keys, k));
    assert found.Some?;
    assert RawValue(keys, found.value) == RawValue(keys, k);
  }

  /** The logger records a connect with `params` and no `data`, so replaying it dispatches nothing. */
  lemma LoggedConnectReplaysNothing(keys: EventKeyTable, loggerKeys: SocketEventKeys, params: map<string, Value>)
    ensures Replay(keys, ConnectEntry(loggerKeys, params)).None?
  {
    assert "data" !in ConnectEntry(loggerKeys, params);
  }

  /** The replayer's state. `currentIndex` starts at -1. */
  datatype Replayer = Replayer(entries: seq<LogEntry>, currentIndex: int, eventsToSkip: set<string>)

  function NewReplayer(entries: seq<LogEntry>, eventsToSkip: set<string>): (r: Replayer)
    ensures r.entries == entries && r.eventsToSkip == eventsToSkip && r.currentIndex == -1
  {
    Replayer(entries, -1, eventsToSkip)
  }

  /** `hasMore`: entries remain to be consumed. */
  function HasMore(r: Replayer): (b: bool)
    ensures b <==> |r.entries| > 0
  {
    r.entries != []
  }

  /** `next()` does nothing once `hasMore` is false, and consumes at least one entry while it is true. */
  lemma NextConsumesWhileHasMore(r: Replayer)
    ensures !HasMore(r) ==> NextOf(r) == NextResult(r, None)
    ensures HasMore(r) ==> NextOf(r).after.currentIndex > r.currentIndex && |NextOf(r).after.entries| < |r.entries|
  {
  }

  /** `next()` passes over an entry without a string event, or whose raw event (before stripping) is to be skipped. */
  predicate Skipped(skip: set<string>, entry: LogEntry)
  {
    EventName(entry).None? || EventName(entry).value in skip
  }

  /**
   The skip set is checked against the raw event: a logged response is
   skipped only when its `"on "` name is in the set, never because of the
   bare key name.
   */
  lemma SkipChecksRawEventName(skip: set<string>, name: string, data: seq<Value>)
    ensures Skipped(skip, OnResponseEntry(name, data)) <==> OnPrefix + name in skip
    ensures name in skip && OnPrefix + name !in skip ==> !Skipped(skip, OnResponseEntry(name, data))
  {
  }

  /** An entry without a string event is always passed over, whatever the skip set. */
  lemma EntryWithoutEventIsSkipped(skip: set<string>, entry: LogEntry)
    requires EventName(entry).None?
    ensures Skipped(skip, entry)
  {
  }

  /** The outcome of one `next()`: the replayer afterwards and the entry replayed, if any. */
  datatype NextResult = NextResult(after: Replayer, replayed: Option<LogEntry>)

  /**
   The meaning of `next()`, as a recursive definition: drop skipped entries
   from the front, one cursor step each, and replay the first one that is not
   skipped.
   */
  function NextOf(r: Replayer): (res: NextResult)
    ensures res.after.eventsToSkip == r.eventsToSkip
    ensures var k := res.after.currentIndex - r.currentIndex;
      && 0 <= k <= |r.entries|
      && res.after.entries == r.entries[k..]
      && (res.replayed.None? ==> k == |r.entries| && !HasMore(res.after))
      && (res.replayed.Some? ==> k >= 1 && res.replayed.value == r.entries[k - 1] && !Skipped(r.eventsToSkip, r.entries[k - 1]))
      && (forall i :: 0 <= i < k && !(res.replayed.Some? && i == k - 1) ==> Skipped(r.eventsToSkip, r.entries[i]))
    decreases |r.entries|
  {
    if r.entries == [] then NextResult(r, None)
    else
      var stepped := r.(entries := r.entries[1..], currentIndex := r.currentIndex + 1);
      if Skipped(r.eventsToSkip, r.entries[0]) then NextOf(stepped)
      else NextResult(stepped, Some(r.entries[0]))
  }

  /** `next()` as the source writes it: a loop that removes entries from the front. */
  method Next(keys: EventKeyTable, r: Replayer) returns (after: Replayer, replayed: Option<LogEntry>, dispatched: Option<Dispatch>)
    ensures NextResult(after, replayed) == NextOf(r)
    ensures dispatched.Some? ==> replayed.Some? && dispatched == Replay(keys, replayed.value)
    ensures replayed.Some? ==> dispatched == Replay(keys, replayed.value)
    ensures replayed.None? ==> dispatched.None?
  {
    var entries := r.entries;
    var index := r.currentIndex;
    replayed := None;
    while entries != []
      invariant 0 <= index - r.currentIndex <= |r.entries|
      invariant entries == r.entries[index - r.currentIndex..]
      invariant NextOf(r) == NextOf(Replayer(entries, index, r.eventsToSkip))
      decreases |entries|
    {
      index := index + 1;
      var entry := entries[0];
      entries := entries[1..];
      if Skipped(r.eventsToSkip, entry) {
        continue;
      }
      replayed := Some(entry);
      break;
    }
    after := Replayer(entries, index, r.eventsToSkip);
    dispatched := if replayed.Some? then Replay(keys, replayed.value) else None;
  }

  /** The entries that calling `next()` until `hasMore` is false replays, in order. */
  function ReplayedUntilEmpty(r: Replayer): seq<LogEntry>
    decreases |r.entries|
  {
    var res := NextOf(r);
    if res.replayed.None? then [] else [res.replayed.value] + ReplayedUntilEmpty(res.after)
  }

  /** The entries of `entries` that are not skipped, in their original order. */
  function NotSkipped(skip: set<string>, entries: seq<LogEntry>): seq<LogEntry>
  {
    if entries == [] then []
    else if Skipped(skip, entries[0]) then NotSkipped(skip, entries[1..])
    else [entries[0]] + NotSkipped(skip, entries[1..])
  }

  /**
   Draining the replayer replays exactly the entries that are not skipped,
   each once, in log order.
   */
  lemma {:induction false} DrainReplaysNotSkipped(r: Replayer)
    ensures ReplayedUntilEmpty(r) == NotSkipped(r.eventsToSkip, r.entries)
    decreases |r.entries|
  {
    if r.entries != [] {
      var stepped := r.(entries := r.entries[1..], currentIndex := r.currentIndex + 1);
      DrainReplaysNotSkipped(stepped);
      if Skipped(r.eventsToSkip, r.entries[0]) {
        assert NextOf(r) == NextOf(stepped);
        assert ReplayedUntilEmpty(r) == ReplayedUntilEmpty(stepped);
      } else {
        assert NextOf(r) == NextResult(stepped, Some(r.entries[0]));
      }
    }
  }

  /** Draining moves the cursor once per entry in the log, whether skipped or replayed. */
  lemma {:induction false} DrainAdvancesCursorPerEntry(r: Replayer)
    ensures FinalIndex(r) == r.currentIndex + |r.entries|
    decreases |r.entries|
  {
    var res := NextOf(r);
    if res.replayed.Some? {
      DrainAdvancesCursorPerEntry(res.after);
    }
  }

  /** A drained replayer: no entries left, and the cursor moved once per entry. */
  function Drained(r: Replayer): Replayer
  {
    r.(entries := [], currentIndex := r.currentIndex + |r.entries|)
  }

  /**
   The usage loop in the replayer's documentation runs while the cursor is
   below the log's length. The cursor starts at -1 and ends at one less than
   the length, and `next()` then makes no progress, so the loop never ends.
   */
  lemma UsageLoopSpinsAfterDrain(entries: seq<LogEntry>, eventsToSkip: set<string>)
    ensures var d := Drained(NewReplayer(entries, eventsToSkip));
      && d.currentIndex == |entries| - 1 < |entries|
      && NextOf(d) == NextResult(d, None)
  {
  }

  /**
   The loop the documentation evidently intends: call `next()` while
   `hasMore`. It stops with nothing left, having replayed exactly the
   entries that are not skipped, in log order.
   */
  method ReplayAll(keys: EventKeyTable, r: Replayer) returns (after: Replayer, replayed: seq<LogEntry>)
    ensures !HasMore(after)
    ensures after == Drained(r)
    ensures after.currentIndex == r.currentIndex + |r.entries|
    ensures replayed == NotSkipped(r.eventsToSkip, r.entries)
  {
    DrainReplaysNotSkipped(r);
    after := r;
    replayed := [];
    while HasMore(after)
      invariant Drained(after) == Drained(r)
      invariant replayed + ReplayedUntilEmpty(after) == ReplayedUntilEmpty(r)
      decreases |after.entries|
    {
      var next, step := NextStep(keys, after);
      assert replayed + ReplayedUntilEmpty(after) == (replayed + step) + ReplayedUntilEmpty(next);
      replayed := replayed + step;
      after := next;
    }
    DrainedWhenEmpty(after);
  }

  /** One `next()` of the drain loop, with what it replayed as a sequence of at most one entry. */
  method NextStep(keys: EventKeyTable, r: Replayer) returns (next: Replayer, step: seq<LogEntry>)
    requires HasMore(r)
    ensures |next.entries| < |r.entries|
    ensures Drained(next) == Drained(r)
    ensures ReplayedUntilEmpty(r) == step + ReplayedUntilEmpty(next)
  {
    var one, dispatched;
    next, one, dispatched := Next(keys, r);
    DrainStep(r, next, one);
    step := if one.Some? then [one.value] else [];
  }

  /** One `next()` on a replayer with entries left: draining the rest gives the same outcome. */
  lemma DrainStep(r: Replayer, next: Replayer, one: Option<LogEntry>)
    requires HasMore(r) && NextResult(next, one) == NextOf(r)
    ensures Drained(next) == Drained(r)
    ensures ReplayedUntilEmpty(r) == (if one.Some? then [one.value] else []) + ReplayedUntilEmpty(next)
  {
    var k := next.currentIndex - r.currentIndex;
    assert next.entries == r.entries[k..];
    assert next.eventsToSkip == r.eventsToSkip;
    if one.None? {
      assert next.entries == [];
      assert ReplayedUntilEmpty(next) == [];
    }
  }

  /** A replayer with no entries left is already drained and replays nothing more. */
  lemma DrainedWhenEmpty(r: Replayer)
    requires !HasMore(r)
    ensures Drained(r) == r && ReplayedUntilEmpty(r) == []
  {
  }

  /** The cursor after calling `next()` until `hasMore` is false. */
  function FinalIndex(r: Replayer): int
    decreases |r.entries|
  {
    var res := NextOf(r);
    if res.replayed.None? then res.after.currentIndex else FinalIndex(res.after)
  }
}
