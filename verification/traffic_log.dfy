/**
 The pure part of the traffic logger: the shape of each log entry it
 appends, and reading an entry's event name back. Writing the log to file
 and console is I/O and not part of this model.
 */
module TrafficLog {
  import opened Wrappers

  /** A JSON-like value, standing in for Swift's `Any` inside a log entry. */
  datatype Value =
    | VString(s: string)
    | VInt(i: int)
    | VBool(b: bool)
    | VArray(items: seq<Value>)
    | VDict(fields: map<string, Value>)

  /** `TrafficLog.LogEntry`, a `[String: Any]`. */
  type LogEntry = map<string, Value>

  /** `TrafficLog.SocketEventKeys`: the event names the logger uses. */
  datatype SocketEventKeys = SocketEventKeys(
    connect: string,
    disconnect: string,
    streamMessage: string,
    updateHistoryItem: string,
    sendHistorySnapshot: string
  )

  /** `TrafficLog.demoEventKeys`, the default the logger is built with. */
  const DemoEventKeys := SocketEventKeys("connect", "disconnect", "stream_message",
                                         "update_history_item", "send_history_snapshot")

  /** The prefix `logOnResponse` puts in front of a received event's name. */
  const OnPrefix := "on "

  /** `TrafficLog.eventName(from:)`: the `event` value when it is a string. */
  function EventName(entry: LogEntry): (r: Option<string>)
    ensures r.Some? <==> "event" in entry && entry["event"].VString?
    ensures r.Some? ==> entry["event"] == VString(r.value)
  {
    if "event" in entry && entry["event"].VString? then Some(entry["event"].s) else None
  }

  /** The entry `logConnect(params:)` builds. */
  function ConnectEntry(keys: SocketEventKeys, params: map<string, Value>): (e: LogEntry)
    ensures e.Keys == {"event", "params"}
    ensures EventName(e) == Some(keys.connect)
    ensures e["params"] == VDict(params)
  {
    map["event" := VString(keys.connect), "params" := VDict(params)]
  }

  /** The entry `logDisconnect()` builds. */
  function DisconnectEntry(keys: SocketEventKeys): (e: LogEntry)
    ensures e.Keys == {"event"}
    ensures EventName(e) == Some(keys.disconnect)
  {
    map["event" := VString(keys.disconnect)]
  }

  /** The entry `logEmitMessage(key:payload:)` builds. */
  function EmitMessageEntry(key: string, payload: map<string, Value>): (e: LogEntry)
    ensures e.Keys == {"event", "key", "payload"}
    ensures EventName(e) == Some("emitMessage")
    ensures e["key"] == VString(key) && e["payload"] == VDict(payload)
  {
    map["event" := VString("emitMessage"), "key" := VString(key), "payload" := VDict(payload)]
  }

  /** The entry `logSocketCallback(key:payload:response:)` builds. */
  function SocketCallbackEntry(key: string, payload: map<string, Value>, response: seq<Value>): (e: LogEntry)
    ensures e.Keys == {"event", "key", "payload", "response"}
    ensures EventName(e) == Some("callback")
    ensures e["key"] == VString(key) && e["payload"] == VDict(payload)
    ensures e["response"] == VArray(response)
  {
    map["event" := VString("callback"), "key" := VString(key), "payload" := VDict(payload),
        "response" := VArray(response)]
  }

  /** The entry `logOnResponse(named:data:)` builds: the event is the name behind `"on "`. */
  function OnResponseEntry(named: string, data: seq<Value>): (e: LogEntry)
    ensures e.Keys == {"event", "data"}
    ensures EventName(e) == Some(OnPrefix + named)
    ensures e["data"] == VArray(data)
  {
    map["event" := VString(OnPrefix + named), "data" := VArray(data)]
  }

  /** Every logging call: what it records, before the `active` check decides whether it is appended. */
  datatype LogCall =
    | LogConnect(params: map<string, Value>)
    | LogDisconnect
    | LogEmitMessage(key: string, payload: map<string, Value>)
    | LogSocketCallback(key: string, payload: map<string, Value>, response: seq<Value>)
    | LogOnResponse(named: string, data: seq<Value>)

  function EntryFor(keys: SocketEventKeys, call: LogCall): LogEntry
  {
    match call
    case LogConnect(params) => ConnectEntry(keys, params)
    case LogDisconnect => DisconnectEntry(keys)
    case LogEmitMessage(key, payload) => EmitMessageEntry(key, payload)
    case LogSocketCallback(key, payload, response) => SocketCallbackEntry(key, payload, response)
    case LogOnResponse(named, data) => OnResponseEntry(named, data)
  }

  /**
   One logging call against the entries recorded so far: nothing is appended
   while logging is inactive, and exactly the call's entry otherwise.
   */
  function Log(entries: seq<LogEntry>, active: bool, keys: SocketEventKeys, call: LogCall): (r: seq<LogEntry>)
    ensures !active ==> r == entries
    ensures active ==> |r| == |entries| + 1 && r[..|entries|] == entries
    ensures active ==> r[|entries|] == EntryFor(keys, call)
  {
    if active then entries + [EntryFor(keys, call)] else entries
  }

  /** A run of logging calls with logging inactive records nothing. */
  lemma {:induction false} InactiveLogsNothing(entries: seq<LogEntry>, keys: SocketEventKeys, calls: seq<LogCall>)
    ensures LogAll(entries, false, keys, calls) == entries
    decreases |calls|
  {
    if |calls| > 0 {
      InactiveLogsNothing(entries, keys, calls[1..]);
    }
  }

  /** A run of logging calls with logging active records one entry per call, in call order. */
  lemma {:induction false} ActiveLogsInOrder(entries: seq<LogEntry>, keys: SocketEventKeys, calls: seq<LogCall>)
    ensures |LogAll(entries, true, keys, calls)| == |entries| + |calls|
    ensures LogAll(entries, true, keys, calls)[..|entries|] == entries
    ensures forall i :: 0 <= i < |calls| ==> LogAll(entries, true, keys, calls)[|entries| + i] == EntryFor(keys, calls[i])
    decreases |calls|
  {
    if |calls| > 0 {
      var next := Log(entries, true, keys, calls[0]);
      ActiveLogsInOrder(next, keys, calls[1..]);
      var r := LogAll(entries, true, keys, calls);
      forall i | 0 <= i < |calls|
        ensures r[|entries| + i] == EntryFor(keys, calls[i])
      {
        if i > 0 {
          assert r[|next| + (i - 1)] == EntryFor(keys, calls[1..][i - 1]);
        }
      }
    }
  }

  function LogAll(entries: seq<LogEntry>, active: bool, keys: SocketEventKeys, calls: seq<LogCall>): seq<LogEntry>
    decreases |calls|
  {
    if |calls| == 0 then entries else LogAll(Log(entries, active, keys, calls[0]), active, keys, calls[1..])
  }
}
