/**
 The socket layer's decoded message and its logging dictionary. Every value
 in the dictionary is a string: numbers in decimal, flags as "true"/"false",
 a missing raw text as "-".
 */
module SocketMessageModel {
  import opened Wrappers
  import opened Decimal
  import opened MessageOriginAdapter

  /** `SocketMessage`, restricted to the fields the adapters and the serialiser read. */
  datatype SocketMessage = SocketMessage(
    text: string,
    rawText: Option<string>,
    socketSource: SocketMessageSource,
    messagePartNumber: int,
    messageIndex: int,
    isBotMessage: bool,
    isMessageFinished: bool,
    messageTimestamp: string
  )

  /** The key set of `SocketMessage.toDictionary`. */
  const SocketMessageKeys: set<string> :=
    {"text", "rawText", "socketSource", "messagePartNumber", "messageIndex",
     "isBot", "isMessageFinished", "timestamp"}

  /**
   `SocketMessage.toDictionary`. The raw value of `SocketMessageSource` is
   declared where the enum is, which is not part of this model, so it is a
   parameter.
   */
  function ToDictionary(m: SocketMessage, sourceRaw: SocketMessageSource -> string): (d: map<string, string>)
    ensures d.Keys == SocketMessageKeys
    ensures |d| == 8
    ensures d["socketSource"] == sourceRaw(m.socketSource)
  {
    map[
      "text" := m.text,
      "rawText" := m.rawText.GetOr("-"),
      "socketSource" := sourceRaw(m.socketSource),
      "messagePartNumber" := IntToString(m.messagePartNumber),
      "messageIndex" := IntToString(m.messageIndex),
      "isBot" := BoolToString(m.isBotMessage),
      "isMessageFinished" := BoolToString(m.isMessageFinished),
      "timestamp" := m.messageTimestamp
    ]
  }

  /** What can be read back from a socket message dictionary. */
  datatype SocketFields = SocketFields(
    text: string,
    rawTextShown: string,
    messagePartNumber: int,
    messageIndex: int,
    isBotMessage: bool,
    isMessageFinished: bool,
    messageTimestamp: string
  )

  /** Reads a dictionary of the shape `ToDictionary` builds; `None` when a key is missing or a value does not parse. */
  function FromDictionary(d: map<string, string>): Option<SocketFields>
  {
    if d.Keys >= SocketMessageKeys then
      match (ParseInt(d["messagePartNumber"]), ParseInt(d["messageIndex"]),
             ParseBool(d["isBot"]), ParseBool(d["isMessageFinished"]))
      case (Some(part), Some(index), Some(bot), Some(finished)) =>
        Some(SocketFields(d["text"], d["rawText"], part, index, bot, finished, d["timestamp"]))
      case _ => None
    else None
  }

  /**
   The dictionary keeps text and timestamp verbatim, the integers in decimal,
   the flags as "true"/"false", and the raw text or "-" in its place: reading
   it back recovers all of them.
   */
  lemma DictionaryRoundTrip(m: SocketMessage, sourceRaw: SocketMessageSource -> string)
    ensures FromDictionary(ToDictionary(m, sourceRaw)) ==
      Some(SocketFields(m.text, m.rawText.GetOr("-"), m.messagePartNumber, m.messageIndex,
                        m.isBotMessage, m.isMessageFinished, m.messageTimestamp))
  {
    IntToStringRoundTrip(m.messagePartNumber);
    IntToStringRoundTrip(m.messageIndex);
    BoolToStringRoundTrip(m.isBotMessage);
    BoolToStringRoundTrip(m.isMessageFinished);
  }

  /** A missing raw text and a raw text of "-" produce the same dictionary. */
  lemma MissingRawTextLooksLikeDash(m: SocketMessage, sourceRaw: SocketMessageSource -> string)
    ensures ToDictionary(m.(rawText := None), sourceRaw) == ToDictionary(m.(rawText := Some("-")), sourceRaw)
  {
  }
}
