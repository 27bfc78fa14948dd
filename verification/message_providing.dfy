/**
 How a socket message is seen through the `MessageProviding` interface: each
 interface property is a renamed socket field, and the origin goes through
 the source-to-origin mapping.
 */
module MessageProvidingAdapter {
  import opened MessageModel
  import opened MessageOriginAdapter
  import opened SocketMessageModel
  import opened Decimal
  import opened Wrappers

  /** The `MessageProviding` properties this extension supplies. */
  datatype MessageView = MessageView(
    messageOrigin: MessageOrigin,
    timestamp: string,
    messagePart: int,
    isFinished: bool,
    isFromBot: bool
  )

  /** `SocketMessage.toMessage()`: the socket message seen as a `MessageProviding`. */
  function ToMessage(m: SocketMessage): (v: MessageView)
    ensures v.messageOrigin == ToMessageOrigin(m.socketSource)
    ensures v.timestamp == m.messageTimestamp
    ensures v.messagePart == m.messagePartNumber
    ensures v.isFinished == m.isMessageFinished
    ensures v.isFromBot == m.isBotMessage
  {
    MessageView(ToMessageOrigin(m.socketSource), m.messageTimestamp, m.messagePartNumber,
                m.isMessageFinished, m.isBotMessage)
  }

  /**
   The view loses nothing it projects: two socket messages with the same view
   agree on source, timestamp, part number and both flags.
   */
  lemma ToMessageDeterminesFields(a: SocketMessage, b: SocketMessage)
    requires ToMessage(a) == ToMessage(b)
    ensures a.socketSource == b.socketSource
    ensures a.messageTimestamp == b.messageTimestamp
    ensures a.messagePartNumber == b.messagePartNumber
    ensures a.isMessageFinished == b.isMessageFinished && a.isBotMessage == b.isBotMessage
  {
    ToMessageOriginInjective(a.socketSource, b.socketSource);
  }

  /** The interface view and the logging dictionary of a socket message tell the same story. */
  lemma ViewAgreesWithDictionary(m: SocketMessage, sourceRaw: SocketMessageSource -> string)
    ensures var d := ToDictionary(m, sourceRaw);
      && ParseInt(d["messagePartNumber"]) == Some(ToMessage(m).messagePart)
      && ParseBool(d["isMessageFinished"]) == Some(ToMessage(m).isFinished)
      && ParseBool(d["isBot"]) == Some(ToMessage(m).isFromBot)
      && d["timestamp"] == ToMessage(m).timestamp
  {
    IntToStringRoundTrip(m.messagePartNumber);
    BoolToStringRoundTrip(m.isMessageFinished);
    BoolToStringRoundTrip(m.isBotMessage);
  }
}
