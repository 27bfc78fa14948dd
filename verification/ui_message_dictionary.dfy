/**
 The logging dictionary of a UI message: ten keys, every value a string.
 The string forms of `MessageType` and `MessageOrigin` are declared with
 those types, outside this model, so they are parameters.
 */
module UIMessageDictionary {
  import opened Wrappers
  import opened Decimal
  import opened MessageModel

  /** The key set of `UIMessage.toDictionary`. */
  const UIMessageKeys: set<string> :=
    {"text", "attributedText", "type", "origin", "messagePart", "messageIndex",
     "isBot", "isPlaceholder", "isFinished", "timestamp"}

  /** The dictionary has exactly ten keys. */
  lemma UIMessageKeyCount()
    ensures |UIMessageKeys| == 10
  {
    var first: set<string> := {"text", "attributedText", "type", "origin", "messagePart"};
    var second: set<string> := {"messageIndex", "isBot", "isPlaceholder", "isFinished", "timestamp"};
    assert |first| == 5;
    assert |second| == 5;
    assert first !! second;
    assert UIMessageKeys == first + second;
  }

  /** How the two enums are spelt: `type.stringValue` and `origin.rawValue`. */
  datatype EnumSpelling = EnumSpelling(typeString: MessageType -> string, originRaw: MessageOrigin -> string)

  /** `UIMessage.toDictionary`. */
  function ToDictionary(m: UIMessage, spell: EnumSpelling): (d: map<string, string>)
    ensures d.Keys == UIMessageKeys
    ensures d["type"] == spell.typeString(m.messageType)
    ensures d["origin"] == spell.originRaw(m.origin)
    ensures d["attributedText"] == m.attributedText
  {
    map[
      "text" := m.text,
      "attributedText" := m.attributedText,
      "type" := spell.typeString(m.messageType),
      "origin" := spell.originRaw(m.origin),
      "messagePart" := IntToString(m.messagePart),
      "messageIndex" := IntToString(m.messageIndex),
      "isBot" := BoolToString(m.isBot),
      "isPlaceholder" := BoolToString(m.isPlaceholder),
      "isFinished" := BoolToString(m.isFinished),
      "timestamp" := m.timestamp
    ]
  }

  /** The fields of a UI message a dictionary can be read back into without knowing the enum spellings. */
  datatype UIFields = UIFields(
    text: string,
    messagePart: int,
    messageIndex: int,
    isBot: bool,
    isPlaceholder: bool,
    isFinished: bool,
    timestamp: string
  )

  function FieldsOf(m: UIMessage): UIFields
  {
    UIFields(m.text, m.messagePart, m.messageIndex, m.isBot, m.isPlaceholder, m.isFinished, m.timestamp)
  }

  /** Reads a dictionary of the shape `ToDictionary` builds; `None` when a key is missing or a value does not parse. */
  function FromDictionary(d: map<string, string>): Option<UIFields>
  {
    if d.Keys >= UIMessageKeys then
      match (ParseInt(d["messagePart"]), ParseInt(d["messageIndex"]),
             ParseBool(d["isBot"]), ParseBool(d["isPlaceholder"]), ParseBool(d["isFinished"]))
      case (Some(part), Some(index), Some(bot), Some(placeholder), Some(finished)) =>
        Some(UIFields(d["text"], part, index, bot, placeholder, finished, d["timestamp"]))
      case _ => None
    else None
  }

  /**
   Text and timestamp are copied verbatim, the two integers are decimal and
   the three flags are "true"/"false": reading the dictionary back recovers
   every one of them.
   */
  lemma DictionaryRoundTrip(m: UIMessage, spell: EnumSpelling)
    ensures FromDictionary(ToDictionary(m, spell)) == Some(FieldsOf(m))
  {
    IntToStringRoundTrip(m.messagePart);
    IntToStringRoundTrip(m.messageIndex);
    BoolToStringRoundTrip(m.isBot);
    BoolToStringRoundTrip(m.isPlaceholder);
    BoolToStringRoundTrip(m.isFinished);
  }

  /** Messages that differ in a rendered field have different dictionaries. */
  lemma DictionarySeparatesFields(a: UIMessage, b: UIMessage, spell: EnumSpelling)
    requires FieldsOf(a) != FieldsOf(b)
    ensures ToDictionary(a, spell) != ToDictionary(b, spell)
  {
    DictionaryRoundTrip(a, spell);
    DictionaryRoundTrip(b, spell);
  }
}
