/** The mapping from the socket's message source to the UI's message origin. */
module MessageOriginAdapter {
  import opened MessageModel

  /** `SocketMessageSource`: the socket event a message arrived with. */
  datatype SocketMessageSource = SourceHistory | SourceHistoryUpdateItem | SourceStreaming

  /** `SocketMessageSource.toMessageOrigin`: a history update item becomes an `updateItem`. */
  function ToMessageOrigin(s: SocketMessageSource): (o: MessageOrigin)
    ensures o == History <==> s == SourceHistory
    ensures o == UpdateItem <==> s == SourceHistoryUpdateItem
    ensures o == Streaming <==> s == SourceStreaming
  {
    match s
    case SourceHistory => History
    case SourceHistoryUpdateItem => UpdateItem
    case SourceStreaming => Streaming
  }

  /** Distinct sources give distinct origins. */
  lemma ToMessageOriginInjective(a: SocketMessageSource, b: SocketMessageSource)
    ensures ToMessageOrigin(a) == ToMessageOrigin(b) ==> a == b
  {
  }

  /** Every origin comes from some source, so the mapping is a bijection. */
  lemma ToMessageOriginSurjective(o: MessageOrigin)
    ensures exists s :: ToMessageOrigin(s) == o
  {
    match o
    case History => assert ToMessageOrigin(SourceHistory) == o;
    case UpdateItem => assert ToMessageOrigin(SourceHistoryUpdateItem) == o;
    case Streaming => assert ToMessageOrigin(SourceStreaming) == o;
  }
}
