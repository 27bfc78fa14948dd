/**
 The two-way mapping between the socket layer's connection state and the
 UI-side connection state. Every payload-free case maps to the case of the
 same name, and `error` carries its payload across in both directions.
 */
module ConnectionStateAdapter {
  import opened MessageModel

  /** `SocketConnectionState`, the socket client's view of the connection. */
  datatype SocketConnectionState =
    | SocketConnected
    | SocketDisconnected
    | SocketLoading
    | SocketLoaded
    | SocketError(reason: string)
    | SocketLoadingMore
    | SocketLoadedMore

  /** `SocketConnectionState.toConnectionState`. */
  function ToConnectionState(s: SocketConnectionState): (c: ConnectionState)
    ensures c.Error? <==> s.SocketError?
    ensures c.Error? ==> c.reason == s.reason
    ensures c.Connected? <==> s.SocketConnected?
    ensures c.Disconnected? <==> s.SocketDisconnected?
    ensures c.Loading? <==> s.SocketLoading?
    ensures c.Loaded? <==> s.SocketLoaded?
    ensures c.LoadingMore? <==> s.SocketLoadingMore?
    ensures c.LoadedMore? <==> s.SocketLoadedMore?
  {
    match s
    case SocketConnected => Connected
    case SocketDisconnected => Disconnected
    case SocketLoading => Loading
    case SocketLoaded => Loaded
    case SocketError(e) => Error(e)
    case SocketLoadingMore => LoadingMore
    case SocketLoadedMore => LoadedMore
  }

  /** `ConnectionState.toSocketConnectionState`. */
  function ToSocketConnectionState(c: ConnectionState): (s: SocketConnectionState)
    ensures s.SocketError? <==> c.Error?
    ensures s.SocketError? ==> s.reason == c.reason
    ensures s.SocketConnected? <==> c.Connected?
    ensures s.SocketDisconnected? <==> c.Disconnected?
    ensures s.SocketLoading? <==> c.Loading?
    ensures s.SocketLoaded? <==> c.Loaded?
    ensures s.SocketLoadingMore? <==> c.LoadingMore?
    ensures s.SocketLoadedMore? <==> c.LoadedMore?
  {
    match c
    case Connected => SocketConnected
    case Disconnected => SocketDisconnected
    case Loading => SocketLoading
    case Loaded => SocketLoaded
    case Error(e) => SocketError(e)
    case LoadingMore => SocketLoadingMore
    case LoadedMore => SocketLoadedMore
  }

  /** Going to the UI state and back returns the socket state unchanged. */
  lemma SocketRoundTrip(s: SocketConnectionState)
    ensures ToSocketConnectionState(ToConnectionState(s)) == s
  {
  }

  /** Going to the socket state and back returns the UI state unchanged. */
  lemma UIRoundTrip(c: ConnectionState)
    ensures ToConnectionState(ToSocketConnectionState(c)) == c
  {
  }

  /** The two mappings are mutually inverse bijections. */
  lemma MappingIsBijective(s1: SocketConnectionState, s2: SocketConnectionState, c: ConnectionState)
    ensures ToConnectionState(s1) == ToConnectionState(s2) ==> s1 == s2
    ensures ToConnectionState(ToSocketConnectionState(c)) == c
  {
    SocketRoundTrip(s1);
    SocketRoundTrip(s2);
    UIRoundTrip(c);
  }
}
