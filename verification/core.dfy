/** Values shared by the server components: connection identities, chat
    messages, the ways a read can fail and the events a registry raises. */
module Core {
  import opened Wrappers
  import ClientConnection

  /** Reference identity of a `ClientConnection`; usernames are not keys. */
  type ConnId = nat

  /** A chat message as framed on the wire. */
  datatype Message = Message(sender: string, text: string)

  /** The inner exception a `DisconnectedException` may carry. */
  datatype InnerError = SocketError(errorCode: int) | OtherInner

  /** How an awaited `ReadMessage` (or the cancellation check before it) can
      throw: a `DisconnectedException` with an optional inner exception, an
      `OperationCanceledException`, or any other exception. */
  datatype Failure =
    | Disconnected(inner: Option<InnerError>)
    | OperationCanceled
    | OtherFailure

  /** The events a registry raises, each naming the connection concerned. */
  datatype Event =
    | ClientConnected(conn: ConnId)
    | IncomingMessage(conn: ConnId, message: Message)
    | ClientDisconnected(conn: ConnId)

  /** Accept(c, ep): the acceptor hands over a new connection whose
      socket reports the endpoint `ep` (or none). BeginRead(c):
      the cancellation check at the top of the read loop. ReadOk / ReadFail:
      the awaited `ReadMessage` completes or throws. Cancel: the token fires. */
  datatype Step =
    | Accept(c: ConnId, endPoint: Option<ClientConnection.EndPoint>)
    | BeginRead(c: ConnId)
    | ReadOk(c: ConnId, message: Message)
    | ReadFail(c: ConnId, failure: Failure)
    | Cancel
}
