/** The events of the backend's log, as its projections decode them. */
module Events {
  import opened Options

  /** `startedAt` and an event's `at` are instants on one clock. */
  datatype Data =
    | ServerStarted
    | SessionStarted(id: string, name: string, hostConnectionId: string, startedAt: int)
    | SessionEnded(id: string)
    | ClientConnected(clientId: string, connectionId: string, requestId: string)
    | ClientDisconnected(clientId: string, connectionId: string, requestId: string, reason: string, closeCode: int)
    | ReconnectTimeout(clientId: string, connectionId: string, requestId: string)
    | Unrelated(kind: string)

  datatype Event = Event(clock: int, accountId: string, at: int, data: Data)
}
