/** The messages the supervisor sends to its controller, after types.go. */
module Types {
  import opened XmlTokens

  /** The kind of a workshop item: the "playlist" and "mod" values of the item-kind map. */
  datatype ItemKind = Playlist | Mod

  const CrashDetectedEventType := "serverCrashDetected"
  const RestartResultEventType := "serverRestartResult"

  /** ServerCrashDetectedPayload */
  datatype CrashDetectedPayload = CrashDetectedPayload(eventType: string, serverName: string, pid: int, error: string)

  /** ServerRestartResultPayload; the human-readable message is not modelled. */
  datatype RestartResultPayload = RestartResultPayload(eventType: string, serverName: string, success: bool)

  /** The value handed to the event sender: one of the two event structs, or anything else. */
  datatype EventPayload =
    | CrashDetected(crash: CrashDetectedPayload)
    | RestartResult(restart: RestartResultPayload)
    | OtherPayload

  /** Why a response was sent; it stands in for the human-readable message text. */
  datatype Reason =
    | NoFreePort
    | PortUpdateFailed
    | ExtractionFailed
    | ConfigDirUnresolved
    | PathInsertionFailed
    | SaveFailed
    | PortConflict
    | SpawnFailed
    | Started
    | NotRunning
    | Stopped
    | StoppedConfigUnreadable
    | PlayersConnected

  /** ResponsePayload: every optional field is present, with its zero value when not applicable. */
  datatype Response = Response(
    success: bool,
    reason: Reason,
    config: seq<Token>,
    assignedPort: int,
    failedItemIDs: seq<string>,
    needsConfirmation: bool,
    players: int)

  /** A plain failure response, as sendResponse(requestID, false, message, "") builds it. */
  function Failure(reason: Reason): Response {
    Response(false, reason, [], 0, [], false, 0)
  }

  /** Everything the supervisor sends: responses, status updates and server events. */
  datatype Message =
    | Reply(response: Response)
    | StatusUpdate(status: string)
    | ServerEvent(payload: EventPayload)
}
