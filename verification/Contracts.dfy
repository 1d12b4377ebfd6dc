/** The messages of the repo-watch saga (pkg/contracts/events.go), as decoded from JSON. */
module Contracts {

  import opened Clock

  type Repo = string

  /** The `action` field: the two known values, or whatever else the wire carried. */
  datatype Action = StartWatch | StopWatch | OtherAction(text: string)

  datatype EventType =
    | RepoWatchSagaRequested
    | StartWatchingRepo
    | StopWatchingRepo
    | RepoWatchStarted
    | RepoWatchStopped
    | RepoWatchFailed
    | OtherEvent(name: string)

  type SagaId = nat

  /** The `saga_id` field: text that parses as a UUID, or text that does not. */
  datatype WireId = Uuid(id: SagaId) | NotUuid(text: string)

  datatype SagaRequest = SagaRequest(
    eventType: EventType, correlationId: string, sagaId: WireId, action: Action, repo: Repo)

  datatype WatchCommand = WatchCommand(
    eventType: EventType, occurredAt: Time, correlationId: string, sagaId: WireId, action: Action, repo: Repo)

  datatype WatchAck = WatchAck(
    eventType: EventType, correlationId: string, sagaId: WireId, action: Action, repo: Repo, error: string)
}
