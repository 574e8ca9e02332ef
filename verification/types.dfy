/** The entities shared by the queue protocol: job rows, tokens, stages and call replies. */
module Types {

  datatype Option<+T> = None | Some(value: T)

  /** The worker pools. `cmd/worker` exits on any other stage name. */
  datatype Stage = Fetch | Render | Upload | Test {
    function Name(): string {
      match this
      case Fetch => "fetch"
      case Render => "render"
      case Upload => "upload"
      case Test => "test"
    }
  }

  datatype Status = Queued | Running | Done | Dead

  /** UUIDs are numbers; only their equality matters. */
  type JobId = nat
  type UserId = nat
  type MessageId = string
  type WorkerId = string

  /** Nanoseconds on one logical clock. */
  type Time = int

  /** A row of `pipeline_jobs`. The payload and the purely informative timestamps are left out. */
  datatype Job = Job(
    id: JobId,
    stage: Stage,
    status: Status,
    worker: Option<WorkerId>,
    attempts: nat,
    maxAttempts: nat,
    lastError: Option<string>,
    nextRunAt: Time,
    createdAt: Time,
    user: Option<UserId>,
    message: Option<MessageId>,
    synthetic: bool)

  /** What a Redis list holds: the text of a job ID, or text that does not parse as one. */
  datatype Token = Uuid(id: JobId) | Garbage(text: string)

  /** How one database or Redis call ended, as its caller sees it:
      answered, refused before it had any effect, or executed with the answer lost. */
  datatype Reply = Answered | Refused | Lost
}
