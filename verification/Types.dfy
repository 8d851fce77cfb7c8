/** The values that the API, the workers and the coordinator exchange. */
module Types {

  datatype Option<+T> = None | Some(value: T)

  /** UUIDs, worker names, goroutines and HTTP requests are only ever compared. */
  type TaskId = nat
  type WorkerId = nat
  type Pid = nat
  type Req = nat

  /** What Redis stores for a task.  The JSON text of an envelope is an
      injective image of it, so a ZSET member is the envelope itself. */
  datatype Envelope = Envelope(
    id: TaskId,
    typ: string,
    priority: int,
    attempts: nat,
    maxAttempts: nat,
    payload: string,
    enqueuedAt: int)

  datatype Status = Queued | Running | Succeeded | Retrying | Dead

  /** A row of the `tasks` table. */
  datatype Row = Row(
    typ: string,
    payload: string,
    priority: int,
    status: Status,
    attempts: nat,
    maxAttempts: nat,
    availableAt: int,
    worker: Option<WorkerId>,
    lastError: string)

  const NO_HANDLER := "no handler registered"
  const WORKER_DIED := "worker died"
  const WORKER_DIED_MID_TASK := "worker died mid-task"
}
