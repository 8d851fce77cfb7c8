/** The Postgres tables that the system keeps, and one function per statement it sends. */
module Postgres {
  import opened Types

  datatype WorkerStatus = Alive | Gone

  datatype DeadRow = DeadRow(task: TaskId, reason: string, payload: string, failedAt: int)

  datatype Tables = Tables(
    rows: map<TaskId, Row>,
    workers: map<WorkerId, WorkerStatus>,
    deadLetters: seq<DeadRow>)

  const EMPTY := Tables(map[], map[], [])
  const DEFAULT_MAX_ATTEMPTS: nat := 3

  function DefaultMax(requested: int): nat {
    if requested <= 0 then DEFAULT_MAX_ATTEMPTS else requested
  }

  function Insert(t: Tables, id: TaskId, typ: string, payload: string, priority: int, max: int, now: int): Tables {
    t.(rows := t.rows[id := Row(typ, payload, priority, Queued, 0, DefaultMax(max), now, None, "")])
  }

  function MarkRunning(t: Tables, id: TaskId, w: WorkerId): Tables {
    if id !in t.rows then t else
    var r := t.rows[id];
    t.(rows := t.rows[id := r.(status := Running, worker := Some(w), attempts := r.attempts + 1)])
  }

  function MarkSucceeded(t: Tables, id: TaskId): Tables {
    if id !in t.rows then t else
    t.(rows := t.rows[id := t.rows[id].(status := Succeeded)])
  }

  function MarkRetry(t: Tables, id: TaskId, availableAt: int, lastError: string): Tables {
    if id !in t.rows then t else
    t.(rows := t.rows[id := t.rows[id].(status := Retrying, availableAt := availableAt,
                                        lastError := lastError, worker := None)])
  }

  /** One transaction: the row and its dead_letters record, or neither. */
  function MarkDead(t: Tables, id: TaskId, lastError: string, now: int): Tables {
    if id !in t.rows then t else
    t.(rows := t.rows[id := t.rows[id].(status := Dead, lastError := lastError)],
       deadLetters := t.deadLetters + [DeadRow(id, lastError, t.rows[id].payload, now)])
  }

  predicate IsOrphan(r: Row, w: WorkerId) { r.status == Running && r.worker == Some(w) }

  function RequeueOrphans(t: Tables, w: WorkerId, now: int): Tables {
    t.(rows := map id | id in t.rows ::
        if IsOrphan(t.rows[id], w)
        then t.rows[id].(status := Queued, worker := None, availableAt := now)
        else t.rows[id])
  }

  predicate CanRedrive(t: Tables, id: TaskId) { id in t.rows && t.rows[id].status == Dead }

  function Redrive(t: Tables, id: TaskId, now: int): Tables
    requires CanRedrive(t, id)
  {
    t.(rows := t.rows[id := t.rows[id].(status := Queued, attempts := 0, lastError := "",
                                        availableAt := now, worker := None)])
  }

  /** The envelope that `createTask` and `redriveDLQ` push for a row. */
  function FreshEnvelope(id: TaskId, r: Row): Envelope {
    Envelope(id, r.typ, r.priority, 0, r.maxAttempts, r.payload, 0)
  }

  function UpsertWorker(t: Tables, w: WorkerId): Tables { t.(workers := t.workers[w := Alive]) }

  function TouchWorker(t: Tables, w: WorkerId): Tables {
    if w in t.workers then t.(workers := t.workers[w := Alive]) else t
  }

  function MarkWorkerDead(t: Tables, w: WorkerId): Tables {
    if w in t.workers then t.(workers := t.workers[w := Gone]) else t
  }
}
