/** The calls that change Redis or Postgres, in the order in which they are sent. */
module Wire {
  import opened Types

  datatype Call =
    // Redis
    | ZAddReady(env: Envelope)
    | ZAddDelayed(env: Envelope, at: int)
    | LeaseScript(typ: string)
    | HDel(worker: WorkerId, id: TaskId)
    | RPush(env: Envelope, reason: string)
    | SetHeartbeat(worker: WorkerId)
    | DelHash(worker: WorkerId)
    | ExecPromotion(batch: set<Envelope>)
    // Postgres
    | InsertTask(id: TaskId)
    | SetRunning(id: TaskId)
    | SetSucceeded(id: TaskId)
    | SetRetrying(id: TaskId)
    | SetDead(id: TaskId)
    | ResetOrphansOf(worker: WorkerId)
    | ResetDead(id: TaskId)
    | UpsertWorker(worker: WorkerId)
    | TouchWorker(worker: WorkerId)
    | SetWorkerDead(worker: WorkerId)

  lemma InTurn(s: seq<Call>, a: seq<Call>, b: seq<Call>)
    ensures s + a + b == s + (a + b)
  {}

  lemma TwoInTurn(s: seq<Call>, a: Call, b: Call)
    ensures s + [a] + [b] == s + [a, b]
  {}

  class Log {
    ghost var calls: seq<Call>

    constructor ()
      ensures calls == []
    {
      calls := [];
    }
  }
}
