/** The Redis data that the system keeps, and one function per command or script it sends. */
module Redis {
  import opened Types
  import Score

  datatype DeadLetter = DeadLetter(env: Envelope, reason: string, failedAt: int)

  /** Every `queue:{type}` ZSET is the part of `ready` whose members have that type,
      because each ZADD derives the key from the member; likewise `delayed:{type}`
      and `dlq:{type}`.  `inflight:{worker}` is the part of `inflight` under that worker. */
  datatype Data = Data(
    ready: map<Envelope, int>,
    delayed: map<Envelope, int>,
    inflight: map<(WorkerId, TaskId), Envelope>,
    dlq: seq<DeadLetter>,
    heartbeats: map<WorkerId, int>)

  const EMPTY := Data(map[], map[], map[], [], map[])
  const BATCH := 256

  function Stamped(e: Envelope, now: int): Envelope {
    if e.enqueuedAt == 0 then e.(enqueuedAt := now) else e
  }

  function ScoreOf(e: Envelope): int { Score.PriorityScore(e.priority, e.enqueuedAt) }

  function Enqueue(d: Data, e: Envelope, now: int): Data {
    var m := Stamped(e, now);
    d.(ready := d.ready[m := ScoreOf(m)])
  }

  function EnqueueDelayed(d: Data, e: Envelope, at: int): Data {
    d.(delayed := d.delayed[e := at])
  }

  function ReadyOf(d: Data, typ: string): set<Envelope> {
    set e | e in d.ready && e.typ == typ
  }

  /** What ZPOPMIN may return.  Redis orders equal scores by member bytes; any order is allowed here. */
  predicate IsNext(d: Data, typ: string, e: Envelope) {
    e in ReadyOf(d, typ) && forall x | x in ReadyOf(d, typ) :: d.ready[e] <= d.ready[x]
  }

  /** The lease script: ZPOPMIN and HSET in one step. */
  function Lease(d: Data, w: WorkerId, e: Envelope): Data {
    d.(ready := d.ready - {e}, inflight := d.inflight[(w, e.id) := e])
  }

  /** HDEL; `Ack` and `Nack` are the same command. */
  function Unlease(d: Data, w: WorkerId, id: TaskId): Data {
    d.(inflight := d.inflight - {(w, id)})
  }

  function PushDead(d: Data, e: Envelope, reason: string, now: int): Data {
    d.(dlq := d.dlq + [DeadLetter(e, reason, now)])
  }

  function Beat(d: Data, w: WorkerId, expiry: int): Data {
    d.(heartbeats := d.heartbeats[w := expiry])
  }

  predicate IsAlive(d: Data, w: WorkerId, now: int) {
    w in d.heartbeats && now < d.heartbeats[w]
  }

  /** HGETALL: Go ranges over the result in no particular order. */
  function Hash(d: Data, w: WorkerId): set<Envelope> {
    set k | k in d.inflight && k.0 == w :: d.inflight[k]
  }

  function DropHash(d: Data, w: WorkerId): Data {
    d.(inflight := map k | k in d.inflight && k.0 != w :: d.inflight[k])
  }

  function Due(d: Data, typ: string, now: int): set<Envelope> {
    set e | e in d.delayed && e.typ == typ && d.delayed[e] <= now
  }

  /** ZRANGEBYSCORE delayed:{typ} -inf now LIMIT 0 256. */
  predicate IsBatch(d: Data, typ: string, now: int, batch: set<Envelope>) {
    && batch <= Due(d, typ, now)
    && |batch| <= BATCH
    && (|batch| < BATCH ==> batch == Due(d, typ, now))
    && forall e, x | e in batch && x in Due(d, typ, now) - batch :: d.delayed[e] <= d.delayed[x]
  }

  function Restamp(batch: set<Envelope>, now: int): set<Envelope> {
    set e | e in batch :: e.(enqueuedAt := now)
  }

  function ScoresOf(ms: set<Envelope>): map<Envelope, int> { map m | m in ms :: ScoreOf(m) }

  /** The EXEC of a promotion: ZREM and ZADD for each member read before. */
  function Promote(d: Data, batch: set<Envelope>, now: int): Data {
    d.(delayed := d.delayed - batch,
       ready := d.ready + ScoresOf(Restamp(batch, now)))
  }

  function Bump(e: Envelope): Envelope { e.(attempts := e.attempts + 1) }
}
