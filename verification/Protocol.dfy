/** The task life cycle as a transition system: every Redis or SQL call is one step,
    and the steps of the API, the workers and the coordinator interleave freely. */
module Protocol {
  import opened Types
  import R = Redis
  import P = Postgres

  /** Where a goroutine of `Worker.execute` stands between two calls. */
  datatype Phase =
    | Leased                    // before the handler lookup
    | Started                   // MarkRunning done, the handler runs
    | Rejected                  // no handler: Nack done, DeadLetter next
    | Acked                     // Ack done, MarkSucceeded next
    | Nacked                    // attempts incremented and Nack done, DeadLetter or EnqueueDelayed next
    | Buried(reason: string)    // DeadLetter done, MarkDead next
    | Parked(at: int)           // EnqueueDelayed done, MarkRetry next

  datatype Exec = Exec(worker: WorkerId, env: Envelope, phase: Phase)

  /** A live worker process: `sem` slots are taken; `poll` holds the types that
      LeaseAny has still to try while the main loop holds a slot. */
  datatype Proc = Proc(types: seq<string>, sem: nat, poll: Option<seq<string>>)

  /** Where the coordinator stands between two calls. */
  datatype Coord =
    | Idle
    | Promoting(batch: set<Envelope>, asOf: int)               // range read, EXEC next
    | Suspect(worker: WorkerId)                                // IsAlive said no, HGETALL next
    | Snapshot(worker: WorkerId, envs: set<Envelope>)          // HGETALL done, DEL next
    | Sweeping(worker: WorkerId, envs: set<Envelope>)          // the loop over the reclaimed envelopes
    | Interring(worker: WorkerId, env: Envelope, envs: set<Envelope>)   // DeadLetter done, MarkDead next
    | Closing(worker: WorkerId)                                // RequeueOrphans done, MarkWorkerDead next

  datatype Config = Config(concurrency: nat, ttl: int, clockStart: int)

  datatype State = State(
    cfg: Config,
    now: int,
    redis: R.Data,
    db: P.Tables,
    procs: map<WorkerId, Proc>,
    execs: map<Pid, Exec>,
    apis: map<Req, Envelope>,     // requests between the row and the enqueue
    coord: Coord)

  datatype Step =
    // API
    | CreateRow(req: Req, id: TaskId, typ: string, payload: string, priority: int, max: int)
    | ApiEnqueue(req: Req)
    | RedriveRow(req: Req, id: TaskId)
    | ApiCrash(req: Req)
    // worker: registration, heartbeat loop, main loop
    | Register(worker: WorkerId, types: seq<string>)
    | Beat(worker: WorkerId)
    | Touch(worker: WorkerId)
    | Acquire(worker: WorkerId)
    | LeaseHit(worker: WorkerId, env: Envelope, pid: Pid)
    | LeaseMiss(worker: WorkerId)
    | Release(worker: WorkerId)
    | Crash(worker: WorkerId)
    // worker: execute
    | Reject(pid: Pid)
    | MarkRunning(pid: Pid)
    | Ack(pid: Pid)
    | Nack(pid: Pid)
    | MarkSucceeded(pid: Pid)
    | DeadLetter(pid: Pid, reason: string)
    | MarkDead(pid: Pid)
    | Park(pid: Pid, at: int)
    | MarkRetry(pid: Pid, lastError: string)
    // coordinator
    | PromoteRead(typ: string, batch: set<Envelope>)
    | PromoteExec
    | CheckAlive(worker: WorkerId)
    | HGetAll
    | Del
    | Requeue(env: Envelope)
    | SweepDead(env: Envelope)
    | SweepMarkDead
    | ResetOrphans
    | CloseWorker
    | CoordCrash
    // time
    | Tick(now: int)

  const CLOCK_END := 10_000_000_000_000

  ghost predicate GoodConfig(c: Config) { 0 < c.clockStart < CLOCK_END && 0 < c.ttl }

  function Init(c: Config): State {
    State(c, c.clockStart, R.EMPTY, P.EMPTY, map[], map[], map[], Idle)
  }

  predicate InPhase(s: State, p: Pid, phase: Phase) {
    p in s.execs && s.execs[p].phase == phase
  }

  /** `defer func() { <-sem }()` blocks on an empty channel, so it needs a taken slot. */
  predicate CanFinish(s: State, p: Pid) {
    p in s.execs && s.execs[p].worker in s.procs && s.procs[s.execs[p].worker].sem > 0
  }

  function Attempted(e: Envelope): nat { e.attempts + 1 }

  /** Which step is possible.  The case analysis has a name of its own, so that the verifier takes it as
      one condition wherever it is required, and not case by case. */
  ghost predicate Enabled(s: State, st: Step) {
    var possible :=
      match st
      case CreateRow(q, id, typ, _, _, _) => q !in s.apis && id !in s.db.rows && typ != ""
      case ApiEnqueue(q) => q in s.apis
      case RedriveRow(q, id) => q !in s.apis && P.CanRedrive(s.db, id)
      case ApiCrash(q) => q in s.apis
      case Register(w, _) => w !in s.db.workers
      case Beat(w) => w in s.procs
      case Touch(w) => w in s.procs
      case Acquire(w) => w in s.procs && s.procs[w].poll.None? && s.procs[w].sem < s.cfg.concurrency
      case LeaseHit(w, e, p) =>
        && w in s.procs && s.procs[w].poll.Some? && s.procs[w].poll.value != []
        && R.IsNext(s.redis, s.procs[w].poll.value[0], e) && p !in s.execs
      case LeaseMiss(w) =>
        && w in s.procs && s.procs[w].poll.Some? && s.procs[w].poll.value != []
        && R.ReadyOf(s.redis, s.procs[w].poll.value[0]) == {}
      case Release(w) => w in s.procs && s.procs[w].poll == Some([]) && s.procs[w].sem > 0
      case Crash(w) => w in s.procs
      case Reject(p) => InPhase(s, p, Leased)
      case MarkRunning(p) => InPhase(s, p, Leased)
      case Ack(p) => InPhase(s, p, Started)
      case Nack(p) => InPhase(s, p, Started)
      case MarkSucceeded(p) => InPhase(s, p, Acked) && CanFinish(s, p)
      case DeadLetter(p, reason) =>
        || (InPhase(s, p, Rejected) && reason == NO_HANDLER)
        || (InPhase(s, p, Nacked) && s.execs[p].env.attempts >= s.execs[p].env.maxAttempts)
      case MarkDead(p) => p in s.execs && s.execs[p].phase.Buried? && CanFinish(s, p)
      case Park(p, at) => InPhase(s, p, Nacked) && s.execs[p].env.attempts < s.execs[p].env.maxAttempts && s.now <= at
      case MarkRetry(p, _) => p in s.execs && s.execs[p].phase.Parked? && CanFinish(s, p)
      case PromoteRead(typ, batch) => s.coord.Idle? && batch != {} && R.IsBatch(s.redis, typ, s.now, batch)
      case PromoteExec => s.coord.Promoting?
      case CheckAlive(w) =>
        && s.coord.Idle? && w in s.db.workers && s.db.workers[w] != P.Gone && !R.IsAlive(s.redis, w, s.now)
      case HGetAll => s.coord.Suspect?
      case Del => s.coord.Snapshot?
      case Requeue(e) => s.coord.Sweeping? && e in s.coord.envs && Attempted(e) < e.maxAttempts
      case SweepDead(e) => s.coord.Sweeping? && e in s.coord.envs && Attempted(e) >= e.maxAttempts
      case SweepMarkDead => s.coord.Interring?
      case ResetOrphans => s.coord.Sweeping? && s.coord.envs == {}
      case CloseWorker => s.coord.Closing?
      case CoordCrash => true
      case Tick(t) => s.now <= t < CLOCK_END;
    possible
  }

  /** The row that `createTask` inserts. */
  function NewRow(st: Step, now: int): Row
    requires st.CreateRow?
  {
    Row(st.typ, st.payload, st.priority, Queued, 0, P.DefaultMax(st.max), now, None, "")
  }

  function SetPhase(s: State, p: Pid, phase: Phase): map<Pid, Exec>
    requires p in s.execs
  {
    s.execs[p := s.execs[p].(phase := phase)]
  }

  /** The goroutine returns and frees its slot. */
  function Finish(s: State, p: Pid): State
    requires CanFinish(s, p)
  {
    var w := s.execs[p].worker;
    s.(execs := s.execs - {p}, procs := s.procs[w := s.procs[w].(sem := s.procs[w].sem - 1)])
  }

  function WithoutWorker(execs: map<Pid, Exec>, w: WorkerId): map<Pid, Exec> {
    map p | p in execs && execs[p].worker != w :: execs[p]
  }

  predicate ByCoord(st: Step) {
    || st.PromoteRead? || st.PromoteExec? || st.CheckAlive? || st.HGetAll? || st.Del? || st.Requeue?
    || st.SweepDead? || st.SweepMarkDead? || st.ResetOrphans? || st.CloseWorker? || st.CoordCrash?
  }

  /** The steps of the coordinator. */
  function ApplyCoord(s: State, st: Step): State
    requires Enabled(s, st) && ByCoord(st)
  {
    match st
    case PromoteRead(typ, batch) => s.(coord := Promoting(batch, s.now))
    case PromoteExec =>
      s.(redis := R.Promote(s.redis, s.coord.batch, s.coord.asOf), coord := Idle)
    case CheckAlive(w) => s.(coord := Suspect(w))
    case HGetAll =>
      var envs := R.Hash(s.redis, s.coord.worker);
      s.(coord := if envs == {} then Sweeping(s.coord.worker, {}) else Snapshot(s.coord.worker, envs))
    case Del =>
      s.(redis := R.DropHash(s.redis, s.coord.worker), coord := Sweeping(s.coord.worker, s.coord.envs))
    case Requeue(e) =>
      s.(redis := R.Enqueue(s.redis, R.Bump(e), s.now), coord := Sweeping(s.coord.worker, s.coord.envs - {e}))
    case SweepDead(e) =>
      s.(redis := R.PushDead(s.redis, R.Bump(e), WORKER_DIED, s.now),
         coord := Interring(s.coord.worker, e, s.coord.envs - {e}))
    case SweepMarkDead =>
      s.(db := P.MarkDead(s.db, s.coord.env.id, WORKER_DIED_MID_TASK, s.now),
         coord := Sweeping(s.coord.worker, s.coord.envs))
    case ResetOrphans =>
      s.(db := P.RequeueOrphans(s.db, s.coord.worker, s.now), coord := Closing(s.coord.worker))
    case CloseWorker => s.(db := P.MarkWorkerDead(s.db, s.coord.worker), coord := Idle)
    case CoordCrash => s.(coord := Idle)
  }

  function Apply(s: State, st: Step): State
    requires Enabled(s, st)
  {
    match st
    case CreateRow(q, id, typ, payload, priority, max) =>
      s.(db := P.Insert(s.db, id, typ, payload, priority, max, s.now),
         apis := s.apis[q := P.FreshEnvelope(id, NewRow(st, s.now))])
    case ApiEnqueue(q) =>
      s.(redis := R.Enqueue(s.redis, s.apis[q], s.now), apis := s.apis - {q})
    case RedriveRow(q, id) =>
      s.(db := P.Redrive(s.db, id, s.now), apis := s.apis[q := P.FreshEnvelope(id, s.db.rows[id])])
    case ApiCrash(q) => s.(apis := s.apis - {q})
    case Register(w, types) =>
      s.(db := P.UpsertWorker(s.db, w), redis := R.Beat(s.redis, w, s.now + s.cfg.ttl),
         procs := s.procs[w := Proc(types, 0, None)])
    case Beat(w) => s.(redis := R.Beat(s.redis, w, s.now + s.cfg.ttl))
    case Touch(w) => s.(db := P.TouchWorker(s.db, w))
    case Acquire(w) =>
      s.(procs := s.procs[w := s.procs[w].(sem := s.procs[w].sem + 1, poll := Some(s.procs[w].types))])
    case LeaseHit(w, e, p) =>
      s.(redis := R.Lease(s.redis, w, e), execs := s.execs[p := Exec(w, e, Leased)],
         procs := s.procs[w := s.procs[w].(poll := None)])
    case LeaseMiss(w) =>
      s.(procs := s.procs[w := s.procs[w].(poll := Some(s.procs[w].poll.value[1..]))])
    case Release(w) =>
      s.(procs := s.procs[w := s.procs[w].(poll := None, sem := s.procs[w].sem - 1)])
    case Crash(w) =>
      s.(procs := s.procs - {w}, execs := WithoutWorker(s.execs, w))
    case Reject(p) =>
      s.(redis := R.Unlease(s.redis, s.execs[p].worker, s.execs[p].env.id), execs := SetPhase(s, p, Rejected))
    case MarkRunning(p) =>
      s.(db := P.MarkRunning(s.db, s.execs[p].env.id, s.execs[p].worker), execs := SetPhase(s, p, Started))
    case Ack(p) =>
      s.(redis := R.Unlease(s.redis, s.execs[p].worker, s.execs[p].env.id), execs := SetPhase(s, p, Acked))
    case Nack(p) =>
      s.(redis := R.Unlease(s.redis, s.execs[p].worker, s.execs[p].env.id),
         execs := s.execs[p := Exec(s.execs[p].worker, R.Bump(s.execs[p].env), Nacked)])
    case MarkSucceeded(p) =>
      Finish(s, p).(db := P.MarkSucceeded(s.db, s.execs[p].env.id))
    case DeadLetter(p, reason) =>
      s.(redis := R.PushDead(s.redis, s.execs[p].env, reason, s.now), execs := SetPhase(s, p, Buried(reason)))
    case MarkDead(p) =>
      Finish(s, p).(db := P.MarkDead(s.db, s.execs[p].env.id, s.execs[p].phase.reason, s.now))
    case Park(p, at) =>
      s.(redis := R.EnqueueDelayed(s.redis, s.execs[p].env, at), execs := SetPhase(s, p, Parked(at)))
    case MarkRetry(p, lastError) =>
      Finish(s, p).(db := P.MarkRetry(s.db, s.execs[p].env.id, s.execs[p].phase.at, lastError))
    case Tick(t) => s.(now := t)
    case PromoteRead(_, _) => ApplyCoord(s, st)
    case PromoteExec => ApplyCoord(s, st)
    case CheckAlive(_) => ApplyCoord(s, st)
    case HGetAll => ApplyCoord(s, st)
    case Del => ApplyCoord(s, st)
    case Requeue(_) => ApplyCoord(s, st)
    case SweepDead(_) => ApplyCoord(s, st)
    case SweepMarkDead => ApplyCoord(s, st)
    case ResetOrphans => ApplyCoord(s, st)
    case CloseWorker => ApplyCoord(s, st)
    case CoordCrash => ApplyCoord(s, st)
  }

  /** A run from the empty system; induction on a run follows its last step. */
  datatype Run = Start(cfg: Config) | Then(prev: Run, step: Step)

  ghost predicate Valid(r: Run)
    decreases r, 0
  {
    var valid :=
      match r
      case Start(c) => GoodConfig(c)
      case Then(prev, st) => Valid(prev) && Enabled(End(prev), st);
    valid
  }

  ghost function End(r: Run): State
    requires Valid(r)
    decreases r, 1
  {
    match r
    case Start(c) => Init(c)
    case Then(prev, st) => Apply(End(prev), st)
  }

  /** Fail-stop: a live worker's heartbeat key never expires. */
  ghost predicate HeartbeatsHold(s: State, st: Step) {
    st.Tick? ==> forall w | w in s.procs :: R.IsAlive(s.redis, w, st.now)
  }

  ghost predicate FailStop(r: Run)
    requires Valid(r)
  {
    var holds := r.Then? ==> FailStop(r.prev) && HeartbeatsHold(End(r.prev), r.step);
    holds
  }

  /** MarkRetry lands before its task is leased again. */
  ghost predicate RetryLanded(s: State, st: Step) {
    st.LeaseHit? ==> forall p | p in s.execs && s.execs[p].phase.Parked? :: s.execs[p].env.id != st.env.id
  }

  ghost predicate Timely(r: Run)
    requires Valid(r)
  {
    var holds := r.Then? ==> Timely(r.prev) && RetryLanded(End(r.prev), r.step);
    holds
  }

  /** Handler starts of a task. */
  ghost function Starts(r: Run, id: TaskId): nat
    requires Valid(r)
  {
    if r.Start? then 0 else
    Starts(r.prev, id) + if r.step.MarkRunning? && End(r.prev).execs[r.step.pid].env.id == id then 1 else 0
  }

  predicate IsRedrive(st: Step, id: TaskId) { st.RedriveRow? && st.id == id }

  /** Redrives that found the row dead. */
  ghost function Redrives(r: Run, id: TaskId): nat {
    if r.Start? then 0 else
    Redrives(r.prev, id) + if IsRedrive(r.step, id) then 1 else 0
  }
}
