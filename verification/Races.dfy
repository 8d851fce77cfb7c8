/** Runs that show where a promise of the documentation needs its condition. */
module Races {
  import opened Types
  import opened Protocol
  import opened Tokens
  import opened Copies
  import opened Envelopes
  import opened Losses
  import opened Leases
  import R = Redis
  import P = Postgres

  const CFG := Config(2, 9000, 1)
  const TYP := "echo"
  const W: WorkerId := 1

  /** A task as `createTask` enqueues it at time 1 and a worker leases it. */
  function Env(id: TaskId, attempts: nat, stamp: int): Envelope {
    Envelope(id, TYP, 5, attempts, 2, "{}", stamp)
  }

  function RowOf(status: Status, attempts: nat, at: int, worker: Option<WorkerId>, err: string): Row {
    Row(TYP, "{}", 5, status, attempts, 2, at, worker, err)
  }

  /** One more step. */
  lemma Extend(r: Run, st: Step) returns (r': Run)
    requires Valid(r) && Enabled(End(r), st)
    ensures r' == Then(r, st) && Valid(r') && End(r') == Apply(End(r), st)
    ensures FailStop(r) && HeartbeatsHold(End(r), st) ==> FailStop(r')
  {
    r' := Then(r, st);
  }

  /** One worker with two slots, and nothing else. */
  lemma Registered() returns (r: Run)
    ensures Valid(r) && FailStop(r)
    ensures End(r) == State(CFG, 1, R.EMPTY.(heartbeats := map[W := 9001]), P.EMPTY.(workers := map[W := P.Alive]),
                            map[W := Proc([TYP], 0, None)], map[], map[], Idle)
  {
    r := Extend(Start(CFG), Register(W, [TYP]));
  }

  /** State s with exactly the ready envelope e. */
  ghost predicate WithReady(s: State, s': State, e: Envelope) {
    s'.redis.ready.Keys == {e} && s' == s.(redis := s.redis.(ready := s'.redis.ready))
  }

  lemma Submit(r: Run, id: TaskId) returns (r': Run)
    requires Valid(r) && End(r).redis.ready == map[] && End(r).apis == map[] && id !in End(r).db.rows && 0 < End(r).now
    ensures Valid(r') && (FailStop(r) ==> FailStop(r'))
    ensures var s := End(r);
            WithReady(s.(db := s.db.(rows := s.db.rows[id := RowOf(Queued, 0, s.now, None, "")])), End(r'), Env(id, 0, s.now))
  {
    var r1 := Create(r, id);
    r' := Extend(r1, ApiEnqueue(0));
    assert End(r').apis == map[];
  }

  lemma Create(r: Run, id: TaskId) returns (r': Run)
    requires Valid(r) && End(r).apis == map[] && id !in End(r).db.rows
    ensures Valid(r') && (FailStop(r) ==> FailStop(r'))
    ensures var s := End(r);
            End(r') == s.(db := s.db.(rows := s.db.rows[id := RowOf(Queued, 0, s.now, None, "")]), apis := map[0 := Env(id, 0, 0)])
  {
    r' := Extend(r, CreateRow(0, id, TYP, "{}", 5, 2));
  }

  predicate FreeSlot(s: State) {
    W in s.procs && s.procs[W].poll.None? && s.procs[W].types == [TYP] && s.procs[W].sem < s.cfg.concurrency
  }

  function SlotTaken(s: State): map<WorkerId, Proc>
    requires W in s.procs
  {
    s.procs[W := s.procs[W].(sem := s.procs[W].sem + 1)]
  }

  lemma LeaseStep(s: State, e: Envelope, p: Pid)
    requires s.redis.ready.Keys == {e} && e.typ == TYP && p !in s.execs && FreeSlot(s)
    ensures Enabled(s, Acquire(W)) && Enabled(Apply(s, Acquire(W)), LeaseHit(W, e, p))
    ensures Apply(Apply(s, Acquire(W)), LeaseHit(W, e, p))
         == s.(redis := s.redis.(ready := map[], inflight := s.redis.inflight[(W, e.id) := e]),
               procs := SlotTaken(s), execs := s.execs[p := Exec(W, e, Leased)])
  {
    assert R.IsNext(s.redis, TYP, e);
    assert s.redis.ready - {e} == map[];
  }

  /** Leases the only ready task. */
  lemma LeaseOnly(r: Run, e: Envelope, p: Pid) returns (r': Run)
    requires Valid(r) && End(r).redis.ready.Keys == {e} && e.typ == TYP && p !in End(r).execs && FreeSlot(End(r))
    ensures Valid(r') && (FailStop(r) ==> FailStop(r'))
    ensures var s := End(r);
            End(r') == s.(redis := s.redis.(ready := map[], inflight := s.redis.inflight[(W, e.id) := e]),
                          procs := SlotTaken(s), execs := s.execs[p := Exec(W, e, Leased)])
  {
    LeaseStep(End(r), e, p);
    var r1 := Extend(r, Acquire(W));
    r' := Extend(r1, LeaseHit(W, e, p));
  }

  /** Submits task `id` and leases it as goroutine p, when the ready set is empty. */
  lemma SubmitAndLease(r: Run, id: TaskId, p: Pid) returns (r': Run)
    requires Valid(r) && End(r).redis.ready == map[] && End(r).apis == map[] && id !in End(r).db.rows && 0 < End(r).now
    requires p !in End(r).execs && FreeSlot(End(r))
    ensures Valid(r') && (FailStop(r) ==> FailStop(r'))
    ensures var s := End(r); var e := Env(id, 0, s.now);
            End(r') == s.(redis := s.redis.(inflight := s.redis.inflight[(W, id) := e]),
                          db := s.db.(rows := s.db.rows[id := RowOf(Queued, 0, s.now, None, "")]),
                          procs := SlotTaken(s), execs := s.execs[p := Exec(W, e, Leased)])
  {
    var r1 := Submit(r, id);
    r' := LeaseOnly(r1, Env(id, 0, End(r).now), p);
  }

  // ---- A MarkRetry that arrives late ----

  lemma StartAndNack(r: Run, p: Pid, e: Envelope) returns (r': Run)
    requires Valid(r) && InPhase(End(r), p, Leased) && End(r).execs[p] == Exec(W, e, Leased)
    ensures Valid(r') && (FailStop(r) ==> FailStop(r'))
    ensures var s := End(r);
            End(r') == s.(redis := R.Unlease(s.redis, W, e.id), db := P.MarkRunning(s.db, e.id, W),
                          execs := s.execs[p := Exec(W, R.Bump(e), Nacked)])
  {
    var s := End(r);
    var r1 := Extend(r, MarkRunning(p));
    r' := Extend(r1, Nack(p));
    assert End(r').execs == s.execs[p := Exec(W, R.Bump(e), Nacked)];
  }

  /** A leased task fails: its retry is parked, its MarkRetry is still to come. */
  lemma FailOnce(r: Run, p: Pid, e: Envelope, at: int) returns (r': Run)
    requires Valid(r) && InPhase(End(r), p, Leased) && End(r).execs[p] == Exec(W, e, Leased)
    requires e.attempts + 1 < e.maxAttempts && End(r).now <= at
    ensures Valid(r') && (FailStop(r) ==> FailStop(r'))
    ensures var s := End(r);
            End(r') == s.(redis := R.EnqueueDelayed(R.Unlease(s.redis, W, e.id), R.Bump(e), at),
                          db := P.MarkRunning(s.db, e.id, W),
                          execs := s.execs[p := Exec(W, R.Bump(e), Parked(at))])
  {
    var s := End(r);
    var r1 := StartAndNack(r, p, e);
    r' := Extend(r1, Park(p, at));
    assert End(r').execs == s.execs[p := Exec(W, R.Bump(e), Parked(at))];
  }

  lemma ReadOnly(r: Run, e: Envelope) returns (r': Run)
    requires Valid(r) && End(r).coord.Idle? && End(r).redis.delayed.Keys == {e} && End(r).redis.delayed[e] <= End(r).now
    ensures Valid(r') && (FailStop(r) ==> FailStop(r')) && End(r') == End(r).(coord := Promoting({e}, End(r).now))
  {
    assert R.Due(End(r).redis, e.typ, End(r).now) == {e};
    r' := Extend(r, PromoteRead(e.typ, {e}));
  }

  /** The only delayed task is promoted. */
  lemma PromoteOnly(r: Run, e: Envelope) returns (r': Run)
    requires Valid(r) && End(r).coord.Idle? && End(r).redis.ready == map[]
    requires End(r).redis.delayed.Keys == {e} && End(r).redis.delayed[e] <= End(r).now
    ensures Valid(r') && (FailStop(r) ==> FailStop(r'))
    ensures var s := End(r);
            WithReady(s.(redis := s.redis.(delayed := map[])), End(r'), e.(enqueuedAt := s.now))
  {
    var s := End(r);
    var r1 := ReadOnly(r, e);
    r' := Extend(r1, PromoteExec);
    assert R.Restamp({e}, s.now) == {e.(enqueuedAt := s.now)};
    assert End(r').redis.delayed == map[];
  }

  lemma Succeed(r: Run, p: Pid, e: Envelope) returns (r': Run)
    requires Valid(r) && InPhase(End(r), p, Leased) && End(r).execs[p] == Exec(W, e, Leased) && CanFinish(End(r), p)
    ensures Valid(r') && (FailStop(r) ==> FailStop(r'))
    ensures End(r').execs == End(r).execs - {p}
    ensures End(r').procs == End(r).procs[W := End(r).procs[W].(sem := End(r).procs[W].sem - 1)]
    ensures End(r').db == P.MarkSucceeded(P.MarkRunning(End(r).db, e.id, W), e.id)
  {
    var r1 := StartAndAck(r, p, e);
    r' := Extend(r1, MarkSucceeded(p));
    assert End(r').execs == End(r).execs - {p};
  }

  lemma StartAndAck(r: Run, p: Pid, e: Envelope) returns (r': Run)
    requires Valid(r) && InPhase(End(r), p, Leased) && End(r).execs[p] == Exec(W, e, Leased)
    ensures Valid(r') && (FailStop(r) ==> FailStop(r'))
    ensures var s := End(r);
            End(r') == s.(redis := R.Unlease(s.redis, W, e.id), db := P.MarkRunning(s.db, e.id, W),
                          execs := s.execs[p := Exec(W, e, Acked)])
  {
    var s := End(r);
    var r1 := Extend(r, MarkRunning(p));
    r' := Extend(r1, Ack(p));
    assert End(r').execs == s.execs[p := Exec(W, e, Acked)];
  }

  /** One goroutine has parked the retry of task 7 and owes its MarkRetry. */
  ghost predicate OwesMarkRetry(s: State, now: int) {
    && s.now == now && s.cfg == CFG && s.coord.Idle? && s.redis.ready == map[]
    && s.redis.delayed == map[Env(7, 1, 1) := 501] && s.redis.heartbeats == map[W := 9001]
    && s.procs == map[W := Proc([TYP], 1, None)] && s.execs == map[0 := Exec(W, Env(7, 1, 1), Parked(501))]
    && 7 in s.db.rows
  }

  lemma FirstAttemptFails() returns (r: Run)
    ensures Valid(r) && FailStop(r) && OwesMarkRetry(End(r), 1)
  {
    var r0 := Registered();
    var r1 := SubmitAndLease(r0, 7, 0);
    assert End(r1).execs == map[0 := Exec(W, Env(7, 0, 1), Leased)];
    assert End(r1).redis.inflight - {(W, 7)} == map[];
    r := FailOnce(r1, 0, Env(7, 0, 1), 501);
  }

  lemma HalfASecondLater() returns (r: Run)
    ensures Valid(r) && FailStop(r) && OwesMarkRetry(End(r), 501)
  {
    var r0 := FirstAttemptFails();
    r := Extend(r0, Tick(501));
  }

  /** Half a second later the retry is promoted and leased, still before that MarkRetry. */
  lemma RetryIsLeased() returns (r: Run)
    ensures Valid(r) && FailStop(r)
    ensures End(r).execs == map[0 := Exec(W, Env(7, 1, 1), Parked(501)), 1 := Exec(W, Env(7, 1, 501), Leased)]
    ensures End(r).procs == map[W := Proc([TYP], 2, None)] && 7 in End(r).db.rows
  {
    var r1 := HalfASecondLater();
    var r2 := PromoteOnly(r1, Env(7, 1, 1));
    assert End(r2).procs == map[W := Proc([TYP], 1, None)] && FreeSlot(End(r2));
    r := LeaseOnly(r2, Env(7, 1, 501), 1);
  }

  lemma RetrySucceeds() returns (r: Run)
    ensures Valid(r) && FailStop(r)
    ensures 0 in End(r).execs && End(r).execs[0].phase.Parked? && End(r).execs[0].env.id == 7 && CanFinish(End(r), 0)
    ensures 7 in End(r).db.rows && End(r).db.rows[7].status == Succeeded
  {
    var r0 := RetryIsLeased();
    r := Succeed(r0, 1, Env(7, 1, 501));
  }

  /** A fail-stop run in which a succeeded row goes back to `retrying`: the condition of
      `TerminalRowsAreFinal` is needed. */
  lemma LateRetryOverwritesSuccess() returns (r: Run)
    ensures Valid(r) && FailStop(r) && r.Then?
    ensures 7 in End(r.prev).db.rows && End(r.prev).db.rows[7].status == Succeeded
    ensures 7 in End(r).db.rows && End(r).db.rows[7].status == Retrying
  {
    var r0 := RetrySucceeds();
    r := Then(r0, MarkRetry(0, "boom"));
  }

  // ---- A crash between two calls ----

  /** The documentation promises zero data loss: here a worker fails a task with an attempt left
      and dies between Nack and EnqueueDelayed, and the task is nowhere in Redis. */
  lemma CrashInWindowLosesTask() returns (r: Run)
    ensures Valid(r) && FailStop(r) && r.Then? && r.step == Crash(W)
    ensures 6 in End(r).db.rows && End(r).db.rows[6].status == Running && End(r).db.rows[6].attempts == 1
    ensures CopiesOf(End(r), 6) == {} && End(r).redis.dlq == []
  {
    var r0 := NackedTask6();
    r := Then(r0, Crash(W));
    assert End(r).execs == map[];
    NothingLeft(End(r), 6);
  }

  lemma NackedTask6() returns (r: Run)
    ensures Valid(r) && FailStop(r) && W in End(r).procs && End(r).execs == map[0 := Exec(W, Env(6, 1, 1), Nacked)]
    ensures End(r).redis == R.Data(map[], map[], map[], [], map[W := 9001]) && End(r).apis == map[] && End(r).coord.Idle?
    ensures 6 in End(r).db.rows && End(r).db.rows[6].status == Running && End(r).db.rows[6].attempts == 1
  {
    var r0 := Registered();
    var r1 := SubmitAndLease(r0, 6, 0);
    r := StartAndNack(r1, 0, Env(6, 0, 1));
    assert End(r).redis.inflight == map[] && End(r).execs == map[0 := Exec(W, Env(6, 1, 1), Nacked)];
  }

  // ---- A live worker taken for dead ----

  /** The worker runs task 8, and nothing else is anywhere. */
  ghost predicate RunsTask8(s: State, now: int) {
    && s.now == now && s.cfg == CFG && s.apis == map[] && s.db.rows.Keys == {8}
    && s.redis == R.Data(map[], map[], map[(W, 8) := Env(8, 0, 1)], [], map[W := 9001])
    && s.procs == map[W := Proc([TYP], 1, None)] && s.execs == map[0 := Exec(W, Env(8, 0, 1), Leased)]
    && W in s.db.workers && s.db.workers[W] == P.Alive
  }

  lemma Task8Runs() returns (r: Run)
    ensures Valid(r) && RunsTask8(End(r), 1) && End(r).coord.Idle?
  {
    var r0 := Registered();
    r := SubmitAndLease(r0, 8, 0);
  }

  /** The worker's key expires meanwhile, and the coordinator reads its hash. */
  lemma SnapshotOfLiveWorker() returns (r: Run)
    ensures Valid(r) && RunsTask8(End(r), 9001) && End(r).coord == Snapshot(W, {Env(8, 0, 1)})
  {
    var r1 := SuspectedLiveWorker();
    OnlyRecord(End(r1).redis, 8, Env(8, 0, 1));
    r := Extend(r1, HGetAll);
  }

  lemma SuspectedLiveWorker() returns (r: Run)
    ensures Valid(r) && RunsTask8(End(r), 9001) && End(r).coord == Suspect(W)
  {
    var r0 := Task8Runs();
    var r1 := Extend(r0, Tick(9001));
    r := Extend(r1, CheckAlive(W));
  }

  lemma OnlyRecord(d: R.Data, id: TaskId, e: Envelope)
    requires d.inflight == map[(W, id) := e]
    ensures R.Hash(d, W) == {e}
  {
    assert (W, id) in d.inflight;
  }

  /** The worker leases task 9 before the DEL. */
  lemma LeaseDuringSnapshot() returns (r: Run)
    ensures Valid(r) && End(r).coord == Snapshot(W, {Env(8, 0, 1)})
    ensures End(r).redis == R.Data(map[], map[], map[(W, 8) := Env(8, 0, 1), (W, 9) := Env(9, 0, 9001)], [], map[W := 9001])
    ensures End(r).execs == map[0 := Exec(W, Env(8, 0, 1), Leased), 1 := Exec(W, Env(9, 0, 9001), Leased)]
    ensures End(r).apis == map[] && W in End(r).procs && 9 in End(r).db.rows && End(r).db.rows[9].status == Queued
  {
    var r0 := SnapshotOfLiveWorker();
    r := SubmitAndLease(r0, 9, 1);
  }

  /** The DEL wipes both records. */
  lemma DelWipesNewLease() returns (r: Run)
    ensures Valid(r) && End(r).coord == Sweeping(W, {Env(8, 0, 1)})
    ensures End(r).redis == R.Data(map[], map[], map[], [], map[W := 9001])
    ensures End(r).execs == map[0 := Exec(W, Env(8, 0, 1), Leased), 1 := Exec(W, Env(9, 0, 9001), Leased)]
    ensures End(r).apis == map[] && W in End(r).procs && 9 in End(r).db.rows && End(r).db.rows[9].status == Queued
  {
    var r0 := LeaseDuringSnapshot();
    r := Extend(r0, Del);
    assert End(r).redis.inflight == map[];
  }

  /** A run with a live worker declared dead, in which a crash during a handler loses task 9: it was
      leased between HGETALL and DEL.  The fail-stop condition of `ExactlyOneCopy` is needed. */
  lemma LiveReclaimLosesTask() returns (r: Run)
    ensures Valid(r) && r.Then? && r.step == Crash(W)
    ensures 1 in End(r.prev).execs && End(r.prev).execs[1].phase.Leased? && End(r.prev).execs[1].env.id == 9
    ensures 9 in End(r).db.rows && End(r).db.rows[9].status == Queued
    ensures CopiesOf(End(r), 9) == {} && forall x | x in End(r).redis.dlq :: x.env.id != 9
  {
    var r0 := DelWipesNewLease();
    r := Then(r0, Crash(W));
    assert End(r).execs == map[];
    NothingLeft(End(r), 9);
  }

  /** The worker crashes during both handlers instead, while both records are still in its hash. */
  lemma CrashBeforeDel() returns (r: Run)
    ensures Valid(r) && r.Then? && r.step == Crash(W)
    ensures RunsHandler(End(r.prev), 1) && End(r.prev).execs[1].env.id == 9 && !TakenSinceLease(r.prev, 1)
    ensures Left9(End(r))
  {
    var r0 := LeaseDuringSnapshot();
    RecordStaysIff(r0, 1);
    r := Then(r0, Crash(W));
    assert End(r).execs == map[] && End(r).procs.Keys == End(r0).procs.Keys - {W};
  }

  /** Both records are in the hash of the crashed worker; the coordinator has read only that of task 8. */
  ghost predicate Left9(s: State) {
    && s.coord == Snapshot(W, {Env(8, 0, 1)}) && s.apis == map[] && s.execs == map[] && W !in s.procs
    && s.redis == R.Data(map[], map[], map[(W, 8) := Env(8, 0, 1), (W, 9) := Env(9, 0, 9001)], [], map[W := 9001])
    && 9 in s.db.rows && s.db.rows[9].status == Queued
  }

  lemma OrphanIsCopy(r: Run)
    requires Valid(r) && Left9(End(r))
    ensures CopiesOf(End(r), 9) != {}
  {
    AlwaysSound(r);
    CopyIff(End(r), AtRecord(W, Env(9, 0, 9001), true), 9);
  }

  /** A run in which a crash during a handler leaves the record of task 9, and the DEL of a snapshot
      taken before then wipes it: no copy is left. */
  lemma DelLosesCrashedTask() returns (r: Run)
    ensures Valid(r) && r.Then? && r.step == Del && Valid(r.prev) && r.prev.Then? && r.prev.step == Crash(W)
    ensures RunsHandler(End(r.prev.prev), 1) && End(r.prev.prev).execs[1].env.id == 9 && !TakenSinceLease(r.prev.prev, 1)
    ensures CopiesOf(End(r.prev), 9) != {} && CopiesOf(End(r), 9) == {}
    ensures End(r).redis.dlq == [] && 9 in End(r).db.rows && End(r).db.rows[9].status == Queued
  {
    var r0 := CrashBeforeDel();
    r := DelWipes9(r0);
  }

  lemma DelWipes9(r0: Run) returns (r: Run)
    requires Valid(r0) && Left9(End(r0))
    ensures r == Then(r0, Del) && Valid(r) && CopiesOf(End(r0), 9) != {} && CopiesOf(End(r), 9) == {}
    ensures End(r).redis.dlq == [] && End(r).db == End(r0).db
  {
    OrphanIsCopy(r0);
    DelWipesOrphan(End(r0));
    r := Extend(r0, Del);
  }

  lemma DelWipesOrphan(s: State)
    requires Left9(s)
    ensures Enabled(s, Del) && CopiesOf(Apply(s, Del), 9) == {}
    ensures Apply(s, Del).redis.dlq == [] && Apply(s, Del).db == s.db
  {
    assert Apply(s, Del).redis.inflight == map[];
    NothingLeft(Apply(s, Del), 9);
  }

  // ---- A promotion before the due time ----

  /** Only the worker with `sem` taken slots, its goroutines, task 4 and the coordinator; the key of the
      worker has just expired. */
  ghost predicate Late(s: State, sem: nat, execs: map<Pid, Exec>, coord: Coord) {
    && s.now == 9001 && s.cfg == CFG && s.apis == map[] && s.redis.heartbeats == map[W := 9001]
    && s.procs == map[W := Proc([TYP], sem, None)] && s.execs == execs && s.coord == coord
    && W in s.db.workers && 4 in s.db.rows && s.db.rows[4].typ == TYP && s.db.rows[4].payload == "{}"
    && s.db.rows[4].priority == 5 && s.db.rows[4].maxAttempts == 2
  }

  predicate OnlyRecord4(d: R.Data) {
    d.ready == map[] && d.delayed == map[] && d.inflight == map[(W, 4) := Env(4, 0, 9001)]
  }

  predicate OnlyReady(d: R.Data, e: Envelope) {
    d.ready.Keys == {e} && d.delayed == map[] && d.inflight == map[]
  }

  predicate Emptied(d: R.Data) { d.ready == map[] && d.delayed == map[] && d.inflight == map[] }

  function Running4(p: Pid): map<Pid, Exec> { map[p := Exec(W, Env(4, 0, 9001), Leased)] }

  lemma Task4Runs() returns (r: Run)
    ensures Valid(r) && Late(End(r), 1, Running4(0), Idle) && End(r).db.workers[W] == P.Alive
    ensures OnlyRecord4(End(r).redis)
  {
    var r0 := Registered();
    var r1 := Extend(r0, Tick(9001));
    r := SubmitAndLease(r1, 4, 0);
  }

  lemma Task4Read() returns (r: Run)
    ensures Valid(r) && Late(End(r), 1, Running4(0), Snapshot(W, {Env(4, 0, 9001)}))
    ensures OnlyRecord4(End(r).redis)
  {
    var r0 := Task4Runs();
    OnlyRecord(End(r0).redis, 4, Env(4, 0, 9001));
    var r1 := Extend(r0, CheckAlive(W));
    r := Extend(r1, HGetAll);
  }

  /** The live worker is reclaimed: the task is ready once more. */
  lemma Task4Returned() returns (r: Run)
    ensures Valid(r) && Late(End(r), 1, Running4(0), Sweeping(W, {}))
    ensures OnlyReady(End(r).redis, Env(4, 1, 9001))
  {
    var r0 := Task4Read();
    var r1 := Extend(r0, Del);
    assert End(r1).redis.inflight == map[];
    r := Extend(r1, Requeue(Env(4, 0, 9001)));
    assert {Env(4, 0, 9001)} - {Env(4, 0, 9001)} == {};
  }

  lemma Task4Closed() returns (r: Run)
    ensures Valid(r) && Late(End(r), 1, Running4(0), Idle)
    ensures OnlyReady(End(r).redis, Env(4, 1, 9001))
  {
    var r0 := Task4Returned();
    var r1 := Extend(r0, ResetOrphans);
    r := Extend(r1, CloseWorker);
  }

  /** Its second goroutine takes that copy and fails. */
  lemma Task4FailsTwice() returns (r: Run)
    ensures Valid(r) && Emptied(End(r).redis)
    ensures Late(End(r), 2, Running4(0)[1 := Exec(W, Env(4, 2, 9001), Nacked)], Idle)
  {
    var r0 := Task4Closed();
    var r1 := LeaseOnly(r0, Env(4, 1, 9001), 1);
    r := StartAndNack(r1, 1, Env(4, 1, 9001));
    assert End(r).redis.inflight == map[];
    assert End(r).execs == Running4(0)[1 := Exec(W, Env(4, 2, 9001), Nacked)];
  }

  lemma Task4Buried() returns (r: Run)
    ensures Valid(r) && Emptied(End(r).redis)
    ensures Late(End(r), 2, Running4(0)[1 := Exec(W, Env(4, 2, 9001), Buried("failed"))], Idle)
  {
    var r0 := Task4FailsTwice();
    r := Extend(r0, DeadLetter(1, "failed"));
    assert End(r).execs == Running4(0)[1 := Exec(W, Env(4, 2, 9001), Buried("failed"))];
  }

  lemma Task4Dies() returns (r: Run)
    ensures Valid(r) && Emptied(End(r).redis) && Late(End(r), 1, Running4(0), Idle) && End(r).db.rows[4].status == Dead
  {
    var r0 := Task4Buried();
    r := Extend(r0, MarkDead(1));
    assert End(r).execs == Running4(0);
  }

  /** The redrive in the same millisecond makes the envelope that the first goroutine still has. */
  lemma Task4Redriven() returns (r: Run)
    ensures Valid(r) && Late(End(r), 1, Running4(0), Idle)
    ensures OnlyReady(End(r).redis, Env(4, 0, 9001))
  {
    var r0 := Task4Dies();
    var r1 := Extend(r0, RedriveRow(0, 4));
    assert End(r1).apis == map[0 := Env(4, 0, 0)];
    r := Extend(r1, ApiEnqueue(0));
    assert End(r).apis == map[];
  }

  lemma Task4RunsTwice() returns (r: Run)
    ensures Valid(r) && Late(End(r), 2, Running4(0) + Running4(2), Idle)
    ensures End(r).redis.ready == map[] == End(r).redis.delayed
  {
    var r0 := Task4Redriven();
    r := LeaseOnly(r0, Env(4, 0, 9001), 2);
    assert End(r).execs == Running4(0) + Running4(2);
  }

  /** The retry of the first is due at once and is read. */
  lemma Task4Due() returns (r: Run)
    ensures Valid(r) && End(r).coord == Promoting({Env(4, 1, 9001)}, 9001) && End(r).now == 9001
    ensures End(r).redis.delayed.Keys == {Env(4, 1, 9001)}
    ensures 2 in End(r).execs && End(r).execs[2] == Exec(W, Env(4, 0, 9001), Leased)
  {
    var r0 := Task4RunsTwice();
    var r1 := FailOnce(r0, 0, Env(4, 0, 9001), 9001);
    r := ReadOnly(r1, Env(4, 1, 9001));
  }

  /** The second parks the same envelope for half a second. */
  lemma Task4Refiled() returns (r: Run)
    ensures Valid(r) && End(r).coord == Promoting({Env(4, 1, 9001)}, 9001) && End(r).now == 9001
    ensures End(r).redis.delayed == map[Env(4, 1, 9001) := 9501]
  {
    var r0 := Task4Due();
    r := FailOnce(r0, 2, Env(4, 0, 9001), 9501);
  }

  /** A run in which a task is promoted half a second before its due time: the fail-stop condition of
      `PromotedOnlyWhenDue` is needed. */
  lemma PromotedBeforeDue() returns (r: Run)
    ensures Valid(r) && r.Then? && r.step == PromoteExec
    ensures Env(4, 1, 9001) in End(r.prev).redis.delayed && End(r.prev).redis.delayed[Env(4, 1, 9001)] == End(r.prev).now + 500
    ensures Env(4, 1, 9001) !in End(r).redis.delayed && Env(4, 1, 9001) in End(r).redis.ready
  {
    var r0 := Task4Refiled();
    assert Env(4, 1, 9001).(enqueuedAt := 9001) in R.Restamp({Env(4, 1, 9001)}, 9001);
    r := Extend(r0, PromoteExec);
  }

  lemma NothingLeft(s: State, id: TaskId)
    requires s.redis.ready == map[] && s.redis.delayed == map[] && s.redis.inflight == map[]
    requires s.apis == map[] && s.execs == map[]
    requires forall e | e in Reclaimed(s.coord) :: e.id != id
    ensures CopiesOf(s, id) == {}
  {
    forall t | t in TokensOf(s) && IsCopy(t)
      ensures IdOf(t) != id
    {
      TokenIff(s, t);
    }
  }
}
