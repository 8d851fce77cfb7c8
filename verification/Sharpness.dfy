/** Runs that start a handler exactly as often as `StartsAreBounded` allows. */
module Sharpness {
  import opened Types
  import opened Protocol
  import opened Races
  import R = Redis
  import P = Postgres
  import B = Backoff

  const TASK: TaskId := 0

  /** A state, with the counters of the task. */
  datatype Point = Point(state: State, starts: nat, redrives: nat)

  function Next(x: Point, st: Step): Point
    requires Enabled(x.state, st)
  {
    Point(Apply(x.state, st),
          x.starts + if st.MarkRunning? && x.state.execs[st.pid].env.id == TASK then 1 else 0,
          x.redrives + if st.RedriveRow? && st.id == TASK then 1 else 0)
  }

  /** Sets of points that every step stays in; the points of all runs are one. */
  ghost predicate Closed(reach: iset<Point>) {
    forall x, st | x in reach && Enabled(x.state, st) :: Next(x, st) in reach
  }

  ghost predicate At(reach: iset<Point>, x: Point) { Closed(reach) && x in reach }

  lemma Go(reach: iset<Point>, x: Point, st: Step) returns (x': Point)
    requires At(reach, x) && Enabled(x.state, st)
    ensures At(reach, x') && x' == Next(x, st)
  {
    x' := Next(x, st);
  }

  ghost predicate SameCounts(x: Point, x': Point) { x'.starts == x.starts && x'.redrives == x.redrives }

  /** The worker is alive, but its heartbeat key has expired; nothing is delayed, leased or in hand. */
  ghost predicate Lapsed(s: State) {
    && s.coord.Idle? && s.redis.delayed == map[] && s.redis.inflight == map[] && s.apis == map[] && 0 < s.now
    && W in s.procs && s.procs[W].poll.None? && s.procs[W].types == [TYP]
    && W in s.db.workers && !R.IsAlive(s.redis, W, s.now) && TASK in s.db.rows
  }

  ghost predicate SameProcesses(s: State, s': State) {
    && s'.cfg == s.cfg && s'.now == s.now && s'.procs == s.procs && s'.execs == s.execs
    && s'.redis.heartbeats == s.redis.heartbeats
  }

  ghost predicate SameTask(s: State, s': State) {
    && TASK in s.db.rows && TASK in s'.db.rows
    && s'.db.rows[TASK].maxAttempts == s.db.rows[TASK].maxAttempts && s'.db.rows[TASK].typ == s.db.rows[TASK].typ
  }

  lemma LeasedOnce(reach: iset<Point>, x: Point, e: Envelope, p: Pid) returns (x': Point)
    requires At(reach, x) && x.state.redis.ready.Keys == {e} && e.typ == TYP && p !in x.state.execs && FreeSlot(x.state)
    ensures At(reach, x') && SameCounts(x, x')
    ensures var s := x.state;
            x'.state == s.(redis := s.redis.(ready := map[], inflight := s.redis.inflight[(W, e.id) := e]),
                          procs := SlotTaken(s), execs := s.execs[p := Exec(W, e, Leased)])
  {
    LeaseStep(x.state, e, p);
    var x1 := Go(reach, x, Acquire(W));
    x' := Go(reach, x1, LeaseHit(W, e, p));
  }

  lemma LeaseAndStart(reach: iset<Point>, x: Point, e: Envelope, p: Pid) returns (x': Point)
    requires At(reach, x) && Lapsed(x.state) && x.state.redis.ready.Keys == {e} && e.typ == TYP
    requires e.id == TASK && p !in x.state.execs && FreeSlot(x.state)
    ensures At(reach, x') && x'.starts == x.starts + 1 && x'.redrives == x.redrives
    ensures var s := x.state;
            x'.state == s.(redis := s.redis.(ready := map[], inflight := map[(W, e.id) := e]),
                          db := P.MarkRunning(s.db, e.id, W),
                          procs := SlotTaken(s), execs := s.execs[p := Exec(W, e, Started)])
  {
    var x1 := LeasedOnce(reach, x, e, p);
    x' := Go(reach, x1, Step.MarkRunning(p));
  }

  // ---- The coordinator takes the running worker for dead ----

  lemma SnapshotTaken(reach: iset<Point>, x: Point, e: Envelope) returns (x': Point)
    requires At(reach, x) && x.state.coord.Idle? && W in x.state.procs && W in x.state.db.workers
    requires !R.IsAlive(x.state.redis, W, x.state.now) && x.state.redis.inflight == map[(W, e.id) := e]
    ensures At(reach, x') && SameCounts(x, x')
    ensures x'.state == x.state.(db := P.TouchWorker(x.state.db, W), coord := Snapshot(W, {e}))
  {
    var x1 := Go(reach, x, Touch(W));
    var x2 := Go(reach, x1, CheckAlive(W));
    OnlyRecord(x2.state.redis, e.id, e);
    x' := Go(reach, x2, HGetAll);
  }

  lemma Requeued(reach: iset<Point>, x: Point, e: Envelope) returns (x': Point)
    requires At(reach, x) && x.state.coord == Snapshot(W, {e}) && x.state.redis.inflight == map[(W, e.id) := e]
    requires x.state.redis.ready == map[] && e.attempts + 1 < e.maxAttempts && e.enqueuedAt != 0
    ensures At(reach, x') && SameCounts(x, x')
    ensures x'.state == x.state.(coord := Sweeping(W, {}),
                               redis := x.state.redis.(inflight := map[], ready := x'.state.redis.ready))
    ensures x'.state.redis.ready.Keys == {R.Bump(e)}
  {
    var x1 := Go(reach, x, Del);
    assert x1.state.redis.inflight == map[];
    x' := Go(reach, x1, Step.Requeue(e));
    assert {e} - {e} == {};
  }

  lemma WorkerClosed(reach: iset<Point>, x: Point) returns (x': Point)
    requires At(reach, x) && x.state.coord == Sweeping(W, {}) && W in x.state.db.workers && TASK in x.state.db.rows
    ensures At(reach, x') && SameCounts(x, x')
    ensures x'.state == x.state.(coord := Idle, db := x'.state.db)
    ensures SameTask(x.state, x'.state) && W in x'.state.db.workers
  {
    var x1 := Go(reach, x, Step.ResetOrphans);
    x' := Go(reach, x1, CloseWorker);
  }

  /** The running task is ready again, one attempt further. */
  lemma Reclaimed(reach: iset<Point>, x: Point, e: Envelope) returns (x': Point)
    requires At(reach, x) && x.state.coord.Idle? && W in x.state.procs && W in x.state.db.workers && TASK in x.state.db.rows
    requires !R.IsAlive(x.state.redis, W, x.state.now) && x.state.redis.inflight == map[(W, e.id) := e]
    requires x.state.redis.ready == map[] && e.attempts + 1 < e.maxAttempts && e.enqueuedAt != 0
    ensures At(reach, x') && SameCounts(x, x')
    ensures x'.state == x.state.(redis := x.state.redis.(inflight := map[], ready := x'.state.redis.ready), db := x'.state.db)
    ensures x'.state.redis.ready.Keys == {R.Bump(e)}
    ensures SameTask(x.state, x'.state) && W in x'.state.db.workers
  {
    var x1 := SnapshotTaken(reach, x, e);
    var x2 := Requeued(reach, x1, e);
    x' := WorkerClosed(reach, x2);
  }

  // ---- Meanwhile its handler returns an error ----

  lemma Nacked(reach: iset<Point>, x: Point, e: Envelope, p: Pid) returns (x': Point)
    requires At(reach, x) && p in x.state.execs && x.state.execs[p] == Exec(W, e, Started) && (W, e.id) !in x.state.redis.inflight
    ensures At(reach, x') && SameCounts(x, x')
    ensures x'.state == x.state.(execs := x.state.execs[p := Exec(W, R.Bump(e), Phase.Nacked)])
  {
    x' := Go(reach, x, Step.Nack(p));
    assert x.state.redis.inflight - {(W, e.id)} == x.state.redis.inflight;
  }

  /** The goroutine is gone and its slot is free. */
  ghost predicate Returned(s: State, s': State, p: Pid) {
    && W in s.procs && s.procs[W].sem > 0
    && s' == s.(redis := s'.redis, db := s'.db, execs := s.execs - {p},
                procs := s.procs[W := s.procs[W].(sem := s.procs[W].sem - 1)])
    && s'.redis.inflight == s.redis.inflight && s'.redis.heartbeats == s.redis.heartbeats
    && s'.db.workers == s.db.workers
  }

  /** A goroutine that makes its last call to Postgres. */
  lemma Finished(reach: iset<Point>, x: Point, st: Step, p: Pid) returns (x': Point)
    requires At(reach, x) && Enabled(x.state, st) && (st == Step.MarkRetry(p, "boom") || st == Step.MarkDead(p))
    requires TASK in x.state.db.rows && x.state.execs[p].env.id == TASK && x.state.execs[p].worker == W
    ensures At(reach, x') && SameCounts(x, x') && Returned(x.state, x'.state, p) && SameTask(x.state, x'.state)
    ensures x'.state.redis == x.state.redis
    ensures st.MarkDead? ==> x'.state.db.rows[TASK].status == Dead
  {
    x' := Go(reach, x, st);
  }

  lemma RetryParked(reach: iset<Point>, x: Point, e: Envelope, p: Pid) returns (x': Point)
    requires At(reach, x) && CanFinish(x.state, p) && x.state.execs[p] == Exec(W, e, Phase.Nacked) && e.attempts < e.maxAttempts
    requires x.state.redis.delayed == map[]
    ensures At(reach, x') && SameCounts(x, x')
    ensures var s := x.state;
            x'.state == s.(redis := s.redis.(delayed := map[e := s.now]), execs := s.execs[p := Exec(W, e, Parked(s.now))])
  {
    x' := Go(reach, x, Park(p, x.state.now));
  }

  lemma DueRead(reach: iset<Point>, x: Point, e: Envelope) returns (x': Point)
    requires At(reach, x) && x.state.coord.Idle? && x.state.redis.delayed == map[e := x.state.now]
    ensures At(reach, x') && SameCounts(x, x') && x'.state == x.state.(coord := Promoting({e}, x.state.now))
  {
    assert R.Due(x.state.redis, e.typ, x.state.now) == {e};
    x' := Go(reach, x, PromoteRead(e.typ, {e}));
  }

  lemma Promoted(reach: iset<Point>, x: Point, e: Envelope) returns (x': Point)
    requires At(reach, x) && x.state.coord.Idle? && x.state.redis.ready == map[] && x.state.redis.delayed == map[e := x.state.now]
    ensures At(reach, x') && SameCounts(x, x')
    ensures var s := x.state; WithReady(s.(redis := s.redis.(delayed := map[])), x'.state, e.(enqueuedAt := s.now))
  {
    var s := x.state;
    var x1 := DueRead(reach, x, e);
    x' := Go(reach, x1, PromoteExec);
    assert R.Restamp({e}, s.now) == {e.(enqueuedAt := s.now)};
    assert x'.state.redis.delayed == map[];
  }

  /** The retry of a failed attempt is promoted at once, as with a backoff base below a millisecond. */
  lemma Retried(reach: iset<Point>, x: Point, e: Envelope, p: Pid) returns (x': Point)
    requires At(reach, x) && Lapsed(x.state) && CanFinish(x.state, p) && x.state.execs[p] == Exec(W, e, Started)
    requires e.id == TASK && e.attempts + 1 < e.maxAttempts && x.state.redis.ready == map[]
    ensures At(reach, x') && SameCounts(x, x') && Lapsed(x'.state) && SameTask(x.state, x'.state)
    ensures Returned(x.state, x'.state, p)
    ensures x'.state.redis.ready.Keys == {R.Bump(e).(enqueuedAt := x.state.now)}
  {
    var x1 := Nacked(reach, x, e, p);
    var x2 := RetryParked(reach, x1, R.Bump(e), p);
    var x3 := Finished(reach, x2, Step.MarkRetry(p, "boom"), p);
    assert x3.state.execs == x.state.execs - {p};
    x' := Promoted(reach, x3, R.Bump(e));
  }

  /** The last attempt fails. */
  lemma LastNacked(reach: iset<Point>, x: Point, e: Envelope, p: Pid) returns (x': Point)
    requires At(reach, x) && p in x.state.execs && x.state.execs[p] == Exec(W, e, Started)
    requires x.state.redis.inflight == map[(W, e.id) := e]
    ensures At(reach, x') && SameCounts(x, x')
    ensures var s := x.state;
            x'.state == s.(redis := s.redis.(inflight := map[]), execs := s.execs[p := Exec(W, R.Bump(e), Phase.Nacked)])
  {
    x' := Go(reach, x, Step.Nack(p));
    assert x'.state.redis.inflight == map[];
  }

  lemma NackedAndBuried(reach: iset<Point>, x: Point, e: Envelope, p: Pid) returns (x': Point)
    requires At(reach, x) && p in x.state.execs && x.state.execs[p] == Exec(W, e, Started)
    requires e.attempts + 1 == e.maxAttempts && x.state.redis.inflight == map[(W, e.id) := e]
    ensures At(reach, x') && SameCounts(x, x')
    ensures var s := x.state;
            x'.state == s.(redis := s.redis.(inflight := map[], dlq := x'.state.redis.dlq),
                          execs := s.execs[p := Exec(W, R.Bump(e), Buried("boom"))])
  {
    var x1 := LastNacked(reach, x, e, p);
    x' := Go(reach, x1, Step.DeadLetter(p, "boom"));
    assert x'.state.execs == x.state.execs[p := Exec(W, R.Bump(e), Buried("boom"))];
  }

  lemma LastFails(reach: iset<Point>, x: Point, e: Envelope, p: Pid) returns (x': Point)
    requires At(reach, x) && CanFinish(x.state, p) && x.state.execs[p] == Exec(W, e, Started) && TASK in x.state.db.rows
    requires e.id == TASK && e.attempts + 1 == e.maxAttempts && x.state.redis.inflight == map[(W, e.id) := e]
    ensures At(reach, x') && SameCounts(x, x') && SameTask(x.state, x'.state)
    ensures x'.state.db.rows[TASK].status == Dead && x'.state.db.workers == x.state.db.workers
    ensures var s := x.state;
            x'.state == s.(redis := s.redis.(inflight := map[], dlq := x'.state.redis.dlq), db := x'.state.db,
                          execs := s.execs - {p}, procs := s.procs[W := s.procs[W].(sem := s.procs[W].sem - 1)])
  {
    var x1 := NackedAndBuried(reach, x, e, p);
    x' := Finished(reach, x1, Step.MarkDead(p), p);
    assert x'.state.execs == x.state.execs - {p};
  }

  // ---- The whole tree of attempts ----

  /** A ready envelope with `left` attempts left, and slots for as many goroutines. */
  ghost predicate Loaded(s: State, e: Envelope, p: Pid, left: nat) {
    && Lapsed(s) && s.redis.ready.Keys == {e} && e.id == TASK && e.typ == TYP && e.enqueuedAt != 0
    && e.attempts + left == e.maxAttempts && s.procs[W].sem + left <= s.cfg.concurrency
    && forall q | q in s.execs :: q < p
  }

  ghost predicate Burnt(s: State, s': State) {
    && Lapsed(s') && s'.redis.ready == map[] && SameProcesses(s, s') && SameTask(s, s')
    && s'.db.rows[TASK].status == Dead
  }

  /** A goroutine that took a slot and gave it back has changed nothing. */
  lemma SlotGivenBack(s: State, s1: State, s2: State, p: Pid, x: Exec)
    requires W in s.procs && p !in s.execs
    requires s1.procs == SlotTaken(s) && s1.execs == s.execs[p := x]
    requires s2.execs == s1.execs - {p} && s2.procs == s1.procs[W := s1.procs[W].(sem := s1.procs[W].sem - 1)]
    ensures s2.procs == s.procs && s2.execs == s.execs
  {
    assert s2.procs[W] == s.procs[W];
  }

  lemma BurnLast(reach: iset<Point>, x: Point, e: Envelope, p: Pid) returns (x': Point)
    requires At(reach, x) && Loaded(x.state, e, p, 1)
    ensures At(reach, x') && Burnt(x.state, x'.state)
    ensures x'.starts == x.starts + 1 && x'.redrives == x.redrives
  {
    var x1 := LeaseAndStart(reach, x, e, p);
    x' := LastFails(reach, x1, e, p);
    SlotGivenBack(x.state, x1.state, x'.state, p, Exec(W, e, Started));
  }

  /** Goroutine p runs the handler for e, and nothing else is different. */
  ghost predicate Lent(s: State, s': State, e: Envelope, p: Pid) {
    && s'.cfg == s.cfg && s'.now == s.now && s'.redis.heartbeats == s.redis.heartbeats
    && W in s.procs && s'.procs == SlotTaken(s) && s'.execs == s.execs[p := Exec(W, e, Started)]
    && SameTask(s, s')
  }

  /** A start whose record is reclaimed while the handler runs. */
  lemma StartAndReclaim(reach: iset<Point>, x: Point, e: Envelope, p: Pid, left: nat) returns (x': Point)
    requires At(reach, x) && left >= 2 && Loaded(x.state, e, p, left)
    ensures At(reach, x') && x'.starts == x.starts + 1 && x'.redrives == x.redrives
    ensures Loaded(x'.state, R.Bump(e), p + 1, left - 1) && Lent(x.state, x'.state, e, p)
  {
    var x1 := LeaseAndStart(reach, x, e, p);
    x' := Reclaimed(reach, x1, e);
  }

  /** Goroutine p still runs the handler for e; the reclaimed copy is burnt. */
  ghost predicate HalfBurnt(s: State, s': State, e: Envelope, p: Pid) {
    && Lapsed(s') && s'.redis.ready == map[] && Lent(s, s', e, p)
  }

  /** The handler fails, and its retry is the only copy. */
  lemma FailAndRetry(reach: iset<Point>, s: State, x: Point, e: Envelope, p: Pid, left: nat) returns (x': Point, again: Envelope)
    requires At(reach, x) && left >= 2 && Loaded(s, e, p, left) && HalfBurnt(s, x.state, e, p)
    ensures At(reach, x') && SameCounts(x, x') && SameTask(s, x'.state) && SameProcesses(s, x'.state)
    ensures Loaded(x'.state, again, p, left - 1)
  {
    again := R.Bump(e).(enqueuedAt := s.now);
    x' := Retried(reach, x, e, p);
    SlotGivenBack(s, x.state, x'.state, p, Exec(W, e, Started));
  }

  /** Every start but the last is reclaimed while its handler runs, and then fails: the reclaimed copy
      and the retry both go on, one after the other. */
  lemma {:induction false} BurnAll(reach: iset<Point>, x: Point, e: Envelope, p: Pid, left: nat) returns (x': Point)
    requires At(reach, x) && left >= 1 && Loaded(x.state, e, p, left)
    ensures At(reach, x') && Burnt(x.state, x'.state)
    ensures x'.starts == x.starts + B.Pow2(left) - 1 && x'.redrives == x.redrives
    decreases left
  {
    if left == 1 {
      x' := BurnLast(reach, x, e, p);
    } else {
      var reclaimed := StartAndReclaim(reach, x, e, p, left);
      var half := BurnAll(reach, reclaimed, R.Bump(e), p + 1, left - 1);
      var retried, again := FailAndRetry(reach, x.state, half, e, p, left);
      x' := BurnAll(reach, retried, again, p, left - 1);
    }
  }

  // ---- From the empty system ----

  /** The task has `max` attempts, and as many slots are free. */
  ghost predicate Fresh(s: State, max: nat) {
    && TASK in s.db.rows && s.db.rows[TASK].maxAttempts == max && s.db.rows[TASK].typ == TYP && s.execs == map[]
    && W in s.procs && s.procs[W].sem == 0 && s.cfg.concurrency == max
  }

  /** It has died. */
  ghost predicate Exhausted(s: State, max: nat) {
    Lapsed(s) && s.redis.ready == map[] && Fresh(s, max) && s.db.rows[TASK].status == Dead
  }

  lemma Created(reach: iset<Point>, max: nat) returns (x: Point, e: Envelope)
    requires Closed(reach) && Point(Init(Config(max, 1, 1)), 0, 0) in reach && max >= 1
    ensures At(reach, x) && x.starts == x.redrives == 0 && Fresh(x.state, max) && Loaded(x.state, e, 0, max)
  {
    e := Envelope(TASK, TYP, 5, 0, max, "{}", 2);
    var x1 := Go(reach, Point(Init(Config(max, 1, 1)), 0, 0), Register(W, [TYP]));
    var x2 := Go(reach, x1, Step.Tick(2));
    var x3 := Go(reach, x2, CreateRow(0, TASK, TYP, "{}", 5, max));
    x := Go(reach, x3, ApiEnqueue(0));
    assert x.state.apis == map[];
  }

  /** A redrive brings all attempts back. */
  lemma Redriven(reach: iset<Point>, x: Point, max: nat) returns (x': Point, e: Envelope)
    requires At(reach, x) && Exhausted(x.state, max)
    ensures At(reach, x') && x'.starts == x.starts && x'.redrives == x.redrives + 1
    ensures Fresh(x'.state, max) && Loaded(x'.state, e, 0, max)
  {
    var x1 := Go(reach, x, RedriveRow(0, TASK));
    x' := Go(reach, x1, ApiEnqueue(0));
    assert x'.state.apis == map[];
    e := R.Stamped(x1.state.apis[0], x.state.now);
    assert x'.state.redis.ready.Keys == {e};
  }

  lemma {:induction false} Lives(reach: iset<Point>, max: nat, redrives: nat) returns (x: Point)
    requires Closed(reach) && Point(Init(Config(max, 1, 1)), 0, 0) in reach && max >= 1
    ensures At(reach, x) && Exhausted(x.state, max)
    ensures x.redrives == redrives && x.starts == (1 + redrives) * (B.Pow2(max) - 1)
    decreases redrives
  {
    if redrives == 0 {
      var x0, e := Created(reach, max);
      x := BurnAll(reach, x0, e, 0, max);
    } else {
      var x0 := Lives(reach, max, redrives - 1);
      var x1, e := Redriven(reach, x0, max);
      x := BurnAll(reach, x1, e, 0, max);
      assert (1 + redrives) * (B.Pow2(max) - 1) == redrives * (B.Pow2(max) - 1) + (B.Pow2(max) - 1);
    }
  }

  ghost function Points(): iset<Point> {
    iset r: Run | Valid(r) :: Point(End(r), Starts(r, TASK), Redrives(r, TASK))
  }

  lemma PointsClosed()
    ensures Closed(Points())
  {
    forall x, st | x in Points() && Enabled(x.state, st)
      ensures Next(x, st) in Points()
    {
      var r: Run :| Valid(r) && x == Point(End(r), Starts(r, TASK), Redrives(r, TASK));
      var r' := Then(r, st);
      assert Valid(r') && Next(x, st) == Point(End(r'), Starts(r', TASK), Redrives(r', TASK));
    }
  }

  /** For every max_attempts and every number of redrives there is a run that starts the handler
      exactly as often as `StartsAreBounded` allows. */
  lemma StartsBoundIsReached(max: nat, redrives: nat) returns (r: Run)
    requires max >= 1
    ensures Valid(r) && TASK in End(r).db.rows && End(r).db.rows[TASK].maxAttempts == max
    ensures Redrives(r, TASK) == redrives && Starts(r, TASK) == (1 + redrives) * (B.Pow2(max) - 1)
  {
    PointsClosed();
    var r0 := Start(Config(max, 1, 1));
    assert Valid(r0) && Point(Init(Config(max, 1, 1)), 0, 0) == Point(End(r0), Starts(r0, TASK), Redrives(r0, TASK));
    var x := Lives(Points(), max, redrives);
    r :| Valid(r) && x == Point(End(r), Starts(r, TASK), Redrives(r, TASK));
  }
}
