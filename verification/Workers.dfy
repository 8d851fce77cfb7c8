/** The worker object.  Each method also names the path of the protocol that it takes when
    nothing interferes, so that what holds in every run holds for the object. */
module Workers {
  import opened Types
  import opened Protocol
  import opened Mirror
  import opened Prefixes
  import R = Redis
  import B = Backoff
  import Q = Queue
  import S = Store
  import Envelopes
  import P = Postgres
  import Waits
  import Wire

  class Worker {
    const id: WorkerId
    const types: seq<string>
    const concurrency: nat
    const baseDelay: nat
    const maxDelay: nat
    const ttl: int
    const handlers: set<string>
    const queue: Q.Queue
    const store: S.Store
    var sem: nat
    var completed: nat
    var failed: nat
    var dead: nat

    constructor (id: WorkerId, types: seq<string>, concurrency: nat, baseDelay: nat, maxDelay: nat, ttl: int,
                 handlers: set<string>, queue: Q.Queue, store: S.Store)
      ensures this.id == id && this.types == types && this.concurrency == concurrency
      ensures this.baseDelay == baseDelay && this.maxDelay == maxDelay && this.ttl == ttl && this.handlers == handlers
      ensures this.queue == queue && this.store == store
      ensures sem == completed == failed == dead == 0
    {
      this.id, this.types, this.concurrency := id, types, concurrency;
      this.baseDelay, this.maxDelay, this.ttl, this.handlers := baseDelay, maxDelay, ttl, handlers;
      this.queue, this.store := queue, store;
      sem, completed, failed, dead := 0, 0, 0, 0;
    }

    /** UpsertWorker and the first Heartbeat, taken together as one step. */
    method Register(now: int, ghost r: Run) returns (ghost r': Run)
      requires Mirrors(r, queue, store) && End(r).now == now && End(r).cfg.ttl == ttl
      requires id !in store.workers && sem == 0
      modifies queue, store, queue.log
      ensures r' == Then(r, Step.Register(id, types)) && Mirrors(r', queue, store)
      ensures End(r').procs[id] == Proc(types, sem, None)
      ensures store.workers == old(store.workers)[id := P.Alive]
      ensures queue.heartbeats == old(queue.heartbeats)[id := now + ttl]
      ensures queue.log.calls == old(queue.log.calls) + [Wire.UpsertWorker(id), Wire.SetHeartbeat(id)]
    {
      store.UpsertWorker(id);
      queue.Heartbeat(id, ttl, now);
      r' := Then(r, Step.Register(id, types));
    }

    /** One turn of the heartbeat loop. */
    method Beat(now: int, ghost r: Run) returns (ghost r': Run)
      requires Mirrors(r, queue, store) && End(r).now == now && End(r).cfg.ttl == ttl && id in End(r).procs
      modifies queue, store, queue.log
      ensures r' == Then(Then(r, Step.Beat(id)), Touch(id)) && Mirrors(r', queue, store)
      ensures queue.heartbeats == old(queue.heartbeats)[id := now + ttl]
      ensures id in store.workers ==> store.workers[id] == P.Alive
      ensures queue.log.calls == old(queue.log.calls) + [Wire.SetHeartbeat(id), Wire.TouchWorker(id)]
    {
      queue.Heartbeat(id, ttl, now);
      r' := Then(r, Step.Beat(id));
      assert Mirrors(r', queue, store);
      store.TouchWorker(id);
      r' := Then(r', Touch(id));
    }

    /** The run has goroutine p of this worker at the start of `execute`. */
    ghost predicate Begins(r: Run, p: Pid, env: Envelope, now: int)
      reads queue, store
    {
      && Mirrors(r, queue, store) && End(r).now == now
      && p in End(r).execs && End(r).execs[p] == Exec(id, env, Leased) && CanFinish(End(r), p)
    }

    /** The goroutine is gone and its slot is free. */
    ghost predicate Freed(r: Run, r': Run, p: Pid) {
      && Valid(r) && Valid(r') && id in End(r).procs && id in End(r').procs
      && p !in End(r').execs && End(r').procs[id].sem == End(r).procs[id].sem - 1
    }

    lemma AckedEnd(r: Run, p: Pid, env: Envelope)
      requires Valid(r) && CanFinish(End(r), p) && End(r).execs[p] == Exec(id, env, Started)
      ensures Valid(Then(r, Step.Ack(p)))
      ensures var s, s' := End(r), End(Then(r, Step.Ack(p)));
              && s'.redis == R.Unlease(s.redis, id, env.id) && s'.db == s.db && s'.procs == s.procs
              && CanFinish(s', p) && s'.execs[p] == Exec(id, env, Acked)
    {
      StepEnds(r, Step.Ack(p));
    }

    /** The handler returned no error. */
    method Succeed(env: Envelope, ghost r: Run, ghost p: Pid) returns (ghost r': Run)
      requires Mirrors(r, queue, store) && CanFinish(End(r), p) && End(r).execs[p] == Exec(id, env, Started)
      modifies queue, store, queue.log, this`completed
      ensures r' == Then(Then(r, Step.Ack(p)), Step.MarkSucceeded(p))
      ensures Mirrors(r', queue, store) && completed == old(completed) + 1
      ensures Freed(r, r', p)
      ensures queue.Image() == old(queue.Image()).(inflight := old(queue.inflight) - {(id, env.id)})
      ensures env.id in old(store.rows)
      ensures store.Image()
           == old(store.Image()).(rows := old(store.rows)[env.id := old(store.rows)[env.id].(status := Succeeded)])
      ensures queue.log.calls == old(queue.log.calls) + [Wire.HDel(id, env.id), Wire.SetSucceeded(env.id)]
    {
      Envelopes.RowOfExec(r, p);
      queue.Ack(id, env.id);
      AckedEnd(r, p, env);
      store.MarkSucceeded(env.id);
      r' := Then(Then(r, Step.Ack(p)), Step.MarkSucceeded(p));
      completed := completed + 1;
    }

    /** What a call inside `execute` leaves alone. */
    lemma StepKeepsSlots(r: Run, st: Step)
      requires Valid(r) && Enabled(End(r), st) && (st.Reject? || st.MarkRunning? || st.Nack?)
      ensures Valid(Then(r, st)) && End(Then(r, st)).procs == End(r).procs && End(Then(r, st)).now == End(r).now
      ensures st.pid in End(Then(r, st)).execs && End(Then(r, st)).execs[st.pid].worker == End(r).execs[st.pid].worker
    {}

    lemma BuriedEnd(r: Run, p: Pid, err: string)
      requires Valid(r) && CanFinish(End(r), p) && Enabled(End(r), Step.DeadLetter(p, err))
      ensures Valid(Then(r, Step.DeadLetter(p, err)))
      ensures var s, s' := End(r), End(Then(r, Step.DeadLetter(p, err)));
              && s'.redis == R.PushDead(s.redis, s.execs[p].env, err, s.now) && s'.db == s.db && s'.procs == s.procs
              && s'.now == s.now && CanFinish(s', p) && s'.execs[p] == s.execs[p].(phase := Buried(err))
    {
      StepEnds(r, Step.DeadLetter(p, err));
    }

    lemma StartedEnd(r: Run, p: Pid, env: Envelope)
      requires Valid(r) && CanFinish(End(r), p) && End(r).execs[p] == Exec(id, env, Leased)
      ensures Valid(Then(r, Step.MarkRunning(p)))
      ensures var s, s' := End(r), End(Then(r, Step.MarkRunning(p)));
              && s'.redis == s.redis && s'.db == P.MarkRunning(s.db, env.id, id) && s'.procs == s.procs
              && s'.now == s.now && CanFinish(s', p) && s'.execs[p] == Exec(id, env, Started)
    {
      StepEnds(r, Step.MarkRunning(p));
    }

    /** No attempt is left, or there is no handler. */
    method Bury(env: Envelope, err: string, now: int, ghost r: Run, ghost p: Pid) returns (ghost r': Run)
      requires Mirrors(r, queue, store) && End(r).now == now && CanFinish(End(r), p)
      requires Enabled(End(r), Step.DeadLetter(p, err)) && End(r).execs[p].env == env && End(r).execs[p].worker == id
      modifies queue, store, queue.log, this`dead
      ensures r' == Then(Then(r, Step.DeadLetter(p, err)), Step.MarkDead(p))
      ensures Mirrors(r', queue, store) && dead == old(dead) + 1
      ensures Freed(r, r', p)
      ensures queue.Image() == old(queue.Image()).(dlq := old(queue.dlq) + [R.DeadLetter(env, err, now)])
      ensures env.id in old(store.rows)
      ensures store.Image()
           == old(store.Image()).(rows := old(store.rows)[env.id := old(store.rows)[env.id].(status := Dead, lastError := err)],
                                  deadLetters := old(store.deadLetters) + [P.DeadRow(env.id, err, env.payload, now)])
      ensures queue.log.calls == old(queue.log.calls) + [Wire.RPush(env, err), Wire.SetDead(env.id)]
    {
      Envelopes.RowOfExec(r, p);
      queue.DeadLetter(env, err, now);
      BuriedEnd(r, p, err);
      var _ := store.MarkDead(env.id, err, now);
      r' := Then(Then(r, Step.DeadLetter(p, err)), Step.MarkDead(p));
      dead := dead + 1;
    }

    /** No handler is registered for the type. */
    method Refuse(env: Envelope, now: int, ghost r: Run, ghost p: Pid) returns (ghost r': Run)
      requires Begins(r, p, env, now)
      modifies queue, store, queue.log, this`dead
      ensures r' == Then(Then(Then(r, Reject(p)), Step.DeadLetter(p, NO_HANDLER)), Step.MarkDead(p))
      ensures Mirrors(r', queue, store) && dead == old(dead) + 1
      ensures Freed(r, r', p)
      ensures queue.Image()
           == old(queue.Image()).(inflight := old(queue.inflight) - {(id, env.id)},
                                  dlq := old(queue.dlq) + [R.DeadLetter(env, "no handler registered", now)])
      ensures env.id in old(store.rows)
      ensures store.Image()
           == old(store.Image()).(
                rows := old(store.rows)[env.id := old(store.rows)[env.id].(status := Dead, lastError := "no handler registered")],
                deadLetters := old(store.deadLetters) + [P.DeadRow(env.id, "no handler registered", env.payload, now)])
      ensures queue.log.calls == old(queue.log.calls) + 
        [Wire.HDel(id, env.id), Wire.RPush(env, "no handler registered"), Wire.SetDead(env.id)]
    {
      queue.Nack(id, env.id);
      ghost var rejected := Then(r, Reject(p));
      StepKeepsSlots(r, Reject(p));
      assert Mirrors(rejected, queue, store);
      r' := Bury(env, NO_HANDLER, now, rejected, p);
    }

    lemma ParkedEnd(r: Run, p: Pid, env: Envelope, at: int)
      requires Valid(r) && CanFinish(End(r), p) && End(r).execs[p] == Exec(id, env, Nacked)
      requires env.attempts < env.maxAttempts && End(r).now <= at
      ensures Valid(Then(r, Park(p, at)))
      ensures var s, s' := End(r), End(Then(r, Park(p, at)));
              && s'.redis == R.EnqueueDelayed(s.redis, env, at) && s'.db == s.db && s'.procs == s.procs
              && CanFinish(s', p) && s'.execs[p] == Exec(id, env, Parked(at))
    {
      StepEnds(r, Park(p, at));
    }

    /** Another attempt is left. */
    method Retry(env: Envelope, err: string, at: int, ghost r: Run, ghost p: Pid) returns (ghost r': Run)
      requires Mirrors(r, queue, store) && End(r).now <= at && CanFinish(End(r), p)
      requires End(r).execs[p] == Exec(id, env, Nacked) && env.attempts < env.maxAttempts
      modifies queue, store, queue.log
      ensures r' == Then(Then(r, Park(p, at)), Step.MarkRetry(p, err))
      ensures Mirrors(r', queue, store) && Freed(r, r', p)
      ensures queue.Image() == old(queue.Image()).(delayed := old(queue.delayed)[env := at])
      ensures env.id in old(store.rows)
      ensures store.Image()
           == old(store.Image()).(rows := old(store.rows)[env.id :=
                old(store.rows)[env.id].(status := Retrying, availableAt := at, lastError := err, worker := None)])
      ensures env in queue.delayed && store.rows[env.id].availableAt == at == queue.delayed[env]
      ensures queue.log.calls == old(queue.log.calls) + [Wire.ZAddDelayed(env, at), Wire.SetRetrying(env.id)]
    {
      Envelopes.RowOfExec(r, p);
      queue.EnqueueDelayed(env, at);
      ParkedEnd(r, p, env, at);
      store.MarkRetry(env.id, at, err);
      r' := Then(Then(r, Park(p, at)), Step.MarkRetry(p, err));
    }

    function RetryAt(env: Envelope, now: int, jitter: real): (at: int)
      requires 0.0 <= jitter < 1.0
      ensures at == now + B.Delay(env.attempts + 1, baseDelay, maxDelay, jitter) / 1_000_000
      ensures now + baseDelay / 1_000_000 <= at
      ensures baseDelay <= maxDelay ==> at <= now + maxDelay / 1_000_000
    {
      assert baseDelay <= maxDelay ==> B.Delay(env.attempts + 1, baseDelay, maxDelay, jitter) <= maxDelay;
      now + B.DelayMs(env.attempts + 1, baseDelay, maxDelay, jitter)
    }

    /** The path of `execute` through the protocol: one of four. */
    ghost function ExecutePath(r: Run, p: Pid, env: Envelope, outcome: Option<string>, now: int, jitter: real): Run
      requires 0.0 <= jitter < 1.0
    {
      if env.typ !in handlers then
        Then(Then(Then(r, Reject(p)), Step.DeadLetter(p, NO_HANDLER)), Step.MarkDead(p))
      else
        var started := Then(r, Step.MarkRunning(p));
        match outcome
        case None => Then(Then(started, Step.Ack(p)), Step.MarkSucceeded(p))
        case Some(err) => FailPath(Then(started, Step.Nack(p)), p, env, err, now, jitter)
    }

    ghost function FailPath(nacked: Run, p: Pid, env: Envelope, err: string, now: int, jitter: real): Run
      requires 0.0 <= jitter < 1.0
    {
      if env.attempts + 1 >= env.maxAttempts
      then Then(Then(nacked, Step.DeadLetter(p, err)), Step.MarkDead(p))
      else Then(Then(nacked, Park(p, RetryAt(env, now, jitter))), Step.MarkRetry(p, err))
    }

    /** `execute` ends in the DLQ: there is no handler, or the last attempt failed. */
    predicate Dies(env: Envelope, outcome: Option<string>) {
      env.typ !in handlers || (outcome.Some? && env.attempts + 1 >= env.maxAttempts)
    }

    /** The retries of this worker are parked for a backoff delay. */
    lemma FailPathBacksOff(nacked: Run, p: Pid, env: Envelope, err: string, now: int, jitter: real)
      requires 0.0 <= jitter < 1.0 && Valid(nacked) && Valid(FailPath(nacked, p, env, err, now, jitter))
      requires Waits.BacksOff(nacked, baseDelay, maxDelay) && End(nacked).now == now
      requires p in End(nacked).execs && End(nacked).execs[p].env == R.Bump(env)
      ensures Waits.BacksOff(FailPath(nacked, p, env, err, now, jitter), baseDelay, maxDelay)
    {
      if env.attempts + 1 < env.maxAttempts {
        var st := Park(p, RetryAt(env, now, jitter));
        assert st.at == End(nacked).now + B.DelayMs(End(nacked).execs[p].env.attempts, baseDelay, maxDelay, jitter);
        assert Waits.BacksOff(Then(nacked, st), baseDelay, maxDelay);
      } else {
        assert Waits.BacksOff(FailPath(nacked, p, env, err, now, jitter).prev, baseDelay, maxDelay);
      }
    }

    /** So whatever path `execute` takes, the run keeps to the backoff that `BackoffBudget` sums up. */
    lemma ExecuteBacksOff(r: Run, p: Pid, env: Envelope, outcome: Option<string>, now: int, jitter: real)
      requires 0.0 <= jitter < 1.0 && Valid(r) && Valid(ExecutePath(r, p, env, outcome, now, jitter))
      requires Waits.BacksOff(r, baseDelay, maxDelay) && End(r).now == now
      requires p in End(r).execs && End(r).execs[p] == Exec(id, env, Leased)
      ensures Waits.BacksOff(ExecutePath(r, p, env, outcome, now, jitter), baseDelay, maxDelay)
    {
      if env.typ !in handlers {
        assert Waits.BacksOff(Then(r, Reject(p)), baseDelay, maxDelay);
        assert Waits.BacksOff(Then(Then(r, Reject(p)), Step.DeadLetter(p, NO_HANDLER)), baseDelay, maxDelay);
      } else {
        var started := Then(r, Step.MarkRunning(p));
        assert Waits.BacksOff(started, baseDelay, maxDelay);
        match outcome
        case None => assert Waits.BacksOff(Then(started, Step.Ack(p)), baseDelay, maxDelay);
        case Some(err) =>
          var nacked := Then(started, Step.Nack(p));
          PathPrefix(nacked, p, env, err, now, jitter);
          assert End(nacked).execs[p].env == R.Bump(env);
          FailPathBacksOff(nacked, p, env, err, now, jitter);
      }
    }

    lemma PathPrefix(nacked: Run, p: Pid, env: Envelope, err: string, now: int, jitter: real)
      requires 0.0 <= jitter < 1.0 && Valid(FailPath(nacked, p, env, err, now, jitter))
      ensures Valid(nacked)
    {
      assert Valid(FailPath(nacked, p, env, err, now, jitter).prev);
    }

    lemma NackedEnd(r: Run, p: Pid, env: Envelope)
      requires Valid(r) && CanFinish(End(r), p) && End(r).execs[p] == Exec(id, env, Started)
      ensures Valid(Then(r, Step.Nack(p)))
      ensures var s, s' := End(r), End(Then(r, Step.Nack(p)));
              && s'.redis == R.Unlease(s.redis, id, env.id) && s'.db == s.db && s'.now == s.now
              && s'.procs == s.procs && CanFinish(s', p) && s'.execs[p] == Exec(id, R.Bump(env), Nacked)
    {
      StepEnds(r, Step.Nack(p));
    }

    /** The failed attempt is counted and off the hash: the last one buries the task. */
    method BuryOrRetry(env0: Envelope, err: string, now: int, jitter: real, ghost nacked: Run, ghost p: Pid)
      returns (ghost r': Run)
      requires Mirrors(nacked, queue, store) && End(nacked).now == now && CanFinish(End(nacked), p) && 0.0 <= jitter < 1.0
      requires End(nacked).execs[p] == Exec(id, R.Bump(env0), Nacked)
      modifies queue, store, queue.log, this`dead
      ensures r' == FailPath(nacked, p, env0, err, now, jitter)
      ensures Mirrors(r', queue, store) && Freed(nacked, r', p)
      ensures dead == old(dead) + if env0.attempts + 1 >= env0.maxAttempts then 1 else 0
      ensures env0.id in old(store.rows)
      ensures var env := env0.(attempts := env0.attempts + 1); var row := old(store.rows)[env.id];
        if env.attempts >= env.maxAttempts then
          && queue.Image() == old(queue.Image()).(dlq := old(queue.dlq) + [R.DeadLetter(env, err, now)])
          && store.Image() == old(store.Image()).(rows := old(store.rows)[env.id := row.(status := Dead, lastError := err)],
                                deadLetters := old(store.deadLetters) + [P.DeadRow(env.id, err, env.payload, now)])
        else
          var at := RetryAt(env0, now, jitter);
          && queue.Image() == old(queue.Image()).(delayed := old(queue.delayed)[env := at])
          && store.Image() == old(store.Image()).(rows := old(store.rows)[env.id :=
                                row.(status := Retrying, availableAt := at, lastError := err, worker := None)])
      ensures queue.log.calls == old(queue.log.calls) + (
        var env := env0.(attempts := env0.attempts + 1);
        if env.attempts >= env.maxAttempts then [Wire.RPush(env, err), Wire.SetDead(env.id)]
        else [Wire.ZAddDelayed(env, RetryAt(env0, now, jitter)), Wire.SetRetrying(env.id)])
    {
      var env := R.Bump(env0);
      if env.attempts >= env.maxAttempts {
        r' := Bury(env, err, now, nacked, p);
      } else {
        var delay := B.BackoffDelay(env.attempts, baseDelay, maxDelay, jitter);
        r' := Retry(env, err, now + delay / B.NS_PER_MS, nacked, p);
      }
    }

    /** The handler returned an error. */
    method Fail(env: Envelope, err: string, now: int, jitter: real, ghost r: Run, ghost p: Pid) returns (ghost r': Run)
      requires Mirrors(r, queue, store) && End(r).now == now && CanFinish(End(r), p) && 0.0 <= jitter < 1.0
      requires End(r).execs[p] == Exec(id, env, Started)
      modifies queue, store, queue.log, this`failed, this`dead
      ensures r' == FailPath(Then(r, Step.Nack(p)), p, env, err, now, jitter)
      ensures Mirrors(r', queue, store) && Freed(r, r', p) && failed == old(failed) + 1
      ensures dead == old(dead) + if env.attempts + 1 >= env.maxAttempts then 1 else 0
      ensures env.id in old(store.rows)
      ensures var env' := env.(attempts := env.attempts + 1); var row := old(store.rows)[env.id];
        var released := old(queue.inflight) - {(id, env.id)};
        if env'.attempts >= env.maxAttempts then
          && queue.Image() == old(queue.Image()).(inflight := released, dlq := old(queue.dlq) + [R.DeadLetter(env', err, now)])
          && store.Image() == old(store.Image()).(rows := old(store.rows)[env.id := row.(status := Dead, lastError := err)],
                                deadLetters := old(store.deadLetters) + [P.DeadRow(env.id, err, env.payload, now)])
        else
          var at := RetryAt(env, now, jitter);
          && queue.Image() == old(queue.Image()).(inflight := released, delayed := old(queue.delayed)[env' := at])
          && store.Image() == old(store.Image()).(rows := old(store.rows)[env.id :=
                                row.(status := Retrying, availableAt := at, lastError := err, worker := None)])
      ensures queue.log.calls == old(queue.log.calls) + (
        var env' := env.(attempts := env.attempts + 1);
        if env'.attempts >= env.maxAttempts then [Wire.HDel(id, env.id), Wire.RPush(env', err), Wire.SetDead(env.id)]
        else [Wire.HDel(id, env.id), Wire.ZAddDelayed(env', RetryAt(env, now, jitter)), Wire.SetRetrying(env.id)])
    {
      failed := failed + 1;
      queue.Nack(id, env.id);
      ghost var nacked := Then(r, Step.Nack(p));
      NackedEnd(r, p, env);
      r' := BuryOrRetry(env, err, now, jitter, nacked, p);
    }

    /** After MarkRunning: the handler returns no error, or its error. */
    method Report(env: Envelope, outcome: Option<string>, now: int, jitter: real, ghost r: Run, ghost p: Pid)
      returns (ghost r': Run)
      requires Mirrors(r, queue, store) && End(r).now == now && CanFinish(End(r), p) && 0.0 <= jitter < 1.0
      requires End(r).execs[p] == Exec(id, env, Started)
      modifies queue, store, queue.log, this`completed, this`failed, this`dead
      ensures r' == match outcome
                    case None => Then(Then(r, Step.Ack(p)), Step.MarkSucceeded(p))
                    case Some(err) => FailPath(Then(r, Step.Nack(p)), p, env, err, now, jitter)
      ensures Mirrors(r', queue, store) && Freed(r, r', p)
      ensures completed == old(completed) + if outcome.None? then 1 else 0
      ensures failed == old(failed) + if outcome.Some? then 1 else 0
      ensures dead == old(dead) + if outcome.Some? && env.attempts + 1 >= env.maxAttempts then 1 else 0
      ensures env.id in old(store.rows)
      ensures outcome.None? ==>
        && queue.Image() == old(queue.Image()).(inflight := old(queue.inflight) - {(id, env.id)})
        && store.Image()
           == old(store.Image()).(rows := old(store.rows)[env.id := old(store.rows)[env.id].(status := Succeeded)])
      ensures outcome.Some? && env.attempts + 1 < env.maxAttempts ==>
        var at := RetryAt(env, now, jitter);
        && queue.Image() == old(queue.Image()).(inflight := old(queue.inflight) - {(id, env.id)},
             delayed := old(queue.delayed)[env.(attempts := env.attempts + 1) := at])
        && store.Image() == old(store.Image()).(rows := old(store.rows)[env.id :=
             old(store.rows)[env.id].(status := Retrying, availableAt := at, lastError := outcome.value, worker := None)])
      ensures outcome.Some? && env.attempts + 1 >= env.maxAttempts ==>
        && queue.Image() == old(queue.Image()).(inflight := old(queue.inflight) - {(id, env.id)},
             dlq := old(queue.dlq) + [R.DeadLetter(env.(attempts := env.attempts + 1), outcome.value, now)])
        && store.Image() == old(store.Image()).(rows := old(store.rows)[env.id :=
             old(store.rows)[env.id].(status := Dead, lastError := outcome.value)],
             deadLetters := old(store.deadLetters) + [P.DeadRow(env.id, outcome.value, env.payload, now)])
      ensures outcome.None? ==>
        queue.log.calls == old(queue.log.calls) + [Wire.HDel(id, env.id), Wire.SetSucceeded(env.id)]
      ensures outcome.Some? && env.attempts + 1 < env.maxAttempts ==>
        queue.log.calls == old(queue.log.calls) + [Wire.HDel(id, env.id),
          Wire.ZAddDelayed(env.(attempts := env.attempts + 1), RetryAt(env, now, jitter)), Wire.SetRetrying(env.id)]
      ensures outcome.Some? && env.attempts + 1 >= env.maxAttempts ==>
        queue.log.calls == old(queue.log.calls) + [Wire.HDel(id, env.id),
          Wire.RPush(env.(attempts := env.attempts + 1), outcome.value), Wire.SetDead(env.id)]
    {
      match outcome
      case None => r' := Succeed(env, r, p);
      case Some(err) => r' := Fail(env, err, now, jitter, r, p);
    }

    lemma AttemptCalls(calls: seq<Wire.Call>, env: Envelope, outcome: Option<string>, at: int)
      ensures var started, released := Wire.SetRunning(env.id), Wire.HDel(id, env.id);
        var e := env.(attempts := env.attempts + 1);
        && calls + [started] + [released, Wire.SetSucceeded(env.id)] == calls + [started, released, Wire.SetSucceeded(env.id)]
        && calls + [started] + [released, Wire.ZAddDelayed(e, at), Wire.SetRetrying(env.id)]
           == calls + [started, released, Wire.ZAddDelayed(e, at), Wire.SetRetrying(env.id)]
        && (outcome.Some? ==> calls + [started] + [released, Wire.RPush(e, outcome.value), Wire.SetDead(env.id)]
                              == calls + [started, released, Wire.RPush(e, outcome.value), Wire.SetDead(env.id)])
    {}

    /** What is written on top of MarkRunning. */
    lemma AttemptRows(t: P.Tables, env: Envelope, err: string, at: int, now: int)
      requires env.id in t.rows
      ensures var t' := P.MarkRunning(t, env.id, id); var row := t.rows[env.id];
        && env.id in t'.rows
        && t'.(rows := t'.rows[env.id := t'.rows[env.id].(status := Succeeded)])
           == t.(rows := t.rows[env.id := row.(status := Succeeded, worker := Some(id), attempts := row.attempts + 1)])
        && t'.(rows := t'.rows[env.id :=
                t'.rows[env.id].(status := Retrying, availableAt := at, lastError := err, worker := None)])
           == t.(rows := t.rows[env.id :=
                row.(status := Retrying, availableAt := at, lastError := err, worker := None, attempts := row.attempts + 1)])
        && t'.(rows := t'.rows[env.id := t'.rows[env.id].(status := Dead, lastError := err)],
               deadLetters := t'.deadLetters + [P.DeadRow(env.id, err, env.payload, now)])
           == t.(rows := t.rows[env.id :=
                   row.(status := Dead, lastError := err, worker := Some(id), attempts := row.attempts + 1)],
                 deadLetters := t.deadLetters + [P.DeadRow(env.id, err, env.payload, now)])
    {}

    /** A handler is registered: MarkRunning, the handler, and its report. */
    method Attempt(env: Envelope, outcome: Option<string>, now: int, jitter: real, ghost r: Run, ghost p: Pid)
      returns (ghost r': Run)
      requires Begins(r, p, env, now) && 0.0 <= jitter < 1.0 && env.typ in handlers
      modifies queue, store, queue.log, this`completed, this`failed, this`dead
      ensures r' == ExecutePath(r, p, env, outcome, now, jitter)
      ensures Mirrors(r', queue, store) && Freed(r, r', p)
      ensures completed == old(completed) + if outcome.None? then 1 else 0
      ensures failed == old(failed) + if outcome.Some? then 1 else 0
      ensures dead == old(dead) + if Dies(env, outcome) then 1 else 0
      ensures env.id in old(store.rows)
      // The handler returned no error: the row is succeeded, and only the record is gone from Redis.
      ensures outcome.None? ==>
        && queue.Image() == old(queue.Image()).(inflight := old(queue.inflight) - {(id, env.id)})
        && store.Image() == old(store.Image()).(rows := old(store.rows)[env.id :=
             old(store.rows)[env.id].(status := Succeeded, worker := Some(id), attempts := old(store.rows)[env.id].attempts + 1)])
      // It failed with an attempt left: the envelope waits with the attempt counted, the row says until when.
      ensures outcome.Some? && env.attempts + 1 < env.maxAttempts ==>
        var at := RetryAt(env, now, jitter);
        && at == now + B.Delay(env.attempts + 1, baseDelay, maxDelay, jitter) / 1_000_000
        && now + baseDelay / 1_000_000 <= at && (baseDelay <= maxDelay ==> at <= now + maxDelay / 1_000_000)
        && queue.Image() == old(queue.Image()).(inflight := old(queue.inflight) - {(id, env.id)},
             delayed := old(queue.delayed)[env.(attempts := env.attempts + 1) := at])
        && store.Image() == old(store.Image()).(rows := old(store.rows)[env.id :=
             old(store.rows)[env.id].(status := Retrying, availableAt := at, lastError := outcome.value, worker := None,
                                      attempts := old(store.rows)[env.id].attempts + 1)])
      // The last attempt failed: one dead letter with the error in each store.
      ensures outcome.Some? && env.attempts + 1 >= env.maxAttempts ==>
        && queue.Image() == old(queue.Image()).(inflight := old(queue.inflight) - {(id, env.id)},
             dlq := old(queue.dlq) + [R.DeadLetter(env.(attempts := env.attempts + 1), outcome.value, now)])
        && store.Image() == old(store.Image()).(rows := old(store.rows)[env.id :=
             old(store.rows)[env.id].(status := Dead, lastError := outcome.value, worker := Some(id),
                                      attempts := old(store.rows)[env.id].attempts + 1)],
             deadLetters := old(store.deadLetters) + [P.DeadRow(env.id, outcome.value, env.payload, now)])
      ensures outcome.None? ==>
        queue.log.calls == old(queue.log.calls) + [Wire.SetRunning(env.id), Wire.HDel(id, env.id), Wire.SetSucceeded(env.id)]
      ensures outcome.Some? && env.attempts + 1 < env.maxAttempts ==>
        queue.log.calls == old(queue.log.calls) + [Wire.SetRunning(env.id), Wire.HDel(id, env.id),
          Wire.ZAddDelayed(env.(attempts := env.attempts + 1), RetryAt(env, now, jitter)), Wire.SetRetrying(env.id)]
      ensures outcome.Some? && env.attempts + 1 >= env.maxAttempts ==>
        queue.log.calls == old(queue.log.calls) + [Wire.SetRunning(env.id), Wire.HDel(id, env.id),
          Wire.RPush(env.(attempts := env.attempts + 1), outcome.value), Wire.SetDead(env.id)]
    {
      Envelopes.RowOfExec(r, p);
      store.MarkRunning(env.id, id);
      ghost var started := Then(r, Step.MarkRunning(p));
      StartedEnd(r, p, env);
      AttemptCalls(old(queue.log.calls), env, outcome, RetryAt(env, now, jitter));
      AttemptRows(old(store.Image()), env, if outcome.Some? then outcome.value else "", RetryAt(env, now, jitter), now);
      r' := Report(env, outcome, now, jitter, started, p);
    }

    /** `outcome` is the handler's error, if any. */
    method Execute(env: Envelope, outcome: Option<string>, now: int, jitter: real, ghost r: Run, ghost p: Pid)
      returns (ghost r': Run)
      requires Begins(r, p, env, now) && 0.0 <= jitter < 1.0
      modifies queue, store, queue.log, this`completed, this`failed, this`dead
      ensures r' == ExecutePath(r, p, env, outcome, now, jitter)
      ensures Mirrors(r', queue, store) && Freed(r, r', p)
      ensures completed == old(completed) + if env.typ in handlers && outcome.None? then 1 else 0
      ensures failed == old(failed) + if env.typ in handlers && outcome.Some? then 1 else 0
      ensures dead == old(dead) + if Dies(env, outcome) then 1 else 0
      ensures env.id in old(store.rows)
      ensures (id, env.id) !in queue.inflight && queue.ready == old(queue.ready)
      // The handler returned no error: the row is succeeded, and only the record is gone from Redis.
      ensures env.typ in handlers && outcome.None? ==>
        && queue.Image() == old(queue.Image()).(inflight := old(queue.inflight) - {(id, env.id)})
        && store.Image() == old(store.Image()).(rows := old(store.rows)[env.id :=
             old(store.rows)[env.id].(status := Succeeded, worker := Some(id), attempts := old(store.rows)[env.id].attempts + 1)])
      // It failed with an attempt left: the envelope waits with the attempt counted, the row says until when.
      ensures env.typ in handlers && outcome.Some? && env.attempts + 1 < env.maxAttempts ==>
        var at := RetryAt(env, now, jitter);
        && at == now + B.Delay(env.attempts + 1, baseDelay, maxDelay, jitter) / 1_000_000
        && now + baseDelay / 1_000_000 <= at && (baseDelay <= maxDelay ==> at <= now + maxDelay / 1_000_000)
        && queue.Image() == old(queue.Image()).(inflight := old(queue.inflight) - {(id, env.id)},
             delayed := old(queue.delayed)[env.(attempts := env.attempts + 1) := at])
        && store.Image() == old(store.Image()).(rows := old(store.rows)[env.id :=
             old(store.rows)[env.id].(status := Retrying, availableAt := at, lastError := outcome.value, worker := None,
                                      attempts := old(store.rows)[env.id].attempts + 1)])
      // The last attempt failed: one dead letter with the error in each store.
      ensures env.typ in handlers && outcome.Some? && env.attempts + 1 >= env.maxAttempts ==>
        && queue.Image() == old(queue.Image()).(inflight := old(queue.inflight) - {(id, env.id)},
             dlq := old(queue.dlq) + [R.DeadLetter(env.(attempts := env.attempts + 1), outcome.value, now)])
        && store.Image() == old(store.Image()).(rows := old(store.rows)[env.id :=
             old(store.rows)[env.id].(status := Dead, lastError := outcome.value, worker := Some(id),
                                      attempts := old(store.rows)[env.id].attempts + 1)],
             deadLetters := old(store.deadLetters) + [P.DeadRow(env.id, outcome.value, env.payload, now)])
      // There is no handler: one dead letter in each store, and no attempt is counted.
      ensures env.typ !in handlers ==>
        && queue.Image() == old(queue.Image()).(inflight := old(queue.inflight) - {(id, env.id)},
             dlq := old(queue.dlq) + [R.DeadLetter(env, "no handler registered", now)])
        && store.Image() == old(store.Image()).(rows := old(store.rows)[env.id :=
             old(store.rows)[env.id].(status := Dead, lastError := "no handler registered")],
             deadLetters := old(store.deadLetters) + [P.DeadRow(env.id, "no handler registered", env.payload, now)])
      // The calls, in this order.
      ensures env.typ in handlers && outcome.None? ==>
        queue.log.calls == old(queue.log.calls) + [Wire.SetRunning(env.id), Wire.HDel(id, env.id), Wire.SetSucceeded(env.id)]
      ensures env.typ in handlers && outcome.Some? && env.attempts + 1 < env.maxAttempts ==>
        queue.log.calls == old(queue.log.calls) + [Wire.SetRunning(env.id), Wire.HDel(id, env.id),
          Wire.ZAddDelayed(env.(attempts := env.attempts + 1), RetryAt(env, now, jitter)), Wire.SetRetrying(env.id)]
      ensures env.typ in handlers && outcome.Some? && env.attempts + 1 >= env.maxAttempts ==>
        queue.log.calls == old(queue.log.calls) + [Wire.SetRunning(env.id), Wire.HDel(id, env.id),
          Wire.RPush(env.(attempts := env.attempts + 1), outcome.value), Wire.SetDead(env.id)]
      ensures env.typ !in handlers ==>
        queue.log.calls == old(queue.log.calls)
          + [Wire.HDel(id, env.id), Wire.RPush(env, "no handler registered"), Wire.SetDead(env.id)]
    {
      if env.typ !in handlers {
        r' := Refuse(env, now, r, p);
        return;
      }
      r' := Attempt(env, outcome, now, jitter, r, p);
    }

    /** The goroutine of one task: execute, then free the slot. */
    method Serve(env: Envelope, outcome: Option<string>, now: int, jitter: real, ghost r: Run, ghost p: Pid)
      returns (ghost r': Run)
      requires Begins(r, p, env, now) && 0.0 <= jitter < 1.0 && End(r).procs[id].sem == sem
      modifies queue, store, queue.log, this
      ensures r' == ExecutePath(r, p, env, outcome, now, jitter)
      ensures Mirrors(r', queue, store)
      ensures p !in End(r').execs && id in End(r').procs && End(r').procs[id].sem == sem == old(sem) - 1
    {
      r' := Execute(env, outcome, now, jitter, r, p);
      sem := sem - 1;
    }

    // ---- The main loop ----

    ghost function Polling(r: Run, left: seq<string>): State
      requires Valid(r) && id in End(r).procs
    {
      End(r).(procs := End(r).procs[id := End(r).procs[id].(poll := Some(left))])
    }

    /** LeaseAny finding nothing for the first n types. */
    lemma {:induction false} Misses(r: Run, all: seq<string>, n: nat) returns (r': Run)
      requires Valid(r) && id in End(r).procs && End(r).procs[id].poll == Some(all) && n <= |all|
      requires forall i | 0 <= i < n :: R.ReadyOf(End(r).redis, all[i]) == {}
      ensures Valid(r') && Continues(r, r') && End(r') == Polling(r, all[n..])
    {
      if n > 0 {
        var before := Misses(r, all, n - 1);
        assert all[n - 1..][0] == all[n - 1];
        assert all[n - 1..][1..] == all[n..];
        r' := OneMiss(r, before, all[n - 1..]);
      } else {
        r' := r;
        assert all[0..] == all;
      }
    }

    lemma OneMiss(r: Run, before: Run, left: seq<string>) returns (r': Run)
      requires Valid(r) && id in End(r).procs && Valid(before) && Continues(r, before) && End(before) == Polling(r, left)
      requires left != [] && R.ReadyOf(End(r).redis, left[0]) == {}
      ensures Valid(r') && Continues(r, r') && End(r') == Polling(r, left[1..])
    {
      r' := Then(before, LeaseMiss(id));
    }

    /** In the middle of a turn that began in s: a slot is taken and the types in `left` are still to be tried. */
    predicate InTurn(s: State, t: State, left: seq<string>) {
      && id in s.procs && s.procs[id] == Proc(types, s.procs[id].sem, None)
      && t == s.(procs := s.procs[id := Proc(types, s.procs[id].sem + 1, Some(left))])
    }

    ghost predicate Tried(r: Run, missed: Run, left: seq<string>) {
      Valid(r) && Valid(missed) && Continues(r, missed) && InTurn(End(r), End(missed), left)
    }

    lemma ReleaseUndoes(s: State, t: State)
      requires InTurn(s, t, [])
      ensures Enabled(t, Release(id)) && Apply(t, Release(id)) == s
    {
      assert t.procs[id := s.procs[id]] == s.procs;
    }

    function AfterLease(s: State, e: Envelope, p: Pid): State
      requires id in s.procs
    {
      s.(redis := R.Lease(s.redis, id, e), execs := s.execs[p := Exec(id, e, Leased)],
         procs := s.procs[id := s.procs[id].(sem := s.procs[id].sem + 1)])
    }

    lemma LeaseEnds(s: State, t: State, left: seq<string>, e: Envelope, p: Pid)
      requires InTurn(s, t, left) && left != [] && R.IsNext(s.redis, left[0], e) && p !in s.execs
      ensures Enabled(t, LeaseHit(id, e, p)) && Apply(t, LeaseHit(id, e, p)) == AfterLease(s, e, p)
    {
      assert Apply(t, LeaseHit(id, e, p)).procs == AfterLease(s, e, p).procs;
    }

    lemma PollMisses(r: Run, tried: nat) returns (missed: Run)
      requires Valid(r) && id in End(r).procs && Enabled(End(r), Acquire(id))
      requires End(r).procs[id].types == types && tried <= |types|
      requires forall i | 0 <= i < tried :: R.ReadyOf(End(r).redis, types[i]) == {}
      ensures Tried(r, missed, types[tried..])
    {
      AcquireEnd(r);
      missed := Misses(Then(r, Acquire(id)), types, tried);
      ContinuesTrans(r, Then(r, Acquire(id)), missed);
    }

    lemma AcquireEnd(r: Run)
      requires Valid(r) && id in End(r).procs && Enabled(End(r), Acquire(id)) && End(r).procs[id].types == types
      ensures Valid(Then(r, Acquire(id))) && Continues(r, Then(r, Acquire(id)))
      ensures End(Then(r, Acquire(id)))
           == End(r).(procs := End(r).procs[id := Proc(types, End(r).procs[id].sem + 1, Some(types))])
    {}

    lemma GiveUp(r: Run, missed: Run) returns (r': Run)
      requires Tried(r, missed, [])
      ensures Valid(r') && Continues(r, r') && End(r') == End(r)
    {
      ReleaseUndoes(End(r), End(missed));
      StepEnds(missed, Release(id));
      r' := Then(missed, Release(id));
    }

    lemma TakeOne(r: Run, missed: Run, left: seq<string>, e: Envelope, p: Pid) returns (r': Run)
      requires Tried(r, missed, left) && left != [] && R.IsNext(End(r).redis, left[0], e) && p !in End(r).execs
      ensures Valid(r') && Continues(r, r') && End(r') == AfterLease(End(r), e, p)
    {
      LeaseEnds(End(r), End(missed), left, e, p);
      StepEnds(missed, LeaseHit(id, e, p));
      r' := Then(missed, LeaseHit(id, e, p));
    }

    /** The path of one turn that tried some types in vain and then found `found`, or nothing. */
    lemma PollPath(r: Run, tried: nat, found: Option<Envelope>, p: Pid) returns (r': Run)
      requires Valid(r) && id in End(r).procs && p !in End(r).execs && Enabled(End(r), Acquire(id))
      requires End(r).procs[id].types == types && tried <= |types|
      requires forall i | 0 <= i < tried :: R.ReadyOf(End(r).redis, types[i]) == {}
      requires found.None? ==> tried == |types|
      requires found.Some? ==> tried < |types| && R.IsNext(End(r).redis, types[tried], found.value)
      ensures Valid(r') && Continues(r, r')
      ensures found.None? ==> End(r') == End(r)
      ensures found.Some? ==> End(r') == AfterLease(End(r), found.value, p)
    {
      var missed := PollMisses(r, tried);
      if found.None? {
        assert types[tried..] == [];
        r' := GiveUp(r, missed);
      } else {
        assert types[tried..][0] == types[tried];
        r' := TakeOne(r, missed, types[tried..], found.value, p);
      }
    }

    /** One turn of the main loop: take a slot, lease, and give the slot back if there is no work.
        None with an unchanged run also stands for waiting on a full semaphore. */
    method Poll(ghost r: Run, ghost p: Pid) returns (env: Option<Envelope>, ghost r': Run)
      requires Mirrors(r, queue, store) && p !in End(r).execs
      requires id in End(r).procs && End(r).procs[id] == Proc(types, sem, None) && concurrency == End(r).cfg.concurrency
      modifies queue, queue.log, this`sem
      ensures Mirrors(r', queue, store) && Continues(r, r')
      ensures env.None? ==> End(r') == End(r) && sem == old(sem)
      ensures env.None? <==> old(sem) >= concurrency || forall e | e in old(queue.ready) :: e.typ !in types
      ensures env.Some? ==>
        && env.value in old(queue.ready) && env.value.typ in types
        && (forall x | x in old(queue.ready) && x.typ == env.value.typ :: old(queue.ready)[env.value] <= old(queue.ready)[x])
        && queue.ready == old(queue.ready) - {env.value} && queue.inflight == old(queue.inflight)[(id, env.value.id) := env.value]
      ensures env.Some? ==> exists i :: 0 <= i < |types| && types[i] == env.value.typ
                                        && forall j, x | 0 <= j < i && x in old(queue.ready) :: x.typ != types[j]
      ensures env.Some? ==> old(sem) < concurrency && sem == old(sem) + 1 && Begins(r', p, env.value, End(r).now)
      ensures env.Some? ==> id in End(r').procs && End(r').procs[id] == Proc(types, sem, None)
    {
      if sem >= concurrency {
        return None, r;
      }
      sem := sem + 1;
      var tried;
      env, tried := queue.LeaseAny(types, id);
      r' := PollPath(r, tried, env, p);
      if env.None? {
        sem := sem - 1;
      }
    }
  }
}
