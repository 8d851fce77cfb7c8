/** Fail-stop: no task gets stuck.  From every state a task that is not lost can still be finished,
    without a crash, a new submission or a redrive. */
module Progress {
  import opened Types
  import opened Protocol
  import opened Tokens
  import opened Envelopes
  import opened Sums
  import opened Quiescence
  import opened Copies
  import opened Concurrency
  import opened Locations
  import opened Detection
  import B = Backoff
  import G = Guarantees
  import R = Redis
  import P = Postgres
  import Q = Queue
  import Waits

  // ---- States that a continuation can reach ----

  predicate Benign(st: Step) {
    !st.Crash? && !st.ApiCrash? && !st.CoordCrash? && !st.CreateRow? && !st.RedriveRow? && !st.Register?
  }

  /** Run b goes on from run a by such steps. */
  ghost predicate GoesOnFrom(a: Run, b: Run) { a == b || (b.Then? && Benign(b.step) && GoesOnFrom(a, b.prev)) }

  datatype Spot = Spot(s: State, at: Places)

  /** Spots that such steps do not leave; retries are parked for `wait` milliseconds, and the task is to
      be finished at time `deadline`. */
  datatype Reach = Reach(spots: iset<Spot>, wait: nat, deadline: int)

  ghost predicate CanTake(reach: Reach, x: Spot, st: Step) {
    Enabled(x.s, st) && Benign(st) && HeartbeatsHold(x.s, st) && (st.Park? ==> st.at == x.s.now + reach.wait)
  }

  ghost function Next(x: Spot, st: Step): Spot
    requires Enabled(x.s, st)
  {
    Spot(Apply(x.s, st), Move(x.s, st, x.at))
  }

  /** What holds at every spot of a fail-stop run. */
  ghost predicate Facts(x: Spot) {
    Inv(x.s, x.at) && Bounded(x.s) && (x.s.coord.Snapshot? ==> x.s.coord.envs != {})
  }

  /** Names a spot whose facts are needed, so that they stay folded at all others. */
  predicate Asked(x: Spot) { true }

  ghost predicate Closed(reach: Reach) {
    && (forall x {:trigger Asked(x)} | x in reach.spots && Asked(x) :: Facts(x))
    && (forall x, st | x in reach.spots && CanTake(reach, x, st) :: Next(x, st) in reach.spots)
  }

  ghost function Load(x: Spot): nat { Sum(TokensOf(x.s), LoadWeight()) }

  // ---- One step ----

  /** Not lost, and no dead mark of it was killed. */
  predicate Hopeful(here: Place) { !here.Lost? && here != InDlq(Unrecorded) }

  /** No failed attempt is about to be parked. */
  predicate Calm(here: Place) {
    here.Live? && here.token.AtExec? && here.token.exec.phase.Nacked? ==>
      here.token.exec.env.attempts >= here.token.exec.env.maxAttempts
  }

  /** Worker w serves the type of the task. */
  predicate Serves(s: State, w: WorkerId, id: TaskId) {
    id in s.db.rows && w in s.procs && s.db.rows[id].typ in s.procs[w].types && s.cfg.concurrency >= 1
  }

  /** Nothing has to wait any more: the keys of crashed workers have expired, and the task is due. */
  predicate Ripe(s: State, id: TaskId) {
    && (forall v | v in s.db.workers && v !in s.procs :: !R.IsAlive(s.redis, v, s.now))
    && (forall e | e in s.redis.delayed && e.id == id :: s.redis.delayed[e] <= s.now)
  }

  ghost predicate Good(reach: Reach, x: Spot, id: TaskId, w: WorkerId) {
    && Closed(reach) && x in reach.spots && x.s.now == reach.deadline
    && id in x.at && Hopeful(x.at[id]) && Calm(x.at[id]) && Serves(x.s, w, id) && Ripe(x.s, id)
  }

  /** What the continuation does once the task is ripe: no handler fails, other retries wait their turn. */
  ghost predicate Usable(reach: Reach, s: State, st: Step, id: TaskId) {
    && Enabled(s, st) && Benign(st) && !st.Tick? && !st.Nack?
    && (st.Park? ==> st.at == s.now + reach.wait && s.execs[st.pid].env.id != id)
  }

  lemma HopefulStep(x: Spot, st: Step, id: TaskId)
    requires Enabled(x.s, st) && Benign(st) && id in x.at && Hopeful(x.at[id])
    ensures id in Next(x, st).at && Hopeful(Next(x, st).at[id])
    ensures Calm(x.at[id]) && !st.Nack? ==> Calm(Next(x, st).at[id])
  {}

  lemma ServesStep(s: State, st: Step, w: WorkerId, id: TaskId)
    requires Enabled(s, st) && Benign(st) && Serves(s, w, id)
    ensures Serves(Apply(s, st), w, id)
  {
    RowsPersist(s, st);
  }

  lemma RipeStep(s: State, st: Step, id: TaskId)
    requires Enabled(s, st) && Benign(st) && !st.Tick? && Ripe(s, id) && (st.Park? ==> s.execs[st.pid].env.id != id)
    ensures Ripe(Apply(s, st), id) && Apply(s, st).now == s.now
  {}

  lemma LoadGoesDown(x: Spot, st: Step)
    requires Facts(x) && Enabled(x.s, st) && Benign(st)
    ensures Load(Next(x, st)) + (if IsWork(st) then 1 else 0) <= Load(x)
  {
    LoadStep(x.s, st);
  }

  lemma Do(reach: Reach, x: Spot, st: Step, id: TaskId, w: WorkerId) returns (x': Spot)
    requires Good(reach, x, id, w) && Usable(reach, x.s, st, id)
    ensures x' == Next(x, st) && Good(reach, x', id, w) && Load(x') + (if IsWork(st) then 1 else 0) <= Load(x)
  {
    x' := Next(x, st);
    assert CanTake(reach, x, st) && Asked(x);
    LoadGoesDown(x, st);
    HopefulStep(x, st, id);
    ServesStep(x.s, st, w, id);
    RipeStep(x.s, st, id);
  }

  // ---- A goroutine ----

  /** The next call of a goroutine whose handler, if it runs, returns no error. */
  ghost function NextCall(reach: Reach, s: State, p: Pid): Step
    requires p in s.execs
  {
    match s.execs[p].phase
    case Leased => MarkRunning(p)
    case Started => Ack(p)
    case Rejected => DeadLetter(p, NO_HANDLER)
    case Acked => MarkSucceeded(p)
    case Nacked =>
      if s.execs[p].env.attempts >= s.execs[p].env.maxAttempts then DeadLetter(p, "failed") else Park(p, s.now + reach.wait)
    case Buried(_) => MarkDead(p)
    case Parked(_) => MarkRetry(p, "failed")
  }

  lemma Slots(reach: Reach, x: Spot, w: WorkerId)
    requires Closed(reach) && x in reach.spots && w in x.s.procs
    ensures SlotsBalance(x.s, w)
  {
    assert Asked(x);
  }

  /** A retry about to be parked is another task's. */
  lemma ParksAnother(reach: Reach, x: Spot, p: Pid, id: TaskId, w: WorkerId)
    requires Good(reach, x, id, w) && p in x.s.execs && NextCall(reach, x.s, p).Park?
    ensures x.s.execs[p].env.id != id
  {
    assert Asked(x);
    if x.s.execs[p].env.id == id {
      G.HandTold(x.s, p, x.at, id);
    }
  }

  lemma CallUsable(reach: Reach, x: Spot, p: Pid, id: TaskId, w: WorkerId)
    requires Good(reach, x, id, w) && p in x.s.execs
    ensures Usable(reach, x.s, NextCall(reach, x.s, p), id) && IsWork(NextCall(reach, x.s, p))
  {
    var v := x.s.execs[p].worker;
    assert v in x.s.procs by {
      assert Asked(x);
    }
    Slots(reach, x, v);
    assert p in PidsOf(x.s, v);
    if NextCall(reach, x.s, p).Park? {
      ParksAnother(reach, x, p, id, w);
    }
  }

  lemma Call(reach: Reach, x: Spot, p: Pid, id: TaskId, w: WorkerId) returns (x': Spot)
    requires Good(reach, x, id, w) && p in x.s.execs
    ensures Good(reach, x', id, w) && Load(x') < Load(x)
  {
    CallUsable(reach, x, p, id, w);
    x' := Do(reach, x, NextCall(reach, x.s, p), id, w);
  }

  // ---- The main loop of the worker ----

  /** Only the slot and the poll of w differ. */
  ghost predicate SameButPoll(x: Spot, x': Spot, w: WorkerId) {
    && w in x.s.procs && w in x'.s.procs && x'.s.procs[w].types == x.s.procs[w].types
    && x'.s == x.s.(procs := x.s.procs[w := x'.s.procs[w]]) && x'.at == x.at
  }

  lemma FreshPid(s: State) returns (p: Pid)
    ensures p !in s.execs
  {
    p := Above(s.execs.Keys);
    assert p !in s.execs.Keys;
  }

  lemma {:induction false} Above(ps: set<Pid>) returns (p: Pid)
    ensures forall q | q in ps :: q < p
    decreases ps
  {
    if q :| q in ps {
      var r := Above(ps - {q});
      p := if r > q then r else q + 1;
      assert forall o | o in ps :: o == q || o in ps - {q};
    } else {
      p := 0;
    }
  }

  lemma LeaseNext(reach: Reach, x: Spot, id: TaskId, w: WorkerId) returns (x': Spot)
    requires Good(reach, x, id, w) && x.s.procs[w].poll.Some? && x.s.procs[w].poll.value != []
    requires R.ReadyOf(x.s.redis, x.s.procs[w].poll.value[0]) != {}
    ensures Good(reach, x', id, w) && Load(x') < Load(x)
  {
    var typ := x.s.procs[w].poll.value[0];
    var e := Q.NextExists(x.s.redis, typ, R.ReadyOf(x.s.redis, typ));
    var p := FreshPid(x.s);
    x' := Do(reach, x, LeaseHit(w, e, p), id, w);
  }

  /** The loop tries the types that are left: it leases something, or finds them empty. */
  lemma {:induction false} PollOut(reach: Reach, x: Spot, id: TaskId, w: WorkerId) returns (x': Spot)
    requires Good(reach, x, id, w) && x.s.procs[w].poll.Some?
    ensures Good(reach, x', id, w)
    ensures Load(x') < Load(x)
         || (SameButPoll(x, x', w) && Load(x') <= Load(x) && x'.s.procs[w].poll == Some([])
             && forall typ | typ in x.s.procs[w].poll.value :: R.ReadyOf(x.s.redis, typ) == {})
    decreases |x.s.procs[w].poll.value|
  {
    var left := x.s.procs[w].poll.value;
    if left == [] {
      x' := x;
    } else if R.ReadyOf(x.s.redis, left[0]) != {} {
      x' := LeaseNext(reach, x, id, w);
    } else {
      var x1 := Do(reach, x, LeaseMiss(w), id, w);
      x' := PollOut(reach, x1, id, w);
    }
  }

  lemma Reset(reach: Reach, x: Spot, id: TaskId, w: WorkerId) returns (x': Spot)
    requires Good(reach, x, id, w) && x.s.procs[w].poll == Some([])
    ensures Good(reach, x', id, w) && SameButPoll(x, x', w) && Load(x') <= Load(x) && x'.s.procs[w].poll.None?
  {
    Slots(reach, x, w);
    x' := Do(reach, x, Release(w), id, w);
  }

  /** A worker that has no poll under way: all slots are busy, or it polls all of its types. */
  lemma Poll(reach: Reach, x: Spot, e: Envelope, id: TaskId, w: WorkerId) returns (x': Spot)
    requires Good(reach, x, id, w) && x.s.procs[w].poll.None? && e in x.s.redis.ready && e.typ in x.s.procs[w].types
    ensures Good(reach, x', id, w) && Load(x') < Load(x)
  {
    Slots(reach, x, w);
    if x.s.procs[w].sem < x.s.cfg.concurrency {
      var x1 := Do(reach, x, Acquire(w), id, w);
      assert e in R.ReadyOf(x.s.redis, e.typ);
      x' := PollOut(reach, x1, id, w);
    } else {
      var p :| p in PidsOf(x.s, w);
      x' := Call(reach, x, p, id, w);
    }
  }

  lemma LeaseSomething(reach: Reach, x: Spot, e: Envelope, id: TaskId, w: WorkerId) returns (x': Spot)
    requires Good(reach, x, id, w) && e in x.s.redis.ready && e.typ in x.s.procs[w].types
    ensures Good(reach, x', id, w) && Load(x') < Load(x)
  {
    if x.s.procs[w].poll.None? {
      x' := Poll(reach, x, e, id, w);
    } else {
      var x1 := PollOut(reach, x, id, w);
      if Load(x1) < Load(x) {
        x' := x1;
      } else {
        var x2 := Reset(reach, x1, id, w);
        x' := Poll(reach, x2, e, id, w);
      }
    }
  }

  // ---- The coordinator ----

  /** The loop over the reclaimed envelopes hands one on, or records the dead letter just pushed. */
  lemma HandOne(reach: Reach, x: Spot, id: TaskId, w: WorkerId) returns (x': Spot)
    requires Good(reach, x, id, w) && ((x.s.coord.Sweeping? && x.s.coord.envs != {}) || x.s.coord.Interring?)
    ensures Good(reach, x', id, w) && Load(x') < Load(x)
  {
    if x.s.coord.Interring? {
      x' := Do(reach, x, SweepMarkDead, id, w);
    } else {
      var e :| e in x.s.coord.envs;
      x' := Do(reach, x, if e.attempts + 1 < e.maxAttempts then Requeue(e) else SweepDead(e), id, w);
    }
  }

  lemma SnapshotNotEmpty(reach: Reach, x: Spot)
    requires Closed(reach) && x in reach.spots && x.s.coord.Snapshot?
    ensures x.s.coord.envs != {}
  {
    assert Asked(x);
  }

  /** The coordinator has something in hand, and hands one on. */
  lemma HandOn(reach: Reach, x: Spot, id: TaskId, w: WorkerId) returns (x': Spot)
    requires Good(reach, x, id, w)
    requires x.s.coord.Snapshot? || (x.s.coord.Sweeping? && x.s.coord.envs != {}) || x.s.coord.Interring?
    ensures Good(reach, x', id, w) && Load(x') < Load(x)
  {
    if x.s.coord.Snapshot? {
      SnapshotNotEmpty(reach, x);
      var x1 := Do(reach, x, Del, id, w);
      x' := HandOne(reach, x1, id, w);
    } else {
      x' := HandOne(reach, x, id, w);
    }
  }

  /** It ends the sweep of a worker without records. */
  lemma EndSweep(reach: Reach, x: Spot, id: TaskId, w: WorkerId) returns (x': Spot)
    requires Good(reach, x, id, w) && (x.s.coord.Closing? || (x.s.coord.Sweeping? && x.s.coord.envs == {}))
    ensures Good(reach, x', id, w) && Load(x') <= Load(x) && x'.s.coord.Idle?
    ensures x'.s.redis == x.s.redis && x'.s.now == x.s.now && x'.s.procs == x.s.procs
  {
    var x1 := x;
    if x.s.coord.Sweeping? {
      x1 := Do(reach, x, Step.ResetOrphans, id, w);
    }
    x' := Do(reach, x1, CloseWorker, id, w);
  }

  lemma ReadHash(reach: Reach, x: Spot, id: TaskId, w: WorkerId) returns (x': Spot)
    requires Good(reach, x, id, w) && x.s.coord.Suspect?
    ensures Good(reach, x', id, w)
    ensures Load(x') < Load(x)
         || (Load(x') <= Load(x) && x'.s.coord.Idle? && x'.s.redis == x.s.redis && x'.s.now == x.s.now
             && x'.s.procs == x.s.procs)
  {
    var x1 := Do(reach, x, HGetAll, id, w);
    if x1.s.coord.Snapshot? {
      x' := HandOn(reach, x1, id, w);
    } else {
      x' := EndSweep(reach, x1, id, w);
    }
  }

  /** Whatever the coordinator is doing, it hands an envelope on, or comes to rest with nothing changed. */
  lemma ComeToRest(reach: Reach, x: Spot, id: TaskId, w: WorkerId) returns (x': Spot)
    requires Good(reach, x, id, w)
    ensures Good(reach, x', id, w)
    ensures Load(x') < Load(x)
         || (Load(x') <= Load(x) && x'.s.coord.Idle? && x'.s.redis == x.s.redis && x'.s.now == x.s.now
             && x'.s.procs == x.s.procs)
  {
    match x.s.coord
    case Idle => x' := x;
    case Promoting(_, _) => x' := Do(reach, x, PromoteExec, id, w);
    case Suspect(_) => x' := ReadHash(reach, x, id, w);
    case Snapshot(_, _) => x' := HandOn(reach, x, id, w);
    case Interring(_, _, _) => x' := HandOn(reach, x, id, w);
    case Sweeping(_, envs) =>
      if envs != {} {
        x' := HandOn(reach, x, id, w);
      } else {
        x' := EndSweep(reach, x, id, w);
      }
    case Closing(_) => x' := EndSweep(reach, x, id, w);
  }

  lemma ReadBatch(reach: Reach, x: Spot, e: Envelope, id: TaskId, w: WorkerId) returns (x': Spot)
    requires Good(reach, x, id, w) && x.s.coord.Idle? && e in x.s.redis.delayed && x.s.redis.delayed[e] <= x.s.now
    ensures Good(reach, x', id, w) && Load(x') <= Load(x) && x'.s.coord.Promoting?
  {
    var batch := Q.BatchExists(x.s.redis, e.typ, x.s.now);
    assert e in R.Due(x.s.redis, e.typ, x.s.now);
    x' := Do(reach, x, PromoteRead(e.typ, batch), id, w);
  }

  lemma PromoteSomething(reach: Reach, x: Spot, e: Envelope, id: TaskId, w: WorkerId) returns (x': Spot)
    requires Good(reach, x, id, w) && x.s.coord.Idle? && e in x.s.redis.delayed && x.s.redis.delayed[e] <= x.s.now
    ensures Good(reach, x', id, w) && Load(x') < Load(x)
  {
    var x1 := ReadBatch(reach, x, e, id, w);
    x' := Do(reach, x1, PromoteExec, id, w);
  }

  lemma OrphanIsFound(reach: Reach, x: Spot, v: WorkerId, id: TaskId)
    requires Closed(reach) && x in reach.spots && Ripe(x.s, id) && v !in x.s.procs && (v, id) in x.s.redis.inflight
    ensures v in x.s.db.workers && x.s.db.workers[v] != P.Gone && !R.IsAlive(x.s.redis, v, x.s.now)
  {
    assert Asked(x);
  }

  lemma SweepSuspect(reach: Reach, x: Spot, id: TaskId, w: WorkerId) returns (x': Spot)
    requires Good(reach, x, id, w) && x.s.coord.Suspect? && (x.s.coord.worker, id) in x.s.redis.inflight
    ensures Good(reach, x', id, w) && Load(x') < Load(x)
  {
    assert x.s.redis.inflight[(x.s.coord.worker, id)] in R.Hash(x.s.redis, x.s.coord.worker);
    var x1 := Do(reach, x, HGetAll, id, w);
    x' := HandOn(reach, x1, id, w);
  }

  lemma SweepOrphan(reach: Reach, x: Spot, v: WorkerId, id: TaskId, w: WorkerId) returns (x': Spot)
    requires Good(reach, x, id, w) && x.s.coord.Idle? && v !in x.s.procs && (v, id) in x.s.redis.inflight
    ensures Good(reach, x', id, w) && Load(x') < Load(x)
  {
    OrphanIsFound(reach, x, v, id);
    var x1 := Do(reach, x, CheckAlive(v), id, w);
    x' := SweepSuspect(reach, x1, id, w);
  }

  // ---- The task ----

  lemma Held(reach: Reach, x: Spot, id: TaskId)
    requires Closed(reach) && x in reach.spots && id in x.at && x.at[id].Live?
    ensures Holds(x.s, x.at[id].token) && IsCopy(x.at[id].token) && IdOf(x.at[id].token) == id && id in x.s.db.rows
    ensures EnvOf(x.at[id].token).typ == x.s.db.rows[id].typ
  {
    assert Asked(x);
    HeldOk(x.s, x.at[id].token);
  }

  /** While the task is live, some step of its goroutine, of the worker or of the coordinator goes on
      with the work. */
  lemma Advance(reach: Reach, x: Spot, id: TaskId, w: WorkerId) returns (x': Spot)
    requires Good(reach, x, id, w) && x.at[id].Live?
    ensures Good(reach, x', id, w) && Load(x') < Load(x)
  {
    Held(reach, x, id);
    match x.at[id].token
    case AtApi(q, _) => x' := Do(reach, x, ApiEnqueue(q), id, w);
    case AtExec(p, _) => x' := Call(reach, x, p, id, w);
    case AtReady(e) => x' := LeaseSomething(reach, x, e, id, w);
    case AtSweep(_) => x' := HandOn(reach, x, id, w);
    case AtDelayed(e) =>
      var x1 := ComeToRest(reach, x, id, w);
      if Load(x1) < Load(x) {
        x' := x1;
      } else {
        x' := PromoteSomething(reach, x1, e, id, w);
      }
    case AtRecord(v, e, _) =>
      var x1 := ComeToRest(reach, x, id, w);
      if Load(x1) < Load(x) {
        x' := x1;
      } else {
        x' := SweepOrphan(reach, x1, v, id, w);
      }
  }

  predicate Settled(here: Place) { here.Done? || here == InDlq(Recorded) }

  ghost predicate PendingTold(s: State, id: TaskId, mark: Mark) {
    match mark
    case Pending(p) => p in s.execs && s.execs[p].phase.Buried? && s.execs[p].env.id == id
    case _ => s.coord.Interring? && s.coord.env.id == id
  }

  lemma MarkTold(s: State, at: Places, id: TaskId)
    requires MarksReal(s, at) && id in at && at[id].InDlq? && at[id] != InDlq(Recorded) && Hopeful(at[id])
    ensures PendingTold(s, id, at[id].mark)
  {}

  lemma MarkIsPending(reach: Reach, x: Spot, id: TaskId)
    requires Closed(reach) && x in reach.spots && id in x.at && x.at[id].InDlq? && x.at[id] != InDlq(Recorded) && Hopeful(x.at[id])
    ensures PendingTold(x.s, id, x.at[id].mark)
  {
    assert Asked(x);
    MarkTold(x.s, x.at, id);
  }

  lemma MarkStep(reach: Reach, x: Spot, id: TaskId, w: WorkerId) returns (st: Step)
    requires Good(reach, x, id, w) && x.at[id].InDlq? && x.at[id] != InDlq(Recorded)
    ensures Usable(reach, x.s, st, id) && id in Next(x, st).at && Next(x, st).at[id] == InDlq(Recorded)
  {
    MarkIsPending(reach, x, id);
    match x.at[id].mark
    case Pending(p) =>
      CallUsable(reach, x, p, id, w);
      st := MarkDead(p);
    case PendingSweep => st := SweepMarkDead;
  }

  /** The dead letter is there, its row is still to be marked. */
  lemma MarkIt(reach: Reach, x: Spot, id: TaskId, w: WorkerId) returns (x': Spot)
    requires Good(reach, x, id, w) && x.at[id].InDlq? && x.at[id] != InDlq(Recorded)
    ensures Good(reach, x', id, w) && x'.at[id] == InDlq(Recorded)
  {
    var st := MarkStep(reach, x, id, w);
    x' := Do(reach, x, st, id, w);
  }

  /** Each advance takes load away, so the task is settled after finitely many. */
  lemma {:induction false} Finish(reach: Reach, x: Spot, id: TaskId, w: WorkerId) returns (x': Spot)
    requires Good(reach, x, id, w)
    ensures Good(reach, x', id, w) && Settled(x'.at[id])
    decreases Load(x)
  {
    if x.at[id].Live? {
      var x1 := Advance(reach, x, id, w);
      x' := Finish(reach, x1, id, w);
    } else if x.at[id].InDlq? && x.at[id] != InDlq(Recorded) {
      x' := MarkIt(reach, x, id, w);
    } else {
      x' := x;
    }
  }

  // ---- Waiting ----

  /** Only time has passed, and live workers have beaten. */
  ghost predicate Waited(x: Spot, x': Spot) {
    && x'.at == x.at && x.s.now <= x'.s.now
    && x'.s == x.s.(now := x'.s.now, redis := x.s.redis.(heartbeats := x'.s.redis.heartbeats))
    && forall v | v !in x.s.procs ::
         (v in x'.s.redis.heartbeats <==> v in x.s.redis.heartbeats)
         && (v in x.s.redis.heartbeats ==> x'.s.redis.heartbeats[v] == x.s.redis.heartbeats[v])
  }

  lemma {:induction false} BeatAll(reach: Reach, x: Spot, vs: set<WorkerId>) returns (x': Spot)
    requires Closed(reach) && x in reach.spots && vs <= x.s.procs.Keys
    ensures x' in reach.spots && Waited(x, x') && x'.s.now == x.s.now
    ensures forall v | v in vs :: v in x'.s.redis.heartbeats && x'.s.redis.heartbeats[v] == x.s.now + x.s.cfg.ttl
    decreases vs
  {
    if v :| v in vs {
      var x1 := BeatAll(reach, x, vs - {v});
      assert CanTake(reach, x1, Beat(v));
      x' := Next(x1, Beat(v));
      assert forall o | o in vs :: o == v || o in vs - {v};
    } else {
      x' := x;
    }
  }

  /** A millisecond passes; every live worker beats before. */
  lemma OneMillisecond(reach: Reach, x: Spot) returns (x': Spot)
    requires Closed(reach) && x in reach.spots && x.s.cfg.ttl >= 2 && x.s.now + 1 < CLOCK_END
    ensures x' in reach.spots && Waited(x, x') && x'.s.now == x.s.now + 1
  {
    var x1 := BeatAll(reach, x, x.s.procs.Keys);
    assert CanTake(reach, x1, Step.Tick(x.s.now + 1));
    x' := Next(x1, Step.Tick(x.s.now + 1));
  }

  lemma {:induction false} WaitUntil(reach: Reach, x: Spot, t: int) returns (x': Spot)
    requires Closed(reach) && x in reach.spots && x.s.cfg.ttl >= 2 && x.s.now <= t < CLOCK_END
    ensures x' in reach.spots && Waited(x, x') && x'.s.now == t
    decreases t - x.s.now
  {
    if x.s.now == t {
      x' := x;
    } else {
      var x1 := OneMillisecond(reach, x);
      x' := WaitUntil(reach, x1, t);
    }
  }

  /** No key lasts beyond t, and the task is due by t. */
  predicate RipeBy(s: State, id: TaskId, t: int) {
    && (forall v | v in s.redis.heartbeats :: s.redis.heartbeats[v] <= t)
    && (forall e | e in s.redis.delayed && e.id == id :: s.redis.delayed[e] <= t)
  }

  lemma Ripen(reach: Reach, x: Spot, id: TaskId, w: WorkerId) returns (x': Spot)
    requires Closed(reach) && x in reach.spots && x.s.cfg.ttl >= 2 && x.s.now <= reach.deadline < CLOCK_END
    requires RipeBy(x.s, id, reach.deadline) && id in x.at && Hopeful(x.at[id]) && Calm(x.at[id]) && Serves(x.s, w, id)
    ensures Good(reach, x', id, w)
  {
    x' := WaitUntil(reach, x, reach.deadline);
  }

  /** An attempt that has just failed is parked first. */
  lemma ParkFirst(reach: Reach, x: Spot, id: TaskId, w: WorkerId) returns (x': Spot)
    requires Closed(reach) && x in reach.spots && id in x.at && Hopeful(x.at[id]) && Serves(x.s, w, id)
    requires RipeBy(x.s, id, reach.deadline) && x.s.now + reach.wait <= reach.deadline
    ensures x' in reach.spots && id in x'.at && Hopeful(x'.at[id]) && Calm(x'.at[id]) && Serves(x'.s, w, id)
    ensures RipeBy(x'.s, id, reach.deadline) && x'.s.now == x.s.now && x'.s.cfg == x.s.cfg
  {
    if Calm(x.at[id]) {
      x' := x;
    } else {
      Held(reach, x, id);
      var st := Park(x.at[id].token.pid, x.s.now + reach.wait);
      assert CanTake(reach, x, st);
      x' := Next(x, st);
      HopefulStep(x, st, id);
      ServesStep(x.s, st, w, id);
    }
  }

  // ---- Runs ----

  lemma {:induction false} SnapshotHasRecords(r: Run)
    requires Valid(r) && End(r).coord.Snapshot?
    ensures End(r).coord.envs != {}
  {
    SnapshotFrame(End(r.prev), r.step);
    if End(r.prev).coord.Snapshot? {
      SnapshotHasRecords(r.prev);
    }
  }

  lemma SnapshotFrame(s: State, st: Step)
    requires Enabled(s, st) && Apply(s, st).coord.Snapshot?
    ensures s.coord.Snapshot? ==> s.coord == Apply(s, st).coord
    ensures !s.coord.Snapshot? ==> Apply(s, st).coord.envs != {}
  {}

  /** Runs that go on from r like that, with retries parked as `BackoffDelay` says. */
  ghost predicate Goes(r: Run, b: Run, base: nat, max: nat) {
    GoesOnFrom(r, b) && Valid(b) && FailStop(b) && Waits.BacksOff(b, base, max)
  }

  ghost function Spots(r: Run, base: nat, max: nat): iset<Spot> {
    iset b: Run | Goes(r, b, base, max) :: Spot(End(b), Locate(b))
  }

  lemma FactsOf(b: Run)
    requires Valid(b) && FailStop(b)
    ensures Facts(Spot(End(b), Locate(b)))
  {
    AlwaysInv(b);
    AlwaysBounded(b);
    if End(b).coord.Snapshot? {
      SnapshotHasRecords(b);
    }
  }

  /** The least wait is one that the jitter can draw. */
  lemma IsLeastWait(s: State, st: Step, base: nat, max: nat)
    requires Enabled(s, st) && st.Park? && st.at == s.now + base / B.NS_PER_MS
    ensures Waits.IsBackoff(s, st, base, max)
  {
    B.LeastDelay(s.execs[st.pid].env.attempts, base, max);
  }

  lemma GoesOn(r: Run, b: Run, st: Step, base: nat, max: nat)
    requires Goes(r, b, base, max) && Enabled(End(b), st) && Benign(st) && HeartbeatsHold(End(b), st)
    requires st.Park? ==> st.at == End(b).now + base / B.NS_PER_MS
    ensures Goes(r, Then(b, st), base, max)
  {
    if st.Park? {
      IsLeastWait(End(b), st, base, max);
    }
  }

  lemma SpotsClosed(r: Run, base: nat, max: nat, t: int)
    ensures Closed(Reach(Spots(r, base, max), base / B.NS_PER_MS, t))
  {
    var reach := Reach(Spots(r, base, max), base / B.NS_PER_MS, t);
    forall x | x in reach.spots
      ensures Facts(x)
    {
      var b: Run :| Goes(r, b, base, max) && x == Spot(End(b), Locate(b));
      FactsOf(b);
    }
    forall x, st | x in reach.spots && CanTake(reach, x, st)
      ensures Next(x, st) in reach.spots
    {
      var b: Run :| Goes(r, b, base, max) && x == Spot(End(b), Locate(b));
      GoesOn(r, b, st, base, max);
      assert Next(x, st) == Spot(End(Then(b, st)), Locate(Then(b, st)));
    }
  }

  /** Time t leaves room for a TTL, for the least wait and for the due time of the task. */
  predicate RoomUntil(s: State, id: TaskId, base: nat, t: int) {
    && s.now + s.cfg.ttl <= t < CLOCK_END && s.now + base / B.NS_PER_MS <= t
    && forall e | e in s.redis.delayed && e.id == id :: s.redis.delayed[e] <= t
  }

  lemma RipeUntil(r: Run, id: TaskId, base: nat, t: int)
    requires Valid(r) && RoomUntil(End(r), id, base, t)
    ensures RipeBy(End(r), id, t)
  {
    forall v | v in End(r).redis.heartbeats
      ensures End(r).redis.heartbeats[v] <= t
    {
      BeatsAreRecent(r, v);
    }
  }

  /** Such a continuation in which the task is done, or its death is recorded, by time t. */
  ghost predicate FinishesIn(r: Run, r': Run, id: TaskId, base: nat, max: nat, t: int) {
    Goes(r, r', base, max) && End(r').now <= t && id in Locate(r') && Settled(Locate(r')[id])
  }

  /** Fail-stop: as long as a task is not lost and some worker serves its type, the system can go on,
      without a crash, a submission or a redrive, until the task is done or its death is recorded. */
  lemma TaskCanFinish(r: Run, id: TaskId, w: WorkerId, base: nat, max: nat, t: int) returns (r': Run)
    requires Goes(r, r, base, max) && id in Locate(r) && Hopeful(Locate(r)[id]) && Serves(End(r), w, id)
    requires End(r).cfg.ttl >= 2 && RoomUntil(End(r), id, base, t)
    ensures FinishesIn(r, r', id, base, max, t)
  {
    SpotsClosed(r, base, max, t);
    RipeUntil(r, id, base, t);
    var x := Spot(End(r), Locate(r));
    assert x in Spots(r, base, max);
    r' := FinishFrom(r, x, id, w, base, max, t);
  }

  lemma FinishFrom(r: Run, x: Spot, id: TaskId, w: WorkerId, base: nat, max: nat, t: int) returns (r': Run)
    requires Closed(Reach(Spots(r, base, max), base / B.NS_PER_MS, t)) && x in Spots(r, base, max)
    requires id in x.at && Hopeful(x.at[id]) && Serves(x.s, w, id) && x.s.cfg.ttl >= 2
    requires RipeBy(x.s, id, t) && x.s.now <= t < CLOCK_END && x.s.now + base / B.NS_PER_MS <= t
    ensures FinishesIn(r, r', id, base, max, t)
  {
    var reach := Reach(Spots(r, base, max), base / B.NS_PER_MS, t);
    var x1 := ParkFirst(reach, x, id, w);
    var x2 := Ripen(reach, x1, id, w);
    var x3 := Finish(reach, x2, id, w);
    r' :| Goes(r, r', base, max) && x3 == Spot(End(r'), Locate(r'));
  }

  lemma HopelessStep(s: State, st: Step, at: Places, id: TaskId)
    requires Enabled(s, st) && Benign(st) && Sited(s, st, at) && id in at && !Hopeful(at[id])
    ensures id in Move(s, st, at) && Move(s, st, at)[id] == at[id]
  {}

  lemma {:induction false} HopelessStays(a: Run, b: Run, id: TaskId)
    requires Valid(b) && FailStop(b) && GoesOnFrom(a, b) && Valid(a) && id in Locate(a) && !Hopeful(Locate(a)[id])
    ensures id in Locate(b) && Locate(b)[id] == Locate(a)[id]
    decreases b
  {
    if a != b {
      HopelessStays(a, b.prev, id);
      AlwaysInv(b.prev);
      InvSites(End(b.prev), b.step, Locate(b.prev));
      HopelessStep(End(b.prev), b.step, Locate(b.prev), id);
    }
  }

  /** Fail-stop, some worker serves the type, workers back off as `BackoffDelay` says: the task can still
      be finished, by any time that leaves room for it, if and only if no crash in a window has lost it
      and none has left its dead letter unrecorded. */
  lemma CanFinishIff(r: Run, id: TaskId, w: WorkerId, base: nat, max: nat, t: int)
    requires Valid(r) && FailStop(r) && Waits.BacksOff(r, base, max) && Serves(End(r), w, id)
    requires End(r).cfg.ttl >= 2 && RoomUntil(End(r), id, base, t)
    ensures id in Locate(r)
    ensures (exists r' :: FinishesIn(r, r', id, base, max, t))
            <==> !Locate(r)[id].Lost? && !G.LeftUnrecorded(End(r), id)
  {
    G.UnrecordedIff(r, id);
    if Hopeful(Locate(r)[id]) {
      var r' := TaskCanFinish(r, id, w, base, max, t);
      assert FinishesIn(r, r', id, base, max, t);
    } else if r' :| FinishesIn(r, r', id, base, max, t) {
      HopelessStays(r, r', id);
    }
  }
}
