/** Runs in which only crashed workers lose their heartbeat: every task is in exactly one place. */
module Locations {
  import opened Types
  import opened Protocol
  import opened Tokens
  import opened Envelopes
  import opened Copies
  import R = Redis
  import P = Postgres

  /** Who still owes the row of a dead-lettered task its MarkDead. */
  datatype Mark = Pending(pid: Pid) | PendingSweep | Recorded | Unrecorded

  /** Between which two calls a process died with the only copy in its hands. */
  datatype Window =
    | ApiWindow     // CreateTask or Redrive -> Enqueue
    | NackWindow    // Nack -> EnqueueDelayed or DeadLetter
    | AckWindow     // Ack -> MarkSucceeded
    | SweepWindow   // DEL -> Enqueue or DeadLetter of a reclaimed envelope

  datatype Place = Live(token: Token) | Done | InDlq(mark: Mark) | Lost(window: Window)

  type Places = map<TaskId, Place>

  function AfterCrash(s: State, w: WorkerId, here: Place): Place {
    match here
    case Live(AtExec(_, x)) =>
      if x.worker != w then here
      else if x.phase.Leased? || x.phase.Started? then Live(AtRecord(w, x.env, true))
      else if x.phase.Acked? then Lost(AckWindow)
      else Lost(NackWindow)
    case InDlq(Pending(p)) =>
      if p in s.execs && s.execs[p].worker == w then InDlq(Unrecorded) else here
    case _ => here
  }

  function AfterCoordCrash(c: Coord, here: Place): Place {
    match here
    case Live(AtSweep(e)) => if c.Snapshot? then Live(AtRecord(c.worker, e, true)) else Lost(SweepWindow)
    case InDlq(PendingSweep) => InDlq(Unrecorded)
    case _ => here
  }

  function AfterHGetAll(w: WorkerId, here: Place): Place {
    if here.Live? && here.token.AtRecord? && here.token.worker == w then Live(AtSweep(here.token.env)) else here
  }

  function AfterPromotion(batch: set<Envelope>, now: int, here: Place): Place {
    if here.Live? && here.token.AtDelayed? && here.token.env in batch
    then Live(AtReady(here.token.env.(enqueuedAt := now))) else here
  }

  function AfterExec(s: State, st: Step): Place
    requires Enabled(s, st) && ByExec(st)
  {
    var x := s.execs[st.pid];
    match st
    case Reject(p) => Live(AtExec(p, x.(phase := Rejected)))
    case MarkRunning(p) => Live(AtExec(p, x.(phase := Started)))
    case Ack(p) => Live(AtExec(p, x.(phase := Acked)))
    case Nack(p) => Live(AtExec(p, Exec(x.worker, R.Bump(x.env), Nacked)))
    case MarkSucceeded(_) => Done
    case DeadLetter(p, _) => InDlq(Pending(p))
    case Park(_, _) => Live(AtDelayed(x.env))
    case _ => InDlq(Recorded)
  }

  /** Where each task is after a step, given where it was. */
  function Move(s: State, st: Step, at: Places): Places
    requires Enabled(s, st)
  {
    if ByExec(st) then
      if st.MarkRetry? then at else at[s.execs[st.pid].env.id := AfterExec(s, st)]
    else
    match st
    case CreateRow(q, id, _, _, _, _) => at[id := Live(AtApi(q, P.FreshEnvelope(id, NewRow(st, s.now))))]
    case RedriveRow(q, id) => at[id := Live(AtApi(q, P.FreshEnvelope(id, s.db.rows[id])))]
    case ApiEnqueue(q) => at[s.apis[q].id := Live(AtReady(R.Stamped(s.apis[q], s.now)))]
    case ApiCrash(q) => at[s.apis[q].id := Lost(ApiWindow)]
    case LeaseHit(w, e, p) => at[e.id := Live(AtExec(p, Exec(w, e, Leased)))]
    case Crash(w) => map id | id in at :: AfterCrash(s, w, at[id])
    case HGetAll => map id | id in at :: AfterHGetAll(s.coord.worker, at[id])
    case PromoteExec => map id | id in at :: AfterPromotion(s.coord.batch, s.coord.asOf, at[id])
    case Requeue(e) => at[e.id := Live(AtReady(R.Stamped(R.Bump(e), s.now)))]
    case SweepDead(e) => at[e.id := InDlq(PendingSweep)]
    case SweepMarkDead => at[s.coord.env.id := InDlq(Recorded)]
    case CoordCrash => map id | id in at :: AfterCoordCrash(s.coord, at[id])
    case _ => at
  }

  ghost function Locate(r: Run): Places
    requires Valid(r)
  {
    if r.Start? then map[] else Move(End(r.prev), r.step, Locate(r.prev))
  }

  // ---- The invariant ----

  /** The live copies and the places are the same thing. */
  ghost predicate Located(s: State, at: Places) {
    && at.Keys == s.db.rows.Keys
    && (forall t | Holds(s, t) && IsCopy(t) :: IdOf(t) in at && at[IdOf(t)] == Live(t))
    && (forall id | id in at && at[id].Live? :: Holds(s, at[id].token) && IsCopy(at[id].token) && IdOf(at[id].token) == id)
  }

  predicate IsRunningAt(here: Place, w: WorkerId, e: Envelope) {
    && here.Live? && here.token.AtExec? && here.token.exec.worker == w && here.token.exec.env == e
    && (here.token.exec.phase.Leased? || here.token.exec.phase.Started?)
  }

  /** A live worker's hash is exactly what its goroutines are executing. */
  ghost predicate HashesMatch(s: State, at: Places) {
    && (forall k | k in s.redis.inflight && k.0 in s.procs :: k.1 in at && IsRunningAt(at[k.1], k.0, s.redis.inflight[k]))
    && (forall p | p in s.execs && (s.execs[p].phase.Leased? || s.execs[p].phase.Started?) ::
          (s.execs[p].worker, s.execs[p].env.id) in s.redis.inflight)
  }

  ghost predicate Marked(s: State, at: Places) {
    && (forall p | p in s.execs && s.execs[p].phase.Buried? ::
          s.execs[p].env.id in at && at[s.execs[p].env.id] == InDlq(Pending(p)))
    && (s.coord.Interring? ==> s.coord.env.id in at && at[s.coord.env.id] == InDlq(PendingSweep))
  }

  ghost predicate MarksReal(s: State, at: Places) {
    && (forall id | id in at && at[id].InDlq? && at[id].mark.Pending? ::
          var p := at[id].mark.pid; p in s.execs && s.execs[p].phase.Buried? && s.execs[p].env.id == id)
    && (forall id | id in at && at[id] == InDlq(PendingSweep) :: s.coord.Interring? && s.coord.env.id == id)
  }

  ghost predicate MarksMatch(s: State, at: Places) { Marked(s, at) && MarksReal(s, at) }

  predicate HashEmpty(s: State, w: WorkerId) { forall k | k in s.redis.inflight :: k.0 != w }

  predicate Handles(c: Coord) { c.Suspect? || c.Snapshot? || c.Sweeping? || c.Interring? || c.Closing? }

  predicate PastDel(c: Coord) { c.Sweeping? || c.Interring? || c.Closing? }

  /** The coordinator only ever handles workers that are gone, and forgets none of their records. */
  ghost predicate SweepsMatch(s: State) {
    && (forall w | w in s.procs :: w in s.db.workers && s.db.workers[w] != P.Gone && R.IsAlive(s.redis, w, s.now))
    && (forall w | w in s.db.workers && s.db.workers[w] == P.Gone :: HashEmpty(s, w))
    && (Handles(s.coord) ==> s.coord.worker !in s.procs)
    && (s.coord.Snapshot? ==> s.coord.envs == R.Hash(s.redis, s.coord.worker))
    && (PastDel(s.coord) ==> HashEmpty(s, s.coord.worker))
    && (s.coord.Promoting? ==> s.coord.asOf <= s.now)
    && (s.coord.Promoting? ==> forall e | e in s.coord.batch :: e in s.redis.delayed && s.redis.delayed[e] <= s.coord.asOf)
  }

  /** The most handler starts that the row may have counted in this life. */
  function StartsAllowed(here: Place, max: nat): nat {
    match here
    case Live(AtRecord(_, e, _)) => e.attempts + 1
    case Live(AtSweep(e)) => e.attempts + 1
    case Live(AtExec(_, x)) => if x.phase.Started? || x.phase.Acked? then x.env.attempts + 1 else x.env.attempts
    case Live(t) => EnvOf(t).attempts
    case _ => max
  }

  /** How a row and the place of its task agree. */
  predicate RowOk(r: Row, here: Place) {
    && (r.status == Succeeded ==> here.Done?)
    && (r.status == Dead ==> here == InDlq(Recorded))
    && (here.Done? ==> r.status == Succeeded || r.status == Retrying)
    && (here == InDlq(Recorded) ==> r.status == Dead || r.status == Retrying)
    && (r.status == Running && here.Live? && here.token.AtExec? && !here.token.exec.phase.Leased? && !here.token.exec.phase.Rejected?
        ==> r.worker == Some(here.token.exec.worker))
    && r.attempts <= StartsAllowed(here, r.maxAttempts) <= r.maxAttempts
  }

  ghost predicate RowsMatch(s: State, at: Places) {
    forall id | id in s.db.rows :: id in at && RowOk(s.db.rows[id], at[id])
  }

  ghost predicate Inv(s: State, at: Places) {
    Sound(s) && Located(s, at) && RowsMatch(s, at) && HashesMatch(s, at) && MarksMatch(s, at) && SweepsMatch(s)
  }

  // ---- Located ----

  lemma RecordKeptByUnlease(s: State, st: Step, t: Token)
    requires Wf(s) && Enabled(s, st) && Unleases(st) && t.AtRecord? && Holds(s, t) && IsCopy(t)
    ensures Holds(Apply(s, st), t)
  {}

  lemma RecordKeptByExec(s: State, st: Step, t: Token)
    requires Wf(s) && Enabled(s, st) && ByExec(st) && t.AtRecord? && Holds(s, t) && IsCopy(t)
    ensures Holds(Apply(s, st), t)
  {
    if Unleases(st) {
      RecordKeptByUnlease(s, st, t);
    }
  }

  lemma ExecKeptByExec(s: State, st: Step, t: Token)
    requires Enabled(s, st) && ByExec(st) && t.AtExec? && Holds(s, t) && t !in Removed(s, st)
    ensures Holds(Apply(s, st), t)
  {}

  lemma KeptByExec(s: State, st: Step, t: Token)
    requires Enabled(s, st) && ByExec(st) && !t.AtRecord? && Holds(s, t) && t !in Removed(s, st)
    ensures Holds(Apply(s, st), t)
  {
    if t.AtExec? {
      ExecKeptByExec(s, st, t);
    }
  }

  lemma KeptMany(s: State, st: Step, t: Token)
    requires Wf(s) && SweepsMatch(s) && Enabled(s, st) && MovesMany(st) && Holds(s, t) && IsCopy(t) && t !in Removed(s, st)
    ensures Holds(Apply(s, st), t)
  {}

  lemma RecordKeptOther(s: State, st: Step, t: Token)
    requires Wf(s) && SweepsMatch(s) && Enabled(s, st) && !ByExec(st) && !MovesMany(st)
    requires t.AtRecord? && Holds(s, t) && IsCopy(t)
    ensures Holds(Apply(s, st), t)
  {}

  lemma KeptOther(s: State, st: Step, t: Token)
    requires Enabled(s, st) && !ByExec(st) && !MovesMany(st)
    requires !t.AtRecord? && Holds(s, t) && t !in Removed(s, st)
    ensures Holds(Apply(s, st), t)
  {}

  /** No silent loss: a copy that a step does not take away stays where it is. */
  lemma Kept(s: State, st: Step, t: Token)
    requires Wf(s) && SweepsMatch(s) && Enabled(s, st)
    requires Holds(s, t) && IsCopy(t) && t !in Removed(s, st)
    ensures Holds(Apply(s, st), t)
  {
    if ByExec(st) && t.AtRecord? {
      RecordKeptByExec(s, st, t);
    } else if ByExec(st) {
      KeptByExec(s, st, t);
    } else if MovesMany(st) {
      KeptMany(s, st, t);
    } else if t.AtRecord? {
      RecordKeptOther(s, st, t);
    } else {
      KeptOther(s, st, t);
    }
  }

  /** What the invariant says about the one envelope that a step handles. */
  ghost predicate Sited(s: State, st: Step, at: Places)
    requires Enabled(s, st)
  {
    if ByExec(st) then
      var x := s.execs[st.pid];
      st.MarkRetry? || (x.env.id in at && at[x.env.id] == if st.MarkDead? then InDlq(Pending(st.pid)) else Live(AtExec(st.pid, x)))
    else
    match st
    case CreateRow(_, id, _, _, _, _) => id !in at
    case RedriveRow(_, id) => id in at && at[id] == InDlq(Recorded)
    case ApiEnqueue(q) => s.apis[q].id in at && at[s.apis[q].id] == Live(AtApi(q, s.apis[q]))
    case ApiCrash(q) => s.apis[q].id in at && at[s.apis[q].id] == Live(AtApi(q, s.apis[q]))
    case LeaseHit(_, e, _) => e.id in at && at[e.id] == Live(AtReady(e))
    case Requeue(e) => e.id in at && at[e.id] == Live(AtSweep(e))
    case SweepDead(e) => e.id in at && at[e.id] == Live(AtSweep(e))
    case SweepMarkDead => s.coord.env.id in at && at[s.coord.env.id] == InDlq(PendingSweep)
    case _ => true
  }

  lemma InvSitesByExec(s: State, st: Step, at: Places)
    requires Located(s, at) && MarksMatch(s, at) && Enabled(s, st) && ByExec(st)
    ensures Sited(s, st, at)
  {
    assert Holds(s, AtExec(st.pid, s.execs[st.pid]));
  }

  lemma InvSites(s: State, st: Step, at: Places)
    requires Located(s, at) && MarksMatch(s, at) && RowsMatch(s, at) && Enabled(s, st)
    ensures Sited(s, st, at)
  {
    if ByExec(st) {
      InvSitesByExec(s, st, at);
    } else {
      match st
      case ApiEnqueue(q) => assert Holds(s, AtApi(q, s.apis[q]));
      case ApiCrash(q) => assert Holds(s, AtApi(q, s.apis[q]));
      case LeaseHit(_, e, _) => assert Holds(s, AtReady(e));
      case Requeue(e) => assert Holds(s, AtSweep(e));
      case SweepDead(e) => assert Holds(s, AtSweep(e));
      case _ =>
    }
  }

  /** The places that a step changes are those of the envelopes it takes away or puts somewhere. */
  ghost predicate MoveOk(s: State, st: Step, at: Places, id: TaskId)
    requires Enabled(s, st)
  {
    var to := Move(s, st, at);
    && (id in at ==> id in to)
    && (id in at && at[id].Live? ==> (to[id] != at[id] <==> at[id].token in Removed(s, st)))
    && (id in to && to[id].Live? && (id in at ==> to[id] != at[id])
        ==> IdOf(to[id].token) == id && IsCopy(to[id].token) && Holds(Apply(s, st), to[id].token))
  }

  lemma MoveOkByExec(s: State, st: Step, at: Places, id: TaskId)
    requires Enabled(s, st) && ByExec(st) && Sited(s, st, at)
    requires forall i | i in at && at[i].Live? :: IdOf(at[i].token) == i && IsCopy(at[i].token)
    ensures MoveOk(s, st, at, id)
  {
  }

  lemma MoveOkOther(s: State, st: Step, at: Places, id: TaskId)
    requires Enabled(s, st) && !ByExec(st) && !MovesMany(st) && Sited(s, st, at)
    requires forall i | i in at && at[i].Live? :: IdOf(at[i].token) == i && IsCopy(at[i].token)
    ensures MoveOk(s, st, at, id)
  {
  }

  lemma RunningTaskHasRecord(s: State, at: Places, p: Pid)
    requires Located(s, at) && HashesMatch(s, at) && SweepsMatch(s) && Wf(s)
    requires p in s.execs && (s.execs[p].phase.Leased? || s.execs[p].phase.Started?)
    ensures var x := s.execs[p];
            && x.worker in s.procs && !InSnapshot(s, x.worker, x.env)
            && (x.worker, x.env.id) in s.redis.inflight && s.redis.inflight[(x.worker, x.env.id)] == x.env
  {
    var x := s.execs[p];
    assert Holds(s, AtExec(p, x));
    var k := (x.worker, x.env.id);
    assert k in s.redis.inflight && IsRunningAt(at[k.1], k.0, s.redis.inflight[k]);
  }

  lemma CrashOrphansRecord(s: State, w: WorkerId, e: Envelope)
    requires w in s.procs && !InSnapshot(s, w, e)
    requires (w, e.id) in s.redis.inflight && s.redis.inflight[(w, e.id)] == e
    ensures Holds(Apply(s, Crash(w)), AtRecord(w, e, true))
  {}

  lemma MoveOkOwnCrash(s: State, w: WorkerId, at: Places, id: TaskId)
    requires Wf(s) && Located(s, at) && HashesMatch(s, at) && SweepsMatch(s) && w in s.procs
    requires id in at && at[id].Live? && at[id].token.AtExec? && at[id].token.exec.worker == w
    ensures MoveOk(s, Crash(w), at, id)
  {
    var p, x := at[id].token.pid, at[id].token.exec;
    assert Holds(s, at[id].token) && IdOf(at[id].token) == id;
    assert at[id].token in Removed(s, Crash(w));
    if x.phase.Leased? || x.phase.Started? {
      RunningTaskHasRecord(s, at, p);
      CrashOrphansRecord(s, w, x.env);
    }
  }

  lemma MoveOkCrash(s: State, w: WorkerId, at: Places, id: TaskId)
    requires Wf(s) && Located(s, at) && HashesMatch(s, at) && SweepsMatch(s) && w in s.procs
    ensures MoveOk(s, Crash(w), at, id)
  {
    if id in at && at[id].Live? {
      assert Holds(s, at[id].token) && IdOf(at[id].token) == id;
      if at[id].token.AtExec? && at[id].token.exec.worker == w {
        MoveOkOwnCrash(s, w, at, id);
      }
    }
  }

  lemma MoveOkHGetAll(s: State, at: Places, id: TaskId)
    requires Wf(s) && Located(s, at) && SweepsMatch(s) && s.coord.Suspect?
    ensures MoveOk(s, HGetAll, at, id)
  {
    if id in at && at[id].Live? {
      var t := at[id].token;
      assert Holds(s, t) && IdOf(t) == id;
      if t.AtRecord? && t.worker == s.coord.worker {
        assert RecordAt(s, (t.worker, id)) == t;
        assert s.redis.inflight[(t.worker, id)] in R.Hash(s.redis, t.worker);
      }
    }
  }

  lemma MoveOkPromote(s: State, at: Places, id: TaskId)
    requires Wf(s) && Located(s, at) && Enabled(s, PromoteExec)
    ensures MoveOk(s, PromoteExec, at, id)
  {
    if id in at && at[id].Live? {
      var t := at[id].token;
      assert Holds(s, t) && IdOf(t) == id;
      if t.AtDelayed? && t.env in s.coord.batch {
        assert t.env.(enqueuedAt := s.coord.asOf) in R.Restamp(s.coord.batch, s.coord.asOf);
      }
    }
  }

  lemma MoveOkCoordCrash(s: State, at: Places, id: TaskId)
    requires Wf(s) && Located(s, at) && SweepsMatch(s)
    ensures MoveOk(s, CoordCrash, at, id)
  {
    if id in at && at[id].Live? {
      var t := at[id].token;
      assert Holds(s, t) && IdOf(t) == id;
      if s.coord.Snapshot? && t.AtSweep? {
        var k :| k in s.redis.inflight && k.0 == s.coord.worker && s.redis.inflight[k] == t.env;
        assert k == (s.coord.worker, id);
      }
    }
  }

  lemma MoveIsOk(s: State, st: Step, at: Places, id: TaskId)
    requires Inv(s, at) && Enabled(s, st)
    ensures MoveOk(s, st, at, id)
  {
    InvSites(s, st, at);
    if ByExec(st) {
      MoveOkByExec(s, st, at, id);
    } else if st.Crash? {
      MoveOkCrash(s, st.worker, at, id);
    } else if st.HGetAll? {
      MoveOkHGetAll(s, at, id);
    } else if st.PromoteExec? {
      MoveOkPromote(s, at, id);
    } else if st.CoordCrash? {
      MoveOkCoordCrash(s, at, id);
    } else {
      MoveOkOther(s, st, at, id);
    }
  }

  /** A step files every copy it puts somewhere under its task. */
  lemma AddedIsPlaced(s: State, st: Step, at: Places, t: Token)
    requires Enabled(s, st) && !MovesMany(st) && Sited(s, st, at)
    requires t in Added(s, st) && IsCopy(t)
    ensures IdOf(t) in Move(s, st, at) && Move(s, st, at)[IdOf(t)] == Live(t)
  {
  }

  lemma PromotedIsPlaced(s: State, at: Places, t: Token)
    requires Located(s, at) && Enabled(s, PromoteExec) && t in Added(s, PromoteExec)
    requires s.coord.batch <= s.redis.delayed.Keys
    ensures IdOf(t) in Move(s, PromoteExec, at) && Move(s, PromoteExec, at)[IdOf(t)] == Live(t)
  {
    var e :| e in s.coord.batch && e.(enqueuedAt := s.coord.asOf) == t.env;
    assert Holds(s, AtDelayed(e));
  }

  lemma SnapshotIsPlaced(s: State, at: Places, t: Token)
    requires Wf(s) && Located(s, at) && SweepsMatch(s) && Enabled(s, HGetAll) && t in Added(s, HGetAll) && IsCopy(t)
    ensures IdOf(t) in Move(s, HGetAll, at) && Move(s, HGetAll, at)[IdOf(t)] == Live(t)
  {
    var r :| r in RecordsOf(s, s.coord.worker) && AtSweep(r.env) == t;
    assert Holds(s, r) && IsCopy(r);
  }

  lemma ReturnedIsPlaced(s: State, at: Places, t: Token)
    requires Wf(s) && Located(s, at) && SweepsMatch(s) && t in Added(s, CoordCrash) && IsCopy(t)
    ensures IdOf(t) in Move(s, CoordCrash, at) && Move(s, CoordCrash, at)[IdOf(t)] == Live(t)
  {
    assert Holds(s, AtSweep(t.env));
  }

  lemma OrphanIsPlaced(s: State, st: Step, at: Places, t: Token)
    requires Wf(s) && Located(s, at) && HashesMatch(s, at) && SweepsMatch(s)
    requires Enabled(s, st) && (st.Crash? || st.CoordCrash?) && t in Added(s, st) && IsCopy(t)
    ensures IdOf(t) in Move(s, st, at) && Move(s, st, at)[IdOf(t)] == Live(t)
  {
    if st.CoordCrash? {
      ReturnedIsPlaced(s, at, t);
    }
  }

  lemma AddedManyIsPlaced(s: State, st: Step, at: Places, t: Token)
    requires Wf(s) && Located(s, at) && HashesMatch(s, at) && SweepsMatch(s)
    requires Enabled(s, st) && MovesMany(st) && t in Added(s, st) && IsCopy(t)
    ensures IdOf(t) in Move(s, st, at) && Move(s, st, at)[IdOf(t)] == Live(t)
  {
    if st.PromoteExec? {
      PromotedIsPlaced(s, at, t);
    } else if st.HGetAll? {
      SnapshotIsPlaced(s, at, t);
    } else {
      OrphanIsPlaced(s, st, at, t);
    }
  }

  lemma PlacedIsHeld(s: State, st: Step, at: Places)
    requires Inv(s, at) && Enabled(s, st)
    ensures var to := Move(s, st, at);
            forall id | id in to && to[id].Live? ::
              Holds(Apply(s, st), to[id].token) && IsCopy(to[id].token) && IdOf(to[id].token) == id
  {
    var to := Move(s, st, at);
    forall id | id in to && to[id].Live?
      ensures Holds(Apply(s, st), to[id].token) && IsCopy(to[id].token) && IdOf(to[id].token) == id
    {
      MoveIsOk(s, st, at, id);
      if id in at && to[id] == at[id] {
        Kept(s, st, at[id].token);
      }
    }
  }

  lemma HeldIsPlaced(s: State, st: Step, at: Places, t: Token)
    requires Inv(s, at) && Enabled(s, st) && Holds(Apply(s, st), t) && IsCopy(t)
    ensures IdOf(t) in Move(s, st, at) && Move(s, st, at)[IdOf(t)] == Live(t)
  {
    HeldBefore(s, st, t);
    if t in Added(s, st) {
      if MovesMany(st) {
        AddedManyIsPlaced(s, st, at, t);
      } else {
        InvSites(s, st, at);
        AddedIsPlaced(s, st, at, t);
      }
    } else {
      MoveIsOk(s, st, at, IdOf(t));
    }
  }

  lemma HeldBefore(s: State, st: Step, t: Token)
    requires Wf(s) && Enabled(s, st) && Holds(Apply(s, st), t)
    ensures t in Added(s, st) || (Holds(s, t) && t !in Removed(s, st))
  {
    TokensStep(s, st);
    WfStep(s, st);
    TokenIff(Apply(s, st), t);
    TokenIff(s, t);
  }

  lemma MoveKeysByExec(s: State, st: Step, at: Places)
    requires at.Keys == s.db.rows.Keys && Enabled(s, st) && ByExec(st) && Sited(s, st, at)
    ensures Move(s, st, at).Keys == Apply(s, st).db.rows.Keys
  {
    assert Apply(s, st).db.rows.Keys == s.db.rows.Keys;
  }

  lemma MoveKeys(s: State, st: Step, at: Places)
    requires at.Keys == s.db.rows.Keys && Enabled(s, st) && Sited(s, st, at)
    ensures Move(s, st, at).Keys == Apply(s, st).db.rows.Keys
  {
    if ByExec(st) {
      MoveKeysByExec(s, st, at);
    }
  }

  lemma LocatedStep(s: State, st: Step, at: Places)
    requires Inv(s, at) && Enabled(s, st)
    ensures Located(Apply(s, st), Move(s, st, at))
  {
    InvSites(s, st, at);
    MoveKeys(s, st, at);
    PlacedIsHeld(s, st, at);
    forall t | Holds(Apply(s, st), t) && IsCopy(t)
      ensures IdOf(t) in Move(s, st, at) && Move(s, st, at)[IdOf(t)] == Live(t)
    {
      HeldIsPlaced(s, st, at, t);
    }
  }

  // ---- Hashes, marks and sweeps ----

  lemma MoveByExecFrame(s: State, st: Step, at: Places, other: TaskId)
    requires Enabled(s, st) && ByExec(st) && other in at && other != s.execs[st.pid].env.id
    ensures other in Move(s, st, at) && Move(s, st, at)[other] == at[other]
  {}

  /** The hash entry of the goroutine's own task survives only MarkRunning, and MarkRetry
      if another goroutine of the worker runs the task by then. */
  lemma OwnRecordByExec(s: State, st: Step, at: Places, k: (WorkerId, TaskId))
    requires Enabled(s, st) && ByExec(st) && Sited(s, st, at)
    requires k.1 == s.execs[st.pid].env.id && k.1 in at && k in Apply(s, st).redis.inflight && k in s.redis.inflight
    requires IsRunningAt(at[k.1], k.0, s.redis.inflight[k])
    ensures st.MarkRunning? || st.MarkRetry?
  {}

  lemma OwnRecordStep(s: State, st: Step, at: Places, k: (WorkerId, TaskId))
    requires Enabled(s, st) && (st.MarkRunning? || st.MarkRetry?) && Sited(s, st, at) && k.1 == s.execs[st.pid].env.id
    requires k in s.redis.inflight && k.1 in at && IsRunningAt(at[k.1], k.0, s.redis.inflight[k])
    ensures k.1 in Move(s, st, at) && IsRunningAt(Move(s, st, at)[k.1], k.0, s.redis.inflight[k])
  {}

  lemma RecordWas(s: State, st: Step, at: Places, k: (WorkerId, TaskId))
    requires HashesMatch(s, at) && Enabled(s, st) && ByExec(st)
    requires k in Apply(s, st).redis.inflight && k.0 in Apply(s, st).procs
    ensures k in s.redis.inflight && k.1 in at && IsRunningAt(at[k.1], k.0, s.redis.inflight[k])
    ensures Apply(s, st).redis.inflight[k] == s.redis.inflight[k]
  {
    ByExecKeepsRecords(s, st);
  }

  lemma RecordStepByExec(s: State, st: Step, at: Places, k: (WorkerId, TaskId))
    requires HashesMatch(s, at) && Enabled(s, st) && ByExec(st) && Sited(s, st, at)
    requires k in Apply(s, st).redis.inflight && k.0 in Apply(s, st).procs
    ensures k.1 in Move(s, st, at) && IsRunningAt(Move(s, st, at)[k.1], k.0, Apply(s, st).redis.inflight[k])
  {
    RecordWas(s, st, at, k);
    if k.1 == s.execs[st.pid].env.id {
      OwnRecordByExec(s, st, at, k);
      OwnRecordStep(s, st, at, k);
    } else {
      MoveByExecFrame(s, st, at, k.1);
    }
  }

  lemma ByExecKeepsRecords(s: State, st: Step)
    requires Enabled(s, st) && ByExec(st)
    ensures forall k | k in Apply(s, st).redis.inflight ::
              k in s.redis.inflight && Apply(s, st).redis.inflight[k] == s.redis.inflight[k]
    ensures Apply(s, st).procs.Keys == s.procs.Keys
  {}

  lemma RecordStepMany(s: State, st: Step, at: Places, k: (WorkerId, TaskId))
    requires Wf(s) && HashesMatch(s, at) && SweepsMatch(s) && Enabled(s, st) && MovesMany(st)
    requires k in Apply(s, st).redis.inflight && k.0 in Apply(s, st).procs
    ensures k.1 in Move(s, st, at) && IsRunningAt(Move(s, st, at)[k.1], k.0, Apply(s, st).redis.inflight[k])
  {
    assert k in s.redis.inflight && k.0 in s.procs && IsRunningAt(at[k.1], k.0, s.redis.inflight[k]);
    if st.Crash? {
      RecordStepCrash(s, st.worker, at, k);
    }
  }

  lemma RecordStepCrash(s: State, w: WorkerId, at: Places, k: (WorkerId, TaskId))
    requires w in s.procs && k in s.redis.inflight && k.0 != w && k.1 in at && IsRunningAt(at[k.1], k.0, s.redis.inflight[k])
    ensures k.1 in Move(s, Crash(w), at) && IsRunningAt(Move(s, Crash(w), at)[k.1], k.0, Apply(s, Crash(w)).redis.inflight[k])
  {}

  lemma RecordStepLease(s: State, st: Step, at: Places, k: (WorkerId, TaskId))
    requires HashesMatch(s, at) && Enabled(s, st) && st.LeaseHit? && Sited(s, st, at)
    requires k in Apply(s, st).redis.inflight && k.0 in Apply(s, st).procs
    ensures k.1 in Move(s, st, at) && IsRunningAt(Move(s, st, at)[k.1], k.0, Apply(s, st).redis.inflight[k])
  {
    if k != (st.worker, st.env.id) {
      assert IsRunningAt(at[k.1], k.0, s.redis.inflight[k]);
    }
  }

  lemma RecordStepOther(s: State, st: Step, at: Places, k: (WorkerId, TaskId))
    requires Wf(s) && HashesMatch(s, at) && SweepsMatch(s) && Enabled(s, st) && !ByExec(st) && !MovesMany(st) && Sited(s, st, at)
    requires k in Apply(s, st).redis.inflight && k.0 in Apply(s, st).procs
    ensures k.1 in Move(s, st, at) && IsRunningAt(Move(s, st, at)[k.1], k.0, Apply(s, st).redis.inflight[k])
  {
    if st.LeaseHit? {
      RecordStepLease(s, st, at, k);
    } else if k in s.redis.inflight && k.0 in s.procs {
      assert IsRunningAt(at[k.1], k.0, s.redis.inflight[k]);
    }
  }

  /** Two running goroutines of one worker never share a task. */
  lemma RunningApart(s: State, at: Places, p: Pid, p2: Pid)
    requires Located(s, at) && p in s.execs && p2 in s.execs && p != p2
    requires IsCopy(AtExec(p, s.execs[p])) && IsCopy(AtExec(p2, s.execs[p2]))
    ensures s.execs[p].env.id != s.execs[p2].env.id
  {
    assert Holds(s, AtExec(p, s.execs[p]));
    assert Holds(s, AtExec(p2, s.execs[p2]));
  }

  lemma RunningRecordByExec(s: State, st: Step, at: Places, p: Pid)
    requires Located(s, at) && HashesMatch(s, at) && Enabled(s, st) && ByExec(st)
    requires p in Apply(s, st).execs
    requires Apply(s, st).execs[p].phase.Leased? || Apply(s, st).execs[p].phase.Started?
    ensures (Apply(s, st).execs[p].worker, Apply(s, st).execs[p].env.id) in Apply(s, st).redis.inflight
  {
    if st.pid != p && (st.Reject? || st.Ack? || st.Nack?) {
      RunningApart(s, at, p, st.pid);
    }
  }

  lemma RunningRecordOther(s: State, st: Step, at: Places, p: Pid)
    requires Wf(s) && HashesMatch(s, at) && SweepsMatch(s) && Enabled(s, st) && !ByExec(st)
    requires p in Apply(s, st).execs
    requires Apply(s, st).execs[p].phase.Leased? || Apply(s, st).execs[p].phase.Started?
    ensures (Apply(s, st).execs[p].worker, Apply(s, st).execs[p].env.id) in Apply(s, st).redis.inflight
  {}

  lemma HashesStep(s: State, st: Step, at: Places)
    requires Inv(s, at) && Enabled(s, st)
    ensures HashesMatch(Apply(s, st), Move(s, st, at))
  {
    var s' := Apply(s, st);
    InvSites(s, st, at);
    forall k | k in s'.redis.inflight && k.0 in s'.procs
      ensures k.1 in Move(s, st, at) && IsRunningAt(Move(s, st, at)[k.1], k.0, s'.redis.inflight[k])
    {
      if ByExec(st) {
        RecordStepByExec(s, st, at, k);
      } else if MovesMany(st) {
        RecordStepMany(s, st, at, k);
      } else {
        RecordStepOther(s, st, at, k);
      }
    }
    forall p | p in s'.execs && (s'.execs[p].phase.Leased? || s'.execs[p].phase.Started?)
      ensures (s'.execs[p].worker, s'.execs[p].env.id) in s'.redis.inflight
    {
      if ByExec(st) {
        RunningRecordByExec(s, st, at, p);
      } else {
        RunningRecordOther(s, st, at, p);
      }
    }
  }

  lemma MarkedStepByExec(s: State, st: Step, at: Places)
    requires MarksMatch(s, at) && Enabled(s, st) && ByExec(st) && Sited(s, st, at)
    ensures Marked(Apply(s, st), Move(s, st, at))
  {
    var id := s.execs[st.pid].env.id;
    assert forall p | p in Apply(s, st).execs && p != st.pid :: p in s.execs && Apply(s, st).execs[p] == s.execs[p];
    assert forall other | other in at && other != id :: other in Move(s, st, at) && Move(s, st, at)[other] == at[other];
  }

  lemma MarksRealStepByExec(s: State, st: Step, at: Places)
    requires MarksMatch(s, at) && Enabled(s, st) && ByExec(st) && Sited(s, st, at)
    ensures MarksReal(Apply(s, st), Move(s, st, at))
  {}

  lemma MarkedStepMany(s: State, st: Step, at: Places)
    requires MarksMatch(s, at) && Enabled(s, st) && MovesMany(st)
    ensures Marked(Apply(s, st), Move(s, st, at))
  {}

  lemma MarksRealStepMany(s: State, st: Step, at: Places)
    requires MarksMatch(s, at) && Enabled(s, st) && MovesMany(st)
    ensures MarksReal(Apply(s, st), Move(s, st, at))
  {}

  lemma MarkedStepOther(s: State, st: Step, at: Places)
    requires MarksMatch(s, at) && Enabled(s, st) && !ByExec(st) && !MovesMany(st) && Sited(s, st, at)
    ensures Marked(Apply(s, st), Move(s, st, at))
  {}

  lemma MarksRealStepOther(s: State, st: Step, at: Places)
    requires MarksMatch(s, at) && Enabled(s, st) && !ByExec(st) && !MovesMany(st) && Sited(s, st, at)
    ensures MarksReal(Apply(s, st), Move(s, st, at))
  {}

  lemma MarksStep(s: State, st: Step, at: Places)
    requires Inv(s, at) && Enabled(s, st)
    ensures MarksMatch(Apply(s, st), Move(s, st, at))
  {
    InvSites(s, st, at);
    if ByExec(st) {
      MarkedStepByExec(s, st, at);
      MarksRealStepByExec(s, st, at);
    } else if MovesMany(st) {
      MarkedStepMany(s, st, at);
      MarksRealStepMany(s, st, at);
    } else {
      MarkedStepOther(s, st, at);
      MarksRealStepOther(s, st, at);
    }
  }

  lemma LiveRowsStep(s: State, st: Step)
    requires Wf(s) && SweepsMatch(s) && Enabled(s, st)
    ensures forall w | w in Apply(s, st).procs :: w in Apply(s, st).db.workers && Apply(s, st).db.workers[w] != P.Gone
  {}

  lemma LiveBeatsStep(s: State, st: Step)
    requires Wf(s) && SweepsMatch(s) && Enabled(s, st) && HeartbeatsHold(s, st)
    ensures forall w | w in Apply(s, st).procs :: R.IsAlive(Apply(s, st).redis, w, Apply(s, st).now)
  {}

  lemma GoneWorkersStep(s: State, st: Step)
    requires Wf(s) && SweepsMatch(s) && Enabled(s, st)
    ensures forall w | w in Apply(s, st).db.workers && Apply(s, st).db.workers[w] == P.Gone :: HashEmpty(Apply(s, st), w)
  {}

  lemma HandledIsGoneStep(s: State, st: Step)
    requires Wf(s) && SweepsMatch(s) && Enabled(s, st)
    ensures Handles(Apply(s, st).coord) ==> Apply(s, st).coord.worker !in Apply(s, st).procs
  {}

  lemma SnapshotStep(s: State, st: Step)
    requires Wf(s) && SweepsMatch(s) && Enabled(s, st)
    ensures Apply(s, st).coord.Snapshot? ==> Apply(s, st).coord.envs == R.Hash(Apply(s, st).redis, Apply(s, st).coord.worker)
  {
    var s' := Apply(s, st);
    if s'.coord.Snapshot? && s.coord.Snapshot? {
      assert R.Hash(s'.redis, s.coord.worker) == R.Hash(s.redis, s.coord.worker);
    }
  }

  lemma DrainedStep(s: State, st: Step)
    requires Wf(s) && SweepsMatch(s) && Enabled(s, st)
    ensures PastDel(Apply(s, st).coord) ==> HashEmpty(Apply(s, st), Apply(s, st).coord.worker)
  {
    if st.HGetAll? && PastDel(Apply(s, st).coord) {
      assert forall k | k in s.redis.inflight && k.0 == s.coord.worker :: s.redis.inflight[k] in R.Hash(s.redis, s.coord.worker);
    }
  }

  lemma BatchStep(s: State, st: Step)
    requires SweepsMatch(s) && Enabled(s, st)
    requires forall p | p in s.execs && s.execs[p].phase.Nacked? :: s.execs[p].env !in s.redis.delayed
    ensures var s' := Apply(s, st);
            s'.coord.Promoting? ==>
              s'.coord.asOf <= s'.now
              && forall e | e in s'.coord.batch :: e in s'.redis.delayed && s'.redis.delayed[e] <= s'.coord.asOf
  {}

  lemma SweepsStep(s: State, st: Step)
    requires Wf(s) && SweepsMatch(s) && Enabled(s, st) && HeartbeatsHold(s, st)
    requires forall p | p in s.execs && s.execs[p].phase.Nacked? :: s.execs[p].env !in s.redis.delayed
    ensures SweepsMatch(Apply(s, st))
  {
    LiveRowsStep(s, st);
    LiveBeatsStep(s, st);
    GoneWorkersStep(s, st);
    HandledIsGoneStep(s, st);
    SnapshotStep(s, st);
    DrainedStep(s, st);
    BatchStep(s, st);
  }

  // ---- Rows ----

  /** The live place of a task has attempts in order. */
  ghost predicate PlaceOk(here: Place, max: nat) {
    here.Live? ==> AttemptsOk(here.token) && EnvOf(here.token).maxAttempts == max
  }

  lemma PlacesOk(s: State, at: Places, id: TaskId)
    requires Inv(s, at) && id in at
    ensures id in s.db.rows && PlaceOk(at[id], s.db.rows[id].maxAttempts)
  {
    if at[id].Live? {
      TokenIff(s, at[id].token);
      assert TokenOk(s.db.rows, at[id].token);
    }
  }

  /** The calls to Postgres. */
  predicate WritesRow(st: Step) { st.MarkRunning? || st.MarkSucceeded? || st.MarkRetry? || st.MarkDead? }

  lemma RowStepByWrite(s: State, st: Step, at: Places, id: TaskId)
    requires at.Keys == s.db.rows.Keys && Enabled(s, st) && WritesRow(st) && Sited(s, st, at)
    requires id in s.db.rows && RowOk(s.db.rows[id], at[id]) && PlaceOk(at[id], s.db.rows[id].maxAttempts)
    ensures id in Apply(s, st).db.rows && id in Move(s, st, at) && RowOk(Apply(s, st).db.rows[id], Move(s, st, at)[id])
  {}

  lemma RowStepByExec(s: State, st: Step, at: Places, id: TaskId)
    requires at.Keys == s.db.rows.Keys && Enabled(s, st) && ByExec(st) && Sited(s, st, at)
    requires id in s.db.rows && RowOk(s.db.rows[id], at[id]) && PlaceOk(at[id], s.db.rows[id].maxAttempts)
    ensures id in Apply(s, st).db.rows && id in Move(s, st, at) && RowOk(Apply(s, st).db.rows[id], Move(s, st, at)[id])
  {
    if WritesRow(st) {
      RowStepByWrite(s, st, at, id);
    }
  }

  lemma RowStepMany(s: State, st: Step, at: Places, id: TaskId)
    requires at.Keys == s.db.rows.Keys && Enabled(s, st) && MovesMany(st)
    requires id in s.db.rows && RowOk(s.db.rows[id], at[id]) && PlaceOk(at[id], s.db.rows[id].maxAttempts)
    ensures id in Apply(s, st).db.rows && id in Move(s, st, at) && RowOk(Apply(s, st).db.rows[id], Move(s, st, at)[id])
  {}

  lemma RowStepByApi(s: State, st: Step, at: Places, id: TaskId)
    requires at.Keys == s.db.rows.Keys && Enabled(s, st) && (st.CreateRow? || st.RedriveRow?) && Sited(s, st, at)
    requires id in Apply(s, st).db.rows
    requires id in s.db.rows ==> RowOk(s.db.rows[id], at[id]) && PlaceOk(at[id], s.db.rows[id].maxAttempts)
    ensures id in Move(s, st, at) && RowOk(Apply(s, st).db.rows[id], Move(s, st, at)[id])
  {}

  lemma RowStepOther(s: State, st: Step, at: Places, id: TaskId)
    requires at.Keys == s.db.rows.Keys && Enabled(s, st) && !ByExec(st) && !MovesMany(st) && Sited(s, st, at)
    requires id in Apply(s, st).db.rows
    requires id in s.db.rows ==> RowOk(s.db.rows[id], at[id]) && PlaceOk(at[id], s.db.rows[id].maxAttempts)
    ensures id in Move(s, st, at) && RowOk(Apply(s, st).db.rows[id], Move(s, st, at)[id])
  {
    if st.CreateRow? || st.RedriveRow? {
      RowStepByApi(s, st, at, id);
    }
  }

  lemma RowsStep(s: State, st: Step, at: Places)
    requires Inv(s, at) && Enabled(s, st)
    ensures RowsMatch(Apply(s, st), Move(s, st, at))
  {
    InvSites(s, st, at);
    forall id | id in Apply(s, st).db.rows
      ensures id in Move(s, st, at) && RowOk(Apply(s, st).db.rows[id], Move(s, st, at)[id])
    {
      RowsPersist(s, st);
      if id in at {
        PlacesOk(s, at, id);
      }
      if ByExec(st) {
        RowStepByExec(s, st, at, id);
      } else if MovesMany(st) {
        RowStepMany(s, st, at, id);
      } else {
        RowStepOther(s, st, at, id);
      }
    }
  }

  // ---- Every fail-stop run ----

  lemma NackedIsNotDelayed(s: State, at: Places, p: Pid)
    requires Located(s, at) && p in s.execs && s.execs[p].phase.Nacked?
    ensures s.execs[p].env !in s.redis.delayed
  {
    assert Holds(s, AtExec(p, s.execs[p]));
    assert !Holds(s, AtDelayed(s.execs[p].env));
  }

  lemma InvStep(s: State, st: Step, at: Places)
    requires Inv(s, at) && Enabled(s, st) && HeartbeatsHold(s, st)
    ensures Inv(Apply(s, st), Move(s, st, at))
  {
    forall p | p in s.execs && s.execs[p].phase.Nacked?
      ensures s.execs[p].env !in s.redis.delayed
    {
      NackedIsNotDelayed(s, at, p);
    }
    SoundStep(s, st);
    LocatedStep(s, st, at);
    HashesStep(s, st, at);
    MarksStep(s, st, at);
    SweepsStep(s, st);
    RowsStep(s, st, at);
  }

  /** In every fail-stop run the bookkeeping of `Locate` is the truth. */
  lemma {:induction false} AlwaysInv(r: Run)
    requires Valid(r) && FailStop(r)
    ensures Inv(End(r), Locate(r))
  {
    if r.Start? {
      AlwaysSound(r);
    } else {
      AlwaysInv(r.prev);
      InvStep(End(r.prev), r.step, Locate(r.prev));
    }
  }
}
