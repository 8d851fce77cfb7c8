/** What the fail-stop invariant means for tasks, rows and dead letters. */
module Guarantees {
  import opened Types
  import opened Protocol
  import opened Tokens
  import opened Envelopes
  import opened Copies
  import opened Losses
  import opened Locations
  import opened Books
  import R = Redis
  import P = Postgres

  // ---- One copy, located ----

  lemma CopiesAtPlace(s: State, at: Places, id: TaskId)
    requires Inv(s, at)
    ensures CopiesOf(s, id) == if id in at && at[id].Live? then {at[id].token} else {}
  {
    forall t | t in CopiesOf(s, id)
      ensures id in at && at[id] == Live(t)
    {
      TokenIff(s, t);
    }
    if id in at && at[id].Live? {
      TokenIff(s, at[id].token);
    }
  }

  /** No loss: a task has exactly one copy unless it is done, in the DLQ or lost, and then it has none. */
  lemma ExactlyOneCopy(r: Run, id: TaskId)
    requires Valid(r) && FailStop(r) && id in End(r).db.rows
    ensures id in Locate(r)
    ensures |CopiesOf(End(r), id)| == if Locate(r)[id].Live? then 1 else 0
    ensures Locate(r)[id].Live? ==> Locate(r)[id].token in CopiesOf(End(r), id)
    ensures Locate(r)[id].InDlq? ==> exists x :: x in End(r).redis.dlq && x.env.id == id
  {
    AlwaysInv(r);
    CopiesAtPlace(End(r), Locate(r), id);
    if Locate(r)[id].InDlq? {
      Ledger(r, id);
      CountedIsThere(End(r).redis.dlq, id);
    }
  }

  /** The crashes that lose a task: each kills a process between the two calls of its window. */
  ghost predicate CrashInWindow(s: State, st: Step, id: TaskId, w: Window)
    requires Enabled(s, st)
  {
    match w
    case ApiWindow => st.ApiCrash? && s.apis[st.req].id == id
    case NackWindow =>
      st.Crash? && exists p :: p in s.execs && InHand(s.execs[p], st.worker, id)
                               && (s.execs[p].phase.Nacked? || s.execs[p].phase.Rejected?)
    case AckWindow => st.Crash? && exists p :: p in s.execs && InHand(s.execs[p], st.worker, id) && s.execs[p].phase.Acked?
    case SweepWindow => st.CoordCrash? && !s.coord.Snapshot? && exists e :: e in Reclaimed(s.coord) && e.id == id
  }

  predicate InHand(x: Exec, w: WorkerId, id: TaskId) { x.worker == w && x.env.id == id }

  /** The steps that end the life of a copy as intended. */
  predicate Delivers(s: State, st: Step, id: TaskId)
    requires Enabled(s, st)
  {
    || ((st.MarkSucceeded? || st.DeadLetter?) && s.execs[st.pid].env.id == id)
    || (st.SweepDead? && st.env.id == id)
  }

  /** The same crash, told by the place of the task. */
  predicate CrashAtPlace(s: State, st: Step, here: Place, w: Window) {
    && here.Live?
    && match w
       case ApiWindow => st.ApiCrash? && here.token.AtApi? && here.token.req == st.req
       case NackWindow => st.Crash? && here.token.AtExec? && here.token.exec.worker == st.worker
                          && (here.token.exec.phase.Nacked? || here.token.exec.phase.Rejected?)
       case AckWindow => st.Crash? && here.token.AtExec? && here.token.exec.worker == st.worker && here.token.exec.phase.Acked?
       case SweepWindow => st.CoordCrash? && here.token.AtSweep? && !s.coord.Snapshot?
  }

  lemma HandTold(s: State, p: Pid, at: Places, id: TaskId)
    requires Located(s, at) && p in s.execs && IsCopy(AtExec(p, s.execs[p])) && s.execs[p].env.id == id
    ensures id in at && at[id] == Live(AtExec(p, s.execs[p]))
  {
    assert Holds(s, AtExec(p, s.execs[p]));
  }

  /** The place is where the task is. */
  lemma WorkerCrashTold(s: State, v: WorkerId, at: Places, id: TaskId, w: Window)
    requires Located(s, at) && v in s.procs && id in at && (w.NackWindow? || w.AckWindow?)
    ensures CrashInWindow(s, Crash(v), id, w) <==> CrashAtPlace(s, Crash(v), at[id], w)
  {
    if at[id].Live? && at[id].token.AtExec? {
      assert Holds(s, at[id].token) && IdOf(at[id].token) == id;
      var p := at[id].token.pid;
      assert p in s.execs && (InHand(s.execs[p], v, id) <==> at[id].token.exec.worker == v);
    }
    if w.NackWindow? {
      if p :| p in s.execs && InHand(s.execs[p], v, id) && (s.execs[p].phase.Nacked? || s.execs[p].phase.Rejected?) {
        HandTold(s, p, at, id);
      }
    } else {
      if p :| p in s.execs && InHand(s.execs[p], v, id) && s.execs[p].phase.Acked? {
        HandTold(s, p, at, id);
      }
    }
  }

  lemma OtherCrashTold(s: State, st: Step, at: Places, id: TaskId, w: Window)
    requires Located(s, at) && Enabled(s, st) && id in at && (st.ApiCrash? || st.CoordCrash?)
    ensures CrashInWindow(s, st, id, w) <==> CrashAtPlace(s, st, at[id], w)
  {
    if at[id].Live? {
      assert Holds(s, at[id].token) && IdOf(at[id].token) == id;
    }
    if st.ApiCrash? {
      assert Holds(s, AtApi(st.req, s.apis[st.req]));
    } else if e :| e in Reclaimed(s.coord) && e.id == id {
      assert Holds(s, AtSweep(e));
    }
  }

  lemma CrashTold(s: State, st: Step, at: Places, id: TaskId, w: Window)
    requires Located(s, at) && Enabled(s, st) && id in at
    ensures CrashInWindow(s, st, id, w) <==> CrashAtPlace(s, st, at[id], w)
  {
    if st.ApiCrash? || st.CoordCrash? {
      OtherCrashTold(s, st, at, id, w);
    } else if st.Crash? && (w.NackWindow? || w.AckWindow?) {
      WorkerCrashTold(s, st.worker, at, id, w);
    }
  }

  ghost predicate CrashesInWindow(s: State, st: Step, id: TaskId)
    requires Enabled(s, st)
  {
    || CrashInWindow(s, st, id, ApiWindow) || CrashInWindow(s, st, id, NackWindow)
    || CrashInWindow(s, st, id, AckWindow) || CrashInWindow(s, st, id, SweepWindow)
  }

  /** A step takes the one copy exactly if it delivers it or crashes in a window. */
  ghost predicate TakenTold(s: State, st: Step, t: Token, id: TaskId)
    requires Enabled(s, st)
  {
    Takes(s, st, t) <==> Delivers(s, st, id) || CrashesInWindow(s, st, id)
  }

  lemma TakenByExec(s: State, st: Step, at: Places, id: TaskId)
    requires Enabled(s, st) && ByExec(st) && Sited(s, st, at) && id in at && at[id].Live? && IdOf(at[id].token) == id
    requires Holds(s, at[id].token)
    ensures TakenTold(s, st, at[id].token, id)
  {}

  /** A live worker's hash holds the records of its running goroutines and no others. */
  lemma InHashIfRunning(s: State, w: WorkerId, at: Places, id: TaskId)
    requires Located(s, at) && HashesMatch(s, at) && w in s.procs && id in at && at[id].Live?
    requires at[id].token.AtExec? && at[id].token.exec.worker == w
    ensures (w, id) in s.redis.inflight <==> at[id].token.exec.phase.Leased? || at[id].token.exec.phase.Started?
  {
    var p, x := at[id].token.pid, at[id].token.exec;
    assert Holds(s, at[id].token) && IdOf(at[id].token) == id;
    assert p in s.execs && s.execs[p] == x && x.env.id == id;
    if x.phase.Leased? || x.phase.Started? {
      assert (s.execs[p].worker, s.execs[p].env.id) in s.redis.inflight;
    } else {
      var k := (w, id);
      assert k in s.redis.inflight ==> IsRunningAt(at[k.1], k.0, s.redis.inflight[k]);
    }
  }

  lemma TakenByCrash(s: State, w: WorkerId, at: Places, id: TaskId)
    requires Located(s, at) && HashesMatch(s, at) && w in s.procs && id in at && at[id].Live?
    ensures TakenTold(s, Crash(w), at[id].token, id)
  {
    assert IsCopy(at[id].token) && IdOf(at[id].token) == id;
    CrashTold(s, Crash(w), at, id, NackWindow);
    CrashTold(s, Crash(w), at, id, AckWindow);
    if at[id].token.AtExec? && at[id].token.exec.worker == w {
      InHashIfRunning(s, w, at, id);
    }
  }

  lemma TakenAtOnce(s: State, st: Step, at: Places, id: TaskId)
    requires Located(s, at) && SweepsMatch(s) && Enabled(s, st) && (st.ApiCrash? || st.CoordCrash?)
    requires Wf(s) && id in at && at[id].Live?
    ensures TakenTold(s, st, at[id].token, id)
  {
    var t := at[id].token;
    assert Holds(s, t) && IdOf(t) == id;
    CrashTold(s, st, at, id, ApiWindow);
    CrashTold(s, st, at, id, SweepWindow);
    if s.coord.Snapshot? && t.AtSweep? {
      assert t.env in R.Hash(s.redis, s.coord.worker);
    }
  }

  lemma TakenByDel(s: State, at: Places, id: TaskId)
    requires Located(s, at) && SweepsMatch(s) && s.coord.Snapshot? && id in at && at[id].Live?
    ensures TakenTold(s, Del, at[id].token, id)
  {
    var t := at[id].token;
    assert Holds(s, t) && IdOf(t) == id;
    assert t.AtRecord? && t.worker == s.coord.worker ==> s.redis.inflight[(t.worker, id)] in R.Hash(s.redis, t.worker);
  }

  lemma TakenQuietly(s: State, st: Step, at: Places, id: TaskId)
    requires Enabled(s, st) && !ByExec(st) && !IsCrash(st) && !st.Del?
    requires Sited(s, st, at) && id in at && at[id].Live? && IdOf(at[id].token) == id && Holds(s, at[id].token)
    ensures TakenTold(s, st, at[id].token, id)
  {}

  lemma TakenIff(s: State, st: Step, at: Places, id: TaskId)
    requires Wf(s) && Located(s, at) && HashesMatch(s, at) && SweepsMatch(s)
    requires Enabled(s, st) && Sited(s, st, at) && id in at && at[id].Live?
    ensures TakenTold(s, st, at[id].token, id)
  {
    if ByExec(st) {
      TakenByExec(s, st, at, id);
    } else if st.Crash? {
      TakenByCrash(s, st.worker, at, id);
    } else if IsCrash(st) {
      TakenAtOnce(s, st, at, id);
    } else if st.Del? {
      TakenByDel(s, at, id);
    } else {
      TakenQuietly(s, st, at, id);
    }
  }

  lemma OnlyCopyTaken(r: Run, id: TaskId)
    requires Valid(r) && FailStop(r) && r.Then? && CopiesOf(End(r.prev), id) != {}
    ensures TakesAll(End(r.prev), r.step, id) <==> Delivers(End(r.prev), r.step, id) || CrashesInWindow(End(r.prev), r.step, id)
  {
    AlwaysInv(r.prev);
    OnlyCopyTakenAt(End(r.prev), r.step, Locate(r.prev), id);
  }

  lemma OnlyCopyTakenAt(s: State, st: Step, at: Places, id: TaskId)
    requires Inv(s, at) && Enabled(s, st) && CopiesOf(s, id) != {}
    ensures TakesAll(s, st, id) <==> Delivers(s, st, id) || CrashesInWindow(s, st, id)
  {
    InvSites(s, st, at);
    CopiesAtPlace(s, at, id);
    TakesOnly(s, st, id, at[id].token);
    TakenIff(s, st, at, id);
  }

  lemma TakesOnly(s: State, st: Step, id: TaskId, t: Token)
    requires Enabled(s, st) && CopiesOf(s, id) == {t}
    ensures TakesAll(s, st, id) <==> Takes(s, st, t)
  {}

  /** The last copy of a task goes exactly by delivery or by a crash in a named window.  Once no copy
      is left only a redrive makes one. */
  lemma LastCopyGoesIff(r: Run, id: TaskId)
    requires Valid(r) && FailStop(r) && r.Then? && id in End(r.prev).db.rows
    ensures CopiesOf(End(r.prev), id) != {} ==>
              (CopiesOf(End(r), id) == {} <==> Delivers(End(r.prev), r.step, id) || CrashesInWindow(End(r.prev), r.step, id))
    ensures CopiesOf(End(r.prev), id) == {} ==>
              (CopiesOf(End(r), id) != {} <==> IsRedrive(r.step, id))
  {
    LastCopiesGoIff(r, id);
    if CopiesOf(End(r.prev), id) != {} {
      OnlyCopyTaken(r, id);
    } else {
      assert !(r.step.CreateRow? && r.step.id == id);
    }
  }

  /** The place tells which window it was, and that a lost task stays lost. */
  lemma LostIffCrashInWindow(r: Run, id: TaskId, w: Window)
    requires Valid(r) && FailStop(r) && r.Then? && id in End(r.prev).db.rows
    ensures id in Locate(r.prev) && id in Locate(r)
    ensures !Locate(r.prev)[id].Lost? ==> (Locate(r)[id] == Lost(w) <==> CrashInWindow(End(r.prev), r.step, id, w))
    ensures Locate(r.prev)[id].Lost? ==> Locate(r)[id] == Locate(r.prev)[id]
    ensures Locate(r)[id].Lost? ==> CopiesOf(End(r), id) == {}
  {
    var s, st, at := End(r.prev), r.step, Locate(r.prev);
    AlwaysInv(r.prev);
    AlwaysInv(r);
    InvSites(s, st, at);
    ApiPlace(s, st, at, id);
    PlaceStep(s, st, at, id, w);
    CrashTold(s, st, at, id, w);
    CopiesAtPlace(End(r), Locate(r), id);
  }

  lemma ApiPlace(s: State, st: Step, at: Places, id: TaskId)
    requires Located(s, at) && Enabled(s, st) && id in at
    ensures st.ApiCrash? && at[id].Live? && at[id].token.AtApi? && at[id].token.req == st.req ==> s.apis[st.req].id == id
  {
    if at[id].Live? {
      assert Holds(s, at[id].token);
    }
  }

  predicate Settled(here: Place) { here.Lost? || here.Done? }

  lemma PlaceStepByExec(s: State, st: Step, at: Places, id: TaskId, w: Window)
    requires Enabled(s, st) && ByExec(st) && Sited(s, st, at) && id in at
    ensures id in Move(s, st, at)
    ensures Settled(at[id]) ==> Move(s, st, at)[id] == at[id]
    ensures !at[id].Lost? ==> Move(s, st, at)[id] != Lost(w)
  {}

  lemma PlaceStep(s: State, st: Step, at: Places, id: TaskId, w: Window)
    requires Enabled(s, st) && Sited(s, st, at) && id in at
    requires at[id].Live? ==> IsCopy(at[id].token)
    requires st.ApiCrash? && at[id].Live? && at[id].token.AtApi? && at[id].token.req == st.req ==> s.apis[st.req].id == id
    ensures id in Move(s, st, at)
    ensures Settled(at[id]) ==> Move(s, st, at)[id] == at[id]
    ensures !at[id].Lost? ==> (Move(s, st, at)[id] == Lost(w) <==> CrashAtPlace(s, st, at[id], w))
  {
    if ByExec(st) {
      PlaceStepByExec(s, st, at, id, w);
    }
  }

  /** A crash while the handler runs (or before it starts) leaves the task in the worker's hash. */
  lemma CrashKeepsRunningTask(r: Run, p: Pid)
    requires Valid(r) && FailStop(r) && p in End(r).execs
    requires End(r).execs[p].phase.Leased? || End(r).execs[p].phase.Started?
    ensures var x := End(r).execs[p];
            && x.worker in End(r).procs
            && Holds(Apply(End(r), Crash(x.worker)), AtRecord(x.worker, x.env, true))
  {
    AlwaysInv(r);
    RunningTaskHasRecord(End(r), Locate(r), p);
    CrashOrphansRecord(End(r), End(r).execs[p].worker, End(r).execs[p].env);
  }

  /** Fail-stop runs create none of the duplicates that `CopiesAreBounded` allows for. */
  lemma {:induction false} NoDuplicateSources(r: Run, id: TaskId)
    requires Valid(r) && FailStop(r)
    ensures LiveRedrives(r, id) == 0 && LiveReclaims(r, id) == 0
  {
    if r.Then? {
      NoDuplicateSources(r.prev, id);
      AlwaysInv(r.prev);
      var s, at := End(r.prev), Locate(r.prev);
      InvSites(s, r.step, at);
      CopiesAtPlace(s, at, id);
    }
  }

  lemma AtMostOneCopy(r: Run, id: TaskId)
    requires Valid(r) && FailStop(r)
    ensures |CopiesOf(End(r), id)| <= 1
  {
    NoDuplicateSources(r, id);
    CopiesAreBounded(r, id);
  }

  // ---- Refinement of a one-cell machine ----

  datatype Cell = Waiting(attempt: int) | Running(attempt: int) | Finished | InGrave | Gone

  function CellOf(here: Place): Cell {
    match here
    case Live(AtRecord(_, e, _)) => Cell.Running(e.attempts)
    case Live(AtSweep(e)) => Cell.Running(e.attempts)
    case Live(AtExec(_, x)) => Cell.Running(if x.phase.Nacked? then x.env.attempts - 1 else x.env.attempts)
    case Live(t) => Waiting(EnvOf(t).attempts)
    case Done => Finished
    case InDlq(_) => InGrave
    case Lost(_) => Gone
  }

  predicate IsCrash(st: Step) { st.Crash? || st.ApiCrash? || st.CoordCrash? }

  predicate NoHandler(s: State, st: Step) { st.DeadLetter? && InPhase(s, st.pid, Rejected) }

  /** The whole life of a task with `max` attempts. */
  predicate CellStep(c: Cell, c': Cell, max: int, crash: bool, noHandler: bool) {
    match c
    case Waiting(a) => c' == Cell.Running(a) || (c' == Gone && crash)
    case Running(a) =>
      || c' == Finished
      || (c' == Waiting(a + 1) && a + 1 < max)
      || (c' == InGrave && (a + 1 == max || noHandler))
      || (c' == Gone && crash)
    case InGrave => c' == Waiting(0)
    case Finished => false
    case Gone => false
  }

  lemma CellStepByExec(s: State, st: Step, at: Places, id: TaskId)
    requires Enabled(s, st) && ByExec(st) && Sited(s, st, at) && id in at
    requires id in s.db.rows && PlaceOk(at[id], s.db.rows[id].maxAttempts)
    ensures id in Move(s, st, at)
    ensures CellOf(Move(s, st, at)[id]) == CellOf(at[id])
         || CellStep(CellOf(at[id]), CellOf(Move(s, st, at)[id]), s.db.rows[id].maxAttempts, IsCrash(st), NoHandler(s, st))
  {}

  lemma CellStepOther(s: State, st: Step, at: Places, id: TaskId)
    requires Enabled(s, st) && !ByExec(st) && Sited(s, st, at) && id in at
    requires id in s.db.rows && PlaceOk(at[id], s.db.rows[id].maxAttempts)
    ensures id in Move(s, st, at)
    ensures CellOf(Move(s, st, at)[id]) == CellOf(at[id])
         || CellStep(CellOf(at[id]), CellOf(Move(s, st, at)[id]), s.db.rows[id].maxAttempts, IsCrash(st), NoHandler(s, st))
  {}

  /** Every step of the whole machine is, for each task, a step of its cell or no step at all. */
  lemma RefinesOneCell(r: Run, id: TaskId)
    requires Valid(r) && FailStop(r) && r.Then? && id in End(r).db.rows
    ensures id in Locate(r)
    ensures id !in End(r.prev).db.rows ==> CellOf(Locate(r)[id]) == Waiting(0)
    ensures id in End(r.prev).db.rows ==>
      && id in Locate(r.prev)
      && (CellOf(Locate(r)[id]) == CellOf(Locate(r.prev)[id])
          || CellStep(CellOf(Locate(r.prev)[id]), CellOf(Locate(r)[id]),
                      End(r).db.rows[id].maxAttempts, IsCrash(r.step), NoHandler(End(r.prev), r.step)))
  {
    var s, st, at := End(r.prev), r.step, Locate(r.prev);
    AlwaysInv(r.prev);
    InvSites(s, st, at);
    RowsPersist(s, st);
    if id in s.db.rows {
      PlacesOk(s, at, id);
      if ByExec(st) {
        CellStepByExec(s, st, at, id);
      } else {
        CellStepOther(s, st, at, id);
      }
    }
  }

  // ---- Terminal rows ----

  predicate LateRetry(s: State, st: Step, id: TaskId)
    requires Enabled(s, st)
  {
    st.MarkRetry? && s.execs[st.pid].env.id == id
  }

  lemma TerminalRowByExec(s: State, st: Step, at: Places, id: TaskId)
    requires Enabled(s, st) && ByExec(st) && Sited(s, st, at)
    requires id in s.db.rows && id in at && RowOk(s.db.rows[id], at[id])
    requires s.db.rows[id].status == Succeeded || s.db.rows[id].status == Dead
    ensures id in Apply(s, st).db.rows
    ensures Apply(s, st).db.rows[id] != s.db.rows[id] <==> LateRetry(s, st, id)
  {}

  lemma TerminalRowOther(s: State, st: Step, at: Places, id: TaskId)
    requires Enabled(s, st) && !ByExec(st) && Sited(s, st, at)
    requires id in s.db.rows && id in at && RowOk(s.db.rows[id], at[id])
    requires s.db.rows[id].status == Succeeded || s.db.rows[id].status == Dead
    ensures id in Apply(s, st).db.rows
    ensures Apply(s, st).db.rows[id] != s.db.rows[id] <==> IsRedrive(st, id)
    ensures IsRedrive(st, id) ==> s.db.rows[id].status == Dead
  {}

  /** A succeeded row changes exactly when a MarkRetry left over from an earlier attempt lands on it;
      a dead row changes exactly by that or by a redrive. */
  lemma TerminalRowChangesIff(r: Run, id: TaskId)
    requires Valid(r) && FailStop(r) && r.Then? && id in End(r.prev).db.rows
    requires End(r.prev).db.rows[id].status == Succeeded || End(r.prev).db.rows[id].status == Dead
    ensures id in End(r).db.rows
    ensures End(r).db.rows[id] != End(r.prev).db.rows[id]
        <==> LateRetry(End(r.prev), r.step, id) || IsRedrive(r.step, id)
    ensures End(r.prev).db.rows[id].status == Succeeded ==> !IsRedrive(r.step, id)
  {
    var s, st, at := End(r.prev), r.step, Locate(r.prev);
    AlwaysInv(r.prev);
    InvSites(s, st, at);
    assert id in at && RowOk(s.db.rows[id], at[id]);
    if ByExec(st) {
      TerminalRowByExec(s, st, at, id);
    } else {
      TerminalRowOther(s, st, at, id);
    }
  }

  /** Once a task is done, none of its handlers starts again, whatever happens to its row. */
  lemma DoneNeverRestarts(r: Run, id: TaskId)
    requires Valid(r) && FailStop(r) && r.Then? && id in Locate(r.prev) && Locate(r.prev)[id].Done?
    ensures id in Locate(r) && Locate(r)[id].Done?
    ensures Starts(r, id) == Starts(r.prev, id)
  {
    var s, st, at := End(r.prev), r.step, Locate(r.prev);
    AlwaysInv(r.prev);
    InvSites(s, st, at);
    ApiPlace(s, st, at, id);
    PlaceStep(s, st, at, id, ApiWindow);
  }

  /** A succeeded row belongs to a done task, and MarkSucceeded makes both. */
  lemma SucceededIsDone(r: Run, id: TaskId)
    requires Valid(r) && FailStop(r) && id in End(r).db.rows && End(r).db.rows[id].status == Succeeded
    ensures id in Locate(r) && Locate(r)[id].Done? && CopiesOf(End(r), id) == {}
  {
    AlwaysInv(r);
    assert RowOk(End(r).db.rows[id], Locate(r)[id]);
    CopiesAtPlace(End(r), Locate(r), id);
  }

  // ---- Attempts in the two stores ----

  /** Handler starts since the creation or the last redrive. */
  ghost function StartsThisLife(r: Run, id: TaskId): nat
    requires Valid(r)
  {
    if r.Start? then 0
    else if IsRedrive(r.step, id) then 0
    else StartsThisLife(r.prev, id)
         + if r.step.MarkRunning? && End(r.prev).execs[r.step.pid].env.id == id then 1 else 0
  }

  lemma AttemptsStep(s: State, st: Step, id: TaskId)
    requires Enabled(s, st) && id in s.db.rows
    ensures id in Apply(s, st).db.rows
    ensures Apply(s, st).db.rows[id].attempts
         == if IsRedrive(st, id) then 0
            else s.db.rows[id].attempts + if st.MarkRunning? && s.execs[st.pid].env.id == id then 1 else 0
  {}

  /** `tasks.attempts` counts the handler starts of the current life, in every run. */
  lemma {:induction false} RowAttemptsCountStarts(r: Run, id: TaskId)
    requires Valid(r)
    ensures StartsThisLife(r, id) == if id in End(r).db.rows then End(r).db.rows[id].attempts else 0
  {
    if r.Then? {
      RowAttemptsCountStarts(r.prev, id);
      var s, st := End(r.prev), r.step;
      RowsPersist(s, st);
      if id in s.db.rows {
        AttemptsStep(s, st, id);
      } else {
        AlwaysSound(r.prev);
        if st.MarkRunning? {
          TokenIff(s, AtExec(st.pid, s.execs[st.pid]));
          assert TokenOk(s.db.rows, AtExec(st.pid, s.execs[st.pid]));
        }
      }
    }
  }

  /** Fail-stop: the row never counts more starts than the envelope's attempts allow, nor than max_attempts. */
  lemma RowAttemptsBounded(r: Run, id: TaskId)
    requires Valid(r) && FailStop(r) && id in End(r).db.rows
    ensures id in Locate(r)
    ensures StartsThisLife(r, id) == End(r).db.rows[id].attempts
         <= StartsAllowed(Locate(r)[id], End(r).db.rows[id].maxAttempts) <= End(r).db.rows[id].maxAttempts
  {
    RowAttemptsCountStarts(r, id);
    AlwaysInv(r);
    assert RowOk(End(r).db.rows[id], Locate(r)[id]);
  }

  /** In every run, zombies included: a waiting or running envelope has an attempt left, and a dead
      letter has used all of them unless no handler was registered. */
  lemma EnvelopeAttempts(r: Run)
    requires Valid(r)
    ensures forall t | t in TokensOf(End(r)) && IsCopy(t) && !(t.AtExec? && t.exec.phase.Nacked?) ::
              EnvOf(t).attempts < EnvOf(t).maxAttempts
    ensures forall x | x in End(r).redis.dlq :: x.env.attempts == x.env.maxAttempts || x.reason == NO_HANDLER
  {
    AlwaysSound(r);
    forall t | t in TokensOf(End(r)) && IsCopy(t) && !(t.AtExec? && t.exec.phase.Nacked?)
      ensures EnvOf(t).attempts < EnvOf(t).maxAttempts
    {
      assert TokenOk(End(r).db.rows, t);
    }
  }

  // ---- Orphan reset ----

  predicate PastMarkRunning(x: Exec) { x.phase.Started? || x.phase.Acked? || x.phase.Nacked? }

  lemma RestartedIsNoOrphan(s: State, at: Places, p: Pid, w: WorkerId)
    requires Wf(s) && Located(s, at) && RowsMatch(s, at) && w !in s.procs
    requires p in s.execs && PastMarkRunning(s.execs[p]) && s.execs[p].env.id in s.db.rows
    ensures !P.IsOrphan(s.db.rows[s.execs[p].env.id], w)
  {
    assert Holds(s, AtExec(p, s.execs[p]));
    assert RowOk(s.db.rows[s.execs[p].env.id], at[s.execs[p].env.id]);
  }

  lemma OnlyOrphansChange(s: State, id: TaskId)
    requires Enabled(s, ResetOrphans) && id in s.db.rows
    ensures id in Apply(s, ResetOrphans).db.rows
    ensures Apply(s, ResetOrphans).db.rows[id] != s.db.rows[id] ==> P.IsOrphan(s.db.rows[id], s.coord.worker)
  {}

  /** Whatever ran between the coordinator's Enqueue and its RequeueOrphans: a row that another
      worker has restarted, or that has left `running`, is untouched. */
  lemma OrphanResetNeverSteals(r: Run, id: TaskId)
    requires Valid(r) && FailStop(r) && r.Then? && r.step.ResetOrphans? && id in End(r.prev).db.rows
    ensures id in End(r).db.rows
    ensures End(r).db.rows[id] != End(r.prev).db.rows[id] ==>
      && P.IsOrphan(End(r.prev).db.rows[id], End(r.prev).coord.worker)
      && End(r.prev).coord.worker !in End(r.prev).procs
      && forall p | p in End(r.prev).execs && End(r.prev).execs[p].env.id == id :: !PastMarkRunning(End(r.prev).execs[p])
  {
    var s, at := End(r.prev), Locate(r.prev);
    AlwaysInv(r.prev);
    OnlyOrphansChange(s, id);
    forall p | p in s.execs && s.execs[p].env.id == id && PastMarkRunning(s.execs[p])
      ensures !P.IsOrphan(s.db.rows[id], s.coord.worker)
    {
      RestartedIsNoOrphan(s, at, p, s.coord.worker);
    }
  }

  /** A worker's row is `dead` only when its hash is empty, so skipping dead workers is safe;
      and what the coordinator reads from a hash is all of it when DEL runs. */
  lemma DeadWorkerHasNoRecords(r: Run, w: WorkerId)
    requires Valid(r) && FailStop(r) && w in End(r).db.workers && End(r).db.workers[w] == P.Gone
    ensures w !in End(r).procs && R.Hash(End(r).redis, w) == {}
  {
    AlwaysInv(r);
  }

  // ---- The dead-letter ledger ----

  function IfDlq(at: Places, id: TaskId): nat { if id in at && at[id].InDlq? then 1 else 0 }

  function IfRecorded(at: Places, id: TaskId): nat { if id in at && at[id] == InDlq(Recorded) then 1 else 0 }

  function IfRedrive(st: Step, id: TaskId): nat { if IsRedrive(st, id) then 1 else 0 }

  /** Both books follow the places: an entry for each way in, a redrive for each way out. */
  ghost predicate BooksStep(s: State, st: Step, at: Places, id: TaskId)
    requires Enabled(s, st)
  {
    && DlqEntries(Apply(s, st).redis.dlq, id) + IfDlq(at, id)
       == DlqEntries(s.redis.dlq, id) + IfDlq(Move(s, st, at), id) + IfRedrive(st, id)
    && DeadRows(Apply(s, st).db.deadLetters, id) + IfRecorded(at, id)
       == DeadRows(s.db.deadLetters, id) + IfRecorded(Move(s, st, at), id) + IfRedrive(st, id)
  }

  lemma BooksBuried(s: State, st: Step, at: Places, id: TaskId)
    requires Enabled(s, st) && (st.DeadLetter? || st.MarkDead?) && Sited(s, st, at) && at.Keys == s.db.rows.Keys
    ensures BooksStep(s, st, at, id)
  {
    var x := s.execs[st.pid];
    if st.DeadLetter? {
      assert Apply(s, st).db == s.db;
      DlqAppend(s.redis.dlq, R.DeadLetter(x.env, st.reason, s.now), id);
    } else {
      assert Apply(s, st).redis == s.redis;
      DeadRowsAppend(s.db.deadLetters, P.DeadRow(x.env.id, x.phase.reason, s.db.rows[x.env.id].payload, s.now), id);
    }
  }

  lemma BooksByExec(s: State, st: Step, at: Places, id: TaskId)
    requires Enabled(s, st) && ByExec(st) && !st.DeadLetter? && !st.MarkDead? && Sited(s, st, at)
    ensures BooksStep(s, st, at, id)
  {
    assert Apply(s, st).redis.dlq == s.redis.dlq && Apply(s, st).db.deadLetters == s.db.deadLetters;
  }

  lemma BooksMany(s: State, st: Step, at: Places, id: TaskId)
    requires Enabled(s, st) && MovesMany(st)
    ensures BooksStep(s, st, at, id)
  {}

  lemma BooksSweepDead(s: State, e: Envelope, at: Places, id: TaskId)
    requires Enabled(s, SweepDead(e)) && Sited(s, SweepDead(e), at)
    ensures BooksStep(s, SweepDead(e), at, id)
  {
    var s', to, x := Apply(s, SweepDead(e)), Move(s, SweepDead(e), at), R.DeadLetter(R.Bump(e), WORKER_DIED, s.now);
    assert s'.redis.dlq == s.redis.dlq + [x] && s'.db == s.db;
    assert to == at[e.id := InDlq(PendingSweep)] && at[e.id] == Live(AtSweep(e));
    DlqAppend(s.redis.dlq, x, id);
  }

  lemma BooksSweepMarkDead(s: State, at: Places, id: TaskId)
    requires Enabled(s, SweepMarkDead) && Sited(s, SweepMarkDead, at) && at.Keys == s.db.rows.Keys
    ensures BooksStep(s, SweepMarkDead, at, id)
  {
    var i := s.coord.env.id;
    DeadRowsAppend(s.db.deadLetters, P.DeadRow(i, WORKER_DIED_MID_TASK, s.db.rows[i].payload, s.now), id);
  }

  lemma BooksOther(s: State, st: Step, at: Places, id: TaskId)
    requires Enabled(s, st) && !ByExec(st) && !MovesMany(st) && !st.SweepDead? && !st.SweepMarkDead? && Sited(s, st, at)
    ensures BooksStep(s, st, at, id)
  {}

  lemma BooksBalance(s: State, st: Step, at: Places, id: TaskId)
    requires Inv(s, at) && Enabled(s, st)
    ensures BooksStep(s, st, at, id)
  {
    InvSites(s, st, at);
    if st.DeadLetter? || st.MarkDead? {
      BooksBuried(s, st, at, id);
    } else if ByExec(st) {
      BooksByExec(s, st, at, id);
    } else if MovesMany(st) {
      BooksMany(s, st, at, id);
    } else if st.SweepDead? {
      BooksSweepDead(s, st.env, at, id);
    } else if st.SweepMarkDead? {
      BooksSweepMarkDead(s, at, id);
    } else {
      BooksOther(s, st, at, id);
    }
  }

  /** The three dead-letter books balance: redrives, dead_letters rows and DLQ entries. */
  lemma {:induction false} Ledger(r: Run, id: TaskId)
    requires Valid(r) && FailStop(r)
    ensures DeadRows(End(r).db.deadLetters, id) == Redrives(r, id) + IfRecorded(Locate(r), id)
    ensures DlqEntries(End(r).redis.dlq, id) == Redrives(r, id) + IfDlq(Locate(r), id)
  {
    if r.Then? {
      Ledger(r.prev, id);
      AlwaysInv(r.prev);
      BooksBalance(End(r.prev), r.step, Locate(r.prev), id);
    }
  }

  /** Some process will still mark the row of the task dead. */
  ghost predicate MarkOwed(s: State, id: TaskId) {
    || (exists p :: p in s.execs && s.execs[p].phase.Buried? && s.execs[p].env.id == id)
    || (s.coord.Interring? && s.coord.env.id == id)
  }

  /** The DLQ has an entry more than the dead_letters table, and nobody will add it there. */
  ghost predicate LeftUnrecorded(s: State, id: TaskId) {
    DlqEntries(s.redis.dlq, id) > DeadRows(s.db.deadLetters, id) && !MarkOwed(s, id)
  }

  lemma OwedIff(s: State, at: Places, id: TaskId)
    requires MarksMatch(s, at) && id in at
    ensures MarkOwed(s, id) <==> at[id].InDlq? && (at[id].mark.Pending? || at[id].mark.PendingSweep?)
  {
    if p :| p in s.execs && s.execs[p].phase.Buried? && s.execs[p].env.id == id {
      assert at[s.execs[p].env.id] == InDlq(Pending(p));
    }
  }

  /** The tag `Unrecorded` is what the two stores show. */
  lemma UnrecordedIff(r: Run, id: TaskId)
    requires Valid(r) && FailStop(r) && id in End(r).db.rows
    ensures id in Locate(r)
    ensures Locate(r)[id] == InDlq(Unrecorded) <==> LeftUnrecorded(End(r), id)
  {
    AlwaysInv(r);
    Ledger(r, id);
    UnrecordedTold(End(r), Locate(r), id, Redrives(r, id));
  }

  lemma UnrecordedTold(s: State, at: Places, id: TaskId, redrives: nat)
    requires MarksMatch(s, at) && id in at
    requires DeadRows(s.db.deadLetters, id) == redrives + IfRecorded(at, id)
    requires DlqEntries(s.redis.dlq, id) == redrives + IfDlq(at, id)
    ensures at[id] == InDlq(Unrecorded) <==> LeftUnrecorded(s, id)
  {
    OwedIff(s, at, id);
  }
}
