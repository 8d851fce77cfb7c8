/** How many live copies of a task there can be. */
module Copies {
  import opened Types
  import opened Protocol
  import opened Tokens
  import opened Envelopes
  import opened Sums
  import opened Budgets

  /** A copy that can still reach, is reaching or has just left a handler.  The record of a
      live worker is not a copy of its own: its execution is. */
  predicate IsCopy(t: Token) {
    match t
    case AtRecord(_, _, orphan) => orphan
    case AtExec(_, x) => !x.phase.Buried? && !x.phase.Parked?
    case AtInterring(_) => false
    case _ => true
  }

  ghost function CopiesOf(s: State, id: TaskId): set<Token> {
    set t | t in TokensOf(s) && IsCopy(t) && IdOf(t) == id
  }

  ghost function CopyWeight(id: TaskId): Weight {
    t => if IsCopy(t) && IdOf(t) == id then 1 else 0
  }

  lemma {:induction false} CountIsSum(s: set<Token>, id: TaskId)
    ensures Sum(s, CopyWeight(id)) == |set t | t in s && IsCopy(t) && IdOf(t) == id|
    decreases s
  {
    var chosen := set t | t in s && IsCopy(t) && IdOf(t) == id;
    if s != {} {
      var x :| x in s;
      SumPick(s, CopyWeight(id), x);
      CountIsSum(s - {x}, id);
      var fewer := set t | t in s - {x} && IsCopy(t) && IdOf(t) == id;
      assert fewer == chosen - {x};
    }
  }

  // ---- A live worker's record has a running goroutine ----

  predicate Covers(x: Exec, w: WorkerId, id: TaskId) {
    x.worker == w && x.env.id == id && (x.phase.Leased? || x.phase.Started?)
  }

  ghost predicate Covered(s: State) {
    forall k | k in s.redis.inflight && k.0 in s.procs ::
      exists p :: p in s.execs && Covers(s.execs[p], k.0, k.1)
  }

  ghost function CoverOf(s: State, w: WorkerId, id: TaskId): (p: Pid)
    requires Covered(s) && w in s.procs && (w, id) in s.redis.inflight
    ensures p in s.execs && Covers(s.execs[p], w, id)
  {
    var k := (w, id);
    var p :| p in s.execs && Covers(s.execs[p], k.0, k.1);
    p
  }

  /** An execution that covers a record goes on covering it while the record stays. */
  lemma CoverStays(s: State, st: Step, p: Pid, k: (WorkerId, TaskId))
    requires Enabled(s, st) && p in s.execs && Covers(s.execs[p], k.0, k.1)
    requires k in s.redis.inflight && k.0 in Apply(s, st).procs && k in Apply(s, st).redis.inflight
    ensures p in Apply(s, st).execs && Covers(Apply(s, st).execs[p], k.0, k.1)
  {}

  lemma NewRecord(s: State, st: Step, k: (WorkerId, TaskId))
    requires Enabled(s, st) && k in Apply(s, st).redis.inflight
    ensures k in s.redis.inflight || (st.LeaseHit? && k == (st.worker, st.env.id))
    ensures k.0 in Apply(s, st).procs ==> k.0 in s.procs || st.Register?
  {}

  lemma CoveredStep(s: State, st: Step)
    requires Wf(s) && Covered(s) && Enabled(s, st)
    ensures Covered(Apply(s, st))
  {
    var s' := Apply(s, st);
    forall k | k in s'.redis.inflight && k.0 in s'.procs
      ensures exists p :: p in s'.execs && Covers(s'.execs[p], k.0, k.1)
    {
      NewRecord(s, st, k);
      if st.LeaseHit? && k == (st.worker, st.env.id) {
        assert Covers(s'.execs[st.pid], k.0, k.1);
      } else {
        var p := CoverOf(s, k.0, k.1);
        CoverStays(s, st, p, k);
      }
    }
  }

  lemma {:induction false} AlwaysCovered(r: Run)
    requires Valid(r)
    ensures Covered(End(r))
  {
    if r.Then? {
      AlwaysCovered(r.prev);
      AlwaysSound(r.prev);
      CoveredStep(End(r.prev), r.step);
    }
  }

  // ---- The count ----

  /** The coordinator read this task's record from the hash of a running worker. */
  function StealsFromLive(s: State, st: Step, id: TaskId): nat
    requires Enabled(s, st)
  {
    if st.HGetAll? && s.coord.worker in s.procs && (s.coord.worker, id) in s.redis.inflight then 1 else 0
  }

  ghost function LiveReclaims(r: Run, id: TaskId): nat
    requires Valid(r)
  {
    if r.Start? then 0 else LiveReclaims(r.prev, id) + StealsFromLive(End(r.prev), r.step, id)
  }

  ghost function LiveRedrives(r: Run, id: TaskId): nat
    requires Valid(r)
  {
    if r.Start? then 0 else
    LiveRedrives(r.prev, id)
    + if IsRedrive(r.step, id) && CopiesOf(End(r.prev), id) != {} then 1 else 0
  }

  /** When a process dies, each of its records takes the place of its goroutine. */
  lemma CrashKeepsCount(s: State, w: WorkerId, id: TaskId)
    requires Wf(s) && Covered(s) && w in s.procs
    ensures Sum(Added(s, Crash(w)), CopyWeight(id)) <= Sum(Removed(s, Crash(w)), CopyWeight(id))
  {
    var added := Added(s, Crash(w));
    var source := (t: Token) =>
      if t in added && t.AtRecord? && t.worker == w && (w, t.env.id) in s.redis.inflight
      then var p := CoverOf(s, w, t.env.id); AtExec(p, s.execs[p]) else t;
    forall t | t in added
      ensures t.AtRecord? && t.worker == w && (w, t.env.id) in s.redis.inflight && t == RecordAt(s, (w, t.env.id)).(orphan := true)
    {
    }
    SumCharge(added, Removed(s, Crash(w)), CopyWeight(id), source);
  }

  lemma SumAtMostOne<T>(s: set<T>, w: T -> nat, x: T)
    requires forall y | y in s && y != x :: w(y) == 0
    requires w(x) <= 1
    ensures Sum(s, w) <= if x in s then 1 else 0
  {
    if x in s {
      SumPick(s, w, x);
      SumZero(s - {x}, w);
    } else {
      SumZero(s, w);
    }
  }

  lemma SnapshotCount(s: State, id: TaskId)
    requires Wf(s) && s.coord.Suspect?
    ensures Sum(Added(s, HGetAll), CopyWeight(id)) <= Sum(Removed(s, HGetAll), CopyWeight(id)) + StealsFromLive(s, HGetAll, id)
  {
    var w := s.coord.worker;
    if w !in s.procs {
      HGetAllCharge(s, CopyWeight(id));
    } else if (w, id) in s.redis.inflight {
      SumAtMostOne(Added(s, HGetAll), CopyWeight(id), AtSweep(s.redis.inflight[(w, id)]));
    } else {
      SumZero(Added(s, HGetAll), CopyWeight(id));
    }
  }

  /** The new copies of a life: its creation or a redrive. */
  function NewCopy(st: Step, id: TaskId): nat {
    if (st.CreateRow? || st.RedriveRow?) && st.id == id then 1 else 0
  }

  lemma MovesKeepCount(s: State, st: Step, id: TaskId)
    requires Enabled(s, st) && (ByExec(st) || st.LeaseHit?)
    ensures Sum(Added(s, st), CopyWeight(id)) <= Sum(Removed(s, st), CopyWeight(id))
  {
    if ByExec(st) {
      ExecSums(s, st, CopyWeight(id));
    } else {
      LeaseSums(s, st, CopyWeight(id));
    }
  }

  lemma OneKeepsCount(s: State, st: Step, id: TaskId)
    requires Enabled(s, st) && MovesOne(st)
    ensures Sum(Added(s, st), CopyWeight(id)) <= Sum(Removed(s, st), CopyWeight(id)) + NewCopy(st, id)
  {
    OneSums(s, st, CopyWeight(id));
  }

  lemma CountCharge(s: State, st: Step, id: TaskId)
    requires Wf(s) && Covered(s) && Enabled(s, st)
    ensures Sum(Added(s, st), CopyWeight(id))
            <= Sum(Removed(s, st), CopyWeight(id)) + NewCopy(st, id) + StealsFromLive(s, st, id)
  {
    if ByExec(st) || st.LeaseHit? {
      MovesKeepCount(s, st, id);
    } else if st.Crash? {
      CrashKeepsCount(s, st.worker, id);
    } else if st.PromoteExec? {
      PromotionCharge(s, CopyWeight(id));
    } else if st.HGetAll? {
      SnapshotCount(s, id);
    } else if st.CoordCrash? {
      CoordCrashCharge(s, CopyWeight(id));
    } else if MovesOne(st) {
      OneKeepsCount(s, st, id);
    } else {
      QuietSums(s, st, CopyWeight(id));
    }
  }

  lemma CountStep(s: State, st: Step, id: TaskId)
    requires Wf(s) && Covered(s) && Enabled(s, st)
    ensures |CopiesOf(Apply(s, st), id)| <= |CopiesOf(s, id)| + NewCopy(st, id) + StealsFromLive(s, st, id)
  {
    SumStep(s, st, CopyWeight(id));
    CountIsSum(TokensOf(s), id);
    CountIsSum(TokensOf(Apply(s, st)), id);
    CountCharge(s, st, id);
  }

  /** Duplicates arise only from redriving a task that still has a copy and from reclaiming it
      from a worker that is still running. */
  lemma {:induction false} CopiesAreBounded(r: Run, id: TaskId)
    requires Valid(r)
    ensures |CopiesOf(End(r), id)|
            <= (if id in End(r).db.rows then 1 else 0) + LiveRedrives(r, id) + LiveReclaims(r, id)
  {
    if r.Start? {
      assert TokensOf(End(r)) == {};
    } else {
      CopiesAreBounded(r.prev, id);
      AlwaysSound(r.prev);
      AlwaysCovered(r.prev);
      CountStep(End(r.prev), r.step, id);
      RowsPersist(End(r.prev), r.step);
    }
  }
}
