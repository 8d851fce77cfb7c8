/** When a crash during a handler leaves the task in the hash, in every run, also with live workers
    declared dead. */
module Leases {
  import opened Types
  import opened Protocol
  import opened Tokens
  import opened Envelopes
  import opened Copies
  import opened Losses

  /** The step removes the record of task id from the hash of w. */
  predicate TakesRecord(s: State, st: Step, w: WorkerId, id: TaskId)
    requires Enabled(s, st)
  {
    || (st.Del? && s.coord.worker == w)
    || ((st.Reject? || st.Ack? || st.Nack?) && s.execs[st.pid].worker == w && s.execs[st.pid].env.id == id)
  }

  predicate RunsHandler(s: State, p: Pid) { p in s.execs && (s.execs[p].phase.Leased? || s.execs[p].phase.Started?) }

  /** Since goroutine p leased its task, the coordinator has emptied the hash of its worker, or a twin (a
      goroutine of the same worker and task) has acked, nacked or rejected; and no twin has leased since. */
  ghost predicate TakenSinceLease(r: Run, p: Pid)
    requires Valid(r)
  {
    if r.Start? || p !in End(r.prev).execs then false
    else
      var x := End(r.prev).execs[p];
      if r.step.LeaseHit? && r.step.worker == x.worker && r.step.env.id == x.env.id then false
      else TakenSinceLease(r.prev, p) || TakesRecord(End(r.prev), r.step, x.worker, x.env.id)
  }

  /** While p runs, one step takes or writes its record only so. */
  lemma RecordStep(s: State, st: Step, p: Pid)
    requires Enabled(s, st) && p in s.execs && RunsHandler(Apply(s, st), p)
    ensures var k := (s.execs[p].worker, s.execs[p].env.id);
            && RunsHandler(s, p) && (Apply(s, st).execs[p].worker, Apply(s, st).execs[p].env.id) == k
            && (k in Apply(s, st).redis.inflight <==>
                  (st.LeaseHit? && (st.worker, st.env.id) == k) || (k in s.redis.inflight && !TakesRecord(s, st, k.0, k.1)))
  {}

  lemma NewLease(s: State, st: Step, p: Pid)
    requires Enabled(s, st) && p !in s.execs && p in Apply(s, st).execs
    ensures st.LeaseHit? && st.pid == p
    ensures (Apply(s, st).execs[p].worker, Apply(s, st).execs[p].env.id) in Apply(s, st).redis.inflight
  {}

  /** The record of a running handler is in the hash if and only if nothing has taken it since the lease. */
  lemma {:induction false} RecordStaysIff(r: Run, p: Pid)
    requires Valid(r) && RunsHandler(End(r), p)
    ensures (End(r).execs[p].worker, End(r).execs[p].env.id) in End(r).redis.inflight <==> !TakenSinceLease(r, p)
  {
    var s, st := End(r.prev), r.step;
    if p in s.execs {
      RecordStep(s, st, p);
      RecordStaysIff(r.prev, p);
    } else {
      NewLease(s, st, p);
    }
  }

  /** A crash during a handler leaves the record in the hash if and only if nothing has taken it since
      the lease. */
  lemma CrashKeepsRecordIff(r: Run, p: Pid)
    requires Valid(r) && RunsHandler(End(r), p)
    ensures var w, id := End(r).execs[p].worker, End(r).execs[p].env.id;
            w in End(r).procs && ((w, id) in Apply(End(r), Crash(w)).redis.inflight <==> !TakenSinceLease(r, p))
  {
    AlwaysSound(r);
    RecordStaysIff(r, p);
  }

  // ---- When the task is lost ----

  /** Every copy of the task is a goroutine of this worker. */
  ghost predicate OnlyIn(s: State, w: WorkerId, id: TaskId) {
    forall t | t in CopiesOf(s, id) :: t.AtExec? && t.exec.worker == w
  }

  lemma CrashTakesAllIff(s: State, p: Pid, id: TaskId)
    requires Wf(s) && RunsHandler(s, p) && s.execs[p].env.id == id
    ensures var w := s.execs[p].worker;
            w in s.procs && (TakesAll(s, Crash(w), id) <==> (w, id) !in s.redis.inflight && OnlyIn(s, w, id))
  {
    var w := s.execs[p].worker;
    CopyIff(s, AtExec(p, s.execs[p]), id);
    forall t | t in CopiesOf(s, id)
      ensures Takes(s, Crash(w), t) <==> t.AtExec? && t.exec.worker == w && (w, id) !in s.redis.inflight
    {
    }
  }

  /** In every run: the crash itself leaves no copy of the running task if and only if its record was
      taken since the lease and every other copy was in the same process.  What can still take the
      record after the crash is told by `LastCopiesGoIff`. */
  lemma CrashLosesRunningTaskIff(r: Run, p: Pid)
    requires Valid(r) && RunsHandler(End(r), p)
    ensures var w, id := End(r).execs[p].worker, End(r).execs[p].env.id;
            && w in End(r).procs
            && (CopiesOf(Apply(End(r), Crash(w)), id) == {} <==> TakenSinceLease(r, p) && OnlyIn(End(r), w, id))
  {
    var w, id := End(r).execs[p].worker, End(r).execs[p].env.id;
    AlwaysSound(r);
    AlwaysCovered(r);
    RecordStaysIff(r, p);
    CrashTakesAllIff(End(r), p, id);
    CopiesStepIff(End(r), Crash(w), id);
  }
}
