/** What every envelope satisfies wherever it is, in every run. */
module Envelopes {
  import opened Types
  import opened Protocol
  import opened Tokens
  import R = Redis

  /** The immutable part of a row, as the envelope carries it. */
  predicate Describes(e: Envelope, r: Row) {
    e.typ == r.typ && e.payload == r.payload && e.priority == r.priority && e.maxAttempts == r.maxAttempts
  }

  /** An attempt is left, except where the last one has just been counted. */
  predicate AttemptsOk(t: Token) {
    match t
    case AtExec(_, x) =>
      if x.phase.Nacked? || x.phase.Buried? then x.env.attempts <= x.env.maxAttempts
      else x.env.attempts < x.env.maxAttempts
    case other => other.env.attempts < other.env.maxAttempts
  }

  /** The stamp is unset before the first enqueue and a time of the clock range after it. */
  predicate StampOk(t: Token) {
    if t.AtApi? then t.env.enqueuedAt == 0 else 0 < EnvOf(t).enqueuedAt < CLOCK_END
  }

  predicate TokenOk(rows: map<TaskId, Row>, t: Token) {
    IdOf(t) in rows && Describes(EnvOf(t), rows[IdOf(t)]) && AttemptsOk(t) && StampOk(t)
  }

  /** Every ready member has the score of its own priority and stamp. */
  predicate Scored(d: R.Data) {
    forall e | e in d.ready :: d.ready[e] == R.ScoreOf(e)
  }

  predicate DeadLetterOk(x: R.DeadLetter) {
    x.env.attempts == x.env.maxAttempts || x.reason == NO_HANDLER
  }

  predicate BuriedOk(execs: map<Pid, Exec>) {
    forall p | p in execs && execs[p].phase.Buried? ::
      execs[p].env.attempts == execs[p].env.maxAttempts || execs[p].phase.reason == NO_HANDLER
  }

  ghost predicate Sound(s: State) {
    && Wf(s)
    && (forall t | t in TokensOf(s) :: TokenOk(s.db.rows, t))
    && (forall id | id in s.db.rows :: s.db.rows[id].maxAttempts >= 1)
    && (forall x | x in s.redis.dlq :: DeadLetterOk(x))
    && BuriedOk(s.execs)
    && Scored(s.redis)
  }

  lemma HeldOk(s: State, t: Token)
    requires Sound(s) && Holds(s, t)
    ensures TokenOk(s.db.rows, t)
  {
    TokenIff(s, t);
  }

  predicate SameTask(a: Row, b: Row) {
    a.typ == b.typ && a.payload == b.payload && a.priority == b.priority && a.maxAttempts == b.maxAttempts
  }

  /** Rows are never deleted and what a row describes never changes. */
  lemma RowsPersist(s: State, st: Step)
    requires Enabled(s, st)
    ensures forall id | id in s.db.rows :: id in Apply(s, st).db.rows && SameTask(s.db.rows[id], Apply(s, st).db.rows[id])
    ensures forall id | id in Apply(s, st).db.rows && id !in s.db.rows :: st.CreateRow? && st.id == id
  {}

  lemma StaysOk(s: State, st: Step, t: Token)
    requires Enabled(s, st) && TokenOk(s.db.rows, t)
    ensures TokenOk(Apply(s, st).db.rows, t)
  {
    RowsPersist(s, st);
  }

  /** Everything that a step moves was in order before, and still is. */
  lemma RemovedOk(s: State, st: Step)
    requires Sound(s) && Enabled(s, st)
    ensures forall t | t in Removed(s, st) :: TokenOk(Apply(s, st).db.rows, t)
  {
    TokensStep(s, st);
    forall t | t in Removed(s, st)
      ensures TokenOk(Apply(s, st).db.rows, t)
    {
      assert t in TokensOf(s);
      StaysOk(s, st, t);
    }
  }

  lemma AddedByExecOk(s: State, st: Step, rows: map<TaskId, Row>, t: Token)
    requires Enabled(s, st) && ByExec(st) && t in Added(s, st)
    requires forall x | x in Removed(s, st) :: TokenOk(rows, x)
    ensures TokenOk(rows, t)
  {
    assert AtExec(st.pid, s.execs[st.pid]) in Removed(s, st);
  }

  lemma AddedManyOk(s: State, st: Step, rows: map<TaskId, Row>, t: Token)
    requires Wf(s) && Enabled(s, st) && MovesMany(st) && t in Added(s, st)
    requires forall x | x in Removed(s, st) :: TokenOk(rows, x)
    ensures TokenOk(rows, t)
  {
    if st.CoordCrash? {
      assert AtSweep(t.env) in Removed(s, st);
    } else if st.PromoteExec? {
      var e :| e in s.coord.batch && e.(enqueuedAt := s.coord.asOf) == t.env;
      assert AtDelayed(e) in Removed(s, st);
    }
  }

  lemma AddedOtherOk(s: State, st: Step, t: Token)
    requires Wf(s) && Enabled(s, st) && !ByExec(st) && !MovesMany(st) && t in Added(s, st)
    requires forall id | id in s.db.rows :: s.db.rows[id].maxAttempts >= 1
    requires forall x | x in Removed(s, st) :: TokenOk(Apply(s, st).db.rows, x)
    ensures TokenOk(Apply(s, st).db.rows, t)
  {
    if st.LeaseHit? {
      assert AtReady(st.env) in Removed(s, st);
    } else if st.Requeue? || st.SweepDead? {
      assert AtSweep(st.env) in Removed(s, st);
    } else if st.ApiEnqueue? {
      assert AtApi(st.req, s.apis[st.req]) in Removed(s, st);
    }
  }

  lemma TokensStayOk(s: State, st: Step, t: Token)
    requires Sound(s) && Enabled(s, st) && t in TokensOf(Apply(s, st))
    ensures TokenOk(Apply(s, st).db.rows, t)
  {
    TokensStep(s, st);
    RemovedOk(s, st);
    if t !in Added(s, st) {
      StaysOk(s, st, t);
    } else if ByExec(st) {
      AddedByExecOk(s, st, Apply(s, st).db.rows, t);
    } else if MovesMany(st) {
      AddedManyOk(s, st, Apply(s, st).db.rows, t);
    } else {
      AddedOtherOk(s, st, t);
    }
  }

  lemma DeadLettersStep(s: State, st: Step)
    requires Sound(s) && Enabled(s, st)
    ensures forall x | x in Apply(s, st).redis.dlq :: DeadLetterOk(x)
  {
    if st.DeadLetter? {
      HeldOk(s, AtExec(st.pid, s.execs[st.pid]));
    } else if st.SweepDead? {
      HeldOk(s, AtSweep(st.env));
    }
  }

  lemma BuriedStep(s: State, st: Step)
    requires Sound(s) && Enabled(s, st)
    ensures BuriedOk(Apply(s, st).execs)
  {
    if st.DeadLetter? {
      HeldOk(s, AtExec(st.pid, s.execs[st.pid]));
    } else {
      NobodyBuried(s, st);
    }
  }

  lemma NobodyBuried(s: State, st: Step)
    requires Enabled(s, st) && !st.DeadLetter?
    ensures forall p | p in Apply(s, st).execs && Apply(s, st).execs[p].phase.Buried? ::
              p in s.execs && Apply(s, st).execs[p] == s.execs[p]
  {}

  lemma ScoredStep(s: State, st: Step)
    requires Scored(s.redis) && Enabled(s, st)
    ensures Scored(Apply(s, st).redis)
  {}

  lemma SoundStep(s: State, st: Step)
    requires Sound(s) && Enabled(s, st)
    ensures Sound(Apply(s, st))
  {
    var s' := Apply(s, st);
    WfStep(s, st);
    RowsPersist(s, st);
    DeadLettersStep(s, st);
    forall t | t in TokensOf(s')
      ensures TokenOk(s'.db.rows, t)
    {
      TokensStayOk(s, st, t);
    }
    BuriedStep(s, st);
    ScoredStep(s, st);
  }

  lemma {:induction false} AlwaysSound(r: Run)
    requires Valid(r)
    ensures Sound(End(r))
  {
    if r.Then? {
      AlwaysSound(r.prev);
      SoundStep(End(r.prev), r.step);
    }
  }

  /** What is being swept has a row and keeps its stamp. */
  lemma ReclaimedOk(r: Run, e: Envelope)
    requires Valid(r) && End(r).coord.Sweeping? && e in End(r).coord.envs
    ensures e.id in End(r).db.rows && Describes(e, End(r).db.rows[e.id]) && e.enqueuedAt > 0
  {
    AlwaysSound(r);
    HeldOk(End(r), AtSweep(e));
  }

  /** What a goroutine executes has a row, which it describes. */
  lemma RowOfExec(r: Run, p: Pid)
    requires Valid(r) && p in End(r).execs
    ensures var e := End(r).execs[p].env; e.id in End(r).db.rows && Describes(e, End(r).db.rows[e.id])
  {
    AlwaysSound(r);
    HeldOk(End(r), AtExec(p, End(r).execs[p]));
  }
}
