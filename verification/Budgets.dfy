/** Budgets over the copies of a task.  They hold in every run, also when the
    coordinator declares live workers dead and reclaims what they are running. */
module Budgets {
  import opened Types
  import opened Protocol
  import opened Tokens
  import opened Envelopes
  import opened Sums
  import R = Redis
  import P = Postgres
  import B = Backoff

  type Weight = Token -> nat

  /** The execution that an `execute` call leaves behind, if it goes on. */
  function NextExec(s: State, st: Step): Exec
    requires Enabled(s, st) && ByExec(st)
  {
    var x := s.execs[st.pid];
    match st
    case Reject(_) => x.(phase := Rejected)
    case MarkRunning(_) => x.(phase := Started)
    case Ack(_) => x.(phase := Acked)
    case Nack(_) => Exec(x.worker, R.Bump(x.env), Nacked)
    case DeadLetter(_, reason) => x.(phase := Buried(reason))
    case Park(_, at) => x.(phase := Parked(at))
    case _ => x
  }

  predicate EndsExec(st: Step) { st.MarkSucceeded? || st.MarkDead? || st.MarkRetry? }

  lemma ExecSums(s: State, st: Step, w: Weight)
    requires Enabled(s, st) && ByExec(st)
    ensures Sum(Removed(s, st), w) == w(AtExec(st.pid, s.execs[st.pid]))
    ensures Sum(Added(s, st), w)
         == (if EndsExec(st) then 0 else w(AtExec(st.pid, NextExec(s, st))))
            + (if st.Park? then w(AtDelayed(s.execs[st.pid].env)) else 0)
  {
    SumOne(AtExec(st.pid, s.execs[st.pid]), w);
    if st.Park? {
      SumTwo(AtExec(st.pid, NextExec(s, st)), AtDelayed(s.execs[st.pid].env), w);
    } else if !EndsExec(st) {
      SumOne(AtExec(st.pid, NextExec(s, st)), w);
    }
  }

  lemma LeaseSums(s: State, st: Step, w: Weight)
    requires Enabled(s, st) && st.LeaseHit?
    ensures Sum(Removed(s, st), w) == w(AtReady(st.env))
    ensures Sum(Added(s, st), w)
         == w(AtRecord(st.worker, st.env, false)) + w(AtExec(st.pid, Exec(st.worker, st.env, Leased)))
  {
    SumOne(AtReady(st.env), w);
    SumTwo(AtRecord(st.worker, st.env, false), AtExec(st.pid, Exec(st.worker, st.env, Leased)), w);
  }

  /** API calls and the loop over reclaimed envelopes move one envelope each. */
  predicate MovesOne(st: Step) {
    || st.CreateRow? || st.RedriveRow? || st.ApiEnqueue? || st.ApiCrash?
    || st.Requeue? || st.SweepDead? || st.SweepMarkDead?
  }

  function Source(s: State, st: Step): Option<Token>
    requires Enabled(s, st) && MovesOne(st)
  {
    match st
    case ApiEnqueue(q) => Some(AtApi(q, s.apis[q]))
    case ApiCrash(q) => Some(AtApi(q, s.apis[q]))
    case Requeue(e) => Some(AtSweep(e))
    case SweepDead(e) => Some(AtSweep(e))
    case SweepMarkDead => Some(AtInterring(s.coord.env))
    case _ => None
  }

  function Target(s: State, st: Step): Option<Token>
    requires Enabled(s, st) && MovesOne(st)
  {
    match st
    case CreateRow(q, id, _, _, _, _) => Some(AtApi(q, P.FreshEnvelope(id, NewRow(st, s.now))))
    case RedriveRow(q, id) => Some(AtApi(q, P.FreshEnvelope(id, s.db.rows[id])))
    case ApiEnqueue(q) => Some(AtReady(R.Stamped(s.apis[q], s.now)))
    case Requeue(e) => Some(AtReady(R.Stamped(R.Bump(e), s.now)))
    case SweepDead(e) => Some(AtInterring(e))
    case _ => None
  }

  function At(t: Option<Token>, w: Weight): nat {
    if t.Some? then w(t.value) else 0
  }

  lemma OneSums(s: State, st: Step, w: Weight)
    requires Enabled(s, st) && MovesOne(st)
    ensures Sum(Removed(s, st), w) == At(Source(s, st), w)
    ensures Sum(Added(s, st), w) == At(Target(s, st), w)
  {
    if Source(s, st).Some? {
      SumOne(Source(s, st).value, w);
      assert Removed(s, st) == {Source(s, st).value};
    }
    if Target(s, st).Some? {
      SumOne(Target(s, st).value, w);
      assert Added(s, st) == {Target(s, st).value};
    }
  }

  lemma QuietSums(s: State, st: Step, w: Weight)
    requires Enabled(s, st) && !MovesMany(st) && !ByExec(st) && !MovesOne(st) && !st.LeaseHit?
    ensures Sum(Removed(s, st), w) == 0 == Sum(Added(s, st), w)
  {}

  ghost predicate PromotionIsFree(w: Weight) {
    forall e: Envelope, ms: int :: w(AtReady(e.(enqueuedAt := ms))) <= w(AtDelayed(e))
  }

  /** Weights that see a record and its reclaimed envelope as the same thing. */
  ghost predicate Tame(w: Weight) {
    && (forall k, e, a, b :: w(AtRecord(k, e, a)) == w(AtRecord(k, e, b)) == w(AtSweep(e)))
    && PromotionIsFree(w)
  }

  ghost function PromotedFrom(batch: set<Envelope>, now: int, m: Envelope): (e: Envelope)
    requires m in R.Restamp(batch, now)
    ensures e in batch && e.(enqueuedAt := now) == m
  {
    var e :| e in batch && e.(enqueuedAt := now) == m;
    e
  }

  lemma PromotionCharge(s: State, w: Weight)
    requires Wf(s) && s.coord.Promoting? && PromotionIsFree(w)
    ensures Sum(Added(s, PromoteExec), w) <= Sum(Removed(s, PromoteExec), w)
  {
    var batch, now := s.coord.batch, s.coord.asOf;
    var source := (t: Token) =>
      if t.AtReady? && t.env in R.Restamp(batch, now) then AtDelayed(PromotedFrom(batch, now, t.env)) else t;
    forall t | t in Added(s, PromoteExec)
      ensures source(t) in Removed(s, PromoteExec) && w(t) <= w(source(t))
    {
      var e := PromotedFrom(batch, now, t.env);
      assert t == AtReady(e.(enqueuedAt := now));
    }
    SumCharge(Added(s, PromoteExec), Removed(s, PromoteExec), w, source);
  }

  lemma CrashCharge(s: State, k: WorkerId, w: Weight)
    requires Wf(s) && k in s.procs && Tame(w)
    ensures Sum(Added(s, Crash(k)), w) <= Sum(Removed(s, Crash(k)), w)
  {
    var source := (t: Token) => if t.AtRecord? then t.(orphan := false) else t;
    SumCharge(Added(s, Crash(k)), Removed(s, Crash(k)), w, source);
  }

  lemma HGetAllCharge(s: State, w: Weight)
    requires Wf(s) && s.coord.Suspect?
    requires forall e :: w(AtSweep(e)) <= w(AtRecord(s.coord.worker, e, Orphaned(s, s.coord.worker)))
    ensures Sum(Added(s, HGetAll), w) <= Sum(Removed(s, HGetAll), w)
  {
    var k := s.coord.worker;
    var source := (t: Token) => if t.AtSweep? then AtRecord(k, t.env, Orphaned(s, k)) else t;
    SumCharge(Added(s, HGetAll), Removed(s, HGetAll), w, source);
  }

  lemma CoordCrashCharge(s: State, w: Weight)
    requires Wf(s) && forall k, e, a :: w(AtRecord(k, e, a)) <= w(AtSweep(e))
    ensures Sum(Added(s, CoordCrash), w) <= Sum(Removed(s, CoordCrash), w)
  {
    var source := (t: Token) => if t.AtRecord? then AtSweep(t.env) else t;
    SumCharge(Added(s, CoordCrash), Removed(s, CoordCrash), w, source);
  }

  /** The steps that move many envelopes at once never add weight. */
  lemma ManyCharge(s: State, st: Step, w: Weight)
    requires Wf(s) && Enabled(s, st) && MovesMany(st) && Tame(w)
    ensures Sum(Added(s, st), w) <= Sum(Removed(s, st), w)
  {
    match st
    case Crash(k) => CrashCharge(s, k, w);
    case PromoteExec => PromotionCharge(s, w);
    case HGetAll => HGetAllCharge(s, w);
    case CoordCrash => CoordCrashCharge(s, w);
    case _ =>
  }

  lemma SumStep(s: State, st: Step, w: Weight)
    requires Wf(s) && Enabled(s, st)
    ensures Sum(TokensOf(Apply(s, st)), w) + Sum(Removed(s, st), w) <= Sum(TokensOf(s), w) + Sum(Added(s, st), w)
  {
    TokensStep(s, st);
    SumChange(TokensOf(s), TokensOf(Apply(s, st)), Removed(s, st), Added(s, st), w);
  }

  // ---- Handler starts ----

  /** The starts that one envelope with r attempts left can still cause: 2^r - 1,
      because each start can leave behind both a retry and a wrongly reclaimed record. */
  function Worth(r: int): nat {
    if r <= 0 then 0 else B.Pow2(r) - 1
  }

  function StartsLeft(t: Token): nat {
    var r := EnvOf(t).maxAttempts - EnvOf(t).attempts;
    match t
    case AtReady(_) => Worth(r)
    case AtDelayed(_) => Worth(r)
    case AtApi(_, _) => Worth(r)
    case AtRecord(_, _, _) => Worth(r - 1)
    case AtSweep(_) => Worth(r - 1)
    case AtInterring(_) => 0
    case AtExec(_, x) =>
      match x.phase
      case Leased => 1 + Worth(r - 1)
      case Started => Worth(r - 1)
      case Nacked => Worth(r)
      case _ => 0
  }

  ghost function StartWeight(id: TaskId): Weight {
    t => if IdOf(t) == id then StartsLeft(t) else 0
  }

  lemma StartWeightTame(id: TaskId)
    ensures Tame(StartWeight(id))
  {
    var w := StartWeight(id);
    forall k, e, a, b
      ensures w(AtRecord(k, e, a)) == w(AtRecord(k, e, b)) == w(AtSweep(e))
    {}
    forall e: Envelope, ms: int
      ensures w(AtReady(e.(enqueuedAt := ms))) <= w(AtDelayed(e))
    {}
  }

  function StartsHere(s: State, st: Step, id: TaskId): nat
    requires Enabled(s, st)
  {
    if st.MarkRunning? && s.execs[st.pid].env.id == id then 1 else 0
  }

  /** A new life of the task: its creation or a redrive. */
  function NewBudget(s: State, st: Step, id: TaskId): nat
    requires Enabled(s, st)
  {
    match st
    case CreateRow(_, newId, _, _, _, max) => if newId == id then Worth(P.DefaultMax(max)) else 0
    case RedriveRow(_, oldId) => if oldId == id then Worth(s.db.rows[id].maxAttempts) else 0
    case _ => 0
  }

  lemma StartsChargeByExec(s: State, st: Step, id: TaskId)
    requires Enabled(s, st) && ByExec(st)
    ensures Sum(Added(s, st), StartWeight(id)) + StartsHere(s, st, id) <= Sum(Removed(s, st), StartWeight(id))
  {
    ExecSums(s, st, StartWeight(id));
  }

  lemma StartsChargeLease(s: State, st: Step, id: TaskId)
    requires Enabled(s, st) && st.LeaseHit? && AttemptsOk(AtReady(st.env))
    ensures Sum(Added(s, st), StartWeight(id)) <= Sum(Removed(s, st), StartWeight(id))
  {
    LeaseSums(s, st, StartWeight(id));
    WorthHalves(st.env.maxAttempts - st.env.attempts);
  }

  lemma WorthHalves(r: int)
    requires r >= 1
    ensures Worth(r) == 2 * Worth(r - 1) + 1
  {}

  lemma StartsChargeOne(s: State, st: Step, id: TaskId)
    requires Enabled(s, st) && MovesOne(st)
    ensures Sum(Added(s, st), StartWeight(id)) <= Sum(Removed(s, st), StartWeight(id)) + NewBudget(s, st, id)
  {
    OneSums(s, st, StartWeight(id));
  }

  lemma StartsCharge(s: State, st: Step, id: TaskId)
    requires Sound(s) && Enabled(s, st)
    ensures Sum(Added(s, st), StartWeight(id)) + StartsHere(s, st, id)
            <= Sum(Removed(s, st), StartWeight(id)) + NewBudget(s, st, id)
  {
    if ByExec(st) {
      StartsChargeByExec(s, st, id);
    } else if MovesMany(st) {
      StartWeightTame(id);
      ManyCharge(s, st, StartWeight(id));
    } else if st.LeaseHit? {
      HeldOk(s, AtReady(st.env));
      StartsChargeLease(s, st, id);
    } else if MovesOne(st) {
      StartsChargeOne(s, st, id);
    } else {
      QuietSums(s, st, StartWeight(id));
    }
  }

  /** Starts plus the starts still possible grow only with a new life. */
  lemma StartsStep(s: State, st: Step, id: TaskId)
    requires Sound(s) && Enabled(s, st)
    ensures Sum(TokensOf(Apply(s, st)), StartWeight(id)) + StartsHere(s, st, id)
            <= Sum(TokensOf(s), StartWeight(id)) + NewBudget(s, st, id)
  {
    SumStep(s, st, StartWeight(id));
    StartsCharge(s, st, id);
  }

  /** So many lives of the same worth. */
  function Repeated(lives: nat, worth: nat): nat {
    if lives == 0 then 0 else Repeated(lives - 1, worth) + worth
  }

  lemma {:induction false} RepeatedIsProduct(lives: nat, worth: nat)
    ensures Repeated(lives, worth) == lives * worth
  {
    if lives > 0 {
      RepeatedIsProduct(lives - 1, worth);
    }
  }

  function AllowanceFor(rows: map<TaskId, Row>, redrives: nat, id: TaskId): nat {
    if id in rows then Repeated(1 + redrives, B.Pow2(rows[id].maxAttempts) - 1) else 0
  }

  ghost function Allowance(r: Run, id: TaskId): nat
    requires Valid(r)
  {
    AllowanceFor(End(r).db.rows, Redrives(r, id), id)
  }

  lemma BudgetOfKnown(s: State, st: Step, id: TaskId)
    requires Enabled(s, st) && id in s.db.rows && s.db.rows[id].maxAttempts >= 1
    ensures NewBudget(s, st, id) == if IsRedrive(st, id) then B.Pow2(s.db.rows[id].maxAttempts) - 1 else 0
  {}

  lemma BudgetOfNew(s: State, st: Step, id: TaskId)
    requires Enabled(s, st) && id !in s.db.rows
    ensures !IsRedrive(st, id)
    ensures NewBudget(s, st, id) <= AllowanceFor(Apply(s, st).db.rows, 0, id)
  {
    if id in Apply(s, st).db.rows {
      RepeatedIsProduct(1, B.Pow2(Apply(s, st).db.rows[id].maxAttempts) - 1);
    }
  }

  lemma AllowanceGrows(s: State, st: Step, redrives: nat, id: TaskId)
    requires Enabled(s, st) && (if id in s.db.rows then s.db.rows[id].maxAttempts >= 1 else redrives == 0)
    ensures AllowanceFor(Apply(s, st).db.rows, redrives + (if IsRedrive(st, id) then 1 else 0), id)
         >= AllowanceFor(s.db.rows, redrives, id) + NewBudget(s, st, id)
  {
    RowsPersist(s, st);
    if id in s.db.rows {
      BudgetOfKnown(s, st, id);
    } else {
      BudgetOfNew(s, st, id);
    }
  }

  lemma AllowanceStep(r: Run, id: TaskId)
    requires Valid(r) && r.Then?
    ensures Allowance(r, id) >= Allowance(r.prev, id) + NewBudget(End(r.prev), r.step, id)
  {
    if id in End(r.prev).db.rows {
      MaxAttemptsPositive(r.prev, id);
    } else {
      NoRedriveBefore(r.prev, id);
    }
    AllowanceGrows(End(r.prev), r.step, Redrives(r.prev, id), id);
  }

  lemma {:induction false} NoRedriveBefore(r: Run, id: TaskId)
    requires Valid(r) && id !in End(r).db.rows
    ensures Redrives(r, id) == 0
  {
    if r.Then? {
      RowsPersist(End(r.prev), r.step);
      NoRedriveBefore(r.prev, id);
    }
  }

  lemma {:induction false} StartsPlusPossible(r: Run, id: TaskId)
    requires Valid(r)
    ensures Starts(r, id) + Sum(TokensOf(End(r)), StartWeight(id)) <= Allowance(r, id)
  {
    if r.Start? {
      assert TokensOf(End(r)) == {};
    } else {
      StartsPlusPossible(r.prev, id);
      AlwaysSound(r.prev);
      StartsStep(End(r.prev), r.step, id);
      AllowanceStep(r, id);
    }
  }

  /** However often live workers are reclaimed, a task's handler starts at most
      2^max_attempts - 1 times for its creation and for each redrive. */
  lemma StartsAreBounded(r: Run, id: TaskId)
    requires Valid(r) && id in End(r).db.rows
    ensures Starts(r, id) <= (1 + Redrives(r, id)) * (B.Pow2(End(r).db.rows[id].maxAttempts) - 1)
  {
    StartsWithinAllowance(r, id);
    WithinProduct(Starts(r, id), End(r).db.rows, Redrives(r, id), id);
  }

  lemma WithinProduct(starts: nat, rows: map<TaskId, Row>, redrives: nat, id: TaskId)
    requires id in rows && starts <= AllowanceFor(rows, redrives, id)
    ensures starts <= (1 + redrives) * (B.Pow2(rows[id].maxAttempts) - 1)
  {
    RepeatedIsProduct(1 + redrives, B.Pow2(rows[id].maxAttempts) - 1);
  }

  lemma StartsWithinAllowance(r: Run, id: TaskId)
    requires Valid(r)
    ensures Starts(r, id) <= Allowance(r, id)
  {
    StartsPlusPossible(r, id);
  }

  lemma MaxAttemptsPositive(r: Run, id: TaskId)
    requires Valid(r) && id in End(r).db.rows
    ensures End(r).db.rows[id].maxAttempts >= 1
  {
    AlwaysSound(r);
  }
}
