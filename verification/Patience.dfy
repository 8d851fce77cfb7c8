/** Runs that use up the waits which the backoff allows. */
module Patience {
  import opened Types
  import opened Protocol
  import opened Waits
  import B = Backoff
  import R = Redis

  const W: WorkerId := 1
  const TASK: TaskId := 5
  const TYP := "echo"

  /** `BackoffDelay` may return d for attempt k. */
  predicate Drawable(k: nat, base: nat, max: nat, d: nat) {
    d >= base && (d == base || (d < max && k >= 1 && d < base * B.Pow2(k - 1)))
  }

  /** Where a run ends, and what the task has waited. */
  datatype Point = Point(s: State, waited: nat, retries: nat)

  ghost predicate CanGo(s: State, st: Step) {
    Enabled(s, st) && HeartbeatsHold(s, st) && !st.Park? && !st.RedriveRow?
  }

  ghost predicate CanPark(s: State, p: Pid, base: nat, max: nat, d: nat) {
    && InPhase(s, p, Nacked) && s.execs[p].env.id == TASK
    && 1 <= s.execs[p].env.attempts < s.execs[p].env.maxAttempts && Drawable(s.execs[p].env.attempts, base, max, d)
  }

  function ParkOf(s: State, p: Pid, d: nat): Step { Park(p, s.now + d / 1_000_000) }

  /** What fail-stop runs reach that keep to the backoff. */
  datatype Reach = Reach(points: iset<Point>, base: nat, max: nat)

  ghost predicate Closed(reach: Reach) {
    && (forall x, st | x in reach.points && CanGo(x.s, st) :: x.(s := Apply(x.s, st)) in reach.points)
    && (forall x, p, d: nat | x in reach.points && CanPark(x.s, p, reach.base, reach.max, d) ::
          Point(Apply(x.s, ParkOf(x.s, p, d)), x.waited + d / 1_000_000, x.retries + 1) in reach.points)
  }

  ghost predicate At(reach: Reach, x: Point) { Closed(reach) && x in reach.points }

  /** One step that parks and redrives nothing. */
  lemma Go(reach: Reach, x: Point, st: Step) returns (x': Point)
    requires At(reach, x) && CanGo(x.s, st)
    ensures At(reach, x') && x' == x.(s := Apply(x.s, st))
  {
    x' := x.(s := Apply(x.s, st));
  }

  // ---- One attempt ----

  /** The worker, whose key lasts, and the task: nothing else is anywhere. */
  ghost predicate Alone(s: State, sem: nat, execs: map<Pid, Exec>, max: nat) {
    && s.apis == map[] && s.coord.Idle? && s.execs == execs && s.cfg.concurrency == 1
    && s.redis.heartbeats == map[W := CLOCK_END + 1] && s.procs == map[W := Proc([TYP], sem, None)]
    && TASK in s.db.rows && s.db.rows[TASK].maxAttempts == max && 0 < s.now < CLOCK_END
  }

  ghost predicate IsReady(s: State, e: Envelope) {
    && Alone(s, 0, map[], e.maxAttempts) && e.typ == TYP && e.id == TASK
    && s.redis.ready.Keys == {e} && s.redis.delayed == map[] && s.redis.inflight == map[]
  }

  ghost predicate Executes(s: State, e: Envelope, phase: Phase) {
    && Alone(s, 1, map[0 := Exec(W, e, phase)], e.maxAttempts) && e.typ == TYP && e.id == TASK
    && s.redis.ready == map[] && s.redis.delayed == (if phase.Parked? then map[e := phase.at] else map[])
    && s.redis.inflight == if phase.Leased? || phase.Started? then map[(W, TASK) := e] else map[]
  }

  /** The task waits in the delayed set. */
  ghost predicate IsDelayed(s: State, e: Envelope, at: int) {
    && Alone(s, 0, map[], e.maxAttempts) && e.typ == TYP && e.id == TASK
    && s.redis.ready == map[] && s.redis.delayed == map[e := at] && s.redis.inflight == map[]
  }

  lemma Lease(reach: Reach, x: Point, e: Envelope) returns (x': Point)
    requires At(reach, x) && IsReady(x.s, e)
    ensures At(reach, x') && x' == x.(s := x'.s) && Executes(x'.s, e, Leased) && x'.s.now == x.s.now
  {
    var x1 := Go(reach, x, Acquire(W));
    assert R.IsNext(x.s.redis, TYP, e);
    x' := Go(reach, x1, LeaseHit(W, e, 0));
    assert x'.s.redis.ready == map[] && x'.s.execs == map[0 := Exec(W, e, Leased)];
  }

  lemma Fail(reach: Reach, x: Point, e: Envelope) returns (x': Point)
    requires At(reach, x) && Executes(x.s, e, Leased)
    ensures At(reach, x') && x' == x.(s := x'.s) && Executes(x'.s, R.Bump(e), Nacked) && x'.s.now == x.s.now
  {
    var x1 := Go(reach, x, MarkRunning(0));
    assert x1.s.execs == map[0 := Exec(W, e, Started)];
    x' := Go(reach, x1, Nack(0));
    assert x'.s.execs == map[0 := Exec(W, R.Bump(e), Nacked)];
    assert x'.s.redis.inflight == map[];
  }

  /** The retry is parked for a delay of d nanoseconds that can be drawn. */
  lemma PutOff(reach: Reach, x: Point, e: Envelope, d: nat) returns (x': Point)
    requires At(reach, x) && Executes(x.s, e, Nacked) && 1 <= e.attempts < e.maxAttempts
    requires Drawable(e.attempts, reach.base, reach.max, d)
    ensures At(reach, x') && x' == Point(x'.s, x.waited + d / 1_000_000, x.retries + 1)
    ensures Executes(x'.s, e, Parked(x.s.now + d / 1_000_000)) && x'.s.now == x.s.now
  {
    var at := x.s.now + d / 1_000_000;
    assert CanPark(x.s, 0, reach.base, reach.max, d) && ParkOf(x.s, 0, d) == Park(0, at);
    x' := Point(Apply(x.s, Park(0, at)), x.waited + d / 1_000_000, x.retries + 1);
    assert x'.s.execs == map[0 := Exec(W, e, Parked(at))];
  }

  /** MarkRetry, and the time until the task is due. */
  lemma Rest(reach: Reach, x: Point, e: Envelope, at: int) returns (x': Point)
    requires At(reach, x) && Executes(x.s, e, Parked(at)) && x.s.now <= at < CLOCK_END
    ensures At(reach, x') && x' == x.(s := x'.s) && IsDelayed(x'.s, e, at) && x'.s.now == at
  {
    var x1 := Go(reach, x, MarkRetry(0, "boom"));
    assert x1.s.execs == map[];
    x' := Go(reach, x1, Step.Tick(at));
  }

  lemma Promote(reach: Reach, x: Point, e: Envelope) returns (x': Point)
    requires At(reach, x) && IsDelayed(x.s, e, x.s.now)
    ensures At(reach, x') && x' == x.(s := x'.s) && IsReady(x'.s, e.(enqueuedAt := x.s.now)) && x'.s.now == x.s.now
  {
    assert R.Due(x.s.redis, TYP, x.s.now) == {e};
    var x1 := Go(reach, x, PromoteRead(TYP, {e}));
    x' := Go(reach, x1, PromoteExec);
    assert R.Restamp({e}, x.s.now) == {e.(enqueuedAt := x.s.now)};
    assert x'.s.redis.delayed == map[];
  }

  /** A failed attempt, its wait of d nanoseconds, and the promotion. */
  lemma OneWait(reach: Reach, x: Point, e: Envelope, d: nat) returns (x': Point, e': Envelope)
    requires At(reach, x) && IsReady(x.s, e) && e.attempts + 1 < e.maxAttempts
    requires Drawable(e.attempts + 1, reach.base, reach.max, d) && x.s.now + d / 1_000_000 < CLOCK_END
    ensures At(reach, x') && IsReady(x'.s, e') && x'.s.now == x.s.now + d / 1_000_000
    ensures e'.attempts == e.attempts + 1 && e'.maxAttempts == e.maxAttempts
    ensures x'.waited == x.waited + d / 1_000_000 && x'.retries == x.retries + 1
  {
    var at := x.s.now + d / 1_000_000;
    var x1 := Lease(reach, x, e);
    var x2 := Fail(reach, x1, e);
    var x3 := PutOff(reach, x2, R.Bump(e), d);
    var x4 := Rest(reach, x3, R.Bump(e), at);
    x' := Promote(reach, x4, R.Bump(e));
    e' := R.Bump(e).(enqueuedAt := at);
  }

  // ---- Any waits ----

  /** The waits in milliseconds. */
  function Total(ds: seq<nat>): nat {
    if ds == [] then 0 else Total(ds[..|ds| - 1]) + ds[|ds| - 1] / 1_000_000
  }

  const CFG := Config(1, CLOCK_END, 1)

  lemma Submitted(reach: Reach, n: nat) returns (x: Point, e: Envelope)
    requires At(reach, Point(Init(CFG), 0, 0)) && n >= 1
    ensures At(reach, x) && x == Point(x.s, 0, 0) && IsReady(x.s, e) && x.s.now == 1 && e.attempts == 0 && e.maxAttempts == n
  {
    var x1 := Go(reach, Point(Init(CFG), 0, 0), Register(W, [TYP]));
    var x2 := Go(reach, x1, CreateRow(0, TASK, TYP, "{}", 5, n));
    x := Go(reach, x2, ApiEnqueue(0));
    e := Envelope(TASK, TYP, 5, 0, n, "{}", 1);
    assert x.s.apis == map[];
  }

  lemma {:induction false} WaitsFrom(reach: Reach, n: nat, ds: seq<nat>) returns (x: Point, e: Envelope)
    requires At(reach, Point(Init(CFG), 0, 0)) && |ds| < n && 1 + Total(ds) < CLOCK_END
    requires forall k | 0 <= k < |ds| :: Drawable(k + 1, reach.base, reach.max, ds[k])
    ensures At(reach, x) && IsReady(x.s, e) && x.s.now == 1 + Total(ds) && x == Point(x.s, Total(ds), |ds|)
    ensures e.attempts == |ds| && e.maxAttempts == n
    decreases |ds|
  {
    if ds == [] {
      x, e := Submitted(reach, n);
    } else {
      var k := |ds| - 1;
      var before, e0 := WaitsFrom(reach, n, ds[..k]);
      x, e := OneWait(reach, before, e0, ds[k]);
    }
  }

  // ---- Runs ----

  ghost predicate Steady(r: Run, base: nat, max: nat) { Valid(r) && FailStop(r) && BacksOff(r, base, max) }

  ghost function PointOf(r: Run): Point
    requires Valid(r)
  {
    Point(End(r), Waited(r, TASK), Retries(r, TASK))
  }

  ghost function Points(base: nat, max: nat): iset<Point> { iset r: Run | Steady(r, base, max) :: PointOf(r) }

  lemma GoneOn(r: Run, st: Step, base: nat, max: nat)
    requires Steady(r, base, max) && CanGo(End(r), st)
    ensures Steady(Then(r, st), base, max) && PointOf(Then(r, st)) == PointOf(r).(s := Apply(End(r), st))
  {}

  lemma IsDrawn(s: State, p: Pid, base: nat, max: nat, d: nat)
    requires CanPark(s, p, base, max, d)
    ensures Enabled(s, ParkOf(s, p, d)) && IsBackoff(s, ParkOf(s, p, d), base, max)
  {
    B.DelayDrawnIff(s.execs[p].env.attempts, base, max, d);
    var jitter: real :| 0.0 <= jitter < 1.0 && B.Delay(s.execs[p].env.attempts, base, max, jitter) == d;
    assert B.DelayMs(s.execs[p].env.attempts, base, max, jitter) == d / 1_000_000;
  }

  lemma ParkedOn(r: Run, p: Pid, base: nat, max: nat, d: nat)
    requires Steady(r, base, max) && CanPark(End(r), p, base, max, d)
    ensures var st := ParkOf(End(r), p, d); var x := PointOf(r);
            && Enabled(End(r), st) && Steady(Then(r, st), base, max)
            && PointOf(Then(r, st)) == Point(Apply(End(r), st), x.waited + d / 1_000_000, x.retries + 1)
  {
    IsDrawn(End(r), p, base, max, d);
  }

  lemma GoStays(x: Point, st: Step, base: nat, max: nat)
    requires x in Points(base, max) && CanGo(x.s, st)
    ensures x.(s := Apply(x.s, st)) in Points(base, max)
  {
    var r: Run :| Steady(r, base, max) && x == PointOf(r);
    GoneOn(r, st, base, max);
  }

  lemma ParkStays(x: Point, p: Pid, d: nat, base: nat, max: nat)
    requires x in Points(base, max) && CanPark(x.s, p, base, max, d)
    ensures Point(Apply(x.s, ParkOf(x.s, p, d)), x.waited + d / 1_000_000, x.retries + 1) in Points(base, max)
  {
    var r: Run :| Steady(r, base, max) && x == PointOf(r);
    ParkedOn(r, p, base, max, d);
  }

  lemma PointsClosed(base: nat, max: nat)
    ensures At(Reach(Points(base, max), base, max), Point(Init(CFG), 0, 0))
  {
    var reach := Reach(Points(base, max), base, max);
    assert Steady(Start(CFG), base, max) && PointOf(Start(CFG)) == Point(Init(CFG), 0, 0);
    forall x, st | x in reach.points && CanGo(x.s, st)
      ensures x.(s := Apply(x.s, st)) in reach.points
    {
      GoStays(x, st, base, max);
    }
    forall x, p, d: nat | x in reach.points && CanPark(x.s, p, base, max, d)
      ensures Point(Apply(x.s, ParkOf(x.s, p, d)), x.waited + d / 1_000_000, x.retries + 1) in reach.points
    {
      ParkStays(x, p, d, base, max);
    }
  }

  /** Every sequence of delays that `BackoffDelay` can return, one for each attempt but the last, is what
      some task waits for: with delays just below min(max, base*2^(k-1)) the sums of `BackoffBudget` are
      approached. */
  lemma AnyWaitsHappen(base: nat, max: nat, ds: seq<nat>) returns (r: Run)
    requires 1 + Total(ds) < 10_000_000_000_000
    requires forall k | 0 <= k < |ds| :: ds[k] == base || (base <= ds[k] < max && ds[k] < base * B.Pow2(k))
    ensures Valid(r) && FailStop(r) && BacksOff(r, base, max)
    ensures TASK in End(r).db.rows && End(r).db.rows[TASK].maxAttempts == |ds| + 1
    ensures Waited(r, TASK) == Total(ds) && Retries(r, TASK) == |ds|
  {
    PointsClosed(base, max);
    var x, e := WaitsFrom(Reach(Points(base, max), base, max), |ds| + 1, ds);
    r :| Steady(r, base, max) && x == PointOf(r);
  }
}
