/** The recovery bound is exact: a run that uses all of it. */
module Deadline {
  import opened Protocol
  import opened Prefixes
  import opened Sweeps
  import opened Reclaim
  import opened Races
  import opened Recovery
  import R = Redis
  import P = Postgres

  const TASK := Env(5, 0, 1)

  /** The state of the system when the worker has crashed with the task in its hash, at a later time. */
  ghost predicate Abandoned(s: State, ttl: int) {
    && s.cfg == Config(2, ttl, 1) && s.procs == map[] && s.execs == map[] && s.apis == map[] && s.coord.Idle?
    && s.redis == R.Data(map[], map[], map[(W, 5) := TASK], [], map[W := 1 + ttl])
    && s.db.workers == map[W := P.Alive]
  }

  /** The worker registers, which is its last beat, and leases the task, all at time 1. */
  lemma TakesTask(ttl: int) returns (r: Run)
    requires ttl > 0
    ensures Valid(r) && FailStop(r) && End(r).now == 1 && End(r).procs.Keys == {W}
    ensures Abandoned(End(r).(procs := map[], execs := map[]), ttl) && End(r).execs == map[0 := Exec(W, TASK, Leased)]
  {
    var r0 := Extend(Start(Config(2, ttl, 1)), Register(W, [TYP]));
    r := SubmitAndLease(r0, 5, 0);
    assert End(r).execs == map[0 := Exec(W, TASK, Leased)] && End(r).procs.Keys == {W};
  }

  /** Then it crashes; a millisecond before a TTL has passed it still counts as alive. */
  lemma CrashWithTask(ttl: int) returns (r: Run)
    requires ttl > 0
    ensures Valid(r) && FailStop(r) && r.Then? && r.step == Crash(W) && Abandoned(End(r), ttl) && End(r).now == 1
    ensures R.IsAlive(End(r).redis, W, End(r).now + ttl - 1)
  {
    var r0 := TakesTask(ttl);
    r := Then(r0, Crash(W));
    CrashLeavesNothing(End(r0));
  }

  lemma CrashLeavesNothing(s: State)
    requires s.procs.Keys == {W} && s.execs == map[0 := Exec(W, TASK, Leased)]
    ensures Apply(s, Crash(W)).procs == map[] && Apply(s, Crash(W)).execs == map[]
  {}

  function Origin(r: Run): Run { if r.Start? then r else Origin(r.prev) }

  lemma {:induction false} FromOrigin(r: Run)
    requires Valid(r)
    ensures Extends(Origin(r), r) && Valid(Origin(r)) && End(Origin(r)) == Init(End(r).cfg)
  {
    if r.Then? {
      FromOrigin(r.prev);
      StepKeepsConfig(End(r.prev), r.step);
    }
  }

  /** After the crash the task has not been returned at any moment before t. */
  ghost predicate Unreturned(crash: Run, r: Run, t: int) {
    && Valid(crash) && Valid(r) && FailStop(r) && End(r).cfg == End(crash).cfg
    && CoordinatorRuns(crash, r) && !ReturnedBefore(crash, r, TASK, t)
  }

  lemma Later(crash: Run, r: Run, st: Step, t: int) returns (r': Run)
    requires Unreturned(crash, r, t) && Enabled(End(r), st) && End(r).procs == map[] && !st.CoordCrash?
    requires Apply(End(r), st).now >= t || !Returned(Apply(End(r), st).redis, TASK, Apply(End(r), st).now)
    ensures r' == Then(r, st) && Unreturned(crash, r', t) && End(r') == Apply(End(r), st)
  {
    r' := Then(r, st);
  }

  /** A sweep over in no time finds everyone alive. */
  lemma AllWell(r: Run, ttl: int)
    requires Valid(r) && Abandoned(End(r), ttl) && End(r).now <= ttl
    ensures IsSweep(r, r)
  {}

  lemma LongerRun(sweeps: seq<Sweep>, r: Run, r': Run, interval: nat, length: nat, x: Sweep)
    requires Regular(sweeps, r, interval, length) && Extends(r, r') && sweeps != []
    requires SweepIn(x, r', length) && Follows(sweeps[|sweeps| - 1], x, interval)
    ensures Regular(sweeps + [x], r', interval, length)
  {
    forall i | 0 <= i < |sweeps|
      ensures SweepIn(sweeps[i], r', length)
    {
      assert SweepIn(sweeps[i], r, length);
      ExtendsTrans(sweeps[i].end, r, r');
    }
    forall i | 0 < i < |sweeps| + 1
      ensures Follows((sweeps + [x])[i - 1], (sweeps + [x])[i], interval)
    {
      assert i < |sweeps| ==> Follows(sweeps[i - 1], sweeps[i], interval);
    }
  }

  /** The coordinator sweeps in vain until the last moment at which the key is still there. */
  lemma {:induction false} SweepInVain(crash: Run, r: Run, sweeps: seq<Sweep>, ttl: int, interval: nat, length: nat, t: int)
    returns (r': Run, sweeps': seq<Sweep>)
    requires Unreturned(crash, r, t) && Abandoned(End(r), ttl) && End(r).now <= ttl < CLOCK_END && interval > 0
    requires sweeps != [] && Regular(sweeps, r, interval, length)
    requires var last := sweeps[|sweeps| - 1]; Valid(last.begin) && End(last.begin).now == End(r).now
    ensures Unreturned(crash, r', t) && Abandoned(End(r'), ttl) && End(r').now == ttl
    ensures sweeps' != [] && sweeps'[0] == sweeps[0] && Regular(sweeps', r', interval, length)
    ensures var last := sweeps'[|sweeps'| - 1]; Valid(last.begin) && End(last.begin).now == ttl
    decreases ttl - End(r).now
  {
    if End(r).now == ttl {
      r', sweeps' := r, sweeps;
    } else {
      var next := if End(r).now + interval < ttl then End(r).now + interval else ttl;
      var r1 := Later(crash, r, Step.Tick(next), t);
      AllWell(r1, ttl);
      var last := sweeps[|sweeps| - 1];
      assert SweepIn(last, r, length);
      ExtendsTrans(last.end, r, r1);
      LongerRun(sweeps, r, r1, interval, length, Sweep(r1, r1));
      r', sweeps' := SweepInVain(crash, r1, sweeps + [Sweep(r1, r1)], ttl, interval, length, t);
    }
  }

  lemma OnlyHash(d: R.Data)
    requires d.inflight == map[(W, 5) := TASK]
    ensures R.Hash(d, W) == {TASK}
  {
    assert (W, 5) in d.inflight;
  }

  /** The coordinator finds the key gone and reads the hash. */
  lemma Reads(crash: Run, r: Run, ttl: int, t: int) returns (r': Run)
    requires Unreturned(crash, r, t) && Abandoned(End(r), ttl) && t <= End(r).now && 1 + ttl <= End(r).now
    ensures Unreturned(crash, r', t) && Continues(r, r') && End(r') == End(r).(coord := Snapshot(W, {TASK}))
  {
    var r1 := Later(crash, r, CheckAlive(W), t);
    assert Continues(r, r1);
    OnlyHash(End(r1).redis);
    r' := Later(crash, r1, HGetAll, t);
  }

  /** It empties the hash. */
  lemma Suspects(crash: Run, r: Run, ttl: int, t: int) returns (r': Run)
    requires Unreturned(crash, r, t) && Abandoned(End(r), ttl) && t <= End(r).now && 1 + ttl <= End(r).now
    ensures Unreturned(crash, r', t) && Continues(r, r')
    ensures End(r') == End(r).(redis := End(r).redis.(inflight := map[]), coord := Sweeping(W, {TASK}))
  {
    var r1 := Reads(crash, r, ttl, t);
    r' := Later(crash, r1, Del, t);
    assert End(r').redis.inflight == map[];
  }

  lemma Closes(crash: Run, r: Run, t: int) returns (r': Run)
    requires Unreturned(crash, r, t) && t <= End(r).now && End(r).procs == map[]
    requires End(r).coord == Sweeping(W, {})
    ensures Unreturned(crash, r', t) && Continues(r, r') && Checked(r, r', W)
    ensures End(r').coord.Idle? && End(r').now == End(r).now
  {
    var r1 := Later(crash, r, Step.ResetOrphans, t);
    assert Continues(r, r1);
    r' := Later(crash, r1, CloseWorker, t);
  }

  /** It requeues the task and closes the worker. */
  lemma HandsOn(crash: Run, r: Run, t: int) returns (r': Run)
    requires Unreturned(crash, r, t) && t <= End(r).now && End(r).procs == map[]
    requires End(r).coord == Sweeping(W, {TASK})
    ensures Unreturned(crash, r', t) && Continues(r, r') && Checked(r, r', W)
    ensures End(r').coord.Idle? && End(r').now == End(r).now
  {
    var r1 := Later(crash, r, Step.Requeue(TASK), t);
    assert {TASK} - {TASK} == {};
    r' := Closes(crash, r1, t);
    Joined(r, r1, r');
  }

  lemma Joined(a: Run, b: Run, c: Run)
    requires b.Then? && b.prev == a && IsLoopStep(b.step) && Valid(c) && Continues(b, c) && Checked(b, c, W)
    ensures Continues(a, c) && Checked(a, c, W)
  {
    assert Continues(a, b);
    ContinuesTrans(a, b, c);
    LoopStepsRun(b, c);
    assert Extends(a, b);
    CheckedSince(a, b, c, W);
  }

  lemma Reclaims(crash: Run, r: Run, ttl: int, t: int) returns (r': Run)
    requires Unreturned(crash, r, t) && Abandoned(End(r), ttl) && t <= End(r).now && 1 + ttl <= End(r).now
    ensures Unreturned(crash, r', t) && Continues(r, r') && Checked(r, r', W)
    ensures End(r').coord.Idle? && End(r').now == End(r).now
  {
    var r1 := Suspects(crash, r, ttl, t);
    r' := HandsOn(crash, r1, t);
    ContinuesTrans(r, r1, r');
    LoopStepsRun(r, r1);
    LoopStepsRun(r1, r');
    CheckedSince(r, r1, r', W);
  }

  /** One sweep that takes `length` milliseconds and returns the task at its end. */
  lemma SlowSweep(crash: Run, r: Run, ttl: int, length: nat, t: int) returns (r': Run)
    requires Unreturned(crash, r, t) && Abandoned(End(r), ttl) && 1 + ttl <= End(r).now
    requires t == End(r).now + length < CLOCK_END
    ensures Unreturned(crash, r', t) && IsSweep(r, r') && End(r').now == t
  {
    var r1 := Later(crash, r, Step.Tick(t), t);
    r' := Reclaims(crash, r1, ttl, t);
    SweepFromTick(r, r1, r', ttl);
  }

  lemma SweepFromTick(r: Run, r1: Run, r': Run, ttl: int)
    requires Valid(r') && Valid(r) && Abandoned(End(r), ttl) && End(r').coord.Idle?
    requires r1.Then? && r1.prev == r && r1.step.Tick? && Valid(r1) && Continues(r1, r') && Checked(r1, r', W)
    ensures IsSweep(r, r')
  {
    LoopStepsRun(r1, r');
    assert CoordinatorRuns(r, r1);
    RunsTrans(r, r1, r');
    CheckedSince(r, r1, r', W);
  }

  lemma {:induction false} RunsTrans(a: Run, b: Run, c: Run)
    requires CoordinatorRuns(a, b) && CoordinatorRuns(b, c)
    ensures CoordinatorRuns(a, c)
    decreases c
  {
    if b != c {
      RunsTrans(a, b, c.prev);
    }
  }

  /** After the crash: vain sweeps until the key is about to expire, then the time of the next one. */
  lemma VainUntilNext(crash: Run, ttl: int, interval: nat, length: nat) returns (r: Run, vain: seq<Sweep>)
    requires 0 < ttl && 0 < interval && ttl + interval + length < CLOCK_END
    requires Unreturned(crash, crash, ttl + interval + length) && Abandoned(End(crash), ttl) && End(crash).now == 1
    requires Valid(Origin(crash)) && End(Origin(crash)) == Init(End(crash).cfg) && Extends(Origin(crash), crash)
    ensures Unreturned(crash, r, ttl + interval + length) && Abandoned(End(r), ttl) && End(r).now == ttl + interval && r.Then?
    ensures vain != [] && vain[0] == Sweep(Origin(crash), Origin(crash)) && Regular(vain, r.prev, interval, length)
    ensures var last := vain[|vain| - 1]; Valid(last.begin) && End(last.begin).now == ttl
  {
    var t := ttl + interval + length;
    var first := [Sweep(Origin(crash), Origin(crash))];
    FirstSweep(crash, ttl, interval, length);
    var r1;
    r1, vain := SweepInVain(crash, crash, first, ttl, interval, length, t);
    r := Later(crash, r1, Step.Tick(ttl + interval), t);
  }

  lemma FirstSweep(r: Run, ttl: int, interval: nat, length: nat)
    requires Valid(Origin(r)) && Extends(Origin(r), r) && End(Origin(r)) == Init(Config(2, ttl, 1))
    ensures Regular([Sweep(Origin(r), Origin(r))], r, interval, length)
  {}

  /** That one is slow. */
  lemma VainThenSlow(crash: Run, ttl: int, interval: nat, length: nat) returns (r: Run, sweeps: seq<Sweep>)
    requires 0 < ttl && 0 < interval && ttl + interval + length < CLOCK_END
    requires Unreturned(crash, crash, ttl + interval + length) && Abandoned(End(crash), ttl) && End(crash).now == 1
    requires Valid(Origin(crash)) && End(Origin(crash)) == Init(End(crash).cfg) && Extends(Origin(crash), crash)
    ensures Unreturned(crash, r, ttl + interval + length)
    ensures sweeps != [] && sweeps[0] == Sweep(Origin(crash), Origin(crash)) && Regular(sweeps, r, interval, length)
    ensures var last := sweeps[|sweeps| - 1]; Valid(last.begin) && End(last.begin).now == ttl + interval
  {
    var r1, vain := VainUntilNext(crash, ttl, interval, length);
    r := SlowSweep(crash, r1, ttl, length, ttl + interval + length);
    sweeps := LastSweep(r1.prev, r1, r, vain, interval, length);
  }

  lemma LastSweep(r1: Run, r2: Run, r: Run, vain: seq<Sweep>, interval: nat, length: nat) returns (sweeps: seq<Sweep>)
    requires Valid(r) && Valid(r1) && Valid(r2) && r2.Then? && r2.prev == r1 && IsSweep(r2, r) && End(r).now == End(r2).now + length
    requires vain != [] && Regular(vain, r1, interval, length)
    requires var last := vain[|vain| - 1]; Valid(last.begin) && End(r2).now <= End(last.begin).now + interval
    ensures sweeps == vain + [Sweep(r2, r)] && sweeps[0] == vain[0] && Regular(sweeps, r, interval, length)
  {
    sweeps := vain + [Sweep(r2, r)];
    var last := vain[|vain| - 1];
    assert SweepIn(last, r1, length);
    RunsExtend(r2, r);
    assert Extends(r1, r2);
    ExtendsTrans(last.end, r1, r2);
    ExtendsTrans(r1, r2, r);
    LongerRun(vain, r1, r, interval, length, Sweep(r2, r));
  }

  /** A worker beats, takes the task and crashes; a sweep just before the key expires finds it alive,
      and the next one, an interval later, takes its time: the task is not back before
      ttl + interval + length - 1. */
  lemma WorstCase(ttl: int, interval: nat, length: nat) returns (x: Case)
    requires 0 < ttl && 0 < interval && ttl + interval + length < CLOCK_END
    ensures Setting(x, ttl, interval, length)
    ensures !RecoveredWithin(x, ttl + interval + length - 1)
  {
    var crash := CrashWithTask(ttl);
    FromOrigin(crash);
    NotYet(crash, ttl, ttl + interval + length);
    var r, sweeps := VainThenSlow(crash, ttl, interval, length);
    x := MakeCase(crash, r, sweeps, ttl, interval, length);
  }

  lemma MakeCase(crash: Run, r: Run, sweeps: seq<Sweep>, ttl: int, interval: nat, length: nat) returns (x: Case)
    requires Valid(crash) && crash.Then? && crash.step == Crash(W) && Abandoned(End(crash), ttl) && End(crash).now == 1
    requires Unreturned(crash, r, ttl + interval + length) && interval > 0
    requires sweeps != [] && Regular(sweeps, r, interval, length) && Extends(sweeps[0].begin, crash)
    requires var last := sweeps[|sweeps| - 1]; Valid(last.begin) && End(last.begin).now == ttl + interval
    ensures Setting(x, ttl, interval, length) && !RecoveredWithin(x, ttl + interval + length - 1)
  {
    x := Case(crash, r, sweeps, W, TASK);
  }

  lemma NotYet(crash: Run, ttl: int, t: int)
    requires Valid(crash) && FailStop(crash) && crash.Then? && Abandoned(End(crash), ttl)
    ensures Unreturned(crash, crash, t)
  {
    if Extends(crash, crash.prev) {
      ExtendsLonger(crash, crash);
    }
  }

  /** The task is ready again or in the DLQ less than `bound` milliseconds after the crash. */
  ghost predicate RecoveredWithin(x: Case, bound: int) {
    Valid(x.crash) && Valid(x.run) && var back := ReturnedBefore(x.crash, x.run, x.env, End(x.crash).now + bound); back
  }

  lemma LongerBound(x: Case, bound: int, longer: int)
    requires RecoveredWithin(x, bound) && bound <= longer
    ensures RecoveredWithin(x, longer)
  {
    ReturnedLater(x.crash, x.run, x.env, End(x.crash).now + bound, End(x.crash).now + longer);
  }

  lemma ShorterBound(x: Case, bound: int, longer: int)
    requires !RecoveredWithin(x, longer) && bound <= longer
    ensures !RecoveredWithin(x, bound)
  {
    if RecoveredWithin(x, bound) {
      LongerBound(x, bound, longer);
    }
  }

  lemma AlwaysWithin(x: Case, ttl: int, interval: nat, length: nat)
    requires Setting(x, ttl, interval, length)
    ensures RecoveredWithin(x, ttl + interval + length)
  {
    var _ := RecoveredInTime(x, ttl, interval, length);
  }

  lemma BoundSuffices(x: Case, ttl: int, interval: nat, length: nat, bound: int)
    requires Setting(x, ttl, interval, length) && ttl + interval + length <= bound
    ensures RecoveredWithin(x, bound)
  {
    AlwaysWithin(x, ttl, interval, length);
    LongerBound(x, ttl + interval + length, bound);
  }

  lemma BoundNeeded(ttl: int, interval: nat, length: nat, bound: int) returns (x: Case)
    requires 0 < ttl && 0 < interval && bound < ttl + interval + length < CLOCK_END
    ensures Setting(x, ttl, interval, length) && !RecoveredWithin(x, bound)
  {
    x := WorstCase(ttl, interval, length);
    ShorterBound(x, bound, ttl + interval + length - 1);
  }

  /** All crashes are recovered in less than `bound` milliseconds if and only if the configured
      HeartbeatTTL + CoordinatorSweepInterval, plus the length of a sweep, is at most `bound`. */
  lemma RecoveryBoundIsExact(ttl: int, interval: nat, length: nat, bound: int)
    requires 0 < ttl && 0 < interval && ttl + interval + length < CLOCK_END
    ensures (forall x | Setting(x, ttl, interval, length) :: RecoveredWithin(x, bound)) <==> ttl + interval + length <= bound
  {
    if ttl + interval + length <= bound {
      forall x | Setting(x, ttl, interval, length)
        ensures RecoveredWithin(x, bound)
      {
        BoundSuffices(x, ttl, interval, length, bound);
      }
    } else {
      var x := BoundNeeded(ttl, interval, length, bound);
    }
  }

  /** The documented target of 5 seconds is missed with the default TTL of 9 and interval of 1. */
  lemma FiveSecondsAreMissed() returns (x: Case)
    ensures Setting(x, 9000, 1000, 0) && !RecoveredWithin(x, 5000)
  {
    x := BoundNeeded(9000, 1000, 0, 5000);
  }
}
