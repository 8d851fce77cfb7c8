/** How one run goes on from another. */
module Prefixes {
  import opened Types
  import opened Protocol

  /** Run b starts with run a. */
  ghost predicate Extends(a: Run, b: Run) { a == b || (b.Then? && Extends(a, b.prev)) }

  lemma {:induction false} ExtendsTrans(a: Run, b: Run, c: Run)
    requires Extends(a, b) && Extends(b, c)
    ensures Extends(a, c)
    decreases c
  {
    if b != c {
      ExtendsTrans(a, b, c.prev);
    }
  }

  /** Two prefixes of one run: one of them is a prefix of the other. */
  lemma {:induction false} Comparable(a: Run, b: Run, r: Run)
    requires Extends(a, r) && Extends(b, r)
    ensures Extends(a, b) || Extends(b, a)
    decreases r
  {
    if a != r && b != r {
      Comparable(a, b, r.prev);
    }
  }

  lemma StepKeepsConfig(s: State, st: Step)
    requires Enabled(s, st)
    ensures s.now <= Apply(s, st).now && Apply(s, st).cfg == s.cfg
  {}

  /** A prefix was a run too, at an earlier time, and fail-stop if the whole run is. */
  lemma {:induction false} PrefixOf(a: Run, b: Run)
    requires Valid(b) && Extends(a, b)
    ensures Valid(a) && End(a).now <= End(b).now && End(a).cfg == End(b).cfg
    ensures FailStop(b) ==> FailStop(a)
    decreases b
  {
    if a != b {
      StepKeepsConfig(End(b.prev), b.step);
      PrefixOf(a, b.prev);
    }
  }

  /** One step more. */
  lemma StepEnds(r: Run, st: Step)
    requires Valid(r) && Enabled(End(r), st)
    ensures Valid(Then(r, st)) && End(Then(r, st)) == Apply(End(r), st) && Extends(r, Then(r, st))
    ensures IsLoopStep(st) ==> Continues(r, Then(r, st))
  {}

  /** The steps of the main loop of a worker and of the coordinator. */
  predicate IsLoopStep(st: Step) {
    || st.Acquire? || st.LeaseHit? || st.LeaseMiss? || st.Release?
    || st.PromoteRead? || st.PromoteExec? || st.CheckAlive? || st.HGetAll? || st.Del?
    || st.Requeue? || st.SweepDead? || st.SweepMarkDead? || st.ResetOrphans? || st.CloseWorker?
  }

  /** Run b goes on from run a with such steps only. */
  ghost predicate Continues(a: Run, b: Run) {
    a == b || (b.Then? && IsLoopStep(b.step) && Continues(a, b.prev))
  }

  lemma {:induction false} ContinuesTrans(a: Run, b: Run, c: Run)
    requires Continues(a, b) && Continues(b, c)
    ensures Continues(a, c)
    decreases c
  {
    if b != c {
      ContinuesTrans(a, b, c.prev);
    }
  }

  /** When the process of w crashed, if it did. */
  ghost function CrashTime(r: Run, w: WorkerId): Option<int>
    requires Valid(r)
  {
    if r.Start? then None
    else if r.step == Crash(w) then Some(End(r.prev).now)
    else CrashTime(r.prev, w)
  }

  lemma LoopStepFrame(s: State, st: Step)
    requires Enabled(s, st) && IsLoopStep(st)
    ensures Apply(s, st).now == s.now && Apply(s, st).procs.Keys == s.procs.Keys
    ensures Apply(s, st).redis.heartbeats == s.redis.heartbeats && Apply(s, st).cfg == s.cfg
  {}

  /** Such steps take no time, start no handler, redrive nothing, crash nobody, and keep a run fail-stop. */
  lemma {:induction false} LoopStepsKeep(a: Run, b: Run, id: TaskId, w: WorkerId)
    requires Valid(b) && Continues(a, b)
    ensures Extends(a, b) && Valid(a) && (FailStop(a) ==> FailStop(b))
    ensures Starts(b, id) == Starts(a, id) && Redrives(b, id) == Redrives(a, id) && CrashTime(b, w) == CrashTime(a, w)
    ensures End(b).now == End(a).now && End(b).procs.Keys == End(a).procs.Keys
    ensures End(b).redis.heartbeats == End(a).redis.heartbeats && End(b).cfg == End(a).cfg
    decreases b
  {
    if a != b {
      LoopStepFrame(End(b.prev), b.step);
      LoopStepsKeep(a, b.prev, id, w);
    }
  }
}
