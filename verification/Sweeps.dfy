/** One pass of the coordinator over the worker list, as a part of a run: other processes take
    steps, and time passes, in between. */
module Sweeps {
  import opened Types
  import opened Protocol
  import opened Prefixes
  import R = Redis
  import P = Postgres

  /** Between a and b the coordinator found w alive, or reclaimed it up to closing its row. */
  ghost predicate Checked(a: Run, b: Run, w: WorkerId)
    requires Valid(b)
    decreases b
  {
    || R.IsAlive(End(b).redis, w, End(b).now)
    || (b.Then? && b.step.CloseWorker? && End(b.prev).coord.worker == w)
    || (b.Then? && Extends(a, b.prev) && Checked(a, b.prev, w))
  }

  /** The coordinator process does not crash between a and b. */
  ghost predicate CoordinatorRuns(a: Run, b: Run) {
    a == b || (b.Then? && !b.step.CoordCrash? && CoordinatorRuns(a, b.prev))
  }

  /** Every worker registered at a and not marked dead is checked. */
  ghost predicate IsSweep(a: Run, b: Run)
    requires Valid(b)
  {
    && CoordinatorRuns(a, b) && Valid(a) && End(a).coord.Idle? && End(b).coord.Idle?
    && forall w | w in End(a).db.workers && End(a).db.workers[w] != P.Gone :: Checked(a, b, w)
  }

  lemma {:induction false} RunsExtend(a: Run, b: Run)
    requires CoordinatorRuns(a, b)
    ensures Extends(a, b)
    decreases b
  {
    if a != b {
      RunsExtend(a, b.prev);
    }
  }

  lemma {:induction false} RunsSplit(a: Run, b: Run, c: Run)
    requires CoordinatorRuns(a, c) && Extends(a, b) && Extends(b, c)
    ensures CoordinatorRuns(a, b) && CoordinatorRuns(b, c)
    decreases c
  {
    if b != c {
      ExtendsTrans(a, b, c.prev);
      ExtendsLonger(a, c);
      RunsSplit(a, b, c.prev);
    }
  }

  function Length(r: Run): nat { if r.Start? then 0 else Length(r.prev) + 1 }

  lemma {:induction false} ExtendsLonger(a: Run, b: Run)
    requires b.Then? && Extends(a, b.prev)
    ensures Length(a) < Length(b) && a != b
    decreases b
  {
    if a != b.prev {
      ExtendsLonger(a, b.prev);
    }
  }

  lemma {:induction false} CheckedStays(a: Run, b: Run, c: Run, w: WorkerId)
    requires Valid(c) && Valid(b) && Extends(a, b) && Extends(b, c) && Checked(a, b, w)
    ensures Checked(a, c, w)
    decreases c
  {
    if b != c {
      ExtendsTrans(a, b, c.prev);
      CheckedStays(a, b, c.prev, w);
    }
  }

  lemma {:induction false} CheckedSince(a: Run, b: Run, c: Run, w: WorkerId)
    requires Valid(c) && Extends(a, b) && Extends(b, c) && Checked(b, c, w)
    ensures Checked(a, c, w)
    decreases c
  {
    if !R.IsAlive(End(c).redis, w, End(c).now) && !(c.step.CloseWorker? && End(c.prev).coord.worker == w) {
      ExtendsTrans(a, b, c.prev);
      CheckedSince(a, b, c.prev, w);
    }
  }

  lemma {:induction false} LoopStepsRun(a: Run, b: Run)
    requires Continues(a, b)
    ensures CoordinatorRuns(a, b) && Extends(a, b)
    decreases b
  {
    if a != b {
      LoopStepsRun(a, b.prev);
    }
  }
}
