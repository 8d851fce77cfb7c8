/** A worker never runs, nor leaves behind, more than WORKER_CONCURRENCY tasks. */
module Concurrency {
  import opened Types
  import opened Protocol
  import opened Tokens
  import opened Envelopes
  import opened Copies
  import opened Sums

  function PidsOf(s: State, w: WorkerId): set<Pid> {
    set p | p in s.execs && s.execs[p].worker == w
  }

  function RecordsUnder(s: State, w: WorkerId): set<(WorkerId, TaskId)> {
    set k | k in s.redis.inflight && k.0 == w
  }

  /** The slot that the main loop holds while it looks for work. */
  function PollSlot(x: Proc): nat { if x.poll.Some? then 1 else 0 }

  predicate SlotsBalance(s: State, w: WorkerId)
    requires w in s.procs
  {
    s.procs[w].sem == |PidsOf(s, w)| + PollSlot(s.procs[w]) && s.procs[w].sem <= s.cfg.concurrency
  }

  ghost predicate Bounded(s: State) {
    && (forall w | w in s.procs :: SlotsBalance(s, w))
    && (forall w :: |RecordsUnder(s, w)| <= s.cfg.concurrency)
  }

  lemma {:induction false} CardInjection<A, B>(a: set<A>, b: set<B>, f: A --> B)
    requires forall x | x in a :: f.requires(x) && f(x) in b
    requires forall x, y | x in a && y in a && f(x) == f(y) :: x == y
    ensures |a| <= |b|
    decreases a
  {
    if a != {} {
      var x :| x in a;
      CardInjection(a - {x}, b - {f(x)}, f);
    }
  }

  lemma FinishPids(s: State, p: Pid)
    requires CanFinish(s, p) && SlotsBalance(s, s.execs[p].worker)
    ensures SlotsBalance(Finish(s, p), s.execs[p].worker)
  {
    var w := s.execs[p].worker;
    assert PidsOf(Finish(s, p), w) == PidsOf(s, w) - {p};
  }

  lemma SlotsStepSame(s: State, st: Step, w: WorkerId)
    requires Wf(s) && Enabled(s, st) && w in s.procs && w in Apply(s, st).procs && SlotsBalance(s, w)
    requires !st.LeaseHit? && !st.MarkSucceeded? && !st.MarkDead? && !st.MarkRetry?
    ensures SlotsBalance(Apply(s, st), w)
  {
    assert PidsOf(Apply(s, st), w) == PidsOf(s, w);
  }

  lemma SlotsStepLease(s: State, st: Step, w: WorkerId)
    requires Enabled(s, st) && st.LeaseHit? && w in s.procs && SlotsBalance(s, w)
    ensures w in Apply(s, st).procs && SlotsBalance(Apply(s, st), w)
  {
    if w == st.worker {
      assert PidsOf(Apply(s, st), w) == PidsOf(s, w) + {st.pid};
    } else {
      assert PidsOf(Apply(s, st), w) == PidsOf(s, w);
    }
  }

  lemma SlotsStepFinish(s: State, st: Step, w: WorkerId)
    requires Enabled(s, st) && (st.MarkSucceeded? || st.MarkDead? || st.MarkRetry?) && w in s.procs && SlotsBalance(s, w)
    ensures w in Apply(s, st).procs && SlotsBalance(Apply(s, st), w)
  {
    if w == s.execs[st.pid].worker {
      FinishPids(s, st.pid);
      assert PidsOf(Apply(s, st), w) == PidsOf(Finish(s, st.pid), w);
    } else {
      assert PidsOf(Apply(s, st), w) == PidsOf(s, w);
    }
  }

  lemma SlotsStep(s: State, st: Step, w: WorkerId)
    requires Wf(s) && Bounded(s) && Enabled(s, st) && w in Apply(s, st).procs
    ensures SlotsBalance(Apply(s, st), w)
  {
    if w !in s.procs {
      assert PidsOf(Apply(s, st), w) == {};
    } else if st.LeaseHit? {
      SlotsStepLease(s, st, w);
    } else if st.MarkSucceeded? || st.MarkDead? || st.MarkRetry? {
      SlotsStepFinish(s, st, w);
    } else {
      SlotsStepSame(s, st, w);
    }
  }

  /** Each record of a live worker is backed by a goroutine of its own. */
  lemma RecordsBacked(s: State, w: WorkerId)
    requires Covered(s) && w in s.procs
    ensures |RecordsUnder(s, w)| <= |PidsOf(s, w)|
  {
    var cover := (k: (WorkerId, TaskId)) requires k.0 == w && k in s.redis.inflight => CoverOf(s, k.0, k.1);
    CardInjection(RecordsUnder(s, w), PidsOf(s, w), cover);
  }

  lemma BoundedStep(s: State, st: Step)
    requires Wf(s) && Covered(s) && Bounded(s) && Enabled(s, st)
    ensures Bounded(Apply(s, st))
  {
    var s' := Apply(s, st);
    CoveredStep(s, st);
    forall w | w in s'.procs
      ensures SlotsBalance(s', w)
    {
      SlotsStep(s, st, w);
    }
    forall w
      ensures |RecordsUnder(s', w)| <= s'.cfg.concurrency
    {
      if w in s'.procs {
        RecordsBacked(s', w);
      } else {
        CardMono(RecordsUnder(s', w), RecordsUnder(s, w));
      }
    }
  }

  lemma {:induction false} AlwaysBounded(r: Run)
    requires Valid(r)
    ensures Bounded(End(r))
  {
    if r.Then? {
      AlwaysBounded(r.prev);
      AlwaysSound(r.prev);
      AlwaysCovered(r.prev);
      BoundedStep(End(r.prev), r.step);
    } else {
      assert forall w :: RecordsUnder(End(r), w) == {};
    }
  }

  /** In every run: executions plus the main loop's slot stay within the limit, and so do the
      records in the hash, so that one crash orphans at most that many tasks. */
  lemma ConcurrencyBound(r: Run, w: WorkerId)
    requires Valid(r)
    ensures w in End(r).procs ==> |PidsOf(End(r), w)| + PollSlot(End(r).procs[w]) <= End(r).cfg.concurrency
    ensures |RecordsUnder(End(r), w)| <= End(r).cfg.concurrency
  {
    AlwaysBounded(r);
  }
}
