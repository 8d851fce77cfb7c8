/** How soon the tasks of a crashed worker are recovered, exactly. */
module Recovery {
  import opened Types
  import opened Protocol
  import opened Prefixes
  import opened Sweeps
  import opened Reclaim
  import opened Tokens
  import opened Envelopes
  import opened Locations
  import opened Detection
  import opened Guarantees
  import R = Redis
  import P = Postgres

  // ---- What happens to a record after the crash ----

  /** The record is in the hash, or in the hands of the coordinator that emptied it. */
  predicate Pending(s: State, w: WorkerId, e: Envelope) {
    || ((w, e.id) in s.redis.inflight && s.redis.inflight[(w, e.id)] == e)
    || ((s.coord.Sweeping? || s.coord.Interring?) && s.coord.worker == w && e in s.coord.envs)
  }

  lemma PendingByExec(s: State, st: Step, w: WorkerId, e: Envelope)
    requires Wf(s) && Enabled(s, st) && ByExec(st) && w !in s.procs && Pending(s, w, e)
    ensures Pending(Apply(s, st), w, e)
  {}

  lemma PendingStep(s: State, st: Step, w: WorkerId, e: Envelope)
    requires Wf(s) && SweepsMatch(s) && Enabled(s, st) && !ByExec(st) && !st.CoordCrash? && w !in s.procs && Pending(s, w, e)
    ensures Pending(Apply(s, st), w, e) || Returned(Apply(s, st).redis, e, Apply(s, st).now)
  {
    if st.Del? && s.coord.worker == w && (w, e.id) in s.redis.inflight {
      assert s.redis.inflight[(w, e.id)] in R.Hash(s.redis, w);
    }
  }

  /** At some moment between a and b, before time t, the envelope was ready again or in the DLQ. */
  ghost predicate ReturnedBefore(a: Run, b: Run, e: Envelope, t: int)
    requires Valid(b)
    decreases b
  {
    || (End(b).now < t && Returned(End(b).redis, e, End(b).now))
    || (b.Then? && Extends(a, b.prev) && ReturnedBefore(a, b.prev, e, t))
  }

  lemma {:induction false} ReturnedStays(a: Run, b: Run, c: Run, e: Envelope, t: int)
    requires Valid(c) && Valid(b) && Extends(a, b) && Extends(b, c) && ReturnedBefore(a, b, e, t)
    ensures ReturnedBefore(a, c, e, t)
    decreases c
  {
    if b != c {
      ExtendsTrans(a, b, c.prev);
      ReturnedStays(a, b, c.prev, e, t);
    }
  }

  lemma {:induction false} ReturnedLater(a: Run, b: Run, e: Envelope, t: int, t': int)
    requires Valid(b) && t <= t' && ReturnedBefore(a, b, e, t)
    ensures ReturnedBefore(a, b, e, t')
    decreases b
  {
    if b.Then? && Extends(a, b.prev) && ReturnedBefore(a, b.prev, e, t) {
      ReturnedLater(a, b.prev, e, t, t');
    }
  }

  /** From the crash on, while the coordinator runs, a record is pending until it is returned. */
  lemma {:induction false} PendingOrReturned(crash: Run, b: Run, w: WorkerId, e: Envelope, t: int)
    requires Valid(b) && FailStop(b) && CoordinatorRuns(crash, b) && End(b).now < t
    requires Valid(crash) && CrashTime(crash, w).Some? && Pending(End(crash), w, e)
    ensures Pending(End(b), w, e) || ReturnedBefore(crash, b, e, t)
    decreases b
  {
    if b != crash {
      var s, st := End(b.prev), b.step;
      StepKeepsConfig(s, st);
      PendingOrReturned(crash, b.prev, w, e, t);
      RunsExtend(crash, b.prev);
      CrashTimeStays(crash, b.prev, w);
      CrashedStaysSilent(b.prev, w);
      AlwaysInv(b.prev);
      if Pending(s, w, e) {
        if ByExec(st) {
          PendingByExec(s, st, w, e);
        } else {
          PendingStep(s, st, w, e);
        }
      }
    }
  }

  lemma DeadHashEmpty(r: Run, w: WorkerId)
    requires Valid(r) && FailStop(r) && w in End(r).db.workers && End(r).db.workers[w] == P.Gone
    ensures HashEmpty(End(r), w)
  {
    DeadWorkerHasNoRecords(r, w);
    assert forall k | k in End(r).redis.inflight && k.0 == w :: End(r).redis.inflight[k] in R.Hash(End(r).redis, w);
  }

  /** When the coordinator closes w, nothing of w is pending any more. */
  lemma ClosingHoldsNothing(r: Run, w: WorkerId, e: Envelope)
    requires Valid(r) && FailStop(r) && End(r).coord == Closing(w)
    ensures !Pending(End(r), w, e)
  {
    AlwaysInv(r);
  }

  lemma ClosedReturns(crash: Run, b: Run, w: WorkerId, e: Envelope, t: int)
    requires Valid(b) && FailStop(b) && b.Then? && b.step.CloseWorker? && End(b.prev).coord.worker == w
    requires CoordinatorRuns(crash, b.prev) && End(b).now < t
    requires Valid(crash) && CrashTime(crash, w).Some? && Pending(End(crash), w, e) && w in End(b.prev).db.workers
    ensures ReturnedBefore(crash, b, e, t)
    ensures w in End(b).db.workers && End(b).db.workers[w] == P.Gone
  {
    PendingOrReturned(crash, b.prev, w, e, t);
    ClosingHoldsNothing(b.prev, w, e);
    RunsExtend(crash, b.prev);
  }

  /** Once the check of w is complete, its records have been returned and its row is closed. */
  lemma {:induction false} CheckedReturns(crash: Run, a: Run, b: Run, w: WorkerId, e: Envelope, t: int)
    requires Valid(b) && FailStop(b) && CoordinatorRuns(crash, b) && Extends(crash, a) && Extends(a, b) && End(b).now < t
    requires Valid(crash) && CrashTime(crash, w).Some? && Pending(End(crash), w, e)
    requires Valid(a) && CrashTime(crash, w).value + End(a).cfg.ttl <= End(a).now && Checked(a, b, w)
    requires w in End(a).db.workers && End(a).db.workers[w] != P.Gone
    ensures ReturnedBefore(crash, b, e, t)
    ensures w in End(b).db.workers && End(b).db.workers[w] == P.Gone
    decreases b
  {
    SilentSince(crash, a, b, w);
    assert b.Then? && Extends(a, b.prev) by {
      assert a == b ==> !b.step.CloseWorker? || End(b.prev).coord.worker != w;
    }
    ExtendsTrans(crash, a, b.prev);
    ExtendsLonger(crash, b);
    StepKeepsConfig(End(b.prev), b.step);
    SilentSince(crash, a, b.prev, w);
    if b.step.CloseWorker? && End(b.prev).coord.worker == w {
      ClosedReturns(crash, b, w, e, t);
    } else {
      CheckedReturns(crash, a, b.prev, w, e, t);
      GoneStays(b.prev, b.step, w);
    }
  }

  /** A TTL after the crash the worker is registered, but neither running nor alive. */
  lemma SilentSince(crash: Run, a: Run, b: Run, w: WorkerId)
    requires Valid(b) && Extends(crash, a) && Extends(a, b) && Valid(crash) && CrashTime(crash, w).Some?
    requires Valid(a) && CrashTime(crash, w).value + End(a).cfg.ttl <= End(a).now
    ensures w !in End(b).procs && w in End(b).db.workers && !R.IsAlive(End(b).redis, w, End(b).now)
  {
    ExtendsTrans(crash, a, b);
    CrashTimeStays(crash, b, w);
    CrashedStaysSilent(b, w);
    PrefixOf(a, b);
  }

  lemma GoneStays(r: Run, st: Step, w: WorkerId)
    requires Valid(r) && Enabled(End(r), st) && w !in End(r).procs && w in End(r).db.workers && End(r).db.workers[w] == P.Gone
    ensures w in Apply(End(r), st).db.workers && Apply(End(r), st).db.workers[w] == P.Gone
  {}

  lemma {:induction false} GoneForGood(crash: Run, a: Run, b: Run, w: WorkerId)
    requires Valid(b) && Extends(crash, a) && Extends(a, b) && Valid(crash) && CrashTime(crash, w).Some?
    requires Valid(a) && w in End(a).db.workers && End(a).db.workers[w] == P.Gone
    ensures w in End(b).db.workers && End(b).db.workers[w] == P.Gone
    decreases b
  {
    if a != b {
      ExtendsTrans(crash, a, b.prev);
      CrashTimeStays(crash, b.prev, w);
      CrashedStaysSilent(b.prev, w);
      GoneForGood(crash, a, b.prev, w);
      GoneStays(b.prev, b.step, w);
    }
  }

  /** A sweep that begins a TTL after the crash, or later, leaves nothing of the worker behind. */
  lemma SweepRecovers(crash: Run, a: Run, b: Run, w: WorkerId, e: Envelope, t: int)
    requires Valid(b) && FailStop(b) && CoordinatorRuns(crash, b) && Extends(crash, a) && IsSweep(a, b) && End(b).now < t
    requires Valid(crash) && CrashTime(crash, w).Some? && Pending(End(crash), w, e)
    requires CrashTime(crash, w).value + End(a).cfg.ttl <= End(a).now
    ensures ReturnedBefore(crash, b, e, t) && HashEmpty(End(b), w)
  {
    RunsExtend(a, b);
    PrefixOf(a, b);
    CrashTimeStays(crash, a, w);
    CrashedStaysSilent(a, w);
    if End(a).db.workers[w] == P.Gone {
      RunsSplit(crash, a, b);
      PendingOrReturned(crash, a, w, e, t);
      DeadHashEmpty(a, w);
      ReturnedStays(crash, a, b, e, t);
      GoneForGood(crash, a, b, w);
    } else {
      CheckedReturns(crash, a, b, w, e, t);
    }
    DeadHashEmpty(b, w);
  }

  lemma SweepReturns(crash: Run, a: Run, b: Run, r: Run, w: WorkerId, e: Envelope, t: int)
    requires Valid(b) && FailStop(b) && CoordinatorRuns(crash, b) && Extends(crash, a) && IsSweep(a, b) && End(b).now < t
    requires Valid(crash) && CrashTime(crash, w).Some? && Pending(End(crash), w, e)
    requires CrashTime(crash, w).value + End(a).cfg.ttl <= End(a).now && Valid(r) && Extends(b, r)
    ensures ReturnedBefore(crash, r, e, t) && HashEmpty(End(b), w)
  {
    SweepRecovers(crash, a, b, w, e, t);
    RunsExtend(crash, b);
    ReturnedStays(crash, b, r, e, t);
  }

  // ---- Sweeps at regular intervals ----

  datatype Sweep = Sweep(begin: Run, end: Run)

  /** A crash in a run, with the sweeps of the coordinator and a record that the worker held. */
  datatype Case = Case(crash: Run, run: Run, sweeps: seq<Sweep>, worker: WorkerId, env: Envelope)

  /** A sweep within the run, of at most `length` milliseconds. */
  ghost predicate SweepIn(x: Sweep, r: Run, length: nat) {
    && Valid(x.end) && Extends(x.end, r) && IsSweep(x.begin, x.end) && End(x.end).now <= End(x.begin).now + length
  }

  /** One after the other, each beginning at most `interval` after the one before. */
  ghost predicate Follows(x: Sweep, y: Sweep, interval: nat) {
    Extends(x.end, y.begin) && Valid(x.begin) && Valid(y.begin) && End(y.begin).now <= End(x.begin).now + interval
  }

  ghost predicate Regular(sweeps: seq<Sweep>, r: Run, interval: nat, length: nat) {
    && (forall i | 0 <= i < |sweeps| :: SweepIn(sweeps[i], r, length))
    && (forall i | 0 < i < |sweeps| :: Follows(sweeps[i - 1], sweeps[i], interval))
  }

  /** The worker holds the record when it crashes; the coordinator has been sweeping since before the
      crash, and goes on until a TTL after it. */
  ghost predicate Setting(x: Case, ttl: int, interval: nat, length: nat) {
    && Valid(x.run) && FailStop(x.run) && End(x.run).cfg.ttl == ttl && CoordinatorRuns(x.crash, x.run)
    && Valid(x.crash) && x.crash.Then? && x.crash.step == Crash(x.worker)
    && (x.worker, x.env.id) in End(x.crash).redis.inflight && End(x.crash).redis.inflight[(x.worker, x.env.id)] == x.env
    && x.sweeps != [] && Regular(x.sweeps, x.run, interval, length)
    && Extends(x.sweeps[0].begin, x.crash)
    && End(x.crash).now + ttl <= End(x.sweeps[|x.sweeps| - 1].begin).now
  }

  lemma {:induction false} FirstDue(sweeps: seq<Sweep>, r: Run, interval: nat, length: nat, due: int, k: nat) returns (i: nat)
    requires Valid(r) && Regular(sweeps, r, interval, length) && k < |sweeps|
    requires End(sweeps[0].begin).now < due <= End(sweeps[k].begin).now
    ensures 0 < i <= k && due <= End(sweeps[i].begin).now < due + interval
    decreases k
  {
    assert SweepIn(sweeps[k], r, length) && SweepIn(sweeps[0], r, length);
    assert k > 0 && Follows(sweeps[k - 1], sweeps[k], interval);
    if due <= End(sweeps[k - 1].begin).now {
      i := FirstDue(sweeps, r, interval, length, due, k - 1);
    } else {
      i := k;
    }
  }

  /** Every task that a crashed worker held is ready again or in the DLQ less than
      HeartbeatTTL + CoordinatorSweepInterval (plus the length of a sweep) after the crash. */
  lemma RecoveredInTime(x: Case, ttl: int, interval: nat, length: nat) returns (i: nat)
    requires Setting(x, ttl, interval, length)
    ensures i < |x.sweeps| && SweepIn(x.sweeps[i], x.run, length)
    ensures End(x.sweeps[i].end).now < End(x.crash).now + ttl + interval + length
    ensures HashEmpty(End(x.sweeps[i].end), x.worker)
    ensures ReturnedBefore(x.crash, x.run, x.env, End(x.crash).now + ttl + interval + length)
  {
    i := DueSweep(x, ttl, interval, length);
    DueSweepReturns(x, ttl, interval, length, i, End(x.crash).now + ttl + interval + length);
  }

  lemma DueSweepReturns(x: Case, ttl: int, interval: nat, length: nat, i: nat, t: int)
    requires Setting(x, ttl, interval, length) && i < |x.sweeps| && SweepIn(x.sweeps[i], x.run, length) && ttl > 0
    requires End(x.crash).now + ttl <= End(x.sweeps[i].begin).now && End(x.sweeps[i].end).now < t
    ensures HashEmpty(End(x.sweeps[i].end), x.worker) && ReturnedBefore(x.crash, x.run, x.env, t)
  {
    SweepLater(x, ttl, interval, length, i);
    SweepReturns(x.crash, x.sweeps[i].begin, x.sweeps[i].end, x.run, x.worker, x.env, t);
  }

  lemma DueSweep(x: Case, ttl: int, interval: nat, length: nat) returns (i: nat)
    requires Setting(x, ttl, interval, length)
    ensures i < |x.sweeps| && SweepIn(x.sweeps[i], x.run, length) && ttl > 0
    ensures End(x.crash).now + ttl <= End(x.sweeps[i].begin).now < End(x.crash).now + ttl + interval
  {
    RunsExtend(x.crash, x.run);
    PrefixOf(x.crash, x.run);
    AlwaysSound(x.crash);
    PrefixOf(x.sweeps[0].begin, x.crash);
    assert SweepIn(x.sweeps[0], x.run, length);
    i := FirstDue(x.sweeps, x.run, interval, length, End(x.crash).now + ttl, |x.sweeps| - 1);
  }

  /** Such a sweep lies after the crash. */
  lemma SweepLater(x: Case, ttl: int, interval: nat, length: nat, i: nat)
    requires Setting(x, ttl, interval, length) && i < |x.sweeps| && SweepIn(x.sweeps[i], x.run, length)
    requires ttl > 0 && End(x.crash).now + ttl <= End(x.sweeps[i].begin).now
    ensures var a, b := x.sweeps[i].begin, x.sweeps[i].end;
            Extends(x.crash, a) && CoordinatorRuns(x.crash, b) && FailStop(b) && End(a).cfg.ttl == ttl
  {
    var a, b := x.sweeps[i].begin, x.sweeps[i].end;
    RunsExtend(a, b);
    ExtendsTrans(a, b, x.run);
    RunsExtend(x.crash, x.run);
    BeginsAfter(x.crash, a, x.run);
    ExtendsTrans(x.crash, a, b);
    RunsSplit(x.crash, b, x.run);
    PrefixOf(b, x.run);
    PrefixOf(a, x.run);
  }

  /** Of two prefixes the later in time is the longer. */
  lemma BeginsAfter(crash: Run, a: Run, r: Run)
    requires Valid(r) && Extends(crash, r) && Extends(a, r) && Valid(crash) && Valid(a) && End(crash).now < End(a).now
    ensures Extends(crash, a)
  {
    Comparable(crash, a, r);
    if Extends(a, crash) {
      PrefixOf(a, crash);
    }
  }

  // ---- What a tick conserves ----

  lemma {:induction false} AtMostOne<T>(s: set<T>)
    requires forall x, y | x in s && y in s :: x == y
    ensures |s| <= 1
  {
    if x :| x in s {
      assert s == {x};
    }
  }

  lemma RecordPlace(s: State, at: Places, w: WorkerId, id: TaskId)
    requires Inv(s, at) && !s.coord.Snapshot? && (w, id) in s.redis.inflight
    ensures id in at && at[id].Live?
    ensures at[id].token == AtRecord(w, s.redis.inflight[(w, id)], true)
         || IsRunningAt(at[id], w, s.redis.inflight[(w, id)])
  {
    if w !in s.procs {
      assert Holds(s, AtRecord(w, s.redis.inflight[(w, id)], true));
    }
  }

  /** Fail-stop: between two ticks a task occurs at most once in the ready sets, delayed sets and hashes. */
  lemma OneOccurrence(r: Run, id: TaskId)
    requires Valid(r) && FailStop(r) && End(r).coord.Idle?
    ensures LiveCount(End(r).redis, id) <= 1
  {
    AlwaysInv(r);
    OneOccurrenceAt(End(r), Locate(r), id);
  }

  lemma OneOccurrenceAt(s: State, at: Places, id: TaskId)
    requires Inv(s, at) && s.coord.Idle?
    ensures LiveCount(s.redis, id) <= 1
  {
    var d := s.redis;
    forall e | e in InReady(d, id)
      ensures id in at && at[id] == Live(AtReady(e))
    {
      assert Holds(s, AtReady(e));
    }
    forall e | e in InDelayed(d, id)
      ensures id in at && at[id] == Live(AtDelayed(e))
    {
      assert Holds(s, AtDelayed(e));
    }
    forall w | w in InHashes(d, id)
      ensures (w, id) in d.inflight && id in at && at[id].Live?
      ensures at[id].token == AtRecord(w, d.inflight[(w, id)], true) || IsRunningAt(at[id], w, d.inflight[(w, id)])
    {
      RecordPlace(s, at, w, id);
    }
    AtMostOne(InReady(d, id));
    AtMostOne(InDelayed(d, id));
    AtMostOne(InHashes(d, id));
  }

  lemma AfterPromotion(d: R.Data, batch: set<Envelope>, now: int, id: TaskId)
    ensures InDelayed(R.Promote(d, batch, now), id) == InDelayed(d, id) - batch
    ensures forall x :: x in InReady(R.Promote(d, batch, now), id) <==>
              x in InReady(d, id) || (x in R.Restamp(batch, now) && x.id == id)
  {}

  lemma OnlyOneRestamped(d: R.Data, batch: set<Envelope>, now: int, e: Envelope, x: Envelope)
    requires e in batch && batch <= d.delayed.Keys && InDelayed(d, e.id) == {e}
    ensures x in R.Restamp(batch, now) && x.id == e.id <==> x == e.(enqueuedAt := now)
  {
    if x in R.Restamp(batch, now) && x.id == e.id {
      var e' :| e' in batch && e'.(enqueuedAt := now) == x;
      assert e' in InDelayed(d, e.id);
    }
  }

  lemma PromotesIt(d: R.Data, batch: set<Envelope>, now: int, e: Envelope)
    requires e in batch && batch <= d.delayed.Keys && InDelayed(d, e.id) == {e} && InReady(d, e.id) == {}
    ensures InDelayed(R.Promote(d, batch, now), e.id) == {}
    ensures InReady(R.Promote(d, batch, now), e.id) == {e.(enqueuedAt := now)}
  {
    AfterPromotion(d, batch, now, e.id);
    forall x
      ensures x in InReady(R.Promote(d, batch, now), e.id) <==> x == e.(enqueuedAt := now)
    {
      OnlyOneRestamped(d, batch, now, e, x);
    }
  }

  lemma PromotesOthers(d: R.Data, batch: set<Envelope>, now: int, id: TaskId)
    requires forall e | e in batch :: e.id != id
    ensures InDelayed(R.Promote(d, batch, now), id) == InDelayed(d, id)
    ensures InReady(R.Promote(d, batch, now), id) == InReady(d, id)
  {}

  lemma PromotionConserves(d: R.Data, batch: set<Envelope>, now: int, id: TaskId)
    requires batch <= d.delayed.Keys && LiveCount(d, id) <= 1
    ensures var d' := R.Promote(d, batch, now);
            LiveCount(d', id) == LiveCount(d, id) && CountOf(d', id) == CountOf(d, id)
  {
    assert InHashes(R.Promote(d, batch, now), id) == InHashes(d, id);
    if e :| e in batch && e.id == id {
      AllIn(InDelayed(d, id), e);
      PromotesIt(d, batch, now, e);
    } else {
      PromotesOthers(d, batch, now, id);
    }
  }

  lemma AllIn<T>(s: set<T>, x: T)
    requires x in s && |s| <= 1
    ensures s == {x}
  {
    assert |s - {x}| == 0;
  }

  /** Fail-stop: a tick conserves the multiset of ids in Redis. */
  lemma TickConserves(r: Run, moved: set<Envelope>, rounds: seq<Round>, now: int, id: TaskId)
    requires Valid(r) && FailStop(r) && End(r).coord.Idle?
    requires moved <= End(r).redis.delayed.Keys && RoundsList(rounds, End(r).redis)
    ensures CountOf(SweptData(R.Promote(End(r).redis, moved, now), rounds, now), id) == CountOf(End(r).redis, id)
  {
    var d := End(r).redis;
    var d' := R.Promote(d, moved, now);
    AlwaysSound(r);
    OneOccurrence(r, id);
    PromotionConserves(d, moved, now, id);
    forall x | x in rounds
      ensures Lists(x.envs, d', x.worker)
    {
      assert R.Hash(d', x.worker) == R.Hash(d, x.worker);
    }
    SweepConservesDistinct(d', rounds, now, id);
  }
}
