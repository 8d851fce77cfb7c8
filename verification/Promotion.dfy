/** Promotion of due retries. */
module Promotion {
  import opened Types
  import opened Protocol
  import opened Prefixes
  import opened Sums
  import opened Envelopes
  import opened Tokens
  import opened Locations
  import R = Redis

  predicate DistinctIds(d: R.Data) {
    && (forall a, b | a in d.ready && b in d.ready && a.id == b.id :: a == b)
    && (forall a, b | a in d.delayed && b in d.delayed && a.id == b.id :: a == b)
    && (forall a, b | a in d.ready && b in d.delayed :: a.id != b.id)
  }

  function Attempt(e: Envelope): (TaskId, nat) { (e.id, e.attempts) }

  function Attempts(d: R.Data): set<(TaskId, nat)> {
    (set e | e in d.ready :: Attempt(e)) + (set e | e in d.delayed :: Attempt(e))
  }

  /** A promotion neither loses nor invents an attempt, and touches nothing outside its batch. */
  lemma PromotionKeepsAttempts(d: R.Data, batch: set<Envelope>, now: int)
    requires batch <= d.delayed.Keys
    ensures Attempts(R.Promote(d, batch, now)) == Attempts(d)
    ensures forall e | e in d.delayed && e !in batch ::
              e in R.Promote(d, batch, now).delayed && R.Promote(d, batch, now).delayed[e] == d.delayed[e]
    ensures forall e | e in d.ready && e !in R.Restamp(batch, now) ::
              e in R.Promote(d, batch, now).ready && R.Promote(d, batch, now).ready[e] == d.ready[e]
  {
    var d' := R.Promote(d, batch, now);
    forall a | a in Attempts(d)
      ensures a in Attempts(d')
    {
      if e :| e in d.delayed && Attempt(e) == a && e in batch {
        assert e.(enqueuedAt := now) in d'.ready && Attempt(e.(enqueuedAt := now)) == a;
      }
    }
    forall a | a in Attempts(d')
      ensures a in Attempts(d)
    {
      if m :| m in d'.ready && Attempt(m) == a && m in R.Restamp(batch, now) {
        var e :| e in batch && e.(enqueuedAt := now) == m;
        assert e in d.delayed && Attempt(e) == a;
      }
    }
  }

  lemma {:induction false} RestampCount(batch: set<Envelope>, now: int)
    requires forall a, b | a in batch && b in batch && a.id == b.id :: a == b
    ensures |R.Restamp(batch, now)| == |batch|
    decreases batch
  {
    if batch != {} {
      var e :| e in batch;
      RestampCount(batch - {e}, now);
      assert R.Restamp(batch, now) == R.Restamp(batch - {e}, now) + {e.(enqueuedAt := now)};
      assert e.(enqueuedAt := now) !in R.Restamp(batch - {e}, now);
    } else {
      assert R.Restamp(batch, now) == {};
    }
  }

  /** With distinct ids no ZADD merges two members, so the counts are conserved too. */
  lemma PromotionKeepsCount(d: R.Data, batch: set<Envelope>, now: int)
    requires batch <= d.delayed.Keys && DistinctIds(d)
    ensures var d' := R.Promote(d, batch, now);
            |d'.ready| == |d.ready| + |batch| && |d'.delayed| == |d.delayed| - |batch| && DistinctIds(d')
  {
    RestampCount(batch, now);
    PromotedKeys(d, batch, now);
    DistinctAfter(d, batch, now);
    var moved := R.Restamp(batch, now);
    assert |d.ready.Keys + moved| == |d.ready.Keys| + |moved|;
    assert |d.delayed.Keys - batch| == |d.delayed.Keys| - |batch|;
  }

  lemma PromotedKeys(d: R.Data, batch: set<Envelope>, now: int)
    requires batch <= d.delayed.Keys && DistinctIds(d)
    ensures R.Promote(d, batch, now).ready.Keys == d.ready.Keys + R.Restamp(batch, now)
    ensures d.ready.Keys !! R.Restamp(batch, now)
    ensures R.Promote(d, batch, now).delayed.Keys == d.delayed.Keys - batch
  {}

  lemma DistinctAfter(d: R.Data, batch: set<Envelope>, now: int)
    requires batch <= d.delayed.Keys && DistinctIds(d)
    ensures DistinctIds(R.Promote(d, batch, now))
  {
    var d' := R.Promote(d, batch, now);
    forall a, b | a in d'.ready && b in d'.ready && a.id == b.id
      ensures a == b
    {
      var a0 := Origin(d, batch, now, a);
      var b0 := Origin(d, batch, now, b);
    }
    forall a, b | a in d'.ready && b in d'.delayed
      ensures a.id != b.id
    {
      var a0 := Origin(d, batch, now, a);
    }
  }

  /** Where a ready member was before the promotion. */
  lemma Origin(d: R.Data, batch: set<Envelope>, now: int, m: Envelope) returns (e: Envelope)
    requires m in R.Promote(d, batch, now).ready
    ensures e.id == m.id
    ensures (e in d.ready && e == m) || (e in batch && m == e.(enqueuedAt := now))
  {
    if m in d.ready {
      e := m;
    } else {
      e :| e in batch && e.(enqueuedAt := now) == m;
    }
  }

  // ---- Sweeps of 256 ----

  /** A step that changes which tasks of the type are due by t, other than a promotion: a retry parked
      with such a due time, or a member that was due filed again. */
  predicate Disturbs(s: State, st: Step, typ: string, t: int)
    requires Enabled(s, st)
  {
    && st.Park? && s.execs[st.pid].env.typ == typ
    && (st.at <= t || s.execs[st.pid].env in R.Due(s.redis, typ, t))
  }

  /** Run b goes on from run a, with any steps of any process but such. */
  ghost predicate Undisturbed(a: Run, b: Run, typ: string, t: int)
    requires Valid(b)
  {
    a == b || (b.Then? && !Disturbs(End(b.prev), b.step, typ, t) && Undisturbed(a, b.prev, typ, t))
  }

  predicate HoldsType(batch: set<Envelope>, typ: string) { exists e :: e in batch && e.typ == typ }

  predicate Promotes(s: State, st: Step, typ: string)
    requires Enabled(s, st)
  {
    st.PromoteExec? && HoldsType(s.coord.batch, typ)
  }

  /** EXECs for the type between a and b. */
  ghost function Promotions(a: Run, b: Run, typ: string): nat
    requires Valid(b)
  {
    if a == b || b.Start? then 0
    else Promotions(a, b.prev, typ) + if Promotes(End(b.prev), b.step, typ) then 1 else 0
  }

  function LeftAfter(n: nat, k: nat): nat { if R.BATCH * k >= n then 0 else n - R.BATCH * k }

  /** A batch of the type holds all that is due by t, or 256 of it. */
  predicate TakesDue(s: State, typ: string, t: int) {
    s.coord.Promoting? ==>
      && (forall x, y | x in s.coord.batch && y in s.coord.batch :: x.typ == y.typ)
      && (HoldsType(s.coord.batch, typ) ==>
            |R.Due(s.redis, typ, t) - s.coord.batch| == LeftAfter(|R.Due(s.redis, typ, t)|, 1))
  }

  lemma BatchTakes(d: R.Data, typ: string, now: int, batch: set<Envelope>, t: int)
    requires R.IsBatch(d, typ, now, batch) && t <= now
    ensures |R.Due(d, typ, t) - batch| == LeftAfter(|R.Due(d, typ, t)|, 1)
  {
    var due := R.Due(d, typ, t);
    if e :| e in batch && e !in due {
      forall x | x in due
        ensures x in batch
      {
        assert x in batch || x in R.Due(d, typ, now) - batch;
      }
      assert due - batch == {} && due <= batch;
      CardMono(due, batch);
    } else if |batch| < R.BATCH {
      assert due <= R.Due(d, typ, now);
      assert due == batch;
      assert due - batch == {};
    } else {
      assert due == (due - batch) + batch;
    }
  }

  lemma DueStep(s: State, st: Step, typ: string, t: int)
    requires Enabled(s, st) && !st.PromoteExec? && !Disturbs(s, st, typ, t)
    ensures R.Due(Apply(s, st).redis, typ, t) == R.Due(s.redis, typ, t)
  {
    if st.Park? {
      var e := s.execs[st.pid].env;
      assert Apply(s, st).redis.delayed == s.redis.delayed[e := st.at];
    }
  }

  lemma DuePromoted(s: State, typ: string, t: int)
    requires Enabled(s, PromoteExec) && TakesDue(s, typ, t)
    ensures |R.Due(Apply(s, PromoteExec).redis, typ, t)|
         == LeftAfter(|R.Due(s.redis, typ, t)|, if HoldsType(s.coord.batch, typ) then 1 else 0)
  {
    var due, due' := R.Due(s.redis, typ, t), R.Due(Apply(s, PromoteExec).redis, typ, t);
    assert due' == due - s.coord.batch;
    if !HoldsType(s.coord.batch, typ) {
      assert due' == due;
    }
  }

  lemma TakesDueStep(s: State, st: Step, typ: string, t: int)
    requires Enabled(s, st) && TakesDue(s, typ, t) && !Disturbs(s, st, typ, t) && t <= s.now
    ensures TakesDue(Apply(s, st), typ, t)
  {
    if st.PromoteRead? {
      BatchTakes(s.redis, st.typ, s.now, st.batch, t);
    } else if Apply(s, st).coord.Promoting? {
      DueStep(s, st, typ, t);
      assert Apply(s, st).coord == s.coord;
    }
  }

  lemma LeftTwice(n: nat, k: nat, i: nat)
    requires i <= 1
    ensures LeftAfter(LeftAfter(n, k), i) == LeftAfter(n, k + i)
  {}

  /** Whatever else happens in between: with no new due retries, k EXECs for the type leave
      max(0, n - 256k) of the n tasks that were due by t; so they drain it exactly when 256k >= n. */
  lemma {:induction false} SweepsDrainTheDueSet(a: Run, b: Run, typ: string, t: int)
    requires Valid(b) && Undisturbed(a, b, typ, t) && Valid(a) && t <= End(a).now && !End(a).coord.Promoting?
    ensures t <= End(b).now && TakesDue(End(b), typ, t)
    ensures |R.Due(End(b).redis, typ, t)| == LeftAfter(|R.Due(End(a).redis, typ, t)|, Promotions(a, b, typ))
    ensures var n, k := |R.Due(End(a).redis, typ, t)|, Promotions(a, b, typ);
            |R.Due(End(b).redis, typ, t)| == if 256 * k >= n then 0 else n - 256 * k
    decreases b
  {
    if a != b {
      var s, st := End(b.prev), b.step;
      SweepsDrainTheDueSet(a, b.prev, typ, t);
      StepKeepsConfig(s, st);
      TakesDueStep(s, st, typ, t);
      LeftTwice(|R.Due(End(a).redis, typ, t)|, Promotions(a, b.prev, typ), if Promotes(s, st, typ) then 1 else 0);
      if st.PromoteExec? {
        DuePromoted(s, typ, t);
      } else {
        DueStep(s, st, typ, t);
      }
    }
  }

  /** Fail-stop: a parked retry is never delayed already, so only new due times disturb. */
  lemma ParkFilesNew(r: Run, p: Pid, at: int)
    requires Valid(r) && FailStop(r) && Enabled(End(r), Park(p, at))
    ensures End(r).execs[p].env !in End(r).redis.delayed
  {
    AlwaysInv(r);
    NackedIsNotDelayed(End(r), Locate(r), p);
  }

  /** No retry of the type is parked with a due time up to t. */
  ghost predicate NoneNewlyDue(a: Run, b: Run, typ: string, t: int)
    requires Valid(b)
  {
    a == b || (b.Then? && NoneNewlyDue(a, b.prev, typ, t)
               && !(b.step.Park? && End(b.prev).execs[b.step.pid].env.typ == typ && b.step.at <= t))
  }

  lemma {:induction false} FailStopUndisturbed(a: Run, b: Run, typ: string, t: int)
    requires Valid(b) && FailStop(b) && NoneNewlyDue(a, b, typ, t)
    ensures Undisturbed(a, b, typ, t)
    decreases b
  {
    if a != b {
      FailStopUndisturbed(a, b.prev, typ, t);
      if b.step.Park? {
        ParkFilesNew(b.prev, b.step.pid, b.step.at);
      }
    }
  }

  // ---- Interleaved with workers ----

  /** Fail-stop: whatever workers do between the range read and the EXEC, every task promoted is
      still delayed, its available_at has passed, and no other delayed task moves. */
  lemma PromotedOnlyWhenDue(r: Run, e: Envelope)
    requires Valid(r) && FailStop(r) && Enabled(End(r), PromoteExec)
    ensures var s := End(r); var s' := Apply(s, PromoteExec);
            && s.coord.batch <= s.redis.delayed.Keys
            && (e in s.coord.batch ==> s.redis.delayed[e] <= s.coord.asOf <= s.now)
            && (e in s.coord.batch ==> e !in s'.redis.delayed && e.(enqueuedAt := s.coord.asOf) in s'.redis.ready)
            && (e in s.redis.delayed && e !in s.coord.batch ==> e in s'.redis.delayed)
            && (e in s.redis.delayed && e !in s.coord.batch ==> s'.redis.delayed[e] == s.redis.delayed[e])
  {
    AlwaysInv(r);
    if e in End(r).coord.batch {
      assert e.(enqueuedAt := End(r).coord.asOf) in R.Restamp(End(r).coord.batch, End(r).coord.asOf);
    }
  }

  /** The due time with which e was last filed since the range read. */
  ghost function RefiledAt(r: Run, e: Envelope): Option<int>
    requires Valid(r)
  {
    if r.Start? || r.step.PromoteRead? then None
    else if r.step.Park? && End(r.prev).execs[r.step.pid].env == e then Some(r.step.at)
    else RefiledAt(r.prev, e)
  }

  lemma DueTimeStep(s: State, st: Step, e: Envelope)
    requires Wf(s) && Enabled(s, st) && Apply(s, st).coord.Promoting? && e in Apply(s, st).coord.batch
    ensures e in Apply(s, st).redis.delayed
    ensures st.PromoteRead? ==> Apply(s, st).redis.delayed[e] <= Apply(s, st).coord.asOf
    ensures !st.PromoteRead? ==>
      && s.coord == Apply(s, st).coord && e in s.redis.delayed
      && Apply(s, st).redis.delayed[e] == if st.Park? && s.execs[st.pid].env == e then st.at else s.redis.delayed[e]
  {
    WfStep(s, st);
  }

  /** Every run: what is promoted was due at the range read, unless it has been filed again since. */
  lemma {:induction false} PromotedDueTime(r: Run, e: Envelope)
    requires Valid(r) && End(r).coord.Promoting? && e in End(r).coord.batch
    ensures e in End(r).redis.delayed
    ensures match RefiledAt(r, e)
            case None => End(r).redis.delayed[e] <= End(r).coord.asOf
            case Some(at) => End(r).redis.delayed[e] == at
  {
    AlwaysSound(r.prev);
    DueTimeStep(End(r.prev), r.step, e);
    if !r.step.PromoteRead? {
      PromotedDueTime(r.prev, e);
    }
  }

  /** Every run, zombies included: a task is promoted before its due time if and only if it was filed
      again, with a later due time, between the range read and the EXEC. */
  lemma PromotedEarlyIff(r: Run, e: Envelope)
    requires Valid(r) && Enabled(End(r), PromoteExec) && e in End(r).coord.batch
    ensures e in End(r).redis.delayed
    ensures End(r).redis.delayed[e] > End(r).now <==> RefiledAt(r, e).Some? && RefiledAt(r, e).value > End(r).now
  {
    AlwaysSound(r);
    PromotedDueTime(r, e);
  }

  /** Fail-stop runs always have distinct ids in the two sets, so promotions conserve counts. */
  lemma DistinctInEveryRun(r: Run)
    requires Valid(r) && FailStop(r)
    ensures DistinctIds(End(r).redis)
  {
    AlwaysInv(r);
    var s, at := End(r), Locate(r);
    forall a | a in s.redis.ready
      ensures a.id in at && at[a.id] == Live(AtReady(a))
    {
      assert Holds(s, AtReady(a));
    }
    forall a | a in s.redis.delayed
      ensures a.id in at && at[a.id] == Live(AtDelayed(a))
    {
      assert Holds(s, AtDelayed(a));
    }
  }
}
