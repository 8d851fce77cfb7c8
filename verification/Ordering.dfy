/** The order in which ready tasks are leased. */
module Ordering {
  import opened Types
  import opened Protocol
  import opened Tokens
  import opened Envelopes
  import R = Redis
  import Score

  /** More urgent class, or the same class and an earlier stamp. */
  predicate Before(a: Envelope, b: Envelope) {
    Score.Before(a.priority, a.enqueuedAt, b.priority, b.enqueuedAt)
  }

  predicate InOrder(out: seq<Envelope>) {
    forall i, j | 0 <= i < j < |out| :: !Before(out[j], out[i])
  }

  predicate Orderly(d: R.Data) {
    Scored(d) && forall e | e in d.ready :: Score.InClockRange(e.enqueuedAt)
  }

  lemma ScoreOrder(a: Envelope, b: Envelope)
    requires Score.InClockRange(a.enqueuedAt) && Score.InClockRange(b.enqueuedAt)
    ensures R.ScoreOf(a) < R.ScoreOf(b) <==> Before(a, b)
    ensures R.ScoreOf(a) <= R.ScoreOf(b) <==> !Before(b, a)
  {
    Score.ScoreIsLexicographic(a.priority, a.enqueuedAt, b.priority, b.enqueuedAt);
    Score.ScoreIsLexicographic(b.priority, b.enqueuedAt, a.priority, a.enqueuedAt);
  }

  /** Successive leases of one type with no arrivals between them. */
  ghost predicate LeaseRun(d: R.Data, typ: string, w: WorkerId, out: seq<Envelope>)
    decreases |out|
  {
    out == [] || (R.IsNext(d, typ, out[0]) && LeaseRun(R.Lease(d, w, out[0]), typ, w, out[1..]))
  }

  lemma {:induction false} LeasesComeFromTheQueue(d: R.Data, typ: string, w: WorkerId, out: seq<Envelope>)
    requires LeaseRun(d, typ, w, out)
    ensures forall i | 0 <= i < |out| :: out[i] in R.ReadyOf(d, typ)
    ensures forall i, j | 0 <= i < j < |out| :: out[i] != out[j]
    decreases |out|
  {
    if out != [] {
      var rest := R.Lease(d, w, out[0]);
      LeasesComeFromTheQueue(rest, typ, w, out[1..]);
      assert forall i | 1 <= i < |out| :: out[i] == out[1..][i - 1];
    }
  }

  lemma {:induction false} LeasesAreInOrder(d: R.Data, typ: string, w: WorkerId, out: seq<Envelope>)
    requires Orderly(d) && LeaseRun(d, typ, w, out)
    ensures InOrder(out)
    decreases |out|
  {
    if out != [] {
      LeasesComeFromTheQueue(d, typ, w, out);
      LeasesAreInOrder(R.Lease(d, w, out[0]), typ, w, out[1..]);
      forall j | 0 < j < |out|
        ensures !Before(out[j], out[0])
      {
        ScoreOrder(out[0], out[j]);
      }
      assert forall i | 1 <= i < |out| :: out[i] == out[1..][i - 1];
    }
  }

  lemma {:induction false} DistinctCover(out: seq<Envelope>, all: set<Envelope>)
    requires forall i | 0 <= i < |out| :: out[i] in all
    requires forall i, j | 0 <= i < j < |out| :: out[i] != out[j]
    requires |out| == |all|
    ensures multiset(out) == multiset(all)
    decreases |out|
  {
    if out == [] {
      assert all == {};
    } else {
      var k := |out| - 1;
      assert out == out[..k] + [out[k]];
      DistinctCover(out[..k], all - {out[k]});
      assert multiset(all) == multiset(all - {out[k]}) + multiset{out[k]};
    }
  }

  /** Draining a type by leases sorts it by (class, stamp), losing and inventing nothing. */
  lemma LeasingSorts(d: R.Data, typ: string, w: WorkerId, out: seq<Envelope>)
    requires Orderly(d) && LeaseRun(d, typ, w, out) && |out| == |R.ReadyOf(d, typ)|
    ensures multiset(out) == multiset(R.ReadyOf(d, typ))
    ensures InOrder(out)
    ensures forall i, j | 0 <= i < j < |out| && 0 <= out[i].priority <= 9 && 0 <= out[j].priority <= 9 ::
              out[i].priority <= out[j].priority
    ensures forall i, j | 0 <= i < j < |out| && out[i].priority == out[j].priority :: out[i].enqueuedAt <= out[j].enqueuedAt
  {
    LeasesComeFromTheQueue(d, typ, w, out);
    LeasesAreInOrder(d, typ, w, out);
    DistinctCover(out, R.ReadyOf(d, typ));
  }

  /** Every queue that a run reaches is orderly, so the law applies to it. */
  lemma AlwaysOrderly(r: Run)
    requires Valid(r)
    ensures Orderly(End(r).redis)
  {
    AlwaysSound(r);
    forall e | e in End(r).redis.ready
      ensures Score.InClockRange(e.enqueuedAt)
    {
      StampOfHeld(End(r), AtReady(e));
    }
  }

  /** Every run: a lease takes a most urgent task of the type, and of equally urgent ones one with the
      oldest stamp; so no task of priority 9 is leased while one of priority 0 is ready. */
  lemma LeaseIsMostUrgent(r: Run, w: WorkerId, e: Envelope, p: Pid, x: Envelope)
    requires Valid(r) && Enabled(End(r), LeaseHit(w, e, p)) && x in End(r).redis.ready && x.typ == e.typ
    ensures !Before(x, e)
    ensures 0 <= x.priority <= 9 && 0 <= e.priority <= 9 ==> e.priority <= x.priority
    ensures e.priority == x.priority ==> e.enqueuedAt <= x.enqueuedAt
  {
    AlwaysOrderly(r);
    ScoreOrder(x, e);
    assert x in R.ReadyOf(End(r).redis, e.typ);
  }

  // ---- Bounded overtaking ----

  /** The tasks of its type that are leased before e, or may be. */
  function Ahead(d: R.Data, e: Envelope): set<Envelope>
    requires e in d.ready
  {
    set x | x in d.ready && x.typ == e.typ && x != e && d.ready[x] <= d.ready[e]
  }

  /** What a step puts ahead of e. */
  function Overtakers(d: R.Data, d': R.Data, e: Envelope): set<Envelope>
    requires e in d.ready && e in d'.ready
  {
    Ahead(d', e) - Ahead(d, e)
  }

  function LeasedFrom(st: Step, typ: string): nat {
    if st.LeaseHit? && st.env.typ == typ then 1 else 0
  }

  lemma LeaseAdvances(s: State, st: Step, e: Envelope)
    requires Enabled(s, st) && st.LeaseHit? && e in s.redis.ready && e in Apply(s, st).redis.ready
    ensures Overtakers(s.redis, Apply(s, st).redis, e) == {}
    ensures |Ahead(Apply(s, st).redis, e)| + LeasedFrom(st, e.typ) == |Ahead(s.redis, e)|
  {
    var ahead := Ahead(s.redis, e);
    if st.env.typ == e.typ {
      assert st.env in ahead;
      assert Ahead(Apply(s, st).redis, e) == ahead - {st.env};
    } else {
      assert Ahead(Apply(s, st).redis, e) == ahead;
    }
  }

  lemma OthersOnlyAdd(s: State, st: Step, e: Envelope)
    requires Enabled(s, st) && !st.LeaseHit? && e in s.redis.ready
    requires Scored(s.redis) && Scored(Apply(s, st).redis)
    ensures e in Apply(s, st).redis.ready && Ahead(s.redis, e) <= Ahead(Apply(s, st).redis, e)
  {
    ReadyOnlyGrows(s, st);
  }

  lemma ReadyOnlyGrows(s: State, st: Step)
    requires Enabled(s, st) && !st.LeaseHit?
    ensures forall x | x in s.redis.ready :: x in Apply(s, st).redis.ready
  {}

  lemma OthersOvertake(s: State, st: Step, e: Envelope)
    requires Sound(s) && Enabled(s, st) && !st.LeaseHit? && e in s.redis.ready
    ensures e in Apply(s, st).redis.ready
    ensures |Ahead(Apply(s, st).redis, e)| == |Ahead(s.redis, e)| + |Overtakers(s.redis, Apply(s, st).redis, e)|
  {
    ScoredStep(s, st);
    OthersOnlyAdd(s, st, e);
    CardGrows(Ahead(s.redis, e), Ahead(Apply(s, st).redis, e));
  }

  lemma CardGrows<T>(a: set<T>, b: set<T>)
    requires a <= b
    ensures |b| == |a| + |b - a|
  {
    assert b == a + (b - a);
  }

  /** Each lease of its type either returns e or brings it one place forward; each step puts
      behind it exactly its overtakers. */
  lemma RankStep(s: State, st: Step, e: Envelope)
    requires Sound(s) && Enabled(s, st) && e in s.redis.ready && e in Apply(s, st).redis.ready
    ensures |Ahead(Apply(s, st).redis, e)| + LeasedFrom(st, e.typ)
         == |Ahead(s.redis, e)| + |Overtakers(s.redis, Apply(s, st).redis, e)|
  {
    if st.LeaseHit? {
      LeaseAdvances(s, st, e);
    } else {
      OthersOvertake(s, st, e);
    }
  }

  /** Leases of its type since e became ready. */
  ghost function LeasesSince(r: Run, e: Envelope): nat
    requires Valid(r)
  {
    if r.Start? || e !in End(r).redis.ready || e !in End(r.prev).redis.ready then 0
    else LeasesSince(r.prev, e) + LeasedFrom(r.step, e.typ)
  }

  /** How many were ahead of e when it became ready. */
  ghost function EntryRank(r: Run, e: Envelope): nat
    requires Valid(r) && e in End(r).redis.ready
  {
    if r.Start? || e !in End(r.prev).redis.ready then |Ahead(End(r).redis, e)| else EntryRank(r.prev, e)
  }

  ghost function OvertakenBy(r: Run, e: Envelope): nat
    requires Valid(r)
  {
    if r.Start? || e !in End(r).redis.ready || e !in End(r.prev).redis.ready then 0
    else OvertakenBy(r.prev, e) + |Overtakers(End(r.prev).redis, End(r).redis, e)|
  }

  /** While e waits, the leases of its type number at most its entry rank plus those that overtook it. */
  lemma {:induction false} BoundedOvertaking(r: Run, e: Envelope)
    requires Valid(r) && e in End(r).redis.ready
    ensures LeasesSince(r, e) + |Ahead(End(r).redis, e)| == EntryRank(r, e) + OvertakenBy(r, e)
  {
    if r.Then? && e in End(r.prev).redis.ready {
      BoundedOvertaking(r.prev, e);
      AlwaysSound(r.prev);
      RankStep(End(r.prev), r.step, e);
    }
  }

  // ---- Stamps and the clock ----

  predicate StampPast(t: Token, now: int) { EnvOf(t).enqueuedAt <= now }

  ghost predicate StampsPast(s: State) { forall t | t in TokensOf(s) :: StampPast(t, s.now) }

  lemma AddedManyPast(s: State, st: Step, t: Token)
    requires Wf(s) && Enabled(s, st) && MovesMany(st) && t in Added(s, st)
    requires forall x | x in Removed(s, st) :: StampPast(x, s.now)
    ensures StampPast(t, s.now)
  {
    if st.CoordCrash? {
      assert AtSweep(t.env) in Removed(s, st);
    }
  }

  lemma AddedPast(s: State, st: Step, t: Token)
    requires Wf(s) && Enabled(s, st) && !MovesMany(st) && t in Added(s, st)
    requires forall x | x in Removed(s, st) :: StampPast(x, s.now)
    ensures StampPast(t, s.now)
  {
    if ByExec(st) {
      assert AtExec(st.pid, s.execs[st.pid]) in Removed(s, st);
    } else if st.LeaseHit? {
      assert AtReady(st.env) in Removed(s, st);
    } else if st.Requeue? || st.SweepDead? {
      assert AtSweep(st.env) in Removed(s, st);
    } else if st.ApiEnqueue? {
      assert AtApi(st.req, s.apis[st.req]) in Removed(s, st);
    }
  }

  /** No envelope is stamped in the future. */
  lemma {:induction false} AlwaysPast(r: Run)
    requires Valid(r)
    ensures StampsPast(End(r))
  {
    if r.Then? {
      AlwaysPast(r.prev);
      AlwaysSound(r.prev);
      PastStep(End(r.prev), r.step);
    }
  }

  lemma PastStep(s: State, st: Step)
    requires Wf(s) && StampsPast(s) && Enabled(s, st)
    ensures StampsPast(Apply(s, st))
  {
    TokensStep(s, st);
    forall t | t in TokensOf(Apply(s, st))
      ensures StampPast(t, s.now)
    {
      if t in Added(s, st) {
        if MovesMany(st) {
          AddedManyPast(s, st, t);
        } else {
          AddedPast(s, st, t);
        }
      }
    }
  }

  /** Who can overtake: a new arrival that is of a more urgent class, or of the same class with a
      stamp that is not later.  A fresh arrival has the current time as its stamp, so in its own class
      it passes only those with the very same stamp; a promoted one has the time of the range read;
      only a reclaimed one keeps an old stamp. */
  lemma OvertakersAreUrgent(r: Run, e: Envelope, x: Envelope)
    requires Valid(r) && r.Then? && e in End(r.prev).redis.ready && e in End(r).redis.ready
    requires x in Overtakers(End(r.prev).redis, End(r).redis, e)
    ensures x !in End(r.prev).redis.ready && !Before(e, x)
    ensures 0 <= x.priority <= 9 && 0 <= e.priority <= 9 ==>
              x.priority < e.priority || (x.priority == e.priority && x.enqueuedAt <= e.enqueuedAt)
    ensures r.step.ApiEnqueue? || r.step.PromoteExec? || r.step.Requeue?
    ensures r.step.ApiEnqueue? ==> x.enqueuedAt == End(r.prev).now
    ensures r.step.ApiEnqueue? ==> MoreUrgent(x, e) || x.enqueuedAt == e.enqueuedAt
    ensures r.step.ApiEnqueue? && x.priority == e.priority ==> x.enqueuedAt == e.enqueuedAt
    ensures r.step.PromoteExec? ==> x.enqueuedAt == End(r.prev).coord.asOf
    ensures r.step.Requeue? ==> x.enqueuedAt == r.step.env.enqueuedAt
  {
    AlwaysOrderly(r.prev);
    AlwaysOrderly(r);
    ScoreOrder(x, e);
    NewlyReady(r, x);
    WaitingIsPast(r.prev, e);
  }

  predicate MoreUrgent(a: Envelope, b: Envelope) { Score.MoreUrgent(a.priority, b.priority) }

  lemma WaitingIsPast(r: Run, e: Envelope)
    requires Valid(r) && e in End(r).redis.ready
    ensures e.enqueuedAt <= End(r).now
  {
    AlwaysPast(r);
    AlwaysSound(r);
    TokenIff(End(r), AtReady(e));
    assert StampPast(AtReady(e), End(r).now);
  }

  lemma Arrivals(s: State, st: Step, x: Envelope)
    requires Enabled(s, st) && x in Apply(s, st).redis.ready && x !in s.redis.ready
    ensures st.ApiEnqueue? || st.PromoteExec? || st.Requeue?
    ensures st.ApiEnqueue? ==> x == R.Stamped(s.apis[st.req], s.now)
    ensures st.PromoteExec? ==> x.enqueuedAt == s.coord.asOf
    ensures st.Requeue? ==> x == R.Stamped(R.Bump(st.env), s.now)
  {}

  lemma NewlyReady(r: Run, x: Envelope)
    requires Valid(r) && r.Then? && x in End(r).redis.ready && x !in End(r.prev).redis.ready
    ensures r.step.ApiEnqueue? || r.step.PromoteExec? || r.step.Requeue?
    ensures r.step.ApiEnqueue? ==> x.enqueuedAt == End(r.prev).now
    ensures r.step.PromoteExec? ==> x.enqueuedAt == End(r.prev).coord.asOf
    ensures r.step.Requeue? ==> x.enqueuedAt == r.step.env.enqueuedAt
  {
    AlwaysSound(r.prev);
    var s := End(r.prev);
    Arrivals(s, r.step, x);
    if r.step.ApiEnqueue? {
      StampOfHeld(s, AtApi(r.step.req, s.apis[r.step.req]));
    } else if r.step.Requeue? {
      StampOfHeld(s, AtSweep(r.step.env));
    }
  }

  lemma StampOfHeld(s: State, t: Token)
    requires Sound(s) && Holds(s, t)
    ensures StampOk(t)
  {
    TokenIff(s, t);
    assert TokenOk(s.db.rows, t);
  }
}
