/** How long one life of a task can wait in the delayed sets. */
module Waits {
  import opened Types
  import opened Protocol
  import opened Tokens
  import opened Envelopes
  import opened Locations
  import opened Guarantees
  import B = Backoff

  /** The retry is parked for a backoff delay of its attempt. */
  ghost predicate IsBackoff(s: State, st: Step, base: nat, max: nat)
    requires Enabled(s, st) && st.Park?
  {
    exists jitter: real :: 0.0 <= jitter < 1.0 && st.at == s.now + B.DelayMs(s.execs[st.pid].env.attempts, base, max, jitter)
  }

  /** All workers of the run use `BackoffDelay` with these settings. */
  ghost predicate BacksOff(r: Run, base: nat, max: nat)
    requires Valid(r)
  {
    r.Then? ==> BacksOff(r.prev, base, max) && (r.step.Park? ==> IsBackoff(End(r.prev), r.step, base, max))
  }

  predicate Parks(s: State, st: Step, id: TaskId)
    requires Enabled(s, st)
  {
    st.Park? && s.execs[st.pid].env.id == id
  }

  /** The scheduled waits of the task since its creation or last redrive, in milliseconds. */
  ghost function Waited(r: Run, id: TaskId): nat
    requires Valid(r)
  {
    if r.Start? || IsRedrive(r.step, id) then 0
    else Waited(r.prev, id) + if Parks(End(r.prev), r.step, id) then r.step.at - End(r.prev).now else 0
  }

  /** The retries after a handler error in that time. */
  ghost function Retries(r: Run, id: TaskId): nat
    requires Valid(r)
  {
    if r.Start? || IsRedrive(r.step, id) then 0
    else Retries(r.prev, id) + if Parks(End(r.prev), r.step, id) then 1 else 0
  }

  // ---- Attempts that are used up ----

  /** Attempts used up, by handler errors or by reclaims. */
  function Used(c: Cell, max: int): int {
    match c
    case Waiting(a) => a
    case Running(a) => a
    case _ => max - 1
  }

  lemma UsedMoves(c: Cell, c': Cell, n: int, crash: bool, noHandler: bool)
    requires c == c' || CellStep(c, c', n, crash, noHandler)
    requires 0 <= Used(c, n) < n && (c.InGrave? ==> c' == c)
    ensures Used(c, n) <= Used(c', n) < n
  {}

  ghost function UsedBy(r: Run, id: TaskId): int
    requires Valid(r) && id in Locate(r) && id in End(r).db.rows
  {
    Used(CellOf(Locate(r)[id]), End(r).db.rows[id].maxAttempts)
  }

  lemma GraveStays(s: State, st: Step, at: Places, id: TaskId)
    requires Enabled(s, st) && Sited(s, st, at) && id in at && CellOf(at[id]).InGrave? && !IsRedrive(st, id)
    ensures id in Move(s, st, at) && CellOf(Move(s, st, at)[id]).InGrave?
  {}

  lemma Known(r: Run, id: TaskId)
    requires Valid(r) && FailStop(r) && r.Then? && id in End(r.prev).db.rows
    ensures id in End(r).db.rows && id in Locate(r.prev) && id in Locate(r)
    ensures End(r).db.rows[id].maxAttempts == End(r.prev).db.rows[id].maxAttempts
  {
    RowsPersist(End(r.prev), r.step);
    RefinesOneCell(r, id);
  }

  /** No step but a redrive gives an attempt back. */
  lemma UsedStep(r: Run, id: TaskId)
    requires Valid(r) && FailStop(r) && r.Then? && id in End(r.prev).db.rows && !IsRedrive(r.step, id)
    requires id in End(r).db.rows && id in Locate(r.prev) && id in Locate(r)
    requires 0 <= UsedBy(r.prev, id) < End(r).db.rows[id].maxAttempts == End(r.prev).db.rows[id].maxAttempts
    ensures UsedBy(r.prev, id) <= UsedBy(r, id) < End(r).db.rows[id].maxAttempts
  {
    RefinesOneCell(r, id);
    var c, c', n := CellOf(Locate(r.prev)[id]), CellOf(Locate(r)[id]), End(r).db.rows[id].maxAttempts;
    if c.InGrave? {
      GraveStaysInRun(r, id);
    }
    UsedMoves(c, c', n, IsCrash(r.step), NoHandler(End(r.prev), r.step));
  }

  lemma AlwaysSited(r: Run)
    requires Valid(r) && FailStop(r) && r.Then?
    ensures Sited(End(r.prev), r.step, Locate(r.prev))
  {
    AlwaysInv(r.prev);
    InvSites(End(r.prev), r.step, Locate(r.prev));
  }

  lemma GraveStaysInRun(r: Run, id: TaskId)
    requires Valid(r) && FailStop(r) && r.Then? && !IsRedrive(r.step, id)
    requires id in Locate(r.prev) && CellOf(Locate(r.prev)[id]).InGrave?
    ensures id in Locate(r) && CellOf(Locate(r)[id]).InGrave?
  {
    AlwaysSited(r);
    GraveStays(End(r.prev), r.step, Locate(r.prev), id);
  }

  lemma ParkMoves(s: State, st: Step, at: Places, id: TaskId)
    requires Enabled(s, st) && Parks(s, st, id) && Sited(s, st, at)
    ensures id in at && CellOf(at[id]) == Cell.Running(s.execs[st.pid].env.attempts - 1)
    ensures id in Move(s, st, at) && CellOf(Move(s, st, at)[id]) == Waiting(s.execs[st.pid].env.attempts)
  {}

  /** A parked retry waits for the attempt after those used up. */
  lemma ParkUses(r: Run, id: TaskId)
    requires Valid(r) && FailStop(r) && r.Then? && Parks(End(r.prev), r.step, id)
    ensures id in Locate(r.prev) && CellOf(Locate(r.prev)[id]) == Cell.Running(End(r.prev).execs[r.step.pid].env.attempts - 1)
    ensures id in Locate(r) && CellOf(Locate(r)[id]) == Waiting(End(r.prev).execs[r.step.pid].env.attempts)
  {
    AlwaysSited(r);
    ParkMoves(End(r.prev), r.step, Locate(r.prev), id);
  }

  lemma RedriveUses(r: Run, id: TaskId)
    requires Valid(r) && r.Then? && IsRedrive(r.step, id)
    ensures id in End(r).db.rows && End(r).db.rows[id].maxAttempts >= 1
    ensures id in Locate(r) && CellOf(Locate(r)[id]) == Waiting(0) && Waited(r, id) == 0 && Retries(r, id) == 0
  {
    AlwaysSound(r);
  }

  /** The waits and retries so far, and the attempts used up. */
  datatype Tally = Tally(waited: int, retries: int, used: int)

  ghost function TallyOf(r: Run, id: TaskId): Tally
    requires Valid(r) && id in Locate(r) && id in End(r).db.rows
  {
    Tally(Waited(r, id), Retries(r, id), UsedBy(r, id))
  }

  /** A set of tallies that every life stays in. */
  ghost predicate Closed(ok: iset<Tally>, base: nat, max: nat) {
    && Tally(0, 0, 0) in ok
    && (forall t | t in ok :: t.used >= 0)
    && (forall t, more | t in ok && t.used <= more :: t.(used := more) in ok)
    && (forall t, jitter: real | t in ok && 0.0 <= jitter < 1.0 :: AfterWait(t, base, max, jitter) in ok)
  }

  function AfterWait(t: Tally, base: nat, max: nat, jitter: real): Tally
    requires 0.0 <= jitter < 1.0
  {
    Tally(t.waited + B.DelayMs(t.used + 1, base, max, jitter), t.retries + 1, t.used + 1)
  }

  // ---- The budget ----

  lemma NoWaitBefore(r: Run, id: TaskId)
    requires Valid(r) && r.Then? && id !in End(r.prev).db.rows
    ensures !Parks(End(r.prev), r.step, id)
  {
    AlwaysSound(r.prev);
    if r.step.Park? {
      HeldOk(End(r.prev), AtExec(r.step.pid, End(r.prev).execs[r.step.pid]));
    }
  }

  lemma {:induction false} NoWaitYet(r: Run, id: TaskId)
    requires Valid(r) && id !in End(r).db.rows
    ensures Waited(r, id) == 0 && Retries(r, id) == 0
  {
    if r.Then? {
      RowsPersist(End(r.prev), r.step);
      NoWaitBefore(r, id);
      NoWaitYet(r.prev, id);
    }
  }

  lemma {:induction false} AlwaysTallied(r: Run, id: TaskId, ok: iset<Tally>, base: nat, max: nat)
    requires Valid(r) && FailStop(r) && BacksOff(r, base, max) && id in End(r).db.rows && Closed(ok, base, max)
    ensures id in Locate(r) && UsedBy(r, id) < End(r).db.rows[id].maxAttempts
    ensures TallyOf(r, id) in ok
  {
    if id in End(r.prev).db.rows {
      AlwaysTallied(r.prev, id, ok, base, max);
      Known(r, id);
      if IsRedrive(r.step, id) {
        RedriveUses(r, id);
      } else {
        UsedStep(r, id);
        if Parks(End(r.prev), r.step, id) {
          TallyAfterPark(r, id, ok, base, max);
        } else {
          assert TallyOf(r, id) == TallyOf(r.prev, id).(used := UsedBy(r, id));
        }
      }
    } else {
      FirstTally(r, id);
    }
  }

  lemma FirstTally(r: Run, id: TaskId)
    requires Valid(r) && FailStop(r) && r.Then? && id in End(r).db.rows && id !in End(r.prev).db.rows
    ensures id in Locate(r) && TallyOf(r, id) == Tally(0, 0, 0) && End(r).db.rows[id].maxAttempts >= 1
  {
    FirstCell(r, id);
    NoWaitBefore(r, id);
    NoWaitYet(r.prev, id);
  }

  lemma FirstCell(r: Run, id: TaskId)
    requires Valid(r) && FailStop(r) && r.Then? && id in End(r).db.rows && id !in End(r.prev).db.rows
    ensures id in Locate(r) && CellOf(Locate(r)[id]) == Waiting(0) && End(r).db.rows[id].maxAttempts >= 1
  {
    RefinesOneCell(r, id);
    AlwaysSound(r);
  }

  lemma JitterOf(s: State, st: Step, base: nat, max: nat) returns (jitter: real)
    requires Enabled(s, st) && st.Park? && IsBackoff(s, st, base, max)
    ensures 0.0 <= jitter < 1.0 && st.at == s.now + B.DelayMs(s.execs[st.pid].env.attempts, base, max, jitter)
  {
    jitter :| 0.0 <= jitter < 1.0 && st.at == s.now + B.DelayMs(s.execs[st.pid].env.attempts, base, max, jitter);
  }

  lemma TallyAfterPark(r: Run, id: TaskId, ok: iset<Tally>, base: nat, max: nat)
    requires Valid(r) && FailStop(r) && r.Then? && Parks(End(r.prev), r.step, id) && Closed(ok, base, max)
    requires IsBackoff(End(r.prev), r.step, base, max)
    requires id in End(r.prev).db.rows && id in End(r).db.rows && id in Locate(r.prev) && id in Locate(r)
    requires TallyOf(r.prev, id) in ok
    ensures TallyOf(r, id) in ok
  {
    ParkUses(r, id);
    var jitter := JitterOf(End(r.prev), r.step, base, max);
    assert TallyOf(r, id) == AfterWait(TallyOf(r.prev, id), base, max, jitter);
  }

  // ---- The sums ----

  predicate WithinUsed(t: Tally, base: nat, max: nat) {
    && t.used >= 0 && t.retries <= t.used
    && B.NS_PER_MS * t.waited <= t.used * max && B.NS_PER_MS * t.waited <= base * (B.Pow2(t.used) - 1)
    && t.retries * (base / B.NS_PER_MS) <= t.waited
  }

  lemma MoreUsed(t: Tally, more: int, base: nat, max: nat)
    requires WithinUsed(t, base, max) && t.used <= more
    ensures WithinUsed(t.(used := more), base, max)
  {
    B.Pow2Grows(t.used, more);
    B.Scale(base, B.Pow2(t.used) - 1, B.Pow2(more) - 1);
    B.Scale(max, t.used, more);
  }

  lemma OneWaitMore(t: Tally, base: nat, max: nat, jitter: real)
    requires WithinUsed(t, base, max) && base <= max && 0.0 <= jitter < 1.0
    ensures WithinUsed(AfterWait(t, base, max, jitter), base, max)
  {
    B.DelayWindow(t.used + 1, base, max, jitter);
    B.Doubling(base, B.Pow2(t.used));
    B.Stretch(t.used, max);
    B.Stretch(t.retries, base / B.NS_PER_MS);
  }

  ghost function Affordable(base: nat, max: nat): iset<Tally> { iset t | WithinUsed(t, base, max) }

  lemma AffordableClosed(base: nat, max: nat)
    requires base <= max
    ensures Closed(Affordable(base, max), base, max)
  {
    forall t, more | t in Affordable(base, max) && t.used <= more
      ensures t.(used := more) in Affordable(base, max)
    {
      MoreUsed(t, more, base, max);
    }
    forall t, jitter: real | t in Affordable(base, max) && 0.0 <= jitter < 1.0
      ensures AfterWait(t, base, max, jitter) in Affordable(base, max)
    {
      OneWaitMore(t, base, max, jitter);
    }
    assert WithinUsed(Tally(0, 0, 0), base, max);
  }

  lemma AlwaysAffordable(r: Run, id: TaskId, base: nat, max: nat)
    requires Valid(r) && FailStop(r) && BacksOff(r, base, max) && base <= max && id in End(r).db.rows
    ensures var n := End(r).db.rows[id].maxAttempts; n >= 1 && WithinUsed(Tally(Waited(r, id), Retries(r, id), n - 1), base, max)
  {
    AffordableClosed(base, max);
    AlwaysTallied(r, id, Affordable(base, max), base, max);
    MoreUsed(TallyOf(r, id), End(r).db.rows[id].maxAttempts - 1, base, max);
  }

  /** What a life of n attempts can wait. */
  predicate InBudget(waited: nat, retries: nat, n: int, base: nat, max: nat) {
    && n >= 1 && retries <= n - 1
    && B.NS_PER_MS * waited <= (n - 1) * max
    && B.NS_PER_MS * waited <= base * (B.Pow2(n - 1) - 1)
    && retries * (base / B.NS_PER_MS) <= waited
  }

  lemma Sums(waited: nat, retries: nat, n: int, base: nat, max: nat)
    requires n >= 1 && WithinUsed(Tally(waited, retries, n - 1), base, max)
    ensures InBudget(waited, retries, n, base, max)
  {}

  /** Fail-stop: with n = max_attempts, the waits of one life sum to at most (n-1)*max and at most
      base*(2^(n-1) - 1), also when reclaims use up attempts in between; there are at most n-1 of them,
      each of at least base. */
  lemma BackoffBudget(r: Run, id: TaskId, base: nat, max: nat)
    requires Valid(r) && FailStop(r) && BacksOff(r, base, max) && base <= max && id in End(r).db.rows
    ensures InBudget(Waited(r, id), Retries(r, id), End(r).db.rows[id].maxAttempts, base, max)
  {
    var waited, retries, n := Waited(r, id), Retries(r, id), End(r).db.rows[id].maxAttempts;
    AlwaysAffordable(r, id, base, max);
    Sums(waited, retries, n, base, max);
  }
}
