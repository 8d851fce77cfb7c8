/** Every submission pays for a bounded amount of work, whatever the failure detector does. */
module Quiescence {
  import opened Types
  import opened Protocol
  import opened Tokens
  import opened Envelopes
  import opened Sums
  import opened Budgets
  import P = Postgres

  /** The work that a ready envelope with r attempts left can still cause. */
  function Height(r: int): nat
    decreases if r > 0 then r else 0
  {
    if r <= 0 then 0 else 2 * Height(r - 1) + 9
  }

  function Load(t: Token): nat {
    var r := EnvOf(t).maxAttempts - EnvOf(t).attempts;
    match t
    case AtReady(_) => Height(r)
    case AtDelayed(_) => Height(r) + 1
    case AtApi(_, _) => Height(r) + 1
    case AtRecord(_, _, _) => Height(r - 1) + 2
    case AtSweep(_) => Height(r - 1) + 2
    case AtInterring(_) => 1
    case AtExec(_, x) =>
      match x.phase
      case Leased => Height(r - 1) + 5
      case Started => Height(r - 1) + 4
      case Nacked => Height(r) + 3
      case Rejected => 2
      case _ => 1
  }

  ghost function LoadWeight(): Weight { t => Load(t) }

  /** LoadWeight with the price of one promotion taken off the delayed envelopes. */
  ghost function PromotedWeight(): Weight {
    (t: Token) => if t.AtDelayed? then Load(t) - 1 else Load(t)
  }

  /** Leases, calls of `execute`, promotions and the handling of one reclaimed envelope. */
  predicate IsWork(st: Step) {
    ByExec(st) || st.LeaseHit? || st.ApiEnqueue? || st.PromoteExec? || st.Requeue? || st.SweepDead? || st.SweepMarkDead?
  }

  function Price(s: State, st: Step): nat
    requires Enabled(s, st)
  {
    match st
    case CreateRow(_, _, _, _, _, max) => Height(P.DefaultMax(max)) + 1
    case RedriveRow(_, id) => Height(s.db.rows[id].maxAttempts) + 1
    case _ => 0
  }

  ghost function Work(r: Run): nat {
    if r.Start? then 0 else Work(r.prev) + if IsWork(r.step) then 1 else 0
  }

  /** The prices of all submissions and redrives so far. */
  ghost function Submitted(r: Run): nat
    requires Valid(r)
  {
    if r.Start? then 0 else Submitted(r.prev) + Price(End(r.prev), r.step)
  }

  lemma {:induction false} SumBelow<T>(s: set<T>, lo: T -> nat, hi: T -> nat)
    requires forall x | x in s :: lo(x) < hi(x)
    ensures Sum(s, lo) + |s| <= Sum(s, hi)
    decreases s
  {
    if s != {} {
      var x :| x in s;
      SumPick(s, lo, x);
      SumPick(s, hi, x);
      SumBelow(s - {x}, lo, hi);
    }
  }

  lemma {:induction false} SumSame<T>(s: set<T>, a: T -> nat, b: T -> nat)
    requires forall x | x in s :: a(x) == b(x)
    ensures Sum(s, a) == Sum(s, b)
    decreases s
  {
    if s != {} {
      var x :| x in s;
      SumPick(s, a, x);
      SumPick(s, b, x);
      SumSame(s - {x}, a, b);
    }
  }

  lemma PromotionCosts(s: State)
    requires Wf(s) && s.coord.Promoting?
    ensures Sum(Added(s, PromoteExec), LoadWeight()) < Sum(Removed(s, PromoteExec), LoadWeight())
  {
    var removed, added := Removed(s, PromoteExec), Added(s, PromoteExec);
    PromotionCharge(s, PromotedWeight());
    SumSame(added, LoadWeight(), PromotedWeight());
    SumBelow(removed, PromotedWeight(), LoadWeight());
    var e :| e in s.coord.batch;
    assert AtDelayed(e) in removed;
  }

  lemma LoadTame()
    ensures Tame(LoadWeight())
  {
    var w := LoadWeight();
    forall k, e, a, b
      ensures w(AtRecord(k, e, a)) == w(AtRecord(k, e, b)) == w(AtSweep(e))
    {}
    forall e: Envelope, ms: int
      ensures w(AtReady(e.(enqueuedAt := ms))) <= w(AtDelayed(e))
    {}
  }

  lemma ExecWeighs(s: State, st: Step)
    requires Enabled(s, st) && ByExec(st)
    ensures var x, next := s.execs[st.pid], NextExec(s, st);
            (if EndsExec(st) then 0 else Load(AtExec(st.pid, next))) + (if st.Park? then Load(AtDelayed(x.env)) else 0)
            < Load(AtExec(st.pid, x))
  {}

  lemma ExecCosts(s: State, st: Step)
    requires Enabled(s, st) && ByExec(st)
    ensures Sum(Added(s, st), LoadWeight()) < Sum(Removed(s, st), LoadWeight())
  {
    ExecSums(s, st, LoadWeight());
    ExecWeighs(s, st);
  }

  lemma LeaseCosts(s: State, st: Step)
    requires Enabled(s, st) && st.LeaseHit? && AttemptsOk(AtReady(st.env))
    ensures Sum(Added(s, st), LoadWeight()) < Sum(Removed(s, st), LoadWeight())
  {
    LeaseSums(s, st, LoadWeight());
  }

  lemma OneCosts(s: State, st: Step)
    requires Enabled(s, st) && MovesOne(st)
    ensures Sum(Added(s, st), LoadWeight()) + (if IsWork(st) then 1 else 0)
            <= Sum(Removed(s, st), LoadWeight()) + Price(s, st)
  {
    OneSums(s, st, LoadWeight());
  }

  lemma LoadCharge(s: State, st: Step)
    requires Sound(s) && Enabled(s, st)
    ensures Sum(Added(s, st), LoadWeight()) + (if IsWork(st) then 1 else 0)
            <= Sum(Removed(s, st), LoadWeight()) + Price(s, st)
  {
    if ByExec(st) {
      ExecCosts(s, st);
    } else if st.PromoteExec? {
      PromotionCosts(s);
    } else if MovesMany(st) {
      LoadTame();
      ManyCharge(s, st, LoadWeight());
    } else if st.LeaseHit? {
      HeldOk(s, AtReady(st.env));
      LeaseCosts(s, st);
    } else if MovesOne(st) {
      OneCosts(s, st);
    } else {
      QuietSums(s, st, LoadWeight());
    }
  }

  lemma LoadStep(s: State, st: Step)
    requires Sound(s) && Enabled(s, st)
    ensures Sum(TokensOf(Apply(s, st)), LoadWeight()) + (if IsWork(st) then 1 else 0)
            <= Sum(TokensOf(s), LoadWeight()) + Price(s, st)
  {
    SumStep(s, st, LoadWeight());
    LoadCharge(s, st);
  }

  /** Work done plus work still possible never exceeds what was submitted; so without new
      submissions or redrives every run comes to rest after finitely many work steps. */
  lemma {:induction false} WorkIsPaidFor(r: Run)
    requires Valid(r)
    ensures Work(r) + Sum(TokensOf(End(r)), LoadWeight()) <= Submitted(r)
  {
    if r.Start? {
      assert TokensOf(End(r)) == {};
    } else {
      WorkIsPaidFor(r.prev);
      AlwaysSound(r.prev);
      LoadStep(End(r.prev), r.step);
    }
  }
}
