/** The packed ready-queue score, computed in binary64 (IEEE 754-2019, section 3.6: precision 53). */
module Score {

  const PRECISION_LIMIT: int := 0x20_0000_0000_0000   // 2^53
  const CLASS_WIDTH: int := 10_000_000_000_000         // 1e13

  /** The spacing of binary64 values around n: the least power of two u with |n| <= 2^53 * u. */
  function Spacing(n: nat, u: nat): (r: nat)
    requires u > 0
    ensures n <= PRECISION_LIMIT * r
    ensures r == u || (r >= 2 * u && 2 * n > PRECISION_LIMIT * r)
    decreases n - PRECISION_LIMIT * u
  {
    if n <= PRECISION_LIMIT * u then u else Spacing(n, 2 * u)
  }

  /** Round half to even on a grid of spacing u. */
  function RoundOnGrid(n: nat, u: nat): nat
    requires u > 0
  {
    var q, rest := n / u, n % u;
    if 2 * rest < u || (2 * rest == u && q % 2 == 0) then q * u else (q + 1) * u
  }

  /** The binary64 value nearest to an integer of any size. */
  function Binary64(n: int): int {
    if n >= 0 then RoundOnGrid(n, Spacing(n, 1)) else 0 - RoundOnGrid(-n, Spacing(-n, 1))
  }

  // ---- What rounding means ----

  predicate PowerOfTwo(u: nat) { u == 1 || (u >= 2 && u % 2 == 0 && PowerOfTwo(u / 2)) }

  lemma Doubled(u: nat)
    requires PowerOfTwo(u)
    ensures PowerOfTwo(2 * u)
  {
    assert 2 * u / 2 == u;
  }

  lemma {:induction false} SpacingIsPower(n: nat, u: nat)
    requires u > 0 && PowerOfTwo(u)
    ensures PowerOfTwo(Spacing(n, u))
    decreases n - PRECISION_LIMIT * u
  {
    if n > PRECISION_LIMIT * u {
      Doubled(u);
      SpacingIsPower(n, 2 * u);
    }
  }

  lemma {:induction false} Multiple(v: nat, u: nat) returns (m: nat)
    requires PowerOfTwo(v) && PowerOfTwo(u) && v <= u
    ensures u == m * v
  {
    if v == 1 {
      m := u;
    } else {
      m := Multiple(v / 2, u / 2);
      assert u == 2 * (m * (v / 2)) == m * v;
    }
  }

  function Distance(a: int, b: int): nat { if a >= b then a - b else b - a }

  lemma GridIsNearest(n: nat, u: nat, j: int)
    requires u > 0
    ensures Distance(n, RoundOnGrid(n, u)) <= Distance(n, j * u)
  {
    var q, rest := n / u, n % u;
    assert n == q * u + rest && (q + 1) * u == q * u + u;
    if j <= q {
      Times(j, q, u);
    } else {
      Times(q + 1, j, u);
    }
  }

  lemma Times(a: int, b: int, u: nat)
    requires a <= b
    ensures a * u <= b * u
  {}

  lemma OnGrid(n: nat, u: nat) returns (k: nat)
    requires u > 0
    ensures RoundOnGrid(n, u) == k * u && (k == n / u || (k == n / u + 1 && n % u > 0))
    ensures 2 * Distance(n, k * u) == u ==> k % 2 == 0
  {
    var q, rest := n / u, n % u;
    assert n == q * u + rest && (q + 1) * u == q * u + u;
    k := if 2 * rest < u || (2 * rest == u && q % 2 == 0) then q else q + 1;
  }

  lemma QuotientFits(n: nat, u: nat, p: nat)
    requires u > 0 && n <= p * u
    ensures n / u < p || (n / u == p && n % u == 0)
  {
    var q, rest := n / u, n % u;
    assert n == q * u + rest && (p + 1) * u == p * u + u;
    if q > p {
      Times(p + 1, q, u);
    }
  }

  /** The result has a significand k of at most 53 bits, on the grid of n; a tie goes to the even one. */
  lemma Binary64Fits(n: nat) returns (k: nat, u: nat)
    ensures PowerOfTwo(u) && (u == 1 || 2 * n > 0x20_0000_0000_0000 * u) && k <= 0x20_0000_0000_0000
    ensures Binary64(n) == k * u
    ensures 2 * Distance(n, k * u) == u ==> k % 2 == 0
  {
    u := Spacing(n, 1);
    SpacingIsPower(n, 1);
    k := OnGrid(n, u);
    QuotientFits(n, u, PRECISION_LIMIT);
  }

  lemma FinerIsLower(k: nat, v: nat, u: nat, half: nat)
    requires k <= 2 * half && 2 * v <= u
    ensures k * v <= half * u
  {
    Times(k, 2 * half, v);
    assert 2 * half * v == (2 * v) * half;
    Times(2 * v, u, half);
  }

  lemma TwiceLess(v: nat, u: nat, m: nat)
    requires u == m * v && v < u
    ensures 2 * v <= u
  {
    if m <= 1 {
      Times(m, 1, v);
    } else {
      Times(2, m, v);
    }
  }

  /** No other number with a significand of 53 bits is nearer to n. */
  lemma Binary64IsNearest(n: nat, k: nat, v: nat)
    requires PowerOfTwo(v) && k <= 0x20_0000_0000_0000
    ensures Distance(n, Binary64(n)) <= Distance(n, k * v)
  {
    var u := Spacing(n, 1);
    SpacingIsPower(n, 1);
    if v >= u {
      var m := Multiple(u, v);
      OnCoarserGrid(n, u, k, v, m);
    } else {
      var m := Multiple(v, u);
      TwiceLess(v, u, m);
      OnFinerGrid(n, u, k, v, PRECISION_LIMIT / 2);
    }
  }

  lemma OnCoarserGrid(n: nat, u: nat, k: nat, v: nat, m: nat)
    requires u > 0 && v == m * u
    ensures Distance(n, RoundOnGrid(n, u)) <= Distance(n, k * v)
  {
    Regroup(k, m, u);
    GridIsNearest(n, u, k * m);
  }

  lemma OnFinerGrid(n: nat, u: nat, k: nat, v: nat, half: nat)
    requires u > 0 && 2 * v <= u && k <= 2 * half && n >= half * u
    ensures Distance(n, RoundOnGrid(n, u)) <= Distance(n, k * v)
  {
    FinerIsLower(k, v, u, half);
    GridIsNearest(n, u, half);
  }

  lemma Regroup(a: nat, b: nat, c: nat)
    ensures a * (b * c) == a * b * c
  {}

  lemma Binary64Exact(n: int)
    requires -PRECISION_LIMIT <= n <= PRECISION_LIMIT
    ensures Binary64(n) == n
  {
    var m := if n >= 0 then n else -n;
    assert Spacing(m, 1) == 1;
    assert m / 1 == m && m % 1 == 0;
  }

  lemma GridPointsAreLarge(n: nat, u: nat, q: nat, rest: nat)
    requires n == q * u + rest && rest < u && u >= 2
    requires 2 * n > PRECISION_LIMIT * u
    ensures q * u >= CLASS_WIDTH && (q + 1) * u >= CLASS_WIDTH
  {
    if 2 * (q + 1) <= PRECISION_LIMIT {
      assert 2 * (q + 1) * u <= PRECISION_LIMIT * u;
      assert (q + 1) * u == q * u + u;
    }
    assert q * u >= q * 2;
    assert (q + 1) * u >= (q + 1) * 2;
  }

  /** Rounding never brings a large stamp back under the width of a class. */
  lemma Binary64StaysLarge(n: int)
    requires n >= CLASS_WIDTH
    ensures Binary64(n) >= CLASS_WIDTH
  {
    var u := Spacing(n, 1);
    if u == 1 {
      assert n / 1 == n && n % 1 == 0;
    } else {
      GridPointsAreLarge(n, u, n / u, n % u);
    }
  }

  function Clamp(priority: int): int {
    if priority < 0 then 0 else if priority > 9 then 9 else priority
  }

  /** Every operand and every intermediate result is rounded, as the machine does. */
  function PriorityScore(priority: int, enqueueMs: int): int {
    Binary64(Binary64(Binary64(Clamp(priority)) * CLASS_WIDTH) + Binary64(enqueueMs))
  }

  predicate InClockRange(ms: int) { 0 <= ms < CLASS_WIDTH }

  /** Of a more urgent class: a lower priority, where those below 0 count as 0 and those above 9 as 9. */
  predicate MoreUrgent(p1: int, p2: int) { p1 < p2 && p1 < 9 && p2 > 0 }

  /** More urgent class first, then earlier stamp. */
  predicate Before(p1: int, t1: int, p2: int, t2: int) {
    MoreUrgent(p1, p2) || (!MoreUrgent(p2, p1) && t1 < t2)
  }

  lemma PriorityScoreExact(priority: int, ms: int)
    requires 0 <= ms < 10_000_000_000_000
    ensures PriorityScore(priority, ms) == Clamp(priority) * CLASS_WIDTH + ms
    ensures 0 <= priority <= 9 ==> PriorityScore(priority, ms) == priority * 10_000_000_000_000 + ms
    ensures priority < 0 ==> PriorityScore(priority, ms) == ms
    ensures priority > 9 ==> PriorityScore(priority, ms) == 90_000_000_000_000 + ms
    ensures 0 <= PriorityScore(priority, ms) < 10 * CLASS_WIDTH < PRECISION_LIMIT
  {
    var c := Clamp(priority);
    Binary64Exact(c);
    Binary64Exact(c * CLASS_WIDTH);
    Binary64Exact(ms);
    Binary64Exact(c * CLASS_WIDTH + ms);
  }

  /** Comparing packed scores is comparing (class, stamp) lexicographically, the lower priority first. */
  lemma ScoreIsLexicographic(p1: int, t1: int, p2: int, t2: int)
    requires InClockRange(t1) && InClockRange(t2)
    ensures PriorityScore(p1, t1) < PriorityScore(p2, t2) <==> Before(p1, t1, p2, t2)
    ensures PriorityScore(p1, t1) == PriorityScore(p2, t2)
            <==> !MoreUrgent(p1, p2) && !MoreUrgent(p2, p1) && t1 == t2
    ensures 0 <= p1 < p2 <= 9 ==> PriorityScore(p1, t1) < PriorityScore(p2, t2)
    ensures p1 == p2 && t1 < t2 ==> PriorityScore(p1, t1) < PriorityScore(p2, t2)
  {
    PriorityScoreExact(p1, t1);
    PriorityScoreExact(p2, t2);
  }

  /** A stamp packs below every stamp of a less urgent class exactly when it is in
      the clock range: from 10^13 ms (the year 2286) on, the classes overlap. */
  lemma ClockRangeIsExact(ms: nat)
    ensures ms < 10_000_000_000_000 <==>
            forall p1: int, p2: int, t: int | InClockRange(t) && MoreUrgent(p1, p2) ::
              PriorityScore(p1, ms) < PriorityScore(p2, t)
  {
    if InClockRange(ms) {
      forall p1: int, p2: int, t: int | InClockRange(t) && MoreUrgent(p1, p2)
        ensures PriorityScore(p1, ms) < PriorityScore(p2, t)
      {
        ScoreIsLexicographic(p1, ms, p2, t);
      }
    } else {
      Binary64Exact(0);
      Binary64StaysLarge(ms);
      Binary64StaysLarge(Binary64(ms));
      PriorityScoreExact(1, 0);
      assert PriorityScore(0, ms) == Binary64(Binary64(ms));
      assert InClockRange(0) && MoreUrgent(0, 1) && !(PriorityScore(0, ms) < PriorityScore(1, 0));
    }
  }
}
