/** Sums of weights over finite sets. */
module Sums {

  ghost function Sum<T>(s: set<T>, w: T -> nat): nat {
    if s == {} then 0 else
    var x :| x in s;
    w(x) + Sum(s - {x}, w)
  }

  lemma {:induction false} SumPick<T>(s: set<T>, w: T -> nat, x: T)
    requires x in s
    ensures Sum(s, w) == w(x) + Sum(s - {x}, w)
    decreases s
  {
    var y :| y in s && Sum(s, w) == w(y) + Sum(s - {y}, w);
    if y != x {
      SumPick(s - {y}, w, x);
      SumPick(s - {x}, w, y);
      assert s - {y} - {x} == s - {x} - {y};
    }
  }

  lemma {:induction false} SumMono<T>(a: set<T>, b: set<T>, w: T -> nat)
    requires a <= b
    ensures Sum(a, w) <= Sum(b, w)
    decreases a
  {
    if a != {} {
      var x :| x in a;
      SumPick(a, w, x);
      SumPick(b, w, x);
      SumMono(a - {x}, b - {x}, w);
    }
  }

  lemma {:induction false} SumUnion<T>(a: set<T>, b: set<T>, w: T -> nat)
    ensures Sum(a + b, w) <= Sum(a, w) + Sum(b, w)
    ensures a !! b ==> Sum(a + b, w) == Sum(a, w) + Sum(b, w)
    decreases a
  {
    if a == {} {
      assert a + b == b;
    } else {
      var x :| x in a;
      SumPick(a, w, x);
      SumUnion(a - {x}, b, w);
      if x in b {
        assert a - {x} + b == a + b;
      } else {
        SumPick(a + b, w, x);
        assert a + b - {x} == a - {x} + b;
      }
    }
  }

  lemma SumOne<T>(x: T, w: T -> nat)
    ensures Sum({x}, w) == w(x)
  {
    SumPick({x}, w, x);
    assert {x} - {x} == {};
  }

  lemma SumTwo<T>(x: T, y: T, w: T -> nat)
    requires x != y
    ensures Sum({x, y}, w) == w(x) + w(y)
  {
    SumPick({x, y}, w, x);
    assert {x, y} - {x} == {y};
    SumOne(y, w);
  }

  /** Each element of `a` is charged to its own, at least as heavy, element of `b`. */
  lemma {:induction false} SumCharge<T>(a: set<T>, b: set<T>, w: T -> nat, source: T -> T)
    requires forall x | x in a :: source(x) in b && w(x) <= w(source(x))
    requires forall x, y | x in a && y in a && source(x) == source(y) :: x == y
    ensures Sum(a, w) <= Sum(b, w)
    decreases a
  {
    if a != {} {
      var x :| x in a;
      SumPick(a, w, x);
      SumPick(b, w, source(x));
      SumCharge(a - {x}, b - {source(x)}, w, source);
    }
  }

  /** What a change of a set does to its sum. */
  lemma SumChange<T>(before: set<T>, after: set<T>, removed: set<T>, added: set<T>, w: T -> nat)
    requires removed <= before && after <= (before - removed) + added
    ensures Sum(after, w) + Sum(removed, w) <= Sum(before, w) + Sum(added, w)
  {
    var kept := before - removed;
    SumMono(after, kept + added, w);
    SumUnion(kept, added, w);
    SumSplit(before, removed, w);
  }

  lemma SumSplit<T>(s: set<T>, part: set<T>, w: T -> nat)
    requires part <= s
    ensures Sum(s, w) == Sum(s - part, w) + Sum(part, w)
  {
    SumUnion(s - part, part, w);
    assert (s - part) + part == s;
  }

  lemma {:induction false} SumZero<T>(s: set<T>, w: T -> nat)
    requires forall x | x in s :: w(x) == 0
    ensures Sum(s, w) == 0
    decreases s
  {
    if s != {} {
      var x :| x in s;
      SumPick(s, w, x);
      SumZero(s - {x}, w);
    }
  }

  lemma CardMono<T>(a: set<T>, b: set<T>)
    requires a <= b
    ensures |a| <= |b|
  {
    assert b == a + (b - a);
  }
}
