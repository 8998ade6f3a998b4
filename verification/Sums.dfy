/** Totals over a sequence of accounts. */
module Sums {

  function Sum<T>(f: T -> nat, s: seq<T>): nat {
    if s == [] then 0 else f(s[0]) + Sum(f, s[1..])
  }

  lemma {:induction false} SumUpdate<T>(f: T -> nat, s: seq<T>, i: nat, x: T)
    requires i < |s|
    ensures Sum(f, s[i := x]) + f(s[i]) == Sum(f, s) + f(x)
  {
    var t := s[i := x];
    if i == 0 {
      assert t[1..] == s[1..];
    } else {
      assert t[1..] == s[1..][i - 1 := x];
      SumUpdate(f, s[1..], i - 1, x);
    }
  }

  lemma {:induction false} SumAppend<T>(f: T -> nat, s: seq<T>, x: T)
    ensures Sum(f, s + [x]) == Sum(f, s) + f(x)
  {
    if s == [] {
      assert s + [x] == [x];
    } else {
      assert (s + [x])[1..] == s[1..] + [x];
      SumAppend(f, s[1..], x);
    }
  }

  lemma {:induction false} SumMember<T>(f: T -> nat, s: seq<T>, i: nat)
    requires i < |s|
    ensures f(s[i]) <= Sum(f, s)
  {
    if i > 0 {
      SumMember(f, s[1..], i - 1);
    }
  }

  lemma {:induction false} SumZero<T>(f: T -> nat, s: seq<T>)
    requires forall i :: 0 <= i < |s| ==> f(s[i]) == 0
    ensures Sum(f, s) == 0
  {
    if s != [] {
      SumZero(f, s[1..]);
    }
  }

  /** A bound on every account times `a` is a bound on the totals. */
  lemma {:induction false} SumScaledAtMost<T>(f: T -> nat, g: T -> nat, a: nat, s: seq<T>)
    requires forall i :: 0 <= i < |s| ==> f(s[i]) * a <= g(s[i])
    ensures Sum(f, s) * a <= Sum(g, s)
  {
    if s != [] {
      SumScaledAtMost(f, g, a, s[1..]);
      assert Sum(f, s) * a == f(s[0]) * a + Sum(f, s[1..]) * a;
    }
  }

  lemma {:induction false} SumScaled<T>(f: T -> nat, g: T -> nat, a: nat, s: seq<T>)
    requires forall i :: 0 <= i < |s| ==> g(s[i]) == a * f(s[i])
    ensures Sum(g, s) == a * Sum(f, s)
  {
    if s != [] {
      SumScaled(f, g, a, s[1..]);
      assert a * Sum(f, s) == a * f(s[0]) + a * Sum(f, s[1..]);
    }
  }

  lemma {:induction false} SumAtMostPlus<T>(f: T -> nat, g: T -> nat, c: nat, h: T -> nat, s: seq<T>)
    requires forall i :: 0 <= i < |s| ==> f(s[i]) <= g(s[i]) + c * h(s[i])
    ensures Sum(f, s) <= Sum(g, s) + c * Sum(h, s)
  {
    if s != [] {
      SumAtMostPlus(f, g, c, h, s[1..]);
      assert c * Sum(h, s) == c * h(s[0]) + c * Sum(h, s[1..]);
    }
  }

  lemma {:induction false} SumAtLeastPlus<T>(f: T -> nat, g: T -> nat, c: nat, h: T -> nat, s: seq<T>)
    requires forall i :: 0 <= i < |s| ==> f(s[i]) >= g(s[i]) + c * h(s[i])
    ensures Sum(f, s) >= Sum(g, s) + c * Sum(h, s)
  {
    if s != [] {
      SumAtLeastPlus(f, g, c, h, s[1..]);
      assert c * Sum(h, s) == c * h(s[0]) + c * Sum(h, s[1..]);
    }
  }

  lemma SumOfTwo<T>(f: T -> nat, x: T, y: T)
    ensures Sum(f, [x, y]) == f(x) + f(y)
  {
    assert [x, y][1..] == [y];
    assert Sum(f, [x, y]) == f(x) + Sum(f, [y]);
    assert Sum(f, [y]) == f(y) + Sum(f, [y][1..]);
  }
}
