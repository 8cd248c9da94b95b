/** Finite sums, the arithmetic behind the termination measure. */
module Sums {

  ghost function Sum<T(!new)>(m: multiset<T>, f: T -> nat): nat
    decreases |m|
  {
    if m == multiset{} then 0
    else
      var x :| x in m;
      f(x) + Sum(m - multiset{x}, f)
  }

  lemma {:induction false} SumRemove<T(!new)>(m: multiset<T>, f: T -> nat, x: T)
    requires x in m
    ensures Sum(m, f) == f(x) + Sum(m - multiset{x}, f)
    decreases |m|
  {
    var y :| y in m && Sum(m, f) == f(y) + Sum(m - multiset{y}, f);
    if x != y {
      SumRemove(m - multiset{y}, f, x);
      SumRemove(m - multiset{x}, f, y);
      assert m - multiset{y} - multiset{x} == m - multiset{x} - multiset{y};
    }
  }

  lemma SumAdd<T(!new)>(m: multiset<T>, f: T -> nat, x: T)
    ensures Sum(m + multiset{x}, f) == f(x) + Sum(m, f)
  {
    SumRemove(m + multiset{x}, f, x);
    assert m + multiset{x} - multiset{x} == m;
  }

  ghost function SumSeq<T(!new)>(s: seq<T>, f: T -> nat): nat {
    if s == [] then 0 else f(s[0]) + SumSeq(s[1..], f)
  }

  lemma {:induction false} SumSeqUpdate<T(!new)>(s: seq<T>, f: T -> nat, i: nat, x: T)
    requires i < |s|
    ensures SumSeq(s[i := x], f) + f(s[i]) == SumSeq(s, f) + f(x)
  {
    if i > 0 {
      SumSeqUpdate(s[1..], f, i - 1, x);
      assert s[i := x][1..] == s[1..][i - 1 := x];
    } else {
      assert s[0 := x][1..] == s[1..];
    }
  }

  lemma {:induction false} SumSeqMore<T(!new)>(s: seq<T>, f: T -> nat, x: T)
    ensures SumSeq(s + [x], f) == SumSeq(s, f) + f(x)
  {
    if s != [] {
      SumSeqMore(s[1..], f, x);
      assert (s + [x])[1..] == s[1..] + [x];
    }
  }

  lemma {:induction false} SumSeqBelow<T(!new)>(s: seq<T>, f: T -> nat, g: T -> nat)
    requires forall x <- s :: f(x) <= g(x)
    ensures SumSeq(s, f) <= SumSeq(s, g)
  {
    if s != [] {
      SumSeqBelow(s[1..], f, g);
    }
  }
}
