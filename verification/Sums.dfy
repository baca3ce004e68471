/** Sums of an integer measure over a sequence; a count is the sum of a 0/1 measure. */
module Sums {
  function Sum<T>(s: seq<T>, f: T -> int): int {
    if s == [] then 0 else f(s[0]) + Sum(s[1..], f)
  }

  lemma {:induction false} SumConcat<T>(a: seq<T>, b: seq<T>, f: T -> int)
    ensures Sum(a + b, f) == Sum(a, f) + Sum(b, f)
  {
    if a == [] {
      assert a + b == b;
    } else {
      assert (a + b)[1..] == a[1..] + b;
      SumConcat(a[1..], b, f);
    }
  }

  lemma SumAppend<T>(s: seq<T>, x: T, f: T -> int)
    ensures Sum(s + [x], f) == Sum(s, f) + f(x)
  {
    SumConcat(s, [x], f);
    assert Sum([x], f) == f(x) + Sum([x][1..], f);
  }

  lemma SumUpdate<T>(s: seq<T>, i: nat, x: T, f: T -> int)
    requires i < |s|
    ensures Sum(s[i := x], f) == Sum(s, f) - f(s[i]) + f(x)
  {
    assert s == s[..i] + ([s[i]] + s[i + 1..]);
    assert s[i := x] == s[..i] + ([x] + s[i + 1..]);
    SumConcat(s[..i], [s[i]] + s[i + 1..], f);
    SumConcat(s[..i], [x] + s[i + 1..], f);
    assert ([s[i]] + s[i + 1..])[1..] == s[i + 1..] == ([x] + s[i + 1..])[1..];
  }

  lemma {:induction false} SumLowerBound<T>(s: seq<T>, f: T -> int)
    requires forall x :: x in s ==> 0 <= f(x)
    ensures 0 <= Sum(s, f)
    ensures forall x :: x in s ==> f(x) <= Sum(s, f)
  {
    if s != [] {
      SumLowerBound(s[1..], f);
      assert forall x :: x in s ==> x == s[0] || x in s[1..];
    }
  }

  /** If position `at` gains at most `gain` and no other position gains, neither does the sum gain more. */
  lemma {:induction false} SumGainAtOne<T>(before: seq<T>, after: seq<T>, f: T -> int, at: int, gain: nat)
    requires |before| == |after|
    requires forall k :: 0 <= k < |before| && k != at ==> f(after[k]) <= f(before[k])
    requires 0 <= at < |before| ==> f(after[at]) <= f(before[at]) + gain
    ensures Sum(after, f) <= Sum(before, f) + if 0 <= at < |before| then gain else 0
  {
    if before != [] {
      SumGainAtOne(before[1..], after[1..], f, at - 1, gain);
    }
  }

  /** If no position loses, neither does the sum. */
  lemma {:induction false} SumNoLoss<T>(before: seq<T>, after: seq<T>, f: T -> int)
    requires |before| == |after|
    requires forall k :: 0 <= k < |before| ==> f(before[k]) <= f(after[k])
    ensures Sum(before, f) <= Sum(after, f)
  {
    if before != [] {
      SumNoLoss(before[1..], after[1..], f);
    }
  }
}
