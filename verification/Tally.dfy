/** Sums of a weight over a sequence.

    Every conservation law of the runtime (wake tokens, pending events, active
    and idle workers) is a statement about such sums, so the few laws of `Sum`
    that the steps need are proved once, here. */
module Tally {

  function Sum<T>(s: seq<T>, weight: T -> nat): nat
  {
    if s == [] then 0 else weight(s[0]) + Sum(s[1..], weight)
  }

  lemma {:induction false} SumConcat<T>(a: seq<T>, b: seq<T>, weight: T -> nat)
    ensures Sum(a + b, weight) == Sum(a, weight) + Sum(b, weight)
  {
    if a == [] {
      assert a + b == b;
    } else {
      assert (a + b)[1..] == a[1..] + b;
      SumConcat(a[1..], b, weight);
    }
  }

  lemma SumOne<T>(x: T, weight: T -> nat)
    ensures Sum([x], weight) == weight(x)
  {
    assert [x][1..] == [];
  }

  lemma SumPush<T>(s: seq<T>, x: T, weight: T -> nat)
    ensures Sum(s + [x], weight) == Sum(s, weight) + weight(x)
  {
    hide Sum;
    SumConcat(s, [x], weight);
    SumOne(x, weight);
  }

  /** Taking one element out, wherever it stands. */
  lemma SumRemove<T>(s: seq<T>, i: nat, weight: T -> nat)
    requires i < |s|
    ensures Sum(s, weight) == Sum(s[..i] + s[i + 1..], weight) + weight(s[i])
  {
    assert s == s[..i] + s[i..];
    assert s[i..][1..] == s[i + 1..];
    SumConcat(s[..i], s[i..], weight);
    SumConcat(s[..i], s[i + 1..], weight);
  }

  lemma SumInsert<T>(s: seq<T>, i: nat, x: T, weight: T -> nat)
    requires i <= |s|
    ensures Sum(s[..i] + [x] + s[i..], weight) == Sum(s, weight) + weight(x)
  {
    assert s == s[..i] + s[i..];
    SumConcat(s[..i], s[i..], weight);
    SumPush(s[..i], x, weight);
    SumConcat(s[..i] + [x], s[i..], weight);
  }

  lemma SumUpdate<T>(s: seq<T>, i: nat, x: T, weight: T -> nat)
    requires i < |s|
    ensures Sum(s[i := x], weight) + weight(s[i]) == Sum(s, weight) + weight(x)
  {
    var t := s[i := x];
    SumRemove(s, i, weight);
    SumRemove(t, i, weight);
    assert t[..i] == s[..i] && t[i + 1..] == s[i + 1..];
  }

  lemma SumMember<T>(s: seq<T>, i: nat, weight: T -> nat)
    requires i < |s|
    ensures weight(s[i]) <= Sum(s, weight)
  {
    SumRemove(s, i, weight);
  }

  lemma {:induction false} SumSame<T>(a: seq<T>, b: seq<T>, weight: T -> nat)
    requires |a| == |b| && forall i :: 0 <= i < |a| ==> weight(a[i]) == weight(b[i])
    ensures Sum(a, weight) == Sum(b, weight)
  {
    if a != [] {
      assert forall i :: 0 <= i < |a[1..]| ==> a[1..][i] == a[i + 1] && b[1..][i] == b[i + 1];
      SumSame(a[1..], b[1..], weight);
    }
  }

  lemma {:induction false} SumZero<T>(s: seq<T>, weight: T -> nat)
    requires forall i :: 0 <= i < |s| ==> weight(s[i]) == 0
    ensures Sum(s, weight) == 0
  {
    if s != [] {
      SumZero(s[1..], weight);
    }
  }

  /** A positive sum has an element to show for it. */
  lemma {:induction false} SumWitness<T>(s: seq<T>, weight: T -> nat) returns (i: nat)
    requires Sum(s, weight) > 0
    ensures i < |s| && weight(s[i]) > 0
  {
    if weight(s[0]) > 0 {
      i := 0;
    } else {
      var j := SumWitness(s[1..], weight);
      i := j + 1;
    }
  }
}
