/** Counting threads: how many are at a place that satisfies a predicate, and the total of a weight over them. */
module Counting {
  import opened FreeRtos

  ghost function Count<T>(s: seq<T>, p: T -> bool): nat {
    if s == [] then 0 else Bit(p(s[0])) + Count(s[1..], p)
  }

  lemma {:induction false} CountUpdate<T>(s: seq<T>, t: nat, x: T, p: T -> bool)
    requires t < |s|
    ensures Count(s[t := x], p) == Count(s, p) - Bit(p(s[t])) + Bit(p(x))
  {
    if t == 0 {
      assert s[t := x][1..] == s[1..];
    } else {
      assert s[t := x][1..] == s[1..][t - 1 := x];
      CountUpdate(s[1..], t - 1, x, p);
    }
  }

  lemma {:induction false} CountMember<T>(s: seq<T>, t: nat, p: T -> bool)
    requires t < |s| && p(s[t])
    ensures Count(s, p) >= 1
  {
    if t > 0 {
      CountMember(s[1..], t - 1, p);
    }
  }

  lemma {:induction false} CountWitness<T>(s: seq<T>, p: T -> bool) returns (t: nat)
    requires Count(s, p) > 0
    ensures t < |s| && p(s[t])
  {
    if p(s[0]) {
      t := 0;
    } else {
      t := CountWitness(s[1..], p);
      t := t + 1;
    }
  }

  lemma {:induction false} CountNone<T>(s: seq<T>, p: T -> bool)
    requires forall i :: 0 <= i < |s| ==> !p(s[i])
    ensures Count(s, p) == 0
  {
    if s != [] {
      CountNone(s[1..], p);
    }
  }

  lemma {:induction false} CountTwo<T>(s: seq<T>, i: nat, j: nat, p: T -> bool)
    requires i < j < |s| && p(s[i]) && p(s[j])
    ensures Count(s, p) >= 2
  {
    if i == 0 {
      CountMember(s[1..], j - 1, p);
    } else {
      CountTwo(s[1..], i - 1, j - 1, p);
    }
  }

  /** The total of a weight over all threads. */
  ghost function Total<T>(s: seq<T>, weight: T -> nat): nat {
    if s == [] then 0 else weight(s[0]) + Total(s[1..], weight)
  }

  lemma {:induction false} TotalUpdate<T>(s: seq<T>, t: nat, x: T, weight: T -> nat)
    requires t < |s|
    ensures Total(s[t := x], weight) == Total(s, weight) - weight(s[t]) + weight(x)
  {
    if t == 0 {
      assert s[t := x][1..] == s[1..];
    } else {
      assert s[t := x][1..] == s[1..][t - 1 := x];
      TotalUpdate(s[1..], t - 1, x, weight);
    }
  }

  lemma {:induction false} TotalNone<T>(s: seq<T>, weight: T -> nat)
    requires forall i :: 0 <= i < |s| ==> weight(s[i]) == 0
    ensures Total(s, weight) == 0
  {
    if s != [] {
      TotalNone(s[1..], weight);
    }
  }
}
