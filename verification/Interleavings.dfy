/** What several threads do one after the other, taken apart by thread. */
module Interleavings {
  /** Of a sequence whose `k`-th element comes from thread `who[k]`, the elements that come from thread `t`. */
  function By<T>(s: seq<T>, who: seq<nat>, t: nat): seq<T>
    requires |s| == |who|
  {
    if s == [] then []
    else
      var n := |s| - 1;
      By(s[..n], who[..n], t) + if who[n] == t then [s[n]] else []
  }

  lemma ByMore<T>(s: seq<T>, who: seq<nat>, x: T, u: nat, t: nat)
    requires |s| == |who|
    ensures By(s + [x], who + [u], t) == By(s, who, t) + if u == t then [x] else []
  {
    assert (s + [x])[..|s|] == s && (who + [u])[..|s|] == who;
  }

  /** An element moves from the front of what is still to come from thread `u` to the end of what has come. */
  lemma OneCame<T>(s: seq<T>, who: seq<nat>, x: T, u: nat, t: nat, left: seq<T>, left': seq<T>)
    requires |s| == |who| && left == (if u == t then [x] else []) + left'
    ensures By(s, who, t) + left == By(s + [x], who + [u], t) + left'
  {
    ByMore(s, who, x, u, t);
  }

  /** Each element comes from one of the threads, and what comes from thread `t` is `parts[t]`, in that order. */
  ghost predicate Interleaves<T>(s: seq<T>, who: seq<nat>, parts: seq<seq<T>>) {
    && |s| == |who|
    && (forall k :: 0 <= k < |who| ==> who[k] < |parts|)
    && (forall t :: 0 <= t < |parts| ==> By(s, who, t) == parts[t])
  }

  lemma {:induction false} ComesFrom<T>(s: seq<T>, who: seq<nat>, k: nat)
    requires k < |s| == |who|
    ensures s[k] in By(s, who, who[k])
  {
    var n := |s| - 1;
    if k < n {
      ComesFrom(s[..n], who[..n], k);
    }
  }

  ghost function Sum<T>(rows: seq<multiset<T>>): multiset<T> {
    if rows == [] then multiset{} else rows[0] + Sum(rows[1..])
  }

  lemma {:induction false} SumUpdate<T>(rows: seq<multiset<T>>, u: nat, x: T)
    requires u < |rows|
    ensures Sum(rows[u := rows[u] + multiset{x}]) == Sum(rows) + multiset{x}
  {
    var rows' := rows[u := rows[u] + multiset{x}];
    if u == 0 {
      assert rows'[1..] == rows[1..];
    } else {
      assert rows'[1..] == rows[1..][u - 1 := rows[1..][u - 1] + multiset{x}];
      SumUpdate(rows[1..], u - 1, x);
    }
  }

  lemma {:induction false} SumOfNothing<T>(rows: seq<multiset<T>>)
    requires forall t :: 0 <= t < |rows| ==> rows[t] == multiset{}
    ensures Sum(rows) == multiset{}
  {
    if rows != [] {
      SumOfNothing(rows[1..]);
    }
  }

  ghost function Rows<T>(parts: seq<seq<T>>): seq<multiset<T>> {
    seq(|parts|, t requires 0 <= t < |parts| => multiset(parts[t]))
  }

  /** Everything in all the parts. */
  ghost function Together<T>(parts: seq<seq<T>>): multiset<T> { Sum(Rows(parts)) }

  ghost function Parts<T>(s: seq<T>, who: seq<nat>, n: nat): seq<seq<T>>
    requires |s| == |who|
  {
    seq(n, t requires 0 <= t < n => By(s, who, t))
  }

  lemma RowsMore<T>(s: seq<T>, who: seq<nat>, x: T, u: nat, n: nat)
    requires |s| == |who| && u < n
    ensures var rows := Rows(Parts(s, who, n));
      Rows(Parts(s + [x], who + [u], n)) == rows[u := rows[u] + multiset{x}]
  {
    forall t | 0 <= t < n
      ensures Rows(Parts(s + [x], who + [u], n))[t] ==
        if t == u then Rows(Parts(s, who, n))[t] + multiset{x} else Rows(Parts(s, who, n))[t]
    {
      ByMore(s, who, x, u, t);
    }
  }

  lemma OneMorePart<T>(s: seq<T>, who: seq<nat>, x: T, u: nat, n: nat)
    requires |s| == |who| && u < n && multiset(s) == Together(Parts(s, who, n))
    ensures multiset(s + [x]) == Together(Parts(s + [x], who + [u], n))
  {
    RowsMore(s, who, x, u, n);
    SumUpdate(Rows(Parts(s, who, n)), u, x);
  }

  lemma {:induction false} PartsHaveAll<T>(s: seq<T>, who: seq<nat>, n: nat)
    requires |s| == |who| && forall k :: 0 <= k < |who| ==> who[k] < n
    ensures multiset(s) == Together(Parts(s, who, n))
  {
    if s == [] {
      SumOfNothing(Rows(Parts(s, who, n)));
    } else {
      var s0, who0, x, u := s[..|s| - 1], who[..|s| - 1], s[|s| - 1], who[|s| - 1];
      PartsHaveAll(s0, who0, n);
      OneMorePart(s0, who0, x, u, n);
      assert s == s0 + [x] && who == who0 + [u];
    }
  }

  /** Nothing is lost, added or duplicated. */
  lemma InterleavingHasAll<T>(s: seq<T>, who: seq<nat>, parts: seq<seq<T>>)
    requires Interleaves(s, who, parts)
    ensures multiset(s) == Together(parts)
  {
    PartsHaveAll(s, who, |parts|);
    assert Parts(s, who, |parts|) == parts;
  }
}
