/** Tallies of strings, and sums of the values of a map. */
module Counting {

  /** How often each element of the sequence occurs. */
  ghost function Tally(xs: seq<string>): map<string, nat> {
    map x | x in xs :: multiset(xs)[x]
  }

  /** Go's `counts[x]++` on a map whose missing keys read as zero. */
  function Increment(m: map<string, nat>, x: string): map<string, nat> {
    m[x := (if x in m then m[x] else 0) + 1]
  }

  lemma TallySnoc(xs: seq<string>, x: string)
    ensures Tally(xs + [x]) == Increment(Tally(xs), x)
  {
    forall y ensures y in xs + [x] <==> y in xs || y == x {
    }
    assert forall y :: y in xs <==> y in multiset(xs);
  }

  ghost function Sum(m: map<string, nat>): nat
    decreases |m|
  {
    if m == map[] then 0 else
      var k :| k in m;
      m[k] + Sum(m - {k})
  }

  lemma {:induction false} SumWithout(m: map<string, nat>, k: string)
    requires k in m
    ensures Sum(m) == m[k] + Sum(m - {k})
    decreases |m|
  {
    var j :| j in m && Sum(m) == m[j] + Sum(m - {j});
    if j != k {
      SumWithout(m - {j}, k);
      SumWithout(m - {k}, j);
      assert m - {j} - {k} == m - {k} - {j};
    }
  }

  lemma SumUpdate(m: map<string, nat>, k: string, v: nat)
    ensures Sum(m[k := v]) == Sum(m) - (if k in m then m[k] else 0) + v
  {
    var n := m[k := v];
    SumWithout(n, k);
    if k in m {
      SumWithout(m, k);
      assert n - {k} == m - {k};
    } else {
      assert n - {k} == m;
    }
  }

  /** Conservation: the counts of a tally add up to the length of the sequence. */
  lemma {:induction false} TallySum(xs: seq<string>)
    ensures Sum(Tally(xs)) == |xs|
  {
    if xs == [] {
      assert Tally(xs) == map[];
    } else {
      var n := |xs| - 1;
      assert xs == xs[..n] + [xs[n]];
      TallySum(xs[..n]);
      TallySnoc(xs[..n], xs[n]);
      var before := Tally(xs[..n]);
      SumUpdate(before, xs[n], (if xs[n] in before then before[xs[n]] else 0) + 1);
    }
  }
}
