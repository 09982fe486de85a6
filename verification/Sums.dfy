/** Finite sums over columns of rows: the arithmetic behind every byte ledger. */
module Sums {
  /** The sum of a column, kept as a map from row identifiers to amounts. */
  ghost function Sum(m: map<nat, int>): int
    decreases m.Keys
  {
    if m.Keys == {} then 0 else var k :| k in m.Keys; m[k] + Sum(m - {k})
  }

  lemma {:induction false} SumPick(m: map<nat, int>, k: nat)
    requires k in m
    ensures Sum(m) == m[k] + Sum(m - {k})
    decreases m.Keys
  {
    var p :| p in m.Keys && Sum(m) == m[p] + Sum(m - {p});
    if p != k {
      SumPick(m - {p}, k);
      SumPick(m - {k}, p);
      assert m - {p} - {k} == m - {k} - {p};
    }
  }

  /** Writing one row moves the sum by the difference. */
  lemma SumWrite(m: map<nat, int>, k: nat, v: int)
    ensures Sum(m[k := v]) == Sum(m) + v - if k in m then m[k] else 0
  {
    SumPick(m[k := v], k);
    assert m[k := v] - {k} == m - {k};
    if k in m { SumPick(m, k); } else { assert m - {k} == m; }
  }

  lemma {:induction false} SumZero(m: map<nat, int>)
    requires forall k :: k in m ==> m[k] == 0
    ensures Sum(m) == 0
    decreases m.Keys
  {
    if m.Keys != {} {
      var p :| p in m.Keys;
      SumPick(m, p);
      SumZero(m - {p});
    }
  }

  lemma {:induction false} SumNonNegative(m: map<nat, int>)
    requires forall k :: k in m ==> m[k] >= 0
    ensures Sum(m) >= 0
    decreases m.Keys
  {
    if m.Keys != {} {
      var p :| p in m.Keys;
      SumPick(m, p);
      SumNonNegative(m - {p});
    }
  }

  lemma SumAtLeast(m: map<nat, int>, k: nat)
    requires k in m && forall i :: i in m ==> m[i] >= 0
    ensures m[k] <= Sum(m)
  {
    SumPick(m, k);
    SumNonNegative(m - {k});
  }

  lemma {:induction false} SumUnion(a: map<nat, int>, b: map<nat, int>)
    requires a.Keys !! b.Keys
    ensures Sum(a + b) == Sum(a) + Sum(b)
    decreases a.Keys
  {
    if a.Keys == {} {
      assert a + b == b;
    } else {
      var p :| p in a.Keys;
      SumPick(a, p);
      SumPick(a + b, p);
      assert a + b - {p} == (a - {p}) + b;
      SumUnion(a - {p}, b);
    }
  }

  ghost predicate NoDup<K(!new)>(s: seq<K>) {
    forall i, j :: 0 <= i < j < |s| ==> s[i] != s[j]
  }

  /** The sequence lists the set, each member once: what a query without ORDER BY returns. */
  ghost predicate Enumerates<K(!new)>(order: seq<K>, t: set<K>) {
    NoDup(order) && forall k :: k in order <==> k in t
  }

  ghost function SeqSum(order: seq<nat>, m: map<nat, int>): int {
    if order == [] then 0
    else
      var k := order[|order| - 1];
      SeqSum(order[..|order| - 1], m) + if k in m then m[k] else 0
  }

  /** A loop over rows in any order computes the sum over the column. */
  lemma {:induction false} SeqSumIsSum(order: seq<nat>, t: set<nat>, m: map<nat, int>)
    requires Enumerates(order, t) && m.Keys <= t
    ensures SeqSum(order, m) == Sum(m)
    decreases |order|
  {
    if order == [] {
      assert m.Keys == {};
    } else {
      var k, rest := order[|order| - 1], order[..|order| - 1];
      assert order == rest + [k];
      assert k in order;
      forall i ensures i in rest <==> i in t - {k} {
        assert i in order <==> i in rest || i == k;
      }
      if k in m { SumPick(m, k); } else { assert m - {k} == m; }
      SeqSumIsSum(rest, t - {k}, m - {k});
      SeqSumSame(rest, m, k);
    }
  }

  lemma {:induction false} SeqSumSame(order: seq<nat>, m: map<nat, int>, k: nat)
    requires k !in order
    ensures SeqSum(order, m - {k}) == SeqSum(order, m)
    decreases |order|
  {
    if order != [] {
      assert order[|order| - 1] in order;
      SeqSumSame(order[..|order| - 1], m, k);
    }
  }
}
