/** The two kinds of query the services iterate over: plain selections and recursive ones. */
module Queries {
  import opened Sums
  import opened Model
  import opened FolderTree

  lemma EnumeratesMore<K(!new)>(order: seq<K>, t: set<K>, k: K)
    requires Enumerates(order, t) && k !in t
    ensures Enumerates(order + [k], t + {k})
  {
    forall i, j | 0 <= i < j < |order + [k]| ensures (order + [k])[i] != (order + [k])[j] {
      assert order[i] in order;
    }
  }

  /** Lists the selected rows, each once, in an order the database chooses. */
  method Listing<K(==, !new)>(ids: set<K>) returns (order: seq<K>)
    ensures Enumerates(order, ids)
  {
    order := [];
    var left := ids;
    while left != {}
      invariant left <= ids && Enumerates(order, ids - left)
      decreases left
    {
      var k :| k in left;
      EnumeratesMore(order, ids - left, k);
      assert ids - left + {k} == ids - (left - {k});
      order := order + [k];
      left := left - {k};
    }
    assert ids - left == ids;
  }

  lemma RootHasNoParentBelow(es: Entries, sel: set<Id>, a: Id, d: Id)
    requires Acyclic(es) && d in Subtree(es, sel, a) && a in es
    ensures es[a].parent != Some(d)
  {
    if es[a].parent == Some(d) {
      var rank :| Ranked(es, rank);
      assert rank[d] < rank[a];
      var n: nat :| Climbs(es, sel, d, a, n);
      ClimbRaisesRank(es, sel, d, a, n, rank);
    }
  }

  ghost predicate Collected(es: Entries, sel: set<Id>, a: Id, rows: seq<Id>, queue: seq<Id>) {
    NoDup(rows + queue)
    && (forall d :: d in rows + queue ==> d in Subtree(es, sel, a))
    && a in rows + queue
    && (forall d :: d in rows + queue && d != a ==> es[d].parent.Some? && es[d].parent.value in rows)
    && (forall c :: c in es && c in sel && es[c].parent.Some? && es[c].parent.value in rows ==> c in rows + queue)
  }

  /** Taking one row off the queue and appending its children keeps the bookkeeping. */
  lemma OneRow(es: Entries, sel: set<Id>, a: Id, rows: seq<Id>, queue: seq<Id>, below: seq<Id>)
    requires Acyclic(es) && queue != [] && Collected(es, sel, a, rows, queue)
    requires Enumerates(below, set c | c in es && c in sel && es[c].parent == Some(queue[0]))
    ensures Collected(es, sel, a, rows + [queue[0]], queue[1..] + below)
  {
    var w := queue[0];
    var was, now := rows + queue, rows + [w] + (queue[1..] + below);
    assert now == was + below;
    assert w in was;
    SubtreeClosed(es, sel, a);
    RootHasNoParentBelow(es, sel, a, w);
    assert w !in rows by {
      assert was[|rows|] == w;
      assert forall k :: 0 <= k < |rows| ==> was[k] == rows[k];
    }
    assert forall c :: c in below ==> c !in was && c in Subtree(es, sel, a);
    forall i, j | 0 <= i < j < |now| ensures now[i] != now[j] {
      if i < |was| <= j { assert now[j] in below && now[i] in was; }
    }
    assert forall d :: d in now ==> d in was || d in below;
    forall c | c in es && c in sel && es[c].parent.Some? && es[c].parent.value in rows + [w] ensures c in now {
      if es[c].parent.value == w { assert c in below; } else { assert c in was; }
    }
  }

  lemma QueueLength(es: Entries, sel: set<Id>, a: Id, rows: seq<Id>, queue: seq<Id>)
    requires Collected(es, sel, a, rows, queue)
    ensures |rows + queue| <= |es.Keys|
  {
    SubtreeClosed(es, sel, a);
    var all := rows + queue;
    forall d | d in all ensures d in es.Keys {}
    NoDupFits(all, es.Keys);
  }

  lemma {:induction false} NoDupFits(s: seq<Id>, t: set<Id>)
    requires NoDup(s) && forall d :: d in s ==> d in t
    ensures |s| <= |t|
    decreases |s|
  {
    if s != [] {
      var k := |s| - 1;
      forall d | d in s[..k] ensures d in t - {s[k]} { assert d in s; }
      assert s[k] in s;
      NoDupFits(s[..k], t - {s[k]});
    }
  }

  lemma {:induction false} ClimbEnds(es: Entries, sel: set<Id>, d: Id, a: Id, n: nat)
    requires Climbs(es, sel, d, a, n)
    ensures a in es && a in sel
    decreases n
  {
    if n > 0 { ClimbEnds(es, sel, es[d].parent.value, a, n - 1); }
  }

  lemma NothingBelow(es: Entries, sel: set<Id>, a: Id)
    requires a !in es || a !in sel
    ensures Subtree(es, sel, a) == {}
  {
    if d :| d in Subtree(es, sel, a) {
      var n: nat :| Climbs(es, sel, d, a, n);
      ClimbEnds(es, sel, d, a, n);
    }
  }

  /**
   * WITH RECURSIVE ... UNION ALL: the working table is emptied row by row and refilled with children.
   * UNION ALL removes no duplicates; it ends, and yields each row once, because the tree is acyclic.
   */
  method RecursiveQuery(es: Entries, sel: set<Id>, a: Id) returns (rows: seq<Id>)
    requires Acyclic(es)
    ensures Enumerates(rows, Subtree(es, sel, a))
  {
    rows := [];
    SubtreeClosed(es, sel, a);
    if a !in es || a !in sel {
      NothingBelow(es, sel, a);
      return;
    }
    var queue := [a];
    assert Collected(es, sel, a, rows, queue);
    while queue != []
      invariant Collected(es, sel, a, rows, queue)
      decreases |es.Keys| - |rows|
    {
      QueueLength(es, sel, a, rows, queue);
      var below := Listing(set c | c in es && c in sel && es[c].parent == Some(queue[0]));
      OneRow(es, sel, a, rows, queue, below);
      rows, queue := rows + [queue[0]], queue[1..] + below;
    }
    assert rows + queue == rows;
    forall d | d in Subtree(es, sel, a) ensures d in rows {
      var n: nat :| Climbs(es, sel, d, a, n);
      SubtreeLeast(es, sel, d, a, n, set x | x in rows);
    }
  }
}
