/** Sliding-window admission: share links allow, logins are blocked. */
module Limiters {
  const WINDOW: int := 600_000_000_000
  const SWEEP: int := 60_000_000_000
  const LIMIT: nat := 10

  /** The times strictly after `after`, in order. */
  function Kept(items: seq<int>, after: int): seq<int> {
    if items == [] then []
    else Kept(items[..|items| - 1], after) + if items[|items| - 1] > after then [items[|items| - 1]] else []
  }

  /** The times in (t - WINDOW, t]. */
  function Within(items: seq<int>, t: int): seq<int> {
    if items == [] then []
    else
      var x := items[|items| - 1];
      Within(items[..|items| - 1], t) + if t - WINDOW < x <= t then [x] else []
  }

  function Times(m: map<string, seq<int>>, key: string): seq<int> {
    if key in m then m[key] else []
  }

  /** Exactly the times after the bound are kept, each as often as it was recorded. */
  lemma {:induction false} KeptExact(items: seq<int>, after: int, x: int)
    ensures multiset(Kept(items, after))[x] == if x > after then multiset(items)[x] else 0
    decreases |items|
  {
    if items != [] {
      var rest, last := items[..|items| - 1], items[|items| - 1];
      KeptExact(rest, after, x);
      assert items == rest + [last];
    }
  }

  /** Exactly the times of the ten minutes up to t are counted, each as often as it was recorded. */
  lemma {:induction false} WithinExact(items: seq<int>, t: int, x: int)
    ensures multiset(Within(items, t))[x] == if t - 600_000_000_000 < x <= t then multiset(items)[x] else 0
    decreases |items|
  {
    if items != [] {
      var rest, last := items[..|items| - 1], items[|items| - 1];
      WithinExact(rest, t, x);
      assert items == rest + [last];
    }
  }

  lemma {:induction false} KeptTwice(items: seq<int>, early: int, late: int)
    requires early <= late
    ensures Kept(Kept(items, early), late) == Kept(items, late)
    decreases |items|
  {
    if items != [] {
      var x, rest := items[|items| - 1], items[..|items| - 1];
      KeptTwice(rest, early, late);
      if x > early {
        var k := Kept(rest, early) + [x];
        assert k[..|k| - 1] == Kept(rest, early);
      } else {
        assert Kept(items, early) == Kept(rest, early);
      }
    }
  }

  lemma KeptSame(a: seq<int>, b: seq<int>, early: int, late: int)
    requires early <= late && Kept(a, early) == Kept(b, early)
    ensures Kept(a, late) == Kept(b, late)
  {
    KeptTwice(a, early, late);
    KeptTwice(b, early, late);
  }

  lemma KeptAppend(items: seq<int>, t: int, after: int)
    ensures Kept(items + [t], after) == Kept(items, after) + if t > after then [t] else []
  {
    assert (items + [t])[..|items|] == items;
  }

  // ---------------------------------------------------------------- pruning in place

  /** Filters the slice over its own backing array and returns the new length. */
  method PruneInPlace(items: array<int>, len: nat, after: int) returns (kept: nat)
    requires len <= items.Length
    modifies items
    ensures kept <= len && items[..kept] == Kept(old(items[..len]), after)
    ensures items[len..] == old(items[len..])
  {
    kept := 0;
    ghost var was := items[..];
    for i := 0 to len
      invariant kept <= i
      invariant items[..kept] == Kept(was[..i], after)
      invariant items[i..] == was[i..]
    {
      assert was[..i + 1][..i] == was[..i];
      assert items[i] == items[i..][0] == was[i..][0];
      if items[i] > after {
        ghost var before := items[..kept];
        items[kept] := items[i];
        assert items[..kept + 1] == before + [was[i]];
        kept := kept + 1;
      }
      assert items[i + 1..] == was[i + 1..];
    }
    assert was[..len] == old(items[..len]);
  }

  // ---------------------------------------------------------------- the table and the history

  ghost predicate SameWindow(table: map<string, seq<int>>, history: map<string, seq<int>>, k: string, after: int) {
    Kept(Times(table, k), after) == Kept(Times(history, k), after)
  }

  /** Whatever was pruned or swept, the table tells of every key's window what the full history tells. */
  ghost predicate Agree(table: map<string, seq<int>>, history: map<string, seq<int>>, after: int) {
    forall k :: SameWindow(table, history, k, after)
  }

  lemma AgreeLater(table: map<string, seq<int>>, history: map<string, seq<int>>, early: int, late: int)
    requires Agree(table, history, early) && early <= late
    ensures Agree(table, history, late)
  {
    forall k ensures SameWindow(table, history, k, late) {
      assert SameWindow(table, history, k, early);
      KeptSame(Times(table, k), Times(history, k), early, late);
    }
  }

  /** Pruning one key, or dropping it once nothing is left, changes no answer. */
  lemma AgreePruned(table: map<string, seq<int>>, history: map<string, seq<int>>, key: string, after: int)
    requires Agree(table, history, after)
    ensures Kept(Times(table, key), after) == Kept(Times(history, key), after)
    ensures Agree(table[key := Kept(Times(table, key), after)], history, after)
    ensures Kept(Times(table, key), after) == [] ==> Agree(table - {key}, history, after)
  {
    var entries := Kept(Times(table, key), after);
    KeptTwice(Times(table, key), after, after);
    assert SameWindow(table, history, key, after);
    var stored := table[key := entries];
    forall k ensures SameWindow(stored, history, k, after) {
      assert SameWindow(table, history, k, after);
    }
    if entries == [] {
      var dropped := table - {key};
      forall k ensures SameWindow(dropped, history, k, after) {
        assert SameWindow(table, history, k, after);
      }
    }
  }

  lemma AgreeRecorded(table: map<string, seq<int>>, history: map<string, seq<int>>, key: string, now: int, after: int)
    requires Agree(table, history, after)
    ensures Agree(table[key := Times(table, key) + [now]], history[key := Times(history, key) + [now]], after)
  {
    var t, h := table[key := Times(table, key) + [now]], history[key := Times(history, key) + [now]];
    KeptAppend(Times(table, key), now, after);
    KeptAppend(Times(history, key), now, after);
    forall k ensures SameWindow(t, h, k, after) {
      assert SameWindow(table, history, k, after);
    }
  }

  // ---------------------------------------------------------------- the limiter

  class Limiter {
    var attempt: map<string, seq<int>>
    var lastSweep: int
    /** Every time ever recorded under a key, and the last clock reading. */
    ghost var history: map<string, seq<int>>
    ghost var clock: int

    ghost predicate Valid()
      reads this
    {
      lastSweep <= clock && Agree(attempt, history, clock - WINDOW)
    }

    constructor ()
      ensures Valid() && history == map[] && clock == 0
    {
      attempt, lastSweep, history, clock := map[], 0, map[], 0;
    }

    /** Once a minute, prunes every key and drops those with nothing left. */
    method SweepLocked(now: int)
      requires Valid() && clock <= now
      modifies this`attempt, this`lastSweep, this`clock
      ensures Valid() && clock == now
    {
      AgreeLater(attempt, history, clock - WINDOW, now - WINDOW);
      clock := now;
      if now - lastSweep < SWEEP { return; }
      lastSweep := now;
      PruneAll(now - WINDOW);
    }

    method PruneAll(window: int)
      requires Agree(attempt, history, window)
      modifies this`attempt
      ensures Agree(attempt, history, window)
      ensures forall k <- attempt.Keys :: attempt[k] != []
    {
      var left := attempt.Keys;
      while left != {}
        invariant left <= attempt.Keys && Agree(attempt, history, window)
        invariant forall k <- attempt.Keys - left :: attempt[k] != []
        decreases left
      {
        var k :| k in left;
        var entries := Kept(attempt[k], window);
        AgreePruned(attempt, history, k, window);
        left := left - {k};
        if entries == [] {
          attempt := attempt - {k};
        } else {
          attempt := attempt[k := entries];
        }
      }
    }

    /** Prunes one key and says how many of its recorded times are still in the window. */
    method Refresh(key: string, now: int) returns (n: nat)
      requires Valid() && clock <= now
      modifies this`attempt, this`lastSweep, this`clock
      ensures Valid() && clock == now && n == |Kept(Times(history, key), now - WINDOW)|
    {
      SweepLocked(now);
      AgreePruned(attempt, history, key, now - WINDOW);
      attempt := attempt[key := Kept(Times(attempt, key), now - WINDOW)];
      n := |attempt[key]|;
    }

    method Record(key: string, now: int)
      requires Valid() && clock == now
      modifies this`attempt, this`history
      ensures Valid() && history == Recorded(old(history), key, now)
    {
      AgreeRecorded(attempt, history, key, now, now - WINDOW);
      attempt := attempt[key := Times(attempt, key) + [now]];
      history := Recorded(history, key, now);
    }

    /** shareLimiter.allow: admits while fewer than ten admissions lie in the window. */
    method Allow(key: string, now: int) returns (ok: bool)
      requires Valid() && clock <= now
      modifies this
      ensures Valid() && clock == now
      ensures ok <==> |Kept(Times(old(history), key), now - 600_000_000_000)| < 10
      ensures history == if ok then old(history)[key := Times(old(history), key) + [now]] else old(history)
      ensures history == AfterAllow(old(history), key, now)
    {
      var n := Refresh(key, now);
      ok := n < LIMIT;
      if ok { Record(key, now); }
    }

    /** loginLimiter.blocked: asks and prunes, records nothing. */
    method Blocked(key: string, now: int) returns (blocked: bool)
      requires Valid() && clock <= now
      modifies this
      ensures Valid() && clock == now && history == old(history)
      ensures blocked <==> |Kept(Times(old(history), key), now - 600_000_000_000)| >= 10
    {
      var n := Refresh(key, now);
      blocked := n >= LIMIT;
    }

    /** loginLimiter.add */
    method Add(key: string, now: int)
      requires Valid() && clock <= now
      modifies this
      ensures Valid() && clock == now && history == old(history)[key := Times(old(history), key) + [now]]
    {
      var _ := Refresh(key, now);
      Record(key, now);
    }
  }

  // ---------------------------------------------------------------- the rate that results

  /** What Allow produces for one key: each time is admitted with fewer than ten in its window. */
  ghost predicate Admitted(times: seq<int>) {
    times == [] ||
    var rest, t := times[..|times| - 1], times[|times| - 1];
    Admitted(rest) && (rest != [] ==> rest[|rest| - 1] <= t) && |Kept(rest, t - WINDOW)| < LIMIT
  }

  /** At most ten admissions in any interval (t - WINDOW, t], wherever it lies. */
  lemma {:induction false} AtMostTenPerWindow(times: seq<int>, t: int)
    requires Admitted(times)
    ensures |Within(times, t)| <= LIMIT
    decreases |times|
  {
    if times != [] {
      var rest, last := times[..|times| - 1], times[|times| - 1];
      if last > t {
        AtMostTenPerWindow(rest, t);
      } else {
        WindowWithinEarlier(rest, t, last);
      }
    }
  }

  lemma {:induction false} WindowWithinEarlier(times: seq<int>, t: int, last: int)
    requires last <= t
    ensures |Within(times, t)| <= |Kept(times, last - WINDOW)|
    decreases |times|
  {
    if times != [] { WindowWithinEarlier(times[..|times| - 1], t, last); }
  }

  ghost function Recorded(history: map<string, seq<int>>, key: string, now: int): map<string, seq<int>> {
    history[key := Times(history, key) + [now]]
  }

  ghost function AfterAllow(history: map<string, seq<int>>, key: string, now: int): map<string, seq<int>> {
    if |Kept(Times(history, key), now - WINDOW)| < LIMIT then Recorded(history, key, now) else history
  }

  datatype Call = Call(key: string, now: int)

  /** The admissions a sequence of calls of Allow leaves on record. */
  ghost function AllowRun(calls: seq<Call>): map<string, seq<int>> {
    if calls == [] then map[]
    else
      var last := calls[|calls| - 1];
      AfterAllow(AllowRun(calls[..|calls| - 1]), last.key, last.now)
  }

  ghost predicate Clocked(calls: seq<Call>) {
    forall i, j :: 0 <= i < j < |calls| ==> calls[i].now <= calls[j].now
  }

  /** Every key's record stays admitted, and ends no later than the last call. */
  lemma {:induction false} RunAdmitted(calls: seq<Call>, key: string)
    requires Clocked(calls)
    ensures var times := Times(AllowRun(calls), key);
      Admitted(times) && (times != [] ==> calls != [] && times[|times| - 1] <= calls[|calls| - 1].now)
    decreases |calls|
  {
    if calls != [] {
      var rest, last := calls[..|calls| - 1], calls[|calls| - 1];
      RunAdmitted(rest, key);
      var before := Times(AllowRun(rest), key);
      assert (before + [last.now])[..|before|] == before;
    }
  }

  /** Over any run with a clock that never goes back, no ten-minute interval admits more than ten calls of a key. */
  lemma RateBound(calls: seq<Call>, key: string, t: int)
    requires Clocked(calls)
    ensures |Within(Times(AllowRun(calls), key), t)| <= 10
  {
    RunAdmitted(calls, key);
    AtMostTenPerWindow(Times(AllowRun(calls), key), t);
  }
}
