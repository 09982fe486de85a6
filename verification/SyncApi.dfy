/** Paging over a log that retention prunes, and the client cursor that follows it. */
module SyncApi {
  import opened Model
  import opened FolderTree
  import opened Replay

  /** A row of file_changes: bigserial id, and whether the asking user may see it. */
  datatype LogRow = LogRow(id: nat, visible: bool, change: Change)

  predicate Ordered(rows: seq<LogRow>) {
    (forall i :: 0 <= i < |rows| ==> rows[i].id > 0)
    && forall i, j :: 0 <= i < j < |rows| ==> rows[i].id < rows[j].id
  }

  /** The visible rows after the cursor, in order. */
  function After(rows: seq<LogRow>, cursor: int): seq<LogRow> {
    if rows == [] then []
    else (if rows[0].id > cursor && rows[0].visible then [rows[0]] else []) + After(rows[1..], cursor)
  }

  function Visible(rows: seq<LogRow>): seq<LogRow> {
    After(rows, 0)
  }

  function ChangesOf(rows: seq<LogRow>): seq<Change> {
    if rows == [] then [] else ChangesOf(rows[..|rows| - 1]) + [rows[|rows| - 1].change]
  }

  function NormalizeLimit(limit: int): nat {
    if limit <= 0 then 500 else if limit > 2000 then 2000 else limit
  }

  function MinId(rows: seq<LogRow>): nat {
    if rows == [] then 0 else rows[0].id
  }

  function MaxId(rows: seq<LogRow>): nat {
    if rows == [] then 0 else rows[|rows| - 1].id
  }

  predicate ResetNeeded(rows: seq<LogRow>, cursor: int) {
    cursor > 0 && (MinId(rows) == 0 || cursor < MinId(rows) - 1)
  }

  function Kept(r: LogRow, cursor: int): seq<LogRow> {
    if r.id > cursor && r.visible then [r] else []
  }

  lemma AfterCons(r: LogRow, rest: seq<LogRow>, cursor: int)
    ensures After([r] + rest, cursor) == Kept(r, cursor) + After(rest, cursor)
  {
    var all := [r] + rest;
    assert all[0] == r && all[1..] == rest;
  }

  lemma Reassociate(a: seq<LogRow>, b: seq<LogRow>, c: seq<LogRow>)
    ensures (a + b) + c == a + (b + c)
  {
  }

  lemma {:induction false} AfterAppend(a: seq<LogRow>, r: LogRow, cursor: int)
    ensures After(a + [r], cursor) == After(a, cursor) + if r.id > cursor && r.visible then [r] else []
    decreases |a|
  {
    if a == [] {
      assert a + [r] == [r] + [];
      AfterCons(r, [], cursor);
    } else {
      var rest := a[1..];
      AfterAppend(rest, r, cursor);
      AfterCons(a[0], rest, cursor);
      AfterCons(a[0], rest + [r], cursor);
      assert a == [a[0]] + rest && a + [r] == [a[0]] + (rest + [r]);
      Reassociate(Kept(a[0], cursor), After(rest, cursor), Kept(r, cursor));
    }
  }

  lemma {:induction false} AfterFrom(rows: seq<LogRow>, cursor: int)
    ensures forall k :: 0 <= k < |After(rows, cursor)| ==> After(rows, cursor)[k] in rows && After(rows, cursor)[k].id > cursor
    decreases |rows|
  {
    if rows != [] { AfterFrom(rows[1..], cursor); }
  }

  lemma {:induction false} AfterMembers(rows: seq<LogRow>, cursor: int, r: LogRow)
    ensures r in After(rows, cursor) <==> r in rows && r.id > cursor && r.visible
    decreases |rows|
  {
    if rows != [] { AfterMembers(rows[1..], cursor, r); }
  }

  /**
   * A page holds the first visible rows after the cursor, at most the limit, in order; a row is missing
   * only when the page is full and ends before it. A reset is due when rows right after the cursor are gone.
   */
  ghost predicate IsPage(rows: seq<LogRow>, cursor: int, rawLimit: int, page: seq<LogRow>, next: int, reset: bool) {
    var limit := if rawLimit <= 0 then 500 else if rawLimit > 2000 then 2000 else rawLimit;
    && (reset <==> cursor > 0 && (rows == [] || rows[0].id - 1 > cursor))
    && (reset ==> page == [] && next == if rows == [] then 0 else rows[|rows| - 1].id)
    && (!reset ==>
          && |page| <= limit && Ordered(page)
          && (forall r :: r in page ==> r in rows && r.id > cursor && r.visible)
          && (forall r :: r in rows && r.id > cursor && r.visible && r !in page ==>
                |page| == limit && r.id > page[|page| - 1].id)
          && next == if page == [] then cursor else page[|page| - 1].id)
  }

  lemma BehindPrefix(page: seq<LogRow>, all: seq<LogRow>, k: nat)
    requires page <= all && k < |all| && all[k] !in page
    ensures k >= |page|
  {
  }

  lemma PageExact(rows: seq<LogRow>, cursor: int, rawLimit: int, page: seq<LogRow>, next: int)
    requires Ordered(rows) && page <= After(rows, cursor) && !ResetNeeded(rows, cursor)
    requires |page| == if |After(rows, cursor)| < NormalizeLimit(rawLimit) then |After(rows, cursor)| else NormalizeLimit(rawLimit)
    requires next == if page == [] then cursor else page[|page| - 1].id
    ensures IsPage(rows, cursor, rawLimit, page, next, false)
  {
    var all := After(rows, cursor);
    AfterOrdered(rows, cursor);
    forall r ensures r in all <==> r in rows && r.id > cursor && r.visible { AfterMembers(rows, cursor, r); }
    forall r | r in page ensures r in all { var k :| 0 <= k < |page| && page[k] == r; assert all[k] == r; }
    forall r | r in all && r !in page ensures |page| < |all| && |page| > 0 && r.id > page[|page| - 1].id {
      var k :| 0 <= k < |all| && all[k] == r;
      BehindPrefix(page, all, k);
      assert |page| > 0 ==> page[|page| - 1] == all[|page| - 1];
    }
    forall i | 0 <= i < |page| ensures page[i] == all[i] {}
  }

  /** select … where id > cursor and visible order by id limit n */
  method Changes(rows: seq<LogRow>, cursor: int, rawLimit: int) returns (page: seq<LogRow>, next: int, reset: bool)
    requires Ordered(rows)
    ensures reset <==> ResetNeeded(rows, cursor)
    ensures reset ==> page == [] && next == MaxId(rows)
    ensures !reset ==> page <= After(rows, cursor)
                       && |page| == (if |After(rows, cursor)| < NormalizeLimit(rawLimit) then |After(rows, cursor)| else NormalizeLimit(rawLimit))
                       && next == (if page == [] then cursor else page[|page| - 1].id)
    ensures IsPage(rows, cursor, rawLimit, page, next, reset)
  {
    var limit := NormalizeLimit(rawLimit);
    if cursor > 0 && (MinId(rows) == 0 || cursor < MinId(rows) - 1) {
      ResetExact(rows, cursor, rawLimit);
      return [], MaxId(rows), true;
    }
    page, next := ScanPage(rows, cursor, limit);
    reset := false;
    PageExact(rows, cursor, rawLimit, page, next);
  }

  lemma ResetExact(rows: seq<LogRow>, cursor: int, rawLimit: int)
    requires Ordered(rows) && ResetNeeded(rows, cursor)
    ensures IsPage(rows, cursor, rawLimit, [], MaxId(rows), true)
  {
  }

  /** Reads the rows until the page is full. */
  method ScanPage(rows: seq<LogRow>, cursor: int, limit: nat) returns (page: seq<LogRow>, next: int)
    requires Ordered(rows)
    ensures page <= After(rows, cursor)
    ensures |page| == if |After(rows, cursor)| < limit then |After(rows, cursor)| else limit
    ensures next == if page == [] then cursor else page[|page| - 1].id
  {
    page, next := [], cursor;
    var k := 0;
    while k < |rows| && |page| < limit
      invariant 0 <= k <= |rows| && |page| <= limit
      invariant page == After(rows[..k], cursor)
      invariant next == if page == [] then cursor else page[|page| - 1].id
    {
      assert rows[..k + 1] == rows[..k] + [rows[k]];
      AfterAppend(rows[..k], rows[k], cursor);
      if rows[k].id > cursor && rows[k].visible {
        page := page + [rows[k]];
        next := rows[k].id;
      }
      k := k + 1;
    }
    AfterSplit(rows, k, cursor);
    assert k == |rows| ==> After(rows[k..], cursor) == [];
  }

  lemma {:induction false} AfterSplit(rows: seq<LogRow>, k: nat, cursor: int)
    requires k <= |rows|
    ensures After(rows, cursor) == After(rows[..k], cursor) + After(rows[k..], cursor)
    decreases k
  {
    if k == 0 {
      assert rows[0..] == rows;
    } else {
      assert rows[..k] == rows[..k - 1] + [rows[k - 1]] && rows[k - 1..] == [rows[k - 1]] + rows[k..];
      AfterAppend(rows[..k - 1], rows[k - 1], cursor);
      AfterSplit(rows, k - 1, cursor);
    }
  }

  lemma {:induction false} AfterLater(rows: seq<LogRow>, cursor: int, later: int)
    requires cursor <= later
    ensures After(After(rows, cursor), later) == After(rows, later)
    decreases |rows|
  {
    if rows != [] {
      AfterLater(rows[1..], cursor, later);
      var all, rest := After(rows, cursor), After(rows[1..], cursor);
      if rows[0].id > cursor && rows[0].visible {
        assert all[0] == rows[0] && all[1..] == rest;
      } else {
        assert all == rest;
        assert After(rows, later) == After(rows[1..], later);
      }
    }
  }

  lemma {:induction false} AfterOrdered(rows: seq<LogRow>, cursor: int)
    requires Ordered(rows)
    ensures Ordered(After(rows, cursor))
    decreases |rows|
  {
    if rows != [] {
      AfterOrdered(rows[1..], cursor);
      TailBehind(rows, cursor);
    }
  }

  lemma TailBehind(rows: seq<LogRow>, cursor: int)
    requires Ordered(rows) && rows != []
    ensures forall k :: 0 <= k < |After(rows[1..], cursor)| ==> After(rows[1..], cursor)[k].id > rows[0].id
  {
    var rest := After(rows[1..], cursor);
    forall k | 0 <= k < |rest| ensures rest[k].id > rows[0].id {
      AfterMembers(rows[1..], cursor, rest[k]);
      var j :| 0 <= j < |rows[1..]| && rows[1..][j] == rest[k];
      assert rows[j + 1] == rest[k];
    }
  }

  /** What is left after a page is the old remainder without that page: no gap and no repeat. */
  lemma PageThenRest(rows: seq<LogRow>, cursor: int, n: nat)
    requires Ordered(rows) && 0 < n <= |After(rows, cursor)|
    ensures var rest := After(rows, cursor);
            rest[n - 1].id > cursor && After(rows, rest[n - 1].id) == rest[n..]
  {
    var rest := After(rows, cursor);
    AfterFrom(rows, cursor);
    AfterOrdered(rows, cursor);
    AfterLater(rows, cursor, rest[n - 1].id);
    AfterSplit(rest, n, rest[n - 1].id);
    NoneAfter(rest[..n], rest[n - 1].id);
    AllAfter(rows, cursor, n);
  }

  lemma {:induction false} NoneAfter(rows: seq<LogRow>, cursor: int)
    requires forall k :: 0 <= k < |rows| ==> rows[k].id <= cursor
    ensures After(rows, cursor) == []
    decreases |rows|
  {
    if rows != [] { NoneAfter(rows[1..], cursor); }
  }

  lemma AllAfter(rows: seq<LogRow>, cursor: int, n: nat)
    requires Ordered(rows) && 0 < n <= |After(rows, cursor)|
    ensures var rest := After(rows, cursor); After(rest[n..], rest[n - 1].id) == rest[n..]
  {
    var rest := After(rows, cursor);
    AfterOrdered(rows, cursor);
    AfterVisible(rows, cursor);
    KeepAll(rest[n..], rest[n - 1].id);
  }

  lemma {:induction false} AfterVisible(rows: seq<LogRow>, cursor: int)
    ensures forall k :: 0 <= k < |After(rows, cursor)| ==> After(rows, cursor)[k].visible
    decreases |rows|
  {
    if rows != [] { AfterVisible(rows[1..], cursor); }
  }

  lemma {:induction false} KeepAll(rows: seq<LogRow>, cursor: int)
    requires forall k :: 0 <= k < |rows| ==> rows[k].id > cursor && rows[k].visible
    ensures After(rows, cursor) == rows
    decreases |rows|
  {
    if rows != [] { KeepAll(rows[1..], cursor); }
  }

  lemma NextInRange(rows: seq<LogRow>, cursor: int, n: nat)
    requires Ordered(rows) && 0 < n <= |After(rows, cursor)|
    ensures MinId(rows) <= After(rows, cursor)[n - 1].id <= MaxId(rows) && MinId(rows) > 0
  {
    AfterFrom(rows, cursor);
    var k :| 0 <= k < |rows| && rows[k] == After(rows, cursor)[n - 1];
  }

  lemma OneFetch(rows: seq<LogRow>, start: int, all: seq<LogRow>, cursor: int, page: seq<LogRow>)
    requires Ordered(rows) && page != [] && page <= After(rows, cursor) && all + After(rows, cursor) == After(rows, start)
    ensures var next := page[|page| - 1].id;
            next > cursor && all + page + After(rows, next) == After(rows, start)
            && |After(rows, next)| < |After(rows, cursor)| && !ResetNeeded(rows, next)
  {
    PageThenRest(rows, cursor, |page|);
    NextInRange(rows, cursor, |page|);
    var rest := After(rows, cursor);
    assert page == rest[..|page|];
    assert all + page + rest[|page|..] == all + rest;
  }

  /** Asking again from each returned cursor, with any limits, yields exactly the visible suffix and ends. */
  method FetchAll(rows: seq<LogRow>, start: int, limits: nat -> int) returns (all: seq<LogRow>, cursor: int, reset: bool)
    requires Ordered(rows)
    ensures reset <==> ResetNeeded(rows, start)
    ensures !reset ==> all == After(rows, start) && After(rows, cursor) == []
  {
    var page, next, again := Changes(rows, start, limits(0));
    if again { return [], next, true; }
    all, cursor, reset := [], start, false;
    var asked := 0;
    while page != []
      invariant page <= After(rows, cursor) && (page == [] ==> After(rows, cursor) == [])
      invariant next == if page == [] then cursor else page[|page| - 1].id
      invariant all + After(rows, cursor) == After(rows, start)
      decreases |After(rows, cursor)|
    {
      OneFetch(rows, start, all, cursor, page);
      all, cursor, asked := all + page, next, asked + 1;
      page, next, again := Changes(rows, cursor, limits(asked));
    }
  }

  // ---------------------------------------------------------------- retention

  /**
   * Retention removes the oldest rows. If a positive cursor is not told to reset, nothing it has not
   * seen was removed: the pruned table answers as the full history would.
   */
  lemma NoResetNoLoss(history: seq<LogRow>, removed: nat, cursor: int)
    requires Ordered(history) && removed <= |history| && cursor > 0
    requires !ResetNeeded(history[removed..], cursor)
    ensures forall k :: 0 <= k < removed ==> history[k].id <= cursor
    ensures After(history[removed..], cursor) == After(history, cursor)
  {
    NoneAfter(history[..removed], cursor);
    AfterSplit(history, removed, cursor);
  }

  // ---------------------------------------------------------------- the engine's cursor

  /** The rows after a cursor are a suffix of all visible rows. */
  lemma AfterSuffix(rows: seq<LogRow>, cursor: nat)
    requires Ordered(rows)
    ensures |After(rows, cursor)| <= |Visible(rows)|
    ensures After(rows, cursor) == Visible(rows)[|Visible(rows)| - |After(rows, cursor)|..]
  {
    AfterLater(rows, 0, cursor);
    AfterOrdered(rows, 0);
    AfterVisible(rows, 0);
    OrderedSuffix(Visible(rows), cursor);
  }

  lemma {:induction false} OrderedSuffix(rows: seq<LogRow>, cursor: int)
    requires Ordered(rows) && forall k :: 0 <= k < |rows| ==> rows[k].visible
    ensures |After(rows, cursor)| <= |rows| && After(rows, cursor) == rows[|rows| - |After(rows, cursor)|..]
    decreases |rows|
  {
    if rows != [] {
      if rows[0].id > cursor {
        KeepAll(rows, cursor);
      } else {
        OrderedSuffix(rows[1..], cursor);
        assert After(rows, cursor) == After(rows[1..], cursor);
      }
    }
  }

  /** The visible rows a client at this cursor has been given. */
  ghost function Seen(rows: seq<LogRow>, cursor: nat): seq<LogRow>
    requires Ordered(rows)
  {
    AfterSuffix(rows, cursor);
    Visible(rows)[..|Visible(rows)| - |After(rows, cursor)|]
  }

  lemma {:induction false} ChangesConcat(a: seq<LogRow>, b: seq<LogRow>)
    ensures ChangesOf(a + b) == ChangesOf(a) + ChangesOf(b)
    decreases |b|
  {
    if b == [] {
      assert a + b == a;
    } else {
      assert (a + b)[..|a + b| - 1] == a + b[..|b| - 1];
      ChangesConcat(a, b[..|b| - 1]);
    }
  }

  /** The mirror is the base view with every visible change up to the cursor applied. */
  ghost predicate InStep(mirror: Mirror, cursor: nat, base: Mirror, history: seq<LogRow>)
    requires Ordered(history)
  {
    mirror == Replayed(base, ChangesOf(Seen(history, cursor)))
  }

  class Engine {
    var cursor: nat
    var mirror: Mirror

    constructor ()
      ensures cursor == 0 && mirror == map[]
    {
      cursor, mirror := 0, map[];
    }

    /** Upserts every snapshot row; rows the snapshot lacks are not removed. */
    method Bootstrap(view: Mirror, max: nat)
      modifies this
      ensures mirror == old(mirror) + view && cursor == max
    {
      mirror := mirror + view;
      cursor := max;
    }

    method ApplyPage(page: seq<LogRow>)
      modifies this`mirror
      ensures mirror == Replayed(old(mirror), ChangesOf(page))
    {
      var k := 0;
      assert page[..0] == [];
      while k < |page|
        invariant 0 <= k <= |page| && mirror == Replayed(old(mirror), ChangesOf(page[..k]))
      {
        assert page[..k + 1][..k] == page[..k];
        mirror := ApplyChange(mirror, page[k].change);
        k := k + 1;
      }
      assert page[..k] == page;
    }

    /**
     * One pull against the retained rows of the history. A client in step stays in step, its cursor never
     * goes back, and once nothing newer is visible its mirror is the server's view. Through a bootstrap it
     * ends up with that view exactly when it held nothing that has been removed since.
     */
    method Pull(ghost base: Mirror, ghost history: seq<LogRow>, ghost removed: nat, rows: seq<LogRow>, view: Mirror)
      requires Ordered(history) && removed <= |history| && rows == history[removed..]
      requires view == ViewAt(base, history)
      modifies this
      ensures Client(cursor, mirror) == AfterPull(Client(old(cursor), old(mirror)), rows, view)
      ensures old(cursor) > 0 && !ResetNeeded(rows, old(cursor)) && InStep(old(mirror), old(cursor), base, history) ==>
                InStep(mirror, cursor, base, history) && old(cursor) <= cursor
                && (After(rows, cursor) == [] ==> mirror == view)
      ensures old(cursor) == 0 || ResetNeeded(rows, old(cursor)) ==>
                cursor == MaxId(Visible(rows)) && (mirror == view <==> old(mirror).Keys <= view.Keys)
                && (mirror == view && cursor > 0 ==> InStep(mirror, cursor, base, history))
    {
      if cursor == 0 {
        Rebuild(base, history, removed, rows, view);
        return;
      }
      var page, next, reset := NextPage(rows);
      if reset {
        Rebuild(base, history, removed, rows, view);
        return;
      }
      TakePage(base, history, removed, page, next);
    }

    /** Asks for at most two hundred changes after the cursor. */
    method NextPage(rows: seq<LogRow>) returns (page: seq<LogRow>, next: int, reset: bool)
      requires Ordered(rows)
      ensures reset <==> ResetNeeded(rows, cursor)
      ensures !reset ==> page == (if |After(rows, cursor)| < 200 then After(rows, cursor) else After(rows, cursor)[..200])
                         && next == (if page == [] then cursor else page[|page| - 1].id) && (page != [] ==> next > cursor)
    {
      page, next, reset := Changes(rows, cursor, 200);
      if !reset { OnePage(rows, cursor, page); }
    }

    /** Starts over from a snapshot. */
    method Rebuild(ghost base: Mirror, ghost history: seq<LogRow>, ghost removed: nat, rows: seq<LogRow>, view: Mirror)
      requires Ordered(history) && removed <= |history| && rows == history[removed..] && view == ViewAt(base, history)
      modifies this
      ensures cursor == MaxId(Visible(rows)) && mirror == old(mirror) + view
      ensures mirror == view <==> old(mirror).Keys <= view.Keys
      ensures mirror == view && cursor > 0 ==> InStep(mirror, cursor, base, history)
    {
      Bootstrap(view, MaxId(Visible(rows)));
      Bootstrapped(base, history, removed);
    }

    /** Applies a page and moves the cursor to its end. */
    method TakePage(ghost base: Mirror, ghost history: seq<LogRow>, ghost removed: nat, page: seq<LogRow>, next: int)
      requires Ordered(history) && removed <= |history| && cursor > 0 && !ResetNeeded(history[removed..], cursor)
      requires page <= After(history[removed..], cursor) && next == if page == [] then cursor else page[|page| - 1].id
      requires page != [] ==> next > cursor
      modifies this
      ensures cursor == next && mirror == Replayed(old(mirror), ChangesOf(page))
      ensures InStep(old(mirror), old(cursor), base, history) ==>
                InStep(mirror, cursor, base, history) && old(cursor) <= cursor
                && (After(history[removed..], cursor) == [] ==> mirror == ViewAt(base, history))
    {
      if InStep(mirror, cursor, base, history) { PullPage(mirror, cursor, base, history, removed, page); }
      ApplyPage(page);
      if next > cursor { cursor := next; }
    }
  }

  datatype Client = Client(cursor: nat, mirror: Mirror)

  ghost function ViewAt(base: Mirror, history: seq<LogRow>): Mirror {
    Replayed(base, ChangesOf(Visible(history)))
  }

  /** What one pull makes of a client: a bootstrap from the snapshot, or the next page. */
  function AfterPull(c: Client, rows: seq<LogRow>, view: Mirror): Client {
    if c.cursor == 0 || ResetNeeded(rows, c.cursor) then Client(MaxId(Visible(rows)), c.mirror + view)
    else
      var rest := After(rows, c.cursor);
      var page := if |rest| < 200 then rest else rest[..200];
      Client(if page == [] then c.cursor else page[|page| - 1].id, Replayed(c.mirror, ChangesOf(page)))
  }

  lemma OnePage(rows: seq<LogRow>, cursor: nat, page: seq<LogRow>)
    requires Ordered(rows) && page <= After(rows, cursor)
    requires |page| == if |After(rows, cursor)| < 200 then |After(rows, cursor)| else 200
    ensures page == if |After(rows, cursor)| < 200 then After(rows, cursor) else After(rows, cursor)[..200]
    ensures page != [] ==> page[|page| - 1].id > cursor
  {
    AfterFrom(rows, cursor);
    if page != [] { assert page[|page| - 1] == After(rows, cursor)[|page| - 1]; }
  }

  lemma LastVisible(rows: seq<LogRow>)
    requires Ordered(rows) && Visible(rows) != []
    ensures After(rows, MaxId(Visible(rows))) == []
  {
    LastIsMax(rows);
    AfterLater(rows, 0, MaxId(Visible(rows)));
    NoneAfter(Visible(rows), MaxId(Visible(rows)));
  }

  lemma LastIsRow(rows: seq<LogRow>) returns (k: nat)
    requires Visible(rows) != []
    ensures k < |rows| && rows[k].id == MaxId(Visible(rows))
  {
    var last := Visible(rows)[|Visible(rows)| - 1];
    AfterMembers(rows, 0, last);
    k :| k < |rows| && rows[k] == last;
  }

  lemma LastIsMax(rows: seq<LogRow>)
    requires Ordered(rows)
    ensures forall k :: 0 <= k < |Visible(rows)| ==> Visible(rows)[k].id <= MaxId(Visible(rows))
  {
    AfterOrdered(rows, 0);
  }

  lemma NothingNewer(history: seq<LogRow>, removed: nat)
    requires Ordered(history) && removed <= |history| && Visible(history[removed..]) != []
    ensures After(history, MaxId(Visible(history[removed..]))) == []
  {
    var rows := history[removed..];
    var cursor := MaxId(Visible(rows));
    LastVisible(rows);
    var k := LastIsRow(rows);
    assert history[removed + k] == rows[k];
    AfterSplit(history, removed, cursor);
    NoneAfter(history[..removed], cursor);
  }

  /** With the greatest visible retained id as cursor, everything visible has been seen. */
  lemma Bootstrapped(base: Mirror, history: seq<LogRow>, removed: nat)
    requires Ordered(history) && removed <= |history|
    ensures var cursor := MaxId(Visible(history[removed..]));
      cursor > 0 ==> Seen(history, cursor) == Visible(history)
                     && InStep(ViewAt(base, history), cursor, base, history)
  {
    if Visible(history[removed..]) != [] { NothingNewer(history, removed); }
  }

  lemma SeenMore(history: seq<LogRow>, cursor: nat, n: nat)
    requires Ordered(history) && 0 < n <= |After(history, cursor)|
    ensures var rest := After(history, cursor);
            rest[n - 1].id > cursor && Seen(history, rest[n - 1].id) == Seen(history, cursor) + rest[..n]
  {
    var rest, all := After(history, cursor), Visible(history);
    PageThenRest(history, cursor, n);
    AfterSuffix(history, cursor);
    assert |After(history, rest[n - 1].id)| == |rest| - n;
    FurtherBack(all, rest, n);
  }

  lemma FurtherBack(all: seq<LogRow>, rest: seq<LogRow>, n: nat)
    requires |rest| <= |all| && rest == all[|all| - |rest|..] && n <= |rest|
    ensures all[..|all| - (|rest| - n)] == all[..|all| - |rest|] + rest[..n]
  {
  }

  lemma PullPage(mirror: Mirror, cursor: nat, base: Mirror, history: seq<LogRow>, removed: nat, page: seq<LogRow>)
    requires Ordered(history) && removed <= |history| && cursor > 0 && !ResetNeeded(history[removed..], cursor)
    requires page <= After(history[removed..], cursor)
    requires InStep(mirror, cursor, base, history)
    ensures var next := if page == [] then cursor else page[|page| - 1].id;
            cursor <= next && InStep(Replayed(mirror, ChangesOf(page)), next, base, history)
            && (After(history[removed..], next) == [] ==>
                  Replayed(mirror, ChangesOf(page)) == Replayed(base, ChangesOf(Visible(history))))
  {
    NoResetNoLoss(history, removed, cursor);
    var rest := After(history, cursor);
    var next := if page == [] then cursor else page[|page| - 1].id;
    if page != [] {
      assert page == rest[..|page|];
      SeenMore(history, cursor, |page|);
    }
    assert Seen(history, next) == Seen(history, cursor) + page;
    ChangesConcat(Seen(history, cursor), page);
    ReplayConcat(base, ChangesOf(Seen(history, cursor)), ChangesOf(page));
    if After(history[removed..], next) == [] { CaughtUp(history, removed, cursor, next); }
  }

  lemma CaughtUp(history: seq<LogRow>, removed: nat, cursor: nat, next: nat)
    requires Ordered(history) && removed <= |history| && 0 < cursor <= next
    requires !ResetNeeded(history[removed..], cursor) && After(history[removed..], next) == []
    ensures Seen(history, next) == Visible(history)
  {
    NoResetNoLoss(history, removed, cursor);
    AfterSplit(history, removed, next);
    NoneAfter(history[..removed], next);
  }

  /** The log a drive has written since registration is such a history: it tells the current view. */
  lemma HistoryTellsView(cfg: Config, quota: nat, steps: seq<Step>, history: seq<LogRow>)
    requires LogGuarded(Init(cfg, quota), steps) && Ordered(history)
    requires ChangesOf(Visible(history)) == Run(Init(cfg, quota), steps).log
    ensures View(Run(Init(cfg, quota), steps).entries)
            == Replayed(View(Init(cfg, quota).entries), ChangesOf(Visible(history)))
    ensures Shows(Replayed(map[0 := Row(None, "/", Folder, 0, 1, "")], ChangesOf(Visible(history))),
                  Run(Init(cfg, quota), steps).entries)
  {
    InitTree(cfg, quota);
    ReplayEqualsState(Init(cfg, quota), steps);
    WholeLog(Run(Init(cfg, quota), steps).log);
    RootShows(cfg, quota);
  }

  lemma WholeLog(log: seq<Change>)
    ensures log[0..] == log
  {
  }

  lemma RootShows(cfg: Config, quota: nat)
    ensures Shows(map[0 := Row(None, "/", Folder, 0, 1, "")], Init(cfg, quota).entries)
  {
  }
}
