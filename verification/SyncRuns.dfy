/** A client that pulls while the server's log grows and its oldest rows are removed. */
module SyncRuns {
  import opened Model
  import opened Replay
  import opened SyncApi

  /** All rows ever logged, how many of the oldest are gone, and the client. */
  datatype World = World(history: seq<LogRow>, removed: nat, client: Client)

  datatype Event = Grow(rows: seq<LogRow>) | Retain(removed: nat) | Pull

  ghost function Happened(w: World, base: Mirror, e: Event): World
    requires w.removed <= |w.history|
  {
    match e
    case Grow(rows) => if Ordered(w.history + rows) then w.(history := w.history + rows) else w
    case Retain(n) => if w.removed <= n <= |w.history| then w.(removed := n) else w
    case Pull => w.(client := AfterPull(w.client, w.history[w.removed..], ViewAt(base, w.history)))
  }

  ghost function Followed(w: World, base: Mirror, events: seq<Event>): (r: World)
    requires w.removed <= |w.history|
    ensures r.removed <= |r.history|
  {
    if events == [] then w else Happened(Followed(w, base, events[..|events| - 1]), base, events[|events| - 1])
  }

  /** A client with a cursor has exactly what was visible up to it. */
  ghost predicate Sound(w: World, base: Mirror) {
    && Ordered(w.history) && w.removed <= |w.history|
    && (w.client.cursor > 0 ==> w.client.cursor <= MaxId(w.history) && InStep(w.client.mirror, w.client.cursor, base, w.history))
  }

  predicate Bootstraps(w: World)
    requires w.removed <= |w.history|
  {
    w.client.cursor == 0 || ResetNeeded(w.history[w.removed..], w.client.cursor)
  }

  /** A bootstrap finds nothing at the client that the server no longer has. */
  ghost predicate CleanGuard(w: World, base: Mirror, e: Event)
    requires w.removed <= |w.history|
  {
    e.Pull? && Bootstraps(w) ==> w.client.mirror.Keys <= ViewAt(base, w.history).Keys
  }

  lemma {:induction false} AfterConcat(a: seq<LogRow>, b: seq<LogRow>, cursor: int)
    ensures After(a + b, cursor) == After(a, cursor) + After(b, cursor)
  {
    assert (a + b)[..|a|] == a && (a + b)[|a|..] == b;
    AfterSplit(a + b, |a|, cursor);
  }

  lemma {:induction false} SameAfter(rows: seq<LogRow>, a: int, b: int)
    requires forall k :: 0 <= k < |rows| ==> rows[k].id > a && rows[k].id > b
    ensures After(rows, a) == After(rows, b)
    decreases |rows|
  {
    if rows != [] { SameAfter(rows[1..], a, b); }
  }

  /** New rows come after every cursor: what a client has seen stays what it has seen. */
  lemma InStepGrows(mirror: Mirror, cursor: nat, base: Mirror, history: seq<LogRow>, more: seq<LogRow>)
    requires Ordered(history + more) && Ordered(history) && cursor <= MaxId(history)
    ensures Seen(history + more, cursor) == Seen(history, cursor)
    ensures InStep(mirror, cursor, base, history) <==> InStep(mirror, cursor, base, history + more)
  {
    AfterConcat(history, more, cursor);
    AfterConcat(history, more, 0);
    forall k | 0 <= k < |more| ensures more[k].id > cursor {
      assert more[k] == (history + more)[|history| + k];
      if history != [] { assert history[|history| - 1] == (history + more)[|history| - 1]; }
    }
    SameAfter(more, cursor, 0);
    AfterSuffix(history, cursor);
    AfterSuffix(history + more, cursor);
  }

  lemma CursorBelow(rows: seq<LogRow>, history: seq<LogRow>, removed: nat, cursor: int, n: nat)
    requires Ordered(history) && removed <= |history| && rows == history[removed..] && 0 < n <= |After(rows, cursor)|
    ensures After(rows, cursor)[n - 1].id <= MaxId(history)
  {
    AfterFrom(rows, cursor);
    var k :| 0 <= k < |rows| && rows[k] == After(rows, cursor)[n - 1];
    assert history[removed + k] == rows[k];
  }

  lemma BootstrapSound(w: World, base: Mirror)
    requires Sound(w, base) && Bootstraps(w) && w.client.mirror.Keys <= ViewAt(base, w.history).Keys
    ensures Sound(Happened(w, base, Pull), base)
  {
    var rows, view := w.history[w.removed..], ViewAt(base, w.history);
    Bootstrapped(base, w.history, w.removed);
    assert w.client.mirror + view == view;
    if Visible(rows) != [] { CursorBelow(rows, w.history, w.removed, 0, |Visible(rows)|); }
  }

  lemma PageSound(w: World, base: Mirror)
    requires Sound(w, base) && !Bootstraps(w)
    ensures Sound(Happened(w, base, Pull), base)
  {
    var rows, c := w.history[w.removed..], w.client;
    var rest := After(rows, c.cursor);
    var page := if |rest| < 200 then rest else rest[..200];
    PullPage(c.mirror, c.cursor, base, w.history, w.removed, page);
    if page != [] { CursorBelow(rows, w.history, w.removed, c.cursor, |page|); }
  }

  lemma EventSound(w: World, base: Mirror, e: Event)
    requires Sound(w, base) && CleanGuard(w, base, e)
    ensures Sound(Happened(w, base, e), base)
  {
    match e
    case Pull => if Bootstraps(w) { BootstrapSound(w, base); } else { PageSound(w, base); }
    case Retain(_) =>
    case Grow(rows) =>
      if Ordered(w.history + rows) && w.client.cursor > 0 {
        InStepGrows(w.client.mirror, w.client.cursor, base, w.history, rows);
        MaxGrows(w.history, rows);
      }
  }

  lemma MaxGrows(history: seq<LogRow>, more: seq<LogRow>)
    requires Ordered(history + more)
    ensures MaxId(history) <= MaxId(history + more)
  {
    if more != [] && history != [] {
      var all := history + more;
      assert all[|history| - 1] == history[|history| - 1];
    } else {
      assert more == [] ==> history + more == history;
    }
  }

  ghost predicate CleanRun(w: World, base: Mirror, events: seq<Event>)
    requires w.removed <= |w.history|
  {
    events == [] ||
    var rest, last := events[..|events| - 1], events[|events| - 1];
    CleanRun(w, base, rest) && CleanGuard(Followed(w, base, rest), base, last)
  }

  /**
   * Over any run of logging, retention and pulls in which bootstraps find nothing stale, a client with a
   * cursor has exactly what was visible up to it; with nothing newer retained it has the server's view.
   */
  lemma {:induction false} AlwaysInStep(w: World, base: Mirror, events: seq<Event>)
    requires Sound(w, base) && CleanRun(w, base, events)
    ensures var v := Followed(w, base, events);
      && Sound(v, base)
      && (v.client.cursor > 0 && !ResetNeeded(v.history[v.removed..], v.client.cursor)
          && After(v.history[v.removed..], v.client.cursor) == [] ==>
            v.client.mirror == ViewAt(base, v.history))
    decreases |events|
  {
    if events != [] {
      var rest := events[..|events| - 1];
      AlwaysInStep(w, base, rest);
      EventSound(Followed(w, base, rest), base, events[|events| - 1]);
    }
    var v := Followed(w, base, events);
    if v.client.cursor > 0 && !ResetNeeded(v.history[v.removed..], v.client.cursor)
       && After(v.history[v.removed..], v.client.cursor) == [] {
      CaughtUp(v.history, v.removed, v.client.cursor, v.client.cursor);
    }
  }

  /** A new client starts sound, and its first bootstrap finds nothing stale. */
  lemma NewClient(history: seq<LogRow>, removed: nat, base: Mirror)
    requires Ordered(history) && removed <= |history|
    ensures var w := World(history, removed, Client(0, map[])); Sound(w, base) && CleanGuard(w, base, Pull)
  {
  }

  // ---------------------------------------------------------------- rows that stay

  const SAMPLE_ROW: Row := Row(None, "b", File, 0, 1, "")

  function FirstRow(): LogRow {
    LogRow(1, true, Change(Upsert, 5, SAMPLE_ROW))
  }

  function SecondRow(): LogRow {
    LogRow(2, true, Change(Purged, 5, SAMPLE_ROW))
  }

  /** Bootstrap, then a purge whose log row is removed before the next pull: the entry stays at the client. */
  function StaleRun(): seq<Event> {
    [Grow([FirstRow()]), Pull, Grow([SecondRow()]), Retain(2), Pull]
  }

  lemma FollowedTo(w: World, base: Mirror, events: seq<Event>, e: Event, u: World, v: World)
    requires w.removed <= |w.history| && Followed(w, base, events) == u && Happened(u, base, e) == v
    ensures Followed(w, base, events + [e]) == v
  {
    FollowedMore(w, base, events, e);
  }

  lemma FollowedMore(w: World, base: Mirror, events: seq<Event>, e: Event)
    requires w.removed <= |w.history|
    ensures Followed(w, base, events + [e]) == Happened(Followed(w, base, events), base, e)
  {
    var more := events + [e];
    assert more[..|more| - 1] == events && more[|more| - 1] == e && more != [];
  }

  lemma FirstView()
    ensures Visible([FirstRow()]) == [FirstRow()] && ViewAt(map[], [FirstRow()]) == map[5 := SAMPLE_ROW]
  {
    var rows := [FirstRow()];
    assert After(rows[1..], 0) == [];
    assert ChangesOf(rows[..0]) == [] && ChangesOf(rows) == [FirstRow().change];
    assert Replayed(map[], [FirstRow().change][..0]) == map[];
  }

  lemma SecondView()
    ensures ViewAt(map[], [FirstRow(), SecondRow()]) == map[]
  {
    var one, two := FirstRow(), SecondRow();
    var rows := [one, two];
    assert rows[1..] == [two] && [two][1..] == [];
    assert After([two][1..], 0) == [] && After([two], 0) == [two] && Visible(rows) == rows;
    FirstView();
    assert rows[..1] == [one] && ChangesOf(rows) == ChangesOf([one]) + [two.change];
    var changes := ChangesOf(rows);
    assert changes[..|changes| - 1] == ChangesOf([one]);
    assert Replayed(map[], changes) == ApplyChange(Replayed(map[], ChangesOf([one])), two.change);
  }

  /** What the client holds after the first pull. */
  function Holder(): Client {
    Client(1, map[5 := SAMPLE_ROW])
  }

  /** The first pull: a snapshot of the one entry. */
  lemma FirstPull()
    ensures Happened(World([FirstRow()], 0, Client(0, map[])), map[], Pull) == World([FirstRow()], 0, Holder())
  {
    FirstView();
    assert [FirstRow()][0..] == [FirstRow()];
    assert map[] + map[5 := SAMPLE_ROW] == map[5 := SAMPLE_ROW];
  }

  /** The last pull: nothing is retained, the view is empty, and the entry stays. */
  lemma LastPull()
    ensures Happened(World([FirstRow(), SecondRow()], 2, Holder()), map[], Pull)
            == World([FirstRow(), SecondRow()], 2, Client(0, map[5 := SAMPLE_ROW]))
  {
    SecondView();
    assert [FirstRow(), SecondRow()][2..] == [];
    assert map[5 := SAMPLE_ROW] + map[] == map[5 := SAMPLE_ROW];
  }

  lemma FirstGrow()
    ensures Happened(World([], 0, Client(0, map[])), map[], Grow([FirstRow()])) == World([FirstRow()], 0, Client(0, map[]))
  {
    assert [] + [FirstRow()] == [FirstRow()];
  }

  lemma UpToFirstPull()
    ensures Followed(World([], 0, Client(0, map[])), map[], [Grow([FirstRow()]), Pull]) == World([FirstRow()], 0, Holder())
  {
    var w := World([], 0, Client(0, map[]));
    FirstGrow();
    FollowedTo(w, map[], [], Grow([FirstRow()]), w, World([FirstRow()], 0, Client(0, map[])));
    FirstPull();
    FollowedTo(w, map[], [Grow([FirstRow()])], Pull, World([FirstRow()], 0, Client(0, map[])), World([FirstRow()], 0, Holder()));
    assert [Grow([FirstRow()])] + [Pull] == [Grow([FirstRow()]), Pull];
  }

  lemma SecondGrow()
    ensures Happened(World([FirstRow()], 0, Holder()), map[], Grow([SecondRow()])) == World([FirstRow(), SecondRow()], 0, Holder())
  {
    assert [FirstRow()] + [SecondRow()] == [FirstRow(), SecondRow()];
  }

  lemma UpToPurge()
    ensures Followed(World([], 0, Client(0, map[])), map[], [Grow([FirstRow()]), Pull, Grow([SecondRow()])])
            == World([FirstRow(), SecondRow()], 0, Holder())
  {
    var first: seq<Event> := [Grow([FirstRow()]), Pull];
    UpToFirstPull();
    SecondGrow();
    FollowedTo(World([], 0, Client(0, map[])), map[], first, Grow([SecondRow()]),
               World([FirstRow()], 0, Holder()), World([FirstRow(), SecondRow()], 0, Holder()));
    assert first + [Grow([SecondRow()])] == [Grow([FirstRow()]), Pull, Grow([SecondRow()])];
  }

  lemma UpToRetention()
    ensures Followed(World([], 0, Client(0, map[])), map[], [Grow([FirstRow()]), Pull, Grow([SecondRow()]), Retain(2)])
            == World([FirstRow(), SecondRow()], 2, Holder())
  {
    var first: seq<Event> := [Grow([FirstRow()]), Pull, Grow([SecondRow()])];
    UpToPurge();
    FollowedTo(World([], 0, Client(0, map[])), map[], first, Retain(2),
               World([FirstRow(), SecondRow()], 0, Holder()), World([FirstRow(), SecondRow()], 2, Holder()));
    assert first + [Retain(2)] == [Grow([FirstRow()]), Pull, Grow([SecondRow()]), Retain(2)];
  }

  /** After the reset the client still has the entry and the server's view is empty. */
  lemma StaleAfterReset()
    ensures var v := Followed(World([], 0, Client(0, map[])), map[], StaleRun());
      v.client.mirror == map[5 := SAMPLE_ROW] && ViewAt(map[], v.history) == map[]
  {
    var events := [Grow([FirstRow()]), Pull, Grow([SecondRow()]), Retain(2)];
    UpToRetention();
    LastPull();
    SecondView();
    FollowedTo(World([], 0, Client(0, map[])), map[], events, Pull, World([FirstRow(), SecondRow()], 2, Holder()),
               World([FirstRow(), SecondRow()], 2, Client(0, map[5 := SAMPLE_ROW])));
    assert events + [Pull] == StaleRun();
  }
}
