/** Parent links stay acyclic and every live folder has only live ancestors, over every run. */
module FolderTree {
  import opened Names
  import opened Sums
  import opened Model

  // ---------------------------------------------------------------- recursive queries

  lemma SubtreeClosed(es: Entries, sel: set<Id>, a: Id)
    ensures a in es && a in sel ==> a in Subtree(es, sel, a)
    ensures Subtree(es, sel, a) <= es.Keys * sel
    ensures forall c :: c in es && c in sel && es[c].parent.Some? && es[c].parent.value in Subtree(es, sel, a) ==>
              c in Subtree(es, sel, a)
    ensures forall d :: d in Subtree(es, sel, a) && d != a ==>
              es[d].parent.Some? && es[d].parent.value in Subtree(es, sel, a)
  {
    if a in es && a in sel { assert Climbs(es, sel, a, a, 0); }
    forall c | c in es && c in sel && es[c].parent.Some? && es[c].parent.value in Subtree(es, sel, a)
      ensures c in Subtree(es, sel, a)
    {
      var n: nat :| Climbs(es, sel, es[c].parent.value, a, n);
      assert Climbs(es, sel, c, a, n + 1);
    }
    forall d | d in Subtree(es, sel, a) && d != a
      ensures es[d].parent.Some? && es[d].parent.value in Subtree(es, sel, a)
    {
      var n: nat :| Climbs(es, sel, d, a, n);
      assert Climbs(es, sel, es[d].parent.value, a, n - 1);
    }
  }

  /** The subtree is the least set that holds the root and is closed under selected children. */
  lemma {:induction false} SubtreeLeast(es: Entries, sel: set<Id>, d: Id, a: Id, n: nat, rows: set<Id>)
    requires Climbs(es, sel, d, a, n)
    requires a in rows
    requires forall c :: c in es && c in sel && es[c].parent.Some? && es[c].parent.value in rows ==> c in rows
    ensures d in rows
    decreases n
  {
    if n > 0 { SubtreeLeast(es, sel, es[d].parent.value, a, n - 1, rows); }
  }

  // ---------------------------------------------------------------- the invariant

  ghost predicate Ranked(es: Entries, rank: map<Id, nat>) {
    forall i :: i in es ==>
      i in rank &&
      (es[i].parent.Some? && es[i].parent.value in es ==>
         es[i].parent.value in rank && rank[es[i].parent.value] < rank[i])
  }

  ghost predicate Acyclic(es: Entries) {
    exists rank :: Ranked(es, rank)
  }

  /** Parents are folders; a live folder's parent is live. */
  ghost predicate Linked(es: Entries) {
    forall i :: i in es && es[i].parent.Some? ==>
      es[i].parent.value in es && es[es[i].parent.value].kind == Folder
      && (es[i].kind == Folder && es[i].live ==> es[es[i].parent.value].live)
  }

  ghost predicate EntriesOk(es: Entries, root: Id, next: Id) {
    LiveFolder(es, root) && es[root].parent.None?
    && (forall i :: i in es ==> i < next)
    && Linked(es) && Acyclic(es) && UniqueNames(es)
  }

  ghost predicate SessionParentsOk(es: Entries, ss: map<Id, Session>) {
    forall i :: i in ss && ss[i].parent.Some? ==> ss[i].parent.value in es && es[ss[i].parent.value].kind == Folder
  }

  ghost predicate TreeOk(s: State) {
    EntriesOk(s.entries, s.root, s.next) && SessionParentsOk(s.entries, s.sessions)
  }

  // ---------------------------------------------------------------- what it means

  lemma {:induction false} ClimbRaisesRank(es: Entries, sel: set<Id>, d: Id, a: Id, n: nat, rank: map<Id, nat>)
    requires Ranked(es, rank) && Climbs(es, sel, d, a, n)
    ensures a in rank && d in rank && rank[a] + n <= rank[d]
    decreases n
  {
    if n > 0 { ClimbRaisesRank(es, sel, es[d].parent.value, a, n - 1, rank); }
  }

  /** No row is its own proper ancestor, so every recursive query ends. */
  lemma NoCycle(es: Entries, d: Id, n: nat)
    requires Acyclic(es) && n > 0
    ensures !Climbs(es, es.Keys, d, d, n)
  {
    if Climbs(es, es.Keys, d, d, n) {
      var rank :| Ranked(es, rank);
      ClimbRaisesRank(es, es.Keys, d, d, n, rank);
    }
  }

  /** Above a live folder everything is a live folder, so the live-only climb sees the whole chain. */
  lemma {:induction false} LiveChain(es: Entries, d: Id, a: Id, n: nat)
    requires Linked(es) && LiveFolder(es, d) && Climbs(es, es.Keys, d, a, n)
    ensures LiveFolder(es, a)
    ensures Climbs(es, LiveIds(es), d, a, n)
    decreases n
  {
    if n > 0 { LiveChain(es, es[d].parent.value, a, n - 1); }
  }

  lemma LiveAncestors(s: State, d: Id, a: Id, n: nat)
    requires TreeOk(s) && LiveFolder(s.entries, d) && Climbs(s.entries, s.entries.Keys, d, a, n)
    ensures LiveFolder(s.entries, a)
  {
    LiveChain(s.entries, d, a, n);
  }

  // ---------------------------------------------------------------- single rows

  /** Rows may change anything but parent, kind and liveness as long as the name index admits them. */
  lemma KeepLinks(es: Entries, fs: Entries, root: Id, next: Id, next': Id)
    requires EntriesOk(es, root, next) && next <= next' && fs.Keys == es.Keys && UniqueNames(fs)
    requires forall i :: i in es ==> fs[i].parent == es[i].parent && fs[i].kind == es[i].kind && fs[i].live == es[i].live
    ensures EntriesOk(fs, root, next')
  {
    var rank :| Ranked(es, rank);
    assert Ranked(fs, rank);
  }

  lemma SameNames(es: Entries, fs: Entries)
    requires UniqueNames(es) && fs.Keys <= es.Keys
    requires forall i :: i in fs ==> fs[i].parent == es[i].parent && fs[i].name == es[i].name && (fs[i].live ==> es[i].live)
    ensures UniqueNames(fs)
  {
    forall i, j | i in fs && j in fs ensures !Clash(fs, i, j) {
      assert !Clash(es, i, j);
    }
  }

  lemma InsertRow(es: Entries, root: Id, next: Id, i: Id, e: Entry)
    requires EntriesOk(es, root, next) && i >= next && UniqueNames(es[i := e])
    requires e.parent.Some? ==> e.parent.value in es && es[e.parent.value].kind == Folder
    requires e.parent.Some? && e.kind == Folder && e.live ==> es[e.parent.value].live
    ensures EntriesOk(es[i := e], root, i + 1)
  {
    var rank :| Ranked(es, rank);
    var fs := es[i := e];
    assert Ranked(fs, rank[i := if e.parent.Some? then rank[e.parent.value] + 1 else 0]);
  }

  // ---------------------------------------------------------------- Move

  ghost function Reparent(es: Entries, i: Id, p: Id): Entries
    requires i in es
  {
    es[i := es[i].(parent := Some(p), version := es[i].version + 1)]
  }

  lemma {:induction false} ChainOutranks(es: Entries, i: Id, p: Id, d: Id, n: nat, rank: map<Id, nat>)
    requires i in es && p in es && Ranked(Reparent(es, i, p), rank)
    requires Climbs(es, LiveIds(es), d, i, n)
    ensures d in rank && i in rank && rank[i] <= rank[d]
    decreases n
  {
    if d != i { ChainOutranks(es, i, p, es[d].parent.value, n - 1, rank); }
  }

  /**
   * Looking only along live links, Move refuses exactly the targets that would close a cycle.
   * This needs the other half of the invariant: a live target folder has only live ancestors.
   */
  lemma MoveCheckExact(es: Entries, i: Id, p: Id)
    requires Linked(es) && Acyclic(es) && i in LiveIds(es) && LiveFolder(es, p)
    ensures p in Subtree(es, LiveIds(es), i) <==> !Acyclic(Reparent(es, i, p))
  {
    var fs := Reparent(es, i, p);
    if p in Subtree(es, LiveIds(es), i) {
      if Acyclic(fs) {
        var rank :| Ranked(fs, rank);
        var n: nat :| Climbs(es, LiveIds(es), p, i, n);
        assert rank[p] < rank[i];
        ChainOutranks(es, i, p, p, n, rank);
      }
    } else {
      var rank :| Ranked(es, rank);
      var below := Subtree(es, es.Keys, i);
      SubtreeClosed(es, es.Keys, i);
      if p in below {
        var n: nat :| Climbs(es, es.Keys, p, i, n);
        LiveChain(es, p, i, n);
      }
      var lifted := map x | x in es :: if x in below then rank[x] + rank[p] + 1 else rank[x];
      assert Ranked(fs, lifted);
    }
  }

  lemma MoveKeeps(s: State, i: Id, p: Id)
    requires TreeOk(s)
    ensures TreeOk(AfterMove(s, i, p))
  {
    if AfterMove(s, i, p) != s { MoveCheckExact(s.entries, i, p); }
  }

  // ---------------------------------------------------------------- trash

  lemma FlipKeepsRank(es: Entries, ids: set<Id>, live: bool)
    requires Acyclic(es)
    ensures Acyclic(Flip(es, ids, live))
  {
    var rank :| Ranked(es, rank);
    assert Ranked(Flip(es, ids, live), rank);
  }

  lemma DeleteKeeps(s: State, i: Id, order: seq<Id>)
    requires TreeOk(s)
    ensures TreeOk(AfterDelete(s, i, order))
  {
    var es, ids := s.entries, TrashTargets(s, i);
    if AfterDelete(s, i, order) != s {
      SubtreeClosed(es, LiveIds(es), i);
      FlipKeepsRank(es, ids, false);
      SameNames(es, Flip(es, ids, false));
    }
  }

  lemma RestoreKeeps(s: State, i: Id, order: seq<Id>)
    requires TreeOk(s)
    ensures TreeOk(AfterRestore(s, i, order))
  {
    var es, ids := s.entries, RestoreTargets(s, i);
    if AfterRestore(s, i, order) != s {
      SubtreeClosed(es, TrashedIds(es), i);
      FlipKeepsRank(es, ids, true);
    }
  }

  /** A purge takes the whole subtree: nothing is left pointing into it, so ON DELETE SET NULL never acts on an entry. */
  lemma PurgeLeavesNoOrphan(s: State, i: Id, order: seq<Id>)
    requires TreeOk(s) && PurgeTargets(s, i) != {} && Enumerates(order, PurgeTargets(s, i))
    ensures AfterPurge(s, i, order).entries == map j | j in s.entries && j !in PurgeTargets(s, i) :: s.entries[j]
    ensures Linked(AfterPurge(s, i, order).entries)
    ensures s.root !in PurgeTargets(s, i)
  {
    SubtreeClosed(s.entries, s.entries.Keys, i);
  }

  lemma PurgeKeeps(s: State, i: Id, order: seq<Id>)
    requires TreeOk(s)
    ensures TreeOk(AfterPurge(s, i, order))
  {
    if AfterPurge(s, i, order) != s {
      PurgeLeavesNoOrphan(s, i, order);
      var rank :| Ranked(s.entries, rank);
      assert Ranked(AfterPurge(s, i, order).entries, rank);
      SameNames(s.entries, AfterPurge(s, i, order).entries);
    }
  }

  // ---------------------------------------------------------------- trash round trip

  function TwiceTouched(es: Entries, ids: set<Id>): Entries {
    map i | i in es :: if i in ids then es[i].(version := es[i].version + 2) else es[i]
  }

  /** Nothing that was trashed earlier hangs below the rows, and their root can come back. */
  predicate RoundTrips(es: Entries, i: Id, ids: set<Id>)
    requires i in es
  {
    (es[i].parent.None? || es[i].parent.value in LiveIds(es))
    && forall x | x in es :: !es[x].live && es[x].parent.Some? ==> es[x].parent.value !in ids
  }

  lemma {:induction false} TrashedChain(es: Entries, i: Id, d: Id, n: nat)
    requires i in es && Climbs(es, LiveIds(es), d, i, n)
    ensures var ids := Subtree(es, LiveIds(es), i);
            var fs := Flip(es, ids, false);
            Climbs(fs, TrashedIds(fs), d, i, n)
    decreases n
  {
    if n > 0 { TrashedChain(es, i, es[d].parent.value, n - 1); }
    assert d in Subtree(es, LiveIds(es), i);
  }

  lemma {:induction false} NothingElse(es: Entries, i: Id, d: Id, n: nat)
    requires i in LiveIds(es)
    requires RoundTrips(es, i, Subtree(es, LiveIds(es), i))
    requires var fs := Flip(es, Subtree(es, LiveIds(es), i), false); Climbs(fs, TrashedIds(fs), d, i, n)
    ensures d in Subtree(es, LiveIds(es), i)
    decreases n
  {
    SubtreeClosed(es, LiveIds(es), i);
    if n > 0 { NothingElse(es, i, es[d].parent.value, n - 1); }
  }

  lemma RestoredSet(s: State, i: Id, order: seq<Id>)
    requires TreeOk(s) && TrashTargets(s, i) != {} && Enumerates(order, TrashTargets(s, i))
    requires RoundTrips(s.entries, i, TrashTargets(s, i))
    ensures RestoreTargets(AfterDelete(s, i, order), i) == TrashTargets(s, i)
  {
    var es, ids := s.entries, TrashTargets(s, i);
    var fs := Flip(es, ids, false);
    SubtreeClosed(es, LiveIds(es), i);
    if es[i].parent.Some? && es[i].parent.value in ids {
      var n: nat :| Climbs(es, LiveIds(es), es[i].parent.value, i, n);
      var rank :| Ranked(es, rank);
      ClimbRaisesRank(es, LiveIds(es), es[i].parent.value, i, n, rank);
    }
    forall d | d in ids ensures d in Subtree(fs, TrashedIds(fs), i) {
      var n: nat :| Climbs(es, LiveIds(es), d, i, n);
      TrashedChain(es, i, d, n);
    }
    forall d | d in Subtree(fs, TrashedIds(fs), i) ensures d in ids {
      var n: nat :| Climbs(fs, TrashedIds(fs), d, i, n);
      NothingElse(es, i, d, n);
    }
  }

  lemma StillBelow(s: State, i: Id, order: seq<Id>, d: Id)
    requires TrashTargets(s, i) != {} && Enumerates(order, TrashTargets(s, i)) && d in TrashTargets(s, i)
    requires RestoreTargets(AfterDelete(s, i, order), i) != {}
    ensures d in RestoreTargets(AfterDelete(s, i, order), i)
  {
    var n: nat :| Climbs(s.entries, LiveIds(s.entries), d, i, n);
    TrashedChain(s.entries, i, d, n);
  }

  lemma FlipBack(s: State, i: Id, order: seq<Id>, back: seq<Id>)
    requires TreeOk(s) && TrashTargets(s, i) != {} && Enumerates(order, TrashTargets(s, i))
    requires RoundTrips(s.entries, i, TrashTargets(s, i))
    requires Enumerates(back, TrashTargets(s, i))
    ensures AfterRestore(AfterDelete(s, i, order), i, back).entries == TwiceTouched(s.entries, TrashTargets(s, i))
  {
    SubtreeClosed(s.entries, LiveIds(s.entries), i);
    var es, ids := s.entries, TrashTargets(s, i);
    var t := AfterDelete(s, i, order);
    assert t.entries == Flip(es, ids, false);
    RestoredSet(s, i, order);
    FlipTwice(es, ids);
    assert AfterRestore(t, i, back).entries == Flip(t.entries, ids, true);
  }

  lemma FlipTwice(es: Entries, ids: set<Id>)
    requires UniqueNames(es) && ids <= LiveIds(es)
    ensures Flip(Flip(es, ids, false), ids, true) == TwiceTouched(es, ids)
    ensures UniqueNames(TwiceTouched(es, ids))
  {
    SameNames(es, TwiceTouched(es, ids));
  }

  /** A row trashed earlier below the subtree comes back with it. */
  lemma EarlierComesBack(s: State, i: Id, order: seq<Id>, x: Id)
    requires TreeOk(s) && TrashTargets(s, i) != {} && Enumerates(order, TrashTargets(s, i))
    requires x in s.entries && !s.entries[x].live && s.entries[x].parent.Some? && s.entries[x].parent.value in TrashTargets(s, i)
    requires RestoreTargets(AfterDelete(s, i, order), i) != {}
    ensures x in RestoreTargets(AfterDelete(s, i, order), i)
  {
    var t := AfterDelete(s, i, order);
    SubtreeClosed(s.entries, LiveIds(s.entries), i);
    SubtreeClosed(t.entries, TrashedIds(t.entries), i);
    StillBelow(s, i, order, s.entries[x].parent.value);
  }

  /** Restoring changes exactly its targets, or nothing. */
  lemma RestoreOrNot(s: State, i: Id, back: seq<Id>)
    ensures var u := AfterRestore(s, i, back);
      u == s || (RestoreTargets(s, i) != {} && u.entries == Flip(s.entries, RestoreTargets(s, i), true))
  {
  }

  lemma NoFlipBack(s: State, i: Id, order: seq<Id>, back: seq<Id>)
    requires TreeOk(s) && TrashTargets(s, i) != {} && Enumerates(order, TrashTargets(s, i))
    requires !RoundTrips(s.entries, i, TrashTargets(s, i))
    requires Enumerates(back, RestoreTargets(AfterDelete(s, i, order), i))
    ensures AfterRestore(AfterDelete(s, i, order), i, back).entries != TwiceTouched(s.entries, TrashTargets(s, i))
  {
    var es, ids := s.entries, TrashTargets(s, i);
    var t := AfterDelete(s, i, order);
    var u := AfterRestore(t, i, back);
    SubtreeClosed(es, LiveIds(es), i);
    RestoreOrNot(t, i, back);
    if u == t {
      assert !t.entries[i].live && TwiceTouched(es, ids)[i].live;
    } else {
      var x :| x in es && !es[x].live && es[x].parent.Some? && es[x].parent.value in ids;
      EarlierComesBack(s, i, order, x);
      assert u.entries[x].live && !TwiceTouched(es, ids)[x].live;
    }
  }

  /**
   * Delete then Restore gives back every row, with the content version exactly two higher on exactly
   * the subtree, if and only if no row trashed earlier hangs below it and its parent is live.
   */
  lemma TrashRoundTrip(s: State, i: Id, order: seq<Id>, back: seq<Id>)
    requires TreeOk(s) && TrashTargets(s, i) != {} && Enumerates(order, TrashTargets(s, i))
    requires Enumerates(back, RestoreTargets(AfterDelete(s, i, order), i))
    ensures AfterRestore(AfterDelete(s, i, order), i, back).entries == TwiceTouched(s.entries, TrashTargets(s, i))
            <==> RoundTrips(s.entries, i, TrashTargets(s, i))
  {
    if RoundTrips(s.entries, i, TrashTargets(s, i)) {
      RestoredSet(s, i, order);
      FlipBack(s, i, order, back);
    } else {
      NoFlipBack(s, i, order, back);
    }
  }

  // ---------------------------------------------------------------- folders made for a batch

  /** What a walk may do to the table: add live, empty folders under new identifiers. */
  ghost predicate Grown(es: Entries, next: Id, fs: Entries, next': Id) {
    next <= next'
    && (forall i :: i in es ==> i in fs && fs[i] == es[i])
    && (forall i :: i in fs && i !in es ==>
          next <= i < next' && fs[i].kind == Folder && fs[i].live && fs[i].size == 0 && fs[i].key == FolderKey(i))
  }

  lemma {:induction false} WalkKeeps(t: Forest, root: Id, p: Id, parts: seq<string>)
    requires EntriesOk(t.entries, root, t.next) && LiveFolder(t.entries, p)
    ensures Walk(t, p, parts).Some? ==>
              var (u, q) := Walk(t, p, parts).value;
              EntriesOk(u.entries, root, u.next) && Grown(t.entries, t.next, u.entries, u.next) && LiveFolder(u.entries, q)
    decreases |parts|
  {
    if parts != [] {
      match FindChild(t.entries, p, parts[0], Folder)
      case Some(i) => WalkKeeps(t, root, i, parts[1..]);
      case None =>
        var u := NewFolder(t, p, parts[0]);
        if UniqueNames(u.entries) {
          InsertRow(t.entries, root, t.next, t.next, u.entries[t.next]);
          WalkKeeps(u, root, t.next, parts[1..]);
        }
    }
  }

  lemma {:induction false} WalkAllKeeps(t: Forest, root: Id, p: Id, dirs: seq<seq<string>>)
    requires EntriesOk(t.entries, root, t.next) && LiveFolder(t.entries, p)
    ensures WalkAll(t, p, dirs).Some? ==>
              var u := WalkAll(t, p, dirs).value;
              EntriesOk(u.entries, root, u.next) && Grown(t.entries, t.next, u.entries, u.next)
    decreases |dirs|
  {
    if dirs != [] {
      WalkAllKeeps(t, root, p, dirs[..|dirs| - 1]);
      var v := WalkAll(t, p, dirs[..|dirs| - 1]);
      if v.Some? { WalkKeeps(v.value, root, p, dirs[|dirs| - 1]); }
    }
  }

  lemma {:induction false} LookupFolder(es: Entries, p: Id, parts: seq<string>)
    requires LiveFolder(es, p)
    ensures Lookup(es, p, parts).Some? ==> LiveFolder(es, Lookup(es, p, parts).value)
    decreases |parts|
  {
    if parts != [] {
      match FindChild(es, p, parts[0], Folder)
      case Some(i) => LookupFolder(es, i, parts[1..]);
      case None =>
    }
  }

  /** The outcome of an accepted batch, for the other ledgers to start from. */
  lemma BatchForest(s: State, parent: Option<Id>, files: seq<Manifest>)
    requires EntriesOk(s.entries, s.root, s.next) && LiveFolder(s.entries, RootOr(s, parent))
    ensures var r := WalkAll(Forest(s.entries, s.next), RootOr(s, parent), Dirs(files));
            r.Some? ==> EntriesOk(r.value.entries, s.root, r.value.next)
                        && Grown(s.entries, s.next, r.value.entries, r.value.next)
  {
    WalkAllKeeps(Forest(s.entries, s.next), s.root, RootOr(s, parent), Dirs(files));
  }

  lemma NewSessionParents(es: Entries, b: Id, p: Id, files: seq<Manifest>)
    requires LiveFolder(es, p)
    ensures SessionParentsOk(es, NewSessions(es, b, p, files))
  {
    var ss := NewSessions(es, b, p, files);
    NewSessionIds(es, b, p, files);
    forall i | i in ss && ss[i].parent.Some?
      ensures ss[i].parent.value in es && es[ss[i].parent.value].kind == Folder
    {
      assert InBlock(b, |files|, i);
      var j := i - b - 1;
      NewSessionRow(es, b, p, files, j);
      LookupFolder(es, p, Dir(files[j]));
    }
  }

  lemma CreateBatchKeeps(s: State, parent: Option<Id>, files: seq<Manifest>, expires: int)
    requires TreeOk(s)
    ensures TreeOk(AfterCreateBatch(s, parent, files, expires)) && s.next <= AfterCreateBatch(s, parent, files, expires).next
  {
    var p := RootOr(s, parent);
    if BatchAdmitted(s, p, files) {
      BatchForest(s, parent, files);
      match WalkAll(Forest(s.entries, s.next), p, Dirs(files))
      case None =>
      case Some(t) => NewSessionParents(t.entries, t.next, p, files);
    }
  }

  // ---------------------------------------------------------------- uploads

  lemma CreateFolderKeeps(s: State, p: Id, rawName: string)
    requires TreeOk(s)
    ensures TreeOk(AfterCreateFolder(s, p, rawName))
  {
    var e := Entry(Some(p), Sanitize(rawName), Folder, FolderKey(s.next), 0, 1, "", true);
    if LiveFolder(s.entries, p) && UniqueNames(s.entries[s.next := e]) {
      InsertRow(s.entries, s.root, s.next, s.next, e);
    }
  }

  lemma RenameKeeps(s: State, i: Id, rawName: string)
    requires TreeOk(s)
    ensures TreeOk(AfterRename(s, i, rawName))
  {
    var t := AfterRename(s, i, rawName);
    if t != s { KeepLinks(s.entries, t.entries, s.root, s.next, s.next); }
  }

  lemma CompleteKeeps(s: State, sid: Id, digest: string, fault: Fault)
    requires TreeOk(s)
    ensures TreeOk(AfterComplete(s, sid, digest, fault))
  {
    if Completes(s, sid, digest, fault) {
      var id, e := CompletedId(s, sid), CompletedEntry(s, sid, digest);
      if s.sessions[sid].target.Some? {
        KeepLinks(s.entries, s.entries[id := e], s.root, s.next, s.next + 2);
      } else {
        InsertRow(s.entries, s.root, s.next, id, e);
      }
    }
  }

  /** An upload overwrites only a live file of the chosen name in the chosen folder. */
  lemma {:induction false} SettledFile(es: Entries, p: Id, base: string, mode: Mode, attempt: nat)
    ensures var r := Settle(es, p, base, mode, attempt);
            r.Some? && r.value.1.Some? ==> mode == Overwrite && ChildNamed(es, r.value.1.value, p, r.value.0, File)
    ensures var r := Settle(es, p, base, mode, attempt);
            r.Some? && r.value.1.None? ==> forall i :: !ChildNamed(es, i, p, r.value.0, File)
    decreases ATTEMPTS - attempt
  {
    if attempt < ATTEMPTS { SettledFile(es, p, base, mode, attempt + 1); }
  }

  lemma InsertKeeps(s: State, p: Id, name: string, data: Bytes)
    requires TreeOk(s) && LiveFolder(s.entries, p)
    ensures TreeOk(AfterInsert(s, p, name, data))
  {
    var e := Entry(Some(p), name, File, BlobKey(s.next), |data|, 1, "", true);
    if UniqueNames(s.entries[s.next + 1 := e]) { InsertRow(s.entries, s.root, s.next, s.next + 1, e); }
  }

  lemma OverwriteKeeps(s: State, i: Id, data: Bytes)
    requires TreeOk(s) && i in s.entries
    ensures TreeOk(AfterOverwrite(s, i, data))
  {
    var fs := AfterOverwrite(s, i, data).entries;
    SameNames(s.entries, fs);
    KeepLinks(s.entries, fs, s.root, s.next, s.next + 2);
  }

  lemma UploadKeeps(s: State, p: Id, name: string, data: Bytes, mode: Mode)
    requires TreeOk(s)
    ensures TreeOk(AfterUpload(s, p, name, data, mode))
  {
    if UploadAdmitted(s, p, Sanitize(name), data) {
      match Settle(s.entries, p, Sanitize(name), mode, 0)
      case None =>
      case Some((chosen, None)) => InsertKeeps(s, p, chosen, data);
      case Some((_, Some(i))) => if i in s.entries { OverwriteKeeps(s, i, data); }
    }
  }

  lemma RestoreVersionKeeps(s: State, i: Id, v: nat)
    requires TreeOk(s)
    ensures TreeOk(AfterRestoreVersion(s, i, v))
  {
    var t := AfterRestoreVersion(s, i, v);
    if t != s {
      SameNames(s.entries, t.entries);
      KeepLinks(s.entries, t.entries, s.root, s.next, s.next);
    }
  }

  // ---------------------------------------------------------------- steps that leave the entries alone

  ghost predicate SameForest(s: State, t: State) {
    t.entries == s.entries && t.root == s.root && t.next == s.next && t.sessions.Keys == s.sessions.Keys
    && forall i :: i in s.sessions ==> t.sessions[i].parent == s.sessions[i].parent
  }

  lemma AppendSameForest(s: State, sid: Id, now: int, offset: int, length: int, body: Bytes, fault: Fault)
    ensures SameForest(s, Appended(s, sid, now, offset, length, body, fault).0)
  {
  }

  lemma CloseSameForest(s: State, b: Id, now: int)
    ensures SameForest(s, AfterAbort(s, b)) && SameForest(s, AfterExpire(s, b, now))
  {
  }

  lemma SnapshotSameForest(s: State, i: Id)
    ensures SameForest(s, AfterSnapshot(s, i))
  {
  }

  // ---------------------------------------------------------------- runs

  lemma TreeStepKeepsTree(s: State, step: Step)
    requires TreeOk(s)
    requires step.CreateFolder? || step.Move? || step.RenameTo? || step.Delete? || step.Restore? || step.Purge?
    ensures TreeOk(Apply(s, step))
  {
    match step
    case CreateFolder(p, name) => CreateFolderKeeps(s, p, name);
    case Move(i, p) => MoveKeeps(s, i, p);
    case RenameTo(i, name) => RenameKeeps(s, i, name);
    case Delete(i, order) => DeleteKeeps(s, i, order);
    case Restore(i, order) => RestoreKeeps(s, i, order);
    case Purge(i, order) => PurgeKeeps(s, i, order);
  }

  lemma StepKeepsTree(s: State, step: Step)
    requires TreeOk(s)
    ensures TreeOk(Apply(s, step))
  {
    match step
    case CreateBatch(p, files, expires) => CreateBatchKeeps(s, p, files, expires);
    case AppendChunk(sid, now, offset, length, body, fault) => AppendSameForest(s, sid, now, offset, length, body, fault);
    case CompleteFile(sid, digest, fault) => CompleteKeeps(s, sid, digest, fault);
    case AbortBatch(b) => CloseSameForest(s, b, 0);
    case ExpireBatch(b, now) => CloseSameForest(s, b, now);
    case Upload(p, name, data, mode) => UploadKeeps(s, p, name, data, mode);
    case PruneVersions(_, _) =>
    case Collect(_) =>
    case SnapshotVersion(i) => SnapshotSameForest(s, i);
    case RestoreVersion(i, v) => RestoreVersionKeeps(s, i, v);
    case _ => TreeStepKeepsTree(s, step);
  }

  lemma {:induction false} TreeOverRuns(s: State, steps: seq<Step>)
    requires TreeOk(s)
    ensures TreeOk(Run(s, steps))
    decreases |steps|
  {
    if steps != [] {
      TreeOverRuns(s, steps[..|steps| - 1]);
      StepKeepsTree(Run(s, steps[..|steps| - 1]), steps[|steps| - 1]);
    }
  }

  lemma InitTree(cfg: Config, quota: nat)
    ensures TreeOk(Init(cfg, quota))
  {
    assert Ranked(Init(cfg, quota).entries, map[0 := 0]);
  }
}
