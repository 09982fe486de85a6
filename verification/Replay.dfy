/** A client that replays the change log over an earlier snapshot sees the current entries. */
module Replay {
  import opened Names
  import opened Sums
  import opened Model
  import opened FolderTree

  type Mirror = map<Id, Row>

  /** What a snapshot delivers: the live rows. */
  function View(es: Entries): Mirror {
    map i | i in es && es[i].live :: RowOf(es[i])
  }

  /** How the client reads a change: trash and purge delete, every other operation carries the row. */
  function ApplyChange(m: Mirror, c: Change): Mirror {
    if c.op.Trash? || c.op.Purged? then m - {c.id} else m[c.id := c.row]
  }

  function Replayed(m: Mirror, log: seq<Change>): Mirror {
    if log == [] then m else ApplyChange(Replayed(m, log[..|log| - 1]), log[|log| - 1])
  }

  lemma {:induction false} ReplayConcat(m: Mirror, a: seq<Change>, b: seq<Change>)
    ensures Replayed(m, a + b) == Replayed(Replayed(m, a), b)
    decreases |b|
  {
    if b == [] {
      assert a + b == a;
    } else {
      assert (a + b)[..|a + b| - 1] == a + b[..|b| - 1];
      ReplayConcat(m, a, b[..|b| - 1]);
    }
  }

  lemma {:induction false} ReplayRemovals(m: Mirror, op: Op, order: seq<Id>, es: Entries)
    requires forall i :: i in order ==> i in es
    requires op.Trash? || op.Purged?
    ensures Replayed(m, ChangeRows(op, order, es)) == Lacking(m, order)
    decreases |order|
  {
    if order != [] {
      var k := |order| - 1;
      assert forall i :: i in order[..k] ==> i in order;
      ReplayRemovals(m, op, order[..k], es);
      LastChange(op, order, es);
      OneLess(m, order);
    } else {
      assert m == Lacking(m, order);
    }
  }

  function Lacking(m: Mirror, order: seq<Id>): Mirror {
    map i | i in m && i !in order :: m[i]
  }

  lemma OneLess(m: Mirror, order: seq<Id>)
    requires order != []
    ensures Lacking(m, order) == Lacking(m, order[..|order| - 1]) - {order[|order| - 1]}
  {
    var k := |order| - 1;
    assert order == order[..k] + [order[k]];
  }

  function RowsOf(order: seq<Id>, es: Entries): Mirror
    requires forall i :: i in order ==> i in es
  {
    map i | i in order :: RowOf(es[i])
  }

  lemma OneMore(order: seq<Id>, es: Entries)
    requires order != [] && forall i :: i in order ==> i in es
    ensures var k := |order| - 1;
            (forall i :: i in order[..k] ==> i in es)
            && RowsOf(order, es) == RowsOf(order[..k], es)[order[k] := RowOf(es[order[k]])]
  {
    var k := |order| - 1;
    assert order == order[..k] + [order[k]];
  }

  lemma {:induction false} ReplayRows(m: Mirror, order: seq<Id>, es: Entries)
    requires forall i :: i in order ==> i in es
    ensures Replayed(m, ChangeRows(Restored, order, es)) == m + RowsOf(order, es)
    decreases |order|
  {
    if order != [] {
      var k := |order| - 1;
      OneMore(order, es);
      ReplayRows(m, order[..k], es);
      LastChange(Restored, order, es);
      Overlay(m, RowsOf(order[..k], es), order[k], RowOf(es[order[k]]));
    } else {
      assert m + RowsOf(order, es) == m;
    }
  }

  lemma Overlay(m: Mirror, n: Mirror, i: Id, row: Row)
    ensures (m + n)[i := row] == m + n[i := row]
  {
  }

  lemma LastChange(op: Op, order: seq<Id>, es: Entries)
    requires order != [] && forall i :: i in order ==> i in es
    ensures var k := |order| - 1;
            (forall i :: i in order[..k] ==> i in es)
            && var log := ChangeRows(op, order, es);
            |log| > 0 && log[..|log| - 1] == ChangeRows(op, order[..k], es)
            && log[|log| - 1] == Change(op, order[k], RowOf(es[order[k]]))
  {
  }

  /** The rows a step logs turn the old view into the new one. */
  ghost predicate Faithful(s: State, t: State) {
    s.log <= t.log && Replayed(View(s.entries), t.log[|s.log|..]) == View(t.entries)
  }

  /** The mirror has exactly the live entries, with every column as in the table. */
  ghost predicate Shows(m: Mirror, es: Entries) {
    && (forall i :: i in m <==> i in es && es[i].live)
    && (forall i :: i in m ==>
          && m[i].parent == es[i].parent && m[i].name == es[i].name && m[i].kind == es[i].kind
          && m[i].size == es[i].size && m[i].version == es[i].version && m[i].hash == es[i].hash)
  }

  /** Replaying what was logged in between takes a mirror of the one table to a mirror of the other. */
  ghost predicate Tracks(s: State, t: State) {
    s.log <= t.log && forall m :: Shows(m, s.entries) ==> Shows(Replayed(m, t.log[|s.log|..]), t.entries)
  }

  /** A snapshot shows the table, and nothing else does. */
  lemma ViewShows(m: Mirror, es: Entries)
    ensures Shows(m, es) <==> m == View(es)
  {
    if Shows(m, es) {
      forall i | i in m ensures m[i] == RowOf(es[i]) {}
      assert m.Keys == View(es).Keys;
    }
  }

  lemma TracksExact(s: State, t: State)
    ensures Faithful(s, t) <==> Tracks(s, t)
  {
    ViewShows(View(s.entries), s.entries);
    if s.log <= t.log {
      forall m | Shows(m, s.entries) ensures m == View(s.entries) { ViewShows(m, s.entries); }
      ViewShows(Replayed(View(s.entries), t.log[|s.log|..]), t.entries);
    }
  }

  lemma SilentStep(s: State, t: State)
    requires t.log == s.log
    ensures Faithful(s, t) <==> View(t.entries) == View(s.entries)
  {
    assert t.log[|s.log|..] == [];
  }

  lemma OneRow(s: State, t: State, op: Op, i: Id)
    requires !op.Trash? && !op.Purged? && i in t.entries && t.entries[i].live
    requires t.log == s.log + [Change(op, i, RowOf(t.entries[i]))]
    requires t.entries == s.entries[i := t.entries[i]]
    ensures Faithful(s, t)
  {
    var c := Change(op, i, RowOf(t.entries[i]));
    assert t.log[|s.log|..] == [c];
    assert [c][..0] == [];
    assert View(t.entries) == View(s.entries)[i := c.row];
  }

  /**
   * Two operations change live rows without logging them: folders that a batch creates on the way,
   * and restoring an old version of a live file.
   */
  ghost predicate LogGuard(s: State, step: Step) {
    match step
    case CreateBatch(parent, files, expires) =>
      var p := RootOr(s, parent);
      BatchAdmitted(s, p, files) && WalkAll(Forest(s.entries, s.next), p, Dirs(files)).Some? ==>
        forall k | 0 <= k < |files| :: Lookup(s.entries, p, Dirs(files)[k]).Some?
    case RestoreVersion(i, v) => (i, v) in s.versions && i in s.entries ==> !s.entries[i].live
    case _ => true
  }

  // ---------------------------------------------------------------- folders of a batch

  lemma {:induction false} WalkCreates(t: Forest, root: Id, p: Id, parts: seq<string>)
    requires EntriesOk(t.entries, root, t.next) && LiveFolder(t.entries, p) && Walk(t, p, parts).Some?
    ensures var u := Walk(t, p, parts).value.0;
            (Lookup(t.entries, p, parts).Some? ==> u == t)
            && (Lookup(t.entries, p, parts).None? ==> t.next < u.next && t.next in u.entries && u.entries[t.next].live)
    decreases |parts|
  {
    if parts != [] {
      match FindChild(t.entries, p, parts[0], Folder)
      case Some(i) => WalkCreates(t, root, i, parts[1..]);
      case None =>
        var v := NewFolder(t, p, parts[0]);
        InsertRow(t.entries, root, t.next, t.next, v.entries[t.next]);
        WalkKeeps(v, root, t.next, parts[1..]);
    }
  }

  lemma {:induction false} WalkAllCreates(t: Forest, root: Id, p: Id, dirs: seq<seq<string>>)
    requires EntriesOk(t.entries, root, t.next) && LiveFolder(t.entries, p) && WalkAll(t, p, dirs).Some?
    ensures var u := WalkAll(t, p, dirs).value;
            if forall k | 0 <= k < |dirs| :: Lookup(t.entries, p, dirs[k]).Some? then u == t
            else t.next in u.entries && u.entries[t.next].live
    decreases |dirs|
  {
    if dirs != [] {
      var rest, dir := dirs[..|dirs| - 1], dirs[|dirs| - 1];
      WalkAllCreates(t, root, p, rest);
      WalkAllKeeps(t, root, p, rest);
      var v := WalkAll(t, p, rest).value;
      WalkCreates(v, root, p, dir);
      WalkKeeps(v, root, p, dir);
      if forall k | 0 <= k < |rest| :: Lookup(t.entries, p, rest[k]).Some? {
        assert forall k | 0 <= k < |dirs| :: k == |rest| || dirs[k] == rest[k];
      } else {
        var k :| 0 <= k < |rest| && Lookup(t.entries, p, rest[k]).None?;
        assert dirs[k] == rest[k];
      }
    }
  }

  lemma CreateBatchLogs(s: State, parent: Option<Id>, files: seq<Manifest>, expires: int)
    requires TreeOk(s)
    ensures Faithful(s, AfterCreateBatch(s, parent, files, expires)) <==> LogGuard(s, CreateBatch(parent, files, expires))
  {
    var p := RootOr(s, parent);
    var t := AfterCreateBatch(s, parent, files, expires);
    SilentStep(s, t);
    if BatchAdmitted(s, p, files) && WalkAll(Forest(s.entries, s.next), p, Dirs(files)).Some? {
      WalkAllCreates(Forest(s.entries, s.next), s.root, p, Dirs(files));
      assert s.next !in View(s.entries);
      assert t.entries == s.entries || s.next in View(t.entries);
    }
  }

  // ---------------------------------------------------------------- the other steps

  lemma DeleteLogs(s: State, i: Id, order: seq<Id>)
    ensures Faithful(s, AfterDelete(s, i, order))
  {
    var t, ids := AfterDelete(s, i, order), TrashTargets(s, i);
    if t == s {
      SilentStep(s, t);
    } else {
      ReplayRemovals(View(s.entries), Trash, order, t.entries);
      assert t.log[|s.log|..] == ChangeRows(Trash, order, t.entries);
      assert View(t.entries) == Lacking(View(s.entries), order);
    }
  }

  lemma RestoreLogs(s: State, i: Id, order: seq<Id>)
    ensures Faithful(s, AfterRestore(s, i, order))
  {
    var t, ids := AfterRestore(s, i, order), RestoreTargets(s, i);
    if t == s {
      SilentStep(s, t);
    } else {
      ReplayRows(View(s.entries), order, t.entries);
      assert t.log[|s.log|..] == ChangeRows(Restored, order, t.entries);
      assert View(t.entries) == View(s.entries) + RowsOf(order, t.entries);
    }
  }

  lemma PurgeLogs(s: State, i: Id, order: seq<Id>)
    requires TreeOk(s)
    ensures Faithful(s, AfterPurge(s, i, order))
  {
    var t, ids := AfterPurge(s, i, order), PurgeTargets(s, i);
    if ids == {} || !Enumerates(order, ids) {
      SilentStep(s, t);
    } else {
      PurgeLeavesNoOrphan(s, i, order);
      ReplayRemovals(View(s.entries), Purged, order, s.entries);
      assert t.log[|s.log|..] == ChangeRows(Purged, order, s.entries);
      assert View(t.entries) == Lacking(View(s.entries), order);
    }
  }

  lemma CompleteLogs(s: State, sid: Id, digest: string, fault: Fault)
    ensures Faithful(s, AfterComplete(s, sid, digest, fault))
  {
    var t := AfterComplete(s, sid, digest, fault);
    if Completes(s, sid, digest, fault) {
      OneRow(s, t, Upsert, CompletedId(s, sid));
    } else {
      SilentStep(s, t);
    }
  }

  lemma UploadLogs(s: State, p: Id, name: string, data: Bytes, mode: Mode)
    ensures Faithful(s, AfterUpload(s, p, name, data, mode))
  {
    SilentStep(s, s);
    if UploadAdmitted(s, p, Sanitize(name), data) {
      SettledFile(s.entries, p, Sanitize(name), mode, 0);
      match Settle(s.entries, p, Sanitize(name), mode, 0)
      case None =>
      case Some((chosen, None)) => InsertLogs(s, p, chosen, data);
      case Some((_, Some(i))) => OverwriteLogs(s, i, data);
    }
  }

  lemma InsertLogs(s: State, p: Id, name: string, data: Bytes)
    ensures Faithful(s, AfterInsert(s, p, name, data))
  {
    var t := AfterInsert(s, p, name, data);
    if t == s { SilentStep(s, s); } else { OneRow(s, t, Upsert, s.next + 1); }
  }

  lemma OverwriteLogs(s: State, i: Id, data: Bytes)
    requires i in s.entries && s.entries[i].live
    ensures Faithful(s, AfterOverwrite(s, i, data))
  {
    OneRow(s, AfterOverwrite(s, i, data), Upsert, i);
  }

  lemma CreateFolderLogs(s: State, p: Id, name: string)
    ensures Faithful(s, AfterCreateFolder(s, p, name))
  {
    var t := AfterCreateFolder(s, p, name);
    if t == s { SilentStep(s, s); } else { OneRow(s, t, Upsert, s.next); }
  }

  lemma MoveLogs(s: State, i: Id, p: Id)
    ensures Faithful(s, AfterMove(s, i, p))
  {
    var t := AfterMove(s, i, p);
    if t == s { SilentStep(s, s); } else { OneRow(s, t, Moved, i); }
  }

  lemma RenameLogs(s: State, i: Id, name: string)
    ensures Faithful(s, AfterRename(s, i, name))
  {
    var t := AfterRename(s, i, name);
    if t == s { SilentStep(s, s); } else { OneRow(s, t, Renamed, i); }
  }

  lemma AppendLogs(s: State, sid: Id, now: int, offset: int, length: int, body: Bytes, fault: Fault)
    ensures Faithful(s, Appended(s, sid, now, offset, length, body, fault).0)
  {
    var t := Appended(s, sid, now, offset, length, body, fault).0;
    AppendSilent(s, sid, now, offset, length, body, fault);
    SilentStep(s, t);
  }

  lemma AppendSilent(s: State, sid: Id, now: int, offset: int, length: int, body: Bytes, fault: Fault)
    ensures var t := Appended(s, sid, now, offset, length, body, fault).0; t.log == s.log && t.entries == s.entries
  {
  }

  lemma CloseLogs(s: State, b: Id, now: int)
    ensures Faithful(s, AfterAbort(s, b)) && Faithful(s, AfterExpire(s, b, now))
  {
    SilentStep(s, AfterAbort(s, b));
    SilentStep(s, AfterExpire(s, b, now));
  }

  lemma CollectorLogs(s: State, i: Id, keep: nat, keys: set<Key>)
    ensures Faithful(s, AfterPrune(s, i, keep)) && Faithful(s, AfterCollect(s, keys)) && Faithful(s, AfterSnapshot(s, i))
  {
    SilentStep(s, AfterPrune(s, i, keep));
    SilentStep(s, AfterCollect(s, keys));
    SilentStep(s, AfterSnapshot(s, i));
  }

  lemma RestoreVersionLogs(s: State, i: Id, v: nat)
    ensures Faithful(s, AfterRestoreVersion(s, i, v)) <==> LogGuard(s, RestoreVersion(i, v))
  {
    var t := AfterRestoreVersion(s, i, v);
    SilentStep(s, t);
    if (i, v) in s.versions && i in s.entries {
      if s.entries[i].live {
        assert View(t.entries)[i].version == View(s.entries)[i].version + 1;
      } else {
        assert View(t.entries) == View(s.entries);
      }
    }
  }

  predicate UploadStep(step: Step) {
    step.CreateBatch? || step.AppendChunk? || step.CompleteFile? || step.AbortBatch? || step.ExpireBatch? || step.Upload?
  }

  lemma UploadStepFaithful(s: State, step: Step)
    requires TreeOk(s) && UploadStep(step)
    ensures Faithful(s, Apply(s, step)) <==> LogGuard(s, step)
  {
    match step
    case CreateBatch(p, files, expires) => CreateBatchLogs(s, p, files, expires);
    case AppendChunk(sid, now, offset, length, body, fault) => AppendLogs(s, sid, now, offset, length, body, fault);
    case CompleteFile(sid, digest, fault) => CompleteLogs(s, sid, digest, fault);
    case AbortBatch(b) => CloseLogs(s, b, 0);
    case ExpireBatch(b, now) => CloseLogs(s, b, now);
    case Upload(p, name, data, mode) => UploadLogs(s, p, name, data, mode);
  }

  /** Every step logs faithfully exactly when the guard holds. */
  lemma StepFaithful(s: State, step: Step)
    requires TreeOk(s)
    ensures Faithful(s, Apply(s, step)) <==> LogGuard(s, step)
    ensures Tracks(s, Apply(s, step)) <==> LogGuard(s, step)
  {
    TracksExact(s, Apply(s, step));
    if UploadStep(step) {
      UploadStepFaithful(s, step);
    } else {
      match step
      case CreateFolder(p, name) => CreateFolderLogs(s, p, name);
      case Move(i, p) => MoveLogs(s, i, p);
      case RenameTo(i, name) => RenameLogs(s, i, name);
      case Delete(i, order) => DeleteLogs(s, i, order);
      case Restore(i, order) => RestoreLogs(s, i, order);
      case Purge(i, order) => PurgeLogs(s, i, order);
      case PruneVersions(i, keep) => CollectorLogs(s, i, keep, {});
      case Collect(keys) => CollectorLogs(s, 0, 0, keys);
      case SnapshotVersion(i) => CollectorLogs(s, i, 0, {});
      case RestoreVersion(i, v) => RestoreVersionLogs(s, i, v);
    }
  }

  /** Every step of the run meets its guard in the state where it is taken. */
  ghost predicate LogGuarded(s: State, steps: seq<Step>) {
    steps == [] ||
    var rest, last := steps[..|steps| - 1], steps[|steps| - 1];
    LogGuarded(s, rest) && LogGuard(Run(s, rest), last)
  }

  /** Snapshot now, replay whatever is logged later: the result is the view at that later time. */
  lemma {:induction false} ReplayEqualsState(s: State, steps: seq<Step>)
    requires TreeOk(s) && LogGuarded(s, steps)
    ensures Faithful(s, Run(s, steps)) && Tracks(s, Run(s, steps))
    decreases |steps|
  {
    TracksExact(s, Run(s, steps));
    if steps == [] {
      SilentStep(s, s);
    } else {
      var rest, last := steps[..|steps| - 1], steps[|steps| - 1];
      ReplayEqualsState(s, rest);
      TreeOverRuns(s, rest);
      StepFaithful(Run(s, rest), last);
      FaithfulChain(s, Run(s, rest), Run(s, steps));
    }
  }

  lemma FaithfulChain(s: State, t: State, u: State)
    requires Faithful(s, t) && Faithful(t, u)
    ensures Faithful(s, u)
  {
    assert u.log[|s.log|..] == t.log[|s.log|..] + u.log[|t.log|..];
    ReplayConcat(View(s.entries), t.log[|s.log|..], u.log[|t.log|..]);
  }
}
