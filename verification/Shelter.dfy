/**
 * Where live rows hang. Live folders always have live parents; live files have them exactly as long
 * as no upload completes into a folder that has been trashed or purged meanwhile.
 */
module Shelter {
  import opened Names
  import opened Sums
  import opened Model
  import opened FolderTree

  /** Every live row with a parent, file or folder, has a live one. */
  ghost predicate Sheltered(es: Entries) {
    forall i :: i in es && es[i].live && es[i].parent.Some? ==> es[i].parent.value in LiveIds(es)
  }

  /** No row but the root lacks a parent. */
  ghost predicate OneRoot(es: Entries, root: Id) {
    forall i :: i in es && i != root ==> es[i].parent.Some?
  }

  ghost predicate ReachesRoot(es: Entries, root: Id, i: Id) {
    exists n :: Climbs(es, LiveIds(es), i, root, n)
  }

  /** Every live row climbs to the root through live rows, and nothing hangs loose. */
  ghost predicate Rooted(es: Entries, root: Id) {
    OneRoot(es, root) && forall i :: i in LiveIds(es) ==> ReachesRoot(es, root, i)
  }

  lemma {:induction false} ClimbsToRoot(es: Entries, root: Id, rank: map<Id, nat>, i: Id)
    requires Ranked(es, rank) && Sheltered(es) && OneRoot(es, root) && i in LiveIds(es)
    ensures ReachesRoot(es, root, i)
    decreases rank[i]
  {
    if i == root {
      assert Climbs(es, LiveIds(es), i, root, 0);
    } else {
      var p := es[i].parent.value;
      ClimbsToRoot(es, root, rank, p);
      var n: nat :| Climbs(es, LiveIds(es), p, root, n);
      assert Climbs(es, LiveIds(es), i, root, n + 1);
    }
  }

  /** Being rooted is being sheltered, row by row, with a single root. */
  lemma RootedExact(es: Entries, root: Id, next: Id)
    requires EntriesOk(es, root, next)
    ensures Rooted(es, root) <==> Sheltered(es) && OneRoot(es, root)
  {
    if Sheltered(es) && OneRoot(es, root) {
      var rank :| Ranked(es, rank);
      forall i | i in LiveIds(es) ensures ReachesRoot(es, root, i) { ClimbsToRoot(es, root, rank, i); }
    }
    if Rooted(es, root) {
      forall i | i in es && es[i].live && es[i].parent.Some? ensures es[i].parent.value in LiveIds(es) {
        assert ReachesRoot(es, root, i);
        var n: nat :| Climbs(es, LiveIds(es), i, root, n);
        assert Climbs(es, LiveIds(es), es[i].parent.value, root, n - 1);
      }
    }
  }

  // ---------------------------------------------------------------- one operation at a time

  ghost predicate Keeps(es: Entries, fs: Entries, root: Id) {
    (Sheltered(es) ==> Sheltered(fs)) && (OneRoot(es, root) ==> OneRoot(fs, root))
  }

  lemma SameShelter(es: Entries, fs: Entries, root: Id)
    requires fs.Keys == es.Keys
    requires forall i :: i in es ==> fs[i].parent == es[i].parent && fs[i].live == es[i].live
    ensures Keeps(es, fs, root)
  {
  }

  /** A row written under a live parent. */
  lemma WrittenBelow(es: Entries, i: Id, e: Entry, root: Id)
    requires e.parent.Some? && e.parent.value in LiveIds(es) && e.live && (i in es ==> es[i].live)
    ensures Keeps(es, es[i := e], root)
  {
  }

  lemma {:induction false} WalkShelters(t: Forest, root: Id, p: Id, parts: seq<string>)
    requires EntriesOk(t.entries, root, t.next) && LiveFolder(t.entries, p)
    ensures Walk(t, p, parts).Some? ==> Keeps(t.entries, Walk(t, p, parts).value.0.entries, root)
    decreases |parts|
  {
    if parts != [] {
      match FindChild(t.entries, p, parts[0], Folder)
      case Some(i) => WalkShelters(t, root, i, parts[1..]);
      case None =>
        var u := NewFolder(t, p, parts[0]);
        if UniqueNames(u.entries) {
          WalkKeeps(t, root, p, [parts[0]]);
          InsertRow(t.entries, root, t.next, t.next, u.entries[t.next]);
          WrittenBelow(t.entries, t.next, u.entries[t.next], root);
          WalkShelters(u, root, t.next, parts[1..]);
        }
    }
  }

  lemma {:induction false} WalkAllShelters(t: Forest, root: Id, p: Id, dirs: seq<seq<string>>)
    requires EntriesOk(t.entries, root, t.next) && LiveFolder(t.entries, p)
    ensures WalkAll(t, p, dirs).Some? ==> Keeps(t.entries, WalkAll(t, p, dirs).value.entries, root)
    decreases |dirs|
  {
    if dirs != [] {
      var rest := dirs[..|dirs| - 1];
      WalkAllShelters(t, root, p, rest);
      WalkAllKeeps(t, root, p, rest);
      var v := WalkAll(t, p, rest);
      if v.Some? { WalkShelters(v.value, root, p, dirs[|dirs| - 1]); }
    }
  }

  lemma CreateBatchShelters(s: State, parent: Option<Id>, files: seq<Manifest>, expires: int)
    requires TreeOk(s)
    ensures Keeps(s.entries, AfterCreateBatch(s, parent, files, expires).entries, s.root)
  {
    if BatchAdmitted(s, RootOr(s, parent), files) {
      WalkAllShelters(Forest(s.entries, s.next), s.root, RootOr(s, parent), Dirs(files));
    }
  }

  lemma CreateFolderShelters(s: State, p: Id, rawName: string)
    requires TreeOk(s)
    ensures Keeps(s.entries, AfterCreateFolder(s, p, rawName).entries, s.root)
  {
    var t := AfterCreateFolder(s, p, rawName);
    if t != s { WrittenBelow(s.entries, s.next, t.entries[s.next], s.root); }
  }

  lemma MoveShelters(s: State, i: Id, p: Id)
    requires TreeOk(s)
    ensures Keeps(s.entries, AfterMove(s, i, p).entries, s.root)
  {
    var t := AfterMove(s, i, p);
    if t != s { WrittenBelow(s.entries, i, t.entries[i], s.root); }
  }

  lemma RenameShelters(s: State, i: Id, rawName: string)
    ensures Keeps(s.entries, AfterRename(s, i, rawName).entries, s.root)
  {
    var t := AfterRename(s, i, rawName);
    if t != s { SameShelter(s.entries, t.entries, s.root); }
  }

  /** Nothing live stays below what is trashed. */
  lemma DeleteShelters(s: State, i: Id, order: seq<Id>)
    ensures Keeps(s.entries, AfterDelete(s, i, order).entries, s.root)
  {
    if AfterDelete(s, i, order) != s { SubtreeClosed(s.entries, LiveIds(s.entries), i); }
  }

  /** What comes back hangs below what comes back, or below the live parent of the restored row. */
  lemma RestoreShelters(s: State, i: Id, order: seq<Id>)
    requires TreeOk(s)
    ensures Keeps(s.entries, AfterRestore(s, i, order).entries, s.root)
  {
    if AfterRestore(s, i, order) != s { SubtreeClosed(s.entries, TrashedIds(s.entries), i); }
  }

  lemma PurgeShelters(s: State, i: Id, order: seq<Id>)
    requires TreeOk(s)
    ensures Keeps(s.entries, AfterPurge(s, i, order).entries, s.root)
  {
    if PurgeTargets(s, i) != {} && Enumerates(order, PurgeTargets(s, i)) {
      PurgeLeavesNoOrphan(s, i, order);
      SubtreeClosed(s.entries, s.entries.Keys, i);
    }
  }

  lemma InsertShelters(s: State, p: Id, name: string, data: Bytes)
    requires TreeOk(s) && LiveFolder(s.entries, p)
    ensures Keeps(s.entries, AfterInsert(s, p, name, data).entries, s.root)
  {
    WrittenBelow(s.entries, s.next + 1, Entry(Some(p), name, File, BlobKey(s.next), |data|, 1, "", true), s.root);
  }

  lemma OverwriteShelters(s: State, i: Id, data: Bytes)
    requires i in s.entries
    ensures Keeps(s.entries, AfterOverwrite(s, i, data).entries, s.root)
  {
    SameShelter(s.entries, AfterOverwrite(s, i, data).entries, s.root);
  }

  lemma UploadShelters(s: State, p: Id, name: string, data: Bytes, mode: Mode)
    requires TreeOk(s)
    ensures Keeps(s.entries, AfterUpload(s, p, name, data, mode).entries, s.root)
  {
    if UploadAdmitted(s, p, Sanitize(name), data) {
      match Settle(s.entries, p, Sanitize(name), mode, 0)
      case None =>
      case Some((chosen, None)) => InsertShelters(s, p, chosen, data);
      case Some((_, Some(i))) => if i in s.entries { OverwriteShelters(s, i, data); }
    }
  }

  /** A new live row under whatever parent. */
  lemma WrittenFresh(es: Entries, i: Id, e: Entry, root: Id)
    requires i !in es && i != root && e.live && Linked(es) && (e.parent.Some? ==> e.parent.value in es)
    ensures Sheltered(es) ==> (Sheltered(es[i := e]) <==> (e.parent.Some? ==> e.parent.value in LiveIds(es)))
    ensures OneRoot(es, root) ==> (OneRoot(es[i := e], root) <==> e.parent.Some?)
  {
    var fs := es[i := e];
    assert i in fs && fs[i] == e;
    if Sheltered(fs) && e.parent.Some? { assert e.parent.value in LiveIds(fs); }
    if Sheltered(es) && (e.parent.Some? ==> e.parent.value in LiveIds(es)) {
      forall j | j in fs && fs[j].live && fs[j].parent.Some? ensures fs[j].parent.value in LiveIds(fs) {
        if j != i { assert es[j].parent.value in LiveIds(es); }
      }
    }
  }

  /** The one operation that does not look: a new file goes where its session's row says. */
  lemma CompleteShelters(s: State, sid: Id, digest: string, fault: Fault)
    requires TreeOk(s)
    ensures var t := AfterComplete(s, sid, digest, fault);
      && (Sheltered(s.entries) ==> (Sheltered(t.entries) <==> ShelterGuard(s, CompleteFile(sid, digest, fault))))
      && (OneRoot(s.entries, s.root) ==>
            (OneRoot(t.entries, s.root) <==> (Completes(s, sid, digest, fault) && s.sessions[sid].target.None? ==> s.sessions[sid].parent.Some?)))
  {
    if Completes(s, sid, digest, fault) {
      var t, i := AfterComplete(s, sid, digest, fault), CompletedId(s, sid);
      if s.sessions[sid].target.Some? {
        SameShelter(s.entries, t.entries, s.root);
      } else {
        WrittenFresh(s.entries, i, CompletedEntry(s, sid, digest), s.root);
      }
    }
  }

  // ---------------------------------------------------------------- every step

  /** A completed new file goes to the top level or into a folder that is still live. */
  predicate ShelterGuard(s: State, step: Step) {
    match step
    case CompleteFile(sid, digest, fault) =>
      Completes(s, sid, digest, fault) && s.sessions[sid].target.None? && s.sessions[sid].parent.Some? ==>
        s.sessions[sid].parent.value in LiveIds(s.entries)
    case _ => true
  }

  /** A completed new file goes into a folder that is still there and still live. */
  predicate RootGuard(s: State, step: Step) {
    match step
    case CompleteFile(sid, digest, fault) =>
      Completes(s, sid, digest, fault) && s.sessions[sid].target.None? ==>
        s.sessions[sid].parent.Some? && s.sessions[sid].parent.value in LiveIds(s.entries)
    case _ => true
  }

  lemma TreeStepKeeps(s: State, step: Step)
    requires TreeOk(s)
    requires step.CreateFolder? || step.Move? || step.RenameTo? || step.Delete? || step.Restore? || step.Purge?
    ensures Keeps(s.entries, Apply(s, step).entries, s.root)
  {
    match step
    case CreateFolder(p, name) => CreateFolderShelters(s, p, name);
    case Move(i, p) => MoveShelters(s, i, p);
    case RenameTo(i, name) => RenameShelters(s, i, name);
    case Delete(i, order) => DeleteShelters(s, i, order);
    case Restore(i, order) => RestoreShelters(s, i, order);
    case Purge(i, order) => PurgeShelters(s, i, order);
  }

  lemma RestoreVersionShelters(s: State, i: Id, v: nat)
    ensures Keeps(s.entries, AfterRestoreVersion(s, i, v).entries, s.root)
  {
    SnapshotSameForest(s, i);
    SameShelter(s.entries, AfterRestoreVersion(s, i, v).entries, s.root);
  }

  lemma OtherStepKeeps(s: State, step: Step)
    requires TreeOk(s)
    requires step.CreateBatch? || step.AppendChunk? || step.AbortBatch? || step.ExpireBatch? || step.Upload?
             || step.PruneVersions? || step.Collect? || step.SnapshotVersion? || step.RestoreVersion?
    ensures Keeps(s.entries, Apply(s, step).entries, s.root)
  {
    match step
    case CreateBatch(p, files, expires) => CreateBatchShelters(s, p, files, expires);
    case Upload(p, name, data, mode) => UploadShelters(s, p, name, data, mode);
    case RestoreVersion(i, v) => RestoreVersionShelters(s, i, v);
    case _ =>
      SameEntries(s, step);
      SameShelter(s.entries, Apply(s, step).entries, s.root);
  }

  lemma SameEntries(s: State, step: Step)
    requires step.AppendChunk? || step.AbortBatch? || step.ExpireBatch? || step.PruneVersions? || step.Collect? || step.SnapshotVersion?
    ensures Apply(s, step).entries == s.entries
  {
    match step
    case AppendChunk(sid, now, offset, length, body, fault) => AppendSameForest(s, sid, now, offset, length, body, fault);
    case AbortBatch(b) => CloseSameForest(s, b, 0);
    case ExpireBatch(b, now) => CloseSameForest(s, b, now);
    case SnapshotVersion(i) => SnapshotSameForest(s, i);
    case _ =>
  }

  /** Every operation keeps live rows under live parents exactly when the guard holds. */
  lemma StepShelters(s: State, step: Step)
    requires TreeOk(s) && Sheltered(s.entries)
    ensures Sheltered(Apply(s, step).entries) <==> ShelterGuard(s, step)
  {
    if step.CompleteFile? { CompleteShelters(s, step.session, step.digest, step.fault); }
    else if step.CreateFolder? || step.Move? || step.RenameTo? || step.Delete? || step.Restore? || step.Purge? { TreeStepKeeps(s, step); }
    else { OtherStepKeeps(s, step); }
  }

  lemma SameRoot(s: State, step: Step)
    ensures Apply(s, step).root == s.root
  {
  }

  /** Every operation keeps all live rows climbing to the root exactly when the stronger guard holds. */
  lemma StepRoots(s: State, step: Step)
    requires TreeOk(s) && Rooted(s.entries, s.root)
    ensures Rooted(Apply(s, step).entries, s.root) <==> RootGuard(s, step)
  {
    StepKeepsTree(s, step);
    SameRoot(s, step);
    RootedExact(s.entries, s.root, s.next);
    RootedExact(Apply(s, step).entries, s.root, Apply(s, step).next);
    if step.CompleteFile? { CompleteShelters(s, step.session, step.digest, step.fault); }
    else if step.CreateFolder? || step.Move? || step.RenameTo? || step.Delete? || step.Restore? || step.Purge? { TreeStepKeeps(s, step); }
    else { OtherStepKeeps(s, step); }
  }

  // ---------------------------------------------------------------- runs

  ghost predicate ShelterGuarded(s: State, steps: seq<Step>) {
    steps == [] ||
    var rest, last := steps[..|steps| - 1], steps[|steps| - 1];
    ShelterGuarded(s, rest) && ShelterGuard(Run(s, rest), last)
  }

  ghost predicate RootGuarded(s: State, steps: seq<Step>) {
    steps == [] ||
    var rest, last := steps[..|steps| - 1], steps[|steps| - 1];
    RootGuarded(s, rest) && RootGuard(Run(s, rest), last)
  }

  lemma {:induction false} SheltersOverRuns(s: State, steps: seq<Step>)
    requires TreeOk(s) && Sheltered(s.entries) && ShelterGuarded(s, steps)
    ensures Sheltered(Run(s, steps).entries)
    decreases |steps|
  {
    if steps != [] {
      var rest := steps[..|steps| - 1];
      SheltersOverRuns(s, rest);
      TreeOverRuns(s, rest);
      StepShelters(Run(s, rest), steps[|steps| - 1]);
    }
  }

  lemma {:induction false} RootsOverRuns(s: State, steps: seq<Step>)
    requires TreeOk(s) && Rooted(s.entries, s.root) && RootGuarded(s, steps)
    ensures Rooted(Run(s, steps).entries, s.root) && Run(s, steps).root == s.root
    decreases |steps|
  {
    if steps != [] {
      var rest, last := steps[..|steps| - 1], steps[|steps| - 1];
      RootsOverRuns(s, rest);
      TreeOverRuns(s, rest);
      StepRoots(Run(s, rest), last);
      SameRoot(Run(s, rest), last);
    }
  }

  lemma InitRooted(cfg: Config, quota: nat)
    ensures Sheltered(Init(cfg, quota).entries) && Rooted(Init(cfg, quota).entries, 0)
  {
    InitTree(cfg, quota);
    RootedExact(Init(cfg, quota).entries, 0, 1);
  }
}
