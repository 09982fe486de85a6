/** References never dangle, and a retained version keeps the bytes its entry had. */
module Blobs {
  import opened Names
  import opened Sums
  import opened Model
  import opened FolderTree
  import opened Updates

  ghost predicate Held(s: State, key: Key, size: nat) {
    key.BlobKey? && key.id < s.next && key in s.disk && |s.disk[key]| == size
  }

  ghost predicate EntryOk(s: State, i: Id)
    requires i in s.entries
  {
    s.entries[i].kind == File ==> Held(s, s.entries[i].key, s.entries[i].size)
  }

  /** A version row belongs to a file, is not ahead of it and, if level with it, is the file's own blob. */
  ghost predicate VersionOk(s: State, k: (Id, nat))
    requires k in s.versions
  {
    k.0 in s.entries && s.entries[k.0].kind == File && k.1 <= s.entries[k.0].version
    && (k.1 == s.entries[k.0].version ==>
          s.versions[k].key == s.entries[k.0].key && s.versions[k].size == s.entries[k.0].size)
    && Held(s, s.versions[k].key, s.versions[k].size)
  }

  ghost predicate BlobsOk(s: State) {
    (forall i {:trigger EntryOk(s, i)} :: i in s.entries ==> EntryOk(s, i))
    && (forall k {:trigger VersionOk(s, k)} :: k in s.versions ==> VersionOk(s, k))
  }

  // ---------------------------------------------------------------- guards

  /** Another entry or a retained version still uses the blob of entry i. */
  predicate Shared(s: State, i: Id)
    requires i in s.entries
  {
    (exists j | j in s.entries :: j != i && s.entries[j].kind == File && s.entries[j].key == s.entries[i].key)
    || (exists k | k in s.versions :: s.versions[k].key == s.entries[i].key)
  }

  /** The version survives the snapshot taken before it is restored, or its blob does. */
  predicate Survives(s: State, i: Id, v: nat)
    requires (i, v) in s.versions && i in s.entries
  {
    var key, vs := s.versions[(i, v)].key, WithVersion(s.versions, i, s.entries[i]);
    |Newer(vs, i, v)| < KEEP
    || (exists j | j in s.entries :: s.entries[j].key == key)
    || (exists k | k in vs :: k !in Doomed(vs, i, KEEP) && vs[k].key == key)
  }

  /**
   * Three operations can lose a blob: completing over a folder files a version that has none,
   * overwriting deletes a blob that a version may share, and restoring a version first prunes.
   */
  ghost predicate BlobGuard(s: State, step: Step) {
    match step
    case CompleteFile(sid, digest, fault) =>
      Completes(s, sid, digest, fault) && s.sessions[sid].target.Some? ==>
        s.entries[s.sessions[sid].target.value].kind == File
    case Upload(p, name, data, mode) =>
      UploadAdmitted(s, p, Sanitize(name), data) ==>
        var r := Settle(s.entries, p, Sanitize(name), mode, 0);
        r.Some? && r.value.1.Some? && r.value.1.value in s.entries ==> !Shared(s, r.value.1.value)
    case RestoreVersion(i, v) => (i, v) in s.versions && i in s.entries ==> Survives(s, i, v)
    case _ => true
  }

  // ---------------------------------------------------------------- steps

  /** Entries keep their blobs' columns, versions go away at most, and no blob in use is lost. */
  lemma KeepBlobs(s: State, t: State)
    requires BlobsOk(s) && s.next <= t.next
    requires forall i :: i in t.entries && t.entries[i].kind == File ==>
               i in s.entries && t.entries[i].(parent := s.entries[i].parent, name := s.entries[i].name,
                                               version := s.entries[i].version, live := s.entries[i].live) == s.entries[i]
               && t.entries[i].version >= s.entries[i].version
    requires forall k :: k in t.versions ==>
               k in s.versions && t.versions[k] == s.versions[k] && k.0 in t.entries && t.entries[k.0].kind == File
    requires forall k: Key :: k.BlobKey? && k in s.disk ==>
               (k in t.disk && t.disk[k] == s.disk[k])
               || (k !in t.disk && (forall i :: i in t.entries ==> t.entries[i].key != k)
                   && forall j :: j in t.versions ==> t.versions[j].key != k)
    ensures BlobsOk(t)
  {
    forall i | i in t.entries ensures EntryOk(t, i) {
      if t.entries[i].kind == File { assert EntryOk(s, i); }
    }
    forall k | k in t.versions ensures VersionOk(t, k) {
      assert VersionOk(s, k);
    }
  }

  lemma CollectKeeps(s: State, keys: set<Key>)
    requires BlobsOk(s)
    ensures BlobsOk(AfterCollect(s, keys))
  {
    var t := AfterCollect(s, keys);
    forall k | k in s.versions ensures k.0 in s.entries && s.entries[k.0].kind == File { assert VersionOk(s, k); }
    KeepBlobs(s, t);
  }

  lemma PruneKeeps(s: State, i: Id, keep: nat)
    requires BlobsOk(s)
    ensures BlobsOk(AfterPrune(s, i, keep))
  {
    var gone := Doomed(s.versions, i, keep);
    var t := s.(versions := s.versions - gone);
    forall k | k in s.versions ensures k.0 in s.entries && s.entries[k.0].kind == File { assert VersionOk(s, k); }
    KeepBlobs(s, t);
    CollectKeeps(t, set k | k in gone && k in s.versions :: s.versions[k].key);
  }

  lemma SnapshotKeeps(s: State, i: Id)
    requires BlobsOk(s)
    ensures BlobsOk(AfterSnapshot(s, i))
  {
    if i in s.entries && s.entries[i].kind == File {
      var t := s.(versions := WithVersion(s.versions, i, s.entries[i]));
      assert EntryOk(s, i);
      forall k | k in t.versions ensures VersionOk(t, k) {
        if k in s.versions { assert VersionOk(s, k); }
      }
      forall j | j in t.entries ensures EntryOk(t, j) { assert EntryOk(s, j); }
      PruneKeeps(t, i, KEEP);
    }
  }

  /** Exactly when the chosen blob outlives the pruning, restoring a version leaves no dangling reference. */
  lemma RestoreVersionKeeps(s: State, i: Id, v: nat)
    requires BlobsOk(s)
    ensures BlobsOk(AfterRestoreVersion(s, i, v)) <==> BlobGuard(s, RestoreVersion(i, v))
  {
    if (i, v) in s.versions && i in s.entries {
      assert VersionOk(s, (i, v));
      assert EntryOk(s, i);
      SnapshotKeeps(s, i);
      var t, u, key := AfterSnapshot(s, i), AfterRestoreVersion(s, i, v), s.versions[(i, v)].key;
      SnapshotKeepsBlob(s, i, v);
      if Survives(s, i, v) {
        forall j | j in u.entries ensures EntryOk(u, j) { assert EntryOk(t, j); }
        forall k | k in u.versions ensures VersionOk(u, k) { assert VersionOk(t, k); }
      } else {
        assert !EntryOk(u, i);
      }
    }
  }

  lemma SnapshotKeepsBlob(s: State, i: Id, v: nat)
    requires BlobsOk(s) && (i, v) in s.versions && i in s.entries
    ensures var t, key := AfterSnapshot(s, i), s.versions[(i, v)].key;
            (key in t.disk <==> Survives(s, i, v)) && (key in t.disk ==> t.disk[key] == s.disk[key])
    ensures AfterSnapshot(s, i).entries == s.entries && AfterSnapshot(s, i).next == s.next
    ensures AfterSnapshot(s, i).versions.Keys <= WithVersion(s.versions, i, s.entries[i]).Keys
  {
    assert VersionOk(s, (i, v));
    assert EntryOk(s, i);
    var key, vs := s.versions[(i, v)].key, WithVersion(s.versions, i, s.entries[i]);
    var gone := Doomed(vs, i, KEEP);
    var u := s.(versions := vs - gone);
    var keys := set k | k in gone && k in vs :: vs[k].key;
    assert AfterSnapshot(s, i) == AfterCollect(u, keys);
    assert vs[(i, v)].key == key;
    if |Newer(vs, i, v)| < KEEP {
      assert (i, v) in u.versions && u.versions[(i, v)].key == key;
      assert Referenced(u, key);
    } else {
      assert (i, v) in gone;
      assert key in keys;
      assert (exists k | k in vs :: k !in gone && vs[k].key == key) <==> (exists k | k in u.versions :: u.versions[k].key == key)
      by {
        if k :| k in vs && k !in gone && vs[k].key == key { assert k in u.versions && u.versions[k].key == key; }
        if k :| k in u.versions && u.versions[k].key == key { assert k in vs && k !in gone && vs[k].key == key; }
      }
    }
  }

  lemma PurgeKeepsBlobs(s: State, i: Id, order: seq<Id>)
    requires TreeOk(s) && BlobsOk(s)
    ensures BlobsOk(AfterPurge(s, i, order))
  {
    if PurgeTargets(s, i) != {} && Enumerates(order, PurgeTargets(s, i)) {
      PurgeLeavesNoOrphan(s, i, order);
      forall k | k in s.versions ensures k.0 in s.entries && s.entries[k.0].kind == File { assert VersionOk(s, k); }
      KeepBlobs(s, AfterPurge(s, i, order));
    }
  }

  lemma SameBlobs(s: State, t: State)
    requires BlobsOk(s) && t.entries == s.entries && t.versions == s.versions && s.next <= t.next
    requires forall k: Key :: k.BlobKey? && k in s.disk ==> k in t.disk && t.disk[k] == s.disk[k]
    ensures BlobsOk(t)
  {
    forall k | k in s.versions ensures k.0 in s.entries && s.entries[k.0].kind == File { assert VersionOk(s, k); }
    KeepBlobs(s, t);
  }

  lemma RelabelKeeps(s: State, t: State)
    requires BlobsOk(s) && t.versions == s.versions && t.disk == s.disk && s.next <= t.next
    requires forall i :: i in s.entries ==> i in t.entries
    requires forall i :: i in t.entries && t.entries[i].kind == File ==>
               i in s.entries && t.entries[i].(parent := s.entries[i].parent, name := s.entries[i].name,
                                               version := s.entries[i].version, live := s.entries[i].live) == s.entries[i]
               && t.entries[i].version >= s.entries[i].version
    requires forall i :: i in s.entries ==> t.entries[i].kind == s.entries[i].kind
    ensures BlobsOk(t)
  {
    forall k | k in s.versions ensures k.0 in s.entries && s.entries[k.0].kind == File { assert VersionOk(s, k); }
    KeepBlobs(s, t);
  }

  lemma CreateBatchKeepsBlobs(s: State, parent: Option<Id>, files: seq<Manifest>, expires: int)
    requires TreeOk(s) && BlobsOk(s)
    ensures BlobsOk(AfterCreateBatch(s, parent, files, expires))
  {
    var p := RootOr(s, parent);
    if BatchAdmitted(s, p, files) {
      BatchForest(s, parent, files);
      match WalkAll(Forest(s.entries, s.next), p, Dirs(files))
      case None =>
      case Some(f) =>
        var t := s.(entries := f.entries, next := f.next);
        RelabelKeeps(s, t);
        SameBlobs(t, AfterBatchRows(s, f, p, files, expires));
    }
  }

  /** The new row takes a new blob of its size; the replaced one stays with the version filed for it. */
  lemma WriteBlob(s: State, t: State, i: Id, data: Bytes)
    requires TreeOk(s) && BlobsOk(s) && s.next < t.next && i in t.entries
    requires t.entries == s.entries[i := t.entries[i]]
    requires t.entries[i].kind == File && t.entries[i].key == BlobKey(s.next) && t.entries[i].size == |data|
    requires i in s.entries ==> s.entries[i].kind == File && t.entries[i].version > s.entries[i].version
    requires t.versions == s.versions || (i in s.entries && t.versions == WithVersion(s.versions, i, s.entries[i]))
    requires BlobKey(s.next) in t.disk && t.disk[BlobKey(s.next)] == data
    requires forall k: Key :: k.BlobKey? && k != BlobKey(s.next) && k in s.disk ==> k in t.disk && t.disk[k] == s.disk[k]
    ensures BlobsOk(t)
  {
    forall j | j in t.entries ensures EntryOk(t, j) {
      if j in s.entries { assert EntryOk(s, j); }
    }
    forall k | k in t.versions ensures VersionOk(t, k) {
      if k in s.versions { assert VersionOk(s, k); } else { assert EntryOk(s, i); }
    }
  }

  lemma CompleteKeepsBlobs(s: State, sid: Id, digest: string, fault: Fault)
    requires TreeOk(s) && BlobsOk(s)
    ensures BlobsOk(AfterComplete(s, sid, digest, fault)) <==> BlobGuard(s, CompleteFile(sid, digest, fault))
  {
    var t := AfterComplete(s, sid, digest, fault);
    if !Completes(s, sid, digest, fault) {
      LostBlob(s, t);
    } else {
      var i := CompletedId(s, sid);
      if i in s.entries && s.entries[i].kind == Folder {
        var k := (i, s.entries[i].version);
        assert k in t.versions;
        assert !VersionOk(t, k);
      } else {
        WriteBlob(s, t, i, s.disk[TempKey(sid)]);
      }
    }
  }

  lemma LostBlob(s: State, t: State)
    requires BlobsOk(s) && t.entries == s.entries && t.versions == s.versions && s.next <= t.next
    requires forall k: Key :: k.BlobKey? && k != BlobKey(s.next) && k in s.disk ==> k in t.disk && t.disk[k] == s.disk[k]
    ensures BlobsOk(t)
  {
    forall i | i in t.entries ensures EntryOk(t, i) { assert EntryOk(s, i); }
    forall k | k in t.versions ensures VersionOk(t, k) { assert VersionOk(s, k); }
  }

  lemma OverwriteKeepsBlobs(s: State, i: Id, data: Bytes)
    requires TreeOk(s) && BlobsOk(s) && i in s.entries && s.entries[i].kind == File
    ensures BlobsOk(AfterOverwrite(s, i, data)) <==> !Shared(s, i)
  {
    var t := AfterOverwrite(s, i, data);
    assert EntryOk(s, i);
    if Shared(s, i) {
      if j :| j in s.entries && j != i && s.entries[j].kind == File && s.entries[j].key == s.entries[i].key {
        assert !EntryOk(t, j);
      } else {
        var k :| k in s.versions && s.versions[k].key == s.entries[i].key;
        assert !VersionOk(t, k);
      }
    } else {
      forall j | j in t.entries ensures EntryOk(t, j) { assert EntryOk(s, j); }
      forall k | k in t.versions ensures VersionOk(t, k) { assert VersionOk(s, k); }
    }
  }

  lemma InsertKeepsBlobs(s: State, p: Id, name: string, data: Bytes)
    requires TreeOk(s) && BlobsOk(s)
    ensures BlobsOk(AfterInsert(s, p, name, data))
  {
    var t := AfterInsert(s, p, name, data);
    if t != s { WriteBlob(s, t, s.next + 1, data); }
  }

  lemma UploadKeepsBlobs(s: State, p: Id, name: string, data: Bytes, mode: Mode)
    requires TreeOk(s) && BlobsOk(s)
    ensures BlobsOk(AfterUpload(s, p, name, data, mode)) <==> BlobGuard(s, Upload(p, name, data, mode))
  {
    if UploadAdmitted(s, p, Sanitize(name), data) {
      SettledFile(s.entries, p, Sanitize(name), mode, 0);
      match Settle(s.entries, p, Sanitize(name), mode, 0)
      case None =>
      case Some((chosen, None)) => InsertKeepsBlobs(s, p, chosen, data);
      case Some((_, Some(i))) => OverwriteKeepsBlobs(s, i, data);
    }
  }

  lemma MoveKeepsBlobs(s: State, i: Id, p: Id)
    requires BlobsOk(s)
    ensures BlobsOk(AfterMove(s, i, p))
  {
    var t := AfterMove(s, i, p);
    if t != s { RelabelKeeps(s, t); }
  }

  lemma RenameKeepsBlobs(s: State, i: Id, name: string)
    requires BlobsOk(s)
    ensures BlobsOk(AfterRename(s, i, name))
  {
    var t := AfterRename(s, i, name);
    if t != s { RelabelKeeps(s, t); }
  }

  lemma CreateFolderKeepsBlobs(s: State, p: Id, name: string)
    requires TreeOk(s) && BlobsOk(s)
    ensures BlobsOk(AfterCreateFolder(s, p, name))
  {
    RelabelKeeps(s, AfterCreateFolder(s, p, name));
  }

  lemma FlipKeepsBlobs(s: State, ids: set<Id>, live: bool, t: State)
    requires BlobsOk(s) && t == s.(entries := Flip(s.entries, ids, live), log := t.log)
    ensures BlobsOk(t)
  {
    RelabelKeeps(s, t);
  }

  lemma DeleteKeepsBlobs(s: State, i: Id, order: seq<Id>)
    requires BlobsOk(s)
    ensures BlobsOk(AfterDelete(s, i, order))
  {
    var t := AfterDelete(s, i, order);
    if t != s { FlipKeepsBlobs(s, TrashTargets(s, i), false, t); }
  }

  lemma RestoreKeepsBlobs(s: State, i: Id, order: seq<Id>)
    requires BlobsOk(s)
    ensures BlobsOk(AfterRestore(s, i, order))
  {
    var t := AfterRestore(s, i, order);
    if t != s { FlipKeepsBlobs(s, RestoreTargets(s, i), true, t); }
  }

  lemma AppendKeepsBlobs(s: State, sid: Id, now: int, offset: int, length: int, body: Bytes, fault: Fault)
    requires BlobsOk(s)
    ensures BlobsOk(Appended(s, sid, now, offset, length, body, fault).0)
  {
    SameBlobs(s, Appended(s, sid, now, offset, length, body, fault).0);
  }

  lemma CloseKeepsBlobs(s: State, b: Id, now: int)
    requires BlobsOk(s)
    ensures BlobsOk(AfterAbort(s, b)) && BlobsOk(AfterExpire(s, b, now))
  {
    SameBlobs(s, AfterAbort(s, b));
    SameBlobs(s, AfterExpire(s, b, now));
  }

  /** Every step keeps all references alive exactly when the guard holds. */
  lemma StepKeepsBlobs(s: State, step: Step)
    requires TreeOk(s) && BlobsOk(s)
    ensures BlobsOk(Apply(s, step)) <==> BlobGuard(s, step)
  {
    match step
    case CreateFolder(p, name) => CreateFolderKeepsBlobs(s, p, name);
    case CreateBatch(p, files, expires) => CreateBatchKeepsBlobs(s, p, files, expires);
    case AppendChunk(sid, now, offset, length, body, fault) => AppendKeepsBlobs(s, sid, now, offset, length, body, fault);
    case CompleteFile(sid, digest, fault) => CompleteKeepsBlobs(s, sid, digest, fault);
    case AbortBatch(b) => CloseKeepsBlobs(s, b, 0);
    case ExpireBatch(b, now) => CloseKeepsBlobs(s, b, now);
    case Upload(p, name, data, mode) => UploadKeepsBlobs(s, p, name, data, mode);
    case Move(i, p) => MoveKeepsBlobs(s, i, p);
    case RenameTo(i, name) => RenameKeepsBlobs(s, i, name);
    case Delete(i, order) => DeleteKeepsBlobs(s, i, order);
    case Restore(i, order) => RestoreKeepsBlobs(s, i, order);
    case Purge(i, order) => PurgeKeepsBlobs(s, i, order);
    case PruneVersions(i, keep) => PruneKeeps(s, i, keep);
    case Collect(keys) => CollectKeeps(s, keys);
    case SnapshotVersion(i) => SnapshotKeeps(s, i);
    case RestoreVersion(i, v) => RestoreVersionKeeps(s, i, v);
  }

  /** Every step of the run meets its guard in the state where it is taken. */
  ghost predicate BlobGuarded(s: State, steps: seq<Step>) {
    steps == [] ||
    var rest, last := steps[..|steps| - 1], steps[|steps| - 1];
    BlobGuarded(s, rest) && BlobGuard(Run(s, rest), last)
  }

  lemma {:induction false} BlobsOverRuns(s: State, steps: seq<Step>)
    requires TreeOk(s) && BlobsOk(s) && BlobGuarded(s, steps)
    ensures BlobsOk(Run(s, steps))
    decreases |steps|
  {
    if steps != [] {
      var rest, last := steps[..|steps| - 1], steps[|steps| - 1];
      BlobsOverRuns(s, rest);
      TreeOverRuns(s, rest);
      StepKeepsBlobs(Run(s, rest), last);
    }
  }

  lemma InitBlobs(cfg: Config, quota: nat)
    ensures BlobsOk(Init(cfg, quota))
  {
    var s := Init(cfg, quota);
    forall i | i in s.entries ensures EntryOk(s, i) {}
  }

  // ---------------------------------------------------------------- immutable history

  /** Blobs are written once, and a version row is either an earlier row or the entry as it stood. */
  ghost predicate Stable(s: State, t: State) {
    (forall k: Key :: k.BlobKey? && k.id < s.next && k in t.disk ==> k in s.disk && t.disk[k] == s.disk[k])
    && (forall k :: k in t.versions ==>
          (k in s.versions && t.versions[k].key == s.versions[k].key)
          || (k.0 in s.entries && k.1 == s.entries[k.0].version && t.versions[k].key == s.entries[k.0].key))
  }

  lemma PruneStable(s: State, i: Id, keep: nat, keys: set<Key>)
    ensures Stable(s, AfterPrune(s, i, keep)) && Stable(s, AfterCollect(s, keys))
  {
  }

  lemma SnapshotStable(s: State, i: Id)
    ensures Stable(s, AfterSnapshot(s, i))
  {
    if i in s.entries && s.entries[i].kind == File {
      var t := s.(versions := WithVersion(s.versions, i, s.entries[i]));
      PruneStable(t, i, KEEP, {});
    }
  }

  lemma CompleteStable(s: State, sid: Id, digest: string, fault: Fault)
    ensures Stable(s, AfterComplete(s, sid, digest, fault))
  {
  }

  lemma UploadStable(s: State, p: Id, name: string, data: Bytes, mode: Mode)
    ensures Stable(s, AfterUpload(s, p, name, data, mode))
  {
  }

  lemma AppendStable(s: State, sid: Id, now: int, offset: int, length: int, body: Bytes, fault: Fault)
    ensures Stable(s, Appended(s, sid, now, offset, length, body, fault).0)
  {
  }

  lemma CloseStable(s: State, b: Id, now: int)
    ensures Stable(s, AfterAbort(s, b)) && Stable(s, AfterExpire(s, b, now))
  {
  }

  lemma CreateBatchStable(s: State, parent: Option<Id>, files: seq<Manifest>, expires: int)
    ensures Stable(s, AfterCreateBatch(s, parent, files, expires))
  {
  }

  lemma TreeStable(s: State, step: Step)
    requires step.CreateFolder? || step.Move? || step.RenameTo? || step.Delete? || step.Restore? || step.Purge?
    ensures Stable(s, Apply(s, step))
  {
  }

  lemma StepStable(s: State, step: Step)
    ensures Stable(s, Apply(s, step))
  {
    match step
    case CreateBatch(p, files, expires) => CreateBatchStable(s, p, files, expires);
    case AppendChunk(sid, now, offset, length, body, fault) => AppendStable(s, sid, now, offset, length, body, fault);
    case CompleteFile(sid, digest, fault) => CompleteStable(s, sid, digest, fault);
    case AbortBatch(b) => CloseStable(s, b, 0);
    case ExpireBatch(b, now) => CloseStable(s, b, now);
    case Upload(p, name, data, mode) => UploadStable(s, p, name, data, mode);
    case PruneVersions(i, keep) => PruneStable(s, i, keep, {});
    case Collect(keys) => PruneStable(s, 0, 0, keys);
    case SnapshotVersion(i) => SnapshotStable(s, i);
    case RestoreVersion(i, v) => SnapshotStable(s, i);
    case _ => TreeStable(s, step);
  }

  /** Wherever (i, v) is still known, as the entry's current version or as a retained row, it means `data`. */
  ghost predicate Remembers(s: State, i: Id, v: nat, data: Bytes) {
    i < s.next
    && (i in s.entries && s.entries[i].kind == File ==>
          v <= s.entries[i].version
          && (s.entries[i].version == v ==> s.entries[i].key in s.disk && s.disk[s.entries[i].key] == data))
    && ((i, v) in s.versions ==> s.versions[(i, v)].key in s.disk && s.disk[s.versions[(i, v)].key] == data)
  }

  lemma StepRemembers(s: State, t: State, i: Id, v: nat, data: Bytes)
    requires BlobsOk(s) && BlobsOk(t) && Ages(s, t) && Stable(s, t) && Remembers(s, i, v, data)
    requires forall j :: j in s.entries && j in t.entries ==> t.entries[j].kind == s.entries[j].kind
    ensures Remembers(t, i, v, data)
  {
    if i in t.entries && t.entries[i].kind == File {
      assert EntryOk(t, i);
      assert i in s.entries;
      assert EntryOk(s, i);
    }
    if (i, v) in t.versions {
      assert VersionOk(t, (i, v));
      if (i, v) in s.versions { assert VersionOk(s, (i, v)); }
      assert i in s.entries;
      assert EntryOk(s, i);
    }
  }

  lemma CompleteSameKinds(s: State, sid: Id, digest: string, fault: Fault, i: Id)
    requires var t := AfterComplete(s, sid, digest, fault); i in s.entries && i in t.entries && i < s.next
    ensures AfterComplete(s, sid, digest, fault).entries[i].kind == s.entries[i].kind
  {
  }

  lemma UploadSameKinds(s: State, p: Id, name: string, data: Bytes, mode: Mode, i: Id)
    requires var t := AfterUpload(s, p, name, data, mode); i in s.entries && i in t.entries && i < s.next
    ensures AfterUpload(s, p, name, data, mode).entries[i].kind == s.entries[i].kind
  {
  }

  lemma UploadStepSameKinds(s: State, step: Step, i: Id)
    requires TreeOk(s) && i in s.entries && i in Apply(s, step).entries
    requires step.CreateBatch? || step.AppendChunk? || step.CompleteFile? || step.Upload?
    ensures Apply(s, step).entries[i].kind == s.entries[i].kind
  {
    match step
    case CreateBatch(p, files, expires) =>
      if BatchAdmitted(s, RootOr(s, p), files) { BatchForest(s, p, files); }
    case AppendChunk(sid, now, offset, length, body, fault) => AppendSameForest(s, sid, now, offset, length, body, fault);
    case CompleteFile(sid, digest, fault) => CompleteSameKinds(s, sid, digest, fault, i);
    case Upload(p, name, data, mode) => UploadSameKinds(s, p, name, data, mode, i);
  }

  lemma StepSameKinds(s: State, step: Step)
    requires TreeOk(s)
    ensures forall i :: i in s.entries && i in Apply(s, step).entries ==> Apply(s, step).entries[i].kind == s.entries[i].kind
  {
    forall i | i in s.entries && i in Apply(s, step).entries
      ensures Apply(s, step).entries[i].kind == s.entries[i].kind
    {
      if step.CreateBatch? || step.AppendChunk? || step.CompleteFile? || step.Upload? {
        UploadStepSameKinds(s, step, i);
      } else if step.SnapshotVersion? || step.RestoreVersion? {
        SnapshotSameForest(s, step.id);
      }
    }
  }

  /**
   * Version history is immutable: whatever runs, a retained version (i, v) still holds the bytes
   * that entry i had when its content version was v.
   */
  lemma {:induction false} RetainedVersionImmutable(s: State, steps: seq<Step>, i: Id, v: nat)
    requires TreeOk(s) && BlobsOk(s) && BlobGuarded(s, steps)
    requires i in s.entries && s.entries[i].kind == File && s.entries[i].version == v
    ensures s.entries[i].key in s.disk && Remembers(Run(s, steps), i, v, s.disk[s.entries[i].key])
    decreases |steps|
  {
    assert EntryOk(s, i);
    if steps == [] {
      if (i, v) in s.versions { assert VersionOk(s, (i, v)); }
    } else {
      var rest, last := steps[..|steps| - 1], steps[|steps| - 1];
      RetainedVersionImmutable(s, rest, i, v);
      TreeOverRuns(s, rest);
      BlobsOverRuns(s, rest);
      BlobsOverRuns(s, steps);
      StepAges(Run(s, rest), last);
      StepStable(Run(s, rest), last);
      StepSameKinds(Run(s, rest), last);
      StepRemembers(Run(s, rest), Run(s, steps), i, v, s.disk[s.entries[i].key]);
    }
  }
}
