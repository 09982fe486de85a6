/** Every operation of the state machine has the effect that Effects states. */
module EffectProofs {
  import opened Names
  import opened PathNames
  import opened Sums
  import opened Model
  import opened Manifests
  import opened FolderTree
  import opened Minting
  import opened Effects

  // ---------------------------------------------------------------- single rows

  /** The name index admits a row exactly when its name is free. */
  lemma AdmittedWhenFree(es: Entries, i: Id, e: Entry)
    requires UniqueNames(es) && e.live
    ensures UniqueNames(es[i := e]) <==> NameFree(es, e.parent, e.name, i)
  {
    var fs := es[i := e];
    if NameFree(es, e.parent, e.name, i) {
      forall j, k | j in fs && k in fs ensures !Clash(fs, j, k) {
        if j != i && k != i { assert !Clash(es, j, k); }
      }
    }
    if UniqueNames(fs) {
      forall j | j in es && j != i && es[j].live && es[j].parent == e.parent ensures Lower(es[j].name) != Lower(e.name) {
        assert !Clash(fs, j, i);
      }
    }
  }

  lemma OneLogged(log: seq<Change>, op: Op, i: Id, es: Entries)
    requires i in es
    ensures Logged(log, log + [Change(op, i, RowOf(es[i]))], op, [i], es)
  {
  }

  lemma {:induction false} RowsLogged(log: seq<Change>, op: Op, order: seq<Id>, es: Entries)
    requires forall i :: i in order ==> i in es
    ensures Logged(log, log + ChangeRows(op, order, es), op, order, es)
    decreases |order|
  {
    if order == [] {
      assert log + [] == log;
    } else {
      var k := |order| - 1;
      var rest := order[..k];
      assert forall i :: i in rest ==> i in order;
      RowsLogged(log, op, rest, es);
      var c := Change(op, order[k], RowOf(es[order[k]]));
      assert log + ChangeRows(op, order, es) == (log + ChangeRows(op, rest, es)) + [c];
      assert order[k] in order;
      forall j | 0 <= j < |order|
        ensures order[j] in es && Tells((log + ChangeRows(op, order, es))[|log| + j], op, order[j], es[order[j]])
      {
        if j < k { assert rest[j] == order[j]; }
      }
    }
  }

  lemma CreateFolderEffect(s: State, p: Id, raw: string)
    requires TreeOk(s)
    ensures var t := AfterCreateFolder(s, p, raw); FolderMade(s, t, p, raw, if t == s then None else Some(s.next))
  {
    var e := Entry(Some(p), Sanitize(raw), Folder, FolderKey(s.next), 0, 1, "", true);
    AdmittedWhenFree(s.entries, s.next, e);
    OneLogged(s.log, Upsert, s.next, s.entries[s.next := e]);
    assert AfterCreateFolder(s, p, raw) != s ==> AfterCreateFolder(s, p, raw).next == s.next + 1;
  }

  lemma MoveEffect(s: State, i: Id, p: Id)
    requires TreeOk(s)
    ensures var t := AfterMove(s, i, p); EntryMoved(s, t, i, p, t != s)
  {
    if i in s.entries && s.entries[i].live && i != s.root && LiveFolder(s.entries, p) {
      var e := s.entries[i].(parent := Some(p), version := s.entries[i].version + 1);
      MoveCheckExact(s.entries, i, p);
      AdmittedWhenFree(s.entries, i, e);
      OneLogged(s.log, Moved, i, s.entries[i := e]);
      assert e != s.entries[i];
    }
  }

  lemma RenameEffect(s: State, i: Id, raw: string)
    requires TreeOk(s)
    ensures var t := AfterRename(s, i, raw); EntryRenamed(s, t, i, raw, t != s)
  {
    if Sanitize(raw) != "" && i in s.entries && s.entries[i].live && i != s.root {
      var e := s.entries[i].(name := Sanitize(raw), version := s.entries[i].version + 1);
      AdmittedWhenFree(s.entries, i, e);
      OneLogged(s.log, Renamed, i, s.entries[i := e]);
      assert e != s.entries[i];
    }
  }

  // ---------------------------------------------------------------- subtrees

  lemma FlipSwitches(es: Entries, ids: set<Id>, live: bool)
    ensures Switched(es, Flip(es, ids, live), ids, live)
  {
  }

  lemma SelectedExact(es: Entries)
    ensures Selected(es, true) == LiveIds(es) && Selected(es, false) == TrashedIds(es)
  {
  }

  lemma DeleteEffect(s: State, i: Id, order: seq<Id>)
    requires TreeOk(s)
    requires i in s.entries && s.entries[i].live && i != s.root ==> Enumerates(order, Subtree(s.entries, LiveIds(s.entries), i))
    ensures SubtreeTrashed(s, AfterDelete(s, i, order), i, order, i in s.entries && s.entries[i].live && i != s.root)
  {
    SelectedExact(s.entries);
    if i in s.entries && s.entries[i].live && i != s.root {
      var ids := Subtree(s.entries, LiveIds(s.entries), i);
      SubtreeClosed(s.entries, LiveIds(s.entries), i);
      assert i in ids;
      FlipSwitches(s.entries, ids, false);
      RowsLogged(s.log, Trash, order, Flip(s.entries, ids, false));
    }
  }

  /** Putting rows back crowds a folder exactly when the name index refuses the table. */
  lemma CrowdedExact(es: Entries, ids: set<Id>)
    requires UniqueNames(es) && ids <= TrashedIds(es)
    ensures UniqueNames(Flip(es, ids, true)) <==> !Crowded(es, ids)
  {
    var fs := Flip(es, ids, true);
    if Crowded(es, ids) {
      var x, y :| x in ids && x in es && y in es && x != y && (es[y].live || y in ids)
                  && es[x].parent == es[y].parent && Lower(es[x].name) == Lower(es[y].name);
      assert Clash(fs, x, y);
    } else {
      forall x, y | x in fs && y in fs ensures !Clash(fs, x, y) {
        assert x !in ids && y !in ids ==> !Clash(es, x, y);
      }
    }
  }

  lemma RestoredRows(s: State, i: Id, order: seq<Id>, ids: set<Id>)
    requires RestoreTargets(s, i) == ids && i in ids && Enumerates(order, ids) && ids <= s.entries.Keys
    requires UniqueNames(Flip(s.entries, ids, true))
    ensures var t := AfterRestore(s, i, order);
      && t != s && Switched(s.entries, t.entries, ids, true) && Logged(s.log, t.log, Restored, order, t.entries)
      && t == s.(entries := t.entries, log := t.log)
  {
    var es := Flip(s.entries, ids, true);
    FlipSwitches(s.entries, ids, true);
    RowsLogged(s.log, Restored, order, es);
    assert es[i] != s.entries[i];
  }

  lemma RestoreEffect(s: State, i: Id, order: seq<Id>)
    requires TreeOk(s)
    requires i in TrashedIds(s.entries) ==> Enumerates(order, Subtree(s.entries, TrashedIds(s.entries), i))
    ensures var t := AfterRestore(s, i, order); SubtreeRestored(s, t, i, order, t != s)
  {
    SelectedExact(s.entries);
    if i in TrashedIds(s.entries) {
      var ids := Subtree(s.entries, TrashedIds(s.entries), i);
      SubtreeClosed(s.entries, TrashedIds(s.entries), i);
      assert i in ids;
      CrowdedExact(s.entries, ids);
      if RestoreTargets(s, i) == ids && !Crowded(s.entries, ids) { RestoredRows(s, i, order, ids); }
    }
  }

  // ---------------------------------------------------------------- blobs and versions

  lemma UseExact(s: State, key: Key)
    ensures Referenced(s, key) <==> InUse(s, key)
  {
  }

  lemma CollectEffect(s: State, keys: set<Key>)
    ensures BlobsCollected(s, AfterCollect(s, keys), keys)
  {
    forall k ensures Referenced(s, k) <==> InUse(s, k) { UseExact(s, k); }
  }

  lemma VersionsLeft(vs: Versions, i: Id, keep: nat)
    ensures var ws := vs - Doomed(vs, i, keep);
      && (forall k :: k in ws <==> k in vs && (k.0 != i || |set l | l in vs && l.0 == i && l.1 > k.1| < keep))
      && (forall k :: k in ws ==> ws[k] == vs[k])
  {
    forall k: (Id, nat) ensures Newer(vs, i, k.1) == set l | l in vs && l.0 == i && l.1 > k.1 {}
  }

  lemma VersionsGone(vs: Versions, i: Id, keep: nat)
    ensures var gone := Doomed(vs, i, keep);
      (set k | k in gone && k in vs :: vs[k].key) == set k | k in vs && k !in vs - gone :: vs[k].key
  {
  }

  /** Use is read off the tables, not the disk. */
  lemma SameUse(s: State, t: State, was: Disk, now: Disk, offered: set<Key>)
    requires Collected(s, was, now, offered)
    requires t.entries == s.entries && t.versions == s.versions && t.sessions == s.sessions
    ensures Collected(t, was, now, offered)
  {
    forall key ensures InUse(s, key) <==> InUse(t, key) {}
  }

  lemma PruneEffect(s: State, i: Id, keep: nat)
    ensures VersionsPruned(s, AfterPrune(s, i, keep), i, keep)
  {
    var gone := Doomed(s.versions, i, keep);
    var t := s.(versions := s.versions - gone);
    var offered := set k | k in gone && k in s.versions :: s.versions[k].key;
    VersionsLeft(s.versions, i, keep);
    VersionsGone(s.versions, i, keep);
    CollectEffect(t, offered);
    SameUse(t, AfterCollect(t, offered), s.disk, AfterCollect(t, offered).disk, offered);
  }

  lemma SnapshotEffect(s: State, i: Id)
    ensures VersionFiled(s, AfterSnapshot(s, i), i)
  {
    if i in s.entries && s.entries[i].kind == File && s.entries[i].key != NoKey {
      var vs := WithVersion(s.versions, i, s.entries[i]);
      assert Filed(s.versions, vs, i, s.entries[i]);
      PruneEffect(s.(versions := vs), i, 20);
    }
  }

  lemma RestoreVersionEffect(s: State, i: Id, v: nat)
    ensures VersionRestored(s, AfterRestoreVersion(s, i, v), i, v, (i, v) in s.versions && i in s.entries)
  {
    if (i, v) in s.versions && i in s.entries {
      SnapshotEffect(s, i);
      SnapshotSameForest(s, i);
      assert AfterRestoreVersion(s, i, v).(entries := s.entries) == AfterSnapshot(s, i);
    }
  }

  lemma PurgeOffers(s: State, ids: set<Id>)
    ensures Offered(s, ids, PurgeKeys(s, ids))
  {
  }

  lemma PurgedTables(s: State, i: Id, order: seq<Id>, ids: set<Id>)
    requires ids == PurgeTargets(s, i) != {} && Enumerates(order, ids)
    ensures var t := AfterPurge(s, i, order);
      && (forall k :: k in t.versions <==> k in s.versions && k.0 !in ids)
      && (forall k :: k in t.versions ==> t.versions[k] == s.versions[k])
      && t.sessions.Keys == s.sessions.Keys
      && (forall j :: j in s.sessions ==>
            t.sessions[j] == if s.sessions[j].parent.Some? && s.sessions[j].parent.value in ids
                             then s.sessions[j].(parent := None) else s.sessions[j])
  {
  }

  lemma PurgedBytes(s: State, i: Id, order: seq<Id>, ids: set<Id>)
    requires ids == PurgeTargets(s, i) != {} && Enumerates(order, ids)
    ensures AfterPurge(s, i, order).used == AtLeastZero(s.used - Sum(SizesOf(s.entries, ids)))
  {
    assert FileSizes(s.entries, ids) == SizesOf(s.entries, ids);
  }

  lemma PurgedLog(s: State, i: Id, order: seq<Id>, ids: set<Id>)
    requires ids == PurgeTargets(s, i) != {} && Enumerates(order, ids) && ids <= s.entries.Keys
    ensures Logged(s.log, AfterPurge(s, i, order).log, Purged, order, s.entries)
  {
    RowsLogged(s.log, Purged, order, s.entries);
  }

  lemma PurgedEntries(s: State, i: Id, order: seq<Id>, ids: set<Id>)
    requires TreeOk(s) && ids == PurgeTargets(s, i) != {} && Enumerates(order, ids)
    ensures AfterPurge(s, i, order).entries == s.entries - ids
  {
    PurgeLeavesNoOrphan(s, i, order);
  }

  lemma PurgeRowsEffect(s: State, i: Id, order: seq<Id>, ids: set<Id>)
    requires TreeOk(s) && ids == PurgeTargets(s, i) != {} && Enumerates(order, ids) && ids <= s.entries.Keys
    ensures RowsPurged(s, AfterPurge(s, i, order), order, ids)
  {
    PurgedEntries(s, i, order, ids);
    PurgedTables(s, i, order, ids);
    PurgedBytes(s, i, order, ids);
    PurgedLog(s, i, order, ids);
  }

  lemma OtherDisk(s: State, t: State, u: State, order: seq<Id>, ids: set<Id>)
    requires RowsPurged(s, t, order, ids) && u == t.(disk := u.disk)
    ensures RowsPurged(s, u, order, ids)
  {
  }

  lemma PurgeEffect(s: State, i: Id, order: seq<Id>)
    requires TreeOk(s)
    requires i in TrashedIds(s.entries) ==> Enumerates(order, Subtree(s.entries, s.entries.Keys, i))
    ensures var ok := i in s.entries && !s.entries[i].live;
      var t := if ok then AfterCollect(AfterPurge(s, i, order), PurgeKeys(s, PurgeTargets(s, i))) else s;
      SubtreePurged(s, t, i, order, ok)
  {
    if i in TrashedIds(s.entries) {
      var ids := PurgeTargets(s, i);
      SubtreeClosed(s.entries, s.entries.Keys, i);
      assert i in ids;
      PurgeRowsEffect(s, i, order, ids);
      PurgeOffers(s, ids);
      var u := AfterPurge(s, i, order);
      var t := AfterCollect(u, PurgeKeys(s, ids));
      OtherDisk(s, u, t, order, ids);
      CollectEffect(u, PurgeKeys(s, ids));
      SameUse(u, t, s.disk, t.disk, PurgeKeys(s, ids));
    }
  }

  // ---------------------------------------------------------------- chunks

  lemma ResizeKeeps(b: Bytes, n: nat)
    ensures |Resize(b, n)| == n && Keeps(Resize(b, n), b, n)
  {
  }

  lemma StoredEffect(s: State, sid: Id, offset: nat, length: nat, body: Bytes, fault: Fault)
    requires sid in s.sessions
    ensures var (t, reply) := Stored(s, sid, offset, length, body, fault);
      var key, base := TempKey(sid), if TempKey(sid) in s.disk then s.disk[TempKey(sid)] else [];
      && (reply.Accepted? <==> |body| == length && fault == NoFault)
      && !reply.Conflict? && (reply.NoReply? <==> fault.Crash?)
      && key in t.disk && base <= t.disk[key]
      && (reply.Accepted? ==> reply.offset == offset + length && t.disk[key] == base + body
                              && t.sessions == s.sessions[sid := s.sessions[sid].(received := offset + length)])
      && (!reply.Accepted? ==> t.sessions == s.sessions)
      && (forall k :: k != key ==> (k in t.disk <==> k in s.disk) && (k in s.disk ==> t.disk[k] == s.disk[k]))
      && t == s.(sessions := t.sessions, disk := t.disk)
  {
  }

  lemma RepairEffect(s: State, sid: Id)
    requires sid in s.sessions && (TempKey(sid) !in s.disk ==> s.sessions[sid].received == 0)
    ensures var d, key := Repaired(s, sid), TempKey(sid);
      && (key in d <==> key in s.disk)
      && (key in d ==> |d[key]| == s.sessions[sid].received && Keeps(d[key], s.disk[key], s.sessions[sid].received))
      && (forall k :: k != key ==> (k in d <==> k in s.disk) && (k in s.disk ==> d[k] == s.disk[k]))
  {
    if TempKey(sid) in s.disk { ResizeKeeps(s.disk[TempKey(sid)], s.sessions[sid].received); }
  }

  lemma KeepsMore(longer: Bytes, base: Bytes, was: Bytes, n: nat)
    requires base <= longer && Keeps(base, was, n)
    ensures Keeps(longer, was, n)
  {
  }

  lemma AppendEffect(s: State, sid: Id, now: int, offset: int, length: int, body: Bytes, fault: Fault)
    ensures var (t, reply) := Appended(s, sid, now, offset, length, body, fault);
      ChunkTaken(s, t, sid, now, offset, length, body, fault, reply)
  {
    assert ChunkAllowed(s, sid, now, offset, length) <==> ChunkAdmissible(s, sid, now, offset, length);
    if ChunkAdmissible(s, sid, now, offset, length) {
      RepairEffect(s, sid);
      var u, r := s.sessions[sid], s.(disk := Repaired(s, sid));
      if offset == u.received && offset + length <= u.expected {
        StoredEffect(r, sid, offset, length, body, fault);
        AppendStores(s, r, sid, now, offset, length, body, fault);
      }
    }
  }

  lemma AppendStores(s: State, r: State, sid: Id, now: int, offset: nat, length: nat, body: Bytes, fault: Fault)
    requires ChunkAtOffset(s, sid, now, offset, length) && r == s.(disk := Repaired(s, sid))
    requires Appended(s, sid, now, offset, length, body, fault) == Stored(r, sid, offset, length, body, fault)
    ensures var (t, reply) := Appended(s, sid, now, offset, length, body, fault);
      ChunkTaken(s, t, sid, now, offset, length, body, fault, reply)
  {
    RepairEffect(s, sid);
    StoredEffect(r, sid, offset, length, body, fault);
    var t, key := Stored(r, sid, offset, length, body, fault).0, TempKey(sid);
    if key in s.disk { KeepsMore(t.disk[key], r.disk[key], s.disk[key], offset); }
  }

  // ---------------------------------------------------------------- completion

  lemma CompleteExact(s: State, sid: Id, digest: string)
    ensures CanComplete(s, sid, digest) <==> Complete(s, sid, digest)
  {
  }

  lemma LastExact(s: State, sid: Id)
    requires sid in s.sessions
    ensures var u := s.sessions[sid].(status := Completed);
      HasOpen(s.sessions[sid := u], u.batch)
      <==> !(forall j :: j in s.sessions && j != sid && s.sessions[j].batch == u.batch ==> s.sessions[j].status != Open)
  {
    var u := s.sessions[sid].(status := Completed);
    if j :| j in s.sessions && j != sid && s.sessions[j].batch == u.batch && s.sessions[j].status == Open {
      assert j in s.sessions[sid := u];
    }
  }

  lemma FailedEffect(s: State, sid: Id, digest: string, fault: Fault)
    requires CanComplete(s, sid, digest) && !Completes(s, sid, digest, fault)
    ensures var t := AfterComplete(s, sid, digest, fault);
      t == s.(next := t.next, disk := t.disk) && FileMoved(s.disk, t.disk, TempKey(sid), BlobKey(s.next), fault.Crash?)
  {
  }

  lemma NameDecides(s: State, sid: Id, digest: string)
    requires TreeOk(s) && CanComplete(s, sid, digest)
    ensures Completes(s, sid, digest, NoFault) <==>
      (s.sessions[sid].target.None? ==> NameFree(s.entries, s.sessions[sid].parent, s.sessions[sid].name, s.next + 1))
  {
    var i, e := CompletedId(s, sid), CompletedEntry(s, sid, digest);
    AdmittedWhenFree(s.entries, i, e);
    if s.sessions[sid].target.Some? { SameNames(s.entries, s.entries[i := e]); }
  }

  lemma CompletedRows(s: State, sid: Id, digest: string)
    requires TreeOk(s) && Completes(s, sid, digest, NoFault)
    ensures var t, i := AfterComplete(s, sid, digest, NoFault), CompletedId(s, sid);
      && CompletedRow(s, s.sessions[sid], digest, i, BlobKey(s.next), t.entries)
      && (if s.sessions[sid].target.Some? && i in s.entries then Filed(s.versions, t.versions, i, s.entries[i])
          else t.versions == s.versions)
      && Logged(s.log, t.log, Upsert, [i], t.entries)
      && t.cfg == s.cfg && t.quota == s.quota && t.root == s.root
  {
    var i, e := CompletedId(s, sid), CompletedEntry(s, sid, digest);
    OneLogged(s.log, Upsert, i, s.entries[i := e]);
  }

  lemma CompletedBytes(s: State, sid: Id, digest: string)
    requires Completes(s, sid, digest, NoFault)
    ensures var t := AfterComplete(s, sid, digest, NoFault);
      CompletedLedger(s, t, sid) && FileMoved(s.disk, t.disk, TempKey(sid), BlobKey(s.next), true)
  {
    LastExact(s, sid);
  }

  lemma CompleteEffect(s: State, sid: Id, digest: string, fault: Fault)
    requires TreeOk(s)
    ensures FileCompleted(s, AfterComplete(s, sid, digest, fault), sid, digest, fault,
                          if Completes(s, sid, digest, fault) then Some(CompletedId(s, sid)) else None)
  {
    CompleteExact(s, sid, digest);
    if CanComplete(s, sid, digest) {
      NameDecides(s, sid, digest);
      if Completes(s, sid, digest, fault) {
        CompletedRows(s, sid, digest);
        CompletedBytes(s, sid, digest);
      } else {
        FailedEffect(s, sid, digest, fault);
      }
    }
  }

  lemma CloseEffect(s: State, b: Id, batchStatus: BatchStatus, sessionStatus: SessionStatus)
    requires b in s.batches
    ensures BatchClosed(s, Closed(s, b, batchStatus, sessionStatus), b, batchStatus, sessionStatus)
  {
  }

  // ---------------------------------------------------------------- direct uploads

  lemma NamedExact(es: Entries, p: Id, name: string)
    ensures FindChild(es, p, name, File).Some? <==> FileNamed(es, p, name)
  {
    forall i ensures ChildNamed(es, i, p, name, File) <==> Child(es, i, p, name, File) {}
  }

  /** Where the search from an attempt on ends. */
  lemma {:induction false} SettleExact(es: Entries, p: Id, base: string, mode: Mode, attempt: nat)
    requires attempt > 0 ==> mode == Rename
    requires forall a: nat :: a < attempt ==> FileNamed(es, p, Tried(base, a))
    ensures var r := Settle(es, p, base, mode, attempt);
      && (r.Some? ==> exists a: nat :: SettlesAt(es, p, base, mode, a) && r.value.0 == Tried(base, a)
                        && (r.value.1.Some? <==> FileNamed(es, p, Tried(base, a)))
                        && (r.value.1.Some? ==> Child(es, r.value.1.value, p, r.value.0, File)))
      && (r.None? ==> forall a: nat :: !SettlesAt(es, p, base, mode, a))
    decreases ATTEMPTS - attempt
  {
    if attempt < ATTEMPTS {
      var name := Tried(base, attempt);
      NamedExact(es, p, name);
      if FindChild(es, p, name, File).None? {
        assert SettlesAt(es, p, base, mode, attempt);
      } else if mode == Overwrite {
        assert SettlesAt(es, p, base, mode, attempt);
      } else if mode == Rename {
        SettleExact(es, p, base, mode, attempt + 1);
      } else {
        assert attempt == 0;
        forall a: nat ensures !SettlesAt(es, p, base, mode, a) { assert FileNamed(es, p, Tried(base, 0)); }
      }
    } else {
      forall a: nat ensures !SettlesAt(es, p, base, mode, a) {
        if a < attempt { assert FileNamed(es, p, Tried(base, a)); }
      }
    }
  }

  lemma SettlesOnce(es: Entries, p: Id, base: string, mode: Mode, a: nat, b: nat)
    requires SettlesAt(es, p, base, mode, a) && SettlesAt(es, p, base, mode, b)
    ensures a == b
  {
    assert FileNamed(es, p, Tried(base, a)) || b <= a;
    assert FileNamed(es, p, Tried(base, b)) || a <= b;
  }

  lemma InsertEffect(s: State, p: Id, name: string, data: Bytes)
    requires TreeOk(s) && !FileNamed(s.entries, p, name)
    ensures var t := AfterInsert(s, p, name, data);
      && (t != s <==> NameFree(s.entries, Some(p), name, s.next + 1))
      && (t != s ==> UploadFiled(s, t, p, name, data, s.next + 1))
  {
    var e := Entry(Some(p), name, File, BlobKey(s.next), |data|, 1, "", true);
    AdmittedWhenFree(s.entries, s.next + 1, e);
    OneLogged(s.log, Upsert, s.next + 1, s.entries[s.next + 1 := e]);
    assert AfterInsert(s, p, name, data) != s ==> AfterInsert(s, p, name, data).next == s.next + 2;
  }

  lemma OverwriteEffect(s: State, p: Id, name: string, i: Id, data: Bytes)
    requires Minted(s) && Child(s.entries, i, p, name, File)
    ensures UploadFiled(s, AfterOverwrite(s, i, data), p, name, data, i)
  {
    var t := AfterOverwrite(s, i, data);
    OneLogged(s.log, Upsert, i, t.entries);
    assert t.entries[i].key == BlobKey(s.next) != s.entries[i].key;
    assert FileNamed(s.entries, p, name);
  }

  ghost function UploadId(s: State, p: Id, raw: string, data: Bytes, mode: Mode): Option<Id> {
    match Settle(s.entries, p, Sanitize(raw), mode, 0)
    case None => None
    case Some((_, found)) =>
      if AfterUpload(s, p, raw, data, mode) == s then None else if found.Some? then found else Some(s.next + 1)
  }

  lemma UploadEffect(s: State, p: Id, raw: string, data: Bytes, mode: Mode)
    requires TreeOk(s) && Minted(s)
    ensures FileUploaded(s, AfterUpload(s, p, raw, data, mode), p, raw, data, mode, UploadId(s, p, raw, data, mode))
  {
    if UploadAdmitted(s, p, Sanitize(raw), data) {
      var base := Sanitize(raw);
      SettleExact(s.entries, p, base, mode, 0);
      match Settle(s.entries, p, base, mode, 0)
      case None =>
      case Some((name, found)) => SettledEffect(s, p, raw, data, mode, name, found);
    }
  }

  lemma SettledEffect(s: State, p: Id, raw: string, data: Bytes, mode: Mode, name: string, found: Option<Id>)
    requires TreeOk(s) && Minted(s) && UploadAdmitted(s, p, Sanitize(raw), data)
    requires Settle(s.entries, p, Sanitize(raw), mode, 0) == Some((name, found))
    ensures FileUploaded(s, AfterUpload(s, p, raw, data, mode), p, raw, data, mode, UploadId(s, p, raw, data, mode))
  {
    var base := Sanitize(raw);
    SettleExact(s.entries, p, base, mode, 0);
    var a: nat :| SettlesAt(s.entries, p, base, mode, a) && name == Tried(base, a)
                  && (found.Some? <==> FileNamed(s.entries, p, Tried(base, a)))
                  && (found.Some? ==> Child(s.entries, found.value, p, name, File));
    forall b: nat | SettlesAt(s.entries, p, base, mode, b) ensures b == a { SettlesOnce(s.entries, p, base, mode, a, b); }
    if found.Some? {
      OverwriteEffect(s, p, name, found.value, data);
      OverwroteAt(s, p, raw, data, mode, a, found.value);
    } else {
      InsertEffect(s, p, name, data);
      InsertedAt(s, p, raw, data, mode, a);
    }
  }

  lemma OverwroteAt(s: State, p: Id, raw: string, data: Bytes, mode: Mode, a: nat, i: Id)
    requires UploadAllowed(s, p, raw, data) && SettlesAt(s.entries, p, Sanitize(raw), mode, a) && i in s.entries
    requires FileNamed(s.entries, p, Tried(Sanitize(raw), a))
    requires UploadFiled(s, AfterOverwrite(s, i, data), p, Tried(Sanitize(raw), a), data, i)
    ensures FileUploaded(s, AfterOverwrite(s, i, data), p, raw, data, mode, Some(i))
  {
  }

  lemma InsertedAt(s: State, p: Id, raw: string, data: Bytes, mode: Mode, a: nat)
    requires UploadAllowed(s, p, raw, data) && SettlesAt(s.entries, p, Sanitize(raw), mode, a)
    requires !FileNamed(s.entries, p, Tried(Sanitize(raw), a))
    requires forall b: nat | SettlesAt(s.entries, p, Sanitize(raw), mode, b) :: b == a
    requires var t := AfterInsert(s, p, Tried(Sanitize(raw), a), data);
      && (t != s <==> NameFree(s.entries, Some(p), Tried(Sanitize(raw), a), s.next + 1))
      && (t != s ==> UploadFiled(s, t, p, Tried(Sanitize(raw), a), data, s.next + 1))
    ensures var t := AfterInsert(s, p, Tried(Sanitize(raw), a), data);
      FileUploaded(s, t, p, raw, data, mode, if t == s then None else Some(s.next + 1))
  {
  }
}
