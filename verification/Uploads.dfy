/** Resumable uploads: whatever the network and crashes do, a completed file is the client's file. */
module Uploads {
  import opened Names
  import opened Model
  import opened FolderTree
  import opened Ledger

  /** The file each session is meant to transfer. */
  type Sources = Id -> Bytes

  /**
   * received_bytes never overstates what the temporary file holds of the source. The file may hold
   * more, left by a crash; it is missing only after a completion that failed, which needs all bytes.
   */
  ghost predicate SessionOk(s: State, src: Sources, i: Id)
    requires i in s.sessions
  {
    var u, k := s.sessions[i], TempKey(i);
    u.status == Open ==>
      u.received <= u.expected && |src(i)| == u.expected
      && (k in s.disk ==> u.received <= |s.disk[k]| && s.disk[k][..u.received] == src(i)[..u.received])
      && (k !in s.disk ==> u.received == u.expected)
  }

  /** No entry or version row names a temporary file. */
  ghost predicate KeysOk(s: State) {
    (forall i :: i in s.entries ==> !s.entries[i].key.TempKey?)
    && (forall k :: k in s.versions ==> !s.versions[k].key.TempKey?)
  }

  ghost predicate UploadsOk(s: State, src: Sources) {
    KeysOk(s) && forall i {:trigger SessionOk(s, src, i)} :: i in s.sessions ==> SessionOk(s, src, i)
  }

  /**
   * Honest traffic: a chunk is cut from the session's source at its own offset, its body possibly cut
   * short on the way, and a batch announces the true sizes. Any chunk may come at any time, any number
   * of times, so loss, duplication, delay and reordering are all runs of honest steps.
   */
  ghost predicate Honest(s: State, src: Sources, step: Step) {
    match step
    case AppendChunk(sid, now, offset, length, body, fault) =>
      0 <= offset && 0 <= length && offset + length <= |src(sid)| ==> body <= src(sid)[offset..offset + length]
    case CreateBatch(into, files, expires) =>
      var t := Apply(s, step);
      forall i :: i in t.sessions && i !in s.sessions ==> |src(i)| == t.sessions[i].expected
    case _ => true
  }

  // ---------------------------------------------------------------- chunks

  lemma RepairKeeps(s: State, src: Sources, sid: Id)
    requires UploadsOk(s, src) && sid in s.sessions && s.sessions[sid].status == Open && TempKey(sid) in s.disk
    ensures s.sessions[sid].received <= |src(sid)|
    ensures Repaired(s, sid)[TempKey(sid)] == src(sid)[..s.sessions[sid].received]
  {
    assert SessionOk(s, src, sid);
  }

  /** The chunk protocol on one session: what each reply means for the two records of progress. */
  lemma ChunkOutcome(s: State, src: Sources, sid: Id, now: int, offset: int, length: int, body: Bytes, fault: Fault)
    requires UploadsOk(s, src) && Honest(s, src, AppendChunk(sid, now, offset, length, body, fault))
    requires ChunkAdmissible(s, sid, now, offset, length)
    ensures var (t, reply) := Appended(s, sid, now, offset, length, body, fault);
            sid in t.sessions && SessionOk(t, src, sid)
            && match reply
               case Accepted(n) => offset == s.sessions[sid].received && n == offset + length
                                   && t.sessions[sid] == s.sessions[sid].(received := n)
                                   && TempKey(sid) in t.disk && t.disk[TempKey(sid)] == src(sid)[..n]
               case Conflict(n) => n == s.sessions[sid].received != offset && t.sessions == s.sessions
               case _ => t.sessions == s.sessions
  {
    var k, u, d := TempKey(sid), s.sessions[sid], Repaired(s, sid);
    assert SessionOk(s, src, sid);
    var base := if k in d then d[k] else [];
    if k in s.disk { RepairKeeps(s, src, sid); }
    assert base == src(sid)[..u.received];
    if offset == u.received && offset + length <= u.expected {
      var w := Limit(body, length + 1);
      assert (base + Limit(w, if fault.Crash? then fault.written else 0))[..u.received] == base;
      if |w| == length {
        assert w == body == src(sid)[offset..offset + length];
        assert base + w == src(sid)[..offset + length];
      }
    }
  }

  lemma AppendKeepsUploads(s: State, src: Sources, sid: Id, now: int, offset: int, length: int, body: Bytes, fault: Fault)
    requires UploadsOk(s, src) && Honest(s, src, AppendChunk(sid, now, offset, length, body, fault))
    ensures UploadsOk(Appended(s, sid, now, offset, length, body, fault).0, src)
  {
    var t := Appended(s, sid, now, offset, length, body, fault).0;
    if ChunkAdmissible(s, sid, now, offset, length) {
      ChunkOutcome(s, src, sid, now, offset, length, body, fault);
      OtherTemps(s, sid, now, offset, length, body, fault);
      forall i | i in t.sessions ensures SessionOk(t, src, i) {
        if i != sid { assert SessionOk(s, src, i); }
      }
    }
  }

  /** A chunk touches one row and one file. */
  lemma OtherTemps(s: State, sid: Id, now: int, offset: int, length: int, body: Bytes, fault: Fault)
    ensures var t := Appended(s, sid, now, offset, length, body, fault).0;
            t.sessions.Keys == s.sessions.Keys && t.entries == s.entries && t.versions == s.versions
            && (forall i :: i in s.sessions && i != sid ==> t.sessions[i] == s.sessions[i])
            && (forall k :: k != TempKey(sid) ==> (k in t.disk <==> k in s.disk) && (k in s.disk ==> t.disk[k] == s.disk[k]))
  {
    if ChunkAdmissible(s, sid, now, offset, length) {
      var u, t := s.sessions[sid], s.(disk := Repaired(s, sid));
      if offset == u.received && offset + length <= u.expected { StoredElsewhere(t, sid, offset, length, body, fault); }
    }
  }

  lemma StoredElsewhere(s: State, sid: Id, offset: nat, length: nat, body: Bytes, fault: Fault)
    requires sid in s.sessions
    ensures var t := Stored(s, sid, offset, length, body, fault).0;
            t.sessions == s.sessions[sid := t.sessions[sid]] && t == s.(sessions := t.sessions, disk := t.disk)
            && (forall k :: k != TempKey(sid) ==> (k in t.disk <==> k in s.disk) && (k in s.disk ==> t.disk[k] == s.disk[k]))
  {
  }

  // ---------------------------------------------------------------- the other steps

  /** Sessions may close, and only closed ones may lose their temporary file. */
  lemma KeepUploads(s: State, t: State, src: Sources)
    requires UploadsOk(s, src) && KeysOk(t)
    requires forall i :: i in t.sessions && t.sessions[i].status == Open ==>
               i in s.sessions && s.sessions[i].status == Open
               && t.sessions[i].expected == s.sessions[i].expected && t.sessions[i].received == s.sessions[i].received
               && (TempKey(i) in t.disk <==> TempKey(i) in s.disk)
               && (TempKey(i) in s.disk ==> t.disk[TempKey(i)] == s.disk[TempKey(i)])
    ensures UploadsOk(t, src)
  {
    forall i | i in t.sessions ensures SessionOk(t, src, i) {
      if t.sessions[i].status == Open { assert SessionOk(s, src, i); }
    }
  }

  lemma CollectKeepsUploads(s: State, src: Sources, keys: set<Key>)
    requires UploadsOk(s, src)
    ensures UploadsOk(AfterCollect(s, keys), src)
  {
    forall i | i in s.sessions && s.sessions[i].status == Open ensures Referenced(s, TempKey(i)) {}
    KeepUploads(s, AfterCollect(s, keys), src);
  }

  lemma PruneKeepsUploads(s: State, src: Sources, i: Id, keep: nat)
    requires UploadsOk(s, src)
    ensures UploadsOk(AfterPrune(s, i, keep), src)
  {
    var gone := Doomed(s.versions, i, keep);
    var t := s.(versions := s.versions - gone);
    KeepUploads(s, t, src);
    CollectKeepsUploads(t, src, set k | k in gone && k in s.versions :: s.versions[k].key);
  }

  lemma SnapshotKeepsUploads(s: State, src: Sources, i: Id)
    requires UploadsOk(s, src)
    ensures UploadsOk(AfterSnapshot(s, i), src)
    ensures AfterSnapshot(s, i).sessions == s.sessions
  {
    if i in s.entries && s.entries[i].kind == File && s.entries[i].key != NoKey {
      var t := s.(versions := WithVersion(s.versions, i, s.entries[i]));
      KeepUploads(s, t, src);
      PruneKeepsUploads(t, src, i, KEEP);
    }
  }

  lemma RestoreVersionKeepsUploads(s: State, src: Sources, i: Id, v: nat)
    requires UploadsOk(s, src)
    ensures UploadsOk(AfterRestoreVersion(s, i, v), src)
  {
    SnapshotKeepsUploads(s, src, i);
    SnapshotSameForest(s, i);
    KeepUploads(AfterSnapshot(s, i), AfterRestoreVersion(s, i, v), src);
  }

  lemma CompleteKeepsUploads(s: State, src: Sources, sid: Id, digest: string, fault: Fault)
    requires UploadsOk(s, src)
    ensures UploadsOk(AfterComplete(s, sid, digest, fault), src)
  {
    var t := AfterComplete(s, sid, digest, fault);
    if CanComplete(s, sid, digest) {
      assert KeysOk(t);
      forall i | i in t.sessions ensures SessionOk(t, src, i) { assert SessionOk(s, src, i); }
    }
  }

  lemma ClosedKeepsUploads(s: State, src: Sources, b: Id, bst: BatchStatus, sst: SessionStatus)
    requires UploadsOk(s, src) && b in s.batches && sst != Open
    ensures UploadsOk(Closed(s, b, bst, sst), src)
  {
    KeepUploads(s, Closed(s, b, bst, sst), src);
  }

  lemma CloseKeepsUploads(s: State, src: Sources, b: Id, now: int)
    requires UploadsOk(s, src)
    ensures UploadsOk(AfterAbort(s, b), src) && UploadsOk(AfterExpire(s, b, now), src)
  {
    if b in s.batches {
      ClosedKeepsUploads(s, src, b, BatchAborted, Aborted);
      ClosedKeepsUploads(s, src, b, BatchExpired, Expired);
    }
  }

  lemma InsertKeepsUploads(s: State, src: Sources, p: Id, name: string, data: Bytes)
    requires UploadsOk(s, src)
    ensures UploadsOk(AfterInsert(s, p, name, data), src)
  {
    KeepUploads(s, AfterInsert(s, p, name, data), src);
  }

  lemma OverwriteKeepsUploads(s: State, src: Sources, i: Id, data: Bytes)
    requires UploadsOk(s, src) && i in s.entries
    ensures UploadsOk(AfterOverwrite(s, i, data), src)
  {
    KeepUploads(s, AfterOverwrite(s, i, data), src);
  }

  lemma UploadKeepsUploads(s: State, src: Sources, p: Id, name: string, data: Bytes, mode: Mode)
    requires UploadsOk(s, src)
    ensures UploadsOk(AfterUpload(s, p, name, data, mode), src)
  {
    if UploadAdmitted(s, p, Sanitize(name), data) {
      match Settle(s.entries, p, Sanitize(name), mode, 0)
      case None =>
      case Some((chosen, None)) => InsertKeepsUploads(s, src, p, chosen, data);
      case Some((_, Some(i))) => if i in s.entries { OverwriteKeepsUploads(s, src, i, data); }
    }
  }

  lemma PurgeKeepsUploads(s: State, src: Sources, i: Id, order: seq<Id>)
    requires UploadsOk(s, src)
    ensures UploadsOk(AfterPurge(s, i, order), src)
  {
    KeepUploads(s, AfterPurge(s, i, order), src);
  }

  lemma SameUploads(s: State, t: State, src: Sources)
    requires UploadsOk(s, src) && KeysOk(t) && t.sessions == s.sessions && t.disk == s.disk
    ensures UploadsOk(t, src)
  {
    KeepUploads(s, t, src);
  }

  lemma CreateFolderKeepsUploads(s: State, src: Sources, p: Id, name: string)
    requires UploadsOk(s, src)
    ensures UploadsOk(AfterCreateFolder(s, p, name), src)
  {
    var t := AfterCreateFolder(s, p, name);
    if t != s { SameUploads(s, t, src); }
  }

  lemma MoveKeepsUploads(s: State, src: Sources, i: Id, p: Id)
    requires UploadsOk(s, src)
    ensures UploadsOk(AfterMove(s, i, p), src)
  {
    var t := AfterMove(s, i, p);
    if t != s { SameUploads(s, t, src); }
  }

  lemma RenameKeepsUploads(s: State, src: Sources, i: Id, name: string)
    requires UploadsOk(s, src)
    ensures UploadsOk(AfterRename(s, i, name), src)
  {
    var t := AfterRename(s, i, name);
    if t != s { SameUploads(s, t, src); }
  }

  lemma DeleteKeepsUploads(s: State, src: Sources, i: Id, order: seq<Id>)
    requires UploadsOk(s, src)
    ensures UploadsOk(AfterDelete(s, i, order), src)
  {
    var t := AfterDelete(s, i, order);
    if t != s { SameUploads(s, t, src); }
  }

  lemma RestoreKeepsUploads(s: State, src: Sources, i: Id, order: seq<Id>)
    requires UploadsOk(s, src)
    ensures UploadsOk(AfterRestore(s, i, order), src)
  {
    var t := AfterRestore(s, i, order);
    if t != s { SameUploads(s, t, src); }
  }

  lemma GrownKeys(s: State, es: Entries, next: Id)
    requires KeysOk(s) && Grown(s.entries, s.next, es, next)
    ensures KeysOk(s.(entries := es))
  {
  }

  lemma NewTempsOnly(d: Disk, b: Id, n: nat, k: Key)
    ensures var e := d + NewTemps(b, n);
            if k.TempKey? && k.session in NewIds(b, n) then k in e && e[k] == []
            else (k in e <==> k in d) && (k in d ==> e[k] == d[k])
  {
  }

  /** A new batch adds rows and empty files under new identifiers and leaves the others alone. */
  lemma BatchRowsElsewhere(s: State, f: Forest, p: Id, files: seq<Manifest>, expires: int, i: Id)
    requires i <= f.next
    ensures var t := AfterBatchRows(s, f, p, files, expires);
            (i in t.sessions <==> i in s.sessions) && (i in s.sessions ==> t.sessions[i] == s.sessions[i])
            && (TempKey(i) in t.disk <==> TempKey(i) in s.disk)
            && (TempKey(i) in s.disk ==> t.disk[TempKey(i)] == s.disk[TempKey(i)])
  {
    NewSessionIds(f.entries, f.next, p, files);
    assert i !in NewIds(f.next, |files|);
    NewTempsOnly(s.disk, f.next, |files|, TempKey(i));
  }

  lemma BatchRowsFresh(s: State, src: Sources, f: Forest, p: Id, files: seq<Manifest>, expires: int, i: Id)
    requires i in NewIds(f.next, |files|)
    ensures var t := AfterBatchRows(s, f, p, files, expires);
            i in t.sessions && (|src(i)| == t.sessions[i].expected ==> SessionOk(t, src, i))
  {
    NewSessionIds(f.entries, f.next, p, files);
    assert InBlock(f.next, |files|, i);
    NewSessionRow(f.entries, f.next, p, files, i - f.next - 1);
    NewTempsOnly(s.disk, f.next, |files|, TempKey(i));
  }

  lemma NewSessionsOk(s: State, src: Sources, f: Forest, p: Id, files: seq<Manifest>, expires: int)
    requires UploadsOk(s, src) && ReserveOk(s) && Grown(s.entries, s.next, f.entries, f.next)
    requires var t := AfterBatchRows(s, f, p, files, expires);
             forall i :: i in t.sessions && i !in s.sessions ==> |src(i)| == t.sessions[i].expected
    ensures UploadsOk(AfterBatchRows(s, f, p, files, expires), src)
  {
    var t := AfterBatchRows(s, f, p, files, expires);
    GrownKeys(s, f.entries, f.next);
    NewSessionIds(f.entries, f.next, p, files);
    forall i | i in t.sessions ensures SessionOk(t, src, i) {
      if i in s.sessions {
        assert SessionOk(s, src, i);
        BatchRowsElsewhere(s, f, p, files, expires, i);
      } else {
        BatchRowsFresh(s, src, f, p, files, expires, i);
      }
    }
  }

  lemma CreateBatchKeepsUploads(s: State, src: Sources, parent: Option<Id>, files: seq<Manifest>, expires: int)
    requires TreeOk(s) && ReserveOk(s) && UploadsOk(s, src)
    requires Honest(s, src, CreateBatch(parent, files, expires))
    ensures UploadsOk(AfterCreateBatch(s, parent, files, expires), src)
  {
    var p := RootOr(s, parent);
    if BatchAdmitted(s, p, files) {
      BatchForest(s, parent, files);
      match WalkAll(Forest(s.entries, s.next), p, Dirs(files))
      case None =>
      case Some(f) => NewSessionsOk(s, src, f, p, files, expires);
    }
  }

  lemma StepKeepsUploads(s: State, src: Sources, step: Step)
    requires TreeOk(s) && ReserveOk(s) && UploadsOk(s, src) && Honest(s, src, step)
    ensures UploadsOk(Apply(s, step), src)
  {
    match step
    case CreateBatch(p, files, expires) => CreateBatchKeepsUploads(s, src, p, files, expires);
    case AppendChunk(sid, now, offset, length, body, fault) =>
      AppendKeepsUploads(s, src, sid, now, offset, length, body, fault);
    case CompleteFile(sid, digest, fault) => CompleteKeepsUploads(s, src, sid, digest, fault);
    case AbortBatch(b) => CloseKeepsUploads(s, src, b, 0);
    case ExpireBatch(b, now) => CloseKeepsUploads(s, src, b, now);
    case Upload(p, name, data, mode) => UploadKeepsUploads(s, src, p, name, data, mode);
    case Purge(i, order) => PurgeKeepsUploads(s, src, i, order);
    case PruneVersions(i, keep) => PruneKeepsUploads(s, src, i, keep);
    case Collect(keys) => CollectKeepsUploads(s, src, keys);
    case SnapshotVersion(i) => SnapshotKeepsUploads(s, src, i);
    case RestoreVersion(i, v) => RestoreVersionKeepsUploads(s, src, i, v);
    case CreateFolder(p, name) => CreateFolderKeepsUploads(s, src, p, name);
    case Move(i, p) => MoveKeepsUploads(s, src, i, p);
    case RenameTo(i, name) => RenameKeepsUploads(s, src, i, name);
    case Delete(i, order) => DeleteKeepsUploads(s, src, i, order);
    case Restore(i, order) => RestoreKeepsUploads(s, src, i, order);
  }

  // ---------------------------------------------------------------- runs

  ghost predicate HonestRun(s: State, src: Sources, steps: seq<Step>) {
    steps == [] ||
    var rest, last := steps[..|steps| - 1], steps[|steps| - 1];
    HonestRun(s, src, rest) && Honest(Run(s, rest), src, last)
  }

  lemma {:induction false} UploadsOverRuns(s: State, src: Sources, steps: seq<Step>)
    requires TreeOk(s) && ReserveOk(s) && UploadsOk(s, src) && HonestRun(s, src, steps)
    ensures UploadsOk(Run(s, steps), src)
    decreases |steps|
  {
    if steps != [] {
      var rest, last := steps[..|steps| - 1], steps[|steps| - 1];
      UploadsOverRuns(s, src, rest);
      TreeOverRuns(s, rest);
      ReserveOverRuns(s, rest);
      StepKeepsUploads(Run(s, rest), src, last);
    }
  }

  lemma CompleteDelivers(t: State, src: Sources, sid: Id, digest: string, fault: Fault)
    requires UploadsOk(t, src) && Completes(t, sid, digest, fault)
    ensures var u := AfterComplete(t, sid, digest, fault);
            var i := CompletedId(t, sid);
            i in u.entries && u.entries[i].key in u.disk && u.disk[u.entries[i].key] == src(sid)
            && u.entries[i].size == |src(sid)|
  {
    assert SessionOk(t, src, sid);
    assert t.disk[TempKey(sid)] == src(sid);
  }

  /**
   * End to end: after any honest run, if a completion succeeds, the entry's blob is the whole source,
   * byte for byte.
   */
  lemma CompletedIsSource(s: State, src: Sources, steps: seq<Step>, sid: Id, digest: string, fault: Fault)
    requires TreeOk(s) && ReserveOk(s) && UploadsOk(s, src) && HonestRun(s, src, steps)
    requires Completes(Run(s, steps), sid, digest, fault)
    ensures var t := Run(s, steps);
            var u := AfterComplete(t, sid, digest, fault);
            var i := CompletedId(t, sid);
            i in u.entries && u.entries[i].key in u.disk && u.disk[u.entries[i].key] == src(sid)
            && u.entries[i].size == |src(sid)|
  {
    UploadsOverRuns(s, src, steps);
    CompleteDelivers(Run(s, steps), src, sid, digest, fault);
  }

  lemma InitUploads(cfg: Config, quota: nat, src: Sources)
    ensures UploadsOk(Init(cfg, quota), src)
  {
  }
}
