/**
 * The services as they run: one object holding the tables of a user's drive and its blob directory.
 * Each method is proved to take exactly the step that the state machine of Model describes.
 */
module Server {
  import opened Names
  import opened Sums
  import opened Model
  import opened Manifests
  import opened FolderTree
  import opened Queries
  import opened FolderPath
  import opened Storage
  import opened Minting
  import opened Effects
  import opened EffectProofs
  import opened BatchProofs

  function Members(ids: seq<Id>): set<Id> {
    set i | i in ids
  }

  class Service {
    const cfg: Config
    const quota: int
    const root: Id
    const disk: LocalDisk
    var next: Id
    var entries: Entries
    var versions: Versions
    var log: seq<Change>
    var used: int
    var reserved: int
    var batches: map<Id, Batch>
    var sessions: map<Id, Session>

    ghost function Snap(): State
      reads this, disk
    {
      State(cfg, quota, root, next, entries, versions, log, used, reserved, batches, sessions, disk.files)
    }

    ghost predicate Valid()
      reads this, disk
    {
      TreeOk(Snap()) && Minted(Snap())
    }

    /** Registration: an empty drive with its root folder. */
    constructor Register(cfg: Config, quota: nat)
      ensures Valid() && fresh(disk) && Snap() == Init(cfg, quota)
      ensures entries == map[root := Entry(None, "/", Folder, FolderKey(root), 0, 1, "", true)]
      ensures versions == map[] && log == [] && used == 0 && reserved == 0 && batches == map[] && sessions == map[]
    {
      this.cfg, this.quota, this.root := cfg, quota, 0;
      disk := new LocalDisk();
      next, entries := 1, map[0 := Entry(None, "/", Folder, FolderKey(0), 0, 1, "", true)];
      versions, log, used, reserved, batches, sessions := map[], [], 0, 0, map[], map[];
      new;
      InitTree(cfg, quota);
    }

    // -------------------------------------------------------------- folder tree

    method CreateFolder(p: Id, rawName: string) returns (id: Option<Id>)
      requires Valid()
      modifies this
      ensures Valid() && Snap() == AfterCreateFolder(old(Snap()), p, rawName)
      ensures FolderMade(old(Snap()), Snap(), p, rawName, id)
    {
      CreateFolderKeeps(Snap(), p, rawName);
      CreateFolderMints(Snap(), p, rawName);
      CreateFolderEffect(Snap(), p, rawName);
      var name := Sanitize(rawName);
      if name == "" || !LiveFolder(entries, p) { return None; }
      var e := Entry(Some(p), name, Folder, FolderKey(next), 0, 1, "", true);
      var es := entries[next := e];
      if !UniqueNames(es) { return None; }
      id := Some(next);
      log := log + [Change(Upsert, next, RowOf(e))];
      entries, next := es, next + 1;
    }

    method Move(i: Id, p: Id) returns (ok: bool)
      requires Valid()
      modifies this
      ensures Valid() && Snap() == AfterMove(old(Snap()), i, p)
      ensures EntryMoved(old(Snap()), Snap(), i, p, ok)
    {
      MoveMints(Snap(), i, p);
      MoveEffect(Snap(), i, p);
      if i in LiveIds(entries) {
        var descendants := RecursiveQuery(entries, LiveIds(entries), i);
        if p in descendants { return false; }
      }
      if !LiveFolder(entries, p) || i !in entries || !entries[i].live || i == root { return false; }
      var e := entries[i].(parent := Some(p), version := entries[i].version + 1);
      var es := entries[i := e];
      if !UniqueNames(es) { return false; }
      MoveKeeps(Snap(), i, p);
      entries := es;
      log := log + [Change(Moved, i, RowOf(e))];
      ok := true;
    }

    method Rename(i: Id, rawName: string) returns (ok: bool)
      requires Valid()
      modifies this
      ensures Valid() && Snap() == AfterRename(old(Snap()), i, rawName)
      ensures EntryRenamed(old(Snap()), Snap(), i, rawName, ok)
    {
      RenameKeeps(Snap(), i, rawName);
      RenameMints(Snap(), i, rawName);
      RenameEffect(Snap(), i, rawName);
      var name := Sanitize(rawName);
      if name == "" || i !in entries || !entries[i].live || i == root { return false; }
      var e := entries[i].(name := name, version := entries[i].version + 1);
      var es := entries[i := e];
      if !UniqueNames(es) { return false; }
      entries := es;
      log := log + [Change(Renamed, i, RowOf(e))];
      ok := true;
    }

    /** Appends one change per target, in the order the query returned them. */
    method LogTargets(op: Op, targets: seq<Id>, rows: Entries)
      requires forall i :: i in targets ==> i in rows
      modifies this`log
      ensures log == old(log) + ChangeRows(op, targets, rows)
      ensures Logged(old(log), log, op, targets, rows)
    {
      RowsLogged(log, op, targets, rows);
      var k := 0;
      assert targets[..0] == [] && log == old(log) + ChangeRows(op, targets[..0], rows);
      while k < |targets|
        invariant 0 <= k <= |targets|
        invariant forall i :: i in targets[..k] ==> i in targets
        invariant log == old(log) + ChangeRows(op, targets[..k], rows)
      {
        assert targets[..k + 1][..k] == targets[..k] && targets[k] in targets;
        log := log + [Change(op, targets[k], RowOf(rows[targets[k]]))];
        k := k + 1;
      }
      assert targets[..k] == targets;
    }

    /** The update and the log rows that Delete and Restore share. */
    method FlipTargets(op: Op, targets: seq<Id>, ids: set<Id>, live: bool)
      requires forall i :: i in targets ==> i in entries
      modifies this`entries, this`log
      ensures entries == Flip(old(entries), ids, live)
      ensures log == old(log) + ChangeRows(op, targets, entries)
    {
      entries := Flip(entries, ids, live);
      LogTargets(op, targets, entries);
    }

    method Delete(i: Id) returns (ok: bool, ghost order: seq<Id>)
      requires Valid()
      modifies this
      ensures Valid() && Snap() == AfterDelete(old(Snap()), i, order)
      ensures ok <==> TrashTargets(old(Snap()), i) != {}
      ensures ok ==> Enumerates(order, TrashTargets(old(Snap()), i))
      ensures SubtreeTrashed(old(Snap()), Snap(), i, order, ok)
    {
      if i !in LiveIds(entries) || i == root {
        DeleteEffect(Snap(), i, []);
        return false, [];
      }
      var targets := RecursiveQuery(entries, LiveIds(entries), i);
      order := targets;
      DeleteKeeps(Snap(), i, order);
      DeleteMints(Snap(), i, order);
      DeleteEffect(Snap(), i, order);
      DeleteOutcome(Snap(), i, order);
      CommitDelete(i, targets);
      ok := true;
    }

    /** Sets deleted_at on the rows found. */
    method CommitDelete(ghost i: Id, targets: seq<Id>)
      requires i in LiveIds(entries) && i != root && Enumerates(targets, Subtree(entries, LiveIds(entries), i))
      modifies this`entries, this`log
      ensures Snap() == AfterDelete(old(Snap()), i, targets)
    {
      DeleteOutcome(Snap(), i, targets);
      var ids := set x | x in targets;
      assert ids == TrashTargets(Snap(), i);
      FlipTargets(Trash, targets, ids, false);
    }

    method Restore(i: Id) returns (ok: bool, ghost order: seq<Id>)
      requires Valid()
      modifies this
      ensures Valid() && Snap() == AfterRestore(old(Snap()), i, order)
      ensures Enumerates(order, RestoreTargets(old(Snap()), i))
      ensures SubtreeRestored(old(Snap()), Snap(), i, order, ok)
    {
      if i !in TrashedIds(entries)
         || (entries[i].parent.Some? && entries[i].parent.value !in LiveIds(entries)) {
        NothingToRestore(Snap(), i);
        return false, [];
      }
      ghost var s := Snap();
      var targets := RecursiveQuery(entries, TrashedIds(entries), i);
      order := targets;
      RestoreKeeps(s, i, order);
      RestoreMints(s, i, order);
      RestoreEffect(s, i, order);
      RestoreOutcome(s, i, order);
      ok := CommitRestore(i, targets);
    }

    /** Clears deleted_at on the rows found, unless a name is taken. */
    method CommitRestore(ghost i: Id, targets: seq<Id>) returns (ok: bool)
      requires i in TrashedIds(entries) && (entries[i].parent.None? || entries[i].parent.value in LiveIds(entries))
      requires Enumerates(targets, Subtree(entries, TrashedIds(entries), i))
      modifies this`entries, this`log
      ensures Snap() == AfterRestore(old(Snap()), i, targets)
      ensures ok <==> Snap() != old(Snap())
    {
      ghost var s := Snap();
      RestoreOutcome(s, i, targets);
      var ids := set x | x in targets;
      assert ids == RestoreTargets(s, i);
      if !UniqueNames(Flip(entries, ids, true)) { return false; }
      FlipTargets(Restored, targets, ids, true);
      ok := true;
      var x :| x in ids;
      assert entries[x].version == s.entries[x].version + 1;
    }

    /** Collects the blob keys of the targets and the bytes to refund. */
    method PurgeTally(targets: seq<Id>) returns (keys: seq<Key>, bytes: int)
      requires forall i :: i in targets ==> i in entries
      ensures bytes == SeqSum(targets, FileSizes(entries, entries.Keys))
      ensures forall key :: key in keys <==> exists i :: i in targets && entries[i].kind == File && entries[i].key == key
    {
      keys, bytes := [], 0;
      var k := 0;
      while k < |targets|
        invariant 0 <= k <= |targets|
        invariant bytes == SeqSum(targets[..k], FileSizes(entries, entries.Keys))
        invariant forall key :: key in keys ==> exists i :: i in targets && entries[i].kind == File && entries[i].key == key
        invariant forall j :: 0 <= j < k && entries[targets[j]].kind == File ==> entries[targets[j]].key in keys
      {
        var t := targets[k];
        assert targets[..k + 1][..k] == targets[..k] && t in targets;
        if entries[t].kind == File {
          keys := keys + [entries[t].key];
          bytes := bytes + entries[t].size;
        }
        k := k + 1;
      }
      assert targets[..k] == targets;
    }

    method VersionKeys(rows: seq<(Id, nat)>) returns (keys: seq<Key>)
      requires forall r :: r in rows ==> r in versions
      ensures forall key :: key in keys <==> exists r :: r in rows && versions[r].key == key
    {
      keys := [];
      var k := 0;
      while k < |rows|
        invariant 0 <= k <= |rows|
        invariant forall key :: key in keys ==> exists r :: r in rows && versions[r].key == key
        invariant forall j :: 0 <= j < k ==> versions[rows[j]].key in keys
      {
        assert rows[k] in rows;
        keys := keys + [versions[rows[k]].key];
        k := k + 1;
      }
    }

    /** The rows of a purge: log, cascade, refund. */
    method PurgeRows(ghost i: Id, targets: seq<Id>, ids: set<Id>, bytes: int)
      requires ids == PurgeTargets(Snap(), i) != {} && Enumerates(targets, ids)
      requires bytes == Sum(FileSizes(entries, ids))
      modifies this
      ensures Snap() == AfterPurge(old(Snap()), i, targets)
    {
      PurgeOutcome(Snap(), i, targets, ids, bytes);
      LogTargets(Purged, targets, entries);
      sessions := Detach(sessions, ids);
      versions := WithoutVersions(versions, ids);
      entries := Without(entries, ids);
      used := Clamp(used - bytes);
    }

    method PurgeCandidates(targets: seq<Id>, ids: set<Id>) returns (keys: seq<Key>, bytes: int)
      requires Enumerates(targets, ids) && ids <= entries.Keys
      ensures (set k | k in keys) == PurgeKeys(Snap(), ids)
      ensures bytes == Sum(FileSizes(entries, ids))
    {
      keys, bytes := PurgeTally(targets);
      var rows := Listing(set k | k in versions && k.0 in ids);
      var more := VersionKeys(rows);
      PurgeTallied(entries, targets, ids);
      PurgeKeysListed(Snap(), targets, ids, keys, rows, more);
      keys := keys + more;
    }

    method Purge(i: Id) returns (ok: bool, ghost order: seq<Id>)
      requires Valid()
      modifies this, disk
      ensures Valid()
      ensures ok <==> PurgeTargets(old(Snap()), i) != {}
      ensures ok ==> Enumerates(order, PurgeTargets(old(Snap()), i))
      ensures Snap() == if !ok then old(Snap())
                        else AfterCollect(AfterPurge(old(Snap()), i, order), PurgeKeys(old(Snap()), PurgeTargets(old(Snap()), i)))
      ensures SubtreePurged(old(Snap()), Snap(), i, order, ok)
    {
      if i !in TrashedIds(entries) {
        PurgeEffect(Snap(), i, []);
        return false, [];
      }
      var targets := RecursiveQuery(entries, entries.Keys, i);
      order := targets;
      PurgeFacts(Snap(), i, order);
      PurgeFound(i, targets);
      ok := true;
    }

    /** The transaction on the rows found, then the blobs nobody else needs. */
    method PurgeFound(ghost i: Id, targets: seq<Id>)
      requires i in TrashedIds(entries) && Enumerates(targets, Subtree(entries, entries.Keys, i))
      modifies this, disk
      ensures Snap() == AfterCollect(AfterPurge(old(Snap()), i, targets), PurgeKeys(old(Snap()), PurgeTargets(old(Snap()), i)))
      ensures PurgeTargets(old(Snap()), i) != {}
    {
      SubtreeClosed(entries, entries.Keys, i);
      assert i in Subtree(entries, entries.Keys, i);
      var ids := set x | x in targets;
      assert ids == PurgeTargets(Snap(), i);
      var keys, bytes := PurgeCandidates(targets, ids);
      PurgeRows(i, targets, ids, bytes);
      DeleteUnreferenced(keys);
    }

    // -------------------------------------------------------------- versions and blobs

    /** Each candidate once: asks the tables, then removes the file. */
    method DeleteUnreferenced(keys: seq<Key>)
      modifies disk
      ensures Snap() == AfterCollect(old(Snap()), set k | k in keys)
      ensures BlobsCollected(old(Snap()), Snap(), set k | k in keys)
    {
      CollectEffect(Snap(), set k | k in keys);
      ghost var s := Snap();
      var seen: set<Key> := {};
      var n := 0;
      assert AfterCollect(s, seen).disk == disk.files;
      while n < |keys|
        invariant 0 <= n <= |keys|
        invariant seen == set k | k in keys[..n] && k != NoKey
        invariant disk.files == AfterCollect(s, seen).disk
      {
        var key := keys[n];
        assert keys[..n + 1] == keys[..n] + [key];
        n := n + 1;
        if key == NoKey || key in seen { continue; }
        CollectOne(s, seen, key);
        seen := seen + {key};
        assert Referenced(Snap(), key) == Referenced(s, key);
        if IsReferenced(key) { continue; }
        disk.Delete(key);
      }
      assert keys[..n] == keys;
      SkipNoKey(s, keys);
    }

    predicate IsReferenced(key: Key)
      reads this, disk
      ensures IsReferenced(key) == Referenced(Snap(), key)
    {
      (exists i | i in entries :: entries[i].key == key)
      || (exists k | k in versions :: versions[k].key == key)
      || (exists i | i in sessions :: sessions[i].status == Open && TempKey(i) == key)
    }

    method PruneVersions(i: Id, keep: nat)
      modifies this, disk
      ensures Snap() == AfterPrune(old(Snap()), i, keep)
      ensures VersionsPruned(old(Snap()), Snap(), i, keep)
    {
      PruneEffect(Snap(), i, keep);
      ghost var s := Snap();
      var gone := Doomed(versions, i, keep);
      var rows := Listing(gone);
      var keys := VersionKeys(rows);
      assert (set k | k in keys) == set k | k in gone && k in versions :: versions[k].key;
      versions := versions - gone;
      DeleteUnreferenced(keys);
    }

    method SnapshotVersion(i: Id)
      modifies this, disk
      ensures Snap() == AfterSnapshot(old(Snap()), i)
      ensures VersionFiled(old(Snap()), Snap(), i)
    {
      SnapshotEffect(Snap(), i);
      if i !in entries || entries[i].kind != File || entries[i].key == NoKey { return; }
      versions := WithVersion(versions, i, entries[i]);
      PruneVersions(i, KEEP);
    }

    method RestoreVersion(i: Id, v: nat) returns (ok: bool)
      requires Valid()
      modifies this, disk
      ensures Valid() && Snap() == AfterRestoreVersion(old(Snap()), i, v)
      ensures VersionRestored(old(Snap()), Snap(), i, v, ok)
    {
      RestoreVersionKeeps(Snap(), i, v);
      RestoreVersionMints(Snap(), i, v);
      RestoreVersionEffect(Snap(), i, v);
      if (i, v) !in versions || i !in entries { return false; }
      var row, cur := versions[(i, v)], entries[i];
      ghost var s := Snap();
      SnapshotVersion(i);
      SnapshotSameForest(s, i);
      entries := entries[i := cur.(key := row.key, size := row.size, hash := row.hash, version := cur.version + 1)];
      ok := true;
    }

    // -------------------------------------------------------------- upload batches

    /** The validation loop: normalises each file, remembers the paths seen and adds up the sizes. */
    method Normalize(raw: seq<RawFile>) returns (ok: bool, files: seq<Manifest>, total: int)
      ensures ok <==> NormalizedAll(raw).Some? && Acceptable(cfg, NormalizedAll(raw).value)
      ensures ok ==> files == NormalizedAll(raw).value && total == Total(files)
      ensures ok <==> ManifestAllowed(cfg, raw)
      ensures ok ==> AllCarry(files, raw) && total == SentTotal(raw)
    {
      ManifestExact(cfg, raw);
      AllExact(raw);
      ok, files, total := NormalizeFiles(raw);
      if ok { TotalExact(files, raw); }
    }

    /** The loop, file by file. */
    method NormalizeFiles(raw: seq<RawFile>) returns (ok: bool, files: seq<Manifest>, total: int)
      ensures ok <==> NormalizedAll(raw).Some? && Acceptable(cfg, NormalizedAll(raw).value)
      ensures ok ==> files == NormalizedAll(raw).value && total == Total(files)
    {
      files, total := [], 0;
      ghost var parsed := Parsed(raw);
      if |raw| == 0 || |raw| > cfg.maxFiles { return false, [], 0; }
      var seen: set<seq<string>> := {};
      var k := 0;
      while k < |raw|
        invariant 0 <= k <= |raw| && Begins(parsed, files) && |files| == k
        invariant total == Total(files)
        invariant seen == Paths(files) && Distinct(files)
        invariant Sized(files, cfg.maxFileBytes)
      {
        var r := Normalized(raw[k]);
        assert parsed[k] == r;
        ok, files, seen, total := TakeFile(parsed, r, files, seen, total);
        if !ok { return false, [], 0; }
        k := k + 1;
      }
      AllGathered(parsed, files);
      ok := total <= cfg.maxBatchBytes;
    }

    /** The checks on one normalised file, and what the loop remembers of it. */
    method TakeFile(ghost parsed: seq<Option<Manifest>>, r: Option<Manifest>, files: seq<Manifest>,
                    seen: set<seq<string>>, total: int)
      returns (ok: bool, files': seq<Manifest>, seen': set<seq<string>>, total': int)
      requires Begins(parsed, files) && |files| < |parsed| && parsed[|files|] == r
      requires seen == Paths(files) && Distinct(files) && Sized(files, cfg.maxFileBytes) && total == Total(files)
      ensures !ok ==> !(Gathered(parsed).Some? && Acceptable(cfg, Gathered(parsed).value))
      ensures ok ==> Begins(parsed, files') && |files'| == |files| + 1
                     && seen' == Paths(files') && Distinct(files') && Sized(files', cfg.maxFileBytes) && total' == Total(files')
    {
      if r.None? || r.value.expected > cfg.maxFileBytes || LowerPath(r.value.path) in seen {
        Refused(cfg, parsed, files);
        return false, files, seen, total;
      }
      BeginsMore(parsed, files, r.value, cfg.maxFileBytes);
      OneMorePath(files, r.value);
      ok, files' := true, files + [r.value];
      assert files'[..|files|] == files;
      seen' := seen + {LowerPath(r.value.path)};
      total' := total + r.value.expected;
    }

    /** The session rows of a batch, each under the folder cached for its directory. */
    method SessionRows(b: Id, ghost es: Entries, ghost p: Id, files: seq<Manifest>, cache: Cache)
      returns (ok: bool, rows: map<Id, Session>)
      requires Coherent(es, p, cache)
      requires forall k :: 0 <= k < |files| ==> Sanitized(Dirs(files)[k]) in cache
      ensures ok <==> StablePaths(files)
      ensures ok ==> rows == NewSessions(es, b, p, files)
    {
      rows := map[];
      var k := 0;
      while k < |files|
        invariant 0 <= k <= |files|
        invariant AllCached(files, k, cache)
        invariant rows == NewSessions(es, b, p, files[..k])
      {
        var dir := Dir(files[k]);
        if dir !in cache {
          UncachedUnstable(files, k, cache);
          return false, map[];
        }
        NewSessionsMore(es, b, p, files, k, cache);
        rows := rows[b + 1 + k := NewSession(b, files[k], Some(cache[dir]))];
        k := k + 1;
      }
      CachedStable(es, b, p, files, cache);
      ok := true;
    }

    method EmptyTemps(b: Id, n: nat)
      modifies disk
      ensures disk.files == old(disk.files) + NewTemps(b, n)
    {
      var k := 0;
      assert disk.files == old(disk.files) + NewTemps(b, 0);
      while k < n
        invariant 0 <= k <= n && disk.files == old(disk.files) + NewTemps(b, k)
      {
        OneMoreTemp(old(disk.files), b, k);
        disk.EnsureEmpty(TempKey(b + 1 + k));
        k := k + 1;
      }
    }

    method CommitBatch(t: Forest, ghost p: Id, files: seq<Manifest>, total: int, rows: map<Id, Session>, expires: int)
      requires total == Total(files)
      requires rows == NewSessions(t.entries, t.next, p, files)
      modifies this, disk
      ensures Snap() == AfterBatchRows(old(Snap()), t, p, files, expires)
    {
      EmptyTemps(t.next, |files|);
      batches := batches[t.next := Batch(total, BatchOpen, expires)];
      sessions := sessions + rows;
      reserved := reserved + total;
      entries, next := t.entries, t.next + 1 + |files|;
    }

    method CreateBatch(parent: Option<Id>, raw: seq<RawFile>, expires: int) returns (batch: Option<Id>)
      requires Valid()
      modifies this, disk
      ensures Valid()
      ensures Snap() == match NormalizedAll(raw)
                        case None => old(Snap())
                        case Some(files) => AfterCreateBatch(old(Snap()), parent, files, expires)
      ensures BatchOpened(old(Snap()), Snap(), parent, raw, expires, batch)
    {
      ghost var s := Snap();
      var ok, files, total := Normalize(raw);
      CreateBatchKeeps(s, parent, files, expires);
      CreateBatchMints(s, parent, files, expires);
      if AfterSent(s, parent, raw, expires) == s { NothingSent(s, parent, raw, expires); }
      var p := if parent.None? then root else parent.value;
      if !ok || !LiveFolder(entries, p) || used + reserved + total > quota { return None; }
      var made, t, cache := EnsureFolders(Forest(entries, next), p, Dirs(files));
      if !made {
        NotMade(s, parent, files, expires);
        return None;
      }
      var stable, rows := SessionRows(t.next, t.entries, p, files, cache);
      if !stable { return None; }
      StableDirs(files);
      assert WalkAll(Forest(s.entries, s.next), p, Dirs(files)) == Some(t);
      BatchSent(s, parent, raw, files, t, expires);
      CommitBatch(t, p, files, total, rows, expires);
      batch := Some(t.next);
    }

    method StoreChunk(sid: Id, offset: nat, length: nat, body: Bytes, fault: Fault) returns (reply: Reply)
      requires sid in sessions && offset == sessions[sid].received == SizeOf(disk.files, TempKey(sid))
      modifies this`sessions, disk
      ensures (Snap(), reply) == Stored(old(Snap()), sid, offset, length, body, fault)
    {
      var u, key := sessions[sid], TempKey(sid);
      ghost var d := disk.files;
      ghost var base := if key in d then d[key] else [];
      var limited := Limit(body, length + 1);
      var ok, written := disk.AppendAt(key, offset, limited, if fault.Crash? then fault.written else |limited|);
      assert ok && base[..offset] == base && Limit(limited, |limited|) == limited;
      if fault.Crash? { return NoReply; }
      if fault.BodyBroken? || written != length || fault.CommitFails? {
        var cut := disk.Truncate(key, u.received);
        assert Resize(base + limited, u.received) == base;
        assert disk.files == d[key := base];
        return Rejected;
      }
      sessions := sessions[sid := u.(received := offset + written)];
      reply := Accepted(offset + written);
    }

    method AppendChunk(sid: Id, now: int, offset: int, length: int, body: Bytes, fault: Fault) returns (reply: Reply)
      modifies this`sessions, disk
      ensures (Snap(), reply) == Appended(old(Snap()), sid, now, offset, length, body, fault)
      ensures ChunkTaken(old(Snap()), Snap(), sid, now, offset, length, body, fault, reply)
    {
      AppendEffect(Snap(), sid, now, offset, length, body, fault);
      if offset < 0 || length < 0 || length > cfg.chunkBytes { return Rejected; }
      if sid !in sessions || sessions[sid].batch !in batches { return Rejected; }
      var u, key := sessions[sid], TempKey(sid);
      if u.status != Open || now > batches[u.batch].expires { return Rejected; }
      var size := disk.Size(key);
      if size != u.received {
        assert key in disk.files && u.received == 0 ==> Resize(disk.files[key], u.received) == [];
        var repaired := disk.Truncate(key, u.received);
        if !repaired { return Rejected; }
        size := u.received;
      }
      if offset != size { return Conflict(size); }
      if offset + length > u.expected { return Rejected; }
      reply := StoreChunk(sid, offset, length, body, fault);
    }

    /** All the checks of a completion, up to the point where the file is moved. */
    method CheckComplete(sid: Id, digest: string) returns (ok: bool)
      ensures ok == CanComplete(Snap(), sid, digest)
      ensures ok <==> Complete(Snap(), sid, digest)
    {
      CompleteExact(Snap(), sid, digest);
      if sid !in sessions || sessions[sid].batch !in batches { return false; }
      var u, temp := sessions[sid], TempKey(sid);
      if u.status != Open || batches[u.batch].status != BatchOpen { return false; }
      if u.received != u.expected { return false; }
      var size := disk.Size(temp);
      if size != u.expected || temp !in disk.files { return false; }
      if u.hash != "" && Lower(digest) != Lower(u.hash) { return false; }
      if u.target.Some? {
        var t := u.target.value;
        if t !in entries || !entries[t].live { return false; }
        if u.expectedVersion != Some(entries[t].version) { return false; }
      }
      ok := true;
    }

    /** The rows a completion writes, once the blob is in place. */
    method CommitCompletion(ghost s: State, sid: Id, ghost digest: string, i: Id, e: Entry)
      requires Completes(s, sid, digest, NoFault) && i == CompletedId(s, sid) && e == CompletedEntry(s, sid, digest)
      requires Snap() == s.(next := s.next + 2, disk := (s.disk - {TempKey(sid)})[BlobKey(s.next) := s.disk[TempKey(sid)]])
      modifies this
      ensures Snap() == AfterComplete(s, sid, digest, NoFault)
    {
      var u := sessions[sid];
      var b := batches[u.batch];
      var oldSize := if u.target.Some? then entries[i].size else 0;
      if u.target.Some? { versions := WithVersion(versions, i, entries[i]); }
      entries := entries[i := e];
      sessions := sessions[sid := u.(status := Completed)];
      used := Clamp(used + u.expected - oldSize);
      reserved := Clamp(reserved - u.expected);
      batches := batches[u.batch := b.(reserved := Clamp(b.reserved - u.expected),
                                       status := if HasOpen(sessions, u.batch) then b.status else BatchDone)];
      log := log + [Change(Upsert, i, RowOf(e))];
    }

    /** Moves a complete temporary file into place and commits the rows; on failure the blob goes. */
    method FinalizeAndCommit(sid: Id, digest: string, fault: Fault) returns (id: Option<Id>)
      requires CanComplete(Snap(), sid, digest)
      modifies this, disk
      ensures id == if Completes(old(Snap()), sid, digest, fault) then Some(CompletedId(old(Snap()), sid)) else None
      ensures Snap() == AfterComplete(old(Snap()), sid, digest, fault)
    {
      ghost var s := Snap();
      var u, temp, final := sessions[sid], TempKey(sid), BlobKey(next);
      var i := if u.target.Some? then u.target.value else next + 1;
      var e := if u.target.Some?
               then entries[i].(key := final, size := u.expected, hash := digest, version := entries[i].version + 1)
               else Entry(u.parent, u.name, File, final, u.expected, 1, digest, true);
      var moved := disk.Finalize(temp, final);
      next := next + 2;
      if fault.Crash? { return None; }
      if fault != NoFault || !UniqueNames(entries[i := e]) {
        disk.Delete(final);
        return None;
      }
      CommitCompletion(s, sid, digest, i, e);
      id := Some(i);
    }

    /** Completes a session; done is the state before the versions of a replaced file are pruned. */
    method CompleteFile(sid: Id, digest: string, fault: Fault) returns (id: Option<Id>, ghost done: State)
      requires Valid()
      modifies this, disk
      ensures Valid()
      ensures id == if Completes(old(Snap()), sid, digest, fault) then Some(CompletedId(old(Snap()), sid)) else None
      ensures done == AfterComplete(old(Snap()), sid, digest, fault)
      ensures Snap() == if id.Some? && old(sessions)[sid].target.Some? then AfterPrune(done, id.value, KEEP) else done
      ensures FileCompleted(old(Snap()), done, sid, digest, fault, id)
      ensures if id.Some? && old(sessions)[sid].target.Some? then VersionsPruned(done, Snap(), id.value, 20) else Snap() == done
      ensures id.Some? && old(sessions)[sid].hash != "" ==> Lower(digest) == Lower(old(sessions)[sid].hash)
      ensures id.Some? ==> id.value in entries && entries[id.value].hash == digest && entries[id.value].size == old(sessions)[sid].expected
    {
      CompleteKeeps(Snap(), sid, digest, fault);
      CompleteMints(Snap(), sid, digest, fault);
      CompleteEffect(Snap(), sid, digest, fault);
      done := AfterComplete(Snap(), sid, digest, fault);
      var ok := CheckComplete(sid, digest);
      if !ok { return None, done; }
      var overwrites := sessions[sid].target.Some?;
      id := FinalizeAndCommit(sid, digest, fault);
      if id.Some? && overwrites {
        PruneMints(done, id.value, KEEP);
        PruneVersions(id.value, KEEP);
      }
    }

    /** Removes the temporary files of the sessions just closed. */
    method DeleteTemps(ids: seq<Id>)
      modifies disk
      ensures disk.files == old(disk.files) - TempKeys(Members(ids))
    {
      var k := 0;
      assert disk.files == old(disk.files) - TempKeys(Members(ids[..0]));
      while k < |ids|
        invariant 0 <= k <= |ids| && disk.files == old(disk.files) - TempKeys(Members(ids[..k]))
      {
        assert ids[..k + 1] == ids[..k] + [ids[k]];
        assert TempKeys(Members(ids[..k + 1])) == TempKeys(Members(ids[..k])) + {TempKey(ids[k])};
        disk.Delete(TempKey(ids[k]));
        k := k + 1;
      }
      assert ids[..k] == ids;
    }

    method CloseBatch(b: Id, held: int, batchStatus: BatchStatus, sessionStatus: SessionStatus)
      requires b in batches && batches[b].status == BatchOpen && held == batches[b].reserved
      modifies this, disk
      ensures Snap() == Closed(old(Snap()), b, batchStatus, sessionStatus)
      ensures BatchClosed(old(Snap()), Snap(), b, batchStatus, sessionStatus)
    {
      CloseEffect(Snap(), b, batchStatus, sessionStatus);
      var ids := Listing(OpenIds(sessions, b));
      assert Members(ids) == OpenIds(sessions, b);
      sessions := Settled(sessions, b, sessionStatus);
      batches := batches[b := batches[b].(reserved := 0, status := batchStatus)];
      reserved := Clamp(reserved - held);
      DeleteTemps(ids);
    }

    method AbortBatch(b: Id) returns (found: bool)
      requires Valid()
      modifies this, disk
      ensures Valid() && Snap() == AfterAbort(old(Snap()), b)
      ensures found <==> b in old(batches)
      ensures if found && old(batches)[b].status == BatchOpen then BatchClosed(old(Snap()), Snap(), b, BatchAborted, Aborted)
              else Snap() == old(Snap())
    {
      CloseSameForest(Snap(), b, 0);
      if b in batches { CloseMints(Snap(), b, BatchAborted, Aborted); }
      if b !in batches { return false; }
      if batches[b].status == BatchOpen { CloseBatch(b, batches[b].reserved, BatchAborted, Aborted); }
      found := true;
    }

    method ExpireOne(b: Id, now: int)
      requires Valid() && b in batches && batches[b].status == BatchOpen && batches[b].expires <= now
      modifies this, disk
      ensures Valid() && Snap() == AfterExpire(old(Snap()), b, now)
      ensures BatchClosed(old(Snap()), Snap(), b, BatchExpired, Expired)
    {
      CloseSameForest(Snap(), b, now);
      CloseMints(Snap(), b, BatchExpired, Expired);
      CloseBatch(b, batches[b].reserved, BatchExpired, Expired);
    }

    /** Expires what was open and overdue when it started, one batch after the other. */
    method CleanupExpired(now: int) returns (ghost steps: seq<Step>)
      requires Valid()
      modifies this, disk
      ensures Valid() && Snap() == Run(old(Snap()), steps)
      ensures AllExpire(steps, now)
      ensures DueExpired(old(batches), batches, now)
    {
      ghost var s := Snap();
      var overdue := set b | b in batches && batches[b].status == BatchOpen && batches[b].expires <= now;
      var items: seq<Id> := Listing(overdue);
      steps := [];
      var k := 0;
      while k < |items|
        invariant 0 <= k <= |items| && Valid()
        invariant Snap() == Run(s, steps)
        invariant AllExpire(steps, now)
        invariant Swept(s.batches, batches, items, k)
      {
        ghost var before := batches;
        assert items[k] in items;
        StillOpen(s.batches, batches, items, k);
        ExpireOne(items[k], now);
        SweptMore(s.batches, before, items, k);
        ExpireMore(s, steps, items[k], now);
        steps := steps + [ExpireBatch(items[k], now)];
        k := k + 1;
      }
      SweptAll(s.batches, batches, items, now);
    }

    // -------------------------------------------------------------- direct uploads

    /** Tries the name, then numbered ones, as the conflict mode allows. */
    method SettleName(p: Id, base: string, mode: Mode) returns (r: Option<(string, Option<Id>)>)
      requires UniqueNames(entries)
      ensures r == Settle(entries, p, base, mode, 0)
    {
      var attempt := 0;
      while attempt < ATTEMPTS
        invariant 0 <= attempt <= ATTEMPTS
        invariant Settle(entries, p, base, mode, 0) == Settle(entries, p, base, mode, attempt)
      {
        var name := if attempt == 0 then base else NextUniqueName(base, attempt + 1);
        var existing := SelectChild(entries, p, name, File);
        if existing.None? { return Some((name, None)); }
        if mode == Overwrite { return Some((name, existing)); }
        if mode == Refuse { return None; }
        attempt := attempt + 1;
      }
      r := None;
    }

    method Upload(p: Id, rawName: string, data: Bytes, mode: Mode) returns (id: Option<Id>)
      requires Valid()
      modifies this, disk
      ensures Valid() && Snap() == AfterUpload(old(Snap()), p, rawName, data, mode)
      ensures FileUploaded(old(Snap()), Snap(), p, rawName, data, mode, id)
      ensures id.Some? ==> id.value in entries && entries[id.value].size == |data|
                           && entries[id.value].key in disk.files && disk.files[entries[id.value].key] == data
    {
      UploadKeeps(Snap(), p, rawName, data, mode);
      UploadMints(Snap(), p, rawName, data, mode);
      UploadEffect(Snap(), p, rawName, data, mode);
      id := SettleAndFile(p, rawName, data, mode);
    }

    /** Checks, settles on a name, and inserts or overwrites. */
    method SettleAndFile(p: Id, rawName: string, data: Bytes, mode: Mode) returns (id: Option<Id>)
      requires Valid()
      modifies this, disk
      ensures Snap() == AfterUpload(old(Snap()), p, rawName, data, mode)
      ensures id == UploadId(old(Snap()), p, rawName, data, mode)
    {
      var base := Sanitize(rawName);
      if !LiveFolder(entries, p) || |data| > cfg.maxFileBytes || used + |data| > quota || base == "" { return None; }
      SettledFile(entries, p, base, mode, 0);
      var r := SettleName(p, base, mode);
      match r {
        case None => id := None;
        case Some((name, None)) =>
          NamedExact(entries, p, name);
          id := InsertFile(p, name, data);
        case Some((name, Some(i))) =>
          OverwriteFile(p, name, i, data);
          id := Some(i);
      }
    }

    /** A new row for a name that no file has; a folder may still have it. */
    method InsertFile(p: Id, name: string, data: Bytes) returns (id: Option<Id>)
      requires Valid() && !FileNamed(entries, p, name)
      modifies this, disk
      ensures Snap() == AfterInsert(old(Snap()), p, name, data)
      ensures id == if NameFree(old(entries), Some(p), name, old(next) + 1) then Some(old(next) + 1) else None
      ensures if id.Some? then UploadFiled(old(Snap()), Snap(), p, name, data, id.value) else Snap() == old(Snap())
    {
      InsertEffect(Snap(), p, name, data);
      id := AddFile(p, name, data);
    }

    method AddFile(p: Id, name: string, data: Bytes) returns (id: Option<Id>)
      modifies this, disk
      ensures Snap() == AfterInsert(old(Snap()), p, name, data)
      ensures id == if Snap() == old(Snap()) then None else Some(old(next) + 1)
    {
      var key := BlobKey(next);
      var e := Entry(Some(p), name, File, key, |data|, 1, "", true);
      var es := entries[next + 1 := e];
      if !UniqueNames(es) { return None; }
      id := Some(next + 1);
      disk.files := disk.files[key := data];
      log := log + [Change(Upsert, next + 1, RowOf(e))];
      entries, used, next := es, used + |data|, next + 2;
    }

    method OverwriteFile(ghost p: Id, ghost name: string, i: Id, data: Bytes)
      requires Valid() && ChildNamed(entries, i, p, name, File)
      modifies this, disk
      ensures Snap() == AfterOverwrite(old(Snap()), i, data)
      ensures UploadFiled(old(Snap()), Snap(), p, name, data, i)
    {
      OverwriteEffect(Snap(), p, name, i, data);
      var key, was := BlobKey(next), entries[i];
      var e := was.(key := key, size := |data|, version := was.version + 1);
      disk.files := disk.files[key := data];
      entries, used, next := entries[i := e], used - was.size + |data|, next + 2;
      disk.Delete(was.key);
      log := log + [Change(Upsert, i, RowOf(e))];
    }
  }

  lemma NewSessionsMore(es: Entries, b: Id, p: Id, files: seq<Manifest>, k: nat, cache: Cache)
    requires k < |files| && Coherent(es, p, cache) && Dir(files[k]) in cache
    ensures NewSessions(es, b, p, files[..k + 1])
            == NewSessions(es, b, p, files[..k])[b + 1 + k := NewSession(b, files[k], Some(cache[Dir(files[k])]))]
  {
    assert files[..k + 1][..k] == files[..k] && files[..k + 1][k] == files[k];
  }

  lemma OneMoreTemp(d: Disk, b: Id, k: nat)
    ensures d + NewTemps(b, k + 1) == (d + NewTemps(b, k))[TempKey(b + 1 + k) := []]
  {
    OneMoreId(b, k);
    assert NewTemps(b, k + 1) == NewTemps(b, k)[TempKey(b + 1 + k) := []];
  }

  /** The first k items have expired and the other batches are as they were. */
  ghost predicate Swept(was: map<Id, Batch>, now: map<Id, Batch>, items: seq<Id>, k: nat)
    requires k <= |items|
  {
    now.Keys == was.Keys
    && (forall b :: b in now && b in items[..k] ==> now[b] == Batch(0, BatchExpired, was[b].expires))
    && (forall b :: b in now && b !in items[..k] ==> now[b] == was[b])
  }

  ghost predicate AllExpire(steps: seq<Step>, now: int) {
    forall k :: 0 <= k < |steps| ==> steps[k].ExpireBatch? && steps[k].now == now
  }

  lemma ExpireMore(s: State, steps: seq<Step>, b: Id, now: int)
    requires AllExpire(steps, now)
    ensures AllExpire(steps + [ExpireBatch(b, now)], now)
    ensures Run(s, steps + [ExpireBatch(b, now)]) == AfterExpire(Run(s, steps), b, now)
  {
    RunMore(s, steps, ExpireBatch(b, now));
  }

  lemma StillOpen(was: map<Id, Batch>, bs: map<Id, Batch>, items: seq<Id>, k: nat)
    requires k < |items| && Swept(was, bs, items, k) && NoDup(items) && items[k] in was
    ensures items[k] in bs && bs[items[k]] == was[items[k]]
  {
    assert items[k] !in items[..k];
  }

  lemma SweptMore(was: map<Id, Batch>, mid: map<Id, Batch>, items: seq<Id>, k: nat)
    requires k < |items| && Swept(was, mid, items, k) && items[k] in mid && NoDup(items)
    ensures Swept(was, mid[items[k] := Batch(0, BatchExpired, mid[items[k]].expires)], items, k + 1)
  {
    assert items[..k + 1] == items[..k] + [items[k]];
  }

  lemma SweptAll(was: map<Id, Batch>, bs: map<Id, Batch>, items: seq<Id>, now: int)
    requires Swept(was, bs, items, |items|)
    requires forall b :: b in was && was[b].status == BatchOpen && was[b].expires <= now ==> b in items
    requires forall b :: b in items ==> b in was && was[b].status == BatchOpen && was[b].expires <= now
    ensures DueExpired(was, bs, now)
  {
    assert items[..|items|] == items;
  }

  function Paths(files: seq<Manifest>): set<seq<string>> {
    set k | 0 <= k < |files| :: LowerPath(files[k].path)
  }

  predicate Distinct(files: seq<Manifest>) {
    forall j, k {:trigger SamePath(files[j], files[k])} | 0 <= j < k < |files| :: !SamePath(files[j], files[k])
  }

  lemma OneMorePath(files: seq<Manifest>, f: Manifest)
    requires Distinct(files) && LowerPath(f.path) !in Paths(files)
    ensures Distinct(files + [f]) && Paths(files + [f]) == Paths(files) + {LowerPath(f.path)}
  {
    var more := files + [f];
    forall j, k | 0 <= j < k < |more| ensures !SamePath(more[j], more[k]) {
      if k < |files| {
        assert !SamePath(files[j], files[k]);
      } else {
        assert LowerPath(files[j].path) in Paths(files);
      }
    }
    forall q ensures q in Paths(more) <==> q in Paths(files) + {LowerPath(f.path)} {
      if q in Paths(files) {
        var k :| 0 <= k < |files| && q == LowerPath(files[k].path);
        assert more[k] == files[k];
      }
      assert more[|files|] == f;
    }
  }

  /** The files so far are those the manifest begins with. */
  ghost predicate Begins(parsed: seq<Option<Manifest>>, files: seq<Manifest>) {
    |files| <= |parsed| && forall j :: 0 <= j < |files| ==> parsed[j] == Some(files[j])
  }

  ghost predicate Sized(files: seq<Manifest>, max: nat) {
    forall j :: 0 <= j < |files| ==> files[j].expected <= max
  }

  lemma BeginsMore(parsed: seq<Option<Manifest>>, files: seq<Manifest>, f: Manifest, max: nat)
    requires Begins(parsed, files) && |files| < |parsed| && parsed[|files|] == Some(f)
    requires Sized(files, max) && f.expected <= max
    ensures Begins(parsed, files + [f]) && Sized(files + [f], max)
  {
  }

  lemma AllGathered(parsed: seq<Option<Manifest>>, files: seq<Manifest>)
    requires Begins(parsed, files) && |files| == |parsed|
    ensures Gathered(parsed) == Some(files)
  {
    assert Gathered(parsed).value == files;
  }

  /** One bad file refuses the whole manifest. */
  lemma Refused(cfg: Config, parsed: seq<Option<Manifest>>, files: seq<Manifest>)
    requires Begins(parsed, files) && |files| < |parsed|
    requires var r := parsed[|files|];
             r.None? || r.value.expected > cfg.maxFileBytes || LowerPath(r.value.path) in Paths(files)
    ensures !(Gathered(parsed).Some? && Acceptable(cfg, Gathered(parsed).value))
  {
    var r := parsed[|files|];
    if Gathered(parsed).Some? {
      var all := Gathered(parsed).value;
      assert all[|files|] == r.value;
      if LowerPath(r.value.path) in Paths(files) {
        var j :| 0 <= j < |files| && LowerPath(files[j].path) == LowerPath(r.value.path);
        assert SamePath(all[j], all[|files|]);
      }
    }
  }

  ghost predicate AllCached(files: seq<Manifest>, k: nat, cache: Cache)
    requires k <= |files|
  {
    k == 0 || (AllCached(files, k - 1, cache) && Dir(files[k - 1]) in cache)
  }

  lemma {:induction false} CachedAt(files: seq<Manifest>, k: nat, cache: Cache, j: nat)
    requires j < k <= |files| && AllCached(files, k, cache)
    ensures Dir(files[j]) in cache
    decreases k
  {
    if j < k - 1 { CachedAt(files, k - 1, cache, j); }
  }

  lemma CachedStable(es: Entries, b: Id, p: Id, files: seq<Manifest>, cache: Cache)
    requires Coherent(es, p, cache) && AllCached(files, |files|, cache)
    ensures StablePaths(files) && NewSessions(es, b, p, files[..|files|]) == NewSessions(es, b, p, files)
  {
    assert files[..|files|] == files;
    forall j | 0 <= j < |files| ensures StablePath(Dir(files[j])) { CachedAt(files, |files|, cache, j); }
  }

  lemma UncachedUnstable(files: seq<Manifest>, k: nat, cache: Cache)
    requires k < |files| && Dir(files[k]) !in cache && Sanitized(Dirs(files)[k]) in cache
    ensures !StablePaths(files)
  {
    if StablePath(Dir(files[k])) { StableSanitized(Dir(files[k])); }
  }

  lemma StableDirs(files: seq<Manifest>)
    ensures AllStable(Dirs(files)) <==> StablePaths(files)
  {
    if AllStable(Dirs(files)) {
      forall k | 0 <= k < |files| ensures StablePath(Dir(files[k])) { assert Dirs(files)[k] == Dir(files[k]); }
    }
  }

  lemma NotMade(s: State, parent: Option<Id>, files: seq<Manifest>, expires: int)
    requires AllStable(Dirs(files)) ==> WalkAll(Forest(s.entries, s.next), RootOr(s, parent), Dirs(files)).None?
    ensures AfterCreateBatch(s, parent, files, expires) == s
  {
    StableDirs(files);
  }

  // ---------------------------------------------------------------- outcomes, branch by branch

  lemma NothingToRestore(s: State, i: Id)
    requires i !in TrashedIds(s.entries)
             || (s.entries[i].parent.Some? && s.entries[i].parent.value !in LiveIds(s.entries))
    ensures RestoreTargets(s, i) == {} && AfterRestore(s, i, []) == s
  {
  }

  lemma PurgeFacts(s: State, i: Id, order: seq<Id>)
    requires TreeOk(s) && Minted(s) && i in TrashedIds(s.entries)
    requires Enumerates(order, Subtree(s.entries, s.entries.Keys, i))
    ensures var t := AfterCollect(AfterPurge(s, i, order), PurgeKeys(s, PurgeTargets(s, i)));
      TreeOk(t) && Minted(t) && SubtreePurged(s, t, i, order, true)
  {
    PurgeKeeps(s, i, order);
    PurgeMints(s, i, order);
    PurgeEffect(s, i, order);
  }

  lemma DeleteOutcome(s: State, i: Id, order: seq<Id>)
    requires i in LiveIds(s.entries) && i != s.root && Enumerates(order, Subtree(s.entries, LiveIds(s.entries), i))
    ensures TrashTargets(s, i) == Subtree(s.entries, LiveIds(s.entries), i) != {}
    ensures TrashTargets(s, i) <= s.entries.Keys
    ensures var es := Flip(s.entries, TrashTargets(s, i), false);
            AfterDelete(s, i, order) == s.(entries := es, log := s.log + ChangeRows(Trash, order, es))
  {
    SubtreeClosed(s.entries, LiveIds(s.entries), i);
  }

  lemma RestoreOutcome(s: State, i: Id, order: seq<Id>)
    requires i in TrashedIds(s.entries) && (s.entries[i].parent.None? || s.entries[i].parent.value in LiveIds(s.entries))
    requires Enumerates(order, Subtree(s.entries, TrashedIds(s.entries), i))
    ensures RestoreTargets(s, i) == Subtree(s.entries, TrashedIds(s.entries), i) != {}
    ensures RestoreTargets(s, i) <= s.entries.Keys
    ensures var es := Flip(s.entries, RestoreTargets(s, i), true);
            AfterRestore(s, i, order) == if !UniqueNames(es) then s
                                         else s.(entries := es, log := s.log + ChangeRows(Restored, order, es))
  {
    SubtreeClosed(s.entries, TrashedIds(s.entries), i);
  }

  lemma PurgeOutcome(s: State, i: Id, order: seq<Id>, ids: set<Id>, bytes: int)
    requires ids == PurgeTargets(s, i) != {} && Enumerates(order, ids) && bytes == Sum(FileSizes(s.entries, ids))
    ensures ids <= s.entries.Keys
    ensures AfterPurge(s, i, order)
            == s.(entries := Without(s.entries, ids), versions := WithoutVersions(s.versions, ids),
                  sessions := Detach(s.sessions, ids), log := s.log + ChangeRows(Purged, order, s.entries),
                  used := Clamp(s.used - bytes))
  {
  }

  lemma CollectOne(s: State, seen: set<Key>, key: Key)
    requires key != NoKey
    ensures AfterCollect(s, seen + {key}).disk
            == if Referenced(s, key) then AfterCollect(s, seen).disk else AfterCollect(s, seen).disk - {key}
  {
  }

  lemma SkipNoKey(s: State, keys: seq<Key>)
    ensures AfterCollect(s, set k | k in keys && k != NoKey).disk == AfterCollect(s, set k | k in keys).disk
  {
  }

  // ---------------------------------------------------------------- what the purge loops add up to

  lemma PurgeTallied(es: Entries, targets: seq<Id>, ids: set<Id>)
    requires Enumerates(targets, ids) && ids <= es.Keys
    ensures SeqSum(targets, FileSizes(es, es.Keys)) == Sum(FileSizes(es, ids))
  {
    SeqSumOnly(targets, FileSizes(es, es.Keys), FileSizes(es, ids));
    SeqSumIsSum(targets, ids, FileSizes(es, ids));
  }

  lemma {:induction false} SeqSumOnly(order: seq<Id>, m: map<Id, int>, n: map<Id, int>)
    requires forall k :: k in order ==> (k in m <==> k in n) && (k in m ==> m[k] == n[k])
    ensures SeqSum(order, m) == SeqSum(order, n)
    decreases |order|
  {
    if order != [] {
      assert order[|order| - 1] in order;
      SeqSumOnly(order[..|order| - 1], m, n);
    }
  }

  lemma PurgeKeysListed(s: State, targets: seq<Id>, ids: set<Id>, keys: seq<Key>, rows: seq<(Id, nat)>, more: seq<Key>)
    requires Enumerates(targets, ids) && ids <= s.entries.Keys
    requires forall key :: key in keys <==> exists i :: i in targets && s.entries[i].kind == File && s.entries[i].key == key
    requires Enumerates(rows, set k | k in s.versions && k.0 in ids)
    requires forall key :: key in more <==> exists r :: r in rows && s.versions[r].key == key
    ensures (set k | k in keys + more) == PurgeKeys(s, ids)
  {
    forall key ensures key in keys + more <==> key in PurgeKeys(s, ids) {
      assert key in keys + more <==> key in keys || key in more;
      assert key in keys <==> exists i :: i in ids && i in s.entries && s.entries[i].kind == File && s.entries[i].key == key;
      assert key in more <==> exists k :: k in s.versions && k.0 in ids && s.versions[k].key == key;
    }
  }
}
