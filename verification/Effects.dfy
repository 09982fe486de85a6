/**
 * What each operation does, column by column: when it succeeds, which rows and files it writes, and
 * that it leaves everything else alone. Stated on the tables before and after, without the functions
 * that compute the one from the other.
 */
module Effects {
  import opened Names
  import opened PathNames
  import opened Sums
  import opened Model
  import opened Manifests
  import opened FolderTree

  // ---------------------------------------------------------------- columns

  /** The change carries every column of the row. */
  ghost predicate Tells(c: Change, op: Op, i: Id, e: Entry) {
    && c.op == op && c.id == i
    && c.row.parent == e.parent && c.row.name == e.name && c.row.kind == e.kind
    && c.row.size == e.size && c.row.version == e.version && c.row.hash == e.hash
  }

  /** One change per listed row, in order, behind what was logged before. */
  ghost predicate Logged(was: seq<Change>, now: seq<Change>, op: Op, order: seq<Id>, es: Entries) {
    && |now| == |was| + |order| && now[..|was|] == was
    && forall k :: 0 <= k < |order| ==> order[k] in es && Tells(now[|was| + k], op, order[k], es[order[k]])
  }

  /** No other live row in the folder has the name, up to case. */
  ghost predicate NameFree(es: Entries, p: Option<Id>, name: string, i: Id) {
    forall j :: j in es && j != i && es[j].live && es[j].parent == p ==> Lower(es[j].name) != Lower(name)
  }

  /** The live or the trashed rows. */
  function Selected(es: Entries, live: bool): set<Id> {
    set i | i in es && es[i].live == live
  }

  /** A live row of the kind in the folder, with the name up to case. */
  ghost predicate Child(es: Entries, i: Id, p: Id, name: string, kind: Kind) {
    i in es && es[i].live && es[i].kind == kind && es[i].parent == Some(p) && Lower(es[i].name) == Lower(name)
  }

  function AtLeastZero(n: int): int {
    if n >= 0 then n else 0
  }

  // ---------------------------------------------------------------- folder tree

  ghost predicate FolderMade(s: State, t: State, p: Id, raw: string, id: Option<Id>) {
    && (id.Some? <==> Sanitize(raw) != "" && LiveFolder(s.entries, p) && NameFree(s.entries, Some(p), Sanitize(raw), s.next))
    && (id.None? ==> t == s)
    && (id.Some? ==>
          && id.value !in s.entries
          && t.entries == s.entries[id.value := Entry(Some(p), Sanitize(raw), Folder, FolderKey(id.value), 0, 1, "", true)]
          && Logged(s.log, t.log, Upsert, [id.value], t.entries)
          && t == s.(next := t.next, entries := t.entries, log := t.log))
  }

  /** Moves exactly when the row is live and not the root, the folder is live, no cycle arises and the name is free. */
  ghost predicate EntryMoved(s: State, t: State, i: Id, p: Id, ok: bool) {
    && (ok <==>
          && i in s.entries && s.entries[i].live && i != s.root && LiveFolder(s.entries, p)
          && Acyclic(s.entries[i := s.entries[i].(parent := Some(p), version := s.entries[i].version + 1)])
          && NameFree(s.entries, Some(p), s.entries[i].name, i))
    && (!ok ==> t == s)
    && (ok ==>
          && t.entries == s.entries[i := s.entries[i].(parent := Some(p), version := s.entries[i].version + 1)]
          && Logged(s.log, t.log, Moved, [i], t.entries)
          && t == s.(entries := t.entries, log := t.log))
  }

  ghost predicate EntryRenamed(s: State, t: State, i: Id, raw: string, ok: bool) {
    && (ok <==>
          && Sanitize(raw) != "" && i in s.entries && s.entries[i].live && i != s.root
          && NameFree(s.entries, s.entries[i].parent, Sanitize(raw), i))
    && (!ok ==> t == s)
    && (ok ==>
          && t.entries == s.entries[i := s.entries[i].(name := Sanitize(raw), version := s.entries[i].version + 1)]
          && Logged(s.log, t.log, Renamed, [i], t.entries)
          && t == s.(entries := t.entries, log := t.log))
  }

  /** The listed rows have the given liveness and the next version; all others are as they were. */
  ghost predicate Switched(es: Entries, fs: Entries, ids: set<Id>, live: bool) {
    && fs.Keys == es.Keys
    && (forall x :: x in es && x in ids ==> fs[x] == es[x].(live := live, version := es[x].version + 1))
    && (forall x :: x in es && x !in ids ==> fs[x] == es[x])
  }

  ghost predicate SubtreeTrashed(s: State, t: State, i: Id, order: seq<Id>, ok: bool) {
    var below := Subtree(s.entries, Selected(s.entries, true), i);
    && (ok <==> i in s.entries && s.entries[i].live && i != s.root)
    && (!ok ==> t == s)
    && (ok ==>
          && Enumerates(order, below) && i in below
          && Switched(s.entries, t.entries, below, false)
          && Logged(s.log, t.log, Trash, order, t.entries)
          && t == s.(entries := t.entries, log := t.log))
  }

  /** Some row that would come back has the name of another one that is or would be live. */
  ghost predicate Crowded(es: Entries, ids: set<Id>) {
    exists x, y ::
      && x in ids && x in es && y in es && x != y && (es[y].live || y in ids)
      && es[x].parent == es[y].parent && Lower(es[x].name) == Lower(es[y].name)
  }

  ghost predicate SubtreeRestored(s: State, t: State, i: Id, order: seq<Id>, ok: bool) {
    var below := Subtree(s.entries, Selected(s.entries, false), i);
    && (ok <==>
          && i in s.entries && !s.entries[i].live
          && (s.entries[i].parent.None? || (s.entries[i].parent.value in s.entries && s.entries[s.entries[i].parent.value].live))
          && !Crowded(s.entries, below))
    && (!ok ==> t == s)
    && (ok ==>
          && Enumerates(order, below) && i in below
          && Switched(s.entries, t.entries, below, true)
          && Logged(s.log, t.log, Restored, order, t.entries)
          && t == s.(entries := t.entries, log := t.log))
  }

  // ---------------------------------------------------------------- blobs and versions

  /** Some row still needs the key: an entry, a version, or an open upload session. */
  ghost predicate InUse(s: State, key: Key) {
    || (exists i :: i in s.entries && s.entries[i].key == key)
    || (exists k :: k in s.versions && s.versions[k].key == key)
    || (key.TempKey? && key.session in s.sessions && s.sessions[key.session].status == Open)
  }

  /** Of the offered keys exactly those go that no row needs; no content changes. */
  ghost predicate Collected(s: State, was: Disk, now: Disk, offered: set<Key>) {
    && (forall k :: k in now <==> k in was && (k !in offered || k == NoKey || InUse(s, k)))
    && (forall k :: k in now ==> now[k] == was[k])
  }

  ghost predicate BlobsCollected(s: State, t: State, offered: set<Key>) {
    t == s.(disk := t.disk) && Collected(s, s.disk, t.disk, offered)
  }

  /** The newest `keep` rows of the entry stay, all rows of other entries stay, unneeded blobs of the others go. */
  ghost predicate VersionsPruned(s: State, t: State, i: Id, keep: nat) {
    && (forall k :: k in t.versions <==>
          k in s.versions && (k.0 != i || |set l | l in s.versions && l.0 == i && l.1 > k.1| < keep))
    && (forall k :: k in t.versions ==> t.versions[k] == s.versions[k])
    && Collected(t, s.disk, t.disk, set k | k in s.versions && k !in t.versions :: s.versions[k].key)
    && t == s.(versions := t.versions, disk := t.disk)
  }

  /** The entry's content filed under its version, unless that is filed already. */
  ghost predicate Filed(vs: Versions, ws: Versions, i: Id, e: Entry) {
    ws == if (i, e.version) in vs then vs else vs[(i, e.version) := Version(e.key, e.size, e.hash)]
  }

  /** Files the current content of a file and keeps the newest twenty versions. */
  ghost predicate VersionFiled(s: State, t: State, i: Id) {
    if i in s.entries && s.entries[i].kind == File && s.entries[i].key != NoKey then
      exists vs :: Filed(s.versions, vs, i, s.entries[i]) && VersionsPruned(s.(versions := vs), t, i, 20)
    else t == s
  }

  /** The entry takes the version's content under a new version number, after its own content is filed. */
  ghost predicate VersionRestored(s: State, t: State, i: Id, v: nat, ok: bool) {
    && (ok <==> (i, v) in s.versions && i in s.entries)
    && (!ok ==> t == s)
    && (ok ==>
          var row := s.versions[(i, v)];
          && t.entries == s.entries[i := s.entries[i].(key := row.key, size := row.size, hash := row.hash,
                                                       version := s.entries[i].version + 1)]
          && VersionFiled(s, t.(entries := s.entries), i))
  }

  /** The keys a purge offers: those of the purged files and of all their versions. */
  ghost predicate Offered(s: State, ids: set<Id>, offered: set<Key>) {
    forall k :: k in offered <==>
      || (exists i :: i in ids && i in s.entries && s.entries[i].kind == File && s.entries[i].key == k)
      || (exists v :: v in s.versions && v.0 in ids && s.versions[v].key == k)
  }

  function SizesOf(es: Entries, ids: set<Id>): map<Id, int> {
    map x | x in es && x in ids && es[x].kind == File :: es[x].size
  }

  /** The tables without the rows: entries and versions gone, sessions detached, bytes given back, one change each. */
  ghost predicate RowsPurged(s: State, t: State, order: seq<Id>, ids: set<Id>) {
    && t.entries == s.entries - ids
    && (forall k :: k in t.versions <==> k in s.versions && k.0 !in ids)
    && (forall k :: k in t.versions ==> t.versions[k] == s.versions[k])
    && t.sessions.Keys == s.sessions.Keys
    && (forall j :: j in s.sessions ==>
          t.sessions[j] == if s.sessions[j].parent.Some? && s.sessions[j].parent.value in ids
                           then s.sessions[j].(parent := None) else s.sessions[j])
    && t.used == AtLeastZero(s.used - Sum(SizesOf(s.entries, ids)))
    && Logged(s.log, t.log, Purged, order, s.entries)
    && t == s.(entries := t.entries, versions := t.versions, sessions := t.sessions, used := t.used, log := t.log, disk := t.disk)
  }

  ghost predicate SubtreePurged(s: State, t: State, i: Id, order: seq<Id>, ok: bool) {
    var below := Subtree(s.entries, s.entries.Keys, i);
    && (ok <==> i in s.entries && !s.entries[i].live)
    && (!ok ==> t == s)
    && (ok ==>
          && Enumerates(order, below) && i in below && RowsPurged(s, t, order, below)
          && exists offered :: Offered(s, below, offered) && Collected(t, s.disk, t.disk, offered))
  }

  // ---------------------------------------------------------------- upload batches

  /** The parts of the path that was sent, whatever slashes and spaces surround it. */
  function SentParts(f: RawFile): (parts: seq<string>)
    ensures parts != []
  {
    Split(TrimSlashes(Slashed(Trim(f.relativePath))))
  }

  function SentDir(f: RawFile): seq<string> {
    SentParts(f)[..|SentParts(f)| - 1]
  }

  /** The given name, or else the last part of the path, sanitised. */
  function SentName(f: RawFile): string {
    Sanitize(if Trim(f.fileName) == "" then SentParts(f)[|SentParts(f)| - 1] else Trim(f.fileName))
  }

  predicate SentSamePath(f: RawFile, g: RawFile) {
    |SentParts(f)| == |SentParts(g)|
    && forall k | 0 <= k < |SentParts(f)| :: Lower(SentParts(f)[k]) == Lower(SentParts(g)[k])
  }

  function SentTotal(raw: seq<RawFile>): int {
    if raw == [] then 0 else SentTotal(raw[..|raw| - 1]) + raw[|raw| - 1].expectedSize
  }

  ghost predicate SentFileOk(cfg: Config, f: RawFile) {
    && PlainPath(SentParts(f)) && !StartsWith(SentParts(f)[0], "..") && SentName(f) != ""
    && 0 <= f.expectedSize <= cfg.maxFileBytes
  }

  /** Walking the directory meets folders only, and whatever is missing has a free name. */
  ghost predicate Clear(es: Entries, p: Id, dir: seq<string>)
    decreases |dir|
  {
    dir == []
    || (exists i :: Child(es, i, p, dir[0], Folder) && Clear(es, i, dir[1..]))
    || (forall j :: j in es && es[j].live && es[j].parent == Some(p) ==> Lower(es[j].name) != Lower(dir[0]))
  }

  /** Folder q is where the directory leads from p, up to case. */
  ghost predicate Leads(es: Entries, p: Id, dir: seq<string>, q: Id)
    decreases |dir|
  {
    if dir == [] then q == p
    else exists i :: Child(es, i, p, dir[0], Folder) && Leads(es, i, dir[1..], q)
  }

  ghost predicate FilesOk(cfg: Config, raw: seq<RawFile>) {
    forall k :: 0 <= k < |raw| ==> SentFileOk(cfg, raw[k])
  }

  ghost predicate PathsDiffer(raw: seq<RawFile>) {
    forall j, k :: 0 <= j < k < |raw| ==> !SentSamePath(raw[j], raw[k])
  }

  /** Sanitising would change no directory part. */
  ghost predicate DirsSanitary(raw: seq<RawFile>) {
    forall k, part :: 0 <= k < |raw| && part in SentDir(raw[k]) ==> Sanitize(part) == part
  }

  ghost predicate DirsClear(es: Entries, p: Id, raw: seq<RawFile>) {
    forall k :: 0 <= k < |raw| ==> Clear(es, p, SentDir(raw[k]))
  }

  ghost predicate ManifestAllowed(cfg: Config, raw: seq<RawFile>) {
    0 < |raw| <= cfg.maxFiles && FilesOk(cfg, raw) && PathsDiffer(raw) && SentTotal(raw) <= cfg.maxBatchBytes
  }

  ghost predicate BatchAllowed(s: State, p: Id, raw: seq<RawFile>) {
    && ManifestAllowed(s.cfg, raw) && s.used + s.reserved + SentTotal(raw) <= s.quota
    && LiveFolder(s.entries, p) && DirsSanitary(raw) && DirsClear(s.entries, p, raw)
  }

  /** The session row asks for what was sent and files it where the directory leads. */
  ghost predicate Requested(u: Session, f: RawFile, b: Id, es: Entries, p: Id) {
    && u.batch == b && u.status == Open && u.received == 0
    && u.name == SentName(f) && u.expected == f.expectedSize
    && u.target == f.target && u.expectedVersion == f.expectedVersion && u.hash == f.hash
    && u.parent.Some? && Leads(es, p, SentDir(f), u.parent.value)
  }

  /** Old folders stay, new ones are needed. */
  ghost predicate DirsMade(es: Entries, fs: Entries, p: Id, raw: seq<RawFile>) {
    && (forall i :: i in es ==> i in fs && fs[i] == es[i])
    && (forall i :: i in fs && i !in es ==> NewDir(fs, i, p, raw))
  }

  /** One session per file sent, numbered behind the batch, and all other sessions as they were. */
  ghost predicate SessionsMade(ss: map<Id, Session>, us: map<Id, Session>, b: Id, es: Entries, p: Id, raw: seq<RawFile>) {
    && (forall i :: i in us <==> i in ss || b < i <= b + |raw|)
    && (forall i :: i in ss ==> us[i] == ss[i])
    && (forall k :: 0 <= k < |raw| ==> Requested(us[b + 1 + k], raw[k], b, es, p))
  }

  /** One empty temporary file per new session. */
  ghost predicate TempsMade(was: Disk, now: Disk, b: Id, n: nat) {
    && (forall k :: k in now <==> k in was || (k.TempKey? && b < k.session <= b + n))
    && (forall k :: k in now ==> now[k] == if k.TempKey? && b < k.session <= b + n then [] else was[k])
  }

  ghost predicate BatchOpened(s: State, t: State, parent: Option<Id>, raw: seq<RawFile>, expires: int, batch: Option<Id>) {
    var p := if parent.None? then s.root else parent.value;
    && (batch.Some? <==> BatchAllowed(s, p, raw))
    && (batch.None? ==> t == s)
    && (batch.Some? ==>
          && batch.value !in s.batches
          && t.batches == s.batches[batch.value := Batch(SentTotal(raw), BatchOpen, expires)]
          && t.reserved == s.reserved + SentTotal(raw)
          && DirsMade(s.entries, t.entries, p, raw)
          && SessionsMade(s.sessions, t.sessions, batch.value, t.entries, p, raw)
          && TempsMade(s.disk, t.disk, batch.value, |raw|)
          && t == s.(next := t.next, entries := t.entries, batches := t.batches, sessions := t.sessions,
                     disk := t.disk, reserved := t.reserved))
  }

  /** A new empty live folder that some file's directory needs. */
  ghost predicate NewDir(es: Entries, i: Id, p: Id, raw: seq<RawFile>) {
    && i in es && es[i].kind == Folder && es[i].live && es[i].key == FolderKey(i)
    && es[i].size == 0 && es[i].version == 1 && es[i].hash == ""
    && exists k :: 0 <= k < |raw| && OnPath(es, i, p, SentDir(raw[k]))
  }

  /** Some beginning of the directory leads to the folder. */
  ghost predicate OnPath(es: Entries, i: Id, p: Id, dir: seq<string>) {
    exists n :: 0 < n <= |dir| && Leads(es, p, dir[..n], i)
  }

  // ---------------------------------------------------------------- chunks

  /** The first n bytes: those of the file, and zeros beyond its end. */
  ghost predicate Keeps(now: Bytes, was: Bytes, n: nat) {
    n <= |now| && forall k :: 0 <= k < n ==> now[k] == if k < |was| then was[k] else 0
  }

  ghost predicate ChunkAllowed(s: State, sid: Id, now: int, offset: int, length: int) {
    && 0 <= offset && 0 <= length <= s.cfg.chunkBytes
    && sid in s.sessions && s.sessions[sid].batch in s.batches
    && s.sessions[sid].status == Open && now <= s.batches[s.sessions[sid].batch].expires
    && (TempKey(sid) !in s.disk ==> s.sessions[sid].received == 0)
  }

  ghost predicate ChunkAtOffset(s: State, sid: Id, now: int, offset: int, length: int) {
    && ChunkAllowed(s, sid, now, offset, length)
    && offset == s.sessions[sid].received && offset + length <= s.sessions[sid].expected
  }

  ghost predicate ChunkTaken(s: State, t: State, sid: Id, now: int, offset: int, length: int, body: Bytes, fault: Fault, reply: Reply) {
    var key := TempKey(sid);
    && (reply.Accepted? <==> ChunkAtOffset(s, sid, now, offset, length) && |body| == length && fault == NoFault)
    && (reply.Conflict? <==> ChunkAllowed(s, sid, now, offset, length) && offset != s.sessions[sid].received)
    && (reply.NoReply? <==> ChunkAtOffset(s, sid, now, offset, length) && fault.Crash?)
    && (reply.Accepted? ==>
          && reply.offset == offset + length && t.sessions == s.sessions[sid := s.sessions[sid].(received := offset + length)]
          && key in t.disk && |t.disk[key]| == offset + length && t.disk[key][offset..] == body)
    && (reply.Conflict? ==> reply.offset == s.sessions[sid].received)
    && (!reply.Accepted? ==> t.sessions == s.sessions)
    && (!ChunkAllowed(s, sid, now, offset, length) ==> t == s)
    && (ChunkAllowed(s, sid, now, offset, length) && key in s.disk ==>
          key in t.disk && Keeps(t.disk[key], s.disk[key], s.sessions[sid].received))
    && (forall k :: k != key ==> (k in t.disk <==> k in s.disk) && (k in s.disk ==> t.disk[k] == s.disk[k]))
    && t == s.(sessions := t.sessions, disk := t.disk)
  }

  // ---------------------------------------------------------------- completion

  /** Everything was received, the file is there in full, and hash and target are as announced. */
  ghost predicate Complete(s: State, sid: Id, digest: string) {
    && sid in s.sessions && s.sessions[sid].batch in s.batches
    && s.sessions[sid].status == Open && s.batches[s.sessions[sid].batch].status == BatchOpen
    && s.sessions[sid].received == s.sessions[sid].expected
    && TempKey(sid) in s.disk && |s.disk[TempKey(sid)]| == s.sessions[sid].expected
    && (s.sessions[sid].hash != "" ==> Lower(digest) == Lower(s.sessions[sid].hash))
    && (s.sessions[sid].target.Some? ==>
          var x := s.sessions[sid].target.value;
          x in s.entries && s.entries[x].live && s.sessions[sid].expectedVersion == Some(s.entries[x].version))
  }

  /** The row that results: a new file under the session's name, or the target with new content. */
  ghost predicate CompletedRow(s: State, u: Session, digest: string, i: Id, key: Key, es: Entries) {
    if u.target.Some? then
      && i == u.target.value && i in s.entries
      && es == s.entries[i := s.entries[i].(key := key, size := u.expected, hash := digest, version := s.entries[i].version + 1)]
    else i !in s.entries && es == s.entries[i := Entry(u.parent, u.name, File, key, u.expected, 1, digest, true)]
  }

  /** Reservation, batch status and used bytes after a completion. */
  ghost predicate CompletedLedger(s: State, t: State, sid: Id)
    requires sid in s.sessions && s.sessions[sid].batch in s.batches
  {
    var u := s.sessions[sid];
    var b := s.batches[u.batch];
    var last := forall j :: j in s.sessions && j != sid && s.sessions[j].batch == u.batch ==> s.sessions[j].status != Open;
    && t.sessions == s.sessions[sid := u.(status := Completed)]
    && t.batches == s.batches[u.batch := b.(reserved := AtLeastZero(b.reserved - u.expected),
                                            status := if last then BatchDone else b.status)]
    && t.reserved == AtLeastZero(s.reserved - u.expected)
    && t.used == AtLeastZero(s.used + u.expected
                             - if u.target.Some? && u.target.value in s.entries then s.entries[u.target.value].size else 0)
  }

  ghost predicate FileCompleted(s: State, t: State, sid: Id, digest: string, fault: Fault, id: Option<Id>) {
    && (id.Some? <==>
          && Complete(s, sid, digest) && fault == NoFault
          && (s.sessions[sid].target.None? ==> NameFree(s.entries, s.sessions[sid].parent, s.sessions[sid].name, s.next + 1)))
    && (!Complete(s, sid, digest) ==> t == s)
    && (Complete(s, sid, digest) && id.None? ==>
          && t == s.(next := t.next, disk := t.disk)
          && FileMoved(s.disk, t.disk, TempKey(sid), BlobKey(s.next), fault.Crash?))
    && (id.Some? ==>
          var u, i := s.sessions[sid], id.value;
          && CompletedRow(s, u, digest, i, BlobKey(s.next), t.entries)
          && CompletedLedger(s, t, sid)
          && (if u.target.Some? && i in s.entries then Filed(s.versions, t.versions, i, s.entries[i]) else t.versions == s.versions)
          && FileMoved(s.disk, t.disk, TempKey(sid), BlobKey(s.next), true)
          && Logged(s.log, t.log, Upsert, [i], t.entries)
          && t.cfg == s.cfg && t.quota == s.quota && t.root == s.root)
  }

  /** The temporary file is gone; its bytes are under the blob's key, or gone too. */
  ghost predicate FileMoved(was: Disk, now: Disk, temp: Key, blob: Key, kept: bool) {
    && temp !in now
    && (if kept then temp in was && blob in now && now[blob] == was[temp] else blob !in now)
    && (forall k :: k != temp && k != blob ==> (k in now <==> k in was) && (k in was ==> now[k] == was[k]))
  }

  /** A batch closes: its reservation is released, its open sessions get the status and lose their files. */
  ghost predicate BatchClosed(s: State, t: State, b: Id, batchStatus: BatchStatus, sessionStatus: SessionStatus)
    requires b in s.batches
  {
    && t.batches == s.batches[b := Batch(0, batchStatus, s.batches[b].expires)]
    && t.reserved == AtLeastZero(s.reserved - s.batches[b].reserved)
    && t.sessions.Keys == s.sessions.Keys
    && (forall i :: i in s.sessions ==>
          t.sessions[i] == if s.sessions[i].batch == b && s.sessions[i].status == Open
                           then s.sessions[i].(status := sessionStatus) else s.sessions[i])
    && (forall k :: k in t.disk <==>
          k in s.disk && !(k.TempKey? && k.session in s.sessions && s.sessions[k.session].batch == b && s.sessions[k.session].status == Open))
    && (forall k :: k in t.disk ==> t.disk[k] == s.disk[k])
    && t == s.(batches := t.batches, reserved := t.reserved, sessions := t.sessions, disk := t.disk)
  }

  /** Exactly the open batches that are due have expired and hold nothing. */
  ghost predicate DueExpired(was: map<Id, Batch>, bs: map<Id, Batch>, now: int) {
    && bs.Keys == was.Keys
    && forall b :: b in bs ==>
         bs[b] == if was[b].status == BatchOpen && was[b].expires <= now then Batch(0, BatchExpired, was[b].expires) else was[b]
  }

  // ---------------------------------------------------------------- direct uploads

  /** The name tried at an attempt: the sanitised one, then numbered ones from 2 on. */
  function Tried(base: string, attempt: nat): string {
    if attempt == 0 then base else NextUniqueName(base, attempt + 1)
  }

  ghost predicate FileNamed(es: Entries, p: Id, name: string) {
    exists i :: Child(es, i, p, name, File)
  }

  /** The attempt that settles: files have all earlier names, and this one is free or to be overwritten. */
  ghost predicate SettlesAt(es: Entries, p: Id, base: string, mode: Mode, attempt: nat) {
    && attempt < 30 && (attempt > 0 ==> mode == Rename)
    && (forall a: nat :: a < attempt ==> FileNamed(es, p, Tried(base, a)))
    && (FileNamed(es, p, Tried(base, attempt)) ==> mode == Overwrite)
  }

  ghost predicate UploadAllowed(s: State, p: Id, raw: string, data: Bytes) {
    LiveFolder(s.entries, p) && Sanitize(raw) != "" && |data| <= s.cfg.maxFileBytes && s.used + |data| <= s.quota
  }

  /** The upload's rows and bytes once it has settled on a name. */
  ghost predicate UploadFiled(s: State, t: State, p: Id, name: string, data: Bytes, i: Id) {
    && i in t.entries && t.entries[i].key in t.disk && t.disk[t.entries[i].key] == data
    && (if FileNamed(s.entries, p, name) then
          && Child(s.entries, i, p, name, File)
          && t.entries == s.entries[i := s.entries[i].(key := t.entries[i].key, size := |data|, version := s.entries[i].version + 1)]
          && t.used == s.used - s.entries[i].size + |data|
          && (forall k :: k != t.entries[i].key ==> (k in t.disk <==> k in s.disk && k != s.entries[i].key) && (k in t.disk ==> t.disk[k] == s.disk[k]))
        else
          && i !in s.entries
          && t.entries == s.entries[i := Entry(Some(p), name, File, t.entries[i].key, |data|, 1, "", true)]
          && t.used == s.used + |data|
          && (forall k :: k != t.entries[i].key ==> (k in t.disk <==> k in s.disk) && (k in t.disk ==> t.disk[k] == s.disk[k])))
    && Logged(s.log, t.log, Upsert, [i], t.entries)
    && t == s.(next := t.next, entries := t.entries, used := t.used, disk := t.disk, log := t.log)
  }

  ghost predicate FileUploaded(s: State, t: State, p: Id, raw: string, data: Bytes, mode: Mode, id: Option<Id>) {
    && (id.Some? <==>
          && UploadAllowed(s, p, raw, data)
          && exists a: nat :: SettlesAt(s.entries, p, Sanitize(raw), mode, a)
               && (FileNamed(s.entries, p, Tried(Sanitize(raw), a)) || NameFree(s.entries, Some(p), Tried(Sanitize(raw), a), s.next + 1)))
    && (id.None? ==> t == s)
    && (id.Some? ==>
          exists a: nat :: SettlesAt(s.entries, p, Sanitize(raw), mode, a) && UploadFiled(s, t, p, Tried(Sanitize(raw), a), data, id.value))
  }
}
