/** The server's tables and disk as one value, and every transaction as a function on it. */
module Model {
  import opened Names
  import opened Sums

  datatype Option<+T> = None | Some(value: T)

  newtype byte = x: int | 0 <= x < 256
  type Id = nat
  type Bytes = seq<byte>

  datatype Kind = Folder | File

  /** Storage keys by the path prefix under which they are generated. */
  datatype Key = NoKey | FolderKey(id: Id) | BlobKey(id: Id) | TempKey(session: Id)

  datatype Entry = Entry(parent: Option<Id>, name: string, kind: Kind, key: Key, size: nat,
                         version: nat, hash: string, live: bool)

  /** A row of file_versions; its primary key is (entry, version). */
  datatype Version = Version(key: Key, size: nat, hash: string)

  datatype BatchStatus = BatchOpen | BatchDone | BatchAborted | BatchExpired
  datatype Batch = Batch(reserved: int, status: BatchStatus, expires: int)

  datatype SessionStatus = Open | Completed | Aborted | Expired
  datatype Session = Session(batch: Id, parent: Option<Id>, name: string, expected: nat, received: nat,
                             target: Option<Id>, expectedVersion: Option<int>, hash: string,
                             status: SessionStatus)

  datatype Op = Upsert | Renamed | Moved | Trash | Restored | Purged
  datatype Row = Row(parent: Option<Id>, name: string, kind: Kind, size: nat, version: nat, hash: string)
  datatype Change = Change(op: Op, id: Id, row: Row)

  datatype Config = Config(maxFiles: nat, maxFileBytes: nat, maxBatchBytes: nat, chunkBytes: nat)

  type Entries = map<Id, Entry>
  type Versions = map<(Id, nat), Version>
  type Disk = map<Key, Bytes>

  /** `next` stands for the UUID generator: no identifier at or above it is in use. */
  datatype State = State(cfg: Config, quota: int, root: Id, next: Id,
                         entries: Entries, versions: Versions, log: seq<Change>,
                         used: int, reserved: int,
                         batches: map<Id, Batch>, sessions: map<Id, Session>, disk: Disk)

  /** One file of a normalised manifest; `path` is the relative path split at its slashes. */
  datatype Manifest = Manifest(path: seq<string>, name: string, expected: nat,
                               target: Option<Id>, expectedVersion: Option<int>, hash: string)

  datatype Mode = Rename | Overwrite | Refuse

  /** What goes wrong while a request is served; Crash keeps a prefix of the bytes just written. */
  datatype Fault = NoFault | BodyBroken | CommitFails | Crash(written: nat)

  function RowOf(e: Entry): Row {
    Row(e.parent, e.name, e.kind, e.size, e.version, e.hash)
  }

  function Clamp(n: int): int {
    if n < 0 then 0 else n
  }

  // ---------------------------------------------------------------- the folder tree

  predicate LiveFolder(es: Entries, i: Id) {
    i in es && es[i].kind == Folder && es[i].live
  }

  /** The partial unique index on (user, parent, lower(name)) where deleted_at is null. */
  predicate UniqueNames(es: Entries) {
    forall i, j {:trigger Clash(es, i, j)} | i in es && j in es :: !Clash(es, i, j)
  }

  predicate Clash(es: Entries, i: Id, j: Id)
    requires i in es && j in es
  {
    i != j && es[i].live && es[j].live && es[i].parent == es[j].parent && Lower(es[i].name) == Lower(es[j].name)
  }

  predicate ChildNamed(es: Entries, i: Id, p: Id, name: string, kind: Kind) {
    i in es && es[i].live && es[i].kind == kind && es[i].parent == Some(p) && Lower(es[i].name) == Lower(name)
  }

  ghost function FindChild(es: Entries, p: Id, name: string, kind: Kind): (r: Option<Id>)
    ensures r.Some? ==> ChildNamed(es, r.value, p, name, kind)
    ensures r.None? ==> forall i :: !ChildNamed(es, i, p, name, kind)
  {
    if exists i :: ChildNamed(es, i, p, name, kind) then
      var i :| ChildNamed(es, i, p, name, kind); Some(i)
    else None
  }

  /** d lies n parent links below a, every row on the way being selected. */
  ghost predicate Climbs(es: Entries, sel: set<Id>, d: Id, a: Id, n: nat)
    decreases n
  {
    d in es && d in sel &&
    if n == 0 then d == a else es[d].parent.Some? && Climbs(es, sel, es[d].parent.value, a, n - 1)
  }

  /** The rows a recursive query from `a` collects when its recursive part keeps the rows in `sel`. */
  ghost function Subtree(es: Entries, sel: set<Id>, a: Id): set<Id> {
    set d | d in es && exists n :: Climbs(es, sel, d, a, n)
  }

  function LiveIds(es: Entries): set<Id> {
    set i | i in es && es[i].live
  }

  function TrashedIds(es: Entries): set<Id> {
    set i | i in es && !es[i].live
  }

  function ChangeRows(op: Op, order: seq<Id>, es: Entries): seq<Change>
    requires forall i :: i in order ==> i in es
  {
    if order == [] then []
    else
      var k := |order| - 1;
      assert forall i :: i in order[..k] ==> i in order;
      ChangeRows(op, order[..k], es) + [Change(op, order[k], RowOf(es[order[k]]))]
  }

  ghost function AfterCreateFolder(s: State, p: Id, rawName: string): State {
    var name := Sanitize(rawName);
    var e := Entry(Some(p), name, Folder, FolderKey(s.next), 0, 1, "", true);
    var es := s.entries[s.next := e];
    if name == "" || !LiveFolder(s.entries, p) || !UniqueNames(es) then s
    else s.(next := s.next + 1, entries := es, log := s.log + [Change(Upsert, s.next, RowOf(e))])
  }

  ghost predicate MoveForbidden(s: State, i: Id, p: Id) {
    i in LiveIds(s.entries) && p in Subtree(s.entries, LiveIds(s.entries), i)
  }

  ghost function AfterMove(s: State, i: Id, p: Id): State {
    if MoveForbidden(s, i, p) || !LiveFolder(s.entries, p) || i !in s.entries || !s.entries[i].live || i == s.root then s
    else
      var e := s.entries[i].(parent := Some(p), version := s.entries[i].version + 1);
      var es := s.entries[i := e];
      if !UniqueNames(es) then s
      else s.(entries := es, log := s.log + [Change(Moved, i, RowOf(e))])
  }

  ghost function AfterRename(s: State, i: Id, rawName: string): State {
    var name := Sanitize(rawName);
    if name == "" || i !in s.entries || !s.entries[i].live || i == s.root then s
    else
      var e := s.entries[i].(name := name, version := s.entries[i].version + 1);
      var es := s.entries[i := e];
      if !UniqueNames(es) then s
      else s.(entries := es, log := s.log + [Change(Renamed, i, RowOf(e))])
  }

  /** Flips deleted_at on a set of rows and bumps their content version. */
  function Flip(es: Entries, ids: set<Id>, live: bool): Entries {
    map i | i in es :: if i in ids then es[i].(live := live, version := es[i].version + 1) else es[i]
  }

  ghost function TrashTargets(s: State, i: Id): set<Id> {
    if i in LiveIds(s.entries) && i != s.root then Subtree(s.entries, LiveIds(s.entries), i) else {}
  }

  ghost function AfterDelete(s: State, i: Id, order: seq<Id>): State {
    var ids := TrashTargets(s, i);
    if ids == {} || !Enumerates(order, ids) then s
    else
      var es := Flip(s.entries, ids, false);
      s.(entries := es, log := s.log + ChangeRows(Trash, order, es))
  }

  ghost function RestoreTargets(s: State, i: Id): set<Id> {
    if i in TrashedIds(s.entries)
       && (s.entries[i].parent.None? || s.entries[i].parent.value in LiveIds(s.entries))
    then Subtree(s.entries, TrashedIds(s.entries), i) else {}
  }

  ghost function AfterRestore(s: State, i: Id, order: seq<Id>): State {
    var ids := RestoreTargets(s, i);
    if ids == {} || !Enumerates(order, ids) then s
    else
      var es := Flip(s.entries, ids, true);
      if !UniqueNames(es) then s
      else s.(entries := es, log := s.log + ChangeRows(Restored, order, es))
  }

  ghost function PurgeTargets(s: State, i: Id): set<Id> {
    if i in TrashedIds(s.entries) then Subtree(s.entries, s.entries.Keys, i) else {}
  }

  /** The sizes that used_bytes accounts for: those of file rows. */
  function FileSizes(es: Entries, ids: set<Id>): map<Id, int> {
    map i | i in es && i in ids && es[i].kind == File :: es[i].size
  }

  /** Deleting rows, with the foreign keys' ON DELETE SET NULL on parent links. */
  function Without(es: Entries, ids: set<Id>): Entries {
    map i | i in es && i !in ids ::
      if es[i].parent.Some? && es[i].parent.value in ids then es[i].(parent := None) else es[i]
  }

  function Detach(ss: map<Id, Session>, ids: set<Id>): map<Id, Session> {
    map i | i in ss :: if ss[i].parent.Some? && ss[i].parent.value in ids then ss[i].(parent := None) else ss[i]
  }

  /** ON DELETE CASCADE from entries to their versions. */
  function WithoutVersions(vs: Versions, ids: set<Id>): Versions {
    map k | k in vs && k.0 !in ids :: vs[k]
  }

  ghost function AfterPurge(s: State, i: Id, order: seq<Id>): State {
    var ids := PurgeTargets(s, i);
    if ids == {} || !Enumerates(order, ids) then s
    else
      s.(entries := Without(s.entries, ids),
         versions := WithoutVersions(s.versions, ids),
         sessions := Detach(s.sessions, ids),
         log := s.log + ChangeRows(Purged, order, s.entries),
         used := Clamp(s.used - Sum(FileSizes(s.entries, ids))))
  }

  /** The blobs a purge of `ids` offers to the collector. */
  function PurgeKeys(s: State, ids: set<Id>): set<Key> {
    (set i | i in ids && i in s.entries && s.entries[i].kind == File :: s.entries[i].key)
    + (set k | k in s.versions && k.0 in ids :: s.versions[k].key)
  }

  // ---------------------------------------------------------------- versions and blobs

  predicate Referenced(s: State, key: Key) {
    (exists i | i in s.entries :: s.entries[i].key == key)
    || (exists k | k in s.versions :: s.versions[k].key == key)
    || (exists i | i in s.sessions :: s.sessions[i].status == Open && TempKey(i) == key)
  }

  /** DeleteUnreferenced: candidates go exactly when nothing refers to them. */
  function AfterCollect(s: State, keys: set<Key>): State {
    s.(disk := map k | k in s.disk && (k !in keys || k == NoKey || Referenced(s, k)) :: s.disk[k])
  }

  function Newer(vs: Versions, i: Id, v: nat): set<(Id, nat)> {
    set k | k in vs && k.0 == i && k.1 > v
  }

  /** The rows of entry i beyond the newest `keep`. */
  function Doomed(vs: Versions, i: Id, keep: nat): set<(Id, nat)> {
    set k | k in vs && k.0 == i && |Newer(vs, i, k.1)| >= keep
  }

  function AfterPrune(s: State, i: Id, keep: nat): State {
    var gone := Doomed(s.versions, i, keep);
    AfterCollect(s.(versions := s.versions - gone), set k | k in gone && k in s.versions :: s.versions[k].key)
  }

  /** insert … on conflict (entry_id, version) do nothing */
  function WithVersion(vs: Versions, i: Id, e: Entry): Versions {
    if (i, e.version) in vs then vs else vs[(i, e.version) := Version(e.key, e.size, e.hash)]
  }

  const KEEP: nat := 20

  function AfterSnapshot(s: State, i: Id): State {
    if i !in s.entries || s.entries[i].kind != File || s.entries[i].key == NoKey then s
    else AfterPrune(s.(versions := WithVersion(s.versions, i, s.entries[i])), i, KEEP)
  }

  function AfterRestoreVersion(s: State, i: Id, v: nat): State {
    if (i, v) !in s.versions || i !in s.entries then s
    else
      var row, cur := s.versions[(i, v)], s.entries[i];
      var t := AfterSnapshot(s, i);
      t.(entries := s.entries[i := cur.(key := row.key, size := row.size, hash := row.hash, version := cur.version + 1)])
  }

  // ---------------------------------------------------------------- upload batches

  /** The part of the state that ensureFolderPath changes. */
  datatype Forest = Forest(entries: Entries, next: Id)

  function NewFolder(t: Forest, p: Id, name: string): Forest {
    Forest(t.entries[t.next := Entry(Some(p), name, Folder, FolderKey(t.next), 0, 1, "", true)], t.next + 1)
  }

  /** The uncached walk from folder p, creating what is missing; None when the index refuses a folder. */
  ghost function Walk(t: Forest, p: Id, parts: seq<string>): Option<(Forest, Id)>
    decreases |parts|
  {
    if parts == [] then Some((t, p))
    else
      match FindChild(t.entries, p, parts[0], Folder)
      case Some(i) => Walk(t, i, parts[1..])
      case None =>
        if UniqueNames(NewFolder(t, p, parts[0]).entries)
        then Walk(NewFolder(t, p, parts[0]), t.next, parts[1..]) else None
  }

  /** The folder an existing path leads to. */
  ghost function Lookup(es: Entries, p: Id, parts: seq<string>): Option<Id>
    decreases |parts|
  {
    if parts == [] then Some(p)
    else
      match FindChild(es, p, parts[0], Folder)
      case Some(i) => Lookup(es, i, parts[1..])
      case None => None
  }

  ghost function WalkAll(t: Forest, p: Id, dirs: seq<seq<string>>): Option<Forest>
    decreases |dirs|
  {
    if dirs == [] then Some(t)
    else
      match WalkAll(t, p, dirs[..|dirs| - 1])
      case None => None
      case Some(u) =>
        match Walk(u, p, dirs[|dirs| - 1])
        case None => None
        case Some(r) => Some(r.0)
  }

  function Dir(f: Manifest): seq<string> {
    if f.path == [] then [] else f.path[..|f.path| - 1]
  }

  function Dirs(files: seq<Manifest>): (r: seq<seq<string>>)
  {
    seq(|files|, i requires 0 <= i < |files| => Dir(files[i]))
  }

  function LowerPath(path: seq<string>): seq<string> {
    seq(|path|, i requires 0 <= i < |path| => Lower(path[i]))
  }

  predicate SamePath(f: Manifest, g: Manifest) {
    LowerPath(f.path) == LowerPath(g.path)
  }

  function Total(files: seq<Manifest>): nat {
    if files == [] then 0 else Total(files[..|files| - 1]) + files[|files| - 1].expected
  }

  predicate Acceptable(cfg: Config, files: seq<Manifest>) {
    0 < |files| <= cfg.maxFiles
    && (forall k | 0 <= k < |files| :: files[k].expected <= cfg.maxFileBytes)
    && (forall j, k {:trigger SamePath(files[j], files[k])} | 0 <= j < k < |files| :: !SamePath(files[j], files[k]))
    && Total(files) <= cfg.maxBatchBytes
  }

  /** Every directory part survives sanitising; otherwise the batch's folder is not found in the cache. */
  predicate StablePath(dir: seq<string>) {
    forall p {:trigger Stable(p)} | p in dir :: Stable(p)
  }

  predicate Stable(part: string) {
    Sanitize(part) == part && part != ""
  }

  predicate StablePaths(files: seq<Manifest>) {
    forall k | 0 <= k < |files| :: StablePath(Dir(files[k]))
  }

  function RootOr(s: State, parent: Option<Id>): Id {
    if parent.None? then s.root else parent.value
  }

  function NewSession(batch: Id, f: Manifest, folder: Option<Id>): Session {
    Session(batch, folder, f.name, f.expected, 0, f.target, f.expectedVersion, f.hash, Open)
  }

  predicate BatchAdmitted(s: State, p: Id, files: seq<Manifest>) {
    Acceptable(s.cfg, files) && LiveFolder(s.entries, p)
    && s.used + s.reserved + Total(files) <= s.quota && StablePaths(files)
  }

  predicate InBlock(b: Id, n: nat, i: Id) {
    b < i <= b + n
  }

  function NewIds(b: Id, n: nat): set<Id> {
    set i: Id | i <= b + n && InBlock(b, n, i)
  }

  /** One open session per file, numbered in manifest order. */
  ghost function NewSessions(es: Entries, b: Id, p: Id, files: seq<Manifest>): map<Id, Session>
  {
    if files == [] then map[]
    else
      var k := |files| - 1;
      NewSessions(es, b, p, files[..k])[b + 1 + k := NewSession(b, files[k], Lookup(es, p, Dir(files[k])))]
  }

  function NewTemps(b: Id, n: nat): Disk {
    map i | i in NewIds(b, n) :: TempKey(i) := []
  }

  /** Batch b := t.next, its sessions the identifiers that follow. */
  ghost function AfterBatchRows(s: State, t: Forest, p: Id, files: seq<Manifest>, expires: int): State
  {
    var b := t.next;
    s.(next := b + 1 + |files|,
       entries := t.entries,
       batches := s.batches[b := Batch(Total(files), BatchOpen, expires)],
       sessions := s.sessions + NewSessions(t.entries, b, p, files),
       disk := s.disk + NewTemps(b, |files|),
       reserved := s.reserved + Total(files))
  }

  ghost function AfterCreateBatch(s: State, parent: Option<Id>, files: seq<Manifest>, expires: int): State {
    var p := RootOr(s, parent);
    if !BatchAdmitted(s, p, files) then s
    else
      match WalkAll(Forest(s.entries, s.next), p, Dirs(files))
      case None => s
      case Some(t) => AfterBatchRows(s, t, p, files, expires)
  }

  function SizeOf(d: Disk, k: Key): nat {
    if k in d then |d[k]| else 0
  }

  /** os.Truncate: cuts, or extends with zero bytes. */
  function Resize(b: Bytes, n: nat): Bytes {
    if n <= |b| then b[..n] else b + seq(n - |b|, _ => 0)
  }

  function Limit(b: Bytes, n: nat): Bytes {
    if n <= |b| then b[..n] else b
  }

  datatype Reply = Accepted(offset: nat) | Conflict(offset: nat) | Rejected | NoReply

  predicate ChunkAdmissible(s: State, sid: Id, now: int, offset: int, length: int) {
    offset >= 0 && 0 <= length <= s.cfg.chunkBytes
    && sid in s.sessions && s.sessions[sid].batch in s.batches
    && s.sessions[sid].status == Open && now <= s.batches[s.sessions[sid].batch].expires
    // repairing a missing temporary file fails
    && (TempKey(sid) in s.disk || s.sessions[sid].received == 0)
  }

  /** The temporary file after the repair from received_bytes. */
  function Repaired(s: State, sid: Id): Disk
    requires sid in s.sessions
  {
    var k, r := TempKey(sid), s.sessions[sid].received;
    if k in s.disk && |s.disk[k]| != r then s.disk[k := Resize(s.disk[k], r)] else s.disk
  }

  /** Writing an admitted chunk at the end of the repaired file; the commit of received_bytes comes last. */
  function Stored(s: State, sid: Id, offset: nat, length: nat, body: Bytes, fault: Fault): (State, Reply)
    requires sid in s.sessions
  {
    var k, u := TempKey(sid), s.sessions[sid];
    var base := if k in s.disk then s.disk[k] else [];
    var w := Limit(body, length + 1);
    if fault.Crash? then (s.(disk := s.disk[k := base + Limit(w, fault.written)]), NoReply)
    else if fault.BodyBroken? || |w| != length || fault.CommitFails? then (s.(disk := s.disk[k := base]), Rejected)
    else
      (s.(disk := s.disk[k := base + w], sessions := s.sessions[sid := u.(received := offset + length)]),
       Accepted(offset + length))
  }

  function Appended(s: State, sid: Id, now: int, offset: int, length: int, body: Bytes, fault: Fault): (State, Reply)
  {
    if !ChunkAdmissible(s, sid, now, offset, length) then (s, Rejected)
    else
      var u, t := s.sessions[sid], s.(disk := Repaired(s, sid));
      if offset != u.received then (t, Conflict(u.received))
      else if offset + length > u.expected then (t, Rejected)
      else Stored(t, sid, offset, length, body, fault)
  }

  predicate CanComplete(s: State, sid: Id, digest: string) {
    sid in s.sessions && s.sessions[sid].batch in s.batches &&
    var u := s.sessions[sid];
    u.status == Open && s.batches[u.batch].status == BatchOpen
    && u.received == u.expected
    && TempKey(sid) in s.disk && |s.disk[TempKey(sid)]| == u.expected
    && (u.hash == "" || Lower(digest) == Lower(u.hash))
    && (u.target.Some? ==>
          u.target.value in s.entries && s.entries[u.target.value].live
          && u.expectedVersion == Some(s.entries[u.target.value].version))
  }

  /** The entry that a completed session writes, under the new blob key. */
  function CompletedId(s: State, sid: Id): Id
    requires sid in s.sessions
  {
    if s.sessions[sid].target.Some? then s.sessions[sid].target.value else s.next + 1
  }

  function CompletedEntry(s: State, sid: Id, digest: string): Entry
    requires CanComplete(s, sid, digest)
  {
    var u := s.sessions[sid];
    if u.target.Some? then
      var was := s.entries[u.target.value];
      was.(key := BlobKey(s.next), size := u.expected, hash := digest, version := was.version + 1)
    else Entry(u.parent, u.name, File, BlobKey(s.next), u.expected, 1, digest, true)
  }

  /** Completion goes through: all checks pass, nothing fails and the name index admits the row. */
  predicate Completes(s: State, sid: Id, digest: string, fault: Fault) {
    CanComplete(s, sid, digest) && fault == NoFault
    && UniqueNames(s.entries[CompletedId(s, sid) := CompletedEntry(s, sid, digest)])
  }

  predicate HasOpen(ss: map<Id, Session>, b: Id) {
    exists i | i in ss :: ss[i].status == Open && ss[i].batch == b
  }

  function AfterComplete(s: State, sid: Id, digest: string, fault: Fault): State {
    if !CanComplete(s, sid, digest) then s
    else
      var u, temp, blob := s.sessions[sid], TempKey(sid), BlobKey(s.next);
      var moved := (s.disk - {temp})[blob := s.disk[temp]];
      if fault.Crash? then s.(next := s.next + 2, disk := moved)
      else if !Completes(s, sid, digest, fault) then s.(next := s.next + 2, disk := moved - {blob})
      else
        var id, e := CompletedId(s, sid), CompletedEntry(s, sid, digest);
        var oldSize := if u.target.Some? then s.entries[id].size else 0;
        var ss := s.sessions[sid := u.(status := Completed)];
        var b := s.batches[u.batch];
        s.(next := s.next + 2,
           disk := moved,
           entries := s.entries[id := e],
           versions := if u.target.Some? then WithVersion(s.versions, id, s.entries[id]) else s.versions,
           log := s.log + [Change(Upsert, id, RowOf(e))],
           sessions := ss,
           used := Clamp(s.used + u.expected - oldSize),
           reserved := Clamp(s.reserved - u.expected),
           batches := s.batches[u.batch := b.(reserved := Clamp(b.reserved - u.expected),
                                              status := if HasOpen(ss, u.batch) then b.status else BatchDone)])
  }

  function OpenIds(ss: map<Id, Session>, b: Id): set<Id> {
    set i | i in ss && ss[i].batch == b && ss[i].status == Open
  }

  function TempKeys(ids: set<Id>): set<Key> {
    set i | i in ids :: TempKey(i)
  }

  function Settled(ss: map<Id, Session>, b: Id, status: SessionStatus): map<Id, Session> {
    map i | i in ss :: if ss[i].batch == b && ss[i].status == Open then ss[i].(status := status) else ss[i]
  }

  /** Aborting and expiring a batch differ only in the statuses they leave. */
  function Closed(s: State, b: Id, batchStatus: BatchStatus, sessionStatus: SessionStatus): State
    requires b in s.batches
  {
    s.(reserved := Clamp(s.reserved - s.batches[b].reserved),
       batches := s.batches[b := s.batches[b].(reserved := 0, status := batchStatus)],
       sessions := Settled(s.sessions, b, sessionStatus),
       disk := s.disk - TempKeys(OpenIds(s.sessions, b)))
  }

  function AfterAbort(s: State, b: Id): State {
    if b in s.batches && s.batches[b].status == BatchOpen then Closed(s, b, BatchAborted, Aborted) else s
  }

  function AfterExpire(s: State, b: Id, now: int): State {
    if b in s.batches && s.batches[b].status == BatchOpen && s.batches[b].expires <= now
    then Closed(s, b, BatchExpired, Expired) else s
  }

  // ---------------------------------------------------------------- direct uploads

  const ATTEMPTS: nat := 30

  /** The name an upload settles on and the file it overwrites, if any. */
  ghost function Settle(es: Entries, p: Id, base: string, mode: Mode, attempt: nat): Option<(string, Option<Id>)>
    decreases ATTEMPTS - attempt
  {
    if attempt >= ATTEMPTS then None
    else
      var name := if attempt == 0 then base else NextUniqueName(base, attempt + 1);
      match FindChild(es, p, name, File)
      case None => Some((name, None))
      case Some(i) =>
        match mode
        case Overwrite => Some((name, Some(i)))
        case Rename => Settle(es, p, base, mode, attempt + 1)
        case Refuse => None
  }

  ghost function AfterInsert(s: State, p: Id, name: string, data: Bytes): State {
    var e := Entry(Some(p), name, File, BlobKey(s.next), |data|, 1, "", true);
    var es := s.entries[s.next + 1 := e];
    if !UniqueNames(es) then s
    else s.(next := s.next + 2, entries := es, used := s.used + |data|,
            disk := s.disk[BlobKey(s.next) := data], log := s.log + [Change(Upsert, s.next + 1, RowOf(e))])
  }

  /** Overwriting deletes the previous blob without asking whether a version still refers to it. */
  function AfterOverwrite(s: State, i: Id, data: Bytes): State
    requires i in s.entries
  {
    var was := s.entries[i];
    var e := was.(key := BlobKey(s.next), size := |data|, version := was.version + 1);
    s.(next := s.next + 2, entries := s.entries[i := e], used := s.used - was.size + |data|,
       disk := s.disk[BlobKey(s.next) := data] - {was.key}, log := s.log + [Change(Upsert, i, RowOf(e))])
  }

  predicate UploadAdmitted(s: State, p: Id, base: string, data: Bytes) {
    LiveFolder(s.entries, p) && base != "" && |data| <= s.cfg.maxFileBytes && s.used + |data| <= s.quota
  }

  ghost function AfterUpload(s: State, p: Id, rawName: string, data: Bytes, mode: Mode): State {
    var base := Sanitize(rawName);
    if !UploadAdmitted(s, p, base, data) then s
    else
      match Settle(s.entries, p, base, mode, 0)
      case None => s
      case Some((name, None)) => AfterInsert(s, p, name, data)
      case Some((_, Some(i))) => if i in s.entries then AfterOverwrite(s, i, data) else s
  }

  // ---------------------------------------------------------------- runs

  datatype Step =
    | CreateFolder(parent: Id, name: string)
    | CreateBatch(into: Option<Id>, files: seq<Manifest>, expires: int)
    | AppendChunk(session: Id, now: int, offset: int, length: int, body: Bytes, fault: Fault)
    | CompleteFile(session: Id, digest: string, fault: Fault)
    | AbortBatch(batch: Id)
    | ExpireBatch(batch: Id, now: int)
    | Upload(parent: Id, name: string, data: Bytes, mode: Mode)
    | Move(id: Id, to: Id)
    | RenameTo(id: Id, name: string)
    | Delete(id: Id, order: seq<Id>)
    | Restore(id: Id, order: seq<Id>)
    | Purge(id: Id, order: seq<Id>)
    | PruneVersions(id: Id, keep: nat)
    | Collect(keys: set<Key>)
    | SnapshotVersion(id: Id)
    | RestoreVersion(id: Id, version: nat)

  ghost function Apply(s: State, step: Step): State {
    match step
    case CreateFolder(p, name) => AfterCreateFolder(s, p, name)
    case CreateBatch(p, files, expires) => AfterCreateBatch(s, p, files, expires)
    case AppendChunk(sid, now, offset, length, body, fault) => Appended(s, sid, now, offset, length, body, fault).0
    case CompleteFile(sid, digest, fault) => AfterComplete(s, sid, digest, fault)
    case AbortBatch(b) => AfterAbort(s, b)
    case ExpireBatch(b, now) => AfterExpire(s, b, now)
    case Upload(p, name, data, mode) => AfterUpload(s, p, name, data, mode)
    case Move(i, p) => AfterMove(s, i, p)
    case RenameTo(i, name) => AfterRename(s, i, name)
    case Delete(i, order) => AfterDelete(s, i, order)
    case Restore(i, order) => AfterRestore(s, i, order)
    case Purge(i, order) => AfterPurge(s, i, order)
    case PruneVersions(i, keep) => AfterPrune(s, i, keep)
    case Collect(keys) => AfterCollect(s, keys)
    case SnapshotVersion(i) => AfterSnapshot(s, i)
    case RestoreVersion(i, v) => AfterRestoreVersion(s, i, v)
  }

  ghost function Run(s: State, steps: seq<Step>): State {
    if steps == [] then s else Apply(Run(s, steps[..|steps| - 1]), steps[|steps| - 1])
  }

  lemma OneMoreId(b: Id, k: nat)
    ensures NewIds(b, k + 1) == NewIds(b, k) + {b + 1 + k}
  {
    assert InBlock(b, k + 1, b + 1 + k);
    forall i: Id ensures i in NewIds(b, k + 1) <==> i in NewIds(b, k) || i == b + 1 + k {
      assert InBlock(b, k + 1, i) <==> InBlock(b, k, i) || i == b + 1 + k;
    }
  }

  /** What a row of a new batch says. */
  ghost predicate FreshRow(u: Session, es: Entries, b: Id, p: Id, f: Manifest) {
    u.batch == b && u.status == Open && u.received == 0 && u.expected == f.expected && u.name == f.name
    && u.parent == Lookup(es, p, Dir(f))
  }

  lemma {:induction false} NewSessionRow(es: Entries, b: Id, p: Id, files: seq<Manifest>, j: nat)
    requires j < |files|
    ensures var ns := NewSessions(es, b, p, files);
            b + 1 + j in ns && FreshRow(ns[b + 1 + j], es, b, p, files[j])
    decreases |files|
  {
    var k := |files| - 1;
    if j < k {
      assert files[..k][j] == files[j];
      NewSessionRow(es, b, p, files[..k], j);
    }
  }

  lemma {:induction false} NewSessionIds(es: Entries, b: Id, p: Id, files: seq<Manifest>)
    ensures NewSessions(es, b, p, files).Keys == NewIds(b, |files|)
    decreases |files|
  {
    if files == [] {
      assert NewIds(b, 0) == {};
    } else {
      NewSessionIds(es, b, p, files[..|files| - 1]);
      OneMoreId(b, |files| - 1);
    }
  }

  lemma NewSessionAt(es: Entries, b: Id, p: Id, files: seq<Manifest>, i: Id)
    requires i in NewIds(b, |files|)
    ensures InBlock(b, |files|, i)
    ensures var ns := NewSessions(es, b, p, files);
            i in ns && FreshRow(ns[i], es, b, p, files[i - b - 1])
  {
    NewSessionRow(es, b, p, files, i - b - 1);
  }

  lemma NewSessionRows(es: Entries, b: Id, p: Id, files: seq<Manifest>)
    ensures NewSessions(es, b, p, files).Keys == NewIds(b, |files|)
    ensures forall i {:trigger i in NewIds(b, |files|)} :: i in NewIds(b, |files|) ==>
              InBlock(b, |files|, i) && FreshRow(NewSessions(es, b, p, files)[i], es, b, p, files[i - b - 1])
  {
    NewSessionIds(es, b, p, files);
    forall i | i in NewIds(b, |files|)
      ensures InBlock(b, |files|, i) && FreshRow(NewSessions(es, b, p, files)[i], es, b, p, files[i - b - 1])
    {
      NewSessionAt(es, b, p, files, i);
    }
  }

  /** A newly registered user: an empty drive with its root folder. */
  function Init(cfg: Config, quota: nat): State {
    State(cfg, quota, 0, 1, map[0 := Entry(None, "/", Folder, FolderKey(0), 0, 1, "", true)],
          map[], [], 0, 0, map[], map[], map[])
  }

  lemma RunMore(s: State, steps: seq<Step>, step: Step)
    ensures Run(s, steps + [step]) == Apply(Run(s, steps), step)
  {
    assert (steps + [step])[..|steps|] == steps;
  }

  lemma {:induction false} RunAppend(s: State, a: seq<Step>, b: seq<Step>)
    ensures Run(s, a + b) == Run(Run(s, a), b)
    decreases |b|
  {
    if b == [] {
      assert a + b == a;
    } else {
      var k := |b| - 1;
      assert (a + b)[..|a + b| - 1] == a + b[..k];
      RunAppend(s, a, b[..k]);
    }
  }
}
