/**
 * Short runs from a new drive on which the stronger promises fail: the conditions under which the
 * other modules prove them cannot be dropped.
 */
module Failures {
  import opened Sums
  import opened Model
  import opened FolderTree
  import opened Ledger
  import opened Replay
  import opened Blobs
  import opened Uploads
  import opened Retries
  import opened Shelter

  const SAMPLE_BYTE: byte := 7

  /** A folder made on the way to an uploaded file is never logged. */
  lemma BatchFolderUnlogged(cfg: Config, quota: nat)
    requires cfg.maxFiles >= 1
    ensures var files := [Manifest([SAMPLE_NAME, SAMPLE_NAME], SAMPLE_NAME, 0, None, None, "")];
      !Faithful(Init(cfg, quota), Apply(Init(cfg, quota), CreateBatch(None, files, 0)))
  {
    var s := Init(cfg, quota);
    var files := [Manifest([SAMPLE_NAME, SAMPLE_NAME], SAMPLE_NAME, 0, None, None, "")];
    PlainName();
    InitTree(cfg, quota);
    assert Dir(files[0]) == [SAMPLE_NAME];
    assert Dirs(files) == [[SAMPLE_NAME]] && Dirs(files)[..0] == [];
    assert files[..0] == [] && Total(files) == 0;
    var t := Forest(s.entries, s.next);
    assert FindChild(s.entries, 0, SAMPLE_NAME, Folder).None?;
    assert UniqueNames(NewFolder(t, 0, SAMPLE_NAME).entries);
    assert [SAMPLE_NAME][1..] == [];
    assert Walk(t, 0, [SAMPLE_NAME]).Some?;
    assert WalkAll(t, 0, []) == Some(t);
    assert WalkAll(t, 0, Dirs(files)).Some?;
    assert Lookup(s.entries, 0, Dirs(files)[0]).None?;
    assert BatchAdmitted(s, 0, files);
    StepFaithful(s, CreateBatch(None, files, 0));
  }

  // ---------------------------------------------------------------- single steps of the runs

  /** A manifest of one file at the top of the chosen folder. */
  function Sample(expected: nat, target: Option<Id>, version: Option<int>): Manifest {
    Manifest([SAMPLE_NAME], SAMPLE_NAME, expected, target, version, "")
  }

  predicate Roomy(cfg: Config) {
    cfg.maxFiles >= 1 && cfg.maxFileBytes >= 2 && cfg.maxBatchBytes >= 1 && cfg.chunkBytes >= 1
  }

  /** The state with one more open session, of the batch numbered just before it. */
  function OneSession(s: State, p: Id, m: Manifest): State {
    s.(next := s.next + 2, batches := s.batches[s.next := Batch(m.expected, BatchOpen, 0)],
       sessions := s.sessions[s.next + 1 := NewSession(s.next, m, Some(p))],
       disk := s.disk[TempKey(s.next + 1) := []], reserved := s.reserved + m.expected)
  }

  lemma OneFileBatch(s: State, into: Option<Id>, m: Manifest)
    requires Roomy(s.cfg) && LiveFolder(s.entries, RootOr(s, into)) && |m.path| == 1
    requires m.expected <= 1 && s.used + s.reserved + m.expected <= s.quota
    ensures Apply(s, CreateBatch(into, [m], 0)) == OneSession(s, RootOr(s, into), m)
  {
    SampleAdmitted(s, RootOr(s, into), m);
    NoFolders(Forest(s.entries, s.next), RootOr(s, into), m);
    OneRowBatch(s, RootOr(s, into), m);
  }

  lemma SampleAdmitted(s: State, p: Id, m: Manifest)
    requires Roomy(s.cfg) && LiveFolder(s.entries, p) && |m.path| == 1
    requires m.expected <= 1 && s.used + s.reserved + m.expected <= s.quota
    ensures BatchAdmitted(s, p, [m]) && Total([m]) == m.expected
  {
    var files := [m];
    assert files[..0] == [] && Total(files[..0]) == 0;
    assert Dir(files[0]) == [];
  }

  lemma OneRowBatch(s: State, p: Id, m: Manifest)
    requires |m.path| == 1 && Total([m]) == m.expected
    ensures AfterBatchRows(s, Forest(s.entries, s.next), p, [m], 0) == OneSession(s, p, m)
  {
    OneRow(s.entries, s.next, p, m);
    AddOne(s.sessions, s.next + 1, NewSession(s.next, m, Some(p)));
    AddOne(s.disk, TempKey(s.next + 1), []);
  }

  lemma AddOne<K(!new), V>(m: map<K, V>, k: K, v: V)
    ensures m + map[k := v] == m[k := v]
  {
  }

  lemma NoFolders(t: Forest, p: Id, m: Manifest)
    requires |m.path| == 1
    ensures WalkAll(t, p, Dirs([m])) == Some(t)
  {
    assert Dirs([m]) == [[]] && Dirs([m])[..0] == [];
    assert WalkAll(t, p, []) == Some(t) && Walk(t, p, []) == Some((t, p));
  }

  lemma OneRow(es: Entries, b: Id, p: Id, m: Manifest)
    requires |m.path| == 1
    ensures NewSessions(es, b, p, [m]) == map[b + 1 := NewSession(b, m, Some(p))]
    ensures NewTemps(b, 1) == map[TempKey(b + 1) := []]
  {
    var files := [m];
    assert files[..0] == [] && NewSessions(es, b, p, files[..0]) == map[] && Dir(files[0]) == [];
    OneMoreId(b, 0);
    assert NewIds(b, 0) == {} && NewIds(b, 1) == {b + 1};
  }

  /** An empty file of an open batch can be completed at once. */
  lemma EmptyCompletes(s: State, sid: Id)
    requires sid in s.sessions && s.sessions[sid].batch in s.batches && TempKey(sid) in s.disk && s.disk[TempKey(sid)] == []
    requires var u := s.sessions[sid];
      u.status == Open && s.batches[u.batch].status == BatchOpen && u.received == 0 && u.expected == 0 && u.hash == ""
      && (u.target.Some? ==> u.target.value in s.entries && s.entries[u.target.value].live
                             && u.expectedVersion == Some(s.entries[u.target.value].version))
    ensures CanComplete(s, sid, "")
  {
  }

  /** The one byte of a one-byte file, at its first attempt. */
  lemma ByteArrives(s: State, sid: Id)
    requires sid in s.sessions && s.sessions[sid].batch in s.batches && TempKey(sid) in s.disk && s.disk[TempKey(sid)] == []
    requires s.cfg.chunkBytes >= 1 && s.batches[s.sessions[sid].batch].expires == 0
    requires s.sessions[sid].status == Open && s.sessions[sid].received == 0 && s.sessions[sid].expected == 1
    ensures Apply(s, AppendChunk(sid, 0, 0, 1, [SAMPLE_BYTE], NoFault))
            == OneByte(s, sid)
  {
    assert Repaired(s, sid) == s.disk;
    assert Limit([SAMPLE_BYTE], 2) == [SAMPLE_BYTE] && [] + [SAMPLE_BYTE] == [SAMPLE_BYTE];
  }

  lemma Alone(es: Entries, sel: set<Id>, i: Id)
    requires i in es && i in sel && forall d :: d in es ==> es[d].parent != Some(i)
    ensures Subtree(es, sel, i) == {i}
  {
    assert Climbs(es, sel, i, i, 0);
    forall d | d in Subtree(es, sel, i) ensures d == i {
      var n: nat :| Climbs(es, sel, d, i, n);
      SubtreeLeast(es, sel, d, i, n, {i});
    }
  }

  // ---------------------------------------------------------------- reachable states

  /** Some run from a new drive ends here. */
  ghost predicate Reached(cfg: Config, quota: nat, t: State) {
    exists steps :: Run(Init(cfg, quota), steps) == t
  }

  /** Reached, with everything still in order. */
  ghost predicate Good(cfg: Config, quota: nat, t: State) {
    Reached(cfg, quota, t) && LedgerOk(t) && BlobsOk(t)
  }

  lemma GoodStart(cfg: Config, quota: nat)
    ensures Good(cfg, quota, Init(cfg, quota))
  {
    assert Run(Init(cfg, quota), []) == Init(cfg, quota);
    InitLedger(cfg, quota);
    InitBlobs(cfg, quota);
  }

  lemma ReachedMore(cfg: Config, quota: nat, t: State, step: Step, u: State)
    requires Reached(cfg, quota, t) && Apply(t, step) == u
    ensures Reached(cfg, quota, u)
  {
    var steps :| Run(Init(cfg, quota), steps) == t;
    RunMore(Init(cfg, quota), steps, step);
  }

  lemma GoodMore(cfg: Config, quota: nat, t: State, step: Step, u: State)
    requires Good(cfg, quota, t) && Apply(t, step) == u && UsedGuard(t, step) && BlobGuard(t, step)
    ensures Good(cfg, quota, u)
  {
    ReachedMore(cfg, quota, t, step, u);
    StepKeepsTree(t, step);
    StepKeepsReserve(t, step);
    StepKeepsUsed(t, step);
    StepKeepsBlobs(t, step);
  }

  lemma GoodBatch(cfg: Config, quota: nat, s: State, into: Option<Id>, m: Manifest)
    requires Good(cfg, quota, s) && Roomy(s.cfg) && LiveFolder(s.entries, RootOr(s, into)) && |m.path| == 1
    requires m.expected <= 1 && s.used + s.reserved + m.expected <= s.quota
    ensures Good(cfg, quota, OneSession(s, RootOr(s, into), m))
  {
    OneFileBatch(s, into, m);
    GoodMore(cfg, quota, s, CreateBatch(into, [m], 0), OneSession(s, RootOr(s, into), m));
  }

  /** The session with its one byte received. */
  function OneByte(s: State, sid: Id): State
    requires sid in s.sessions
  {
    s.(disk := s.disk[TempKey(sid) := [SAMPLE_BYTE]], sessions := s.sessions[sid := s.sessions[sid].(received := 1)])
  }

  lemma GoodByte(cfg: Config, quota: nat, s: State, p: Id, m: Manifest)
    requires Good(cfg, quota, OneSession(s, p, m)) && s.cfg.chunkBytes >= 1 && m.expected == 1
    ensures Good(cfg, quota, OneByte(OneSession(s, p, m), s.next + 1))
  {
    var t, sid := OneSession(s, p, m), s.next + 1;
    ByteArrives(t, sid);
    GoodMore(cfg, quota, t, AppendChunk(sid, 0, 0, 1, [SAMPLE_BYTE], NoFault), OneByte(t, sid));
  }

  // ---------------------------------------------------------------- a file outlives its folder

  /** Folder 1 under the root. */
  function OneFolder(cfg: Config, quota: nat): State {
    var s := Init(cfg, quota);
    var e := Entry(Some(0), SAMPLE_NAME, Folder, FolderKey(1), 0, 1, "", true);
    s.(next := 2, entries := s.entries[1 := e], log := [Change(Upsert, 1, RowOf(e))])
  }

  lemma CreateOne(cfg: Config, quota: nat)
    ensures Apply(Init(cfg, quota), CreateFolder(0, SAMPLE_NAME)) == OneFolder(cfg, quota)
    ensures Good(cfg, quota, OneFolder(cfg, quota))
  {
    PlainName();
    assert UniqueNames(OneFolder(cfg, quota).entries);
    GoodStart(cfg, quota);
    GoodMore(cfg, quota, Init(cfg, quota), CreateFolder(0, SAMPLE_NAME), OneFolder(cfg, quota));
  }

  /** Session 3 uploads an empty file into folder 1, which is then trashed. */
  function FolderTrashed(cfg: Config, quota: nat): State {
    var s := OneSession(OneFolder(cfg, quota), 1, Sample(0, None, None));
    var e := s.entries[1].(live := false, version := 2);
    s.(entries := s.entries[1 := e], log := s.log + [Change(Trash, 1, RowOf(e))])
  }

  lemma TrashOne(cfg: Config, quota: nat)
    ensures Apply(OneSession(OneFolder(cfg, quota), 1, Sample(0, None, None)), Delete(1, [1])) == FolderTrashed(cfg, quota)
  {
    var s := OneSession(OneFolder(cfg, quota), 1, Sample(0, None, None));
    Alone(s.entries, LiveIds(s.entries), 1);
    assert Enumerates([1], {1});
    OneChange(Trash, 1, Flip(s.entries, {1}, false));
    assert Flip(s.entries, {1}, false) == FolderTrashed(cfg, quota).entries;
  }

  lemma TrashFolder(cfg: Config, quota: nat)
    requires Roomy(cfg)
    ensures Good(cfg, quota, FolderTrashed(cfg, quota))
  {
    var s, m := OneFolder(cfg, quota), Sample(0, None, None);
    CreateOne(cfg, quota);
    GoodBatch(cfg, quota, s, Some(1), m);
    TrashOne(cfg, quota);
    GoodMore(cfg, quota, OneSession(s, 1, m), Delete(1, [1]), FolderTrashed(cfg, quota));
  }

  lemma OneChange(op: Op, i: Id, es: Entries)
    requires i in es
    ensures ChangeRows(op, [i], es) == [Change(op, i, RowOf(es[i]))]
  {
    assert [i][..0] == [] && ChangeRows(op, [], es) == [];
  }

  /** Trash the folder, then complete: the live file lies in a trashed folder. */
  lemma FileInTrashedFolder(cfg: Config, quota: nat) returns (t: State, step: Step)
    requires Roomy(cfg)
    ensures Reached(cfg, quota, t) && Sheltered(t.entries) && !Sheltered(Apply(t, step).entries)
  {
    t, step := FolderTrashed(cfg, quota), CompleteFile(3, "", NoFault);
    TrashFolder(cfg, quota);
    EmptyCompletes(t, 3);
    RoomMeansUnique(t, 3, "");
    StepShelters(t, step);
  }

  /** The trashed folder purged as well: its session has lost its parent. */
  function FolderPurged(cfg: Config, quota: nat): State {
    var s := FolderTrashed(cfg, quota);
    s.(entries := s.entries - {1}, sessions := s.sessions[3 := s.sessions[3].(parent := None)],
       log := s.log + [Change(Purged, 1, RowOf(s.entries[1]))])
  }

  lemma PurgeOne(cfg: Config, quota: nat)
    ensures Apply(FolderTrashed(cfg, quota), Purge(1, [1])) == FolderPurged(cfg, quota)
  {
    var s := FolderTrashed(cfg, quota);
    Alone(s.entries, s.entries.Keys, 1);
    assert Enumerates([1], {1});
    OneChange(Purged, 1, s.entries);
    PurgedRows(cfg, quota);
  }

  lemma PurgedRows(cfg: Config, quota: nat)
    ensures var s, t := FolderTrashed(cfg, quota), FolderPurged(cfg, quota);
      && Without(s.entries, {1}) == t.entries && Detach(s.sessions, {1}) == t.sessions
      && FileSizes(s.entries, {1}) == map[] && WithoutVersions(s.versions, {1}) == t.versions
  {
    assert FileSizes(FolderTrashed(cfg, quota).entries, {1}) == map[];
  }

  lemma PurgeFolder(cfg: Config, quota: nat)
    requires Roomy(cfg)
    ensures var t := FolderPurged(cfg, quota); Good(cfg, quota, t) && Rooted(t.entries, t.root)
  {
    TrashFolder(cfg, quota);
    PurgeOne(cfg, quota);
    var t := FolderPurged(cfg, quota);
    GoodMore(cfg, quota, FolderTrashed(cfg, quota), Purge(1, [1]), t);
    RootedExact(t.entries, 0, t.next);
  }

  lemma LooseCompletes(cfg: Config, quota: nat)
    requires TreeOk(FolderPurged(cfg, quota))
    ensures !RootGuard(FolderPurged(cfg, quota), CompleteFile(3, "", NoFault))
  {
    EmptyCompletes(FolderPurged(cfg, quota), 3);
    LowerKeepsSlash(SAMPLE_NAME);
    RoomMeansUnique(FolderPurged(cfg, quota), 3, "");
  }

  /** Purge the folder as well, then complete: the live file hangs from nothing. */
  lemma FileWithoutFolder(cfg: Config, quota: nat) returns (t: State, step: Step)
    requires Roomy(cfg)
    ensures Reached(cfg, quota, t) && Rooted(t.entries, t.root) && !Rooted(Apply(t, step).entries, t.root)
  {
    t, step := FolderPurged(cfg, quota), CompleteFile(3, "", NoFault);
    PurgeFolder(cfg, quota);
    LooseCompletes(cfg, quota);
    StepRoots(t, step);
  }

  // ---------------------------------------------------------------- a completion that loses the data

  /** Session 2 has received its only byte when folder 3 takes the file's name. */
  function NameTaken(cfg: Config, quota: nat): State {
    var s := OneByte(OneSession(Init(cfg, quota), 0, Sample(1, None, None)), 2);
    var e := Entry(Some(0), SAMPLE_NAME, Folder, FolderKey(3), 0, 1, "", true);
    s.(next := 4, entries := s.entries[3 := e], log := [Change(Upsert, 3, RowOf(e))])
  }

  lemma TakeOne(cfg: Config, quota: nat)
    ensures Apply(OneByte(OneSession(Init(cfg, quota), 0, Sample(1, None, None)), 2), CreateFolder(0, SAMPLE_NAME))
            == NameTaken(cfg, quota)
  {
    PlainName();
    assert UniqueNames(NameTaken(cfg, quota).entries);
  }

  lemma TakeName(cfg: Config, quota: nat)
    requires Roomy(cfg) && quota >= 1
    ensures Good(cfg, quota, NameTaken(cfg, quota))
  {
    var s, m := Init(cfg, quota), Sample(1, None, None);
    GoodStart(cfg, quota);
    GoodBatch(cfg, quota, s, None, m);
    GoodByte(cfg, quota, s, 0, m);
    TakeOne(cfg, quota);
    GoodMore(cfg, quota, OneByte(OneSession(s, 0, m), 2), CreateFolder(0, SAMPLE_NAME), NameTaken(cfg, quota));
  }

  /** The name is taken between upload and completion: the failing completion loses the data. */
  lemma NameTakenLoses(cfg: Config, quota: nat) returns (t: State, sid: Id, digest: string)
    requires Roomy(cfg) && quota >= 1
    ensures Reached(cfg, quota, t) && CanComplete(t, sid, digest)
    ensures Lost(Apply(t, CompleteFile(sid, digest, NoFault)), sid)
  {
    t, sid, digest := NameTaken(cfg, quota), 2, "";
    TakeName(cfg, quota);
    assert Clash(t.entries[CompletedId(t, 2) := CompletedEntry(t, 2, "")], CompletedId(t, 2), 3);
    LostExact(t, 2, "", NoFault);
  }

  // ---------------------------------------------------------------- a version shared and overwritten

  /** A one-byte file under the root, as entry 2 with blob 1. */
  function OneFile(cfg: Config, quota: nat): State {
    var s := Init(cfg, quota);
    var e := Entry(Some(0), SAMPLE_NAME, File, BlobKey(1), 1, 1, "", true);
    s.(next := 3, entries := s.entries[2 := e], used := 1, disk := map[BlobKey(1) := [SAMPLE_BYTE]],
       log := [Change(Upsert, 2, RowOf(e))])
  }

  lemma UploadOne(cfg: Config, quota: nat)
    requires cfg.maxFileBytes >= 1 && quota >= 1
    ensures Apply(Init(cfg, quota), Upload(0, SAMPLE_NAME, [SAMPLE_BYTE], Refuse)) == OneFile(cfg, quota)
  {
    var s := Init(cfg, quota);
    PlainName();
    assert FindChild(s.entries, 0, SAMPLE_NAME, File).None?;
    assert Settle(s.entries, 0, SAMPLE_NAME, Refuse, 0) == Some((SAMPLE_NAME, None));
    assert UniqueNames(OneFile(cfg, quota).entries);
  }

  lemma GoodFile(cfg: Config, quota: nat)
    requires Roomy(cfg) && quota >= 2
    ensures Good(cfg, quota, OneFile(cfg, quota))
  {
    GoodStart(cfg, quota);
    UploadOne(cfg, quota);
    var s := Init(cfg, quota);
    PlainName();
    assert FindChild(s.entries, 0, SAMPLE_NAME, File).None?;
    GoodMore(cfg, quota, s, Upload(0, SAMPLE_NAME, [SAMPLE_BYTE], Refuse), OneFile(cfg, quota));
  }

  /** An empty replacement of entry 2, through a batch of its own. */
  function Replacement(v: nat): Manifest {
    Sample(0, Some(2), Some(v))
  }

  /** The replacement completed: the old content is filed as a version. */
  function Replaced(s: State): State
    requires 2 in s.entries
  {
    var was, b, sid := s.entries[2], s.next, s.next + 1;
    var e := was.(key := BlobKey(s.next + 2), size := 0, hash := "", version := was.version + 1);
    var m := Replacement(was.version);
    s.(next := s.next + 4, entries := s.entries[2 := e], versions := WithVersion(s.versions, 2, was),
       used := s.used - was.size, disk := s.disk[BlobKey(s.next + 2) := []],
       batches := s.batches[b := Batch(0, BatchDone, 0)],
       sessions := s.sessions[sid := NewSession(b, m, Some(0)).(status := Completed)],
       log := s.log + [Change(Upsert, 2, RowOf(e))])
  }

  /** A live file under the root, with nothing of later identifiers about. */
  ghost predicate Replaceable(s: State) {
    && LedgerOk(s) && s.root == 0 && Roomy(s.cfg) && 2 in s.entries && s.entries[2].kind == File && s.entries[2].live
    && s.reserved == 0 && s.used + s.reserved <= s.quota && TempKey(s.next + 1) !in s.disk
  }

  lemma ReplaceOnce(s: State)
    requires Replaceable(s)
    ensures Apply(OneSession(s, 0, Replacement(s.entries[2].version)), CompleteFile(s.next + 1, "", NoFault)) == Replaced(s)
  {
    var v := s.entries[2].version;
    var t, sid := OneSession(s, 0, Replacement(v)), s.next + 1;
    OneFileBatch(s, None, Replacement(v));
    StepKeepsTree(s, CreateBatch(None, [Replacement(v)], 0));
    EmptyCompletes(t, sid);
    ReplacementFits(t, sid, "");
    SizesNonNegative(s.entries);
    AfterReplacement(s, t, sid);
  }

  lemma LastOfBatch(s: State, u: Session, b: Id)
    requires ReserveOk(s) && b == s.next && u.status == Completed
    ensures !HasOpen(s.sessions[s.next + 1 := u], b)
  {
    var ss := s.sessions[s.next + 1 := u];
    forall i | i in ss ensures !(ss[i].status == Open && ss[i].batch == b) {
      if i != s.next + 1 { assert s.sessions[i].batch < s.next; }
    }
  }

  lemma AfterReplacement(s: State, t: State, sid: Id)
    requires Replaceable(s) && sid == s.next + 1 && t == OneSession(s, 0, Replacement(s.entries[2].version))
    requires Completes(t, sid, "", NoFault) && s.entries[2].size <= s.used
    ensures AfterComplete(t, sid, "", NoFault) == Replaced(s)
  {
    var done := t.sessions[sid].(status := Completed);
    LastOfBatch(s, done, s.next);
    assert t.sessions[sid := done] == s.sessions[sid := done];
    WithoutTemp(s.disk, TempKey(sid), BlobKey(t.next));
  }

  lemma WithoutTemp(d: Disk, temp: Key, blob: Key)
    requires temp !in d && temp != blob
    ensures (d[temp := []] - {temp})[blob := []] == d[blob := []]
  {
  }

  lemma GoodReplacement(cfg: Config, quota: nat, s: State)
    requires Good(cfg, quota, s) && Replaceable(s)
    ensures Good(cfg, quota, Replaced(s))
  {
    var m, sid := Replacement(s.entries[2].version), s.next + 1;
    var t := OneSession(s, 0, m);
    GoodBatch(cfg, quota, s, None, m);
    ReplaceOnce(s);
    GoodMore(cfg, quota, t, CompleteFile(sid, "", NoFault), Replaced(s));
  }

  function Versions2(k: nat): set<(Id, nat)> {
    set v: nat | v <= k && v >= 1 :: (2, v)
  }

  lemma {:induction false} ManyVersions(k: nat)
    ensures |Versions2(k)| == k
  {
    if k == 0 {
      assert Versions2(0) == {};
    } else {
      ManyVersions(k - 1);
      assert Versions2(k) == Versions2(k - 1) + {(2, k)};
    }
  }

  /** Entry 2 after k replacements: k versions, of which only the first holds blob 1. */
  ghost predicate Chain(s: State, k: nat) {
    && Replaceable(s) && s.next > 1 && s.entries.Keys == {0, 2} && s.entries[0].kind == Folder
    && s.entries[0].key == FolderKey(0) && s.entries[0].live && s.entries[0].parent.None?
    && s.entries[2].name == SAMPLE_NAME && s.entries[2].parent == Some(0) && s.entries[2].version == k + 1
    && s.entries[2].size == (if k == 0 then 1 else 0) && s.used == s.entries[2].size
    && (s.entries[2].key == BlobKey(1) <==> k == 0)
    && s.versions.Keys == Versions2(k)
    && (k > 0 ==> s.versions[(2, 1)].key == BlobKey(1) && s.versions[(2, 1)].size == 1)
    && (forall v: nat :: 2 <= v <= k ==> s.versions[(2, v)].key != BlobKey(1))
    && (forall i: Id :: i >= s.next ==> TempKey(i) !in s.disk)
  }

  lemma ChainStart(cfg: Config, quota: nat)
    requires Roomy(cfg) && quota >= 2
    ensures Good(cfg, quota, OneFile(cfg, quota)) && Chain(OneFile(cfg, quota), 0)
  {
    GoodFile(cfg, quota);
    assert Versions2(0) == {};
  }

  lemma ChainVersions(s: State, k: nat)
    requires Chain(s, k)
    ensures Replaced(s).versions == s.versions[(2, k + 1) := Version(s.entries[2].key, s.entries[2].size, s.entries[2].hash)]
    ensures Replaced(s).versions.Keys == Versions2(k + 1)
  {
    assert (2, k + 1) !in Versions2(k);
    assert Versions2(k + 1) == Versions2(k) + {(2, k + 1)};
  }

  lemma ChainMore(cfg: Config, quota: nat, s: State, k: nat)
    requires Good(cfg, quota, s) && Chain(s, k) && LedgerOk(Replaced(s))
    ensures Chain(Replaced(s), k + 1)
  {
    ChainVersions(s, k);
    ChainKeys(s, k);
  }

  lemma ChainKeys(s: State, k: nat)
    requires Chain(s, k) && Replaced(s).versions == s.versions[(2, k + 1) := Version(s.entries[2].key, s.entries[2].size, s.entries[2].hash)]
    ensures forall v: nat :: 2 <= v <= k + 1 ==> (2, v) in Replaced(s).versions && Replaced(s).versions[(2, v)].key != BlobKey(1)
    ensures (2, 1) in Replaced(s).versions
    ensures Replaced(s).versions[(2, 1)].key == BlobKey(1) && Replaced(s).versions[(2, 1)].size == 1
  {
    forall v: nat | 1 <= v <= k ensures (2, v) in s.versions { assert (2, v) in Versions2(k); }
  }

  /** The pruning after each replacement finds nothing to prune. */
  lemma NothingPruned(s: State, k: nat)
    requires s.versions.Keys == Versions2(k) && k <= KEEP
    ensures Apply(s, PruneVersions(2, KEEP)) == s
  {
    FewVersions(s.versions, k);
    PrunesNothing(s);
  }

  lemma PrunesNothing(s: State)
    requires Doomed(s.versions, 2, KEEP) == {}
    ensures AfterPrune(s, 2, KEEP) == s
  {
    assert s.versions - {} == s.versions;
    assert AfterCollect(s, {}) == s;
  }

  lemma FewVersions(vs: Versions, k: nat)
    requires vs.Keys == Versions2(k) && k <= KEEP
    ensures Doomed(vs, 2, KEEP) == {}
  {
    ManyVersions(k);
    forall key | key in vs && key.0 == 2 ensures |Newer(vs, 2, key.1)| < KEEP {
      SmallerThan(Newer(vs, 2, key.1), Versions2(k), key);
    }
  }

  lemma SmallerThan(a: set<(Id, nat)>, b: set<(Id, nat)>, x: (Id, nat))
    requires a <= b && x in b && x !in a
    ensures |a| < |b|
  {
    assert b == a + (b - a) && x in b - a;
  }

  /** k replacements, each with the pruning that follows it. */
  lemma {:induction false} ChainReached(cfg: Config, quota: nat, k: nat) returns (s: State)
    requires Roomy(cfg) && quota >= 2 && k <= KEEP
    ensures Good(cfg, quota, s) && Chain(s, k) && Apply(s, PruneVersions(2, KEEP)) == s
    ensures s.quota == quota && s.cfg == cfg
  {
    if k == 0 {
      ChainStart(cfg, quota);
      s := OneFile(cfg, quota);
      NothingPruned(s, 0);
    } else {
      var t := ChainReached(cfg, quota, k - 1);
      GoodReplacement(cfg, quota, t);
      ChainMore(cfg, quota, t, k - 1);
      s := Replaced(t);
      NothingPruned(s, k);
    }
  }

  /** Restoring a version of another size: nothing is logged and nothing is billed. */
  lemma RestoreUnlogged(cfg: Config, quota: nat) returns (t: State, step: Step)
    requires Roomy(cfg) && quota >= 2
    ensures Good(cfg, quota, t) && step.RestoreVersion?
    ensures !Faithful(t, Apply(t, step)) && !UsedOk(Apply(t, step)) && BlobsOk(Apply(t, step))
  {
    t := ChainReached(cfg, quota, 1);
    step := RestoreVersion(2, 1);
    assert (2, 1) in Versions2(1);
    OneNewer(t);
    StepFaithful(t, step);
    StepKeepsUsed(t, step);
    StepKeepsBlobs(t, step);
  }

  lemma OneNewer(t: State)
    requires Chain(t, 1)
    ensures (2, 1) in t.versions && Survives(t, 2, 1)
  {
    var vs := WithVersion(t.versions, 2, t.entries[2]);
    assert (2, 1) in Versions2(1) && (2, 2) !in Versions2(1);
    assert Newer(vs, 2, 1) == {(2, 2)};
  }

  /** Entry 2 shares blob 1 with its first version. */
  ghost predicate SharedFile(u: State) {
    && TreeOk(u) && BlobsOk(u) && Roomy(u.cfg) && u.used + 2 <= u.quota && u.next > 1
    && u.entries.Keys == {0, 2} && LiveFolder(u.entries, 0) && u.entries[2].live && u.entries[2].kind == File
    && u.entries[2].name == SAMPLE_NAME && u.entries[2].parent == Some(0) && u.entries[2].key == BlobKey(1)
    && (2, 1) in u.versions && u.versions[(2, 1)].key == BlobKey(1) && Shared(u, 2)
  }

  lemma SharedRows(t: State)
    requires Chain(t, 1)
    ensures var u := AfterRestoreVersion(t, 2, 1);
      && (2, 1) in t.versions
      && u == t.(versions := u.versions, disk := u.disk,
                 entries := t.entries[2 := t.entries[2].(key := BlobKey(1), size := 1, hash := t.versions[(2, 1)].hash, version := 3)])
      && (2, 1) in u.versions && u.versions[(2, 1)].key == BlobKey(1)
  {
    var vs := WithVersion(t.versions, 2, t.entries[2]);
    assert (2, 1) in Versions2(1) && (2, 2) !in Versions2(1);
    assert vs.Keys == {(2, 1), (2, 2)};
    assert |{(2, 1), (2, 2)}| == 2;
    forall key | key in vs ensures |Newer(vs, 2, key.1)| < KEEP { SmallerThan(Newer(vs, 2, key.1), vs.Keys, key); }
    assert Doomed(vs, 2, KEEP) == {};
  }

  lemma SharedSound(s: State)
    requires LedgerOk(s) && BlobsOk(s) && Chain(s, 1)
    ensures TreeOk(AfterRestoreVersion(s, 2, 1)) && BlobsOk(AfterRestoreVersion(s, 2, 1))
  {
    OneNewer(s);
    FolderTree.RestoreVersionKeeps(s, 2, 1);
    Blobs.RestoreVersionKeeps(s, 2, 1);
  }

  lemma SharedShape(s: State, u: State)
    requires Chain(s, 1) && u == AfterRestoreVersion(s, 2, 1) && TreeOk(u) && BlobsOk(u) && s.quota >= 2
    ensures SharedFile(u)
  {
    SharedRows(s);
    assert u.versions[(2, 1)].key == u.entries[2].key;
  }

  lemma ReachedRestore(cfg: Config, quota: nat, s: State)
    requires Reached(cfg, quota, s)
    ensures Reached(cfg, quota, AfterRestoreVersion(s, 2, 1))
  {
    ReachedMore(cfg, quota, s, RestoreVersion(2, 1), AfterRestoreVersion(s, 2, 1));
  }

  lemma SharedReached(cfg: Config, quota: nat) returns (u: State)
    requires Roomy(cfg) && quota >= 2
    ensures Reached(cfg, quota, u) && SharedFile(u)
  {
    var s := ChainReached(cfg, quota, 1);
    u := AfterRestoreVersion(s, 2, 1);
    ReachedRestore(cfg, quota, s);
    SharedSound(s);
    SharedShape(s, u);
  }

  /** The upload over the shared file. */
  function OverShared(): Step {
    Upload(0, SAMPLE_NAME, [SAMPLE_BYTE, SAMPLE_BYTE], Overwrite)
  }

  lemma OverwriteSettles(u: State)
    requires SharedFile(u)
    ensures UploadAdmitted(u, 0, SAMPLE_NAME, [SAMPLE_BYTE, SAMPLE_BYTE])
    ensures Apply(u, OverShared()) == AfterOverwrite(u, 2, [SAMPLE_BYTE, SAMPLE_BYTE])
    ensures !BlobGuard(u, OverShared())
  {
    PlainName();
    assert ChildNamed(u.entries, 2, 0, SAMPLE_NAME, File);
    assert Settle(u.entries, 0, SAMPLE_NAME, Overwrite, 0) == Some((SAMPLE_NAME, Some(2)));
  }

  lemma RestoredWithout(u: State)
    requires SharedFile(u)
    ensures Apply(u, OverShared()) == AfterOverwrite(u, 2, [SAMPLE_BYTE, SAMPLE_BYTE]) ==>
      var v := Apply(Apply(u, OverShared()), RestoreVersion(2, 1)); 2 in v.entries && v.entries[2].key !in v.disk
  {
    var o := AfterOverwrite(u, 2, [SAMPLE_BYTE, SAMPLE_BYTE]);
    WithoutBlob(o);
    SameRestore(Apply(u, OverShared()), o);
  }

  lemma WithoutBlob(o: State)
    requires 2 in o.entries && (2, 1) in o.versions && o.versions[(2, 1)].key == BlobKey(1) && BlobKey(1) !in o.disk
    ensures var v := AfterRestoreVersion(o, 2, 1); 2 in v.entries && v.entries[2].key == BlobKey(1) && BlobKey(1) !in v.disk
  {
  }

  lemma SameRestore(a: State, o: State)
    requires 2 in o.entries
    requires var v := AfterRestoreVersion(o, 2, 1); 2 in v.entries && v.entries[2].key !in v.disk
    ensures a == o ==> var v := Apply(a, RestoreVersion(2, 1)); 2 in v.entries && v.entries[2].key !in v.disk
  {
  }

  /**
   * Upload, replace through a batch, restore the first version, upload over it: the retained version's
   * blob is deleted, and restoring that version once more gives a file without content.
   */
  lemma OverwriteBreaksVersions(cfg: Config, quota: nat) returns (t: State, step: Step)
    requires Roomy(cfg) && quota >= 2
    ensures Reached(cfg, quota, t) && BlobsOk(t) && step.Upload? && !BlobsOk(Apply(t, step))
    ensures var u := Apply(Apply(t, step), RestoreVersion(2, 1)); 2 in u.entries && u.entries[2].key !in u.disk
  {
    t := SharedReached(cfg, quota);
    step := OverShared();
    OverwriteSettles(t);
    StepKeepsBlobs(t, step);
    RestoredWithout(t);
  }

  // ---------------------------------------------------------------- a version pruned before it is used

  /** Behind the snapshot's own row the first version has twenty newer ones. */
  lemma TwentyNewer(vs: Versions)
    requires vs.Keys == Versions2(KEEP + 1)
    ensures (2, 1) in vs && (2, 1) in Doomed(vs, 2, KEEP)
  {
    ManyVersions(KEEP + 1);
    assert (2, 1) in Versions2(KEEP + 1);
    assert Newer(vs, 2, 1) == Versions2(KEEP + 1) - {(2, 1)};
  }

  lemma FirstOnly(t: State)
    requires Chain(t, KEEP)
    ensures var vs := WithVersion(t.versions, 2, t.entries[2]);
      vs.Keys == Versions2(KEEP + 1) && forall k :: k in vs && vs[k].key == BlobKey(1) ==> k == (2, 1)
    ensures (2, 1) in t.versions && t.versions[(2, 1)].key == BlobKey(1)
  {
    var vs := WithVersion(t.versions, 2, t.entries[2]);
    assert (2, 1) in Versions2(KEEP) && (2, KEEP + 1) !in Versions2(KEEP);
    assert Versions2(KEEP + 1) == Versions2(KEEP) + {(2, KEEP + 1)};
    forall k | k in vs && vs[k].key == BlobKey(1) ensures k == (2, 1) {
      if k != (2, KEEP + 1) { assert k in Versions2(KEEP) && vs[k] == t.versions[k]; }
    }
  }

  lemma PrunedFirst(t: State)
    requires Chain(t, KEEP)
    ensures (2, 1) in t.versions && !Survives(t, 2, 1)
  {
    FirstOnly(t);
    TwentyNewer(WithVersion(t.versions, 2, t.entries[2]));
  }

  /** Twenty replacements, then restoring the first version: the snapshot's pruning takes its blob. */
  lemma RestorePrunesItsOwn(cfg: Config, quota: nat) returns (t: State, step: Step)
    requires Roomy(cfg) && quota >= 2
    ensures Good(cfg, quota, t) && step.RestoreVersion? && !BlobsOk(Apply(t, step))
  {
    t := ChainReached(cfg, quota, KEEP);
    step := RestoreVersion(2, 1);
    PrunedFirst(t);
    StepKeepsBlobs(t, step);
  }

  // ---------------------------------------------------------------- a folder replaced by a file

  /** Session 3 replaces folder 1 and has its byte. */
  function FolderTargeted(cfg: Config, quota: nat): State {
    OneByte(OneSession(OneFolder(cfg, quota), 0, Sample(1, Some(1), Some(1))), 3)
  }

  lemma TargetFolder(cfg: Config, quota: nat)
    requires Roomy(cfg) && quota >= 1
    ensures Good(cfg, quota, FolderTargeted(cfg, quota))
  {
    var s, m := OneFolder(cfg, quota), Sample(1, Some(1), Some(1));
    CreateOne(cfg, quota);
    GoodBatch(cfg, quota, s, None, m);
    GoodByte(cfg, quota, s, 0, m);
  }

  lemma TargetCompletes(cfg: Config, quota: nat)
    requires TreeOk(FolderTargeted(cfg, quota))
    ensures Completes(FolderTargeted(cfg, quota), 3, "", NoFault)
  {
    ReplacementFits(FolderTargeted(cfg, quota), 3, "");
  }

  /** A replacement that names a folder: its byte is billed to no file, and the version filed has no blob. */
  lemma FolderReplaced(cfg: Config, quota: nat) returns (t: State, step: Step)
    requires Roomy(cfg) && quota >= 1
    ensures Good(cfg, quota, t) && step.CompleteFile? && !UsedOk(Apply(t, step)) && !BlobsOk(Apply(t, step))
  {
    t, step := FolderTargeted(cfg, quota), CompleteFile(3, "", NoFault);
    TargetFolder(cfg, quota);
    TargetCompletes(cfg, quota);
    StepKeepsUsed(t, step);
    StepKeepsBlobs(t, step);
  }

  // ---------------------------------------------------------------- a folder trashed twice

  /** Folders 1 and 2, the second inside the first. */
  function Nested(cfg: Config, quota: nat): State {
    var s := Init(cfg, quota);
    var outer := Entry(Some(0), SAMPLE_NAME, Folder, FolderKey(1), 0, 1, "", true);
    var inner := Entry(Some(1), SAMPLE_NAME, Folder, FolderKey(2), 0, 1, "", true);
    s.(next := 3, entries := s.entries[1 := outer][2 := inner],
       log := [Change(Upsert, 1, RowOf(outer)), Change(Upsert, 2, RowOf(inner))])
  }

  lemma CreateNested(cfg: Config, quota: nat)
    ensures Apply(Apply(Init(cfg, quota), CreateFolder(0, SAMPLE_NAME)), CreateFolder(1, SAMPLE_NAME)) == Nested(cfg, quota)
  {
    PlainName();
    var t := AfterCreateFolder(Init(cfg, quota), 0, SAMPLE_NAME);
    assert t.next == 2 && t.entries == Nested(cfg, quota).entries - {2};
    assert UniqueNames(Nested(cfg, quota).entries);
  }

  lemma InnerTargets(cfg: Config, quota: nat)
    ensures TrashTargets(Nested(cfg, quota), 2) == {2}
  {
    var s := Nested(cfg, quota);
    forall d ensures d in TrashTargets(s, 2) <==> d == 2 {
      assert Climbs(s.entries, LiveIds(s.entries), 2, 2, 0);
      if d in s.entries && d != 2 {
        forall n: nat ensures !Climbs(s.entries, LiveIds(s.entries), d, 2, n) {
          if d == 1 && n > 0 { assert !Climbs(s.entries, LiveIds(s.entries), 0, 2, n - 1); }
        }
      }
    }
  }

  lemma NestedTree(cfg: Config, quota: nat)
    ensures TreeOk(Nested(cfg, quota))
  {
    InitTree(cfg, quota);
    CreateFolderKeeps(Init(cfg, quota), 0, SAMPLE_NAME);
    CreateFolderKeeps(AfterCreateFolder(Init(cfg, quota), 0, SAMPLE_NAME), 1, SAMPLE_NAME);
    CreateNested(cfg, quota);
  }

  /** The inner folder trashed first: trashing and restoring the outer one does not give back what was there. */
  lemma NestedTrashComesBack(cfg: Config, quota: nat, order: seq<Id>, back: seq<Id>)
    requires var t := AfterDelete(Nested(cfg, quota), 2, [2]);
      Enumerates(order, TrashTargets(t, 1)) && Enumerates(back, RestoreTargets(AfterDelete(t, 1, order), 1))
    ensures var t := AfterDelete(Nested(cfg, quota), 2, [2]);
      TrashTargets(t, 1) != {} && !t.entries[2].live
      && AfterRestore(AfterDelete(t, 1, order), 1, back).entries != TwiceTouched(t.entries, TrashTargets(t, 1))
  {
    var s := Nested(cfg, quota);
    InnerTargets(cfg, quota);
    assert Enumerates([2], {2});
    var t := AfterDelete(s, 2, [2]);
    NestedTree(cfg, quota);
    DeleteKeeps(s, 2, [2]);
    assert Climbs(t.entries, LiveIds(t.entries), 1, 1, 0);
    TrashRoundTrip(t, 1, order, back);
  }
}
