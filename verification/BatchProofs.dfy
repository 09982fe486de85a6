/** A batch has the effect that Effects states, in terms of what was sent. */
module BatchProofs {
  import opened Names
  import opened PathNames
  import opened Sums
  import opened Model
  import opened Manifests
  import opened FolderTree
  import opened FolderPath
  import opened Minting
  import opened Effects
  import opened EffectProofs

  // ---------------------------------------------------------------- where directories lead

  lemma {:induction false} LookupLeads(es: Entries, p: Id, dir: seq<string>)
    ensures Lookup(es, p, dir).Some? ==> Leads(es, p, dir, Lookup(es, p, dir).value)
    decreases |dir|
  {
    if dir != [] {
      var r := FindChild(es, p, dir[0], Folder);
      if r.Some? { LookupLeads(es, r.value, dir[1..]); }
    }
  }

  lemma {:induction false} LeadsStays(es: Entries, fs: Entries, p: Id, dir: seq<string>, q: Id)
    requires Leads(es, p, dir, q) && forall i :: i in es ==> i in fs && fs[i] == es[i]
    ensures Leads(fs, p, dir, q)
    decreases |dir|
  {
    if dir != [] {
      var i :| Child(es, i, p, dir[0], Folder) && Leads(es, i, dir[1..], q);
      LeadsStays(es, fs, i, dir[1..], q);
      assert Child(fs, i, p, dir[0], Folder);
    }
  }

  /** A walk ends where the finished table leads. */
  lemma {:induction false} WalkLeads(t: Forest, root: Id, p: Id, parts: seq<string>)
    requires EntriesOk(t.entries, root, t.next) && LiveFolder(t.entries, p) && Walk(t, p, parts).Some?
    ensures Lookup(Walk(t, p, parts).value.0.entries, p, parts) == Some(Walk(t, p, parts).value.1)
    decreases |parts|
  {
    if parts != [] {
      var u := Walk(t, p, parts).value.0;
      WalkKeeps(t, root, p, parts);
      match FindChild(t.entries, p, parts[0], Folder)
      case Some(i) =>
        WalkLeads(t, root, i, parts[1..]);
        ChildUnique(u.entries, i, p, parts[0], Folder);
      case None =>
        var v := NewFolder(t, p, parts[0]);
        InsertRow(t.entries, root, t.next, t.next, v.entries[t.next]);
        WalkLeads(v, root, t.next, parts[1..]);
        WalkKeeps(v, root, t.next, parts[1..]);
        ChildUnique(u.entries, t.next, p, parts[0], Folder);
    }
  }

  lemma {:induction false} WalkAllLeads(t: Forest, root: Id, p: Id, dirs: seq<seq<string>>, k: nat)
    requires EntriesOk(t.entries, root, t.next) && LiveFolder(t.entries, p) && WalkAll(t, p, dirs).Some? && k < |dirs|
    ensures Lookup(WalkAll(t, p, dirs).value.entries, p, dirs[k]).Some?
    decreases |dirs|
  {
    var n := |dirs| - 1;
    var v := WalkAll(t, p, dirs[..n]).value;
    WalkAllKeeps(t, root, p, dirs[..n]);
    WalkKeeps(v, root, p, dirs[n]);
    if k == n {
      WalkLeads(v, root, p, dirs[n]);
    } else {
      WalkAllLeads(t, root, p, dirs[..n], k);
      LookupStays(v.entries, WalkAll(t, p, dirs).value.entries, p, dirs[k]);
    }
  }

  lemma OnePartOn(es: Entries, c: Id, p: Id, dir: seq<string>, i: Id)
    requires dir != [] && Child(es, c, p, dir[0], Folder) && (i == c || OnPath(es, i, c, dir[1..]))
    ensures OnPath(es, i, p, dir)
  {
    if i == c {
      assert dir[..1] == [dir[0]] && [dir[0]][1..] == [];
      assert Leads(es, c, [], c);
      assert Leads(es, p, dir[..1], i);
    } else {
      var n :| 0 < n <= |dir[1..]| && Leads(es, c, dir[1..][..n], i);
      assert dir[..n + 1][0] == dir[0] && dir[..n + 1][1..] == dir[1..][..n];
      assert Leads(es, p, dir[..n + 1], i);
    }
  }

  /** Every folder a walk makes lies on its path. */
  lemma {:induction false} WalkMakesPath(t: Forest, root: Id, p: Id, parts: seq<string>, x: Id)
    requires EntriesOk(t.entries, root, t.next) && LiveFolder(t.entries, p) && Walk(t, p, parts).Some?
    requires x in Walk(t, p, parts).value.0.entries && x !in t.entries
    ensures OnPath(Walk(t, p, parts).value.0.entries, x, p, parts)
    decreases |parts|
  {
    if parts != [] {
      var u := Walk(t, p, parts).value.0;
      match FindChild(t.entries, p, parts[0], Folder)
      case Some(i) =>
        WalkKeeps(t, root, i, parts[1..]);
        WalkMakesPath(t, root, i, parts[1..], x);
        OnePartOn(u.entries, i, p, parts, x);
      case None =>
        var v := NewFolder(t, p, parts[0]);
        InsertRow(t.entries, root, t.next, t.next, v.entries[t.next]);
        WalkKeeps(v, root, t.next, parts[1..]);
        if x != t.next { WalkMakesPath(v, root, t.next, parts[1..], x); }
        OnePartOn(u.entries, t.next, p, parts, x);
    }
  }

  lemma OnPathStays(es: Entries, fs: Entries, i: Id, p: Id, dir: seq<string>)
    requires OnPath(es, i, p, dir) && forall j :: j in es ==> j in fs && fs[j] == es[j]
    ensures OnPath(fs, i, p, dir)
  {
    var n :| 0 < n <= |dir| && Leads(es, p, dir[..n], i);
    LeadsStays(es, fs, p, dir[..n], i);
  }

  lemma {:induction false} WalkAllMakesPaths(t: Forest, root: Id, p: Id, dirs: seq<seq<string>>, x: Id)
    requires EntriesOk(t.entries, root, t.next) && LiveFolder(t.entries, p) && WalkAll(t, p, dirs).Some?
    requires x in WalkAll(t, p, dirs).value.entries && x !in t.entries
    ensures exists k :: 0 <= k < |dirs| && OnPath(WalkAll(t, p, dirs).value.entries, x, p, dirs[k])
    decreases |dirs|
  {
    if dirs != [] {
      var n := |dirs| - 1;
      var v, u := WalkAll(t, p, dirs[..n]).value, WalkAll(t, p, dirs).value;
      WalkAllKeeps(t, root, p, dirs[..n]);
      WalkKeeps(v, root, p, dirs[n]);
      if x in v.entries {
        WalkAllMakesPaths(t, root, p, dirs[..n], x);
        var k :| 0 <= k < n && OnPath(v.entries, x, p, dirs[..n][k]);
        OnPathStays(v.entries, u.entries, x, p, dirs[k]);
      } else {
        WalkMakesPath(v, root, p, dirs[n], x);
      }
    }
  }

  // ---------------------------------------------------------------- when a walk succeeds

  lemma {:induction false} ClearWalk(t: Forest, root: Id, p: Id, parts: seq<string>)
    requires EntriesOk(t.entries, root, t.next) && LiveFolder(t.entries, p)
    ensures Walk(t, p, parts).Some? <==> Clear(t.entries, p, parts)
    decreases |parts|
  {
    if parts != [] {
      forall i ensures ChildNamed(t.entries, i, p, parts[0], Folder) <==> Child(t.entries, i, p, parts[0], Folder) {}
      match FindChild(t.entries, p, parts[0], Folder)
      case Some(i) =>
        ClearWalk(t, root, i, parts[1..]);
        forall c | Child(t.entries, c, p, parts[0], Folder) ensures c == i { ChildUnique(t.entries, c, p, parts[0], Folder); }
      case None =>
        var v := NewFolder(t, p, parts[0]);
        AdmittedWhenFree(t.entries, t.next, v.entries[t.next]);
        if UniqueNames(v.entries) {
          InsertRow(t.entries, root, t.next, t.next, v.entries[t.next]);
          ClearWalk(v, root, t.next, parts[1..]);
          assert forall j :: j in v.entries ==> v.entries[j].parent != Some(t.next);
        }
    }
  }

  /** Below a folder that a batch has made there are only such folders. */
  lemma {:induction false} ClearNew(es: Entries, next: Id, fs: Entries, next': Id, p: Id, dir: seq<string>)
    requires Linked(es) && Grown(es, next, fs, next') && p !in es
    ensures Clear(fs, p, dir)
    decreases |dir|
  {
    if dir != [] {
      if j :| j in fs && fs[j].live && fs[j].parent == Some(p) && Lower(fs[j].name) == Lower(dir[0]) {
        assert j !in es;
        ClearNew(es, next, fs, next', j, dir[1..]);
        assert Child(fs, j, p, dir[0], Folder);
      }
    }
  }

  lemma {:induction false} ClearGrown(es: Entries, next: Id, fs: Entries, next': Id, root: Id, p: Id, dir: seq<string>)
    requires EntriesOk(es, root, next) && EntriesOk(fs, root, next') && Grown(es, next, fs, next') && p in es
    ensures Clear(fs, p, dir) <==> Clear(es, p, dir)
    decreases |dir|
  {
    if dir != [] {
      ClearStays(es, next, fs, next', root, p, dir);
      if Clear(fs, p, dir) {
        if i :| Child(fs, i, p, dir[0], Folder) && Clear(fs, i, dir[1..]) {
          if i in es {
            ClearGrown(es, next, fs, next', root, i, dir[1..]);
            assert Child(es, i, p, dir[0], Folder);
          } else {
            forall j | j in es && es[j].live && es[j].parent == Some(p) ensures Lower(es[j].name) != Lower(dir[0]) {
              assert !Clash(fs, i, j);
            }
          }
        } else {
          forall j | j in es && es[j].live && es[j].parent == Some(p) ensures Lower(es[j].name) != Lower(dir[0]) {
            assert fs[j] == es[j];
          }
        }
      }
    }
  }

  lemma {:induction false} ClearStays(es: Entries, next: Id, fs: Entries, next': Id, root: Id, p: Id, dir: seq<string>)
    requires EntriesOk(es, root, next) && EntriesOk(fs, root, next') && Grown(es, next, fs, next') && p in es
    ensures Clear(es, p, dir) ==> Clear(fs, p, dir)
    decreases |dir|
  {
    if dir != [] && Clear(es, p, dir) {
      if i :| Child(es, i, p, dir[0], Folder) && Clear(es, i, dir[1..]) {
        ClearStays(es, next, fs, next', root, i, dir[1..]);
        assert Child(fs, i, p, dir[0], Folder);
      } else if j :| j in fs && fs[j].live && fs[j].parent == Some(p) && Lower(fs[j].name) == Lower(dir[0]) {
        assert j !in es;
        ClearNew(es, next, fs, next', j, dir[1..]);
        assert Child(fs, j, p, dir[0], Folder);
      }
    }
  }

  lemma {:induction false} ClearWalkAll(t: Forest, root: Id, p: Id, dirs: seq<seq<string>>)
    requires EntriesOk(t.entries, root, t.next) && LiveFolder(t.entries, p)
    ensures WalkAll(t, p, dirs).Some? <==> forall k :: 0 <= k < |dirs| ==> Clear(t.entries, p, dirs[k])
    decreases |dirs|
  {
    if dirs != [] {
      var n := |dirs| - 1;
      var rest := dirs[..n];
      ClearWalkAll(t, root, p, rest);
      WalkAllKeeps(t, root, p, rest);
      assert forall k :: 0 <= k < n ==> rest[k] == dirs[k];
      if WalkAll(t, p, rest).Some? {
        var u := WalkAll(t, p, rest).value;
        ClearWalk(u, root, p, dirs[n]);
        ClearGrown(t.entries, t.next, u.entries, u.next, root, p, dirs[n]);
      }
    }
  }

  // ---------------------------------------------------------------- what was sent

  /** The manifest is what was sent. */
  ghost predicate Carries(m: Manifest, f: RawFile) {
    && m.path == SentParts(f) && m.name == SentName(f) && m.expected == f.expectedSize
    && m.target == f.target && m.expectedVersion == f.expectedVersion && m.hash == f.hash
  }

  lemma FileExact(f: RawFile)
    ensures Normalized(f).Some? <==>
      PlainPath(SentParts(f)) && !StartsWith(SentParts(f)[0], "..") && SentName(f) != "" && f.expectedSize >= 0
    ensures Normalized(f).Some? ==> Carries(Normalized(f).value, f)
  {
    NormalizedExact(f);
    if Normalized(f).Some? { NormalizedSafe(f); }
  }

  ghost predicate AllCarry(files: seq<Manifest>, raw: seq<RawFile>) {
    |files| == |raw| && forall k :: 0 <= k < |raw| ==> Carries(files[k], raw[k])
  }

  lemma AllExact(raw: seq<RawFile>)
    ensures NormalizedAll(raw).Some? <==> ShapesOk(raw)
    ensures NormalizedAll(raw).Some? ==> AllCarry(NormalizedAll(raw).value, raw)
  {
    var parsed := Parsed(raw);
    forall k | 0 <= k < |raw|
      ensures parsed[k].Some? <==> SentShape(raw[k])
      ensures parsed[k].Some? ==> Carries(parsed[k].value, raw[k])
    {
      assert parsed[k] == Normalized(raw[k]);
      FileExact(raw[k]);
    }
    if forall k :: 0 <= k < |raw| ==> SentShape(raw[k]) {
      assert forall k :: 0 <= k < |parsed| ==> parsed[k].Some?;
    }
    if NormalizedAll(raw).Some? {
      forall k | 0 <= k < |raw| ensures SentShape(raw[k]) && Carries(NormalizedAll(raw).value[k], raw[k]) {
        assert parsed[k].Some?;
      }
    }
  }

  predicate SentShape(f: RawFile) {
    PlainPath(SentParts(f)) && !StartsWith(SentParts(f)[0], "..") && SentName(f) != "" && f.expectedSize >= 0
  }

  lemma SamePathExact(m: Manifest, n: Manifest, f: RawFile, g: RawFile)
    requires Carries(m, f) && Carries(n, g)
    ensures SamePath(m, n) <==> SentSamePath(f, g)
  {
    var a, b := SentParts(f), SentParts(g);
    if SamePath(m, n) {
      assert |LowerPath(a)| == |LowerPath(b)|;
      forall k | 0 <= k < |a| ensures Lower(a[k]) == Lower(b[k]) { assert LowerPath(a)[k] == LowerPath(b)[k]; }
    }
  }

  lemma {:induction false} TotalExact(files: seq<Manifest>, raw: seq<RawFile>)
    requires AllCarry(files, raw)
    ensures Total(files) == SentTotal(raw)
    decreases |raw|
  {
    if raw != [] { TotalExact(files[..|raw| - 1], raw[..|raw| - 1]); }
  }

  lemma DirExact(files: seq<Manifest>, raw: seq<RawFile>, k: nat)
    requires AllCarry(files, raw) && k < |raw|
    ensures Dirs(files)[k] == Dir(files[k]) == SentDir(raw[k])
  {
  }

  lemma StableDir(dir: seq<string>)
    requires "" !in dir
    ensures StablePath(dir) <==> forall part :: part in dir ==> Sanitize(part) == part
  {
    if StablePath(dir) {
      forall part | part in dir ensures Sanitize(part) == part { assert Stable(part); }
    }
  }

  lemma StableExact(files: seq<Manifest>, raw: seq<RawFile>)
    requires AllCarry(files, raw) && ShapesOk(raw)
    ensures StablePaths(files) <==> DirsSanitary(raw)
  {
    forall k | 0 <= k < |raw|
      ensures StablePath(Dir(files[k])) <==> forall part :: part in SentDir(raw[k]) ==> Sanitize(part) == part
    {
      DirExact(files, raw, k);
      assert SentShape(raw[k]);
      var dir, parts := SentDir(raw[k]), SentParts(raw[k]);
      assert forall j :: 0 <= j < |dir| ==> dir[j] == parts[j] && PlainPart(parts[j]);
      StableDir(SentDir(raw[k]));
    }
  }

  lemma DistinctExact(files: seq<Manifest>, raw: seq<RawFile>)
    requires AllCarry(files, raw)
    ensures (forall j, k {:trigger SamePath(files[j], files[k])} | 0 <= j < k < |files| :: !SamePath(files[j], files[k]))
      <==> PathsDiffer(raw)
  {
    forall j, k | 0 <= j < k < |raw| ensures SamePath(files[j], files[k]) <==> SentSamePath(raw[j], raw[k]) {
      SamePathExact(files[j], files[k], raw[j], raw[k]);
    }
  }

  lemma AcceptableExact(cfg: Config, files: seq<Manifest>, raw: seq<RawFile>)
    requires AllCarry(files, raw)
    ensures Acceptable(cfg, files) <==>
      0 < |raw| <= cfg.maxFiles && SizesWithin(raw, cfg.maxFileBytes) && PathsDiffer(raw) && SentTotal(raw) <= cfg.maxBatchBytes
  {
    TotalExact(files, raw);
    DistinctExact(files, raw);
    SizedExact(files, raw, cfg.maxFileBytes);
  }

  ghost predicate SizesWithin(raw: seq<RawFile>, max: nat) {
    forall k :: 0 <= k < |raw| ==> raw[k].expectedSize <= max
  }

  lemma SizedExact(files: seq<Manifest>, raw: seq<RawFile>, max: nat)
    requires AllCarry(files, raw)
    ensures (forall k | 0 <= k < |files| :: files[k].expected <= max) <==> SizesWithin(raw, max)
  {
    assert forall k :: 0 <= k < |raw| ==> files[k].expected == raw[k].expectedSize;
  }

  lemma ClearExact(s: State, p: Id, files: seq<Manifest>, raw: seq<RawFile>)
    requires TreeOk(s) && LiveFolder(s.entries, p) && AllCarry(files, raw)
    ensures WalkAll(Forest(s.entries, s.next), p, Dirs(files)).Some? <==> DirsClear(s.entries, p, raw)
  {
    ClearWalkAll(Forest(s.entries, s.next), s.root, p, Dirs(files));
    forall k | 0 <= k < |raw| ensures Dirs(files)[k] == SentDir(raw[k]) { DirExact(files, raw, k); }
  }

  ghost predicate ShapesOk(raw: seq<RawFile>) {
    forall k :: 0 <= k < |raw| ==> SentShape(raw[k])
  }

  lemma FilesExact(cfg: Config, raw: seq<RawFile>)
    ensures FilesOk(cfg, raw) <==> ShapesOk(raw) && SizesWithin(raw, cfg.maxFileBytes)
  {
    if FilesOk(cfg, raw) {
      forall k | 0 <= k < |raw| ensures SentShape(raw[k]) && raw[k].expectedSize <= cfg.maxFileBytes { assert SentFileOk(cfg, raw[k]); }
    }
    if ShapesOk(raw) && SizesWithin(raw, cfg.maxFileBytes) {
      forall k | 0 <= k < |raw| ensures SentFileOk(cfg, raw[k]) { assert SentShape(raw[k]); }
    }
  }

  lemma AdmittedExact(s: State, p: Id, files: seq<Manifest>, raw: seq<RawFile>)
    requires AllCarry(files, raw) && ShapesOk(raw)
    ensures BatchAdmitted(s, p, files) <==>
      && 0 < |raw| <= s.cfg.maxFiles && SizesWithin(raw, s.cfg.maxFileBytes) && PathsDiffer(raw)
      && SentTotal(raw) <= s.cfg.maxBatchBytes && s.used + s.reserved + SentTotal(raw) <= s.quota
      && LiveFolder(s.entries, p) && DirsSanitary(raw)
  {
    AcceptableExact(s.cfg, files, raw);
    TotalExact(files, raw);
    StableExact(files, raw);
  }

  lemma ManifestExact(cfg: Config, raw: seq<RawFile>)
    ensures ManifestAllowed(cfg, raw) <==> NormalizedAll(raw).Some? && Acceptable(cfg, NormalizedAll(raw).value)
  {
    AllExact(raw);
    FilesExact(cfg, raw);
    if NormalizedAll(raw).Some? { AcceptableExact(cfg, NormalizedAll(raw).value, raw); }
  }

  /** A manifest is opened exactly when nothing that was sent is refused. */
  lemma AllowedExact(s: State, p: Id, raw: seq<RawFile>)
    requires TreeOk(s)
    ensures BatchAllowed(s, p, raw) <==>
      && NormalizedAll(raw).Some? && BatchAdmitted(s, p, NormalizedAll(raw).value)
      && WalkAll(Forest(s.entries, s.next), p, Dirs(NormalizedAll(raw).value)).Some?
  {
    AllExact(raw);
    FilesExact(s.cfg, raw);
    if NormalizedAll(raw).Some? {
      var files := NormalizedAll(raw).value;
      AdmittedExact(s, p, files, raw);
      if LiveFolder(s.entries, p) { ClearExact(s, p, files, raw); }
    }
  }

  // ---------------------------------------------------------------- the rows of a batch

  lemma {:induction false} SessionSent(es: Entries, b: Id, p: Id, files: seq<Manifest>, k: nat)
    requires k < |files|
    ensures var ns := NewSessions(es, b, p, files);
      b + 1 + k in ns && ns[b + 1 + k] == NewSession(b, files[k], Lookup(es, p, Dir(files[k])))
    decreases |files|
  {
    var n := |files| - 1;
    if k < n {
      assert files[..n][k] == files[k];
      SessionSent(es, b, p, files[..n], k);
    }
  }

  lemma SessionsSent(s: State, f: Forest, p: Id, files: seq<Manifest>, raw: seq<RawFile>, k: nat)
    requires TreeOk(s) && LiveFolder(s.entries, p) && AllCarry(files, raw) && k < |raw|
    requires WalkAll(Forest(s.entries, s.next), p, Dirs(files)) == Some(f)
    ensures var ns := NewSessions(f.entries, f.next, p, files);
      f.next + 1 + k in ns && Requested(ns[f.next + 1 + k], raw[k], f.next, f.entries, p)
  {
    SessionSent(f.entries, f.next, p, files, k);
    DirExact(files, raw, k);
    WalkAllLeads(Forest(s.entries, s.next), s.root, p, Dirs(files), k);
    LookupLeads(f.entries, p, Dirs(files)[k]);
  }

  lemma DirsNew(s: State, f: Forest, p: Id, files: seq<Manifest>, raw: seq<RawFile>, i: Id)
    requires TreeOk(s) && LiveFolder(s.entries, p) && AllCarry(files, raw)
    requires WalkAll(Forest(s.entries, s.next), p, Dirs(files)) == Some(f) && i in f.entries && i !in s.entries
    ensures exists k :: 0 <= k < |raw| && OnPath(f.entries, i, p, SentDir(raw[k]))
  {
    WalkAllMakesPaths(Forest(s.entries, s.next), s.root, p, Dirs(files), i);
    var k :| 0 <= k < |Dirs(files)| && OnPath(f.entries, i, p, Dirs(files)[k]);
    DirExact(files, raw, k);
  }

  lemma BatchDisk(d: Disk, b: Id, n: nat)
    ensures TempsMade(d, d + NewTemps(b, n), b, n)
  {
    forall k: Key ensures k in NewTemps(b, n) <==> k.TempKey? && b < k.session <= b + n {
      if k.TempKey? { assert InBlock(b, n, k.session) <==> b < k.session <= b + n; }
    }
  }

  lemma BatchSessions(s: State, f: Forest, p: Id, files: seq<Manifest>, raw: seq<RawFile>)
    requires TreeOk(s) && Minted(s) && LiveFolder(s.entries, p) && AllCarry(files, raw) && s.next <= f.next
    requires WalkAll(Forest(s.entries, s.next), p, Dirs(files)) == Some(f)
    ensures SessionsMade(s.sessions, s.sessions + NewSessions(f.entries, f.next, p, files), f.next, f.entries, p, raw)
  {
    var ns := NewSessions(f.entries, f.next, p, files);
    NewSessionIds(f.entries, f.next, p, files);
    forall i: Id ensures i in ns <==> f.next < i <= f.next + |raw| {
      assert InBlock(f.next, |files|, i) <==> f.next < i <= f.next + |files|;
    }
    forall k | 0 <= k < |raw| ensures f.next + 1 + k in ns && Requested(ns[f.next + 1 + k], raw[k], f.next, f.entries, p) {
      SessionsSent(s, f, p, files, raw, k);
    }
  }

  lemma DirEffect(s: State, f: Forest, p: Id, files: seq<Manifest>, raw: seq<RawFile>, i: Id)
    requires TreeOk(s) && LiveFolder(s.entries, p) && AllCarry(files, raw)
    requires WalkAll(Forest(s.entries, s.next), p, Dirs(files)) == Some(f) && i in f.entries && i !in s.entries
    requires Grown(s.entries, s.next, f.entries, f.next) && f.entries[i].version == 1 && f.entries[i].hash == ""
    ensures NewDir(f.entries, i, p, raw)
  {
    DirsNew(s, f, p, files, raw, i);
  }

  lemma BatchEntries(s: State, f: Forest, p: Id, files: seq<Manifest>, raw: seq<RawFile>)
    requires TreeOk(s) && LiveFolder(s.entries, p) && AllCarry(files, raw)
    requires WalkAll(Forest(s.entries, s.next), p, Dirs(files)) == Some(f)
    ensures DirsMade(s.entries, f.entries, p, raw) && s.next <= f.next
  {
    WalkAllKeeps(Forest(s.entries, s.next), s.root, p, Dirs(files));
    forall i | i in f.entries && i !in s.entries ensures NewDir(f.entries, i, p, raw) {
      WalkAllBlank(Forest(s.entries, s.next), p, Dirs(files), i);
      DirEffect(s, f, p, files, raw, i);
    }
  }

  /** Made folders are blank. */
  lemma {:induction false} WalkBlank(t: Forest, p: Id, parts: seq<string>, i: Id)
    requires Walk(t, p, parts).Some? && i in Walk(t, p, parts).value.0.entries && i !in t.entries
    ensures var u := Walk(t, p, parts).value.0; u.entries[i].version == 1 && u.entries[i].hash == "" && i < u.next
    decreases |parts|
  {
    if parts != [] {
      match FindChild(t.entries, p, parts[0], Folder)
      case Some(c) => WalkBlank(t, c, parts[1..], i);
      case None =>
        var v := NewFolder(t, p, parts[0]);
        if i != t.next { WalkBlank(v, t.next, parts[1..], i); } else { WalkStays(v, t.next, parts[1..], i); }
    }
  }

  lemma {:induction false} WalkStays(t: Forest, p: Id, parts: seq<string>, i: Id)
    requires Walk(t, p, parts).Some? && i in t.entries && i < t.next
    ensures var u := Walk(t, p, parts).value.0; i in u.entries && u.entries[i] == t.entries[i] && i < u.next
    decreases |parts|
  {
    if parts != [] {
      match FindChild(t.entries, p, parts[0], Folder)
      case Some(c) => WalkStays(t, c, parts[1..], i);
      case None => WalkStays(NewFolder(t, p, parts[0]), t.next, parts[1..], i);
    }
  }

  lemma {:induction false} WalkAllBlank(t: Forest, p: Id, dirs: seq<seq<string>>, i: Id)
    requires WalkAll(t, p, dirs).Some? && i in WalkAll(t, p, dirs).value.entries && i !in t.entries
    requires forall j :: j in t.entries ==> j < t.next
    ensures var u := WalkAll(t, p, dirs).value; u.entries[i].version == 1 && u.entries[i].hash == "" && i < u.next
    decreases |dirs|
  {
    if dirs != [] {
      var n := |dirs| - 1;
      var v := WalkAll(t, p, dirs[..n]).value;
      if i in v.entries {
        WalkAllBlank(t, p, dirs[..n], i);
        WalkStays(v, p, dirs[n], i);
      } else {
        WalkBlank(v, p, dirs[n], i);
      }
    }
  }

  lemma BatchRowsEffect(s: State, f: Forest, parent: Option<Id>, files: seq<Manifest>, raw: seq<RawFile>, expires: int)
    requires TreeOk(s) && Minted(s) && LiveFolder(s.entries, RootOr(s, parent)) && AllCarry(files, raw)
    requires WalkAll(Forest(s.entries, s.next), RootOr(s, parent), Dirs(files)) == Some(f)
    requires BatchAllowed(s, RootOr(s, parent), raw)
    ensures BatchOpened(s, AfterBatchRows(s, f, RootOr(s, parent), files, expires), parent, raw, expires, Some(f.next))
  {
    var p := RootOr(s, parent);
    BatchEntries(s, f, p, files, raw);
    TotalExact(files, raw);
    BatchDisk(s.disk, f.next, |files|);
    BatchSessions(s, f, p, files, raw);
  }

  /** What the server makes of a manifest as it was sent. */
  ghost function AfterSent(s: State, parent: Option<Id>, raw: seq<RawFile>, expires: int): State {
    match NormalizedAll(raw)
    case None => s
    case Some(files) => AfterCreateBatch(s, parent, files, expires)
  }

  ghost function SentBatch(s: State, parent: Option<Id>, raw: seq<RawFile>): Option<Id> {
    if !BatchAllowed(s, RootOr(s, parent), raw) || NormalizedAll(raw).None? then None
    else
      match WalkAll(Forest(s.entries, s.next), RootOr(s, parent), Dirs(NormalizedAll(raw).value))
      case None => None
      case Some(f) => Some(f.next)
  }

  lemma NothingSent(s: State, parent: Option<Id>, raw: seq<RawFile>, expires: int)
    requires TreeOk(s) && Minted(s) && AfterSent(s, parent, raw, expires) == s
    ensures BatchOpened(s, s, parent, raw, expires, None)
  {
    CreateBatchEffect(s, parent, raw, expires);
    NewKeyChanges(s.batches);
  }

  lemma NewKeyChanges(m: map<Id, Batch>)
    ensures forall b: Id, v: Batch {:trigger m[b := v]} :: b !in m ==> m[b := v] != m
  {
    forall b: Id, v: Batch {:trigger m[b := v]} | b !in m ensures m[b := v] != m { assert b in m[b := v]; }
  }

  lemma CreateBatchEffect(s: State, parent: Option<Id>, raw: seq<RawFile>, expires: int)
    requires TreeOk(s) && Minted(s)
    ensures BatchOpened(s, AfterSent(s, parent, raw, expires), parent, raw, expires, SentBatch(s, parent, raw))
  {
    var p := RootOr(s, parent);
    AllowedExact(s, p, raw);
    AllExact(raw);
    if BatchAllowed(s, p, raw) {
      var files := NormalizedAll(raw).value;
      var f := WalkAll(Forest(s.entries, s.next), p, Dirs(files)).value;
      BatchRowsEffect(s, f, parent, files, raw, expires);
    }
  }

  lemma BatchSent(s: State, parent: Option<Id>, raw: seq<RawFile>, files: seq<Manifest>, f: Forest, expires: int)
    requires TreeOk(s) && Minted(s) && NormalizedAll(raw) == Some(files) && BatchAdmitted(s, RootOr(s, parent), files)
    requires WalkAll(Forest(s.entries, s.next), RootOr(s, parent), Dirs(files)) == Some(f)
    ensures BatchOpened(s, AfterBatchRows(s, f, RootOr(s, parent), files, expires), parent, raw, expires, Some(f.next))
  {
    CreateBatchEffect(s, parent, raw, expires);
    AllowedExact(s, RootOr(s, parent), raw);
  }
}
