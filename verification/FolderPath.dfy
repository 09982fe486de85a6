/** Creating the folders of a manifest through a path cache gives what an uncached walk gives. */
module FolderPath {
  import opened Names
  import opened Model
  import opened FolderTree

  type Cache = map<seq<string>, Id>

  /** Every cached path is made of sanitised parts and leads where the table says it leads. */
  ghost predicate Coherent(es: Entries, p: Id, cache: Cache) {
    forall k :: k in cache ==> StablePath(k) && Lookup(es, p, k) == Some(cache[k])
  }

  function Sanitized(dir: seq<string>): (r: seq<string>)
    ensures |r| == |dir| && forall k :: 0 <= k < |dir| ==> r[k] == Sanitize(dir[k])
  {
    seq(|dir|, k requires 0 <= k < |dir| => Sanitize(dir[k]))
  }

  lemma ChildUnique(es: Entries, i: Id, p: Id, name: string, kind: Kind)
    requires UniqueNames(es) && ChildNamed(es, i, p, name, kind)
    ensures FindChild(es, p, name, kind) == Some(i)
  {
    var r := FindChild(es, p, name, kind);
    assert !Clash(es, i, r.value);
  }

  /** select … where parent, kind, lower(name) match and the row is live */
  method SelectChild(es: Entries, p: Id, name: string, kind: Kind) returns (r: Option<Id>)
    requires UniqueNames(es)
    ensures r == FindChild(es, p, name, kind)
  {
    if exists i | i in es :: ChildNamed(es, i, p, name, kind) {
      var i :| i in es && ChildNamed(es, i, p, name, kind);
      ChildUnique(es, i, p, name, kind);
      r := Some(i);
    } else {
      r := None;
    }
  }

  lemma {:induction false} LookupAppend(es: Entries, p: Id, a: seq<string>, x: string)
    ensures Lookup(es, p, a + [x]) == match Lookup(es, p, a)
                                      case None => None
                                      case Some(q) => FindChild(es, q, x, Folder)
    decreases |a|
  {
    if a == [] {
      assert [] + [x] == [x] && [x][1..] == [];
    } else {
      assert (a + [x])[0] == a[0] && (a + [x])[1..] == a[1..] + [x];
      match FindChild(es, p, a[0], Folder)
      case None =>
      case Some(i) => LookupAppend(es, i, a[1..], x);
    }
  }

  /** Adding rows does not redirect a path that already leads somewhere. */
  lemma {:induction false} LookupStays(es: Entries, fs: Entries, p: Id, parts: seq<string>)
    requires UniqueNames(fs) && (forall i :: i in es ==> i in fs && fs[i] == es[i]) && Lookup(es, p, parts).Some?
    ensures Lookup(fs, p, parts) == Lookup(es, p, parts)
    decreases |parts|
  {
    if parts != [] {
      var i := FindChild(es, p, parts[0], Folder).value;
      ChildUnique(fs, i, p, parts[0], Folder);
      LookupStays(es, fs, i, parts[1..]);
    }
  }

  lemma CoherentStays(es: Entries, fs: Entries, p: Id, cache: Cache)
    requires UniqueNames(fs) && (forall i :: i in es ==> i in fs && fs[i] == es[i]) && Coherent(es, p, cache)
    ensures Coherent(fs, p, cache)
  {
    forall k | k in cache ensures Lookup(fs, p, k) == Some(cache[k]) { LookupStays(es, fs, p, k); }
  }

  lemma StableAppend(a: seq<string>, x: string)
    requires StablePath(a) && Stable(x)
    ensures StablePath(a + [x])
  {
  }

  /** One more part: the cache entry for the longer path. */
  lemma CacheOne(es: Entries, p: Id, cache: Cache, built: seq<string>, x: string, q: Id, i: Id)
    requires Coherent(es, p, cache) && StablePath(built) && Stable(x)
    requires Lookup(es, p, built) == Some(q) && FindChild(es, q, x, Folder) == Some(i)
    ensures Coherent(es, p, cache[built + [x] := i])
    ensures Lookup(es, p, built + [x]) == Some(i)
  {
    LookupAppend(es, p, built, x);
    StableAppend(built, x);
  }

  lemma StableSanitized(dir: seq<string>)
    requires StablePath(dir)
    ensures Sanitized(dir) == dir && forall k :: 0 <= k < |dir| ==> Sanitize(dir[k]) != ""
  {
    forall k | 0 <= k < |dir| ensures Sanitize(dir[k]) == dir[k] != "" { assert dir[k] in dir && Stable(dir[k]); }
  }

  /** All the walk needs to know of the table: the name index holds and new identifiers are new. */
  ghost predicate Tidy(t: Forest) {
    UniqueNames(t.entries) && forall i :: i in t.entries ==> i < t.next
  }

  lemma NewFolderCached(t: Forest, p: Id, current: Id, built: seq<string>, part: string, cache: Cache)
    requires Tidy(t) && UniqueNames(NewFolder(t, current, part).entries) && Coherent(t.entries, p, cache)
    requires StablePath(built) && Stable(part) && Lookup(t.entries, p, built) == Some(current)
    ensures var u := NewFolder(t, current, part);
            Tidy(u) && Coherent(u.entries, p, cache[built + [part] := t.next])
            && Lookup(u.entries, p, built + [part]) == Some(t.next)
  {
    var u := NewFolder(t, current, part);
    CoherentStays(t.entries, u.entries, p, cache);
    LookupStays(t.entries, u.entries, p, built);
    ChildUnique(u.entries, t.next, current, part, Folder);
    CacheOne(u.entries, p, cache, built, part, current, t.next);
  }

  /** One turn of the loop: use the cache, else an existing folder, else make one. */
  method NextFolder(t: Forest, p: Id, current: Id, built: seq<string>, raw: string, cache: Cache, ghost rest: seq<string>)
    returns (r: Option<Id>, part: string, u: Forest, cache': Cache)
    requires Tidy(t) && Coherent(t.entries, p, cache) && StablePath(built)
    requires rest != [] && rest[0] == Sanitize(raw)
    requires Lookup(t.entries, p, built) == Some(current)
    ensures part == rest[0]
    ensures r.None? ==> Walk(t, current, rest).None? || Sanitize(raw) == ""
    ensures r.Some? ==> Walk(t, current, rest) == Walk(u, r.value, rest[1..])
    ensures r.Some? ==> Tidy(u) && Coherent(u.entries, p, cache') && Lookup(u.entries, p, built + [part]) == r
    ensures r.Some? ==> cache.Keys <= cache'.Keys && built + [part] in cache' && StablePath(built + [part])
  {
    part, u, cache' := Sanitize(raw), t, cache;
    if part == "" { return None, part, u, cache'; }
    SanitizeIdempotent(raw);
    StableAppend(built, part);
    LookupAppend(t.entries, p, built, part);
    if built + [part] in cache { return Some(cache[built + [part]]), part, u, cache'; }
    var existing := SelectChild(t.entries, current, part, Folder);
    if existing.Some? {
      CacheOne(t.entries, p, cache, built, part, current, existing.value);
      return existing, part, u, cache[built + [part] := existing.value];
    }
    u := NewFolder(t, current, part);
    if !UniqueNames(u.entries) { return None, part, u, cache'; }
    NewFolderCached(t, p, current, built, part, cache);
    r, cache' := Some(t.next), cache[built + [part] := t.next];
  }

  lemma Unfolded(parts: seq<string>, k: nat)
    requires k < |parts|
    ensures parts[k..] != [] && parts[k..][0] == parts[k] && parts[k..][1..] == parts[k + 1..]
    ensures parts[..k + 1] == parts[..k] + [parts[k]]
  {
  }

  /** The parts of a path one after the other, each in the folder just reached. */
  method MakeFolders(t: Forest, p: Id, ghost parts: seq<string>, dir: seq<string>, cache: Cache)
    returns (r: Option<Id>, u: Forest, cache': Cache)
    requires Tidy(t) && Coherent(t.entries, p, cache) && parts == Sanitized(dir) && dir != []
    ensures r.Some? ==> Walk(t, p, parts) == Some((u, r.value))
    ensures r.None? ==> Walk(t, p, parts).None? || exists k :: 0 <= k < |dir| && Sanitize(dir[k]) == ""
    ensures r.Some? ==> Tidy(u) && Coherent(u.entries, p, cache') && cache.Keys <= cache'.Keys && parts in cache'
  {
    u, cache' := t, cache;
    var current, built, k := p, [], 0;
    assert parts[0..] == parts;
    while k < |dir|
      invariant 0 <= k <= |dir| && built == parts[..k] && StablePath(built)
      invariant Tidy(u) && Walk(t, p, parts) == Walk(u, current, parts[k..])
      invariant Coherent(u.entries, p, cache') && Lookup(u.entries, p, built) == Some(current)
      invariant cache.Keys <= cache'.Keys && (k > 0 ==> built in cache')
    {
      Unfolded(parts, k);
      var id, part, v, c := NextFolder(u, p, current, built, dir[k], cache', parts[k..]);
      if id.None? { return None, v, c; }
      current, u, cache', built, k := id.value, v, c, built + [part], k + 1;
    }
    assert parts[k..] == [] && parts[..k] == parts;
    r := Some(current);
  }

  /**
   * ensureFolderPath. With any coherent cache the outcome is that of the uncached walk over the
   * sanitised parts: same table, same new identifiers, same folder.
   */
  method EnsureFolderPath(t: Forest, p: Id, dir: seq<string>, cache: Cache)
    returns (r: Option<Id>, u: Forest, cache': Cache)
    requires Tidy(t) && Coherent(t.entries, p, cache)
    ensures r.Some? ==> Walk(t, p, Sanitized(dir)) == Some((u, r.value))
    ensures r.None? ==> Walk(t, p, Sanitized(dir)).None? || exists k :: 0 <= k < |dir| && Sanitize(dir[k]) == ""
    ensures r.Some? ==> Tidy(u) && Coherent(u.entries, p, cache') && cache.Keys <= cache'.Keys
    ensures r.Some? && [] in cache ==> Sanitized(dir) in cache'
  {
    assert dir == [] ==> Sanitized(dir) == [];
    if dir == [] { return Some(p), t, cache; }
    if dir in cache {
      StableSanitized(dir);
      WalkCached(t, p, dir);
      return Some(cache[dir]), t, cache;
    }
    r, u, cache' := MakeFolders(t, p, Sanitized(dir), dir, cache);
  }

  lemma {:induction false} WalkCached(t: Forest, p: Id, parts: seq<string>)
    requires Lookup(t.entries, p, parts).Some?
    ensures Walk(t, p, parts) == Some((t, Lookup(t.entries, p, parts).value))
    decreases |parts|
  {
    if parts != [] { WalkCached(t, FindChild(t.entries, p, parts[0], Folder).value, parts[1..]); }
  }

  /** A walk never leaves two live siblings equal up to case. */
  lemma WalkUnique(t: Forest, root: Id, p: Id, dirs: seq<seq<string>>)
    requires EntriesOk(t.entries, root, t.next) && LiveFolder(t.entries, p) && WalkAll(t, p, dirs).Some?
    ensures var fs := WalkAll(t, p, dirs).value.entries;
            forall i, j | i in fs && j in fs && i != j ::
              fs[i].live && fs[j].live && fs[i].parent == fs[j].parent ==> Lower(fs[i].name) != Lower(fs[j].name)
  {
    WalkAllKeeps(t, root, p, dirs);
    var fs := WalkAll(t, p, dirs).value.entries;
    forall i, j | i in fs && j in fs && i != j
      ensures fs[i].live && fs[j].live && fs[i].parent == fs[j].parent ==> Lower(fs[i].name) != Lower(fs[j].name)
    {
      assert !Clash(fs, i, j);
    }
  }

  lemma {:induction false} WalkAllPrefix(t: Forest, p: Id, dirs: seq<seq<string>>, n: nat)
    requires n <= |dirs| && WalkAll(t, p, dirs[..n]).None?
    ensures WalkAll(t, p, dirs).None?
    decreases |dirs|
  {
    if n < |dirs| {
      assert dirs[..|dirs| - 1][..n] == dirs[..n];
      WalkAllPrefix(t, p, dirs[..|dirs| - 1], n);
    } else {
      assert dirs[..n] == dirs;
    }
  }

  ghost predicate AllStable(dirs: seq<seq<string>>) {
    forall k :: 0 <= k < |dirs| ==> StablePath(dirs[k])
  }

  lemma StablePrefix(dirs: seq<seq<string>>, k: nat)
    requires k < |dirs|
    ensures AllStable(dirs[..k + 1]) <==> AllStable(dirs[..k]) && StablePath(dirs[k])
    ensures AllStable(dirs) ==> AllStable(dirs[..k + 1])
  {
    var a, b := dirs[..k], dirs[..k + 1];
    assert b == a + [dirs[k]];
    if AllStable(b) {
      forall j | 0 <= j < k ensures StablePath(a[j]) { assert a[j] == b[j]; }
      assert b[k] == dirs[k];
    }
    if AllStable(dirs) {
      forall j | 0 <= j <= k ensures StablePath(b[j]) { assert b[j] == dirs[j]; }
    }
  }

  lemma WalkAllOneMore(t: Forest, p: Id, dirs: seq<seq<string>>, k: nat)
    requires k < |dirs|
    ensures WalkAll(t, p, dirs[..k + 1]) == match WalkAll(t, p, dirs[..k])
                                            case None => None
                                            case Some(u) => match Walk(u, p, dirs[k])
                                                            case None => None
                                                            case Some(r) => Some(r.0)
  {
    var b := dirs[..k + 1];
    assert b[..|b| - 1] == dirs[..k] && b[|b| - 1] == dirs[k];
  }

  ghost predicate DirsCached(dirs: seq<seq<string>>, k: nat, cache: Cache)
    requires k <= |dirs|
  {
    forall j :: 0 <= j < k ==> Sanitized(dirs[j]) in cache
  }

  lemma DirsCachedMore(dirs: seq<seq<string>>, k: nat, cache: Cache, more: Cache)
    requires k < |dirs| && DirsCached(dirs, k, cache) && cache.Keys <= more.Keys && Sanitized(dirs[k]) in more
    ensures DirsCached(dirs, k + 1, more)
  {
    forall j | 0 <= j < k + 1 ensures Sanitized(dirs[j]) in more {
      if j < k { assert Sanitized(dirs[j]) in cache; }
    }
  }

  /** The directories so far, walked without a cache, give this table. */
  ghost predicate WalkedTo(t: Forest, p: Id, dirs: seq<seq<string>>, k: nat, u: Forest)
    requires k <= |dirs|
  {
    AllStable(dirs[..k]) ==> WalkAll(t, p, dirs[..k]) == Some(u)
  }

  lemma TurnTaken(t: Forest, p: Id, dirs: seq<seq<string>>, k: nat, u: Forest, v: Forest, q: Id)
    requires k < |dirs| && WalkedTo(t, p, dirs, k, u) && Walk(u, p, Sanitized(dirs[k])) == Some((v, q))
    ensures WalkedTo(t, p, dirs, k + 1, v)
  {
    StablePrefix(dirs, k);
    WalkAllOneMore(t, p, dirs, k);
    if StablePath(dirs[k]) { StableSanitized(dirs[k]); }
  }

  lemma TurnRefused(t: Forest, p: Id, dirs: seq<seq<string>>, k: nat, u: Forest)
    requires k < |dirs| && WalkedTo(t, p, dirs, k, u)
    requires Walk(u, p, Sanitized(dirs[k])).None? || exists j :: 0 <= j < |dirs[k]| && Sanitize(dirs[k][j]) == ""
    ensures AllStable(dirs) ==> WalkAll(t, p, dirs) == None
  {
    if AllStable(dirs) {
      StablePrefix(dirs, k);
      WalkAllOneMore(t, p, dirs, k);
      StableSanitized(dirs[k]);
      WalkAllPrefix(t, p, dirs, k + 1);
    }
  }

  /** The folder loop of CreateBatch: one cache for all files of the manifest. */
  method EnsureFolders(t: Forest, p: Id, dirs: seq<seq<string>>) returns (ok: bool, u: Forest, cache: Cache)
    requires Tidy(t)
    ensures AllStable(dirs) ==> WalkAll(t, p, dirs) == if ok then Some(u) else None
    ensures ok ==> Coherent(u.entries, p, cache) && [] in cache
    ensures ok ==> forall k :: 0 <= k < |dirs| ==> Sanitized(dirs[k]) in cache
  {
    u, cache := t, map[[] := p];
    var k := 0;
    while k < |dirs|
      invariant 0 <= k <= |dirs| && Tidy(u) && Coherent(u.entries, p, cache) && [] in cache
      invariant WalkedTo(t, p, dirs, k, u)
      invariant DirsCached(dirs, k, cache)
    {
      var r, v, c := EnsureFolderPath(u, p, dirs[k], cache);
      if r.None? {
        TurnRefused(t, p, dirs, k, u);
        return false, u, cache;
      }
      TurnTaken(t, p, dirs, k, u, v, r.value);
      DirsCachedMore(dirs, k, cache, c);
      u, cache := v, c;
      k := k + 1;
    }
    assert dirs[..k] == dirs;
    ok := true;
  }
}
