/** Identifiers come from one generator: nothing in the tables is numbered at or beyond the next one. */
module Minting {
  import opened Names
  import opened Sums
  import opened Model
  import opened FolderTree

  ghost predicate Minted(s: State) {
    && (forall i :: i in s.entries && s.entries[i].key.BlobKey? ==> s.entries[i].key.id < s.next)
    && (forall k :: k in s.versions && s.versions[k].key.BlobKey? ==> s.versions[k].key.id < s.next)
    && (forall b :: b in s.batches ==> b < s.next)
    && (forall i :: i in s.sessions ==> i < s.next)
  }

  /** Rows may go or change anything but their numbers and keys. */
  lemma KeepMinted(s: State, t: State)
    requires Minted(s) && s.next <= t.next && t.batches.Keys <= s.batches.Keys && t.sessions.Keys <= s.sessions.Keys
    requires forall i :: i in t.entries && t.entries[i].key.BlobKey? ==> i in s.entries && t.entries[i].key == s.entries[i].key
    requires forall k :: k in t.versions ==> k in s.versions && t.versions[k].key == s.versions[k].key
    ensures Minted(t)
  {
  }

  lemma CreateFolderMints(s: State, p: Id, rawName: string)
    requires Minted(s)
    ensures Minted(AfterCreateFolder(s, p, rawName))
  {
    var t := AfterCreateFolder(s, p, rawName);
    if t != s { KeepMinted(s, t); }
  }

  lemma MoveMints(s: State, i: Id, p: Id)
    requires Minted(s)
    ensures Minted(AfterMove(s, i, p))
  {
    var t := AfterMove(s, i, p);
    if t != s { KeepMinted(s, t); }
  }

  lemma RenameMints(s: State, i: Id, rawName: string)
    requires Minted(s)
    ensures Minted(AfterRename(s, i, rawName))
  {
    var t := AfterRename(s, i, rawName);
    if t != s { KeepMinted(s, t); }
  }

  lemma DeleteMints(s: State, i: Id, order: seq<Id>)
    requires Minted(s)
    ensures Minted(AfterDelete(s, i, order))
  {
    var t := AfterDelete(s, i, order);
    if t != s { KeepMinted(s, t); }
  }

  lemma RestoreMints(s: State, i: Id, order: seq<Id>)
    requires Minted(s)
    ensures Minted(AfterRestore(s, i, order))
  {
    var t := AfterRestore(s, i, order);
    if t != s { KeepMinted(s, t); }
  }

  lemma PurgeMints(s: State, i: Id, order: seq<Id>)
    requires Minted(s)
    ensures Minted(AfterPurge(s, i, order))
  {
    KeepMinted(s, AfterPurge(s, i, order));
  }

  lemma CollectMints(s: State, keys: set<Key>)
    requires Minted(s)
    ensures Minted(AfterCollect(s, keys))
  {
  }

  lemma PruneMints(s: State, i: Id, keep: nat)
    requires Minted(s)
    ensures Minted(AfterPrune(s, i, keep))
  {
    KeepMinted(s, AfterPrune(s, i, keep));
  }

  lemma SnapshotMints(s: State, i: Id)
    requires Minted(s)
    ensures Minted(AfterSnapshot(s, i))
  {
    if i in s.entries && s.entries[i].kind == File && s.entries[i].key != NoKey {
      PruneMints(s.(versions := WithVersion(s.versions, i, s.entries[i])), i, KEEP);
    }
  }

  lemma RestoreVersionMints(s: State, i: Id, v: nat)
    requires Minted(s)
    ensures Minted(AfterRestoreVersion(s, i, v))
  {
    SnapshotMints(s, i);
    SnapshotSameForest(s, i);
  }

  lemma BatchRowsMint(s: State, f: Forest, p: Id, files: seq<Manifest>, expires: int)
    requires Minted(s) && Grown(s.entries, s.next, f.entries, f.next)
    ensures Minted(AfterBatchRows(s, f, p, files, expires))
  {
    NewSessionIds(f.entries, f.next, p, files);
    forall i | i in NewIds(f.next, |files|) ensures i <= f.next + |files| { assert InBlock(f.next, |files|, i); }
  }

  lemma CreateBatchMints(s: State, parent: Option<Id>, files: seq<Manifest>, expires: int)
    requires TreeOk(s) && Minted(s)
    ensures Minted(AfterCreateBatch(s, parent, files, expires))
  {
    var p := RootOr(s, parent);
    if BatchAdmitted(s, p, files) {
      BatchForest(s, parent, files);
      match WalkAll(Forest(s.entries, s.next), p, Dirs(files))
      case None =>
      case Some(f) => BatchRowsMint(s, f, p, files, expires);
    }
  }

  lemma CompleteMints(s: State, sid: Id, digest: string, fault: Fault)
    requires Minted(s)
    ensures Minted(AfterComplete(s, sid, digest, fault))
  {
  }

  lemma CloseMints(s: State, b: Id, bst: BatchStatus, sst: SessionStatus)
    requires Minted(s) && b in s.batches
    ensures Minted(Closed(s, b, bst, sst))
  {
    KeepMinted(s, Closed(s, b, bst, sst));
  }

  lemma InsertMints(s: State, p: Id, name: string, data: Bytes)
    requires Minted(s)
    ensures Minted(AfterInsert(s, p, name, data))
  {
  }

  lemma OverwriteMints(s: State, i: Id, data: Bytes)
    requires Minted(s) && i in s.entries
    ensures Minted(AfterOverwrite(s, i, data))
  {
  }

  lemma UploadMints(s: State, p: Id, name: string, data: Bytes, mode: Mode)
    requires Minted(s)
    ensures Minted(AfterUpload(s, p, name, data, mode))
  {
    if UploadAdmitted(s, p, Sanitize(name), data) {
      match Settle(s.entries, p, Sanitize(name), mode, 0)
      case None =>
      case Some((chosen, None)) => InsertMints(s, p, chosen, data);
      case Some((_, Some(i))) => if i in s.entries { OverwriteMints(s, i, data); }
    }
  }
}
