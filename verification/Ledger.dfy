/** Bytes are conserved: reservations at three levels, used bytes, and the quota they are held against. */
module Ledger {
  import opened Names
  import opened Sums
  import opened Model
  import opened FolderTree

  // ---------------------------------------------------------------- reservations

  ghost function Reservations(bs: map<Id, Batch>): map<Id, int> {
    map b | b in bs && bs[b].status == BatchOpen :: bs[b].reserved
  }

  ghost function OpenSizes(ss: map<Id, Session>, b: Id): map<Id, int> {
    map i | i in ss && ss[i].batch == b && ss[i].status == Open :: ss[i].expected
  }

  /** User, batch and session agree, and a batch is open exactly while it has an open session. */
  ghost predicate ReserveOk(s: State) {
    s.reserved == Sum(Reservations(s.batches))
    && BatchesOk(s.batches, s.sessions)
    && (forall b :: b in s.batches ==> b < s.next)
    && (forall i :: i in s.sessions ==> i < s.next && s.sessions[i].batch in s.batches)
  }

  ghost predicate BatchesOk(bs: map<Id, Batch>, ss: map<Id, Session>) {
    forall b {:trigger BatchOk(bs[b], ss, b)} :: b in bs ==> BatchOk(bs[b], ss, b)
  }

  ghost predicate BatchOk(batch: Batch, ss: map<Id, Session>, b: Id) {
    batch.reserved == Sum(OpenSizes(ss, b)) && (batch.status == BatchOpen <==> HasOpen(ss, b))
  }

  lemma BatchBounds(s: State, b: Id)
    requires ReserveOk(s) && b in s.batches
    ensures 0 <= s.batches[b].reserved
    ensures forall i :: i in OpenSizes(s.sessions, b) ==> s.sessions[i].expected <= s.batches[b].reserved
  {
    assert BatchOk(s.batches[b], s.sessions, b);
    SumNonNegative(OpenSizes(s.sessions, b));
    forall i | i in OpenSizes(s.sessions, b) ensures s.sessions[i].expected <= s.batches[b].reserved {
      SumAtLeast(OpenSizes(s.sessions, b), i);
    }
  }

  lemma UserBounds(s: State, b: Id)
    requires ReserveOk(s) && b in s.batches && s.batches[b].status == BatchOpen
    ensures s.batches[b].reserved <= s.reserved
  {
    forall c | c in Reservations(s.batches) ensures Reservations(s.batches)[c] >= 0 { BatchBounds(s, c); }
    SumAtLeast(Reservations(s.batches), b);
  }

  lemma OpenSessionBounds(s: State, i: Id)
    requires ReserveOk(s) && i in s.sessions && s.sessions[i].status == Open
    ensures var b := s.sessions[i].batch;
            s.batches[b].status == BatchOpen
            && s.sessions[i].expected <= s.batches[b].reserved <= s.reserved
  {
    var b := s.sessions[i].batch;
    assert BatchOk(s.batches[b], s.sessions, b);
    BatchBounds(s, b);
    assert i in OpenSizes(s.sessions, b);
    UserBounds(s, b);
  }

  /** The user holds at least what each batch holds, and a batch what each open session will need:
      the values that the greatest(0, ...) clamps guard never go below zero. */
  lemma ClampsIdle(s: State)
    requires ReserveOk(s)
    ensures forall b :: b in s.batches && s.batches[b].status == BatchOpen ==> 0 <= s.batches[b].reserved <= s.reserved
    ensures forall i :: i in s.sessions && s.sessions[i].status == Open ==>
              s.sessions[i].expected <= s.batches[s.sessions[i].batch].reserved <= s.reserved
  {
    forall b | b in s.batches && s.batches[b].status == BatchOpen ensures 0 <= s.batches[b].reserved <= s.reserved {
      BatchBounds(s, b);
      UserBounds(s, b);
    }
    forall i | i in s.sessions && s.sessions[i].status == Open
      ensures s.sessions[i].expected <= s.batches[s.sessions[i].batch].reserved <= s.reserved
    {
      OpenSessionBounds(s, i);
    }
  }

  ghost function Expecteds(b: Id, files: seq<Manifest>): map<Id, int> {
    map i | i in NewIds(b, |files|) :: files[i - b - 1].expected
  }

  lemma {:induction false} TotalIsSum(b: Id, files: seq<Manifest>)
    ensures Sum(Expecteds(b, files)) == Total(files)
    decreases |files|
  {
    var n := |files|;
    if n == 0 {
      assert Expecteds(b, files) == map[];
    } else {
      TotalIsSum(b, files[..n - 1]);
      assert InBlock(b, n, b + n);
      forall i: Id ensures i in NewIds(b, n) <==> i in NewIds(b, n - 1) || i == b + n {
        assert InBlock(b, n, i) <==> InBlock(b, n - 1, i) || i == b + n;
      }
      assert Expecteds(b, files) - {b + n} == Expecteds(b, files[..n - 1]);
      SumPick(Expecteds(b, files), b + n);
    }
  }

  /** The sessions a new batch opens: one per file, each expecting that file's bytes. */
  ghost predicate Opens(ns: map<Id, Session>, b: Id, files: seq<Manifest>) {
    ns.Keys == NewIds(b, |files|)
    && forall i :: i in ns ==>
      InBlock(b, |files|, i) && ns[i].batch == b && ns[i].status == Open && ns[i].expected == files[i - b - 1].expected
  }

  lemma NewSessionsOpen(es: Entries, b: Id, p: Id, files: seq<Manifest>)
    ensures Opens(NewSessions(es, b, p, files), b, files)
  {
    NewSessionRows(es, b, p, files);
  }

  lemma FreshBatchOk(ss: map<Id, Session>, ns: map<Id, Session>, b: Id, files: seq<Manifest>, expires: int)
    requires files != [] && Opens(ns, b, files)
    requires forall i :: i in ss ==> i < b && ss[i].batch != b
    ensures BatchOk(Batch(Total(files), BatchOpen, expires), ss + ns, b)
  {
    assert OpenSizes(ss + ns, b) == Expecteds(b, files);
    TotalIsSum(b, files);
    assert InBlock(b, |files|, b + 1);
    assert b + 1 in ns;
  }

  lemma OtherBatchOk(batch: Batch, ss: map<Id, Session>, ts: map<Id, Session>, c: Id)
    requires BatchOk(batch, ss, c) && OpenSizes(ts, c) == OpenSizes(ss, c)
    ensures BatchOk(batch, ts, c)
  {
    if HasOpen(ss, c) {
      var i :| i in ss && ss[i].status == Open && ss[i].batch == c;
      assert i in OpenSizes(ss, c);
    }
    if HasOpen(ts, c) {
      var i :| i in ts && ts[i].status == Open && ts[i].batch == c;
      assert i in OpenSizes(ts, c);
    }
  }

  lemma NewBatchRows(s: State, b: Id, ns: map<Id, Session>, files: seq<Manifest>, expires: int)
    requires ReserveOk(s) && s.next <= b && files != [] && Opens(ns, b, files)
    ensures BatchesOk(s.batches[b := Batch(Total(files), BatchOpen, expires)], s.sessions + ns)
  {
    var bs, ss := s.batches[b := Batch(Total(files), BatchOpen, expires)], s.sessions + ns;
    FreshBatchOk(s.sessions, ns, b, files, expires);
    forall c | c in bs ensures BatchOk(bs[c], ss, c) {
      if c != b {
        assert BatchOk(s.batches[c], s.sessions, c);
        assert OpenSizes(ss, c) == OpenSizes(s.sessions, c);
        OtherBatchOk(bs[c], s.sessions, ss, c);
      }
    }
  }

  lemma NewBatchHeld(bs: map<Id, Batch>, b: Id, batch: Batch)
    requires b !in bs && batch.status == BatchOpen
    ensures Sum(Reservations(bs[b := batch])) == Sum(Reservations(bs)) + batch.reserved
  {
    SumWrite(Reservations(bs), b, batch.reserved);
    assert Reservations(bs[b := batch]) == Reservations(bs)[b := batch.reserved];
  }

  lemma NewBatchOk(s: State, t: Forest, p: Id, files: seq<Manifest>, expires: int)
    requires ReserveOk(s) && s.next <= t.next && files != []
    ensures ReserveOk(AfterBatchRows(s, t, p, files, expires))
  {
    NewSessionsOpen(t.entries, t.next, p, files);
    NewBatchRows(s, t.next, NewSessions(t.entries, t.next, p, files), files, expires);
    NewBatchHeld(s.batches, t.next, Batch(Total(files), BatchOpen, expires));
  }

  lemma CreateBatchReserves(s: State, parent: Option<Id>, files: seq<Manifest>, expires: int)
    requires TreeOk(s) && ReserveOk(s)
    ensures ReserveOk(AfterCreateBatch(s, parent, files, expires))
  {
    var p := RootOr(s, parent);
    if BatchAdmitted(s, p, files) {
      BatchForest(s, parent, files);
      match WalkAll(Forest(s.entries, s.next), p, Dirs(files))
      case None =>
      case Some(t) => NewBatchOk(s, t, p, files, expires);
    }
  }

  /** Replacing one batch row and some of its own sessions. */
  lemma OneBatch(s: State, b: Id, batch: Batch, ts: map<Id, Session>)
    requires ReserveOk(s) && b in s.batches && s.batches[b].status == BatchOpen && BatchOk(batch, ts, b)
    requires forall c :: c != b ==> OpenSizes(ts, c) == OpenSizes(s.sessions, c)
    ensures BatchesOk(s.batches[b := batch], ts)
    ensures Sum(Reservations(s.batches[b := batch])) == s.reserved - s.batches[b].reserved + batch.reserved
  {
    var bs := s.batches[b := batch];
    forall c | c in bs ensures BatchOk(bs[c], ts, c) {
      if c != b {
        assert BatchOk(s.batches[c], s.sessions, c);
        OtherBatchOk(bs[c], s.sessions, ts, c);
      }
    }
    if batch.status == BatchOpen {
      assert Reservations(bs) == Reservations(s.batches)[b := batch.reserved];
      SumWrite(Reservations(s.batches), b, batch.reserved);
    } else {
      assert Reservations(bs) == Reservations(s.batches) - {b};
      SumPick(Reservations(s.batches), b);
      NoneOpen(ts, b);
    }
  }

  lemma NoneOpen(ss: map<Id, Session>, b: Id)
    requires !HasOpen(ss, b)
    ensures OpenSizes(ss, b) == map[] && Sum(OpenSizes(ss, b)) == 0
  {
    SumZero(OpenSizes(ss, b));
  }

  lemma OneSessionDone(s: State, sid: Id, ts: map<Id, Session>, batch: Batch)
    requires ReserveOk(s) && sid in s.sessions && s.sessions[sid].status == Open
    requires ts == s.sessions[sid := s.sessions[sid].(status := Completed)]
    requires var b := s.sessions[sid].batch;
             batch.reserved == s.batches[b].reserved - s.sessions[sid].expected
             && (batch.status == BatchOpen <==> HasOpen(ts, b))
    ensures var bs := s.batches[s.sessions[sid].batch := batch];
            BatchesOk(bs, ts) && Sum(Reservations(bs)) == s.reserved - s.sessions[sid].expected
  {
    var b := s.sessions[sid].batch;
    OpenSessionBounds(s, sid);
    assert BatchOk(s.batches[b], s.sessions, b);
    SumPick(OpenSizes(s.sessions, b), sid);
    assert OpenSizes(ts, b) == OpenSizes(s.sessions, b) - {sid};
    forall c | c != b ensures OpenSizes(ts, c) == OpenSizes(s.sessions, c) { OtherSizes(s.sessions, sid, ts[sid], c); }
    OneBatch(s, b, batch, ts);
  }

  lemma OtherSizes(ss: map<Id, Session>, sid: Id, u: Session, c: Id)
    requires sid in ss && u.batch == ss[sid].batch != c
    ensures OpenSizes(ss[sid := u], c) == OpenSizes(ss, c)
  {
  }

  lemma CompleteReleases(s: State, sid: Id, digest: string, fault: Fault)
    requires ReserveOk(s)
    ensures ReserveOk(AfterComplete(s, sid, digest, fault))
  {
    if Completes(s, sid, digest, fault) {
      OpenSessionBounds(s, sid);
      var ts := s.sessions[sid := s.sessions[sid].(status := Completed)];
      var b := s.sessions[sid].batch;
      var batch := AfterComplete(s, sid, digest, fault).batches[b];
      OneSessionDone(s, sid, ts, batch);
    }
  }

  lemma CloseReleases(s: State, b: Id, bst: BatchStatus, sst: SessionStatus)
    requires ReserveOk(s) && b in s.batches && s.batches[b].status == BatchOpen && bst != BatchOpen && sst != Open
    ensures ReserveOk(Closed(s, b, bst, sst))
  {
    var t := Closed(s, b, bst, sst);
    UserBounds(s, b);
    NoneOpen(t.sessions, b);
    forall c | c != b ensures OpenSizes(t.sessions, c) == OpenSizes(s.sessions, c) {}
    OneBatch(s, b, t.batches[b], t.sessions);
  }

  /** Steps that leave batch, expected size and status of every session alone. */
  lemma SameReserve(s: State, t: State)
    requires ReserveOk(s) && SameHolds(s, t)
    ensures ReserveOk(t)
  {
    forall b | b in t.batches ensures BatchOk(t.batches[b], t.sessions, b) {
      assert BatchOk(s.batches[b], s.sessions, b);
      assert OpenSizes(t.sessions, b) == OpenSizes(s.sessions, b);
      OtherBatchOk(t.batches[b], s.sessions, t.sessions, b);
    }
  }

  ghost predicate TouchesBatches(step: Step) {
    step.CreateBatch? || step.CompleteFile? || step.AbortBatch? || step.ExpireBatch?
  }

  /** Batch, expected size and status of every session, and what is reserved for them. */
  ghost predicate SameHolds(s: State, t: State) {
    t.batches == s.batches && t.reserved == s.reserved && s.next <= t.next && t.sessions.Keys == s.sessions.Keys
    && forall i :: i in s.sessions ==>
      t.sessions[i].batch == s.sessions[i].batch && t.sessions[i].status == s.sessions[i].status
      && t.sessions[i].expected == s.sessions[i].expected
  }

  lemma AppendSameHolds(s: State, sid: Id, now: int, offset: int, length: int, body: Bytes, fault: Fault)
    ensures SameHolds(s, Appended(s, sid, now, offset, length, body, fault).0)
  {
  }

  lemma PurgeSameReserve(s: State, i: Id, order: seq<Id>)
    requires ReserveOk(s)
    ensures ReserveOk(AfterPurge(s, i, order))
  {
    SameReserve(s, AfterPurge(s, i, order));
  }

  lemma BatchStepKeepsReserve(s: State, step: Step)
    requires TreeOk(s) && ReserveOk(s) && TouchesBatches(step)
    ensures ReserveOk(Apply(s, step))
  {
    match step
    case CreateBatch(p, files, expires) => CreateBatchReserves(s, p, files, expires);
    case CompleteFile(sid, digest, fault) => CompleteReleases(s, sid, digest, fault);
    case AbortBatch(b) => if AfterAbort(s, b) != s { CloseReleases(s, b, BatchAborted, Aborted); }
    case ExpireBatch(b, now) => if AfterExpire(s, b, now) != s { CloseReleases(s, b, BatchExpired, Expired); }
  }

  lemma AppendKeepsReserve(s: State, step: Step)
    requires ReserveOk(s) && step.AppendChunk?
    ensures ReserveOk(Apply(s, step))
  {
    AppendSameHolds(s, step.session, step.now, step.offset, step.length, step.body, step.fault);
    SameReserve(s, Apply(s, step));
  }

  lemma StepKeepsReserve(s: State, step: Step)
    requires TreeOk(s) && ReserveOk(s)
    ensures ReserveOk(Apply(s, step))
  {
    if TouchesBatches(step) { BatchStepKeepsReserve(s, step); }
    else if step.AppendChunk? { AppendKeepsReserve(s, step); }
    else if step.Purge? { PurgeSameReserve(s, step.id, step.order); }
    else { OtherSameReserve(s, step); }
  }

  lemma OtherSameReserve(s: State, step: Step)
    requires ReserveOk(s) && !TouchesBatches(step) && !step.AppendChunk? && !step.Purge?
    ensures ReserveOk(Apply(s, step))
  {
    OtherSameSessions(s, step);
    SameReserve(s, Apply(s, step));
  }

  lemma OtherSameSessions(s: State, step: Step)
    requires !TouchesBatches(step) && !step.AppendChunk? && !step.Purge?
    ensures var t := Apply(s, step);
            t.batches == s.batches && t.sessions == s.sessions && t.reserved == s.reserved && s.next <= t.next
  {
    if step.Upload? {
      UploadSameSessions(s, step.parent, step.name, step.data, step.mode);
    } else if step.SnapshotVersion? {
      assert Apply(s, step) == AfterSnapshot(s, step.id);
    } else if step.RestoreVersion? {
      assert Apply(s, step) == AfterRestoreVersion(s, step.id, step.version);
    }
  }

  lemma UploadSameSessions(s: State, p: Id, name: string, data: Bytes, mode: Mode)
    ensures var t := AfterUpload(s, p, name, data, mode);
            t.batches == s.batches && t.sessions == s.sessions && t.reserved == s.reserved && s.next <= t.next
  {
  }

  // ---------------------------------------------------------------- used bytes

  /** used_bytes is the size of all file rows, live and trashed. */
  ghost predicate UsedOk(s: State) {
    s.used == FileBytes(s.entries)
  }

  ghost function FileBytes(es: Entries): int {
    Sum(FileSizes(es, es.Keys))
  }

  /**
   * Two operations can unbalance the books. Completing over a folder bills a row that is not a file,
   * and restoring a version of another size bills nothing.
   */
  predicate UsedGuard(s: State, step: Step) {
    match step
    case CompleteFile(sid, digest, fault) =>
      Completes(s, sid, digest, fault) && s.sessions[sid].target.Some? ==>
        var row, size := s.entries[s.sessions[sid].target.value], s.sessions[sid].expected;
        row.kind == File || size == row.size || (s.used == 0 && size < row.size)
    case RestoreVersion(i, v) =>
      (i, v) in s.versions && i in s.entries && s.entries[i].kind == File ==>
        s.versions[(i, v)].size == s.entries[i].size
    case _ => true
  }

  lemma SizesNonNegative(es: Entries)
    ensures FileBytes(es) >= 0
    ensures forall i :: i in es && es[i].kind == File ==> es[i].size <= FileBytes(es)
  {
    SumNonNegative(FileSizes(es, es.Keys));
    forall i | i in es && es[i].kind == File ensures es[i].size <= FileBytes(es) {
      SumAtLeast(FileSizes(es, es.Keys), i);
    }
  }

  lemma SameSizes(es: Entries, fs: Entries)
    requires fs.Keys == es.Keys
    requires forall i :: i in es ==> fs[i].kind == es[i].kind && fs[i].size == es[i].size
    ensures FileBytes(fs) == FileBytes(es)
  {
    assert FileSizes(fs, fs.Keys) == FileSizes(es, es.Keys);
  }

  lemma WrittenSize(es: Entries, i: Id, e: Entry)
    requires i in es ==> e.kind == es[i].kind
    ensures FileBytes(es[i := e]) == FileBytes(es) + if e.kind == File then e.size - (if i in es then es[i].size else 0) else 0
  {
    var m, fs := FileSizes(es, es.Keys), es[i := e];
    if e.kind == File {
      assert FileSizes(fs, fs.Keys) == m[i := e.size];
      SumWrite(m, i, e.size);
    } else {
      assert FileSizes(fs, fs.Keys) == m;
    }
  }

  lemma GrownSize(es: Entries, next: Id, fs: Entries, next': Id)
    requires Grown(es, next, fs, next')
    ensures FileBytes(fs) == FileBytes(es)
  {
    assert FileSizes(fs, fs.Keys) == FileSizes(es, es.Keys);
  }

  /**
   * The clamps on used_bytes are idle as well: what a replacement of a file or a purge takes off is
   * contained in it.
   */
  lemma UsedClampsIdle(s: State)
    requires UsedOk(s)
    ensures forall i :: i in s.entries && s.entries[i].kind == File ==> 0 <= s.entries[i].size <= s.used
    ensures forall sid, digest ::
      (CanComplete(s, sid, digest) && s.sessions[sid].target.Some? && s.entries[s.sessions[sid].target.value].kind == File) ==>
        s.used + s.sessions[sid].expected - s.entries[s.sessions[sid].target.value].size >= 0
    ensures forall ids :: s.used - Sum(FileSizes(s.entries, ids)) >= 0
  {
    SizesNonNegative(s.entries);
    forall ids ensures s.used - Sum(FileSizes(s.entries, ids)) >= 0 {
      SplitSizes(s.entries, ids);
      SizesNonNegative(Without(s.entries, ids));
    }
  }

  lemma SplitSizes(es: Entries, ids: set<Id>)
    ensures FileBytes(Without(es, ids)) + Sum(FileSizes(es, ids)) == FileBytes(es)
  {
    var fs := Without(es, ids);
    var kept, gone := FileSizes(fs, fs.Keys), FileSizes(es, ids);
    assert kept.Keys !! gone.Keys;
    assert kept + gone == FileSizes(es, es.Keys);
    SumUnion(kept, gone);
  }

  lemma PurgeRefunds(s: State, i: Id, order: seq<Id>)
    requires TreeOk(s) && UsedOk(s)
    ensures UsedOk(AfterPurge(s, i, order))
    ensures PurgeTargets(s, i) != {} && Enumerates(order, PurgeTargets(s, i)) ==>
              AfterPurge(s, i, order).used == s.used - Sum(FileSizes(s.entries, PurgeTargets(s, i)))
  {
    var ids := PurgeTargets(s, i);
    if ids != {} && Enumerates(order, ids) {
      SplitSizes(s.entries, ids);
      SizesNonNegative(Without(s.entries, ids));
    }
  }

  lemma CompleteBills(s: State, sid: Id, digest: string, fault: Fault)
    requires TreeOk(s) && UsedOk(s)
    ensures UsedOk(AfterComplete(s, sid, digest, fault)) <==> UsedGuard(s, CompleteFile(sid, digest, fault))
  {
    if Completes(s, sid, digest, fault) {
      var id, e := CompletedId(s, sid), CompletedEntry(s, sid, digest);
      SizesNonNegative(s.entries);
      WrittenSize(s.entries, id, e);
    }
  }

  lemma InsertBills(s: State, p: Id, name: string, data: Bytes)
    requires TreeOk(s) && UsedOk(s)
    ensures UsedOk(AfterInsert(s, p, name, data))
  {
    WrittenSize(s.entries, s.next + 1, Entry(Some(p), name, File, BlobKey(s.next), |data|, 1, "", true));
  }

  lemma OverwriteBills(s: State, i: Id, data: Bytes)
    requires UsedOk(s) && i in s.entries && s.entries[i].kind == File
    ensures UsedOk(AfterOverwrite(s, i, data))
  {
    WrittenSize(s.entries, i, AfterOverwrite(s, i, data).entries[i]);
  }

  lemma UploadBills(s: State, p: Id, name: string, data: Bytes, mode: Mode)
    requires TreeOk(s) && UsedOk(s)
    ensures UsedOk(AfterUpload(s, p, name, data, mode))
  {
    if UploadAdmitted(s, p, Sanitize(name), data) {
      match Settle(s.entries, p, Sanitize(name), mode, 0)
      case None =>
      case Some((chosen, None)) => InsertBills(s, p, chosen, data);
      case Some((_, Some(i))) =>
        SettledFile(s.entries, p, Sanitize(name), mode, 0);
        OverwriteBills(s, i, data);
    }
  }

  lemma RestoreVersionBills(s: State, i: Id, v: nat)
    requires UsedOk(s)
    ensures UsedOk(AfterRestoreVersion(s, i, v)) <==> UsedGuard(s, RestoreVersion(i, v))
  {
    if (i, v) in s.versions && i in s.entries {
      WrittenSize(s.entries, i, AfterRestoreVersion(s, i, v).entries[i]);
    }
  }

  lemma CreateBatchBills(s: State, parent: Option<Id>, files: seq<Manifest>, expires: int)
    requires TreeOk(s) && UsedOk(s)
    ensures UsedOk(AfterCreateBatch(s, parent, files, expires))
  {
    var p := RootOr(s, parent);
    if BatchAdmitted(s, p, files) {
      BatchForest(s, parent, files);
      match WalkAll(Forest(s.entries, s.next), p, Dirs(files))
      case None =>
      case Some(t) => GrownSize(s.entries, s.next, t.entries, t.next);
    }
  }

  lemma CreateFolderBills(s: State, p: Id, rawName: string)
    requires UsedOk(s) && s.next !in s.entries
    ensures UsedOk(AfterCreateFolder(s, p, rawName))
  {
    WrittenSize(s.entries, s.next, Entry(Some(p), Sanitize(rawName), Folder, FolderKey(s.next), 0, 1, "", true));
  }

  lemma MoveBills(s: State, i: Id, p: Id)
    requires UsedOk(s)
    ensures UsedOk(AfterMove(s, i, p))
  {
    var t := AfterMove(s, i, p);
    if t != s { SameSizes(s.entries, t.entries); }
  }

  lemma RenameBills(s: State, i: Id, rawName: string)
    requires UsedOk(s)
    ensures UsedOk(AfterRename(s, i, rawName))
  {
    var t := AfterRename(s, i, rawName);
    if t != s { SameSizes(s.entries, t.entries); }
  }

  lemma DeleteBills(s: State, i: Id, order: seq<Id>)
    requires UsedOk(s)
    ensures UsedOk(AfterDelete(s, i, order))
  {
    var t := AfterDelete(s, i, order);
    if t != s { SameSizes(s.entries, t.entries); }
  }

  lemma RestoreBills(s: State, i: Id, order: seq<Id>)
    requires UsedOk(s)
    ensures UsedOk(AfterRestore(s, i, order))
  {
    var t := AfterRestore(s, i, order);
    if t != s { SameSizes(s.entries, t.entries); }
  }

  lemma AppendBills(s: State, sid: Id, now: int, offset: int, length: int, body: Bytes, fault: Fault)
    ensures var t := Appended(s, sid, now, offset, length, body, fault).0; t.entries == s.entries && SameBytes(s, t)
  {
  }

  lemma CloseFreesUsed(s: State, b: Id, now: int)
    ensures AfterAbort(s, b).used == s.used && AfterExpire(s, b, now).used == s.used
  {
  }

  lemma BatchStepBills(s: State, step: Step)
    requires TreeOk(s) && UsedOk(s) && TouchesBatches(step)
    ensures UsedOk(Apply(s, step)) <==> UsedGuard(s, step)
  {
    match step
    case CreateBatch(p, files, expires) => CreateBatchBills(s, p, files, expires);
    case CompleteFile(sid, digest, fault) => CompleteBills(s, sid, digest, fault);
    case AbortBatch(b) => CloseSameForest(s, b, 0); CloseFreesUsed(s, b, 0);
    case ExpireBatch(b, now) => CloseSameForest(s, b, now); CloseFreesUsed(s, b, now);
  }

  lemma BlobStepBills(s: State, step: Step)
    requires UsedOk(s)
    requires step.PruneVersions? || step.Collect? || step.SnapshotVersion? || step.RestoreVersion? || step.AppendChunk?
    ensures UsedOk(Apply(s, step)) <==> UsedGuard(s, step)
  {
    match step
    case AppendChunk(sid, now, offset, length, body, fault) => AppendBills(s, sid, now, offset, length, body, fault);
    case PruneVersions(_, _) =>
    case Collect(_) =>
    case SnapshotVersion(i) => SnapshotSameForest(s, i); SnapshotSameBytes(s, i);
    case RestoreVersion(i, v) => RestoreVersionBills(s, i, v);
  }

  /** Every step keeps used_bytes equal to the stored sizes exactly when the guard holds. */
  lemma StepKeepsUsed(s: State, step: Step)
    requires TreeOk(s) && UsedOk(s)
    ensures UsedOk(Apply(s, step)) <==> UsedGuard(s, step)
  {
    match step
    case Upload(p, name, data, mode) => UploadBills(s, p, name, data, mode);
    case Purge(i, order) => PurgeRefunds(s, i, order);
    case CreateFolder(p, name) => CreateFolderBills(s, p, name);
    case Move(i, p) => MoveBills(s, i, p);
    case RenameTo(i, name) => RenameBills(s, i, name);
    case Delete(i, order) => DeleteBills(s, i, order);
    case Restore(i, order) => RestoreBills(s, i, order);
    case _ => if TouchesBatches(step) { BatchStepBills(s, step); } else { BlobStepBills(s, step); }
  }

  // ---------------------------------------------------------------- quota

  ghost predicate LedgerOk(s: State) {
    TreeOk(s) && ReserveOk(s) && UsedOk(s)
  }

  predicate WithinQuota(s: State) {
    s.used + s.reserved <= s.quota
  }

  predicate WithinTwice(s: State) {
    s.reserved <= s.quota && s.used + s.reserved <= 2 * s.quota
  }

  /** What a step does to both bounds; `direct` marks uploads that bypass reservations. */
  predicate QuotaStep(s: State, t: State, direct: bool) {
    (WithinQuota(s) && !direct ==> WithinQuota(t)) && (WithinTwice(s) ==> WithinTwice(t))
  }

  lemma CompleteMovesBytes(s: State, sid: Id, digest: string, fault: Fault)
    requires LedgerOk(s) && UsedGuard(s, CompleteFile(sid, digest, fault))
    ensures QuotaStep(s, AfterComplete(s, sid, digest, fault), false)
  {
    if Completes(s, sid, digest, fault) {
      OpenSessionBounds(s, sid);
      SizesNonNegative(s.entries);
    }
  }

  lemma CloseFreesBytes(s: State, b: Id, now: int)
    requires ReserveOk(s)
    ensures QuotaStep(s, AfterAbort(s, b), false) && QuotaStep(s, AfterExpire(s, b, now), false)
  {
    if b in s.batches {
      BatchBounds(s, b);
      if s.batches[b].status == BatchOpen { UserBounds(s, b); }
    }
  }

  lemma PurgeFreesBytes(s: State, i: Id, order: seq<Id>)
    requires LedgerOk(s)
    ensures QuotaStep(s, AfterPurge(s, i, order), false)
  {
    PurgeRefunds(s, i, order);
    SumNonNegative(FileSizes(s.entries, PurgeTargets(s, i)));
  }

  lemma BytesNonNegative(s: State)
    requires ReserveOk(s) && UsedOk(s)
    ensures 0 <= s.used && 0 <= s.reserved
  {
    SizesNonNegative(s.entries);
    forall b | b in Reservations(s.batches) ensures Reservations(s.batches)[b] >= 0 { BatchBounds(s, b); }
    SumNonNegative(Reservations(s.batches));
  }

  /** Direct uploads look at used_bytes only, so they may use bytes that batches have reserved. */
  lemma UploadUsesBytes(s: State, p: Id, name: string, data: Bytes, mode: Mode)
    requires LedgerOk(s)
    ensures QuotaStep(s, AfterUpload(s, p, name, data, mode), true)
  {
    BytesNonNegative(s);
  }

  lemma CreateBatchAdmission(s: State, parent: Option<Id>, files: seq<Manifest>, expires: int)
    requires LedgerOk(s)
    ensures QuotaStep(s, AfterCreateBatch(s, parent, files, expires), false)
  {
    BytesNonNegative(s);
  }

  ghost predicate SameBytes(s: State, t: State) {
    t.used == s.used && t.reserved == s.reserved && t.quota == s.quota
  }

  lemma SnapshotSameBytes(s: State, i: Id)
    ensures SameBytes(s, AfterSnapshot(s, i))
  {
  }

  lemma RestoreVersionSameBytes(s: State, i: Id, v: nat)
    ensures SameBytes(s, AfterRestoreVersion(s, i, v))
  {
    SnapshotSameBytes(s, i);
  }

  lemma TreeSameBytes(s: State, step: Step)
    requires step.CreateFolder? || step.Move? || step.RenameTo? || step.Delete? || step.Restore?
             || step.PruneVersions? || step.Collect?
    ensures SameBytes(s, Apply(s, step))
  {
  }

  lemma BatchStepKeepsQuota(s: State, step: Step)
    requires LedgerOk(s) && UsedGuard(s, step) && TouchesBatches(step)
    ensures QuotaStep(s, Apply(s, step), false)
  {
    match step
    case CreateBatch(p, files, expires) => CreateBatchAdmission(s, p, files, expires);
    case CompleteFile(sid, digest, fault) => CompleteMovesBytes(s, sid, digest, fault);
    case AbortBatch(b) => CloseFreesBytes(s, b, 0);
    case ExpireBatch(b, now) => CloseFreesBytes(s, b, now);
  }

  lemma StepKeepsQuota(s: State, step: Step)
    requires LedgerOk(s) && UsedGuard(s, step)
    ensures QuotaStep(s, Apply(s, step), step.Upload?)
  {
    if TouchesBatches(step) {
      BatchStepKeepsQuota(s, step);
    } else {
      match step
      case AppendChunk(sid, now, offset, length, body, fault) => AppendBills(s, sid, now, offset, length, body, fault);
      case Upload(p, name, data, mode) => UploadUsesBytes(s, p, name, data, mode);
      case Purge(i, order) => PurgeFreesBytes(s, i, order);
      case SnapshotVersion(i) => SnapshotSameBytes(s, i);
      case RestoreVersion(i, v) => RestoreVersionSameBytes(s, i, v);
      case _ => TreeSameBytes(s, step);
    }
  }

  // ---------------------------------------------------------------- runs

  /** Every step of the run meets its guard in the state where it is taken. */
  ghost predicate UsedGuarded(s: State, steps: seq<Step>) {
    steps == [] ||
    var rest, last := steps[..|steps| - 1], steps[|steps| - 1];
    UsedGuarded(s, rest) && UsedGuard(Run(s, rest), last)
  }

  lemma UsedGuardedMore(s: State, steps: seq<Step>, step: Step)
    ensures UsedGuarded(s, steps + [step]) <==> UsedGuarded(s, steps) && UsedGuard(Run(s, steps), step)
  {
    assert (steps + [step])[..|steps|] == steps;
  }

  /** Reservations balance over every run, whatever the steps. */
  lemma {:induction false} ReserveOverRuns(s: State, steps: seq<Step>)
    requires TreeOk(s) && ReserveOk(s)
    ensures ReserveOk(Run(s, steps))
    decreases |steps|
  {
    if steps != [] {
      var rest := steps[..|steps| - 1];
      ReserveOverRuns(s, rest);
      TreeOverRuns(s, rest);
      StepKeepsReserve(Run(s, rest), steps[|steps| - 1]);
    }
  }

  /** Used bytes balance over guarded runs; quota holds twice over, and once over without direct uploads. */
  lemma {:induction false} LedgerOverRuns(s: State, steps: seq<Step>)
    requires LedgerOk(s) && UsedGuarded(s, steps)
    ensures LedgerOk(Run(s, steps))
    ensures WithinTwice(s) ==> WithinTwice(Run(s, steps))
    ensures WithinQuota(s) && (forall k :: 0 <= k < |steps| ==> !steps[k].Upload?) ==> WithinQuota(Run(s, steps))
    decreases |steps|
  {
    if steps != [] {
      var rest, last := steps[..|steps| - 1], steps[|steps| - 1];
      LedgerOverRuns(s, rest);
      var t := Run(s, rest);
      StepKeepsTree(t, last);
      StepKeepsReserve(t, last);
      StepKeepsUsed(t, last);
      StepKeepsQuota(t, last);
    }
  }

  lemma InitLedger(cfg: Config, quota: nat)
    ensures LedgerOk(Init(cfg, quota)) && WithinQuota(Init(cfg, quota)) && WithinTwice(Init(cfg, quota))
  {
    InitTree(cfg, quota);
    var s := Init(cfg, quota);
    SumZero(FileSizes(s.entries, s.entries.Keys));
  }

  // ---------------------------------------------------------------- the bound is met

  const SAMPLE_NAME: string := "b"

  lemma PlainName()
    ensures Sanitize(SAMPLE_NAME) == SAMPLE_NAME
  {
    assert Trim(SAMPLE_NAME) == "b" by { assert TrimRight("b") == "b"; }
    assert Scrub("b") == "b" by { assert "b"[1..] == ""; assert Scrub("") == ""; }
  }

  /** Reserving the whole quota for one file at the root. */
  lemma ReserveAll(cfg: Config, quota: nat, files: seq<Manifest>)
    requires cfg.maxFiles >= 1 && cfg.maxFileBytes >= quota && cfg.maxBatchBytes >= quota
    requires files == [Manifest([SAMPLE_NAME], SAMPLE_NAME, quota, None, None, "")]
    ensures var s := Init(cfg, quota);
      var t := AfterCreateBatch(s, None, files, 0);
      t.reserved == quota && t == s.(next := t.next, batches := t.batches, sessions := t.sessions, disk := t.disk, reserved := quota)
  {
    var s := Init(cfg, quota);
    assert files[..0] == [] && Total(files[..0]) == 0 && Total(files) == quota;
    assert Dir(files[0]) == [];
    assert Dirs(files) == [[]] && Dirs(files)[..0] == [];
    var t := Forest(s.entries, s.next);
    assert WalkAll(t, 0, []) == Some(t) && Walk(t, 0, []) == Some((t, 0));
    assert WalkAll(t, 0, Dirs(files)) == Some(t);
    assert BatchAdmitted(s, 0, files);
  }

  lemma UploadToEmptyRoot(s: State, data: Bytes)
    requires s.entries == Init(s.cfg, 0).entries && s.next > 0 && s.used == 0
    requires |data| <= s.cfg.maxFileBytes && |data| <= s.quota
    ensures var t := AfterUpload(s, 0, SAMPLE_NAME, data, Refuse);
      t.used == |data| && t.reserved == s.reserved && t.quota == s.quota
  {
    PlainName();
    var e := Entry(Some(0), SAMPLE_NAME, File, BlobKey(s.next), |data|, 1, "", true);
    assert FindChild(s.entries, 0, SAMPLE_NAME, File).None?;
    assert Settle(s.entries, 0, SAMPLE_NAME, Refuse, 0) == Some((SAMPLE_NAME, None));
    assert UniqueNames(s.entries[s.next + 1 := e]);
  }

  /** Twice the quota is reached: direct uploads fill bytes that a batch has reserved. */
  lemma TwiceIsReached(cfg: Config, quota: nat)
    requires cfg.maxFiles >= 1 && cfg.maxFileBytes >= quota && cfg.maxBatchBytes >= quota
    ensures exists steps ::
      var t := Run(Init(cfg, quota), steps);
      UsedGuarded(Init(cfg, quota), steps) && t.used + t.reserved == 2 * t.quota && t.quota == quota
  {
    var files := [Manifest([SAMPLE_NAME], SAMPLE_NAME, quota, None, None, "")];
    var data: Bytes := seq(quota, _ => 0);
    var reserve, fill := CreateBatch(None, files, 0), Upload(0, SAMPLE_NAME, data, Refuse);
    FillReserved(cfg, quota, files, data);
    RunMore(Init(cfg, quota), [], reserve);
    RunMore(Init(cfg, quota), [] + [reserve], fill);
    UsedGuardedMore(Init(cfg, quota), [], reserve);
    UsedGuardedMore(Init(cfg, quota), [] + [reserve], fill);
    assert Run(Init(cfg, quota), [] + [reserve] + [fill]).used == quota;
  }

  lemma FillReserved(cfg: Config, quota: nat, files: seq<Manifest>, data: Bytes)
    requires cfg.maxFiles >= 1 && cfg.maxFileBytes >= quota && cfg.maxBatchBytes >= quota
    requires files == [Manifest([SAMPLE_NAME], SAMPLE_NAME, quota, None, None, "")] && |data| == quota
    ensures var t := Apply(Apply(Init(cfg, quota), CreateBatch(None, files, 0)), Upload(0, SAMPLE_NAME, data, Refuse));
      t.used == quota && t.reserved == quota && t.quota == quota
  {
    ReserveAll(cfg, quota, files);
    UploadToEmptyRoot(AfterCreateBatch(Init(cfg, quota), None, files, 0), data);
  }
}
