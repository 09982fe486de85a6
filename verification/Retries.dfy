/** What becomes of a session whose completion failed: exactly when it can still be completed. */
module Retries {
  import opened Names
  import opened Sums
  import opened Model
  import opened Manifests
  import opened FolderTree
  import opened Ledger
  import opened Queries
  import opened Uploads

  /** Everything was received, but the temporary file is gone. */
  predicate Emptied(s: State, sid: Id) {
    sid in s.sessions && s.sessions[sid].received == s.sessions[sid].expected && TempKey(sid) !in s.disk
  }

  predicate Lost(s: State, sid: Id) {
    Emptied(s, sid) && s.sessions[sid].expected > 0 && s.sessions[sid].status == Open
  }

  /** From the given time on no chunk can bring the file back: it held bytes, or the batch is overdue. */
  predicate Stranded(s: State, sid: Id, now: int) {
    Emptied(s, sid) && s.sessions[sid].batch in s.batches
    && (s.sessions[sid].expected > 0 || s.batches[s.sessions[sid].batch].expires < now)
  }

  /** Data is lost exactly by a completion that passes its checks and then fails, unless the file is empty. */
  lemma LostExact(s: State, sid: Id, digest: string, fault: Fault)
    requires sid in s.sessions
    ensures var t := AfterComplete(s, sid, digest, fault);
      && sid in t.sessions
      && (Lost(t, sid) <==>
            (Lost(s, sid) || (CanComplete(s, sid, digest) && !Completes(s, sid, digest, fault) && s.sessions[sid].expected > 0)))
      && (!CanComplete(s, sid, digest) ==> t == s)
  {
  }

  /** A failed completion leaves the rows alone and takes the file. */
  lemma FailedLeaves(s: State, sid: Id, digest: string, fault: Fault)
    requires CanComplete(s, sid, digest) && !Completes(s, sid, digest, fault)
    ensures var t := AfterComplete(s, sid, digest, fault);
      Emptied(t, sid) && t == s.(next := s.next + 2, disk := t.disk)
  {
  }

  // ---------------------------------------------------------------- stranded sessions stay stranded

  /** No chunk of the step is dated before the given time. */
  predicate NotBefore(step: Step, now: int) {
    step.AppendChunk? ==> now <= step.now
  }

  ghost predicate From(steps: seq<Step>, now: int) {
    forall k :: 0 <= k < |steps| ==> NotBefore(steps[k], now)
  }

  /** The row and the missing file as they were. */
  predicate SameSession(s: State, t: State, sid: Id) {
    sid in s.sessions && sid in t.sessions && s.sessions[sid].batch in s.batches && s.sessions[sid].batch in t.batches
    && t.sessions[sid].batch == s.sessions[sid].batch && t.sessions[sid].expected == s.sessions[sid].expected
    && t.sessions[sid].received == s.sessions[sid].received
    && t.batches[s.sessions[sid].batch].expires == s.batches[s.sessions[sid].batch].expires
    && (TempKey(sid) !in s.disk ==> TempKey(sid) !in t.disk)
  }

  lemma AppendStranded(s: State, sid: Id, now: int, step: Step)
    requires Stranded(s, sid, now) && step.AppendChunk? && (s.sessions[sid].expected > 0 || NotBefore(step, now))
    ensures SameSession(s, Apply(s, step), sid)
  {
    OtherTemps(s, step.session, step.now, step.offset, step.length, step.body, step.fault);
    if step.session == sid {
      assert !ChunkAdmissible(s, sid, step.now, step.offset, step.length);
    } else {
      AppendSameHolds(s, step.session, step.now, step.offset, step.length, step.body, step.fault);
    }
  }

  lemma CreateBatchStranded(s: State, sid: Id, now: int, step: Step)
    requires TreeOk(s) && ReserveOk(s) && Stranded(s, sid, now) && step.CreateBatch?
    ensures SameSession(s, Apply(s, step), sid)
  {
    var p := RootOr(s, step.into);
    if BatchAdmitted(s, p, step.files) {
      BatchForest(s, step.into, step.files);
      match WalkAll(Forest(s.entries, s.next), p, Dirs(step.files))
      case None =>
      case Some(f) => RowsStranded(s, f, p, step.files, step.expires, sid);
    }
  }

  lemma RowsStranded(s: State, f: Forest, p: Id, files: seq<Manifest>, expires: int, sid: Id)
    requires ReserveOk(s) && sid in s.sessions && s.next <= f.next
    ensures SameSession(s, AfterBatchRows(s, f, p, files, expires), sid)
  {
    BatchRowsElsewhere(s, f, p, files, expires, sid);
  }

  lemma CompleteStranded(s: State, sid: Id, now: int, step: Step)
    requires Stranded(s, sid, now) && step.CompleteFile?
    ensures SameSession(s, Apply(s, step), sid)
  {
  }

  lemma CloseStranded(s: State, sid: Id, now: int, step: Step)
    requires Stranded(s, sid, now) && (step.AbortBatch? || step.ExpireBatch?)
    ensures SameSession(s, Apply(s, step), sid)
  {
  }

  lemma UploadStranded(s: State, sid: Id, now: int, step: Step)
    requires Stranded(s, sid, now) && step.Upload?
    ensures SameSession(s, Apply(s, step), sid)
  {
  }

  lemma SnapshotStranded(s: State, sid: Id, now: int, i: Id)
    requires Stranded(s, sid, now)
    ensures SameSession(s, AfterSnapshot(s, i), sid)
  {
  }

  lemma VersionStranded(s: State, sid: Id, now: int, step: Step)
    requires Stranded(s, sid, now) && (step.SnapshotVersion? || step.RestoreVersion?)
    ensures SameSession(s, Apply(s, step), sid)
  {
    SnapshotStranded(s, sid, now, step.id);
  }

  lemma OtherStranded(s: State, sid: Id, now: int, step: Step)
    requires Stranded(s, sid, now)
    requires step.CreateFolder? || step.Move? || step.RenameTo? || step.Delete? || step.Restore? || step.Purge?
             || step.PruneVersions? || step.Collect?
    ensures SameSession(s, Apply(s, step), sid)
  {
  }

  lemma StepStranded(s: State, sid: Id, now: int, step: Step)
    requires TreeOk(s) && ReserveOk(s) && Stranded(s, sid, now)
    requires s.sessions[sid].expected > 0 || NotBefore(step, now)
    ensures SameSession(s, Apply(s, step), sid)
  {
    if step.AppendChunk? { AppendStranded(s, sid, now, step); }
    else if step.CreateBatch? { CreateBatchStranded(s, sid, now, step); }
    else if step.CompleteFile? { CompleteStranded(s, sid, now, step); }
    else if step.AbortBatch? || step.ExpireBatch? { CloseStranded(s, sid, now, step); }
    else if step.Upload? { UploadStranded(s, sid, now, step); }
    else if step.SnapshotVersion? || step.RestoreVersion? { VersionStranded(s, sid, now, step); }
    else { OtherStranded(s, sid, now, step); }
  }

  lemma {:induction false} StrandedForever(s: State, sid: Id, now: int, steps: seq<Step>)
    requires TreeOk(s) && ReserveOk(s) && Stranded(s, sid, now)
    requires s.sessions[sid].expected > 0 || From(steps, now)
    ensures Stranded(Run(s, steps), sid, now) && Run(s, steps).sessions[sid].expected == s.sessions[sid].expected
    decreases |steps|
  {
    if steps != [] {
      var rest, last := steps[..|steps| - 1], steps[|steps| - 1];
      StrandedForever(s, sid, now, rest);
      TreeOverRuns(s, rest);
      ReserveOverRuns(s, rest);
      StepStranded(Run(s, rest), sid, now, last);
    }
  }

  /** A session that lost its data never completes, whatever is sent to it at whatever time. */
  lemma LostForever(s: State, sid: Id, steps: seq<Step>, digest: string)
    requires TreeOk(s) && ReserveOk(s) && Lost(s, sid)
    ensures !CanComplete(Run(s, steps), sid, digest)
  {
    StrandedForever(s, sid, 0, steps);
  }

  // ---------------------------------------------------------------- names stand apart from the root's

  /** Sanitising keeps slashes out of file names; only the root is named by one. */
  ghost predicate NamesOk(s: State) {
    s.root in s.entries && s.entries[s.root].name == "/" && forall i :: i in s.sessions ==> '/' !in s.sessions[i].name
  }

  predicate SentClean(step: Step) {
    step.CreateBatch? ==> forall k | 0 <= k < |step.files| :: '/' !in step.files[k].name
  }

  /** The root keeps its name, and sessions theirs. */
  ghost predicate SameNaming(s: State, t: State) {
    t.root == s.root && s.root in s.entries && s.root in t.entries && t.entries[s.root].name == s.entries[s.root].name
    && t.sessions.Keys == s.sessions.Keys && forall i :: i in s.sessions ==> t.sessions[i].name == s.sessions[i].name
  }

  lemma NewNames(es: Entries, b: Id, p: Id, files: seq<Manifest>)
    requires forall k :: 0 <= k < |files| ==> '/' !in files[k].name
    ensures forall i :: i in NewSessions(es, b, p, files) ==> '/' !in NewSessions(es, b, p, files)[i].name
  {
    NewSessionRows(es, b, p, files);
    var ns := NewSessions(es, b, p, files);
    forall i | i in ns ensures '/' !in ns[i].name { assert i in NewIds(b, |files|); }
  }

  lemma RowsNaming(s: State, f: Forest, p: Id, files: seq<Manifest>, expires: int)
    requires NamesOk(s) && Grown(s.entries, s.next, f.entries, f.next)
    requires forall k :: 0 <= k < |files| ==> '/' !in files[k].name
    ensures NamesOk(AfterBatchRows(s, f, p, files, expires))
  {
    NewNames(f.entries, f.next, p, files);
  }

  lemma CreateBatchNaming(s: State, step: Step)
    requires TreeOk(s) && NamesOk(s) && step.CreateBatch? && SentClean(step)
    ensures NamesOk(Apply(s, step))
  {
    var p := RootOr(s, step.into);
    if BatchAdmitted(s, p, step.files) {
      BatchForest(s, step.into, step.files);
      match WalkAll(Forest(s.entries, s.next), p, Dirs(step.files))
      case None =>
      case Some(f) => RowsNaming(s, f, p, step.files, step.expires);
    }
  }

  lemma AppendNaming(s: State, step: Step)
    requires s.root in s.entries && step.AppendChunk?
    ensures SameNaming(s, Apply(s, step))
  {
    OtherTemps(s, step.session, step.now, step.offset, step.length, step.body, step.fault);
    var t := Appended(s, step.session, step.now, step.offset, step.length, step.body, step.fault).0;
    assert t.root == s.root && (step.session in s.sessions ==> t.sessions[step.session].name == s.sessions[step.session].name);
  }

  lemma CompleteNaming(s: State, step: Step)
    requires TreeOk(s) && step.CompleteFile?
    ensures SameNaming(s, Apply(s, step))
  {
  }

  lemma CloseNaming(s: State, step: Step)
    requires s.root in s.entries && (step.AbortBatch? || step.ExpireBatch?)
    ensures SameNaming(s, Apply(s, step))
  {
  }

  lemma UploadNaming(s: State, step: Step)
    requires TreeOk(s) && step.Upload?
    ensures SameNaming(s, Apply(s, step))
  {
  }

  lemma RowNaming(s: State, step: Step)
    requires TreeOk(s) && (step.CreateFolder? || step.Move? || step.RenameTo?)
    ensures SameNaming(s, Apply(s, step))
  {
    match step
    case CreateFolder(p, name) => assert s.root in AfterCreateFolder(s, p, name).entries;
    case Move(i, p) => assert AfterMove(s, i, p) != s ==> i != s.root;
    case RenameTo(i, name) => assert AfterRename(s, i, name) != s ==> i != s.root;
  }

  lemma TrashNaming(s: State, i: Id, order: seq<Id>)
    requires s.root in s.entries
    ensures SameNaming(s, AfterDelete(s, i, order)) && SameNaming(s, AfterRestore(s, i, order))
  {
  }

  lemma PurgeNaming(s: State, step: Step)
    requires TreeOk(s) && step.Purge?
    ensures SameNaming(s, Apply(s, step))
  {
    if PurgeTargets(s, step.id) != {} && Enumerates(step.order, PurgeTargets(s, step.id)) {
      PurgeLeavesNoOrphan(s, step.id, step.order);
    }
  }

  lemma VersionNaming(s: State, step: Step)
    requires s.root in s.entries
    requires step.PruneVersions? || step.Collect? || step.SnapshotVersion? || step.RestoreVersion?
    ensures SameNaming(s, Apply(s, step))
  {
  }

  lemma StepKeepsNames(s: State, step: Step)
    requires TreeOk(s) && NamesOk(s) && SentClean(step)
    ensures NamesOk(Apply(s, step))
  {
    if step.CreateBatch? { CreateBatchNaming(s, step); }
    else if step.AppendChunk? { AppendNaming(s, step); }
    else if step.CompleteFile? { CompleteNaming(s, step); }
    else if step.AbortBatch? || step.ExpireBatch? { CloseNaming(s, step); }
    else if step.Upload? { UploadNaming(s, step); }
    else if step.Purge? { PurgeNaming(s, step); }
    else if step.PruneVersions? || step.Collect? || step.SnapshotVersion? || step.RestoreVersion? { VersionNaming(s, step); }
    else if step.Delete? || step.Restore? { TrashNaming(s, step.id, step.order); }
    else { RowNaming(s, step); }
  }

  /** What the server makes of a manifest is clean in this sense. */
  lemma NormalizedIsClean(raw: seq<RawFile>, into: Option<Id>, expires: int)
    requires NormalizedAll(raw).Some?
    ensures SentClean(CreateBatch(into, NormalizedAll(raw).value, expires))
  {
    var files := NormalizedAll(raw).value;
    forall k | 0 <= k < |files| ensures '/' !in files[k].name {
      assert Parsed(raw)[k] == Normalized(raw[k]);
      NormalizedSafe(raw[k]);
    }
  }

  lemma {:induction false} NamesOverRuns(s: State, steps: seq<Step>)
    requires TreeOk(s) && NamesOk(s) && forall k :: 0 <= k < |steps| ==> SentClean(steps[k])
    ensures NamesOk(Run(s, steps))
    decreases |steps|
  {
    if steps != [] {
      var rest := steps[..|steps| - 1];
      NamesOverRuns(s, rest);
      TreeOverRuns(s, rest);
      StepKeepsNames(Run(s, rest), steps[|steps| - 1]);
    }
  }

  // ---------------------------------------------------------------- completing after all

  /** An empty chunk puts the empty file back. */
  function Refill(sid: Id, now: int): Step {
    AppendChunk(sid, now, 0, 0, [], NoFault)
  }

  lemma RefillCompletes(s: State, sid: Id, digest: string, fault: Fault, now: int)
    requires CanComplete(s, sid, digest) && !Completes(s, sid, digest, fault)
    requires s.sessions[sid].expected == 0 && now <= s.batches[s.sessions[sid].batch].expires
    ensures var t := AfterComplete(s, sid, digest, fault);
      var u := Apply(t, Refill(sid, now));
      CanComplete(u, sid, digest) && u == t.(disk := t.disk[TempKey(sid) := []])
  {
    var t := AfterComplete(s, sid, digest, fault);
    assert ChunkAdmissible(t, sid, now, 0, 0);
    var u := Apply(t, Refill(sid, now));
    assert Limit([], 1) == [];
    assert t.sessions[sid := t.sessions[sid].(received := 0)] == t.sessions;
  }

  /** A replacement never clashes: the row keeps its place and its name. */
  lemma ReplacementFits(s: State, sid: Id, digest: string)
    requires TreeOk(s) && CanComplete(s, sid, digest) && s.sessions[sid].target.Some?
    ensures Completes(s, sid, digest, NoFault)
  {
    var i, e := CompletedId(s, sid), CompletedEntry(s, sid, digest);
    SameNames(s.entries, s.entries[i := e]);
  }

  /** The live row that takes the new file's name. */
  ghost predicate Taken(s: State, sid: Id, j: Id)
    requires sid in s.sessions
  {
    j in s.entries && s.entries[j].live && s.entries[j].parent == s.sessions[sid].parent
    && Lower(s.entries[j].name) == Lower(s.sessions[sid].name)
  }

  lemma LowerKeepsSlash(s: string)
    requires '/' !in s
    ensures Lower(s) != Lower("/")
  {
    assert Lower("/") == "/";
    assert s != "" ==> s[0] in s && LowerChar(s[0]) == Lower(s)[0];
  }

  /** Trashing whatever has the name makes room; the root never has it. */
  lemma RoomAfterDelete(s: State, sid: Id, digest: string, j: Id, order: seq<Id>)
    requires TreeOk(s) && NamesOk(s) && CanComplete(s, sid, digest) && s.sessions[sid].target.None?
    requires Taken(s, sid, j) && Enumerates(order, TrashTargets(s, j))
    ensures Completes(Apply(s, Delete(j, order)), sid, digest, NoFault)
  {
    LowerKeepsSlash(s.sessions[sid].name);
    assert j != s.root;
    assert Climbs(s.entries, LiveIds(s.entries), j, j, 0);
    var t := AfterDelete(s, j, order);
    DeleteKeeps(s, j, order);
    assert j in TrashTargets(s, j);
    forall k | k in t.entries && t.entries[k].live
      ensures !(t.entries[k].parent == s.sessions[sid].parent && Lower(t.entries[k].name) == Lower(s.sessions[sid].name))
    {
      assert !Clash(s.entries, j, k);
    }
    RoomMeansUnique(t, sid, digest);
  }

  lemma RoomMeansUnique(s: State, sid: Id, digest: string)
    requires TreeOk(s) && CanComplete(s, sid, digest) && s.sessions[sid].target.None?
    requires forall j :: !Taken(s, sid, j)
    ensures Completes(s, sid, digest, NoFault)
  {
    var i, fs := CompletedId(s, sid), s.entries[CompletedId(s, sid) := CompletedEntry(s, sid, digest)];
    forall j, k | j in fs && k in fs ensures !Clash(fs, j, k) {
      assert j in s.entries && k in s.entries ==> !Clash(s.entries, j, k);
      assert !Taken(s, sid, j) && !Taken(s, sid, k);
    }
  }

  lemma {:induction false} EnumerationExists(ids: set<Id>)
    ensures exists order :: Enumerates(order, ids)
  {
    if ids == {} {
      assert Enumerates<Id>([], ids);
    } else {
      var i :| i in ids;
      EnumerationExists(ids - {i});
      var order :| Enumerates(order, ids - {i});
      EnumeratesMore(order, ids - {i}, i);
      assert ids - {i} + {i} == ids;
    }
  }

  /** From a state that may complete, at most one trashing makes the completion succeed. */
  lemma RoomCanBeMade(s: State, sid: Id, digest: string) returns (steps: seq<Step>)
    requires TreeOk(s) && NamesOk(s) && CanComplete(s, sid, digest)
    ensures Completes(Run(s, steps), sid, digest, NoFault) && forall k :: 0 <= k < |steps| ==> steps[k].Delete?
  {
    if s.sessions[sid].target.Some? {
      ReplacementFits(s, sid, digest);
      return [];
    }
    if j :| Taken(s, sid, j) {
      EnumerationExists(TrashTargets(s, j));
      var order :| Enumerates(order, TrashTargets(s, j));
      RoomAfterDelete(s, sid, digest, j, order);
      RunMore(s, [], Delete(j, order));
      return [] + [Delete(j, order)];
    }
    RoomMeansUnique(s, sid, digest);
    steps := [];
  }

  ghost predicate CanStillComplete(s: State, sid: Id, now: int) {
    exists steps, digest :: From(steps, now) && Completes(Run(s, steps), sid, digest, NoFault)
  }

  /**
   * A completion that passed its checks and failed can be made good, from a given time on, exactly
   * when the file is empty and the batch is not overdue.
   */
  lemma RetryExact(s: State, sid: Id, digest: string, fault: Fault, now: int)
    requires TreeOk(s) && ReserveOk(s) && NamesOk(s)
    requires CanComplete(s, sid, digest) && !Completes(s, sid, digest, fault)
    ensures CanStillComplete(AfterComplete(s, sid, digest, fault), sid, now)
            <==> s.sessions[sid].expected == 0 && now <= s.batches[s.sessions[sid].batch].expires
  {
    var t := AfterComplete(s, sid, digest, fault);
    if s.sessions[sid].expected == 0 && now <= s.batches[s.sessions[sid].batch].expires {
      RetryWorks(s, sid, digest, fault, now);
    } else {
      FailedLeaves(s, sid, digest, fault);
      CompleteKeeps(s, sid, digest, fault);
      CompleteReleases(s, sid, digest, fault);
      forall steps, d | From(steps, now) ensures !Completes(Run(t, steps), sid, d, NoFault) {
        StrandedForever(t, sid, now, steps);
      }
    }
  }

  lemma RetryWorks(s: State, sid: Id, digest: string, fault: Fault, now: int)
    requires TreeOk(s) && NamesOk(s) && CanComplete(s, sid, digest) && !Completes(s, sid, digest, fault)
    requires s.sessions[sid].expected == 0 && now <= s.batches[s.sessions[sid].batch].expires
    ensures CanStillComplete(AfterComplete(s, sid, digest, fault), sid, now)
  {
    var t := AfterComplete(s, sid, digest, fault);
    FailedLeaves(s, sid, digest, fault);
    CompleteKeeps(s, sid, digest, fault);
    RefillCompletes(s, sid, digest, fault, now);
    var u := Apply(t, Refill(sid, now));
    var more := RoomCanBeMade(u, sid, digest);
    RunMore(t, [], Refill(sid, now));
    RunAppend(t, [] + [Refill(sid, now)], more);
    assert From([] + [Refill(sid, now)] + more, now);
  }

  lemma InitNames(cfg: Config, quota: nat)
    ensures NamesOk(Init(cfg, quota))
  {
  }
}
