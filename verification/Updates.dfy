/** Content versions only grow, so an expected version protects a target against lost updates. */
module Updates {
  import opened Names
  import opened Sums
  import opened Model
  import opened FolderTree

  /** Each surviving row is untouched or has a higher version; new rows have new identifiers. */
  ghost predicate Ages(s: State, t: State) {
    s.next <= t.next
    && (forall i :: i in s.entries && i in t.entries ==>
          t.entries[i] == s.entries[i] || t.entries[i].version > s.entries[i].version)
    && (forall i :: i in t.entries && i !in s.entries ==> i >= s.next)
  }

  lemma AgesChain(s: State, t: State, u: State)
    requires Ages(s, t) && Ages(t, u) && forall i :: i in s.entries ==> i < s.next
    ensures Ages(s, u)
  {
  }

  lemma SameEntriesAge(s: State, t: State)
    requires t.entries == s.entries && s.next <= t.next
    ensures Ages(s, t)
  {
  }

  lemma CreateBatchAges(s: State, parent: Option<Id>, files: seq<Manifest>, expires: int)
    requires TreeOk(s)
    ensures Ages(s, AfterCreateBatch(s, parent, files, expires))
  {
    if BatchAdmitted(s, RootOr(s, parent), files) { BatchForest(s, parent, files); }
  }

  lemma PurgeAges(s: State, i: Id, order: seq<Id>)
    requires TreeOk(s)
    ensures Ages(s, AfterPurge(s, i, order))
  {
    if PurgeTargets(s, i) != {} && Enumerates(order, PurgeTargets(s, i)) { PurgeLeavesNoOrphan(s, i, order); }
  }

  lemma CompleteAges(s: State, sid: Id, digest: string, fault: Fault)
    requires TreeOk(s)
    ensures Ages(s, AfterComplete(s, sid, digest, fault))
  {
  }

  lemma UploadAges(s: State, p: Id, name: string, data: Bytes, mode: Mode)
    requires TreeOk(s)
    ensures Ages(s, AfterUpload(s, p, name, data, mode))
  {
    if UploadAdmitted(s, p, Sanitize(name), data) {
      match Settle(s.entries, p, Sanitize(name), mode, 0)
      case None =>
      case Some((chosen, None)) => InsertAges(s, p, chosen, data);
      case Some((_, Some(i))) => if i in s.entries { OverwriteAges(s, i, data); }
    }
  }

  lemma InsertAges(s: State, p: Id, name: string, data: Bytes)
    requires TreeOk(s)
    ensures Ages(s, AfterInsert(s, p, name, data))
  {
  }

  lemma OverwriteAges(s: State, i: Id, data: Bytes)
    requires i in s.entries
    ensures Ages(s, AfterOverwrite(s, i, data))
  {
  }

  lemma MoveAges(s: State, i: Id, p: Id)
    ensures Ages(s, AfterMove(s, i, p))
  {
  }

  lemma RenameAges(s: State, i: Id, name: string)
    ensures Ages(s, AfterRename(s, i, name))
  {
  }

  lemma CreateFolderAges(s: State, p: Id, name: string)
    requires TreeOk(s)
    ensures Ages(s, AfterCreateFolder(s, p, name))
  {
  }

  lemma TrashAges(s: State, i: Id, order: seq<Id>)
    ensures Ages(s, AfterDelete(s, i, order)) && Ages(s, AfterRestore(s, i, order))
  {
  }

  lemma RestoreVersionAges(s: State, i: Id, v: nat)
    ensures Ages(s, AfterRestoreVersion(s, i, v))
  {
    SnapshotSameForest(s, i);
  }

  lemma UploadStepAges(s: State, step: Step)
    requires TreeOk(s)
    requires step.CreateBatch? || step.AppendChunk? || step.CompleteFile? || step.AbortBatch? || step.ExpireBatch? || step.Upload?
    ensures Ages(s, Apply(s, step))
  {
    match step
    case CreateBatch(p, files, expires) => CreateBatchAges(s, p, files, expires);
    case AppendChunk(sid, now, offset, length, body, fault) => AppendSameForest(s, sid, now, offset, length, body, fault);
    case CompleteFile(sid, digest, fault) => CompleteAges(s, sid, digest, fault);
    case AbortBatch(b) => CloseSameForest(s, b, 0);
    case ExpireBatch(b, now) => CloseSameForest(s, b, now);
    case Upload(p, name, data, mode) => UploadAges(s, p, name, data, mode);
  }

  lemma StepAges(s: State, step: Step)
    requires TreeOk(s)
    ensures Ages(s, Apply(s, step))
  {
    match step
    case CreateFolder(p, name) => CreateFolderAges(s, p, name);
    case Move(i, p) => MoveAges(s, i, p);
    case RenameTo(i, name) => RenameAges(s, i, name);
    case Delete(i, order) => TrashAges(s, i, order);
    case Restore(i, order) => TrashAges(s, i, order);
    case Purge(i, order) => PurgeAges(s, i, order);
    case PruneVersions(i, keep) => SameEntriesAge(s, AfterPrune(s, i, keep));
    case Collect(keys) => SameEntriesAge(s, AfterCollect(s, keys));
    case SnapshotVersion(i) => SnapshotSameForest(s, i);
    case RestoreVersion(i, v) => RestoreVersionAges(s, i, v);
    case _ => UploadStepAges(s, step);
  }

  lemma {:induction false} RunAges(s: State, steps: seq<Step>)
    requires TreeOk(s)
    ensures Ages(s, Run(s, steps))
    decreases |steps|
  {
    if steps != [] {
      var rest, last := steps[..|steps| - 1], steps[|steps| - 1];
      RunAges(s, rest);
      TreeOverRuns(s, rest);
      StepAges(Run(s, rest), last);
      AgesChain(s, Run(s, rest), Run(s, steps));
    }
  }

  /** The session replaces entry x and expects it at version v. */
  predicate Claims(s: State, sid: Id, x: Id, v: int) {
    sid in s.sessions && s.sessions[sid].target == Some(x) && s.sessions[sid].expectedVersion == Some(v)
  }

  /**
   * A completed replacement saw its target untouched since any earlier state in which the target had
   * the expected version: no rename, move, trash, restore or overwrite came between.
   */
  lemma NoInterveningChange(s: State, steps: seq<Step>, m: nat, sid: Id, digest: string, fault: Fault, x: Id, v: int)
    requires TreeOk(s) && x in s.entries && s.entries[x].version == v && m <= |steps|
    requires Completes(Run(s, steps), sid, digest, fault) && Claims(Run(s, steps), sid, x, v)
    ensures x in Run(s, steps[..m]).entries && Run(s, steps[..m]).entries[x] == s.entries[x]
  {
    var t := Run(s, steps[..m]);
    assert steps == steps[..m] + steps[m..];
    RunAppend(s, steps[..m], steps[m..]);
    TreeOverRuns(s, steps[..m]);
    RunAges(s, steps[..m]);
    RunAges(t, steps[m..]);
  }

  /** Among the sessions that replace one entry at one expected version, at most one ever completes. */
  lemma AtMostOneCompletes(s: State, first: seq<Step>, between: seq<Step>,
                           sid: Id, digest: string, fault: Fault,
                           sid': Id, digest': string, fault': Fault, x: Id, v: int)
    requires TreeOk(s)
    requires Completes(Run(s, first), sid, digest, fault) && Claims(Run(s, first), sid, x, v)
    requires var t := Run(s, first + [CompleteFile(sid, digest, fault)] + between);
             Claims(t, sid', x, v)
    ensures !Completes(Run(s, first + [CompleteFile(sid, digest, fault)] + between), sid', digest', fault')
  {
    var steps := first + [CompleteFile(sid, digest, fault)];
    var t := Run(s, steps);
    assert steps[..|steps| - 1] == first;
    TreeOverRuns(s, steps);
    RunAppend(s, steps, between);
    RunAges(t, between);
    assert x in t.entries && t.entries[x].version == v + 1;
  }
}
