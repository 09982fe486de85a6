/** What holds of every drive from its registration on. */
module Guarantees {
  import opened Model
  import opened FolderTree
  import opened Ledger
  import opened Replay
  import opened Blobs
  import opened Uploads
  import opened Retries
  import opened Shelter

  /** Any operations in any order: a sound tree and balanced reservations. */
  lemma EveryRun(cfg: Config, quota: nat, steps: seq<Step>)
    ensures TreeOk(Run(Init(cfg, quota), steps)) && ReserveOk(Run(Init(cfg, quota), steps))
  {
    InitLedger(cfg, quota);
    TreeOverRuns(Init(cfg, quota), steps);
    ReserveOverRuns(Init(cfg, quota), steps);
  }

  /** Runs that meet the billing condition: used bytes are the stored sizes, within twice the quota. */
  lemma EveryBilledRun(cfg: Config, quota: nat, steps: seq<Step>)
    requires UsedGuarded(Init(cfg, quota), steps)
    ensures var t := Run(Init(cfg, quota), steps);
      && UsedOk(t) && WithinTwice(t)
      && ((forall k :: 0 <= k < |steps| ==> !steps[k].Upload?) ==> WithinQuota(t))
  {
    InitLedger(cfg, quota);
    LedgerOverRuns(Init(cfg, quota), steps);
  }

  /** Runs that meet the blob condition: every file and version has its content. */
  lemma EveryBlobRun(cfg: Config, quota: nat, steps: seq<Step>)
    requires BlobGuarded(Init(cfg, quota), steps)
    ensures BlobsOk(Run(Init(cfg, quota), steps))
  {
    InitTree(cfg, quota);
    InitBlobs(cfg, quota);
    BlobsOverRuns(Init(cfg, quota), steps);
  }

  /** Runs that meet the logging condition: the whole log, replayed on the bare root, gives the
      live entries with every column. */
  lemma EveryLoggedRun(cfg: Config, quota: nat, steps: seq<Step>)
    requires LogGuarded(Init(cfg, quota), steps)
    ensures var t := Run(Init(cfg, quota), steps);
      Shows(Replayed(map[0 := Row(None, "/", Folder, 0, 1, "")], t.log), t.entries)
  {
    var s, bare := Init(cfg, quota), map[0 := Row(None, "/", Folder, 0, 1, "")];
    InitTree(cfg, quota);
    ReplayEqualsState(s, steps);
    assert Run(s, steps).log[|s.log|..] == Run(s, steps).log;
    assert Shows(bare, s.entries);
  }

  /** Honest traffic from the start, whatever else runs: a completed upload is the client's file. */
  lemma EveryUpload(cfg: Config, quota: nat, src: Sources, steps: seq<Step>, sid: Id, digest: string, fault: Fault)
    requires HonestRun(Init(cfg, quota), src, steps)
    requires Completes(Run(Init(cfg, quota), steps), sid, digest, fault)
    ensures var t := Run(Init(cfg, quota), steps);
      var u, i := AfterComplete(t, sid, digest, fault), CompletedId(t, sid);
      && i in u.entries && u.entries[i].size == |src(sid)|
      && u.entries[i].key in u.disk && u.disk[u.entries[i].key] == src(sid)
  {
    InitLedger(cfg, quota);
    InitUploads(cfg, quota, src);
    CompletedIsSource(Init(cfg, quota), src, steps, sid, digest, fault);
  }

  /** Runs in which files complete into live folders only: every live row climbs to the root through live rows. */
  lemma EveryRootedRun(cfg: Config, quota: nat, steps: seq<Step>)
    requires RootGuarded(Init(cfg, quota), steps)
    ensures Rooted(Run(Init(cfg, quota), steps).entries, 0)
  {
    InitTree(cfg, quota);
    InitRooted(cfg, quota);
    RootsOverRuns(Init(cfg, quota), steps);
  }

  /** After any run, a completion that passed its checks and failed can be made good exactly for an empty file in time. */
  lemma EveryFailedCompletion(cfg: Config, quota: nat, steps: seq<Step>, sid: Id, digest: string, fault: Fault, now: int)
    requires forall k :: 0 <= k < |steps| ==> SentClean(steps[k])
    requires var t := Run(Init(cfg, quota), steps); CanComplete(t, sid, digest) && !Completes(t, sid, digest, fault)
    ensures var t := Run(Init(cfg, quota), steps);
      CanStillComplete(AfterComplete(t, sid, digest, fault), sid, now)
      <==> t.sessions[sid].expected == 0 && now <= t.batches[t.sessions[sid].batch].expires
  {
    EveryRun(cfg, quota, steps);
    InitTree(cfg, quota);
    InitNames(cfg, quota);
    NamesOverRuns(Init(cfg, quota), steps);
    RetryExact(Run(Init(cfg, quota), steps), sid, digest, fault, now);
  }
}
