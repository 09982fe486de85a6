/** The browser's upload loop against the real service, over a network that may do anything but forge bytes. */
module UploadQueue {
  import opened Model
  import opened FolderTree
  import opened Uploads
  import opened Server

  /** A chunk sent earlier that only now reaches the server, and what goes wrong there. */
  datatype Stale = Stale(offset: nat, length: nat, fault: Fault)

  /**
   * What the network does with one attempt: delayed or duplicated chunks that get in first, whether the
   * request arrives, what goes wrong at the server, and whether the reply gets back.
   */
  datatype Attempt = Attempt(before: seq<Stale>, arrives: bool, fault: Fault, replies: bool)
  {
    predicate Works() {
      arrives && replies && fault == NoFault
    }
  }

  datatype Outcome = Uploaded(entry: Id) | Cancelled | Failed

  const RETRIES: nat := 8

  /** The session can go on: open, not expired, its file in place, all bytes so far from the source. */
  ghost predicate Resumable(s: State, src: Sources, sid: Id, now: int) {
    UploadsOk(s, src) && sid in s.sessions && s.sessions[sid].status == Open
    && s.sessions[sid].batch in s.batches && now <= s.batches[s.sessions[sid].batch].expires
    && TempKey(sid) in s.disk
  }

  /** Everything but the progress of one session is as before, and that has not gone back. */
  ghost predicate Progressed(s: State, t: State, sid: Id)
    requires sid in s.sessions
  {
    sid in t.sessions && s.sessions[sid].received <= t.sessions[sid].received
    && t.sessions == s.sessions[sid := s.sessions[sid].(received := t.sessions[sid].received)]
    && t.entries == s.entries && t.batches == s.batches && t.versions == s.versions && t.cfg == s.cfg && t.root == s.root
    && t.next == s.next
  }

  /** One chunk cut from the source, whenever and however often it arrives. */
  lemma ChunkProgress(s: State, src: Sources, sid: Id, now: int, offset: nat, length: nat, fault: Fault)
    requires Resumable(s, src, sid, now) && length <= s.cfg.chunkBytes && offset + length <= |src(sid)|
    ensures var (t, reply) := Appended(s, sid, now, offset, length, src(sid)[offset..offset + length], fault);
            Resumable(t, src, sid, now) && Progressed(s, t, sid)
            && (reply.Accepted? ==> reply.offset == offset + length == t.sessions[sid].received)
            && (reply.Conflict? ==> reply.offset == s.sessions[sid].received == t.sessions[sid].received != offset)
            && (fault == NoFault ==> reply.Accepted? || reply.Conflict?)
  {
    var body := src(sid)[offset..offset + length];
    ChunkOutcome(s, src, sid, now, offset, length, body, fault);
    AppendKeepsUploads(s, src, sid, now, offset, length, body, fault);
    OtherTemps(s, sid, now, offset, length, body, fault);
    assert SessionOk(s, src, sid);
    assert Limit(body, length + 1) == body;
    ChunkKeepsFile(s, sid, now, offset, length, body, fault);
  }

  lemma ChunkKeepsFile(s: State, sid: Id, now: int, offset: int, length: int, body: Bytes, fault: Fault)
    requires TempKey(sid) in s.disk
    ensures var t := Appended(s, sid, now, offset, length, body, fault).0;
            TempKey(sid) in t.disk && t.batches == s.batches && t.cfg == s.cfg && t.root == s.root && t.next == s.next
  {
  }

  lemma ProgressedChain(s: State, t: State, u: State, sid: Id)
    requires sid in s.sessions && Progressed(s, t, sid) && Progressed(t, u, sid)
    ensures Progressed(s, u, sid)
  {
  }

  class Queue {
    var aborted: bool
    var chunkBytes: nat
    /** receivedBytes of the persisted batch, by session: where a later visit resumes. */
    var saved: map<Id, nat>

    constructor (chunkBytes: nat)
      requires chunkBytes > 0
      ensures this.chunkBytes == chunkBytes && saved == map[] && !aborted
    {
      this.chunkBytes, saved, aborted := chunkBytes, map[], false;
    }

    method Deliver(service: Service, ghost src: Sources, sid: Id, now: int, file: Bytes, chunks: seq<Stale>)
      requires Resumable(service.Snap(), src, sid, now) && file == src(sid)
      modifies service`sessions, service.disk
      ensures Resumable(service.Snap(), src, sid, now) && Progressed(old(service.Snap()), service.Snap(), sid)
    {
      var k := 0;
      while k < |chunks|
        invariant Resumable(service.Snap(), src, sid, now) && Progressed(old(service.Snap()), service.Snap(), sid)
      {
        var c := chunks[k];
        if c.offset + c.length <= |file| && c.length <= service.cfg.chunkBytes {
          ChunkProgress(service.Snap(), src, sid, now, c.offset, c.length, c.fault);
          var reply := service.AppendChunk(sid, now, c.offset, c.length, file[c.offset..c.offset + c.length], c.fault);
        }
        k := k + 1;
      }
    }

    /** The request reaches the server; its answer counts if it gets back. */
    method Send(service: Service, ghost src: Sources, sid: Id, now: int, file: Bytes, offset: nat, end: nat, fault: Fault)
      returns (answer: Option<nat>)
      requires Resumable(service.Snap(), src, sid, now) && file == src(sid)
      requires offset < end <= |file| && end - offset <= service.cfg.chunkBytes
      requires offset <= service.sessions[sid].received
      modifies service`sessions, service.disk
      ensures Resumable(service.Snap(), src, sid, now) && Progressed(old(service.Snap()), service.Snap(), sid)
      ensures answer.Some? ==> offset < answer.value <= service.sessions[sid].received
      ensures fault == NoFault ==> answer.Some?
    {
      ChunkProgress(service.Snap(), src, sid, now, offset, end - offset, fault);
      var reply := service.AppendChunk(sid, now, offset, end - offset, file[offset..end], fault);
      match reply {
        case Accepted(n) => answer := Some(n);
        case Conflict(n) => answer := Some(n);
        case Rejected => answer := None;
        case NoReply => answer := None;
      }
    }

    /** A 200 answers the new offset, a 409 the server's offset; everything else rejects. */
    method PutChunk(service: Service, ghost src: Sources, sid: Id, now: int, file: Bytes, offset: nat, end: nat, net: Attempt)
      returns (r: Option<nat>)
      requires Resumable(service.Snap(), src, sid, now) && file == src(sid)
      requires offset < end <= |file| && end - offset <= service.cfg.chunkBytes
      requires offset <= service.sessions[sid].received
      modifies service`sessions, service.disk
      ensures Resumable(service.Snap(), src, sid, now) && Progressed(old(service.Snap()), service.Snap(), sid)
      ensures r.Some? ==> offset < r.value <= service.sessions[sid].received
      ensures net.Works() ==> r.Some?
    {
      ghost var first := service.Snap();
      Deliver(service, src, sid, now, file, net.before);
      if !net.arrives { return None; }
      ghost var second := service.Snap();
      var answer := Send(service, src, sid, now, file, offset, end, net.fault);
      ProgressedChain(first, second, service.Snap(), sid);
      r := if net.replies then answer else None;
    }

    /** Blind retries: gives up after the ninth failure in a row. */
    method PutChunkWithRetry(service: Service, ghost src: Sources, sid: Id, now: int, file: Bytes, offset: nat, end: nat,
                             net: nat -> Attempt)
      returns (r: Option<nat>)
      requires Resumable(service.Snap(), src, sid, now) && file == src(sid)
      requires offset < end <= |file| && end - offset <= service.cfg.chunkBytes
      requires offset <= service.sessions[sid].received
      modifies service`sessions, service.disk
      ensures Resumable(service.Snap(), src, sid, now) && Progressed(old(service.Snap()), service.Snap(), sid)
      ensures r.Some? ==> offset < r.value <= service.sessions[sid].received
      ensures r.None? ==> forall a :: 0 <= a <= RETRIES ==> !net(a).Works()
    {
      var attempt := 0;
      while true
        invariant attempt <= RETRIES
        invariant Resumable(service.Snap(), src, sid, now) && Progressed(old(service.Snap()), service.Snap(), sid)
        invariant offset <= service.sessions[sid].received
        invariant forall a :: 0 <= a < attempt ==> !net(a).Works()
        decreases RETRIES - attempt
      {
        r := PutChunk(service, src, sid, now, file, offset, end, net(attempt));
        if r.Some? { return; }
        attempt := attempt + 1;
        if attempt > RETRIES { return; }
      }
    }

    /**
     * uploadFile. The client never runs ahead of the server, moves strictly forward on every pass and so
     * ends; if no chunk fails nine times over and nobody cancels, the server holds the whole file and the
     * completed entry is that file. What it saves for a later visit never exceeds what the server has.
     */
    method UploadFile(service: Service, ghost src: Sources, sid: Id, now: int, file: Bytes, start: nat,
                      net: nat -> nat -> Attempt, cancel: nat -> bool, digest: string, fault: Fault)
      returns (r: Outcome, ghost offsets: seq<nat>)
      requires service.Valid() && Resumable(service.Snap(), src, sid, now) && file == src(sid)
      requires start <= service.sessions[sid].received && 0 < chunkBytes <= service.cfg.chunkBytes
      modifies this, service, service.disk
      ensures Rising(offsets, start, |file|)
      ensures r.Uploaded? ==>
                r.entry in service.entries && service.entries[r.entry].size == |file|
                && service.entries[r.entry].key in service.disk.files
                && service.disk.files[service.entries[r.entry].key] == file
      ensures !r.Uploaded? ==> sid in service.sessions
      ensures r.Failed? && service.sessions[sid].received < |file| ==>
                exists pass: nat :: forall a :: 0 <= a <= RETRIES ==> !net(pass)(a).Works()
      ensures !r.Uploaded? && saved != old(saved) ==> sid in saved && saved[sid] <= service.sessions[sid].received
    {
      ghost var s := service.Snap();
      var offset, pass := start, 0;
      offsets := [];
      assert SessionOk(s, src, sid);
      while offset < |file|
        invariant chunkBytes == old(chunkBytes) && service.Snap().cfg == s.cfg
        invariant Resumable(service.Snap(), src, sid, now) && Progressed(s, service.Snap(), sid)
        invariant offset <= service.sessions[sid].received <= |file| && Rising(offsets, start, offset)
        invariant saved == old(saved) || (sid in saved && saved[sid] <= service.sessions[sid].received)
        decreases |file| - offset
      {
        if cancel(pass) {
          aborted := true;
          return Cancelled, offsets;
        }
        var next := SendPass(service, src, sid, now, file, offset, net(pass));
        if next.None? {
          RisingWeaker(offsets, start, offset, |file|);
          return Failed, offsets;
        }
        RisingMore(offsets, start, offset, next.value);
        offset := next.value;
        offsets := offsets + [offset];
        pass := pass + 1;
      }
      TreeKept(s, service.Snap(), sid);
      r := Finish(service, src, sid, file, digest, fault);
    }

    /** One pass of the loop: the next chunk, and the offset saved for a later visit. */
    method SendPass(service: Service, ghost src: Sources, sid: Id, now: int, file: Bytes, offset: nat, net: nat -> Attempt)
      returns (next: Option<nat>)
      requires Resumable(service.Snap(), src, sid, now) && file == src(sid) && 0 < chunkBytes <= service.cfg.chunkBytes
      requires offset < |file| && offset <= service.sessions[sid].received
      modifies this`saved, service`sessions, service.disk
      ensures Resumable(service.Snap(), src, sid, now) && Progressed(old(service.Snap()), service.Snap(), sid)
      ensures service.sessions[sid].received <= |file|
      ensures next.Some? ==> offset < next.value <= service.sessions[sid].received && saved == old(saved)[sid := next.value]
      ensures next.None? ==> saved == old(saved) && forall a :: 0 <= a <= RETRIES ==> !net(a).Works()
    {
      var end := if offset + chunkBytes < |file| then offset + chunkBytes else |file|;
      next := PutChunkWithRetry(service, src, sid, now, file, offset, end, net);
      assert SessionOk(service.Snap(), src, sid);
      if next.Some? { saved := saved[sid := next.value]; }
    }

    /** Asks for completion once every chunk is acknowledged. */
    method Finish(service: Service, ghost src: Sources, sid: Id, ghost file: Bytes, digest: string, fault: Fault)
      returns (r: Outcome)
      requires service.Valid() && UploadsOk(service.Snap(), src) && sid in service.sessions && file == src(sid)
      modifies service, service.disk
      ensures if r.Uploaded? then
                r.entry in service.entries && service.entries[r.entry].size == |file|
                && service.entries[r.entry].key in service.disk.files
                && service.disk.files[service.entries[r.entry].key] == file
              else r.Failed? && service.sessions == old(service.sessions)
    {
      ghost var t := service.Snap();
      var id, done := service.CompleteFile(sid, digest, fault);
      if id.None? {
        CompleteKeepsRow(t, sid, digest, fault);
        return Failed;
      }
      CompletedBlob(t, src, sid, digest, fault);
      r := Uploaded(id.value);
    }
  }

  /** Strictly increasing offsets after start, none beyond last. */
  ghost predicate Rising(offsets: seq<nat>, start: nat, last: nat) {
    && start <= last
    && (forall i, j :: 0 <= i < j < |offsets| ==> offsets[i] < offsets[j])
    && (forall i :: 0 <= i < |offsets| ==> start < offsets[i] <= last)
  }

  lemma RisingMore(offsets: seq<nat>, start: nat, last: nat, next: nat)
    requires Rising(offsets, start, last) && last < next
    ensures Rising(offsets + [next], start, next)
  {
  }

  lemma RisingWeaker(offsets: seq<nat>, start: nat, last: nat, more: nat)
    requires Rising(offsets, start, last) && last <= more
    ensures Rising(offsets, start, more)
  {
  }

  lemma TreeKept(s: State, t: State, sid: Id)
    requires TreeOk(s) && sid in s.sessions && Progressed(s, t, sid)
    ensures TreeOk(t)
  {
  }

  lemma CompleteKeepsRow(s: State, sid: Id, digest: string, fault: Fault)
    requires sid in s.sessions && !Completes(s, sid, digest, fault)
    ensures AfterComplete(s, sid, digest, fault).sessions == s.sessions
  {
  }

  /** The completed entry's blob is the source, also after the pruning that follows a replacement. */
  lemma CompletedBlob(s: State, src: Sources, sid: Id, digest: string, fault: Fault)
    requires UploadsOk(s, src) && Completes(s, sid, digest, fault)
    ensures var i := CompletedId(s, sid);
            var t := AfterComplete(s, sid, digest, fault);
            i in t.entries && t.entries[i].size == |src(sid)|
            && t.entries[i].key in t.disk && t.disk[t.entries[i].key] == src(sid)
            && var u := AfterPrune(t, i, KEEP);
               u.entries == t.entries && t.entries[i].key in u.disk && u.disk[t.entries[i].key] == src(sid)
  {
    assert SessionOk(s, src, sid);
    var t, i := AfterComplete(s, sid, digest, fault), CompletedId(s, sid);
    var gone := Doomed(t.versions, i, KEEP);
    assert Referenced(t.(versions := t.versions - gone), t.entries[i].key);
  }
}
