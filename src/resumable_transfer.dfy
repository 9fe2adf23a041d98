/** The Android side's resumable transfers
    (`app/src/main/java/com/example/windowsandroidconnect/transfer/ResumableFileTransfer.kt`):
    a status machine over immutable transfer states, a queue admitting at
    most three running transfers, the chunked upload loop that resumes at
    the recorded offset, and queries over the stored states. Files, the
    clock, ids and checksums are inputs; the stored preferences are a map;
    coroutines become explicit steps (one queue iteration, one job body). */
module ResumableTransfer {
  import opened Wrappers
  import opened Seqs
  import opened Sorting

  const CHUNK_SIZE := 1024 * 1024
  const MAX_CONCURRENT_TRANSFERS := 3
  /** The messages the source reports with ("file missing", "transfer
      done", "download done"). */
  const FILE_MISSING := "文件不存在"
  const UPLOAD_DONE := "传输完成"
  const DOWNLOAD_DONE := "下载完成"

  datatype Status = Pending | InProgress | Paused | Completed | Failed | Cancelled
  datatype Direction = Upload | Download

  /** `TransferState` */
  datatype State = State(transferId: string, filePath: string, fileName: string, targetDeviceId: string,
                         direction: Direction, totalSize: int, transferredSize: int, lastChunkNumber: int,
                         checksum: string, status: Status, startTime: int, lastUpdateTime: int,
                         errorMessage: Option<string>)

  /** The messages sent to the peer. */
  datatype Outgoing =
    | TransferRequest(transferId: string, fileName: string, fileSize: int, targetDeviceId: string,
                      checksum: string, resumeFrom: int)
    | DownloadRequest(transferId: string, filePath: string, targetDeviceId: string, resumeFrom: int)
    | ChunkSent(transferId: string, chunkNumber: int, size: int, offset: int, totalSize: int)
    | CancelSent(transferId: string)
    | CompleteSent(transferId: string, success: bool, message: Option<string>)

  // ---- Status transitions, as `copy(...)` on the immutable state ----

  /** `resumeTransfer`'s rule: only a paused or failed transfer resumes,
      and it goes back to pending with its progress kept. */
  function Resume(s: State, now: int): (r: Option<State>)
    ensures r.Some? <==> s.status == Paused || s.status == Failed
    ensures r.Some? ==> r.value.status == Pending && r.value.transferredSize == s.transferredSize
                        && r.value.lastChunkNumber == s.lastChunkNumber
  {
    if s.status != Paused && s.status != Failed then None
    else Some(s.(status := Pending, lastUpdateTime := now))
  }

  /** `pauseTransfer`'s rule: only a running transfer pauses. */
  function Pause(s: State, now: int): (r: Option<State>)
    ensures r.Some? <==> s.status == InProgress
    ensures r.Some? ==> r.value.status == Paused && r.value.transferredSize == s.transferredSize
                        && r.value.lastChunkNumber == s.lastChunkNumber
  {
    if s.status != InProgress then None else Some(s.(status := Paused, lastUpdateTime := now))
  }

  /** `completeTransfer`'s rule: completed on success, failed otherwise,
      with the message kept only on failure. */
  function Complete(s: State, success: bool, message: Option<string>, now: int): (r: State)
    ensures r.status == (if success then Completed else Failed)
    ensures r.errorMessage == (if success then None else message)
    ensures r.transferredSize == s.transferredSize && r.transferId == s.transferId
  {
    s.(status := if success then Completed else Failed, lastUpdateTime := now,
       errorMessage := if success then None else message)
  }

  /** Pausing a running transfer and resuming it brings it back to pending
      at the same chunk; a completed or cancelled transfer can neither be
      paused nor resumed. */
  lemma PauseResume(s: State, t1: int, t2: int)
    ensures s.status == InProgress ==>
              Resume(Pause(s, t1).value, t2) == Some(s.(status := Pending, lastUpdateTime := t2))
    ensures s.status == Completed || s.status == Cancelled ==> Pause(s, t1).None? && Resume(s, t2).None?
  {
  }

  // ---- The upload plan ----

  /** One chunk of an upload: its number, its size and its offset. */
  datatype ChunkStep = ChunkStep(chunkNumber: int, size: int, offset: int)

  /** The chunks the upload loop sends from `offset` with next chunk
      number `chunkNumber`, given what each read of the file returns: each
      read asks for min(1 MiB, remaining) bytes, and the loop ends at the
      end of the file, at the end of the reads, or at an empty read. */
  function UploadPlan(offset: int, chunkNumber: int, total: int, readSizes: seq<int>): (p: seq<ChunkStep>)
    decreases |readSizes|
  {
    if offset >= total || readSizes == [] then []
    else
      var size := Min(Min(CHUNK_SIZE, total - offset), readSizes[0]);
      if size <= 0 then []
      else [ChunkStep(chunkNumber, size, offset)] + UploadPlan(offset + size, chunkNumber + 1, total, readSizes[1..])
  }

  /** Where the last chunk of the plan ends. */
  function PlanEnd(offset: int, p: seq<ChunkStep>): int
  {
    if p == [] then offset else p[|p| - 1].offset + p[|p| - 1].size
  }

  /** The plan's chunks are numbered consecutively from `chunkNumber`, lie
      back to back from `offset`, are each at most 1 MiB and never pass the
      end of the file. */
  lemma {:induction false} UploadPlanShape(offset: int, chunkNumber: int, total: int, readSizes: seq<int>)
    ensures var p := UploadPlan(offset, chunkNumber, total, readSizes);
      (forall i :: 0 <= i < |p| ==> p[i].chunkNumber == chunkNumber + i && 0 < p[i].size <= CHUNK_SIZE)
      && (p != [] ==> p[0].offset == offset)
      && (forall i :: 0 <= i < |p| - 1 ==> p[i + 1].offset == p[i].offset + p[i].size)
      && (offset < total ==> PlanEnd(offset, p) <= total)
    decreases |readSizes|
  {
    var p := UploadPlan(offset, chunkNumber, total, readSizes);
    if p != [] {
      var size := Min(Min(CHUNK_SIZE, total - offset), readSizes[0]);
      UploadPlanShape(offset + size, chunkNumber + 1, total, readSizes[1..]);
      var rest := UploadPlan(offset + size, chunkNumber + 1, total, readSizes[1..]);
      assert p == [ChunkStep(chunkNumber, size, offset)] + rest;
      assert forall i :: 1 <= i < |p| ==> p[i] == rest[i - 1];
      if rest != [] {
        assert PlanEnd(offset, p) == PlanEnd(offset + size, rest);
      }
    }
  }

  /** When every read returns the full chunk asked for and there are
      enough reads, the upload reaches the end of the file. */
  lemma {:induction false} FullReadsFinish(offset: int, chunkNumber: int, total: int, readSizes: seq<int>)
    requires offset < total
    requires forall i :: 0 <= i < |readSizes| ==> readSizes[i] >= CHUNK_SIZE
    requires |readSizes| * CHUNK_SIZE >= total - offset
    ensures PlanEnd(offset, UploadPlan(offset, chunkNumber, total, readSizes)) == total
    decreases |readSizes|
  {
    var size := Min(Min(CHUNK_SIZE, total - offset), readSizes[0]);
    var rest := UploadPlan(offset + size, chunkNumber + 1, total, readSizes[1..]);
    assert UploadPlan(offset, chunkNumber, total, readSizes) == [ChunkStep(chunkNumber, size, offset)] + rest;
    if offset + size < total {
      FullReadsFinish(offset + size, chunkNumber + 1, total, readSizes[1..]);
      assert PlanEnd(offset, [ChunkStep(chunkNumber, size, offset)] + rest) == PlanEnd(offset + size, rest);
    } else {
      assert rest == [];
    }
  }

  /** The chunk messages of a plan. */
  function ChunkMessages(id: string, total: int, p: seq<ChunkStep>): (ms: seq<Outgoing>)
    ensures |ms| == |p|
    ensures forall i :: 0 <= i < |p| ==> ms[i] == ChunkSent(id, p[i].chunkNumber, p[i].size, p[i].offset, total)
  {
    seq(|p|, i requires 0 <= i < |p| => ChunkSent(id, p[i].chunkNumber, p[i].size, p[i].offset, total))
  }

  lemma ChunkMessagesSnoc(id: string, total: int, p: seq<ChunkStep>, x: ChunkStep)
    ensures ChunkMessages(id, total, p + [x]) == ChunkMessages(id, total, p) + [ChunkSent(id, x.chunkNumber, x.size, x.offset, total)]
  {
    var l, r := ChunkMessages(id, total, p + [x]), ChunkMessages(id, total, p) + [ChunkSent(id, x.chunkNumber, x.size, x.offset, total)];
    assert |l| == |r|;
    forall i | 0 <= i < |l| ensures l[i] == r[i] {
      if i < |p| {
        assert (p + [x])[i] == p[i];
      }
    }
  }

  /** One loop iteration unfolds the plan by one chunk. */
  lemma UploadPlanStep(offset: int, chunkNumber: int, total: int, readSizes: seq<int>, k: nat)
    requires k < |readSizes| && offset < total
    requires Min(Min(CHUNK_SIZE, total - offset), readSizes[k]) > 0
    ensures var size := Min(Min(CHUNK_SIZE, total - offset), readSizes[k]);
      UploadPlan(offset, chunkNumber, total, readSizes[k..])
      == [ChunkStep(chunkNumber, size, offset)] + UploadPlan(offset + size, chunkNumber + 1, total, readSizes[k + 1..])
  {
    assert readSizes[k..][1..] == readSizes[k + 1..];
  }

  /** The plan still ahead, after one more chunk of `size` bytes is sent. */
  lemma PlanAdvance(plan: seq<ChunkStep>, done: seq<ChunkStep>, offset: int, chunkNumber: int, total: int,
                    readSizes: seq<int>, k: nat, size: int)
    requires k < |readSizes| && offset < total
    requires size == Min(readSizes[k], Min(CHUNK_SIZE, total - offset)) && size > 0
    requires plan == done + UploadPlan(offset, chunkNumber, total, readSizes[k..])
    ensures plan == (done + [ChunkStep(chunkNumber, size, offset)])
                    + UploadPlan(offset + size, chunkNumber + 1, total, readSizes[k + 1..])
  {
    var step := ChunkStep(chunkNumber, size, offset);
    var rest := UploadPlan(offset + size, chunkNumber + 1, total, readSizes[k + 1..]);
    UploadPlanStep(offset, chunkNumber, total, readSizes, k);
    AppendAssoc(done, [step], rest);
  }

  // ---- Stored-state queries ----

  /** The stored states in the enumeration order `ids`. */
  function StatesInOrder(ids: seq<string>, saved: map<string, State>): (ss: seq<State>)
    requires forall i :: 0 <= i < |ids| ==> ids[i] in saved
    ensures |ss| == |ids| && forall i :: 0 <= i < |ids| ==> ss[i] == saved[ids[i]]
  {
    if ids == [] then [] else [saved[ids[0]]] + StatesInOrder(ids[1..], saved)
  }

  /** `prefs.all.keys` read as a list: every stored id, each exactly once,
      in whatever order the preferences enumerate them. */
  ghost predicate ListsKeys(ids: seq<string>, saved: map<string, State>) {
    (forall id :: id in saved <==> id in ids) && Distinct(ids)
  }

  /** A listing of the keys has one entry per stored id. */
  lemma {:induction false} ListsKeysLength(ids: seq<string>, saved: map<string, State>)
    requires ListsKeys(ids, saved)
    ensures |ids| == |saved|
  {
    if ids == [] {
      assert saved.Keys == {};
    } else {
      var rest := map id | id in saved && id != ids[0] :: saved[id];
      forall id ensures id in rest <==> id in ids[1..] {
        if id in ids[1..] {
          var k :| 0 <= k < |ids[1..]| && ids[1..][k] == id;
          assert ids[k + 1] == id;
        }
      }
      assert Distinct(ids[1..]) by {
        forall i, j | 0 <= i < j < |ids[1..]| ensures ids[1..][i] != ids[1..][j] {
          assert ids[1..][i] == ids[i + 1] && ids[1..][j] == ids[j + 1];
        }
      }
      ListsKeysLength(ids[1..], rest);
      assert saved.Keys == rest.Keys + {ids[0]};
    }
  }

  /** Under a listing of the keys the stored states are listed: every
      stored state sits at the position of its id. */
  lemma ListedState(ids: seq<string>, saved: map<string, State>, id: string)
    requires ListsKeys(ids, saved) && id in saved
    ensures saved[id] in StatesInOrder(ids, saved)
  {
    var k :| 0 <= k < |ids| && ids[k] == id;
    assert StatesInOrder(ids, saved)[k] == saved[id];
  }

  function LastUpdate(s: State): int { s.lastUpdateTime }

  predicate Resumable(s: State) { s.status == Paused || s.status == Failed }

  /** The index of the first pending entry of the queue. */
  function FirstPending(q: seq<State>): (k: Option<nat>)
    ensures k.Some? ==> k.value < |q| && q[k.value].status == Pending
                        && forall i :: 0 <= i < k.value ==> q[i].status != Pending
    ensures k.None? ==> forall i :: 0 <= i < |q| ==> q[i].status != Pending
  {
    if q == [] then None
    else if q[0].status == Pending then Some(0)
    else
      var k := FirstPending(q[1..]);
      if k.Some? then Some(k.value + 1) else None
  }

  class ResumableFileTransfer {
    var activeTransfers: map<string, State>
    var queue: seq<State>
    /** The stored preferences: state by transfer id */
    var saved: map<string, State>
    /** Transfers with a running job */
    var jobs: set<string>
    var sent: seq<Outgoing>

    /** Each state is filed under its own id; the queue holds pending
        snapshots. */
    ghost predicate Valid()
      reads this
    {
      (forall id :: id in activeTransfers ==> activeTransfers[id].transferId == id)
      && (forall id :: id in saved ==> saved[id].transferId == id)
      && (forall i :: 0 <= i < |queue| ==> queue[i].status == Pending)
    }

    constructor (stored: map<string, State>)
      requires forall id :: id in stored ==> stored[id].transferId == id
      ensures Valid() && activeTransfers == map[] && queue == [] && saved == stored && jobs == {} && sent == []
    {
      activeTransfers, queue, saved, jobs, sent := map[], [], stored, {}, [];
    }

    /** Number of running transfers. */
    function InProgressCount(): nat
      reads this
    {
      |set id | id in activeTransfers && activeTransfers[id].status == InProgress|
    }

    /** Store a state: in the active map and in the preferences. */
    method Put(s: State)
      requires Valid()
      modifies this`activeTransfers, this`saved
      ensures Valid()
      ensures activeTransfers == old(activeTransfers)[s.transferId := s] && saved == old(saved)[s.transferId := s]
    {
      activeTransfers := activeTransfers[s.transferId := s];
      saved := saved[s.transferId := s];
    }

    /** `startTransfer(...)` with `id` the generated id: a missing upload
        source throws; otherwise a pending state at offset 0 and chunk −1
        is stored and queued. */
    method StartTransfer(filePath: string, targetDeviceId: string, direction: Direction, fileExists: bool,
                         fileName: string, fileLength: nat, checksum: string, id: string, now: int)
      returns (r: Result<string>)
      requires Valid()
      modifies this`activeTransfers, this`saved, this`queue
      ensures Valid()
      ensures r.Err? <==> !fileExists && direction == Upload
      ensures r.Err? ==> r.error == FILE_MISSING + ": " + filePath && activeTransfers == old(activeTransfers)
                         && queue == old(queue) && saved == old(saved)
      ensures r.Ok? ==>
                var s := State(id, filePath, fileName, targetDeviceId, direction,
                               if direction == Upload then fileLength else 0, 0, -1,
                               if direction == Upload then checksum else "", Pending, now, now, None);
                r.value == id && activeTransfers == old(activeTransfers)[id := s]
                && saved == old(saved)[id := s] && queue == old(queue) + [s]
    {
      if !fileExists && direction == Upload {
        return Err(FILE_MISSING + ": " + filePath);
      }
      var s := State(id, filePath, fileName, targetDeviceId, direction,
                     if direction == Upload then fileLength else 0, 0, -1,
                     if direction == Upload then checksum else "", Pending, now, now, None);
      Put(s);
      queue := queue + [s];
      return Ok(id);
    }

    /** `resumeTransfer(id)`: from the stored state; only a paused or
        failed transfer is queued again. */
    method ResumeTransfer(id: string, now: int) returns (ok: bool)
      requires Valid()
      modifies this`activeTransfers, this`saved, this`queue
      ensures Valid()
      ensures ok <==> id in old(saved) && Resume(old(saved)[id], now).Some?
      ensures !ok ==> activeTransfers == old(activeTransfers) && saved == old(saved) && queue == old(queue)
      ensures ok ==>
                var s := Resume(old(saved)[id], now).value;
                activeTransfers == old(activeTransfers)[id := s] && saved == old(saved)[id := s]
                && queue == old(queue) + [s]
    {
      if id !in saved {
        return false;
      }
      var r := Resume(saved[id], now);
      if r.None? {
        return false;
      }
      Put(r.value);
      queue := queue + [r.value];
      return true;
    }

    /** `pauseTransfer(id)`: only a running transfer; its job is cancelled. */
    method PauseTransfer(id: string, now: int) returns (ok: bool)
      requires Valid()
      modifies this`activeTransfers, this`saved, this`jobs
      ensures Valid()
      ensures ok <==> id in old(activeTransfers) && old(activeTransfers)[id].status == InProgress
      ensures !ok ==> activeTransfers == old(activeTransfers) && saved == old(saved) && jobs == old(jobs)
      ensures ok ==>
                var s := Pause(old(activeTransfers)[id], now).value;
                activeTransfers == old(activeTransfers)[id := s] && saved == old(saved)[id := s]
                && jobs == old(jobs) - {id}
    {
      if id !in activeTransfers {
        return false;
      }
      var p := Pause(activeTransfers[id], now);
      if p.None? {
        return false;
      }
      jobs := jobs - {id};
      Put(p.value);
      return true;
    }

    /** `cancelTransfer(id)`: any known transfer; it leaves the queue,
        becomes cancelled and the peer is told. */
    method CancelTransfer(id: string, now: int) returns (ok: bool)
      requires Valid()
      modifies this`activeTransfers, this`saved, this`jobs, this`queue, this`sent
      ensures Valid()
      ensures ok <==> id in old(activeTransfers)
      ensures !ok ==> activeTransfers == old(activeTransfers) && saved == old(saved) && queue == old(queue) && sent == old(sent)
      ensures ok ==>
                var s := old(activeTransfers)[id].(status := Cancelled, lastUpdateTime := now);
                activeTransfers == old(activeTransfers)[id := s] && saved == old(saved)[id := s]
                && queue == Filter(old(queue), (q: State) => q.transferId != id)
                && jobs == old(jobs) - {id} && sent == old(sent) + [CancelSent(id)]
    {
      if id !in activeTransfers {
        return false;
      }
      var s := activeTransfers[id];
      jobs := jobs - {id};
      queue := Filter(queue, (q: State) => q.transferId != id);
      Put(s.(status := Cancelled, lastUpdateTime := now));
      sent := sent + [CancelSent(id)];
      return true;
    }

    /** One iteration of `processQueue`: with three transfers running it
        waits; otherwise the first pending entry leaves the queue and its
        job starts (a download sends its request at once). */
    method ProcessQueueStep(now: int) returns (started: Option<string>)
      requires Valid()
      modifies this`activeTransfers, this`saved, this`jobs, this`queue, this`sent
      ensures Valid()
      ensures started.Some? ==> old(InProgressCount()) < MAX_CONCURRENT_TRANSFERS
      ensures started.None? <==> old(InProgressCount()) >= MAX_CONCURRENT_TRANSFERS || FirstPending(old(queue)).None?
      ensures started.None? ==> activeTransfers == old(activeTransfers) && queue == old(queue) && sent == old(sent)
      ensures started.Some? ==>
                var k := FirstPending(old(queue)).value;
                var s := old(queue)[k];
                var u := s.(status := InProgress, lastUpdateTime := now);
                started.value == s.transferId && queue == old(queue)[..k] + old(queue)[k + 1..]
                && activeTransfers == old(activeTransfers)[s.transferId := u] && jobs == old(jobs) + {s.transferId}
                && sent == old(sent) + (if s.direction == Download
                                        then [DownloadRequest(s.transferId, s.filePath, s.targetDeviceId, s.lastChunkNumber + 1)]
                                        else [])
    {
      if InProgressCount() >= MAX_CONCURRENT_TRANSFERS {
        return None;
      }
      var k := FirstPending(queue);
      if k.None? {
        return None;
      }
      var s := queue[k.value];
      queue := queue[..k.value] + queue[k.value + 1..];
      Put(s.(status := InProgress, lastUpdateTime := now));
      jobs := jobs + {s.transferId};
      if s.direction == Download {
        sent := sent + [DownloadRequest(s.transferId, s.filePath, s.targetDeviceId, s.lastChunkNumber + 1)];
      }
      return Some(s.transferId);
    }

    /** `updateTransferProgress(id, size, chunk)` */
    method UpdateTransferProgress(id: string, transferred: int, lastChunk: int, now: int)
      requires Valid()
      modifies this`activeTransfers, this`saved
      ensures Valid()
      ensures id !in old(activeTransfers) ==> activeTransfers == old(activeTransfers) && saved == old(saved)
      ensures id in old(activeTransfers) ==>
                var s := old(activeTransfers)[id].(transferredSize := transferred, lastChunkNumber := lastChunk,
                                                   lastUpdateTime := now);
                activeTransfers == old(activeTransfers)[id := s] && saved == old(saved)[id := s]
    {
      if id !in activeTransfers {
        return;
      }
      var s := activeTransfers[id];
      Put(s.(transferredSize := transferred, lastChunkNumber := lastChunk, lastUpdateTime := now));
    }

    /** `completeTransfer(id, success, message)` */
    method CompleteTransfer(id: string, success: bool, message: Option<string>, now: int)
      requires Valid()
      modifies this`activeTransfers, this`saved, this`jobs, this`sent
      ensures Valid()
      ensures id !in old(activeTransfers) ==>
                activeTransfers == old(activeTransfers) && saved == old(saved) && jobs == old(jobs) && sent == old(sent)
      ensures id in old(activeTransfers) ==>
                var s := Complete(old(activeTransfers)[id], success, message, now);
                activeTransfers == old(activeTransfers)[id := s] && saved == old(saved)[id := s]
                && jobs == old(jobs) - {id} && sent == old(sent) + [CompleteSent(id, success, message)]
    {
      if id !in activeTransfers {
        return;
      }
      Put(Complete(activeTransfers[id], success, message, now));
      jobs := jobs - {id};
      sent := sent + [CompleteSent(id, success, message)];
    }

    /** `handleTransferError(id, message)`: failed, with the message. */
    method HandleTransferError(id: string, message: string, now: int)
      requires Valid()
      modifies this`activeTransfers, this`saved, this`jobs
      ensures Valid()
      ensures id !in old(activeTransfers) ==> activeTransfers == old(activeTransfers) && saved == old(saved) && jobs == old(jobs)
      ensures id in old(activeTransfers) ==>
                var s := old(activeTransfers)[id].(status := Failed, lastUpdateTime := now, errorMessage := Some(message));
                activeTransfers == old(activeTransfers)[id := s] && saved == old(saved)[id := s] && jobs == old(jobs) - {id}
    {
      if id !in activeTransfers {
        return;
      }
      Put(activeTransfers[id].(status := Failed, lastUpdateTime := now, errorMessage := Some(message)));
      jobs := jobs - {id};
    }

    /** One chunk of a running upload: sent, then recorded as the
        transfer's progress. */
    method SendChunk(id: string, total: int, step: ChunkStep, now: int)
      requires Valid() && id in activeTransfers && activeTransfers[id].status == InProgress
      modifies this`activeTransfers, this`saved, this`sent
      ensures Valid() && id in activeTransfers && activeTransfers[id].status == InProgress
      ensures sent == old(sent) + [ChunkSent(id, step.chunkNumber, step.size, step.offset, total)]
      ensures activeTransfers[id].transferredSize == step.offset + step.size
      ensures activeTransfers[id].lastChunkNumber == step.chunkNumber
    {
      sent := sent + [ChunkSent(id, step.chunkNumber, step.size, step.offset, total)];
      UpdateTransferProgress(id, step.offset + step.size, step.chunkNumber, now);
    }

    /** The chunk loop of `performUpload`, from `offset` with next chunk
        number `chunkNumber`: while the transfer is running, the chunks of
        `UploadPlan` are sent and recorded as its progress; a transfer that
        is not running sends nothing. */
    method SendChunks(id: string, total: nat, start: int, firstChunk: int, readSizes: seq<int>, now: int)
      returns (transferred: int)
      requires Valid()
      modifies this`activeTransfers, this`saved, this`sent
      ensures Valid()
      ensures var running := id in old(activeTransfers) && old(activeTransfers)[id].status == InProgress;
        var plan := UploadPlan(start, firstChunk, total, readSizes);
        (running <==> id in activeTransfers && activeTransfers[id].status == InProgress)
        && sent == old(sent) + (if running then ChunkMessages(id, total, plan) else [])
        && transferred == (if running then PlanEnd(start, plan) else start)
        && (running && plan != [] ==>
              activeTransfers[id].transferredSize == transferred
              && activeTransfers[id].lastChunkNumber == firstChunk + |plan| - 1)
    {
      var offset := start;
      var chunkNumber := firstChunk;
      transferred := start;
      ghost var base := sent;
      ghost var running := id in activeTransfers && activeTransfers[id].status == InProgress;
      ghost var plan := UploadPlan(start, firstChunk, total, readSizes);
      ghost var done: seq<ChunkStep> := [];
      var k := 0;
      while offset < total
        invariant Valid() && 0 <= k <= |readSizes|
        invariant transferred == offset == PlanEnd(start, done)
        invariant running <==> id in activeTransfers && activeTransfers[id].status == InProgress
        invariant sent == base + ChunkMessages(id, total, done)
        invariant running ==> plan == done + UploadPlan(offset, chunkNumber, total, readSizes[k..])
        invariant !running ==> done == []
        invariant chunkNumber == firstChunk + |done|
        invariant done != [] ==> id in activeTransfers && activeTransfers[id].transferredSize == offset
                                 && activeTransfers[id].lastChunkNumber == chunkNumber - 1
        decreases total - offset
      {
        if id !in activeTransfers || activeTransfers[id].status != InProgress {
          break;
        }
        var chunkSize := Min(CHUNK_SIZE, total - offset);
        var bytesRead := if k < |readSizes| then Min(readSizes[k], chunkSize) else -1;
        if bytesRead <= 0 {
          assert UploadPlan(offset, chunkNumber, total, readSizes[k..]) == [];
          break;
        }
        var step := ChunkStep(chunkNumber, bytesRead, offset);
        PlanAdvance(plan, done, offset, chunkNumber, total, readSizes, k, bytesRead);
        assert base + ChunkMessages(id, total, done + [step])
               == sent + [ChunkSent(id, chunkNumber, bytesRead, offset, total)] by {
          ChunkMessagesSnoc(id, total, done, step);
        }
        SendChunk(id, total, step, now);
        done := done + [step];
        offset := offset + bytesRead;
        transferred := transferred + bytesRead;
        chunkNumber := chunkNumber + 1;
        k := k + 1;
      }
      assert running ==> plan == done;
    }

    /** `performUpload(job)`, `readSizes` being what each read of the file
        returns: a missing file fails the transfer; otherwise the request
        is sent, resuming at chunk `lastChunkNumber + 1`, then the chunks
        from the recorded offset; reaching the end of the file completes
        the transfer. */
    method PerformUpload(job: State, fileExists: bool, fileLength: nat, readSizes: seq<int>, now: int)
      requires Valid()
      modifies this`activeTransfers, this`saved, this`jobs, this`sent
      ensures Valid()
      ensures var id := job.transferId;
        var running := id in old(activeTransfers) && old(activeTransfers)[id].status == InProgress;
        var plan := UploadPlan(job.transferredSize, job.lastChunkNumber + 1, fileLength, readSizes);
        var request := TransferRequest(id, job.fileName, fileLength, job.targetDeviceId, job.checksum, job.lastChunkNumber + 1);
        var finished := running && PlanEnd(job.transferredSize, plan) >= fileLength;
        fileExists ==>
          sent == old(sent) + [request] + (if running then ChunkMessages(id, fileLength, plan) else [])
                  + (if finished then [CompleteSent(id, true, Some(UPLOAD_DONE))] else [])
          && (running ==> id in activeTransfers
                          && activeTransfers[id].status == (if finished then Completed else InProgress))
          && (running && plan != [] ==>
                activeTransfers[id].transferredSize == PlanEnd(job.transferredSize, plan)
                && activeTransfers[id].lastChunkNumber == job.lastChunkNumber + |plan|)
      ensures !fileExists ==> sent == old(sent)
      ensures !fileExists && job.transferId in old(activeTransfers) ==>
                var s := old(activeTransfers)[job.transferId].(status := Failed, lastUpdateTime := now, errorMessage := Some(FILE_MISSING));
                activeTransfers == old(activeTransfers)[job.transferId := s] && saved == old(saved)[job.transferId := s]
                && jobs == old(jobs) - {job.transferId}
      ensures !fileExists && job.transferId !in old(activeTransfers) ==>
                activeTransfers == old(activeTransfers) && saved == old(saved) && jobs == old(jobs)
    {
      var id := job.transferId;
      if !fileExists {
        HandleTransferError(id, FILE_MISSING, now);
        return;
      }
      sent := sent + [TransferRequest(id, job.fileName, fileLength, job.targetDeviceId, job.checksum, job.lastChunkNumber + 1)];
      var transferred := SendChunks(id, fileLength, job.transferredSize, job.lastChunkNumber + 1, readSizes, now);
      if id in activeTransfers && activeTransfers[id].status == InProgress && transferred >= fileLength {
        CompleteTransfer(id, true, Some(UPLOAD_DONE), now);
      }
    }

    /** `handleReceivedChunk(...)` for a download: the chunk written, the
        progress recorded, and the transfer completed once the end is
        reached; a failed write (`writeError`) fails the transfer. Unknown
        transfers and uploads are ignored. */
    method HandleReceivedChunk(id: string, chunkNumber: int, dataLength: nat, offset: int, totalSize: int,
                               writeError: Option<string>, now: int)
      requires Valid()
      modifies this`activeTransfers, this`saved, this`jobs, this`sent
      ensures Valid()
      ensures id !in old(activeTransfers) || old(activeTransfers)[id].direction != Download ==>
                activeTransfers == old(activeTransfers) && saved == old(saved) && sent == old(sent)
      ensures id in old(activeTransfers) && old(activeTransfers)[id].direction == Download ==>
                id in activeTransfers &&
                if writeError.Some? then
                  activeTransfers[id].status == Failed && activeTransfers[id].errorMessage == writeError && sent == old(sent)
                else
                  activeTransfers[id].transferredSize == offset + dataLength
                  && activeTransfers[id].lastChunkNumber == chunkNumber
                  && sent == old(sent) + (if offset + dataLength >= totalSize then [CompleteSent(id, true, Some(DOWNLOAD_DONE))] else [])
    {
      if id !in activeTransfers || activeTransfers[id].direction != Download {
        return;
      }
      if writeError.Some? {
        HandleTransferError(id, writeError.value, now);
        return;
      }
      var transferred := offset + dataLength;
      UpdateTransferProgress(id, transferred, chunkNumber, now);
      if transferred >= totalSize {
        CompleteTransfer(id, true, Some(DOWNLOAD_DONE), now);
      }
    }

    /** `getPendingTransfers()`: the stored paused and failed transfers, in
        the enumeration order `ids` of the stored keys. */
    function GetPendingTransfers(ids: seq<string>): (r: seq<State>)
      reads this
      requires ListsKeys(ids, saved)
      ensures forall s :: s in r <==> s in StatesInOrder(ids, saved) && Resumable(s)
      ensures forall id :: id in saved && Resumable(saved[id]) ==> saved[id] in r
      ensures forall s :: s in r ==> Resumable(s) && exists id :: id in saved && saved[id] == s
    {
      var states := StatesInOrder(ids, saved);
      forall id | id in saved && Resumable(saved[id]) ensures saved[id] in Filter(states, Resumable) {
        ListedState(ids, saved, id);
      }
      Filter(states, Resumable)
    }

    /** `getTransferHistory(limit)`: the stored states, most recently updated
        first, at most `limit` of them. */
    function GetTransferHistory(ids: seq<string>, limit: nat): (r: seq<State>)
      reads this
      requires ListsKeys(ids, saved)
      ensures |r| == Min(limit, |saved|)
      ensures r == SortBy(StatesInOrder(ids, saved), LastUpdate, true)[..Min(limit, |ids|)]
      ensures SortedBy(r, LastUpdate, true)
      ensures forall i :: 0 <= i < |r| ==> r[i] in StatesInOrder(ids, saved)
      ensures limit >= |saved| ==> forall id :: id in saved ==> saved[id] in r
      ensures forall id, i :: id in saved && saved[id] !in r && 0 <= i < |r| ==>
                saved[id].lastUpdateTime <= r[i].lastUpdateTime
    {
      var states := StatesInOrder(ids, saved);
      ListsKeysLength(ids, saved);
      TakeSorted(states, LastUpdate, true, limit);
      var sorted := SortBy(states, LastUpdate, true);
      var r := Take(sorted, limit);
      forall id | id in saved ensures saved[id] in sorted {
        ListedState(ids, saved, id);
        SortByMembers(states, LastUpdate, true, saved[id]);
      }
      forall id, i | id in saved && saved[id] !in r && 0 <= i < |r|
        ensures saved[id].lastUpdateTime <= r[i].lastUpdateTime
      {
        var j :| 0 <= j < |sorted| && sorted[j] == saved[id];
        assert r[i] == sorted[i];
      }
      r
    }

    /** `clearCompletedTransfers()`: completed and cancelled states leave
        the stored preferences. */
    method ClearCompletedTransfers()
      requires Valid()
      modifies this`saved
      ensures Valid()
      ensures forall id :: id in saved <==> id in old(saved) && old(saved)[id].status != Completed && old(saved)[id].status != Cancelled
      ensures forall id :: id in saved ==> saved[id] == old(saved)[id]
    {
      saved := map id | id in saved && saved[id].status != Completed && saved[id].status != Cancelled :: saved[id];
    }

    /** `cleanup()` */
    method Cleanup()
      requires Valid()
      modifies this`jobs, this`activeTransfers, this`queue
      ensures Valid() && jobs == {} && activeTransfers == map[] && queue == []
    {
      jobs, activeTransfers, queue := {}, map[], [];
    }
  }
}
