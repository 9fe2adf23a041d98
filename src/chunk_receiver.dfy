/** The backend's receiving side of the chunked file-transfer protocol
    (`backend/src/fileTransfer/fileTransferManager.js`): one request handler
    dispatching on the message's action, over a map of active transfers.
    Base64 decoding, the clock and logging are not part of this model; the
    chunk data is kept as the text that arrived. */
module ChunkReceiver {
  import opened Wrappers
  import opened Arith

  /** `CHUNK_SIZE`, 1 MiB. */
  const CHUNK_SIZE := 1024 * 1024

  /** A stored chunk. */
  datatype Chunk = Chunk(chunkNumber: int, chunkSize: int, offset: int, data: string)

  /** `transferInfo`; the fields the source adds later are options. */
  datatype Transfer = Transfer(transferId: string, clientId: string, fileName: string, fileSize: nat,
                               status: string, progress: Option<int>, totalChunks: int,
                               receivedChunks: nat, chunks: map<int, Chunk>, startTime: int,
                               endTime: Option<int>, totalSize: Option<int>, transferredSize: Option<int>)

  /** The message fields the handler reads. */
  datatype Request = Request(action: string, transferId: string, fileName: string, fileSize: nat,
                             chunkNumber: int, chunkSize: int, totalChunks: int, offset: int,
                             data: string, progress: int, totalSize: int, transferredSize: int)

  /** The handler's answers (the human-readable messages are not modelled). */
  datatype Response =
    | Failure(errorCode: string)
    | Incomplete(receivedChunks: nat, totalChunks: int)
    | Accepted(transferId: string)
    | ChunkReceived(transferId: string, chunkNumber: int, progress: Option<int>)
    | Completed(transferId: string, fileName: string, fileSize: nat, duration: int)
    | Cancelled(transferId: string)
    | ProgressUpdated(transferId: string, reported: int)

  /** `Math.round(received / total * 100)`; absent where JavaScript's
      result is not finite (no chunks announced). */
  function ChunkProgress(received: nat, total: int): (p: Option<int>)
    ensures p.None? <==> total == 0
    ensures total > 0 ==> p.value == RoundDiv(100 * received, total)
    ensures total < 0 ==> p.value == RoundDiv(-100 * received, -total)
  {
    if total == 0 then None
    else if total > 0 then Some(RoundDiv(100 * received, total))
    else Some(RoundDiv(-100 * received, -total))
  }

  /** All announced chunks received is 100 percent, none is 0. */
  lemma ChunkProgressEnds(total: nat)
    requires total > 0
    ensures ChunkProgress(total, total) == Some(100)
    ensures ChunkProgress(0, total) == Some(0)
  {
    RoundDivExact(100, total);
    RoundDivExact(0, total);
  }

  /** While no more chunks arrived than announced the progress stays
      between 0 and 100. */
  lemma ChunkProgressBounds(received: nat, total: nat)
    requires 0 < total && received <= total
    ensures 0 <= ChunkProgress(received, total).value <= 100
  {
    MulMonotoneInt(100, received, total);
    RoundDivBounds(100 * received, total, 100);
  }

  /** Rounding reports 100 percent one chunk short of 200. */
  lemma ChunkProgressRoundsUp()
    ensures ChunkProgress(199, 200) == Some(100)
  {
  }

  /** The record 'request' stores: pending, no chunks, the 1 MiB chunk
      count of the file. */
  function NewTransfer(id: string, clientId: string, fileName: string, fileSize: nat, now: int): Transfer
  {
    Transfer(id, clientId, fileName, fileSize, "pending", Some(0), CeilDiv(fileSize, CHUNK_SIZE), 0, map[], now, None, None, None)
  }

  /** The record once 'chunk' stored `c` under its number. */
  function WithChunk(t: Transfer, c: Chunk, totalChunks: int): Transfer
  {
    var chunks := t.chunks[c.chunkNumber := c];
    t.(status := "in_progress", totalChunks := totalChunks, chunks := chunks,
       receivedChunks := |chunks|, progress := ChunkProgress(|chunks|, totalChunks))
  }

  /** The record once 'progress' stored the sender's figures. */
  function WithReported(t: Transfer, progress: int, totalSize: int, transferredSize: int): Transfer
  {
    t.(progress := Some(progress), totalSize := Some(totalSize), transferredSize := Some(transferredSize))
  }

  class TransferHandler {
    var activeTransfers: map<string, Transfer>

    /** A transfer's received count is the number of distinct chunks it holds. */
    ghost predicate Valid()
      reads this
    {
      forall id :: id in activeTransfers ==> activeTransfers[id].receivedChunks == |activeTransfers[id].chunks|
    }

    constructor ()
      ensures Valid() && activeTransfers == map[]
    {
      activeTransfers := map[];
    }

    /** `handleFileTransferRequest(clientId, data)`: dispatch on the
        action; any other action fails with `UNKNOWN_ACTION` and changes
        nothing. */
    method HandleFileTransferRequest(clientId: string, r: Request, now: int) returns (resp: Response)
      requires Valid()
      modifies this
      ensures Valid()
      ensures r.action !in {"request", "chunk", "complete", "cancel", "progress"} ==>
                resp == Failure("UNKNOWN_ACTION") && activeTransfers == old(activeTransfers)
      ensures r.action in {"chunk", "complete", "cancel", "progress"} && r.transferId !in old(activeTransfers) ==>
                resp == Failure("TRANSFER_NOT_FOUND") && activeTransfers == old(activeTransfers)
      ensures r.action == "request" && r.transferId in old(activeTransfers) ==>
                resp == Failure("TRANSFER_ALREADY_EXISTS") && activeTransfers == old(activeTransfers)
      ensures r.action == "request" && r.transferId !in old(activeTransfers) ==>
                resp == Accepted(r.transferId)
                && activeTransfers == old(activeTransfers)[r.transferId := NewTransfer(r.transferId, clientId, r.fileName, r.fileSize, now)]
      ensures r.action == "chunk" && r.transferId in old(activeTransfers) ==>
                var t := WithChunk(old(activeTransfers)[r.transferId], Chunk(r.chunkNumber, r.chunkSize, r.offset, r.data), r.totalChunks);
                resp == ChunkReceived(r.transferId, r.chunkNumber, t.progress) && activeTransfers == old(activeTransfers)[r.transferId := t]
      ensures r.action == "complete" && r.transferId in old(activeTransfers) ==>
                var t := old(activeTransfers)[r.transferId];
                if t.receivedChunks != t.totalChunks then
                  resp == Incomplete(t.receivedChunks, t.totalChunks) && activeTransfers == old(activeTransfers)
                else
                  resp == Completed(r.transferId, t.fileName, t.fileSize, now - t.startTime)
                  && activeTransfers == old(activeTransfers)[r.transferId := t.(status := "completed", endTime := Some(now))]
      ensures r.action == "cancel" && r.transferId in old(activeTransfers) ==>
                resp == Cancelled(r.transferId) && activeTransfers == old(activeTransfers) - {r.transferId}
      ensures r.action == "progress" && r.transferId in old(activeTransfers) ==>
                resp == ProgressUpdated(r.transferId, r.progress)
                && activeTransfers == old(activeTransfers)[r.transferId := WithReported(old(activeTransfers)[r.transferId], r.progress, r.totalSize, r.transferredSize)]
    {
      match r.action
      case "request" => resp := HandleTransferRequest(clientId, r.transferId, r.fileName, r.fileSize, now);
      case "chunk" =>
        resp := HandleTransferChunk(r.transferId, Chunk(r.chunkNumber, r.chunkSize, r.offset, r.data), r.totalChunks);
      case "complete" => resp := HandleTransferComplete(r.transferId, now);
      case "cancel" => resp := HandleTransferCancel(r.transferId);
      case "progress" => resp := HandleTransferProgress(r.transferId, r.progress, r.totalSize, r.transferredSize);
      case _ => resp := Failure("UNKNOWN_ACTION");
    }

    /** 'request': refused for an id already active; otherwise a pending
        transfer with ceil(fileSize / 1 MiB) chunks and none received. */
    method HandleTransferRequest(clientId: string, id: string, fileName: string, fileSize: nat, now: int)
      returns (resp: Response)
      requires Valid()
      modifies this
      ensures Valid()
      ensures id in old(activeTransfers) ==>
                resp == Failure("TRANSFER_ALREADY_EXISTS") && activeTransfers == old(activeTransfers)
      ensures id !in old(activeTransfers) ==>
                resp == Accepted(id)
                && activeTransfers == old(activeTransfers)[id := NewTransfer(id, clientId, fileName, fileSize, now)]
    {
      if id in activeTransfers {
        return Failure("TRANSFER_ALREADY_EXISTS");
      }
      activeTransfers := activeTransfers[id := NewTransfer(id, clientId, fileName, fileSize, now)];
      return Accepted(id);
    }

    /** 'chunk': the chunk is stored under its number (a repeat replaces
        the earlier one), the total is taken from the message, the received
        count is the number of distinct chunks, and the progress follows. */
    method HandleTransferChunk(id: string, c: Chunk, totalChunks: int) returns (resp: Response)
      requires Valid()
      modifies this
      ensures Valid()
      ensures id !in old(activeTransfers) ==>
                resp == Failure("TRANSFER_NOT_FOUND") && activeTransfers == old(activeTransfers)
      ensures id in old(activeTransfers) ==>
                var t := old(activeTransfers)[id];
                var chunks := t.chunks[c.chunkNumber := c];
                var t' := WithChunk(t, c, totalChunks);
                && t'.chunks == chunks && t'.receivedChunks == |chunks| && t'.totalChunks == totalChunks
                && t'.status == "in_progress" && t'.progress == ChunkProgress(|chunks|, totalChunks)
                && activeTransfers == old(activeTransfers)[id := t']
                && resp == ChunkReceived(id, c.chunkNumber, t'.progress)
    {
      if id !in activeTransfers {
        return Failure("TRANSFER_NOT_FOUND");
      }
      var t := activeTransfers[id];
      var chunks := t.chunks[c.chunkNumber := c];
      t := t.(status := "in_progress", totalChunks := totalChunks, chunks := chunks, receivedChunks := |chunks|);
      t := t.(progress := ChunkProgress(t.receivedChunks, t.totalChunks));
      activeTransfers := activeTransfers[id := t];
      return ChunkReceived(id, c.chunkNumber, t.progress);
    }

    /** 'complete': refused while the received count differs from the
        total; otherwise completed, with its duration. */
    method HandleTransferComplete(id: string, now: int) returns (resp: Response)
      requires Valid()
      modifies this
      ensures Valid()
      ensures id !in old(activeTransfers) ==>
                resp == Failure("TRANSFER_NOT_FOUND") && activeTransfers == old(activeTransfers)
      ensures id in old(activeTransfers) ==>
                var t := old(activeTransfers)[id];
                if t.receivedChunks != t.totalChunks then
                  resp == Incomplete(t.receivedChunks, t.totalChunks) && activeTransfers == old(activeTransfers)
                else
                  resp == Completed(id, t.fileName, t.fileSize, now - t.startTime)
                  && activeTransfers == old(activeTransfers)[id := t.(status := "completed", endTime := Some(now))]
    {
      if id !in activeTransfers {
        return Failure("TRANSFER_NOT_FOUND");
      }
      var t := activeTransfers[id];
      if t.receivedChunks != t.totalChunks {
        return Incomplete(t.receivedChunks, t.totalChunks);
      }
      activeTransfers := activeTransfers[id := t.(status := "completed", endTime := Some(now))];
      return Completed(id, t.fileName, t.fileSize, now - t.startTime);
    }

    /** 'cancel': the transfer leaves the active map. */
    method HandleTransferCancel(id: string) returns (resp: Response)
      requires Valid()
      modifies this
      ensures Valid()
      ensures id !in old(activeTransfers) ==>
                resp == Failure("TRANSFER_NOT_FOUND") && activeTransfers == old(activeTransfers)
      ensures id in old(activeTransfers) ==> resp == Cancelled(id) && activeTransfers == old(activeTransfers) - {id}
    {
      if id !in activeTransfers {
        return Failure("TRANSFER_NOT_FOUND");
      }
      activeTransfers := activeTransfers - {id};
      return Cancelled(id);
    }

    /** 'progress': the sender's own progress figures are stored as given. */
    method HandleTransferProgress(id: string, progress: int, totalSize: int, transferredSize: int)
      returns (resp: Response)
      requires Valid()
      modifies this
      ensures Valid()
      ensures id !in old(activeTransfers) ==>
                resp == Failure("TRANSFER_NOT_FOUND") && activeTransfers == old(activeTransfers)
      ensures id in old(activeTransfers) ==>
                resp == ProgressUpdated(id, progress)
                && activeTransfers == old(activeTransfers)[id := WithReported(old(activeTransfers)[id], progress, totalSize, transferredSize)]
    {
      if id !in activeTransfers {
        return Failure("TRANSFER_NOT_FOUND");
      }
      var t := activeTransfers[id];
      activeTransfers := activeTransfers[id := t.(progress := Some(progress), totalSize := Some(totalSize),
                                                 transferredSize := Some(transferredSize))];
      return ProgressUpdated(id, progress);
    }

    /** `getTransferStatus(id)` */
    function GetTransferStatus(id: string): (r: Option<Transfer>)
      reads this
      ensures r.Some? <==> id in activeTransfers
      ensures r.Some? ==> r.value == activeTransfers[id]
    {
      if id in activeTransfers then Some(activeTransfers[id]) else None
    }
  }
}
