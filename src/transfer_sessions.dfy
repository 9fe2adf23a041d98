/** The backend chunked-transfer bookkeeping
    (`backend/src/utils/file-transfer-manager.ts`): transfer sessions with a
    sorted list of completed chunk indices, the pending-chunk list, chunk
    geometry, progress, and a bound on concurrently active transfers. File
    I/O, checksums and persistence are not part of this model. */
module TransferSessions {
  import opened Wrappers
  import opened Arith
  import opened Seqs
  import opened Sorting

  /** `FileTransferState` */
  datatype Session = Session(sessionId: string, fileName: string, filePath: string, totalSize: nat,
                             chunksCompleted: seq<int>, chunkSize: nat, checksum: string,
                             status: string, createdAt: int, updatedAt: int)

  /** `ChunkInfo` (the checksum is filled in later, so it is empty here). */
  datatype ChunkInfo = ChunkInfo(chunkIndex: int, offset: int, size: int, checksum: string)

  const DEFAULT_CHUNK_SIZE := 64 * 1024

  /** Strictly ascending: sorted and free of duplicates. */
  predicate Increasing(s: seq<int>) {
    forall i, j :: 0 <= i < j < |s| ==> s[i] < s[j]
  }

  /** Two equal elements at different positions count twice. */
  lemma TwiceCounted(b: seq<int>, j: nat, k: nat)
    requires j < k < |b| && b[j] == b[k]
    ensures multiset(b)[b[j]] >= 2
  {
    assert b == b[..k] + b[k..];
    assert b[j] in b[..k];
    assert b[k] in b[k..];
    assert multiset(b) == multiset(b[..k]) + multiset(b[k..]);
  }

  /** An ascending sequence holds each value at most once. */
  lemma {:induction false} IncreasingCountsOnce(s: seq<int>, x: int)
    requires Increasing(s)
    ensures multiset(s)[x] <= 1
  {
    if s != [] {
      assert s == [s[0]] + s[1..];
      assert Increasing(s[1..]) by {
        forall i, j | 0 <= i < j < |s[1..]| ensures s[1..][i] < s[1..][j] {
          assert s[1..][i] == s[i + 1] && s[1..][j] == s[j + 1];
        }
      }
      IncreasingCountsOnce(s[1..], x);
      if s[0] == x {
        assert x !in s[1..] by {
          forall i | 0 <= i < |s[1..]| ensures s[1..][i] != x {
            assert s[1..][i] == s[i + 1];
          }
        }
      }
    }
  }

  function Identity(x: int): int { x }

  /** `markChunkCompleted`'s list update: an index already present changes
      nothing; a new one is pushed and the list sorted numerically. */
  function AddChunk(s: seq<int>, index: int): (r: seq<int>)
    requires Increasing(s)
    ensures Increasing(r)
    ensures forall x :: x in r <==> x in s || x == index
    ensures index in s ==> r == s
    ensures index !in s ==> |r| == |s| + 1
  {
    if index in s then s
    else
      var r := SortBy(s + [index], Identity, false);
      assert forall x :: multiset(r)[x] <= 1 by {
        forall x ensures multiset(r)[x] <= 1 {
          IncreasingCountsOnce(s, x);
          assert multiset(s + [index]) == multiset(s) + multiset{index};
        }
      }
      assert Increasing(r) by {
        forall i, j | 0 <= i < j < |r| ensures r[i] < r[j] {
          assert InOrder(Identity(r[i]), Identity(r[j]), false);
          if r[i] == r[j] {
            TwiceCounted(r, i, j);
          }
        }
      }
      assert forall x :: x in r <==> x in multiset(s + [index]);
      r
  }

  /** Completing a chunk twice is completing it once. */
  lemma AddChunkIdempotent(s: seq<int>, index: int)
    requires Increasing(s)
    ensures AddChunk(AddChunk(s, index), index) == AddChunk(s, index)
  {
  }

  /** `0, 1, …, n − 1` */
  function Range(n: nat): (r: seq<int>)
    ensures |r| == n && forall i :: 0 <= i < n ==> r[i] == i
  {
    if n == 0 then [] else Range(n - 1) + [n - 1]
  }

  /** `Math.ceil(totalSize / chunkSize)` */
  function TotalChunks(totalSize: nat, chunkSize: nat): (n: nat)
    requires chunkSize > 0
    ensures n * chunkSize >= totalSize && (n == 0 || (n - 1) * chunkSize < totalSize)
  {
    CeilDiv(totalSize, chunkSize)
  }

  /** The test "not completed". */
  function NotCompleted(completed: seq<int>): int -> bool
  {
    i => i !in completed
  }

  /** The indices of `0 .. n − 1` not yet completed, in ascending order. */
  function PendingChunks(n: nat, completed: seq<int>): (r: seq<int>)
  {
    Filter(Range(n), NotCompleted(completed))
  }

  /** Exactly the indices below `n` that are not completed, ascending. */
  lemma PendingChunksSpec(n: nat, completed: seq<int>)
    ensures forall x :: x in PendingChunks(n, completed) <==> 0 <= x < n && x !in completed
    ensures Increasing(PendingChunks(n, completed))
  {
    PendingChunksMembers(n, completed);
    PendingChunksIncreasing(n, completed);
  }

  lemma PendingChunksMembers(n: nat, completed: seq<int>)
    ensures forall x :: x in PendingChunks(n, completed) <==> 0 <= x < n && x !in completed
  {
    var r := PendingChunks(n, completed);
    forall x ensures x in r <==> 0 <= x < n && x !in completed {
      if 0 <= x < n && x !in completed {
        assert Range(n)[x] == x;
      }
      if x in r {
        var j :| 0 <= j < |r| && r[j] == x;
        assert r[j] in Range(n);
      }
    }
  }

  lemma PendingChunksIncreasing(n: nat, completed: seq<int>)
    ensures Increasing(PendingChunks(n, completed))
  {
    FilterIncreasing(Range(n), NotCompleted(completed));
  }

  /** Filtering keeps a sequence ascending. */
  lemma {:induction false} FilterIncreasing(s: seq<int>, f: int -> bool)
    requires Increasing(s)
    ensures Increasing(Filter(s, f))
  {
    if s != [] {
      var t := Filter(s[1..], f);
      FilterIncreasing(s[1..], f);
      forall k | 0 <= k < |t| ensures s[0] < t[k] {
        var j :| 0 <= j < |s[1..]| && s[1..][j] == t[k];
        assert s[1..][j] == s[j + 1];
      }
      if f(s[0]) {
        ConsIncreasing(s[0], t);
      }
    }
  }

  /** Prepending an element below all others keeps a sequence ascending. */
  lemma ConsIncreasing(x: int, s: seq<int>)
    requires Increasing(s) && forall k :: 0 <= k < |s| ==> x < s[k]
    ensures Increasing([x] + s)
  {
    var r := [x] + s;
    forall i, j | 0 <= i < j < |r| ensures r[i] < r[j] {
      assert r[j] == s[j - 1];
      if i > 0 {
        assert r[i] == s[i - 1];
      }
    }
  }

  /** One MiB in 64 KiB chunks, none completed: sixteen pending chunks. */
  lemma OneMebibytePending()
    ensures PendingChunks(TotalChunks(1024 * 1024, DEFAULT_CHUNK_SIZE), []) == Range(16)
  {
    assert TotalChunks(1024 * 1024, DEFAULT_CHUNK_SIZE) == 16;
    FilterAll(Range(16), NotCompleted([]));
  }

  /** `getChunkInfo`'s arithmetic: the chunk at `index · chunkSize`, cut at
      the end of the file; none at or past the end. The index is not range
      checked, so a negative one yields a chunk at a negative offset. */
  function ChunkAt(totalSize: nat, chunkSize: nat, index: int): (r: Option<ChunkInfo>)
    ensures r.None? <==> index * chunkSize >= totalSize
    ensures r.Some? ==>
              r.value.chunkIndex == index && r.value.offset == index * chunkSize
              && r.value.size == Min(chunkSize, totalSize - index * chunkSize) && r.value.checksum == ""
  {
    var offset := index * chunkSize;
    if offset >= totalSize then None
    else Some(ChunkInfo(index, offset, Min(chunkSize, totalSize - offset), ""))
  }

  /** The chunks `0 .. TotalChunks − 1` tile the file: each is non-empty,
      starts where the previous one ends, and the last ends at the file's
      end. */
  lemma ChunksTile(totalSize: nat, chunkSize: nat, index: nat)
    requires chunkSize > 0
    ensures index < TotalChunks(totalSize, chunkSize) <==> ChunkAt(totalSize, chunkSize, index).Some?
    ensures var n := TotalChunks(totalSize, chunkSize);
      index < n ==>
        var c := ChunkAt(totalSize, chunkSize, index).value;
        c.size > 0
        && (index + 1 < n ==> c.offset + c.size == ChunkAt(totalSize, chunkSize, index + 1).value.offset)
        && (index + 1 == n ==> c.offset + c.size == totalSize)
  {
    var n := TotalChunks(totalSize, chunkSize);
    if index < n {
      MulMonotone(chunkSize, index, n - 1);
    } else {
      MulMonotone(chunkSize, n, index);
    }
    if index + 1 < n {
      MulMonotone(chunkSize, index + 2, n);
      assert (index + 1) * chunkSize < totalSize by {
        MulMonotone(chunkSize, index + 1, n - 1);
      }
    }
  }

  /** `getProgress()` */
  datatype Progress = Progress(sessionId: string, bytesTransferred: int, totalBytes: nat,
                               percentage: Option<real>, chunksCompleted: nat, totalChunks: nat)

  /** `(bytes / total) * 100`; absent where JavaScript's NaN or Infinity
      would be (an empty file). */
  function Percentage(bytes: int, total: nat): (p: Option<real>)
    ensures p.Some? <==> total > 0
  {
    if total == 0 then None else Some((bytes as real / total as real) * 100.0)
  }

  /** A share of at most the whole is between 0 and 100 percent. */
  lemma PercentageBound(bytes: int, total: nat)
    requires 0 <= bytes <= total
    ensures Percentage(bytes, total).Some? ==> 0.0 <= Percentage(bytes, total).value <= 100.0
  {
    if total > 0 {
      var q := bytes as real / total as real;
      assert q * total as real == bytes as real;
      assert q <= 1.0 by {
        if q > 1.0 {
          assert q * total as real > 1.0 * total as real;
        }
      }
    }
  }

  /** `getProgress` as written: every completed chunk counts as a full
      `chunkSize`. */
  function ProgressAsWritten(s: Session): (p: Progress)
    requires s.chunkSize > 0
    ensures p.bytesTransferred == |s.chunksCompleted| * s.chunkSize
    ensures p.totalChunks == TotalChunks(s.totalSize, s.chunkSize)
    ensures p.chunksCompleted == |s.chunksCompleted| && p.totalBytes == s.totalSize
    ensures p.percentage == Percentage(p.bytesTransferred, s.totalSize)
  {
    var bytes := |s.chunksCompleted| * s.chunkSize;
    Progress(s.sessionId, bytes, s.totalSize, Percentage(bytes, s.totalSize), |s.chunksCompleted|,
             TotalChunks(s.totalSize, s.chunkSize))
  }

  /** A 100-byte file in 64-byte chunks with both chunks done reports 128
      bytes transferred and 128 percent. */
  lemma ProgressOverstates()
    ensures var p := ProgressAsWritten(Session("s", "f", "/f", 100, [0, 1], 64, "", "in_progress", 0, 0));
      p.bytesTransferred == 128 && p.percentage == Some(128.0)
  {
  }

  /** `[lo, hi)`, the bytes of chunk `index`, clamped to the file. */
  function Clamp(x: int, total: nat): (r: nat)
    ensures r <= total
  {
    if x < 0 then 0 else if x > total then total else x
  }

  /** The bytes chunk `index` holds: its `ChunkAt` size for a real chunk,
      0 for an index past the end or before the start. */
  function ChunkBytes(totalSize: nat, chunkSize: nat, index: int): (b: nat)
    requires chunkSize > 0
    ensures index >= 0 && ChunkAt(totalSize, chunkSize, index).Some? ==> b == ChunkAt(totalSize, chunkSize, index).value.size
    ensures index < 0 || ChunkAt(totalSize, chunkSize, index).None? ==> b == 0
  {
    MulSucc(index, chunkSize);
    Clamp((index + 1) * chunkSize, totalSize) - Clamp(index * chunkSize, totalSize)
  }

  /** The bytes actually held by the completed chunks. */
  function CompletedBytes(totalSize: nat, chunkSize: nat, completed: seq<int>): nat
    requires chunkSize > 0
  {
    if completed == [] then 0
    else ChunkBytes(totalSize, chunkSize, completed[0]) + CompletedBytes(totalSize, chunkSize, completed[1..])
  }

  /** Distinct chunks never hold more than the file: the bytes of an
      ascending list fit between its first chunk's start and the end. */
  lemma {:induction false} CompletedBytesBound(totalSize: nat, chunkSize: nat, completed: seq<int>)
    requires chunkSize > 0 && Increasing(completed)
    ensures completed != [] ==> CompletedBytes(totalSize, chunkSize, completed) + Clamp(completed[0] * chunkSize, totalSize) <= totalSize
    ensures CompletedBytes(totalSize, chunkSize, completed) <= totalSize
  {
    if completed == [] {
      return;
    }
    var a, rest := completed[0], completed[1..];
    var lo, hi := Clamp(a * chunkSize, totalSize), Clamp((a + 1) * chunkSize, totalSize);
    var r := CompletedBytes(totalSize, chunkSize, rest);
    assert CompletedBytes(totalSize, chunkSize, completed) == hi - lo + r;
    if rest != [] {
      assert Increasing(rest) by {
        forall i, j | 0 <= i < j < |rest| ensures rest[i] < rest[j] {
          assert rest[i] == completed[i + 1] && rest[j] == completed[j + 1];
        }
      }
      var next := Clamp(rest[0] * chunkSize, totalSize);
      assert r + next <= totalSize by {
        CompletedBytesBound(totalSize, chunkSize, rest);
      }
      assert hi <= next by {
        assert rest[0] == completed[1] > a;
        MulMonotoneInt(chunkSize, a + 1, rest[0]);
      }
    }
    assert hi + r <= totalSize;
  }

  /** `getProgress` with the bytes the completed chunks hold. */
  function ProgressOf(s: Session): (p: Progress)
    requires s.chunkSize > 0 && Increasing(s.chunksCompleted)
    ensures 0 <= p.bytesTransferred <= s.totalSize
    ensures p.percentage.Some? ==> 0.0 <= p.percentage.value <= 100.0
    ensures p.totalChunks == TotalChunks(s.totalSize, s.chunkSize)
    ensures p.chunksCompleted == |s.chunksCompleted| && p.totalBytes == s.totalSize
  {
    var bytes := CompletedBytes(s.totalSize, s.chunkSize, s.chunksCompleted);
    CompletedBytesBound(s.totalSize, s.chunkSize, s.chunksCompleted);
    PercentageBound(bytes, s.totalSize);
    Progress(s.sessionId, bytes, s.totalSize, Percentage(bytes, s.totalSize), |s.chunksCompleted|,
             TotalChunks(s.totalSize, s.chunkSize))
  }

  /** Where the last chunk is full the two agree. */
  lemma ProgressAgreesOnFullChunks(s: Session)
    requires s.chunkSize > 0 && Increasing(s.chunksCompleted)
    requires forall k :: 0 <= k < |s.chunksCompleted| ==> 0 <= s.chunksCompleted[k] && (s.chunksCompleted[k] + 1) * s.chunkSize <= s.totalSize
    ensures ProgressOf(s) == ProgressAsWritten(s)
  {
    FullChunksBytes(s.totalSize, s.chunkSize, s.chunksCompleted);
  }

  lemma {:induction false} FullChunksBytes(totalSize: nat, chunkSize: nat, completed: seq<int>)
    requires chunkSize > 0
    requires forall k :: 0 <= k < |completed| ==> 0 <= completed[k] && (completed[k] + 1) * chunkSize <= totalSize
    ensures CompletedBytes(totalSize, chunkSize, completed) == |completed| * chunkSize
  {
    if completed != [] {
      FullChunksBytes(totalSize, chunkSize, completed[1..]);
      var a := completed[0];
      assert ChunkBytes(totalSize, chunkSize, a) == chunkSize by {
        MulMonotone(chunkSize, a, a + 1);
      }
    }
  }

  /** `x || d` for a numeric option: absent and 0 give the default. */
  function OrDefault(x: Option<nat>, d: nat): nat
  {
    if x.Some? && x.value != 0 then x.value else d
  }

  class FileTransferManager {
    var chunkSize: nat
    var maxConcurrentTransfers: nat
    var retryAttempts: nat
    var retryBackoffMs: nat
    var sessions: map<string, Session>
    /** Session ids marked active; `startTransfer` does not check that the
        session exists. */
    var activeTransfers: set<string>

    /** Every session has a positive chunk size and an ascending list. */
    ghost predicate Valid()
      reads this
    {
      chunkSize > 0
      && forall id :: id in sessions ==> sessions[id].chunkSize > 0 && Increasing(sessions[id].chunksCompleted)
    }

    /** `new FileTransferManager(config)` (state loaded from disk is not
        modelled, so the manager starts empty). */
    constructor (chunkSizeOption: Option<nat>, maxConcurrent: Option<nat>, retries: Option<nat>, backoff: Option<nat>)
      ensures Valid() && sessions == map[] && activeTransfers == {}
      ensures chunkSize == OrDefault(chunkSizeOption, DEFAULT_CHUNK_SIZE)
      ensures maxConcurrentTransfers == OrDefault(maxConcurrent, 5)
      ensures retryAttempts == OrDefault(retries, 3) && retryBackoffMs == OrDefault(backoff, 100)
    {
      chunkSize := OrDefault(chunkSizeOption, DEFAULT_CHUNK_SIZE);
      maxConcurrentTransfers := OrDefault(maxConcurrent, 5);
      retryAttempts := OrDefault(retries, 3);
      retryBackoffMs := OrDefault(backoff, 100);
      sessions, activeTransfers := map[], {};
    }

    /** `createSession(...)`: a pending session with no completed chunks
        and the manager's chunk size, replacing any session of that id. */
    method CreateSession(id: string, fileName: string, filePath: string, totalSize: nat, now: int)
      returns (s: Session)
      requires Valid()
      modifies this`sessions
      ensures Valid()
      ensures s.sessionId == id && s.status == "pending" && s.chunksCompleted == []
      ensures s.chunkSize == chunkSize && s.totalSize == totalSize && s.checksum == ""
      ensures sessions == old(sessions)[id := s]
    {
      s := Session(id, fileName, filePath, totalSize, [], chunkSize, "", "pending", now, now);
      sessions := sessions[id := s];
    }

    /** `getSession(id)` */
    function GetSession(id: string): (r: Option<Session>)
      reads this
      ensures r.Some? <==> id in sessions
      ensures r.Some? ==> r.value == sessions[id]
    {
      if id in sessions then Some(sessions[id]) else None
    }

    /** `updateSessionStatus(id, status)`: undefined for an unknown id. */
    method UpdateSessionStatus(id: string, status: string, now: int) returns (r: Option<Session>)
      requires Valid()
      modifies this`sessions
      ensures Valid()
      ensures r.Some? <==> id in old(sessions)
      ensures id !in old(sessions) ==> sessions == old(sessions)
      ensures id in old(sessions) ==>
                r.value == old(sessions)[id].(status := status, updatedAt := now)
                && sessions == old(sessions)[id := r.value]
    {
      if id !in sessions {
        return None;
      }
      var s := sessions[id].(status := status, updatedAt := now);
      sessions := sessions[id := s];
      return Some(s);
    }

    /** `markChunkCompleted(id, index)`: false for an unknown session;
        otherwise the index joins the ascending list once. */
    method MarkChunkCompleted(id: string, index: int, now: int) returns (ok: bool)
      requires Valid()
      modifies this`sessions
      ensures Valid()
      ensures ok <==> id in old(sessions)
      ensures !ok ==> sessions == old(sessions)
      ensures ok ==>
                var s := old(sessions)[id];
                sessions == old(sessions)[id := if index in s.chunksCompleted then s
                                               else s.(chunksCompleted := AddChunk(s.chunksCompleted, index), updatedAt := now)]
    {
      if id !in sessions {
        return false;
      }
      var s := sessions[id];
      if index !in s.chunksCompleted {
        sessions := sessions[id := s.(chunksCompleted := AddChunk(s.chunksCompleted, index), updatedAt := now)];
      }
      return true;
    }

    /** `getPendingChunks(id)`: empty for an unknown session. */
    method GetPendingChunks(id: string) returns (pending: seq<int>)
      requires Valid()
      ensures id !in sessions ==> pending == []
      ensures id in sessions ==>
                pending == PendingChunks(TotalChunks(sessions[id].totalSize, sessions[id].chunkSize),
                                         sessions[id].chunksCompleted)
    {
      if id !in sessions {
        return [];
      }
      var s := sessions[id];
      var total := TotalChunks(s.totalSize, s.chunkSize);
      pending := [];
      for i := 0 to total
        invariant pending == PendingChunks(i, s.chunksCompleted)
      {
        FilterSnoc(Range(i), i, NotCompleted(s.chunksCompleted));
        if i !in s.chunksCompleted {
          pending := pending + [i];
        }
      }
    }

    /** `getChunkInfo(id, index)`: undefined for an unknown session. */
    function GetChunkInfo(id: string, index: int): (r: Option<ChunkInfo>)
      reads this
      ensures id !in sessions ==> r.None?
      ensures id in sessions ==> r == ChunkAt(sessions[id].totalSize, sessions[id].chunkSize, index)
    {
      if id !in sessions then None else ChunkAt(sessions[id].totalSize, sessions[id].chunkSize, index)
    }

    /** `getProgress(id)`: undefined for an unknown session; the bytes are
        the completed chunks counted at the full chunk size, as written. */
    function GetProgress(id: string): (r: Option<Progress>)
      reads this
      requires Valid()
      ensures r.Some? <==> id in sessions
      ensures r.Some? ==> r.value.bytesTransferred == |sessions[id].chunksCompleted| * sessions[id].chunkSize
      ensures r.Some? ==> r.value.totalChunks == TotalChunks(sessions[id].totalSize, sessions[id].chunkSize)
      ensures r.Some? ==> r.value.percentage == Percentage(r.value.bytesTransferred, sessions[id].totalSize)
      ensures r.Some? && (forall k :: 0 <= k < |sessions[id].chunksCompleted| ==>
                0 <= sessions[id].chunksCompleted[k] && (sessions[id].chunksCompleted[k] + 1) * sessions[id].chunkSize <= sessions[id].totalSize)
              ==> r.value == ProgressOf(sessions[id])
    {
      if id !in sessions then None
      else if forall k :: 0 <= k < |sessions[id].chunksCompleted| ==>
                0 <= sessions[id].chunksCompleted[k] && (sessions[id].chunksCompleted[k] + 1) * sessions[id].chunkSize <= sessions[id].totalSize
      then
        ProgressAgreesOnFullChunks(sessions[id]);
        Some(ProgressAsWritten(sessions[id]))
      else Some(ProgressAsWritten(sessions[id]))
    }

    /** `setChecksum(id, checksum)` */
    method SetChecksum(id: string, checksum: string, now: int) returns (ok: bool)
      requires Valid()
      modifies this`sessions
      ensures Valid()
      ensures ok <==> id in old(sessions)
      ensures !ok ==> sessions == old(sessions)
      ensures ok ==> sessions == old(sessions)[id := old(sessions)[id].(checksum := checksum, updatedAt := now)]
    {
      if id !in sessions {
        return false;
      }
      sessions := sessions[id := sessions[id].(checksum := checksum, updatedAt := now)];
      return true;
    }

    /** `deleteSession(id)`: false when absent; otherwise the session leaves
        both the map and the active set. */
    method DeleteSession(id: string) returns (ok: bool)
      requires Valid()
      modifies this`sessions, this`activeTransfers
      ensures Valid()
      ensures ok <==> id in old(sessions)
      ensures !ok ==> sessions == old(sessions) && activeTransfers == old(activeTransfers)
      ensures ok ==> sessions == old(sessions) - {id} && activeTransfers == old(activeTransfers) - {id}
    {
      if id !in sessions {
        return false;
      }
      sessions := sessions - {id};
      activeTransfers := activeTransfers - {id};
      return true;
    }

    /** `canStartTransfer()` */
    function CanStartTransfer(): (b: bool)
      reads this
      ensures b <==> |activeTransfers| < maxConcurrentTransfers
    {
      |activeTransfers| < maxConcurrentTransfers
    }

    /** `startTransfer(id)`: refused at the concurrency limit; otherwise the
        id becomes active and a known session goes in progress. */
    method StartTransfer(id: string, now: int) returns (ok: bool)
      requires Valid()
      modifies this`activeTransfers, this`sessions
      ensures Valid()
      ensures ok <==> old(|activeTransfers|) < maxConcurrentTransfers
      ensures !ok ==> activeTransfers == old(activeTransfers) && sessions == old(sessions)
      ensures ok ==>
                activeTransfers == old(activeTransfers) + {id}
                && sessions == if id in old(sessions)
                               then old(sessions)[id := old(sessions)[id].(status := "in_progress", updatedAt := now)]
                               else old(sessions)
    {
      if !CanStartTransfer() {
        return false;
      }
      activeTransfers := activeTransfers + {id};
      var s := UpdateSessionStatus(id, "in_progress", now);
      return true;
    }

    /** `endTransfer(id)` */
    method EndTransfer(id: string)
      modifies this`activeTransfers
      ensures activeTransfers == old(activeTransfers) - {id}
    {
      activeTransfers := activeTransfers - {id};
    }

    /** `getActiveTransferCount()` */
    function ActiveTransferCount(): (n: nat)
      reads this
      ensures n == |activeTransfers|
    {
      |activeTransfers|
    }

    /** `clear()` (and `destroy()`) */
    method Clear()
      requires Valid()
      modifies this`sessions, this`activeTransfers
      ensures Valid() && sessions == map[] && activeTransfers == {}
    {
      sessions, activeTransfers := map[], {};
    }
  }
}
