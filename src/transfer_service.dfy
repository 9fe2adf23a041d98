/** The frontend's simulated file-transfer service
    (`frontend/services/FileTransferService.js`): an upload queue, a download
    queue and a history of finished tasks, with tasks started from the
    queue, advanced by a simulated speed, and paused, resumed or cancelled
    by id. The state is the value `Queues`; each operation of the service
    is a function on it, and the class's methods apply those functions to
    its fields. The clock and the random failure draw are inputs. */
module TransferService {
  import opened Wrappers
  import opened Seqs
  import opened Sorting

  datatype Kind = Upload | Download
  datatype Status = Queued | InProgress | Paused | Completed | Failed | Canceled
  datatype FileInfo = FileInfo(id: string, name: string, size: nat, fileType: string, path: string)

  /** A transfer task; `deviceId` is the target of an upload or the source
      of a download, `path` its target or save path. */
  datatype Task = Task(id: string, kind: Kind, file: FileInfo, deviceId: Option<string>, path: string,
                       status: Status, progress: int, transferredBytes: int, startTime: Option<int>,
                       endTime: Option<int>, duration: Option<int>, lastUpdated: int,
                       error: Option<string>, success: Option<bool>, retries: nat, maxRetries: nat)

  datatype Queues = Queues(uploads: seq<Task>, downloads: seq<Task>, history: seq<Task>)

  datatype Place = UploadQueue | DownloadQueue | History
  datatype Location = Location(place: Place, index: nat)

  const NETWORK_ERROR := "网络错误"

  /** The built-in file library. */
  const MOCK_FILES: seq<FileInfo> := [
    FileInfo("file-1", "document.pdf", 2500000, "application/pdf", "/documents/report.pdf"),
    FileInfo("file-2", "photo.jpg", 4500000, "image/jpeg", "/photos/vacation.jpg"),
    FileInfo("file-3", "video.mp4", 50000000, "video/mp4", "/videos/presentation.mp4"),
    FileInfo("file-4", "audio.mp3", 8000000, "audio/mpeg", "/audio/music.mp3"),
    FileInfo("file-5", "spreadsheet.xlsx", 1500000,
             "application/vnd.openxmlformats-officedocument.spreadsheetml.sheet", "/documents/data.xlsx"),
    FileInfo("file-6", "archive.zip", 20000000, "application/zip", "/archives/backup.zip"),
    FileInfo("file-7", "code.js", 50000, "text/javascript", "/code/script.js"),
    FileInfo("file-8", "presentation.pptx", 15000000,
             "application/vnd.openxmlformats-officedocument.presentationml.presentation", "/documents/presentation.pptx")
  ]

  predicate Cancellable(s: Status) { s == Queued || s == InProgress || s == Paused }
  predicate Finished(s: Status) { s == Completed || s == Failed || s == Canceled }

  /** Queued tasks are of their queue's kind and not finished; the history
      holds only finished tasks. */
  predicate ValidQueues(q: Queues)
  {
    (forall i :: 0 <= i < |q.uploads| ==> q.uploads[i].kind == Upload && Cancellable(q.uploads[i].status))
    && (forall i :: 0 <= i < |q.downloads| ==> q.downloads[i].kind == Download && Cancellable(q.downloads[i].status))
    && (forall i :: 0 <= i < |q.history| ==> Finished(q.history[i].status))
  }

  // ---- Lookup by id ----

  /** `s.findIndex(t => t.id === id)` */
  function FirstIndex(s: seq<Task>, id: string): (k: Option<nat>)
    ensures k.Some? ==> k.value < |s| && s[k.value].id == id && forall i :: 0 <= i < k.value ==> s[i].id != id
    ensures k.None? <==> forall i :: 0 <= i < |s| ==> s[i].id != id
  {
    if s == [] then None
    else if s[0].id == id then Some(0)
    else
      var k := FirstIndex(s[1..], id);
      if k.Some? then Some(k.value + 1) else None
  }

  function Seq(q: Queues, p: Place): seq<Task>
  {
    match p
    case UploadQueue => q.uploads
    case DownloadQueue => q.downloads
    case History => q.history
  }

  predicate At(q: Queues, loc: Location) { loc.index < |Seq(q, loc.place)| }

  function Get(q: Queues, loc: Location): Task
    requires At(q, loc)
  {
    Seq(q, loc.place)[loc.index]
  }

  function Set(q: Queues, loc: Location, t: Task): (r: Queues)
    requires At(q, loc)
    ensures At(r, loc) && Get(r, loc) == t
  {
    match loc.place
    case UploadQueue => q.(uploads := q.uploads[loc.index := t])
    case DownloadQueue => q.(downloads := q.downloads[loc.index := t])
    case History => q.(history := q.history[loc.index := t])
  }

  /** `findTransfer(id)`'s search: the upload queue, then the download
      queue, then the history, each from the front. */
  function Locate(q: Queues, id: string): (r: Option<Location>)
    ensures r.Some? ==> At(q, r.value) && Get(q, r.value).id == id
                        && FirstIndex(Seq(q, r.value.place), id) == Some(r.value.index)
    ensures r.None? <==> FirstIndex(q.uploads, id).None? && FirstIndex(q.downloads, id).None?
                         && FirstIndex(q.history, id).None?
    ensures r.Some? && r.value.place != UploadQueue ==> FirstIndex(q.uploads, id).None?
    ensures r.Some? && r.value.place == History ==> FirstIndex(q.downloads, id).None?
  {
    var u := FirstIndex(q.uploads, id);
    if u.Some? then Some(Location(UploadQueue, u.value))
    else
      var d := FirstIndex(q.downloads, id);
      if d.Some? then Some(Location(DownloadQueue, d.value))
      else
        var h := FirstIndex(q.history, id);
        if h.Some? then Some(Location(History, h.value)) else None
  }

  /** `findTransfer(id)` */
  function FindTransfer(q: Queues, id: string): (r: Option<Task>)
    ensures r.Some? <==> Locate(q, id).Some?
    ensures r.Some? ==> r.value == Get(q, Locate(q, id).value) && r.value.id == id
  {
    var loc := Locate(q, id);
    if loc.None? then None else Some(Get(q, loc.value))
  }

  /** Replacing the task found for `id` by one with the same id leaves it
      the one found. */
  lemma LocateAfterSet(q: Queues, id: string, t: Task)
    requires Locate(q, id).Some? && t.id == id
    ensures Locate(Set(q, Locate(q, id).value, t), id) == Locate(q, id)
  {
    var loc := Locate(q, id).value;
    var r := Set(q, loc, t);
    var s, s' := Seq(q, loc.place), Seq(r, loc.place);
    assert s' == s[loc.index := t];
    FirstIndexAfterSet(s, loc.index, id, t);
  }

  lemma FirstIndexAfterSet(s: seq<Task>, k: nat, id: string, t: Task)
    requires FirstIndex(s, id) == Some(k) && t.id == id
    ensures FirstIndex(s[k := t], id) == Some(k)
  {
    var s' := s[k := t];
    var r := FirstIndex(s', id);
    assert s'[k].id == id;
    assert r.Some? && r.value <= k;
  }

  // ---- The queue of a kind ----

  function QueueOf(q: Queues, k: Kind): seq<Task>
  {
    if k == Upload then q.uploads else q.downloads
  }

  function WithQueue(q: Queues, k: Kind, s: seq<Task>): (r: Queues)
    ensures QueueOf(r, k) == s && r.history == q.history
    ensures k == Upload ==> r.downloads == q.downloads
    ensures k == Download ==> r.uploads == q.uploads
  {
    if k == Upload then q.(uploads := s) else q.(downloads := s)
  }

  /** The test `t => t.id !== id`. */
  function OtherId(id: string): Task -> bool
  {
    (t: Task) => t.id != id
  }

  /** `queue = queue.filter(t => t.id !== id)` on the queue of kind `k`. */
  function RemoveId(q: Queues, k: Kind, id: string): (r: Queues)
    ensures forall i :: 0 <= i < |QueueOf(r, k)| ==> QueueOf(r, k)[i].id != id
  {
    WithQueue(q, k, Filter(QueueOf(q, k), OtherId(id)))
  }

  /** After replacing an element by `x` and dropping every element with
      `x`'s id, what is left was there before. */
  lemma FilterAfterUpdate(s: seq<Task>, k: nat, x: Task)
    requires k < |s|
    ensures var r := Filter(s[k := x], OtherId(x.id));
      forall i :: 0 <= i < |r| ==> r[i] in s
  {
    var r := Filter(s[k := x], OtherId(x.id));
    forall i | 0 <= i < |r| ensures r[i] in s {
      assert r[i] in s[k := x] && r[i] != x;
      var j :| 0 <= j < |s[k := x]| && s[k := x][j] == r[i];
      assert j != k;
    }
  }

  /** A task that finished while queued (its copy `done` is at `loc`):
      the copy goes to the history and the task leaves its kind's queue. */
  function Retire(q: Queues, loc: Location, done: Task): (r: Queues)
    requires At(q, loc)
    ensures r.history == Set(q, loc, done).history + [done]
    ensures loc.place != History ==> r.history == q.history + [done]
    ensures forall i :: 0 <= i < |QueueOf(r, done.kind)| ==> QueueOf(r, done.kind)[i].id != done.id
  {
    var q1 := RemoveId(Set(q, loc, done), done.kind, done.id);
    q1.(history := q1.history + [done])
  }

  /** Retiring a finished task from its own queue keeps the queues valid. */
  lemma RetireValid(q: Queues, loc: Location, done: Task)
    requires ValidQueues(q) && At(q, loc) && loc.place != History && Finished(done.status)
    requires done.kind == (if loc.place == UploadQueue then Upload else Download)
    ensures ValidQueues(Retire(q, loc, done))
  {
    var r := Retire(q, loc, done);
    if loc.place == UploadQueue {
      FilterAfterUpdate(q.uploads, loc.index, done);
      assert forall i :: 0 <= i < |r.uploads| ==> r.uploads[i] in q.uploads;
    } else {
      FilterAfterUpdate(q.downloads, loc.index, done);
      assert forall i :: 0 <= i < |r.downloads| ==> r.downloads[i] in q.downloads;
    }
  }

  // ---- Pause, resume and cancel by id ----

  /** `pauseTransfer(id)`: only a task in progress is paused. */
  function Pause(q: Queues, id: string): (r: (Queues, bool))
    ensures r.1 <==> FindTransfer(q, id).Some? && FindTransfer(q, id).value.status == InProgress
    ensures !r.1 ==> r.0 == q
    ensures r.1 ==> r.0 == Set(q, Locate(q, id).value, FindTransfer(q, id).value.(status := Paused))
  {
    var loc := Locate(q, id);
    if loc.None? || Get(q, loc.value).status != InProgress then (q, false)
    else (Set(q, loc.value, Get(q, loc.value).(status := Paused)), true)
  }

  /** `resumeTransfer(id)`: only a paused task resumes, its clock reset. */
  function Resume(q: Queues, id: string, now: int): (r: (Queues, bool))
    ensures r.1 <==> FindTransfer(q, id).Some? && FindTransfer(q, id).value.status == Paused
    ensures !r.1 ==> r.0 == q
    ensures r.1 ==> r.0 == Set(q, Locate(q, id).value,
                               FindTransfer(q, id).value.(status := InProgress, lastUpdated := now))
  {
    var loc := Locate(q, id);
    if loc.None? || Get(q, loc.value).status != Paused then (q, false)
    else (Set(q, loc.value, Get(q, loc.value).(status := InProgress, lastUpdated := now)), true)
  }

  /** Pausing and resuming a task in progress brings it back in progress,
      with only its clock changed. */
  lemma PauseThenResume(q: Queues, id: string, now: int)
    requires Pause(q, id).1
    ensures var loc := Locate(q, id).value;
      Resume(Pause(q, id).0, id, now) == (Set(q, loc, Get(q, loc).(lastUpdated := now)), true)
  {
    var loc := Locate(q, id).value;
    var t := Get(q, loc);
    LocateAfterSet(q, id, t.(status := Paused));
    var q1 := Set(q, loc, t.(status := Paused));
    assert Set(q1, loc, t.(lastUpdated := now)) == Set(q, loc, t.(lastUpdated := now));
  }

  /** Changing the status of a queued task found by id to one that is not
      finished keeps the queues valid. */
  lemma SetValid(q: Queues, id: string, st: Status)
    requires ValidQueues(q) && Cancellable(st)
    ensures var loc := Locate(q, id);
      loc.Some? && Cancellable(Get(q, loc.value).status) ==>
        loc.value.place != History
        && forall t: Task :: t.kind == Get(q, loc.value).kind && t.status == st ==> ValidQueues(Set(q, loc.value, t))
  {
    var loc := Locate(q, id);
    if loc.Some? && Cancellable(Get(q, loc.value).status) {
      assert loc.value.place != History;
      forall t: Task | t.kind == Get(q, loc.value).kind && t.status == st ensures ValidQueues(Set(q, loc.value, t)) {
        SetQueuedValid(q, loc.value, t);
      }
    }
  }

  /** Replacing a queued task by one of the same kind that is not finished
      keeps the queues valid. */
  lemma SetQueuedValid(q: Queues, loc: Location, t: Task)
    requires ValidQueues(q) && At(q, loc) && loc.place != History
    requires t.kind == Get(q, loc).kind && Cancellable(t.status)
    ensures ValidQueues(Set(q, loc, t))
  {
    var r := Set(q, loc, t);
    if loc.place == UploadQueue {
      assert r.downloads == q.downloads && r.history == q.history;
      forall j | 0 <= j < |r.uploads| ensures r.uploads[j].kind == Upload && Cancellable(r.uploads[j].status) {
        assert r.uploads[j] == if j == loc.index then t else q.uploads[j];
      }
    } else {
      assert r.uploads == q.uploads && r.history == q.history;
      forall j | 0 <= j < |r.downloads| ensures r.downloads[j].kind == Download && Cancellable(r.downloads[j].status) {
        assert r.downloads[j] == if j == loc.index then t else q.downloads[j];
      }
    }
  }

  /** The task a cancellation leaves behind. */
  function CanceledTask(t: Task, now: int): Task
  {
    t.(status := Canceled, endTime := Some(now), duration := Some(now - t.startTime.GetOr(now)), success := Some(false))
  }

  /** `cancelTransfer(id)`: only a queued, running or paused task; it is
      marked cancelled, leaves its queue, and a copy goes to the history. */
  function Cancel(q: Queues, id: string, now: int): (r: (Queues, bool))
    ensures r.1 <==> FindTransfer(q, id).Some? && Cancellable(FindTransfer(q, id).value.status)
    ensures !r.1 ==> r.0 == q
    ensures r.1 ==> var t := FindTransfer(q, id).value;
                    r.0 == Retire(q, Locate(q, id).value, CanceledTask(t, now))
                    && (Locate(q, id).value.place != History ==> r.0.history == q.history + [CanceledTask(t, now)])
                    && forall i :: 0 <= i < |QueueOf(r.0, t.kind)| ==> QueueOf(r.0, t.kind)[i].id != id
  {
    var loc := Locate(q, id);
    if loc.None? || !Cancellable(Get(q, loc.value).status) then (q, false)
    else (Retire(q, loc.value, CanceledTask(Get(q, loc.value), now)), true)
  }

  lemma {:induction false} CancelValid(q: Queues, id: string, now: int)
    requires ValidQueues(q)
    ensures ValidQueues(Cancel(q, id, now).0)
  {
    var loc := Locate(q, id);
    if loc.Some? && Cancellable(Get(q, loc.value).status) {
      RetireValid(q, loc.value, CanceledTask(Get(q, loc.value), now));
    }
  }

  /** `cancelAllTransfers()`: cancel every id, in order. */
  function CancelEach(q: Queues, ids: seq<string>, now: int): Queues
    decreases |ids|
  {
    if ids == [] then q else Cancel(CancelEach(q, ids[..|ids| - 1], now), ids[|ids| - 1], now).0
  }

  function Ids(s: seq<Task>): (r: seq<string>)
    ensures |r| == |s| && forall i :: 0 <= i < |s| ==> r[i] == s[i].id
  {
    seq(|s|, i requires 0 <= i < |s| => s[i].id)
  }

  predicate DistinctIds(s: seq<Task>)
  {
    forall i, j :: 0 <= i < j < |s| ==> s[i].id != s[j].id
  }

  /** Dropping the id of the head of a sequence of distinct ids leaves the tail. */
  lemma RemoveHead(s: seq<Task>, x: Task)
    requires s != [] && DistinctIds(s) && x.id == s[0].id
    ensures Filter(s[0 := x], OtherId(x.id)) == s[1..]
  {
    assert (s[0 := x])[1..] == s[1..];
    FilterAll(s[1..], OtherId(x.id));
  }

  /** One cancellation in `cancelAllTransfers` with distinct ids: the head
      of the first non-empty queue leaves it. */
  lemma CancelHead(q: Queues, now: int)
    requires ValidQueues(q) && DistinctIds(q.uploads + q.downloads)
    requires q.uploads != [] || q.downloads != []
    ensures var id := if q.uploads != [] then q.uploads[0].id else q.downloads[0].id;
      var r := Cancel(q, id, now).0;
      r.uploads == (if q.uploads != [] then q.uploads[1..] else [])
      && r.downloads == (if q.uploads != [] then q.downloads else q.downloads[1..])
  {
    DistinctSplit(q.uploads, q.downloads);
    if q.uploads != [] {
      CancelUploadHead(q, now);
    } else {
      CancelDownloadHead(q, now);
    }
  }

  /** Distinct ids in a concatenation are distinct in each part, and the
      first of the first part is not in the second. */
  lemma DistinctSplit(a: seq<Task>, b: seq<Task>)
    requires DistinctIds(a + b)
    ensures DistinctIds(a) && DistinctIds(b)
    ensures a != [] ==> forall j :: 0 <= j < |b| ==> b[j].id != a[0].id
  {
    var all := a + b;
    forall i, j | 0 <= i < j < |a| ensures a[i].id != a[j].id {
      assert all[i] == a[i] && all[j] == a[j];
    }
    forall i, j | 0 <= i < j < |b| ensures b[i].id != b[j].id {
      assert all[|a| + i] == b[i] && all[|a| + j] == b[j];
    }
    if a != [] {
      forall j | 0 <= j < |b| ensures b[j].id != a[0].id {
        assert all[0] == a[0] && all[|a| + j] == b[j];
      }
    }
  }

  lemma CancelUploadHead(q: Queues, now: int)
    requires ValidQueues(q) && q.uploads != [] && DistinctIds(q.uploads)
    requires forall j :: 0 <= j < |q.downloads| ==> q.downloads[j].id != q.uploads[0].id
    ensures var r := Cancel(q, q.uploads[0].id, now).0;
      r.uploads == q.uploads[1..] && r.downloads == q.downloads
  {
    var id := q.uploads[0].id;
    assert Locate(q, id) == Some(Location(UploadQueue, 0));
    RemoveHead(q.uploads, CanceledTask(q.uploads[0], now));
  }

  lemma CancelDownloadHead(q: Queues, now: int)
    requires ValidQueues(q) && q.uploads == [] && q.downloads != [] && DistinctIds(q.downloads)
    ensures var r := Cancel(q, q.downloads[0].id, now).0;
      r.uploads == [] && r.downloads == q.downloads[1..]
  {
    var id := q.downloads[0].id;
    assert Locate(q, id) == Some(Location(DownloadQueue, 0));
    RemoveHead(q.downloads, CanceledTask(q.downloads[0], now));
  }

  /** After cancelling the first queued task the queued tasks are the rest,
      still valid and with distinct ids. */
  lemma CancelHeadRest(q: Queues, now: int)
    requires ValidQueues(q) && DistinctIds(q.uploads + q.downloads) && q.uploads + q.downloads != []
    ensures var all := q.uploads + q.downloads;
      var r := Cancel(q, all[0].id, now).0;
      r.uploads + r.downloads == all[1..] && ValidQueues(r) && DistinctIds(r.uploads + r.downloads)
  {
    var all := q.uploads + q.downloads;
    var id := all[0].id;
    if q.uploads != [] {
      assert all[0] == q.uploads[0];
      assert all[1..] == q.uploads[1..] + q.downloads;
    } else {
      assert all == q.downloads;
    }
    CancelHead(q, now);
    CancelValid(q, id, now);
    DistinctTail(all);
  }

  lemma IdsCons(s: seq<Task>)
    requires s != []
    ensures Ids(s) == [s[0].id] + Ids(s[1..])
  {
  }

  /** Cancelling a first id, then the rest. */
  lemma {:induction false} CancelEachCons(q: Queues, a: string, rest: seq<string>, now: int)
    ensures CancelEach(q, [a] + rest, now) == CancelEach(Cancel(q, a, now).0, rest, now)
    decreases |rest|
  {
    if rest == [] {
      assert ([a] + rest)[..0] == [];
    } else {
      var init := rest[..|rest| - 1];
      CancelEachCons(q, a, init, now);
      assert ([a] + rest)[..|[a] + rest| - 1] == [a] + init;
    }
  }

  lemma DistinctTail(s: seq<Task>)
    requires s != [] && DistinctIds(s)
    ensures DistinctIds(s[1..])
  {
    forall a, b | 0 <= a < b < |s[1..]| ensures s[1..][a].id != s[1..][b].id {
      assert s[1..][a] == s[a + 1] && s[1..][b] == s[b + 1];
    }
  }

  /** `cancelAllTransfers()` empties both queues when the queued ids are
      distinct: each cancellation removes the head of the remaining tasks. */
  lemma {:induction false} CancelAllEmpties(q: Queues, now: int)
    requires ValidQueues(q) && DistinctIds(q.uploads + q.downloads)
    ensures var r := CancelEach(q, Ids(q.uploads + q.downloads), now);
      r.uploads == [] && r.downloads == []
    decreases |q.uploads| + |q.downloads|
  {
    var all := q.uploads + q.downloads;
    if all == [] {
      assert Ids(all) == [];
    } else {
      var id := all[0].id;
      CancelHeadRest(q, now);
      var q' := Cancel(q, id, now).0;
      CancelAllEmpties(q', now);
      IdsCons(all);
      CancelEachCons(q, id, Ids(all[1..]), now);
    }
  }

  // ---- Starting queued tasks ----

  function Start(t: Task, now: int): Task
  {
    t.(status := InProgress, startTime := Some(now), lastUpdated := now)
  }

  function IsInProgress(t: Task): bool { t.status == InProgress }
  function IsQueued(t: Task): bool { t.status == Queued }

  /** What `processTransferQueue`'s start loop does to a queue: the count
      of running tasks is taken once and never updated, so while it is
      below `max` every queued task starts. */
  function StartQueued(s: seq<Task>, max: int, now: int): (r: seq<Task>)
    ensures |r| == |s|
  {
    if Count(s, IsInProgress) < max then StartAll(s, now) else s
  }

  /** Every queued task of `s` started. */
  function StartAll(s: seq<Task>, now: int): (r: seq<Task>)
    ensures |r| == |s|
    ensures forall i :: 0 <= i < |s| ==> r[i] == if s[i].status == Queued then Start(s[i], now) else s[i]
  {
    seq(|s|, i requires 0 <= i < |s| => if s[i].status == Queued then Start(s[i], now) else s[i])
  }

  /** The indices from `k` on of the queued tasks, in order. */
  function QueuedFrom(s: seq<Task>, k: nat): (r: seq<nat>)
    requires k <= |s|
    ensures forall j :: 0 <= j < |r| ==> k <= r[j] < |s|
    decreases |s| - k
  {
    if k == |s| then [] else (if s[k].status == Queued then [k] else []) + QueuedFrom(s, k + 1)
  }

  /** They are exactly the queued ones. */
  lemma {:induction false} QueuedFromSpec(s: seq<Task>, k: nat)
    requires k <= |s|
    ensures forall i :: k <= i < |s| ==> (i in QueuedFrom(s, k) <==> s[i].status == Queued)
    decreases |s| - k
  {
    if k < |s| {
      QueuedFromSpec(s, k + 1);
      var head: seq<nat> := if s[k].status == Queued then [k] else [];
      var rest := QueuedFrom(s, k + 1);
      assert QueuedFrom(s, k) == head + rest;
      assert k !in rest;
      forall i | k <= i < |s| ensures i in QueuedFrom(s, k) <==> s[i].status == Queued {
        assert i in head + rest <==> i in head || i in rest;
      }
    }
  }

  /** `queue.filter(t => t.status === QUEUED)`, as indices into the queue. */
  function QueuedIndices(s: seq<Task>): seq<nat> { QueuedFrom(s, 0) }

  /** The queue with the tasks at the indices `idx` started. */
  function Started(s: seq<Task>, idx: seq<nat>, now: int): (r: seq<Task>)
    ensures |r| == |s|
  {
    seq(|s|, i requires 0 <= i < |s| => if i in idx then Start(s[i], now) else s[i])
  }

  lemma StartedNone(s: seq<Task>, now: int)
    ensures Started(s, [], now) == s
  {
  }

  lemma StartedSnoc(s: seq<Task>, idx: seq<nat>, x: nat, now: int)
    requires x < |s|
    ensures Started(s, idx + [x], now) == Started(s, idx, now)[x := Start(s[x], now)]
  {
    assert forall i :: i in idx + [x] <==> i in idx || i == x;
  }

  /** The queue once the first `n` of the indices `all` are started, one
      at a time. */
  function StartedUpTo(s: seq<Task>, all: seq<nat>, n: nat, now: int): (r: seq<Task>)
    requires n <= |all| && forall j :: 0 <= j < |all| ==> all[j] < |s|
    ensures |r| == |s|
  {
    if n == 0 then s else StartedUpTo(s, all, n - 1, now)[all[n - 1] := Start(s[all[n - 1]], now)]
  }

  /** Starting the queued tasks one at a time starts those at the first
      `n` queued indices. */
  lemma {:induction false} StartedUpToIs(s: seq<Task>, n: nat, now: int)
    requires n <= |QueuedIndices(s)|
    ensures StartedUpTo(s, QueuedIndices(s), n, now) == Started(s, QueuedIndices(s)[..n], now)
  {
    var all := QueuedIndices(s);
    if n == 0 {
      assert all[..0] == [];
      StartedNone(s, now);
    } else {
      StartedUpToIs(s, n - 1, now);
      assert all[..n] == all[..n - 1] + [all[n - 1]];
      StartedSnoc(s, all[..n - 1], all[n - 1], now);
    }
  }

  /** The start loop: the running count is computed once and the queued
      tasks are started one by one while it is below the maximum; taking
      the next one off the front of the filtered list is an index that
      moves forward. */
  method StartQueuedLoop(s: seq<Task>, max: int, now: int) returns (r: seq<Task>)
    ensures r == StartQueued(s, max, now)
  {
    var activeTransfers := Count(s, IsInProgress);
    var queued := QueuedIndices(s);
    var n := 0;
    r := s;
    while activeTransfers < max && n < |queued|
      invariant n <= |queued|
      invariant r == StartedUpTo(s, queued, n, now)
      invariant n > 0 ==> activeTransfers < max
    {
      var next := queued[n];
      r := r[next := Start(s[next], now)];
      n := n + 1;
    }
    StartLoopEnd(s, n, max, now);
  }

  /** Where the start loop stops: with room, once every queued task is
      started; without, at once. */
  lemma StartLoopEnd(s: seq<Task>, n: nat, max: int, now: int)
    requires n <= |QueuedIndices(s)|
    requires Count(s, IsInProgress) < max ==> n == |QueuedIndices(s)|
    requires Count(s, IsInProgress) >= max ==> n == 0
    ensures StartedUpTo(s, QueuedIndices(s), n, now) == StartQueued(s, max, now)
  {
    if Count(s, IsInProgress) < max {
      StartedUpToIs(s, n, now);
      assert QueuedIndices(s)[..n] == QueuedIndices(s);
      StartedAll(s, max, now);
    }
  }

  /** Starting exactly the queued tasks is `StartQueued`. */
  lemma StartedAll(s: seq<Task>, max: int, now: int)
    requires Count(s, IsInProgress) < max
    ensures Started(s, QueuedIndices(s), now) == StartQueued(s, max, now)
  {
    QueuedFromSpec(s, 0);
  }

  /** Starting tasks keeps the queues valid. */
  lemma StartQueuedValid(q: Queues, k: Kind, max: int, now: int)
    requires ValidQueues(q)
    ensures ValidQueues(WithQueue(q, k, StartQueued(QueueOf(q, k), max, now)))
  {
    var s := QueueOf(q, k);
    var r := StartQueued(s, max, now);
    assert forall i :: 0 <= i < |r| ==> r[i].kind == s[i].kind && Cancellable(r[i].status);
  }

  lemma {:induction false} CountNone<T>(s: seq<T>, f: T -> bool)
    requires forall i :: 0 <= i < |s| ==> !f(s[i])
    ensures Count(s, f) == 0
    decreases |s|
  {
    if s != [] {
      CountNone(s[1..], f);
    }
  }

  /** With fewer than `max` running, every queued task is running after
      the pass, however many there are: the pass can exceed `max`. */
  lemma {:induction false} StartQueuedCount(s: seq<Task>, max: int, now: int)
    requires Count(s, IsInProgress) < max
    ensures Count(StartQueued(s, max, now), IsInProgress) == Count(s, IsInProgress) + Count(s, IsQueued)
  {
    StartAllCount(s, now);
  }

  lemma {:induction false} StartAllCount(s: seq<Task>, now: int)
    ensures Count(StartAll(s, now), IsInProgress) == Count(s, IsInProgress) + Count(s, IsQueued)
    decreases |s|
  {
    if s != [] {
      StartAllCount(s[1..], now);
      StartAllTail(s, now);
    }
  }

  lemma StartAllTail(s: seq<Task>, now: int)
    requires s != []
    ensures StartAll(s, now)[1..] == StartAll(s[1..], now)
  {
  }

  /** An example: three slots, five queued tasks and none running, and all
      five run after one pass. */
  lemma FiveQueuedAllStart(t: Task, now: int)
    requires t.status == Queued
    ensures Count(StartQueued([t, t, t, t, t], 3, now), IsInProgress) == 5
  {
    var s := [t, t, t, t, t];
    CountNone(s, IsInProgress);
    FilterAll(s, IsQueued);
    StartQueuedCount(s, 3, now);
  }

  // ---- Progress ----

  /** `Math.floor((speed / 1000) * (elapsed / 1000))` on exact numbers. */
  function BytesFor(speed: int, elapsed: int): int
  {
    (speed * elapsed) / 1000000
  }

  /** `updateTransferProgress(transfer)` on one running task, `fail` being
      the random failure draw: bytes advance at the simulated speed;
      reaching the size completes the task at exactly the size and 100
      percent; otherwise the progress is the floored percentage, and the
      failure draw fails the task. */
  function Advance(t: Task, speed: int, now: int, fail: bool): (r: Task)
    ensures var bytes := t.transferredBytes + BytesFor(speed, now - t.lastUpdated);
      r.id == t.id && r.kind == t.kind && r.lastUpdated == now
      && r.status == (if bytes >= t.file.size then Completed else if fail then Failed else t.status)
      && r.transferredBytes == (if bytes >= t.file.size then t.file.size else bytes)
      && (bytes >= t.file.size ==> r.progress == 100 && r.success == Some(true))
      && (bytes < t.file.size && t.file.size > 0 ==> r.progress * t.file.size <= bytes * 100 < (r.progress + 1) * t.file.size)
      && (bytes < t.file.size && fail ==> r.error == Some(NETWORK_ERROR) && r.success == Some(false))
  {
    var bytes := t.transferredBytes + BytesFor(speed, now - t.lastUpdated);
    if bytes >= t.file.size then
      t.(transferredBytes := t.file.size, lastUpdated := now, status := Completed,
         endTime := Some(now), duration := Some(now - t.startTime.GetOr(0)),
         progress := 100, success := Some(true))
    else
      var t1 := t.(transferredBytes := bytes, lastUpdated := now,
                   progress := if t.file.size == 0 then 0 else (bytes * 100) / t.file.size);
      if fail then
        t1.(status := Failed, endTime := Some(now), duration := Some(now - t.startTime.GetOr(0)),
            error := Some(NETWORK_ERROR), success := Some(false))
      else t1
  }

  /** `transfer.status === IN_PROGRESS ? updateTransferProgress(transfer)`:
      a running task advances, any other stays as it is. */
  function Advanced(t: Task, speed: int, now: int, fail: bool): (r: Task)
    ensures t.status == InProgress ==> r == Advance(t, speed, now, fail)
    ensures t.status != InProgress ==> r == t
    ensures r.id == t.id && r.kind == t.kind
    ensures Cancellable(t.status) ==> Cancellable(r.status) || r.status == Completed || r.status == Failed
  {
    if t.status == InProgress then Advance(t, speed, now, fail) else t
  }

  /** The loop body's effect on one task at a given speed and clock
      reading, the flag being the random failure draw. */
  function Advancer(speed: int, now: int): (Task, bool) -> Task
  {
    (t: Task, fail: bool) => Advanced(t, speed, now, fail)
  }

  /** What the pass relies on about the effect on one task: it keeps the
      id and kind, and leaves a task that is not running as it is. */
  ghost predicate AdvancerOk(adv: (Task, bool) -> Task)
  {
    forall t: Task, fail: bool {:trigger adv(t, fail)} ::
      adv(t, fail).id == t.id && adv(t, fail).kind == t.kind
      && (t.status != InProgress ==> adv(t, fail) == t)
  }

  lemma AdvancerIsOk(speed: int, now: int)
    ensures AdvancerOk(Advancer(speed, now))
  {
  }

  /** The progress phase of `processTransferQueue`, part way through
      `queue.forEach`: `tasks` are the task objects of the array the loop
      walks (captured before it starts), `retired` the ids removed from
      the live queue by `completeTransfer`/`failTransfer`, and `history`
      the history so far. The live queue holds the same objects, so it is
      the captured tasks whose id has not been retired. */
  datatype Pass = Pass(tasks: seq<Task>, retired: set<string>, history: seq<Task>)

  function NotRetired(ids: set<string>): Task -> bool
  {
    (t: Task) => t.id !in ids
  }

  /** The task was running and finishes when it advances. */
  predicate Finishes(t: Task, adv: (Task, bool) -> Task, fail: bool)
  {
    t.status == InProgress && Finished(adv(t, fail).status)
  }

  /** The loop body at position `j`; `fail` is the random failure draw. A
      task that finishes is retired by id and its copy pushed to the
      history. */
  function PassStep(p: Pass, j: nat, adv: (Task, bool) -> Task, fail: bool): (r: Pass)
    requires j < |p.tasks|
    ensures r.tasks == p.tasks[j := adv(p.tasks[j], fail)]
    ensures Finishes(p.tasks[j], adv, fail) ==>
              r.retired == p.retired + {adv(p.tasks[j], fail).id} && r.history == p.history + [adv(p.tasks[j], fail)]
    ensures !Finishes(p.tasks[j], adv, fail) ==> r.retired == p.retired && r.history == p.history
  {
    var t := adv(p.tasks[j], fail);
    if Finishes(p.tasks[j], adv, fail)
    then Pass(p.tasks[j := t], p.retired + {t.id}, p.history + [t])
    else Pass(p.tasks[j := t], p.retired, p.history)
  }

  /** The first `n` iterations, `failing` being the positions whose draw
      fails. */
  function PassUpTo(p: Pass, n: nat, adv: (Task, bool) -> Task, failing: set<nat>): (r: Pass)
    requires n <= |p.tasks|
    ensures |r.tasks| == |p.tasks|
    decreases n
  {
    if n == 0 then p
    else PassStep(PassUpTo(p, n - 1, adv, failing), n - 1, adv, n - 1 in failing)
  }

  /** The queues once the pass has reached `p`. */
  function Outcome(q: Queues, k: Kind, p: Pass): Queues
  {
    WithQueue(q.(history := p.history), k, Filter(p.tasks, NotRetired(p.retired)))
  }

  /** The whole progress phase on the queue of kind `k`, with advancing
      function `adv`. */
  function PassAll(q: Queues, k: Kind, adv: (Task, bool) -> Task, failing: set<nat>): Queues
  {
    Outcome(q, k, PassUpTo(Pass(QueueOf(q, k), {}, q.history), |QueueOf(q, k)|, adv, failing))
  }

  /** The progress phase at the service's speed and clock reading. */
  function AfterPass(q: Queues, k: Kind, speed: int, now: int, failing: set<nat>): Queues
  {
    PassAll(q, k, Advancer(speed, now), failing)
  }

  /** `processTransferQueue(queue)`: the start phase, then the progress
      phase. */
  function ProcessQueue(q: Queues, k: Kind, max: int, speed: int, now: int, failing: set<nat>): Queues
  {
    AfterPass(WithQueue(q, k, StartQueued(QueueOf(q, k), max, now)), k, speed, now, failing)
  }

  /** The pass invariant: tasks of the queue's kind, a finished one
      retired and any other still cancellable; a history of finished
      tasks. */
  predicate PassOk(p: Pass, k: Kind)
  {
    (forall i :: 0 <= i < |p.tasks| ==>
       p.tasks[i].kind == k
       && (Finished(p.tasks[i].status) ==> p.tasks[i].id in p.retired)
       && (!Finished(p.tasks[i].status) ==> Cancellable(p.tasks[i].status)))
    && forall i :: 0 <= i < |p.history| ==> Finished(p.history[i].status)
  }

  lemma PassStepOk(p: Pass, k: Kind, j: nat, adv: (Task, bool) -> Task, fail: bool)
    requires j < |p.tasks| && PassOk(p, k) && AdvancerOk(adv)
    ensures PassOk(PassStep(p, j, adv, fail), k)
  {
    var r := PassStep(p, j, adv, fail);
    var t := adv(p.tasks[j], fail);
    assert t.id == p.tasks[j].id && t.kind == k;
    forall i | 0 <= i < |r.tasks|
      ensures r.tasks[i].kind == k && (Finished(r.tasks[i].status) ==> r.tasks[i].id in r.retired)
              && (!Finished(r.tasks[i].status) ==> Cancellable(r.tasks[i].status))
    {
      if i == j {
        assert r.tasks[i] == t;
        if !Finished(p.tasks[j].status) {
          assert Cancellable(p.tasks[j].status);
        }
      }
    }
  }

  /** A pass that keeps its invariant leaves the queues valid. */
  lemma OutcomeValid(q: Queues, k: Kind, p: Pass)
    requires ValidQueues(q) && PassOk(p, k)
    ensures ValidQueues(Outcome(q, k, p))
  {
    var live := Filter(p.tasks, NotRetired(p.retired));
    forall i | 0 <= i < |live| ensures live[i].kind == k && Cancellable(live[i].status) {
      assert live[i] in p.tasks && NotRetired(p.retired)(live[i]);
    }
  }

  /** The loop body as written is the step at position `j`. */
  lemma StepIsPassStep(p: Pass, j: nat, speed: int, now: int, fail: bool, r: Pass)
    requires j < |p.tasks|
    requires p.tasks[j].status != InProgress ==> r == p
    requires p.tasks[j].status == InProgress ==>
      var t := Advance(p.tasks[j], speed, now, fail);
      r == if Finished(t.status) then Pass(p.tasks[j := t], p.retired + {t.id}, p.history + [t])
           else Pass(p.tasks[j := t], p.retired, p.history)
    ensures r == PassStep(p, j, Advancer(speed, now), fail)
  {
    if p.tasks[j].status != InProgress {
      assert p.tasks[j := p.tasks[j]] == p.tasks;
    }
  }

  /** Before the first iteration the queues are as they were. */
  lemma OutcomeAtStart(q: Queues, k: Kind)
    ensures Outcome(q, k, Pass(QueueOf(q, k), {}, q.history)) == q
  {
    FilterAll(QueueOf(q, k), NotRetired({}));
  }

  lemma StartOk(q: Queues, k: Kind)
    requires ValidQueues(q)
    ensures PassOk(Pass(QueueOf(q, k), {}, q.history), k)
  {
  }

  lemma {:induction false} PassUpToOk(p: Pass, k: Kind, n: nat, adv: (Task, bool) -> Task, failing: set<nat>)
    requires n <= |p.tasks| && PassOk(p, k) && AdvancerOk(adv)
    ensures PassOk(PassUpTo(p, n, adv, failing), k)
    decreases n
  {
    if n > 0 {
      PassUpToOk(p, k, n - 1, adv, failing);
      PassStepOk(PassUpTo(p, n - 1, adv, failing), k, n - 1, adv, n - 1 in failing);
    }
  }

  /** The progress phase keeps the queues valid. */
  lemma AfterPassValid(q: Queues, k: Kind, speed: int, now: int, failing: set<nat>)
    requires ValidQueues(q)
    ensures ValidQueues(AfterPass(q, k, speed, now, failing))
  {
    var p0 := Pass(QueueOf(q, k), {}, q.history);
    StartOk(q, k);
    AdvancerIsOk(speed, now);
    PassUpToOk(p0, k, |p0.tasks|, Advancer(speed, now), failing);
    OutcomeValid(q, k, PassUpTo(p0, |p0.tasks|, Advancer(speed, now), failing));
  }

  /** `forEach` visits every position once: after `n` iterations the task
      at each earlier position has advanced exactly once, and the later
      ones are untouched. */
  lemma {:induction false} PassTasks(p: Pass, n: nat, adv: (Task, bool) -> Task, failing: set<nat>)
    requires n <= |p.tasks|
    ensures forall i :: 0 <= i < |p.tasks| ==>
              PassUpTo(p, n, adv, failing).tasks[i] == if i < n then adv(p.tasks[i], i in failing) else p.tasks[i]
    decreases n
  {
    if n > 0 {
      PassTasks(p, n - 1, adv, failing);
    }
  }

  /** The history only grows. */
  lemma {:induction false} PassHistory(p: Pass, n: nat, adv: (Task, bool) -> Task, failing: set<nat>)
    requires n <= |p.tasks|
    ensures var r := PassUpTo(p, n, adv, failing);
      |r.history| >= |p.history| && r.history[..|p.history|] == p.history
    decreases n
  {
    if n > 0 {
      var prev := PassUpTo(p, n - 1, adv, failing);
      PassHistory(p, n - 1, adv, failing);
      var r := PassUpTo(p, n, adv, failing);
      assert r.history[..|prev.history|] == prev.history;
      assert r.history[..|p.history|] == prev.history[..|p.history|];
    }
  }

  /** A visited position whose task finishes has its id retired and its
      copy in the history. */
  lemma {:induction false} PassRetired(p: Pass, n: nat, adv: (Task, bool) -> Task, failing: set<nat>)
    requires n <= |p.tasks| && AdvancerOk(adv)
    ensures var r := PassUpTo(p, n, adv, failing);
      forall i :: 0 <= i < n && Finishes(p.tasks[i], adv, i in failing) ==>
        p.tasks[i].id in r.retired && adv(p.tasks[i], i in failing) in r.history
    decreases n
  {
    if n > 0 {
      var prev := PassUpTo(p, n - 1, adv, failing);
      var r := PassUpTo(p, n, adv, failing);
      PassRetired(p, n - 1, adv, failing);
      PassTasks(p, n - 1, adv, failing);
      assert prev.tasks[n - 1] == p.tasks[n - 1];
      assert prev.retired <= r.retired && forall x :: x in prev.history ==> x in r.history;
    }
  }

  /** Every id retired by the pass is that of a visited position whose
      task finishes. */
  lemma {:induction false} PassRetiredOnly(p: Pass, n: nat, adv: (Task, bool) -> Task, failing: set<nat>)
    requires n <= |p.tasks| && AdvancerOk(adv)
    ensures var r := PassUpTo(p, n, adv, failing);
      forall id :: id in r.retired ==>
        id in p.retired || exists i :: 0 <= i < n && p.tasks[i].id == id && Finishes(p.tasks[i], adv, i in failing)
    decreases n
  {
    if n > 0 {
      var prev := PassUpTo(p, n - 1, adv, failing);
      var r := PassUpTo(p, n, adv, failing);
      PassRetiredOnly(p, n - 1, adv, failing);
      PassTasks(p, n - 1, adv, failing);
      assert prev.tasks[n - 1] == p.tasks[n - 1];
      forall id | id in r.retired && id !in prev.retired
        ensures exists i :: 0 <= i < n && p.tasks[i].id == id && Finishes(p.tasks[i], adv, i in failing)
      {
        assert p.tasks[n - 1].id == id && Finishes(p.tasks[n - 1], adv, n - 1 in failing);
      }
    }
  }

  /** After the progress phase the live queue holds only advanced tasks of
      the captured queue, the history has only grown, and the other queue
      is untouched. */
  lemma PassAllLive(q: Queues, k: Kind, adv: (Task, bool) -> Task, failing: set<nat>)
    requires AdvancerOk(adv)
    ensures var s, r := QueueOf(q, k), PassAll(q, k, adv, failing);
      |r.history| >= |q.history| && r.history[..|q.history|] == q.history
      && (forall i :: 0 <= i < |QueueOf(r, k)| ==> exists j :: 0 <= j < |s| && QueueOf(r, k)[i] == adv(s[j], j in failing))
      && (k == Upload ==> r.downloads == q.downloads) && (k == Download ==> r.uploads == q.uploads)
  {
    var s := QueueOf(q, k);
    var p0 := Pass(s, {}, q.history);
    var p := PassUpTo(p0, |s|, adv, failing);
    PassTasks(p0, |s|, adv, failing);
    PassHistory(p0, |s|, adv, failing);
    LiveAdvanced(s, p.tasks, NotRetired(p.retired), adv, failing);
  }

  lemma LiveAdvanced(s: seq<Task>, tasks: seq<Task>, keep: Task -> bool, adv: (Task, bool) -> Task, failing: set<nat>)
    requires |tasks| == |s| && forall i :: 0 <= i < |s| ==> tasks[i] == adv(s[i], i in failing)
    ensures var live := Filter(tasks, keep);
      forall i :: 0 <= i < |live| ==> exists j :: 0 <= j < |s| && live[i] == adv(s[j], j in failing)
  {
    var live := Filter(tasks, keep);
    forall i | 0 <= i < |live| ensures exists j :: 0 <= j < |s| && live[i] == adv(s[j], j in failing) {
      assert live[i] in tasks;
      var j :| 0 <= j < |tasks| && tasks[j] == live[i];
    }
  }

  /** A running task that finishes in the progress phase is gone from the
      live queue, together with every task sharing its id, and its copy
      is in the history. */
  lemma PassAllRetires(q: Queues, k: Kind, adv: (Task, bool) -> Task, failing: set<nat>, j: nat)
    requires AdvancerOk(adv) && j < |QueueOf(q, k)| && Finishes(QueueOf(q, k)[j], adv, j in failing)
    ensures var s, r := QueueOf(q, k), PassAll(q, k, adv, failing);
      adv(s[j], j in failing) in r.history && forall i :: 0 <= i < |QueueOf(r, k)| ==> QueueOf(r, k)[i].id != s[j].id
  {
    var s := QueueOf(q, k);
    var p0 := Pass(s, {}, q.history);
    var p := PassUpTo(p0, |s|, adv, failing);
    PassRetired(p0, |s|, adv, failing);
    var live := Filter(p.tasks, NotRetired(p.retired));
    forall i | 0 <= i < |live| ensures live[i].id != s[j].id {
      assert NotRetired(p.retired)(live[i]);
    }
  }

  /** A running task whose bytes reach its size is completed at exactly
      its size and 100 percent. */
  lemma AdvanceCompletes(t: Task, speed: int, now: int, fail: bool)
    requires t.status == InProgress && t.transferredBytes + BytesFor(speed, now - t.lastUpdated) >= t.file.size
    ensures var r := Advancer(speed, now)(t, fail);
      r.status == Completed && r.progress == 100 && r.transferredBytes == r.file.size && r.success == Some(true)
      && Finishes(t, Advancer(speed, now), fail)
  {
  }

  // ---- Pausing and resuming everything ----

  function PauseAllIn(s: seq<Task>): (r: seq<Task>)
    ensures |r| == |s|
    ensures forall i :: 0 <= i < |s| ==> r[i] == if s[i].status == InProgress then s[i].(status := Paused) else s[i]
  {
    seq(|s|, i requires 0 <= i < |s| => if s[i].status == InProgress then s[i].(status := Paused) else s[i])
  }

  function ResumeAllIn(s: seq<Task>, now: int): (r: seq<Task>)
    ensures |r| == |s|
    ensures forall i :: 0 <= i < |s| ==>
              r[i] == if s[i].status == Paused then s[i].(status := InProgress, lastUpdated := now) else s[i]
  {
    seq(|s|, i requires 0 <= i < |s| =>
      if s[i].status == Paused then s[i].(status := InProgress, lastUpdated := now) else s[i])
  }

  /** After pausing and resuming everything, every task that was running
      or paused is running; the others are untouched. */
  lemma PauseAllResumeAll(s: seq<Task>, now: int)
    ensures var r := ResumeAllIn(PauseAllIn(s), now);
      forall i :: 0 <= i < |s| ==>
        if s[i].status == InProgress || s[i].status == Paused
        then r[i] == s[i].(status := InProgress, lastUpdated := now)
        else r[i] == s[i]
  {
  }

  /** Truthiness of an optional string: absent and "" are false. */
  function Truthy(o: Option<string>): Option<string>
  {
    if o.Some? && o.value != "" then o else None
  }

  function OrElse(o: Option<string>, d: string): string
  {
    if o.Some? && o.value != "" then o.value else d
  }

  /** A new task: queued, 0 bytes, 0 percent, not started. */
  function NewTask(id: string, kind: Kind, file: FileInfo, deviceId: Option<string>, path: Option<string>,
                   maxRetries: Option<nat>, now: int): (t: Task)
    ensures t.status == Queued && t.progress == 0 && t.transferredBytes == 0 && t.startTime == None
    ensures t.kind == kind && t.id == id && t.file == file
    ensures t.path == OrElse(path, (if kind == Upload then "/uploads/" else "/downloads/") + file.name)
    ensures t.maxRetries == (if maxRetries.Some? && maxRetries.value != 0 then maxRetries.value else 3)
  {
    Task(id, kind, file, Truthy(deviceId), OrElse(path, (if kind == Upload then "/uploads/" else "/downloads/") + file.name),
         Queued, 0, 0, None, None, None, now, None, None, 0,
         if maxRetries.Some? && maxRetries.value != 0 then maxRetries.value else 3)
  }

  /** What `downloadFile` is given: a file id to look up in the library,
      or a file. */
  datatype FileRef = ById(fileId: string) | Given(file: FileInfo)

  function IdIs(id: string): FileInfo -> bool { (f: FileInfo) => f.id == id }

  class FileTransferService {
    var uploadQueue: seq<Task>
    var downloadQueue: seq<Task>
    var transferHistory: seq<Task>
    var mockFiles: seq<FileInfo>
    var isPaused: bool
    /** Whether the 200 ms processing interval is set */
    var processing: bool
    var simulatedSpeed: int
    var maxConcurrentTransfers: int

    function State(): Queues
      reads this
    {
      Queues(uploadQueue, downloadQueue, transferHistory)
    }

    ghost predicate Valid()
      reads this
    {
      ValidQueues(State())
    }

    constructor ()
      ensures Valid() && State() == Queues([], [], []) && mockFiles == MOCK_FILES
      ensures !isPaused && !processing && simulatedSpeed == 5 * 1024 * 1024 && maxConcurrentTransfers == 3
    {
      uploadQueue, downloadQueue, transferHistory := [], [], [];
      mockFiles := MOCK_FILES;
      isPaused, processing := false, false;
      simulatedSpeed, maxConcurrentTransfers := 5 * 1024 * 1024, 3;
    }

    method SetState(q: Queues)
      modifies this`uploadQueue, this`downloadQueue, this`transferHistory
      ensures State() == q
    {
      uploadQueue, downloadQueue, transferHistory := q.uploads, q.downloads, q.history;
    }

    /** `startProcessingQueue()` */
    method StartProcessingQueue()
      modifies this`processing
      ensures processing
    {
      processing := true;
    }

    /** `stopProcessingQueue()` */
    method StopProcessingQueue()
      modifies this`processing
      ensures !processing
    {
      processing := false;
    }

    /** One tick of the interval: nothing while paused, otherwise both
        queues are processed, uploads first. `failUploads` and
        `failDownloads` are the positions whose random draw fails. */
    method Tick(now: int, failUploads: set<nat>, failDownloads: set<nat>)
      requires Valid()
      modifies this`uploadQueue, this`downloadQueue, this`transferHistory
      ensures Valid()
      ensures isPaused ==> State() == old(State())
      ensures !isPaused ==> State() == ProcessQueue(ProcessQueue(old(State()), Upload, maxConcurrentTransfers, simulatedSpeed, now, failUploads),
                                                    Download, maxConcurrentTransfers, simulatedSpeed, now, failDownloads)
    {
      if isPaused {
        return;
      }
      ProcessTransfers(now, failUploads, failDownloads);
    }

    /** `processTransfers()`: the upload queue, then the download queue. */
    method ProcessTransfers(now: int, failUploads: set<nat>, failDownloads: set<nat>)
      requires Valid()
      modifies this`uploadQueue, this`downloadQueue, this`transferHistory
      ensures Valid()
      ensures State() == ProcessQueue(ProcessQueue(old(State()), Upload, maxConcurrentTransfers, simulatedSpeed, now, failUploads),
                                      Download, maxConcurrentTransfers, simulatedSpeed, now, failDownloads)
    {
      ProcessTransferQueue(Upload, now, failUploads);
      ProcessTransferQueue(Download, now, failDownloads);
    }

    /** `processTransferQueue(queue)`: the queued tasks are started (all of
        them or none, the running count being taken once), then every
        running task of the queue advances. */
    method ProcessTransferQueue(k: Kind, now: int, failing: set<nat>)
      requires Valid()
      modifies this`uploadQueue, this`downloadQueue, this`transferHistory
      ensures Valid()
      ensures State() == ProcessQueue(old(State()), k, maxConcurrentTransfers, simulatedSpeed, now, failing)
    {
      ghost var q0 := State();
      StartQueuedValid(q0, k, maxConcurrentTransfers, now);
      var s := StartQueuedLoop(QueueOf(State(), k), maxConcurrentTransfers, now);
      SetState(WithQueue(State(), k, s));
      assert ProcessQueue(q0, k, maxConcurrentTransfers, simulatedSpeed, now, failing)
          == AfterPass(State(), k, simulatedSpeed, now, failing);
      ProgressPass(k, now, failing);
    }

    /** `queue.forEach(...)` over the array captured at the start: each
        position is visited once; a running task advances, and one that
        finishes is pushed to the history and every task with its id is
        filtered out of the live queue. The live queue shares the task
        objects, so it is rebuilt from them after each step. */
    method ProgressPass(k: Kind, now: int, failing: set<nat>)
      requires Valid()
      modifies this`uploadQueue, this`downloadQueue, this`transferHistory
      ensures Valid()
      ensures State() == AfterPass(old(State()), k, simulatedSpeed, now, failing)
    {
      var q0 := State();
      var tasks := QueueOf(State(), k);
      var retired: set<string> := {};
      ghost var p0 := Pass(tasks, {}, transferHistory);
      OutcomeAtStart(q0, k);
      for j := 0 to |tasks|
        invariant Pass(tasks, retired, transferHistory) == PassUpTo(p0, j, Advancer(simulatedSpeed, now), failing)
        invariant State() == Outcome(q0, k, Pass(tasks, retired, transferHistory))
      {
        tasks, retired := ProgressAt(q0, k, tasks, retired, j, now, j in failing);
      }
      AfterPassValid(q0, k, simulatedSpeed, now, failing);
    }

    /** One iteration of the pass, at position `j`: a running task
        advances; one that finishes is pushed to the history and its id
        retired from the live queue of kind `k`, which is rebuilt from the
        task objects. */
    method ProgressAt(q0: Queues, k: Kind, tasks: seq<Task>, retired: set<string>, j: nat, now: int, fail: bool)
      returns (tasks': seq<Task>, retired': set<string>)
      requires j < |tasks|
      modifies this`uploadQueue, this`downloadQueue, this`transferHistory
      ensures Pass(tasks', retired', transferHistory)
              == PassStep(Pass(tasks, retired, old(transferHistory)), j, Advancer(simulatedSpeed, now), fail)
      ensures State() == Outcome(q0, k, Pass(tasks', retired', transferHistory))
    {
      ghost var before := Pass(tasks, retired, transferHistory);
      tasks', retired' := tasks, retired;
      var transfer := tasks[j];
      if transfer.status == InProgress {
        transfer := Advance(transfer, simulatedSpeed, now, fail);
        tasks' := tasks[j := transfer];
        if Finished(transfer.status) {
          transferHistory := transferHistory + [transfer];
          retired' := retired + {transfer.id};
        }
      }
      StepIsPassStep(before, j, simulatedSpeed, now, fail, Pass(tasks', retired', transferHistory));
      SetState(Outcome(q0, k, Pass(tasks', retired', transferHistory)));
    }

    /** `uploadFile(file, options)` with `id` the generated id: a new queued
        task at the end of the upload queue; the interval starts. */
    method UploadFile(file: FileInfo, targetDeviceId: Option<string>, path: Option<string>, maxRetries: Option<nat>,
                      id: string, now: int) returns (task: Task)
      requires Valid()
      modifies this`uploadQueue, this`processing
      ensures Valid() && processing
      ensures task == NewTask(id, Upload, file, targetDeviceId, path, maxRetries, now)
      ensures uploadQueue == old(uploadQueue) + [task]
    {
      task := NewTask(id, Upload, file, targetDeviceId, path, maxRetries, now);
      uploadQueue := uploadQueue + [task];
      if !processing {
        StartProcessingQueue();
      }
    }

    /** `downloadFile(file, options)`: a file id not in the library gives
        no task; otherwise a new queued task at the end of the download
        queue. */
    method DownloadFile(file: FileRef, sourceDeviceId: Option<string>, savePath: Option<string>,
                        maxRetries: Option<nat>, id: string, now: int) returns (task: Option<Task>)
      requires Valid()
      modifies this`downloadQueue, this`processing
      ensures Valid()
      ensures file.ById? && FirstWhere(mockFiles, IdIs(file.fileId)).None? ==>
                task.None? && downloadQueue == old(downloadQueue) && processing == old(processing)
      ensures task.Some? ==>
                var f := if file.ById? then FirstWhere(mockFiles, IdIs(file.fileId)).value else file.file;
                task.value == NewTask(id, Download, f, sourceDeviceId, savePath, maxRetries, now)
                && downloadQueue == old(downloadQueue) + [task.value] && processing
      ensures file.Given? ==> task.Some?
    {
      var f: FileInfo;
      if file.ById? {
        var found := FirstWhere(mockFiles, IdIs(file.fileId));
        if found.None? {
          return None;
        }
        f := found.value;
      } else {
        f := file.file;
      }
      var t := NewTask(id, Download, f, sourceDeviceId, savePath, maxRetries, now);
      downloadQueue := downloadQueue + [t];
      if !processing {
        StartProcessingQueue();
      }
      return Some(t);
    }

    /** `pauseTransfer(id)` */
    method PauseTransfer(id: string) returns (ok: bool)
      requires Valid()
      modifies this`uploadQueue, this`downloadQueue, this`transferHistory
      ensures Valid()
      ensures (State(), ok) == Pause(old(State()), id)
    {
      SetValid(State(), id, Paused);
      var r := Pause(State(), id);
      SetState(r.0);
      ok := r.1;
    }

    /** `resumeTransfer(id)` */
    method ResumeTransfer(id: string, now: int) returns (ok: bool)
      requires Valid()
      modifies this`uploadQueue, this`downloadQueue, this`transferHistory
      ensures Valid()
      ensures (State(), ok) == Resume(old(State()), id, now)
    {
      SetValid(State(), id, InProgress);
      var r := Resume(State(), id, now);
      SetState(r.0);
      ok := r.1;
    }

    /** `cancelTransfer(id)` */
    method CancelTransfer(id: string, now: int) returns (ok: bool)
      requires Valid()
      modifies this`uploadQueue, this`downloadQueue, this`transferHistory
      ensures Valid()
      ensures (State(), ok) == Cancel(old(State()), id, now)
    {
      CancelValid(State(), id, now);
      var r := Cancel(State(), id, now);
      SetState(r.0);
      ok := r.1;
    }

    /** `findTransfer(id)` */
    function Find(id: string): (r: Option<Task>)
      reads this
      ensures r == FindTransfer(State(), id)
      ensures r.Some? <==> (exists i :: 0 <= i < |uploadQueue| && uploadQueue[i].id == id)
                           || (exists i :: 0 <= i < |downloadQueue| && downloadQueue[i].id == id)
                           || (exists i :: 0 <= i < |transferHistory| && transferHistory[i].id == id)
    {
      FindTransfer(State(), id)
    }

    /** `getAllTransfers()`: the queues, then the history. */
    function GetAllTransfers(): (r: seq<Task>)
      reads this
      ensures |r| == |uploadQueue| + |downloadQueue| + |transferHistory|
      ensures r[..|uploadQueue|] == uploadQueue
      ensures r[|uploadQueue|..|uploadQueue| + |downloadQueue|] == downloadQueue
      ensures r[|uploadQueue| + |downloadQueue|..] == transferHistory
    {
      uploadQueue + downloadQueue + transferHistory
    }

    /** `getActiveTransfers()`: every queued task is not finished. */
    function GetActiveTransfers(): (r: seq<Task>)
      reads this
      requires Valid()
      ensures |r| == |uploadQueue| + |downloadQueue|
      ensures r[..|uploadQueue|] == uploadQueue && r[|uploadQueue|..] == downloadQueue
      ensures forall i :: 0 <= i < |r| ==> Cancellable(r[i].status)
    {
      uploadQueue + downloadQueue
    }

    /** `clearTransferHistory()`: returns the number cleared. */
    method ClearTransferHistory() returns (count: nat)
      requires Valid()
      modifies this`transferHistory
      ensures Valid() && transferHistory == [] && count == |old(transferHistory)|
    {
      count := |transferHistory|;
      transferHistory := [];
    }

    /** `pauseAllTransfers()` */
    method PauseAllTransfers()
      requires Valid()
      modifies this`isPaused, this`uploadQueue, this`downloadQueue
      ensures Valid() && isPaused
      ensures uploadQueue == PauseAllIn(old(uploadQueue)) && downloadQueue == PauseAllIn(old(downloadQueue))
      ensures forall i :: 0 <= i < |uploadQueue| ==> uploadQueue[i].status != InProgress
      ensures forall i :: 0 <= i < |downloadQueue| ==> downloadQueue[i].status != InProgress
    {
      isPaused := true;
      uploadQueue := PauseAllIn(uploadQueue);
      downloadQueue := PauseAllIn(downloadQueue);
    }

    /** `resumeAllTransfers()` */
    method ResumeAllTransfers(now: int)
      requires Valid()
      modifies this`isPaused, this`uploadQueue, this`downloadQueue
      ensures Valid() && !isPaused
      ensures uploadQueue == ResumeAllIn(old(uploadQueue), now) && downloadQueue == ResumeAllIn(old(downloadQueue), now)
      ensures forall i :: 0 <= i < |uploadQueue| ==> uploadQueue[i].status != Paused
      ensures forall i :: 0 <= i < |downloadQueue| ==> downloadQueue[i].status != Paused
    {
      isPaused := false;
      uploadQueue := ResumeAllIn(uploadQueue, now);
      downloadQueue := ResumeAllIn(downloadQueue, now);
    }

    /** `cancelAllTransfers()`: every queued id is cancelled in turn;
        returns how many there were. */
    method CancelAllTransfers(now: int) returns (count: nat)
      requires Valid()
      modifies this`uploadQueue, this`downloadQueue, this`transferHistory
      ensures Valid()
      ensures count == |old(uploadQueue)| + |old(downloadQueue)|
      ensures State() == CancelEach(old(State()), Ids(old(uploadQueue) + old(downloadQueue)), now)
      ensures DistinctIds(old(uploadQueue) + old(downloadQueue)) ==> uploadQueue == [] && downloadQueue == []
    {
      ghost var q0 := State();
      var ids := Ids(uploadQueue + downloadQueue);
      for j := 0 to |ids|
        invariant Valid()
        invariant State() == CancelEach(q0, ids[..j], now)
      {
        assert ids[..j + 1][..j] == ids[..j];
        var _ := CancelTransfer(ids[j], now);
      }
      assert ids[..|ids|] == ids;
      if DistinctIds(q0.uploads + q0.downloads) {
        CancelAllEmpties(q0, now);
      }
      return |ids|;
    }

    /** `setSimulatedSpeed(bytesPerSecond)` */
    method SetSimulatedSpeed(bytesPerSecond: int)
      modifies this`simulatedSpeed
      ensures simulatedSpeed == bytesPerSecond
    {
      simulatedSpeed := bytesPerSecond;
    }

    /** `setMaxConcurrentTransfers(max)` */
    method SetMaxConcurrentTransfers(max: int)
      modifies this`maxConcurrentTransfers
      ensures maxConcurrentTransfers == max
    {
      maxConcurrentTransfers := max;
    }

    /** `addMockFile(file)`: missing id, type and path get defaults. */
    method AddMockFile(id: Option<string>, name: string, size: nat, fileType: Option<string>, path: Option<string>,
                       now: int, nowText: string) returns (f: FileInfo)
      modifies this`mockFiles
      ensures f == FileInfo(OrElse(id, "file-" + nowText), name, size, OrElse(fileType, "application/octet-stream"),
                            OrElse(path, "/files/" + name))
      ensures mockFiles == old(mockFiles) + [f]
    {
      f := FileInfo(OrElse(id, "file-" + nowText), name, size, OrElse(fileType, "application/octet-stream"),
                    OrElse(path, "/files/" + name));
      mockFiles := mockFiles + [f];
    }
  }
}
