/** The backend's download tracking (backend/server.ts): the module-level
    `activeDownloads` map from file id to the requested download, updated by
    the `download_file` and `cancel_download` socket handlers and by the
    provider's `updateFile` pushes, and the `currentAuthState` variable kept
    by `updateAuthorizationState`. Provider calls and the file copy are
    inputs saying whether they succeeded. */
module Tracker {
  import opened Common
  import opened Types
  import opened Normalizer

  /** What `activeDownloads` holds per file id. */
  datatype DownloadInfo = DownloadInfo(fileName: string, totalSize: int, startTime: int)

  const UnknownFileName: string := "Unknown File"

  // ---------------------------------------------------------------------
  // Progress percentage
  // ---------------------------------------------------------------------

  /** `Math.round(x)`: the nearest integer, halves rounded up. */
  ghost function MathRound(x: real): int {
    (x + 0.5).Floor
  }

  /** `Math.round(d / e * 100)` computed on integers. */
  function RoundedPercent(d: nat, e: nat): nat
    requires e > 0
  {
    (200 * d + e) / (2 * e)
  }

  /** The integer formula is exactly Math.round of the exact percentage. */
  lemma RoundedPercentIsMathRound(d: nat, e: nat)
    requires e > 0
    ensures RoundedPercent(d, e) == MathRound((100 * d) as real / e as real)
  {
    var n := RoundedPercent(d, e);
    var q := 2 * e;
    var num := 200 * d + e;
    assert n * q <= num < (n + 1) * q;
    var x := (100 * d) as real / e as real;
    CancelDivision((100 * d) as real, e as real);
    CancelDivision(num as real, q as real);
    assert (x + 0.5) * q as real == num as real;
    DivideLe(x + 0.5, num as real / q as real, q as real);
    DivideLe(num as real / q as real, x + 0.5, q as real);
    DivideLe(n as real, num as real / q as real, q as real);
    DivideLt(num as real / q as real, n as real + 1.0, q as real);
  }

  lemma CancelDivision(num: real, q: real)
    requires q > 0.0
    ensures (num / q) * q == num
  {
  }

  lemma DivideLe(a: real, b: real, q: real)
    requires q > 0.0 && a * q <= b * q
    ensures a <= b
  {
  }

  lemma DivideLt(a: real, b: real, q: real)
    requires q > 0.0 && a * q < b * q
    ensures a < b
  {
  }

  lemma ScaleLess(n: int, m: int, q: int)
    requires q > 0 && n * q < m * q
    ensures n < m
  {
  }

  /** The reported percentage passes 100 only once the downloaded size
      reaches 100.5% of the expected size (200 * d >= 201 * e). */
  lemma RoundedPercentOver100(d: nat, e: nat)
    requires e > 0
    ensures RoundedPercent(d, e) > 100 <==> 200 * d >= 201 * e
  {
    var n := RoundedPercent(d, e);
    var q := 2 * e;
    var num := 200 * d + e;
    assert n * q <= num < (n + 1) * q;
    if 200 * d >= 201 * e {
      assert 101 * q <= num;
      ScaleLess(100, n + 1, q);
    } else {
      assert num < 101 * q;
      ScaleLess(n, 101, q);
    }
  }

  /** A download that has not overtaken its expected size reports a
      percentage in 0..100, and 100 exactly when it has reached at least
      99.5% of the expected size. */
  lemma RoundedPercentBounds(d: nat, e: nat)
    requires 0 < e && d <= e
    ensures RoundedPercent(d, e) <= 100
    ensures RoundedPercent(d, e) == 100 <==> 200 * d >= 199 * e
  {
    var n := RoundedPercent(d, e);
    var q := 2 * e;
    var num := 200 * d + e;
    assert n * q <= num < (n + 1) * q;
    assert num < 101 * q;
    ScaleLess(n, 101, q);
    if 200 * d >= 199 * e {
      assert 100 * q <= num;
      ScaleLess(99, n + 1, q);
    } else {
      assert num < 100 * q;
      ScaleLess(n, 100, q);
    }
  }

  /** The `progress` field: 0 when the expected size is 0 (unknown). */
  function Progress(file: ProviderFile): (p: nat)
    ensures file.expectedSize == 0 ==> p == 0
    ensures file.expectedSize > 0 ==> p == RoundedPercent(file.local.downloadedSize, file.expectedSize)
    ensures file.local.downloadedSize <= file.expectedSize ==> p <= 100
  {
    var d, e := file.local.downloadedSize, file.expectedSize;
    if e == 0 then 0
    else if d <= e then RoundedPercentBounds(d, e); RoundedPercent(d, e)
    else RoundedPercent(d, e)
  }

  // ---------------------------------------------------------------------
  // updateFile
  // ---------------------------------------------------------------------

  /** An update is handled when the file is tracked or the provider is
      actively downloading it. */
  predicate IsRelevant(downloads: map<int, DownloadInfo>, file: ProviderFile) {
    file.id in downloads || file.local.isDownloadingActive
  }

  /** The name reported for a file: the requested name, or "Unknown File"
      for an untracked file (or an empty requested name). */
  function ReportedName(downloads: map<int, DownloadInfo>, id: int): (name: string)
    ensures name != ""
    ensures id !in downloads ==> name == UnknownFileName
    ensures id in downloads && downloads[id].fileName != "" ==> name == downloads[id].fileName
    ensures id in downloads && downloads[id].fileName == "" ==> name == UnknownFileName
  {
    if id in downloads && downloads[id].fileName != "" then downloads[id].fileName else UnknownFileName
  }

  /** The `download_progress` payload for a handled update. Speed is
      always 0. */
  function ProgressEvent(downloads: map<int, DownloadInfo>, file: ProviderFile): (t: DownloadTask)
    ensures t.id == file.id && t.speed == 0
    ensures t.totalSize == file.expectedSize && t.downloadedSize == file.local.downloadedSize
    ensures t.status == Completed <==> file.local.isDownloadingCompleted
    ensures t.status in {Completed, Downloading}
    ensures file.local.downloadedSize <= file.expectedSize ==> 0 <= t.progress <= 100
    ensures t.fileName == ReportedName(downloads, file.id) && t.fileName != ""
    ensures file.id !in downloads ==> t.fileName == UnknownFileName
    ensures t.progress == Progress(file)
    ensures file.expectedSize == 0 ==> t.progress == 0
  {
    DownloadTask(
      id := file.id,
      fileName := ReportedName(downloads, file.id),
      progress := Progress(file),
      speed := 0,
      downloadedSize := file.local.downloadedSize,
      status := if file.local.isDownloadingCompleted then Completed else Downloading,
      totalSize := file.expectedSize)
  }

  /** Whether the update completes a tracked download whose copy into the
      download directory succeeded: the one case that removes the entry. */
  predicate CompletesTracked(downloads: map<int, DownloadInfo>, file: ProviderFile, copySucceeded: bool) {
    file.id in downloads && file.local.isDownloadingCompleted && copySucceeded
  }

  /** `activeDownloads` after an update. */
  function AfterFileUpdate(downloads: map<int, DownloadInfo>, file: ProviderFile, copySucceeded: bool): (r: map<int, DownloadInfo>)
    ensures r.Keys <= downloads.Keys
    ensures forall id :: id in r ==> r[id] == downloads[id]
    ensures file.id !in r <==> file.id !in downloads || (file.local.isDownloadingCompleted && copySucceeded)
    ensures forall id :: id != file.id ==> (id in r <==> id in downloads)
  {
    if CompletesTracked(downloads, file, copySucceeded) then downloads - {file.id} else downloads
  }

  /** The `download_complete` payload: the file id and the name it was
      saved under in the download directory. */
  datatype DownloadComplete = DownloadComplete(id: int, savedName: string)

  // ---------------------------------------------------------------------
  // download_file / cancel_download
  // ---------------------------------------------------------------------

  /** The provider calls the handlers make. */
  datatype DownloadFileRequest = DownloadFileRequest(fileId: int, priority: int, offset: int, limit: int, synchronous: bool)
  datatype CancelDownloadFileRequest = CancelDownloadFileRequest(fileId: int, onlyIfPending: bool)

  function AfterDownloadRequest(downloads: map<int, DownloadInfo>, fileId: int, fileName: string, totalSize: int, now: int): (r: map<int, DownloadInfo>)
    ensures fileId in r && r[fileId] == DownloadInfo(fileName, totalSize, now)
    ensures r.Keys == downloads.Keys + {fileId}
    ensures forall id :: id in downloads && id != fileId ==> r[id] == downloads[id]
  {
    downloads[fileId := DownloadInfo(fileName, totalSize, now)]
  }

  function AfterCancel(downloads: map<int, DownloadInfo>, fileId: int, providerSucceeded: bool): (r: map<int, DownloadInfo>)
    ensures providerSucceeded ==> r.Keys == downloads.Keys - {fileId}
    ensures !providerSucceeded ==> r == downloads
    ensures forall id :: id in r ==> r[id] == downloads[id]
  {
    if providerSucceeded then downloads - {fileId} else downloads
  }

  // ---------------------------------------------------------------------
  // The tracker's state and its handlers
  // ---------------------------------------------------------------------

  class DownloadTracker {
    var currentAuthState: AuthState
    var activeDownloads: map<int, DownloadInfo>

    constructor ()
      ensures currentAuthState == LoggedOut && activeDownloads == map[]
    {
      currentAuthState := LoggedOut;
      activeDownloads := map[];
    }

    /** `updateAuthorizationState`: record the mapped state and broadcast it. */
    method OnAuthorizationState(s: ProviderAuthState) returns (update: AuthUpdate)
      modifies this`currentAuthState
      ensures update == MapAuthState(s)
      ensures currentAuthState == update.state
    {
      update := MapAuthState(s);
      currentAuthState := update.state;
    }

    /** `get_auth_state` and a new connection: the last state, without a
        QR link. */
    method ReportAuthState() returns (update: AuthUpdate)
      ensures update.state == currentAuthState && update.qrLink == None
    {
      update := AuthUpdate(currentAuthState, None);
    }

    /** `updateFile`: report progress for a handled update and, when a
        tracked download completes and its copy succeeds, stop tracking it. */
    method OnFileUpdate(file: ProviderFile, copySucceeded: bool)
      returns (progress: Option<DownloadTask>, complete: Option<DownloadComplete>)
      modifies this`activeDownloads
      ensures progress.Some? <==> IsRelevant(old(activeDownloads), file)
      ensures progress.Some? ==> progress.value == ProgressEvent(old(activeDownloads), file)
      ensures activeDownloads == AfterFileUpdate(old(activeDownloads), file, copySucceeded)
      ensures complete.Some? <==> CompletesTracked(old(activeDownloads), file, copySucceeded)
      ensures complete.Some? ==> complete.value == DownloadComplete(file.id, old(activeDownloads)[file.id].fileName)
    {
      progress, complete := None, None;
      var tracked := file.id in activeDownloads;
      if tracked || file.local.isDownloadingActive {
        progress := Some(ProgressEvent(activeDownloads, file));
        if file.local.isDownloadingCompleted && tracked {
          var task := activeDownloads[file.id];
          if copySucceeded {
            complete := Some(DownloadComplete(file.id, task.fileName));
            activeDownloads := activeDownloads - {file.id};
          }
        }
      }
    }

    /** `download_file`: record the request (overwriting an earlier one for
        the same file), then ask the provider to download. A failing
        provider call does not undo the record. */
    method DownloadFile(fileId: int, fileName: string, totalSize: int, now: int)
      returns (request: DownloadFileRequest)
      modifies this`activeDownloads
      ensures activeDownloads == AfterDownloadRequest(old(activeDownloads), fileId, fileName, totalSize, now)
      ensures request == DownloadFileRequest(fileId, 1, 0, 0, false)
    {
      activeDownloads := activeDownloads[fileId := DownloadInfo(fileName, totalSize, now)];
      request := DownloadFileRequest(fileId, 1, 0, 0, false);
    }

    /** `cancel_download`: ask the provider to cancel, and forget the file
        only if that call succeeded. */
    method CancelDownload(fileId: int, providerSucceeded: bool)
      returns (request: CancelDownloadFileRequest)
      modifies this`activeDownloads
      ensures activeDownloads == AfterCancel(old(activeDownloads), fileId, providerSucceeded)
      ensures request == CancelDownloadFileRequest(fileId, false)
    {
      request := CancelDownloadFileRequest(fileId, false);
      if providerSucceeded {
        activeDownloads := activeDownloads - {fileId};
      }
    }
  }

  // ---------------------------------------------------------------------
  // Histories of handler runs
  // ---------------------------------------------------------------------

  /** One run of a handler that touches `activeDownloads`. */
  datatype TrackerEvent =
    | Requested(fileId: int, fileName: string, totalSize: int, now: int)
    | CancelRequested(cancelId: int, providerSucceeded: bool)
    | FileUpdated(file: ProviderFile, copySucceeded: bool)

  function Step(downloads: map<int, DownloadInfo>, e: TrackerEvent): map<int, DownloadInfo> {
    match e
    case Requested(id, name, size, now) => AfterDownloadRequest(downloads, id, name, size, now)
    case CancelRequested(id, ok) => AfterCancel(downloads, id, ok)
    case FileUpdated(file, ok) => AfterFileUpdate(downloads, file, ok)
  }

  /** `activeDownloads` after the handlers ran in the given order. */
  function Replay(downloads: map<int, DownloadInfo>, events: seq<TrackerEvent>): map<int, DownloadInfo>
    decreases |events|
  {
    if events == [] then downloads else Replay(Step(downloads, events[0]), events[1..])
  }

  /** Whether an event removes `id` from the map. */
  predicate Releases(e: TrackerEvent, id: int) {
    match e
    case Requested(_, _, _, _) => false
    case CancelRequested(c, ok) => c == id && ok
    case FileUpdated(file, ok) => file.id == id && file.local.isDownloadingCompleted && ok
  }

  /** Only `download_file` starts tracking a file: provider updates for
      files nobody requested (previews, thumbnails) are reported but never
      tracked. */
  lemma {:induction false} OnlyRequestsTrack(downloads: map<int, DownloadInfo>, events: seq<TrackerEvent>, id: int)
    requires id !in downloads
    requires forall i :: 0 <= i < |events| ==> !(events[i].Requested? && events[i].fileId == id)
    ensures id !in Replay(downloads, events)
    decreases |events|
  {
    if events != [] {
      OnlyRequestsTrack(Step(downloads, events[0]), events[1..], id);
    }
  }

  /** A tracked file stays tracked, with the same record, until a
      successful cancel or a completed update with a successful copy
      releases it, or a new request for it overwrites the record. */
  lemma {:induction false} TrackedUntilReleased(downloads: map<int, DownloadInfo>, events: seq<TrackerEvent>, id: int)
    requires id in downloads
    requires forall i :: 0 <= i < |events| ==> !Releases(events[i], id)
    requires forall i :: 0 <= i < |events| ==> !(events[i].Requested? && events[i].fileId == id)
    ensures id in Replay(downloads, events)
    ensures Replay(downloads, events)[id] == downloads[id]
    decreases |events|
  {
    if events != [] {
      assert !Releases(events[0], id);
      TrackedUntilReleased(Step(downloads, events[0]), events[1..], id);
    }
  }
}
