/** How the pieces meet: a file listed by the browser, downloaded through
    the socket, tracked by the backend and reported back into the download
    list. `DownloadTask.id` correlates to `TdFile.id` (types.ts). */
module Flow {
  import opened Common
  import opened Types
  import opened Normalizer
  import opened Tracker
  import opened Api
  import opened App
  import opened FileBrowser

  /** For a file the backend listed from a media message: the browser's
      download command reaches the `download_file` handler unchanged, which
      tracks the file under its id; every provider update for that file is
      then reported as a task with the file's id, its listed name and the
      provider's expected size, and the download list holds a task for it
      afterwards. */
  lemma ListedFileDownload(m: Message, downloads: map<int, DownloadInfo>, now: int,
                           update: ProviderFile, tasks: seq<DownloadTask>)
    requires MapMessageToFile(m).MappedFile?
    requires update.id == MapMessageToFile(m).file.id
    ensures var f := MapMessageToFile(m).file;
      var tracked := AfterDownloadRequest(downloads, f.id, f.name, f.size, now);
      var task := ProgressEvent(tracked, update);
      && Route(Wire(DownloadCommand(f))) == Some(StartDownload(f.id, f.name, f.size))
      && IsRelevant(tracked, update)
      && task.id == f.id
      && task.fileName == f.name
      && task.totalSize == update.expectedSize
      && HasId(Upsert(tasks, task), f.id)
  {
    var f := MapMessageToFile(m).file;
    WireRoute(DownloadCommand(f));
    MapMessageToFileName(m);
    var task := ProgressEvent(AfterDownloadRequest(downloads, f.id, f.name, f.size, now), update);
    UpsertIds(tasks, task);
  }
}
