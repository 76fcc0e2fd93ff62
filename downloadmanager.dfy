/** The download panel (components/DownloadManager.tsx): its counters and
    which controls each task row offers. */
module DownloadManager {
  import opened Common
  import opened Types
  import opened Normalizer
  import opened Tracker
  import opened Api
  import opened App

  /** The panel renders nothing for an empty task list. */
  predicate PanelShown(tasks: seq<DownloadTask>) {
    |tasks| != 0
  }

  /** The panel is hidden until the first progress report and shown from
      then on, since a report always leaves its task in the list. */
  lemma PanelShownAfterProgress(tasks: seq<DownloadTask>, task: DownloadTask)
    ensures !PanelShown([])
    ensures PanelShown(Upsert(tasks, task))
    ensures PanelShown(tasks) ==> |Upsert(tasks, task)| >= |tasks|
  {
    UpsertIds(tasks, task);
  }

  predicate IsActive(t: DownloadTask) {
    t.status == Downloading || t.status == Pending
  }

  predicate IsCompleted(t: DownloadTask) {
    t.status == Completed
  }

  /** `activeCount`: the tasks downloading or pending. */
  function ActiveCount(tasks: seq<DownloadTask>): nat {
    |Filter(tasks, IsActive)|
  }

  /** `completedCount`: the completed tasks. */
  function CompletedCount(tasks: seq<DownloadTask>): nat {
    |Filter(tasks, IsCompleted)|
  }

  /** No task is counted both as active and as done, so the two counters
      together never exceed the number of tasks. */
  lemma {:induction false} CountsBounded(tasks: seq<DownloadTask>)
    ensures ActiveCount(tasks) + CompletedCount(tasks) <= |tasks|
    decreases |tasks|
  {
    if tasks != [] {
      CountsBounded(tasks[1..]);
    }
  }

  /** The clear-completed button: offered iff some task is completed. */
  predicate ClearCompletedOffered(tasks: seq<DownloadTask>) {
    CompletedCount(tasks) > 0
  }

  lemma ClearCompletedOfferedIff(tasks: seq<DownloadTask>)
    ensures ClearCompletedOffered(tasks) <==> exists i :: 0 <= i < |tasks| && tasks[i].status == Completed
  {
    var done := Filter(tasks, IsCompleted);
    if exists i :: 0 <= i < |tasks| && tasks[i].status == Completed {
      var i :| 0 <= i < |tasks| && tasks[i].status == Completed;
      assert tasks[i] in done;
    }
    if |done| > 0 {
      assert done[0] in tasks;
    }
  }

  /** The controls of one task row. */
  datatype Controls = Controls(pause: bool, resume: bool, cancel: bool, progressBar: bool)

  /** Pause for a running task, resume for a paused one, cancel for any
      task not yet completed, and a progress bar while running or paused. */
  function ControlsFor(status: TaskStatus): Controls {
    Controls(
      pause := status == Downloading,
      resume := status == Paused,
      cancel := status != Completed,
      progressBar := status == Downloading || status == Paused)
  }

  /** A row never offers both pause and resume; whenever it offers one of
      them it also offers cancel and shows the bar; a completed row offers
      nothing. */
  lemma ControlsConsistent(status: TaskStatus)
    ensures !(ControlsFor(status).pause && ControlsFor(status).resume)
    ensures ControlsFor(status).pause || ControlsFor(status).resume <==> ControlsFor(status).progressBar
    ensures ControlsFor(status).progressBar ==> ControlsFor(status).cancel
    ensures status == Completed <==> ControlsFor(status) == Controls(false, false, false, false)
  {
  }

  /** The command each control sends. */
  function PauseCommand(t: DownloadTask): Command { PauseDownload(t.id) }
  function ResumeCommand(t: DownloadTask): Command { ResumeDownload(t.id) }
  function CancelCommand(t: DownloadTask): Command { CancelDownload(t.id) }

  /** Every task the backend reports is either running or completed: its
      row offers pause, cancel and the bar until it completes and nothing
      afterwards, and never resume. Of the controls, only cancel reaches a
      backend handler. */
  lemma ReportedTaskControls(downloads: map<int, DownloadInfo>, file: ProviderFile)
    ensures ControlsFor(ProgressEvent(downloads, file).status) ==
      if file.local.isDownloadingCompleted then Controls(false, false, false, false)
      else Controls(true, false, true, true)
    ensures Route(Wire(PauseCommand(ProgressEvent(downloads, file)))) == None
    ensures Route(Wire(CancelCommand(ProgressEvent(downloads, file)))) == Some(CancelDownload(file.id))
    ensures Route(Wire(ClearCompleted)) == None
  {
    var t := ProgressEvent(downloads, file);
    WireRoute(PauseCommand(t));
    WireRoute(CancelCommand(t));
    WireRoute(ClearCompleted);
  }
}
