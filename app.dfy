/** The top-level component's state (App.tsx): the handlers of the
    `connection_status`, `auth_update`, `chats_update` and
    `download_progress` events, the download list they maintain, and the
    rule choosing between the connecting screen, the login screen and the
    main view. */
module App {
  import opened Common
  import opened Types
  import opened Normalizer
  import opened Api

  // ---------------------------------------------------------------------
  // The download_progress reducer
  // ---------------------------------------------------------------------

  predicate HasId(tasks: seq<DownloadTask>, id: int) {
    exists i :: 0 <= i < |tasks| && tasks[i].id == id
  }

  predicate UniqueIds(tasks: seq<DownloadTask>) {
    forall i, j :: 0 <= i < j < |tasks| ==> tasks[i].id != tasks[j].id
  }

  /** `prev.map(t => t.id === task.id ? task : t)`. */
  function ReplaceById(tasks: seq<DownloadTask>, task: DownloadTask): (r: seq<DownloadTask>)
    ensures |r| == |tasks|
    ensures forall i :: 0 <= i < |tasks| ==> r[i].id == tasks[i].id
    ensures forall i :: 0 <= i < |tasks| && tasks[i].id != task.id ==> r[i] == tasks[i]
    ensures forall i :: 0 <= i < |tasks| && tasks[i].id == task.id ==> r[i] == task
    ensures !HasId(tasks, task.id) ==> r == tasks
    ensures UniqueIds(r) <==> UniqueIds(tasks)
  {
    seq(|tasks|, i requires 0 <= i < |tasks| => if tasks[i].id == task.id then task else tasks[i])
  }

  /** Replace the task with the same id, or append the new one. */
  function Upsert(tasks: seq<DownloadTask>, task: DownloadTask): seq<DownloadTask> {
    if HasId(tasks, task.id) then ReplaceById(tasks, task) else tasks + [task]
  }

  /** A known id is updated in place: same length, the task with that id
      replaced, every other entry unchanged. */
  lemma UpsertExisting(tasks: seq<DownloadTask>, task: DownloadTask)
    requires HasId(tasks, task.id)
    ensures |Upsert(tasks, task)| == |tasks|
    ensures forall i :: 0 <= i < |tasks| && tasks[i].id != task.id ==> Upsert(tasks, task)[i] == tasks[i]
    ensures forall i :: 0 <= i < |tasks| && tasks[i].id == task.id ==> Upsert(tasks, task)[i] == task
  {
  }

  /** An unknown id is appended at the end. */
  lemma UpsertNew(tasks: seq<DownloadTask>, task: DownloadTask)
    requires !HasId(tasks, task.id)
    ensures Upsert(tasks, task) == tasks + [task]
    ensures |Upsert(tasks, task)| == |tasks| + 1
  {
  }

  /** After an upsert the list holds the task, the same ids as before plus
      the task's, and ids stay unique if they were. */
  lemma UpsertIds(tasks: seq<DownloadTask>, task: DownloadTask)
    ensures task in Upsert(tasks, task)
    ensures forall id :: HasId(Upsert(tasks, task), id) <==> HasId(tasks, id) || id == task.id
    ensures UniqueIds(tasks) ==> UniqueIds(Upsert(tasks, task))
  {
    var r := Upsert(tasks, task);
    if HasId(tasks, task.id) {
      var k :| 0 <= k < |tasks| && tasks[k].id == task.id;
      assert r[k] == task;
      forall id ensures HasId(r, id) <==> HasId(tasks, id) || id == task.id {
        if HasId(tasks, id) {
          var i :| 0 <= i < |tasks| && tasks[i].id == id;
          assert r[i].id == id;
        }
        if HasId(r, id) {
          var i :| 0 <= i < |r| && r[i].id == id;
          assert tasks[i].id == id || id == task.id;
        }
      }
    } else {
      assert r[|tasks|] == task;
      forall id ensures HasId(r, id) <==> HasId(tasks, id) || id == task.id {
        if HasId(tasks, id) {
          var i :| 0 <= i < |tasks| && tasks[i].id == id;
          assert r[i].id == id;
        }
        if HasId(r, id) {
          var i :| 0 <= i < |r| && r[i].id == id;
          if i < |tasks| {
            assert tasks[i].id == id;
          }
        }
      }
    }
  }

  /** Reporting the same task twice is the same as reporting it once. */
  lemma UpsertIdempotent(tasks: seq<DownloadTask>, task: DownloadTask)
    ensures Upsert(Upsert(tasks, task), task) == Upsert(tasks, task)
  {
    var r := Upsert(tasks, task);
    UpsertIds(tasks, task);
    assert HasId(r, task.id);
    var rr := ReplaceById(r, task);
    assert |rr| == |r|;
    forall i | 0 <= i < |r| && r[i].id == task.id ensures r[i] == task {
      if i < |tasks| {
        assert tasks[i].id == task.id;
      }
    }
  }

  /** The download list after a run of progress events. */
  function ApplyProgress(tasks: seq<DownloadTask>, events: seq<DownloadTask>): seq<DownloadTask>
    decreases |events|
  {
    if events == [] then tasks else ApplyProgress(Upsert(tasks, events[0]), events[1..])
  }

  /** Starting from an empty list, the download list has one entry per
      distinct id ever reported, and no id twice. */
  lemma {:induction false} ApplyProgressIds(tasks: seq<DownloadTask>, events: seq<DownloadTask>)
    requires UniqueIds(tasks)
    ensures UniqueIds(ApplyProgress(tasks, events))
    ensures forall id :: HasId(ApplyProgress(tasks, events), id) <==>
      HasId(tasks, id) || exists k :: 0 <= k < |events| && events[k].id == id
    decreases |events|
  {
    if events != [] {
      UpsertIds(tasks, events[0]);
      ApplyProgressIds(Upsert(tasks, events[0]), events[1..]);
      forall id ensures HasId(ApplyProgress(tasks, events), id) <==>
        HasId(tasks, id) || exists k :: 0 <= k < |events| && events[k].id == id
      {
        if exists k :: 0 <= k < |events[1..]| && events[1..][k].id == id {
          var k :| 0 <= k < |events[1..]| && events[1..][k].id == id;
          assert events[k + 1].id == id;
        }
        if exists k :: 0 <= k < |events| && events[k].id == id {
          var k :| 0 <= k < |events| && events[k].id == id;
          if k > 0 {
            assert events[1..][k - 1].id == id;
          }
        }
      }
    }
  }

  // ---------------------------------------------------------------------
  // Screen selection
  // ---------------------------------------------------------------------

  datatype Screen = ConnectingScreen | LoginScreen | MainScreen

  /** The connecting screen while the socket is down and loading; the login
      screen until the account is ready; the main view otherwise. */
  function ScreenFor(socketConnected: bool, loading: bool, authState: AuthState): (s: Screen)
    ensures s == ConnectingScreen <==> !socketConnected && loading
    ensures s == LoginScreen <==> !(!socketConnected && loading) && authState != Ready
    ensures s == MainScreen <==> (socketConnected || !loading) && authState == Ready
  {
    if !socketConnected && loading then ConnectingScreen
    else if authState != Ready then LoginScreen
    else MainScreen
  }

  // ---------------------------------------------------------------------
  // The component's state and its event handlers
  // ---------------------------------------------------------------------

  class AppState {
    var authState: AuthState
    var qrLink: Option<string>
    var chats: seq<Chat>
    var downloads: seq<DownloadTask>
    var loading: bool
    var socketConnected: bool
    /** The chat the sidebar selected; null until one is picked. */
    var activeChatId: Option<int>

    /** Loading is never shown over a live socket, and the download list
        never holds two tasks with the same id. */
    ghost predicate Valid()
      reads this
    {
      (socketConnected ==> !loading) && UniqueIds(downloads)
    }

    function CurrentScreen(): Screen
      reads this
    {
      ScreenFor(socketConnected, loading, authState)
    }

    constructor ()
      ensures Valid()
      ensures authState == LoggedOut && qrLink == None && chats == [] && downloads == []
      ensures loading && !socketConnected && activeChatId == None
      ensures CurrentScreen() == ConnectingScreen
    {
      authState := LoggedOut;
      qrLink := None;
      chats := [];
      downloads := [];
      loading := true;
      socketConnected := false;
      activeChatId := None;
    }

    /** `connection_status`: mirror the flag; on connect stop loading, ask
        for the auth state and re-apply a saved proxy; on disconnect start
        loading. */
    method OnConnectionStatus(connected: bool, savedProxy: Option<ProxyConfig>) returns (commands: seq<Command>)
      requires Valid()
      modifies this`socketConnected, this`loading
      ensures Valid()
      ensures socketConnected == connected && loading == !connected
      ensures connected ==> commands == [CheckAuthStatus] + (if savedProxy.Some? then [SetProxy(savedProxy.value)] else [])
      ensures !connected ==> commands == []
      ensures CurrentScreen() == ConnectingScreen <==> !connected
    {
      socketConnected := connected;
      commands := [];
      if connected {
        loading := false;
        commands := [CheckAuthStatus];
        if savedProxy.Some? {
          commands := commands + [SetProxy(savedProxy.value)];
        }
      } else {
        loading := true;
      }
    }

    /** `auth_update`: take the state, keep the old QR link unless a
        non-empty one arrives, stop loading. The effect keyed on the auth
        state then asks for the chat list when the state has just become
        READY. */
    method OnAuthUpdate(update: AuthUpdate) returns (commands: seq<Command>)
      requires Valid()
      modifies this`authState, this`qrLink, this`loading
      ensures Valid()
      ensures authState == update.state && !loading
      ensures qrLink == if update.qrLink.Some? && update.qrLink.value != "" then update.qrLink else old(qrLink)
      ensures CurrentScreen() != ConnectingScreen
      ensures CurrentScreen() == MainScreen <==> update.state == Ready
      ensures commands == if update.state == Ready && old(authState) != Ready then [GetChats] else []
    {
      commands := if update.state == Ready && authState != Ready then [GetChats] else [];
      authState := update.state;
      if update.qrLink.Some? && update.qrLink.value != "" {
        qrLink := update.qrLink;
      }
      loading := false;
    }

    method OnChatsUpdate(newChats: seq<Chat>)
      requires Valid()
      modifies this`chats
      ensures Valid() && chats == newChats
    {
      chats := newChats;
    }

    /** The sidebar's `onSelectChat`. */
    method SelectChat(id: int)
      requires Valid()
      modifies this`activeChatId
      ensures Valid() && activeChatId == Some(id)
    {
      activeChatId := Some(id);
    }

    /** `download_progress`: upsert the task into the download list. */
    method OnDownloadProgress(task: DownloadTask)
      requires Valid()
      modifies this`downloads
      ensures Valid()
      ensures downloads == Upsert(old(downloads), task)
    {
      UpsertIds(downloads, task);
      downloads := Upsert(downloads, task);
    }
  }
}
