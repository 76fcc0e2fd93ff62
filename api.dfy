/** The frontend's ApiService (services/api.ts): a registry of listeners
    per event name that the socket handlers notify, and the command methods,
    each of which emits one socket message to the backend. A JavaScript
    callback is known only by its identity, so it is modelled as an opaque
    handle; calling it is recorded as an invocation. */
module Api {
  import opened Common
  import opened Types
  import opened Normalizer
  import opened Tracker

  /** The identity of a registered callback (`cb !== callback` compares
      references). */
  type Callback = nat

  /** The data an event delivers to its listeners. */
  datatype EventData =
    | ConnectionStatus(connected: bool)
    | AuthUpdated(update: AuthUpdate)
    | ChatsUpdated(chats: seq<Chat>)
    | FilesUpdated(files: seq<TdFile>)
    | DownloadProgressed(task: DownloadTask)
    | DownloadCompleted(complete: DownloadComplete)

  datatype Invocation = Invocation(callback: Callback, data: EventData)

  // ---------------------------------------------------------------------
  // The listener registry as a value
  // ---------------------------------------------------------------------

  type Listeners = map<string, seq<Callback>>

  /** The callbacks registered for an event; none when it has no list. */
  function Registered(listeners: Listeners, event: string): seq<Callback> {
    if event in listeners then listeners[event] else []
  }

  /** `on`: append, creating the list when absent. */
  function AfterOn(listeners: Listeners, event: string, cb: Callback): (r: Listeners)
    ensures Registered(r, event) == Registered(listeners, event) + [cb]
    ensures r.Keys == listeners.Keys + {event}
    ensures forall e :: e != event && e in listeners ==> r[e] == listeners[e]
  {
    listeners[event := Registered(listeners, event) + [cb]]
  }

  /** `off`: drop every occurrence of the callback; nothing at all when the
      event has no list. */
  function AfterOff(listeners: Listeners, event: string, cb: Callback): (r: Listeners)
    ensures event !in listeners ==> r == listeners
    ensures r.Keys == listeners.Keys
    ensures cb !in Registered(r, event)
    ensures IsSubsequence(Registered(r, event), Registered(listeners, event))
    ensures forall i :: 0 <= i < |Registered(listeners, event)| && Registered(listeners, event)[i] != cb ==>
      Registered(listeners, event)[i] in Registered(r, event)
    ensures multiset(Registered(r, event)) == multiset(Registered(listeners, event))[cb := 0]
    ensures forall e :: e != event && e in listeners ==> r[e] == listeners[e]
  {
    if event !in listeners then listeners
    else listeners[event := Without(listeners[event], cb)]
  }

  /** Registering a callback that was not registered and then removing it
      gives the event back its original list. */
  lemma OnThenOff(listeners: Listeners, event: string, cb: Callback)
    requires cb !in Registered(listeners, event)
    ensures Registered(AfterOff(AfterOn(listeners, event, cb), event, cb), event) == Registered(listeners, event)
    ensures forall e :: e != event ==>
      Registered(AfterOff(AfterOn(listeners, event, cb), event, cb), e) == Registered(listeners, e)
  {
    WithoutAppended(Registered(listeners, event), cb);
  }

  // ---------------------------------------------------------------------
  // Commands and the socket messages they emit
  // ---------------------------------------------------------------------

  /** One command method of ApiService, with its arguments. */
  datatype Command =
    | CheckAuthStatus
    | SendPhoneNumber(phone: string)
    | VerifyCode(code: string)
    | VerifyPassword(password: string)
    | RequestQrCode
    | Logout
    | GetChats
    | GetFiles(chatId: int)
    | SetProxy(config: ProxyConfig)
    | StartDownload(fileId: int, fileName: string, totalSize: int)
    | PauseDownload(pauseId: int)
    | ResumeDownload(resumeId: int)
    | CancelDownload(cancelId: int)
    | ClearCompleted

  datatype Payload =
    | NoPayload
    | TextPayload(text: string)
    | IdPayload(id: int)
    | ProxyPayload(config: ProxyConfig)
    | DownloadPayload(fileId: int, fileName: string, totalSize: int)

  datatype SocketMessage = SocketMessage(event: string, payload: Payload)

  /** The one socket message each command emits. */
  function Wire(c: Command): SocketMessage {
    match c
    case CheckAuthStatus => SocketMessage("get_auth_state", NoPayload)
    case SendPhoneNumber(p) => SocketMessage("login_phone", TextPayload(p))
    case VerifyCode(code) => SocketMessage("login_code", TextPayload(code))
    case VerifyPassword(p) => SocketMessage("login_password", TextPayload(p))
    case RequestQrCode => SocketMessage("request_qr", NoPayload)
    case Logout => SocketMessage("logout", NoPayload)
    case GetChats => SocketMessage("get_chats", NoPayload)
    case GetFiles(id) => SocketMessage("get_files", IdPayload(id))
    case SetProxy(config) => SocketMessage("set_proxy", ProxyPayload(config))
    case StartDownload(id, name, size) => SocketMessage("download_file", DownloadPayload(id, name, size))
    case PauseDownload(id) => SocketMessage("pause_download", IdPayload(id))
    case ResumeDownload(id) => SocketMessage("resume_download", IdPayload(id))
    case CancelDownload(id) => SocketMessage("cancel_download", IdPayload(id))
    case ClearCompleted => SocketMessage("clear_completed_downloads", NoPayload)
  }

  /** The backend's socket handlers: which handler a message reaches and
      with what arguments; None when the backend has no handler for it. */
  function Route(m: SocketMessage): (r: Option<Command>)
    ensures r.Some? ==> Wire(r.value) == m
  {
    match m.payload
    case NoPayload =>
      if m.event == "get_auth_state" then Some(CheckAuthStatus)
      else if m.event == "request_qr" then Some(RequestQrCode)
      else if m.event == "logout" then Some(Logout)
      else if m.event == "get_chats" then Some(GetChats)
      else None
    case TextPayload(t) =>
      if m.event == "login_phone" then Some(SendPhoneNumber(t))
      else if m.event == "login_code" then Some(VerifyCode(t))
      else if m.event == "login_password" then Some(VerifyPassword(t))
      else None
    case IdPayload(id) =>
      if m.event == "get_files" then Some(GetFiles(id))
      else if m.event == "cancel_download" then Some(CancelDownload(id))
      else None
    case ProxyPayload(config) =>
      if m.event == "set_proxy" then Some(SetProxy(config)) else None
    case DownloadPayload(id, name, size) =>
      if m.event == "download_file" then Some(StartDownload(id, name, size)) else None
  }

  /** Commands the backend handles arrive unchanged; pause, resume and
      clear-completed are sent but no backend handler receives them. */
  lemma WireRoute(c: Command)
    ensures Route(Wire(c)) == if c.PauseDownload? || c.ResumeDownload? || c.ClearCompleted? then None else Some(c)
  {
  }

  /** Different commands emit different messages. */
  lemma WireInjective(c: Command, d: Command)
    requires c != d
    ensures Wire(c) != Wire(d)
  {
    WireRoute(c);
    WireRoute(d);
  }

  // ---------------------------------------------------------------------
  // The service object
  // ---------------------------------------------------------------------

  class ApiService {
    var listeners: Listeners
    /** The socket messages emitted so far, oldest first. */
    var sent: seq<SocketMessage>

    constructor ()
      ensures listeners == map[] && sent == []
    {
      listeners := map[];
      sent := [];
    }

    method On(event: string, cb: Callback)
      modifies this`listeners
      ensures listeners == AfterOn(old(listeners), event, cb)
    {
      if event !in listeners {
        listeners := listeners[event := []];
      }
      listeners := listeners[event := listeners[event] + [cb]];
    }

    method Off(event: string, cb: Callback)
      modifies this`listeners
      ensures listeners == AfterOff(old(listeners), event, cb)
    {
      if event !in listeners {
        return;
      }
      listeners := listeners[event := Without(listeners[event], cb)];
    }

    /** `emitEvent`: call every callback registered for the event once, in
        registration order, with the event's data. */
    method EmitEvent(event: string, data: EventData) returns (calls: seq<Invocation>)
      ensures |calls| == |Registered(listeners, event)|
      ensures forall k :: 0 <= k < |calls| ==> calls[k] == Invocation(Registered(listeners, event)[k], data)
    {
      calls := [];
      if event in listeners {
        var list := listeners[event];
        var i := 0;
        while i < |list|
          invariant 0 <= i <= |list|
          invariant |calls| == i
          invariant forall k :: 0 <= k < i ==> calls[k] == Invocation(list[k], data)
        {
          calls := calls + [Invocation(list[i], data)];
          i := i + 1;
        }
      }
    }

    /** A command method: emit its one socket message. */
    method Send(c: Command)
      modifies this`sent
      ensures sent == old(sent) + [Wire(c)]
    {
      sent := sent + [Wire(c)];
    }
  }
}
