/** The records and enumerations shared by the backend and the frontend
    (types.ts). String-valued enums travel over the socket as their string
    values; each has a name function and a parser that inverts it. */
module Types {
  import opened Common

  // ---------------------------------------------------------------------
  // Authentication state
  // ---------------------------------------------------------------------

  datatype AuthState = LoggedOut | AwaitingCode | AwaitingPassword | Ready | QrCode

  const AllAuthStates: seq<AuthState> := [LoggedOut, AwaitingCode, AwaitingPassword, Ready, QrCode]

  function AuthStateName(s: AuthState): string {
    match s
    case LoggedOut => "LOGGED_OUT"
    case AwaitingCode => "AWAITING_CODE"
    case AwaitingPassword => "AWAITING_PASSWORD"
    case Ready => "READY"
    case QrCode => "QR_CODE"
  }

  function ParseAuthState(name: string): (r: Option<AuthState>)
    ensures r.Some? ==> AuthStateName(r.value) == name
  {
    if name == "LOGGED_OUT" then Some(LoggedOut)
    else if name == "AWAITING_CODE" then Some(AwaitingCode)
    else if name == "AWAITING_PASSWORD" then Some(AwaitingPassword)
    else if name == "READY" then Some(Ready)
    else if name == "QR_CODE" then Some(QrCode)
    else None
  }

  /** The enum has exactly five members, each with its own string value,
      and the frontend reads back what the backend sends. */
  lemma AuthStateRoundTrip(s: AuthState)
    ensures s in AllAuthStates
    ensures ParseAuthState(AuthStateName(s)) == Some(s)
  {
  }

  // ---------------------------------------------------------------------
  // Chats
  // ---------------------------------------------------------------------

  datatype ChatKind = Private | Group | Channel | BasicGroup | Supergroup

  datatype Chat = Chat(
    id: int,
    title: string,
    photo: Option<string>,
    lastMessage: Option<string>,
    timestamp: int,
    unreadCount: int,
    kind: ChatKind)

  // ---------------------------------------------------------------------
  // Files
  // ---------------------------------------------------------------------

  /** `All` is the filter wildcard; the other four are the kinds a file has. */
  datatype FileType = All | Image | Video | Document | Music {
    predicate IsConcrete() { !All? }
  }

  /** `Object.values(FileType)`: the filter tabs, in declaration order. */
  const FileTypeTabs: seq<FileType> := [All, Image, Video, Document, Music]

  function FileTypeName(t: FileType): string {
    match t
    case All => "All"
    case Image => "Image"
    case Video => "Video"
    case Document => "Document"
    case Music => "Music"
  }

  function ParseFileType(name: string): (r: Option<FileType>)
    ensures r.Some? ==> FileTypeName(r.value) == name
  {
    if name == "All" then Some(All)
    else if name == "Image" then Some(Image)
    else if name == "Video" then Some(Video)
    else if name == "Document" then Some(Document)
    else if name == "Music" then Some(Music)
    else None
  }

  /** Every file type has a tab, and the backend's type strings parse back
      to the type the frontend filters on. */
  lemma FileTypeRoundTrip(t: FileType)
    ensures t in FileTypeTabs
    ensures ParseFileType(FileTypeName(t)) == Some(t)
  {
  }

  /** TdFile: a downloadable attachment. `id` is the provider file id used
      for downloading; `groupId` is the album id, documented as "0" when
      the message is not part of an album. */
  datatype TdFile = TdFile(
    id: int,
    uniqueId: string,
    messageId: Option<int>,
    groupId: Option<string>,
    name: string,
    text: Option<string>,
    size: nat,
    date: int,
    fileType: FileType,
    path: Option<string>,
    thumbnail: Option<string>,
    isDownloading: Option<bool>,
    isDownloaded: Option<bool>)

  // ---------------------------------------------------------------------
  // Download tasks
  // ---------------------------------------------------------------------

  datatype TaskStatus = Pending | Downloading | Paused | Completed | Error | Cancelled

  function TaskStatusName(s: TaskStatus): string {
    match s
    case Pending => "pending"
    case Downloading => "downloading"
    case Paused => "paused"
    case Completed => "completed"
    case Error => "error"
    case Cancelled => "cancelled"
  }

  function ParseTaskStatus(name: string): (r: Option<TaskStatus>)
    ensures r.Some? ==> TaskStatusName(r.value) == name
  {
    if name == "pending" then Some(Pending)
    else if name == "downloading" then Some(Downloading)
    else if name == "paused" then Some(Paused)
    else if name == "completed" then Some(Completed)
    else if name == "error" then Some(Error)
    else if name == "cancelled" then Some(Cancelled)
    else None
  }

  lemma TaskStatusRoundTrip(s: TaskStatus)
    ensures ParseTaskStatus(TaskStatusName(s)) == Some(s)
  {
  }

  /** DownloadTask: `id` correlates to TdFile.id; `progress` is a
      percentage, documented to lie in 0..100. */
  datatype DownloadTask = DownloadTask(
    id: int,
    fileName: string,
    progress: int,
    speed: int,
    downloadedSize: int,
    status: TaskStatus,
    totalSize: int)

  // ---------------------------------------------------------------------
  // Proxy settings
  // ---------------------------------------------------------------------

  datatype ProxyType = Socks5 | Http | Mtproto

  datatype ProxyConfig = ProxyConfig(
    enabled: bool,
    proxyType: ProxyType,
    host: string,
    port: int,
    username: Option<string>,
    password: Option<string>,
    secret: Option<string>)
}
