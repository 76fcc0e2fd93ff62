/** The backend's pure record mapping (backend/server.ts): TDLib chats,
    messages, authorization states and proxy settings are turned into the
    shapes the frontend consumes. TDLib's untyped `_`-tagged objects become
    one datatype constructor per tag, carrying only the fields the backend
    reads. */
module Normalizer {
  import opened Common
  import opened Types

  // ---------------------------------------------------------------------
  // Provider (TDLib) records
  // ---------------------------------------------------------------------

  /** `file.local`: where the provider keeps the bytes and how far it got. */
  datatype LocalFile = LocalFile(
    path: string,
    isDownloadingActive: bool,
    isDownloadingCompleted: bool,
    downloadedSize: nat)

  /** A TDLib `file`; `uniqueId` is `file.remote.unique_id`. */
  datatype ProviderFile = ProviderFile(
    id: int,
    expectedSize: nat,
    uniqueId: string,
    local: LocalFile)

  datatype Minithumbnail = Minithumbnail(data: string)

  datatype PhotoSize = PhotoSize(photo: ProviderFile)

  /** `message.content`, one constructor per `_` tag the backend tells
      apart. Audio carries its album-cover thumbnail, which the backend
      ignores. */
  datatype MessageContent =
    | MessagePhoto(sizes: seq<PhotoSize>, photoThumbnail: Option<Minithumbnail>)
    | MessageVideo(videoFileName: string, videoThumbnail: Option<Minithumbnail>, video: ProviderFile)
    | MessageDocument(documentFileName: string, documentThumbnail: Option<Minithumbnail>, document: ProviderFile)
    | MessageAudio(audioFileName: string, albumCoverThumbnail: Option<Minithumbnail>, audio: ProviderFile)
    | MessageText(text: string)
    | OtherContent(tag: string)
  {
    predicate HasMedia() {
      MessagePhoto? || MessageVideo? || MessageDocument? || MessageAudio?
    }
  }

  datatype Message = Message(id: int, date: int, content: MessageContent)

  /** `chat.type`. TDLib sets `is_channel` only on supergroups; a basic
      group has no such field, so `chat.type.is_channel` reads as false. */
  datatype ProviderChatType =
    | ChatTypePrivate
    | ChatTypeSecret
    | ChatTypeBasicGroup
    | ChatTypeSupergroup(isChannel: bool)
  {
    predicate IsGroupLike() { ChatTypeBasicGroup? || ChatTypeSupergroup? }
    predicate ChannelFlag() { ChatTypeSupergroup? && isChannel }
  }

  datatype ProviderChat = ProviderChat(
    id: int,
    title: string,
    chatType: ProviderChatType,
    unreadCount: int,
    lastMessage: Option<Message>)

  // ---------------------------------------------------------------------
  // mapChat
  // ---------------------------------------------------------------------

  const MediaMessagePlaceholder: string := "Media message"

  /** `chat.last_message?.content?.text?.text`: only a text message has
      a text body. */
  function LastMessageText(chat: ProviderChat): Option<string> {
    match chat.lastMessage
    case Some(m) => if m.content.MessageText? then Some(m.content.text) else None
    case None => None
  }

  /** mapChat. `now` stands for `Date.now()`, used when the chat has no
      last message or its date is 0. */
  function MapChat(chat: ProviderChat, now: int): (r: Chat)
    ensures r.id == chat.id && r.title == chat.title && r.unreadCount == chat.unreadCount
    ensures r.photo == None
    ensures r.kind == Channel <==> chat.chatType.IsGroupLike() && chat.chatType.ChannelFlag()
    ensures r.kind == Group <==> chat.chatType.IsGroupLike() && !chat.chatType.ChannelFlag()
    ensures r.kind == Private <==> !chat.chatType.IsGroupLike()
    ensures r.lastMessage.Some? && r.lastMessage.value != ""
    ensures (match LastMessageText(chat)
             case Some(t) => r.lastMessage == Some(if t != "" then t else MediaMessagePlaceholder)
             case None => r.lastMessage == Some(MediaMessagePlaceholder))
    ensures chat.lastMessage.None? ==> r.timestamp == now
    ensures chat.lastMessage.Some? ==>
      r.timestamp == if chat.lastMessage.value.date == 0 then now else chat.lastMessage.value.date * 1000
  {
    var kind :=
      if chat.chatType.IsGroupLike() then (if chat.chatType.ChannelFlag() then Channel else Group)
      else Private;
    var text := LastMessageText(chat);
    var lastMessage := if text.Some? && text.value != "" then text.value else MediaMessagePlaceholder;
    var timestamp :=
      if chat.lastMessage.Some? && chat.lastMessage.value.date * 1000 != 0
      then chat.lastMessage.value.date * 1000 else now;
    Chat(chat.id, chat.title, None, Some(lastMessage), timestamp, chat.unreadCount, kind)
  }

  /** The kinds `basic_group` and `supergroup` that the frontend type
      allows are never produced by the backend. */
  lemma MapChatKinds(chat: ProviderChat, now: int)
    ensures MapChat(chat, now).kind in {Private, Group, Channel}
    ensures chat.chatType == ChatTypeBasicGroup ==> MapChat(chat, now).kind == Group
  {
  }

  /** get_chats: every chat the provider lists is mapped, in order. */
  function MapChats(chats: seq<ProviderChat>, now: int): (r: seq<Chat>)
    ensures |r| == |chats|
    ensures forall i :: 0 <= i < |chats| ==> r[i].id == chats[i].id && r[i].title == chats[i].title
  {
    seq(|chats|, i requires 0 <= i < |chats| => MapChat(chats[i], now))
  }

  /** Mapping is element-wise: a list of chats maps to the concatenation
      of the maps of its parts, and a single chat to its own map. */
  lemma MapChatsAppend(a: seq<ProviderChat>, b: seq<ProviderChat>, now: int)
    ensures MapChats(a + b, now) == MapChats(a, now) + MapChats(b, now)
    ensures MapChats([], now) == []
    ensures forall c :: MapChats([c], now) == [MapChat(c, now)]
  {
  }

  // ---------------------------------------------------------------------
  // mapMessageToFile
  // ---------------------------------------------------------------------

  /** What mapMessageToFile yields: a file, `null`, or a thrown TypeError
      (a photo whose `sizes` is empty: `sizes[-1]` is undefined and
      reading `.photo` of it throws). */
  datatype Mapped = MappedFile(file: TdFile) | NoFile | Threw

  /** The file type the content kind maps to. */
  function KindOf(content: MessageContent): (t: FileType)
    requires content.HasMedia()
    ensures t.IsConcrete()
  {
    match content
    case MessagePhoto(_, _) => Image
    case MessageVideo(_, _, _) => Video
    case MessageDocument(_, _, _) => Document
    case MessageAudio(_, _, _) => Music
  }

  /** `file_<id>.jpg` for images, `file_<id>.dat` for everything else. */
  function SynthesizedName(id: int, t: FileType): (name: string)
    ensures |name| > 9
  {
    "file_" + IntToString(id) + "." + Extension(t)
  }

  /** The `file_name` the content carries, "" for a photo. */
  function OwnFileName(content: MessageContent): string
    requires content.HasMedia()
  {
    match content
    case MessagePhoto(_, _) => ""
    case MessageVideo(n, _, _) => n
    case MessageDocument(n, _, _) => n
    case MessageAudio(n, _, _) => n
  }

  function Thumbnail(content: MessageContent): Option<string>
    requires content.HasMedia()
  {
    match content
    case MessagePhoto(_, t) => if t.Some? then Some(t.value.data) else None
    case MessageVideo(_, t, _) => if t.Some? then Some(t.value.data) else None
    case MessageDocument(_, t, _) => if t.Some? then Some(t.value.data) else None
    case MessageAudio(_, _, _) => None
  }

  /** The provider file a media message refers to; a photo uses its last
      (largest) size. */
  function FileData(content: MessageContent): ProviderFile
    requires content.HasMedia()
    requires content.MessagePhoto? ==> |content.sizes| > 0
  {
    match content
    case MessagePhoto(sizes, _) => sizes[|sizes| - 1].photo
    case MessageVideo(_, _, f) => f
    case MessageDocument(_, _, f) => f
    case MessageAudio(_, _, f) => f
  }

  /** mapMessageToFile. */
  function MapMessageToFile(m: Message): (r: Mapped)
    ensures r.NoFile? <==> !m.content.HasMedia()
    ensures r.Threw? <==> m.content.MessagePhoto? && |m.content.sizes| == 0
    ensures r.MappedFile? ==> r.file.fileType.IsConcrete() && r.file.date == m.date
    ensures r.MappedFile? ==>
      var fd := FileData(m.content);
      && r.file.id == fd.id && r.file.uniqueId == fd.uniqueId
      && r.file.path == Some(fd.local.path)
      && r.file.isDownloading == Some(fd.local.isDownloadingActive)
      && r.file.thumbnail == Thumbnail(m.content)
  {
    var c := m.content;
    if !c.HasMedia() then NoFile
    else if c.MessagePhoto? && |c.sizes| == 0 then Threw
    else
      var fd := FileData(c);
      var t := KindOf(c);
      var own := OwnFileName(c);
      MappedFile(TdFile(
        id := fd.id,
        uniqueId := fd.uniqueId,
        messageId := None,
        groupId := None,
        name := if own != "" then own else SynthesizedName(fd.id, t),
        text := None,
        size := fd.expectedSize,
        date := m.date,
        fileType := t,
        path := Some(fd.local.path),
        thumbnail := Thumbnail(c),
        isDownloading := Some(fd.local.isDownloadingActive),
        isDownloaded := None))
  }

  /** Content kinds map to types photo->Image, video->Video,
      document->Document, audio->Music; a photo takes the last entry of
      `sizes`, and audio never carries a thumbnail. */
  lemma MapMessageToFileKinds(m: Message)
    requires MapMessageToFile(m).MappedFile?
    ensures var f := MapMessageToFile(m).file;
      && (m.content.MessagePhoto? <==> f.fileType == Image)
      && (m.content.MessageVideo? <==> f.fileType == Video)
      && (m.content.MessageDocument? <==> f.fileType == Document)
      && (m.content.MessageAudio? <==> f.fileType == Music)
      && (m.content.MessagePhoto? ==> f.id == m.content.sizes[|m.content.sizes| - 1].photo.id)
      && (m.content.MessageAudio? ==> f.thumbnail == None)
      && f.size == FileData(m.content).expectedSize
      && f.groupId == None
  {
  }

  /** The name is the content's own `file_name` when non-empty, otherwise
      `file_<id>.jpg|.dat`; photos always get the synthesized name. */
  lemma MapMessageToFileName(m: Message)
    requires MapMessageToFile(m).MappedFile?
    ensures var f := MapMessageToFile(m).file;
      && (OwnFileName(m.content) != "" ==> f.name == OwnFileName(m.content))
      && (OwnFileName(m.content) == "" ==> f.name == SynthesizedName(f.id, f.fileType))
      && (m.content.MessagePhoto? ==> f.name == "file_" + IntToString(f.id) + ".jpg")
  {
  }

  function Extension(t: FileType): string {
    if t == Image then "jpg" else "dat"
  }

  /** A fallback name splits back into its id digits and its extension. */
  lemma SynthesizedNameParts(id: int, t: FileType)
    ensures var n := SynthesizedName(id, t);
      && |n| == |IntToString(id)| + 9
      && n[5..|n| - 4] == IntToString(id)
      && n[|n| - 3..] == Extension(t)
  {
  }

  /** Synthesized names determine the file id and whether the file is an
      image: two files with different ids never get the same fallback
      name. */
  lemma SynthesizedNameInjective(i: int, t: FileType, j: int, u: FileType)
    ensures SynthesizedName(i, t) == SynthesizedName(j, u) <==> i == j && (t == Image <==> u == Image)
  {
    var a, b := SynthesizedName(i, t), SynthesizedName(j, u);
    SynthesizedNameParts(i, t);
    SynthesizedNameParts(j, u);
    if a == b && i != j {
      IntToStringInjective(i, j);
    }
    if a == b {
      assert Extension(t) == Extension(u);
    }
  }

  // ---------------------------------------------------------------------
  // get_files: one page of history, mapped and stripped of nulls
  // ---------------------------------------------------------------------

  /** The files of a history page (one `getChatHistory` page of at most 50
      messages), or None when mapping one of the messages threw (the
      handler then logs and emits nothing). */
  function GetFiles(messages: seq<Message>): (r: Option<seq<TdFile>>)
    ensures r.Some? <==> forall i :: 0 <= i < |messages| ==> !MapMessageToFile(messages[i]).Threw?
    ensures r.Some? ==> |r.value| <= |messages|
    ensures r.Some? ==> forall k :: 0 <= k < |r.value| ==> r.value[k].fileType.IsConcrete()
    decreases |messages|
  {
    if messages == [] then Some([])
    else
      match MapMessageToFile(messages[0])
      case Threw => None
      case NoFile => GetFiles(messages[1..])
      case MappedFile(f) =>
        var rest := GetFiles(messages[1..]);
        if rest.Some? then Some([f] + rest.value) else None
  }

  /** A single message contributes its own file, nothing, or the failure. */
  lemma GetFilesSingle(m: Message)
    ensures GetFiles([m]) == match MapMessageToFile(m)
      case MappedFile(f) => Some([f])
      case NoFile => Some([])
      case Threw => None
  {
    assert [m][0] == m && [m][1..] == [];
    assert GetFiles([]) == Some([]);
    match MapMessageToFile(m)
    case MappedFile(f) => assert [f] + [] == [f];
    case NoFile =>
    case Threw =>
  }

  /** The handler maps a page element-wise: the files of a concatenation
      are the files of each part, in order, and it fails iff a part fails.
      With GetFilesSingle this pins the result down for every page. */
  lemma {:induction false} GetFilesAppend(a: seq<Message>, b: seq<Message>)
    ensures GetFiles(a + b) ==
      if GetFiles(a).Some? && GetFiles(b).Some? then Some(GetFiles(a).value + GetFiles(b).value) else None
    decreases |a|
  {
    if a == [] {
      assert a + b == b;
      assert GetFiles(a) == Some([]);
      if GetFiles(b).Some? {
        assert [] + GetFiles(b).value == GetFiles(b).value;
      }
    } else {
      assert (a + b)[0] == a[0] && (a + b)[1..] == a[1..] + b;
      GetFilesAppend(a[1..], b);
      match MapMessageToFile(a[0])
      case Threw =>
      case NoFile =>
      case MappedFile(f) =>
        if GetFiles(a[1..]).Some? && GetFiles(b).Some? {
          assert [f] + (GetFiles(a[1..]).value + GetFiles(b).value)
              == ([f] + GetFiles(a[1..]).value) + GetFiles(b).value;
        }
    }
  }

  /** How many messages of a page carry media. */
  function MediaCount(messages: seq<Message>): (n: nat)
    ensures n <= |messages|
    decreases |messages|
  {
    if messages == [] then 0
    else (if messages[0].content.HasMedia() then 1 else 0) + MediaCount(messages[1..])
  }

  /** Every media message of the page yields exactly one file, in page
      order: the files are the mapped media messages. */
  lemma {:induction false} GetFilesCount(messages: seq<Message>)
    requires GetFiles(messages).Some?
    ensures |GetFiles(messages).value| == MediaCount(messages)
    decreases |messages|
  {
    if messages != [] {
      GetFilesCount(messages[1..]);
    }
  }

  /** Each file of the result is the mapping of some message of the page. */
  lemma {:induction false} GetFilesFromMessages(messages: seq<Message>, k: nat)
    requires GetFiles(messages).Some? && k < |GetFiles(messages).value|
    ensures exists i :: 0 <= i < |messages| && MapMessageToFile(messages[i]) == MappedFile(GetFiles(messages).value[k])
    decreases |messages|
  {
    var r := GetFiles(messages).value;
    var m0 := MapMessageToFile(messages[0]);
    if m0.MappedFile? && k == 0 {
      assert MapMessageToFile(messages[0]) == MappedFile(r[0]);
    } else {
      var k' := if m0.MappedFile? then k - 1 else k;
      GetFilesFromMessages(messages[1..], k');
      var i :| 0 <= i < |messages[1..]| && MapMessageToFile(messages[1..][i]) == MappedFile(GetFiles(messages[1..]).value[k']);
      assert MapMessageToFile(messages[i + 1]) == MappedFile(r[k]);
    }
  }

  // ---------------------------------------------------------------------
  // Authorization states
  // ---------------------------------------------------------------------

  /** `update.authorization_state`. */
  datatype ProviderAuthState =
    | WaitTdlibParameters
    | WaitPhoneNumber
    | WaitEmailAddress
    | WaitEmailCode
    | WaitOtherDeviceConfirmation(link: string)
    | WaitCode
    | WaitRegistration
    | WaitPassword
    | AuthReady
    | LoggingOut
    | Closing
    | Closed

  /** The `auth_update` payload. */
  datatype AuthUpdate = AuthUpdate(state: AuthState, qrLink: Option<string>)

  /** The `updateAuthorizationState` switch. */
  function MapAuthState(s: ProviderAuthState): (r: AuthUpdate)
    ensures r.qrLink.Some? <==> s.WaitOtherDeviceConfirmation?
    ensures s.WaitOtherDeviceConfirmation? ==> r == AuthUpdate(QrCode, Some(s.link))
    ensures r.state == QrCode <==> s.WaitOtherDeviceConfirmation?
    ensures r.state == AwaitingCode <==> s.WaitCode?
    ensures r.state == AwaitingPassword <==> s.WaitPassword?
    ensures r.state == Ready <==> s.AuthReady?
    ensures r.state == LoggedOut <==> !(s.WaitOtherDeviceConfirmation? || s.WaitCode? || s.WaitPassword? || s.AuthReady?)
  {
    match s
    case WaitPhoneNumber => AuthUpdate(LoggedOut, None)
    case WaitOtherDeviceConfirmation(link) => AuthUpdate(QrCode, Some(link))
    case WaitCode => AuthUpdate(AwaitingCode, None)
    case WaitPassword => AuthUpdate(AwaitingPassword, None)
    case AuthReady => AuthUpdate(Ready, None)
    case _ => AuthUpdate(LoggedOut, None)
  }

  /** Every frontend state is reached by some provider state. */
  lemma MapAuthStateOnto(a: AuthState)
    ensures exists s :: MapAuthState(s).state == a
  {
    match a
    case LoggedOut => assert MapAuthState(WaitPhoneNumber).state == a;
    case AwaitingCode => assert MapAuthState(WaitCode).state == a;
    case AwaitingPassword => assert MapAuthState(WaitPassword).state == a;
    case Ready => assert MapAuthState(AuthReady).state == a;
    case QrCode => assert MapAuthState(WaitOtherDeviceConfirmation("")).state == a;
  }

  // ---------------------------------------------------------------------
  // set_proxy
  // ---------------------------------------------------------------------

  datatype ProxyTypeRequest =
    | ProxyTypeSocks5(username: string, password: string)
    | ProxyTypeHttp(username: string, password: string, httpOnly: bool)
    | ProxyTypeMtproto(secret: Option<string>)

  /** The provider call set_proxy makes. */
  datatype ProxyRequest =
    | DisableProxy
    | AddProxy(server: string, port: int, enable: bool, proxyType: ProxyTypeRequest)

  /** set_proxy: a disabled configuration disables the proxy; otherwise the
      proxy is added and enabled, with missing credentials sent as "". */
  function ProxyRequestFor(config: ProxyConfig): (r: ProxyRequest)
    ensures r.DisableProxy? <==> !config.enabled
    ensures r.AddProxy? ==> r.server == config.host && r.port == config.port && r.enable
    ensures r.AddProxy? ==> (r.proxyType.ProxyTypeSocks5? <==> config.proxyType == Socks5)
    ensures r.AddProxy? ==> (r.proxyType.ProxyTypeHttp? <==> config.proxyType == Http)
    ensures r.AddProxy? ==> (r.proxyType.ProxyTypeMtproto? <==> config.proxyType == Mtproto)
    ensures r.AddProxy? && !r.proxyType.ProxyTypeMtproto? ==>
      r.proxyType.username == config.username.GetOr("") && r.proxyType.password == config.password.GetOr("")
    ensures r.AddProxy? && r.proxyType.ProxyTypeHttp? ==> !r.proxyType.httpOnly
    ensures r.AddProxy? && r.proxyType.ProxyTypeMtproto? ==> r.proxyType.secret == config.secret
  {
    if !config.enabled then DisableProxy
    else
      var user := config.username.GetOr("");
      var pass := config.password.GetOr("");
      var t := match config.proxyType
        case Socks5 => ProxyTypeSocks5(user, pass)
        case Http => ProxyTypeHttp(user, pass, false)
        case Mtproto => ProxyTypeMtproto(config.secret);
      AddProxy(config.host, config.port, true, t)
  }
}
