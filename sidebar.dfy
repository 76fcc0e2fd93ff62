/** The chat list (components/Sidebar.tsx): the search filter and what
    each chat row shows — avatar colour, kind icon, unread badge and the
    highlight of the selected chat. */
module Sidebar {
  import opened Common
  import opened Types
  import opened Normalizer

  // ---------------------------------------------------------------------
  // Search
  // ---------------------------------------------------------------------

  /** A chat is kept iff its lowercased title contains the lowercased
      search term. */
  predicate ChatMatches(c: Chat, term: string) {
    Contains(ToLower(c.title), ToLower(term))
  }

  /** `filteredChats`, in list order. */
  function FilteredChats(chats: seq<Chat>, term: string): (r: seq<Chat>)
    ensures |r| <= |chats|
    ensures IsSubsequence(r, chats)
    ensures forall i :: 0 <= i < |r| ==> r[i] in chats && ChatMatches(r[i], term)
    ensures forall i :: 0 <= i < |chats| && ChatMatches(chats[i], term) ==> chats[i] in r
    ensures forall c :: multiset(r)[c] == if ChatMatches(c, term) then multiset(chats)[c] else 0
  {
    Filter(chats, c => ChatMatches(c, term))
  }

  /** An empty search term keeps every chat, in order. */
  lemma FilteredChatsEmptyTerm(chats: seq<Chat>)
    ensures FilteredChats(chats, "") == chats
  {
    forall c: Chat ensures ChatMatches(c, "") {
      ContainsEmpty(ToLower(c.title));
    }
    FilterAll(chats, c => ChatMatches(c, ""));
  }

  /** A term longer than every title matches no chat. */
  lemma FilteredChatsLongTerm(chats: seq<Chat>, term: string)
    requires forall i :: 0 <= i < |chats| ==> |chats[i].title| < |term|
    ensures FilteredChats(chats, term) == []
  {
    forall i | 0 <= i < |chats| ensures !ChatMatches(chats[i], term) {
      if ChatMatches(chats[i], term) {
        ContainsLength(ToLower(chats[i].title), ToLower(term));
      }
    }
  }

  // ---------------------------------------------------------------------
  // Row decorations
  // ---------------------------------------------------------------------

  datatype ChatIcon = UsersIcon | MegaphoneIcon | UserIcon

  /** Users for a group, a megaphone for a channel, a single user for
      every other kind. */
  function IconFor(kind: ChatKind): ChatIcon {
    match kind
    case Group => UsersIcon
    case Channel => MegaphoneIcon
    case _ => UserIcon
  }

  predicate ShowUnreadBadge(c: Chat) {
    c.unreadCount > 0
  }

  /** The avatar background classes, indexed by the chat id. */
  const AvatarPalette: seq<string> := ["bg-indigo-500", "bg-pink-500", "bg-green-500", "bg-blue-500", "bg-orange-500"]

  /** The colour as written: the palette entry at `chat.id % 5` with
      JavaScript's remainder, which is negative for a negative id and then
      indexes no entry (None stands for `undefined`). */
  function AvatarColourAsWritten(id: int): (r: Option<string>)
    ensures r.Some? <==> id >= 0 || JsRemainder(id, 5) == 0
    ensures r.Some? ==> r.value in AvatarPalette
  {
    var k := JsRemainder(id, 5);
    if 0 <= k < |AvatarPalette| then Some(AvatarPalette[k]) else None
  }

  /** Group and channel ids from the provider are negative: the id -1
      gets no colour. */
  lemma AvatarColourUndefinedForNegativeId()
    ensures JsRemainder(-1, 5) == -1
    ensures AvatarColourAsWritten(-1) == None
  {
  }

  /** The colour as intended: a palette entry for every id, by the
      non-negative remainder. */
  function AvatarColour(id: int): (r: string)
    ensures r in AvatarPalette
    ensures r == AvatarPalette[id % 5]
  {
    AvatarPalette[id % 5]
  }

  /** The intended colour agrees with the written one wherever the written
      one is defined, so only negative ids change. */
  lemma AvatarColourAgrees(id: int)
    ensures AvatarColourAsWritten(id).Some? ==> AvatarColourAsWritten(id).value == AvatarColour(id)
    ensures id >= 0 ==> AvatarColourAsWritten(id) == Some(AvatarColour(id))
  {
    var k := JsRemainder(id, 5);
    if id < 0 && k == 0 {
      assert id == TruncDiv(id, 5) * 5;
      assert id % 5 == 0;
    }
  }

  /** What one row shows. Rows use the intended colour, AvatarColour; the
      colour as written differs from it only where it is undefined. */
  datatype ChatRow = ChatRow(avatarColour: string, icon: ChatIcon, unreadBadge: bool, highlighted: bool)

  function RowFor(c: Chat, activeChatId: Option<int>): ChatRow {
    ChatRow(AvatarColour(c.id), IconFor(c.kind), ShowUnreadBadge(c), activeChatId == Some(c.id))
  }

  /** For a chat as the backend maps it: the icon is Users exactly for a
      non-channel group, the megaphone exactly for a channel, and a single
      user for private and secret chats; the badge shows iff the provider
      reports unread messages; every row has a palette colour. */
  lemma RowForMappedChat(chat: ProviderChat, now: int, activeChatId: Option<int>)
    ensures RowFor(MapChat(chat, now), activeChatId).icon == UsersIcon <==>
      chat.chatType.IsGroupLike() && !chat.chatType.ChannelFlag()
    ensures RowFor(MapChat(chat, now), activeChatId).icon == MegaphoneIcon <==>
      chat.chatType.IsGroupLike() && chat.chatType.ChannelFlag()
    ensures RowFor(MapChat(chat, now), activeChatId).icon == UserIcon <==> !chat.chatType.IsGroupLike()
    ensures RowFor(MapChat(chat, now), activeChatId).unreadBadge <==> chat.unreadCount > 0
    ensures RowFor(MapChat(chat, now), activeChatId).avatarColour in AvatarPalette
    ensures chat.id >= 0 ==>
      AvatarColourAsWritten(chat.id) == Some(RowFor(MapChat(chat, now), activeChatId).avatarColour)
    ensures RowFor(MapChat(chat, now), activeChatId).highlighted <==> activeChatId == Some(chat.id)
  {
    MapChatKinds(chat, now);
    AvatarColourAgrees(chat.id);
  }
}
