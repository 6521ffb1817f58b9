/**
 * The classic sidebar (client/src/components/chat/sidebar.tsx): reusing a
 * listed chat before asking the server for a new one, the user search
 * conditions, the unread badge, the latest-message preview and the relative
 * time of the latest message. The create request's answer is an input.
 */
module Sidebar {
  import opened Maybe
  import opened Text
  import opened Schema
  import WhatsAppSidebar

  // ---------------------------------------------------------------------------
  // handleStartChat

  predicate IsChatWith(item: ChatItem, userId: int) {
    item.otherUser.id == userId
  }

  /**
   * `chats.find(chat => chat.otherUser.id === userId)`, searching from
   * position `from`: the position of the first match at or after `from`.
   */
  function FindChatWith(chats: seq<ChatItem>, userId: int, from: nat): (r: Option<nat>)
    requires from <= |chats|
    ensures r.Some? ==> from <= r.value < |chats| && IsChatWith(chats[r.value], userId)
    ensures r.Some? ==> forall j :: from <= j < r.value ==> !IsChatWith(chats[j], userId)
    ensures r.None? <==> forall j :: from <= j < |chats| ==> !IsChatWith(chats[j], userId)
    decreases |chats| - from
  {
    if from == |chats| then None
    else if IsChatWith(chats[from], userId) then Some(from)
    else FindChatWith(chats, userId, from + 1)
  }

  /** The body of `POST /api/chats`. */
  datatype CreateRequest = CreateRequest(participant1Id: int, participant2Id: int)

  datatype StartChatOutcome =
    | SelectedExisting(selected: ChatItem)                          // no request made
    | SelectedCreated(request: CreateRequest, selected: ChatItem)
    | CreateFailed(request: CreateRequest)                          // nothing selected

  /**
   * `handleStartChat(target)`: the first listed chat whose other user is the
   * target is selected without a request; only when there is none is a chat
   * created, with the current user as participant 1 and the target as
   * participant 2. `reply` is the created chat, or absent when the request
   * failed.
   */
  function StartChat(chats: seq<ChatItem>, currentUserId: int, target: User, reply: Option<ChatRecord>): (o: StartChatOutcome)
    ensures o.SelectedExisting? <==> exists j :: 0 <= j < |chats| && IsChatWith(chats[j], target.id)
    ensures o.SelectedExisting? ==>
      exists j :: 0 <= j < |chats| && chats[j] == o.selected && IsChatWith(chats[j], target.id)
        && forall i :: 0 <= i < j ==> !IsChatWith(chats[i], target.id)
    ensures !o.SelectedExisting? ==> o.request == CreateRequest(currentUserId, target.id)
    ensures o.SelectedCreated? <==> !o.SelectedExisting? && reply.Some?
    ensures o.SelectedCreated? ==> o.selected == ChatItem(reply.value, target, None, None)
  {
    match FindChatWith(chats, target.id, 0)
    case Some(j) => SelectedExisting(chats[j])
    case None =>
      var request := CreateRequest(currentUserId, target.id);
      if reply.Some? then SelectedCreated(request, ChatItem(reply.value, target, None, None))
      else CreateFailed(request)
  }

  /** No two listed chats have the same other user. */
  predicate OnePerPartner(chats: seq<ChatItem>) {
    forall i, j :: 0 <= i < j < |chats| ==> chats[i].otherUser.id != chats[j].otherUser.id
  }

  /**
   * Starting a chat never adds a second chat with a partner already listed:
   * a list with one chat per partner keeps that property when the created
   * chat is added to it.
   */
  lemma StartChatKeepsOnePerPartner(chats: seq<ChatItem>, currentUserId: int, target: User, reply: Option<ChatRecord>)
    requires OnePerPartner(chats)
    ensures var o := StartChat(chats, currentUserId, target, reply);
      o.SelectedCreated? ==> OnePerPartner(chats + [o.selected])
  {
    var o := StartChat(chats, currentUserId, target, reply);
    if o.SelectedCreated? {
      var all := chats + [o.selected];
      forall i, j | 0 <= i < j < |all| ensures all[i].otherUser.id != all[j].otherUser.id {
        if j == |chats| {
          assert !IsChatWith(chats[i], target.id);
        } else {
          assert all[i] == chats[i] && all[j] == chats[j];
        }
      }
    }
  }

  // ---------------------------------------------------------------------------
  // Search dialog

  /** The user search `GET /api/search-users?q=…&excludeId=…`. */
  datatype SearchRequest = SearchRequest(query: string, excludeId: int)

  /**
   * The search query runs only for a query whose `length` (UTF-16 code
   * units, untrimmed) is above two, and sends the query as typed. Any query
   * of three or more characters runs; a query of two characters runs
   * exactly when one of them lies outside the Basic Multilingual Plane.
   */
  function SearchRequestOf(searchQuery: string, currentUserId: int): (r: Option<SearchRequest>)
    ensures r.Some? <==> Utf16Length(searchQuery) > 2
    ensures r.Some? ==> r.value == SearchRequest(searchQuery, currentUserId)
    ensures |searchQuery| > 2 ==> r.Some?
    ensures |searchQuery| < 2 ==> r.None?
  {
    if Utf16Length(searchQuery) > 2 then Some(SearchRequest(searchQuery, currentUserId)) else None
  }

  /** Two astral-plane characters are four code units, so they are searched for. */
  lemma TwoEmojiQueryIsSearched(currentUserId: int)
    ensures Utf16Length("😀😀") == 4
    ensures SearchRequestOf("😀😀", currentUserId).Some?
  {
    assert "😀😀"[1..] == "😀";
    assert "😀"[1..] == "";
  }

  /** What the dialog shows below the search box. */
  datatype SearchPanel = ResultList(users: seq<User>) | NoUsersFound | Blank

  /** The dialog's two conditional blocks; `results` is the query's data, absent before it loads. */
  function SearchPanelOf(searchQuery: string, results: Option<seq<User>>): (p: SearchPanel)
    ensures p.ResultList? <==> results.Some? && |results.value| > 0
    ensures p.ResultList? ==> p.users == results.value
    ensures p.NoUsersFound? <==> Utf16Length(searchQuery) > 2 && (results.None? || |results.value| == 0)
  {
    if results.Some? && |results.value| > 0 then ResultList(results.value)
    else if Utf16Length(searchQuery) > 2 then NoUsersFound
    else Blank
  }

  /** "No users found" is shown only for a query the search was issued for. */
  lemma NoUsersOnlyAfterSearch(searchQuery: string, currentUserId: int, results: Option<seq<User>>)
    ensures SearchPanelOf(searchQuery, results).NoUsersFound? ==> SearchRequestOf(searchQuery, currentUserId).Some?
  {
  }

  // ---------------------------------------------------------------------------
  // Chat row: badge and preview

  /**
   * The unread badge: shown exactly when the local map holds a positive
   * count for the chat, and then showing that count.
   */
  function UnreadBadge(unreadCounts: map<int, int>, chatId: int): (b: Option<int>)
    ensures b.Some? <==> chatId in unreadCounts && unreadCounts[chatId] > 0
    ensures b.Some? ==> b.value == unreadCounts[chatId] && b.value > 0
  {
    if chatId in unreadCounts && unreadCounts[chatId] > 0 then Some(unreadCounts[chatId]) else None
  }

  /**
   * This sidebar reads only the local map, the WhatsApp-style one also the
   * server's count: a badge here means a dot there, and without a positive
   * server count the two agree.
   */
  lemma BadgeAgreesWithDot(unreadCounts: map<int, int>, chatId: int, apiCount: Option<int>)
    ensures UnreadBadge(unreadCounts, chatId).Some? ==> WhatsAppSidebar.ShowUnreadDot(apiCount, unreadCounts, chatId)
    ensures WhatsAppSidebar.OrZero(apiCount) <= 0 ==>
      (UnreadBadge(unreadCounts, chatId).Some? <==> WhatsAppSidebar.ShowUnreadDot(apiCount, unreadCounts, chatId))
  {
  }

  const PhotoPreview: string := "📷 Photo"
  const FilePreview: string := "📎 File"
  const EmptyChatPreview: string := "Start a conversation..."

  /**
   * The latest-message line: the text itself for a text message, fixed
   * labels for an image and for every other type, and an invitation when the
   * chat has no message.
   */
  function Preview(lastMessage: Option<Message>): (s: string)
    ensures lastMessage.None? ==> s == EmptyChatPreview
    ensures lastMessage.Some? && lastMessage.value.messageType == TextType ==> s == lastMessage.value.content
    ensures lastMessage.Some? && lastMessage.value.messageType == ImageType ==> s == PhotoPreview
    ensures lastMessage.Some? && lastMessage.value.messageType !in {TextType, ImageType} ==> s == FilePreview
  {
    match lastMessage
    case None => EmptyChatPreview
    case Some(m) =>
      if m.messageType == TextType then m.content
      else if m.messageType == ImageType then PhotoPreview
      else FilePreview
  }

  /** Only a text message can make the preview show something other than the fixed labels. */
  lemma PreviewIsFixedUnlessText(lastMessage: Option<Message>)
    ensures Preview(lastMessage) !in {PhotoPreview, FilePreview, EmptyChatPreview} ==>
      lastMessage.Some? && lastMessage.value.messageType == TextType
  {
  }

  // ---------------------------------------------------------------------------
  // formatLastMessageTime

  /**
   * This sidebar's own copy of `formatLastMessageTime`, with the literal
   * "now". It agrees with the WhatsApp-style sidebar's buckets.
   */
  function FormatLastMessageTime(nowMs: int, sentMs: int, dateLabel: string): (s: string)
    ensures s == WhatsAppSidebar.FormatLastMessageTime(nowMs, sentMs, "now", dateLabel)
  {
    var diffMs := nowMs - sentMs;
    var diffMins := diffMs / 60000;
    var diffHours := diffMs / 3600000;
    var diffDays := diffMs / 86400000;
    if diffMins < 1 then "now"
    else if diffMins < 60 then IntToString(diffMins) + "m"
    else if diffHours < 24 then IntToString(diffHours) + "h"
    else if diffDays < 7 then IntToString(diffDays) + "d"
    else dateLabel
  }
}
