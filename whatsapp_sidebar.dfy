/**
 * The chat list of the WhatsApp-style sidebar
 * (client/src/components/chat/whatsapp-sidebar.tsx): the relative time of a
 * chat's latest message, the merge of the two unread counts behind the
 * unread dot, and when a user search is issued. Clock readings are inputs
 * in milliseconds; translated and locale-formatted texts are inputs too.
 */
module WhatsAppSidebar {
  import opened Maybe
  import opened Text
  import opened Schema
  import opened Clock

  const MsPerWeek: int := 7 * MsPerDay

  // ---------------------------------------------------------------------------
  // formatLastMessageTime

  /** The bucket a message's age falls in. */
  datatype RelativeTime =
    | JustNow
    | MinutesAgo(minutes: int)
    | HoursAgo(hours: int)
    | DaysAgo(days: int)
    | OnDate                 // a week or more: the message's locale date

  /**
   * The bucket for an age of `diffMs` milliseconds. `Math.floor` of a
   * division by a positive constant is Dafny's `/` (whose remainder is never
   * negative), so messages dated in the future are "now" as well.
   */
  function LastMessageTime(diffMs: int): (r: RelativeTime)
    ensures r.JustNow? <==> diffMs < MsPerMinute
    ensures r.MinutesAgo? <==> MsPerMinute <= diffMs < MsPerHour
    ensures r.HoursAgo? <==> MsPerHour <= diffMs < MsPerDay
    ensures r.DaysAgo? <==> MsPerDay <= diffMs < MsPerWeek
    ensures r.OnDate? <==> MsPerWeek <= diffMs
    ensures r.MinutesAgo? ==>
      1 <= r.minutes <= 59 && r.minutes * MsPerMinute <= diffMs < (r.minutes + 1) * MsPerMinute
    ensures r.HoursAgo? ==>
      1 <= r.hours <= 23 && r.hours * MsPerHour <= diffMs < (r.hours + 1) * MsPerHour
    ensures r.DaysAgo? ==>
      1 <= r.days <= 6 && r.days * MsPerDay <= diffMs < (r.days + 1) * MsPerDay
  {
    var diffMins := diffMs / MsPerMinute;
    var diffHours := diffMs / MsPerHour;
    var diffDays := diffMs / MsPerDay;
    if diffMins < 1 then JustNow
    else if diffMins < 60 then MinutesAgo(diffMins)
    else if diffHours < 24 then HoursAgo(diffHours)
    else if diffDays < 7 then DaysAgo(diffDays)
    else OnDate
  }

  /** The text of a bucket, given the "now" label and the locale date. */
  function RelativeTimeText(r: RelativeTime, nowLabel: string, dateLabel: string): string {
    match r
    case JustNow => nowLabel
    case MinutesAgo(n) => IntToString(n) + "m"
    case HoursAgo(n) => IntToString(n) + "h"
    case DaysAgo(n) => IntToString(n) + "d"
    case OnDate => dateLabel
  }

  /**
   * `formatLastMessageTime` at clock `nowMs` for a message sent at `sentMs`;
   * this sidebar's "now" label is the translation `t('now')`. Under a week
   * the text starts with the number of whole units elapsed.
   */
  function FormatLastMessageTime(nowMs: int, sentMs: int, nowLabel: string, dateLabel: string): (s: string)
    ensures nowMs - sentMs < MsPerMinute ==> s == nowLabel
    ensures MsPerMinute <= nowMs - sentMs < MsPerHour ==> s == IntToString((nowMs - sentMs) / MsPerMinute) + "m"
    ensures MsPerHour <= nowMs - sentMs < MsPerDay ==> s == IntToString((nowMs - sentMs) / MsPerHour) + "h"
    ensures MsPerDay <= nowMs - sentMs < MsPerWeek ==> s == IntToString((nowMs - sentMs) / MsPerDay) + "d"
    ensures MsPerMinute <= nowMs - sentMs < MsPerHour ==>
      LeadingInt(s) == Some((nowMs - sentMs) / MsPerMinute) && s[|s| - 1] == 'm'
    ensures MsPerHour <= nowMs - sentMs < MsPerDay ==>
      LeadingInt(s) == Some((nowMs - sentMs) / MsPerHour) && s[|s| - 1] == 'h'
    ensures MsPerDay <= nowMs - sentMs < MsPerWeek ==>
      LeadingInt(s) == Some((nowMs - sentMs) / MsPerDay) && s[|s| - 1] == 'd'
    ensures MsPerWeek <= nowMs - sentMs ==> s == dateLabel
  {
    var r := LastMessageTime(nowMs - sentMs);
    match r
    case MinutesAgo(n) => LeadingIntOfIntToString(n, "m"); RelativeTimeText(r, nowLabel, dateLabel)
    case HoursAgo(n) => LeadingIntOfIntToString(n, "h"); RelativeTimeText(r, nowLabel, dateLabel)
    case DaysAgo(n) => LeadingIntOfIntToString(n, "d"); RelativeTimeText(r, nowLabel, dateLabel)
    case _ => RelativeTimeText(r, nowLabel, dateLabel)
  }

  /** The order of the buckets, youngest first. */
  function Rank(r: RelativeTime): nat {
    match r
    case JustNow => 0
    case MinutesAgo(_) => 1
    case HoursAgo(_) => 2
    case DaysAgo(_) => 3
    case OnDate => 4
  }

  /** Later clocks never move a message to an earlier bucket. */
  lemma BucketsAreMonotone(d1: int, d2: int)
    requires d1 <= d2
    ensures Rank(LastMessageTime(d1)) <= Rank(LastMessageTime(d2))
  {
  }

  // ---------------------------------------------------------------------------
  // The unread count of a chat row

  /** `x || 0` on an optional count. */
  function OrZero(x: Option<int>): int {
    if x.Some? then x.value else 0
  }

  /** `unreadCounts?.get(chatId) || 0`. */
  function MapCount(counts: map<int, int>, chatId: int): int {
    if chatId in counts then counts[chatId] else 0
  }

  /**
   * `finalUnreadCount`: the larger of the server's count and the locally
   * tracked count, each taken as zero when absent.
   */
  function FinalUnreadCount(apiCount: Option<int>, counts: map<int, int>, chatId: int): (c: int)
    ensures c >= OrZero(apiCount) && c >= MapCount(counts, chatId)
    ensures c == OrZero(apiCount) || c == MapCount(counts, chatId)
  {
    var api := OrZero(apiCount);
    var local := MapCount(counts, chatId);
    if api >= local then api else local
  }

  /** The green unread dot is shown exactly when either source reports unread messages. */
  function ShowUnreadDot(apiCount: Option<int>, counts: map<int, int>, chatId: int): (b: bool)
    ensures b <==> OrZero(apiCount) > 0 || MapCount(counts, chatId) > 0
    ensures b ==> (apiCount.Some? && apiCount.value > 0) || (chatId in counts && counts[chatId] > 0)
  {
    FinalUnreadCount(apiCount, counts, chatId) > 0
  }

  /** A row of the chat list. */
  datatype ChatRow = ChatRow(
    name: string,
    time: Option<string>,       // shown only when there is a latest message
    preview: Option<string>,    // the latest message's content; else the "encrypted chat" hint
    unreadDot: bool)

  /** The row `chats.map` renders for `item`. */
  function RenderChatRow(item: ChatItem, counts: map<int, int>, nowMs: int, nowLabel: string, dateLabel: string): (row: ChatRow)
    ensures row.name == item.otherUser.username
    ensures row.time.Some? <==> item.lastMessage.Some?
    ensures row.preview.Some? <==> item.lastMessage.Some?
    ensures item.lastMessage.Some? ==>
      row.time == Some(FormatLastMessageTime(nowMs, item.lastMessage.value.createdAt, nowLabel, dateLabel))
      && row.preview == Some(item.lastMessage.value.content)
    ensures row.unreadDot == ShowUnreadDot(item.unreadCount, counts, item.chat.id)
  {
    match item.lastMessage
    case None => ChatRow(item.otherUser.username, None, None, ShowUnreadDot(item.unreadCount, counts, item.chat.id))
    case Some(m) =>
      ChatRow(item.otherUser.username,
              Some(FormatLastMessageTime(nowMs, m.createdAt, nowLabel, dateLabel)),
              Some(m.content),
              ShowUnreadDot(item.unreadCount, counts, item.chat.id))
  }

  // ---------------------------------------------------------------------------
  // The user search effect

  /** What the search effect does when the query changes. */
  datatype SearchEffect =
    | SearchUsers(query: string, excludeId: int)  // after the debounce: GET /api/search-users
    | ClearResults

  /**
   * A search is issued only for a query that is not blank; it sends the
   * query as typed (untrimmed) and excludes the current user. Otherwise the
   * results are cleared.
   */
  function SearchEffectOf(searchQuery: string, currentUserId: int): (e: SearchEffect)
    ensures e.SearchUsers? <==> !AllSpace(searchQuery)
    ensures e.SearchUsers? ==> e.query == searchQuery && e.excludeId == currentUserId
  {
    TrimEmptyIff(searchQuery);
    if |Trim(searchQuery)| > 0 then SearchUsers(searchQuery, currentUserId) else ClearResults
  }
}
