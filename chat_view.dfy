/**
 * The message composer of the chat view (client/src/components/chat/chat-view.tsx):
 * the label of the self-destruct timer, and the send paths for typed text and
 * for attached files, with their guards and the unit each one sends the
 * timer in.
 */
module ChatView {
  import opened Maybe
  import opened Text
  import opened Schema
  import MessageView

  // ---------------------------------------------------------------------------
  // formatDestructTimer

  datatype TimerUnit = Sec | Min | Hour | Day

  function UnitSeconds(u: TimerUnit): nat {
    match u
    case Sec => 1
    case Min => 60
    case Hour => 3600
    case Day => 86400
  }

  function UnitWord(u: TimerUnit): string {
    match u
    case Sec => "sec"
    case Min => "min"
    case Hour => "hour"
    case Day => "day"
  }

  /** The number and unit the timer label shows. */
  datatype TimerLabel = TimerLabel(count: int, unit: TimerUnit)

  /**
   * The unit bucket of a timer of `seconds` seconds: the largest unit not
   * above it, with the count rounded down; below a minute the count is the
   * value itself.
   */
  function DestructTimerLabel(seconds: int): (l: TimerLabel)
    ensures l.unit == Sec <==> seconds < 60
    ensures l.unit == Min <==> 60 <= seconds < 3600
    ensures l.unit == Hour <==> 3600 <= seconds < 86400
    ensures l.unit == Day <==> 86400 <= seconds
    ensures l.unit == Sec ==> l.count == seconds
    ensures l.unit != Sec ==>
      l.count * UnitSeconds(l.unit) <= seconds < (l.count + 1) * UnitSeconds(l.unit)
    ensures l.unit == Min ==> 1 <= l.count <= 59
    ensures l.unit == Hour ==> 1 <= l.count <= 23
    ensures l.unit == Day ==> 1 <= l.count
  {
    if seconds < 60 then TimerLabel(seconds, Sec)
    else if seconds < 3600 then TimerLabel(seconds / 60, Min)
    else if seconds < 86400 then TimerLabel(seconds / 3600, Hour)
    else TimerLabel(seconds / 86400, Day)
  }

  /** Only hours and days take a plural "s", and only for counts above one. */
  predicate IsPlural(l: TimerLabel) {
    (l.unit == Hour || l.unit == Day) && l.count > 1
  }

  function LabelText(l: TimerLabel): string {
    IntToString(l.count) + " " + UnitWord(l.unit) + (if IsPlural(l) then "s" else "")
  }

  /**
   * `formatDestructTimer(seconds)`. The label starts with the bucket's count
   * and ends in "s" exactly for a count above one of hours or days.
   */
  function FormatDestructTimer(seconds: int): (s: string)
    ensures LeadingInt(s) == Some(DestructTimerLabel(seconds).count)
    ensures s[|s| - 1] == 's' <==> seconds >= 3600 && DestructTimerLabel(seconds).count > 1
  {
    var l := DestructTimerLabel(seconds);
    var rest := " " + UnitWord(l.unit) + (if IsPlural(l) then "s" else "");
    LeadingIntOfIntToString(l.count, rest);
    assert LabelText(l) == IntToString(l.count) + rest;
    LabelText(l)
  }

  /**
   * The label, bucket by bucket: the value itself or its rounded-down
   * quotient, then the unit word, with an "s" for more than one hour or day.
   */
  lemma FormatDestructTimerText(seconds: int)
    ensures seconds < 60 ==> FormatDestructTimer(seconds) == IntToString(seconds) + " sec"
    ensures 60 <= seconds < 3600 ==> FormatDestructTimer(seconds) == IntToString(seconds / 60) + " min"
    ensures 3600 <= seconds < 86400 ==>
      FormatDestructTimer(seconds) == IntToString(seconds / 3600) + " hour" + (if seconds / 3600 > 1 then "s" else "")
    ensures 86400 <= seconds ==>
      FormatDestructTimer(seconds) == IntToString(seconds / 86400) + " day" + (if seconds / 86400 > 1 then "s" else "")
  {
    var l := DestructTimerLabel(seconds);
    assert FormatDestructTimer(seconds) == LabelText(l);
    LabelWords(l);
    BucketCounts(seconds);
  }

  /** The text of a label, unit by unit. */
  lemma LabelWords(l: TimerLabel)
    ensures l.unit == Sec ==> LabelText(l) == IntToString(l.count) + " sec"
    ensures l.unit == Min ==> LabelText(l) == IntToString(l.count) + " min"
    ensures l.unit == Hour ==> LabelText(l) == IntToString(l.count) + " hour" + (if l.count > 1 then "s" else "")
    ensures l.unit == Day ==> LabelText(l) == IntToString(l.count) + " day" + (if l.count > 1 then "s" else "")
  {
    var n := IntToString(l.count);
    match l.unit
    case Sec => assert LabelText(l) == n + " " + "sec" + "";
    case Min => assert LabelText(l) == n + " " + "min" + "";
    case Hour => assert LabelText(l) == n + " " + "hour" + (if l.count > 1 then "s" else "");
    case Day => assert LabelText(l) == n + " " + "day" + (if l.count > 1 then "s" else "");
  }

  /** The count of each bucket is the quotient the source writes out. */
  lemma BucketCounts(seconds: int)
    ensures seconds < 60 ==> DestructTimerLabel(seconds).count == seconds
    ensures 60 <= seconds < 3600 ==> DestructTimerLabel(seconds).count == seconds / 60
    ensures 3600 <= seconds < 86400 ==> DestructTimerLabel(seconds).count == seconds / 3600
    ensures 86400 <= seconds ==> DestructTimerLabel(seconds).count == seconds / 86400
  {
  }

  /** The first values the timer menu offers, up to half an hour, and their labels. */
  lemma OfferedSecondAndMinuteLabels()
    ensures FormatDestructTimer(5) == "5 sec"
    ensures FormatDestructTimer(30) == "30 sec"
    ensures FormatDestructTimer(60) == "1 min"
    ensures FormatDestructTimer(300) == "5 min"
    ensures FormatDestructTimer(1800) == "30 min"
  {
    LabelOf(5, TimerLabel(5, Sec), "5 sec");
    LabelOf(30, TimerLabel(30, Sec), "30 sec");
    LabelOf(60, TimerLabel(1, Min), "1 min");
    LabelOf(300, TimerLabel(5, Min), "5 min");
    LabelOf(1800, TimerLabel(30, Min), "30 min");
  }

  /** The remaining values the timer menu offers and their labels: the "1 week" entry is shown as "7 days" below the input. */
  lemma OfferedHourAndDayLabels()
    ensures FormatDestructTimer(3600) == "1 hour"
    ensures FormatDestructTimer(21600) == "6 hours"
    ensures FormatDestructTimer(86400) == "1 day"
    ensures FormatDestructTimer(604800) == "7 days"
  {
    LabelOf(3600, TimerLabel(1, Hour), "1 hour");
    LabelOf(21600, TimerLabel(6, Hour), "6 hours");
    LabelOf(86400, TimerLabel(1, Day), "1 day");
    LabelOf(604800, TimerLabel(7, Day), "7 days");
  }

  lemma LabelOf(seconds: int, l: TimerLabel, text: string)
    requires DestructTimerLabel(seconds) == l
    requires 0 <= l.count < 100
    requires text == NatToString(l.count) + " " + UnitWord(l.unit) + (if IsPlural(l) then "s" else "")
    ensures FormatDestructTimer(seconds) == text
  {
  }

  // ---------------------------------------------------------------------------
  // handleSendMessage, handleKeyPress, handleFileUpload as decisions

  /** A file picked in the file input. */
  datatype FileInfo = FileInfo(name: string, mimeType: string, size: int)

  /** One call of `onSendMessage(content, type, destructTimer, file?)`. */
  datatype Outgoing = Outgoing(content: string, messageType: string, destructTimer: int, file: Option<FileInfo>)

  /** Ten mebibytes: larger files are refused. */
  const MaxFileSize: int := 10 * 1024 * 1024

  /** The prefix put before a non-image file's name. */
  const FileMarker: string := "📎 "

  /** What pressing send does. */
  datatype SendOutcome =
    | Ignored                  // blank input or no chat: nothing happens
    | NotConnected             // the "not connected" alert, nothing sent
    | Sent(message: Outgoing)  // sent; the input is cleared

  /**
   * The decision `handleSendMessage` takes: blank input or no selected chat
   * first (silently), then the connection, then a text send of the trimmed
   * input with the timer in seconds.
   */
  function SendDecision(input: string, hasChat: bool, connected: bool, timerSeconds: int): (d: SendOutcome)
    ensures d.Sent? <==> Trim(input) != [] && hasChat && connected
    ensures d.NotConnected? <==> Trim(input) != [] && hasChat && !connected
    ensures d.Ignored? <==> AllSpace(input) || !hasChat
    ensures d.Sent? ==> d.message == Outgoing(Trim(input), TextType, timerSeconds, None)
  {
    TrimEmptyIff(input);
    if Trim(input) == [] || !hasChat then Ignored
    else if !connected then NotConnected
    else Sent(Outgoing(Trim(input), TextType, timerSeconds, None))
  }

  /** `e.key === "Enter" && !e.shiftKey`: the keys that submit the input. */
  predicate SubmitsOnKey(key: string, shiftKey: bool) {
    key == "Enter" && !shiftKey
  }

  /** The send button's `disabled` attribute is the negation of this. */
  predicate SendButtonEnabled(input: string, connected: bool) {
    Trim(input) != [] && connected
  }

  /** With a chat selected, the button is enabled exactly when pressing it sends. */
  lemma EnabledButtonSends(input: string, connected: bool, timerSeconds: int)
    ensures SendButtonEnabled(input, connected) <==> SendDecision(input, true, connected, timerSeconds).Sent?
  {
  }

  predicate IsImage(f: FileInfo) {
    StartsWith(f.mimeType, "image/")
  }

  /** What choosing a file does. */
  datatype UploadOutcome =
    | NoFile                   // the picker returned nothing
    | SelectChatFirst          // no chat or not connected: alert
    | FileTooLarge             // over the size limit: alert
    | ReadFailed               // the image could not be read: alert
    | Uploaded(message: Outgoing)

  /**
   * The decision `handleFileUpload` takes. `dataUrl` is what the file reader
   * produced for an image (absent when reading failed). Attachments carry the
   * timer in milliseconds; images are sent as their data URL, other files as
   * the marked file name together with the file.
   */
  function UploadDecision(file: Option<FileInfo>, hasChat: bool, connected: bool, timerSeconds: int, dataUrl: Option<string>): (d: UploadOutcome)
    ensures d.NoFile? <==> file.None?
    ensures d.SelectChatFirst? <==> file.Some? && !(hasChat && connected)
    ensures d.FileTooLarge? <==> file.Some? && hasChat && connected && file.value.size > MaxFileSize
    ensures d.Uploaded? <==>
      file.Some? && hasChat && connected && file.value.size <= MaxFileSize && (IsImage(file.value) ==> dataUrl.Some?)
    ensures d.Uploaded? ==> d.message.destructTimer == 1000 * timerSeconds
    ensures d.Uploaded? && IsImage(file.value) ==>
      d.message == Outgoing(dataUrl.value, ImageType, 1000 * timerSeconds, None)
    ensures d.Uploaded? && !IsImage(file.value) ==>
      d.message == Outgoing(FileMarker + file.value.name, FileType, 1000 * timerSeconds, file)
  {
    if file.None? then NoFile
    else if !hasChat || !connected then SelectChatFirst
    else if file.value.size > MaxFileSize then FileTooLarge
    else if IsImage(file.value) then
      (if dataUrl.None? then ReadFailed
       else Uploaded(Outgoing(dataUrl.value, ImageType, timerSeconds * 1000, None)))
    else Uploaded(Outgoing(FileMarker + file.value.name, FileType, timerSeconds * 1000, file))
  }

  /** A file of exactly ten mebibytes is accepted; one byte more is not. */
  lemma SizeLimitBoundary(name: string, mimeType: string, timerSeconds: int, dataUrl: string)
    ensures !UploadDecision(Some(FileInfo(name, mimeType, 10485760)), true, true, timerSeconds, Some(dataUrl)).FileTooLarge?
    ensures UploadDecision(Some(FileInfo(name, mimeType, 10485761)), true, true, timerSeconds, Some(dataUrl)).FileTooLarge?
  {
  }

  /**
   * For one timer selection, an attachment carries a thousand times the value
   * a text message carries: the text path sends seconds, the file path
   * milliseconds.
   */
  lemma AttachmentTimerIsMilliseconds(
    input: string, file: Option<FileInfo>, connected: bool, timerSeconds: int, dataUrl: Option<string>)
    requires SendDecision(input, true, connected, timerSeconds).Sent?
    requires UploadDecision(file, true, connected, timerSeconds, dataUrl).Uploaded?
    ensures UploadDecision(file, true, connected, timerSeconds, dataUrl).message.destructTimer
         == 1000 * SendDecision(input, true, connected, timerSeconds).message.destructTimer
  {
  }

  // ---------------------------------------------------------------------------
  // The message list

  /**
   * `messages.map(message => <Message isOwn={message.senderId === currentUser.id} …/>)`:
   * one row per message, in order, own exactly when the current user sent it;
   * another user's row shows the send time and the countdown at clock `now`.
   */
  function MessageRows(messages: seq<Message>, currentUserId: int, now: int): (rows: seq<MessageView.Row>)
    ensures |rows| == |messages|
    ensures forall i :: 0 <= i < |messages| ==> (rows[i].OwnRow? <==> messages[i].senderId == currentUserId)
    ensures forall i :: 0 <= i < |messages| ==>
      rows[i].bubble == MessageView.RenderContent(messages[i], messages[i].senderId == currentUserId)
    ensures forall i :: 0 <= i < |messages| && rows[i].OtherRow? ==>
      rows[i].sentAt == messages[i].createdAt && rows[i].countdown == MessageView.CountdownOf(messages[i].expiresAt - now)
  {
    seq(|messages|, i requires 0 <= i < |messages| =>
      MessageView.RenderMessage(messages[i], messages[i].senderId == currentUserId, now))
  }

  // ---------------------------------------------------------------------------
  // The composer's state

  /**
   * The chat view's input box and what it has handed to `onSendMessage`. The
   * selected chat and the connection flag are props the parent may change.
   */
  class Composer {
    var input: string
    var destructTimer: int      // `parseInt(destructTimer)`: seconds
    var selectedChat: Option<int>
    var connected: bool
    var outbox: seq<Outgoing>   // every `onSendMessage` call, in the order the methods make them

    /** A fresh view: empty input, five-minute timer, nothing sent. */
    constructor (chat: Option<int>, isConnected: bool)
      ensures input == "" && destructTimer == 300 && outbox == []
      ensures selectedChat == chat && connected == isConnected
    {
      input := "";
      destructTimer := 300;
      selectedChat := chat;
      connected := isConnected;
      outbox := [];
    }

    /** The parent re-renders with new props. */
    method SetProps(chat: Option<int>, isConnected: bool)
      modifies this`selectedChat, this`connected
      ensures selectedChat == chat && connected == isConnected
    {
      selectedChat := chat;
      connected := isConnected;
    }

    /** The text area's `onChange`. */
    method SetInput(value: string)
      modifies this`input
      ensures input == value
    {
      input := value;
    }

    /** The timer menu's `onValueChange`. */
    method SelectTimer(seconds: int)
      modifies this`destructTimer
      ensures destructTimer == seconds
    {
      destructTimer := seconds;
    }

    /** `handleSendMessage`: sends at most one text message and then clears the input. */
    method SendMessage() returns (outcome: SendOutcome)
      modifies this`input, this`outbox
      ensures outcome == SendDecision(old(input), selectedChat.Some?, connected, destructTimer)
      ensures outbox == old(outbox) + (if outcome.Sent? then [outcome.message] else [])
      ensures input == (if outcome.Sent? then "" else old(input))
    {
      outcome := SendDecision(input, selectedChat.Some?, connected, destructTimer);
      if outcome.Sent? {
        outbox := outbox + [outcome.message];
        input := "";
      }
    }

    /** `handleKeyPress`: Enter without Shift takes the send path; any other key does nothing. */
    method KeyPress(key: string, shiftKey: bool) returns (submitted: bool, outcome: SendOutcome)
      modifies this`input, this`outbox
      ensures submitted == SubmitsOnKey(key, shiftKey)
      ensures submitted ==> outcome == SendDecision(old(input), selectedChat.Some?, connected, destructTimer)
      ensures !submitted ==> outcome == Ignored
      ensures outbox == old(outbox) + (if outcome.Sent? then [outcome.message] else [])
      ensures input == (if outcome.Sent? then "" else old(input))
    {
      submitted := SubmitsOnKey(key, shiftKey);
      if submitted {
        outcome := SendMessage();
      } else {
        outcome := Ignored;
      }
    }

    /** `handleFileUpload`: sends at most one attachment; the text input is left as it was. */
    method UploadFile(file: Option<FileInfo>, dataUrl: Option<string>) returns (outcome: UploadOutcome)
      modifies this`outbox
      ensures outcome == UploadDecision(file, selectedChat.Some?, connected, destructTimer, dataUrl)
      ensures outbox == old(outbox) + (if outcome.Uploaded? then [outcome.message] else [])
    {
      if file.None? {
        return NoFile;
      }
      var f := file.value;
      if selectedChat.None? || !connected {
        return SelectChatFirst;
      }
      if f.size > MaxFileSize {
        return FileTooLarge;
      }
      if StartsWith(f.mimeType, "image/") {
        if dataUrl.None? {
          return ReadFailed;
        }
        var message := Outgoing(dataUrl.value, ImageType, destructTimer * 1000, None);
        outbox := outbox + [message];
        outcome := Uploaded(message);
      } else {
        var message := Outgoing(FileMarker + f.name, FileType, destructTimer * 1000, file);
        outbox := outbox + [message];
        outcome := Uploaded(message);
      }
    }
  }
}
