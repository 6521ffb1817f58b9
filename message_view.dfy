/**
 * One message in the chat view (client/src/components/chat/message.tsx): the
 * countdown to its expiry, split into hours, minutes and seconds, and the
 * bubble chosen by its message type. The time left is an input (expiry
 * minus the current clock, in milliseconds); the once-a-second refresh is
 * not modelled.
 */
module MessageView {
  import opened Maybe
  import opened Text
  import opened Schema
  import opened Clock

  // ---------------------------------------------------------------------------
  // updateTimer

  /** Whole hours, minutes and seconds of a duration. */
  datatype Parts = Parts(hours: nat, minutes: nat, seconds: nat)

  /** The milliseconds the parts add up to. */
  function PartsMillis(p: Parts): int {
    p.hours * MsPerHour + p.minutes * MsPerMinute + p.seconds * MsPerSecond
  }

  /**
   * The split `updateTimer` computes for a positive time left: minutes and
   * seconds stay below sixty, and the parts add up to the time left rounded
   * down to a whole second.
   */
  function Decompose(remaining: int): (p: Parts)
    requires remaining > 0
    ensures p.minutes < 60 && p.seconds < 60
    ensures PartsMillis(p) <= remaining < PartsMillis(p) + MsPerSecond
  {
    var h := remaining / MsPerHour;
    var m := (remaining % MsPerHour) / MsPerMinute;
    var s := (remaining % MsPerMinute) / MsPerSecond;
    assert remaining % MsPerHour == m * MsPerMinute + (remaining % MsPerHour) % MsPerMinute;
    assert (remaining % MsPerHour) % MsPerMinute == remaining % MsPerMinute by {
      ModOfMod(remaining, 60, MsPerMinute);
    }
    Parts(h, m, s)
  }

  /** Reducing modulo `k * d` and then modulo `d` is reducing modulo `d`. */
  lemma ModOfMod(x: int, k: int, d: int)
    requires x >= 0 && k > 0 && d > 0
    ensures (x % (k * d)) % d == x % d
  {
    var q := x / (k * d);
    var r := x % (k * d);
    assert x == q * (k * d) + r;
    assert x == (q * k) * d + r;
    var r2 := r % d;
    assert r == (r / d) * d + r2;
    assert x == (q * k + r / d) * d + r2;
    DivModUnique(x, d, q * k + r / d, r2);
  }

  /** Quotient and remainder are determined by `x == q * d + r` with `0 <= r < d`. */
  lemma DivModUnique(x: int, d: int, q: int, r: int)
    requires d > 0 && 0 <= r < d && x == q * d + r
    ensures x % d == r && x / d == q
  {
    var q0, r0 := x / d, x % d;
    assert q0 * d + r0 == q * d + r;
    if q0 != q {
      var a, b := if q0 > q then q0 else q, if q0 > q then q else q0;
      assert a * d - b * d == (a - b) * d;
      AtLeastOnce(a - b, d);
      assert false;
    }
  }

  lemma AtLeastOnce(k: int, d: int)
    requires k >= 1 && d > 0
    ensures k * d >= d
  {
    assert k * d == (k - 1) * d + d;
  }

  /**
   * The split is the only one with minutes and seconds below sixty whose
   * total is within a second below the time left.
   */
  lemma DecomposeUnique(remaining: int, p: Parts)
    requires remaining > 0
    requires p.minutes < 60 && p.seconds < 60
    requires PartsMillis(p) <= remaining < PartsMillis(p) + MsPerSecond
    ensures p == Decompose(remaining)
  {
    // Below an hour, the minutes, seconds and milliseconds of p.
    var rest := p.minutes * MsPerMinute + p.seconds * MsPerSecond + (remaining - PartsMillis(p));
    assert 0 <= rest < MsPerHour;
    DivModUnique(remaining, MsPerHour, p.hours, rest);
    var below := p.seconds * MsPerSecond + (remaining - PartsMillis(p));
    assert 0 <= below < MsPerMinute;
    DivModUnique(rest, MsPerMinute, p.minutes, below);
    DivModUnique(remaining, MsPerMinute, p.hours * 60 + p.minutes, below);
    DivModUnique(below, MsPerSecond, p.seconds, remaining - PartsMillis(p));
  }

  /** What the countdown shows. */
  datatype Countdown =
    | Expired
    | HoursMinutes(hours: nat, minutes: nat)      // "Hh Mm"
    | MinutesSeconds(minutes: nat, seconds: nat)  // "Mm Ss"
    | SecondsOnly(seconds: nat)                   // "Ss"

  /**
   * The countdown for `remaining` milliseconds left: "Expired" at or below
   * zero; otherwise the two largest parts, dropping the hours when there are
   * none, and the minutes too when there are none of those either.
   */
  function CountdownOf(remaining: int): (c: Countdown)
    ensures c.Expired? <==> remaining <= 0
    ensures c.HoursMinutes? <==> remaining >= MsPerHour
    ensures c.MinutesSeconds? <==> MsPerMinute <= remaining < MsPerHour
    ensures c.SecondsOnly? <==> 0 < remaining < MsPerMinute
    ensures c.HoursMinutes? ==>
      c.hours >= 1 && c.minutes < 60 &&
      c.hours * MsPerHour + c.minutes * MsPerMinute <= remaining < c.hours * MsPerHour + (c.minutes + 1) * MsPerMinute
    ensures c.MinutesSeconds? ==>
      1 <= c.minutes < 60 && c.seconds < 60 &&
      c.minutes * MsPerMinute + c.seconds * MsPerSecond <= remaining < c.minutes * MsPerMinute + (c.seconds + 1) * MsPerSecond
    ensures c.SecondsOnly? ==>
      c.seconds < 60 && c.seconds * MsPerSecond <= remaining < (c.seconds + 1) * MsPerSecond
  {
    if remaining <= 0 then Expired
    else
      var p := Decompose(remaining);
      if p.hours > 0 then HoursMinutes(p.hours, p.minutes)
      else if p.minutes > 0 then MinutesSeconds(p.minutes, p.seconds)
      else SecondsOnly(p.seconds)
  }

  /**
   * The text `setTimeRemaining` receives: "Expired" exactly for the expired
   * form; otherwise a label starting with its first number and ending in the
   * unit of its last one.
   */
  function CountdownText(c: Countdown): (s: string)
    ensures s == "Expired" <==> c.Expired?
    ensures c.HoursMinutes? ==> LeadingInt(s) == Some(c.hours as int) && s[|s| - 1] == 'm'
    ensures c.MinutesSeconds? ==> LeadingInt(s) == Some(c.minutes as int) && s[|s| - 1] == 's'
    ensures c.SecondsOnly? ==> LeadingInt(s) == Some(c.seconds as int) && s[|s| - 1] == 's'
  {
    match c
    case Expired => "Expired"
    case HoursMinutes(h, m) =>
      var rest := "h " + NatToString(m) + "m";
      LeadingIntOfNatural(h, rest);
      assert NatToString(h) + "h " + NatToString(m) + "m" == NatToString(h) + rest;
      NatToString(h) + rest
    case MinutesSeconds(m, s) =>
      var rest := "m " + NatToString(s) + "s";
      LeadingIntOfNatural(m, rest);
      NatToString(m) + rest
    case SecondsOnly(s) =>
      LeadingIntOfNatural(s, "s");
      NatToString(s) + "s"
  }

  /**
   * The countdown text for a positive time left, in terms of the three
   * quotients `updateTimer` computes from it.
   */
  lemma CountdownTextOf(remaining: int)
    requires remaining > 0
    ensures remaining >= MsPerHour ==>
      CountdownText(CountdownOf(remaining))
        == NatToString(remaining / MsPerHour) + "h " + NatToString((remaining % MsPerHour) / MsPerMinute) + "m"
    ensures MsPerMinute <= remaining < MsPerHour ==>
      CountdownText(CountdownOf(remaining))
        == NatToString((remaining % MsPerHour) / MsPerMinute) + "m " + NatToString((remaining % MsPerMinute) / MsPerSecond) + "s"
    ensures remaining < MsPerMinute ==>
      CountdownText(CountdownOf(remaining)) == NatToString((remaining % MsPerMinute) / MsPerSecond) + "s"
  {
    var p := Decompose(remaining);
    DecomposeFields(remaining);
    if p.hours > 0 {
      assert CountdownOf(remaining) == HoursMinutes(p.hours, p.minutes);
    } else if p.minutes > 0 {
      assert CountdownOf(remaining) == MinutesSeconds(p.minutes, p.seconds);
    } else {
      assert CountdownOf(remaining) == SecondsOnly(p.seconds);
    }
  }

  /** The parts are the three quotients written out in `updateTimer`. */
  lemma DecomposeFields(remaining: int)
    requires remaining > 0
    ensures Decompose(remaining).hours == remaining / MsPerHour
    ensures Decompose(remaining).minutes == (remaining % MsPerHour) / MsPerMinute
    ensures Decompose(remaining).seconds == (remaining % MsPerMinute) / MsPerSecond
  {
  }

  /** Less than a second left still shows "0s", not "Expired". */
  lemma LastSecondIsNotExpired(remaining: int)
    requires 0 < remaining < MsPerSecond
    ensures CountdownText(CountdownOf(remaining)) == "0s"
  {
    assert CountdownOf(remaining) == SecondsOnly(0);
  }

  // ---------------------------------------------------------------------------
  // renderMessageContent

  /** The `sent` / `received` class of a bubble. */
  datatype Side = SentSide | ReceivedSide

  /** The size line of a file bubble: a size in bytes, or the word "File". */
  datatype SizeLine = SizeInBytes(bytes: int) | NoSize

  datatype Bubble =
    | TextBubble(side: Side, text: string)
    | ImageBubble(side: Side, source: string)
    | FileBubble(side: Side, title: string, size: SizeLine)
    | NoBubble

  function SideOf(isOwn: bool): Side {
    if isOwn then SentSide else ReceivedSide
  }

  /** `message.fileName || message.content`: an absent or empty file name falls back to the content. */
  function FileTitle(m: Message): string {
    if m.fileName.Some? && m.fileName.value != "" then m.fileName.value else m.content
  }

  /** `message.fileSize ? … : 'File'`: an absent or zero size shows no figure. */
  function FileSizeLine(m: Message): SizeLine {
    if m.fileSize.Some? && m.fileSize.value != 0 then SizeInBytes(m.fileSize.value) else NoSize
  }

  /**
   * The dispatch of `renderMessageContent` on the message type: text, image
   * and file each get their own bubble; any other type renders nothing.
   */
  function RenderContent(m: Message, isOwn: bool): (b: Bubble)
    ensures b.TextBubble? <==> m.messageType == TextType
    ensures b.ImageBubble? <==> m.messageType == ImageType
    ensures b.FileBubble? <==> m.messageType == FileType
    ensures b.NoBubble? <==> m.messageType !in {TextType, ImageType, FileType}
    ensures !b.NoBubble? ==> b.side == SideOf(isOwn)
    ensures b.TextBubble? ==> b.text == m.content
    ensures b.ImageBubble? ==> b.source == m.content
    ensures b.FileBubble? ==> b.title == FileTitle(m) && b.size == FileSizeLine(m)
  {
    var side := SideOf(isOwn);
    if m.messageType == TextType then TextBubble(side, m.content)
    else if m.messageType == ImageType then ImageBubble(side, m.content)
    else if m.messageType == FileType then FileBubble(side, FileTitle(m), FileSizeLine(m))
    else NoBubble
  }

  /** A file bubble's title is never empty unless both the file name and the content are. */
  lemma FileTitleFallback(m: Message)
    ensures FileTitle(m) == "" ==> m.content == "" && (m.fileName.None? || m.fileName.value == "")
  {
  }

  // ---------------------------------------------------------------------------
  // The message row

  /** An own message shows only its bubble; another user's adds the send time and the countdown. */
  datatype Row =
    | OwnRow(bubble: Bubble)
    | OtherRow(bubble: Bubble, sentAt: int, countdown: Countdown)

  /** The row for message `m` at clock `now` (milliseconds). */
  function RenderMessage(m: Message, isOwn: bool, now: int): (r: Row)
    ensures r.OwnRow? <==> isOwn
    ensures r.bubble == RenderContent(m, isOwn)
    ensures r.OtherRow? ==> r.sentAt == m.createdAt && r.countdown == CountdownOf(m.expiresAt - now)
  {
    if isOwn then OwnRow(RenderContent(m, true))
    else OtherRow(RenderContent(m, false), m.createdAt, CountdownOf(m.expiresAt - now))
  }

  /** Once the clock reaches the expiry, another user's message shows "Expired". */
  lemma ExpiredAtDeadline(m: Message, now: int)
    requires now >= m.expiresAt
    ensures RenderMessage(m, false, now).countdown == Expired
  {
  }
}
