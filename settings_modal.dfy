/**
 * The settings dialog (client/src/components/chat/settings-modal.tsx): the
 * labels of the default-timer menu and the validation of a username change.
 * The network request and the local storage write are replaced by their
 * observable inputs and outputs: the request sent, the server's reply, and
 * the user record that would be stored.
 */
module SettingsModal {
  import opened Maybe
  import opened Text
  import opened Schema

  // ---------------------------------------------------------------------------
  // formatTimerOption

  datatype OptionUnit = Second | Minute | Hour | Day

  function OptionUnitSeconds(u: OptionUnit): nat {
    match u
    case Second => 1
    case Minute => 60
    case Hour => 3600
    case Day => 86400
  }

  function OptionUnitWord(u: OptionUnit): string {
    match u
    case Second => "second"
    case Minute => "minute"
    case Hour => "hour"
    case Day => "day"
  }

  /**
   * A menu label: the amount in the chosen unit (the exact quotient the
   * division `num / 60` and friends denote), the unit, and whether an "s"
   * follows.
   */
  datatype OptionLabel = OptionLabel(amount: real, unit: OptionUnit, plural: bool)

  /**
   * `formatTimerOption` for the parsed value `num`: the unit is the bucket
   * `num` falls in, the amount times the unit's length is `num`, and the unit
   * word takes an "s" exactly when the amount is above one.
   */
  function FormatTimerOption(num: int): (l: OptionLabel)
    ensures l.unit == Second <==> num < 60
    ensures l.unit == Minute <==> 60 <= num < 3600
    ensures l.unit == Hour <==> 3600 <= num < 86400
    ensures l.unit == Day <==> 86400 <= num
    ensures l.amount * OptionUnitSeconds(l.unit) as real == num as real
    ensures l.plural <==> l.amount > 1.0
    ensures l.plural <==> num > OptionUnitSeconds(l.unit)
    ensures l.unit != Second ==> l.amount >= 1.0
  {
    if num < 60 then OptionLabel(num as real, Second, num > 1)
    else if num < 3600 then OptionLabel(num as real / 60.0, Minute, num as real / 60.0 > 1.0)
    else if num < 86400 then OptionLabel(num as real / 3600.0, Hour, num as real / 3600.0 > 1.0)
    else OptionLabel(num as real / 86400.0, Day, num as real / 86400.0 > 1.0)
  }

  /** A label whose amount is a whole number, the only kind whose text is modelled. */
  predicate WholeAmount(l: OptionLabel) {
    l.amount.Floor as real == l.amount
  }

  /** The text of a label with a whole amount. */
  function OptionText(l: OptionLabel): string
    requires WholeAmount(l)
  {
    IntToString(l.amount.Floor) + " " + OptionUnitWord(l.unit) + (if l.plural then "s" else "")
  }

  /** A value that is a whole number of its bucket's unit is shown as that number. */
  lemma OptionTextShowsQuotient(num: int, u: OptionUnit)
    requires FormatTimerOption(num).unit == u
    requires num % OptionUnitSeconds(u) == 0
    ensures WholeAmount(FormatTimerOption(num))
    ensures LeadingInt(OptionText(FormatTimerOption(num))) == Some(num / OptionUnitSeconds(u))
  {
    var d := OptionUnitSeconds(u);
    var k := num / d;
    assert num == k * d;
    ExactQuotient(num, d, k);
    assert FormatTimerOption(num).amount == num as real / d as real;
    TextOfWholeAmount(FormatTimerOption(num), k);
  }

  lemma ExactQuotient(num: int, d: nat, k: int)
    requires d > 0 && num == k * d
    ensures num as real / d as real == k as real
  {
    assert num as real == k as real * d as real;
  }

  /** A label whose amount is the whole number `k` reads back as `k`. */
  lemma TextOfWholeAmount(l: OptionLabel, k: int)
    requires l.amount == k as real
    ensures WholeAmount(l) && LeadingInt(OptionText(l)) == Some(k)
  {
    assert l.amount.Floor == k;
    var rest := " " + OptionUnitWord(l.unit) + (if l.plural then "s" else "");
    assert OptionText(l) == IntToString(l.amount.Floor) + rest;
    LeadingIntOfIntToString(k, rest);
  }

  lemma OptionTextOf(num: int, l: OptionLabel, text: string)
    requires FormatTimerOption(num) == l && WholeAmount(l)
    requires 0 <= l.amount.Floor < 10
    requires text == NatToString(l.amount.Floor) + " " + OptionUnitWord(l.unit) + (if l.plural then "s" else "")
    ensures WholeAmount(FormatTimerOption(num)) && OptionText(FormatTimerOption(num)) == text
  {
  }

  /** The six values the menu offers and the labels they get. */
  lemma OfferedOptionLabels()
    ensures WholeAmount(FormatTimerOption(1)) && OptionText(FormatTimerOption(1)) == "1 second"
    ensures WholeAmount(FormatTimerOption(10)) && OptionText(FormatTimerOption(10)) == "10 seconds"
    ensures WholeAmount(FormatTimerOption(60)) && OptionText(FormatTimerOption(60)) == "1 minute"
    ensures WholeAmount(FormatTimerOption(3600)) && OptionText(FormatTimerOption(3600)) == "1 hour"
    ensures WholeAmount(FormatTimerOption(86400)) && OptionText(FormatTimerOption(86400)) == "1 day"
    ensures WholeAmount(FormatTimerOption(518400)) && OptionText(FormatTimerOption(518400)) == "6 days"
  {
    OptionTextOf(1, OptionLabel(1.0, Second, false), "1 second");
    assert NatToString(10) == "10";
    assert FormatTimerOption(10) == OptionLabel(10.0, Second, true);
    OptionTextOf(60, OptionLabel(1.0, Minute, false), "1 minute");
    OptionTextOf(3600, OptionLabel(1.0, Hour, false), "1 hour");
    OptionTextOf(86400, OptionLabel(1.0, Day, false), "1 day");
    OptionTextOf(518400, OptionLabel(6.0, Day, true), "6 days");
  }

  // ---------------------------------------------------------------------------
  // handleSaveProfile

  /** The signed-in user as the dialog holds it: the public record plus the private key. */
  datatype Profile = Profile(user: User, privateKey: string)

  /** The body of `PATCH /api/users/{userId}`. */
  datatype PatchRequest = PatchRequest(userId: int, username: string)

  /**
   * The server's answer: success, or a failure with the `message` field of
   * its error body (empty when the body has none). A request that never
   * reaches the server is a failure with the message of the network error.
   */
  datatype Reply = ReplyOk | ReplyError(message: string)

  const DefaultSaveError: string := "Failed to update username"

  datatype SaveOutcome =
    | UsernameEmpty                                     // rejected before any request
    | SaveFailed(request: PatchRequest, error: string)  // the error toast
    | Saved(request: PatchRequest, stored: Profile)     // written to storage and handed to the parent

  /**
   * `handleSaveProfile` for the typed `username`: a blank name is refused
   * with no request; otherwise the trimmed name is sent, and on success the
   * stored profile is the old one with only the username replaced.
   */
  function SaveProfile(current: Profile, username: string, reply: Reply): (o: SaveOutcome)
    ensures o.UsernameEmpty? <==> AllSpace(username)
    ensures !o.UsernameEmpty? ==> o.request == PatchRequest(current.user.id, Trim(username))
    ensures o.Saved? <==> !AllSpace(username) && reply.ReplyOk?
    ensures o.Saved? ==>
      && o.stored.user.username == Trim(username)
      && o.stored.user.id == current.user.id
      && o.stored.user.publicKey == current.user.publicKey
      && o.stored.user.isOnline == current.user.isOnline
      && o.stored.privateKey == current.privateKey
    ensures o.SaveFailed? ==>
      o.error == (if reply.message != "" then reply.message else DefaultSaveError)
  {
    TrimEmptyIff(username);
    var name := Trim(username);
    if name == [] then UsernameEmpty
    else
      var request := PatchRequest(current.user.id, name);
      match reply
      case ReplyOk => Saved(request, current.(user := current.user.(username := name)))
      case ReplyError(msg) => SaveFailed(request, if msg != "" then msg else DefaultSaveError)
  }

  /** Saving the stored name again sends the same name and stores the same profile. */
  lemma SaveAgainIsStable(current: Profile, username: string)
    requires SaveProfile(current, username, ReplyOk).Saved?
    ensures var stored := SaveProfile(current, username, ReplyOk).stored;
      SaveProfile(stored, stored.user.username, ReplyOk) == SaveProfile(current, username, ReplyOk)
  {
    var stored := SaveProfile(current, username, ReplyOk).stored;
    TrimIdempotent(username);
    TrimEmptyIff(stored.user.username);
    TrimEmptyIff(username);
  }
}
