# Self-destructing chat client: timing and selection rules

This project models the decision rules inside the chat client of an
end-to-end encrypted messenger whose messages destroy themselves after a
chosen time. It covers five React components:

- the chat view (`chat-view.tsx`): the timer label under the input box, the
  guards on sending a text message, Enter-to-send, and the file upload path
  with its size limit and its timer units;
- a single message (`message.tsx`): the countdown to expiry, split into
  hours, minutes and seconds, and the bubble chosen by message type;
- the settings dialog (`settings-modal.tsx`): the labels of the
  default-timer menu and the validation of a username change;
- the WhatsApp-style sidebar (`whatsapp-sidebar.tsx`): the relative time of
  a chat's last message, the merge of two unread counts, and when a user
  search is issued;
- the classic sidebar (`sidebar.tsx`): reusing a listed chat before
  creating one, the search conditions, the unread badge, the last-message
  preview and its own copy of the relative-time rule.

The model is organised as follows:

- Most of these rules are expressions. They become Dafny functions with
  named results, and their modules follow the components.
- The chat view's send path changes the `messageInput` state and calls
  `onSendMessage`. It becomes the class `ChatView.Composer`. Its fields are
  the input text, the selected timer, the chat and connection props, and an
  `outbox` that records every `onSendMessage` call in the order the methods
  make them (an image's read is collapsed into the upload call; see
  "## Left out"). Its send, key and upload
  methods are each tied to a pure decision function. `SetProps` replaces
  both props, and `SetInput` and `SelectTimer` each set one field.

Anything the components read from outside becomes a parameter:

- the clock, as `nowMs` or the time left in milliseconds;
- server replies, as `Reply` or `Option<ChatRecord>`;
- the `FileReader` result, as `dataUrl`;
- translated texts and locale dates, as `nowLabel` and `dateLabel`.

Module layout:

- `Maybe`: `Option`.
- `Text`:
  - JavaScript's `trim` over the ECMAScript white-space code points;
  - JavaScript's `length`, counted in UTF-16 code units;
  - decimal printing of numbers, as in template literals;
  - reading a number back from the start of a string, which is how the
    contracts state "the label starts with this number".
- `Clock`: second, minute, hour and day lengths in milliseconds.
- `Schema`: the client's records (user, message, chat, chat list item).
- `ChatView`, `MessageView`, `SettingsModal`, `WhatsAppSidebar`, `Sidebar`:
  one per component.

Two points about what the code shows:

- The chat view passes the timer to the same `onSendMessage` parameter in two
  units. The text path passes the selected value in seconds
  (`chat-view.tsx` line 103). The image and file paths pass it multiplied by
  1000, in milliseconds (lines 142 and 152). The model keeps both units.
  `ChatView.AttachmentTimerIsMilliseconds` states the factor.
- The classic sidebar finds an existing chat by comparing `otherUser.id`
  among the listed chats (`sidebar.tsx` lines 59-61). Every listed chat
  includes the current user, so this is a lookup of the pair {current user,
  target}. The model does the same.

One detail to be aware of: the timer menu labels the value 604800 "1 week"
(`chat-view.tsx` line 265). The label under the input box for the same
value is "7 days", because `formatDestructTimer` has no week bucket.
`ChatView.OfferedHourAndDayLabels` states this.

## Model

| member | source | states |
|---|---|---|
| Text.Trim | client/src/components/chat/chat-view.tsx:92 | `trim()`: the result is a contiguous slice of the input; everything cut off on either side is white space; the result neither starts nor ends with white space |
| Text.TrimEmptyIff | client/src/components/chat/chat-view.tsx:92 | `!s.trim()` holds exactly when every character of `s` is white space (both directions) |
| Text.TrimIdempotent | client/src/components/chat/settings-modal.tsx:54 | trimming an already trimmed string changes nothing |
| Text.NatToString | client/src/components/chat/chat-view.tsx:184 | `${n}` for a natural number: non-empty decimal digits, a leading zero only for 0, one digit exactly below 10 |
| Text.IntToString | client/src/components/chat/chat-view.tsx:184 | `${i}` for any integer: a minus sign exactly for negative values, then decimal digits whose value is the magnitude, with no leading zero unless the text is "0" |
| Text.NatToStringRoundTrip | client/src/components/chat/chat-view.tsx:184 | the digits printed for `n` have the value `n` |
| Text.NatToStringInjective | client/src/components/chat/chat-view.tsx:184 | different numbers print differently |
| Text.Utf16Length | client/src/components/chat/sidebar.tsx:46 | `s.length`: between the number of characters and twice that, and equal to the number of characters exactly when none lies outside the Basic Multilingual Plane |
| Text.Utf16LengthOfChar | client/src/components/chat/sidebar.tsx:46 | one character has length 1 inside the Basic Multilingual Plane and 2 above it |
| Text.Utf16LengthOfConcat | client/src/components/chat/sidebar.tsx:46 | the length of a concatenation is the sum of the lengths; with the one-character case this fixes the length of every string |
| Text.LeadingIntOfIntToString | client/src/components/chat/whatsapp-sidebar.tsx:191-193 | a printed integer followed by a non-digit reads back as that integer, which is how the labels' numbers are stated |
| ChatView.DestructTimerLabel | client/src/components/chat/chat-view.tsx:183-188 | unit buckets below 60, below 3600, below 86400 and above, each as an if-and-only-if; seconds are shown as given; other units show the floor of the quotient, in 1..59 for minutes, in 1..23 for hours and at least 1 for days |
| ChatView.FormatDestructTimer | client/src/components/chat/chat-view.tsx:183-188 | the label starts with the bucket's count, and ends in "s" exactly when the unit is hours or days and the count is above one |
| ChatView.FormatDestructTimerText | client/src/components/chat/chat-view.tsx:184-187 | bucket by bucket, the label is "`s` sec", "`⌊s/60⌋` min", "`⌊s/3600⌋` hour" or "`⌊s/86400⌋` day", with an "s" added to hours and days above one |
| ChatView.OfferedSecondAndMinuteLabels | client/src/components/chat/chat-view.tsx:257-261 | 5, 30, 60, 300 and 1800 seconds read "5 sec", "30 sec", "1 min", "5 min" and "30 min" |
| ChatView.OfferedHourAndDayLabels | client/src/components/chat/chat-view.tsx:262-265 | 3600, 21600, 86400 and 604800 seconds read "1 hour", "6 hours", "1 day" and "7 days" |
| ChatView.SendDecision | client/src/components/chat/chat-view.tsx:84-105 | the send happens exactly when the trimmed input is non-empty, a chat is selected and the client is connected; the not-connected alert happens exactly when only the connection is missing; the sent message carries the trimmed text, type "text" and the timer in seconds |
| ChatView.EnabledButtonSends | client/src/components/chat/chat-view.tsx:420-422 | with a chat selected, the send button is enabled exactly when pressing it sends |
| ChatView.UploadDecision | client/src/components/chat/chat-view.tsx:114-153 | no file, no chat or no connection, a file over 10·1024·1024 bytes and an unreadable image each stop the upload, as if-and-only-ifs; an image is sent as its data URL with type "image", any other file as "📎 name" with type "file" and the file; both carry the timer times 1000 |
| ChatView.SizeLimitBoundary | client/src/components/chat/chat-view.tsx:129-133 | a file of exactly 10485760 bytes passes the size check, one of 10485761 bytes does not |
| ChatView.AttachmentTimerIsMilliseconds | client/src/components/chat/chat-view.tsx:103-152 | for one timer selection, an attachment carries 1000 times the value a text message carries |
| ChatView.MessageRows | client/src/components/chat/chat-view.tsx:351-358 | one row per message, in order; a row is the own-message form exactly when the sender is the current user; each row's bubble is that message's content rendering; another user's row carries the message's send time and the countdown to its expiry at the given clock |
| ChatView.Composer.constructor | client/src/components/chat/chat-view.tsx:34-35 | a new view has an empty input, the five-minute (300 s) timer and nothing sent |
| ChatView.Composer.SetProps | client/src/components/chat/chat-view.tsx:19-25 | the selected chat and the connection flag become the new props |
| ChatView.Composer.SetInput | client/src/components/chat/chat-view.tsx:406-407 | the input becomes the typed value |
| ChatView.Composer.SelectTimer | client/src/components/chat/chat-view.tsx:252 | the selected timer becomes the chosen value |
| ChatView.Composer.SendMessage | client/src/components/chat/chat-view.tsx:84-105 | the outcome is `SendDecision` on the state before the call; the outbox grows by the sent message only when there is one; the input is cleared only then and otherwise unchanged |
| ChatView.Composer.KeyPress | client/src/components/chat/chat-view.tsx:107-112 | Enter without Shift takes the send path with the same effect as `SendMessage`; any other key, Shift+Enter included, changes nothing |
| ChatView.Composer.UploadFile | client/src/components/chat/chat-view.tsx:114-159 | the outcome is `UploadDecision` on the current state; the outbox grows by the attachment only when one is sent; the input is untouched |
| MessageView.Decompose | client/src/components/chat/message.tsx:26-28 | for a positive time left, minutes and seconds are below 60 and `h·3600000 + m·60000 + s·1000 <= remaining < that + 1000` |
| MessageView.DecomposeUnique | client/src/components/chat/message.tsx:26-28 | any split with minutes and seconds below 60 satisfying that bound is the computed one |
| MessageView.CountdownOf | client/src/components/chat/message.tsx:16-37 | "Expired" exactly at or below zero; hours and minutes exactly from one hour; minutes and seconds exactly from one minute below an hour; seconds alone exactly below a minute; each form's numbers bound the time left |
| MessageView.CountdownText | client/src/components/chat/message.tsx:22-35 | the text is "Expired" exactly for the expired form; every other form starts with its first number and ends in "m" (hours and minutes) or "s" |
| MessageView.CountdownTextOf | client/src/components/chat/message.tsx:26-35 | for a positive time left the text is "Hh Mm", "Mm Ss" or "Ss", with H, M and S the three quotients written out in the source, chosen by whether an hour or a minute is left |
| MessageView.LastSecondIsNotExpired | client/src/components/chat/message.tsx:21-35 | with between 1 and 999 milliseconds left the text is "0s", not "Expired" |
| MessageView.RenderContent | client/src/components/chat/message.tsx:52-112 | text, image and file messages each get their own bubble, as if-and-only-ifs, and any other type renders nothing; the bubble's side follows `isOwn`; text and image show the content; a file shows the file name or else the content, and its size or else no size |
| MessageView.FileTitleFallback | client/src/components/chat/message.tsx:94 | a file bubble's title is empty only when both the file name and the content are |
| MessageView.RenderMessage | client/src/components/chat/message.tsx:114-142 | an own message shows only its bubble; another user's adds its send time and the countdown to its expiry |
| MessageView.ExpiredAtDeadline | client/src/components/chat/message.tsx:19-24 | once the clock reaches the expiry time, another user's message shows "Expired" |
| SettingsModal.FormatTimerOption | client/src/components/chat/settings-modal.tsx:104-110 | unit buckets below 60, below 3600, below 86400 and above, as if-and-only-ifs; the amount times the unit's length is the value; the "s" is added exactly when the amount is above one |
| SettingsModal.OptionTextShowsQuotient | client/src/components/chat/settings-modal.tsx:104-110 | a value that is a whole number of its unit is shown starting with that number |
| SettingsModal.OfferedOptionLabels | client/src/components/chat/settings-modal.tsx:191-196 | 1, 10, 60, 3600, 86400 and 518400 read "1 second", "10 seconds", "1 minute", "1 hour", "1 day" and "6 days" |
| SettingsModal.SaveProfile | client/src/components/chat/settings-modal.tsx:37-86 | a blank username is refused with no request, exactly; otherwise the request carries the trimmed name; the profile is saved exactly when the reply is a success, and then only the username differs from before; a failure shows the server's message or else "Failed to update username" |
| SettingsModal.SaveAgainIsStable | client/src/components/chat/settings-modal.tsx:54-66 | saving the stored name again sends the same request and stores the same profile |
| WhatsAppSidebar.LastMessageTime | client/src/components/chat/whatsapp-sidebar.tsx:182-195 | "now" below one minute, future times included; minutes, hours and days buckets as if-and-only-ifs, with counts in 1..59, 1..23 and 1..6 that are the floor of the age in that unit; the date from one week on |
| WhatsAppSidebar.FormatLastMessageTime | client/src/components/chat/whatsapp-sidebar.tsx:182-195 | by bucket of the age, the label is the "now" text, the rounded-down age in minutes, hours or days followed by exactly "m", "h" or "d", or the locale date |
| WhatsAppSidebar.BucketsAreMonotone | client/src/components/chat/whatsapp-sidebar.tsx:185-194 | an older message is never in a younger bucket |
| WhatsAppSidebar.FinalUnreadCount | client/src/components/chat/whatsapp-sidebar.tsx:295-297 | the count is at least the server's count and at least the local count, each taken as 0 when absent, and equals one of them |
| WhatsAppSidebar.ShowUnreadDot | client/src/components/chat/whatsapp-sidebar.tsx:373 | the dot is shown exactly when either source reports a positive count |
| WhatsAppSidebar.RenderChatRow | client/src/components/chat/whatsapp-sidebar.tsx:294-376 | the row shows the other user's name; the time and the last message's content are shown exactly when there is a last message; the dot follows `ShowUnreadDot` |
| WhatsAppSidebar.SearchEffectOf | client/src/components/chat/whatsapp-sidebar.tsx:52-74 | a search is issued exactly when the query is not blank, with the untrimmed query and the current user excluded; otherwise the results are cleared |
| Sidebar.FindChatWith | client/src/components/chat/sidebar.tsx:59-61 | `chats.find`: the position found holds a chat with the user, and no earlier one does; nothing is found exactly when no listed chat is with the user |
| Sidebar.StartChat | client/src/components/chat/sidebar.tsx:53-89 | an existing chat is selected with no request exactly when one is listed, and it is the first one; otherwise the create request has the current user as participant 1 and the target as participant 2, and the created chat is selected with the target as its other user |
| Sidebar.StartChatKeepsOnePerPartner | client/src/components/chat/sidebar.tsx:58-81 | if the list has one chat per partner, adding a newly created chat keeps it that way |
| Sidebar.SearchRequestOf | client/src/components/chat/sidebar.tsx:44-51 | the search runs exactly when the untrimmed query's UTF-16 length is above two, with the query as typed and the current user excluded; it always runs from three characters on and never below two |
| Sidebar.TwoEmojiQueryIsSearched | client/src/components/chat/sidebar.tsx:46 | a query of two emoji outside the Basic Multilingual Plane has length 4 and is searched for |
| Sidebar.SearchPanelOf | client/src/components/chat/sidebar.tsx:311-342 | results are listed exactly when there are some; "No users found" shows exactly when the query's UTF-16 length is above two and the results are absent or empty |
| Sidebar.NoUsersOnlyAfterSearch | client/src/components/chat/sidebar.tsx:340 | "No users found" appears only for a query the search was issued for |
| Sidebar.UnreadBadge | client/src/components/chat/sidebar.tsx:266-273 | the badge is shown exactly when the local map holds a positive count for the chat, and it shows that count |
| Sidebar.BadgeAgreesWithDot | client/src/components/chat/sidebar.tsx:266-273 | a badge here implies the WhatsApp-style sidebar's dot; without a positive server count the two agree |
| Sidebar.Preview | client/src/components/chat/sidebar.tsx:247-263 | a text message shows its content, an image "📷 Photo", any other type "📎 File", and no message "Start a conversation..." |
| Sidebar.PreviewIsFixedUnlessText | client/src/components/chat/sidebar.tsx:248-262 | only a text message can give a preview other than the three fixed labels |
| Sidebar.FormatLastMessageTime | client/src/components/chat/sidebar.tsx:97-110 | this sidebar's copy of the rule gives the same label as the WhatsApp-style sidebar's when its "now" text is "now" |

## Left out

- The server: storing and sweeping messages, resolving chats, the unread
  counters and the WebSocket push. Its code is not part of this model.
  Neither are the test and debug scripts that exercise it.
- Network calls and their handling:
  - the PATCH, POST and GET requests are not modelled, and neither is
    `apiRequest`;
  - the server's answer is an input. A reply body that cannot be parsed is
    modelled as a failure carrying that error's message;
  - the WhatsApp-style sidebar's mark-read `POST` on a row click is not
    modelled;
  - `chat-context-menu.tsx` (delete a chat, block a user) is not modelled.
- React state and timing:
  - the 300 ms debounce of the WhatsApp-style search;
  - the loading flags;
  - query caching;
  - the once-a-second countdown refresh, and the empty countdown text
    before its first tick;
  - scrolling, closing dialogs and clearing the search box after a chat is
    started;
  - local storage, the toasts' titles and `onClose`.
- Translated texts and locale dates (`t(...)`, `toLocaleDateString`) are
  opaque string inputs.
- `formatTime`: a message row keeps the raw `createdAt` timestamp as
  `sentAt`. The time text `formatTime` makes from it is not modelled.
- `encodeURIComponent` of the search query: the model keeps the query
  itself.
- The classic sidebar sends the excluded user as `excludeId`; the
  WhatsApp-style one sends it as `exclude`. Both are modelled as a field
  `excludeId`.
- `FileReader`: the data URL it produces, or its absence when reading
  fails, is the parameter `dataUrl`. Resetting the file input is not
  modelled.
- The camera button (`handleCameraCapture`) is not modelled. It checks for
  a selected chat and a connection itself, with its own alert. It then
  creates a separate file input that accepts images from the back camera,
  and hands the captured file to `handleFileUpload`. From there the upload
  follows the path `ChatView.Composer.UploadFile` models.
- ChatView.Composer.UploadFile: an image is sent from the file reader's
  `onload` callback, after `handleFileUpload` has returned. The model
  collapses the read into the call and appends the image to `outbox` at
  once. A text message sent while an image is still being read therefore
  comes after the image in the model, but before it in the source.
- `parseInt(destructTimer)`: the select only offers numeric strings, so the
  model holds the timer as an integer already parsed.
- MessageView.RenderContent: the file size is kept in bytes. The kilobyte
  text made with `toFixed(1)` is floating-point output and is not modelled.
- SettingsModal.FormatTimerOption: amounts are exact rational quotients.
  Their text is stated only for whole amounts, which covers every value the
  menu offers. JavaScript's printing of fractional numbers is not modelled.
- Integers are unbounded. JavaScript numbers are exact integers below 2^53,
  which includes every timestamp and size these rules meet.
