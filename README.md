# Scheduling assistant: the per-sender booking draft

A Dafny model of the conversation core of a WhatsApp scheduling bot. For each
incoming message the bot asks a language model to pull a booking out of the
text, merges that over the draft it already holds for the sender, checks
which required fields (title, date, time, guests) are still missing, and then
either keeps the draft and asks for the rest, or drops the draft and creates
the calendar event. A failed model call, an unparsable reply, a failed
authorization or an event that cannot be built ends in one fixed "let us try
again" reply; an insert the calendar API rejects is answered with a failure
text carrying the API's message.

Modules, one per concern of `googleCalendar.js`:

- `Wrappers` (js.dfy): `Option` and dictionary lookup.
- `Js` (js.dfy): the JSON values the extractor can send, JavaScript
  truthiness, and the string conversion that template literals and
  `Array.prototype.join` apply.
- `Fences` (fences.dfy): cleaning the model's reply before `JSON.parse`. It
  removes every "```json", then every "```", then trims white space.
- `Drafts` (drafts.dfy): the object-spread merge and the ordered list of
  missing fields. The source builds that list by pushes; `CollectMissing`
  does the same, and the reference definition `MissingFields` filters the
  fixed order.
- `Calendar` (calendar.dfy): the event payload and the reply of
  `createCalendarEvent`.
- `Dialogue` (dialogue.dfy): the class `Assistant`. Its field
  `conversationStates` is the module-level dictionary. `ProcessMessage` is
  one turn. The class invariant `Valid` says that a draft is stored only
  while something is still missing from it. `TitleThenDetails` is a
  two-message client of the contracts.

The language model, `JSON.parse`, `authorize()`, the date parser and the
calendar API are parameters. The model's reply is an `Option<string>`, where
None means the call threw. `JSON.parse` is a function `string -> Option<Draft>`.
The other three are the fields of `Services`.

The code has no intent classification (greeting, unrelated, save
contact), no guest resolver against a contact directory and no per-user
locking. Guest names become e-mails only inside the prompt, whose contact
list is empty. `db.js` is never called on the message path. A draft is
merged with whatever keys the new extraction has. A guest list is missing
when it is falsy or its `length` is 0.

## Model

| member | source | states |
|---|---|---|
| `Drafts.Merge` | googleCalendar.js:89-92 | every key of the new extraction wins, every other stored key is kept, the keys are the union, and with no stored draft the extraction is used as it is |
| `Drafts.MergeTwice` | googleCalendar.js:91 | merging two extractions in turn equals merging once with the second laid over the first (last write wins, key by key) |
| `Drafts.MergeIdempotent` | googleCalendar.js:91 | merging the same extraction a second time changes nothing |
| `Drafts.MergeKeepsFilledFields` | googleCalendar.js:91-99 | a field filled in the stored draft stays filled after a merge whose extraction does not mention its key |
| `Drafts.LengthIsZero` | googleCalendar.js:99 | `.length === 0` holds for an empty array or string and never for null, a boolean or a number |
| `Drafts.GuestsMissing` | googleCalendar.js:99 | an array or string of guests is missing exactly when it is empty; a truthy number or `true` passes as present |
| `Drafts.Lacks` | googleCalendar.js:96-99 | an absent key is always missing; a string value is missing exactly when it is empty |
| `Drafts.MissingFromExact` | googleCalendar.js:95-99 | the checks from the i-th on list exactly the missing fields at or after i, in strictly increasing order |
| `Drafts.MissingFields` | googleCalendar.js:95-99 | the missing list holds each missing field once and nothing else, in the order título, data, hora, convidados |
| `Drafts.NothingMissingIffComplete` | googleCalendar.js:95-101 | nothing is missing exactly when title, date and time are truthy and guests are truthy with a length other than 0 |
| `Drafts.CompleteForStringFields` | googleCalendar.js:95-99 | for string title/date/time and an array of guests: nothing is missing iff the three strings are non-empty and the array has an entry |
| `Drafts.CollectMissing` | googleCalendar.js:95-99 | the four checks with their pushes build exactly the reference missing list |
| `Fences.RemoveAll` | googleCalendar.js:86 | a global literal replace by '' never makes the string longer |
| `Fences.TrimStart` | googleCalendar.js:86 | the result is a suffix of the input, everything dropped before it is white space, and it does not start with white space |
| `Fences.TrimEnd` | googleCalendar.js:86 | the result is a prefix of the input, everything dropped after it is white space, and it does not end with white space |
| `Fences.Trim` | googleCalendar.js:86 | `.trim()` leaves a prefix of what dropping the leading white space leaves, everything it drops after that prefix is white space, and it has white space at neither end |
| `Fences.StripFences` | googleCalendar.js:86 | the text given to JSON.parse is no longer than the reply and has no white space at either end |
| `Fences.RemovalLeavesNoFence` | googleCalendar.js:86 | after every "```" is removed left to right, no "```" remains |
| `Fences.StripFencesClean` | googleCalendar.js:86 | the text given to JSON.parse has no "```" and no leading or trailing white space |
| `Fences.TrimKeepsNoFence` | googleCalendar.js:86 | trimming a string with no "```" cannot produce one |
| `Fences.FencedReply` | googleCalendar.js:86 | "```json\n" + X + "\n```" yields X when X has no backtick and no surrounding white space |
| `Fences.TickFreePrefix` | googleCalendar.js:86 | a backtick-free prefix passes through the removal of a pattern starting with a backtick unchanged |
| `Js.Falsy` | googleCalendar.js:96-99 | `!v` holds exactly for undefined, null, false, 0 and "" |
| `Js.NatToDecimal` | googleCalendar.js:40 | a non-negative number in a template literal is rendered as decimal digits that denote it, with no leading zero ("0" alone for zero) |
| `Js.IntToDecimal` | googleCalendar.js:40 | a non-negative number renders as its digits; a negative one as "-" followed by the digits of its magnitude |
| `Js.ToText` | googleCalendar.js:38-52 | a string is inserted as it is, any number as its sign and decimal digits, an empty array as "" |
| `Js.ElementText` | googleCalendar.js:38 | `.join` renders a null element as "", a string as it is and a number as its decimal digits |
| `Js.TemplateText` | googleCalendar.js:40-52 | `${v}` gives "undefined" for a missing property, a string as it is, any number as its sign and decimal digits |
| `Js.Join` | googleCalendar.js:38 | join of no parts is "", of one part is that part, of more starts with the first part and the separator |
| `Js.JoinAppend` | googleCalendar.js:38 | join of two non-empty runs is the two joins with one separator between them |
| `Calendar.GuestList` | googleCalendar.js:38-47 | falsy guests act as []; truthy guests are usable exactly when they are an array, and then they are its elements |
| `Calendar.GuestText` | googleCalendar.js:38 | no guests are listed as "", one guest alone; `GuestTextAppend` states how longer lists split at ", " |
| `Calendar.Attendees` | googleCalendar.js:47 | one attendee per guest, same order, each attendee's email is that guest |
| `Calendar.DurationMinutes` | googleCalendar.js:44 | a falsy duration is 60 minutes, a number is itself, and only numbers and booleans give a number; the duration used is never 0 |
| `Calendar.EndInstant` | googleCalendar.js:44 | the end exists exactly when start + minutes * 60000 lies within 8.64e15 ms of the epoch, and is then that many milliseconds after the start |
| `Calendar.BuildEvent` | googleCalendar.js:36-48 | a built event is in America/Sao_Paulo at both ends, has a start the date parser accepts and an end within the range of dates |
| `Calendar.BuildEventFails` | googleCalendar.js:36-48 | building the event throws exactly when guests are truthy but not an array, the duration is truthy but neither number nor boolean, the start is not a date, or the end falls outside the range of dates |
| `Calendar.FarEndThrows` | googleCalendar.js:44 | a duration that carries the end past the last representable date makes building the event throw even from a valid start |
| `Calendar.EventFromGuestArray` | googleCalendar.js:36-48 | with an array of guests: summary is the title, attendees match the guests one to one in order, description is the fixed prefix plus the guests joined by ", ", the start is the date-time text, both times in America/Sao_Paulo |
| `Calendar.CompleteDraftHasAttendees` | googleCalendar.js:47 | a complete draft whose event can be built invites at least one attendee |
| `Calendar.NoGuestsNoAttendees` | googleCalendar.js:38-47 | falsy guests give an empty attendee list and a description that is only the fixed prefix |
| `Calendar.GuestTextAppend` | googleCalendar.js:38 | the description's guest list joins piecewise with ", " |
| `Calendar.EndOffset` | googleCalendar.js:44 | the end is the parsed start plus duration minutes, 60 minutes when the duration is falsy, one minute for `true` |
| `Calendar.StartDateTime` | googleCalendar.js:40 | the start text is the rendered date, "T", the rendered time and ":00-03:00", each at its place and nothing else |
| `Calendar.StartFromStrings` | googleCalendar.js:40 | for string date and time the start is date + "T" + time + ":00-03:00" |
| `Calendar.CreateCalendarEvent` | googleCalendar.js:34-57 | a reply comes back exactly when the event can be built; it is the confirmation when the insert succeeds and the failure text with the API's message when it is rejected |
| `Calendar.SuccessText` | googleCalendar.js:52 | the confirmation puts a string title between quotes, and "undefined" when there is no title |
| `Calendar.FailureText` | googleCalendar.js:55 | the apology ends with the API's error message |
| `Calendar.SuccessNamesTitle` | googleCalendar.js:50-52 | a successful insert is confirmed with the title between quotes |
| `Dialogue.Prompt` | googleCalendar.js:104 | the question starts with the fixed prefix, ends with ".", names a single missing field alone and puts ", " after the first of several |
| `Dialogue.PromptRest` | googleCalendar.js:104 | the question about several fields is the first name, ", " and the question about the rest, so every missing name is listed in order |
| `Dialogue.Extract` | googleCalendar.js:84-87 | no draft without a model reply; with a reply, a draft exists exactly when the parser accepts the fence-stripped text, and is what it makes of it |
| `Dialogue.Finish` | googleCalendar.js:105-114 | a failed authorization or an event that cannot be built gives the retry reply; otherwise the confirmation or the failure text, as the insert turns out |
| `Dialogue.Assistant.constructor` | googleCalendar.js:15 | the bot starts with no draft for anyone |
| `Dialogue.Assistant.ProcessMessage` | googleCalendar.js:60-116 | a failed model call or parse leaves the map as it was and returns the retry reply; an incomplete merged draft is stored under the sender and the reply lists what is missing; a complete one is removed before authorization and creation, whatever they do; other senders are never touched; stored drafts stay incomplete |
| `Dialogue.Assistant.Remember` | googleCalendar.js:103 | writes the draft under the sender and keeps the invariant |
| `Dialogue.Assistant.Forget` | googleCalendar.js:107 | deletes the sender's entry and keeps the invariant |
| `Dialogue.WritesKeepIncomplete` | googleCalendar.js:101-107 | storing a draft with something missing, or deleting an entry, keeps every stored draft incomplete |
| `Dialogue.StoredDraftIncomplete` | googleCalendar.js:101-103 | in a dictionary that keeps the class invariant, a draft held for a sender is never complete, so it is never one the bot should already have booked |
| `Dialogue.WritesStayAtKey` | googleCalendar.js:103-107 | writing or deleting the sender's entry leaves every other sender's entry alone |
| `Dialogue.TitleOnlyAsksForRest` | googleCalendar.js:95-104 | a message with only a title leaves data, hora and convidados to ask for |
| `Dialogue.DetailsComplete` | googleCalendar.js:89-101 | a second message with date, time and a guest completes a stored title-only draft |
| `Dialogue.DetailsBooked` | googleCalendar.js:105-109 | when authorization and the insert succeed and the start parses to a date an hour or more before the last one, that completed draft is booked and confirmed by its title |

## Left out

- The Gemini call, its prompt text, the `toLocaleDateString` date and the empty contact list (googleCalendar.js:61-81) are not modelled. The model's reply is a parameter, and None stands for a call that throws.
- `JSON.parse` is the parameter `parse`. A reply that parses to JSON other than an object (an array, a number, a string, null) is not modelled; `parse` yields an object or fails.
- `authorize()` and the token files (googleCalendar.js:18-32, get-token.js, authorize.js) do file I/O and OAuth. The model keeps only whether `authorize()` throws, as `Services.authorizes`.
- `new Date(text)` for the start (googleCalendar.js:44) is the oracle `Services.parseDate`, which gives the time value in milliseconds or None for an invalid date. The end is kept as its time value; formatting it with `toISOString` is not modelled, apart from the RangeError for a time value beyond 8.64e15 ms.
- `calendar.events.insert` (googleCalendar.js:50) is a network call. Its outcome is the oracle `Services.insert`. Logging the returned `htmlLink` is not modelled.
- Calendar.DurationMinutes, Calendar.BuildEventFails, Calendar.EndOffset: a truthy duration that is a string, an array or an object is modelled as making the event fail to build. JavaScript does that for non-numeric text and for objects, but it turns "30" or [30] into 30 minutes and [] into 0 minutes, so for those durations the source builds an event where the model reports the retry reply.
- Numbers are integers throughout the model (`Js.Value`), so fractions, NaN, -0 and exponent notation are not modelled. In particular a fractional duration such as 1.5 (a 90-second event at googleCalendar.js:44) cannot be expressed.
- Js.ToText: objects whose own keys hide `toString` or `valueOf` are rendered as "[object Object]".
- Strings are sequences of code points, not UTF-16 units. Only whether a length is 0 is ever used, and that is the same either way.
- Keys are unordered in a Dafny map. JavaScript key order only shows in the `JSON.stringify` of the draft inside the prompt, which is left out.
- Sender ids that name `Object.prototype` properties ("__proto__", "toString", ...) act differently on the plain object `conversationStates`. The model uses a map.
- db.js is a thin wrapper over Postgres, and nothing on the message path calls it.
- index.js is HTTP and Twilio plumbing. It calls `processMessage(incomingMsg)` without `from` (index.js:16), so the deployed bot keeps every sender's draft under one key. The model takes the sender as an explicit parameter.
- Concurrent requests interleaving at the `await`s on the shared dictionary are not modelled. The model is sequential.
- Console logging is not modelled.
