# Eventra client core in Dafny

Eventra is a campus event platform. This project models the logic of its React client. The modelled parts are:

- `App.jsx`: the sign-in/sign-up modal, the request it builds, how it settles the server's answer, and which dashboard it shows;
- `CreateEvent.jsx`: the event authoring form (validation, the event object it creates, tags, category glyphs, poster upload);
- `StudentDashboard.jsx`: the student's registration ledger;
- `FacultyDashboard.jsx`: the faculty dashboard's event list, statistics and month calendar;
- `OrganizerDashboard.jsx`: the organizer dashboard's event list, statistics, header and cards.

Each component whose handlers update state is a Dafny `class`. Its React state is held in fields, its handlers are methods with `modifies this`, and every method's `ensures` gives the whole new state. The values those handlers compute are pure functions, and lemmas prove what the component promises about them.

Asynchronous steps are modelled as queues with completion methods. The steps are a `fetch` in flight, a `setTimeout` and a `FileReader`. A queued step completes by index, so completions can interleave in any order:

- `Auth.App`: `pending` and `timers`;
- `Authoring.CreateEventForm`: `pendingReads` and `pendingResets`.

Modules and files:

| file | module | models |
|---|---|---|
| values.dfy | `Values` | `Option`, `Result`, and the "first failing check" rule that both forms follow |
| text.dfy | `Text` | the string built-ins the code calls: `trim`, `toUpperCase`, `split`/`join`, `includes`, `parseInt`, the number test behind `isNaN`, number-to-string |
| listing.dfy | `Listing` | id-keyed lists: `some`, `filter` by id, append with id `length + 1`, the `filter(...).length` count and the `reduce` sum |
| registration.dfy | `Registration` | `StudentDashboard.jsx` |
| authoring.dfy | `Authoring` | `CreateEvent.jsx` |
| auth.dfy | `Auth` | `App.jsx` |
| calendar.dfy | `Calendar` | the `Date` arithmetic of the faculty calendar, following ECMA-262 section 21.4 |
| faculty.dfy | `Faculty` | `FacultyDashboard.jsx` |
| organizer.dfy | `Organizing` | `OrganizerDashboard.jsx` |

Behaviour of the code worth knowing:

- A toggle undone by a second toggle restores the same set of ids. When the event was registered, though, it comes back at the end of the list, so the list itself is not restored (`Registration.DoubleToggleReorders`).
- The location of an offline event is not trimmed, so a location of only spaces passes validation (`Authoring.OfflineLocation`).
- `handleSubmit` checks the capacity only for being numeric. It does not itself reject zero, negative or fractional capacities, and the event keeps `parseInt`'s value (`Authoring.ParseCapacity`). The numeric check and `parseInt` disagree on exponents: `1e3` passes the check as a thousand, yet the event stores 1 (`Authoring.ExponentCapacityTruncated`).
- `handleSubmit` performs no check against a past date. Nothing makes the location and the meeting link exclusive.
- The organisation id travels under the key `organizerId` in every request (`Auth.WireName`).
- An accepted sign-in whose answer carries no `user` still logs in, with a record that holds only the role (`Auth.LoginUser`).
- Stepping the calendar back from January of year 100 and forward again does not return to where it started. This is because the `Date` constructor reads years 0 to 99 as 1900 to 1999 (`Calendar.StepBackPastYear100`). Apart from that edge, going forward after going back is the identity (`Calendar.NextAfterPrevious`).
- A day is highlighted when any event falls on that day of the month, whatever the event's month or year (`Faculty.HighlightedIff`).
- The submit button is disabled while a request is loading (`Auth.App.HandleSubmit` fires only when `Auth.App.SubmitDisabled` is false, and a sent request disables it). Opening the modal again clears `loading`, though (`Auth.App.HandleAuthClick`), so a second request can be sent while the first is in flight. Several requests can then be outstanding, and their answers settle in any order.
- After a deletion, the id `length + 1` given to the next event can equal an id still in the list (`Listing.NextIdCollidesAfterRemove`).

## Model

| member | source | states |
|---|---|---|
| Values.FirstFailure | src/CreateEvent.jsx:117-151 | the message reported is the first failing check's, and there is none exactly when every check passes |
| Text.Trim | src/App.jsx:118 | the result is empty exactly for an all-whitespace input; otherwise it is the input with its leading and trailing whitespace cut off, and starts and ends with non-whitespace |
| Text.TrimIdempotent | src/App.jsx:123 | trimming twice is trimming once |
| Text.Upper | src/App.jsx:123 | same length; every character is upper-cased letter by letter, the rest are unchanged |
| Text.UpperIdempotent | src/App.jsx:123 | upper-casing twice is upper-casing once |
| Text.TrimUpper | src/App.jsx:123 | trimming and upper-casing commute |
| Text.UpperSpacing | src/App.jsx:123 | upper-casing keeps the length and the positions of whitespace |
| Text.UpperSlice | src/App.jsx:123 | upper-casing a slice is slicing the upper-cased string |
| Text.SameLeading | src/App.jsx:123 | strings with whitespace in the same places have the same leading whitespace |
| Text.SameTrailing | src/App.jsx:123 | strings with whitespace in the same places have the same trailing whitespace |
| Text.UpperChar | src/OrganizerDashboard.jsx:572 | a lower-case letter becomes its capital; any other character is unchanged |
| Text.Lower | src/CreateEvent.jsx:105 | same length; every character is lower-cased letter by letter, the rest are unchanged |
| Text.StartsWith | src/CreateEvent.jsx:74 | `startsWith`: the string begins with the prefix; `Authoring.UploadError` states its use on the file type |
| Text.Contains | src/App.jsx:179 | true exactly when the substring occurs at some position |
| Text.Split | src/FacultyDashboard.jsx:65 | at least one part, and no part contains the separator |
| Text.JoinSplit | src/CreateEvent.jsx:167 | joining the parts of a split with the separator gives the input back |
| Text.SplitJoin | src/CreateEvent.jsx:167 | splitting a join of separator-free parts gives the parts back |
| Text.SplitConcat | src/FacultyDashboard.jsx:65 | splitting `a + sep + b` is splitting `a` followed by splitting `b` |
| Text.SplitFree | src/FacultyDashboard.jsx:65 | a string without the separator splits into itself |
| Text.NatToString | src/App.jsx:188 | a non-empty numeral of decimal digits |
| Text.NatToStringValue | src/App.jsx:188 | the numeral of `n` has value `n` |
| Text.ParseInt | src/FacultyDashboard.jsx:66 | NaN (None) exactly when no digit follows the leading whitespace and optional sign |
| Text.ParseIntDigits | src/FacultyDashboard.jsx:66 | a string of digits parses to its decimal value, leading zeros allowed |
| Text.ParseIntPrefix | src/FacultyDashboard.jsx:66 | leading whitespace, an optional `+` or `-` and a run of digits parse to the run's value, negated after `-`, whatever non-digit text follows |
| Text.ParseIntAfterBlanks | src/FacultyDashboard.jsx:66 | leading whitespace does not change what is parsed |
| Text.ParseIntSigned | src/FacultyDashboard.jsx:66 | an optional sign and a digit run, then a non-digit or nothing, parse to the signed value of the run |
| Text.ParseIntAfterSign | src/FacultyDashboard.jsx:66 | a `+` or `-`, a digit run and a non-digit tail parse to the run's value, negated after `-` |
| Text.ParseIntDigitsThen | src/FacultyDashboard.jsx:66 | a digit run followed by a non-digit or nothing parses to the run's value |
| Text.IsNumeric | src/CreateEvent.jsx:147 | the numeric test behind `isNaN`; `Text.DigitsAreNumeric` and `Authoring.ExponentCapacityTruncated` state what it accepts |
| Text.Join | src/CreateEvent.jsx:167 | the inverse of the split of the tag list: `Text.JoinSplit` and `Text.SplitJoin` state the two round trips |
| Text.DigitsAreNumeric | src/CreateEvent.jsx:147 | a string of digits passes the numeric test behind `isNaN` |
| Listing.HasId | src/StudentDashboard.jsx:90-92 | true exactly when some entry carries the id |
| Listing.RemoveId | src/FacultyDashboard.jsx:89 | no entry with the id is left, every other entry is kept, nothing new appears |
| Listing.RemoveIdConcat | src/OrganizerDashboard.jsx:72 | removal works piecewise over a concatenation, so the rest keep their order |
| Listing.RemoveAbsent | src/FacultyDashboard.jsx:87-91 | deleting an id that is not present leaves the list unchanged |
| Listing.HasIdAfterRemove | src/FacultyDashboard.jsx:89 | after removal an id is present exactly when it differs from the removed one and was present before |
| Listing.RemoveIdLength | src/FacultyDashboard.jsx:89 | removal shortens the list by the number of entries with that id |
| Listing.CountId | src/FacultyDashboard.jsx:89 | the count of entries with an id is zero exactly when the id is absent |
| Listing.CountDistinct | src/StudentDashboard.jsx:81 | in a list with distinct ids, a present id occurs once |
| Listing.RemoveKeepsDistinct | src/StudentDashboard.jsx:81 | removal keeps the ids distinct |
| Listing.HasIdAppend | src/StudentDashboard.jsx:85 | after appending, an id is present exactly when it was present before or is the appended one |
| Listing.RemoveSingle | src/FacultyDashboard.jsx:89 | removal from a one-entry list drops the entry exactly when its id matches |
| Listing.AppendKeepsDistinct | src/StudentDashboard.jsx:85 | appending an absent id keeps the ids distinct |
| Listing.AppendNext | src/FacultyDashboard.jsx:78-84 | one entry more, the old entries unchanged, and the new one last with id `length + 1` |
| Listing.AppendNextNumbers | src/FacultyDashboard.jsx:81 | a list numbered 1..n stays numbered 1..n+1 after an append |
| Listing.NextIdCollidesAfterRemove | src/FacultyDashboard.jsx:81-89 | after deleting id 1 from a list with ids 1, 2, 3, the next event also gets id 3 |
| Listing.CountWhere | src/FacultyDashboard.jsx:661 | the count is at most the length, and zero exactly when no entry matches |
| Listing.CountConcat | src/FacultyDashboard.jsx:661 | the count over a concatenation is the sum of the counts |
| Listing.SumConcat | src/FacultyDashboard.jsx:665 | the sum over a concatenation is the sum of the sums |
| Listing.CountPartition | src/FacultyDashboard.jsx:661-669 | when every entry matches exactly one of two tests, the two counts add up to the length |
| Listing.CountDisjoint | src/FacultyDashboard.jsx:661-669 | when no entry matches both tests, the two counts add up to at most the length |
| Listing.SumNonNegative | src/FacultyDashboard.jsx:665 | a sum of non-negative values is non-negative |
| Listing.RemoveUniqueSum | src/OrganizerDashboard.jsx:72 | removing the only entry with an id takes exactly its value off the sum |
| Listing.RemoveUnique | src/OrganizerDashboard.jsx:72 | removing the only entry with an id leaves the entries before and after it, in order |
| Registration.Toggle | src/StudentDashboard.jsx:76-87 | the ledger after a click; `Registration.ToggleFlips` and `Registration.ToggleFrame` state that it flips this event's registration and keeps every other one |
| Registration.ToggleFlips | src/StudentDashboard.jsx:76-87 | a toggle flips whether the event's id is registered |
| Registration.ToggleFrame | src/StudentDashboard.jsx:81-85 | a toggle leaves every other id's registration as it was |
| Registration.ToggleKeepsDistinct | src/StudentDashboard.jsx:77-86 | a ledger with distinct ids keeps them distinct |
| Registration.ToggleLength | src/StudentDashboard.jsx:81-86 | with distinct ids, a toggle changes the length by exactly one |
| Registration.UnregisterKeepsOrder | src/StudentDashboard.jsx:81 | unregistering removes the event and keeps the others in order |
| Registration.DoubleToggleRestoresIds | src/StudentDashboard.jsx:81-85 | two toggles of the same event restore the set of registered ids |
| Registration.DoubleToggleFromUnregistered | src/StudentDashboard.jsx:81-85 | starting unregistered, two toggles restore the ledger exactly |
| Registration.DoubleToggleFromRegistered | src/StudentDashboard.jsx:81-85 | starting registered, two toggles move the event to the end |
| Registration.DoubleToggleReorders | src/StudentDashboard.jsx:81-85 | a concrete two-event ledger whose order a double toggle changes |
| Registration.StudentDashboard.constructor | src/StudentDashboard.jsx:4 | the ledger starts empty, with nothing registered |
| Registration.StudentDashboard.IsRegistered | src/StudentDashboard.jsx:90-92 | true exactly when some ledger entry has the id |
| Registration.StudentDashboard.HandleRegisterEvent | src/StudentDashboard.jsx:76-88 | the new ledger is the toggle of the old one; the event's registration flips and no other id's changes; registering appends at the end |
| Authoring.GlyphFor | src/CreateEvent.jsx:105 | a non-empty glyph, taken from the table or else the pin; a category whose lower-cased name is not a key gets the pin |
| Authoring.CategoriesHaveGlyphs | src/CreateEvent.jsx:26-54 | each of the twelve categories has its lower-cased name in the glyph table |
| Authoring.CategoryKey | src/CreateEvent.jsx:26-54 | the lower-cased name of each category is a key of the glyph table with a glyph other than the pin |
| Authoring.GlyphIgnoresCase | src/CreateEvent.jsx:105 | the glyph chosen does not depend on upper or lower case |
| Authoring.UnknownCategoryGetsPin | src/CreateEvent.jsx:105 | a category missing from the table gets the pin glyph |
| Authoring.Validate | src/CreateEvent.jsx:117-151 | no message exactly when all six checks pass: a non-blank title, a date, a time, a location or online, a non-blank link when online, an empty or numeric capacity |
| Authoring.ValidateIsFirstFailure | src/CreateEvent.jsx:117-151 | validation reports the first failing check in the order title, date, time, location, meeting link, capacity |
| Authoring.OnlineIgnoresLocation | src/CreateEvent.jsx:135 | an online event's validation does not depend on its location |
| Authoring.OnlineNeedsLink | src/CreateEvent.jsx:141-145 | an online event with a blank link fails with the meeting-link message |
| Authoring.OfflineLocation | src/CreateEvent.jsx:135-139 | an offline event with an empty location fails; a location of spaces passes as any other would |
| Authoring.ParseCapacity | src/CreateEvent.jsx:162 | unlimited exactly for an empty capacity; otherwise the number `parseInt` reads, or NaN exactly when it reads none |
| Authoring.ExponentCapacityTruncated | src/CreateEvent.jsx:147-162 | `1e3` passes the numeric check, but the stored capacity is 1 |
| Authoring.CapacityOfDigits | src/CreateEvent.jsx:147-162 | a digit string is numeric and becomes its integer value |
| Authoring.ValidCapacity | src/CreateEvent.jsx:147-151 | a form that validates has an empty or numeric capacity |
| Authoring.TrimAll | src/CreateEvent.jsx:167 | each part is trimmed, in place |
| Authoring.DropEmpty | src/CreateEvent.jsx:167 | only non-empty parts remain, all from the input |
| Authoring.Tags | src/CreateEvent.jsx:167 | every tag is non-empty, has no surrounding whitespace and no comma |
| Authoring.PiecesAreTags | src/CreateEvent.jsx:167 | comma-free pieces, trimmed and with blanks dropped, are well-formed tags |
| Authoring.PieceIsTag | src/CreateEvent.jsx:167 | a comma-free piece that is not blank trims to a well-formed tag |
| Authoring.TrimAllConcat | src/CreateEvent.jsx:167 | trimming works piecewise over a concatenation |
| Authoring.DropEmptyConcat | src/CreateEvent.jsx:167 | dropping empties works piecewise over a concatenation |
| Authoring.TagsConcat | src/CreateEvent.jsx:167 | the tags of `a,b` are the tags of `a` followed by those of `b` |
| Authoring.TagsOfPiece | src/CreateEvent.jsx:167 | a comma-free piece gives its trimmed self, or nothing when blank |
| Authoring.TagIsItsOwnTags | src/CreateEvent.jsx:167 | a well-formed tag on its own parses to just itself |
| Authoring.TagsOfJoin | src/CreateEvent.jsx:167 | joining tags with commas and parsing gives the same tags back, order and duplicates kept |
| Authoring.TagsDropBlank | src/CreateEvent.jsx:167 | a blank entry between two tags is dropped |
| Authoring.TrimIsInfix | src/CreateEvent.jsx:167 | a character of the trimmed string occurs in the original |
| Authoring.BuildEvent | src/CreateEvent.jsx:154-172 | title, description, date, time, end time, location, category, online flag, link and prerequisites are copied as typed; the event is Active with no participants; it has a custom image exactly when a preview exists, and the image is the preview or else the form's glyph; the capacity is the parsed capacity, unlimited exactly when empty; the tags are the parsed tag list, each a proper tag |
| Authoring.CreatedImage | src/CreateEvent.jsx:163 | the created image is the upload, the category's glyph or the pin |
| Authoring.UploadError | src/CreateEvent.jsx:68-77 | a file is accepted exactly when it is at most 5 MiB and of an `image/` type, and the size check comes first |
| Authoring.CreateEventForm.constructor | src/CreateEvent.jsx:4-24 | the initial form, no error, no message, nothing pending |
| Authoring.CreateEventForm.HandleTextInput | src/CreateEvent.jsx:56-62 | only the named field changes |
| Authoring.CreateEventForm.HandleOnlineToggle | src/CreateEvent.jsx:56-62 | only `isOnline` changes, to the checkbox's value |
| Authoring.CreateEventForm.HandleCategoryChange | src/CreateEvent.jsx:101-107 | the category and its glyph are set, nothing else |
| Authoring.CreateEventForm.HandleImageUpload | src/CreateEvent.jsx:64-91 | no file does nothing; a rejected file sets the guard's message; an accepted one starts a read |
| Authoring.CreateEventForm.FinishImageRead | src/CreateEvent.jsx:81-88 | the file and its data URL become the poster and the error is cleared |
| Authoring.CreateEventForm.HandleRemoveImage | src/CreateEvent.jsx:93-99 | only the file and the preview are cleared |
| Authoring.CreateEventForm.HandleSubmit | src/CreateEvent.jsx:109-219 | a failing check sets its message and creates nothing; otherwise the built event is handed on, the success message is set and a reset is scheduled; loading ends cleared |
| Authoring.CreateEventForm.ResetTick | src/CreateEvent.jsx:192-212 | the form returns to its initial values and the message is cleared |
| Auth.NormalizeOrgId | src/App.jsx:123 | blank exactly when the typed id is all whitespace, never longer than it, and free of lower-case letters |
| Auth.NormalizeOrgIdIdempotent | src/App.jsx:123 | normalising an id twice is normalising once, and the result is blank exactly when the typed id is |
| Auth.NormalizedOrgIdShape | src/App.jsx:123 | a normalised id has no surrounding whitespace and no lower-case letter |
| Auth.PrepareRequest | src/App.jsx:110-157 | the body or the refusal `handleSubmit` produces; `Auth.PrepareRequestIsFirstFailure` and `Auth.PreparedPayload` state which and what it holds |
| Auth.PrepareRequestIsFirstFailure | src/App.jsx:117-157 | a request is refused exactly when a required check fails, with the first failing message: the organisation id for login; then for sign-up the full name, then the organisation name (organizers) or the id (naming the role) |
| Auth.PreparedPayload | src/App.jsx:110-157 | a prepared payload holds exactly the fields for its mode and role plus the role, each as typed except the normalised, non-blank organisation id |
| Auth.LoginPayloadMatches | src/App.jsx:110-124 | a login carries email, password, role and the normalised id only |
| Auth.MemberPayloadMatches | src/App.jsx:126-158 | a student or faculty sign-up adds the full name and the normalised id |
| Auth.OrganizerPayloadMatches | src/App.jsx:126-149 | an organizer sign-up adds the full name and the eight organisation fields verbatim, and no id |
| Auth.LoginPayloadField | src/App.jsx:110-124 | a login body has a field exactly for email, password and id, each but the id as typed |
| Auth.MemberPayloadField | src/App.jsx:110-157 | a student or faculty sign-up body has a field exactly for email, password, full name and id, each but the id as typed |
| Auth.OrganizerPayloadField | src/App.jsx:110-149 | an organizer sign-up body has a field exactly for email, password, full name and the eight organisation fields, each as typed |
| Auth.WireNamesDistinct | src/App.jsx:110-157 | no two payload keys share a wire name |
| Auth.LoginIgnoresSignupFields | src/App.jsx:117-124 | a login depends only on email, password and id |
| Auth.OrgIdSpellingIrrelevant | src/App.jsx:123 | ids that normalise alike give the same request |
| Auth.LoginSameId | src/App.jsx:117-124 | ids with the same blankness and normal form give the same login request |
| Auth.MemberSameId | src/App.jsx:126-157 | ids with the same blankness and normal form give the same student or faculty sign-up |
| Auth.OrganizerIgnoresId | src/App.jsx:126-149 | an organizer sign-up does not depend on the id field |
| Auth.CaughtMessage | src/App.jsx:224-227 | the shown error is never empty and starts with "Error: " |
| Auth.ErrorMessage | src/App.jsx:187-188 | the server's message, else its error, else "Server Error: " and the status, never empty |
| Auth.LoginUser | src/App.jsx:203-218 | the logged-in record carries the role chosen on the page and every other key of the returned user unchanged |
| Auth.Settle | src/App.jsx:178-221 | what a server answer does to the page; `Auth.SettleFails`, `Auth.SettleSucceeds` and `Auth.SettledUser` state when it fails and whom it logs in |
| Auth.SettleFails | src/App.jsx:178-197 | a submission fails exactly on a wrong content type, an error status, or an organizer sign-up answered without a user, and always with a message |
| Auth.SettleSucceeds | src/App.jsx:196-221 | an accepted organizer sign-up waits with the role "organizer"; any other accepted answer logs in with the chosen role |
| Auth.SettledUser | src/App.jsx:196-221 | an organizer sign-up waits with an id slot that is not null and the role "organizer"; a login goes to a dashboard |
| Auth.RoleChosenOnPage | src/App.jsx:203-218 | a role in the returned user never overrides the role chosen on the page |
| Auth.AcceptsContentType | src/App.jsx:179 | a present, non-empty type that contains `application/json`; `Auth.CharsetContentType` states what it accepts and refuses |
| Auth.ContentTypeMessage | src/App.jsx:180 | the fixed text followed by the received type, or `null` when the header is missing |
| Auth.Interpolate | src/App.jsx:199 | a present string renders as itself and a missing one as `undefined`; `Auth.Settle` uses it for the success message |
| Auth.CharsetContentType | src/App.jsx:178-181 | a JSON type with a charset is accepted; HTML and a missing type are not |
| Auth.Dispatch | src/App.jsx:78-88 | a dashboard exactly for a user whose role is student, organizer or faculty; the landing page otherwise |
| Auth.DispatchLoggedIn | src/App.jsx:78-88 | a logged-in user sees the dashboard of the chosen role, never the landing page |
| Auth.DispatchUnknownRole | src/App.jsx:78-88 | a user of any other role sees the landing page |
| Auth.App.SubmitDisabled | src/App.jsx:637 | the button is enabled only when nothing is loading and no id was received |
| Auth.App.CopyTarget | src/App.jsx:71-76 | the copy writes the received id exactly when it is a non-empty string |
| Auth.App.ShowsOrgIdPanel | src/App.jsx:361-439 | the id panel shows exactly while the modal is open in organizer sign-up with a non-empty received id, and while it shows the submit button is disabled |
| Auth.App.constructor | src/App.jsx:11-34 | landing page, login mode, student role, blank form, nothing pending |
| Auth.App.HandleAuthClick | src/App.jsx:36-58 | the modal opens in the chosen mode as a student with a blank form, all messages cleared and no id panel |
| Auth.App.HandleRoleToggle | src/App.jsx:60-63 | only the role changes and the error is cleared |
| Auth.App.HandleLogout | src/App.jsx:65-68 | the user is logged out and the mode returns to login, so the landing page shows |
| Auth.App.CloseModal | src/App.jsx:362-366 | only the modal closes, and the id panel with it |
| Auth.App.SwitchAuthMode | src/App.jsx:643-651 | the mode flips, the messages and received id are cleared and the id panel is hidden |
| Auth.App.HandleInputChange | src/App.jsx:90-96 | only the named form field changes |
| Auth.App.HandleSubmit | src/App.jsx:98-176 | fires only from the open modal while the button is enabled, and the modal stays open; a refused request shows the first failing check's message and sends nothing; otherwise the request is queued, loading starts and the button is disabled |
| Auth.App.SendOrRefuse | src/App.jsx:98-176 | with the modal open and the button enabled: a refusal shows its message and sends nothing; a payload is queued with the current mode and role, and the button is disabled |
| Auth.App.ReceiveResponse | src/App.jsx:178-221 | a failure shows its message and clears loading; an organizer sign-up stores the id, disables submit, arms the login timer and shows the id panel when the modal is still open in organizer sign-up and the id is a non-empty string; any other success logs in and closes the modal |
| Auth.App.ApplyOutcome | src/App.jsx:186-221 | the state each settled outcome leaves, keeping a logged-in user on a dashboard and only organizers on timers |
| Auth.App.ReceiveFailure | src/App.jsx:224-227 | a request that throws shows "Error: " and the message, and loading is cleared |
| Auth.App.Tick | src/App.jsx:202-210 | the timer logs the organizer in and closes the modal, hiding the id panel |
| Calendar.FullYear | src/FacultyDashboard.jsx:71 | a year from 0 to 99 becomes 1900 more and any other year is kept, so the result is never such a two-digit year |
| Calendar.MonthLength | src/FacultyDashboard.jsx:55-57 | 28 to 31 days, 29 exactly for February of a leap year |
| Calendar.MonthsFollowOn | src/FacultyDashboard.jsx:55-57 | each month starts where the previous one ends, and the twelve make up the year |
| Calendar.DayFromYear | src/FacultyDashboard.jsx:59-60 | the day number of 1 January of a year; `Calendar.DayFromYearStep` states that consecutive years start a year length apart |
| Calendar.MakeDay | src/FacultyDashboard.jsx:55-61 | the day number `new Date(y, m, d)` denotes; `Calendar.MakeDayInYear` and `Calendar.MakeDayPastDecember` state it |
| Calendar.DayFromYearStep | src/FacultyDashboard.jsx:55-57 | consecutive years start one year length apart |
| Calendar.MakeDayInYear | src/FacultyDashboard.jsx:55-61 | for a month inside the year, the day number is the year start plus the days before the month and the date |
| Calendar.MakeDayPastDecember | src/FacultyDashboard.jsx:56 | month 12 of a year is January of the next |
| Calendar.WeekDay | src/FacultyDashboard.jsx:59-61 | a weekday from 0 to 6 |
| Calendar.Construct | src/FacultyDashboard.jsx:70-76 | a valid month, with the month argument's overflow carried into the year |
| Calendar.Previous | src/FacultyDashboard.jsx:70-72 | always a valid month; `Calendar.StepsRollOver` states that it steps back one month |
| Calendar.Next | src/FacultyDashboard.jsx:74-76 | always a valid month; `Calendar.StepsRollOver` states that it steps forward one month |
| Calendar.StepsRollOver | src/FacultyDashboard.jsx:70-76 | stepping moves by one month and rolls the year over in December and January |
| Calendar.NextAfterPrevious | src/FacultyDashboard.jsx:70-76 | going back then forward returns to the same month, outside years 0 to 100 |
| Calendar.PreviousAfterNext | src/FacultyDashboard.jsx:70-76 | going forward then back returns to the same month, outside years -1 to 99 |
| Calendar.StepBackPastYear100 | src/FacultyDashboard.jsx:70-76 | going back from January of year 100 and forward again lands in January 2000 |
| Calendar.DaysInMonth | src/FacultyDashboard.jsx:55-57 | the date of day 0 of the next month is this month's length, from 28 to 31 |
| Calendar.DayZeroIsLastDay | src/FacultyDashboard.jsx:56 | day 0 of the next month is the last day of this one |
| Calendar.FirstWeekday | src/FacultyDashboard.jsx:59-61 | the number of blank cells is from 0 to 6 |
| Calendar.GridColumns | src/FacultyDashboard.jsx:697-714 | each day's cell falls in the column of its weekday |
| Calendar.WeekShift | src/FacultyDashboard.jsx:697-714 | counting days on from a weekday moves the weekday by the same amount |
| Calendar.NextFirstWeekday | src/FacultyDashboard.jsx:59-76 | the next month starts on the weekday after this month's last day |
| Calendar.NextStartsAfter | src/FacultyDashboard.jsx:55-76 | the first of the next month is this month's length after the first of this one |
| Calendar.NextInYear | src/FacultyDashboard.jsx:55-76 | within a year the next month starts one month length later |
| Calendar.NextAcrossYear | src/FacultyDashboard.jsx:55-76 | January starts one December length after the first of December |
| Calendar.FebruaryLength | src/FacultyDashboard.jsx:55-57 | February has 29 days exactly in leap years |
| Calendar.EpochWeekday | src/FacultyDashboard.jsx:59-61 | January 1970 starts on a Thursday |
| Calendar.December2024Weekday | src/FacultyDashboard.jsx:59-61 | December 2024 starts on a Sunday |
| Calendar.FirstDayNumber | src/FacultyDashboard.jsx:59-61 | the blank cells of a month are the weekday of its first day number |
| Calendar.DayOfDate | src/FacultyDashboard.jsx:64-66 | `parseInt` of the third dash-separated part; `Calendar.DayOfWellFormedDate` states its value for a well-formed date |
| Calendar.DayOfWellFormedDate | src/FacultyDashboard.jsx:63-68 | a `y-m-d` date with a digit day gives that day's value |
| Calendar.DigitsHaveNoDash | src/FacultyDashboard.jsx:65 | a digit string has no dash |
| Faculty.StatsOf | src/FacultyDashboard.jsx:657-669 | total is the length; active and completed are each at most the total and together at most the total |
| Faculty.ActiveAndCompletedCoverAll | src/FacultyDashboard.jsx:661-669 | with only the two statuses, active and completed add up to the total |
| Faculty.EventDates | src/FacultyDashboard.jsx:63-68 | one day per event, in order, each the day field of that event's date |
| Faculty.Highlighted | src/FacultyDashboard.jsx:704 | whether a day's cell is marked; `Faculty.HighlightedIff` states exactly when |
| Faculty.HighlightedIff | src/FacultyDashboard.jsx:702-704 | a day is highlighted exactly when some event's date has that day, whatever its month |
| Faculty.EventMarksItsDay | src/FacultyDashboard.jsx:63-68 | an event dated `y-m-d` highlights day `d` |
| Faculty.CreatedEventStats | src/FacultyDashboard.jsx:78-85 | a newly created event adds one to the total and one to active, and changes neither completed nor participants |
| Faculty.DeleteUniqueStats | src/FacultyDashboard.jsx:87-91 | deleting the only event with an id takes one off the total and its participants off the sum |
| Faculty.FacultyDashboard.constructor | src/FacultyDashboard.jsx:5-51 | the initial events, the given month, no modal |
| Faculty.FacultyDashboard.Grid | src/FacultyDashboard.jsx:94-95 | 28 to 31 day cells after 0 to 6 blank cells |
| Faculty.FacultyDashboard.OpenCreateEvent | src/FacultyDashboard.jsx:729 | only the modal opens |
| Faculty.FacultyDashboard.CloseCreateEvent | src/FacultyDashboard.jsx:789 | only the modal closes |
| Faculty.FacultyDashboard.HandleEventCreated | src/FacultyDashboard.jsx:78-85 | the event is appended with id `length + 1` and the modal closes; the total rises by one, active by one if the event is active, and participants by its count |
| Faculty.FacultyDashboard.HandleDeleteEvent | src/FacultyDashboard.jsx:87-91 | on confirmation every event with the id goes and every other id stays; otherwise nothing changes |
| Faculty.FacultyDashboard.GoToPreviousMonth | src/FacultyDashboard.jsx:70-72 | the month becomes the one `new Date(year, month - 1)` gives |
| Faculty.FacultyDashboard.GoToNextMonth | src/FacultyDashboard.jsx:74-76 | the month becomes the one `new Date(year, month + 1)` gives |
| Organizing.StatsOf | src/OrganizerDashboard.jsx:603-611 | total is the length; active is at most the total and zero exactly when no event is active |
| Organizing.Entry | src/OrganizerDashboard.jsx:61-65 | the stored entry keeps the created event as it is and starts with no registrations, so it is active exactly when the event is |
| Organizing.RegistrationsNonNegative | src/OrganizerDashboard.jsx:609 | with no negative counts, the registrations total is not negative |
| Organizing.DeleteUniqueStats | src/OrganizerDashboard.jsx:70-74 | deleting the only event with an id takes one off the total and its registrations off the sum |
| Organizing.FieldOf | src/OrganizerDashboard.jsx:569 | `user?.[key]`: the field when the user is set and has the key, `undefined` otherwise |
| Organizing.FirstTruthy | src/OrganizerDashboard.jsx:569 | `a \|\| b \|\| fallback`: the first non-empty of the two, else the fallback |
| Organizing.DisplayName | src/OrganizerDashboard.jsx:569 | the shown name is never empty |
| Organizing.AvatarInitial | src/OrganizerDashboard.jsx:572-573 | the avatar is a single character |
| Organizing.AvatarMatchesName | src/OrganizerDashboard.jsx:569-573 | the avatar is the upper-cased first character of the shown name, in every case |
| Organizing.OrganizationNameFirst | src/OrganizerDashboard.jsx:569-573 | a set organisation name wins over the person's name in both header and avatar |
| Organizing.NoNames | src/OrganizerDashboard.jsx:569-573 | without either name the header reads "Organizer" and the avatar "O" |
| Organizing.EmailShown | src/OrganizerDashboard.jsx:570 | the e-mail if set, else the placeholder address |
| Organizing.PosterOf | src/OrganizerDashboard.jsx:626-631 | a card shows a picture exactly when the event has a custom image |
| Organizing.CreatedPoster | src/OrganizerDashboard.jsx:626-631 | a created event shows its uploaded preview as a picture, or its glyph as text |
| Organizing.CopyTarget | src/OrganizerDashboard.jsx:53-58 | the copy writes the user's id exactly when it is set and non-empty |
| Organizing.OrganizerDashboard.constructor | src/OrganizerDashboard.jsx:5-51 | the initial events, no modal |
| Organizing.OrganizerDashboard.OpenCreateEvent | src/OrganizerDashboard.jsx:618 | only the modal opens |
| Organizing.OrganizerDashboard.CloseCreateEvent | src/OrganizerDashboard.jsx:684 | only the modal closes |
| Organizing.OrganizerDashboard.HandleEventCreated | src/OrganizerDashboard.jsx:60-68 | the event is appended with id `length + 1` and no registrations, and the modal closes; the total rises by one, active by one if the event is active, and registrations are unchanged |
| Organizing.OrganizerDashboard.HandleDeleteEvent | src/OrganizerDashboard.jsx:70-74 | on confirmation every event with the id goes and every other id stays; otherwise nothing changes |

## Left out

- Network I/O is not modelled: `fetch`, its headers and credentials, and `response.json()`. A server answer is a `Response` value given to `Auth.App.ReceiveResponse`, and a thrown error is a message given to `Auth.App.ReceiveFailure`. The endpoint URL is not modelled.
- JSON values are modelled as strings only: a returned user is a map from keys to strings, and `message` and `error` are optional strings. Non-string JSON values are not modelled.
- `setTimeout` delays are modelled as queues that fire by index, not as wall-clock time: `Auth.App.Tick` and `Authoring.CreateEventForm.ResetTick`. The reset timer's `onClose()` belongs to the parent component and is not modelled.
- The `FileReader` is modelled as a queue of files being read. `FinishImageRead` receives the data URL as a parameter.
- The clipboard, `alert` and `confirm` are kept only as guards. `confirm`'s answer is the `confirmed` parameter.
- The browser's own form validation is not modelled: the `required` attributes of both forms, the `type="email"` check on the sign-in email, the capacity input's `min="1"` and its step of 1, a number input's clearing of text that is not a number, the date input's `min`, and the `type="url"` check on the meeting link. `Authoring.CreateEventForm.HandleSubmit` and `Auth.App.HandleSubmit` take any strings, so they also cover inputs these checks would stop before either `handleSubmit` runs.
- Time-dependent values are not modelled: `createdAt`, the `new Date()` the faculty calendar starts on (it is the constructor's `today` parameter), and locale month names.
- Local time, daylight saving and the `Date` range limit of ±8.64e15 ms are not modelled. The calendar works in ECMA-262's day arithmetic, where they do not change the month, length or weekday computed.
- Text.Trim, Text.Upper: whitespace is the ASCII set, and case mapping covers only ASCII letters, not full Unicode.
- Text.ParseInt: reads leading whitespace, an optional sign and the leading run of decimal digits, as `parseInt` does; a `0x` prefix read as hexadecimal and the loss of precision beyond 2^53 are not modelled.
- Text.IsNumeric: accepts blank strings, `Infinity` and decimal numerals with a sign, a fraction and an exponent; hex, binary and octal literals are not modelled.
- Authoring.GlyphFor: keys the table inherits from `Object.prototype` (such as `constructor`) are not modelled; the twelve category buttons never send such a key.
- Organizing.AvatarInitial: `charAt(0)` is taken on Dafny characters, not UTF-16 code units.
- The `TypeError` message for an organizer sign-up answered without a `user` uses V8's wording (`Auth.MissingUserMessage`). Other engines word it differently.
- Presentation is not modelled: CSS, JSX layout, `console.log`, the Edit buttons without handlers, the unused `editingEventId`, and the faculty header's name and avatar.
- The mock event arrays are not fixed in the model. The dashboards' constructors take the initial events as a parameter.
- The `isOpen` and `onEventCreated` props of the authoring form are not modelled. `HandleSubmit` returns the created event instead of calling back.
