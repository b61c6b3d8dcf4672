# gympto membership tracker — Dafny model

A verified model of the logic of a small gym membership tracker: a React
front end that keeps a list of members with a subscription period and a
renewal history, and two serverless HTTP handlers that keep accounts and
per-account member lists in process memory.

What is modelled, module by module:

- `Types` (`types.dfy`): the `Member`, `RenewalRecord` and form-data records.
  Calendar dates are day numbers, so adding days is `+` and a difference of
  dates is `-`.
- `Dates` (`dates.dfy`): end date of a period, days carried over from a
  running period, signed days remaining, and `Math.max(0, x)`.
- `App` (`app.dfy`): adding, renewing and deleting members, the case-insensitive
  name search, the days-left helper and the subscription expiry prompt. The
  page's state is the class `AppState`, whose methods replace its `members`
  list with the value built by the pure list functions (`NewMember`,
  `RenewMatching`, `Deleted`). The class keeps the invariant that member ids
  are unique.
- `MemberList` (`member_list.dfy`): the all / active / expired / ending-soon
  filter, the three-way status badge, the clamped days figure and the avatar
  colour hash.
- `MemberForm` (`member_form.dfy`): the phone sanitiser and validator, the
  submit guard, the reset after a submit and the price clamp, as the class
  `MemberFormState`.
- `RenewalDialog` (`renewal_dialog.dfy`): the defaults filled in for a chosen
  member, the preview end date, the confirmed triple and the price clamp, as
  the class `RenewalDialogState`.
- `MembersApi` (`members_api.dfy`): the members endpoint (GET, POST, PUT,
  DELETE, anything else) over a map from e-mail address to member list. Its
  pure specification is `Step`; `MembersHandler.Handle` updates the map in
  place and is proved equal to it.
- `AuthApi` (`auth_api.dfy`): the register / login endpoint over the user
  table. Its pure specification is `AuthStep`; `AuthHandler.Handle` is
  proved equal to it.
- `Seqs` (`seqs.dfy`) and `Wrappers` (`wrappers.dfy`): `Array.prototype.filter`
  with its lemmas (membership, subsequence, partition, monotonicity), and
  `Option`.

The status filter follows the code rather than the design description: the
design calls a member "active" only with more than seven days left, but the
`active` filter keeps every member with at least one day left, so it also
shows the members badged "Ending Soon" (`MemberList.BadgeAgreesWithFilters`,
`MemberList.EndingSoonWithinActive`). The badge itself is the three-way split.

## Model

| member | source | states |
|---|---|---|
| `Dates.RemainingDays` | src/App.tsx:129-131 | carried-over days are the end minus the start when the end is later, 0 otherwise; never negative |
| `App.NewMember` | src/App.tsx:109-115 | a new member has the given fresh id, the form's fields, end date = start + duration and an empty renewal history |
| `App.Renewed` | src/App.tsx:123-153 | renewal keeps id, name and phone; the new duration is the chosen one plus the carried-over days; end = start + total duration, i.e. the old end + chosen duration for a running period and start + chosen duration otherwise; exactly one history entry (today, chosen duration, price, start, new end) is appended |
| `App.RenewMatching` | src/App.tsx:121-156 | renewal keeps the list length and order, renews exactly the members with the id, leaves the others equal, and every old history is a prefix of the new one |
| `App.Deleted` | src/App.tsx:159-161 | delete keeps exactly the members whose id differs, each as often as before, as an order-preserving subsequence |
| `App.DeleteRemovesOne` | src/App.tsx:159-161 | with unique ids, deleting a present id shortens the list by one |
| `App.DeleteAbsentKeepsAll` | src/App.tsx:159-161 | deleting an id no member has leaves the list unchanged |
| `App.DeletePreservesUniqueIds` | src/App.tsx:159-161 | deleting keeps member ids unique |
| `App.IncludesIffOccurs` | src/App.tsx:192 | the substring test holds exactly when the term occurs at some position of the name |
| `App.SearchByName` | src/App.tsx:191-193 | the search keeps exactly the members whose lower-cased name contains the lower-cased term, each as often as before, in list order |
| `App.SearchEmptyKeepsAll` | src/App.tsx:191-193 | an empty search term keeps every member |
| `App.SearchIgnoresTermCase` | src/App.tsx:191-193 | a term and its lower-cased form select the same members |
| `App.CalculateDaysLeft` | src/App.tsx:101-107 | a missing end date gives 0 days; otherwise the end date is today plus the result |
| `App.PromptWindow` | src/App.tsx:91-99 | the renewal prompt opens exactly for an active subscription whose end date is one to seven days ahead; never without an end date |
| `App.AppState.constructor` | src/App.tsx:33-36 | the page starts with no members and both dialogs closed |
| `App.AppState.AddMember` | src/App.tsx:109-118 | the new member is appended at the end, the add dialog is closed, ids stay unique |
| `App.AppState.RenewMember` | src/App.tsx:120-157 | the list becomes the renewed list; ids stay unique |
| `App.AppState.DeleteMember` | src/App.tsx:159-161 | the list becomes the list without that id, one shorter exactly when the id was present; ids stay unique |
| `App.AppState.CheckSubscriptionExpiry` | src/App.tsx:91-99 | the prompt flag is set when the prompt condition holds and is otherwise left as it was |
| `MemberList.FilteredMembers` | src/components/MemberList.tsx:32-44 | every filter keeps exactly the members its switch case accepts, each as often as before, as an order-preserving subsequence |
| `MemberList.AllShowsEveryone` | src/components/MemberList.tsx:41-42 | the `all` filter returns the list unchanged |
| `MemberList.ActiveExpiredPartition` | src/components/MemberList.tsx:35-38 | `active` and `expired` split the list: their results together are a permutation of it |
| `MemberList.EndingSoonWithinActive` | src/components/MemberList.tsx:39-40 | the `ending-soon` result is a subsequence of the `active` result |
| `MemberList.StatusOf` | src/components/MemberList.tsx:66-73 | the badge is Expired exactly for days left ≤ 0, Ending Soon exactly for 1..7, Active exactly above 7 |
| `MemberList.BadgeAgreesWithFilters` | src/components/MemberList.tsx:35-40 | the `expired` and `ending-soon` filters match their badges; the `active` filter matches the Active and Ending Soon badges together |
| `MemberList.DisplayedDays` | src/components/MemberList.tsx:147 | the days figure equals the days left when positive and is 0 otherwise |
| `MemberList.CharCodeSumConcat` | src/components/MemberList.tsx:24 | the character-code sum of a concatenation is the sum of the parts' sums |
| `MemberList.AvatarColorIndex` | src/components/MemberList.tsx:24-25 | the palette index is below the palette size (5), and 0 for an empty name |
| `MemberList.AvatarColor` | src/components/MemberList.tsx:16-26 | the avatar colour is one of the palette entries |
| `MemberList.AvatarColorIndexConcat` | src/components/MemberList.tsx:24-25 | the index of a concatenation is the sum of the parts' indices mod 5, so swapping the parts keeps the colour |
| `MemberForm.DigitsOnly` | src/components/MemberForm.tsx:74 | the digit filter keeps exactly the digits of the input, each as often as it occurs, in order |
| `MemberForm.SanitizePhone` | src/components/MemberForm.tsx:74 | the sanitised phone has only digits, at most 10 of them, and is the first min(10, #digits) digits of the input |
| `MemberForm.DigitsOnlyOfDigits` | src/components/MemberForm.tsx:74 | a string of digits passes the digit filter unchanged |
| `MemberForm.SanitizeIdempotent` | src/components/MemberForm.tsx:74 | sanitising a sanitised phone changes nothing |
| `MemberForm.SanitizeKeepsValidPhone` | src/components/MemberForm.tsx:74 | a phone matching the ten-digit pattern survives sanitising unchanged |
| `MemberForm.SanitizedPhoneAcceptable` | src/components/MemberForm.tsx:73-81 | a sanitised phone is accepted exactly when it has 0 or 10 digits |
| `MemberForm.SubmitGuard` | src/components/MemberForm.tsx:48-59 | submit rejects a price ≤ 0 (so 0 too) and a non-empty phone that is not 10 digits |
| `MemberForm.EmptyForm` | src/components/MemberForm.tsx:24-30 | the reset form has name '', phone '', start today, duration 30 and price 0 |
| `MemberForm.EmptyFormRejected` | src/components/MemberForm.tsx:57-68 | the form as reset after a submit cannot be submitted again unchanged |
| `MemberForm.MemberFormState.constructor` | src/components/MemberForm.tsx:24-33 | the form starts empty, with the picker on today and no error |
| `MemberForm.MemberFormState.ValidatePhone` | src/components/MemberForm.tsx:35-46 | the phone is accepted exactly when empty or ten digits; the error message is set exactly on rejection |
| `MemberForm.MemberFormState.HandleSubmit` | src/components/MemberForm.tsx:48-71 | the data is passed on exactly when the guard accepts it; then the form is reset, otherwise it is kept; the phone error is touched only when a phone was entered |
| `MemberForm.MemberFormState.HandlePhoneChange` | src/components/MemberForm.tsx:73-81 | the phone field holds the sanitised input, and the error is always cleared |
| `MemberForm.MemberFormState.HandlePriceChange` | src/components/MemberForm.tsx:152 | the stored price is the input clamped to ≥ 0 |
| `RenewalDialog.PreviewEndDate` | src/components/RenewalDialog.tsx:50-51 | the preview end date lies exactly the selected duration after the start date |
| `RenewalDialog.ConfirmedEndIsPreviewPlusRemaining` | src/components/RenewalDialog.tsx:149-151 | confirming the default start date renews the member to the preview date plus the remaining days the dialog announces |
| `RenewalDialog.RenewalDialogState.constructor` | src/components/RenewalDialog.tsx:17-21 | the dialog starts with duration 30, price 0, start today, no remaining days and the history hidden |
| `RenewalDialog.RenewalDialogState.OnMemberChange` | src/components/RenewalDialog.tsx:23-41 | for a chosen member: remaining days are end − today when the end is ahead and 0 otherwise, the start date is today in both cases, the price is the member's last price; without a member nothing changes |
| `RenewalDialog.RenewalDialogState.HandleSubmit` | src/components/RenewalDialog.tsx:45-48 | submit hands exactly (duration, price, start date) on and changes nothing |
| `RenewalDialog.RenewalDialogState.HandlePriceChange` | src/components/RenewalDialog.tsx:160 | the stored price is the input clamped to ≥ 0 |
| `RenewalDialog.RenewalDialogState.HandleDurationChange` | src/components/RenewalDialog.tsx:140 | the selected duration is stored |
| `MembersApi.Split` | netlify/functions/members.js:15 | splitting yields at least one piece and no piece contains the separator |
| `MembersApi.JoinSplit` | netlify/functions/members.js:15 | joining the pieces of a split gives back the header |
| `MembersApi.SplitAtFirst` | netlify/functions/members.js:15 | a header holding a space splits into at least two pieces: the first word, a space, and the rest |
| `MembersApi.BearerToken` | netlify/functions/members.js:15 | a header containing a space yields a token, and a token is always the second space-separated word of the header; no header, no token |
| `MembersApi.ListOf` | netlify/functions/members.js:28 | the caller's list, or [] when there is none |
| `MembersApi.FindIndex` | netlify/functions/members.js:48 | the result is −1 exactly when no member has the id, and otherwise the first index with it |
| `MembersApi.Merge` | netlify/functions/members.js:57 | the merged member keeps its id, takes every other field of the update and keeps the fields the update lacks |
| `MembersApi.WithoutId` | netlify/functions/members.js:69 | keeps exactly the members with another id, each as often as before, in order |
| `MembersApi.Step` | netlify/functions/members.js:14-81 | without a valid token: 401 and no change; no other account's list changes; only POST, PUT and DELETE change anything; other methods get 405 |
| `MembersApi.GetReturnsList` | netlify/functions/members.js:25-30 | GET answers 200 with the caller's list or [] and changes nothing |
| `MembersApi.PostAppends` | netlify/functions/members.js:32-43 | POST appends the body at the end of the caller's list (creating it) and returns it |
| `MembersApi.PostThenGet` | netlify/functions/members.js:25-43 | a posted member is the last one a following GET lists |
| `MembersApi.PutUnknownId` | netlify/functions/members.js:46-55 | PUT with an id not in the caller's list answers 404 and changes nothing |
| `MembersApi.PutMergesFirstMatch` | netlify/functions/members.js:45-64 | PUT merges into the first member with the id, keeps its id, keeps every other member, and returns the merged member |
| `MembersApi.DeleteRemovesAll` | netlify/functions/members.js:66-75 | DELETE keeps exactly the members with another id, each as often as before, in order, and always answers 200 |
| `MembersApi.DeleteThenPutNotFound` | netlify/functions/members.js:45-75 | after deleting an id, updating it answers 404 and changes nothing |
| `MembersApi.MembersHandler.constructor` | netlify/functions/members.js:4 | the store starts empty |
| `MembersApi.MembersHandler.Caller` | netlify/functions/members.js:6-16 | a request without a bearer token acts for nobody; with one, it acts for whoever `jwt.verify` says the token belongs to |
| `MembersApi.MembersHandler.Handle` | netlify/functions/members.js:14-81 | the in-place update of the store and the response equal `Step` of the old store |
| `AuthApi.AuthStep` | netlify/functions/auth.js:7-69 | non-POST gets 405 and no change; only a registration of an address that is neither stored nor an inherited property name changes the table, by adding exactly that account with the hashed password and no members; a 200 always carries a token for the request's address |
| `AuthApi.RegisterExisting` | netlify/functions/auth.js:18-23 | registering a taken address or an inherited property name answers 400 and changes nothing |
| `AuthApi.RegisterNew` | netlify/functions/auth.js:25-37 | registering a new address adds exactly that key, leaves the others, and answers 200 with a token and the address |
| `AuthApi.LoginOutcomes` | netlify/functions/auth.js:40-63 | login never changes the table; unknown address: "User not found"; wrong password: "Invalid password"; otherwise 200 with a token |
| `AuthApi.UnknownAction` | netlify/functions/auth.js:65-68 | any other action answers 400 "Invalid action" |
| `AuthApi.RegisterThenLogin` | netlify/functions/auth.js:17-62 | after registering, login with the same password succeeds and with a password of another hash fails |
| `AuthApi.StepKeepsOwnKeysOnly` | netlify/functions/auth.js:17-47 | the table never gains an account under an inherited property name, so a login for one answers "User not found" |
| `AuthApi.AuthHandler.constructor` | netlify/functions/auth.js:5 | the user table starts empty |
| `AuthApi.AuthHandler.Handle` | netlify/functions/auth.js:7-69 | the in-place update of the table and the response equal `AuthStep` of the old table, and no account is ever stored under an inherited name |

## Left out

- src/utils/memberUtils is not part of this model: `calculateEndDate` is taken as start + duration and `getDaysRemaining` as end − today, the documented period rules; `formatCurrency` is display only.
- Dates are day numbers: parsing, `format`, time zones, `isFuture` on the current instant and the millisecond arithmetic with `Math.ceil` in `calculateDaysLeft` are not modelled, so a time-of-day effect (for example `differenceInDays` truncating a partial day) is not captured. "Today" is a parameter.
- Prices and durations are integers: fractional numbers and `NaN` from `Number(...)` are not modelled.
- `crypto.randomUUID` is a parameter; `App.AppState.AddMember` requires that it is not already used, the uniqueness the UUID generator is relied on for.
- `App.SearchByName` folds case for ASCII letters only; the full Unicode `toLowerCase` mapping is not modelled.
- `MemberList.CharCodeSum` adds Unicode scalar values; for characters outside the Basic Multilingual Plane `charCodeAt(0)` gives a UTF-16 surrogate instead, which is not modelled.
- localStorage loading and saving, login and logout bookkeeping in the page (src/App.tsx:28-89): I/O around the member list.
- Rendering: the admin redirect and the verification gate (src/App.tsx:163-189) only choose a screen; src/components/ConfirmDialog.tsx, the history toggle and the delete/renew dialog wiring in the list are UI.
- The progress-bar width in the list (src/components/MemberList.tsx:158-164): floating point, display only.
- The name field's required / 2–50 characters rule and the name and start-date setters of the form: browser-side input handling, not part of the submit logic.
- `jwt.verify` and `jwt.sign` are oracles (`verifyToken`, `sign`); `bcrypt.hash` is a deterministic hash oracle, so salting is not modelled, and `bcrypt.compare` is "hash and compare".
- Requests arrive with their JSON bodies decoded and are handled one at a time; `async`, JSON parsing failures and concurrency are not modelled.
- `m.id === id` compares ids structurally; JavaScript compares object-valued ids by reference.
- `AuthApi.AuthStep`: a login for an inherited property name such as `toString` finds a truthy `users[email]` without a `password`, so `bcrypt.compare` throws and the handler fails; the model answers "User not found" instead (`AuthApi.StepKeepsOwnKeysOnly`), since exceptions are not modelled.
- `MembersApi.Step`: `userMembers` is taken as a map of own keys only; an inherited property name as the caller's address is not modelled (registration refuses such names, so no signed token carries one).
