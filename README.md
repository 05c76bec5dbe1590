# Travel-package admin form and mock session controller, in Dafny

This project models two client-side state controllers of a travel-package
booking front end and proves properties of them.

- **The Add / Edit Package form** (`AddEditPackageModal`). An itinerary of
  `{ day, description }` rows is kept as long as the duration field says.
  Days can be edited one by one. Place ids can be toggled in and out of a
  selection. A submit gate checks the destination and then the day
  descriptions before it makes the one `onSave` call. The pure parts are
  functions: `Resized`, `Edited`, `Toggled`, `Gate`. A class `PackageFormState`
  holds the form's fields. Its methods run the source's steps and state their
  new state in terms of those functions. Its `Valid()` invariant says the days
  are numbered 1..n, that there are as many as the duration while the
  duration field is non-empty (clearing it leaves the rows as they were), and that no place
  id is selected twice.
- **The mock `AuthProvider`.** It holds `user`, `loading`, `error` and the
  local-storage slot `'user'`. Login accepts two hardcoded credential pairs.
  Signup builds a non-admin user. Logout clears the user and the slot. Each
  operation is a function on a `Session` value (`AfterLogin`, ...). The class
  `AuthProvider` performs the same field updates step by step and is proved
  equal to those functions. A trace lemma shows that after start-up, and after
  any sequence of logins, signups and logouts, loading is off and the slot
  mirrors `user`.

Files: `Wrappers.dfy` (Option, Result), `JsString.dfy` (JavaScript's
`String.prototype.trim`), `PackageForm.dfy`, `AuthContext.dfy` (module `Auth`).

Things the code does that the model keeps:
- The save record holds exactly the seven fields the code builds. These are
  destination, title, description, duration, price, rating and image. Neither
  the itinerary nor the selected places go into it.
- When an existing package is edited, the itinerary still starts empty. The
  mount effect then fills it with blank days, so a save is refused until every
  day is described again (`FreshDaysBlockSave`).
- A failed login leaves the previous `user` in place: a user who is already
  logged in stays logged in.
- Toggling a place twice restores the exact list only when the place was
  absent. When it was present, it comes back at the end of the list
  (`ToggleTwicePresentReorders`). Membership is always restored.

## Model

| member | source | states |
|---|---|---|
| `JsString.TrimStart` | src/components/admin/AddEditPackageModal.tsx:78 | the result is the suffix of the input left after a run of whitespace, and does not start with whitespace |
| `JsString.TrimEnd` | src/components/admin/AddEditPackageModal.tsx:78 | the result is the prefix of the input before a run of whitespace, and does not end with whitespace |
| `JsString.Trim` | src/components/admin/AddEditPackageModal.tsx:78 | `s.trim()` is a contiguous slice of `s` whose prefix before it and suffix after it are whitespace only, and a non-empty result neither starts nor ends with whitespace |
| `JsString.BlankIffAllWhitespace` | src/components/admin/AddEditPackageModal.tsx:78 | `IsBlank(s)`, i.e. `!s.trim()`, holds exactly when every character of s is in `IsWhitespace`, ECMAScript's WhiteSpace and LineTerminator set |
| `PackageForm.BlankDays` | src/components/admin/AddEditPackageModal.tsx:42-44 | the pushed rows are `{day: from+k, description: ""}` for k = 0..to-from, and there are to-from+1 of them |
| `PackageForm.Resized` | src/components/admin/AddEditPackageModal.tsx:36-48 | the new itinerary has exactly n rows; when shrinking it is the first n old rows; when growing the old rows stay as a prefix and rows k >= old length are `{day: k+1, description: ""}` |
| `PackageForm.DurationEffect` | src/components/admin/AddEditPackageModal.tsx:36-48 | an empty duration field leaves the itinerary unchanged; otherwise it has as many rows as days, the old rows that survive are unchanged and the others are `{day: k+1, description: ""}` |
| `PackageForm.ResizedIdempotent` | src/components/admin/AddEditPackageModal.tsx:35-51 | resizing to the current length changes nothing, and re-running the effect for the same duration changes nothing more |
| `PackageForm.GrowThenShrink` | src/components/admin/AddEditPackageModal.tsx:41-47 | growing the duration and shrinking it back restores the old itinerary exactly |
| `PackageForm.ResizedKeepsNumbered` | src/components/admin/AddEditPackageModal.tsx:42-43 | if row k holds day k+1 before a resize, it does after |
| `PackageForm.Edited` | src/components/admin/AddEditPackageModal.tsx:104-110 | every row whose day equals d gets description s, every other row keeps its description, and the length and all day numbers are unchanged |
| `PackageForm.EditedKeepsNumbered` | src/components/admin/AddEditPackageModal.tsx:104-110 | an edit keeps the numbering row k = day k+1 |
| `PackageForm.EditedNumberedDay` | src/components/admin/AddEditPackageModal.tsx:104-110 | on a numbered itinerary, editing day d in 1..n replaces exactly row d-1 with `{day: d, description: s}` |
| `PackageForm.EditedMissingDay` | src/components/admin/AddEditPackageModal.tsx:106-108 | editing a day no row has leaves the itinerary unchanged |
| `PackageForm.EditedLastWins` | src/components/admin/AddEditPackageModal.tsx:104-110 | editing the same day twice equals editing it once with the second text |
| `PackageForm.ReplayKeepsNumbered` | src/components/admin/AddEditPackageModal.tsx:21-110 | from any numbered itinerary, the initial empty one of :21 included, any sequence of duration changes (the effect's push loop, :42-43) and day edits (:104-110) keeps row k holding day k+1 |
| `PackageForm.ThreeDaysEditShrink` | src/components/admin/AddEditPackageModal.tsx:35-51 | duration 3, then day 2 set to "Beach day", then duration 2, gives `[(1,""), (2,"Beach day")]` |
| `PackageForm.Without` | src/components/admin/AddEditPackageModal.tsx:115 | the filtered list holds exactly the ids of the input other than p, and is no longer |
| `PackageForm.WithoutAbsent` | src/components/admin/AddEditPackageModal.tsx:115 | filtering out an id that is absent returns the same list |
| `PackageForm.WithoutAppend` | src/components/admin/AddEditPackageModal.tsx:115 | filtering distributes over concatenation |
| `PackageForm.WithoutKeepsDistinct` | src/components/admin/AddEditPackageModal.tsx:115 | filtering keeps a list free of repeated ids |
| `PackageForm.Toggled` | src/components/admin/AddEditPackageModal.tsx:112-118 | p is in the result exactly when it was not in the input; every other id keeps its membership |
| `PackageForm.ToggledKeepsDistinct` | src/components/admin/AddEditPackageModal.tsx:112-118 | toggling never selects an id twice |
| `PackageForm.ToggleTwiceAbsent` | src/components/admin/AddEditPackageModal.tsx:112-118 | toggling an absent id twice restores the exact original list |
| `PackageForm.ToggleTwiceSameMembers` | src/components/admin/AddEditPackageModal.tsx:112-118 | toggling any id twice restores which ids are selected |
| `PackageForm.ToggleTwicePresentReorders` | src/components/admin/AddEditPackageModal.tsx:114-116 | toggling a present id twice can reorder the list: `["a","b"]` becomes `["b","a"]` |
| `PackageForm.AnyMatches` | src/components/admin/AddEditPackageModal.tsx:78 | `s.some(p)` is true exactly when some element satisfies p |
| `PackageForm.AnyBlank` | src/components/admin/AddEditPackageModal.tsx:78 | true exactly when some row's description is blank after trim |
| `PackageForm.Gate` | src/components/admin/AddEditPackageModal.tsx:72-82 | the save is refused for a missing destination exactly when the destination id is empty; for a blank day exactly when there is a destination and some description is all whitespace; it goes ahead exactly when there is a destination and no description is all whitespace (so an empty itinerary passes) |
| `PackageForm.Rejection.Message` | src/components/admin/AddEditPackageModal.tsx:73-79 | a missing destination shows "Please select a destination", a blank day "Please provide description for all days", and the two texts are distinct |
| `PackageForm.FreshDaysBlockSave` | src/components/admin/AddEditPackageModal.tsx:41-44 | with a destination and n >= 1 fresh blank days, the gate refuses with the blank-day message |
| `PackageForm.RatingOf` | src/components/admin/AddEditPackageModal.tsx:91 | the saved rating is the edited package's rating when it has one, and 0 otherwise |
| `PackageForm.FailureMessage` | src/components/admin/AddEditPackageModal.tsx:98 | the shown message is the thrown Error's message, or "An error occurred" for any other thrown value |
| `PackageForm.PackageFormState.Record` | src/components/admin/AddEditPackageModal.tsx:85-93 | the save record carries the selected destination, the title, the description, the duration, the price text, the image URL and `RatingOf` the edited package |
| `PackageForm.PackageFormState.constructor` | src/components/admin/AddEditPackageModal.tsx:14-25 | fields start from the edited package or empty, the destination prop wins over the package's, the itinerary is the effect applied to [] and the invariant holds |
| `PackageForm.PackageFormState.ApplyDuration` | src/components/admin/AddEditPackageModal.tsx:35-51 | the copy-and-push loop leaves the itinerary equal to `Resized(old, n)`, or unchanged for an empty duration |
| `PackageForm.PackageFormState.SetDuration` | src/components/admin/AddEditPackageModal.tsx:35-51 | a new duration re-derives the itinerary and keeps the invariant |
| `PackageForm.PackageFormState.SetDestination` | src/components/admin/AddEditPackageModal.tsx:20 | sets the selected destination and changes nothing else |
| `PackageForm.PackageFormState.EditDay` | src/components/admin/AddEditPackageModal.tsx:104-110 | the itinerary becomes `Edited(old, day, text)` and nothing else changes |
| `PackageForm.PackageFormState.TogglePlace` | src/components/admin/AddEditPackageModal.tsx:112-118 | the selection becomes `Toggled(old, id)` and nothing else changes |
| `PackageForm.PackageFormState.Submit` | src/components/admin/AddEditPackageModal.tsx:67-102 | loading ends false; a refused gate shows its message with no save and no close; otherwise exactly one save of `Record()` is made; a completed save is followed by one close, with an empty error unless `onClose` throws, whose message is then shown; a failed save shows its message and does not close |
| `Auth.Credentials` | src/context/AuthContext.tsx:51-73 | the admin pair gives the admin record, the user pair gives John Doe, and every other pair gives none |
| `Auth.Initial` | src/context/AuthContext.tsx:32-34 | the first render has no user, is loading, has no error, and storage as found |
| `Auth.AfterStartup` | src/context/AuthContext.tsx:36-43 | the user becomes the stored record if there is one, loading ends false, and error and storage are unchanged |
| `Auth.AfterLogin` | src/context/AuthContext.tsx:45-79 | loading ends false; a matching pair sets and stores that user and clears the error; any other pair sets "Invalid email or password" and leaves user and storage unchanged |
| `Auth.NewUser` | src/context/AuthContext.tsx:87-94 | the new record has exactly the given id, name, email, age and location, and `isAdmin == false` |
| `Auth.AfterSignup` | src/context/AuthContext.tsx:81-103 | loading ends false; with a generated id, user and storage become `NewUser(...)` and the error is cleared; if the generator throws, its message is shown and user and storage are unchanged |
| `Auth.AfterLogout` | src/context/AuthContext.tsx:105-108 | user and storage become empty; loading and error are unchanged |
| `Auth.SignupNeverAdmin` | src/context/AuthContext.tsx:93 | whatever the inputs, a signup whose id generator succeeds sets a user with `isAdmin == false` |
| `Auth.LogoutIdempotent` | src/context/AuthContext.tsx:105-108 | logging out twice is the same as logging out once |
| `Auth.LoginIdempotent` | src/context/AuthContext.tsx:45-79 | repeating a login with the same pair changes nothing further |
| `Auth.StepKeepsSettled` | src/context/AuthContext.tsx:58-59 | each login, signup or logout keeps "not loading and storage equals user" |
| `Auth.SettledRun` | src/context/AuthContext.tsx:40-107 | from a settled session, every sequence of actions ends settled; the invariant spans the startup read (:40) and the paired user/storage writes of login (:58-59, :69-70), signup (:96-97) and logout (:106-107) |
| `Auth.RunKeepsSettled` | src/context/AuthContext.tsx:36-43 | after start-up and any later actions, loading is false and the storage slot equals user |
| `Auth.UseAuth` | src/context/AuthContext.tsx:23-29 | without a provider value it fails with "useAuth must be used within an AuthProvider"; otherwise it returns the value |
| `Auth.AuthProvider.constructor` | src/context/AuthContext.tsx:31-34 | the provider's state is `Initial(storage)` |
| `Auth.AuthProvider.Start` | src/context/AuthContext.tsx:36-43 | the state becomes `AfterStartup(old)`, which is settled when no user was set before |
| `Auth.AuthProvider.Login` | src/context/AuthContext.tsx:45-79 | the step-by-step updates leave the state equal to `AfterLogin(old, email, password)` and keep it settled |
| `Auth.AuthProvider.Signup` | src/context/AuthContext.tsx:81-103 | the state becomes `AfterSignup(old, ...)` and stays settled |
| `Auth.AuthProvider.Logout` | src/context/AuthContext.tsx:105-108 | the state becomes `AfterLogout(old)` and stays settled |

## Left out

- Fetching places (the query by destination id, lines 53-65 of the form) is a network call whose failures are only logged. `availablePlaces` is not modelled. `SetDestination` does not fetch.
- `useDestinations` and the destination list are not part of this model.
- All rendering and event binding are left out. The title, description, price and image inputs are plain bindings; the model sets them only in the constructor.
- Parsing of the duration text is left out. The duration is an already parsed `Option<nat>`, where None is the empty field. A non-numeric or negative text is not modelled. For such a text, `parseInt` gives NaN, which leaves the itinerary unchanged, and a negative count makes `slice` drop rows from the tail.
- `parseFloat(price)` is floating point. The save record carries the price field's text instead.
- `PackageForm.RatingOf`: a NaN rating is not modelled; `NaN || 0` would give 0.
- `Auth.AfterSignup`: `crypto.randomUUID()` is a parameter (`IdSource`), either an id or the message it threw. Ids are not claimed to be unique.
- JSON serialisation and the local-storage API are left out. The slot is an `Option<User>` that stores the record itself. A `setItem` that throws (storage full) and a stored text that `JSON.parse` rejects are not modelled.
- `Auth.AfterSignup`: the age is a Dafny `int`. In the source it is a JavaScript number, stored unchanged, so it may also be fractional or NaN; those values are not modelled. The same holds for `Auth.User`'s age.
- `Auth.AfterLogin`: the fallback message "An error occurred during login" is not modelled, because the only value thrown there is an Error.
- The `useEffect` dependency rule (re-run only when the duration text changes) is not modelled; `ResizedIdempotent` shows that an extra re-run would change nothing.
- Async interleaving, React's batching of state updates and the stale-fetch race are left out. Each operation runs to completion.
- The backend-authenticated variants of the session controller are not part of this model.
