# RideWise core, modelled in Dafny

RideWise is a bike-rental front end. This project models its core and proves properties
about it. The core has five parts:

- **Identity store** (`useAuth.tsx`). Three hard-coded seed accounts, plus accounts created
  by signup. Login accepts an email or a username, compared ignoring case. Signup rejects a
  taken email first, then a taken username, and does not log the new account in. The
  session user and the custom accounts are mirrored to the session-storage keys
  `ridewise-user` and `ridewise-users`, and restored from them when the page mounts.
- **Booking store** (`useBookings.tsx`). An append-only list of bookings, mirrored to
  `ridewise-bookings`. Each booking gets a confirmation code of the form `RW-[A-Z0-9]{8}`.
- **Auth form** (`Auth.tsx`). The username field is sanitised as the user types. Signup runs
  six local checks in a fixed order before it calls the store. The submit handler turns the
  store's answer into the form's error and mode.
- **Reservation wizard** (`Reservations.tsx`). Three steps: pick a bike, pick a date and a
  time, confirm. Then a confirmation view, left through "Book Another Ride".
- **Demand estimates** (`Dashboard.tsx`). The hourly and daily formulas behind the two
  predict buttons.

Files:

| file | module | contents |
|---|---|---|
| `seqs.dfy` | `Seqs` | `Option`, `FindIndex` (first match, as `Array.find`), `Filter` |
| `text.dfy` | `Text` | ASCII `toLowerCase`, `trim`, UTF-16 `length`, decimal `toString` |
| `identity.dfy` | `Identity` | accounts, login and signup rules, the `AuthStore` class |
| `bookings.dfy` | `Bookings` | booking records, the code generator, the `BookingStore` class |
| `auth_form.dfy` | `AuthForm` | sanitiser, signup checks, the `Form` class |
| `reservations.dfy` | `Reservations` | bike catalogue, booking request, the `Wizard` class |
| `demand.dfy` | `Demand` | hourly and daily demand formulas |

How the source's state and inputs are represented:

- Objects whose state the source updates are classes with `modifies` clauses:
  - the two stores;
  - the form;
  - the wizard.
- Each session-storage key is an `Option` field on the store that writes it. A store's
  constructor takes the values found under its keys; this is the restore effect.
- The clock and the random source are parameters:
  - `Date.now()` is `now: nat`;
  - `new Date().toISOString()` is `nowIso: string`;
  - the eight `Math.random()` values are `draws: seq<real>`, each in `[0, 1)`.
- Delayed updates inside `setTimeout` are applied at once. These are the signup-success
  reset and the 600 ms delay after choosing a bike.
- A handler whose control is not on screen in the current view is modelled as a no-op.

## Model

| member | source | states |
|---|---|---|
| `Seqs.FindIndex` | useAuth.tsx:50-55 | the index returned satisfies the predicate and no earlier index does; None exactly when no element satisfies it |
| `Seqs.Filter` | useAuth.tsx:89 | the result is no longer than the input, keeps only elements satisfying the predicate, and is the input itself when every element satisfies it |
| `Seqs.FilterMembers` | useAuth.tsx:89 | a value is in the filtered list exactly when it is in the input and satisfies the predicate |
| `Seqs.FilterConcat` | useAuth.tsx:89 | filtering a concatenation filters each part and keeps their order |
| `Text.LowerChar` | useAuth.tsx:52-53 | the result is never an upper-case letter; it is a lower-case letter exactly when the input is a letter; non-upper-case characters are unchanged |
| `Text.LowerConcat` | useAuth.tsx:52-53 | lowering a concatenation lowers each part |
| `Text.TrimStart` | Auth.tsx:87 | the leading whitespace is cut off: the result is a suffix of the input that does not start with whitespace, and what was cut off is whitespace |
| `Text.TrimEnd` | Auth.tsx:87 | the trailing whitespace is cut off: the result is a prefix of the input that does not end with whitespace, and what was cut off is whitespace |
| `Text.Trim` | Auth.tsx:87 | `trim()` leaves no whitespace at either end and is never longer than its input |
| `Text.TrimSlice` | Auth.tsx:87 | `trim()` keeps the contiguous middle of the input, starting where the leading whitespace ends |
| `Text.TrimCutsBlank` | Auth.tsx:87 | what `trim()` removes after the kept middle is whitespace only |
| `Text.TrimEmptyIffBlank` | Auth.tsx:87 | `trim()` gives the empty string exactly when every character is ECMAScript whitespace |
| `Text.Utf16Length` | Auth.tsx:97 | `length` lies between the number of code points and twice that number |
| `Text.Utf16LengthBmp` | Auth.tsx:97 | for text made only of Basic Multilingual Plane characters, `length` is the number of characters |
| `Text.DecimalString` | useBookings.tsx:46 | `toString()` of a non-negative integer is non-empty, all decimal digits, with no leading zero |
| `Text.DecimalRoundTrip` | useBookings.tsx:46 | the decimal text denotes the number it was made from, so distinct timestamps give distinct ids |
| `Identity.LoginMatch` | useAuth.tsx:50-55 | the chosen account matches (email or username equal ignoring case, password equal exactly) and is the first that does; None exactly when none matches |
| `Identity.SignupError` | useAuth.tsx:68-82 | "Email already registered" exactly when some email is equal ignoring case; "Username already taken" exactly when no email clashes and some username is equal ignoring case; no error exactly when neither clashes |
| `Identity.CustomUsers` | useAuth.tsx:89 | the persisted list is no longer than the registered list and holds no exact seed email |
| `Identity.RestoredUsers` | useAuth.tsx:42-45 | the restored list starts with the seeds and continues with exactly the saved list; with nothing saved it is the seeds |
| `Identity.SeedsUnique` | useAuth.tsx:22-26 | no two seed accounts share an email or a username, ignoring case |
| `Identity.SignupPreservesUniqueness` | useAuth.tsx:67-86 | appending an account that passes both signup checks keeps emails and usernames unique ignoring case |
| `Identity.LoginAfterSignup` | useAuth.tsx:48-94 | after a successful signup, logging in with the new username or the new email and the new password succeeds |
| `Identity.LoginAfterSignupPicksNewAccount` | useAuth.tsx:50-55 | when no earlier account matches the identifier and password, login picks the newly appended account |
| `Identity.FreshEmailIsNotSeed` | useAuth.tsx:69-74 | an email that passes the signup check is not a seed email, so the new account is persisted |
| `Identity.PersistRestoreRoundTrip` | useAuth.tsx:88-90 | if no account after the seeds has a seed email, restoring the persisted custom list rebuilds the registered list exactly |
| `Identity.SeedScenarios` | useAuth.tsx:48-74 | "jyoshika" with "RideWise123" logs in as the first seed; a wrong password fails; signing up with demo@ridewise.com gives "Email already registered" |
| `Identity.SeedLogins` | useAuth.tsx:22-26 | whatever accounts follow the seeds, each seed account logs in as itself by its username and by its email with its own password |
| `Identity.AuthStore.IsAuthenticated` | useAuth.tsx:102 | the store is authenticated exactly when a session user is present |
| `Identity.AuthStore.constructor` | useAuth.tsx:31-46 | the session user is the saved one; the registered list is the seeds followed by the saved custom list; nothing is written back |
| `Identity.AuthStore.Login` | useAuth.tsx:48-65 | success exactly when some account matches; on success the session user and 'ridewise-user' are the public view of the first match; otherwise "Invalid credentials" and nothing changes; the registered list is never changed |
| `Identity.AuthStore.Signup` | useAuth.tsx:67-94 | a clash returns its message and changes nothing; otherwise the account is appended, 'ridewise-users' holds the custom accounts, and the session is untouched; uniqueness is preserved, and the stored list restores to the registered list |
| `Identity.AuthStore.Logout` | useAuth.tsx:96-99 | the session user and 'ridewise-user' are cleared and the store is no longer authenticated; the registered accounts are kept, so the seeds still head the list |
| `Bookings.MakeBooking` | useBookings.tsx:44-49 | the booking carries the caller's fields unchanged, plus the given id, code and creation time |
| `Bookings.PickIndex` | useBookings.tsx:28 | `floor(x * 36)` of a draw in `[0, 1)` is a valid alphabet index |
| `Bookings.GenerateConfirmationId` | useBookings.tsx:24-31 | the loop builds "RW-" followed by the eight characters the draws select, which is of the form `RW-[A-Z0-9]{8}` |
| `Bookings.EveryCodeReachable` | useBookings.tsx:24-31 | every string of the form `RW-[A-Z0-9]{8}` is produced by some draws, so the generator's range is exactly that pattern |
| `Bookings.BookingStore.constructor` | useBookings.tsx:34-41 | the list is what 'ridewise-bookings' holds, or empty |
| `Bookings.BookingStore.AddBooking` | useBookings.tsx:43-56 | the returned booking carries the caller's fields, `Date.now()` as its id, a well-formed code and the creation time; it is appended and returned; 'ridewise-bookings' holds the new list; the total grows by one |
| `Bookings.BookingStore.TotalBookings` | useBookings.tsx:58 | the total is the number of bookings held |
| `Bookings.ThreeBookings` | useBookings.tsx:43-58 | three bookings in a fresh session give a total of three, each with a well-formed code |
| `AuthForm.Sanitize` | Auth.tsx:319 | the sanitised username is no longer than the input, holds only `[a-z0-9_]`, and keeps an already-valid input unchanged |
| `AuthForm.SanitizeKeeps` | Auth.tsx:319 | a character appears in the result exactly when it is allowed and is the lower-case form of some input character |
| `AuthForm.SanitizedIsLowercase` | Auth.tsx:319 | the result has no upper-case letter |
| `AuthForm.SanitizeIdempotent` | Auth.tsx:319 | sanitising twice is sanitising once |
| `AuthForm.SanitizeConcat` | Auth.tsx:319 | sanitising a concatenation sanitises each part |
| `AuthForm.SanitizeIncremental` | Auth.tsx:319 | typing after a sanitised value gives the same field value as sanitising all the typed text at once |
| `AuthForm.ValidateSignup` | Auth.tsx:86-116 | an accepted form has a non-blank full name, username and email, and a password equal to its confirmation; a mismatch is reported only when the two differ (the full ordering is `ValidateSignupOrder`) |
| `AuthForm.ValidateSignupOrder` | Auth.tsx:86-116 | the six checks run in order (full name, username present, username length, email, password length, confirmation); each message appears exactly when its check fails and all earlier ones pass |
| `AuthForm.SanitizedUsernameChecks` | Auth.tsx:92-101 | a sanitised username of three or more characters passes both username checks |
| `AuthForm.ErrorText` | Auth.tsx:83 | the store's message is shown when present and non-empty; when it is absent or empty the fallback is shown |
| `AuthForm.Form.constructor` | Auth.tsx:36-49 | login mode, empty fields, no error, not loading |
| `AuthForm.Form.ShowLogin` | Auth.tsx:255 | the Login tab selects login mode and clears the error |
| `AuthForm.Form.ShowSignup` | Auth.tsx:264 | the Sign Up tab selects signup mode and clears the error |
| `AuthForm.Form.EditUsername` | Auth.tsx:292-336 | in signup mode the username field holds the sanitised input; in login mode, where the field is not rendered, it is unchanged |
| `AuthForm.Form.Submit` | Auth.tsx:70-140 | with an empty required input on screen (the password; in login mode also the identifier) nothing changes; otherwise loading ends, login mode gives the login outcome and signup mode the signup outcome |
| `AuthForm.Form.SubmitLogin` | Auth.tsx:77-84 | the first matching account becomes the session user with no error; 'ridewise-user' holds it; with no match the error is "Invalid credentials" and the session and 'ridewise-user' are kept; every text field, the registered list and 'ridewise-users' are kept |
| `AuthForm.Form.SubmitSignup` | Auth.tsx:86-136 | a failed local check shows its message and does not call the store; otherwise the store's answer decides; the session is untouched |
| `AuthForm.Form.Refuse` | Auth.tsx:87-116 | a failed check's message is the form's error; every text field, the mode and the store are unchanged |
| `AuthForm.Form.Register` | Auth.tsx:118-136 | a store rejection shows the store's message and keeps every text field, the registered list and 'ridewise-users'; a success appends the account, stores the custom accounts in 'ridewise-users', switches to login and clears the six text fields; the session is untouched either way |
| `AuthForm.Form.ClearForLogin` | Auth.tsx:124-133 | login mode with the six text fields empty |
| `Reservations.CatalogueIdsDistinct` | Reservations.tsx:13-41 | the three bike ids are distinct, so a lookup by id is unambiguous |
| `Reservations.TimeSlotsNonEmpty` | Reservations.tsx:43-47 | every time slot is non-empty, so choosing one enables Continue |
| `Reservations.FindBike` | Reservations.tsx:72 | the index found is the catalogue entry with the selected id; None exactly when no entry has it |
| `Reservations.ConfirmRequest` | Reservations.tsx:71-83 | a request exists exactly when a catalogue bike is selected and a user is logged in; it has the selected bike's id, name and price, the chosen date and slot, duration "1 hour" and the user's username |
| `Reservations.ConfirmedFare` | Reservations.tsx:75-83 | the fare is 5, 12 or 20: the hourly price of basic, premium and electric, with the matching name |
| `Reservations.ConfirmableIds` | Reservations.tsx:72-73 | exactly the three catalogue ids can be confirmed |
| `Reservations.Wizard.Pending` | Reservations.tsx:71-73 | a pending booking exists only on the review step, before confirmation, with duration "1 hour" and the chosen date |
| `Reservations.Wizard.constructor` | Reservations.tsx:50-57 | step 1, nothing selected, no confirmation |
| `Reservations.Wizard.SelectBike` | Reservations.tsx:62-69 | on step 1 the bike is chosen and step 2 opens; the invariant is kept |
| `Reservations.Wizard.SetDate` | Reservations.tsx:257 | on step 2 the date is set, nothing else changes |
| `Reservations.Wizard.SetTime` | Reservations.tsx:275 | on step 2 the time slot is set, nothing else changes |
| `Reservations.Wizard.Back` | Reservations.tsx:290 | Back goes from step 2 to 1; the second Back button, at line 353, goes from 3 to 2; choices are kept |
| `Reservations.Wizard.Continue` | Reservations.tsx:294-295 | step 3 is reached exactly when on step 2 with a date and a time chosen |
| `Reservations.Wizard.Confirm` | Reservations.tsx:71-97 | with a pending request the store gains exactly one booking with that request and a well-formed code, and it is shown; without one nothing changes; the step and the choices are kept |
| `Reservations.Wizard.BookAnother` | Reservations.tsx:394-401 | from the confirmation view the wizard returns to its initial state |
| `Reservations.ReservePremium` | Reservations.tsx:62-97 | a full premium reservation stores one booking at fare 12 with a well-formed code |
| `Demand.Round` | Dashboard.tsx:69 | `Math.round` returns the integer within half of its argument, halves going up, and leaves integers unchanged |
| `Demand.RoundMonotone` | Dashboard.tsx:69 | rounding is monotone |
| `Demand.HourlyPrediction` | Dashboard.tsx:59-74 | the hourly estimate is never negative |
| `Demand.HourlyExact` | Dashboard.tsx:62-69 | the hourly estimate equals the integer formula (twice the sum, plus one, halved), clamped at zero |
| `Demand.HourlyMonotone` | Dashboard.tsx:63-65 | a higher temperature, lower humidity or lower wind speed never lowers the hourly estimate |
| `Demand.HourlyRange` | Dashboard.tsx:62-69 | within the slider ranges (lines 159-218) the rounded sum is at least 300, so the clamp never fires, and the estimate lies in 300..1525 |
| `Demand.HourlyExtremes` | Dashboard.tsx:62-69 | 300 and 1525 are both reached |
| `Demand.HourlySummerBonus` | Dashboard.tsx:66 | within the slider ranges summer adds exactly 200 over spring or winter |
| `Demand.DailyPrediction` | Dashboard.tsx:76-93 | the daily estimate is never negative |
| `Demand.DailyExact` | Dashboard.tsx:88 | the daily sum is an integer, so rounding changes nothing and the estimate is the sum clamped at zero |
| `Demand.DailyRange` | Dashboard.tsx:78-88 | within the slider ranges the clamp never fires and the estimate lies in 1900..12800 |
| `Demand.DailyMonotone` | Dashboard.tsx:80-82 | a higher temperature, lower humidity or lower wind speed never lowers the daily estimate |
| `Demand.DailyBonuses` | Dashboard.tsx:85-86 | within the slider ranges Saturday or Sunday adds exactly 800 over a weekday, and a holiday exactly 500 |
| `Demand.InitialEstimates` | Dashboard.tsx:40-56 | the page's initial inputs give 1203 per hour and 9091 per day |

## Left out

- Rendering, animation, toasts, confetti, navigation and the typing effect: presentation only.
- The `shake`, `passwordError`, `showSuccess`, `showPassword`, `flippedCard` and
  `expandedBooking` flags: they only drive visual effects.
- The text-field setters other than the username field: each is modelled as a plain
  assignment. Their values are the `Form` fields. For the email field this ignores the
  browser's value sanitisation, which is listed under `AuthForm.Form.Submit` below.
- The 800 ms wait in `handleSubmit`, the 2 s delay before the signup reset and the 600 ms
  delay in `handleBikeSelect`: the delayed updates are applied at once. A click during a
  delay is not modelled.
- JSON serialisation of the session-storage values: each key holds the value itself.
- Session-storage writes always succeed (useAuth.tsx:60, 90, 98; useBookings.tsx:53). A
  `setItem` that throws (storage full or disabled) would leave the in-memory state updated
  without the key written, and would leave `handleSubmit` with `isLoading` still true;
  neither is modelled.
- Stale React closures, and the asynchronous batching of state updates.
- `Text.LowerChar`: folds only the ASCII letters. JavaScript's `toLowerCase` also folds other
  Unicode letters.
- `Bookings.BookingStore.AddBooking`: the id is `Date.now()` as given; ids are not claimed
  unique, since two bookings in the same millisecond share one.
- Booking fares: `totalFare` is an integer, because every catalogue price is one.
- `Bookings.PickIndex`: `Math.random() * chars.length` is taken on exact reals, not IEEE
  doubles. A double product can round up to the next integer (a draw just below 16/36 gives
  exactly 16.0), so the model may pick the character before the one JavaScript picks for
  such a draw; the set of reachable codes is the same either way.
- `Demand.HourlyPrediction`: computed on exact reals, not IEEE doubles. For integer slider
  values every intermediate is a multiple of one half well below 2^53, so doubles give the
  same value, but this is not proved.
- `AuthForm.Form.Submit`: the browser's check of the signup email's `type="email"` format
  (Auth.tsx:328) is not modelled; only the `required` inputs block a submission. A
  non-empty email the browser would reject reaches the local checks in the model. The
  same input's value sanitisation is not modelled either: the browser strips newlines and
  leading or trailing ASCII whitespace from an email field's value before `setEmail`
  (Auth.tsx:331), so the page never hands `signup` such an email, while `Form.email` may
  hold one.
- The date input's `min` attribute (today's date): it is a browser constraint on the picker
  and does not show up in the state.
- The booking history list and its expand/collapse: display only.
