# Mapa Seguro: the app's state logic in Dafny

Mapa Seguro (Safe Zone) is a mobile app where users sign up and sign in, then mark areas on a map as "safe" or "dangerous". Each area gets a date, a time, a description, some characteristics and photos or videos. Most of the app is screens and styling. This project models its four pieces of real logic and proves what they promise:

- **Authentication session store** (`auth_store.dfy`, module `AuthStore`). The store holds `user`, `session`, `isAuthenticated`, `isLoading` and `error`, and has the actions `setUser`, `setSession`, `login`, `logout`, `setLoading`, `setError`, `clearError` and `checkAuthStatus`. `partialize` picks what gets persisted.
  - `Apply` gives the effect of each action on a state value.
  - The class `AuthStore` holds the five fields; each method is proved to have exactly `Apply`'s effect.
  - `checkAuthStatus` calls `logout` on an expired session, as the source does.
  - Lemmas cover each action's effect, logout idempotence, the three branches of the status check, and the invariant "authenticated implies a session is held" over any action sequence. They also show that `partialize` keeps exactly `user`, `session` and `isAuthenticated`.
- **Sign-up schema** (`sign_up_schema.dfy`, module `SignUpSchema`). These are pure functions.
  - `Issues` lists the failed checks with their paths and messages, in the order the validator reports them. `SafeParse` gives the verdict.
  - The regular expressions are matched by recursive functions. The name, digit-run and password lookahead matchers are each proved equivalent to a plain statement of their rule. The phone pattern is proved equivalent to its rule at length 9 (`PhonePatternAtNine`), the only length the schema's `min(9)`/`max(9)` let through.
  - Reference predicates (`NameAccepted`, `PhoneAccepted`, `PasswordAccepted`, ...) say what each rule means. The contracts tie the checks as written to them.
  - `ToSubmitData` models the field selection of the `SignUpSubmitData` type: it keeps email, phone, password and name, and drops `confirmPassword`. The source has this selection only as a type; no code removes the field at runtime.
- **Area-creation form** (`area_form.dfy`, module `AreaForm`).
  - Pure rules: the initial record, the checkbox list for each variant, flipping a characteristic (a missing key reads as unchecked), the save gate on the trimmed description, turning picked assets into media items, and the image/video preview rule.
  - The class `CreateAreaForm` holds `formData`, `loadingMedia` and the two picker flags. It records every call it makes to the host (`onSave`, `onClose`, the alert) in `calls`.
- **Onboarding stepper** (`onboard.dfy`, module `Onboard`).
  - `Next` and `Back` move the index over the fixed four-entry list. The class `OnboardingScreen` holds `currentIndex`.
  - `Render` gives everything the screen shows for an index: texts, picture or photo placeholders, button states and caption, and dot styles.
  - Lemmas cover bounds over any sequence of presses, round trips, and button states that agree with the transitions' guards.

`js_text.dfy` (module `JsText`) holds the JavaScript vocabulary the other modules share:
- `Option`/`Result`;
- the ECMAScript WhiteSpace and LineTerminator character sets, which make up the regex class `\s` and are what `trim` strips;
- `String.prototype.trim` and `String.prototype.includes`.

The clock, date parsing and date formatting are inputs, and so are the document picker's result and the e-mail format validator:
- `checkAuthStatus(now)` takes `now` as an integer timestamp.
- A session's `expiresAt` is an already-parsed `Instant`, which may be `InvalidDate`. An invalid date compares false in JavaScript, so it never counts as expired. The model keeps that behaviour.
- The e-mail check is the function parameter `isEmail`.

Some definitions have no contract of their own, so the table names the members whose contracts state their properties instead:
- `JsText.Trim` (`trim()`, src/components/modal/area-form.tsx:81): `TrimStart`, `TrimEnd`, `TrimEmptyIffAllSpace`.
- `AuthStore.IsExpired` (`now >= expiresAt`, NaN included, src/contexts/auth-store.ts:87-90): `CheckExpiredIsLogout`, `CheckValidOnlyAuthenticates`, `CheckAuthStatusDecides`.
- `AuthStore.Apply`, `AuthStore.LoggedOut`, `AuthStore.Run`, `AuthStore.Partialize`: the `AuthStore` lemmas and the class methods.
- `SignUpSchema.MatchesPhonePattern`, `SignUpSchema.MatchesPasswordPattern`: `PhonePatternAtNine`, `PhoneIssues`, `PasswordIssues`, `PasswordPatternWithoutLineBreaks`.
- `SignUpSchema.ToSubmitData`: `ToSubmitDataDropsOnlyConfirm`.
- `AreaForm.TypeOrEmpty` (`mimeType || ''`, src/components/modal/area-form.tsx:113 and 119) and `AreaForm.ToMediaItem`: `MapAssets`, `NewMedia`.
- `AreaForm.Checked` (the truthy read of `characteristics[key]`, src/components/modal/area-form.tsx:94 and 276-285): `Toggle`, `ToggleMissingKeyChecks`, `ToggleTwiceReadsSame`, `InitialForm`.
- `Onboard.Next`, `Onboard.Back`, `Onboard.Run` and the view predicates: the `Onboard` lemmas, `Render` and the class methods.

## Model

| member | source | states |
|---|---|---|
| `JsText.TrimStart` | src/components/modal/area-form.tsx:81 | The result is a suffix of the input, everything removed is white space, and the result does not start with white space. |
| `JsText.TrimEnd` | src/components/modal/area-form.tsx:81 | The result is a prefix of the input, everything removed is white space, and the result does not end with white space. |
| `JsText.TrimEmptyIffAllSpace` | src/components/modal/area-form.tsx:81 | `trim()` gives "" if and only if every character is white space or a line terminator. |
| `JsText.Includes` | src/components/modal/area-form.tsx:316 | `s.includes(t)` holds if and only if `t` occurs in `s` at some index. |
| `AuthStore.LoginEffect` | src/contexts/auth-store.ts:56-62 | `login` sets user and session to its arguments, `isAuthenticated` to true and `error` to null, and keeps `isLoading`. |
| `AuthStore.LogoutEffect` | src/contexts/auth-store.ts:64-70 | `logout` nulls user, session and error, sets `isAuthenticated` false, keeps `isLoading`, and a second `logout` changes nothing. |
| `AuthStore.SettersChangeOnlyTheirField` | src/contexts/auth-store.ts:52-76 | `setUser`, `setSession`, `setLoading` and `setError` change only their own field; `clearError` equals `setError(null)`. |
| `AuthStore.CheckWithoutSession` | src/contexts/auth-store.ts:79-84 | With no session, the check sets `isAuthenticated` false and `user` null and leaves everything else. |
| `AuthStore.CheckExpiredIsLogout` | src/contexts/auth-store.ts:86-94 | With a session and `now >= expiresAt` (equality included), the check has exactly the effect of `logout`. |
| `AuthStore.CheckValidOnlyAuthenticates` | src/contexts/auth-store.ts:96-97 | With an unexpired session, the check sets `isAuthenticated` true and changes nothing else. |
| `AuthStore.CheckAuthStatusDecides` | src/contexts/auth-store.ts:78-98 | After the check, the store is authenticated if and only if it held a session unexpired at `now`; a repeated check at the same instant is a no-op. |
| `AuthStore.ApplyKeepsSessionBacked` | src/contexts/auth-store.ts:44-98 | Every action preserves "isAuthenticated implies a session is present". |
| `AuthStore.RunKeepsSessionBacked` | src/contexts/auth-store.ts:44-98 | Any sequence of actions preserves that invariant (by induction on the sequence). |
| `AuthStore.ReachableIsSessionBacked` | src/contexts/auth-store.ts:44-49 | Every state reachable from the initial state satisfies the invariant. |
| `AuthStore.PartializeExactlyPersisted` | src/contexts/auth-store.ts:103-107 | Two states persist the same snapshot if and only if they agree on user, session and isAuthenticated. |
| `AuthStore.PartializeIgnoresTransient` | src/contexts/auth-store.ts:103-107 | Changing `isLoading` or `error` never changes the persisted snapshot. |
| `AuthStore.PartializeAfterLoginLogout` | src/contexts/auth-store.ts:56-70 | After `login` the snapshot is (user, session, true) and after `logout` it is (null, null, false), whatever the earlier state. |
| `AuthStore.AuthStore.constructor` | src/contexts/auth-store.ts:44-49 | The store starts with no user, no session, not authenticated, not loading, no error. |
| `AuthStore.AuthStore.SetUser` | src/contexts/auth-store.ts:52 | Sets `user`; the other four fields keep their values. |
| `AuthStore.AuthStore.SetSession` | src/contexts/auth-store.ts:54 | Sets `session`; the other four fields keep their values. |
| `AuthStore.AuthStore.Login` | src/contexts/auth-store.ts:56-62 | The fields become (user, session, true, unchanged isLoading, null). |
| `AuthStore.AuthStore.Logout` | src/contexts/auth-store.ts:64-70 | The fields become (null, null, false, unchanged isLoading, null). |
| `AuthStore.AuthStore.SetLoading` | src/contexts/auth-store.ts:72 | Sets `isLoading`; the other four fields keep their values. |
| `AuthStore.AuthStore.SetError` | src/contexts/auth-store.ts:74 | Sets `error`; the other four fields keep their values. |
| `AuthStore.AuthStore.ClearError` | src/contexts/auth-store.ts:76 | Sets `error` to null; the other four fields keep their values. |
| `AuthStore.AuthStore.CheckAuthStatus` | src/contexts/auth-store.ts:78-98 | States each of the three branches (no session, expired, valid) on the fields, and that the result is the status check's effect on the old state. |
| `SignUpSchema.MatchesNamePattern` | src/utils/schemas/sign-up-schema.ts:9 | `/^[a-zA-ZÀ-ÿ\s]+$/` matches if and only if the string is non-empty and every character is an ASCII letter, in U+00C0..U+00FF, or white space. |
| `SignUpSchema.MatchesDigitRun` | src/utils/schemas/sign-up-schema.ts:15 | `\d{lo,hi}$` matches if and only if the rest is between lo and hi ASCII digits. |
| `SignUpSchema.LookaheadFinds` | src/utils/schemas/sign-up-schema.ts:19-20 | `(?=.*[k])` succeeds if and only if some character of class k occurs with no line terminator before it. |
| `SignUpSchema.NameIssues` | src/utils/schemas/sign-up-schema.ts:5-9 | All issues are on `name`; there are none if and only if the length is 2..50 and every character is a name character. |
| `SignUpSchema.EmailIssues` | src/utils/schemas/sign-up-schema.ts:10 | All issues are on `email`; there are none if and only if the format check accepts it and it is non-empty. |
| `SignUpSchema.PhonePatternAtNine` | src/utils/schemas/sign-up-schema.ts:11-15 | At length 9, the phone pattern accepts exactly nine digits not starting with 0, or '+' and eight digits not starting with 0. |
| `SignUpSchema.PhoneIssues` | src/utils/schemas/sign-up-schema.ts:11-15 | All issues are on `phone`; there are none if and only if the length is exactly 9 and the phone is one of those two forms. |
| `SignUpSchema.PasswordIssues` | src/utils/schemas/sign-up-schema.ts:16-22 | All issues are on `password`; there are none if and only if the length is at least 8 and a lower-case letter, an upper-case letter and a digit each occur before any line break. |
| `SignUpSchema.ConfirmIssues` | src/utils/schemas/sign-up-schema.ts:23 | All issues are on `confirmPassword`; there are none if and only if it is non-empty. |
| `SignUpSchema.MismatchIssues` | src/utils/schemas/sign-up-schema.ts:25-28 | The refinement reports on `confirmPassword`, and reports exactly when the passwords differ. |
| `SignUpSchema.Issues` | src/utils/schemas/sign-up-schema.ts:3-28 | For each field there is an issue at its path if and only if its rule fails (for `confirmPassword`: empty or mismatched); no issues if and only if the whole schema accepts. |
| `SignUpSchema.SafeParse` | src/utils/schemas/sign-up-schema.ts:3-28 | Succeeds, returning the data unchanged, if and only if the schema accepts; otherwise fails with the non-empty issue list. |
| `SignUpSchema.MismatchRejected` | src/utils/schemas/sign-up-schema.ts:25-28 | Valid fields with different passwords are rejected with exactly one issue, "Senhas não coincidem", on `confirmPassword`. |
| `SignUpSchema.PasswordPatternWithoutLineBreaks` | src/utils/schemas/sign-up-schema.ts:19-20 | For a password without line breaks, the pattern holds if and only if it contains a lower-case letter, an upper-case letter and a digit. |
| `SignUpSchema.ToSubmitDataDropsOnlyConfirm` | src/utils/schemas/sign-up-schema.ts:32-35 | The submit projection keeps email, phone, password and name; two forms project equally if and only if they agree on those four. |
| `AreaForm.LocationText` | src/components/modal/area-form.tsx:47 | The incoming location's name when there is one (so '' for an empty name), and '' when the location or its name is absent. |
| `AreaForm.InitialForm` | src/components/modal/area-form.tsx:46-57 | The initial record has that location text, the given date and time, an empty description, exactly the three safe keys, every characteristic unchecked, and no media. |
| `AreaForm.CharacteristicOptions` | src/components/modal/area-form.tsx:62-79 | Three distinct keys; for 'safe' all are keys of the initial record, for 'danger' none is. |
| `AreaForm.CharacteristicKeysInOrder` | src/components/modal/area-form.tsx:62-79 | The keys in display order are goodLighting, policePresence, publicTransport for 'safe' and poorLighting, noPolicePresence, houses for 'danger'. |
| `AreaForm.Toggle` | src/components/modal/area-form.tsx:89-97 | Key k reads as the negation of what it read before (missing reads false), k becomes present, and every other key keeps its value. |
| `AreaForm.ToggleTwiceRestores` | src/components/modal/area-form.tsx:89-97 | Toggling a present key twice gives back the original map. |
| `AreaForm.ToggleTwiceReadsSame` | src/components/modal/area-form.tsx:89-97 | Toggling any key twice leaves every checkbox reading as before, even when the key was missing. |
| `AreaForm.ToggleMissingKeyChecks` | src/components/modal/area-form.tsx:89-97 | Toggling a key missing from the map sets it to true. |
| `AreaForm.DangerKeysStartMissing` | src/components/modal/area-form.tsx:72-97 | Each danger key is missing from the initial characteristics, and its first toggle checks it. |
| `AreaForm.SaveCalls` | src/components/modal/area-form.tsx:80-87 | A description that is all white space gives only the alert; any other gives `onSave(form)` and then `onClose()`. |
| `AreaForm.BlankDescriptionSavesNothing` | src/components/modal/area-form.tsx:80-84 | A blank description calls neither `onSave` nor `onClose`. |
| `AreaForm.MapAssets` | src/components/modal/area-form.tsx:109-114 | One media item per asset, in order, each with the asset's uri and name and its mimeType or ''. |
| `AreaForm.NewMedia` | src/components/modal/area-form.tsx:108-121 | An asset array maps item by item; a non-array gives its element 0 alone; it fails (throws) exactly when there is no element 0. |
| `AreaForm.PickedMedia` | src/components/modal/area-form.tsx:99-130 | Cancellation and failures leave media unchanged; a pick that yields items (an asset array, or the element 0 of a non-array) appends them after the old ones, keeping both in order; it completes unless the picker or the mapping throws. |
| `AreaForm.IncludesAny` | src/components/modal/area-form.tsx:315-317 | `hints.some(h => t.includes(h))` holds if and only if some hint occurs in t. |
| `AreaForm.PreviewOf` | src/components/modal/area-form.tsx:313-337 | The preview shows the item's uri, and is an image if and only if its type contains 'image', 'jpeg', 'jpg', 'png' or 'webp'. |
| `AreaForm.PreviewExamples` | src/components/modal/area-form.tsx:315-337 | 'image/png' previews as an image; 'video/mp4' and a missing type ('') preview as a video. |
| `AreaForm.CreateAreaForm.constructor` | src/components/modal/area-form.tsx:45-60 | The form starts from the initial record with both pickers closed, no spinner and no host calls. |
| `AreaForm.CreateAreaForm.Options` | src/components/modal/area-form.tsx:62-79 | Three checkboxes, all keys of the record's type if and only if the variant is 'safe'. |
| `AreaForm.CreateAreaForm.EditLocation` | src/components/modal/area-form.tsx:171-173 | Replaces the location text; the rest of the record stays. |
| `AreaForm.CreateAreaForm.EditDescription` | src/components/modal/area-form.tsx:247-249 | Replaces the description; the rest of the record stays. |
| `AreaForm.CreateAreaForm.OpenDatePicker` | src/components/modal/area-form.tsx:184 | Opens the date picker. |
| `AreaForm.CreateAreaForm.DatePicked` | src/components/modal/area-form.tsx:196-204 | Closes the date picker; a selected date replaces the record's date, and no selection changes nothing. |
| `AreaForm.CreateAreaForm.OpenTimePicker` | src/components/modal/area-form.tsx:212 | Opens the time picker. |
| `AreaForm.CreateAreaForm.TimePicked` | src/components/modal/area-form.tsx:224-235 | Closes the time picker; a selected time replaces the record's time, and no selection changes nothing. |
| `AreaForm.CreateAreaForm.ToggleCharacteristic` | src/components/modal/area-form.tsx:89-97 | Only the characteristics map changes, by `Toggle` of that key; the key's checkbox flips. |
| `AreaForm.CreateAreaForm.HandleSave` | src/components/modal/area-form.tsx:80-87 | Appends exactly `SaveCalls(formData)` to the host calls and changes nothing else. |
| `AreaForm.CreateAreaForm.PressClose` | src/components/modal/area-form.tsx:349-350 | The close button calls `onClose` once. |
| `AreaForm.CreateAreaForm.BeginPickMedia` | src/components/modal/area-form.tsx:100-101 | Up to the `await`: the spinner is on, and nothing else changes while the picker is open. |
| `AreaForm.CreateAreaForm.FinishPickMedia` | src/components/modal/area-form.tsx:108-129 | After the picker settles: the media list as it is then is extended by `PickedMedia`, no other field of the record changes, and the spinner is off on every path, even with another pick still pending. |
| `AreaForm.CreateAreaForm.HandlePickMedia` | src/components/modal/area-form.tsx:99-130 | With nothing in between the two halves: `loadingMedia` is false afterwards on every path; media and completion follow `PickedMedia`; no other field of the record changes. |
| `AreaForm.CreateAreaForm.Previews` | src/components/modal/area-form.tsx:313-337 | One preview per media item, in order. |
| `Onboard.StepInBounds` | src/app/onboard.tsx:89-99 | Next and back each keep the index within 0..3. |
| `Onboard.RunInBounds` | src/app/onboard.tsx:89-99 | Any sequence of presses keeps the index within bounds (by induction on the sequence). |
| `Onboard.ReachableInBounds` | src/app/onboard.tsx:65-99 | From the initial index 0, every reachable index is within 0..3, so `onboardingData[currentIndex]` is always defined. |
| `Onboard.TransitionGuards` | src/app/onboard.tsx:89-99 | Next increments only below the last index and back decrements only above 0; otherwise each is a no-op. |
| `Onboard.NextBackRoundTrip` | src/app/onboard.tsx:89-99 | From i < 3, next then back returns to i; from i > 0, back then next returns to i. |
| `Onboard.Dots` | src/app/onboard.tsx:87 | There are exactly as many dot styles as entries, so every `animatedStyles[index]` the dots read is defined. |
| `Onboard.HighlightedDots` | src/app/onboard.tsx:67-87 | For a valid index i, the set of wide (24) dots is exactly {i}. |
| `Onboard.Render` | src/app/onboard.tsx:137-273 | Shows the entry's title, description and (only when non-empty) subtitle. It shows photo placeholders exactly on the last screen, and the entry's defined image otherwise. Back is disabled exactly when back is a no-op, next exactly when next is one, and the caption is 'Finalizar' exactly then and 'Próximo' otherwise. There is one dot per entry: the current one is 24 wide and '#2E5BFF', and every other is 8 wide and '#E0E0E0'. |
| `Onboard.PhotoScreenIsLast` | src/app/onboard.tsx:54-62 | The only entry flagged `isPhotoScreen` is index 3. |
| `Onboard.OnboardingScreen.constructor` | src/app/onboard.tsx:65 | `currentIndex` starts at 0. |
| `Onboard.OnboardingScreen.HandleNext` | src/app/onboard.tsx:89-93 | The index becomes `Next` of the old index and stays valid. |
| `Onboard.OnboardingScreen.HandleBack` | src/app/onboard.tsx:95-99 | The index becomes `Back` of the old index and stays valid. |
| `Onboard.OnboardingScreen.CurrentData` | src/app/onboard.tsx:137 | Whenever the index is valid, `onboardingData[currentIndex]` is defined, and it is the entry whose id is `currentIndex + 1`, which is the entry at that position. |

## Left out

- Persistence mechanics (src/contexts/auth-store.ts:100-102): storage, rehydration at start-up and subscriber notification. Only the `partialize` projection is modelled.
- The clock and date parsing: `new Date()` and `new Date(session.expiresAt)` are foreign. `now` is an integer input, and `expiresAt` is the parsed `Instant` rather than the stored string.
- String lengths: the validation library counts UTF-16 code units, but the model counts Dafny characters (Unicode scalar values). The two differ only for characters outside the Basic Multilingual Plane. Those characters fail the name pattern either way, but they would count twice towards the password and confirmation lengths in the source.
- `SignUpSchema.EmailIssues`: the e-mail format check is the library's validator, so the model takes it as the parameter `isEmail`. It does not define it.
- `SignUpSchema.Issues`: the model reports the password-mismatch issue even when field checks have failed. This assumes the validation library's behaviour that failed length and pattern checks on strings let the object-level refinement run. When every field is valid, `MismatchRejected` holds either way.
- `AreaForm.LocationText`: the `location` property is typed `any`. The model covers an absent location and a string or absent `name`. Other falsy values, such as `0` or `false`, also give '', and non-string truthy names are not modelled.
- Locale formatting (`toLocaleDateString`, `toLocaleTimeString`) and the date/time picker widgets: the formatted strings are inputs.
- The alert dialog and the `onSave`/`onClose` callbacks belong to the host. The model records their calls in `calls`.
- `SignUpSchema.Issues`: the five form fields are modelled as strings. Inputs with a missing or non-string field are not modelled. For them the validator's type check fails with an issue that does not let the object-level refinement run, so no password-mismatch issue is reported.
- The exception that escapes `handlePickMedia` when the picker throws, or when `assets` has no element 0, is not modelled as an exception. It is the `completed = false` result, which becomes an unhandled promise rejection in the source.
- `AreaForm.Toggle`: a key is read as a plain map entry, so a missing key reads false. In JavaScript a key naming an `Object.prototype` member (such as `constructor`) would read truthy. The form only toggles the six keys of its option lists (src/components/modal/area-form.tsx:62-79), so this does not arise.
- The `DocumentPicker` options (types, multiple, cache copy), the modal's `visible` prop, and all styling and animation, including the back button's opacity and the finish button's scale.
- The photo placeholders' contents (four '+' tiles) on the last onboarding screen.
- The map component (src/components/map/index.tsx). The whole file is commented out, so it has no live behaviour to model.
- The network and authentication clients, the sign-in, OTP and e-mail screens, the zone list screens and the routing layout. They do remote calls, navigation and static presentation only.
