# AuraSync Telegram Mini App: a Dafny model of sign-in, profiles and client state

AuraSync is a wellness Mini App that runs inside Telegram. This project models its core in Dafny and proves properties of that model.

**Server side**
- It models the verification of Telegram Mini App init data (`src/lib/telegram.ts`):
  - The data-check string.
  - The HMAC comparison against the lowercase hex digest.
  - The 24-hour freshness window.
  - The parse of the `user` field.
  - The unverified preview parse.
- It models the two API routes built on that verification:
  - `POST /api/auth/telegram` signs a user in. It creates or refreshes their `aura_profiles` row and logs a `user_registered` event for new users.
  - `GET`/`PATCH /api/user/profile` reads the profile and updates a whitelisted subset of its columns.

**Client side**
- The onboarding slide and feeling-selection state machine.
- The time-of-day bucketing of the home screen.
- The explore page's category search.
- The authentication context's `authenticate`, `refreshProfile`, `isAuthenticated` and `hasActiveSubscription`.

Modules, one per concern:

- `Values` (`values.dfy`): optional values, JSON-like column values, rows, and JavaScript truthiness of strings.
- `Hex` (`hex.dfy`): `digest('hex')` and its inverse.
- `DataCheck` (`data_check.dfy`): the decoded query-string pairs, plus:
  - `get` and `delete`;
  - the stable sort by key;
  - the data-check string, and reading it back.
- `JsParseInt` (`parse_int.dfy`): `parseInt` as applied to `auth_date`.
- `InitData` (`init_data.dfy`): `validateTelegramInitData` and `parseInitData`.
- `Store` (`store.dfy`): the `aura_profiles` table and the `aura_user_events` log, as a class whose calls may fail.
- `Http` (`http.dfy`): what the two routes share. This is the environment, the responses, the development shortcut (`mock_init_data` as user 123456789 when `NODE_ENV` is `development`) and the verified user.
- `ProfileRoute` (`profile_route.dfy`) and `AuthRoute` (`auth_route.dfy`): the route handlers as methods over the store. `AuthRoute` also has a pure specification of what one request does (`PostEffect`).
- `Onboarding` (`onboarding.dfy`), `BioClock` (`bio_clock.dfy`), `Explore` (`explore.dfy`) and `AuthProvider` (`auth_provider.dfy`): the client components.

The following are parameters, not definitions:
- HMAC-SHA256 and UTF-8 encoding (`InitData.Crypto`).
- `JSON.parse` of the `user` field, which returns `None` when it throws.
- The `URLSearchParams` decoding of a query string into pairs (`Http.Env.decodeQuery`).
- The bot token, the current time, `NODE_ENV`.
- Whether the store client is configured.
- Each store call's failure (a `fault` flag per call).
- Date parsing on the client.
- The replies the client receives.

Three modelling choices follow the code:
- A non-numeric `auth_date` is carried as `None` (NaN). Because JavaScript's `>` is false for NaN, such a payload is never too old.
- The validator returns `null` for every rejection; the model keeps the reason (`InitData.Rejection`), and both routes collapse all reasons to 401.
- The auth route ignores the error of its lookup. A returning user whose lookup fails therefore takes the insert path, and is refused with "Failed to create profile".

## Model

| member | source | states |
|---|---|---|
| Values.OrNull | src/app/api/auth/telegram/route.ts:57-61 | defaulting an optional string column to null gives null exactly for an absent or empty string, and otherwise the string itself |
| Values.OrAbsent | src/lib/telegram.ts:73-76 | defaulting an optional string field to undefined gives nothing exactly for an absent or empty string, and otherwise the string itself |
| Hex.Encode | src/lib/telegram.ts:51-54 | `digest('hex')` writes two lowercase hex digits per byte |
| Hex.DecodeEncode | src/lib/telegram.ts:51-56 | the hex digest decodes back to the digest bytes |
| Hex.EncodeInjective | src/lib/telegram.ts:56 | comparing hex strings is comparing digests: equal encodings iff equal byte strings |
| DataCheck.Get | src/lib/telegram.ts:29 | `URLSearchParams.get`; what it returns is stated by `GetFinds` |
| DataCheck.GetFinds | src/lib/telegram.ts:29 | `get` returns the value of the FIRST pair with that key (no earlier pair has the key), and returns nothing only when no pair has the key |
| DataCheck.WithoutKey | src/lib/telegram.ts:36 | `URLSearchParams.delete`; its members are stated by `WithoutKeyMembers` |
| DataCheck.WithoutKeyMembers | src/lib/telegram.ts:36 | `delete('hash')` keeps exactly the pairs whose key is not `hash` |
| DataCheck.SortByKey | src/lib/telegram.ts:39-40 | the sort by key; stated by `SortByKeyCorrect` and `SortByKeyStable` |
| DataCheck.SortByKeyCorrect | src/lib/telegram.ts:39-40 | sorting by key yields a key-ordered permutation of the pairs |
| DataCheck.SortByKeyStable | src/lib/telegram.ts:39-40 | the sort is stable: the pairs of any one key keep their payload order |
| DataCheck.SortedUnique | src/lib/telegram.ts:39-40 | with distinct keys, the key-ordered arrangement of a collection of pairs is unique |
| DataCheck.DataCheckString | src/lib/telegram.ts:36-42 | the signed message; its content is stated by `ReadDataCheckString` |
| DataCheck.SplitJoin | src/lib/telegram.ts:42 | splitting a newline join of newline-free lines at newlines gives the lines back |
| DataCheck.ReadDataCheckString | src/lib/telegram.ts:36-42 | the data-check string reads back to the sorted pairs other than `hash`, for pairs whose keys have no `=` and no newline and whose values have no newline |
| DataCheck.DataCheckStringInjective | src/lib/telegram.ts:36-42 | two such payloads with the same data-check string carry the same pairs besides `hash` |
| DataCheck.GetReordered | src/lib/telegram.ts:29 | with distinct keys, `get` does not depend on the order of the pairs |
| DataCheck.DataCheckStringReordered | src/lib/telegram.ts:36-42 | with distinct keys, the data-check string does not depend on the order of the pairs |
| JsParseInt.ParseInt | src/lib/telegram.ts:62 | `parseInt` gives NaN exactly when no digit follows the white space, the sign and any `0x` prefix; a negative result needs a leading `-` |
| JsParseInt.ParseIntDecimalString | src/lib/telegram.ts:62 | `parseInt` reads back the decimal numeral of every integer |
| InitData.Validate | src/lib/telegram.ts:20-86 | an unset bot token is refused before the payload is read; a missing or empty `hash` is refused next |
| InitData.CheckSigned | src/lib/telegram.ts:56-81 | the checks after `delete('hash')`; their verdict is stated by `ValidateAccepts` and `ValidateReadsPayload` |
| InitData.Signature | src/lib/telegram.ts:44-54 | the hex HMAC has two digits per digest byte and decodes back to the digest |
| InitData.AuthDate | src/lib/telegram.ts:62 | `auth_date` parsed with a default of `'0'`; stated by `MissingAuthDateIsZero` and `FreshnessWindow` |
| InitData.Stale | src/lib/telegram.ts:63-64 | the age test; stated by `FreshnessWindow` and `NonNumericDateNeverExpires` |
| InitData.UserField | src/lib/telegram.ts:70-71 | the `user` parse; stated by `MalformedUserRejected` and `ParseUnverified` |
| InitData.ValidateAccepts | src/lib/telegram.ts:20-86 | accepted iff token set, `hash` non-empty and equal to the hex HMAC of the data-check string under the derived key, at most 86400 s old, and `user` parses; the result holds the payload's own fields with empty `query_id`/`start_param` dropped |
| InitData.ValidateReadsPayload | src/lib/telegram.ts:28-81 | once token and `hash` pass, the verdict is the later checks applied to the payload's own fields, as if `hash` had not been deleted |
| InitData.ReadsAfterDelete | src/lib/telegram.ts:36-76 | after deleting `hash`, the data-check string, `auth_date`, `user`, `query_id` and `start_param` read as before |
| InitData.TokenCheckedFirst | src/lib/telegram.ts:21-25 | with the token unset every payload gets the same refusal |
| InitData.MissingHashNeedsNoHmac | src/lib/telegram.ts:29-33 | a payload without `hash` is refused whatever the hash primitives compute |
| InitData.MissingAuthDateIsZero | src/lib/telegram.ts:62 | an absent or empty `auth_date` counts as 0 |
| InitData.FreshnessWindow | src/lib/telegram.ts:61-67 | a signed payload dated `d` is accepted iff `now - d <= 86400`: exactly 86400 s is accepted, 86401 s refused, future dates accepted |
| InitData.NonNumericDateNeverExpires | src/lib/telegram.ts:62-64 | a signed payload whose `auth_date` parses as NaN is accepted at every time |
| InitData.MalformedUserRejected | src/lib/telegram.ts:69-71 | a `user` field that fails to parse refuses an otherwise valid payload |
| InitData.ValidateReordered | src/lib/telegram.ts:28-42 | with distinct keys, reordering the pairs does not change the verdict |
| InitData.ReorderedReadsAlike | src/lib/telegram.ts:28-62 | with distinct keys, a reordering keeps `hash`, the data-check string and every field the checks read |
| InitData.ValidateReadsOnly | src/lib/telegram.ts:28-81 | the verdict depends only on `hash`, the data-check string and the fields read |
| InitData.AcceptedSignsItsPairs | src/lib/telegram.ts:36-59 | two accepted unambiguous payloads with the same `hash` carry the same signed pairs, if HMAC and UTF-8 are collision-free on them |
| InitData.ParseUnverified | src/lib/telegram.ts:88-104 | the preview fails only when `user` is present and does not parse; otherwise it holds the payload's `query_id` (empty dropped), parsed `user`, parsed `auth_date` and `hash` (defaulting to the empty string) |
| InitData.PreviewDefaults | src/lib/telegram.ts:96-98 | the preview reads a missing or empty `auth_date` as 0, and gives `query_id` exactly when it is non-empty |
| InitData.UnverifiedAgreesWithVerified | src/lib/telegram.ts:88-104 | on an accepted payload the preview gives the same `query_id`, `user`, `auth_date` and `hash` |
| InitData.UnverifiedIgnoresSignature | src/lib/telegram.ts:88-104 | the preview accepts an unsigned payload that the verifier refuses |
| Store.Database.SelectProfile | src/app/api/user/profile/route.ts:35-39 | a lookup by `telegram_id` gives the row iff the backend answers and the row exists |
| Store.Database.UpdateProfile | src/app/api/user/profile/route.ts:113-121 | an update merges the patch into the matching row and changes nothing else; it fails, changing nothing, on a backend error or a missing row |
| Store.Database.InsertProfile | src/app/api/auth/telegram/route.ts:79-93 | an insert stores the row under its `telegram_id`; it fails, changing nothing, on a backend error or a taken key |
| Store.Database.InsertEvent | src/app/api/auth/telegram/route.ts:106-112 | an event insert appends the event unless the backend fails |
| Http.VerifiedUser | src/app/api/auth/telegram/route.ts:30-37 | a user is returned iff the verifier accepts the decoded init data and it carries a user, and it is that accepted payload's user |
| ProfileRoute.IdentifyCaller | src/app/api/user/profile/route.ts:7-31 | no caller iff the header is missing or empty; the mock id for the development shortcut; otherwise identified iff verified, with the verified user's id |
| ProfileRoute.Refusal | src/app/api/user/profile/route.ts:9-29 | missing init data answers 400, unverified init data 401 |
| ProfileRoute.GetProfile | src/app/api/user/profile/route.ts:5-56 | 400/401 before any store access, 500 when the store is not configured, 404 on a failed or empty lookup, else 200 with the caller's row |
| ProfileRoute.Whitelisted | src/app/api/user/profile/route.ts:88-102 | the filtered body holds exactly the allowed keys present in the body, with their values, and never `telegram_id` |
| ProfileRoute.FilterAllowed | src/app/api/user/profile/route.ts:97-102 | the loop over the allowed fields builds exactly the whitelisted body |
| ProfileRoute.PatchFor | src/app/api/user/profile/route.ts:113-118 | the update writes the whitelisted keys plus `updated_at`, never `telegram_id` |
| ProfileRoute.PatchProfile | src/app/api/user/profile/route.ts:58-139 | 400/401, 500 for a non-JSON body, 400 when no allowed field is present, 500 when the update fails or matches no row, else 200 with the merged row; only the caller's row changes, no row is added or removed, and rows stay keyed |
| ProfileRoute.WhitelistIdempotent | src/app/api/user/profile/route.ts:97-102 | filtering twice is filtering once; a body of allowed fields passes whole |
| ProfileRoute.PatchKeepsProtectedColumns | src/app/api/user/profile/route.ts:88-121 | a PATCH leaves every column outside the whitelist except `updated_at` as stored, and writes the whitelisted values |
| ProfileRoute.ProductionCallersAreVerified | src/app/api/user/profile/route.ts:17-31 | outside development an identified caller's init data was accepted by the verifier with a user of that id |
| AuthRoute.Identify | src/app/api/auth/telegram/route.ts:16-38 | the mock user for the development shortcut, otherwise the verified user |
| AuthRoute.ProfileFields | src/app/api/auth/telegram/route.ts:55-61 | the Telegram columns: empty or absent optional strings become null and present ones are written as given, an absent `is_premium` false |
| AuthRoute.RefreshFields | src/app/api/auth/telegram/route.ts:55-62 | a returning user's patch is the Telegram columns plus `updated_at`, never `telegram_id`, `credits` or `referral_source` |
| AuthRoute.NewProfileRow | src/app/api/auth/telegram/route.ts:81-91 | a new row is keyed by the user's id, with 0 credits and the start parameter (or null) as referral source |
| AuthRoute.RegistrationEvent | src/app/api/auth/telegram/route.ts:106-112 | the event is `user_registered` for the user, recording the start parameter as referral source when it is non-empty, else null |
| AuthRoute.PostEffect | src/app/api/auth/telegram/route.ts:5-123 | a non-JSON body answers 500, missing or empty `initData` 400 "Missing initData", init data that does not verify or has no user 401 "Invalid initData", a missing store 500; in all these nothing changes; every answer is 200, 400, 401 or 500 |
| AuthRoute.StoreEffect | src/app/api/auth/telegram/route.ts:42-115 | answers 200 or 500; a failing update answers 500 "Failed to update profile" and a failing (or duplicate) insert 500 "Failed to create profile"; a non-200 changes nothing and logs nothing; 200 comes with a profile; at most one event |
| AuthRoute.Post | src/app/api/auth/telegram/route.ts:5-123 | the handler's response, table and event log are those of `PostEffect`, and rows stay keyed |
| AuthRoute.SignIn | src/app/api/auth/telegram/route.ts:42-115 | the store calls' response, table and event log are those of `StoreEffect` |
| AuthRoute.SignInTouchesOnlyUser | src/app/api/auth/telegram/route.ts:42-113 | only the user's row changes, a row is added only on a 200, and rows stay keyed |
| AuthRoute.PostTouchesOnlyCaller | src/app/api/auth/telegram/route.ts:9-40 | nothing changes before a caller is identified and the store configured |
| AuthRoute.RegistersOnlyNewUsers | src/app/api/auth/telegram/route.ts:77-112 | an event is logged only when a new row is created for a user not in the table |
| AuthRoute.ReturningUserKeepsAccount | src/app/api/auth/telegram/route.ts:51-76 | a returning user gets 200, no event, the Telegram columns refreshed and every other column (credits, referral source, `telegram_id`) kept |
| AuthRoute.SecondSignInDoesNotRegister | src/app/api/auth/telegram/route.ts:42-113 | after a successful sign-in, a later one with a working lookup logs no event |
| AuthRoute.LookupFaultRefusesReturningUser | src/app/api/auth/telegram/route.ts:42-101 | a returning user whose lookup fails is refused with "Failed to create profile" and nothing changes |
| AuthRoute.NewUserRegistered | src/app/api/auth/telegram/route.ts:77-115 | a new user gets 200 with the new row (0 credits), whether or not the event insert fails |
| AuthRoute.SignInAnswers | src/app/api/auth/telegram/route.ts:51-115 | the store part answers 200 with the user's stored row, or 500 |
| AuthRoute.ProductionCallersAreVerified | src/app/api/auth/telegram/route.ts:16-38 | outside development the signed-in user is the one the verifier accepted |
| Onboarding.Remove | src/components/Onboarding.tsx:73 | the filter keeps exactly the other ids; their order is stated by `RemoveConcat` and `RemoveAt` |
| Onboarding.RemoveConcat | src/components/Onboarding.tsx:73 | the filter works element by element: filtering a concatenation concatenates the filtered parts, so the kept ids keep their order |
| Onboarding.RemoveAt | src/components/Onboarding.tsx:73 | deselecting the id at position `i` of a duplicate-free selection leaves the ids before and after it, in order |
| Onboarding.Toggled | src/components/Onboarding.tsx:72-74 | toggling flips the id's membership, keeps every other id's, and appends an unselected id at the end |
| Onboarding.OnboardingState.constructor | src/components/Onboarding.tsx:52-53 | starts on slide 0 with an empty selection |
| Onboarding.OnboardingState.HandleNext | src/components/Onboarding.tsx:56-68 | an info slide advances by exactly one; the selection screen stays and completes with the selection only when it is non-empty |
| Onboarding.OnboardingState.HandleSkip | src/components/Onboarding.tsx:77-80 | jumps to the selection screen |
| Onboarding.OnboardingState.HandleFeelingToggle | src/components/Onboarding.tsx:70-75 | the selection becomes its toggle; the slide stays in 0..3 and no id appears twice |
| Onboarding.RemoveKeepsNoDuplicates | src/components/Onboarding.tsx:73 | removing keeps a duplicate-free selection duplicate-free |
| Onboarding.ToggledKeepsNoDuplicates | src/components/Onboarding.tsx:72-74 | toggling never creates a duplicate |
| Onboarding.RemoveAppended | src/components/Onboarding.tsx:73 | removing a just-appended new id restores the list |
| Onboarding.ToggleTwiceRestores | src/components/Onboarding.tsx:72-74 | toggling an unselected id twice restores the selection |
| Onboarding.ToggleTwiceMovesToEnd | src/components/Onboarding.tsx:72-74 | toggling a selected id twice moves it to the end |
| BioClock.TimeOfDayAt | src/components/BioClock.tsx:52-58 | `getTimeOfDay`: the hour lies in the run from its period's start hour to the next period's |
| BioClock.PeriodIsRunFromStart | src/components/BioClock.tsx:52-58 | each hour 0..23 belongs to exactly one period, the run from that period's start hour (5, 12, 17, 21) to the next one's |
| BioClock.PeriodsInOrder | src/components/BioClock.tsx:52-58 | counted from 5 o'clock, the periods go morning, day, evening, night and never back |
| Explore.Filter | src/app/explore/page.tsx:78-80 | a category is kept iff its lower-cased title contains the lower-cased query |
| Explore.FilteredCategories | src/app/explore/page.tsx:78-80 | the page's list holds exactly the matching categories of the six |
| Explore.FilterIsSubsequence | src/app/explore/page.tsx:78 | the result keeps the categories' order |
| Explore.EmptyQueryKeepsAll | src/app/explore/page.tsx:79 | an empty query shows every category |
| Explore.OnlyTitleSearched | src/app/explore/page.tsx:79 | id, subtitle and practice count never affect the match |
| Explore.ContainsTransitive | src/app/explore/page.tsx:79 | an occurrence of an occurrence is an occurrence |
| Explore.LowerKeepsContains | src/app/explore/page.tsx:79 | lower-casing keeps an occurrence |
| Explore.Narrowing | src/app/explore/page.tsx:79 | if `q` occurs in `q2`, every category matched by `q2` is matched by `q` |
| Explore.CaseInsensitive | src/app/explore/page.tsx:79 | upper- or lower-casing the query's ASCII letters does not change the result |
| AuthProvider.IsAuthenticated | src/components/AuthProvider.tsx:111 | `!!profile`; stated by `SignInRoundTrip`, `FreshSessionSignedOut` and `SubscriptionNeedsProfile` |
| AuthProvider.HasActiveSubscription | src/components/AuthProvider.tsx:100-104 | false without a profile, without an end date, on the free trial, or with an end date not strictly later than now; true otherwise |
| AuthProvider.ProfileAfter | src/components/AuthProvider.tsx:62-64 | an ok reply replaces the profile with the reply's, any other outcome keeps it |
| AuthProvider.AuthSession.constructor | src/components/AuthProvider.tsx:44-45 | starts with no profile and loading |
| AuthProvider.AuthSession.Authenticate | src/components/AuthProvider.tsx:47-73 | without init data or user: no request, profile kept, loading off; otherwise sends `{initData, startParam}`, takes an ok reply's profile, loading off whatever the outcome |
| AuthProvider.AuthSession.RefreshProfile | src/components/AuthProvider.tsx:75-92 | without init data nothing is sent; otherwise sends the init data as header and takes an ok reply's profile |
| AuthProvider.SignInRoundTrip | src/components/AuthProvider.tsx:47-73 | a fresh session that gets the auth route's reply is authenticated iff the route answered 200, and then holds the row the route wrote |
| AuthProvider.FreshSessionSignedOut | src/components/AuthProvider.tsx:100-111 | with no profile: not authenticated and no subscription |
| AuthProvider.SubscriptionNeedsProfile | src/components/AuthProvider.tsx:100-111 | an active subscription implies an authenticated session |

## Left out

- HMAC-SHA256 and UTF-8 encoding are function parameters; the hash is not implemented.
- `AcceptedSignsItsPairs` assumes that HMAC-SHA256 and UTF-8 are collision-free on the two messages, as a hypothesis.
- `URLSearchParams` percent-decoding is a parameter (`decodeQuery`); the model starts from the decoded pairs.
- `JSON.parse` of `user` is a parameter. A `user` value that parses to a non-object (a number, `null`) is not distinguished from a parsed user.
- `localeCompare` is replaced by code-point lexicographic order. Locale collation orders some keys differently, for instance upper- and lower-case letters. Telegram's own keys are made of lower-case ASCII letters and `_`, on which both orders agree; keys with digits, `-` or other punctuation can sort differently (collation puts `_` before `-` and digits, code points do not).
- `JsParseInt.ParseInt` models the white-space characters listed in `IsWhiteSpace`. Other Unicode space separators are not skipped. Numbers beyond 2^53 are exact integers rather than doubles.
- `Explore.Lower`/`Explore.Upper` change only ASCII letters; JavaScript's `toLowerCase` also maps other scripts.
- The body of a request is given as already-parsed JSON. The auth route's `initData`/`startParam` are optional strings. A field of another JSON type is not modelled.
- The clock (`Date.now`, `new Date()`) is a parameter. `updated_at` is an opaque string. The client's date parsing is a parameter returning milliseconds or nothing (Invalid Date).
- `AuthProvider.SubscriptionUntil` reads `subscription_until` only as a string. A non-string value in that column is treated as absent.
- The store (`src/lib/supabase.ts` and the hosted database) is not part of this model beyond the calls the routes make. Those calls are a map keyed by `telegram_id` with a failure flag per call. Database-generated columns (`id`, `created_at`, defaults) are not added to inserted rows.
- Requests are handled one at a time. The auth route's lookup-then-insert is not atomic under concurrency, and that race is not modelled.
- `console.error` logging, Telegram haptic feedback, rendering, React effect scheduling (when `authenticate` runs) and BioClock's timer and time formatting are left out.
- `src/components/TelegramProvider.tsx`, the other pages and the presentational components are not part of this model.
