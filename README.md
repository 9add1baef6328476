# Loyalty-site form handlers, modelled in Dafny

The site is a customer-loyalty application. Serverless form handlers back its
signup, logout, password change, account deletion, order submission, admin
order review, messaging and reward claiming. Every handler that needs a
signed-in user runs the same preamble, in this order:

1. It answers 405 to anything but POST.
2. It redirects to its own page with `error=Configuration error` when the backend settings are missing.
3. It parses the `Cookie` header with a hand-written `parseCookies`.
4. It redirects to `/login` when the `sb-access-token` cookie is missing or the backend does not resolve it to a user.

The two admin handlers then test the user's email against the `ADMIN_EMAILS`
allow-list. Each of these signed-in handlers then checks its form fields and
issues its write to the backend. Most issue one write; account deletion
issues four: the three deletes by owner, then the identity delete. Each then
redirects with `success=` or `error=`. Signup checks no field itself: it
forwards the email and password to the backend's `signUp`. Logout checks
nothing and writes nothing; it only clears the two cookies. The server-rendered pages
restore the session from the same two cookies through `getUser`, and write
or clear the cookies with `setAuthCookies` and `clearAuthCookies`.

The model has one module per source file, plus shared modules:

- `Wrappers` holds `Option`, `||''` and JavaScript truthiness.
- `JsString` holds `split`, `join` and `trim`, with JavaScript's semantics.
- `Cookies` is `parseCookies`. It is written twice: as the loop the source runs (`ParseCookies`) and as a specification function (`CookieMap`) that the loop is proved to compute.
- `AdminGate` is the allow-list test.
- `Http` holds the request, the responses, the Set-Cookie text and the shared preamble (`Authenticate`, specified by `Refusal`).
- `Tables` holds the rows of the `orders`, `messages` and `rewards` tables and the auth identities. They live in a `Backend` class whose methods are the writes the handlers issue: insert, update by id, delete by owner.

Each handler with state is a method over a `Backend`. Its contract has two cases:

- The pure function `…Rejection` gives the response for every path that stops before the write. On those paths the backend is `unchanged`.
- Otherwise the method states the new contents of every table and the final redirect.

Signup and logout are functions: logout changes no state, and the account signup creates in the auth backend is left out (see below). The cookie helpers work
on a `CookieJar` class, which stands for the framework's cookie store.

These backend answers are inputs to the model (the table contents are not: queries and writes act on the modelled tables):

- the user a token resolves to
- whether the count query failed
- whether a reward already exists
- the id of a new row
- the error of each insert, update or delete
- the result of signUp and of setSession

Configuration is a record parameter.

An unset or empty ADMIN_EMAILS does not lock everyone out. `''.split(',')` is
`['']`, so a user whose email is absent or empty passes the gate
(admin-orders-reject.ts:52-53). The same holds for any list with a blank entry,
such as `a,,b`. `AdminGate.UnsetAdmitsOnlyEmptyEmail` and
`AdminGate.BlankEntryAdmitsEmptyEmail` state this behaviour.

## Model

| member | source | states |
|---|---|---|
| Wrappers.OrEmpty | netlify/functions/admin-orders-reject.ts:53 | `email \|\| ''` keeps a truthy email and turns a falsy one (absent or empty) into `''` |
| JsString.Split | netlify/functions/rewards-claim.ts:11-12 | `split` returns at least one part, and no part contains the separator |
| JsString.SplitNoSeparator | netlify/functions/rewards-claim.ts:12 | a string without the separator splits into itself alone |
| JsString.SplitAppend | netlify/functions/rewards-claim.ts:11-12 | splitting `a + sep + b` gives the parts of `a` followed by the parts of `b` |
| JsString.SplitJoin | netlify/functions/rewards-claim.ts:11 | joining the parts of a split with the same separator gives back the string |
| JsString.JoinSplit | netlify/functions/admin-orders-reject.ts:52 | splitting a join of separator-free parts gives back the parts |
| JsString.Trim | netlify/functions/messages-send.ts:55 | `trim()` yields a string that is empty or starts and ends with a non-white-space character |
| JsString.TrimSlice | netlify/functions/messages-send.ts:67 | the trimmed string is a slice of the input with only white space cut off on either side |
| JsString.TrimIdempotent | netlify/functions/messages-send.ts:67 | trimming twice is trimming once |
| JsString.TrimEmptyIffAllSpace | netlify/functions/messages-send.ts:55 | `trim()` is empty exactly when every character is white space |
| Cookies.ParseCookies | netlify/functions/rewards-claim.ts:7-17 | the forEach loop over the `;` segments builds exactly the map `CookieMap` specifies |
| Cookies.EmptyHeader | netlify/functions/rewards-claim.ts:9 | a null or empty header parses to the empty map |
| Cookies.SegmentEntry | netlify/functions/rewards-claim.ts:12-13 | a trimmed segment `name=value` (optionally followed by `=…`) with non-empty parts yields exactly (name, value) |
| Cookies.SegmentWithoutEquals | netlify/functions/rewards-claim.ts:13 | a segment without `=` is dropped |
| Cookies.SegmentWithEmptyPart | netlify/functions/rewards-claim.ts:13 | a segment with an empty name or an empty value is dropped |
| Cookies.LastOccurrenceWins | netlify/functions/rewards-claim.ts:11-14 | a name is stored if and only if some entry has it, and its value is that of the last such entry |
| Cookies.HeaderLastOccurrenceWins | netlify/functions/rewards-claim.ts:11-14 | the same, stated over the header's `;` segments: the last segment naming the cookie gives its value |
| Cookies.CookieMapWellFormed | netlify/functions/rewards-claim.ts:12-13 | every stored name and value is non-empty and contains no `=` |
| Cookies.SingleSegment | netlify/functions/rewards-claim.ts:11-14 | a header without `;` is one segment, recorded on its own |
| Cookies.SecondEqualsTruncates | netlify/functions/rewards-claim.ts:12 | `name=value=rest` parses to `{name: value}`: everything after the second `=` is lost |
| AdminGate.TrimAll | netlify/functions/admin-orders-reject.ts:52 | `.map(e => e.trim())` trims each entry, position by position, and keeps the length |
| AdminGate.AdminsOfEntries | netlify/functions/admin-orders-reject.ts:52-53 | for a list written as comma-joined entries, a user is admin exactly when the email, or `''`, equals some trimmed entry |
| AdminGate.UnsetAdmitsOnlyEmptyEmail | netlify/functions/admin-orders-reject.ts:52-53 | an unset or empty ADMIN_EMAILS is the list `['']`, which admits exactly the users whose email is absent or empty |
| AdminGate.BlankEntryAdmitsEmptyEmail | netlify/functions/admin-rewards-fulfill.ts:52-53 | a blank entry between two commas admits a user with an absent or empty email |
| AdminGate.PaddedEmailRejected | netlify/functions/admin-orders-reject.ts:53 | the user's email is not trimmed: one starting or ending with white space never matches |
| AdminGate.CaseSensitive | netlify/functions/admin-orders-reject.ts:53 | an example of exact matching: `A@x` on the list admits `A@x` and refuses `a@x` (the general statement is `AdminsOfEntries`) |
| Http.OnlyBackendMessagesEncoded | netlify/functions/rewards-claim.ts:105 | only a backend error message goes through encodeURIComponent; fixed texts are written verbatim |
| Http.ClearedSessionCookies | netlify/functions/auth-logout.ts:8-11 | both session cookies are written empty with Max-Age 0 |
| Http.SessionHeaderText | netlify/functions/auth-signup.ts:42-45 | the cookie pair renders as the two `name=value; Path=/; HttpOnly; Secure; SameSite=Lax; Max-Age=n` strings joined by `, ` |
| Http.MaxAgeText | netlify/functions/auth-signup.ts:43-44 | the Max-Age values render as `0` and `604800`, and seven days is 604800 seconds |
| Http.Authenticate | netlify/functions/rewards-claim.ts:20-50 | the preamble stops exactly when `Refusal` gives a response and with that response; a user let through is the one the token resolves to |
| Http.NonPostRefusedFirst | netlify/functions/rewards-claim.ts:20-22 | any method but POST gets 405, whatever the configuration, cookies or backend |
| Http.NoTokenNoLookup | netlify/functions/rewards-claim.ts:31-39 | without an access-token cookie no session is looked up, and a configured POST is answered with a redirect to `/login` |
| Http.ProceedNeedsToken | netlify/functions/rewards-claim.ts:31-50 | a request let through was a configured POST carrying a non-empty token that the backend resolved |
| Http.RefusalWellFormed | netlify/functions/rewards-claim.ts:20-50 | every preamble refusal is a 405 with its text or a redirect, and sets no cookie |
| Tables.VerifiedCount | netlify/functions/rewards-claim.ts:52-58 | the count of the user's verified orders is at most the table size, and is zero exactly when the user has no verified order |
| Tables.RewardCount | netlify/functions/rewards-claim.ts:67-71 | the number of the user's reward rows is at most the table size, and is zero exactly when the user owns none |
| Tables.UpdateWhere | netlify/functions/admin-orders-reject.ts:70-73 | an update keeps the table's length, rewrites each matching row and leaves every other row where and as it was |
| Tables.Without | netlify/functions/auth-delete-account.ts:62-64 | deleting by owner removes every row of the user and keeps every other row with its multiplicity |
| Tables.Backend.constructor | netlify/functions/auth-delete-account.ts:62-66 | a backend holds the three tables and the identities it is given |
| Tables.Backend.InsertOrder | netlify/functions/orders-submit.ts:65-74 | the row is appended unless the insert fails; the error is passed back; the other tables are untouched |
| Tables.Backend.InsertMessage | netlify/functions/messages-send.ts:62-68 | the row is appended unless the insert fails; the error is passed back; the other tables are untouched |
| Tables.Backend.InsertReward | netlify/functions/rewards-claim.ts:94-100 | the row is appended unless the insert fails; the error is passed back; the other tables are untouched |
| Tables.Backend.UpdateOrderStatus | netlify/functions/admin-orders-reject.ts:70-73 | on success the orders table becomes `SetOrderStatus`, the `UpdateWhere` on the id; otherwise nothing changes |
| Tables.Backend.UpdateRewardStatus | netlify/functions/admin-rewards-fulfill.ts:70-73 | on success the rewards table becomes `SetRewardStatus`, the `UpdateWhere` on the id; otherwise nothing changes |
| Tables.Backend.DeleteOrdersOf | netlify/functions/auth-delete-account.ts:62 | on success the user's orders are gone; otherwise nothing changes |
| Tables.Backend.DeleteMessagesOf | netlify/functions/auth-delete-account.ts:63 | on success the user's messages are gone; otherwise nothing changes |
| Tables.Backend.DeleteRewardsOf | netlify/functions/auth-delete-account.ts:64 | on success the user's rewards are gone; otherwise nothing changes |
| Tables.Backend.DeleteIdentity | netlify/functions/auth-delete-account.ts:66 | on success the identity is gone; otherwise nothing changes |
| Tables.Backend.UpdatePassword | netlify/functions/auth-change-password.ts:62-64 | on success the user's password is the new one; otherwise nothing changes |
| Tables.VerifiedCountAppend | netlify/functions/rewards-claim.ts:52-58 | one more row raises the count by one exactly when it is a verified order of the user |
| Tables.PendingInsertKeepsCount | netlify/functions/orders-submit.ts:73 | inserting a pending order changes nobody's verified count |
| Tables.CountMonotone | netlify/functions/rewards-claim.ts:52-58 | a table whose rows count only where another's do has no larger count |
| Tables.RejectNeverRaisesCount | netlify/functions/admin-orders-reject.ts:70-73 | rejecting orders never raises anybody's verified count |
| Tables.DeletedOrdersCountZero | netlify/functions/auth-delete-account.ts:62 | after the user's orders are deleted the user has no verified order |
| Tables.DeleteKeepsOthersCount | netlify/functions/auth-delete-account.ts:62 | deleting one user's orders leaves every other user's verified count unchanged |
| Tables.UpdateTwiceIsOnce | netlify/functions/admin-rewards-fulfill.ts:70-73 | an update whose rewrite keeps rows matching and is idempotent gives the same table when run twice |
| Tables.RewardStatusIdempotent | netlify/functions/admin-rewards-fulfill.ts:70-73 | setting a reward status twice is setting it once |
| Tables.NoMatchNoChange | netlify/functions/admin-orders-reject.ts:70-73 | an update whose condition matches no row (an unknown id) changes nothing |
| Tables.RewardCountAppend | netlify/functions/rewards-claim.ts:94-100 | one more reward row adds one to its owner's count and nothing to anybody else's |
| RewardsClaim.ClaimReward | netlify/functions/rewards-claim.ts:19-113 | every rejected path returns its response and leaves the backend unchanged; otherwise exactly one claimed reward of the session user, with the three-line address, is appended unless the insert fails, and the redirect reports the outcome |
| RewardsClaim.ClaimAcceptedIff | netlify/functions/rewards-claim.ts:20-90 | the insert is reached exactly for a configured POST with a session, a successful count of at least 5 (exactly 5 passes), no existing reward and all three fields non-empty |
| RewardsClaim.CountCheckedFirst | netlify/functions/rewards-claim.ts:52-65 | once the preamble passes, fewer than 5 verified orders, or a failed count query, gives the count error whatever the reward and fields are |
| RewardsClaim.ExistingRewardBeforeFields | netlify/functions/rewards-claim.ts:67-78 | an eligible user with a reward gets "already claimed" whatever the form holds |
| RewardsClaim.NoVerifiedOrdersNoClaim | netlify/functions/rewards-claim.ts:52-65 | a user without any verified order of their own is always rejected |
| RewardsClaim.SecondClaimRefused | netlify/functions/rewards-claim.ts:67-100 | reading the existing-reward flag as `.single()` finding exactly one row of the user, a claim accepted for a user without rewards, once stored, makes the same request get "already claimed" |
| RewardsClaim.ClaimAddressRoundTrip | netlify/functions/rewards-claim.ts:92 | the claim address splits on newlines back into name, address and phone when none spans lines |
| RewardsClaim.ClaimedRewardContents | netlify/functions/rewards-claim.ts:94-100 | the stored row is the session user's, in the claimed state, and its address starts with the name and ends with the phone |
| AdminOrdersReject.RejectOrder | netlify/functions/admin-orders-reject.ts:19-86 | every rejected path returns its response with no change; otherwise the orders with the given id become rejected unless the update fails, nothing else changes, and the redirect reports the outcome |
| AdminOrdersReject.RejectAcceptedIff | netlify/functions/admin-orders-reject.ts:20-68 | the update is issued exactly for a configured POST with a session, an email (or `''`) on the trimmed list and a non-empty order_id |
| AdminOrdersReject.NonAdminUnauthorized | netlify/functions/admin-orders-reject.ts:52-58 | a signed-in user off the list gets `/dashboard?error=Unauthorized` whatever the form holds |
| AdminOrdersReject.UnsetListAdmitsUserWithoutEmail | netlify/functions/admin-orders-reject.ts:52-68 | with ADMIN_EMAILS unset a user without an email reaches the update whenever order_id is given |
| AdminOrdersReject.RejectEffect | netlify/functions/admin-orders-reject.ts:70-73 | other orders are unchanged, matching ones differ only in their status, which is rejected, and no verified count rises |
| AdminRewardsFulfill.FulfillReward | netlify/functions/admin-rewards-fulfill.ts:19-86 | every rejected path returns its response with no change; otherwise the rewards with the given id become fulfilled unless the update fails, nothing else changes, and the redirect reports the outcome |
| AdminRewardsFulfill.FulfillAcceptedIff | netlify/functions/admin-rewards-fulfill.ts:20-68 | the update is issued exactly for a configured POST with a session, an email (or `''`) on the list and a non-empty reward_id |
| AdminRewardsFulfill.FulfillPreamble | netlify/functions/admin-rewards-fulfill.ts:20-29 | non-POST gets 405; a POST without the service configuration gets `/admin?error=Configuration error` |
| AdminRewardsFulfill.BlankEntryAdmitsUserWithoutEmail | netlify/functions/admin-rewards-fulfill.ts:52-68 | a list containing `,,` lets a user without an email reach the update whenever reward_id is given |
| AdminRewardsFulfill.FulfillEffect | netlify/functions/admin-rewards-fulfill.ts:70-73 | fulfilling twice leaves the table as fulfilling once; matching rewards differ only in their status, now fulfilled; other rewards are untouched |
| AuthDeleteAccount.DeleteAccount | netlify/functions/auth-delete-account.ts:19-85 | every rejected path returns its response and deletes nothing; otherwise the user's orders, messages and rewards are deleted (each unless that delete fails, its error ignored), then the identity unless its delete fails, and the response is `DeletionReport` of that error |
| AuthDeleteAccount.DeleteAcceptedIff | netlify/functions/auth-delete-account.ts:20-60 | deletion starts exactly for a configured POST with a session whose email is present and equal to the sent confirm_email |
| AuthDeleteAccount.NoEmailNoDeletion | netlify/functions/auth-delete-account.ts:55 | a user without an email can never delete the account (null never equals undefined) |
| AuthDeleteAccount.ConfirmationIsExact | netlify/functions/auth-delete-account.ts:55 | the confirmation matches exactly when the two strings are equal: no trimming, no case folding |
| AuthDeleteAccount.ReportClearsCookiesIffDeleted | netlify/functions/auth-delete-account.ts:66-84 | cookies are cleared, with the `/login` success redirect, exactly when the identity delete succeeded; every outcome is a well-formed redirect |
| AuthDeleteAccount.CascadeRemovesOnlyTheUser | netlify/functions/auth-delete-account.ts:62-64 | after a delete by owner no row of the user is left, and every row of another user is still there |
| OrdersSubmit.SubmitOrder | netlify/functions/orders-submit.ts:19-87 | every rejected path returns its response with no insert; otherwise exactly one pending order is appended unless the insert fails, and the redirect reports the outcome |
| OrdersSubmit.SubmitAcceptedIff | netlify/functions/orders-submit.ts:20-63 | the insert is reached exactly for a configured POST with a session and non-empty order_number, source and order_date |
| OrdersSubmit.SubmittedOrderContents | netlify/functions/orders-submit.ts:65-74 | the stored order is pending, the session user's, and keeps the three fields verbatim (untrimmed) |
| OrdersSubmit.ReceiptUrlStored | netlify/functions/orders-submit.ts:72 | the receipt link is stored verbatim exactly when it is non-empty, and as null otherwise |
| OrdersSubmit.SubmissionKeepsCounts | netlify/functions/orders-submit.ts:65-74 | a submitted order changes nobody's verified count |
| MessagesSend.SendMessage | netlify/functions/messages-send.ts:19-81 | every rejected path returns its response with no insert; otherwise exactly one message from the user with the trimmed body is appended unless the insert fails, and the redirect reports the outcome |
| MessagesSend.EmptyBodyIffBlank | netlify/functions/messages-send.ts:55-60 | a body is refused exactly when it is absent or all white space (empty included) |
| MessagesSend.SentMessageContents | netlify/functions/messages-send.ts:62-68 | the stored message is from the session user in the user role; its body is a non-empty slice of the sent body with no white space at either end |
| MessagesSend.TrimmedBodyStoredVerbatim | netlify/functions/messages-send.ts:67 | a body that is already trimmed is stored unchanged |
| MessagesSend.StoredBodyIsFixedPoint | netlify/functions/messages-send.ts:67 | the stored body is its own trim |
| AuthChangePassword.ChangePassword | netlify/functions/auth-change-password.ts:19-77 | every rejected path returns its response with no update; otherwise the user's password becomes the sent one, verbatim, unless the update fails, and the redirect reports the outcome |
| AuthChangePassword.LengthIsTheOnlyRule | netlify/functions/auth-change-password.ts:55 | a password is accepted exactly when it is present with six or more characters |
| AuthChangePassword.ChangeAcceptedIff | netlify/functions/auth-change-password.ts:20-60 | the update is issued exactly for a configured POST with a session and a new_password of length at least 6 |
| AuthChangePassword.BoundaryLengths | netlify/functions/auth-change-password.ts:55-60 | after the preamble a six-character password passes and a five-character one gets the length error |
| AuthSignup.SignUp | netlify/functions/auth-signup.ts:7-54 | every response is well formed, and cookies are set exactly for a configured POST whose signup opened a session |
| AuthSignup.NonPostNeverSignsUp | netlify/functions/auth-signup.ts:8-10 | non-POST gets 405 whatever the backend would answer |
| AuthSignup.UnconfiguredNeverSignsUp | netlify/functions/auth-signup.ts:16-21 | without configuration the answer is `/login?error=Configuration error` and the backend is not consulted |
| AuthSignup.FieldsForwardedAsSent | netlify/functions/auth-signup.ts:12-14 | with no local validation, the response depends on the form only through the backend's answer to the two fields as sent |
| AuthSignup.SignUpOutcomes | netlify/functions/auth-signup.ts:30-53 | an error goes to `/login` with the encoded message; no session goes to the confirm-email error; a session goes to `/dashboard` |
| AuthSignup.SessionCookieHeader | netlify/functions/auth-signup.ts:37-47 | with a session, the Set-Cookie value holds the two returned tokens, each with Max-Age 604800, in the literal format |
| AuthLogout.Logout | netlify/functions/auth-logout.ts:3-14 | the answer is a redirect to `/login` that writes both token cookies empty with Max-Age 0 |
| AuthLogout.LogoutIsConstant | netlify/functions/auth-logout.ts:3-14 | the response is the same for every request, whatever the method |
| AuthLogout.LogoutHeader | netlify/functions/auth-logout.ts:8-11 | the Set-Cookie value is the two empty cookies with Max-Age 0 joined by `, ` |
| AuthCookies.CookieJar.constructor | src/utils/auth.ts:4 | a store holds the cookies it is given |
| AuthCookies.CookieJar.Set | src/utils/auth.ts:29 | setting a cookie replaces or adds that one name and nothing else |
| AuthCookies.CookieJar.Delete | src/utils/auth.ts:46 | deleting a cookie removes that one name and nothing else |
| AuthCookies.SetAuthCookies | src/utils/auth.ts:28-43 | the store afterwards is `WithAuthCookies`: both tokens written with the session options |
| AuthCookies.ClearAuthCookies | src/utils/auth.ts:45-48 | the store afterwards is `WithoutAuthCookies`: both tokens removed |
| AuthCookies.GetUser | src/utils/auth.ts:4-26 | returns the user the backend restores, and drops both token cookies exactly when the backend refused a restore it was asked for; otherwise the store is untouched |
| AuthCookies.SetStoresBothTokens | src/utils/auth.ts:28-43 | both tokens get their values with path `/`, secure, httpOnly, lax and 604800 seconds; every other cookie is untouched |
| AuthCookies.ClearRemovesExactlyTokens | src/utils/auth.ts:45-48 | clearing removes exactly the two token cookies |
| AuthCookies.ClearIdempotent | src/utils/auth.ts:45-48 | clearing twice is clearing once |
| AuthCookies.SetThenClear | src/utils/auth.ts:28-48 | set then clear leaves neither token, and the other cookies as before the set |
| AuthCookies.SetThenGetAsksForTheTokens | src/utils/auth.ts:14-17 | after a set, a configured client hands exactly the two written values to the backend |
| AuthCookies.NoClientOrTokensNoUser | src/utils/auth.ts:5-12 | without a client or without both cookies no user is returned and the cookies are kept |
| AuthCookies.RefusedRestoreDropsTokens | src/utils/auth.ts:19-23 | a refused restore returns no user and leaves no token, so the next call does not consult the backend |
| AuthCookies.EmptyTokensStillAsked | src/utils/auth.ts:10 | presence, not content, is checked: empty-valued token cookies still reach the backend |

## Left out

- The auth calls `auth.getUser`, `setSession`, `signUp`, `updateUser` and `admin.deleteUser` are not modelled; their results are parameters. The table queries act on the modelled tables: the verified-orders select is computed from the orders table, and the inserts, updates by id and deletes by owner change the tables. Only their errors, the failure of the count query, the `.single()` flag and the ids of new rows are parameters.
- AuthSignup.SignUp: the account `auth.signUp` creates is not added to `Backend.identities`; signup is modelled by its response alone.
- RewardsClaim.ClaimReward: the `.single()` lookup of an existing reward is an input flag. Whether `.single()` reports a reward when the user holds two is library behaviour the model does not see.
- AuthChangePassword.ChangePassword: the update is applied to the session user. Which identity `auth.updateUser` acts on, on a client that only called `getUser`, is library behaviour.
- Row ids the database assigns are inputs (`newId`). Timestamps and other columns the handlers do not write are not modelled.
- Concurrency is not modelled. In particular, the race between the existing-reward read and the reward insert is not captured, and there is no "one reward per user" invariant.
- HTTP plumbing is not modelled: form-body decoding, the `as string` casts and the Netlify `context`. The form is a map from field name to value, and an absent field reads as null.
- `encodeURIComponent` is an uninterpreted parameter of `Http.Href`.
- The text of the Location header is `Href`. Each response keeps its redirect as a path and a query datatype.
- The Set-Cookie value is the cookies joined with `, `. How a user agent splits that combined header (section 5.2 of RFC 6265) is not modelled.
- `trim` uses the ECMAScript white-space and line-terminator characters of the Basic Multilingual Plane. Lengths are counted in characters, not in UTF-16 code units, so a password of astral-plane characters is measured differently.
- `process.env` reading is replaced by a configuration record.
- The `./database` module is not part of this model. Whether its client exists is the `clientConfigured` flag of `AuthCookies.GetUser`.
- AuthCookies.CookieJar.Delete: the `{ path: '/' }` option and the expired cookie Astro emits for a deleted name are not modelled. A deleted cookie is simply absent from the store.
