# DISCIPLXN gym portal — a verified model of its logic

DISCIPLXN is a React front end for a gym. Members sign in, see their notifications,
receipts and plans, and change their settings. Administrators see member statistics,
record payments and send notifications. The backend is a hosted Postgres service. When
that backend is not configured, the app runs in *demo mode*: a fixed table of demo
accounts, with the signed-in identity kept in one local-storage slot.

This project models the parts of the app that hold logic:

- the authentication provider, including the demo identities, the profile lookup that
  creates missing profiles, and sign-in, sign-up, sign-out and restore;
- the route guard and the redirect after login;
- the login, registration and settings forms;
- the three data hooks: notifications, receipts and administrator data;
- the plan prices on the member dashboard.

Every backend call is a parameter that carries its outcome: `Outcome<T>` is `Ok(value)` or
`Err(message)`, and `CallResult` is `Completed(error)` or `Threw`. A table is a parameter
listing its rows in the order the server returns them. The model applies each query's
filter and limit. The clock is an integer parameter (`now`, `monthStart`). Money amounts
are integers.

Modules, one per source file, plus four helper modules:

- `AuthContext` models `src/contexts/AuthContext.tsx`.
- `App` models `src/App.tsx`.
- `LoginPage` models `src/pages/Login.tsx`.
- `RegisterPage` models `src/pages/Register.tsx`.
- `NotificationsHook` models `src/hooks/useNotifications.ts`.
- `ReceiptsHook` models `src/hooks/useReceipts.ts`.
- `AdminDataHook` models `src/hooks/useAdminData.ts`.
- `MemberDashboard` models `src/pages/MemberDashboard.tsx`.
- `Outcomes`, `Text`, `Seqs` and `JsMath` hold the option and outcome types, and the
  JavaScript string, array and `Math.round` operations the code uses.

State that the source updates in place becomes a class: `AuthProvider`, `LoginForm`,
`RegisterForm`, `Notifications`, `Receipts`, `AdminData` and `Settings`. Each handler is a
method whose postcondition gives the whole new state. Pure derivations are functions, and
lemmas relate them.

Five facts about the code are proved as lemmas. They describe behaviour as written; none
is claimed as a bug:

- **Demo ids can collide.** Two different emails can get the same demo id, because only
  the first '.' is replaced (`AuthContext.DemoIdCollides`).
- **Restore drops the sign-up name.** After a demo sign-up, reloading the page rebuilds the
  profile from the stored email and role only. The name entered at sign-up is lost
  (`AuthContext.RestoreAfterSignUpLosesName`).
- **Mark-all-as-read diverges from the server on global notifications.** Locally it marks
  every notification read, global ones included. The server update only touches the
  member's own rows, so the next fetch shows the global ones unread again
  (`NotificationsHook.MarkAllDivergesOnGlobal`).
- **The savings line disagrees with the shown discount.** The yearly saving on a plan card
  is not twelve times the monthly discount the same card shows: Basic shows $23 instead of
  $29, but says "You save $70/year", not $72 (`MemberDashboard.SavingsDisagreeWithShownDiscount`).
- **A capitalised address highlights no sidebar link.** The router matches routes without
  regard to letter case, so `/MEMBER/plans` opens the plans page, but the sidebar compares
  paths exactly and highlights nothing (`MemberDashboard.CapitalisedPathHighlightsNoLink`).

## Model

| member | source | states |
|---|---|---|
| Text.NormalizeEmail | src/contexts/AuthContext.tsx:253 | the normalised email is no longer than the input, has no upper-case letter and no leading or trailing white space |
| Text.NormalizeEmailIsLowerCore | src/contexts/AuthContext.tsx:253 | for every email written as white space, a core without white space at either end, and white space, the normal form is exactly the core in lower case |
| Text.NormalizeEmailIgnoresCase | src/contexts/AuthContext.tsx:253 | two emails that agree up to the case of their ASCII letters have the same normal form |
| Text.NormalizeEmailExample | src/contexts/AuthContext.tsx:253 | " ADMIN@Example.COM " normalises to "admin@example.com" |
| Text.NormalizeEmailIdempotent | src/contexts/AuthContext.tsx:253 | normalising an already normalised email changes nothing |
| Text.LowerChar | src/contexts/AuthContext.tsx:253 | 'A'..'Z' become the letter 32 code points up, which is lower case; every other character is kept |
| Text.ToLower | src/contexts/AuthContext.tsx:253 | `toLowerCase` keeps the length and maps each character by `LowerChar`, so no upper-case letter remains |
| Text.ToLowerIgnoresCase | src/App.tsx:52-59 | strings that agree up to letter case lower-case to the same string |
| Text.Trim | src/contexts/AuthContext.tsx:253 | `trim` leaves neither leading nor trailing white space |
| Text.IndexOf | src/contexts/AuthContext.tsx:59-62 | `indexOf` is -1 exactly when the character is absent, and otherwise the position of its first occurrence |
| Text.ReplaceFirst | src/contexts/AuthContext.tsx:59 | `replace` leaves a string without the character unchanged, and otherwise replaces one character by the replacement |
| Text.LocalPart | src/contexts/AuthContext.tsx:62 | `split('@')[0]` is the prefix before the first '@', or the whole string when there is none |
| Text.LocalPartOf | src/contexts/AuthContext.tsx:70 | the local part of `pre@post` is exactly `pre`, whatever `post` holds |
| Text.ReplaceFirstAt | src/contexts/AuthContext.tsx:59 | `replace` with a one-character pattern replaces only the first occurrence and leaves later ones in place |
| Text.OrElse | src/contexts/AuthContext.tsx:310 | the or-default of an optional string gives the string when present and non-empty, and the default otherwise |
| Text.OrNull | src/hooks/useAdminData.ts:114 | `s || null` keeps a present non-empty string and gives null for a missing or empty one |
| Text.Capitalize | src/contexts/AuthContext.tsx:70 | `charAt(0).toUpperCase() + slice(1)` keeps the length and the tail, and the first character is not a lower-case letter |
| AuthContext.IsSupabaseConfigured | src/contexts/AuthContext.tsx:50-56 | the backend counts as configured exactly when the URL is non-empty and the key starts with "eyJ"; configured implies a client exists |
| AuthContext.ClientExists | src/lib/supabase.ts:12-17 | a client is created exactly when both the URL and the key are non-empty |
| AuthContext.DemoId | src/contexts/AuthContext.tsx:59 | the demo id is at least five characters longer than the email |
| AuthContext.DemoIdShape | src/contexts/AuthContext.tsx:59 | every demo id starts with "demo-", and an email with neither '@' nor '.' follows it unchanged |
| AuthContext.DemoIdDotInDomain | src/contexts/AuthContext.tsx:59 | with no '.' in the local part, the id is `demo-<local>-at-<domain with its first '.' replaced>` |
| AuthContext.DemoIdDotInLocal | src/contexts/AuthContext.tsx:59 | with a '.' in the local part, only that first '.' becomes "-dot-" and the domain keeps its dots |
| AuthContext.DemoIdCollides | src/contexts/AuthContext.tsx:59 | two different emails (`x-dot-y@z.w` and `x.y@z-dot-w`) get the same demo id |
| AuthContext.DemoUser | src/contexts/AuthContext.tsx:58-65 | the demo user carries the demo id, the email, and the local part as its name |
| AuthContext.DemoProfile | src/contexts/AuthContext.tsx:67-76 | the demo profile has the demo id, the email and the given role, the capitalised local part as full name, no phone or avatar, and both timestamps `now` |
| AuthContext.DemoSession | src/contexts/AuthContext.tsx:78-84 | the demo session holds the user, the fixed demo tokens, a 3600-second expiry and the bearer type |
| AuthContext.DemoFullNameIsCapitalisedLocalPart | src/contexts/AuthContext.tsx:67-76 | the demo profile's full name for `local@domain` is `local` with its first letter upper-cased |
| AuthContext.DemoSignIn | src/contexts/AuthContext.tsx:257-259 | the installed user, profile and session share one id, email and the given role, and the session holds the user |
| AuthContext.SignInRole | src/contexts/AuthContext.tsx:254-256 | a non-member role is granted only for a demo email with its matching password, and then it is the table's role |
| AuthContext.SignInGrantsAdminOnlyToAdminAccounts | src/contexts/AuthContext.tsx:42-47 | demo sign-in grants an administrative role exactly when the normalised email and the password are the admin or the super-admin pair; with `Text.NormalizeEmailIsLowerCore` this holds for the email in any letter case with surrounding white space |
| AuthContext.WrongPasswordSignsInAsMember | src/contexts/AuthContext.tsx:275-291 | a demo email with a wrong password still signs in, as a member |
| AuthContext.IsAdmin | src/contexts/AuthContext.tsx:365 | admin exactly when a profile exists and its role is not member |
| AuthContext.ProvisionedProfile | src/contexts/AuthContext.tsx:113-121 | the auto-created profile has the user's id and email, the local part as full name, and role member |
| AuthContext.FetchProfile | src/contexts/AuthContext.tsx:96-137 | none in demo mode, without a client, or on a lookup error; the stored profile when one exists; a provisioned member profile only when none exists, an email is known and the insert succeeds |
| AuthContext.SignedUpProfile | src/contexts/AuthContext.tsx:308-312 | the profile a demo sign-up installs is a member's, with the demo id and email, the given name or else the local part, and the given phone or else none |
| AuthContext.AuthProvider.constructor | src/contexts/AuthContext.tsx:89-94 | signed out and loading; demo mode is fixed once from the configuration |
| AuthContext.AuthProvider.InitAuth | src/contexts/AuthContext.tsx:150-218 | demo mode restores the stored email and role, or drops an unreadable slot; otherwise the backend session, its user and their profile are installed; loading ends on every path and `Valid()` holds |
| AuthContext.AuthProvider.SignIn | src/contexts/AuthContext.tsx:250-301 | demo mode never fails: it installs `DemoSignIn` for the normalised email with the granted role and stores `{email, role}`; otherwise the backend error is returned and the state is untouched |
| AuthContext.AuthProvider.SignUp | src/contexts/AuthContext.tsx:303-344 | demo mode signs in a member whose full name is the given name or the local part and whose phone is the given one or none, storing `{email, member}`; otherwise the backend error is returned |
| AuthContext.AuthProvider.SignOut | src/contexts/AuthContext.tsx:346-363 | demo mode clears the slot and the user, profile and session; otherwise they are cleared once the backend call completes |
| AuthContext.AuthProvider.RefreshProfile | src/contexts/AuthContext.tsx:139-144 | outside demo mode and with a user, the profile becomes `FetchProfile` of that user; nothing else changes |
| AuthContext.AuthProvider.OnAuthStateChange | src/contexts/AuthContext.tsx:225-240 | the new session, its user and their profile (none when signed out) are installed and loading ends |
| AuthContext.RestoreAfterSignInIsSameIdentity | src/contexts/AuthContext.tsx:161-166 | rebuilding from the stored `{email, role}` of a demo sign-in gives back the same user, profile and session |
| AuthContext.RestoreAfterSignUpLosesName | src/contexts/AuthContext.tsx:161-166 | after a demo sign-up with a name, the restored profile's full name differs from that name |
| App.ProtectedRoute | src/App.tsx:13-40 | loading view exactly while loading; login redirect without a user; member redirect exactly for a signed-in non-admin on an admin-only route; otherwise render |
| App.Protection | src/App.tsx:52-67 | `/admin/*` is the only admin-only tree, `/member/*` is guarded without it, and other paths are unguarded; letter case is ignored as the router ignores it |
| App.Below | src/App.tsx:52-67 | a path below a prefix is at least as long and, lower-cased, starts with the prefix |
| App.BelowIgnoresCase | src/App.tsx:52-67 | paths that differ only in letter case are below the same prefixes |
| App.GuardAt | src/App.tsx:52-67 | unguarded paths render; guarded ones go through `ProtectedRoute` with their admin flag; every redirect goes to `/login` or `/member` |
| App.TreesAreDisjoint | src/App.tsx:52-67 | no pathname, in any letter case, is in both the admin and the member tree |
| App.GuardRedirectsSettle | src/App.tsx:31-37 | every redirect of the guard lands on a page the guard renders, so it never redirects twice |
| App.MembersNeverSeeAdminPages | src/App.tsx:35-37 | a signed-in non-admin on any admin page, whatever its letter case, is redirected to `/member` |
| App.CapitalisedAdminIsGuarded | src/App.tsx:52-59 | `/ADMIN` and `/Admin/users` send a signed-in non-admin to `/member` and a visitor to `/login` |
| LoginPage.RedirectAfterLogin | src/pages/Login.tsx:20-28 | a redirect happens exactly when loading is over and both user and profile exist; it goes to `/admin` exactly for admins, otherwise to `/member` |
| LoginPage.RedirectAfterLoginIsAdmitted | src/pages/Login.tsx:20-28 | the guard renders the page the login redirect leads to |
| LoginPage.Edited | src/pages/Login.tsx:31 | the edited field takes the typed value and the other field keeps its own |
| LoginPage.LoginForm.constructor | src/pages/Login.tsx:12-17 | empty email and password, not loading, no error |
| LoginPage.LoginForm.HandleChange | src/pages/Login.tsx:30-33 | only the edited field changes and the error is cleared |
| LoginPage.LoginForm.HandleSubmit | src/pages/Login.tsx:35-51 | the form is never left loading and keeps its data; in demo mode the provider holds `DemoSignIn` of the normalised email with the granted role and stores `{email, role}`; otherwise the provider is unchanged and the sign-in error, or 'An unexpected error occurred' for a throw, is the message |
| LoginPage.SignInWith | src/pages/Login.tsx:40-47 | the try block: the provider's new state as for `HandleSubmit`, and the message it leaves |
| LoginPage.AdminCredentialsRedirectToAdmin | src/pages/Login.tsx:20-28 | in demo mode, submitting the admin password with an email that normalises to the admin address (any letter case, by `Text.NormalizeEmailIsLowerCore`) signs in an admin who is redirected to `/admin` |
| RegisterPage.Validate | src/pages/Register.tsx:33-43 | passes exactly when the passwords match and have at least 8 characters; the mismatch message takes precedence over the length message |
| RegisterPage.Edited | src/pages/Register.tsx:24 | the edited field takes the typed value and every other field keeps its own |
| RegisterPage.RegisterForm.constructor | src/pages/Register.tsx:12-21 | all five fields empty, not loading, no error, no success |
| RegisterPage.RegisterForm.HandleChange | src/pages/Register.tsx:23-26 | only the edited field changes and the error is cleared |
| RegisterPage.RegisterForm.HandleSubmit | src/pages/Register.tsx:28-64 | never left loading and keeps its data; a failed check sets its message and leaves the provider unchanged; in demo mode the provider holds the signed-up member's user, session and profile and stores `{email, member}`; otherwise the provider is unchanged, an error or a throw sets the message and success sets `success` |
| RegisterPage.SignUpWith | src/pages/Register.tsx:45-63 | in demo mode sign-up succeeds and the provider holds the member's user, session and profile with the given name and phone; otherwise the provider is unchanged, the backend error or the fixed text for a throw is the message, and success means no error |
| Seqs.Filter | src/hooks/useNotifications.ts:117 | `filter` keeps exactly the elements satisfying the predicate, and drops none exactly when all satisfy it |
| Seqs.FilterAppend | src/hooks/useReceipts.ts:94-96 | filtering distributes over concatenation |
| NotificationsHook.Select | src/hooks/useNotifications.ts:32-37 | exactly the first 20 of the rows addressed to the user or global, in table order, or all of them when fewer qualify |
| NotificationsHook.SelectAfterInsert | src/hooks/useNotifications.ts:32-67 | after a row addressed to the user is inserted, the refetch is a prefix of that row followed by the previous fetch, as `OnInsert` builds locally; a row for someone else changes nothing |
| NotificationsHook.UnreadCount | src/hooks/useNotifications.ts:117 | at most the list length, and zero exactly when every notification is read |
| NotificationsHook.UnreadCountPrepend | src/hooks/useNotifications.ts:66 | a notification put in front adds one to the count exactly when it is unread |
| NotificationsHook.MarkedRead | src/hooks/useNotifications.ts:97-99 | notifications with the id become read and every other one is unchanged |
| NotificationsHook.MarkedReadIdempotent | src/hooks/useNotifications.ts:97-99 | marking the same id read twice equals marking it once |
| NotificationsHook.MarkedReadUnreadCount | src/hooks/useNotifications.ts:97-99 | marking an id read lowers the unread count by exactly the number of unread notifications with that id |
| NotificationsHook.AllMarkedRead | src/hooks/useNotifications.ts:113 | every notification, global ones included, becomes read, and nothing else about it changes |
| NotificationsHook.ServerMarkAllRead | src/hooks/useNotifications.ts:106-110 | the server update marks read only the rows carrying the user's id |
| NotificationsHook.MarkAllDivergesOnGlobal | src/hooks/useNotifications.ts:106-113 | after mark-all the local count is zero, yet an unread global row stays unread and visible on the server |
| NotificationsHook.Notifications.constructor | src/hooks/useNotifications.ts:19-21 | no notifications, loading, no error |
| NotificationsHook.Notifications.Unread | src/hooks/useNotifications.ts:117 | the unread count is at most the list length and zero exactly when all are read |
| NotificationsHook.Notifications.Fetch | src/hooks/useNotifications.ts:23-47 | without a client or user only loading ends; an error empties the list and records the message; success installs `Select` of the table |
| NotificationsHook.Notifications.OnInsert | src/hooks/useNotifications.ts:65-67 | the new notification goes in front, the rest keep their order, and the count rises exactly when it is unread |
| NotificationsHook.Notifications.MarkAsRead | src/hooks/useNotifications.ts:88-101 | on success the list becomes `MarkedRead` and the count drops by the unread rows with the id; on failure or without a client nothing changes |
| NotificationsHook.Notifications.MarkAllAsRead | src/hooks/useNotifications.ts:103-115 | on success every notification is read and the count is zero; on failure or without client or user nothing changes |
| ReceiptsHook.Visible | src/hooks/useReceipts.ts:39-42 | admins get the whole table; anyone else gets exactly the rows carrying their own user id |
| ReceiptsHook.SumTotals | src/hooks/useReceipts.ts:96 | the `reduce` sum is non-negative when every total is |
| ReceiptsHook.TotalPaid | src/hooks/useReceipts.ts:94-96 | when every receipt is paid, `totalPaid` is the sum of all totals |
| ReceiptsHook.TotalPaidCons | src/hooks/useReceipts.ts:94-96 | a paid receipt adds its total amount to `totalPaid` and any other status adds nothing |
| ReceiptsHook.TotalPaidAppend | src/hooks/useReceipts.ts:94-96 | the paid total of two lists together is the sum of their paid totals |
| ReceiptsHook.TotalPaidIgnoresUnpaid | src/hooks/useReceipts.ts:94-96 | a list with no paid receipt totals zero, whatever its amounts |
| ReceiptsHook.TotalPaidAtMostSum | src/hooks/useReceipts.ts:94-96 | with non-negative amounts the paid total lies between zero and the sum of all totals |
| ReceiptsHook.NewReceipt | src/hooks/useReceipts.ts:72-82 | the inserted row has tax 0, total equal to the amount, status paid, the current date, the fixed gym id, and the defaults 'Membership payment' and 'cash' |
| ReceiptsHook.Stored | src/hooks/useReceipts.ts:72-85 | the row the insert hands back carries the sent fields, with the backend's id, number and creation time |
| ReceiptsHook.RecordedPaymentAddsAmount | src/hooks/useReceipts.ts:72-96 | a recorded payment raises the paying member's visible paid total by exactly its amount |
| ReceiptsHook.Receipts.constructor | src/hooks/useReceipts.ts:21-23 | no receipts, loading, no error |
| ReceiptsHook.Receipts.FetchReceipts | src/hooks/useReceipts.ts:25-54 | without a client or user only loading ends; an error empties the list and records the message; success installs the visible rows |
| ReceiptsHook.Receipts.CreateReceipt | src/hooks/useReceipts.ts:60-92 | a non-admin (or no client) gets 'Not authorized' and nothing is sent; an insert error is returned with no refetch; success returns the row and refetches |
| JsMath.Round | src/hooks/useAdminData.ts:83 | `Math.round(num/den)` is the integer within half of `num/den`, a half going up |
| JsMath.RoundIsUnique | src/hooks/useAdminData.ts:83 | that bound determines the result |
| JsMath.RoundIsOddOffTies | src/pages/MemberDashboard.tsx:973 | away from halves, rounding commutes with negation |
| AdminDataHook.Members | src/hooks/useAdminData.ts:46-50 | the members query returns exactly the profiles whose role is member |
| AdminDataHook.ActiveMembers | src/hooks/useAdminData.ts:83 | the estimate is within half of 0.8 times the member count and never exceeds it |
| AdminDataHook.NewThisMonth | src/hooks/useAdminData.ts:58-65 | exactly the members created at or after the month start |
| AdminDataHook.ComputeStats | src/hooks/useAdminData.ts:56-87 | total is the member count; new-this-month and active never exceed it; revenue is the paid total; pending counts pending receipts |
| AdminDataHook.PaidAndPendingAreDisjoint | src/hooks/useAdminData.ts:74-79 | no receipt counts both as revenue and as pending |
| AdminDataHook.AdminData.constructor | src/hooks/useAdminData.ts:24-33 | no members, all statistics zero, loading, no error |
| AdminDataHook.AdminData.FetchData | src/hooks/useAdminData.ts:35-94 | non-admins only stop loading; a members error keeps members and stats; a receipts error installs members but keeps stats; success installs both; loading always ends |
| AdminDataHook.NewNotification | src/hooks/useAdminData.ts:113-120 | a missing or empty user id becomes null, type defaults to info, the global flag to false, and the gym id is fixed |
| AdminDataHook.CreateNotification | src/hooks/useAdminData.ts:100-129 | a non-admin (or no client) gets 'Not authorized' and nothing is sent; otherwise `NewNotification` is sent and the insert error or row is returned |
| AdminDataHook.NotificationAudience | src/hooks/useAdminData.ts:114-118 | a created notification reaches a member exactly when it is global or carries that member's non-empty id, so one with neither reaches no one |
| MemberDashboard.IsActiveLink | src/pages/MemberDashboard.tsx:85 | a link is highlighted exactly when the pathname equals its path, letter case included |
| MemberDashboard.AtMostOneActiveLink | src/pages/MemberDashboard.tsx:37-45 | the sidebar paths are distinct, so no two links are active at once |
| MemberDashboard.CapitalisedPathHighlightsNoLink | src/pages/MemberDashboard.tsx:85 | `/MEMBER/plans` is inside the member tree for the router, yet no sidebar link is highlighted there |
| MemberDashboard.ShowsLinkBadge | src/pages/MemberDashboard.tsx:91 | a link badge shows exactly on the notifications path with a positive unread count |
| MemberDashboard.ShowsHeaderBadge | src/pages/MemberDashboard.tsx:131 | the header badge shows exactly when the unread count is positive |
| MemberDashboard.BadgeOnlyOnNotifications | src/pages/MemberDashboard.tsx:91 | the sidebar badge shows only on the notifications link, exactly when the unread count is positive |
| MemberDashboard.MarkAllClearsBadges | src/pages/MemberDashboard.tsx:131 | after a successful mark-all neither badge is shown |
| MemberDashboard.CardClick | src/pages/MemberDashboard.tsx:430 | clicking a card asks to mark it read exactly when it is unread |
| MemberDashboard.CardClickLowersUnread | src/pages/MemberDashboard.tsx:430 | a successful click on an unread card lowers the unread count |
| MemberDashboard.HeaderName | src/pages/MemberDashboard.tsx:139 | the header name is never empty: the full name when present, else the email's local part when non-empty, else 'User' |
| MemberDashboard.Avatar | src/pages/MemberDashboard.tsx:137 | the avatar is one character |
| MemberDashboard.AvatarIsInitialOfName | src/pages/MemberDashboard.tsx:137-139 | the avatar is the header name's first character, except when there is no full name and the email starts with '@' |
| MemberDashboard.YearlyPrice | src/pages/MemberDashboard.tsx:973 | the yearly per-month price is within half of 0.8 times the price and never above it |
| MemberDashboard.YearlySavings | src/pages/MemberDashboard.tsx:980 | the saving is within half of 2.4 times the price |
| MemberDashboard.DisplayedPrice | src/pages/MemberDashboard.tsx:973 | monthly shows the price; yearly shows the yearly price |
| MemberDashboard.PricesNeverTie | src/pages/MemberDashboard.tsx:973-980 | integer prices never put either product on a half, so the direction halves round in does not matter |
| MemberDashboard.PlanYearlyAmounts | src/pages/MemberDashboard.tsx:842-980 | Basic, Pro and Elite show 23, 47 and 79 per month yearly, and savings of 70, 142 and 238 |
| MemberDashboard.SavingsDisagreeWithShownDiscount | src/pages/MemberDashboard.tsx:973-980 | for Basic, the stated saving is not twelve times the shown monthly discount |
| MemberDashboard.Settings.constructor | src/pages/MemberDashboard.tsx:577-591 | the initial settings, a closed modal, empty password fields and no message |
| MemberDashboard.Settings.HandleSettingChange | src/pages/MemberDashboard.tsx:593-597 | only `key` changes in the settings map, and the message is 'Setting updated!', shown as a success |
| MemberDashboard.Settings.HandlePasswordChange | src/pages/MemberDashboard.tsx:599-609 | a mismatch shows 'Passwords do not match' as an error and keeps the modal and fields; a match closes the modal, clears the three fields and reports success |
| MemberDashboard.IsSuccessMessage | src/pages/MemberDashboard.tsx:631 | a message shown in green contains 'success' or 'updated', so it has at least seven characters |
| MemberDashboard.PasswordChangeSkipsLengthCheck | src/pages/MemberDashboard.tsx:601 | a matching password shorter than 8 characters passes here but fails the registration check |

## Left out

- Backend calls (the `profiles`, `receipts` and `notifications` queries and the `auth.*` calls) are not modelled. Each one is a parameter carrying its outcome. A table is a sequence in the server's order; ordering by `created_at` is assumed, not modelled.
- Asynchronous scheduling is not modelled: the `mounted` flag, the 5-second auth timeout, the message auto-clear, and the redirect delay after registration. Each handler runs to completion as one step.
- The real-time channel subscription and teardown are not modelled. Only one insert callback is modelled (`OnInsert`); the channel's own `user_id`/`is_global` filter is not.
- Local storage and `JSON.parse` are modelled as one optional slot. It holds `{email, role}` or unreadable text.
- Every `new Date()` inside one operation is read as a single integer `now`. Dates are not formatted (`toISOString`, `toLocaleDateString`).
- Money amounts are JavaScript floats in the source and integers here.
- `JsMath.Round` works on the exact product. `PricesNeverTie` and `ActiveMembers` show these products never fall on a half. Floating-point error in `price * 0.8` is not modelled.
- `App.Below` folds only ASCII letters. The router's case-insensitive match never maps a non-ASCII character onto an ASCII letter, so the two agree on the `/admin` and `/member` prefixes.
- `Text.ToLower` and `Text.Capitalize`: only ASCII letters change case. `toLowerCase` and `toUpperCase` also map other letters.
- `RegisterPage.Validate`: string length is counted in characters, not UTF-16 code units. `MemberDashboard.Avatar` likewise takes the first character, not the first code unit.
- The real-mode sign-up's metadata (the name defaulting to the local part, the phone to null) is sent to the backend and not modelled. Only the backend's error is.
- The `!supabase` branches that follow the demo-mode test are not modelled. They are unreachable, because outside demo mode a client always exists (`AuthProvider.Valid`).
- `AuthContext.FetchProfile` assumes the backend returns the inserted profile row with the requested fields (`ProvisionedProfile`). Server-side defaults for other columns are not modelled.
- `NotificationsHook.Notifications.MarkAsRead` and `MarkAllAsRead` take the update's outcome as a parameter; the update request itself is modelled only by `ServerMarkAllRead`.
- The loading views of the login page and the dashboards, the sidebar open/close flag, and account deletion are rendering concerns, not modelled.
- `useProfile`, the administrator dashboard's form handlers, and the landing and layout pages have no logic of their own and are not part of this model.
