# A verified model of the CRM front-end's client logic

This project models the browser-side logic of a clinic CRM front-end (a
Next.js application). It covers:

- the client library: the two HTTP wrappers, the request paths and query
  strings, the session store in local storage and the notification store;
- the hook that polls the backend for notifications;
- the authentication context and its redirect rule;
- the decision logic of the pages: the header (search, notification
  dropdown, badge, initials), the sidebar (role-based navigation), the
  registration form, the photo gallery, the photo and notes tabs of the lead
  page, the AI training page and the user management page.

What a component renders is reduced to the values it decides on: which
entries and counts are shown, which buttons are enabled, and which request
a click sends. Network replies, the time, the browser's `confirm` answer,
whether a storage write succeeds and the ids `crypto.randomUUID` mints are
all parameters.

Modules, one per source file, plus two shared ones:

- `Common`: `Option`, `Result`, JavaScript truthiness, and `filter` with its
  laws.
- `Text`: JavaScript string built-ins. These are decimal rendering,
  `includes`, UTF-16 `length`, `split`/`join`, `trim` and
  `toLowerCase`/`toUpperCase`.
- `Http`: `authFetch` (src/lib/auth.ts) and `fetchApi` (src/lib/api.ts).
- `Url`: `URLSearchParams` serialisation and `encodeURIComponent`, with
  UTF-8 as in RFC 3629, section 3.
- `Api`: the request builders of src/lib/api.ts.
- `Notifications`: src/lib/notifications.ts, a `class` over the module's
  state.
- `Polling`: src/hooks/useNotificationPolling.ts.
- `Auth`: src/lib/auth.ts.
- `AuthContext`: src/contexts/AuthContext.tsx.
- `Header`: src/components/layout/header.tsx.
- `Sidebar`: src/components/layout/sidebar.tsx.
- `RegisterPage`: src/app/register/page.tsx.
- `Photos`: src/app/photos/page.tsx.
- `LeadDetail`: src/components/leads/lead-detail.tsx.
- `AiTraining`: src/app/ai-training/page.tsx.
- `AdminPage`: src/app/admin/page.tsx.

Code that updates state in place becomes a class with the same fields, and
each method's `ensures` gives the whole new state. This applies to the
notification module, the session store, the providers and the component
state. Where a method is specified by a function (`MarkRead`, `Prepend`,
`Persist`, `ForwardAll`, ...), lemmas prove what the source promises about
that function.

## Model

| member | source | states |
|---|---|---|
| Common.OrEmpty | src/components/layout/header.tsx:70-72 | `x \|\| ""` is the string when it is truthy, and "" otherwise |
| Common.Filter | src/components/layout/sidebar.tsx:110-115 | `filter` keeps exactly the elements the callback accepts, in order (with `FilterKeeps`, `FilterEmbeds`, `FilterPartition`) |
| Common.Take | src/components/layout/header.tsx:75 | `slice(0, n)` has `min(n, length)` elements, which are the list's first ones |
| Text.NatToString | src/lib/auth.ts:69 | the decimal rendering of a number is a non-empty string of digits without a leading zero |
| Text.NatToStringRoundTrip | src/lib/auth.ts:69 | reading the digits back gives the number, so the rendering is injective (`NatToStringInjective`) |
| Text.IntToString | src/lib/api.ts:423-424 | `toString()` of an integer: its digits, after a minus sign when negative |
| Text.ContainsEmpty | src/components/layout/header.tsx:74 | every string `includes("")` |
| Text.ContainsTooLong | src/app/ai-training/page.tsx:152 | a needle longer than the string is never included |
| Text.Utf16Length | src/components/layout/header.tsx:68 | `length` counts UTF-16 code units: between one and two per character |
| Text.SplitJoin | src/components/layout/header.tsx:98-101 | `split(sep)` of a `join(sep)` of separator-free parts gives the parts back |
| Text.Trim | src/components/leads/lead-detail.tsx:666 | `trim()` is empty exactly for an all-space string, and otherwise starts and ends with a non-space character |
| Text.ToLowerIdempotent | src/app/ai-training/page.tsx:151-152 | `toLowerCase` applied twice is applied once |
| Text.ToLowerEmptyIff | src/app/ai-training/page.tsx:150-152 | lower-casing empties no string |
| Text.ToLowerNoAsciiUpper | src/components/layout/header.tsx:56 | after `toLowerCase` no ASCII capital is left |
| Text.ToLowerFixed | src/components/layout/header.tsx:71-72 | a phone number or e-mail without letters to change is left as it is |
| Http.ErrorText | src/lib/auth.ts:68-70 | the server's message when it is truthy, otherwise `API error: ` and the status |
| Http.ErrorTextCarriesStatus | src/lib/api.ts:17 | without a message, the status can be read back from the error text |
| Http.AuthFetch | src/lib/auth.ts:54-73 | success exactly for a 2xx reply, with its body; a non-2xx reply fails with `ErrorText`; an unparsable body fails with the parser's message |
| Http.FetchApi | src/lib/api.ts:6-21 | as `authFetch`, except that a non-2xx reply with an unparsable body fails with `API error: <status>` |
| Http.FetchersAgree | src/lib/api.ts:6-21 | the two wrappers agree on every reply except a failed one whose body is not JSON |
| Url.Utf8 | src/lib/api.ts:228 | a character's UTF-8 encoding has 1 to 4 bytes, each below 256, and one byte exactly for ASCII |
| Url.PercentEncode | src/lib/api.ts:228 | a percent-encoded character is `%` and upper-case hexadecimal digits, 3 to 12 characters long |
| Url.FormChar | src/lib/api.ts:116 | the form serializer keeps letters, digits and `*-._`, turns a space into `+`, and percent-encodes the rest |
| Url.UriChar | src/lib/api.ts:228 | `encodeURIComponent` keeps letters, digits and `-_.!~*'()` and percent-encodes the rest |
| Url.FormEncodeHasNoDelimiter | src/lib/api.ts:116 | a form-encoded key or value holds no `&`, `=`, `?` or `#` |
| Url.EncodeUriComponentHasNoDelimiter | src/lib/api.ts:228 | nor does a string through `encodeURIComponent`, which also escapes `+` |
| Url.FormEncodeKeepsWord | src/lib/api.ts:112-114 | a word of letters, digits and `*-._` is serialized unchanged |
| Url.SpaceEncodings | src/lib/api.ts:116 | a space is `+` in a form query but `%20` in a component |
| Url.SerializeEmpty | src/lib/api.ts:116-117 | `toString()` is empty exactly when nothing was appended |
| Url.SerializeParses | src/lib/api.ts:116 | a non-empty query reads back, split at `&` and then at `=`, as the appended pairs with both halves encoded, in order |
| Url.SearchParams.constructor | src/lib/api.ts:111 | a new `URLSearchParams` holds no pairs |
| Url.SearchParams.Append | src/lib/api.ts:112 | `append` puts the pair after every earlier one |
| Url.WithQuery | src/lib/api.ts:117 | the path alone for an empty query, otherwise the path, `?` and the query |
| Api.Present | src/lib/api.ts:112-114 | an optional string parameter gives a pair exactly when it is truthy |
| Api.PresentNumber | src/lib/api.ts:423-424 | an optional number gives a pair exactly when it is present and not 0 |
| Api.LeadsPath | src/lib/api.ts:106-118 | `getLeads` asks for `/leads` with the truthy filters serialized in the order status, treatment, desireBand |
| Api.AiMessagesPath | src/lib/api.ts:416-432 | `getAiMessages` asks for its path with page, limit, rating and leadId, each only when truthy |
| Api.KnowledgeBasePath | src/lib/api.ts:478-495 | `getKnowledgeBase` asks for its path with category, language and search when truthy, and activeOnly whenever it is defined |
| Api.QueryPathReadsBack | src/lib/api.ts:116-117 | no pairs give the bare path; otherwise the text after `?` reads back as the encoded pairs |
| Api.LeadsWithoutFilters | src/lib/api.ts:106-118 | with no truthy filter the path is `/leads` itself |
| Api.ThreePairsParse | src/lib/api.ts:116 | three appended pairs read back as their three encoded pairs |
| Api.LeadsWithAllFilters | src/lib/api.ts:106-118 | with all three filters the query reads back as exactly the three pairs, in order |
| Api.KnowledgeBaseSendsFalse | src/lib/api.ts:488 | `activeOnly: false` is sent as `activeOnly=false`, unlike falsy values of the other options |
| Api.LimitQuery | src/lib/api.ts:151 | no suffix for a missing or zero limit |
| Api.LimitReadsBack | src/lib/api.ts:151 | a non-zero limit is `?limit=` and its digits, which read back as the limit |
| Api.ConversationsPath | src/lib/api.ts:150-153 | `/conversations` alone for a missing or zero limit, otherwise followed by `?limit=` and the limit |
| Api.ConversationMessagesPath | src/lib/api.ts:163-169 | the conversation's messages path alone for a missing or zero limit, otherwise followed by `?limit=` and the limit |
| Api.PhotosPath | src/lib/api.ts:183-186 | `/photos` alone for a missing or zero limit, otherwise followed by `?limit=` and the limit |
| Api.LimitedPathsCarryLimit | src/lib/api.ts:150-186 | with a positive limit the three paths end in the limit suffix, whose digits read back as the limit |
| Api.NotificationsPath | src/lib/api.ts:227-230 | `/notifications`, with `?since=` and the escaped bound when the bound is truthy |
| Api.NotificationsQueryIsOnePair | src/lib/api.ts:228 | whatever the bound holds, the query reads back as the single pair `since` |
| Api.CountOrZero | src/lib/api.ts:144-145 | `m?.[key] \|\| 0`: the count when the breakdown has the key, else 0 |
| Api.DeriveLeadStats | src/lib/api.ts:142-146 | the body's fields, plus the READY_FOR_DOCTOR count and the count of `high` desire |
| Api.DeriveLeadStatsKeepsBody | src/lib/api.ts:143 | the derived fields only add to the body: forgetting them gives the body back |
| Api.GetLeadStats | src/lib/api.ts:135-147 | success exactly for a 2xx reply, with the derived statistics; otherwise `fetchApi`'s error |
| Api.GetAuthHeader | src/lib/api.ts:250-255 | no header outside a browser or without a truthy token, else `Authorization: Bearer <token>` |
| Api.AuthHeaderCarriesToken | src/lib/api.ts:250-255 | the header is sent exactly when the session store holds a truthy token, and it carries that token |
| Notifications.Load | src/lib/notifications.ts:18-26 | nothing outside a browser, for a missing key or for text that does not parse; otherwise the stored list |
| Notifications.Persist | src/lib/notifications.ts:28-35 | writing touches no key but `notifications-storage` |
| Notifications.PersistThenLoad | src/lib/notifications.ts:18-35 | a successful write reads back unchanged; a failed or skipped one leaves the next load as it was |
| Notifications.PersistOverwrites | src/lib/notifications.ts:28-35 | of two writes only the last one counts |
| Notifications.PrependShape | src/lib/notifications.ts:55 | the new entry comes first, followed by the old list, and the result is capped at 50 |
| Notifications.MarkReadEffect | src/lib/notifications.ts:61 | `markAsRead` changes only read flags, sets the flag of every entry with the id, and changes no other entry |
| Notifications.MarkReadUnknown | src/lib/notifications.ts:61 | an id no entry has changes nothing |
| Notifications.MarkReadIdempotent | src/lib/notifications.ts:61 | marking the same id twice is marking it once |
| Notifications.MarkAllReadEffect | src/lib/notifications.ts:67 | `markAllAsRead` sets every read flag and changes nothing else |
| Notifications.MarkAllReadIdempotent | src/lib/notifications.ts:67 | it is idempotent |
| Notifications.NoUnreadAfterMarkAll | src/lib/notifications.ts:66-80 | afterwards the unread count is 0 |
| Notifications.UnreadAfterMarkRead | src/lib/notifications.ts:60-80 | marking an id read lowers the unread count by the number of unread entries with that id |
| Notifications.UnreadAfterPrepend | src/lib/notifications.ts:48-58 | below the cap, adding an unread entry raises the unread count by one |
| Notifications.UnreadAtMostLength | src/lib/notifications.ts:78-80 | the unread count never exceeds the list's length |
| Notifications.PrependKeepsIdsDistinct | src/lib/notifications.ts:48-58 | a new entry with a fresh id keeps the ids distinct |
| Notifications.Stamped | src/lib/notifications.ts:49-54 | one stamped entry per draft, in order |
| Notifications.AddAllSnoc | src/lib/notifications.ts:48-58 | one more draft is one more `addNotification` |
| Notifications.TruncateCons | src/lib/notifications.ts:55 | capping twice, with a new head in between, is capping once |
| Notifications.AddAllNewestFirst | src/lib/notifications.ts:48-58 | a run of additions puts the new entries first, newest first, followed by the old list, and keeps 50 |
| Notifications.AddAllKeepsMostRecent | src/lib/notifications.ts:55 | after a run of additions the list is non-empty, at most 50 long, and begins with the last entry added |
| Notifications.NameOr | src/lib/notifications.ts:99 | `name \|\| fallback` |
| Notifications.LeadDraft | src/lib/notifications.ts:95-102 | a new-lead draft: its type, its title, the lead's id and no photo, and "<name or Someone> started a conversation" |
| Notifications.PhotoDraft | src/lib/notifications.ts:104-112 | a new-photo draft pointing at the lead and the photo, "<name or A lead> uploaded a photo" |
| Notifications.MessageDraft | src/lib/notifications.ts:114-121 | a new-message draft pointing at the lead, "<name or A lead> sent a message" |
| Notifications.DraftMessageNamesLead | src/lib/notifications.ts:95-121 | every draft's message begins with the lead's name, or with the fallback when the name is empty |
| Notifications.NotificationStore.constructor | src/lib/notifications.ts:38-39 | the module starts with no notifications and no listeners |
| Notifications.NotificationStore.Save | src/lib/notifications.ts:28-35 | storage becomes `Persist` of the current list |
| Notifications.NotificationStore.NotifyListeners | src/lib/notifications.ts:90-92 | every subscribed listener is called once |
| Notifications.NotificationStore.GetNotifications | src/lib/notifications.ts:41-46 | the list is reloaded from storage whenever it is empty, and returned |
| Notifications.NotificationStore.AddNotification | src/lib/notifications.ts:48-58 | the draft is stamped with a fresh id, unread, and put first, the list is capped at 50, then saved and the listeners called |
| Notifications.NotificationStore.MarkAsRead | src/lib/notifications.ts:60-64 | the list becomes `MarkRead` of it, then saved and the listeners called |
| Notifications.NotificationStore.MarkAllAsRead | src/lib/notifications.ts:66-70 | the list becomes `MarkAllRead` of it, then saved and the listeners called |
| Notifications.NotificationStore.ClearAllNotifications | src/lib/notifications.ts:72-76 | the list is emptied, the empty list saved and the listeners called |
| Notifications.NotificationStore.GetUnreadCount | src/lib/notifications.ts:78-80 | the unread entries of the list `getNotifications` returns, at most its length |
| Notifications.NotificationStore.Subscribe | src/lib/notifications.ts:83-84 | the listener joins the set |
| Notifications.NotificationStore.Unsubscribe | src/lib/notifications.ts:85-87 | the returned function removes the listener |
| Notifications.SubscriberFanOut | src/lib/notifications.ts:83-92 | a subscribed listener is called once by a later `markAsRead` |
| Notifications.FailedClearReloadedByListener | src/hooks/useNotifications.ts:25-28 | after a clear whose write failed, the reload done by the hook's listener brings back the stored list, with its unread count |
| Polling.SinceBound | src/hooks/useNotificationPolling.ts:26 | the last check time, or one hour before now on the first check |
| Polling.IdSet | src/hooks/useNotificationPolling.ts:31-34 | the set of ids of a batch holds each event's id (`IdSetCarried`: and nothing else) |
| Polling.DraftsOf | src/hooks/useNotificationPolling.ts:37-43 | one draft per forwarded event, in order |
| Polling.ForwardStep | src/hooks/useNotificationPolling.ts:31-47 | forwarding one more event is one more `addNotification` of its draft |
| Polling.RepeatCount | src/hooks/useNotificationPolling.ts:37 | each listener is called once per forwarded event |
| Polling.NewEventsSound | src/hooks/useNotificationPolling.ts:31-47 | only received events are forwarded, and none whose id was seen |
| Polling.NewEventsIds | src/hooks/useNotificationPolling.ts:31-47 | the forwarded ids are exactly the batch's ids that were not seen before |
| Polling.NewEventsDistinct | src/hooks/useNotificationPolling.ts:33-34 | no id is forwarded twice, even when a batch repeats it |
| Polling.NewEventsInOrder | src/hooks/useNotificationPolling.ts:31 | events are forwarded in the order they were received |
| Polling.NewEventsEmptyIff | src/hooks/useNotificationPolling.ts:29-47 | a cycle forwards something exactly when the batch has an id not seen before |
| Polling.ConsecutiveCyclesDisjoint | src/hooks/useNotificationPolling.ts:31-47 | an id forwarded in one cycle is never forwarded by a later one |
| Polling.ReplayForwardsNothing | src/hooks/useNotificationPolling.ts:31-47 | receiving the same batch again forwards nothing |
| Polling.NotificationIds | src/hooks/useNotificationPolling.ts:17-21 | the seeded ids are exactly the ids of the stored notifications |
| Polling.ForwardAllSeen | src/hooks/useNotificationPolling.ts:31-47 | the loop marks every id of the batch seen and mints one id per forwarded event |
| Polling.ForwardAllItems | src/hooks/useNotificationPolling.ts:31-47 | the store's list after the loop is the list after `addNotification` of each forwarded event in turn |
| Polling.ForwardAllStorage | src/hooks/useNotificationPolling.ts:31-47 | storage ends holding the final list, or is untouched when nothing was forwarded |
| Polling.ForwardAllDeliveries | src/hooks/useNotificationPolling.ts:31-47 | each listener is called once per forwarded event |
| Polling.ForwardAllEffect | src/hooks/useNotificationPolling.ts:31-47 | the loop's effect as a whole: seen ids, list, storage and listener calls |
| Polling.Poller.constructor | src/hooks/useNotificationPolling.ts:12-13 | no check yet and nothing seen |
| Polling.Poller.SeedSeenIds | src/hooks/useNotificationPolling.ts:16-22 | the stored notifications are loaded if need be, and their ids are marked seen |
| Polling.Poller.ForwardEvent | src/hooks/useNotificationPolling.ts:33-46 | an event is forwarded exactly when its id is unseen; the new state is one `Forward` step |
| Polling.Poller.ForwardNewEvents | src/hooks/useNotificationPolling.ts:29-47 | the loop's new state is `ForwardAll`, and `hasNewData` says whether anything new arrived |
| Polling.Poller.CheckForNewNotifications | src/hooks/useNotificationPolling.ts:24-61 | asks from `SinceBound`; a failed fetch changes nothing; a success forwards the new events, sets the last check and invalidates the four queries exactly when something was forwarded |
| Auth.ReadToken | src/lib/auth.ts:27-30 | no token outside a browser, otherwise the stored value |
| Auth.ReadUser | src/lib/auth.ts:32-41 | a user exactly when a browser holds a non-empty user text that parses |
| Auth.TokenText | src/lib/auth.ts:149 | the text `setItem` stores for a token |
| Auth.StoredSessionReadsBack | src/lib/auth.ts:27-46 | after `storeAuth(t, u)` the store reads back `t` and `u`, and is authenticated exactly when `t` is non-empty |
| Auth.PersistedSessionAuthenticates | src/lib/auth.ts:86-88 | a persisted login or registration leaves the browser authenticated as the reply's user |
| Auth.PendingNeverPersists | src/lib/auth.ts:85-88 | an account awaiting approval is never persisted |
| Auth.AuthStorage.constructor | src/lib/auth.ts:24-25 | the store holds the given values of the two keys |
| Auth.AuthStorage.StoreAuth | src/lib/auth.ts:43-46 | both keys are written |
| Auth.AuthStorage.ClearAuth | src/lib/auth.ts:48-51 | both keys are removed, and the store is no longer authenticated |
| Auth.AuthStorage.PersistUnlessPending | src/lib/auth.ts:85-88 | the session is stored when approval is not pending and a token came, and is untouched otherwise |
| Auth.AuthStorage.Register | src/lib/auth.ts:75-90 | the reply through `authFetch`, persisted unless approval is pending |
| Auth.AuthStorage.Login | src/lib/auth.ts:92-105 | the same rule for a login |
| Auth.AuthStorage.Logout | src/lib/auth.ts:107-122 | the server is called exactly when a truthy token is stored; both keys are cleared whatever happens |
| Auth.AuthStorage.GetCurrentUser | src/lib/auth.ts:124-135 | "Not authenticated" without a token, otherwise the reply through `authFetch` |
| Auth.AuthStorage.RefreshToken | src/lib/auth.ts:137-151 | "Not authenticated" without a token; a success stores the new session, a failure leaves the store alone |
| AuthContext.Redirect | src/contexts/AuthContext.tsx:64-75 | nothing while loading; the login page for a visitor off the public pages, home for a user on one; a redirect exactly when user and page disagree |
| AuthContext.RedirectSettles | src/contexts/AuthContext.tsx:64-75 | following a redirect never asks for another |
| AuthContext.AuthProvider.constructor | src/contexts/AuthContext.tsx:39-40 | no user yet, and loading |
| AuthContext.AuthProvider.CheckAuth | src/contexts/AuthContext.tsx:43-62 | with a stored token and user, the server's answer sets the user (none on failure); otherwise the user is left alone; loading ends either way |
| AuthContext.AuthProvider.Login | src/contexts/AuthContext.tsx:77-83 | a failure is passed on; a pending approval is the error `PENDING_APPROVAL`; otherwise the reply's user is signed in |
| AuthContext.AuthProvider.Register | src/contexts/AuthContext.tsx:85-94 | the same outcomes for a registration |
| AuthContext.AuthProvider.Settle | src/contexts/AuthContext.tsx:79-82 | what `login` and `register` do with a reply |
| AuthContext.AuthProvider.Logout | src/contexts/AuthContext.tsx:96-100 | storage cleared, no user, and the router sent to `/login`, where no further redirect happens |
| Header.TurkishChar | src/components/layout/header.tsx:57-62 | each of the six Turkish letters becomes its base letter, and any other character is kept |
| Header.Decompose | src/components/layout/header.tsx:63 | NFD splits an accented letter into its base and one combining mark |
| Header.StripMark | src/components/layout/header.tsx:64 | exactly the marks U+0300 to U+036F are dropped |
| Header.NormalizeIsNormal | src/components/layout/header.tsx:54-65 | every character of a normalised string is one no step of the normaliser changes |
| Header.TurkishCharFolds | src/components/layout/header.tsx:56-62 | after lower-casing and folding, no Turkish letter is left |
| Header.DecomposeSplits | src/components/layout/header.tsx:63-64 | decomposition yields base letters and marks only |
| Header.NormalizeIdempotent | src/components/layout/header.tsx:54-65 | normalising twice is normalising once |
| Header.NormalizeAppend | src/components/layout/header.tsx:54-65 | the normaliser distributes over concatenation |
| Header.NormalizeLetter | src/components/layout/header.tsx:54-65 | a letter whose lower case folds to a base letter normalises to that letter |
| Header.TurkishLettersFold | src/components/layout/header.tsx:54-65 | both cases of ğ, ş, ü, ö, ç, and ı, I and İ, normalise to g, s, u, o, c and i |
| Header.DottedCapitalIFolds | src/components/layout/header.tsx:56-64 | İ lower-cases to i with a combining dot, and the dot is dropped |
| Header.SearchResults | src/components/layout/header.tsx:68-76 | nothing for a query shorter than two code units; otherwise exactly the first five (or fewer) leads of the list that match the normalised query |
| Header.SearchResultsInOrder | src/components/layout/header.tsx:69-75 | the results keep the leads' order |
| Header.SearchResultsComplete | src/components/layout/header.tsx:68-76 | with at most five matches, every matching lead is shown |
| Header.SearchEmptyNormalFormShowsFirstFive | src/components/layout/header.tsx:68-76 | a long query that normalises to "" (only combining marks) shows the first five leads |
| Header.LeadLink | src/components/layout/header.tsx:120 | `/leads?selected=` followed by the id as it is |
| Header.NotificationTarget | src/components/layout/header.tsx:119-123 | the lead's page when there is a lead id, else `/photos` for a photo notification, else nowhere |
| Header.PhotoNotificationOpensLead | src/components/layout/header.tsx:119-123 | a photo notification built by the helper opens its lead, not the gallery |
| Header.BadgeLabel | src/components/layout/header.tsx:249-252 | hidden at 0, `9+` above nine, at most two characters |
| Header.BadgeLabelReadsBack | src/components/layout/header.tsx:251 | a count from 1 to 9 is shown as its own digit |
| Header.BadgeShownIffUnread | src/components/layout/header.tsx:249 | the badge is shown exactly when some notification is unread |
| Header.FirstChar | src/components/layout/header.tsx:100 | `n[0]`: at most one character |
| Header.Firsts | src/components/layout/header.tsx:100-101 | at most one character per word |
| Header.UserInitials | src/components/layout/header.tsx:96-104 | `??` without a name, otherwise at most two characters |
| Header.InitialsOfWords | src/components/layout/header.tsx:96-104 | a name of two or more words gives the capitals of the first two words' first letters |
| Header.InitialsOfOneWord | src/components/layout/header.tsx:96-104 | a one-word name gives the capital of its first letter |
| Header.HeaderState.constructor | src/components/layout/header.tsx:37-40 | an empty search with both dropdowns closed |
| Header.HeaderState.ChangeQuery | src/components/layout/header.tsx:159-161 | the query is set, and the results open exactly when it has two code units |
| Header.HeaderState.OpenResult | src/components/layout/header.tsx:127-131 | the search is cleared and closed, and the router goes to the lead |
| Header.HeaderState.SearchKeyDown | src/components/layout/header.tsx:133-141 | Enter with results opens the first result; Escape clears and closes; other keys change nothing |
| Header.HeaderState.NotificationClick | src/components/layout/header.tsx:117-125 | the notification is marked read in the store, the router goes to `NotificationTarget` and the dropdown closes |
| Sidebar.VisibleItems | src/components/layout/sidebar.tsx:109-115 | only entries of the table whose roles admit the user, in table order |
| Sidebar.VisibleItemsIff | src/components/layout/sidebar.tsx:109-115 | an entry is shown exactly when the user has a non-empty role it lists |
| Sidebar.UnknownRoleSeesNothing | src/components/layout/sidebar.tsx:26-33 | every entry lists its roles, so nobody signed in, or an unknown role, sees nothing |
| Sidebar.AdminSeesEverything | src/components/layout/sidebar.tsx:26-33 | an admin sees the whole table |
| Sidebar.DoctorSeesAllButPhotosAndSettings | src/components/layout/sidebar.tsx:26-33 | a doctor sees Dashboard, Leads, Conversations and AI Training |
| Sidebar.SalesAgentSeesOnlyAiTraining | src/components/layout/sidebar.tsx:26-33 | a sales agent sees AI Training only |
| Sidebar.AdminOnlyEntriesMatchAdminSection | src/components/layout/sidebar.tsx:31-32 | Photos and Settings are shown exactly when the admin section is |
| Sidebar.DashboardTitle | src/components/layout/sidebar.tsx:55-66 | a title per known role, and "Dashboard" exactly for any other or no role |
| Sidebar.AtMostOneActive | src/components/layout/sidebar.tsx:117 | no two entries, the admin one included, are highlighted at once |
| Sidebar.SubPageIsNotActive | src/components/layout/sidebar.tsx:117 | a sub-page does not highlight its entry |
| RegisterPage.Validate | src/app/register/page.tsx:29-37 | a mismatch first, then a password under six code units; the form is sent exactly when both checks pass |
| RegisterPage.MismatchReportedFirst | src/app/register/page.tsx:29-37 | a short, mismatched password is reported as a mismatch |
| RegisterPage.ErrorShown | src/app/register/page.tsx:43-48 | `PENDING_APPROVAL` shows no error (the pending screen instead); any other error shows a non-empty text |
| RegisterPage.RegisterForm.constructor | src/app/register/page.tsx:11-18 | empty fields, the role `doctor`, no error, not submitting |
| RegisterPage.RegisterForm.SelectRole | src/app/register/page.tsx:20-23 | the role is set, and is always an offered one |
| RegisterPage.RegisterForm.HandleSubmit | src/app/register/page.tsx:25-52 | a failed check shows its error and sends nothing; otherwise the fields are sent, and the pending screen, the error or the signed-in user follows; submitting ends false |
| Photos.FilteredPhotos | src/app/photos/page.tsx:22-26 | undefined while loading, otherwise only photos the filter keeps |
| Photos.StatsOf | src/components/leads/lead-detail.tsx:676-681 | the total is the length, and pending and verified are the two filters' lengths, which add up to it |
| Photos.PageStats | src/app/photos/page.tsx:28-32 | zeros while loading, otherwise `StatsOf` |
| Photos.FilteredViewsPartition | src/app/photos/page.tsx:22-26 | the pending and verified views together hold every photo exactly once, and "all" shows everything |
| Photos.StatsMatchViews | src/app/photos/page.tsx:22-32 | the counts above the grid are the lengths of the three views |
| Photos.UnreviewedIsPending | src/app/photos/page.tsx:23-24 | a photo with `is_verified` null is pending, not verified |
| Photos.FilteredInOrder | src/app/photos/page.tsx:22 | every view keeps the gallery's order |
| LeadDetail.PhotosTabStats | src/components/leads/lead-detail.tsx:676-681 | the tab's total is its photo count, split into pending and verified |
| LeadDetail.PhotosTab.constructor | src/components/leads/lead-detail.tsx:622-624 | no photo open, the dialog closed, an empty reason, nothing in flight |
| LeadDetail.PhotosTab.HandleVerify | src/components/leads/lead-detail.tsx:655-659 | verifies the open photo exactly when there is one |
| LeadDetail.PhotosTab.VerifySucceeded | src/components/leads/lead-detail.tsx:630-633 | the photo closes |
| LeadDetail.PhotosTab.HandleReject | src/components/leads/lead-detail.tsx:665-669 | sends the open photo with the trimmed reason exactly when a photo is open and the reason is not blank |
| LeadDetail.PhotosTab.RejectSucceeded | src/components/leads/lead-detail.tsx:643-648 | the photo and the dialog close and the reason is emptied |
| LeadDetail.PhotosTab.OpenPhoto | src/components/leads/lead-detail.tsx:714 | the clicked photo is open |
| LeadDetail.PhotosTab.ClosePhoto | src/components/leads/lead-detail.tsx:758 | no photo is open |
| LeadDetail.PhotosTab.TypeRejectReason | src/components/leads/lead-detail.tsx:860 | the reason is the typed text |
| LeadDetail.PhotosTab.OpenRejectModal | src/components/leads/lead-detail.tsx:661-663 | the dialog opens |
| LeadDetail.PhotosTab.CloseRejectModal | src/components/leads/lead-detail.tsx:671-674 | the dialog closes and the reason is emptied; the photo stays open |
| LeadDetail.VerifiedPhotoCannotBeApproved | src/components/leads/lead-detail.tsx:810 | approve is disabled for a verified photo |
| LeadDetail.RejectTypedReason | src/components/leads/lead-detail.tsx:665-669 | opening a photo and the dialog, typing a reason and confirming sends the photo's id and the trimmed reason exactly when the reason is not blank |
| LeadDetail.ConfirmEnabledIffRejectSends | src/components/leads/lead-detail.tsx:876 | the confirm button is enabled exactly when a click sends the rejection |
| LeadDetail.CanAddCommentsIff | src/components/leads/lead-detail.tsx:437-450 | exactly doctors and admins may write notes |
| LeadDetail.OwnsCommentIff | src/components/leads/lead-detail.tsx:583 | without a current user no note shows its controls; with one, exactly that user's notes do |
| LeadDetail.NotesTab.constructor | src/components/leads/lead-detail.tsx:451-452 | an empty note of type `note` |
| LeadDetail.NotesTab.SelectCommentType | src/components/leads/lead-detail.tsx:502-512 | the type is the chosen option |
| LeadDetail.NotesTab.TypeComment | src/components/leads/lead-detail.tsx:517 | the note is the typed text |
| LeadDetail.NotesTab.HandleSubmit | src/components/leads/lead-detail.tsx:482-486 | a blank note is not sent; otherwise the text is sent untrimmed, with its type |
| LeadDetail.SubmitTypedNote | src/components/leads/lead-detail.tsx:482-486 | choosing a type, typing a note and submitting sends the text as typed with the type exactly when the text is not blank |
| LeadDetail.NotesTab.CreateSucceeded | src/components/leads/lead-detail.tsx:458-461 | the form empties, which disables submit again |
| AiTraining.Toggled | src/app/ai-training/page.tsx:137-147 | only the toggled id changes membership |
| AiTraining.ToggleTwice | src/app/ai-training/page.tsx:137-147 | toggling twice restores the set |
| AiTraining.ConversationsTab.constructor | src/app/ai-training/page.tsx:137-153 | nothing expanded, an empty search |
| AiTraining.ConversationsTab.Toggle | src/app/ai-training/page.tsx:137-147 | the expanded set becomes `Toggled` of it |
| AiTraining.FilteredConversations | src/app/ai-training/page.tsx:149-153 | undefined while loading, otherwise conversations of the list whose name matches |
| AiTraining.FilteredConversationsComplete | src/app/ai-training/page.tsx:149-153 | every conversation whose name matches is kept |
| AiTraining.EmptyTermKeepsAll | src/app/ai-training/page.tsx:150 | an empty search keeps every conversation |
| AiTraining.SearchIgnoresCase | src/app/ai-training/page.tsx:151-152 | a term and its lower case select the same conversations |
| AiTraining.UnnamedFoundOnlyByEmptyTerm | src/app/ai-training/page.tsx:151-152 | a conversation without a lead name is found only by the empty search |
| AiTraining.AiMessageCount | src/app/ai-training/page.tsx:216 | 0 while loading, otherwise at most the number of messages |
| AiTraining.AiMessageCountSplits | src/app/ai-training/page.tsx:216 | the AI messages and the others make up all messages |
| AiTraining.Optional | src/app/ai-training/page.tsx:351-352 | `text \|\| undefined`: an empty text is not sent |
| AiTraining.SuccessMessage | src/app/ai-training/page.tsx:326-330 | the learning message exactly for a bad or improvable rating that came with a suggested answer; the saved message otherwise |
| AiTraining.LearnsOnlyFromSuggestions | src/app/ai-training/page.tsx:326-330 | a good rating, or any rating without a suggestion, never shows the learning message |
| AiTraining.MessageBubble.constructor | src/app/ai-training/page.tsx:302-307 | no rating, no comment box, empty texts, no message |
| AiTraining.MessageBubble.HandleRate | src/app/ai-training/page.tsx:336-345 | the rating is set; `good` is sent at once, alone; the others open the comment box and send nothing |
| AiTraining.MessageBubble.SubmitWithComment | src/app/ai-training/page.tsx:347-355 | with a rating chosen, sends it with the non-empty texts; without one, sends nothing |
| AiTraining.MessageBubble.RateSucceeded | src/app/ai-training/page.tsx:319-333 | the box closes, the message for what was sent is shown, and the rating buttons disappear |
| AiTraining.MessageBubble.HideToast | src/app/ai-training/page.tsx:332 | the message is hidden |
| AiTraining.MessageBubble.Cancel | src/app/ai-training/page.tsx:554-557 | the box closes and the rating is cleared |
| AiTraining.RateBadThenCancel | src/app/ai-training/page.tsx:406 | choosing `bad` and cancelling brings the rating buttons back |
| AdminPage.UsersOr | src/app/admin/page.tsx:48-54 | a query's data, or `[]` before it has run |
| AdminPage.DisplayUsers | src/app/admin/page.tsx:86 | the pending list on the pending tab, all users on the other |
| AdminPage.Render | src/app/admin/page.tsx:86-169 | the refusal exactly for a non-admin; otherwise the shown users come from the two lists, and the approved count is at most the total |
| AdminPage.NonAdminIsDenied | src/app/admin/page.tsx:45-110 | a non-admin gets Access Denied, and neither user query may run |
| AdminPage.AllQueryGate | src/app/admin/page.tsx:45-58 | the all-users query runs only for an admin on the "all" tab, and then the pending query may run too |
| AdminPage.ShownListFollowsTab | src/app/admin/page.tsx:86 | the list shown is the active tab's |
| AdminPage.ApprovedCountSplitsTotal | src/app/admin/page.tsx:156-168 | the approved count and the users awaiting approval add up to the total |
| AdminPage.FirstVisitCountsZero | src/app/admin/page.tsx:42-58 | before the "all" tab is opened, the approved and total counts show 0 |
| AdminPage.RowActionsExclusive | src/app/admin/page.tsx:292-316 | no row offers both approval buttons and the role select, and the signed-in user's own row never offers the select |
| AdminPage.AdminPageState.constructor | src/app/admin/page.tsx:40-42 | the pending tab, nothing loaded, nothing in flight |
| AdminPage.AdminPageState.SelectTab | src/app/admin/page.tsx:180-197 | the tab is set |
| AdminPage.AdminPageState.PendingLoaded | src/app/admin/page.tsx:48-52 | the pending list is cached; only while its query is enabled |
| AdminPage.AdminPageState.AllLoaded | src/app/admin/page.tsx:54-58 | the all-users list is cached; only while its query is enabled |
| AdminPage.AdminPageState.ClickApprove | src/app/admin/page.tsx:292-305 | sends `approved: true` exactly for a user awaiting approval while no approval is in flight |
| AdminPage.AdminPageState.ClickReject | src/app/admin/page.tsx:80-84 | sends `approved: false` under the same conditions, and only after the user confirms |
| AdminPage.AdminPageState.ChangeRole | src/app/admin/page.tsx:316-327 | sends the new role exactly for another approved user while no role change is in flight, never for the signed-in user |
| AdminPage.AdminPageState.ApproveSettled | src/app/admin/page.tsx:60-66 | the approval is no longer in flight |
| AdminPage.AdminPageState.RoleSettled | src/app/admin/page.tsx:68-74 | the role change is no longer in flight |

## Left out

- Rendering, styling, icons, React's scheduling and the query cache's
  refetching are left out. Invalidating a query is modelled only as the
  list of keys invalidated. A refetch is a later call of the matching
  `Loaded` method.
- The network, JSON parsing and `fetch` are left out. A reply is a `Reply`
  value given as a parameter. A JSON body is its decoded value, and the
  user stored in local storage is kept as a value, not as text.
- Timers are left out: the 30-second polling interval, the 500 ms refresh
  spinner and the four-second success message. The timer's effect is the
  `HideToast` method.
- Notifications.NotificationStore.NotifyListeners: a listener is an id,
  and calling it only records a delivery. Inside `notifyListeners` the
  notifications hook's listener (src/hooks/useNotifications.ts:25-28) calls
  `getNotifications` and `getUnreadCount`, which reload from storage when
  the list is empty. So `ClearAllNotifications` promises an empty list
  only up to the listener calls. After a failed write the listener puts
  the stored list back. `Notifications.FailedClearReloadedByListener`
  states that outcome by making the two calls after the clear, in the
  order the listener makes them. React state updates made by the
  listener are left out.
- Time is a parameter. `toISOString` renders nothing: the creation stamp is
  a string parameter. Polling times are milliseconds, and one stamp serves
  a whole polling cycle.
- `crypto.randomUUID` is a function from a counter to strings. Distinct ids
  are assumed only where a lemma asks for them (`PrependKeepsIdsDistinct`).
- Floating-point numbers and `NaN` are left out. Counts and limits are
  integers.
- Unicode handling covers ASCII, Latin-1 and the Turkish letters only:
  - `Text.LowerChar` and `Text.UpperChar` map ASCII, the Latin-1 letters
    (including `ÿ` to `Ÿ`, `ß` to `SS` and the micro sign `µ` to the Greek
    capital `Μ`) and the Turkish letters, and keep every other character.
    Characters outside that range are kept, so `Text.LowerChar` does not
    map `Ÿ` or the Greek `Μ` that upper-casing can produce.
  - `Header.Decompose` splits only the precomposed lower-case Latin-1 and
    Turkish letters. NFD's canonical reordering is left out.
  - `n[0]` of a word that starts outside the Basic Multilingual Plane gives
    a lone surrogate in JavaScript; `Header.FirstChar` takes the whole
    character.
- Decoding a percent-encoded query back to the original text is not
  proved. `Url.SerializeParses` reads the query back only as far as its
  encoded pairs.
- Server-side behaviour is left out: which users the admin endpoints
  return, what approval does, and token validity.
- The photo gallery's approve and reject buttons (src/app/photos/page.tsx,
  lines 210-217) have no handlers, so there is no operation to model.
- A failed mutation's error callback only logs and alerts, which is left
  out. A finished request is the corresponding `Settled` or `Succeeded`
  method.
- The sidebar's `getUserInitials` (src/components/layout/sidebar.tsx, lines
  44-52) is the same code as the header's, so it is `Header.UserInitials`.
- The header's dropdown toggles, click-outside handling, refresh button and
  user menu are left out, and so are the notification dropdown's "mark all"
  and "clear" buttons. They only call the store operations modelled in
  `Notifications`.
- Behaviours of the source that the model keeps as written:
  - `getNotifications` reloads from storage whenever the in-memory list is
    empty, even after `clearAllNotifications`.
  - The mutators work on the in-memory list without loading first.
  - A failed token check at start-up leaves storage alone.
  - The polling hook seeds its seen-set with local ids, which are minted
    by `crypto.randomUUID`, not the backend's ids.
  - A login whose reply has an empty token and no pending approval still
    signs the user in, but stores nothing.
  - A registration error whose message is literally `PENDING_APPROVAL`
    shows the pending screen.
  - The lead link puts the lead id into the URL without encoding it.
