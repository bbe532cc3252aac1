# Parcel delivery client: a Dafny model

This project models the client-side logic of a parcel-delivery web application (a Next.js front end for customers, delivery agents and administrators) and the small Express utilities that come with it. It covers:

- the route guard and the role redirects;
- the auth session and its token cookie;
- URL and query building over the REST API;
- the environment-derived base URLs;
- the notification store fed by REST and Socket.IO;
- the toast store;
- the realtime room-join rule;
- the GPS route sampler of the parcel map;
- the dashboards' search and partition rules;
- the admin list transforms;
- the assign-agent, new-shipment and address-picker dialogs;
- the tracking timeline;
- the notification centre;
- the sidebar resize rule;
- the duration parser, pagination metadata and response envelope of the server utilities.

Pure code (filters, reducers, string helpers, decision rules) becomes functions with lemmas about them. Code that changes state step by step becomes classes:

- the notification provider, the toast store, the realtime hook, the auth session;
- the admin parcels page;
- the assign-agent, new-shipment and address-picker dialogs;
- the notification centre page;
- the sidebar provider.

Their methods state the whole new state.

The model treats everything outside the program as inputs:
- The outcome of every network call (REST, Nominatim, the Socket.IO client loader) is an argument, an `Ok` value or an `Err` with the message a rejection carries.
- Socket emits, listener calls and callback invocations are recorded in sequences that the methods extend.
- `localStorage` and `document.cookie` are fields.
- JavaScript numbers are exact decimals, with a separate non-finite value for NaN and the infinities.
- `Number(text)`, `new Date(text).toISOString()` and the `toLocale*` renderings are function parameters or given values.
- `encodeURIComponent` and the `application/x-www-form-urlencoded` serializer are modelled concretely. Both are UTF-8 followed by percent-encoding, as section 5.2 of the WHATWG URL Standard describes the latter. The token cookie is checked against the `cookie-octet` grammar of section 4.1.1 of RFC 6265.

Modules follow the source files one to one. `Common` and `UrlEncoding` hold the JavaScript built-ins the files share.

## Model

| member | source | states |
|---|---|---|
| Common.OrElse | components/customer/address-picker-dialog.tsx:137 | `a ?? b` gives `a` unless it is missing, then `b` |
| Common.OrString | components/customer/address-picker-dialog.tsx:142 | `a \|\| b` gives `a` when it is a non-empty string, else `b` |
| Common.StartsWith | lib/api-client.ts:3 | definition of `s.startsWith(prefix)`: the first characters of the string are the prefix (no contract of its own; NormalizePath and Proxy state its uses) |
| Common.EndsWith | lib/env.ts:3 | definition of the trailing-match test `/\/$/`: the last characters are the suffix (no contract of its own; Env.StripTrailingSlash states its use) |
| Common.Includes | app/agent/dashboard/page.tsx:107 | definition of `hay.includes(needle)`: the needle occurs at some position, so the empty needle occurs in every string (no contract of its own) |
| Common.ContainsQuery | app/agent/dashboard/page.tsx:107-108 | definition of `text?.toLowerCase().includes(query)`: false for an absent field, else whether the lower-cased text contains the query (no contract of its own) |
| Common.Lower | app/agent/dashboard/page.tsx:105 | lower-casing keeps the length, maps each letter A to Z to its lower-case letter, and leaves no upper-case letter |
| Common.LowerIdempotent | app/agent/dashboard/page.tsx:105 | lower-casing twice is lower-casing once |
| Common.Trim | components/admin/AssignAgentDialog.tsx:49 | the trimmed text is no longer than the input and neither starts nor ends with whitespace |
| Common.TrimIsSlice | components/admin/AssignAgentDialog.tsx:49 | the trimmed text is a slice of the input with only whitespace cut off at either end |
| Common.TrimNoEdges | components/admin/AssignAgentDialog.tsx:49 | text with no whitespace at either end is its own trim |
| Common.TrimEmptyIff | components/admin/AssignAgentDialog.tsx:49-50 | the trimmed text is empty exactly when the input is all whitespace |
| Common.NatToDecimal | components/ui/use-toast.ts:30 | the decimal text of a counter is a non-empty run of digits with no leading zero |
| Common.DecimalRoundTrip | components/ui/use-toast.ts:30 | reading the decimal text back gives the number |
| Common.DecimalInjective | components/ui/use-toast.ts:28-31 | two numbers have the same decimal text exactly when they are equal |
| Common.IntToDecimal | lib/api-client.ts:19 | `String(n)` of an integer is its decimal text, with a minus sign when negative |
| Common.Filter | app/agent/dashboard/page.tsx:106-110 | the kept elements are those the predicate accepts, each as often as in the input and in their original order |
| Common.FilterMembership | app/agent/dashboard/page.tsx:106-110 | an element is kept exactly when it occurs in the input and the predicate accepts it |
| Common.FilterComplement | app/agent/dashboard/page.tsx:19-29 | filtering by a predicate and by its negation splits the input into two parts that together are a permutation of it |
| Common.SearchFilter | app/agent/dashboard/page.tsx:104-110 | an empty search returns the items unchanged; any other search keeps exactly the accepted items, each as often as it occurs, in their original order |
| Common.ReplaceMatching | lib/notifications-context.tsx:132 | mapping keeps the length, and exactly the matching elements become the replacement |
| Common.ReplaceMatchingIdempotent | app/admin/parcels/page.tsx:137 | when the replacement matches, replacing twice is replacing once |
| Common.CeilDiv | components/customer/parcel-route-map.tsx:58 | `Math.ceil(a / b)` is the least integer whose multiple of `b` reaches `a` |
| UrlEncoding.Utf8 | lib/api-client.ts:21 | the UTF-8 encoding of one code point has 1 to 4 bytes, and a single byte exactly for ASCII, equal to the code point |
| UrlEncoding.Triple | lib/api-client.ts:21 | a percent triple is '%' and two hex digits whose value is the byte |
| UrlEncoding.PercentBytes | lib/api-client.ts:21 | three characters per byte; PercentBytesAlphabet and PercentBytesDecode state its alphabet and that it decodes back to the bytes |
| UrlEncoding.FormEncode | lib/api-client.ts:21 | the form serializer of one string (no contract of its own; FormEncodeAlphabet and FormEncodeRoundTrip state its alphabet and its inverse) |
| UrlEncoding.ComponentEncode | lib/auth-context.tsx:36 | `encodeURIComponent` (no contract of its own; ComponentEncodeAlphabet and ComponentEncodeRoundTrip state its alphabet and its inverse) |
| UrlEncoding.PercentBytesAlphabet | lib/api-client.ts:21 | percent-encoded bytes use only '%' and alphanumerics |
| UrlEncoding.FormEncodeAlphabet | lib/api-client.ts:21 | the form serializer's output holds only safe characters, '+' and '%', so never '&' or '=' |
| UrlEncoding.ComponentEncodeAlphabet | lib/auth-context.tsx:36 | the output of `encodeURIComponent` holds only its unreserved characters and '%' |
| UrlEncoding.PercentBytesDecode | lib/api-client.ts:21 | percent-decoding an encoded byte run followed by ASCII text gives the bytes back, then the decoding of the text |
| UrlEncoding.FormEncodeRoundTrip | lib/api-client.ts:21 | form-decoding ('+' as space) the form encoding of a string gives its UTF-8 bytes |
| UrlEncoding.ComponentEncodeRoundTrip | lib/auth-context.tsx:36 | percent-decoding `encodeURIComponent(s)` gives the UTF-8 bytes of `s` |
| UrlEncoding.SerializePairs | lib/api-client.ts:21 | serializing pairs gives "" exactly when there are none |
| UrlEncoding.SerializeSeparators | lib/api-client.ts:21 | a serialized list of n pairs holds exactly n - 1 '&' separators |
| ApiClient.UserId | lib/hooks/use-parcel-realtime.ts:35 | `_id` when present, else `id` |
| ApiClient.UnwrapList | lib/api-client.ts:236-241 | list data is the payload's array, or [] when it is absent; `meta` is passed through |
| ApiClient.NormalizePath | lib/api-client.ts:3 | the result starts with "/"; a path that starts with "/" is kept, any other gets one prefixed |
| ApiClient.NormalizePathIdempotent | lib/api-client.ts:3 | normalising twice is normalising once, and at most one "/" is added |
| ApiClient.ValueString | lib/api-client.ts:19 | `String(value)` of a kept parameter: the string itself, the decimal numeral, or "true"/"false" |
| ApiClient.SetParam | lib/api-client.ts:19 | after `set` the pair (name, value) is present |
| ApiClient.SetParamUnique | lib/api-client.ts:19 | after `set` at most one pair carries the name |
| ApiClient.SetParamOthers | lib/api-client.ts:19 | `set` leaves the pairs of every other name unchanged, in number and order |
| ApiClient.SetParamAppends | lib/api-client.ts:19 | `set` of a new name appends the pair at the end |
| ApiClient.SearchParams.Set | lib/api-client.ts:19 | the method's new pair list is `SetParam` of the old one |
| ApiClient.SearchParams.ToString | lib/api-client.ts:21 | `search.toString()`: the serialization of the current pairs, which is "" exactly when there are none (no contract of its own; UrlEncoding.SerializePairs states it) |
| ApiClient.SetAll | lib/api-client.ts:17-20 | the pairs after `set` for every kept entry in order (no contract of its own; ApplyParams is proved to compute it and SetAllDistinct equates it with the independent KeptPairs) |
| ApiClient.ApplyParams | lib/api-client.ts:17-20 | the `forEach` loop calls `set` for exactly the entries whose value is not undefined, null or "", in entry order |
| ApiClient.BuildQuery | lib/api-client.ts:14-23 | `buildQuery` returns the `Query` of its argument: "" for no params, "?" plus the serialization otherwise |
| ApiClient.Query | lib/api-client.ts:14-23 | the string `buildQuery` returns (no contract of its own; QueryEmptyIff and QueryDistinct state when it is "" and what it serializes) |
| ApiClient.BuildApiUrl | lib/api-client.ts:5-12 | the URL is the base, the normalised path and the query of the same kept parameters (`params ?? {}`) |
| ApiClient.BuildApiUrlUsesQuery | lib/api-client.ts:7 | missing params and an empty object give the same query |
| ApiClient.SetAllEmptyIff | lib/api-client.ts:17-19 | no pair is set exactly when every entry's value is undefined, null or "" |
| ApiClient.QueryEmptyIff | lib/api-client.ts:15-22 | the query is "" exactly when there are no params or no entry survives; otherwise it is "?" followed by the serialized pairs |
| ApiClient.SetAllDistinct | lib/api-client.ts:17-20 | since object keys are distinct, the pairs set are exactly the kept entries, in order, with values stringified |
| ApiClient.QueryDistinct | lib/api-client.ts:14-23 | the query of distinct-keyed entries serializes exactly the kept entries |
| Auth.CookieAttributes | lib/auth-context.tsx:32-37 | the attribute text opens with ';' |
| Auth.UntilSemicolon | lib/auth-context.tsx:37 | the longest `;`-free prefix, stopping exactly at the first ';' |
| Auth.CookieValue | lib/auth-context.tsx:37 | a value is read exactly from a string that starts with "tokens=" |
| Auth.ComponentAlphabetIsCookieOctets | lib/auth-context.tsx:36 | every character `encodeURIComponent` can produce is a `cookie-octet` of RFC 6265, section 4.1.1 |
| Auth.MaxAgeIsSevenDays | lib/auth-context.tsx:24 | the max age is 604800 seconds, written "604800" |
| Auth.CookieToken | lib/auth-context.tsx:36 | `refreshToken || accessToken` (no contract of its own; TokenCookieRoundTrip states that the cookie carries it) |
| Auth.TokenCookie | lib/auth-context.tsx:28-38 | the text assigned to `document.cookie` (no contract of its own; TokenCookieRoundTrip and ClearedCookie state its exact form and what it reads back as) |
| Auth.CookieValueOf | lib/auth-context.tsx:37 | "tokens=" + v + attributes reads back as v when v has no ';' |
| Auth.TokenCookieRoundTrip | lib/auth-context.tsx:36-37 | with tokens, the cookie is "tokens=" + the encoded refresh token (or the access token when that is empty) + "; path=/; max-age=604800; SameSite=Lax"; the value is a valid cookie value that reads back and decodes to the token's bytes |
| Auth.ExpiredAttributes | lib/auth-context.tsx:32 | the clearing cookie ends "; path=/; max-age=0; SameSite=Lax" |
| Auth.ClearedCookie | lib/auth-context.tsx:31-33 | the cleared cookie reads back as "", which the route guard treats like no cookie |
| Auth.AuthSession.constructor | lib/auth-context.tsx:41-44 | no user, no tokens, loading, no error |
| Auth.AuthSession.IsAuthenticated | lib/auth-context.tsx:122 | `!!user`: authenticated exactly when a user is set |
| Auth.AuthSession.WriteTokenCookie | lib/auth-context.tsx:28-38 | one cookie write with a document, none without; nothing else changes |
| Auth.AuthSession.Mount | lib/auth-context.tsx:47-61 | tokens are restored only when stored tokens are non-empty and parse; the user is restored only together with them; loading ends false |
| Auth.AuthSession.Login | lib/auth-context.tsx:63-80 | success sets tokens and user, both storage keys and the cookie; failure sets `error`, rethrows and leaves tokens, user, storage and cookie untouched; loading ends false |
| Auth.AuthSession.Register | lib/auth-context.tsx:82-96 | after a successful registration, `login` runs with the same email and password; a failure of either sets `error` and rethrows |
| Auth.AuthSession.Logout | lib/auth-context.tsx:98-110 | the logout call is made only with an access token; whatever it does, tokens, user, both storage keys and the cookie are cleared |
| Duration.UnitTable | utils/duration.js:1-8 | s, m, h and d map to 1000, 60000, 3600000 and 86400000 ms; other keys are absent |
| Duration.Multiplier | utils/duration.js:16-17 | the unit is looked up lower-cased; the multiplier is positive |
| Duration.RunEnd | utils/duration.js:11 | the greedy `\d+` stops at the first non-digit |
| Duration.GreedyMatchIff | utils/duration.js:11 | the greedy attempt at a position succeeds exactly where the regex matches, with the whole digit run captured |
| Duration.FirstMatch | utils/duration.js:11 | the leftmost match position: none before it, and none at all when there is no result |
| Duration.Expiry | utils/duration.js:19 | the instant `Date.now() + value * multiplier` (no contract of its own; DurationForward states it is never before now) |
| Duration.DurationToDate | utils/duration.js:10-20 | "Invalid duration format" exactly when nothing matches; otherwise now + value × multiplier for the leftmost match |
| Duration.DurationForward | utils/duration.js:19 | a parsed expiry is never before now |
| Duration.DurationCaseInsensitive | utils/duration.js:11-16 | lower-casing the input does not change the result |
| Duration.DurationExampleMinutes | utils/duration.js:10-20 | "15m" is now + 15 minutes |
| Duration.DurationExampleUpperCase | utils/duration.js:11-16 | "7D" is now + 7 days |
| Duration.DurationExampleSkips | utils/duration.js:11 | "x1y2h" is now + 2 hours: a digit run without a unit is skipped |
| Duration.DurationExampleNoUnit | utils/duration.js:12-14 | "30" fails with "Invalid duration format" |
| Pagination.BuildPaginationMeta | utils/pagination.js:1-6 | page, limit and total pass through; total 0 gives 1 page; a zero limit gives ±Infinity; for positive limit and total, (pages - 1) × limit < total ≤ pages × limit |
| Pagination.TotalPagesAtLeastOne | utils/pagination.js:5 | with a positive limit and a non-negative total there is at least one page and the pages hold every item |
| Pagination.PaginationExamples | utils/pagination.js:5 | 25 or 30 items at 10 per page give 3 pages; no items give 1; a zero limit with items gives Infinity |
| SendResponse.StatusOf | utils/sendResponse.js:2 | the status is `statusCode` when it is present and non-zero; a missing, null or zero code gives 200 |
| SendResponse.SendResponse | utils/sendResponse.js:1-8 | the status is `StatusOf(data)`; null data throws building the body; otherwise the body is an object |
| SendResponse.SendResponseBody | utils/sendResponse.js:2-7 | `success` is true unless false was passed; `message`, `data` and `meta` are copied when present; the body has no other keys |
| Env.RawApiBase | lib/env.ts:2 | the environment value when non-empty, else "http://localhost:5000/api" |
| Env.StripTrailingSlash | lib/env.ts:3 | exactly one trailing '/' is removed, and a string without one is kept |
| Env.StripTrailingSlashInverse | lib/env.ts:3 | stripping undoes appending one '/', and removes at most one character |
| Env.ApiBaseUrl | lib/env.ts:2-3 | the configured base minus one trailing '/', or the default |
| Env.ApiSuffixCases | lib/env.ts:4 | the regex `/\/api(\/v1)?$/` can match at one position at most: before "/api/v1", else before "/api" |
| Env.ApiOrigin | lib/env.ts:4 | the text before the one position where the suffix regex matches, or the whole string |
| Env.ApiOriginExamples | lib/env.ts:4 | "/api" and "/api/v1" are removed once, at the end only |
| Env.SocketBaseUrl | lib/env.ts:5-6 | the socket URL minus one trailing '/', or `API_ORIGIN` when that leaves "" (unset, "" or "/") |
| Proxy.Proxy | proxy.ts:4-27 | redirect to "/login" exactly for a protected prefix without a token; redirect to "/" exactly for a public prefix with a token; otherwise next |
| Proxy.IsPublicRoute | proxy.ts:10 | whether some public route is a prefix of the path (no contract of its own; Proxy and RoutesDisjoint state its use) |
| Proxy.IsProtectedRoute | proxy.ts:14 | whether some protected route is a prefix of the path (no contract of its own; Proxy and ProxyGuarantees state its use) |
| Proxy.RoutesDisjoint | proxy.ts:8-14 | no path matches both route lists |
| Proxy.ProxyTokenTruthiness | proxy.ts:17-23 | an empty cookie value acts as no token |
| Proxy.ProxyGuarantees | proxy.ts:16-26 | a protected page is reached only with a token, a public one only without |
| Proxy.ProxyPrefixExamples | proxy.ts:10-14 | matching is by prefix: "/administrator" is protected and "/loginhelp" public |
| Proxy.MatcherCoversGuardedRoutes | proxy.ts:30-40 | every guarded prefix lies inside the middleware matcher |
| Guards.Dashboard | components/role-based-redirect.tsx:20-26 | each role's dashboard is a protected route |
| Guards.RoleRedirect | components/role-based-redirect.tsx:11-27 | no navigation while loading; "/login" when signed out; the role's dashboard otherwise |
| Guards.DashboardsDistinct | components/role-based-redirect.tsx:20-26 | two roles share a dashboard only if they are the same role |
| Guards.RedirectPassesProxy | components/role-based-redirect.tsx:20-26 | a signed-in user's redirect target passes the route guard |
| Guards.LayoutGuard | app/admin/layout.tsx:19-44 | spinner and no redirect while loading; otherwise content exactly for the required role, and a "/login" redirect exactly when nothing is rendered |
| Guards.AdminLayout | app/admin/layout.tsx:19-44 | spinner while loading; content exactly for a loaded ADMIN; "/login" for anyone else, including no user |
| Guards.AgentLayout | app/agent/layout.tsx:19-42 | spinner while loading; content exactly for a loaded AGENT; "/login" for anyone else, including no user |
| Guards.LayoutsAgreeWithRedirect | components/role-based-redirect.tsx:20-23 | no user enters both areas, and an admitted user's redirect lands inside its own area |
| Notifications.Others | lib/notifications-context.tsx:82 | no kept item has the incoming id, every other item is kept as often as it occurs, and the order is the original one |
| Notifications.OthersCons | lib/notifications-context.tsx:82-83 | filtering out the id of an item just put in front of a list that lacks that id gives back the list |
| Notifications.Upsert | lib/notifications-context.tsx:81-84 | the incoming item comes first and appears once, the list never exceeds 100 items, and the rest is the leading part of the other items |
| Notifications.UpsertKeepsOthers | lib/notifications-context.tsx:81-84 | the other items keep their relative order, and none is dropped while fewer than 100 remain |
| Notifications.UpsertIdempotent | lib/notifications-context.tsx:81-84 | delivering the same notification twice leaves the list as after the first delivery |
| Notifications.ReplaceById | lib/notifications-context.tsx:132 | the length and every id are kept; exactly the items with the returned id become the returned item |
| Notifications.MarkRead | lib/notifications-context.tsx:150-158 | the item ends up read; read items are untouched, an existing `readAt` is kept, and a missing one becomes the current instant; no other field changes |
| Notifications.MarkAllRead | lib/notifications-context.tsx:149-159 | every item is marked read as above, and the length is kept |
| Notifications.UnreadCount | lib/notifications-context.tsx:49 | the fallback counter is the number of unread items, never more than the list length |
| Notifications.MarkAllReadComplete | lib/notifications-context.tsx:149-159 | after marking all read no item is unread, and marking all again changes nothing |
| Notifications.NotificationJoins | lib/notifications-context.tsx:90-95 | the user room is joined first, then the customer or the agent room for those roles, and nothing more for an admin |
| Notifications.Incoming | lib/notifications-context.tsx:79-80 | only an item with a non-empty id is handled, and an absent payload yields none |
| Notifications.MetaUnread | lib/notifications-context.tsx:49 | `meta?.unreadCount`, absent when the meta or its counter is (no contract of its own; FinishLoad states its use with the unread count as fallback) |
| Notifications.Shut | lib/notifications-context.tsx:109-119 | one socket loses its notification handler (and its connect handler on cleanup) and is disconnected; every other socket is unchanged |
| Notifications.NotificationStore.constructor | lib/notifications-context.tsx:31-35 | the store starts empty, with a zero counter, not loading, not ready, and with no socket |
| Notifications.NotificationStore.BeginLoad | lib/notifications-context.tsx:38-46 | without a token the list and counter are cleared and the store is ready; with one, loading starts and the request goes out |
| Notifications.NotificationStore.FinishLoad | lib/notifications-context.tsx:47-56 | a successful fetch sets the list and takes the counter from `meta.unreadCount` or else counts the unread items; a failure keeps both; loading ends and the store is ready either way |
| Notifications.NotificationStore.HandlePayload | lib/notifications-context.tsx:78-88 | a payload item with an id is upserted; a numeric `unreadCount` replaces the counter, which otherwise stays; anything else changes nothing |
| Notifications.NotificationStore.MarkNotification | lib/notifications-context.tsx:126-143 | without a token, on failure, or with no returned item nothing changes and the result is null; otherwise the returned item replaces its namesake and a numeric counter from `meta` is taken |
| Notifications.NotificationStore.MarkAll | lib/notifications-context.tsx:145-168 | without a token or on failure nothing changes; otherwise every item is marked read and the counter is `meta.unreadCount` or 0 |
| Notifications.NotificationStore.StartEffect | lib/notifications-context.tsx:62-76 | without a token or user the current socket is shut and the ref cleared; without a user id nothing happens; otherwise a new run for that user and role starts |
| Notifications.NotificationStore.LoaderResolved | lib/notifications-context.tsx:97-107 | a cancelled run, or one with no socket client, does nothing; otherwise a socket with both handlers is created, stored in the ref, and joins its rooms at once |
| Notifications.NotificationStore.OnConnect | lib/notifications-context.tsx:102 | a live socket with its connect handler joins its rooms again; otherwise nothing is emitted |
| Notifications.NotificationStore.OnNotification | lib/notifications-context.tsx:78-88 | on a live socket with its handler, the payload is handled as `handlePayload` does: an item with an id is upserted and a numeric `unreadCount` replaces the counter, which otherwise stays; on any other socket nothing changes |
| Notifications.NotificationStore.Cleanup | lib/notifications-context.tsx:109-119 | the run is cancelled, its socket if any is shut, and the ref is cleared when it names that socket |
| ParcelRealtime.RealtimeJoins | lib/hooks/use-parcel-realtime.ts:59-67 | the parcel room comes first and only when there is a parcel id; with a user id the user room follows, and the last room joined is join:customer for a CUSTOMER, join:agent for an AGENT and join:user for any other role or none; nothing is joined without either id |
| ParcelRealtime.JoinsExtendNotificationJoins | lib/hooks/use-parcel-realtime.ts:59-67 | for every parcel id, a signed-in user with a role joins the parcel room if there is one, then exactly the rooms the notification provider joins; with no role only the user room follows |
| ParcelRealtime.ShouldConnect | lib/hooks/use-parcel-realtime.ts:53-54 | the effect guard: enabled, with a truthy parcel id or user id (no contract of its own; StartEffect states its use) |
| ParcelRealtime.ParcelRealtimeHook.constructor | lib/hooks/use-parcel-realtime.ts:36-38 | the handler refs start as the given callbacks, with no socket and no run |
| ParcelRealtime.ParcelRealtimeHook.UpdateHandlers | lib/hooks/use-parcel-realtime.ts:40-50 | each ref takes the latest callback; sockets and runs are unchanged |
| ParcelRealtime.ParcelRealtimeHook.StartEffect | lib/hooks/use-parcel-realtime.ts:52-57 | a run starts exactly when enabled and there is a parcel id or a user id |
| ParcelRealtime.ParcelRealtimeHook.LoaderResolved | lib/hooks/use-parcel-realtime.ts:69-80 | a cancelled run, or one with no socket client, does nothing; otherwise a listening socket is created and joins its rooms at once |
| ParcelRealtime.ParcelRealtimeHook.OnConnect | lib/hooks/use-parcel-realtime.ts:74 | a live socket with its connect handler joins its rooms again |
| ParcelRealtime.ParcelRealtimeHook.OnEvent | lib/hooks/use-parcel-realtime.ts:77-79 | an event on a live socket goes to the callback the matching ref holds now, if any, and to no other |
| ParcelRealtime.ParcelRealtimeHook.Cleanup | lib/hooks/use-parcel-realtime.ts:84-93 | the run is cancelled and its socket, if created, loses every handler and is disconnected |
| Toast.Reduce | components/ui/use-toast.ts:33-60 | an added toast comes first and at most five are kept, the rest in their old order; dismissing leaves the list; removing with an id keeps, in order and as often as each occurs, exactly the toasts with another id, and drops every toast with that id; removing without an id empties the list |
| Toast.ReduceKeepsLimit | components/ui/use-toast.ts:22-36 | no action takes a list of at most five toasts past five |
| Toast.DismissTargets | components/ui/use-toast.ts:40 | a dismiss with an id targets that id alone, and one without targets every toast's id in order |
| Toast.NewTimersSpec | components/ui/use-toast.ts:42-49 | the timers a dismiss starts are for distinct ids, each a target without a pending timer, and every such target gets one |
| Toast.NewTimersStep | components/ui/use-toast.ts:42-49 | the timers started for a list of targets are those of its first target followed by those of the rest, with that first target now pending |
| Toast.NewTimers | components/ui/use-toast.ts:42-48 | the ids the `forEach` starts timers for, in order (no contract of its own; NewTimersSpec states they are distinct, new and cover every target) |
| Toast.IndexOf | components/ui/use-toast.ts:93 | the position of the first occurrence of a listener, or -1 exactly when it is absent |
| Toast.RemoveFirst | components/ui/use-toast.ts:93-94 | an absent listener leaves the list; otherwise its first occurrence alone is removed and the others keep their places |
| Toast.Deliveries | components/ui/use-toast.ts:67 | every listener, in subscription order, is called once with the new state |
| Toast.NextCount | components/ui/use-toast.ts:29 | the counter stays below `Number.MAX_SAFE_INTEGER` |
| Toast.SuccessiveIdsDiffer | components/ui/use-toast.ts:28-31 | two successive generated ids differ |
| Toast.MakeToast | components/ui/use-toast.ts:75-81 | the toast keeps the id, title and description, with the variant defaulting to "default" and the duration to 4000 |
| Toast.RemoveTimerSpec | components/ui/use-toast.ts:44-46 | after a timer fires, the pending timers are the others, still distinct |
| Toast.RemoveTimer | components/ui/use-toast.ts:45 | `toastTimeouts.delete(id)` on the pending timers (no contract of its own; RemoveTimerSpec states what remains) |
| Toast.ToastStore.constructor | components/ui/use-toast.ts:25-26 | the store starts with no toast, a zero counter, no timer and no listener |
| Toast.ToastStore.GenId | components/ui/use-toast.ts:28-31 | the counter advances modulo `Number.MAX_SAFE_INTEGER` and the id is its decimal text, different from the previous id |
| Toast.ToastStore.ScheduleRemoval | components/ui/use-toast.ts:43-48 | an id without a pending timer gets one; an id with one is skipped; the toasts are unchanged |
| Toast.ToastStore.ScheduleRemovals | components/ui/use-toast.ts:42-49 | the loop starts exactly the timers `NewTimers` describes and records every target as pending |
| Toast.ToastStore.Dispatch | components/ui/use-toast.ts:65-68 | the state becomes the reducer's result, each listener receives it once in order, and only a dismiss starts timers |
| Toast.ToastStore.Broadcast | components/ui/use-toast.ts:67 | every listener, in registration order, is called once with the current state; no other field changes |
| Toast.ToastStore.ShowToast | components/ui/use-toast.ts:70-85 | a fresh id is generated and the toast with the defaults filled in is added in front |
| Toast.ToastStore.FireTimer | components/ui/use-toast.ts:44-47 | a pending timer is deleted and then the toast with its id is removed, with listeners notified; an unknown id changes nothing |
| Toast.ToastStore.Subscribe | components/ui/use-toast.ts:90-91 | the listener is appended and nothing else changes |
| Toast.ToastStore.Unsubscribe | components/ui/use-toast.ts:92-95 | only the first registration of that listener is removed |
| RouteMap.Sanitize | components/customer/parcel-route-map.tsx:48-51 | only finite points are kept, every finite point is kept as often as it occurs, and the order is the original one |
| RouteMap.StrideIndices | components/customer/parcel-route-map.tsx:59 | the positions kept by the stride filter are exactly the multiples of the step below the length, in increasing order |
| RouteMap.Pick | components/customer/parcel-route-map.tsx:59-63 | the sampled list holds the points at the chosen positions, in that order |
| RouteMap.SampleIndices | components/customer/parcel-route-map.tsx:54-66 | the positions `sampledPoints` keeps (no contract of its own; SampleIndicesSpec and SampleIndicesStride state which ones) |
| RouteMap.Sample | components/customer/parcel-route-map.tsx:54-66 | `sampledPoints` (no contract of its own; SampleSmallIdentity and SampleSpec state what it keeps) |
| RouteMap.SampleIndicesSpec | components/customer/parcel-route-map.tsx:54-66 | the kept positions are in range and increasing, and the first and the last position are always kept |
| RouteMap.StridedIndicesSpec | components/customer/parcel-route-map.tsx:58-65 | for more than 23 points the stride positions plus the last one are increasing, start at 0 and end at the last position |
| RouteMap.AppendLastIncreasing | components/customer/parcel-route-map.tsx:62-63 | pushing the last point after a run that stops short of it keeps the positions increasing |
| RouteMap.SampleIndicesStride | components/customer/parcel-route-map.tsx:58-63 | for more than 23 points a position is kept exactly when it is a multiple of `ceil(n / 23)` or the last one |
| RouteMap.SampleSmallIdentity | components/customer/parcel-route-map.tsx:56 | at most 23 points are passed through unchanged |
| RouteMap.SampleSpec | components/customer/parcel-route-map.tsx:54-66 | sampling keeps at most 24 points, in their original order, always including the first and the last |
| RouteMap.StrideCount | components/customer/parcel-route-map.tsx:58-59 | with step `ceil(n / 23)` at most 23 positions pass the stride filter |
| RouteMap.RoutePlan | components/customer/parcel-route-map.tsx:104-127 | a route is requested exactly for two or more points; origin, waypoints and destination together are the sampled points |
| RouteMap.FallbackText | components/customer/parcel-route-map.tsx:167-175 | the note under the map is hidden exactly when there is a key, two points and no error; an error is shown in preference to the other texts |
| AgentDashboard.ActiveUntilFinal | app/agent/dashboard/page.tsx:13 | a parcel is active exactly when it is not delivered, failed or cancelled |
| AgentDashboard.Partition | app/agent/dashboard/page.tsx:19-29 | the reduce loop puts exactly the active parcels, in order, in the active list and all the others in the completed list |
| AgentDashboard.PartitionExact | app/agent/dashboard/page.tsx:19-29 | every parcel lands in exactly one tab (the two tabs together are a permutation of the input), and each tab keeps the input order |
| AgentDashboard.FilterParcels | app/agent/dashboard/page.tsx:103-111 | an empty search keeps the list, and a search keeps a sub-list in the original order |
| AgentDashboard.FilterParcelsSpec | app/agent/dashboard/page.tsx:103-111 | a parcel is shown exactly when its lower-cased tracking code or delivery city contains the lower-cased search |
| AgentDashboard.FilterParcelsCaseInsensitive | app/agent/dashboard/page.tsx:105 | searching is case-insensitive |
| AgentDashboard.View | app/agent/dashboard/page.tsx:31-95 | the tab badges count the unfiltered tabs, which add up to all parcels; the cards are each tab searched, never more than its badge |
| CustomerDashboard.LabelPrefixOf | app/customer/dashboard/page.tsx:23-35 | every chip label has at least two letters, and its first two are the status's prefix |
| CustomerDashboard.StatusLabel | app/customer/dashboard/page.tsx:16-36 | the label column of `STATUS_CHIP` (no contract of its own; StatusChipLabels states the labels are non-empty and distinct) |
| CustomerDashboard.StatusChip | app/customer/dashboard/page.tsx:16-36 | `STATUS_CHIP[status]`, total over the seven statuses (no contract of its own; ShipmentCard states its use) |
| CustomerDashboard.StatusChipLabels | app/customer/dashboard/page.tsx:16-36 | every status has a non-empty label, a failed parcel reads "Issue", and two statuses share a label only when they are the same |
| CustomerDashboard.LabelPrefixInjective | app/customer/dashboard/page.tsx:23-35 | no two statuses have labels starting with the same two letters |
| CustomerDashboard.FilterParcels | app/customer/dashboard/page.tsx:121-129 | an empty search keeps the list, and a search keeps a sub-list in the original order |
| CustomerDashboard.FilterParcelsSpec | app/customer/dashboard/page.tsx:121-129 | a parcel is shown exactly when its lower-cased tracking code or delivery address contains the lower-cased search |
| CustomerDashboard.FilterParcelsCaseInsensitive | app/customer/dashboard/page.tsx:123 | searching is case-insensitive |
| CustomerDashboard.FormatDate | app/customer/dashboard/page.tsx:131-136 | a missing value or an invalid date reads "recently", any other the local date text |
| CustomerDashboard.ShipmentCard | app/customer/dashboard/page.tsx:94-108 | the card links to the parcel's tracking page, shows its code, its status chip, the address label and text or their placeholders, and the formatted update date |
| CustomerDashboard.GreetingName | app/customer/dashboard/page.tsx:51 | the greeting names the signed-in user, or "there" without one |
| AdminParcels.StatusFilterOptions | app/admin/parcels/page.tsx:19-27 | the select starts with "all" and offers every status but CANCELLED, each exactly once |
| AdminParcels.WithStatusFilter | app/admin/parcels/page.tsx:59-65 | "all" clears the status, a status sets it, the page goes back to 1, and every other query field is kept |
| AdminParcels.StatusFilterLastWins | app/admin/parcels/page.tsx:59-65 | only the last filter chosen affects the query |
| AdminParcels.FilterParcels | app/admin/parcels/page.tsx:67-81 | an empty search keeps the list, and a search keeps a sub-list in the original order |
| AdminParcels.FilterParcelsSpec | app/admin/parcels/page.tsx:67-81 | a parcel is shown exactly when its tracking code, its customer's name or its delivery city contains the search, ignoring case |
| AdminParcels.FilterParcelsCaseInsensitive | app/admin/parcels/page.tsx:69 | searching is case-insensitive |
| AdminParcels.ReplaceById | app/admin/parcels/page.tsx:135-139 | the length is kept and exactly the rows with the updated id become the updated row |
| AdminParcels.DeleteById | app/admin/parcels/page.tsx:140-144 | the remaining rows keep their order, none has the deleted id, and every row with another id stays as often as it occurred |
| AdminParcels.DeleteByIdSpec | app/admin/parcels/page.tsx:140-144 | a row remains exactly when it was present with another id, and deleting twice is deleting once (the multiplicities are in `AdminParcels.DeleteById`) |
| AdminParcels.ReplaceByIdIdempotent | app/admin/parcels/page.tsx:135-139 | updating a row twice is updating it once |
| AdminParcels.DeleteAfterReplace | app/admin/parcels/page.tsx:135-144 | a row updated and then deleted is gone as if it had only been deleted |
| AdminParcels.StoredAccessToken | app/admin/parcels/page.tsx:43-53 | nothing stored keeps the token; a parsed value gives its access token; text that does not parse gives "" |
| AdminParcels.AdminParcelsPage.constructor | app/admin/parcels/page.tsx:30-37 | the page starts with no token, no search, the "all" filter, no rows and a query of 25 per page |
| AdminParcels.AdminParcelsPage.Mount | app/admin/parcels/page.tsx:43-65 | the token is read from storage and the query is rewritten for the current filter |
| AdminParcels.AdminParcelsPage.ParcelsChanged | app/admin/parcels/page.tsx:55-57 | the local rows start over from the fetched list |
| AdminParcels.AdminParcelsPage.SetSearch | app/admin/parcels/page.tsx:105 | only the search text changes |
| AdminParcels.AdminParcelsPage.SetStatusFilter | app/admin/parcels/page.tsx:59-65 | the filter changes and the query is rewritten for it |
| AdminParcels.AdminParcelsPage.Shown | app/admin/parcels/page.tsx:67-81 | the table rows are an ordered sub-list of the local rows, all of them when there is no search |
| AdminUsers.RoleFilterOptions | app/admin/users/page.tsx:15-20 | the select starts with "all roles" and offers every role after it |
| AdminUsers.WithRoleFilter | app/admin/users/page.tsx:29-35 | "all" clears the role, a role sets it, the page goes back to 1 and the page size is kept |
| AdminUsers.RoleFilterLastWins | app/admin/users/page.tsx:29-35 | only the last role filter chosen affects the query |
| AdminUsers.FilterUsers | app/admin/users/page.tsx:37-45 | an empty search keeps the list, and a search keeps a sub-list in the original order |
| AdminUsers.FilterUsersSpec | app/admin/users/page.tsx:37-45 | a user is shown exactly when the lower-cased name or email contains the lower-cased search |
| AdminUsers.FilterUsersCaseInsensitive | app/admin/users/page.tsx:39 | searching is case-insensitive |
| AssignAgent.FilterAgents | components/admin/AssignAgentDialog.tsx:48-57 | the agents listed are an ordered sub-list of the loaded agents |
| AssignAgent.FilterAgentsSpec | components/admin/AssignAgentDialog.tsx:48-57 | a query that is empty or only whitespace lists every agent; any other lists exactly the agents whose name or email contains the trimmed, lower-cased query |
| AssignAgent.FilterAgentsNormalized | components/admin/AssignAgentDialog.tsx:49 | surrounding whitespace and letter case in the query do not change the list |
| AssignAgent.TrimIdempotent | components/admin/AssignAgentDialog.tsx:49 | trimming twice is trimming once |
| AssignAgent.TrimLowerCommute | components/admin/AssignAgentDialog.tsx:49 | lower-casing a trimmed query leaves nothing to trim |
| AssignAgent.TriggerLabel | components/admin/AssignAgentDialog.tsx:74 | the trigger reads "Change" exactly when the parcel has an agent with a non-empty name, and "Assign" otherwise |
| AssignAgent.RowButton | components/admin/AssignAgentDialog.tsx:117-123 | every row's button is disabled while any assignment runs, and only the row being assigned reads "Assigning..." |
| AssignAgent.OneAssignmentAtATime | components/admin/AssignAgentDialog.tsx:117-123 | while an assignment runs, at most one row says so and no row can start another |
| AssignAgent.AssignAgentDialog.constructor | components/admin/AssignAgentDialog.tsx:21-26 | the dialog starts closed, not loading, not assigning, with no agents and an empty query |
| AssignAgent.AssignAgentDialog.SetOpen | components/admin/AssignAgentDialog.tsx:29-46 | a change of `open` cleans up the previous load; opening starts one that sets loading and requests up to 200 agents on page 1; an unchanged value does nothing |
| AssignAgent.AssignAgentDialog.LoadSettled | components/admin/AssignAgentDialog.tsx:33-41 | only a load still mounted stores the agents (none when `data` is absent, unchanged on failure) and ends loading |
| AssignAgent.AssignAgentDialog.SetQuery | components/admin/AssignAgentDialog.tsx:86 | only the query changes |
| AssignAgent.AssignAgentDialog.Shown | components/admin/AssignAgentDialog.tsx:48-57 | the rows listed are an ordered sub-list of the loaded agents |
| AssignAgent.AssignAgentDialog.BeginAssign | components/admin/AssignAgentDialog.tsx:59-62 | a click while an assignment runs does nothing; otherwise that agent is being assigned and one request for this parcel and agent goes out |
| AssignAgent.AssignAgentDialog.FinishAssign | components/admin/AssignAgentDialog.tsx:62-68 | on success `onAssigned`, when given, receives the updated parcel and the dialog closes, which cleans up the running load exactly when the dialog was open; on failure the error propagates and the dialog and the loads are untouched; `assigning` is cleared either way |
| NewShipment.DefaultForm | components/customer/new-shipment-dialog.tsx:28-45 | the fresh form has two empty addresses, Documents, Small, COD with amount "0", and no weight or pickup time |
| NewShipment.SetAddressField | components/customer/new-shipment-dialog.tsx:56-68 | the chosen field of the chosen address takes the value and every other field of both addresses and of the form is kept |
| NewShipment.SetField | components/customer/new-shipment-dialog.tsx:70-72 | the chosen top-level field takes the value and every other field and both addresses are kept |
| NewShipment.FormExtensionality | components/customer/new-shipment-dialog.tsx:36-45 | two forms that agree on every address field and every top-level field are equal |
| NewShipment.AddressExtensionality | components/customer/new-shipment-dialog.tsx:28-34 | two addresses that agree on every field are equal |
| NewShipment.AddressUpdateLaws | components/customer/new-shipment-dialog.tsx:56-68 | the last of two edits to one address field wins, writing back a field's own value changes nothing, and edits to different fields commute |
| NewShipment.FieldUpdateLaws | components/customer/new-shipment-dialog.tsx:70-72 | the last of two edits to one field wins, writing back a field's own value changes nothing, and edits to different fields commute |
| NewShipment.RequiredFieldsFilled | components/customer/new-shipment-dialog.tsx:76-84 | `requiredFieldsFilled` (no contract of its own; RequiredFieldsFilledSpec and RequiredFieldsOnlyAddresses state it) |
| NewShipment.RequiredFieldsFilledSpec | components/customer/new-shipment-dialog.tsx:76-84 | the form can be submitted exactly when every address field but the label is non-empty on both addresses |
| NewShipment.RequiredFieldsOnlyAddresses | components/customer/new-shipment-dialog.tsx:76-84 | the fresh form cannot be submitted, and neither the labels nor any top-level field decides whether it can |
| NewShipment.Payload | components/customer/new-shipment-dialog.tsx:95-106 | building the body fails exactly when a pickup time is given that is not a valid date, with that error; otherwise both addresses and the type, size and payment fields are sent as entered |
| NewShipment.PayloadSpec | components/customer/new-shipment-dialog.tsx:101-105 | only a COD shipment carries an amount, an empty amount counts as zero, and weight and pickup time are sent exactly when entered, converted |
| NewShipment.CodDisabled | components/customer/new-shipment-dialog.tsx:126 | `codDisabled`: the payment type is PREPAID (no contract of its own; CodDisabledSendsZero states its effect) |
| NewShipment.CodDisabledSendsZero | components/customer/new-shipment-dialog.tsx:101-126 | whatever the disabled amount input holds, a prepaid shipment is sent with amount zero |
| NewShipment.SubmitButtonOf | components/customer/new-shipment-dialog.tsx:337-338 | the submit button is disabled until the required fields are filled and while submitting, and reads "Creating..." while submitting |
| NewShipment.NewShipmentDialog.constructor | components/customer/new-shipment-dialog.tsx:50-52 | the dialog starts closed, with the fresh form, not submitting |
| NewShipment.NewShipmentDialog.OnOpenChange | components/customer/new-shipment-dialog.tsx:129 | the dialog cannot be opened or closed while submitting |
| NewShipment.NewShipmentDialog.ChangeAddress | components/customer/new-shipment-dialog.tsx:56-68 | the form becomes the address edit of the old form, and nothing else changes |
| NewShipment.NewShipmentDialog.ChangeField | components/customer/new-shipment-dialog.tsx:70-72 | the form becomes the field edit of the old form, and nothing else changes |
| NewShipment.NewShipmentDialog.ResetClicked | components/customer/new-shipment-dialog.tsx:334 | Reset restores the fresh form, except while submitting, when the button is disabled |
| NewShipment.NewShipmentDialog.BeginSubmit | components/customer/new-shipment-dialog.tsx:86-107 | without an access token only the "Authentication required" toast appears; a payload that cannot be built shows the failure toast and sends nothing; otherwise exactly that payload is sent and the dialog is submitting |
| NewShipment.NewShipmentDialog.FinishSubmit | components/customer/new-shipment-dialog.tsx:107-123 | on success a toast names the tracking code, `onCreated` when given gets the parcel, the form resets and the dialog closes; on failure a toast carries the message and the form stays; submitting ends either way |
| NewShipment.NewShipmentDialog.Button | components/customer/new-shipment-dialog.tsx:337-338 | the button shown is disabled until the required fields are filled and while submitting |
| AddressPicker.FirstTruthySpec | components/customer/address-picker-dialog.tsx:140-142 | a `\|\|` chain ending in "" yields "" exactly when no entry is present and non-empty, and otherwise the first entry that is |
| AddressPicker.FirstTruthyPicksFirst | components/customer/address-picker-dialog.tsx:140-142 | the chain yields the first present, non-empty entry |
| AddressPicker.FirstTruthyCons | components/customer/address-picker-dialog.tsx:140-142 | one step of the chain: the head if it is non-empty, else the rest of the chain |
| AddressPicker.FirstTruthy | components/customer/address-picker-dialog.tsx:140-142 | the reference reading of an `a || b || ... || ""` chain (no contract of its own; FirstTruthySpec states it) |
| AddressPicker.ResolveAddress | components/customer/address-picker-dialog.tsx:134-143 | the location keeps the requested coordinates, and its full address is `display_name` or "" |
| AddressPicker.ResolveAddressSpec | components/customer/address-picker-dialog.tsx:135-142 | the city is the first non-empty of city, town, village and county, the area the first non-empty of suburb, neighbourhood and city district, the postcode kept only when non-empty, and a missing `address` acts as an empty one |
| AddressPicker.InitialCenter | components/customer/address-picker-dialog.tsx:86-89 | both given coordinates are used together, else the Dhaka default centre |
| AddressPicker.Resolved | components/customer/address-picker-dialog.tsx:131-149 | a reverse geocode yields a location exactly when it succeeds, with the requested coordinates; a failure propagates its message |
| AddressPicker.AddressPickerDialog.constructor | components/customer/address-picker-dialog.tsx:98-105 | the dialog starts with no query, results or address, not searching or resolving, with the pick at the initial centre |
| AddressPicker.AddressPickerDialog.Opened | components/customer/address-picker-dialog.tsx:122-129 | opening clears the query, results and address and returns the pick to the initial centre |
| AddressPicker.AddressPickerDialog.SetQuery | components/customer/address-picker-dialog.tsx:244 | only the query changes |
| AddressPicker.AddressPickerDialog.BeginSearch | components/customer/address-picker-dialog.tsx:157-161 | a blank query does nothing; otherwise searching starts and the trimmed query is sent |
| AddressPicker.AddressPickerDialog.SearchSettled | components/customer/address-picker-dialog.tsx:160-172 | the hits are listed; the first becomes the pick and its address is resolved before searching ends; a failed or empty search ends at once |
| AddressPicker.AddressPickerDialog.Pick | components/customer/address-picker-dialog.tsx:151-155 | a map or result click picks those coordinates and requests their address |
| AddressPicker.AddressPickerDialog.CancelClicked | components/customer/address-picker-dialog.tsx:306-308 | Cancel asks the parent to close and changes nothing else |
| AddressPicker.AddressPickerDialog.ConfirmClicked | components/customer/address-picker-dialog.tsx:309-316 | the button does nothing unless an address is shown, both coordinates are finite and nothing is being resolved; otherwise the pick is resolved again |
| AddressPicker.AddressPickerDialog.ReverseSettled | components/customer/address-picker-dialog.tsx:131-149 | resolving ends; on success the shown address is the resolved one; then a waiting search ends, and a waiting confirmation passes the location to `onConfirm` and closes the dialog |
| AddressPicker.AddressPickerDialog.Resume | components/customer/address-picker-dialog.tsx:168-171 | after a resolve, a search's `finally` ends searching, and a successful confirmation calls `onConfirm` and closes |
| TrackingTimeline.FirstPending | components/customer/tracking-timeline.tsx:26 | the index of the first event not completed, or -1 exactly when every event is completed |
| TrackingTimeline.Markers | components/customer/tracking-timeline.tsx:20-30 | there is one marker per event |
| TrackingTimeline.MarkerSpec | components/customer/tracking-timeline.tsx:24-32 | a completed event shows a check, exactly the first pending event shows the clock, and every later pending event shows a circle |
| TrackingTimeline.AtMostOneClock | components/customer/tracking-timeline.tsx:24-32 | at most one event shows the clock, and one does exactly when some event is pending |
| TrackingTimeline.Connectors | components/customer/tracking-timeline.tsx:31-33 | there is a connector below every event but the last, in the success colour exactly when that event is completed |
| TrackingTimeline.ConnectorsFollowMarkers | components/customer/tracking-timeline.tsx:24-33 | the line below an event is in the success colour exactly when the event shows a check |
| NotificationCenter.UnderscoresToSpaces | components/notifications/notification-center.tsx:111 | every underscore becomes a space and every other character is kept |
| NotificationCenter.TypeLabel | components/notifications/notification-center.tsx:111 | the badge text of a notification type (no contract of its own; TypeLabelSpec states it) |
| NotificationCenter.TypeLabelSpec | components/notifications/notification-center.tsx:111 | the type badge has no underscore left, keeps every other character, shows a type without underscores as it is, and a second replacement changes nothing |
| NotificationCenter.TrackingCode | components/notifications/notification-center.tsx:124 | the code shown is the string stored under `data.trackingCode` |
| NotificationCenter.HasTracking | components/notifications/notification-center.tsx:74 | `hasTracking` (no contract of its own; HasTrackingIff states it is exactly the presence of a string code) |
| NotificationCenter.HasTrackingIff | components/notifications/notification-center.tsx:74-129 | the tracking chip is shown exactly when `data.trackingCode` holds a string, the one it displays |
| NotificationCenter.FormatTimestamp | components/notifications/notification-center.tsx:25-35 | a missing value or an invalid date shows "", any other the local date and time text |
| NotificationCenter.MarkButton | components/notifications/notification-center.tsx:139-149 | only unread notifications have the button; it is disabled while that notification or all are being marked, and reads "..." while its own mark runs |
| NotificationCenter.MarkButtonDuringMarking | components/notifications/notification-center.tsx:145-147 | while a notification is being marked its button is disabled and reads "...", and during a mark-all every button is disabled |
| NotificationCenter.ClearAllButton | components/notifications/notification-center.tsx:183-191 | Clear All is disabled exactly when the counter is zero or a mark-all runs (a negative counter leaves it enabled), and reads "Processing..." or the counter in decimal, with a minus sign when negative |
| NotificationCenter.ClearAllNegativeCount | components/notifications/notification-center.tsx:187-190 | a counter of -1 leaves Clear All enabled and reads "Clear All (-1)" |
| NotificationCenter.Heading | components/notifications/notification-center.tsx:176 | the heading given, or "Notifications" |
| NotificationCenter.NotificationCenterPage.constructor | components/notifications/notification-center.tsx:50-51 | nothing is being marked at first |
| NotificationCenter.NotificationCenterPage.BeginMarkAll | components/notifications/notification-center.tsx:53-57 | nothing happens when the counter is zero or a mark-all already runs; otherwise, negative counters included, one mark-all starts |
| NotificationCenter.NotificationCenterPage.FinishMarkAll | components/notifications/notification-center.tsx:56-60 | the mark-all flag is cleared whatever the outcome, which is passed on |
| NotificationCenter.NotificationCenterPage.BeginMark | components/notifications/notification-center.tsx:63-67 | a click while another mark runs does nothing; otherwise that id is being marked and one call goes out |
| NotificationCenter.NotificationCenterPage.FinishMark | components/notifications/notification-center.tsx:66-70 | the marking id is cleared whatever the outcome, which is passed on |
| Sidebar.ResizeState | lib/sidebar-context.tsx:18-23 | a window narrower than 1024 is mobile with the sidebar closed; any other is desktop with it open |
| Sidebar.ResizeStateMonotone | lib/sidebar-context.tsx:19-22 | if a width opens the sidebar, every wider one does too, and widths on the same side of 1024 give the same state |
| Sidebar.SidebarProvider.constructor | lib/sidebar-context.tsx:14-15 | the sidebar starts open and not mobile, with no listener |
| Sidebar.SidebarProvider.Mount | lib/sidebar-context.tsx:17-25 | the mount effect applies the current width at once and registers for resizes |
| Sidebar.SidebarProvider.Resize | lib/sidebar-context.tsx:25 | while registered, a resize sets the state from the new width alone, overriding any `setIsOpen` |
| Sidebar.SidebarProvider.Unmount | lib/sidebar-context.tsx:26 | the cleanup removes the listener and keeps the state |
| Sidebar.SidebarProvider.SetIsOpen | lib/sidebar-context.tsx:30 | `setIsOpen` changes only whether the sidebar is open |

## Left out

- Network, sockets and storage. `fetch`, the REST helpers' HTTP exchange, Socket.IO, Nominatim, `localStorage` and `document.cookie` are not modelled as I/O: their results are method arguments, and their effects are fields or recorded sequences.
- Rendering. The React trees, Leaflet, Google Maps markers, Directions and `fitBounds` are left out. Only the text, flags and choices that the markup derives from state are modelled: labels, disabled buttons, badges, cards and the fallback note.
- React scheduling. Effects run when a method is called. Batching of state updates, re-renders and StrictMode double runs are not modelled. The interleaving of concurrent async handlers is modelled only through the request/settle method pairs (Begin/Finish, LoaderResolved, SearchSettled, ReverseSettled), which may be called in any order the caller chooses.
- Script loaders. `ensureSocketClient` and `loadGoogleMaps` only de-duplicate concurrent script loads. Whether a client became available is an input (`LoaderResolved`), and the map loader and the Directions request are not modelled.
- Floating point. Coordinates and numbers are exact decimals. Their arithmetic, `toFixed`, `Math.ceil` on doubles and `Number.isFinite` beyond the finite/non-finite split are not modelled. Two decimal spellings of one value are not identified.
- Dates and locale formatting. `Date.now()`, `new Date(...)`, `getTime`, `toISOString`, `toLocaleString` and `toLocaleDateString` are parameters or given values. The duration parser returns the millisecond offset added to a given `now`.
- ApiClient.BuildApiUrl: the URL is the plain concatenation of base, path and query. The WHATWG URL parser behind `new URL(...)` and `toString()` is not modelled. That parser percent-encodes spaces and non-ASCII characters in the path, resolves `.` and `..` segments, lower-cases the scheme and host, drops a default port, and throws a `TypeError` for a base that does not parse. It also merges the parameters into a query already present in the path (`?x=1&k=v`, where the model gives `?x=1?k=v`). The model agrees with the source only for a well-formed base and a path without a query string and without characters the parser rewrites.
- UrlEncoding.ComponentEncode: strings are sequences of Unicode scalar values, so a lone surrogate cannot occur. `encodeURIComponent` throws a `URIError` on one, and the form serializer replaces it with U+FFFD; neither case is modelled.
- ApiClient.ValueString: `ParamValue.Num` holds an integer, so `String` of a fractional or non-finite number is not modelled; the callers pass integers (page, limit) and strings.
- Case mapping. `Lower`: `toLowerCase` maps only the ASCII letters A to Z, not the full Unicode case mapping.
- `JSON.parse` and `JSON.stringify`. A stored value is either a parsed record or text that fails to parse. The serialized text is not modelled.
- Admin parcel callbacks. The update and delete callbacks of the admin parcels page are handed to a table component that never calls them, so they are modelled only as the list functions `AdminParcels.ReplaceById` and `AdminParcels.DeleteById`.
- `handleRoleChange` on the admin users page only writes to the console and changes no state, so it is not modelled.
- Console and logging. `console.log` and `console.error` calls, the development-mode warning of lib/env.ts, and the server logger, e-mail, token and crypto utilities are left out.
- The loading skeletons, the empty states and the pages that only render data are not modelled.
- Behaviour the code does not have is not modelled either: status transitions, merging realtime parcel events into lists, the agent card's Mark Delivered and Report buttons.
- `Toast.ToastStore.FireTimer`: the one-second delay is not modelled. A timer fires when the method is called, and pending timers are a sequence of ids.
- `RouteMap.Sample`: the source checks whether the last kept element is the last point by reference. The model checks by position, so two equal points at different positions are not conflated.
