# adminp2p admin client — a Dafny model

adminp2p's admin client is a React single-page application for a
peer-to-peer USDT trading backend. Every business rule runs on the server.
The client's own logic is:

- the session guard in front of the dashboard routes;
- the login form (device naming, and which browser store keeps the token);
- three status-filtered list screens: bids, asks and peer pairings;
- two broadcast composers that send Telegram messages through the backend's bot.

This project models that logic in Dafny and proves what each screen promises.

How the model is built:

- Each screen is a class whose fields mirror its React state.
- An async handler becomes a `Start…` method and a `Settle…` method. `Start…` is the synchronous part up to the first `await`: it sets the loading flag or the in-flight id and sends the request. `Settle…` is the continuation, and it takes the server's answer as a parameter.
- A third method runs the two in sequence when the handler awaits everything to its end.
- A server answer (`Common.Reply`) is either a thrown error with its message, or an HTTP status test plus a parsed body.
- Toasts, navigations and requests are appended to the class's `log` of `Common.Event`s.
- React effects are explicit `Run…Effect` methods. Each keeps the dependency value it last ran for, so it fires only when that value changes.
- JavaScript's `x || fallback` is written out. An empty string is falsy, a zero or missing number is falsy, and an array is always truthy. A `success` field is a three-valued `JsFlag`, because some screens test it with `=== true` and others for truthiness.

Modules:

- `Common`: reply shapes, truthiness helpers, calls and events, the cancel button rule, decimal text.
- `Pagination`: the bid page strip and its controls.
- `Credentials`: localStorage and sessionStorage.
- `SessionGuard`: `ProtectedRoute`.
- `Login`.
- `BidSearch`, `AskSearch`, `PeerStatus`, `BotCast` and `UserDetails`: one per screen.

## Model

| member | source | states |
|---|---|---|
| Common.CancelControl | src/app/routes/dashboard/BidStatusSearch.tsx:212-218 | a bid or ask card has a cancel button exactly when its status is "pending", and the button is disabled exactly when that record's id is the one being cancelled |
| Common.Counted | src/app/routes/dashboard/AskStatusSearch.tsx:304 | a count with its noun is singular for exactly one and plural otherwise |
| Common.NatText | src/app/routes/dashboard/UserDetailsPage.tsx:92 | `String(n)` of a natural number (an integer below 2^53, which a JavaScript number holds exactly) is a non-empty string of decimal digits |
| Common.NatTextRoundTrip | src/app/routes/dashboard/UserDetailsPage.tsx:92 | reading the decimal text back gives the number |
| Common.IntTextInjective | src/app/routes/dashboard/UserDetailsPage.tsx:92 | two integer ids with the same text are the same id |
| Pagination.PushRun | src/app/routes/dashboard/BidStatusSearch.tsx:242-244 | the push loop appends exactly the pages lo..hi-1, in order |
| Pagination.GetPageNumbers | src/app/routes/dashboard/BidStatusSearch.tsx:237-264 | the strip built by pushing equals the strip function; for 1 ≤ currentPage ≤ lastPage it is well formed: it starts at 1, ends at lastPage, has strictly increasing page entries within 1..lastPage, contains currentPage, has at most 7 slots, and every ellipsis stands between two non-adjacent pages |
| Pagination.StripSmall | src/app/routes/dashboard/BidStatusSearch.tsx:241-244 | with at most five pages the strip is exactly 1..lastPage, with no ellipsis |
| Pagination.StripShapes | src/app/routes/dashboard/BidStatusSearch.tsx:245-260 | with more than five pages the strip is [1,2,3,4,…,last] for currentPage ≤ 3, [1,…,last-3..last] near the end, and [1,…,c-1,c,c+1,…,last] otherwise |
| Pagination.HeadWindowWellFormed | src/app/routes/dashboard/BidStatusSearch.tsx:246-249 | the head window is a well-formed strip for pages 1..3 |
| Pagination.TailWindowWellFormed | src/app/routes/dashboard/BidStatusSearch.tsx:250-253 | the tail window is a well-formed strip for the last three pages |
| Pagination.MiddleWindowWellFormed | src/app/routes/dashboard/BidStatusSearch.tsx:254-260 | the middle window is a well-formed strip for every page strictly between them |
| Pagination.StripWellFormed | src/app/routes/dashboard/BidStatusSearch.tsx:237-264 | every strip for a current page in 1..lastPage is well formed (see GetPageNumbers) |
| Pagination.ShowingRange | src/app/routes/dashboard/BidStatusSearch.tsx:269 | the "Showing X to Y" upper end never exceeds the total; on a page that holds items the range is non-empty and spans at most perPage items |
| Pagination.ControlsStayInRange | src/app/routes/dashboard/BidStatusSearch.tsx:235-302 | no bar is rendered for a single page; every enabled control (Previous, Next, a page button) requests a page in 1..lastPage other than the current one, so neither page 0 nor lastPage+1 is ever requested |
| Credentials.CredentialStore.Save | src/app/routes/auth/login.tsx:85-87 | exactly one store receives the token: localStorage when persistent, sessionStorage otherwise, and the other store is untouched |
| Credentials.CredentialStore.ClearBoth | src/components/ProtectedRoute.tsx:65-66 | the token is removed from both stores |
| SessionGuard.Decide | src/components/ProtectedRoute.tsx:24-69 | no token leads to the login page; an ok reply with the Telegram message leads to Telegram verification; an ok reply with the Telegram message absent, success === true and data present is accepted with that data; every other outcome (thrown error, non-ok reply, a success other than true, missing data) is a rejection with a non-empty toast text |
| SessionGuard.TelegramTakesPrecedence | src/components/ProtectedRoute.tsx:44-50 | the Telegram message wins whatever the success flag says |
| SessionGuard.ProtectedRoute.constructor | src/components/ProtectedRoute.tsx:16 | the guard starts with isValid null and no user or admin context |
| SessionGuard.ProtectedRoute.VerifyToken | src/components/ProtectedRoute.tsx:22-73 | it runs once per mount. No token: it navigates to /login, sends nothing and leaves isValid null. Telegram: it navigates to /verify-telegram. Accepted: user := data.admin, admin := data and isValid := true. Rejected: both stores are cleared, an error toast is shown and it navigates to /login. isValid is never false |
| SessionGuard.ProtectedRoute.Render | src/components/ProtectedRoute.tsx:75-96 | the children render exactly when isValid is true, and the loader shell exactly while it is null |
| Login.BrowserName | src/app/routes/auth/login.tsx:25-31 | the browser is the first of Firefox, Chrome, Safari, Edg that the user agent contains, else Unknown (each of the five outcomes as an if-and-only-if) |
| Login.DeviceNameParts | src/app/routes/auth/login.tsx:33 | the device name is the platform, a space and one of the five browser names |
| Login.EdgeReportedAsChrome | src/app/routes/auth/login.tsx:26-29 | every user agent naming both Chrome and Edg but not Firefox is reported as Chrome, never as Edge |
| Login.GetDeviceIcon | src/app/routes/auth/login.tsx:36-41 | the phone icon exactly when the user agent contains Mobile, Android, iPhone, iPad or Tablet |
| Login.LoginPage.constructor | src/app/routes/auth/login.tsx:45-48 | an empty form with remember-me off and not loading |
| Login.LoginPage.Mount | src/app/routes/auth/login.tsx:56-61 | only a non-empty localStorage token redirects to /dashboard; a sessionStorage token does not |
| Login.LoginPage.SetCredentials | src/app/routes/auth/login.tsx:211-248 | the typed email and password are kept |
| Login.LoginPage.ToggleRememberMe | src/app/routes/auth/login.tsx:280 | remember-me flips |
| Login.LoginPage.StartSubmit | src/app/routes/auth/login.tsx:63-74 | loading is set and the login request carries the email, the password and the device name |
| Login.LoginPage.SettleSubmit | src/app/routes/auth/login.tsx:76-102 | an ok reply with success === true stores the token in the single store remember-me selects and toasts success; a non-ok reply or a thrown error stores nothing and toasts the server message or its fallback; an ok reply whose success is not true stores nothing; loading ends false |
| BidSearch.BadgeStatus | src/app/routes/dashboard/BidStatusSearch.tsx:164-165 | a known status shows its own badge, and any other text shows the "failed" badge |
| BidSearch.BadgeOfKey | src/app/routes/dashboard/BidStatusSearch.tsx:39-65 | each configured status maps back to itself |
| BidSearch.PagingAfter | src/app/routes/dashboard/BidStatusSearch.tsx:100-110 | on success the counters come from the reply, with defaults 1/1/0/15 for missing or zero fields, and current, last and per-page are never 0; on failure the counters are kept |
| BidSearch.FetchOutcome | src/app/routes/dashboard/BidStatusSearch.tsx:81-113 | with no token nothing changes; otherwise loading ends false and the search counts as initiated; on success the bids are the reply's items, and on failure the bids are [] and the pagination is unchanged |
| BidSearch.Results | src/app/routes/dashboard/BidStatusSearch.tsx:398-422 | the overlay shows while loading; the empty state shows exactly when not loading with no bids; the pagination bar shows exactly for a non-empty list with more than one page; the summary "Found N bid(s)" (N = totalBids) shows exactly after a finished, initiated search with bids |
| BidSearch.ResultsExclusive | src/app/routes/dashboard/BidStatusSearch.tsx:312-325 | cards and the empty state never show together, nor a summary beside the empty state; before any search the empty state invites a search |
| BidSearch.FailedSearchShowsEmpty | src/app/routes/dashboard/BidStatusSearch.tsx:107-111 | after a failed fetch the empty state names the searched status, with no summary and no pagination bar |
| BidSearch.BidStatusSearch.constructor | src/app/routes/dashboard/BidStatusSearch.tsx:68-77 | initial state: pending, no bids, page 1 of 1, 0 total, 15 per page, no search initiated |
| BidSearch.BidStatusSearch.SelectStatus | src/app/routes/dashboard/BidStatusSearch.tsx:373 | the filter changes only the status |
| BidSearch.BidStatusSearch.StartFetch | src/app/routes/dashboard/BidStatusSearch.tsx:81-93 | no token: an error toast and no state change; otherwise loading and searchInitiated are set and the status/page request is sent |
| BidSearch.BidStatusSearch.SettleFetch | src/app/routes/dashboard/BidStatusSearch.tsx:95-113 | bids and counters follow BidsAfter and PagingAfter, failure toasts, and loading ends false |
| BidSearch.BidStatusSearch.FetchBidsByStatus | src/app/routes/dashboard/BidStatusSearch.tsx:81-114 | the whole fetch: the new state is the fetch function of the old state, and the log adds the request and the failure toast |
| BidSearch.BidStatusSearch.Mount | src/app/routes/dashboard/BidStatusSearch.tsx:153-155 | the mount fetch is page 1 |
| BidSearch.BidStatusSearch.HandleSearch | src/app/routes/dashboard/BidStatusSearch.tsx:143-146 | search resets to page 1 and fetches page 1 |
| BidSearch.BidStatusSearch.HandlePageChange | src/app/routes/dashboard/BidStatusSearch.tsx:148-150 | a page change sets only currentPage |
| BidSearch.BidStatusSearch.ClickControl | src/app/routes/dashboard/BidStatusSearch.tsx:274-302 | a disabled control leaves the page; an enabled one moves to the page it names |
| BidSearch.BidStatusSearch.RunPageEffect | src/app/routes/dashboard/BidStatusSearch.tsx:158-162 | the effect acts only when currentPage changed, and fetches that page only once a search was initiated |
| BidSearch.BidStatusSearch.StartCancel | src/app/routes/dashboard/BidStatusSearch.tsx:116-124 | a declined confirm changes nothing; otherwise the id is in flight, the request is sent, and only that pending bid's button is disabled |
| BidSearch.BidStatusSearch.SettleCancel | src/app/routes/dashboard/BidStatusSearch.tsx:126-140 | any parsed reply toasts the server's verdict and then refetches the current page whether or not the server reported success; a thrown error toasts and does not refetch; the in-flight id is cleared in every case |
| BidSearch.BidStatusSearch.HandleCancel | src/app/routes/dashboard/BidStatusSearch.tsx:116-141 | the whole cancel: declined means no change; confirmed means request, toast, awaited refetch, and a cleared in-flight id; a thrown reply gives the request and the "Failed to cancel the bid." toast, keeps the rest of the state and skips the refetch |
| AskSearch.BadgeStatus | src/app/routes/dashboard/AskStatusSearch.tsx:133 | a known status (including "reversed") shows its own badge, and any other text shows the "failed" badge |
| AskSearch.BadgeOfKey | src/app/routes/dashboard/AskStatusSearch.tsx:29-60 | each configured status maps back to itself |
| AskSearch.Settled | src/app/routes/dashboard/AskStatusSearch.tsx:86-98 | after the reply loading is off; the asks are the reply's items on success and [] otherwise; nothing else changes |
| AskSearch.ResultsOf | src/app/routes/dashboard/AskStatusSearch.tsx:290-296 | loading state exactly while loading, the cards exactly for a finished non-empty list, otherwise the empty state with the text that depends on searchInitiated |
| AskSearch.Summary | src/app/routes/dashboard/AskStatusSearch.tsx:300-307 | the summary shows exactly when not loading and a search was initiated |
| AskSearch.SummaryAgreesWithResults | src/app/routes/dashboard/AskStatusSearch.tsx:290-307 | whenever the summary shows, "Found N ask(s)" counts exactly the cards shown, and "No asks found" sits above the empty state for the same status |
| AskSearch.AskStatusSearch.constructor | src/app/routes/dashboard/AskStatusSearch.tsx:64-68 | initial state: pending, no asks, nothing in flight, no search initiated |
| AskSearch.AskStatusSearch.SelectStatus | src/app/routes/dashboard/AskStatusSearch.tsx:263 | changing the select sets only the status and fetches nothing |
| AskSearch.AskStatusSearch.StartFetch | src/app/routes/dashboard/AskStatusSearch.tsx:72-84 | no token: an error toast and no state change; otherwise loading and searchInitiated are set and the status request is sent |
| AskSearch.AskStatusSearch.SettleFetch | src/app/routes/dashboard/AskStatusSearch.tsx:86-98 | the state follows Settled, and a failure toasts |
| AskSearch.AskStatusSearch.FetchAsksByStatus | src/app/routes/dashboard/AskStatusSearch.tsx:72-99 | the whole fetch, as run on mount (lines 128-130) and by the Search button (line 277) |
| AskSearch.AskStatusSearch.StartCancel | src/app/routes/dashboard/AskStatusSearch.tsx:101-109 | a declined confirm changes nothing; otherwise the id is in flight and only that pending ask's button is disabled |
| AskSearch.AskStatusSearch.SettleCancel | src/app/routes/dashboard/AskStatusSearch.tsx:111-124 | a refetch is started (not awaited) only when the server reports success; a reported failure or a thrown error only toasts; the in-flight id is cleared in every case |
| PeerStatus.FindTab | src/app/routes/dashboard/PeerStatusPage.tsx:173 | `find` returns nothing exactly when no tab has the value, and otherwise the first tab with it |
| PeerStatus.GetStatusConfig | src/app/routes/dashboard/PeerStatusPage.tsx:172-175 | the tab whose value is the status, otherwise the first ("awaiting_payment") tab |
| PeerStatus.TabConfigIsTab | src/app/routes/dashboard/PeerStatusPage.tsx:81-106 | the tab values are distinct, so each tab is the config of its own value |
| PeerStatus.BadgeText | src/app/routes/dashboard/PeerStatusPage.tsx:275 | the badge text is the status with every underscore replaced by a space, and the same length |
| PeerStatus.Endpoint | src/app/routes/dashboard/PeerStatusPage.tsx:136 | an explicit non-empty URL overrides `peers/{status}` |
| PeerStatus.PagingAfter | src/app/routes/dashboard/PeerStatusPage.tsx:146-158 | when success and data are truthy the pagination is replaced, with defaults 1/1/0/15 and the URLs as given; otherwise it is unchanged |
| PeerStatus.FetchToastOnlyOnError | src/app/routes/dashboard/PeerStatusPage.tsx:146-162 | an accepted reply raises no toast; a reply that is neither accepted nor an error clears the list without a toast |
| PeerStatus.Pager | src/app/routes/dashboard/PeerStatusPage.tsx:643-675 | hidden when last_page ≤ 1; otherwise it shows the range, and Previous/Next are each enabled exactly when their URL is present |
| PeerStatus.ContentOf | src/app/routes/dashboard/PeerStatusPage.tsx:759-763 | the loading state, then the empty state, then the table with its pager |
| PeerStatus.Fetched | src/app/routes/dashboard/PeerStatusPage.tsx:128-165 | with no token nothing changes; otherwise loading ends false; an accepted reply sets the peers to `data.data` or [] and replaces the pagination from the reply; a reply that is not accepted clears the peers and keeps the pagination |
| PeerStatus.AfterAction | src/app/routes/dashboard/PeerStatusPage.tsx:199-215 | the action kind is cleared in every case; success clears the selection and, for a rejection, closes the dialog and empties the reason; failure touches nothing else |
| PeerStatus.PeerStatusPage.constructor | src/app/routes/dashboard/PeerStatusPage.tsx:109-124 | initial state: awaiting_payment, no peers, the default pagination, nothing selected or in flight |
| PeerStatus.PeerStatusPage.StartFetchPeers | src/app/routes/dashboard/PeerStatusPage.tsx:128-137 | no token: an error toast and no state change; otherwise loading is set and the endpoint is requested |
| PeerStatus.PeerStatusPage.SettleFetchPeers | src/app/routes/dashboard/PeerStatusPage.tsx:141-165 | the state follows Fetched, and only the catch block toasts |
| PeerStatus.PeerStatusPage.FetchPeers | src/app/routes/dashboard/PeerStatusPage.tsx:128-166 | the whole fetch |
| PeerStatus.PeerStatusPage.SelectTab | src/app/routes/dashboard/PeerStatusPage.tsx:742 | a tab click sets the active status |
| PeerStatus.PeerStatusPage.RunStatusEffect | src/app/routes/dashboard/PeerStatusPage.tsx:168-170 | a changed active status (and the mount) fetches that status's first page |
| PeerStatus.PeerStatusPage.ClickPager | src/app/routes/dashboard/PeerStatusPage.tsx:653-668 | a disabled button does nothing; an enabled one fetches exactly the server's URL |
| PeerStatus.PeerStatusPage.SelectPeer | src/app/routes/dashboard/PeerStatusPage.tsx:283 | a row click selects the peer |
| PeerStatus.PeerStatusPage.SetRejectModal | src/app/routes/dashboard/PeerStatusPage.tsx:508 | opens or closes the reject dialog |
| PeerStatus.PeerStatusPage.SetRejectReason | src/app/routes/dashboard/PeerStatusPage.tsx:606 | the typed reason is kept |
| PeerStatus.PeerStatusPage.StartAction | src/app/routes/dashboard/PeerStatusPage.tsx:185-187 | a declined confirm changes nothing; otherwise actionLoading is that single kind, so that kind's button is disabled for every peer and no other kind's button is |
| PeerStatus.PeerStatusPage.SettleAction | src/app/routes/dashboard/PeerStatusPage.tsx:197-215 | the state follows AfterAction; on success a refetch of the active status is started (not awaited); the toast is the server's message or its fallback |
| PeerStatus.PeerStatusPage.HandleAction | src/app/routes/dashboard/PeerStatusPage.tsx:177-216 | the whole action: declined means no change; otherwise request, toast, and on success the reset plus the refetch start |
| PeerStatus.PeerStatusPage.ApprovePayment | src/app/routes/dashboard/PeerStatusPage.tsx:218-227 | declined changes nothing; after confirmation, a POST of status "approved" for the peer; a failed reply gives that request and its toast and clears only the in-flight kind; a successful one gives the request, the toast and the refetch start (or the token toast), and the state follows AfterAction with loading set by the refetch |
| PeerStatus.PeerStatusPage.Unpeer | src/app/routes/dashboard/PeerStatusPage.tsx:229-238 | declined changes nothing; after confirmation, the unpair request for the peer; a failed reply gives that request and its toast and clears only the in-flight kind; a successful one gives the request, the toast and the refetch start (or the token toast), and the state follows AfterAction with loading set by the refetch |
| PeerStatus.PeerStatusPage.BlockUser | src/app/routes/dashboard/PeerStatusPage.tsx:240-249 | declined changes nothing; after confirmation, the block request for the given user id, with the bidder or asker kind in flight; a failed reply gives that request and its toast and clears only the in-flight kind; a successful one gives the request, the toast and the refetch start (or the token toast), and the state follows AfterAction with loading set by the refetch |
| PeerStatus.PeerStatusPage.RejectPayment | src/app/routes/dashboard/PeerStatusPage.tsx:251-266 | a blank reason toasts and sends nothing; no selection sends nothing; otherwise, without confirmation, a POST of status "declined" with the reason as typed, then its toast; success closes the dialog, empties the reason, clears the selection and starts the refetch, failure clears only the in-flight kind |
| BotCast.Target | src/app/routes/dashboard/BotCastPage.tsx:72 | "all" when to is "all", otherwise the selected id's text, or "null" with no selection |
| BotCast.TargetIsRecipient | src/app/routes/dashboard/BotCastPage.tsx:72 | while the recipient agrees with the selection, the target is exactly `to`, so "null" is never sent |
| BotCast.SendFeedback | src/app/routes/dashboard/BotCastPage.tsx:77-92 | success feedback for a 2xx reply; otherwise an error with the server message or "Failed to send", or the thrown error's message |
| BotCast.BotCastPage.constructor | src/app/routes/dashboard/BotCastPage.tsx:22-31 | initial state: to "all", empty message, picker closed on page 1, no selection |
| BotCast.BotCastPage.SetMessage | src/app/routes/dashboard/BotCastPage.tsx:140 | the typed message is kept |
| BotCast.BotCastPage.SelectSendTo | src/app/routes/dashboard/BotCastPage.tsx:116-122 | choosing "all" sets to "all" and clears the selection; choosing "user" only opens the picker |
| BotCast.BotCastPage.PickUser | src/app/routes/dashboard/BotCastPage.tsx:191-195 | picking sets to := String(id) and selectedUser := id, and closes the picker |
| BotCast.BotCastPage.CloseUserModal | src/app/routes/dashboard/BotCastPage.tsx:222 | the picker closes |
| BotCast.BotCastPage.PickerPrevious | src/app/routes/dashboard/BotCastPage.tsx:205-206 | disabled on page 1, otherwise one page back, so the page never drops below 1 |
| BotCast.BotCastPage.PickerNext | src/app/routes/dashboard/BotCastPage.tsx:212 | one page forward, with no upper bound |
| BotCast.BotCastPage.StartFetchUsers | src/app/routes/dashboard/BotCastPage.tsx:33-41 | loadingUsers is set and the picker page is requested |
| BotCast.BotCastPage.SettleFetchUsers | src/app/routes/dashboard/BotCastPage.tsx:42-52 | a 2xx reply replaces the users; otherwise the previous users are kept and an error toast is shown; loadingUsers ends false |
| BotCast.BotCastPage.RunUsersEffect | src/app/routes/dashboard/BotCastPage.tsx:55-57 | when page or picker state changed, users are fetched only while the picker is open |
| BotCast.BotCastPage.StartSubmit | src/app/routes/dashboard/BotCastPage.tsx:59-75 | no emptiness check; loading is set, feedback cleared, and the message sent to the form's recipient |
| BotCast.BotCastPage.SettleSubmit | src/app/routes/dashboard/BotCastPage.tsx:77-95 | success resets the message, recipient and selection and toasts; failure keeps the form and sets the error feedback; loading ends false |
| BotCast.BotCastPage.HandleSubmit | src/app/routes/dashboard/BotCastPage.tsx:59-96 | the whole submit: the request to the old recipient with the old message; success then resets the recipient, selection and message and toasts the server message or its fallback; failure keeps the form and toasts nothing; the picker, its page, its users and the effect memo stay as they were |
| UserDetails.RecipientIdentifiesProfile | src/app/routes/dashboard/UserDetailsPage.tsx:92 | the `String(profile.id)` recipient identifies the profile's id |
| UserDetails.SendFeedback | src/app/routes/dashboard/UserDetailsPage.tsx:97-103 | success feedback for a 2xx reply; a non-2xx reply gives the server message or "Failed to send message"; a thrown error gives its message or "Error sending message" |
| UserDetails.PanelOf | src/app/routes/dashboard/UserDetailsPage.tsx:125-226 | loading, then error text, then the profile (with the composer exactly for a user with a Telegram id), otherwise "User not found" |
| UserDetails.UserDetailsPage.constructor | src/app/routes/dashboard/UserDetailsPage.tsx:43-50 | loading starts true, with no stats, no error and an empty composer |
| UserDetails.UserDetailsPage.StartFetch | src/app/routes/dashboard/UserDetailsPage.tsx:55-61 | the route id's details are requested |
| UserDetails.UserDetailsPage.SettleFetch | src/app/routes/dashboard/UserDetailsPage.tsx:63-70 | a 2xx reply stores `result.data`; a non-2xx reply or a thrown error sets the error text so that the error panel shows; loading ends false |
| UserDetails.UserDetailsPage.FetchUser | src/app/routes/dashboard/UserDetailsPage.tsx:52-74 | after the first fetch the page is no longer loading; it shows the reply's data or the error |
| UserDetails.UserDetailsPage.SetMessage | src/app/routes/dashboard/UserDetailsPage.tsx:201 | the typed message is kept |
| UserDetails.UserDetailsPage.StartSend | src/app/routes/dashboard/UserDetailsPage.tsx:78-95 | nothing happens without a Telegram id or with a blank message; otherwise sending is set, feedback cleared, and the untrimmed message sent to `String(profile.id)` |
| UserDetails.UserDetailsPage.SettleSend | src/app/routes/dashboard/UserDetailsPage.tsx:97-106 | success clears the message and toasts; failure keeps the message; the feedback follows SendFeedback; sending ends false |
| UserDetails.UserDetailsPage.HandleBotcastSend | src/app/routes/dashboard/UserDetailsPage.tsx:78-107 | the whole send: guarded no-op, or request, then clear on success or keep on failure |

## Left out

- HTTP, JSON and endpoint URLs: a server answer is an abstract `Reply`, and a body that fails to parse counts as a thrown error. Only the endpoint's identity is kept: `Common.Call` records which call went out and with which parameters.
- Concurrency and stale closures: each `Start…`/`Settle…` pair is taken in order. Overlapping requests, out-of-order replies, and a later settle that reads a field changed meanwhile (a closure would have captured an earlier render's status, page or token) are not modelled.
- `getAuthToken` (src/utils/auth.tsx) is not modelled. The token's presence is a `hasToken` flag on each operation that checks it. BotCastPage reads its token once at module load and never checks it, so its model takes no flag.
- `BidSearch.BidStatusSearch.FetchBidsByStatus` takes its status from the current field. The source's `currentStatus` parameter is always passed the current `status`.
- `PeerStatus.PeerStatusPage.RunStatusEffect`: the effect also re-runs when `fetchPeers` changes identity, which happens when the token changes. Token changes are not modelled.
- `UserDetails.UserDetailsPage.FetchUser` models the first run of the `[id]` effect. A re-run after a route id change (which keeps the old error and stats) is not modelled, and the route id is a constant of the page.
- `Login.LoginPage.SettleSubmit` leaves out the one-second `setTimeout` redirect to /dashboard after a successful login (login.tsx:92-94), because it is time and `window.location`.
- `BotCast.SendFeedback`: a thrown value that is not an `Error` ("Unknown error") is not modelled, since every modelled failure is an `Error` with a message.
- Numbers: ids, page numbers and counts are JavaScript doubles in the source and unbounded `int`s here. Integers of 2^53 and above, which a double cannot hold exactly, and the exponent form `String` gives from 10^21 on ("1e+21") are not modelled, so `Common.NatText` and `Common.IntText` describe `String(n)` only below those bounds.
- The STATUS_CONFIG lookups treat unknown texts as unknown. A status text equal to an inherited object property name (for example "constructor") would find that property instead, and this is not modelled.
- The confirmation prompts' texts, the toasts' timing, JSX markup, CSS classes, icons, number and date formatting, the sidebar's open/close state, and the password visibility toggle are presentation and are not modelled.
- dashboard.tsx (floating-point statistics and charts), Sidebar.tsx (links) and app-router.tsx (react-router's route table) are not part of this model.
