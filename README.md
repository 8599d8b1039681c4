# rapcio admin console: a Dafny model of its logic

rapcio's web console is a React single-page application. Administrators use it to manage users, players and sports clubs. Referees use it to check players by scanning a QR code. This project models the logic of that console and proves properties of the model:

- the QR verification session: the duplicate-scan guard, the roster lookup, camera rotation and the Proceed action;
- the shared data table: search, page count, page slice, and the Previous/Next and page-size controls;
- the `ui` and `auth` store slices, with `localStorage` as a shared object;
- the three "Add" forms: the required-field checks, the password rules, the payloads, the endpoint choice and the reset after success;
- the three list pages: id normalisation, the `isActive` default, local deletion and the search keys;
- the dashboard layout: the active-link computation, link highlighting, the click and logout handlers;
- the HTTP client: the base URL, the endpoint table and the bearer-token interceptor;
- the command-line countdown script.

The JavaScript primitives the code relies on are modelled in two modules of their own:

- `JsValues`: truthiness, `||`, `??`, `String(v)`, and `===` on records.
- `JsStrings`: `trim`, `toLowerCase`, `includes`, `padStart`, `split`/`join`, UTF-16 `length`, and integer `toString`.

Code that updates state step by step is modelled as classes whose methods have `modifies` clauses:

- component state: `ScanSession`, `Table`, the form pages and `ListPage`;
- reducers: `UiState` and `AuthState`;
- `localStorage`: `LocalStorage`.

Pure decisions are modelled as functions, with lemmas about them. Each component keeps its toasts in an appended log of (severity, message). Inputs stand in for everything outside the code:

- server answers: `Response`;
- the camera list and each decoded QR string;
- `JSON.parse`: a function parameter;
- the environment variable and the window width.

## Model

| member | source | states |
|---|---|---|
| JsValues.Or | src/pages/admin/players/AllPlayers.tsx:69 | `a \|\| b` is `a` when `a` is truthy and `b` otherwise, so it is truthy iff either operand is |
| JsValues.Coalesce | src/pages/admin/users/AllUsers.tsx:45 | `a ?? b` is `a` unless `a` is `null` or `undefined`, and `b` then; the result is nullish only if `b` is |
| JsValues.ToJsStringEmpty | src/components/DataTable.tsx:34 | `String(v)` is empty exactly for the empty string: `String(undefined)` and `String(null)` are non-empty, which is why the search applies `?? ""` first |
| JsStrings.TrimStartSuffix | src/pages/admin/users/AddUser.tsx:69-70 | `trimStart` keeps a suffix that does not start with whitespace and removes only whitespace |
| JsStrings.TrimEndPrefix | src/pages/admin/users/AddUser.tsx:69-70 | `trimEnd` keeps a prefix that does not end with whitespace and removes only whitespace |
| JsStrings.TrimSlice | src/pages/admin/users/AddUser.tsx:69-70 | `trim` yields a contiguous slice with no edge whitespace, and everything cut off on both sides is whitespace |
| JsStrings.TrimFixesClean | src/pages/admin/players/AddPlayer.tsx:79 | a string without edge whitespace is its own trim |
| JsStrings.TrimIdempotent | src/pages/admin/players/AddPlayer.tsx:79 | trimming twice equals trimming once |
| JsStrings.TrimEmptyIff | src/pages/admin/users/AddUser.tsx:69 | the trim is empty exactly when the text is all whitespace |
| JsStrings.ToLowerCaseIdempotent | src/components/DataTable.tsx:30 | lower-casing an already lower-cased string changes nothing |
| JsStrings.IncludesEmpty | src/components/DataTable.tsx:36 | every string includes the empty query |
| JsStrings.IncludesBound | src/components/DataTable.tsx:36 | only queries no longer than the text can be included |
| JsStrings.PadStart | count.js:12 | `padStart(n, c)` keeps a long enough string, else prefixes exactly `n - len` copies of `c` |
| JsStrings.Utf16Length | src/pages/admin/users/AddUser.tsx:55 | `length` counts UTF-16 units: between the number of characters and twice that |
| JsStrings.NatToString | count.js:12 | `toString()` of a natural number is a non-empty string of decimal digits |
| JsStrings.NatToStringValue | count.js:12 | reading the digits back gives the number |
| JsStrings.NatToStringShort | count.js:12 | the rendering has one digit exactly when the number is below ten |
| JsStrings.IntToString | count.js:12 | the rendering of an integer is non-empty |
| JsStrings.Split | src/layouts/DashboardLayout.tsx:48 | `split` returns at least one piece |
| JsStrings.SplitPiecesSeparatorFree | src/layouts/DashboardLayout.tsx:48 | no piece of a split contains the separator |
| JsStrings.JoinSplit | src/layouts/DashboardLayout.tsx:48 | joining the pieces with the separator gives back the string |
| JsStrings.SplitWithoutSeparator | src/layouts/DashboardLayout.tsx:48 | a string without the separator splits into itself alone |
| JsStrings.JoinSplitTail | src/layouts/DashboardLayout.tsx:48 | dropping the first piece and joining gives the text after the first separator |
| Storage.StoredOr | src/store/slices/uiSlice.ts:12 | `getItem(k) \|\| fallback`: the stored text when non-empty, else the fallback |
| Toasts.ServerMessageOr | src/pages/admin/users/AddUser.tsx:97-99 | the server's message when non-empty, else the page's fallback text |
| Network.EnvText | src/pages/admin/users/AddUser.tsx:79 | an unset `VITE_SERVER_URL` renders as "undefined" in the URL |
| Network.BearerHeader | src/pages/admin/users/AddUser.tsx:83 | the header is "Bearer " followed by the token, or by "null" without one |
| UiSlice.ToggledTheme | src/store/slices/uiSlice.ts:24 | the result is dark or light, and light exactly when the theme was dark |
| UiSlice.ToggleThemeInvolution | src/store/slices/uiSlice.ts:23-26 | on dark or light, toggling changes the theme and toggling twice restores it |
| UiSlice.ToggleThemeUnknownStoredTheme | src/store/slices/uiSlice.ts:12-24 | worked example: an unknown stored theme is not restored by two toggles: it ends light |
| UiSlice.UiState.constructor | src/store/slices/uiSlice.ts:11-17 | stored theme or "dark"; sidebar open iff width >= 768, mobile iff width < 768; no active link; not loading |
| UiSlice.UiState.ToggleTheme | src/store/slices/uiSlice.ts:23-26 | the theme toggles, the stored theme equals the new theme, no other field changes |
| UiSlice.UiState.ToggleSidebar | src/store/slices/uiSlice.ts:27-29 | negates `isSidebarOpen` only |
| UiSlice.UiState.SetSidebarState | src/store/slices/uiSlice.ts:30-32 | sets `isSidebarOpen` to the payload only |
| UiSlice.UiState.SetActiveSidebarLink | src/store/slices/uiSlice.ts:33-35 | sets `activeSidebarLink` to the payload only |
| UiSlice.UiState.SetIsLoading | src/store/slices/uiSlice.ts:36-38 | sets `isLoading` to the payload only |
| UiSlice.UiState.SetDeviceWidth | src/store/slices/uiSlice.ts:39-43 | mobile iff width < 768 and open iff width >= 768, so exactly one holds; theme, link and loading unchanged |
| UiSlice.ToggleSidebarTwice | src/store/slices/uiSlice.ts:27-29 | two sidebar toggles restore the sidebar |
| UiSlice.ToggleThemeTwice | src/store/slices/uiSlice.ts:23-26 | two theme toggles restore dark or light and leave it stored |
| AuthSlice.StoredToken | src/store/slices/authSlice.ts:19 | `getItem("token") \|\| null`: an empty stored token counts as none |
| AuthSlice.AuthState.constructor | src/store/slices/authSlice.ts:17-21 | the initial state reads storage: authenticated iff a non-empty token is stored, and the invariant holds |
| AuthSlice.AuthState.SetCredentials | src/store/slices/authSlice.ts:27-39 | sets user, token and the flag; stores the user's JSON and the token; keeps authenticated iff token held |
| AuthSlice.AuthState.Logout | src/store/slices/authSlice.ts:40-48 | clears user, token and flag, and removes both storage keys |
| AuthSlice.AuthState.UpdateUser | src/store/slices/authSlice.ts:49-52 | changes only the user and its stored JSON; token and flag untouched |
| AuthSlice.LogoutTwice | src/store/slices/authSlice.ts:40-48 | logging out twice leaves what logging out once leaves |
| AuthSlice.ReloadAfterCredentials | src/store/slices/authSlice.ts:17-39 | a reload after signing in with a non-empty token restores the same session |
| AuthSlice.ReloadAfterLogout | src/store/slices/authSlice.ts:17-48 | a reload after logout starts signed out |
| DataTable.Filter | src/components/DataTable.tsx:29-40 | keeps exactly the rows some search key matches, as an order-preserving subsequence of the data |
| DataTable.FilterCount | src/components/DataTable.tsx:32-38 | each kept row appears exactly as often as in the data; rows no key matches do not appear |
| DataTable.FilterAppend | src/components/DataTable.tsx:32-38 | filtering distributes over concatenation |
| DataTable.FilterEmptyQuery | src/components/DataTable.tsx:30-36 | with at least one key, the empty query keeps every row |
| DataTable.FilterNoKeys | src/components/DataTable.tsx:33 | with no search keys nothing matches |
| DataTable.FilterQueryCaseInsensitive | src/components/DataTable.tsx:30-36 | the query's case does not change the result |
| DataTable.TotalPages | src/components/DataTable.tsx:43 | `Math.ceil(n / k)`: the fewest pages of `k` rows holding `n` rows |
| DataTable.JsSlice | src/components/DataTable.tsx:44-47 | within bounds, `slice` is the sub-sequence between them |
| DataTable.PageRowsWindow | src/components/DataTable.tsx:44-47 | a page has at most `k` rows, all from the filtered list, namely the rows `(page-1)*k` up to `page*k` |
| DataTable.PageRowsNonEmpty | src/components/DataTable.tsx:43-47 | every page from 1 to the page count shows at least one row |
| DataTable.NextEnabledWithNoRows | src/components/DataTable.tsx:150-152 | as written, with no rows the page count is 0 and Next stays enabled on page 1 |
| DataTable.NextIntendedStaysInRange | src/components/DataTable.tsx:150-152 | the corrected guard never lets Next pass the last page, and agrees with the written guard below it |
| DataTable.Table.constructor | src/components/DataTable.tsx:21-26 | page 1, the first page-size option, empty query, the rows filtered |
| DataTable.Table.SetSearchQuery | src/components/DataTable.tsx:29-40 | the filter runs again for the new query and the page stays |
| DataTable.Table.SetData | src/components/DataTable.tsx:29-40 | the filter runs again for the new data and the page stays |
| DataTable.Table.SetEntriesPerPage | src/components/DataTable.tsx:49-52 | a different page size resets to page 1; the same size keeps the page |
| DataTable.Table.PreviousPage | src/components/DataTable.tsx:136-138 | disabled on page 1, otherwise one page back |
| DataTable.Table.NextPage | src/components/DataTable.tsx:150-152 | as written: one page on unless exactly on the last page; from below the last page it stays within the page count |
| DataTable.NextOnEmptyResult | src/components/DataTable.tsx:43-52 | a search matching nothing leaves page 1 of 0, and a click on Next shows page 2 of 0 |
| DataTable.DefaultTable | src/components/DataTable.tsx:17-26 | the default table shows page 1 with five rows per page, over all rows |
| Forms.MissingFields | src/pages/admin/users/AddUser.tsx:45-48 | lists exactly the blank required fields, and is empty iff every required field is present |
| Forms.TrimAll | src/pages/admin/players/AddPlayer.tsx:77-81 | the payload has exactly the form's keys |
| Forms.BuildTrimmedPayload | src/pages/admin/players/AddPlayer.tsx:77-81 | the `reduce` over the keys builds exactly the trimmed form |
| Forms.TrimAllClean | src/pages/admin/players/AddPlayer.tsx:77-81 | no payload value has edge whitespace |
| Forms.TrimAllIdempotent | src/pages/admin/players/AddPlayer.tsx:77-81 | trimming a payload again changes nothing |
| Forms.TrimAllBlankField | src/pages/admin/players/AddPlayer.tsx:79 | a field of whitespace is sent as "" |
| AddUser.Validate | src/pages/admin/users/AddUser.tsx:45-63 | the form passes iff all five fields are present, the password has at least 8 UTF-16 units, and the confirmation is equal |
| AddUser.ValidationOrder | src/pages/admin/users/AddUser.tsx:45-63 | blank fields are reported first, then a short password, then a mismatch |
| AddUser.PassedFormHasFields | src/pages/admin/users/AddUser.tsx:45-53 | a passing form holds every required key |
| AddUser.Payload | src/pages/admin/users/AddUser.tsx:68-72 | the body has exactly the keys name, email and password: name and email trimmed, password as typed |
| AddUser.SignupEndpoint | src/pages/admin/users/AddUser.tsx:74-76 | the admin endpoint iff the role is "administrator", the referee endpoint otherwise |
| AddUser.AddUserPage.constructor | src/pages/admin/users/AddUser.tsx:15-21 | the form starts with the five fields empty |
| AddUser.AddUserPage.HandleInputChange | src/pages/admin/users/AddUser.tsx:32-40 | only the named field changes |
| AddUser.AddUserPage.HandleSubmit | src/pages/admin/users/AddUser.tsx:42-105 | a failing form raises its message and sends nothing; a passing one posts the payload to the role's endpoint with loading back off |
| AddUser.AddUserPage.Send | src/pages/admin/users/AddUser.tsx:65-104 | posts the payload to the role's endpoint with the bearer header; loading is off afterwards |
| AddUser.AddUserPage.Settle | src/pages/admin/users/AddUser.tsx:88-101 | success resets the form and raises the success notice; failure keeps the form and raises the server's or the fixed message |
| AddUser.WhitespaceNameSentEmpty | src/pages/admin/users/AddUser.tsx:45-70 | the required check uses untrimmed text, so a name of spaces passes and is sent as "" |
| AddUser.AstralPasswordLongEnough | src/pages/admin/users/AddUser.tsx:55-58 | worked example: four characters outside the Basic Multilingual Plane are a long enough password |
| AddUser.RoleIsCaseSensitive | src/pages/admin/users/AddUser.tsx:74-76 | worked example: both offered roles reach their endpoints; "Administrator" reaches the referee endpoint |
| AddPlayer.Validate | src/pages/admin/players/AddPlayer.tsx:62-70 | the form passes iff no field it holds is blank |
| AddPlayer.AddPlayerPage.constructor | src/pages/admin/players/AddPlayer.tsx:15-29 | the form starts with the thirteen fields empty |
| AddPlayer.AddPlayerPage.HandleInputChange | src/pages/admin/players/AddPlayer.tsx:35-43 | only the named field changes |
| AddPlayer.AddPlayerPage.HandleDateChange | src/pages/admin/players/AddPlayer.tsx:45-50 | only `dateOfBirth` changes |
| AddPlayer.AddPlayerPage.HandleGenderChange | src/pages/admin/players/AddPlayer.tsx:52-57 | only `gender` changes |
| AddPlayer.AddPlayerPage.HandleSubmit | src/pages/admin/players/AddPlayer.tsx:59-114 | a blank field raises the message and sends nothing; otherwise the trimmed form goes to `/players` and loading is off again |
| AddPlayer.AddPlayerPage.Send | src/pages/admin/players/AddPlayer.tsx:72-113 | posts the trimmed form with the bearer header; loading is off afterwards |
| AddPlayer.AddPlayerPage.Settle | src/pages/admin/players/AddPlayer.tsx:90-110 | success resets every field to "" and raises the success notice; failure keeps the form |
| AddPlayer.EmptyFormRejected | src/pages/admin/players/AddPlayer.tsx:15-70 | the cleared form fails validation |
| AddPlayer.WhitespaceFieldSentEmpty | src/pages/admin/players/AddPlayer.tsx:62-81 | a field of spaces passes the check and is sent as "" |
| AddSportsClub.Validate | src/pages/admin/sportsClubs/AddSportsClub.tsx:38-50 | the form passes iff club name, email and description are present |
| AddSportsClub.AddSportsClubPage.constructor | src/pages/admin/sportsClubs/AddSportsClub.tsx:14-18 | the form starts with the three fields empty |
| AddSportsClub.AddSportsClubPage.HandleInputChange | src/pages/admin/sportsClubs/AddSportsClub.tsx:24-32 | only the named field changes |
| AddSportsClub.AddSportsClubPage.HandleSubmit | src/pages/admin/sportsClubs/AddSportsClub.tsx:34-83 | a blank required field raises the message and sends nothing; otherwise every field goes trimmed to `/clubs` |
| AddSportsClub.AddSportsClubPage.Send | src/pages/admin/sportsClubs/AddSportsClub.tsx:52-82 | posts the trimmed form with the bearer header; loading is off afterwards |
| AddSportsClub.AddSportsClubPage.Settle | src/pages/admin/sportsClubs/AddSportsClub.tsx:69-79 | success resets the three fields and raises the success notice; failure keeps the form |
| AddSportsClub.ExtraFieldSent | src/pages/admin/sportsClubs/AddSportsClub.tsx:24-60 | a non-required field added by the change handler may be blank and is still sent |
| ListPages.FetchFailedMessage | src/pages/admin/users/AllUsers.tsx:54-55 | users always show their fixed text; players and clubs prefer the server's message |
| ListPages.WithId | src/pages/admin/players/AllPlayers.tsx:67-70 | `id` becomes `id` if truthy, else `_id`; every other field is unchanged |
| ListPages.WithActiveDefault | src/pages/admin/users/AllUsers.tsx:45 | a missing or null `isActive` becomes true; otherwise the record is unchanged |
| ListPages.NormalizeAll | src/pages/admin/users/AllUsers.tsx:42-46 | the same length and order, one normalised record per fetched record |
| ListPages.NormalizeIdempotent | src/pages/admin/users/AllUsers.tsx:42-46 | normalising twice equals normalising once |
| ListPages.ActiveDefaultKeepsFalse | src/pages/admin/users/AllUsers.tsx:45 | an explicit false survives; null and absent become true |
| ListPages.DeleteById | src/pages/admin/players/AllPlayers.tsx:95 | keeps exactly the records whose id differs from the pending id, in order and each as often as in the list |
| ListPages.DeleteByIdIdempotent | src/pages/admin/players/AllPlayers.tsx:93-98 | deleting the same id again removes nothing more |
| ListPages.DeleteUnknownId | src/pages/admin/players/AllPlayers.tsx:95 | an id no record carries leaves the list as it was |
| ListPages.ClubDescriptionNotSearched | src/pages/admin/sportsClubs/AllSportsClubs.tsx:128 | editing a club's description never changes whether it is found |
| ListPages.UserWithoutPhone | src/pages/admin/users/AllUsers.tsx:133 | a user without a phone number is searched on name and email only |
| ListPages.ListPage.constructor | src/pages/admin/players/AllPlayers.tsx:53 | no items, no pending deletion, no notices |
| ListPages.PlayersFetchReportsFailure | src/pages/admin/players/AllPlayers.tsx:14-82 | as written, a successful players fetch raises "Failed to fetch players." and never the empty-list notice; users and clubs report an empty list |
| ListPages.IntendedFetchedNotices | src/pages/admin/players/AllPlayers.tsx:72-78 | the intended notices of a successful fetch: one empty-list notice exactly when the list is empty, nothing else |
| ListPages.IntendedFetchedNoticesAgree | src/pages/admin/players/AllPlayers.tsx:61-90 | the intended notices never report an error, equal what the users and clubs pages raise, and differ from the players page as written |
| ListPages.ListPage.Fetch | src/pages/admin/players/AllPlayers.tsx:61-90 | a fetched list replaces the items normalised and raises the notices as written (players: the fetch error; users and clubs: the empty-list notice if empty); a failure keeps the items and raises the page's error; loading is off again |
| ListPages.ListPage.RequestDelete | src/pages/admin/players/AllPlayers.tsx:151 | the row's id becomes the pending deletion |
| ListPages.ListPage.CancelDelete | src/pages/admin/players/AllPlayers.tsx:185 | the dialog closes, the list is unchanged |
| ListPages.ListPage.HandleDelete | src/pages/admin/players/AllPlayers.tsx:93-98 | without a truthy pending id nothing changes; otherwise the id's records leave the local list and the dialog closes |
| ListPages.ListPage.TableRows | src/pages/admin/players/AllPlayers.tsx:174-178 | the table shows exactly the items matching the page's search keys |
| ListPages.ConfirmTwice | src/pages/admin/players/AllPlayers.tsx:93-98 | confirming twice deletes once and closes the dialog |
| DashboardLayout.ActiveLinkAfterFirstSlash | src/layouts/DashboardLayout.tsx:48 | the active link is the text after the first "/" |
| DashboardLayout.ActiveLinkWithoutSlash | src/layouts/DashboardLayout.tsx:48 | a path without "/" gives the empty active link |
| DashboardLayout.ActiveLinkRoundTrip | src/layouts/DashboardLayout.tsx:48-85 | following a link to "/" + path makes path the active link |
| DashboardLayout.RenderSidebarLink | src/layouts/DashboardLayout.tsx:68-97 | "Log Out" and nothing else renders as the button; a link targets "/" + path and is highlighted iff it is the active link |
| DashboardLayout.FollowedLinkHighlighted | src/layouts/DashboardLayout.tsx:85-90 | after navigating through a link, that link is highlighted |
| DashboardLayout.OnLocationChange | src/layouts/DashboardLayout.tsx:47-60 | the active link is recomputed from the path and the width-derived flags are set |
| DashboardLayout.OnLinkClick | src/layouts/DashboardLayout.tsx:86 | the sidebar toggles only on a mobile device |
| DashboardLayout.HandleLogout | src/layouts/DashboardLayout.tsx:62-66 | removes the stored user and token and navigates to "/" |
| DashboardLayout.LogoutLeavesSessionInStore | src/layouts/DashboardLayout.tsx:62-66 | the layout's logout clears storage, yet the auth slice stays authenticated |
| Api.BaseUrl | src/utils/api.ts:4 | the environment value when set and non-empty, else "http://localhost:5000/api" |
| Api.ItemPathsAgree | src/utils/api.ts:33-52 | `getById`, `update` and `delete` give the same path, "/<resource>/" + id |
| Api.CreateIsListPath | src/utils/api.ts:39-52 | clubs and players create at their list path; users have no create path |
| Api.SignupPathsMatchForm | src/utils/api.ts:28-32 | the table's sign-up paths are the ones the "Add User" page chooses between |
| Api.Intercept | src/utils/api.ts:15-24 | adds `Authorization: Bearer <token>` iff a non-empty token is stored, else the config is unchanged |
| Api.RequestAfterSignIn | src/utils/api.ts:15-21 | after signing in with a non-empty token every request carries it |
| Api.RequestAfterLayoutLogout | src/utils/api.ts:15-21 | after the layout's logout no header is added |
| ScanQrCode.Destructure | src/pages/referee/ScanQRCode.tsx:116-117 | a syntax error or a null payload is unreadable; an object yields its two keys; another value yields two `undefined`s |
| ScanQrCode.FindPlayer | src/pages/referee/ScanQRCode.tsx:119-122 | none iff no record matches by club id or first name; otherwise the first match in roster order |
| ScanQrCode.FindPlayerIsFirst | src/pages/referee/ScanQRCode.tsx:120-122 | the record at the first matching index is the one found |
| ScanQrCode.AppGeneratedPayload | src/pages/referee/ScanQRCode.tsx:117-122 | a payload without the two keys matches the first record that lacks one of them, and nothing if every record has both |
| ScanQrCode.LookupScenarios | src/pages/referee/ScanQRCode.tsx:119-122 | worked example: a match by club id, a match by first name, and no match, on a one-player roster |
| ScanQrCode.FindCameraIndex | src/pages/referee/ScanQRCode.tsx:99 | -1 iff no camera has the id; otherwise the first camera with it |
| ScanQrCode.NextCameraIndex | src/pages/referee/ScanQRCode.tsx:100 | `(current + 1) % n` is a valid index; -1 and the last index wrap to 0 |
| ScanQrCode.RotateTimes | src/pages/referee/ScanQRCode.tsx:99-101 | any number of switches selects a valid camera |
| ScanQrCode.RotateTimesFromFirst | src/pages/referee/ScanQRCode.tsx:99-101 | `k` switches from the first camera select camera `k`, and `n` switches come back to it |
| ScanQrCode.ScanSession.constructor | src/pages/referee/ScanQRCode.tsx:12-18 | nothing scanned, no roster, no match, no camera, not scanning |
| ScanQrCode.ScanSession.LoadPlayers | src/pages/referee/ScanQRCode.tsx:21-31 | the fetched roster replaces the empty one; a failure raises the notice and keeps it |
| ScanQrCode.ScanSession.StartScanner | src/pages/referee/ScanQRCode.tsx:39-76 | no cameras: a notice and nothing starts; an error: a notice and not scanning; otherwise the cameras are kept and scanning begins; the notices appended are exactly those of the branch taken |
| ScanQrCode.ScanSession.StopScanner | src/pages/referee/ScanQRCode.tsx:78-86 | always ends with no scanner and not scanning; nothing else changes |
| ScanQrCode.ScanSession.SearchPlayer | src/pages/referee/ScanQRCode.tsx:114-135 | an unreadable payload only raises a notice; otherwise the match, or none, replaces the found player with the matching notice |
| ScanQrCode.ScanSession.HandleScanSuccess | src/pages/referee/ScanQRCode.tsx:88-93 | text equal to the stored result changes nothing; other text is stored, then looked up, appending exactly the lookup's notice |
| ScanQrCode.ScanSession.SwitchCamera | src/pages/referee/ScanQRCode.tsx:95-112 | a no-op without scanner, while idle or with fewer than two cameras; otherwise the next camera in circular order is selected, the restart's notices and then the switch notice are appended, and a failed restart leaves the camera list and stops scanning |
| ScanQrCode.ScanSession.HandleProceed | src/pages/referee/ScanQRCode.tsx:138-145 | proceeds iff a player is matched, otherwise only warns; no state changes |
| ScanQrCode.StopScannerTwice | src/pages/referee/ScanQRCode.tsx:78-86 | stopping twice is stopping once |
| ScanQrCode.SameTextTwice | src/pages/referee/ScanQRCode.tsx:88-93 | the same text delivered twice triggers one lookup and one notice |
| Countdown.InitialTime | count.js:3 | for whole minutes, a non-negative multiple of 60000 |
| Countdown.MinutesLeft | count.js:8 | `Math.floor(t / 60000)`: the largest `m` with `m * 60000 <= t` |
| Countdown.JsRemainder | count.js:9 | JavaScript's `%` takes the sign of the dividend and stays below the divisor in size |
| Countdown.SecondsLeft | count.js:9 | 0..59 for a non-negative time, -60..0 for a negative one |
| Countdown.WholeSecondsDecompose | count.js:8-9 | for whole seconds, minutes * 60000 + seconds * 1000 gives the time back |
| Countdown.FormatShape | count.js:12 | the display ends with ":" and exactly two second digits |
| Countdown.DisplayZero | count.js:12-16 | worked example: time zero displays "Time remaining: 00:00" |
| Countdown.TickTimes | count.js:19-22 | the first tick shows the starting time |
| Countdown.TickTimesCount | count.js:19-25 | from `t >= 0` there are `t / 1000 + 1` ticks, the last showing `t mod 1000` |
| Countdown.TickTimesDescend | count.js:19 | each tick shows 1000 less than the one before, none negative from `t >= 0` |
| Countdown.Lines | count.js:15-16 | two console operations per tick |
| Countdown.StartCountdown | count.js:1-27 | the loop issues exactly `Output(minutes * 60000)`: a clear and a display per tick, then the closing message |
| Countdown.OutputShape | count.js:15-25 | the output ends with the last tick's display and then "Countdown finished!" |
| Countdown.CountdownOfMinutes | count.js:3-25 | `m` minutes give `m * 60 + 1` displays, the last "00:00", then the closing message |

## Left out

- html5-qrcode (camera enumeration, decoding, rendering) is replaced by its inputs: the camera list and each decoded string.
- `JSON.parse` is a parameter of `SearchPlayer`/`HandleScanSuccess`; `AuthState.constructor` takes the parse of the stored user the same way.
- Network calls (axios, the service wrappers in `src/utils/api.ts` from line 55 on) are inputs: a `Response` per request. The `Content-Type` header is not modelled.
- React scheduling is not modelled. The model runs each handler against the current state, and batching is not captured. The source's decode callback is a closure from the render that started the scanner. It sees that render's `scanResult` and `players`, so the model does not capture two effects:
  - in the program the duplicate guard in `handleScanSuccess` does not fire, and every decoded frame starts a new lookup;
  - a scanner started before the roster arrived searches an empty roster.
- ScanQrCode.ScanSession.SwitchCamera: the "Failed to switch camera" branch is not modelled, because the modelled steps cannot throw. `startScanner` ignores the selected `cameraId` in the source, and so does the model.
- ScanQrCode.Matches compares records structurally; JavaScript `===` on two objects compares references.
- Numbers are integers: NaN, fractions and floating-point rounding are not modelled. `Countdown` takes whole minutes.
- JsStrings.ToLowerCase maps only ASCII and Latin-1 capitals; the rest of Unicode case mapping is not modelled.
- AuthSlice.UserJson follows `JSON.stringify` for the four string fields only. AuthSlice.ReloadAfterCredentials takes as given that `JSON.parse` inverts it.
- `console.clear`/`console.log` are a list of operations. A tick's display is recorded as `LogTime(t)`, and `Printed` renders it. `setInterval` timing is a loop.
- List pages and the store:
  - Only the users page stores its fetched list. The `users` reducer (`src/store/slices/userSlice.ts:22-25`) writes it to the store and to `localStorage`; the model keeps that store out.
  - The clubs page's `dispatch(setClubs(...))` does nothing, because `src/store/store.ts:7-14` registers no clubs reducer.
  - The players page's dispatch throws before anything is stored (see Findings).
- DataTable.Table.NextPage follows the guard as written. On page 1 of 0, or on a page past the count after a narrowing search, it moves further out of range. The corrected guard `NextDisabledIntended` is stated separately and proved by `NextIntendedStaysInRange`.
- Presentation (JSX, styling), the spinner, the modal's markup, routing and `ProtectedRoute` are not modelled.
- Toasts are an appended log of (severity, message); display timing is not modelled.

## Findings

| source | as written | input that shows it | evidently intended | confidence | as-written member | corrected member |
|---|---|---|---|---|---|---|
| src/components/DataTable.tsx:150-152 | Next is disabled only when `currentPage === totalPages` | a search that matches no row: `totalPages` is 0 on page 1, so Next stays enabled and leads to "Page 2 of 0" | Next disabled once the page is at or past the last page (`currentPage >= totalPages`) | medium; not executed | DataTable.NextEnabledWithNoRows | DataTable.NextIntendedStaysInRange |
| src/pages/admin/players/AllPlayers.tsx:73 | `dispatch(setPlayers(mappedPlayers))`, where the local state setter declared on line 52 hides the store action imported on line 14 | any successful fetch: `dispatch(undefined)` throws, the list is shown, and the catch raises "Failed to fetch players."; an empty list never gets its notice | dispatch the store's `setPlayers` action, store the list, and raise the empty-list notice only for an empty list, as the users and clubs pages do | high; not executed | ListPages.PlayersFetchReportsFailure | ListPages.IntendedFetchedNotices |
