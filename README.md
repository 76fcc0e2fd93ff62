# TDownloader core in Dafny

TDownloader is a local Telegram file downloader. It has two halves. A
Node backend (`backend/server.ts`) talks to TDLib and keeps track of
downloads. A React frontend (`App.tsx`, `services/api.ts`, `components/`)
lists chats and their files and manages downloads. The two halves talk
over a socket.

This project models the decision logic of both halves and proves what it
promises:

- `common.dfy` (module `Common`) holds the JavaScript building blocks the
  code relies on:
  - ASCII `toLowerCase` and `String.prototype.includes`;
  - `Array.prototype.filter` as an order-preserving sublist;
  - the truncating `%`;
  - decimal printing of ids.
- `types.dfy` (module `Types`) holds the shared enumerations and records
  of `types.ts`.
- `normalizer.dfy` (module `Normalizer`) holds the backend's record
  mapping:
  - `mapChat` and `mapMessageToFile`;
  - the authorization-state switch;
  - the `get_files` page mapping;
  - the `set_proxy` request.
- `tracker.dfy` (module `Tracker`) holds the backend's `activeDownloads`
  map and `currentAuthState`:
  - a class whose methods are the `updateFile`, `download_file` and
    `cancel_download` handlers;
  - specification functions for those handlers;
  - lemmas over whole histories of handler runs.
- `api.dfy` (module `Api`) holds the frontend `ApiService`: its listener
  registry, and the one socket message each command emits. It also gives
  the backend handler each message reaches.
- `app.dfy` (module `App`) holds the top-level component's state:
  - the `download_progress` upsert reducer;
  - the connection and auth handlers;
  - the screen choice.
- `filebrowser.dfy`, `downloadmanager.dfy`, `authscreen.dfy` and
  `sidebar.dfy` hold the component rules: filtering, selection, bulk
  download, counters, visible controls, login views and chat rows.
- `flow.dfy` (module `Flow`) links a listed file to the task reported for
  it once it is downloaded.

Callbacks are known only by identity, so they are opaque handles. Two
outcomes are boolean inputs: whether `cancelDownloadFile` succeeded (the
file stays tracked when it fails) and whether the file copy succeeded.
The other TDLib calls are reduced to the request they make or the data
they return; when one of those fails the handler only logs, apart from
the error messages listed under "## Left out". `Date.now()` is passed in
as the parameter `now`.

Three places where the code and the documented design disagree. The
model follows the code in each:

- `TdFile.messageId` and `TdFile.groupId` are declared as always present,
  with `groupId` documented as "0" without an album. The backend never
  sets either field, so the model keeps them `None`.
- `DownloadTask.progress` is documented as 0..100. The backend's value
  exceeds 100 exactly when the downloaded size reaches 100.5% of the
  expected size (`Tracker.RoundedPercentOver100`). The bound 0..100 is
  proved for downloaded ≤ expected.
- `DownloadTask.status` has six values, but the backend only ever sends
  `downloading` or `completed`.

## Model

| member | source | states |
|---|---|---|
| Types.AuthStateRoundTrip | types.ts:2-8 | each of the five auth states is in the enumeration and parses back from its wire string |
| Types.FileTypeRoundTrip | types.ts:20-26 | every file type has a filter tab, in declaration order, and its string value parses back to it |
| Types.TaskStatusRoundTrip | types.ts:50 | each of the six task statuses parses back from its wire string |
| Normalizer.MapChat | backend/server.ts:53-67 | 'channel' exactly for a supergroup with `is_channel`, 'group' for a basic group or a supergroup without it, 'private' otherwise; id, title and unread count carried over, and no photo; the last message is the text body when it is non-empty, and 'Media message' when there is no text body or it is empty; the timestamp is date·1000, or `now` without a last message or with date 0 |
| Normalizer.MapChatKinds | backend/server.ts:54-57 | the backend produces only the kinds private, group and channel, and a basic group is always 'group' |
| Normalizer.MapChats | backend/server.ts:238 | get_chats yields one chat per listed chat, with the same ids and titles in the same order |
| Normalizer.MapChatsAppend | backend/server.ts:238 | the mapping is element-wise: a concatenation maps to the concatenation of the maps, the empty list to itself, and one chat to its own `mapChat` |
| Normalizer.MapMessageToFile | backend/server.ts:70-110 | null exactly for content that is not photo, video, document or audio; a photo with no sizes throws; a mapped file has a concrete type and the message's date, and copies the provider file's id, unique id, local path and downloading flag and the content's minithumbnail |
| Normalizer.MapMessageToFileKinds | backend/server.ts:76-95 | photo→Image, video→Video, document→Document, audio→Music; a photo uses its last size; audio has no thumbnail; size is the expected size; no album id is set |
| Normalizer.MapMessageToFileName | backend/server.ts:102 | the content's own non-empty `file_name`, otherwise `file_<id>.jpg` for images and `file_<id>.dat` for the rest, so photos always get the synthesized name |
| Normalizer.SynthesizedNameInjective | backend/server.ts:102 | two fallback names are equal iff they have the same id and both or neither are images |
| Normalizer.GetFiles | backend/server.ts:246-266 | the page's files, or nothing emitted when some message throws; never more files than messages; every file has a concrete type |
| Normalizer.GetFilesSingle | backend/server.ts:258-260 | a one-message page gives that message's file, no file when it has no media, and no emission when its mapping throws |
| Normalizer.GetFilesAppend | backend/server.ts:258-262 | the files of a concatenated page are the files of each part in order, and nothing is emitted iff a part throws; with GetFilesSingle this fixes the result for every page |
| Normalizer.GetFilesCount | backend/server.ts:258-260 | the files are exactly one per media message of the page |
| Normalizer.GetFilesFromMessages | backend/server.ts:258-260 | each file is the mapping of some message of the page |
| Normalizer.MapAuthState | backend/server.ts:118-141 | the five handled TDLib states map to QR_CODE, AWAITING_CODE, AWAITING_PASSWORD, READY and LOGGED_OUT; a QR link exactly for other-device confirmation; every other state is LOGGED_OUT |
| Normalizer.MapAuthStateOnto | backend/server.ts:123-140 | every frontend auth state is produced by some TDLib state |
| Normalizer.ProxyRequestFor | backend/server.ts:293-315 | disabled means disableProxy; otherwise addProxy with the host and port, enabled, and the type chosen by the configured type; missing credentials sent as "", `http_only` false, the MTProto secret passed through |
| Tracker.RoundedPercentIsMathRound | backend/server.ts:152 | the integer percentage (200d+e)/(2e) equals `Math.round(d/e·100)` over exact arithmetic |
| Tracker.RoundedPercentBounds | backend/server.ts:152 | with downloaded ≤ expected the percentage is at most 100, and exactly 100 iff at least 99.5% has arrived |
| Tracker.RoundedPercentOver100 | backend/server.ts:152 | the percentage exceeds 100 iff the downloaded size is at least 100.5% of the expected size |
| Tracker.Progress | backend/server.ts:152 | 0 when the expected size is 0, otherwise the rounded percentage; at most 100 while downloaded ≤ expected |
| Tracker.ReportedName | backend/server.ts:159 | never empty: the requested file name when it is non-empty, and 'Unknown File' for an untracked file or an empty requested name |
| Tracker.ProgressEvent | backend/server.ts:157-165 | the task has the file's id, sizes and speed 0; its name is `ReportedName` ('Unknown File' when untracked) and its progress is `Progress` (0 without an expected size, within 0..100 while downloaded ≤ expected); status 'completed' iff the provider says completed, else 'downloading' |
| Tracker.AfterFileUpdate | backend/server.ts:167-181 | the entry is removed only when it was tracked, the download completed and the copy succeeded; no other key and no record changes |
| Tracker.AfterDownloadRequest | backend/server.ts:269-271 | the file is tracked with the requested name, size and start time, overwriting an earlier request; every other entry is unchanged |
| Tracker.AfterCancel | backend/server.ts:285-289 | the file is forgotten only when the provider call succeeded; nothing else changes |
| Tracker.DownloadTracker.OnAuthorizationState | backend/server.ts:118-144 | the broadcast update is the mapped state, and `currentAuthState` becomes it |
| Tracker.DownloadTracker.ReportAuthState | backend/server.ts:192-196 | a new connection and get_auth_state receive the current state without a QR link |
| Tracker.DownloadTracker.OnFileUpdate | backend/server.ts:147-183 | progress is reported iff the file is tracked or actively downloading; the map becomes `AfterFileUpdate`; download_complete is emitted iff a tracked download completes and its copy succeeds |
| Tracker.DownloadTracker.DownloadFile | backend/server.ts:269-283 | the map becomes `AfterDownloadRequest` before the provider is asked to download at priority 1 from offset 0 without limit, asynchronously |
| Tracker.DownloadTracker.CancelDownload | backend/server.ts:285-290 | the provider is asked to cancel (not only if pending), and the map becomes `AfterCancel` |
| Tracker.OnlyRequestsTrack | backend/server.ts:151-183 | a file nobody requested through download_file is never tracked, whatever updates and cancels arrive |
| Tracker.TrackedUntilReleased | backend/server.ts:168-180 | a tracked file keeps its record until a successful cancel or a completed update with a successful copy |
| Api.AfterOn | services/api.ts:56-59 | `on` appends the callback to the event's list, creating it if absent; other lists unchanged |
| Api.AfterOff | services/api.ts:61-64 | `off` removes every occurrence of the callback and keeps the rest in order with their multiplicities; no-op without a list; other lists unchanged |
| Api.OnThenOff | services/api.ts:56-64 | `on` then `off` of a callback not registered gives every list back unchanged |
| Api.ApiService.On | services/api.ts:56-59 | the registry becomes `AfterOn` |
| Api.ApiService.Off | services/api.ts:61-64 | the registry becomes `AfterOff` |
| Api.ApiService.EmitEvent | services/api.ts:66-70 | each registered callback is called exactly once with the data, in registration order; none without a list |
| Api.ApiService.Send | services/api.ts:74-130 | each command emits exactly one socket message |
| Api.Route | backend/server.ts:194-290 | a message reaches a backend handler only with the arguments its command sent |
| Api.WireRoute | services/api.ts:112-130 | every command arrives at its backend handler unchanged, except pause, resume and clear-completed, which no handler receives |
| Api.WireInjective | services/api.ts:74-130 | different commands emit different socket messages |
| App.ReplaceById | App.tsx:63 | the ids stay at the same positions; tasks with the reported id become the task, others are kept; with the id absent nothing changes; ids are unique afterwards iff before |
| App.UpsertExisting | App.tsx:61-63 | a known id is replaced in place; the length and all other entries are unchanged |
| App.UpsertNew | App.tsx:64-66 | an unknown id is appended at the end and the length grows by one |
| App.UpsertIds | App.tsx:60-67 | after an upsert the list holds the task; its ids are the old ones plus the task's; unique ids stay unique |
| App.UpsertIdempotent | App.tsx:60-67 | reporting the same task twice leaves the list as reporting it once |
| App.ApplyProgressIds | App.tsx:59-68 | after any run of progress events the list has one task per reported id and no id twice |
| App.ScreenFor | App.tsx:90-120 | the connecting screen iff the socket is down and loading; otherwise the login screen iff not READY; otherwise the main view |
| App.AppState.OnConnectionStatus | App.tsx:23-44 | `socketConnected` mirrors the flag; connect clears loading, checks the auth state and re-applies a saved proxy; disconnect sets loading |
| App.AppState.OnAuthUpdate | App.tsx:46-53 | the state is taken; the QR link is replaced only by a non-empty one; loading is cleared; the effect asks for chats when the state has just become READY (App.tsx:84-88) |
| App.AppState.OnChatsUpdate | App.tsx:55-57 | the chat list is replaced |
| App.AppState.SelectChat | App.tsx:125 | selecting a chat records its id |
| App.AppState.OnDownloadProgress | App.tsx:59-68 | the download list becomes the upsert, and stays free of duplicate ids |
| FileBrowser.SizeMatchesDivision | components/FileBrowser.tsx:50 | the byte comparison agrees with `size / 1024 / 1024 >= minSize` |
| FileBrowser.FilteredFiles | components/FileBrowser.tsx:47-52 | an order-preserving sublist holding exactly the files whose type matches the tab (ALL matches all), whose lowercased name contains the lowercased query, and whose size reaches the minimum, each kept as often as it occurs |
| FileBrowser.FilteredFilesUnfiltered | components/FileBrowser.tsx:47-52 | the ALL tab with an empty query and minimum 0 shows every file, in order |
| FileBrowser.FilteredFilesOfType | components/FileBrowser.tsx:48 | a concrete tab shows only files of that type |
| FileBrowser.Toggle | components/FileBrowser.tsx:54-60 | a selected id is removed in all its occurrences, and the other ids keep their order and their repeats; an unselected id is appended |
| FileBrowser.ToggleTwice | components/FileBrowser.tsx:54-60 | toggling twice restores which ids are selected, restores the list when the id was not selected, and otherwise leaves the id exactly once with every other id's count unchanged |
| FileBrowser.SelectAllTwice | components/FileBrowser.tsx:62-68 | from a selection of another length, select-all selects every visible file, and a second press clears it |
| FileBrowser.SelectAllComparesLengthsOnly | components/FileBrowser.tsx:63 | the test compares lengths only: a selection of other ids with the same length is cleared |
| FileBrowser.FindById | components/FileBrowser.tsx:72 | the first file with the id, or none exactly when no file has it |
| FileBrowser.DownloadsForSound | components/FileBrowser.tsx:70-77 | each download starts a selected, listed file; each selected id that names a file is downloaded; other ids are skipped |
| FileBrowser.DownloadsForAllFound | components/FileBrowser.tsx:70-77 | when every selected id names a file, exactly one download per selected id is issued |
| FileBrowser.StartDownloads | components/FileBrowser.tsx:71-76 | the loop issues exactly `DownloadsFor`, in selection order |
| FileBrowser.FileBrowserState.ChatChanged | components/FileBrowser.tsx:23-30 | for a truthy chat id: loading starts, files and selection are emptied, and the chat's files are requested; otherwise nothing changes |
| FileBrowser.FileBrowserState.OnFilesUpdate | components/FileBrowser.tsx:33-36 | the files are replaced and loading stops |
| FileBrowser.FileBrowserState.SetFilters | components/FileBrowser.tsx:123-150 | the tab, query and minimum are recorded; the visible list is the filter of the same files by them; with every filter cleared every file is visible |
| FileBrowser.FileBrowserState.ToggleSelection | components/FileBrowser.tsx:54-60 | the selection becomes `Toggle` of the old one |
| FileBrowser.FileBrowserState.HandleSelectAll | components/FileBrowser.tsx:62-68 | the selection becomes `SelectAll` over the visible files |
| FileBrowser.FileBrowserState.DownloadSelected | components/FileBrowser.tsx:70-78 | the selected downloads are issued, then the selection is emptied |
| DownloadManager.PanelShownAfterProgress | components/DownloadManager.tsx:13 | the panel renders nothing for an empty list, and is shown after any progress report |
| DownloadManager.CountsBounded | components/DownloadManager.tsx:15-16 | active plus completed never exceeds the number of tasks |
| DownloadManager.ClearCompletedOfferedIff | components/DownloadManager.tsx:52 | clear-completed is offered iff some task is completed |
| DownloadManager.ControlsConsistent | components/DownloadManager.tsx:79-105 | never both pause and resume; a pause or resume button exactly when the bar is shown; the bar implies cancel; a completed row offers nothing |
| DownloadManager.ReportedTaskControls | components/DownloadManager.tsx:79-93 | a task the backend reports offers pause, cancel and the bar until it completes, and never resume; pause and clear-completed reach no backend handler, while cancel does |
| AuthScreen.ActiveView | components/AuthScreen.tsx:51-55 | the code form iff AWAITING_CODE, the password form iff AWAITING_PASSWORD, otherwise the QR or phone view by the chosen method |
| AuthScreen.ExactlyOneView | components/AuthScreen.tsx:51-55 | exactly one of the four view conditions holds for every state and method; the toggle is shown exactly with the QR and phone views (components/AuthScreen.tsx:109) |
| AuthScreen.QrRequestedOnlyOnQrView | components/AuthScreen.tsx:24-28 | a QR code is requested iff the method is QR and the state is LOGGED_OUT, only while the QR view shows, never in QR_CODE |
| AuthScreen.AuthScreenState.Mount | components/AuthScreen.tsx:24-28 | on mount the effect requests a QR code iff the QR method meets LOGGED_OUT, and then the QR view shows |
| AuthScreen.AuthScreenState.ChooseMethod | components/AuthScreen.tsx:13-28 | choosing a method records it; a QR code is requested iff the method changed to QR while LOGGED_OUT |
| AuthScreen.AuthScreenState.OnProps | components/AuthScreen.tsx:18-28 | `currentQr` follows the link prop; a QR code is requested iff the auth state changed to LOGGED_OUT while the QR method is chosen |
| AuthScreen.AuthScreenState.BeginSubmit | components/AuthScreen.tsx:30-49 | a submit sets loading and sends its form's command |
| AuthScreen.AuthScreenState.FinishSubmit | components/AuthScreen.tsx:30-49 | loading is cleared after the awaited call |
| Common.ContainsIff | components/Sidebar.tsx:16 | `includes` holds exactly when the term occurs as a slice of the string at some index |
| Sidebar.FilteredChats | components/Sidebar.tsx:16 | an order-preserving sublist holding exactly the chats whose lowercased title contains the lowercased term, each as often as it occurs |
| Sidebar.FilteredChatsEmptyTerm | components/Sidebar.tsx:16 | an empty term keeps every chat, in order |
| Sidebar.FilteredChatsLongTerm | components/Sidebar.tsx:16 | a term longer than every title keeps no chat |
| Sidebar.AvatarColourAsWritten | components/Sidebar.tsx:67 | the colour exists only for a non-negative id or one divisible by 5, and is then a palette entry |
| Sidebar.AvatarColourUndefinedForNegativeId | components/Sidebar.tsx:67 | the id -1 indexes the palette at -1 and gets no colour |
| Sidebar.AvatarColour | components/Sidebar.tsx:67 | every id gets a palette entry |
| Sidebar.AvatarColourAgrees | components/Sidebar.tsx:67 | the intended colour equals the written one wherever that is defined, in particular for every non-negative id |
| Sidebar.RowForMappedChat | components/Sidebar.tsx:18-24 | for a chat as the backend maps it: Users icon exactly for a non-channel group, megaphone exactly for a channel, a single user otherwise; unread badge iff the unread count is positive (components/Sidebar.tsx:82); highlighted iff selected (components/Sidebar.tsx:64); the avatar colour is a palette entry, and for a non-negative id the one the code as written picks |
| Flow.ListedFileDownload | types.ts:45 | a listed file's download command reaches download_file unchanged; its updates are then reported with the file's id, name and expected size; the download list then holds a task with that id |

## Left out

- Sidebar.RowFor: rows use the corrected colour `Sidebar.AvatarColour`, not the colour as written (see "## Findings"); for a non-negative id the two agree (`Sidebar.RowForMappedChat`).
- Error replies are not modelled: `socket.emit('error', …)` when a phone number, code or password is refused (backend/server.ts:208, 214, 220) and when `addProxy` fails (backend/server.ts:316-318).
- FileBrowser.FileBrowserState.SetFilters: the minimum size is an integer; `parseInt` of an empty or non-numeric field gives NaN, which hides every file, and that is not modelled.

- Socket.io wiring (connect, disconnect, `io.emit`, `socket.emit`) is not modelled. Emitted events are return values, and the handler each message reaches is `Api.Route`.
- TDLib calls (`client.invoke`) are not modelled. Only the outcome of `cancelDownloadFile` is an input. Every other call is reduced to the request it makes or the data it returns: `loadChats`/`getChats`/`getChat` to the list of chats, `getChatHistory` to the page of messages.
- The file copy and the directory handling (`fs`, `path.join`) are not modelled. The copy's outcome is an input. `download_complete` carries the saved file name rather than the joined path.
- `formatSize`, `formatSpeed` and date/time formatting are not modelled, because they are floating-point and locale formatting.
- Tracker.Progress: the percentage is exact integer arithmetic. Floating-point rounding of `downloaded / expected * 100` is not modelled.
- Speed sampling does not exist in the code. The reported speed is always 0.
- Pause, resume and clear-completed commands are sent but have no backend handler. `Api.Route` gives None for them, and nothing is invented for them.
- The settings modal, `localStorage`, `window.location.reload` and `alert` are not modelled. A saved proxy configuration is an optional input to `App.AppState.OnConnectionStatus`. A saved value that fails to parse is treated as absent.
- The React effect lifecycle is modelled only for App's READY effect that asks for chats (`App.AppState.OnAuthUpdate`), the login screen's QR effect and its `qrLink` effect (`AuthScreen.AuthScreenState.Mount` and `OnProps`) and the file browser's chat effect (`FileBrowser.FileBrowserState.ChatChanged`). The first `checkAuthStatus` on mount, and registering and removing the `files_update` listener around a chat change, are left out. `ChatChanged` keeps only the request it makes.
- Api.ApiService.EmitEvent: returns the invocations it makes. It does not model a callback that changes the registry while the event is being delivered.
- JavaScript object keys such as `__proto__` are not modelled. The listener registry is a plain map from event names.
- Unicode case mapping is not modelled. Lowercasing is ASCII only.
- A `disableProxy` call that fails is not caught in the code. The model returns the request only.
- Scan epochs, pagination, album expansion and multiple accounts are not modelled, because they do not exist in the code. `get_files` reads one page of 50 messages.

## Findings

| source | as written | input that shows it | evidently intended | confidence | as-written member | corrected member |
|---|---|---|---|---|---|---|
| components/Sidebar.tsx:67 | the avatar class is the palette entry at `chat.id % 5`, and JavaScript's `%` is negative for a negative id | a chat with id -1 (TDLib group and channel ids are negative): index -1, the class is `undefined`, so the avatar has no background colour | every chat gets one of the five colours | high, not executed | Sidebar.AvatarColourUndefinedForNegativeId | Sidebar.AvatarColour |
