# chamada-app client core in Dafny

chamada-app is an attendance ("chamada") application. This project models
the React client's core logic:

- **Attendee's confirmation page** (`ConfirmPresence`): the render chain
  that picks one of four screens, the checks made before a presence is
  posted, the device id and the `"first"` flag kept in local storage, and
  the effects and handlers that change the page's state.
- **Geolocation hook** (`Geolocation`): `coords`, `loading` and `error` as
  a state machine driven by requests and by the browser's callbacks.
- **Administrator's dashboard** (`Dashboard`): the paged list of chamadas,
  the page buttons, and the "Criar Chamada" button.
- **Chamada editor** (`EditChamada`): the per-field edit flags, the change
  handler, custom-input editing, the status toggle and the save calls.
- **Authentication provider** (`AuthContext`): the token and profile, the
  bearer header on the HTTP client's defaults, the token in local storage,
  and the `isLoading` gate.
- **Admin login form** (`AdminLogin`): the empty-field guard, the call to
  `login`, and the message and navigation that follow.

Supporting modules:

- `Common`: `Option`, JavaScript string truthiness, and the HTTP error
  shape.
- `BrowserStorage`: local storage as a map, and `Stored`, the test that a
  key holds a truthy string.
- `ChamadaModel`: the chamada and custom-input records.
- `AuthContext.HeaderDefaults` stands for the HTTP client's shared default
  headers (the top level and its `common` section). It starts empty.

How the model is built:

- The confirmation page, the geolocation hook, the chamada editor, the
  authentication provider and the login form keep their state in a Dafny
  `class` whose fields its methods reassign. Every such method is tied by
  its postcondition to a pure function of the old state.
- The dashboard's state is the datatype `DashboardState`. Its handlers are
  pure functions from the old state to the new one.
- The properties are proved as lemmas about those functions.
- Backend answers, the browser's geolocation callbacks, the uuid generator
  and the IP lookup are parameters of the methods that receive them.

JavaScript truthiness is written out:

- An empty string is falsy.
- A coordinate of `0` is falsy: see `Geolocation.CoordPresent`.
- An empty array is truthy.

## Model

| member | source | states |
|---|---|---|
| Geolocation.Step | src/hooks/useGeolocation.tsx:15-41 | each event's effect on the hook: an unsupported request sets only the unsupported message; a supported request sets loading and clears the error; a fix stores both coordinates and keeps the error; a failure sets the failure message and keeps the coordinates; either callback ends loading |
| Geolocation.CoordsAreLastFix | src/hooks/useGeolocation.tsx:24-30 | after any sequence of events the coordinates are those of the last fix, or the initial ones when no fix came |
| Geolocation.LoadingIffPending | src/hooks/useGeolocation.tsx:16-35 | `loading` is true exactly when the last event that decides it was a supported request; only a supported request or a callback decides it, an unsupported request leaves it as it was, and with no such event `loading` keeps its starting value |
| Geolocation.ErrorIsLastReport | src/hooks/useGeolocation.tsx:16-36 | the error is the one left by the last event that touches it: the unsupported message, null after a supported request, or the failure message |
| Geolocation.NotLoadingAfterCallback | src/hooks/useGeolocation.tsx:30-35 | when the last event that decides `loading` is a callback, the hook is not loading, whatever unsupported requests followed it |
| Geolocation.GeolocationHook.constructor | src/hooks/useGeolocation.tsx:4-13 | null coordinates, not loading, no error |
| Geolocation.GeolocationHook.RequestLocation | src/hooks/useGeolocation.tsx:15-23 | the new state is `Step` of the old state with the request |
| Geolocation.GeolocationHook.OnPosition | src/hooks/useGeolocation.tsx:25-31 | the new state is `Step` of the old state with the fix |
| Geolocation.GeolocationHook.OnPositionError | src/hooks/useGeolocation.tsx:32-36 | the new state is `Step` of the old state with the failure |
| ConfirmPresence.ScreenOf | src/ConfirmPresence.tsx:138-237 | spinner iff loading or no chamada; the permission prompt iff otherwise `firstLoad`; the form iff otherwise both coordinates are truthy (else the location help) |
| ConfirmPresence.Validate | src/ConfirmPresence.tsx:55-77 | each refusal message holds exactly when its check is the first to fail (id, then IP, then null coordinates); otherwise the post goes to `/presence/<id>` with name, IP, uuid, `lag`, `long` and the custom values |
| ConfirmPresence.SuccessHidesForm | src/ConfirmPresence.tsx:254-323 | after success neither the form nor the id input is shown, and the form screen shows the success alert |
| ConfirmPresence.AlertsAfterSubmit | src/ConfirmPresence.tsx:55-85 | on the form screen, a refused submit or a rejected post with a message shows the error alert; an accepted post shows the success alert, no error alert and no form |
| ConfirmPresence.ZeroLatitudeDisagreement | src/ConfirmPresence.tsx:64-182 | a latitude of 0 keeps the form off screen, yet the submit check lets it through |
| ConfirmPresence.FormPassesLocationCheck | src/ConfirmPresence.tsx:55-182 | while the form is on screen the location check never refuses; with an id and an IP the presence is posted |
| ConfirmPresence.UuidNotChecked | src/ConfirmPresence.tsx:55-77 | the device uuid never changes whether a presence is posted, nor any refusal |
| ConfirmPresence.MountedStorage | src/ConfirmPresence.tsx:95-106 | the stored uuid is kept when truthy and replaced by the generated one otherwise; a truthy `"first"` is rewritten to `"true"`, a falsy one is left as it was; other keys are untouched |
| ConfirmPresence.DeviceIdReused | src/ConfirmPresence.tsx:96-106 | a second mount reads the id written by the first |
| ConfirmPresence.DeviceIdStable | src/ConfirmPresence.tsx:96-106 | once an id is stored, every later mount, however many, reads that same id |
| ConfirmPresence.FirstFlagNeverArmed | src/ConfirmPresence.tsx:101-104 | a storage without `"first"` never gets it, whatever the number of mounts |
| ConfirmPresence.ConfirmPresencePage.constructor | src/ConfirmPresence.tsx:38-53 | the page's initial state: `firstLoad` true, `id` from the route, empty name, IP and error, no chamada, no success |
| ConfirmPresence.ConfirmPresencePage.Mount | src/ConfirmPresence.tsx:95-125 | storage becomes `MountedStorage`, the uuid is read back, `firstLoad` drops when `"first"` was stored, a location request is made, and the chamada is fetched only when the route has an id |
| ConfirmPresence.ConfirmPresencePage.OnIpLookup | src/ConfirmPresence.tsx:108-120 | a successful lookup sets the IP; a failed one sets the IP-failure message instead |
| ConfirmPresence.ConfirmPresencePage.OnChamadaFetched | src/ConfirmPresence.tsx:88-93 | the chamada and its custom inputs are stored |
| ConfirmPresence.ConfirmPresencePage.SyncGeoError | src/ConfirmPresence.tsx:127-129 | a truthy hook error is copied into the displayed error; otherwise nothing changes |
| ConfirmPresence.ConfirmPresencePage.SyncCoords | src/ConfirmPresence.tsx:131-136 | truthy coordinates clear `firstLoad` and the error; otherwise nothing changes |
| ConfirmPresence.ConfirmPresencePage.AllowLocation | src/ConfirmPresence.tsx:171-174 | a location request is made and `firstLoad` is cleared |
| ConfirmPresence.ConfirmPresencePage.RetryLocation | src/ConfirmPresence.tsx:227-229 | a location request is made and nothing else changes |
| ConfirmPresence.ConfirmPresencePage.ChangeId | src/ConfirmPresence.tsx:266-270 | the typed id is stored and the details are always fetched again, with the typed id, or the route id when it is empty (None: an undefined id) |
| ConfirmPresence.ConfirmPresencePage.SetNome | src/ConfirmPresence.tsx:283-285 | the name is replaced |
| ConfirmPresence.ConfirmPresencePage.SetCustomValue | src/ConfirmPresence.tsx:299-303 | only the value of that input's id is replaced |
| ConfirmPresence.ConfirmPresencePage.ConfirmPresence | src/ConfirmPresence.tsx:55-77 | a refusal shows `Validate`'s message and posts nothing; otherwise exactly `Validate`'s request is posted and the error is unchanged |
| ConfirmPresence.ConfirmPresencePage.OnPresencePosted | src/ConfirmPresence.tsx:78-81 | the error is cleared and success is set |
| ConfirmPresence.ConfirmPresencePage.OnPresenceRejected | src/ConfirmPresence.tsx:82-85 | the server's message is shown |
| ConfirmPresence.FirstVisitScenario | src/ConfirmPresence.tsx:95-182 | a first visit goes spinner, permission prompt, then spinner again after "allow" |
| ConfirmPresence.DeniedThenRetryScenario | src/ConfirmPresence.tsx:127-237 | a denied location shows the help screen; a retry shows the spinner, then the form once a fix arrives |
| ConfirmPresence.OpenAndFill | src/ConfirmPresence.tsx:88-136 | a returning visitor's page after the IP lookup, the chamada fetch, the fix and the typed name: every state variable is given |
| ConfirmPresence.SubmitScenario | src/ConfirmPresence.tsx:55-125 | the submit is made from the form screen and posts to `/presence/abc123` with the typed name, the looked-up IP, the stored uuid and the fix; once the post succeeds the success alert is shown |
| Dashboard.FilterByInterval | src/Dashboard.tsx:74-79 | filtering rows by an interval of indices keeps exactly the slice of those indices, in order |
| Dashboard.PageRows | src/Dashboard.tsx:74-79 | the filter as written lists indices `10p` through `10p+8`, in order: at most nine rows per page |
| Dashboard.ListedIndices | src/Dashboard.tsx:74-79 | with the filter as written, index `i` is on page `p` iff `10p <= i <= 10p+8` |
| Dashboard.RowNineNeverListed | src/Dashboard.tsx:76-78 | an index ending in 9 is on no page |
| Dashboard.TenChamadasListNine | src/Dashboard.tsx:74-108 | ten chamadas give one page button and nine rows; the tenth chamada is never shown |
| Dashboard.IntendedPageRows | src/Dashboard.tsx:76-78 | the corrected filter lists indices `10p` through `10p+9`, in order |
| Dashboard.IntendedPagesPartition | src/Dashboard.tsx:74-108 | with the corrected filter every row is on exactly one page, `i / 10`, and that page has a button |
| Dashboard.PageCount | src/Dashboard.tsx:105-108 | `Math.ceil(n / 10)`: the least number of pages of ten holding `n` rows |
| Dashboard.PageLabels | src/Dashboard.tsx:105-108 | buttons labelled 1 through the page count; none for an empty list |
| Dashboard.ButtonsMatchPages | src/Dashboard.tsx:74-108 | a page has a button iff it lists a row, under both filters |
| Dashboard.VisibleRows | src/Dashboard.tsx:74-79 | the rows on screen are exactly the chamadas at indices `10 * page` through `10 * page + 8`, in order |
| Dashboard.SelectPage | src/Dashboard.tsx:111-114 | a click sets the page and keeps the list and the creation position, and exactly that button is highlighted |
| Dashboard.OnChamadasFetched | src/Dashboard.tsx:50-56 | the list is replaced only by a truthy result; nothing else changes |
| Dashboard.OnPositionFix | src/Dashboard.tsx:37-43 | the fix becomes the creation position; list and page unchanged |
| Dashboard.CriarChamada | src/Dashboard.tsx:26-47 | the create call takes the position held at the click, whatever the position request answers; the page then moves to `/chamada/<new id>`; a fix updates the state and nothing else |
| Dashboard.FixServesNextClick | src/Dashboard.tsx:26-47 | the fix requested by a click never changes that click's create call, and the next click uses it |
| Dashboard.CreateBeforeFixUsesZero | src/Dashboard.tsx:21-30 | the first chamada created from a fresh dashboard is at (0, 0), whatever the fetch, the page buttons and the position request did |
| EditChamada.Toggled | src/EditChamada.tsx:50-55 | the key's flag is negated (absent reads as false) and every other entry is kept |
| EditChamada.ToggleTwice | src/EditChamada.tsx:50-55 | toggling twice restores the flag; it restores the map when the key was there, and otherwise leaves the key set to false |
| EditChamada.ButtonsOutliveFlags | src/EditChamada.tsx:452-470 | after any toggle Save and Cancel stay on screen, even with every flag back to false |
| EditChamada.Changed | src/EditChamada.tsx:58-66 | no chamada stays no chamada; otherwise only the named field takes the typed text |
| EditChamada.LaterChangeWins | src/EditChamada.tsx:58-66 | of two changes of one field, the later wins |
| EditChamada.ChangesCommute | src/EditChamada.tsx:58-66 | changes of different fields commute |
| EditChamada.ReplaceById | src/EditChamada.tsx:321-323 | same length and ids; entries sharing the id become the entry, the rest are kept |
| EditChamada.WithLabel | src/EditChamada.tsx:319-325 | the edited entry, and every entry sharing its id, carries the new label; the others are unchanged |
| EditChamada.WithPlaceholder | src/EditChamada.tsx:346-352 | likewise for the placeholder |
| EditChamada.ReplaceByIdIdempotent | src/EditChamada.tsx:321-323 | replacing by id twice is replacing once |
| EditChamada.UniqueIdsTouchOneEntry | src/EditChamada.tsx:319-325 | with unique ids, a label edit changes that one entry alone |
| EditChamada.ChamadaEditor.constructor | src/EditChamada.tsx:43-47 | no flags, no chamada, no custom inputs |
| EditChamada.ChamadaEditor.ToggleEdit | src/EditChamada.tsx:50-55 | the flags become `Toggled` |
| EditChamada.ChamadaEditor.HandleChange | src/EditChamada.tsx:58-66 | the chamada becomes `Changed` |
| EditChamada.ChamadaEditor.SaveAllChanges | src/EditChamada.tsx:107-120 | without an id or a chamada nothing happens; otherwise the flags are cleared and the chamada with the custom inputs is sent |
| EditChamada.ChamadaEditor.Cancel | src/EditChamada.tsx:461-468 | "Cancelar" makes the same call as "Salvar": without an id or a chamada nothing happens; otherwise the flags are cleared and the edits are sent, not discarded |
| EditChamada.ChamadaEditor.ToggleChamadaStatus | src/EditChamada.tsx:69-77 | with an id and a chamada, `ativa` is flipped and the flipped chamada is saved; otherwise nothing happens |
| EditChamada.ChamadaEditor.HandleAddInput | src/EditChamada.tsx:79-85 | with an id, the created input is appended and the `customInputs` flag toggled |
| EditChamada.ChamadaEditor.HandleDeleteInput | src/EditChamada.tsx:87-93 | the inputs become the list the service returns (unchanged for an empty id) |
| EditChamada.ChamadaEditor.EditLabel | src/EditChamada.tsx:319-325 | the inputs become `WithLabel` |
| EditChamada.ChamadaEditor.EditPlaceholder | src/EditChamada.tsx:346-352 | the inputs become `WithPlaceholder` |
| EditChamada.ChamadaEditor.MarkerDragEnd | src/EditChamada.tsx:159-167 | without a position nothing changes; otherwise `lag` and `long` take the position's text and their flags are toggled |
| EditChamada.ChamadaEditor.OnChamadaLoaded | src/EditChamada.tsx:143-146 | the fetched chamada replaces the edited one |
| EditChamada.ChamadaEditor.OnPresencesLoaded | src/EditChamada.tsx:147-152 | the custom inputs become the fetched ones |
| EditChamada.DragScenario | src/EditChamada.tsx:159-167 | a drag on a fresh editor shows Save and Cancel and puts `lag` and `long` in edit mode |
| AuthContext.LoggedOut | src/contexts/AuthContext.tsx:39-43 | token and user cleared, only the `common` bearer header deleted; the top-level header and the stored token are kept |
| AuthContext.SavedUserInfo | src/contexts/AuthContext.tsx:68-77 | true, with the user set, exactly when a profile came back; otherwise false and nothing changes |
| AuthContext.LoggedIn | src/contexts/AuthContext.tsx:26-37 | always logs out first; a rejected call rejects; no body resolves to false; a token resolves to true after setting the token, the top-level header and the stored token, whatever the profile fetch gives, with only the `common` bearer header removed and `isLoading` kept |
| AuthContext.LoadedUser | src/contexts/AuthContext.tsx:45-66 | loading ends; a stored token is restored into the `common` header and dropped again by logout when no profile comes back, leaving every other `common` header as it was; no stored token changes nothing else |
| AuthContext.LogoutKeepsLoginHeader | src/contexts/AuthContext.tsx:26-43 | after login then logout, the bearer header from login is still installed and the token still stored |
| AuthContext.FailedLoginLeavesNoToken | src/contexts/AuthContext.tsx:26-30 | a login without a token leaves no token or user and does not touch storage |
| AuthContext.RestartRestoresToken | src/contexts/AuthContext.tsx:26-66 | a restart after login restores the same token and a profile, and shows the children |
| AuthContext.AuthProvider.constructor | src/contexts/AuthContext.tsx:22-24 | no token, no user, loading |
| AuthContext.AuthProvider.Logout | src/contexts/AuthContext.tsx:39-43 | the state becomes `LoggedOut` |
| AuthContext.AuthProvider.SaveUserInfo | src/contexts/AuthContext.tsx:68-77 | state and result are `SavedUserInfo` |
| AuthContext.AuthProvider.Login | src/contexts/AuthContext.tsx:26-37 | state and outcome are `LoggedIn` |
| AuthContext.AuthProvider.LoadUser | src/contexts/AuthContext.tsx:45-66 | the state becomes `LoadedUser` |
| AdminLogin.Settled | src/AdminLogin.tsx:22-30 | on resolution the message is the stringified result and navigation to "/" happens iff it is true; on rejection the stringified error overwrites the server message and there is no navigation |
| AdminLogin.NavigateIffTokenReceived | src/AdminLogin.tsx:22-26 | the form navigates home iff the login call returned a token, iff the provider then holds a token |
| AdminLogin.AdminLoginForm.constructor | src/AdminLogin.tsx:12-14 | empty username, password and message |
| AdminLogin.AdminLoginForm.SetUsername | src/AdminLogin.tsx:44 | the username becomes the typed text |
| AdminLogin.AdminLoginForm.SetPassword | src/AdminLogin.tsx:55 | the password becomes the typed text |
| AdminLogin.AdminLoginForm.HandleLogin | src/AdminLogin.tsx:16-31 | an empty field shows the fill-in message and leaves the provider untouched; otherwise `login` is called once and message and navigation are `Settled` of its outcome |

## Left out

- Network and services:
  - HTTP requests, the API base URL and the services' own error handling
    are not modelled. Their answers are method parameters.
  - `getChamada`, `getAllChamadas`, `createChamada`, `addCustomInput`,
    `deleteCustomInput` and `updateChamada` can return an error string in
    place of data. The pages would then use that string: a failed create
    navigates to `/chamada/undefined`, and a failed add appends the string
    to the custom inputs. This case is not modelled.
  - `ConfirmPresence.ConfirmPresencePage.OnPresenceRejected`: a rejection
    with no `err.response` would throw inside the handler. That case is
    not modelled.
- Browser services:
  - The uuid v4 generator is a parameter.
  - Whether `navigator.geolocation` exists is a parameter.
  - The ipify lookup is a parameter.
  - The geolocation options (high accuracy, 10 s timeout) are not
    modelled.
- Numbers and dates:
  - Coordinates are `real`. Floating point, NaN and `Number.toString` are
    not modelled.
  - The marker-drag position arrives already formatted as text.
  - The date and time pickers, `updateTime`, `getStartDate` and
    `getEndDate` are not modelled.
- React:
  - The model does not capture re-rendering, effect scheduling or the
    interleaving of asynchronous callbacks. Each handler and effect is one
    atomic step.
  - The in-place mutations are modelled as updates of values:
    - `prev[input._id] = ...` in src/ConfirmPresence.tsx:300-303;
    - `newChamada.ativa = ...` in src/EditChamada.tsx:72-74;
    - `input.label = ...` and `input.placeholder = ...` in
      src/EditChamada.tsx:320 and 347.
    React's skipping of a re-render when the same object is set again, and
    the aliasing between the edited object and the list, are therefore not
    captured.
- `EditChamada.ChamadaEditor.SaveAllChanges`:
  - It returns the update request it sends. The backend's answer and the
    reload (`handleLoadChamada`) are delivered separately through
    `OnChamadaLoaded` and `OnPresencesLoaded`.
  - The presences list itself is not kept.
- Rendering and routing:
  - The Google Maps component, the clipboard, the presence table, the
    route guard and the router (src/main.tsx,
    src/hooks/useProtectedRoute.tsx) are not part of this model.
  - `AuthContext.AdminProfile` keeps only an id and a username, because
    src/models/UserModel is not part of this model.
- `ConfirmPresence.PageState` leaves out the hook's error. The effect
  that copies it (`SyncGeoError`) reads the hook directly.
- `Dashboard.VisibleRows` keeps the page filter as written. The corrected
  filter of the Findings table is `Dashboard.IntendedPageRows`.

## Findings

| source | as written | input that shows it | evidently intended | confidence | as-written member | corrected member |
|---|---|---|---|---|---|---|
| src/Dashboard.tsx:74-79 | rows are kept when `i + 1 > page * 10 && i + 1 < page * 10 + 10`, so a page holds nine rows while the buttons count pages of ten | ten chamadas: one page button; page 1 lists chamadas 1-9; the tenth (index 9) appears on no page, and likewise every index ending in 9 | pages of ten rows (`i + 1 <= page * 10 + 10`) | not executed | Dashboard.TenChamadasListNine | Dashboard.IntendedPagesPartition |
