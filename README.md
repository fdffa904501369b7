# MediReach telemedicine core, modelled in Dafny

The model covers the client's video consultation and the authentication flow that leads to it.

- **The video call view.** It holds the local media tracks and the simple-peer connection. It joins the call's room over the socket, relays signals in both directions, and retunes the video senders every five seconds from the measured packet loss: above 5% gives the `low` tier, above 2% `medium`, otherwise `high`. It also runs the microphone and camera toggles, "End Call", and the cleanup on unmount.
- **The video call page.** It admits a user to the call only when the server confirms the room token for that very user.
- **The authentication context.** It covers `login`, `verifyToken`, `handleLogout` and the on-load check, guarded by `mounted`. Around it sit the route guard, the navbar and the dashboard dispatcher, which map a role to a route.
- **The Express server.** It keeps an in-memory user list for register and login, and checks the `Authorization: Bearer` header (section 2.1 of RFC 6750).
- **The admin API client.** It covers the error-text builder, appointment normalisation and the user-list paging defaults.
- **Smaller pieces.** These are:
  - the notification bell: unread counting, mark-as-read and polling;
  - the admin's user form: its state and submit payload;
  - the register and login pages: their schemas, storage writes and error messages;
  - the Nairobi business-hours check.

Each source file has its own module:

| module | file |
|---|---|
| `VideoCall` | `video_call.dfy` |
| `VideoCallPage` | `video_call_page.dfy` |
| `AuthContext` | `auth_context.dfy` |
| `RouteGuard` | `route_guard.dfy` |
| `Navbar` | `navbar.dfy` |
| `DashboardPage` | `dashboard_page.dfy` |
| `Server` | `server.dfy` |
| `AdminApi` | `admin_api.dfy` |
| `NotificationBell` | `notification_bell.dfy` |
| `UserForm` | `user_form.dfy` |
| `RegisterPage` | `register_page.dfy` |
| `LoginPage` | `login_page.dfy` |
| `TimeService` | `time_service.dfy` |

Two further modules are shared:

- `Js` (`js.dfy`) holds the few JavaScript semantics the code leans on: `Option`, truthiness, `||` chains over strings, ASCII `toLowerCase` and number-to-text.
- `SubmitErrors` (`submit_errors.dfy`) holds the error-text rule that the register and login pages both carry.

## How the source is modelled

State that the source mutates is modelled as classes whose methods have `modifies` clauses:

- the call session, with its tracks, senders and peer;
- the auth provider;
- the video-call page;
- the notification bell;
- the user dialog;
- the login page's `localStorage`;
- the server's user list.

Decisions and rules are modelled as functions and lemmas.

Every network request is replaced by its outcome, passed as a parameter. So are bcrypt, `jwt.sign` and `jwt.verify`, date parsing, ISO formatting, the email pattern and the clock.

### Gaps in the source

- **Call teardown.** No single routine releases the peer, every track, the socket and the stats timer on every exit path:
  - `endCall` (`client/src/components/VideoCall.jsx:165-169`) keeps the socket and the timer;
  - the unmount cleanup (`client/src/components/VideoCall.jsx:101-105`) stops no track (see Findings);
  - nothing clears the stats interval;
  - there is no handler for the other party leaving.
- **Dashboard dispatcher.** It does not wait for the auth context's `loading`. While the on-load check is still pending it sees no user and pushes `/login`.
- **Server response shape.** `server/index.js:57` answers `/api/login` with `{token, name, role}`, but the auth context reads `data.user`. Against that server a correct login therefore sets the user to `undefined`, throws a `TypeError` when reading its role, and fails with the default message; `AuthContext.AuthProvider.Login` models this reply as `LoginAnsweredWithoutUser`. That server also has no `/api/verify-token` or `/api/logout`.

## Model

| member | source | states |
|---|---|---|
| Js.FirstNonEmpty | client/src/context/AuthContext.tsx:64 | an `a \|\| b \|\| …` chain over strings yields "" iff every candidate is empty, and otherwise the first non-empty candidate |
| Js.Lower | client/src/components/RouteGuard.tsx:19 | `toLowerCase` keeps the length and lowers each ASCII letter |
| Js.NatToString | client/src/app/login/page.tsx:44 | `Date.now().toString()` is a non-empty run of decimal digits without a leading zero whose decimal value is the number itself |
| VideoCall.PacketLoss | client/src/components/VideoCall.jsx:85 | the loss percentage is finite iff packets were received; with none received, IEEE division gives +Infinity for positive loss, -Infinity for negative loss and NaN for zero |
| VideoCall.ExceedsAsReal | client/src/components/VideoCall.jsx:86 | the cross-multiplied comparison `lost*100 > bound*received` is exactly the real comparison `lost/received*100 > bound` |
| VideoCall.QualityFor | client/src/components/VideoCall.jsx:85-86 | the tier is one of `low`, `medium`, `high`; `low` iff the loss exceeds 5, `high` iff it does not exceed 2, with infinities and NaN compared as JavaScript does |
| VideoCall.QualityForFinite | client/src/components/VideoCall.jsx:85-86 | the tier is `low` iff loss > 5%, `medium` iff 2% < loss ≤ 5%, `high` iff loss ≤ 2% |
| VideoCall.QualityWithNothingReceived | client/src/components/VideoCall.jsx:85-86 | with nothing received, any positive loss gives `low` and zero or negative loss gives `high` (NaN and -Infinity fail both comparisons) |
| VideoCall.QualityBoundaries | client/src/components/VideoCall.jsx:86 | exactly 5% is `medium` and exactly 2% is `high`, at every sample size; 6% is `low`, 3% is `medium`, 1% is `high` |
| VideoCall.TierSettings | client/src/components/VideoCall.jsx:117-141 | each tier writes exactly the three keys `scaleResolutionDownBy`, `maxBitrate`, `maxFramerate` |
| VideoCall.RetuneEncodings | client/src/components/VideoCall.jsx:114-141 | a missing encodings list becomes one encoding. The first encoding gets the tier's three values and keeps every other key it had. Later encodings are untouched |
| VideoCall.RetuneLastWins | client/src/components/VideoCall.jsx:117-141 | retuning twice is the same as retuning once with the second tier |
| VideoCall.RetuneIdempotent | client/src/components/VideoCall.jsx:117-141 | reapplying the tier just applied changes nothing |
| VideoCall.LastVideoReport | client/src/components/VideoCall.jsx:83-87 | the position of the last video `remote-inbound-rtp` report of a stats sample, or none iff the sample has no such report |
| VideoCall.LastQualityStep | client/src/components/VideoCall.jsx:83-87 | reading one more report: a video report sets the sample's tier to its own, any other report keeps it |
| VideoCall.TunedTwice | client/src/components/VideoCall.jsx:112-146 | retuning a sender twice is retuning it once with the second tier; non-video senders are untouched both times |
| VideoCall.Peer.constructor | client/src/components/VideoCall.jsx:50-57 | the peer starts undestroyed, with one distinct fresh sender per local track, in order, each without encodings |
| VideoCall.StopTracks | client/src/components/VideoCall.jsx:167 | every track of the stream is stopped; `enabled` is untouched |
| VideoCall.RetuneSender | client/src/components/VideoCall.jsx:113-145 | one sender: a video sender gets the retuned encodings, any other sender keeps its own |
| VideoCall.FirstOfKind | client/src/components/VideoCall.jsx:151 | `getAudioTracks()[0]`: the index of the first track of the kind, or none if no track has it |
| VideoCall.VideoSession.constructor | client/src/components/VideoCall.jsx:18-23 | the first render: no streams, not muted, video on, status "Connecting...", socket open |
| VideoCall.VideoSession.StartCall | client/src/components/VideoCall.jsx:44-57 | after media is acquired: the stream is kept, `join-room` is emitted, and a fresh peer initiates iff the user is a DOCTOR. The button flags stay in step with the tracks |
| VideoCall.VideoSession.MediaFailed | client/src/components/VideoCall.jsx:93-96 | a media failure only sets the status to "Error: " + message |
| VideoCall.VideoSession.OnRemoteStream | client/src/components/VideoCall.jsx:63-67 | the remote stream is kept and the status becomes "Connected" |
| VideoCall.VideoSession.OnPeerError | client/src/components/VideoCall.jsx:69-72 | a peer error arrives with the peer already destroyed (the library destroys it before emitting); the handler sets the status to "Error: " + message; streams, flags, emits and navigation are unchanged |
| VideoCall.VideoSession.OnPeerSignal | client/src/components/VideoCall.jsx:59-61 | each local signal is emitted once, tagged with the room id |
| VideoCall.VideoSession.OnSocketSignal | client/src/components/VideoCall.jsx:74-78 | a relayed signal reaches the peer iff it exists and is not destroyed; otherwise it is dropped |
| VideoCall.VideoSession.AdjustQuality | client/src/components/VideoCall.jsx:108-147 | each video sender of a live peer gets the retuned encodings; audio senders, senders without a track, and every sender of a missing or destroyed peer are unchanged |
| VideoCall.VideoSession.SampleStats | client/src/components/VideoCall.jsx:80-91 | one timer tick leaves each video sender as if retuned once, with the tier of the sample's last video report; nothing changes without such a report or a live peer |
| VideoCall.VideoSession.ToggleMic | client/src/components/VideoCall.jsx:149-155 | callable in any state: the first audio track flips and `isMuted` mirrors it afterwards; no other track, the camera flag, the remote stream and the navigation do not change; with no stream or no audio track nothing changes |
| VideoCall.VideoSession.ToggleVideoAsWritten | client/src/components/VideoCall.jsx:157-163 | as written: the first video track flips and `isVideoOn` is set to the negation of its new `enabled`; the mute state, the remote stream and the navigation do not change |
| VideoCall.VideoSession.ToggleVideo | client/src/components/VideoCall.jsx:157-163 | corrected, callable in any state: the first video track flips and `isVideoOn` equals its new `enabled`, so the flags stay in step; the mute state, the remote stream and the navigation do not change |
| VideoCall.VideoSession.EndCall | client/src/components/VideoCall.jsx:165-169 | the peer is destroyed, every local track is stopped, the app goes to `/dashboard`, and the socket stays connected; flags, status and remote stream are unchanged |
| VideoCall.VideoSession.Unmount | client/src/components/VideoCall.jsx:101-105 | as written: the peer is destroyed and the socket disconnected, but the captured `localStream` is the first render's null, so no track is stopped; flags, status, remote stream and navigation are unchanged |
| VideoCall.VideoSession.UnmountReleasingTracks | client/src/components/VideoCall.jsx:101-105 | corrected: the cleanup also stops every track of the current stream; flags, status, remote stream and navigation are unchanged |
| VideoCall.ToggleVideoAsWrittenLeavesFlagStale | client/src/components/VideoCall.jsx:161 | on a fresh call, one camera click leaves the camera off but `isVideoOn` true |
| VideoCall.ToggleVideoKeepsFlag | client/src/components/VideoCall.jsx:157-163 | with the corrected toggle, the same click leaves the camera off and `isVideoOn` false |
| VideoCall.UnmountAsWrittenLeavesCameraLive | client/src/components/VideoCall.jsx:103 | leaving a started call by unmounting disconnects the socket but leaves the camera track running |
| VideoCall.MuteAfterStaleCameraToggle | client/src/components/VideoCall.jsx:149-155 | after the stale camera toggle, one mute click still mutes the microphone and shows it muted |
| VideoCall.SignalAfterPeerErrorIsDropped | client/src/components/VideoCall.jsx:69-78 | after a peer error, a socket signal is dropped by the `destroyed` guard and the peer is no longer live for the stats timer |
| VideoCall.UnmountReleasesCamera | client/src/components/VideoCall.jsx:101-105 | with the corrected cleanup, the same scenario stops the camera track |
| VideoCallPage.Admits | client/src/app/video-call/page.tsx:35-47 | admission implies a signed-in user and an ok answer with `valid` true naming that user's id |
| VideoCallPage.AdmitsFailsClosed | client/src/app/video-call/page.tsx:35-47 | admission holds iff the answer is ok with `valid` true and names the signed-in user's id; a failed request, a non-ok status, `valid` false, no user, no `userId` or another user's id are each refused |
| VideoCallPage.Page.constructor | client/src/app/video-call/page.tsx:11 | `isValid` starts false, with no navigation and no request |
| VideoCallPage.Page.RunEffect | client/src/app/video-call/page.tsx:13-56 | nothing happens while loading; a missing or empty token sends the user to `missing_token` with no request; otherwise the token is sent once, admission sets `isValid`, and any refusal sends the user to `video_call_failed` |
| VideoCallPage.FreshPageRendersOnlyAdmitted | client/src/app/video-call/page.tsx:58-73 | from a fresh page, the call renders iff loading is over, the token is present and the admission test passes; the user is then authenticated and is the one the server named |
| AuthContext.LoginErrorMessage | client/src/context/AuthContext.tsx:54-75 | the thrown text is: the default for a non-axios error; the message or "Network error" without a response; a string body verbatim; the default for an empty body; else the first of `error`, `message`, `detail` and the axios message |
| AuthContext.LoginErrorPrecedence | client/src/context/AuthContext.tsx:64 | a body's `error` wins over `message`, which wins over `detail`, which wins over the axios message |
| AuthContext.UseAuth | client/src/context/AuthContext.tsx:149-155 | the hook returns the context iff there is a provider, and otherwise fails with "useAuth must be used within an AuthProvider" |
| AuthContext.AuthProvider.constructor | client/src/context/AuthContext.tsx:36-37 | the provider starts with no user and `loading` true |
| AuthContext.AuthProvider.HandleLogout | client/src/context/AuthContext.tsx:40-44 | one `/api/logout` request; the user is cleared and the app goes to `/login` |
| AuthContext.IsAuthenticated | client/src/context/AuthContext.tsx:137 | `!!user`: authenticated iff a user is set |
| AuthContext.AuthProvider.Login | client/src/context/AuthContext.tsx:46-79 | on success, the user is set and the app goes to `/dashboard/<role in lower case>`. On failure, the call fails with `LoginErrorMessage`, and only a 401 logs out. A 2xx reply without `user` clears the user and fails with the default message, without navigating or logging out. `loading` is false afterwards |
| AuthContext.AuthProvider.VerifyToken | client/src/context/AuthContext.tsx:81-101 | the result is true iff the answer is valid and carries a user, and then the user is set. An invalid answer or an axios error logs out; any other error changes nothing. `loading` is false afterwards |
| AuthContext.AuthProvider.CheckAuthOnLoad | client/src/context/AuthContext.tsx:103-131 | the same decisions as `verifyToken`, but nothing at all changes once the provider has unmounted |
| RouteGuard.Redirect | client/src/components/RouteGuard.tsx:14-22 | no navigation while loading; `/login` without a user; the user's own role dashboard for a role outside `allowedRoles`; none for an allowed role |
| RouteGuard.RenderExcludesRedirect | client/src/components/RouteGuard.tsx:33-41 | once loading is over, the guard shows its children iff it does not redirect; while loading it does neither; showing the children needs a signed-in user with an allowed role |
| Navbar.DashboardRoute | client/src/components/Navbar.tsx:12-23 | the route is one of `/dashboard` and the three role dashboards, and it is `/dashboard` iff there is no user or the role is not one of the three |
| Navbar.ShownButtons | client/src/components/Navbar.tsx:35-53 | Dashboard and Logout show iff a user is signed in; otherwise Login and Register show |
| Navbar.DashboardRouteIsRoleDashboard | client/src/components/Navbar.tsx:12-23 | for PATIENT, DOCTOR and ADMIN the button route is `/dashboard/` + the lower-cased role; with no user or another role it is `/dashboard` |
| Navbar.GuardRedirectMatchesNavbar | client/src/components/Navbar.tsx:12-23 | a known-role user whom the route guard turns away lands where the navbar's Dashboard button leads |
| DashboardPage.DashboardRedirect | client/src/app/dashboard/page.tsx:11-31 | the dispatcher pushes `/login` iff there is no user or the role is unknown, and otherwise the navbar's dashboard route |
| DashboardPage.DispatcherAgreesWithNavbar | client/src/app/dashboard/page.tsx:11-31 | for the three roles the dispatcher pushes the navbar's route, the role dashboard; for no user or an unknown role it pushes `/login`, where the navbar shows `/dashboard` |
| Server.Register | server/index.js:22-38 | a known email leaves the list unchanged; a new one appends exactly one record with id `length + 1` and the hashed password; either way the email is then found |
| Server.FindByEmail | server/index.js:26 | the position of the first user with the email, or none when no user has it |
| Server.RegisterKeepsInvariant | server/index.js:22-38 | one registration keeps ids positional (`i+1`) and emails distinct |
| Server.RegisterAllKeepsInvariant | server/index.js:22-38 | any sequence of registrations keeps ids positional and emails distinct |
| Server.RegisterAllExtends | server/index.js:34-35 | registration never removes or alters a user; the old list is a prefix of the new |
| Server.Fields | server/index.js:67 | `split(" ")` has at least one field, the first being the text up to the first space; no field holds a space, and joining the fields with single spaces gives back the text |
| Server.FieldsOfJoin | server/index.js:67 | splitting undoes joining: space-free fields joined with spaces split back into the same fields |
| Server.BearerToken | server/index.js:67 | `split(" ")[1]` of a `Bearer ` header is the text after the prefix, up to the next space |
| Server.Protected | server/index.js:61-74 | a missing header or one not starting with the case-sensitive `Bearer ` gets 403 "No token provided"; a token that fails verification gets 403 "Invalid token"; otherwise 200 with the decoded payload |
| Server.BearerRoundTrip | server/index.js:63-72 | the header `Bearer <token>` is checked against exactly that token |
| Server.BearerIgnoresTrailingFields | server/index.js:67 | text after a second space in the header is ignored |
| Server.ApiServer.constructor | server/index.js:14 | the user list starts empty |
| Server.ApiServer.RegisterUser | server/index.js:22-38 | a known email gets 400 and leaves the list alone; otherwise one user is appended with id `length+1` and the hashed password, and the answer is 200. The registry invariant is kept |
| Server.ApiServer.Login | server/index.js:41-58 | an unknown email and a wrong password get the same 401. Otherwise the answer is 200 with a token signed over the first matching user's id, name and role for 3600 s, plus the name and role |
| Server.RegisteredUserIsFound | server/index.js:26-43 | right after a successful registration, the login lookup finds exactly the new record |
| AdminApi.ApiErrorMessage | client/src/api/admin.ts:72-87 | an axios error throws the first of `data.error`, `error.message` and the default, followed by " (Status: <status>)"; any other error throws the default exactly |
| AdminApi.ApiErrorNamesStatus | client/src/api/admin.ts:82 | an axios error's text always ends in the status suffix, which reads "undefined" without a response |
| AdminApi.UsersQuery | client/src/api/admin.ts:102-111 | an omitted page is 1 and an omitted page size is 10; the page size is sent as `limit` |
| AdminApi.SafeDate | client/src/api/admin.ts:160-166 | the ISO form of the parsed date, or of the current time when the text does not parse |
| AdminApi.Normalize | client/src/api/admin.ts:158-175 | the other fields are copied; a missing patient becomes `{"", "Unknown Patient"}` and a missing doctor `{"", "Unknown Doctor"}`; present ones are kept; the top-level ids always equal the participants' ids |
| AdminApi.NormalizeAll | client/src/api/admin.ts:158-176 | the list keeps its length and order, one normalised item per input item |
| AdminApi.NormalizeIdempotent | client/src/api/admin.ts:158-176 | when the ISO text parses back to the same time, normalising a normalised appointment changes nothing |
| AdminApi.GetAllAppointments | client/src/api/admin.ts:152-181 | a fetched list comes back as exactly the item-by-item normalisation, with the same length, ids in order and consistent participants; a failure throws the handler's text with "Failed to fetch appointments" |
| NotificationBell.CountUnread | client/src/components/NotificationBell.jsx:22 | the unread count is at most the list length; it is 0 iff every item is read, and the full length iff none is |
| NotificationBell.CountUnreadAppend | client/src/components/NotificationBell.jsx:22 | counting splits over concatenation |
| NotificationBell.BadgeBounded | client/src/components/NotificationBell.jsx:59 | a badge within the unread count is within the list length, and is 0 for an empty list |
| NotificationBell.Bell.constructor | client/src/components/NotificationBell.jsx:11-13 | the bell starts with no items, a count of 0 and no fetch in progress |
| NotificationBell.Bell.Fetch | client/src/components/NotificationBell.jsx:15-28 | a success replaces the list and sets the count to its unread items; a failure keeps both; loading is over either way; the badge never exceeds the unread items |
| NotificationBell.Bell.MarkAsRead | client/src/components/NotificationBell.jsx:30-40 | a successful post zeroes the count and then refetches; a failed post changes nothing |
| NotificationBell.Bell.OnUserChange | client/src/components/NotificationBell.jsx:42-48 | polling is active iff a user is set; with a user one fetch happens at once and loading is over afterwards; without one the list, badge and loading flag are kept |
| NotificationBell.Bell.Tick | client/src/components/NotificationBell.jsx:45 | an interval firing fetches only while polling, and loading is over afterwards; when not polling nothing changes |
| UserForm.Defaults | client/src/components/UserForm.tsx:29-37 | the defaults are the seven fields, with role PATIENT, gender MALE, `available` false and empty texts |
| UserForm.InitialForm | client/src/components/UserForm.tsx:27-38 | each field comes from `initialData` when it has that field, and otherwise from the defaults |
| UserForm.Payload | client/src/components/UserForm.tsx:67-71 | `available` is `role === "DOCTOR"` whatever the form holds; a falsy password becomes ""; every other field is copied |
| UserForm.PayloadIgnoresAvailable | client/src/components/UserForm.tsx:70 | the form's own `available` never reaches the payload |
| UserForm.Dialog.constructor | client/src/components/UserForm.tsx:27-41 | the form starts as `InitialForm`, with no error and not loading |
| UserForm.Dialog.HandleChange | client/src/components/UserForm.tsx:43-51 | without a non-empty name nothing changes; otherwise only that field is replaced |
| UserForm.Dialog.HandleSelectChange | client/src/components/UserForm.tsx:53-59 | the named field is replaced, with no guard |
| UserForm.Dialog.HandleSubmit | client/src/components/UserForm.tsx:61-79 | the payload is sent once. A success calls `onSuccess` then `onClose`. A failure shows the text `createUser` throws. `loading` is false afterwards |
| SubmitErrors.SubmitErrorMessage | client/src/app/register/page.tsx:60-71 | for an axios error: the body's `error`, else its `message`, else the error's message; for an `Error`: its message; for anything else: the default |
| SubmitErrors.AxiosErrorNeverDefault | client/src/app/register/page.tsx:63-66 | an axios error with a body never shows the default, and the body's `error` wins |
| RegisterPage.RegisterValid | client/src/app/register/page.tsx:23-31 | an accepted form has a well-formed email, a password of at least 6 characters and a role other than ADMIN |
| RegisterPage.SchemaFacts | client/src/app/register/page.tsx:23-46 | the defaults PATIENT and MALE pass their enum checks, but the default form as a whole is rejected; an accepted form has no ADMIN role and a password of at least 6 characters |
| RegisterPage.OnSubmit | client/src/app/register/page.tsx:49-75 | a success goes to `/dashboard` with no error; a failure shows `SubmitErrorMessage` with "Registration failed. Please try again."; `isSubmitting` is false afterwards |
| LoginPage.LoginValid | client/src/app/login/page.tsx:19-22 | an accepted form has a non-empty, well-formed email and a password of at least 6 characters |
| LoginPage.DefaultsRejected | client/src/app/login/page.tsx:19-22 | the empty default form fails the schema |
| LoginPage.Page.constructor | client/src/app/login/page.tsx:27-28 | no error, not submitting, storage as found |
| LoginPage.Page.OnSubmit | client/src/app/login/page.tsx:35-60 | only a successful login changes storage, to `StorageAfterLogin`; no key it changes is the `logout` key other tabs listen for; a failure leaves storage alone and shows the message; `isSubmitting` is false afterwards |
| LoginPage.StorageAfterLogin | client/src/app/login/page.tsx:42-44 | after a success, storage has no `token`, has the `login` stamp, every other key is as before, and no changed key triggers `RouteGuard.StorageEventChecksAuth` |
| LoginPage.ShownMessageIsContextMessage | client/src/app/login/page.tsx:45-56 | the context's `login` throws a plain `Error`, so the page shows exactly `AuthContext.LoginErrorMessage` |
| RouteGuard.StorageEventChecksAuth | client/src/components/RouteGuard.tsx:25-31 | the storage listener re-checks authentication for the key `logout`, and only for it; never when storage is cleared (no key) |
| TimeService.NairobiHour | client/src/utils/timeService.ts:32-33 | the Nairobi wall-clock hour lies in 0..23 |
| TimeService.ParseDateSafely | client/src/utils/timeService.ts:6-13 | the parsed instant, or the current time when the text does not parse |
| TimeService.ValidateAppointmentTime | client/src/utils/timeService.ts:30-35 | the check holds iff the (fallback-parsed) instant is in business hours; unparsable text is judged by the current time |
| TimeService.ShiftHours | client/src/utils/timeService.ts:32 | the fixed UTC+3 offset shifts the hour index by exactly 3 |
| TimeService.BusinessHoursInUtc | client/src/utils/timeService.ts:31-34 | a time is bookable iff its UTC hour is in [5, 14) |
| TimeService.OnlyTheHourMatters | client/src/utils/timeService.ts:33-34 | the wall-clock time h:m on any day reads hour h, so minutes, seconds and milliseconds never change the verdict |
| TimeService.Boundaries | client/src/utils/timeService.ts:34 | 08:00 and 16:59 are bookable; 07:59 and 17:00 are not |

## Left out

- Browser, WebRTC and transport machinery is not modelled: `getUserMedia`, simple-peer's negotiation, `getStats`, socket.io and `window.location`. Tracks, senders and the peer are objects holding the fields the view touches; the socket is a flag plus a list of emitted events.
- VideoCall.VideoSession.AdjustQuality: the `setParameters` promise is assumed to succeed. Its rejection is only logged in the source.
- VideoCall.PacketLoss: works on exact rationals. Floating-point rounding of `lost/received*100` close to 2% and 5% is not modelled. An undefined `packetsReceived` (NaN) is not represented.
- The stats interval is never cleared in the source. After the peer is destroyed, each tick throws on the released `_pc`. The model treats such a tick as changing nothing, which is what `SampleStats` does with a destroyed peer.
- `jwtDecode` of the room token, the JSON parse of the ICE server list, and the media constraints are configuration and are not modelled. The call's `user` is assumed present; the page admits only authenticated users.
- AuthContext.AuthProvider.HandleLogout: the `/api/logout` request is assumed to succeed. A rejection there would escape the callers.
- AuthContext.AuthProvider.CheckAuthOnLoad: `mounted` is read once, when the request settles. An unmount during the nested `handleLogout` await is not modelled.
- Js.Lower: `toLowerCase` is modelled for ASCII letters only.
- RegisterPage and LoginPage: yup's email pattern is a parameter. The per-field error texts and the order in which yup reports them are not modelled; the schemas are modelled as accept/reject predicates.
- AdminApi.NormalizeAll: one `now` stands for the separate `new Date()` read for each item. `toISOString` and `Date` parsing are parameters.
- TimeService: the conversion assumes `toZonedTime` reproduces Nairobi's wall clock. Host time zones with daylight-saving transitions can shift `toZonedTime` results; that is not modelled. The display formatters (`formatTimeForDisplay`, `formatDateForDisplay`, `convertToEAT`) only format text and are not modelled.
- The other admin API calls (`getAdminStats`, `updateUserRole`, `deleteUser`, `assignDoctorToAppointment`, export) only forward a request and route failures through the modelled error handler.
- UserForm.Dialog.HandleSubmit: `createUser` always throws an `Error` built by the shared handler, so the component's own 'Failed to create user' fallback is unreachable and is not a separate path.
- VideoCall.Peer.constructor: every sender starts with no `encodings`. The browser's initial `getParameters()` encodings are not modelled; retuning then starts from an empty parameter list.
- VideoCall.VideoSession.ToggleMic and VideoCall.VideoSession.ToggleVideo: with a stream but no track of the kind, the source throws a `TypeError` on `undefined.enabled` before changing anything. The model treats that as a no-op; the state is the same, but the error escaping the click handler is not represented.
- VideoCall.VideoSession: the peer also destroys itself when the remote side closes the connection. The component has no `close` handler, so only that self-destruction is missing: a call whose other party leaves keeps a live peer in the model.
- Server.ApiServer.RegisterUser: the handler awaits `bcrypt.hash` between the `users.find` check and the `push`, so two concurrent registrations with the same email can both pass the check and break the distinct-email half of `Server.RegistryInvariant`. The model runs each registration as one atomic step, and `Server.RegisterAllKeepsInvariant` holds only for registrations that do not overlap.
- Concurrency and timers are not modelled: overlapping fetches, the interleaving of the stats timer with button clicks, and the 60000 ms and 5000 ms periods themselves. Each handler is one atomic step.

## Findings

| source | as written | input that shows it | evidently intended | confidence | as-written member | corrected member |
|---|---|---|---|---|---|---|
| client/src/components/VideoCall.jsx:161 | `isVideoOn` is set to the negation of the new `enabled` | a started call with video on and one click on the camera button: the camera goes off and `isVideoOn` stays true, so the button is shown inverted from then on | `isVideoOn` equals the track's new `enabled`, as `isMuted` mirrors the audio track | high, not executed | VideoCall.ToggleVideoAsWrittenLeavesFlagStale | VideoCall.ToggleVideoKeepsFlag |
| client/src/components/VideoCall.jsx:103 | the unmount cleanup reads `localStream` from the first render, where it is null | start a call, then navigate away without "End Call": the peer is destroyed and the socket closed, but the camera track is never stopped | the cleanup stops the current stream's tracks, as `endCall` does | high, not executed | VideoCall.UnmountAsWrittenLeavesCameraLive | VideoCall.UnmountReleasesCamera |
