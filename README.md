# DealFlow core, modelled in Dafny

DealFlow lets a seller hold a Zoom call with a client and send them a
contract. Sending goes by email, by push notification, or both. This
project models the deterministic logic under the glue code, in four groups.

- **Backend credential layer.**
  - The Zoom server-to-server OAuth token cache: a one-slot cache with a 10-second margin.
  - The two Meeting SDK JWT payload builders.
- **Backend meeting store and HTTP decisions.**
  - `createMeeting`, with its defaults and the mapping of Zoom's answer into a row.
  - The meetings table: insert, host listing newest first, lookups, status overwrite.
  - The zod request schemas of the meeting, zoom, user and contract routes.
    The zoom router (`/jwt`, `/meetings`, `/sdk-signature`) is defined but never mounted: backend/src/index.ts:25-27 mounts only the meetings, contracts and users routers, so as written no request reaches it.
  - The Zoom webhook dispatcher, which always answers 200.
  - The seller-role guard.
- **Link and message builders.**
  - The three join deep-link formats.
  - The contract email, in plain text and HTML.
  - The FCM push payload and its early returns.
  - FCM token registration.
- **Mobile client state.**
  - The client-email chip list.
  - The notification service.
  - The join screen's edit modal and its start-or-join decision.
  - Registration validation.
  - The create-meeting request and form reset.
  - The meeting list.
  - The deep-link handler.

External systems are not implemented; each is an input of the model.

- Zoom, Supabase/PostgREST, SendGrid, Firebase and the backend seen from the app are function-typed parameters or outcome values. Examples: `fetch`, `zoomApi`, `zakApi`, the backend's answer to a contract request, an `Option<string>` database error.
- The clock is a `now` parameter.
- The encoders (`encodeURIComponent`, `URLSearchParams`, HMAC-SHA256, base64) are uninterpreted functions.
- A signed JWT is the symbolic term `HS256(claims, secret)`.

State the source mutates is a class whose methods are proved against pure functions.

- `TokenCache` holds `cachedToken`.
- `MeetingStore` and `UserTable` hold table rows.
- `ContractRecipients`, `Notifications`, `JoinMeetingScreen`, `Register`, `MyMeetings` and `CreateMeeting` hold screen and service state.

Section 5 of RFC 7519 (JWT) is followed only as far as the claim names go.

## Model

| member | source | states |
|---|---|---|
| Common.MustEnv | backend/src/services/zoomToken.service.ts:5-9 | An unset or empty variable is the error `Missing env: <name>`; otherwise its value |
| ZoomToken.BuildRequest | backend/src/services/zoomToken.service.ts:17-27 | ZOOM_ACCOUNT_ID, ZOOM_S2S_CLIENT_ID and ZOOM_S2S_CLIENT_SECRET are checked in that order; the first one missing is the error. Otherwise the request carries the account id and `id:secret` credentials |
| ZoomToken.GetTokenStep | backend/src/services/zoomToken.service.ts:11-44 | A fresh slot is returned with no env read and no request. A missing variable fails before any request and leaves the slot alone. Otherwise exactly one request is sent. A failed request leaves the slot alone and propagates. A successful one caches `{access_token, now + expires_in*1000}` and returns that token |
| ZoomToken.HitIffFresh | backend/src/services/zoomToken.service.ts:13-15 | No request is sent exactly when `expiresAt > now + 10000` (strict) |
| ZoomToken.NoRequestWithinWindow | backend/src/services/zoomToken.service.ts:13-15 | Calls whose clock is inside the slot's window send no request and leave the slot unchanged |
| ZoomToken.OneRefreshPerWindow | backend/src/services/zoomToken.service.ts:11-44 | A stale call followed by calls inside the new token's window sends exactly one request in total |
| ZoomToken.TokenCache.GetZoomS2SToken | backend/src/services/zoomToken.service.ts:3-44 | The cache method's new slot, result and request are exactly those of `GetTokenStep` on the old slot |
| ZoomSdkSignature.CreateMeetingSdkSignature | backend/src/services/zoomSdkSignature.service.ts:14-32 | A missing client id, then a missing secret, fails before signing. On success: `appKey = sdkKey =` the client id; signed with the secret; `mn` and `role` are the arguments; `iat = floor(now/1000)`; `exp = iat + 7200 = tokenExp` |
| ZoomSdkSignature.DefaultRoleIsParticipant | backend/src/services/zoomSdkSignature.service.ts:14 | Without a role argument the token is minted with role 0 |
| ZoomSdkJwt.GenerateMeetingSdkJwt | backend/src/services/zoomSdkJwt.service.ts:7-36 | The same env errors as above. `iat = round(now/1000) - 30`; `exp = iat + 172800 = tokenExp`; no `mn` or `role` claim; `expiresIn` is 172800 whatever the clock |
| ZoomMeetingService.CreateBody | backend/src/services/zoomMeeting.service.ts:65-72 | Each field takes the caller's value unless it is undefined or null. Defaults: "Contract Call", type 1, waiting_room false, join_before_host true |
| ZoomMeetingService.ExplicitFalseKept | backend/src/services/zoomMeeting.service.ts:69-70 | An explicit `false` or `true` setting survives the `??` defaults |
| ZoomMeetingService.CreateZoomMeeting | backend/src/services/zoomMeeting.service.ts:59-97 | A token error or Zoom error propagates. On success: `meetingId = String(id)`; passcode and joinUrl default to ""; the deep link is `DealFlow:///join?meetingId=enc(id)&password=enc(passcode)`, which always has a password parameter |
| ZoomMeetingService.ZakEmail | backend/src/services/zoomMeeting.service.ts:14 | The caller's email if non-empty, else ZOOM_HOST_EMAIL |
| ZoomMeetingService.GetHostZakToken | backend/src/services/zoomMeeting.service.ts:10-41 | A token failure comes first. Then, with no email at all, the ZOOM_HOST_EMAIL error. Otherwise Zoom's answer, errors included, is passed through unchanged |
| ZoomRoutes.JwtRoute | backend/src/routes/zoom.routes.ts:16-29 | `{success: true, data: {jwtToken, expiresIn: 172800}}`, or 500 with the message or "Failed to generate JWT" |
| ZoomRoutes.ParseSignatureRequest | backend/src/routes/zoom.routes.ts:50-57 | Accepted iff `meetingId` is a string of length at least 3 and `role` is exactly 0 or 1; the parsed values are those fields |
| ZoomRoutes.SdkSignatureRoute | backend/src/routes/zoom.routes.ts:49-68 | 400 iff the schema fails. The signature's `mn` and `role` are exactly the request's. A signing error is a 500 with its message or the fallback |
| ZoomRoutes.ZoomMeetingsRoute | backend/src/routes/zoom.routes.ts:35-43 | Never 400: the body goes to `createZoomMeeting` unchecked; 200 with its result or 500 |
| MeetingService.TitleOf | backend/src/services/meeting.service.ts:62 | An omitted title becomes "Contract Call" |
| MeetingService.DurationOf | backend/src/services/meeting.service.ts:62 | An omitted duration becomes 60 |
| MeetingService.ZoomType | backend/src/services/meeting.service.ts:69 | 1 exactly for instant, 2 exactly for scheduled |
| MeetingService.ZoomBodyFor | backend/src/services/meeting.service.ts:64-80 | Zoom gets the defaulted title, type and duration, the start time as given, no waiting room, and join-before-host |
| MeetingService.NewRow | backend/src/services/meeting.service.ts:85-101 | Status "created"; `start_time` only when the input's is non-empty; password and join_url as Zoom gave them; `zoom_meeting_id = String(id)` |
| MeetingService.GetZakToken | backend/src/services/meeting.service.ts:36-56 | Never an error. It is null unless a bearer token, ZOOM_HOST_EMAIL and Zoom's answer are all there |
| MeetingService.CreateMeetingStep | backend/src/services/meeting.service.ts:61-117 | Errors come in order: bearer, then Zoom, then insert (`Failed to save meeting: …`). Only success adds a row. A ZAK token is requested iff the insert succeeded |
| MeetingService.DefaultsApplied | backend/src/services/meeting.service.ts:62-69 | An empty input yields title "Contract Call", instant (Zoom type 1), duration 60 |
| MeetingService.ZakFailureIsHarmless | backend/src/services/meeting.service.ts:110-116 | Whatever the ZAK lookup does, the same row is inserted and the call succeeds |
| MeetingService.FilterHost | backend/src/services/meeting.service.ts:125-128 | Exactly the rows of that host, with their multiplicities |
| MeetingService.InsertKeepsOrder | backend/src/services/meeting.service.ts:129 | Inserting into a newest-first list keeps it newest first |
| MeetingService.SortNewestFirst | backend/src/services/meeting.service.ts:129 | A permutation of its input, ordered by `created_at` descending |
| MeetingService.MeetingStore.CreateMeeting | backend/src/services/meeting.service.ts:61-117 | The table and result are those of `CreateMeetingStep`; ids stay distinct |
| MeetingService.MeetingStore.GetMeetingsByHost | backend/src/services/meeting.service.ts:122-134 | A database error is `Failed to fetch meetings: …`. Otherwise the host's rows, permuted and newest first |
| MeetingService.MeetingStore.GetMeetingById | backend/src/services/meeting.service.ts:139-152 | Without a database error the answer is a row exactly when one row has that id; no or several matches (PGRST116) give null, not an error. Any other error throws `Failed to fetch meeting: …`. A found row is in the table with that id |
| MeetingService.MeetingStore.GetMeetingByZoomId | backend/src/services/meeting.service.ts:157-170 | The same, keyed by `zoom_meeting_id` |
| MeetingService.MeetingStore.UpdateMeetingStatus | backend/src/services/meeting.service.ts:175-191 | Every row with that id gets the new status and `updated_at`, whatever its status was. It succeeds iff such a row exists; otherwise the PGRST116 message. A database error changes nothing |
| MeetingService.UpdateMatches | backend/src/services/meeting.service.ts:175-191 | After the update over distinct ids, `.single()` finds one row iff some row had the id, and that row carries the new status and time; ids stay distinct |
| MeetingService.WithStatus | backend/src/services/meeting.service.ts:175-185 | Matching rows are overwritten; all others are unchanged, position by position |
| MeetingService.MatchingIdUnique | backend/src/services/meeting.service.ts:139-147 | With distinct ids, a lookup matches that one row or none |
| MeetingService.InsertThenFind | backend/src/services/meeting.service.ts:96-104 | A row inserted with a fresh id is what a lookup by that id (`getMeetingById`) returns |
| MeetingService.UpdateThenFind | backend/src/services/meeting.service.ts:175-191 | After an update, a lookup by that id sees the new status and time |
| MeetingService.UpdateLeavesOthers | backend/src/services/meeting.service.ts:175-191 | An update leaves what every other id finds unchanged |
| ZodRules.UuidAsGroups | backend/src/routes/meeting.routes.ts:57 | The UUID check is exactly 8-4-4-4-12 hex groups joined by dashes |
| MeetingRoutes.ParseCreateMeeting | backend/src/routes/meeting.routes.ts:56-62 | Accepted iff `hostUserId` is a UUID, `title` and `startTime` are strings, `type` is instant or scheduled, and `duration` is in [1,480], each when present. The parsed fields are those values |
| MeetingRoutes.CreateMeetingRoute | backend/src/routes/meeting.routes.ts:64-80 | The guard's refusal (403) comes first, then the schema (400). Only then is a meeting created: 200 with it, or 500 with the error |
| MeetingRoutes.ZakRoute | backend/src/routes/meeting.routes.ts:37-50 | A null or empty token is a 500 "Failed to get ZAK token"; otherwise `{success: true, data: {zakToken}}` |
| MeetingRoutes.ListMeetingsRoute | backend/src/routes/meeting.routes.ts:86-105 | 400 iff `hostUserId` is not a UUID. Otherwise, without a database error, a 200 with exactly that host's meetings, newest first; with one, a 500 with its message |
| MeetingRoutes.LookupReply | backend/src/routes/meeting.routes.ts:113-123 | Null is 404 "Meeting not found"; an error is 500; a row is 200 with it |
| MeetingRoutes.GetMeetingRoute | backend/src/routes/meeting.routes.ts:111-124 | Without a database error: 404 iff the id matches no row or several, and a 200 with the one matching row otherwise. A database error is a 500 with its message |
| MeetingRoutes.GetMeetingByZoomIdRoute | backend/src/routes/meeting.routes.ts:130-143 | Without a database error: 404 iff the Zoom meeting id matches no row or several, and a 200 with the one matching row otherwise. A database error is a 500 with its message |
| MeetingRoutes.ParseStatus | backend/src/routes/meeting.routes.ts:149-151 | Exactly created, started, ended and cancelled are accepted |
| MeetingRoutes.PatchStatusRoute | backend/src/routes/meeting.routes.ts:153-168 | 400 on a bad status. Otherwise the status is overwritten with no transition rule; without a database error the reply is 200 exactly when a row has that id, and otherwise 500 with the single-row message; a database error gives 500 with its message and leaves the table alone; a 200 row has that id and status |
| MeetingRoutes.ValidationReply | backend/src/routes/meeting.routes.ts:186-206 | A missing payload or a non-string plainToken throws, so there is no reply. An unset secret is a 500 "Webhook secret not configured". Otherwise `{plainToken, encryptedToken = HMAC(secret, plainToken)}` |
| MeetingRoutes.EventStatus | backend/src/routes/meeting.routes.ts:226-232 | `meeting.started` gives started, `meeting.ended` gives ended, and every other event gives nothing |
| MeetingRoutes.EventMeetingId | backend/src/routes/meeting.routes.ts:210 | A missing `payload.object.id` becomes the text "undefined" |
| MeetingRoutes.WebhookRows | backend/src/routes/meeting.routes.ts:209-239 | When the id is non-empty, the lookup finds one row, the event is started or ended and the update succeeds, that row gets the event's status and time; in every other case the table is unchanged |
| MeetingRoutes.Webhook | backend/src/routes/meeting.routes.ts:179-240 | The validation event gets `ValidationReply` and no table change. Every other path answers an empty 200 and the table becomes `WebhookRows` |
| MeetingRoutes.WebhookTouchesOnlyItsMeeting | backend/src/routes/meeting.routes.ts:218-232 | A meeting event leaves every other meeting as it was |
| MeetingRoutes.MeetingEventSetsStatus | backend/src/routes/meeting.routes.ts:225-232 | For a known meeting, `meeting.started` marks it started and `meeting.ended` marks it ended, whatever its status was, with `updated_at` the event time |
| AuthMiddleware.RequireSellerRole | backend/src/middleware/auth.middleware.ts:7-25 | `next()` iff there is no lookup error, exactly one row has id `String(req.body.userId)`, and its role is exactly "seller"; anything else is 403 |
| AuthMiddleware.PassedMeansSeller | backend/src/middleware/auth.middleware.ts:20-24 | Passing the guard means the named user is in the table as a seller |
| AuthMiddleware.NoUserIdForbidden | backend/src/middleware/auth.middleware.ts:12-22 | A body without `userId` is looked up as "undefined", so it is refused whenever no user has that id |
| AuthMiddleware.RequireHostSellerRole | backend/src/middleware/auth.middleware.ts:7-25 | The same guard reading `hostUserId` |
| EmailService.GenerateDeepLink | backend/src/services/email.service.ts:23-29 | `dealflow://join?` plus the form-encoded `meetingId`; `password` is added only when it is non-empty |
| EmailService.EmailDeepLink | backend/src/services/email.service.ts:34-35 | A link exists iff `zoomMeetingId` is non-empty |
| EmailService.GeneratePlainText | backend/src/services/email.service.ts:216-249 | The text built by successive `+=` equals the header, then the join block, then the signature |
| EmailService.PlainTextStartsWithGreeting | backend/src/services/email.service.ts:221-228 | The text starts with `Hi <clientName>,` |
| EmailService.HeaderEndsWithContractUrl | backend/src/services/email.service.ts:221-228 | The trimmed header ends with the introduction followed by the contract URL |
| EmailService.PlainTextEndsWithSignature | backend/src/services/email.service.ts:246 | The text ends with `\n\n---\nSent via DealFlow` |
| EmailService.JoinBlockIffMeeting | backend/src/services/email.service.ts:230-244 | The "JOIN THE MEETING" block is there iff there is a deep link or a join URL |
| EmailService.PasswordNeedsMeetingId | backend/src/services/email.service.ts:238-242 | No password line without a meeting id |
| EmailService.PasswordLineShown | backend/src/services/email.service.ts:238-242 | With both a meeting id and a password, the password line is there |
| EmailService.GenerateEmailHtml | backend/src/services/email.service.ts:31-214 | The meeting section is there iff a meeting id or join URL is. The Zoom button is 50% wide next to an app button and 100% alone |
| EmailService.Subject | backend/src/services/email.service.ts:271 | `Contract from <seller>`, plus ` - <title>` only when a title is given |
| EmailService.SendContractEmail | backend/src/services/email.service.ts:251-284 | A missing API key or from-address returns false with nothing sent. A send failure returns false and does not throw. Otherwise the message goes to the client |
| FcmService.MessageFor | backend/src/services/fcm.service.ts:24-55 | Every other data key is copied. A non-empty deep link overrides `data.deeplink` and is the only way to get the Android `clickAction` |
| FcmService.SendPushNotification | backend/src/services/fcm.service.ts:17-64 | A missing Firebase app or a send error becomes `{success: false, error}`, never an exception. Success iff neither happens |
| FcmService.ContractDeepLink | backend/src/services/fcm.service.ts:95-101 | "" iff there is no meeting id. Otherwise `dealflow://join?meetingId=<raw id>`, plus an encoded password only when there is one |
| FcmService.ContractData | backend/src/services/fcm.service.ts:103-109 | Exactly five keys: `type = "contract"` and `meetingId` defaulting to "" |
| FcmService.Recipient | backend/src/services/fcm.service.ts:75-93 | An unknown user or a lookup error gives "User not found or not registered in app"; an empty token gives "User has not enabled push notifications" |
| FcmService.SendContractNotification | backend/src/services/fcm.service.ts:66-124 | The early returns (user not found, push disabled) send nothing and report their reason. Otherwise the push carries the contract data and link; a missing Firebase app sends nothing and a send error is reported with its message; the result is success iff a recipient exists and sending succeeds |
| FcmService.ContractLinkDelivered | backend/src/services/fcm.service.ts:95-116 | A non-empty meeting link reaches both `data.deeplink` and `meetingDeeplink` |
| FcmService.UserTable.RegisterFcmToken | backend/src/services/fcm.service.ts:126-152 | An update error is `{success: false, error}` with no change. Otherwise the user's token, platform and time are set |
| FcmService.WithFcmToken | backend/src/services/fcm.service.ts:133-139 | Only the rows with that id change |
| FcmService.RegisterThenNotifiable | backend/src/services/fcm.service.ts:126-152 | After `registerFcmToken` stores a non-empty token, a notification lookup by the user's unique email finds that token |
| UserRoutes.ParseFcmTokenRequest | backend/src/routes/user.routes.ts:7-11 | Accepted iff `userId` is a UUID, `fcmToken` is non-empty, and `platform` is ios or android |
| UserRoutes.FcmTokenRoute | backend/src/routes/user.routes.ts:17-38 | 400 iff the schema fails. `success: false` is a 500 with the service's error. Success is `{success: true, message: "FCM token registered"}`. A throw is a 500 |
| ContractRoutes.ContractUrl | backend/src/routes/contract.routes.ts:16 | CONTRACT_URL if set and non-empty, else `https://docs.google.com/` |
| ContractRoutes.ContractSendRoute | backend/src/routes/contract.routes.ts:6-22 | 400 iff `clientUserId` is not a non-empty string or `meetingId` is present but empty. Otherwise `{ok: true, contractUrl}` with no other effect |
| ContractRoutes.EmptyMeetingIdRejected | backend/src/routes/contract.routes.ts:9 | An empty `meetingId` is refused, unlike an absent one |
| ContractRoutes.AppContractSendRoute | backend/src/routes/contract.routes.ts:6-22 | The route with a schema matching the app's body |
| SendContractSection.EmailRegexShape | MobileRN/src/components/meeting/SendContractSection.tsx:41-44 | The pattern accepts exactly `local@domain` where neither part is empty or holds whitespace or '@', and the domain has a '.' that is neither first nor last |
| SendContractSection.Without | MobileRN/src/components/meeting/SendContractSection.tsx:54-56 | The filter keeps exactly the entries other than the one removed |
| SendContractSection.WithoutCutsOne | MobileRN/src/components/meeting/SendContractSection.tsx:54-56 | In a list without repeats, removing an entry cuts exactly its position out; the others keep their order |
| SendContractSection.WithoutKeepsWellFormed | MobileRN/src/components/meeting/SendContractSection.tsx:54-56 | Removal keeps the list free of repeats, lower-case, trimmed and valid |
| SendContractSection.AppendKeepsWellFormed | MobileRN/src/components/meeting/SendContractSection.tsx:46-52 | Appending a new normalized valid address keeps that invariant |
| SendContractSection.NormalizeIsNormal | MobileRN/src/components/meeting/SendContractSection.tsx:47 | The normalized address is its own `trim()` and its own `toLowerCase()` |
| SendContractSection.NormalizedValidity | MobileRN/src/components/meeting/SendContractSection.tsx:41-48 | On a normalized address the second `trim()` inside `isValidEmail` changes nothing: validity is the scan of the address itself |
| SendContractSection.ScanIsRegex | MobileRN/src/components/meeting/SendContractSection.tsx:41-44 | The scan the model uses for `isValidEmail` accepts exactly what the regex accepts |
| SendContractSection.NormalizeEmptyIffBlank | MobileRN/src/components/meeting/SendContractSection.tsx:47-48 | It is empty exactly when the input was blank |
| SendContractSection.ButtonTitle | MobileRN/src/components/meeting/SendContractSection.tsx:35-39 | "CONTRACT SENT" wins over "SENDING...", which wins over "SEND CONTRACT" |
| SendContractSection.SendDisabled | MobileRN/src/components/meeting/SendContractSection.tsx:177 | Enabled iff not sending, not sent, and at least one recipient |
| SendContractSection.ContractRecipients.AddEmail | MobileRN/src/components/meeting/SendContractSection.tsx:46-52 | The normalized address is appended, and the input cleared, iff it is non-empty, valid and new; otherwise nothing changes |
| SendContractSection.ContractRecipients.RemoveEmail | MobileRN/src/components/meeting/SendContractSection.tsx:54-56 | The list becomes `Without(list, email)`; the input is kept |
| SendContractSection.ContractRecipients.HandleKeyPress | MobileRN/src/components/meeting/SendContractSection.tsx:58-66 | Backspace drops the last entry only when the input is "" and the list is non-empty; otherwise nothing changes |
| SendContractSection.ContractRecipients.HandleSubmitEditing | MobileRN/src/components/meeting/SendContractSection.tsx:68-72 | A blank input changes nothing; otherwise `addEmail` on it |
| SendContractSection.ContractRecipients.HandleChangeText | MobileRN/src/components/meeting/SendContractSection.tsx:74-84 | Text ending in ',', ';' or ' ' offers the rest to `addEmail` and is never stored as input. Any other text replaces the input |
| NotificationService.PermissionGranted | MobileRN/src/services/notification.service.ts:54-71 | iOS needs authorized or provisional, and Android 33 or later needs GRANTED. Older Android and other platforms are granted with no prompt |
| NotificationService.ContractDataOf | MobileRN/src/services/notification.service.ts:134-140 | `contractUrl` defaults to ""; an empty or missing seller name, meeting id or link is undefined |
| NotificationService.Notifications.Initialize | MobileRN/src/services/notification.service.ts:24-52 | Once initialized it returns the cached token and changes nothing. A throwing prompt, a refusal or a failed `getToken` returns null and leaves it uninitialized. Success stores the token and marks it initialized |
| NotificationService.Notifications.HandleMessage | MobileRN/src/services/notification.service.ts:128-148 | Non-contract messages are ignored. A contract message goes to the handler, or replaces the one parked message |
| NotificationService.Notifications.ForegroundMessage | MobileRN/src/services/notification.service.ts:74-97 | A foreground contract message is handled only when "View" is pressed |
| NotificationService.Notifications.NotificationOpened | MobileRN/src/services/notification.service.ts:99-125 | After initialization, a tapped notification opens its non-empty `deeplink`. A contract message then goes to the handler or is parked |
| NotificationService.Notifications.OnContractReceived | MobileRN/src/services/notification.service.ts:150-164 | Installs the handler and hands it the parked message, emptying the slot |
| NotificationService.Notifications.UnsubscribeContract | MobileRN/src/services/notification.service.ts:161-163 | Clears whatever handler is installed |
| NotificationService.Notifications.TokenRefreshed | MobileRN/src/services/notification.service.ts:38-43 | Once initialized, the new token is what `getToken` returns, and the registered callback, if any, receives it. Before initialization nothing changes |
| NotificationService.Notifications.OnTokenRefresh | MobileRN/src/services/notification.service.ts:170-175 | Registers the refresh callback |
| NotificationService.NewestPendingWins | MobileRN/src/services/notification.service.ts:142-164 | With no handler, only the newer of two contract messages is delivered later |
| NotificationService.PendingDeliveredOnce | MobileRN/src/services/notification.service.ts:150-164 | A parked message is delivered once: a later handler gets nothing |
| NotificationService.InitializeIdempotent | MobileRN/src/services/notification.service.ts:24-27 | A second `initialize` returns the first one's token, whatever the new answers are |
| NotificationService.RefreshAfterUnsubscribe | MobileRN/src/services/notification.service.ts:170-175 | After unsubscribing, a refresh (the `onTokenRefresh` handler set up in `initialize`) still updates the token and calls no callback |
| JoinMeeting.FieldLabel | MobileRN/src/screens/main/JoinMeeting.tsx:148-153 | A label is empty iff no field is being edited |
| JoinMeeting.RequestPermissions | MobileRN/src/screens/main/JoinMeeting.tsx:155-199 | Off Android, granted. On Android, granted iff camera and microphone are granted and the request did not throw; refused (with the "Permissions Required" alert) iff the request answered but one of the two is denied; failed silently iff the request threw |
| JoinMeeting.JoinDecision | MobileRN/src/screens/main/JoinMeeting.tsx:246-322 | A blank meeting id, a blank name and an SDK not yet ready are refused in that order, with no SDK call. Then refused permissions end it with the "Permissions Required" alert and a permission request that threw ends it with no alert; only granted permissions lead to an SDK call. A host with a ZAK calls `startMeeting` with trimmed name and number. Anyone else calls `joinMeeting` with `userType` 0 and the password undefined when blank. The status becomes "started" only after a successful host start with a database id |
| JoinMeeting.SdkStep | MobileRN/src/screens/main/JoinMeeting.tsx:268-321 | Exactly one SDK call: `startMeeting` for a host with a ZAK, otherwise `joinMeeting` as participant with a blank password left undefined. The status update happens iff a host start did not throw and a database id exists; a throw gives the "Failed to Join" alert with its message or "Please try again." |
| JoinMeeting.ContractRequestFor | MobileRN/src/screens/main/JoinMeeting.tsx:201-227 | A blank email, an invalid email and a missing user id are refused in that order. A blank contract URL is sent as undefined |
| JoinMeeting.ContractAlert | MobileRN/src/screens/main/JoinMeeting.tsx:229-240 | The success alert names the untrimmed email; failures show the error or "Failed to send contract" |
| JoinMeeting.ContractRequestBody | MobileRN/src/services/backend.service.ts:296-309 | The posted JSON has `clientEmail` and `sellerUserId`, and the optional fields only when defined |
| JoinMeeting.JoinMeetingScreen.constructor | MobileRN/src/screens/main/JoinMeeting.tsx:39-62 | The fields start from the route parameters, falling back to the user's name and "" |
| JoinMeeting.JoinMeetingScreen.OpenEditModal | MobileRN/src/screens/main/JoinMeeting.tsx:116-122 | Sets the edited field, copies its value into the modal, and opens it |
| JoinMeeting.JoinMeetingScreen.HandleSaveEdit | MobileRN/src/screens/main/JoinMeeting.tsx:124-140 | Writes the modal text into the edited field only. A meeting id other than the route's drops host status. Ends closed, with no field and "" |
| JoinMeeting.JoinMeetingScreen.HandleCancelEdit | MobileRN/src/screens/main/JoinMeeting.tsx:142-146 | Ends closed, with no field and "", and no field changed |
| JoinMeeting.JoinMeetingScreen.HandleJoinMeeting | MobileRN/src/screens/main/JoinMeeting.tsx:246-322 | Does what `JoinDecision` says on the current fields. `isJoining` ends false once the SDK was called, and the frame lets no other field change |
| JoinMeeting.JoinMeetingScreen.HandleSendContract | MobileRN/src/screens/main/JoinMeeting.tsx:201-244 | A refusal changes nothing. Otherwise `contractSent` becomes true only on a successful answer, and the sending flag ends false. The frame lets no other field change |
| JoinMeeting.HostStatusNotRestored | MobileRN/src/screens/main/JoinMeeting.tsx:124-130 | Editing the meeting id away and back leaves the user a participant |
| JoinMeeting.CancelKeepsFields | MobileRN/src/screens/main/JoinMeeting.tsx:116-146 | Opening the modal, typing and cancelling leave every field as it was |
| RegisterScreen.ValidationError | MobileRN/src/screens/auth/RegisterScreen.tsx:27-45 | An empty field (untrimmed) comes first, then a mismatched confirmation, then a password under 6 characters; none of these means valid |
| RegisterScreen.Register.HandleRegister | MobileRN/src/screens/auth/RegisterScreen.tsx:26-59 | `register` is called iff validation passes. The screen goes to Home iff it succeeds; otherwise the error alert. `loading` ends false |
| MyMeetingsScreen.StatusColor | MobileRN/src/screens/main/MyMeetingsScreen.tsx:29-42 | Total. created is primary, started is secondary, cancelled is #E53935, and everything else, ended included, is textSecondary |
| MyMeetingsScreen.JoinableHaveActiveColors | MobileRN/src/screens/main/MyMeetingsScreen.tsx:29-51 | `canJoin` holds exactly for the statuses with the two active colours |
| MyMeetingsScreen.ListAfterFetchAsWritten | MobileRN/src/screens/main/MyMeetingsScreen.tsx:118-119 | As written, a successful fetch stores the whole `data` object |
| MyMeetingsScreen.FetchedMeetingsNotShown | MobileRN/src/screens/main/MyMeetingsScreen.tsx:118-119 | As written, a fetched non-empty list never reaches the list view |
| MyMeetingsScreen.ListAfterFetch | MobileRN/src/screens/main/MyMeetingsScreen.tsx:118-119 | Storing `data.meetings`, the list view shows exactly the fetched meetings |
| MyMeetingsScreen.MyMeetings.FetchMeetings | MobileRN/src/screens/main/MyMeetingsScreen.tsx:111-129 | Without a user id, nothing. Otherwise the state becomes `ListAfterFetchAsWritten` (the whole `data` object, so no card is shown) or the error ("Failed to fetch meetings" fallback) is set, and `loading` and `refreshing` end false |
| MyMeetingsScreen.MyMeetings.HandleRefresh | MobileRN/src/screens/main/MyMeetingsScreen.tsx:143-146 | Shows the spinner, then fetches; the state after a user's fetch is `ListAfterFetchAsWritten` |
| MyMeetingsScreen.JoinParamsFor | MobileRN/src/screens/main/MyMeetingsScreen.tsx:148-161 | Always `isHost: true` and this meeting's ids; `zakToken` only when the ZAK fetch succeeded |
| MyMeetingsScreen.ListJoinStartsMeeting | MobileRN/src/screens/main/MyMeetingsScreen.tsx:148-161 | With a ZAK, a join from the list starts the meeting as host and marks that row started |
| CreateMeetingScreen.RequestFor | MobileRN/src/screens/main/CreateMeetingScreen.tsx:61-67 | The trimmed title, or "Contract Call" when blank. `startTime` only for scheduled meetings. No waiting-room or join-before-host setting |
| CreateMeetingScreen.RequestBody | MobileRN/src/screens/main/CreateMeetingScreen.tsx:61-67 | The posted JSON has exactly those keys, and `startTime` only when defined |
| CreateMeetingScreen.MeetingDataOf | MobileRN/src/screens/main/CreateMeetingScreen.tsx:69-77 | Password and join URL default to "", `host` is true, and a null or empty ZAK is undefined |
| CreateMeetingScreen.CreateMeeting.HandleCreateMeeting | MobileRN/src/screens/main/CreateMeetingScreen.tsx:53-87 | Without a user id nothing is sent and "User not authenticated" is shown. Otherwise `RequestFor` of the form is sent and `isCreating` ends false. Success sets the card from `MeetingDataOf`; failure shows the error or "Failed to create meeting". The form is unchanged |
| CreateMeetingScreen.CreateMeeting.ResetForm | MobileRN/src/screens/main/CreateMeetingScreen.tsx:116-125 | Every default is restored: no meeting, instant, "", "", 60, false, true, false |
| CreateMeetingScreen.JoinParamsFor | MobileRN/src/screens/main/CreateMeetingScreen.tsx:97-108 | Navigates only with a card: `isHost: true`, `dbMeetingId =` the card's id |
| CreateMeetingScreen.RequestHasNoUserId | MobileRN/src/screens/main/CreateMeetingScreen.tsx:61-67 | The request has no `userId` field |
| UseDeeplink.CollectLastWins | MobileRN/src/hooks/useDeeplink.ts:34-37 | A key is collected iff some pair has it, and its value is the last such pair's |
| UseDeeplink.CollectParams | MobileRN/src/hooks/useDeeplink.ts:32-37 | The loop builds exactly `Collect` of the query pairs |
| UseDeeplink.HandleDeeplink | MobileRN/src/hooks/useDeeplink.ts:26-46 | Navigates, always to "Waiting" with no parameters, iff the URL parses, its host is "join" or its path is "/join", and the collected `meetingId` is non-empty. The scheme is never looked at |
| UseDeeplink.HandleInitialUrl | MobileRN/src/hooks/useDeeplink.ts:10-14 | No (or an empty) initial URL means no navigation; a non-empty one navigates, always to "Waiting", exactly when `handleDeeplink` would: it parses, is a join link and carries a non-empty `meetingId` |
| UseDeeplink.LastMeetingIdDecides | MobileRN/src/hooks/useDeeplink.ts:34-41 | A repeated `meetingId` is decided by its last value |
| AppBackendAgreement.AppCreateRequestForbidden | backend/src/middleware/auth.middleware.ts:12 | As written, every create request the app sends is refused with 403 |
| AppBackendAgreement.AppCreateRequestAllowed | backend/src/middleware/auth.middleware.ts:12-24 | With the guard reading `hostUserId`, a seller's request passes |
| AppBackendAgreement.AppCreateRequestParses | backend/src/routes/meeting.routes.ts:56-62 | The app's request then passes `createMeetingSchema` when its host id is a UUID and its duration is in range |
| AppBackendAgreement.AppContractRequestRejected | backend/src/routes/contract.routes.ts:7-14 | As written, every send-contract request the app makes is a 400 |
| AppBackendAgreement.AppContractRequestAccepted | backend/src/routes/contract.routes.ts:6-22 | With a schema matching the app's body, every request the join screen lets through is accepted |

## Left out

- Network, storage and UI.
  - The fetch wrappers in MobileRN/src/services/backend.service.ts are not modelled: each screen receives the wrapper's resolved answer as a value. The wrappers catch their own errors, so the screens' own `catch` branches are not modelled.
  - Express, Supabase clients, AsyncStorage, navigation and all rendering are out of scope. Only what a screen passes to `navigate` is modelled.
  - Timers and the SDK-readiness poll are out too. `sdkReady` is a parameter, and `setTimeout` delays are taken as immediate.
- Cryptography and encodings. HMAC-SHA256, JWT signing, base64, `encodeURIComponent`, `URLSearchParams` and the WHATWG URL parser are uninterpreted parameters. Their outputs are never inspected.
- Clocks and ids. `Date.now()` and the database clock are a `now` parameter. The new row's uuid is a `newId` parameter that must differ from existing ids, as the database guarantees.
- Integers.
  - Durations are integers, although `z.number()` also accepts fractions.
  - Timestamps are integer milliseconds.
  - `Math.round` is `(ms + 500) / 1000` on a non-negative clock.
- UserRoutes.FcmTokenRoute: a `{success: false}` answer whose `error` is undefined is replied as `{error: ""}`. The handler sends `{error: undefined}`, which serializes as `{}`; the model's `ErrorJson` carries a string, so it does not tell those two apart.
- ZodRules.StringMin: measures length in code points. JavaScript counts UTF-16 units, so the two differ on characters outside the Basic Multilingual Plane. `password.length` in RegisterScreen.ValidationError and the `meetingId.length >= 3` check in ZoomRoutes.ParseSignatureRequest have the same difference.
- Common.ToLower: lower-cases ASCII letters only. `toLowerCase` also folds other scripts.
- MeetingRoutes.ValidationReply: a thrown TypeError (missing payload, non-string plainToken) escapes the handler. It is modelled as "no reply" (`NoReply`), not as Express's 500 page.
- EmailService.GenerateEmailHtml: the HTML is modelled as structure (which sections, links and widths appear), not as its full markup text.
- FcmService: the Firebase Admin initialisation is a parameter that is either present or an error.
- NotificationService.Notifications: handlers and callbacks are numbered ids, and the calls made to them are logged.
  - The "Dismiss" button is the absence of a "View" press.
  - `openUrl` only wraps `Linking.openURL` and is not modelled.
  - Both tapped-notification listeners share one method, since they differ only in their delays.
- JoinMeeting.JoinMeetingScreen.HandleJoinMeeting: the effect on `isJoining` is given as its final value. The transient `true` during the SDK call is not visible in the model.
- JoinMeeting: the `useEffect` that copies route parameters again when they change is not modelled. The constructor applies them once.
- CreateMeetingScreen.CreateMeeting: the text-input setters (title, start time, duration, switches) are plain field assignments and have no methods.
- The three join deep-link formats are modelled separately: `DealFlow:///join?`, the email's form-encoded `dealflow://join?`, and FCM's `dealflow://join?` with only the password encoded. The URL parser is a parameter, so no lemma connects them to `UseDeeplink.IsJoinLink`.

## Findings

| source | as written | input that shows it | evidently intended | confidence | as-written member | corrected member |
|---|---|---|---|---|---|---|
| backend/src/middleware/auth.middleware.ts:12 | The seller guard on POST /meetings looks up `req.body.userId`. The app's create request (MobileRN/src/screens/main/CreateMeetingScreen.tsx:61-67) carries `hostUserId` and no `userId`. The lookup is for "undefined", so every create request is refused with 403 | A seller with a valid UUID posts `{hostUserId, title: "Contract Call", type: "instant", duration: 60}` | Check the role of the `hostUserId` the request creates the meeting for | medium, not executed | AppBackendAgreement.AppCreateRequestForbidden | AuthMiddleware.RequireHostSellerRole |
| backend/src/routes/contract.routes.ts:7-10 | POST /contracts/send requires `clientUserId`. The app (MobileRN/src/screens/main/JoinMeeting.tsx:222-227) posts `{clientEmail, sellerUserId, meetingId?, contractUrl?}`, so every request is a 400 | `{clientEmail: "a@b.co", sellerUserId: "u1"}` | A schema that accepts the body the app sends | low (the route is an unfinished stub), not executed | AppBackendAgreement.AppContractRequestRejected | ContractRoutes.AppContractSendRoute |
| MobileRN/src/screens/main/MyMeetingsScreen.tsx:118-119 | `setMeetings(response.data)` stores the wrapper's `{meetings, zakToken}` object (MobileRN/src/services/backend.service.ts:141-147). The state is a `Meeting[]`, and the list view finds no array in it | A successful fetch returning one meeting | `setMeetings(response.data.meetings)` | medium, not executed | MyMeetingsScreen.FetchedMeetingsNotShown | MyMeetingsScreen.ListAfterFetch |
