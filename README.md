# ASCII-FRONT call and sign-up logic in Dafny

This project models the client-side logic of ASCII-FRONT, a web front end for random one-to-one video calls. The screens themselves are left out. What is modelled:

- **Signaling hook.** `useWebRTC` (module `WebRtcHook`) keeps the call record (`isMatching`, `isConnected`, `roomId`, `remoteUserId`), the one peer connection it owns, the remote stream, an error slot and the messages it sends over the signaling socket.
  - It reacts to signaling messages (`match-found`, `offer`, `answer`, `ice-candidate`, `user-disconnected`, `match-cancelled`).
  - It reacts to peer-connection callbacks (track, connection state, local candidate) and to socket events.
  - It reacts to local actions (`startMatching`, `cancelMatching`, `endCall`).
  - Each handler is a function on a `Hook` snapshot. The class `SignalingHook` runs the same handlers in place on its fields and keeps the hook's invariant.
- **Mock hook.** `useMockWebRTC` (module `MockWebRtc`) simulates matching and connecting with two timers.
- **Call screen.** The call page (module `CallPage`) has five screens. It syncs them from the hook, keeps a `MM:SS` call clock, starts matching automatically at most once per mount, and handles the end-of-call, add-friend and next-call choices.
- **Sign-up wizard** (module `Signup`): its step tables, its result handlers and the minimum-age check.
- **Form logic** from the sign-up components:
  - the terms checkboxes (`TermsAgreement`);
  - the 3-4-4 phone formatter (`PhoneInput`);
  - the five-slot code editor with its countdown (`VerificationCode`).
- **Plumbing:**
  - the two separate token stores (`UtilsAuth`, `LibAuth`);
  - the posts to the native bridge (`NativeBridge`);
  - the 401 refresh-and-retry interceptor (`Api`);
  - the reconnecting `WebSocketClient`;
  - the native message listener (`NativeMessage`);
  - the signaling endpoint builder and reconnection constants (`Config`).
- **Helpers.** `Wrappers` holds `Option` and `NonEmpty`, JavaScript's `s || null` on strings. `TimeText` holds decimal text, `padStart(2, "0")` and the `MM:SS` formatter shared by the call clock and the code countdown.

Modelling conventions:
- Asynchronous steps (awaited promises, timer firings, socket and peer-connection callbacks) become explicit event methods. Their outcomes arrive as parameters.
- Session descriptions, ICE candidates, media streams and blobs are opaque values.
- JavaScript truthiness is written out where the source relies on it. An empty token, room id or user id counts as absent, and so does a peer id of 0. `hasToken` in `src/utils/auth.ts`, however, tests `!== null`, so there an empty string still counts as a token.
- User-facing error texts are represented by enumerations.
- Where the repository's design description differs from the code, the model follows the code:
  - the signaling hook has no session id and never calls the matching service;
  - nothing keeps `isConnected` and `isMatching` exclusive (`WebRtcHook.MatchingWhileConnected`);
  - a `match-found` that arrives after a cancellation is still acted on (`WebRtcHook.LateMatchAfterCancel`).

## Model

| member | source | states |
|---|---|---|
| Wrappers.NonEmpty | src/hooks/useWebRTC.ts:74-75 | `s \|\| null` on an optional string is present exactly when the string is present and non-empty, and is then that string |
| TimeText.ParseDecimalText | src/components/signup/Verificationcodeinput.tsx:43-47 | reading back the decimal text of a number gives the number |
| TimeText.Pad2 | src/components/signup/Verificationcodeinput.tsx:46 | `String(n).padStart(2, "0")` is all digits, reads back as n, and is two characters exactly when n < 100 |
| TimeText.MinSec | src/components/signup/Verificationcodeinput.tsx:43-47 | minutes, a colon and two-digit seconds; minutes·60 + seconds reads back as the input; five characters exactly when the input is below 6000 |
| Config.ReconnectConfigConsistent | src/utils/config.ts:29-35 | min delay 1000 ≤ max delay 10000, growth factor 3/2 > 1, 10 retries, 4000 ms timeout |
| Config.SignalingUrl | src/utils/config.ts:14 | the signaling address is base + "/signaling/" + id + "/" (its length) |
| Config.SignalingRoundTrip | src/utils/config.ts:14 | the session id is recovered from the address built for it |
| Config.SignalingInjective | src/utils/config.ts:14 | distinct session ids give distinct signaling addresses |
| Config.TestUrl | src/utils/config.ts:17 | the test address starts with the base and has the shape of no session's signaling address |
| NativeBridge.Channel.PostIfPresent | src/utils/auth.ts:23-31 | a message is posted to the native bridge only when the bridge exists |
| UtilsAuth.AuthStore.constructor | src/utils/auth.ts:7-8 | the store starts with the two dev tokens, so a token is present |
| UtilsAuth.AuthStore.SetTokens | src/utils/auth.ts:13-32 | both tokens replaced; `SAVE_REFRESH_TOKEN` with the refresh token posted only when the bridge exists |
| UtilsAuth.AuthStore.GetAccessToken | src/utils/auth.ts:37-39 | returns the stored access token, present exactly when `hasToken` holds |
| UtilsAuth.AuthStore.GetRefreshToken | src/utils/auth.ts:44-46 | returns the stored refresh token |
| UtilsAuth.AuthStore.ClearTokens | src/utils/auth.ts:51-65 | both tokens null, no token present, `DELETE_REFRESH_TOKEN` posted only when the bridge exists |
| UtilsAuth.AuthStore.SetRefreshTokenFromNative | src/utils/auth.ts:70-76 | only the refresh token changes |
| UtilsAuth.AuthStore.HasToken | src/utils/auth.ts:81-83 | true exactly when the access token is not null (an empty string counts) |
| UtilsAuth.TokenStoreRoundTrip | src/utils/auth.ts:13-65 | on any store, after `setTokens(a, r)` the getters return a and r, a token is present, and the bridge (when there) was told to save r |
| UtilsAuth.ClearTokensTwice | src/utils/auth.ts:13-65 | on any store, two clears leave both tokens absent and no token present, as one does; the bridge (when there) receives one delete per clear |
| LibAuth.AuthStore.constructor | src/lib/auth.ts:1-2 | both tokens start null |
| LibAuth.AuthStore.SetTokens | src/lib/auth.ts:4-17 | both tokens replaced; `SAVE_REFRESH_TOKEN` posted only when the bridge exists |
| LibAuth.AuthStore.GetAccessToken | src/lib/auth.ts:19 | returns the stored access token |
| LibAuth.AuthStore.GetRefreshToken | src/lib/auth.ts:21 | returns the stored refresh token |
| LibAuth.AuthStore.ClearTokens | src/lib/auth.ts:23-35 | both tokens null; `DELETE_REFRESH_TOKEN` posted only when the bridge exists |
| LibAuth.AuthStore.SetRefreshTokenFromNative | src/lib/auth.ts:37-39 | only the refresh token changes |
| Api.BearerFor | src/lib/api.ts:30-33 | an Authorization header exists exactly when the access token is truthy, and is "Bearer " + token |
| Api.InterceptRequest | src/lib/api.ts:28-35 | the request keeps its path and retry mark and gains the bearer header exactly when a truthy access token is stored |
| Api.KeptRefresh | src/lib/api.ts:74 | the refresh token kept after a refresh is the new one when truthy, else the one sent |
| Api.InterceptResponseError | src/lib/api.ts:44-93 | refresh only on a 401 not yet retried; no refresh token: tokens cleared, the marked original rejected; refreshed: tokens replaced and the marked request retried with the new bearer; refresh failed: tokens cleared and the refresh error rejected; otherwise rejected unchanged with tokens untouched; every retry is marked |
| Api.AtMostOneRetry | src/lib/api.ts:50-51 | a request already marked as retried is never refreshed again |
| Api.Login | src/lib/api.ts:103-108 | the login goes through both interceptors (lines 28-93): a success stores the returned pair; a non-401 failure changes neither tokens nor bridge; a 401 without a refresh token, or with a failed refresh, clears the tokens and posts a delete; a refreshed 401 re-sends the login once, storing its pair on success and keeping the refreshed tokens on failure; the bridge log is stated on every path |
| Api.Logout | src/lib/api.ts:113-115 | both tokens cleared, and a delete posted to the bridge exactly when it is there (`clearTokens`, src/utils/auth.ts:57-64) |
| WebSocketClient.Client.constructor | src/lib/websocket.ts:4-11 | no socket, no reconnect timer, nothing sent, no socket dialled yet |
| WebSocketClient.Client.Connect | src/lib/websocket.ts:13-53 | without a truthy token it throws and the socket is untouched; otherwise a new, not yet open socket at the token address, with the next dial number; the old socket is not closed |
| WebSocketClient.Client.OnOpen | src/lib/websocket.ts:23-34 | the opening socket is marked OPEN only when it is the one the client holds; the stored reconnect timer is cleared whichever socket opened |
| WebSocketClient.Client.AttemptReconnect | src/lib/websocket.ts:75-86 | a no-op while a timer is stored, otherwise one pending timer |
| WebSocketClient.Client.OnClose | src/lib/websocket.ts:49-52 | the closing socket is marked not OPEN only when it is the one the client holds; a reconnect is scheduled unless one is stored, whichever socket closed |
| WebSocketClient.Client.OnCloseGuarded | src/lib/websocket.ts:49-52 | the corrected close handler: a close of a socket the client no longer holds changes nothing; otherwise as `onclose` |
| WebSocketClient.Client.OnReconnectTimerFired | src/lib/websocket.ts:78-85 | the pending timer fires once and reconnects; it stays stored |
| WebSocketClient.Client.Send | src/lib/websocket.ts:55-61 | data goes out only on an open socket |
| WebSocketClient.Client.Disconnect | src/lib/websocket.ts:63-73 | no timer and no socket afterwards |
| WebSocketClient.Client.OnMessage | src/lib/websocket.ts:36-43 | incoming data, parsed or not, changes no state |
| WebSocketClient.ReconnectHappensOnce | src/lib/websocket.ts:49-52 | once the stored timer has fired, a close of any socket before a successful open schedules nothing new |
| WebSocketClient.StaleCloseKeepsCurrentOpen | src/lib/websocket.ts:13-61 | after two connects, the second socket opening and the first closing leave the second OPEN, so `send` still writes; the stray close schedules a reconnect |
| WebSocketClient.DisconnectDoesNotStayDown | src/lib/websocket.ts:63-86 | after `disconnect()`, the dropped socket's close schedules a reconnect whose firing dials a new socket with a truthy token |
| WebSocketClient.CorrectedDisconnectStaysDown | src/lib/websocket.ts:63-73 | with the guarded close handler, the same events leave no socket, no timer and nothing more sent |
| NativeMessage.DeliveredToken | src/hooks/useNativeMessage.ts:13-36 | a token is taken exactly from a parsed `REFRESH_TOKEN` message with a non-empty token |
| NativeMessage.Listener.constructor | src/hooks/useNativeMessage.ts:6 | not listening yet |
| NativeMessage.Listener.Mount | src/hooks/useNativeMessage.ts:39-58 | listening; `GET_REFRESH_TOKEN` posted once, only when the bridge exists |
| NativeMessage.Listener.Unmount | src/hooks/useNativeMessage.ts:60-66 | no longer listening |
| NativeMessage.Listener.Deliver | src/hooks/useNativeMessage.ts:10-37 | while listening, a delivered token replaces the `src/lib/auth.ts` refresh token; anything else leaves both tokens unchanged |
| NativeMessage.DeliveredTokenNotSeenByApi | src/hooks/useNativeMessage.ts:18-20 | a delivered token leaves the `src/utils/auth.ts` store that the API reads unchanged |
| TermsAgreement.AllAgreed | src/components/signup/Termsagreement.tsx:19-29 | all six flags become the negation of the previous `all` |
| TermsAgreement.IndividualAgreed | src/components/signup/Termsagreement.tsx:31-47 | exactly flag k flips; `all` is recomputed as the conjunction of the five |
| TermsAgreement.MarketingIsOptional | src/components/signup/Termsagreement.tsx:49-53 | proceeding needs exactly the four required flags; marketing does not matter |
| TermsAgreement.ToggleTwiceRestores | src/components/signup/Termsagreement.tsx:31-47 | toggling the same item twice restores the whole record |
| TermsAgreement.ConsistentAfterClicks | src/components/signup/Termsagreement.tsx:10-47 | any sequence of clicks keeps `all` equal to the conjunction of the five flags |
| TermsAgreement.TermsForm.constructor | src/components/signup/Termsagreement.tsx:10-17 | all six flags false |
| TermsAgreement.TermsForm.HandleAllAgree | src/components/signup/Termsagreement.tsx:19-29 | the record becomes the all-toggle of the old one |
| TermsAgreement.TermsForm.HandleIndividualAgree | src/components/signup/Termsagreement.tsx:31-47 | the record becomes the single toggle of the old one |
| TermsAgreement.TermsForm.HandleNext | src/components/signup/Termsagreement.tsx:55-59 | proceeds exactly when the four required flags are set |
| PhoneInput.Digits | src/components/signup/Phoneinput.tsx:19 | removing non-digits leaves only digits and never lengthens |
| PhoneInput.DigitsAppend | src/components/signup/Phoneinput.tsx:19 | digit extraction distributes over concatenation |
| PhoneInput.HyphenatedDigits | src/components/signup/Phoneinput.tsx:20-26 | the hyphenated text holds the first min(11, n) digits |
| PhoneInput.HyphenatedShape | src/components/signup/Phoneinput.tsx:20-26 | at most 13 characters; hyphens exactly at index 3 (4+ digits) and 8 (8+ digits) |
| PhoneInput.FormatPhoneNumber | src/components/signup/Phoneinput.tsx:18-27 | only digits and '-'; without hyphens it is the first min(11, n) input digits; at most 13 long; hyphen placement as above |
| PhoneInput.FormatIdempotent | src/components/signup/Phoneinput.tsx:18-27 | formatting a formatted number changes nothing |
| PhoneInput.CompleteIsFullyFormatted | src/components/signup/Phoneinput.tsx:41 | a complete number is formatted to all 13 characters |
| PhoneInput.PhoneForm.HandlePhoneChange | src/components/signup/Phoneinput.tsx:29-32 | the field holds the formatted input |
| PhoneInput.PhoneForm.HandleNext | src/components/signup/Phoneinput.tsx:34-39 | submits the field exactly when it has 11 digits and the form is enabled |
| VerificationCode.EmptyCode | src/components/signup/Verificationcodeinput.tsx:22 | five empty slots |
| VerificationCode.LastChar | src/components/signup/Verificationcodeinput.tsx:53 | `value.slice(-1)`: the last character, or empty |
| VerificationCode.JoinLength | src/components/signup/Verificationcodeinput.tsx:72-75 | the joined code is as long as the slot count exactly when every slot is filled |
| VerificationCode.CodeInput.constructor | src/components/signup/Verificationcodeinput.tsx:22-24 | empty code, 180 seconds, not verifying |
| VerificationCode.CodeInput.HandleChange | src/components/signup/Verificationcodeinput.tsx:49-60 | a non-digit value changes nothing; otherwise only slot i becomes the value's last character |
| VerificationCode.CodeInput.Tick | src/components/signup/Verificationcodeinput.tsx:27-34 | one second less while time is left, never negative |
| VerificationCode.CodeInput.VerifyCode | src/components/signup/Verificationcodeinput.tsx:71-88 | submits the joined code exactly when all five slots are filled; a throwing `onNext` reports an error and empties the code |
| VerificationCode.CodeInput.AutoVerify | src/components/signup/Verificationcodeinput.tsx:36-41 | verification starts by itself exactly when every slot is filled and it is neither verifying nor disabled |
| VerificationCode.CodeInput.HandleResend | src/components/signup/Verificationcodeinput.tsx:90-97 | disabled: nothing; otherwise empty code, 180 seconds, resend requested |
| VerificationCode.CodeInput.CanSubmit | src/components/signup/Verificationcodeinput.tsx:190-195 | enabled exactly when not verifying, not disabled, time left and no empty slot |
| VerificationCode.CodeInput.TimeLabel | src/components/signup/Verificationcodeinput.tsx:43-47 | a five-character "MM:SS" whose minutes·60 + seconds is the time left |
| Signup.CheckAge | src/app/signup/page.tsx:288-307 | the age is at least 50 exactly when the 50th birthday falls on or before today; an unreadable date fails |
| Signup.NextStep | src/app/signup/page.tsx:54-88 | never moves backwards; stays put exactly on capture, age-restriction, face-capture, face-confirm and complete; from confirmation goes to the phone step exactly when a card is present and the age check passes, else to the age stop |
| Signup.PrevStep | src/app/signup/page.tsx:254-286 | never moves forwards; stays put exactly on terms, age-restriction, final-loading and complete |
| Signup.PrevUndoesNext | src/app/signup/page.tsx:254-286 | undoing the forward table of lines 54-88: back after next returns to terms, preparation, phone-input, verification-code and face-guide |
| Signup.MessageOr | src/app/signup/page.tsx:110-115 | as in every `setError(x \|\| fallback)` of the page: `message \|\| fallback`: a non-empty server message, else the fallback |
| Signup.SignupWizard.constructor | src/app/signup/page.tsx:45-52 | terms step, nothing entered, no error, not busy |
| Signup.SignupWizard.HandleNextStep | src/app/signup/page.tsx:54-88 | the step follows the next table; leaves for home only from complete |
| Signup.SignupWizard.HandlePrevStep | src/app/signup/page.tsx:254-286 | error cleared; the step follows the back table |
| Signup.SignupWizard.HandleCaptureNext | src/app/signup/page.tsx:90-93 | busy, error cleared, loading step |
| Signup.SignupWizard.OnIdCardVerified | src/app/signup/page.tsx:95-119 | success: confirmation with the card; failure or exception: capture with an error; no longer busy |
| Signup.SignupWizard.HandlePhoneInputNext | src/app/signup/page.tsx:122-125 | busy, error cleared, number remembered |
| Signup.SignupWizard.OnCodeSent | src/app/signup/page.tsx:127-143 | success: code step; failure or exception: an error, step unchanged; no longer busy |
| Signup.SignupWizard.HandleVerificationSuccess | src/app/signup/page.tsx:146-148 | busy, error cleared |
| Signup.SignupWizard.OnCodeVerified | src/app/signup/page.tsx:150-172 | success: face guide; failure or exception: only the error modal, step unchanged; no longer busy |
| Signup.SignupWizard.HandleResendCode | src/app/signup/page.tsx:174-177 | modal closed, busy, error cleared |
| Signup.SignupWizard.OnCodeResent | src/app/signup/page.tsx:179-192 | the step never changes; failure or exception sets an error; no longer busy |
| Signup.SignupWizard.HandleFacePhotoCapture | src/app/signup/page.tsx:195-200 | photo and its URL kept; confirm step |
| Signup.SignupWizard.HandleFacePhotoConfirm | src/app/signup/page.tsx:202-228 | missing card or photo: only an error; otherwise final loading, still busy |
| Signup.SignupWizard.HandleRetry | src/app/signup/page.tsx:230-234 | card forgotten, error cleared, capture step |
| Signup.SignupWizard.HandleFaceRetry | src/app/signup/page.tsx:236-244 | a non-empty photo URL released; photo forgotten, error cleared, face-capture step |
| CallPage.Synced | src/app/call/page.tsx:110-116 | connected wins, then matching, otherwise the screen stays |
| CallPage.SyncIdempotent | src/app/call/page.tsx:110-116 | re-running the sync with the same hook flags changes nothing |
| CallPage.DurationText | src/app/call/page.tsx:92-97 | "MM:SS" whose minutes·60 + seconds is the whole seconds elapsed; five characters below 100 minutes |
| CallPage.CallScreen.constructor | src/app/call/page.tsx:29-66 | matching screen, "00:00", no start time, guard down |
| CallPage.CallScreen.Mount | src/app/call/page.tsx:69-71 | mounted |
| CallPage.CallScreen.AutoStartEffect | src/app/call/page.tsx:74-83 | once mounted, outside mock mode and with the guard down: raise the guard and start matching; otherwise nothing |
| CallPage.CallScreen.SyncEffect | src/app/call/page.tsx:110-116 | the screen follows the sync rule |
| CallPage.CallScreen.DurationEffect | src/app/call/page.tsx:86-107 | a new connection records its start; an existing one runs the clock; no connection clears the start and stops the clock |
| CallPage.CallScreen.IntervalTick | src/app/call/page.tsx:92-99 | while the clock runs, the duration is the elapsed time since the start |
| CallPage.CallScreen.ErrorEffect | src/app/call/page.tsx:141-146 | a non-empty hook error is alerted and cleared in the hook |
| CallPage.CallScreen.HandleEndCall | src/app/call/page.tsx:148-151 | the hook ends the call, then the end screen |
| CallPage.CallScreen.HandleCancelMatching | src/app/call/page.tsx:153-156 | the hook cancels matching, then the page is left |
| CallPage.CallScreen.HandleAddFriend | src/app/call/page.tsx:158-176 | a request goes out exactly when the token and the peer id are truthy; otherwise only an alert; the screen does not change |
| CallPage.CallScreen.OnFriendAddSettled | src/app/call/page.tsx:178-191 | only an `added` answer shows the friend-added screen; a refusal or error only alerts |
| CallPage.CallScreen.HandleSkipFriend | src/app/call/page.tsx:194-196 | next-choice screen |
| CallPage.CallScreen.HandleNextCallFromFriendAdded | src/app/call/page.tsx:198-203 | "00:00", guard down, matching screen, matching started |
| CallPage.CallScreen.HandleNextCallFromChoice | src/app/call/page.tsx:205-207 | sliding, one restart scheduled |
| CallPage.CallScreen.OnSlideTimer | src/app/call/page.tsx:207-213 | slide over; "00:00", guard down, matching screen, matching started |
| CallPage.CallScreen.HandleEndFromChoice | src/app/call/page.tsx:216-219 | "00:00" and the page is left |
| CallPage.AutoStartRunsOnce | src/app/call/page.tsx:66-83 | for any number of effect runs, the page ends with the guard raised and exactly one `startMatching` call if it was mounted, not in mock mode and not yet started (and at least one run happened), and is otherwise unchanged |
| CallPage.ConnectedClock | src/app/call/page.tsx:86-101 | once connected, the clock counts from the moment of connection |
| MockWebRtc.CaughtError | src/hooks/useMockWebrtc.ts:101-106 | an Error's own message, else the fallback |
| MockWebRtc.MockHook.constructor | src/hooks/useMockWebrtc.ts:10-22 | blank record, no streams, no error, socket flag true |
| MockWebRtc.MockHook.StartMatching | src/hooks/useMockWebrtc.ts:67-108 | camera acquired only when absent; a refusal ends with matching off and the caught error; otherwise matching on, error cleared, match timer scheduled |
| MockWebRtc.MockHook.OnMatchTimer | src/hooks/useMockWebrtc.ts:85-93 | the record becomes exactly {false, false, "mock-room-123", "mock-user-456"}; the connect timer is scheduled |
| MockWebRtc.MockHook.OnConnectTimer | src/hooks/useMockWebrtc.ts:95-99 | connected, other fields unchanged; the fake remote stream shown when acquired |
| MockWebRtc.MockHook.CancelMatching | src/hooks/useMockWebrtc.ts:111-114 | only the matching flag; pending timers stay |
| MockWebRtc.MockHook.EndCall | src/hooks/useMockWebrtc.ts:117-132 | remote stream stopped and dropped; blank record |
| MockWebRtc.MockHook.ClearError | src/hooks/useMockWebrtc.ts:156 | error cleared |
| MockWebRtc.EndCallIdempotent | src/hooks/useMockWebrtc.ts:117-132 | ending twice leaves the whole hook state (timers, local stream and error included) exactly as ending once: the remote stream stopped once, the record reset |
| MockWebRtc.CancelledMatchStillConnects | src/hooks/useMockWebrtc.ts:85-114 | after a cancel the pending timers still match and connect |
| MockWebRtc.EndedCallStillConnects | src/hooks/useMockWebrtc.ts:95-132 | after ending, a pending connect timer still marks the call connected |
| MockWebRtc.RefusedCameraStopsMatching | src/hooks/useMockWebrtc.ts:101-107 | a refused camera leaves the hook not matching, with an error, nothing scheduled |
| WebRtcHook.Mounted | src/hooks/useWebRTC.ts:15-27 | all false/null, socket not open, no connection, nothing sent |
| WebRtcHook.Send | src/hooks/useWebRTC.ts:251-257 | sent exactly when the socket is open, otherwise dropped; nothing else changes |
| WebRtcHook.CreatePeer | src/hooks/useWebRTC.ts:134-180 | the old connection is closed; a new one with the next number replaces it |
| WebRtcHook.ResetCall | src/hooks/useWebRTC.ts:278-307 | no connection, no remote stream, blank call record |
| WebRtcHook.OnMatchFound | src/hooks/useWebRTC.ts:70-77 | with `createOffer` (lines 183-199): matching off, non-empty room/user ids kept, connected flag untouched, a new connection, the offer sent (or an error) |
| WebRtcHook.OnOffer | src/hooks/useWebRTC.ts:202-220 | a new connection takes the offer and sends the answer; a refused offer or failed answer sets the error |
| WebRtcHook.OnAnswer | src/hooks/useWebRTC.ts:223-234 | applied only to an existing connection; a refusal is only logged |
| WebRtcHook.OnIceCandidate | src/hooks/useWebRTC.ts:237-248 | added only to an existing connection; a refusal is only logged |
| WebRtcHook.StartMatching | src/hooks/useWebRTC.ts:260-268 | with `startLocalStream` (lines 113-131): camera acquired only when absent; a refusal only reports; otherwise matching on and `match-request` sent |
| WebRtcHook.CancelMatching | src/hooks/useWebRTC.ts:271-274 | only the matching flag, and `match-cancelled` sent |
| WebRtcHook.AtMostOneLivePeer | src/hooks/useWebRTC.ts:134-137 | the only connection made and not closed is the current one |
| WebRtcHook.StepKeepsValid | src/hooks/useWebRTC.ts:66-310 | every event keeps: connected exactly when a remote stream is shown, and at most one live connection |
| WebRtcHook.RunKeepsValid | src/hooks/useWebRTC.ts:66-310 | any event sequence keeps that invariant |
| WebRtcHook.ReachableValid | src/hooks/useWebRTC.ts:15-24 | from this initial state, under the handlers of lines 30-310: every state reached after mounting satisfies it |
| WebRtcHook.ConnectsOnlyOnTrack | src/hooks/useWebRTC.ts:149-155 | the call turns connected only on a track event on a live connection carrying a stream, which is then shown |
| WebRtcHook.SendsOnlyWhenOpen | src/hooks/useWebRTC.ts:251-257 | the outbound log only grows, by at most one outbound-kind message, and only while the socket is open |
| WebRtcHook.IgnoredMessages | src/hooks/useWebRTC.ts:55-108 | malformed data, unknown types and messages without their payload or connection change nothing |
| WebRtcHook.ServerCancelClearsOnlyMatching | src/hooks/useWebRTC.ts:102-105 | `match-cancelled` clears only the matching flag and sets the error |
| WebRtcHook.EndCallAndDisconnectAgree | src/hooks/useWebRTC.ts:277-310 | same reset; only the disconnect sets an error; only the end of call sends `user-disconnected` |
| WebRtcHook.EndCallIdempotent | src/hooks/useWebRTC.ts:277-292 | ending twice leaves the state of ending once, apart from the repeated announcement |
| WebRtcHook.ConnectionLossDisconnects | src/hooks/useWebRTC.ts:168-176 | `disconnected` or `failed` is a disconnect; other states change nothing |
| WebRtcHook.LateMatchAfterCancel | src/hooks/useWebRTC.ts:70-77 | after `cancelMatching` (lines 271-274): a `match-found` after a cancel still sets up a call |
| WebRtcHook.MatchingWhileConnected | src/hooks/useWebRTC.ts:260-268 | starting to match during a call leaves both flags set |
| WebRtcHook.StaleHandlerSendsNoMedia | src/hooks/useWebRTC.ts:30-63 | with lines 142-146: as written, no connection made after mounting carries local tracks |
| WebRtcHook.StaleHandlerExample | src/hooks/useWebRTC.ts:30-63 | with lines 142-146 and 260-268: camera granted, then a match: the new connection has no tracks although a local stream exists |
| WebRtcHook.CorrectedPeersCarryLocalStream | src/hooks/useWebRTC.ts:142-146 | reading the current stream, every new connection carries it |
| WebRtcHook.CorrectedExample | src/hooks/useWebRTC.ts:142-146 | corrected, the same run gives a connection carrying the acquired stream |
| WebRtcHook.SignalingHook.constructor | src/hooks/useWebRTC.ts:15-27 | the mounted state, which satisfies the invariant |
| WebRtcHook.SignalingHook.SendSignaling | src/hooks/useWebRTC.ts:251-257 | fields updated as `Send` |
| WebRtcHook.SignalingHook.ClosePeerConnection | src/hooks/useWebRTC.ts:135-137 | fields updated as `ClosePeer` |
| WebRtcHook.SignalingHook.CreatePeerConnection | src/hooks/useWebRTC.ts:134-180 | fields updated as `CreatePeer` |
| WebRtcHook.SignalingHook.HandleDisconnect | src/hooks/useWebRTC.ts:295-310 | fields updated as `Disconnect` |
| WebRtcHook.SignalingHook.EndCall | src/hooks/useWebRTC.ts:277-292 | fields updated as the end-of-call step; invariant kept |
| WebRtcHook.SignalingHook.OnMessage | src/hooks/useWebRTC.ts:55-110 | fields updated as the message step; invariant kept |
| WebRtcHook.SignalingHook.HandleMatchFound | src/hooks/useWebRTC.ts:70-77 | with `createOffer` (lines 183-199): fields updated as `OnMatchFound` with the captured stream |
| WebRtcHook.SignalingHook.HandleOffer | src/hooks/useWebRTC.ts:202-220 | fields updated as `OnOffer` with the captured stream |
| WebRtcHook.SignalingHook.OnTrack | src/hooks/useWebRTC.ts:149-155 | fields updated as the track step; invariant kept |
| WebRtcHook.SignalingHook.OnConnectionStateChange | src/hooks/useWebRTC.ts:168-176 | fields updated as the connection-state step; invariant kept |
| WebRtcHook.SignalingHook.OnIceCandidate | src/hooks/useWebRTC.ts:158-165 | fields updated as the local-candidate step; invariant kept |
| WebRtcHook.SignalingHook.OnSocketOpen | src/hooks/useWebRTC.ts:39-43 | socket open, connected flag set, error cleared |
| WebRtcHook.SignalingHook.OnSocketClose | src/hooks/useWebRTC.ts:45-48 | socket closed, connected flag cleared |
| WebRtcHook.SignalingHook.OnSocketError | src/hooks/useWebRTC.ts:50-53 | the socket error is reported |
| WebRtcHook.SignalingHook.StartLocalStream | src/hooks/useWebRTC.ts:113-131 | the stream kept, or the missing permission reported |
| WebRtcHook.SignalingHook.StartMatching | src/hooks/useWebRTC.ts:260-268 | fields updated as `StartMatching`; invariant kept |
| WebRtcHook.SignalingHook.CancelMatching | src/hooks/useWebRTC.ts:271-274 | fields updated as `CancelMatching`; invariant kept |
| WebRtcHook.SignalingHook.ClearError | src/hooks/useWebRTC.ts:339 | error cleared |

## Left out

- Rendering, styling and layout (all JSX), and the purely presentational components: the signup screens, the call end and choice screens, `VideoCall`, the layouts.
- Camera and canvas capture (`Idcapture.tsx`, `Facephotocapture.tsx`) and the `getUserMedia` calls. Media acquisition is a granted/refused outcome.
- RTCPeerConnection internals (SDP and ICE contents, STUN servers). Descriptions, candidates and streams are opaque. The track and connection-state callbacks are events, and a closed or absent connection raises none.
- Interleaving inside async handlers: each awaited WebRTC or HTTP call settles as one outcome parameter, and no other event runs between its awaits.
- WebRtcHook.OnOffer: a failure at `createAnswer` and one at `setLocalDescription` are not told apart (both leave the remote offer set and no local description).
- The `reconnecting-websocket` library's own backoff and retry behaviour; only its configuration constants are kept.
- Unmount cleanup in both hooks (closing the socket and the connection, stopping local tracks), `handleExit`'s confirm dialog, the page's video-element wiring, the debug panel and `AudioVisualizer` (floating-point audio levels).
- `src/services/matchService.ts` and geolocation. The hook as written never calls them.
- The debug and demo pages, `Verificationloading.tsx`, `Finalloading.tsx` and `next.config.ts`.
- Signup.CheckAge: the birth date is taken as already split into numbers (None when unreadable); JavaScript `Date` normalisation of out-of-range months and days is not modelled.
- CallPage.DurationText: requires the start time not to lie after the current time; negative elapsed times are not modelled.
- CallPage.CallScreen.IntervalTick: assumes a clock that does not run backwards, so negative elapsed times are not modelled.
- CallPage.CallScreen.HandleAddFriend: `peerUserId` is an input. It is optional in `src/types/webrtc.ts` and neither hook ever sets it, so in the running app the guard always fails.
- The signature mismatches between the call page and `useWebRTC`: the page passes matching criteria and an options object that the hook ignores.
- Browser `maxLength` truncation of the phone field, input focus handling, and the native side of the bridge.
- Logging (`console.*`) throughout.
- Api.Login: the username and password in the request body are not modelled; the server's replies to the login, the refresh and the one re-sent login are inputs.

## Findings

| source | as written | input that shows it | evidently intended | confidence | as-written member | corrected member |
|---|---|---|---|---|---|---|
| src/hooks/useWebRTC.ts:30-63 | the socket's message handler is installed once by the memoised `connectWebSocket` and keeps the first render's `localStream` (null), so connections created for `match-found` and `offer` never get local tracks (lines 142-146) | mount, `startMatching` with the camera granted, then `match-found`: the hook holds a local stream but the new connection carries none | every new peer connection carries the hook's current local stream | high, not executed | WebRtcHook.StaleHandlerSendsNoMedia, WebRtcHook.StaleHandlerExample | WebRtcHook.StepCorrected, WebRtcHook.CorrectedPeersCarryLocalStream, WebRtcHook.CorrectedExample |
| src/app/call/page.tsx:198-214 | both next-call paths lower `hasStartedMatching` and call `startMatching` directly; on the next render the automatic-start effect (lines 74-83) finds the guard down and starts matching again | a mounted page outside mock mode, "next call" from the friend-added screen, then the effect re-runs: two `startMatching` calls | one start of matching per next call | high, not executed | CallPage.CallScreen.RestartMatching, CallPage.NextCallStartsMatchingTwice | CallPage.CallScreen.RestartMatchingOnce, CallPage.CorrectedNextCallStartsMatchingOnce |
| src/lib/websocket.ts:63-73 | `disconnect()` clears the timer, closes the socket and drops it, but the closed socket's `onclose` (lines 49-52) still runs `attemptReconnect`, which finds no timer and schedules one that dials again (lines 75-86) | an open client, `disconnect()`, the close event, then the timer firing with a stored token: a new socket is dialled | a disconnected client stays disconnected | medium, not executed | WebSocketClient.Client.OnClose, WebSocketClient.DisconnectDoesNotStayDown | WebSocketClient.Client.OnCloseGuarded, WebSocketClient.CorrectedDisconnectStaysDown |
