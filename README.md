# Hapa Transcribe: a verified model of the transcription core

Hapa Transcribe is a browser app for live speech-to-text. The browser asks a small backend
relay for an ephemeral OpenAI token. It then opens a WebRTC session to OpenAI's Realtime API.
Over that session it streams microphone audio and receives transcription events on a data
channel. This project models that core in Dafny and proves properties of the model:

- the token client (`getEphemeralToken`) and the backend relay (`generateEphemeralToken`);
- the session service `RealtimeTranscriptionService`;
- the older `WebRTCService`;
- the three components that drive these: the transcription controls, the microphone
  selector and the API-key input.

## How the model is built

- **Browser objects are handles.** A peer connection, a data channel or a media track is a
  `Handle(id)`. New handles take fresh ids from a counter `next`. A handle is open while it is
  in the set `live`.
- **Each service keeps one log.** The log is an ordered list of events: the browser calls the
  service makes (`Perform`), and the callbacks it invokes (`Notify`, `Call`, `Report`). Ordering
  properties, such as teardown order, are stated about this log.
- **Outside results are inputs.** Every result the code awaits is a parameter: how the token
  POST settled, how many audio tracks `getUserMedia` gave, the offer SDP, the SDP exchange
  response, and so on. `StartInputs` and `InitInputs` hold these for one start.
- **Classes mirror datatypes.** Each class of the source is a Dafny `class` with the same
  fields. Its `ghost function Snapshot()` maps those fields to a datatype, and every method
  ensures `Snapshot() == XSpec(old(Snapshot()), …)`. The properties are lemmas about the
  `XSpec` functions.
- **Callbacks are replayed in order.** In `TranscriptionControls`, the callbacks a service call
  makes are replayed against the component, in the order the service made them (`Replay`).
- **Context state lives in the components.** State the source keeps in the application context
  (`isTranscribing`, `transcript`, `error`, `apiKey`, the microphone lists) is modelled as fields
  of the component that writes it.
- **JavaScript values are modelled explicitly.** `Js.Value` covers JSON values plus
  `undefined`. Truthiness, `||`, property access with and without `?.`, and `String(…)` are
  written out, so guards such as `data.message || 'Unknown transcription error'` keep their
  meaning.

### Behaviour of the services that a caller may not expect

The model follows the code. These are the places where the code does something other than
what a caller would naturally assume:

- **A second start does not reject or tear down.**
  - When the new attempt gets as far as creating its peer connection, the old session's
    handles stay open but are no longer referenced (`RestartLeaksOpenSession`).
  - When the new attempt fails earlier, its teardown closes the old session
    (`EarlyRestartFailureClosesOpenSession`).
- **A non-string token fails the start.** The log line before the SDP POST calls `substring` on
  any truthy `client_secret.value`. A number or an object there throws a TypeError, and the
  start fails with it before the POST (`NonStringTokenFailsBeforePost`).
- **Stop is not a no-op on a stopped service.** It reports `disconnected` again (`StopTwice`).
- **Errors are reported before the teardown.** On a failed start or a `failed` connection,
  the service reports `error` first, then calls `onError`, and only then releases what it
  holds (`StartFailureCallbacks`, `FailedConnectionTearsDown`, `ErrorBeforeTeardown`). A caller
  that expects everything to be released when `onError` runs finds it still held. The older
  `WebRTCService` does the opposite: it closes first and calls its error handler last
  (`InitializeClosesFirst`).
- **Transcripts arrive outside `connected`.** They are forwarded whenever options are
  stored, and a stop never clears the options (`MessageForwardsAtMostOne`,
  `OptionsNeverCleared`).
- **A dropped connection is not torn down.** The connection states `disconnected` and `closed`
  only report `disconnected`, and every handle stays held and open
  (`DroppedConnectionKeepsHandles`). Nothing is released until `failed` or an explicit stop.
- **A provider error message ends the session in the controls.** The service only forwards
  it, but the controls' `onError` stops the service (`ErrorMessageStops`). A recoverable
  provider error therefore closes the session as well.
- **The older `WebRTCService` closes in a different order.** It stops the tracks first, then
  the channel, then the peer connection (`CloseOrder`). `RealtimeTranscriptionService`
  closes the channel first (`StopReleasesInOrder`).

### Behaviour of the controls that the model makes visible

- **Partial texts are joined with a space** unless the transcript already ends in one. A
  word split across two deltas therefore comes apart ("he" + "llo" gives "he llo"). A delta
  that brings its own leading space doubles it (`DeltaJunctions`).
- **A failed start still ends with the "Transcription Started" toast**, right after the
  "Transcription Error" toast. `startTranscription` never rejects, so the `catch` at lines
  116-127 can never run. The status line then shows "Error", because the last status
  reported is `disconnected`, and every status other than idle, connected and connecting is
  labelled "Error" (`StartFailureView`).
- **A dropped or closed connection shows "Error"** while the stop button stays on screen
  (`DroppedConnectionView`).

## Model

Source cells are paths in the Hapa Transcribe repository.

| member | source | states |
|---|---|---|
| TokenClient.GetEphemeralToken | frontend/src/services/api/index.ts:15-41 | The relay body comes back unchanged exactly when the POST succeeds. A 401 and a 429 map to their fixed messages whatever the body says. Any other axios error carries the relay's `error.message`, or else axios' own message, after the fixed prefix. Anything else is rethrown unchanged. |
| TokenClient.ErrorDetail | frontend/src/services/api/index.ts:27-28 | The relay's truthy `error.message` wins. Without a response, or when the body has no truthy `error.message`, it is axios' message. |
| TokenClient.BodyWithoutMessageFallsBack | frontend/src/services/api/index.ts:26-37 | For status codes other than 401 and 429, a response whose body has no truthy `error.message` gives the generic prefix followed by axios' message. |
| TokenClient.RelayMessagePreferred | frontend/src/services/api/index.ts:26-37 | For status codes other than 401 and 429, the relay's message appears in the error. A network failure falls back to axios' message. |
| TokenRelay.SelectKey | backend/src/controllers/transcribeController.js:16 | The header key wins when non-empty, else the server key. There is no key exactly when both are missing or empty, and a chosen key is never empty. |
| TokenRelay.GenerateEphemeralToken | backend/src/controllers/transcribeController.js:13-61 | An upstream request is made exactly when a key exists, with that key as the bearer and the fixed model. Without a key the reply is 401 with the fixed message. Upstream failure statuses pass through. An OK body is forwarded unchanged. Whatever throws goes to `next`. |
| TokenRelay.ForwardFailure | backend/src/controllers/transcribeController.js:40-48 | The upstream status is kept. The message and type fall back to fixed texts when falsy. A null body throws. |
| TokenRelay.NoKeyNoUpstream | backend/src/controllers/transcribeController.js:18-24 | Without a key, the reply is the same whatever the upstream service would do. |
| TokenRelay.HeaderKeyWins | backend/src/controllers/transcribeController.js:16 | With a non-empty header key, the server key is irrelevant. |
| TokenRelay.FallbacksForBareError | backend/src/controllers/transcribeController.js:43-48 | An upstream error with neither message nor type gets both fallbacks, under the upstream status. |
| Browser.AudioFor | frontend/src/services/webrtc/index.ts:48-52 | It asks for the exact device exactly when a non-empty id is given. Otherwise it asks for the default device. |
| RealtimeEvents.Classify | frontend/src/services/webrtc/index.ts:149-188 | A message can cause a transcript or an error callback, and never a status change. |
| RealtimeEvents.ClassifyFollowsTable | frontend/src/services/webrtc/index.ts:156-184 | The callback kind is the one a reference table assigns to the `type` tag: three transcript tags, the error tag, and every other tag ignored. |
| RealtimeEvents.TranscriptPayloads | frontend/src/services/webrtc/index.ts:158-170 | Delta messages report `delta` as partial. Done messages report `transcript` as final. `transcription` messages report `text`, final by the truthiness of `final`. |
| RealtimeEvents.ErrorPayload | frontend/src/services/webrtc/index.ts:172-174 | An error message reports its `message`, or the fixed text when that is missing or falsy. |
| RealtimeEvents.InformationalTagsIgnored | frontend/src/services/webrtc/index.ts:176-179 | `connected` and `session_begins` cause no callback. |
| RealtimeSession.TokenValue | frontend/src/services/webrtc/index.ts:41-45 | The token is `client_secret.value` exactly when that is truthy. Otherwise the fixed error, or a TypeError for a null body. |
| RealtimeSession.RealtimeTranscriptionService.constructor | frontend/src/services/webrtc/index.ts:18-24 | All fields start null, and nothing is open. |
| RealtimeSession.RealtimeTranscriptionService.StartTranscription | frontend/src/services/webrtc/index.ts:29-111 | The new state is `StartSpec` of the old one: options stored, `connecting`, the try block, then `connected` or `error`, the error, and teardown. |
| RealtimeSession.RealtimeTranscriptionService.Negotiate | frontend/src/services/webrtc/index.ts:35-103 | The state and the thrown error are those of `NegotiateSpec`, including the TypeError of line 78 for a truthy non-string token. |
| RealtimeSession.RealtimeTranscriptionService.Connect | frontend/src/services/webrtc/index.ts:54-66 | A new peer connection, every audio track added, and the events channel with its listener, then the offer steps of `ConnectSpec`. |
| RealtimeSession.RealtimeTranscriptionService.Offer | frontend/src/services/webrtc/index.ts:68-103 | The offer, the SDP POST to the transcription URL with the bearer token, the answer and the state listener, stopping at the first failure, as `OfferSpec`. A truthy token that is not a string throws a TypeError from the log line's `substring` before the POST. |
| RealtimeSession.RealtimeTranscriptionService.StopTranscription | frontend/src/services/webrtc/index.ts:116-144 | The new state is `StopSpec` of the old one. |
| RealtimeSession.RealtimeTranscriptionService.CloseDataChannel | frontend/src/services/webrtc/index.ts:118-122 | The message listener is removed, the channel is closed and forgotten. |
| RealtimeSession.RealtimeTranscriptionService.ClosePeerConnection | frontend/src/services/webrtc/index.ts:125-129 | The state listener is removed, the connection is closed and forgotten. |
| RealtimeSession.RealtimeTranscriptionService.StopMediaTracks | frontend/src/services/webrtc/index.ts:132-137 | Every track is stopped in order, and the stream is forgotten. |
| RealtimeSession.RealtimeTranscriptionService.HandleTranscriptionEvent | frontend/src/services/webrtc/index.ts:149-188 | The new state is `MessageSpec` of the old one. |
| RealtimeSession.RealtimeTranscriptionService.HandleConnectionStateChange | frontend/src/services/webrtc/index.ts:193-214 | The new state is `ConnectionStateSpec` of the old one. |
| RealtimeSessionProperties.StopReleasesInOrder | frontend/src/services/webrtc/index.ts:116-144 | Teardown runs in phases: the channel steps, then the peer-connection steps, then the track stops, then forgetting the token, and only then the callback. |
| RealtimeSessionProperties.StopEndsWithNotice | frontend/src/services/webrtc/index.ts:139-143 | The last step is `disconnected` when options are set. Otherwise it is forgetting the token. |
| RealtimeSessionProperties.HeldReleased | frontend/src/services/webrtc/index.ts:116-137 | Every handle in the held set has its release step in the teardown. |
| RealtimeSessionProperties.ErrorBeforeTeardown | frontend/src/services/webrtc/index.ts:106-110 | The `catch` reports `error`, then the error, and only after both releases every held handle. |
| RealtimeSessionProperties.StopReleasesEveryHandle | frontend/src/services/webrtc/index.ts:116-137 | Every held handle is released by the teardown. |
| RealtimeSessionProperties.StopCallbacks | frontend/src/services/webrtc/index.ts:141-143 | The only callback of a stop is `disconnected`, and only when options are set. |
| RealtimeSessionProperties.StopReleasesEverything | frontend/src/services/webrtc/index.ts:116-139 | After a stop nothing is held, and nothing that was held is open. Nothing new is opened, and options and the counter are kept. |
| RealtimeSessionProperties.StopWithNothingHeld | frontend/src/services/webrtc/index.ts:116-144 | A stop of an empty service releases nothing. It forgets the token and repeats `disconnected`. |
| RealtimeSessionProperties.StopTwice | frontend/src/services/webrtc/index.ts:116-144 | A second stop releases nothing more. It only appends the token step and `disconnected`. |
| RealtimeSessionProperties.NegotiateFacts | frontend/src/services/webrtc/index.ts:35-103 | The try block makes browser calls only and keeps options. Everything it opens it holds. On success it holds a new connection, a channel, a stream and a token. |
| RealtimeSessionProperties.NegotiateReached | frontend/src/services/webrtc/index.ts:54-103 | Once the peer connection exists, only new handles are held, and all that was open stays open. |
| RealtimeSessionProperties.NegotiateUnreached | frontend/src/services/webrtc/index.ts:35-52 | Before the peer connection, the attempt opens, holds and allocates nothing, and makes no negotiation call. |
| RealtimeSessionProperties.StartFailureCallbacks | frontend/src/services/webrtc/index.ts:106-110 | A failed start tells its caller `connecting`, `error`, the error, then `disconnected`, and nothing else. `error` and the error come right after the try block's steps, and every handle the try block held is released after them. |
| RealtimeSessionProperties.StartFailureReleases | frontend/src/services/webrtc/index.ts:106-110 | After a failed start, nothing is held and nothing new is open. |
| RealtimeSessionProperties.StartSuccessCallbacks | frontend/src/services/webrtc/index.ts:33-105 | A successful start tells exactly `connecting` then `connected`. |
| RealtimeSessionProperties.StartSuccessHolds | frontend/src/services/webrtc/index.ts:45-105 | A successful start holds a token and a fresh, open peer connection, data channel and stream. |
| RealtimeSessionProperties.NegotiatedTokenIsString | frontend/src/services/webrtc/index.ts:45-103 | A try block that completes holds a token that is a string. |
| RealtimeSessionProperties.NonStringTokenFailsBeforePost | frontend/src/services/webrtc/index.ts:45-80 | A truthy client secret that is not a string fails with the `substring` TypeError right after the local description is set, before the SDP POST. |
| RealtimeSessionProperties.TokenFailureAcquiresNothing | frontend/src/services/webrtc/index.ts:36-48 | When the token request fails or has no client secret, no microphone, connection or channel is requested. Nothing is allocated, and nothing new is open. |
| RealtimeSessionProperties.ListenerBeforeNegotiation | frontend/src/services/webrtc/index.ts:65-103 | The message listener is attached before any offer, SDP POST or answer call. |
| RealtimeSessionProperties.RestartLeaksOpenSession | frontend/src/services/webrtc/index.ts:29-55 | A restart that reaches the peer connection leaves the old connection open, and no longer referenced. |
| RealtimeSessionProperties.EarlyRestartFailureClosesOpenSession | frontend/src/services/webrtc/index.ts:29-110 | A restart that fails before the peer connection closes exactly what the old session held. |
| RealtimeSessionProperties.StartThenStopReleasesAttempt | frontend/src/services/webrtc/index.ts:29-144 | A start followed by a stop, on any outcome, holds nothing and leaves nothing new open. |
| RealtimeSessionProperties.FailedConnectionTearsDown | frontend/src/services/webrtc/index.ts:208-212 | `failed` reports `error`, the fixed error, then `disconnected`, and releases every held handle. The two error callbacks come first, and every release step comes after them. |
| RealtimeSessionProperties.DroppedConnectionKeepsHandles | frontend/src/services/webrtc/index.ts:203-206 | `disconnected` and `closed` only report `disconnected`. Every handle is kept. |
| RealtimeSessionProperties.ConnectionStateGuard | frontend/src/services/webrtc/index.ts:194 | Without a peer connection or without options, a state change leaves the service exactly as it was. |
| RealtimeSessionProperties.ConnectedReported | frontend/src/services/webrtc/index.ts:198-200 | With both present, `connected` tells the caller `connected` and changes nothing else. |
| RealtimeSessionProperties.OnlyFailureReleases | frontend/src/services/webrtc/index.ts:193-214 | Every other state changes only the log, by at most one callback. |
| RealtimeSessionProperties.MessageForwardsAtMostOne | frontend/src/services/webrtc/index.ts:149-188 | A message adds one callback exactly when options are set and the message is classified, and never a status change. Nothing else changes. |
| RealtimeSessionProperties.OptionsNeverCleared | frontend/src/services/webrtc/index.ts:30 | Start stores the options, and no operation clears them. |
| RealtimeSessionProperties.StartExtendsLog | frontend/src/services/webrtc/index.ts:29-111 | A start only appends to the log, and the first callback it appends is `connecting`. It keeps the service valid. |
| RealtimeSessionProperties.StopExtendsLog | frontend/src/services/webrtc/index.ts:116-144 | A stop only appends to the log and keeps the service valid. |
| RealtimeSessionProperties.ConnectionStateExtendsLog | frontend/src/services/webrtc/index.ts:193-214 | A state change only appends to the log and keeps the service valid. |
| WebRtcService.FailureText | frontend/src/services/webrtcService.ts:95 | It is never empty, and it is the error's message whenever that is non-empty. |
| WebRtcService.WebRTCService.constructor | frontend/src/services/webrtcService.ts:11-17 | No connection, no handlers, nothing open. |
| WebRtcService.WebRTCService.Initialize | frontend/src/services/webrtcService.ts:25-99 | The new state and the outcome are those of `InitializeSpec`. |
| WebRtcService.WebRTCService.Attempt | frontend/src/services/webrtcService.ts:29-91 | The try block is `AttemptSpec`: close, then a new connection with its state closure, then the microphone request and the steps after it. |
| WebRtcService.WebRTCService.Capture | frontend/src/services/webrtcService.ts:49-61 | The stream, its first audio track (a TypeError when there is none), the channel with its handler, and the offer, as `CaptureSpec`. |
| WebRtcService.WebRTCService.Offer | frontend/src/services/webrtcService.ts:60-90 | The offer, the POST with model and intent in the URL, and the answer, as `OfferSpec`. |
| WebRtcService.WebRTCService.Close | frontend/src/services/webrtcService.ts:104-122 | The new state is `CloseSpec` of the old one. |
| WebRtcService.WebRTCService.StopTracks | frontend/src/services/webrtcService.ts:106-109 | Every track is stopped in order, and the stream is forgotten. |
| WebRtcService.WebRTCService.SetHandlers | frontend/src/services/webrtcService.ts:127-135 | All three handlers are replaced. |
| WebRtcService.WebRTCService.HandleDataChannelMessage | frontend/src/services/webrtcService.ts:140-156 | The new state is `MessageSpec` of the old one. |
| WebRtcService.WebRTCService.ReportProcessingFailure | frontend/src/services/webrtcService.ts:150-155 | The error handler, if set, is told the fixed processing-failure text. |
| WebRtcService.WebRTCService.HandleConnectionStateChange | frontend/src/services/webrtcService.ts:37-41 | The state is reported when a connection and a handler are both present. |
| WebRtcServiceProperties.CloseOrder | frontend/src/services/webrtcService.ts:104-122 | Close stops the tracks, then the channel, then the connection. It calls no handler and releases every held handle. |
| WebRtcServiceProperties.CloseReleasesEverything | frontend/src/services/webrtcService.ts:104-122 | After close nothing is held and none of it is open. The handlers are untouched. |
| WebRtcServiceProperties.CloseIdempotent | frontend/src/services/webrtcService.ts:104-122 | A second close changes nothing at all. |
| WebRtcServiceProperties.ClosedServiceReportsNothing | frontend/src/services/webrtcService.ts:37-41 | After close, a state change reports nothing. |
| WebRtcServiceProperties.ConstraintsFollowSelection | frontend/src/services/webrtcService.ts:44-47 | The exact device is named exactly when a non-empty id is given, and video is never requested. |
| WebRtcServiceProperties.AttemptFacts | frontend/src/services/webrtcService.ts:29-91 | The try block calls no handler and keeps the handlers. Nothing held before stays open. Everything open is old or newly created and held. |
| WebRtcServiceProperties.InitializeOutcome | frontend/src/services/webrtcService.ts:25-99 | It rejects exactly when a step fails, with that very error. On success it holds a new, open connection, channel and stream, and has called no handler. |
| WebRtcServiceProperties.CloseBeforeHandler | frontend/src/services/webrtcService.ts:92-96 | The `catch` first releases every held handle, with release steps only, and then calls the error handler, when one is set, as the last event. |
| WebRtcServiceProperties.InitializeClosesFirst | frontend/src/services/webrtcService.ts:92-98 | After a failed attempt come only release steps, one for every handle the attempt held, and then the error-handler call as the last event. |
| WebRtcServiceProperties.InitializeFailure | frontend/src/services/webrtcService.ts:92-98 | A failure closes everything and leaves nothing new open. The error handler is called once, with the message or the fallback, exactly when it is set. |
| WebRtcServiceProperties.NoAudioTrackRejects | frontend/src/services/webrtcService.ts:52-53 | A stream with no audio track rejects with the `addTrack` TypeError. |
| WebRtcServiceProperties.OnlyFirstTrackAdded | frontend/src/services/webrtcService.ts:52-53 | Exactly one track, the first, is added to the connection. |
| WebRtcServiceProperties.SetHandlersReplacesAll | frontend/src/services/webrtcService.ts:127-135 | The three handlers are replaced and nothing else changes. |
| WebRtcServiceProperties.MessageCallsAtMostOnce | frontend/src/services/webrtcService.ts:140-156 | A message changes only the log, by at most one handler call. |
| WebRtcServiceProperties.UnreadableMessageReported | frontend/src/services/webrtcService.ts:150-155 | Non-JSON or JSON null is reported to the error handler with the fixed text. |
| WebRtcServiceProperties.TranscriptionForwarded | frontend/src/services/webrtcService.ts:145-146 | A `transcription` message reaches the transcript handler with its `text`. |
| WebRtcServiceProperties.ErrorForwarded | frontend/src/services/webrtcService.ts:147-148 | An `error` message reaches the error handler with its message or the fallback, and the argument is never falsy. |
| WebRtcServiceProperties.OtherMessagesIgnored | frontend/src/services/webrtcService.ts:141-149 | Any other object or primitive calls no handler. |
| WebRtcServiceProperties.StateReportedWhenConnected | frontend/src/services/webrtcService.ts:37-41 | The state is heard exactly when a connection and a handler are both present. |
| TranscriptionControls.StatusLabel | frontend/src/components/TranscriptionControls.tsx:145 | "Ready" exactly for idle, "Connected" and "Connecting..." for those statuses, and "Error" exactly for `disconnected` and `error`. |
| TranscriptionControls.StatusColor | frontend/src/components/TranscriptionControls.tsx:144 | Green exactly when connected, orange exactly when connecting, gray otherwise. |
| TranscriptionControls.Accumulate | frontend/src/components/TranscriptionControls.tsx:81-90 | A final text replaces the transcript. A partial one keeps the transcript as prefix and ends with the text. One space comes between them exactly when the transcript is non-empty and does not end in a space. |
| TranscriptionControls.Controls.constructor | frontend/src/components/TranscriptionControls.tsx:31-39 | The status is idle, the dialog is closed, no transcript or error, and a fresh service. |
| TranscriptionControls.Controls.HandleStartTranscription | frontend/src/components/TranscriptionControls.tsx:44-128 | The new state is `StartHandlerSpec` of the old one, and the service stays valid. |
| TranscriptionControls.Controls.HandleStopTranscription | frontend/src/components/TranscriptionControls.tsx:131-135 | The service is stopped, the component is not transcribing, and the status is idle. A valid service stays valid. |
| TranscriptionControls.Controls.Respond | frontend/src/components/TranscriptionControls.tsx:78-106 | The callbacks given to the service: accumulate, record the error with a toast and stop, or show the status. |
| TranscriptionControls.Controls.Deliver | frontend/src/components/TranscriptionControls.tsx:76-107 | The callbacks among the service's events are run in order, and the browser calls are skipped. |
| TranscriptionControls.Controls.HandleChannelMessage | frontend/src/components/TranscriptionControls.tsx:78-106 | The service's message listener runs, then its callbacks reach the component. |
| TranscriptionControls.Controls.HandleConnectionStateChange | frontend/src/components/TranscriptionControls.tsx:93-106 | The service's state listener runs, then its callbacks reach the component. |
| TranscriptionControls.Controls.RequestStop | frontend/src/components/TranscriptionControls.tsx:163 | The stop button opens the dialog and changes nothing else. |
| TranscriptionControls.Controls.CancelStop | frontend/src/components/TranscriptionControls.tsx:189 | Cancel closes the dialog and changes nothing else. |
| TranscriptionControls.Controls.ConfirmStop | frontend/src/components/TranscriptionControls.tsx:194-197 | The handler stops, then the dialog closes. A valid service stays valid. |
| TranscriptionControlsProperties.PartialsExtendTranscript | frontend/src/components/TranscriptionControls.tsx:84-90 | A run of partial texts keeps the earlier transcript as a prefix and changes nothing else. |
| TranscriptionControlsProperties.FinalReplacesPartials | frontend/src/components/TranscriptionControls.tsx:81-83 | A final text discards every partial text before it. |
| TranscriptionControlsProperties.DeltaJunctions | frontend/src/components/TranscriptionControls.tsx:89 | "he" then "llo" gives "he llo". "hello" then " world" gives a double space. "hello " then "world" gives one space. |
| TranscriptionControlsProperties.StartGuards | frontend/src/components/TranscriptionControls.tsx:46-67 | The session is untouched exactly when the key is empty or no microphone is chosen. Then only the one toast is added. |
| TranscriptionControlsProperties.StartFailureView | frontend/src/components/TranscriptionControls.tsx:69-115 | A failed start ends showing "Error" with the start button, and the error stored. The toasts are "Transcription Error" then "Transcription Started". |
| TranscriptionControlsProperties.StartFailureLeavesNothingOpen | frontend/src/components/TranscriptionControls.tsx:69-115 | After a failed start the service holds nothing, and nothing is open that was not open before. |
| TranscriptionControlsProperties.StartSuccessView | frontend/src/components/TranscriptionControls.tsx:69-115 | A successful start shows "Connected" with the stop button, no error, an empty transcript and the started toast. |
| TranscriptionControlsProperties.StartSuccessSession | frontend/src/components/TranscriptionControls.tsx:69-115 | After a successful start the session is the service's own start state, holding a freshly opened connection. |
| TranscriptionControlsProperties.StopHandlerResets | frontend/src/components/TranscriptionControls.tsx:131-135 | A stop shows "Ready" and the start button, and keeps transcript, error and toasts. Nothing is held, and none of it is open. |
| TranscriptionControlsProperties.StartThenConfirmStop | frontend/src/components/TranscriptionControls.tsx:192-197 | After any start, confirming the stop shows idle with the start button and closes the dialog. Nothing is held, and nothing is open that was not open before the start. |
| TranscriptionControlsProperties.TranscriptMessageUpdates | frontend/src/components/TranscriptionControls.tsx:78-92 | A transcript message changes the transcript by `Accumulate`, and nothing else. |
| TranscriptionControlsProperties.ErrorMessageStops | frontend/src/components/TranscriptionControls.tsx:93-103 | An error message is stored and toasted, and stops the session: "Ready", nothing held. |
| TranscriptionControlsProperties.OtherMessagesChangeNothing | frontend/src/components/TranscriptionControls.tsx:76-107 | Before a start, or for an unclassified message, nothing changes. |
| TranscriptionControlsProperties.FailedConnectionView | frontend/src/components/TranscriptionControls.tsx:93-106 | A `failed` connection shows "Error" with the start button and stores and toasts the fixed message. Nothing is held. |
| TranscriptionControlsProperties.DroppedConnectionView | frontend/src/components/TranscriptionControls.tsx:104-106 | A dropped connection changes only the status, to "Error". Every handle is kept. |
| TranscriptionControlsProperties.InitialView | frontend/src/components/TranscriptionControls.tsx:31-32 | The component starts showing "Ready", the start button, no spinner, and nothing held. |
| MicrophoneSelection.AudioInputs | frontend/src/components/MicrophoneSelector.tsx:39 | A device is listed exactly when it was enumerated with kind `audioinput`. |
| MicrophoneSelection.FindDevice | frontend/src/components/MicrophoneSelector.tsx:62 | It finds nothing exactly when no device has the id. Otherwise it finds the first device with that id. |
| MicrophoneSelection.OptionLabel | frontend/src/components/MicrophoneSelector.tsx:85 | The label when non-empty. Otherwise "Microphone ", then at most the first five characters of the id, then "...". |
| MicrophoneSelection.SelectValue | frontend/src/components/MicrophoneSelector.tsx:79 | The selected device's id, or "" when there is none. |
| MicrophoneSelection.MicrophoneSelector.constructor | frontend/src/contexts/AppContext.tsx:44-45 | No microphones listed and none selected. |
| MicrophoneSelection.MicrophoneSelector.LoadMicrophones | frontend/src/components/MicrophoneSelector.tsx:32-57 | The new state is `LoadSpec` of the old one. |
| MicrophoneSelection.MicrophoneSelector.HandleMicrophoneChange | frontend/src/components/MicrophoneSelector.tsx:60-66 | The new state is `ChangeSpec` of the old one. |
| MicrophoneSelectionProperties.AudioInputsAppend | frontend/src/components/MicrophoneSelector.tsx:39 | Filtering distributes over concatenation, so enumeration order is kept. |
| MicrophoneSelectionProperties.AudioInputsIdempotent | frontend/src/components/MicrophoneSelector.tsx:39 | Filtering twice is filtering once. |
| MicrophoneSelectionProperties.AudioInputsKeepsAudioOnly | frontend/src/components/MicrophoneSelector.tsx:39 | A list of audio inputs only is kept whole. |
| MicrophoneSelectionProperties.FirstAudioInput | frontend/src/components/MicrophoneSelector.tsx:39-45 | The first listed microphone is the first enumerated audio input. |
| MicrophoneSelectionProperties.LoadFailureKeepsSelection | frontend/src/components/MicrophoneSelector.tsx:47-56 | When permission or enumeration fails, the list and the selection are unchanged, and the error toast is raised. |
| MicrophoneSelectionProperties.LoadSelectsDefault | frontend/src/components/MicrophoneSelector.tsx:38-46 | The list is exactly the audio inputs. An existing selection is kept. With none, something is selected exactly when an audio input exists. |
| MicrophoneSelectionProperties.DefaultIsFirstAudioInput | frontend/src/components/MicrophoneSelector.tsx:44-46 | With nothing selected, the default is the first audio input in enumeration order. |
| MicrophoneSelectionProperties.ReloadIsStable | frontend/src/components/MicrophoneSelector.tsx:91 | Refreshing again with the same devices changes nothing. |
| MicrophoneSelectionProperties.ChangeSelectsMatch | frontend/src/components/MicrophoneSelector.tsx:60-66 | A change selects a listed device with the chosen id. With no match the selection is unchanged. |
| MicrophoneSelectionProperties.ChoosingShownValueSelectsIt | frontend/src/components/MicrophoneSelector.tsx:79-84 | With distinct ids, choosing a listed device's option selects that device. |
| MicrophoneSelectionProperties.OptionLabelsNonEmpty | frontend/src/components/MicrophoneSelector.tsx:85 | Every option has a visible label. |
| MicrophoneSelectionProperties.FallbackLabelExample | frontend/src/components/MicrophoneSelector.tsx:85 | A long id is cut to five characters, and a short id is shown whole. |
| ApiKeyEntry.LoadedKey | frontend/src/contexts/AppContext.tsx:34-36 | The stored key, or "" when nothing is stored. |
| ApiKeyEntry.ApiKeyInput.constructor | frontend/src/components/ApiKeyInput.tsx:21-23 | The field starts equal to the loaded key, and is hidden. |
| ApiKeyEntry.ApiKeyInput.Edit | frontend/src/components/ApiKeyInput.tsx:70 | Typing changes only the field. |
| ApiKeyEntry.ApiKeyInput.HandleSaveApiKey | frontend/src/components/ApiKeyInput.tsx:26-47 | The new state is `SaveSpec` of the old one. |
| ApiKeyEntry.ApiKeyInput.HandleToggleShowApiKey | frontend/src/components/ApiKeyInput.tsx:49 | Only the visibility flips. |
| ApiKeyEntryProperties.AcceptableIff | frontend/src/components/ApiKeyInput.tsx:28 | A key is accepted exactly when its first three characters are "sk-". The emptiness check adds nothing. |
| ApiKeyEntryProperties.RejectedInputs | frontend/src/components/ApiKeyInput.tsx:28 | Empty input and input without the prefix are rejected, for example "sk", "SK-abc" and " sk-abc". "sk-" is accepted. |
| ApiKeyEntryProperties.RejectedSaveKeepsKey | frontend/src/components/ApiKeyInput.tsx:28-37 | A rejected save keeps the key, storage and field, and adds the error toast. |
| ApiKeyEntryProperties.AcceptedSaveStoresInput | frontend/src/components/ApiKeyInput.tsx:39-46 | An accepted save stores exactly the input, in the context and in storage, and adds the saved toast. |
| ApiKeyEntryProperties.SavedKeysAreAcceptable | frontend/src/components/ApiKeyInput.tsx:28-39 | A save only ever changes the key to an acceptable, non-empty one. |
| ApiKeyEntryProperties.SavedKeyReloads | frontend/src/contexts/AppContext.tsx:34-51 | After a save, a fresh mount starts with the saved key in the context and in the field. |
| ApiKeyEntryProperties.MountShowsStoredKey | frontend/src/components/ApiKeyInput.tsx:22-23 | The field starts equal to the key, and is empty when nothing is stored. |
| ApiKeyEntryProperties.SaveIdempotent | frontend/src/components/ApiKeyInput.tsx:26-47 | Saving twice stores what saving once does. |
| ApiKeyEntryProperties.ToggleShowsKey | frontend/src/components/ApiKeyInput.tsx:67-75 | The key is masked exactly while the button offers "Show". |

## Left out

- Concurrency: every awaited step finishes before the next event. Interleavings are not
  modelled, such as a stop or a message arriving while `startTranscription` is awaiting.
- Callback timing: in the source, the `onError` callback of the controls runs
  `handleStopTranscription` inside the service's `catch`, before the service's own stop. In
  the model it runs after the service call returns. The service's own stop then finds
  nothing held, and both orders give the same handles, the same log and the same final
  component state. The model does not represent the intermediate moment between them.
- Replay of stop notices: the `disconnected` that `handleStopTranscription`'s own stop
  reports is not replayed, because the same handler overwrites it with 'idle' at once.
- handleStartTranscription's `catch` (lines 116-127) is not modelled. `startTranscription`
  catches everything and the callbacks never throw, so that branch cannot be reached.
- TranscriptionControls.Accumulate: non-string transcript payloads are converted with
  `String(…)`. The source stores a non-string final payload as it is.
- Exceptions from browser calls during teardown (`close`, `stop`, `removeEventListener`) and
  from handler callbacks are not modelled. Those calls are assumed not to throw. The same holds
  for the set-up calls that the model treats as always succeeding: `new RTCPeerConnection()`
  (frontend/src/services/webrtc/index.ts:55, frontend/src/services/webrtcService.ts:34),
  `addTrack` (index.ts:60), `createDataChannel` (index.ts:65, webrtcService.ts:56) and
  `addEventListener` (index.ts:66 and 103). Only the calls with a modelled outcome
  (`getUserMedia`, `createOffer`, `setLocalDescription`, `fetch`, `setRemoteDescription`) can fail.
  Reading the SDP response's body with `response.text()`, for the error text of a non-OK
  response and for the answer (frontend/src/services/webrtc/index.ts:90 and 97,
  frontend/src/services/webrtcService.ts:79 and 84), is assumed to succeed too. The text it
  yields is part of the modelled SDP response.
- SDP and ICE contents, JSON parsing and the media itself are not modelled: an offer or answer
  is an opaque string, and a message is either unparsable or the parsed value. Numbers are
  integers only.
- `onconnectionstatechange` in `WebRTCService` is modelled for the connection the service
  holds now. The closure's read of the current field is not modelled separately.
- The permission stream that `loadMicrophones` opens with `getUserMedia({ audio: true })` is
  discarded, and is never stopped in the source. The model does not track it.
- MicrophoneSelection.LoadSpec: the "nothing selected" check uses the current selection. The
  mount-time effect in the source reads the selection captured at mount, which is `null` at
  that time.
- Local storage is modelled as one optional string under `hapaTranscribe_apiKey`. Storage
  failures are not modelled.
- Console output and the toasts' `isClosable` flag are not modelled. The status-line colours
  are modelled but not the rest of the layout.
- `checkServerHealth` in frontend/src/services/api/index.ts is not part of this model. The
  components App, TranscriptDisplay and the theme are not part of it either, nor the
  backend's routing and server set-up.
- The services' 32-bit or 64-bit limits are irrelevant here: no arithmetic that could
  overflow occurs in the modelled code.
