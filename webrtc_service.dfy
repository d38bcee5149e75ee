/**
 * The earlier `WebRTCService` class (frontend/src/services/webrtcService.ts):
 * it is handed an ephemeral token, connects to the realtime endpoint with the
 * `gpt-4o-transcribe` model, and reports through three handlers that the
 * caller installs. Its state is mirrored by the datatype `Service`; every
 * method is specified by a function from the old `Service` to the new one.
 */
module WebRtcService {
  import opened Js
  import opened Browser

  const OpenAiUrl := RealtimeBaseUrl + "?model=gpt-4o-transcribe&intent=transcription"
  const SdpContentType := "application/sdp"
  const ConnectFailedPrefix := "Failed to connect to OpenAI: "
  const InitializeFailedMessage := "Failed to initialize WebRTC connection"
  const UnknownOpenAiError := "Unknown error from OpenAI"
  const ProcessingFailedMessage := "Error processing transcription data"
  const TranscriptionTag := "transcription"
  const ErrorTag := "error"

  /** What `addTrack(undefined, stream)` throws when the stream has no audio track. */
  const MissingTrackError :=
    Exception("TypeError", "Failed to execute 'addTrack' on 'RTCPeerConnection': parameter 1 is not of type 'MediaStreamTrack'.")

  /** The identity of a function the caller passed to `setHandlers`. */
  datatype Handler = Handler(id: nat)

  /** `MediaStreamConstraints` as `initialize` builds them. */
  datatype Constraints = Constraints(audio: AudioConstraint, video: bool)

  datatype Action =
    | CreatePeerConnection(pc: Handle)
    | SetStateHandler(pc: Handle)
    | GetUserMedia(constraints: Constraints)
    | AddTrack(pc: Handle, track: Handle)
    | CreateDataChannel(pc: Handle, channelLabel: string, dc: Handle)
    | SetMessageHandler(dc: Handle)
    | CreateOffer(pc: Handle)
    | SetLocalDescription(pc: Handle, sdp: string)
    | PostOffer(url: string, authorization: string, contentType: string, body: string)
    | SetRemoteDescription(pc: Handle, sdp: string)
    | StopTrack(track: Handle)
    | CloseChannel(dc: Handle)
    | ClosePeer(pc: Handle)

  /** A browser call, or a call of one of the caller's handlers with its argument. */
  datatype Event =
    | Perform(action: Action)
    | Call(handler: Handler, argument: Value)
    | Report(handler: Handler, state: PeerState)

  /** How each awaited step of `initialize` settles. */
  datatype InitInputs = InitInputs(
    media: Result<nat>,
    offer: Result<string>,
    setLocal: Outcome,
    exchange: Result<SdpResponse>,
    setRemote: Outcome)

  datatype Service = Service(
    peerConnection: Option<Handle>,
    dataChannel: Option<Handle>,
    mediaStream: Option<Stream>,
    transcriptHandler: Option<Handler>,
    errorHandler: Option<Handler>,
    connectionStateHandler: Option<Handler>,
    live: set<Handle>,
    next: nat,
    log: seq<Event>)

  predicate Valid(s: Service) {
    && (s.peerConnection.Some? ==> s.peerConnection.value.id < s.next)
    && (s.dataChannel.Some? ==> s.dataChannel.value.id < s.next)
    && (s.mediaStream.Some? ==> forall t :: t in s.mediaStream.value.tracks ==> t.id < s.next)
    && (forall h :: h in s.live ==> h.id < s.next)
  }

  function Held(s: Service): set<Handle> {
    (if s.mediaStream.Some? then TrackSet(s.mediaStream.value) else {})
    + (if s.dataChannel.Some? then {s.dataChannel.value} else {})
    + (if s.peerConnection.Some? then {s.peerConnection.value} else {})
  }

  function Fresh(): Service {
    Service(None, None, None, None, None, None, {}, 0, [])
  }

  function Log(s: Service, a: Action): Service {
    s.(log := s.log + [Perform(a)])
  }

  function TrackStops(tracks: seq<Handle>): seq<Event> {
    seq(|tracks|, i requires 0 <= i < |tracks| => Perform(StopTrack(tracks[i])))
  }

  // ---------------------------------------------------------------------------
  // close

  function CloseEvents(s: Service): seq<Event> {
    (if s.mediaStream.Some? then TrackStops(s.mediaStream.value.tracks) else [])
    + (if s.dataChannel.Some? then [Perform(CloseChannel(s.dataChannel.value))] else [])
    + (if s.peerConnection.Some? then [Perform(ClosePeer(s.peerConnection.value))] else [])
  }

  function CloseSpec(s: Service): Service {
    s.(mediaStream := None, dataChannel := None, peerConnection := None,
       live := s.live - Held(s), log := s.log + CloseEvents(s))
  }

  // ---------------------------------------------------------------------------
  // initialize

  /** The constraints of lines 44-47: the chosen device exactly when an id is given, never video. */
  function ConstraintsFor(microphoneId: Option<string>): Constraints {
    Constraints(AudioFor(microphoneId), false)
  }

  datatype Attempt = Attempt(state: Service, failure: Option<Exception>)

  datatype Initialized = Initialized(state: Service, outcome: Outcome)

  /** Lines 34-49 up to the await: a new peer connection with its state handler, then the microphone request. */
  function Opened(s: Service, microphoneId: Option<string>): Service {
    var pc := Handle(s.next);
    s.(peerConnection := Some(pc), live := s.live + {pc}, next := s.next + 1,
       log := s.log + [Perform(CreatePeerConnection(pc)), Perform(SetStateHandler(pc)),
                       Perform(GetUserMedia(ConstraintsFor(microphoneId)))])
  }

  /** Lines 49-61: the stream, its first audio track, the events channel with its handler, the offer. */
  function CaptureSpec(s: Service, pc: Handle, ephemeralToken: string, inputs: InitInputs): Attempt {
    match inputs.media
    case Failure(e) => Attempt(s, Some(e))
    case Success(n) =>
      var stream := NewStream(s.next, n);
      var s3 := s.(mediaStream := Some(stream), live := s.live + TrackSet(stream), next := s.next + n);
      if n == 0 then Attempt(s3, Some(MissingTrackError))
      else
        var dc := Handle(s3.next);
        var s4 := s3.(dataChannel := Some(dc), live := s3.live + {dc}, next := s3.next + 1,
                      log := s3.log + [Perform(AddTrack(pc, stream.tracks[0])),
                                       Perform(CreateDataChannel(pc, EventsChannelLabel, dc)),
                                       Perform(SetMessageHandler(dc)), Perform(CreateOffer(pc))]);
        OfferSpec(s4, pc, ephemeralToken, inputs)
  }

  /** The try block, up to the step that throws. */
  function AttemptSpec(s: Service, ephemeralToken: string, microphoneId: Option<string>, inputs: InitInputs): Attempt {
    var c := CloseSpec(s);
    CaptureSpec(Opened(c, microphoneId), Handle(c.next), ephemeralToken, inputs)
  }

  /** Lines 60-90: the offer, the SDP exchange with the model and intent in the URL, the answer. */
  function OfferSpec(s: Service, pc: Handle, ephemeralToken: string, inputs: InitInputs): Attempt {
    match inputs.offer
    case Failure(e) => Attempt(s, Some(e))
    case Success(sdp) =>
      var s5 := Log(s, SetLocalDescription(pc, sdp));
      match inputs.setLocal
      case Rejected(e) => Attempt(s5, Some(e))
      case Resolved =>
        var s6 := Log(s5, PostOffer(OpenAiUrl, Bearer(ephemeralToken), SdpContentType, sdp));
        match inputs.exchange
        case Failure(e) => Attempt(s6, Some(e))
        case Success(response) =>
          if !response.ok then Attempt(s6, Some(PlainError(ConnectFailedPrefix + response.text)))
          else
            var s7 := Log(s6, SetRemoteDescription(pc, response.text));
            match inputs.setRemote
            case Rejected(e) => Attempt(s7, Some(e))
            case Resolved => Attempt(s7, None)
  }

  /** `error.message || 'Failed to initialize WebRTC connection'` */
  function FailureText(e: Exception): (r: string)
    ensures r != ""
    ensures e.message != "" ==> r == e.message
  {
    if e.message != "" then e.message else InitializeFailedMessage
  }

  /** The catch block: close, tell the error handler if there is one, rethrow. */
  function FailSpec(s: Service, e: Exception): Service {
    var c := CloseSpec(s);
    if c.errorHandler.Some? then c.(log := c.log + [Call(c.errorHandler.value, Str(FailureText(e)))]) else c
  }

  function InitializeSpec(s: Service, ephemeralToken: string, microphoneId: Option<string>, inputs: InitInputs): Initialized {
    var a := AttemptSpec(s, ephemeralToken, microphoneId, inputs);
    match a.failure
    case None => Initialized(a.state, Resolved)
    case Some(e) => Initialized(FailSpec(a.state, e), Rejected(e))
  }

  // ---------------------------------------------------------------------------
  // setHandlers, handleDataChannelMessage, the state handler

  function SetHandlersSpec(s: Service, transcript: Handler, error: Handler, connectionState: Handler): Service {
    s.(transcriptHandler := Some(transcript), errorHandler := Some(error), connectionStateHandler := Some(connectionState))
  }

  /** The catch block of `handleDataChannelMessage`. */
  function ProcessingFailed(s: Service): Service {
    if s.errorHandler.Some? then s.(log := s.log + [Call(s.errorHandler.value, Str(ProcessingFailedMessage))]) else s
  }

  function MessageSpec(s: Service, m: MessageData): Service {
    match m
    case Unparsable => ProcessingFailed(s)
    case Parsed(data) =>
      match Member(data, "type")
      case Failure(_) => ProcessingFailed(s)
      case Success(tag) =>
        if tag == Str(TranscriptionTag) && s.transcriptHandler.Some? then
          s.(log := s.log + [Call(s.transcriptHandler.value, OptMember(data, "text"))])
        else if tag == Str(ErrorTag) && s.errorHandler.Some? then
          s.(log := s.log + [Call(s.errorHandler.value, Or(OptMember(data, "message"), Str(UnknownOpenAiError)))])
        else s
  }

  /** The `onconnectionstatechange` closure; `state` is the state of the peer connection the service holds now. */
  function StateChangeSpec(s: Service, state: PeerState): Service {
    if s.peerConnection.Some? && s.connectionStateHandler.Some?
    then s.(log := s.log + [Report(s.connectionStateHandler.value, state)])
    else s
  }

  // ---------------------------------------------------------------------------
  // The service object

  class WebRTCService {
    var peerConnection: Option<Handle>
    var dataChannel: Option<Handle>
    var mediaStream: Option<Stream>
    var transcriptHandler: Option<Handler>
    var errorHandler: Option<Handler>
    var connectionStateHandler: Option<Handler>
    var live: set<Handle>
    var next: nat
    var log: seq<Event>

    ghost function Snapshot(): Service
      reads this
    {
      Service(peerConnection, dataChannel, mediaStream, transcriptHandler, errorHandler, connectionStateHandler,
              live, next, log)
    }

    constructor ()
      ensures Snapshot() == Fresh()
    {
      peerConnection, dataChannel, mediaStream := None, None, None;
      transcriptHandler, errorHandler, connectionStateHandler := None, None, None;
      live, next, log := {}, 0, [];
    }

    method Initialize(ephemeralToken: string, microphoneId: Option<string>, inputs: InitInputs)
      returns (outcome: Outcome)
      modifies this
      ensures Initialized(Snapshot(), outcome) == InitializeSpec(old(Snapshot()), ephemeralToken, microphoneId, inputs)
    {
      var failure := Attempt(ephemeralToken, microphoneId, inputs);
      if failure.None? {
        return Resolved;
      }
      Close();
      if errorHandler.Some? {
        log := log + [Call(errorHandler.value, Str(FailureText(failure.value)))];
      }
      outcome := Rejected(failure.value);
    }

    /** The try block of `initialize`, up to the first step that throws. */
    method Attempt(ephemeralToken: string, microphoneId: Option<string>, inputs: InitInputs)
      returns (failure: Option<Exception>)
      modifies this
      ensures Snapshot() == AttemptSpec(old(Snapshot()), ephemeralToken, microphoneId, inputs).state
      ensures failure == AttemptSpec(old(Snapshot()), ephemeralToken, microphoneId, inputs).failure
    {
      Close();
      var pc := Handle(next);
      peerConnection := Some(pc);
      live := live + {pc};
      next := next + 1;
      log := log + [Perform(CreatePeerConnection(pc)), Perform(SetStateHandler(pc)),
                    Perform(GetUserMedia(ConstraintsFor(microphoneId)))];
      failure := Capture(pc, ephemeralToken, inputs);
    }

    method Capture(pc: Handle, ephemeralToken: string, inputs: InitInputs) returns (failure: Option<Exception>)
      modifies this
      ensures Snapshot() == CaptureSpec(old(Snapshot()), pc, ephemeralToken, inputs).state
      ensures failure == CaptureSpec(old(Snapshot()), pc, ephemeralToken, inputs).failure
    {
      if inputs.media.Failure? {
        return Some(inputs.media.error);
      }
      var stream := NewStream(next, inputs.media.value);
      mediaStream := Some(stream);
      live := live + TrackSet(stream);
      next := next + inputs.media.value;
      if |stream.tracks| == 0 {
        return Some(MissingTrackError);
      }
      var dc := Handle(next);
      dataChannel := Some(dc);
      live := live + {dc};
      next := next + 1;
      log := log + [Perform(AddTrack(pc, stream.tracks[0])),
                    Perform(CreateDataChannel(pc, EventsChannelLabel, dc)), Perform(SetMessageHandler(dc)),
                    Perform(CreateOffer(pc))];
      failure := Offer(pc, ephemeralToken, inputs);
    }

    /** Lines 60-90 of `initialize`, after the offer was requested. */
    method Offer(pc: Handle, ephemeralToken: string, inputs: InitInputs) returns (failure: Option<Exception>)
      modifies this
      ensures Snapshot() == OfferSpec(old(Snapshot()), pc, ephemeralToken, inputs).state
      ensures failure == OfferSpec(old(Snapshot()), pc, ephemeralToken, inputs).failure
    {
      if inputs.offer.Failure? {
        return Some(inputs.offer.error);
      }
      var sdp := inputs.offer.value;
      log := log + [Perform(SetLocalDescription(pc, sdp))];
      if inputs.setLocal.Rejected? {
        return Some(inputs.setLocal.error);
      }
      log := log + [Perform(PostOffer(OpenAiUrl, Bearer(ephemeralToken), SdpContentType, sdp))];
      if inputs.exchange.Failure? {
        return Some(inputs.exchange.error);
      }
      var response := inputs.exchange.value;
      if !response.ok {
        return Some(PlainError(ConnectFailedPrefix + response.text));
      }
      log := log + [Perform(SetRemoteDescription(pc, response.text))];
      if inputs.setRemote.Rejected? {
        return Some(inputs.setRemote.error);
      }
      failure := None;
    }

    /** `close`: stop the tracks, then close the channel, then the peer connection. */
    method Close()
      modifies this
      ensures Snapshot() == CloseSpec(old(Snapshot()))
    {
      ghost var s := Snapshot();
      StopTracks();
      if dataChannel.Some? {
        log := log + [Perform(CloseChannel(dataChannel.value))];
        live := live - {dataChannel.value};
        dataChannel := None;
      }
      if peerConnection.Some? {
        log := log + [Perform(ClosePeer(peerConnection.value))];
        live := live - {peerConnection.value};
        peerConnection := None;
      }
      assert live == s.live - Held(s);
      assert log == s.log + CloseEvents(s);
    }

    /** Lines 106-109 of `close`. */
    method StopTracks()
      modifies this
      ensures Snapshot() == old(Snapshot()).(
                mediaStream := None,
                live := old(live) - (if old(mediaStream).Some? then TrackSet(old(mediaStream).value) else {}),
                log := old(log) + (if old(mediaStream).Some? then TrackStops(old(mediaStream).value.tracks) else []))
    {
      if mediaStream.Some? {
        var tracks := mediaStream.value.tracks;
        for i := 0 to |tracks|
          invariant live == old(live) - TrackSet(Stream(tracks[..i]))
          invariant log == old(log) + TrackStops(tracks[..i])
          invariant Snapshot() == old(Snapshot()).(live := live, log := log)
        {
          TrackSetGrows(tracks, i);
          live := live - {tracks[i]};
          log := log + [Perform(StopTrack(tracks[i]))];
          assert TrackStops(tracks[..i + 1]) == TrackStops(tracks[..i]) + [Perform(StopTrack(tracks[i]))];
        }
        assert tracks[..|tracks|] == tracks;
        mediaStream := None;
      }
    }

    method SetHandlers(transcript: Handler, error: Handler, connectionState: Handler)
      modifies this
      ensures Snapshot() == SetHandlersSpec(old(Snapshot()), transcript, error, connectionState)
    {
      transcriptHandler, errorHandler, connectionStateHandler := Some(transcript), Some(error), Some(connectionState);
    }

    method HandleDataChannelMessage(event: MessageData)
      modifies this
      ensures Snapshot() == MessageSpec(old(Snapshot()), event)
    {
      if event.Unparsable? {
        ReportProcessingFailure();
        return;
      }
      var data := event.data;
      var tag := Member(data, "type");
      if tag.Failure? {
        ReportProcessingFailure();
        return;
      }
      if tag.value == Str(TranscriptionTag) && transcriptHandler.Some? {
        log := log + [Call(transcriptHandler.value, OptMember(data, "text"))];
      } else if tag.value == Str(ErrorTag) && errorHandler.Some? {
        log := log + [Call(errorHandler.value, Or(OptMember(data, "message"), Str(UnknownOpenAiError)))];
      }
    }

    method ReportProcessingFailure()
      modifies this
      ensures Snapshot() == ProcessingFailed(old(Snapshot()))
    {
      if errorHandler.Some? {
        log := log + [Call(errorHandler.value, Str(ProcessingFailedMessage))];
      }
    }

    method HandleConnectionStateChange(state: PeerState)
      modifies this
      ensures Snapshot() == StateChangeSpec(old(Snapshot()), state)
    {
      if peerConnection.Some? && connectionStateHandler.Some? {
        log := log + [Report(connectionStateHandler.value, state)];
      }
    }
  }
}
