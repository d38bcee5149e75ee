/**
 * `RealtimeTranscriptionService` (frontend/src/services/webrtc/index.ts): one
 * transcription session against OpenAI's realtime API over WebRTC.
 *
 * The browser objects are handles (module Browser); the set `live` holds the
 * handles whose object is still open, and `log` records, in order, every
 * browser call the service makes and every caller callback it invokes. Each
 * awaited step is an input that settles one way or the other.
 *
 * The state the class updates in place is mirrored by the datatype `Session`;
 * every method is specified by a function from the old `Session` to the new one,
 * and the properties of the service are lemmas about those functions.
 */
module RealtimeSession {
  import opened Js
  import opened Browser
  import opened RealtimeEvents
  import TokenClient

  const SessionUrl := RealtimeBaseUrl + "?intent=transcription"
  const InvalidTokenMessage := "Invalid token response from server"
  const ExchangeFailedPrefix := "Failed to establish connection with OpenAI: "
  const ConnectionFailedMessage := "WebRTC connection failed"

  /** The non-callback part of `TranscriptionOptions`; the callbacks are the `Notify` entries of the log. */
  datatype TranscriptionOptions = TranscriptionOptions(selectedMicrophoneId: Option<string>)

  /** A call the service makes on the browser, the token client or its own token field. */
  datatype Action =
    | RequestToken(apiKey: string)
    | GetUserMedia(audio: AudioConstraint)
    | CreatePeerConnection(pc: Handle)
    | AddTrack(pc: Handle, track: Handle)
    | CreateDataChannel(pc: Handle, channelLabel: string, dc: Handle)
    | AddMessageListener(dc: Handle)
    | CreateOffer(pc: Handle)
    | SetLocalDescription(pc: Handle, sdp: string)
    | PostOffer(url: string, authorization: string, body: string)
    | SetRemoteDescription(pc: Handle, sdp: string)
    | AddStateListener(pc: Handle)
    | RemoveMessageListener(dc: Handle)
    | CloseChannel(dc: Handle)
    | RemoveStateListener(pc: Handle)
    | ClosePeer(pc: Handle)
    | StopTrack(track: Handle)
    | ForgetToken

  datatype Event = Notify(callback: Callback) | Perform(action: Action)

  /** How each awaited step of `startTranscription` settles. `media` gives the number of audio tracks captured. */
  datatype StartInputs = StartInputs(
    token: TokenClient.PostOutcome,
    media: Result<nat>,
    offer: Result<string>,
    setLocal: Outcome,
    exchange: Result<SdpResponse>,
    setRemote: Outcome)

  /** The fields of the service, and what the model observes of the world around it. */
  datatype Session = Session(
    peerConnection: Option<Handle>,
    dataChannel: Option<Handle>,
    mediaStream: Option<Stream>,
    ephemeralToken: Option<Value>,
    options: Option<TranscriptionOptions>,
    live: set<Handle>,
    next: nat,
    log: seq<Event>)

  /** Every handle the service holds or that is open was created before `next`. */
  predicate Valid(s: Session) {
    && (s.peerConnection.Some? ==> s.peerConnection.value.id < s.next)
    && (s.dataChannel.Some? ==> s.dataChannel.value.id < s.next)
    && (s.mediaStream.Some? ==> forall t :: t in s.mediaStream.value.tracks ==> t.id < s.next)
    && (forall h :: h in s.live ==> h.id < s.next)
  }

  /** The handles the service currently references. */
  function Held(s: Session): set<Handle> {
    (if s.dataChannel.Some? then {s.dataChannel.value} else {})
    + (if s.peerConnection.Some? then {s.peerConnection.value} else {})
    + (if s.mediaStream.Some? then TrackSet(s.mediaStream.value) else {})
  }

  function Idle(): Session {
    Session(None, None, None, None, None, {}, 0, [])
  }

  function Log(s: Session, a: Action): Session {
    s.(log := s.log + [Perform(a)])
  }

  function Tell(s: Session, c: Callback): Session {
    s.(log := s.log + [Notify(c)])
  }

  /** The callbacks in a log, in order. */
  function Callbacks(events: seq<Event>): seq<Callback> {
    if events == [] then []
    else (if events[0].Notify? then [events[0].callback] else []) + Callbacks(events[1..])
  }

  function TrackStops(tracks: seq<Handle>): seq<Event> {
    seq(|tracks|, i requires 0 <= i < |tracks| => Perform(StopTrack(tracks[i])))
  }

  function AddTracks(pc: Handle, tracks: seq<Handle>): seq<Event> {
    seq(|tracks|, i requires 0 <= i < |tracks| => Perform(AddTrack(pc, tracks[i])))
  }

  // ---------------------------------------------------------------------------
  // stopTranscription

  /** What `stopTranscription` does, in order, to a service in state `s`. */
  function StopEvents(s: Session): seq<Event> {
    (if s.dataChannel.Some?
     then [Perform(RemoveMessageListener(s.dataChannel.value)), Perform(CloseChannel(s.dataChannel.value))]
     else [])
    + (if s.peerConnection.Some?
       then [Perform(RemoveStateListener(s.peerConnection.value)), Perform(ClosePeer(s.peerConnection.value))]
       else [])
    + (if s.mediaStream.Some? then TrackStops(s.mediaStream.value.tracks) else [])
    + [Perform(ForgetToken)]
    + (if s.options.Some? then [Notify(OnStatusChange(Status.Disconnected))] else [])
  }

  function StopSpec(s: Session): Session {
    s.(dataChannel := None, peerConnection := None, mediaStream := None, ephemeralToken := None,
       live := s.live - Held(s), log := s.log + StopEvents(s))
  }

  /** The steps of `stopTranscription` one at a time, as its helper methods perform them. */
  function CloseChannelStep(s: Session): Session {
    if s.dataChannel.None? then s
    else s.(dataChannel := None, live := s.live - {s.dataChannel.value},
            log := s.log + [Perform(RemoveMessageListener(s.dataChannel.value)), Perform(CloseChannel(s.dataChannel.value))])
  }

  function ClosePeerStep(s: Session): Session {
    if s.peerConnection.None? then s
    else s.(peerConnection := None, live := s.live - {s.peerConnection.value},
            log := s.log + [Perform(RemoveStateListener(s.peerConnection.value)), Perform(ClosePeer(s.peerConnection.value))])
  }

  function StopTracksStep(s: Session): Session {
    if s.mediaStream.None? then s
    else s.(mediaStream := None, live := s.live - TrackSet(s.mediaStream.value),
            log := s.log + TrackStops(s.mediaStream.value.tracks))
  }

  function ForgetTokenStep(s: Session): Session {
    s.(ephemeralToken := None,
       log := s.log + [Perform(ForgetToken)]
              + (if s.options.Some? then [Notify(OnStatusChange(Status.Disconnected))] else []))
  }

  lemma RemoveThree<T>(l: set<T>, a: set<T>, b: set<T>, c: set<T>)
    ensures l - a - b - c == l - (a + b + c)
  {
  }

  lemma AppendFive<T>(l: seq<T>, a: seq<T>, b: seq<T>, c: seq<T>, d: seq<T>, e: seq<T>)
    ensures l + a + b + c + d + e == l + (a + b + c + d + e)
  {
  }

  /** Performing the steps one after another is the whole stop. */
  lemma StopSteps(s: Session)
    ensures StopSpec(s) == ForgetTokenStep(StopTracksStep(ClosePeerStep(CloseChannelStep(s))))
  {
    var a := if s.dataChannel.Some?
             then [Perform(RemoveMessageListener(s.dataChannel.value)), Perform(CloseChannel(s.dataChannel.value))]
             else [];
    var b := if s.peerConnection.Some?
             then [Perform(RemoveStateListener(s.peerConnection.value)), Perform(ClosePeer(s.peerConnection.value))]
             else [];
    var c := if s.mediaStream.Some? then TrackStops(s.mediaStream.value.tracks) else [];
    var e := if s.options.Some? then [Notify(OnStatusChange(Status.Disconnected))] else [];
    var ha := if s.dataChannel.Some? then {s.dataChannel.value} else {};
    var hb := if s.peerConnection.Some? then {s.peerConnection.value} else {};
    var hc := if s.mediaStream.Some? then TrackSet(s.mediaStream.value) else {};
    var s1 := CloseChannelStep(s);
    assert s1 == s.(dataChannel := None, live := s.live - ha, log := s.log + a);
    var s2 := ClosePeerStep(s1);
    assert s2 == s1.(peerConnection := None, live := s.live - ha - hb, log := s.log + a + b);
    var s3 := StopTracksStep(s2);
    assert s3 == s2.(mediaStream := None, live := s.live - ha - hb - hc, log := s.log + a + b + c);
    RemoveThree(s.live, ha, hb, hc);
    AppendFive(s.log, a, b, c, [Perform(ForgetToken)], e);
  }

  // ---------------------------------------------------------------------------
  // startTranscription

  /** `tokenResponse.client_secret.value` behind the truthiness check of line 41. */
  function TokenValue(body: Value): (r: Result<Value>)
    ensures r.Success? ==> Truthy(r.value)
    ensures r.Success? <==> Truthy(OptMember(OptMember(body, "client_secret"), "value"))
    ensures r.Success? ==> r.value == OptMember(OptMember(body, "client_secret"), "value")
    ensures !body.Null? && !body.Undefined? && r.Failure? ==> r.error == PlainError(InvalidTokenMessage)
  {
    match Member(body, "client_secret")
    case Failure(e) => Failure(e)
    case Success(secret) =>
      if !Truthy(secret) then Failure(PlainError(InvalidTokenMessage))
      else
        var value := OptMember(secret, "value");
        if !Truthy(value) then Failure(PlainError(InvalidTokenMessage)) else Success(value)
  }

  /** Where the attempt stopped: the state reached, and the error thrown, if any. */
  datatype Negotiation = Negotiation(state: Session, failure: Option<Exception>)

  /** `getUserMedia` resolved with `n` audio tracks. */
  function Captured(s: Session, n: nat): Session {
    var stream := NewStream(s.next, n);
    s.(mediaStream := Some(stream), live := s.live + TrackSet(stream), next := s.next + n)
  }

  /** Steps 1 and 2 of the try block: the token, then the microphone. */
  function NegotiateSpec(s: Session, apiKey: string, opts: TranscriptionOptions, inputs: StartInputs): Negotiation {
    var s1 := Log(s, RequestToken(apiKey));
    match TokenClient.GetEphemeralToken(inputs.token)
    case Failure(e) => Negotiation(s1, Some(e))
    case Success(body) =>
      match TokenValue(body)
      case Failure(e) => Negotiation(s1, Some(e))
      case Success(token) =>
        var s2 := Log(s1.(ephemeralToken := Some(token)), GetUserMedia(AudioFor(opts.selectedMicrophoneId)));
        match inputs.media
        case Failure(e) => Negotiation(s2, Some(e))
        case Success(n) => ConnectSpec(Captured(s2, n), ToJsString(token), inputs)
  }

  /** Steps 3 to 5: the peer connection, its audio tracks, and the events channel with its listener. */
  function ConnectSpec(s: Session, token: string, inputs: StartInputs): Negotiation
    requires s.mediaStream.Some?
  {
    var pc := Handle(s.next);
    var s3 := s.(peerConnection := Some(pc), live := s.live + {pc}, next := s.next + 1,
                 log := s.log + [Perform(CreatePeerConnection(pc))] + AddTracks(pc, s.mediaStream.value.tracks));
    var dc := Handle(s3.next);
    var s4 := s3.(dataChannel := Some(dc), live := s3.live + {dc}, next := s3.next + 1,
                  log := s3.log + [Perform(CreateDataChannel(pc, EventsChannelLabel, dc)),
                                   Perform(AddMessageListener(dc))]);
    OfferSpec(Log(s4, CreateOffer(pc)), pc, token, inputs)
  }

  /**
   * Line 78 logs `this.ephemeralToken.substring(0, 10)` whenever the stored token is truthy;
   * a truthy token that is not a string has no `substring`, so the call throws.
   */
  predicate PreviewThrows(token: Option<Value>) {
    token.Some? && Truthy(token.value) && !token.value.Str?
  }

  const PreviewError := NotAFunction("this.ephemeralToken.substring")

  /** Steps 6 to 8: the offer, the SDP exchange, the answer; then the state listener. */
  function OfferSpec(s: Session, pc: Handle, token: string, inputs: StartInputs): Negotiation {
    match inputs.offer
    case Failure(e) => Negotiation(s, Some(e))
    case Success(sdp) =>
      var s5 := Log(s, SetLocalDescription(pc, sdp));
      match inputs.setLocal
      case Rejected(e) => Negotiation(s5, Some(e))
      case Resolved =>
        if PreviewThrows(s.ephemeralToken) then Negotiation(s5, Some(PreviewError))
        else
          var s6 := Log(s5, PostOffer(SessionUrl, Bearer(token), sdp));
          match inputs.exchange
          case Failure(e) => Negotiation(s6, Some(e))
          case Success(response) =>
            if !response.ok then Negotiation(s6, Some(PlainError(ExchangeFailedPrefix + response.text)))
            else
              var s7 := Log(s6, SetRemoteDescription(pc, response.text));
              match inputs.setRemote
              case Rejected(e) => Negotiation(s7, Some(e))
              case Resolved => Negotiation(Log(s7, AddStateListener(pc)), None)
  }

  /** The state after the first statements of `startTranscription`: options stored, `connecting` reported. */
  function Announced(s: Session, opts: TranscriptionOptions): Session {
    Tell(s.(options := Some(opts)), OnStatusChange(Status.Connecting))
  }

  /** `startTranscription`: report `connecting`, try, then report `connected`, or `error` and tear down. */
  function StartSpec(s: Session, apiKey: string, opts: TranscriptionOptions, inputs: StartInputs): Session {
    var s0 := Announced(s, opts);
    var n := NegotiateSpec(s0, apiKey, opts, inputs);
    match n.failure
    case None => Tell(n.state, OnStatusChange(Status.Connected))
    case Some(e) => StopSpec(Tell(Tell(n.state, OnStatusChange(Status.Error)), OnError(e)))
  }

  // ---------------------------------------------------------------------------
  // handleTranscriptionEvent and handleConnectionStateChange

  function MessageSpec(s: Session, m: MessageData): Session {
    if s.options.None? then s
    else match Classify(m)
      case None => s
      case Some(c) => Tell(s, c)
  }

  function ConnectionStateSpec(s: Session, state: PeerState): Session {
    if s.peerConnection.None? || s.options.None? then s
    else match state
      case Connected => Tell(s, OnStatusChange(Status.Connected))
      case Disconnected => Tell(s, OnStatusChange(Status.Disconnected))
      case Closed => Tell(s, OnStatusChange(Status.Disconnected))
      case Failed =>
        StopSpec(Tell(Tell(s, OnStatusChange(Status.Error)), OnError(PlainError(ConnectionFailedMessage))))
      case _ => s
  }

  // ---------------------------------------------------------------------------
  // The service object

  class RealtimeTranscriptionService {
    var peerConnection: Option<Handle>
    var dataChannel: Option<Handle>
    var mediaStream: Option<Stream>
    var ephemeralToken: Option<Value>
    var options: Option<TranscriptionOptions>
    var live: set<Handle>
    var next: nat
    var log: seq<Event>

    ghost function Snapshot(): Session
      reads this
    {
      Session(peerConnection, dataChannel, mediaStream, ephemeralToken, options, live, next, log)
    }

    constructor ()
      ensures Snapshot() == Idle()
    {
      peerConnection, dataChannel, mediaStream := None, None, None;
      ephemeralToken, options := None, None;
      live, next, log := {}, 0, [];
    }

    method StartTranscription(apiKey: string, opts: TranscriptionOptions, inputs: StartInputs)
      modifies this
      ensures Snapshot() == StartSpec(old(Snapshot()), apiKey, opts, inputs)
    {
      ghost var s := Snapshot();
      options := Some(opts);
      log := log + [Notify(OnStatusChange(Status.Connecting))];
      ghost var s0 := Snapshot();
      assert s0 == Announced(s, opts);
      var failure := Negotiate(apiKey, opts, inputs);
      ghost var n := NegotiateSpec(s0, apiKey, opts, inputs);
      assert Snapshot() == n.state && failure == n.failure;
      if failure.Some? {
        log := log + [Notify(OnStatusChange(Status.Error)), Notify(OnError(failure.value))];
        assert Snapshot() == Tell(Tell(n.state, OnStatusChange(Status.Error)), OnError(failure.value));
        StopTranscription();
      } else {
        log := log + [Notify(OnStatusChange(Status.Connected))];
        assert Snapshot() == Tell(n.state, OnStatusChange(Status.Connected));
      }
    }

    /** The try block of `startTranscription`, up to the first step that throws. */
    method Negotiate(apiKey: string, opts: TranscriptionOptions, inputs: StartInputs)
      returns (failure: Option<Exception>)
      modifies this
      ensures Snapshot() == NegotiateSpec(old(Snapshot()), apiKey, opts, inputs).state
      ensures failure == NegotiateSpec(old(Snapshot()), apiKey, opts, inputs).failure
    {
      ghost var s0 := Snapshot();
      log := log + [Perform(RequestToken(apiKey))];
      ghost var s1 := Snapshot();
      assert s1 == Log(s0, RequestToken(apiKey));
      var tokenResponse := TokenClient.GetEphemeralToken(inputs.token);
      if tokenResponse.Failure? {
        return Some(tokenResponse.error);
      }
      var token := TokenValue(tokenResponse.value);
      if token.Failure? {
        return Some(token.error);
      }
      ephemeralToken := Some(token.value);
      log := log + [Perform(GetUserMedia(AudioFor(opts.selectedMicrophoneId)))];
      ghost var s2 := Snapshot();
      assert s2 == Log(s1.(ephemeralToken := Some(token.value)), GetUserMedia(AudioFor(opts.selectedMicrophoneId)));
      if inputs.media.Failure? {
        return Some(inputs.media.error);
      }
      var stream := NewStream(next, inputs.media.value);
      mediaStream := Some(stream);
      live := live + TrackSet(stream);
      next := next + inputs.media.value;
      assert Snapshot() == Captured(s2, inputs.media.value);
      failure := Connect(ToJsString(token.value), inputs);
    }

    /** Steps 3 to 8 of the try block. */
    method Connect(token: string, inputs: StartInputs) returns (failure: Option<Exception>)
      requires mediaStream.Some?
      modifies this
      ensures Snapshot() == ConnectSpec(old(Snapshot()), token, inputs).state
      ensures failure == ConnectSpec(old(Snapshot()), token, inputs).failure
    {
      var pc := Handle(next);
      peerConnection := Some(pc);
      live := live + {pc};
      next := next + 1;
      log := log + [Perform(CreatePeerConnection(pc))];
      var tracks := mediaStream.value.tracks;
      ghost var before := Snapshot();
      for i := 0 to |tracks|
        invariant Snapshot() == before.(log := before.log + AddTracks(pc, tracks[..i]))
      {
        if peerConnection.Some? {
          log := log + [Perform(AddTrack(peerConnection.value, tracks[i]))];
        }
        assert AddTracks(pc, tracks[..i + 1]) == AddTracks(pc, tracks[..i]) + [Perform(AddTrack(pc, tracks[i]))];
      }
      assert tracks[..|tracks|] == tracks;
      var dc := Handle(next);
      dataChannel := Some(dc);
      live := live + {dc};
      next := next + 1;
      log := log + [Perform(CreateDataChannel(pc, EventsChannelLabel, dc)), Perform(AddMessageListener(dc))];
      log := log + [Perform(CreateOffer(pc))];
      failure := Offer(pc, token, inputs);
    }

    /** Steps 6 to 8 of the try block, after the offer was requested. */
    method Offer(pc: Handle, token: string, inputs: StartInputs) returns (failure: Option<Exception>)
      modifies this
      ensures Snapshot() == OfferSpec(old(Snapshot()), pc, token, inputs).state
      ensures failure == OfferSpec(old(Snapshot()), pc, token, inputs).failure
    {
      if inputs.offer.Failure? {
        return Some(inputs.offer.error);
      }
      var sdp := inputs.offer.value;
      log := log + [Perform(SetLocalDescription(pc, sdp))];
      if inputs.setLocal.Rejected? {
        return Some(inputs.setLocal.error);
      }
      if PreviewThrows(ephemeralToken) {
        return Some(PreviewError);
      }
      log := log + [Perform(PostOffer(SessionUrl, Bearer(token), sdp))];
      if inputs.exchange.Failure? {
        return Some(inputs.exchange.error);
      }
      var response := inputs.exchange.value;
      if !response.ok {
        return Some(PlainError(ExchangeFailedPrefix + response.text));
      }
      log := log + [Perform(SetRemoteDescription(pc, response.text))];
      if inputs.setRemote.Rejected? {
        return Some(inputs.setRemote.error);
      }
      log := log + [Perform(AddStateListener(pc))];
      failure := None;
    }

    method StopTranscription()
      modifies this
      ensures Snapshot() == StopSpec(old(Snapshot()))
    {
      StopSteps(Snapshot());
      CloseDataChannel();
      ClosePeerConnection();
      StopMediaTracks();
      ephemeralToken := None;
      log := log + [Perform(ForgetToken)];
      if options.Some? {
        log := log + [Notify(OnStatusChange(Status.Disconnected))];
      }
    }

    /** Lines 118-122 of `stopTranscription`. */
    method CloseDataChannel()
      modifies this
      ensures Snapshot() == CloseChannelStep(old(Snapshot()))
    {
      if dataChannel.Some? {
        log := log + [Perform(RemoveMessageListener(dataChannel.value)), Perform(CloseChannel(dataChannel.value))];
        live := live - {dataChannel.value};
        dataChannel := None;
      }
    }

    /** Lines 125-129 of `stopTranscription`. */
    method ClosePeerConnection()
      modifies this
      ensures Snapshot() == ClosePeerStep(old(Snapshot()))
    {
      if peerConnection.Some? {
        log := log + [Perform(RemoveStateListener(peerConnection.value)), Perform(ClosePeer(peerConnection.value))];
        live := live - {peerConnection.value};
        peerConnection := None;
      }
    }

    /** Lines 132-137 of `stopTranscription`: stop every track, then drop the stream. */
    method StopMediaTracks()
      modifies this
      ensures Snapshot() == StopTracksStep(old(Snapshot()))
    {
      if mediaStream.Some? {
        var tracks := mediaStream.value.tracks;
        for i := 0 to |tracks|
          invariant live == old(live) - TrackSet(Stream(tracks[..i]))
          invariant log == old(log) + TrackStops(tracks[..i])
          invariant Snapshot() == old(Snapshot()).(live := live, log := log)
        {
          TrackSetGrows(tracks, i);
          live := live - {tracks[i]};
          log := log + [Perform(StopTrack(tracks[i]))];
          assert TrackStops(tracks[..i + 1]) == TrackStops(tracks[..i]) + [Perform(StopTrack(tracks[i]))];
        }
        assert tracks[..|tracks|] == tracks;
        mediaStream := None;
      }
    }

    method HandleTranscriptionEvent(event: MessageData)
      modifies this
      ensures Snapshot() == MessageSpec(old(Snapshot()), event)
    {
      if options.None? {
        return;
      }
      var callback := Classify(event);
      if callback.Some? {
        log := log + [Notify(callback.value)];
      }
    }

    method HandleConnectionStateChange(connectionState: PeerState)
      modifies this
      ensures Snapshot() == ConnectionStateSpec(old(Snapshot()), connectionState)
    {
      if peerConnection.None? || options.None? {
        return;
      }
      match connectionState
      case Connected =>
        log := log + [Notify(OnStatusChange(Status.Connected))];
      case Disconnected =>
        log := log + [Notify(OnStatusChange(Status.Disconnected))];
      case Closed =>
        log := log + [Notify(OnStatusChange(Status.Disconnected))];
      case Failed =>
        log := log + [Notify(OnStatusChange(Status.Error)), Notify(OnError(PlainError(ConnectionFailedMessage)))];
        StopTranscription();
      case _ =>
    }
  }
}
