/**
 * What the `TranscriptionControls` component shows after each handler, stated about the
 * functions of module TranscriptionControls and the service properties they rest on.
 */
module TranscriptionControlsProperties {
  import opened Js
  import opened Browser
  import opened Toasts
  import opened RealtimeEvents
  import opened RealtimeSession
  import opened RealtimeSessionProperties
  import opened TranscriptionControls

  // ---------------------------------------------------------------------------
  // Replaying callbacks

  /** Replaying callbacks only appends to the service's log. */
  lemma {:induction false} ReplayGrowsLog(v: View, cs: seq<Callback>)
    ensures |v.session.log| <= |Replay(v, cs).session.log|
  {
    if cs != [] {
      ReplayGrowsLog(v, cs[..|cs| - 1]);
      StopExtendsLog(Replay(v, cs[..|cs| - 1]).session);
    }
  }

  lemma OneCallback(c: Callback)
    ensures Callbacks([Notify(c)]) == [c]
  {
    assert [Notify(c)][1..] == [];
  }

  lemma ReplayOne(v: View, a: Callback)
    ensures Replay(v, [a]) == React(v, a)
  {
    ReplaySnoc(v, [], a);
    assert [] + [a] == [a];
  }

  lemma ReplayTwo(v: View, a: Callback, b: Callback)
    ensures Replay(v, [a, b]) == React(React(v, a), b)
  {
    ReplayOne(v, a);
    ReplaySnoc(v, [a], b);
    assert [a] + [b] == [a, b];
  }

  lemma ReplayThree(v: View, a: Callback, b: Callback, c: Callback)
    ensures Replay(v, [a, b, c]) == React(React(React(v, a), b), c)
  {
    ReplayTwo(v, a, b);
    ReplaySnoc(v, [a, b], c);
    assert [a, b] + [c] == [a, b, c];
  }

  lemma ReplayFour(v: View, a: Callback, b: Callback, c: Callback, d: Callback)
    ensures Replay(v, [a, b, c, d]) == React(React(React(React(v, a), b), c), d)
  {
    ReplayThree(v, a, b, c);
    ReplaySnoc(v, [a, b, c], d);
    assert [a, b, c] + [d] == [a, b, c, d];
  }

  // ---------------------------------------------------------------------------
  // The transcript

  lemma PrefixTransitive(a: string, b: string, c: string)
    requires StartsWith(b, a) && StartsWith(c, b)
    ensures StartsWith(c, a)
  {
    assert c[..|a|] == c[..|b|][..|a|];
  }

  /**
   * A run of partial transcriptions only extends the transcript: what was there stays as
   * its prefix, and nothing else in the component or the service changes.
   */
  lemma {:induction false} PartialsExtendTranscript(v: View, cs: seq<Callback>)
    requires forall i :: 0 <= i < |cs| ==> cs[i].OnTranscription? && !cs[i].isFinal
    ensures var r := Replay(v, cs);
            && StartsWith(r.ui.transcript, v.ui.transcript)
            && r == v.(ui := v.ui.(transcript := r.ui.transcript))
  {
    if cs != [] {
      var w := Replay(v, cs[..|cs| - 1]);
      PartialsExtendTranscript(v, cs[..|cs| - 1]);
      var c := cs[|cs| - 1];
      var r := React(w, c);
      assert r.ui.transcript == Accumulate(w.ui.transcript, ToJsString(c.text), false);
      PrefixTransitive(v.ui.transcript, w.ui.transcript, r.ui.transcript);
    }
  }

  /** A final transcription discards whatever partial texts came before it. */
  lemma FinalReplacesPartials(v: View, cs: seq<Callback>, text: Value)
    requires forall i :: 0 <= i < |cs| ==> cs[i].OnTranscription? && !cs[i].isFinal
    ensures Replay(v, cs + [OnTranscription(text, true)]) ==
            v.(ui := v.ui.(transcript := ToJsString(text)))
  {
    ReplaySnoc(v, cs, OnTranscription(text, true));
    PartialsExtendTranscript(v, cs);
  }

  /**
   * Partial texts are joined with a space wherever the transcript does not already end in
   * one: deltas that split a word come apart, and a delta that brings its own leading
   * space doubles it.
   */
  lemma DeltaJunctions()
    ensures Accumulate(Accumulate("", "he", false), "llo", false) == "he llo"
    ensures Accumulate("hello", " world", false) == "hello  world"
    ensures Accumulate("hello ", "world", false) == "hello world"
    ensures Accumulate("he llo", "hello", true) == "hello"
  {
    assert NeedsSpace("he");
    assert NeedsSpace("hello");
    assert !NeedsSpace("hello ");
  }

  // ---------------------------------------------------------------------------
  // handleStartTranscription

  /**
   * The guards: a missing API key or a missing microphone raises its toast and nothing else;
   * past the guards the service is always called, so the session changes.
   */
  lemma StartGuards(v: View, apiKey: string, mic: Option<MediaDeviceInfo>, inputs: StartInputs)
    requires Valid(v.session)
    ensures var r := StartHandlerSpec(v, apiKey, mic, inputs);
            && (r.session == v.session <==> apiKey == "" || mic.None?)
            && (apiKey == "" ==> r.ui == v.ui.(toasts := v.ui.toasts + [ApiKeyRequiredToast]))
            && (apiKey != "" && mic.None? ==> r.ui == v.ui.(toasts := v.ui.toasts + [MicrophoneRequiredToast]))
  {
    if apiKey != "" && mic.Some? {
      var opts := OptionsFor(mic.value);
      var t := StartSpec(v.session, apiKey, opts, inputs);
      StartExtendsLog(v.session, apiKey, opts, inputs);
      var ui := v.ui.(status := Reported(Status.Connecting), error := None, isTranscribing := true, transcript := "");
      ReplayGrowsLog(View(ui, t), Callbacks(t.log[|v.session.log|..]));
    }
  }

  /** A start the attempt view begins from: status 'connecting', no error, transcribing, empty transcript. */
  function Reset(ui: Ui): Ui {
    ui.(status := Reported(Status.Connecting), error := None, isTranscribing := true, transcript := "")
  }

  /**
   * A start whose service attempt fails ends showing "Error" with the start button back,
   * the error's message stored and raised, then 'Transcription Started' anyway.
   */
  lemma StartFailureView(v: View, apiKey: string, mic: MediaDeviceInfo, inputs: StartInputs)
    requires Valid(v.session) && apiKey != ""
    requires NegotiateSpec(Announced(v.session, OptionsFor(mic)), apiKey, OptionsFor(mic), inputs).failure.Some?
    ensures var e := NegotiateSpec(Announced(v.session, OptionsFor(mic)), apiKey, OptionsFor(mic), inputs).failure.value;
            var r := StartHandlerSpec(v, apiKey, Some(mic), inputs);
            && r.ui.status == Reported(Status.Disconnected) && StatusLabel(r.ui.status) == "Error"
            && ShowsStartButton(r.ui) && r.ui.error == Some(e.message) && r.ui.transcript == ""
            && r.ui.isAlertOpen == v.ui.isAlertOpen
            && r.ui.toasts == v.ui.toasts + [TranscriptionErrorToast(e.message), StartedToast]
  {
    var opts := OptionsFor(mic);
    var e := NegotiateSpec(Announced(v.session, opts), apiKey, opts, inputs).failure.value;
    var t := StartSpec(v.session, apiKey, opts, inputs);
    StartFailureCallbacks(v.session, apiKey, opts, inputs);
    ReplayFour(View(Reset(v.ui), t), OnStatusChange(Status.Connecting), OnStatusChange(Status.Error),
               OnError(e), OnStatusChange(Status.Disconnected));
  }

  /** After a failed start the service holds nothing and nothing new is left open. */
  lemma StartFailureLeavesNothingOpen(v: View, apiKey: string, mic: MediaDeviceInfo, inputs: StartInputs)
    requires Valid(v.session) && apiKey != ""
    requires NegotiateSpec(Announced(v.session, OptionsFor(mic)), apiKey, OptionsFor(mic), inputs).failure.Some?
    ensures var r := StartHandlerSpec(v, apiKey, Some(mic), inputs);
            Held(r.session) == {} && r.session.live <= v.session.live
  {
    var opts := OptionsFor(mic);
    var e := NegotiateSpec(Announced(v.session, opts), apiKey, opts, inputs).failure.value;
    var t := StartSpec(v.session, apiKey, opts, inputs);
    StartFailureCallbacks(v.session, apiKey, opts, inputs);
    StartFailureReleases(v.session, apiKey, opts, inputs);
    ReplayFour(View(Reset(v.ui), t), OnStatusChange(Status.Connecting), OnStatusChange(Status.Error),
               OnError(e), OnStatusChange(Status.Disconnected));
    StopReleasesEverything(t);
  }

  /**
   * A start whose every step succeeds ends showing "Connected" with the stop button, no
   * error, an empty transcript and the 'Transcription Started' toast.
   */
  lemma StartSuccessView(v: View, apiKey: string, mic: MediaDeviceInfo, inputs: StartInputs)
    requires Valid(v.session) && apiKey != ""
    requires NegotiateSpec(Announced(v.session, OptionsFor(mic)), apiKey, OptionsFor(mic), inputs).failure.None?
    ensures var r := StartHandlerSpec(v, apiKey, Some(mic), inputs);
            && r.ui == v.ui.(status := Reported(Status.Connected), error := None, isTranscribing := true,
                             transcript := "", toasts := v.ui.toasts + [StartedToast])
            && StatusLabel(r.ui.status) == "Connected" && !ShowsStartButton(r.ui)
  {
    var opts := OptionsFor(mic);
    var t := StartSpec(v.session, apiKey, opts, inputs);
    StartSuccessCallbacks(v.session, apiKey, opts, inputs);
    ReplayTwo(View(Reset(v.ui), t), OnStatusChange(Status.Connecting), OnStatusChange(Status.Connected));
  }

  /** After a successful start the session is the service's own start state, holding a fresh connection. */
  lemma StartSuccessSession(v: View, apiKey: string, mic: MediaDeviceInfo, inputs: StartInputs)
    requires Valid(v.session) && apiKey != ""
    requires NegotiateSpec(Announced(v.session, OptionsFor(mic)), apiKey, OptionsFor(mic), inputs).failure.None?
    ensures var r := StartHandlerSpec(v, apiKey, Some(mic), inputs);
            r.session == StartSpec(v.session, apiKey, OptionsFor(mic), inputs) && FreshlyConnected(v.session, r.session)
  {
    var opts := OptionsFor(mic);
    var t := StartSpec(v.session, apiKey, opts, inputs);
    StartSuccessCallbacks(v.session, apiKey, opts, inputs);
    StartSuccessHolds(v.session, apiKey, opts, inputs);
    ReplayTwo(View(Reset(v.ui), t), OnStatusChange(Status.Connecting), OnStatusChange(Status.Connected));
  }

  // ---------------------------------------------------------------------------
  // handleStopTranscription and the dialog

  /**
   * A stop shows "Ready" and the start button, keeps the transcript, the error and the
   * toasts, and leaves the service holding nothing, with none of what it held still open.
   */
  lemma StopHandlerResets(v: View)
    ensures var r := StopHandlerSpec(v);
            && r.ui == v.ui.(status := IdleStatus, isTranscribing := false)
            && StatusLabel(r.ui.status) == "Ready" && ShowsStartButton(r.ui)
            && Held(r.session) == {} && Held(v.session) !! r.session.live && r.session.live <= v.session.live
  {
    StopReleasesEverything(v.session);
  }

  /**
   * Starting and then confirming the stop, on any outcome of the start, closes the dialog
   * and leaves open nothing that was not open before the start.
   */
  lemma StartThenConfirmStop(v: View, apiKey: string, mic: Option<MediaDeviceInfo>, inputs: StartInputs)
    requires Valid(v.session)
    ensures var r := ConfirmStopSpec(StartHandlerSpec(v, apiKey, mic, inputs));
            && r.ui.status == IdleStatus && !r.ui.isTranscribing && !r.ui.isAlertOpen
            && Held(r.session) == {} && r.session.live <= v.session.live
  {
    var m := StartHandlerSpec(v, apiKey, mic, inputs);
    StopHandlerResets(m);
    if apiKey != "" && mic.Some? {
      var opts := OptionsFor(mic.value);
      if NegotiateSpec(Announced(v.session, opts), apiKey, opts, inputs).failure.Some? {
        StartFailureView(v, apiKey, mic.value, inputs);
        StartFailureLeavesNothingOpen(v, apiKey, mic.value, inputs);
      } else {
        StartSuccessView(v, apiKey, mic.value, inputs);
        StartSuccessSession(v, apiKey, mic.value, inputs);
        StartThenStopReleasesAttempt(v.session, apiKey, opts, inputs);
      }
    }
  }

  // ---------------------------------------------------------------------------
  // Callbacks during a session

  /** A transcription message updates the transcript by the accumulation rule, and nothing else. */
  lemma TranscriptMessageUpdates(v: View, m: MessageData, text: Value, isFinal: bool)
    requires v.session.options.Some? && Classify(m) == Some(OnTranscription(text, isFinal))
    ensures ChannelMessageSpec(v, m) ==
            View(v.ui.(transcript := Accumulate(v.ui.transcript, ToJsString(text), isFinal)), MessageSpec(v.session, m))
  {
    var t := MessageSpec(v.session, m);
    assert t.log[|v.session.log|..] == [Notify(OnTranscription(text, isFinal))];
    OneCallback(OnTranscription(text, isFinal));
    ReplayOne(v.(session := t), OnTranscription(text, isFinal));
  }

  /**
   * An error message from the model is stored and raised, and stops the session: the
   * component shows "Ready" and the service holds nothing.
   */
  lemma ErrorMessageStops(v: View, m: MessageData, e: Exception)
    requires v.session.options.Some? && Classify(m) == Some(OnError(e))
    ensures var r := ChannelMessageSpec(v, m);
            && r.ui == v.ui.(status := IdleStatus, isTranscribing := false, error := Some(e.message),
                             toasts := v.ui.toasts + [TranscriptionErrorToast(e.message)])
            && StatusLabel(r.ui.status) == "Ready"
            && Held(r.session) == {} && Held(v.session) !! r.session.live
  {
    var t := MessageSpec(v.session, m);
    assert t.log[|v.session.log|..] == [Notify(OnError(e))];
    OneCallback(OnError(e));
    ReplayOne(v.(session := t), OnError(e));
    StopReleasesEverything(t);
  }

  /** Before a start, or for a message that names no known type, a message changes nothing. */
  lemma OtherMessagesChangeNothing(v: View, m: MessageData)
    requires v.session.options.None? || Classify(m).None?
    ensures ChannelMessageSpec(v, m) == v
  {
    assert v.session.log[|v.session.log|..] == [];
  }

  /**
   * A `failed` connection is reported as an error: the component shows "Error" with the
   * start button, stores and raises the fixed message, and the service holds nothing.
   */
  lemma FailedConnectionView(v: View)
    requires v.session.peerConnection.Some? && v.session.options.Some?
    ensures var r := ConnectionChangeSpec(v, PeerState.Failed);
            && r.ui == v.ui.(status := Reported(Status.Disconnected), isTranscribing := false,
                             error := Some(ConnectionFailedMessage),
                             toasts := v.ui.toasts + [TranscriptionErrorToast(ConnectionFailedMessage)])
            && StatusLabel(r.ui.status) == "Error" && ShowsStartButton(r.ui)
            && Held(r.session) == {} && Held(v.session) !! r.session.live
  {
    var t := ConnectionStateSpec(v.session, PeerState.Failed);
    FailedConnectionTearsDown(v.session);
    ReplayThree(v.(session := t), OnStatusChange(Status.Error), OnError(PlainError(ConnectionFailedMessage)),
                OnStatusChange(Status.Disconnected));
    StopReleasesEverything(t);
  }

  /**
   * A dropped or closed connection only changes the status line to "Error": the stop
   * button stays, and the service keeps every handle.
   */
  lemma DroppedConnectionView(v: View, state: PeerState)
    requires state == PeerState.Disconnected || state == PeerState.Closed
    requires v.session.peerConnection.Some? && v.session.options.Some?
    ensures var r := ConnectionChangeSpec(v, state);
            && r.ui == v.ui.(status := Reported(Status.Disconnected)) && StatusLabel(r.ui.status) == "Error"
            && Held(r.session) == Held(v.session) && r.session.live == v.session.live
  {
    var t := ConnectionStateSpec(v.session, state);
    DroppedConnectionKeepsHandles(v.session, state);
    ReplayOne(v.(session := t), OnStatusChange(Status.Disconnected));
  }

  /** The component starts idle, showing "Ready" and the start button, with nothing held. */
  lemma InitialView()
    ensures StatusLabel(Initial().ui.status) == "Ready" && ShowsStartButton(Initial().ui)
    ensures !StartButtonLoading(Initial().ui) && Held(Initial().session) == {} && Valid(Initial().session)
  {
  }
}
