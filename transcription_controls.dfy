/**
 * The `TranscriptionControls` component (frontend/src/components/TranscriptionControls.tsx):
 * the start and stop handlers, the callbacks it hands to `RealtimeTranscriptionService`,
 * the transcript accumulation rule, and the status line.
 *
 * `isTranscribing`, `transcript` and `error` belong to the application context in the
 * source; the component is their only writer here, so they are modelled beside its own
 * `status`, `isAlertOpen` and the toasts it raises.
 */
module TranscriptionControls {
  import opened Js
  import opened Browser
  import opened Toasts
  import opened RealtimeEvents
  import opened RealtimeSession
  import opened RealtimeSessionProperties

  /** The `status` state: 'idle', or the last status the service reported. */
  datatype PanelStatus = IdleStatus | Reported(status: Status)

  datatype Ui = Ui(
    status: PanelStatus,
    isTranscribing: bool,
    transcript: string,
    error: Option<string>,
    isAlertOpen: bool,
    toasts: seq<Toast>)

  /** The component together with the service it owns. */
  datatype View = View(ui: Ui, session: Session)

  function Initial(): View {
    View(Ui(IdleStatus, false, "", None, false, []), Idle())
  }

  const ApiKeyRequiredToast := Toast("API Key Required", "Please enter your OpenAI API key above.", ErrorKind, 5000)
  const MicrophoneRequiredToast := Toast("Microphone Required", "Please select a microphone.", WarningKind, 5000)
  const StartedToast :=
    Toast("Transcription Started", "Speak into your microphone to see the transcription.", SuccessKind, 3000)

  function TranscriptionErrorToast(message: string): Toast {
    Toast("Transcription Error", message, ErrorKind, 5000)
  }

  // ---------------------------------------------------------------------------
  // The status line

  /** The text after "Status: ". */
  function StatusLabel(st: PanelStatus): (r: string)
    ensures r == "Ready" <==> st == IdleStatus
    ensures r == "Connected" <==> st == Reported(Status.Connected)
    ensures r == "Connecting..." <==> st == Reported(Status.Connecting)
    ensures r == "Error" <==> st == Reported(Status.Disconnected) || st == Reported(Status.Error)
  {
    match st
    case IdleStatus => "Ready"
    case Reported(Connected) => "Connected"
    case Reported(Connecting) => "Connecting..."
    case _ => "Error"
  }

  /** The colour of the status line. */
  function StatusColor(st: PanelStatus): (r: string)
    ensures r == "green.500" <==> st == Reported(Status.Connected)
    ensures r == "orange.500" <==> st == Reported(Status.Connecting)
    ensures r == "gray.500" <==> !(st == Reported(Status.Connected) || st == Reported(Status.Connecting))
  {
    if st == Reported(Status.Connected) then "green.500"
    else if st == Reported(Status.Connecting) then "orange.500"
    else "gray.500"
  }

  /** The start button shows its spinner exactly while the status is 'connecting'. */
  predicate StartButtonLoading(ui: Ui) {
    ui.status == Reported(Status.Connecting)
  }

  /** Which button is shown: start when not transcribing, stop otherwise. */
  predicate ShowsStartButton(ui: Ui) {
    !ui.isTranscribing
  }

  // ---------------------------------------------------------------------------
  // The transcript

  /** A non-empty transcript that does not end in a space gets one before the next partial text. */
  predicate NeedsSpace(prev: string) {
    prev != "" && prev[|prev| - 1] != ' '
  }

  /** `onTranscription`: a final text replaces the transcript; a partial one is appended. */
  function Accumulate(prev: string, text: string, isFinal: bool): (r: string)
    ensures isFinal ==> r == text
    ensures !isFinal ==> |r| == |prev| + |text| + (if NeedsSpace(prev) then 1 else 0)
    ensures !isFinal ==> StartsWith(r, prev) && r[|r| - |text|..] == text
    ensures !isFinal && NeedsSpace(prev) ==> r[|prev|] == ' '
  {
    if isFinal then text else prev + (if NeedsSpace(prev) then " " else "") + text
  }

  // ---------------------------------------------------------------------------
  // The handlers

  /**
   * `handleStopTranscription`: stop the service, then 'idle'. The `disconnected` the stop
   * reports is overwritten by 'idle' in the same handler, so it is not replayed.
   */
  function StopHandlerSpec(v: View): View {
    View(v.ui.(isTranscribing := false, status := IdleStatus), StopSpec(v.session))
  }

  /** What one callback of the service does to the component. */
  function React(v: View, c: Callback): View {
    match c
    case OnTranscription(text, isFinal) =>
      v.(ui := v.ui.(transcript := Accumulate(v.ui.transcript, ToJsString(text), isFinal)))
    case OnStatusChange(st) =>
      v.(ui := v.ui.(status := Reported(st)))
    case OnError(e) =>
      StopHandlerSpec(v.(ui := v.ui.(error := Some(e.message),
                                     toasts := v.ui.toasts + [TranscriptionErrorToast(e.message)])))
  }

  /** The callbacks `cs`, in order. */
  function Replay(v: View, cs: seq<Callback>): View
    decreases |cs|
  {
    if cs == [] then v else React(Replay(v, cs[..|cs| - 1]), cs[|cs| - 1])
  }

  /** The options the component passes on: the selected device's id. */
  function OptionsFor(mic: MediaDeviceInfo): TranscriptionOptions {
    TranscriptionOptions(Some(mic.deviceId))
  }

  function Toasted(v: View, t: Toast): View {
    v.(ui := v.ui.(toasts := v.ui.toasts + [t]))
  }

  /**
   * `handleStartTranscription`: two guards that only raise a toast; then the reset of the
   * state, the service's start with every callback it makes replayed in order, and the
   * 'Transcription Started' toast, which follows whatever the start reported.
   */
  ghost function StartHandlerSpec(v: View, apiKey: string, selectedMicrophone: Option<MediaDeviceInfo>,
                                  inputs: StartInputs): View
    requires Valid(v.session)
  {
    if apiKey == "" then Toasted(v, ApiKeyRequiredToast)
    else if selectedMicrophone.None? then Toasted(v, MicrophoneRequiredToast)
    else
      var ui := v.ui.(status := Reported(Status.Connecting), error := None, isTranscribing := true, transcript := "");
      var t := StartSpec(v.session, apiKey, OptionsFor(selectedMicrophone.value), inputs);
      StartExtendsLog(v.session, apiKey, OptionsFor(selectedMicrophone.value), inputs);
      Toasted(Replay(View(ui, t), Callbacks(t.log[|v.session.log|..])), StartedToast)
  }

  /** A data-channel message reaching the service while the component is mounted. */
  ghost function ChannelMessageSpec(v: View, m: MessageData): View {
    var t := MessageSpec(v.session, m);
    MessageForwardsAtMostOne(v.session, m);
    Replay(v.(session := t), Callbacks(t.log[|v.session.log|..]))
  }

  /** A connection-state change reaching the service while the component is mounted. */
  ghost function ConnectionChangeSpec(v: View, state: PeerState): View {
    var t := ConnectionStateSpec(v.session, state);
    ConnectionStateExtendsLog(v.session, state);
    Replay(v.(session := t), Callbacks(t.log[|v.session.log|..]))
  }

  lemma ReplaySnoc(v: View, cs: seq<Callback>, c: Callback)
    ensures Replay(v, cs + [c]) == React(Replay(v, cs), c)
  {
    assert (cs + [c])[..|cs|] == cs;
  }

  /** Replaying keeps the service valid: the only thing a callback does to it is stop it. */
  lemma {:induction false} ReplayKeepsValid(v: View, cs: seq<Callback>)
    requires Valid(v.session)
    ensures Valid(Replay(v, cs).session)
  {
    if cs != [] {
      var w := Replay(v, cs[..|cs| - 1]);
      ReplayKeepsValid(v, cs[..|cs| - 1]);
      StopExtendsLog(w.session);
    }
  }

  // ---------------------------------------------------------------------------
  // The component object

  class Controls {
    var status: PanelStatus
    var isTranscribing: bool
    var transcript: string
    var error: Option<string>
    var isAlertOpen: bool
    var toasts: seq<Toast>
    /** `transcriptionService.current`, created once with the component. */
    const service: RealtimeTranscriptionService

    ghost function Snapshot(): View
      reads this, service
    {
      View(Ui(status, isTranscribing, transcript, error, isAlertOpen, toasts), service.Snapshot())
    }

    constructor ()
      ensures Snapshot() == Initial()
    {
      status, isTranscribing, transcript, error := IdleStatus, false, "", None;
      isAlertOpen, toasts := false, [];
      service := new RealtimeTranscriptionService();
    }

    method HandleStopTranscription()
      modifies this, service
      ensures Snapshot() == StopHandlerSpec(old(Snapshot()))
      ensures Valid(old(service.Snapshot())) ==> Valid(service.Snapshot())
    {
      StopExtendsLog(service.Snapshot());
      service.StopTranscription();
      isTranscribing := false;
      status := IdleStatus;
    }

    /** The body of the callback the service invokes. */
    method Respond(c: Callback)
      modifies this, service
      ensures Snapshot() == React(old(Snapshot()), c)
    {
      match c
      case OnTranscription(text, isFinal) =>
        transcript := Accumulate(transcript, ToJsString(text), isFinal);
      case OnStatusChange(st) =>
        status := Reported(st);
      case OnError(e) =>
        error := Some(e.message);
        toasts := toasts + [TranscriptionErrorToast(e.message)];
        HandleStopTranscription();
    }

    /** Runs the callbacks among `events`, in the order the service made them. */
    method Deliver(events: seq<Event>)
      modifies this, service
      ensures Snapshot() == Replay(old(Snapshot()), Callbacks(events))
    {
      ghost var v := Snapshot();
      for i := 0 to |events|
        invariant Snapshot() == Replay(v, Callbacks(events[..i]))
      {
        assert events[..i + 1] == events[..i] + [events[i]];
        CallbacksAppend(events[..i], [events[i]]);
        assert [events[i]][1..] == [];
        if events[i].Notify? {
          assert Callbacks([events[i]]) == [events[i].callback];
          ReplaySnoc(v, Callbacks(events[..i]), events[i].callback);
          Respond(events[i].callback);
        } else {
          assert Callbacks(events[..i + 1]) == Callbacks(events[..i]);
        }
      }
      assert events[..|events|] == events;
    }

    method HandleStartTranscription(apiKey: string, selectedMicrophone: Option<MediaDeviceInfo>, inputs: StartInputs)
      requires Valid(service.Snapshot())
      modifies this, service
      ensures Snapshot() == StartHandlerSpec(old(Snapshot()), apiKey, selectedMicrophone, inputs)
      ensures Valid(service.Snapshot())
    {
      if apiKey == "" {
        toasts := toasts + [ApiKeyRequiredToast];
        return;
      }
      if selectedMicrophone.None? {
        toasts := toasts + [MicrophoneRequiredToast];
        return;
      }
      status := Reported(Status.Connecting);
      error := None;
      isTranscribing := true;
      transcript := "";
      ghost var before := service.Snapshot();
      var mark := |service.log|;
      service.StartTranscription(apiKey, OptionsFor(selectedMicrophone.value), inputs);
      StartExtendsLog(before, apiKey, OptionsFor(selectedMicrophone.value), inputs);
      ReplayKeepsValid(Snapshot(), Callbacks(service.log[mark..]));
      Deliver(service.log[mark..]);
      toasts := toasts + [StartedToast];
    }

    /** The service's message listener, followed by the callbacks it makes. */
    method HandleChannelMessage(m: MessageData)
      requires Valid(service.Snapshot())
      modifies this, service
      ensures Snapshot() == ChannelMessageSpec(old(Snapshot()), m)
      ensures Valid(service.Snapshot())
    {
      ghost var before := service.Snapshot();
      var mark := |service.log|;
      service.HandleTranscriptionEvent(m);
      MessageForwardsAtMostOne(before, m);
      ReplayKeepsValid(Snapshot(), Callbacks(service.log[mark..]));
      Deliver(service.log[mark..]);
    }

    /** The service's connection-state listener, followed by the callbacks it makes. */
    method HandleConnectionStateChange(state: PeerState)
      requires Valid(service.Snapshot())
      modifies this, service
      ensures Snapshot() == ConnectionChangeSpec(old(Snapshot()), state)
      ensures Valid(service.Snapshot())
    {
      ghost var before := service.Snapshot();
      var mark := |service.log|;
      service.HandleConnectionStateChange(state);
      ConnectionStateExtendsLog(before, state);
      ReplayKeepsValid(Snapshot(), Callbacks(service.log[mark..]));
      Deliver(service.log[mark..]);
    }

    /** The stop button opens the confirmation dialog. */
    method RequestStop()
      modifies this
      ensures Snapshot() == old(Snapshot()).(ui := old(Snapshot()).ui.(isAlertOpen := true))
    {
      isAlertOpen := true;
    }

    /** Cancel, or dismissing the dialog, closes it. */
    method CancelStop()
      modifies this
      ensures Snapshot() == old(Snapshot()).(ui := old(Snapshot()).ui.(isAlertOpen := false))
    {
      isAlertOpen := false;
    }

    /** The dialog's Stop button: stop, then close the dialog. */
    method ConfirmStop()
      modifies this, service
      ensures Snapshot() == ConfirmStopSpec(old(Snapshot()))
      ensures Valid(old(service.Snapshot())) ==> Valid(service.Snapshot())
    {
      HandleStopTranscription();
      isAlertOpen := false;
    }
  }

  function ConfirmStopSpec(v: View): View {
    var w := StopHandlerSpec(v);
    w.(ui := w.ui.(isAlertOpen := false))
  }
}
