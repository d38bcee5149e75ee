/**
 * The callbacks `RealtimeTranscriptionService` reports through, and the
 * classification of inbound data-channel messages by their `type` tag
 * (frontend/src/services/webrtc/index.ts, `handleTranscriptionEvent`).
 */
module RealtimeEvents {
  import opened Js
  import opened Browser

  /** What `onStatusChange` is told. */
  datatype Status = Connecting | Connected | Disconnected | Error

  /** One invocation of a caller callback from `TranscriptionOptions`. */
  datatype Callback =
    | OnTranscription(text: Value, isFinal: bool)
    | OnError(error: Exception)
    | OnStatusChange(status: Status)

  const DeltaType := "response.audio_transcript.delta"
  const DoneType := "response.audio_transcript.done"
  const TranscriptionType := "transcription"
  const ErrorType := "error"
  const ConnectedType := "connected"
  const SessionBeginsType := "session_begins"
  const UnknownErrorMessage := "Unknown transcription error"

  /** The tag of a message: the string `type` of a parsed, non-null message; None otherwise. */
  function Tag(m: MessageData): Option<string> {
    if m.Parsed? && !m.data.Null? && !m.data.Undefined? && OptMember(m.data, "type").Str? then
      Some(OptMember(m.data, "type").s)
    else None
  }

  /**
   * The callback one message causes, if any: the body of the `try` block,
   * with a TypeError from reading `type` of a null message caught like a
   * parse failure.
   */
  function Classify(m: MessageData): (r: Option<Callback>)
    ensures r.Some? ==> !r.value.OnStatusChange?
  {
    match m
    case Unparsable => None
    case Parsed(data) =>
      match Member(data, "type")
      case Failure(_) => None
      case Success(kind) =>
        if kind == Str(DeltaType) then Some(OnTranscription(OptMember(data, "delta"), false))
        else if kind == Str(DoneType) then Some(OnTranscription(OptMember(data, "transcript"), true))
        else if kind == Str(TranscriptionType) then
          Some(OnTranscription(OptMember(data, "text"), Truthy(OptMember(data, "final"))))
        else if kind == Str(ErrorType) then
          Some(OnError(PlainError(ToJsString(Or(OptMember(data, "message"), Str(UnknownErrorMessage))))))
        else None
  }

  /** The reference table: which callback kind a tag selects. */
  datatype Kind = Transcript | Fault | Ignored

  function KindOf(tag: Option<string>): Kind {
    if tag == Some(DeltaType) || tag == Some(DoneType) || tag == Some(TranscriptionType) then Transcript
    else if tag == Some(ErrorType) then Fault
    else Ignored
  }

  /** Classification agrees with the table: transcript tags, the error tag, and everything else is ignored. */
  lemma {:induction false} ClassifyFollowsTable(m: MessageData)
    ensures Classify(m).None? <==> KindOf(Tag(m)) == Ignored
    ensures Classify(m).Some? && Classify(m).value.OnTranscription? <==> KindOf(Tag(m)) == Transcript
    ensures Classify(m).Some? && Classify(m).value.OnError? <==> KindOf(Tag(m)) == Fault
  {
    if m.Parsed? && !m.data.Null? && !m.data.Undefined? {
      var kind := OptMember(m.data, "type");
      assert Member(m.data, "type") == Success(kind);
      if kind.Str? {
        var t := kind.s;
        assert |DeltaType| == 31 && |DoneType| == 30 && |TranscriptionType| == 13 && |ErrorType| == 5;
        if t == DeltaType || t == DoneType || t == TranscriptionType || t == ErrorType {
        } else {
          assert kind != Str(DeltaType) && kind != Str(DoneType);
          assert kind != Str(TranscriptionType) && kind != Str(ErrorType);
        }
      }
    }
  }

  /** The text and finality each transcript tag reports. */
  lemma TranscriptPayloads(data: Value)
    requires data.Obj?
    ensures Member(data, "type") == Success(Str(DeltaType)) ==>
              Classify(Parsed(data)) == Some(OnTranscription(OptMember(data, "delta"), false))
    ensures Member(data, "type") == Success(Str(DoneType)) ==>
              Classify(Parsed(data)) == Some(OnTranscription(OptMember(data, "transcript"), true))
    ensures Member(data, "type") == Success(Str(TranscriptionType)) ==>
              Classify(Parsed(data)) == Some(OnTranscription(OptMember(data, "text"),
                                                             Truthy(OptMember(data, "final"))))
  {
    assert |DeltaType| == 31 && |DoneType| == 30 && |TranscriptionType| == 13;
  }

  /** An error message reports its `message`, or the fixed text when that is missing or empty. */
  lemma ErrorPayload(data: Value)
    requires data.Obj? && Member(data, "type") == Success(Str(ErrorType))
    ensures Classify(Parsed(data)).Some? && Classify(Parsed(data)).value.OnError?
    ensures OptMember(data, "message").Str? && OptMember(data, "message").s != "" ==>
              Classify(Parsed(data)).value.error == PlainError(OptMember(data, "message").s)
    ensures !Truthy(OptMember(data, "message")) ==>
              Classify(Parsed(data)).value.error == PlainError(UnknownErrorMessage)
  {
    assert |DeltaType| == 31 && |DoneType| == 30 && |TranscriptionType| == 13 && |ErrorType| == 5;
  }

  /** The informational tags cause no callback. */
  lemma InformationalTagsIgnored(m: MessageData)
    requires Tag(m) == Some(ConnectedType) || Tag(m) == Some(SessionBeginsType)
    ensures Classify(m).None?
  {
    ClassifyFollowsTable(m);
    assert |ConnectedType| == 9 && |SessionBeginsType| == 14;
  }
}
