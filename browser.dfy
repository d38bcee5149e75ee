/**
 * Abstract stand-ins for the browser objects both transcription clients use.
 * A peer connection, a data channel or a media track is a handle; whether
 * the object behind it is still open (not closed, not stopped) is recorded
 * by the client model that holds it. Handles are numbered in the order they
 * are created, so a handle created later is never equal to an earlier one.
 */
module Browser {
  import opened Js

  datatype Handle = Handle(id: nat)

  /** A captured `MediaStream`: its tracks, each a handle. */
  datatype Stream = Stream(tracks: seq<Handle>)

  /** The stream `getUserMedia` hands back, with `n` tracks numbered from `next`. */
  function NewStream(next: nat, n: nat): (s: Stream)
    ensures |s.tracks| == n
    ensures forall i :: 0 <= i < n ==> s.tracks[i] == Handle(next + i)
  {
    Stream(seq(n, i requires 0 <= i < n => Handle(next + i)))
  }

  function TrackSet(s: Stream): set<Handle> {
    set t | t in s.tracks
  }

  /** Stopping the tracks of a stream one by one: each step adds one more track to those handled. */
  lemma TrackSetGrows(tracks: seq<Handle>, i: nat)
    requires i < |tracks|
    ensures TrackSet(Stream(tracks[..i + 1])) == TrackSet(Stream(tracks[..i])) + {tracks[i]}
  {
    assert tracks[..i + 1] == tracks[..i] + [tracks[i]];
  }

  /** The `audio` member of the `getUserMedia` constraints. */
  datatype AudioConstraint = DefaultDevice | ExactDevice(deviceId: string)

  /** `microphoneId ? { deviceId: { exact: microphoneId } } : true` */
  function AudioFor(microphoneId: Option<string>): (c: AudioConstraint)
    ensures c.ExactDevice? <==> microphoneId.Some? && microphoneId.value != ""
    ensures c.ExactDevice? ==> c.deviceId == microphoneId.value
  {
    if microphoneId.Some? && microphoneId.value != "" then ExactDevice(microphoneId.value) else DefaultDevice
  }

  /** `MediaDeviceInfo` as `enumerateDevices` reports it; `deviceLabel` is its `label` (a keyword here). */
  datatype MediaDeviceInfo = MediaDeviceInfo(deviceId: string, kind: string, deviceLabel: string)

  /** `RTCPeerConnection.connectionState` */
  datatype PeerState = New | Connecting | Connected | Disconnected | Failed | Closed

  /** The `data` of a data-channel message after `JSON.parse`: a value, or a parse failure. */
  datatype MessageData = Unparsable | Parsed(data: Value)

  /** The answer to the SDP exchange `fetch`: `response.ok` and the text of its body. */
  datatype SdpResponse = SdpResponse(ok: bool, text: string)

  const EventsChannelLabel := "oai-events"
  const RealtimeBaseUrl := "https://api.openai.com/v1/realtime"

  /** The `Authorization` header for a bearer credential. */
  function Bearer(credential: string): string {
    "Bearer " + credential
  }
}
