/**
 * The `MicrophoneSelector` component (frontend/src/components/MicrophoneSelector.tsx):
 * loading the audio inputs, the default selection, the change handler and the option labels.
 * `availableMicrophones` and `selectedMicrophone` belong to the application context in the
 * source; the component is their only writer here, so they are modelled as its fields.
 */
module MicrophoneSelection {
  import opened Js
  import opened Browser
  import opened Toasts

  const AudioInputKind := "audioinput"
  const AccessErrorToast :=
    Toast("Microphone Access Error", "Could not access your microphone. Please check permissions.", ErrorKind, 5000)

  /** The selector's state. */
  datatype Picker = Picker(available: seq<MediaDeviceInfo>, selected: Option<MediaDeviceInfo>, toasts: seq<Toast>)

  function Initial(): Picker {
    Picker([], None, [])
  }

  /** `devices.filter(device => device.kind === 'audioinput')` */
  function AudioInputs(devices: seq<MediaDeviceInfo>): (r: seq<MediaDeviceInfo>)
    ensures |r| <= |devices|
    ensures forall d :: d in r <==> d in devices && d.kind == AudioInputKind
  {
    if devices == [] then []
    else (if devices[0].kind == AudioInputKind then [devices[0]] else []) + AudioInputs(devices[1..])
  }

  /** `list.find(mic => mic.deviceId === deviceId)`: the first device with that id. */
  function FindDevice(mics: seq<MediaDeviceInfo>, deviceId: string): (r: Option<MediaDeviceInfo>)
    ensures r.None? <==> forall i :: 0 <= i < |mics| ==> mics[i].deviceId != deviceId
    ensures r.Some? ==> exists i :: 0 <= i < |mics| && mics[i] == r.value && r.value.deviceId == deviceId
                                   && forall j :: 0 <= j < i ==> mics[j].deviceId != deviceId
  {
    if mics == [] then None
    else if mics[0].deviceId == deviceId then Some(mics[0])
    else
      var rest := FindDevice(mics[1..], deviceId);
      assert forall i :: 1 <= i < |mics| ==> mics[i] == mics[1..][i - 1];
      rest
  }

  function Min(a: int, b: int): int {
    if a < b then a else b
  }

  /** The text of a device's option: its label, or a name made from the start of its id. */
  function OptionLabel(mic: MediaDeviceInfo): (r: string)
    ensures mic.deviceLabel != "" ==> r == mic.deviceLabel
    ensures mic.deviceLabel == "" ==>
              var n := Min(5, |mic.deviceId|);
              && |r| == |"Microphone "| + n + |"..."|
              && StartsWith(r, "Microphone ") && r[|r| - 3..] == "..."
              && r[|"Microphone "|..|"Microphone "| + n] == mic.deviceId[..n]
  {
    if mic.deviceLabel != "" then mic.deviceLabel
    else "Microphone " + mic.deviceId[..Min(5, |mic.deviceId|)] + "..."
  }

  /** The select's value: `selectedMicrophone?.deviceId || ''`. */
  function SelectValue(selected: Option<MediaDeviceInfo>): (r: string)
    ensures selected.None? ==> r == ""
    ensures selected.Some? ==> r == selected.value.deviceId
  {
    match selected
    case None => ToJsString(Or(Undefined, Str("")))
    case Some(mic) => ToJsString(Or(Str(mic.deviceId), Str("")))
  }

  /**
   * `loadMicrophones`: after the permission request and the enumeration, the list is
   * replaced and, when nothing is selected, the first microphone becomes the selection.
   * If either call rejects, only the error toast is raised.
   */
  function LoadSpec(p: Picker, permission: Outcome, enumeration: Result<seq<MediaDeviceInfo>>): Picker {
    if permission.Rejected? || enumeration.Failure? then p.(toasts := p.toasts + [AccessErrorToast])
    else
      var mics := AudioInputs(enumeration.value);
      p.(available := mics, selected := if p.selected.None? && |mics| > 0 then Some(mics[0]) else p.selected)
  }

  /** `handleMicrophoneChange`: select the listed device with the chosen id, if there is one. */
  function ChangeSpec(p: Picker, value: string): Picker {
    match FindDevice(p.available, value)
    case Some(mic) => p.(selected := Some(mic))
    case None => p
  }

  class MicrophoneSelector {
    var availableMicrophones: seq<MediaDeviceInfo>
    var selectedMicrophone: Option<MediaDeviceInfo>
    var toasts: seq<Toast>

    ghost function Snapshot(): Picker
      reads this
    {
      Picker(availableMicrophones, selectedMicrophone, toasts)
    }

    constructor ()
      ensures Snapshot() == Initial()
    {
      availableMicrophones, selectedMicrophone, toasts := [], None, [];
    }

    /** `loadMicrophones`, given how `getUserMedia` and `enumerateDevices` settle. */
    method LoadMicrophones(permission: Outcome, enumeration: Result<seq<MediaDeviceInfo>>)
      modifies this
      ensures Snapshot() == LoadSpec(old(Snapshot()), permission, enumeration)
    {
      if permission.Rejected? || enumeration.Failure? {
        toasts := toasts + [AccessErrorToast];
        return;
      }
      var mics := AudioInputs(enumeration.value);
      availableMicrophones := mics;
      if selectedMicrophone.None? && |mics| > 0 {
        selectedMicrophone := Some(mics[0]);
      }
    }

    method HandleMicrophoneChange(value: string)
      modifies this
      ensures Snapshot() == ChangeSpec(old(Snapshot()), value)
    {
      var device := FindDevice(availableMicrophones, value);
      if device.Some? {
        selectedMicrophone := device;
      }
    }
  }
}
