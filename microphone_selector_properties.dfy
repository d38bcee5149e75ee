/** What the microphone selector guarantees, stated about the functions of module MicrophoneSelection. */
module MicrophoneSelectionProperties {
  import opened Js
  import opened Browser
  import opened Toasts
  import opened MicrophoneSelection

  /** Filtering distributes over concatenation: the audio inputs keep their enumeration order. */
  lemma {:induction false} AudioInputsAppend(a: seq<MediaDeviceInfo>, b: seq<MediaDeviceInfo>)
    ensures AudioInputs(a + b) == AudioInputs(a) + AudioInputs(b)
  {
    if a == [] {
      assert a + b == b;
    } else {
      assert (a + b)[0] == a[0];
      assert (a + b)[1..] == a[1..] + b;
      AudioInputsAppend(a[1..], b);
    }
  }

  /** Every device of the list is an audio input, so a second filter changes nothing. */
  lemma {:induction false} AudioInputsIdempotent(devices: seq<MediaDeviceInfo>)
    ensures AudioInputs(AudioInputs(devices)) == AudioInputs(devices)
  {
    if devices != [] {
      AudioInputsIdempotent(devices[1..]);
      var head := if devices[0].kind == AudioInputKind then [devices[0]] else [];
      AudioInputsAppend(head, AudioInputs(devices[1..]));
      if head != [] {
        assert head[1..] == [];
      }
    }
  }

  /** A list of audio inputs only is kept whole. */
  lemma {:induction false} AudioInputsKeepsAudioOnly(devices: seq<MediaDeviceInfo>)
    requires forall i :: 0 <= i < |devices| ==> devices[i].kind == AudioInputKind
    ensures AudioInputs(devices) == devices
  {
    if devices != [] {
      AudioInputsKeepsAudioOnly(devices[1..]);
    }
  }

  /** The first audio input of a list is the first element of the filtered list. */
  lemma {:induction false} FirstAudioInput(devices: seq<MediaDeviceInfo>, k: nat)
    requires k < |devices| && devices[k].kind == AudioInputKind
    requires forall j :: 0 <= j < k ==> devices[j].kind != AudioInputKind
    ensures |AudioInputs(devices)| > 0 && AudioInputs(devices)[0] == devices[k]
  {
    if k > 0 {
      FirstAudioInput(devices[1..], k - 1);
    }
  }

  /** A failed permission request or enumeration raises the error toast and changes nothing else. */
  lemma LoadFailureKeepsSelection(p: Picker, permission: Outcome, enumeration: Result<seq<MediaDeviceInfo>>)
    requires permission.Rejected? || enumeration.Failure?
    ensures var r := LoadSpec(p, permission, enumeration);
            && r.available == p.available && r.selected == p.selected
            && r.toasts == p.toasts + [AccessErrorToast]
  {
  }

  /**
   * A successful load lists exactly the audio inputs, and selects the first of them only
   * when nothing was selected; an existing selection is kept.
   */
  lemma LoadSelectsDefault(p: Picker, devices: seq<MediaDeviceInfo>)
    ensures var r := LoadSpec(p, Resolved, Success(devices));
            && r.available == AudioInputs(devices) && r.toasts == p.toasts
            && (forall d :: d in r.available <==> d in devices && d.kind == AudioInputKind)
            && (p.selected.Some? ==> r.selected == p.selected)
            && (p.selected.None? ==> (r.selected.Some? <==> exists d :: d in devices && d.kind == AudioInputKind))
  {
    var r := LoadSpec(p, Resolved, Success(devices));
    if p.selected.None? && r.available != [] {
      assert r.available[0] in r.available;
    }
  }

  /** With nothing selected, the default is the first audio input in enumeration order. */
  lemma DefaultIsFirstAudioInput(p: Picker, devices: seq<MediaDeviceInfo>, k: nat)
    requires p.selected.None?
    requires k < |devices| && devices[k].kind == AudioInputKind
    requires forall j :: 0 <= j < k ==> devices[j].kind != AudioInputKind
    ensures LoadSpec(p, Resolved, Success(devices)).selected == Some(devices[k])
  {
    FirstAudioInput(devices, k);
  }

  /** Refreshing twice with the same devices lists and selects what refreshing once does. */
  lemma ReloadIsStable(p: Picker, devices: seq<MediaDeviceInfo>)
    ensures var once := LoadSpec(p, Resolved, Success(devices));
            LoadSpec(once, Resolved, Success(devices)) == once
  {
  }

  /**
   * A change selects a listed device with the chosen id, the first such one; when no listed
   * device has that id, the selection is unchanged.
   */
  lemma ChangeSelectsMatch(p: Picker, value: string)
    ensures var r := ChangeSpec(p, value);
            && r.available == p.available && r.toasts == p.toasts
            && ((forall i :: 0 <= i < |p.available| ==> p.available[i].deviceId != value) ==> r.selected == p.selected)
            && ((exists i :: 0 <= i < |p.available| && p.available[i].deviceId == value) ==>
                 r.selected.Some? && r.selected.value in p.available && r.selected.value.deviceId == value)
  {
  }

  predicate DistinctIds(mics: seq<MediaDeviceInfo>) {
    forall i, j :: 0 <= i < j < |mics| ==> mics[i].deviceId != mics[j].deviceId
  }

  /** Choosing the option shown for a listed device selects that device, when ids are distinct. */
  lemma ChoosingShownValueSelectsIt(p: Picker, mic: MediaDeviceInfo)
    requires mic in p.available && DistinctIds(p.available)
    ensures ChangeSpec(p, SelectValue(Some(mic))).selected == Some(mic)
  {
    var k :| 0 <= k < |p.available| && p.available[k] == mic;
    var r := FindDevice(p.available, mic.deviceId);
    assert p.available[k].deviceId == mic.deviceId;
    var i :| 0 <= i < |p.available| && p.available[i] == r.value && r.value.deviceId == mic.deviceId
             && forall j :: 0 <= j < i ==> p.available[j].deviceId != mic.deviceId;
    assert !(i < k) && !(k < i);
  }

  /** Every option has a non-empty label. */
  lemma OptionLabelsNonEmpty(mic: MediaDeviceInfo)
    ensures OptionLabel(mic) != ""
  {
  }

  /** The fallback label shows at most five characters of the id. */
  lemma FallbackLabelExample()
    ensures OptionLabel(MediaDeviceInfo("abcdef123", AudioInputKind, "")) == "Microphone abcde..."
    ensures OptionLabel(MediaDeviceInfo("ab", AudioInputKind, "")) == "Microphone ab..."
  {
  }
}
