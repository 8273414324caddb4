/** The microphone registry (src/app/hooks/useAudioDevices.ts): the audio
    inputs among the browser's media devices, each with a usable label, the
    selected input, and the target of an audio stream request. The browser's
    device list and its permission prompt are inputs to the model. */
module AudioDevices {
  import opened Wrappers

  /** A media device as the browser lists it (`labelText` is its `label`). */
  datatype MediaDeviceInfo = MediaDeviceInfo(deviceId: string, kind: string, labelText: string, groupId: string)

  /** An audio input as the registry keeps it. */
  datatype AudioDevice = AudioDevice(deviceId: string, labelText: string, groupId: string)

  const FallbackLabelPrefix: string := "Microphone "
  const FallbackLabelSuffix: string := "..."
  const EnumerationFailedMessage: string := "Failed to get audio devices"
  const NoDeviceSelectedMessage: string := "No audio device selected"

  function Min(a: nat, b: nat): nat {
    if a <= b then a else b
  }

  /** The label shown for a device: its own label when it has one, else
      "Microphone " followed by the first eight characters of its id and
      "...". */
  function DeviceLabel(d: MediaDeviceInfo): string {
    if d.labelText != "" then d.labelText
    else FallbackLabelPrefix + d.deviceId[..Min(8, |d.deviceId|)] + FallbackLabelSuffix
  }

  /** A label is never empty: a device without one is called "Microphone "
      and the first eight characters of its id (all of it when shorter),
      followed by "...". */
  lemma {:induction false} DeviceLabelShape(d: MediaDeviceInfo)
    ensures DeviceLabel(d) != []
    ensures d.labelText != "" ==> DeviceLabel(d) == d.labelText
    ensures d.labelText == "" ==>
              var l := DeviceLabel(d);
              && |l| == |FallbackLabelPrefix| + Min(8, |d.deviceId|) + |FallbackLabelSuffix|
              && l[..|FallbackLabelPrefix|] == FallbackLabelPrefix
              && l[|l| - |FallbackLabelSuffix|..] == FallbackLabelSuffix
              && l[|FallbackLabelPrefix|..|l| - |FallbackLabelSuffix|] <= d.deviceId
  {
    if d.labelText == "" {
      var id := d.deviceId[..Min(8, |d.deviceId|)];
      var l := FallbackLabelPrefix + id + FallbackLabelSuffix;
      assert l[|FallbackLabelPrefix|..|l| - |FallbackLabelSuffix|] == id;
    }
  }

  predicate IsAudioInput(d: MediaDeviceInfo) {
    d.kind == "audioinput"
  }

  function ToAudioDevice(d: MediaDeviceInfo): AudioDevice {
    AudioDevice(d.deviceId, DeviceLabel(d), d.groupId)
  }

  /** The `filter`/`map` projection: the audio inputs, in the browser's
      order, each with its label. */
  function AudioInputs(ds: seq<MediaDeviceInfo>): (r: seq<AudioDevice>)
    ensures |r| <= |ds|
  {
    if ds == [] then [] else AudioInput(ds[0]) + AudioInputs(ds[1..])
  }

  /** One device's contribution to the list: its projection when it is an
      audio input, nothing otherwise. */
  function AudioInput(d: MediaDeviceInfo): (r: seq<AudioDevice>)
    ensures |r| <= 1
  {
    if IsAudioInput(d) then [ToAudioDevice(d)] else []
  }

  /** The projection of a list is the projections of its parts, one after
      the other: the order of the browser's list is kept. */
  lemma {:induction false} AudioInputsAppend(xs: seq<MediaDeviceInfo>, ys: seq<MediaDeviceInfo>)
    ensures AudioInputs(xs + ys) == AudioInputs(xs) + AudioInputs(ys)
    decreases |xs|
  {
    if xs == [] {
      assert xs + ys == ys;
    } else {
      assert (xs + ys)[0] == xs[0] && (xs + ys)[1..] == xs[1..] + ys;
      AudioInputsAppend(xs[1..], ys);
    }
  }

  /** Exactly the audio inputs make it into the list: every audio input
      does, and every listed device comes from an audio input. */
  lemma {:induction false} AudioInputsExactly(ds: seq<MediaDeviceInfo>)
    ensures forall i :: 0 <= i < |ds| && IsAudioInput(ds[i]) ==> ToAudioDevice(ds[i]) in AudioInputs(ds)
    ensures forall a :: a in AudioInputs(ds) ==>
              exists i :: 0 <= i < |ds| && IsAudioInput(ds[i]) && a == ToAudioDevice(ds[i])
    decreases |ds|
  {
    if ds != [] {
      AudioInputsExactly(ds[1..]);
      var head := AudioInput(ds[0]);
      forall i | 0 < i < |ds| && IsAudioInput(ds[i])
        ensures ToAudioDevice(ds[i]) in AudioInputs(ds)
      {
        assert ds[i] == ds[1..][i - 1];
      }
      forall a | a in AudioInputs(ds)
        ensures exists i :: 0 <= i < |ds| && IsAudioInput(ds[i]) && a == ToAudioDevice(ds[i])
      {
        if a !in head {
          var k :| 0 <= k < |ds[1..]| && IsAudioInput(ds[1..][k]) && a == ToAudioDevice(ds[1..][k]);
          assert ds[k + 1] == ds[1..][k];
        }
      }
    }
  }

  /** What an error thrown during enumeration carries: an `Error` has a
      message, anything else does not. */
  datatype Thrown = ErrorThrown(message: string) | OtherThrown

  /** The outcome of asking for microphone permission and then for the
      device list. */
  datatype EnumerationOutcome = Listed(devices: seq<MediaDeviceInfo>) | EnumerationThrew(thrown: Thrown)

  /** The registry's state. */
  datatype RegistryState = RegistryState(devices: seq<AudioDevice>, selectedDeviceId: string,
                                         isLoading: bool, error: Option<string>)

  function ErrorMessage(t: Thrown): string {
    match t
    case ErrorThrown(msg) => msg
    case OtherThrown => EnumerationFailedMessage
  }

  /** `enumerateDevices`: on success, the audio inputs replace the list,
      the error is cleared and the first input is selected when nothing is
      selected yet; on failure, the list and the selection stay and the
      error is set. Loading is over in every outcome. */
  function Enumerate(s: RegistryState, outcome: EnumerationOutcome): (r: RegistryState)
    ensures !r.isLoading
    ensures outcome.Listed? ==> r.devices == AudioInputs(outcome.devices) && r.error.None?
    ensures outcome.Listed? && s.selectedDeviceId != "" ==> r.selectedDeviceId == s.selectedDeviceId
    ensures outcome.Listed? && s.selectedDeviceId == "" && r.devices != [] ==>
              r.selectedDeviceId == r.devices[0].deviceId
    ensures outcome.Listed? && r.devices == [] ==> r.selectedDeviceId == s.selectedDeviceId
    ensures outcome.EnumerationThrew? ==>
              && r.devices == s.devices && r.selectedDeviceId == s.selectedDeviceId
              && r.error == Some(ErrorMessage(outcome.thrown))
  {
    match outcome
    case Listed(ds) =>
      var inputs := AudioInputs(ds);
      var selected := if |inputs| > 0 && s.selectedDeviceId == "" then inputs[0].deviceId else s.selectedDeviceId;
      RegistryState(inputs, selected, false, None)
    case EnumerationThrew(t) =>
      RegistryState(s.devices, s.selectedDeviceId, false, Some(ErrorMessage(t)))
  }

  /** Enumerating again with the same outcome changes nothing more. */
  lemma {:induction false} EnumerateIdempotent(s: RegistryState, outcome: EnumerationOutcome)
    ensures Enumerate(Enumerate(s, outcome), outcome) == Enumerate(s, outcome)
  {
    var r := Enumerate(s, outcome);
    if outcome.Listed? && s.selectedDeviceId == "" && r.devices != [] {
      assert r.selectedDeviceId == r.devices[0].deviceId;
    }
  }

  /** `getAudioStream`'s target: an explicit, non-empty device id wins over
      the selected one; with neither, the request fails. */
  function StreamTarget(explicit: Option<string>, selected: string): (r: Result<string, string>)
    ensures r.Err? <==> (explicit.None? || explicit.value == "") && selected == ""
    ensures r.Err? ==> r.error == NoDeviceSelectedMessage
    ensures r.Ok? && explicit.Some? && explicit.value != "" ==> r.value == explicit.value
    ensures r.Ok? && (explicit.None? || explicit.value == "") ==> r.value == selected
  {
    var target := if explicit.Some? && explicit.value != "" then explicit.value else selected;
    if target == "" then Err(NoDeviceSelectedMessage) else Ok(target)
  }

  /** The hook's state, updated in place by its handlers. */
  class Registry {
    var devices: seq<AudioDevice>
    var selectedDeviceId: string
    var isLoading: bool
    var error: Option<string>

    function State(): RegistryState
      reads this
    {
      RegistryState(devices, selectedDeviceId, isLoading, error)
    }

    /** The hook starts with no devices, nothing selected, loading, and no
        error. */
    constructor ()
      ensures State() == RegistryState([], "", true, None)
    {
      devices := [];
      selectedDeviceId := "";
      isLoading := true;
      error := None;
    }

    /** `enumerateDevices`, step by step: loading on and the error cleared,
        then the list and possibly the default selection, or the error; and
        loading off at the end whatever happened. */
    method EnumerateDevices(outcome: EnumerationOutcome)
      modifies this
      ensures State() == Enumerate(old(State()), outcome)
    {
      isLoading := true;
      error := None;
      match outcome {
        case Listed(ds) =>
          var inputs := AudioInputs(ds);
          devices := inputs;
          if |inputs| > 0 && selectedDeviceId == "" {
            selectedDeviceId := inputs[0].deviceId;
          }
        case EnumerationThrew(t) =>
          error := Some(ErrorMessage(t));
      }
      isLoading := false;
    }

    method SetSelectedDeviceId(id: string)
      modifies this
      ensures State() == old(State()).(selectedDeviceId := id)
    {
      selectedDeviceId := id;
    }

    /** `getAudioStream`: the device id the stream is requested for, or the
        error thrown before any request. */
    method GetAudioStream(explicit: Option<string>) returns (r: Result<string, string>)
      ensures r == StreamTarget(explicit, selectedDeviceId)
    {
      var target := if explicit.Some? && explicit.value != "" then explicit.value else selectedDeviceId;
      if target == "" {
        return Err(NoDeviceSelectedMessage);
      }
      return Ok(target);
    }
  }
}
