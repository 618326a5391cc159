/** src/components/providers/audio-provider.tsx: the client's audio settings.  The
    setters are record updaters (`prev => ({ ...prev, field })`), written here as
    functions on `AudioSettings`; the provider's `useState` slot is the class
    `Provider`, whose methods apply them.  Media streams, device enumeration and
    `localStorage` belong to the browser: the device list `refreshDevices` reads is
    a parameter, and persistence is the pair `Save` / `Load`. */
module AudioProvider {
  import opened Wrappers
  import opened Seqs
  import opened Text

  /** A `MediaDeviceInfo`: its id and its kind ("audioinput", "audiooutput", ...). */
  datatype Device = Device(deviceId: string, kind: string)

  datatype AudioSettings = AudioSettings(
    microphoneMuted: bool,
    headphonesMuted: bool,
    inputVolume: int,
    outputVolume: int,
    inputDevice: Option<string>,
    outputDevice: Option<string>,
    availableInputDevices: seq<Device>,
    availableOutputDevices: seq<Device>,
    participantVolumes: map<string, int>)

  /** The state the provider starts in (lines 39-49). */
  const Initial := AudioSettings(false, false, 100, 100, None, None, [], [], map[])

  /** `Math.max(lo, Math.min(hi, v))`. */
  function Clamp(lo: int, hi: int, v: int): (r: int)
    requires lo <= hi
    ensures lo <= r <= hi
    ensures lo <= v <= hi ==> r == v
    ensures v < lo ==> r == lo
    ensures v > hi ==> r == hi
  {
    if v < lo then lo else if v > hi then hi else v
  }

  /** Flips the microphone flag and nothing else. */
  function MicrophoneToggled(s: AudioSettings): (r: AudioSettings)
    ensures r.microphoneMuted != s.microphoneMuted
    ensures r.(microphoneMuted := s.microphoneMuted) == s
  {
    s.(microphoneMuted := !s.microphoneMuted)
  }

  /** Flips the headphones flag and nothing else. */
  function HeadphonesToggled(s: AudioSettings): (r: AudioSettings)
    ensures r.headphonesMuted != s.headphonesMuted
    ensures r.(headphonesMuted := s.headphonesMuted) == s
  {
    s.(headphonesMuted := !s.headphonesMuted)
  }

  /** Toggling either flag twice gives back the settings. */
  lemma ToggleTwice(s: AudioSettings)
    ensures MicrophoneToggled(MicrophoneToggled(s)) == s
    ensures HeadphonesToggled(HeadphonesToggled(s)) == s
    ensures MicrophoneToggled(HeadphonesToggled(s)) == HeadphonesToggled(MicrophoneToggled(s))
  {
  }

  /** The input volume, clamped into [0, 100]; nothing else changes. */
  function WithInputVolume(s: AudioSettings, volume: int): (r: AudioSettings)
    ensures 0 <= r.inputVolume <= 100
    ensures 0 <= volume <= 100 ==> r.inputVolume == volume
    ensures r.(inputVolume := s.inputVolume) == s
  {
    s.(inputVolume := Clamp(0, 100, volume))
  }

  /** The output volume, clamped into [0, 100]; nothing else changes. */
  function WithOutputVolume(s: AudioSettings, volume: int): (r: AudioSettings)
    ensures 0 <= r.outputVolume <= 100
    ensures 0 <= volume <= 100 ==> r.outputVolume == volume
    ensures r.(outputVolume := s.outputVolume) == s
  {
    s.(outputVolume := Clamp(0, 100, volume))
  }

  function WithInputDevice(s: AudioSettings, deviceId: string): (r: AudioSettings)
    ensures r.inputDevice == Some(deviceId)
    ensures r.(inputDevice := s.inputDevice) == s
  {
    s.(inputDevice := Some(deviceId))
  }

  function WithOutputDevice(s: AudioSettings, deviceId: string): (r: AudioSettings)
    ensures r.outputDevice == Some(deviceId)
    ensures r.(outputDevice := s.outputDevice) == s
  {
    s.(outputDevice := Some(deviceId))
  }

  /** The participant's volume, clamped into [0, 200]; the other participants'
      entries and every other field are untouched. */
  function WithParticipantVolume(s: AudioSettings, participantId: string, volume: int): (r: AudioSettings)
    ensures participantId in r.participantVolumes && 0 <= r.participantVolumes[participantId] <= 200
    ensures 0 <= volume <= 200 ==> r.participantVolumes[participantId] == volume
    ensures r.participantVolumes.Keys == s.participantVolumes.Keys + {participantId}
    ensures forall p | p in s.participantVolumes && p != participantId :: r.participantVolumes[p] == s.participantVolumes[p]
    ensures r.(participantVolumes := s.participantVolumes) == s
  {
    s.(participantVolumes := s.participantVolumes[participantId := Clamp(0, 200, volume)])
  }

  /** `participantVolumes[id] ?? 100`: a stored 0 stays 0. */
  function GetParticipantVolume(s: AudioSettings, participantId: string): (r: int)
    ensures participantId in s.participantVolumes ==> r == s.participantVolumes[participantId]
    ensures participantId !in s.participantVolumes ==> r == 100
  {
    if participantId in s.participantVolumes then s.participantVolumes[participantId] else 100
  }

  /** Drops the participant's entry; the others and every other field are untouched. */
  function WithoutParticipantVolume(s: AudioSettings, participantId: string): (r: AudioSettings)
    ensures r.participantVolumes.Keys == s.participantVolumes.Keys - {participantId}
    ensures forall p | p in r.participantVolumes :: r.participantVolumes[p] == s.participantVolumes[p]
    ensures r.(participantVolumes := s.participantVolumes) == s
  {
    s.(participantVolumes := s.participantVolumes - {participantId})
  }

  /** Setting then reading gives the clamped value; resetting then reading gives
      the default 100; neither disturbs another participant's reading. */
  lemma ParticipantVolumeRoundTrip(s: AudioSettings, participantId: string, other: string, volume: int)
    requires other != participantId
    ensures GetParticipantVolume(WithParticipantVolume(s, participantId, volume), participantId) == Clamp(0, 200, volume)
    ensures GetParticipantVolume(WithoutParticipantVolume(s, participantId), participantId) == 100
    ensures GetParticipantVolume(WithParticipantVolume(s, participantId, volume), other) == GetParticipantVolume(s, other)
    ensures GetParticipantVolume(WithoutParticipantVolume(s, participantId), other) == GetParticipantVolume(s, other)
  {
  }

  function IsKind(kind: string): Device -> bool {
    (d: Device) => d.kind == kind
  }

  /** `devices[0]?.deviceId || null`. */
  function FirstId(devices: seq<Device>): (r: Option<string>)
    ensures r.Some? <==> |devices| > 0 && devices[0].deviceId != ""
    ensures r.Some? ==> r.value == devices[0].deviceId
  {
    if |devices| > 0 && devices[0].deviceId != "" then Some(devices[0].deviceId) else None
  }

  /** `refreshDevices` with the enumerated `devices`: the two lists are the inputs
      and the outputs in enumeration order; a selected device stays selected, and
      with none selected the first device of the list is taken, or none. */
  function Refreshed(s: AudioSettings, devices: seq<Device>): (r: AudioSettings)
    ensures forall d :: d in r.availableInputDevices <==> d in devices && d.kind == "audioinput"
    ensures forall d :: d in r.availableOutputDevices <==> d in devices && d.kind == "audiooutput"
    ensures IsSubseq(r.availableInputDevices, devices) && IsSubseq(r.availableOutputDevices, devices)
    ensures Truthy(s.inputDevice) ==> r.inputDevice == s.inputDevice
    ensures Truthy(s.outputDevice) ==> r.outputDevice == s.outputDevice
    ensures !Truthy(s.inputDevice) ==> r.inputDevice == FirstId(r.availableInputDevices)
    ensures !Truthy(s.outputDevice) ==> r.outputDevice == FirstId(r.availableOutputDevices)
    ensures r.(inputDevice := s.inputDevice, outputDevice := s.outputDevice,
               availableInputDevices := s.availableInputDevices, availableOutputDevices := s.availableOutputDevices) == s
  {
    var inputs := Filter(devices, IsKind("audioinput"));
    var outputs := Filter(devices, IsKind("audiooutput"));
    s.(availableInputDevices := inputs,
       availableOutputDevices := outputs,
       inputDevice := if Truthy(s.inputDevice) then s.inputDevice else FirstId(inputs),
       outputDevice := if Truthy(s.outputDevice) then s.outputDevice else FirstId(outputs))
  }

  /** Once a device is selected, refreshing again keeps it, whatever is enumerated. */
  lemma RefreshKeepsSelection(s: AudioSettings, first: seq<Device>, second: seq<Device>)
    requires FirstId(Filter(first, IsKind("audioinput"))).Some?
    ensures Refreshed(Refreshed(s, first), second).inputDevice == Refreshed(s, first).inputDevice
  {
  }

  /** The settings after `requestMicrophonePermission`: `granted` is whether
      `getUserMedia` gave a stream, and `devices` what the refresh then
      enumerates (`None` when enumeration throws, which the refresh swallows).
      A refused request changes no setting; a granted one refreshes the devices. */
  function AfterPermissionRequest(s: AudioSettings, granted: bool, devices: Option<seq<Device>>): (r: AudioSettings)
    ensures !granted || devices.None? ==> r == s
    ensures granted && devices.Some? ==> r == Refreshed(s, devices.value)
    ensures r.(availableInputDevices := s.availableInputDevices, availableOutputDevices := s.availableOutputDevices,
               inputDevice := s.inputDevice, outputDevice := s.outputDevice) == s
    ensures Truthy(s.inputDevice) ==> r.inputDevice == s.inputDevice
    ensures Truthy(s.outputDevice) ==> r.outputDevice == s.outputDevice
  {
    if granted && devices.Some? then Refreshed(s, devices.value) else s
  }

  /** The record read back from `localStorage`: `JSON.parse` gives whatever fields
      the stored text holds, so each saved field may be absent. */
  datatype SavedSettings = SavedSettings(
    microphoneMuted: Option<bool>,
    headphonesMuted: Option<bool>,
    inputVolume: Option<int>,
    outputVolume: Option<int>,
    inputDevice: Option<Option<string>>,
    outputDevice: Option<Option<string>>,
    participantVolumes: Option<map<string, int>>)

  /** The record the save effect writes: every field but the two device lists. */
  function Save(s: AudioSettings): SavedSettings {
    SavedSettings(Some(s.microphoneMuted), Some(s.headphonesMuted), Some(s.inputVolume), Some(s.outputVolume),
                  Some(s.inputDevice), Some(s.outputDevice), Some(s.participantVolumes))
  }

  function Or<T>(o: Option<T>, otherwise: T): T {
    if o.Some? then o.value else otherwise
  }

  /** `{ ...prev, ...parsed, availableInputDevices: [], availableOutputDevices: [] }`:
      a field the record holds wins, an absent one keeps `prev`'s value, and the
      device lists are emptied. */
  function Load(prev: AudioSettings, saved: SavedSettings): (r: AudioSettings)
    ensures r.availableInputDevices == [] && r.availableOutputDevices == []
    ensures r.microphoneMuted == Or(saved.microphoneMuted, prev.microphoneMuted)
    ensures r.headphonesMuted == Or(saved.headphonesMuted, prev.headphonesMuted)
    ensures r.inputVolume == Or(saved.inputVolume, prev.inputVolume)
    ensures r.outputVolume == Or(saved.outputVolume, prev.outputVolume)
    ensures r.inputDevice == Or(saved.inputDevice, prev.inputDevice)
    ensures r.outputDevice == Or(saved.outputDevice, prev.outputDevice)
    ensures r.participantVolumes == Or(saved.participantVolumes, prev.participantVolumes)
  {
    AudioSettings(Or(saved.microphoneMuted, prev.microphoneMuted), Or(saved.headphonesMuted, prev.headphonesMuted),
                  Or(saved.inputVolume, prev.inputVolume), Or(saved.outputVolume, prev.outputVolume),
                  Or(saved.inputDevice, prev.inputDevice), Or(saved.outputDevice, prev.outputDevice),
                  [], [], Or(saved.participantVolumes, prev.participantVolumes))
  }

  /** Loading what was saved restores every saved field, whatever the state before,
      and leaves the device lists empty until the next refresh; loading an empty
      record keeps the state before apart from the lists. */
  lemma LoadSave(prev: AudioSettings, s: AudioSettings)
    ensures Load(prev, Save(s)) == s.(availableInputDevices := [], availableOutputDevices := [])
    ensures Save(Load(prev, Save(s))) == Save(s)
    ensures Load(prev, SavedSettings(None, None, None, None, None, None, None))
         == prev.(availableInputDevices := [], availableOutputDevices := [])
  {
  }

  /** The provider's state. */
  class Provider {
    var settings: AudioSettings

    constructor ()
      ensures settings == Initial
    {
      settings := Initial;
    }

    method ToggleMicrophone()
      modifies this
      ensures settings == MicrophoneToggled(old(settings))
    {
      settings := MicrophoneToggled(settings);
    }

    method ToggleHeadphones()
      modifies this
      ensures settings == HeadphonesToggled(old(settings))
    {
      settings := HeadphonesToggled(settings);
    }

    method SetInputVolume(volume: int)
      modifies this
      ensures settings == WithInputVolume(old(settings), volume)
    {
      settings := WithInputVolume(settings, volume);
    }

    method SetOutputVolume(volume: int)
      modifies this
      ensures settings == WithOutputVolume(old(settings), volume)
    {
      settings := WithOutputVolume(settings, volume);
    }

    method SetInputDevice(deviceId: string)
      modifies this
      ensures settings == WithInputDevice(old(settings), deviceId)
    {
      settings := WithInputDevice(settings, deviceId);
    }

    method SetOutputDevice(deviceId: string)
      modifies this
      ensures settings == WithOutputDevice(old(settings), deviceId)
    {
      settings := WithOutputDevice(settings, deviceId);
    }

    function ParticipantVolume(participantId: string): int
      reads this
    {
      GetParticipantVolume(settings, participantId)
    }

    method SetParticipantVolume(participantId: string, volume: int)
      modifies this
      ensures settings == WithParticipantVolume(old(settings), participantId, volume)
    {
      settings := WithParticipantVolume(settings, participantId, volume);
    }

    method ResetParticipantVolume(participantId: string)
      modifies this
      ensures settings == WithoutParticipantVolume(old(settings), participantId)
    {
      settings := WithoutParticipantVolume(settings, participantId);
    }

    method RefreshDevices(devices: seq<Device>)
      modifies this
      ensures settings == Refreshed(old(settings), devices)
    {
      settings := Refreshed(settings, devices);
    }

    /** `requestMicrophonePermission`: answers whether the stream was granted, and on
        a grant awaits the device refresh before answering. */
    method RequestMicrophonePermission(granted: bool, devices: Option<seq<Device>>) returns (ok: bool)
      modifies this
      ensures ok == granted
      ensures settings == AfterPermissionRequest(old(settings), granted, devices)
    {
      if !granted {
        return false;
      }
      if devices.Some? {
        RefreshDevices(devices.value);
      }
      ok := true;
    }
  }
}
