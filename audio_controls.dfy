/** src/hooks/use-audio-controls.ts: the microphone and headphones buttons on top
    of the audio provider.  The hook's `hasPermission` and `isRequesting` state is
    the class `Controls`; the answer of the browser's permission prompt is the
    parameter `granted`. */
module AudioControls {
  import opened Wrappers
  import opened AudioProvider

  class Controls {
    const audio: Provider
    var hasPermission: bool
    var isRequesting: bool

    /** Before the permissions API answers: no permission, no request running. */
    constructor (audio: Provider)
      ensures this.audio == audio && !hasPermission && !isRequesting
    {
      this.audio := audio;
      hasPermission := false;
      isRequesting := false;
    }

    /** A click on the microphone button, up to the `await` of line 44.  Without
        permission and with no request running, it starts a request and returns
        `true`; the rest of the handler runs later, as `FinishMicrophoneRequest`.
        Otherwise -- permission held, or a request still pending -- it toggles at
        once (line 53) and returns `false`. */
    method HandleMicrophoneToggle() returns (started: bool)
      modifies this, audio
      ensures started <==> old(!hasPermission && !isRequesting)
      ensures hasPermission == old(hasPermission)
      ensures started ==> isRequesting && audio.settings == old(audio.settings)
      ensures !started ==> isRequesting == old(isRequesting) && audio.settings == MicrophoneToggled(old(audio.settings))
    {
      if !hasPermission && !isRequesting {
        isRequesting := true;
        return true;
      }
      audio.ToggleMicrophone();
      started := false;
    }

    /** The rest of a started click, once `requestMicrophonePermission` settles:
        `granted` and `devices` are what the browser answers (see
        `Provider.RequestMicrophonePermission`).  The request's own device refresh
        has run; then the permission is recorded, the request ends, and the
        microphone toggles only on a grant (lines 45-53). */
    method FinishMicrophoneRequest(granted: bool, devices: Option<seq<Device>>)
      requires isRequesting
      modifies this, audio
      ensures hasPermission == granted && !isRequesting
      ensures audio.settings == if granted then MicrophoneToggled(AfterPermissionRequest(old(audio.settings), true, devices))
                                else old(audio.settings)
    {
      var ok := audio.RequestMicrophonePermission(granted, devices);
      hasPermission := ok;
      isRequesting := false;
      if ok {
        audio.ToggleMicrophone();
      }
    }

    /** `handleHeadphonesToggle`. */
    method HandleHeadphonesToggle()
      modifies audio
      ensures audio.settings == HeadphonesToggled(old(audio.settings))
    {
      audio.ToggleHeadphones();
    }
  }

  /** `getMicrophoneIcon`: crossed out while a request runs or while muted. */
  function MicrophoneIcon(isRequesting: bool, muted: bool): (r: string)
    ensures r == "mic-off" || r == "mic"
    ensures r == "mic-off" <==> isRequesting || muted
  {
    if isRequesting then "mic-off" else if muted then "mic-off" else "mic"
  }

  /** `getMicrophoneTooltip`: a running request first, then missing permission,
      then the mute state. */
  function MicrophoneTooltip(isRequesting: bool, hasPermission: bool, muted: bool): (r: string)
    ensures isRequesting ==> r == "Requesting microphone access..."
    ensures !isRequesting && !hasPermission ==> r == "Click to enable microphone"
    ensures !isRequesting && hasPermission ==> (r == "Unmute microphone" <==> muted)
    ensures !isRequesting && hasPermission ==> (r == "Mute microphone" <==> !muted)
  {
    if isRequesting then "Requesting microphone access..."
    else if !hasPermission then "Click to enable microphone"
    else if muted then "Unmute microphone" else "Mute microphone"
  }

  /** `getHeadphonesIcon`. */
  function HeadphonesIcon(muted: bool): (r: string)
    ensures r == "volume-x" <==> muted
    ensures r == "headphones" <==> !muted
  {
    if muted then "volume-x" else "headphones"
  }

  /** `getHeadphonesTooltip`. */
  function HeadphonesTooltip(muted: bool): (r: string)
    ensures r == "Unmute headphones" <==> muted
    ensures r == "Mute headphones" <==> !muted
  {
    if muted then "Unmute headphones" else "Mute headphones"
  }

  /** Two clicks on a fresh control, the second while the first one's request is
      still pending: the second toggles at once, and the first toggles again only
      on a grant.  So the microphone ends unmuted after a grant and muted after a
      denial, and the icon reads accordingly once the request is over. */
  method ClickDuringRequest(granted: bool, devices: Option<seq<Device>>) returns (muted: bool, icon: string)
    ensures muted == !granted
    ensures icon == (if granted then "mic" else "mic-off")
  {
    var audio := new Provider();
    var controls := new Controls(audio);
    var started := controls.HandleMicrophoneToggle();
    assert started && controls.isRequesting;
    var pendingIcon := MicrophoneIcon(controls.isRequesting, audio.settings.microphoneMuted);
    assert pendingIcon == "mic-off";
    var again := controls.HandleMicrophoneToggle();
    assert !again && audio.settings.microphoneMuted;
    controls.FinishMicrophoneRequest(granted, devices);
    muted := audio.settings.microphoneMuted;
    icon := MicrophoneIcon(controls.isRequesting, muted);
  }
}
