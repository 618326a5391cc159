/** src/components/modals/participant-volume-modal.tsx: the dialog that sets how
    loud one participant sounds.  Its `volume` and `isMuted` state and the
    participant it was opened for are the fields of `VolumeModal`; the volumes
    themselves live in the audio provider. */
module ParticipantVolumeModal {
  import opened Wrappers
  import opened AudioProvider

  /** `getVolumeDescription`. */
  function Description(isMuted: bool, volume: int): (r: string)
    ensures r == "Muted" <==> isMuted || volume == 0
    ensures r == "Quiet" <==> !isMuted && volume != 0 && volume < 50
    ensures r == "Loud" <==> !isMuted && volume > 150
    ensures r == "Normal" <==> !isMuted && 50 <= volume <= 150
  {
    if isMuted || volume == 0 then "Muted"
    else if volume < 50 then "Quiet"
    else if volume == 100 then "Normal"
    else if volume > 150 then "Loud"
    else "Normal"
  }

  /** The badge classes all follow one pattern with the band's colour:
      `bg-<colour>-500/15 text-<colour>-500 border border-<colour>-500/30`. */
  function BadgeOf(colour: string): string {
    "bg-" + colour + "-500/15 text-" + colour + "-500 border border-" + colour + "-500/30"
  }

  /** `getVolumeBadgeClass`: the same bands as the description, in colour. */
  function BadgeClass(isMuted: bool, volume: int): (r: string)
    ensures Description(isMuted, volume) == "Muted" <==> r == BadgeOf("red")
    ensures Description(isMuted, volume) == "Quiet" <==> r == BadgeOf("yellow")
    ensures Description(isMuted, volume) == "Loud" <==> r == BadgeOf("orange")
    ensures Description(isMuted, volume) == "Normal" <==> r == BadgeOf("green")
  {
    // The four classes already differ in their fourth character.
    assert BadgeOf("red")[3] == 'r' && BadgeOf("yellow")[3] == 'y' && BadgeOf("orange")[3] == 'o' && BadgeOf("green")[3] == 'g';
    if isMuted || volume == 0 then BadgeOf("red")
    else if volume < 50 then BadgeOf("yellow")
    else if volume > 150 then BadgeOf("orange")
    else BadgeOf("green")
  }

  /** The volume the mute button moves to: 0 when unmuted; from muted, the volume
      itself unless it is 0, which becomes 100. */
  function MuteToggleVolume(isMuted: bool, volume: int): (r: int)
    ensures !isMuted ==> r == 0
    ensures isMuted && volume == 0 ==> r == 100
    ensures isMuted && volume != 0 ==> r == volume
  {
    if isMuted then (if volume == 0 then 100 else volume) else 0
  }

  class VolumeModal {
    const audio: Provider
    /** `participant.sid`, or `None` when the dialog has no participant. */
    var participant: Option<string>
    var volume: int
    var isMuted: bool

    /** `isMuted` says exactly whether the volume is 0. */
    predicate Consistent()
      reads this
    {
      isMuted <==> volume == 0
    }

    constructor (audio: Provider, participant: Option<string>)
      ensures this.audio == audio && this.participant == participant
      ensures volume == 100 && !isMuted && Consistent()
    {
      this.audio := audio;
      this.participant := participant;
      volume := 100;
      isMuted := false;
    }

    /** The effect run on opening: the stored volume, muted exactly at 0. */
    method Open()
      modifies this
      ensures participant == old(participant)
      ensures participant.Some? ==> volume == GetParticipantVolume(audio.settings, participant.value) && Consistent()
      ensures old(Consistent()) ==> Consistent()
      ensures participant.None? ==> volume == old(volume) && isMuted == old(isMuted)
    {
      if participant.Some? {
        var current := audio.ParticipantVolume(participant.value);
        volume := current;
        isMuted := current == 0;
      }
    }

    /** `handleVolumeChange`: shows the new volume and stores it (clamped into
        [0, 200] by the provider); nothing at all without a participant. */
    method HandleVolumeChange(newVolume: int)
      modifies this, audio
      ensures participant == old(participant)
      ensures participant.None? ==> volume == old(volume) && isMuted == old(isMuted) && audio.settings == old(audio.settings)
      ensures participant.Some? ==>
        && volume == newVolume && Consistent()
        && audio.settings == WithParticipantVolume(old(audio.settings), participant.value, newVolume)
      ensures old(Consistent()) ==> Consistent()
    {
      if participant.None? {
        return;
      }
      volume := newVolume;
      isMuted := newVolume == 0;
      audio.SetParticipantVolume(participant.value, newVolume);
    }

    /** `handleToggleMute`. */
    method HandleToggleMute()
      modifies this, audio
      ensures participant == old(participant)
      ensures participant.None? ==> volume == old(volume) && isMuted == old(isMuted) && audio.settings == old(audio.settings)
      ensures participant.Some? ==> var v := MuteToggleVolume(old(isMuted), old(volume));
        volume == v && Consistent() && audio.settings == WithParticipantVolume(old(audio.settings), participant.value, v)
      ensures old(Consistent()) ==> Consistent()
    {
      if participant.None? {
        return;
      }
      if isMuted {
        var newVolume := if volume == 0 then 100 else volume;
        HandleVolumeChange(newVolume);
      } else {
        HandleVolumeChange(0);
      }
    }

    /** `handleReset`: the stored entry goes, and the dialog shows 100, unmuted. */
    method HandleReset()
      modifies this, audio
      ensures participant == old(participant)
      ensures participant.None? ==> volume == old(volume) && isMuted == old(isMuted) && audio.settings == old(audio.settings)
      ensures participant.Some? ==>
        && volume == 100 && !isMuted
        && audio.settings == WithoutParticipantVolume(old(audio.settings), participant.value)
        && GetParticipantVolume(audio.settings, participant.value) == 100
      ensures old(Consistent()) ==> Consistent()
    {
      if participant.None? {
        return;
      }
      audio.ResetParticipantVolume(participant.value);
      volume := 100;
      isMuted := false;
    }
  }

  /** Muting and then unmuting ends at 100, not at the volume before muting, and
      the provider then stores 100 as well. */
  lemma MuteThenUnmute(s: AudioSettings, sid: string, volume: int)
    requires volume != 0
    ensures var muted := MuteToggleVolume(false, volume);
      var unmuted := MuteToggleVolume(muted == 0, muted);
      muted == 0 && unmuted == 100
      && GetParticipantVolume(WithParticipantVolume(WithParticipantVolume(s, sid, muted), sid, unmuted), sid) == 100
  {
  }
}
