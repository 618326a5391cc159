/** src/components/voice-channel-users.tsx: the participants listed under a voice
    channel, each with a volume indicator, an avatar ring and a microphone icon
    derived from the volume the audio provider stores for them. */
module VoiceChannelUsers {
  import opened Wrappers
  import opened Text
  import opened ParticipantVolumeModal

  datatype VolumeIcon = VolumeX | Volume2

  /** `{ icon, color, tooltip, volume }`. */
  datatype Indicator = Indicator(icon: VolumeIcon, color: string, tooltip: string, volume: int)

  /** `getVolumeIndicator` for a stored volume: muted, quiet, loud, any other
      non-default level, and the default 100, checked in that order. */
  function VolumeIndicator(volume: int): (r: Indicator)
    ensures r.volume == volume
    ensures r.icon == VolumeX <==> volume == 0
    ensures r.color == "text-red-500" <==> volume == 0
    ensures r.color == "text-yellow-500" <==> volume != 0 && volume < 50
    ensures r.color == "text-orange-500" <==> volume > 150
    ensures r.color == "text-blue-500" <==> 50 <= volume <= 150 && volume != 100
    ensures r.color == "text-green-500" <==> volume == 100
    ensures volume == 0 ==> r.tooltip == "Muted"
    ensures volume != 0 && volume < 50 ==> r.tooltip == IntToString(volume) + "% (Quiet)"
    ensures volume > 150 ==> r.tooltip == IntToString(volume) + "% (Loud)"
    ensures 50 <= volume <= 150 && volume != 100 ==> r.tooltip == IntToString(volume) + "%"
    ensures volume == 100 ==> r.tooltip == "100% (Normal)"
  {
    if volume == 0 then Indicator(VolumeX, "text-red-500", "Muted", volume)
    else if volume < 50 then Indicator(Volume2, "text-yellow-500", IntToString(volume) + "% (Quiet)", volume)
    else if volume > 150 then Indicator(Volume2, "text-orange-500", IntToString(volume) + "% (Loud)", volume)
    else if volume != 100 then Indicator(Volume2, "text-blue-500", IntToString(volume) + "%", volume)
    else Indicator(Volume2, "text-green-500", "100% (Normal)", volume)
  }

  /** The avatar ring: red when muted, the accent colour above 120, else the border. */
  function RingClass(volume: int): (r: string)
    ensures r == "ring-2 ring-red-500/60" <==> volume == 0
    ensures r == "ring-2 ring-accent/60" <==> volume > 120
    ensures r == "ring-1 ring-border/70" <==> volume != 0 && volume <= 120
  {
    if volume == 0 then "ring-2 ring-red-500/60"
    else if volume > 120 then "ring-2 ring-accent/60"
    else "ring-1 ring-border/70"
  }

  /** The crossed-out microphone is shown exactly at volume 0. */
  predicate ShowsMutedMic(volume: int) {
    VolumeIndicator(volume).volume == 0
  }

  /** The list and the volume dialog agree on the bands: muted, quiet and loud
      mean the same volumes in both, and the indicator's blue and green levels are
      the dialog's "Normal". */
  lemma BandsAgree(volume: int)
    ensures VolumeIndicator(volume).tooltip == "Muted" <==> Description(volume == 0, volume) == "Muted"
    ensures VolumeIndicator(volume).color == "text-yellow-500" <==> Description(volume == 0, volume) == "Quiet"
    ensures VolumeIndicator(volume).color == "text-orange-500" <==> Description(volume == 0, volume) == "Loud"
    ensures VolumeIndicator(volume).color in {"text-blue-500", "text-green-500"} <==> Description(volume == 0, volume) == "Normal"
    ensures ShowsMutedMic(volume) <==> volume == 0
  {
    if volume != 0 {
      assert VolumeIndicator(volume).tooltip[0] == IntToString(volume)[0];
    }
  }

  /** The component's state: the listed participants and the loading flag. */
  class UserList<T> {
    var participants: seq<T>
    var loading: bool

    constructor ()
      ensures participants == [] && loading
    {
      participants := [];
      loading := true;
    }

    /** `fetchParticipants`: `result` carries the body's `participants` (`None`
        when absent); anything but an OK response with participants leaves the
        list empty, and loading ends either way. */
    method FetchParticipants(result: Fetch<Option<seq<T>>>)
      modifies this
      ensures !loading
      ensures result.Ok? && result.value.Some? ==> participants == result.value.value
      ensures !(result.Ok? && result.value.Some?) ==> participants == []
    {
      if result.Ok? {
        participants := result.value.GetOr([]);
      } else {
        participants := [];
      }
      loading := false;
    }

    /** Nothing is rendered while loading or with nobody in the channel. */
    predicate RendersNothing()
      reads this
    {
      loading || |participants| == 0
    }
  }
}
