/** src/components/modals/create-channel-modal.tsx: the dialog that creates a
    channel.  Its form schema, its defaults, the type it opens with, and where a
    created channel takes the browser. */
module CreateChannelModal {
  import opened Wrappers
  import opened Text
  import opened Store
  import opened ModalStore

  /** The message of the name rule that fails, if any: `min(1)` first, then the
      refinement against "general" (lines 38-45). */
  function NameError(name: string): (r: Option<string>)
    ensures r.None? <==> name != "" && name != "general"
    ensures name == "" ==> r == Some("Channel name is required.")
    ensures name == "general" ==> r == Some("Channel name cannot be 'general'")
  {
    if name == "" then Some("Channel name is required.")
    else if name == "general" then Some("Channel name cannot be 'general'")
    else None
  }

  /** The enum's string value. */
  function TypeName(t: ChannelType): string {
    match t
    case TEXT => "TEXT"
    case VOICE => "VOICE"
    case VIDEO => "VIDEO"
  }

  /** `z.nativeEnum(ChannelType)`: the enum member a form value names, if any. */
  function ParseType(s: string): (r: Option<ChannelType>)
    ensures r.Some? <==> s in {"TEXT", "VOICE", "VIDEO"}
    ensures r.Some? ==> TypeName(r.value) == s
  {
    if s == "TEXT" then Some(TEXT)
    else if s == "VOICE" then Some(VOICE)
    else if s == "VIDEO" then Some(VIDEO)
    else None
  }

  /** Every enum member's name parses back to the member. */
  lemma TypeNameParses(t: ChannelType)
    ensures ParseType(TypeName(t)) == Some(t)
  {
  }

  /** The schema accepts the form's values. */
  predicate Accepts(name: string, typeValue: string) {
    NameError(name).None? && ParseType(typeValue).Some?
  }

  /** ``/servers/${data?.server?.id}/channels/${newChannel.id}``; a missing
      server id prints as "undefined". */
  function ChannelPath(serverId: Option<string>, channelId: string): (r: string)
    ensures serverId.Some? ==> r == "/servers/" + serverId.value + "/channels/" + channelId
  {
    "/servers/" + (if serverId.Some? then serverId.value else "undefined") + "/channels/" + channelId
  }

  /** The dialog's form. */
  class CreateChannelForm {
    var name: string
    var typeValue: string

    /** The default values of lines 59-61. */
    constructor ()
      ensures name == "" && typeValue == "TEXT"
    {
      name := "";
      typeValue := "TEXT";
    }

    /** The effect of lines 64-68: on open, the type is the one the opener
        passed, or TEXT. */
    method OnOpen(isModalOpen: bool, data: ModalData)
      modifies this
      ensures isModalOpen ==> typeValue == TypeName(data.channelType.GetOr(TEXT))
      ensures !isModalOpen ==> typeValue == old(typeValue)
      ensures name == old(name)
    {
      if isModalOpen {
        typeValue := TypeName(data.channelType.GetOr(TEXT));
      }
    }

    /** `form.handleSubmit(onSubmit)`: only values the schema accepts are sent.
        An OK response resets the form, closes the dialog and navigates to the
        new channel; otherwise nothing changes. */
    method Submit(store: Modal, serverId: Option<string>, response: Fetch<string>)
      returns (sent: bool, navigate: Option<string>)
      modifies this, store
      ensures sent <==> old(Accepts(name, typeValue))
      ensures sent && response.Ok? ==>
        && navigate == Some(ChannelPath(serverId, response.value))
        && name == "" && typeValue == "TEXT"
        && store.State() == Closed(old(store.State()))
      ensures !(sent && response.Ok?) ==>
        navigate.None? && name == old(name) && typeValue == old(typeValue) && store.State() == old(store.State())
    {
      if !Accepts(name, typeValue) {
        return false, None;
      }
      sent := true;
      if response.Ok? {
        name := "";
        typeValue := "TEXT";
        store.OnClose();
        navigate := Some(ChannelPath(serverId, response.value));
      } else {
        navigate := None;
      }
    }

    /** `handleClose`: reset and close. */
    method HandleClose(store: Modal)
      modifies this, store
      ensures name == "" && typeValue == "TEXT"
      ensures store.State() == Closed(old(store.State()))
    {
      name := "";
      typeValue := "TEXT";
      store.OnClose();
    }
  }

  /** Opening the dialog from a voice category and naming the channel lets it be sent. */
  method VoiceChannelAccepted() returns (accepted: bool)
    ensures accepted
  {
    var form := new CreateChannelForm();
    form.OnOpen(true, EmptyData.(channelType := Some(VOICE)));
    form.name := "lobby";
    accepted := Accepts(form.name, form.typeValue);
  }
}
