/** src/components/modals/edit-channel-modal.tsx: the dialog that edits a
    channel.  Its schema extends the create dialog's name and type rules with an
    optional description, a private flag and a slow-mode delay. */
module EditChannelModal {
  import opened Wrappers
  import opened Text
  import opened Store
  import opened ModalStore
  import opened CreateChannelModal

  /** What the schema hands to `onSubmit`, defaults filled in. */
  datatype EditValues = EditValues(name: string, channelType: ChannelType, description: Option<string>,
                                   isPrivate: bool, slowMode: int)

  /** `z.number().min(0).max(300)`. */
  predicate SlowModeInRange(slowMode: int) {
    0 <= slowMode <= 300
  }

  /** The schema of lines 39-52 on the form's raw values: a name that is neither
      empty nor "general", an enum type, an optional description, a private
      flag that defaults to false, and a slow mode of 0 to 300 seconds that
      defaults to 0. */
  function Parse(name: string, typeValue: string, description: Option<string>,
                 isPrivate: Option<bool>, slowMode: Option<int>): (r: Option<EditValues>)
    ensures r.Some? <==> NameError(name).None? && ParseType(typeValue).Some? && SlowModeInRange(slowMode.GetOr(0))
    ensures r.Some? ==> r.value.name == name && TypeName(r.value.channelType) == typeValue
    ensures r.Some? ==> r.value.description == description
    ensures r.Some? ==> r.value.isPrivate == isPrivate.GetOr(false)
    ensures r.Some? ==> r.value.slowMode == slowMode.GetOr(0) && 0 <= r.value.slowMode <= 300
  {
    if NameError(name).Some? || ParseType(typeValue).None? || !SlowModeInRange(slowMode.GetOr(0)) then None
    else Some(EditValues(name, ParseType(typeValue).value, description, isPrivate.GetOr(false), slowMode.GetOr(0)))
  }

  /** `parseInt(e.target.value) || 0`: NaN becomes 0. */
  function SlowModeInput(text: string): (r: int)
    ensures ParseInt(text).Some? ==> r == ParseInt(text).value
    ensures ParseInt(text).None? ==> r == 0
  {
    ParseInt(text).GetOr(0)
  }

  /** Typing back a number the field shows gives that number. */
  lemma SlowModeInputRoundTrip(n: int)
    ensures SlowModeInput(IntToString(n)) == n
  {
    IntToStringParses(n);
  }

  /** The dialog's form. */
  class EditChannelForm {
    var name: string
    var typeValue: string
    var description: string
    var isPrivate: bool
    var slowMode: int

    /** The default values of lines 64-70. */
    constructor ()
      ensures name == "" && typeValue == "TEXT" && description == "" && !isPrivate && slowMode == 0
    {
      name := "";
      typeValue := "TEXT";
      description := "";
      isPrivate := false;
      slowMode := 0;
    }

    /** The effect of lines 73-81: a channel's values, with "" for a missing
        description, false for a missing private flag and 0 for a missing delay. */
    method LoadChannel(channel: Option<ChannelData>)
      modifies this
      ensures channel.None? ==>
        && name == old(name) && typeValue == old(typeValue) && description == old(description)
        && isPrivate == old(isPrivate) && slowMode == old(slowMode)
      ensures channel.Some? ==>
        && name == channel.value.name
        && typeValue == TypeName(channel.value.channelType)
        && description == OrElse(channel.value.description, "")
        && isPrivate == channel.value.isPrivate.GetOr(false)
        && slowMode == channel.value.slowMode.GetOr(0)
    {
      if channel.Some? {
        var c := channel.value;
        name := c.name;
        typeValue := TypeName(c.channelType);
        description := OrElse(c.description, "");
        isPrivate := c.isPrivate.GetOr(false);
        slowMode := c.slowMode.GetOr(0);
      }
    }

    /** Typing into the slow-mode field. */
    method OnSlowModeInput(text: string)
      modifies this
      ensures slowMode == SlowModeInput(text)
      ensures name == old(name) && typeValue == old(typeValue) && description == old(description) && isPrivate == old(isPrivate)
    {
      slowMode := ParseInt(text).GetOr(0);
    }

    /** The slow-mode field is drawn only for text channels (line 252). */
    predicate ShowsSlowMode()
      reads this
    {
      typeValue == "TEXT"
    }

    /** The values `onSubmit` would receive, if the schema accepts the form. */
    function Submitted(): Option<EditValues>
      reads this
    {
      Parse(name, typeValue, Some(description), Some(isPrivate), Some(slowMode))
    }

    /** `form.handleSubmit(onSubmit)`: accepted values are sent as a PATCH.  The
        response's status is not looked at: unless the request throws, the form
        is reset and the dialog closed. */
    method Submit(store: Modal, threw: bool) returns (sent: Option<EditValues>)
      modifies this, store
      ensures sent == old(Submitted())
      ensures sent.Some? && !threw ==>
        && name == "" && typeValue == "TEXT" && description == "" && !isPrivate && slowMode == 0
        && store.State() == Closed(old(store.State()))
      ensures !(sent.Some? && !threw) ==>
        && name == old(name) && typeValue == old(typeValue) && description == old(description)
        && isPrivate == old(isPrivate) && slowMode == old(slowMode)
        && store.State() == old(store.State())
    {
      sent := Submitted();
      if sent.Some? && !threw {
        name, typeValue, description, isPrivate, slowMode := "", "TEXT", "", false, 0;
        store.OnClose();
      }
    }

    /** `handleClose`: reset to the defaults and close. */
    method HandleClose(store: Modal)
      modifies this, store
      ensures name == "" && typeValue == "TEXT" && description == "" && !isPrivate && slowMode == 0
      ensures store.State() == Closed(old(store.State()))
    {
      name, typeValue, description, isPrivate, slowMode := "", "TEXT", "", false, 0;
      store.OnClose();
    }
  }

  /** `onDelete`: unless the DELETE throws, navigate to the server and close;
      as with `onSubmit`, the status is not looked at. */
  method OnDelete(store: Modal, serverId: string, threw: bool) returns (navigate: Option<string>)
    modifies store
    ensures !threw ==> navigate == Some("/servers/" + serverId) && store.State() == Closed(old(store.State()))
    ensures threw ==> navigate.None? && store.State() == old(store.State())
  {
    if threw {
      return None;
    }
    navigate := Some("/servers/" + serverId);
    store.OnClose();
  }

  /** A channel loaded without optional fields submits with the defaults, as
      long as its name passes. */
  method LoadedDefaultsSubmit(id: string, channelName: string) returns (values: Option<EditValues>)
    requires NameError(channelName).None?
    ensures values == Some(EditValues(channelName, TEXT, Some(""), false, 0))
  {
    var form := new EditChannelForm();
    form.LoadChannel(Some(ChannelData(id, channelName, TEXT, None, None, None)));
    values := form.Submitted();
  }
}
