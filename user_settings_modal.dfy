/** src/components/modals/user-settings-modal.tsx: the user's own settings dialog.
    Saving checks the display name, patches the profile, and then passes the
    name, split into first and last name, to the auth provider. */
module UserSettingsModal {
  import opened Wrappers
  import opened Text
  import opened ModalStore

  /** The auth provider's name update: `firstName`, and `lastName` only when it
      is not empty (lines 117-128). */
  datatype NameUpdate = NameUpdate(firstName: string, lastName: Option<string>)

  /** The split of lines 117-119 on the trimmed display name. */
  function NameParts(displayName: string): (u: NameUpdate)
    ensures var parts := Split(Trim(displayName), ' ');
      && u.firstName == parts[0]
      && (u.lastName.None? <==> Join(parts[1..], ' ') == "")
      && (u.lastName.Some? ==> u.lastName.value == Join(parts[1..], ' '))
  {
    var parts := Split(Trim(displayName), ' ');
    var firstName := if parts[0] != "" then parts[0] else "";
    var lastName := Join(parts[1..], ' ');
    NameUpdate(firstName, if lastName != "" then Some(lastName) else None)
  }

  /** Splitting a string that does not end in a space: the head and the joined
      rest, put back together with one space, give the string. */
  lemma SplitFirstRest(s: string)
    requires s == [] || s[|s| - 1] != ' '
    ensures var parts := Split(s, ' ');
      parts[0] + (if Join(parts[1..], ' ') != "" then " " + Join(parts[1..], ' ') else "") == s
  {
    var parts := Split(s, ' ');
    JoinSplit(s, ' ');
    var rest := Join(parts[1..], ' ');
    if |parts| > 1 {
      assert s == parts[0] + [' '] + rest;
      assert rest != "" by {
        assert s[|s| - 1] == if rest == "" then ' ' else rest[|rest| - 1];
      }
      assert parts[0] + " " + rest == parts[0] + [' '] + rest;
    } else {
      assert parts[1..] == [];
    }
  }

  /** The first name has no space, and the first name followed by " " and the
      last name, when there is one, is exactly the trimmed display name. */
  lemma NamePartsRoundTrip(displayName: string)
    ensures ' ' !in NameParts(displayName).firstName
    ensures var u := NameParts(displayName);
      u.firstName + (if u.lastName.Some? then " " + u.lastName.value else "") == Trim(displayName)
  {
    assert IsSpace(' ');
    SplitFirstRest(Trim(displayName));
    SplitPiecesLackSep(Trim(displayName), ' ');
  }

  /** What the save's profile request did. */
  datatype PatchOutcome = PatchOk | PatchFailed(body: string) | PatchThrew(message: string)

  /** The error a failed save shows: the response text or "Failed to update
      profile" for a response that is not OK, the error's message for a throw. */
  function SaveError(outcome: PatchOutcome): (r: Option<string>)
    ensures outcome.PatchOk? <==> r.None?
    ensures outcome.PatchFailed? ==> r == Some(if outcome.body != "" then outcome.body else "Failed to update profile")
    ensures outcome.PatchThrew? ==> r == Some(outcome.message)
  {
    match outcome
    case PatchOk => None
    case PatchFailed(body) => Some(if body != "" then body else "Failed to update profile")
    case PatchThrew(message) => Some(message)
  }

  /** The form's initial record (lines 46-64). */
  function InitialSettings(fullName: Option<string>): (s: map<string, SettingValue>)
    ensures "displayName" in s && s["displayName"] == SText(OrElse(fullName, ""))
    ensures "theme" in s && s["theme"] == SText("dark")
    ensures "compactMode" in s && s["compactMode"] == SFlag(false)
  {
    map["displayName" := SText(OrElse(fullName, "")),
        "messageNotifications" := SFlag(true), "mentionNotifications" := SFlag(true), "soundEnabled" := SFlag(true),
        "showOnlineStatus" := SFlag(true), "allowDirectMessages" := SFlag(true), "showActivity" := SFlag(true),
        "theme" := SText("dark"), "compactMode" := SFlag(false), "showAvatars" := SFlag(true)]
  }

  /** The dialog's state. */
  class UserSettingsDialog {
    var settings: map<string, SettingValue>
    var error: Option<string>
    var isLoading: bool

    /** The display name is always a string. */
    predicate Valid()
      reads this
    {
      "displayName" in settings && settings["displayName"].SText?
    }

    function DisplayName(): string
      reads this
      requires Valid()
    {
      settings["displayName"].s
    }

    constructor (fullName: Option<string>)
      ensures Valid() && settings == InitialSettings(fullName) && error.None? && !isLoading
    {
      settings := InitialSettings(fullName);
      error := None;
      isLoading := false;
    }

    /** The effect of lines 69-76: the signed-in user's full name, or "". */
    method OnUserChanged(signedIn: bool, fullName: Option<string>)
      requires Valid()
      modifies this
      ensures Valid()
      ensures settings == (if signedIn then old(settings)["displayName" := SText(OrElse(fullName, ""))] else old(settings))
      ensures error == old(error) && isLoading == old(isLoading)
    {
      if signedIn {
        settings := settings["displayName" := SText(OrElse(fullName, ""))];
      }
    }

    /** `handleSettingChange`: clears the error and changes only the named key.
        The display-name input always passes a string. */
    method HandleSettingChange(key: string, value: SettingValue)
      requires Valid()
      requires key == "displayName" ==> value.SText?
      modifies this
      ensures Valid()
      ensures error.None?
      ensures settings.Keys == old(settings.Keys) + {key} && settings[key] == value
      ensures forall k | k in old(settings) && k != key :: settings[k] == old(settings)[k]
      ensures isLoading == old(isLoading)
    {
      error := None;
      settings := settings[key := value];
    }

    /** `handleSave`.  A blank name sets the error and sends nothing.  Otherwise
        the profile is patched; a failure sets `SaveError`.  After an OK patch a
        signed-in user's name goes to the auth provider as `NameParts` (whose own
        failure is ignored), the dialog closes and the page reloads.  Loading
        ends either way. */
    method HandleSave(store: Modal, signedIn: bool, outcome: PatchOutcome)
      returns (patched: Option<string>, nameUpdate: Option<NameUpdate>, reload: bool)
      requires Valid()
      modifies this, store
      ensures Valid() && settings == old(settings)
      ensures IsBlank(old(DisplayName())) ==>
        && isLoading == old(isLoading)
        && error == Some("Display name cannot be empty")
        && patched.None? && nameUpdate.None? && !reload && store.State() == old(store.State())
      ensures !IsBlank(old(DisplayName())) ==> patched == Some(old(DisplayName())) && error == SaveError(outcome) && !isLoading
      ensures !IsBlank(old(DisplayName())) && outcome.PatchOk? ==>
        && reload && store.State() == Closed(old(store.State()))
        && nameUpdate == (if signedIn then Some(NameParts(old(DisplayName()))) else None)
      ensures !outcome.PatchOk? ==> nameUpdate.None? && !reload && store.State() == old(store.State())
    {
      var name := DisplayName();
      if Trim(name) == "" {
        TrimEmptyIffBlank(name);
        error := Some("Display name cannot be empty");
        return None, None, false;
      }
      TrimEmptyIffBlank(name);
      isLoading := true;
      error := None;
      patched := Some(name);
      if !outcome.PatchOk? {
        error := SaveError(outcome);
        nameUpdate, reload := None, false;
      } else {
        if signedIn {
          nameUpdate := Some(NameParts(name));
        } else {
          nameUpdate := None;
        }
        store.OnClose();
        reload := true;
      }
      isLoading := false;
    }
  }
}
