/** src/lib/initial-profile.ts: `initialProfile` finds the stored profile of the
    signed-in user, or creates it from the identity provider's record.  The
    provider's `currentUser()` is passed in as `auth`. */
module InitialProfile {
  import opened Wrappers
  import opened Seqs
  import opened Text
  import opened Store

  /** The identity provider's user: id, optional first and last names, the email
      addresses in order, and the image URL. */
  datatype AuthUser = AuthUser(id: string, firstName: Option<string>, lastName: Option<string>,
                               emails: seq<string>, imageUrl: string)

  /** What the call ends with: `redirect(path)`, a profile, or an exception (the
      store failed, or there is no first email address). */
  datatype ProfileResult = Redirect(path: string) | Profile(user: User) | Thrown

  datatype ProfileStep = ProfileStep(t: Tables, result: ProfileResult)

  /** `` `${firstName || ""} ${lastName || ""}` `` before trimming. */
  function NameParts(u: AuthUser): string {
    OrElse(u.firstName, "") + " " + OrElse(u.lastName, "")
  }

  /** `email.split("@")[0]`: the text before the first `@`, or all of it. */
  function LocalPart(email: string): (r: string)
    ensures |r| <= |email| && r == email[..|r|]
    ensures '@' !in r
    ensures |r| < |email| ==> email[|r|] == '@'
  {
    SplitHeadIsPrefix(email, '@');
    SplitPiecesLackSep(email, '@');
    Split(email, '@')[0]
  }

  /** The name of a new profile: the trimmed name parts, or the local part of the
      first email address when they are blank.  It is empty only when the parts
      are blank and the address starts with `@` (or is empty). */
  function DisplayName(u: AuthUser): (r: string)
    requires |u.emails| > 0
    ensures !IsBlank(NameParts(u)) ==> r == Trim(NameParts(u)) && r != "" && !IsSpace(r[0]) && !IsSpace(r[|r| - 1])
    ensures IsBlank(NameParts(u)) ==> r == LocalPart(u.emails[0])
    ensures r == "" ==> IsBlank(NameParts(u)) && (u.emails[0] == "" || u.emails[0][0] == '@')
  {
    TrimEmptyIffBlank(NameParts(u));
    var full := Trim(NameParts(u));
    if full != "" then full else LocalPart(u.emails[0])
  }

  /** A first name alone, without surrounding whitespace, is the whole name. */
  lemma FirstNameOnly(u: AuthUser)
    requires |u.emails| > 0 && u.lastName.None?
    requires u.firstName.Some? && u.firstName.value != ""
    requires !IsSpace(u.firstName.value[0]) && !IsSpace(u.firstName.value[|u.firstName.value| - 1])
    ensures DisplayName(u) == u.firstName.value
  {
    var f := u.firstName.value;
    assert NameParts(u) == f + " ";
    assert TrimStart(f + " ") == f + " ";
    var s := f + " ";
    assert s[..|s| - 1] == f;
    assert !IsBlank(s) by { assert !IsSpace(s[0]); }
  }

  function ByClerkId(id: string): User -> bool {
    (u: User) => u.clerkId == id
  }

  /** `initialProfile()`.  No signed-in user redirects to `/sign-in`; a stored
      profile for the user's id is returned as it is; otherwise one profile is
      appended, with the first email address and the image URL. */
  function Sync(t: Tables, failing: bool, auth: Option<AuthUser>, newId: string): (s: ProfileStep)
    ensures auth.None? ==> s == ProfileStep(t, Redirect("/sign-in"))
    ensures auth.Some? && failing ==> s == ProfileStep(t, Thrown)
    ensures s.result.Profile? ==> auth.Some? && s.result.user in s.t.users && s.result.user.clerkId == auth.value.id
    ensures auth.Some? && !failing && (exists u | u in t.users :: u.clerkId == auth.value.id) ==>
      s.t == t && s.result.Profile? && s.result.user in t.users
    ensures s.t != t ==>
      && auth.Some? && |auth.value.emails| > 0
      && (forall u | u in t.users :: u.clerkId != auth.value.id)
      && s.result == Profile(User(newId, auth.value.id, DisplayName(auth.value), auth.value.emails[0], Some(auth.value.imageUrl)))
      && s.t == t.(users := t.users + [s.result.user])
    ensures auth.Some? && !failing && |auth.value.emails| == 0 && (forall u | u in t.users :: u.clerkId != auth.value.id) ==>
      s == ProfileStep(t, Thrown)
    ensures auth.Some? && !failing && |auth.value.emails| > 0 && (forall u | u in t.users :: u.clerkId != auth.value.id) ==>
      && s.result == Profile(User(newId, auth.value.id, DisplayName(auth.value), auth.value.emails[0], Some(auth.value.imageUrl)))
      && s.t == t.(users := t.users + [s.result.user])
  {
    if auth.None? then ProfileStep(t, Redirect("/sign-in"))
    else if failing then ProfileStep(t, Thrown)
    else match FindFirst(t.users, ByClerkId(auth.value.id))
      case Some(profile) => ProfileStep(t, Profile(profile))
      case None =>
        if |auth.value.emails| == 0 then ProfileStep(t, Thrown)
        else
          var profile := User(newId, auth.value.id, DisplayName(auth.value), auth.value.emails[0], Some(auth.value.imageUrl));
          ProfileStep(t.(users := t.users + [profile]), Profile(profile))
  }

  /** The function, one store call at a time. */
  method Run(db: Database, auth: Option<AuthUser>, newId: string) returns (result: ProfileResult)
    modifies db
    ensures ProfileStep(db.t, result) == Sync(old(db.t), old(db.failing), auth, newId)
    ensures db.failing == old(db.failing)
  {
    if auth.None? {
      return Redirect("/sign-in");
    }
    if db.failing {
      return Thrown;
    }
    var existing := FindFirst(db.t.users, ByClerkId(auth.value.id));
    if existing.Some? {
      return Profile(existing.value);
    }
    if |auth.value.emails| == 0 {
      return Thrown;
    }
    var profile := User(newId, auth.value.id, DisplayName(auth.value), auth.value.emails[0], Some(auth.value.imageUrl));
    db.t := db.t.(users := db.t.users + [profile]);
    result := Profile(profile);
  }

  /** A second call for the same user returns the profile the first call created,
      and creates nothing. */
  lemma SecondCallFindsProfile(t: Tables, auth: AuthUser, n1: string, n2: string)
    requires Sync(t, false, Some(auth), n1).result.Profile?
    ensures var s1 := Sync(t, false, Some(auth), n1);
      Sync(s1.t, false, Some(auth), n2) == s1
  {
    var s1 := Sync(t, false, Some(auth), n1);
    if s1.t != t {
      var found := FindFirst(s1.t.users, ByClerkId(auth.id));
      assert s1.t.users[|t.users|] == s1.result.user;
      assert found.Some?;
    }
  }
}
