// Turning an authentication session into the storefront's user record, and
// the guard in front of the admin area.

module Session {
  import opened Types
  import opened Text

  /** The provider's user metadata; each entry may be missing. */
  datatype Metadata = Metadata(fullName: Option<string>, name: Option<string>)

  /** The identity carried by a session. */
  datatype AuthUser = AuthUser(id: string, email: Option<string>, metadata: Metadata)

  /** A row of the profiles table; columns may be null. */
  datatype Profile = Profile(name: Option<string>, role: Option<Role>)

  /** What the profile query produced: a row (or none), or an exception. */
  datatype ProfileFetch = Fetched(profile: Option<Profile>) | Threw

  const DefaultName: string := "Electra User"

  /** A string is truthy in JavaScript when present and non-empty. */
  predicate Truthy(o: Option<string>)
  {
    o.Some? && o.value != ""
  }

  /** `a || b || ... || fallback` over optional strings. */
  function FirstTruthy(candidates: seq<Option<string>>, fallback: string): (r: string)
    ensures (forall i | 0 <= i < |candidates| :: !Truthy(candidates[i])) ==> r == fallback
    ensures forall i | 0 <= i < |candidates| && Truthy(candidates[i]) ::
      (forall j | 0 <= j < i :: !Truthy(candidates[j])) ==> r == candidates[i].value
    ensures fallback != "" ==> r != ""
  {
    if candidates == [] then fallback
    else if Truthy(candidates[0]) then candidates[0].value
    else
      var r := FirstTruthy(candidates[1..], fallback);
      assert forall i | 1 <= i < |candidates| :: candidates[i] == candidates[1..][i - 1];
      r
  }

  /** `email?.toLowerCase() || ''`. */
  function LowerEmail(email: Option<string>): string
  {
    if email.Some? then Lower(email.value) else ""
  }

  function ProfileName(profile: Option<Profile>): Option<string>
  {
    if profile.Some? then profile.value.name else None
  }

  /** `profile?.role || 'customer'`. */
  function ProfileRole(profile: Option<Profile>): Role
  {
    if profile.Some? && profile.value.role.Some? then profile.value.role.value else Customer
  }

  /**
   * The user record set after a session change: none without an identity;
   * otherwise built from the profile row, or from the identity alone when
   * the profile query threw.
   */
  function ResolveUser(authUser: Option<AuthUser>, fetch: ProfileFetch): (u: Option<User>)
    ensures u.None? <==> authUser.None?
    ensures u.Some? ==> u.value.id == authUser.value.id
    ensures u.Some? ==> u.value.name != ""
    ensures u.Some? ==> IsLowerCase(u.value.email)
    ensures u.Some? ==> (u.value.email ==
      if authUser.value.email.Some? then Lower(authUser.value.email.value) else "")
    ensures u.Some? ==> (u.value.email == "" <==> authUser.value.email.None? || authUser.value.email.value == "")
    ensures u.Some? ==> (u.value.role == Admin <==>
      fetch.Fetched? && fetch.profile.Some? && fetch.profile.value.role == Some(Admin))
  {
    match authUser
    case None => None
    case Some(au) =>
      var email := LowerEmail(au.email);
      LowerIsLowerCase(if au.email.Some? then au.email.value else "");
      match fetch
      case Fetched(profile) =>
        var name := FirstTruthy([ProfileName(profile), au.metadata.fullName, au.metadata.name], DefaultName);
        Some(User(au.id, email, name, ProfileRole(profile)))
      case Threw =>
        Some(User(au.id, email, FirstTruthy([au.metadata.name], DefaultName), Customer))
  }

  /** The display name falls back from the profile name to the full name, the name, then the default. */
  lemma ResolvedNameChain(au: AuthUser, fetch: ProfileFetch)
    ensures ResolveUser(Some(au), fetch).Some?
    ensures fetch.Fetched? ==> (ResolveUser(Some(au), fetch).value.name ==
      if Truthy(ProfileName(fetch.profile)) then ProfileName(fetch.profile).value
      else if Truthy(au.metadata.fullName) then au.metadata.fullName.value
      else if Truthy(au.metadata.name) then au.metadata.name.value
      else DefaultName)
    ensures fetch.Threw? ==> (ResolveUser(Some(au), fetch).value.name ==
      if Truthy(au.metadata.name) then au.metadata.name.value else DefaultName)
  {
    if fetch.Fetched? {
      var cs := [ProfileName(fetch.profile), au.metadata.fullName, au.metadata.name];
      assert cs[0] == ProfileName(fetch.profile) && cs[1] == au.metadata.fullName && cs[2] == au.metadata.name;
    } else {
      var cs := [au.metadata.name];
      assert cs[0] == au.metadata.name;
    }
  }

  datatype RouteOutcome = RenderNothing | RedirectHome | RenderChildren

  /** The admin route: nothing while signed out, a redirect home for customers, the children for admins. */
  function AdminRoute(user: Option<User>): (o: RouteOutcome)
    ensures o == RenderNothing <==> user.None?
    ensures o == RedirectHome <==> user.Some? && user.value.role != Admin
    ensures o == RenderChildren <==> user.Some? && user.value.role == Admin
  {
    if user.None? then RenderNothing
    else if user.value.role != Admin then RedirectHome
    else RenderChildren
  }

  /** Only a session whose profile row says admin reaches the admin area; a failed profile query never does. */
  lemma AdminAreaNeedsAdminProfile(authUser: Option<AuthUser>, fetch: ProfileFetch)
    ensures AdminRoute(ResolveUser(authUser, fetch)) == RenderChildren <==>
      authUser.Some? && fetch.Fetched? && fetch.profile.Some? && fetch.profile.value.role == Some(Admin)
  {
  }
}
