/** The admin profile page: it loads the profile when a token is stored and shows it. */
module AdminProfilePage {
  import opened Wrappers
  import Text
  import Api

  /** `getInitial(name = "")`: "" for a missing or empty name, else its first character upper-cased. */
  function GetInitial(name: Option<string>): (initial: string)
    ensures name.None? || name.value == "" ==> initial == ""
    ensures name.Some? && name.value != "" ==> initial == [Text.UpperChar(name.value[0])]
  {
    var n := if name.Some? then name.value else "";
    if n == "" then "" else Text.ToUpper([n[0]])
  }

  datatype ProfileView =
    | LoadingProfile
    | Nothing                                                 // `return null`
    | Profile(initial: string, username: string, role: string)

  class ProfilePageState {
    var token: Option<string>
    var user: Option<Api.UserProfile>
    var loading: bool
    var route: Option<string>  // the last `router.push` target

    /** A profile is only ever held while a token is stored. */
    predicate Valid()
      reads this
    {
      user.Some? ==> Api.HasToken(token)
    }

    constructor (storedToken: Option<string>)
      ensures Valid()
      ensures token == storedToken && user == None && loading && route == None
    {
      token, user, loading, route := storedToken, None, true, None;
    }

    /**
     * `getUserProfile`: without a token it goes to "/login" and returns
     * before the `try`, so loading stays on; otherwise a success stores the
     * profile, a failure removes the token and goes to "/login", and loading
     * ends either way. The effect runs once, on mount, before any profile is held.
     */
    method LoadProfile(response: Api.Response<Api.UserProfile>) returns (fetched: bool)
      requires user.None?
      modifies this`token, this`user, this`loading, this`route
      ensures Valid()
      ensures fetched <==> Api.HasToken(old(token))
      ensures !fetched ==>
        route == Some("/login") && loading == old(loading) && token == old(token) && user == old(user)
      ensures fetched ==> !loading
      ensures fetched && response.Ok? ==>
        user == Some(response.value) && token == old(token) && route == old(route)
      ensures fetched && response.Failed? ==>
        token == None && user == old(user) && route == Some("/login")
    {
      if !Api.HasToken(token) {
        route := Some("/login");
        return false;
      }
      fetched := true;
      if response.Ok? {
        user := Some(response.value);
      } else {
        token := None;
        route := Some("/login");
      }
      loading := false;
    }

    /** Loading first; once loaded, nothing without a profile. */
    function View(): (v: ProfileView)
      reads this
      ensures v.LoadingProfile? <==> loading
      ensures v.Nothing? <==> !loading && user.None?
      ensures v.Profile? ==>
        v.username == user.value.username && v.role == user.value.role &&
        v.initial == GetInitial(Some(user.value.username))
    {
      if loading then LoadingProfile
      else if user.None? then Nothing
      else Profile(GetInitial(Some(user.value.username)), user.value.username, user.value.role)
    }
  }
}
