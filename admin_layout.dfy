/**
 * The admin shell: the sidebar's navigation highlighting, the role gate
 * that admits only admins, and the top bar's avatar letter.
 */
module AdminLayout {
  import opened Wrappers
  import Text
  import Api

  datatype NavItem = NavItem(href: string, caption: string)

  const NavItems: seq<NavItem> := [
    NavItem("/admin/articles", "Articles"),
    NavItem("/admin/categories", "Category"),
    NavItem("/admin/profile", "Profile")
  ]

  /** `pathname.startsWith(item.href)`: the item is highlighted on its own page and below it. */
  function IsActive(pathname: string, item: NavItem): (active: bool)
    ensures active <==> item.href <= pathname
  {
    Text.StartsWithIffPrefix(pathname, item.href);
    Text.StartsWith(pathname, item.href)
  }

  /** Any path below an item's href highlights that item. */
  lemma ActiveBelowHref(item: NavItem, rest: string)
    ensures IsActive(item.href + rest, item)
  {
    assert item.href <= item.href + rest;
  }

  /** On the article pages (the list, its create and edit pages) only the Articles item is highlighted. */
  lemma ArticlePathsHighlightArticles(rest: string)
    ensures IsActive(NavItems[0].href + rest, NavItems[0])
    ensures !IsActive(NavItems[0].href + rest, NavItems[1])
    ensures !IsActive(NavItems[0].href + rest, NavItems[2])
  {
    var path := NavItems[0].href + rest;
    assert NavItems[0].href <= path;
    assert path[7] == 'a';
    assert NavItems[1].href[7] == 'c' && NavItems[2].href[7] == 'p';
  }

  /** `username ? username[0].toUpperCase() : ""`. */
  function AvatarInitial(username: string): (initial: string)
    ensures username == "" ==> initial == ""
    ensures username != "" ==> initial == [Text.UpperChar(username[0])]
  {
    if username == "" then "" else Text.ToUpper([username[0]])
  }

  /** `profile.role.toLowerCase() === "admin"`. */
  predicate IsAdminRole(role: string)
  {
    Text.ToLower(role) == "admin"
  }

  /** The role test ignores letter case: upper-casing a role does not change the verdict. */
  lemma AdminRoleIgnoresCase(role: string)
    ensures IsAdminRole(Text.ToUpper(role)) <==> IsAdminRole(role)
  {
    assert Text.ToLower(Text.ToUpper(role)) == Text.ToLower(role) by {
      forall i | 0 <= i < |role|
        ensures Text.ToLower(Text.ToUpper(role))[i] == Text.ToLower(role)[i]
      {
        var c := role[i];
        assert Text.ToUpper(role)[i] == Text.UpperChar(c);
      }
    }
  }

  /** The layout's own view: a loading line, then the shell with the name and its avatar letter. */
  datatype LayoutView = LoadingLine | Shell(username: string, avatar: string)

  class AdminLayoutState {
    var token: Option<string>
    var username: string
    var loading: bool
    var route: Option<string>  // the last navigation target
    var isLogoutOpen: bool     // the sidebar's logout dialog

    constructor (storedToken: Option<string>)
      ensures token == storedToken && username == "" && loading && route == None && !isLogoutOpen
    {
      token, username, loading, route, isLogoutOpen := storedToken, "", true, None, false;
    }

    /**
     * The profile effect: an admin profile sets the username; any other role
     * is sent to "/" with the username left alone; a failed fetch (also the
     * one `fetchUserProfile` raises itself when no token is stored) removes
     * the token and goes to "/login". Loading ends in every outcome.
     */
    method LoadProfile(response: Api.Response<Api.UserProfile>)
      modifies this`token, this`username, this`loading, this`route
      ensures !loading
      ensures Api.HasToken(old(token)) && response.Ok? && IsAdminRole(response.value.role) ==>
        username == response.value.username && token == old(token) && route == old(route)
      ensures Api.HasToken(old(token)) && response.Ok? && !IsAdminRole(response.value.role) ==>
        username == old(username) && token == old(token) && route == Some("/")
      ensures !Api.HasToken(old(token)) || response.Failed? ==>
        username == old(username) && token == None && route == Some("/login")
    {
      var outcome := if Api.HasToken(token) then response else Api.Failed(Api.NoTokenError);
      match outcome {
        case Ok(profile) =>
          if !IsAdminRole(profile.role) {
            route := Some("/");
          } else {
            username := profile.username;
          }
        case Failed(_) =>
          token := None;
          route := Some("/login");
      }
      loading := false;
    }

    method OpenLogoutDialog()
      modifies this`isLogoutOpen
      ensures isLogoutOpen
    {
      isLogoutOpen := true;
    }

    method CloseLogoutDialog()
      modifies this`isLogoutOpen
      ensures !isLogoutOpen
    {
      isLogoutOpen := false;
    }

    /** The sidebar's confirmed logout: remove the token and go to "/login". */
    method Logout()
      modifies this`token, this`route
      ensures token == None && route == Some("/login")
    {
      token := None;
      route := Some("/login");
    }

    function View(): (v: LayoutView)
      reads this
      ensures v.LoadingLine? <==> loading
      ensures v.Shell? ==> v.username == username && v.avatar == AvatarInitial(username)
    {
      if loading then LoadingLine else Shell(username, AvatarInitial(username))
    }
  }
}
