/**
 * The public site header: it loads the signed-in user's profile when a
 * token is stored, shows their initials, and logs out through a dialog.
 */
module Header {
  import opened Wrappers
  import Text
  import Api

  /** `piece[0]` inside a template literal: an empty piece prints "undefined". */
  function FirstCharText(piece: string): (r: string)
    ensures piece != "" ==> r == [piece[0]]
    ensures piece == "" ==> r == "undefined"
  {
    if piece == "" then "undefined" else [piece[0]]
  }

  /**
   * `getInitials(name)`: with several space-separated pieces, the first
   * characters of the first and the last piece; with one piece, its first two
   * characters; upper-cased in both cases.
   */
  function GetInitials(name: string): (r: string)
    ensures ' ' !in name ==> r == Text.ToUpper(Text.Take(name, 2))
    ensures var names := Text.Split(name, ' ');
      |names| > 1 && names[0] != "" && names[|names| - 1] != "" ==>
        r == [Text.UpperChar(names[0][0]), Text.UpperChar(names[|names| - 1][0])]
  {
    var names := Text.Split(name, ' ');
    if |names| > 1 then
      Text.ToUpper(FirstCharText(names[0]) + FirstCharText(names[|names| - 1]))
    else
      Text.ToUpper(Text.Take(name, 2))
  }

  /** A name without spaces gives at most two characters; a one-character name gives one. */
  lemma SinglePieceInitials(name: string)
    requires ' ' !in name
    ensures |GetInitials(name)| == if |name| < 2 then |name| else 2
  {
  }

  /** Only the first and the last piece count: middle names are ignored. */
  lemma MiddleNamesIgnored(first: string, middle: string, last: string)
    requires first != "" && last != ""
    requires ' ' !in first && ' ' !in last
    ensures GetInitials(first + " " + middle + " " + last) == GetInitials(first + " " + last)
    ensures GetInitials(first + " " + last) == [Text.UpperChar(first[0]), Text.UpperChar(last[0])]
  {
    Text.SplitAtFirstSeparator(first, middle, ' ');
    Text.SplitAtLastSeparator(first + " " + middle, last, ' ');
    assert first + " " + middle + " " + last == (first + " " + middle) + [' '] + last;
    Text.SplitAtFirstSeparator(first, last, ' ');
    Text.SplitNoSeparator(last, ' ');
    assert first + " " + last == first + [' '] + last;
  }

  /** A leading space makes the first piece empty, and its "undefined" is spelled out. */
  lemma LeadingSpaceInitials()
    ensures GetInitials(" Bob") == "UNDEFINEDB"
  {
    SplitLeadingSpace();
    assert FirstCharText("") + FirstCharText("Bob") == "undefinedB";
    UpperUndefined();
  }

  lemma SplitLeadingSpace()
    ensures Text.Split(" Bob", ' ') == ["", "Bob"]
  {
    assert " Bob" == "" + [' '] + "Bob";
    Text.SplitAtFirstSeparator("", "Bob", ' ');
    Text.SplitNoSeparator("Bob", ' ');
  }

  lemma UpperUndefined()
    ensures Text.ToUpper("undefinedB") == "UNDEFINEDB"
  {
    var s := "undefinedB";
    var up := Text.ToUpper(s);
    forall i | 0 <= i < 10
      ensures up[i] == "UNDEFINEDB"[i]
    {
      assert up[i] == Text.UpperChar(s[i]);
    }
  }

  datatype HeaderView = Skeleton | AccountMenu(initials: string, username: string) | GuestLinks

  class HeaderState {
    var token: Option<string>
    var user: Option<Api.UserProfile>
    var loading: bool
    var isLogoutDialogOpen: bool

    /** A user is only ever shown while a token is stored. */
    predicate Valid()
      reads this
    {
      user.Some? ==> Api.HasToken(token)
    }

    constructor (storedToken: Option<string>)
      ensures Valid()
      ensures token == storedToken && user == None && loading && !isLogoutDialogOpen
    {
      token, user, loading, isLogoutDialogOpen := storedToken, None, true, false;
    }

    /**
     * `getUserProfile`: without a token nothing is fetched; otherwise a
     * success stores the profile and a failure removes the token and the
     * user. Loading ends in every branch.
     */
    method LoadProfile(response: Api.Response<Api.UserProfile>) returns (fetched: bool)
      requires Valid()
      modifies this`token, this`user, this`loading
      ensures Valid()
      ensures !loading
      ensures fetched <==> Api.HasToken(old(token))
      ensures !fetched ==> token == old(token) && user == old(user)
      ensures fetched && response.Ok? ==> token == old(token) && user == Some(response.value)
      ensures fetched && response.Failed? ==> token == None && user == None
    {
      fetched := Api.HasToken(token);
      if fetched {
        if response.Ok? {
          user := Some(response.value);
        } else {
          token := None;
          user := None;
        }
      }
      loading := false;
    }

    method OpenLogoutDialog()
      modifies this`isLogoutDialogOpen
      ensures isLogoutDialogOpen
    {
      isLogoutDialogOpen := true;
    }

    method CloseLogoutDialog()
      modifies this`isLogoutDialogOpen
      ensures !isLogoutDialogOpen
    {
      isLogoutDialogOpen := false;
    }

    /** Logging out removes the token, forgets the user and closes the dialog. */
    method HandleLogoutConfirmed()
      modifies this`token, this`user, this`isLogoutDialogOpen
      ensures Valid()
      ensures token == None && user == None && !isLogoutDialogOpen
    {
      token := None;
      user := None;
      isLogoutDialogOpen := false;
    }

    /** A placeholder while loading, then the account menu for a user, else the sign-in links. */
    function View(): (v: HeaderView)
      reads this
      ensures v.Skeleton? <==> loading
      ensures v.AccountMenu? <==> !loading && user.Some?
      ensures v.AccountMenu? ==>
        v.username == user.value.username && v.initials == GetInitials(user.value.username)
    {
      if loading then Skeleton
      else if user.Some? then AccountMenu(GetInitials(user.value.username), user.value.username)
      else GuestLinks
    }
  }
}
