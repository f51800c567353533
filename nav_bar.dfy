/** The navigation bar (frontend/src/components/NavBar.tsx): the links it offers signed-in
    and signed-out visitors, the avatar's initials, and the mobile menu. */
module NavBar {
  import opened Shared
  import AuthContext

  /** `s.split(sep)` with a one-character separator: the pieces between the separators. */
  function Split(s: string, sep: char): (parts: seq<string>)
    ensures |parts| >= 1
    ensures forall i, k :: 0 <= i < |parts| && 0 <= k < |parts[i]| ==> parts[i][k] != sep
    decreases |s|
  {
    var w := Before(s, sep);
    if |w| == |s| then [s] else [w] + Split(s[|w| + 1..], sep)
  }

  /** `parts.join(sep)`. */
  function Join(parts: seq<string>, sep: char): string
    requires |parts| >= 1
  {
    if |parts| == 1 then parts[0] else parts[0] + [sep] + Join(parts[1..], sep)
  }

  /** Splitting loses nothing: joining the pieces with the separator gives back the text. */
  lemma {:induction false} JoinSplit(s: string, sep: char)
    ensures Join(Split(s, sep), sep) == s
    decreases |s|
  {
    var w := Before(s, sep);
    if |w| < |s| {
      var rest := s[|w| + 1..];
      JoinSplit(rest, sep);
      assert Split(s, sep)[1..] == Split(rest, sep);
      assert s == w + [sep] + rest;
    }
  }

  /** `part[0]?.toUpperCase()` for each piece, joined: empty pieces add nothing. */
  function FirstLetters(parts: seq<string>): string {
    if |parts| == 0 then ""
    else (if |parts[0]| > 0 then [ToUpper(parts[0][0])] else "") + FirstLetters(parts[1..])
  }

  /** Reference definition: the upper-cased characters that start a word, that is, that are
      not spaces and come first or right after a space. `atStart` says a word may begin here. */
  function WordStarts(s: string, atStart: bool): string {
    if |s| == 0 then ""
    else if s[0] == ' ' then WordStarts(s[1..], true)
    else (if atStart then [ToUpper(s[0])] else "") + WordStarts(s[1..], false)
  }

  /** A piece without spaces contributes its first letter only. */
  lemma {:induction false} WordStartsOfWord(w: string, t: string, atStart: bool)
    requires forall k :: 0 <= k < |w| ==> w[k] != ' '
    ensures WordStarts(w + t, atStart) ==
      (if atStart && |w| > 0 then [ToUpper(w[0])] else "") + WordStarts(t, atStart && |w| == 0)
    decreases |w|
  {
    if |w| > 0 {
      assert (w + t)[0] == w[0];
      assert (w + t)[1..] == w[1..] + t;
      WordStartsOfWord(w[1..], t, false);
    } else {
      assert w + t == t;
    }
  }

  /** The first letters of the space-separated pieces are the word starts of the text. */
  lemma {:induction false} FirstLettersAreWordStarts(s: string)
    ensures FirstLetters(Split(s, ' ')) == WordStarts(s, true)
    decreases |s|
  {
    var w := Before(s, ' ');
    if |w| == |s| {
      assert s == s + "";
      WordStartsOfWord(s, "", true);
    } else {
      var rest := s[|w| + 1..];
      assert s == w + ([' '] + rest);
      WordStartsOfWord(w, [' '] + rest, true);
      assert ([' '] + rest)[1..] == rest;
      FirstLettersAreWordStarts(rest);
      assert Split(s, ' ')[1..] == Split(rest, ' ');
    }
  }

  /** getInitials (NavBar.tsx:30-36): the first two word starts of the name, upper-cased. */
  function Initials(name: string): (r: string)
    ensures |r| <= 2
    ensures var starts := WordStarts(name, true);
      r == if |starts| <= 2 then starts else starts[..2]
  {
    var letters := FirstLetters(Split(name, ' '));
    FirstLettersAreWordStarts(name);
    if |letters| <= 2 then letters else letters[..2]
  }

  /** The avatar shows initials only for a user with a non-empty name, an icon otherwise
      (NavBar.tsx:66, 140). */
  function AvatarText(user: Option<AuthContext.User>): (t: Option<string>)
    ensures t.Some? <==> user.Some? && user.value.name != ""
    ensures t.Some? ==> t.value == Initials(user.value.name)
  {
    if user.Some? && user.value.name != "" then Some(Initials(user.value.name)) else None
  }

  datatype Link = DashboardLink | ProfileLink | LogOut | SignIn | CreateAccount

  /** The desktop links (NavBar.tsx:52-111): the account's links when signed in, the
      entrance links otherwise. */
  function DesktopLinks(isAuthenticated: bool): (links: seq<Link>)
    ensures LogOut in links <==> isAuthenticated
    ensures SignIn in links <==> !isAuthenticated
  {
    if isAuthenticated then [DashboardLink, ProfileLink, LogOut] else [SignIn, CreateAccount]
  }

  /** The mobile menu (NavBar.tsx:132-192): the desktop links while it is open, nothing when closed. */
  function MobileLinks(isAuthenticated: bool, isMenuOpen: bool): (links: seq<Link>)
    ensures isMenuOpen ==> links == DesktopLinks(isAuthenticated)
    ensures !isMenuOpen ==> links == []
  {
    if isMenuOpen then DesktopLinks(isAuthenticated) else []
  }

  /** Signing out from the bar swaps the account's links for the entrance links. */
  lemma LogoutShowsSignIn(s: AuthContext.Session)
    ensures DesktopLinks(AuthContext.IsAuthenticated(AuthContext.SignedOut(s))) == [SignIn, CreateAccount]
  {
  }

  /** The bar's state. */
  class NavBarState {
    var isMenuOpen: bool

    constructor ()
      ensures !isMenuOpen
    {
      isMenuOpen := false;
    }

    /** toggleMenu (NavBar.tsx:26-28). */
    method ToggleMenu()
      modifies this
      ensures isMenuOpen == !old(isMenuOpen)
    {
      isMenuOpen := !isMenuOpen;
    }

    /** A mobile link (NavBar.tsx:151, 158, 178, 184): following it closes the menu. */
    method FollowMobileLink()
      modifies this
      ensures !isMenuOpen
    {
      isMenuOpen := false;
    }

    /** The desktop "Log out" item (NavBar.tsx:90). */
    method DesktopLogout(auth: AuthContext.AuthProvider) returns (nav: Path)
      modifies auth
      ensures auth.State() == AuthContext.SignedOut(old(auth.State())) && nav == ToLogin
      ensures isMenuOpen == old(isMenuOpen)
    {
      nav := auth.Logout();
    }

    /** The mobile "Log out" button (NavBar.tsx:165-168): signs out and closes the menu. */
    method MobileLogout(auth: AuthContext.AuthProvider) returns (nav: Path)
      modifies this, auth
      ensures auth.State() == AuthContext.SignedOut(old(auth.State())) && nav == ToLogin
      ensures !isMenuOpen
    {
      nav := auth.Logout();
      isMenuOpen := false;
    }
  }
}
