/**
 * The page header: the title derived from the current path, the mobile
 * menu with its five links, and the search box toggle.
 */
module Header {

  import opened Options
  import opened Text

  const DefaultTitle := "Therapy Management"

  /** `getPageTitle`: a `switch` on the exact pathname. */
  function PageTitle(path: string): string {
    if path == "/" then "Dashboard"
    else if path == "/children" then "My Children"
    else if path == "/sessions" then "Sessions History"
    else if path == "/ai-assistant" then "AI Assistant"
    else if path == "/profile" then "Profile"
    else DefaultTitle
  }

  /** A mobile menu entry: its target path and its text. */
  datatype NavLink = NavLink(to: string, title: string)

  /** The mobile menu, top to bottom. */
  const NavLinks: seq<NavLink> := [
    NavLink("/", "Dashboard"),
    NavLink("/children", "My Children"),
    NavLink("/sessions", "Sessions History"),
    NavLink("/ai-assistant", "AI Assistant"),
    NavLink("/profile", "Profile")
  ]

  /** Reference lookup: the label of the first link whose target is `path`, else the default. */
  function LookUp(links: seq<NavLink>, path: string): string {
    if |links| == 0 then DefaultTitle
    else if links[0].to == path then links[0].title
    else LookUp(links[1..], path)
  }

  /** The title switch and the menu agree: the title is the label of the link to the current path. */
  lemma PageTitleIsLinkLabel(path: string)
    ensures PageTitle(path) == LookUp(NavLinks, path)
  {
    var l1 := NavLinks[1..];
    var l2 := l1[1..];
    var l3 := l2[1..];
    var l4 := l3[1..];
    assert l4 == [NavLink("/profile", "Profile")] && l4[1..] == [];
    assert LookUp(l4, path) == if path == "/profile" then "Profile" else DefaultTitle;
    assert LookUp(l3, path) == if path == "/ai-assistant" then "AI Assistant" else LookUp(l4, path);
    assert LookUp(l2, path) == if path == "/sessions" then "Sessions History" else LookUp(l3, path);
    assert LookUp(l1, path) == if path == "/children" then "My Children" else LookUp(l2, path);
  }

  /** The titles of the five known paths. */
  lemma KnownTitles()
    ensures PageTitle("/") == "Dashboard" && PageTitle("/children") == "My Children"
    ensures PageTitle("/sessions") == "Sessions History" && PageTitle("/ai-assistant") == "AI Assistant"
    ensures PageTitle("/profile") == "Profile"
  {
  }

  /** Every path without a link gets the default title; matching is exact, not by prefix. */
  lemma UnknownPathDefault(path: string)
    requires forall i :: 0 <= i < |NavLinks| ==> NavLinks[i].to != path
    ensures PageTitle(path) == DefaultTitle
  {
    assert NavLinks[0].to != path && NavLinks[1].to != path && NavLinks[2].to != path;
    assert NavLinks[3].to != path && NavLinks[4].to != path;
  }

  /** A child's detail path is not the children page. */
  lemma DetailPathGetsDefault()
    ensures PageTitle("/children/1") == DefaultTitle
  {
  }

  /** A link is highlighted when the pathname is exactly its target. */
  predicate IsActive(path: string, link: NavLink) {
    path == link.to
  }

  /** The targets are distinct, so at most one link is highlighted, and exactly one on a known path. */
  lemma AtMostOneActive(path: string)
    ensures forall i, j ::
              (0 <= i < |NavLinks| && 0 <= j < |NavLinks| && IsActive(path, NavLinks[i]) && IsActive(path, NavLinks[j]))
              ==> i == j
    ensures PageTitle(path) != DefaultTitle <==> exists i :: 0 <= i < |NavLinks| && IsActive(path, NavLinks[i])
  {
    if PageTitle(path) != DefaultTitle {
      if path == "/" { assert IsActive(path, NavLinks[0]); }
      else if path == "/children" { assert IsActive(path, NavLinks[1]); }
      else if path == "/sessions" { assert IsActive(path, NavLinks[2]); }
      else if path == "/ai-assistant" { assert IsActive(path, NavLinks[3]); }
      else { assert IsActive(path, NavLinks[4]); }
    }
  }

  // ---------------------------------------------------------------- state

  /**
   * The routes whose page renders this header: the therapist's four pages,
   * the profile and the parent dashboard. The "Dashboard" link's target "/"
   * is routed to the landing page, which draws its own markup instead; the
   * therapist dashboard is at "/therapist/dashboard".
   */
  const HeaderPaths: set<string> :=
    {"/therapist/dashboard", "/children", "/sessions", "/ai-assistant", "/profile", "/parent/dashboard"}

  /**
   * The route a pathname selects. The router matches without regard to case
   * and accepts one trailing slash.
   */
  function RouteKey(path: string): (r: string)
    ensures |r| <= |path|
  {
    var low := Lower(path);
    if |low| > 1 && low[|low| - 1] == '/' then low[..|low| - 1] else low
  }

  /** The page on `path` renders this header. */
  predicate OnHeaderPage(path: string) {
    RouteKey(path) in HeaderPaths
  }

  /** Every link but the first leads to a page with this header, under its own route. */
  lemma LinksWithHeader(i: int)
    requires 0 <= i < |NavLinks|
    ensures RouteKey(NavLinks[i].to) == NavLinks[i].to
    ensures OnHeaderPage(NavLinks[i].to) <==> i != 0
  {
    var to := NavLinks[i].to;
    LowerOfLowercase(to);
  }

  /** On the therapist dashboard the title is the default one and no menu link is highlighted. */
  lemma TherapistDashboardUntitled()
    ensures PageTitle("/therapist/dashboard") == DefaultTitle
    ensures forall i :: 0 <= i < |NavLinks| ==> !IsActive("/therapist/dashboard", NavLinks[i])
  {
  }

  /** The parent dashboard renders the header too, with the default title and nothing highlighted. */
  lemma ParentDashboardHasHeader()
    ensures OnHeaderPage("/parent/dashboard")
    ensures PageTitle("/parent/dashboard") == DefaultTitle
    ensures forall i :: 0 <= i < |NavLinks| ==> !IsActive("/parent/dashboard", NavLinks[i])
  {
    LowerOfLowercase("/parent/dashboard");
  }

  /**
   * A differently spelled path reaches the same page and header, but the
   * title and the highlight compare the pathname exactly.
   */
  lemma RouteVariantsKeepHeaderNotTitle(path: string)
    requires path == "/Children" || path == "/children/"
    ensures OnHeaderPage(path) && RouteKey(path) == "/children"
    ensures PageTitle(path) == DefaultTitle
    ensures forall i :: 0 <= i < |NavLinks| ==> !IsActive(path, NavLinks[i])
  {
    if path == "/Children" {
      assert Lower(path) == "/children";
    } else {
      LowerOfLowercase(path);
      assert path[..|path| - 1] == "/children";
    }
  }

  /** The header's state: the route's pathname, the search box and the mobile menu. */
  datatype Bar = Bar(path: string, searchOpen: bool, menuOpen: bool)

  /** The header is on a page whose route renders it. */
  predicate Inv(b: Bar) {
    OnHeaderPage(b.path)
  }

  /** A freshly mounted header on `path`. */
  function Mounted(path: string): Bar {
    Bar(path, false, false)
  }

  datatype Event = MenuButton | OpenSearch | CloseSearch | FollowLink(index: int)

  predicate Enabled(b: Bar, e: Event) {
    match e
    case MenuButton => true
    case OpenSearch => !b.searchOpen
    case CloseSearch => b.searchOpen
    case FollowLink(i) => b.menuOpen && 0 <= i < |NavLinks|
  }

  /**
   * The header after an event, or `None` once it has left the screen.
   * Following a link closes the menu. A link to the page already shown only
   * changes the pathname; a link to another page replaces the page, and
   * with it this header: the new page's header, if it has one, starts
   * closed.
   */
  function Step(b: Bar, e: Event): (r: Option<Bar>)
    requires Enabled(b, e)
    ensures !e.FollowLink? ==> r.Some? && r.value.path == b.path
    ensures e.MenuButton? ==> r.value.menuOpen != b.menuOpen && r.value.searchOpen == b.searchOpen
    ensures e.OpenSearch? || e.CloseSearch? ==> r.value.searchOpen == e.OpenSearch? && r.value.menuOpen == b.menuOpen
    ensures e.FollowLink? && Inv(b) ==> (r.Some? <==> OnHeaderPage(NavLinks[e.index].to))
    ensures e.FollowLink? && r.Some? ==> !r.value.menuOpen && r.value.path == NavLinks[e.index].to
    ensures e.FollowLink? && r.Some? ==>
              (r.value.searchOpen == b.searchOpen <==> !b.searchOpen || RouteKey(NavLinks[e.index].to) == RouteKey(b.path))
    ensures Inv(b) && r.Some? ==> Inv(r.value)
  {
    match e
    case MenuButton => Some(b.(menuOpen := !b.menuOpen))
    case OpenSearch => Some(b.(searchOpen := true))
    case CloseSearch => Some(b.(searchOpen := false))
    case FollowLink(i) =>
      var to := NavLinks[i].to;
      if RouteKey(to) == RouteKey(b.path) then Some(b.(path := to, menuOpen := false))
      else if OnHeaderPage(to) then Some(Mounted(to))
      else None
  }

  /** Two presses of the menu button restore the header. */
  lemma MenuButtonTwice(b: Bar)
    ensures Step(Step(b, MenuButton).value, MenuButton) == Some(b)
  {
  }

  /**
   * After following any link but "Dashboard", that link is the highlighted
   * one and the title is its label; the "Dashboard" link leaves the header.
   */
  lemma FollowLinkHighlights(b: Bar, i: int)
    requires Inv(b) && b.menuOpen && 0 <= i < |NavLinks|
    ensures var r := Step(b, FollowLink(i));
            (r.Some? <==> i != 0)
            && (r.Some? ==> IsActive(r.value.path, NavLinks[i]) && PageTitle(r.value.path) == NavLinks[i].title
                            && !r.value.menuOpen)
  {
    LinksWithHeader(i);
  }
}
