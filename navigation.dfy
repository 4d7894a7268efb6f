/** The side bar (src/components/molecules/Navigation/Navigation.js): three links, the one
    whose path is the current location highlighted, and a logout button for a signed-in user. */
module Navigation {
  import opened Common
  import opened Text

  datatype NavItem = NavItem(path: string, caption: string)

  /** The profile link: the user's own profile, or the login page when nobody is signed in. */
  function ProfilePath(user: Option<User>): (p: string)
    ensures user.Some? ==> p == "/profile/" + user.value.id
    ensures user.None? ==> p == "/login"
  {
    if user.Some? then "/profile/" + user.value.id else "/login"
  }

  /** `navItems`: Home, Create and Profile, in that order. */
  function NavItems(user: Option<User>): (items: seq<NavItem>)
    ensures |items| == 3
    ensures items[0] == NavItem("/", "Home")
    ensures items[1] == NavItem("/create", "Create")
    ensures items[2] == NavItem(ProfilePath(user), "Profile")
  {
    [NavItem("/", "Home"), NavItem("/create", "Create"), NavItem(ProfilePath(user), "Profile")]
  }

  /** `isActive`, with its second disjunct for a path of exactly "/profile". */
  predicate IsActive(pathname: string, path: string) {
    pathname == path || (path == "/profile" && StartsWith(pathname, "/profile"))
  }

  /** No item's path is exactly "/profile", so the prefix branch never fires: an item is
      active exactly when the location equals its path. */
  lemma ActiveIsExactMatch(user: Option<User>, pathname: string, k: nat)
    requires k < 3
    ensures IsActive(pathname, NavItems(user)[k].path) <==> pathname == NavItems(user)[k].path
  {
    var items := NavItems(user);
    if k == 2 && user.Some? {
      assert |items[2].path| == 9 + |user.value.id|;
    } else if k == 2 {
      assert items[2].path[1] == 'l';
    }
  }

  /** At most one item is highlighted at a time. */
  lemma AtMostOneActive(user: Option<User>, pathname: string)
    ensures forall i, j ::
      (0 <= i < 3 && 0 <= j < 3 && IsActive(pathname, NavItems(user)[i].path) && IsActive(pathname, NavItems(user)[j].path))
      ==> i == j
  {
    var items := NavItems(user);
    ActiveIsExactMatch(user, pathname, 0);
    ActiveIsExactMatch(user, pathname, 1);
    ActiveIsExactMatch(user, pathname, 2);
    assert items[0].path != items[1].path by { assert |items[0].path| != |items[1].path|; }
    assert items[2].path != items[0].path && items[2].path != items[1].path by {
      assert items[2].path[1] != '/' && items[2].path[1] != 'c';
    }
  }

  /** The logout button appears only for a signed-in user, and leads to the login page. */
  function LogoutTarget(user: Option<User>): (to: Option<string>)
    ensures to.Some? <==> user.Some?
    ensures to.Some? ==> to.value == "/login"
  {
    if user.Some? then Some("/login") else None
  }
}
