/**
 * The navigation header: which routes the menus show for the signed-in user's
 * role, the login/logout item, and the state of the side panel on small screens.
 */
module Header {
  import opened Wrappers
  import opened Routes
  import opened Seqs

  /** The role's routes when the user has a non-empty role with an entry, otherwise none. */
  function RoleRoutesFor(config: Config, userRole: Option<Role>): (r: seq<Route>)
    ensures userRole.None? || userRole.value == "" ==> r == []
    ensures userRole.Some? && userRole.value != "" ==> r == RoutesOf(config.roleRoutes, userRole.value)
  {
    if userRole.Some? && userRole.value != "" then RoutesOf(config.roleRoutes, userRole.value) else []
  }

  /** `combinedRoutes`: every public route (hidden ones included), then the role's routes. */
  function CombinedRoutes(config: Config, userRole: Option<Role>): (r: seq<Route>)
    ensures |r| == |config.publicRoutes| + |RoleRoutesFor(config, userRole)|
    ensures r[..|config.publicRoutes|] == config.publicRoutes
    ensures r[|config.publicRoutes|..] == RoleRoutesFor(config, userRole)
  {
    config.publicRoutes + RoleRoutesFor(config, userRole)
  }

  predicate InMainMenu(rt: Route) { !rt.hidden && rt.viewHeader != Some(false) }

  predicate InDropdown(rt: Route) { rt.hidden }

  /** A visible route that asks not to be in the header. */
  predicate IsHeaderless(rt: Route) { !rt.hidden && rt.viewHeader == Some(false) }

  /** `mainRoutes`. */
  function MainRoutes(config: Config, userRole: Option<Role>): (r: seq<Route>)
    ensures forall rt :: rt in r <==>
      rt in CombinedRoutes(config, userRole) && !rt.hidden && rt.viewHeader != Some(false)
    ensures IsSubsequence(r, CombinedRoutes(config, userRole))
  {
    Filter(CombinedRoutes(config, userRole), InMainMenu)
  }

  /** `dropdownRoutes`. */
  function DropdownRoutes(config: Config, userRole: Option<Role>): (r: seq<Route>)
    ensures forall rt :: rt in r <==> rt in CombinedRoutes(config, userRole) && rt.hidden
    ensures IsSubsequence(r, CombinedRoutes(config, userRole))
  {
    Filter(CombinedRoutes(config, userRole), InDropdown)
  }

  /**
   * The two menus and the header-less visible routes partition the combined
   * routes: each occurrence of a route lands in exactly one of the three.
   */
  lemma MenusPartitionRoutes(config: Config, userRole: Option<Role>)
    ensures var all := CombinedRoutes(config, userRole);
      multiset(MainRoutes(config, userRole)) + multiset(DropdownRoutes(config, userRole)) +
      multiset(Filter(all, IsHeaderless)) == multiset(all)
    ensures forall rt :: !(rt in MainRoutes(config, userRole) && rt in DropdownRoutes(config, userRole))
  {
    var all := CombinedRoutes(config, userRole);
    var m, d, h := MainRoutes(config, userRole), DropdownRoutes(config, userRole), Filter(all, IsHeaderless);
    forall rt ensures (multiset(m) + multiset(d) + multiset(h))[rt] == multiset(all)[rt] {
      assert multiset(m)[rt] == if InMainMenu(rt) then multiset(all)[rt] else 0;
      assert multiset(d)[rt] == if InDropdown(rt) then multiset(all)[rt] else 0;
      assert multiset(h)[rt] == if IsHeaderless(rt) then multiset(all)[rt] else 0;
    }
  }

  /** Without a role entry only the public routes are offered. */
  lemma NoRoleOnlyPublic(config: Config, userRole: Option<Role>)
    requires userRole.None? ||
             forall i :: 0 <= i < |config.roleRoutes| ==> config.roleRoutes[i].0 != userRole.value
    ensures MainRoutes(config, userRole) == Filter(config.publicRoutes, InMainMenu)
    ensures DropdownRoutes(config, userRole) == Filter(config.publicRoutes, InDropdown)
  {
    assert CombinedRoutes(config, userRole) == config.publicRoutes + [];
    assert config.publicRoutes + [] == config.publicRoutes;
  }

  /** The single account item at the end of the menus. */
  datatype AccountItem = LogoutItem | LoginItem(target: string)

  /** Logging out for a signed-in user, otherwise a link to the login page at "/Login". */
  function AccountItemFor(isLoggedIn: bool): (item: AccountItem)
    ensures item.LogoutItem? <==> isLoggedIn
    ensures item.LoginItem? ==> item.target == "/Login"
  {
    if isLoggedIn then LogoutItem else LoginItem("/Login")
  }

  /** The `showSidebar` state of the off-canvas menu. */
  class Sidebar {
    var showSidebar: bool

    constructor ()
      ensures !showSidebar
    {
      showSidebar := false;
    }

    /** `handleToggleSidebar`. */
    method HandleToggleSidebar()
      modifies this
      ensures showSidebar == !old(showSidebar)
    {
      showSidebar := !showSidebar;
    }

    /** `handleRoute`: navigation (left out) and closing the panel. */
    method HandleRoute(path: string)
      modifies this
      ensures !showSidebar
    {
      if showSidebar {
        showSidebar := false;
      }
    }

    /**
     * A click on an off-canvas item runs `handleRoute` and then
     * `handleToggleSidebar` in one handler; both read the value of
     * `showSidebar` the component was rendered with, and the later update wins.
     */
    method HandleOffcanvasItem(path: string)
      modifies this
      ensures showSidebar == !old(showSidebar)
      ensures old(showSidebar) ==> !showSidebar
    {
      var rendered := showSidebar;
      if rendered {
        showSidebar := false;
      }
      showSidebar := !rendered;
    }
  }
}
