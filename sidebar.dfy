/** The navigation menu of src/components/Sidebar.tsx: the current
    section read from the pathname, the active-item rule and the link of
    each item. */
module Sidebar {
  import Paths

  datatype MenuItem = MenuItem(id: string, title: string)

  /** The five menu entries, in display order. */
  const MenuItems: seq<MenuItem> := [
    MenuItem("dashboard", "Dashboard"),
    MenuItem("campaigns", "Campaigns"),
    MenuItem("contacts", "Contacts"),
    MenuItem("templates", "Templates"),
    MenuItem("settings", "Settings")
  ]

  /** `location.pathname.split('/')[1] || 'dashboard'`. */
  function CurrentPath(pathname: string): string {
    Paths.SegmentOr(pathname, "dashboard")
  }

  predicate IsActive(pathname: string, item: MenuItem) {
    CurrentPath(pathname) == item.id
  }

  /** The `to` of an item's link. */
  function LinkTarget(item: MenuItem): string {
    "/" + item.id
  }

  /** The menu ids are distinct, so on any pathname at most one item is
      active. */
  lemma AtMostOneActive(pathname: string, i: nat, j: nat)
    requires i < j < |MenuItems|
    ensures !(IsActive(pathname, MenuItems[i]) && IsActive(pathname, MenuItems[j]))
  {
  }

  /** An item is active exactly on its own section, nested paths
      included: for `/<id>` followed by nothing or by a further segment. */
  lemma ActiveOnOwnSection(k: nat, rest: string)
    requires k < |MenuItems|
    requires rest == "" || rest[0] == '/'
    ensures IsActive(LinkTarget(MenuItems[k]) + rest, MenuItems[k])
    ensures forall j :: 0 <= j < |MenuItems| && j != k ==>
      !IsActive(LinkTarget(MenuItems[k]) + rest, MenuItems[j])
  {
    var id := MenuItems[k].id;
    assert '/' !in id && id != "";
    Paths.SegmentOfAbsolutePath(id, rest, "dashboard");
  }

  /** On `/` (and on an empty pathname) the Dashboard item is active. */
  lemma DashboardActiveAtRoot()
    ensures IsActive("/", MenuItems[0])
    ensures IsActive("", MenuItems[0])
  {
    Paths.RootGivesFallback("dashboard");
  }

  /** `/campaigns/x` keeps the Campaigns item active. */
  lemma NestedPathUsesFirstSegment()
    ensures CurrentPath("/campaigns/x") == "campaigns"
  {
    Paths.SegmentOfAbsolutePath("campaigns", "/x", "dashboard");
    assert "/" + "campaigns" + "/x" == "/campaigns/x";
  }
}
