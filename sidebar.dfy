/** The navigation sidebar of the admin portal (`Sidebar`): the menu entries
    the signed-in role may see, and the role caption. */
module Sidebar {
  import opened Common

  /** A menu entry: its title, its route and the roles allowed to see it. */
  datatype MenuItem = MenuItem(title: string, href: string, roles: seq<string>)

  /** The fixed menu, in display order. */
  const MenuItems: seq<MenuItem> := [
    MenuItem("Dashboard", "/dashboard", ["super_admin", "operations_staff", "dispatch_agent", "support_agent"]),
    MenuItem("Live Map", "/live-map", ["super_admin", "operations_staff", "dispatch_agent"]),
    MenuItem("Call Center", "/call-center", ["super_admin", "dispatch_agent"]),
    MenuItem("Drivers", "/drivers", ["super_admin", "operations_staff"]),
    MenuItem("Passengers", "/passengers", ["super_admin", "operations_staff"]),
    MenuItem("Trips", "/trips", ["super_admin", "operations_staff", "dispatch_agent"]),
    MenuItem("Wallet & Transactions", "/wallet", ["super_admin", "operations_staff"]),
    MenuItem("Notifications", "/notifications", ["super_admin", "operations_staff"]),
    MenuItem("Support Tickets", "/support", ["super_admin", "support_agent"]),
    MenuItem("Settings", "/settings", ["super_admin"]),
    MenuItem("Admin Roles", "/admin-roles", ["super_admin"])
  ]

  /** The roles named anywhere in the menu. */
  const KnownRoles: set<string> := {"super_admin", "operations_staff", "dispatch_agent", "support_agent"}

  predicate AllowedFor(role: string, item: MenuItem) {
    role in item.roles
  }

  /** `filteredMenuItems` */
  function VisibleItems(role: string): seq<MenuItem> {
    Filter(MenuItems, (item: MenuItem) => AllowedFor(role, item))
  }

  /** The sidebar shows exactly the entries whose roles include the role, in
      menu order. */
  lemma VisibleItemsSelection(role: string, item: MenuItem)
    ensures item in VisibleItems(role) <==> item in MenuItems && role in item.roles
    ensures IsSubsequence(VisibleItems(role), MenuItems)
  {
    if item in MenuItems && role in item.roles {
      var k :| 0 <= k < |MenuItems| && MenuItems[k] == item;
      assert MenuItems[k] in VisibleItems(role);
    }
    if item in VisibleItems(role) {
      var k :| 0 <= k < |VisibleItems(role)| && VisibleItems(role)[k] == item;
    }
  }

  /** A super admin sees the whole menu, all eleven entries. */
  lemma SuperAdminSeesAll()
    ensures VisibleItems("super_admin") == MenuItems && |MenuItems| == 11
  {
    forall i | 0 <= i < |MenuItems| ensures AllowedFor("super_admin", MenuItems[i]) {
      var roles := MenuItems[i].roles;
      assert roles[0] == "super_admin";
      assert roles[0] in roles;
    }
    FilterAll(MenuItems, (item: MenuItem) => AllowedFor("super_admin", item));
  }

  /** Settings and Admin Roles, the last two entries, are shown to super
      admins only. */
  lemma SettingsAndAdminRolesSuperAdminOnly(role: string)
    ensures MenuItems[9].title == "Settings" && MenuItems[10].title == "Admin Roles"
    ensures MenuItems[9] in VisibleItems(role) ==> role == "super_admin"
    ensures MenuItems[10] in VisibleItems(role) ==> role == "super_admin"
  {
    var settings, adminRoles := MenuItems[9], MenuItems[10];
    assert settings.roles == ["super_admin"] && adminRoles.roles == ["super_admin"];
    VisibleItemsSelection(role, settings);
    VisibleItemsSelection(role, adminRoles);
  }

  /** A role that no entry names sees an empty menu. */
  lemma UnknownRoleSeesNothing(role: string)
    requires role !in KnownRoles
    ensures VisibleItems(role) == []
  {
    forall i | 0 <= i < |MenuItems|
      ensures !AllowedFor(role, MenuItems[i])
    {
      assert forall r :: r in MenuItems[i].roles ==> r in KnownRoles;
    }
    FilterNone(MenuItems, (item: MenuItem) => AllowedFor(role, item));
  }

  /** The role caption: `super_admin` reads `super admin`, and only the first
      underscore of a role is replaced. */
  function RoleLabel(role: string): string {
    ReplaceFirst(role, '_', ' ')
  }

  /** The caption of a role replaces its first underscore with a space and
      keeps the rest: `super_admin` reads `super admin`, while a role with two
      underscores would keep the second. */
  lemma RoleLabelFirstUnderscore(before: string, after: string)
    requires '_' !in before
    ensures RoleLabel(before + "_" + after) == before + " " + after
    ensures RoleLabel("super_admin") == "super admin"
  {
    ReplaceFirstAt(before, after, '_', ' ');
    ReplaceFirstAt("super", "admin", '_', ' ');
    assert "super" + "_" + "admin" == "super_admin";
  }
}
