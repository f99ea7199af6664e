/**
 * The side menu of navigation.ts: eight items in a fixed order, each
 * naming the roles that see it, and the per-role menu that keeps the items
 * whose roles include the given one.
 */
module Navigation {
  import opened Seqs
  import opened Domain

  /** A menu entry; the labels and the icon are presentation and are left out. */
  datatype NavItem = NavItem(key: string, path: string, roles: seq<Role>)

  const AllRoles: seq<Role> := [Admin, Manager, Ops, Finance, Sales]
  const AdminOnly: seq<Role> := [Admin]

  /** `navigationItems`, in declaration order. */
  function NavigationItems(): (r: seq<NavItem>)
    ensures |r| == 8
    ensures forall k :: 0 <= k < 7 ==> r[k].roles == AllRoles && |r[k].key| != 5
    ensures r[7].roles == AdminOnly && r[7].key == "admin"
  {
    [NavItem("dashboard", "/dashboard", AllRoles),
     NavItem("jobs", "/jobs", AllRoles),
     NavItem("tracking", "/tracking", AllRoles),
     NavItem("invoices", "/invoices", AllRoles),
     NavItem("reports", "/reports", AllRoles),
     NavItem("masterData", "/master-data", AllRoles),
     NavItem("maintenance", "/maintenance", AllRoles),
     NavItem("admin", "/admin", AdminOnly)]
  }

  function SeenBy(role: Role): NavItem -> bool
  {
    (it: NavItem) => role in it.roles
  }

  /** `getNavigationForRole`. */
  function NavigationForRole(role: Role): seq<NavItem>
  {
    Filter(NavigationItems(), SeenBy(role))
  }

  /**
   * The menu of a role holds exactly the items whose roles include it, in
   * declaration order, so every item shown lists the role.
   */
  lemma NavigationForRoleSpec(role: Role, it: NavItem)
    ensures it in NavigationForRole(role) <==> it in NavigationItems() && role in it.roles
    ensures Subsequence(NavigationForRole(role), NavigationItems())
    ensures forall k :: 0 <= k < |NavigationForRole(role)| ==> role in NavigationForRole(role)[k].roles
  {
    FilterMember(NavigationItems(), SeenBy(role), it);
    FilterSubsequence(NavigationItems(), SeenBy(role));
  }

  /** An administrator sees all eight items. */
  lemma AdminSeesEverything()
    ensures NavigationForRole(Admin) == NavigationItems()
    ensures |NavigationForRole(Admin)| == 8
  {
    MenuOfAdmin(NavigationItems());
  }

  /** Every other role sees the first seven items: everything but the settings entry. */
  lemma OthersSeeAllButAdmin(role: Role)
    requires role != Admin
    ensures NavigationForRole(role) == NavigationItems()[..7]
    ensures |NavigationForRole(role)| == 7
    ensures forall k :: 0 <= k < 7 ==> NavigationForRole(role)[k].key != "admin"
  {
    var items := NavigationItems();
    MenuOfOthers(items, role);
    forall k | 0 <= k < 7 ensures items[..7][k].key != "admin" {
      assert |items[k].key| != |"admin"|;
    }
  }

  lemma MenuOfAdmin(items: seq<NavItem>)
    requires |items| == 8
    requires forall k :: 0 <= k < 7 ==> items[k].roles == AllRoles
    requires items[7].roles == AdminOnly
    ensures Filter(items, SeenBy(Admin)) == items
  {
    assert forall k :: 0 <= k < |items| ==> SeenBy(Admin)(items[k]) by {
      forall k | 0 <= k < |items| ensures SeenBy(Admin)(items[k]) {
        assert items[k].roles[0] == Admin;
      }
    }
    FilterAll(items, SeenBy(Admin));
  }

  lemma MenuOfOthers(items: seq<NavItem>, role: Role)
    requires role != Admin && |items| == 8
    requires forall k :: 0 <= k < 7 ==> items[k].roles == AllRoles
    requires items[7].roles == AdminOnly
    ensures Filter(items, SeenBy(role)) == items[..7]
  {
    AllButAdminSeen(items[..7], role);
    AdminItemHidden(items[7], role);
    assert items == items[..7] + [items[7]];
    FilterAppend(items[..7], [items[7]], SeenBy(role));
  }

  lemma AllButAdminSeen(items: seq<NavItem>, role: Role)
    requires forall k :: 0 <= k < |items| ==> items[k].roles == AllRoles
    ensures Filter(items, SeenBy(role)) == items
  {
    FilterAll(items, SeenBy(role));
  }

  lemma AdminItemHidden(it: NavItem, role: Role)
    requires role != Admin && it.roles == AdminOnly
    ensures Filter([it], SeenBy(role)) == []
  {
    FilterNone([it], SeenBy(role));
  }

  function Keys(items: seq<NavItem>): seq<string>
  {
    Map(items, (it: NavItem) => it.key)
  }

  function Paths(items: seq<NavItem>): seq<string>
  {
    Map(items, (it: NavItem) => it.path)
  }

  /** No two items share a key. */
  lemma KeysDistinct()
    ensures Distinct(Keys(NavigationItems()))
  {
  }

  /** No two items share a path. */
  lemma PathsDistinct()
    ensures Distinct(Paths(NavigationItems()))
  {
  }
}
