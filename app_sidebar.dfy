/** The navigation sidebar (src/components/layout/app-sidebar.tsx): the navigation items
    and their active rule, and the signed-in user's label, role icon and avatar initial. */
module AppSidebar {
  import opened Types
  import opened Strings

  datatype NavItem = NavItem(href: string, labelText: string)

  const NavItems: seq<NavItem> := [
    NavItem("/dashboard", "Dashboard"),
    NavItem("/calendar", "Calendar"),
    NavItem("/forecasting", "AI Forecast"),
    NavItem("/reports", "Reports"),
    NavItem("/business-analysis", "AI Business Analysis"),
    NavItem("/economic-analysis", "Economic Analysis"),
    NavItem("/strategic-pricing", "Strategic Pricing")
  ]

  /** The `isActive` rule of a navigation item. */
  predicate IsActive(item: NavItem, pathname: string) {
    pathname == item.href || (item.href == "/dashboard" && StartsWith(pathname, "/dashboard"))
  }

  /** The indices of the active navigation items. */
  function ActiveItems(items: seq<NavItem>, pathname: string): (r: set<nat>)
    ensures forall i: nat :: i in r <==> i < |items| && IsActive(items[i], pathname)
  {
    set i: nat | i < |items| && IsActive(items[i], pathname)
  }

  /** On any path at most one item of the sidebar is active: the dashboard item for every
      path under `/dashboard`, otherwise the item whose href is the path itself. */
  lemma ActiveItemUnique(pathname: string, suffix: string)
    ensures forall i, j :: i in ActiveItems(NavItems, pathname) && j in ActiveItems(NavItems, pathname) ==> i == j
    ensures 0 in ActiveItems(NavItems, "/dashboard" + suffix)
    ensures forall i :: 0 < i < |NavItems| ==> (i in ActiveItems(NavItems, pathname) <==> pathname == NavItems[i].href)
  {
    assert ("/dashboard" + suffix)[..10] == "/dashboard";
    forall i, j | i in ActiveItems(NavItems, pathname) && j in ActiveItems(NavItems, pathname)
      ensures i == j
    {
      if i != 0 && j != 0 {
        assert pathname == NavItems[i].href && pathname == NavItems[j].href;
      } else {
        if i != 0 { OnlyDashboardUnderDashboard(i); }
        if j != 0 { OnlyDashboardUnderDashboard(j); }
      }
    }
  }

  /** No other item's href lies under `/dashboard`. */
  lemma OnlyDashboardUnderDashboard(k: nat)
    requires 0 < k < |NavItems|
    ensures !StartsWith(NavItems[k].href, "/dashboard")
  {
    if |NavItems[k].href| >= 10 {
      assert NavItems[k].href[1] != 'd';
      assert NavItems[k].href[..10][1] != "/dashboard"[1];
    }
  }

  /** `getRoleDisplayName` */
  function RoleDisplayName(roleType: Option<UserRoleType>, specificRole: Option<UserSpecificRole>): (r: string)
    ensures roleType == Some(AdministratorRole) ==> r == "Administrator"
    ensures roleType != Some(AdministratorRole) && specificRole.Some? ==> r == SpecificRoleValue(specificRole.value)
    ensures roleType != Some(AdministratorRole) && specificRole.None? ==> r == "User"
  {
    if roleType == Some(AdministratorRole) then "Administrator"
    else if specificRole.Some? then SpecificRoleValue(specificRole.value)
    else "User"
  }

  /** The role label is never empty, and tells the roles apart: two users with different
      labels have a different role. */
  lemma RoleDisplayNameDistinct(r1: Option<UserRoleType>, s1: Option<UserSpecificRole>, r2: Option<UserRoleType>, s2: Option<UserSpecificRole>)
    requires r1 != Some(AdministratorRole) && r2 != Some(AdministratorRole)
    ensures RoleDisplayName(r1, s1) != ""
    ensures RoleDisplayName(r1, s1) == RoleDisplayName(r2, s2) ==> s1 == s2
  {
    if s1.Some? && s2.Some? && s1 != s2 {
      SpecificRoleEnumeration(s1.value, s2.value, "");
    }
    if s1.Some? { assert SpecificRoleValue(s1.value) != "User"; }
    if s2.Some? { assert SpecificRoleValue(s2.value) != "User"; }
  }

  datatype RoleIcon = Briefcase | Banknote | PackageSearch | TrendingUp | TargetIcon | ShieldCheck | UserCircle

  /** `roleIcons[specificRole]` for the five specific roles. */
  function SpecificRoleIcon(r: UserSpecificRole): RoleIcon {
    match r
    case CEO => Briefcase
    case CFO => Banknote
    case InventoryHead => PackageSearch
    case SalesManager => TrendingUp
    case CMO => TargetIcon
  }

  /** The icon beside the role label: the administrator icon, else the specific role's
      icon, else the default one. */
  function CurrentRoleIcon(roleType: Option<UserRoleType>, specificRole: Option<UserSpecificRole>): (i: RoleIcon)
    ensures roleType == Some(AdministratorRole) ==> i == ShieldCheck
    ensures roleType != Some(AdministratorRole) && specificRole.Some? ==> i == SpecificRoleIcon(specificRole.value)
    ensures roleType != Some(AdministratorRole) && specificRole.None? ==> i == UserCircle
  {
    if roleType == Some(AdministratorRole) then ShieldCheck
    else if specificRole.Some? then SpecificRoleIcon(specificRole.value)
    else UserCircle
  }

  /** Every specific role has its own icon, different from the administrator's and the
      default one, so the icon and the label always name the same role. */
  lemma RoleIconMatchesLabel(r1: Option<UserRoleType>, s1: Option<UserSpecificRole>, r2: Option<UserRoleType>, s2: Option<UserSpecificRole>)
    ensures CurrentRoleIcon(r1, s1) == CurrentRoleIcon(r2, s2) <==> RoleDisplayName(r1, s1) == RoleDisplayName(r2, s2)
  {
    if r1 != Some(AdministratorRole) && r2 != Some(AdministratorRole) {
      RoleDisplayNameDistinct(r1, s1, r2, s2);
    }
    if s1.Some? { SpecificRoleEnumeration(s1.value, s1.value, ""); assert SpecificRoleValue(s1.value) != "Administrator"; }
    if s2.Some? { SpecificRoleEnumeration(s2.value, s2.value, ""); assert SpecificRoleValue(s2.value) != "Administrator"; }
  }

  /** The ` of UrbanCart` suffix after the role label. */
  function RoleSuffix(roleType: Option<UserRoleType>): (r: string)
    ensures r != "" <==> roleType == Some(UserRole)
  {
    if roleType == Some(UserRole) then " of UrbanCart" else ""
  }

  /** ASCII upper-casing of one character. */
  function UpperChar(c: char): (u: char)
    ensures 'a' <= c <= 'z' ==> 'A' <= u <= 'Z' && u as int == c as int - 32
    ensures !('a' <= c <= 'z') ==> u == c
  {
    if 'a' <= c <= 'z' then (c as int - 32) as char else c
  }

  /** `username.charAt(0).toUpperCase()`: the upper-cased first character, or the empty
      string for an empty username. */
  function AvatarInitial(username: string): (r: string)
    ensures username == [] <==> r == []
    ensures username != [] ==> r == [UpperChar(username[0])]
  {
    if username == [] then [] else [UpperChar(username[0])]
  }

  /** Two usernames that differ only in the case of their first letter get the same
      initial, and the initial is never a lower-case letter. */
  lemma AvatarInitialCaseInsensitive(name: string, c: char)
    requires 'a' <= c <= 'z'
    ensures AvatarInitial([c] + name) == AvatarInitial([(c as int - 32) as char] + name)
    ensures forall k :: 0 <= k < |AvatarInitial(name)| ==> !('a' <= AvatarInitial(name)[k] <= 'z')
  {
  }
}
