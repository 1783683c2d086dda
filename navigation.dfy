/** The role-keyed navigation menus: the bottom bar and the sidebar of the
    mobile layout. Guardians get their own lists; every other role shares one. */
module Navigation {
  import opened Wrappers
  import opened Types

  datatype NavItem = NavItem(path: string, text: string)

  predicate DistinctPaths(items: seq<NavItem>) {
    forall i, j :: 0 <= i < j < |items| ==> items[i].path != items[j].path
  }

  function Paths(items: seq<NavItem>): (ps: seq<string>)
    ensures |ps| == |items|
    ensures forall i :: 0 <= i < |items| ==> ps[i] == items[i].path
  {
    if items == [] then [] else [items[0].path] + Paths(items[1..])
  }

  /** The bottom bar's `navItems`. */
  function BottomNavItems(role: Role): (items: seq<NavItem>)
    ensures role == Guardian ==>
              Paths(items) == ["/dashboard", "/guardian/children", "/guardian/finance", "/announcements", "/profile"]
    ensures role != Guardian ==> Paths(items) == ["/dashboard", "/schedule", "/announcements", "/profile"]
  {
    if role == Guardian then
      [NavItem("/dashboard", "Início"), NavItem("/guardian/children", "Filhos"),
       NavItem("/guardian/finance", "Financeiro"), NavItem("/announcements", "Avisos"),
       NavItem("/profile", "Perfil")]
    else
      [NavItem("/dashboard", "Início"), NavItem("/schedule", "Horário"),
       NavItem("/announcements", "Avisos"), NavItem("/profile", "Perfil")]
  }

  /** An item is highlighted when the current path equals its path. */
  predicate IsActive(pathname: string, item: NavItem) {
    pathname == item.path
  }

  datatype BottomEntry = BottomEntry(item: NavItem, active: bool)

  function MarkActive(items: seq<NavItem>, pathname: string): (entries: seq<BottomEntry>)
    ensures |entries| == |items|
    ensures forall i :: 0 <= i < |items| ==>
              entries[i].item == items[i] && (entries[i].active <==> IsActive(pathname, items[i]))
  {
    if items == [] then []
    else [BottomEntry(items[0], IsActive(pathname, items[0]))] + MarkActive(items[1..], pathname)
  }

  /** `BottomNavigation`: nothing without a user; otherwise the role's items,
      each marked active or not. */
  function BottomNavigation(user: Option<User>, pathname: string): (v: Option<seq<BottomEntry>>)
    ensures v.None? <==> user.None?
    ensures v.Some? ==>
              |v.value| == |BottomNavItems(user.value.role)| &&
              forall i :: 0 <= i < |v.value| ==> v.value[i].item == BottomNavItems(user.value.role)[i]
  {
    if user.None? then None else Some(MarkActive(BottomNavItems(user.value.role), pathname))
  }

  /** Both bottom lists start with the dashboard, end with the profile and use
      each path once; student, teacher, admin and secretary get the same list. */
  lemma BottomNavShape(role: Role)
    ensures var items := BottomNavItems(role);
            items[0].path == "/dashboard" && items[|items| - 1].path == "/profile" && DistinctPaths(items)
    ensures role != Guardian ==> BottomNavItems(role) == BottomNavItems(Student)
  {
  }

  /** With distinct paths at most one entry is highlighted. */
  lemma {:induction false} AtMostOneActive(user: Option<User>, pathname: string)
    requires user.Some?
    ensures var entries := BottomNavigation(user, pathname).value;
            forall i, j :: 0 <= i < j < |entries| ==> !(entries[i].active && entries[j].active)
  {
    BottomNavShape(user.value.role);
  }

  /** The sidebar's `sidebarMenuItems` for guardians and for every other role. */
  const GuardianSidebar: seq<NavItem> :=
    [NavItem("/dashboard", "Dashboard"), NavItem("/guardian/children", "Meus Filhos"),
     NavItem("/guardian/finance", "Financeiro"), NavItem("/announcements", "Avisos"),
     NavItem("/profile", "Perfil"), NavItem("/settings", "Configurações")]
  const DefaultSidebar: seq<NavItem> :=
    [NavItem("/dashboard", "Dashboard"), NavItem("/schedule", "Horário"),
     NavItem("/grades", "Notas"), NavItem("/announcements", "Avisos"),
     NavItem("/profile", "Perfil"), NavItem("/settings", "Configurações")]

  /** The sidebar's `sidebarMenuItems`. */
  function SidebarItems(role: Role): (items: seq<NavItem>)
    ensures role == Guardian ==>
              Paths(items) == ["/dashboard", "/guardian/children", "/guardian/finance", "/announcements", "/profile", "/settings"]
    ensures role != Guardian ==>
              Paths(items) == ["/dashboard", "/schedule", "/grades", "/announcements", "/profile", "/settings"]
  {
    if role == Guardian then GuardianSidebar else DefaultSidebar
  }

  datatype MenuEntry = Link(item: NavItem) | LogoutEntry

  /** What `MobileLayout` renders: only the outlet without a user, otherwise a
      menu of the role's links. */
  datatype LayoutView = OutletOnly | WithMenu(menu: seq<MenuEntry>)

  function Links(items: seq<NavItem>): (entries: seq<MenuEntry>)
    ensures |entries| == |items|
    ensures forall i :: 0 <= i < |items| ==> entries[i] == Link(items[i])
  {
    if items == [] then [] else [Link(items[0])] + Links(items[1..])
  }

  /** `MobileLayout`: the sign-out entry always follows the role's links. */
  function MobileLayout(user: Option<User>): (v: LayoutView)
    ensures v.OutletOnly? <==> user.None?
    ensures v.WithMenu? ==>
              |v.menu| == |SidebarItems(user.value.role)| + 1 &&
              v.menu[|v.menu| - 1] == LogoutEntry &&
              forall i :: 0 <= i < |v.menu| - 1 ==> v.menu[i] == Link(SidebarItems(user.value.role)[i])
  {
    if user.None? then OutletOnly else WithMenu(Links(SidebarItems(user.value.role)) + [LogoutEntry])
  }

  /** Both sidebar lists have six destinations and share the dashboard,
      announcements, profile and settings entries at positions 0, 3, 4 and 5. */
  lemma SidebarShape(role: Role)
    ensures var ps := Paths(SidebarItems(role));
            |ps| == 6 && ps[0] == "/dashboard" && ps[3] == "/announcements" &&
            ps[4] == "/profile" && ps[5] == "/settings"
  {
  }

  /** Neither sidebar list names a destination twice. */
  lemma SidebarDistinct()
    ensures DistinctPaths(GuardianSidebar) && DistinctPaths(DefaultSidebar)
  {
  }

  /** Every bottom-bar destination of a role is also in that role's sidebar. */
  lemma BottomPathsInSidebar(role: Role)
    ensures forall i :: 0 <= i < |BottomNavItems(role)| ==>
              BottomNavItems(role)[i].path in Paths(SidebarItems(role))
  {
  }
}
