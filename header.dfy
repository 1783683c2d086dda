/** The top bar: page title by path, hidden without a user, avatar initials,
    and the scrolled flag. */
module Header {
  import opened Wrappers
  import opened Types
  import Text
  import Seqs

  /** `getPageTitle()` */
  function PageTitle(path: string): (title: string)
    ensures path == "/dashboard" ==> title == "Dashboard"
    ensures path == "/schedule" ==> title == "Horário"
    ensures path == "/grades" ==> title == "Notas"
    ensures path == "/announcements" ==> title == "Avisos"
    ensures path == "/profile" ==> title == "Perfil"
    ensures path !in {"/dashboard", "/schedule", "/grades", "/announcements", "/profile"} ==>
            title == "Portal Escolar"
  {
    if path == "/dashboard" then "Dashboard"
    else if path == "/schedule" then "Horário"
    else if path == "/grades" then "Notas"
    else if path == "/announcements" then "Avisos"
    else if path == "/profile" then "Perfil"
    else "Portal Escolar"
  }

  /** `user.name?.substring(0, 2).toUpperCase()` */
  function AvatarInitials(name: string): (initials: string)
    ensures |initials| == if |name| < 2 then |name| else 2
    ensures forall i :: 0 <= i < |initials| ==> initials[i] == Text.UpperChar(name[i])
  {
    Text.ToUpper(Seqs.Take(name, 2))
  }

  /** The scroll handler's `window.scrollY > 10`. */
  predicate IsScrolled(scrollY: real) {
    scrollY > 10.0
  }

  datatype HeaderView = HeaderView(title: string, initials: string, scrolled: bool)

  /** The rendered header: nothing without a user. */
  function Render(user: Option<User>, pathname: string, scrollY: real): (v: Option<HeaderView>)
    ensures v.None? <==> user.None?
    ensures v.Some? ==> v.value.title == PageTitle(pathname) &&
                        v.value.initials == AvatarInitials(user.value.name) &&
                        (v.value.scrolled <==> scrollY > 10.0)
  {
    if user.None? then None
    else Some(HeaderView(PageTitle(pathname), AvatarInitials(user.value.name), IsScrolled(scrollY)))
  }

  /** The guardian pages and the settings page fall back to the generic title. */
  lemma GuardianAndSettingsTitles()
    ensures PageTitle("/guardian/children") == "Portal Escolar"
    ensures PageTitle("/guardian/finance") == "Portal Escolar"
    ensures PageTitle("/settings") == "Portal Escolar"
  {
  }
}
