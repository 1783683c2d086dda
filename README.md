# School portal client — a Dafny model

This project models the deterministic logic of the school-portal web client
(wandersilva5/school-portal-accessor). That logic sits between the browser's
storage, the clock and the screen:

- **Session.** The session store logs in against a fixed credential table. It keeps a token and a serialised user in `localStorage`, and clears both on logout.
- **Authentication provider.** It keeps a `user`/`loading` state machine over that store.
- **Route gates and table.** They decide between a loading screen, a redirect and the page.
- **Mock API.** It covers the Authorization header rule, the response-error classification chain and the URL dispatch of `api.get`.
- **Navigation.** The header, bottom bar and sidebar choose titles and menus by path and role.
- **Page logic.** This is the list shaping in each page:
  - search, tag and status filters, and tag toggling
  - the sorted unique tag list
  - status counts that partition a list, and counts scoped to a year
  - finance sums by status and grouping by month
  - the three newest important announcements
  - today's timetable, the greeting by hour and the grade tiers
- **Forms and themes.** The login form's submit sequence, the editable profile, and the colour themes written into the document's style.

## How the model is built

- **Modules.** Each source file is a module, e.g. `Auth`, `AuthContext`, `Routes`, `Api`, `Header`, `Navigation`, `Announcements`, `Dashboard`, `Schedule`, `Grades`, `ChildDetails`, `Finance`, `Documents`, `Registrations`, `Students`, `LoginPage`, `Profile`, `Themes`.
- **Shared modules.** `Wrappers`, `Types`, `Seqs`, `Text`, `StringOrder` and `Codec`/`UserCodec` hold the shared vocabulary.
- **State that is updated in place is a class.** This covers:
  - `localStorage` (`Auth.LocalStorage`)
  - the auth provider (`AuthContext.AuthProvider`)
  - a request's headers (`Api.RequestConfig`)
  - the page states (`Announcements.AnnouncementsPage`, `Grades.GradesPage`, `LoginPage.LoginForm`, `Profile.ProfilePage`)
  - the root element's style (`Themes.StyleDeclaration`)
- **Methods are specified by functions.** Each method's `ensures` ties the new state to a pure function of the old state (`Auth.StoreAfterLogin`, `AuthContext.UserAfterCheck`, `Themes.Applied`, …). The lemmas are stated about those functions.
- **Loops stay loops.** `Announcements.AllTags` and `Finance.GroupByMonth` are methods with loop invariants. `AllTags` walks a set in insertion order and then sorts it. `GroupByMonth` appends each record to its month's group.
- **Clock, locale and storage failures are inputs.** The hour, the weekday, the `Date.now()` reading in the token, the month formatter of `groupByMonth`, and whether reading storage throws are all parameters.
- **The JSON codec.** `JSON.stringify`/`JSON.parse` of the stored user are replaced by an escaped-field codec. Its round trip is proved (`UserCodec.DecodeEncodeUser`).
- **The user record.** It carries the optional per-role fields and the guardian's child list, which the source reads as `childrenData`.
- **Toasts and navigation targets** are returned as values where the logic depends on them.

## Model

| member | source | states |
|---|---|---|
| Auth.LocalStorage.SetItem | src/lib/auth.ts:63-64 | `setItem` binds one key and leaves every other key as it was |
| Auth.LocalStorage.RemoveItem | src/lib/auth.ts:80-81 | `removeItem` drops exactly that key |
| Auth.DecimalString | src/lib/auth.ts:57 | the printed `Date.now()` is a non-empty string of decimal digits |
| Auth.Login | src/lib/auth.ts:12-76 | the outcome is the credential-table lookup; the store is written only on success, with both session keys |
| Auth.Logout | src/lib/auth.ts:79-82 | the store loses the token and user keys |
| Auth.MockEmailsDistinct | src/lib/auth.ts:18-48 | the credential table has no repeated e-mail, so `find` is unambiguous |
| Auth.LoginSucceedsIff | src/lib/auth.ts:50-54 | login succeeds iff some row has that e-mail and that password; a failure is "Credenciais inválidas"; a success returns that row's user with the minted token |
| Auth.MockAccounts | src/lib/auth.ts:18-48 | the table holds a student, a teacher and an administrator account, each with password `senha123`; no row is a guardian or secretary |
| Auth.AuthenticateRow | src/lib/auth.ts:50-69 | every table row logs in with its own email and password as its own user, with a freshly minted token |
| Auth.StudentLogin | src/lib/auth.ts:18-69 | `aluno@escola.com` / `senha123` logs in as a student |
| Auth.TeacherLogin | src/lib/auth.ts:18-69 | `professor@escola.com` / `senha123` logs in as a teacher |
| Auth.AdminLogin | src/lib/auth.ts:18-69 | `diretor@escola.com` / `senha123` logs in as an administrator |
| Auth.TokenNonEmpty | src/lib/auth.ts:57 | a minted token is non-empty and starts with `mock_token_` |
| Auth.LoginStoresSession | src/lib/auth.ts:63-64 | after a successful login the store is authenticated, holds the minted token, and reads back exactly the logged-in user |
| Auth.FailedLoginKeepsSession | src/lib/auth.ts:52-54 | a failed login leaves the store unchanged |
| Auth.LogoutClearsSession | src/lib/auth.ts:79-82 | after logout there is no token and no user; other keys keep their values; a second logout changes nothing |
| Auth.SessionConsistencyPreserved | src/lib/auth.ts:85-100 | starting from empty storage, logins and logouts keep "has a token" equivalent to "has a readable user" |
| Auth.TokenWithoutUser | src/lib/auth.ts:85-100 | storage holding a token but no user counts as authenticated, yet yields no current user |
| AuthContext.AuthProvider.constructor | src/context/AuthContext.tsx:18-19 | the provider starts with no user and `loading` on |
| AuthContext.AuthProvider.CheckAuthStatus | src/context/AuthContext.tsx:24-39 | the user comes from storage only when a token is present; a throwing read clears storage and user; `loading` ends off |
| AuthContext.AuthProvider.Login | src/context/AuthContext.tsx:44-56 | the store follows `auth.login`; on success the user is set and the dashboard is the navigation target; on failure the user is kept and nothing navigates; `loading` ends off |
| AuthContext.AuthProvider.Logout | src/context/AuthContext.tsx:58-62 | the store is cleared, the user is dropped, and the target is `/login` |
| AuthContext.CheckNeedsToken | src/context/AuthContext.tsx:26-35 | without a token the previous user stays; with one the stored user is taken; a throwing read leaves no user and an unauthenticated store |
| AuthContext.ReloadRestoresUser | src/context/AuthContext.tsx:23-42 | a fresh provider started on the storage left by a successful login recovers that user |
| AuthContext.ReloadAfterLogout | src/context/AuthContext.tsx:58-62 | a fresh provider started after logout finds no user |
| AuthContext.StartupAgreesWithToken | src/context/AuthContext.tsx:69 | on storage this client wrote, the provider's `isAuthenticated` agrees with the stored token |
| UserCodec.RoleFromName | src/lib/auth.ts:95 | a decoded role name is the name of the role it decodes to |
| UserCodec.DecodeEncodeOptional | src/lib/auth.ts:64 | optional fields survive the store round trip, absent ones included |
| UserCodec.DecodeEncodeChildren | src/lib/auth.ts:64 | the child list survives the store round trip |
| UserCodec.DecodeEncodeUser | src/lib/auth.ts:95 | parsing what was stringified gives back the same user |
| Codec.DecodeEncodeFields | src/lib/auth.ts:64 | any field list decodes from its own encoding |
| Routes.GateDecisions | src/App.tsx:23-50 | both gates wait while loading; afterwards exactly one of the two allows, and each redirects to the other side |
| Routes.RouteKey | src/App.tsx:53-68 | a path is matched by its key: the path lower-cased, less one trailing `/` (the root keeps its `/`) |
| Routes.RouteTable | src/App.tsx:53-68 | matched by key, the protected paths need a session, `/login` needs none, `/` goes to `/login`, every other path is Not Found |
| Routes.TablePathsAreKeys | src/App.tsx:56-65 | every path of the route table is its own key |
| Routes.RouteKeyIgnores | src/App.tsx:53-68 | a trailing `/` and letter case do not change which route a path matches |
| Routes.RouteKeyExamples | src/App.tsx:53-68 | `/Dashboard/` shows the dashboard to a signed-in user; `/LOGIN` shows the login page to a visitor |
| Routes.RedirectsSettle | src/App.tsx:57-63 | once loading is over, every path shows a page after at most two redirects |
| Api.ApplyAuthHeader | src/lib/api.ts:16-25 | `Authorization: Bearer <token>` is set exactly when a non-empty token is stored; otherwise the headers are untouched |
| Api.ClassifyError | src/lib/api.ts:28-54 | 401 alone logs out and redirects to `/login`; then 500 and above gives the server message; then the response's own message; otherwise the generic one |
| Api.HandleResponseError | src/lib/api.ts:28-54 | the interceptor acts on that classification, clears the session only on a 401, and always rejects with the error |
| Api.ClassificationOrder | src/lib/api.ts:34-48 | the four branches in order: 401 wins over everything; 500 and above never logs out; a non-empty message is shown; otherwise the generic toast |
| Api.ClassGradesFixture | src/lib/api.ts:202-259 | the class roster echoes the requested class name |
| Api.EndpointOf | src/lib/api.ts:329-340 | each of the four URLs maps to its own endpoint, and no other URL does |
| Api.Get | src/lib/api.ts:323-345 | the four known URLs return their fixtures; any other URL returns an empty object |
| Api.Post | src/lib/api.ts:347-359 | every post is acknowledged with success |
| Api.Put | src/lib/api.ts:361-373 | every put is acknowledged with success |
| Api.Delete | src/lib/api.ts:375-387 | every delete is acknowledged with success |
| Api.StudentScheduleShape | src/lib/api.ts:59-97 | the student timetable runs Monday to Friday in order, five periods a day |
| Header.PageTitle | src/components/layout/Header.tsx:27-42 | the five known paths get their titles; every other path gets "Portal Escolar" |
| Header.AvatarInitials | src/components/layout/Header.tsx:64 | at most two characters, the upper-cased start of the name |
| Header.Render | src/components/layout/Header.tsx:44-66 | nothing renders without a user; otherwise the title, the initials and the scrolled flag follow the path, the name and `scrollY > 10` |
| Header.GuardianAndSettingsTitles | src/components/layout/Header.tsx:39-41 | the guardian and settings pages fall back to the generic title |
| Navigation.BottomNavItems | src/components/layout/BottomNavigation.tsx:26-41 | guardians get the children and finance entries; everyone else gets the timetable list |
| Navigation.MarkActive | src/components/layout/BottomNavigation.tsx:54-63 | an entry is highlighted iff its path is the current path |
| Navigation.BottomNavigation | src/components/layout/BottomNavigation.tsx:21-68 | no user gives no bar; otherwise the role's items, marked against the path |
| Navigation.BottomNavShape | src/components/layout/BottomNavigation.tsx:26-41 | both lists start with the dashboard, end with the profile and have distinct paths; all non-guardian roles share one list |
| Navigation.AtMostOneActive | src/components/layout/BottomNavigation.tsx:60 | at most one bottom entry is highlighted |
| Navigation.SidebarItems | src/components/layout/MobileLayout.tsx:19-37 | guardians get the children and finance pages; everyone else gets the timetable and grades pages |
| Navigation.MobileLayout | src/components/layout/MobileLayout.tsx:14-66 | no user gives the bare outlet; otherwise the role's links followed by exactly one sign-out entry |
| Navigation.SidebarShape | src/components/layout/MobileLayout.tsx:19-37 | six destinations, with dashboard, announcements, profile and settings in the same places for every role |
| Navigation.SidebarDistinct | src/components/layout/MobileLayout.tsx:19-37 | neither sidebar list names a destination twice |
| Navigation.BottomPathsInSidebar | src/components/layout/MobileLayout.tsx:19-37 | every bottom-bar destination of a role is also in its sidebar |
| Announcements.AllTags | src/pages/Announcements.tsx:48-57 | the list holds exactly the tags some announcement carries, strictly ascending (so without repeats); empty without data |
| StringOrder.Sort | src/pages/Announcements.tsx:56 | the default sort returns an ascending permutation of its input |
| StringOrder.SortDistinct | src/pages/Announcements.tsx:56 | sorting the distinct members of a set gives a strictly ascending list |
| StringOrder.LessTotal | src/pages/Announcements.tsx:56 | the string order is total on different strings |
| StringOrder.LessTransitive | src/pages/Announcements.tsx:56 | the string order is transitive |
| Announcements.SortNewestFirst | src/pages/Announcements.tsx:78-81 | the date comparator's sort is a permutation with the newest first |
| Announcements.Filtered | src/pages/Announcements.tsx:60-82 | the kept announcements are drawn from the data and match the query and the tags; every matching one is kept, as often as it occurs in the data; newest first; empty without data |
| Announcements.NoFiltersKeepAll | src/pages/Announcements.tsx:60-82 | with no query and no tag the list is a rearrangement of all the data |
| Announcements.Toggled | src/pages/Announcements.tsx:85-91 | toggling flips the tag's membership, leaves every other tag alone, and appends a new tag at the end |
| Announcements.ToggleTwice | src/pages/Announcements.tsx:85-91 | toggling a tag twice restores the selected set |
| Announcements.TagBarOf | src/pages/Announcements.tsx:146-176 | at most five tags inline; the "Mais" menu appears iff there are more than five and holds the rest, in order |
| Announcements.AnnouncementsPage.constructor | src/pages/Announcements.tsx:34-36 | empty query, no tag, nothing open |
| Announcements.AnnouncementsPage.SetSearchQuery | src/pages/Announcements.tsx:140 | only the query changes |
| Announcements.AnnouncementsPage.ToggleTag | src/pages/Announcements.tsx:85-91 | the selection becomes its toggle; query and open item are kept |
| Announcements.AnnouncementsPage.ClearFilters | src/pages/Announcements.tsx:94-97 | query and tags are cleared, so every fetched announcement is shown again |
| Announcements.AnnouncementsPage.ToggleAnnouncement | src/pages/Announcements.tsx:100-102 | clicking the open item closes it, clicking another opens only that one |
| Dashboard.Greeting | src/pages/Dashboard.tsx:36-42 | "Bom dia" iff 5 ≤ hour < 12, "Boa tarde" iff 12 ≤ hour < 18, "Boa noite" otherwise |
| Dashboard.DateLine | src/pages/Dashboard.tsx:49 | only the first character is upper-cased; the rest and the length are kept |
| Dashboard.TodaySchedule | src/pages/Dashboard.tsx:90-98 | the periods of the first entry named after today, or none |
| Dashboard.ImportantAnnouncements | src/pages/Dashboard.tsx:101-108 | at most three, and none without data |
| Dashboard.ImportantAnnouncementsSelection | src/pages/Dashboard.tsx:101-108 | only important ones, drawn from the data, newest first; an important one left out means three are shown, all at least as new |
| Dashboard.CalculatePerformance | src/pages/Dashboard.tsx:111-123 | "above" counts averages ≥ 7; above and below split the subjects; the average is the overall average; zeros without data |
| Dashboard.GreetingName | src/pages/Dashboard.tsx:142 | the first word of the name: a space-free prefix that ends where the name has a space |
| Dashboard.DashboardQueries | src/pages/Dashboard.tsx:63-84 | the role's timetable URL, grades only for a student, and the announcements |
| Dashboard.QueriesServed | src/pages/Dashboard.tsx:63-84 | every URL the dashboard fetches is one the mock API dispatches |
| Schedule.InitialActiveDay | src/pages/Schedule.tsx:16-20 | the initial tab is today on a weekday and Monday at the weekend, always one of the five tabs |
| Schedule.PeriodsOn | src/pages/Schedule.tsx:33 | the periods of the first day with the active name, or none |
| Schedule.ScheduleEndpoint | src/pages/Schedule.tsx:26 | teachers fetch the teacher timetable, everyone else the student one |
| Schedule.TabLabel | src/pages/Schedule.tsx:76 | the label is a hyphen-free prefix of the day name |
| Schedule.TabLabels | src/pages/Schedule.tsx:68-76 | the five tabs read Segunda, Terça, Quarta, Quinta, Sexta, in that order |
| Grades.AverageBounds | src/pages/Grades.tsx:36-41 | the overall average lies between the lowest and the highest subject average |
| Grades.TierOf | src/pages/Grades.tsx:99-101 | green iff ≥ 8, orange iff 6 ≤ a < 8, red iff < 6 |
| Grades.CountByPerformance | src/pages/Grades.tsx:46-54 | the three counts partition the subjects and agree with the colour tiers; zeros without data |
| Grades.AfterLoad | src/pages/Grades.tsx:29-33 | the first subject opens only when data is present and no subject is chosen; a chosen one is kept |
| Grades.AfterLoadIdempotent | src/pages/Grades.tsx:29-33 | re-running the effect changes nothing |
| Grades.GradesPage.SelectFirstSubject | src/pages/Grades.tsx:29-33 | the effect leaves the state `AfterLoad` describes |
| Grades.GradesPage.SetActiveSubject | src/pages/Grades.tsx:184 | a tab change selects that subject |
| ChildDetails.FindChild | src/pages/guardian/ChildDetails.tsx:36 | the first child with that id; none iff there is no user, no id or no such child |
| ChildDetails.PreviewOf | src/pages/guardian/ChildDetails.tsx:227-255 | at most three periods are shown; "+n" appears iff more than three exist, with n the number left out |
| ChildDetails.Page | src/pages/guardian/ChildDetails.tsx:94-107 | "not found" iff the lookup fails; otherwise the counts, average and preview come from the fetched data |
| Finance.InitialSelectedChild | src/pages/guardian/Finance.tsx:34-36 | the first child's id, or none without children |
| Finance.SelectorHasSelection | src/pages/guardian/Finance.tsx:156 | the child selector (more than one child) never shows without a selection, which is the first child; one child is selected without a selector; no child means neither |
| Finance.BoletoForUnpaidOnly | src/pages/guardian/Finance.tsx:296 | the payment-slip button shows exactly for pending and overdue records, never for a paid one |
| Finance.CalculateSummary | src/pages/guardian/Finance.tsx:96-117 | each field sums the amounts of its status; the total is their sum; zeros without data |
| Finance.SumByStatus | src/pages/guardian/Finance.tsx:96-117 | when every status is known, the three sums add up to the sum of all amounts |
| Finance.TotalIsSumOfAmounts | src/pages/guardian/Finance.tsx:115 | the total is then the sum of every amount |
| Finance.GroupByMonth | src/pages/guardian/Finance.tsx:122-138 | the keys are exactly the months of the records; each group holds that month's records in data order; empty without data |
| Finance.GroupKeys | src/pages/guardian/Finance.tsx:130-134 | a month is a key iff some record falls in it |
| Finance.GroupsCover | src/pages/guardian/Finance.tsx:122-138 | every record sits in its own month's group |
| Finance.GroupsHomogeneous | src/pages/guardian/Finance.tsx:122-138 | every group holds only records of its month |
| Documents.StatusName | src/pages/secretary/Documents.tsx:96 | no status is named "all", so the "all" tab never matches a status |
| Documents.StatusNameInjective | src/pages/secretary/Documents.tsx:96 | different statuses have different names |
| Documents.Filtered | src/pages/secretary/Documents.tsx:92-98 | a subsequence of the data holding exactly the requests that match the search and the tab; none without data |
| Documents.EmptySearchKeepsAll | src/pages/secretary/Documents.tsx:92-98 | an empty search on the "all" tab keeps every request |
| Documents.GetCounts | src/pages/secretary/Documents.tsx:101-111 | "all" is the list length; each status count is the number of requests with that status, and the four add up to "all"; zeros without data |
| Documents.Actions | src/pages/secretary/Documents.tsx:214-244 | process and reject only when pending, conclude only when processing, download only when completed, details always last |
| Registrations.StatusName | src/pages/secretary/Registrations.tsx:91 | no status is named "all" |
| Registrations.Filtered | src/pages/secretary/Registrations.tsx:88-94 | a subsequence of the data (drawn from it, in its order) holding exactly the registrations of the year that match the search and the tab; none without data |
| Registrations.GetCounts | src/pages/secretary/Registrations.tsx:97-108 | "all" counts the selected year only; each status count is the number of that year's registrations with that status, and the four add up to "all"; zeros without data |
| Registrations.FilteredWithinYear | src/pages/secretary/Registrations.tsx:88-108 | the filtered list is never longer than the year's "all" count |
| Students.Filtered | src/pages/secretary/Students.tsx:70-75 | a subsequence holding exactly the students that match the name or enrolment search and the class |
| Students.NoIdMatchesByName | src/pages/secretary/Students.tsx:71-72 | a student without an enrolment id matches by name only |
| Students.ChooseClass | src/pages/secretary/Students.tsx:111 | the empty option clears the class; any other value selects it |
| Students.Distinct | src/pages/secretary/Students.tsx:78-79 | same members, no repeats, in first-occurrence order |
| Students.Classes | src/pages/secretary/Students.tsx:78-79 | exactly the classes that occur, once each, in the order of their first occurrence in the list; empty without data |
| LoginPage.CnEmpty | src/pages/Login.tsx:144-146 | the class string is empty iff no argument is truthy |
| LoginPage.CnAppend | src/pages/Login.tsx:144-146 | a falsy argument adds nothing; a truthy one is added after a single space, or alone |
| LoginPage.ControlsFor | src/pages/Login.tsx:69-106 | inputs and button are disabled exactly while loading, and the button reads "Entrando..." then |
| LoginPage.LoginForm.constructor | src/pages/Login.tsx:14-16 | empty fields, not loading |
| LoginPage.LoginForm.SetEmail | src/pages/Login.tsx:67 | only the e-mail changes |
| LoginPage.LoginForm.SetPassword | src/pages/Login.tsx:94 | only the password changes |
| LoginPage.LoginForm.HandleSubmit | src/pages/Login.tsx:20-39 | an empty field gives the error toast and changes nothing; otherwise loading goes on, the provider's login runs with the form's values (its outcome, the stored session and the signed-in user as `Auth.Authenticate` and `Auth.StoreAfterLogin` say), and loading goes off whatever the outcome; success shows the success toast; a failed login shows the auth service's failure toast (src/lib/auth.ts:71-74) and is not rethrown |
| Profile.InitialData | src/pages/Profile.tsx:33-46 | e-mail and name come from the user, or are empty without one; the other fields hold the sample values |
| Profile.Changed | src/pages/Profile.tsx:50-53 | the named field takes the value; every other field keeps its value |
| Profile.ChangedTwice | src/pages/Profile.tsx:48-54 | only the last edit of a field counts |
| Profile.ChangedCommute | src/pages/Profile.tsx:48-54 | edits of different fields commute |
| Profile.RoleLabel | src/pages/Profile.tsx:114-119 | "Estudante - class" for a student, "Professor" for a teacher, "Administrador" for anything else |
| Profile.ShownId | src/pages/Profile.tsx:126 | the enrolment id for a student; otherwise a non-empty teacher id, else the admin id |
| Profile.LevelLine | src/pages/Profile.tsx:131-136 | a fixed level for a student, the teacher's subjects joined by `, ` (a single subject alone), administration otherwise |
| Profile.EditButtonFor | src/pages/Profile.tsx:77-89 | "Cancelar" in the destructive style iff editing |
| Profile.ProfilePage.constructor | src/pages/Profile.tsx:30-46 | not editing, data seeded from the user |
| Profile.ProfilePage.HandleChange | src/pages/Profile.tsx:48-54 | the data becomes its edit for that field; editing mode is kept |
| Profile.ProfilePage.HandleSave | src/pages/Profile.tsx:56-59 | editing ends, the data stays as edited, the success toast is returned |
| Profile.ProfilePage.ToggleEdit | src/pages/Profile.tsx:78 | editing flips and the button changes with it |
| Themes.ThemeNames | src/lib/themes.ts:13-54 | four built-in themes named default, purple, green and orange, all different |
| Themes.FindTheme | src/lib/themes.ts:57 | a theme is found iff the name is one of the four, and it carries that name |
| Themes.Painted | src/lib/themes.ts:65-68 | the four colour properties take the theme's colours; every other property is kept |
| Themes.PaintedIdempotent | src/lib/themes.ts:65-68 | writing the same colours twice equals writing them once |
| Themes.AppliedIdempotent | src/lib/themes.ts:56-69 | applying the same theme twice equals applying it once |
| Themes.PaintedForgets | src/lib/themes.ts:65-68 | the four colour properties after painting do not depend on what they held before |
| Themes.AppliedOverrides | src/lib/themes.ts:65-68 | the last known theme applied decides all four colours |
| Themes.StyleDeclaration.SetProperty | src/lib/themes.ts:65 | `setProperty` binds one property |
| Themes.ApplyTheme | src/lib/themes.ts:56-69 | an unknown name reports the error and changes no property; a known one sets exactly the four colour properties |
| Themes.CreateCustomTheme | src/lib/themes.ts:71-87 | the description is "Tema personalizado: " + name; the colours are passed through, with defaults for an omitted background or foreground |
| Themes.CustomDefaultsMatchDefaultTheme | src/lib/themes.ts:75-76 | the defaults are the default theme's background and foreground |

## Left out

- **Rendering.** JSX, icons, CSS classes other than the login page's own `cn`, animations and toasts' visual form are not modelled. The toasts of the modelled handlers (the login page's, including the auth service's failed-login toast, the profile page's and the API error handler's) and navigation targets are returned values; the auth service's `login` itself does not return its toast, `LoginPage.LoginForm.HandleSubmit` does.
- **Money.** `Finance.FinancialRecord.amount` is an integer and the sums are exact. Amounts with cents, floating-point addition and the `toFixed(2)` formatting of src/pages/guardian/Finance.tsx:191-227 and :272 are not modelled.
- Routes.RouteKey: only the case of ASCII letters and one trailing `/` are normalised. Repeated slashes, percent-encoding and path parameters are not modelled; the catch-all route is the final Not Found branch.
- **react-query.** Caching, loading flags and refetching are not modelled. The fetched data is an `Option` input, `None` until it arrives.
- **Floating point.** Averages are exact `real`s. `toFixed` and binary rounding are not modelled.
- **Case mapping.** `toLowerCase`/`toUpperCase` map ASCII letters only. Accented letters are left as they are.
- **String order.** Strings are compared by code point. JavaScript's default sort compares UTF-16 code units, which differ only outside the Basic Multilingual Plane.
- **Sort stability.** `Announcements.SortNewestFirst` is stable by construction, but no contract states stability.
- **Dates.** They are integer timestamps. `new Date(...)`, `getHours`, `getDay` and the `date-fns` formatters are inputs, e.g. `Finance.GroupByMonth` takes the month formatter as a parameter.
- Finance.GroupByMonth: the result is a map, so the insertion order of the month groups is not modelled.
- **Storage failures.** A storage read that throws is modelled as a flag passed to `CheckAuthStatus`.
- **Unknown roles.** A stored user with a role name the client does not know fails to decode. `JSON.parse` would accept any string there.
- Auth.TokenWithoutUser: a store holding a token but no readable user counts as authenticated for `auth.isAuthenticated`, while the provider's own `isAuthenticated` follows the user. The model states this gap; it does not resolve it.
- **Fixtures.**
  - The announcement fixture keeps ids, titles, dates, tags and importance but leaves the body texts empty.
  - The inline fixtures of the finance, documents, registrations and students pages are not modelled; those pages take their data as input.
  - The class-grades roster is modelled only by its class name, subject and size.
  - The student-grades fixture keeps each subject's name, teacher and average but not its list of assessments (term, assessment, grade and maximum grade, src/lib/api.ts:142-190), which the grades page lists per subject (src/pages/Grades.tsx:267-284). `Api.StudentGradesFixture` and the grades page's subject cards do not carry them.
- **Child list.** The guardian's `childrenData` and the sidebar's child list are one field, `children`, of the user record.
- **Other source files.** src/pages/guardian/Children.tsx, the types file, `PageTransition`, `GlassCard` and the Capacitor configuration are not part of this model.
- **Logging.** `console.log`/`console.error` output is not modelled.
- **Transport.** The real HTTP client behind the mocked calls is not modelled. The interceptors are modelled as functions of the request and the error response.
