/** The admin dashboard's sidebar
    (`src/components/_shared/sidebar/DashboardSidebar.jsx`): the collapsible
    Management section, which menu entries are highlighted for a path, and
    logging out. */
module Sidebar {
  import opened Wrappers
  import opened Text
  import opened Client

  /** `openSections`: section name to open flag. A name that was never
      toggled reads as `undefined`, i.e. closed. */
  type Sections = map<string, bool>

  const Management: string := "management"
  const InitialSections: Sections := map[Management := true]

  predicate IsOpen(s: Sections, section: string) {
    section in s && s[section]
  }

  /** `toggleSection(section)`: flips one section and keeps the rest. */
  function ToggleSection(s: Sections, section: string): (r: Sections)
    ensures IsOpen(r, section) <==> !IsOpen(s, section)
    ensures forall k :: k != section ==> (k in r <==> k in s) && (k in s ==> r[k] == s[k])
  {
    s[section := !IsOpen(s, section)]
  }

  /** Toggling a section twice leaves it as it was. */
  lemma ToggleTwice(s: Sections, section: string)
    ensures forall k :: IsOpen(ToggleSection(ToggleSection(s, section), section), k) <==> IsOpen(s, k)
  {
  }

  /** `closeAllSections()`. */
  const ClosedSections: Sections := map[Management := false]

  /** The expanded flag of the sidebar and its sections. */
  datatype Panel = Panel(open: bool, sections: Sections)

  /** `handleSetOpen(value)`: collapsing closes every section; expanding
      keeps the sections as they were. */
  function SetOpen(p: Panel, value: bool): (r: Panel)
    ensures r.open == value
    ensures !value ==> forall k :: !IsOpen(r.sections, k)
    ensures value ==> r.sections == p.sections
  {
    if value then p.(open := true) else Panel(false, ClosedSections)
  }

  /** A click on the header on a desktop: `handleSetOpen(!open)`. */
  function HeaderClick(p: Panel): Panel {
    SetOpen(p, !p.open)
  }

  /** Collapsing and expanding the sidebar again leaves Management closed:
      the section state is not restored. */
  lemma ReopenKeepsSectionsClosed(p: Panel)
    requires p.open
    ensures var q := HeaderClick(HeaderClick(p));
            q.open && !IsOpen(q.sections, Management)
  {
  }

  /** The menu entries under Management, as (label, href). */
  const ManagementItems: seq<(string, string)> := [
    ("User", "/dashboard/management/user"),
    ("Ormawa", "/dashboard/management/organisasi"),
    ("Post", "/dashboard/management/post"),
    ("List Pendaftar", "/dashboard/management/registration")
  ]

  predicate DashboardActive(path: string) {
    path == "/dashboard"
  }

  predicate ManagementActive(path: string) {
    StartsWith(path, "/dashboard/management") || StartsWith(path, "/dashboard/registration")
  }

  /** The highlight of a Management entry: a prefix match on its href. */
  predicate ItemActive(path: string, href: string) {
    StartsWith(path, href)
  }

  /** The `isActive` flag handed to an entry's button: an exact match. */
  predicate ItemMarked(path: string, href: string) {
    path == href
  }

  lemma StartsWithTrans(s: string, p: string, q: string)
    requires StartsWith(s, p) && StartsWith(p, q)
    ensures StartsWith(s, q)
  {
    assert s[..|q|] == p[..|q|];
  }

  /** A highlighted entry highlights the Management group, an exact match
      is always highlighted, and the Dashboard entry is never highlighted
      together with Management. */
  lemma ActiveEntriesConsistent(path: string, i: nat)
    requires i < |ManagementItems|
    ensures ItemMarked(path, ManagementItems[i].1) ==> ItemActive(path, ManagementItems[i].1)
    ensures ItemActive(path, ManagementItems[i].1) ==> ManagementActive(path)
    ensures DashboardActive(path) ==> !ManagementActive(path)
  {
    var href := ManagementItems[i].1;
    assert StartsWith(href, "/dashboard/management");
    if ItemActive(path, href) {
      StartsWithTrans(path, href, "/dashboard/management");
    }
  }

  /** The outcome of `handleLogout`. */
  datatype LogoutOutcome = LogoutOutcome(
    logoutAuth: Option<string>,  // the Authorization header of `POST /api/logout`
    state: ClientState,
    toggledMobile: bool,
    redirect: string)

  const LoginPath: string := "/auth/login"

  /** `handleLogout`. The backend call's result is ignored, so it is not a
      parameter. */
  function Logout(st: ClientState, isMobile: bool): (r: LogoutOutcome)
    // The logout request is authenticated with the stored token when
    // there is one, and with whatever default header there was otherwise.
    ensures GetToken(st).Some? ==> r.logoutAuth == Some(Bearer(GetToken(st).value))
    ensures GetToken(st).None? ==> r.logoutAuth == st.defaultAuth
    // Afterwards no token, no user and no default header remain; every
    // other stored entry is kept.
    ensures forall k :: k in SessionKeys ==> k !in r.state.local && k !in r.state.session
    ensures AgreeExcept(r.state.local, st.local, SessionKeys)
    ensures AgreeExcept(r.state.session, st.session, SessionKeys)
    ensures r.state.defaultAuth.None? && GetToken(r.state).None?
    ensures r.toggledMobile == isMobile && r.redirect == LoginPath
  {
    var withHeader := if GetToken(st).Some? then ApplyAuthHeader(st, GetToken(st)) else st;
    var cleared := ClearToken(withHeader).(defaultAuth := None);
    LogoutOutcome(withHeader.defaultAuth, cleared, isMobile, LoginPath)
  }

  /** Logging out twice ends in the same session as logging out once. */
  lemma LogoutIdempotent(st: ClientState, isMobile: bool)
    ensures Logout(Logout(st, isMobile).state, isMobile).state == Logout(st, isMobile).state
  {
  }
}
