/**
 * The application shell: the session cell `currentUser`, written only by
 * `handleLogin` and `handleLogout`, and the top-level route table.  The table
 * sends `/` to the login gate when nobody is signed in and to the user's own
 * workspace otherwise; a path under a role's prefix mounts that role's
 * workspace only when the signed-in role is that role, and otherwise
 * redirects to `/`.  The patient, doctor and administrator workspaces are
 * followed into their own route tables; the staff, laboratory and pharmacy
 * workspaces are not part of this model and are shown as opaque screens.
 */
module App {
  import opened Wrappers
  import opened Roles
  import opened Paths
  import PatientPortal
  import DoctorDashboard
  import AdminDashboard

  /** The value held by `currentUser` when someone is signed in. */
  datatype User = User(role: Role, name: string)

  /** The element the top-level `<Routes>` renders for one path. */
  datatype Element =
    | LoginGate                                       // `<LoginScreen onLogin={handleLogin} />`
    | Workspace(role: Role, name: string, rest: Path) // the role's dashboard, given the path below its prefix
    | NavigateTo(to: Path)                            // `<Navigate to=... replace />`
    | NoRoute                                         // no `<Route>` matches the path

  /** The workspace root of a role, `/<role>`. */
  function RoleRoot(r: Role): Path
  {
    [Name(r)]
  }

  /** The top-level route table, a function of the session and the requested path. */
  function Route(currentUser: Option<User>, path: Path): (e: Element)
    ensures e.LoginGate? ==> currentUser.None? && path == []
    ensures e.Workspace? ==> currentUser == Some(User(e.role, e.name)) && path == RoleRoot(e.role) + e.rest
    ensures e.NavigateTo? ==> e.to == [] || (currentUser.Some? && e.to == RoleRoot(currentUser.value.role))
    ensures e.NoRoute? <==> path != [] && Parse(path[0]).None?
  {
    if path == [] then
      match currentUser
      case None => LoginGate
      case Some(user) => NavigateTo(RoleRoot(user.role))
    else
      match Parse(path[0])
      case None => NoRoute
      case Some(r) =>
        if currentUser.Some? && currentUser.value.role == r
        then Workspace(r, currentUser.value.name, path[1..])
        else NavigateTo([])
  }

  /** `/` shows the gate to an anonymous visitor and sends a signed-in user to `/<role>`. */
  lemma GateRoute(currentUser: Option<User>)
    ensures currentUser.None? ==> Route(currentUser, []) == LoginGate
    ensures currentUser.Some? ==> Route(currentUser, []) == NavigateTo(RoleRoot(currentUser.value.role))
  {
  }

  /**
   * A path under `/r` mounts r's workspace, with the user's name and the rest
   * of the path, exactly when the session's role is r; otherwise it redirects to `/`.
   */
  lemma PrefixRoute(currentUser: Option<User>, r: Role, rest: Path)
    ensures Route(currentUser, RoleRoot(r) + rest).Workspace?
      <==> currentUser.Some? && currentUser.value.role == r
    ensures currentUser.Some? && currentUser.value.role == r ==>
      Route(currentUser, RoleRoot(r) + rest) == Workspace(r, currentUser.value.name, rest)
    ensures !(currentUser.Some? && currentUser.value.role == r) ==>
      Route(currentUser, RoleRoot(r) + rest) == NavigateTo([])
  {
    var path := RoleRoot(r) + rest;
    assert path[0] == Name(r) && path[1..] == rest;
  }

  /** What finally appears on screen. */
  datatype Screen =
    | Gate
    | PatientPage(name: string, patientView: PatientPortal.View)
    | DoctorPage(name: string, doctorView: DoctorDashboard.View)
    | AdminPage(name: string, adminView: AdminDashboard.View)
    | OpaqueWorkspace(role: Role, name: string, rest: Path) // staff, lab or pharmacy dashboard
    | Blank                                                 // nothing matched

  /** One rendering pass: a screen, or a redirect to follow. */
  datatype Step = Show(screen: Screen) | Go(to: Path)

  /** The user whose workspace a screen belongs to; none for the gate and the blank page. */
  function Owner(s: Screen): Option<User>
  {
    match s
    case Gate => None
    case Blank => None
    case PatientPage(name, _) => Some(User(Patient, name))
    case DoctorPage(name, _) => Some(User(Doctor, name))
    case AdminPage(name, _) => Some(User(Admin, name))
    case OpaqueWorkspace(role, name, _) => Some(User(role, name))
  }

  /** The dashboard of `role`, mounted for `name`, matching `rest` against its own table. */
  function Mount(role: Role, name: string, rest: Path): (s: Step)
    ensures s.Show? ==> Owner(s.screen) == Some(User(role, name))
    ensures s.Go? ==> s.to == RoleRoot(role)
  {
    match role
    case Patient =>
      (match PatientPortal.SubRoute(rest)
       case Page(v) => Show(PatientPage(name, v))
       case Redirect(to) => Go(to))
    case Doctor =>
      (match DoctorDashboard.SubRoute(rest)
       case Page(v) => Show(DoctorPage(name, v))
       case Redirect(to) => Go(to))
    case Admin =>
      (match AdminDashboard.SubRoute(rest)
       case Page(v) => Show(AdminPage(name, v))
       case Redirect(to) => Go(to))
    case _ => Show(OpaqueWorkspace(role, name, rest))
  }

  /**
   * One rendering pass of the whole application.  A workspace is only ever
   * shown to the signed-in user it belongs to, and the gate only to an
   * anonymous visitor.
   */
  function Render(currentUser: Option<User>, path: Path): (s: Step)
    ensures s.Show? && Owner(s.screen).Some? ==> currentUser == Owner(s.screen)
    ensures s.Show? && s.screen == Gate ==> currentUser.None?
  {
    match Route(currentUser, path)
    case LoginGate => Show(Gate)
    case NoRoute => Show(Blank)
    case NavigateTo(to) => Go(to)
    case Workspace(role, name, rest) => Mount(role, name, rest)
  }

  /** The screen for a path after following at most `hops` redirects. */
  function Visit(currentUser: Option<User>, path: Path, hops: nat): Step
    decreases hops
  {
    match Render(currentUser, path)
    case Go(to) => if hops == 0 then Go(to) else Visit(currentUser, to, hops - 1)
    case Show(s) => Show(s)
  }

  /** The screen a user lands on at their workspace root. */
  function Home(user: User): Screen
  {
    match user.role
    case Patient => PatientPage(user.name, PatientPortal.PatientHome)
    case Doctor => DoctorPage(user.name, DoctorDashboard.DoctorSchedule)
    case Admin => AdminPage(user.name, AdminDashboard.RoleManagement)
    case _ => OpaqueWorkspace(user.role, user.name, [])
  }

  /** A signed-in user's own root renders their home screen at once. */
  lemma RootRendersHome(user: User)
    ensures Render(Some(user), RoleRoot(user.role)) == Show(Home(user))
    ensures Owner(Home(user)) == Some(user)
  {
    PrefixRoute(Some(user), user.role, []);
    assert RoleRoot(user.role) + [] == RoleRoot(user.role);
  }

  /**
   * A signed-in user who asks for another role's prefix is sent to `/`, then
   * to their own root, and sees their own home screen after exactly two redirects.
   */
  lemma CrossRoleTwoHops(user: User, r: Role, rest: Path)
    requires r != user.role
    ensures Render(Some(user), RoleRoot(r) + rest) == Go([])
    ensures Render(Some(user), []) == Go(RoleRoot(user.role))
    ensures Visit(Some(user), RoleRoot(r) + rest, 1).Go?
    ensures Visit(Some(user), RoleRoot(r) + rest, 2) == Show(Home(user))
  {
    PrefixRoute(Some(user), r, rest);
    RootRendersHome(user);
  }

  /** An anonymous visitor who asks for any role's prefix ends at the gate after one redirect. */
  lemma AnonymousReachesGate(r: Role, rest: Path)
    ensures Render(None, RoleRoot(r) + rest) == Go([])
    ensures Visit(None, RoleRoot(r) + rest, 1) == Show(Gate)
  {
    PrefixRoute(None, r, rest);
  }

  /** A path that is neither `/` nor under a role's prefix renders nothing, whoever is signed in. */
  lemma UnknownPathIsBlank(currentUser: Option<User>, path: Path)
    requires path != [] && Parse(path[0]).None?
    ensures Render(currentUser, path) == Show(Blank)
  {
  }

  /**
   * Every path settles within two redirects, on the gate (anonymous), the
   * blank page (unknown path) or a screen of the signed-in user's own workspace.
   */
  lemma SettlesWithinTwoHops(currentUser: Option<User>, path: Path)
    ensures Visit(currentUser, path, 2).Show?
    ensures var s := Visit(currentUser, path, 2).screen;
      s == Gate || s == Blank || (currentUser.Some? && Owner(s) == currentUser)
  {
    match Render(currentUser, path)
    case Show(s) =>
    case Go(to) =>
      match currentUser
      case None =>
        assert to == [];
      case Some(user) =>
        RootRendersHome(user);
        if to != RoleRoot(user.role) {
          assert to == [];
        }
  }

  /** However many redirects are followed, no screen of another user's workspace appears. */
  lemma {:induction false} VisitNeverCrossesRoles(currentUser: Option<User>, path: Path, hops: nat)
    ensures var v := Visit(currentUser, path, hops);
      v.Show? && Owner(v.screen).Some? ==> Owner(v.screen) == currentUser
    decreases hops
  {
    match Render(currentUser, path)
    case Show(s) =>
    case Go(to) =>
      if hops > 0 {
        VisitNeverCrossesRoles(currentUser, to, hops - 1);
      }
  }

  /** Every entry of the patient menu renders its page for a signed-in patient, with no redirect. */
  lemma PatientMenuReachable(name: string, k: nat)
    requires k < |PatientPortal.Navigation|
    ensures Render(Some(User(Patient, name)), Split(PatientPortal.Navigation[k].path))
      == Show(PatientPage(name, PatientPortal.MenuViews[k]))
  {
    PatientPortal.MenuEntriesRender();
    var p :| PatientPortal.Renders(PatientPortal.Navigation[k], p, PatientPortal.MenuViews[k]);
    PatientEntryReachable(name, PatientPortal.Navigation[k], p, PatientPortal.MenuViews[k]);
  }

  lemma PatientEntryReachable(name: string, entry: NavEntry, p: Path, v: PatientPortal.View)
    requires PatientPortal.Renders(entry, p, v)
    ensures Render(Some(User(Patient, name)), Split(entry.path)) == Show(PatientPage(name, v))
  {
    SplitFormat(p);
    assert p == RoleRoot(Patient) + p[1..];
    PrefixRoute(Some(User(Patient, name)), Patient, p[1..]);
  }

  /** Every entry of the doctor menu renders its page for a signed-in doctor, with no redirect. */
  lemma DoctorMenuReachable(name: string, k: nat)
    requires k < |DoctorDashboard.Navigation|
    ensures Render(Some(User(Doctor, name)), Split(DoctorDashboard.Navigation[k].path))
      == Show(DoctorPage(name, DoctorDashboard.MenuViews[k]))
  {
    DoctorDashboard.MenuEntriesRender();
    var p :| DoctorDashboard.Renders(DoctorDashboard.Navigation[k], p, DoctorDashboard.MenuViews[k]);
    DoctorEntryReachable(name, DoctorDashboard.Navigation[k], p, DoctorDashboard.MenuViews[k]);
  }

  lemma DoctorEntryReachable(name: string, entry: NavEntry, p: Path, v: DoctorDashboard.View)
    requires DoctorDashboard.Renders(entry, p, v)
    ensures Render(Some(User(Doctor, name)), Split(entry.path)) == Show(DoctorPage(name, v))
  {
    SplitFormat(p);
    assert p == RoleRoot(Doctor) + p[1..];
    PrefixRoute(Some(User(Doctor, name)), Doctor, p[1..]);
  }

  /** Every entry of the administrator menu renders its page for a signed-in administrator. */
  lemma AdminMenuReachable(name: string, k: nat)
    requires k < |AdminDashboard.Navigation|
    ensures Render(Some(User(Admin, name)), Split(AdminDashboard.Navigation[k].path))
      == Show(AdminPage(name, AdminDashboard.MenuViews[k]))
  {
    AdminDashboard.MenuEntriesRender();
    var p :| AdminDashboard.Renders(AdminDashboard.Navigation[k], p, AdminDashboard.MenuViews[k]);
    AdminEntryReachable(name, AdminDashboard.Navigation[k], p, AdminDashboard.MenuViews[k]);
  }

  lemma AdminEntryReachable(name: string, entry: NavEntry, p: Path, v: AdminDashboard.View)
    requires AdminDashboard.Renders(entry, p, v)
    ensures Render(Some(User(Admin, name)), Split(entry.path)) == Show(AdminPage(name, v))
  {
    SplitFormat(p);
    assert p == RoleRoot(Admin) + p[1..];
    PrefixRoute(Some(User(Admin, name)), Admin, p[1..]);
  }

  /** The session store: the single `currentUser` state cell of the application. */
  class Session {
    var currentUser: Option<User>

    /** The application starts with nobody signed in. */
    constructor ()
      ensures currentUser == None
    {
      currentUser := None;
    }

    /** `handleLogin`: replaces the session, whatever it held, with exactly `{role, name}`. */
    method HandleLogin(role: Role, name: string)
      modifies this
      ensures currentUser == Some(User(role, name))
    {
      currentUser := Some(User(role, name));
    }

    /** `handleLogout`: empties the session; on an empty session it changes nothing. */
    method HandleLogout()
      modifies this
      ensures currentUser == None
      ensures old(currentUser) == None ==> unchanged(this)
    {
      currentUser := None;
    }

    /**
     * Resolves a navigation request against the current session.  It reads
     * the session and never writes it: only the two handlers above do.
     */
    method Navigate(path: Path) returns (s: Step)
      ensures s == Render(currentUser, path)
      ensures s.Show? && Owner(s.screen).Some? ==> currentUser == Owner(s.screen)
    {
      s := Render(currentUser, path);
    }
  }
}
