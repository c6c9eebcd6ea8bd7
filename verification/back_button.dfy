/**
 * The shared back button: it is not rendered on "dashboard" pages (decided
 * from the pathname string alone) and, when clicked, goes to the fallback
 * path if one was given and otherwise one entry back in the history.
 */
module BackButton {
  import opened Wrappers
  import opened Roles
  import opened Text
  import opened Paths
  import PatientPortal
  import DoctorDashboard
  import AdminDashboard

  /**
   * The pathname ends with `/` and a role name: the pattern
   * `\/(patient|doctor|staff|lab|pharmacy|admin)$`, anchored at the end only.
   */
  predicate EndsWithRoleSegment(pathname: string)
  {
    exists k :: 0 <= k < |All| && EndsWith(pathname, "/" + Name(All[k]))
  }

  /** `isDashboard`: the pathnames on which the button renders nothing; each of them holds a `/`. */
  predicate IsDashboard(pathname: string)
    ensures IsDashboard(pathname) ==> '/' in pathname
  {
    DashboardHasSlash(pathname);
    || pathname == "/"
    || EndsWith(pathname, "/")
    || Includes(pathname, "/dashboard")
    || EndsWithRoleSegment(pathname)
  }

  /** A pathname that ends in `/`, includes `/dashboard` or ends in `/<role>` holds a `/`. */
  lemma DashboardHasSlash(pathname: string)
    ensures EndsWith(pathname, "/") ==> '/' in pathname
    ensures Includes(pathname, "/dashboard") ==> '/' in pathname
    ensures EndsWithRoleSegment(pathname) ==> '/' in pathname
  {
    if EndsWith(pathname, "/") {
      assert pathname[|pathname| - 1] == '/';
    }
    if Includes(pathname, "/dashboard") {
      IncludesKeepsCharacters(pathname, "/dashboard", '/');
    }
    if EndsWithRoleSegment(pathname) {
      var k :| 0 <= k < |All| && EndsWith(pathname, "/" + Name(All[k]));
      var t := "/" + Name(All[k]);
      assert pathname[|pathname| - |t|..][0] == t[0] == '/';
      assert pathname[|pathname| - |t|] == '/';
    }
  }

  /** Where a click leads: a path, or `navigate(-1)`. */
  datatype Target = NavigateTo(path: string) | HistoryBack

  /** The rendered button: its caption and its click target. */
  datatype Button = Button(caption: string, onClick: Target)

  /** `handleBack`: a fallback path is used only when it is a non-empty string. */
  function HandleBack(fallbackPath: Option<string>): (t: Target)
    ensures t.NavigateTo? <==> fallbackPath.Some? && fallbackPath.value != []
    ensures t.NavigateTo? ==> t.path == fallbackPath.value
  {
    if fallbackPath.Some? && fallbackPath.value != [] then NavigateTo(fallbackPath.value) else HistoryBack
  }

  /**
   * The component: nothing on a dashboard pathname, otherwise a button whose
   * caption is the `label` property (`Back` when it is absent) and whose click
   * does `handleBack`.
   */
  function Render(pathname: string, fallbackPath: Option<string>, caption: Option<string>): (b: Option<Button>)
    ensures b.None? <==> IsDashboard(pathname)
    ensures b.Some? ==> b.value.onClick == HandleBack(fallbackPath)
    ensures b.Some? && caption.None? ==> b.value.caption == "Back"
    ensures b.Some? && caption.Some? ==> b.value.caption == caption.value
  {
    if IsDashboard(pathname) then None
    else Some(Button(caption.GetOr("Back"), HandleBack(fallbackPath)))
  }

  /**
   * An empty fallback path counts as none; only the absent label defaults to
   * `Back`, an empty one is shown as it is.
   */
  lemma FallbackAndLabelDefaults(pathname: string)
    requires !IsDashboard(pathname)
    ensures Render(pathname, Some(""), None) == Some(Button("Back", HistoryBack))
    ensures Render(pathname, None, Some("")) == Some(Button("", HistoryBack))
  {
  }

  /** Hidden on the gate and on every pathname with a trailing slash. */
  lemma TrailingSlashHidden(prefix: string)
    ensures Render("/", None, None).None?
    ensures Render(prefix + "/", None, None).None?
  {
    assert (prefix + "/")[|prefix + "/"| - 1..] == "/";
  }

  /** Hidden on every pathname that contains `/dashboard`, wherever it occurs. */
  lemma DashboardHidden(before: string, after: string)
    ensures IsDashboard(before + "/dashboard" + after)
  {
    IncludesInfix(before, "/dashboard", after);
  }

  /** Hidden on every pathname that ends in `/<role>`, whatever precedes it (`/x/admin` too). */
  lemma RoleSegmentHidden(prefix: string, r: Role)
    ensures IsDashboard(prefix + "/" + Name(r))
    ensures IsDashboard("/" + Name(r))
  {
    assert "" + "/" + Name(r) == "/" + Name(r);
    AllRoles(r);
    var k :| 0 <= k < |All| && All[k] == r;
    var s := prefix + "/" + Name(r);
    assert s[|s| - |"/" + Name(r)|..] == "/" + Name(r);
    assert EndsWith(s, "/" + Name(All[k]));
  }

  /**
   * When `seg` and `name` hold no slash, `<prefix>/<seg>` ends in `/<name>`
   * only if `name` is `seg`.
   */
  lemma LastSegment(prefix: string, seg: string, name: string)
    requires '/' !in seg && '/' !in name
    ensures EndsWith(prefix + "/" + seg, "/" + name) ==> name == seg
  {
    var s, t := prefix + "/" + seg, "/" + name;
    if EndsWith(s, t) {
      var n := |t|;
      assert s[|s| - n..] == t;
      // The `/` that starts `t` lies before the slash-free `seg` ...
      assert s[|s| - |seg|..] == seg;
      assert s[|s| - n] == '/';
      assert n > |seg|;
      // ... and the `/` before `seg` falls at the start of `t`, since `name` has none.
      assert t[n - |seg| - 1] == s[|s| - |seg| - 1] == '/';
      assert t[1..] == name;
      assert n == |seg| + 1;
      assert t == "/" + seg;
      assert name == t[1..];
    }
  }

  /**
   * The button shows on `<prefix>/<seg>` when the last segment is non-empty,
   * names no role, and the pathname does not include `/dashboard`.
   */
  lemma SubPageShown(prefix: string, seg: string)
    requires seg != [] && '/' !in seg && Parse(seg).None?
    requires !Includes(prefix + "/" + seg, "/dashboard")
    ensures !IsDashboard(prefix + "/" + seg)
  {
    var s := prefix + "/" + seg;
    assert s[|s| - 1] == seg[|seg| - 1];
    assert !EndsWith(s, "/");
    forall k | 0 <= k < |All| ensures !EndsWith(s, "/" + Name(All[k])) {
      var r := All[k];
      assert '/' !in Name(r);
      LastSegment(prefix, seg, Name(r));
    }
  }

  /** A pathname with no `h` cannot include `/dashboard`. */
  lemma NoDashboardWithoutH(s: string)
    requires 'h' !in s
    ensures !Includes(s, "/dashboard")
  {
    if Includes(s, "/dashboard") {
      assert "/dashboard"[4] == 'h';
      IncludesKeepsCharacters(s, "/dashboard", 'h');
    }
  }

  /** A menu entry `/<root>` that names a role hides the button. */
  lemma RootHidesBack(path: string, r: Role)
    requires path == Format([Name(r)])
    ensures IsDashboard(path)
  {
    RoleSegmentHidden("", r);
    FormatShort(Name(r), "");
  }

  /** A menu entry `/<root>/<seg>` shows the button under the conditions of `SubPageShown`. */
  lemma EntryShowsBack(root: string, seg: string)
    requires seg != [] && '/' !in seg && Parse(seg).None?
    requires !Includes("/" + root + "/" + seg, "/dashboard")
    ensures !IsDashboard(Format([root, seg]))
  {
    SubPageShown("/" + root, seg);
    FormatShort(root, seg);
  }

  /**
   * In the patient, doctor and administrator menus, the first entry (the
   * workspace root) hides the button and every other entry shows it.
   */
  lemma PatientMenuBack()
    ensures IsDashboard(PatientPortal.Navigation[0].path)
    ensures forall k :: 1 <= k < |PatientPortal.Navigation| ==> !IsDashboard(PatientPortal.Navigation[k].path)
  {
    PatientPortal.MenuStartsAtRoot();
    RootHidesBack(PatientPortal.Navigation[0].path, Patient);
    forall k | 1 <= k < |PatientPortal.Navigation| ensures !IsDashboard(PatientPortal.Navigation[k].path) {
      PatientEntryBack(k);
    }
  }

  lemma PatientEntryBack(k: nat)
    requires 1 <= k < |PatientPortal.Navigation|
    ensures !IsDashboard(PatientPortal.Navigation[k].path)
  {
    if k == 1 {
      NoDashboardWithoutH("/" + "patient" + "/" + "book");
      EntryShowsBack("patient", "book");
      PatientPortal.BookEntryRenders();
    } else if k == 2 {
      NoDashboardWithoutH("/" + "patient" + "/" + "status");
      EntryShowsBack("patient", "status");
      PatientPortal.StatusEntryRenders();
    } else {
      NoDashboardWithoutH("/" + "patient" + "/" + "reports");
      EntryShowsBack("patient", "reports");
      PatientPortal.ReportsEntryRenders();
    }
  }

  lemma DoctorMenuBack()
    ensures IsDashboard(DoctorDashboard.Navigation[0].path)
    ensures forall k :: 1 <= k < |DoctorDashboard.Navigation| ==> !IsDashboard(DoctorDashboard.Navigation[k].path)
  {
    NoDashboardWithoutH("/" + "doctor" + "/" + "prescribe");
    EntryShowsBack("doctor", "prescribe");
    DoctorDashboard.MenuStartsAtRoot();
    RootHidesBack(DoctorDashboard.Navigation[0].path, Doctor);
    DoctorDashboard.PrescribeEntryRenders();
  }

  lemma AdminMenuBack()
    ensures IsDashboard(AdminDashboard.Navigation[0].path)
    ensures forall k :: 1 <= k < |AdminDashboard.Navigation| ==> !IsDashboard(AdminDashboard.Navigation[k].path)
  {
    NoDashboardWithoutH("/" + "admin" + "/" + "settings");
    EntryShowsBack("admin", "settings");
    AdminDashboard.MenuStartsAtRoot();
    RootHidesBack(AdminDashboard.Navigation[0].path, Admin);
    AdminDashboard.SettingsEntryRenders();
  }
}
