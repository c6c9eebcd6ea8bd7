/**
 * The administrator workspace: its side menu and the nested route table mounted
 * under the `/admin` prefix, whose catch-all sends any other sub-path back
 * to the workspace root.
 */
module AdminDashboard {
  import opened Paths
  import opened Text

  datatype View = RoleManagement | SettingsPlaceholder

  /** The workspace root, `/admin`. */
  const Root: Path := ["admin"]

  const Navigation: seq<NavEntry> := [
    NavEntry("Role Management", "/admin"),
    NavEntry("Settings", "/admin/settings")
  ]

  /** The nested `<Routes>`: `rest` is the path below `/admin`. */
  function SubRoute(rest: Path): (r: Routed<View>)
    ensures r.Redirect? ==> r.to == Root
    ensures r == Page(RoleManagement) <==> rest == []
  {
    if rest == [] then Page(RoleManagement)
    else if rest == ["settings"] then Page(SettingsPlaceholder)
    else Redirect(Root)
  }

  /** The page each menu entry leads to, in menu order: every page of the table. */
  const MenuViews: seq<View> := [RoleManagement, SettingsPlaceholder]

  /**
   * Entry `entry` is the pathname of the well-formed path `p`, which lies in
   * the workspace (its pathname starts with `/admin`) and renders page `v`.
   */
  predicate Renders(entry: NavEntry, p: Path, v: View)
  {
    && entry.path == Format(p) && WellFormed(p)
    && StartsWith(entry.path, "/admin") && |p| >= 1 && p[..1] == Root
    && SubRoute(p[1..]) == Page(v)
  }

  /** Following `entry` renders page `v` of the workspace. */
  ghost predicate LeadsTo(entry: NavEntry, v: View)
  {
    exists p :: Renders(entry, p, v)
  }

  /** The menu has two entries and its first entry is the workspace root. */
  lemma MenuStartsAtRoot()
    ensures |Navigation| == 2
    ensures Renders(Navigation[0], Root, RoleManagement)
  {
    FormatShort("admin", "");
  }

  /**
   * Every menu entry lies inside the workspace and renders a page rather than
   * the catch-all redirect; the menu reaches every page of the table.
   */
  lemma MenuEntriesRender()
    ensures forall k :: 0 <= k < |Navigation| ==> LeadsTo(Navigation[k], MenuViews[k])
    ensures forall v :: v in MenuViews
  {
    MenuStartsAtRoot();
    assert Renders(Navigation[0], Root, MenuViews[0]);
    SettingsEntryRenders();
    assert Renders(Navigation[1], ["admin", "settings"], MenuViews[1]);
    forall v ensures v in MenuViews {
      assert MenuViews[if v == RoleManagement then 0 else 1] == v;
    }
  }

  lemma SettingsEntryRenders()
    ensures Renders(Navigation[1], ["admin", "settings"], SettingsPlaceholder)
  {
    FormatShort("admin", "settings");
  }

  /** A path the table does not list is sent to the root, which renders role management. */
  lemma CatchAllSettles(rest: Path)
    requires rest !in {[], ["settings"]}
    ensures SubRoute(rest) == Redirect(Root)
    ensures SubRoute(Root[1..]) == Page(RoleManagement)
  {
  }
}
