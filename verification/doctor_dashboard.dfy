/**
 * The doctor workspace: its side menu and the nested route table mounted
 * under the `/doctor` prefix, whose catch-all sends any other sub-path back
 * to the workspace root.
 */
module DoctorDashboard {
  import opened Paths
  import opened Text

  datatype View = DoctorSchedule | PrescriptionFlow

  /** The workspace root, `/doctor`. */
  const Root: Path := ["doctor"]

  const Navigation: seq<NavEntry> := [
    NavEntry("My Schedule", "/doctor"),
    NavEntry("Quick Prescribe", "/doctor/prescribe")
  ]

  /** The nested `<Routes>`: `rest` is the path below `/doctor`. */
  function SubRoute(rest: Path): (r: Routed<View>)
    ensures r.Redirect? ==> r.to == Root
    ensures r == Page(DoctorSchedule) <==> rest == []
  {
    if rest == [] then Page(DoctorSchedule)
    else if rest == ["prescribe"] then Page(PrescriptionFlow)
    else Redirect(Root)
  }

  /** The page each menu entry leads to, in menu order: every page of the table. */
  const MenuViews: seq<View> := [DoctorSchedule, PrescriptionFlow]

  /**
   * Entry `entry` is the pathname of the well-formed path `p`, which lies in
   * the workspace (its pathname starts with `/doctor`) and renders page `v`.
   */
  predicate Renders(entry: NavEntry, p: Path, v: View)
  {
    && entry.path == Format(p) && WellFormed(p)
    && StartsWith(entry.path, "/doctor") && |p| >= 1 && p[..1] == Root
    && SubRoute(p[1..]) == Page(v)
  }

  /** Following `entry` renders page `v` of the workspace. */
  ghost predicate LeadsTo(entry: NavEntry, v: View)
  {
    exists p :: Renders(entry, p, v)
  }

  /** The menu has two entries and its first entry is the workspace root. */
  lemma MenuStartsAtRoot()
    ensures |Navigation| == 2
    ensures Renders(Navigation[0], Root, DoctorSchedule)
  {
    FormatShort("doctor", "");
  }

  /**
   * Every menu entry lies inside the workspace and renders a page rather than
   * the catch-all redirect; the menu reaches every page of the table.
   */
  lemma MenuEntriesRender()
    ensures forall k :: 0 <= k < |Navigation| ==> LeadsTo(Navigation[k], MenuViews[k])
    ensures forall v :: v in MenuViews
  {
    MenuStartsAtRoot();
    assert Renders(Navigation[0], Root, MenuViews[0]);
    PrescribeEntryRenders();
    assert Renders(Navigation[1], ["doctor", "prescribe"], MenuViews[1]);
    forall v ensures v in MenuViews {
      assert MenuViews[if v == DoctorSchedule then 0 else 1] == v;
    }
  }

  lemma PrescribeEntryRenders()
    ensures Renders(Navigation[1], ["doctor", "prescribe"], PrescriptionFlow)
  {
    FormatShort("doctor", "prescribe");
  }

  /** A path the table does not list is sent to the root, which renders the schedule. */
  lemma CatchAllSettles(rest: Path)
    requires rest !in {[], ["prescribe"]}
    ensures SubRoute(rest) == Redirect(Root)
    ensures SubRoute(Root[1..]) == Page(DoctorSchedule)
  {
  }
}
