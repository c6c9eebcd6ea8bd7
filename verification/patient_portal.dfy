/**
 * The patient workspace: its side menu and the nested route table mounted
 * under the `/patient` prefix, whose catch-all sends any other sub-path back to the
 * workspace root.  The user name and the logout action are handed to the
 * layout as they are; the layout itself is not part of this model.
 */
module PatientPortal {
  import opened Paths
  import opened Text

  datatype View = PatientHome | AppointmentBooking | AppointmentStatus | ReportDownload

  /** The workspace root, `/patient`. */
  const Root: Path := ["patient"]

  const Navigation: seq<NavEntry> := [
    NavEntry("Home", "/patient"),
    NavEntry("Book Appointment", "/patient/book"),
    NavEntry("Appointment Status", "/patient/status"),
    NavEntry("My Reports", "/patient/reports")
  ]

  /** The nested `<Routes>`: `rest` is the path below `/patient`. */
  function SubRoute(rest: Path): (r: Routed<View>)
    ensures r.Redirect? ==> r.to == Root
    ensures r == Page(PatientHome) <==> rest == []
  {
    if rest == [] then Page(PatientHome)
    else if rest == ["book"] then Page(AppointmentBooking)
    else if rest == ["status"] then Page(AppointmentStatus)
    else if rest == ["reports"] then Page(ReportDownload)
    else Redirect(Root)
  }

  /** The page each menu entry leads to, in menu order: every page of the table. */
  const MenuViews: seq<View> := [PatientHome, AppointmentBooking, AppointmentStatus, ReportDownload]

  /**
   * Entry `entry` is the pathname of the well-formed path `p`, which lies in
   * the workspace (its pathname starts with `/patient`) and renders page `v`.
   */
  predicate Renders(entry: NavEntry, p: Path, v: View)
  {
    && entry.path == Format(p) && WellFormed(p)
    && StartsWith(entry.path, "/patient") && |p| >= 1 && p[..1] == Root
    && SubRoute(p[1..]) == Page(v)
  }

  /** Following `entry` renders page `v` of the workspace. */
  ghost predicate LeadsTo(entry: NavEntry, v: View)
  {
    exists p :: Renders(entry, p, v)
  }

  /** The menu has four entries and its first entry is the workspace root. */
  lemma MenuStartsAtRoot()
    ensures |Navigation| == 4
    ensures Renders(Navigation[0], Root, PatientHome)
  {
    FormatShort("patient", "");
  }

  /**
   * Every menu entry lies inside the workspace and renders a page rather than
   * the catch-all redirect; the menu reaches every page of the table.
   */
  lemma MenuEntriesRender()
    ensures forall k :: 0 <= k < |Navigation| ==> LeadsTo(Navigation[k], MenuViews[k])
    ensures forall v :: v in MenuViews
  {
    forall k | 0 <= k < |Navigation| {
      EntryRenders(k);
    }
    forall v ensures v in MenuViews {
      var k := match v
        case PatientHome => 0
        case AppointmentBooking => 1
        case AppointmentStatus => 2
        case ReportDownload => 3;
      assert MenuViews[k] == v;
    }
  }

  /** Entry `k` of the menu renders page `k` of `MenuViews`. */
  lemma EntryRenders(k: nat)
    requires k < |Navigation|
    ensures LeadsTo(Navigation[k], MenuViews[k])
  {
    if k == 0 {
      MenuStartsAtRoot();
      assert Renders(Navigation[k], Root, MenuViews[k]);
    } else if k == 1 {
      BookEntryRenders();
      assert Renders(Navigation[k], ["patient", "book"], MenuViews[k]);
    } else if k == 2 {
      StatusEntryRenders();
      assert Renders(Navigation[k], ["patient", "status"], MenuViews[k]);
    } else {
      ReportsEntryRenders();
      assert Renders(Navigation[k], ["patient", "reports"], MenuViews[k]);
    }
  }

  lemma BookEntryRenders()
    ensures Renders(Navigation[1], ["patient", "book"], AppointmentBooking)
  {
    FormatShort("patient", "book");
  }

  lemma StatusEntryRenders()
    ensures Renders(Navigation[2], ["patient", "status"], AppointmentStatus)
  {
    FormatShort("patient", "status");
  }

  lemma ReportsEntryRenders()
    ensures Renders(Navigation[3], ["patient", "reports"], ReportDownload)
  {
    FormatShort("patient", "reports");
  }

  /** A path the table does not list is sent to the root, which renders the home page. */
  lemma CatchAllSettles(rest: Path)
    requires rest !in {[], ["book"], ["status"], ["reports"]}
    ensures SubRoute(rest) == Redirect(Root)
    ensures SubRoute(Root[1..]) == Page(PatientHome)
  {
  }
}
