/** The application shell: the header title for a route, the choice between the
    full-screen layout and the main layout (sidebar and header), and the start-up
    dark-mode decision. */
module App {
  import opened Strings

  const DetailPrefix: string := "/meeting-summary/"
  const DefaultTitle: string := "Synthia"
  const DetailTitle: string := "Meeting Details"

  /** The routes with a title of their own, as a table. */
  const ExactTitles: map<string, string> := map[
    "/" := "Dashboard",
    "/calendar" := "Calendar",
    "/meetings" := "Meetings",
    "/meeting-summary" := "Meeting Summary",
    "/meeting-history" := "Meeting History",
    "/tasks" := "Tasks",
    "/collaboration" := "Collaboration",
    "/notifications" := "Notifications",
    "/profile" := "Profile",
    "/recording" := "Recording"
  ]

  /** getPageTitle: any meeting detail route first, then the exact routes, then the
      brand name. */
  function PageTitle(path: string): string
  {
    if DetailPrefix <= path then DetailTitle
    else match path
      case "/" => "Dashboard"
      case "/calendar" => "Calendar"
      case "/meetings" => "Meetings"
      case "/meeting-summary" => "Meeting Summary"
      case "/meeting-history" => "Meeting History"
      case "/tasks" => "Tasks"
      case "/collaboration" => "Collaboration"
      case "/notifications" => "Notifications"
      case "/profile" => "Profile"
      case "/recording" => "Recording"
      case _ => DefaultTitle
  }

  /** No exact route lies under the detail prefix, and none is titled like the two
      fallbacks. */
  lemma ExactTitlesSeparate(path: string)
    requires path in ExactTitles
    ensures !(DetailPrefix <= path)
    ensures ExactTitles[path] != DetailTitle && ExactTitles[path] != DefaultTitle
  {
    assert |path| <= |DetailPrefix| - 1;
  }

  /** The title agrees with the table: the prefix rule wins, then the table, else the
      default. */
  lemma PageTitleByTable(path: string)
    ensures PageTitle(path) == if DetailPrefix <= path then DetailTitle
                               else if path in ExactTitles then ExactTitles[path]
                               else DefaultTitle
  {
  }

  /** 'Meeting Details' is shown exactly on the detail routes, and 'Synthia' exactly on
      the routes that are neither detail routes nor in the table. */
  lemma PageTitleClasses(path: string)
    ensures PageTitle(path) == DetailTitle <==> DetailPrefix <= path
    ensures PageTitle(path) == DefaultTitle <==> !(DetailPrefix <= path) && path !in ExactTitles
  {
    PageTitleByTable(path);
    if path in ExactTitles {
      ExactTitlesSeparate(path);
    }
  }

  /** Every detail route, whatever follows the slash, is 'Meeting Details'. */
  lemma DetailRoutes(id: string)
    ensures PageTitle(DetailPrefix + id) == DetailTitle
  {
    assert DetailPrefix <= DetailPrefix + id;
  }

  /** '/meeting-summary' without the trailing slash is the summary list, not a detail. */
  lemma SummaryListIsNotDetail()
    ensures PageTitle("/meeting-summary") == "Meeting Summary"
  {
    assert !(DetailPrefix <= "/meeting-summary");
  }

  /** The Layout test: three exact routes and two route families render without the
      sidebar and header. */
  predicate IsFullScreen(path: string)
  {
    path == "/meeting-room" || path == "/video" || path == "/recording"
    || "/workspace" <= path || "/space" <= path
  }

  /** What Layout renders: the bare page, or the main layout with a header title. */
  datatype Frame = Bare | WithHeader(title: string)

  function LayoutFrame(path: string): (f: Frame)
    ensures f.Bare? <==> IsFullScreen(path)
    ensures f.WithHeader? ==> f.title == PageTitle(path)
  {
    if IsFullScreen(path) then Bare else WithHeader(PageTitle(path))
  }

  /** Only the exact '/recording' route is full screen; a sub-route such as
      '/recording/2' gets the main layout, titled 'Synthia'. */
  lemma RecordingSubRoute()
    ensures IsFullScreen("/recording")
    ensures LayoutFrame("/recording/2") == WithHeader(DefaultTitle)
  {
    var p := "/recording/2";
    assert !("/workspace" <= p) by { assert p[1] != "/workspace"[1]; }
    assert !("/space" <= p) by { assert p[1] != "/space"[1]; }
    assert !(DetailPrefix <= p) by { assert |p| < |DetailPrefix|; }
  }

  /** The family tests are prefix tests: every route under '/space' or '/workspace' is
      full screen, e.g. '/spaces' too. */
  lemma FamiliesAreFullScreen(rest: string)
    ensures IsFullScreen("/space" + rest) && IsFullScreen("/workspace" + rest)
  {
    assert "/space" <= "/space" + rest;
    assert "/workspace" <= "/workspace" + rest;
  }

  /** The 'Recording' entry of the title table is never shown in a header: the only
      route it belongs to is full screen. */
  lemma RecordingTitleNeverShown(path: string)
    ensures LayoutFrame(path) != WithHeader("Recording")
  {
    if !IsFullScreen(path) {
      PageTitleByTable(path);
      if path in ExactTitles {
        ExactTitlesSeparate(path);
      }
    }
  }

  /** The dark-mode decision at start-up. `storedTheme` is the value stored under the
      'theme' key (None when the key is absent) and `prefersDark` the system colour
      scheme preference. */
  predicate IsDark(storedTheme: Option<string>, prefersDark: bool)
  {
    storedTheme == Some("dark") || (storedTheme.None? && prefersDark)
  }

  /** A stored theme decides alone (dark only for 'dark'); without one the system
      preference decides. */
  lemma DarkModeRule(storedTheme: Option<string>, prefersDark: bool)
    ensures storedTheme.Some? ==> (IsDark(storedTheme, prefersDark) <==> storedTheme.value == "dark")
    ensures storedTheme.None? ==> (IsDark(storedTheme, prefersDark) <==> prefersDark)
  {
  }
}
