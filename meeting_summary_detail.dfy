/** The meeting summary page: which meeting a route id shows, which tabs that meeting
    offers, the rule that moves the active tab back to the summary when it disappears,
    and the role summary shown under "For You". */
module MeetingSummaryDetail {
  import opened Strings
  import opened Seqs

  /** The insight text and bullet points written for one role. */
  datatype RoleSummary = RoleSummary(summary: string, points: seq<string>)

  /** A meeting record, reduced to what the tab and role logic reads. The four lists
      hold one name per shared file, attendee row, chat message and breakout room; a
      record without a list behaves as one with an empty list. */
  datatype Meeting = Meeting(
    id: string,
    title: string,
    roleSummaries: map<string, RoleSummary>,
    files: seq<string>,
    attendanceList: seq<string>,
    chatHistory: seq<string>,
    breakoutRooms: seq<string>)

  /** A tab of the page: its id and its caption. */
  datatype Tab = Tab(id: string, caption: string)

  const DefaultId: string := "1"

  /** The key used for a route id: a missing or empty id means meeting '1'. */
  function LookupKey(id: Option<string>): string
  {
    if id.None? || id.value == "" then DefaultId else id.value
  }

  /** meetingData: the meeting stored under the key, or meeting '1' when there is none. */
  function LookupMeeting(db: map<string, Meeting>, id: Option<string>): (m: Meeting)
    requires DefaultId in db
    ensures m in db.Values
    ensures LookupKey(id) in db ==> m == db[LookupKey(id)]
    ensures LookupKey(id) !in db ==> m == db[DefaultId]
  {
    var key := LookupKey(id);
    if key in db then db[key] else db[DefaultId]
  }

  /** A missing id and an empty id both show meeting '1'. */
  lemma MissingIdShowsDefault(db: map<string, Meeting>)
    requires DefaultId in db
    ensures LookupMeeting(db, None) == db[DefaultId]
    ensures LookupMeeting(db, Some("")) == db[DefaultId]
  {
  }

  const SummaryTab := Tab("summary", "Summary & Reports")
  const ForYouTab := Tab("for-you", "For You")
  const ActionsTab := Tab("actions", "Action Items")
  const TranscriptTab := Tab("transcript", "Recording & Transcript")
  const FilesTab := Tab("files", "Shared Files")
  const AttendanceTab := Tab("attendance", "Attendance")
  const ChatTab := Tab("chat", "Chat History")
  const BreakoutTab := Tab("breakout", "Breakout Rooms")

  /** The four tabs every meeting has. */
  const BaseTabs: seq<Tab> := [SummaryTab, ForYouTab, ActionsTab, TranscriptTab]

  /** Every tab id in the order the page can show them. */
  const AllTabIds: seq<string> :=
    ["summary", "for-you", "actions", "transcript", "files", "attendance", "chat", "breakout"]

  /** The tab `t` when the list it shows is non-empty, nothing otherwise. */
  function TabIf<T>(items: seq<T>, t: Tab): seq<Tab>
  {
    if |items| > 0 then [t] else []
  }

  /** The tabs shown for a meeting. */
  function VisibleTabs(m: Meeting): seq<Tab>
  {
    BaseTabs + TabIf(m.files, FilesTab) + TabIf(m.attendanceList, AttendanceTab)
    + TabIf(m.chatHistory, ChatTab) + TabIf(m.breakoutRooms, BreakoutTab)
  }

  /** visibleTabs: start from the base tabs and push each optional tab whose list is
      non-empty, in the page's fixed order. */
  method BuildVisibleTabs(m: Meeting) returns (baseTabs: seq<Tab>)
    ensures baseTabs == VisibleTabs(m)
  {
    baseTabs := [SummaryTab, ForYouTab, ActionsTab, TranscriptTab];
    if |m.files| > 0 {
      baseTabs := baseTabs + [FilesTab];
    }
    if |m.attendanceList| > 0 {
      baseTabs := baseTabs + [AttendanceTab];
    }
    if |m.chatHistory| > 0 {
      baseTabs := baseTabs + [ChatTab];
    }
    if |m.breakoutRooms| > 0 {
      baseTabs := baseTabs + [BreakoutTab];
    }
  }

  /** The tab list holds a tab with the given id (visibleTabs.find succeeds). */
  predicate HasTab(tabs: seq<Tab>, id: string)
  {
    exists i :: 0 <= i < |tabs| && tabs[i].id == id
  }

  /** Every meeting starts with summary, for-you, actions and transcript, in that order. */
  lemma BaseTabsFirst(m: Meeting)
    ensures |VisibleTabs(m)| >= 4 && VisibleTabs(m)[..4] == BaseTabs
  {
    assert VisibleTabs(m)[..4] == BaseTabs;
  }

  /** Each tab shown is a base tab or an optional tab whose list is non-empty. */
  lemma VisibleTabsMembers(m: Meeting, t: Tab)
    ensures t in VisibleTabs(m) <==>
              t in BaseTabs
              || (t == FilesTab && |m.files| > 0) || (t == AttendanceTab && |m.attendanceList| > 0)
              || (t == ChatTab && |m.chatHistory| > 0) || (t == BreakoutTab && |m.breakoutRooms| > 0)
  {
  }

  /** A tab's place in the page's fixed order; ids the page never shows come last. */
  function Rank(id: string): (k: nat)
    ensures k < |AllTabIds| ==> AllTabIds[k] == id
  {
    match id
    case "summary" => 0
    case "for-you" => 1
    case "actions" => 2
    case "transcript" => 3
    case "files" => 4
    case "attendance" => 5
    case "chat" => 6
    case "breakout" => 7
    case _ => 8
  }

  /** The tabs appear in strictly increasing place of the fixed order. */
  predicate InFixedOrder(tabs: seq<Tab>)
  {
    forall i, j :: 0 <= i < j < |tabs| ==> Rank(tabs[i].id) < Rank(tabs[j].id)
  }

  predicate RanksBelow(tabs: seq<Tab>, n: nat)
  {
    forall i :: 0 <= i < |tabs| ==> Rank(tabs[i].id) < n
  }

  /** One conditional push keeps the order when the pushed tab comes later than every
      tab so far. */
  lemma PushKeepsOrder<T>(tabs: seq<Tab>, items: seq<T>, t: Tab, n: nat)
    requires InFixedOrder(tabs) && RanksBelow(tabs, Rank(t.id)) && Rank(t.id) < n
    ensures InFixedOrder(tabs + TabIf(items, t)) && RanksBelow(tabs + TabIf(items, t), n)
  {
    var r := tabs + TabIf(items, t);
    forall i, j | 0 <= i < j < |r| ensures Rank(r[i].id) < Rank(r[j].id) {
      if j >= |tabs| {
        assert r[j] == t && r[i] == tabs[i];
      }
    }
  }

  /** The base tabs hold the first four places of the order. */
  lemma BaseTabsOrdered()
    ensures InFixedOrder(BaseTabs) && RanksBelow(BaseTabs, 4)
  {
    assert Rank(SummaryTab.id) == 0 && Rank(ForYouTab.id) == 1;
    assert Rank(ActionsTab.id) == 2 && Rank(TranscriptTab.id) == 3;
  }

  /** The shown tabs follow the page's fixed order. */
  lemma VisibleTabsOrdered(m: Meeting)
    ensures InFixedOrder(VisibleTabs(m)) && RanksBelow(VisibleTabs(m), |AllTabIds|)
  {
    var s0 := BaseTabs;
    BaseTabsOrdered();
    OptionalIdsDiffer();
    var s1 := s0 + TabIf(m.files, FilesTab);
    PushKeepsOrder(s0, m.files, FilesTab, 5);
    var s2 := s1 + TabIf(m.attendanceList, AttendanceTab);
    PushKeepsOrder(s1, m.attendanceList, AttendanceTab, 6);
    var s3 := s2 + TabIf(m.chatHistory, ChatTab);
    PushKeepsOrder(s2, m.chatHistory, ChatTab, 7);
    PushKeepsOrder(s3, m.breakoutRooms, BreakoutTab, 8);
  }

  /** Tabs in the fixed order carry known ids, none of them twice. */
  lemma OrderedIdsDistinct(tabs: seq<Tab>)
    requires InFixedOrder(tabs) && RanksBelow(tabs, |AllTabIds|)
    ensures forall i :: 0 <= i < |tabs| ==> AllTabIds[Rank(tabs[i].id)] == tabs[i].id
    ensures forall i, j :: 0 <= i < j < |tabs| ==> tabs[i].id != tabs[j].id
  {
  }

  /** The shown tabs follow the page's fixed order summary, for-you, actions,
      transcript, files, attendance, chat, breakout, so no tab id appears twice. */
  lemma TabOrderAndDistinct(m: Meeting)
    ensures InFixedOrder(VisibleTabs(m)) && RanksBelow(VisibleTabs(m), |AllTabIds|)
    ensures forall i :: 0 <= i < |VisibleTabs(m)| ==> AllTabIds[Rank(VisibleTabs(m)[i].id)] == VisibleTabs(m)[i].id
    ensures forall i, j :: 0 <= i < j < |VisibleTabs(m)| ==> VisibleTabs(m)[i].id != VisibleTabs(m)[j].id
  {
    VisibleTabsOrdered(m);
    OrderedIdsDistinct(VisibleTabs(m));
  }

  /** A concatenation holds a tab with the id when one of its parts does. */
  lemma HasTabConcat(a: seq<Tab>, b: seq<Tab>, id: string)
    ensures HasTab(a + b, id) <==> HasTab(a, id) || HasTab(b, id)
  {
    if HasTab(a + b, id) {
      var i :| 0 <= i < |a + b| && (a + b)[i].id == id;
      if i >= |a| {
        assert b[i - |a|] == (a + b)[i];
      }
    }
    if HasTab(b, id) {
      var i :| 0 <= i < |b| && b[i].id == id;
      assert (a + b)[|a| + i] == b[i];
    }
    if HasTab(a, id) {
      var i :| 0 <= i < |a| && a[i].id == id;
      assert (a + b)[i] == a[i];
    }
  }

  /** A conditional tab holds the id when its list is non-empty and it carries the id. */
  lemma HasTabIf<T>(items: seq<T>, t: Tab, id: string)
    ensures HasTab(TabIf(items, t), id) <==> |items| > 0 && t.id == id
  {
    if |items| > 0 && t.id == id {
      assert TabIf(items, t)[0] == t;
    }
  }

  /** The shown tabs hold an id exactly when a base tab carries it or an optional tab
      with a non-empty list does. */
  lemma VisibleTabsHave(m: Meeting, id: string)
    ensures HasTab(VisibleTabs(m), id) <==>
              HasTab(BaseTabs, id)
              || (|m.files| > 0 && id == "files") || (|m.attendanceList| > 0 && id == "attendance")
              || (|m.chatHistory| > 0 && id == "chat") || (|m.breakoutRooms| > 0 && id == "breakout")
  {
    var s1 := BaseTabs + TabIf(m.files, FilesTab);
    var s2 := s1 + TabIf(m.attendanceList, AttendanceTab);
    var s3 := s2 + TabIf(m.chatHistory, ChatTab);
    OptionalIdsDiffer();
    HasTabIf(m.files, FilesTab, id);
    HasTabIf(m.attendanceList, AttendanceTab, id);
    HasTabIf(m.chatHistory, ChatTab, id);
    HasTabIf(m.breakoutRooms, BreakoutTab, id);
    HasTabConcat(BaseTabs, TabIf(m.files, FilesTab), id);
    HasTabConcat(s1, TabIf(m.attendanceList, AttendanceTab), id);
    HasTabConcat(s2, TabIf(m.chatHistory, ChatTab), id);
    HasTabConcat(s3, TabIf(m.breakoutRooms, BreakoutTab), id);
  }

  /** No base tab carries an id ranked after them. */
  lemma NotInBase(id: string)
    requires Rank(id) >= 4
    ensures !HasTab(BaseTabs, id)
  {
    BaseTabsOrdered();
  }

  /** Each optional tab is shown exactly when the meeting's list for it is non-empty. */
  lemma OptionalTabIff(m: Meeting)
    ensures HasTab(VisibleTabs(m), "files") <==> |m.files| > 0
    ensures HasTab(VisibleTabs(m), "attendance") <==> |m.attendanceList| > 0
    ensures HasTab(VisibleTabs(m), "chat") <==> |m.chatHistory| > 0
    ensures HasTab(VisibleTabs(m), "breakout") <==> |m.breakoutRooms| > 0
  {
    OptionalIdsDiffer();
    NotInBase("files");
    NotInBase("attendance");
    NotInBase("chat");
    NotInBase("breakout");
    VisibleTabsHave(m, "files");
    VisibleTabsHave(m, "attendance");
    VisibleTabsHave(m, "chat");
    VisibleTabsHave(m, "breakout");
  }

  lemma OptionalIdsDiffer()
    ensures FilesTab.id == "files" && AttendanceTab.id == "attendance"
    ensures ChatTab.id == "chat" && BreakoutTab.id == "breakout"
    ensures Rank("files") == 4 && Rank("attendance") == 5 && Rank("chat") == 6 && Rank("breakout") == 7
    ensures "files" != "attendance" && "files" != "chat" && "files" != "breakout"
    ensures "attendance" != "chat" && "attendance" != "breakout" && "chat" != "breakout"
  {
  }

  /** visibleTabs.find(t => t.id === activeTab): the first tab with the id, if any. */
  method FindTab(tabs: seq<Tab>, id: string) returns (found: Option<Tab>)
    ensures found.Some? <==> HasTab(tabs, id)
    ensures found.Some? ==> found.value.id == id && found.value in tabs
    ensures found.Some? ==> exists i :: (0 <= i < |tabs| && tabs[i] == found.value
                                          && forall k :: 0 <= k < i ==> tabs[k].id != id)
  {
    var i := 0;
    while i < |tabs|
      invariant 0 <= i <= |tabs|
      invariant forall k :: 0 <= k < i ==> tabs[k].id != id
    {
      if tabs[i].id == id {
        return Some(tabs[i]);
      }
      i := i + 1;
    }
    return None;
  }

  /** The active tab after the safety check: kept when it is shown, else 'summary'. */
  function ResetTab(activeTab: string, tabs: seq<Tab>): string
  {
    if HasTab(tabs, activeTab) then activeTab else "summary"
  }

  /** After the reset rule the active tab is always one of the meeting's tabs: it is
      unchanged when it was visible, and 'summary' otherwise. */
  lemma ResetTabVisible(activeTab: string, m: Meeting)
    ensures HasTab(VisibleTabs(m), ResetTab(activeTab, VisibleTabs(m)))
    ensures HasTab(VisibleTabs(m), activeTab) ==> ResetTab(activeTab, VisibleTabs(m)) == activeTab
    ensures !HasTab(VisibleTabs(m), activeTab) ==> ResetTab(activeTab, VisibleTabs(m)) == "summary"
  {
    assert VisibleTabs(m)[0] == SummaryTab;
  }

  /** The reset rule changes nothing on a tab that is already valid. */
  lemma ResetTabIdempotent(activeTab: string, m: Meeting)
    ensures ResetTab(ResetTab(activeTab, VisibleTabs(m)), VisibleTabs(m)) == ResetTab(activeTab, VisibleTabs(m))
  {
    ResetTabVisible(activeTab, m);
  }

  const FallbackSummary: string := "No specific insights generated for this role in this meeting."

  /** currentRoleSummary: the meeting's entry for the role, or the fallback text with no
      points. */
  function CurrentRoleSummary(m: Meeting, role: string): (r: RoleSummary)
    ensures role in m.roleSummaries ==> r == m.roleSummaries[role]
    ensures role !in m.roleSummaries ==> r.summary == FallbackSummary && r.points == []
  {
    if role in m.roleSummaries then m.roleSummaries[role] else RoleSummary(FallbackSummary, [])
  }

  /** The two meetings of the page's table, reduced to what the logic reads. */
  const Meeting1: Meeting := Meeting(
    "1", "Capstone Mock Defense",
    map[
      "Lead Developer" := RoleSummary(
        "The panel focused on your tech stack. WebRTC was approved, but the database schema needs refactoring.",
        ["Refactor DB Schema by Friday.", "Review auth flow vulnerabilities.", "WebRTC confirmed for real-time comms."]),
      "UI/UX Designer" := RoleSummary(
        "Positive feedback on layout. Request for phased mobile rollout design.",
        ["Create mobile rollout mockups.", "Ensure WCAG color contrast compliance.", "Refine onboarding flow."])],
    ["System_Architecture_v1.png", "Budget_Proposal.xlsx"],
    ["Klariz Habla", "Peter Parker"],
    ["Welcome everyone."],
    ["Room 1: Backend Defense", "Room 2: Frontend Demo"])

  const Meeting2: Meeting := Meeting(
    "2", "Finals Defense Preparation",
    map[
      "Lead Developer" := RoleSummary(
        "Requirements gathered for the new student portal module.",
        ["Draft ERD for Student module.", "Setup validation rules."])],
    [], [], [], [])

  const MeetingDb: map<string, Meeting> := map["1" := Meeting1, "2" := Meeting2]

  /** The roles the role dropdown offers. */
  const RoleMenu: seq<string> := ["Lead Developer", "UI/UX Designer", "Project Manager"]

  /** Over the dropdown's roles: meeting '1' has insights for the first two and falls
      back for "Project Manager"; meeting '2' has insights for "Lead Developer" only. */
  lemma RoleMenuSummaries()
    ensures CurrentRoleSummary(Meeting1, RoleMenu[0]).points == Meeting1.roleSummaries["Lead Developer"].points
    ensures |CurrentRoleSummary(Meeting1, RoleMenu[1]).points| == 3
    ensures CurrentRoleSummary(Meeting1, RoleMenu[2]) == RoleSummary(FallbackSummary, [])
    ensures |CurrentRoleSummary(Meeting2, RoleMenu[0]).points| == 2
    ensures CurrentRoleSummary(Meeting2, RoleMenu[1]) == RoleSummary(FallbackSummary, [])
    ensures CurrentRoleSummary(Meeting2, RoleMenu[2]) == RoleSummary(FallbackSummary, [])
  {
    assert RoleMenu[2] !in Meeting1.roleSummaries;
    assert RoleMenu[1] !in Meeting2.roleSummaries && RoleMenu[2] !in Meeting2.roleSummaries;
  }

  /** Meeting '1' offers all eight tabs; meeting '2' only the four base tabs. */
  lemma TableTabs()
    ensures VisibleTabs(Meeting1) == BaseTabs + [FilesTab, AttendanceTab, ChatTab, BreakoutTab]
    ensures VisibleTabs(Meeting2) == BaseTabs
  {
  }

  /** An unknown id shows meeting '1'; moving from meeting '1' on the chat tab to meeting
      '2' sends the page back to the summary tab. */
  lemma SwitchingMeetings()
    ensures LookupMeeting(MeetingDb, Some("42")) == Meeting1
    ensures ResetTab("chat", VisibleTabs(LookupMeeting(MeetingDb, Some("2")))) == "summary"
  {
    assert LookupMeeting(MeetingDb, Some("2")) == Meeting2;
    assert VisibleTabs(Meeting2) == BaseTabs;
    assert !HasTab(BaseTabs, "chat");
  }

  /** The page's own state: the route id, the active tab, the selected role and the role
      dropdown. */
  class SummaryPage {
    var id: Option<string>
    var activeTab: string
    var selectedRole: string
    var isRoleDropdownOpen: bool

    constructor (routeId: Option<string>)
      ensures id == routeId && activeTab == "summary"
      ensures selectedRole == "Lead Developer" && !isRoleDropdownOpen
    {
      id := routeId;
      activeTab := "summary";
      selectedRole := "Lead Developer";
      isRoleDropdownOpen := false;
    }

    /** The meeting the page shows. */
    function Shown(db: map<string, Meeting>): Meeting
      requires DefaultId in db
      reads this
    {
      LookupMeeting(db, id)
    }

    /** A click on a tab makes it active. */
    method SelectTab(tab: string)
      modifies this
      ensures activeTab == tab
      ensures id == old(id) && selectedRole == old(selectedRole) && isRoleDropdownOpen == old(isRoleDropdownOpen)
    {
      activeTab := tab;
    }

    /** The route moves to another meeting id. */
    method ChangeRoute(newId: Option<string>)
      modifies this
      ensures id == newId
      ensures activeTab == old(activeTab) && selectedRole == old(selectedRole) && isRoleDropdownOpen == old(isRoleDropdownOpen)
    {
      id := newId;
    }

    /** The role button flips the dropdown. */
    method ToggleRoleDropdown()
      modifies this
      ensures isRoleDropdownOpen == !old(isRoleDropdownOpen)
      ensures id == old(id) && activeTab == old(activeTab) && selectedRole == old(selectedRole)
    {
      isRoleDropdownOpen := !isRoleDropdownOpen;
    }

    /** Picking a role in the dropdown selects it and closes the dropdown. */
    method PickRole(role: string)
      modifies this
      ensures selectedRole == role && !isRoleDropdownOpen
      ensures id == old(id) && activeTab == old(activeTab)
    {
      selectedRole := role;
      isRoleDropdownOpen := false;
    }

    /** The safety effect: look the active tab up among the shown meeting's tabs and
        fall back to 'summary' when it is missing. */
    method ResetActiveTab(db: map<string, Meeting>)
      requires DefaultId in db
      modifies this
      ensures activeTab == ResetTab(old(activeTab), VisibleTabs(LookupMeeting(db, id)))
      ensures HasTab(VisibleTabs(LookupMeeting(db, id)), activeTab)
      ensures id == old(id) && selectedRole == old(selectedRole) && isRoleDropdownOpen == old(isRoleDropdownOpen)
    {
      var visibleTabs := BuildVisibleTabs(LookupMeeting(db, id));
      var tabExists := FindTab(visibleTabs, activeTab);
      ResetTabVisible(activeTab, LookupMeeting(db, id));
      if tabExists.None? {
        activeTab := "summary";
      }
    }
  }
}
