/** A space's page: the discussion list with its tabs, the discussion view opened from
    it, and the badge colour of a discussion type. */
module Space {
  import opened Strings

  /** A discussion card's data, reduced to what the logic reads. */
  datatype Discussion = Discussion(id: nat, author: string, title: string, kind: string)

  const MeetingBadge := "bg-blue-100 text-blue-700"
  const BreakoutBadge := "bg-purple-100 text-purple-700"
  const DiscussionBadge := "bg-green-100 text-green-700"
  const QuestionBadge := "bg-orange-100 text-orange-700"
  const DefaultBadge := "bg-gray-100 text-gray-700"

  /** getBadgeColor: the first of the four words that occurs in the type (matched with
      its case) picks the colour; none of them gives gray. */
  function BadgeColor(kind: string): (r: string)
    ensures r == MeetingBadge <==> Contains(kind, "Meeting")
    ensures r == BreakoutBadge <==> !Contains(kind, "Meeting") && Contains(kind, "BREAKOUT")
    ensures r == DiscussionBadge <==>
              !Contains(kind, "Meeting") && !Contains(kind, "BREAKOUT") && Contains(kind, "Discussion")
    ensures r == QuestionBadge <==>
              !Contains(kind, "Meeting") && !Contains(kind, "BREAKOUT") && !Contains(kind, "Discussion")
              && Contains(kind, "Question")
    ensures r == DefaultBadge <==>
              !Contains(kind, "Meeting") && !Contains(kind, "BREAKOUT") && !Contains(kind, "Discussion")
              && !Contains(kind, "Question")
  {
    if Contains(kind, "Meeting") then MeetingBadge
    else if Contains(kind, "BREAKOUT") then BreakoutBadge
    else if Contains(kind, "Discussion") then DiscussionBadge
    else if Contains(kind, "Question") then QuestionBadge
    else DefaultBadge
  }

  /** The earlier word wins: a type naming both a meeting and a question is blue. */
  lemma MeetingBeatsQuestion(a: string, b: string, c: string)
    ensures BadgeColor(a + "Meeting" + b + "Question" + c) == MeetingBadge
  {
    assert a + "Meeting" + b + "Question" + c == a + "Meeting" + (b + "Question" + c);
    ContainsInfix(a, "Meeting", b + "Question" + c);
  }

  /** A breakout room type, "BREAKOUT ROOM: <team>", is purple unless the team's name
      itself names a meeting. */
  lemma BreakoutRoomsArePurple(team: string)
    ensures BadgeColor("BREAKOUT ROOM: " + team) == if Contains(team, "Meeting") then MeetingBadge else BreakoutBadge
  {
    var s := "BREAKOUT ROOM: " + team;
    assert s == [] + "BREAKOUT" + (" ROOM: " + team);
    ContainsInfix([], "BREAKOUT", " ROOM: " + team);
    NoMeetingInBreakout(team);
  }

  /** "Meeting" does not occur in "BREAKOUT ROOM: <team>" unless it occurs in the team. */
  lemma NoMeetingInBreakout(team: string)
    ensures Contains("BREAKOUT ROOM: " + team, "Meeting") <==> Contains(team, "Meeting")
  {
    var p := "BREAKOUT ROOM: ";
    PrefixWithoutWord(p, team, "Meeting");
  }

  /** The four sample discussions: a meeting, a breakout room of the design team, a
      discussion and a question get blue, purple, green and orange. */
  lemma SampleMeetingBadge()
    ensures BadgeColor("Meeting") == MeetingBadge
  {
    ContainsSelf("Meeting");
  }

  lemma SampleBreakoutBadge()
    ensures BadgeColor("BREAKOUT ROOM: " + DesignTeam) == BreakoutBadge
  {
    DesignTeamIsNoMeeting();
    BreakoutRoomsArePurple(DesignTeam);
  }

  const DesignTeam := "Design Team"

  lemma DesignTeamIsNoMeeting()
    ensures !Contains(DesignTeam, "Meeting")
  {
    var team := DesignTeam;
    assert forall i :: 0 <= i < |team| ==> team[i] != 'M';
    PrefixWithoutWord(team, "", "Meeting");
    assert team + "" == team;
  }

  lemma SampleDiscussionBadge()
    ensures BadgeColor("Discussion") == DiscussionBadge
  {
    NoHigherWordInDiscussion();
    ContainsSelf("Discussion");
  }

  lemma NoHigherWordInDiscussion()
    ensures !Contains("Discussion", "Meeting") && !Contains("Discussion", "BREAKOUT")
  {
    var d := "Discussion";
    assert forall i :: 0 <= i < |d| ==> d[i] != 'M' && d[i] != 'B';
    assert d + "" == d;
    PrefixWithoutWord(d, "", "Meeting");
    PrefixWithoutWord(d, "", "BREAKOUT");
  }

  lemma SampleQuestionBadge()
    ensures BadgeColor("Question") == QuestionBadge
  {
    NoHigherWordInQuestion();
    ContainsSelf("Question");
  }

  lemma NoHigherWordInQuestion()
    ensures !Contains("Question", "Meeting") && !Contains("Question", "BREAKOUT")
    ensures !Contains("Question", "Discussion")
  {
    var q := "Question";
    assert forall i :: 0 <= i < |q| ==> q[i] != 'M' && q[i] != 'B' && q[i] != 'D';
    assert q + "" == q;
    PrefixWithoutWord(q, "", "Meeting");
    PrefixWithoutWord(q, "", "BREAKOUT");
    PrefixWithoutWord(q, "", "Discussion");
  }

  /** The match is case sensitive: a lower-case "breakout" alone stays gray. */
  lemma LowerCaseBreakoutIsGray()
    ensures BadgeColor("breakout") == DefaultBadge
  {
    NoWordInLowerBreakout();
  }

  lemma NoWordInLowerBreakout()
    ensures !Contains("breakout", "Meeting") && !Contains("breakout", "BREAKOUT")
    ensures !Contains("breakout", "Discussion") && !Contains("breakout", "Question")
  {
    var s := "breakout";
    assert forall i :: 0 <= i < |s| ==> s[i] != 'M' && s[i] != 'B' && s[i] != 'D' && s[i] != 'Q';
    assert s + "" == s;
    PrefixWithoutWord(s, "", "Meeting");
    PrefixWithoutWord(s, "", "BREAKOUT");
    PrefixWithoutWord(s, "", "Discussion");
    PrefixWithoutWord(s, "", "Question");
  }

  /** The page's view state. */
  class SpaceView {
    var activeTab: string
    var activeDiscussionTab: string
    var selectedDiscussion: Option<Discussion>
    var showDiscussionView: bool
    var selectedSidebarSpace: string

    /** The discussion view is up exactly when a discussion is selected. */
    predicate Consistent()
      reads this
    {
      showDiscussionView <==> selectedDiscussion.Some?
    }

    constructor ()
      ensures activeTab == "discussions" && activeDiscussionTab == "summary"
      ensures selectedDiscussion == None && !showDiscussionView && selectedSidebarSpace == "general"
      ensures Consistent()
    {
      activeTab := "discussions";
      activeDiscussionTab := "summary";
      selectedDiscussion := None;
      showDiscussionView := false;
      selectedSidebarSpace := "general";
    }

    /** The top header and the top-level tabs are rendered only in the list view. */
    predicate ShowsTopChrome()
      reads this
    {
      !showDiscussionView
    }

    /** The discussion pane needs both the flag and a selected discussion. */
    predicate ShowsDiscussionPane()
      reads this
    {
      showDiscussionView && selectedDiscussion.Some?
    }

    /** While the state is consistent the page shows exactly one of the list (with its
        header and tabs) and the discussion pane, never neither. */
    lemma ExactlyOnePane()
      requires Consistent()
      ensures ShowsTopChrome() != ShowsDiscussionPane()
    {
    }

    /** handleOpenDiscussion: select the discussion, show its view, start on its summary. */
    method OpenDiscussion(d: Discussion)
      modifies this
      ensures selectedDiscussion == Some(d) && showDiscussionView && activeDiscussionTab == "summary"
      ensures activeTab == old(activeTab) && selectedSidebarSpace == old(selectedSidebarSpace)
      ensures Consistent() && !ShowsTopChrome()
    {
      selectedDiscussion := Some(d);
      showDiscussionView := true;
      activeDiscussionTab := "summary";
    }

    /** handleBackToDiscussions: hide the view and drop the selection; the list tab and
        the discussion tab stay as they were. */
    method BackToDiscussions()
      modifies this
      ensures !showDiscussionView && selectedDiscussion == None
      ensures activeTab == old(activeTab) && activeDiscussionTab == old(activeDiscussionTab)
      ensures selectedSidebarSpace == old(selectedSidebarSpace)
      ensures Consistent() && ShowsTopChrome()
    {
      showDiscussionView := false;
      selectedDiscussion := None;
    }

    /** A top-level tab (discussions, questions, polls, reports). */
    method SelectTab(tab: string)
      modifies this
      ensures activeTab == tab
      ensures activeDiscussionTab == old(activeDiscussionTab) && selectedDiscussion == old(selectedDiscussion)
      ensures showDiscussionView == old(showDiscussionView) && selectedSidebarSpace == old(selectedSidebarSpace)
    {
      activeTab := tab;
    }

    /** A tab inside the discussion view (summary, actions, transcript, chat, shared,
        attendance). */
    method SelectDiscussionTab(tab: string)
      modifies this
      ensures activeDiscussionTab == tab
      ensures activeTab == old(activeTab) && selectedDiscussion == old(selectedDiscussion)
      ensures showDiscussionView == old(showDiscussionView) && selectedSidebarSpace == old(selectedSidebarSpace)
    {
      activeDiscussionTab := tab;
    }
  }

  /** Opening a discussion and going back returns to the list on the same top-level tab,
      with nothing selected. */
  method OpenThenBack(v: SpaceView, d: Discussion)
    modifies v
    ensures v.activeTab == old(v.activeTab) && v.selectedDiscussion == None && !v.showDiscussionView
    ensures v.activeDiscussionTab == "summary" && v.Consistent()
  {
    v.OpenDiscussion(d);
    v.BackToDiscussions();
  }
}
