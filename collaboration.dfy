/** The collaboration page: the team search, the member overflow badge, and the four
    dialogs (join menu, join by link, join by code, create team) with their inputs. */
module Collaboration {
  import opened Strings
  import opened Seqs

  /** A team card's data. `members` holds the avatars shown on the card. */
  datatype Team = Team(id: nat, name: string, description: string, members: seq<string>,
                       totalMembers: nat, role: string, category: string)

  function NameMatches(query: string): Team -> bool
  {
    (t: Team) => Contains(ToLower(t.name), ToLower(query))
  }

  /** filteredTeams: the teams whose lower-cased name contains the lower-cased query. */
  function FilteredTeams(teams: seq<Team>, query: string): seq<Team>
  {
    Filter(NameMatches(query), teams)
  }

  /** The filter keeps exactly the matching teams, in their order. */
  lemma FilteredTeamsExact(teams: seq<Team>, query: string)
    ensures forall t :: t in FilteredTeams(teams, query) <==>
              t in teams && Contains(ToLower(t.name), ToLower(query))
    ensures IsSubsequence(FilteredTeams(teams, query), teams)
    ensures forall t :: multiset(FilteredTeams(teams, query))[t] ==
              if Contains(ToLower(t.name), ToLower(query)) then multiset(teams)[t] else 0
  {
    FilterMultiplicity(NameMatches(query), teams);
    var r := FilteredTeams(teams, query);
    forall t | t in r ensures t in teams && NameMatches(query)(t) {
      var i :| 0 <= i < |r| && r[i] == t;
    }
    forall t | t in teams && NameMatches(query)(t) ensures t in r {
      var i :| 0 <= i < |teams| && teams[i] == t;
    }
  }

  /** An empty query lists every team. */
  lemma EmptyQueryListsAll(teams: seq<Team>)
    ensures FilteredTeams(teams, "") == teams
  {
    forall i | 0 <= i < |teams| ensures NameMatches("")(teams[i]) {
      assert ToLower("") == "";
      ContainsEmpty(ToLower(teams[i].name));
    }
    FilterAll(NameMatches(""), teams);
  }

  /** The query ignores case. */
  lemma QueryIgnoresCase(teams: seq<Team>, query: string)
    ensures FilteredTeams(teams, ToLower(query)) == FilteredTeams(teams, query)
  {
    ToLowerIdempotent(query);
    assert NameMatches(ToLower(query)) == NameMatches(query);
  }

  /** The "+n" badge after the avatar pile. It is a plain difference: when a team shows
      more avatars than it has members it goes negative. */
  function OverflowCount(t: Team): (n: int)
    ensures n + |t.members| == t.totalMembers
    ensures n >= 0 <==> |t.members| <= t.totalMembers
  {
    t.totalMembers - |t.members|
  }

  const MockTeams: seq<Team> := [
    Team(1, "SBIT-3K SIA101", "Capstone project development team.", ["u1", "u2", "u3"], 8, "Admin", "Academic"),
    Team(2, "Synthia Core Devs", "Main repository maintenance.", ["u4", "u5", "u6", "u7"], 12, "Member", "Development"),
    Team(3, "Marketing & QA", "Weekly syncs and quality testing.", ["u8", "u9"], 5, "Member", "General")
  ]

  /** The sample cards read +5, +8 and +3. */
  lemma SampleOverflow()
    ensures OverflowCount(MockTeams[0]) == 5 && OverflowCount(MockTeams[1]) == 8 && OverflowCount(MockTeams[2]) == 3
  {
  }

  /** Which of the four dialogs are shown. */
  datatype Dialogs = Dialogs(join: bool, link: bool, code: bool, create: bool)

  const AllClosed := Dialogs(false, false, false, false)

  /** The dialogs are modal: at most one is shown at a time. */
  predicate AtMostOneOpen(d: Dialogs)
  {
    (d.join ==> !d.link && !d.code && !d.create)
    && (d.link ==> !d.code && !d.create)
    && (d.code ==> !d.create)
  }

  /** The input fields of the dialogs and the search box. */
  datatype Inputs = Inputs(inviteLink: string, inviteCode: string, teamName: string,
                           teamDescription: string, teamLogo: Option<string>, searchQuery: string)

  /** The page's state. Each handler below may only be pressed while its button is on
      screen: the page's own buttons while no dialog covers the page, and a dialog's
      buttons while that dialog is shown. */
  class CollaborationPage {
    var showJoinDialog: bool
    var showJoinLinkDialog: bool
    var showJoinCodeDialog: bool
    var showCreateTeamDialog: bool
    var inviteLink: string
    var inviteCode: string
    var teamName: string
    var teamDescription: string
    var teamLogo: Option<string>
    var searchQuery: string

    function Shown(): Dialogs
      reads this
    {
      Dialogs(showJoinDialog, showJoinLinkDialog, showJoinCodeDialog, showCreateTeamDialog)
    }

    function Fields(): Inputs
      reads this
    {
      Inputs(inviteLink, inviteCode, teamName, teamDescription, teamLogo, searchQuery)
    }

    constructor ()
      ensures Shown() == AllClosed
      ensures Fields() == Inputs("", "", "", "", None, "")
    {
      showJoinDialog, showJoinLinkDialog, showJoinCodeDialog, showCreateTeamDialog := false, false, false, false;
      inviteLink, inviteCode, teamName, teamDescription := "", "", "", "";
      teamLogo := None;
      searchQuery := "";
    }

    /** The teams the grid shows. */
    function Listed(teams: seq<Team>): seq<Team>
      reads this
    {
      FilteredTeams(teams, searchQuery)
    }

    /** Typing in the search box. */
    method SetSearchQuery(q: string)
      modifies this
      ensures Shown() == old(Shown())
      ensures Fields() == old(Fields()).(searchQuery := q)
    {
      searchQuery := q;
    }

    /** New Team opens the join menu. */
    method OpenJoinDialog()
      requires Shown() == AllClosed
      modifies this
      ensures Shown() == AllClosed.(join := true) && AtMostOneOpen(Shown())
      ensures Fields() == old(Fields())
    {
      showJoinDialog := true;
    }

    /** The "Create a Workspace" card closes the join menu and opens the create dialog. */
    method CreateWorkspaceCard()
      requires Shown() == AllClosed
      modifies this
      ensures Shown() == AllClosed.(create := true) && AtMostOneOpen(Shown())
      ensures Fields() == old(Fields())
    {
      showJoinDialog := false;
      showCreateTeamDialog := true;
    }

    /** The join menu's close button. */
    method CloseJoinDialog()
      requires showJoinDialog && AtMostOneOpen(Shown())
      modifies this
      ensures Shown() == AllClosed
      ensures Fields() == old(Fields())
    {
      showJoinDialog := false;
    }

    /** Create, Link and Code in the join menu: the menu closes and exactly the chosen
        dialog opens. */
    method ChooseCreate()
      requires showJoinDialog && AtMostOneOpen(Shown())
      modifies this
      ensures Shown() == AllClosed.(create := true)
      ensures Fields() == old(Fields())
    {
      showJoinDialog := false;
      showCreateTeamDialog := true;
    }

    method ChooseLink()
      requires showJoinDialog && AtMostOneOpen(Shown())
      modifies this
      ensures Shown() == AllClosed.(link := true)
      ensures Fields() == old(Fields())
    {
      showJoinDialog := false;
      showJoinLinkDialog := true;
    }

    method ChooseCode()
      requires showJoinDialog && AtMostOneOpen(Shown())
      modifies this
      ensures Shown() == AllClosed.(code := true)
      ensures Fields() == old(Fields())
    {
      showJoinDialog := false;
      showJoinCodeDialog := true;
    }

    /** Typing an invite link. */
    method EditInviteLink(s: string)
      requires showJoinLinkDialog
      modifies this
      ensures Shown() == old(Shown())
      ensures Fields() == old(Fields()).(inviteLink := s)
    {
      inviteLink := s;
    }

    /** The link dialog's X and Back close it and keep the typed link. */
    method CloseLinkDialog()
      requires showJoinLinkDialog && AtMostOneOpen(Shown())
      modifies this
      ensures Shown() == AllClosed
      ensures Fields() == old(Fields())
    {
      showJoinLinkDialog := false;
    }

    /** Join Team (link) closes the dialog and clears the link. */
    method JoinByLink()
      requires showJoinLinkDialog && AtMostOneOpen(Shown())
      modifies this
      ensures Shown() == AllClosed
      ensures Fields() == old(Fields()).(inviteLink := "")
    {
      showJoinLinkDialog := false;
      inviteLink := "";
    }

    /** Typing an invite code. */
    method EditInviteCode(s: string)
      requires showJoinCodeDialog
      modifies this
      ensures Shown() == old(Shown())
      ensures Fields() == old(Fields()).(inviteCode := s)
    {
      inviteCode := s;
    }

    /** The code dialog's X and Back close it and keep the typed code. */
    method CloseCodeDialog()
      requires showJoinCodeDialog && AtMostOneOpen(Shown())
      modifies this
      ensures Shown() == AllClosed
      ensures Fields() == old(Fields())
    {
      showJoinCodeDialog := false;
    }

    /** Join Team (code) closes the dialog and clears the code. */
    method JoinByCode()
      requires showJoinCodeDialog && AtMostOneOpen(Shown())
      modifies this
      ensures Shown() == AllClosed
      ensures Fields() == old(Fields()).(inviteCode := "")
    {
      showJoinCodeDialog := false;
      inviteCode := "";
    }

    /** Choosing a logo file, or clearing the choice. */
    method SetTeamLogo(file: Option<string>)
      requires showCreateTeamDialog
      modifies this
      ensures Shown() == old(Shown())
      ensures Fields() == old(Fields()).(teamLogo := file)
    {
      teamLogo := file;
    }

    method SetTeamName(s: string)
      requires showCreateTeamDialog
      modifies this
      ensures Shown() == old(Shown())
      ensures Fields() == old(Fields()).(teamName := s)
    {
      teamName := s;
    }

    method SetTeamDescription(s: string)
      requires showCreateTeamDialog
      modifies this
      ensures Shown() == old(Shown())
      ensures Fields() == old(Fields()).(teamDescription := s)
    {
      teamDescription := s;
    }

    /** The create dialog's X and Cancel only close it. */
    method CloseCreateDialog()
      requires showCreateTeamDialog && AtMostOneOpen(Shown())
      modifies this
      ensures Shown() == AllClosed
      ensures Fields() == old(Fields())
    {
      showCreateTeamDialog := false;
    }

    /** Create Team closes the dialog and resets its name, description and logo. */
    method CreateTeam()
      requires showCreateTeamDialog && AtMostOneOpen(Shown())
      modifies this
      ensures Shown() == AllClosed
      ensures Fields() == old(Fields()).(teamName := "", teamDescription := "", teamLogo := None)
    {
      showCreateTeamDialog := false;
      teamName := "";
      teamDescription := "";
      teamLogo := None;
    }
  }

  /** A short session: open the menu, pick Link, type a link, join. Afterwards every
      dialog is closed and the link is cleared, while the search query is untouched. */
  method JoinByLinkSession(p: CollaborationPage, link: string)
    requires p.Shown() == AllClosed
    modifies p
    ensures p.Shown() == AllClosed
    ensures p.Fields() == old(p.Fields()).(inviteLink := "")
  {
    p.OpenJoinDialog();
    p.ChooseLink();
    p.EditInviteLink(link);
    p.JoinByLink();
  }
}
