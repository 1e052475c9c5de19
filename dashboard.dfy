/** The dashboard: the status and priority badge colours of the task cards, and the two
    modals (the meeting briefing and the task detail) with the Escape key that closes
    them. */
module Dashboard {
  import opened Strings

  /** A task card's data. */
  datatype Task = Task(id: nat, title: string, status: string, workspace: string,
                       dueDate: string, priority: string, description: string)

  const BlueStatus := "bg-blue-100 text-blue-600" + " dark:bg-blue-900/30" + " dark:text-blue-300"
  const GreenStatus := "bg-green-100 text-green-600" + " dark:bg-green-900/30" + " dark:text-green-300"
  const YellowStatus := "bg-yellow-100 text-yellow-600" + " dark:bg-yellow-900/30" + " dark:text-yellow-300"
  const RedPriority := "bg-red-100 text-red-600" + " dark:bg-red-900/30" + " dark:text-red-300"
  const OrangePriority := "bg-orange-100 text-orange-600" + " dark:bg-orange-900/30" + " dark:text-orange-300"
  /** Both classifiers fall back to the same gray badge. */
  const GrayBadge := "bg-gray-100 text-gray-600"

  /** The colour tags differ from each other (at the colour name after "bg-"). */
  lemma BadgeColorsDistinct()
    ensures BlueStatus != GreenStatus && BlueStatus != YellowStatus && BlueStatus != GrayBadge
    ensures GreenStatus != YellowStatus && GreenStatus != GrayBadge && YellowStatus != GrayBadge
    ensures RedPriority != OrangePriority && RedPriority != GrayBadge && OrangePriority != GrayBadge
  {
    assert BlueStatus[3] == 'b' && GreenStatus[3] == 'g' && YellowStatus[3] == 'y' && GrayBadge[3] == 'g';
    assert GreenStatus[5] == 'e' && GrayBadge[5] == 'a';
    assert RedPriority[3] == 'r' && OrangePriority[3] == 'o';
  }

  /** The three statuses the dashboard knows. */
  predicate IsKnownStatus(status: string)
  {
    status == "In Progress" || status == "Completed" || status == "Pending"
  }

  /** getStatusColor: an exact match on the status, gray for anything else. */
  function StatusColor(status: string): (r: string)
    ensures r == BlueStatus <==> status == "In Progress"
    ensures r == GreenStatus <==> status == "Completed"
    ensures r == YellowStatus <==> status == "Pending"
    ensures r == GrayBadge <==> !IsKnownStatus(status)
  {
    BadgeColorsDistinct();
    if status == "In Progress" then BlueStatus
    else if status == "Completed" then GreenStatus
    else if status == "Pending" then YellowStatus
    else GrayBadge
  }

  /** The match is exact: a status in another case is gray. */
  lemma StatusMatchIsExact()
    ensures StatusColor("completed") == GrayBadge && StatusColor("In progress") == GrayBadge
  {
    assert "completed"[0] != "Completed"[0];
    assert "In progress"[3] != "In Progress"[3];
  }

  /** getPriorityColor: "High" anywhere gives red, otherwise "Medium" anywhere gives
      orange, otherwise gray. */
  function PriorityColor(priority: string): (r: string)
    ensures r == RedPriority <==> Contains(priority, "High")
    ensures r == OrangePriority <==> !Contains(priority, "High") && Contains(priority, "Medium")
    ensures r == GrayBadge <==> !Contains(priority, "High") && !Contains(priority, "Medium")
  {
    BadgeColorsDistinct();
    if Contains(priority, "High") then RedPriority
    else if Contains(priority, "Medium") then OrangePriority
    else GrayBadge
  }

  /** High is tested first: a priority naming both is red. */
  lemma HighBeatsMedium(a: string, b: string, c: string)
    ensures PriorityColor(a + "Medium" + b + "High" + c) == RedPriority
  {
    ContainsInfix(a + "Medium" + b, "High", c);
  }

  /** The three labels the task cards use: high is red, medium orange, low gray. */
  lemma HighLabelIsRed()
    ensures PriorityColor("High Priority") == RedPriority
  {
    ContainsInfix([], "High", " Priority");
    assert [] + "High" + " Priority" == "High Priority";
  }

  lemma MediumLabelIsOrange()
    ensures PriorityColor("Medium Priority") == OrangePriority
  {
    NoHighInMedium();
    MediumInMedium();
  }

  lemma MediumInMedium()
    ensures Contains("Medium Priority", "Medium")
  {
    var m := "Medium Priority";
    assert m[..6] == "Medium";
  }

  lemma NoHighInMedium()
    ensures !Contains("Medium Priority", "High")
  {
    var m := "Medium Priority";
    assert forall i :: 0 <= i < |m| ==> m[i] != 'H';
    assert m + "" == m;
    PrefixWithoutWord(m, "", "High");
  }

  lemma LowLabelIsGray()
    ensures PriorityColor("Low Priority") == GrayBadge
  {
    var l := "Low Priority";
    assert forall i :: 0 <= i < |l| ==> l[i] != 'H' && l[i] != 'M';
    PrefixWithoutWord(l, "", "High");
    PrefixWithoutWord(l, "", "Medium");
    assert l + "" == l;
  }

  /** The dashboard's two sample tasks. */
  const SampleTasks: seq<Task> := [
    Task(1, "UI Design", "In Progress", "Capstone 101", "11/20/2025", "High Priority", ""),
    Task(2, "Database Schema", "Completed", "Capstone 101", "11/15/2025", "High Priority", "")
  ]

  /** Their cards read blue and green, both with a red priority. */
  lemma SampleTaskBadges()
    ensures StatusColor(SampleTasks[0].status) == BlueStatus
    ensures StatusColor(SampleTasks[1].status) == GreenStatus
    ensures forall k :: 0 <= k < |SampleTasks| ==> PriorityColor(SampleTasks[k].priority) == RedPriority
  {
    HighLabelIsRed();
  }

  /** The two modals' state. */
  class DashboardModals {
    var showBriefing: bool
    var selectedTask: Option<Task>

    constructor ()
      ensures !showBriefing && selectedTask == None
    {
      showBriefing := false;
      selectedTask := None;
    }

    /** A modal is up; the page then locks its scrolling. */
    predicate AnyModalOpen()
      reads this
    {
      showBriefing || selectedTask.Some?
    }

    /** The briefing buttons open the briefing. */
    method OpenBriefing()
      modifies this
      ensures showBriefing && selectedTask == old(selectedTask)
      ensures AnyModalOpen()
    {
      showBriefing := true;
    }

    /** The briefing's backdrop and its close button. */
    method CloseBriefing()
      modifies this
      ensures !showBriefing && selectedTask == old(selectedTask)
    {
      showBriefing := false;
    }

    /** A task card's view button opens that task. */
    method OpenTask(t: Task)
      modifies this
      ensures selectedTask == Some(t) && showBriefing == old(showBriefing)
      ensures AnyModalOpen()
    {
      selectedTask := Some(t);
    }

    /** The task modal's backdrop. */
    method CloseTask()
      modifies this
      ensures selectedTask == None && showBriefing == old(showBriefing)
    {
      selectedTask := None;
    }

    /** A key press: Escape closes both modals, any other key changes nothing. */
    method HandleKey(key: string)
      modifies this
      ensures key == "Escape" ==> !showBriefing && selectedTask == None && !AnyModalOpen()
      ensures key != "Escape" ==> showBriefing == old(showBriefing) && selectedTask == old(selectedTask)
    {
      if key == "Escape" {
        showBriefing := false;
        selectedTask := None;
      }
    }
  }

  /** Whichever modals were opened, one Escape leaves the page with none. */
  method EscapeAfterOpening(m: DashboardModals, t: Task)
    modifies m
    ensures !m.AnyModalOpen()
  {
    m.OpenBriefing();
    m.OpenTask(t);
    m.HandleKey("Escape");
  }
}
