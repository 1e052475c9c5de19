/** The tasks page: tasks partitioned by category and status, the list view that joins
    the todo, ongoing and completed columns, the sidebar counts, the flag colour of a
    priority, the priority picker of the create-task dialog, and the page's view state. */
module Tasks {
  import opened Strings
  import opened Seqs

  datatype Category = Personal | Workspace
  datatype Status = PendingApproval | Todo | Ongoing | Completed
  datatype Priority = High | Medium | Low | NoPriority

  /** A task, reduced to the fields the page's logic reads. */
  datatype Task = Task(id: string, title: string, category: Category, status: Status, priority: Priority)

  /** The board and list presentations of the task area. */
  datatype Layout = Board | List

  /** The test filterByStatus applies: the status asked for, in the active category. */
  function InColumn(status: Status, view: Category): Task -> bool
  {
    (t: Task) => t.status == status && t.category == view
  }

  /** filterByStatus: the active category's tasks with the given status. */
  function FilterByStatus(tasks: seq<Task>, view: Category, status: Status): seq<Task>
  {
    Filter(InColumn(status, view), tasks)
  }

  /** A column holds exactly the tasks with its status and the active category, in the
      order of the task list. */
  lemma FilterByStatusExact(tasks: seq<Task>, view: Category, status: Status)
    ensures forall t :: t in FilterByStatus(tasks, view, status) <==> t in tasks && t.status == status && t.category == view
    ensures IsSubsequence(FilterByStatus(tasks, view, status), tasks)
    ensures forall t :: multiset(FilterByStatus(tasks, view, status))[t] ==
              if t.status == status && t.category == view then multiset(tasks)[t] else 0
  {
    var r := FilterByStatus(tasks, view, status);
    FilterMultiplicity(InColumn(status, view), tasks);
    forall t | t in r ensures t in tasks && t.status == status && t.category == view {
      var i :| 0 <= i < |r| && r[i] == t;
      assert InColumn(status, view)(r[i]);
    }
    forall t | t in tasks && t.status == status && t.category == view ensures t in r {
      var i :| 0 <= i < |tasks| && tasks[i] == t;
      assert InColumn(status, view)(tasks[i]);
    }
  }

  /** pendingTasks: the workspace tasks still awaiting approval. Its test is
      filterByStatus's with the category fixed to workspace. */
  function PendingTasks(tasks: seq<Task>): seq<Task>
  {
    FilterByStatus(tasks, Workspace, PendingApproval)
  }

  /** The list view: the todo column, then the ongoing column, then the completed one. */
  function ListView(tasks: seq<Task>, view: Category): seq<Task>
  {
    FilterByStatus(tasks, view, Todo) + FilterByStatus(tasks, view, Ongoing) + FilterByStatus(tasks, view, Completed)
  }

  /** The list view never shows a task awaiting approval, and only shows tasks of the
      active category. */
  lemma ListViewNoPending(tasks: seq<Task>, view: Category)
    ensures forall i :: 0 <= i < |ListView(tasks, view)| ==>
              ListView(tasks, view)[i].status != PendingApproval && ListView(tasks, view)[i].category == view
  {
    var a, b, c := FilterByStatus(tasks, view, Todo), FilterByStatus(tasks, view, Ongoing), FilterByStatus(tasks, view, Completed);
    forall i | 0 <= i < |a + b + c|
      ensures (a + b + c)[i].status != PendingApproval && (a + b + c)[i].category == view
    {
      if i < |a| {
        assert InColumn(Todo, view)(a[i]);
      } else if i < |a| + |b| {
        assert InColumn(Ongoing, view)(b[i - |a|]);
      } else {
        assert InColumn(Completed, view)(c[i - |a| - |b|]);
      }
    }
  }

  function TodoOrOngoing(view: Category): Task -> bool
  {
    (t: Task) => t.category == view && (t.status == Todo || t.status == Ongoing)
  }

  /** The active tasks of a category: everything not awaiting approval. */
  function IsActiveIn(view: Category): Task -> bool
  {
    (t: Task) => t.category == view && t.status != PendingApproval
  }

  /** Up to order, the list view is exactly the active category's tasks that are not
      awaiting approval, each as often as it occurs. */
  lemma ListViewIsActiveTasks(tasks: seq<Task>, view: Category)
    ensures multiset(ListView(tasks, view)) == multiset(Filter(IsActiveIn(view), tasks))
  {
    FilterDisjointUnion(InColumn(Todo, view), InColumn(Ongoing, view), TodoOrOngoing(view), tasks);
    FilterDisjointUnion(TodoOrOngoing(view), InColumn(Completed, view), IsActiveIn(view), tasks);
  }

  /** The "No active tasks found." message: shown when the list view is empty. */
  predicate ShowsNoActiveTasks(tasks: seq<Task>, view: Category)
  {
    |ListView(tasks, view)| == 0
  }

  /** The message appears exactly when every task of the active category awaits approval
      (in particular when the category has no tasks at all). */
  lemma NoActiveTasksIff(tasks: seq<Task>, view: Category)
    ensures ShowsNoActiveTasks(tasks, view) <==>
              forall i :: 0 <= i < |tasks| && tasks[i].category == view ==> tasks[i].status == PendingApproval
  {
    ListViewIsActiveTasks(tasks, view);
    assert |ListView(tasks, view)| == |Filter(IsActiveIn(view), tasks)| by {
      assert |multiset(ListView(tasks, view))| == |multiset(Filter(IsActiveIn(view), tasks))|;
    }
    FilterEmptyIff(IsActiveIn(view), tasks);
  }

  function InCategory(c: Category): Task -> bool
  {
    (t: Task) => t.category == c
  }

  /** The sidebar count of a category. */
  function CategoryCount(tasks: seq<Task>, c: Category): nat
  {
    |Filter(InCategory(c), tasks)|
  }

  /** The personal and workspace counts add up to the number of tasks. */
  lemma CategoryCountsAddUp(tasks: seq<Task>)
    ensures CategoryCount(tasks, Personal) + CategoryCount(tasks, Workspace) == |tasks|
  {
    FilterComplementLength(InCategory(Personal), InCategory(Workspace), tasks);
  }

  /** Where a flag is drawn: on a board card or on a list row. */
  datatype FlagSurface = BoardCard | ListRow

  const HighFlag := "text-red-600 fill-red-600"
  const MediumFlag := "text-orange-500 fill-orange-500"
  const LowFlag := "text-blue-600 fill-blue-600"
  const BoardGray := "text-gray-300"
  const ListGray := "text-gray-400"

  /** The flag colour of a priority: red, orange, blue, and gray otherwise (a lighter
      gray on board cards than on list rows). */
  function FlagColor(p: Priority, surface: FlagSurface): (r: string)
    ensures p == High <==> r == HighFlag
    ensures p == Medium <==> r == MediumFlag
    ensures p == Low <==> r == LowFlag
    ensures p == NoPriority ==> r == (if surface == BoardCard then BoardGray else ListGray)
  {
    if p == High then HighFlag
    else if p == Medium then MediumFlag
    else if p == Low then LowFlag
    else if surface == BoardCard then BoardGray else ListGray
  }

  /** The two surfaces agree on every priority that has a colour; only the gray
      fallback differs. */
  lemma FlagSurfacesAgree(p: Priority)
    ensures p != NoPriority ==> FlagColor(p, BoardCard) == FlagColor(p, ListRow)
    ensures p == NoPriority ==> FlagColor(p, BoardCard) != FlagColor(p, ListRow)
  {
    if p == NoPriority {
      assert BoardGray[10] != ListGray[10];
    }
  }

  /** An entry of the create-task dialog's priority picker. */
  datatype PriorityOption = PriorityOption(id: string, caption: string, iconColor: string)

  const Priorities: seq<PriorityOption> := [
    PriorityOption("P1", "High Priority", "fill-red-600 text-red-600"),
    PriorityOption("P2", "Medium Priority", "fill-orange-500 text-orange-500"),
    PriorityOption("P3", "Low Priority", "fill-blue-600 text-blue-600"),
    PriorityOption("P4", "No Priority", "text-gray-500")
  ]

  /** priorities.find(p => p.id === id): the first entry with the id, if any. */
  function FindPriority(options: seq<PriorityOption>, id: string): (r: Option<PriorityOption>)
    ensures r.Some? ==> r.value.id == id && r.value in options
    ensures r.Some? ==> exists i :: 0 <= i < |options| && options[i] == r.value
                                    && forall k :: 0 <= k < i ==> options[k].id != id
    ensures r.None? <==> forall i :: 0 <= i < |options| ==> options[i].id != id
  {
    if options == [] then None
    else if options[0].id == id then Some(options[0])
    else FindPriority(options[1..], id)
  }

  /** currentPriority: the entry for the selected id, or the fourth entry. */
  function CurrentPriority(selected: string): PriorityOption
  {
    match FindPriority(Priorities, selected)
    case Some(p) => p
    case None => Priorities[3]
  }

  /** A known id selects its own entry; any other id gets "No Priority". The initial
      'P4' shows "No Priority" too. */
  lemma CurrentPriorityRule(selected: string)
    ensures selected in {"P1", "P2", "P3", "P4"} ==> CurrentPriority(selected).id == selected
    ensures selected !in {"P1", "P2", "P3", "P4"} ==> CurrentPriority(selected).caption == "No Priority"
    ensures CurrentPriority("P4").caption == "No Priority"
  {
    if selected !in {"P1", "P2", "P3", "P4"} {
      assert forall i :: 0 <= i < |Priorities| ==> Priorities[i].id != selected;
    } else {
      assert Priorities[0].id == "P1" && Priorities[1].id == "P2";
      assert Priorities[2].id == "P3" && Priorities[3].id == "P4";
    }
    assert "P4" in {"P1", "P2", "P3", "P4"};
    assert CurrentPriority("P4") in Priorities;
  }

  /** The page's five sample tasks. */
  const SampleTasks: seq<Task> := [
    Task("1", "Wireframe Homepage", Personal, Todo, High),
    Task("2", "High-Fidelity Homepage Design", Personal, Todo, Medium),
    Task("5", "API Integration", Workspace, Todo, High),
    Task("ai-1", "Draft User Research Report", Workspace, PendingApproval, Medium),
    Task("ai-2", "Update Schema Documentation", Workspace, PendingApproval, High)
  ]

  /** On the sample data the sidebar shows 2 personal and 3 workspace tasks. */
  lemma SampleCategoryCounts()
    ensures CategoryCount(SampleTasks, Personal) == 2 && CategoryCount(SampleTasks, Workspace) == 3
  {
    var s := SampleTasks;
    assert s[4..] == [s[4]] && s[3..] == [s[3]] + s[4..] && s[2..] == [s[2]] + s[3..];
    assert s[1..] == [s[1]] + s[2..] && s == [s[0]] + s[1..];
    var p := InCategory(Personal);
    assert Filter(p, s[2..]) == [] by {
      assert Filter(p, s[4..]) == [];
      assert Filter(p, s[3..]) == [];
    }
    assert |Filter(p, s)| == 2;
    CategoryCountsAddUp(s);
  }

  /** On the sample data two tasks await approval. */
  lemma SamplePending()
    ensures PendingTasks(SampleTasks) == [SampleTasks[3], SampleTasks[4]]
  {
    var s := SampleTasks;
    var p := InColumn(PendingApproval, Workspace);
    assert s == [s[0], s[1], s[2], s[3], s[4]];
    FilterFive(p, s[0], s[1], s[2], s[3], s[4]);
  }

  /** On the sample data the workspace list view holds only 'API Integration'. */
  lemma SampleWorkspaceList()
    ensures ListView(SampleTasks, Workspace) == [SampleTasks[2]]
  {
    var s := SampleTasks;
    WorkspaceTodo();
    NoneOngoingOrCompleted(Ongoing);
    NoneOngoingOrCompleted(Completed);
    assert [s[2]] + [] + [] == [s[2]];
  }

  lemma WorkspaceTodo()
    ensures FilterByStatus(SampleTasks, Workspace, Todo) == [SampleTasks[2]]
  {
    var s := SampleTasks;
    assert s == [s[0], s[1], s[2], s[3], s[4]];
    FilterFive(InColumn(Todo, Workspace), s[0], s[1], s[2], s[3], s[4]);
  }

  lemma NoneOngoingOrCompleted(st: Status)
    requires st == Ongoing || st == Completed
    ensures FilterByStatus(SampleTasks, Workspace, st) == []
  {
    var s := SampleTasks;
    assert forall i :: 0 <= i < |s| ==> s[i].status != st;
    FilterEmptyIff(InColumn(st, Workspace), s);
  }

  /** The page's view state. */
  class TasksPage {
    var activeView: Category
    var activeTab: Layout
    var sidebarView: string
    var selectedTask: Option<Task>
    var showCreateTaskModal: bool
    var showLeftSidebar: bool

    constructor ()
      ensures activeView == Workspace && activeTab == List && sidebarView == "categories"
      ensures selectedTask == None && !showCreateTaskModal && !showLeftSidebar
    {
      activeView := Workspace;
      activeTab := List;
      sidebarView := "categories";
      selectedTask := None;
      showCreateTaskModal := false;
      showLeftSidebar := false;
    }

    /** The list view's rows for the active category: its todo, ongoing and completed
        tasks, in that order. The pending banner is not part of it. */
    function ListedTasks(tasks: seq<Task>): seq<Task>
      reads this
    {
      ListView(tasks, activeView)
    }

    /** A category button in the sidebar selects that category and the categories view. */
    method SelectCategory(c: Category)
      modifies this
      ensures activeView == c && sidebarView == "categories"
      ensures activeTab == old(activeTab) && selectedTask == old(selectedTask)
      ensures showCreateTaskModal == old(showCreateTaskModal) && showLeftSidebar == old(showLeftSidebar)
    {
      activeView := c;
      sidebarView := "categories";
    }

    /** A sidebar view button (today, upcoming, filters, completed). */
    method SelectSidebarView(v: string)
      modifies this
      ensures sidebarView == v
      ensures activeView == old(activeView) && activeTab == old(activeTab) && selectedTask == old(selectedTask)
      ensures showCreateTaskModal == old(showCreateTaskModal) && showLeftSidebar == old(showLeftSidebar)
    {
      sidebarView := v;
    }

    /** The Board / List switch. */
    method SelectLayout(l: Layout)
      modifies this
      ensures activeTab == l
      ensures activeView == old(activeView) && sidebarView == old(sidebarView) && selectedTask == old(selectedTask)
      ensures showCreateTaskModal == old(showCreateTaskModal) && showLeftSidebar == old(showLeftSidebar)
    {
      activeTab := l;
    }

    /** A click on a card or row opens the task's detail dialog. */
    method OpenTask(t: Task)
      modifies this
      ensures selectedTask == Some(t)
      ensures activeView == old(activeView) && activeTab == old(activeTab) && sidebarView == old(sidebarView)
      ensures showCreateTaskModal == old(showCreateTaskModal) && showLeftSidebar == old(showLeftSidebar)
    {
      selectedTask := Some(t);
    }

    /** Closing the detail dialog (backdrop, X button, or approving the task). */
    method CloseTask()
      modifies this
      ensures selectedTask == None
      ensures activeView == old(activeView) && activeTab == old(activeTab) && sidebarView == old(sidebarView)
      ensures showCreateTaskModal == old(showCreateTaskModal) && showLeftSidebar == old(showLeftSidebar)
    {
      selectedTask := None;
    }

    /** Reject closes the dialog only when the user confirms. */
    method Reject(confirmed: bool)
      modifies this
      ensures selectedTask == if confirmed then None else old(selectedTask)
      ensures activeView == old(activeView) && activeTab == old(activeTab) && sidebarView == old(sidebarView)
      ensures showCreateTaskModal == old(showCreateTaskModal) && showLeftSidebar == old(showLeftSidebar)
    {
      if confirmed {
        selectedTask := None;
      }
    }

    /** The New Task button and the dialog's Cancel/backdrop. */
    method SetCreateTaskModal(open: bool)
      modifies this
      ensures showCreateTaskModal == open
      ensures activeView == old(activeView) && activeTab == old(activeTab) && sidebarView == old(sidebarView)
      ensures selectedTask == old(selectedTask) && showLeftSidebar == old(showLeftSidebar)
    {
      showCreateTaskModal := open;
    }

    /** The menu button flips the small-screen sidebar. */
    method ToggleLeftSidebar()
      modifies this
      ensures showLeftSidebar == !old(showLeftSidebar)
      ensures activeView == old(activeView) && activeTab == old(activeTab) && sidebarView == old(sidebarView)
      ensures selectedTask == old(selectedTask) && showCreateTaskModal == old(showCreateTaskModal)
    {
      showLeftSidebar := !showLeftSidebar;
    }
  }

  /** The create-task dialog's own state. */
  class CreateTaskForm {
    var selectedPriority: string
    var showPriorityDropdown: bool
    var date: string

    constructor ()
      ensures selectedPriority == "P4" && !showPriorityDropdown && date == ""
    {
      selectedPriority := "P4";
      showPriorityDropdown := false;
      date := "";
    }

    /** The entry the priority button shows. */
    function Shown(): PriorityOption
      reads this
    {
      CurrentPriority(selectedPriority)
    }

    /** The priority button flips the dropdown. */
    method TogglePriorityDropdown()
      modifies this
      ensures showPriorityDropdown == !old(showPriorityDropdown)
      ensures selectedPriority == old(selectedPriority) && date == old(date)
    {
      showPriorityDropdown := !showPriorityDropdown;
    }

    /** Picking an entry selects it and closes the dropdown. */
    method PickPriority(id: string)
      modifies this
      ensures selectedPriority == id && !showPriorityDropdown && date == old(date)
    {
      selectedPriority := id;
      showPriorityDropdown := false;
    }

    /** The date input stores the picked date text. */
    method PickDate(d: string)
      modifies this
      ensures date == d
      ensures selectedPriority == old(selectedPriority) && showPriorityDropdown == old(showPriorityDropdown)
    {
      date := d;
    }
  }
}
